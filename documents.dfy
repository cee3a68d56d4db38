/**
 * Schema-less metadata records and the filter specifications that select them.
 * A JSON document decodes in Go to map[string]any; here the "any" is the
 * tagged value type Value.
 */
module Documents {
  import opened Wrappers

  /** A decoded JSON value. JSON numbers decode to float64 in Go, modelled as real. */
  datatype Value =
    | Null
    | Bool(b: bool)
    | Num(x: real)
    | Str(s: string)
    | List(items: seq<Value>)
    | Object(fields: map<string, Value>)

  /** A metadata record: field name to value. */
  type Doc = map<string, Value>

  /** A filter specification handed to the document store (map[string]any). */
  type Spec = map<string, Value>

  /** An error as carried by Go's error values: its message. */
  type Error = string

  /** A database name and a collection name inside it. */
  datatype Collection = Collection(dbName: string, dbColl: string)

  /**
   * The two collection settings the core reads from the service configuration:
   * UserMetaData.DBName/DBColl for reads and removal, and
   * UserMetaData.MongoDB.DBName/DBColl for insertion. They are kept apart
   * because the source keeps them apart.
   */
  datatype Config = Config(metaData: Collection, mongoDB: Collection)

  /**
   * Go's fmt.Sprintf("%v", v) for a decoded JSON value. Strings print verbatim,
   * booleans as true/false and a JSON null (a nil interface) as <nil>; the
   * rendering of numbers, arrays and objects is delegated to `render`.
   */
  function Sprint(v: Value, render: Value -> string): (s: string)
    ensures v.Str? ==> s == v.s
    ensures v == Null ==> s == "<nil>"
    ensures v.Bool? ==> s == if v.b then "true" else "false"
  {
    match v
    case Str(t) => t
    case Null => "<nil>"
    case Bool(b) => if b then "true" else "false"
    case _ => render(v)
  }

  /** The filter {"did": did} used to read or remove one record by its identifier. */
  function DidSpec(did: string): (spec: Spec)
    ensures spec.Keys == {"did"}
    ensures spec["did"] == Str(did)
  {
    map["did" := Str(did)]
  }
}
