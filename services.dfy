/**
 * The request and response shapes the handlers exchange with callers:
 * the query part of a service request, the result codes, and the replies
 * the handlers write (an envelope, a bare record list, a bare count, or the
 * ad-hoc refusal written when the auth token names no user).
 */
module Services {
  import opened Wrappers
  import opened Documents

  const StatusOK := 200
  const StatusBadRequest := 400
  const StatusInternalServerError := 500

  /** The service name every envelope carries. */
  const Service := "MetaData"

  /** Result codes of the service vocabulary used by the handlers. */
  datatype Code = OK | BindError | ParseError | InsertError | RemoveError

  /**
   * The HTTP status each result code is written with. The handlers pass
   * status and code separately, but every pair they pass agrees with this map.
   */
  function StatusFor(code: Code): (status: int)
    ensures (status == StatusOK) == code.OK?
    ensures status in {StatusOK, StatusBadRequest, StatusInternalServerError}
    ensures code.ParseError? || code.InsertError? ==> status == StatusInternalServerError
    ensures code.BindError? || code.RemoveError? ==> status == StatusBadRequest
  {
    match code
    case OK => StatusOK
    case BindError => StatusBadRequest
    case RemoveError => StatusBadRequest
    case ParseError => StatusInternalServerError
    case InsertError => StatusInternalServerError
  }

  /** The query part of a service request (services.ServiceQuery). */
  datatype ServiceQuery = ServiceQuery(
    query: string,
    spec: Option<Spec>,
    idx: int,
    limit: int,
    sortKeys: seq<string>,
    sortOrder: int)

  /** The results payload of an envelope. */
  datatype Results = Results(nRecords: int, records: seq<Doc>)

  /** A reply as written to the caller: HTTP status and JSON body. */
  datatype Reply =
    | Envelope(service: string, status: int, code: Code, detail: Option<Error>, results: Option<Results>)
      // a bare JSON list of records; None is a nil slice
    | RecordList(status: int, records: Option<seq<Doc>>)
    | Total(status: int, n: int)
      // {"error": ..., "message": ..., "code": ...}
    | Refusal(status: int, code: Code, error: string, message: string)

  /**
   * Every reply's status agrees with its result code, an envelope carries an
   * error detail exactly when its code is not OK, and bare lists and counts
   * are only written on success.
   */
  predicate Consistent(r: Reply) {
    match r
    case Envelope(_, status, code, detail, _) => status == StatusFor(code) && (code.OK? <==> detail.None?)
    case RecordList(status, _) => status == StatusOK
    case Total(status, _) => status == StatusOK
    case Refusal(status, code, _, _) => status == StatusFor(code) && !code.OK?
  }

  /** The envelope services.Response builds for a failure with the given code. */
  function Failed(code: Code, err: Error): (r: Reply)
    requires !code.OK?
    ensures Consistent(r) && r.Envelope?
    ensures r.status != StatusOK && r.code == code && r.detail == Some(err)
    ensures r.results.None?
  {
    Envelope(Service, StatusFor(code), code, Some(err), None)
  }
}
