/** insertData: validate the identifier of an uploaded record and store it. */
module Helpers {
  import opened Wrappers
  import opened Documents
  import opened Store

  const MissingDidMessage := "provided metadata record does not contain did attribute"

  /**
   * The identifier echoed back for a record: the %v rendering of its "did"
   * value when that key is present, whatever the value is; none otherwise.
   */
  function DidOf(rec: Doc, render: Value -> string): (did: Option<string>)
    ensures did.Some? <==> "did" in rec
    ensures "did" in rec && rec["did"].Str? ==> did == Some(rec["did"].s)
  {
    if "did" in rec then Some(Sprint(rec["did"], render)) else None
  }

  /**
   * Inserts `rec` unmodified into the MongoDB collection of the configuration
   * when it has a "did" key, and returns the identifier with the store's
   * error; without the key, returns "" with an error and leaves the store alone.
   */
  method InsertData(db: DocStore, cfg: Config, render: Value -> string, rec: Doc)
    returns (did: string, err: Option<Error>)
    modifies db
    ensures "did" !in rec ==> did == "" && err == Some(MissingDidMessage) && db.log == old(db.log)
    ensures "did" in rec ==>
      && Some(did) == DidOf(rec, render)
      && db.log == old(db.log) + [Event(InsertCall(cfg.mongoDB, rec), Status(err))]
  {
    var found := DidOf(rec, render);
    if found.None? {
      return "", Some(MissingDidMessage);
    }
    did := found.value;
    err := db.InsertRecord(cfg.mongoDB, rec);
  }
}
