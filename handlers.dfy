/**
 * The HTTP handlers of the metadata service: which filter governs a request,
 * whether and how the document store is called, and which status and result
 * code each path replies with. Request binding and body decoding arrive as
 * already-decided Results; the query-language parser and the auth-token check
 * are parameters.
 */
module Handlers {
  import opened Wrappers
  import opened Documents
  import opened Store
  import opened Services
  import opened Helpers

  /** The query-language parser (ql.ParseQuery): a spec, possibly nil, or an error. */
  type Parser = string -> Result<Option<Spec>, Error>

  const NoUserError := "no user found in token"
  const NoUserMessage := "no user found"

  /**
   * The filter that governs a search or count: an explicit spec (even an
   * empty map) is used as given and the query string is not consulted;
   * otherwise the query is parsed, and a parse error aborts the request.
   */
  function ResolveSpec(q: ServiceQuery, parse: Parser): (r: Result<Option<Spec>, Error>)
    ensures q.spec.Some? ==> r == Success(q.spec)
    ensures r.Failure? <==> q.spec.None? && parse(q.query).Failure?
    ensures q.spec.None? ==> r == parse(q.query)
  {
    if q.spec.Some? then Success(q.spec) else parse(q.query)
  }

  /** With an explicit spec, neither the query string nor the parser affects resolution. */
  lemma ExplicitSpecIgnoresQuery(q: ServiceQuery, otherQuery: string, parse: Parser, otherParse: Parser)
    requires q.spec.Some?
    ensures ResolveSpec(q, parse) == ResolveSpec(q.(query := otherQuery), otherParse) == Success(q.spec)
  {
  }

  /**
   * The retrieval a search makes for a resolved spec: sorted retrieval with
   * the request's keys and order exactly when sort keys are given, plain
   * retrieval otherwise, both with the request's idx and limit.
   */
  function Retrieval(coll: Collection, spec: Spec, q: ServiceQuery): (c: Call)
    ensures c.GetCall? || c.GetSortedCall?
    ensures c.GetSortedCall? <==> |q.sortKeys| > 0
    ensures c.coll == coll && c.spec == spec && c.idx == q.idx && c.limit == q.limit
    ensures c.GetSortedCall? ==> c.sortKeys == q.sortKeys && c.sortOrder == q.sortOrder
  {
    if |q.sortKeys| > 0 then GetSortedCall(coll, spec, q.sortKeys, q.sortOrder, q.idx, q.limit)
    else GetCall(coll, spec, q.idx, q.limit)
  }

  /** The success envelope of an upload: one record holding only the identifier. */
  function Inserted(did: string): (r: Reply)
    ensures Consistent(r) && r.Envelope? && r.code.OK? && r.status == StatusOK
    ensures r.results.Some? && r.results.value.nRecords == |r.results.value.records| == 1
    ensures r.results.value.records[0].Keys == {"did"} && r.results.value.records[0]["did"] == Str(did)
  {
    Envelope(Service, StatusOK, OK, None, Some(Results(1, [map["did" := Str(did)]])))
  }

  /** GET /record?did=...: all records whose did is the requested one. */
  method GetHandler(db: DocStore, cfg: Config, bound: Result<string, Error>) returns (reply: Reply)
    modifies db
    ensures Consistent(reply)
    ensures Writes(db.log) == Writes(old(db.log))
    ensures bound.Failure? ==> reply == Failed(BindError, bound.error) && db.log == old(db.log)
    ensures bound.Success? ==>
      && reply.RecordList? && reply.records.Some?
      && db.log == old(db.log) + [Event(GetCall(cfg.metaData, DidSpec(bound.value), 0, -1), Records(reply.records.value))]
  {
    ghost var before := db.log;
    if bound.Failure? {
      return Failed(BindError, bound.error);
    }
    var spec := DidSpec(bound.value);
    var records := db.Get(cfg.metaData, spec, 0, -1);
    reply := RecordList(StatusOK, Some(records));
    ReadsKeepWrites(before, db.log);
  }

  /** POST /record: upload one metadata record. */
  method PostHandler(db: DocStore, cfg: Config, render: Value -> string, body: Result<Doc, Error>)
    returns (reply: Reply)
    modifies db
    ensures Consistent(reply)
    ensures body.Failure? ==> reply == Failed(ParseError, body.error) && db.log == old(db.log)
    ensures body.Success? && "did" !in body.value ==>
      reply == Failed(InsertError, MissingDidMessage) && db.log == old(db.log)
    ensures body.Success? && "did" in body.value ==>
      var k := |old(db.log)|;
      && |db.log| == k + 1 && db.log[..k] == old(db.log)
      && db.log[k].call == InsertCall(cfg.mongoDB, body.value)
      && db.log[k].answer.Status?
      && reply == match db.log[k].answer.err
                  case Some(e) => Failed(InsertError, e)
                  case None => Inserted(DidOf(body.value, render).value)
    ensures Writes(db.log) == Writes(old(db.log)) +
      if body.Success? && "did" in body.value then [InsertCall(cfg.mongoDB, body.value)] else []
  {
    if body.Failure? {
      return Failed(ParseError, body.error);
    }
    ghost var before := db.log;
    var did, err := InsertData(db, cfg, render, body.value);
    if "did" in body.value {
      OneWriteAppends(before, db.log[|before|]);
    }
    if err.Some? {
      return Failed(InsertError, err.value);
    }
    reply := Inserted(did);
  }

  /** POST /search: records matching the resolved filter, plain or sorted. */
  method SearchHandler(db: DocStore, cfg: Config, parse: Parser, body: Result<ServiceQuery, Error>)
    returns (reply: Reply)
    modifies db
    ensures Consistent(reply)
    ensures Writes(db.log) == Writes(old(db.log))
    ensures body.Failure? ==> reply == Failed(ParseError, body.error) && db.log == old(db.log)
    ensures body.Success? && ResolveSpec(body.value, parse).Failure? ==>
      reply == Failed(ParseError, ResolveSpec(body.value, parse).error) && db.log == old(db.log)
    ensures body.Success? && ResolveSpec(body.value, parse) == Success(None) ==>
      reply == RecordList(StatusOK, None) && db.log == old(db.log)
    ensures body.Success? && ResolveSpec(body.value, parse).Success? && ResolveSpec(body.value, parse).value.Some? ==>
      var spec, k := ResolveSpec(body.value, parse).value.value, |old(db.log)|;
      && reply.RecordList? && reply.status == StatusOK && reply.records.Some?
      && |db.log| == k + 2 && db.log[..k] == old(db.log)
      && db.log[k].call == CountCall(cfg.metaData, spec)
      && db.log[k + 1] == Event(Retrieval(cfg.metaData, spec, body.value), Records(reply.records.value))
  {
    ghost var before := db.log;
    if body.Failure? {
      return Failed(ParseError, body.error);
    }
    var q := body.value;
    var spec := q.spec;
    if spec.None? {
      var parsed := parse(q.query);
      if parsed.Failure? {
        return Failed(ParseError, parsed.error);
      }
      spec := parsed.value;
    }
    var records: Option<seq<Doc>> := None;
    var nrecords := 0;
    if spec.Some? {
      nrecords := db.Count(cfg.metaData, spec.value);
      if |q.sortKeys| > 0 {
        var found := db.GetSorted(cfg.metaData, spec.value, q.sortKeys, q.sortOrder, q.idx, q.limit);
        records := Some(found);
      } else {
        var found := db.Get(cfg.metaData, spec.value, q.idx, q.limit);
        records := Some(found);
      }
    }
    reply := RecordList(StatusOK, records);
    ReadsKeepWrites(before, db.log);
  }

  /** POST /count: the store's count for the resolved filter; idx and limit play no part. */
  method CountHandler(db: DocStore, cfg: Config, parse: Parser, body: Result<ServiceQuery, Error>)
    returns (reply: Reply)
    modifies db
    ensures Consistent(reply)
    ensures Writes(db.log) == Writes(old(db.log))
    ensures body.Failure? ==> reply == Failed(ParseError, body.error) && db.log == old(db.log)
    ensures body.Success? && ResolveSpec(body.value, parse).Failure? ==>
      reply == Failed(ParseError, ResolveSpec(body.value, parse).error) && db.log == old(db.log)
    ensures body.Success? && ResolveSpec(body.value, parse) == Success(None) ==>
      reply == Total(StatusOK, 0) && db.log == old(db.log)
    ensures body.Success? && ResolveSpec(body.value, parse).Success? && ResolveSpec(body.value, parse).value.Some? ==>
      && reply.Total? && reply.status == StatusOK
      && db.log == old(db.log) + [Event(CountCall(cfg.metaData, ResolveSpec(body.value, parse).value.value), Number(reply.n))]
  {
    ghost var before := db.log;
    if body.Failure? {
      return Failed(ParseError, body.error);
    }
    var q := body.value;
    var spec := q.spec;
    if spec.None? {
      var parsed := parse(q.query);
      if parsed.Failure? {
        return Failed(ParseError, parsed.error);
      }
      spec := parsed.value;
    }
    var nrecords := 0;
    if spec.Some? {
      nrecords := db.Count(cfg.metaData, spec.value);
    }
    reply := Total(StatusOK, nrecords);
    ReadsKeepWrites(before, db.log);
  }

  /**
   * DELETE /record?did=...: remove the records with that identifier once the
   * auth token names a user. A missing did parameter arrives as "". Success
   * is reported whenever the store reports no error, matched or not.
   */
  method DeleteHandler(db: DocStore, cfg: Config, did: string, auth: Outcome<Error>) returns (reply: Reply)
    modifies db
    ensures Consistent(reply)
    ensures auth.Fail? ==>
      reply == Refusal(StatusBadRequest, RemoveError, NoUserError, NoUserMessage) && db.log == old(db.log)
    ensures auth.Pass? ==>
      && reply.Envelope? && reply.service == Service && reply.results.None?
      && (reply.code.OK? || reply.code.RemoveError?)
      && db.log == old(db.log) + [Event(RemoveCall(cfg.metaData, DidSpec(did)), Status(reply.detail))]
    ensures Writes(db.log) == Writes(old(db.log)) + if auth.Pass? then [RemoveCall(cfg.metaData, DidSpec(did))] else []
  {
    if auth.Fail? {
      return Refusal(StatusBadRequest, RemoveError, NoUserError, NoUserMessage);
    }
    ghost var before := db.log;
    var spec := DidSpec(did);
    var err := db.Remove(cfg.metaData, spec);
    OneWriteAppends(before, db.log[|before|]);
    var status := StatusOK;
    var code := OK;
    if err.Some? {
      status := StatusBadRequest;
      code := RemoveError;
    }
    reply := Envelope(Service, status, code, err, None);
  }
}
