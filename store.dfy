/**
 * The document store as seen by the request-decision layer: an uninterpreted
 * collaborator. Matching, pagination, sorting and uniqueness belong to the
 * store and are not modelled; every call is recorded, with the answer the
 * store gave, in a ghost log so that "the store was not touched" and "the
 * store was called with exactly these arguments" can be stated.
 */
module Store {
  import opened Wrappers
  import opened Documents

  /** One call into the store, with its arguments. */
  datatype Call =
    | CountCall(coll: Collection, spec: Spec)
    | GetCall(coll: Collection, spec: Spec, idx: int, limit: int)
    | GetSortedCall(coll: Collection, spec: Spec, sortKeys: seq<string>, sortOrder: int, idx: int, limit: int)
    | InsertCall(coll: Collection, rec: Doc)
    | RemoveCall(coll: Collection, spec: Spec)
  {
    /** Calls that change the stored records. */
    predicate IsWrite() {
      InsertCall? || RemoveCall?
    }
  }

  /** What the store answered: a count, a list of records, or an error-or-nil. */
  datatype Answer = Number(n: int) | Records(docs: seq<Doc>) | Status(err: Option<Error>)

  datatype Event = Event(call: Call, answer: Answer)

  /** The mutating calls of a log, in order. */
  ghost function Writes(log: seq<Event>): (w: seq<Call>)
    ensures |w| <= |log|
    ensures forall i :: 0 <= i < |w| ==> w[i].IsWrite()
  {
    if log == [] then []
    else (if log[0].call.IsWrite() then [log[0].call] else []) + Writes(log[1..])
  }

  /** The write history of a log extended by more events is the old history extended. */
  lemma {:induction false} WritesAppend(a: seq<Event>, b: seq<Event>)
    ensures Writes(a + b) == Writes(a) + Writes(b)
  {
    if a == [] {
      assert a + b == b;
    } else {
      assert (a + b)[0] == a[0];
      assert (a + b)[1..] == a[1..] + b;
      WritesAppend(a[1..], b);
    }
  }

  /** A log of reads only has an empty write history. */
  lemma {:induction false} WritesOfReads(log: seq<Event>)
    requires forall i :: 0 <= i < |log| ==> !log[i].call.IsWrite()
    ensures Writes(log) == []
  {
    if log != [] {
      WritesOfReads(log[1..]);
    }
  }

  /**
   * Extending a log by reads only leaves its write history as it was: the
   * read-only handlers never change what has been written to the store.
   */
  lemma ReadsKeepWrites(before: seq<Event>, after: seq<Event>)
    requires |before| <= |after| && after[..|before|] == before
    requires forall i :: |before| <= i < |after| ==> !after[i].call.IsWrite()
    ensures Writes(after) == Writes(before)
  {
    var added := after[|before|..];
    assert after == before + added;
    WritesAppend(before, added);
    WritesOfReads(added);
  }

  /** Extending a log by one write adds exactly that call to its write history. */
  lemma OneWriteAppends(before: seq<Event>, e: Event)
    requires e.call.IsWrite()
    ensures Writes(before + [e]) == Writes(before) + [e.call]
  {
    WritesAppend(before, [e]);
    assert [e][1..] == [];
  }

  /**
   * A document store connection (docdb.DocDB). Its answers are chosen by the
   * store and are arbitrary here; the ghost log records each call and answer.
   */
  class DocStore {
    ghost var log: seq<Event>

    constructor ()
      ensures log == []
    {
      log := [];
    }

    method Count(coll: Collection, spec: Spec) returns (n: int)
      modifies this
      ensures log == old(log) + [Event(CountCall(coll, spec), Number(n))]
    {
      n := *;
      log := log + [Event(CountCall(coll, spec), Number(n))];
    }

    method Get(coll: Collection, spec: Spec, idx: int, limit: int) returns (docs: seq<Doc>)
      modifies this
      ensures log == old(log) + [Event(GetCall(coll, spec, idx, limit), Records(docs))]
    {
      docs := *;
      log := log + [Event(GetCall(coll, spec, idx, limit), Records(docs))];
    }

    method GetSorted(coll: Collection, spec: Spec, sortKeys: seq<string>, sortOrder: int, idx: int, limit: int)
      returns (docs: seq<Doc>)
      modifies this
      ensures log == old(log) + [Event(GetSortedCall(coll, spec, sortKeys, sortOrder, idx, limit), Records(docs))]
    {
      docs := *;
      log := log + [Event(GetSortedCall(coll, spec, sortKeys, sortOrder, idx, limit), Records(docs))];
    }

    method InsertRecord(coll: Collection, rec: Doc) returns (err: Option<Error>)
      modifies this
      ensures log == old(log) + [Event(InsertCall(coll, rec), Status(err))]
    {
      err := *;
      log := log + [Event(InsertCall(coll, rec), Status(err))];
    }

    method Remove(coll: Collection, spec: Spec) returns (err: Option<Error>)
      modifies this
      ensures log == old(log) + [Event(RemoveCall(coll, spec), Status(err))]
    {
      err := *;
      log := log + [Event(RemoveCall(coll, spec), Status(err))];
    }
  }
}
