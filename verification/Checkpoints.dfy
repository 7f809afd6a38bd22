/** Checkpoint records, the append-only continuations of a base record, and the store that keeps them. */
module Checkpoints {
  import opened Wrappers
  import opened BoardModel

  /** The envelope of one boundary. Absent fields (nil, zero, empty) mean "unchanged" on a continuation. */
  datatype Meta = Meta(
    steps: Option<seq<string>>,
    iteration: int,
    payload: string,
    attributes: map<string, string>,
    timestamp: nat,
    startedAt: nat,
    specVersion: string)

  datatype Record = Record(execID: string, meta: Meta, board: Snapshot)

  datatype Increment = Increment(execID: string, meta: Meta, board: Delta)

  /** A base record and the continuations accepted since it was written. */
  datatype Store = Store(base: Option<Record>, chain: seq<Increment>)

  function Merged(was: Meta, now: Meta): Meta {
    Meta(
      if now.steps.Some? then now.steps else was.steps,
      if now.iteration != 0 then now.iteration else was.iteration,
      if now.payload != "" then now.payload else was.payload,
      if now.attributes != map[] then now.attributes else was.attributes,
      if now.timestamp != 0 then now.timestamp else was.timestamp,
      if now.startedAt != 0 then now.startedAt else was.startedAt,
      if now.specVersion != "" then now.specVersion else was.specVersion)
  }

  /** A continuation that leaves a field out leaves the record's alone, one that names it replaces it, field by field. */
  lemma MergedFieldByField(was: Meta, now: Meta)
    ensures var m := Merged(was, now);
            && (now.steps.None? ==> m.steps == was.steps) && (now.steps.Some? ==> m.steps == now.steps)
            && (now.iteration == 0 ==> m.iteration == was.iteration) && (now.iteration != 0 ==> m.iteration == now.iteration)
            && (now.payload == "" ==> m.payload == was.payload) && (now.payload != "" ==> m.payload == now.payload)
            && (now.attributes == map[] ==> m.attributes == was.attributes) && (now.attributes != map[] ==> m.attributes == now.attributes)
            && (now.timestamp == 0 ==> m.timestamp == was.timestamp) && (now.timestamp != 0 ==> m.timestamp == now.timestamp)
            && (now.startedAt == 0 ==> m.startedAt == was.startedAt) && (now.startedAt != 0 ==> m.startedAt == now.startedAt)
            && (now.specVersion == "" ==> m.specVersion == was.specVersion) && (now.specVersion != "" ==> m.specVersion == now.specVersion)
  {
  }

  const NO_META := Meta(None, 0, "", map[], 0, 0, "")

  /** So envelopes merge like a chain: an empty one changes nothing, and merging in two steps is merging in one. */
  lemma MergedComposes(a: Meta, b: Meta, c: Meta)
    ensures Merged(a, NO_META) == a && Merged(NO_META, a) == a
    ensures Merged(Merged(a, b), c) == Merged(a, Merged(b, c))
  {
  }

  function ApplyIncrement(r: Record, inc: Increment): Record {
    r.(meta := Merged(r.meta, inc.meta), board := Replay(r.board, inc.board))
  }

  function Rebuilt(base: Record, chain: seq<Increment>): Record {
    if chain == [] then base else ApplyIncrement(Rebuilt(base, chain[..|chain| - 1]), chain[|chain| - 1])
  }

  /** What a reader sees: the base with every continuation applied, never a part of the chain. */
  function Load(st: Store): Option<Record> {
    if st.base.None? then None else Some(Rebuilt(st.base.value, st.chain))
  }

  lemma LoadAppended(st: Store, inc: Increment)
    requires st.base.Some?
    ensures Load(st.(chain := st.chain + [inc])) == Some(ApplyIncrement(Load(st).value, inc))
  {
    assert (st.chain + [inc])[..|st.chain|] == st.chain;
  }

  /** A store's answer to one call. */
  datatype Reply = Accepted | NeedsBase | Failed

  /** The store object: base writes replace the record and discard the chain. */
  class CheckpointStore {
    var base: Option<Record>
    var chain: seq<Increment>

    function Contents(): Store
      reads this
    {
      Store(base, chain)
    }

    constructor ()
      ensures Contents() == Store(None, [])
    {
      base, chain := None, [];
    }

    method WriteBase(cp: Record, reply: Reply) returns (got: Reply)
      modifies this
      ensures got == reply
      ensures Contents() == if reply == Accepted then Store(Some(cp), []) else old(Contents())
    {
      got := reply;
      if reply == Accepted {
        base, chain := Some(cp), [];
      }
    }

    /** A continuation needs a base to extend: without one the store asks for it. */
    method Append(inc: Increment, reply: Reply) returns (got: Reply)
      modifies this
      ensures got == if reply == Accepted && old(base).None? then NeedsBase else reply
      ensures Contents() == if got == Accepted then Store(old(base), old(chain) + [inc]) else old(Contents())
    {
      got := if reply == Accepted && base.None? then NeedsBase else reply;
      if got == Accepted {
        chain := chain + [inc];
      }
    }

    method LoadRecord() returns (r: Option<Record>)
      ensures r == Load(Contents())
    {
      if base.None? {
        return None;
      }
      var cp := base.value;
      for i := 0 to |chain|
        invariant cp == Rebuilt(base.value, chain[..i])
      {
        assert chain[..i + 1][..i] == chain[..i];
        cp := ApplyIncrement(cp, chain[i]);
      }
      assert chain[..|chain|] == chain;
      r := Some(cp);
    }
  }
}
