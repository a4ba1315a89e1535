/**
 * The head of the `ndjson.stringify() -> gzip -> file` pipeline, seen only
 * as the ordered operations it receives: one write per record, then end.
 */
module Sink {
  import opened Listing

  /** One call on the sink: `write(record)` or `end()`. */
  datatype SinkOp = Wrote(record: Record) | Ended

  /** The writes of a sequence of records, one per record, in order. */
  function Writes(rs: seq<Record>): (ops: seq<SinkOp>)
  {
    if rs == [] then [] else Writes(rs[..|rs| - 1]) + [Wrote(rs[|rs| - 1])]
  }

  /** The records a trace wrote, in the order it wrote them. */
  function WrittenOf(ops: seq<SinkOp>): (rs: seq<Record>)
  {
    if ops == [] then []
    else WrittenOf(ops[..|ops| - 1]) + (match ops[|ops| - 1] case Wrote(r) => [r] case Ended => [])
  }

  /** How many times a trace ends the stream. */
  function EndCount(ops: seq<SinkOp>): (n: nat)
  {
    if ops == [] then 0 else EndCount(ops[..|ops| - 1]) + (if ops[|ops| - 1] == Ended then 1 else 0)
  }

  /** A record stream feeding the named compressed file. */
  class RecordSink {
    const destination: string
    var ops: seq<SinkOp>

    constructor (destination: string)
      ensures this.destination == destination && ops == []
    {
      this.destination := destination;
      ops := [];
    }

    /** The records written so far. */
    function Written(): (rs: seq<Record>)
      reads this
    {
      WrittenOf(ops)
    }

    /** Whether `end()` has been called. */
    predicate IsEnded()
      reads this
    {
      EndCount(ops) > 0
    }

    method Write(r: Record)
      modifies this
      ensures ops == old(ops) + [Wrote(r)]
    {
      ops := ops + [Wrote(r)];
    }

    method End()
      modifies this
      ensures ops == old(ops) + [Ended]
    {
      ops := ops + [Ended];
    }
  }

  /** Writing records one by one puts one write per record on the trace and never ends it. */
  lemma {:induction false} WritesFaithful(rs: seq<Record>)
    ensures |Writes(rs)| == |rs|
    ensures WrittenOf(Writes(rs)) == rs
    ensures EndCount(Writes(rs)) == 0
    ensures forall i :: 0 <= i < |rs| ==> Writes(rs)[i] == Wrote(rs[i])
  {
    if rs != [] {
      var p := rs[..|rs| - 1];
      WritesFaithful(p);
      assert Writes(rs)[..|Writes(rs)| - 1] == Writes(p);
    }
  }

  /**
   * The trace of a save: the stream receives exactly the records, in order,
   * and is then ended once, as its last operation; zero records give just the end.
   */
  lemma SaveTrace(rs: seq<Record>)
    ensures WrittenOf(Writes(rs) + [Ended]) == rs
    ensures EndCount(Writes(rs) + [Ended]) == 1
    ensures rs == [] ==> Writes(rs) + [Ended] == [Ended]
  {
    var t := Writes(rs) + [Ended];
    assert t[..|t| - 1] == Writes(rs);
    WritesFaithful(rs);
  }
}
