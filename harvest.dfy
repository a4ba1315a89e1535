/**
 * The callback handed to `page.evaluate`: walk the `.s-result-item`
 * containers in document order, push one record per container whose
 * extraction does not throw, and skip (after logging) those that do.
 */
module Harvest {
  import opened Wrappers
  import opened Listing

  /** The records harvested from a sequence of containers, defined push by push. */
  function Harvested(es: seq<Element>): (rs: seq<Record>)
  {
    if es == [] then []
    else
      var prefix := Harvested(es[..|es| - 1]);
      match Extract(es[|es| - 1])
      case Some(r) => prefix + [r]
      case None => prefix
  }

  /** The positions of the containers whose extraction does not throw, in increasing order. */
  function Kept(es: seq<Element>): (positions: seq<nat>)
  {
    if es == [] then []
    else Kept(es[..|es| - 1]) + (if es[|es| - 1].throws then [] else [|es| - 1])
  }

  /** How many containers throw during extraction. */
  function Throwing(es: seq<Element>): (n: nat)
  {
    if es == [] then 0
    else Throwing(es[..|es| - 1]) + (if es[|es| - 1].throws then 1 else 0)
  }

  /** The in-page loop: `data.push` for each container that does not throw. */
  method HarvestPage(elements: seq<Element>) returns (data: seq<Record>)
    ensures data == Harvested(elements)
  {
    data := [];
    var i := 0;
    while i < |elements|
      invariant 0 <= i <= |elements|
      invariant data == Harvested(elements[..i])
    {
      assert elements[..i + 1][..i] == elements[..i];
      var e := elements[i];
      match Extract(e) {
        case Some(r) => data := data + [r];
        case None =>
      }
      i := i + 1;
    }
    assert elements[..i] == elements;
  }

  /** Harvesting is order preserving: document order splits into record order. */
  lemma {:induction false} HarvestedAppend(a: seq<Element>, b: seq<Element>)
    ensures Harvested(a + b) == Harvested(a) + Harvested(b)
    decreases |b|
  {
    if b == [] {
      assert a + b == a;
    } else {
      var b' := b[..|b| - 1];
      assert (a + b)[..|a + b| - 1] == a + b';
      assert (a + b)[|a + b| - 1] == b[|b| - 1];
      HarvestedAppend(a, b');
    }
  }

  /** A single container contributes its whole record, or nothing when it throws. */
  lemma HarvestedSingle(e: Element)
    ensures Harvested([e]) == if e.throws then [] else [BuildRecord(e)]
  {
    assert [e][..0] == [];
  }

  /** Each throwing container costs exactly one record; none is ever gained. */
  lemma {:induction false} HarvestedLength(es: seq<Element>)
    ensures |Harvested(es)| + Throwing(es) == |es|
    ensures |Harvested(es)| <= |es|
  {
    if es != [] {
      HarvestedLength(es[..|es| - 1]);
    }
  }

  /** When no container throws, there is one record per container, in the same order. */
  lemma {:induction false} HarvestedNoThrow(es: seq<Element>)
    requires forall i :: 0 <= i < |es| ==> !es[i].throws
    ensures |Harvested(es)| == |es|
    ensures forall i :: 0 <= i < |es| ==> Harvested(es)[i] == BuildRecord(es[i])
  {
    if es != [] {
      HarvestedNoThrow(es[..|es| - 1]);
    }
  }

  /** Kept lists in-range positions of non-throwing containers, strictly increasing, and misses none. */
  lemma {:induction false} KeptPositions(es: seq<Element>)
    ensures forall k :: 0 <= k < |Kept(es)| ==> Kept(es)[k] < |es| && !es[Kept(es)[k]].throws
    ensures forall k, l :: 0 <= k < l < |Kept(es)| ==> Kept(es)[k] < Kept(es)[l]
    ensures forall i :: 0 <= i < |es| && !es[i].throws ==> i in Kept(es)
  {
    if es != [] {
      var n := |es| - 1;
      var p := es[..n];
      KeptPositions(p);
      var kp := Kept(p);
      var tail: seq<nat> := if es[n].throws then [] else [n];
      assert Kept(es) == kp + tail;
      assert forall k :: 0 <= k < |kp| ==> kp[k] < n && es[kp[k]] == p[kp[k]];
      assert forall i :: 0 <= i < n ==> es[i] == p[i];
    }
  }

  /** Record k of the harvest is the record of the container at position Kept(es)[k]. */
  lemma {:induction false} HarvestedAtKept(es: seq<Element>)
    ensures |Harvested(es)| == |Kept(es)|
    ensures forall k :: 0 <= k < |Kept(es)| ==>
      Kept(es)[k] < |es| && Harvested(es)[k] == BuildRecord(es[Kept(es)[k]])
  {
    if es != [] {
      var n := |es| - 1;
      var p := es[..n];
      HarvestedAtKept(p);
      KeptPositions(p);
      var kp, hp := Kept(p), Harvested(p);
      assert forall k :: 0 <= k < |kp| ==> kp[k] < n && es[kp[k]] == p[kp[k]];
      if es[n].throws {
        assert Kept(es) == kp && Harvested(es) == hp;
      } else {
        assert Kept(es) == kp + [n] && Harvested(es) == hp + [BuildRecord(es[n])];
      }
    }
  }

  /**
   * The harvest lists exactly the non-throwing containers in document order:
   * record k is the full record of container Kept(es)[k], the positions
   * increase strictly, and every non-throwing container is among them.
   */
  lemma HarvestedIsKept(es: seq<Element>)
    ensures |Harvested(es)| == |Kept(es)|
    ensures forall k :: 0 <= k < |Kept(es)| ==>
      Kept(es)[k] < |es| && !es[Kept(es)[k]].throws && Harvested(es)[k] == BuildRecord(es[Kept(es)[k]])
    ensures forall k, l :: 0 <= k < l < |Kept(es)| ==> Kept(es)[k] < Kept(es)[l]
    ensures forall i :: 0 <= i < |es| && !es[i].throws ==> i in Kept(es)
  {
    KeptPositions(es);
    HarvestedAtKept(es);
  }
}
