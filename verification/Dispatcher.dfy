/** Turning reported differences into ranges of actions to fetch (src/dispatcher.cc). */
module Dispatchers {
  import opened Names
  import opened StateVectors

  /** The actions `lo..hi` of a device, both ends included. */
  datatype Range = Range(device: Name, lo: nat, hi: nat)

  /** FetchManager::Enqueue ignores an empty range. */
  function Enqueue(q: seq<Range>, r: Range): seq<Range> {
    if r.lo > r.hi then q else q + [r]
  }

  /** The ranges requested for one state-change report, in order of request. */
  function RangesOf(msg: Message): seq<Range> {
    if msg == [] then []
    else
      var before := RangesOf(msg[..|msg| - 1]);
      match msg[|msg| - 1]
      case Update(d, n, Some(o)) => Enqueue(before, Range(d, Max(o + 1, 1), n))
      case _ => before
  }

  class Dispatcher {
    var actionRanges: seq<Range>

    constructor ()
      ensures actionRanges == []
    {
      actionRanges := [];
    }

    method DidSyncLogStateChange(msg: Message)
      modifies this
      ensures actionRanges == old(actionRanges) + RangesOf(msg)
    {
      var index := 0;
      while index < |msg|
        invariant 0 <= index <= |msg|
        invariant actionRanges == old(actionRanges) + RangesOf(msg[..index])
      {
        assert msg[..index + 1][..index] == msg[..index];
        match msg[index] {
          case Update(d, newSeq, Some(oldSeq)) =>
            var range := Range(d, Max(oldSeq + 1, 1), newSeq);
            if range.lo <= range.hi {
              actionRanges := actionRanges + [range];
            }
          case _ =>
        }
        index := index + 1;
      }
      assert msg[..index] == msg;
    }
  }

  // ----- tiling -----

  /** Where the ranges of device `d` end, having started after `from`. */
  function EndOf(q: seq<Range>, d: Name, from: nat): nat {
    if q == [] then from
    else if q[|q| - 1].device == d then q[|q| - 1].hi
    else EndOf(q[..|q| - 1], d, from)
  }

  /** Each range of device `d` starts right after the previous one, the first right after `from`. */
  predicate Tiles(q: seq<Range>, d: Name, from: nat) {
    q == [] ||
    (var r := q[|q| - 1];
     Tiles(q[..|q| - 1], d, from) &&
     (r.device == d ==> r.lo == EndOf(q[..|q| - 1], d, from) + 1 && r.lo <= r.hi))
  }

  ghost predicate Covers(q: seq<Range>, i: nat, d: Name, k: nat) {
    i < |q| && q[i].device == d && q[i].lo <= k <= q[i].hi
  }

  /**
   * Tiling means what it says: the numbers after `from` up to the end are covered, each by one range, and no others.
   */
  lemma {:induction false} TilesCoverOnce(q: seq<Range>, d: Name, from: nat, k: nat)
    requires Tiles(q, d, from)
    ensures from <= EndOf(q, d, from)
    ensures from < k <= EndOf(q, d, from) <==> exists i: nat :: Covers(q, i, d, k)
    ensures forall i: nat, j: nat :: Covers(q, i, d, k) && Covers(q, j, d, k) ==> i == j
  {
    if q != [] {
      var n := |q| - 1;
      TilesCoverOnce(q[..n], d, from, k);
      forall i: nat | i < n
        ensures Covers(q, i, d, k) <==> Covers(q[..n], i, d, k)
      {
      }
      if from < k <= EndOf(q, d, from) {
        if k <= EndOf(q[..n], d, from) {
          var i: nat :| Covers(q[..n], i, d, k);
          assert Covers(q, i, d, k);
        } else {
          assert Covers(q, n, d, k);
        }
      }
      forall i: nat | Covers(q, i, d, k)
        ensures from < k <= EndOf(q, d, from)
        ensures i == n <==> k > EndOf(q[..n], d, from)
      {
        if i < n {
          assert Covers(q[..n], i, d, k);
        } else {
          assert q[n].device == d;
        }
      }
    }
  }

  lemma EnqueueOnDevice(q: seq<Range>, before: seq<Range>, r: Range, d: Name, from: nat)
    ensures var q' := q + Enqueue(before, r);
      if r.device == d && r.lo <= r.hi
      then EndOf(q', d, from) == r.hi &&
        (Tiles(q', d, from) <==> Tiles(q + before, d, from) && r.lo == EndOf(q + before, d, from) + 1)
      else EndOf(q', d, from) == EndOf(q + before, d, from) && (Tiles(q', d, from) <==> Tiles(q + before, d, from))
  {
    if r.lo <= r.hi {
      var q' := q + (before + [r]);
      assert q' == (q + before) + [r];
      assert q'[..|q'| - 1] == q + before;
    }
  }

  /** What a report says about device `d`, which stood at `e`. */
  function Reported(msg: Message, d: Name, e: nat): nat {
    if msg == [] then e
    else match msg[|msg| - 1]
      case Update(name, seqno, _) => if name == d then seqno else Reported(msg[..|msg| - 1], d, e)
      case _ => Reported(msg[..|msg| - 1], d, e)
  }

  /** Every record about `d` continues from what was reported before it. */
  predicate Continues(msg: Message, d: Name, e: nat) {
    msg == [] ||
    (var before := msg[..|msg| - 1];
     Continues(before, d, e) &&
     match msg[|msg| - 1]
     case Update(name, seqno, oldSeq) => name == d ==>
       oldSeq == Some(Reported(before, d, e)) && Reported(before, d, e) <= seqno
     case _ => true)
  }

  lemma {:induction false} ReportOnDevice(q: seq<Range>, msg: Message, d: Name, from: nat)
    requires Tiles(q, d, from) && Continues(msg, d, EndOf(q, d, from))
    ensures Tiles(q + RangesOf(msg), d, from)
    ensures EndOf(q + RangesOf(msg), d, from) == Reported(msg, d, EndOf(q, d, from))
  {
    if msg == [] {
      assert q + RangesOf(msg) == q;
    } else {
      var n := |msg| - 1;
      ReportOnDevice(q, msg[..n], d, from);
      match msg[n] {
        case Update(name, seqno, Some(o)) =>
          EnqueueOnDevice(q, RangesOf(msg[..n]), Range(name, Max(o + 1, 1), seqno), d, from);
        case _ =>
      }
    }
  }

  lemma {:induction false} DiffContinues(msg: Message, d: Name, e: nat, new_: nat)
    requires forall i, j :: 0 <= i < j < |msg| ==> msg[i].name != msg[j].name
    requires forall i :: 0 <= i < |msg| && msg[i].name == d ==> msg[i] == Update(d, new_, Some(e)) && e <= new_
    ensures Continues(msg, d, e)
    ensures Reported(msg, d, e) == if exists i :: 0 <= i < |msg| && msg[i].name == d then new_ else e
  {
    if msg != [] {
      var n := |msg| - 1;
      DiffContinues(msg[..n], d, e, new_);
      if i :| 0 <= i < n && msg[i].name == d {
        assert msg[..n][i].name == d;
      }
    }
  }

  /**
   * A report of the change from `old_` to a later `new_` extends the tiling of a device from one value to the other.
   */
  lemma ReportExtendsTiling(q: seq<Range>, msg: Message, old_: State, new_: State, d: Name, from: nat)
    requires IsDiff(msg, old_, new_, true) && Leq(old_, new_)
    requires Tiles(q, d, from) && EndOf(q, d, from) == SeqNo(old_, d)
    ensures Tiles(q + RangesOf(msg), d, from) && EndOf(q + RangesOf(msg), d, from) == SeqNo(new_, d)
  {
    DiffContinues(msg, d, SeqNo(old_, d), SeqNo(new_, d));
    ReportOnDevice(q, msg, d, from);
    if Changed(old_, new_, d) {
      var i :| 0 <= i < |msg| && msg[i].name == d;
    }
  }

  /** Every requested range is non-empty, starts at 1 or later and ends at the reported number. */
  lemma {:induction false} RangesAreReported(msg: Message, k: nat)
    requires k < |RangesOf(msg)|
    ensures var r := RangesOf(msg)[k];
      && 1 <= r.lo <= r.hi
      && exists i :: 0 <= i < |msg| && msg[i].Update? && msg[i].name == r.device && msg[i].seqno == r.hi
  {
    var n := |msg| - 1;
    var before := RangesOf(msg[..n]);
    if k < |before| {
      RangesAreReported(msg[..n], k);
      assert RangesOf(msg)[k] == before[k];
      var i :| 0 <= i < n && msg[..n][i].Update? && msg[..n][i].name == before[k].device
        && msg[..n][i].seqno == before[k].hi;
      assert msg[i] == msg[..n][i];
    } else {
      assert msg[n].Update? && msg[n].name == RangesOf(msg)[k].device;
    }
  }
}
