/** Sync states (device name to sequence number), their join, and the messages that carry differences. */
module StateVectors {
  import opened Names

  datatype Option<+T> = None | Some(value: T)

  type State = map<Name, nat>

  function Max(a: nat, b: nat): nat { if a < b then b else a }

  /** A device that is not listed counts as sequence number 0. */
  function SeqNo(m: State, d: Name): nat { if d in m then m[d] else 0 }

  /** The pointwise order, in which an unknown device ranks below sequence number 0. */
  ghost predicate Leq(a: State, b: State) {
    forall d :: d in a ==> d in b && a[d] <= b[d]
  }

  function Join(a: State, b: State): (r: State)
    ensures r.Keys == a.Keys + b.Keys
    ensures Leq(a, r) && Leq(b, r)
  {
    map d | d in a.Keys + b.Keys ::
      if d !in a then b[d] else if d !in b then a[d] else Max(a[d], b[d])
  }

  lemma LeqAntisymmetric(a: State, b: State)
    requires Leq(a, b) && Leq(b, a)
    ensures a == b
  {
    assert a.Keys == b.Keys;
  }

  lemma JoinIsLeast(a: State, b: State, c: State)
    requires Leq(a, c) && Leq(b, c)
    ensures Leq(Join(a, b), c)
  {
  }

  // ----- difference messages -----

  /** One SyncState record; `oldSeq` is present only when the caller asked for it. */
  datatype Entry =
    | Update(name: Name, seqno: nat, oldSeq: Option<nat>)
    | Delete(name: Name, oldSeq: Option<nat>)

  type Message = seq<Entry>

  /** The max-merge that the SyncNodes insert trigger performs; a DELETE record is ignored. */
  function MergeEntry(m: State, e: Entry): State {
    match e
    case Update(d, n, _) => m[d := if d in m then Max(m[d], n) else n]
    case Delete(_, _) => m
  }

  function Merge(m: State, msg: Message): State {
    if msg == [] then m else MergeEntry(Merge(m, msg[..|msg| - 1]), msg[|msg| - 1])
  }

  /** What the UPDATE records of a message say on their own. */
  function Updates(msg: Message): State { Merge(map[], msg) }

  predicate Changed(old_: State, new_: State, d: Name) {
    d in old_.Keys + new_.Keys && !(d in old_ && d in new_ && old_[d] == new_[d])
  }

  /** The record that reports device `d`. */
  function EntryFor(old_: State, new_: State, d: Name, withOld: bool): Entry {
    var oldSeq := if withOld then Some(SeqNo(old_, d)) else None;
    if d in new_ then Update(d, new_[d], oldSeq) else Delete(d, oldSeq)
  }

  /** `msg` lists every changed device once, with the right record, and nothing else; in any order. */
  ghost predicate IsDiff(msg: Message, old_: State, new_: State, withOld: bool) {
    && (forall i :: 0 <= i < |msg| ==>
      Changed(old_, new_, msg[i].name) && msg[i] == EntryFor(old_, new_, msg[i].name, withOld))
    && (forall i, j :: 0 <= i < j < |msg| ==> msg[i].name != msg[j].name)
    && (forall d :: Changed(old_, new_, d) ==> exists i :: 0 <= i < |msg| && msg[i].name == d)
  }

  /** Reading a difference as an edit script: UPDATE sets, DELETE removes. */
  function Patch(m: State, msg: Message): State {
    if msg == [] then m
    else
      var before := Patch(m, msg[..|msg| - 1]);
      match msg[|msg| - 1]
      case Update(d, n, _) => before[d := n]
      case Delete(d, _) => before - {d}
  }

  lemma {:induction false} PatchPointwise(m: State, msg: Message, d: Name)
    requires forall i, j :: 0 <= i < j < |msg| ==> msg[i].name != msg[j].name
    ensures (forall i :: 0 <= i < |msg| ==> msg[i].name != d) ==> 
      (d in Patch(m, msg) <==> d in m) && (d in m ==> Patch(m, msg)[d] == m[d])
    ensures forall i :: 0 <= i < |msg| && msg[i].name == d ==>
      (d in Patch(m, msg) <==> msg[i].Update?) && (msg[i].Update? ==> Patch(m, msg)[d] == msg[i].seqno)
  {
    if msg != [] {
      PatchPointwise(m, msg[..|msg| - 1], d);
    }
  }

  /** Round trip: the difference of two states turns the first into the second. */
  lemma DiffPatchesOldToNew(msg: Message, old_: State, new_: State, withOld: bool)
    requires IsDiff(msg, old_, new_, withOld)
    ensures Patch(old_, msg) == new_
  {
    var p := Patch(old_, msg);
    forall d
      ensures d in p <==> d in new_
      ensures d in new_ ==> p[d] == new_[d]
    {
      PatchPointwise(old_, msg, d);
      if Changed(old_, new_, d) {
        var i :| 0 <= i < |msg| && msg[i].name == d;
      }
    }
    assert p.Keys == new_.Keys;
  }

  /** A difference is empty exactly when the two states are equal. */
  lemma DiffEmptyIffEqual(msg: Message, old_: State, new_: State, withOld: bool)
    requires IsDiff(msg, old_, new_, withOld)
    ensures msg == [] <==> old_ == new_
  {
    DiffPatchesOldToNew(msg, old_, new_, withOld);
    if msg != [] {
      assert Changed(old_, new_, msg[0].name);
    }
  }

  // ----- merging a message -----

  lemma MergeEntryIntoJoin(a: State, b: State, e: Entry)
    ensures MergeEntry(Join(a, b), e) == Join(a, MergeEntry(b, e))
  {
  }

  lemma {:induction false} MergeIsJoin(m: State, msg: Message)
    ensures Merge(m, msg) == Join(m, Updates(msg))
  {
    if msg == [] {
      assert Join(m, map[]) == m;
    } else {
      MergeIsJoin(m, msg[..|msg| - 1]);
      MergeEntryIntoJoin(m, Updates(msg[..|msg| - 1]), msg[|msg| - 1]);
    }
  }

  lemma {:induction false} MergeBounded(m: State, msg: Message, c: State)
    requires Leq(m, c)
    requires forall i :: 0 <= i < |msg| && msg[i].Update? ==> msg[i].name in c && msg[i].seqno <= c[msg[i].name]
    ensures Leq(m, Merge(m, msg)) && Leq(Merge(m, msg), c)
  {
    if msg != [] {
      MergeBounded(m, msg[..|msg| - 1], c);
    }
  }

  lemma {:induction false} MergeGrows(m: State, msg: Message)
    ensures Leq(m, Merge(m, msg))
  {
    if msg != [] {
      MergeGrows(m, msg[..|msg| - 1]);
    }
  }

  lemma {:induction false} UpdatesPointwise(msg: Message, d: Name)
    requires forall i, j :: 0 <= i < j < |msg| ==> msg[i].name != msg[j].name
    ensures d in Updates(msg) <==> exists i :: 0 <= i < |msg| && msg[i].Update? && msg[i].name == d
    ensures forall i :: 0 <= i < |msg| && msg[i].Update? && msg[i].name == d ==>
      d in Updates(msg) && Updates(msg)[d] == msg[i].seqno
  {
    if msg != [] {
      var n := |msg| - 1;
      UpdatesPointwise(msg[..n], d);
      assert msg == msg[..n] + [msg[n]];
      if d in Updates(msg) && d !in Updates(msg[..n]) {
        assert msg[n].Update? && msg[n].name == d;
      }
    }
  }

  /** The new values a difference from `old_` to `new_` carries. */
  function News(old_: State, new_: State): State {
    map d | d in new_ && Changed(old_, new_, d) :: new_[d]
  }

  lemma UpdatesOfDiff(msg: Message, old_: State, new_: State, withOld: bool)
    requires IsDiff(msg, old_, new_, withOld)
    ensures Updates(msg) == News(old_, new_)
  {
    var u := Updates(msg);
    forall d
      ensures d in u <==> d in News(old_, new_)
      ensures d in u ==> u[d] == News(old_, new_)[d]
    {
      UpdatesPointwise(msg, d);
      if d in News(old_, new_) {
        var i :| 0 <= i < |msg| && msg[i].name == d;
      }
    }
    assert u.Keys == News(old_, new_).Keys;
  }

  /** The receiver holds every entry on which the two states agree (those the difference omits). */
  ghost predicate HoldsCommonPart(a: State, old_: State, new_: State) {
    forall d :: d in old_ && d in new_ && old_[d] == new_[d] ==> d in a && new_[d] <= a[d]
  }

  lemma JoinNewsIff(a: State, old_: State, new_: State)
    ensures Join(a, News(old_, new_)) == Join(a, new_) <==> HoldsCommonPart(a, old_, new_)
  {
    var lhs, rhs := Join(a, News(old_, new_)), Join(a, new_);
    if HoldsCommonPart(a, old_, new_) {
      forall d | d in lhs.Keys + rhs.Keys
        ensures d in lhs && d in rhs && lhs[d] == rhs[d]
      {
      }
      assert lhs.Keys == rhs.Keys;
    } else {
      var d :| d in old_ && d in new_ && old_[d] == new_[d] && !(d in a && new_[d] <= a[d]);
      assert d in rhs && (d in lhs ==> lhs[d] == a[d]);
    }
  }

  /**
   * A delta reply is as good as the full state for any receiver that has reached `old_`,
   * whatever the two states are. In general it is as good exactly when the receiver already
   * holds every entry on which the two states agree.
   */
  lemma DeltaIsAsGoodAsFullIff(a: State, msg: Message, old_: State, new_: State, withOld: bool)
    requires IsDiff(msg, old_, new_, withOld)
    ensures Merge(a, msg) == Join(a, new_) <==> HoldsCommonPart(a, old_, new_)
    ensures Leq(old_, a) ==> Merge(a, msg) == Join(a, new_)
  {
    assert Merge(a, msg) == Join(a, News(old_, new_)) by {
      MergeIsJoin(a, msg);
      UpdatesOfDiff(msg, old_, new_, withOld);
    }
    JoinNewsIff(a, old_, new_);
  }

  /** The reply to a recovery interest is the difference from the empty state. */
  lemma FullReplyIsJoin(a: State, msg: Message, new_: State)
    requires IsDiff(msg, map[], new_, false)
    ensures Merge(a, msg) == Join(a, new_)
  {
    DeltaIsAsGoodAsFullIff(a, msg, map[], new_, false);
  }
}
