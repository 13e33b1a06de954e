/** When and in which order the fetch manager starts its fetchers (src/fetch-manager.cc). */
module FetchRetries {
  import opened Names
  import opened FetchManagers
  import Fetchers

  /** The seconds to wait after so many failures. */
  function Wait(failures: nat): nat {
    if failures == 0 then 0
    else if failures <= 9 then [1, 2, 4, 8, 16, 32, 64, 128, 256][failures - 1]
    else 300
  }

  lemma WaitIsPause(failures: nat)
    ensures Wait(failures) == PauseAfter(failures)
  {
    if failures <= 9 {
      assert Power2(4) == 16;
      assert Power2(8) == 16 * Power2(4);
    }
  }

  // ----- how long a fetcher waits -----

  /** The event is a failure of the fetcher with that id. */
  predicate Fails(m: Manager, e: Event, id: nat) {
    e.Inside? && e.i < |m.list| && m.list[e.i].id == id &&
    Fetchers.After(m.list[e.i].fetch, e.e).failures > m.list[e.i].fetch.failures
  }

  /** When the fetcher failed for the last time or, if it never did, when it was enqueued. */
  ghost function Since(m: Manager, run: seq<Event>, id: nat): int {
    if run == [] then 0
    else
      var g, e := AfterAll(m, run[..|run| - 1]), run[|run| - 1];
      if Fails(g, e, id) || (e.Enqueue? && e.lo <= e.hi && g.nextId == id) then e.now
      else Since(m, run[..|run| - 1], id)
  }

  /** The fetcher has been in the list before and does not fail now, so it waits for the same time as before. */
  ghost predicate WaitsAsBefore(m: Manager, item: Item) {
    exists k :: 0 <= k < |m.list| && SameWait(m.list[k], item)
  }

  predicate SameWait(a: Item, b: Item) {
    a.id == b.id && a.retryAt == b.retryAt && a.fetch.failures == b.fetch.failures
  }

  lemma EnqueueWaits(m: Manager, e: Event, i: nat)
    requires ManagerOk(m) && e.Enqueue? && i < |After(m, e).list|
    ensures var item := After(m, e).list[i];
      (e.lo <= e.hi && item.id == m.nextId && item.retryAt == e.now && item.fetch.failures == 0) ||
      (WaitsAsBefore(m, item) && item.id != m.nextId)
  {
    var item := After(m, e).list[i];
    if e.lo > e.hi {
      assert SameWait(m.list[i], item);
    } else if item.id != m.nextId {
      assert SameWait(m.list[if e.high then i - 1 else i], item);
    }
  }

  lemma FailureWaits(m: Manager, e: Event, i: nat)
    requires ManagerOk(m) && Enabled(m, e) && i < |m.list| && Fails(m, e, m.list[i].id)
    ensures |After(m, e).list| == |m.list|
    ensures var item, f := After(m, e).list[i], m.list[i].fetch.failures;
      item.id == m.list[i].id && item.fetch.failures == f + 1 && item.retryAt == e.now + Wait(f + 1)
  {
    assert e.i == i;
    assert ItemOk(m.list[i]);
    InsideItem(m.list[i], e.e);
    PauseDoubles(m.list[i].fetch.failures);
    WaitIsPause(m.list[i].fetch.failures + 1);
  }

  lemma InsideWaits(m: Manager, e: Event, i: nat)
    requires ManagerOk(m) && Enabled(m, e) && e.Inside? && i < |m.list| && !Fails(m, e, m.list[i].id)
    ensures |After(m, e).list| == |m.list| && SameWait(m.list[i], After(m, e).list[i])
  {
    if e.i == i {
      assert ItemOk(m.list[i]);
      InsideItem(m.list[i], e.e);
    }
  }

  lemma OthersWait(m: Manager, e: Event, i: nat)
    requires ManagerOk(m) && Enabled(m, e) && !e.Enqueue? && !e.Inside? && i < |After(m, e).list|
    ensures WaitsAsBefore(m, After(m, e).list[i])
  {
    var item := After(m, e).list[i];
    if e.TimedWaitOver? {
      WithoutKeeps(m.list, m.waiting[e.base]);
      var k :| 0 <= k < |m.list| && m.list[k] == item;
      assert SameWait(m.list[k], item);
    } else {
      assert SameWait(m.list[i], item);
    }
  }

  ghost predicate WaitsRight(m: Manager, run: seq<Event>, item: Item) {
    item.retryAt == Since(m, run, item.id) + Wait(item.fetch.failures)
  }

  /** In every run each fetcher may be tried again so many seconds after its last failure. */
  lemma {:induction false} EachWaitsRight(max: nat, broadcast: Name, run: seq<Event>, i: nat)
    requires max < WIDTH && Runs(NewManager(max, broadcast), run)
    requires i < |AfterAll(NewManager(max, broadcast), run).list|
    ensures WaitsRight(NewManager(max, broadcast), run, AfterAll(NewManager(max, broadcast), run).list[i])
    decreases |run|
  {
    var start := NewManager(max, broadcast);
    var before, e := run[..|run| - 1], run[|run| - 1];
    var m := AfterAll(start, before);
    RunKeepsManagerOk(max, broadcast, before);
    var item := After(m, e).list[i];
    if e.Enqueue? {
      EnqueueWaits(m, e, i);
    } else if e.Inside? {
      if Fails(m, e, m.list[i].id) {
        FailureWaits(m, e, i);
      } else {
        InsideWaits(m, e, i);
      }
    } else {
      OthersWait(m, e, i);
    }
    if k :| 0 <= k < |m.list| && SameWait(m.list[k], item) {
      EachWaitsRight(max, broadcast, before, k);
    }
  }

  /** After the scan a slot is left, so it has come to every fetcher. */
  lemma EachIsReached(m: Manager, now: int, next: int, i: nat)
    requires i < |m.list| && After(m, Schedule(now, next)).count < m.max
    ensures Reached(m, i, now)
  {
    StartableInGrows(m.list, i, now);
  }

  /**
   * Back-off, in every run: a fetcher that failed n times, the last time at t, is not started before t + 2^(n-1)
   * seconds, or t + 300 if that is less. From then on it is started by the next scan that leaves a slot free, and such
   * a scan that comes too early sets the next check no later than that time.
   */
  lemma BackOffIsKept(max: nat, broadcast: Name, run: seq<Event>, i: nat, now: int, next: int)
    requires max < WIDTH && Runs(NewManager(max, broadcast), run)
    requires i < |AfterAll(NewManager(max, broadcast), run).list|
    requires Enabled(AfterAll(NewManager(max, broadcast), run), Schedule(now, next))
    ensures var m := AfterAll(NewManager(max, broadcast), run);
      var n, item := After(m, Schedule(now, next)), m.list[i];
      var t := Since(NewManager(max, broadcast), run, item.id) + Wait(item.fetch.failures);
      && |n.list| == |m.list| && n.nextCheck == next
      && (now < t ==> n.list[i] == item)
      && (n.count < n.max && !item.fetch.active && !item.fetch.timedWait ==>
        if now < t then now < next <= t
        else n.list[i].fetch.active && n.list[i].fetch.starts == item.fetch.starts + 1)
  {
    var m := AfterAll(NewManager(max, broadcast), run);
    EachWaitsRight(max, broadcast, run, i);
    if After(m, Schedule(now, next)).count < m.max {
      forall k | 0 <= k < |m.list|
        ensures Reached(m, k, now)
      {
        EachIsReached(m, now, next, k);
      }
    }
  }

  /** A failure takes effect at once: the slot is free, the fetcher is idle and the list is checked immediately. */
  lemma FailureFreesTheSlot(m: Manager, e: Event)
    requires ManagerOk(m) && Enabled(m, e) && e.Inside? && Fails(m, e, m.list[e.i].id) && m.count > 0
    ensures var n := After(m, e);
      && n.count == m.count - 1 && n.nextCheck == e.now
      && !n.list[e.i].fetch.active && n.list[e.i].fetch.timedWait == m.list[e.i].fetch.timedWait
  {
    assert ItemOk(m.list[e.i]);
    InsideItem(m.list[e.i], e.e);
  }

  /** So does a completion, and a new range is looked at immediately as well. */
  lemma ListIsChecked(m: Manager, e: Event)
    requires Enabled(m, e)
    ensures e.CompletionJob? ==>
      After(m, e).nextCheck == e.now && After(m, e).count == if m.count > 0 then m.count - 1 else 0xFFFF_FFFF
    ensures e.Enqueue? && e.lo <= e.hi ==> After(m, e).nextCheck == e.now && After(m, e).count == m.count
  {
  }

  // ----- who is started first -----

  lemma {:induction false} StartableInOrder(list: seq<Item>, i: nat, j: nat, now: int)
    requires i <= j <= |list|
    ensures StartableIn(list[..i], now) <= StartableIn(list[..j], now)
  {
    if i < j {
      StartableInOrder(list, i, j - 1, now);
      assert list[..j][..j - 1] == list[..j - 1];
    }
  }

  /** A scan starts fetchers from the front: it passes over none that could start to start a later one. */
  lemma ScanStartsFromTheFront(m: Manager, now: int, next: int, i: nat, j: nat)
    requires i < j < |m.list| && Startable(m.list[i], now)
    ensures var n := After(m, Schedule(now, next));
      |n.list| == |m.list| && (n.list[j] != m.list[j] ==> n.list[i].fetch.active)
  {
    StartableInOrder(m.list, i, j, now);
  }

  /** A range of high priority goes to the front of the list and any other to its end; the others keep their order. */
  lemma EnqueueOrder(m: Manager, base: Name, lo: int, hi: int, high: bool, hint: Name, now: int)
    requires lo <= hi
    ensures var n := After(m, Enqueue(base, lo, hi, high, hint, now));
      && |n.list| == |m.list| + 1
      && var (item, rest) :=
          if high then (n.list[0], n.list[1..]) else (n.list[|m.list|], n.list[..|m.list|]);
        && rest == m.list && item.base == base && item.hint == hint
        && item.fetch.minSeq == lo && item.fetch.maxSeq == hi && item.fetch.delivered == []
        && !item.fetch.active && !item.fetch.timedWait && item.retryAt == now
  {
  }

  /** With a slot free, the next scan starts a range of high priority, whoever else is waiting. */
  lemma HighPriorityStartsFirst(m: Manager, base: Name, lo: int, hi: int, hint: Name, then_: int, now: int, next: int)
    requires lo <= hi && then_ <= now && m.count < m.max
    ensures var n := After(After(m, Enqueue(base, lo, hi, true, hint, then_)), Schedule(now, next));
      |n.list| > 0 && n.list[0].base == base && n.list[0].fetch.minSeq == lo && n.list[0].fetch.maxSeq == hi
        && n.list[0].fetch.active
  {
    var g := After(m, Enqueue(base, lo, hi, true, hint, then_));
    assert g.list[..0] == [];
    assert Reached(g, 0, now);
  }

  /** Removing a fetcher takes out its place and leaves the others in their order. */
  lemma {:induction false} WithoutTakesOut(list: seq<Item>, p: nat)
    requires p < |list| && forall i, j :: 0 <= i < j < |list| ==> list[i].id != list[j].id
    ensures Without(list, list[p].id) == list[..p] + list[p + 1..]
  {
    var rest := list[..|list| - 1];
    if p == |rest| {
      WithoutNobody(rest, list[p].id);
      assert list[..p] + list[p + 1..] == rest;
    } else {
      WithoutTakesOut(rest, p);
      assert list[..p] + list[p + 1..] == rest[..p] + rest[p + 1..] + [list[|rest|]];
    }
  }

  /** When its removal task runs a fetcher is gone and its tag is free again; nothing else changes. */
  lemma RemovalRemoves(m: Manager, base: Name, p: nat)
    requires ManagerOk(m) && base in m.waiting && p < |m.list| && m.list[p].id == m.waiting[base]
    ensures var n := After(m, TimedWaitOver(base));
      && n.list == m.list[..p] + m.list[p + 1..] && n.count == m.count && n.nextCheck == m.nextCheck
      && n.waiting == map b | b in m.waiting && b != base :: m.waiting[b]
  {
    WithoutTakesOut(m.list, p);
  }

  lemma {:induction false} WithoutNobody(list: seq<Item>, id: nat)
    requires forall i :: 0 <= i < |list| ==> list[i].id != id
    ensures Without(list, id) == list
  {
    if list != [] {
      WithoutNobody(list[..|list| - 1], id);
      assert list == list[..|list| - 1] + [list[|list| - 1]];
    }
  }
}
