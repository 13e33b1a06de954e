/** Running a limited number of fetchers at a time, with back-off (src/fetch-manager.cc). */
module FetchManagers {
  import opened Names
  import Fetchers

  const WIDTH: nat := 0x1_0000_0000  // m_currentParallelFetches is a uint32_t
  const LONGEST_PAUSE := 300

  /** A fetcher in m_fetchList; `jobs` counts its completion callbacks still in the executor's queue. */
  datatype Item = Item(id: nat, base: Name, fetch: Fetchers.Fetch, jobs: nat, hint: Name, pause: nat, retryAt: int)

  /**
   * `waiting` holds the one-time TimedWait tasks by tag, which is the base name; `nextCheck` is when ScheduleFetches
   * was last set to run.
   */
  datatype Manager = Manager(list: seq<Item>, count: nat, max: nat, broadcast: Name, waiting: map<Name, nat>,
    nextId: nat, nextCheck: int)

  function NewManager(max: nat, broadcast: Name): Manager {
    Manager([], 0, max, broadcast, map[], 0, 0)
  }

  // ----- specification functions -----

  function Enqueued(m: Manager, base: Name, lo: int, hi: int, high: bool, hint: Name, now: int): Manager {
    if lo > hi then m
    else
      var item := Item(m.nextId, base, Fetchers.NewFetch(lo, hi), 0, hint, 0, now);
      m.(list := if high then [item] + m.list else m.list + [item], nextId := m.nextId + 1, nextCheck := now)
  }

  predicate Startable(item: Item, now: int) {
    !item.fetch.active && !item.fetch.timedWait && item.retryAt <= now
  }

  predicate Delayed(item: Item, now: int) {
    !item.fetch.active && !item.fetch.timedWait && now < item.retryAt
  }

  function StartableIn(list: seq<Item>, now: int): nat {
    if list == [] then 0
    else StartableIn(list[..|list| - 1], now) + if Startable(list[|list| - 1], now) then 1 else 0
  }

  /** A slot is left when the scan reaches position `i`. */
  predicate Reached(m: Manager, i: nat, now: int)
    requires i <= |m.list|
  {
    m.count + StartableIn(m.list[..i], now) < m.max
  }

  function Scanned(item: Item, now: int): Item {
    if Startable(item, now) then item.(fetch := Fetchers.Restarted(item.fetch)) else item
  }

  function Scheduled(m: Manager, now: int, next: int): Manager {
    m.(list := seq(|m.list|, i requires 0 <= i < |m.list| =>
                 if Reached(m, i, now) then Scanned(m.list[i], now) else m.list[i]),
       count := m.count + if m.count < m.max then Least(m.max - m.count, StartableIn(m.list, now)) else 0,
       nextCheck := next)
  }

  function Least(a: int, b: int): int { if a < b then a else b }

  /** The next check is the earliest retry among the delayed fetchers the scan came to, but at most 300 seconds away. */
  ghost predicate IsNextCheck(m: Manager, now: int, next: int) {
    && next <= now + LONGEST_PAUSE
    && (forall i :: 0 <= i < |m.list| && Reached(m, i, now) && Delayed(m.list[i], now) ==> next <= m.list[i].retryAt)
    && (next == now + LONGEST_PAUSE ||
        exists i :: 0 <= i < |m.list| && Reached(m, i, now) && Delayed(m.list[i], now) && next == m.list[i].retryAt)
  }

  function Decremented(count: nat): nat {
    if count == 0 then WIDTH - 1 else count - 1
  }

  function NextHint(hint: Name, mapped: Name, broadcast: Name): Name {
    if hint == [] then (if mapped == [] then broadcast else mapped)
    else if hint == broadcast then []
    else broadcast
  }

  function NextPause(pause: nat): nat {
    if pause < 1 then 1 else Least(2 * pause, LONGEST_PAUSE)
  }

  function FailureHandled(m: Manager, i: nat, mapped: Name, now: int): Manager
    requires i < |m.list|
  {
    var item := m.list[i];
    var pause := NextPause(item.pause);
    m.(count := Decremented(m.count), nextCheck := now,
       list := m.list[i := item.(hint := NextHint(item.hint, mapped, m.broadcast), pause := pause,
         retryAt := now + pause)])
  }

  /** A task that is already in the scheduler's map under the same tag is kept, and the new one is not added. */
  function CompletionHandled(m: Manager, i: nat, now: int): Manager
    requires i < |m.list|
  {
    var item := m.list[i];
    m.(count := Decremented(m.count), nextCheck := now,
       waiting := if item.base in m.waiting then m.waiting else m.waiting[item.base := item.id])
  }

  function Without(list: seq<Item>, id: nat): seq<Item> {
    if list == [] then []
    else Without(list[..|list| - 1], id) + if list[|list| - 1].id == id then [] else [list[|list| - 1]]
  }

  // ----- events -----

  /** `Inside` is an event of the fetcher at position `i` other than a restart; it may report to the manager. */
  datatype Event =
    | Enqueue(base: Name, lo: int, hi: int, high: bool, hint: Name, now: int)
    | Schedule(now: int, next: int)
    | Inside(i: nat, e: Fetchers.Event, mapped: Name, now: int)
    | CompletionJob(i: nat, now: int)
    | TimedWaitOver(base: Name)

  ghost predicate Enabled(m: Manager, e: Event) {
    match e
    case Enqueue(_, _, _, _, _, _) => true
    case Schedule(now, next) => IsNextCheck(m, now, next)
    case Inside(i, f, _, _) => i < |m.list| && !f.Restart? && Fetchers.Enabled(m.list[i].fetch, f)
    case CompletionJob(i, _) => i < |m.list| && m.list[i].jobs > 0
    case TimedWaitOver(base) => base in m.waiting
  }

  predicate ReportsCompletion(f: Fetchers.Fetch, e: Fetchers.Event) {
    Fetchers.After(f, e).completions > f.completions
  }

  predicate ReportsFailure(f: Fetchers.Fetch, e: Fetchers.Event) {
    Fetchers.After(f, e).failures > f.failures
  }

  function AfterInside(m: Manager, i: nat, e: Fetchers.Event, mapped: Name, now: int): Manager
    requires i < |m.list|
  {
    var item := m.list[i];
    var moved := m.(list := m.list[i := item.(fetch := Fetchers.After(item.fetch, e),
                                              jobs := item.jobs + if ReportsCompletion(item.fetch, e) then 1 else 0)]);
    if ReportsFailure(item.fetch, e) then FailureHandled(moved, i, mapped, now) else moved
  }

  function After(m: Manager, e: Event): Manager {
    match e
    case Enqueue(base, lo, hi, high, hint, now) => Enqueued(m, base, lo, hi, high, hint, now)
    case Schedule(now, next) => Scheduled(m, now, next)
    case Inside(i, f, mapped, now) => if i < |m.list| then AfterInside(m, i, f, mapped, now) else m
    case CompletionJob(i, now) =>
      if i < |m.list| && m.list[i].jobs > 0
      then CompletionHandled(m.(list := m.list[i := m.list[i].(jobs := m.list[i].jobs - 1)]), i, now) else m
    case TimedWaitOver(base) =>
      if base in m.waiting then m.(list := Without(m.list, m.waiting[base]), waiting := m.waiting - {base}) else m
  }

  ghost predicate Runs(m: Manager, run: seq<Event>) {
    run == [] || (Runs(m, run[..|run| - 1]) && Enabled(AfterAll(m, run[..|run| - 1]), run[|run| - 1]))
  }

  function AfterAll(m: Manager, run: seq<Event>): Manager {
    if run == [] then m else After(AfterAll(m, run[..|run| - 1]), run[|run| - 1])
  }

  lemma OneMore(m: Manager, run: seq<Event>, e: Event)
    ensures AfterAll(m, run + [e]) == After(AfterAll(m, run), e)
    ensures Runs(m, run + [e]) <==> Runs(m, run) && Enabled(AfterAll(m, run), e)
  {
    assert (run + [e])[..|run|] == run;
  }

  // ----- what every event keeps -----

  /** The pause after `failures` failures: one second, doubled each time, at most 300. */
  function PauseAfter(failures: nat): nat {
    if failures == 0 then 0 else if failures <= 9 then Power2(failures - 1) else LONGEST_PAUSE
  }

  function Power2(n: nat): nat {
    if n == 0 then 1 else 2 * Power2(n - 1)
  }

  lemma PauseDoubles(failures: nat)
    ensures NextPause(PauseAfter(failures)) == PauseAfter(failures + 1)
  {
    if failures <= 9 {
      assert Power2(4) == 16;
      assert Power2(8) == 16 * Power2(4);
    }
  }

  ghost predicate ItemOk(item: Item) {
    && Fetchers.FetchOk(item.fetch)
    && item.fetch.minSeq <= item.fetch.maxSeq
    && (item.fetch.completions > 0 <==> item.fetch.timedWait)
    && (item.fetch.timedWait ==> !item.fetch.active)
    && (item.jobs > 0 ==> item.fetch.timedWait)
    && item.pause == PauseAfter(item.fetch.failures)
  }

  ghost predicate ItemsOk(m: Manager) {
    forall i :: 0 <= i < |m.list| ==> ItemOk(m.list[i])
  }

  ghost predicate IdsOk(m: Manager) {
    && (forall i, j :: 0 <= i < j < |m.list| ==> m.list[i].id != m.list[j].id)
    && (forall i :: 0 <= i < |m.list| ==> m.list[i].id < m.nextId)
  }

  predicate Waits(item: Item, id: nat, base: Name) {
    item.id == id && item.base == base && item.fetch.timedWait
  }

  /** Every TimedWait task is for a fetcher in the list that has completed, and the fetcher's base name is its tag. */
  ghost predicate WaitingOk(m: Manager) {
    forall b :: b in m.waiting ==> exists i :: 0 <= i < |m.list| && Waits(m.list[i], m.waiting[b], b)
  }

  ghost predicate ManagerOk(m: Manager) {
    ItemsOk(m) && IdsOk(m) && WaitingOk(m) && m.max < WIDTH
  }

  lemma {:induction false} WithoutIs(list: seq<Item>, id: nat)
    ensures forall x :: x in Without(list, id) <==> x in list && x.id != id
    ensures (forall i, j :: 0 <= i < j < |list| ==> list[i].id != list[j].id) ==>
      forall i, j :: 0 <= i < j < |Without(list, id)| ==> Without(list, id)[i].id != Without(list, id)[j].id
  {
    if list != [] {
      WithoutIs(list[..|list| - 1], id);
      assert list == list[..|list| - 1] + [list[|list| - 1]];
      var rest := Without(list[..|list| - 1], id);
      assert forall i :: 0 <= i < |rest| ==> rest[i] in rest;
    }
  }

  /** What one event does to one fetcher: what it reports shows in its flags. */
  lemma InsideItem(item: Item, e: Fetchers.Event)
    requires ItemOk(item) && Fetchers.Enabled(item.fetch, e) && !e.Restart?
    ensures var f, g := item.fetch, Fetchers.After(item.fetch, e);
      && Fetchers.FetchOk(g) && g.minSeq <= g.maxSeq
      && g.completions == f.completions + (if ReportsCompletion(f, e) then 1 else 0)
      && g.failures == f.failures + (if ReportsFailure(f, e) then 1 else 0)
      && g.timedWait == (f.timedWait || ReportsCompletion(f, e))
      && g.active == (f.active && !ReportsCompletion(f, e) && !ReportsFailure(f, e))
      && !(ReportsCompletion(f, e) && ReportsFailure(f, e))
  {
    Fetchers.StepKeepsFetchOk(item.fetch, e);
    if e.RunFill? {
      Fetchers.FillChangesOnlyTheWindow(item.fetch.(fills := item.fetch.fills - 1));
    }
  }

  lemma InsideKeepsOk(m: Manager, i: nat, e: Fetchers.Event, mapped: Name, now: int)
    requires ManagerOk(m) && Enabled(m, Inside(i, e, mapped, now))
    ensures ManagerOk(AfterInside(m, i, e, mapped, now))
  {
    var n := AfterInside(m, i, e, mapped, now);
    assert ItemOk(m.list[i]);
    InsideItem(m.list[i], e);
    PauseDoubles(m.list[i].fetch.failures);
    assert ItemOk(n.list[i]);
    forall b | b in n.waiting
      ensures exists k :: 0 <= k < |n.list| && Waits(n.list[k], n.waiting[b], b)
    {
      var k :| 0 <= k < |m.list| && Waits(m.list[k], m.waiting[b], b);
      assert Waits(n.list[k], n.waiting[b], b);
    }
  }

  lemma SameItemsWait(m: Manager, n: Manager)
    requires WaitingOk(m) && n.waiting == m.waiting
    requires forall i :: 0 <= i < |m.list| && m.list[i].fetch.timedWait ==>
      exists k :: 0 <= k < |n.list| && n.list[k].id == m.list[i].id && n.list[k].base == m.list[i].base
        && n.list[k].fetch.timedWait
    ensures WaitingOk(n)
  {
    forall b | b in n.waiting
      ensures exists k :: 0 <= k < |n.list| && Waits(n.list[k], n.waiting[b], b)
    {
      var i :| 0 <= i < |m.list| && Waits(m.list[i], m.waiting[b], b);
    }
  }

  lemma NewItemOk(item: Item, base: Name, lo: int, hi: int, hint: Name, now: int)
    requires lo <= hi && item == Item(item.id, base, Fetchers.NewFetch(lo, hi), 0, hint, 0, now)
    ensures ItemOk(item)
  {
    Fetchers.RunKeepsFetchOk(lo, hi, []);
  }

  lemma MoreItems(m: Manager, n: Manager, item: Item)
    requires ItemsOk(m) && IdsOk(m) && ItemOk(item) && item.id == m.nextId && n.nextId == m.nextId + 1
    requires n.list == [item] + m.list || n.list == m.list + [item]
    ensures ItemsOk(n) && IdsOk(n)
  {
  }

  lemma MoreItemsWait(m: Manager, n: Manager, item: Item)
    requires WaitingOk(m) && n.waiting == m.waiting
    requires n.list == [item] + m.list || n.list == m.list + [item]
    ensures WaitingOk(n)
  {
    var shift := if n.list == m.list + [item] then 0 else 1;
    forall i | 0 <= i < |m.list|
      ensures n.list[i + shift] == m.list[i]
    {
    }
    SameItemsWait(m, n);
  }

  lemma EnqueueKeepsOk(m: Manager, base: Name, lo: int, hi: int, high: bool, hint: Name, now: int)
    requires ManagerOk(m)
    ensures ManagerOk(Enqueued(m, base, lo, hi, high, hint, now))
  {
    var n := Enqueued(m, base, lo, hi, high, hint, now);
    if lo <= hi {
      var item := Item(m.nextId, base, Fetchers.NewFetch(lo, hi), 0, hint, 0, now);
      NewItemOk(item, base, lo, hi, hint, now);
      MoreItems(m, n, item);
      MoreItemsWait(m, n, item);
    }
  }

  lemma ScheduleKeepsOk(m: Manager, now: int, next: int)
    requires ManagerOk(m)
    ensures ManagerOk(Scheduled(m, now, next))
  {
    var n := Scheduled(m, now, next);
    forall i | 0 <= i < |m.list|
      ensures ItemOk(n.list[i])
    {
      assert ItemOk(m.list[i]);
      if n.list[i] != m.list[i] {
        Fetchers.StepKeepsFetchOk(m.list[i].fetch, Fetchers.Restart);
      }
    }
    forall i | 0 <= i < |m.list| && m.list[i].fetch.timedWait
      ensures n.list[i] == m.list[i]
    {
    }
    SameItemsWait(m, n);
  }

  lemma CompletionKeepsOk(m: Manager, i: nat, now: int)
    requires ManagerOk(m) && Enabled(m, CompletionJob(i, now))
    ensures ManagerOk(After(m, CompletionJob(i, now)))
  {
    var n := After(m, CompletionJob(i, now));
    assert ItemOk(m.list[i]);
    forall b | b in n.waiting
      ensures exists k :: 0 <= k < |n.list| && Waits(n.list[k], n.waiting[b], b)
    {
      if b in m.waiting {
        var k :| 0 <= k < |m.list| && Waits(m.list[k], m.waiting[b], b);
        assert Waits(n.list[k], n.waiting[b], b);
      } else {
        assert Waits(n.list[i], n.waiting[b], b);
      }
    }
  }

  /** Removing one fetcher leaves the others, each still where `Without` can be asked for it. */
  lemma WithoutKeeps(list: seq<Item>, id: nat)
    ensures forall k :: 0 <= k < |Without(list, id)| ==> exists i :: 0 <= i < |list| && list[i] == Without(list, id)[k]
    ensures forall i :: 0 <= i < |list| && list[i].id != id ==>
      exists k :: 0 <= k < |Without(list, id)| && Without(list, id)[k] == list[i]
  {
    WithoutIs(list, id);
    var rest := Without(list, id);
    forall k | 0 <= k < |rest|
      ensures rest[k] in list
    {
      assert rest[k] in rest;
    }
    forall i | 0 <= i < |list| && list[i].id != id
      ensures list[i] in rest
    {
    }
  }

  lemma RemovalKeepsItems(m: Manager, n: Manager, id: nat)
    requires ItemsOk(m) && IdsOk(m) && n.list == Without(m.list, id) && n.nextId == m.nextId
    ensures ItemsOk(n) && IdsOk(n)
  {
    WithoutIs(m.list, id);
    WithoutKeeps(m.list, id);
  }

  lemma RemovalKeepsWaiting(m: Manager, n: Manager, base: Name)
    requires IdsOk(m) && WaitingOk(m) && base in m.waiting
    requires n.list == Without(m.list, m.waiting[base]) && n.waiting == m.waiting - {base}
    ensures WaitingOk(n)
  {
    WithoutKeeps(m.list, m.waiting[base]);
    var j :| 0 <= j < |m.list| && Waits(m.list[j], m.waiting[base], base);
    forall b | b in n.waiting
      ensures exists k :: 0 <= k < |n.list| && Waits(n.list[k], n.waiting[b], b)
    {
      var i :| 0 <= i < |m.list| && Waits(m.list[i], m.waiting[b], b);
      assert m.list[i].base == b && m.list[j].base == base && b != base;
      assert m.list[i].id != m.waiting[base];
      var k :| 0 <= k < |n.list| && n.list[k] == m.list[i];
    }
  }

  lemma TimedWaitKeepsOk(m: Manager, base: Name)
    requires ManagerOk(m) && base in m.waiting
    ensures ManagerOk(After(m, TimedWaitOver(base)))
  {
    RemovalKeepsItems(m, After(m, TimedWaitOver(base)), m.waiting[base]);
    RemovalKeepsWaiting(m, After(m, TimedWaitOver(base)), base);
  }

  lemma StepKeepsManagerOk(m: Manager, e: Event)
    requires ManagerOk(m) && Enabled(m, e)
    ensures ManagerOk(After(m, e))
  {
    match e {
      case Enqueue(base, lo, hi, high, hint, now) => EnqueueKeepsOk(m, base, lo, hi, high, hint, now);
      case Schedule(now, next) => ScheduleKeepsOk(m, now, next);
      case Inside(i, f, mapped, now) => InsideKeepsOk(m, i, f, mapped, now);
      case CompletionJob(i, now) => CompletionKeepsOk(m, i, now);
      case TimedWaitOver(base) => TimedWaitKeepsOk(m, base);
    }
  }

  // ----- the slots in use -----

  /** How many reports the fetchers still owe: one for each active fetcher and each queued completion. */
  function Owing(list: seq<Item>): nat {
    if list == [] then 0 else Owing(list[..|list| - 1]) + OwedBy(list[|list| - 1])
  }

  function OwedBy(item: Item): nat {
    item.jobs + if item.fetch.active then 1 else 0
  }

  ghost predicate CountRight(m: Manager) {
    && m.count == Owing(m.list) <= m.max
    && (forall i :: 0 <= i < |m.list| ==> m.list[i].jobs <= 1)
    && (forall i, b :: 0 <= i < |m.list| && b in m.waiting && m.waiting[b] == m.list[i].id ==> m.list[i].jobs == 0)
  }

  /** A report of a fetcher is owed when the fetcher is active. */
  predicate ReportOwed(m: Manager, e: Event) {
    e.Inside? && e.i < |m.list| ==>
      (ReportsCompletion(m.list[e.i].fetch, e.e) || ReportsFailure(m.list[e.i].fetch, e.e)) ==>
      m.list[e.i].fetch.active
  }

  lemma {:induction false} OwingJoin(a: seq<Item>, b: seq<Item>)
    ensures Owing(a + b) == Owing(a) + Owing(b)
  {
    if b == [] {
      assert a + b == a;
    } else {
      OwingJoin(a, b[..|b| - 1]);
      assert (a + b)[..|a + b| - 1] == a + b[..|b| - 1];
    }
  }

  lemma OwingUpdate(list: seq<Item>, i: nat, item: Item)
    requires i < |list|
    ensures Owing(list[i := item]) == Owing(list) - OwedBy(list[i]) + OwedBy(item)
  {
    var a, b := list[..i], list[i + 1..];
    assert list == a + ([list[i]] + b) && list[i := item] == a + ([item] + b);
    OwingJoin(a, [list[i]] + b);
    OwingJoin([list[i]], b);
    OwingJoin(a, [item] + b);
    OwingJoin([item], b);
    assert [list[i]][..0] == [] && [item][..0] == [];
  }

  lemma {:induction false} OwingWithout(list: seq<Item>, id: nat)
    requires forall i :: 0 <= i < |list| && list[i].id == id ==> OwedBy(list[i]) == 0
    ensures Owing(Without(list, id)) == Owing(list)
  {
    if list != [] {
      OwingWithout(list[..|list| - 1], id);
      var last := list[|list| - 1];
      OwingJoin(Without(list[..|list| - 1], id), if last.id == id then [] else [last]);
      assert [last][..0] == [];
    }
  }

  /** The first `k` fetchers after the scan: as many were started as there were slots and startable fetchers. */
  lemma {:induction false} OwingScheduled(m: Manager, now: int, next: int, k: nat)
    requires k <= |m.list|
    ensures Owing(Scheduled(m, now, next).list[..k]) ==
      Owing(m.list[..k]) + if m.count < m.max then Least(m.max - m.count, StartableIn(m.list[..k], now)) else 0
  {
    if k > 0 {
      OwingScheduled(m, now, next, k - 1);
      var n := Scheduled(m, now, next);
      assert n.list[..k][..k - 1] == n.list[..k - 1] && m.list[..k][..k - 1] == m.list[..k - 1];
    }
  }

  lemma ScheduleCounts(m: Manager, now: int, next: int)
    requires m.count == Owing(m.list) <= m.max
    ensures var n := Scheduled(m, now, next); n.count == Owing(n.list) <= n.max
  {
    OwingScheduled(m, now, next, |m.list|);
    var n := Scheduled(m, now, next);
    assert n.list[..|m.list|] == n.list && m.list[..|m.list|] == m.list;
  }

  lemma ScheduleKeepsCountRight(m: Manager, now: int, next: int)
    requires ManagerOk(m) && CountRight(m)
    ensures CountRight(Scheduled(m, now, next))
  {
    ScheduleCounts(m, now, next);
    var n := Scheduled(m, now, next);
    assert forall i :: 0 <= i < |m.list| ==> n.list[i].id == m.list[i].id && n.list[i].jobs == m.list[i].jobs;
  }

  /** A fetcher with a TimedWait task owes nothing, and no event of its own makes it owe without being active. */
  lemma WaitingOwesNothing(m: Manager, n: Manager, i: nat)
    requires IdsOk(m) && WaitingOk(m) && CountRight(m) && i < |m.list| == |n.list| && n.waiting == m.waiting
    requires n.list == m.list[i := n.list[i]] && n.list[i].id == m.list[i].id
    requires n.list[i].jobs == 0 || !m.list[i].fetch.timedWait || n.list[i].jobs == m.list[i].jobs
    ensures forall j, b :: 0 <= j < |n.list| && b in n.waiting && n.waiting[b] == n.list[j].id ==> n.list[j].jobs == 0
  {
    forall j, b | 0 <= j < |n.list| && b in n.waiting && n.waiting[b] == n.list[j].id
      ensures n.list[j].jobs == 0
    {
      assert m.waiting[b] == m.list[j].id;
      var k :| 0 <= k < |m.list| && Waits(m.list[k], m.waiting[b], b);
      assert k == j;
    }
  }

  lemma OwedReportKeepsCountRight(m: Manager, i: nat, e: Fetchers.Event, mapped: Name, now: int)
    requires ManagerOk(m) && CountRight(m) && Enabled(m, Inside(i, e, mapped, now))
      && ReportOwed(m, Inside(i, e, mapped, now))
    ensures CountRight(AfterInside(m, i, e, mapped, now))
  {
    var n := AfterInside(m, i, e, mapped, now);
    assert ItemOk(m.list[i]);
    InsideItem(m.list[i], e);
    OwingUpdate(m.list, i, n.list[i]);
    assert n.list == m.list[i := n.list[i]];
    if m.list[i].fetch.active {
      OwingAtLeast(m.list, i);
    }
    WaitingOwesNothing(m, n, i);
  }

  lemma UnowedReportMiscounts(m: Manager, i: nat, e: Fetchers.Event, mapped: Name, now: int)
    requires ManagerOk(m) && CountRight(m) && Enabled(m, Inside(i, e, mapped, now))
      && !ReportOwed(m, Inside(i, e, mapped, now))
    ensures AfterInside(m, i, e, mapped, now).count != Owing(AfterInside(m, i, e, mapped, now).list)
  {
    var n := AfterInside(m, i, e, mapped, now);
    assert ItemOk(m.list[i]);
    InsideItem(m.list[i], e);
    OwingUpdate(m.list, i, n.list[i]);
    assert n.list == m.list[i := n.list[i]];
  }

  lemma InsideKeepsCountRightIff(m: Manager, i: nat, e: Fetchers.Event, mapped: Name, now: int)
    requires ManagerOk(m) && CountRight(m) && Enabled(m, Inside(i, e, mapped, now))
    ensures CountRight(AfterInside(m, i, e, mapped, now)) <==> ReportOwed(m, Inside(i, e, mapped, now))
  {
    if ReportOwed(m, Inside(i, e, mapped, now)) {
      OwedReportKeepsCountRight(m, i, e, mapped, now);
    } else {
      UnowedReportMiscounts(m, i, e, mapped, now);
    }
  }

  lemma OwingAtLeast(list: seq<Item>, i: nat)
    requires i < |list|
    ensures Owing(list) >= OwedBy(list[i])
  {
    OwingUpdate(list, i, list[i].(jobs := 0, fetch := list[i].fetch.(active := false)));
  }

  lemma CompletionKeepsCountRight(m: Manager, i: nat, now: int)
    requires ManagerOk(m) && CountRight(m) && Enabled(m, CompletionJob(i, now))
    ensures CountRight(After(m, CompletionJob(i, now)))
  {
    var n := After(m, CompletionJob(i, now));
    OwingUpdate(m.list, i, n.list[i]);
    OwingAtLeast(m.list, i);
    forall j, b | 0 <= j < |n.list| && b in n.waiting && n.waiting[b] == n.list[j].id
      ensures n.list[j].jobs == 0
    {
      if j != i {
        assert m.waiting[b] == m.list[j].id;
      }
    }
  }

  lemma RemovalKeepsOwing(m: Manager, base: Name)
    requires ManagerOk(m) && CountRight(m) && base in m.waiting
    ensures Owing(Without(m.list, m.waiting[base])) == Owing(m.list)
  {
    var id := m.waiting[base];
    var w :| 0 <= w < |m.list| && Waits(m.list[w], id, base);
    assert ItemOk(m.list[w]) && OwedBy(m.list[w]) == 0;
    OwingWithout(m.list, id);
  }

  lemma TimedWaitKeepsCountRight(m: Manager, base: Name)
    requires ManagerOk(m) && CountRight(m) && base in m.waiting
    ensures CountRight(After(m, TimedWaitOver(base)))
  {
    RemovalKeepsOwing(m, base);
    WithoutKeeps(m.list, m.waiting[base]);
  }

  /** Each event keeps the count of running fetches right exactly when it is not a report that was not owed. */
  lemma CountStaysRightIff(m: Manager, e: Event)
    requires ManagerOk(m) && CountRight(m) && Enabled(m, e)
    ensures CountRight(After(m, e)) <==> ReportOwed(m, e)
  {
    match e {
      case Enqueue(base, lo, hi, high, hint, now) =>
        if lo <= hi {
          var item := Item(m.nextId, base, Fetchers.NewFetch(lo, hi), 0, hint, 0, now);
          OwingJoin(m.list, [item]);
          OwingJoin([item], m.list);
          assert [item][..0] == [];
          var n := After(m, e);
          forall j, b | 0 <= j < |n.list| && b in n.waiting && n.waiting[b] == n.list[j].id
            ensures n.list[j].jobs == 0
          {
            if n.list[j] != item {
              assert n.list[j] in m.list;
            }
          }
        }
      case Schedule(now, next) => ScheduleKeepsCountRight(m, now, next);
      case Inside(i, f, mapped, now) => InsideKeepsCountRightIff(m, i, f, mapped, now);
      case CompletionJob(i, now) => CompletionKeepsCountRight(m, i, now);
      case TimedWaitOver(base) => TimedWaitKeepsCountRight(m, base);
    }
  }

  /** Every report in the run was owed when it was made. */
  ghost predicate AllOwed(m: Manager, run: seq<Event>) {
    run == [] || (AllOwed(m, run[..|run| - 1]) && ReportOwed(AfterAll(m, run[..|run| - 1]), run[|run| - 1]))
  }

  lemma OneMoreOwed(m: Manager, run: seq<Event>, e: Event)
    ensures AllOwed(m, run + [e]) <==> AllOwed(m, run) && ReportOwed(AfterAll(m, run), e)
  {
    assert (run + [e])[..|run|] == run;
  }

  lemma {:induction false} RunKeepsManagerOk(max: nat, broadcast: Name, run: seq<Event>)
    requires max < WIDTH && Runs(NewManager(max, broadcast), run)
    ensures ManagerOk(AfterAll(NewManager(max, broadcast), run))
  {
    if run != [] {
      RunKeepsManagerOk(max, broadcast, run[..|run| - 1]);
      StepKeepsManagerOk(AfterAll(NewManager(max, broadcast), run[..|run| - 1]), run[|run| - 1]);
    }
  }

  /**
   * While every report is owed, the count is the number of fetchers running or with a completion queued, and within
   * the limit.
   */
  lemma {:induction false} RunKeepsCountRight(max: nat, broadcast: Name, run: seq<Event>)
    requires max < WIDTH && Runs(NewManager(max, broadcast), run) && AllOwed(NewManager(max, broadcast), run)
    ensures CountRight(AfterAll(NewManager(max, broadcast), run))
  {
    if run != [] {
      var before := run[..|run| - 1];
      RunKeepsCountRight(max, broadcast, before);
      RunKeepsManagerOk(max, broadcast, before);
      CountStaysRightIff(AfterAll(NewManager(max, broadcast), before), run[|run| - 1]);
    }
  }

  // ----- what a scan achieves -----

  lemma {:induction false} StartableInGrows(list: seq<Item>, i: nat, now: int)
    requires i <= |list|
    ensures StartableIn(list[..i], now) <= StartableIn(list, now)
    ensures i < |list| && Startable(list[i], now) ==> StartableIn(list[..i], now) < StartableIn(list, now)
  {
    if i < |list| {
      StartableInGrows(list[..|list| - 1], i, now);
      assert list[..|list| - 1][..i] == list[..i];
    } else {
      assert list[..i] == list;
    }
  }

  /**
   * After a scan every slot is used, or nothing that could start is idle and the next check misses no delayed retry.
   */
  lemma ScanUsesSlots(m: Manager, now: int, next: int)
    requires m.count <= m.max && IsNextCheck(m, now, next)
    ensures var n := Scheduled(m, now, next);
      && m.count <= n.count <= n.max
      && (n.count == n.max ||
          ((forall i :: 0 <= i < |n.list| ==> !Startable(n.list[i], now)) &&
           (forall i :: 0 <= i < |n.list| && Delayed(n.list[i], now) ==> now < next <= n.list[i].retryAt)))
  {
    var n := Scheduled(m, now, next);
    if n.count < n.max {
      forall i | 0 <= i < |m.list|
        ensures Reached(m, i, now)
      {
        StartableInGrows(m.list, i, now);
      }
    }
  }

  // ----- back-off and forwarding hints -----

  /**
   * Among any three consecutive attempts one uses the broadcast hint and one uses no hint, whatever the mapping
   * answers.
   */
  lemma HintsRotate(h: Name, m1: Name, m2: Name, broadcast: Name)
    requires broadcast != []
    ensures var h1 := NextHint(h, m1, broadcast);
      var h2 := NextHint(h1, m2, broadcast);
      broadcast in {h, h1, h2} && [] in {h, h1, h2} && (h == [] && m1 != [] ==> h1 == m1)
  {
    var h1 := NextHint(h, m1, broadcast);
    if h != [] && h != broadcast {
      assert h1 == broadcast;
    }
  }

  // ----- removal of completed fetchers -----

  /**
   * A completed fetcher is given a removal task exactly when no earlier fetcher of the same base name still has one.
   */
  lemma RemovalIsScheduledIff(m: Manager, i: nat, now: int)
    requires ManagerOk(m) && Enabled(m, CompletionJob(i, now))
    requires forall b :: b in m.waiting ==> m.waiting[b] != m.list[i].id
    ensures var n := After(m, CompletionJob(i, now));
      (exists b :: b in n.waiting && n.waiting[b] == n.list[i].id) <==> m.list[i].base !in m.waiting
  {
    var n := After(m, CompletionJob(i, now));
    if m.list[i].base !in m.waiting {
      assert n.waiting[m.list[i].base] == n.list[i].id;
    }
  }

  /** The fetcher has completed, no completion is queued and no task will remove it. */
  ghost predicate Stranded(m: Manager, id: nat) {
    && (exists x :: x in m.list && x.id == id)
    && (forall x :: x in m.list && x.id == id ==> x.fetch.timedWait && x.jobs == 0)
    && (forall b :: b in m.waiting ==> m.waiting[b] != id)
  }

  lemma SameMembersStranded(m: Manager, n: Manager, id: nat)
    requires Stranded(m, id)
    requires forall x: Item :: x.id == id ==> (x in m.list <==> x in n.list)
    requires forall b :: b in n.waiting ==> b in m.waiting && n.waiting[b] == m.waiting[b]
    ensures Stranded(n, id)
  {
    var x :| x in m.list && x.id == id;
    assert x in n.list;
  }

  /** Position by position the fetchers are the same, with the same queued jobs and no end of a timed wait. */
  lemma StaysStranded(m: Manager, n: Manager, id: nat)
    requires Stranded(m, id) && |n.list| == |m.list|
    requires forall k :: 0 <= k < |m.list| ==> n.list[k].id == m.list[k].id
    requires forall k :: 0 <= k < |m.list| && m.list[k].id == id && m.list[k].fetch.timedWait && m.list[k].jobs == 0 ==>
      n.list[k].fetch.timedWait && n.list[k].jobs == 0
    requires forall b :: b in n.waiting ==> n.waiting[b] != id
    ensures Stranded(n, id)
  {
    var k :| 0 <= k < |m.list| && m.list[k].id == id;
    assert n.list[k] in n.list;
    forall x | x in n.list && x.id == id
      ensures x.fetch.timedWait && x.jobs == 0
    {
      var k :| 0 <= k < |n.list| && n.list[k] == x;
      assert m.list[k] in m.list;
    }
  }

  /** The stranded fetcher itself reports completion once more. */
  predicate ReportsItself(m: Manager, e: Event, id: nat) {
    e.Inside? && e.i < |m.list| && m.list[e.i].id == id && ReportsCompletion(m.list[e.i].fetch, e.e)
  }

  lemma StrandedWithin(m: Manager, id: nat, e: Event)
    requires ManagerOk(m) && Stranded(m, id) && Enabled(m, e) && e.Inside?
    ensures Stranded(After(m, e), id) <==> !ReportsItself(m, e, id)
  {
    var n := After(m, e);
    assert ItemOk(m.list[e.i]);
    InsideItem(m.list[e.i], e.e);
    if ReportsItself(m, e, id) {
      assert n.list[e.i] in n.list && n.list[e.i].id == id;
    } else {
      assert forall k :: 0 <= k < |m.list| ==> n.list[k].id == m.list[k].id;
      StaysStranded(m, n, id);
    }
  }

  lemma StrandedScan(m: Manager, id: nat, e: Event)
    requires Stranded(m, id) && e.Schedule?
    ensures Stranded(After(m, e), id)
  {
    var n := After(m, e);
    assert forall k :: 0 <= k < |m.list| ==> n.list[k].id == m.list[k].id && n.list[k].jobs == m.list[k].jobs;
    StaysStranded(m, n, id);
  }

  lemma StrandedEnqueue(m: Manager, id: nat, e: Event)
    requires IdsOk(m) && Stranded(m, id) && e.Enqueue?
    ensures Stranded(After(m, e), id)
  {
    if e.lo <= e.hi {
      var x :| x in m.list && x.id == id;
      SameMembersStranded(m, After(m, e), id);
    }
  }

  lemma StrandedCompletion(m: Manager, id: nat, e: Event)
    requires Stranded(m, id) && Enabled(m, e) && e.CompletionJob?
    ensures Stranded(After(m, e), id)
  {
    var n := After(m, e);
    assert m.list[e.i].id != id;
    assert forall k :: 0 <= k < |m.list| ==> n.list[k].id == m.list[k].id;
    StaysStranded(m, n, id);
  }

  lemma StrandedRemoval(m: Manager, id: nat, e: Event)
    requires Stranded(m, id) && Enabled(m, e) && e.TimedWaitOver?
    ensures Stranded(After(m, e), id)
  {
    WithoutIs(m.list, m.waiting[e.base]);
    SameMembersStranded(m, After(m, e), id);
  }

  /** A stranded fetcher stays stranded by an event exactly when the event is not its own completion report. */
  lemma StrandedForGood(m: Manager, id: nat, e: Event)
    requires ManagerOk(m) && Stranded(m, id) && Enabled(m, e)
    ensures Stranded(After(m, e), id) <==> !ReportsItself(m, e, id)
  {
    match e {
      case Enqueue(_, _, _, _, _, _) => StrandedEnqueue(m, id, e);
      case Schedule(_, _) => StrandedScan(m, id, e);
      case Inside(_, _, _, _) => StrandedWithin(m, id, e);
      case CompletionJob(_, _) => StrandedCompletion(m, id, e);
      case TimedWaitOver(_) => StrandedRemoval(m, id, e);
    }
  }

  /** Nothing that the fetcher could still do reports completion. */
  ghost predicate FinishedIn(m: Manager, id: nat) {
    forall k :: 0 <= k < |m.list| && m.list[k].id == id ==> Fetchers.Finished(m.list[k].fetch)
  }

  lemma ScanKeepsFinished(m: Manager, id: nat, e: Event)
    requires FinishedIn(m, id) && e.Schedule?
    ensures FinishedIn(After(m, e), id)
  {
    var n := After(m, e);
    forall k | 0 <= k < |n.list| && n.list[k].id == id
      ensures Fetchers.Finished(n.list[k].fetch)
    {
      assert Fetchers.Finished(m.list[k].fetch);
    }
  }

  lemma RemovalKeepsFinished(m: Manager, id: nat, other: nat)
    requires FinishedIn(m, id)
    ensures FinishedIn(m.(list := Without(m.list, other)), id)
  {
    WithoutKeeps(m.list, other);
    var rest := Without(m.list, other);
    forall k | 0 <= k < |rest| && rest[k].id == id
      ensures Fetchers.Finished(rest[k].fetch)
    {
      var i :| 0 <= i < |m.list| && m.list[i] == rest[k];
    }
  }

  lemma InsideKeepsFinished(m: Manager, id: nat, e: Event)
    requires FinishedIn(m, id) && Enabled(m, e) && e.Inside?
    ensures FinishedIn(After(m, e), id) && !ReportsItself(m, e, id)
  {
    var n := After(m, e);
    if m.list[e.i].id == id {
      Fetchers.Happens(m.list[e.i].fetch, e.e);
      Fetchers.FinishedStays(m.list[e.i].fetch, [e.e]);
    }
    forall k | 0 <= k < |n.list| && n.list[k].id == id
      ensures Fetchers.Finished(n.list[k].fetch)
    {
      assert Fetchers.Finished(m.list[k].fetch);
    }
  }

  lemma StepKeepsFinished(m: Manager, id: nat, e: Event)
    requires id < m.nextId && FinishedIn(m, id) && Enabled(m, e)
    ensures FinishedIn(After(m, e), id) && !ReportsItself(m, e, id)
  {
    match e {
      case Enqueue(_, _, _, _, _, _) =>
      case Schedule(_, _) => ScanKeepsFinished(m, id, e);
      case Inside(_, _, _, _) => InsideKeepsFinished(m, id, e);
      case CompletionJob(_, _) =>
      case TimedWaitOver(base) => RemovalKeepsFinished(m, id, m.waiting[base]);
    }
  }

  lemma StrandedIdIsOld(m: Manager, id: nat)
    requires ManagerOk(m) && Stranded(m, id)
    ensures id < m.nextId
  {
    var x :| x in m.list && x.id == id;
  }

  lemma {:induction false} FinishedStaysStranded(m: Manager, id: nat, run: seq<Event>)
    requires ManagerOk(m) && Stranded(m, id) && FinishedIn(m, id) && Runs(m, run)
    ensures ManagerOk(AfterAll(m, run)) && Stranded(AfterAll(m, run), id) && FinishedIn(AfterAll(m, run), id)
  {
    if run != [] {
      var before, e := run[..|run| - 1], run[|run| - 1];
      FinishedStaysStranded(m, id, before);
      var g := AfterAll(m, before);
      StrandedIdIsOld(g, id);
      StepKeepsManagerOk(g, e);
      StepKeepsFinished(g, id, e);
      StrandedForGood(g, id, e);
    }
  }

  /** Data for a stranded fetcher makes it report once more. */
  lemma DataUnstrands(m: Manager, i: nat) returns (e: Event)
    requires ManagerOk(m) && i < |m.list| && Stranded(m, m.list[i].id) && m.list[i].fetch.inFlight != {}
    ensures Enabled(m, e) && !Stranded(After(m, e), m.list[i].id)
  {
    assert m.list[i] in m.list && ItemOk(m.list[i]);
    var s := Fetchers.Pick(m.list[i].fetch.inFlight);
    e := Inside(i, Fetchers.Data(s), [], 0);
    Fetchers.DataReportsAgain(m.list[i].fetch, s);
    StrandedForGood(m, m.list[i].id, e);
  }

  /** A completed fetcher whose queued fill has not caught up asks for something and reports nothing. */
  lemma LateFill(f: Fetchers.Fetch)
    requires Fetchers.FetchOk(f) && f.completions > 0 && f.fills > 0 && f.minSend < f.maxSeq
    ensures Fetchers.After(f, Fetchers.RunFill).inFlight != {} && !ReportsCompletion(f, Fetchers.RunFill)
    ensures !ReportsFailure(f, Fetchers.RunFill)
  {
    Fetchers.AsksAgainIff(f.(fills := f.fills - 1));
    Fetchers.FillChangesOnlyTheWindow(f.(fills := f.fills - 1));
  }

  lemma FillAsksAgain(m: Manager, i: nat) returns (e: Event)
    requires ManagerOk(m) && i < |m.list| && Stranded(m, m.list[i].id) && !Fetchers.Finished(m.list[i].fetch)
    requires m.list[i].fetch.inFlight == {}
    ensures Enabled(m, e) && ManagerOk(After(m, e)) && Stranded(After(m, e), m.list[i].id)
    ensures var n := After(m, e);
      |n.list| == |m.list| && n.list[i].id == m.list[i].id && n.list[i].fetch.inFlight != {}
  {
    var f := m.list[i].fetch;
    assert m.list[i] in m.list && ItemOk(m.list[i]);
    LateFill(f);
    e := Inside(i, Fetchers.RunFill, [], 0);
    StepKeepsManagerOk(m, e);
    StrandedForGood(m, m.list[i].id, e);
  }

  /** An unfinished stranded fetcher can report once more. */
  lemma UnfinishedReports(m: Manager, i: nat) returns (run: seq<Event>)
    requires ManagerOk(m) && i < |m.list| && Stranded(m, m.list[i].id) && !Fetchers.Finished(m.list[i].fetch)
    ensures Runs(m, run) && !Stranded(AfterAll(m, run), m.list[i].id)
  {
    var g := m;
    run := [];
    if m.list[i].fetch.inFlight == {} {
      var fill := FillAsksAgain(m, i);
      OneMore(m, run, fill);
      run, g := run + [fill], After(m, fill);
    }
    var data := DataUnstrands(g, i);
    OneMore(m, run, data);
    run := run + [data];
  }

  /**
   * A stranded fetcher stays in the list without a removal task for ever, whatever happens, exactly when it has nothing
   * in flight and no queued fill that could ask for anything.
   */
  lemma StrandedForEverIff(m: Manager, i: nat)
    requires ManagerOk(m) && i < |m.list| && Stranded(m, m.list[i].id)
    ensures (forall run :: Runs(m, run) ==> Stranded(AfterAll(m, run), m.list[i].id)) <==>
      Fetchers.Finished(m.list[i].fetch)
  {
    if Fetchers.Finished(m.list[i].fetch) {
      forall run | Runs(m, run)
        ensures Stranded(AfterAll(m, run), m.list[i].id)
      {
        FinishedStaysStranded(m, m.list[i].id, run);
      }
    } else {
      var run := UnfinishedReports(m, i);
    }
  }

  // ----- a run that strands a fetcher -----

  /** The fetch of one segment before its start, and after its start, its fill and its data. */
  function FetchOfOne(stage: nat): Fetchers.Fetch {
    if stage == 0 then Fetchers.NewFetch(1, 1)
    else if stage == 1 then Fetchers.Fetch(1, 1, 0, 0, {}, {}, 0, true, false, 1, [], 0, 0, 1)
    else if stage == 2 then Fetchers.Fetch(1, 1, 1, 0, {}, {1}, 1, true, false, 0, [], 0, 0, 1)
    else Fetchers.Fetch(1, 1, 1, 1, {}, {}, 0, false, true, 0, [1], 1, 0, 1)
  }

  lemma OneIsFilled(f: Fetchers.Fetch)
    requires f == FetchOfOne(1)
    ensures Fetchers.After(f, Fetchers.RunFill) == FetchOfOne(2)
  {
    Fetchers.FillAsks(f.(fills := 0), {1});
  }

  lemma OneIsReceived(f: Fetchers.Fetch)
    requires f == FetchOfOne(2)
    ensures Fetchers.After(f, Fetchers.Data(1)) == FetchOfOne(3)
  {
    assert f.inFlight - {1} == {} && f.outOfOrder + {1} == {1};
    Fetchers.AdvanceIsUnique(0, {1}, 1);
    assert Fetchers.Above(1, {1}) == {};
  }

  function LoneItem(m: Manager, base: Name, stage: nat, jobs: nat): Item {
    Item(m.nextId, base, FetchOfOne(stage), jobs, [], 0, 0)
  }

  /** The manager with one more fetcher, which has reached the given stage. */
  function WithLone(m: Manager, base: Name, stage: nat, jobs: nat, count: nat, next: int): Manager {
    m.(list := m.list + [LoneItem(m, base, stage, jobs)], nextId := m.nextId + 1, count := count, nextCheck := next)
  }

  lemma {:induction false} NobodyStarts(list: seq<Item>, now: int)
    requires forall k :: 0 <= k < |list| ==> list[k].fetch.timedWait
    ensures StartableIn(list, now) == 0
  {
    if list != [] {
      NobodyStarts(list[..|list| - 1], now);
    }
  }

  /** With all others waiting, a scan starts the last fetcher. */
  lemma ScanStartsLast(m: Manager, base: Name)
    requires m.count < m.max && forall k :: 0 <= k < |m.list| ==> m.list[k].fetch.timedWait
    ensures var g := WithLone(m, base, 0, 0, m.count, 0);
      Enabled(g, Schedule(0, LONGEST_PAUSE)) &&
      After(g, Schedule(0, LONGEST_PAUSE)) == WithLone(m, base, 1, 0, m.count + 1, LONGEST_PAUSE)
  {
    var g := WithLone(m, base, 0, 0, m.count, 0);
    assert g.list[..|m.list|] == m.list;
    NobodyStarts(m.list, 0);
    assert Reached(g, |m.list|, 0);
    assert Scheduled(g, 0, LONGEST_PAUSE).list == m.list + [LoneItem(m, base, 1, 0)];
  }

  lemma LoneMoves(m: Manager, base: Name, stage: nat, count: nat, next: int)
    requires 1 <= stage <= 2
    ensures var e := if stage == 1 then Fetchers.RunFill else Fetchers.Data(1);
      var g := WithLone(m, base, stage, 0, count, next);
      Enabled(g, Inside(|m.list|, e, [], 0)) && ReportOwed(g, Inside(|m.list|, e, [], 0)) &&
      After(g, Inside(|m.list|, e, [], 0)) == WithLone(m, base, stage + 1, if stage == 1 then 0 else 1, count, next)
  {
    if stage == 1 {
      OneIsFilled(FetchOfOne(1));
    } else {
      OneIsReceived(FetchOfOne(2));
    }
    var g := WithLone(m, base, stage, 0, count, next);
    var jobs := if stage == 1 then 0 else 1;
    assert g.list[|m.list|] == LoneItem(m, base, stage, 0);
    assert g.list[|m.list| := LoneItem(m, base, stage + 1, jobs)] == m.list + [LoneItem(m, base, stage + 1, jobs)];
  }

  lemma LoneIsDone(m: Manager, base: Name, next: int)
    ensures var g, e := WithLone(m, base, 3, 1, m.count + 1, next), CompletionJob(|m.list|, 0);
      Enabled(g, e) &&
      After(g, e) == WithLone(m, base, 3, 0, m.count, 0).(
        waiting := if base in m.waiting then m.waiting else m.waiting[base := m.nextId])
  {
    var g := WithLone(m, base, 3, 1, m.count + 1, next);
    assert g.list[|m.list|] == LoneItem(m, base, 3, 1);
    assert g.list[|m.list| := LoneItem(m, base, 3, 0)] == m.list + [LoneItem(m, base, 3, 0)];
  }

  lemma OneMoreEvent(m: Manager, run: seq<Event>, g: Manager, e: Event, n: Manager) returns (longer: seq<Event>)
    requires Runs(m, run) && AllOwed(m, run) && AfterAll(m, run) == g
    requires Enabled(g, e) && ReportOwed(g, e) && After(g, e) == n
    ensures Runs(m, longer) && AllOwed(m, longer) && AfterAll(m, longer) == n
  {
    OneMore(m, run, e);
    OneMoreOwed(m, run, e);
    longer := run + [e];
  }

  /** A range of one segment is enqueued and fetched while all other fetchers wait for their removal. */
  lemma FetchesOne(start: Manager, run: seq<Event>, m: Manager, base: Name) returns (longer: seq<Event>, n: Manager)
    requires Runs(start, run) && AllOwed(start, run) && AfterAll(start, run) == m
    requires m.count < m.max && forall k :: 0 <= k < |m.list| ==> m.list[k].fetch.timedWait
    ensures Runs(start, longer) && AllOwed(start, longer) && AfterAll(start, longer) == n
    ensures n == WithLone(m, base, 3, 0, m.count, 0).(
      waiting := if base in m.waiting then m.waiting else m.waiting[base := m.nextId])
  {
    var g := WithLone(m, base, 0, 0, m.count, 0);
    longer := OneMoreEvent(start, run, m, Enqueue(base, 1, 1, false, [], 0), g);
    ScanStartsLast(m, base);
    var h := WithLone(m, base, 1, 0, m.count + 1, LONGEST_PAUSE);
    longer := OneMoreEvent(start, longer, g, Schedule(0, LONGEST_PAUSE), h);
    LoneMoves(m, base, 1, m.count + 1, LONGEST_PAUSE);
    g := WithLone(m, base, 2, 0, m.count + 1, LONGEST_PAUSE);
    longer := OneMoreEvent(start, longer, h, Inside(|m.list|, Fetchers.RunFill, [], 0), g);
    LoneMoves(m, base, 2, m.count + 1, LONGEST_PAUSE);
    h := WithLone(m, base, 3, 1, m.count + 1, LONGEST_PAUSE);
    longer := OneMoreEvent(start, longer, g, Inside(|m.list|, Fetchers.Data(1), [], 0), h);
    LoneIsDone(m, base, LONGEST_PAUSE);
    n := After(h, CompletionJob(|m.list|, 0));
    longer := OneMoreEvent(start, longer, h, CompletionJob(|m.list|, 0), n);
  }

  /** Two ranges of one base name that complete before the first is removed leave the second stranded for ever. */
  lemma FetchersCanStrand(max: nat, broadcast: Name, base: Name) returns (run: seq<Event>)
    requires 0 < max < WIDTH
    ensures Runs(NewManager(max, broadcast), run) && AllOwed(NewManager(max, broadcast), run)
    ensures var m := AfterAll(NewManager(max, broadcast), run);
      |m.list| == 2 && Stranded(m, m.list[1].id) && Fetchers.Finished(m.list[1].fetch)
  {
    var start := NewManager(max, broadcast);
    var r, m := FetchesOne(start, [], start, base);
    var n;
    run, n := FetchesOne(start, r, m, base);
    assert n.list[0].id == 0 && n.list[1].id == 1 && n.waiting == map[base := 0];
    assert n.list[1] in n.list;
  }

  // ----- what each fetcher goes through -----

  lemma RangeStays(f: Fetchers.Fetch, e: Fetchers.Event)
    ensures Fetchers.After(f, e).minSeq == f.minSeq && Fetchers.After(f, e).maxSeq == f.maxSeq
  {
    Fetchers.FillChangesOnlyTheWindow(f.(fills := if f.fills > 0 then f.fills - 1 else 0));
  }

  /** The fetcher is new, or the manager had it before and it has gone through at most one event. */
  ghost predicate CameFrom(m: Manager, item: Item) {
    || (item.fetch.minSeq <= item.fetch.maxSeq && item.fetch == Fetchers.NewFetch(item.fetch.minSeq, item.fetch.maxSeq))
    || (exists k :: 0 <= k < |m.list| && IsNext(m.list[k].fetch, item.fetch))
  }

  ghost predicate IsNext(f: Fetchers.Fetch, g: Fetchers.Fetch) {
    f == g || exists e :: Fetchers.Enabled(f, e) && Fetchers.After(f, e) == g
  }

  lemma EachCameFrom(m: Manager, e: Event, i: nat)
    requires Enabled(m, e) && i < |After(m, e).list|
    ensures CameFrom(m, After(m, e).list[i])
  {
    var item := After(m, e).list[i];
    match e {
      case Enqueue(_, lo, hi, high, _, _) =>
        if lo <= hi && item.fetch != Fetchers.NewFetch(lo, hi) {
          assert IsNext(m.list[if high then i - 1 else i].fetch, item.fetch);
        } else if lo > hi {
          assert IsNext(m.list[i].fetch, item.fetch);
        }
      case Schedule(_, _) =>
        assert item.fetch == m.list[i].fetch || item.fetch == Fetchers.After(m.list[i].fetch, Fetchers.Restart);
        assert IsNext(m.list[i].fetch, item.fetch);
      case Inside(j, f, _, _) =>
        assert i == j ==> item.fetch == Fetchers.After(m.list[i].fetch, f);
        assert IsNext(m.list[i].fetch, item.fetch);
      case CompletionJob(_, _) =>
        assert IsNext(m.list[i].fetch, item.fetch);
      case TimedWaitOver(base) =>
        WithoutKeeps(m.list, m.waiting[base]);
        var k :| 0 <= k < |m.list| && m.list[k] == item;
        assert IsNext(m.list[k].fetch, item.fetch);
    }
  }

  ghost predicate IsRunOf(fr: seq<Fetchers.Event>, f: Fetchers.Fetch) {
    && f.minSeq <= f.maxSeq
    && Fetchers.Runs(Fetchers.NewFetch(f.minSeq, f.maxSeq), fr)
    && Fetchers.AfterAll(Fetchers.NewFetch(f.minSeq, f.maxSeq), fr) == f
  }

  /** In every run each fetcher of the manager has gone through a run of its own. */
  lemma {:induction false} EachFetcherRuns(max: nat, broadcast: Name, run: seq<Event>, i: nat)
    returns (fr: seq<Fetchers.Event>)
    requires Runs(NewManager(max, broadcast), run) && i < |AfterAll(NewManager(max, broadcast), run).list|
    ensures IsRunOf(fr, AfterAll(NewManager(max, broadcast), run).list[i].fetch)
    decreases |run|
  {
    var before, e := run[..|run| - 1], run[|run| - 1];
    var m := AfterAll(NewManager(max, broadcast), before);
    var g := After(m, e).list[i].fetch;
    EachCameFrom(m, e, i);
    if g == Fetchers.NewFetch(g.minSeq, g.maxSeq) && g.minSeq <= g.maxSeq {
      fr := [];
    } else {
      var k :| 0 <= k < |m.list| && IsNext(m.list[k].fetch, g);
      fr := EachFetcherRuns(max, broadcast, before, k);
      if m.list[k].fetch != g {
        var f :| Fetchers.Enabled(m.list[k].fetch, f) && Fetchers.After(m.list[k].fetch, f) == g;
        RangeStays(m.list[k].fetch, f);
        Fetchers.OneMore(Fetchers.NewFetch(g.minSeq, g.maxSeq), fr, f);
        fr := fr + [f];
      }
    }
  }

  // ----- what is in flight when a fetcher is removed -----

  /** A fetcher that was started only once has nothing in flight when it is removed, and will ask for nothing. */
  lemma RemovedIsIdle(max: nat, broadcast: Name, run: seq<Event>, i: nat)
    requires max < WIDTH && Runs(NewManager(max, broadcast), run)
    requires i < |AfterAll(NewManager(max, broadcast), run).list|
    ensures var m := AfterAll(NewManager(max, broadcast), run);
      m.list[i].id in m.waiting.Values && m.list[i].fetch.starts <= 1 ==> Fetchers.Finished(m.list[i].fetch)
  {
    var m := AfterAll(NewManager(max, broadcast), run);
    var f := m.list[i].fetch;
    RunKeepsManagerOk(max, broadcast, run);
    var fr := EachFetcherRuns(max, broadcast, run, i);
    if m.list[i].id in m.waiting.Values && f.starts <= 1 {
      var b :| b in m.waiting && m.waiting[b] == m.list[i].id;
      var k :| 0 <= k < |m.list| && Waits(m.list[k], m.waiting[b], b);
      assert k == i && ItemOk(m.list[i]);
      Fetchers.SingleStartStaysFresh(f.minSeq, f.maxSeq, fr);
    }
  }

  // ----- a report that is not owed -----

  /** No number is given up while a fill of its fetcher is queued; see Fetchers.Patient. */
  ghost predicate Patient(m: Manager, run: seq<Event>) {
    run == [] ||
    (Patient(m, run[..|run| - 1]) && IsPatient(AfterAll(m, run[..|run| - 1]), run[|run| - 1]))
  }

  ghost predicate IsPatient(m: Manager, e: Event) {
    e.Inside? && e.e.GiveUp? && e.i < |m.list| ==> m.list[e.i].fetch.fills == 0
  }

  lemma OneMorePatient(m: Manager, run: seq<Event>, e: Event)
    ensures Patient(m, run + [e]) <==> Patient(m, run) && IsPatient(AfterAll(m, run), e)
  {
    assert (run + [e])[..|run|] == run;
  }

  /** No fetcher in the run reported while it was not active. */
  predicate ReportsOwed(f: Fetchers.Fetch, run: seq<Fetchers.Event>) {
    run == [] ||
    (ReportsOwed(f, run[..|run| - 1]) &&
     var g, e := Fetchers.AfterAll(f, run[..|run| - 1]), run[|run| - 1];
     (ReportsCompletion(g, e) || ReportsFailure(g, e) ==> g.active))
  }

  /**
   * The first delayed fetcher's retry decides the next check; for one fetcher that can start, it is 300 seconds away.
   */
  lemma LoneRestart(m: Manager)
    requires ManagerOk(m) && CountRight(m) && |m.list| == 1 && 0 < m.max
    requires Fetchers.Enabled(m.list[0].fetch, Fetchers.Restart)
    ensures var now := m.list[0].retryAt;
      var n := After(m, Schedule(now, now + LONGEST_PAUSE));
      Enabled(m, Schedule(now, now + LONGEST_PAUSE))
        && n.list == [m.list[0].(fetch := Fetchers.After(m.list[0].fetch, Fetchers.Restart))]
  {
    assert ItemOk(m.list[0]) && m.list == [m.list[0]];
    assert m.list[..0] == [] && Owing([]) == 0 && Owing(m.list) == Owing(m.list[..0]) + OwedBy(m.list[0]);
    assert Reached(m, 0, m.list[0].retryAt);
  }

  lemma {:induction false} MaxIsKept(m: Manager, run: seq<Event>)
    ensures AfterAll(m, run).max == m.max
  {
    if run != [] {
      MaxIsKept(m, run[..|run| - 1]);
    }
  }

  /** The manager's event for an event of its only fetcher. */
  function Followed(m: Manager, f: Fetchers.Event): Event
    requires |m.list| == 1
  {
    if f.Restart? then Schedule(m.list[0].retryAt, m.list[0].retryAt + LONGEST_PAUSE) else Inside(0, f, [], 0)
  }

  lemma FollowsOne(m: Manager, f: Fetchers.Event)
    requires ManagerOk(m) && CountRight(m) && |m.list| == 1 && 0 < m.max && Fetchers.Enabled(m.list[0].fetch, f)
    requires m.waiting == map[] && m.list[0].jobs == m.list[0].fetch.completions
    ensures Enabled(m, Followed(m, f))
    ensures var n := After(m, Followed(m, f));
      && |n.list| == 1 && n.list[0].fetch == Fetchers.After(m.list[0].fetch, f)
      && n.waiting == map[] && n.list[0].jobs == n.list[0].fetch.completions
  {
    if f.Restart? {
      LoneRestart(m);
    } else {
      InsideItem(m.list[0], f);
    }
  }

  lemma FirstEnqueued(max: nat, broadcast: Name, base: Name, lo: int, hi: int)
    requires lo <= hi
    ensures var m := Enqueued(NewManager(max, broadcast), base, lo, hi, false, [], 0);
      |m.list| == 1 && m.list[0].fetch == Fetchers.NewFetch(lo, hi) && m.waiting == map[] && m.list[0].jobs == 0
  {
  }

  /** The manager can take one fetcher through any of its runs, as long as its reports are owed. */
  lemma {:induction false} ManagerFollows(max: nat, broadcast: Name, base: Name, lo: int, hi: int,
    run: seq<Fetchers.Event>) returns (all: seq<Event>)
    requires 0 < max < WIDTH && lo <= hi
    requires Fetchers.Runs(Fetchers.NewFetch(lo, hi), run) && ReportsOwed(Fetchers.NewFetch(lo, hi), run)
    ensures Runs(NewManager(max, broadcast), all) && AllOwed(NewManager(max, broadcast), all)
    ensures Fetchers.Patient(Fetchers.NewFetch(lo, hi), run) ==> Patient(NewManager(max, broadcast), all)
    ensures var m := AfterAll(NewManager(max, broadcast), all);
      && |m.list| == 1 && m.list[0].fetch == Fetchers.AfterAll(Fetchers.NewFetch(lo, hi), run)
      && m.waiting == map[] && m.list[0].jobs == m.list[0].fetch.completions
  {
    var start := NewManager(max, broadcast);
    var e := Enqueue(base, lo, hi, false, [], 0);
    if run == [] {
      all := [];
      FirstEnqueued(max, broadcast, base, lo, hi);
    } else {
      all := ManagerFollows(max, broadcast, base, lo, hi, run[..|run| - 1]);
      RunKeepsManagerOk(max, broadcast, all);
      RunKeepsCountRight(max, broadcast, all);
      MaxIsKept(start, all);
      FollowsOne(AfterAll(start, all), run[|run| - 1]);
      e := Followed(AfterAll(start, all), run[|run| - 1]);
    }
    OneMore(start, all, e);
    OneMoreOwed(start, all, e);
    OneMorePatient(start, all, e);
    all := all + [e];
  }

  /** Until a fetcher reports without owing it, it has completed at most once. */
  lemma {:induction false} OwedCompletesOnce(lo: int, hi: int, run: seq<Fetchers.Event>)
    requires Fetchers.Runs(Fetchers.NewFetch(lo, hi), run) && ReportsOwed(Fetchers.NewFetch(lo, hi), run)
    ensures var f := Fetchers.AfterAll(Fetchers.NewFetch(lo, hi), run);
      f.completions <= 1 && (f.completions == 1 ==> f.timedWait && !f.active)
  {
    if run != [] {
      OwedCompletesOnce(lo, hi, run[..|run| - 1]);
      var f := Fetchers.AfterAll(Fetchers.NewFetch(lo, hi), run[..|run| - 1]);
      Fetchers.FillChangesOnlyTheWindow(f.(fills := if f.fills > 0 then f.fills - 1 else 0));
    }
  }

  /** The first report in a run that was not owed, and what was before it. */
  lemma {:induction false} FirstUnowed(lo: int, hi: int, run: seq<Fetchers.Event>)
    returns (before: seq<Fetchers.Event>, e: Fetchers.Event)
    requires Fetchers.Runs(Fetchers.NewFetch(lo, hi), run) && !ReportsOwed(Fetchers.NewFetch(lo, hi), run)
    ensures Fetchers.Runs(Fetchers.NewFetch(lo, hi), before) && ReportsOwed(Fetchers.NewFetch(lo, hi), before)
    ensures Fetchers.Patient(Fetchers.NewFetch(lo, hi), run) ==>
      Fetchers.Patient(Fetchers.NewFetch(lo, hi), before) &&
      (e.GiveUp? ==> Fetchers.AfterAll(Fetchers.NewFetch(lo, hi), before).fills == 0)
    ensures var f := Fetchers.AfterAll(Fetchers.NewFetch(lo, hi), before);
      Fetchers.Enabled(f, e) && !f.active && (ReportsCompletion(f, e) || ReportsFailure(f, e))
  {
    if ReportsOwed(Fetchers.NewFetch(lo, hi), run[..|run| - 1]) {
      before, e := run[..|run| - 1], run[|run| - 1];
    } else {
      before, e := FirstUnowed(lo, hi, run[..|run| - 1]);
    }
  }

  /**
   * Any run of a fetcher with a report that was not owed can happen under a manager and makes its count wrong.
   * There are such runs: a fetcher that was restarted can complete twice.
   */
  lemma UnowedReportBreaksCount(max: nat, broadcast: Name, base: Name, lo: int, hi: int, run: seq<Fetchers.Event>)
    returns (all: seq<Event>)
    requires 0 < max < WIDTH && lo <= hi
    requires Fetchers.Runs(Fetchers.NewFetch(lo, hi), run) && !ReportsOwed(Fetchers.NewFetch(lo, hi), run)
    ensures Runs(NewManager(max, broadcast), all) && !CountRight(AfterAll(NewManager(max, broadcast), all))
    ensures Fetchers.Patient(Fetchers.NewFetch(lo, hi), run) ==> Patient(NewManager(max, broadcast), all)
  {
    var before, f := FirstUnowed(lo, hi, run);
    all := ManagerFollows(max, broadcast, base, lo, hi, before);
    RunKeepsManagerOk(max, broadcast, all);
    RunKeepsCountRight(max, broadcast, all);
    var e := Inside(0, f, [], 0);
    CountStaysRightIff(AfterAll(NewManager(max, broadcast), all), e);
    OneMore(NewManager(max, broadcast), all, e);
    OneMorePatient(NewManager(max, broadcast), all, e);
    all := all + [e];
  }

  lemma CountCanGoWrong(max: nat, broadcast: Name, base: Name) returns (all: seq<Event>)
    requires 0 < max < WIDTH
    ensures Runs(NewManager(max, broadcast), all) && Patient(NewManager(max, broadcast), all)
    ensures !CountRight(AfterAll(NewManager(max, broadcast), all))
  {
    var run := Fetchers.RestartCanCompleteTwice();
    if ReportsOwed(Fetchers.NewFetch(1, 8), run) {
      OwedCompletesOnce(1, 8, run);
    }
    all := UnowedReportBreaksCount(max, broadcast, base, 1, 8, run);
  }

  /** An idle fetcher that has not completed has nothing that could make it report. */
  ghost predicate QuietUntilDone(f: Fetchers.Fetch) {
    f.active || f.completions > 0 || (f.fills == 0 && f.inFlight == {})
  }

  lemma QuietStays(f: Fetchers.Fetch, e: Fetchers.Event)
    requires Fetchers.FetchOk(f) && QuietUntilDone(f) && Fetchers.Enabled(f, e) && (e.GiveUp? ==> f.fills == 0)
    ensures QuietUntilDone(Fetchers.After(f, e))
  {
    match e {
      case RunFill => Fetchers.FillChangesOnlyTheWindow(f.(fills := f.fills - 1));
      case GiveUp(s) => Fetchers.GiveUpKeepsFetchOk(f, s);
      case _ =>
    }
  }

  /** In a patient run only a fetcher that has completed already can make a report that is not owed. */
  lemma {:induction false} ReportsOwedUntilDone(lo: int, hi: int, run: seq<Fetchers.Event>)
    requires lo <= hi
    requires Fetchers.Runs(Fetchers.NewFetch(lo, hi), run) && Fetchers.Patient(Fetchers.NewFetch(lo, hi), run)
    ensures QuietUntilDone(Fetchers.AfterAll(Fetchers.NewFetch(lo, hi), run))
    ensures run == [] || Fetchers.AfterAll(Fetchers.NewFetch(lo, hi), run[..|run| - 1]).completions == 0 ==>
      ReportsOwed(Fetchers.NewFetch(lo, hi), run)
  {
    if run != [] {
      var before, e := run[..|run| - 1], run[|run| - 1];
      var f := Fetchers.AfterAll(Fetchers.NewFetch(lo, hi), before);
      ReportsOwedUntilDone(lo, hi, before);
      Fetchers.RunKeepsFetchOk(lo, hi, before);
      QuietStays(f, e);
      CompletionsGrow(lo, hi, before);
      Fetchers.FillChangesOnlyTheWindow(f.(fills := if f.fills > 0 then f.fills - 1 else 0));
    }
  }

  /** In every patient run, whatever has been lost and given up, a restart asks for the first missing segments. */
  lemma EveryRestartGoesOn(lo: int, hi: int, run: seq<Fetchers.Event>)
    requires lo <= hi
    requires Fetchers.Runs(Fetchers.NewFetch(lo, hi), run) && Fetchers.Patient(Fetchers.NewFetch(lo, hi), run)
    ensures var f := Fetchers.AfterAll(Fetchers.NewFetch(lo, hi), run);
      Fetchers.Enabled(f, Fetchers.Restart) ==>
        Fetchers.AsksForFirstMissing(f, Fetchers.After(Fetchers.After(f, Fetchers.Restart), Fetchers.RunFill))
  {
    var f := Fetchers.AfterAll(Fetchers.NewFetch(lo, hi), run);
    ReportsOwedUntilDone(lo, hi, run);
    Fetchers.RunKeepsFetchOk(lo, hi, run);
    Fetchers.CompletedIsTimedWait(lo, hi, run);
    if Fetchers.Enabled(f, Fetchers.Restart) {
      Fetchers.RestartGoesOn(f);
    }
  }

  lemma CompletionsGrow(lo: int, hi: int, run: seq<Fetchers.Event>)
    ensures var f := Fetchers.NewFetch(lo, hi);
      run != [] ==> Fetchers.AfterAll(f, run[..|run| - 1]).completions <= Fetchers.AfterAll(f, run).completions
  {
    if run != [] {
      var f := Fetchers.AfterAll(Fetchers.NewFetch(lo, hi), run[..|run| - 1]);
      Fetchers.FillChangesOnlyTheWindow(f.(fills := if f.fills > 0 then f.fills - 1 else 0));
    }
  }

  lemma RemovalIsScheduled(m: Manager) returns (n: Manager)
    requires |m.list| == 1 && m.list[0].jobs > 0 && m.waiting == map[]
    ensures Enabled(m, CompletionJob(0, 0)) && n == After(m, CompletionJob(0, 0))
    ensures n.list == [m.list[0].(jobs := m.list[0].jobs - 1)] && n.waiting == map[m.list[0].base := m.list[0].id]
  {
    n := After(m, CompletionJob(0, 0));
  }

  lemma FillAsks(m: Manager)
    requires |m.list| == 1 && Fetchers.FetchOk(m.list[0].fetch)
    requires m.list[0].fetch.completions > 0 && m.list[0].fetch.fills > 0
    requires m.list[0].fetch.minSend < m.list[0].fetch.maxSeq
    ensures var e := Inside(0, Fetchers.RunFill, [], 0); var n := After(m, e);
      && Enabled(m, e) && |n.list| == 1 && n.waiting == m.waiting
      && n.list[0].id == m.list[0].id && n.list[0].base == m.list[0].base && n.list[0].fetch.inFlight != {}
  {
    LateFill(m.list[0].fetch);
  }

  /** The lone fetcher of a manager completes, its removal is scheduled, and a queued fill asks for something again. */
  lemma AsksAgainBeforeRemoval(m: Manager) returns (e: Event, f: Event)
    requires ManagerOk(m) && |m.list| == 1 && m.list[0].jobs > 0 && m.waiting == map[]
    requires m.list[0].fetch.completions > 0 && m.list[0].fetch.fills > 0
    requires m.list[0].fetch.minSend < m.list[0].fetch.maxSeq
    ensures Enabled(m, e) && Enabled(After(m, e), f) && IsPatient(m, e) && IsPatient(After(m, e), f)
    ensures var n := After(After(m, e), f);
      |n.list| == 1 && n.waiting == map[n.list[0].base := n.list[0].id] && n.list[0].fetch.inFlight != {}
  {
    e, f := CompletionJob(0, 0), Inside(0, Fetchers.RunFill, [], 0);
    assert ItemOk(m.list[0]);
    var n := RemovalIsScheduled(m);
    FillAsks(n);
  }

  /** A fetcher that was started twice can have an interest in flight when it is removed. */
  lemma RestartedCanBeRemovedInFlight(max: nat, broadcast: Name, base: Name) returns (all: seq<Event>)
    requires 0 < max < WIDTH
    ensures Runs(NewManager(max, broadcast), all) && Patient(NewManager(max, broadcast), all)
    ensures var m := AfterAll(NewManager(max, broadcast), all);
      |m.list| == 1 && m.waiting == map[m.list[0].base := m.list[0].id] && m.list[0].fetch.inFlight != {}
  {
    var start := NewManager(max, broadcast);
    var run, g := Fetchers.CompletesWithAFillQueued();
    ReportsOwedUntilDone(1, 8, run);
    all := ManagerFollows(max, broadcast, base, 1, 8, run);
    RunKeepsManagerOk(max, broadcast, all);
    var e, f := AsksAgainBeforeRemoval(AfterAll(start, all));
    OneMore(start, all, e);
    OneMorePatient(start, all, e);
    all := all + [e];
    OneMore(start, all, f);
    OneMorePatient(start, all, f);
    all := all + [f];
  }

  // ----- the scan, position by position -----

  /** The list when the scan has come to position `i`. */
  function ScannedTo(list: seq<Item>, i: nat, now: int): (r: seq<Item>)
    requires i <= |list|
    ensures |r| == |list|
  {
    seq(|list|, k requires 0 <= k < |list| => if k < i then Scanned(list[k], now) else list[k])
  }

  /** The next check when the scan has come to the end of `list`. */
  function EarliestIn(list: seq<Item>, now: int): int {
    if list == [] then now + LONGEST_PAUSE
    else
      var last := list[|list| - 1];
      var next := EarliestIn(list[..|list| - 1], now);
      if Delayed(last, now) then Least(next, last.retryAt) else next
  }

  lemma ScanStep(list: seq<Item>, i: nat, now: int)
    requires i < |list|
    ensures ScannedTo(list, i, now)[i] == list[i]
    ensures ScannedTo(list, i + 1, now) == ScannedTo(list, i, now)[i := Scanned(list[i], now)]
    ensures StartableIn(list[..i + 1], now) == StartableIn(list[..i], now) + if Startable(list[i], now) then 1 else 0
    ensures EarliestIn(list[..i + 1], now) ==
      if Delayed(list[i], now) then Least(EarliestIn(list[..i], now), list[i].retryAt) else EarliestIn(list[..i], now)
  {
    assert list[..i + 1][..i] == list[..i];
  }

  lemma {:induction false} EarliestIsEarliest(list: seq<Item>, now: int)
    ensures EarliestIn(list, now) <= now + LONGEST_PAUSE
    ensures forall k :: 0 <= k < |list| && Delayed(list[k], now) ==> EarliestIn(list, now) <= list[k].retryAt
    ensures EarliestIn(list, now) == now + LONGEST_PAUSE ||
      exists k :: 0 <= k < |list| && Delayed(list[k], now) && EarliestIn(list, now) == list[k].retryAt
  {
    if list != [] {
      var rest, last := list[..|list| - 1], list[|list| - 1];
      EarliestIsEarliest(rest, now);
      if EarliestIn(list, now) == EarliestIn(rest, now) && EarliestIn(rest, now) != now + LONGEST_PAUSE {
        var k :| 0 <= k < |rest| && Delayed(rest[k], now) && EarliestIn(rest, now) == rest[k].retryAt;
        assert list[k] == rest[k];
      }
    }
  }

  /** The scan came to the positions before `i` and stopped there, for lack of slots or of fetchers. */
  lemma ScanFinished(m: Manager, i: nat, now: int)
    requires i <= |m.list|
    requires forall k :: 0 <= k < |m.list| ==> (Reached(m, k, now) <==> k < i)
    ensures ScannedTo(m.list, i, now) == Scheduled(m, now, 0).list
    ensures IsNextCheck(m, now, EarliestIn(m.list[..i], now))
  {
    var list, next := m.list[..i], EarliestIn(m.list[..i], now);
    EarliestIsEarliest(list, now);
    forall k | 0 <= k < i && Delayed(m.list[k], now)
      ensures next <= m.list[k].retryAt
    {
      assert list[k] == m.list[k];
    }
    if next != now + LONGEST_PAUSE {
      var k :| 0 <= k < |list| && Delayed(list[k], now) && next == list[k].retryAt;
      assert Reached(m, k, now) && Delayed(m.list[k], now);
    }
  }

  // ----- the object -----

  class FetchManager {
    var fetchList: seq<Item>
    var currentParallelFetches: nat
    const maxParallelFetches: nat
    const broadcastHint: Name
    var timedWaits: map<Name, nat>  // the one-time tasks by tag
    var nextId: nat
    var nextCheck: int

    ghost function Value(): Manager
      reads this
    {
      Manager(fetchList, currentParallelFetches, maxParallelFetches, broadcastHint, timedWaits, nextId, nextCheck)
    }

    constructor (parallelFetches: nat, broadcast: Name)
      ensures Value() == NewManager(parallelFetches, broadcast)
    {
      fetchList, currentParallelFetches, maxParallelFetches, broadcastHint := [], 0, parallelFetches, broadcast;
      timedWaits, nextId, nextCheck := map[], 0, 0;
    }

    method Enqueue(baseName: Name, minSeqNo: int, maxSeqNo: int, high: bool, forwardingHint: Name, now: int)
      modifies this
      ensures Value() == Enqueued(old(Value()), baseName, minSeqNo, maxSeqNo, high, forwardingHint, now)
    {
      if minSeqNo > maxSeqNo {
        return;
      }
      var fetcher := Item(nextId, baseName, Fetchers.NewFetch(minSeqNo, maxSeqNo), 0, forwardingHint, 0, now);
      nextId := nextId + 1;
      if high {
        fetchList := [fetcher] + fetchList;
      } else {
        fetchList := fetchList + [fetcher];
      }
      nextCheck := now;
    }

    method ScheduleFetches(now: int)
      modifies this
      ensures IsNextCheck(old(Value()), now, nextCheck)
      ensures Value() == Scheduled(old(Value()), now, nextCheck)
    {
      ghost var m := Value();
      var next := now + LONGEST_PAUSE;
      var i := 0;
      assert ScannedTo(m.list, 0, now) == m.list;
      while currentParallelFetches < maxParallelFetches && i < |fetchList|
        invariant 0 <= i <= |m.list|
        invariant fetchList == ScannedTo(m.list, i, now)
        invariant next == EarliestIn(m.list[..i], now)
        invariant currentParallelFetches == m.count + StartableIn(m.list[..i], now)
        invariant i > 0 ==> m.count + StartableIn(m.list[..i - 1], now) < m.max
        invariant Value() == m.(list := fetchList, count := currentParallelFetches)
      {
        ScanStep(m.list, i, now);
        var item := fetchList[i];
        if item.fetch.active {
        } else if item.fetch.timedWait {
        } else if now < item.retryAt {
          if item.retryAt < next {
            next := item.retryAt;
          }
        } else {
          currentParallelFetches := currentParallelFetches + 1;
          fetchList := fetchList[i := item.(fetch := Fetchers.Restarted(item.fetch))];
        }
        i := i + 1;
      }
      ScanStopped(m, i, now);
      ScanFinished(m, i, now);
      nextCheck := next;
    }

    /** A fetcher's report of failure. */
    method DidNoDataTimeout(i: nat, mapped: Name, now: int)
      requires i < |fetchList|
      modifies this
      ensures Value() == FailureHandled(old(Value()), i, mapped, now)
    {
      currentParallelFetches := if currentParallelFetches == 0 then WIDTH - 1 else currentParallelFetches - 1;
      var fetcher := fetchList[i];
      if fetcher.hint == [] {
        if mapped == [] {
          fetcher := fetcher.(hint := broadcastHint);
        } else {
          fetcher := fetcher.(hint := mapped);
        }
      } else if fetcher.hint == broadcastHint {
        fetcher := fetcher.(hint := []);
      } else {
        fetcher := fetcher.(hint := broadcastHint);
      }
      var delay := fetcher.pause;
      if delay < 1 {
        delay := 1;
      } else {
        delay := Least(2 * delay, LONGEST_PAUSE);
      }
      fetchList := fetchList[i := fetcher.(pause := delay, retryAt := now + delay)];
      nextCheck := now;
    }

    /** A fetcher's report of completion. */
    method DidFetchComplete(i: nat, now: int)
      requires i < |fetchList|
      modifies this
      ensures Value() == CompletionHandled(old(Value()), i, now)
    {
      currentParallelFetches := if currentParallelFetches == 0 then WIDTH - 1 else currentParallelFetches - 1;
      var fetcher := fetchList[i];
      if fetcher.base !in timedWaits {
        timedWaits := timedWaits[fetcher.base := fetcher.id];
      }
      nextCheck := now;
    }

    method TimedWait(id: nat)
      modifies this`fetchList
      ensures fetchList == Without(old(fetchList), id)
    {
      var kept := [];
      for i := 0 to |fetchList|
        invariant kept == Without(fetchList[..i], id)
      {
        assert fetchList[..i + 1][..i] == fetchList[..i];
        if fetchList[i].id != id {
          kept := kept + [fetchList[i]];
        }
      }
      assert fetchList[..|fetchList|] == fetchList;
      fetchList := kept;
    }
  }

  /** Where the scan stopped for lack of slots or of fetchers, nothing further on is reached. */
  lemma ScanStopped(m: Manager, i: nat, now: int)
    requires i <= |m.list| && (i == |m.list| || m.count + StartableIn(m.list[..i], now) >= m.max)
    requires i > 0 ==> m.count + StartableIn(m.list[..i - 1], now) < m.max
    ensures forall k :: 0 <= k < |m.list| ==> (Reached(m, k, now) <==> k < i)
    ensures StartableIn(m.list[..i], now) ==
      if m.count < m.max then Least(m.max - m.count, StartableIn(m.list, now)) else 0
  {
    StartableInGrows(m.list, i, now);
    assert i == |m.list| ==> m.list[..i] == m.list;
    if i > 0 {
      ScanStep(m.list, i - 1, now);
    }
    forall k | 0 <= k < |m.list|
      ensures Reached(m, k, now) <==> k < i
    {
      if k < i {
        StartableInGrows(m.list[..i - 1], k, now);
        assert m.list[..i - 1][..k] == m.list[..k];
      } else {
        StartableInGrows(m.list[..k], i, now);
        assert m.list[..k][..i] == m.list[..i];
      }
    }
  }
}
