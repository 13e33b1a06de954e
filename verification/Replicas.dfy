/**
 * All devices of a shared folder together, over a network that loses, duplicates, delays and reorders.
 *
 * A packet once sent stays available for ever and may reach any device any number of times or never. `Restart` is a
 * restart of the device's process, which keeps its databases and loses its queue and its fetchers; `Abandon` is a
 * fetch that never gets on. `ledger` records, for the statements only, the actions each device has logged for itself.
 */
module Replicas {
  import opened Names
  import opened StateVectors
  import opened SyncLogs
  import opened SyncCores
  import opened Dispatchers
  import opened FetchTasks
  import opened ActionLogs

  /** `ranges` are the action ranges reported so far, `fetches` what has become of them. */
  datatype Node = Node(core: Core, store: Store, ranges: seq<Range>, fetches: Fetches)

  type Ledger = map<Name, seq<Action>>

  datatype System = System(nodes: map<Name, Node>, net: set<Packet>, ledger: Ledger)

  datatype Event =
    | LocalAction(a: Action, pick: Option<Key>)
    | Publish(content: Message)
    | Restart
    | SendInterest
    | OnSyncInterest(hash: Hash, content: Message)
    | RecoverTimer
    | OnRecoverInterest(hash: Hash, content: Message)
    | OnData(content: Message, diff: Message)
    | Dispatch
    | Fetched(a: Action)
    | FetchDone(r: Range)
    | Abandon(r: Range)

  // ----- steps -----

  function FreshNode(n: Name): Node {
    var nodes := map[n := 0];
    Node(Core(n, LogState(nodes, [Row(1, Hash(nodes), nodes)], 1), Hash(nodes), None), EMPTY_STORE, [], NO_FETCHES)
  }

  ghost predicate Init(s: System) {
    && s.nodes.Keys == s.ledger.Keys
    && (forall n :: n in s.nodes ==> s.nodes[n] == FreshNode(n) && s.ledger[n] == [])
    && s.net == {}
  }

  /** `a` is what a local file change or deletion logs, under the device's next number. */
  ghost predicate IsLocalAction(v: Node, a: Action, pick: Option<Key>) {
    var actions, n, next := v.store.actions, v.core.local, SeqNo(v.core.log.nodes, v.core.local) + 1;
    && IsLatest(actions, a.filename, pick)
    && match a.what
       case Upd(meta) => a == LocalUpdate(actions, n, next, a.filename, meta, pick)
       case Del => HasUpdate(actions, pick) && a == LocalDelete(actions, n, next, a.filename, pick)
  }

  /** The part of an event's guard that concerns the node itself; replies carry the right difference. */
  ghost predicate NodeEnabled(v: Node, e: Event) {
    var c := v.core;
    match e
    case LocalAction(a, pick) => IsLocalAction(v, a, pick)
    case Publish(content) => IsDiff(content, c.root.preimage, c.log.nodes, false)
    case Restart => true
    case SendInterest => true
    case OnSyncInterest(h, content) => IsDiff(content, h.preimage, c.root.preimage, false)
    case RecoverTimer => c.pending.Some?
    case OnRecoverInterest(h, content) => Known(c.log.rows, h) && IsDiff(content, map[], c.root.preimage, false)
    case OnData(content, diff) => IsDiff(diff, c.root.preimage, Merge(c.log.nodes, content), true)
    case Dispatch => v.fetches.queue != []
    case Fetched(a) => exists r :: r in v.fetches.live && Holds(r, a.device, a.seqno)
    case FetchDone(r) => r in v.ranges && HasRange(v.store, r)
    case Abandon(r) => r in v.fetches.live
  }

  /** All actions of the range are in the log. */
  ghost predicate HasRange(st: Store, r: Range) {
    forall k :: r.lo <= k <= r.hi ==> (r.device, k) in st.actions
  }

  ghost predicate InNet(net: set<Packet>, content: Message) {
    exists h :: SyncData(h, content) in net || RecoverData(h, content) in net
  }

  /** What the rest of the system must offer: a packet that was sent, or an action that some device holds. */
  ghost predicate Offered(s: System, e: Event) {
    match e
    case OnSyncInterest(h, _) => SyncInterest(h) in s.net
    case OnRecoverInterest(h, _) => RecoverInterest(h) in s.net
    case OnData(content, _) => InNet(s.net, content)
    case Fetched(a) => exists m ::
      m in s.nodes && KeyOf(a) in s.nodes[m].store.actions && a == s.nodes[m].store.actions[KeyOf(a)]
    case _ => true
  }

  ghost predicate Enabled(s: System, n: Name, e: Event) {
    n in s.nodes && NodeEnabled(s.nodes[n], e) && Offered(s, e)
  }

  ghost function CoreAfter(c: Core, e: Event): Core {
    match e
    case LocalAction(a, _) => WithNodes(c, c.log.nodes[c.local := a.seqno])
    case Publish(_) => Advertise(c)
    case Restart => Advertise(c).(pending := None)
    case OnSyncInterest(h, _) =>
      if h != c.root && !Known(c.log.rows, h) && c.pending.None? then c.(pending := Some(h)) else c
    case RecoverTimer => c.(pending := None)
    case OnData(content, _) => Absorb(c, content)
    case _ => c
  }

  function StoreAfter(st: Store, e: Event): Store {
    match e
    case LocalAction(a, _) => Insert(st, a)
    case Fetched(a) => Insert(st, a)
    case _ => st
  }

  function RangesAfter(q: seq<Range>, e: Event): seq<Range> {
    match e
    case OnData(_, diff) => q + RangesOf(diff)
    case _ => q
  }

  function FetchesAfter(f: Fetches, e: Event): Fetches {
    match e
    case OnData(_, diff) => Queued(f, RangesOf(diff))
    case Dispatch => Handed(f)
    case FetchDone(r) => Ended(f, r)
    case Abandon(r) => Ended(f, r)
    case Restart => Resumed(f)
    case _ => f
  }

  ghost function NodeAfter(v: Node, e: Event): Node {
    Node(CoreAfter(v.core, e), StoreAfter(v.store, e), RangesAfter(v.ranges, e), FetchesAfter(v.fetches, e))
  }

  ghost function Sent(c: Core, e: Event): set<Packet> {
    match e
    case Publish(content) => {SyncData(c.root, content)}
    case SendInterest => {SyncInterest(c.root)}
    case OnSyncInterest(h, content) => if h != c.root && Known(c.log.rows, h) then {SyncData(h, content)} else {}
    case RecoverTimer => if c.pending.None? || Known(c.log.rows, c.pending.value) then {}
      else {RecoverInterest(c.pending.value)}
    case OnRecoverInterest(h, content) => {RecoverData(h, content)}
    case _ => {}
  }

  function LedgerAfter(ledger: Ledger, n: Name, e: Event): Ledger {
    if e.LocalAction? && n in ledger then ledger[n := ledger[n] + [e.a]] else ledger
  }

  ghost function After(s: System, n: Name, e: Event): System
    requires n in s.nodes
  {
    System(s.nodes[n := NodeAfter(s.nodes[n], e)], s.net + Sent(s.nodes[n].core, e), LedgerAfter(s.ledger, n, e))
  }

  /** The state after a run. */
  ghost function Ran(s: System, run: seq<(Name, Event)>): System {
    if run == [] then s
    else
      var m, (n, e) := Ran(s, run[..|run| - 1]), run[|run| - 1];
      if n in m.nodes then After(m, n, e) else m
  }

  /** Each event of the run is enabled where and when it happens. */
  ghost predicate Runs(s: System, run: seq<(Name, Event)>) {
    run == [] ||
    (var m, (n, e) := Ran(s, run[..|run| - 1]), run[|run| - 1];
     Runs(s, run[..|run| - 1]) && Enabled(m, n, e))
  }

  /** `t` is reached from `s` by a run of events, each at some node. */
  ghost predicate Reaches(s: System, run: seq<(Name, Event)>, t: System) {
    Runs(s, run) && t == Ran(s, run)
  }

  /** The state `t` can occur. */
  ghost predicate Occurs(t: System) {
    exists s, run :: Init(s) && Reaches(s, run, t)
  }

  lemma OneMore(s: System, run: seq<(Name, Event)>, n: Name, e: Event)
    requires n in Ran(s, run).nodes
    ensures Ran(s, run + [(n, e)]) == After(Ran(s, run), n, e)
    ensures Runs(s, run + [(n, e)]) <==> Runs(s, run) && Enabled(Ran(s, run), n, e)
  {
    var longer := run + [(n, e)];
    assert longer[|longer| - 1] == (n, e) && longer[..|longer| - 1] == run;
  }

  /** A run goes through the states after its prefixes. */
  lemma {:induction false} RunsPrefix(s: System, run: seq<(Name, Event)>, j: nat)
    requires Runs(s, run) && j <= |run|
    ensures Runs(s, run[..j])
  {
    if j == |run| {
      assert run[..j] == run;
    } else {
      RunsPrefix(s, run[..|run| - 1], j);
      assert run[..|run| - 1][..j] == run[..j];
    }
  }

  lemma LastEvent(s: System, before: seq<(Name, Event)>, n: Name, e: Event)
    requires Runs(s, before + [(n, e)])
    ensures Runs(s, before) && Enabled(Ran(s, before), n, e)
    ensures Ran(s, before + [(n, e)]) == After(Ran(s, before), n, e)
  {
    var run := before + [(n, e)];
    assert run[..|run| - 1] == before && run[|run| - 1] == (n, e);
  }

  lemma PrefixGrows(run: seq<(Name, Event)>, j: nat)
    requires j < |run|
    ensures run[..j + 1] == run[..j] + [(run[j].0, run[j].1)]
  {
  }

  lemma RunsStep(s: System, run: seq<(Name, Event)>, j: nat)
    requires Runs(s, run) && j < |run|
    ensures Enabled(Ran(s, run[..j]), run[j].0, run[j].1)
    ensures Ran(s, run[..j + 1]) == After(Ran(s, run[..j]), run[j].0, run[j].1)
  {
    RunsPrefix(s, run, j + 1);
    PrefixGrows(run, j);
    LastEvent(s, run[..j], run[j].0, run[j].1);
  }

  lemma JoinedStep(s: System, p: seq<(Name, Event)>, m: System, q: seq<(Name, Event)>, n: Name, e: Event)
    requires Runs(s, p + q) && Ran(s, p + q) == Ran(m, q) && Runs(m, q + [(n, e)])
    ensures Runs(s, p + (q + [(n, e)])) && Ran(s, p + (q + [(n, e)])) == Ran(m, q + [(n, e)])
  {
    LastEvent(m, q, n, e);
    OneMore(s, p + q, n, e);
    assert p + q + [(n, e)] == p + (q + [(n, e)]);
  }

  lemma {:induction false} RunsJoin(s: System, p: seq<(Name, Event)>, q: seq<(Name, Event)>)
    requires Runs(s, p) && Runs(Ran(s, p), q)
    ensures Runs(s, p + q) && Ran(s, p + q) == Ran(Ran(s, p), q)
  {
    if q == [] {
      assert p + q == p;
    } else {
      var m, q' := Ran(s, p), q[..|q| - 1];
      var (n, e) := q[|q| - 1];
      assert q == q' + [(n, e)];
      RunsJoin(s, p, q');
      JoinedStep(s, p, m, q', n, e);
    }
  }

  lemma OccursLater(m: System, run: seq<(Name, Event)>, t: System)
    requires Occurs(m) && Reaches(m, run, t)
    ensures Occurs(t)
  {
    var s, before :| Init(s) && Reaches(s, before, m);
    RunsJoin(s, before, run);
    assert Reaches(s, before + run, t);
  }

  lemma OccursNext(m: System, n: Name, e: Event)
    requires Occurs(m) && Enabled(m, n, e)
    ensures Occurs(After(m, n, e))
  {
    OneMore(m, [], n, e);
    OccursLater(m, [] + [(n, e)], After(m, n, e));
  }

  // ----- the invariant -----

  /** Action number `k.1` of device `k.0` exists. */
  ghost predicate InLedger(ledger: Ledger, k: Key) {
    k.0 in ledger && 1 <= k.1 <= |ledger[k.0]|
  }

  ghost function ActionOf(ledger: Ledger, k: Key): Action
    requires InLedger(ledger, k)
  {
    ledger[k.0][k.1 - 1]
  }

  /** The action is the first of its file, or follows a deletion of the file. */
  ghost predicate IsBeginning(ledger: Ledger, a: Action) {
    a.what.Upd? && (a.version == 0 || exists k :: InLedger(ledger, k) && IsDeletionBefore(ActionOf(ledger, k), a))
  }

  predicate IsDeletionBefore(b: Action, a: Action) {
    b.what.Del? && b.filename == a.filename && b.version + 1 == a.version
  }

  /**
   * An action without a parent link begins the history of its file. A link promises an update of the same file, exactly
   * one version earlier.
   */
  ghost predicate ParentOk(ledger: Ledger, a: Action) {
    && (a.parent.None? ==> IsBeginning(ledger, a))
    && (a.parent.Some? ==>
      && InLedger(ledger, a.parent.value)
      && ActionOf(ledger, a.parent.value).filename == a.filename
      && ActionOf(ledger, a.parent.value).what.Upd?
      && ActionOf(ledger, a.parent.value).version + 1 == a.version)
  }

  ghost predicate LedgerKeyed(ledger: Ledger) {
    forall k :: InLedger(ledger, k) ==> KeyOf(ActionOf(ledger, k)) == k
  }

  ghost predicate LedgerParents(ledger: Ledger) {
    forall k :: InLedger(ledger, k) ==> ParentOk(ledger, ActionOf(ledger, k))
  }

  /** A device gives later changes of a file higher versions. */
  ghost predicate LedgerVersions(ledger: Ledger) {
    forall d, i: nat, j: nat :: d in ledger && i < j < |ledger[d]| && ledger[d][i].filename == ledger[d][j].filename ==>
      ledger[d][i].version < ledger[d][j].version
  }

  ghost predicate LedgerOk(ledger: Ledger) {
    LedgerKeyed(ledger) && LedgerParents(ledger) && LedgerVersions(ledger)
  }

  ghost predicate Bounded(m: State, ledger: Ledger) {
    forall d :: d in m ==> d in ledger && m[d] <= |ledger[d]|
  }

  /** The sync state knows its own counter exactly and no other counter beyond its value. */
  ghost predicate CoreFits(c: Core, n: Name, ledger: Ledger) {
    && CoreOk(c) && c.local == n
    && n in ledger && SeqNo(c.log.nodes, n) == |ledger[n]|
    && Bounded(c.log.nodes, ledger)
  }

  /** The log holds only ledger actions, and all of the device's own. */
  ghost predicate ActionsFit(actions: Actions, n: Name, ledger: Ledger) {
    && (forall k :: k in actions ==> InLedger(ledger, k) && actions[k] == ActionOf(ledger, k))
    && (forall k :: InLedger(ledger, k) && k.0 == n ==> k in actions)
  }

  ghost predicate StoreFits(st: Store, n: Name, ledger: Ledger) {
    StoreOk(st) && ActionsFit(st.actions, n, ledger)
  }

  /** Every requested action exists, so its device can serve it. */
  ghost predicate RangesServable(q: seq<Range>, ledger: Ledger) {
    forall i :: 0 <= i < |q| ==> q[i].device in ledger && 1 <= q[i].lo <= q[i].hi <= |ledger[q[i].device]|
  }

  /** The requested ranges of every other device tile what the advertised root knows of it. */
  ghost predicate RangesTile(q: seq<Range>, n: Name, root: State) {
    forall d :: d != n ==> Tiles(q, d, 0) && EndOf(q, d, 0) == SeqNo(root, d)
  }

  /** Whatever is queued, fetched or kept in the table was reported. */
  ghost predicate FetchesFit(f: Fetches, q: seq<Range>) {
    && (forall r :: r in f.queue || r in f.live ==> r in q)
    && (forall d :: d in f.rows ==> f.rows[d] in q && f.rows[d].device == d)
  }

  ghost predicate NodeOk(v: Node, n: Name, ledger: Ledger) {
    && CoreFits(v.core, n, ledger)
    && StoreFits(v.store, n, ledger)
    && RangesServable(v.ranges, ledger)
    && RangesTile(v.ranges, n, v.core.root.preimage)
    && FetchesFit(v.fetches, v.ranges)
  }

  ghost predicate ContentBounded(content: Message, ledger: Ledger) {
    forall i :: 0 <= i < |content| && content[i].Update? ==>
      content[i].name in ledger && content[i].seqno <= |ledger[content[i].name]|
  }

  ghost predicate NetOk(net: set<Packet>, ledger: Ledger) {
    forall p :: p in net && (p.SyncData? || p.RecoverData?) ==> ContentBounded(p.content, ledger)
  }

  /** What can be wrong with a system. */
  datatype Fault = WrongMembers | WrongLedger | WrongPacket | WrongNode(name: Name)

  ghost predicate IsFault(s: System, f: Fault) {
    match f
    case WrongMembers => s.nodes.Keys != s.ledger.Keys
    case WrongLedger => !LedgerOk(s.ledger)
    case WrongPacket => !NetOk(s.net, s.ledger)
    case WrongNode(n) => n in s.nodes && !NodeOk(s.nodes[n], n, s.ledger)
  }

  ghost predicate SystemOk(s: System) {
    forall f :: !IsFault(s, f)
  }

  /** What a system in order guarantees. */
  lemma SystemFacts(s: System)
    requires SystemOk(s)
    ensures s.nodes.Keys == s.ledger.Keys && LedgerOk(s.ledger) && NetOk(s.net, s.ledger)
  {
    assert !IsFault(s, WrongMembers) && !IsFault(s, WrongLedger) && !IsFault(s, WrongPacket);
  }

  lemma EachNodeOk(s: System, n: Name)
    requires SystemOk(s) && n in s.nodes
    ensures NodeOk(s.nodes[n], n, s.ledger)
    ensures s.nodes.Keys == s.ledger.Keys && LedgerOk(s.ledger) && NetOk(s.net, s.ledger)
  {
    assert !IsFault(s, WrongNode(n));
    SystemFacts(s);
  }

  // ----- the objects behind a node -----

  /** The constructors, run on empty databases, give a fresh node. */
  method FirstStart(n: Name, rest: Name) returns (core: SyncCore, actionLog: ActionLog, tasks: FetchTaskDb)
    ensures core.Valid() && core.Value() == FreshNode(n).core
    ensures actionLog.Valid() && actionLog.Value() == FreshNode(n).store
    ensures tasks.rows == FreshNode(n).fetches.rows
  {
    var nodes := map[n := 0];
    var syncLog := new SyncLog(LogState(map[], [], 0), n);
    assert syncLog.Value() == LogState(nodes, [], 0);
    core := new SyncCore(syncLog);
    assert Remembered(LogState(nodes, [], 0)).rows == [Row(1, Hash(nodes), nodes)];
    actionLog := new ActionLog(syncLog);
    tasks := new FetchTaskDb(map[], rest);
  }

  /** Run again on the databases that were left behind, they give the node after a restart. */
  method StartAgain(c: Core, rows: map<Name, Range>, rest: Name) returns (core: SyncCore, tasks: seq<Range>)
    requires CoreOk(c)
    ensures core.Valid() && core.Value() == CoreAfter(c, Restart)
    ensures (set r | r in tasks) == FetchesAfter(Fetches([], {}, rows), Restart).live
  {
    var syncLog := new SyncLog(c.log, c.local);
    assert syncLog.nodes == c.log.nodes;
    core := new SyncCore(syncLog);
    var table := new FetchTaskDb(rows, rest);
    tasks := table.ForeachTask();
  }

  // ----- growth of the ledger -----

  ghost predicate Extends(big: Ledger, small: Ledger) {
    && small.Keys == big.Keys
    && forall d :: d in small ==>
      |small[d]| <= |big[d]| && forall i :: 0 <= i < |small[d]| ==> small[d][i] == big[d][i]
  }

  lemma ActionsSurviveGrowth(actions: Actions, n: Name, small: Ledger, big: Ledger)
    requires ActionsFit(actions, n, small) && Extends(big, small) && n in small && big[n] == small[n]
    ensures ActionsFit(actions, n, big)
  {
  }

  /** A node stays in order while the ledgers of other devices grow. */
  lemma NodeSurvivesGrowth(v: Node, n: Name, small: Ledger, big: Ledger)
    requires NodeOk(v, n, small) && Extends(big, small) && big[n] == small[n]
    ensures NodeOk(v, n, big)
  {
    ActionsSurviveGrowth(v.store.actions, n, small, big);
  }

  lemma NetSurvivesGrowth(net: set<Packet>, small: Ledger, big: Ledger)
    requires NetOk(net, small) && Extends(big, small)
    ensures NetOk(net, big)
  {
  }

  /** What a node knows about the action it is about to log. */
  ghost predicate Next(a: Action, n: Name, ledger: Ledger) {
    && n in ledger && KeyOf(a) == (n, |ledger[n]| + 1)
    && ParentOk(ledger, a)
    && forall i: nat :: i < |ledger[n]| && ledger[n][i].filename == a.filename ==> ledger[n][i].version < a.version
  }

  lemma LocalActionIsLinked(v: Node, n: Name, ledger: Ledger, a: Action, pick: Option<Key>)
    requires ActionsFit(v.store.actions, n, ledger) && IsLocalAction(v, a, pick)
    ensures ParentOk(ledger, a)
  {
    if a.parent.None? && pick.Some? {
      assert InLedger(ledger, pick.value) && IsDeletionBefore(ActionOf(ledger, pick.value), a);
    }
  }

  lemma LocalActionIsNext(v: Node, n: Name, ledger: Ledger, a: Action, pick: Option<Key>)
    requires v.core.local == n && n in ledger && SeqNo(v.core.log.nodes, n) == |ledger[n]|
    requires ActionsFit(v.store.actions, n, ledger) && IsLocalAction(v, a, pick)
    ensures Next(a, n, ledger) && a.version == NextVersion(v.store.actions, pick)
      && IsLatest(v.store.actions, a.filename, pick)
    ensures KeyOf(a) !in v.store.actions
  {
    LocalActionIsLinked(v, n, ledger, a, pick);
    forall i: nat | i < |ledger[n]| && ledger[n][i].filename == a.filename
      ensures ledger[n][i].version < a.version
    {
      var k := (n, i + 1);
      assert InLedger(ledger, k) && ActionOf(ledger, k) == ledger[n][i];
      assert v.store.actions[k].version <= v.store.actions[pick.value].version;
    }
  }

  lemma AppendIsExtension(ledger: Ledger, n: Name, a: Action)
    requires Next(a, n, ledger)
    ensures var big := ledger[n := ledger[n] + [a]];
      && Extends(big, ledger)
      && (forall k :: InLedger(big, k) <==> InLedger(ledger, k) || k == KeyOf(a))
      && (forall k :: InLedger(ledger, k) ==> ActionOf(big, k) == ActionOf(ledger, k))
      && ActionOf(big, KeyOf(a)) == a
  {
  }

  lemma ParentsStayOk(ledger: Ledger, big: Ledger, a: Action)
    requires ParentOk(ledger, a)
    requires forall k :: InLedger(ledger, k) ==> InLedger(big, k) && ActionOf(big, k) == ActionOf(ledger, k)
    ensures ParentOk(big, a)
  {
    if a.parent.None? && a.version > 0 {
      var k :| InLedger(ledger, k) && IsDeletionBefore(ActionOf(ledger, k), a);
      assert IsDeletionBefore(ActionOf(big, k), a);
    }
  }

  lemma LedgerGrows(ledger: Ledger, n: Name, a: Action)
    requires LedgerOk(ledger) && Next(a, n, ledger)
    ensures LedgerOk(ledger[n := ledger[n] + [a]])
  {
    var big := ledger[n := ledger[n] + [a]];
    AppendIsExtension(ledger, n, a);
    forall k | InLedger(big, k)
      ensures ParentOk(big, ActionOf(big, k)) && KeyOf(ActionOf(big, k)) == k
    {
      ParentsStayOk(ledger, big, ActionOf(big, k));
    }
  }

  lemma ActionsGrow(actions: Actions, n: Name, ledger: Ledger, a: Action)
    requires ActionsFit(actions, n, ledger) && Next(a, n, ledger)
    ensures ActionsFit(actions[KeyOf(a) := a], n, ledger[n := ledger[n] + [a]])
  {
    AppendIsExtension(ledger, n, a);
  }

  lemma StampNamesKey(ledger: Ledger, k: Key, k': Key)
    requires LedgerOk(ledger) && InLedger(ledger, k) && InLedger(ledger, k')
    requires SameStamp(ActionOf(ledger, k), ActionOf(ledger, k'))
    ensures k == k'
  {
    assert KeyOf(ActionOf(ledger, k)) == k && KeyOf(ActionOf(ledger, k')) == k';
    assert k.0 == k'.0;
  }

  lemma StampsAreUnique(actions: Actions, ledger: Ledger)
    requires LedgerOk(ledger)
    requires forall k :: k in actions ==> InLedger(ledger, k) && actions[k] == ActionOf(ledger, k)
    ensures UniqueStamps(actions)
  {
    forall k, k' | k in actions && k' in actions && SameStamp(actions[k], actions[k'])
      ensures k == k'
    {
      StampNamesKey(ledger, k, k');
    }
  }

  // ----- events -----

  lemma LocalStepFits(v: Node, n: Name, ledger: Ledger, e: Event)
    requires e.LocalAction? && IsLocalAction(v, e.a, e.pick)
    requires CoreFits(v.core, n, ledger) && StoreFits(v.store, n, ledger) && LedgerOk(ledger)
    ensures LedgerOk(LedgerAfter(ledger, n, e)) && Extends(LedgerAfter(ledger, n, e), ledger)
    ensures CoreFits(CoreAfter(v.core, e), n, LedgerAfter(ledger, n, e))
    ensures StoreFits(StoreAfter(v.store, e), n, LedgerAfter(ledger, n, e))
    ensures Shows(StoreAfter(v.store, e).files, e.a)
  {
    LocalActionIsNext(v, n, ledger, e.a, e.pick);
    AppendIsExtension(ledger, n, e.a);
    LedgerGrows(ledger, n, e.a);
    ActionsGrow(v.store.actions, n, ledger, e.a);
    LocalActionWins(v.store, e.a, e.pick);
    BumpFits(v.core, n, ledger, e.a);
  }

  lemma BumpFits(c: Core, n: Name, ledger: Ledger, a: Action)
    requires CoreFits(c, n, ledger) && a.seqno == |ledger[n]| + 1
    ensures CoreFits(WithNodes(c, c.log.nodes[c.local := a.seqno]), n, ledger[n := ledger[n] + [a]])
  {
    ChainSurvivesGrowth(c.log, c.log.nodes[n := a.seqno]);
  }

  lemma FetchStepFits(st: Store, n: Name, ledger: Ledger, a: Action)
    requires StoreFits(st, n, ledger) && LedgerOk(ledger)
    requires InLedger(ledger, KeyOf(a)) && a == ActionOf(ledger, KeyOf(a))
    ensures StoreFits(Insert(st, a), n, ledger)
  {
    StampsAreUnique(Insert(st, a).actions, ledger);
    InsertKeepsView(st, a);
  }

  lemma AdvertiseFits(c: Core, n: Name, ledger: Ledger)
    requires CoreFits(c, n, ledger)
    ensures CoreFits(Advertise(c), n, ledger)
    ensures forall d :: d != n ==> SeqNo(Advertise(c).root.preimage, d) == SeqNo(c.root.preimage, d)
  {
    AdvertiseKeepsCoreOk(c);
  }

  lemma AbsorbFits(c: Core, n: Name, ledger: Ledger, content: Message)
    requires CoreFits(c, n, ledger) && ContentBounded(content, ledger)
    ensures CoreFits(Absorb(c, content), n, ledger)
    ensures Leq(c.root.preimage, Absorb(c, content).root.preimage)
    ensures Bounded(Absorb(c, content).root.preimage, ledger)
  {
    AbsorbKeepsCoreOk(c, content);
    var counters: State := map d | d in ledger :: |ledger[d]|;
    MergeBounded(c.log.nodes, content, counters);
  }

  lemma ReportFits(q: seq<Range>, n: Name, ledger: Ledger, diff: Message, old_: State, new_: State)
    requires RangesServable(q, ledger) && RangesTile(q, n, old_)
    requires IsDiff(diff, old_, new_, true) && Leq(old_, new_) && Bounded(new_, ledger)
    ensures RangesServable(q + RangesOf(diff), ledger) && RangesTile(q + RangesOf(diff), n, new_)
  {
    forall d | d != n
      ensures Tiles(q + RangesOf(diff), d, 0) && EndOf(q + RangesOf(diff), d, 0) == SeqNo(new_, d)
    {
      ReportExtendsTiling(q, diff, old_, new_, d, 0);
    }
    forall k: nat | k < |RangesOf(diff)|
      ensures var r := RangesOf(diff)[k]; r.device in ledger && 1 <= r.lo <= r.hi <= |ledger[r.device]|
    {
      RangesAreReported(diff, k);
    }
  }

  lemma FetchesStepFits(v: Node, e: Event)
    requires FetchesFit(v.fetches, v.ranges) && NodeEnabled(v, e)
    ensures FetchesFit(FetchesAfter(v.fetches, e), RangesAfter(v.ranges, e))
  {
    var f := v.fetches;
    if e.Restart? {
      forall r | r in Resumed(f).live
        ensures r in v.ranges
      {
        var d :| d in f.rows && f.rows[d] == r;
      }
    }
  }

  lemma DataStepOk(v: Node, n: Name, ledger: Ledger, content: Message, diff: Message)
    requires NodeOk(v, n, ledger) && ContentBounded(content, ledger)
    requires IsDiff(diff, v.core.root.preimage, Merge(v.core.log.nodes, content), true)
    ensures NodeOk(NodeAfter(v, OnData(content, diff)), n, ledger)
  {
    AbsorbFits(v.core, n, ledger, content);
    FetchesStepFits(v, OnData(content, diff));
    ReportFits(v.ranges, n, ledger, diff, v.core.root.preimage, Merge(v.core.log.nodes, content));
  }

  /** Events that neither log an action nor deliver data. */
  lemma QuietStepFits(c: Core, n: Name, ledger: Ledger, e: Event)
    requires CoreFits(c, n, ledger)
    requires !e.LocalAction? && !e.OnData?
    ensures CoreFits(CoreAfter(c, e), n, ledger)
    ensures forall d :: d != n ==> SeqNo(CoreAfter(c, e).root.preimage, d) == SeqNo(c.root.preimage, d)
  {
    AdvertiseFits(c, n, ledger);
  }

  lemma DiffIsBounded(content: Message, old_: State, new_: State, ledger: Ledger)
    requires IsDiff(content, old_, new_, false) && Bounded(new_, ledger)
    ensures ContentBounded(content, ledger)
  {
  }

  lemma SentIsBounded(v: Node, n: Name, ledger: Ledger, e: Event)
    requires CoreFits(v.core, n, ledger) && NodeEnabled(v, e)
    ensures NetOk(Sent(v.core, e), ledger)
  {
    var c := v.core;
    RootFacts(c);
    match e {
      case Publish(content) => DiffIsBounded(content, c.root.preimage, c.log.nodes, ledger);
      case OnSyncInterest(h, content) => DiffIsBounded(content, h.preimage, c.root.preimage, ledger);
      case OnRecoverInterest(h, content) => DiffIsBounded(content, map[], c.root.preimage, ledger);
      case _ =>
    }
  }

  lemma OfferedActionIsInLedger(s: System, a: Action)
    requires SystemOk(s) && Offered(s, Fetched(a))
    ensures InLedger(s.ledger, KeyOf(a)) && a == ActionOf(s.ledger, KeyOf(a))
  {
    var m :| m in s.nodes && KeyOf(a) in s.nodes[m].store.actions && a == s.nodes[m].store.actions[KeyOf(a)];
    EachNodeOk(s, m);
  }

  lemma LocalStepOk(v: Node, n: Name, ledger: Ledger, e: Event)
    requires NodeOk(v, n, ledger) && LedgerOk(ledger)
    requires e.LocalAction? && IsLocalAction(v, e.a, e.pick)
    ensures NodeOk(NodeAfter(v, e), n, LedgerAfter(ledger, n, e))
  {
    LocalStepFits(v, n, ledger, e);
  }

  lemma FetchStepOk(v: Node, n: Name, ledger: Ledger, a: Action)
    requires NodeOk(v, n, ledger) && LedgerOk(ledger)
    requires InLedger(ledger, KeyOf(a)) && a == ActionOf(ledger, KeyOf(a))
    ensures NodeOk(NodeAfter(v, Fetched(a)), n, ledger)
  {
    FetchStepFits(v.store, n, ledger, a);
  }

  lemma QuietStepOk(v: Node, n: Name, ledger: Ledger, e: Event)
    requires NodeOk(v, n, ledger) && NodeEnabled(v, e)
    requires !e.LocalAction? && !e.OnData? && !e.Fetched?
    ensures NodeOk(NodeAfter(v, e), n, ledger)
  {
    FetchesStepFits(v, e);
    QuietStepFits(v.core, n, ledger, e);
  }

  lemma OfferedContentIsBounded(net: set<Packet>, ledger: Ledger, content: Message)
    requires NetOk(net, ledger) && InNet(net, content)
    ensures ContentBounded(content, ledger)
  {
  }

  lemma NodeStepOk(s: System, n: Name, e: Event)
    requires SystemOk(s) && Enabled(s, n, e)
    ensures NodeOk(NodeAfter(s.nodes[n], e), n, LedgerAfter(s.ledger, n, e))
  {
    var v := s.nodes[n];
    EachNodeOk(s, n);
    if e.LocalAction? {
      LocalStepOk(v, n, s.ledger, e);
    } else if e.OnData? {
      OfferedContentIsBounded(s.net, s.ledger, e.content);
      DataStepOk(v, n, s.ledger, e.content, e.diff);
    } else if e.Fetched? {
      OfferedActionIsInLedger(s, e.a);
      FetchStepOk(v, n, s.ledger, e.a);
    } else {
      QuietStepOk(v, n, s.ledger, e);
    }
  }

  lemma LedgerStepOk(s: System, n: Name, e: Event)
    requires SystemOk(s) && Enabled(s, n, e)
    ensures LedgerOk(LedgerAfter(s.ledger, n, e)) && Extends(LedgerAfter(s.ledger, n, e), s.ledger)
  {
    SystemFacts(s);
    if e.LocalAction? {
      EachNodeOk(s, n);
      LocalStepFits(s.nodes[n], n, s.ledger, e);
    }
  }

  lemma NetStepOk(s: System, n: Name, e: Event)
    requires SystemOk(s) && Enabled(s, n, e)
    ensures NetOk(After(s, n, e).net, After(s, n, e).ledger)
  {
    EachNodeOk(s, n);
    SentIsBounded(s.nodes[n], n, s.ledger, e);
    LedgerStepOk(s, n, e);
    NetSurvivesGrowth(s.net + Sent(s.nodes[n].core, e), s.ledger, After(s, n, e).ledger);
  }

  /** One node changes; the others only see the ledger grow. */
  lemma OneNodeChanges(s: System, t: System, n: Name, m: Name)
    requires SystemOk(s) && n in s.nodes && m in t.nodes
    requires n in t.nodes && t.nodes == s.nodes[n := t.nodes[n]] && NodeOk(t.nodes[n], n, t.ledger)
    requires Extends(t.ledger, s.ledger) && forall m :: m in s.ledger && m != n ==> t.ledger[m] == s.ledger[m]
    ensures NodeOk(t.nodes[m], m, t.ledger)
  {
    if m != n {
      EachNodeOk(s, m);
      NodeSurvivesGrowth(s.nodes[m], m, s.ledger, t.ledger);
    }
  }

  lemma EveryNodeStepOk(s: System, n: Name, e: Event, m: Name)
    requires SystemOk(s) && Enabled(s, n, e) && m in After(s, n, e).nodes
    ensures NodeOk(After(s, n, e).nodes[m], m, After(s, n, e).ledger)
  {
    LedgerStepOk(s, n, e);
    NodeStepOk(s, n, e);
    OneNodeChanges(s, After(s, n, e), n, m);
  }

  lemma StepHasNoFault(s: System, n: Name, e: Event, f: Fault)
    requires SystemOk(s) && Enabled(s, n, e)
    ensures !IsFault(After(s, n, e), f)
  {
    match f {
      case WrongMembers => SystemFacts(s);
      case WrongLedger => LedgerStepOk(s, n, e);
      case WrongPacket => NetStepOk(s, n, e);
      case WrongNode(m) =>
        if m in After(s, n, e).nodes {
          EveryNodeStepOk(s, n, e, m);
        }
    }
  }

  /** Every event keeps the invariant. */
  lemma StepKeepsSystemOk(s: System, n: Name, e: Event)
    requires SystemOk(s) && Enabled(s, n, e)
    ensures SystemOk(After(s, n, e))
  {
    forall f
      ensures !IsFault(After(s, n, e), f)
    {
      StepHasNoFault(s, n, e, f);
    }
  }

  lemma FreshNodeOk(n: Name, ledger: Ledger)
    requires n in ledger && forall d :: d in ledger ==> ledger[d] == []
    ensures NodeOk(FreshNode(n), n, ledger)
  {
    var v := FreshNode(n);
    assert CoreFits(v.core, n, ledger);
    assert StoreFits(v.store, n, ledger);
    assert RangesTile(v.ranges, n, v.core.root.preimage);
  }

  lemma InitOk(s: System)
    requires Init(s)
    ensures SystemOk(s)
  {
    forall f
      ensures !IsFault(s, f)
    {
      if f.WrongNode? && f.name in s.nodes {
        FreshNodeOk(f.name, s.ledger);
      }
    }
  }

  lemma {:induction false} RunKeepsSystemOk(s: System, run: seq<(Name, Event)>, t: System)
    requires SystemOk(s) && Reaches(s, run, t)
    ensures SystemOk(t)
    decreases |run|
  {
    if run != [] {
      var before := run[..|run| - 1];
      RunKeepsSystemOk(s, before, Ran(s, before));
      StepKeepsSystemOk(Ran(s, before), run[|run| - 1].0, run[|run| - 1].1);
    }
  }
}
