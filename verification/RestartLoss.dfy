/** A run of two devices in which a restart loses an action for good. */
module RestartLosses {
  import opened Names
  import opened StateVectors
  import opened SyncCores
  import opened Dispatchers
  import opened FetchTasks
  import opened ActionLogs
  import opened Replicas
  import opened ReplicaSafety
  import opened Convergence
  import opened Exchanges
  import opened ActionFetches

  /** A difference in one device is one record. */
  lemma OneRecord(msg: Message, old_: State, d: Name, n: nat, withOld: bool)
    requires IsDiff(msg, old_, old_[d := n], withOld) && SeqNo(old_, d) < n
    ensures msg == [EntryFor(old_, old_[d := n], d, withOld)]
  {
    assert Changed(old_, old_[d := n], d);
    var i :| 0 <= i < |msg| && msg[i].name == d;
    forall j | 0 <= j < |msg|
      ensures msg[j].name == d && j == i
    {
      assert Changed(old_, old_[d := n], msg[j].name);
    }
    assert msg[0].name == d && msg[|msg| - 1].name == d;
  }

  lemma OneEvent(m: System, n: Name, e: Event) returns (t: System)
    requires Occurs(m) && Enabled(m, n, e)
    ensures Occurs(t) && SystemOk(t) && t == After(m, n, e)
  {
    t := After(m, n, e);
    OccursNext(m, n, e);
    OccursOk(t);
  }

  /** Only device `n` has changed. */
  ghost predicate OnlyChanged(m: System, t: System, n: Name) {
    n in m.nodes && n in t.nodes && t.nodes == m.nodes[n := t.nodes[n]] && m.net <= t.net
  }

  lemma OnlyChangedTwice(m: System, u: System, t: System, n: Name)
    requires OnlyChanged(m, u, n) && OnlyChanged(u, t, n)
    ensures OnlyChanged(m, t, n)
  {
  }

  /** The device has advertised all it knows, which is `nodes`. */
  ghost predicate Advertised(v: Node, nodes: State) {
    v.core.log.nodes == nodes && v.core.root.preimage == nodes
  }

  /** `a` logs its first action on a file. */
  lemma Logs(m: System, a: Name, x: Action) returns (t: System)
    requires Occurs(m) && a in m.nodes && IsLocalAction(m.nodes[a], x, None)
    ensures Occurs(t) && OnlyChanged(m, t, a)
    ensures t.nodes[a].store == Insert(m.nodes[a].store, x) && t.nodes[a].fetches == m.nodes[a].fetches
    ensures var c := m.nodes[a].core; t.nodes[a].core == WithNodes(c, c.log.nodes[c.local := x.seqno])
  {
    t := OneEvent(m, a, LocalAction(x, None));
  }

  /** `a` publishes the one number that it has not advertised. */
  lemma Publishes(m: System, a: Name, d: Name, n: nat) returns (t: System)
    requires Occurs(m) && a in m.nodes
    requires m.nodes[a].core.log.nodes == Root(m, a)[d := n] && SeqNo(Root(m, a), d) < n
    ensures Occurs(t) && OnlyChanged(m, t, a)
    ensures t.nodes[a].store == m.nodes[a].store && t.nodes[a].core == Advertise(m.nodes[a].core)
    ensures InNet(t.net, [Update(d, n, None)])
  {
    var content := SomeDiff(Root(m, a), m.nodes[a].core.log.nodes, false);
    OneRecord(content, Root(m, a), d, n, false);
    t := OneEvent(m, a, Publish(content));
    assert SyncData(m.nodes[a].core.root, content) in t.net;
  }

  lemma LogsAndPublishes(m: System, a: Name, x: Action, nodes: State) returns (t: System)
    requires Occurs(m) && a in m.nodes && Advertised(m.nodes[a], nodes) && m.nodes[a].core.local == a
    requires IsLocalAction(m.nodes[a], x, None) && SeqNo(nodes, a) < x.seqno
    ensures Occurs(t) && OnlyChanged(m, t, a)
    ensures Advertised(t.nodes[a], nodes[a := x.seqno]) && t.nodes[a].core.local == a
    ensures t.nodes[a].store == Insert(m.nodes[a].store, x)
    ensures InNet(t.net, [Update(a, x.seqno, None)])
  {
    var u := Logs(m, a, x);
    t := Publishes(u, a, a, x.seqno);
    OnlyChangedTwice(m, u, t, a);
  }

  /** What the news of one action of `a` is to a device that knows all the earlier ones. */
  lemma OneReportedDiff(nodes: State, a: Name, n: nat) returns (diff: Message)
    requires SeqNo(nodes, a) + 1 == n
    ensures Merge(nodes, [Update(a, n, None)]) == nodes[a := n]
    ensures IsDiff(diff, nodes, nodes[a := n], true) && RangesOf(diff) == [Range(a, n, n)]
  {
    var content := [Update(a, n, None)];
    assert content[..0] == [];
    assert Merge(nodes, content) == MergeEntry(Merge(nodes, content[..0]), content[0]);
    diff := SomeDiff(nodes, nodes[a := n], true);
    OneRecord(diff, nodes, a, n, true);
    assert diff == [Update(a, n, Some(n - 1))] && diff[..0] == [];
    assert RangesOf(diff[..0]) == [];
  }

  /** `b` receives the news of one action of `a`. */
  lemma Hears(m: System, a: Name, b: Name, n: nat, nodes: State) returns (t: System)
    requires Occurs(m) && b in m.nodes && Advertised(m.nodes[b], nodes)
    requires InNet(m.net, [Update(a, n, None)]) && SeqNo(nodes, a) + 1 == n
    ensures Occurs(t) && OnlyChanged(m, t, b)
    ensures Advertised(t.nodes[b], nodes[a := n]) && t.nodes[b].core.local == m.nodes[b].core.local
    ensures t.nodes[b].store == m.nodes[b].store
    ensures t.nodes[b].fetches == Queued(m.nodes[b].fetches, [Range(a, n, n)])
  {
    var diff := OneReportedDiff(nodes, a, n);
    t := OneEvent(m, b, OnData([Update(a, n, None)], diff));
  }

  /** `b` hands the range on top of its queue to the fetch manager. */
  lemma Enqueues(m: System, b: Name) returns (t: System)
    requires Occurs(m) && b in m.nodes && m.nodes[b].fetches.queue != []
    ensures Occurs(t) && OnlyChanged(m, t, b)
    ensures t.nodes[b] == m.nodes[b].(fetches := Handed(m.nodes[b].fetches))
  {
    t := OneEvent(m, b, Dispatch);
  }

  lemma HearsAndEnqueues(m: System, a: Name, b: Name, n: nat, nodes: State) returns (t: System)
    requires Occurs(m) && b in m.nodes && Advertised(m.nodes[b], nodes) && m.nodes[b].fetches.queue == []
    requires InNet(m.net, [Update(a, n, None)]) && SeqNo(nodes, a) + 1 == n
    ensures Occurs(t) && OnlyChanged(m, t, b)
    ensures Advertised(t.nodes[b], nodes[a := n]) && t.nodes[b].core.local == m.nodes[b].core.local
    ensures t.nodes[b].store == m.nodes[b].store
    ensures var f, r := m.nodes[b].fetches, Range(a, n, n);
      t.nodes[b].fetches == Fetches([], f.live + {r}, Added(f.rows, r))
  {
    var u := Hears(m, a, b, n, nodes);
    t := Enqueues(u, b);
    OnlyChangedTwice(m, u, t, b);
  }

  /** `b` fetches an action that a live range holds. */
  lemma FetchesOne(m: System, a: Name, b: Name, x: Action, r: Range) returns (t: System)
    requires Occurs(m) && a in m.nodes && b in m.nodes
    requires KeyOf(x) in m.nodes[a].store.actions && m.nodes[a].store.actions[KeyOf(x)] == x
    requires r in m.nodes[b].fetches.live && Holds(r, x.device, x.seqno)
    ensures Occurs(t) && OnlyChanged(m, t, b)
    ensures t.nodes[b] == m.nodes[b].(store := Insert(m.nodes[b].store, x))
  {
    t := OneEvent(m, b, Fetched(x));
  }

  lemma Completes(m: System, b: Name, r: Range) returns (t: System)
    requires Occurs(m) && b in m.nodes && r in m.nodes[b].fetches.live && HasRange(m.nodes[b].store, r)
    ensures Occurs(t) && OnlyChanged(m, t, b)
    ensures t.nodes[b] == m.nodes[b].(fetches := Ended(m.nodes[b].fetches, r))
  {
    OccursOk(m);
    EachNodeOk(m, b);
    t := OneEvent(m, b, FetchDone(r));
  }

  lemma StartsAgain(m: System, b: Name) returns (t: System)
    requires Occurs(m) && b in m.nodes
    ensures Occurs(t) && OnlyChanged(m, t, b)
    ensures t.nodes[b].store == m.nodes[b].store && t.nodes[b].fetches == Resumed(m.nodes[b].fetches)
    ensures t.nodes[b].core.local == m.nodes[b].core.local && Root(t, b) == m.nodes[b].core.log.nodes
  {
    t := OneEvent(m, b, Restart);
  }

  lemma FreshPair(a: Name, b: Name) returns (s: System)
    requires a != b
    ensures Occurs(s) && s.nodes == map[a := FreshNode(a), b := FreshNode(b)]
  {
    s := System(map[a := FreshNode(a), b := FreshNode(b)], {}, map[a := [], b := []]);
    assert Init(s) && Reaches(s, [], s);
  }

  /** `a` logs an action and publishes it, and `b` hears of it. */
  lemma OneReport(m: System, a: Name, b: Name, x: Action, na: State, nb: State) returns (t: System)
    requires Occurs(m) && a != b && a in m.nodes && b in m.nodes
    requires Advertised(m.nodes[a], na) && m.nodes[a].core.local == a
    requires Advertised(m.nodes[b], nb) && m.nodes[b].core.local == b && m.nodes[b].fetches.queue == []
    requires IsLocalAction(m.nodes[a], x, None) && SeqNo(na, a) < x.seqno == SeqNo(nb, a) + 1
    ensures Occurs(t) && a in t.nodes && b in t.nodes
    ensures Advertised(t.nodes[a], na[a := x.seqno]) && t.nodes[a].core.local == a
    ensures Advertised(t.nodes[b], nb[a := x.seqno]) && t.nodes[b].core.local == b
    ensures t.nodes[a].store == Insert(m.nodes[a].store, x) && t.nodes[b].store == m.nodes[b].store
    ensures var f, r := m.nodes[b].fetches, Range(a, x.seqno, x.seqno);
      t.nodes[b].fetches == Fetches([], f.live + {r}, Added(f.rows, r))
  {
    var u := LogsAndPublishes(m, a, x, na);
    t := HearsAndEnqueues(u, a, b, x.seqno, nb);
  }

  lemma FirstAction(v: Node, a: Name, x: Action)
    requires v == FreshNode(a) && x.what.Upd? && x == Action(a, 1, "f", 0, x.what, None)
    ensures IsLocalAction(v, x, None) && Insert(v.store, x).actions == map[(a, 1) := x]
  {
  }

  lemma SecondAction(v: Node, a: Name, x: Action, y: Action)
    requires v.core.local == a && SeqNo(v.core.log.nodes, a) == 1 && v.store.actions == map[(a, 1) := x]
    requires x.filename == "f" && y.what.Upd? && y == Action(a, 2, "g", 0, y.what, None)
    ensures IsLocalAction(v, y, None)
    ensures (a, 1) in Insert(v.store, y).actions && Insert(v.store, y).actions[(a, 1)] == x
  {
    assert "f" != "g";
  }

  /** `a` logs two actions one after the other, and `b` hears of each. */
  lemma TwoReports(a: Name, b: Name, x: Action, y: Action) returns (t: System)
    requires a != b && x.what.Upd? && y.what.Upd?
    requires x == Action(a, 1, "f", 0, x.what, None) && y == Action(a, 2, "g", 0, y.what, None)
    ensures Occurs(t) && a in t.nodes && b in t.nodes
    ensures (a, 1) in t.nodes[a].store.actions && t.nodes[a].store.actions[(a, 1)] == x
    ensures t.nodes[b].core.local == b && SeqNo(t.nodes[b].core.log.nodes, a) == 2
    ensures t.nodes[b].store == EMPTY_STORE
    ensures t.nodes[b].fetches == Fetches([], {Range(a, 1, 1), Range(a, 2, 2)}, map[a := Range(a, 1, 1)])
  {
    var s := FreshPair(a, b);
    FirstAction(s.nodes[a], a, x);
    var m := OneReport(s, a, b, x, map[a := 0], map[b := 0]);
    SecondAction(m.nodes[a], a, x, y);
    t := OneReport(m, a, b, y, map[a := 0][a := 1], map[b := 0][a := 1]);
  }

  /** The first of two pending ranges is fetched and reported complete. */
  lemma FirstCompletes(m: System, a: Name, b: Name, x: Action) returns (t: System)
    requires Occurs(m) && a in m.nodes && b in m.nodes && KeyOf(x) == (a, 1)
    requires (a, 1) in m.nodes[a].store.actions && m.nodes[a].store.actions[(a, 1)] == x
    requires m.nodes[b].fetches == Fetches([], {Range(a, 1, 1), Range(a, 2, 2)}, map[a := Range(a, 1, 1)])
    ensures Occurs(t) && b in t.nodes && t.nodes[b].core == m.nodes[b].core
    ensures t.nodes[b].store == Insert(m.nodes[b].store, x)
    ensures t.nodes[b].fetches.rows == m.nodes[b].fetches.rows
  {
    var r := Range(a, 1, 1);
    assert Holds(r, a, 1);
    var u := FetchesOne(m, a, b, x, r);
    t := Completes(u, b, r);
  }

  /**
   * `b` has two ranges of `a` pending and the task table holds the first. The first completes and `b` starts again: the
   * second action can never arrive, although the root of `b` counts it.
   */
  lemma RestartCanLoseAnAction(a: Name, b: Name, meta: FileMeta) returns (t: System)
    requires a != b
    ensures Occurs(t) && b in t.nodes && Gone(t.nodes[b], (a, 2))
  {
    var x, y := Action(a, 1, "f", 0, Upd(meta), None), Action(a, 2, "g", 0, Upd(meta), None);
    var m := TwoReports(a, b, x, y);
    var u := FirstCompletes(m, a, b, x);
    t := StartsAgain(u, b);
  }
}
