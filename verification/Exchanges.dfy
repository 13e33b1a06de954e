/** Exchanges between two devices, and runs that make all advertised roots agree. */
module Exchanges {
  import opened Names
  import opened StateVectors
  import opened SyncLogs
  import opened SyncCores
  import opened Replicas
  import opened Convergence

  // ----- building runs -----

  lemma {:induction false} MakeDiff(old_: State, new_: State, withOld: bool, todo: set<Name>) returns (msg: Message)
    requires todo <= old_.Keys + new_.Keys
    ensures PartialDiff(msg, old_, new_, withOld, todo)
    decreases todo
  {
    msg := [];
    if todo != {} {
      var d :| d in todo;
      msg := MakeDiff(old_, new_, withOld, todo - {d});
      ExtendPartialDiff(msg, old_, new_, withOld, todo - {d}, d);
      assert todo - {d} + {d} == todo;
      msg := if Changed(old_, new_, d) then msg + [EntryFor(old_, new_, d, withOld)] else msg;
    }
  }

  lemma SomeDiff(old_: State, new_: State, withOld: bool) returns (msg: Message)
    ensures IsDiff(msg, old_, new_, withOld)
  {
    msg := MakeDiff(old_, new_, withOld, old_.Keys + new_.Keys);
    WholeDiff(msg, old_, new_, withOld, old_.Keys + new_.Keys);
  }

  /** A calm run, which lowers no root. */
  ghost predicate CalmRun(s: System, run: seq<(Name, Event)>, t: System) {
    Reaches(s, run, t) && Calm(run) && t.ledger == s.ledger && RootsLeq(s, t)
  }

  lemma CalmRunsJoin(s: System, p: seq<(Name, Event)>, m: System, q: seq<(Name, Event)>, t: System)
    requires CalmRun(s, p, m) && CalmRun(m, q, t)
    ensures CalmRun(s, p + q, t)
  {
    RunsJoin(s, p, q);
    RootsLeqTransitive(s, m, t);
  }

  /** Higher roots miss less, strictly so when one of them really changed. */
  lemma HigherRootsMissLess(s: System, t: System, y: Name)
    requires SystemOk(t) && t.ledger == s.ledger && RootsLeq(s, t) && y in s.nodes
    ensures Missing(t) <= Missing(s)
    ensures Root(t, y) != Root(s, y) ==> Missing(t) < Missing(s)
  {
    forall m | m in s.nodes
      ensures MissingAt(t, m) <= MissingAt(s, m)
      ensures Root(t, m) != Root(s, m) ==> MissingAt(t, m) < MissingAt(s, m)
    {
      RootIsBounded(t, m);
      HigherRootMissesLess(Root(s, m), Root(t, m), Counters(s.ledger));
    }
    MissingIsMonotone(s, t);
  }

  // ----- the events of an exchange -----

  /** One more calm event at the end of a run. */
  lemma Happen(s: System, run: seq<(Name, Event)>, m: System, n: Name, e: Event) returns (t: System)
    requires CalmRun(s, run, m) && SystemOk(m) && Enabled(m, n, e) && IsCalm(e)
    ensures CalmRun(s, run + [(n, e)], t) && t == After(m, n, e) && RootsLeq(m, t)
  {
    t := After(m, n, e);
    OneMore(s, run, n, e);
    QuietEventRaises(m, n, e);
    QuietStepRaisesRoots(m, n, e);
    RootsLeqTransitive(s, m, t);
  }

  /** Advertising and answering leave the node as it is. */
  lemma AnsweringChangesNothing(m: System, n: Name, e: Event)
    requires n in m.nodes
    requires e.SendInterest? || e.OnRecoverInterest? || (e.OnSyncInterest? && Known(m.nodes[n].core.log.rows, e.hash))
    ensures After(m, n, e).nodes == m.nodes
  {
    assert NodeAfter(m.nodes[n], e) == m.nodes[n];
  }

  /** `x` advertises its root. */
  lemma Advertises(s: System, run: seq<(Name, Event)>, m: System, x: Name) returns (t: System)
    requires CalmRun(s, run, m) && SystemOk(m) && x in m.nodes
    ensures CalmRun(s, run + [(x, SendInterest)], t) && SystemOk(t)
    ensures t.nodes == m.nodes && m.net <= t.net && SyncInterest(m.nodes[x].core.root) in t.net
  {
    t := Happen(s, run, m, x, SendInterest);
    StepKeepsSystemOk(m, x, SendInterest);
    AnsweringChangesNothing(m, x, SendInterest);
  }

  function WithPending(m: System, y: Name, p: Option<Hash>): map<Name, Node>
    requires y in m.nodes
  {
    m.nodes[y := m.nodes[y].(core := m.nodes[y].core.(pending := p))]
  }

  /** `y` runs the recovery task that is scheduled. */
  lemma RunsRecovery(s: System, run: seq<(Name, Event)>, m: System, y: Name) returns (t: System)
    requires CalmRun(s, run, m) && SystemOk(m) && y in m.nodes && m.nodes[y].core.pending.Some?
    ensures CalmRun(s, run + [(y, RecoverTimer)], t) && SystemOk(t)
    ensures t.nodes == WithPending(m, y, None) && m.net <= t.net
    ensures var c := m.nodes[y].core; !Known(c.log.rows, c.pending.value) ==> RecoverInterest(c.pending.value) in t.net
  {
    t := Happen(s, run, m, y, RecoverTimer);
    StepKeepsSystemOk(m, y, RecoverTimer);
    assert t.nodes == WithPending(m, y, None);
  }

  /** `y` hears an interest for a hash it does not know, while no recovery is scheduled. */
  lemma SchedulesRecovery(s: System, run: seq<(Name, Event)>, m: System, y: Name, h: Hash)
    returns (t: System, content: Message)
    requires CalmRun(s, run, m) && SystemOk(m) && y in m.nodes && SyncInterest(h) in m.net
    requires m.nodes[y].core.pending.None? && h != m.nodes[y].core.root && !Known(m.nodes[y].core.log.rows, h)
    ensures CalmRun(s, run + [(y, OnSyncInterest(h, content))], t) && SystemOk(t)
    ensures t.nodes == WithPending(m, y, Some(h)) && m.net <= t.net
  {
    content := SomeDiff(h.preimage, Root(m, y), false);
    t := Happen(s, run, m, y, OnSyncInterest(h, content));
    StepKeepsSystemOk(m, y, OnSyncInterest(h, content));
    assert t.nodes == WithPending(m, y, Some(h));
  }

  /** `x` answers a recovery interest with everything it knows. */
  lemma AnswersInFull(s: System, run: seq<(Name, Event)>, m: System, x: Name, h: Hash)
    returns (t: System, content: Message)
    requires CalmRun(s, run, m) && SystemOk(m) && x in m.nodes
    requires RecoverInterest(h) in m.net && Known(m.nodes[x].core.log.rows, h)
    ensures CalmRun(s, run + [(x, OnRecoverInterest(h, content))], t) && SystemOk(t) && t.nodes == m.nodes
    ensures InNet(t.net, content)
  {
    content := SomeDiff(map[], Root(m, x), false);
    var e := OnRecoverInterest(h, content);
    t := Happen(s, run, m, x, e);
    StepKeepsSystemOk(m, x, e);
    assert RecoverData(h, content) in t.net;
    AnsweringChangesNothing(m, x, e);
  }

  /** `x` answers an interest for a hash it knows with the difference to its root. */
  lemma AnswersWithDelta(s: System, run: seq<(Name, Event)>, m: System, x: Name, h: Hash)
    returns (t: System, content: Message)
    requires CalmRun(s, run, m) && SystemOk(m) && x in m.nodes
    requires SyncInterest(h) in m.net && h != m.nodes[x].core.root && Known(m.nodes[x].core.log.rows, h)
    ensures CalmRun(s, run + [(x, OnSyncInterest(h, content))], t) && SystemOk(t) && t.nodes == m.nodes
    ensures InNet(t.net, content)
  {
    content := SomeDiff(h.preimage, Root(m, x), false);
    var e := OnSyncInterest(h, content);
    t := Happen(s, run, m, x, e);
    StepKeepsSystemOk(m, x, e);
    assert SyncData(h, content) in t.net;
    AnsweringChangesNothing(m, x, e);
  }

  /** `y` receives a state message. */
  lemma Receives(s: System, run: seq<(Name, Event)>, m: System, y: Name, content: Message)
    returns (t: System, diff: Message)
    requires CalmRun(s, run, m) && SystemOk(m) && y in m.nodes && InNet(m.net, content)
    ensures CalmRun(s, run + [(y, OnData(content, diff))], t) && SystemOk(t)
  {
    diff := SomeDiff(Root(m, y), Merge(m.nodes[y].core.log.nodes, content), true);
    t := Happen(s, run, m, y, OnData(content, diff));
    StepKeepsSystemOk(m, y, OnData(content, diff));
  }

  lemma SameRoots(m: System, nodes: map<Name, Node>, y: Name, p: Option<Hash>)
    requires y in m.nodes && nodes == WithPending(m, y, p)
    ensures nodes.Keys == m.nodes.Keys
    ensures forall n :: n in m.nodes ==>
      nodes[n].core.root == m.nodes[n].core.root && nodes[n].core.log == m.nodes[n].core.log
  {
  }

  // ----- exchanges -----

  /** `x` advertises `h`, `y` answers with the difference to its own root, and `x` receives it. */
  predicate IsDelta(evs: seq<(Name, Event)>, x: Name, y: Name, h: Hash) {
    && |evs| == 3
    && evs[0] == (x, SendInterest)
    && evs[1].0 == y && evs[1].1.OnSyncInterest? && evs[1].1.hash == h
    && evs[2].0 == x && evs[2].1.OnData? && evs[2].1.content == evs[1].1.content
  }

  /**
   * `x` advertises `h`, `y` hears it and asks for recovery, `x` answers with all it knows and `y` receives it. A
   * recovery that was scheduled before runs first.
   */
  predicate IsRecovery(evs: seq<(Name, Event)>, x: Name, y: Name, h: Hash) {
    var n := |evs|;
    && (n == 5 || (n == 6 && evs[1] == (y, RecoverTimer)))
    && evs[0] == (x, SendInterest)
    && evs[n - 4].0 == y && evs[n - 4].1.OnSyncInterest? && evs[n - 4].1.hash == h
    && evs[n - 3] == (y, RecoverTimer)
    && evs[n - 2].0 == x && evs[n - 2].1.OnRecoverInterest? && evs[n - 2].1.hash == h
    && evs[n - 1].0 == y && evs[n - 1].1.OnData? && evs[n - 1].1.content == evs[n - 2].1.content
  }

  /** The full exchange that starts with an interest of `x` and is heard by `y`, nothing else happening meanwhile. */
  ghost predicate IsExchange(m: System, evs: seq<(Name, Event)>, x: Name, y: Name) {
    && x in m.nodes && y in m.nodes
    && var h := m.nodes[x].core.root;
       if Known(m.nodes[y].core.log.rows, h) then IsDelta(evs, x, y, h) else IsRecovery(evs, x, y, h)
  }

  lemma AdvertisementComesFirst(m: System, evs: seq<(Name, Event)>, x: Name, j: nat)
    requires x in m.nodes && 0 < j <= |evs| && evs[0] == (x, SendInterest)
    ensures AdvertisedBefore(m, evs, j, x, m.nodes[x].core.root)
  {
    assert evs[..0] == [];
  }

  lemma DeltaTells(m: System, evs: seq<(Name, Event)>, x: Name, y: Name)
    requires x in m.nodes && y in m.nodes && IsDelta(evs, x, y, m.nodes[x].core.root)
    ensures Quiet(evs) && Told(m, evs, 1, y, x)
  {
    AdvertisementComesFirst(m, evs, x, 1);
    assert ReceivedAfter(evs, 1, x, evs[1].1.content);
  }

  lemma RecoveryTells(m: System, evs: seq<(Name, Event)>, x: Name, y: Name, h: Hash)
    requires x in m.nodes && y in m.nodes && IsRecovery(evs, x, y, h)
    ensures Quiet(evs) && |evs| >= 2 && Told(m, evs, |evs| - 2, x, y)
  {
    var j := |evs| - 2;
    assert evs[j + 1].1.content == evs[j].1.content;
    assert ReceivedAfter(evs, j, y, evs[j].1.content);
  }

  /** What somebody knew at the start of a run and was told later in it. */
  lemma TellerIsReached(m: System, evs: seq<(Name, Event)>, t: System, j: nat, y: Name, x: Name)
    requires SystemOk(m) && Reaches(m, evs, t) && Quiet(evs) && Told(m, evs, j, y, x)
    ensures SystemOk(t) && t.ledger == m.ledger && RootsLeq(m, t)
    ensures y in m.nodes && x in t.nodes && Leq(Root(m, y), Root(t, x))
  {
    QuietToTheEnd(m, evs, t, 0);
    ToldIsKnown(m, evs, t, j, y, x);
    QuietRunRaisesRoots(m, evs, 0, j);
  }

  /** If the hearer knows the other's root, the sender of the interest rises to at least the hearer's root. */
  lemma DeltaExchange(m: System, evs: seq<(Name, Event)>, t: System, x: Name, y: Name)
    requires SystemOk(m) && Reaches(m, evs, t) && x in m.nodes && y in m.nodes
    requires IsDelta(evs, x, y, m.nodes[x].core.root)
    ensures SystemOk(t) && t.ledger == m.ledger && RootsLeq(m, t)
    ensures Leq(Root(m, y), Root(t, x))
  {
    DeltaTells(m, evs, x, y);
    TellerIsReached(m, evs, t, 1, y, x);
  }

  /** If the hearer does not know the other's root, recovery raises the hearer to at least the other's root. */
  lemma RecoverExchange(m: System, evs: seq<(Name, Event)>, t: System, x: Name, y: Name)
    requires SystemOk(m) && Reaches(m, evs, t) && x in m.nodes && y in m.nodes
    requires IsRecovery(evs, x, y, m.nodes[x].core.root)
    ensures SystemOk(t) && t.ledger == m.ledger && RootsLeq(m, t)
    ensures Leq(Root(m, x), Root(t, y))
  {
    RecoveryTells(m, evs, x, y, m.nodes[x].core.root);
    TellerIsReached(m, evs, t, |evs| - 2, x, y);
  }

  lemma ExchangeRaises(m: System, evs: seq<(Name, Event)>, t: System, x: Name, y: Name)
    requires SystemOk(m) && Reaches(m, evs, t) && IsExchange(m, evs, x, y)
    ensures SystemOk(t) && t.ledger == m.ledger && RootsLeq(m, t)
    ensures if Known(m.nodes[y].core.log.rows, m.nodes[x].core.root)
      then Leq(Root(m, y), Root(t, x)) else Leq(Root(m, x), Root(t, y))
  {
    if Known(m.nodes[y].core.log.rows, m.nodes[x].core.root) {
      DeltaExchange(m, evs, t, x, y);
    } else {
      RecoverExchange(m, evs, t, x, y);
    }
  }

  /** One of the two devices has another root than before, and less is missing. */
  ghost predicate Raised(m: System, t: System, x: Name, y: Name) {
    && {x, y} <= m.nodes.Keys && {x, y} <= t.nodes.Keys
    && (Root(t, x) != Root(m, x) || Root(t, y) != Root(m, y))
    && Missing(t) < Missing(m)
  }

  lemma KnownRootIsBelow(m: System, x: Name, y: Name)
    requires SystemOk(m) && x in m.nodes && y in m.nodes && Known(m.nodes[y].core.log.rows, m.nodes[x].core.root)
    ensures Leq(Root(m, x), Root(m, y))
  {
    EachNodeOk(m, y);
    RootFacts(m.nodes[y].core);
  }

  lemma ChangedRootMissesLess(m: System, t: System, x: Name, y: Name)
    requires SystemOk(t) && t.ledger == m.ledger && RootsLeq(m, t) && x in m.nodes && y in m.nodes
    ensures Raised(m, t, x, y) || (Root(t, x) == Root(m, x) && Root(t, y) == Root(m, y))
  {
    HigherRootsMissLess(m, t, if Root(t, x) != Root(m, x) then x else y);
  }

  /** `x` is strictly behind `y`. */
  ghost predicate Behind(m: System, x: Name, y: Name) {
    x in m.nodes && y in m.nodes && Leq(Root(m, x), Root(m, y)) && !Leq(Root(m, y), Root(m, x))
  }

  /** An exchange that raises nobody was started by the device that is strictly behind. */
  lemma FruitlessExchange(m: System, evs: seq<(Name, Event)>, t: System, x: Name, y: Name)
    requires SystemOk(m) && Reaches(m, evs, t) && IsExchange(m, evs, x, y) && Root(m, x) != Root(m, y)
    ensures Raised(m, t, x, y) || Behind(m, x, y)
  {
    ExchangeRaises(m, evs, t, x, y);
    ChangedRootMissesLess(m, t, x, y);
    if !Raised(m, t, x, y) {
      if Known(m.nodes[y].core.log.rows, m.nodes[x].core.root) {
        KnownRootIsBelow(m, x, y);
      }
      if Leq(Root(m, y), Root(m, x)) {
        LeqAntisymmetric(Root(m, x), Root(m, y));
      }
    }
  }

  /**
   * Of the two exchanges between devices with different roots, whichever way each of them goes, at least one strictly
   * raises a root and lowers the measure.
   */
  lemma OneOfTwoExchangesRaises(m: System, x: Name, y: Name,
                                p: seq<(Name, Event)>, s: System, q: seq<(Name, Event)>, t: System)
    requires SystemOk(m) && x in m.nodes && y in m.nodes && Root(m, x) != Root(m, y)
    requires Reaches(m, p, s) && IsExchange(m, p, x, y)
    requires Reaches(m, q, t) && IsExchange(m, q, y, x)
    ensures Raised(m, s, x, y) || Raised(m, t, y, x)
  {
    FruitlessExchange(m, p, s, x, y);
    FruitlessExchange(m, q, t, y, x);
  }

  // ----- exchanges can always happen -----

  lemma NoEvents(m: System)
    ensures CalmRun(m, [], m)
  {
  }

  lemma DeltaCanHappen(m: System, x: Name, y: Name) returns (evs: seq<(Name, Event)>, t: System)
    requires SystemOk(m) && x in m.nodes && y in m.nodes
    requires m.nodes[x].core.root != m.nodes[y].core.root && Known(m.nodes[y].core.log.rows, m.nodes[x].core.root)
    ensures CalmRun(m, evs, t) && IsDelta(evs, x, y, m.nodes[x].core.root)
  {
    var h := m.nodes[x].core.root;
    NoEvents(m);
    evs := [] + [(x, SendInterest)];
    var m1 := Advertises(m, [], m, x);
    var m2, content := AnswersWithDelta(m, evs, m1, y, h);
    evs := evs + [(y, OnSyncInterest(h, content))];
    var diff;
    t, diff := Receives(m, evs, m2, x, content);
    evs := evs + [(x, OnData(content, diff))];
  }

  /** `y` has no recovery scheduled after `x` advertised its root and the recovery scheduled before, if any, has run. */
  lemma ReadyToRecover(m: System, x: Name, y: Name) returns (evs: seq<(Name, Event)>, t: System)
    requires SystemOk(m) && x in m.nodes && y in m.nodes
    ensures CalmRun(m, evs, t) && SystemOk(t) && SyncInterest(m.nodes[x].core.root) in t.net
    ensures t.nodes == WithPending(m, y, None)
    ensures evs == [(x, SendInterest)] || evs == [(x, SendInterest), (y, RecoverTimer)]
  {
    NoEvents(m);
    evs := [] + [(x, SendInterest)];
    t := Advertises(m, [], m, x);
    if m.nodes[y].core.pending.Some? {
      t := RunsRecovery(m, evs, t, y);
      evs := evs + [(y, RecoverTimer)];
    }
    assert t.nodes == WithPending(m, y, None);
  }

  /** `y` hears of an unknown root and asks for recovery. */
  lemma AsksForRecovery(s: System, run: seq<(Name, Event)>, m: System, y: Name, h: Hash)
    returns (t: System, e1: (Name, Event), e2: (Name, Event))
    requires CalmRun(s, run, m) && SystemOk(m) && y in m.nodes && SyncInterest(h) in m.net
    requires m.nodes[y].core.pending.None? && h != m.nodes[y].core.root && !Known(m.nodes[y].core.log.rows, h)
    ensures e1.0 == y && e1.1.OnSyncInterest? && e1.1.hash == h && e2 == (y, RecoverTimer)
    ensures CalmRun(s, run + [e1] + [e2], t) && SystemOk(t)
    ensures RecoverInterest(h) in t.net && t.nodes.Keys == m.nodes.Keys
    ensures forall n :: n in m.nodes ==> t.nodes[n].core.log == m.nodes[n].core.log
  {
    var m1, first := SchedulesRecovery(s, run, m, y, h);
    e1, e2 := (y, OnSyncInterest(h, first)), (y, RecoverTimer);
    SameRoots(m, m1.nodes, y, Some(h));
    t := RunsRecovery(s, run + [e1], m1, y);
    SameRoots(m1, t.nodes, y, None);
  }

  /** `x` answers, and `y` receives the answer. */
  lemma GetsFullAnswer(s: System, run: seq<(Name, Event)>, m: System, x: Name, y: Name, h: Hash)
    returns (t: System, e3: (Name, Event), e4: (Name, Event))
    requires CalmRun(s, run, m) && SystemOk(m) && x in m.nodes && y in m.nodes
    requires RecoverInterest(h) in m.net && Known(m.nodes[x].core.log.rows, h)
    ensures e3.0 == x && e3.1.OnRecoverInterest? && e3.1.hash == h
    ensures e4.0 == y && e4.1.OnData? && e4.1.content == e3.1.content
    ensures CalmRun(s, run + [e3] + [e4], t) && SystemOk(t)
  {
    var m3, content := AnswersInFull(s, run, m, x, h);
    e3 := (x, OnRecoverInterest(h, content));
    var diff;
    t, diff := Receives(s, run + [e3], m3, y, content);
    e4 := (y, OnData(content, diff));
  }

  lemma ShapeOfRecovery(first: seq<(Name, Event)>, e1: (Name, Event), e2: (Name, Event), e3: (Name, Event),
                        e4: (Name, Event), x: Name, y: Name, h: Hash)
    requires first == [(x, SendInterest)] || first == [(x, SendInterest), (y, RecoverTimer)]
    requires e1.0 == y && e1.1.OnSyncInterest? && e1.1.hash == h && e2 == (y, RecoverTimer)
    requires e3.0 == x && e3.1.OnRecoverInterest? && e3.1.hash == h
    requires e4.0 == y && e4.1.OnData? && e4.1.content == e3.1.content
    ensures IsRecovery(first + [e1] + [e2] + [e3] + [e4], x, y, h)
  {
  }

  lemma RootIsLogged(m: System, x: Name)
    requires SystemOk(m) && x in m.nodes
    ensures Known(m.nodes[x].core.log.rows, m.nodes[x].core.root)
  {
    EachNodeOk(m, x);
    RootFacts(m.nodes[x].core);
  }

  lemma RecoveryCanHappen(m: System, x: Name, y: Name) returns (evs: seq<(Name, Event)>, t: System)
    requires SystemOk(m) && x in m.nodes && y in m.nodes && !Known(m.nodes[y].core.log.rows, m.nodes[x].core.root)
    ensures CalmRun(m, evs, t) && IsRecovery(evs, x, y, m.nodes[x].core.root)
  {
    var h := m.nodes[x].core.root;
    RootIsLogged(m, x);
    RootIsLogged(m, y);
    var first, m1 := ReadyToRecover(m, x, y);
    SameRoots(m, m1.nodes, y, None);
    var m2, e1, e2 := AsksForRecovery(m, first, m1, y, h);
    var e3, e4;
    t, e3, e4 := GetsFullAnswer(m, first + [e1] + [e2], m2, x, y, h);
    evs := first + [e1] + [e2] + [e3] + [e4];
    ShapeOfRecovery(first, e1, e2, e3, e4, x, y, h);
  }

  /** Between devices with different roots each of the two exchanges can happen. */
  lemma ExchangeCanHappen(m: System, x: Name, y: Name) returns (evs: seq<(Name, Event)>, t: System)
    requires SystemOk(m) && x in m.nodes && y in m.nodes && Root(m, x) != Root(m, y)
    ensures CalmRun(m, evs, t) && IsExchange(m, evs, x, y)
  {
    if Known(m.nodes[y].core.log.rows, m.nodes[x].core.root) {
      evs, t := DeltaCanHappen(m, x, y);
    } else {
      evs, t := RecoveryCanHappen(m, x, y);
    }
  }

  // ----- convergence -----

  /** A device that has unadvertised actions of its own publishes them. */
  lemma PublishRaises(m: System, n: Name) returns (evs: seq<(Name, Event)>, t: System)
    requires SystemOk(m) && n in m.nodes && !IsPublished(m, n)
    ensures CalmRun(m, evs, t) && SystemOk(t) && Missing(t) < Missing(m)
    ensures |evs| == 1 && evs[0].0 == n && evs[0].1.Publish? && IsPublished(t, n)
  {
    EachNodeOk(m, n);
    NoEvents(m);
    var content := SomeDiff(Root(m, n), m.nodes[n].core.log.nodes, false);
    t := Happen(m, [], m, n, Publish(content));
    evs := [] + [(n, Publish(content))];
    StepKeepsSystemOk(m, n, Publish(content));
    HigherRootsMissLess(m, t, n);
  }

  /** One of the two exchanges, which lowers the measure. */
  lemma UsefulExchange(m: System, x: Name, y: Name) returns (evs: seq<(Name, Event)>, t: System)
    requires SystemOk(m) && x in m.nodes && y in m.nodes && Root(m, x) != Root(m, y)
    ensures CalmRun(m, evs, t) && SystemOk(t) && Missing(t) < Missing(m)
    ensures IsExchange(m, evs, x, y) || IsExchange(m, evs, y, x)
  {
    var p, u := ExchangeCanHappen(m, x, y);
    var q, v := ExchangeCanHappen(m, y, x);
    OneOfTwoExchangesRaises(m, x, y, p, u, q, v);
    ExchangeRaises(m, p, u, x, y);
    ExchangeRaises(m, q, v, y, x);
    evs, t := if Missing(u) < Missing(m) then p else q, if Missing(u) < Missing(m) then u else v;
  }

  /** If all roots are the same and each contains its own device's counter, they are the counters. */
  lemma AgreedRootIsCounters(s: System, n: Name)
    requires SystemOk(s) && n in s.nodes
    requires forall m :: m in s.nodes ==> Root(s, m) == Root(s, n) && IsPublished(s, m)
    ensures Root(s, n) == Counters(s.ledger)
  {
    SystemFacts(s);
    RootIsBounded(s, n);
    forall d | d in s.ledger
      ensures d in Root(s, n) && Root(s, n)[d] == |s.ledger[d]|
    {
      RootIsBounded(s, d);
    }
    assert Root(s, n).Keys == Counters(s.ledger).Keys;
  }

  /**
   * From every state in order the protocol can bring all roots to the exact counters of all devices, by a run of
   * publications and exchanges. Each lowers the measure, so no more are needed than numbers are missing.
   */
  lemma {:induction false} RootsConverge(m: System) returns (run: seq<(Name, Event)>, t: System)
    requires SystemOk(m)
    ensures CalmRun(m, run, t) && SystemOk(t)
    ensures forall n :: n in t.nodes ==> Root(t, n) == Counters(m.ledger)
    decreases Missing(m)
  {
    if n :| n in m.nodes && !IsPublished(m, n) {
      var p, u := PublishRaises(m, n);
      run, t := RootsConverge(u);
      CalmRunsJoin(m, p, u, run, t);
      run := p + run;
    } else if x, y :| x in m.nodes && y in m.nodes && Root(m, x) != Root(m, y) {
      var p, u := UsefulExchange(m, x, y);
      run, t := RootsConverge(u);
      CalmRunsJoin(m, p, u, run, t);
      run := p + run;
    } else {
      NoEvents(m);
      run, t := [], m;
      forall n | n in m.nodes
        ensures Root(m, n) == Counters(m.ledger)
      {
        AgreedRootIsCounters(m, n);
      }
    }
  }

  /** Nothing is missing exactly when every root is the exact counters. */
  lemma NothingMissingIff(s: System)
    requires SystemOk(s)
    ensures Missing(s) == 0 <==> forall n :: n in s.nodes ==> Root(s, n) == Counters(s.ledger)
  {
    var f: Name -> nat := n => MissingAt(s, n);
    MissingIsSum(s, s.nodes.Keys, f);
    forall n | n in s.nodes
      ensures f(n) == 0 <==> Root(s, n) == Counters(s.ledger)
    {
      RootIsBounded(s, n);
      NoGapIff(Root(s, n), Counters(s.ledger));
    }
    SumZeroIff(s.nodes.Keys, f);
  }

  lemma {:induction false} SumZeroIff(keys: set<Name>, f: Name -> nat)
    ensures Sum(keys, f) == 0 <==> forall k :: k in keys ==> f(k) == 0
    decreases keys
  {
    if keys != {} {
      var x :| x in keys && ((exists k :: k in keys && f(k) != 0) ==> f(x) != 0);
      SumTakeOut(keys, f, x);
      SumZeroIff(keys - {x}, f);
    }
  }

  lemma NoGapIff(m: State, top: State)
    requires Leq(m, top)
    ensures NodeGap(m, top) == 0 <==> m == top
  {
    var f := d => Gap(m, top, d);
    SumZeroIff(top.Keys, f);
    if m == top {
      assert forall d :: d in top.Keys ==> f(d) == 0;
    } else if forall d :: d in top.Keys ==> f(d) == 0 {
      forall d | d in top
        ensures d in m && top[d] <= m[d]
      {
        assert f(d) == 0;
      }
      LeqAntisymmetric(m, top);
    }
  }
}
