/** When the replicas can reach equal logs and equal files. */
module FileConvergence {
  import opened Names
  import opened StateVectors
  import opened FetchTasks
  import opened ActionLogs
  import opened Replicas
  import opened ReplicaSafety
  import opened Convergence
  import opened Exchanges
  import opened ActionFetches

  ghost function AllKeys(ledger: Ledger): set<Key> {
    set d, k: nat | d in ledger.Keys && 1 <= k <= |ledger[d]| :: (d, k)
  }

  ghost predicate RootsAreCounters(s: System) {
    forall n :: n in s.nodes ==> Root(s, n) == Counters(s.ledger)
  }

  /** Device `n` has every action of every device. */
  ghost predicate HasAll(s: System, n: Name) {
    n in s.nodes && AllKeys(s.ledger) <= s.nodes[n].store.actions.Keys
  }

  /** All devices have the same root, the same complete log and the same files. */
  ghost predicate Converged(s: System) {
    && RootsAreCounters(s)
    && (forall n :: n in s.nodes ==> HasAll(s, n))
    && (forall m, n :: m in s.nodes && n in s.nodes ==> s.nodes[m].store == s.nodes[n].store)
  }

  // ----- fetching what is awaited -----

  lemma OwnerOffers(s: System, k: Key)
    requires SystemOk(s) && InLedger(s.ledger, k)
    ensures KeyOf(ActionOf(s.ledger, k)) == k && Offered(s, Fetched(ActionOf(s.ledger, k)))
  {
    SystemFacts(s);
    EachNodeOk(s, k.0);
    assert KeyOf(ActionOf(s.ledger, k)) == k;
    assert k in s.nodes[k.0].store.actions && s.nodes[k.0].store.actions[k] == ActionOf(s.ledger, k);
  }

  /**
   * An existing action can be fetched exactly when a fetcher is at work on a range that holds it: its owner offers
   * it.
   */
  lemma ActionCanBeFetchedIff(s: System, n: Name, k: Key)
    requires SystemOk(s) && n in s.nodes && InLedger(s.ledger, k)
    ensures var a := ActionOf(s.ledger, k);
      KeyOf(a) == k && (Enabled(s, n, Fetched(a)) <==> exists r :: r in s.nodes[n].fetches.live && Holds(r, k.0, k.1))
  {
    OwnerOffers(s, k);
  }

  /** Nothing but the node of `n` has changed, and of that not the protocol state. */
  ghost predicate OnlyFetches(s: System, t: System, n: Name) {
    && n in s.nodes && n in t.nodes && t.nodes == s.nodes[n := t.nodes[n]]
    && t.nodes[n].core == s.nodes[n].core
    && s.nodes[n].store.actions.Keys <= t.nodes[n].store.actions.Keys
    && (forall d :: d in s.nodes[n].fetches.rows ==>
         d in t.nodes[n].fetches.rows && t.nodes[n].fetches.rows[d] == s.nodes[n].fetches.rows[d])
    && (forall d, k :: Awaited(s.nodes[n].fetches, d, k) <==> Awaited(t.nodes[n].fetches, d, k))
  }

  lemma OnlyFetchesTwice(s: System, m: System, t: System, n: Name)
    requires OnlyFetches(s, m, n) && OnlyFetches(m, t, n)
    ensures OnlyFetches(s, t, n)
  {
  }

  lemma DispatchOnlyFetches(m: System, n: Name)
    requires n in m.nodes && m.nodes[n].fetches.queue != []
    ensures OnlyFetches(m, After(m, n, Dispatch), n)
  {
    forall d, k
      ensures Awaited(Handed(m.nodes[n].fetches), d, k) <==> Awaited(m.nodes[n].fetches, d, k)
    {
      HandingKeepsAwaited(m.nodes[n].fetches, d, k);
    }
  }

  /** The dispatcher's executor works through its queue. */
  lemma {:induction false} DispatchesAll(m: System, n: Name) returns (run: seq<(Name, Event)>, t: System)
    requires SystemOk(m) && n in m.nodes
    ensures CalmRun(m, run, t) && SystemOk(t) && OnlyFetches(m, t, n) && t.nodes[n].fetches.queue == []
    decreases |m.nodes[n].fetches.queue|
  {
    NoEvents(m);
    if m.nodes[n].fetches.queue == [] {
      run, t := [], m;
    } else {
      var u := Happen(m, [], m, n, Dispatch);
      StepKeepsSystemOk(m, n, Dispatch);
      DispatchOnlyFetches(m, n);
      run, t := DispatchesAll(u, n);
      OnlyFetchesTwice(m, u, t, n);
      CalmRunsJoin(m, [] + [(n, Dispatch)], u, run, t);
      run := [] + [(n, Dispatch)] + run;
    }
  }

  lemma FetchedOnlyFetches(m: System, n: Name, a: Action)
    requires n in m.nodes
    ensures OnlyFetches(m, After(m, n, Fetched(a)), n)
    ensures After(m, n, Fetched(a)).nodes[n].fetches == m.nodes[n].fetches
    ensures KeyOf(a) in After(m, n, Fetched(a)).nodes[n].store.actions
  {
  }

  /** The fetchers bring all that they are at work on. */
  lemma {:induction false} FetchesLive(m: System, n: Name) returns (run: seq<(Name, Event)>, t: System)
    requires SystemOk(m) && n in m.nodes && m.nodes[n].fetches.queue == []
    ensures CalmRun(m, run, t) && SystemOk(t) && OnlyFetches(m, t, n)
    ensures forall k :: k in AllKeys(m.ledger) && Awaited(m.nodes[n].fetches, k.0, k.1) ==>
      k in t.nodes[n].store.actions
    decreases AllKeys(m.ledger) - m.nodes[n].store.actions.Keys
  {
    var f := m.nodes[n].fetches;
    NoEvents(m);
    if k :| k in AllKeys(m.ledger) && Awaited(f, k.0, k.1) && k !in m.nodes[n].store.actions {
      var a := ActionOf(m.ledger, k);
      ActionCanBeFetchedIff(m, n, k);
      var u := Happen(m, [], m, n, Fetched(a));
      StepKeepsSystemOk(m, n, Fetched(a));
      FetchedOnlyFetches(m, n, a);
      run, t := FetchesLive(u, n);
      OnlyFetchesTwice(m, u, t, n);
      CalmRunsJoin(m, [] + [(n, Fetched(a))], u, run, t);
      run := [] + [(n, Fetched(a))] + run;
    } else {
      run, t := [], m;
    }
  }

  /** A device can get every action that its root counts and that is not lost. */
  lemma FetchesAwaited(m: System, n: Name) returns (run: seq<(Name, Event)>, t: System)
    requires SystemOk(m) && n in m.nodes
    ensures CalmRun(m, run, t) && SystemOk(t) && OnlyFetches(m, t, n)
    ensures forall k :: k in AllKeys(m.ledger) && k.1 <= SeqNo(Root(m, n), k.0) && !Lost(m.nodes[n], k) ==>
      k in t.nodes[n].store.actions
    ensures forall k :: k in AllKeys(m.ledger) && Awaited(m.nodes[n].fetches, k.0, k.1) ==>
      k in t.nodes[n].store.actions
  {
    var p, u := DispatchesAll(m, n);
    var q;
    q, t := FetchesLive(u, n);
    OnlyFetchesTwice(m, u, t, n);
    CalmRunsJoin(m, p, u, q, t);
    run := p + q;
    forall k | k in AllKeys(m.ledger) && k.1 <= SeqNo(Root(m, n), k.0) && !Lost(m.nodes[n], k)
      ensures k in t.nodes[n].store.actions
    {
      LacksIff(m, n, k);
    }
  }

  /** An existing action that the root counts is in the log or lacking. */
  lemma LacksIff(m: System, n: Name, k: Key)
    requires SystemOk(m) && n in m.nodes && k in AllKeys(m.ledger) && k.1 <= SeqNo(Root(m, n), k.0)
    ensures Lacks(m.nodes[n], k) <==> k !in m.nodes[n].store.actions
  {
    EachNodeOk(m, n);
    assert InLedger(m.ledger, k);
  }

  lemma LackingExists(m: System, n: Name, k: Key)
    requires SystemOk(m) && n in m.nodes && Lacks(m.nodes[n], k)
    ensures k in AllKeys(m.ledger)
  {
    RootIsBounded(m, n);
  }

  // ----- one action -----

  lemma AwaitedArrives(m: System, n: Name, k: Key) returns (run: seq<(Name, Event)>)
    requires SystemOk(m) && n in m.nodes && k in AllKeys(m.ledger) && Awaited(m.nodes[n].fetches, k.0, k.1)
    ensures Runs(m, run) && n in Ran(m, run).nodes && k in Ran(m, run).nodes[n].store.actions
  {
    var t;
    run, t := FetchesAwaited(m, n);
  }

  lemma RestartAwaits(m: System, n: Name, k: Key) returns (t: System)
    requires SystemOk(m) && n in m.nodes && InTable(m.nodes[n].fetches, k.0, k.1)
    ensures Runs(m, [(n, Restart)]) && t == Ran(m, [(n, Restart)]) && SystemOk(t)
    ensures n in t.nodes && t.ledger == m.ledger && Awaited(t.nodes[n].fetches, k.0, k.1)
  {
    t := After(m, n, Restart);
    OneMore(m, [], n, Restart);
    assert [] + [(n, Restart)] == [(n, Restart)];
    StepKeepsSystemOk(m, n, Restart);
    assert m.nodes[n].fetches.rows[k.0] in t.nodes[n].fetches.live;
  }

  ghost predicate Arrives(m: System, run: seq<(Name, Event)>, n: Name, k: Key) {
    Runs(m, run) && n in Ran(m, run).nodes && k in Ran(m, run).nodes[n].store.actions
  }

  /** An action that the root counts but the log lacks can still arrive, in some run, exactly when it is not gone. */
  lemma CanArriveIff(m: System, n: Name, k: Key)
    requires SystemOk(m) && n in m.nodes && Lacks(m.nodes[n], k)
    ensures (exists run :: Arrives(m, run, n, k)) <==> !Gone(m.nodes[n], k)
  {
    LackingExists(m, n, k);
    if Gone(m.nodes[n], k) {
      forall run | Runs(m, run)
        ensures !Arrives(m, run, n, k)
      {
        GoneForGood(m, run, Ran(m, run), n, k);
      }
    } else if Awaited(m.nodes[n].fetches, k.0, k.1) {
      var run := AwaitedArrives(m, n, k);
      assert Arrives(m, run, n, k);
    } else {
      var t := RestartAwaits(m, n, k);
      var rest := AwaitedArrives(t, n, k);
      RunsJoin(m, [(n, Restart)], rest);
      assert Arrives(m, [(n, Restart)] + rest, n, k);
    }
  }

  /** After a restart a lacking action can never arrive exactly when the task table does not hold it. */
  lemma RestartLosesForGoodIff(m: System, n: Name, k: Key)
    requires SystemOk(m) && n in m.nodes && Lacks(m.nodes[n], k)
    ensures (forall run :: !Arrives(After(m, n, Restart), run, n, k)) <==> !InTable(m.nodes[n].fetches, k.0, k.1)
  {
    var t := After(m, n, Restart);
    StepKeepsSystemOk(m, n, Restart);
    LostIff(m, n, Restart, k);
    EachNodeOk(m, n);
    AdvertiseFits(m.nodes[n].core, n, m.ledger);
    assert Lacks(t.nodes[n], k);
    CanArriveIff(t, n, k);
  }

  /**
   * Once the table holds a range of a device, a restart at any later time loses every action of the device that is
   * lacking then and not in that range, for good.
   */
  lemma RestartLosesAllButTheFirstRange(s: System, run: seq<(Name, Event)>, t: System, n: Name, k: Key)
    requires SystemOk(s) && Reaches(s, run, t) && n in s.nodes && k.0 in s.nodes[n].fetches.rows
    requires n in t.nodes && Lacks(t.nodes[n], k)
    ensures (forall later :: !Arrives(After(t, n, Restart), later, n, k)) <==>
      !Holds(s.nodes[n].fetches.rows[k.0], k.0, k.1)
  {
    RunKeepsSystemOk(s, run, t);
    RowsAreKept(s, run, t, n, k.0);
    RestartLosesForGoodIff(t, n, k);
  }

  // ----- all actions -----

  ghost predicate NothingLost(s: System, names: set<Name>) {
    forall n, k :: n in names && n in s.nodes ==> !Lost(s.nodes[n], k)
  }

  ghost predicate NothingGone(s: System, names: set<Name>) {
    forall n, k :: n in names && n in s.nodes ==> !Gone(s.nodes[n], k)
  }

  ghost predicate AllHave(s: System, except_: set<Name>) {
    forall n :: n in s.nodes && n !in except_ ==> HasAll(s, n)
  }

  lemma OneMoreHas(s: System, t: System, todo: set<Name>, n: Name)
    requires AllHave(s, todo) && t.ledger == s.ledger && HasAll(t, n)
    requires n in s.nodes && t.nodes == s.nodes[n := t.nodes[n]]
    ensures AllHave(t, todo - {n})
  {
    forall x | x in t.nodes && x !in todo - {n}
      ensures HasAll(t, x)
    {
      assert x != n ==> HasAll(s, x);
    }
  }

  /** With the roots at the counters and nothing lost, a device can fetch all that exists. */
  lemma FetchesAll(m: System, n: Name) returns (run: seq<(Name, Event)>, t: System)
    requires SystemOk(m) && RootsAreCounters(m) && n in m.nodes && NothingLost(m, {n})
    ensures CalmRun(m, run, t) && SystemOk(t) && OnlyFetches(m, t, n) && RootsAreCounters(t) && HasAll(t, n)
  {
    run, t := FetchesAwaited(m, n);
  }

  lemma {:induction false} EverybodyFetchesAll(m: System, todo: set<Name>)
    returns (run: seq<(Name, Event)>, t: System)
    requires SystemOk(m) && RootsAreCounters(m) && todo <= m.nodes.Keys && NothingLost(m, todo) && AllHave(m, todo)
    ensures CalmRun(m, run, t) && SystemOk(t) && RootsAreCounters(t) && AllHave(t, {})
    decreases todo
  {
    if todo == {} {
      NoEvents(m);
      run, t := [], m;
    } else {
      var n :| n in todo;
      var p, u := FetchesAll(m, n);
      OneMoreHas(m, u, todo, n);
      run, t := EverybodyFetchesAll(u, todo - {n});
      CalmRunsJoin(m, p, u, run, t);
      run := p + run;
    }
  }

  lemma HasAllIsEqual(t: System, m: Name, n: Name)
    requires SystemOk(t) && HasAll(t, m) && HasAll(t, n)
    ensures t.nodes[m].store == t.nodes[n].store
  {
    var a, b := t.nodes[m].store.actions, t.nodes[n].store.actions;
    forall k
      ensures k in a <==> k in b
      ensures k in a && k in b ==> a[k] == b[k]
    {
      if k in a {
        LoggedActionIsInLedger(t, m, k);
        assert k in AllKeys(t.ledger);
      }
      if k in b {
        LoggedActionIsInLedger(t, n, k);
        assert k in AllKeys(t.ledger);
      }
    }
    assert a.Keys == b.Keys;
    EachNodeOk(t, m);
    EachNodeOk(t, n);
    SameActionsSameFiles(t.nodes[m].store, t.nodes[n].store);
  }

  lemma AllHaveIsConverged(t: System)
    requires SystemOk(t) && RootsAreCounters(t) && AllHave(t, {})
    ensures Converged(t)
  {
    forall m, n | m in t.nodes && n in t.nodes
      ensures t.nodes[m].store == t.nodes[n].store
    {
      HasAllIsEqual(t, m, n);
    }
  }

  lemma CalmKeepsNothingLost(s: System, run: seq<(Name, Event)>, t: System)
    requires SystemOk(s) && CalmRun(s, run, t) && NothingLost(s, s.nodes.Keys)
    ensures NothingLost(t, t.nodes.Keys)
  {
    forall n, k | n in t.nodes
      ensures !Lost(t.nodes[n], k)
    {
      UndisturbedLosesNothing(s, run, t, n, k);
    }
  }

  /** With nothing lost, protocol messages and fetches alone can make all devices equal. */
  lemma ConvergesCalmly(s: System) returns (run: seq<(Name, Event)>, t: System)
    requires SystemOk(s) && NothingLost(s, s.nodes.Keys)
    ensures CalmRun(s, run, t) && Converged(t)
  {
    var p, u := RootsConverge(s);
    CalmKeepsNothingLost(s, p, u);
    var q;
    q, t := EverybodyFetchesAll(u, u.nodes.Keys);
    AllHaveIsConverged(t);
    CalmRunsJoin(s, p, u, q, t);
    run := p + q;
  }

  predicate NoRestart(run: seq<(Name, Event)>) {
    forall i :: 0 <= i < |run| ==> !run[i].1.Restart?
  }

  lemma LostPreventsConvergence(s: System, run: seq<(Name, Event)>, n: Name, k: Key)
    requires SystemOk(s) && Runs(s, run) && Quiet(run) && n in s.nodes && Lacks(s.nodes[n], k)
    requires n in Ran(s, run).nodes && k !in Ran(s, run).nodes[n].store.actions
    ensures !Converged(Ran(s, run))
  {
    LackingExists(s, n, k);
    QuietToTheEnd(s, run, Ran(s, run), 0);
    assert !HasAll(Ran(s, run), n);
  }

  /**
   * From a state that can occur, a run without local changes and without restarts can make all devices equal, with
   * complete logs, exactly when no action up to the root of a device is lost to it: every one it lacks is in a range
   * that is queued or being fetched.
   */
  lemma CanConvergeIff(s: System)
    requires Occurs(s)
    ensures (exists run :: Runs(s, run) && Quiet(run) && NoRestart(run) && Converged(Ran(s, run))) <==>
      NothingLost(s, s.nodes.Keys)
  {
    OccursOk(s);
    if NothingLost(s, s.nodes.Keys) {
      var run, t := ConvergesCalmly(s);
      assert Quiet(run) && NoRestart(run);
    } else {
      var n, k :| n in s.nodes && Lost(s.nodes[n], k);
      forall run | Runs(s, run) && Quiet(run) && NoRestart(run)
        ensures !Converged(Ran(s, run))
      {
        LostUntilRestart(s, run, Ran(s, run), n, k);
        LostPreventsConvergence(s, run, n, k);
      }
    }
  }

  /** After the fetches, what a restart would lose was gone before. */
  lemma OnlyGoneIsLost(m: System, u: System, n: Name, k: Key)
    requires SystemOk(m) && SystemOk(u) && u.ledger == m.ledger && OnlyFetches(m, u, n)
    requires k in AllKeys(m.ledger) && k.1 <= SeqNo(Root(m, n), k.0) && !Lost(m.nodes[n], k) ==>
      k in u.nodes[n].store.actions
    requires Lost(NodeAfter(u.nodes[n], Restart), k)
    ensures Gone(m.nodes[n], k)
  {
    LostIff(u, n, Restart, k);
    LackingExists(u, n, k);
  }

  /** A device that fetches what it awaits and starts again awaits all that it lacks and that is not gone. */
  lemma RestartRecovers(m: System, n: Name) returns (run: seq<(Name, Event)>, t: System)
    requires SystemOk(m) && n in m.nodes && NothingGone(m, {n})
    ensures Reaches(m, run, t) && Quiet(run) && SystemOk(t)
    ensures n in t.nodes && t.nodes == m.nodes[n := t.nodes[n]] && NothingLost(t, {n})
  {
    var u;
    run, u := FetchesAwaited(m, n);
    t := After(u, n, Restart);
    OneMore(m, run, n, Restart);
    StepKeepsSystemOk(u, n, Restart);
    forall k
      ensures !Lost(t.nodes[n], k)
    {
      if Lost(t.nodes[n], k) {
        OnlyGoneIsLost(m, u, n, k);
      }
    }
    run := run + [(n, Restart)];
  }

  lemma {:induction false} EverybodyRecovers(m: System, todo: set<Name>) returns (run: seq<(Name, Event)>, t: System)
    requires SystemOk(m) && todo <= m.nodes.Keys && NothingGone(m, todo) && NothingLost(m, m.nodes.Keys - todo)
    ensures Reaches(m, run, t) && Quiet(run) && SystemOk(t) && NothingLost(t, t.nodes.Keys)
    decreases todo
  {
    if todo == {} {
      run, t := [], m;
    } else {
      var n :| n in todo;
      var p, u := RestartRecovers(m, n);
      run, t := EverybodyRecovers(u, todo - {n});
      RunsJoin(m, p, run);
      run := p + run;
    }
  }

  /**
   * If restarts are allowed as well, it is enough that every action a device lacks is queued, fetched or in its
   * table.
   */
  lemma CanConvergeWithRestartsIff(s: System)
    requires Occurs(s)
    ensures (exists run :: Runs(s, run) && Quiet(run) && Converged(Ran(s, run))) <==> NothingGone(s, s.nodes.Keys)
  {
    OccursOk(s);
    if NothingGone(s, s.nodes.Keys) {
      var p, u := EverybodyRecovers(s, s.nodes.Keys);
      var q, t := ConvergesCalmly(u);
      RunsJoin(s, p, q);
      assert Runs(s, p + q) && Quiet(p + q) && Converged(Ran(s, p + q));
    } else {
      var n, k :| n in s.nodes && Gone(s.nodes[n], k);
      forall run | Runs(s, run) && Quiet(run)
        ensures !Converged(Ran(s, run))
      {
        GoneForGood(s, run, Ran(s, run), n, k);
        LostPreventsConvergence(s, run, n, k);
      }
    }
  }

  /**
   * After every run in which no device was restarted and no fetch came to nothing, protocol messages and fetches alone
   * can bring all devices to the same root, the same complete action log and the same files.
   */
  lemma ReplicasConverge(start: System, before: seq<(Name, Event)>, s: System)
    returns (run: seq<(Name, Event)>, t: System)
    requires Init(start) && Reaches(start, before, s) && forall n :: n in s.nodes ==> Undisturbed(before, n)
    ensures CalmRun(s, run, t) && Occurs(t) && Converged(t)
  {
    assert Occurs(s);
    OccursOk(s);
    forall n, k | n in s.nodes
      ensures !Lost(s.nodes[n], k)
    {
      NothingIsLostFromTheStart(start, before, s, n, k);
    }
    run, t := ConvergesCalmly(s);
    OccursLater(s, run, t);
  }
}
