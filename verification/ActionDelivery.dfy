/** The fetchers of the action fetch manager behind the system's fetch events. */
module ActionDeliveries {
  import opened Names
  import opened Dispatchers
  import opened FetchTasks
  import opened ActionLogs
  import opened Replicas
  import opened FileConvergence
  import Fetchers
  import FetchManagers

  function FetcherOf(r: Range): Fetchers.Fetch {
    Fetchers.NewFetch(r.lo, r.hi)
  }

  ghost predicate CanServe(ledger: Ledger, d: Name, s: int) {
    s >= 0 && InLedger(ledger, (d, s))
  }

  /** What the segments that a fetcher hands over mean to the device: the fetched actions, in the same order. */
  ghost function Deliveries(ledger: Ledger, n: Name, d: Name, run: seq<Fetchers.Event>): seq<(Name, Event)> {
    if run == [] then []
    else
      Deliveries(ledger, n, d, run[..|run| - 1]) +
      match run[|run| - 1]
      case Data(s) => if CanServe(ledger, d, s) then [(n, Fetched(ActionOf(ledger, (d, s))))] else []
      case _ => []
  }

  /** Only the log of `n` has changed: it has got exactly what the fetcher has delivered. */
  ghost predicate OnlyDelivered(m: System, t: System, n: Name, d: Name, delivered: seq<int>) {
    && t.ledger == m.ledger && n in m.nodes && n in t.nodes
    && t.nodes == m.nodes[n := m.nodes[n].(store := t.nodes[n].store)]
    && (forall k :: k in m.nodes[n].store.actions ==> k in t.nodes[n].store.actions)
    && (forall k :: k in t.nodes[n].store.actions ==> k in m.nodes[n].store.actions || (k.0 == d && k.1 in delivered))
    && (forall s :: s in delivered ==> s >= 0 && (d, s) in t.nodes[n].store.actions)
  }

  /** A live range is not empty, and its actions exist. */
  lemma LiveRangeIsServable(m: System, n: Name, r: Range)
    requires SystemOk(m) && n in m.nodes && r in m.nodes[n].fetches.live
    ensures r.lo <= r.hi && forall s: int :: r.lo <= s <= r.hi ==> CanServe(m.ledger, r.device, s)
  {
    EachNodeOk(m, n);
    var i: nat :| i < |m.nodes[n].ranges| && m.nodes[n].ranges[i] == r;
  }

  lemma OneMoreDelivery(m: System, t: System, n: Name, r: Range, delivered: seq<int>, s: int)
    requires SystemOk(m) && r.lo <= s <= r.hi && OnlyDelivered(m, t, n, r.device, delivered) && SystemOk(t)
    requires r in m.nodes[n].fetches.live && InLedger(m.ledger, (r.device, s))
    ensures var e := Fetched(ActionOf(m.ledger, (r.device, s)));
      && Enabled(t, n, e) && SystemOk(After(t, n, e))
      && OnlyDelivered(m, After(t, n, e), n, r.device, delivered + [s])
  {
    var k: nat := s;
    var a := ActionOf(m.ledger, (r.device, k));
    OwnerOffers(t, (r.device, k));
    assert Holds(r, a.device, a.seqno);
    StepKeepsSystemOk(t, n, Fetched(a));
  }

  lemma DataIsInRange(m: System, n: Name, r: Range, before: seq<Fetchers.Event>, s: int)
    requires SystemOk(m) && n in m.nodes && r in m.nodes[n].fetches.live && Fetchers.Runs(FetcherOf(r), before)
    requires s in Fetchers.AfterAll(FetcherOf(r), before).inFlight
    ensures r.lo <= s <= r.hi && CanServe(m.ledger, r.device, s)
  {
    LiveRangeIsServable(m, n, r);
    Fetchers.RunKeepsFetchOk(r.lo, r.hi, before);
  }

  lemma StepDelivers(f: Fetchers.Fetch, e: Fetchers.Event)
    ensures Fetchers.After(f, e).delivered == if e.Data? then f.delivered + [e.seqno] else f.delivered
  {
    Fetchers.FillChangesOnlyTheWindow(f.(fills := if f.fills > 0 then f.fills - 1 else 0));
  }

  /**
   * Whatever the fetcher of a live range goes through, with losses, give-ups and restarts, the actions that it hands
   * over can be fetched by the device one after the other, and its log gets exactly these.
   */
  lemma {:induction false} FetcherFeedsLog(m: System, n: Name, r: Range, run: seq<Fetchers.Event>)
    requires SystemOk(m) && n in m.nodes && r in m.nodes[n].fetches.live && Fetchers.Runs(FetcherOf(r), run)
    ensures var events := Deliveries(m.ledger, n, r.device, run);
      && Runs(m, events) && SystemOk(Ran(m, events))
      && OnlyDelivered(m, Ran(m, events), n, r.device, Fetchers.AfterAll(FetcherOf(r), run).delivered)
  {
    if run != [] {
      var before, e := run[..|run| - 1], run[|run| - 1];
      FetcherFeedsLog(m, n, r, before);
      var events, f := Deliveries(m.ledger, n, r.device, before), Fetchers.AfterAll(FetcherOf(r), before);
      StepDelivers(f, e);
      if e.Data? {
        DataIsInRange(m, n, r, before, e.seqno);
        OneMoreDelivery(m, Ran(m, events), n, r, f.delivered, e.seqno);
        OneMore(m, events, n, Fetched(ActionOf(m.ledger, (r.device, e.seqno))));
      } else {
        assert Deliveries(m.ledger, n, r.device, run) == events;
      }
    }
  }

  /** When the fetcher reports completion, the device has the whole range. */
  lemma CompletionIsFetchDone(m: System, n: Name, r: Range, run: seq<Fetchers.Event>)
    requires SystemOk(m) && n in m.nodes && r in m.nodes[n].fetches.live && Fetchers.Runs(FetcherOf(r), run)
    requires Fetchers.AfterAll(FetcherOf(r), run).completions > 0
    ensures Enabled(Ran(m, Deliveries(m.ledger, n, r.device, run)), n, FetchDone(r))
  {
    FetcherFeedsLog(m, n, r, run);
    LiveRangeIsServable(m, n, r);
    Fetchers.RunKeepsFetchOk(r.lo, r.hi, run);
    EachNodeOk(m, n);
  }

  /** So it is for every fetcher of a manager, in every run of the manager. */
  lemma ManagerFeedsLog(m: System, n: Name, r: Range, max: nat, broadcast: Name, run: seq<FetchManagers.Event>, i: nat)
    returns (events: seq<(Name, Event)>)
    requires SystemOk(m) && n in m.nodes && r in m.nodes[n].fetches.live
    requires FetchManagers.Runs(FetchManagers.NewManager(max, broadcast), run)
    requires var list := FetchManagers.AfterAll(FetchManagers.NewManager(max, broadcast), run).list;
      i < |list| && list[i].fetch.minSeq == r.lo && list[i].fetch.maxSeq == r.hi
    ensures Runs(m, events) && SystemOk(Ran(m, events))
    ensures var f := FetchManagers.AfterAll(FetchManagers.NewManager(max, broadcast), run).list[i].fetch;
      && OnlyDelivered(m, Ran(m, events), n, r.device, f.delivered)
      && (f.completions > 0 ==> Enabled(Ran(m, events), n, FetchDone(r)))
  {
    var fr := FetchManagers.EachFetcherRuns(max, broadcast, run, i);
    FetcherFeedsLog(m, n, r, fr);
    events := Deliveries(m.ledger, n, r.device, fr);
    if Fetchers.AfterAll(FetcherOf(r), fr).completions > 0 {
      CompletionIsFetchDone(m, n, r, fr);
    }
  }
}
