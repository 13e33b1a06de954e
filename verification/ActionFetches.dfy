/** Which reported actions a device will still fetch, and which it never will. */
module ActionFetches {
  import opened Names
  import opened StateVectors
  import opened SyncCores
  import opened Dispatchers
  import opened FetchTasks
  import opened ActionLogs
  import opened Replicas

  /** The advertised root counts the action of another device, but the log does not have it. */
  ghost predicate Lacks(v: Node, k: Key) {
    k !in v.store.actions && k.0 != v.core.local && 1 <= k.1 <= SeqNo(v.core.root.preimage, k.0)
  }

  /** No queued range and no fetcher will bring the action that the device lacks. */
  ghost predicate Lost(v: Node, k: Key) {
    Lacks(v, k) && !Awaited(v.fetches, k.0, k.1)
  }

  /** Nor would a restart. */
  ghost predicate Gone(v: Node, k: Key) {
    Lost(v, k) && !InTable(v.fetches, k.0, k.1)
  }

  // ----- single events -----

  /** A report names exactly the actions between the old root and the new one. */
  lemma ReportHoldsNews(v: Node, n: Name, ledger: Ledger, content: Message, diff: Message, k: Key)
    requires NodeOk(v, n, ledger) && ContentBounded(content, ledger) && k.0 != n
    requires IsDiff(diff, v.core.root.preimage, Merge(v.core.log.nodes, content), true)
    ensures (exists r :: r in RangesOf(diff) && Holds(r, k.0, k.1)) <==>
      SeqNo(v.core.root.preimage, k.0) < k.1 <= SeqNo(Merge(v.core.log.nodes, content), k.0)
    ensures Leq(v.core.root.preimage, Merge(v.core.log.nodes, content))
  {
    AbsorbFits(v.core, n, ledger, content);
    ReportFits(v.ranges, n, ledger, diff, v.core.root.preimage, Merge(v.core.log.nodes, content));
    NewRangesHold(v.ranges, RangesOf(diff), k.0, k.1);
    TilesCoverOnce(v.ranges, k.0, 0, k.1);
  }

  lemma AwaitedMore(f: Fetches, q: seq<Range>, d: Name, k: nat)
    ensures Awaited(Queued(f, q), d, k) <==> Awaited(f, d, k) || exists r :: r in q && Holds(r, d, k)
  {
  }

  lemma DataKeepsLost(v: Node, n: Name, ledger: Ledger, content: Message, diff: Message, k: Key)
    requires NodeOk(v, n, ledger) && ContentBounded(content, ledger)
    requires IsDiff(diff, v.core.root.preimage, Merge(v.core.log.nodes, content), true)
    ensures Lost(NodeAfter(v, OnData(content, diff)), k) <==> Lost(v, k)
  {
    if k.0 != n {
      ReportHoldsNews(v, n, ledger, content, diff, k);
      AwaitedMore(v.fetches, RangesOf(diff), k.0, k.1);
    }
  }

  lemma HandingKeepsAwaited(f: Fetches, d: Name, k: nat)
    ensures Awaited(Handed(f), d, k) <==> Awaited(f, d, k)
    ensures !Awaited(f, d, k) ==> (InTable(Handed(f), d, k) <==> InTable(f, d, k))
  {
    if f.queue != [] {
      assert forall r :: r in f.queue <==> r == f.queue[0] || r in f.queue[1..];
    }
  }

  /** The pending ranges do not overlap. */
  lemma PendingAreDisjoint(v: Node, n: Name, ledger: Ledger, k: Key, r: Range, r': Range)
    requires NodeOk(v, n, ledger) && k.0 != n && r in v.ranges && r' in v.ranges
    requires Holds(r, k.0, k.1) && Holds(r', k.0, k.1)
    ensures r == r'
  {
    var i: nat :| i < |v.ranges| && v.ranges[i] == r;
    var j: nat :| j < |v.ranges| && v.ranges[j] == r';
    HeldOnce(v.ranges, k.0, k.1, i, j);
  }

  lemma AbandonLoses(v: Node, n: Name, ledger: Ledger, r: Range, k: Key)
    requires NodeOk(v, n, ledger) && r in v.fetches.live
    ensures Lost(NodeAfter(v, Abandon(r)), k) <==>
      Lost(v, k) || (Lacks(v, k) && Holds(r, k.0, k.1) && r !in v.fetches.queue)
  {
    var f := v.fetches;
    if Lacks(v, k) && Holds(r, k.0, k.1) && r !in f.queue && Awaited(Ended(f, r), k.0, k.1) {
      var r' :| (r' in f.queue || r' in f.live - {r}) && Holds(r', k.0, k.1);
      PendingAreDisjoint(v, n, ledger, k, r, r');
    }
  }

  lemma RestartLoses(v: Node, n: Name, ledger: Ledger, k: Key)
    requires NodeOk(v, n, ledger)
    ensures Lost(NodeAfter(v, Restart), k) <==> Lacks(v, k) && !InTable(v.fetches, k.0, k.1)
  {
    AdvertiseFits(v.core, n, ledger);
    var f := v.fetches;
    if Awaited(Resumed(f), k.0, k.1) {
      var r :| r in f.rows.Values && Holds(r, k.0, k.1);
      var d :| d in f.rows && f.rows[d] == r;
      assert d == k.0;
    }
    if InTable(f, k.0, k.1) {
      assert f.rows[k.0] in f.rows.Values;
    }
  }

  lemma CompletionKeepsLost(v: Node, r: Range, k: Key)
    requires HasRange(v.store, r)
    ensures Lost(NodeAfter(v, FetchDone(r)), k) <==> Lost(v, k)
  {
    if Lacks(v, k) {
      assert !Holds(r, k.0, k.1);
    }
  }

  lemma ArrivalKeepsLost(v: Node, a: Action, k: Key)
    requires NodeEnabled(v, Fetched(a))
    ensures Lost(NodeAfter(v, Fetched(a)), k) <==> Lost(v, k)
  {
  }

  lemma OtherEventsKeepLost(v: Node, n: Name, ledger: Ledger, e: Event, k: Key)
    requires NodeOk(v, n, ledger) && NodeEnabled(v, e)
    requires e.LocalAction? || e.Publish? || e.SendInterest? || e.OnSyncInterest? || e.RecoverTimer?
      || e.OnRecoverInterest?
    ensures Lost(NodeAfter(v, e), k) <==> Lost(v, k)
  {
    AdvertiseFits(v.core, n, ledger);
  }

  /**
   * What is lost after an event, exactly: restarts and abandoned fetches lose actions, and no event brings one back
   * but a restart.
   */
  lemma LostIff(s: System, n: Name, e: Event, k: Key)
    requires SystemOk(s) && Enabled(s, n, e)
    ensures var v := s.nodes[n];
      Lost(NodeAfter(v, e), k) <==>
        match e
        case Restart => Lacks(v, k) && !InTable(v.fetches, k.0, k.1)
        case Abandon(r) => Lost(v, k) || (Lacks(v, k) && Holds(r, k.0, k.1) && r !in v.fetches.queue)
        case _ => Lost(v, k)
  {
    var v := s.nodes[n];
    EachNodeOk(s, n);
    match e {
      case OnData(content, diff) =>
        OfferedContentIsBounded(s.net, s.ledger, content);
        DataKeepsLost(v, n, s.ledger, content, diff, k);
      case Dispatch => HandingKeepsAwaited(v.fetches, k.0, k.1);
      case Fetched(a) => ArrivalKeepsLost(v, a, k);
      case FetchDone(r) => CompletionKeepsLost(v, r, k);
      case Abandon(r) => AbandonLoses(v, n, s.ledger, r, k);
      case Restart => RestartLoses(v, n, s.ledger, k);
      case _ => OtherEventsKeepLost(v, n, s.ledger, e, k);
    }
  }

  lemma GoneStays(s: System, n: Name, e: Event, k: Key)
    requires SystemOk(s) && Enabled(s, n, e) && Gone(s.nodes[n], k)
    ensures Gone(NodeAfter(s.nodes[n], e), k)
  {
    LostIff(s, n, e, k);
    if e.Dispatch? {
      HandingKeepsAwaited(s.nodes[n].fetches, k.0, k.1);
    }
  }

  // ----- whole runs -----

  /** A row of the task table is there for ever, so it stays the first range of its device that was enqueued. */
  lemma {:induction false} RowsAreKept(s: System, run: seq<(Name, Event)>, t: System, n: Name, d: Name)
    requires Reaches(s, run, t) && n in s.nodes && d in s.nodes[n].fetches.rows
    ensures n in t.nodes && d in t.nodes[n].fetches.rows
    ensures t.nodes[n].fetches.rows[d] == s.nodes[n].fetches.rows[d]
    decreases |run|
  {
    if run != [] {
      RowsAreKept(s, run[..|run| - 1], Ran(s, run[..|run| - 1]), n, d);
    }
  }

  /** Whatever happens, locally or elsewhere, restarts included, an action that is gone never arrives. */
  lemma {:induction false} GoneForGood(s: System, run: seq<(Name, Event)>, t: System, n: Name, k: Key)
    requires SystemOk(s) && Reaches(s, run, t) && n in s.nodes && Gone(s.nodes[n], k)
    ensures n in t.nodes && Gone(t.nodes[n], k)
    decreases |run|
  {
    if run != [] {
      var before := run[..|run| - 1];
      var m := Ran(s, before);
      RunKeepsSystemOk(s, before, m);
      GoneForGood(s, before, m, n, k);
      if run[|run| - 1].0 == n {
        GoneStays(m, n, run[|run| - 1].1, k);
      }
    }
  }

  /** The device is not restarted and none of its fetches comes to nothing. */
  predicate Undisturbed(run: seq<(Name, Event)>, n: Name) {
    forall i :: 0 <= i < |run| && run[i].0 == n ==> !run[i].1.Restart? && !run[i].1.Abandon?
  }

  /** In a run that leaves a device undisturbed exactly those actions are lost in the end that were lost before. */
  lemma {:induction false} UndisturbedLosesNothing(s: System, run: seq<(Name, Event)>, t: System, n: Name, k: Key)
    requires SystemOk(s) && Reaches(s, run, t) && n in s.nodes && Undisturbed(run, n)
    ensures n in t.nodes && (Lost(t.nodes[n], k) <==> Lost(s.nodes[n], k))
    decreases |run|
  {
    if run != [] {
      var before := run[..|run| - 1];
      var m := Ran(s, before);
      RunKeepsSystemOk(s, before, m);
      UndisturbedLosesNothing(s, before, m, n, k);
      if run[|run| - 1].0 == n {
        LostIff(m, n, run[|run| - 1].1, k);
      }
    }
  }

  /** An action that is lost stays lost until a restart. */
  lemma {:induction false} LostUntilRestart(s: System, run: seq<(Name, Event)>, t: System, n: Name, k: Key)
    requires SystemOk(s) && Reaches(s, run, t) && n in s.nodes && Lost(s.nodes[n], k)
    requires forall i :: 0 <= i < |run| && run[i].0 == n ==> !run[i].1.Restart?
    ensures n in t.nodes && Lost(t.nodes[n], k)
    decreases |run|
  {
    if run != [] {
      var before := run[..|run| - 1];
      var m := Ran(s, before);
      RunKeepsSystemOk(s, before, m);
      LostUntilRestart(s, before, m, n, k);
      if run[|run| - 1].0 == n {
        LostIff(m, n, run[|run| - 1].1, k);
      }
    }
  }

  /** A device that is never restarted and whose fetches all get on never loses an action. */
  lemma NothingIsLostFromTheStart(s: System, run: seq<(Name, Event)>, t: System, n: Name, k: Key)
    requires Init(s) && Reaches(s, run, t) && n in t.nodes && Undisturbed(run, n)
    ensures !Lost(t.nodes[n], k)
  {
    InitOk(s);
    SameDevices(s, run, t);
    UndisturbedLosesNothing(s, run, t, n, k);
  }

  lemma {:induction false} SameDevices(s: System, run: seq<(Name, Event)>, t: System)
    requires Reaches(s, run, t)
    ensures t.nodes.Keys == s.nodes.Keys
    decreases |run|
  {
    if run != [] {
      SameDevices(s, run[..|run| - 1], Ran(s, run[..|run| - 1]));
    }
  }
}
