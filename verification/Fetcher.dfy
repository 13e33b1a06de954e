/** Fetching a range of segments through a sliding window (src/fetcher.cc). */
module Fetchers {

  /** m_pipeline */
  const WINDOW := 6

  /**
   * The fields of a Fetcher, with what it has told others: the segments handed to the segment callback,
   * and how often it reported completion and failure. `fills` counts the FillPipeline jobs still queued.
   */
  datatype Fetch = Fetch(
    minSeq: int, maxSeq: int,
    minSend: int, maxInOrder: int,
    outOfOrder: set<int>, inFlight: set<int>, activePipeline: int,
    active: bool, timedWait: bool,
    fills: nat, delivered: seq<int>, completions: nat, failures: nat, starts: nat)

  function NewFetch(lo: int, hi: int): Fetch {
    Fetch(lo, hi, lo - 1, lo - 1, {}, {}, 0, false, false, 0, [], 0, 0, 0)
  }

  // ----- specification functions -----

  function Restarted(f: Fetch): Fetch {
    f.(active := true, minSend := f.maxInOrder, fills := f.fills + 1, starts := f.starts + 1)
  }

  /** The loop of FillPipeline. */
  function Fill(f: Fetch): Fetch
    decreases f.maxSeq - f.minSend
  {
    if f.minSend < f.maxSeq && f.activePipeline < WINDOW then
      var next := f.minSend + 1;
      if next in f.outOfOrder || next in f.inFlight then Fill(f.(minSend := next))
      else Fill(f.(minSend := next, inFlight := f.inFlight + {next}, activePipeline := f.activePipeline + 1))
    else f
  }

  /** How far the in-order prefix reaches after `n`, given the numbers received out of order. */
  function Advance(n: int, received: set<int>): (r: int)
    ensures n <= r
    ensures forall k :: n < k <= r ==> k in received
    ensures r + 1 !in received
    decreases Above(n, received)
  {
    if n + 1 in received then
      assert n + 1 in Above(n, received) && n + 1 !in Above(n + 1, received);
      Advance(n + 1, received)
    else n
  }

  function Above(n: int, received: set<int>): set<int> {
    set x | x in received && n < x
  }

  /** The bookkeeping of OnData_Execute, without the final branch. */
  function Recorded(f: Fetch, seqno: int): Fetch {
    var all := f.outOfOrder + {seqno};
    var n := Advance(f.maxInOrder, all);
    f.(activePipeline := f.activePipeline - 1,
       delivered := f.delivered + [seqno],
       inFlight := f.inFlight - {seqno},
       maxInOrder := n,
       outOfOrder := Above(n, all))
  }

  function DataReceived(f: Fetch, seqno: int): Fetch {
    var g := Recorded(f, seqno);
    if g.maxInOrder == g.maxSeq
    then g.(active := false, timedWait := true, completions := g.completions + 1)
    else g.(fills := g.fills + 1)
  }

  function GivenUp(f: Fetch, seqno: int): Fetch {
    var g := f.(inFlight := f.inFlight - {seqno}, activePipeline := f.activePipeline - 1);
    if g.activePipeline == 0 then g.(active := false, failures := g.failures + 1) else g
  }

  // ----- events -----

  /**
   * `Reexpress` re-sends a timed-out interest under its own number; see ShiftedCallback for the number the code
   * passes.
   */
  datatype Event = Restart | RunFill | Data(seqno: int) | GiveUp(seqno: int) | Reexpress(seqno: int)

  predicate Enabled(f: Fetch, e: Event) {
    match e
    case Restart => !f.active && !f.timedWait
    case RunFill => f.fills > 0
    case Data(s) => s in f.inFlight
    case GiveUp(s) => s in f.inFlight
    case Reexpress(s) => s in f.inFlight
  }

  function After(f: Fetch, e: Event): Fetch {
    match e
    case Restart => Restarted(f)
    case RunFill => Fill(f.(fills := if f.fills > 0 then f.fills - 1 else 0))
    case Data(s) => DataReceived(f, s)
    case GiveUp(s) => GivenUp(f, s)
    case Reexpress(_) => f
  }

  predicate Runs(f: Fetch, run: seq<Event>) {
    run == [] || (Runs(f, run[..|run| - 1]) && Enabled(AfterAll(f, run[..|run| - 1]), run[|run| - 1]))
  }

  function AfterAll(f: Fetch, run: seq<Event>): Fetch {
    if run == [] then f else After(AfterAll(f, run[..|run| - 1]), run[|run| - 1])
  }

  // ----- invariants -----

  /** The numbers the window believes it has received. */
  ghost predicate IsRecorded(f: Fetch, k: int) {
    f.minSeq <= k <= f.maxInOrder || k in f.outOfOrder
  }

  ghost predicate Counts(f: Fetch) {
    && f.minSeq - 1 <= f.maxInOrder <= f.maxSeq
    && f.minSeq - 1 <= f.minSend <= f.maxSeq
    && (forall k :: k in f.outOfOrder ==> f.maxInOrder + 1 < k <= f.maxSeq)
    && (forall k :: k in f.inFlight ==> f.minSeq <= k <= f.maxSeq)
    && f.inFlight !! f.outOfOrder
    && |f.inFlight| == f.activePipeline <= WINDOW
  }

  /** What was delivered is exactly what is recorded. */
  ghost predicate DeliveredIsRecorded(f: Fetch) {
    forall k :: k in f.delivered <==> IsRecorded(f, k)
  }

  /** Completion is reported only with everything in order. */
  ghost predicate CompleteMeansAll(f: Fetch) {
    f.completions > 0 ==> f.maxInOrder == f.maxSeq
  }

  ghost predicate FetchOk(f: Fetch) {
    Counts(f) && DeliveredIsRecorded(f) && CompleteMeansAll(f)
  }

  lemma {:induction false} FillChangesOnlyTheWindow(f: Fetch)
    ensures Fill(f) == f.(minSend := Fill(f).minSend, inFlight := Fill(f).inFlight,
      activePipeline := Fill(f).activePipeline)
    decreases f.maxSeq - f.minSend
  {
    if f.minSend < f.maxSeq && f.activePipeline < WINDOW {
      var next := f.minSend + 1;
      FillChangesOnlyTheWindow(f.(minSend := next));
      FillChangesOnlyTheWindow(f.(minSend := next, inFlight := f.inFlight + {next},
        activePipeline := f.activePipeline + 1));
    }
  }

  /** One turn of the FillPipeline loop. */
  function Turn(f: Fetch): Fetch {
    var next := f.minSend + 1;
    if next in f.outOfOrder || next in f.inFlight then f.(minSend := next)
    else f.(minSend := next, inFlight := f.inFlight + {next}, activePipeline := f.activePipeline + 1)
  }

  lemma FillTurns(f: Fetch)
    requires f.minSend < f.maxSeq && f.activePipeline < WINDOW
    ensures Fill(f) == Fill(Turn(f))
  {
  }

  lemma TurnKeepsCounts(f: Fetch)
    requires Counts(f) && f.minSend < f.maxSeq && f.activePipeline < WINDOW
    ensures Counts(Turn(f))
  {
  }

  lemma {:induction false} FillStaysWithin(f: Fetch)
    requires Counts(f)
    ensures Counts(Fill(f)) && f.inFlight <= Fill(f).inFlight && f.minSend <= Fill(f).minSend
    ensures Fill(f).minSend == f.maxSeq || Fill(f).activePipeline == WINDOW
    decreases f.maxSeq - f.minSend
  {
    if f.minSend < f.maxSeq && f.activePipeline < WINDOW {
      TurnKeepsCounts(f);
      FillTurns(f);
      FillStaysWithin(Turn(f));
    }
  }

  /** Filling asks for a number exactly when it passes it, unless it has been received. */
  lemma {:induction false} FillAsksFor(f: Fetch, k: int)
    requires Counts(f)
    ensures f.minSend < k <= Fill(f).minSend ==> k in f.outOfOrder || k in Fill(f).inFlight
    ensures k in Fill(f).inFlight && k !in f.inFlight ==> f.minSend < k <= Fill(f).minSend
    decreases f.maxSeq - f.minSend
  {
    if f.minSend < f.maxSeq && f.activePipeline < WINDOW {
      TurnKeepsCounts(f);
      FillTurns(f);
      FillStaysWithin(Turn(f));
      FillAsksFor(Turn(f), k);
    }
  }

  lemma FillKeepsCounts(f: Fetch)
    requires Counts(f)
    ensures Counts(Fill(f)) && Fill(f) == f.(minSend := Fill(f).minSend, inFlight := Fill(f).inFlight,
      activePipeline := Fill(f).activePipeline)
    ensures f.inFlight <= Fill(f).inFlight && f.minSend <= Fill(f).minSend
    ensures Fill(f).minSend == f.maxSeq || Fill(f).activePipeline == WINDOW
    ensures forall k :: f.minSend < k <= Fill(f).minSend ==> k in f.outOfOrder || k in Fill(f).inFlight
    ensures forall k :: k in Fill(f).inFlight && k !in f.inFlight ==> f.minSend < k <= Fill(f).minSend
  {
    FillChangesOnlyTheWindow(f);
    FillStaysWithin(f);
    forall k
      ensures f.minSend < k <= Fill(f).minSend ==> k in f.outOfOrder || k in Fill(f).inFlight
      ensures k in Fill(f).inFlight && k !in f.inFlight ==> f.minSend < k <= Fill(f).minSend
    {
      FillAsksFor(f, k);
    }
  }

  lemma DataKeepsCounts(f: Fetch, s: int)
    requires Counts(f) && s in f.inFlight
    ensures Counts(DataReceived(f, s))
    ensures forall k :: IsRecorded(DataReceived(f, s), k) <==> IsRecorded(f, k) || k == s
  {
    var n := Advance(f.maxInOrder, f.outOfOrder + {s});
    if n > f.maxInOrder {
      assert n in f.outOfOrder + {s};
    }
  }

  lemma DataKeepsFetchOk(f: Fetch, s: int)
    requires FetchOk(f) && s in f.inFlight
    ensures FetchOk(DataReceived(f, s))
  {
    DataKeepsCounts(f, s);
    var g := DataReceived(f, s);
    assert g.delivered == f.delivered + [s];
    assert forall k :: k in g.delivered <==> k in f.delivered || k == s;
  }

  lemma GiveUpKeepsFetchOk(f: Fetch, s: int)
    requires FetchOk(f) && s in f.inFlight
    ensures FetchOk(GivenUp(f, s))
  {
  }

  lemma StepKeepsFetchOk(f: Fetch, e: Event)
    requires FetchOk(f) && Enabled(f, e)
    ensures FetchOk(After(f, e))
  {
    match e {
      case RunFill => FillKeepsCounts(f.(fills := f.fills - 1));
      case Data(s) => DataKeepsFetchOk(f, s);
      case GiveUp(s) => GiveUpKeepsFetchOk(f, s);
      case _ =>
    }
  }

  /**
   * In every run, with any losses, give-ups and restarts: what was delivered is exactly the in-order prefix and
   * the out-of-order set, the window counts are right, and completion is only reported once all has been received.
   */
  lemma {:induction false} RunKeepsFetchOk(lo: int, hi: int, run: seq<Event>)
    requires lo <= hi && Runs(NewFetch(lo, hi), run)
    ensures FetchOk(AfterAll(NewFetch(lo, hi), run))
    ensures var f := AfterAll(NewFetch(lo, hi), run);
      f.minSeq == lo && f.maxSeq == hi && (f.completions > 0 ==> forall k :: lo <= k <= hi <==> k in f.delivered)
  {
    if run != [] {
      RunKeepsFetchOk(lo, hi, run[..|run| - 1]);
      var f, e := AfterAll(NewFetch(lo, hi), run[..|run| - 1]), run[|run| - 1];
      StepKeepsFetchOk(f, e);
      if e.RunFill? {
        FillKeepsCounts(f.(fills := f.fills - 1));
      }
    }
  }

  // ----- runs with a single start -----

  ghost predicate NoRepeats(q: seq<int>) {
    forall i, j :: 0 <= i < j < |q| ==> q[i] != q[j]
  }

  /** Until a failed fetcher is started again, nothing received is ever asked for again. */
  ghost predicate Fresh(f: Fetch) {
    && f.maxInOrder <= f.minSend
    && (forall k :: k in f.inFlight || IsRecorded(f, k) ==> k <= f.minSend)
    && (forall k :: k in f.inFlight ==> f.maxInOrder < k)
    && NoRepeats(f.delivered)
    && f.completions <= 1
    && (f.starts == 0 ==> f == NewFetch(f.minSeq, f.maxSeq))
    && (f.completions == 1 ==> f.inFlight == {})
  }

  lemma FreshFill(f: Fetch)
    requires FetchOk(f) && Fresh(f) && f.starts > 0
    ensures Fresh(Fill(f))
  {
    FillKeepsCounts(f);
  }

  lemma FreshData(f: Fetch, s: int)
    requires FetchOk(f) && Fresh(f) && s in f.inFlight
    ensures Fresh(DataReceived(f, s))
  {
    DataKeepsCounts(f, s);
    var g := DataReceived(f, s);
    assert s !in f.delivered;
    assert IsRecorded(g, g.maxInOrder) || g.maxInOrder < g.minSeq;
    forall k | k in g.inFlight
      ensures g.maxInOrder < k
    {
      assert !IsRecorded(g, k);
    }
  }

  lemma StepKeepsFresh(f: Fetch, e: Event)
    requires FetchOk(f) && Fresh(f) && Enabled(f, e) && After(f, e).starts <= 1
    ensures Fresh(After(f, e))
  {
    match e {
      case RunFill => FreshFill(f.(fills := f.fills - 1));
      case Data(s) => FreshData(f, s);
      case _ =>
    }
  }

  lemma {:induction false} SingleStartStaysFresh(lo: int, hi: int, run: seq<Event>)
    requires lo <= hi && Runs(NewFetch(lo, hi), run) && AfterAll(NewFetch(lo, hi), run).starts <= 1
    ensures Fresh(AfterAll(NewFetch(lo, hi), run))
  {
    if run != [] {
      var f, e := AfterAll(NewFetch(lo, hi), run[..|run| - 1]), run[|run| - 1];
      FillChangesOnlyTheWindow(f.(fills := if f.fills > 0 then f.fills - 1 else 0));
      SingleStartStaysFresh(lo, hi, run[..|run| - 1]);
      RunKeepsFetchOk(lo, hi, run[..|run| - 1]);
      StepKeepsFresh(f, e);
    }
  }

  /**
   * On a run with a single start each segment is delivered at most once, and exactly once when completion is
   * reported, which happens once.
   */
  lemma SingleStartDeliversOnce(lo: int, hi: int, run: seq<Event>)
    requires lo <= hi && Runs(NewFetch(lo, hi), run) && AfterAll(NewFetch(lo, hi), run).starts <= 1
    ensures var f := AfterAll(NewFetch(lo, hi), run);
      && NoRepeats(f.delivered)
      && f.completions <= 1
      && (f.completions == 1 ==> forall k :: lo <= k <= hi <==> k in f.delivered)
      && (f.completions == 1 ==> forall e :: Enabled(f, e) ==> e == RunFill && After(f, e) == f.(fills := f.fills - 1))
  {
    SingleStartStaysFresh(lo, hi, run);
    RunKeepsFetchOk(lo, hi, run);
    var f := AfterAll(NewFetch(lo, hi), run);
    if f.completions == 1 {
      RunKeepsFetchOk(lo, hi, run);
      CompletedIsTimedWait(lo, hi, run);
      assert f.minSend == f.maxSeq;
    }
  }

  lemma {:induction false} CompletedIsTimedWait(lo: int, hi: int, run: seq<Event>)
    requires Runs(NewFetch(lo, hi), run)
    ensures AfterAll(NewFetch(lo, hi), run).completions > 0 ==> AfterAll(NewFetch(lo, hi), run).timedWait
  {
    if run != [] {
      CompletedIsTimedWait(lo, hi, run[..|run| - 1]);
      var f := AfterAll(NewFetch(lo, hi), run[..|run| - 1]);
      FillChangesOnlyTheWindow(f.(fills := if f.fills > 0 then f.fills - 1 else 0));
    }
  }

  // ----- progress -----

  /** The run has a start, and nothing has been given up since the last one. */
  predicate NothingGivenUp(run: seq<Event>) {
    run != [] &&
    match run[|run| - 1]
    case Restart => true
    case GiveUp(_) => false
    case _ => NothingGivenUp(run[..|run| - 1])
  }

  /** Every number that was asked for after the in-order prefix is in flight or received. */
  ghost predicate WindowCovered(f: Fetch) {
    forall k :: f.maxInOrder < k <= f.minSend ==> k in f.inFlight || k in f.outOfOrder
  }

  lemma DataKeepsWindowCovered(f: Fetch, s: int)
    requires FetchOk(f) && s in f.inFlight && WindowCovered(f)
    ensures WindowCovered(DataReceived(f, s)) && (f.active ==>
      DataReceived(f, s).active || DataReceived(f, s).maxInOrder == f.maxSeq)
    ensures f.maxInOrder <= DataReceived(f, s).maxInOrder <= f.maxSeq
  {
    DataKeepsCounts(f, s);
    var g := DataReceived(f, s);
    forall k | g.maxInOrder < k <= g.minSend
      ensures k in g.inFlight || k in g.outOfOrder
    {
      assert k in f.inFlight || k in f.outOfOrder;
    }
  }

  lemma FillKeepsWindowCovered(f: Fetch)
    requires FetchOk(f) && WindowCovered(f)
    ensures WindowCovered(Fill(f)) && Fill(f).active == f.active && Fill(f).maxInOrder == f.maxInOrder
  {
    FillKeepsCounts(f);
  }

  lemma StepKeepsWindowCovered(f: Fetch, e: Event)
    requires FetchOk(f) && Enabled(f, e) && !e.GiveUp?
    requires e.Restart? || (WindowCovered(f) && (f.active || f.maxInOrder == f.maxSeq))
    ensures WindowCovered(After(f, e)) && (After(f, e).active || After(f, e).maxInOrder == f.maxSeq)
  {
    match e {
      case RunFill => FillKeepsWindowCovered(f.(fills := f.fills - 1));
      case Data(s) => DataKeepsWindowCovered(f, s);
      case _ =>
    }
  }

  lemma {:induction false} NothingGivenUpKeepsWindowCovered(lo: int, hi: int, run: seq<Event>)
    requires lo <= hi && Runs(NewFetch(lo, hi), run) && NothingGivenUp(run)
    ensures var f := AfterAll(NewFetch(lo, hi), run); WindowCovered(f) && (f.active || f.maxInOrder == hi)
  {
    var before, e := run[..|run| - 1], run[|run| - 1];
    RunKeepsFetchOk(lo, hi, before);
    if !e.Restart? {
      NothingGivenUpKeepsWindowCovered(lo, hi, before);
    }
    StepKeepsWindowCovered(AfterAll(NewFetch(lo, hi), before), e);
  }

  /** Filling leaves nothing in flight exactly when nothing was and everything not yet asked for has been received. */
  lemma FillLeavesNothingIff(f: Fetch)
    requires Counts(f)
    ensures Fill(f).inFlight == {} <==> f.inFlight == {} && forall k :: f.minSend < k <= f.maxSeq ==> k in f.outOfOrder
  {
    FillKeepsCounts(f);
    if f.inFlight == {} && forall k :: f.minSend < k <= f.maxSeq ==> k in f.outOfOrder {
      assert forall k :: k !in Fill(f).inFlight;
    }
  }

  /**
   * While nothing has been given up since the last start, an unfinished fetcher that has filled its window is active
   * with something in flight.
   */
  lemma UnfinishedHasSomethingInFlight(lo: int, hi: int, run: seq<Event>)
    requires lo <= hi && run != [] && run[|run| - 1] == RunFill
    requires Runs(NewFetch(lo, hi), run) && NothingGivenUp(run)
    ensures var f := AfterAll(NewFetch(lo, hi), run); f.maxInOrder < hi ==> f.active && f.inFlight != {}
  {
    NothingGivenUpKeepsWindowCovered(lo, hi, run);
    RunKeepsFetchOk(lo, hi, run);
    RunKeepsFetchOk(lo, hi, run[..|run| - 1]);
    var before := AfterAll(NewFetch(lo, hi), run[..|run| - 1]);
    FillKeepsCounts(before.(fills := before.fills - 1));
    var f := AfterAll(NewFetch(lo, hi), run);
    if f.maxInOrder < hi && f.minSend == hi {
      assert f.maxInOrder + 1 in f.inFlight || f.maxInOrder + 1 in f.outOfOrder;
    }
  }

  lemma OneMore(f: Fetch, run: seq<Event>, e: Event)
    ensures AfterAll(f, run + [e]) == After(AfterAll(f, run), e)
    ensures Runs(f, run + [e]) <==> Runs(f, run) && Enabled(AfterAll(f, run), e)
  {
    assert (run + [e])[..|run|] == run;
  }

  /**
   * No number is given up while a fill is queued. A fill is queued by a start or by data, which also marks the time of
   * the last activity, and a number is given up only when nothing has happened for 30 seconds. So runs of the
   * one-thread executor are patient as long as a queued job does not wait that long.
   */
  predicate Patient(f: Fetch, run: seq<Event>) {
    run == [] ||
    (Patient(f, run[..|run| - 1]) && (run[|run| - 1].GiveUp? ==> AfterAll(f, run[..|run| - 1]).fills == 0))
  }

  lemma OneMorePatient(f: Fetch, run: seq<Event>, e: Event)
    ensures Patient(f, run + [e]) <==> Patient(f, run) && (e.GiveUp? ==> AfterAll(f, run).fills == 0)
  {
    assert (run + [e])[..|run|] == run;
  }

  lemma {:induction false} PatientJoin(f: Fetch, p: seq<Event>, q: seq<Event>)
    requires Runs(f, p) && Runs(AfterAll(f, p), q) && Patient(f, p) && Patient(AfterAll(f, p), q)
    ensures Patient(f, p + q)
  {
    if q == [] {
      assert p + q == p;
    } else {
      var q', e := q[..|q| - 1], q[|q| - 1];
      PatientJoin(f, p, q');
      RunsJoin(f, p, q');
      OneMorePatient(f, p + q', e);
      assert p + q == p + q' + [e];
    }
  }

  lemma FillsTwo()
    ensures Fill(Fetch(1, 2, 0, 0, {}, {}, 0, true, false, 0, [], 0, 0, 1)) ==
      Fetch(1, 2, 2, 0, {}, {1, 2}, 2, true, false, 0, [], 0, 0, 1)
  {
    FillTurns(Fetch(1, 2, 0, 0, {}, {}, 0, true, false, 0, [], 0, 0, 1));
    FillTurns(Fetch(1, 2, 1, 0, {}, {1}, 1, true, false, 0, [], 0, 0, 1));
  }

  /** Data that arrives after a give-up can leave an unfinished fetcher active with no event left that could wake it. */
  lemma DataAfterGiveUpCanGetStuck() returns (run: seq<Event>)
    ensures Runs(NewFetch(1, 2), run) && Patient(NewFetch(1, 2), run)
    ensures Stuck(AfterAll(NewFetch(1, 2), run))
  {
    var f := NewFetch(1, 2);
    var events := [Restart, RunFill, GiveUp(1), Data(2), RunFill];
    run := [];
    for i := 0 to 5
      invariant run == events[..i] && Runs(f, run) && Patient(f, run)
      invariant i == 1 ==> AfterAll(f, run) == Fetch(1, 2, 0, 0, {}, {}, 0, true, false, 1, [], 0, 0, 1)
      invariant i == 2 ==> AfterAll(f, run) == Fetch(1, 2, 2, 0, {}, {1, 2}, 2, true, false, 0, [], 0, 0, 1)
      invariant i == 3 ==> AfterAll(f, run) == Fetch(1, 2, 2, 0, {}, {2}, 1, true, false, 0, [], 0, 0, 1)
      invariant i == 4 ==> AfterAll(f, run) == Fetch(1, 2, 2, 0, {2}, {}, 0, true, false, 1, [2], 0, 0, 1)
      invariant i == 5 ==> AfterAll(f, run) == Fetch(1, 2, 2, 0, {2}, {}, 0, true, false, 0, [2], 0, 0, 1)
    {
      OneMore(f, run, events[i]);
      OneMorePatient(f, run, events[i]);
      if i == 1 {
        FillsTwo();
      }
      run := run + [events[i]];
    }
  }

  /** The fetcher is running and unfinished, and no event is left that could wake it. */
  ghost predicate Stuck(f: Fetch) {
    f.active && f.maxInOrder < f.maxSeq && forall e :: !Enabled(f, e)
  }

  lemma StuckMeansIdle(f: Fetch)
    requires f.active
    ensures Stuck(f) <==> f.maxInOrder < f.maxSeq && f.fills == 0 && f.inFlight == {}
  {
    if f.fills > 0 {
      assert Enabled(f, RunFill);
    } else if f.inFlight != {} {
      var s := Pick(f.inFlight);
      assert Enabled(f, Data(s));
    }
  }

  /**
   * Data leaves a running fetcher complete or with a fill queued, and a give-up ends it or leaves something in
   * flight.
   */
  lemma OnlyFillsGetStuck(f: Fetch, e: Event)
    requires FetchOk(f) && f.active && f.maxInOrder < f.maxSeq && Enabled(f, e) && !e.RunFill?
    ensures !Stuck(After(f, e))
  {
    match e {
      case Data(s) =>
        DataKeepsCounts(f, s);
        if After(f, e).active {
          StuckMeansIdle(After(f, e));
        }
      case GiveUp(s) =>
        GiveUpKeepsFetchOk(f, s);
        if After(f, e).active {
          StuckMeansIdle(After(f, e));
        }
      case Reexpress(s) =>
        assert Enabled(After(f, e), e);
      case Restart =>
    }
  }

  /**
   * A running, unfinished fetcher gets stuck by an event exactly when the event is the last queued fill, with nothing
   * in flight and everything it could still ask for already received.
   */
  lemma GetsStuckIff(f: Fetch, e: Event)
    requires FetchOk(f) && f.active && f.maxInOrder < f.maxSeq && Enabled(f, e)
    ensures Stuck(After(f, e)) <==>
      && e == RunFill && f.fills == 1 && f.inFlight == {}
      && forall k :: f.minSend < k <= f.maxSeq ==> k in f.outOfOrder
  {
    if e.RunFill? {
      var g := f.(fills := f.fills - 1);
      FillChangesOnlyTheWindow(g);
      FillLeavesNothingIff(g);
      StuckMeansIdle(Fill(g));
    } else {
      OnlyFillsGetStuck(f, e);
    }
  }

  // ----- restarting after a failure -----

  /** The segments of the range that have not been handed over. */
  ghost function Missing(f: Fetch): set<int> {
    set k | f.minSeq <= k <= f.maxSeq && k !in f.delivered
  }

  /** The fetcher asks for the first missing segments, six of them or all there are. */
  ghost predicate AsksForFirstMissing(f: Fetch, g: Fetch) {
    && g.inFlight <= Missing(f)
    && |g.inFlight| == (if |Missing(f)| < 6 then |Missing(f)| else 6)
    && (forall i, j :: i in g.inFlight && j in Missing(f) && j !in g.inFlight ==> i < j)
  }

  lemma FillAsksForFirstMissing(f: Fetch)
    requires FetchOk(f) && f.inFlight == {} && f.minSend == f.maxInOrder
    ensures AsksForFirstMissing(f, Fill(f))
  {
    FillKeepsCounts(f);
    var g := Fill(f);
    forall k | k in Missing(f)
      ensures k in g.inFlight <==> k <= g.minSend
    {
      assert !IsRecorded(f, k);
    }
    forall k | k in g.inFlight
      ensures k in Missing(f)
    {
      assert !IsRecorded(f, k);
    }
    if g.minSend == f.maxSeq {
      assert g.inFlight == Missing(f);
    } else {
      SubsetIsSmaller(g.inFlight, Missing(f));
    }
  }

  lemma {:induction false} SubsetIsSmaller(a: set<int>, b: set<int>)
    requires a <= b
    ensures |a| <= |b|
    decreases a
  {
    if a != {} {
      var x := Pick(a);
      SubsetIsSmaller(a - {x}, b - {x});
    }
  }

  /**
   * A fetcher that is started again goes on where it stopped: its first fill asks for the first missing segments of the
   * range and for nothing that has been handed over.
   */
  lemma RestartGoesOn(f: Fetch)
    requires FetchOk(f) && Enabled(f, Restart) && f.inFlight == {}
    ensures Enabled(After(f, Restart), RunFill)
    ensures var g := After(After(f, Restart), RunFill); g.active && AsksForFirstMissing(f, g)
  {
    var r := After(f, Restart);
    FillAsksForFirstMissing(r.(fills := r.fills - 1));
    FillChangesOnlyTheWindow(r.(fills := r.fills - 1));
  }

  /**
   * For a completed fetcher, a fill leaves something in flight exactly when something is in flight already or the
   * window has not caught up with the end of the range.
   */
  lemma AsksAgainIff(f: Fetch)
    requires FetchOk(f) && f.completions > 0
    ensures Fill(f).inFlight != {} <==> f.inFlight != {} || f.minSend < f.maxSeq
  {
    FillLeavesNothingIff(f);
    if f.minSend < f.maxSeq {
      assert f.maxSeq !in f.outOfOrder;
    }
  }

  /** Whatever a completed fetcher has asked for again, the data reports completion again. */
  lemma DataReportsAgain(f: Fetch, s: int)
    requires FetchOk(f) && f.completions > 0 && s in f.inFlight
    ensures DataReceived(f, s).completions == f.completions + 1
  {
    DataKeepsCounts(f, s);
  }

  lemma {:induction false} RunsJoin(f: Fetch, p: seq<Event>, q: seq<Event>)
    requires Runs(f, p) && Runs(AfterAll(f, p), q)
    ensures Runs(f, p + q) && AfterAll(f, p + q) == AfterAll(AfterAll(f, p), q)
  {
    if q == [] {
      assert p + q == p;
    } else {
      var q', e := q[..|q| - 1], q[|q| - 1];
      RunsJoin(f, p, q');
      OneMore(f, p + q', e);
      assert p + q == p + q' + [e];
    }
  }

  lemma Happens(f: Fetch, e: Event)
    requires Enabled(f, e)
    ensures Runs(f, [e]) && AfterAll(f, [e]) == After(f, e)
    ensures (e.GiveUp? ==> f.fills == 0) ==> Patient(f, [e])
  {
    OneMore(f, [], e);
    OneMorePatient(f, [], e);
    assert [] + [e] == [e];
  }

  lemma TwoEvents(f: Fetch, d: Event, e: Event)
    requires Enabled(f, d) && Enabled(After(f, d), e)
    ensures Runs(f, [d, e]) && AfterAll(f, [d, e]) == After(After(f, d), e)
    ensures (d.GiveUp? ==> f.fills == 0) && !e.GiveUp? ==> Patient(f, [d, e])
  {
    Happens(f, d);
    OneMore(f, [d], e);
    OneMorePatient(f, [d], e);
    assert [d] + [e] == [d, e];
  }

  lemma Pick(s: set<int>) returns (x: int)
    requires s != {}
    ensures x in s
  {
    if forall k :: k !in s {
      assert false;
    }
    x :| x in s;
  }

  /** All interests in flight can time out for good, one after the other. */
  lemma {:induction false} EverythingGivenUp(f: Fetch) returns (run: seq<Event>)
    requires Counts(f) && f.inFlight != {} && f.fills == 0
    ensures Runs(f, run) && Patient(f, run)
    ensures AfterAll(f, run) == f.(inFlight := {}, activePipeline := 0, active := false, failures := f.failures + 1)
    decreases f.inFlight
  {
    var s := Pick(f.inFlight);
    Happens(f, GiveUp(s));
    run := [GiveUp(s)];
    var g := GivenUp(f, s);
    assert |g.inFlight| == g.activePipeline;
    if g.inFlight == {} {
      assert g.activePipeline == 0;
    } else {
      var rest := EverythingGivenUp(g);
      RunsJoin(f, run, rest);
      PatientJoin(f, run, rest);
      run := run + rest;
    }
  }

  lemma EverythingRecorded(f: Fetch, g: Fetch, s: int)
    requires Counts(f) && Counts(g) && WindowCovered(f) && f.inFlight == {s}
    requires forall k :: f.minSend < k <= f.maxSeq ==> k in f.outOfOrder
    requires g.maxSeq == f.maxSeq && g.minSeq == f.minSeq && g.maxInOrder >= f.maxInOrder
    requires forall k :: IsRecorded(g, k) <==> IsRecorded(f, k) || k == s
    ensures g.maxInOrder == g.maxSeq
  {
    var k := g.maxInOrder + 1;
    assert !IsRecorded(g, k);
    assert f.maxInOrder < k;
  }

  lemma AllButTheLast(f: Fetch, p: seq<Event>, q: seq<Event>)
    requires Runs(f, p) && Runs(AfterAll(f, p), q) && q != []
    ensures AfterAll(f, (p + q)[..|p + q| - 1]) == AfterAll(AfterAll(f, p), q[..|q| - 1])
  {
    RunsJoin(f, p, q[..|q| - 1]);
    assert (p + q)[..|p + q| - 1] == p + q[..|q| - 1];
  }

  /**
   * If all that was not asked for since the last start has been received, the data in flight can arrive before
   * the queued fills run, and completes the fetch without the window having caught up.
   */
  lemma {:induction false} CompletesBeforeFilling(f: Fetch) returns (run: seq<Event>)
    requires FetchOk(f) && WindowCovered(f) && f.inFlight != {} && f.fills > 0
    requires forall k :: k in f.inFlight ==> f.maxInOrder < k
    requires forall k :: f.minSend < k <= f.maxSeq ==> k in f.outOfOrder
    ensures Runs(f, run) && Patient(f, run)
    ensures var g := AfterAll(f, run);
      FetchOk(g) && g.completions == f.completions + 1 && g.minSend == f.minSend && g.maxSeq == f.maxSeq
        && g.inFlight == {} && g.fills > 0
    ensures run != [] && AfterAll(f, run[..|run| - 1]).completions == f.completions
    decreases f.inFlight
  {
    var s := Pick(f.inFlight);
    Happens(f, Data(s));
    run := [Data(s)];
    var g := DataReceived(f, s);
    StepKeepsFetchOk(f, Data(s));
    DataKeepsCounts(f, s);
    if g.inFlight == {} {
      EverythingRecorded(f, g, s);
    } else {
      forall t | t in g.inFlight
        ensures g.maxInOrder < t
      {
        assert !IsRecorded(g, t);
      }
      assert g.maxInOrder < g.maxSeq;
      var rest := CompletesBeforeFilling(g);
      RunsJoin(f, run, rest);
      PatientJoin(f, run, rest);
      AllButTheLast(f, run, rest);
      run := run + rest;
    }
  }

  /** The queued fill then asks again for a received number, and its data reports completion again. */
  lemma CompletesAgain(f: Fetch) returns (run: seq<Event>)
    requires FetchOk(f) && f.completions > 0 && f.inFlight == {} && f.fills > 0 && f.minSend < f.maxSeq
    ensures Runs(f, run) && Patient(f, run) && AfterAll(f, run).completions == f.completions + 1
  {
    AsksAgainIff(f.(fills := f.fills - 1));
    StepKeepsFetchOk(f, RunFill);
    FillChangesOnlyTheWindow(f.(fills := f.fills - 1));
    var s := Pick(After(f, RunFill).inFlight);
    DataReportsAgain(After(f, RunFill), s);
    TwoEvents(f, RunFill, Data(s));
    run := [RunFill, Data(s)];
  }

  /** Completed, with nothing in flight and no fill that could ask for anything. */
  ghost predicate Finished(f: Fetch) {
    f.timedWait && f.inFlight == {} && (f.fills == 0 || f.minSend == f.maxSeq)
  }

  lemma {:induction false} FinishedStays(f: Fetch, run: seq<Event>)
    requires Finished(f) && Runs(f, run)
    ensures Finished(AfterAll(f, run)) && AfterAll(f, run).completions == f.completions
    ensures AfterAll(f, run).maxSeq == f.maxSeq
  {
    if run != [] {
      FinishedStays(f, run[..|run| - 1]);
      assert Enabled(AfterAll(f, run[..|run| - 1]), run[|run| - 1]);
    }
  }

  /**
   * A completed fetcher can report completion again exactly when something is in flight, or a fill is queued and the
   * window has not caught up with the end of the range.
   */
  lemma ReportsAgainIff(f: Fetch)
    requires FetchOk(f) && f.timedWait && f.completions > 0
    ensures (exists run :: Runs(f, run) && AfterAll(f, run).completions > f.completions) <==>
      f.inFlight != {} || (f.fills > 0 && f.minSend < f.maxSeq)
  {
    if f.inFlight != {} {
      var s := Pick(f.inFlight);
      DataReportsAgain(f, s);
      Happens(f, Data(s));
    } else if f.fills > 0 && f.minSend < f.maxSeq {
      var run := CompletesAgain(f);
    } else {
      forall run | Runs(f, run)
        ensures AfterAll(f, run).completions == f.completions
      {
        FinishedStays(f, run);
      }
    }
  }

  predicate LeavesInFlight(f: Fetch, run: seq<Event>) {
    Runs(f, run) && AfterAll(f, run).inFlight != {}
  }

  /** In the same cases it can come to have something in flight, which would outlive its removal. */
  lemma AsksAfterCompletionIff(f: Fetch)
    requires FetchOk(f) && f.timedWait && f.completions > 0
    ensures (exists run :: LeavesInFlight(f, run)) <==>
      f.inFlight != {} || (f.fills > 0 && f.minSend < f.maxSeq)
  {
    if f.inFlight != {} {
      assert LeavesInFlight(f, []);
    } else if f.fills > 0 && f.minSend < f.maxSeq {
      AsksAgainIff(f.(fills := f.fills - 1));
      Happens(f, RunFill);
      assert LeavesInFlight(f, [RunFill]);
    } else {
      forall run | Runs(f, run)
        ensures !LeavesInFlight(f, run)
      {
        FinishedStays(f, run);
      }
    }
  }

  lemma Continues(f: Fetch, run: seq<Event>, g: Fetch, more: seq<Event>, h: Fetch) returns (longer: seq<Event>)
    requires Runs(f, run) && Patient(f, run) && AfterAll(f, run) == g
    requires Runs(g, more) && Patient(g, more) && AfterAll(g, more) == h
    ensures longer == run + more && Runs(f, longer) && Patient(f, longer) && AfterAll(f, longer) == h
  {
    RunsJoin(f, run, more);
    PatientJoin(f, run, more);
    longer := run + more;
  }

  lemma StartsWithSix(f: Fetch) returns (run: seq<Event>, g: Fetch)
    requires f == NewFetch(1, 8)
    ensures g == Fetch(1, 8, 6, 0, {}, {1, 2, 3, 4, 5, 6}, 6, true, false, 0, [], 0, 0, 1)
    ensures Runs(f, run) && Patient(f, run) && AfterAll(f, run) == g
  {
    g := Fetch(1, 8, 6, 0, {}, {1, 2, 3, 4, 5, 6}, 6, true, false, 0, [], 0, 0, 1);
    FillsSix();
    TwoEvents(f, Restart, RunFill);
    run := [Restart, RunFill];
  }

  lemma LosesTheRest(f: Fetch) returns (run: seq<Event>, g: Fetch)
    requires f == Fetch(1, 8, 8, 0, {2, 8}, {3, 4, 5, 6, 7}, 5, true, false, 0, [2, 8], 0, 0, 1)
    ensures g == Fetch(1, 8, 8, 0, {2, 8}, {}, 0, false, false, 0, [2, 8], 0, 1, 1)
    ensures Runs(f, run) && Patient(f, run) && AfterAll(f, run) == g
  {
    run := EverythingGivenUp(f);
    g := f.(inFlight := {}, activePipeline := 0, active := false, failures := 1);
  }

  /** Everything has been asked for, so the fill that the last data queued changes nothing. */
  lemma FillsInVain(f: Fetch) returns (run: seq<Event>, g: Fetch)
    requires f.minSend == f.maxSeq && f.fills == 1
    ensures g == f.(fills := 0)
    ensures Runs(f, run) && Patient(f, run) && AfterAll(f, run) == g
  {
    g := f.(fills := 0);
    Happens(f, RunFill);
    run := [RunFill];
  }

  /** The first start for 1..8 receives only 2 and 8 before it fails. */
  lemma FailsWithAGap(f: Fetch) returns (run: seq<Event>, g: Fetch)
    requires f == NewFetch(1, 8)
    ensures g == Fetch(1, 8, 8, 0, {2, 8}, {}, 0, false, false, 0, [2, 8], 0, 1, 1)
    ensures Runs(f, run) && Patient(f, run) && AfterAll(f, run) == g
  {
    var r1, f1 := StartsWithSix(f);
    var r2, f2 := ReceivesTwo(f1);
    var r3, f3 := FillsInVain(f2);
    var r4, f4 := LosesTheRest(f3);
    run := Continues(f, r1, f1, r2, f2);
    run := Continues(f, run, f2, r3, f3);
    run := Continues(f, run, f3, r4, f4);
    g := f4;
  }

  /** A turn of the loop that asks for the next number, giving the set in flight a name. */
  lemma FillAsks(f: Fetch, inFlight: set<int>)
    requires f.minSend < f.maxSeq && f.activePipeline < WINDOW
    requires f.minSend + 1 !in f.outOfOrder + f.inFlight
    requires inFlight == f.inFlight + {f.minSend + 1}
    ensures Fill(f) == Fill(f.(minSend := f.minSend + 1, inFlight := inFlight, activePipeline := f.activePipeline + 1))
  {
  }

  lemma FillsThree()
    ensures Fill(Fetch(1, 8, 0, 0, {}, {}, 0, true, false, 0, [], 0, 0, 1))
      == Fill(Fetch(1, 8, 3, 0, {}, {1, 2, 3}, 3, true, false, 0, [], 0, 0, 1))
  {
    FillAsks(Fetch(1, 8, 0, 0, {}, {}, 0, true, false, 0, [], 0, 0, 1), {1});
    FillAsks(Fetch(1, 8, 1, 0, {}, {1}, 1, true, false, 0, [], 0, 0, 1), {1, 2});
    FillAsks(Fetch(1, 8, 2, 0, {}, {1, 2}, 2, true, false, 0, [], 0, 0, 1), {1, 2, 3});
  }

  lemma FillsThreeMore()
    ensures Fill(Fetch(1, 8, 3, 0, {}, {1, 2, 3}, 3, true, false, 0, [], 0, 0, 1))
      == Fill(Fetch(1, 8, 6, 0, {}, {1, 2, 3, 4, 5, 6}, 6, true, false, 0, [], 0, 0, 1))
  {
    FillAsks(Fetch(1, 8, 3, 0, {}, {1, 2, 3}, 3, true, false, 0, [], 0, 0, 1), {1, 2, 3, 4});
    FillAsks(Fetch(1, 8, 4, 0, {}, {1, 2, 3, 4}, 4, true, false, 0, [], 0, 0, 1), {1, 2, 3, 4, 5});
    FillAsks(Fetch(1, 8, 5, 0, {}, {1, 2, 3, 4, 5}, 5, true, false, 0, [], 0, 0, 1), {1, 2, 3, 4, 5, 6});
  }

  lemma FillsSix()
    ensures Fill(Fetch(1, 8, 0, 0, {}, {}, 0, true, false, 0, [], 0, 0, 1))
      == Fetch(1, 8, 6, 0, {}, {1, 2, 3, 4, 5, 6}, 6, true, false, 0, [], 0, 0, 1)
  {
    FillsThree();
    FillsThreeMore();
  }

  lemma ReceivesTwo(f: Fetch) returns (run: seq<Event>, g: Fetch)
    requires f == Fetch(1, 8, 6, 0, {}, {1, 2, 3, 4, 5, 6}, 6, true, false, 0, [], 0, 0, 1)
    ensures Runs(f, run) && Patient(f, run) && AfterAll(f, run) == g
    ensures g == Fetch(1, 8, 8, 0, {2, 8}, {3, 4, 5, 6, 7}, 5, true, false, 1, [2, 8], 0, 0, 1)
  {
    var f3 := Fetch(1, 8, 6, 0, {}, {2, 3, 4, 5, 6}, 5, true, false, 0, [], 0, 0, 1);
    assert f.inFlight - {1} == f3.inFlight;
    var f4 := Fetch(1, 8, 6, 0, {2}, {3, 4, 5, 6}, 4, true, false, 1, [2], 0, 0, 1);
    ReceivesOutOfOrder(f3, 2, f4);
    TwoEvents(f, GiveUp(1), Data(2));
    g := ReceivesEight(f4);
    TwoEvents(f4, RunFill, Data(8));
    run := Continues(f, [GiveUp(1), Data(2)], f4, [RunFill, Data(8)], g);
  }

  lemma ReceivesEight(f: Fetch) returns (g: Fetch)
    requires f == Fetch(1, 8, 6, 0, {2}, {3, 4, 5, 6}, 4, true, false, 1, [2], 0, 0, 1)
    ensures g == Fetch(1, 8, 8, 0, {2, 8}, {3, 4, 5, 6, 7}, 5, true, false, 1, [2, 8], 0, 0, 1)
    ensures 8 in After(f, RunFill).inFlight && DataReceived(After(f, RunFill), 8) == g
  {
    var filled := Fetch(1, 8, 8, 0, {2}, {3, 4, 5, 6, 7, 8}, 6, true, false, 0, [2], 0, 0, 1);
    FillAsks(f.(fills := 0), {3, 4, 5, 6, 7});
    FillAsks(Fetch(1, 8, 7, 0, {2}, {3, 4, 5, 6, 7}, 5, true, false, 0, [2], 0, 0, 1), filled.inFlight);
    g := Fetch(1, 8, 8, 0, {2, 8}, {3, 4, 5, 6, 7}, 5, true, false, 1, [2, 8], 0, 0, 1);
    ReceivesOutOfOrder(filled, 8, g);
  }

  /** Data that leaves a gap before it. */
  lemma ReceivesOutOfOrder(f: Fetch, s: int, g: Fetch)
    requires Counts(f) && f.maxInOrder + 1 < s && f.maxInOrder < f.maxSeq
    requires g == f.(activePipeline := f.activePipeline - 1, delivered := f.delivered + [s], fills := f.fills + 1,
                     inFlight := g.inFlight, outOfOrder := g.outOfOrder)
    requires g.inFlight == f.inFlight - {s} && g.outOfOrder == f.outOfOrder + {s}
    ensures DataReceived(f, s) == g
  {
    assert f.maxInOrder + 1 !in f.outOfOrder + {s};
    assert Above(f.maxInOrder, f.outOfOrder + {s}) == g.outOfOrder;
  }

  lemma FillsHalfTheGap(f: Fetch)
    requires f == Fetch(1, 8, 0, 0, {2, 8}, {}, 0, true, false, 0, [2, 8], 0, 1, 2)
    ensures Fill(f) == Fill(f.(minSend := 4, inFlight := {1, 3, 4}, activePipeline := 3))
  {
    FillAsks(f, {1});
    FillTurns(f.(minSend := 1, inFlight := {1}, activePipeline := 1));
    FillAsks(f.(minSend := 2, inFlight := {1}, activePipeline := 1), {1, 3});
    FillAsks(f.(minSend := 3, inFlight := {1, 3}, activePipeline := 2), {1, 3, 4});
  }

  /** The second start fills its window with the six missing numbers before it reaches 8. */
  lemma FillsTheGap(f: Fetch)
    requires f == Fetch(1, 8, 0, 0, {2, 8}, {}, 0, true, false, 0, [2, 8], 0, 1, 2)
    ensures Fill(f) == f.(minSend := 7, inFlight := {1, 3, 4, 5, 6, 7}, activePipeline := 6)
  {
    FillsHalfTheGap(f);
    FillAsks(f.(minSend := 4, inFlight := {1, 3, 4}, activePipeline := 3), {1, 3, 4, 5});
    FillAsks(f.(minSend := 5, inFlight := {1, 3, 4, 5}, activePipeline := 4), {1, 3, 4, 5, 6});
    FillAsks(f.(minSend := 6, inFlight := {1, 3, 4, 5, 6}, activePipeline := 5), {1, 3, 4, 5, 6, 7});
  }

  /** The second start, with everything it has not asked for received. */
  lemma StartsAgain(f: Fetch) returns (run: seq<Event>, g: Fetch)
    requires f == Fetch(1, 8, 8, 0, {2, 8}, {}, 0, false, false, 0, [2, 8], 0, 1, 1)
    ensures g == Fetch(1, 8, 7, 0, {2, 8}, {1, 3, 4, 5, 6, 7}, 6, true, false, 0, [2, 8], 0, 1, 2)
    ensures Runs(f, run) && Patient(f, run) && AfterAll(f, run) == g
  {
    g := Fetch(1, 8, 7, 0, {2, 8}, {1, 3, 4, 5, 6, 7}, 6, true, false, 0, [2, 8], 0, 1, 2);
    var restarted := Fetch(1, 8, 0, 0, {2, 8}, {}, 0, true, false, 1, [2, 8], 0, 1, 2);
    FillsTheGap(restarted.(fills := 0));
    TwoEvents(f, Restart, RunFill);
    run := [Restart, RunFill];
  }

  /** The missing first number arrives; its fill is queued behind the data that is already there. */
  lemma ReceivesTheFirst(f: Fetch) returns (run: seq<Event>, g: Fetch)
    requires f == Fetch(1, 8, 7, 0, {2, 8}, {1, 3, 4, 5, 6, 7}, 6, true, false, 0, [2, 8], 0, 1, 2)
    ensures g == Fetch(1, 8, 7, 2, {8}, {3, 4, 5, 6, 7}, 5, true, false, 1, [2, 8, 1], 0, 1, 2)
    ensures Runs(f, run) && Patient(f, run) && AfterAll(f, run) == g
  {
    g := Fetch(1, 8, 7, 2, {8}, {3, 4, 5, 6, 7}, 5, true, false, 1, [2, 8, 1], 0, 1, 2);
    AdvanceIsUnique(0, {2, 8} + {1}, 2);
    assert Above(2, {2, 8} + {1}) == {8};
    assert f.inFlight - {1} == g.inFlight;
    Happens(f, Data(1));
    run := [Data(1)];
  }

  lemma FillsTheGapAtLast() returns (run: seq<Event>, g: Fetch)
    ensures g == Fetch(1, 8, 7, 2, {8}, {3, 4, 5, 6, 7}, 5, true, false, 1, [2, 8, 1], 0, 1, 2)
    ensures Runs(NewFetch(1, 8), run) && Patient(NewFetch(1, 8), run) && AfterAll(NewFetch(1, 8), run) == g
  {
    var f := NewFetch(1, 8);
    var r1, f1 := FailsWithAGap(f);
    var r2, f2 := StartsAgain(f1);
    var r3, f3 := ReceivesTheFirst(f2);
    run := Continues(f, r1, f1, r2, f2);
    run := Continues(f, run, f2, r3, f3);
    g := f3;
  }

  lemma ReceivesAll(f: Fetch) returns (run: seq<Event>)
    requires f == Fetch(1, 8, 7, 2, {8}, {3, 4, 5, 6, 7}, 5, true, false, 1, [2, 8, 1], 0, 1, 2) && FetchOk(f)
    ensures Runs(f, run) && Patient(f, run)
    ensures var g := AfterAll(f, run);
      FetchOk(g) && g.completions == 1 && g.inFlight == {} && g.fills > 0 && g.minSend < g.maxSeq
    ensures run != [] && AfterAll(f, run[..|run| - 1]).completions == 0
  {
    run := CompletesBeforeFilling(f);
  }

  /** One failure and one restart later, all has been received and a queued fill has not caught up with it. */
  lemma CompletesWithAFillQueued() returns (run: seq<Event>, g: Fetch)
    ensures Runs(NewFetch(1, 8), run) && Patient(NewFetch(1, 8), run) && AfterAll(NewFetch(1, 8), run) == g
    ensures FetchOk(g) && g.completions == 1 && g.inFlight == {} && g.fills > 0 && g.minSend < g.maxSeq
    ensures run != [] && AfterAll(NewFetch(1, 8), run[..|run| - 1]).completions == 0
  {
    var f;
    run, f := FillsTheGapAtLast();
    RunKeepsFetchOk(1, 8, run);
    var rest := ReceivesAll(f);
    g := AfterAll(f, rest);
    AllButTheLast(NewFetch(1, 8), run, rest);
    run := Continues(NewFetch(1, 8), run, f, rest, g);
  }

  /** A fetcher that is started again after a failure can report completion twice. */
  lemma RestartCanCompleteTwice() returns (run: seq<Event>)
    ensures Runs(NewFetch(1, 8), run) && Patient(NewFetch(1, 8), run)
    ensures AfterAll(NewFetch(1, 8), run).completions == 2
  {
    var g;
    run, g := CompletesWithAFillQueued();
    var rest := CompletesAgain(g);
    run := Continues(NewFetch(1, 8), run, g, rest, AfterAll(g, rest));
  }

  // ----- the number passed when an interest is re-expressed -----

  /**
   * Segment `seg` arrives under the callback number `tag`; the code passes `seg + 1` after a re-expression.
   * What is recorded then agrees with what arrived exactly when the two numbers are equal or both were there before.
   */
  lemma ShiftedCallbackIff(f: Fetch, seg: int, tag: int)
    requires FetchOk(f) && seg in f.inFlight && f.minSeq <= tag
    ensures (forall k :: IsRecorded(Recorded(f, tag), k) <==> IsRecorded(f, k) || k == seg) <==>
      (tag == seg || (IsRecorded(f, tag) && IsRecorded(f, seg)))
  {
    RecordedAddsOne(f, tag);
    var g := Recorded(f, tag);
    assert IsRecorded(g, tag) && (IsRecorded(g, seg) <==> IsRecorded(f, seg) || seg == tag);
  }

  lemma RecordedAddsOne(f: Fetch, s: int)
    requires Counts(f) && f.minSeq <= s
    ensures forall k :: IsRecorded(Recorded(f, s), k) <==> IsRecorded(f, k) || k == s
  {
    var all := f.outOfOrder + {s};
    var n := Advance(f.maxInOrder, all);
    forall k
      ensures IsRecorded(Recorded(f, s), k) <==> IsRecorded(f, k) || k == s
    {
      if f.maxInOrder < k <= n {
        assert k in all;
      }
    }
  }

  /**
   * The window's counts survive data under the number `tag` exactly when `tag` is in flight; the number that really
   * arrived is then still taken to be in flight, unless it is the same.
   */
  lemma ShiftedCallbackCountsIff(f: Fetch, seg: int, tag: int)
    requires Counts(f) && seg in f.inFlight
    ensures Counts(Recorded(f, tag)) <==> tag in f.inFlight
    ensures seg in Recorded(f, tag).inFlight <==> seg != tag
  {
    if tag in f.inFlight {
      DataKeepsCounts(f, tag);
    } else {
      assert Recorded(f, tag).inFlight == f.inFlight;
    }
  }

  // ----- the object -----

  lemma AdvanceIsUnique(n: int, received: set<int>, r: int)
    requires n <= r && r + 1 !in received && forall k :: n < k <= r ==> k in received
    ensures r == Advance(n, received)
  {
  }

  lemma {:induction false} LeastExists(s: set<int>) returns (x: int)
    requires s != {}
    ensures x in s && forall y :: y in s ==> x <= y
    decreases s
  {
    x := Pick(s);
    var first, rest := x, s - {x};
    assert forall k :: k in s ==> k == first || k in rest;
    if rest != {} {
      var y := LeastExists(rest);
      x := if y < first then y else first;
    }
  }

  class Fetcher {
    const minSeqNo: int
    const maxSeqNo: int
    var minSendSeqNo: int
    var maxInOrderRecvSeqNo: int
    var outOfOrderRecvSeqNo: set<int>
    var inActivePipeline: set<int>
    var activePipeline: int
    var active: bool
    var timedwait: bool
    var fillJobs: nat
    var segments: seq<int>  // calls of the segment callback
    var completions: nat
    var failures: nat
    ghost var starts: nat

    ghost function Value(): Fetch
      reads this
    {
      Fetch(minSeqNo, maxSeqNo, minSendSeqNo, maxInOrderRecvSeqNo, outOfOrderRecvSeqNo, inActivePipeline,
        activePipeline,
            active, timedwait, fillJobs, segments, completions, failures, starts)
    }

    constructor (lo: int, hi: int)
      ensures Value() == NewFetch(lo, hi)
    {
      minSeqNo, maxSeqNo := lo, hi;
      minSendSeqNo, maxInOrderRecvSeqNo := lo - 1, lo - 1;
      outOfOrderRecvSeqNo, inActivePipeline, activePipeline := {}, {}, 0;
      active, timedwait, fillJobs := false, false, 0;
      segments, completions, failures, starts := [], 0, 0, 0;
    }

    method RestartPipeline()
      modifies this
      ensures Value() == Restarted(old(Value()))
      ensures active && minSendSeqNo == maxInOrderRecvSeqNo && fillJobs == old(fillJobs) + 1
    {
      active := true;
      minSendSeqNo := maxInOrderRecvSeqNo;
      fillJobs := fillJobs + 1;
      starts := starts + 1;
    }

    method FillPipeline()
      modifies this
      ensures Value() == Fill(old(Value()))
    {
      while minSendSeqNo < maxSeqNo && activePipeline < WINDOW
        invariant Fill(Value()) == Fill(old(Value()))
        decreases maxSeqNo - minSendSeqNo
      {
        if minSendSeqNo + 1 !in outOfOrderRecvSeqNo && minSendSeqNo + 1 !in inActivePipeline {
          inActivePipeline := inActivePipeline + {minSendSeqNo + 1};
          activePipeline := activePipeline + 1;
        }
        minSendSeqNo := minSendSeqNo + 1;
      }
    }

    /** Walks the ordered set of received numbers as far as it continues the in-order prefix. */
    method AdvanceInOrder()
      modifies this`maxInOrderRecvSeqNo, this`outOfOrderRecvSeqNo
      ensures maxInOrderRecvSeqNo == Advance(old(maxInOrderRecvSeqNo), old(outOfOrderRecvSeqNo))
      ensures outOfOrderRecvSeqNo == Above(maxInOrderRecvSeqNo, old(outOfOrderRecvSeqNo))
    {
      ghost var all, n := outOfOrderRecvSeqNo, maxInOrderRecvSeqNo;
      var rest := outOfOrderRecvSeqNo;
      while rest != {}
        invariant rest <= all && n <= maxInOrderRecvSeqNo
        invariant forall k :: n < k <= maxInOrderRecvSeqNo ==> k in all
        invariant forall k :: k in all && k !in rest ==> k <= maxInOrderRecvSeqNo
        invariant forall k :: k in rest && k <= maxInOrderRecvSeqNo ==> k <= n
        decreases rest
      {
        ghost var least := LeastExists(rest);
        var x :| x in rest && forall y :: y in rest ==> x <= y;
        if x == maxInOrderRecvSeqNo + 1 {
          maxInOrderRecvSeqNo := x;
        } else if x > maxInOrderRecvSeqNo + 1 {
          break;
        }
        rest := rest - {x};
      }
      AdvanceIsUnique(n, all, maxInOrderRecvSeqNo);
      assert forall k :: k in rest <==> k in Above(maxInOrderRecvSeqNo, all);
      outOfOrderRecvSeqNo := rest;
    }

    /** Hands the segment over and takes it off the window. */
    method Record(seqno: int)
      modifies this
      ensures Value() == Recorded(old(Value()), seqno)
    {
      segments := segments + [seqno];
      activePipeline := activePipeline - 1;
      outOfOrderRecvSeqNo := outOfOrderRecvSeqNo + {seqno};
      inActivePipeline := inActivePipeline - {seqno};
      AdvanceInOrder();
    }

    method OnDataExecute(seqno: int)
      modifies this
      ensures Value() == DataReceived(old(Value()), seqno)
    {
      Record(seqno);
      if maxInOrderRecvSeqNo == maxSeqNo {
        active := false;
        timedwait := true;
        completions := completions + 1;
      } else {
        fillJobs := fillJobs + 1;
      }
    }

    /**
     * A timeout gives the number up only if nothing has arrived for the whole inactivity period. Otherwise the
     * interest, which names segment `named`, is expressed again with `tag` as the number of its callbacks.
     */
    method OnTimeoutExecute(seqno: int, named: int, noActivity: bool) returns (reexpress: bool, asked: int, tag: int)
      modifies this
      ensures reexpress == !noActivity
      ensures reexpress ==> asked == named && tag == seqno + 1
      ensures Value() == if noActivity then GivenUp(old(Value()), seqno) else old(Value())
    {
      reexpress, asked, tag := !noActivity, named, seqno + 1;
      if noActivity {
        inActivePipeline := inActivePipeline - {seqno};
        activePipeline := activePipeline - 1;
        if activePipeline == 0 {
          active := false;
          failures := failures + 1;
        }
      }
    }
  }
}
