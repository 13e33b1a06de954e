/** Fetching the contents of files that fetched actions name (src/dispatcher.cc, src/object-db.cc). */
module FileFetches {
  import opened Names
  import opened StateVectors
  import opened ActionLogs
  import Fetchers

  type Hash = seq<byte>

  /** A device's copy of some contents. Its segments are the rows of the database for the hash. */
  datatype File = File(device: Name, hash: Hash)

  type Segment = (File, nat)

  /** An enqueued fetch of the segments below `segments`; `received` have been handed to the dispatcher. */
  datatype FileFetch = FileFetch(file: File, segments: nat, received: set<nat>)

  /**
   * `open` are the keys of m_objectDbMap, `fetches` the file fetches that have not completed, and `notices` the
   * completions announced for copies that were found stored. `arrived` are all segments that ever arrived, `saved` the
   * rows of all databases, and `committed` those rows that other connections can see.
   */
  datatype Files = Files(open: set<Hash>, fetches: map<nat, FileFetch>, nextId: nat, notices: multiset<File>,
    arrived: set<Segment>, saved: set<Segment>, committed: set<Segment>)

  const NO_FILES := Files({}, map[], 0, multiset{}, {}, {}, {})

  // ----- specification functions -----

  function FileOf(a: Action): File
    requires a.what.Upd?
  {
    File(a.device, a.what.meta.hash)
  }

  function Segments(a: Action): nat
    requires a.what.Upd?
  {
    if a.what.meta.segNum > 0 then a.what.meta.segNum else 0
  }

  /** DoesExist: the database has rows of the device, be they all rows of the copy or not. */
  ghost predicate IsStored(s: Files, f: File) {
    exists k :: (f, k) in s.committed
  }

  /** Erasing the handle ends its transaction. */
  function Closed(s: Files, h: Hash): Files {
    if h in s.open
    then s.(open := s.open - {h}, committed := s.committed + set x | x in s.saved && x.0.hash == h)
    else s
  }

  function Started(s: Files, f: File, segments: nat): Files {
    s.(open := s.open + {f.hash}, fetches := s.fetches[s.nextId := FileFetch(f, segments, {})], nextId := s.nextId + 1)
  }

  function Handed(s: Files, i: nat, k: nat): Files
    requires i in s.fetches
  {
    var x := s.fetches[i];
    s.(fetches := s.fetches[i := x.(received := x.received + {k})],
       arrived := s.arrived + {(x.file, k)},
       saved := if x.file.hash in s.open then s.saved + {(x.file, k)} else s.saved)
  }

  // ----- events, in the order in which the dispatcher's executor comes to them -----

  datatype Event =
    | ActionFetched(a: Action)
    | SegmentFetched(i: nat, k: nat)
    | FetchComplete(i: nat)
    | NoticeHandled(f: File)

  /** A fetcher reports completion only when everything has been delivered; see CompletionMeansAllDelivered. */
  predicate Enabled(s: Files, e: Event) {
    match e
    case ActionFetched(_) => true
    case SegmentFetched(i, k) => i in s.fetches && k < s.fetches[i].segments
    case FetchComplete(i) => i in s.fetches && 0 < s.fetches[i].segments && AllReceived(s.fetches[i])
    case NoticeHandled(f) => f in s.notices
  }

  predicate AllReceived(x: FileFetch) {
    forall k :: 0 <= k < x.segments ==> k in x.received
  }

  ghost function After(s: Files, e: Event): Files {
    match e
    case ActionFetched(a) =>
      if a.what.Del? then s
      else if IsStored(s, FileOf(a)) then s.(notices := s.notices + multiset{FileOf(a)})
      else Started(s, FileOf(a), Segments(a))
    case SegmentFetched(i, k) => if i in s.fetches then Handed(s, i, k) else s
    case FetchComplete(i) =>
      if i in s.fetches then Closed(s, s.fetches[i].file.hash).(fetches := s.fetches - {i}) else s
    case NoticeHandled(f) => Closed(s, f.hash).(notices := s.notices - multiset{f})
  }

  ghost predicate Runs(s: Files, run: seq<Event>) {
    run == [] || (Runs(s, run[..|run| - 1]) && Enabled(AfterAll(s, run[..|run| - 1]), run[|run| - 1]))
  }

  ghost function AfterAll(s: Files, run: seq<Event>): Files {
    if run == [] then s else After(AfterAll(s, run[..|run| - 1]), run[|run| - 1])
  }

  /** The fetcher of `n` segments, numbered from 0, completes only if there are any, and then has delivered them all. */
  lemma CompletionMeansAllDelivered(n: nat, run: seq<Fetchers.Event>)
    requires Fetchers.Runs(Fetchers.NewFetch(0, n - 1), run)
    requires Fetchers.AfterAll(Fetchers.NewFetch(0, n - 1), run).completions > 0
    ensures var f := Fetchers.AfterAll(Fetchers.NewFetch(0, n - 1), run);
      n > 0 && forall k :: 0 <= k < n ==> k in f.delivered
  {
    if n == 0 {
      NoSegmentsNoData(run);
    } else {
      Fetchers.RunKeepsFetchOk(0, n - 1, run);
    }
  }

  lemma {:induction false} NoSegmentsNoData(run: seq<Fetchers.Event>)
    requires Fetchers.Runs(Fetchers.NewFetch(0, -1), run)
    ensures var f := Fetchers.AfterAll(Fetchers.NewFetch(0, -1), run);
      f.inFlight == {} && f.completions == 0 && f.minSend == f.maxInOrder == f.maxSeq == -1
  {
    if run != [] {
      NoSegmentsNoData(run[..|run| - 1]);
    }
  }

  lemma OneMore(s: Files, run: seq<Event>, e: Event)
    ensures AfterAll(s, run + [e]) == After(AfterAll(s, run), e)
    ensures Runs(s, run + [e]) <==> Runs(s, run) && Enabled(AfterAll(s, run), e)
  {
    assert (run + [e])[..|run|] == run;
  }

  lemma JoinedStep(s: Files, p: seq<Event>, m: Files, q: seq<Event>, e: Event)
    requires Runs(s, p + q) && AfterAll(s, p + q) == AfterAll(m, q) && Enabled(AfterAll(m, q), e)
    ensures Runs(s, p + (q + [e])) && AfterAll(s, p + (q + [e])) == AfterAll(m, q + [e])
  {
    OneMore(m, q, e);
    OneMore(s, p + q, e);
    assert p + q + [e] == p + (q + [e]);
  }

  lemma {:induction false} RunsJoin(s: Files, p: seq<Event>, q: seq<Event>)
    requires Runs(s, p) && Runs(AfterAll(s, p), q)
    ensures Runs(s, p + q) && AfterAll(s, p + q) == AfterAll(AfterAll(s, p), q)
  {
    if q == [] {
      assert p + q == p;
    } else {
      var m, q', e := AfterAll(s, p), q[..|q| - 1], q[|q| - 1];
      assert q == q' + [e];
      OneMore(m, q', e);
      RunsJoin(s, p, q');
      JoinedStep(s, p, m, q', e);
    }
  }

  /** An update starts a fetch of all segments of the contents it names, unless its copy is stored. */
  lemma ActionStartsFetch(s: Files, a: Action)
    requires a.what.Upd?
    ensures var t, meta := After(s, ActionFetched(a)), a.what.meta;
      if exists k :: (File(a.device, meta.hash), k) in s.committed
      then t.fetches == s.fetches && t.open == s.open && File(a.device, meta.hash) in t.notices
      else
        && s.nextId in t.fetches && t.fetches[s.nextId].file.device == a.device
        && t.fetches[s.nextId].file.hash == meta.hash && meta.hash in t.open
        && (meta.segNum > 0 ==> t.fetches[s.nextId].segments == meta.segNum)
        && t.fetches[s.nextId].received == {} && t.notices == s.notices
  {
  }

  // ----- what every event keeps -----

  ghost predicate FilesOk(s: Files) {
    && (forall i, k :: i in s.fetches && k in s.fetches[i].received ==> (s.fetches[i].file, k) in s.arrived)
    && (forall i :: i in s.fetches ==> i < s.nextId)
    && s.committed <= s.saved <= s.arrived
  }

  lemma StepKeepsFilesOk(s: Files, e: Event)
    requires FilesOk(s) && Enabled(s, e)
    ensures FilesOk(After(s, e))
  {
  }

  /** What the fetches under way have received was saved. */
  ghost predicate ReceivedSaved(s: Files) {
    forall i, k :: i in s.fetches && k in s.fetches[i].received ==> (s.fetches[i].file, k) in s.saved
  }

  predicate Wants(x: FileFetch, f: File, k: nat) {
    x.file == f && k < x.segments
  }

  // ----- exactly when segments on their way can be lost -----

  /** The database for the hash is closed, or something that is under way will close it before `(f, k)` is saved. */
  ghost predicate Closes(s: Files, f: File, k: nat) {
    || f.hash !in s.open
    || (exists i :: i in s.fetches && ClosesBefore(s.fetches[i], f, k))
    || (exists g :: g in s.notices && g.hash == f.hash)
  }

  /** The fetch will close the database, and does not save `(f, k)` itself. */
  predicate ClosesBefore(x: FileFetch, f: File, k: nat) {
    x.segments > 0 && x.file.hash == f.hash && !Wants(x, f, k)
  }

  /** A running fetch still needs a segment that can find its database closed. */
  ghost predicate Threatened(s: Files) {
    exists j, k: nat :: j in s.fetches && IsThreatened(s, s.fetches[j], k)
  }

  ghost predicate IsThreatened(s: Files, x: FileFetch, k: nat) {
    k < x.segments && (x.file, k) !in s.saved && Closes(s, x.file, k)
  }

  /** No new action: the fetches and notices under way take their course. */
  predicate NoActions(run: seq<Event>) {
    forall i :: 0 <= i < |run| ==> !run[i].ActionFetched?
  }

  /** Every segment of the run is in its database after it has been handled. */
  ghost predicate SavesAll(s: Files, run: seq<Event>) {
    run == [] ||
    (SavesAll(s, run[..|run| - 1]) && Saved(AfterAll(s, run[..|run| - 1]), run[|run| - 1]))
  }

  ghost predicate Saved(s: Files, e: Event) {
    e.SegmentFetched? && e.i in s.fetches ==> (s.fetches[e.i].file, e.k) in After(s, e).saved
  }

  lemma CompletionStaysSafe(s: Files, i: nat)
    requires ReceivedSaved(s) && !Threatened(s) && Enabled(s, FetchComplete(i))
    ensures !Threatened(After(s, FetchComplete(i)))
  {
    var t := After(s, FetchComplete(i));
    forall j, k: nat | j in t.fetches && k < t.fetches[j].segments && (t.fetches[j].file, k) !in t.saved
      ensures !Closes(t, t.fetches[j].file, k)
    {
      assert !IsThreatened(s, s.fetches[j], k);
      assert !ClosesBefore(s.fetches[i], s.fetches[j].file, k);
    }
  }

  lemma NoticeStaysSafe(s: Files, f: File)
    requires !Threatened(s) && f in s.notices
    ensures !Threatened(After(s, NoticeHandled(f)))
  {
    var t := After(s, NoticeHandled(f));
    forall j, k: nat | j in t.fetches && k < t.fetches[j].segments && (t.fetches[j].file, k) !in t.saved
      ensures !Closes(t, t.fetches[j].file, k)
    {
      assert !IsThreatened(s, s.fetches[j], k);
    }
  }

  lemma SegmentStaysSafe(s: Files, i: nat, k: nat)
    requires ReceivedSaved(s) && !Threatened(s) && Enabled(s, SegmentFetched(i, k))
    ensures var t := After(s, SegmentFetched(i, k)); ReceivedSaved(t) && !Threatened(t)
    ensures Saved(s, SegmentFetched(i, k))
  {
    var t := After(s, SegmentFetched(i, k));
    assert !IsThreatened(s, s.fetches[i], k);
    forall j, n: nat | j in t.fetches && n < t.fetches[j].segments && (t.fetches[j].file, n) !in t.saved
      ensures !Closes(t, t.fetches[j].file, n)
    {
      assert !IsThreatened(s, s.fetches[j], n);
      forall x | x in t.fetches
        ensures !ClosesBefore(t.fetches[x], t.fetches[j].file, n)
      {
        assert !ClosesBefore(s.fetches[x], t.fetches[j].file, n);
      }
    }
  }

  lemma {:induction false} SafeRunsLoseNothing(s: Files, run: seq<Event>)
    requires ReceivedSaved(s) && !Threatened(s) && Runs(s, run) && NoActions(run)
    ensures SavesAll(s, run) && ReceivedSaved(AfterAll(s, run)) && !Threatened(AfterAll(s, run))
  {
    if run != [] {
      SafeRunsLoseNothing(s, run[..|run| - 1]);
      var m, e := AfterAll(s, run[..|run| - 1]), run[|run| - 1];
      match e {
        case SegmentFetched(i, k) => SegmentStaysSafe(m, i, k);
        case FetchComplete(i) => CompletionStaysSafe(m, i);
        case NoticeHandled(f) => NoticeStaysSafe(m, f);
      }
    }
  }

  /** Only segments of fetch `i` have arrived in between. */
  ghost predicate OnlyFetched(s: Files, t: Files, i: nat) {
    && i in s.fetches && t.fetches.Keys == s.fetches.Keys
    && (forall j :: j in s.fetches && j != i ==> t.fetches[j] == s.fetches[j])
    && t.fetches[i] == s.fetches[i].(received := t.fetches[i].received)
    && t.open == s.open && t.notices == s.notices && t.committed == s.committed && t.nextId == s.nextId
    && s.saved <= t.saved
    && (forall x :: x in t.saved && x !in s.saved ==> Wants(s.fetches[i], x.0, x.1))
  }

  /** The first `n` segments of a fetch can arrive one after the other. */
  lemma {:induction false} SegmentsArrive(s: Files, i: nat, n: nat) returns (run: seq<Event>)
    requires i in s.fetches && n <= s.fetches[i].segments
    ensures Runs(s, run) && NoActions(run) && OnlyFetched(s, AfterAll(s, run), i)
    ensures forall k :: 0 <= k < n ==> k in AfterAll(s, run).fetches[i].received
  {
    if n == 0 {
      run := [];
    } else {
      run := SegmentsArrive(s, i, n - 1);
      OneMore(s, run, SegmentFetched(i, n - 1));
      run := run + [SegmentFetched(i, n - 1)];
    }
  }

  /** A fetch can run to its end, which closes its database. */
  lemma FetchEnds(s: Files, i: nat) returns (run: seq<Event>)
    requires i in s.fetches && s.fetches[i].segments > 0
    ensures Runs(s, run) && NoActions(run)
    ensures var t := AfterAll(s, run);
      && s.fetches[i].file.hash !in t.open && t.fetches.Keys == s.fetches.Keys - {i}
      && (forall j :: j in t.fetches ==> t.fetches[j] == s.fetches[j])
      && (forall x :: x in t.saved ==> x in s.saved || Wants(s.fetches[i], x.0, x.1))
  {
    run := SegmentsArrive(s, i, s.fetches[i].segments);
    OneMore(s, run, FetchComplete(i));
    run := run + [FetchComplete(i)];
  }

  /** A threatened segment's database can be closed before the segment arrives. */
  lemma DatabaseCloses(s: Files, j: nat, k: nat) returns (run: seq<Event>)
    requires j in s.fetches && IsThreatened(s, s.fetches[j], k)
    ensures Runs(s, run) && NoActions(run)
    ensures var t := AfterAll(s, run);
      j in t.fetches && t.fetches[j] == s.fetches[j] && s.fetches[j].file.hash !in t.open
        && (s.fetches[j].file, k) !in t.saved
  {
    var f := s.fetches[j].file;
    if f.hash !in s.open {
      run := [];
    } else if i :| i in s.fetches && ClosesBefore(s.fetches[i], f, k) {
      run := FetchEnds(s, i);
    } else {
      var g :| g in s.notices && g.hash == f.hash;
      OneMore(s, [], NoticeHandled(g));
      run := [] + [NoticeHandled(g)];
    }
  }

  lemma ThreatenedCanLose(s: Files, j: nat, k: nat) returns (run: seq<Event>)
    requires j in s.fetches && IsThreatened(s, s.fetches[j], k)
    ensures Runs(s, run) && NoActions(run)
    ensures !SavesAll(s, run) && (s.fetches[j].file, k) in AfterAll(s, run).arrived - AfterAll(s, run).saved
  {
    run := DatabaseCloses(s, j, k);
    OneMore(s, run, SegmentFetched(j, k));
    assert (run + [SegmentFetched(j, k)])[..|run|] == run;
    run := run + [SegmentFetched(j, k)];
  }

  /**
   * If they have lost nothing so far, the fetches under way can lose a segment exactly when one of them still needs a
   * segment whose database is closed or will be closed by something that does not save the segment first: another
   * running fetch of the same contents that does not fetch this segment, or the notice of a stored copy.
   */
  lemma CanLoseIff(s: Files)
    requires ReceivedSaved(s)
    ensures (exists run :: Runs(s, run) && NoActions(run) && !SavesAll(s, run)) <==> Threatened(s)
  {
    if Threatened(s) {
      var j, k: nat :| j in s.fetches && IsThreatened(s, s.fetches[j], k);
      var run := ThreatenedCanLose(s, j, k);
    } else {
      forall run | Runs(s, run) && NoActions(run)
        ensures SavesAll(s, run)
      {
        SafeRunsLoseNothing(s, run);
      }
    }
  }

  // ----- exactly which actions can make a device lose segments -----

  /** `a` and `b` name the contents `h`, and a fetch for `a` does not bring every segment that one for `b` needs. */
  predicate Clash(a: Action, b: Action, h: Hash) {
    && a.what.Upd? && b.what.Upd? && FileOf(a).hash == FileOf(b).hash == h && Segments(a) > 0
    && Segments(b) > if a.device == b.device then Segments(a) else 0
  }

  ghost predicate OnlyActions(run: seq<Event>, actions: set<Action>) {
    forall i :: 0 <= i < |run| && run[i].ActionFetched? ==> run[i].a in actions
  }

  /** What arrived of the contents was saved. */
  ghost predicate NothingLostOf(s: Files, h: Hash) {
    forall x :: x in s.arrived && x.0.hash == h ==> x in s.saved
  }

  /** All segments of the contents that the actions ask for have been saved. */
  ghost predicate WhollySaved(s: Files, actions: set<Action>, h: Hash) {
    forall a, k: nat :: a in actions && a.what.Upd? && FileOf(a).hash == h && k < Segments(a) ==>
      (FileOf(a), k) in s.saved
  }

  ghost predicate IsFor(x: FileFetch, actions: set<Action>) {
    exists a :: a in actions && a.what.Upd? && FileOf(a) == x.file && Segments(a) == x.segments
  }

  /** The action asks for the segment. */
  predicate AsksFor(a: Action, x: Segment) {
    a.what.Upd? && FileOf(a) == x.0 && x.1 < Segments(a)
  }

  /** Everything under way is for one of the actions. */
  ghost predicate AllFor(s: Files, actions: set<Action>) {
    && (forall i :: i in s.fetches ==> IsFor(s.fetches[i], actions))
    && (forall x :: x in s.arrived ==> exists a :: a in actions && AsksFor(a, x))
  }

  /** The database for the contents is closed only when all that it is for has been saved. */
  ghost predicate ClosedWhenDone(s: Files, actions: set<Action>, h: Hash) {
    && ((exists i :: i in s.fetches && s.fetches[i].file.hash == h) && h !in s.open ==> WhollySaved(s, actions, h))
    && ((exists f :: f in s.notices && f.hash == h) ==> WhollySaved(s, actions, h))
    && ((exists x :: x in s.committed && x.0.hash == h) ==> WhollySaved(s, actions, h))
  }

  ghost predicate NoClash(actions: set<Action>, h: Hash) {
    forall a, b :: a in actions && b in actions ==> !Clash(a, b, h)
  }

  lemma ArrivalStaysFor(s: Files, actions: set<Action>, i: nat, k: nat)
    requires AllFor(s, actions) && Enabled(s, SegmentFetched(i, k))
    ensures AllFor(Handed(s, i, k), actions)
  {
    var t := Handed(s, i, k);
    forall j | j in t.fetches
      ensures IsFor(t.fetches[j], actions)
    {
      assert IsFor(s.fetches[j], actions);
    }
    assert IsFor(s.fetches[i], actions);
    var a :| a in actions && a.what.Upd? && FileOf(a) == s.fetches[i].file && Segments(a) == s.fetches[i].segments;
    assert AsksFor(a, (s.fetches[i].file, k));
  }

  lemma StepStaysFor(s: Files, actions: set<Action>, e: Event)
    requires AllFor(s, actions) && Enabled(s, e) && (e.ActionFetched? ==> e.a in actions)
    ensures AllFor(After(s, e), actions)
  {
    if e.SegmentFetched? {
      ArrivalStaysFor(s, actions, e.i, e.k);
      return;
    }
    var t := After(s, e);
    forall j | j in t.fetches
      ensures IsFor(t.fetches[j], actions)
    {
      if j in s.fetches {
        assert IsFor(s.fetches[j], actions);
      }
    }
  }

  lemma CompletionSavesAll(s: Files, actions: set<Action>, i: nat)
    requires i in s.fetches && NoClash(actions, s.fetches[i].file.hash) && AllFor(s, actions)
    requires FilesOk(s) && NothingLostOf(s, s.fetches[i].file.hash) && Enabled(s, FetchComplete(i))
    ensures WhollySaved(s, actions, s.fetches[i].file.hash)
  {
    assert IsFor(s.fetches[i], actions);
    var a :| a in actions && a.what.Upd? && FileOf(a) == s.fetches[i].file && Segments(a) == s.fetches[i].segments;
    forall b, k: nat | b in actions && b.what.Upd? && FileOf(b).hash == FileOf(a).hash && k < Segments(b)
      ensures (FileOf(b), k) in s.saved
    {
      assert !Clash(a, b, FileOf(a).hash);
      assert k in s.fetches[i].received;
    }
  }

  /** A step that loses none of the contents: all of them is saved already, or the database stays open. */
  lemma StaysDone(s: Files, t: Files, actions: set<Action>, h: Hash)
    requires NothingLostOf(s, h) && s.saved <= t.saved
    requires forall x :: x in t.arrived && x.0.hash == h ==> x in s.arrived || x in t.saved
    requires WhollySaved(s, actions, h) || (NothingNew(s, t, h) && ClosedWhenDone(s, actions, h))
    ensures NothingLostOf(t, h) && ClosedWhenDone(t, actions, h)
  {
    assert WhollySaved(s, actions, h) ==> WhollySaved(t, actions, h);
  }

  /** No fetch finds the database newly closed, and there are no new notices and no new commits. */
  ghost predicate NothingNew(s: Files, t: Files, h: Hash) {
    && (h in t.open || (h !in s.open &&
         forall i :: i in t.fetches && t.fetches[i].file.hash == h ==> i in s.fetches && s.fetches[i].file.hash == h))
    && (forall f :: f in t.notices && f.hash == h ==> f in s.notices)
    && (forall x :: x in t.committed && x.0.hash == h ==> x in s.committed)
  }

  lemma ArrivalStaysDone(s: Files, actions: set<Action>, h: Hash, i: nat, k: nat)
    requires AllFor(s, actions) && NothingLostOf(s, h) && ClosedWhenDone(s, actions, h)
    requires Enabled(s, SegmentFetched(i, k))
    ensures NothingLostOf(Handed(s, i, k), h) && ClosedWhenDone(Handed(s, i, k), actions, h)
  {
    if s.fetches[i].file.hash == h && h !in s.open {
      assert IsFor(s.fetches[i], actions);
      assert (s.fetches[i].file, k) in s.saved;
    }
    StaysDone(s, Handed(s, i, k), actions, h);
  }

  lemma ActionStaysDone(s: Files, actions: set<Action>, h: Hash, a: Action)
    requires NothingLostOf(s, h) && ClosedWhenDone(s, actions, h)
    ensures NothingLostOf(After(s, ActionFetched(a)), h) && ClosedWhenDone(After(s, ActionFetched(a)), actions, h)
  {
    if a.what.Upd? && IsStored(s, FileOf(a)) && FileOf(a).hash == h {
      assert WhollySaved(s, actions, h);
    }
    StaysDone(s, After(s, ActionFetched(a)), actions, h);
  }

  lemma CompletionStaysDone(s: Files, actions: set<Action>, h: Hash, i: nat)
    requires FilesOk(s) && AllFor(s, actions) && NothingLostOf(s, h) && ClosedWhenDone(s, actions, h)
    requires NoClash(actions, h) && Enabled(s, FetchComplete(i))
    ensures NothingLostOf(After(s, FetchComplete(i)), h) && ClosedWhenDone(After(s, FetchComplete(i)), actions, h)
  {
    if s.fetches[i].file.hash == h {
      CompletionSavesAll(s, actions, i);
    }
    StaysDone(s, After(s, FetchComplete(i)), actions, h);
  }

  lemma NoticeStaysDone(s: Files, actions: set<Action>, h: Hash, f: File)
    requires NothingLostOf(s, h) && ClosedWhenDone(s, actions, h) && f in s.notices
    ensures NothingLostOf(After(s, NoticeHandled(f)), h) && ClosedWhenDone(After(s, NoticeHandled(f)), actions, h)
  {
    StaysDone(s, After(s, NoticeHandled(f)), actions, h);
  }

  lemma {:induction false} WithoutClashesNothingIsLost(actions: set<Action>, h: Hash, run: seq<Event>)
    requires Runs(NO_FILES, run) && OnlyActions(run, actions)
    ensures FilesOk(AfterAll(NO_FILES, run)) && AllFor(AfterAll(NO_FILES, run), actions)
    ensures NoClash(actions, h) ==>
      NothingLostOf(AfterAll(NO_FILES, run), h) && ClosedWhenDone(AfterAll(NO_FILES, run), actions, h)
  {
    if run != [] {
      WithoutClashesNothingIsLost(actions, h, run[..|run| - 1]);
      var s, e := AfterAll(NO_FILES, run[..|run| - 1]), run[|run| - 1];
      StepKeepsFilesOk(s, e);
      StepStaysFor(s, actions, e);
      if NoClash(actions, h) {
        match e {
          case ActionFetched(a) => ActionStaysDone(s, actions, h, a);
          case SegmentFetched(i, k) => ArrivalStaysDone(s, actions, h, i, k);
          case FetchComplete(i) => CompletionStaysDone(s, actions, h, i);
          case NoticeHandled(f) => NoticeStaysDone(s, actions, h, f);
        }
      }
    }
  }

  /** Two actions are fetched one after the other, and so are begun the fetches of what they name. */
  lemma BothFetch(a: Action, b: Action) returns (run: seq<Event>)
    requires a.what.Upd? && b.what.Upd?
    ensures Runs(NO_FILES, run) && OnlyActions(run, {a, b})
    ensures AfterAll(NO_FILES, run) == Started(Started(NO_FILES, FileOf(a), Segments(a)), FileOf(b), Segments(b))
  {
    OneMore(NO_FILES, [], ActionFetched(a));
    run := [] + [ActionFetched(a)];
    OneMore(NO_FILES, run, ActionFetched(b));
    run := run + [ActionFetched(b)];
  }

  lemma TwoAreThreatened(a: Action, b: Action, h: Hash) returns (k: nat)
    requires Clash(a, b, h)
    ensures var s := Started(Started(NO_FILES, FileOf(a), Segments(a)), FileOf(b), Segments(b));
      1 in s.fetches && s.fetches[1].file == FileOf(b) && k < Segments(b) && IsThreatened(s, s.fetches[1], k)
  {
    var s := Started(Started(NO_FILES, FileOf(a), Segments(a)), FileOf(b), Segments(b));
    k := if a.device == b.device then Segments(a) else 0;
    assert 0 in s.fetches && ClosesBefore(s.fetches[0], FileOf(b), k);
  }

  /** What is under way takes its course after a run that fetches only some actions. */
  lemma OnlyThoseActions(s: Files, run: seq<Event>, actions: set<Action>, rest: seq<Event>)
    requires Runs(s, run) && OnlyActions(run, actions) && Runs(AfterAll(s, run), rest) && NoActions(rest)
    ensures Runs(s, run + rest) && OnlyActions(run + rest, actions)
    ensures AfterAll(s, run + rest) == AfterAll(AfterAll(s, run), rest)
  {
    RunsJoin(s, run, rest);
  }

  /**
   * When two actions clash, the fetch for the one can end and close the database before a segment that only the other
   * fetches arrives.
   */
  lemma SharedContentsLoseSegments(a: Action, b: Action, h: Hash) returns (run: seq<Event>, k: nat)
    requires Clash(a, b, h)
    ensures Runs(NO_FILES, run) && OnlyActions(run, {a, b}) && k < Segments(b)
    ensures (FileOf(b), k) in AfterAll(NO_FILES, run).arrived - AfterAll(NO_FILES, run).saved
  {
    run := BothFetch(a, b);
    k := TwoAreThreatened(a, b, h);
    var rest := ThreatenedCanLose(AfterAll(NO_FILES, run), 1, k);
    OnlyThoseActions(NO_FILES, run, {a, b}, rest);
    run := run + rest;
  }

  /**
   * A device that starts without any files and fetches only the given actions can lose a segment of the contents `h`
   * exactly when two of the actions clash: they name `h` from two devices, or with different numbers of segments.
   */
  lemma ActionsCanLoseIff(actions: set<Action>, h: Hash)
    ensures
      (exists run :: Runs(NO_FILES, run) && OnlyActions(run, actions) && !NothingLostOf(AfterAll(NO_FILES, run), h))
      <==> !NoClash(actions, h)
  {
    if NoClash(actions, h) {
      forall run | Runs(NO_FILES, run) && OnlyActions(run, actions)
        ensures NothingLostOf(AfterAll(NO_FILES, run), h)
      {
        WithoutClashesNothingIsLost(actions, h, run);
      }
    } else {
      var a, b :| a in actions && b in actions && Clash(a, b, h);
      var run, k := SharedContentsLoseSegments(a, b, h);
      assert !NothingLostOf(AfterAll(NO_FILES, run), h);
    }
  }

  // ----- exactly when a missing segment can still be saved -----

  /** No fetch will bring the segment, and none will be started, because the copy counts as stored. */
  ghost predicate NeverSaved(s: Files, f: File, k: nat) {
    (f, k) !in s.saved && IsStored(s, f) && forall i :: i in s.fetches ==> !Wants(s.fetches[i], f, k)
  }

  lemma {:induction false} NeverSavedStays(s: Files, f: File, k: nat, run: seq<Event>)
    requires NeverSaved(s, f, k) && Runs(s, run)
    ensures NeverSaved(AfterAll(s, run), f, k)
  {
    if run != [] {
      NeverSavedStays(s, f, k, run[..|run| - 1]);
      var m, e := AfterAll(s, run[..|run| - 1]), run[|run| - 1];
      var n :| (f, n) in m.committed;
      assert (f, n) in After(m, e).committed;
    }
  }

  lemma {:induction false} NewDevice(rows: set<Segment>) returns (d: Name)
    ensures forall x :: x in rows ==> |x.0.device| < |d|
  {
    if rows == {} {
      d := [];
      return;
    }
    var x :| x in rows;
    var rest := rows - {x};
    d := NewDevice(rest);
    assert forall y :: y in rows ==> y == x || y in rest;
    if |d| <= |x.0.device| {
      d := x.0.device + [0];
    }
  }

  /** An action of a device without stored rows opens the database for its contents. */
  lemma Opens(s: Files, h: Hash) returns (run: seq<Event>)
    requires FilesOk(s)
    ensures Runs(s, run) && h in AfterAll(s, run).open
    ensures forall i :: i in s.fetches ==> i in AfterAll(s, run).fetches && AfterAll(s, run).fetches[i] == s.fetches[i]
  {
    var d := NewDevice(s.committed);
    var a := Action(d, 1, "", 0, Upd(FileMeta(h, 0, 0, 1)), None);
    assert !IsStored(s, FileOf(a));
    OneMore(s, [], ActionFetched(a));
    run := [] + [ActionFetched(a)];
  }

  lemma FetchSaves(s: Files, i: nat, k: nat) returns (run: seq<Event>)
    requires FilesOk(s) && i in s.fetches && k < s.fetches[i].segments
    ensures Runs(s, run) && (s.fetches[i].file, k) in AfterAll(s, run).saved
  {
    run := Opens(s, s.fetches[i].file.hash);
    OneMore(s, run, SegmentFetched(i, k));
    run := run + [SegmentFetched(i, k)];
  }

  lemma UnstoredCanBeSaved(s: Files, f: File, k: nat) returns (run: seq<Event>)
    requires FilesOk(s) && !IsStored(s, f)
    ensures Runs(s, run) && (f, k) in AfterAll(s, run).saved
  {
    var a := Action(f.device, 1, "", 0, Upd(FileMeta(f.hash, 0, 0, k + 1)), None);
    OneMore(s, [], ActionFetched(a));
    StepKeepsFilesOk(s, ActionFetched(a));
    var rest := FetchSaves(After(s, ActionFetched(a)), s.nextId, k);
    RunsJoin(s, [] + [ActionFetched(a)], rest);
    run := [] + [ActionFetched(a)] + rest;
  }

  ghost predicate Saves(s: Files, run: seq<Event>, f: File, k: nat) {
    Runs(s, run) && (f, k) in AfterAll(s, run).saved
  }

  /** Some run, with whatever actions, saves the segment in the end, unless the copy counts as stored without it. */
  lemma CanBeSavedIff(s: Files, f: File, k: nat)
    requires FilesOk(s)
    ensures (exists run :: Saves(s, run, f, k)) <==> !NeverSaved(s, f, k)
  {
    if NeverSaved(s, f, k) {
      forall run | Runs(s, run)
        ensures !Saves(s, run, f, k)
      {
        NeverSavedStays(s, f, k, run);
      }
    } else if (f, k) in s.saved {
      assert Saves(s, [], f, k);
    } else if i :| i in s.fetches && Wants(s.fetches[i], f, k) {
      var run := FetchSaves(s, i, k);
      assert Saves(s, run, f, k);
    } else {
      var run := UnstoredCanBeSaved(s, f, k);
      assert Saves(s, run, f, k);
    }
  }

  /** A fetch can end and commit what another has saved under the same hash. */
  lemma FirstEnds(s: Files, i: nat, f: File) returns (run: seq<Event>)
    requires i in s.fetches && s.fetches[i].segments > 0 && s.fetches[i].file.hash == f.hash
    requires f.hash in s.open && (f, 0) in s.saved
    ensures Runs(s, run) && NoActions(run)
    ensures var t := AfterAll(s, run);
      && t.fetches == s.fetches - {i} && f.hash !in t.open && (f, 0) in t.committed
      && forall k :: (f, k) in t.saved ==> (f, k) in s.saved || Wants(s.fetches[i], f, k)
  {
    run := SegmentsArrive(s, i, s.fetches[i].segments);
    OneMore(s, run, FetchComplete(i));
    run := run + [FetchComplete(i)];
    assert AfterAll(s, run).fetches == s.fetches - {i};
  }

  /** With its database closed, a fetch ends without saving anything. */
  lemma EndsInVain(s: Files, i: nat) returns (run: seq<Event>)
    requires i in s.fetches && s.fetches[i].segments > 0 && s.fetches[i].file.hash !in s.open
    ensures Runs(s, run) && NoActions(run)
    ensures var t := AfterAll(s, run);
      t.fetches == s.fetches - {i} && t.saved == s.saved && s.committed <= t.committed
        && forall k :: 0 <= k < s.fetches[i].segments ==> (s.fetches[i].file, k) in t.arrived
  {
    run := NothingIsSaved(s, i, s.fetches[i].segments);
    OneMore(s, run, FetchComplete(i));
    run := run + [FetchComplete(i)];
    assert AfterAll(s, run).fetches == s.fetches - {i};
  }

  lemma {:induction false} NothingIsSaved(s: Files, i: nat, n: nat) returns (run: seq<Event>)
    requires i in s.fetches && n <= s.fetches[i].segments && s.fetches[i].file.hash !in s.open
    ensures Runs(s, run) && NoActions(run) && OnlyFetched(s, AfterAll(s, run), i)
    ensures AfterAll(s, run).saved == s.saved
    ensures forall k :: 0 <= k < n ==>
      k in AfterAll(s, run).fetches[i].received && (s.fetches[i].file, k) in AfterAll(s, run).arrived
  {
    if n == 0 {
      run := [];
    } else {
      run := NothingIsSaved(s, i, n - 1);
      OneMore(s, run, SegmentFetched(i, n - 1));
      run := run + [SegmentFetched(i, n - 1)];
    }
  }

  /** Fetch 0 ends, and then fetch 1 for `f`, of which one segment has been saved. */
  lemma LosesTheRest(s: Files, f: File, k: nat) returns (run: seq<Event>)
    requires s.fetches.Keys == {0, 1} && ClosesBefore(s.fetches[0], f, k) && Wants(s.fetches[1], f, k)
    requires f.hash in s.open && (f, 0) in s.saved && (f, k) !in s.saved
    ensures Runs(s, run) && NoActions(run)
    ensures var t := AfterAll(s, run); (f, k) in t.arrived && NeverSaved(t, f, k)
  {
    var p := FirstEnds(s, 0, f);
    var q := EndsInVain(AfterAll(s, p), 1);
    RunsJoin(s, p, q);
    run := p + q;
  }

  lemma FirstOfTwo(f: File, m: nat, g: File, n: nat)
    requires f.hash == g.hash && n > 0
    ensures var t := Started(Started(NO_FILES, f, m), g, n);
      var s := After(t, SegmentFetched(1, 0));
      && Enabled(t, SegmentFetched(1, 0))
      && s.fetches.Keys == {0, 1} && s.open == {f.hash} && s.saved == {(g, 0)}
      && s.fetches[0] == FileFetch(f, m, {}) && s.fetches[1] == FileFetch(g, n, {0})
  {
  }

  lemma OneMoreSegment(s: Files, run: seq<Event>, actions: set<Action>, i: nat, k: nat) returns (longer: seq<Event>)
    requires Runs(s, run) && OnlyActions(run, actions) && Enabled(AfterAll(s, run), SegmentFetched(i, k))
    ensures Runs(s, longer) && OnlyActions(longer, actions)
    ensures AfterAll(s, longer) == After(AfterAll(s, run), SegmentFetched(i, k))
  {
    OneMore(s, run, SegmentFetched(i, k));
    longer := run + [SegmentFetched(i, k)];
  }

  lemma FirstSegmentIsSaved(a: Action, b: Action, h: Hash) returns (run: seq<Event>)
    requires Clash(a, b, h)
    ensures Runs(NO_FILES, run) && OnlyActions(run, {a, b})
    ensures var s := AfterAll(NO_FILES, run);
      && s.fetches.Keys == {0, 1} && s.open == {h} && s.saved == {(FileOf(b), 0)}
      && s.fetches[0] == FileFetch(FileOf(a), Segments(a), {})
      && s.fetches[1].file == FileOf(b) && s.fetches[1].segments == Segments(b)
  {
    run := BothFetch(a, b);
    FirstOfTwo(FileOf(a), Segments(a), FileOf(b), Segments(b));
    run := OneMoreSegment(NO_FILES, run, {a, b}, 1, 0);
  }

  /** A clash in which some segment of the copy that suffers can be saved before the other fetch ends. */
  predicate ClashForGood(a: Action, b: Action, h: Hash) {
    Clash(a, b, h) && (a.device == b.device || Segments(b) > 1)
  }

  /**
   * The first segment of one copy is saved, the fetch of the other ends and commits it, and the rest of the first copy
   * is lost and never fetched again.
   */
  lemma SharedContentsLoseForGood(a: Action, b: Action, h: Hash) returns (run: seq<Event>, k: nat)
    requires ClashForGood(a, b, h)
    ensures Runs(NO_FILES, run) && OnlyActions(run, {a, b})
    ensures var s := AfterAll(NO_FILES, run); (FileOf(b), k) in s.arrived && NeverSaved(s, FileOf(b), k)
  {
    run := FirstSegmentIsSaved(a, b, h);
    k := if a.device == b.device then Segments(a) else 1;
    var rest := LosesTheRest(AfterAll(NO_FILES, run), FileOf(b), k);
    OnlyThoseActions(NO_FILES, run, {a, b}, rest);
    run := run + rest;
  }

  ghost predicate LosesForGood(run: seq<Event>, actions: set<Action>, f: File, k: nat) {
    Runs(NO_FILES, run) && OnlyActions(run, actions) &&
    (f, k) in AfterAll(NO_FILES, run).arrived && NeverSaved(AfterAll(NO_FILES, run), f, k)
  }

  /** A copy of which one segment is stored and another was lost has two segments, and then some two actions clash. */
  lemma LossForGoodClashes(actions: set<Action>, run: seq<Event>, f: File, k: nat)
    requires LosesForGood(run, actions, f, k)
    ensures exists a, b :: a in actions && b in actions && ClashForGood(a, b, f.hash)
  {
    var s := AfterAll(NO_FILES, run);
    WithoutClashesNothingIsLost(actions, f.hash, run);
    var n :| (f, n) in s.committed;
    var x := if n > k then (f, n) else (f, k);
    assert x in s.arrived && x.1 > 0;
    var c :| c in actions && AsksFor(c, x);
    var a, b :| a in actions && b in actions && Clash(a, b, f.hash);
    assert ClashForGood(a, b, f.hash) || ClashForGood(a, c, f.hash) || ClashForGood(b, c, f.hash);
  }

  /** A segment of the contents can be lost for good exactly when two of the actions clash in that way. */
  lemma ActionsCanLoseForGoodIff(actions: set<Action>, h: Hash)
    ensures (exists run, f: File, k: nat :: f.hash == h && LosesForGood(run, actions, f, k)) <==>
      exists a, b :: a in actions && b in actions && ClashForGood(a, b, h)
  {
    if run, f: File, k: nat :| f.hash == h && LosesForGood(run, actions, f, k) {
      LossForGoodClashes(actions, run, f, k);
    }
    if a, b :| a in actions && b in actions && ClashForGood(a, b, h) {
      var run, k := SharedContentsLoseForGood(a, b, h);
      assert LosesForGood(run, actions, FileOf(b), k);
    }
  }

  // ----- the object -----

  /** The dispatcher's part, with the rows of the object databases and the file fetches of the fetch manager. */
  class Dispatcher {
    var objectDbs: set<Hash>
    var fetches: map<nat, FileFetch>
    var nextId: nat
    var notices: multiset<File>
    var rows: set<Segment>
    var committed: set<Segment>
    ghost var arrived: set<Segment>

    ghost function Value(): Files
      reads this
    {
      Files(objectDbs, fetches, nextId, notices, arrived, rows, committed)
    }

    constructor ()
      ensures Value() == NO_FILES
    {
      objectDbs, fetches, nextId, notices := {}, map[], 0, multiset{};
      rows, committed, arrived := {}, {}, {};
    }

    method DoesExist(file: File) returns (stored: bool)
      ensures stored <==> IsStored(Value(), file)
    {
      var found := set x | x in committed && x.0 == file;
      stored := found != {};
      assert forall k :: (file, k) in committed ==> (file, k) in found;
      if stored {
        var x :| x in found;
        assert (file, x.1) in committed;
      }
    }

    /** `action` is what AddRemoteAction returned, None if it could not be decoded. */
    method DidActionFetch(action: Option<Action>)
      modifies this
      ensures Value() == if action.Some? then After(old(Value()), ActionFetched(action.value)) else old(Value())
    {
      if action.None? {
        return;
      }
      if action.value.what.Upd? {
        var file := FileOf(action.value);
        var stored := DoesExist(file);
        if stored {
          notices := notices + multiset{file};
        } else {
          if file.hash !in objectDbs {
            objectDbs := objectDbs + {file.hash};
          }
          fetches, nextId := fetches[nextId := FileFetch(file, Segments(action.value), {})], nextId + 1;
        }
      }
    }

    /** Erases the handle of the hash, which commits what was saved through it. */
    method CloseObjectDb(hash: Hash)
      modifies this`objectDbs, this`committed
      ensures Value() == Closed(old(Value()), hash)
    {
      if hash in objectDbs {
        objectDbs := objectDbs - {hash};
        committed := committed + set x | x in rows && x.0.hash == hash;
      }
    }

    method DidFileSegmentFetch(i: nat, segment: nat)
      requires i in fetches
      modifies this
      ensures Value() == After(old(Value()), SegmentFetched(i, segment))
    {
      var x := fetches[i];
      fetches := fetches[i := x.(received := x.received + {segment})];
      arrived := arrived + {(x.file, segment)};
      if x.file.hash in objectDbs {
        rows := rows + {(x.file, segment)};
      }
    }

    /** The end of one file fetch. */
    method DidFileFetchComplete(i: nat)
      requires i in fetches
      modifies this
      ensures Value() == After(old(Value()), FetchComplete(i))
    {
      CloseObjectDb(fetches[i].file.hash);
      fetches := fetches - {i};
    }

    /** The same job for a copy that was found stored. */
    method DidFindStored(file: File)
      modifies this
      ensures Value() == After(old(Value()), NoticeHandled(file))
    {
      CloseObjectDb(file.hash);
      notices := notices - multiset{file};
    }
  }
}
