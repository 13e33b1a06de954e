/** The sync protocol makes all advertised roots agree once no new local changes are made. */
module Convergence {
  import opened Names
  import opened StateVectors
  import opened SyncLogs
  import opened SyncCores
  import opened Replicas

  function Root(s: System, n: Name): State
    requires n in s.nodes
  {
    s.nodes[n].core.root.preimage
  }

  /** The exact counters of all devices: what everybody should end up knowing. */
  function Counters(ledger: Ledger): State {
    map d | d in ledger :: |ledger[d]|
  }

  /** No event of the run is a new local change. */
  predicate Quiet(run: seq<(Name, Event)>) {
    forall i :: 0 <= i < |run| ==> !run[i].1.LocalAction?
  }

  /** Nor is any of them a restart, or a fetch that comes to nothing. */
  predicate Calm(run: seq<(Name, Event)>) {
    forall i :: 0 <= i < |run| ==> IsCalm(run[i].1)
  }

  predicate IsCalm(e: Event) {
    !e.LocalAction? && !e.Restart? && !e.Abandon?
  }

  // ----- the measure -----

  /** Rank of a device in a state: an unknown device ranks below sequence number 0. */
  function Rank(m: State, d: Name): nat { if d in m then m[d] + 1 else 0 }

  function Gap(m: State, top: State, d: Name): nat {
    if Rank(m, d) <= Rank(top, d) then Rank(top, d) - Rank(m, d) else 0
  }

  ghost function Sum(keys: set<Name>, f: Name -> nat): nat {
    if keys == {} then 0
    else
      var k :| k in keys;
      f(k) + Sum(keys - {k}, f)
  }

  lemma {:induction false} SumTakeOut(keys: set<Name>, f: Name -> nat, x: Name)
    requires x in keys
    ensures Sum(keys, f) == f(x) + Sum(keys - {x}, f)
    decreases keys
  {
    var k :| k in keys && Sum(keys, f) == f(k) + Sum(keys - {k}, f);
    if k != x {
      SumTakeOut(keys - {k}, f, x);
      SumTakeOut(keys - {x}, f, k);
      assert keys - {k} - {x} == keys - {x} - {k};
    }
  }

  lemma {:induction false} SumMonotone(keys: set<Name>, f: Name -> nat, g: Name -> nat)
    requires forall k :: k in keys ==> f(k) <= g(k)
    ensures Sum(keys, f) <= Sum(keys, g)
    ensures (exists k :: k in keys && f(k) < g(k)) ==> Sum(keys, f) < Sum(keys, g)
    decreases keys
  {
    if keys != {} {
      var x :| x in keys && ((exists k :: k in keys && f(k) < g(k)) ==> f(x) < g(x));
      SumTakeOut(keys, f, x);
      SumTakeOut(keys, g, x);
      SumMonotone(keys - {x}, f, g);
    }
  }

  /** How much the advertised root `m` misses. */
  ghost function NodeGap(m: State, top: State): nat {
    Sum(top.Keys, d => Gap(m, top, d))
  }

  ghost function MissingAt(s: System, n: Name): nat {
    if n in s.nodes then NodeGap(Root(s, n), Counters(s.ledger)) else 0
  }

  ghost function MissingIn(s: System, names: set<Name>): nat {
    if names == {} then 0
    else
      var n :| n in names;
      MissingAt(s, n) + MissingIn(s, names - {n})
  }

  /** The sum, over all devices, of all missing sequence numbers. */
  ghost function Missing(s: System): nat {
    MissingIn(s, s.nodes.Keys)
  }

  lemma {:induction false} MissingIsSum(s: System, names: set<Name>, f: Name -> nat)
    requires forall n :: n in names ==> f(n) == MissingAt(s, n)
    ensures MissingIn(s, names) == Sum(names, f)
    decreases names
  {
    if names != {} {
      var n :| n in names && MissingIn(s, names) == MissingAt(s, n) + MissingIn(s, names - {n});
      SumTakeOut(names, f, n);
      MissingIsSum(s, names - {n}, f);
    }
  }

  /** Where no device misses more, no more is missing, and less if one of them misses less. */
  lemma MissingIsMonotone(s: System, t: System)
    requires t.nodes.Keys == s.nodes.Keys
    requires forall n :: n in s.nodes ==> MissingAt(t, n) <= MissingAt(s, n)
    ensures Missing(t) <= Missing(s)
    ensures (exists n :: n in s.nodes && MissingAt(t, n) < MissingAt(s, n)) ==> Missing(t) < Missing(s)
  {
    var f: Name -> nat, g: Name -> nat := n => MissingAt(t, n), n => MissingAt(s, n);
    MissingIsSum(t, t.nodes.Keys, f);
    MissingIsSum(s, s.nodes.Keys, g);
    SumMonotone(s.nodes.Keys, f, g);
    if n :| n in s.nodes && MissingAt(t, n) < MissingAt(s, n) {
      assert f(n) < g(n);
    }
  }

  lemma HigherRootMissesLess(m: State, m': State, top: State)
    requires Leq(m, m') && Leq(m', top)
    ensures NodeGap(m', top) <= NodeGap(m, top)
    ensures m != m' ==> NodeGap(m', top) < NodeGap(m, top)
  {
    var f, g := d => Gap(m', top, d), d => Gap(m, top, d);
    if m != m' {
      var d :| d in m' && (d !in m || m[d] != m'[d]) by {
        if forall d :: d in m' ==> d in m && m[d] == m'[d] {
          LeqAntisymmetric(m, m');
        }
      }
      assert f(d) < g(d);
    }
    SumMonotone(top.Keys, f, g);
  }

  // ----- quiet events -----

  lemma RootIsBounded(s: System, n: Name)
    requires SystemOk(s) && n in s.nodes
    ensures Leq(Root(s, n), Counters(s.ledger)) && n in Root(s, n)
  {
    EachNodeOk(s, n);
    RootFacts(s.nodes[n].core);
  }

  lemma QuietCoreStep(c: Core, n: Name, ledger: Ledger, e: Event)
    requires CoreFits(c, n, ledger) && !e.LocalAction? && (e.OnData? ==> ContentBounded(e.content, ledger))
    ensures Leq(c.root.preimage, CoreAfter(c, e).root.preimage)
    ensures Leq(c.log.nodes, CoreAfter(c, e).log.nodes)
  {
    RootFacts(c);
    if e.OnData? {
      AbsorbFits(c, n, ledger, e.content);
      MergeGrows(c.log.nodes, e.content);
    }
  }

  lemma QuietDataRaises(s: System, n: Name, content: Message, diff: Message)
    requires SystemOk(s) && Enabled(s, n, OnData(content, diff))
    ensures Leq(Root(s, n), Root(After(s, n, OnData(content, diff)), n))
  {
    EachNodeOk(s, n);
    OfferedContentIsBounded(s.net, s.ledger, content);
    QuietCoreStep(s.nodes[n].core, n, s.ledger, OnData(content, diff));
  }

  lemma QuietRootRaises(s: System, n: Name, e: Event)
    requires SystemOk(s) && Enabled(s, n, e) && !e.LocalAction?
    ensures Leq(Root(s, n), Root(After(s, n, e), n))
  {
    if e.OnData? {
      QuietDataRaises(s, n, e.content, e.diff);
    } else {
      EachNodeOk(s, n);
      QuietCoreStep(s.nodes[n].core, n, s.ledger, e);
    }
  }

  /** A quiet event never lowers a root, and changes at most the root of the device it happens at. */
  lemma QuietEventRaises(s: System, n: Name, e: Event)
    requires SystemOk(s) && Enabled(s, n, e) && !e.LocalAction?
    ensures After(s, n, e).ledger == s.ledger
    ensures Leq(Root(s, n), Root(After(s, n, e), n))
    ensures forall m :: m in s.nodes && m != n ==> Root(After(s, n, e), m) == Root(s, m)
  {
    QuietRootRaises(s, n, e);
  }

  /** Raising one root lowers the measure. */
  lemma OneHigherRoot(s: System, t: System, n: Name)
    requires n in s.nodes && t.nodes.Keys == s.nodes.Keys && t.ledger == s.ledger
    requires forall m :: m in s.nodes && m != n ==> Root(t, m) == Root(s, m)
    requires Leq(Root(s, n), Root(t, n)) && Leq(Root(t, n), Counters(s.ledger))
    ensures Missing(t) <= Missing(s)
    ensures Root(t, n) != Root(s, n) ==> Missing(t) < Missing(s)
  {
    HigherRootMissesLess(Root(s, n), Root(t, n), Counters(s.ledger));
    MissingIsMonotone(s, t);
  }

  /** The measure falls whenever a quiet event changes a root. */
  lemma QuietEventMissesLess(s: System, n: Name, e: Event)
    requires SystemOk(s) && Enabled(s, n, e) && !e.LocalAction?
    ensures Missing(After(s, n, e)) <= Missing(s)
    ensures Root(After(s, n, e), n) != Root(s, n) ==> Missing(After(s, n, e)) < Missing(s)
  {
    QuietEventRaises(s, n, e);
    StepKeepsSystemOk(s, n, e);
    RootIsBounded(After(s, n, e), n);
    OneHigherRoot(s, After(s, n, e), n);
  }

  /** How many events of the run change the root of the device they happen at. */
  ghost function RootChanges(s: System, run: seq<(Name, Event)>): nat {
    if run == [] then 0
    else
      var m, (n, e) := Ran(s, run[..|run| - 1]), run[|run| - 1];
      RootChanges(s, run[..|run| - 1]) +
      if n in m.nodes && Root(After(m, n, e), n) != Root(m, n) then 1 else 0
  }

  /** In every quiet run, however long and unlucky, roots change at most as often as numbers are missing. */
  lemma {:induction false} RootChangesAreBounded(s: System, run: seq<(Name, Event)>, t: System)
    requires SystemOk(s) && Quiet(run) && Reaches(s, run, t)
    ensures SystemOk(t) && t.ledger == s.ledger && RootChanges(s, run) + Missing(t) <= Missing(s)
    decreases |run|
  {
    if run != [] {
      var before := run[..|run| - 1];
      var (n, e) := run[|run| - 1];
      var m := Ran(s, before);
      RootChangesAreBounded(s, before, m);
      QuietEventMissesLess(m, n, e);
      StepKeepsSystemOk(m, n, e);
    }
  }

  /** When every root has reached the counters, no packet however old or repeated changes any root. */
  lemma AgreementIsStable(s: System, n: Name, e: Event, m: Name)
    requires SystemOk(s) && Enabled(s, n, e) && !e.LocalAction? && m in s.nodes
    requires Root(s, m) == Counters(s.ledger)
    ensures Root(After(s, n, e), m) == Root(s, m)
  {
    QuietEventRaises(s, n, e);
    StepKeepsSystemOk(s, n, e);
    RootIsBounded(After(s, n, e), m);
    if m == n {
      LeqAntisymmetric(Root(s, n), Root(After(s, n, e), n));
    }
  }

  // ----- what is passed on in a run -----

  /** No root of `s` is above the same root of `t`. */
  ghost predicate RootsLeq(s: System, t: System) {
    t.nodes.Keys == s.nodes.Keys && forall m :: m in s.nodes ==> Leq(Root(s, m), Root(t, m))
  }

  lemma RootsLeqTransitive(s: System, m: System, t: System)
    requires RootsLeq(s, m) && RootsLeq(m, t)
    ensures RootsLeq(s, t)
  {
  }

  lemma QuietStepRaisesRoots(s: System, n: Name, e: Event)
    requires SystemOk(s) && Enabled(s, n, e) && !e.LocalAction?
    ensures RootsLeq(s, After(s, n, e))
  {
    QuietEventRaises(s, n, e);
  }

  lemma QuietStep(s: System, run: seq<(Name, Event)>, j: nat)
    requires Quiet(run) && Runs(s, run) && j < |run| && SystemOk(Ran(s, run[..j]))
    ensures var m, t := Ran(s, run[..j]), Ran(s, run[..j + 1]);
      SystemOk(t) && t.ledger == m.ledger && RootsLeq(m, t)
  {
    RunsStep(s, run, j);
    var m := Ran(s, run[..j]);
    var (n, e) := run[j];
    StepKeepsSystemOk(m, n, e);
    QuietStepRaisesRoots(m, n, e);
  }

  lemma {:induction false} QuietRunIsOk(s: System, run: seq<(Name, Event)>, i: nat)
    requires SystemOk(s) && Quiet(run) && Runs(s, run) && i <= |run|
    ensures var u := Ran(s, run[..i]); SystemOk(u) && u.ledger == s.ledger && u.nodes.Keys == s.nodes.Keys
  {
    if i > 0 {
      QuietRunIsOk(s, run, i - 1);
      QuietStep(s, run, i - 1);
    }
  }

  lemma {:induction false} QuietRunRaisesRoots(s: System, run: seq<(Name, Event)>, i: nat, j: nat)
    requires SystemOk(s) && Quiet(run) && Runs(s, run) && i <= j <= |run|
    ensures RootsLeq(Ran(s, run[..i]), Ran(s, run[..j]))
    decreases j - i
  {
    if i < j {
      QuietRunRaisesRoots(s, run, i, j - 1);
      QuietRunIsOk(s, run, j - 1);
      QuietStep(s, run, j - 1);
      RootsLeqTransitive(Ran(s, run[..i]), Ran(s, run[..j - 1]), Ran(s, run[..j]));
    }
  }

  /** From a point of a quiet run to its end. */
  lemma QuietToTheEnd(s: System, run: seq<(Name, Event)>, t: System, i: nat)
    requires SystemOk(s) && Quiet(run) && Reaches(s, run, t) && i <= |run|
    ensures var u := Ran(s, run[..i]);
      SystemOk(u) && u.ledger == s.ledger && u.nodes.Keys == s.nodes.Keys && RootsLeq(u, t)
    ensures SystemOk(t) && t.ledger == s.ledger && t.nodes.Keys == s.nodes.Keys
  {
    QuietRunIsOk(s, run, i);
    QuietRunIsOk(s, run, |run|);
    QuietRunRaisesRoots(s, run, i, |run|);
    assert run[..|run|] == run;
  }

  /** `x` advertised the hash `h` before event `j`. */
  ghost predicate AdvertisedBefore(s: System, run: seq<(Name, Event)>, j: nat, x: Name, h: Hash) {
    exists i: nat :: i < j <= |run| && run[i] == (x, SendInterest) &&
      var m := Ran(s, run[..i]); x in m.nodes && m.nodes[x].core.root == h
  }

  /** `x` receives `content` after event `j`. */
  predicate ReceivedAfter(run: seq<(Name, Event)>, j: nat, x: Name, content: Message) {
    exists k :: j < k < |run| && run[k].0 == x && run[k].1.OnData? && run[k].1.content == content
  }

  /**
   * Event `j` of the run is an answer of `y`, to a recovery interest or to a sync interest of `x`, that reaches `x`.
   * The answer to an interest for the root of `y` itself is silence.
   */
  ghost predicate Told(s: System, run: seq<(Name, Event)>, j: nat, y: Name, x: Name) {
    && j < |run| && run[j].0 == y && y in s.nodes && x in s.nodes
    && match run[j].1
       case OnRecoverInterest(_, content) => ReceivedAfter(run, j, x, content)
       case OnSyncInterest(h, content) =>
         && AdvertisedBefore(s, run, j, x, h)
         && (ReceivedAfter(run, j, x, content) ||
             var m := Ran(s, run[..j]); y in m.nodes && m.nodes[y].core.root == h)
       case _ => false
  }

  /** Merging an answer raises the root to at least what the answer was made from. */
  lemma AbsorbRaises(c: Core, content: Message, h: State, told: State)
    requires CoreOk(c) && Leq(h, c.root.preimage) && IsDiff(content, h, told, false)
    ensures Leq(told, Absorb(c, content).root.preimage)
  {
    RootFacts(c);
    DeltaIsAsGoodAsFullIff(c.log.nodes, content, h, told, false);
  }

  lemma AnswerRaises(m: System, x: Name, e: Event, told: State)
    requires SystemOk(m) && Enabled(m, x, e) && e.OnData?
    requires exists h :: Leq(h, Root(m, x)) && IsDiff(e.content, h, told, false)
    ensures Leq(told, Root(After(m, x, e), x))
  {
    var h :| Leq(h, Root(m, x)) && IsDiff(e.content, h, told, false);
    EachNodeOk(m, x);
    AbsorbRaises(m.nodes[x].core, e.content, h, told);
  }

  lemma ReceiptRaises(s: System, run: seq<(Name, Event)>, t: System, j: nat, x: Name, h: State, told: State)
    requires SystemOk(s) && Quiet(run) && Reaches(s, run, t) && x in s.nodes
    requires j < |run| && run[j].0 == x && run[j].1.OnData? && IsDiff(run[j].1.content, h, told, false)
    requires x in Ran(s, run[..j]).nodes && Leq(h, Root(Ran(s, run[..j]), x))
    ensures x in t.nodes && Leq(told, Root(t, x))
  {
    QuietToTheEnd(s, run, t, j);
    QuietToTheEnd(s, run, t, j + 1);
    RunsStep(s, run, j);
    AnswerRaises(Ran(s, run[..j]), x, run[j].1, told);
  }

  lemma RecoveryIsHeard(s: System, run: seq<(Name, Event)>, t: System, j: nat, y: Name, x: Name)
    requires SystemOk(s) && Quiet(run) && Reaches(s, run, t)
    requires Told(s, run, j, y, x) && run[j].1.OnRecoverInterest?
    ensures y in Ran(s, run[..j]).nodes && x in t.nodes && Leq(Root(Ran(s, run[..j]), y), Root(t, x))
  {
    var content := run[j].1.content;
    RunsStep(s, run, j);
    var k :| j < k < |run| && run[k].0 == x && run[k].1.OnData? && run[k].1.content == content;
    QuietToTheEnd(s, run, t, k);
    ReceiptRaises(s, run, t, k, x, map[], Root(Ran(s, run[..j]), y));
  }

  lemma DeltaIsHeard(s: System, run: seq<(Name, Event)>, t: System, j: nat, y: Name, x: Name)
    requires SystemOk(s) && Quiet(run) && Reaches(s, run, t)
    requires Told(s, run, j, y, x) && run[j].1.OnSyncInterest?
    ensures y in Ran(s, run[..j]).nodes && x in t.nodes && Leq(Root(Ran(s, run[..j]), y), Root(t, x))
  {
    var h, content := run[j].1.hash, run[j].1.content;
    RunsStep(s, run, j);
    var i: nat :| i < j && run[i] == (x, SendInterest) &&
      var m := Ran(s, run[..i]); x in m.nodes && m.nodes[x].core.root == h;
    if ReceivedAfter(run, j, x, content) {
      var k :| j < k < |run| && run[k].0 == x && run[k].1.OnData? && run[k].1.content == content;
      QuietRunRaisesRoots(s, run, i, k);
      ReceiptRaises(s, run, t, k, x, h.preimage, Root(Ran(s, run[..j]), y));
    } else {
      QuietToTheEnd(s, run, t, i);
    }
  }

  /** In every quiet run, what `y` knew when it answered is known to `x` in the end, whatever else happens meanwhile. */
  lemma ToldIsKnown(s: System, run: seq<(Name, Event)>, t: System, j: nat, y: Name, x: Name)
    requires SystemOk(s) && Quiet(run) && Reaches(s, run, t) && Told(s, run, j, y, x)
    ensures y in Ran(s, run[..j]).nodes && x in t.nodes && Leq(Root(Ran(s, run[..j]), y), Root(t, x))
  {
    if run[j].1.OnRecoverInterest? {
      RecoveryIsHeard(s, run, t, j, y, x);
    } else {
      DeltaIsHeard(s, run, t, j, y, x);
    }
  }

  /** The root of `y` contains all that `y` has logged for itself. */
  ghost predicate IsPublished(m: System, y: Name) {
    y in m.nodes && y in m.ledger && SeqNo(Root(m, y), y) == |m.ledger[y]|
  }

  /**
   * What `y` knew before event `from` is passed on to `x`, from device to device: each hop is the event in which a
   * device answers the next one, and who it is that answers.
   */
  ghost predicate Passed(s: System, run: seq<(Name, Event)>, from: nat, y: Name, hops: seq<(nat, Name)>, x: Name)
    decreases |hops|
  {
    if hops == [] then from <= |run| && x == y && y in s.nodes
    else
      var (j, z) := hops[|hops| - 1];
      from <= j && Told(s, run, j, z, x) && Passed(s, run[..j], from, y, hops[..|hops| - 1], z)
  }

  /** In every quiet run, what is passed on is known in the end. */
  lemma {:induction false} PassedIsKnown(s: System, run: seq<(Name, Event)>, t: System, from: nat, y: Name,
                                         hops: seq<(nat, Name)>, x: Name)
    requires SystemOk(s) && Quiet(run) && Reaches(s, run, t) && Passed(s, run, from, y, hops, x)
    ensures from <= |run| && y in Ran(s, run[..from]).nodes && x in t.nodes
    ensures Leq(Root(Ran(s, run[..from]), y), Root(t, x))
    decreases |hops|
  {
    if hops == [] {
      QuietToTheEnd(s, run, t, from);
    } else {
      var (j, z) := hops[|hops| - 1];
      RunsPrefix(s, run, j);
      PassedIsKnown(s, run[..j], Ran(s, run[..j]), from, y, hops[..|hops| - 1], z);
      assert run[..j][..from] == run[..from];
      ToldIsKnown(s, run, t, j, z, x);
    }
  }

  /** Every device has published its own number, and after that it is passed on to every other device. */
  ghost predicate EverybodyLearns(s: System, run: seq<(Name, Event)>, t: System) {
    && (forall y :: y in s.nodes ==> IsPublished(t, y))
    && (forall x, y :: x in s.nodes && y in s.nodes && x != y ==> Learns(s, run, x, y))
  }

  ghost predicate Learns(s: System, run: seq<(Name, Event)>, x: Name, y: Name) {
    exists from: nat, hops ::
      Passed(s, run, from, y, hops, x) && from <= |run| && IsPublished(Ran(s, run[..from]), y)
  }

  lemma KnowsCounter(s: System, run: seq<(Name, Event)>, t: System, x: Name, y: Name)
    requires SystemOk(s) && Quiet(run) && Reaches(s, run, t) && EverybodyLearns(s, run, t)
    requires x in s.nodes && y in s.nodes && x in t.nodes && SystemOk(t) && t.ledger == s.ledger && y in s.ledger
    ensures y in Root(t, x) && |s.ledger[y]| <= Root(t, x)[y]
  {
    RootIsBounded(t, x);
    if x != y {
      assert Learns(s, run, x, y);
      var from: nat, hops :|
        Passed(s, run, from, y, hops, x) && from <= |run| && IsPublished(Ran(s, run[..from]), y);
      PassedIsKnown(s, run, t, from, y, hops, x);
      QuietToTheEnd(s, run, t, from);
      RootIsBounded(Ran(s, run[..from]), y);
    }
  }

  /**
   * Every quiet run, however its packets were lost, repeated, delayed or mixed, in which what everybody published is
   * passed on to everybody, over whatever devices, ends with all roots equal to the counters.
   */
  lemma GossipConverges(s: System, run: seq<(Name, Event)>, t: System)
    requires SystemOk(s) && Quiet(run) && Reaches(s, run, t) && EverybodyLearns(s, run, t)
    ensures forall n :: n in t.nodes ==> Root(t, n) == Counters(t.ledger)
  {
    QuietToTheEnd(s, run, t, 0);
    SystemFacts(s);
    forall n | n in t.nodes
      ensures Root(t, n) == Counters(t.ledger)
    {
      RootIsBounded(t, n);
      forall y | y in s.ledger
        ensures y in Root(t, n) && |s.ledger[y]| <= Root(t, n)[y]
      {
        KnowsCounter(s, run, t, n, y);
      }
      LeqAntisymmetric(Root(t, n), Counters(t.ledger));
    }
  }

  /** Every device has published its own number, and after that every other device is told. */
  ghost predicate EverybodyTold(s: System, run: seq<(Name, Event)>, t: System) {
    && (forall y :: y in s.nodes ==> IsPublished(t, y))
    && (forall x, y :: x in s.nodes && y in s.nodes && x != y ==>
         exists j: nat :: Told(s, run, j, y, x) && IsPublished(Ran(s, run[..j]), y))
  }

  lemma ToldIsPassed(s: System, run: seq<(Name, Event)>, j: nat, y: Name, x: Name)
    requires Told(s, run, j, y, x)
    ensures Passed(s, run, j, y, [(j, y)], x)
  {
    assert [(j, y)][..0] == [];
    assert Passed(s, run[..j], j, y, [], y);
  }

  /** It is enough that everybody is told by everybody, which is to pass on in one hop. */
  lemma ToldRunsConverge(s: System, run: seq<(Name, Event)>, t: System)
    requires SystemOk(s) && Quiet(run) && Reaches(s, run, t) && EverybodyTold(s, run, t)
    ensures forall n :: n in t.nodes ==> Root(t, n) == Counters(t.ledger)
  {
    forall x, y | x in s.nodes && y in s.nodes && x != y
      ensures Learns(s, run, x, y)
    {
      var j: nat :| Told(s, run, j, y, x) && IsPublished(Ran(s, run[..j]), y);
      ToldIsPassed(s, run, j, y, x);
    }
    GossipConverges(s, run, t);
  }
}
