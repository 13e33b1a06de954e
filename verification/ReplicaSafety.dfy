/** What every run of the whole system guarantees. */
module ReplicaSafety {
  import opened Names
  import opened StateVectors
  import opened SyncLogs
  import opened SyncCores
  import opened Dispatchers
  import opened FetchTasks
  import opened ActionLogs
  import opened Replicas

  lemma OccursOk(t: System)
    requires Occurs(t)
    ensures SystemOk(t)
  {
    var s, run :| Init(s) && Reaches(s, run, t);
    InitOk(s);
    RunKeepsSystemOk(s, run, t);
  }

  /** The number of the last action a device has logged for itself. */
  ghost function Counter(t: System, d: Name): nat
    requires d in t.nodes
  {
    SeqNo(t.nodes[d].core.log.nodes, d)
  }

  /** Whatever is lost, duplicated or reordered, no device credits another with more than its own counter. */
  lemma NobodyIsOverclaimed(t: System, n: Name, d: Name)
    requires Occurs(t) && n in t.nodes && d in t.nodes[n].core.log.nodes
    ensures d in t.nodes && t.nodes[n].core.log.nodes[d] <= Counter(t, d)
  {
    OccursOk(t);
    EachNodeOk(t, n);
    EachNodeOk(t, d);
  }

  /** A device's own log holds its actions for exactly 1 up to its counter. */
  lemma OwnLogIsComplete(t: System, d: Name, k: nat)
    requires Occurs(t) && d in t.nodes
    ensures (d, k) in t.nodes[d].store.actions <==> 1 <= k <= Counter(t, d)
  {
    OccursOk(t);
    EachNodeOk(t, d);
    assert InLedger(t.ledger, (d, k)) <==> 1 <= k <= Counter(t, d);
  }

  /** Every action a device asks for exists at the device that owns it. */
  lemma RequestsCanBeServed(t: System, n: Name, i: nat, k: nat)
    requires Occurs(t) && n in t.nodes && i < |t.nodes[n].ranges|
    requires t.nodes[n].ranges[i].lo <= k <= t.nodes[n].ranges[i].hi
    ensures var d := t.nodes[n].ranges[i].device;
      d in t.nodes && (d, k) in t.nodes[d].store.actions
  {
    OccursOk(t);
    EachNodeOk(t, n);
    OwnLogIsComplete(t, t.nodes[n].ranges[i].device, k);
    EachNodeOk(t, t.nodes[n].ranges[i].device);
  }

  /** A range that the device still has to fetch, or would fetch after a restart. */
  predicate IsPending(f: Fetches, r: Range) {
    r in f.queue || r in f.live || (r.device in f.rows && f.rows[r.device] == r)
  }

  /**
   * Over the whole run, restarts included, each action of another device up to the advertised root is reported to the
   * dispatcher in exactly one range, and no other is. All that is pending are such ranges, so no action is pending in
   * two different ranges.
   */
  lemma RequestsTile(t: System, n: Name, d: Name, k: nat)
    requires Occurs(t) && n in t.nodes && d != n
    ensures 1 <= k <= SeqNo(t.nodes[n].core.root.preimage, d) <==> exists i: nat :: Covers(t.nodes[n].ranges, i, d, k)
    ensures forall i: nat, j: nat :: Covers(t.nodes[n].ranges, i, d, k) && Covers(t.nodes[n].ranges, j, d, k) ==> i == j
    ensures forall r :: IsPending(t.nodes[n].fetches, r) ==> r in t.nodes[n].ranges
    ensures forall r, r' | IsPending(t.nodes[n].fetches, r) && IsPending(t.nodes[n].fetches, r') ::
      Holds(r, d, k) && Holds(r', d, k) ==> r == r'
  {
    OccursOk(t);
    EachNodeOk(t, n);
    var q := t.nodes[n].ranges;
    TilesCoverOnce(q, d, 0, k);
    forall r, r' | r in q && r' in q && Holds(r, d, k) && Holds(r', d, k)
      ensures r == r'
    {
      var i: nat :| i < |q| && q[i] == r;
      var j: nat :| j < |q| && q[j] == r';
      assert Covers(q, i, d, k) && Covers(q, j, d, k);
    }
  }

  lemma LoggedActionIsInLedger(t: System, n: Name, k: Key)
    requires SystemOk(t) && n in t.nodes && k in t.nodes[n].store.actions
    ensures InLedger(t.ledger, k) && t.nodes[n].store.actions[k] == ActionOf(t.ledger, k)
  {
    EachNodeOk(t, n);
  }

  lemma StampNamesKeyHere(t: System, k: Key, k': Key)
    requires SystemOk(t) && InLedger(t.ledger, k) && InLedger(t.ledger, k')
    requires SameStamp(ActionOf(t.ledger, k), ActionOf(t.ledger, k'))
    ensures k == k'
  {
    SystemFacts(t);
    StampNamesKey(t.ledger, k, k');
  }

  /** Across all replicas (filename, version, device) names one action, and so does (device, seq_no). */
  lemma StampsNameOneAction(t: System, m: Name, n: Name, k: Key, k': Key)
    requires Occurs(t) && m in t.nodes && n in t.nodes
    requires k in t.nodes[m].store.actions && k' in t.nodes[n].store.actions
    requires k == k' || SameStamp(t.nodes[m].store.actions[k], t.nodes[n].store.actions[k'])
    ensures k == k' && t.nodes[m].store.actions[k] == t.nodes[n].store.actions[k']
  {
    OccursOk(t);
    LoggedActionIsInLedger(t, m, k);
    LoggedActionIsInLedger(t, n, k');
    if k != k' {
      StampNamesKeyHere(t, k, k');
    }
  }

  /** A parent link leads to an update of the same file, one version earlier, at the device that made it. */
  lemma ParentIsOneVersionEarlier(t: System, n: Name, k: Key)
    requires Occurs(t) && n in t.nodes && k in t.nodes[n].store.actions
    requires t.nodes[n].store.actions[k].parent.Some?
    ensures var a := t.nodes[n].store.actions[k]; var p := a.parent.value;
      && p.0 in t.nodes && p in t.nodes[p.0].store.actions
      && var b := t.nodes[p.0].store.actions[p];
         b.filename == a.filename && b.what.Upd? && b.version + 1 == a.version
  {
    OccursOk(t);
    EachNodeOk(t, n);
    var p := t.nodes[n].store.actions[k].parent.value;
    assert ParentOk(t.ledger, ActionOf(t.ledger, k));
    EachNodeOk(t, p.0);
  }

  /**
   * A device that changes a file it shows, and that is not also deleted in its highest version, links the change to an
   * update of the file of the highest version it knows; so is every deletion. What is logged is what was asked for.
   */
  lemma LocalChangesAreLinked(t: System, n: Name, a: Action, pick: Option<Key>)
    requires Occurs(t) && n in t.nodes && Enabled(t, n, LocalAction(a, pick))
    ensures n in t.ledger && a.device == n && a.seqno == |t.ledger[n]| + 1
    ensures var actions := t.nodes[n].store.actions;
      a.what.Del? || (a.filename in t.nodes[n].store.files && NotDeleted(actions, a.filename)) ==>
      && a.parent.Some? && a.parent.value in actions && IsLatest(actions, a.filename, a.parent)
      && actions[a.parent.value].what.Upd? && a.version == actions[a.parent.value].version + 1
  {
    OccursOk(t);
    EachNodeOk(t, n);
    if a.what.Upd? && a.filename in t.nodes[n].store.files && NotDeleted(t.nodes[n].store.actions, a.filename) {
      ShownFileIsLinked(t.nodes[n].store, a, pick);
    }
  }

  /** The history of a file: an action, its parent, the parent's parent, and so on. */
  ghost function History(ledger: Ledger, k: Key): (h: seq<Action>)
    requires LedgerParents(ledger) && InLedger(ledger, k)
    ensures |h| >= 1 && h[0] == ActionOf(ledger, k)
    decreases ActionOf(ledger, k).version
  {
    var a := ActionOf(ledger, k);
    [a] + if a.parent.Some? then History(ledger, a.parent.value) else []
  }

  /** Walking a history ends: versions go down by one, through updates of the same file. */
  lemma {:induction false} HistoryDescends(ledger: Ledger, k: Key, i: nat)
    requires LedgerParents(ledger) && InLedger(ledger, k)
    requires i < |History(ledger, k)|
    ensures var a, h := ActionOf(ledger, k), History(ledger, k);
      && |h| <= a.version + 1
      && h[i].version == a.version - i
      && h[i].filename == a.filename
      && (i > 0 ==> h[i].what.Upd?)
    decreases ActionOf(ledger, k).version
  {
    var a := ActionOf(ledger, k);
    if a.parent.Some? {
      HistoryDescends(ledger, a.parent.value, if i > 0 then i - 1 else 0);
    }
  }

  /**
   * In every run the history of an action goes back to where the file began: to version 0, or to the update that
   * followed a deletion of the file.
   */
  lemma {:induction false} HistoryIsComplete(ledger: Ledger, k: Key)
    requires LedgerParents(ledger) && InLedger(ledger, k)
    ensures var h := History(ledger, k);
      h[|h| - 1].parent.None? && IsBeginning(ledger, h[|h| - 1])
    decreases ActionOf(ledger, k).version
  {
    assert ParentOk(ledger, ActionOf(ledger, k));
    if ActionOf(ledger, k).parent.Some? {
      HistoryIsComplete(ledger, ActionOf(ledger, k).parent.value);
    }
  }

  /** Of a file that nobody ever deleted the history of every action holds all versions from its own down to 0. */
  lemma UndeletedFileKeepsItsHistory(t: System, n: Name, k: Key)
    requires Occurs(t) && n in t.nodes && k in t.nodes[n].store.actions
    requires forall j :: InLedger(t.ledger, j) && ActionOf(t.ledger, j).what.Del? ==>
      ActionOf(t.ledger, j).filename != t.nodes[n].store.actions[k].filename
    ensures LedgerParents(t.ledger) && InLedger(t.ledger, k)
    ensures |History(t.ledger, k)| == t.nodes[n].store.actions[k].version + 1
  {
    OccursOk(t);
    LoggedActionIsInLedger(t, n, k);
    SystemFacts(t);
    UndeletedHistory(t.ledger, k);
  }

  lemma UndeletedHistory(ledger: Ledger, k: Key)
    requires LedgerParents(ledger) && InLedger(ledger, k)
    requires forall j :: InLedger(ledger, j) && ActionOf(ledger, j).what.Del? ==>
      ActionOf(ledger, j).filename != ActionOf(ledger, k).filename
    ensures |History(ledger, k)| == ActionOf(ledger, k).version + 1
  {
    var h := History(ledger, k);
    HistoryIsComplete(ledger, k);
    HistoryDescends(ledger, k, |h| - 1);
  }

  /** Replicas that have logged the same actions show the same files. */
  lemma SameLogSameFiles(t: System, m: Name, n: Name)
    requires Occurs(t) && m in t.nodes && n in t.nodes
    requires t.nodes[m].store.actions == t.nodes[n].store.actions
    ensures t.nodes[m].store.files == t.nodes[n].store.files
  {
    OccursOk(t);
    EachNodeOk(t, m);
    EachNodeOk(t, n);
    SameActionsSameFiles(t.nodes[m].store, t.nodes[n].store);
  }

  /** All roots are the same and every device has advertised all its own actions. */
  ghost predicate Settled(t: System) {
    forall n, d :: n in t.nodes && d in t.nodes ==>
      d in t.nodes[n].core.root.preimage && t.nodes[n].core.root.preimage[d] == Counter(t, d)
  }

  /** The device has fetched every action that was reported to it. */
  ghost predicate FetchedAll(v: Node) {
    forall i: nat, k: nat :: i < |v.ranges| && v.ranges[i].lo <= k <= v.ranges[i].hi ==>
      (v.ranges[i].device, k) in v.store.actions
  }

  /**
   * Once roots agree and the requested actions have arrived, every replica has every action and shows the same files.
   */
  lemma SettledReplicasAreEqual(t: System, m: Name, n: Name)
    requires Occurs(t) && Settled(t) && m in t.nodes && n in t.nodes
    requires FetchedAll(t.nodes[m]) && FetchedAll(t.nodes[n])
    ensures t.nodes[m].store == t.nodes[n].store
    ensures forall k :: InLedger(t.ledger, k) <==> k in t.nodes[n].store.actions
  {
    OccursOk(t);
    var a, b := t.nodes[m].store.actions, t.nodes[n].store.actions;
    forall k
      ensures InLedger(t.ledger, k) <==> k in a
      ensures InLedger(t.ledger, k) <==> k in b
    {
      HasEveryAction(t, m, k);
      HasEveryAction(t, n, k);
    }
    assert a.Keys == b.Keys;
    forall k | k in a
      ensures a[k] == b[k]
    {
      StampsNameOneAction(t, m, n, k, k);
    }
    assert a == b;
    SameLogSameFiles(t, m, n);
  }

  lemma HasEveryAction(t: System, n: Name, k: Key)
    requires Occurs(t) && Settled(t) && n in t.nodes && FetchedAll(t.nodes[n])
    ensures InLedger(t.ledger, k) <==> k in t.nodes[n].store.actions
  {
    OccursOk(t);
    if k in t.nodes[n].store.actions {
      LoggedActionIsInLedger(t, n, k);
    }
    if InLedger(t.ledger, k) {
      CounterIsLedgerLength(t, k.0);
      if k.0 == n {
        OwnLogIsComplete(t, n, k.1);
      } else {
        RequestsTile(t, n, k.0, k.1);
        var i: nat :| Covers(t.nodes[n].ranges, i, k.0, k.1);
        assert (t.nodes[n].ranges[i].device, k.1) in t.nodes[n].store.actions;
      }
    }
  }

  lemma CounterIsLedgerLength(t: System, d: Name)
    requires SystemOk(t) && (d in t.nodes || d in t.ledger)
    ensures d in t.nodes && d in t.ledger && Counter(t, d) == |t.ledger[d]|
  {
    SystemFacts(t);
    EachNodeOk(t, d);
  }

  // ----- hashes -----

  /** Some device can resolve the hash. */
  ghost predicate Resolvable(t: System, h: Hash) {
    exists n :: n in t.nodes && Known(t.nodes[n].core.log.rows, h)
  }

  ghost predicate AdvertisedResolvable(t: System) {
    forall h :: SyncInterest(h) in t.net ==> Resolvable(t, h)
  }

  /** No event makes a device forget a hash. */
  lemma HashesAreKept(s: System, n: Name, e: Event, m: Name, h: Hash)
    requires SystemOk(s) && Enabled(s, n, e) && m in s.nodes && Known(s.nodes[m].core.log.rows, h)
    ensures Known(After(s, n, e).nodes[m].core.log.rows, h)
  {
    if m == n {
      EachNodeOk(s, n);
      CoreKeepsHashes(s.nodes[n].core, e, h);
    }
  }

  lemma CoreKeepsHashes(c: Core, e: Event, h: Hash)
    requires CoreOk(c) && Known(c.log.rows, h)
    ensures Known(CoreAfter(c, e).log.rows, h)
  {
    RememberedLosesNoHash(c.log, h);
    if e.OnData? {
      MergeGrows(c.log.nodes, e.content);
      ChainSurvivesGrowth(c.log, Merge(c.log.nodes, e.content));
      RememberedLosesNoHash(c.log.(nodes := Merge(c.log.nodes, e.content)), h);
    }
  }

  lemma SentInterestIsKnown(s: System, n: Name, e: Event, h: Hash)
    requires SystemOk(s) && Enabled(s, n, e) && SyncInterest(h) in Sent(s.nodes[n].core, e)
    ensures Known(s.nodes[n].core.log.rows, h)
  {
    EachNodeOk(s, n);
    RootFacts(s.nodes[n].core);
  }

  /** Every hash ever advertised stays resolvable by some device, so a recovery interest can always be answered. */
  lemma {:induction false} AdvertisedHashesStayResolvable(s: System, run: seq<(Name, Event)>)
    requires Init(s) && Runs(s, run)
    ensures AdvertisedResolvable(Ran(s, run))
  {
    if run != [] {
      var before := run[..|run| - 1];
      var m := Ran(s, before);
      AdvertisedHashesStayResolvable(s, before);
      InitOk(s);
      RunKeepsSystemOk(s, before, m);
      forall h | SyncInterest(h) in Ran(s, run).net
        ensures Resolvable(Ran(s, run), h)
      {
        StepKeepsResolvable(m, run[|run| - 1].0, run[|run| - 1].1, h);
      }
    }
  }

  lemma StepKeepsResolvable(m: System, n: Name, e: Event, h: Hash)
    requires SystemOk(m) && Enabled(m, n, e) && AdvertisedResolvable(m)
    requires SyncInterest(h) in After(m, n, e).net
    ensures Resolvable(After(m, n, e), h)
  {
    var x :| x in m.nodes && Known(m.nodes[x].core.log.rows, h) by {
      if SyncInterest(h) in m.net {
        assert Resolvable(m, h);
      } else {
        SentInterestIsKnown(m, n, e, h);
      }
    }
    HashesAreKept(m, n, e, x, h);
    assert x in After(m, n, e).nodes;
  }
}
