/** One protocol participant (src/sync-core.cc): the handlers, each one atomic step. */
module SyncCores {
  import opened Names
  import opened StateVectors
  import opened SyncLogs

  datatype Packet =
    | SyncInterest(hash: Hash)
    | RecoverInterest(hash: Hash)
    | SyncData(hash: Hash, content: Message)
    | RecoverData(hash: Hash, content: Message)

  /**
   * `pending` is the hash of the scheduled recovery task. Hash prints as the empty string, so all such
   * tasks share the tag "r-" and the scheduler keeps only the first.
   */
  datatype Core = Core(local: Name, log: LogState, root: Hash, pending: Option<Hash>)

  // ----- specification functions -----

  /** Log the current SyncNodes and make it the advertised root. */
  function Advertise(c: Core): Core {
    c.(log := Remembered(c.log), root := Hash(c.log.nodes))
  }

  function WithNodes(c: Core, m: State): Core {
    c.(log := c.log.(nodes := m))
  }

  function Absorb(c: Core, content: Message): Core {
    Advertise(WithNodes(c, Merge(c.log.nodes, content)))
  }

  // ----- invariant -----

  /** The advertised root is the newest logged state. */
  ghost predicate RootIsNewest(c: Core) {
    c.log.rows != [] && c.log.rows[|c.log.rows| - 1].hash == c.root
  }

  /** SyncNodes runs ahead of the advertised root in the local sequence number only. */
  ghost predicate OnlyLocalAhead(c: Core) {
    && c.local in c.root.preimage
    && c.log.nodes.Keys == c.root.preimage.Keys
    && (forall d :: d in c.log.nodes && d != c.local ==> c.log.nodes[d] == c.root.preimage[d])
  }

  ghost predicate CoreOk(c: Core) {
    && Chain(c.log)
    && c.local in c.log.nodes
    && RootIsNewest(c)
    && OnlyLocalAhead(c)
  }

  lemma RootFacts(c: Core)
    requires CoreOk(c)
    ensures Known(c.log.rows, c.root) && Snapshot(c.log.rows, c.root) == c.root.preimage
    ensures Leq(c.root.preimage, c.log.nodes)
    ensures forall h :: Known(c.log.rows, h) ==> Leq(h.preimage, c.root.preimage)
  {
    var n := |c.log.rows| - 1;
    assert c.log.rows[n].hash == c.root;
    SnapshotIsPreimage(c.log, c.root);
    forall h | Known(c.log.rows, h)
      ensures Leq(h.preimage, c.root.preimage)
    {
      var i :| 0 <= i < |c.log.rows| && c.log.rows[i].hash == h;
    }
  }

  lemma AdvertiseKeepsCoreOk(c: Core)
    requires Chain(c.log) && c.local in c.log.nodes
    ensures CoreOk(Advertise(c))
    ensures forall h :: Known(Advertise(c).log.rows, h) <==> Known(c.log.rows, h) || h == Hash(c.log.nodes)
  {
    RememberedKeepsChain(c.log);
    forall h { RememberedLosesNoHash(c.log, h); }
  }

  lemma ChainSurvivesGrowth(l: LogState, m: State)
    requires Chain(l) && Leq(l.nodes, m)
    ensures Chain(l.(nodes := m))
  {
  }

  lemma AbsorbKeepsCoreOk(c: Core, content: Message)
    requires CoreOk(c)
    ensures CoreOk(Absorb(c, content))
    ensures Leq(c.root.preimage, Absorb(c, content).root.preimage)
  {
    MergeGrows(c.log.nodes, content);
    ChainSurvivesGrowth(c.log, Merge(c.log.nodes, content));
    AdvertiseKeepsCoreOk(WithNodes(c, Merge(c.log.nodes, content)));
    RootFacts(c);
  }

  // ----- the object -----

  class SyncCore {
    const log: SyncLog
    var root: Hash
    var pending: Option<Hash>

    ghost function Value(): Core
      reads this, log
    {
      Core(log.localName, log.Value(), root, pending)
    }

    ghost predicate Valid()
      reads this, log
    {
      CoreOk(Value())
    }

    constructor (syncLog: SyncLog)
      requires syncLog.Valid()
      modifies syncLog
      ensures log == syncLog && Valid()
      ensures Value() == Advertise(Core(syncLog.localName, old(syncLog.Value()), root, None))
    {
      AdvertiseKeepsCoreOk(Core(syncLog.localName, syncLog.Value(), Hash(syncLog.nodes), None));
      log := syncLog;
      pending := None;
      root := Hash(map[]);
      new;
      root := log.RememberStateInStateLog();
    }

    /** Publishes the difference as the answer to interests for the previous root. */
    method LocalStateChanged() returns (published: Packet)
      requires Valid()
      modifies this`root, log
      ensures Valid() && Value() == Advertise(old(Value()))
      ensures published.SyncData? && published.hash == old(root)
      ensures IsDiff(published.content, old(root).preimage, root.preimage, false)
      ensures forall i :: 0 <= i < |published.content| ==>
        published.content[i].Update? && published.content[i].name == log.localName
    {
      RootFacts(Value());
      AdvertiseKeepsCoreOk(Value());
      var oldHash := root;
      root := log.RememberStateInStateLog();
      SnapshotIsPreimage(log.Value(), oldHash);
      SnapshotIsPreimage(log.Value(), root);
      var msg := log.FindStateDifferences(oldHash, root, false);
      published := SyncData(oldHash, msg);
    }

    method SendSyncInterest() returns (sent: Packet)
      ensures sent == SyncInterest(root)
    {
      sent := SyncInterest(root);
    }

    /** Same root: nothing. Known hash: a delta. Unknown hash: a recovery task, unless one is scheduled. */
    method HandleSyncInterest(hash: Hash) returns (reply: Option<Packet>)
      requires Valid()
      modifies this`pending
      ensures Valid()
      ensures hash == root ==> reply == None && pending == old(pending)
      ensures hash != root && Known(log.rows, hash) ==>
        && pending == old(pending)
        && reply.Some? && reply.value.SyncData? && reply.value.hash == hash
        && IsDiff(reply.value.content, hash.preimage, root.preimage, false)
      ensures hash != root && !Known(log.rows, hash) ==>
        reply == None && pending == if old(pending).None? then Some(hash) else old(pending)
    {
      reply := None;
      if hash == root {
        return;
      }
      var id := log.LookupSyncLog(hash);
      if id > 0 {
        RootFacts(Value());
        SnapshotIsPreimage(log.Value(), hash);
        var msg := log.FindStateDifferences(hash, root, false);
        reply := Some(SyncData(hash, msg));
      } else if pending.None? {
        pending := Some(hash);
      }
    }

    /** The recovery task: asks for everything if the hash is still unknown. */
    method Recover() returns (sent: Option<Packet>)
      requires Valid() && pending.Some?
      modifies this`pending
      ensures Valid() && pending == None
      ensures sent == if Known(log.rows, old(pending).value) then None else Some(RecoverInterest(old(pending).value))
    {
      var hash := pending.value;
      RootFacts(Value());
      sent := None;
      if hash != root {
        var id := log.LookupSyncLog(hash);
        if id <= 0 {
          sent := Some(RecoverInterest(hash));
        }
      }
      pending := None;
    }

    /** Replies with everything known, provided the hash is. */
    method HandleRecoverInterest(hash: Hash) returns (reply: Option<Packet>)
      requires Valid()
      ensures reply.Some? <==> Known(log.rows, hash)
      ensures reply.Some? ==>
        && reply.value.RecoverData? && reply.value.hash == hash
        && IsDiff(reply.value.content, map[], root.preimage, false)
    {
      reply := None;
      var id := log.LookupSyncLog(hash);
      if id > 0 {
        RootFacts(Value());
        SnapshotIsPreimage(log.Value(), ORIGIN);
        SnapshotIsPreimage(log.Value(), root);
        var msg := log.FindStateDifferences(ORIGIN, root, false);
        reply := Some(RecoverData(hash, msg));
      }
    }

    /** Merges a state message (None when it cannot be decoded) and reports what changed since the last root. */
    method HandleStateData(content: Option<Message>) returns (callback: Option<Message>)
      requires Valid()
      modifies this`root, log
      ensures Valid()
      ensures content == None ==> Value() == old(Value()) && callback == None
      ensures content.Some? ==>
        && Value() == Absorb(old(Value()), content.value)
        && (callback == None <==> old(root) == root)
        && (callback.Some? ==> IsDiff(callback.value, old(root).preimage, root.preimage, true))
    {
      callback := None;
      if content.Some? {
        AbsorbKeepsCoreOk(Value(), content.value);
        RootFacts(Value());
        ApplyEntries(content.value);
        callback := RememberAndCompare();
      }
    }

    method ApplyEntries(msg: Message)
      requires log.Valid()
      modifies log`nodes
      ensures log.Valid() && log.nodes == Merge(old(log.nodes), msg)
    {
      var index := 0;
      while index < |msg|
        invariant 0 <= index <= |msg|
        invariant log.Valid()
        invariant log.nodes == Merge(old(log.nodes), msg[..index])
      {
        assert msg[..index + 1][..index] == msg[..index];
        match msg[index] {
          case Update(name, seqno, _) =>
            log.UpdateDeviceSeqNo(name, seqno);
          case Delete(name, _) =>
            // not supported by the protocol: logged and ignored
        }
        index := index + 1;
      }
      assert msg[..index] == msg;
    }

    /** Logs the new state and returns the difference from the previous root, if there is one. */
    method RememberAndCompare() returns (callback: Option<Message>)
      requires log.Valid() && Known(log.rows, root)
      modifies this`root, log
      ensures log.Valid() && Value() == Advertise(old(Value()))
      ensures callback == None <==> old(root) == root
      ensures callback.Some? ==> IsDiff(callback.value, old(root).preimage, root.preimage, true)
    {
      callback := None;
      var oldHash := root;
      root := log.RememberStateInStateLog();
      assert Known(log.rows, oldHash) && Known(log.rows, root);
      SnapshotIsPreimage(log.Value(), oldHash);
      SnapshotIsPreimage(log.Value(), root);
      var diff := log.FindStateDifferences(oldHash, root, true);
      DiffEmptyIffEqual(diff, oldHash.preimage, root.preimage, true);
      if |diff| > 0 {
        callback := Some(diff);
      }
    }
  }
}
