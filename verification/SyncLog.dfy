/**
 * The persistent log of sync states (src/sync-log.cc).
 *
 * A digest is modelled by the state it was computed from: module DigestStream shows that the digested
 * byte stream determines that state, and the digest function itself is taken to be collision-free.
 */
module SyncLogs {
  import opened Names
  import opened StateVectors

  datatype Hash = Hash(preimage: State)

  /** `hash()` over no rows returns the same single zero byte as Hash::Origin. */
  const ORIGIN := Hash(map[])

  /** A SyncLog row together with the SyncStateNodes rows that refer to it. */
  datatype Row = Row(id: nat, hash: Hash, snapshot: State)

  /** The SyncNodes table, the SyncLog rows by increasing `state_id`, and the largest id ever used. */
  datatype LogState = LogState(nodes: State, rows: seq<Row>, lastId: nat)

  // ----- specification functions -----

  /** The rows that survive the guard trigger's DELETE. */
  function Without(rows: seq<Row>, h: Hash): seq<Row> {
    if rows == [] then []
    else
      var rest := Without(rows[..|rows| - 1], h);
      if rows[|rows| - 1].hash == h then rest else rest + [rows[|rows| - 1]]
  }

  function Remembered(l: LogState): LogState {
    var h := Hash(l.nodes);
    l.(rows := Without(l.rows, h) + [Row(l.lastId + 1, h, l.nodes)], lastId := l.lastId + 1)
  }

  ghost predicate Known(rows: seq<Row>, h: Hash) {
    exists i :: 0 <= i < |rows| && rows[i].hash == h
  }

  /** The snapshot that a query by hash finds: empty when the hash is not logged. */
  ghost function Snapshot(rows: seq<Row>, h: Hash): State {
    if Known(rows, h) then (var i :| 0 <= i < |rows| && rows[i].hash == h; rows[i].snapshot) else map[]
  }

  // ----- the chain invariant -----

  ghost predicate RowsMatch(l: LogState) {
    forall i :: 0 <= i < |l.rows| ==>
      && l.rows[i].hash == Hash(l.rows[i].snapshot)
      && 1 <= l.rows[i].id <= l.lastId
      && Leq(l.rows[i].snapshot, l.nodes)
  }

  ghost predicate Increasing(rows: seq<Row>) {
    forall i, j :: 0 <= i < j < |rows| ==>
      && rows[i].id < rows[j].id
      && Leq(rows[i].snapshot, rows[j].snapshot)
      && rows[i].snapshot != rows[j].snapshot
  }

  /** Snapshots strictly increase with `state_id`, are bounded by SyncNodes, and are filed under their own hash. */
  ghost predicate Chain(l: LogState) {
    RowsMatch(l) && Increasing(l.rows)
  }

  lemma SnapshotIsPreimage(l: LogState, h: Hash)
    requires RowsMatch(l)
    ensures Known(l.rows, h) ==> Snapshot(l.rows, h) == h.preimage
  {
  }

  lemma {:induction false} WithoutNone(rows: seq<Row>, h: Hash)
    requires !Known(rows, h)
    ensures Without(rows, h) == rows
  {
    if rows != [] {
      var n := |rows| - 1;
      assert forall i :: 0 <= i < n ==> rows[..n][i] == rows[i];
      WithoutNone(rows[..n], h);
      assert rows == rows[..n] + [rows[n]];
    }
  }

  /**
   * The guard trigger only ever removes the newest row: a logged state equal to the current one
   * must be the last of the chain.
   */
  lemma GuardReplacesOnlyTheNewest(l: LogState)
    requires Chain(l)
    ensures var n := |l.rows|;
      Without(l.rows, Hash(l.nodes)) == if n > 0 && l.rows[n - 1].snapshot == l.nodes then l.rows[..n - 1] else l.rows
  {
    var n, h := |l.rows|, Hash(l.nodes);
    forall i | 0 <= i < n && l.rows[i].hash == h
      ensures i == n - 1
    {
      if i < n - 1 {
        LeqAntisymmetric(l.rows[i].snapshot, l.rows[n - 1].snapshot);
      }
    }
    if n > 0 && l.rows[n - 1].snapshot == l.nodes {
      WithoutNone(l.rows[..n - 1], h);
    } else {
      WithoutNone(l.rows, h);
    }
  }

  /** The rows after remembering: the old ones, without a newest row that is the current state, and a new row. */
  lemma RememberedRows(l: LogState) returns (k: nat)
    requires Chain(l)
    ensures k <= |l.rows| <= k + 1
    ensures Remembered(l).rows == l.rows[..k] + [Row(l.lastId + 1, Hash(l.nodes), l.nodes)]
    ensures forall i :: 0 <= i < k ==> l.rows[i].snapshot != l.nodes
    ensures k < |l.rows| ==> l.rows[k].snapshot == l.nodes
  {
    GuardReplacesOnlyTheNewest(l);
    var n := |l.rows|;
    k := if n > 0 && l.rows[n - 1].snapshot == l.nodes then n - 1 else n;
    forall i | 0 <= i < k
      ensures l.rows[i].snapshot != l.nodes
    {
      if l.rows[i].snapshot == l.nodes {
        LeqAntisymmetric(l.rows[i].snapshot, l.rows[n - 1].snapshot);
      }
    }
  }

  /** Remembering keeps the chain and files the current state last. */
  lemma RememberedKeepsChain(l: LogState)
    requires Chain(l)
    ensures var r := Remembered(l);
      Chain(r) && r.nodes == l.nodes && r.rows[|r.rows| - 1] == Row(r.lastId, Hash(l.nodes), l.nodes)
  {
    var k := RememberedRows(l);
    var r := Remembered(l);
    assert forall i :: 0 <= i < k ==> r.rows[i] == l.rows[i];
  }

  /** Every hash that was ever logged stays resolvable, to the same snapshot. */
  lemma RememberedLosesNoHash(l: LogState, h: Hash)
    requires Chain(l)
    ensures Known(Remembered(l).rows, h) <==> Known(l.rows, h) || h == Hash(l.nodes)
    ensures Known(l.rows, h) ==> Snapshot(Remembered(l).rows, h) == Snapshot(l.rows, h)
  {
    var k := RememberedRows(l);
    var r := Remembered(l);
    RememberedKeepsChain(l);
    assert r.rows[k].hash == Hash(l.nodes);
    if Known(l.rows, h) && h != Hash(l.nodes) {
      var i :| 0 <= i < |l.rows| && l.rows[i].hash == h;
      assert r.rows[i].hash == h;
    }
    if Known(r.rows, h) && h != Hash(l.nodes) {
      var i :| 0 <= i < |r.rows| && r.rows[i].hash == h;
      assert l.rows[i].hash == h;
    }
    SnapshotIsPreimage(l, h);
    SnapshotIsPreimage(r, h);
  }

  /** A difference from a logged state to the state logged last never asks to delete a device. */
  lemma DiffToRootHasNoDelete(l: LogState, h: Hash, msg: Message, withOld: bool)
    requires Chain(l) && l.rows != [] && Known(l.rows, h)
    requires IsDiff(msg, h.preimage, l.rows[|l.rows| - 1].snapshot, withOld)
    ensures forall i :: 0 <= i < |msg| ==> msg[i].Update? && SeqNo(h.preimage, msg[i].name) <= msg[i].seqno
  {
    var k :| 0 <= k < |l.rows| && l.rows[k].hash == h;
    assert Leq(l.rows[k].snapshot, l.rows[|l.rows| - 1].snapshot);
  }

  /** `msg` reports exactly the changed devices of `seen`. */
  ghost predicate PartialDiff(msg: Message, old_: State, new_: State, withOld: bool, seen: set<Name>) {
    && (forall i :: 0 <= i < |msg| ==>
      msg[i].name in seen && Changed(old_, new_, msg[i].name) && msg[i] == EntryFor(old_, new_, msg[i].name, withOld))
    && (forall i, j :: 0 <= i < j < |msg| ==> msg[i].name != msg[j].name)
    && (forall d :: d in seen && Changed(old_, new_, d) ==> exists i :: 0 <= i < |msg| && msg[i].name == d)
  }

  lemma ExtendPartialDiff(msg: Message, old_: State, new_: State, withOld: bool, seen: set<Name>, d: Name)
    requires PartialDiff(msg, old_, new_, withOld, seen) && d !in seen
    ensures PartialDiff(if Changed(old_, new_, d) then msg + [EntryFor(old_, new_, d, withOld)] else msg,
      old_, new_, withOld, seen + {d})
  {
    var msg' := if Changed(old_, new_, d) then msg + [EntryFor(old_, new_, d, withOld)] else msg;
    forall x | x in seen + {d} && Changed(old_, new_, x)
      ensures exists i :: 0 <= i < |msg'| && msg'[i].name == x
    {
      if x == d {
        assert msg'[|msg|].name == x;
      } else {
        var i :| 0 <= i < |msg| && msg[i].name == x;
        assert msg'[i].name == x;
      }
    }
  }

  /** Once every device of either state has been seen, the report is a difference. */
  lemma WholeDiff(msg: Message, old_: State, new_: State, withOld: bool, seen: set<Name>)
    requires PartialDiff(msg, old_, new_, withOld, seen) && seen == old_.Keys + new_.Keys
    ensures IsDiff(msg, old_, new_, withOld)
  {
  }

  /** One more device that only the new state has. */
  lemma ExtendWithNew(msg: Message, old_: State, new_: State, withOld: bool, todo: set<Name>, d: Name)
    requires todo <= new_.Keys - old_.Keys && d in todo
    requires PartialDiff(msg, old_, new_, withOld, old_.Keys + new_.Keys - todo)
    ensures PartialDiff(msg + [EntryFor(old_, new_, d, withOld)], old_, new_, withOld,
      old_.Keys + new_.Keys - (todo - {d}))
  {
    ExtendPartialDiff(msg, old_, new_, withOld, old_.Keys + new_.Keys - todo, d);
    assert old_.Keys + new_.Keys - (todo - {d}) == old_.Keys + new_.Keys - todo + {d};
  }

  // ----- the database object -----

  class SyncLog {
    const localName: Name
    var nodes: State
    var rows: seq<Row>
    var lastId: nat

    ghost function Value(): LogState
      reads this
    {
      LogState(nodes, rows, lastId)
    }

    ghost predicate Valid()
      reads this
    {
      Chain(Value()) && localName in nodes
    }

    /** Opens the database, whose stored content may come from an earlier run. */
    constructor (stored: LogState, name: Name)
      requires Chain(stored)
      ensures Valid() && localName == name
      ensures Value() == stored.(nodes := MergeEntry(stored.nodes, Update(name, 0, None)))
    {
      localName := name;
      nodes, rows, lastId := stored.nodes, stored.rows, stored.lastId;
      new;
      UpdateDeviceSeqNo(name, 0);
    }

    /** INSERT INTO SyncNodes, which the trigger turns into a max-merge when the device is known. */
    method UpdateDeviceSeqNo(name: Name, seqno: nat)
      requires Chain(Value())
      modifies this`nodes
      ensures Chain(Value()) && name in nodes
      ensures nodes == MergeEntry(old(nodes), Update(name, seqno, None))
      ensures Leq(old(nodes), nodes)
    {
      if name in nodes {
        nodes := nodes[name := Max(nodes[name], seqno)];
      } else {
        nodes := nodes[name := seqno];
      }
    }

    method GetNextLocalSeqNo() returns (seqno: nat)
      requires Valid()
      modifies this`nodes
      ensures Valid()
      ensures seqno == old(nodes[localName]) + 1
      ensures nodes == old(nodes)[localName := seqno]
    {
      seqno := nodes[localName] + 1;
      UpdateDeviceSeqNo(localName, seqno);
    }

    method RememberStateInStateLog() returns (h: Hash)
      requires Valid()
      modifies this`rows, this`lastId
      ensures Valid()
      ensures Value() == Remembered(old(Value())) && h == Hash(nodes)
      ensures rows[|rows| - 1] == Row(lastId, h, nodes)
      ensures forall k :: Known(rows, k) <==> old(Known(rows, k)) || k == h
    {
      RememberedKeepsChain(Value());
      forall k { RememberedLosesNoHash(Value(), k); }
      h := Hash(nodes);
      // the guard trigger's DELETE scans the table
      var kept := [];
      for i := 0 to |rows|
        invariant kept == Without(rows[..i], h)
      {
        assert rows[..i + 1][..i] == rows[..i];
        if rows[i].hash != h {
          kept := kept + [rows[i]];
        }
      }
      assert rows[..|rows|] == rows;
      lastId := lastId + 1;
      rows := kept + [Row(lastId, h, nodes)];
    }

    /** The `state_id` of a hash, 0 when it is not logged. */
    method LookupSyncLog(h: Hash) returns (id: nat)
      requires Valid()
      ensures id > 0 <==> Known(rows, h)
      ensures id > 0 ==> exists i :: 0 <= i < |rows| && rows[i] == Row(id, h, h.preimage)
    {
      id := 0;
      for i := 0 to |rows|
        invariant id == 0 && forall j :: 0 <= j < i ==> rows[j].hash != h
      {
        if rows[i].hash == h {
          return rows[i].id;
        }
      }
    }

    method StateOf(h: Hash) returns (m: State)
      requires Valid()
      ensures m == Snapshot(rows, h)
    {
      SnapshotIsPreimage(Value(), h);
      for i := 0 to |rows|
        invariant forall j :: 0 <= j < i ==> rows[j].hash != h
      {
        if rows[i].hash == h {
          assert Known(rows, h);
          return rows[i].snapshot;
        }
      }
      return map[];
    }

    /** The two SELECTs of the UNION ALL, one after the other. */
    method FindStateDifferences(oldHash: Hash, newHash: Hash, includeOldSeq: bool) returns (msg: Message)
      requires Valid()
      ensures IsDiff(msg, Snapshot(rows, oldHash), Snapshot(rows, newHash), includeOldSeq)
    {
      var old_ := StateOf(oldHash);
      var new_ := StateOf(newHash);
      msg := SelectOldRows(old_, new_, includeOldSeq);
      msg := SelectNewRows(old_, new_, includeOldSeq, msg);
    }

    /** Rows of the old state that the new one lacks or gives another number. */
    static method SelectOldRows(old_: State, new_: State, withOld: bool) returns (msg: Message)
      ensures PartialDiff(msg, old_, new_, withOld, old_.Keys)
    {
      msg := [];
      var todo := old_.Keys;
      while todo != {}
        invariant todo <= old_.Keys
        invariant PartialDiff(msg, old_, new_, withOld, old_.Keys - todo)
      {
        var d :| d in todo;
        ExtendPartialDiff(msg, old_, new_, withOld, old_.Keys - todo, d);
        assert old_.Keys - (todo - {d}) == old_.Keys - todo + {d};
        if d !in new_ || old_[d] != new_[d] {
          msg := msg + [EntryFor(old_, new_, d, withOld)];
        }
        todo := todo - {d};
      }
      assert old_.Keys - todo == old_.Keys;
    }

    /** Rows of the new state that the old one lacks, appended to the rows already found. */
    static method SelectNewRows(old_: State, new_: State, withOld: bool, first: Message) returns (msg: Message)
      requires PartialDiff(first, old_, new_, withOld, old_.Keys)
      ensures IsDiff(msg, old_, new_, withOld)
    {
      msg := first;
      var todo := new_.Keys - old_.Keys;
      assert old_.Keys + new_.Keys - todo == old_.Keys;
      while todo != {}
        invariant todo <= new_.Keys - old_.Keys
        invariant PartialDiff(msg, old_, new_, withOld, old_.Keys + new_.Keys - todo)
      {
        var d :| d in todo;
        ExtendWithNew(msg, old_, new_, withOld, todo, d);
        msg := msg + [EntryFor(old_, new_, d, withOld)];
        todo := todo - {d};
      }
      WholeDiff(msg, old_, new_, withOld, old_.Keys + new_.Keys - todo);
    }
  }
}
