/** Which reported action ranges a device is still going to fetch (src/dispatcher.cc, src/fetch-task-db.cc). */
module FetchTasks {
  import opened Names
  import opened Dispatchers

  /**
   * `queue` holds reported ranges that the dispatcher's executor has not come to yet, `live` the ranges of the fetchers
   * that can still get on, and `rows` the Task table. The base name of actions is a function of the device, so the
   * table's primary key (deviceName, baseName) is the device.
   */
  datatype Fetches = Fetches(queue: seq<Range>, live: set<Range>, rows: map<Name, Range>)

  const NO_FETCHES := Fetches([], {}, map[])

  predicate Holds(r: Range, d: Name, k: nat) {
    r.device == d && r.lo <= k <= r.hi
  }

  /** Action `k` of device `d` is in a range that is queued or being fetched. */
  ghost predicate Awaited(f: Fetches, d: Name, k: nat) {
    exists r :: (r in f.queue || r in f.live) && Holds(r, d, k)
  }

  /** A restart would fetch action `k` of device `d`. */
  predicate InTable(f: Fetches, d: Name, k: nat) {
    d in f.rows && Holds(f.rows[d], d, k)
  }

  // ----- specification functions -----

  /** INSERT OR IGNORE */
  function Added(rows: map<Name, Range>, r: Range): map<Name, Range> {
    if r.device in rows then rows else rows[r.device := r]
  }

  function Queued(f: Fetches, q: seq<Range>): Fetches {
    f.(queue := f.queue + q)
  }

  /** The dispatcher's executor hands the oldest reported range to the fetch manager. */
  function Handed(f: Fetches): Fetches {
    if f.queue == [] then f else Fetches(f.queue[1..], f.live + {f.queue[0]}, Added(f.rows, f.queue[0]))
  }

  /** A fetch is complete or comes to nothing. Its row stays, for the statement that should delete it finds none. */
  function Ended(f: Fetches, r: Range): Fetches {
    f.(live := f.live - {r})
  }

  /** The process starts again: only the table is left, and each of its rows is enqueued. */
  function Resumed(f: Fetches): Fetches {
    Fetches([], f.rows.Values, f.rows)
  }

  // ----- ranges that continue a tiling -----

  lemma CoveredIsHeld(q: seq<Range>, d: Name, k: nat)
    ensures (exists i: nat :: Covers(q, i, d, k)) <==> exists r :: r in q && Holds(r, d, k)
  {
    if i: nat :| Covers(q, i, d, k) {
      assert q[i] in q && Holds(q[i], d, k);
    }
    if r :| r in q && Holds(r, d, k) {
      var i: nat :| i < |q| && q[i] == r;
      assert Covers(q, i, d, k);
    }
  }

  /** Two ranges of a tiling that hold the same number are the same. */
  lemma HeldOnce(q: seq<Range>, d: Name, k: nat, i: nat, j: nat)
    requires Tiles(q, d, 0) && i < |q| && j < |q| && Holds(q[i], d, k) && Holds(q[j], d, k)
    ensures i == j
  {
    TilesCoverOnce(q, d, 0, k);
    assert Covers(q, i, d, k) && Covers(q, j, d, k);
  }

  /** Ranges appended to a tiling hold exactly the numbers from its old end to its new end. */
  lemma NewRangesHold(q: seq<Range>, more: seq<Range>, d: Name, k: nat)
    requires Tiles(q, d, 0) && Tiles(q + more, d, 0)
    ensures (exists r :: r in more && Holds(r, d, k)) <==> EndOf(q, d, 0) < k <= EndOf(q + more, d, 0)
  {
    TilesCoverOnce(q, d, 0, k);
    TilesCoverOnce(q + more, d, 0, k);
    CoveredIsHeld(q, d, k);
    CoveredIsHeld(q + more, d, k);
    if r, r' :| r in more && Holds(r, d, k) && r' in q && Holds(r', d, k) {
      var i: nat :| i < |more| && more[i] == r;
      var j: nat :| j < |q| && q[j] == r';
      HeldOnce(q + more, d, k, |q| + i, j);
    }
  }

  // ----- whose row it is -----

  /** The dispatcher's executor works through its queue. */
  function AllHanded(f: Fetches): Fetches
    decreases |f.queue|
  {
    if f.queue == [] then f else AllHanded(Handed(f))
  }

  /** Of several queued ranges of a device the first one gets the row of the device, unless there is a row. */
  lemma {:induction false} FirstRangeGetsTheRow(f: Fetches, i: nat)
    requires i < |f.queue| && forall j :: 0 <= j < i ==> f.queue[j].device != f.queue[i].device
    ensures var d, rows := f.queue[i].device, AllHanded(f).rows;
      d in rows && rows[d] == if d in f.rows then f.rows[d] else f.queue[i]
    decreases |f.queue|
  {
    if i > 0 {
      FirstRangeGetsTheRow(Handed(f), i - 1);
    } else {
      RowStays(Handed(f), f.queue[0].device);
    }
  }

  lemma {:induction false} RowStays(f: Fetches, d: Name)
    requires d in f.rows
    ensures d in AllHanded(f).rows && AllHanded(f).rows[d] == f.rows[d]
    decreases |f.queue|
  {
    if f.queue != [] {
      RowStays(Handed(f), d);
    }
  }

  /** And every queued range gets a fetcher. */
  lemma {:induction false} EveryRangeIsFetched(f: Fetches)
    ensures AllHanded(f).queue == [] && forall r :: r in AllHanded(f).live <==> r in f.live || r in f.queue
    decreases |f.queue|
  {
    if f.queue != [] {
      EveryRangeIsFetched(Handed(f));
      assert f.queue == [f.queue[0]] + f.queue[1..];
    }
  }

  // ----- the table object -----

  /** What is bound for the device name when a row is to be deleted: as many bytes as the base name has. */
  function BoundForDelete(device: Name, beyond: Name, rest: Name): Name
    requires |rest| <= |beyond|
  {
    (device + beyond)[..|device + rest|]
  }

  /** No row has both the device name that is bound and the base name, because the first is too long. */
  lemma NoRowMatches(device: Name, beyond: Name, rest: Name)
    requires 0 < |rest| <= |beyond|
    ensures BoundForDelete(device, beyond, rest) + rest != device + rest
  {
    assert |BoundForDelete(device, beyond, rest) + rest| == |device + rest| + |rest|;
  }

  /** The base name of a device's actions is the name of the device followed by `rest`. */
  class FetchTaskDb {
    const rest: Name
    var rows: map<Name, Range>

    constructor (stored: map<Name, Range>, rest: Name)
      ensures rows == stored && this.rest == rest
    {
      this.rest := rest;
      rows := stored;
    }

    method AddTask(r: Range)
      modifies this
      ensures rows == Added(old(rows), r)
    {
      if r.device !in rows {
        rows := rows[r.device := r];
      }
    }

    /** The device name is bound with the length of the base name; `beyond` is what follows it in memory. */
    method DeleteTask(device: Name, beyond: Name)
      requires 0 < |rest| <= |beyond|
      modifies this
      ensures rows == old(rows)
    {
      var bound := BoundForDelete(device, beyond, rest);
      if bound in rows && bound + rest == device + rest {
        rows := rows - {bound};
      }
      NoRowMatches(device, beyond, rest);
    }

    /** The tasks in the order in which the query happens to return them, each row once. */
    method ForeachTask() returns (tasks: seq<Range>)
      ensures |tasks| == |rows| && (set r | r in tasks) == rows.Values
    {
      tasks := [];
      var todo := rows.Keys;
      while todo != {}
        invariant todo <= rows.Keys && |tasks| + |todo| == |rows|
        invariant forall r :: r in tasks <==> exists d :: d in rows.Keys - todo && rows[d] == r
      {
        var d :| d in todo;
        tasks := tasks + [rows[d]];
        todo := todo - {d};
      }
    }
  }
}
