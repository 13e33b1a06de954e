/** The byte stream that the `hash` aggregate digests (src/db-helper.cc). */
module DigestStream {
  import opened Names
  import opened StateVectors

  datatype DbRow = DbRow(name: Name, seqno: nat)

  /** Sequence numbers are sqlite3_int64 values. */
  const SEQNO_LIMIT: nat := 0x8000_0000_0000_0000

  /** The bytes of a number, least significant first. */
  function LittleEndian(n: nat, width: nat): (r: seq<byte>)
    ensures |r| == width
  {
    if width == 0 then [] else [(n % 0x100) as byte] + LittleEndian(n / 0x100, width - 1)
  }

  function NumberOf(b: seq<byte>): nat {
    if b == [] then 0 else b[0] as nat + 0x100 * NumberOf(b[1..])
  }

  function Power(width: nat): nat {
    if width == 0 then 1 else 0x100 * Power(width - 1)
  }

  lemma {:induction false} LittleEndianRoundTrip(n: nat, width: nat)
    requires n < Power(width)
    ensures NumberOf(LittleEndian(n, width)) == n
  {
    if width > 0 {
      LittleEndianRoundTrip(n / 0x100, width - 1);
      assert LittleEndian(n, width)[1..] == LittleEndian(n / 0x100, width - 1);
    }
  }

  /** The low byte comes first, and the bytes of the rest follow. */
  lemma LowByteComesFirst(low: byte, rest: nat, width: nat)
    ensures LittleEndian(low as nat + 0x100 * rest, width + 1) == [low] + LittleEndian(rest, width)
  {
    var n := low as nat + 0x100 * rest;
    assert n % 0x100 == low as nat && n / 0x100 == rest;
  }

  lemma SeqnoBytesDetermineSeqno(m: nat, n: nat)
    requires m < SEQNO_LIMIT && n < SEQNO_LIMIT && LittleEndian(m, 8) == LittleEndian(n, 8)
    ensures m == n
  {
    assert Power(4) == 0x1_0000_0000;
    assert Power(8) == 0x100 * (0x100 * (0x100 * (0x100 * Power(4))));
    LittleEndianRoundTrip(m, 8);
    LittleEndianRoundTrip(n, 8);
  }

  /** What one aggregate step feeds to the digest. */
  function RowBytes(r: DbRow): seq<byte> { r.name + LittleEndian(r.seqno, 8) }

  function Stream(rows: seq<DbRow>): seq<byte> {
    if rows == [] then [] else Stream(rows[..|rows| - 1]) + RowBytes(rows[|rows| - 1])
  }

  lemma {:induction false} StreamFromFront(rows: seq<DbRow>)
    requires rows != []
    ensures Stream(rows) == RowBytes(rows[0]) + Stream(rows[1..])
  {
    if |rows| > 1 {
      StreamFromFront(rows[..|rows| - 1]);
      assert rows[..|rows| - 1][1..] == rows[1..][..|rows| - 2];
    }
  }

  ghost predicate PrefixFree(names: set<Name>) {
    forall a, b :: a in names && b in names && a <= b ==> a == b
  }

  ghost predicate RowsWithin(rows: seq<DbRow>, names: set<Name>) {
    forall i :: 0 <= i < |rows| ==> rows[i].name in names && rows[i].seqno < SEQNO_LIMIT
  }

  lemma FirstRowIsDetermined(p: seq<DbRow>, q: seq<DbRow>, names: set<Name>)
    requires PrefixFree(names) && RowsWithin(p, names) && RowsWithin(q, names)
    requires p != [] && q != [] && Stream(p) == Stream(q)
    ensures p[0] == q[0] && Stream(p[1..]) == Stream(q[1..])
  {
    StreamFromFront(p);
    StreamFromFront(q);
    var s, a, b := Stream(p), p[0].name, q[0].name;
    assert a == s[..|a|] && b == s[..|b|];
    assert a <= b || b <= a;
    assert a == b;
    var n := |a| + 8;
    assert s[|a|..n] == LittleEndian(p[0].seqno, 8);
    assert s[|a|..n] == LittleEndian(q[0].seqno, 8);
    SeqnoBytesDetermineSeqno(p[0].seqno, q[0].seqno);
    assert s[n..] == Stream(p[1..]);
    assert s[n..] == Stream(q[1..]);
  }

  /** With prefix-free names the stream can be decoded in only one way. */
  lemma {:induction false} StreamDeterminesRows(p: seq<DbRow>, q: seq<DbRow>, names: set<Name>)
    requires PrefixFree(names) && RowsWithin(p, names) && RowsWithin(q, names)
    requires Stream(p) == Stream(q)
    ensures p == q
    decreases |p|
  {
    if p == [] {
      if q != [] { StreamFromFront(q); }
    } else if q == [] {
      StreamFromFront(p);
    } else {
      FirstRowIsDetermined(p, q, names);
      StreamDeterminesRows(p[1..], q[1..], names);
      assert p == [p[0]] + p[1..] && q == [q[0]] + q[1..];
    }
  }

  // ----- states -----

  ghost predicate InOrder(rows: seq<DbRow>) {
    forall i, j :: 0 <= i < j < |rows| ==> Before(rows[i].name, rows[j].name)
  }

  /** SELECT * FROM SyncNodes ORDER BY device_name. */
  ghost predicate IsTable(rows: seq<DbRow>, m: State) {
    && InOrder(rows)
    && (forall i :: 0 <= i < |rows| ==> rows[i].name in m && rows[i].seqno == m[rows[i].name])
    && (forall d :: d in m ==> exists i :: 0 <= i < |rows| && rows[i].name == d)
  }

  lemma SameFirstRow(p: seq<DbRow>, q: seq<DbRow>, m: State)
    requires IsTable(p, m) && IsTable(q, m)
    ensures p == [] <==> q == []
    ensures p != [] ==> p[0] == q[0]
  {
    if p != [] {
      assert p[0].name in m;
      var j :| 0 <= j < |q| && q[j].name == p[0].name;
      assert q[0].name in m;
      var i :| 0 <= i < |p| && p[i].name == q[0].name;
      BeforeIsTotal(p[0].name, q[0].name);
    }
    if q != [] {
      assert q[0].name in m;
    }
  }

  lemma TableTail(p: seq<DbRow>, m: State)
    requires IsTable(p, m) && p != []
    ensures IsTable(p[1..], m - {p[0].name})
  {
    forall i | 0 < i < |p|
      ensures p[i].name != p[0].name
    {
      BeforeIsTotal(p[0].name, p[i].name);
    }
    forall d | d in m - {p[0].name}
      ensures exists i :: 0 <= i < |p[1..]| && p[1..][i].name == d
    {
      var i :| 0 <= i < |p| && p[i].name == d;
      assert p[1..][i - 1].name == d;
    }
  }

  lemma SameHeadAndTail(p: seq<DbRow>, q: seq<DbRow>)
    requires p != [] && q != [] && p[0] == q[0] && p[1..] == q[1..]
    ensures p == q
  {
    assert p == [p[0]] + p[1..] && q == [q[0]] + q[1..];
  }

  lemma {:induction false} TableIsUnique(p: seq<DbRow>, q: seq<DbRow>, m: State)
    requires IsTable(p, m) && IsTable(q, m)
    ensures p == q
    decreases |p|
  {
    SameFirstRow(p, q, m);
    if p != [] {
      TableTail(p, m);
      TableTail(q, m);
      TableIsUnique(p[1..], q[1..], m - {p[0].name});
      SameHeadAndTail(p, q);
    }
  }

  lemma TableDeterminesState(p: seq<DbRow>, a: State, b: State)
    requires IsTable(p, a) && IsTable(p, b)
    ensures a == b
  {
    forall d | d in a.Keys + b.Keys
      ensures d in a && d in b && a[d] == b[d]
    {
      var i :| 0 <= i < |p| && p[i].name == d;
    }
    assert a.Keys == b.Keys;
  }

  ghost predicate Small(m: State) {
    forall d :: d in m ==> m[d] < SEQNO_LIMIT
  }

  /** Two states are digested from the same byte stream exactly when they are the same state. */
  lemma SameStreamIffSameState(p: seq<DbRow>, a: State, q: seq<DbRow>, b: State)
    requires IsTable(p, a) && IsTable(q, b)
    requires PrefixFree(a.Keys + b.Keys) && Small(a) && Small(b)
    ensures Stream(p) == Stream(q) <==> a == b
  {
    if a == b {
      TableIsUnique(p, q, a);
    }
    if Stream(p) == Stream(q) {
      StreamDeterminesRows(p, q, a.Keys + b.Keys);
      TableDeterminesState(p, a, b);
    }
  }

  /** Of two rows of a table the one with the smaller byte where the names differ comes first. */
  lemma TableIsInByteOrder(rows: seq<DbRow>, m: State, i: nat, j: nat)
    requires IsTable(rows, m) && i < j < |rows|
    ensures exists k :: FirstDiffer(rows[i].name, rows[j].name, k)
  {
    BeforeIffFirstDiffer(rows[i].name, rows[j].name);
  }

  lemma OneRowTable(r: DbRow)
    ensures IsTable([r], map[r.name := r.seqno])
  {
    assert [r][0].name == r.name;
  }

  lemma TwoRowTable(r: DbRow, t: DbRow)
    requires Before(r.name, t.name) && r.name != t.name
    ensures IsTable([r, t], map[r.name := r.seqno, t.name := t.seqno])
  {
    var rows := [r, t];
    assert rows[0].name == r.name && rows[1].name == t.name;
  }

  lemma LongNameStream(r: DbRow, t: DbRow)
    ensures Stream([r, t]) == Stream([DbRow(RowBytes(r) + t.name, t.seqno)])
  {
    var rows := [r, t];
    var one := [DbRow(RowBytes(r) + t.name, t.seqno)];
    assert rows[..1] == [r] && [r][..0] == [] && one[..0] == [];
    assert Stream([r]) == RowBytes(r);
    assert Stream(rows) == RowBytes(r) + RowBytes(t);
    assert Stream(one) == RowBytes(one[0]);
    assert RowBytes(r) + (t.name + LittleEndian(t.seqno, 8)) == (RowBytes(r) + t.name) + LittleEndian(t.seqno, 8);
  }

  /** When one name is a prefix of another, different states can share a stream: any two rows read
      the same as one row under the longer name made of the first row's bytes and the second name. */
  lemma PrefixFreedomIsNeeded(r: DbRow, t: DbRow)
    requires Before(r.name, t.name) && r.name != t.name
    ensures var long := DbRow(RowBytes(r) + t.name, t.seqno);
      && IsTable([r, t], map[r.name := r.seqno, t.name := t.seqno])
      && IsTable([long], map[long.name := long.seqno])
      && map[r.name := r.seqno, t.name := t.seqno] != map[long.name := long.seqno]
      && r.name <= long.name
      && Stream([r, t]) == Stream([long])
  {
    var long := DbRow(RowBytes(r) + t.name, t.seqno);
    OneRowTable(long);
    TwoRowTable(r, t);
    LongNameStream(r, t);
    assert |long.name| > |r.name| && |long.name| > |t.name|;
    assert long.name !in map[r.name := r.seqno, t.name := t.seqno];
  }

  // ----- the aggregate -----

  lemma {:induction false} FirstName(names: set<Name>) returns (n: Name)
    requires names != {}
    ensures n in names && forall x :: x in names && x != n ==> Before(n, x)
    decreases names
  {
    n :| n in names;
    var first, rest := n, names - {n};
    assert forall x :: x in names ==> x == first || x in rest;
    if rest != {} {
      var r := FirstName(rest);
      BeforeIsTotal(first, r);
      if Before(r, first) {
        n := r;
      }
      forall x | x in names && x != n
        ensures Before(n, x)
      {
        if x != first && x != r {
          if n == first {
            BeforeIsTransitive(first, r, x);
          }
        }
      }
    }
  }

  /** The rows so far are the table of the names outside `todo`, which all come first. */
  ghost predicate PartTable(rows: seq<DbRow>, m: State, todo: set<Name>) {
    && InOrder(rows)
    && (forall i :: 0 <= i < |rows| ==> rows[i].name in m && rows[i].name !in todo && rows[i].seqno == m[rows[i].name])
    && (forall d :: d in m && d !in todo ==> exists i :: 0 <= i < |rows| && rows[i].name == d)
    && (forall i, d :: 0 <= i < |rows| && d in todo ==> Before(rows[i].name, d))
  }

  lemma RowIsThere(rows: seq<DbRow>, m: State, todo: set<Name>, d: Name, x: Name)
    requires PartTable(rows, m, todo) && d in m && x in m && x !in todo - {d}
    ensures exists i :: 0 <= i < |rows| + 1 && (rows + [DbRow(d, m[d])])[i].name == x
  {
    var longer := rows + [DbRow(d, m[d])];
    if x == d {
      assert longer[|rows|].name == x;
    } else {
      var i :| 0 <= i < |rows| && rows[i].name == x;
      assert longer[i].name == x;
    }
  }

  lemma PartTableGrows(rows: seq<DbRow>, m: State, todo: set<Name>, d: Name)
    requires PartTable(rows, m, todo) && d in todo && todo <= m.Keys
    requires forall x :: x in todo && x != d ==> Before(d, x)
    ensures PartTable(rows + [DbRow(d, m[d])], m, todo - {d})
  {
    forall x | x in m && x !in todo - {d}
      ensures exists i :: 0 <= i < |rows| + 1 && (rows + [DbRow(d, m[d])])[i].name == x
    {
      RowIsThere(rows, m, todo, d, x);
    }
  }

  /** The digest context: NoRows until the first step. */
  datatype Context = NoRows | Digesting(stream: seq<byte>)

  class HashAggregate {
    var context: Context

    constructor ()
      ensures context == NoRows
    {
      context := NoRows;
    }

    method Step(name: Name, seqno: nat)
      modifies this
      ensures context ==
        Digesting((if old(context).NoRows? then [] else old(context).stream) + (name + LittleEndian(seqno, 8)))
    {
      if context.NoRows? {
        context := Digesting([]);
      }
      context := Digesting(context.stream + name);
      context := Digesting(context.stream + LittleEndian(seqno, 8));
    }

    /** Steps through the rows of SyncNodes in name order. */
    method HashNodes(m: State) returns (ghost rows: seq<DbRow>)
      requires context == NoRows
      modifies this
      ensures IsTable(rows, m)
      ensures context == if m == map[] then NoRows else Digesting(Stream(rows))
    {
      rows := [];
      var todo := m.Keys;
      while todo != {}
        invariant todo <= m.Keys && PartTable(rows, m, todo)
        invariant rows == [] <==> todo == m.Keys
        invariant context == if rows == [] then NoRows else Digesting(Stream(rows))
      {
        ghost var first := FirstName(todo);
        var d :| d in todo && forall x :: x in todo && x != d ==> Before(d, x);
        PartTableGrows(rows, m, todo, d);
        Step(d, m[d]);
        ghost var before := rows;
        rows := rows + [DbRow(d, m[d])];
        assert rows[..|before|] == before;
        todo := todo - {d};
      }
    }
  }
}
