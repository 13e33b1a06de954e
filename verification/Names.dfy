/** Device names as byte strings, ordered as SQLite orders BLOB values. */
module Names {

  newtype byte = b: int | 0 <= b < 0x100

  type Name = seq<byte>

  /** The order of `memcmp`, a proper prefix coming first. */
  predicate Before(a: Name, b: Name)
    decreases |a|
  {
    if b == [] then false
    else if a == [] then true
    else a[0] < b[0] || (a[0] == b[0] && Before(a[1..], b[1..]))
  }

  /** `a` and `b` agree before position `k`, and there `a` ends or has the smaller byte. */
  predicate FirstDiffer(a: Name, b: Name, k: nat) {
    && k <= |a| && k < |b| && a[..k] == b[..k]
    && (k == |a| || a[k] < b[k])
  }

  lemma SameFirstByte(a: Name, b: Name, k: nat)
    requires FirstDiffer(a, b, k)
    ensures k == 0 || (a != [] && b != [] && a[0] == b[0])
  {
    if k > 0 {
      assert a[0] == a[..k][0] && b[0] == b[..k][0];
    }
  }

  /** The first byte in which two names differ decides, and a proper prefix comes first. */
  lemma {:induction false} BeforeIffFirstDiffer(a: Name, b: Name)
    ensures Before(a, b) <==> exists k :: FirstDiffer(a, b, k)
    decreases |a|
  {
    if a == [] || b == [] || a[0] != b[0] {
      if Before(a, b) {
        assert FirstDiffer(a, b, 0);
      }
      forall k | FirstDiffer(a, b, k)
        ensures k == 0
      {
        SameFirstByte(a, b, k);
      }
    } else {
      BeforeIffFirstDiffer(a[1..], b[1..]);
      if k: nat :| FirstDiffer(a[1..], b[1..], k) {
        assert a[..k + 1] == [a[0]] + a[1..][..k] && b[..k + 1] == [b[0]] + b[1..][..k];
        assert FirstDiffer(a, b, k + 1);
      }
      if k: nat :| FirstDiffer(a, b, k) {
        assert k > 0;
        assert a[1..][..k - 1] == a[..k][1..] && b[1..][..k - 1] == b[..k][1..];
        assert FirstDiffer(a[1..], b[1..], k - 1);
      }
    }
  }

  /** In bytes: whatever two names begin with, the smaller next byte comes first, and so does the one that ends. */
  lemma ByteDecides(p: Name, x: byte, s: Name, y: byte, t: Name)
    ensures x < y ==> Before(p + [x] + s, p + [y] + t) && !Before(p + [y] + t, p + [x] + s)
    ensures Before(p, p + [x] + s) && !Before(p + [x] + s, p)
  {
    var a, b := p + [x] + s, p + [y] + t;
    assert a[..|p|] == p && b[..|p|] == p && p[..|p|] == p;
    assert FirstDiffer(p, a, |p|);
    assert x < y ==> FirstDiffer(a, b, |p|);
    BeforeIffFirstDiffer(a, b);
    BeforeIffFirstDiffer(p, a);
    BeforeIsTotal(a, b);
    BeforeIsTotal(p, a);
  }

  lemma {:induction false} BeforeIsTotal(a: Name, b: Name)
    ensures a != b ==> Before(a, b) != Before(b, a)
    ensures a == b ==> !Before(a, b)
    decreases |a|
  {
    if a != [] && b != [] && a[0] == b[0] {
      BeforeIsTotal(a[1..], b[1..]);
      assert a == [a[0]] + a[1..] && b == [b[0]] + b[1..];
    }
  }

  lemma {:induction false} BeforeIsTransitive(a: Name, b: Name, c: Name)
    requires Before(a, b) && Before(b, c)
    ensures Before(a, c)
    decreases |a|
  {
    if a != [] && a[0] == b[0] && b[0] == c[0] {
      BeforeIsTransitive(a[1..], b[1..], c[1..]);
    }
  }
}
