/** Building a JSON value from the parser's callbacks (contrib/json_spirit/json_spirit_reader_template.h). */
module JsonBuilders {
  import opened Names
  import opened JsonStrings
  import opened StateVectors

  datatype Atom = Str(s: Text) | Bool(b: bool) | Int(i: int) | Uint(u: nat) | Real(r: real) | Null

  /** An object is a list of members in document order; names may repeat. */
  datatype Value = Object(members: seq<Member>) | Array(elements: seq<Value>) | Scalar(atom: Atom)

  datatype Member = Member(name: Text, value: Value)

  // ----- values and the positions in them -----

  function Size(v: Value): nat {
    match v
    case Object(m) => |m|
    case Array(e) => |e|
    case Scalar(_) => 0
  }

  function Child(v: Value, k: nat): (r: Value)
    requires k < Size(v)
    ensures r < v
  {
    if v.Object? then v.members[k].value else v.elements[k]
  }

  function WithChild(v: Value, k: nat, w: Value): Value
    requires k < Size(v)
  {
    if v.Object? then Object(v.members[k := Member(v.members[k].name, w)]) else Array(v.elements[k := w])
  }

  /** The first `n` children. */
  function FirstChildren(v: Value, n: nat): Value
    requires n <= Size(v)
  {
    match v
    case Object(m) => Object(m[..n])
    case Array(e) => Array(e[..n])
    case Scalar(_) => v
  }

  function Grown(v: Value, name: Text, w: Value): Value {
    match v
    case Object(m) => Object(m + [Member(name, w)])
    case Array(e) => Array(e + [w])
    case Scalar(_) => v
  }

  /** A pointer to a part of the value, as the child numbers that lead to it. */
  type Path = seq<nat>

  predicate IsAt(v: Value, p: Path) {
    p == [] || (p[0] < Size(v) && IsAt(Child(v, p[0]), p[1..]))
  }

  function At(v: Value, p: Path): Value
    requires IsAt(v, p)
  {
    if p == [] then v else At(Child(v, p[0]), p[1..])
  }

  function Replaced(v: Value, p: Path, w: Value): Value
    requires IsAt(v, p)
  {
    if p == [] then w else WithChild(v, p[0], Replaced(Child(v, p[0]), p[1..], w))
  }

  lemma {:induction false} ReplacedIsThere(v: Value, p: Path, w: Value)
    requires IsAt(v, p)
    ensures IsAt(Replaced(v, p, w), p) && At(Replaced(v, p, w), p) == w
  {
    if p != [] {
      ReplacedIsThere(Child(v, p[0]), p[1..], w);
    }
  }

  lemma {:induction false} ReplacedAgain(v: Value, p: Path, a: Value, b: Value)
    requires IsAt(v, p)
    ensures IsAt(Replaced(v, p, a), p) && Replaced(Replaced(v, p, a), p, b) == Replaced(v, p, b)
  {
    ReplacedIsThere(v, p, a);
    if p != [] {
      ReplacedAgain(Child(v, p[0]), p[1..], a, b);
    }
  }

  lemma {:induction false} ReplacedBySame(v: Value, p: Path)
    requires IsAt(v, p)
    ensures Replaced(v, p, At(v, p)) == v
  {
    if p != [] {
      ReplacedBySame(Child(v, p[0]), p[1..]);
    }
  }

  lemma {:induction false} ChildOfPath(v: Value, p: Path, k: nat, w: Value)
    requires IsAt(v, p) && k < Size(At(v, p))
    ensures IsAt(v, p + [k]) && At(v, p + [k]) == Child(At(v, p), k)
    ensures Replaced(v, p + [k], w) == Replaced(v, p, WithChild(At(v, p), k, w))
  {
    if p == [] {
      assert p + [k] == [k] && [k][1..] == [];
    } else {
      assert (p + [k])[1..] == p[1..] + [k];
      ChildOfPath(Child(v, p[0]), p[1..], k, w);
    }
  }

  // ----- the callbacks -----

  datatype Callback = BeginObj | EndObj | BeginArray | EndArray | NewName(text: Text) | NewStr(text: Text)
    | NewAtom(atom: Atom)

  /** The builder: `current` is None until the first value; `stack` holds the earlier pointers. */
  datatype Builder = Builder(value: Value, current: Option<Path>, stack: seq<Path>, name: Text)

  function AddToCurrent(b: Builder, w: Value): Option<Builder> {
    if b.current.None? then Some(b.(value := w, current := Some([])))
    else if IsAt(b.value, b.current.value) && !At(b.value, b.current.value).Scalar?
    then Some(b.(value := Replaced(b.value, b.current.value, Grown(At(b.value, b.current.value), b.name, w))))
    else None
  }

  function BeginCompound(b: Builder, empty: Value): Option<Builder> {
    if b.current.None? then AddToCurrent(b, empty)
    else
      match AddToCurrent(b, empty)
      case None => None
      case Some(c) =>
        var p := b.current.value;
        Some(c.(stack := b.stack + [p], current := Some(p + [Size(At(b.value, p))])))
  }

  /** The end of the outermost value leaves the pointer where it is. */
  function EndCompound(b: Builder): Option<Builder> {
    if b.current == Some([]) then Some(b)
    else if b.stack == [] then None
    else Some(b.(current := Some(b.stack[|b.stack| - 1]), stack := b.stack[..|b.stack| - 1]))
  }

  /** One callback; None where the code asserts otherwise or would read through no pointer. */
  function Handle(b: Builder, e: Callback): Option<Builder> {
    match e
    case BeginObj => BeginCompound(b, Object([]))
    case BeginArray => BeginCompound(b, Array([]))
    case EndObj => EndCompound(b)
    case EndArray => EndCompound(b)
    case NewName(text) =>
      if b.current.Some? && IsAt(b.value, b.current.value) && At(b.value, b.current.value).Object?
      then Some(b.(name := GetStr(text))) else None
    case NewStr(text) => AddToCurrent(b, Scalar(Str(GetStr(text))))
    case NewAtom(a) => AddToCurrent(b, Scalar(a))
  }

  function HandleAll(b: Builder, events: seq<Callback>): Option<Builder> {
    if events == [] then Some(b)
    else
      match HandleAll(b, events[..|events| - 1])
      case None => None
      case Some(c) => Handle(c, events[|events| - 1])
  }

  lemma {:induction false} HandleJoin(b: Builder, first: seq<Callback>, c: Builder, second: seq<Callback>)
    requires HandleAll(b, first) == Some(c)
    ensures HandleAll(b, first + second) == HandleAll(c, second)
  {
    if second == [] {
      assert first + second == first;
    } else {
      HandleJoin(b, first, c, second[..|second| - 1]);
      assert (first + second)[..|first + second| - 1] == first + second[..|second| - 1];
    }
  }

  lemma HandleOne(b: Builder, e: Callback)
    ensures HandleAll(b, [e]) == Handle(b, e)
  {
    assert [e][..0] == [];
  }

  // ----- the callbacks of a document -----

  function NameCallbacks(v: Value, k: nat, raw: bool, printable: byte -> bool): seq<Callback>
    requires k < Size(v)
  {
    if v.Object? then [NewName(Quoted(v.members[k].name, raw, printable))] else []
  }

  /** The callbacks for the first `n` children of a value, and for the whole value. */
  function ChildCallbacks(v: Value, n: nat, raw: bool, printable: byte -> bool): seq<Callback>
    requires n <= Size(v)
    decreases v, n
  {
    if n == 0 then []
    else
      ChildCallbacks(v, n - 1, raw, printable)
      + NameCallbacks(v, n - 1, raw, printable)
      + Callbacks(Child(v, n - 1), raw, printable)
  }

  function Callbacks(v: Value, raw: bool, printable: byte -> bool): seq<Callback>
    decreases v, Size(v) + 1
  {
    match v
    case Object(_) => [BeginObj] + ChildCallbacks(v, Size(v), raw, printable) + [EndObj]
    case Array(_) => [BeginArray] + ChildCallbacks(v, Size(v), raw, printable) + [EndArray]
    case Scalar(Str(s)) => [NewStr(Quoted(s, raw, printable))]
    case Scalar(a) => [NewAtom(a)]
  }

  /** The pointer is at an object or array of the value. */
  predicate CanAdd(b: Builder) {
    b.current.Some? && IsAt(b.value, b.current.value) && !At(b.value, b.current.value).Scalar?
  }

  function Added(b: Builder, w: Value): Value
    requires CanAdd(b)
  {
    Replaced(b.value, b.current.value, Grown(At(b.value, b.current.value), b.name, w))
  }

  function Empty(v: Value): Value { FirstChildren(v, 0) }

  function BeginOf(v: Value): Callback { if v.Object? then BeginObj else BeginArray }

  function EndOf(v: Value): Callback { if v.Object? then EndObj else EndArray }

  /** The callbacks of a compound value, once begun, fill it and step back out of it. */
  lemma CallbacksSplit(v: Value, raw: bool, printable: byte -> bool)
    requires !v.Scalar?
    ensures Callbacks(v, raw, printable) == [BeginOf(v)] + ChildCallbacks(v, Size(v), raw, printable) + [EndOf(v)]
  {
  }

  lemma BegunIsEmpty(b: Builder, v: Value)
    requires CanAdd(b) && !v.Scalar?
    ensures var p := b.current.value;
      var c := Builder(Added(b, Empty(v)), Some(p + [Size(At(b.value, p))]), b.stack + [p], b.name);
      Handle(b, BeginOf(v)) == Some(c) && IsAt(c.value, c.current.value) && At(c.value, c.current.value) == Empty(v)
      && Replaced(c.value, c.current.value, v) == Added(b, v)
  {
    var p := b.current.value;
    var here, value := At(b.value, p), Added(b, Empty(v));
    var k := Size(here);
    ReplacedIsThere(b.value, p, Grown(here, b.name, Empty(v)));
    ChildOfPath(value, p, k, v);
    ReplacedAgain(b.value, p, Grown(here, b.name, Empty(v)), Grown(here, b.name, v));
    assert WithChild(Grown(here, b.name, Empty(v)), k, v) == Grown(here, b.name, v);
  }

  lemma AtomIsAdded(b: Builder, v: Value, raw: bool, printable: byte -> bool)
    requires CanAdd(b) && v.Scalar?
    ensures HandleAll(b, Callbacks(v, raw, printable)) == Some(b.(value := Added(b, v)))
  {
    HandleOne(b, Callbacks(v, raw, printable)[0]);
    if v.atom.Str? {
      GetStrOfQuoted(v.atom.s, raw, printable);
    }
  }

  /** Beginning a compound value, its children and its end, one after the other. */
  lemma BeginFillEnd(b: Builder, c: Builder, d: Builder, e: Builder, v: Value, raw: bool, printable: byte -> bool)
    requires !v.Scalar? && Handle(b, BeginOf(v)) == Some(c)
    requires HandleAll(c, ChildCallbacks(v, Size(v), raw, printable)) == Some(d) && Handle(d, EndOf(v)) == Some(e)
    ensures HandleAll(b, Callbacks(v, raw, printable)) == Some(e)
  {
    var children := ChildCallbacks(v, Size(v), raw, printable);
    HandleOne(b, BeginOf(v));
    HandleJoin(b, [BeginOf(v)], c, children);
    HandleOne(d, EndOf(v));
    HandleJoin(b, [BeginOf(v)] + children, d, [EndOf(v)]);
    CallbacksSplit(v, raw, printable);
  }

  /** The callbacks of a value, while its parent is being built, add exactly the value to the parent. */
  lemma {:induction false} CallbacksAdd(b: Builder, v: Value, raw: bool, printable: byte -> bool) returns (name: Text)
    requires CanAdd(b)
    ensures HandleAll(b, Callbacks(v, raw, printable)) == Some(b.(value := Added(b, v), name := name))
    decreases v, Size(v) + 1
  {
    name := b.name;
    if v.Scalar? {
      AtomIsAdded(b, v, raw, printable);
    } else {
      var p := b.current.value;
      var c := Builder(Added(b, Empty(v)), Some(p + [Size(At(b.value, p))]), b.stack + [p], b.name);
      BegunIsEmpty(b, v);
      name := ChildrenAdd(c, v, Size(v), raw, printable);
      assert FirstChildren(v, Size(v)) == v;
      var d := c.(value := Added(b, v), name := name);
      BeginFillEnd(b, c, d, b.(value := Added(b, v), name := name), v, raw, printable);
    }
  }

  lemma NameIsSet(b: Builder, v: Value, k: nat, raw: bool, printable: byte -> bool)
    requires CanAdd(b) && k < Size(v) && (v.Object? ==> At(b.value, b.current.value).Object?)
    ensures HandleAll(b, NameCallbacks(v, k, raw, printable)) ==
      Some(if v.Object? then b.(name := v.members[k].name) else b)
  {
    if v.Object? {
      GetStrOfQuoted(v.members[k].name, raw, printable);
      HandleOne(b, NewName(Quoted(v.members[k].name, raw, printable)));
    }
  }

  /** Adding child `n - 1` to the first `n - 1` children. */
  lemma ChildGrows(b: Builder, v: Value, n: nat)
    requires CanAdd(b) && !v.Scalar? && 0 < n <= Size(v)
    requires v.Object? ==> b.name == v.members[n - 1].name
    ensures var c := b.(value := Replaced(b.value, b.current.value, FirstChildren(v, n - 1)));
      CanAdd(c) && Added(c, Child(v, n - 1)) == Replaced(b.value, b.current.value, FirstChildren(v, n))
  {
    ReplacedIsThere(b.value, b.current.value, FirstChildren(v, n - 1));
    ReplacedAgain(b.value, b.current.value, FirstChildren(v, n - 1), FirstChildren(v, n));
    assert Grown(FirstChildren(v, n - 1), b.name, Child(v, n - 1)) == FirstChildren(v, n);
  }

  /** The first `n` children fill an empty object or array one by one. */
  lemma {:induction false} ChildrenAdd(b: Builder, v: Value, n: nat, raw: bool, printable: byte -> bool)
    returns (name: Text)
    requires CanAdd(b) && !v.Scalar? && At(b.value, b.current.value) == Empty(v) && n <= Size(v)
    ensures HandleAll(b, ChildCallbacks(v, n, raw, printable)) ==
      Some(b.(value := Replaced(b.value, b.current.value, FirstChildren(v, n)), name := name))
    decreases v, n
  {
    if n == 0 {
      name := b.name;
      ReplacedBySame(b.value, b.current.value);
    } else {
      name := ChildrenAdd(b, v, n - 1, raw, printable);
      var c := b.(value := Replaced(b.value, b.current.value, FirstChildren(v, n - 1)), name := name);
      ReplacedIsThere(b.value, b.current.value, FirstChildren(v, n - 1));
      var before, named := ChildCallbacks(v, n - 1, raw, printable), NameCallbacks(v, n - 1, raw, printable);
      NameIsSet(c, v, n - 1, raw, printable);
      HandleJoin(b, before, c, named);
      var d := if v.Object? then c.(name := v.members[n - 1].name) else c;
      ChildGrows(b.(name := d.name), v, n);
      name := CallbacksAdd(d, Child(v, n - 1), raw, printable);
      HandleJoin(b, before + named, d, Callbacks(Child(v, n - 1), raw, printable));
    }
  }

  /** A builder before the first callback; the value it is given may hold anything. */
  predicate IsNew(b: Builder) { b.current.None? && b.stack == [] }

  lemma AtomIsRebuilt(b: Builder, v: Value, raw: bool, printable: byte -> bool)
    requires IsNew(b) && v.Scalar?
    ensures HandleAll(b, Callbacks(v, raw, printable)) == Some(b.(value := v, current := Some([])))
  {
    HandleOne(b, Callbacks(v, raw, printable)[0]);
    if v.atom.Str? {
      GetStrOfQuoted(v.atom.s, raw, printable);
    }
  }

  lemma CompoundIsRebuilt(b: Builder, v: Value, raw: bool, printable: byte -> bool) returns (c: Builder)
    requires IsNew(b) && !v.Scalar?
    ensures HandleAll(b, Callbacks(v, raw, printable)) == Some(c)
    ensures c.value == v && c.current == Some([]) && c.stack == []
  {
    var begun := b.(value := Empty(v), current := Some([]));
    var name := ChildrenAdd(begun, v, Size(v), raw, printable);
    assert FirstChildren(v, Size(v)) == v;
    c := begun.(value := v, name := name);
    BeginFillEnd(b, begun, c, c, v, raw, printable);
  }

  /** The callbacks of any written value, in document order, rebuild exactly that value. */
  lemma DocumentIsRebuilt(b: Builder, v: Value, raw: bool, printable: byte -> bool) returns (c: Builder)
    requires IsNew(b)
    ensures HandleAll(b, Callbacks(v, raw, printable)) == Some(c)
    ensures c.value == v && c.current == Some([]) && c.stack == []
  {
    if v.Scalar? {
      AtomIsRebuilt(b, v, raw, printable);
      c := b.(value := v, current := Some([]));
    } else {
      c := CompoundIsRebuilt(b, v, raw, printable);
    }
  }

  /** Two values with the same callbacks are the same value. */
  lemma CallbacksDetermineValue(v: Value, w: Value, raw: bool, printable: byte -> bool)
    requires Callbacks(v, raw, printable) == Callbacks(w, raw, printable)
    ensures v == w
  {
    var b := Builder(Scalar(Null), None, [], []);
    var _ := DocumentIsRebuilt(b, v, raw, printable);
    var _ := DocumentIsRebuilt(b, w, raw, printable);
  }

  // ----- the object -----

  class SemanticActions {
    var value: Value
    var current: Option<Path>
    var stack: seq<Path>
    var name: Text

    function State(): Builder
      reads this
    {
      Builder(value, current, stack, name)
    }

    constructor (v: Value)
      ensures State() == Builder(v, None, [], []) && IsNew(State())
    {
      value, current, stack, name := v, None, [], [];
    }

    method AddFirst(v: Value)
      requires current.None?
      modifies this
      ensures AddToCurrent(old(State()), v) == Some(State())
    {
      value := v;
      current := Some([]);
    }

    /** Adds to the object or array pointed at, and returns the pointer to what was added. */
    method AddValue(v: Value) returns (p: Path)
      requires AddToCurrent(State(), v).Some?
      modifies this
      ensures AddToCurrent(old(State()), v) == Some(State())
      ensures p == if old(current).None? then [] else old(current).value + [Size(At(old(value), old(current).value))]
    {
      if current.None? {
        AddFirst(v);
        p := [];
      } else {
        var here := At(value, current.value);
        p := current.value + [Size(here)];
        value := Replaced(value, current.value, Grown(here, name, v));
      }
    }

    method Begin(empty: Value)
      requires BeginCompound(State(), empty).Some?
      modifies this
      ensures BeginCompound(old(State()), empty) == Some(State())
    {
      if current.None? {
        AddFirst(empty);
      } else {
        stack := stack + [current.value];
        var p := AddValue(empty);
        current := Some(p);
      }
    }

    method End()
      requires EndCompound(State()).Some?
      modifies this
      ensures EndCompound(old(State())) == Some(State())
    {
      if current != Some([]) {
        current := Some(stack[|stack| - 1]);
        stack := stack[..|stack| - 1];
      }
    }

    method On(e: Callback)
      requires Handle(State(), e).Some?
      modifies this
      ensures Handle(old(State()), e) == Some(State())
    {
      match e {
        case BeginObj => Begin(Object([]));
        case EndObj => End();
        case BeginArray => Begin(Array([]));
        case EndArray => End();
        case NewName(text) => name := GetStr(text);
        case NewStr(text) => var _ := AddValue(Scalar(Str(GetStr(text))));
        case NewAtom(a) => var _ := AddValue(Scalar(a));
      }
    }
  }
}
