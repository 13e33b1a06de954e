/** The log of file actions and the file table it maintains (src/action-log.cc, src/file-state.cc). */
module ActionLogs {
  import opened Names
  import opened StateVectors
  import opened SyncLogs

  /** The primary key of ActionLog: device_name, seq_no. */
  type Key = (Name, nat)

  datatype FileMeta = FileMeta(hash: seq<byte>, mtime: int, mode: int, segNum: int)

  datatype Kind = Upd(meta: FileMeta) | Del

  datatype Action = Action(device: Name, seqno: nat, filename: string, version: nat, what: Kind, parent: Option<Key>)

  datatype FileRow = FileRow(version: nat, device: Name, seqno: nat, meta: FileMeta)

  type Actions = map<Key, Action>

  datatype Store = Store(actions: Actions, files: map<string, FileRow>)

  const EMPTY_STORE := Store(map[], map[])

  // ----- specification functions -----

  function KeyOf(a: Action): Key { (a.device, a.seqno) }

  /** `b` outranks `a`: same file, and a later (version, device_name). */
  predicate Outranks(b: Action, a: Action) {
    && b.filename == a.filename
    && (b.version > a.version || (b.version == a.version && Before(a.device, b.device)))
  }

  /** One of the two subqueries in the insert trigger's WHEN clause finds a row. */
  predicate Beaten(actions: Actions, a: Action) {
    exists k :: k in actions && Outranks(actions[k], a)
  }

  function Apply(files: map<string, FileRow>, a: Action): map<string, FileRow> {
    match a.what
    case Upd(meta) => files[a.filename := FileRow(a.version, a.device, a.seqno, meta)]
    case Del => files - {a.filename}
  }

  /** INSERT INTO ActionLog with its AFTER trigger; a primary key conflict makes it fail without effect. */
  function Insert(st: Store, a: Action): Store {
    if KeyOf(a) in st.actions then st
    else
      var actions := st.actions[KeyOf(a) := a];
      Store(actions, if Beaten(actions, a) then st.files else Apply(st.files, a))
  }

  function InsertAll(st: Store, p: seq<Action>): Store {
    if p == [] then st else Insert(InsertAll(st, p[..|p| - 1]), p[|p| - 1])
  }

  /** What `ORDER BY version DESC LIMIT 1` may return; ties are broken arbitrarily. */
  ghost predicate IsLatest(actions: Actions, f: string, pick: Option<Key>) {
    match pick
    case None => forall k :: k in actions ==> actions[k].filename != f
    case Some(k) =>
      && k in actions && actions[k].filename == f
      && forall k' :: k' in actions && actions[k'].filename == f ==> actions[k'].version <= actions[k].version
  }

  ghost predicate HasUpdate(actions: Actions, pick: Option<Key>) {
    pick.Some? && pick.value in actions && actions[pick.value].what.Upd?
  }

  ghost function NextVersion(actions: Actions, pick: Option<Key>): nat {
    if pick.Some? && pick.value in actions then actions[pick.value].version + 1 else 0
  }

  ghost function LocalUpdate(actions: Actions, device: Name, seqno: nat, f: string, meta: FileMeta,
    pick: Option<Key>): Action {
    var parent := if HasUpdate(actions, pick) && pick.value.1 > 0 then pick else None;
    Action(device, seqno, f, NextVersion(actions, pick), Upd(meta), parent)
  }

  ghost function LocalDelete(actions: Actions, device: Name, seqno: nat, f: string, pick: Option<Key>): Action {
    Action(device, seqno, f, NextVersion(actions, pick), Del, pick)
  }

  // ----- the file table is the view of the winning actions -----

  ghost predicate Keyed(actions: Actions) {
    forall k :: k in actions ==> k == KeyOf(actions[k])
  }

  predicate SameStamp(a: Action, b: Action) {
    a.filename == b.filename && a.version == b.version && a.device == b.device
  }

  ghost predicate UniqueStamps(actions: Actions) {
    forall k, k' :: k in actions && k' in actions && SameStamp(actions[k], actions[k']) ==> k == k'
  }

  /** What the file table must say about an action that nothing outranks. */
  ghost predicate Shows(files: map<string, FileRow>, a: Action) {
    match a.what
    case Upd(meta) => a.filename in files && files[a.filename] == FileRow(a.version, a.device, a.seqno, meta)
    case Del => a.filename !in files
  }

  ghost predicate ViewOk(st: Store) {
    && (forall f :: f in st.files ==> exists k :: k in st.actions && st.actions[k].filename == f)
    && (forall k :: k in st.actions && !Beaten(st.actions, st.actions[k]) ==> Shows(st.files, st.actions[k]))
  }

  ghost predicate StoreOk(st: Store) {
    Keyed(st.actions) && UniqueStamps(st.actions) && ViewOk(st)
  }

  lemma BeatenGrows(actions: Actions, more: Actions, a: Action)
    requires forall k :: k in actions ==> k in more && more[k] == actions[k]
    requires Beaten(actions, a)
    ensures Beaten(more, a)
  {
    var k :| k in actions && Outranks(actions[k], a);
    assert Outranks(more[k], a);
  }

  /** Between two actions on one file with different stamps, one outranks the other. */
  lemma RankIsTotal(a: Action, b: Action)
    requires a.filename == b.filename
    ensures Outranks(a, b) || Outranks(b, a) || SameStamp(a, b)
    ensures !(Outranks(a, b) && Outranks(b, a))
  {
    BeforeIsTotal(a.device, b.device);
  }

  /** The winners of the files after an insertion are shown. */
  lemma InsertShowsWinners(st: Store, a: Action, k: Key)
    requires StoreOk(st) && UniqueStamps(Insert(st, a).actions) && KeyOf(a) !in st.actions
    requires k in Insert(st, a).actions && !Beaten(Insert(st, a).actions, Insert(st, a).actions[k])
    ensures Shows(Insert(st, a).files, Insert(st, a).actions[k])
  {
    var r := Insert(st, a);
    var b := r.actions[k];
    assert r.actions[KeyOf(a)] == a;
    if k != KeyOf(a) {
      if Beaten(st.actions, b) { BeatenGrows(st.actions, r.actions, b); }
      assert Shows(st.files, st.actions[k]);
      if b.filename == a.filename {
        RankIsTotal(a, b);
        assert Outranks(b, a);
        assert Beaten(r.actions, a);
      }
    }
  }

  lemma InsertNamesFiles(st: Store, a: Action, f: string)
    requires ViewOk(st) && KeyOf(a) !in st.actions && f in Insert(st, a).files
    ensures exists k :: k in Insert(st, a).actions && Insert(st, a).actions[k].filename == f
  {
    var r := Insert(st, a);
    if f == a.filename {
      assert r.actions[KeyOf(a)].filename == f;
    } else {
      assert f in st.files;
      var k :| k in st.actions && st.actions[k].filename == f;
      assert r.actions[k].filename == f;
    }
  }

  lemma RankIsTransitive(a: Action, b: Action, c: Action)
    requires Outranks(a, b) && Outranks(b, c)
    ensures Outranks(a, c)
  {
    if a.version == b.version == c.version {
      BeforeIsTransitive(c.device, b.device, a.device);
    }
  }

  lemma InsertKeepsView(st: Store, a: Action)
    requires StoreOk(st) && UniqueStamps(Insert(st, a).actions)
    ensures StoreOk(Insert(st, a))
  {
    if KeyOf(a) !in st.actions {
      var r := Insert(st, a);
      forall k | k in r.actions && !Beaten(r.actions, r.actions[k])
        ensures Shows(r.files, r.actions[k])
      {
        InsertShowsWinners(st, a, k);
      }
      forall f | f in r.files
        ensures exists k :: k in r.actions && r.actions[k].filename == f
      {
        InsertNamesFiles(st, a, f);
      }
    }
  }

  /** Among the actions of `keys` on file `f` there is one that none of `keys` outranks. */
  lemma {:induction false} WinnerExists(actions: Actions, f: string, keys: set<Key>) returns (w: Key)
    requires keys <= actions.Keys
    requires exists k :: k in keys && actions[k].filename == f
    ensures w in keys && actions[w].filename == f
    ensures forall k :: k in keys ==> !Outranks(actions[k], actions[w])
    decreases keys
  {
    w :| w in keys && actions[w].filename == f;
    RankIsTotal(actions[w], actions[w]);
    var rest := keys - {w};
    if exists k :: k in rest && Outranks(actions[k], actions[w]) {
      var k :| k in rest && Outranks(actions[k], actions[w]);
      var v := WinnerExists(actions, f, rest);
      RankIsTotal(actions[w], actions[v]);
      if Outranks(actions[w], actions[v]) {
        RankIsTransitive(actions[k], actions[w], actions[v]);
      }
      w := v;
    }
  }

  /** Replicas that hold the same actions show the same files. */
  lemma SameActionsSameFiles(s: Store, t: Store)
    requires ViewOk(s) && ViewOk(t) && s.actions == t.actions
    ensures s.files == t.files
  {
    forall f | f in s.files.Keys + t.files.Keys
      ensures f in s.files && f in t.files && s.files[f] == t.files[f]
    {
      assert exists k :: k in s.actions && s.actions[k].filename == f;
      var w := WinnerExists(s.actions, f, s.actions.Keys);
      assert !Beaten(s.actions, s.actions[w]);
      assert Shows(s.files, s.actions[w]) && Shows(t.files, s.actions[w]);
    }
    assert s.files.Keys == t.files.Keys;
  }

  // ----- arrival order -----

  /** A set of actions in which keys and stamps identify actions. */
  ghost predicate Consistent(p: seq<Action>) {
    forall a, b :: a in p && b in p && (KeyOf(a) == KeyOf(b) || SameStamp(a, b)) ==> a == b
  }

  ghost predicate HoldsExactly(st: Store, p: seq<Action>) {
    forall a :: a in p <==> KeyOf(a) in st.actions && st.actions[KeyOf(a)] == a
  }

  lemma ConsistentBefore(q: seq<Action>, a: Action)
    requires Consistent(q + [a])
    ensures Consistent(q)
  {
    assert forall b :: b in q ==> b in q + [a];
  }

  lemma InsertHolds(st: Store, q: seq<Action>, a: Action)
    requires Keyed(st.actions) && HoldsExactly(st, q) && Consistent(q + [a])
    ensures HoldsExactly(Insert(st, a), q + [a])
  {
    if KeyOf(a) in st.actions {
      assert st.actions[KeyOf(a)] in q;
      assert st.actions[KeyOf(a)] in q + [a] && a in q + [a];
    }
  }

  lemma InsertIsConsistent(st: Store, p: seq<Action>)
    requires Keyed(st.actions) && HoldsExactly(st, p) && Consistent(p)
    ensures UniqueStamps(st.actions)
  {
    forall k, k' | k in st.actions && k' in st.actions && SameStamp(st.actions[k], st.actions[k'])
      ensures k == k'
    {
      assert st.actions[k] in p && st.actions[k'] in p;
    }
  }

  lemma {:induction false} InsertAllKeepsView(p: seq<Action>)
    requires Consistent(p)
    ensures StoreOk(InsertAll(EMPTY_STORE, p)) && HoldsExactly(InsertAll(EMPTY_STORE, p), p)
  {
    if p != [] {
      var q, a := p[..|p| - 1], p[|p| - 1];
      assert p == q + [a];
      ConsistentBefore(q, a);
      InsertAllKeepsView(q);
      var st := InsertAll(EMPTY_STORE, q);
      InsertHolds(st, q, a);
      InsertIsConsistent(Insert(st, a), p);
      InsertKeepsView(st, a);
    }
  }

  /** Any two arrival orders, with any repetitions, of the same actions end in the same log and the same files. */
  lemma ArrivalOrderIsIrrelevant(p: seq<Action>, q: seq<Action>)
    requires Consistent(p)
    requires forall a :: a in p <==> a in q
    ensures InsertAll(EMPTY_STORE, p) == InsertAll(EMPTY_STORE, q)
  {
    InsertAllKeepsView(p);
    InsertAllKeepsView(q);
    var s, t := InsertAll(EMPTY_STORE, p), InsertAll(EMPTY_STORE, q);
    forall k | k in s.actions
      ensures k in t.actions && s.actions[k] == t.actions[k]
    {
      assert s.actions[k] in p;
    }
    forall k | k in t.actions
      ensures k in s.actions
    {
      assert t.actions[k] in q;
    }
    SameActionsSameFiles(s, t);
  }

  /**
   * For two actions of different keys the file table is independent of the order exactly when their
   * stamps differ or both are deletions: equal stamps let the later arrival win.
   */
  lemma OrderMattersIff(a: Action, b: Action)
    requires KeyOf(a) != KeyOf(b)
    ensures InsertAll(EMPTY_STORE, [a, b]) == InsertAll(EMPTY_STORE, [b, a]) <==>
      !SameStamp(a, b) || (a.what.Del? && b.what.Del?)
  {
    if !SameStamp(a, b) {
      ArrivalOrderIsIrrelevant([a, b], [b, a]);
    } else {
      BeforeIsTotal(a.device, a.device);
      forall x, y | (x == a && y == b) || (x == b && y == a)
        ensures InsertAll(EMPTY_STORE, [x, y]) == Store(map[KeyOf(x) := x, KeyOf(y) := y], Apply(Apply(map[], x), y))
      {
        TwoInserts(x, y);
      }
      assert map[KeyOf(a) := a, KeyOf(b) := b] == map[KeyOf(b) := b, KeyOf(a) := a];
      var ab, ba := Apply(Apply(map[], a), b), Apply(Apply(map[], b), a);
      if b.what.Upd? {
        assert ab[b.filename].seqno == b.seqno;
        assert a.filename in ba ==> ba[a.filename].seqno == a.seqno;
      } else if a.what.Upd? {
        assert a.filename !in ab && a.filename in ba;
      }
    }
  }

  lemma TwoInserts(x: Action, y: Action)
    requires KeyOf(x) != KeyOf(y) && SameStamp(x, y)
    ensures InsertAll(EMPTY_STORE, [x, y]) == Store(map[KeyOf(x) := x, KeyOf(y) := y], Apply(Apply(map[], x), y))
  {
    BeforeIsTotal(x.device, x.device);
    assert [x, y][..1] == [x] && [x][..0] == [];
    assert InsertAll(EMPTY_STORE, [x]) == Insert(EMPTY_STORE, x);
    assert !Beaten(map[KeyOf(x) := x], x);
    assert !Beaten(map[KeyOf(x) := x][KeyOf(y) := y], y);
  }

  // ----- local actions -----

  /** A local action outranks everything known locally and has a fresh stamp. */
  lemma LocalActionWins(st: Store, a: Action, pick: Option<Key>)
    requires StoreOk(st) && KeyOf(a) !in st.actions
    requires IsLatest(st.actions, a.filename, pick) && a.version == NextVersion(st.actions, pick)
    ensures !Beaten(Insert(st, a).actions, a)
    ensures StoreOk(Insert(st, a)) && Shows(Insert(st, a).files, a)
  {
    BeforeIsTotal(a.device, a.device);
    InsertKeepsView(st, a);
  }

  // ----- what the file table shows -----

  /** Of the actions on its file `a` has the highest version, and of those with that version the greatest device. */
  ghost predicate IsGreatest(actions: Actions, a: Action) {
    forall k :: k in actions && actions[k].filename == a.filename ==>
      actions[k].version < a.version ||
      (actions[k].version == a.version && (actions[k].device == a.device || Before(actions[k].device, a.device)))
  }

  lemma GreatestIffUnbeaten(actions: Actions, a: Action)
    ensures IsGreatest(actions, a) <==> !Beaten(actions, a)
  {
    forall k | k in actions && actions[k].filename == a.filename
      ensures Outranks(actions[k], a) <==>
        !(actions[k].version < a.version ||
          (actions[k].version == a.version && (actions[k].device == a.device || Before(actions[k].device, a.device))))
    {
      BeforeIsTotal(actions[k].device, a.device);
    }
  }

  /** What the greatest action of a file says is what the table shows, field by field. */
  lemma GreatestIsShown(st: Store, k: Key)
    requires StoreOk(st) && k in st.actions && IsGreatest(st.actions, st.actions[k])
    ensures var a := st.actions[k];
      match a.what
      case Del => a.filename !in st.files
      case Upd(meta) =>
        && a.filename in st.files
        && var row := st.files[a.filename];
          row.version == a.version && row.device == a.device && row.seqno == a.seqno && row.meta == meta
  {
    GreatestIffUnbeaten(st.actions, st.actions[k]);
  }

  /**
   * A file is shown exactly when it has actions and the greatest of them is an update, and then by that update: the one
   * of the highest version, and among those the one of the greatest device.
   */
  lemma FilesShowTheGreatest(st: Store, f: string)
    requires StoreOk(st)
    ensures f in st.files <==> exists k ::
      k in st.actions && st.actions[k].filename == f && IsGreatest(st.actions, st.actions[k]) && st.actions[k].what.Upd?
    ensures f in st.files ==>
      var k := (st.files[f].device, st.files[f].seqno);
      k in st.actions && st.actions[k].filename == f && IsGreatest(st.actions, st.actions[k])
    ensures (exists k :: k in st.actions && st.actions[k].filename == f) ==> exists k ::
      k in st.actions && st.actions[k].filename == f && IsGreatest(st.actions, st.actions[k])
  {
    if exists k :: k in st.actions && st.actions[k].filename == f {
      var w := WinnerExists(st.actions, f, st.actions.Keys);
      GreatestIffUnbeaten(st.actions, st.actions[w]);
      GreatestIsShown(st, w);
      forall k | k in st.actions && st.actions[k].filename == f && IsGreatest(st.actions, st.actions[k])
        ensures st.actions[k].what.Upd? ==> f in st.files
      {
        GreatestIsShown(st, k);
      }
    }
  }

  // ----- what local actions say -----

  /** A local update carries what it was called with and links to the latest action found, if that is an update. */
  lemma LocalUpdateSays(actions: Actions, device: Name, seqno: nat, f: string, meta: FileMeta, pick: Option<Key>)
    requires IsLatest(actions, f, pick)
    ensures var a := LocalUpdate(actions, device, seqno, f, meta, pick);
      && a.device == device && a.seqno == seqno && a.filename == f && a.what == Upd(meta)
      && (pick.None? ==> a.version == 0 && a.parent == None)
      && (pick.Some? ==> a.version == actions[pick.value].version + 1)
      && (pick.Some? ==> a.parent == if actions[pick.value].what.Upd? && pick.value.1 > 0 then pick else None)
  {
  }

  lemma LocalDeleteSays(actions: Actions, device: Name, seqno: nat, f: string, pick: Option<Key>)
    requires IsLatest(actions, f, pick) && pick.Some?
    ensures var a := LocalDelete(actions, device, seqno, f, pick);
      && a.device == device && a.seqno == seqno && a.filename == f && a.what == Del
      && a.version == actions[pick.value].version + 1 && a.parent == pick
  {
  }

  /** No deletion of the file has its highest version. */
  ghost predicate NotDeleted(actions: Actions, f: string) {
    forall k :: IsLatest(actions, f, Some(k)) ==> actions[k].what.Upd?
  }

  /** An update has no parent exactly when nothing was found, or a deletion, or number 0, which is not used. */
  ghost predicate LinksTo(actions: Actions, a: Action, pick: Option<Key>)
    requires pick.Some? ==> pick.value in actions
  {
    && (a.parent == None <==> pick == None || actions[pick.value].what.Del? || pick.value.1 == 0)
    && (a.parent.Some? ==> a.parent == pick && a.version == actions[pick.value].version + 1)
  }

  /** Of a file that is shown and not also deleted in its highest version, a local update always has a parent. */
  lemma ShownFileIsLinked(st: Store, a: Action, pick: Option<Key>)
    requires StoreOk(st) && IsLatest(st.actions, a.filename, pick) && LinksTo(st.actions, a, pick)
    requires forall k :: k in st.actions ==> k.1 > 0
    requires a.filename in st.files && NotDeleted(st.actions, a.filename)
    ensures a.parent.Some? && a.parent.value in st.actions && IsLatest(st.actions, a.filename, a.parent)
    ensures var b := st.actions[a.parent.value];
      b.what.Upd? && b.filename == a.filename && a.version == b.version + 1
  {
    FilesShowTheGreatest(st, a.filename);
  }

  /** An update and a deletion of the file share its highest version. */
  ghost predicate Tied(actions: Actions, f: string) {
    exists k, k' :: IsLatest(actions, f, Some(k)) && IsLatest(actions, f, Some(k')) &&
      actions[k].what.Upd? && actions[k'].what.Del?
  }

  /** Some action of the highest version is what the file table shows. */
  lemma LatestIsShown(st: Store, f: string) returns (pick: Option<Key>)
    requires StoreOk(st)
    ensures IsLatest(st.actions, f, pick) && (HasUpdate(st.actions, pick) <==> f in st.files)
  {
    pick := None;
    if exists k :: k in st.actions.Keys && st.actions[k].filename == f {
      var w := WinnerExists(st.actions, f, st.actions.Keys);
      assert !Beaten(st.actions, st.actions[w]);
      pick := Some(w);
    }
  }

  /**
   * A local deletion finds an update, and so is logged, exactly for the files that are shown, whatever the query for
   * the highest version returns, if and only if no update and deletion tie for that version.
   */
  lemma DeletionIsLoggedIff(st: Store, f: string)
    requires StoreOk(st)
    ensures (forall pick :: IsLatest(st.actions, f, pick) ==> (HasUpdate(st.actions, pick) <==> f in st.files)) <==>
      !Tied(st.actions, f)
  {
    var shown := LatestIsShown(st, f);
    if Tied(st.actions, f) {
      var k, k' :| IsLatest(st.actions, f, Some(k)) && IsLatest(st.actions, f, Some(k')) &&
        st.actions[k].what.Upd? && st.actions[k'].what.Del?;
      assert HasUpdate(st.actions, Some(k)) && !HasUpdate(st.actions, Some(k'));
    } else {
      forall pick | IsLatest(st.actions, f, pick)
        ensures HasUpdate(st.actions, pick) <==> f in st.files
      {
        assert pick.Some? <==> shown.Some?;
      }
    }
  }

  // ----- the objects -----

  class FileState {
    var rows: map<string, FileRow>

    constructor ()
      ensures rows == map[]
    {
      rows := map[];
    }

    /** UPDATE, and INSERT when no row was affected. */
    method UpdateFile(filename: string, version: nat, device: Name, seqno: nat, meta: FileMeta)
      modifies this
      ensures rows == old(rows)[filename := FileRow(version, device, seqno, meta)]
    {
      rows := rows[filename := FileRow(version, device, seqno, meta)];
    }

    method DeleteFile(filename: string)
      modifies this
      ensures rows == old(rows) - {filename}
    {
      rows := rows - {filename};
    }
  }

  class ActionLog {
    const syncLog: SyncLog
    const fileState: FileState
    var actions: Actions
    var removed: seq<string>  // calls of the onFileRemoved callback

    ghost function Value(): Store
      reads this, fileState
    {
      Store(actions, fileState.rows)
    }

    ghost predicate Valid()
      reads this, fileState, syncLog
    {
      && StoreOk(Value())
      && syncLog.Valid()
      && forall k :: k in actions && k.0 == syncLog.localName ==> k.1 <= syncLog.nodes[syncLog.localName]
    }

    constructor (log: SyncLog)
      requires log.Valid()
      ensures Valid() && Value() == EMPTY_STORE && syncLog == log && fresh(fileState)
    {
      syncLog := log;
      fileState := new FileState();
      actions := map[];
      removed := [];
    }

    /** apply_action: updates the file table, or removes the file and reports the removal. */
    method ApplyAction(a: Action)
      modifies this`removed, fileState
      ensures fileState.rows == Apply(old(fileState.rows), a)
      ensures removed == old(removed) + if a.what.Del? then [a.filename] else []
    {
      match a.what {
        case Upd(meta) =>
          fileState.UpdateFile(a.filename, a.version, a.device, a.seqno, meta);
        case Del =>
          fileState.DeleteFile(a.filename);
          removed := removed + [a.filename];
      }
    }

    method InsertRow(a: Action)
      modifies this, fileState
      ensures Value() == Insert(old(Value()), a)
      ensures forall k :: k in old(actions) ==> k in actions && actions[k] == old(actions)[k]
      ensures actions.Keys == old(actions).Keys + {KeyOf(a)}
      ensures KeyOf(a) !in old(actions) ==> actions[KeyOf(a)] == a
      ensures fileState.rows ==
        if KeyOf(a) in old(actions) || !IsGreatest(actions, a) then old(fileState.rows)
        else match a.what
          case Upd(meta) => old(fileState.rows)[a.filename := FileRow(a.version, a.device, a.seqno, meta)]
          case Del => old(fileState.rows) - {a.filename}
      ensures removed == old(removed) +
        if KeyOf(a) !in old(actions) && a.what.Del? && IsGreatest(actions, a) then [a.filename] else []
    {
      GreatestIffUnbeaten(actions[KeyOf(a) := a], a);
      if KeyOf(a) !in actions {
        actions := actions[KeyOf(a) := a];
        if !Beaten(actions, a) {
          ApplyAction(a);
        }
      }
    }

    /** The row that the query for the highest version returns. */
    method GetLatestActionForFile(f: string) returns (pick: Option<Key>)
      ensures IsLatest(actions, f, pick)
    {
      pick := None;
      var todo := actions.Keys;
      while todo != {}
        invariant todo <= actions.Keys
        invariant pick.Some? ==> pick.value in actions && actions[pick.value].filename == f
        invariant forall k :: k in actions.Keys - todo && actions[k].filename == f ==>
          pick.Some? && actions[k].version <= actions[pick.value].version
      {
        var k :| k in todo;
        if actions[k].filename == f && (pick.None? || actions[pick.value].version < actions[k].version) {
          pick := Some(k);
        }
        todo := todo - {k};
      }
    }

    /** The next local number, under which nothing is logged yet. */
    method TakeSeqNo() returns (seqno: nat)
      requires Valid()
      modifies syncLog`nodes
      ensures Valid() && (syncLog.localName, seqno) !in actions
      ensures syncLog.nodes == old(syncLog.nodes)[syncLog.localName := seqno]
      ensures seqno == old(syncLog.nodes[syncLog.localName]) + 1
    {
      seqno := syncLog.GetNextLocalSeqNo();
    }

    /** Inserts a new action of this device, which nothing known outranks. */
    method InsertLocal(a: Action, ghost pick: Option<Key>)
      requires Valid() && KeyOf(a) !in actions
      requires a.device == syncLog.localName && a.seqno <= syncLog.nodes[syncLog.localName]
      requires IsLatest(actions, a.filename, pick) && a.version == NextVersion(actions, pick)
      modifies this, fileState
      ensures Valid() && Value() == Insert(old(Value()), a) && Shows(fileState.rows, a)
    {
      LocalActionWins(Value(), a, pick);
      InsertRow(a);
    }

    /** Logs a local change under the next local number; the file shows it at once. */
    method AddLocalActionUpdate(f: string, meta: FileMeta) returns (a: Action, ghost pick: Option<Key>)
      requires Valid()
      modifies this, fileState, syncLog`nodes
      ensures Valid()
      ensures IsLatest(old(actions), f, pick)
      ensures a == LocalUpdate(old(actions), syncLog.localName, syncLog.nodes[syncLog.localName], f, meta, pick)
      ensures syncLog.nodes == old(syncLog.nodes)[syncLog.localName := old(syncLog.nodes[syncLog.localName]) + 1]
      ensures KeyOf(a) !in old(actions) && Value() == Insert(old(Value()), a)
      ensures a.device == syncLog.localName && a.filename == f && a.what == Upd(meta)
      ensures a.seqno == old(syncLog.nodes[syncLog.localName]) + 1
      ensures a.version == if pick.None? then 0 else old(actions)[pick.value].version + 1
      ensures LinksTo(old(actions), a, pick)
      ensures Shows(fileState.rows, a)
    {
      var seqno := TakeSeqNo();
      var latest := GetLatestActionForFile(f);
      pick := latest;
      var version, parent := 0, None;
      if latest.Some? {
        version := actions[latest.value].version + 1;
        if actions[latest.value].what.Upd? && latest.value.1 > 0 {
          parent := latest;
        }
      }
      a := Action(syncLog.localName, seqno, f, version, Upd(meta), parent);
      InsertLocal(a, pick);
    }

    /** Logs a local deletion, unless the latest action found is missing or is itself a deletion. */
    method AddLocalActionDelete(f: string) returns (r: Option<Action>, ghost pick: Option<Key>)
      requires Valid()
      modifies this, fileState, syncLog`nodes
      ensures Valid()
      ensures IsLatest(old(actions), f, pick)
      ensures r.Some? <==> HasUpdate(old(actions), pick)
      ensures r.None? ==> Value() == old(Value()) && syncLog.nodes == old(syncLog.nodes)
      ensures r.Some? ==>
        && r.value == LocalDelete(old(actions), syncLog.localName, syncLog.nodes[syncLog.localName], f, pick)
        && syncLog.nodes == old(syncLog.nodes)[syncLog.localName := old(syncLog.nodes[syncLog.localName]) + 1]
        && KeyOf(r.value) !in old(actions) && Value() == Insert(old(Value()), r.value)
        && f !in fileState.rows
      ensures r.Some? ==>
        && r.value.device == syncLog.localName && r.value.filename == f && r.value.what == Del
        && r.value.seqno == old(syncLog.nodes[syncLog.localName]) + 1
        && r.value.version == old(actions)[pick.value].version + 1 && r.value.parent == pick
    {
      r := None;
      var latest := GetLatestActionForFile(f);
      pick := latest;
      if latest.Some? && actions[latest.value].what.Upd? {
        var seqno := TakeSeqNo();
        var a := Action(syncLog.localName, seqno, f, actions[latest.value].version + 1, Del, latest);
        InsertLocal(a, pick);
        r := Some(a);
      }
    }

    /**
     * Logs a fetched action (None when it cannot be decoded); the trigger decides whether it is applied.
     * The object stays valid as long as the action's stamp is new and it does not run ahead of the local counter.
     */
    method AddRemoteAction(item: Option<Action>) returns (r: Option<Action>)
      requires Valid()
      modifies this, fileState
      ensures r == item
      ensures Value() == if item.Some? then Insert(old(Value()), item.value) else old(Value())
      ensures
        (UniqueStamps(actions) &&
         (item.Some? && item.value.device == syncLog.localName ==>
           item.value.seqno <= syncLog.nodes[syncLog.localName]))
        ==> Valid()
    {
      r := item;
      if item.Some? {
        if UniqueStamps(Insert(Value(), item.value).actions) {
          InsertKeepsView(Value(), item.value);
        }
        InsertRow(item.value);
      }
    }
  }
}
