/** The file tree a row encodes: full-path keys on one side, per-directory child lists on the other. */
module DirectoryTree {
  import opened Wrappers
  import opened Sequences
  import opened Text
  import opened KeyValue

  predicate DriveKey(k: string) {
    k != "" && k[0] == '/'
  }

  predicate DirAt(cols: Columns, p: string) {
    p in cols && cols[p].Dir?
  }

  function KindOf(c: Column): Kind
    requires !c.Mail?
  {
    if c.Dir? then DirKind else FileKind
  }

  predicate DistinctNames(es: seq<FdEntry>) {
    forall i, j :: 0 <= i < j < |es| ==> es[i].name != es[j].name
  }

  /** A list element stands for an existing column of its kind. */
  predicate ChildOk(cols: Columns, p: string, e: FdEntry) {
    && ValidName(e.name)
    && Path(p, e.name) in cols
    && !cols[Path(p, e.name)].Mail?
    && KindOf(cols[Path(p, e.name)]) == e.kind
  }

  /** A directory's list names existing columns of the listed kind, each once, and is as long as its counter. */
  ghost predicate Listed(cols: Columns, p: string)
    requires DirAt(cols, p)
  {
    && cols[p].numFiles == |cols[p].entries|
    && DistinctNames(cols[p].entries)
    && forall i :: 0 <= i < |cols[p].entries| ==> ChildOk(cols, p, cols[p].entries[i])
  }

  /** A column hangs off an existing directory that lists it. */
  ghost predicate Linked(cols: Columns, k: string)
    requires k in cols && !cols[k].Mail?
  {
    && '/' in k
    && ValidName(BaseOf(k))
    && DirAt(cols, ParentOf(k))
    && FdEntry(KindOf(cols[k]), BaseOf(k)) in cols[ParentOf(k)].entries
  }

  /** Mail keys have no separator and drive keys are rooted, so the two never meet. */
  predicate KeyOk(cols: Columns, k: string)
    requires k in cols
  {
    if cols[k].Mail? then '/' !in k else DriveKey(k)
  }

  ghost predicate TreeOk(cols: Columns) {
    && DirAt(cols, ROOT)
    && (forall k {:trigger KeyOk(cols, k)} :: k in cols ==> KeyOk(cols, k))
    && (forall k {:trigger Listed(cols, k)} :: DirAt(cols, k) ==> Listed(cols, k))
    && (forall k {:trigger Linked(cols, k)} :: k in cols && !cols[k].Mail? && k != ROOT ==> Linked(cols, k))
  }

  lemma FreshRowIsTree(password: string)
    ensures TreeOk(FreshRow(password).columns)
  {
    assert DriveKey(ROOT);
  }

  lemma RootParent()
    ensures '/' in ROOT && ParentOf(ROOT) == ""
  {
    assert ROOT[0] == '/';
    assert LastOf(ROOT, {'/'}) == 1;
  }

  /** Keys below a drive directory are drive keys other than the root. */
  lemma ChildKey(cols: Columns, dir: string, name: string)
    requires TreeOk(cols) && DirAt(cols, dir) && ValidName(name)
    ensures DriveKey(dir) && DriveKey(Path(dir, name)) && Path(dir, name) != ROOT && Path(dir, name) != dir
    ensures '/' in Path(dir, name) && ParentOf(Path(dir, name)) == dir && BaseOf(Path(dir, name)) == name
  {
    JoinSplit(dir, name);
    RootParent();
    assert KeyOk(cols, dir);
    assert Path(dir, name)[0] == dir[0];
  }

  /** What the invariant says of one directory: its list is exactly the columns keyed by its path and a name. */
  lemma ListIsChildren(cols: Columns, p: string, kind: Kind, name: string)
    requires TreeOk(cols) && DirAt(cols, p) && ValidName(name)
    ensures FdEntry(kind, name) in cols[p].entries <==>
            Path(p, name) in cols && !cols[Path(p, name)].Mail? && KindOf(cols[Path(p, name)]) == kind
    ensures cols[p].numFiles == |cols[p].entries| && DistinctNames(cols[p].entries)
  {
    assert Listed(cols, p);
    ChildKey(cols, p, name);
    var k := Path(p, name);
    if k in cols && !cols[k].Mail? {
      assert Linked(cols, k);
    }
  }

  // ---- Creation ----

  ghost function Linking(cols: Columns, dir: string, name: string, col: Column): Columns
    requires DirAt(cols, dir) && !col.Mail?
  {
    cols[Path(dir, name) := col]
        [dir := Dir(cols[dir].numFiles + 1, cols[dir].entries + [FdEntry(KindOf(col), name)])]
  }

  lemma LinkingLists(cols: Columns, dir: string, name: string, col: Column, k: string)
    requires TreeOk(cols) && DirAt(cols, dir) && ValidName(name) && Path(dir, name) !in cols
    requires col.File? || col == Dir(0, [])
    requires DirAt(Linking(cols, dir, name, col), k)
    ensures Listed(Linking(cols, dir, name, col), k)
  {
    var after, key := Linking(cols, dir, name, col), Path(dir, name);
    ChildKey(cols, dir, name);
    if k != key {
      assert Listed(cols, k);
      var es := cols[k].entries;
      forall i | 0 <= i < |es| ensures ChildOk(after, k, es[i]) && (k == dir ==> es[i].name != name) {
        assert ChildOk(cols, k, es[i]);
      }
    }
  }

  lemma LinkingLinks(cols: Columns, dir: string, name: string, col: Column, k: string)
    requires TreeOk(cols) && DirAt(cols, dir) && ValidName(name) && Path(dir, name) !in cols
    requires col.File? || col == Dir(0, [])
    requires k in Linking(cols, dir, name, col) && !Linking(cols, dir, name, col)[k].Mail? && k != ROOT
    ensures Linked(Linking(cols, dir, name, col), k)
  {
    var after, key := Linking(cols, dir, name, col), Path(dir, name);
    ChildKey(cols, dir, name);
    if k == key {
      assert after[dir].entries[|cols[dir].entries|] == FdEntry(KindOf(col), name);
    } else {
      assert Linked(cols, k);
      if ParentOf(k) == dir {
        var i :| 0 <= i < |cols[dir].entries| && cols[dir].entries[i] == FdEntry(KindOf(cols[k]), BaseOf(k));
        assert after[dir].entries[i] == cols[dir].entries[i];
      }
    }
  }

  lemma LinkingKeys(cols: Columns, dir: string, name: string, col: Column, k: string)
    requires TreeOk(cols) && DirAt(cols, dir) && ValidName(name) && !col.Mail?
    requires k in Linking(cols, dir, name, col)
    ensures KeyOk(Linking(cols, dir, name, col), k)
  {
    ChildKey(cols, dir, name);
    assert k in cols ==> KeyOk(cols, k);
  }

  lemma LinkIsLinking(cols: Columns, dir: string, name: string, col: Column)
    requires DirAt(cols, dir) && Path(dir, name) != dir && !col.Mail?
    ensures LinkToParent(cols[Path(dir, name) := col], dir, FdEntry(KindOf(col), name)) ==
            Some(Linking(cols, dir, name, col))
  {
  }

  lemma LinkKeepsTree(cols: Columns, dir: string, name: string, col: Column)
    requires TreeOk(cols) && DirAt(cols, dir) && ValidName(name) && Path(dir, name) !in cols
    requires col.File? || col == Dir(0, [])
    ensures TreeOk(Linking(cols, dir, name, col))
  {
    var after := Linking(cols, dir, name, col);
    ChildKey(cols, dir, name);
    forall k | k in after ensures KeyOk(after, k) { LinkingKeys(cols, dir, name, col, k); }
    forall k | DirAt(after, k) ensures Listed(after, k) { LinkingLists(cols, dir, name, col, k); }
    forall k | k in after && !after[k].Mail? && k != ROOT ensures Linked(after, k) {
      LinkingLinks(cols, dir, name, col, k);
    }
  }

  // ---- Removal ----

  /** A set of columns closed under children and under parents up to its top, a child of dir. */
  ghost predicate Prunable(cols: Columns, gone: set<string>, dir: string, top: string) {
    && DirAt(cols, dir) && top in gone && dir !in gone && ROOT !in gone
    && (forall k :: k in gone ==> k in cols && !cols[k].Mail? && (k != top ==> '/' in k && ParentOf(k) in gone))
    && (forall k :: k in cols && !cols[k].Mail? && '/' in k && ParentOf(k) in gone ==> k in gone)
  }

  ghost function Pruning(cols: Columns, gone: set<string>, dir: string, i: nat): Columns
    requires DirAt(cols, dir) && i < |cols[dir].entries|
  {
    (cols - gone)[dir := Dir(Pred(cols[dir].numFiles), Without(cols[dir].entries, i))]
  }

  lemma WithoutIndex(es: seq<FdEntry>, i: nat, j: nat)
    requires i < |es| && j < |es| - 1
    ensures |Without(es, i)| == |es| - 1
    ensures Without(es, i)[j] == if j < i then es[j] else es[j + 1]
  {
  }

  lemma WithoutKeeps(es: seq<FdEntry>, i: nat, j: nat)
    requires i < |es| && j < |es| && j != i
    ensures es[j] in Without(es, i)
  {
    var k := if j < i then j else j - 1;
    WithoutIndex(es, i, k);
    assert Without(es, i)[k] == es[j];
  }

  lemma WithoutIndices(es: seq<FdEntry>, i: nat)
    requires i < |es|
    ensures |Without(es, i)| == |es| - 1
    ensures forall j :: 0 <= j < |es| - 1 ==> Without(es, i)[j] == if j < i then es[j] else es[j + 1]
  {
    forall j | 0 <= j < |es| - 1 ensures Without(es, i)[j] == if j < i then es[j] else es[j + 1] {
      WithoutIndex(es, i, j);
    }
  }

  lemma WithoutMembers(es: seq<FdEntry>, i: nat)
    requires i < |es|
    ensures forall j :: 0 <= j < |es| && j != i ==> es[j] in Without(es, i)
  {
    forall j | 0 <= j < |es| && j != i ensures es[j] in Without(es, i) { WithoutKeeps(es, i, j); }
  }

  /** A listed child other than the one taken out is not among what is removed. */
  lemma PruningSpares(cols: Columns, gone: set<string>, dir: string, i: nat, k: string, j: nat)
    requires TreeOk(cols) && DirAt(cols, dir) && i < |cols[dir].entries|
    requires Prunable(cols, gone, dir, Path(dir, cols[dir].entries[i].name))
    requires DirAt(cols, k) && k !in gone && j < |cols[k].entries| && !(k == dir && j == i)
    ensures ValidName(cols[k].entries[j].name) && Path(k, cols[k].entries[j].name) !in gone
    ensures ChildOk(cols, k, cols[k].entries[j])
  {
    assert Listed(cols, k) && Listed(cols, dir);
    var name, top := cols[k].entries[j].name, cols[dir].entries[i].name;
    assert ChildOk(cols, k, cols[k].entries[j]) && ChildOk(cols, dir, cols[dir].entries[i]);
    ChildKey(cols, k, name);
    if Path(k, name) == Path(dir, top) { PathInjective(k, name, dir, top); }
  }

  lemma PruningLists(cols: Columns, gone: set<string>, dir: string, i: nat, k: string)
    requires TreeOk(cols) && DirAt(cols, dir) && i < |cols[dir].entries|
    requires Prunable(cols, gone, dir, Path(dir, cols[dir].entries[i].name))
    requires DirAt(Pruning(cols, gone, dir, i), k)
    ensures Listed(Pruning(cols, gone, dir, i), k)
  {
    var after := Pruning(cols, gone, dir, i);
    assert Listed(cols, k) && Listed(cols, dir);
    WithoutIndices(cols[dir].entries, i);
    WithoutMembers(cols[dir].entries, i);
    var es := cols[k].entries;
    forall j | 0 <= j < |es| && !(k == dir && j == i) ensures ChildOk(after, k, es[j]) {
      PruningSpares(cols, gone, dir, i, k, j);
    }
  }

  lemma PruningLinks(cols: Columns, gone: set<string>, dir: string, i: nat, k: string)
    requires TreeOk(cols) && DirAt(cols, dir) && i < |cols[dir].entries|
    requires Prunable(cols, gone, dir, Path(dir, cols[dir].entries[i].name))
    requires k in Pruning(cols, gone, dir, i) && !Pruning(cols, gone, dir, i)[k].Mail? && k != ROOT
    ensures Linked(Pruning(cols, gone, dir, i), k)
  {
    assert Linked(cols, k);
    WithoutIndices(cols[dir].entries, i);
    WithoutMembers(cols[dir].entries, i);
    SplitJoin(k);
  }

  /** Taking out such a set, and the one list element that names its top, keeps the tree. */
  lemma PruningKeepsTree(cols: Columns, gone: set<string>, dir: string, i: nat)
    requires TreeOk(cols) && DirAt(cols, dir) && i < |cols[dir].entries|
    requires Prunable(cols, gone, dir, Path(dir, cols[dir].entries[i].name))
    ensures TreeOk(Pruning(cols, gone, dir, i))
  {
    var after := Pruning(cols, gone, dir, i);
    forall k | k in after ensures KeyOk(after, k) { assert KeyOk(cols, k); }
    forall k | DirAt(after, k) ensures Listed(after, k) { PruningLists(cols, gone, dir, i, k); }
    forall k | k in after && !after[k].Mail? && k != ROOT ensures Linked(after, k) {
      PruningLinks(cols, gone, dir, i, k);
    }
  }

  /** No element before the wanted one would be taken for it. */
  ghost predicate NoEarlierPrefix(es: seq<FdEntry>, e: FdEntry) {
    forall i, j :: 0 <= i < j < |es| && es[j] == e ==> !Matches(es[i], e)
  }

  lemma FindIsExact(es: seq<FdEntry>, e: FdEntry)
    requires e in es && DistinctNames(es)
    ensures FindEntry(es, e) < |es|
    ensures es[FindEntry(es, e)] == e <==> NoEarlierPrefix(es, e)
  {
    var i := FindEntry(es, e);
    var j :| 0 <= j < |es| && es[j] == e;
    assert Matches(es[j], e);
    assert i <= j;
    assert es[i] == e <==> i == j;
    assert forall k :: 0 <= k < |es| && es[k] == e ==> k == j;
  }

  /** A list that still names a removed child breaks the invariant. */
  lemma StaleEntryBreaksTree(after: Columns, dir: string, e: FdEntry)
    requires DirAt(after, dir) && e in after[dir].entries && Path(dir, e.name) !in after
    ensures !TreeOk(after)
  {
    var i :| 0 <= i < |after[dir].entries| && after[dir].entries[i] == e;
    assert !Listed(after, dir) by { assert !ChildOk(after, dir, after[dir].entries[i]); }
  }

  lemma DeleteFileUnlinks(cols: Columns, dir: string, name: string)
    requires TreeOk(cols) && DirAt(cols, dir) && ValidName(name)
    requires Path(dir, name) in cols && cols[Path(dir, name)].File?
    ensures DistinctNames(cols[dir].entries) && FdEntry(FileKind, name) in cols[dir].entries
    ensures var i := FindEntry(cols[dir].entries, FdEntry(FileKind, name));
            && i < |cols[dir].entries|
            && DeleteFile(cols, dir, name) == (Pruning(cols, {Path(dir, name)}, dir, i), Success)
  {
    ChildKey(cols, dir, name);
    assert Linked(cols, Path(dir, name)) && Listed(cols, dir);
    FindIsExact(cols[dir].entries, FdEntry(FileKind, name));
  }

  lemma FileIsPrunable(cols: Columns, dir: string, name: string)
    requires TreeOk(cols) && DirAt(cols, dir) && ValidName(name)
    requires Path(dir, name) in cols && cols[Path(dir, name)].File?
    ensures Prunable(cols, {Path(dir, name)}, dir, Path(dir, name))
  {
    var key := Path(dir, name);
    ChildKey(cols, dir, name);
    RootParent();
    forall k | k in cols && !cols[k].Mail? && '/' in k && k != ROOT ensures ParentOf(k) != key {
      assert Linked(cols, k);
    }
  }

  /** delfile on an existing file keeps the tree exactly when its name is found before any prefix of it. */
  lemma DeleteFileKeepsTree(cols: Columns, dir: string, name: string)
    requires TreeOk(cols) && DirAt(cols, dir) && ValidName(name)
    requires Path(dir, name) in cols && cols[Path(dir, name)].File?
    ensures DeleteFile(cols, dir, name).1 == Success
    ensures TreeOk(DeleteFile(cols, dir, name).0) <==>
            NoEarlierPrefix(cols[dir].entries, FdEntry(FileKind, name))
  {
    var key, e, es := Path(dir, name), FdEntry(FileKind, name), cols[dir].entries;
    DeleteFileUnlinks(cols, dir, name);
    FindIsExact(es, e);
    var i := FindEntry(es, e);
    if NoEarlierPrefix(es, e) {
      FileIsPrunable(cols, dir, name);
      PruningKeepsTree(cols, {key}, dir, i);
    } else {
      WithoutIndices(es, i);
      WithoutMembers(es, i);
      StaleEntryBreaksTree(Pruning(cols, {key}, dir, i), dir, e);
    }
  }

  // ---- Subtrees ----

  /** The key lies in the subtree rooted at p: reached from it by following parents. */
  ghost predicate Descends(k: string, p: string)
    decreases |k|
  {
    k == p || ('/' in k && Descends(ParentOf(k), p))
  }

  lemma SlashAfter(p: string, k: string)
    ensures Path(p, "") <= k ==> |p| < |k| && k[|p|] == '/'
  {
    if Path(p, "") <= k {
      assert k[|p|] == Path(p, "")[|p|];
    }
  }

  lemma PrefixKeepsDrive(p: string, k: string)
    ensures DriveKey(p) && p <= k ==> DriveKey(k)
  {
  }

  lemma NoSlashBehind(up: string, base: string)
    requires '/' !in base
    ensures forall j :: |up| < j < |Path(up, base)| ==> Path(up, base)[j] != '/'
  {
    forall j | |up| < j < |Path(up, base)| ensures Path(up, base)[j] != '/' {
      assert Path(up, base)[j] == base[j - |up| - 1];
    }
  }

  /** A folder's path and a separator in front of a key reach into the key's last name nowhere. */
  lemma PrefixIsShort(up: string, base: string, p: string)
    requires '/' !in base && Path(p, "") <= Path(up, base)
    ensures |p| <= |up|
  {
    assert Path(up, base)[|p|] == Path(p, "")[|p|] == '/';
    NoSlashBehind(up, base);
  }

  lemma PrefixOfPath(up: string, base: string, p: string)
    requires '/' !in base && |p| <= |up|
    ensures Path(p, "") <= Path(up, base) <==> p == up || Path(p, "") <= up
  {
    var k := Path(up, base);
    assert k[..|up|] == up && k[|up|] == '/';
    if |p| == |up| {
      assert Path(p, "") <= k ==> p == k[..|p|];
      assert p == up ==> k[..|p| + 1] == Path(p, "");
    } else {
      assert k[..|p| + 1] == up[..|p| + 1];
    }
  }

  /** Prefixes seen from the last separator. */
  lemma PrefixOfParent(k: string, p: string)
    requires '/' in k && k != p
    ensures Path(p, "") <= k <==> p == ParentOf(k) || Path(p, "") <= ParentOf(k)
  {
    SplitJoin(k);
    if Path(p, "") <= k { PrefixIsShort(ParentOf(k), BaseOf(k), p); }
    if |p| <= |ParentOf(k)| { PrefixOfPath(ParentOf(k), BaseOf(k), p); }
  }

  lemma {:induction false} DescendsIsPrefix(k: string, p: string)
    ensures Descends(k, p) <==> k == p || Path(p, "") <= k
    decreases |k|
  {
    if k != p {
      if '/' in k {
        DescendsIsPrefix(ParentOf(k), p);
        PrefixOfParent(k, p);
      } else {
        SlashAfter(p, k);
      }
    }
  }

  /** A name that extends the folder's. */
  lemma LongerName(dir: string, name: string, base: string)
    requires Path(dir, name) < Path(dir, base)
    ensures name < base
  {
    assert Path(dir, base)[|dir| + 1..] == base && Path(dir, name)[|dir| + 1..] == name;
    assert Path(dir, base)[..|Path(dir, name)|] == Path(dir, name);
    assert base[..|name|] == name;
  }

  lemma DeeperParent(dir: string, name: string, up: string, base: string)
    requires '/' !in base && '/' !in name && Path(dir, name) < Path(up, base) && |dir| < |up|
    requires Path(up, base)[|dir| + 1 + |name|] != '/'
    ensures Path(dir, name) < up && up[|dir| + 1 + |name|] != '/'
  {
    var key, k := Path(dir, name), Path(up, base);
    NoSlashBehind(dir, name);
    assert forall j :: 0 <= j < |key| ==> k[j] == key[j];
    assert |key| <= |up| by { assert k[|up|] == '/'; }
    assert k[..|up|] == up;
    assert up[..|key|] == key;
  }

  /** The parent of a key that extends a folder's key without a separator: the folder's own parent, or
      again such a key. */
  lemma StrayParent(k: string, dir: string, name: string)
    requires ValidName(name) && Path(dir, name) < k && k[|dir| + 1 + |name|] != '/'
    ensures '/' in k
    ensures (ParentOf(k) == dir && name < BaseOf(k)) ||
            (Path(dir, name) < ParentOf(k) && ParentOf(k)[|dir| + 1 + |name|] != '/')
  {
    assert k[|dir|] == Path(dir, name)[|dir|] == '/';
    SplitJoin(k);
    var up, base := ParentOf(k), BaseOf(k);
    NoSlashBehind(up, base);
    if |up| == |dir| {
      assert up == k[..|up|] && dir == k[..|dir|];
      LongerName(dir, name, base);
    } else {
      DeeperParent(dir, name, up, base);
    }
  }

  /** A column whose key extends the folder's without a separator lies under a sibling whose name does. */
  lemma {:induction false} StrayHasSibling(cols: Columns, dir: string, name: string, k: string) returns (i: nat)
    requires TreeOk(cols) && DirAt(cols, dir) && ValidName(name)
    requires k in cols && Path(dir, name) < k && k[|dir| + 1 + |name|] != '/'
    ensures i < |cols[dir].entries| && name < cols[dir].entries[i].name
    decreases |k|
  {
    ChildKey(cols, dir, name);
    assert KeyOk(cols, k) && k[0] == Path(dir, name)[0];
    StrayParent(k, dir, name);
    RootParent();
    assert Linked(cols, k);
    if ParentOf(k) == dir {
      i :| 0 <= i < |cols[dir].entries| && cols[dir].entries[i] == FdEntry(KindOf(cols[k]), BaseOf(k));
    } else {
      i := StrayHasSibling(cols, dir, name, ParentOf(k));
    }
  }

  /** No sibling's name properly extends the folder's. */
  ghost predicate NoLongerSibling(es: seq<FdEntry>, name: string) {
    forall i :: 0 <= i < |es| ==> !(name < es[i].name)
  }

  ghost function Subtree(cols: Columns, top: string): set<string> {
    set k | k in cols && Descends(k, top)
  }

  lemma ScanSparesMail(cols: Columns, dir: string, name: string)
    requires TreeOk(cols) && DirAt(cols, dir) && ValidName(name)
    ensures forall k :: k in cols && cols[k].Mail? ==> k in Unprefixed(cols, Path(dir, name))
  {
    ChildKey(cols, dir, name);
    forall k | k in cols && cols[k].Mail? ensures !(Path(dir, name) <= k) {
      assert KeyOk(cols, k);
      PrefixKeepsDrive(Path(dir, name), k);
    }
  }

  lemma ScanKeepsOrCuts(cols: Columns, dir: string, name: string, k: string)
    requires TreeOk(cols) && DirAt(cols, dir) && ValidName(name) && k in cols
    requires NoLongerSibling(cols[dir].entries, name)
    ensures Path(dir, name) <= k <==> Descends(k, Path(dir, name))
  {
    var key := Path(dir, name);
    DescendsIsPrefix(k, key);
    assert Path(key, "")[..|key|] == key;
    if key < k {
      assert k[|key|] == '/' ==> k[..|key| + 1] == Path(key, "");
      if k[|key|] != '/' {
        var i := StrayHasSibling(cols, dir, name, k);
        assert false;
      }
    }
  }

  /** delfolder's prefix scan removes exactly the folder's subtree when, and only when, no sibling's name
      extends the folder's; mail columns always survive. */
  lemma ScanIsSubtree(cols: Columns, dir: string, name: string)
    requires TreeOk(cols) && DirAt(cols, dir) && ValidName(name)
    ensures Unprefixed(cols, Path(dir, name)) == cols - Subtree(cols, Path(dir, name)) <==>
            NoLongerSibling(cols[dir].entries, name)
    ensures forall k :: k in cols && cols[k].Mail? ==> k in Unprefixed(cols, Path(dir, name))
  {
    var key, es := Path(dir, name), cols[dir].entries;
    ScanSparesMail(cols, dir, name);
    var scanned, cut := Unprefixed(cols, key), cols - Subtree(cols, key);
    if NoLongerSibling(es, name) {
      forall k | k in cols ensures k in scanned <==> k in cut { ScanKeepsOrCuts(cols, dir, name, k); }
      assert scanned == cut;
    } else {
      var i :| 0 <= i < |es| && name < es[i].name;
      assert Listed(cols, dir);
      assert ChildOk(cols, dir, es[i]);
      var k := Path(dir, es[i].name);
      assert key <= k && k !in scanned;
      DescendsIsPrefix(k, key);
      assert k[|key|] == es[i].name[|name|];
      SlashAfter(key, k);
      assert k in cut;
    }
  }

  lemma SubtreeIsPrunable(cols: Columns, dir: string, name: string)
    requires TreeOk(cols) && DirAt(cols, dir) && ValidName(name) && Path(dir, name) in cols
    ensures Prunable(cols, Subtree(cols, Path(dir, name)), dir, Path(dir, name))
  {
    var key := Path(dir, name);
    ChildKey(cols, dir, name);
    RootParent();
    DescendsIsPrefix(dir, key);
    assert !Descends("", key) by { DescendsIsPrefix("", key); }
    forall k | k in Subtree(cols, key)
      ensures !cols[k].Mail? && (k != key ==> '/' in k && ParentOf(k) in Subtree(cols, key))
    {
      DescendsIsPrefix(k, key);
      assert k[0] == key[0] by { assert k != key ==> k[..|key|] == Path(key, "")[..|key|] == key; }
      assert KeyOk(cols, k);
      if k != key { assert Linked(cols, k); }
    }
  }

  lemma DeleteFolderUnlinks(cols: Columns, dir: string, name: string)
    requires TreeOk(cols) && DirAt(cols, dir) && ValidName(name) && DirAt(cols, Path(dir, name))
    ensures DistinctNames(cols[dir].entries) && FdEntry(DirKind, name) in cols[dir].entries
    ensures FindEntry(cols[dir].entries, FdEntry(DirKind, name)) < |cols[dir].entries|
    ensures DeleteFolder(cols, dir, name) ==
            (Unprefixed(cols, Path(dir, name))
               [dir := Dir(Pred(cols[dir].numFiles),
                           Without(cols[dir].entries, FindEntry(cols[dir].entries, FdEntry(DirKind, name))))], Success)
  {
    ChildKey(cols, dir, name);
    assert Linked(cols, Path(dir, name)) && Listed(cols, dir);
    FindIsExact(cols[dir].entries, FdEntry(DirKind, name));
  }

  lemma StrayScanBreaksTree(cols: Columns, dir: string, name: string)
    requires TreeOk(cols) && DirAt(cols, dir) && ValidName(name) && DirAt(cols, Path(dir, name))
    requires !NoEarlierPrefix(cols[dir].entries, FdEntry(DirKind, name)) || !NoLongerSibling(cols[dir].entries, name)
    ensures !TreeOk(DeleteFolder(cols, dir, name).0)
  {
    var e, es := FdEntry(DirKind, name), cols[dir].entries;
    DeleteFolderUnlinks(cols, dir, name);
    FindIsExact(es, e);
    var i, after := FindEntry(es, e), DeleteFolder(cols, dir, name).0;
    WithoutIndices(es, i);
    WithoutMembers(es, i);
    if !NoEarlierPrefix(es, e) {
      StaleEntryBreaksTree(after, dir, e);
    } else {
      var j :| 0 <= j < |es| && name < es[j].name;
      assert Path(dir, name) <= Path(dir, es[j].name);
      StaleEntryBreaksTree(after, dir, es[j]);
    }
  }

  lemma ExactScanKeepsTree(cols: Columns, dir: string, name: string)
    requires TreeOk(cols) && DirAt(cols, dir) && ValidName(name) && DirAt(cols, Path(dir, name))
    requires NoEarlierPrefix(cols[dir].entries, FdEntry(DirKind, name)) && NoLongerSibling(cols[dir].entries, name)
    ensures TreeOk(DeleteFolder(cols, dir, name).0)
  {
    var key, e, es := Path(dir, name), FdEntry(DirKind, name), cols[dir].entries;
    DeleteFolderUnlinks(cols, dir, name);
    FindIsExact(es, e);
    ScanIsSubtree(cols, dir, name);
    SubtreeIsPrunable(cols, dir, name);
    PruningKeepsTree(cols, Subtree(cols, key), dir, FindEntry(es, e));
  }

  /** delfolder on an existing folder keeps the tree exactly when neither prefix match strays. */
  lemma DeleteFolderKeepsTree(cols: Columns, dir: string, name: string)
    requires TreeOk(cols) && DirAt(cols, dir) && ValidName(name) && DirAt(cols, Path(dir, name))
    ensures DeleteFolder(cols, dir, name).1 == Success
    ensures TreeOk(DeleteFolder(cols, dir, name).0) <==>
            && NoEarlierPrefix(cols[dir].entries, FdEntry(DirKind, name))
            && NoLongerSibling(cols[dir].entries, name)
  {
    DeleteFolderUnlinks(cols, dir, name);
    if NoEarlierPrefix(cols[dir].entries, FdEntry(DirKind, name)) && NoLongerSibling(cols[dir].entries, name) {
      ExactScanKeepsTree(cols, dir, name);
    } else {
      StrayScanBreaksTree(cols, dir, name);
    }
  }

  // ---- Whole runs ----

  /** A file's name is found in its directory's list before any prefix of it. */
  ghost predicate FileIsFound(cols: Columns, dir: string, name: string) {
    DirAt(cols, dir) && NoEarlierPrefix(cols[dir].entries, FdEntry(FileKind, name))
  }

  /** So is a folder's, and the scan for its path stops at it. */
  ghost predicate FolderIsFound(cols: Columns, dir: string, name: string) {
    && DirAt(cols, dir) && NoEarlierPrefix(cols[dir].entries, FdEntry(DirKind, name))
    && NoLongerSibling(cols[dir].entries, name)
  }

  /** What a caller can check before a command: a column it is to create has a parent directory, one it is to change or
      take out is of its kind, and the prefix matches of the removal commands cannot stray. */
  ghost predicate Proper(cols: Columns, c: Command) {
    match c
    case MkFolder(_, dir, name) => Path(dir, name) in cols || DirAt(cols, dir)
    case PutFile(_, dir, name, _) => if Path(dir, name) in cols then cols[Path(dir, name)].File? else DirAt(cols, dir)
    case DelFile(_, dir, name) =>
      || Path(dir, name) !in cols
      || (cols[Path(dir, name)].File? && FileIsFound(cols, dir, name))
    case DelFolder(_, dir, name) =>
      || Path(dir, name) !in cols
      || (cols[Path(dir, name)].Dir? && FolderIsFound(cols, dir, name))
    case _ => true
  }

  /** The command is for the row of a user who exists, and a name in it is one a path can end in. */
  predicate Fits(c: Command) {
    match c
    case AddUser(_, _) => false
    case DeleteUser(_) => false
    case MkFolder(_, _, name) => ValidName(name)
    case PutFile(_, _, name, _) => ValidName(name)
    case DelFile(_, _, name) => ValidName(name)
    case DelFolder(_, _, name) => ValidName(name)
    case _ => true
  }

  /** The source defines what the command does, and the columns it leaves are a tree. */
  ghost predicate Sound(result: (Columns, Status)) {
    result.1 != Undefined && TreeOk(result.0)
  }

  function RunRow(row: Row, cs: seq<Command>): Row
    requires forall c :: c in cs ==> !c.AddUser? && !c.DeleteUser?
  {
    if cs == [] then row else RowEffect(RunRow(row, cs[..|cs| - 1]), cs[|cs| - 1]).0
  }

  ghost predicate ProperRun(row: Row, cs: seq<Command>)
    requires forall c :: c in cs ==> Fits(c)
    decreases |cs|
  {
    cs != [] ==>
      && ProperRun(row, cs[..|cs| - 1])
      && Proper(RunRow(row, cs[..|cs| - 1]).columns, cs[|cs| - 1])
  }

  ghost predicate SoundStep(row: Row, c: Command)
    requires Fits(c)
  {
    Sound((RowEffect(row, c).0.columns, RowEffect(row, c).1))
  }

  /** Every command of the run is defined and leaves a tree. */
  ghost predicate SoundRun(row: Row, cs: seq<Command>)
    requires forall c :: c in cs ==> Fits(c)
    decreases |cs|
  {
    cs != [] ==>
      && SoundRun(row, cs[..|cs| - 1])
      && SoundStep(RunRow(row, cs[..|cs| - 1]), cs[|cs| - 1])
  }

  /** The tree speaks of directories and of the kinds of the drive columns only. */
  lemma SameDrive(cols: Columns, after: Columns)
    requires TreeOk(cols)
    requires forall k :: k in after && (k !in cols || cols[k] != after[k]) ==> KeyOk(after, k)
    requires forall k :: k in cols && !cols[k].Mail? <==> k in after && !after[k].Mail?
    requires forall k :: DirAt(cols, k) || DirAt(after, k) ==> k in cols && k in after && cols[k] == after[k]
    ensures TreeOk(after)
  {
    forall k | k in after ensures KeyOk(after, k) { assert k in cols ==> KeyOk(cols, k); }
    forall k | DirAt(after, k) ensures Listed(after, k) {
      assert DirAt(cols, k) && Listed(cols, k);
      forall i | 0 <= i < |cols[k].entries| ensures ChildOk(after, k, cols[k].entries[i]) {
        assert ChildOk(cols, k, cols[k].entries[i]);
        var child := Path(k, cols[k].entries[i].name);
        assert DirAt(cols, child) <==> DirAt(after, child);
      }
    }
    forall k | k in after && !after[k].Mail? && k != ROOT ensures Linked(after, k) {
      assert Linked(cols, k);
      assert DirAt(cols, k) <==> DirAt(after, k);
    }
  }

  lemma MailKeepsTree(cols: Columns, id: nat, col: Column)
    requires TreeOk(cols) && col.Mail?
    ensures TreeOk(cols - {Decimal(id)})
    ensures Decimal(id) !in cols ==> TreeOk(cols[Decimal(id) := col])
  {
    var k := Decimal(id);
    assert '/' !in k;
    var less := cols - {k};
    assert k in cols ==> KeyOk(cols, k);
    SameDrive(cols, less);
    if k !in cols {
      SameDrive(cols, cols[k := col]);
    }
  }

  lemma AppendKeepsTree(cols: Columns, key: string, data: string)
    requires TreeOk(cols) && key in cols && cols[key].File?
    ensures TreeOk(cols[key := File(data)])
  {
    assert KeyOk(cols, key);
    SameDrive(cols, cols[key := File(data)]);
  }

  /** A column without a parent directory is linked nowhere. */
  lemma OrphanBreaksTree(cols: Columns, dir: string, name: string, col: Column)
    requires TreeOk(cols) && ValidName(name) && dir !in cols && Path(dir, name) !in cols && !col.Mail?
    ensures !TreeOk(cols[Path(dir, name) := col])
  {
    var after := cols[Path(dir, name) := col];
    JoinSplit(dir, name);
    assert !Linked(after, Path(dir, name));
  }

  /** A drive column hangs off a directory that lists it, unless it is the root. */
  lemma Hangs(cols: Columns, dir: string, name: string)
    requires TreeOk(cols) && ValidName(name) && Path(dir, name) in cols
    ensures !cols[Path(dir, name)].Mail?
    ensures Path(dir, name) == ROOT ==> dir == "" && !DirAt(cols, dir)
    ensures Path(dir, name) != ROOT ==>
              && DirAt(cols, dir) && DistinctNames(cols[dir].entries)
              && FdEntry(KindOf(cols[Path(dir, name)]), name) in cols[dir].entries
  {
    var key := Path(dir, name);
    JoinSplit(dir, name);
    RootParent();
    assert KeyOk(cols, key);
    assert dir in cols ==> KeyOk(cols, dir);
    if key != ROOT {
      assert Linked(cols, key);
      assert Listed(cols, dir);
    }
  }

  lemma CreateFolderExactly(cols: Columns, dir: string, name: string)
    requires TreeOk(cols) && ValidName(name)
    ensures Sound(CreateFolder(cols, dir, name)) <==> Path(dir, name) in cols || DirAt(cols, dir)
  {
    if Path(dir, name) !in cols {
      if DirAt(cols, dir) {
        ChildKey(cols, dir, name);
        LinkKeepsTree(cols, dir, name, Dir(0, []));
        LinkIsLinking(cols, dir, name, Dir(0, []));
      } else if dir !in cols {
        OrphanBreaksTree(cols, dir, name, Dir(0, []));
      }
    }
  }

  lemma StoreFileExactly(cols: Columns, dir: string, name: string, data: string)
    requires TreeOk(cols) && ValidName(name)
    ensures Sound(StoreFile(cols, dir, name, data)) <==>
            if Path(dir, name) in cols then cols[Path(dir, name)].File? else DirAt(cols, dir)
  {
    var key := Path(dir, name);
    if key in cols {
      if cols[key].File? { AppendKeepsTree(cols, key, cols[key].data + data); }
    } else if DirAt(cols, dir) {
      ChildKey(cols, dir, name);
      LinkKeepsTree(cols, dir, name, File(data));
      LinkIsLinking(cols, dir, name, File(data));
    } else if dir !in cols {
      OrphanBreaksTree(cols, dir, name, File(data));
    }
  }

  /** A column taken out by the command for the other kind stays listed, whatever list element goes instead. */
  lemma WrongKindBreaksTree(cols: Columns, rest: Columns, dir: string, name: string, kind: Kind)
    requires DirAt(cols, dir) && dir in rest && rest[dir] == cols[dir] && Path(dir, name) !in rest
    requires FdEntry(if kind == DirKind then FileKind else DirKind, name) in cols[dir].entries
    ensures Path(dir, name) != dir ==> !Sound(Commit(cols, UnlinkFromParent(rest, dir, FdEntry(kind, name))))
  {
    var es, e := cols[dir].entries, FdEntry(kind, name);
    var other := FdEntry(if kind == DirKind then FileKind else DirKind, name);
    var i := FindEntry(es, e);
    if i < |es| && Path(dir, name) != dir {
      WithoutMembers(es, i);
      var j :| 0 <= j < |es| && es[j] == other;
      StaleEntryBreaksTree(rest[dir := Dir(Pred(cols[dir].numFiles), Without(es, i))], dir, other);
    }
  }

  lemma RootStays(cols: Columns, rest: Columns, dir: string, e: FdEntry)
    requires ROOT !in rest && dir != ROOT
    ensures !Sound(Commit(cols, UnlinkFromParent(rest, dir, e)))
  {
  }

  lemma DeleteFileExactly(cols: Columns, dir: string, name: string)
    requires TreeOk(cols) && ValidName(name)
    ensures Sound(DeleteFile(cols, dir, name)) <==>
            || Path(dir, name) !in cols
            || (cols[Path(dir, name)].File? && FileIsFound(cols, dir, name))
  {
    var key := Path(dir, name);
    if key in cols {
      Hangs(cols, dir, name);
      if key == ROOT {
        RootStays(cols, cols - {key}, dir, FdEntry(FileKind, name));
      } else if cols[key].File? {
        DeleteFileKeepsTree(cols, dir, name);
      } else {
        ChildKey(cols, dir, name);
        WrongKindBreaksTree(cols, cols - {key}, dir, name, FileKind);
      }
    }
  }

  lemma DeleteFolderExactly(cols: Columns, dir: string, name: string)
    requires TreeOk(cols) && ValidName(name)
    ensures Sound(DeleteFolder(cols, dir, name)) <==>
            || Path(dir, name) !in cols
            || (cols[Path(dir, name)].Dir? && FolderIsFound(cols, dir, name))
  {
    var key := Path(dir, name);
    if key in cols {
      Hangs(cols, dir, name);
      if key == ROOT {
        RootStays(cols, Unprefixed(cols, key), dir, FdEntry(DirKind, name));
      } else if cols[key].Dir? {
        DeleteFolderKeepsTree(cols, dir, name);
      } else {
        ChildKey(cols, dir, name);
        WrongKindBreaksTree(cols, Unprefixed(cols, key), dir, name, DirKind);
      }
    }
  }

  /** A command on a tree is defined by the source and leaves a tree exactly when it is proper. */
  lemma StepKeepsTree(row: Row, c: Command)
    requires TreeOk(row.columns) && Fits(c)
    ensures SoundStep(row, c) <==> Proper(row.columns, c)
  {
    var cols := row.columns;
    match c {
      case ChangePassword(_, _, _) =>
      case PutMail(_, header, body) =>
        MailKeepsTree(cols, row.numEmails + 1, Mail(row.numEmails + 1, header, body));
      case DelMail(_, id) =>
        MailKeepsTree(cols, id, Mail(id, MailHeader("", "", "", ""), ""));
      case PutFile(_, dir, name, data) => StoreFileExactly(cols, dir, name, data);
      case DelFile(_, dir, name) => DeleteFileExactly(cols, dir, name);
      case MkFolder(_, dir, name) => CreateFolderExactly(cols, dir, name);
      case DelFolder(_, dir, name) => DeleteFolderExactly(cols, dir, name);
    }
  }

  /** From a fresh user, every command of a run is defined and leaves a tree exactly when each is proper where it
      comes. */
  lemma {:induction false} RunKeepsTree(password: string, cs: seq<Command>)
    requires forall c :: c in cs ==> Fits(c)
    ensures SoundRun(FreshRow(password), cs) <==> ProperRun(FreshRow(password), cs)
    ensures SoundRun(FreshRow(password), cs) ==> TreeOk(RunRow(FreshRow(password), cs).columns)
  {
    if cs == [] {
      FreshRowIsTree(password);
    } else {
      var front := cs[..|cs| - 1];
      RunKeepsTree(password, front);
      if SoundRun(FreshRow(password), front) {
        StepKeepsTree(RunRow(FreshRow(password), front), cs[|cs| - 1]);
      }
    }
  }

  // ---- Names that extend one another ----

  lemma RunRowNext(row: Row, cs: seq<Command>, c: Command)
    requires forall x :: x in cs + [c] ==> !x.AddUser? && !x.DeleteUser?
    ensures forall x :: x in cs ==> !x.AddUser? && !x.DeleteUser?
    ensures RunRow(row, cs + [c]) == RowEffect(RunRow(row, cs), c).0
  {
    FrontOfNext(cs, c);
    forall x | x in cs ensures !x.AddUser? && !x.DeleteUser? { assert x in cs + [c]; }
  }

  /** What the first two children of a fresh user's root leave. */
  predicate TwoChildren(cols: Columns, kind: Kind, first: string, second: string) {
    && DirAt(cols, ROOT) && cols[ROOT].entries == [FdEntry(kind, first), FdEntry(kind, second)]
    && (forall name :: name in {first, second} ==>
          Path(ROOT, name) in cols && !cols[Path(ROOT, name)].Mail? && KindOf(cols[Path(ROOT, name)]) == kind)
  }

  lemma TwoLinked(password: string, first: string, second: string, one: Column, two: Column)
    requires ValidName(first) && ValidName(second) && first != second
    requires (one.File? && two.File?) || one == two == Dir(0, [])
    ensures var blank := FreshRow(password).columns;
            && DirAt(blank, ROOT)
            && var cols := Linking(blank, ROOT, first, one);
               && DirAt(cols, ROOT) && TreeOk(cols)
               && TreeOk(Linking(cols, ROOT, second, two))
               && TwoChildren(Linking(cols, ROOT, second, two), KindOf(one), first, second)
               && Path(ROOT, first) !in blank && Path(ROOT, second) !in cols
  {
    var blank := FreshRow(password).columns;
    FreshRowIsTree(password);
    ChildKey(blank, ROOT, first);
    ChildKey(blank, ROOT, second);
    if Path(ROOT, first) == Path(ROOT, second) { PathInjective(ROOT, first, ROOT, second); }
    LinkKeepsTree(blank, ROOT, first, one);
    LinkKeepsTree(Linking(blank, ROOT, first, one), ROOT, second, two);
  }

  lemma PutIsLinking(row: Row, user: string, name: string, data: string)
    requires TreeOk(row.columns) && ValidName(name) && Path(ROOT, name) !in row.columns
    ensures RowEffect(row, PutFile(user, ROOT, name, data)).0 ==
            row.(columns := Linking(row.columns, ROOT, name, File(data)))
  {
    ChildKey(row.columns, ROOT, name);
    LinkIsLinking(row.columns, ROOT, name, File(data));
  }

  lemma MakeIsLinking(row: Row, user: string, name: string)
    requires TreeOk(row.columns) && ValidName(name) && Path(ROOT, name) !in row.columns
    ensures RowEffect(row, MkFolder(user, ROOT, name)).0 ==
            row.(columns := Linking(row.columns, ROOT, name, Dir(0, [])))
  {
    ChildKey(row.columns, ROOT, name);
    LinkIsLinking(row.columns, ROOT, name, Dir(0, []));
  }

  lemma RunTwo(row: Row, c: Command, d: Command)
    requires !c.AddUser? && !c.DeleteUser? && !d.AddUser? && !d.DeleteUser?
    ensures RunRow(row, [c, d]) == RowEffect(RowEffect(row, c).0, d).0
  {
    RunRowNext(row, [], c);
    RunRowNext(row, [c], d);
    LeftEmpty([c]);
    OneAndOne(c, d);
  }

  lemma TwoFiles(password: string, user: string, first: string, second: string, data: string)
    requires ValidName(first) && ValidName(second) && first != second
    ensures var cols := RunRow(FreshRow(password),
                               [PutFile(user, ROOT, first, data), PutFile(user, ROOT, second, data)]).columns;
            TreeOk(cols) && TwoChildren(cols, FileKind, first, second)
  {
    var start := FreshRow(password);
    FreshRowIsTree(password);
    TwoLinked(password, first, second, File(data), File(data));
    RunTwo(start, PutFile(user, ROOT, first, data), PutFile(user, ROOT, second, data));
    PutIsLinking(start, user, first, data);
    PutIsLinking(start.(columns := Linking(start.columns, ROOT, first, File(data))), user, second, data);
  }

  lemma TwoFolders(password: string, user: string, first: string, second: string)
    requires ValidName(first) && ValidName(second) && first != second
    ensures var cols := RunRow(FreshRow(password), [MkFolder(user, ROOT, first), MkFolder(user, ROOT, second)]).columns;
            TreeOk(cols) && TwoChildren(cols, DirKind, first, second)
  {
    var start := FreshRow(password);
    FreshRowIsTree(password);
    TwoLinked(password, first, second, Dir(0, []), Dir(0, []));
    RunTwo(start, MkFolder(user, ROOT, first), MkFolder(user, ROOT, second));
    MakeIsLinking(start, user, first);
    MakeIsLinking(start.(columns := Linking(start.columns, ROOT, first, Dir(0, []))), user, second);
  }

  /** A fresh user stores two files, the second name extending the first, and deletes the second: the list loses the
      first instead, and is no longer that of the columns. */
  lemma ExtendedFileBreaksTree(password: string, user: string, first: string, second: string, data: string)
    requires ValidName(first) && ValidName(second) && first < second
    ensures var cs := [PutFile(user, ROOT, first, data), PutFile(user, ROOT, second, data),
                       DelFile(user, ROOT, second)];
            !TreeOk(RunRow(FreshRow(password), cs).columns)
  {
    var puts := [PutFile(user, ROOT, first, data), PutFile(user, ROOT, second, data)];
    var row := RunRow(FreshRow(password), puts);
    TwoFiles(password, user, first, second, data);
    RunRowNext(FreshRow(password), puts, DelFile(user, ROOT, second));
    TwoAndOne(puts[0], puts[1], DelFile(user, ROOT, second));
    var es, e := row.columns[ROOT].entries, FdEntry(FileKind, second);
    assert second in {first, second};
    DeleteFileKeepsTree(row.columns, ROOT, second);
    assert es[1] == e && Matches(es[0], e);
    assert !NoEarlierPrefix(es, e);
  }

  lemma FirstIsFound(es: seq<FdEntry>, first: FdEntry, second: FdEntry)
    requires es == [first, second]
    ensures FindEntry(es, first) == 0 && Without(es, 0) == [second]
  {
    assert Matches(es[0], first);
  }

  lemma PathsExtend(first: string, second: string)
    requires first < second
    ensures Path(ROOT, first) <= Path(ROOT, second)
  {
  }

  lemma FirstFolderTakesSecond(cols: Columns, first: string, second: string)
    requires TreeOk(cols) && TwoChildren(cols, DirKind, first, second)
    requires ValidName(first) && ValidName(second) && first < second
    ensures var after := DeleteFolder(cols, ROOT, first).0;
            && Path(ROOT, second) !in after && !TreeOk(after)
            && DirAt(after, ROOT) && after[ROOT].entries == [FdEntry(DirKind, second)]
  {
    var es := cols[ROOT].entries;
    assert first in {first, second};
    DeleteFolderUnlinks(cols, ROOT, first);
    FirstIsFound(es, FdEntry(DirKind, first), FdEntry(DirKind, second));
    PathsExtend(first, second);
    ChildKey(cols, ROOT, second);
    assert !NoLongerSibling(es, first) by { assert first < es[1].name; }
    DeleteFolderKeepsTree(cols, ROOT, first);
  }

  /** A fresh user makes two folders, the second name extending the first, and deletes the first: the second is gone
      too, though still listed. */
  lemma ExtendedFolderIsRemoved(password: string, user: string, first: string, second: string)
    requires ValidName(first) && ValidName(second) && first < second
    ensures var cs := [MkFolder(user, ROOT, first), MkFolder(user, ROOT, second), DelFolder(user, ROOT, first)];
            var cols := RunRow(FreshRow(password), cs).columns;
            && Path(ROOT, second) !in cols && !TreeOk(cols)
            && DirAt(cols, ROOT) && cols[ROOT].entries == [FdEntry(DirKind, second)]
  {
    var makes := [MkFolder(user, ROOT, first), MkFolder(user, ROOT, second)];
    TwoFolders(password, user, first, second);
    RunRowNext(FreshRow(password), makes, DelFolder(user, ROOT, first));
    TwoAndOne(makes[0], makes[1], DelFolder(user, ROOT, first));
    FirstFolderTakesSecond(RunRow(FreshRow(password), makes).columns, first, second);
  }
}
