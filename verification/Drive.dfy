/** What the file commands answer and leave behind, and which of them undo each other. */
module Drive {
  import opened Text
  import opened KeyValue
  import opened DirectoryTree

  /** The two sets of columns differ at these two paths at most. */
  ghost predicate SameBut(cols: Columns, after: Columns, dir: string, key: string) {
    forall k :: k != dir && k != key ==> (k in cols <==> k in after) && (k in cols ==> after[k] == cols[k])
  }

  lemma PathIsLonger(dir: string, name: string)
    ensures Path(dir, name) != dir && !(Path(dir, name) <= dir)
  {
    assert |Path(dir, name)| > |dir|;
  }

  // ---- Answers ----

  /** mkfolder refuses a path that is taken, and otherwise leaves an empty folder there, listed last in its parent when
      that is a folder, and in none when there is no parent. */
  lemma MakingAnswers(cols: Columns, dir: string, name: string)
    ensures var (after, st), key := CreateFolder(cols, dir, name), Path(dir, name);
            && (st == FileExists <==> key in cols) && (st == FileExists ==> after == cols)
            && (st == Success <==> key !in cols && (dir in cols ==> cols[dir].Dir?))
            && (st == Success ==>
                  && key in after && after[key] == Dir(0, []) && SameBut(cols, after, dir, key)
                  && (dir in cols <==> dir in after)
                  && (dir in cols ==> after[dir] == Dir(cols[dir].numFiles + 1,
                                                        cols[dir].entries + [FdEntry(DirKind, name)])))
  {
    PathIsLonger(dir, name);
  }

  /** putfile appends to a file that is there, and otherwise leaves one with the data, listed likewise. */
  lemma PuttingAnswers(cols: Columns, dir: string, name: string, data: string)
    ensures var (after, st), key := StoreFile(cols, dir, name, data), Path(dir, name);
            && (st == Success <==> if key in cols then cols[key].File? else dir in cols ==> cols[dir].Dir?)
            && (st == Success ==>
                  && key in after && SameBut(cols, after, dir, key) && (dir in cols <==> dir in after)
                  && after[key] == File(if key in cols then cols[key].data + data else data)
                  && (dir in cols ==>
                        after[dir] == if key in cols then cols[dir]
                                      else Dir(cols[dir].numFiles + 1, cols[dir].entries + [FdEntry(FileKind, name)])))
  {
    PathIsLonger(dir, name);
  }

  /** The deletions refuse a path at which there is nothing; where they succeed, nothing is left at it, and nothing is
      added. */
  lemma DeletingAnswers(cols: Columns, dir: string, name: string)
    ensures var key := Path(dir, name);
            && (DeleteFile(cols, dir, name).1 == NoFile <==> key !in cols)
            && (DeleteFolder(cols, dir, name).1 == NoFile <==> key !in cols)
            && forall result :: result in {DeleteFile(cols, dir, name), DeleteFolder(cols, dir, name)} ==>
                 && (result.1 == NoFile ==> result.0 == cols)
                 && (result.1 == Success ==> key !in result.0 && result.0.Keys <= cols.Keys)
  {
    PathIsLonger(dir, name);
  }

  // ---- Undoing ----

  /** No element of the list would be taken for the wanted one. */
  ghost predicate NoneMatches(es: seq<FdEntry>, e: FdEntry) {
    forall i :: 0 <= i < |es| ==> !Matches(es[i], e)
  }

  lemma LastIsFound(es: seq<FdEntry>, e: FdEntry)
    requires e !in es
    ensures FindEntry(es + [e], e) <= |es|
    ensures Without(es + [e], FindEntry(es + [e], e)) == es <==> NoneMatches(es, e)
  {
    var longer, i := es + [e], FindEntry(es + [e], e);
    assert Matches(longer[|es|], e);
    if i == |es| {
      forall j | 0 <= j < |es| ensures !Matches(es[j], e) { assert longer[j] == es[j]; }
      assert Without(longer, i) == es;
    } else {
      assert Matches(longer[i], e) && longer[i] == es[i];
      assert Without(longer, i)[|es| - 1] == e;
    }
  }

  lemma FilePut(cols: Columns, dir: string, name: string, data: string)
    requires Path(dir, name) !in cols && (dir in cols ==> cols[dir].Dir?)
    ensures var key := Path(dir, name);
            StoreFile(cols, dir, name, data).0 ==
            if dir in cols then cols[key := File(data)][dir := Dir(cols[dir].numFiles + 1,
                                                                   cols[dir].entries + [FdEntry(FileKind, name)])]
            else cols[key := File(data)]
  {
    PathIsLonger(dir, name);
  }

  lemma BackAgain(cols: Columns, key: string, col: Column, dir: string, first: Column, second: Column)
    requires key !in cols && dir in cols && dir != key
    ensures (cols[key := col][dir := first] - {key})[dir := second] == cols <==> second == cols[dir]
  {
    var back := (cols[key := col][dir := first] - {key})[dir := second];
    assert back[dir] == second;
    if second == cols[dir] { assert back == cols; }
  }

  /** Storing a new file and deleting it gives the columns back exactly when no listed file's name is the start of its
      name, or when its folder does not exist. */
  lemma PutThenDelete(cols: Columns, dir: string, name: string, data: string)
    requires Path(dir, name) !in cols && (dir in cols ==> cols[dir].Dir?)
    requires dir in cols ==> FdEntry(FileKind, name) !in cols[dir].entries
    ensures DeleteFile(StoreFile(cols, dir, name, data).0, dir, name) == (cols, Success) <==>
            (dir in cols ==> NoneMatches(cols[dir].entries, FdEntry(FileKind, name)))
  {
    var key, e := Path(dir, name), FdEntry(FileKind, name);
    PathIsLonger(dir, name);
    FilePut(cols, dir, name, data);
    if dir in cols {
      var n, es := cols[dir].numFiles, cols[dir].entries;
      LastIsFound(es, e);
      var longer := Dir(n + 1, es + [e]);
      BackAgain(cols, key, File(data), dir, longer, Dir(n, Without(es + [e], FindEntry(es + [e], e))));
    } else {
      assert cols[key := File(data)] - {key} == cols;
    }
  }

  /** No path starts with the given one. */
  predicate NothingUnder(cols: Columns, key: string) {
    forall k :: k in cols ==> !(key <= k)
  }

  lemma FolderMade(cols: Columns, dir: string, name: string)
    requires Path(dir, name) !in cols && DirAt(cols, dir)
    ensures CreateFolder(cols, dir, name).0 ==
            cols[Path(dir, name) := Dir(0, [])]
                [dir := Dir(cols[dir].numFiles + 1, cols[dir].entries + [FdEntry(DirKind, name)])]
  {
    PathIsLonger(dir, name);
  }

  lemma BackWithout(cols: Columns, key: string, col: Column, dir: string, first: Column, second: Column)
    requires key !in cols && dir in cols && dir != key && !(key <= dir)
    ensures Unprefixed(cols[key := col][dir := first], key)[dir := second] == cols <==>
            second == cols[dir] && NothingUnder(cols, key)
  {
    var made := cols[key := col][dir := first];
    var back := Unprefixed(made, key)[dir := second];
    assert back[dir] == second;
    if second == cols[dir] && NothingUnder(cols, key) {
      forall k ensures k in back <==> k in cols { }
      assert back == cols;
    }
    if back == cols {
      forall k | k in cols ensures !(key <= k) { assert k in back; }
    }
  }

  /** Making a folder and deleting it gives the columns back exactly when no listed folder's name is the start of its
      name and no other path starts with its own. */
  lemma MakeThenDelete(cols: Columns, dir: string, name: string)
    requires Path(dir, name) !in cols && DirAt(cols, dir) && FdEntry(DirKind, name) !in cols[dir].entries
    ensures DeleteFolder(CreateFolder(cols, dir, name).0, dir, name) == (cols, Success) <==>
            NoneMatches(cols[dir].entries, FdEntry(DirKind, name)) && NothingUnder(cols, Path(dir, name))
  {
    var key, e, n, es := Path(dir, name), FdEntry(DirKind, name), cols[dir].numFiles, cols[dir].entries;
    PathIsLonger(dir, name);
    FolderMade(cols, dir, name);
    LastIsFound(es, e);
    BackWithout(cols, key, Dir(0, []), dir, Dir(n + 1, es + [e]), Dir(n, Without(es + [e], FindEntry(es + [e], e))));
  }
}
