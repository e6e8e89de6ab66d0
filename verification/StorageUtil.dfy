/** The web front end's side of storage: uploads in chunks, folder listings, and path splitting. */
module StorageUtil {
  import opened Sequences
  import opened Text
  import opened KeyValue

  const CHUNK_SIZE: nat := 2048
  const MAX_FOLDER_INFO_LENGTH: nat := 128

  // ---- Upload ----

  /** The chunks an upload is sent in: full ones, then a last one that is empty only for empty data. */
  function Chunks(data: string): (cs: seq<string>)
    ensures cs != []
    ensures forall k :: 0 <= k < |cs| ==> |cs[k]| <= 2048 && (k < |cs| - 1 ==> |cs[k]| == 2048)
    ensures data != "" ==> cs[|cs| - 1] != ""
  {
    if |data| <= CHUNK_SIZE then [data] else [data[..CHUNK_SIZE]] + Chunks(data[CHUNK_SIZE..])
  }

  /** The loop of upload_next_part: what is still to be sent starts at chunk_id * CHUNK_SIZE. */
  method SendChunks(data: string) returns (sent: seq<string>)
    ensures sent == Chunks(data)
  {
    var sizeYetToSend, chunkId := |data|, 0;
    sent := [];
    FirstChunkOf(data);
    while sizeYetToSend > CHUNK_SIZE
      invariant 0 <= chunkId && 0 <= sizeYetToSend && chunkId * CHUNK_SIZE + sizeYetToSend == |data|
      invariant Chunks(data) == sent + Chunks(data[chunkId * CHUNK_SIZE..])
      decreases sizeYetToSend
    {
      var from := chunkId * CHUNK_SIZE;
      NextChunk(sent, data, from);
      sent := sent + [data[from..from + CHUNK_SIZE]];
      chunkId := chunkId + 1;
      sizeYetToSend := sizeYetToSend - CHUNK_SIZE;
    }
    LastChunk(sent, data, chunkId * CHUNK_SIZE);
    sent := sent + [data[CHUNK_SIZE * chunkId..]];
  }

  lemma ChunksStep(data: string)
    requires CHUNK_SIZE < |data|
    ensures Chunks(data) == [data[..CHUNK_SIZE]] + Chunks(data[CHUNK_SIZE..])
  {
  }

  lemma PartOfRest(data: string, from: nat)
    requires from + CHUNK_SIZE <= |data|
    ensures data[from..][..CHUNK_SIZE] == data[from..from + CHUNK_SIZE]
    ensures data[from..][CHUNK_SIZE..] == data[from + CHUNK_SIZE..]
  {
  }

  lemma NextChunk(sent: seq<string>, data: string, from: nat)
    requires from + CHUNK_SIZE < |data|
    ensures sent + Chunks(data[from..]) ==
            (sent + [data[from..from + CHUNK_SIZE]]) + Chunks(data[from + CHUNK_SIZE..])
  {
    ChunksStep(data[from..]);
    PartOfRest(data, from);
    Reassociate(sent, [data[from..from + CHUNK_SIZE]], Chunks(data[from + CHUNK_SIZE..]));
  }

  lemma FirstChunkOf(data: string)
    ensures Chunks(data) == [] + Chunks(data[0..])
  {
    LeftEmpty(Chunks(data));
    assert data[0..] == data;
  }

  lemma LastChunk(sent: seq<string>, data: string, from: nat)
    requires from <= |data| <= from + CHUNK_SIZE
    ensures sent + Chunks(data[from..]) == sent + [data[from..]]
  {
  }

  lemma {:induction false} ChunksRebuild(data: string)
    ensures Concat(Chunks(data)) == data
  {
    if |data| > CHUNK_SIZE {
      ChunksRebuild(data[CHUNK_SIZE..]);
      ConcatHead(Chunks(data));
      assert Chunks(data)[1..] == Chunks(data[CHUNK_SIZE..]);
    } else {
      ConcatOne(data);
    }
  }

  /** The back end stores the chunks one after the other; the sender does not wait for success. */
  function StoreAll(cols: Columns, dir: string, name: string, parts: seq<string>): Columns
    decreases |parts|
  {
    if parts == [] then cols else StoreAll(StoreFile(cols, dir, name, parts[0]).0, dir, name, parts[1..])
  }

  lemma {:induction false} AppendsAll(cols: Columns, dir: string, name: string, parts: seq<string>)
    requires Path(dir, name) in cols && cols[Path(dir, name)].File?
    ensures StoreAll(cols, dir, name, parts) ==
            cols[Path(dir, name) := File(cols[Path(dir, name)].data + Concat(parts))]
    decreases |parts|
  {
    var key := Path(dir, name);
    var stored := cols[key].data;
    if parts == [] {
      assert stored + "" == stored;
      assert cols[key := cols[key]] == cols;
    } else {
      var next := cols[key := File(stored + parts[0])];
      AppendsAll(next, dir, name, parts[1..]);
      ConcatHead(parts);
      Reassociate(stored, parts[0], Concat(parts[1..]));
      assert (stored + parts[0]) + Concat(parts[1..]) == stored + Concat(parts);
      assert next[key := File(stored + Concat(parts))] == cols[key := File(stored + Concat(parts))];
    }
  }

  /** The columns with the new file listed in its folder, when there is one. */
  function Listed(cols: Columns, dir: string, name: string): Columns
    requires dir in cols ==> cols[dir].Dir?
  {
    if dir !in cols then cols
    else cols[dir := Dir(cols[dir].numFiles + 1, cols[dir].entries + [FdEntry(FileKind, name)])]
  }

  lemma FirstChunk(cols: Columns, dir: string, name: string, part: string)
    requires Path(dir, name) !in cols && (dir in cols ==> cols[dir].Dir?)
    ensures StoreFile(cols, dir, name, part).0 == Listed(cols, dir, name)[Path(dir, name) := File(part)]
  {
    assert |Path(dir, name)| > |dir|;
  }

  lemma Overwritten<K, V>(m: map<K, V>, k: K, v: V, w: V)
    ensures m[k := v][k := w] == m[k := w]
  {
  }

  /** Uploading to a new path leaves a file that holds the data, listed once in its folder; nothing else changes. */
  lemma UploadStoresData(cols: Columns, dir: string, name: string, data: string)
    requires Path(dir, name) !in cols && (dir in cols ==> cols[dir].Dir?)
    ensures StoreAll(cols, dir, name, Chunks(data)) == Listed(cols, dir, name)[Path(dir, name) := File(data)]
  {
    var key, parts := Path(dir, name), Chunks(data);
    FirstChunk(cols, dir, name, parts[0]);
    var first := Listed(cols, dir, name)[key := File(parts[0])];
    AppendsAll(first, dir, name, parts[1..]);
    ChunksRebuild(data);
    ConcatHead(parts);
    Overwritten(Listed(cols, dir, name), key, File(parts[0]), File(data));
  }

  /** Uploading to a path that holds a file already appends to it, so it replaces only an empty one. */
  lemma UploadAppends(cols: Columns, dir: string, name: string, data: string)
    requires Path(dir, name) in cols && cols[Path(dir, name)].File?
    ensures var after := StoreAll(cols, dir, name, Chunks(data));
            && after == cols[Path(dir, name) := File(cols[Path(dir, name)].data + data)]
            && (after[Path(dir, name)] == File(data) <==> cols[Path(dir, name)] == File(""))
  {
    ChunksRebuild(data);
    AppendsAll(cols, dir, name, Chunks(data));
    var stored := cols[Path(dir, name)].data;
    assert stored + data == data ==> |stored| == 0;
    assert "" + data == data;
  }

  // ---- Folder listings ----

  function Item(e: FdEntry): string {
    (if e.kind == FileKind then "F" else "D") + e.name
  }

  function Items(entries: seq<FdEntry>): seq<string> {
    seq(|entries|, i requires 0 <= i < |entries| => Item(entries[i]))
  }

  function Terminated(items: seq<string>): string {
    if items == [] then "" else items[0] + "~" + Terminated(items[1..])
  }

  /** The answer of get_folder_content. */
  function Listing(entries: seq<FdEntry>): string {
    if entries == [] then "~" else Terminated(Items(entries))
  }

  lemma TerminatedMore(items: seq<string>, item: string)
    ensures Terminated(items + [item]) == Terminated(items) + item + "~"
    decreases |items|
  {
    if items == [] {
      LeftEmpty([item]);
      assert [item][1..] == [];
    } else {
      TerminatedMore(items[1..], item);
      assert (items + [item])[1..] == items[1..] + [item];
      var head, rest := items[0] + "~", Terminated(items[1..]);
      Reassociate(head, rest, item);
      Reassociate(head, rest + item, "~");
    }
  }

  /** The loop of get_folder_content over a folder's entries. */
  method FolderContent(entries: seq<FdEntry>) returns (response: string)
    ensures response == Listing(entries)
  {
    var contentList := "";
    for i := 0 to |entries|
      invariant contentList == Terminated(Items(entries[..i]))
      invariant i > 0 ==> contentList != ""
    {
      var e := entries[i];
      assert Items(entries[..i + 1]) == Items(entries[..i]) + [Item(e)];
      TerminatedMore(Items(entries[..i]), Item(e));
      contentList := contentList + (if e.kind == FileKind then "F" else "D") + e.name + "~";
    }
    assert entries[..|entries|] == entries;
    return if |contentList| == 0 then "~" else contentList;
  }

  /** A listing is never empty, and each item in it ends with the separator. */
  lemma ListingEnds(entries: seq<FdEntry>)
    ensures Listing(entries) != "" && Listing(entries)[|Listing(entries)| - 1] == '~'
  {
    if entries != [] { EndsWithTilde(Items(entries)); }
  }

  /** What sendFolderRequest makes of the answer it reads. */
  function Relayed(answer: string): string {
    if |answer| >= MAX_FOLDER_INFO_LENGTH || answer == "" || answer == "~" || answer[|answer| - 1] != '~' then ""
    else answer
  }

  function FirstTilde(s: string): (i: nat)
    ensures i <= |s|
    ensures forall j :: 0 <= j < i ==> s[j] != '~'
    ensures i < |s| ==> s[i] == '~'
  {
    if s == "" || s[0] == '~' then 0 else 1 + FirstTilde(s[1..])
  }

  /** The pieces `getline` yields. */
  function Tokens(s: string): seq<string>
    decreases |s|
  {
    var i := FirstTilde(s);
    if s == "" then [] else if i == |s| then [s] else [s[..i]] + Tokens(s[i + 1..])
  }

  /** What is left to split after the next separator. */
  function NextRest(s: string): string {
    var i := FirstTilde(s);
    if i == |s| then "" else s[i + 1..]
  }

  lemma TokensStep(s: string)
    requires s != ""
    ensures Tokens(s) == [s[..FirstTilde(s)]] + Tokens(NextRest(s))
  {
    if FirstTilde(s) == |s| {
      assert s[..|s|] == s;
      RightEmpty([s]);
    }
  }

  lemma NextToken(tokens: seq<string>, rest: string)
    requires rest != ""
    ensures tokens + Tokens(rest) == (tokens + [rest[..FirstTilde(rest)]]) + Tokens(NextRest(rest))
  {
    TokensStep(rest);
    Reassociate(tokens, [rest[..FirstTilde(rest)]], Tokens(NextRest(rest)));
  }

  method SplitTokens(s: string) returns (tokens: seq<string>)
    ensures tokens == Tokens(s)
  {
    tokens := [];
    var rest := s;
    LeftEmpty(Tokens(s));
    while rest != ""
      invariant Tokens(s) == tokens + Tokens(rest)
      decreases |rest|
    {
      var i := FirstTilde(rest);
      NextToken(tokens, rest);
      tokens := tokens + [rest[..i]];
      rest := if i == |rest| then "" else rest[i + 1..];
    }
    RightEmpty(tokens);
  }

  lemma TokensOfOne(item: string, rest: string)
    requires '~' !in item
    ensures Tokens(item + "~" + rest) == [item] + Tokens(rest)
  {
    var s := item + "~" + rest;
    assert s[|item|] == '~';
    assert forall j :: 0 <= j < |item| ==> s[j] == item[j];
    assert FirstTilde(s) == |item|;
    assert s[..|item|] == item && s[|item| + 1..] == rest;
  }

  lemma {:induction false} TokensOfItems(items: seq<string>)
    requires forall k :: 0 <= k < |items| ==> '~' !in items[k]
    ensures Tokens(Terminated(items)) == items
  {
    if items != [] {
      TokensOfItems(items[1..]);
      TokensOfOne(items[0], Terminated(items[1..]));
    }
  }

  /** Tokens never contain the separator, so an item that does cannot be among them. */
  lemma {:induction false} TokensAreClean(s: string)
    ensures forall k :: 0 <= k < |Tokens(s)| ==> '~' !in Tokens(s)[k]
    decreases |s|
  {
    if s != "" && FirstTilde(s) < |s| {
      TokensAreClean(s[FirstTilde(s) + 1..]);
    }
  }

  lemma {:induction false} EndsWithTilde(items: seq<string>)
    requires items != []
    ensures Terminated(items) != "" && Terminated(items)[|Terminated(items)| - 1] == '~'
  {
    if |items| > 1 {
      EndsWithTilde(items[1..]);
    }
  }

  /** A folder's listing is read back as its entries exactly when it fits the buffer and no name contains the
      separator. */
  lemma ListingRoundTrip(entries: seq<FdEntry>)
    ensures Tokens(Relayed(Listing(entries))) == Items(entries) <==>
            || entries == []
            || (|Listing(entries)| < 128 &&
                forall k :: 0 <= k < |entries| ==> '~' !in entries[k].name)
  {
    var items := Items(entries);
    if entries != [] {
      EndsWithTilde(items);
      assert items[0] == Item(entries[0]) && |Terminated(items)| >= 2;
      assert forall k :: 0 <= k < |entries| ==> ('~' in items[k] <==> '~' in entries[k].name);
      if |Listing(entries)| < MAX_FOLDER_INFO_LENGTH {
        if forall k :: 0 <= k < |entries| ==> '~' !in entries[k].name {
          TokensOfItems(items);
        } else {
          TokensAreClean(Terminated(items));
        }
      }
    }
  }

  /** The front end's reading of a token. */
  function EntryOf(item: string): FdEntry
    requires item != ""
  {
    FdEntry(if item[0] == 'D' then DirKind else FileKind, item[1..])
  }

  lemma EntryRoundTrip(e: FdEntry)
    ensures EntryOf(Item(e)) == e
  {
    assert Item(e)[1..] == e.name;
  }

  // ---- Paths ----

  /** split_filename: without a separator both parts are the whole string. */
  function SplitFilename(s: string): (string, string) {
    var i := LastOf(s, {'/', '\\'});
    if i == 0 then (s, s) else (s[..i - 1], s[i..])
  }

  method FindLastOf(s: string, seps: set<char>) returns (i: nat)
    ensures i == LastOf(s, seps)
  {
    i := |s|;
    while i > 0 && s[i - 1] !in seps
      invariant i <= |s|
      invariant LastOf(s, seps) == LastOf(s[..i], seps)
    {
      assert s[..i][..i - 1] == s[..i - 1];
      i := i - 1;
    }
  }

  method SplitPath(s: string) returns (path: string, folder: string)
    ensures (path, folder) == SplitFilename(s)
  {
    var found := FindLastOf(s, {'/', '\\'});
    if found == 0 {
      return s, s;
    }
    return s[..found - 1], s[found..];
  }

  /** For every path, the second part holds no separator; the two parts make up the path with a separator between them,
      or are both the path when it holds none. */
  lemma SplitRebuilds(s: string)
    ensures var (path, name) := SplitFilename(s);
            && '/' !in name && '\\' !in name
            && if '/' in s || '\\' in s then s == path + "/" + name || s == path + "\\" + name
               else path == name == s
  {
    var i := LastOf(s, {'/', '\\'});
    if i > 0 {
      assert s == s[..i - 1] + [s[i - 1]] + s[i..];
    }
  }

  lemma LastSeparator(dir: string, name: string, seps: set<char>)
    requires '/' in seps
    ensures LastOf(Path(dir, name), seps) == |dir| + 1 <==> forall c :: c in name ==> c !in seps
    ensures LastOf(Path(dir, name), seps) >= |dir| + 1
  {
    var key := Path(dir, name);
    var i := LastOf(key, seps);
    assert key[|dir|] == '/';
    assert forall j :: 0 <= j < |name| ==> key[|dir| + 1 + j] == name[j];
    if i > |dir| + 1 {
      assert name[i - |dir| - 2] in seps;
    }
  }

  /** Splitting undoes the joining of a folder's path and a name exactly when the name holds no separator. */
  lemma SplitUndoesPath(dir: string, name: string)
    ensures SplitFilename(Path(dir, name)) == (dir, name) <==> '/' !in name && '\\' !in name
  {
    var key := Path(dir, name);
    LastSeparator(dir, name, {'/', '\\'});
    var i := LastOf(key, {'/', '\\'});
    if i == |dir| + 1 {
      assert key[..|dir|] == dir && key[|dir| + 1..] == name;
    } else {
      assert |key[..i - 1]| > |dir|;
    }
  }
}
