/** The tablet: one row of columns per user, and the effect each command has on it. */
module KeyValue {
  import opened Wrappers
  import opened Sequences
  import opened Text

  const MAX_TABLET_USERS := 100
  const ROOT := "/r00t"
  const ULONG_MAX := 0xFFFF_FFFF_FFFF_FFFF

  datatype Kind = FileKind | DirKind

  /** An element of a directory's child list. */
  datatype FdEntry = FdEntry(kind: Kind, name: string)

  datatype MailHeader = MailHeader(sender: string, recipient: string, subject: string, date: string)

  datatype Column =
    | Mail(id: nat, header: MailHeader, body: string)
    | File(data: string)
    | Dir(numFiles: nat, entries: seq<FdEntry>)

  type Columns = map<string, Column>

  datatype Row = Row(password: string, numEmails: nat, columns: Columns)

  type Tablet = map<string, Row>

  /** The commands that change the tablet. DeleteUser keeps its text, because the live path and the
      replay path cut the user name out of it at different offsets. */
  datatype Command =
    | AddUser(user: string, password: string)
    | DeleteUser(line: string)
    | ChangePassword(user: string, oldPassword: string, newPassword: string)
    | PutMail(user: string, header: MailHeader, body: string)
    | DelMail(user: string, id: nat)
    | PutFile(user: string, dir: string, name: string, data: string)
    | DelFile(user: string, dir: string, name: string)
    | MkFolder(user: string, dir: string, name: string)
    | DelFolder(user: string, dir: string, name: string)

  /** Undefined marks the calls that cast a column of one content type to another, dereference a missing
      child list or erase the end iterator: the model leaves the row as it was. */
  datatype Status =
    | Success | UserLimit | UserExists | NoUser | WrongPassword | BadMailId | NoFile | FileExists | Undefined

  /** The user a command names when it is executed on arrival. */
  function UserOf(c: Command): string {
    if c.DeleteUser? then FirstToken(After(c.line, |"delete"|)) else c.user
  }

  /** The user a log entry names when it is replayed. */
  function ReplayUserOf(c: Command): string {
    if c.DeleteUser? then FirstToken(After(c.line, |"add"|)) else c.user
  }

  /** Decrement of an unsigned 64-bit counter. */
  function Pred(n: nat): nat {
    if n == 0 then ULONG_MAX else n - 1
  }

  // ---- Child lists ----

  /** `listed == wanted` on list elements: a name matches every name it is a prefix of. */
  predicate Matches(listed: FdEntry, wanted: FdEntry) {
    listed.kind == wanted.kind && listed.name <= wanted.name
  }

  /** The index `std::find` returns; the length stands for the end iterator. */
  function FindEntry(entries: seq<FdEntry>, wanted: FdEntry): (i: nat)
    ensures i <= |entries|
    ensures i < |entries| ==> Matches(entries[i], wanted)
    ensures forall j :: 0 <= j < i ==> !Matches(entries[j], wanted)
  {
    if entries == [] || Matches(entries[0], wanted) then 0
    else 1 + FindEntry(entries[1..], wanted)
  }

  function Without(entries: seq<FdEntry>, i: nat): seq<FdEntry>
    requires i < |entries|
  {
    entries[..i] + entries[i + 1..]
  }

  /** None: the parent column is not a directory, so it has no list to push to. */
  function LinkToParent(cols: Columns, dir: string, e: FdEntry): Option<Columns> {
    if dir !in cols then Some(cols)
    else match cols[dir]
      case Dir(n, es) => Some(cols[dir := Dir(n + 1, es + [e])])
      case _ => None
  }

  /** None: the parent column is not a directory, or no list element matches. */
  function UnlinkFromParent(cols: Columns, dir: string, e: FdEntry): Option<Columns> {
    if dir !in cols then Some(cols)
    else match cols[dir]
      case Dir(n, es) =>
        var i := FindEntry(es, e);
        if i < |es| then Some(cols[dir := Dir(Pred(n), Without(es, i))]) else None
      case _ => None
  }

  // ---- The file tree commands, on the columns of one row ----

  function Commit(before: Columns, after: Option<Columns>): (Columns, Status) {
    if after.Some? then (after.value, Success) else (before, Undefined)
  }

  function CreateFolder(cols: Columns, dir: string, name: string): (Columns, Status) {
    var key := Path(dir, name);
    if key in cols then (cols, FileExists)
    else Commit(cols, LinkToParent(cols[key := Dir(0, [])], dir, FdEntry(DirKind, name)))
  }

  function StoreFile(cols: Columns, dir: string, name: string, data: string): (Columns, Status) {
    var key := Path(dir, name);
    if key in cols then
      match cols[key]
      case File(stored) => (cols[key := File(stored + data)], Success)
      case _ => (cols, Undefined)
    else Commit(cols, LinkToParent(cols[key := File(data)], dir, FdEntry(FileKind, name)))
  }

  function DeleteFile(cols: Columns, dir: string, name: string): (Columns, Status) {
    var key := Path(dir, name);
    if key !in cols then (cols, NoFile)
    else Commit(cols, UnlinkFromParent(cols - {key}, dir, FdEntry(FileKind, name)))
  }

  /** The columns that survive the scan of delete_folder. */
  function Unprefixed(cols: Columns, prefix: string): Columns {
    map k | k in cols && !(prefix <= k) :: cols[k]
  }

  function DeleteFolder(cols: Columns, dir: string, name: string): (Columns, Status) {
    var key := Path(dir, name);
    if key !in cols then (cols, NoFile)
    else Commit(cols, UnlinkFromParent(Unprefixed(cols, key), dir, FdEntry(DirKind, name)))
  }

  // ---- The mailbox commands, on one row ----

  function StoreEmail(row: Row, header: MailHeader, body: string): Row {
    var id := row.numEmails + 1;
    var key := Decimal(id);
    row.(numEmails := id,
    columns := if key in row.columns then row.columns else row.columns[key := Mail(id, header, body)])
  }

  function DeleteMail(row: Row, id: nat): (Row, Status) {
    if Decimal(id) in row.columns
    then (row.(numEmails := Pred(row.numEmails), columns := row.columns - {Decimal(id)}), Success)
    else (row, BadMailId)
  }

  function FreshRow(password: string): Row {
    Row(password, 0, map[ROOT := Dir(0, [])])
  }

  // ---- Whole commands ----

  /** The effect of a command on the row of a user who exists. */
  function RowEffect(row: Row, c: Command): (Row, Status)
    requires !c.AddUser? && !c.DeleteUser?
  {
    match c
    case ChangePassword(_, given, next) =>
      if row.password <= given then (row.(password := next), Success) else (row, WrongPassword)
    case PutMail(_, header, body) => (StoreEmail(row, header, body), Success)
    case DelMail(_, id) => DeleteMail(row, id)
    case PutFile(_, dir, name, data) =>
      var (cols, st) := StoreFile(row.columns, dir, name, data); (row.(columns := cols), st)
    case DelFile(_, dir, name) =>
      var (cols, st) := DeleteFile(row.columns, dir, name); (row.(columns := cols), st)
    case MkFolder(_, dir, name) =>
      var (cols, st) := CreateFolder(row.columns, dir, name); (row.(columns := cols), st)
    case DelFolder(_, dir, name) =>
      var (cols, st) := DeleteFolder(row.columns, dir, name); (row.(columns := cols), st)
  }

  function Get(t: Tablet, u: string): Option<Row> {
    if u in t then Some(t[u]) else None
  }

  function Put(t: Tablet, u: string, r: Option<Row>): Tablet {
    if r.Some? then t[u := r.value] else t - {u}
  }

  lemma PutBack(t: Tablet, u: string)
    ensures Put(t, u, Get(t, u)) == t
  {
  }

  /** The effect on the named user's row, present or absent, when the user limit plays no part. */
  function Effect(r: Option<Row>, c: Command): (Option<Row>, Status) {
    if c.AddUser? then if r.Some? then (r, UserExists) else (Some(FreshRow(c.password)), Success)
    else if r.None? then (None, NoUser)
    else if c.DeleteUser? then (None, Success)
    else var (row, st) := RowEffect(r.value, c); (Some(row), st)
  }

  /** A command executed for the given user: the limit is checked before the user is looked up. */
  function ExecFor(t: Tablet, c: Command, u: string): (Tablet, Status) {
    if c.AddUser? && |t| == MAX_TABLET_USERS then (t, UserLimit)
    else var (r, st) := Effect(Get(t, u), c); (Put(t, u, r), st)
  }

  function Exec(t: Tablet, c: Command): (Tablet, Status) {
    ExecFor(t, c, UserOf(c))
  }

  function Apply(t: Tablet, c: Command): Tablet {
    Exec(t, c).0
  }

  /** The tablet after a sequence of commands executed as they arrive. */
  function ApplyAll(t: Tablet, cs: seq<Command>): Tablet {
    if cs == [] then t else Apply(ApplyAll(t, cs[..|cs| - 1]), cs[|cs| - 1])
  }

  /** The tablet after replaying a sequence of log entries. */
  function ReplayAll(t: Tablet, cs: seq<Command>): Tablet {
    if cs == [] then t
    else
      var c := cs[|cs| - 1];
      ExecFor(ReplayAll(t, cs[..|cs| - 1]), c, ReplayUserOf(c)).0
  }

  // ---- Rows are independent of each other below the user limit ----

  /** The commands that name a given user, in order. */
  function Naming(cs: seq<Command>, u: string): seq<Command> {
    if cs == [] then []
    else
      var c := cs[|cs| - 1];
      Naming(cs[..|cs| - 1], u) + (if UserOf(c) == u then [c] else [])
  }

  /** One row driven by the commands that name it. */
  function RowAfter(cs: seq<Command>): Option<Row> {
    if cs == [] then None else Effect(RowAfter(cs[..|cs| - 1]), cs[|cs| - 1]).0
  }

  /** The users a sequence of commands tries to add. */
  function Added(cs: seq<Command>): set<string> {
    set c | c in cs && c.AddUser? :: c.user
  }

  lemma AddedPrefix(cs: seq<Command>)
    requires cs != []
    ensures Added(cs[..|cs| - 1]) <= Added(cs)
    ensures cs[|cs| - 1].AddUser? ==> cs[|cs| - 1].user in Added(cs)
  {
    assert cs[|cs| - 1] in cs;
  }

  lemma SubsetSize<T>(a: set<T>, b: set<T>)
    requires a <= b
    ensures |a| <= |b|
  {
    assert b == a + (b - a);
  }

  lemma {:induction false} UsersWereAdded(cs: seq<Command>)
    ensures ApplyAll(map[], cs).Keys <= Added(cs)
  {
    if cs != [] {
      UsersWereAdded(cs[..|cs| - 1]);
      AddedPrefix(cs);
    }
  }

  lemma NamingNext(cs: seq<Command>, u: string)
    requires cs != []
    ensures var front, c := cs[..|cs| - 1], cs[|cs| - 1];
            RowAfter(Naming(cs, u)) ==
            if UserOf(c) == u then Effect(RowAfter(Naming(front, u)), c).0 else RowAfter(Naming(front, u))
  {
    var front, c := cs[..|cs| - 1], cs[|cs| - 1];
    if UserOf(c) == u {
      FrontOfNext(Naming(front, u), c);
    } else {
      RightEmpty(Naming(front, u));
    }
  }

  /** At the limit, a user who is added is there already. */
  lemma FullHasAll(cs: seq<Command>, u: string)
    requires |ApplyAll(map[], cs)| == MAX_TABLET_USERS && |Added(cs) + {u}| <= MAX_TABLET_USERS
    ensures u in ApplyAll(map[], cs)
  {
    var t := ApplyAll(map[], cs);
    UsersWereAdded(cs);
    assert |t.Keys| == |t|;
    FullSubset(t.Keys, Added(cs) + {u});
  }

  lemma ApplyRow(t: Tablet, c: Command, u: string)
    requires c.AddUser? && |t| == MAX_TABLET_USERS ==> c.user in t
    ensures Get(Apply(t, c), u) == if UserOf(c) == u then Effect(Get(t, u), c).0 else Get(t, u)
  {
  }

  /** With at most as many users as the tablet holds, each row depends on its own commands alone. */
  lemma {:induction false} RowsAreIndependent(cs: seq<Command>, u: string)
    requires |Added(cs)| <= MAX_TABLET_USERS
    ensures Get(ApplyAll(map[], cs), u) == RowAfter(Naming(cs, u))
  {
    if cs != [] {
      var front, c := cs[..|cs| - 1], cs[|cs| - 1];
      AddedPrefix(cs);
      SubsetSize(Added(front), Added(cs));
      RowsAreIndependent(front, u);
      NamingNext(cs, u);
      if c.AddUser? && |ApplyAll(map[], front)| == MAX_TABLET_USERS {
        SubsetSize(Added(front) + {c.user}, Added(cs));
        FullHasAll(front, c.user);
      }
      ApplyRow(ApplyAll(map[], front), c, u);
    }
  }

  lemma FullSubset<T>(a: set<T>, b: set<T>)
    requires a <= b && |b| <= |a|
    ensures a == b
  {
    assert b == a + (b - a);
    assert |b| == |a| + |b - a|;
  }

  /** Two orders of the same writes give the same tablet when no user sees them in a different order. */
  lemma SameRowsSameTablet(xs: seq<Command>, ys: seq<Command>)
    requires |Added(xs)| <= MAX_TABLET_USERS && |Added(ys)| <= MAX_TABLET_USERS
    requires forall u :: Naming(xs, u) == Naming(ys, u)
    ensures ApplyAll(map[], xs) == ApplyAll(map[], ys)
  {
    var a, b := ApplyAll(map[], xs), ApplyAll(map[], ys);
    forall u ensures Get(a, u) == Get(b, u) {
      RowsAreIndependent(xs, u);
      RowsAreIndependent(ys, u);
    }
    forall u ensures u in a <==> u in b {
      assert Get(a, u) == Get(b, u);
    }
    forall u | u in a ensures a[u] == b[u] {
      assert Get(a, u) == Get(b, u);
    }
    assert a == b;
  }
}
