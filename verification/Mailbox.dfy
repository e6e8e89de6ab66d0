/** The mail columns of a row, over whole runs of commands. */
module Mailbox {
  import opened Sequences
  import opened Text
  import opened KeyValue
  import opened DirectoryTree

  /** Mail columns are those whose key holds no separator. */
  ghost predicate MailsApart(cols: Columns) {
    forall k :: k in cols ==> (cols[k].Mail? <==> '/' !in k)
  }

  /** The two rows have the same mails. */
  ghost predicate SameMails(cols: Columns, after: Columns) {
    forall k :: '/' !in k ==> (k in cols <==> k in after) && (k in cols ==> after[k] == cols[k])
  }

  /** The keys of mails are the numerals from 1 on. */
  ghost predicate OnlyNumerals(cols: Columns, n: nat) {
    forall k :: k in cols && '/' !in k ==> exists j :: 1 <= j <= n && k == Decimal(j)
  }

  /** The j-th mail is held under its number. */
  predicate HoldsAt(cols: Columns, mails: seq<Command>, j: nat)
    requires j < |mails| && mails[j].PutMail?
  {
    && Decimal(j + 1) in cols
    && cols[Decimal(j + 1)] == Mail(j + 1, mails[j].header, mails[j].body)
  }

  /** The non-drive columns are exactly the numerals from 1 on, one for each of the mails, and hold them in turn. */
  ghost predicate Holds(row: Row, mails: seq<Command>)
    requires forall c :: c in mails ==> c.PutMail?
  {
    && row.numEmails == |mails| && MailsApart(row.columns) && OnlyNumerals(row.columns, |mails|)
    && forall j :: 0 <= j < |mails| ==> HoldsAt(row.columns, mails, j)
  }

  // ---- Commands that are not about mail ----

  lemma PathHasSlash(dir: string, name: string)
    ensures '/' in Path(dir, name)
  {
    assert Path(dir, name)[|dir|] == '/';
  }

  lemma PrefixHasSlash(p: string, k: string)
    requires '/' in p && p <= k
    ensures '/' in k
  {
    var i :| 0 <= i < |p| && p[i] == '/';
    assert k[i] == '/';
  }

  lemma ScanSparesNumerals(cols: Columns, p: string)
    requires '/' in p
    ensures SameMails(cols, Unprefixed(cols, p))
  {
    forall k | '/' !in k && k in cols ensures k in Unprefixed(cols, p) {
      if p <= k { PrefixHasSlash(p, k); }
    }
  }

  lemma LinkSparesMails(cols: Columns, dir: string, e: FdEntry)
    requires MailsApart(cols)
    ensures var after := LinkToParent(cols, dir, e);
            after.Some? ==> SameMails(cols, after.value) && MailsApart(after.value)
  {
  }

  lemma UnlinkSparesMails(cols: Columns, dir: string, e: FdEntry)
    requires MailsApart(cols)
    ensures var after := UnlinkFromParent(cols, dir, e);
            after.Some? ==> SameMails(cols, after.value) && MailsApart(after.value)
  {
  }

  lemma DrivePutSpares(cols: Columns, key: string, col: Column)
    requires MailsApart(cols) && '/' in key && !col.Mail?
    ensures SameMails(cols, cols[key := col]) && MailsApart(cols[key := col])
  {
  }

  lemma MakingSparesMails(cols: Columns, dir: string, name: string, data: string)
    requires MailsApart(cols)
    ensures var after := CreateFolder(cols, dir, name).0; SameMails(cols, after) && MailsApart(after)
    ensures var after := StoreFile(cols, dir, name, data).0; SameMails(cols, after) && MailsApart(after)
  {
    var key := Path(dir, name);
    PathHasSlash(dir, name);
    DrivePutSpares(cols, key, Dir(0, []));
    DrivePutSpares(cols, key, File(data));
    LinkSparesMails(cols[key := Dir(0, [])], dir, FdEntry(DirKind, name));
    LinkSparesMails(cols[key := File(data)], dir, FdEntry(FileKind, name));
  }

  lemma RemovingSparesMails(cols: Columns, dir: string, name: string)
    requires MailsApart(cols)
    ensures var after := DeleteFile(cols, dir, name).0; SameMails(cols, after) && MailsApart(after)
    ensures var after := DeleteFolder(cols, dir, name).0; SameMails(cols, after) && MailsApart(after)
  {
    var key := Path(dir, name);
    PathHasSlash(dir, name);
    ScanSparesNumerals(cols, key);
    UnlinkSparesMails(cols - {key}, dir, FdEntry(FileKind, name));
    UnlinkSparesMails(Unprefixed(cols, key), dir, FdEntry(DirKind, name));
  }

  /** The drive's commands leave the mails alone, whatever names they are given. */
  lemma DriveSparesMails(row: Row, c: Command)
    requires MailsApart(row.columns)
    requires c.ChangePassword? || c.PutFile? || c.DelFile? || c.MkFolder? || c.DelFolder?
    ensures var row' := RowEffect(row, c).0;
            SameMails(row.columns, row'.columns) && MailsApart(row'.columns) && row'.numEmails == row.numEmails
  {
    match c {
      case ChangePassword(_, _, _) =>
      case PutFile(_, dir, name, data) => MakingSparesMails(row.columns, dir, name, data);
      case MkFolder(_, dir, name) => MakingSparesMails(row.columns, dir, name, "");
      case DelFile(_, dir, name) => RemovingSparesMails(row.columns, dir, name);
      case DelFolder(_, dir, name) => RemovingSparesMails(row.columns, dir, name);
    }
  }

  // ---- Storing and deleting ----

  lemma NumeralHasNoSlash(n: nat)
    ensures '/' !in Decimal(n)
  {
  }

  /** The mail goes under the next number where that is free; where it is not it is dropped, which the answer does not
      tell. */
  lemma PutMailStores(row: Row, c: Command)
    requires c.PutMail?
    ensures var (row', st) := RowEffect(row, c);
            var id := row.numEmails + 1;
            && st == Success && row'.numEmails == id && row'.password == row.password
            && row'.columns == if Decimal(id) in row.columns then row.columns
                               else row.columns[Decimal(id) := Mail(id, c.header, c.body)]
  {
  }

  lemma NumeralsDiffer(m: nat, n: nat)
    requires m != n
    ensures Decimal(m) != Decimal(n)
  {
    DecimalRoundTrip(m);
    DecimalRoundTrip(n);
  }

  lemma NextIsFree(cols: Columns, n: nat)
    requires OnlyNumerals(cols, n)
    ensures Decimal(n + 1) !in cols
  {
    NumeralHasNoSlash(n + 1);
    forall j | 1 <= j <= n ensures Decimal(j) != Decimal(n + 1) { NumeralsDiffer(j, n + 1); }
  }

  lemma StoresNext(row: Row, mails: seq<Command>, c: Command)
    requires (forall x :: x in mails ==> x.PutMail?) && Holds(row, mails) && c.PutMail?
    ensures Holds(RowEffect(row, c).0, mails + [c])
  {
    var id, cols := |mails| + 1, RowEffect(row, c).0.columns;
    PutMailStores(row, c);
    NumeralHasNoSlash(id);
    NextIsFree(row.columns, |mails|);
    forall j | 0 <= j < id ensures HoldsAt(cols, mails + [c], j) {
      if j < |mails| {
        NumeralsDiffer(j + 1, id);
        assert HoldsAt(row.columns, mails, j);
      }
    }
    assert Decimal(id) == Decimal(|mails + [c]|);
  }

  /** Storing a mail and deleting it again gives the row back exactly when its number was free. */
  lemma StoreThenDelete(row: Row, c: Command)
    requires c.PutMail?
    ensures RowEffect(RowEffect(row, c).0, DelMail(c.user, row.numEmails + 1)) == (row, Success) <==>
            Decimal(row.numEmails + 1) !in row.columns
  {
    var key := Decimal(row.numEmails + 1);
    PutMailStores(row, c);
    if key !in row.columns { assert RowEffect(row, c).0.columns - {key} == row.columns; }
  }

  /** A deletion is refused exactly when there is no such mail; otherwise the column goes, and nothing else. */
  lemma DelMailDeletes(row: Row, user: string, id: nat)
    ensures var (row', st) := RowEffect(row, DelMail(user, id));
            && (st == BadMailId <==> Decimal(id) !in row.columns) && (st == BadMailId ==> row' == row)
            && (st == Success <==> Decimal(id) in row.columns)
            && (st == Success ==> row'.columns == row.columns - {Decimal(id)} && row'.password == row.password)
            && (st == Success ==>
                  row'.numEmails == if row.numEmails > 0 then row.numEmails - 1 else 0xFFFF_FFFF_FFFF_FFFF)
  {
  }

  // ---- Runs ----

  /** The mails among the commands, in order. */
  function Puts(cs: seq<Command>): (mails: seq<Command>)
    ensures forall c :: c in mails ==> c.PutMail?
  {
    if cs == [] then []
    else Puts(cs[..|cs| - 1]) + (if cs[|cs| - 1].PutMail? then [cs[|cs| - 1]] else [])
  }

  lemma FreshHoldsNone(password: string)
    ensures Holds(FreshRow(password), [])
  {
    assert ROOT[0] == '/';
  }

  lemma StillHolds(row: Row, row': Row, mails: seq<Command>)
    requires (forall x :: x in mails ==> x.PutMail?) && Holds(row, mails) && row'.numEmails == row.numEmails
    requires SameMails(row.columns, row'.columns) && MailsApart(row'.columns)
    ensures Holds(row', mails)
  {
    forall j | 0 <= j < |mails| ensures HoldsAt(row'.columns, mails, j) {
      NumeralHasNoSlash(j + 1);
      assert HoldsAt(row.columns, mails, j);
    }
  }

  /** In every run of a user's commands without a mail deletion, the mailbox holds what was put into it, in order and
      under the numbers from 1 on. */
  lemma {:induction false} MailboxHoldsMails(password: string, cs: seq<Command>)
    requires forall c :: c in cs ==> !c.AddUser? && !c.DeleteUser? && !c.DelMail?
    ensures Holds(RunRow(FreshRow(password), cs), Puts(cs))
  {
    if cs == [] {
      FreshHoldsNone(password);
    } else {
      var front, c := cs[..|cs| - 1], cs[|cs| - 1];
      MailboxHoldsMails(password, front);
      if c.PutMail? {
        StoresNext(RunRow(FreshRow(password), front), Puts(front), c);
      } else {
        DriveSparesMails(RunRow(FreshRow(password), front), c);
        StillHolds(RunRow(FreshRow(password), front), RunRow(FreshRow(password), cs), Puts(front));
        RightEmpty(Puts(front));
      }
    }
  }

  // ---- Deletions ----

  lemma DeletedMail(row: Row, mails: seq<Command>, user: string, id: nat)
    requires (forall x :: x in mails ==> x.PutMail?) && Holds(row, mails) && 1 <= id <= |mails|
    ensures var row' := RowEffect(row, DelMail(user, id)).0;
            row'.columns == row.columns - {Decimal(id)} && row'.numEmails == |mails| - 1
  {
    assert HoldsAt(row.columns, mails, id - 1);
  }

  lemma WithoutNewest(cols: Columns, mails: seq<Command>, front: seq<Command>)
    requires (forall x :: x in mails ==> x.PutMail?) && |mails| > 0 && front == mails[..|mails| - 1]
    requires OnlyNumerals(cols, |mails|) && forall j :: 0 <= j < |mails| ==> HoldsAt(cols, mails, j)
    ensures var less := cols - {Decimal(|mails|)};
            OnlyNumerals(less, |front|) && forall j :: 0 <= j < |front| ==> HoldsAt(less, front, j)
  {
    var less := cols - {Decimal(|mails|)};
    forall k | k in less && '/' !in k ensures exists j :: 1 <= j <= |front| && k == Decimal(j) {
      var j :| 1 <= j <= |mails| && k == Decimal(j);
      assert j != |mails|;
    }
    forall j | 0 <= j < |front| ensures HoldsAt(less, front, j) {
      NumeralsDiffer(j + 1, |mails|);
      assert HoldsAt(cols, mails, j);
    }
  }

  /** Taking out the newest mail leaves a mailbox in which the numbers run on; taking out an earlier one does not. */
  lemma DeletionKeepsNumbers(row: Row, mails: seq<Command>, user: string, id: nat)
    requires (forall x :: x in mails ==> x.PutMail?) && Holds(row, mails) && 1 <= id <= |mails|
    ensures Holds(RowEffect(row, DelMail(user, id)).0, mails[..|mails| - 1]) <==> id == |mails|
  {
    DeletedMail(row, mails, user, id);
    if id == |mails| {
      WithoutNewest(row.columns, mails, mails[..|mails| - 1]);
    } else {
      assert !HoldsAt(row.columns - {Decimal(id)}, mails[..|mails| - 1], id - 1);
    }
  }

  /** After an earlier mail was deleted the next one is dropped, though it is answered with Success: its number is that
      of the newest. */
  lemma NextMailIsDropped(row: Row, mails: seq<Command>, user: string, id: nat, c: Command)
    requires (forall x :: x in mails ==> x.PutMail?) && Holds(row, mails) && 1 <= id < |mails| && c.PutMail?
    ensures var row' := RowEffect(row, DelMail(user, id)).0;
            && RowEffect(row', c).1 == Success
            && RowEffect(row', c).0.columns == row'.columns == row.columns - {Decimal(id)}
  {
    DeletedMail(row, mails, user, id);
    NumeralsDiffer(|mails|, id);
    assert HoldsAt(row.columns, mails, |mails| - 1);
    PutMailStores(RowEffect(row, DelMail(user, id)).0, c);
  }

  /** How many mails a row holds. */
  function Mails(cols: Columns): set<string> {
    set k | k in cols && '/' !in k
  }

  ghost predicate Covered(row: Row) {
    MailsApart(row.columns) && |Mails(row.columns)| <= row.numEmails
  }

  lemma CoveredStep(row: Row, c: Command)
    requires !c.AddUser? && !c.DeleteUser? && Covered(row)
    ensures Covered(RowEffect(row, c).0)
    ensures c.DelMail? && RowEffect(row, c).1 == Success ==> RowEffect(row, c).0.numEmails == row.numEmails - 1
  {
    var row' := RowEffect(row, c).0;
    if c.PutMail? {
      PutMailStores(row, c);
      NumeralHasNoSlash(row.numEmails + 1);
      SubsetSize(Mails(row'.columns), Mails(row.columns) + {Decimal(row.numEmails + 1)});
    } else if c.DelMail? {
      NumeralHasNoSlash(c.id);
      if Decimal(c.id) in row.columns {
        assert Decimal(c.id) in Mails(row.columns);
        assert Mails(row'.columns) == Mails(row.columns) - {Decimal(c.id)};
      }
    } else {
      DriveSparesMails(row, c);
      assert Mails(row'.columns) == Mails(row.columns);
    }
  }

  /** In every run the count is at least the number of mails held, so it never wraps around when one is deleted. */
  lemma {:induction false} CountCoversMails(password: string, cs: seq<Command>)
    requires forall c :: c in cs ==> !c.AddUser? && !c.DeleteUser?
    ensures Covered(RunRow(FreshRow(password), cs))
  {
    if cs == [] {
      assert ROOT[0] == '/';
      assert Mails(FreshRow(password).columns) == {};
    } else {
      CountCoversMails(password, cs[..|cs| - 1]);
      CoveredStep(RunRow(FreshRow(password), cs[..|cs| - 1]), cs[|cs| - 1]);
    }
  }
}
