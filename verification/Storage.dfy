/** The storage process: the tablet, its log, and the admin's disable and restart commands. */
module Storage {
  import opened Text
  import opened KeyValue
  import opened WriteAheadLog
  import opened Logging

  /** `std::find` on a child list. */
  method Find(entries: seq<FdEntry>, wanted: FdEntry) returns (i: nat)
    ensures i == FindEntry(entries, wanted)
  {
    i := 0;
    while i < |entries| && !Matches(entries[i], wanted)
      invariant i <= |entries|
      invariant FindEntry(entries, wanted) == i + FindEntry(entries[i..], wanted)
    {
      assert entries[i..][1..] == entries[i + 1..];
      i := i + 1;
    }
  }

  /** The scan of delete_folder, over a snapshot of the keys taken in no particular order. */
  method EraseWithPrefix(columns: Columns, prefix: string) returns (left: Columns)
    ensures left == Unprefixed(columns, prefix)
  {
    left := columns;
    var keys := columns.Keys;
    while keys != {}
      invariant keys <= columns.Keys
      invariant forall k :: k in left <==> k in columns && (k in keys || !(prefix <= k))
      invariant forall k :: k in left ==> left[k] == columns[k]
      decreases keys
    {
      var k :| k in keys;
      if prefix <= k {
        left := left - {k};
      }
      keys := keys - {k};
    }
  }

  class Store {
    var tablet: Tablet
    const log: LogFile
    var terminated: bool
    var restarted: bool
    var disabled: bool
    var checkpoint: Tablet
    var version: nat

    constructor ()
      ensures fresh(log) && log.entries == [] && log.Counted() && log.Readable()
      ensures tablet == map[] && !disabled && !terminated && checkpoint == map[] && version == 0
      ensures Durable()
    {
      tablet := map[];
      log := new LogFile();
      terminated, restarted, disabled := false, false, false;
      checkpoint, version := map[], 0;
    }

    /** An enabled server holds the replay of its log; a disabled one holds nothing. */
    ghost predicate Durable()
      reads this, log
    {
      tablet == if disabled then map[] else ReplayAll(map[], log.entries)
    }

    method ClearTablet()
      modifies this`tablet
      ensures tablet == map[]
    {
      tablet := map[];
    }

    method AddUser(username: string, password: string) returns (status: Status)
      modifies this`tablet
      ensures (tablet, status) == ExecFor(old(tablet), KeyValue.AddUser(username, password), username)
    {
      PutBack(tablet, username);
      if |tablet| == MAX_TABLET_USERS {
        return UserLimit;
      }
      if username in tablet {
        return UserExists;
      }
      tablet := tablet[username := Row(password, 0, map[])];
      var row := tablet[username];
      tablet := tablet[username := row.(columns := row.columns[ROOT := Dir(0, [])])];
      assert tablet == old(tablet)[username := FreshRow(password)];
      return Success;
    }

    method DeleteUser(username: string, c: Command) returns (status: Status)
      requires c.DeleteUser?
      modifies this`tablet
      ensures (tablet, status) == ExecFor(old(tablet), c, username)
    {
      PutBack(tablet, username);
      DeletionEffect(tablet, c, username);
      if username !in tablet {
        return NoUser;
      }
      tablet := tablet - {username};
      return Success;
    }

    method ChangePassword(username: string, oldPassword: string, newPassword: string) returns (status: Status)
      modifies this`tablet
      ensures (tablet, status) ==
              ExecFor(old(tablet), KeyValue.ChangePassword(username, oldPassword, newPassword), username)
    {
      PutBack(tablet, username);
      if username !in tablet {
        return NoUser;
      }
      var row := tablet[username];
      if row.password <= oldPassword {
        tablet := tablet[username := row.(password := newPassword)];
        return Success;
      }
      return WrongPassword;
    }

    method StoreEmail(username: string, header: MailHeader, body: string) returns (status: Status)
      modifies this`tablet
      ensures (tablet, status) == ExecFor(old(tablet), PutMail(username, header, body), username)
    {
      PutBack(tablet, username);
      if username !in tablet {
        return NoUser;
      }
      var row := tablet[username];
      row := row.(numEmails := row.numEmails + 1);
      var emailId := row.numEmails;
      if Decimal(emailId) !in row.columns {
        row := row.(columns := row.columns[Decimal(emailId) := Mail(emailId, header, body)]);
      }
      tablet := tablet[username := row];
      return Success;
    }

    method DeleteMail(username: string, emailId: nat) returns (status: Status)
      modifies this`tablet
      ensures (tablet, status) == ExecFor(old(tablet), DelMail(username, emailId), username)
    {
      PutBack(tablet, username);
      if username !in tablet {
        return NoUser;
      }
      var row := tablet[username];
      if Decimal(emailId) !in row.columns {
        return BadMailId;
      }
      row := row.(numEmails := Pred(row.numEmails));
      tablet := tablet[username := row.(columns := row.columns - {Decimal(emailId)})];
      return Success;
    }

    method StoreFile(username: string, directory: string, filename: string, data: string) returns (status: Status)
      modifies this`tablet
      ensures (tablet, status) == ExecFor(old(tablet), PutFile(username, directory, filename, data), username)
    {
      PutBack(tablet, username);
      var fullPath := Path(directory, filename);
      if username !in tablet {
        return NoUser;
      }
      var row := tablet[username];
      if fullPath in row.columns {
        var content := row.columns[fullPath];
        if !content.File? {
          return Undefined;
        }
        tablet := tablet[username := row.(columns := row.columns[fullPath := File(content.data + data)])];
        return Success;
      }
      var columns := row.columns[fullPath := File(data)];
      if directory in columns {
        var parent := columns[directory];
        if !parent.Dir? {
          return Undefined;
        }
        columns := columns[directory := Dir(parent.numFiles + 1, parent.entries + [FdEntry(FileKind, filename)])];
      }
      tablet := tablet[username := row.(columns := columns)];
      return Success;
    }

    method CreateFolder(username: string, directory: string, folder: string) returns (status: Status)
      modifies this`tablet
      ensures (tablet, status) == ExecFor(old(tablet), MkFolder(username, directory, folder), username)
    {
      PutBack(tablet, username);
      var fullPath := Path(directory, folder);
      if username !in tablet {
        return NoUser;
      }
      var row := tablet[username];
      if fullPath in row.columns {
        return FileExists;
      }
      var columns := row.columns[fullPath := Dir(0, [])];
      if directory in columns {
        var parent := columns[directory];
        if !parent.Dir? {
          return Undefined;
        }
        columns := columns[directory := Dir(parent.numFiles + 1, parent.entries + [FdEntry(DirKind, folder)])];
      }
      tablet := tablet[username := row.(columns := columns)];
      return Success;
    }

    method DeleteFile(username: string, directory: string, filename: string) returns (status: Status)
      modifies this`tablet
      ensures (tablet, status) == ExecFor(old(tablet), DelFile(username, directory, filename), username)
    {
      PutBack(tablet, username);
      var fullPath := Path(directory, filename);
      if username !in tablet {
        return NoUser;
      }
      var row := tablet[username];
      if fullPath !in row.columns {
        return NoFile;
      }
      var columns := row.columns - {fullPath};
      if directory in columns {
        var parent := columns[directory];
        if !parent.Dir? {
          return Undefined;
        }
        var i := Find(parent.entries, FdEntry(FileKind, filename));
        if i == |parent.entries| {
          return Undefined;
        }
        columns := columns[directory := Dir(Pred(parent.numFiles), Without(parent.entries, i))];
      }
      tablet := tablet[username := row.(columns := columns)];
      return Success;
    }

    method DeleteFolder(username: string, directory: string, folder: string) returns (status: Status)
      modifies this`tablet
      ensures (tablet, status) == ExecFor(old(tablet), DelFolder(username, directory, folder), username)
    {
      PutBack(tablet, username);
      var fullPath := Path(directory, folder);
      if username !in tablet {
        return NoUser;
      }
      var row := tablet[username];
      if fullPath !in row.columns {
        return NoFile;
      }
      var columns := EraseWithPrefix(row.columns, fullPath);
      if directory in columns {
        var parent := columns[directory];
        if !parent.Dir? {
          return Undefined;
        }
        var i := Find(parent.entries, FdEntry(DirKind, folder));
        if i == |parent.entries| {
          return Undefined;
        }
        columns := columns[directory := Dir(Pred(parent.numFiles), Without(parent.entries, i))];
      }
      tablet := tablet[username := row.(columns := columns)];
      return Success;
    }

    /** The call a command or a log entry stands for, on the given user. */
    method Dispatch(c: Command, username: string) returns (status: Status)
      requires c.DeleteUser? || username == c.user
      modifies this`tablet
      ensures (tablet, status) == ExecFor(old(tablet), c, username)
    {
      match c {
        case AddUser(_, password) => status := AddUser(username, password);
        case DeleteUser(_) => status := DeleteUser(username, c);
        case ChangePassword(_, given, next) => status := ChangePassword(username, given, next);
        case PutMail(_, header, body) => status := StoreEmail(username, header, body);
        case DelMail(_, id) => status := DeleteMail(username, id);
        case PutFile(_, dir, name, data) => status := StoreFile(username, dir, name, data);
        case DelFile(_, dir, name) => status := DeleteFile(username, dir, name);
        case MkFolder(_, dir, name) => status := CreateFolder(username, dir, name);
        case DelFolder(_, dir, name) => status := DeleteFolder(username, dir, name);
      }
    }

    /** Every write is logged before it is executed, whether or not it then succeeds. */
    method ProcessCommand(c: Command) returns (status: Status)
      requires log.Readable()
      modifies this`tablet, log
      ensures log.Readable() && log.entries == old(log.entries) + [c]
      ensures old(log.Counted()) && |log.entries| < INT_LIMIT ==> log.Counted()
      ensures (tablet, status) == Exec(old(tablet), c)
      ensures old(Durable()) && !disabled ==>
                (Durable() <==> Faithful(c) || (UserOf(c) !in old(tablet) && ReplayUserOf(c) !in old(tablet)))
    {
      LoggingKeepsReplay(log.entries, c);
      log.AddLogEntry(c);
      status := Dispatch(c, UserOf(c));
    }

    method ReplayLog()
      requires log.Counted()
      modifies this`tablet
      ensures tablet == ReplayAll(old(tablet), log.entries)
    {
      var sequenceNo := log.GetLogSequenceNo();
      var ctr := 0;
      while ctr < sequenceNo
        invariant 0 <= ctr <= sequenceNo == |log.entries|
        invariant tablet == ReplayAll(old(tablet), log.entries[..ctr])
      {
        assert log.entries[..ctr + 1][..ctr] == log.entries[..ctr];
        var status := Dispatch(log.entries[ctr], ReplayUserOf(log.entries[ctr]));
        ctr := ctr + 1;
      }
      assert log.entries[..|log.entries|] == log.entries;
    }

    method Disable()
      modifies this
      ensures terminated && disabled && tablet == map[] && Durable()
      ensures restarted == old(restarted) && version == old(version) && checkpoint == old(checkpoint)
    {
      terminated := true;
      ClearTablet();
      disabled := true;
    }

    /** Returns the number of entries sent to the primary with the transfer request. */
    method Restart() returns (have: int)
      requires log.Counted()
      modifies this
      ensures !terminated && restarted && !disabled && have == |log.entries|
      ensures tablet == ReplayAll(old(tablet), log.entries)
      ensures old(disabled && Durable()) ==> Durable()
      ensures version == old(version) && checkpoint == old(checkpoint)
    {
      terminated := false;
      restarted := true;
      ReplayLog();
      disabled := false;
      have := log.GetLogSequenceNo();
    }

    method TakeCheckpoint()
      modifies this`checkpoint, this`version
      ensures checkpoint == tablet && version == old(version) + 1
    {
      checkpoint := tablet;
      version := version + 1;
    }
  }

  /** Disabling a server and restarting it brings the tablet back. */
  method DisableThenRestart(store: Store) returns (have: int)
    requires store.Durable() && store.log.Counted() && !store.disabled
    modifies store
    ensures store.tablet == old(store.tablet) && store.Durable() && !store.disabled
    ensures have == |store.log.entries|
  {
    store.Disable();
    have := store.Restart();
  }
}
