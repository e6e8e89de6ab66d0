/** What replaying and shipping the command log restores. */
module WriteAheadLog {
  import opened Sequences
  import opened Text
  import opened KeyValue

  // ---- Replay ----

  /** The two offsets at which the user name is cut out of the command agree. */
  predicate Faithful(c: Command) {
    UserOf(c) == ReplayUserOf(c)
  }

  predicate AllFaithful(cs: seq<Command>) {
    forall i :: 0 <= i < |cs| ==> Faithful(cs[i])
  }

  lemma {:induction false} ReplayIsLive(t: Tablet, cs: seq<Command>)
    requires AllFaithful(cs)
    ensures ReplayAll(t, cs) == ApplyAll(t, cs)
  {
    if cs != [] {
      ReplayIsLive(t, cs[..|cs| - 1]);
    }
  }

  lemma ReplayStep(t: Tablet, cs: seq<Command>, c: Command)
    ensures ReplayAll(t, cs + [c]) == ExecFor(ReplayAll(t, cs), c, ReplayUserOf(c)).0
    ensures ApplyAll(t, cs + [c]) == Apply(ApplyAll(t, cs), c)
  {
    assert (cs + [c])[..|cs + [c]| - 1] == cs;
  }

  lemma DeletionEffect(t: Tablet, c: Command, u: string)
    requires c.DeleteUser?
    ensures ExecFor(t, c, u).0 == t - {u}
  {
    assert u !in t ==> t - {u} == t;
  }

  lemma DropsAgree(t: Tablet, u: string, v: string)
    ensures t - {u} == t - {v} <==> u == v || (u !in t && v !in t)
  {
    var a, b := t - {u}, t - {v};
    assert u !in a && v !in b;
    if u != v {
      assert u in t ==> u in b;
      assert v in t ==> v in a;
      assert u !in t && v !in t ==> a == t && b == t;
    }
  }

  /** Logging a command and executing it keeps the tablet equal to the replay of its log exactly when
      the command's user is cut out alike on both paths or neither name is a user. */
  lemma LoggingKeepsReplay(log: seq<Command>, c: Command)
    ensures Apply(ReplayAll(map[], log), c) == ReplayAll(map[], log + [c]) <==>
            || Faithful(c)
            || (UserOf(c) !in ReplayAll(map[], log) && ReplayUserOf(c) !in ReplayAll(map[], log))
  {
    var t := ReplayAll(map[], log);
    ReplayStep(map[], log, c);
    if !Faithful(c) {
      DeletionEffect(t, c, UserOf(c));
      DeletionEffect(t, c, ReplayUserOf(c));
      DropsAgree(t, UserOf(c), ReplayUserOf(c));
    }
  }

  /** An ordinary delete command is replayed on the tail of its keyword, so it is replayed on the right
      user only when that user happens to be called `ete` or `ETE`. */
  lemma DeleteReplaysKeywordTail(keyword: string, user: string, rest: string)
    requires keyword == "delete" || keyword == "DELETE"
    requires user != "" && ' ' !in user
    ensures var c := DeleteUser(keyword + " " + user + " " + rest);
            && UserOf(c) == user
            && ReplayUserOf(c) == keyword[3..]
            && (Faithful(c) <==> user == keyword[3..])
  {
    var line := keyword + " " + user + " " + rest;
    assert After(line, 6) == " " + (user + " " + rest);
    assert (" " + (user + " " + rest))[1..] == user + " " + rest;
    TokenBeforeSpace(user, rest);
    assert SkipSpaces(user + " " + rest) == user + " " + rest by { assert (user + " " + rest)[0] == user[0]; }
    assert After(line, 3) == keyword[3..] + " " + (user + " " + rest);
    assert ' ' !in keyword[3..];
    TokenBeforeSpace(keyword[3..], user + " " + rest);
    assert SkipSpaces(After(line, 3)) == After(line, 3) by { assert After(line, 3)[0] == keyword[3]; }
  }

  lemma UserAdded(c: Command)
    requires c.AddUser?
    ensures Apply(map[], c).Keys == {c.user} && ExecFor(map[], c, c.user).0.Keys == {c.user}
  {
  }

  lemma UserDropped(t: Tablet, c: Command, user: string)
    requires c.DeleteUser?
    ensures ExecFor(t, c, user).0.Keys == t.Keys - {user}
  {
    DeletionEffect(t, c, user);
  }

  /** A user that was deleted comes back when the log is replayed, unless it is called as the keyword's tail. */
  lemma DeletedUserReturns(keyword: string, user: string, password: string)
    requires keyword == "delete" || keyword == "DELETE"
    requires user != "" && ' ' !in user
    ensures var log := [AddUser(user, password), DeleteUser(keyword + " " + user + " " + password)];
            && ApplyAll(map[], log) == map[]
            && (user in ReplayAll(map[], log) <==> user != keyword[3..])
  {
    var add, del := AddUser(user, password), DeleteUser(keyword + " " + user + " " + password);
    DeleteReplaysKeywordTail(keyword, user, password);
    LeftEmpty([add]);
    OneAndOne(add, del);
    ReplayStep(map[], [], add);
    ReplayStep(map[], [add], del);
    UserAdded(add);
    UserDropped(ApplyAll(map[], [add]), del, user);
    UserDropped(ReplayAll(map[], [add]), del, keyword[3..]);
  }

  /** How many mails to a user the log stores. */
  function MailsTo(cs: seq<Command>, u: string): nat {
    if cs == [] then 0
    else MailsTo(cs[..|cs| - 1], u) + if cs[|cs| - 1].PutMail? && cs[|cs| - 1].user == u then 1 else 0
  }

  /** The log neither deletes the user nor a mail of the user's. */
  predicate NeverDeletes(cs: seq<Command>, u: string) {
    forall i :: 0 <= i < |cs| && ReplayUserOf(cs[i]) == u ==> !cs[i].DeleteUser? && !cs[i].DelMail?
  }

  lemma RowCounts(t: Tablet, c: Command, u: string)
    requires u in t && (ReplayUserOf(c) == u ==> !c.DeleteUser? && !c.DelMail?)
    ensures var t' := ExecFor(t, c, ReplayUserOf(c)).0;
            u in t' && t'[u].numEmails == t[u].numEmails + if c.PutMail? && c.user == u then 1 else 0
  {
  }

  lemma {:induction false} MailsAddUp(t: Tablet, cs: seq<Command>, u: string)
    requires u in t && NeverDeletes(cs, u)
    ensures u in ReplayAll(t, cs) && ReplayAll(t, cs)[u].numEmails == t[u].numEmails + MailsTo(cs, u)
  {
    if cs != [] {
      var front := cs[..|cs| - 1];
      MailsAddUp(t, front, u);
      RowCounts(ReplayAll(t, front), cs[|cs| - 1], u);
    }
  }

  /** Replaying onto a tablet that was not cleared first stores every mail again: for a user the log adds and neither
      deletes nor deletes mails of, the number of mails stays the same exactly when the log stores none. */
  lemma RestartWithoutDisableDuplicates(log: seq<Command>, u: string)
    requires u in ReplayAll(map[], log) && NeverDeletes(log, u)
    ensures var once, twice := ReplayAll(map[], log), ReplayAll(ReplayAll(map[], log), log);
            && u in twice && twice[u].numEmails == once[u].numEmails + MailsTo(log, u)
            && (MailsTo(log, u) == 0 <==> twice[u].numEmails == once[u].numEmails)
            && (MailsTo(log, u) > 0 ==> twice != once)
  {
    MailsAddUp(ReplayAll(map[], log), log, u);
  }

  // ---- Transfer ----

  /** The kinds transfer_log sends. Password changes and user deletions are skipped, and for a file
      deletion the bytes sent are those of a pointer. */
  predicate Transferable(c: Command) {
    !c.ChangePassword? && !c.DeleteUser? && !c.DelFile?
  }

  function Shipped(cs: seq<Command>): seq<Command> {
    if cs == [] then []
    else Shipped(cs[..|cs| - 1]) + (if Transferable(cs[|cs| - 1]) then [cs[|cs| - 1]] else [])
  }

  lemma {:induction false} ShippedSize(cs: seq<Command>)
    ensures |Shipped(cs)| <= |cs|
    ensures |Shipped(cs)| == |cs| ==> forall i :: 0 <= i < |cs| ==> Transferable(cs[i])
  {
    if cs != [] {
      ShippedSize(cs[..|cs| - 1]);
    }
  }

  /** A transfer completes a log exactly when every missing entry is of a kind that is sent. */
  lemma {:induction false} ShippedIsWhole(cs: seq<Command>)
    ensures Shipped(cs) == cs <==> forall i :: 0 <= i < |cs| ==> Transferable(cs[i])
  {
    ShippedSize(cs);
    if cs != [] && forall i :: 0 <= i < |cs| ==> Transferable(cs[i]) {
      ShippedIsWhole(cs[..|cs| - 1]);
      assert Transferable(cs[|cs| - 1]);
      FrontAndLast(cs);
    }
  }

  /** The kinds that are sent. */
  lemma {:induction false} SentMembers(cs: seq<Command>)
    ensures forall c :: c in Shipped(cs) <==>
              c in cs && (c.AddUser? || c.PutMail? || c.DelMail? || c.PutFile? || c.MkFolder? || c.DelFolder?)
  {
    if cs != [] {
      SentMembers(cs[..|cs| - 1]);
      FrontAndLast(cs);
    }
  }

  predicate Increasing(at: seq<nat>) {
    forall i, j :: 0 <= i < j < |at| ==> at[i] < at[j]
  }

  /** The entries at the given places, in turn. */
  predicate PicksOut(cs: seq<Command>, sent: seq<Command>, at: seq<nat>) {
    |at| == |sent| && forall j :: 0 <= j < |at| ==> at[j] < |cs| && sent[j] == cs[at[j]]
  }

  lemma PicksNext(cs: seq<Command>, sent: seq<Command>, at: seq<nat>, c: Command)
    requires Increasing(at) && PicksOut(cs, sent, at)
    ensures Increasing(at + [|cs|]) && PicksOut(cs + [c], sent + [c], at + [|cs|]) && PicksOut(cs + [c], sent, at)
  {
    forall j | 0 <= j < |at| ensures at[j] < |cs| && (cs + [c])[at[j]] == cs[at[j]] {}
  }

  /** What is sent of a stretch of the log are its entries at certain places, in order: none is sent twice or out of
      turn. */
  lemma {:induction false} SentInOrder(cs: seq<Command>) returns (at: seq<nat>)
    ensures Increasing(at) && PicksOut(cs, Shipped(cs), at)
  {
    at := [];
    if cs != [] {
      var front, last := cs[..|cs| - 1], cs[|cs| - 1];
      at := SentInOrder(front);
      FrontAndLast(cs);
      PicksNext(front, Shipped(front), at, last);
      if Transferable(last) {
        at := at + [|front|];
      } else {
        RightEmpty(Shipped(front));
      }
    }
  }

  /** How often a command of a kind that is sent is sent. */
  lemma {:induction false} SentAsOften(cs: seq<Command>, c: Command)
    ensures multiset(Shipped(cs))[c] ==
            if c.AddUser? || c.PutMail? || c.DelMail? || c.PutFile? || c.MkFolder? || c.DelFolder?
            then multiset(cs)[c] else 0
  {
    if cs != [] {
      SentAsOften(cs[..|cs| - 1], c);
      FrontAndLast(cs);
      MultisetNext(cs[..|cs| - 1], cs[|cs| - 1]);
      MultisetNext(Shipped(cs[..|cs| - 1]), cs[|cs| - 1]);
    }
  }
}
