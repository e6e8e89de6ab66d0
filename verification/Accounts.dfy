/** What users can rely on about accounts: passwords, the user limit, and commands that fail. */
module Accounts {
  import opened Sequences
  import opened KeyValue

  // ---- One command ----

  /** A command concerns the row of the user it names alone. */
  lemma OthersUntouched(t: Tablet, c: Command, v: string)
    requires v != UserOf(c)
    ensures Get(Apply(t, c), v) == Get(t, v)
  {
  }

  lemma RowKept(row: Row, c: Command)
    requires !c.AddUser? && !c.DeleteUser?
    ensures RowEffect(row, c).1 != Success ==> RowEffect(row, c).0 == row
  {
  }

  /** A command that does not answer Success leaves the tablet as it was; it answers that there is no such user exactly
      when it needs one and there is none. */
  lemma FailuresChangeNothing(t: Tablet, c: Command)
    ensures Exec(t, c).1 != Success ==> Exec(t, c).0 == t
    ensures Exec(t, c).1 == NoUser <==> !c.AddUser? && UserOf(c) !in t
  {
    var u := UserOf(c);
    PutBack(t, u);
    if u in t && !c.AddUser? && !c.DeleteUser? { RowKept(t[u], c); }
  }

  /** A user is deleted whatever the row holds, and a deleted user's commands find no user. */
  lemma DeletedIsGone(t: Tablet, c: Command)
    requires c.DeleteUser? && UserOf(c) in t
    ensures Exec(t, c).1 == Success && Exec(t, c).0 == t - {UserOf(c)}
  {
  }

  /** The limit is looked at first, then whether the user exists; a user who is added starts with an empty mailbox, a
      root folder, and the given password. */
  lemma AddingAnswers(t: Tablet, u: string, password: string)
    ensures var (t', st) := Exec(t, AddUser(u, password));
            && (st == UserLimit <==> |t| == 100)
            && (st == UserExists <==> |t| != 100 && u in t)
            && (st == Success <==> |t| != 100 && u !in t)
            && (st == Success ==>
                  && t'.Keys == t.Keys + {u} && t'[u].numEmails == 0 && t'[u].columns == map["/r00t" := Dir(0, [])]
                  && forall given, next ::
                       Exec(t', ChangePassword(u, given, next)).1 == Success <==> password <= given)
  {
  }

  /** A change of password is accepted exactly when the old one is the start of what is given for it. Once accepted, the
      new password is what the next change must start with; the rest of the row is as before. */
  lemma ChangeAnswers(t: Tablet, u: string, given: string, next: string)
    requires u in t
    ensures var (t', st) := Exec(t, ChangePassword(u, given, next));
            && (st == Success <==> t[u].password <= given)
            && (st == WrongPassword <==> !(t[u].password <= given))
            && (st == WrongPassword ==> t' == t)
            && t'.Keys == t.Keys && t'[u].columns == t[u].columns && t'[u].numEmails == t[u].numEmails
            && (forall v :: v in t && v != u ==> t'[v] == t[v])
            && (st == Success ==>
                  forall g, more :: Exec(t', ChangePassword(u, g, more)).1 == Success <==> next <= g)
  {
    FailuresChangeNothing(t, ChangePassword(u, given, next));
  }

  // ---- Whole logs ----

  lemma OneMoreUser(t: Tablet, c: Command)
    ensures |Apply(t, c)| <= if c.AddUser? && |t| != 100 then |t| + 1 else |t|
  {
    var u, t' := UserOf(c), Apply(t, c);
    assert |t'.Keys| == |t'| && |t.Keys| == |t|;
    assert t'.Keys <= t.Keys + {u};
    if c.AddUser? && |t| != 100 {
      SubsetSize(t'.Keys, t.Keys + {u});
    } else {
      assert t'.Keys <= t.Keys;
      SubsetSize(t'.Keys, t.Keys);
    }
  }

  /** A tablet never holds more than a hundred users. */
  lemma {:induction false} UsersStayBelowLimit(cs: seq<Command>)
    ensures |ApplyAll(map[], cs)| <= 100
  {
    if cs != [] {
      UsersStayBelowLimit(cs[..|cs| - 1]);
      OneMoreUser(ApplyAll(map[], cs[..|cs| - 1]), cs[|cs| - 1]);
    }
  }

  /** The command gives the user a password, and is accepted. */
  predicate Gives(t: Tablet, c: Command, u: string) {
    UserOf(c) == u && (c.AddUser? || c.ChangePassword?) && Exec(t, c).1 == Success
  }

  /** The k-th command of a log is one that gives the user a password. */
  predicate Sets(cs: seq<Command>, k: nat, u: string)
    requires k < |cs|
  {
    Gives(ApplyAll(map[], cs[..k]), cs[k], u)
  }

  function PasswordIn(c: Command): string
    requires c.AddUser? || c.ChangePassword?
  {
    if c.AddUser? then c.password else c.newPassword
  }

  /** What the last command of a log does to a user's password. */
  lemma LastSets(t: Tablet, c: Command, u: string)
    requires u in Apply(t, c)
    ensures if Gives(t, c, u) then Apply(t, c)[u].password == PasswordIn(c)
            else u in t && Apply(t, c)[u].password == t[u].password
  {
    if UserOf(c) == u { FailuresChangeNothing(t, c); } else { OthersUntouched(t, c, u); }
  }

  lemma GivesSame(t: Tablet, c: Command, t': Tablet, c': Command, u: string)
    requires t == t' && c == c'
    ensures Gives(t, c, u) == Gives(t', c', u)
  {
  }

  lemma SetsInFront(cs: seq<Command>, k: nat, u: string)
    requires k < |cs| - 1
    ensures Sets(cs, k, u) == Sets(cs[..|cs| - 1], k, u)
  {
    var front := cs[..|cs| - 1];
    TakeOfTake(cs, k, |cs| - 1);
    GivesSame(ApplyAll(map[], cs[..k]), cs[k], ApplyAll(map[], front[..k]), front[k], u);
  }

  /** The k-th command is the last that gives the user a password. */
  ghost predicate SetsLast(cs: seq<Command>, k: nat, u: string)
    requires k < |cs|
  {
    Sets(cs, k, u) && forall j :: k < j < |cs| ==> !Sets(cs, j, u)
  }

  lemma StillLast(cs: seq<Command>, k: nat, u: string)
    requires cs != [] && k < |cs| - 1 && SetsLast(cs[..|cs| - 1], k, u) && !Sets(cs, |cs| - 1, u)
    ensures SetsLast(cs, k, u)
  {
    SetsInFront(cs, k, u);
    forall j | k < j < |cs| ensures !Sets(cs, j, u) {
      if j < |cs| - 1 { SetsInFront(cs, j, u); }
    }
  }

  /** After any log, the password of a user is that of the last accepted change of it, or the one the user was added
      with when there was none since. */
  lemma {:induction false} PasswordIsLastSet(cs: seq<Command>, u: string) returns (k: nat)
    requires u in ApplyAll(map[], cs)
    ensures k < |cs| && SetsLast(cs, k, u)
    ensures ApplyAll(map[], cs)[u].password == PasswordIn(cs[k])
  {
    var last := |cs| - 1;
    LastSets(ApplyAll(map[], cs[..last]), cs[last], u);
    if Sets(cs, last, u) {
      k := last;
    } else {
      k := PasswordIsLastSet(cs[..last], u);
      StillLast(cs, k, u);
    }
  }
}
