/** Which commands are sequenced and which are served at once, on the text of the command. */
module Routing {
  import opened Text

  /** The logging branches of process_command, and the others. */
  datatype Action =
    | Adds | Deletes | ChangesPassword | StoresMail | DeletesMail | StoresFile | DeletesFile | MakesFolder
    | DeletesFolder | Authenticates | ListsMail | ReadsMail | ReadsFile | ListsFolder | Unknown

  predicate Logs(a: Action) {
    a.Adds? || a.Deletes? || a.ChangesPassword? || a.StoresMail? || a.DeletesMail? || a.StoresFile? ||
    a.DeletesFile? || a.MakesFolder? || a.DeletesFolder?
  }

  /** `strncmp(command, word, n) == 0`: past the end of the word its terminator is compared as well. */
  predicate Compares(command: string, word: string, n: nat) {
    if n <= |word| then word[..n] <= command else command == word
  }

  /** The program compares with the word in lower and in upper case. */
  predicate Either(command: string, lower: string, upper: string, n: nat) {
    Compares(command, lower, n) || Compares(command, upper, n)
  }

  /** check_if_write */
  predicate CheckIfWrite(command: string) {
    || Either(command, "add", "ADD", 3)
    || Either(command, "delete", "DELETE", 6)
    || Either(command, "changepw", "CHANGEPW", 8)
    || Either(command, "putmail", "PUTMAIL", 7)
    || Either(command, "delmail", "DELMAIL", 8)
    || Either(command, "putfile", "PUTFILE", 7)
    || Either(command, "delfile", "DELFILE", 7)
    || Either(command, "mkfolder", "MKFOLDER", 8)
    || Either(command, "delfolder", "DELFOLDER", 9)
  }

  /** The branches of process_command, in their order. */
  function ActionOf(command: string): Action {
    if Either(command, "add", "ADD", 3) then Adds
    else if Either(command, "delete", "DELETE", 6) then Deletes
    else if Either(command, "changepw", "CHANGEPW", 8) then ChangesPassword
    else if Either(command, "auth", "AUTH", 4) then Authenticates
    else if Either(command, "putmail", "PUTMAIL", 7) then StoresMail
    else if Either(command, "getmail", "GETMAIL", 7) then ListsMail
    else if Either(command, "mailbody", "MAILBODY", 8) then ReadsMail
    else if Either(command, "delmail", "DELMAIL", 8) then DeletesMail
    else if Either(command, "putfile", "PUTFILE", 7) then StoresFile
    else if Either(command, "getfile", "GETFILE", 7) then ReadsFile
    else if Either(command, "delfile", "DELFILE", 7) then DeletesFile
    else if Either(command, "getfolder", "GETFOLDER", 9) then ListsFolder
    else if Either(command, "mkfolder", "MKFOLDER", 8) then MakesFolder
    else if Either(command, "delfolder", "DELFOLDER", 9) then DeletesFolder
    else Unknown
  }

  // ---- The first two letters tell reads and writes apart ----

  const WRITE_STARTS: set<string> := {"ad", "AD", "de", "DE", "ch", "CH", "pu", "PU", "mk", "MK"}
  const READ_STARTS: set<string> := {"au", "AU", "ge", "GE", "ma", "MA"}

  predicate Starts(command: string, firsts: set<string>) {
    |command| >= 2 && command[..2] in firsts
  }

  lemma EitherStarts(command: string, lower: string, upper: string, n: nat)
    requires |lower| >= 2 && |upper| >= 2 && n >= 2 && Either(command, lower, upper, n)
    ensures Starts(command, {[lower[0], lower[1]], [upper[0], upper[1]]})
  {
    var word := if Compares(command, lower, n) then lower else upper;
    if n <= |word| {
      assert command[0] == word[..n][0] && command[1] == word[..n][1];
    }
    assert command[..2] == [word[0], word[1]];
  }

  lemma WritesStart(command: string)
    requires CheckIfWrite(command)
    ensures Starts(command, WRITE_STARTS)
  {
    if Either(command, "add", "ADD", 3) { EitherStarts(command, "add", "ADD", 3); }
    else if Either(command, "delete", "DELETE", 6) { EitherStarts(command, "delete", "DELETE", 6); }
    else if Either(command, "changepw", "CHANGEPW", 8) { EitherStarts(command, "changepw", "CHANGEPW", 8); }
    else if Either(command, "putmail", "PUTMAIL", 7) { EitherStarts(command, "putmail", "PUTMAIL", 7); }
    else if Either(command, "delmail", "DELMAIL", 8) { EitherStarts(command, "delmail", "DELMAIL", 8); }
    else if Either(command, "putfile", "PUTFILE", 7) { EitherStarts(command, "putfile", "PUTFILE", 7); }
    else if Either(command, "delfile", "DELFILE", 7) { EitherStarts(command, "delfile", "DELFILE", 7); }
    else if Either(command, "mkfolder", "MKFOLDER", 8) { EitherStarts(command, "mkfolder", "MKFOLDER", 8); }
    else { EitherStarts(command, "delfolder", "DELFOLDER", 9); }
  }

  lemma ReadsStart(command: string)
    requires ActionOf(command) in {Authenticates, ListsMail, ReadsMail, ReadsFile, ListsFolder}
    ensures Starts(command, READ_STARTS)
  {
    match ActionOf(command) {
      case Authenticates => EitherStarts(command, "auth", "AUTH", 4);
      case ListsMail => EitherStarts(command, "getmail", "GETMAIL", 7);
      case ReadsMail => EitherStarts(command, "mailbody", "MAILBODY", 8);
      case ReadsFile => EitherStarts(command, "getfile", "GETFILE", 7);
      case ListsFolder => EitherStarts(command, "getfolder", "GETFOLDER", 9);
    }
  }

  lemma StartsApart(command: string, a: set<string>, b: set<string>)
    requires a !! b && Starts(command, a)
    ensures !Starts(command, b)
  {
  }

  lemma LettersApart()
    ensures WRITE_STARTS !! READ_STARTS
  {
    forall x | x in WRITE_STARTS ensures x !in READ_STARTS {
      assert x[0] in {'d', 'D', 'c', 'C', 'p', 'P'} || x[1] in {'d', 'D', 'k', 'K'};
    }
  }

  /** A command is sent to be sequenced exactly when its execution would log it. */
  lemma RoutingAgrees(command: string)
    ensures CheckIfWrite(command) <==> Logs(ActionOf(command))
  {
    if CheckIfWrite(command) && ActionOf(command) in {Authenticates, ListsMail, ReadsMail, ReadsFile, ListsFolder} {
      WritesStart(command);
      ReadsStart(command);
      LettersApart();
      StartsApart(command, READ_STARTS, WRITE_STARTS);
    }
  }

  // ---- The branches exclude each other ----

  lemma EitherLetter(command: string, lower: string, upper: string, n: nat, k: nat)
    requires |lower| == |upper| && k < n && k < |lower| && Either(command, lower, upper, n)
    ensures k < |command| && (command[k] == lower[k] || command[k] == upper[k])
  {
    var word := if Compares(command, lower, n) then lower else upper;
    if n <= |word| { assert command[k] == word[..n][k]; }
  }

  /** Words that differ in a letter, whatever the case, are not both compared with success. */
  lemma Excludes(command: string, a: string, A: string, n: nat, b: string, B: string, m: nat, k: nat)
    requires |a| == |A| && |b| == |B| && k < n && k < m && k < |a| && k < |b| && {a[k], A[k]} !! {b[k], B[k]}
    ensures !(Either(command, a, A, n) && Either(command, b, B, m))
  {
    if Either(command, a, A, n) && Either(command, b, B, m) {
      EitherLetter(command, a, A, n, k);
      EitherLetter(command, b, B, m, k);
    }
  }

  lemma EitherBegins(command: string, lower: string, upper: string, n: nat)
    requires |lower| == |upper| >= 2 && n >= 2 && Either(command, lower, upper, n)
    ensures |command| >= 2 && command[0] in {lower[0], upper[0]} && command[1] in {lower[1], upper[1]}
  {
    EitherLetter(command, lower, upper, n, 0);
    EitherLetter(command, lower, upper, n, 1);
  }

  /** The first letters of the words. */
  lemma AccountLetters(command: string)
    ensures Either(command, "add", "ADD", 3) ==>
              |command| >= 2 && command[0] in {'a', 'A'} && command[1] in {'d', 'D'}
    ensures Either(command, "delete", "DELETE", 6) ==>
              |command| >= 2 && command[0] in {'d', 'D'} && command[1] in {'e', 'E'}
    ensures Either(command, "changepw", "CHANGEPW", 8) ==>
              |command| >= 2 && command[0] in {'c', 'C'} && command[1] in {'h', 'H'}
    ensures Either(command, "auth", "AUTH", 4) ==>
              |command| >= 2 && command[0] in {'a', 'A'} && command[1] in {'u', 'U'}
  {
    if Either(command, "add", "ADD", 3) { EitherBegins(command, "add", "ADD", 3); }
    if Either(command, "delete", "DELETE", 6) { EitherBegins(command, "delete", "DELETE", 6); }
    if Either(command, "changepw", "CHANGEPW", 8) { EitherBegins(command, "changepw", "CHANGEPW", 8); }
    if Either(command, "auth", "AUTH", 4) { EitherBegins(command, "auth", "AUTH", 4); }
  }

  /** Those of the words about mail. */
  lemma MailLetters(command: string)
    ensures Either(command, "putmail", "PUTMAIL", 7) ==>
              |command| >= 2 && command[0] in {'p', 'P'} && command[1] in {'u', 'U'}
    ensures Either(command, "getmail", "GETMAIL", 7) ==>
              |command| >= 2 && command[0] in {'g', 'G'} && command[1] in {'e', 'E'}
    ensures Either(command, "mailbody", "MAILBODY", 8) ==>
              |command| >= 2 && command[0] in {'m', 'M'} && command[1] in {'a', 'A'}
    ensures Either(command, "delmail", "DELMAIL", 8) ==>
              |command| >= 2 && command[0] in {'d', 'D'} && command[1] in {'e', 'E'}
  {
    if Either(command, "putmail", "PUTMAIL", 7) { EitherBegins(command, "putmail", "PUTMAIL", 7); }
    if Either(command, "getmail", "GETMAIL", 7) { EitherBegins(command, "getmail", "GETMAIL", 7); }
    if Either(command, "mailbody", "MAILBODY", 8) { EitherBegins(command, "mailbody", "MAILBODY", 8); }
    if Either(command, "delmail", "DELMAIL", 8) { EitherBegins(command, "delmail", "DELMAIL", 8); }
  }

  /** Those of the words about files. */
  lemma FileLetters(command: string)
    ensures Either(command, "putfile", "PUTFILE", 7) ==>
              |command| >= 2 && command[0] in {'p', 'P'} && command[1] in {'u', 'U'}
    ensures Either(command, "getfile", "GETFILE", 7) ==>
              |command| >= 2 && command[0] in {'g', 'G'} && command[1] in {'e', 'E'}
    ensures Either(command, "delfile", "DELFILE", 7) ==>
              |command| >= 2 && command[0] in {'d', 'D'} && command[1] in {'e', 'E'}
  {
    if Either(command, "putfile", "PUTFILE", 7) { EitherBegins(command, "putfile", "PUTFILE", 7); }
    if Either(command, "getfile", "GETFILE", 7) { EitherBegins(command, "getfile", "GETFILE", 7); }
    if Either(command, "delfile", "DELFILE", 7) { EitherBegins(command, "delfile", "DELFILE", 7); }
  }

  /** Those of the words about folders. */
  lemma FolderLetters(command: string)
    ensures Either(command, "getfolder", "GETFOLDER", 9) ==>
              |command| >= 2 && command[0] in {'g', 'G'} && command[1] in {'e', 'E'}
    ensures Either(command, "mkfolder", "MKFOLDER", 8) ==>
              |command| >= 2 && command[0] in {'m', 'M'} && command[1] in {'k', 'K'}
    ensures Either(command, "delfolder", "DELFOLDER", 9) ==>
              |command| >= 2 && command[0] in {'d', 'D'} && command[1] in {'e', 'E'}
  {
    if Either(command, "getfolder", "GETFOLDER", 9) { EitherBegins(command, "getfolder", "GETFOLDER", 9); }
    if Either(command, "mkfolder", "MKFOLDER", 8) { EitherBegins(command, "mkfolder", "MKFOLDER", 8); }
    if Either(command, "delfolder", "DELFOLDER", 9) { EitherBegins(command, "delfolder", "DELFOLDER", 9); }
  }

  /** Words with the same first letters differ in a later one. */
  lemma LaterLetters(command: string)
    ensures !(Either(command, "delete", "DELETE", 6) &&
              Either(command, "delmail", "DELMAIL", 8))
    ensures !(Either(command, "delete", "DELETE", 6) &&
              Either(command, "delfile", "DELFILE", 7))
    ensures !(Either(command, "delete", "DELETE", 6) &&
              Either(command, "delfolder", "DELFOLDER", 9))
    ensures !(Either(command, "delmail", "DELMAIL", 8) &&
              Either(command, "delfile", "DELFILE", 7))
    ensures !(Either(command, "delmail", "DELMAIL", 8) &&
              Either(command, "delfolder", "DELFOLDER", 9))
    ensures !(Either(command, "delfile", "DELFILE", 7) &&
              Either(command, "delfolder", "DELFOLDER", 9))
    ensures !(Either(command, "putmail", "PUTMAIL", 7) &&
              Either(command, "putfile", "PUTFILE", 7))
    ensures !(Either(command, "getmail", "GETMAIL", 7) &&
              Either(command, "getfile", "GETFILE", 7))
    ensures !(Either(command, "getmail", "GETMAIL", 7) &&
              Either(command, "getfolder", "GETFOLDER", 9))
    ensures !(Either(command, "getfile", "GETFILE", 7) &&
              Either(command, "getfolder", "GETFOLDER", 9))
  {
    Excludes(command, "delete", "DELETE", 6, "delmail", "DELMAIL", 8, 3);
    Excludes(command, "delete", "DELETE", 6, "delfile", "DELFILE", 7, 3);
    Excludes(command, "delete", "DELETE", 6, "delfolder", "DELFOLDER", 9, 3);
    Excludes(command, "delmail", "DELMAIL", 8, "delfile", "DELFILE", 7, 3);
    Excludes(command, "delmail", "DELMAIL", 8, "delfolder", "DELFOLDER", 9, 3);
    Excludes(command, "delfile", "DELFILE", 7, "delfolder", "DELFOLDER", 9, 4);
    Excludes(command, "putmail", "PUTMAIL", 7, "putfile", "PUTFILE", 7, 3);
    Excludes(command, "getmail", "GETMAIL", 7, "getfile", "GETFILE", 7, 3);
    Excludes(command, "getmail", "GETMAIL", 7, "getfolder", "GETFOLDER", 9, 3);
    Excludes(command, "getfile", "GETFILE", 7, "getfolder", "GETFOLDER", 9, 4);
  }

  /** Each branch is taken exactly for its own word, in whichever order they are tried. */
  lemma BranchesExclude(command: string)
    ensures ActionOf(command) == Adds <==> Either(command, "add", "ADD", 3)
    ensures ActionOf(command) == Deletes <==> Either(command, "delete", "DELETE", 6)
    ensures ActionOf(command) == ChangesPassword <==> Either(command, "changepw", "CHANGEPW", 8)
    ensures ActionOf(command) == Authenticates <==> Either(command, "auth", "AUTH", 4)
    ensures ActionOf(command) == StoresMail <==> Either(command, "putmail", "PUTMAIL", 7)
    ensures ActionOf(command) == ListsMail <==> Either(command, "getmail", "GETMAIL", 7)
    ensures ActionOf(command) == ReadsMail <==> Either(command, "mailbody", "MAILBODY", 8)
    ensures ActionOf(command) == DeletesMail <==> Either(command, "delmail", "DELMAIL", 8)
    ensures ActionOf(command) == StoresFile <==> Either(command, "putfile", "PUTFILE", 7)
    ensures ActionOf(command) == ReadsFile <==> Either(command, "getfile", "GETFILE", 7)
    ensures ActionOf(command) == DeletesFile <==> Either(command, "delfile", "DELFILE", 7)
    ensures ActionOf(command) == ListsFolder <==> Either(command, "getfolder", "GETFOLDER", 9)
    ensures ActionOf(command) == MakesFolder <==> Either(command, "mkfolder", "MKFOLDER", 8)
    ensures ActionOf(command) == DeletesFolder <==> Either(command, "delfolder", "DELFOLDER", 9)
  {
    AccountLetters(command);
    MailLetters(command);
    FileLetters(command);
    FolderLetters(command);
    LaterLetters(command);
  }

  lemma WordIsCompared(word: string, rest: string)
    ensures Compares(word + rest, word, |word|)
  {
  }

  /** Each word of a write, in lower or in upper case, has what follows it logged; a mail deletion is its word alone,
      since the terminator is compared as well. */
  lemma WritesAreSequenced(rest: string)
    ensures forall word ::
              word in {"add", "ADD", "delete", "DELETE", "changepw", "CHANGEPW", "putmail", "PUTMAIL", "putfile",
                       "PUTFILE", "delfile", "DELFILE", "mkfolder", "MKFOLDER", "delfolder", "DELFOLDER"} ==>
                CheckIfWrite(word + rest)
    ensures CheckIfWrite("delmail") && CheckIfWrite("DELMAIL")
  {
    forall word |
      word in {"add", "ADD", "delete", "DELETE", "changepw", "CHANGEPW", "putmail", "PUTMAIL", "putfile",
               "PUTFILE", "delfile", "DELFILE", "mkfolder", "MKFOLDER", "delfolder", "DELFOLDER"}
      ensures CheckIfWrite(word + rest)
    {
      WordIsCompared(word, rest);
    }
  }

  // ---- Control messages ----

  /** The texts the servers exchange among themselves; a comparison ignores case, which leaves the first
      character alone. */
  const CONTROLS: set<string> := {"+COMMIT", "+ACK", "+OK", "+CHECKPOINT", "+CP_ACK", "-TRANSFER"}

  lemma WriteBeginsWithLetter(command: string)
    requires CheckIfWrite(command)
    ensures command != "" && Lower(command[0]) in {'a', 'd', 'c', 'p', 'm'}
  {
    WritesStart(command);
    assert command[0] == command[..2][0];
  }

  /** No write that clients send can be taken for a control message, nor for an empty one. */
  lemma PayloadsAreNoControls(command: string)
    requires CheckIfWrite(command)
    ensures command != "" && command[0] != '+' && command[0] != '-' && command[0] != '\0'
    ensures forall control :: control in CONTROLS ==> !SameText(command, control)
  {
    WriteBeginsWithLetter(command);
    forall control | control in CONTROLS ensures Lower(control[0]) in {'+', '-'} {}
  }
}
