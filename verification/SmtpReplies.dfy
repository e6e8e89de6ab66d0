/** What the client of an SMTP connection is answered: which command lines are accepted, and that each line gets the
    answers it should. */
module SmtpReplies {
  import opened Sequences
  import opened Text
  import opened SmtpSession
  import opened SmtpExchange

  // ---- Command words, in any case ----

  lemma SameFirst(cmd: string, word: string)
    requires SameText(cmd, word) && word != "" && word[0] != ' '
    ensures cmd != "" && cmd[0] != ' ' && FirstToken(cmd) != "" && FirstToken(cmd)[0] == cmd[0]
  {
    assert Lower(cmd[0]) == Lower(word[0]);
    FirstWordStarts(cmd);
  }

  lemma SameEitherWay(a: string, b: string, c: string)
    requires SameText(a, b) && SameText(a, c)
    ensures SameText(b, c)
  {
    forall i | 0 <= i < |b| ensures Lower(b[i]) == Lower(c[i]) {
      assert Lower(a[i]) == Lower(b[i]) && Lower(a[i]) == Lower(c[i]);
    }
  }

  lemma NoGreeting(cmd: string, word: string)
    requires SameText(cmd, word) && word != "" && Lower(word[0]) in {'q', 'r', 'm', 'd', 'n'}
    ensures FirstToken(cmd) != "" && !SameText(FirstToken(cmd), "HELO")
  {
    SameFirst(cmd, word);
    assert Lower("HELO"[0]) == 'h' && Lower(cmd[0]) == Lower(word[0]);
  }

  lemma WordsDiffer()
    ensures !SameText("RCPT TO", "QUIT") && !SameText("MAIL FROM", "QUIT") && !SameText("MAIL FROM", "RCPT TO")
    ensures !SameText("DATA", "QUIT") && !SameText("DATA", "RCPT TO") && !SameText("DATA", "MAIL FROM")
    ensures !SameText("NOOP", "QUIT") && !SameText("NOOP", "RCPT TO") && !SameText("NOOP", "MAIL FROM")
    ensures !SameText("NOOP", "DATA")
  {
    assert Lower("DATA"[0]) == 'd' && Lower("QUIT"[0]) == 'q' && Lower("NOOP"[0]) == 'n';
  }

  /** A command line is taken for the word it starts with, whatever its case. */
  lemma WordsInAnyCase(cmd: string)
    ensures SameText(cmd, "QUIT") ==> VerbOf(cmd) == Quit
    ensures SameText(cmd, "RCPT TO") ==> VerbOf(cmd) == NameRecipient
    ensures SameText(cmd, "MAIL FROM") ==> VerbOf(cmd) == NameSender
    ensures SameText(cmd, "DATA") ==> VerbOf(cmd) == StartData
    ensures SameText(cmd, "NOOP") ==> VerbOf(cmd) == Noop
    ensures FirstToken(cmd) != "" && SameText(FirstToken(cmd), "HELO") ==> VerbOf(cmd) == SayHelo
  {
    WordsDiffer();
    if SameText(cmd, "QUIT") { NoGreeting(cmd, "QUIT"); }
    if SameText(cmd, "RCPT TO") {
      NoGreeting(cmd, "RCPT TO");
      if SameText(cmd, "QUIT") { SameEitherWay(cmd, "RCPT TO", "QUIT"); }
    }
    if SameText(cmd, "MAIL FROM") {
      NoGreeting(cmd, "MAIL FROM");
      if SameText(cmd, "QUIT") { SameEitherWay(cmd, "MAIL FROM", "QUIT"); }
      if SameText(cmd, "RCPT TO") { SameEitherWay(cmd, "MAIL FROM", "RCPT TO"); }
    }
    if SameText(cmd, "DATA") {
      NoGreeting(cmd, "DATA");
      if SameText(cmd, "QUIT") { SameEitherWay(cmd, "DATA", "QUIT"); }
      if SameText(cmd, "RCPT TO") { SameEitherWay(cmd, "DATA", "RCPT TO"); }
      if SameText(cmd, "MAIL FROM") { SameEitherWay(cmd, "DATA", "MAIL FROM"); }
    }
    if SameText(cmd, "NOOP") {
      NoGreeting(cmd, "NOOP");
      if SameText(cmd, "QUIT") { SameEitherWay(cmd, "NOOP", "QUIT"); }
      if SameText(cmd, "RCPT TO") { SameEitherWay(cmd, "NOOP", "RCPT TO"); }
      if SameText(cmd, "MAIL FROM") { SameEitherWay(cmd, "NOOP", "MAIL FROM"); }
      if SameText(cmd, "DATA") { SameEitherWay(cmd, "NOOP", "DATA"); }
    }
  }

  // ---- Accepted in turn, refused out of turn ----

  /** The step a command line asks for is accepted or refused: accepted, it is one more of the connection's; refused,
      the client is told so and nothing else changes. */
  predicate Turns(st: Session, st': Session, mark: Mark) {
    if Follows(st.history, mark) then st'.history == st.history + [mark]
    else st' == st.(replies := st.replies + [OutOfOrder])
  }

  lemma MailTurns(st: Session, line: string, i: nat, now: string)
    requires Consistent(st) && !st.isData && i <= |line|
    ensures Turns(st, MailLine(st, line, i, now), MailFrom)
  {
  }

  lemma RcptTurns(st: Session, line: string, i: nat)
    requires Consistent(st) && !st.isData && i <= |line|
    ensures Turns(st, RcptLine(st, line, i), RcptTo)
  {
  }

  lemma DataTurns(st: Session)
    requires Consistent(st) && !st.isData
    ensures Turns(st, DataCommand(st), DataStart)
    ensures Follows(st.history, DataStart) ==>
              DataCommand(st) == st.(state := Data, isData := true, history := st.history + [DataStart],
                                     replies := st.replies + [GoAhead])
  {
  }

  lemma HeloTurns(st: Session, words: string)
    requires Consistent(st) && !st.isData
    ensures var st' := HeloLine(st, words);
            if st.history != [] then st' == st.(replies := st.replies + [OutOfOrder])
            else if SecondToken(words) == "" then st' == st.(replies := st.replies + [BadHost])
            else st' == st.(state := InSession, history := [Helo], replies := st.replies + [Greeting])
  {
    LeftEmpty([Helo]);
  }

  /** What comes of a command, by its word. */
  predicate Heeded(st: Session, st': Session, verb: Verb) {
    match verb
    case NameSender => Turns(st, st', MailFrom)
    case NameRecipient => Turns(st, st', RcptTo)
    case StartData => Turns(st, st', DataStart)
    case Quit => st' == st.(isQuit := true, replies := st.replies + [Goodbye])
    case Noop => st' == st
    case _ => true
  }

  lemma ObeyHeeds(st: Session, verb: Verb, line: string, i: nat, now: string)
    requires Consistent(st) && !st.isData && i <= |line|
    ensures Heeded(st, Obey(st, verb, line, i, now), verb)
  {
    match verb {
      case NameSender => MailTurns(st, line, i, now);
      case NameRecipient => RcptTurns(st, line, i);
      case StartData => DataTurns(st);
      case _ =>
    }
  }

  /** On every connection, a command is accepted exactly when its step may follow the steps accepted before. QUIT ends
      the connection, and NOOP does nothing. */
  lemma CommandsInTurn(lines: seq<string>, line: string, now: string)
    requires !ProcessAll(Start(), lines, now).isData
    ensures var st, cmd := ProcessAll(Start(), lines, now), CommandOf(line);
            var st' := Process(st, line, now);
            && (SameText(cmd, "MAIL FROM") ==> Turns(st, st', MailFrom))
            && (SameText(cmd, "RCPT TO") ==> Turns(st, st', RcptTo))
            && (SameText(cmd, "DATA") ==> Turns(st, st', DataStart))
            && (SameText(cmd, "QUIT") ==> st' == st.(isQuit := true, replies := st.replies + [Goodbye]))
            && (SameText(cmd, "NOOP") ==> st' == st)
  {
    var st, cmd := ProcessAll(Start(), lines, now), CommandOf(line);
    ConnectionIsConsistent(lines, now);
    WordsInAnyCase(cmd);
    ObeyHeeds(st, VerbOf(cmd), line, |cmd|, now);
  }

  /** A greeting is accepted once, and only with a host. */
  lemma GreetingInTurn(lines: seq<string>, line: string, now: string)
    requires !ProcessAll(Start(), lines, now).isData
    requires FirstToken(CommandOf(line)) != "" && SameText(FirstToken(CommandOf(line)), "HELO")
    ensures var st := ProcessAll(Start(), lines, now);
            var st' := Process(st, line, now);
            if st.history != [] then st' == st.(replies := st.replies + [OutOfOrder])
            else if SecondToken(CommandOf(line)) == "" then st' == st.(replies := st.replies + [BadHost])
            else st' == st.(state := InSession, history := [Helo], replies := st.replies + [Greeting])
  {
    ConnectionIsConsistent(lines, now);
    WordsInAnyCase(CommandOf(line));
    HeloTurns(ProcessAll(Start(), lines, now), CommandOf(line));
  }

  lemma {:induction false} WordAlone(word: string)
    requires ' ' !in word
    ensures UntilSpace(word) == word
  {
    if word != "" {
      WordAlone(word[1..]);
    }
  }

  lemma NoHostIsRead(word: string)
    requires word != "" && ' ' !in word
    ensures SecondToken(word) == "" && FirstToken(word) == word
  {
    WordAlone(word);
    assert word[0] != ' ';
    assert SkipSpaces(word) == word;
    assert After(word, |word|) == "";
  }

  lemma HostIsRead(word: string, rest: string)
    requires word != "" && ' ' !in word
    ensures SecondToken(word + " " + rest) == FirstToken(rest) && FirstToken(word + " " + rest) == word
  {
    TokenBeforeSpace(word, rest);
    assert (word + " " + rest)[0] == word[0];
    assert SkipSpaces(word + " " + rest) == word + " " + rest;
    assert After(word + " " + rest, |word|) == " " + rest;
    assert (" " + rest)[1..] == rest;
  }

  lemma GreetsWith(host: string, now: string)
    requires host != "" && Plain(host) && host[0] != ' '
    ensures Process(Start(), "HELO " + host + "\r\n", now) ==
            Start().(state := InSession, history := [Helo], replies := [Greeting])
  {
    var cmd := "HELO" + " " + host;
    HostIsRead("HELO", host);
    FirstWordStarts(host);
    CommandIs(cmd, "\r\n");
    WordsInAnyCase(cmd);
    assert "HELO " + host + "\r\n" == cmd + "\r\n";
    LeftEmpty([Helo]);
    LeftEmpty([Greeting]);
  }

  lemma GreetsWithout(now: string)
    ensures Process(Start(), "HELO\r\n", now) == Start().(replies := [BadHost])
  {
    NoHostIsRead("HELO");
    CommandIs("HELO", "\r\n");
    assert "HELO\r\n" == "HELO" + "\r\n";
    WordsInAnyCase("HELO");
    LeftEmpty([BadHost]);
  }

  /** A client that greets with its host's name is welcome; one that greets without is not. */
  lemma GreetingNeedsHost(host: string, now: string)
    requires host != "" && Plain(host) && host[0] != ' '
    ensures Process(Start(), "HELO " + host + "\r\n", now) ==
            Start().(state := InSession, history := [Helo], replies := [Greeting])
    ensures Process(Start(), "HELO\r\n", now) == Start().(replies := [BadHost])
  {
    GreetsWith(host, now);
    GreetsWithout(now);
  }

  /** What is none of the command words is answered as unknown, and changes nothing. */
  lemma UnknownIsAnswered(st: Session, line: string, now: string)
    requires !st.isData && !SameText(FirstToken(CommandOf(line)), "HELO")
    requires forall word :: word in {"QUIT", "RCPT TO", "MAIL FROM", "DATA", "NOOP"} ==>
               !SameText(CommandOf(line), word)
    ensures Process(st, line, now) == st.(replies := st.replies + [Unknown])
  {
  }

  // ---- How many replies ----

  /** The line is answered: every command but NOOP, and of the data lines the dot. */
  predicate Answered(st: Session, line: string) {
    if st.isData then SameText(line, ".\r\n") else !SameText(CommandOf(line), "NOOP")
  }

  function AnsweredLines(lines: seq<string>, now: string): nat {
    if lines == [] then 0
    else AnsweredLines(lines[..|lines| - 1], now) +
         if Answered(ProcessAll(Start(), lines[..|lines| - 1], now), lines[|lines| - 1]) then 1 else 0
  }

  lemma RcptReplies(st: Session, line: string, i: nat)
    requires i <= |line|
    ensures |RcptLine(st, line, i).replies| == |st.replies| + 1
  {
  }

  lemma MailReplies(st: Session, line: string, i: nat, now: string)
    requires i <= |line|
    ensures |MailLine(st, line, i, now).replies| == |st.replies| + 1
  {
  }

  lemma HeloReplies(st: Session, words: string)
    ensures |HeloLine(st, words).replies| == |st.replies| + 1
  {
  }

  lemma ObeyReplies(st: Session, verb: Verb, line: string, i: nat, now: string)
    requires i <= |line|
    ensures |Obey(st, verb, line, i, now).replies| == |st.replies| + if verb == Noop then 0 else 1
  {
    match verb {
      case NameRecipient => RcptReplies(st, line, i);
      case NameSender => MailReplies(st, line, i, now);
      case SayHelo => HeloReplies(st, line[..i]);
      case _ =>
    }
  }

  lemma DataReplies(st: Session, line: string)
    ensures DataLine(st, line).replies == st.replies + if SameText(line, ".\r\n") then [Ok] else []
  {
    RightEmpty(st.replies);
  }

  lemma NoopIsNoop(cmd: string)
    ensures VerbOf(cmd) == Noop <==> SameText(cmd, "NOOP")
  {
    WordsInAnyCase(cmd);
  }

  /** On every connection each command gets exactly one reply, but for NOOP, which gets none; and so does each message,
      at its dot. */
  lemma {:induction false} OneReplyEach(lines: seq<string>, now: string)
    ensures |ProcessAll(Start(), lines, now).replies| == AnsweredLines(lines, now)
  {
    if lines != [] {
      var st, line := ProcessAll(Start(), lines[..|lines| - 1], now), lines[|lines| - 1];
      OneReplyEach(lines[..|lines| - 1], now);
      DataReplies(st, line);
      NoopIsNoop(CommandOf(line));
      ObeyReplies(st, VerbOf(CommandOf(line)), line, |CommandOf(line)|, now);
    }
  }
}
