/** Whose message a delivery is: the names that the MAIL FROM and RCPT TO lines of a connection give. */
module SmtpAddress {
  import opened Sequences
  import opened Text
  import opened SmtpSession
  import opened SmtpExchange

  /** A user and a domain that an address line can hold: the user ends at the first '@', the line at the first CR, and
      a C string at the first NUL. */
  predicate Address(user: string, domain: string) {
    '@' !in user && '\r' !in user && '\r' !in domain && NoNul(user) && NoNul(domain)
  }

  function Bracketed(user: string, domain: string): string {
    ":<" + user + "@" + domain + ">\r\n"
  }

  // ---- Reading an address ----

  lemma FirstIs(s: string, seps: set<char>, k: nat)
    requires k < |s| && s[k] in seps && forall j :: 0 <= j < k ==> s[j] !in seps
    ensures FirstOf(s, seps) == k
  {
  }

  lemma AtIsFound(cmd: string, user: string, domain: string)
    requires Address(user, domain)
    ensures AtSign(cmd + Bracketed(user, domain), |cmd|) == |cmd| + 2 + |user|
  {
    var rest := Bracketed(user, domain);
    PartsOf(cmd, rest);
    assert rest[..2] == ":<" && rest[2..2 + |user|] == user;
    forall j | 0 <= j < 2 + |user| ensures rest[j] != '@' {
      if j >= 2 { assert rest[j] == user[j - 2]; }
    }
    assert rest[2 + |user|] == '@';
    FirstIs(rest, {'@'}, 2 + |user|);
  }

  lemma PiecesAre(cmd: string, user: string, domain: string)
    requires Address(user, domain)
    ensures var line, at := cmd + Bracketed(user, domain), |cmd| + 2 + |user|;
            Piece(line, |cmd| + 2, at) == user && DomainOf(line, at) == domain
  {
    var line, at := cmd + Bracketed(user, domain), |cmd| + 2 + |user|;
    assert line[|cmd| + 2..at] == user;
    assert |line| - 3 == at + 1 + |domain|;
    assert line[at + 1..|line| - 3] == domain;
  }

  lemma RcptTakes(st: Session, line: string, i: nat, user: string, domain: string)
    requires i <= |line| && AtSign(line, i) < |line| && (st.state == From || st.state == Recv)
    requires Piece(line, i + 2, AtSign(line, i)) == user && DomainOf(line, AtSign(line, i)) == domain
    ensures RcptLine(st, line, i) ==
            st.(rcptUser := user, state := Recv, history := st.history + [RcptTo],
                replies := st.replies + [if SameText(domain, "localhost") then Ok else BadDomain])
  {
  }

  lemma MailTakes(st: Session, line: string, i: nat, user: string, domain: string, now: string)
    requires i <= |line| && AtSign(line, i) < |line| && st.state == InSession
    requires Piece(line, i + 2, AtSign(line, i)) == user && DomainOf(line, AtSign(line, i)) == domain
    ensures MailLine(st, line, i, now) ==
            st.(fromUser := user, fromMsg := "From " + user + "@" + domain + " " + now + "\r\n", state := From,
                history := st.history + [MailFrom], replies := st.replies + [Ok])
  {
  }

  lemma ObeysRecipient(st: Session, rest: string, now: string)
    requires !st.isData && rest != "" && rest[0] == ':'
    ensures Process(st, "RCPT TO" + rest, now) == RcptLine(st, "RCPT TO" + rest, 7)
  {
    RecipientNames();
    CommandsArePlain();
    Obeys(st, TO, rest, NameRecipient, now);
  }

  lemma ObeysMail(st: Session, rest: string, now: string)
    requires !st.isData && rest != "" && rest[0] == ':'
    ensures Process(st, "MAIL FROM" + rest, now) == MailLine(st, "MAIL FROM" + rest, 9, now)
  {
    SenderNames();
    CommandsArePlain();
    Obeys(st, FROM, rest, NameSender, now);
    ObeysSender(st, FROM + rest, 9, now);
  }

  /** A recipient's line in its turn names the user, and is answered according to the domain; nothing else of the
      connection changes but its place in the order of commands. */
  lemma RecipientIsNamed(st: Session, user: string, domain: string, now: string)
    requires !st.isData && (st.state == From || st.state == Recv) && Address(user, domain)
    ensures var st' := Process(st, "RCPT TO" + Bracketed(user, domain), now);
            st' == st.(rcptUser := user, state := Recv, history := st.history + [RcptTo],
                       replies := st.replies + [if SameText(domain, "localhost") then Ok else BadDomain])
  {
    ObeysRecipient(st, Bracketed(user, domain), now);
    AtIsFound("RCPT TO", user, domain);
    PiecesAre("RCPT TO", user, domain);
    RcptTakes(st, "RCPT TO" + Bracketed(user, domain), 7, user, domain);
  }

  /** A sender's line in its turn names the user and gives the line to put in front of the message. */
  lemma SenderIsNamed(st: Session, user: string, domain: string, now: string)
    requires !st.isData && st.state == InSession && Address(user, domain)
    ensures var st' := Process(st, "MAIL FROM" + Bracketed(user, domain), now);
            st' == st.(fromUser := user, fromMsg := "From " + user + "@" + domain + " " + now + "\r\n", state := From,
                       history := st.history + [MailFrom], replies := st.replies + [Ok])
  {
    ObeysMail(st, Bracketed(user, domain), now);
    AtIsFound("MAIL FROM", user, domain);
    PiecesAre("MAIL FROM", user, domain);
    MailTakes(st, "MAIL FROM" + Bracketed(user, domain), 9, user, domain, now);
  }

  /** An address line without an '@', in its turn, is refused; it counts as a step, and names nobody. */
  lemma NoAddressIsRefused(st: Session, rest: string, now: string)
    requires !st.isData && rest != "" && rest[0] == ':' && '@' !in rest
    ensures st.state == From || st.state == Recv ==>
              Process(st, "RCPT TO" + rest, now) ==
              st.(state := Recv, history := st.history + [RcptTo], replies := st.replies + [BadDomain])
    ensures st.state == InSession ==>
              Process(st, "MAIL FROM" + rest, now) ==
              st.(state := From, history := st.history + [MailFrom], replies := st.replies + [BadDomain])
  {
    ObeysRecipient(st, rest, now);
    ObeysMail(st, rest, now);
    NoAt("RCPT TO", rest);
    NoAt("MAIL FROM", rest);
  }

  lemma NoAt(cmd: string, rest: string)
    requires '@' !in rest
    ensures AtSign(cmd + rest, |cmd|) == |cmd + rest|
  {
    PartsOf(cmd, rest);
  }

  // ---- The last line that names somebody ----

  /** The line is a recipient's, comes in its turn, and holds an address. */
  predicate NamesRecipient(st: Session, line: string) {
    !st.isData && VerbOf(CommandOf(line)) == NameRecipient && (st.state == From || st.state == Recv) && HasAddress(line)
  }

  predicate NamesSender(st: Session, line: string) {
    !st.isData && VerbOf(CommandOf(line)) == NameSender && st.state == InSession && HasAddress(line)
  }

  predicate HasAddress(line: string) {
    AtSign(line, |CommandOf(line)|) < |line|
  }

  /** The text between the bracket and the '@'. */
  function NamedIn(line: string): string {
    Piece(line, |CommandOf(line)| + 2, AtSign(line, |CommandOf(line)|))
  }

  lemma RcptNames(st: Session, line: string, i: nat)
    requires i <= |line|
    ensures var st', found := RcptLine(st, line, i), AtSign(line, i) < |line|;
            && st'.rcptUser == (if (st.state == From || st.state == Recv) && found
                                then Piece(line, i + 2, AtSign(line, i)) else st.rcptUser)
            && st'.fromUser == st.fromUser && st'.fromMsg == st.fromMsg
  {
  }

  lemma MailNames(st: Session, line: string, i: nat, now: string)
    requires i <= |line|
    ensures var st', found := MailLine(st, line, i, now), AtSign(line, i) < |line|;
            && st'.fromUser == (if st.state == InSession && found
                                then Piece(line, i + 2, AtSign(line, i)) else st.fromUser)
            && st'.rcptUser == st.rcptUser && (st.state != InSession || !found ==> st'.fromMsg == st.fromMsg)
  {
  }

  lemma ObeyNames(st: Session, verb: Verb, line: string, i: nat, now: string)
    requires i <= |line|
    ensures var st', found := Obey(st, verb, line, i, now), AtSign(line, i) < |line|;
            && st'.rcptUser == (if verb == NameRecipient && (st.state == From || st.state == Recv) && found
                                then Piece(line, i + 2, AtSign(line, i)) else st.rcptUser)
            && st'.fromUser == (if verb == NameSender && st.state == InSession && found
                                then Piece(line, i + 2, AtSign(line, i)) else st.fromUser)
            && (verb != NameSender || st.state != InSession || !found ==> st'.fromMsg == st.fromMsg)
  {
    match verb {
      case NameRecipient => RcptNames(st, line, i);
      case NameSender => MailNames(st, line, i, now);
      case _ =>
    }
  }

  lemma DataNames(st: Session, line: string)
    ensures var st' := DataLine(st, line);
            st'.rcptUser == st.rcptUser && st'.fromUser == st.fromUser && st'.fromMsg == st.fromMsg
  {
  }

  lemma NamesAfter(st: Session, line: string, now: string)
    ensures var st' := Process(st, line, now);
            && st'.rcptUser == (if NamesRecipient(st, line) then NamedIn(line) else st.rcptUser)
            && st'.fromUser == (if NamesSender(st, line) then NamedIn(line) else st.fromUser)
            && (!NamesSender(st, line) ==> st'.fromMsg == st.fromMsg)
  {
    DataNames(st, line);
    ObeyNames(st, VerbOf(CommandOf(line)), line, |CommandOf(line)|, now);
  }

  /** The session after the lines of a connection. */
  function At(lines: seq<string>, now: string): Session {
    ProcessAll(Start(), lines, now)
  }

  /** None of the lines names a recipient, from the given session on. */
  predicate NoRecipient(st: Session, lines: seq<string>, now: string) {
    lines == [] ||
    (NoRecipient(st, lines[..|lines| - 1], now) &&
     !NamesRecipient(ProcessAll(st, lines[..|lines| - 1], now), lines[|lines| - 1]))
  }

  predicate NoSender(st: Session, lines: seq<string>, now: string) {
    lines == [] ||
    (NoSender(st, lines[..|lines| - 1], now) &&
     !NamesSender(ProcessAll(st, lines[..|lines| - 1], now), lines[|lines| - 1]))
  }

  lemma NoRecipientNext(st: Session, lines: seq<string>, line: string, now: string)
    requires NoRecipient(st, lines, now) && !NamesRecipient(ProcessAll(st, lines, now), line)
    ensures NoRecipient(st, lines + [line], now)
  {
    FrontOfNext(lines, line);
  }

  lemma NoSenderNext(st: Session, lines: seq<string>, line: string, now: string)
    requires NoSender(st, lines, now) && !NamesSender(ProcessAll(st, lines, now), line)
    ensures NoSender(st, lines + [line], now)
  {
    FrontOfNext(lines, line);
  }

  lemma {:induction false} RecipientStays(st: Session, lines: seq<string>, now: string)
    requires NoRecipient(st, lines, now)
    ensures ProcessAll(st, lines, now).rcptUser == st.rcptUser
  {
    if lines != [] {
      RecipientStays(st, lines[..|lines| - 1], now);
      NamesAfter(ProcessAll(st, lines[..|lines| - 1], now), lines[|lines| - 1], now);
    }
  }

  lemma {:induction false} SenderStays(st: Session, lines: seq<string>, now: string)
    requires NoSender(st, lines, now)
    ensures ProcessAll(st, lines, now).fromUser == st.fromUser && ProcessAll(st, lines, now).fromMsg == st.fromMsg
  {
    if lines != [] {
      SenderStays(st, lines[..|lines| - 1], now);
      NamesAfter(ProcessAll(st, lines[..|lines| - 1], now), lines[|lines| - 1], now);
    }
  }

  lemma {:induction false} ProcessedOn(st: Session, a: seq<string>, b: seq<string>, now: string)
    ensures ProcessAll(st, a + b, now) == ProcessAll(ProcessAll(st, a, now), b, now)
  {
    if b == [] {
      RightEmpty(a);
    } else {
      ProcessedOn(st, a, b[..|b| - 1], now);
      Front(a, b);
    }
  }

  /** The recipient after all the lines is the one that the last of the given first ones names, or none. */
  predicate NamedLast(before: seq<string>, all: seq<string>, now: string) {
    if before == [] then At(all, now).rcptUser == ""
    else
      && NamesRecipient(At(before[..|before| - 1], now), before[|before| - 1])
      && At(all, now).rcptUser == NamedIn(before[|before| - 1])
  }

  predicate SentLast(before: seq<string>, all: seq<string>, now: string) {
    if before == [] then At(all, now).fromUser == ""
    else
      && NamesSender(At(before[..|before| - 1], now), before[|before| - 1])
      && At(all, now).fromUser == NamedIn(before[|before| - 1])
  }

  lemma StillNamedLast(before: seq<string>, after: seq<string>, all: seq<string>, line: string, now: string)
    requires before + after == all && NoRecipient(At(before, now), after, now) && NamedLast(before, all, now)
    requires !NamesRecipient(At(all, now), line)
    ensures before + (after + [line]) == all + [line] && NoRecipient(At(before, now), after + [line], now)
    ensures NamedLast(before, all + [line], now)
  {
    ProcessedOn(Start(), before, after, now);
    NoRecipientNext(At(before, now), after, line, now);
    Reassociate(before, after, [line]);
    AtNext(all, line, now);
    NamesAfter(At(all, now), line, now);
  }

  lemma StillSentLast(before: seq<string>, after: seq<string>, all: seq<string>, line: string, now: string)
    requires before + after == all && NoSender(At(before, now), after, now) && SentLast(before, all, now)
    requires !NamesSender(At(all, now), line)
    ensures before + (after + [line]) == all + [line] && NoSender(At(before, now), after + [line], now)
    ensures SentLast(before, all + [line], now)
  {
    ProcessedOn(Start(), before, after, now);
    NoSenderNext(At(before, now), after, line, now);
    Reassociate(before, after, [line]);
    AtNext(all, line, now);
    NamesAfter(At(all, now), line, now);
  }

  lemma NamesNow(lines: seq<string>, now: string)
    requires lines != []
    ensures var front, line := lines[..|lines| - 1], lines[|lines| - 1];
            && (NamesRecipient(At(front, now), line) ==> NamedLast(lines, lines, now))
            && (NamesSender(At(front, now), line) ==> SentLast(lines, lines, now))
  {
    NamesAfter(At(lines[..|lines| - 1], now), lines[|lines| - 1], now);
  }

  /** Over every connection, the recipient is the one that the last line to name any names. */
  lemma {:induction false} RecipientIsLastNamed(lines: seq<string>, now: string)
    returns (before: seq<string>, after: seq<string>)
    ensures before + after == lines && NoRecipient(At(before, now), after, now) && NamedLast(before, lines, now)
  {
    before, after := [], [];
    if lines != [] {
      var front, line := lines[..|lines| - 1], lines[|lines| - 1];
      FrontAndLast(lines);
      if NamesRecipient(At(front, now), line) {
        NamesNow(lines, now);
        RightEmpty(lines);
        before := lines;
      } else {
        before, after := RecipientIsLastNamed(front, now);
        StillNamedLast(before, after, front, line, now);
        after := after + [line];
      }
    }
  }

  /** So is the sender. */
  lemma {:induction false} SenderIsLastNamed(lines: seq<string>, now: string)
    returns (before: seq<string>, after: seq<string>)
    ensures before + after == lines && NoSender(At(before, now), after, now) && SentLast(before, lines, now)
  {
    before, after := [], [];
    if lines != [] {
      var front, line := lines[..|lines| - 1], lines[|lines| - 1];
      FrontAndLast(lines);
      if NamesSender(At(front, now), line) {
        NamesNow(lines, now);
        RightEmpty(lines);
        before := lines;
      } else {
        before, after := SenderIsLastNamed(front, now);
        StillSentLast(before, after, front, line, now);
        after := after + [line];
      }
    }
  }

  // ---- A delivery and the lines that lead to it ----

  /** The lines of a connection up to a delivery: those before the sender's line, those between it and the recipient's,
      those from there to DATA, the lines of the message, and the dot. */
  datatype Letter = Letter(
    before: seq<string>, sender: string, senderDomain: string,
    between: seq<string>, recipient: string, recipientDomain: string,
    after: seq<string>, begin: string, text: seq<string>, dot: string)

  function ToSender(m: Letter): seq<string> {
    m.before + ["MAIL FROM" + Bracketed(m.sender, m.senderDomain)]
  }

  function ToRecipient(m: Letter): seq<string> {
    ToSender(m) + m.between + ["RCPT TO" + Bracketed(m.recipient, m.recipientDomain)]
  }

  function ToData(m: Letter): seq<string> {
    ToRecipient(m) + m.after + [m.begin]
  }

  function Whole(m: Letter): seq<string> {
    ToData(m) + m.text + [m.dot]
  }

  predicate NoDots(lines: seq<string>) {
    forall k :: 0 <= k < |lines| ==> !IsDot(lines[k])
  }

  predicate NoNuls(lines: seq<string>) {
    forall k :: 0 <= k < |lines| ==> NoNul(lines[k])
  }

  /** Both lines come in their turn, no later line before DATA names a sender or a recipient, and DATA is accepted. */
  predicate LastNamed(m: Letter, now: string) {
    && Address(m.sender, m.senderDomain) && Address(m.recipient, m.recipientDomain)
    && !At(m.before, now).isData && At(m.before, now).state == InSession
    && NoSender(At(ToSender(m), now), m.between, now)
    && !At(ToSender(m) + m.between, now).isData && At(ToSender(m) + m.between, now).state in {From, Recv}
    && NoSender(At(ToRecipient(m), now), m.after, now) && NoRecipient(At(ToRecipient(m), now), m.after, now)
    && !At(ToRecipient(m) + m.after, now).isData && At(ToData(m), now).isData
    && NoDots(m.text) && IsDot(m.dot)
  }

  lemma AtNext(lines: seq<string>, line: string, now: string)
    ensures At(lines + [line], now) == Process(At(lines, now), line, now)
  {
    FrontOfNext(lines, line);
  }

  lemma SenderAtRecipient(m: Letter, now: string)
    requires LastNamed(m, now)
    ensures var st := At(ToSender(m) + m.between, now);
            st.fromUser == m.sender && st.fromMsg == "From " + m.sender + "@" + m.senderDomain + " " + now + "\r\n"
  {
    AtNext(m.before, "MAIL FROM" + Bracketed(m.sender, m.senderDomain), now);
    SenderIsNamed(At(m.before, now), m.sender, m.senderDomain, now);
    ProcessedOn(Start(), ToSender(m), m.between, now);
    SenderStays(At(ToSender(m), now), m.between, now);
  }

  lemma NamesBeforeData(m: Letter, now: string)
    requires LastNamed(m, now)
    ensures var st := At(ToRecipient(m) + m.after, now);
            && st.rcptUser == m.recipient && st.fromUser == m.sender
            && st.fromMsg == "From " + m.sender + "@" + m.senderDomain + " " + now + "\r\n"
  {
    SenderAtRecipient(m, now);
    AtNext(ToSender(m) + m.between, "RCPT TO" + Bracketed(m.recipient, m.recipientDomain), now);
    RecipientIsNamed(At(ToSender(m) + m.between, now), m.recipient, m.recipientDomain, now);
    ProcessedOn(Start(), ToRecipient(m), m.after, now);
    SenderStays(At(ToRecipient(m), now), m.after, now);
    RecipientStays(At(ToRecipient(m), now), m.after, now);
  }

  lemma DataBegins(st: Session, line: string, now: string)
    requires !st.isData && Process(st, line, now).isData && st.bytesWritten == 0
    ensures var st' := Process(st, line, now);
            && st'.bytesWritten == 0 && st'.fromUser == st.fromUser && st'.rcptUser == st.rcptUser
            && st'.fromMsg == st.fromMsg && st'.firstTime == st.firstTime && st'.deliveries == st.deliveries
  {
    ObeyBegins(st, VerbOf(CommandOf(line)), line, |CommandOf(line)|, now);
  }

  lemma ObeyBegins(st: Session, verb: Verb, line: string, i: nat, now: string)
    requires i <= |line| && !st.isData && Obey(st, verb, line, i, now).isData
    ensures Obey(st, verb, line, i, now) == DataCommand(st) && verb == StartData
  {
  }

  lemma NamesAtData(m: Letter, now: string)
    requires LastNamed(m, now)
    ensures var st := At(ToData(m), now);
            && st.isData && st.bytesWritten == 0 && st.rcptUser == m.recipient && st.fromUser == m.sender
            && st.fromMsg == "From " + m.sender + "@" + m.senderDomain + " " + now + "\r\n"
  {
    NamesBeforeData(m, now);
    EmptyOutsideData(ToRecipient(m) + m.after, now);
    AtNext(ToRecipient(m) + m.after, m.begin, now);
    DataBegins(At(ToRecipient(m) + m.after, now), m.begin, now);
  }

  lemma WholeIs(m: Letter, now: string)
    ensures At(Whole(m), now) == Process(ProcessAll(At(ToData(m), now), m.text, now), m.dot, now)
  {
    ProcessedOn(Start(), ToData(m), m.text, now);
    AtNext(ToData(m) + m.text, m.dot, now);
  }

  /** The letter is delivered as one more of the connection's. */
  predicate Delivers(before: seq<Delivery>, ds: seq<Delivery>, sender: string, recipient: string, text: string) {
    && |ds| == |before| + 1
    && var d := ds[|before|];
       && d.sender == sender && d.recipient == recipient && d.size == |text| && text <= d.text
       && (d.text == text <==> |text| < CLEARED || MaxSize(before) <= |text|)
  }

  lemma DotDelivers(st: Session, lines: seq<string>, dot: string, now: string)
    requires st.isData && st.bytesWritten == 0 && Buffered(st) && IsDot(dot) && NoDots(lines) && NoNuls(lines)
    ensures Delivers(st.deliveries, Process(ProcessAll(st, lines, now), dot, now).deliveries, st.fromUser, st.rcptUser,
                     MessageText(st.fromMsg, st.firstTime, lines))
  {
    DeliveredMessage(st, lines, dot, now);
  }

  lemma NoNulsInParts(a: seq<string>, b: seq<string>, c: string)
    requires NoNuls(a + b + [c])
    ensures NoNuls(a) && NoNuls(b)
  {
    forall k | 0 <= k < |a| ensures NoNul(a[k]) { assert (a + b + [c])[k] == a[k]; }
    forall k | 0 <= k < |b| ensures NoNul(b[k]) { assert (a + b + [c])[|a| + k] == b[k]; }
  }

  lemma BufferedThroughout(lines: seq<string>, now: string)
    requires NoNul(now) && NoNuls(lines)
    ensures Buffered(At(lines, now))
  {
    MessagesAreHandedOver(lines, now);
  }

  /** On every connection, the dot hands over the lines since DATA for the user written in the last RCPT TO line that
      names one, from the user written in the last such MAIL FROM line, with that user's line in front of the
      connection's first text. */
  lemma DeliveryIsAddressed(m: Letter, now: string)
    requires LastNamed(m, now) && NoNul(now) && NoNuls(Whole(m))
    ensures var st := At(ToData(m), now);
            var sender := "From " + m.sender + "@" + m.senderDomain + " " + now + "\r\n";
            Delivers(st.deliveries, At(Whole(m), now).deliveries, m.sender, m.recipient,
                     MessageText(sender, st.firstTime, m.text))
  {
    NamesAtData(m, now);
    NoNulsInParts(ToData(m), m.text, m.dot);
    BufferedThroughout(ToData(m), now);
    DotDelivers(At(ToData(m), now), m.text, m.dot, now);
    WholeIs(m, now);
  }
}
