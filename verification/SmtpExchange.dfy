/** A connection on which the end of a longer message follows a shorter one. */
module SmtpExchange {
  import opened Sequences
  import opened Text
  import opened SmtpSession

  const GREET := "HELO h"
  const FROM := "MAIL FROM"
  const TO := "RCPT TO"
  const DATA := "DATA"

  const HELLO := GREET + "\r\n"
  const SENDER := FROM + ":<a@b>\r\n"
  const RECIPIENT := TO + ":<c@localhost>\r\n"
  const BEGIN := DATA + "\r\n"
  const DOT := ".\r\n"

  // ---- The commands ----

  /** Nothing in the text ends a command. */
  predicate Plain(cmd: string) {
    forall j :: 0 <= j < |cmd| ==> cmd[j] !in {':', '\r'}
  }

  lemma CommandsArePlain()
    ensures Plain(FROM) && Plain(TO) && Plain(DATA) && Plain(GREET)
  {
  }

  lemma CommandIs(cmd: string, rest: string)
    requires Plain(cmd) && rest != "" && rest[0] in {':', '\r'}
    ensures CommandOf(cmd + rest) == cmd
  {
    var line := cmd + rest;
    assert line[|cmd|] == rest[0];
    assert forall j :: 0 <= j < |cmd| ==> line[j] == cmd[j];
    assert FirstOf(line, {':', '\r'}) == |cmd|;
  }

  lemma FirstWordStarts(cmd: string)
    requires cmd != "" && cmd[0] != ' '
    ensures FirstToken(cmd) != "" && FirstToken(cmd)[0] == cmd[0]
  {
  }

  lemma NotHello(cmd: string)
    requires cmd != "" && cmd[0] in {'M', 'R', 'D'}
    ensures FirstToken(cmd) != "" && !SameText(FirstToken(cmd), "HELO")
  {
    FirstWordStarts(cmd);
    assert Lower("HELO"[0]) == 'h';
  }

  lemma SenderNames()
    ensures VerbOf(FROM) == NameSender
  {
    NotHello(FROM);
  }

  lemma RecipientNames()
    ensures VerbOf(TO) == NameRecipient
  {
    NotHello(TO);
  }

  lemma BeginNames()
    ensures VerbOf(DATA) == StartData
  {
    NotHello(DATA);
    assert Lower(DATA[0]) != Lower("QUIT"[0]);
  }

  lemma HelloNames()
    ensures VerbOf(GREET) == SayHelo && SecondToken(GREET) != ""
  {
    assert GREET == "HELO" + " " + "h";
    TokenBeforeSpace("HELO", "h");
    assert After(GREET, 4) == " h" && " h"[1..] == "h";
    FirstWordStarts("h");
  }

  // ---- Their effect ----

  /** Between messages. */
  predicate Ready(st: Session) {
    st.state == InSession && !st.isData && st.bytesWritten == 0 && Buffered(st) && HandedOver(st.deliveries)
  }

  lemma Greets(now: string)
    requires NoNul(now)
    ensures Ready(Process(Start(), HELLO, now)) && Process(Start(), HELLO, now).deliveries == []
  {
    CommandsArePlain();
    HelloNames();
    CommandIs(GREET, "\r\n");
  }

  lemma Obeys(st: Session, cmd: string, rest: string, verb: Verb, now: string)
    requires !st.isData && VerbOf(cmd) == verb
    requires Plain(cmd) && rest != "" && rest[0] in {':', '\r'}
    ensures Process(st, cmd + rest, now) == Obey(st, verb, cmd + rest, |cmd|, now)
  {
    CommandIs(cmd, rest);
  }

  lemma ObeysSender(st: Session, line: string, i: nat, now: string)
    requires i <= |line|
    ensures Obey(st, NameSender, line, i, now) == MailLine(st, line, i, now)
  {
  }

  lemma AsksSender(st: Session, now: string)
    requires st.state == InSession && !st.isData
    ensures Process(st, SENDER, now) == MailLine(st, SENDER, 9, now)
  {
    SenderNames();
    CommandsArePlain();
    Obeys(st, FROM, ":<a@b>\r\n", NameSender, now);
    ObeysSender(st, SENDER, 9, now);
  }

  lemma AsksRecipient(st: Session, now: string)
    requires !st.isData
    ensures Process(st, RECIPIENT, now) == RcptLine(st, RECIPIENT, 7)
  {
    RecipientNames();
    CommandsArePlain();
    Obeys(st, TO, ":<c@localhost>\r\n", NameRecipient, now);
  }

  lemma AsksData(st: Session, now: string)
    requires !st.isData
    ensures Process(st, BEGIN, now) == DataCommand(st)
  {
    BeginNames();
    CommandsArePlain();
    Obeys(st, DATA, "\r\n", StartData, now);
  }

  /** What the commands leave alone. */
  predicate Kept(st: Session, st': Session) {
    SameBuffer(st, st') && st'.firstTime == st.firstTime && NoNul(st'.fromMsg)
  }

  lemma SenderKeeps(st: Session, now: string)
    requires NoNul(st.fromMsg) && NoNul(now) && st.state == InSession
    ensures var st' := MailLine(st, SENDER, 9, now); st'.state == From && st'.isData == st.isData && Kept(st, st')
  {
    MailIsBuffered(st, SENDER, 9, now);
  }

  lemma RecipientKeeps(st: Session)
    requires NoNul(st.fromMsg) && st.state == From
    ensures var st' := RcptLine(st, RECIPIENT, 7); st'.state == Recv && st'.isData == st.isData && Kept(st, st')
  {
  }

  /** The commands that lead to a message. */
  function Opened(st: Session, now: string): Session {
    Process(Process(Process(st, SENDER, now), RECIPIENT, now), BEGIN, now)
  }

  lemma Opens(st: Session, now: string)
    requires Ready(st) && NoNul(now)
    ensures var st' := Opened(st, now);
            st'.isData && st'.state == Data && st'.bytesWritten == 0 && Kept(st, st') && Buffered(st')
  {
    var a := Process(st, SENDER, now);
    AsksSender(st, now);
    SenderKeeps(st, now);
    AsksRecipient(a, now);
    RecipientKeeps(a);
    AsksData(Process(a, RECIPIENT, now), now);
  }

  // ---- One message, and the next ----

  /** A line of text, as opposed to the dot or a blank line. */
  predicate IsText(line: string) {
    !IsDot(line) && !Blank(line) && NoNul(line)
  }

  /** A message of one line: its commands, the line, and the dot. */
  function Exchange(st: Session, text: string, now: string): Session {
    Process(Process(Opened(st, now), text, now), DOT, now)
  }

  /** The line in the buffer, with the sender's line in front when it is the connection's first. */
  lemma Holding(open: Session, text: string)
    requires open.isData && open.bytesWritten == 0 && Buffered(open) && IsText(text)
    ensures var full, size := DataLine(open, text), |text| + if open.firstTime then 0 else |open.fromMsg|;
            && full.isData && full.firstTime && full.bytesWritten == size && Buffered(full)
            && full.deliveries == open.deliveries
            && (open.firstTime ==> full.fileMsg[..full.bytesWritten] == text)
  {
    DataLineIsBuffered(open, text);
    DataLineWrites(open, text);
    assert open.fileMsg[..0] + "" + text == text;
  }

  lemma Closing(full: Session)
    requires full.isData && Buffered(full) && HandedOver(full.deliveries)
    ensures var done := DataLine(full, DOT);
            && Ready(done) && done.firstTime == full.firstTime
            && done.deliveries == full.deliveries +
                 [Delivery(full.fromUser, full.rcptUser, CText(full.fileMsg), full.bytesWritten)]
  {
    assert IsDot(DOT);
    DotIsBuffered(full, DOT);
    DotHandsOver(full, DOT);
  }

  lemma Delivers(st: Session, text: string, now: string)
    requires Ready(st) && NoNul(now) && IsText(text)
    ensures var st', size := Exchange(st, text, now), |text| + if st.firstTime then 0 else |Opened(st, now).fromMsg|;
            && Ready(st') && st'.firstTime && |st'.deliveries| == |st.deliveries| + 1
            && st'.deliveries[..|st.deliveries|] == st.deliveries
            && var d := st'.deliveries[|st.deliveries|];
               && d.size == size && size <= |d.text| && (st.firstTime ==> text <= d.text)
               && (|d.text| == size <==> size < CLEARED || MaxSize(st.deliveries) <= size)
  {
    Opens(st, now);
    Holding(Opened(st, now), text);
    CTextIsMessage(DataLine(Opened(st, now), text));
    Closing(DataLine(Opened(st, now), text));
  }

  // ---- The connection ----

  /** The lines of a message. */
  function LinesFor(text: string): seq<string> {
    [SENDER, RECIPIENT, BEGIN, text, DOT]
  }

  lemma ProcessedNext(st: Session, lines: seq<string>, line: string, now: string)
    ensures ProcessAll(st, lines + [line], now) == Process(ProcessAll(st, lines, now), line, now)
  {
    FrontOfNext(lines, line);
  }

  lemma OneByOne(before: seq<string>, text: string)
    ensures before + LinesFor(text) == ((((before + [SENDER]) + [RECIPIENT]) + [BEGIN]) + [text]) + [DOT]
  {
  }

  lemma OpensAfter(st: Session, before: seq<string>, now: string)
    ensures ProcessAll(st, ((before + [SENDER]) + [RECIPIENT]) + [BEGIN], now) ==
            Opened(ProcessAll(st, before, now), now)
  {
    ProcessedNext(st, before, SENDER, now);
    ProcessedNext(st, before + [SENDER], RECIPIENT, now);
    ProcessedNext(st, (before + [SENDER]) + [RECIPIENT], BEGIN, now);
  }

  lemma Exchanges(st: Session, before: seq<string>, text: string, now: string)
    ensures ProcessAll(st, before + LinesFor(text), now) == Exchange(ProcessAll(st, before, now), text, now)
  {
    var open := ((before + [SENDER]) + [RECIPIENT]) + [BEGIN];
    OpensAfter(st, before, now);
    ProcessedNext(st, open, text, now);
    ProcessedNext(st, open + [text], DOT, now);
    OneByOne(before, text);
  }

  lemma SecondIsFollowed(st: Session, short: string, now: string)
    requires Ready(st) && st.firstTime && IsText(short) && NoNul(now) && CLEARED <= |short|
    requires |st.deliveries| == 1 && st.deliveries[0].size > |short|
    ensures var ds := Exchange(st, short, now).deliveries;
            |ds| == 2 && ds[1].size == |short| && short < ds[1].text
  {
    Delivers(st, short, now);
    assert MaxSize(st.deliveries) >= st.deliveries[0].size;
  }

  lemma TwoMessages(st: Session, long: string, short: string, now: string)
    requires Ready(st) && st.deliveries == [] && IsText(long) && IsText(short) && NoNul(now)
    requires CLEARED <= |short| < |long|
    ensures var ds := Exchange(Exchange(st, long, now), short, now).deliveries;
            |ds| == 2 && ds[1].size == |short| && short < ds[1].text
  {
    Delivers(st, long, now);
    SecondIsFollowed(Exchange(st, long, now), short, now);
  }

  lemma Connection(long: string, short: string, now: string)
    ensures ProcessAll(Start(), ([HELLO] + LinesFor(long)) + LinesFor(short), now) ==
            Exchange(Exchange(Process(Start(), HELLO, now), long, now), short, now)
  {
    ProcessedNext(Start(), [], HELLO, now);
    assert [] + [HELLO] == [HELLO];
    Exchanges(Start(), [HELLO], long, now);
    Exchanges(Start(), [HELLO] + LinesFor(long), short, now);
  }

  /** A client delivers a message and then a shorter one, of 50 bytes or more: what the store is handed for the second
      is longer than what was written, since the end of the first follows it. */
  lemma LongerMessageFollows(long: string, short: string, now: string)
    requires IsText(long) && IsText(short) && NoNul(now) && CLEARED <= |short| < |long|
    ensures var ds := ProcessAll(Start(), ([HELLO] + LinesFor(long)) + LinesFor(short), now).deliveries;
            |ds| == 2 && ds[1].size == |short| && short < ds[1].text
  {
    Greets(now);
    Connection(long, short, now);
    TwoMessages(Process(Start(), HELLO, now), long, short, now);
  }
}
