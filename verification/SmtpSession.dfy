/** What the mail server does with one line of an SMTP connection. */
module SmtpSession {
  import opened Sequences
  import opened Text

  /** sizeof(recv_msg): how much of the message buffer is cleared after a delivery. */
  const CLEARED := 50
  const NUL: char := '\0'

  datatype State = Invalid | InSession | From | Recv | Data

  /** The accepted steps of a connection, in order. */
  datatype Mark = Helo | MailFrom | RcptTo | DataStart | Delivered

  /** A message handed to the store: `text` is the C string in the buffer, `size` the bytes written to it. */
  datatype Delivery = Delivery(sender: string, recipient: string, text: string, size: nat)

  /** The replies, by code: 250, 250, 221, 354, 550, 550, 550 and 500. */
  datatype Answer = Greeting | Ok | Goodbye | GoAhead | OutOfOrder | BadHost | BadDomain | Unknown

  datatype Session = Session(
    state: State,
    isData: bool,
    isQuit: bool,
    fromUser: string,
    fromMsg: string,
    rcptUser: string,
    fileMsg: string,
    bytesWritten: nat,
    firstTime: bool,
    replies: seq<Answer>,
    deliveries: seq<Delivery>,
    history: seq<Mark>)

  function Start(): Session {
    Session(Invalid, false, false, "", "", "", "", 0, false, [], [], [])
  }

  // ---- C strings ----

  function FirstOf(s: string, seps: set<char>): (i: nat)
    ensures i <= |s|
    ensures forall j :: 0 <= j < i ==> s[j] !in seps
    ensures i < |s| ==> s[i] in seps
  {
    if s == "" || s[0] in seps then 0 else 1 + FirstOf(s[1..], seps)
  }

  /** The piece between two positions; empty where the program's length would be negative. */
  function Piece(s: string, from: nat, upTo: int): string {
    if from <= upTo <= |s| then s[from..upTo] else ""
  }

  function CText(buffer: string): string {
    buffer[..FirstOf(buffer, {NUL})]
  }

  function Zeros(n: nat): string {
    seq(n, _ => NUL)
  }

  function Written(buffer: string, at: nat, text: string): string {
    (if at <= |buffer| then buffer[..at] else buffer + Zeros(at - |buffer|)) + text + After(buffer, at + |text|)
  }

  function Cleared(buffer: string): string {
    if |buffer| <= CLEARED then Zeros(|buffer|) else Zeros(CLEARED) + buffer[CLEARED..]
  }

  function SecondToken(s: string): string {
    var rest := SkipSpaces(s);
    FirstToken(After(rest, |UntilSpace(rest)|))
  }

  // ---- One line ----

  function Reply(st: Session, answer: Answer): Session {
    st.(replies := st.replies + [answer])
  }

  function Append(st: Session, text: string): Session {
    st.(fileMsg := Written(st.fileMsg, st.bytesWritten, text), bytesWritten := st.bytesWritten + |text|)
  }

  predicate IsDot(line: string) {
    SameText(line, ".\r\n")
  }

  /** The lone dot hands the message over; the sender's line goes in front of the connection's first text. */
  function DataLine(st: Session, line: string): Session {
    if IsDot(line) then
      Reply(st, Ok).(
      isData := false,
      state := InSession,
      deliveries := st.deliveries + [Delivery(st.fromUser, st.rcptUser, CText(st.fileMsg), st.bytesWritten)],
      fileMsg := Cleared(st.fileMsg),
      bytesWritten := 0,
      history := st.history + [Delivered])
    else if SameText(line, "\r\n") then Append(st, line)
    else if !st.firstTime then Append(Append(st, st.fromMsg).(firstTime := true), line)
    else Append(st, line)
  }

  function HeloLine(st: Session, words: string): Session {
    if st.state != Invalid then Reply(st, OutOfOrder)
    else if SecondToken(words) == "" then Reply(st, BadHost)
    else Reply(st, Greeting).(state := InSession, history := st.history + [Helo])
  }

  /** The position of the '@' in an address line, its length when there is none. */
  function AtSign(line: string, i: nat): (at: nat)
    requires i <= |line|
    ensures i <= at <= |line|
  {
    i + FirstOf(line[i..], {'@'})
  }

  function DomainOf(line: string, at: nat): string {
    Piece(line, at + 1, |line| - 3)
  }

  /** The recipient's user name is taken over before the domain is looked at. */
  function TakeRecipient(st: Session, line: string, i: nat): Session
    requires i <= |line|
  {
    var at := AtSign(line, i);
    if at == |line| then Reply(st, BadDomain)
    else
      var named := st.(rcptUser := Piece(line, i + 2, at));
      Reply(named, if SameText(DomainOf(line, at), "localhost") then Ok else BadDomain)
  }

  function RcptLine(st: Session, line: string, i: nat): Session
    requires i <= |line|
  {
    if st.state != From && st.state != Recv then Reply(st, OutOfOrder)
    else TakeRecipient(st.(state := Recv, history := st.history + [RcptTo]), line, i)
  }

  function SenderLine(user: string, domain: string, now: string): string {
    "From " + user + "@" + domain + " " + now + "\r\n"
  }

  function TakeSender(st: Session, line: string, i: nat, now: string): Session
    requires i <= |line|
  {
    var at := AtSign(line, i);
    if at == |line| then Reply(st, BadDomain)
    else
      var user := Piece(line, i + 2, at);
      Reply(st, Ok).(fromUser := user, fromMsg := SenderLine(user, DomainOf(line, at), now))
  }

  function MailLine(st: Session, line: string, i: nat, now: string): Session
    requires i <= |line|
  {
    if st.state != InSession then Reply(st, OutOfOrder)
    else TakeSender(st.(state := From, history := st.history + [MailFrom]), line, i, now)
  }

  /** What a command line asks for: its text up to a colon or the line end, or its first word for HELO. */
  datatype Verb = Nothing | SayHelo | Quit | NameRecipient | NameSender | StartData | Noop | Other

  function CommandOf(line: string): string {
    line[..FirstOf(line, {':', '\r'})]
  }

  function VerbOf(cmd: string): Verb {
    var word := FirstToken(cmd);
    if word == "" then Nothing
    else if SameText(word, "HELO") then SayHelo
    else if SameText(cmd, "QUIT") then Quit
    else if SameText(cmd, "RCPT TO") then NameRecipient
    else if SameText(cmd, "MAIL FROM") then NameSender
    else if SameText(cmd, "DATA") then StartData
    else if SameText(cmd, "NOOP") then Noop
    else Other
  }

  function DataCommand(st: Session): Session {
    if st.state != Recv then Reply(st, OutOfOrder)
    else Reply(st, GoAhead).(state := Data, isData := true, history := st.history + [DataStart])
  }

  function Obey(st: Session, verb: Verb, line: string, i: nat, now: string): Session
    requires i <= |line|
  {
    match verb
    case Nothing => Reply(st, Unknown)
    case SayHelo => HeloLine(st, line[..i])
    case Quit => Reply(st, Goodbye).(isQuit := true)
    case NameRecipient => RcptLine(st, line, i)
    case NameSender => MailLine(st, line, i, now)
    case StartData => DataCommand(st)
    case Noop => st
    case Other => Reply(st, Unknown)
  }

  function CommandLine(st: Session, line: string, now: string): Session {
    Obey(st, VerbOf(CommandOf(line)), line, |CommandOf(line)|, now)
  }

  function Process(st: Session, line: string, now: string): Session {
    if st.isData then DataLine(st, line) else CommandLine(st, line, now)
  }

  function ProcessAll(st: Session, lines: seq<string>, now: string): Session {
    if lines == [] then st else Process(ProcessAll(st, lines[..|lines| - 1], now), lines[|lines| - 1], now)
  }

  // ---- Order of commands ----

  /** Which step may come next. */
  predicate Follows(before: seq<Mark>, mark: Mark) {
    match mark
    case Helo => before == []
    case MailFrom => before != [] && (before[|before| - 1] == Helo || before[|before| - 1] == Delivered)
    case RcptTo => before != [] && (before[|before| - 1] == MailFrom || before[|before| - 1] == RcptTo)
    case DataStart => before != [] && before[|before| - 1] == RcptTo
    case Delivered => before != [] && before[|before| - 1] == DataStart
  }

  predicate InSequence(history: seq<Mark>) {
    forall k :: 0 <= k < |history| ==> Follows(history[..k], history[k])
  }

  /** The state is where the last accepted step leads, and `isData` holds in the data state alone. */
  predicate Consistent(st: Session) {
    && InSequence(st.history)
    && (st.isData <==> st.state == Data)
    && match st.state
       case Invalid => st.history == []
       case InSession => st.history != [] && st.history[|st.history| - 1] in {Helo, Delivered}
       case From => st.history != [] && st.history[|st.history| - 1] == MailFrom
       case Recv => st.history != [] && st.history[|st.history| - 1] == RcptTo
       case Data => st.history != [] && st.history[|st.history| - 1] == DataStart
  }

  lemma OneMoreStep(history: seq<Mark>, mark: Mark)
    requires InSequence(history) && Follows(history, mark)
    ensures InSequence(history + [mark])
  {
    var longer := history + [mark];
    forall k | 0 <= k < |longer| ensures Follows(longer[..k], longer[k]) {
      assert longer[..k] == history[..k];
      assert history[..|history|] == history;
    }
  }

  /** The part of a session the order of commands is about. */
  predicate SameStanding(st: Session, st': Session) {
    st'.state == st.state && st'.isData == st.isData && st'.history == st.history
  }

  lemma StandingIsConsistent(st: Session, st': Session)
    requires Consistent(st) && SameStanding(st, st')
    ensures Consistent(st')
  {
  }

  lemma StepIsConsistent(st: Session, mark: Mark, st': Session)
    requires Consistent(st) && Follows(st.history, mark) && st'.history == st.history + [mark]
    requires st'.isData == (mark == DataStart)
    requires st'.state == match mark
                          case Helo => InSession
                          case MailFrom => From
                          case RcptTo => Recv
                          case DataStart => Data
                          case Delivered => InSession
    ensures Consistent(st')
  {
    OneMoreStep(st.history, mark);
  }

  lemma DataIsConsistent(st: Session, line: string)
    requires Consistent(st) && st.isData
    ensures Consistent(DataLine(st, line))
  {
    if IsDot(line) {
      StepIsConsistent(st, Delivered, DataLine(st, line));
    } else {
      StandingIsConsistent(st, DataLine(st, line));
    }
  }

  lemma RcptIsConsistent(st: Session, line: string, i: nat)
    requires Consistent(st) && !st.isData && i <= |line|
    ensures Consistent(RcptLine(st, line, i))
  {
    if st.state == From || st.state == Recv {
      StepIsConsistent(st, RcptTo, RcptLine(st, line, i));
    } else {
      StandingIsConsistent(st, RcptLine(st, line, i));
    }
  }

  lemma MailIsConsistent(st: Session, line: string, i: nat, now: string)
    requires Consistent(st) && !st.isData && i <= |line|
    ensures Consistent(MailLine(st, line, i, now))
  {
    if st.state == InSession {
      StepIsConsistent(st, MailFrom, MailLine(st, line, i, now));
    } else {
      StandingIsConsistent(st, MailLine(st, line, i, now));
    }
  }

  lemma HeloIsConsistent(st: Session, words: string)
    requires Consistent(st) && !st.isData
    ensures Consistent(HeloLine(st, words))
  {
    if SameStanding(st, HeloLine(st, words)) {
      StandingIsConsistent(st, HeloLine(st, words));
    } else {
      StepIsConsistent(st, Helo, HeloLine(st, words));
    }
  }

  lemma DataCommandIsConsistent(st: Session)
    requires Consistent(st) && !st.isData
    ensures Consistent(DataCommand(st))
  {
    if st.state == Recv {
      StepIsConsistent(st, DataStart, DataCommand(st));
    } else {
      StandingIsConsistent(st, DataCommand(st));
    }
  }

  lemma ObeyIsConsistent(st: Session, verb: Verb, line: string, i: nat, now: string)
    requires Consistent(st) && !st.isData && i <= |line|
    ensures Consistent(Obey(st, verb, line, i, now))
  {
    match verb {
      case SayHelo => HeloIsConsistent(st, line[..i]);
      case NameRecipient => RcptIsConsistent(st, line, i);
      case NameSender => MailIsConsistent(st, line, i, now);
      case StartData => DataCommandIsConsistent(st);
      case _ => StandingIsConsistent(st, Obey(st, verb, line, i, now));
    }
  }

  lemma ProcessIsConsistent(st: Session, line: string, now: string)
    requires Consistent(st)
    ensures Consistent(Process(st, line, now))
  {
    if st.isData {
      DataIsConsistent(st, line);
    } else {
      ObeyIsConsistent(st, VerbOf(CommandOf(line)), line, |CommandOf(line)|, now);
    }
  }

  /** Over every connection, `isData` holds exactly in the data state, and the steps come in order. */
  lemma {:induction false} ConnectionIsConsistent(lines: seq<string>, now: string)
    ensures Consistent(ProcessAll(Start(), lines, now))
  {
    if lines != [] {
      ConnectionIsConsistent(lines[..|lines| - 1], now);
      ProcessIsConsistent(ProcessAll(Start(), lines[..|lines| - 1], now), lines[|lines| - 1], now);
    }
  }

  /** Recipients lead back to the MAIL FROM before them. */
  lemma {:induction false} RecipientsFollowMail(history: seq<Mark>, d: nat) returns (m: nat)
    requires InSequence(history) && d < |history| && history[d] == RcptTo
    ensures 1 <= m < d && history[m] == MailFrom && history[m - 1] in {Helo, Delivered}
    ensures forall k :: m < k <= d ==> history[k] == RcptTo
    decreases d
  {
    assert Follows(history[..d], history[d]);
    if history[d - 1] == MailFrom {
      m := d - 1;
      assert Follows(history[..m], history[m]);
    } else {
      m := RecipientsFollowMail(history, d - 1);
    }
  }

  lemma StepsBefore(h: seq<Mark>, d: nat) returns (m: nat)
    requires InSequence(h) && d < |h| && h[d] == Delivered
    ensures 1 <= m && m + 2 < d && h[m] == MailFrom && h[d - 1] == DataStart
    ensures forall k :: m < k < d - 1 ==> h[k] == RcptTo
    ensures if m == 1 then h[0] == Helo else h[m - 1] == Delivered
  {
    assert Follows(h[..d], h[d]);
    assert Follows(h[..d - 1], h[d - 1]);
    m := RecipientsFollowMail(h, d - 2);
    assert Follows(h[..m - 1], h[m - 1]);
    if m == 1 { assert h[0] != Delivered; }
  }

  /** Over every connection, each delivery follows a MAIL FROM, at least one RCPT TO and a DATA, with nothing else
      accepted in between, directly after the greeting or the previous delivery. */
  lemma DeliveryFollowsOrder(lines: seq<string>, now: string, d: nat) returns (m: nat)
    requires d < |ProcessAll(Start(), lines, now).history|
    requires ProcessAll(Start(), lines, now).history[d] == Delivered
    ensures var h := ProcessAll(Start(), lines, now).history;
            && 1 <= m && m + 2 < d && h[m] == MailFrom && h[d - 1] == DataStart
            && (forall k :: m < k < d - 1 ==> h[k] == RcptTo)
            && (if m == 1 then h[0] == Helo else h[m - 1] == Delivered)
  {
    ConnectionIsConsistent(lines, now);
    m := StepsBefore(ProcessAll(Start(), lines, now).history, d);
  }

  // ---- The text of a message ----

  predicate Blank(line: string) {
    SameText(line, "\r\n")
  }

  /** How many blank lines a message starts with. */
  function LeadingBlanks(lines: seq<string>): (k: nat)
    ensures k <= |lines|
  {
    if lines == [] then 0
    else if LeadingBlanks(lines[..|lines| - 1]) == |lines| - 1 && Blank(lines[|lines| - 1]) then |lines|
    else LeadingBlanks(lines[..|lines| - 1])
  }

  /** The data lines, with the sender's line in front of the first that is not blank, unless an earlier message of
      the connection had one. */
  function MessageText(fromMsg: string, firstTime: bool, lines: seq<string>): string {
    var k := LeadingBlanks(lines);
    Concat(lines[..k]) + (if k < |lines| && !firstTime then fromMsg else "") + Concat(lines[k..])
  }

  lemma BlanksGrow(lines: seq<string>, line: string)
    ensures LeadingBlanks(lines + [line]) ==
            var k := LeadingBlanks(lines); if k == |lines| && Blank(line) then |lines| + 1 else k
  {
    assert (lines + [line])[..|lines + [line]| - 1] == lines;
  }

  /** The sender's line, where the next data line brings it in. */
  function Preface(fromMsg: string, firstTime: bool, line: string): string {
    if !Blank(line) && !firstTime then fromMsg else ""
  }

  lemma SplitGrows(lines: seq<string>, k: nat, line: string)
    requires k <= |lines|
    ensures Concat((lines + [line])[..k]) == Concat(lines[..k])
    ensures Concat((lines + [line])[k..]) == Concat(lines[k..]) + line
  {
    assert (lines + [line])[..k] == lines[..k] && (lines + [line])[k..] == lines[k..] + [line];
    ConcatGrows(lines[k..], line);
  }

  lemma InsideGrows(fromMsg: string, firstTime: bool, lines: seq<string>, line: string)
    requires LeadingBlanks(lines) < |lines|
    ensures MessageText(fromMsg, firstTime, lines + [line]) == MessageText(fromMsg, firstTime, lines) + line
  {
    var k := LeadingBlanks(lines);
    BlanksGrow(lines, line);
    SplitGrows(lines, k, line);
    Reassociate(Concat(lines[..k]) + (if !firstTime then fromMsg else ""), Concat(lines[k..]), line);
  }

  lemma AllBlank(fromMsg: string, firstTime: bool, lines: seq<string>)
    requires LeadingBlanks(lines) == |lines|
    ensures MessageText(fromMsg, firstTime, lines) == Concat(lines)
  {
    assert lines[..|lines|] == lines && lines[|lines|..] == [];
  }

  lemma FirstTextSplits(lines: seq<string>, line: string)
    ensures (lines + [line])[..|lines|] == lines && Concat((lines + [line])[|lines|..]) == line
  {
    PartsOf(lines, [line]);
    ConcatOne(line);
  }

  lemma FirstTextGrows(fromMsg: string, firstTime: bool, lines: seq<string>, line: string)
    requires LeadingBlanks(lines) == |lines| && !Blank(line)
    ensures MessageText(fromMsg, firstTime, lines + [line]) ==
            Concat(lines) + (if !firstTime then fromMsg else "") + line
  {
    BlanksGrow(lines, line);
    FirstTextSplits(lines, line);
  }

  lemma MessageGrows(fromMsg: string, firstTime: bool, lines: seq<string>, line: string)
    ensures var begun := firstTime || LeadingBlanks(lines) < |lines|;
            MessageText(fromMsg, firstTime, lines + [line]) ==
            MessageText(fromMsg, firstTime, lines) + Preface(fromMsg, begun, line) + line
  {
    var text := MessageText(fromMsg, firstTime, lines);
    assert text + "" == text;
    if LeadingBlanks(lines) < |lines| {
      InsideGrows(fromMsg, firstTime, lines, line);
    } else {
      AllBlank(fromMsg, firstTime, lines);
      if Blank(line) {
        BlanksGrow(lines, line);
        AllBlank(fromMsg, firstTime, lines + [line]);
        ConcatGrows(lines, line);
      } else {
        FirstTextGrows(fromMsg, firstTime, lines, line);
      }
    }
  }

  lemma AppendWrites(st: Session, text: string)
    requires st.bytesWritten <= |st.fileMsg|
    ensures var st' := Append(st, text);
            && st'.bytesWritten <= |st'.fileMsg|
            && st'.fileMsg[..st'.bytesWritten] == st.fileMsg[..st.bytesWritten] + text
            && st'.bytesWritten == st.bytesWritten + |text|
  {
  }

  /** A text line, with the sender's line where it is due. */
  lemma TextLineWrites(st: Session, line: string)
    requires st.bytesWritten <= |st.fileMsg| && !st.firstTime
    ensures var st' := Append(Append(st, st.fromMsg).(firstTime := true), line);
            && st'.bytesWritten <= |st'.fileMsg|
            && st'.fileMsg[..st'.bytesWritten] == st.fileMsg[..st.bytesWritten] + st.fromMsg + line
  {
    AppendWrites(st, st.fromMsg);
    AppendWrites(Append(st, st.fromMsg).(firstTime := true), line);
  }

  lemma DataLineWrites(st: Session, line: string)
    requires st.isData && st.bytesWritten <= |st.fileMsg| && !IsDot(line)
    ensures var st' := DataLine(st, line);
            && st'.isData && st'.fromMsg == st.fromMsg && st'.bytesWritten <= |st'.fileMsg|
            && st'.firstTime == (st.firstTime || !Blank(line))
            && st'.fileMsg[..st'.bytesWritten] ==
               st.fileMsg[..st.bytesWritten] + Preface(st.fromMsg, st.firstTime, line) + line
  {
    if !Blank(line) && !st.firstTime {
      TextLineWrites(st, line);
    } else {
      AppendWrites(st, line);
      assert st.fileMsg[..st.bytesWritten] + "" == st.fileMsg[..st.bytesWritten];
    }
  }

  /** The data lines of one message, one after the other. */
  function DataLines(st: Session, lines: seq<string>): Session {
    if lines == [] then st else DataLine(DataLines(st, lines[..|lines| - 1]), lines[|lines| - 1])
  }

  lemma {:induction false} DataLinesAreProcessed(st: Session, lines: seq<string>, now: string)
    requires st.isData && forall k :: 0 <= k < |lines| ==> !IsDot(lines[k])
    ensures ProcessAll(st, lines, now) == DataLines(st, lines) && DataLines(st, lines).isData
  {
    if lines != [] {
      DataLinesAreProcessed(st, lines[..|lines| - 1], now);
    }
  }

  /** The bytes written are exactly the message of the given lines. */
  predicate Holds(st: Session, fromMsg: string, begun: bool, lines: seq<string>) {
    var text := MessageText(fromMsg, begun, lines);
    && st.isData && st.fromMsg == fromMsg && st.bytesWritten <= |st.fileMsg|
    && st.bytesWritten == |text| && st.fileMsg[..st.bytesWritten] == text
    && st.firstTime == (begun || LeadingBlanks(lines) < |lines|)
  }

  lemma HoldsMore(st: Session, fromMsg: string, begun: bool, lines: seq<string>, line: string)
    requires Holds(st, fromMsg, begun, lines) && !IsDot(line)
    ensures Holds(DataLine(st, line), fromMsg, begun, lines + [line])
  {
    DataLineWrites(st, line);
    MessageGrows(fromMsg, begun, lines, line);
    BlanksGrow(lines, line);
  }

  lemma HoldsNothing(st: Session)
    requires st.isData && st.bytesWritten == 0
    ensures Holds(st, st.fromMsg, st.firstTime, [])
  {
    assert MessageText(st.fromMsg, st.firstTime, []) == "";
  }

  lemma DataLinesNext(st: Session, front: seq<string>, line: string)
    ensures DataLines(st, front + [line]) == DataLine(DataLines(st, front), line)
  {
    FrontOfNext(front, line);
  }

  lemma HoldsNext(st: Session, fromMsg: string, begun: bool, front: seq<string>, line: string)
    requires Holds(DataLines(st, front), fromMsg, begun, front) && !IsDot(line)
    ensures Holds(DataLines(st, front + [line]), fromMsg, begun, front + [line])
  {
    DataLinesNext(st, front, line);
    HoldsMore(DataLines(st, front), fromMsg, begun, front, line);
  }

  /** Between DATA and the dot, the bytes written are exactly the message: its lines, and the sender's line when it
      is the connection's first text. */
  lemma {:induction false} MessageIsWritten(st: Session, lines: seq<string>)
    requires st.isData && st.bytesWritten == 0 && forall k :: 0 <= k < |lines| ==> !IsDot(lines[k])
    ensures Holds(DataLines(st, lines), st.fromMsg, st.firstTime, lines)
  {
    if lines == [] {
      HoldsNothing(st);
    } else {
      var front, line := lines[..|lines| - 1], lines[|lines| - 1];
      MessageIsWritten(st, front);
      HoldsNext(st, st.fromMsg, st.firstTime, front, line);
      FrontAndLast(lines);
    }
  }

  // ---- What is handed over ----

  predicate NoNul(s: string) {
    NUL !in s
  }

  function MaxSize(ds: seq<Delivery>): (most: nat)
    ensures forall j :: 0 <= j < |ds| ==> ds[j].size <= most
    ensures most == 0 || exists j :: 0 <= j < |ds| && ds[j].size == most
  {
    if ds == [] then 0
    else
      var most, last := MaxSize(ds[..|ds| - 1]), ds[|ds| - 1].size;
      if last > most then last else most
  }

  /** The buffer holds the message so far, then the end of the longest message since the connection began, but for
      the bytes that are cleared after a delivery. */
  predicate Buffered(st: Session) {
    && st.bytesWritten <= |st.fileMsg|
    && |st.fileMsg| == (if MaxSize(st.deliveries) > st.bytesWritten then MaxSize(st.deliveries) else st.bytesWritten)
    && NoNul(st.fromMsg)
    && forall k :: 0 <= k < |st.fileMsg| ==> (st.fileMsg[k] == NUL <==> st.bytesWritten <= k < CLEARED)
  }

  /** A message is handed over as written exactly when it is short, or when no earlier one was longer. */
  predicate Exact(before: seq<Delivery>, d: Delivery) {
    |d.text| == d.size <==> d.size < 50 || MaxSize(before) <= d.size
  }

  /** So is every one. */
  predicate HandedOver(ds: seq<Delivery>) {
    forall k :: 0 <= k < |ds| ==> Exact(ds[..k], ds[k])
  }

  lemma AppendIsBuffered(st: Session, text: string)
    requires Buffered(st) && NoNul(text)
    ensures Buffered(Append(st, text))
  {
  }

  /** What is handed over starts with the message, and ends with it exactly under that condition. */
  lemma CTextIsMessage(st: Session)
    requires Buffered(st)
    ensures st.fileMsg[..st.bytesWritten] <= CText(st.fileMsg)
    ensures |CText(st.fileMsg)| == st.bytesWritten <==>
            st.bytesWritten < CLEARED || MaxSize(st.deliveries) <= st.bytesWritten
  {
    var i := FirstOf(st.fileMsg, {NUL});
    assert i < |st.fileMsg| ==> st.fileMsg[i] == NUL;
    assert st.bytesWritten < |st.fileMsg| && st.bytesWritten < CLEARED ==> st.fileMsg[st.bytesWritten] == NUL;
  }

  lemma DotIsBuffered(st: Session, line: string)
    requires Buffered(st) && IsDot(line)
    ensures Buffered(DataLine(st, line))
  {
    var st' := DataLine(st, line);
    assert st'.deliveries[..|st.deliveries|] == st.deliveries;
  }

  lemma OneMoreHandedOver(ds: seq<Delivery>, d: Delivery)
    requires HandedOver(ds) && Exact(ds, d)
    ensures HandedOver(ds + [d])
  {
    forall k | 0 <= k < |ds + [d]| ensures Exact((ds + [d])[..k], (ds + [d])[k]) {
      if k == |ds| {
        FrontOfNext(ds, d);
      } else {
        assert (ds + [d])[..k] == ds[..k];
        assert Exact(ds[..k], ds[k]);
      }
    }
  }

  lemma DotHandsOver(st: Session, line: string)
    requires Buffered(st) && HandedOver(st.deliveries) && IsDot(line)
    ensures HandedOver(DataLine(st, line).deliveries)
  {
    CTextIsMessage(st);
    OneMoreHandedOver(st.deliveries, Delivery(st.fromUser, st.rcptUser, CText(st.fileMsg), st.bytesWritten));
  }

  lemma DataLineIsBuffered(st: Session, line: string)
    requires Buffered(st) && NoNul(line) && !IsDot(line)
    ensures Buffered(DataLine(st, line)) && DataLine(st, line).deliveries == st.deliveries
  {
    AppendIsBuffered(st, line);
    AppendIsBuffered(st, st.fromMsg);
    AppendIsBuffered(Append(st, st.fromMsg).(firstTime := true), line);
  }

  /** The part of a session the buffer is about. */
  predicate SameBuffer(st: Session, st': Session) {
    st'.fileMsg == st.fileMsg && st'.bytesWritten == st.bytesWritten && st'.deliveries == st.deliveries
  }

  lemma PieceHasNoNul(s: string, from: nat, upTo: int)
    requires NoNul(s)
    ensures NoNul(Piece(s, from, upTo))
  {
  }

  lemma SenderHasNoNul(user: string, domain: string, now: string)
    requires NoNul(user) && NoNul(domain) && NoNul(now)
    ensures NoNul(SenderLine(user, domain, now))
  {
  }

  lemma MailIsBuffered(st: Session, line: string, i: nat, now: string)
    requires NoNul(st.fromMsg) && NoNul(line) && NoNul(now) && i <= |line|
    ensures SameBuffer(st, MailLine(st, line, i, now)) && NoNul(MailLine(st, line, i, now).fromMsg)
  {
    var user, domain := Piece(line, i + 2, AtSign(line, i)), DomainOf(line, AtSign(line, i));
    PieceHasNoNul(line, i + 2, AtSign(line, i));
    PieceHasNoNul(line, AtSign(line, i) + 1, |line| - 3);
    SenderHasNoNul(user, domain, now);
  }

  lemma RcptIsBuffered(st: Session, line: string, i: nat)
    requires NoNul(st.fromMsg) && i <= |line|
    ensures SameBuffer(st, RcptLine(st, line, i)) && NoNul(RcptLine(st, line, i).fromMsg)
  {
  }

  lemma ObeyIsBuffered(st: Session, verb: Verb, line: string, i: nat, now: string)
    requires NoNul(st.fromMsg) && NoNul(line) && NoNul(now) && i <= |line|
    ensures SameBuffer(st, Obey(st, verb, line, i, now)) && NoNul(Obey(st, verb, line, i, now).fromMsg)
  {
    match verb {
      case NameSender => MailIsBuffered(st, line, i, now);
      case NameRecipient => RcptIsBuffered(st, line, i);
      case _ =>
    }
  }

  lemma ProcessIsBuffered(st: Session, line: string, now: string)
    requires Buffered(st) && HandedOver(st.deliveries) && NoNul(line) && NoNul(now)
    ensures Buffered(Process(st, line, now)) && HandedOver(Process(st, line, now).deliveries)
  {
    if !st.isData {
      ObeyIsBuffered(st, VerbOf(CommandOf(line)), line, |CommandOf(line)|, now);
    } else if IsDot(line) {
      DotIsBuffered(st, line);
      DotHandsOver(st, line);
    } else {
      DataLineIsBuffered(st, line);
    }
  }

  /** Over every connection whose lines hold no NUL, a message is handed over exactly as it was written when it is
      shorter than the part of the buffer that is cleared, or when no earlier message of the connection was longer;
      otherwise the end of an earlier message follows it. */
  lemma {:induction false} MessagesAreHandedOver(lines: seq<string>, now: string)
    requires NoNul(now) && forall k :: 0 <= k < |lines| ==> NoNul(lines[k])
    ensures Buffered(ProcessAll(Start(), lines, now)) && HandedOver(ProcessAll(Start(), lines, now).deliveries)
  {
    if lines != [] {
      MessagesAreHandedOver(lines[..|lines| - 1], now);
      ProcessIsBuffered(ProcessAll(Start(), lines[..|lines| - 1], now), lines[|lines| - 1], now);
    }
  }

  // ---- From DATA to the dot ----

  lemma {:induction false} DataLinesKeep(st: Session, lines: seq<string>)
    requires st.isData && Buffered(st)
    requires forall k :: 0 <= k < |lines| ==> !IsDot(lines[k]) && NoNul(lines[k])
    ensures var st' := DataLines(st, lines);
            && st'.isData && Buffered(st') && st'.deliveries == st.deliveries
            && st'.fromUser == st.fromUser && st'.rcptUser == st.rcptUser
  {
    if lines != [] {
      DataLinesKeep(st, lines[..|lines| - 1]);
      DataLineIsBuffered(DataLines(st, lines[..|lines| - 1]), lines[|lines| - 1]);
    }
  }

  /** The dot hands over the message of the lines since DATA, to the last recipient, from the last sender. */
  lemma DeliveredMessage(st: Session, lines: seq<string>, dot: string, now: string)
    requires st.isData && st.bytesWritten == 0 && Buffered(st) && IsDot(dot)
    requires forall k :: 0 <= k < |lines| ==> !IsDot(lines[k]) && NoNul(lines[k])
    ensures Process(ProcessAll(st, lines, now), dot, now).bytesWritten == 0
    ensures |Process(ProcessAll(st, lines, now), dot, now).deliveries| == |st.deliveries| + 1
    ensures var text := MessageText(st.fromMsg, st.firstTime, lines);
            var d := Process(ProcessAll(st, lines, now), dot, now).deliveries[|st.deliveries|];
            && d.sender == st.fromUser && d.recipient == st.rcptUser && d.size == |text| && text <= d.text
            && (d.text == text <==> d.size < CLEARED || MaxSize(st.deliveries) <= d.size)
  {
    DataLinesAreProcessed(st, lines, now);
    MessageIsWritten(st, lines);
    DataLinesKeep(st, lines);
    CTextIsMessage(DataLines(st, lines));
  }

  lemma ObeyWritesNothing(st: Session, verb: Verb, line: string, i: nat, now: string)
    requires i <= |line|
    ensures Obey(st, verb, line, i, now).bytesWritten == st.bytesWritten
  {
  }

  /** Over every connection the buffer is empty outside the data state, so each DATA starts a fresh message. */
  lemma {:induction false} EmptyOutsideData(lines: seq<string>, now: string)
    ensures var st := ProcessAll(Start(), lines, now); !st.isData ==> st.bytesWritten == 0
  {
    if lines != [] {
      var st, line := ProcessAll(Start(), lines[..|lines| - 1], now), lines[|lines| - 1];
      EmptyOutsideData(lines[..|lines| - 1], now);
      if !st.isData { ObeyWritesNothing(st, VerbOf(CommandOf(line)), line, |CommandOf(line)|, now); }
    }
  }
}
