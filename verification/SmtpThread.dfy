/** The thread that serves one SMTP connection. */
module SmtpThread {
  import opened Sequences
  import opened Text
  import opened SmtpSession
  import opened SmtpFraming

  /** The server as a handler of lines. */
  function Smtp(now: string): Handler<Session> {
    Handler((st, line) => Process(st, line, now), (st: Session) => st.isData, (st: Session) => st.isQuit, Start())
  }

  lemma SmtpSteps(now: string, st: Session, line: string)
    ensures Smtp(now).step(st, line) == Process(st, line, now)
    ensures Smtp(now).inData(st) == st.isData && Smtp(now).quit(st) == st.isQuit && Smtp(now).start == Start()
  {
  }

  lemma {:induction false} SmtpProcesses(now: string, lines: seq<string>)
    ensures StepAll(Smtp(now), Start(), lines) == ProcessAll(Start(), lines, now)
  {
    if lines != [] {
      SmtpProcesses(now, lines[..|lines| - 1]);
      SmtpSteps(now, ProcessAll(Start(), lines[..|lines| - 1], now), lines[|lines| - 1]);
    }
  }

  /** However a connection's bytes are cut into reads, its session is that of the lines extracted, and so its
      commands come in order and `isData` holds in the data state alone. */
  lemma SessionOfLines(parts: seq<string>, now: string)
    ensures var c := Receives(Smtp(now), parts);
            c.st == ProcessAll(Start(), c.lines, now) && Consistent(c.st)
  {
    var c := Receives(Smtp(now), parts);
    ConnectionProcesses(Smtp(now), parts);
    SmtpProcesses(now, c.lines);
    ConnectionIsConsistent(c.lines, now);
  }

  /** A client's first command, followed by an empty line in the same read. */
  lemma GreetingHidesEmptyLine(now: string, host: string, more: string)
    requires OneLine("HELO " + host)
    ensures !Framed(Receives(Smtp(now), ["HELO " + host + "\r\n" + ("\r\n" + more)]))
  {
    EmptyLineIsMissed(Smtp(now), "HELO " + host, more);
  }

  lemma ShiftCrlf(s: string, base: nat, i: nat)
    requires base <= i < |s|
    ensures CrlfAt(s[base..], i - base) == CrlfAt(s, i)
  {
  }

  method Search(line: string, start: nat, seps: set<char>) returns (i: nat)
    requires start <= |line|
    ensures i == start + FirstOf(line[start..], seps)
  {
    i := start;
    while i < |line| && line[i] !in seps
      invariant start <= i <= |line|
      invariant start + FirstOf(line[start..], seps) == i + FirstOf(line[i..], seps)
    {
      assert line[i..][1..] == line[i + 1..];
      i := i + 1;
    }
  }

  method SearchAt(line: string, start: nat) returns (at: nat)
    requires start <= |line|
    ensures at == AtSign(line, start)
  {
    at := Search(line, start, {'@'});
  }

  class ClientHandler {
    /** The time a sender's line carries. */
    const now: string

    var circBuf: string
    var readPtr: nat
    var writePtr: nat

    var curState: State
    var isData: bool
    var isQuit: bool
    var fromUser: string
    var fromMsg: string
    var rcptUser: string
    var fileMsg: string
    var bytesWritten: nat
    var firstTime: bool

    /** What went out: replies to the client, and messages to the store. */
    var replies: seq<Answer>
    var deliveries: seq<Delivery>

    ghost var history: seq<Mark>
    ghost var lines: seq<string>
    ghost const protocol: Handler<Session>

    constructor (now: string)
      ensures Valid() && this.now == now && protocol == Smtp(now) && AsConn() == Receives(Smtp(now), [])
    {
      this.now := now;
      protocol := Smtp(now);
      circBuf, readPtr, writePtr := "", 0, 0;
      curState, isData, isQuit := Invalid, false, false;
      fromUser, fromMsg, rcptUser, fileMsg, bytesWritten, firstTime := "", "", "", "", 0, false;
      replies, deliveries, history, lines := [], [], [], [];
    }

    /** The handler this thread implements. */
    ghost predicate Speaks() {
      && (forall st, line {:trigger Process(st, line, now)} :: protocol.step(st, line) == Process(st, line, now))
      && (forall st {:trigger protocol.inData(st)} :: protocol.inData(st) == st.isData)
      && (forall st {:trigger protocol.quit(st)} :: protocol.quit(st) == st.isQuit)
    }

    ghost predicate Valid()
      reads this
    {
      readPtr <= writePtr == |circBuf| && Speaks()
    }

    ghost function AsSession(): Session
      reads this
    {
      Session(curState, isData, isQuit, fromUser, fromMsg, rcptUser, fileMsg, bytesWritten, firstTime, replies,
              deliveries, history)
    }

    ghost function AsConn(): Conn<Session>
      requires Valid()
      reads this
    {
      Conn(AsSession(), lines, circBuf[readPtr..], circBuf)
    }

    method SendMessage(answer: Answer)
      modifies this`replies
      ensures AsSession() == Reply(old(AsSession()), answer)
    {
      replies := replies + [answer];
    }

    method WriteMessage(text: string)
      modifies this`fileMsg, this`bytesWritten
      ensures AsSession() == Append(old(AsSession()), text)
    {
      fileMsg := Written(fileMsg, bytesWritten, text);
      bytesWritten := bytesWritten + |text|;
    }

    method HandleData(line: string)
      modifies this`fileMsg, this`bytesWritten, this`firstTime, this`isData, this`curState, this`replies
      modifies this`deliveries, this`history
      ensures AsSession() == DataLine(old(AsSession()), line)
    {
      if SameText(line, ".\r\n") {
        isData := false;
        curState := InSession;
        SendMessage(Ok);
        deliveries := deliveries + [Delivery(fromUser, rcptUser, CText(fileMsg), bytesWritten)];
        fileMsg := Cleared(fileMsg);
        bytesWritten := 0;
        history := history + [Delivered];
      } else if SameText(line, "\r\n") {
        WriteMessage(line);
      } else {
        if !firstTime {
          WriteMessage(fromMsg);
          firstTime := true;
        }
        WriteMessage(line);
      }
    }

    method ReadRecipient(line: string, i: nat)
      requires i <= |line|
      modifies this`rcptUser, this`replies
      ensures AsSession() == TakeRecipient(old(AsSession()), line, i)
    {
      var at := SearchAt(line, i);
      if at == |line| {
        SendMessage(BadDomain);
      } else {
        rcptUser := Piece(line, i + 2, at);
        CheckDomain(line, at);
      }
    }

    method CheckDomain(line: string, at: nat)
      requires at <= |line|
      modifies this`replies
      ensures AsSession() ==
              Reply(old(AsSession()), if SameText(DomainOf(line, at), "localhost") then Ok else BadDomain)
    {
      var rcptDomain := DomainOf(line, at);
      if SameText(rcptDomain, "localhost") {
        SendMessage(Ok);
      } else {
        SendMessage(BadDomain);
      }
    }

    method HandleRcpt(line: string, i: nat)
      requires i <= |line|
      modifies this`curState, this`rcptUser, this`replies, this`history
      ensures AsSession() == RcptLine(old(AsSession()), line, i)
    {
      if curState != From && curState != Recv {
        SendMessage(OutOfOrder);
      } else {
        curState := Recv;
        history := history + [RcptTo];
        ReadRecipient(line, i);
      }
    }

    method ReadSender(line: string, i: nat)
      requires i <= |line|
      modifies this`fromUser, this`fromMsg, this`replies
      ensures AsSession() == TakeSender(old(AsSession()), line, i, now)
    {
      var at := SearchAt(line, i);
      if at == |line| {
        SendMessage(BadDomain);
      } else {
        NoteSender(line, i, at);
        SendMessage(Ok);
      }
    }

    method NoteSender(line: string, i: nat, at: nat)
      modifies this`fromUser, this`fromMsg
      ensures var user := Piece(line, i + 2, at);
              AsSession() == old(AsSession()).(fromUser := user, fromMsg := SenderLine(user, DomainOf(line, at), now))
    {
      fromUser := Piece(line, i + 2, at);
      fromMsg := SenderLine(fromUser, DomainOf(line, at), now);
    }

    method HandleMail(line: string, i: nat)
      requires i <= |line|
      modifies this`curState, this`fromUser, this`fromMsg, this`replies, this`history
      ensures AsSession() == MailLine(old(AsSession()), line, i, now)
    {
      if curState != InSession {
        SendMessage(OutOfOrder);
      } else {
        curState := From;
        history := history + [MailFrom];
        ReadSender(line, i);
      }
    }

    method HandleHelo(words: string)
      modifies this`curState, this`replies, this`history
      ensures AsSession() == HeloLine(old(AsSession()), words)
    {
      if curState != Invalid {
        SendMessage(OutOfOrder);
      } else if SecondToken(words) == "" {
        SendMessage(BadHost);
      } else {
        SendMessage(Greeting);
        curState := InSession;
        history := history + [Helo];
      }
    }

    method HandleStart()
      modifies this`curState, this`isData, this`replies, this`history
      ensures AsSession() == DataCommand(old(AsSession()))
    {
      if curState != Recv {
        SendMessage(OutOfOrder);
      } else {
        curState := Data;
        history := history + [DataStart];
        SendMessage(GoAhead);
        isData := true;
      }
    }

    method HandleCommand(line: string)
      modifies this`curState, this`isData, this`isQuit, this`fromUser, this`fromMsg, this`rcptUser, this`replies
      modifies this`history
      ensures AsSession() == CommandLine(old(AsSession()), line, now)
    {
      var i := Search(line, 0, {':', '\r'});
      assert line[0..] == line;
      var cmd := line[..i];
      match VerbOf(cmd) {
        case SayHelo => HandleHelo(cmd);
        case Quit =>
          isQuit := true;
          SendMessage(Goodbye);
        case NameRecipient => HandleRcpt(line, i);
        case NameSender => HandleMail(line, i);
        case StartData => HandleStart();
        case Noop =>
        case Nothing => SendMessage(Unknown);
        case Other => SendMessage(Unknown);
      }
    }

    method HandleLine(line: string)
      requires Speaks()
      modifies this`curState, this`isData, this`isQuit, this`fromUser, this`fromMsg, this`rcptUser, this`fileMsg
      modifies this`bytesWritten, this`firstTime, this`replies, this`deliveries, this`history
      ensures AsSession() == protocol.step(old(AsSession()), line)
    {
      ghost var st := AsSession();
      if isData {
        HandleData(line);
      } else {
        HandleCommand(line);
      }
      assert AsSession() == Process(st, line, now);
    }

    /** How far the scan has got. */
    ghost function Here(tempPtr: nat): Spot<Session>
      requires Valid() && readPtr <= tempPtr
      reads this
    {
      Spot(AsSession(), lines, circBuf[readPtr..], tempPtr - readPtr)
    }

    /** The line that ends at the scanning position is taken off the buffer and handled. */
    method TakeLine(tempPtr: nat) returns (recvMsg: string)
      requires Valid() && readPtr <= tempPtr && CrlfAt(circBuf, tempPtr)
      modifies this
      ensures Valid() && circBuf == old(circBuf) && readPtr == tempPtr + 2
      ensures recvMsg == circBuf[old(readPtr)..readPtr] && lines == old(lines) + [recvMsg]
      ensures AsSession() == protocol.step(old(AsSession()), recvMsg)
    {
      recvMsg := circBuf[readPtr..tempPtr + 2];
      HandleLine(recvMsg);
      readPtr := tempPtr + 2;
      lines := lines + [recvMsg];
    }

    /** The scan comes to a line end: after a data line it goes on behind it, after a command line a byte further. */
    method AtLineEnd(tempPtr: nat) returns (next: nat)
      requires Valid() && readPtr <= tempPtr
      requires CrlfAt(circBuf, tempPtr) && CrlfAt(circBuf[readPtr..], tempPtr - readPtr)
      modifies this
      ensures Valid() && circBuf == old(circBuf) && readPtr <= next && tempPtr < next <= writePtr + 1
      ensures Here(next) == LineTaken(protocol, old(Here(tempPtr)))
    {
      var skip := if isData then 0 else 1;
      SliceOfSlice(circBuf, readPtr, tempPtr + 2);
      var recvMsg := TakeLine(tempPtr);
      next := readPtr + skip;
    }

    method ScanOn(tempPtr: nat) returns (next: nat)
      requires Valid() && readPtr <= tempPtr < writePtr
      modifies this
      ensures Valid() && circBuf == old(circBuf) && readPtr <= next && tempPtr < next <= writePtr + 1
      ensures Here(next) == Onward(protocol, old(Here(tempPtr)))
    {
      ShiftCrlf(circBuf, readPtr, tempPtr);
      if CrlfAt(circBuf, tempPtr) {
        next := AtLineEnd(tempPtr);
      } else {
        next := tempPtr + 1;
      }
    }

    method ScanLines()
      requires Valid()
      modifies this
      ensures Valid() && circBuf == old(circBuf)
      ensures Scan(AsSession(), lines, circBuf[readPtr..]) == Ends(protocol, old(Here(readPtr)))
    {
      ghost var end := Ends(protocol, Here(readPtr));
      var tempPtr := readPtr;
      while tempPtr < writePtr
        invariant Valid() && readPtr <= tempPtr <= writePtr + 1 && circBuf == old(circBuf)
        invariant Ends(protocol, Here(tempPtr)) == end
        decreases writePtr + 1 - tempPtr
      {
        OnwardEnds(protocol, Here(tempPtr));
        tempPtr := ScanOn(tempPtr);
      }
      AllScanned(protocol, Here(tempPtr));
    }

    method ReceiveBytes(bytes: string)
      requires Valid() && !isQuit
      modifies this
      ensures Valid() && AsConn() == Receive(protocol, old(AsConn()), bytes)
    {
      SliceOfLonger(circBuf, bytes, readPtr);
      circBuf := circBuf + bytes;
      writePtr := |circBuf|;
      ScanLines();
    }
  }
}
