/** How the mail server cuts the bytes of a connection into lines, whatever it then does with each line. */
module SmtpFraming {
  import opened Sequences
  import opened Text

  /** What is done with a line, whether the next ones are data, and whether the connection is to end. */
  datatype Handler<!S> = Handler(step: (S, string) -> S, inData: S -> bool, quit: S -> bool, start: S)

  // ---- The lines of a text ----

  function Unfinished(s: string): string {
    var i := FindCrlf(s, 0);
    if i == |s| then s else Unfinished(s[i + 2..])
  }

  function StepAll<S>(h: Handler<S>, st: S, lines: seq<string>): S {
    if lines == [] then st else h.step(StepAll(h, st, lines[..|lines| - 1]), lines[|lines| - 1])
  }

  // ---- The scan of one read ----

  datatype Scan<S> = Scan(st: S, lines: seq<string>, rest: string)

  /** After a command line the scan goes on one byte further than it should. */
  function ScanFrom<S>(h: Handler<S>, st: S, s: string, from: nat): Scan<S>
    decreases |s|
  {
    var i := FindCrlf(s, from);
    if i == |s| then Scan(st, [], s)
    else
      var next := ScanFrom(h, h.step(st, s[..i + 2]), s[i + 2..], if h.inData(st) then 0 else 1);
      next.(lines := [s[..i + 2]] + next.lines)
  }

  /** In the text at hand, some command line is directly followed by an empty line. */
  predicate Misses<S>(h: Handler<S>, st: S, s: string, from: nat)
    decreases |s|
  {
    var i := FindCrlf(s, from);
    i < |s| &&
    ((!h.inData(st) && CrlfAt(s[i + 2..], 0)) ||
     Misses(h, h.step(st, s[..i + 2]), s[i + 2..], if h.inData(st) then 0 else 1))
  }

  // ---- A connection ----

  datatype Conn<S> = Conn(st: S, lines: seq<string>, unread: string, received: string)

  /** The program stops reading once it has seen QUIT. */
  function Receive<S>(h: Handler<S>, c: Conn<S>, bytes: string): Conn<S> {
    if h.quit(c.st) then c
    else
      var scan := ScanFrom(h, c.st, c.unread + bytes, 0);
      Conn(scan.st, c.lines + scan.lines, scan.rest, c.received + bytes)
  }

  function Receives<S>(h: Handler<S>, parts: seq<string>): Conn<S> {
    if parts == [] then Conn(h.start, [], "", "")
    else Receive(h, Receives(h, parts[..|parts| - 1]), parts[|parts| - 1])
  }

  predicate Missed<S>(h: Handler<S>, c: Conn<S>, bytes: string) {
    !h.quit(c.st) && Misses(h, c.st, c.unread + bytes, 0)
  }

  /** The lines extracted are the lines of what was received. */
  predicate Framed<S>(c: Conn<S>) {
    c.lines == Lines(c.received) && c.unread == Unfinished(c.received)
  }

  // ---- Nothing is lost ----

  lemma PrependLine(line: string, lines: seq<string>, rest: string)
    ensures Concat([line] + lines) + rest == line + (Concat(lines) + rest)
  {
    ConcatJoins([line], lines);
    ConcatOne(line);
    Reassociate(line, Concat(lines), rest);
  }

  lemma ScanStep<S>(h: Handler<S>, st: S, s: string, from: nat)
    requires FindCrlf(s, from) < |s|
    ensures var i := FindCrlf(s, from);
            var next := ScanFrom(h, h.step(st, s[..i + 2]), s[i + 2..], if h.inData(st) then 0 else 1);
            ScanFrom(h, st, s, from) == next.(lines := [s[..i + 2]] + next.lines)
  {
  }

  lemma PrependScan(s: string, k: nat, lines: seq<string>, rest: string)
    requires k <= |s| && Concat(lines) + rest == s[k..]
    ensures Concat([s[..k]] + lines) + rest == s
  {
    PrependLine(s[..k], lines, rest);
    assert s[..k] + s[k..] == s;
  }

  lemma {:induction false} ScanLosesNothing<S>(h: Handler<S>, st: S, s: string, from: nat)
    ensures Concat(ScanFrom(h, st, s, from).lines) + ScanFrom(h, st, s, from).rest == s
    decreases |s|
  {
    var i := FindCrlf(s, from);
    if i == |s| {
      assert [] + s == s;
    } else {
      var st1, rest, skip := h.step(st, s[..i + 2]), s[i + 2..], if h.inData(st) then 0 else 1;
      ScanStep(h, st, s, from);
      ScanLosesNothing(h, st1, rest, skip);
      PrependScan(s, i + 2, ScanFrom(h, st1, rest, skip).lines, ScanFrom(h, st1, rest, skip).rest);
    }
  }

  /** However the stream is cut into reads, the lines extracted and the unread rest are what was received. */
  lemma {:induction false} NothingIsLost<S>(h: Handler<S>, parts: seq<string>)
    ensures var c := Receives(h, parts); Concat(c.lines) + c.unread == c.received
  {
    if parts != [] {
      var c, bytes := Receives(h, parts[..|parts| - 1]), parts[|parts| - 1];
      NothingIsLost(h, parts[..|parts| - 1]);
      if !h.quit(c.st) {
        var scan := ScanFrom(h, c.st, c.unread + bytes, 0);
        ScanLosesNothing(h, c.st, c.unread + bytes, 0);
        ConcatJoins(c.lines, scan.lines);
        Reassociate(Concat(c.lines), Concat(scan.lines), scan.rest);
        Reassociate(Concat(c.lines), c.unread, bytes);
      }
    }
  }

  // ---- One read ----

  lemma FirstLine(s: string)
    requires CrlfAt(s, 0)
    ensures FindCrlf(s, 0) == 0 && Lines(s) == ["\r\n"] + Lines(s[2..])
  {
    assert s[..2] == "\r\n";
  }

  lemma SkipIsHarmless(s: string)
    requires !CrlfAt(s, 0)
    ensures FindCrlf(s, 1) == FindCrlf(s, 0)
  {
  }

  /** When no empty line is missed, the scan finds exactly the lines of the text; otherwise it does not. */
  lemma {:induction false} ScanIsSplit<S>(h: Handler<S>, st: S, s: string, from: nat)
    requires from == 0 || (from == 1 && !CrlfAt(s, 0))
    ensures var scan := ScanFrom(h, st, s, from);
            if Misses(h, st, s, from) then scan.lines != Lines(s)
            else scan.lines == Lines(s) && scan.rest == Unfinished(s)
    decreases |s|
  {
    if from == 1 { SkipIsHarmless(s); }
    var i := FindCrlf(s, from);
    if i < |s| {
      var line, rest := s[..i + 2], s[i + 2..];
      var next := h.step(st, line);
      if !h.inData(st) && CrlfAt(rest, 0) {
        MissedLineShows(h, next, rest);
        SameTails([line], ScanFrom(h, next, rest, 1).lines, Lines(rest));
      } else {
        ScanIsSplit(h, next, rest, if h.inData(st) then 0 else 1);
        SameTails([line], ScanFrom(h, next, rest, if h.inData(st) then 0 else 1).lines, Lines(rest));
      }
    }
  }

  /** A missed empty line is taken into the next line, or left unread. */
  lemma MissedLineShows<S>(h: Handler<S>, st: S, s: string)
    requires CrlfAt(s, 0)
    ensures ScanFrom(h, st, s, 1).lines != Lines(s)
  {
    FirstLine(s);
    var i := FindCrlf(s, 1);
    if i < |s| {
      assert ScanFrom(h, st, s, 1).lines[0] == s[..i + 2];
      assert |s[..i + 2]| > |"\r\n"|;
    }
  }

  lemma FoundSlices(a: string, b: string, from: nat)
    requires FindCrlf(a, from) < |a|
    ensures FindCrlf(a + b, from) == FindCrlf(a, from)
    ensures var k := FindCrlf(a, from) + 2; (a + b)[..k] == a[..k] && (a + b)[k..] == a[k..] + b
  {
    FoundEarly(a, b, from);
  }

  lemma UnfinishedStep(s: string)
    requires FindCrlf(s, 0) < |s|
    ensures Unfinished(s) == Unfinished(s[FindCrlf(s, 0) + 2..])
  {
  }

  lemma {:induction false} LinesJoin(a: string, b: string)
    ensures Lines(a + b) == Lines(a) + Lines(Unfinished(a) + b)
    ensures Unfinished(a + b) == Unfinished(Unfinished(a) + b)
    decreases |a|
  {
    var i := FindCrlf(a, 0);
    if i == |a| {
      assert [] + Lines(a + b) == Lines(a + b);
    } else {
      var rest := a[i + 2..];
      FoundSlices(a, b, 0);
      LinesStep(a + b);
      LinesStep(a);
      UnfinishedStep(a + b);
      UnfinishedStep(a);
      LinesJoin(rest, b);
      Reassociate([a[..i + 2]], Lines(rest), Lines(Unfinished(rest) + b));
    }
  }

  lemma {:induction false} FoundEarly(a: string, b: string, from: nat)
    requires FindCrlf(a, from) < |a|
    ensures FindCrlf(a + b, from) == FindCrlf(a, from)
    decreases |a| - from
  {
    if !CrlfAt(a, from) {
      FoundEarly(a, b, from + 1);
    }
  }

  // ---- All reads ----

  lemma ReadIsFramed<S>(h: Handler<S>, c: Conn<S>, bytes: string)
    requires Framed(c) && !h.quit(c.st)
    ensures var c' := Receive(h, c, bytes);
            if Missed(h, c, bytes) then c'.lines != Lines(c'.received) else Framed(c')
  {
    LinesJoin(c.received, bytes);
    ScanIsSplit(h, c.st, c.unread + bytes, 0);
    var more, all := ScanFrom(h, c.st, c.unread + bytes, 0).lines, Lines(c.unread + bytes);
    assert c.lines + more == c.lines + all ==> more == all by {
      assert (c.lines + more)[|c.lines|..] == more && (c.lines + all)[|c.lines|..] == all;
    }
  }

  lemma ReceivesNext<S>(h: Handler<S>, parts: seq<string>, k: nat)
    requires k < |parts|
    ensures Receives(h, parts[..k + 1]) == Receive(h, Receives(h, parts[..k]), parts[k])
  {
    assert parts[..k + 1][..k] == parts[..k];
  }

  lemma {:induction false} FramedSoFar<S>(h: Handler<S>, parts: seq<string>, k: nat)
    requires k <= |parts|
    requires forall j :: 0 <= j < k ==> !Missed(h, Receives(h, parts[..j]), parts[j])
    ensures Framed(Receives(h, parts[..k]))
  {
    if k > 0 {
      var c := Receives(h, parts[..k - 1]);
      FramedSoFar(h, parts, k - 1);
      ReceivesNext(h, parts, k - 1);
      if !h.quit(c.st) { ReadIsFramed(h, c, parts[k - 1]); }
    }
  }

  lemma {:induction false} NoneMissedSoFar<S>(h: Handler<S>, parts: seq<string>, k: nat)
    requires k <= |parts| && forall j :: 0 <= j <= k ==> Framed(Receives(h, parts[..j]))
    ensures forall j :: 0 <= j < k ==> !Missed(h, Receives(h, parts[..j]), parts[j])
  {
    if k > 0 {
      var c := Receives(h, parts[..k - 1]);
      NoneMissedSoFar(h, parts, k - 1);
      ReceivesNext(h, parts, k - 1);
      if Missed(h, c, parts[k - 1]) { ReadIsFramed(h, c, parts[k - 1]); }
    }
  }

  /** After each read the lines extracted are the lines of what was received, exactly when no read holds a command
      line with an empty line directly behind it. */
  lemma FramingIsExact<S>(h: Handler<S>, parts: seq<string>)
    ensures (forall k :: 0 <= k <= |parts| ==> Framed(Receives(h, parts[..k]))) <==>
            (forall k :: 0 <= k < |parts| ==> !Missed(h, Receives(h, parts[..k]), parts[k]))
  {
    if forall k :: 0 <= k < |parts| ==> !Missed(h, Receives(h, parts[..k]), parts[k]) {
      forall k | 0 <= k <= |parts| ensures Framed(Receives(h, parts[..k])) { FramedSoFar(h, parts, k); }
    }
    if forall k :: 0 <= k <= |parts| ==> Framed(Receives(h, parts[..k])) {
      NoneMissedSoFar(h, parts, |parts|);
    }
  }

  // ---- All cuts ----

  lemma {:induction false} MissesGrow<S>(h: Handler<S>, st: S, s: string, t: string, from: nat)
    requires Misses(h, st, s, from)
    ensures Misses(h, st, s + t, from)
    decreases |s|
  {
    var i := FindCrlf(s, from);
    FoundEarly(s, t, from);
    var rest := s[i + 2..];
    assert (s + t)[..i + 2] == s[..i + 2] && (s + t)[i + 2..] == rest + t;
    if !(!h.inData(st) && CrlfAt(rest, 0)) {
      MissesGrow(h, h.step(st, s[..i + 2]), rest, t, if h.inData(st) then 0 else 1);
    }
  }

  lemma SkipMissesNothing<S>(h: Handler<S>, st: S, s: string)
    requires !CrlfAt(s, 0)
    ensures Misses(h, st, s, 1) == Misses(h, st, s, 0)
  {
    SkipIsHarmless(s);
  }

  /** Whether an empty line is missed shows at the first line end, or in what is left to scan behind it. */
  lemma MissesStep<S>(h: Handler<S>, st: S, s: string, from: nat)
    requires FindCrlf(s, from) < |s|
    ensures var k := FindCrlf(s, from) + 2;
            Misses(h, st, s, from) ==
            ((!h.inData(st) && CrlfAt(s[k..], 0)) ||
             Misses(h, h.step(st, s[..k]), s[k..], if h.inData(st) then 0 else 1))
  {
  }

  /** What is not missed in one read is not missed in the rest of it either. */
  lemma {:induction false} MissesLater<S>(h: Handler<S>, st: S, a: string, b: string, from: nat)
    requires from == 0 || (from == 1 && !CrlfAt(a + b, 0))
    requires !Misses(h, st, a + b, from)
    ensures var scan := ScanFrom(h, st, a, from); !Misses(h, scan.st, scan.rest + b, 0)
    decreases |a|
  {
    var i := FindCrlf(a, from);
    if i == |a| {
      if from == 1 { SkipMissesNothing(h, st, a + b); }
    } else {
      FoundSlices(a, b, from);
      MissesStep(h, st, a + b, from);
      ScanStep(h, st, a, from);
      MissesLater(h, h.step(st, a[..i + 2]), a[i + 2..], b, if h.inData(st) then 0 else 1);
    }
  }

  lemma {:induction false} AnyCutIsFramed<S>(h: Handler<S>, parts: seq<string>, rest: string)
    requires !Misses(h, h.start, Concat(parts) + rest, 0)
    ensures var c := Receives(h, parts);
            Framed(c) && (!h.quit(c.st) ==> !Misses(h, c.st, c.unread + rest, 0))
  {
    if parts == [] {
      assert "" + rest == rest;
    } else {
      var front, bytes := parts[..|parts| - 1], parts[|parts| - 1];
      var c := Receives(h, front);
      Reassociate(Concat(front), bytes, rest);
      AnyCutIsFramed(h, front, bytes + rest);
      if !h.quit(c.st) {
        Reassociate(c.unread, bytes, rest);
        if Misses(h, c.st, c.unread + bytes, 0) {
          MissesGrow(h, c.st, c.unread + bytes, rest, 0);
        }
        ReadIsFramed(h, c, bytes);
        MissesLater(h, c.st, c.unread + bytes, rest, 0);
      }
    }
  }

  lemma WholeIsNotFramed<S>(h: Handler<S>, stream: string)
    requires Misses(h, h.start, stream, 0) && !h.quit(h.start)
    ensures Concat([stream]) == stream && !Framed(Receives(h, [stream]))
  {
    var c := Conn(h.start, [], "", "");
    assert [stream][..0] == [];
    ConcatOne(stream);
    assert "" + stream == stream;
    ReadIsFramed(h, c, stream);
  }

  /** A command line that is directly followed by an empty line, received in one read: the empty line is missed. */
  lemma EmptyLineIsMissed<S>(h: Handler<S>, line: string, more: string)
    requires !h.quit(h.start) && !h.inData(h.start) && OneLine(line)
    ensures !Framed(Receives(h, [line + "\r\n" + ("\r\n" + more)]))
  {
    var stream := line + "\r\n" + ("\r\n" + more);
    FirstEnd(line, "\r\n" + more);
    assert CrlfAt(stream[|line| + 2..], 0);
    WholeIsNotFramed(h, stream);
  }

  /** Every way of cutting a stream into reads gives its lines exactly when no command line of it is directly
      followed by an empty line. */
  lemma CutsDoNotMatter<S>(h: Handler<S>, stream: string)
    requires !h.quit(h.start)
    ensures (forall parts :: Concat(parts) == stream ==> Framed(Receives(h, parts))) <==>
            !Misses(h, h.start, stream, 0)
  {
    if Misses(h, h.start, stream, 0) {
      WholeIsNotFramed(h, stream);
    } else {
      forall parts | Concat(parts) == stream ensures Framed(Receives(h, parts)) {
        assert stream + "" == stream;
        AnyCutIsFramed(h, parts, "");
      }
    }
  }

  /** The session's state depends on the lines alone. */
  lemma ProcessNext<S>(h: Handler<S>, s0: S, before: seq<string>, line: string)
    ensures StepAll(h, s0, before + [line]) == h.step(StepAll(h, s0, before), line)
  {
    assert (before + [line])[..|before|] == before;
  }

  lemma {:induction false} ScanProcesses<S>(h: Handler<S>, s0: S, before: seq<string>, s: string, from: nat)
    ensures var scan := ScanFrom(h, StepAll(h, s0, before), s, from);
            scan.st == StepAll(h, s0, before + scan.lines)
    decreases |s|
  {
    var i, st := FindCrlf(s, from), StepAll(h, s0, before);
    if i == |s| {
      assert before + [] == before;
    } else {
      var line, skip := s[..i + 2], if h.inData(st) then 0 else 1;
      ScanStep(h, st, s, from);
      ProcessNext(h, s0, before, line);
      ScanProcesses(h, s0, before + [line], s[i + 2..], skip);
      Reassociate(before, [line], ScanFrom(h, h.step(st, line), s[i + 2..], skip).lines);
    }
  }

  /** Every state a connection reaches is that of processing the lines extracted from it. */
  lemma {:induction false} ConnectionProcesses<S>(h: Handler<S>, parts: seq<string>)
    ensures var c := Receives(h, parts); c.st == StepAll(h, h.start, c.lines)
  {
    if parts != [] {
      var c := Receives(h, parts[..|parts| - 1]);
      ConnectionProcesses(h, parts[..|parts| - 1]);
      if !h.quit(c.st) {
        ScanProcesses(h, h.start, c.lines, c.unread + parts[|parts| - 1], 0);
      }
    }
  }

  // ---- The scan, position by position ----

  /** How far a scan has got: the lines it has found, the text it is left with, and the position in it. */
  datatype Spot<S> = Spot(st: S, lines: seq<string>, rest: string, from: nat)

  /** The line that ends at the position is taken off and handled: after a data line the scan goes on behind it, after
      a command line a byte further. */
  function LineTaken<S>(h: Handler<S>, p: Spot<S>): Spot<S>
    requires CrlfAt(p.rest, p.from)
  {
    var line := p.rest[..p.from + 2];
    Spot(h.step(p.st, line), p.lines + [line], p.rest[p.from + 2..], if h.inData(p.st) then 0 else 1)
  }

  /** One move of the scan. */
  function Onward<S>(h: Handler<S>, p: Spot<S>): Spot<S> {
    if CrlfAt(p.rest, p.from) then LineTaken(h, p) else p.(from := p.from + 1)
  }

  /** What the scan will have found in the end. */
  function Ends<S>(h: Handler<S>, p: Spot<S>): Scan<S> {
    var next := ScanFrom(h, p.st, p.rest, p.from);
    next.(lines := p.lines + next.lines)
  }

  lemma ScanHere<S>(h: Handler<S>, st: S, s: string, from: nat)
    requires CrlfAt(s, from)
    ensures var next := ScanFrom(h, h.step(st, s[..from + 2]), s[from + 2..], if h.inData(st) then 0 else 1);
            ScanFrom(h, st, s, from) == next.(lines := [s[..from + 2]] + next.lines)
  {
    assert FindCrlf(s, from) == from;
    ScanStep(h, st, s, from);
  }

  lemma LineEnds<S>(h: Handler<S>, p: Spot<S>)
    requires CrlfAt(p.rest, p.from)
    ensures Ends(h, LineTaken(h, p)) == Ends(h, p)
  {
    ScanHere(h, p.st, p.rest, p.from);
    var q := LineTaken(h, p);
    Reassociate(p.lines, [p.rest[..p.from + 2]], ScanFrom(h, q.st, q.rest, q.from).lines);
  }

  /** No move changes what the scan will have found. */
  lemma OnwardEnds<S>(h: Handler<S>, p: Spot<S>)
    requires p.from < |p.rest|
    ensures Ends(h, Onward(h, p)) == Ends(h, p)
  {
    if CrlfAt(p.rest, p.from) {
      LineEnds(h, p);
    } else {
      assert FindCrlf(p.rest, p.from + 1) == FindCrlf(p.rest, p.from);
    }
  }

  lemma AllScanned<S>(h: Handler<S>, p: Spot<S>)
    requires p.from >= |p.rest|
    ensures Ends(h, p) == Scan(p.st, p.lines, p.rest)
  {
    RightEmpty(p.lines);
  }
}
