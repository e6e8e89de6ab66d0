/** Splitting an HTTP request into header lines and body. */
module HeaderSplit {
  import opened Wrappers
  import opened Sequences
  import opened Text

  datatype Parts = Parts(headers: seq<string>, body: string)

  /** The first blank line: the position of two line ends in a row. */
  predicate BlankAt(s: string, i: nat) {
    CrlfAt(s, i) && CrlfAt(s, i + 2)
  }

  function FindBlank(s: string, from: nat): (i: nat)
    ensures i == |s| || (from <= i && BlankAt(s, i))
    ensures forall j :: from <= j < i ==> !BlankAt(s, j)
    decreases |s| - from
  {
    if from >= |s| then |s| else if BlankAt(s, from) then from else FindBlank(s, from + 1)
  }

  /** Lines as they travel, each with its line end. */
  function Join(lines: seq<string>): string {
    if lines == [] then "" else lines[0] + "\r\n" + Join(lines[1..])
  }

  function Unsplit(parts: Parts): string {
    Join(parts.headers) + "\r\n" + parts.body
  }

  /** Lines without their line ends. */
  function Bare(lines: seq<string>): seq<string>
    requires forall k :: 0 <= k < |lines| ==> |lines[k]| >= 2
  {
    if lines == [] then [] else [lines[0][..|lines[0]| - 2]] + Bare(lines[1..])
  }

  function HeaderLines(s: string): seq<string> {
    Bare(Lines(s))
  }

  /** Without a blank line the program's `substr` throws. */
  function Split(input: string): Option<Parts> {
    var i := FindBlank(input, 0);
    if i == |input| then None else Some(Parts(HeaderLines(input[..i + 2]), input[i + 4..]))
  }

  // ---- The loop ----

  method Find(s: string) returns (i: nat)
    ensures i == FindCrlf(s, 0)
  {
    i := 0;
    while i < |s| && !CrlfAt(s, i)
      invariant i <= |s|
      invariant FindCrlf(s, 0) == FindCrlf(s, i)
    {
      i := i + 1;
    }
  }

  method FindEnd(s: string) returns (i: nat)
    ensures i == FindBlank(s, 0)
  {
    i := 0;
    while i < |s| && !BlankAt(s, i)
      invariant i <= |s|
      invariant FindBlank(s, 0) == FindBlank(s, i)
    {
      i := i + 1;
    }
  }

  /** The source's search in `remainingHeaders` always succeeds: what remains ends with a line end. */
  method SplitHeaderBody(input: string) returns (result: Option<Parts>)
    ensures result == Split(input)
  {
    var iEndHeaders := FindEnd(input);
    if iEndHeaders == |input| {
      return None;
    }
    var body := input[iEndHeaders + 4..];
    var remainingHeaders := input[..iEndHeaders + 2];
    ghost var headers := remainingHeaders;
    var headerList := [];
    while remainingHeaders != ""
      invariant remainingHeaders != "" ==> EndsLine(remainingHeaders)
      invariant HeaderLines(headers) == headerList + HeaderLines(remainingHeaders)
      decreases |remainingHeaders|
    {
      var iEndLine := Find(remainingHeaders);
      EndIsFound(remainingHeaders);
      HeaderStep(remainingHeaders);
      var line := remainingHeaders[..iEndLine];
      Reassociate(headerList, [line], HeaderLines(remainingHeaders[iEndLine + 2..]));
      remainingHeaders := remainingHeaders[iEndLine + 2..];
      headerList := headerList + [line];
    }
    assert headerList + [] == headerList;
    return Some(Parts(headerList, body));
  }

  predicate EndsLine(s: string) {
    |s| >= 2 && CrlfAt(s, |s| - 2)
  }

  lemma EndIsFound(s: string)
    requires EndsLine(s)
    ensures var i := FindCrlf(s, 0);
            i + 2 <= |s| && CrlfAt(s, i) && (i + 2 < |s| ==> EndsLine(s[i + 2..]))
  {
    var i := FindCrlf(s, 0);
    assert i <= |s| - 2;
    assert i != |s| - 1;
    if i + 2 < |s| {
      assert i + 2 != |s| - 1;
      assert CrlfAt(s[i + 2..], |s| - i - 4);
    }
  }

  // ---- Splitting and joining undo each other ----

  lemma FirstIsOneLine(s: string)
    ensures OneLine(s[..FindCrlf(s, 0)])
  {
    var i := FindCrlf(s, 0);
    forall j | 0 <= j < i ensures !CrlfAt(s[..i], j) { assert !CrlfAt(s, j); }
  }

  lemma BareFirst(line: string, rest: seq<string>)
    requires |line| >= 2 && forall k :: 0 <= k < |rest| ==> |rest[k]| >= 2
    ensures Bare([line] + rest) == [line[..|line| - 2]] + Bare(rest)
  {
    TailOf(line, rest);
  }

  lemma HeaderStep(s: string)
    requires FindCrlf(s, 0) < |s|
    ensures var i := FindCrlf(s, 0); HeaderLines(s) == [s[..i]] + HeaderLines(s[i + 2..])
  {
    var i := FindCrlf(s, 0);
    LinesStep(s);
    BareFirst(s[..i + 2], Lines(s[i + 2..]));
    TakeOfTake(s, i, i + 2);
  }

  predicate AllOneLine(lines: seq<string>) {
    forall k :: 0 <= k < |lines| ==> OneLine(lines[k])
  }

  lemma RejoinLine(s: string, i: nat, lines: seq<string>)
    requires CrlfAt(s, i) && Join(lines) == s[i + 2..]
    ensures Join([s[..i]] + lines) == s
  {
    assert ([s[..i]] + lines)[1..] == lines;
    assert s == s[..i] + "\r\n" + s[i + 2..];
  }

  lemma {:induction false} LinesJoin(s: string)
    requires s == "" || EndsLine(s)
    ensures Join(HeaderLines(s)) == s && AllOneLine(HeaderLines(s))
    decreases |s|
  {
    if s != "" {
      var i := FindCrlf(s, 0);
      EndIsFound(s);
      FirstIsOneLine(s);
      HeaderStep(s);
      LinesJoin(s[i + 2..]);
      RejoinLine(s, i, HeaderLines(s[i + 2..]));
    }
  }

  lemma HeadersEndLine(input: string, i: nat)
    requires BlankAt(input, i)
    ensures EndsLine(input[..i + 2]) && input == input[..i + 2] + "\r\n" + input[i + 4..]
  {
    assert input[..i + 2][i] == '\r' && input[..i + 2][i + 1] == '\n';
    assert input[i + 2..i + 4] == "\r\n";
  }

  /** Whatever is split can be put together again: the header lines with their line ends, one more line end, and the
      body are the input, and no header line contains a line end. */
  lemma SplitIsLossless(input: string)
    requires Split(input).Some?
    ensures Unsplit(Split(input).value) == input
    ensures AllOneLine(Split(input).value.headers)
  {
    var i := FindBlank(input, 0);
    HeadersEndLine(input, i);
    LinesJoin(input[..i + 2]);
  }

  /** The program throws exactly on inputs without a blank line. */
  lemma SplitNeedsBlankLine(input: string)
    ensures Split(input).Some? <==> exists i: nat :: BlankAt(input, i)
  {
    if i: nat :| BlankAt(input, i) {
      assert i < |input|;
    }
    assert FindBlank(input, 0) < |input| ==> BlankAt(input, FindBlank(input, 0));
  }

  lemma {:induction false} JoinLines(lines: seq<string>)
    requires AllOneLine(lines)
    ensures HeaderLines(Join(lines)) == lines
  {
    if lines != [] {
      FirstEnd(lines[0], Join(lines[1..]));
      HeaderStep(Join(lines));
      JoinLines(lines[1..]);
    } else {
      assert FindCrlf("", 0) == 0;
    }
  }

  lemma JoinRegroups(lines: seq<string>, body: string)
    requires lines != []
    ensures Join(lines) + "\r\n" + body == lines[0] + "\r\n" + (Join(lines[1..]) + "\r\n" + body)
    ensures |Join(lines)| == |lines[0]| + 2 + |Join(lines[1..])|
  {
  }

  /** No blank line starts inside the first line. */
  lemma FirstIsNotBlank(line: string, rest: string)
    requires OneLine(line)
    ensures var s := line + "\r\n" + rest;
            CrlfAt(s, |line|) && s[|line| + 2..] == rest && forall j :: 0 <= j < |line| ==> !BlankAt(s, j)
  {
    FirstEnd(line, rest);
  }

  lemma OneBlank(line: string, body: string)
    requires OneLine(line)
    ensures FindBlank(line + "\r\n" + ("\r\n" + body), 0) == |line|
  {
    var rest := "\r\n" + body;
    var s := line + "\r\n" + rest;
    FirstIsNotBlank(line, rest);
    assert CrlfAt(rest, 0);
    assert s[|line| + 2..][..2] == rest[..2];
    assert BlankAt(s, |line|);
  }

  lemma LaterBlank(line: string, rest: string)
    requires OneLine(line) && !CrlfAt(rest, 0) && FindBlank(rest, 0) < |rest|
    ensures FindBlank(line + "\r\n" + rest, 0) == |line| + 2 + FindBlank(rest, 0)
  {
    FirstIsNotBlank(line, rest);
    ShiftedBlank(line + "\r\n", rest);
  }

  /** No two line ends in a row before the one that closes non-empty lines. */
  lemma {:induction false} NoEarlierBlank(lines: seq<string>, body: string)
    requires lines != [] && AllOneLine(lines) && "" !in lines
    ensures FindBlank(Join(lines) + "\r\n" + body, 0) == |Join(lines)| - 2 && |Join(lines)| >= 2
  {
    var line, rest := lines[0], Join(lines[1..]) + "\r\n" + body;
    JoinRegroups(lines, body);
    if |lines| == 1 {
      assert rest == "\r\n" + body;
      OneBlank(line, body);
    } else {
      NoEarlierBlank(lines[1..], body);
      AfterFirst(line, lines[1..], body);
    }
  }

  /** The first line adds its length to where the blank line behind the others is. */
  lemma AfterFirst(line: string, lines: seq<string>, body: string)
    requires OneLine(line) && lines != [] && OneLine(lines[0]) && lines[0] != ""
    requires var rest := Join(lines) + "\r\n" + body; FindBlank(rest, 0) < |rest|
    ensures var rest := Join(lines) + "\r\n" + body;
            FindBlank(line + "\r\n" + rest, 0) == |line| + 2 + FindBlank(rest, 0)
  {
    StartsWithText(lines, "\r\n" + body);
    Reassociate(Join(lines), "\r\n", body);
    LaterBlank(line, Join(lines) + "\r\n" + body);
  }

  lemma StartsWithText(lines: seq<string>, more: string)
    requires lines != [] && OneLine(lines[0]) && lines[0] != ""
    ensures !CrlfAt(Join(lines) + more, 0)
  {
    var s := Join(lines) + more;
    assert s == lines[0] + "\r\n" + (Join(lines[1..]) + more);
    FirstEnd(lines[0], Join(lines[1..]) + more);
  }

  lemma FirstBlankIs(s: string, i: nat)
    requires BlankAt(s, i) && forall j :: 0 <= j < i ==> !BlankAt(s, j)
    ensures FindBlank(s, 0) == i
  {
  }

  lemma ShiftedCrlf(prefix: string, rest: string, j: nat)
    ensures CrlfAt(prefix + rest, |prefix| + j) == CrlfAt(rest, j)
  {
  }

  lemma ShiftedBlankAt(prefix: string, rest: string, j: nat)
    ensures BlankAt(prefix + rest, |prefix| + j) == BlankAt(rest, j)
  {
    ShiftedCrlf(prefix, rest, j);
    ShiftedCrlf(prefix, rest, j + 2);
  }

  /** No blank line starts in the last two characters of a line when the next line is not empty. */
  lemma NoBlankAtEnd(prefix: string, rest: string)
    requires |prefix| >= 2 && CrlfAt(prefix, |prefix| - 2) && !CrlfAt(rest, 0)
    ensures !BlankAt(prefix + rest, |prefix| - 2) && !BlankAt(prefix + rest, |prefix| - 1)
  {
    ShiftedCrlf(prefix, rest, 0);
    assert (prefix + rest)[|prefix| - 1] == prefix[|prefix| - 1] == '\n';
  }

  /** A blank line found after a prefix that holds none. */
  lemma ShiftedBlank(prefix: string, rest: string)
    requires |prefix| >= 2 && CrlfAt(prefix, |prefix| - 2) && !CrlfAt(rest, 0)
    requires forall j :: 0 <= j < |prefix| - 2 ==> !BlankAt(prefix + rest, j)
    requires FindBlank(rest, 0) < |rest|
    ensures FindBlank(prefix + rest, 0) == |prefix| + FindBlank(rest, 0)
  {
    var i := FindBlank(rest, 0);
    NoBlankAtEnd(prefix, rest);
    ShiftedBlankAt(prefix, rest, i);
    forall j | 0 <= j < |prefix| + i ensures !BlankAt(prefix + rest, j) {
      if j >= |prefix| { ShiftedBlankAt(prefix, rest, j - |prefix|); }
    }
    FirstBlankIs(prefix + rest, |prefix| + i);
  }

  /** Whatever is put together from non-empty one-line headers is split into them again. */
  lemma UnsplitSplits(parts: Parts)
    requires parts.headers != [] && AllOneLine(parts.headers) && "" !in parts.headers
    ensures Split(Unsplit(parts)) == Some(parts)
  {
    var s, headers := Unsplit(parts), Join(parts.headers);
    NoEarlierBlank(parts.headers, parts.body);
    JoinLines(parts.headers);
    assert s[..|headers|] == headers;
    assert s[|headers| + 2..] == parts.body;
  }
}
