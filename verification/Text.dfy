/** Text helpers shared by the storage back end: decimal counters, tokens and path splitting. */
module Text {

  // ---- Decimal numerals, as printed by `%lu` and `%llu` ----

  function Digit(d: nat): char
    requires d < 10
  {
    ('0' as int + d) as char
  }

  function Decimal(n: nat): (s: string)
    ensures |s| > 0
    ensures AllDigits(s)
  {
    if n < 10 then [Digit(n)] else Decimal(n / 10) + [Digit(n % 10)]
  }

  predicate AllDigits(s: string) {
    forall i :: 0 <= i < |s| ==> '0' <= s[i] <= '9'
  }

  /** The number a string of digits denotes, as `strtol` reads it. */
  function Value(s: string): nat
    requires AllDigits(s)
  {
    if s == "" then 0 else 10 * Value(s[..|s| - 1]) + (s[|s| - 1] as int - '0' as int)
  }

  lemma {:induction false} DecimalRoundTrip(n: nat)
    ensures Value(Decimal(n)) == n
  {
    if n >= 10 {
      var front := Decimal(n / 10);
      DecimalRoundTrip(n / 10);
      assert Decimal(n)[..|Decimal(n)| - 1] == front;
    }
  }

  /** Numerals never get shorter, which is why a counter may be rewritten in place. */
  lemma {:induction false} DecimalGrows(m: nat, n: nat)
    requires m <= n
    ensures |Decimal(m)| <= |Decimal(n)|
  {
    if m >= 10 {
      DecimalGrows(m / 10, n / 10);
    }
  }

  /** Distinct numbers have distinct numerals. */
  lemma DecimalInjective(m: nat, n: nat)
    requires Decimal(m) == Decimal(n)
    ensures m == n
  {
    DecimalRoundTrip(m);
    DecimalRoundTrip(n);
  }

  // ---- Tokens, as `strtok(s, " ")` finds the first one ----

  function SkipSpaces(s: string): string {
    if s != "" && s[0] == ' ' then SkipSpaces(s[1..]) else s
  }

  function UntilSpace(s: string): string {
    if s == "" || s[0] == ' ' then "" else [s[0]] + UntilSpace(s[1..])
  }

  function FirstToken(s: string): string {
    UntilSpace(SkipSpaces(s))
  }

  lemma {:induction false} TokenBeforeSpace(word: string, rest: string)
    requires ' ' !in word
    ensures UntilSpace(word + " " + rest) == word
  {
    var s := word + " " + rest;
    if word != "" {
      TokenBeforeSpace(word[1..], rest);
      assert s[1..] == word[1..] + " " + rest;
      assert s[0] == word[0];
    } else {
      assert s[0] == ' ';
    }
  }

  /** `s + k` on a C string, stopping at its end. */
  function After(s: string, k: nat): string {
    if k <= |s| then s[k..] else ""
  }

  // ---- Comparison that ignores case ----

  function Lower(c: char): char {
    if 'A' <= c <= 'Z' then (c as int - 'A' as int + 'a' as int) as char else c
  }

  /** `!strcasecmp(a, b)`. */
  predicate SameText(a: string, b: string) {
    |a| == |b| && forall i :: 0 <= i < |a| ==> Lower(a[i]) == Lower(b[i])
  }

  /** Two characters count as the same exactly when they are, or are the same letter in either case. */
  lemma CaseIsIgnored(c: char, d: char)
    ensures SameText([c], [d]) <==>
            || c == d
            || ('A' <= c <= 'Z' && d as int == c as int + 32)
            || ('A' <= d <= 'Z' && c as int == d as int + 32)
  {
    assert SameText([c], [d]) <==> Lower([c][0]) == Lower([d][0]);
  }

  // ---- Line ends ----

  predicate CrlfAt(s: string, i: nat) {
    i + 1 < |s| && s[i] == '\r' && s[i + 1] == '\n'
  }

  function FindCrlf(s: string, from: nat): (i: nat)
    ensures i == |s| || (from <= i && CrlfAt(s, i))
    ensures forall j :: from <= j < i ==> !CrlfAt(s, j)
    decreases |s| - from
  {
    if from >= |s| then |s| else if CrlfAt(s, from) then from else FindCrlf(s, from + 1)
  }

  predicate OneLine(s: string) {
    forall i :: 0 <= i < |s| ==> !CrlfAt(s, i)
  }

  lemma FirstEnd(line: string, rest: string)
    requires OneLine(line)
    ensures var s := line + "\r\n" + rest;
            FindCrlf(s, 0) == |line| && s[..|line|] == line && s[|line| + 2..] == rest
  {
    var s := line + "\r\n" + rest;
    assert CrlfAt(s, |line|);
    forall j | 0 <= j < |line| ensures !CrlfAt(s, j) {
      assert !CrlfAt(line, j);
    }
  }

  /** The lines of a text, each with its line end; what follows the last line end is not one. */
  function Lines(s: string): (ls: seq<string>)
    ensures forall k :: 0 <= k < |ls| ==> |ls[k]| >= 2
  {
    var i := FindCrlf(s, 0);
    if i == |s| then [] else [s[..i + 2]] + Lines(s[i + 2..])
  }

  lemma LinesStep(s: string)
    requires FindCrlf(s, 0) < |s|
    ensures var k := FindCrlf(s, 0) + 2; Lines(s) == [s[..k]] + Lines(s[k..])
  {
  }

  // ---- Pieces of text put together ----

  function Concat(lines: seq<string>): string {
    if lines == [] then "" else Concat(lines[..|lines| - 1]) + lines[|lines| - 1]
  }

  lemma ConcatGrows(lines: seq<string>, line: string)
    ensures Concat(lines + [line]) == Concat(lines) + line
  {
    assert (lines + [line])[..|lines + [line]| - 1] == lines;
  }

  lemma {:induction false} ConcatJoins(a: seq<string>, b: seq<string>)
    ensures Concat(a + b) == Concat(a) + Concat(b)
  {
    if b == [] {
      assert a + b == a;
    } else {
      ConcatJoins(a, b[..|b| - 1]);
      assert (a + b)[..|a + b| - 1] == a + b[..|b| - 1];
    }
  }

  lemma ConcatOne(line: string)
    ensures Concat([line]) == line
  {
    ConcatGrows([], line);
    assert [] + [line] == [line];
  }

  lemma ConcatHead(lines: seq<string>)
    requires lines != []
    ensures Concat(lines) == lines[0] + Concat(lines[1..])
  {
    assert [lines[0]] + lines[1..] == lines;
    ConcatJoins([lines[0]], lines[1..]);
    ConcatOne(lines[0]);
  }

  // ---- Paths ----

  /** The key of an entry, as `sprintf("%s/%s")` builds it. */
  function Path(dir: string, name: string): string {
    dir + "/" + name
  }

  predicate ValidName(name: string) {
    name != "" && '/' !in name
  }

  /** One past the last separator, or 0 when there is none. */
  function LastOf(s: string, seps: set<char>): (i: nat)
    ensures i <= |s|
    ensures i > 0 ==> s[i - 1] in seps
    ensures forall j :: i <= j < |s| ==> s[j] !in seps
  {
    if s == "" then 0
    else if s[|s| - 1] in seps then |s|
    else LastOf(s[..|s| - 1], seps)
  }

  function ParentOf(key: string): (p: string)
    requires '/' in key
    ensures |p| < |key| && p <= key
  {
    key[..LastOf(key, {'/'}) - 1]
  }

  function BaseOf(key: string): (b: string)
    requires '/' in key
    ensures '/' !in b
  {
    key[LastOf(key, {'/'})..]
  }

  lemma SplitJoin(key: string)
    requires '/' in key
    ensures key == Path(ParentOf(key), BaseOf(key))
  {
    var i := LastOf(key, {'/'});
    assert key == key[..i - 1] + [key[i - 1]] + key[i..];
  }

  lemma JoinSplit(dir: string, name: string)
    requires '/' !in name
    ensures '/' in Path(dir, name)
    ensures ParentOf(Path(dir, name)) == dir && BaseOf(Path(dir, name)) == name
  {
    var key := Path(dir, name);
    assert key[|dir|] == '/';
    forall j | |dir| < j < |key| ensures key[j] != '/' {
      assert key[j] == name[j - |dir| - 1];
    }
    assert LastOf(key, {'/'}) == |dir| + 1;
  }

  lemma PathInjective(d1: string, n1: string, d2: string, n2: string)
    requires '/' !in n1 && '/' !in n2
    requires Path(d1, n1) == Path(d2, n2)
    ensures d1 == d2 && n1 == n2
  {
    JoinSplit(d1, n1);
    JoinSplit(d2, n2);
  }
}
