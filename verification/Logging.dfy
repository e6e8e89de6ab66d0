/** The log of executed commands and the counter file beside it. */
module Logging {
  import opened Sequences
  import opened Text
  import opened KeyValue
  import opened WriteAheadLog

  const INT_LIMIT: int := 0x8000_0000
  const LONG_LIMIT: int := 0x8000_0000_0000_0000
  const ULLONG_LIMIT: int := 0x1_0000_0000_0000_0000

  // ---- The counter file ----

  /** Truncation of a long to a 32-bit int. */
  function ToInt(n: int): int {
    (n + INT_LIMIT) % (2 * INT_LIMIT) - INT_LIMIT
  }

  /** `atoi`: the numeral read as a long, saturating, then truncated to an int. */
  function Atoi(text: string): int
    requires AllDigits(text)
  {
    ToInt(if Value(text) < LONG_LIMIT then Value(text) else LONG_LIMIT - 1)
  }

  /** What is in a file after `text` is written over its beginning, without truncation. */
  function Overwritten(contents: string, text: string): (s: string)
    ensures AllDigits(contents) && AllDigits(text) ==> AllDigits(s)
  {
    text + After(contents, |text|)
  }

  /** The counter file after one more entry; the parsed int is widened to an unsigned 64-bit counter. */
  function Bumped(contents: string): (s: string)
    requires AllDigits(contents)
    ensures AllDigits(s) && s != ""
  {
    Overwritten(contents, Decimal((Atoi(contents) % ULLONG_LIMIT + 1) % ULLONG_LIMIT))
  }

  lemma CounterParses(n: nat)
    ensures Atoi(Decimal(n)) == n <==> n < 0x8000_0000
  {
    DecimalRoundTrip(n);
  }

  lemma LastDigit(n: nat)
    ensures Decimal(n)[|Decimal(n)| - 1] == Digit(n % 10)
  {
  }

  /** The incremented value that is printed back when the file holds n. */
  function Successor(n: nat): nat {
    (ToInt(if n < LONG_LIMIT then n else LONG_LIMIT - 1) % ULLONG_LIMIT + 1) % ULLONG_LIMIT
  }

  lemma SuccessorIsNext(n: nat)
    ensures Successor(n) == n + 1 <==> n < INT_LIMIT
  {
    var m := if n < LONG_LIMIT then n else LONG_LIMIT - 1;
    var k := ToInt(m);
    assert -INT_LIMIT <= k < INT_LIMIT;
    if n < INT_LIMIT {
      assert k == n;
    } else if k < 0 {
      assert k % ULLONG_LIMIT == k + ULLONG_LIMIT;
    } else {
      assert k % ULLONG_LIMIT == k;
    }
  }

  lemma OverwritingDiffers(n: nat, k: nat)
    ensures Overwritten(Decimal(n), Decimal(k)) == Decimal(n + 1) ==> k == n + 1
  {
    var s := Overwritten(Decimal(n), Decimal(k));
    if s == Decimal(n + 1) {
      if |Decimal(k)| < |Decimal(n)| {
        assert s[|s| - 1] == Decimal(n)[|Decimal(n)| - 1];
        LastDigit(n);
        LastDigit(n + 1);
        assert false;
      } else {
        assert s == Decimal(k);
        DecimalInjective(k, n + 1);
      }
    }
  }

  lemma BumpedIs(n: nat)
    ensures Bumped(Decimal(n)) == Overwritten(Decimal(n), Decimal(Successor(n)))
  {
    DecimalRoundTrip(n);
    assert Successor(n) == (Atoi(Decimal(n)) % ULLONG_LIMIT + 1) % ULLONG_LIMIT;
  }

  lemma OverwritingNext(n: nat)
    ensures Overwritten(Decimal(n), Decimal(n + 1)) == Decimal(n + 1)
  {
    DecimalGrows(n, n + 1);
  }

  /** Rewriting the counter in place leaves exactly the next numeral, precisely below atoi's bound. */
  lemma CounterAdvances(n: nat)
    ensures Bumped(Decimal(n)) == Decimal(n + 1) <==> n < INT_LIMIT
  {
    BumpedIs(n);
    SuccessorIsNext(n);
    if n < INT_LIMIT {
      OverwritingNext(n);
    } else {
      OverwritingDiffers(n, Successor(n));
    }
  }

  lemma ShippedNext(entries: seq<Command>, from: nat, i: nat)
    requires from < i <= |entries|
    ensures var c := entries[i - 1];
            Shipped(entries[from..i]) == Shipped(entries[from..i - 1]) + if Transferable(c) then [c] else []
  {
    assert entries[from..i][..i - 1 - from] == entries[from..i - 1];
  }

  /** What has been sent when the loop of transfer_log is at the i-th entry. */
  function SentBefore(entries: seq<Command>, have: nat, i: nat): seq<Command>
    requires i <= |entries|
  {
    if i <= have then [] else Shipped(entries[have..i])
  }

  lemma SentNext(entries: seq<Command>, have: nat, i: nat)
    requires i < |entries|
    ensures SentBefore(entries, have, i + 1) ==
            SentBefore(entries, have, i) + if i >= have && Transferable(entries[i]) then [entries[i]] else []
  {
    if i >= have {
      ShippedNext(entries, have, i + 1);
      assert entries[have..have] == [];
    }
    RightEmpty(SentBefore(entries, have, i));
  }

  lemma SentAll(entries: seq<Command>, have: nat)
    ensures SentBefore(entries, have, |entries|) == Shipped(entries[if have <= |entries| then have else |entries|..])
  {
    if have < |entries| { assert entries[have..|entries|] == entries[have..]; }
  }

  class LogFile {
    var entries: seq<Command>
    var counter: string

    /** The log and the counter start out empty and at 0. */
    constructor ()
      ensures entries == [] && counter == Decimal(0) && Counted()
    {
      entries := [];
      counter := "0";
    }

    predicate Readable()
      reads this
    {
      AllDigits(counter) && counter != ""
    }

    /** The counter file holds the number of entries, and atoi can read it. */
    ghost predicate Counted()
      reads this
    {
      counter == Decimal(|entries|) && |entries| < INT_LIMIT
    }

    method GetLogSequenceNo() returns (n: int)
      requires AllDigits(counter)
      ensures n == if counter == "" then -1 else Atoi(counter)
      ensures Counted() ==> n == |entries|
    {
      CounterParses(|entries|);
      if counter != "" {
        return Atoi(counter);
      } else {
        return -1;
      }
    }

    method AddLogEntry(c: Command)
      requires Readable()
      modifies this
      ensures Readable() && entries == old(entries) + [c] && counter == Bumped(old(counter))
      ensures old(Counted()) && |entries| < INT_LIMIT ==> Counted()
    {
      CounterAdvances(|entries|);
      entries := entries + [c];
      var sequenceNo := (Atoi(counter) % ULLONG_LIMIT + 1) % ULLONG_LIMIT;
      counter := Overwritten(counter, Decimal(sequenceNo));
    }

    /** The entries a replica that holds the first `have` is sent. */
    method TransferLog(have: nat) returns (sent: seq<Command>)
      requires Counted()
      ensures sent == Shipped(entries[if have <= |entries| then have else |entries|..])
      ensures forall c :: c in sent <==>
                (exists k :: have <= k < |entries| && entries[k] == c) &&
                (c.AddUser? || c.PutMail? || c.DelMail? || c.PutFile? || c.MkFolder? || c.DelFolder?)
    {
      var sequenceNo := GetLogSequenceNo();
      sent := [];
      var i := 0;
      while i < sequenceNo
        invariant 0 <= i <= sequenceNo == |entries|
        invariant sent == SentBefore(entries, have, i)
      {
        var c := entries[i];
        SentNext(entries, have, i);
        i := i + 1;
        if i > have {
          match c {
            case ChangePassword(_, _, _) =>
            case DeleteUser(_) =>
            case DelFile(_, _, _) =>
            case _ => sent := sent + [c];
          }
        }
      }
      SentAll(entries, have);
      SentMembers(entries[if have <= |entries| then have else |entries|..]);
    }
  }
}
