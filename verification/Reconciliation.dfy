/** What a replica has logged against what the primary has, over any events: writes at both ends, and commits
    sequenced while a transfer is asked for. */
module Reconciliation {
  import opened Sequences
  import opened KeyValue
  import opened WriteAheadLog
  import opened Replication
  import opened Channels
  import opened Ordering
  import opened Barrier
  import opened OwnWrites
  import opened Journals
  import opened CatchUp
  import opened Convergence

  // ---- The two sides of the account ----

  /** The commands of a server's own writes that are pending, and of those on their way into the order. */
  function PendingCmds(s: System, r: nat): multiset<Command>
    requires Shape(s) && IsServer(s, r)
  {
    if s.nodes[r].pending.Some? then multiset{s.nodes[r].pending.value} else multiset{}
  }

  function PipeCmds(s: System, r: nat): multiset<Command>
    requires Shape(s) && IsServer(s, r)
  {
    multiset(Cmds(PipeOf(s, r)))
  }

  /** What the replica has executed, what is on its way to it, and what it or the primary has yet to add. */
  function ReplicaSide(s: System, i: nat): multiset<Command>
    requires Shape(s) && IsPeer(s, i)
  {
    multiset(s.nodes[i].log) + multiset(Payloads(s.down[i], i)) + PendingCmds(s, i) + PipeCmds(s, PRIMARY)
  }

  function PrimarySide(s: System, i: nat): multiset<Command>
    requires Shape(s) && IsPeer(s, i)
  {
    multiset(s.nodes[PRIMARY].log) + PendingCmds(s, PRIMARY) + PipeCmds(s, i)
  }

  /** What an event has the primary send the replica in answer to a transfer request. */
  function SentBy(s: System, ev: Event, i: nat): seq<Command>
    requires Shape(s) && IsPeer(s, i)
  {
    if ev.Sequence? && CanSequence(s) && s.sequencer.holdQueue[0].HeldTransfer? &&
       s.sequencer.holdQueue[0].requestor == i
    then Shipped(LogFrom(s.nodes[PRIMARY].log, s.sequencer.holdQueue[0].have))
    else []
  }

  /** Both sides grow by the same, but for what is sent in answer to a request. */
  ghost predicate Keeps(s: System, s': System, i: nat, sent: seq<Command>)
    requires Shape(s) && Shape(s') && IsPeer(s, i) && IsPeer(s', i)
  {
    ReplicaSide(s', i) + PrimarySide(s, i) == (ReplicaSide(s, i) + multiset(sent)) + PrimarySide(s', i)
  }

  lemma KeepsSame(s: System, s': System, i: nat)
    requires Shape(s) && Shape(s') && IsPeer(s, i) && IsPeer(s', i)
    requires ReplicaSide(s', i) == ReplicaSide(s, i) && PrimarySide(s', i) == PrimarySide(s, i)
    ensures Keeps(s, s', i, [])
  {
  }

  lemma KeepsBoth(s: System, s': System, i: nat, more: multiset<Command>)
    requires Shape(s) && Shape(s') && IsPeer(s, i) && IsPeer(s', i)
    requires ReplicaSide(s', i) == ReplicaSide(s, i) + more && PrimarySide(s', i) == PrimarySide(s, i) + more
    ensures Keeps(s, s', i, [])
  {
  }

  // ---- Steps ----

  lemma CmdsMore(es: seq<Entry>, e: Entry)
    ensures multiset(Cmds(es + [e])) == multiset(Cmds(es)) + multiset{e.cmd}
    ensures multiset(Cmds([e] + es)) == multiset(Cmds(es)) + multiset{e.cmd}
  {
    assert Cmds(es + [e]) == Cmds(es) + [e.cmd];
    assert Cmds([e] + es) == [e.cmd] + Cmds(es);
  }

  lemma PipeCmdsWrite(s: System, j: nat, c: Command, r: nat)
    requires Shape(s) && CanWrite(s, j) && IsServer(s, r) && s.up[PRIMARY] == []
    ensures PipeCmds(StepWrite(s, j, c), r) == PipeCmds(s, r) + if j == r then multiset{c} else multiset{}
    ensures PendingCmds(StepWrite(s, j, c), r) == PendingCmds(s, r) + if j == r then multiset{c} else multiset{}
  {
    WriteJoinsPipe(s, j, c, r);
    if j == r {
      CmdsMore(PipeOf(s, r), BeginWrite(s.nodes[j], j, c).1);
    } else {
      assert PipeOf(s, r) + [] == PipeOf(s, r);
    }
  }

  lemma ReplicaSideWrite(s: System, j: nat, c: Command, i: nat)
    requires Shape(s) && CanWrite(s, j) && IsPeer(s, i) && s.up[PRIMARY] == []
    ensures ReplicaSide(StepWrite(s, j, c), i) ==
            ReplicaSide(s, i) + if j == i || j == PRIMARY then multiset{c} else multiset{}
  {
    PipeCmdsWrite(s, j, c, i);
    PipeCmdsWrite(s, j, c, PRIMARY);
    WriteMoves(s, j, c, i);
  }

  lemma PrimarySideWrite(s: System, j: nat, c: Command, i: nat)
    requires Shape(s) && CanWrite(s, j) && IsPeer(s, i) && s.up[PRIMARY] == []
    ensures PrimarySide(StepWrite(s, j, c), i) ==
            PrimarySide(s, i) + if j == i || j == PRIMARY then multiset{c} else multiset{}
  {
    PipeCmdsWrite(s, j, c, i);
    PipeCmdsWrite(s, j, c, PRIMARY);
    WriteMoves(s, j, c, PRIMARY);
  }

  lemma KeepsWrite(s: System, j: nat, c: Command, i: nat)
    requires Shape(s) && CanWrite(s, j) && IsPeer(s, i) && s.up[PRIMARY] == []
    ensures Keeps(s, StepWrite(s, j, c), i, [])
  {
    ReplicaSideWrite(s, j, c, i);
    PrimarySideWrite(s, j, c, i);
    KeepsBoth(s, StepWrite(s, j, c), i, if j == i || j == PRIMARY then multiset{c} else multiset{});
  }

  lemma FinishMoves(s: System, j: nat, r: nat)
    requires Shape(s) && CanFinish(s, j) && IsServer(s, r)
    requires r == PRIMARY || !s.nodes[r].disabled
    ensures var s' := StepFinish(s, j);
            && multiset(s'.nodes[r].log) + PendingCmds(s', r) == multiset(s.nodes[r].log) + PendingCmds(s, r)
            && PipeOf(s', r) == PipeOf(s, r) && s'.down == s.down
  {
  }

  lemma KeepsFinish(s: System, j: nat, i: nat)
    requires Shape(s) && CanFinish(s, j) && IsPeer(s, i) && !s.nodes[i].disabled
    ensures Keeps(s, StepFinish(s, j), i, [])
  {
    FinishMoves(s, j, i);
    FinishMoves(s, j, PRIMARY);
    KeepsSame(s, StepFinish(s, j), i);
  }

  lemma KeepsToPrimary(s: System, j: nat, i: nat)
    requires Shape(s) && PipeInv(s) && CanDeliverUp(s, j) && IsPeer(s, i)
    ensures Keeps(s, StepToPrimary(s, j), i, [])
  {
    DeliveryKeeps(s, j, i);
    DeliveryKeeps(s, j, PRIMARY);
    DeliveryKeepsPipes(s, j, i);
    DeliveryKeepsPipes(s, j, PRIMARY);
    DeliveryKeepsPayloads(s, j, i);
    DeliveryKeepsPending(s, j, i);
    DeliveryKeepsPending(s, j, PRIMARY);
    KeepsSame(s, StepToPrimary(s, j), i);
  }

  lemma ReceiptAdds(s: System, i: nat)
    requires Shape(s) && CanDeliverDown(s, i) && !s.nodes[i].disabled
    ensures var s' := StepToPeer(s, i);
            && multiset(s'.nodes[i].log) + multiset(Payloads(s'.down[i], i)) ==
               multiset(s.nodes[i].log) + multiset(Payloads(s.down[i], i))
            && PendingCmds(s', i) == PendingCmds(s, i) && PipeOf(s', i) == PipeOf(s, i)
  {
    ReceiptForOwn(s, i);
    ReceiptMoves(s, i);
    ReceiptExecutes(s.nodes[i], i, s.down[i][0]);
    PayloadsHead(s.down[i], i);
  }

  lemma ReceiptSpares(s: System, j: nat, r: nat)
    requires Shape(s) && CanDeliverDown(s, j) && IsServer(s, r) && r != j
    ensures var s' := StepToPeer(s, j);
            && s'.nodes[r] == s.nodes[r] && s'.down[r] == s.down[r] && PipeOf(s', r) == PipeOf(s, r)
  {
    ReceiptElsewhere(s, j, r);
    ReceiptMoves(s, j);
  }

  lemma KeepsToPeer(s: System, j: nat, i: nat)
    requires Shape(s) && CanDeliverDown(s, j) && IsPeer(s, i) && !s.nodes[i].disabled
    ensures Keeps(s, StepToPeer(s, j), i, [])
  {
    ReceiptSpares(s, j, PRIMARY);
    if j == i { ReceiptAdds(s, i); } else { ReceiptSpares(s, j, i); }
    KeepsSame(s, StepToPeer(s, j), i);
  }

  lemma SequencePipes(s: System, e: Entry, r: nat)
    requires Shape(s) && CanSequence(s) && s.sequencer.holdQueue[0] == HeldWrite(e) && IsServer(s, r)
    ensures var s' := StepSequenceWrite(s, e);
            && PipeCmds(s, r) == PipeCmds(s', r) + (if e.requestor == r then multiset{e.cmd} else multiset{})
            && PendingCmds(s', r) == PendingCmds(s, r)
  {
    HeadLeavesPipe(s, e, r);
    SequencedNodes(s, e, r);
    var rest := PipeOf(StepSequenceWrite(s, e), r);
    assert rest == Pipe(s.sequencer.holdQueue[1..], s.up[r], r);
    CmdsMore(rest, e);
    assert [] + rest == rest;
  }

  lemma SequenceLogs(s: System, e: Entry, i: nat)
    requires Shape(s) && CanSequence(s) && IsPeer(s, i)
    ensures var s' := StepSequenceWrite(s, e);
            && s'.nodes[PRIMARY].log == s.nodes[PRIMARY].log + (if e.requestor != PRIMARY then [e.cmd] else [])
            && s'.nodes[i].log == s.nodes[i].log
            && Payloads(s'.down[i], i) == Payloads(s.down[i], i) + (if e.requestor != i then [e.cmd] else [])
  {
    var s' := StepSequenceWrite(s, e);
    assert s'.down[i] == s.down[i] + Broadcasts(s.sequencer.stamp, e);
    PayloadsConcat(s.down[i], Broadcasts(s.sequencer.stamp, e), i);
    BroadcastPayloads(s.sequencer.stamp, e, i);
    assert s.nodes[PRIMARY].log + [] == s.nodes[PRIMARY].log;
  }

  lemma LogMore(log: seq<Command>, c: Command)
    ensures multiset(log + [c]) == multiset(log) + multiset{c}
  {
  }

  lemma Shuffle<T>(a: multiset<T>, p: multiset<T>, q: multiset<T>, x: multiset<T>)
    ensures ((a + x) + p) + q == (a + p) + (q + x)
  {
  }

  /** A write of the replica's own leaves its pipeline for the primary's log. */
  lemma KeepsReplicas(s: System, e: Entry, i: nat)
    requires Shape(s) && CanSequence(s) && s.sequencer.holdQueue[0] == HeldWrite(e) && IsPeer(s, i)
    requires e.requestor == i
    ensures Keeps(s, StepSequenceWrite(s, e), i, [])
  {
    var s' := StepSequenceWrite(s, e);
    SequencePipes(s, e, i);
    SequencePipes(s, e, PRIMARY);
    SequenceLogs(s, e, i);
    assert Payloads(s'.down[i], i) == Payloads(s.down[i], i);
    assert ReplicaSide(s', i) == ReplicaSide(s, i);
    LogMore(s.nodes[PRIMARY].log, e.cmd);
    Shuffle(multiset(s.nodes[PRIMARY].log), PendingCmds(s, PRIMARY), PipeCmds(s', i), multiset{e.cmd});
    KeepsSame(s, s', i);
  }

  /** A write of the primary's own leaves its pipeline for the replica's channel. */
  lemma KeepsPrimarys(s: System, e: Entry, i: nat)
    requires Shape(s) && CanSequence(s) && s.sequencer.holdQueue[0] == HeldWrite(e) && IsPeer(s, i)
    requires e.requestor == PRIMARY
    ensures Keeps(s, StepSequenceWrite(s, e), i, [])
  {
    var s' := StepSequenceWrite(s, e);
    SequencePipes(s, e, i);
    SequencePipes(s, e, PRIMARY);
    SequenceLogs(s, e, i);
    assert s'.nodes[PRIMARY].log == s.nodes[PRIMARY].log;
    assert PrimarySide(s', i) == PrimarySide(s, i);
    assert multiset(Payloads(s'.down[i], i)) == multiset(Payloads(s.down[i], i)) + multiset{e.cmd};
    KeepsSame(s, s', i);
  }

  /** A third server's write is logged and put on the replica's channel. */
  lemma KeepsThirds(s: System, e: Entry, i: nat)
    requires Shape(s) && CanSequence(s) && s.sequencer.holdQueue[0] == HeldWrite(e) && IsPeer(s, i)
    requires e.requestor != PRIMARY && e.requestor != i
    ensures Keeps(s, StepSequenceWrite(s, e), i, [])
  {
    var s' := StepSequenceWrite(s, e);
    SequencePipes(s, e, i);
    SequencePipes(s, e, PRIMARY);
    SequenceLogs(s, e, i);
    assert multiset(s'.nodes[PRIMARY].log) == multiset(s.nodes[PRIMARY].log) + multiset{e.cmd};
    assert multiset(Payloads(s'.down[i], i)) == multiset(Payloads(s.down[i], i)) + multiset{e.cmd};
    KeepsBoth(s, s', i, multiset{e.cmd});
  }

  lemma TransferSides(s: System, q: nat, have: nat, i: nat)
    requires Shape(s) && CanSequence(s) && s.sequencer.holdQueue[0] == HeldTransfer(q, have) && IsPeer(s, i)
    ensures var s' := StepSequenceTransfer(s, q, have);
            && s'.nodes == s.nodes && PipeOf(s', i) == PipeOf(s, i) && PipeOf(s', PRIMARY) == PipeOf(s, PRIMARY)
            && Payloads(s'.down[i], i) == Payloads(s.down[i], i) + SentBy(s, Sequence, i)
  {
    TransferMoves(s, q, have, i);
    TransferLeavesWrites(s, q, have, i);
    TransferLeavesWrites(s, q, have, PRIMARY);
    if q == i {
      TransferCarries(s, have, i);
    } else {
      assert Payloads(s.down[i], i) + [] == Payloads(s.down[i], i);
    }
  }

  lemma KeepsTransfer(s: System, q: nat, have: nat, i: nat)
    requires Shape(s) && CanSequence(s) && s.sequencer.holdQueue[0] == HeldTransfer(q, have) && IsPeer(s, i)
    ensures Keeps(s, StepSequenceTransfer(s, q, have), i, SentBy(s, Sequence, i))
  {
    var s', sent := StepSequenceTransfer(s, q, have), SentBy(s, Sequence, i);
    TransferSides(s, q, have, i);
    assert multiset(Payloads(s'.down[i], i)) == multiset(Payloads(s.down[i], i)) + multiset(sent);
    assert PrimarySide(s', i) == PrimarySide(s, i);
    assert ReplicaSide(s', i) == ReplicaSide(s, i) + multiset(sent);
  }

  lemma KeepsSequenceWrite(s: System, e: Entry, i: nat)
    requires Shape(s) && CanSequence(s) && s.sequencer.holdQueue[0] == HeldWrite(e) && IsPeer(s, i)
    ensures Keeps(s, StepSequenceWrite(s, e), i, [])
  {
    if e.requestor == i {
      KeepsReplicas(s, e, i);
    } else if e.requestor == PRIMARY {
      KeepsPrimarys(s, e, i);
    } else {
      KeepsThirds(s, e, i);
    }
  }

  lemma KeepsSequence(s: System, i: nat)
    requires Shape(s) && CanSequence(s) && IsPeer(s, i)
    ensures Keeps(s, Step(s, Sequence), i, SentBy(s, Sequence, i))
  {
    var h := s.sequencer.holdQueue[0];
    SequenceIs(s);
    if h.HeldWrite? {
      KeepsSequenceWrite(s, h.entry, i);
    } else {
      KeepsTransfer(s, h.requestor, h.have, i);
    }
  }

  lemma KeepsTest(s: System, i: nat)
    requires Shape(s) && IsPeer(s, i)
    ensures Keeps(s, StepCheckpointTest(s), i, [])
  {
    TestLeavesWrites(s, i);
    TestLeavesStore(s, i);
    TestLeavesWrites(s, PRIMARY);
    TestLeavesStore(s, PRIMARY);
    CheckpointIsNoPayload(s.down[i], s.sequencer.stamp, i);
    KeepsSame(s, StepCheckpointTest(s), i);
  }

  lemma RestartPipe(s: System, j: nat, r: nat)
    requires Shape(s) && IsServer(s, j) && IsServer(s, r)
    ensures PipeOf(StepRestart(s, j), r) == PipeOf(s, r)
  {
    TransferIsNoWrite(s.up[j], j, |s.nodes[j].log|, r);
  }

  lemma KeepsRestart(s: System, j: nat, i: nat)
    requires Shape(s) && IsServer(s, j) && IsPeer(s, i)
    ensures Keeps(s, StepRestart(s, j), i, [])
  {
    RestartPipe(s, j, i);
    RestartPipe(s, j, PRIMARY);
    RestartSends(s, j, i);
    RestartSends(s, j, PRIMARY);
    KeepsSame(s, StepRestart(s, j), i);
  }

  lemma QuietMoves(s: System, ev: Event, r: nat)
    requires Shape(s) && IsServer(s, r) && (ev.EndBarrier? || ev.Disable? || !Enabled(s, ev))
    ensures var s' := Step(s, ev);
            && s'.down == s.down && s'.up == s.up && s'.sequencer.holdQueue == s.sequencer.holdQueue
            && s'.nodes[r].log == s.nodes[r].log && s'.nodes[r].pending == s.nodes[r].pending
  {
  }

  lemma KeepsQuiet(s: System, ev: Event, i: nat)
    requires Shape(s) && IsPeer(s, i) && (ev.EndBarrier? || ev.Disable? || !Enabled(s, ev))
    ensures Keeps(s, Step(s, ev), i, [])
  {
    QuietMoves(s, ev, i);
    QuietMoves(s, ev, PRIMARY);
    KeepsSame(s, Step(s, ev), i);
  }

  lemma KeepsWriteStep(s: System, j: nat, c: Command, i: nat)
    requires Shape(s) && CanWrite(s, j) && IsPeer(s, i) && s.up[PRIMARY] == []
    ensures Keeps(s, Step(s, Write(j, c)), i, [])
  {
    KeepsWrite(s, j, c, i);
    WriteIs(s, j, c);
  }

  lemma KeepsFinishStep(s: System, j: nat, i: nat)
    requires Shape(s) && CanFinish(s, j) && IsPeer(s, i) && !s.nodes[i].disabled
    ensures Keeps(s, Step(s, Finish(j)), i, [])
  {
    KeepsFinish(s, j, i);
    FinishIs(s, j);
  }

  lemma KeepsToPrimaryStep(s: System, j: nat, i: nat)
    requires Shape(s) && PipeInv(s) && CanDeliverUp(s, j) && IsPeer(s, i)
    ensures Keeps(s, Step(s, ToPrimary(j)), i, [])
  {
    KeepsToPrimary(s, j, i);
    ToPrimaryIs(s, j);
  }

  lemma KeepsToPeerStep(s: System, j: nat, i: nat)
    requires Shape(s) && CanDeliverDown(s, j) && IsPeer(s, i) && !s.nodes[i].disabled
    ensures Keeps(s, Step(s, ToPeer(j)), i, [])
  {
    KeepsToPeer(s, j, i);
    ToPeerIs(s, j);
  }

  lemma KeepsTestStep(s: System, i: nat)
    requires Shape(s) && IsPeer(s, i) && Enabled(s, CheckpointTest)
    ensures Keeps(s, Step(s, CheckpointTest), i, [])
  {
    KeepsTest(s, i);
  }

  lemma KeepsRestartStep(s: System, j: nat, i: nat)
    requires Shape(s) && IsServer(s, j) && s.nodes[j].disabled && IsPeer(s, i)
    ensures Keeps(s, Step(s, Restart(j)), i, [])
  {
    KeepsRestart(s, j, i);
    RestartIs(s, j);
  }

  lemma NothingSent(s: System, ev: Event, i: nat)
    requires Shape(s) && IsPeer(s, i) && !ev.Sequence?
    ensures SentBy(s, ev, i) == []
  {
  }

  lemma KeepsOthers(s: System, ev: Event, i: nat)
    requires Shape(s) && PipeInv(s) && IsPeer(s, i) && !s.nodes[i].disabled && !ev.Sequence?
    ensures Keeps(s, Step(s, ev), i, [])
  {
    if !Enabled(s, ev) || ev.EndBarrier? || ev.Disable? {
      KeepsQuiet(s, ev, i);
    } else {
      match ev {
        case Write(j, c) => KeepsWriteStep(s, j, c, i);
        case Finish(j) => KeepsFinishStep(s, j, i);
        case ToPrimary(j) => KeepsToPrimaryStep(s, j, i);
        case ToPeer(j) => KeepsToPeerStep(s, j, i);
        case CheckpointTest => KeepsTestStep(s, i);
        case Restart(j) => KeepsRestartStep(s, j, i);
      }
    }
  }

  lemma KeepsSteps(s: System, ev: Event, i: nat)
    requires Shape(s) && PipeInv(s) && IsPeer(s, i) && !s.nodes[i].disabled
    ensures Keeps(s, Step(s, ev), i, SentBy(s, ev, i))
  {
    if ev.Sequence? && Enabled(s, ev) {
      KeepsSequence(s, i);
    } else if ev.Sequence? {
      KeepsQuiet(s, ev, i);
    } else {
      NothingSent(s, ev, i);
      KeepsOthers(s, ev, i);
    }
  }

  // ---- Whole runs ----

  /** The replica is not disabled. */
  predicate StaysUp(evs: seq<Event>, i: nat) {
    Disable(i) !in evs
  }

  /** All that is sent in answer to the replica's requests. */
  function Sent(s: System, evs: seq<Event>, i: nat): seq<Command>
    requires Shape(s) && IsPeer(s, i)
  {
    if evs == [] then []
    else Sent(s, evs[..|evs| - 1], i) + SentBy(Continue(s, evs[..|evs| - 1]), evs[|evs| - 1], i)
  }

  lemma KeepsOn(s: System, s1: System, s2: System, i: nat, first: seq<Command>, more: seq<Command>)
    requires Shape(s) && Shape(s1) && Shape(s2) && IsPeer(s, i) && IsPeer(s1, i) && IsPeer(s2, i)
    requires Keeps(s, s1, i, first) && Keeps(s1, s2, i, more)
    ensures Keeps(s, s2, i, first + more)
  {
    AddUp(ReplicaSide(s, i), PrimarySide(s, i), ReplicaSide(s1, i), PrimarySide(s1, i), ReplicaSide(s2, i),
          PrimarySide(s2, i), multiset(first), multiset(more));
    assert multiset(first + more) == multiset(first) + multiset(more);
  }

  lemma AddUp<T>(a: multiset<T>, b: multiset<T>, a1: multiset<T>, b1: multiset<T>, a2: multiset<T>, b2: multiset<T>,
                 x: multiset<T>, y: multiset<T>)
    requires a1 + b == (a + x) + b1 && a2 + b1 == (a1 + y) + b2
    ensures a2 + b == (a + (x + y)) + b2
  {
    forall t ensures (a2 + b)[t] == ((a + (x + y)) + b2)[t] {
      assert (a1 + b)[t] == ((a + x) + b1)[t];
      assert (a2 + b1)[t] == ((a1 + y) + b2)[t];
    }
  }

  lemma StepStaysUp(s: System, ev: Event, i: nat)
    requires Shape(s) && IsPeer(s, i) && !s.nodes[i].disabled && ev != Disable(i)
    ensures !Step(s, ev).nodes[i].disabled
  {
    if Enabled(s, ev) {
      match ev {
        case ToPrimary(j) => DeliveryKeeps(s, j, i);
        case ToPeer(j) => if j == i { ReceiptExecutes(s.nodes[i], i, s.down[i][0]); }
        case _ =>
      }
    }
  }

  lemma {:induction false} KeepsAlong(s: System, evs: seq<Event>, i: nat)
    requires Shape(s) && PipeInv(s) && IsPeer(s, i) && !s.nodes[i].disabled && StaysUp(evs, i)
    ensures var s' := Continue(s, evs);
            PipeInv(s') && !s'.nodes[i].disabled && Keeps(s, s', i, Sent(s, evs, i))
  {
    if evs == [] {
      KeepsSame(s, s, i);
    } else {
      var front, ev := evs[..|evs| - 1], evs[|evs| - 1];
      KeepsAlong(s, front, i);
      PipeSteps(Continue(s, front), ev);
      StepStaysUp(Continue(s, front), ev, i);
      KeepsSteps(Continue(s, front), ev, i);
      KeepsOn(s, Continue(s, front), Continue(s, evs), i, Sent(s, front, i), SentBy(Continue(s, front), ev, i));
    }
  }

  /** From any moment of any run on, as long as a replica is not disabled, whatever else happens: what it has logged,
      what is on its way to it and what it and the primary have yet to add differ from what the primary has logged,
      what it is about to and what the replica has yet to have sequenced by as much as at that moment, but for what is
      sent to the replica in answer to transfer requests. */
  lemma LogsBalance(n: nat, before: seq<Event>, evs: seq<Event>, i: nat)
    requires n >= 2 && 2 <= i <= n && !Run(n, before).nodes[i].disabled && StaysUp(evs, i)
    ensures var s, s' := Run(n, before), Run(n, before + evs);
            ReplicaSide(s', i) + PrimarySide(s, i) ==
            (ReplicaSide(s, i) + multiset(Sent(s, evs, i))) + PrimarySide(s', i)
  {
    OrderHolds(n, before);
    KeepsAlong(Run(n, before), evs, i);
    ContinueIsRun(n, before, evs);
  }

  lemma SidesAtRest(s: System, i: nat)
    requires Shape(s) && IsPeer(s, i) && Quiescent(s)
    ensures ReplicaSide(s, i) == multiset(s.nodes[i].log) && PrimarySide(s, i) == multiset(s.nodes[PRIMARY].log)
  {
    assert PipeOf(s, i) == [] && PipeOf(s, PRIMARY) == [];
  }

  lemma Cancels<T>(a: multiset<T>, b: multiset<T>, x: multiset<T>, y: multiset<T>)
    requires x + b == a + y
    ensures x == y <==> a == b
  {
    forall t ensures x[t] + b[t] == a[t] + y[t] {
      assert (x + b)[t] == (a + y)[t];
    }
    if x == y {
      forall t ensures a[t] == b[t] { assert x[t] + b[t] == a[t] + y[t]; }
    }
    if a == b {
      forall t ensures x[t] == y[t] { assert x[t] + b[t] == a[t] + y[t]; }
    }
  }

  /** At rest, a replica that was enabled from some moment on has logged the same commands as the primary, each as
      often, exactly when the sides were even at that moment but for what it was then sent. */
  lemma SameCommandsAtRest(n: nat, before: seq<Event>, evs: seq<Event>, i: nat)
    requires n >= 2 && 2 <= i <= n && !Run(n, before).nodes[i].disabled && StaysUp(evs, i)
    requires Quiescent(Run(n, before + evs))
    ensures var s, s' := Run(n, before), Run(n, before + evs);
            multiset(s'.nodes[i].log) == multiset(s'.nodes[PRIMARY].log) <==>
            ReplicaSide(s, i) + multiset(Sent(s, evs, i)) == PrimarySide(s, i)
  {
    var s, s' := Run(n, before), Run(n, before + evs);
    LogsBalance(n, before, evs, i);
    SidesAtRest(s', i);
    Cancels(ReplicaSide(s, i) + multiset(Sent(s, evs, i)), PrimarySide(s, i), ReplicaSide(s', i), PrimarySide(s', i));
  }

  // ---- After a restart ----

  /** The request an event answers, by the log length it names. */
  function AnsweredBy(s: System, ev: Event, i: nat): seq<nat>
    requires Shape(s) && IsPeer(s, i)
  {
    if ev.Sequence? && CanSequence(s) && s.sequencer.holdQueue[0].HeldTransfer? &&
       s.sequencer.holdQueue[0].requestor == i
    then [s.sequencer.holdQueue[0].have] else []
  }

  lemma AskedSame(s: System, s': System, i: nat)
    requires Shape(s) && Shape(s') && IsPeer(s, i) && IsPeer(s', i)
    requires s'.sequencer.holdQueue == s.sequencer.holdQueue && HeldIn(s'.up[i]) == HeldIn(s.up[i])
    ensures Asked(s, i) == [] + Asked(s', i)
  {
    assert [] + Asked(s, i) == Asked(s, i);
  }

  lemma AskedAfterSend(s: System, j: nat, c: Command, i: nat)
    requires Shape(s) && CanWrite(s, j) && IsPeer(s, i)
    ensures Asked(s, i) == [] + Asked(StepWrite(s, j, c), i)
  {
    var h := HeldWrite(BeginWrite(s.nodes[j], j, c).1);
    AskedConcat(s.sequencer.holdQueue, [h], i);
    AskedConcat(HeldIn(s.up[i]), [h], i);
    AskedOne(h, i);
    SentJoinsPipe([], s.up[i], h.entry);
    WriteMoves(s, j, c, i);
    assert AskedIn(s.sequencer.holdQueue, i) + [] == AskedIn(s.sequencer.holdQueue, i);
    assert AskedIn(HeldIn(s.up[i]), i) + [] == AskedIn(HeldIn(s.up[i]), i);
    assert [] + Asked(s, i) == Asked(s, i);
  }

  lemma AskedAfterSequence(s: System, i: nat)
    requires Shape(s) && CanSequence(s) && IsPeer(s, i)
    ensures Asked(s, i) == AnsweredBy(s, Sequence, i) + Asked(Step(s, Sequence), i)
  {
    SequenceIs(s);
    AskedHead(s.sequencer.holdQueue, i);
    Reassociate(AnsweredBy(s, Sequence, i), AskedIn(s.sequencer.holdQueue[1..], i), AskedIn(HeldIn(s.up[i]), i));
    match s.sequencer.holdQueue[0] {
      case HeldWrite(e) => SequencedUp(s, e);
      case HeldTransfer(q, have) => TransferMoves(s, q, have, i);
    }
  }

  lemma SequencedUp(s: System, e: Entry)
    requires Shape(s) && CanSequence(s)
    ensures StepSequenceWrite(s, e).up == s.up
    ensures StepSequenceWrite(s, e).sequencer.holdQueue == s.sequencer.holdQueue[1..]
  {
  }

  /** A replica's requests are answered in turn, and only restarts add to them. */
  lemma AskedSteps(s: System, ev: Event, i: nat)
    requires Shape(s) && PipeInv(s) && IsPeer(s, i) && !s.nodes[i].disabled
    ensures Asked(s, i) == AnsweredBy(s, ev, i) + Asked(Step(s, ev), i)
  {
    if !Enabled(s, ev) {
      AskedSame(s, s, i);
    } else {
      match ev {
        case Write(j, c) => AskedAfterSend(s, j, c, i);
        case ToPrimary(j) =>
          if s.up[j][0].Request? { SenderIsRequestor(s, j); }
          DeliveryKeepsAsked(s, j, i);
          assert [] + Asked(s, i) == Asked(s, i);
        case ToPeer(j) =>
          ReceiptForOwn(s, j);
          AskedSame(s, StepToPeer(s, j), i);
        case Sequence => AskedAfterSequence(s, i);
        case CheckpointTest =>
          TestLeavesWrites(s, i);
          AskedSame(s, StepCheckpointTest(s), i);
        case Restart(j) =>
          RestartSends(s, j, i);
          AskedSame(s, StepRestart(s, j), i);
        case _ => AskedSame(s, Step(s, ev), i);
      }
    }
  }

  /** Until the answer the primary's log grows by what it logs; the answer is what it then holds beyond the
      replica's. */
  predicate Awaits(s: System, i: nat, g: Start, window: seq<Command>, sent: seq<Command>)
    requires Shape(s) && IsPeer(s, i)
  {
    && !s.nodes[i].disabled
    && if Asked(s, i) == [] then sent == Shipped((g.theirs + window)[|g.mine|..])
       else Asked(s, i) == [|g.mine|] && sent == [] && s.nodes[PRIMARY].log == g.theirs + window
  }

  lemma AnswerLogsNothing(s: System, ev: Event, i: nat)
    requires Shape(s) && IsPeer(s, i) && AnsweredBy(s, ev, i) != []
    ensures PrimaryExecutes(s, ev) == []
    ensures SentBy(s, ev, i) == Shipped(LogFrom(s.nodes[PRIMARY].log, AnsweredBy(s, ev, i)[0]))
  {
  }

  lemma AnswersOnly(s: System, ev: Event, i: nat)
    requires Shape(s) && IsPeer(s, i) && AnsweredBy(s, ev, i) == []
    ensures SentBy(s, ev, i) == []
  {
  }

  /** The request is answered, or still waits. */
  lemma AwaitsStep(s: System, ev: Event, i: nat, g: Start, window: seq<Command>, sent: seq<Command>)
    requires Shape(s) && PipeInv(s) && IsPeer(s, i) && Awaits(s, i, g, window, sent) && ev != Disable(i)
    ensures Awaits(Step(s, ev), i, g, window + NewIn(s, ev, i), sent + SentBy(s, ev, i))
  {
    AskedSteps(s, ev, i);
    StepStaysUp(s, ev, i);
    if AnsweredBy(s, ev, i) == [] {
      AnswersOnly(s, ev, i);
      LeftEmpty(Asked(Step(s, ev), i));
      RightEmpty(sent);
      if Asked(s, i) == [] {
        RightEmpty(window);
      } else {
        PrimaryLogs(s, ev);
        Reassociate(g.theirs, window, PrimaryExecutes(s, ev));
      }
    } else {
      AnswerLogsNothing(s, ev, i);
      LeftEmpty(SentBy(s, ev, i));
      RightEmpty(window);
      AnsweredLast(s, ev, i, |g.mine|);
    }
  }

  lemma AnsweredLast(s: System, ev: Event, i: nat, asked: nat)
    requires Shape(s) && IsPeer(s, i) && AnsweredBy(s, ev, i) != []
    requires Asked(s, i) == AnsweredBy(s, ev, i) + Asked(Step(s, ev), i)
    requires Asked(s, i) == [] || Asked(s, i) == [asked]
    ensures Asked(s, i) == [asked] && AnsweredBy(s, ev, i)[0] == asked && Asked(Step(s, ev), i) == []
  {
    assert |Asked(s, i)| == |AnsweredBy(s, ev, i)| + |Asked(Step(s, ev), i)|;
    assert Asked(s, i)[0] == AnsweredBy(s, ev, i)[0];
  }

  lemma {:induction false} AwaitsAlong(s: System, evs: seq<Event>, i: nat, g: Start)
    requires Shape(s) && PipeInv(s) && IsPeer(s, i) && Awaits(s, i, g, [], []) && StaysUp(evs, i)
    ensures PipeInv(Continue(s, evs)) && Awaits(Continue(s, evs), i, g, Window(s, evs, i), Sent(s, evs, i))
  {
    if evs != [] {
      var front, ev := evs[..|evs| - 1], evs[|evs| - 1];
      var before := Continue(s, front);
      AwaitsAlong(s, front, i, g);
      PipeSteps(before, ev);
      AwaitsStep(before, ev, i, g, Window(s, front, i), Sent(s, front, i));
    }
  }

  lemma AwaitsAtRestart(s: System, i: nat)
    requires Shape(s) && IsPeer(s, i) && Behind(s, i)
    ensures Awaits(StepRestart(s, i), i, Found(s, i), [], [])
  {
    RestartMoves(s, i);
    AskStarts(s, i);
    LeftEmpty([|s.nodes[i].log|]);
    RightEmpty(s.nodes[PRIMARY].log);
  }

  lemma ReplicaSideAtRestart(s: System, i: nat)
    requires Shape(s) && IsPeer(s, i) && Behind(s, i)
    ensures ReplicaSide(StepRestart(s, i), i) == multiset(Found(s, i).mine) + multiset(Found(s, i).flight)
  {
    RestartMoves(s, i);
    RestartPipe(s, i, PRIMARY);
    assert PipeOf(s, PRIMARY) == [];
  }

  lemma PrimarySideAtRestart(s: System, i: nat)
    requires Shape(s) && IsPeer(s, i) && Behind(s, i)
    ensures PrimarySide(StepRestart(s, i), i) == multiset(Found(s, i).theirs)
  {
    RestartMoves(s, i);
    RestartPipe(s, i, i);
    assert PipeOf(s, i) == [];
  }

  /** Whatever is written and sequenced after the restart of a replica, by any server and before or after the answer to
      its request: at rest it has logged the same commands as the primary, each as often, exactly when what was on its
      way to it at the restart and what the transfer sends are as many of each as it had missed at the restart. What
      the primary logged until the answer came as commits already, so it must be of kinds that are not sent. */
  lemma WritesMeet(n: nat, before: seq<Event>, i: nat, evs: seq<Event>)
    requires n >= 2 && 2 <= i <= n && Behind(Run(n, before), i) && StaysUp(evs, i)
    requires Quiescent(Continue(Step(Run(n, before), Restart(i)), evs))
    ensures var s1, g := Step(Run(n, before), Restart(i)), Found(Run(n, before), i);
            var s := Continue(s1, evs);
            multiset(s.nodes[i].log) == multiset(s.nodes[PRIMARY].log) <==>
            multiset(g.flight + Shipped(Missing(g) + Window(s1, evs, i))) == multiset(Missing(g))
  {
    PipesHold(n, before, Restart(i));
    RestartIs(Run(n, before), i);
    RestartMeets(Run(n, before), i, evs);
  }

  /** The same from any state in which the replica is behind. */
  lemma RestartMeets(s: System, i: nat, evs: seq<Event>)
    requires Shape(s) && IsPeer(s, i) && Behind(s, i) && PipeInv(StepRestart(s, i))
    requires StaysUp(evs, i) && Quiescent(Continue(StepRestart(s, i), evs))
    ensures var g, s1 := Found(s, i), StepRestart(s, i);
            var s' := Continue(s1, evs);
            multiset(s'.nodes[i].log) == multiset(s'.nodes[PRIMARY].log) <==>
            multiset(g.flight + Shipped(Missing(g) + Window(s1, evs, i))) == multiset(Missing(g))
  {
    var s1, g := StepRestart(s, i), Found(s, i);
    AwaitsAtRestart(s, i);
    ReplicaSideAtRestart(s, i);
    PrimarySideAtRestart(s, i);
    AwaitsAlong(s1, evs, i, g);
    NothingAskedAtRest(Continue(s1, evs), i);
    KeepsAlong(s1, evs, i);
    SidesAtRest(Continue(s1, evs), i);
    MissingMore(g, Window(s1, evs, i));
    EvenOut(g, Shipped(Missing(g) + Window(s1, evs, i)), multiset(Continue(s1, evs).nodes[i].log),
            multiset(Continue(s1, evs).nodes[PRIMARY].log));
  }

  lemma MissingMore(g: Start, window: seq<Command>)
    ensures (g.theirs + window)[|g.mine|..] == Missing(g) + window
  {
  }

  lemma NothingAskedAtRest(s: System, i: nat)
    requires Shape(s) && IsPeer(s, i) && Quiescent(s)
    ensures Asked(s, i) == []
  {
  }

  lemma EvenOut(g: Start, sent: seq<Command>, replica: multiset<Command>, primary: multiset<Command>)
    requires replica + multiset(g.theirs) ==
             ((multiset(g.mine) + multiset(g.flight)) + multiset(sent)) + primary
    ensures replica == primary <==> multiset(g.flight + sent) == multiset(Missing(g))
  {
    var mine, come, lack := multiset(g.mine), multiset(g.flight + sent), multiset(Missing(g));
    TakeDrop(g.theirs, |g.mine|);
    assert g.theirs[..|g.mine|] == g.mine;
    assert multiset(g.theirs) == mine + lack;
    assert come == multiset(g.flight) + multiset(sent);
    assert (mine + multiset(g.flight)) + multiset(sent) == mine + come;
    Cancels(mine + come, mine + lack, replica, primary);
    Cancels(come, lack, mine + come, mine + lack);
  }
}
