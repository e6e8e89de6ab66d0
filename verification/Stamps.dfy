/** The primary's sequence numbers: how they count, and that every message carries the one it should. */
module Stamps {
  import opened Sequences
  import opened KeyValue
  import opened Replication
  import opened Channels
  import opened Ordering
  import opened Barrier
  import opened OwnWrites
  import opened Journals
  import opened WriteAheadLog
  import opened Checkpoints

  // ---- Counting ----

  /** The counter is advanced by every write and by every barrier that has ended. */
  predicate Counts(s: System)
    requires Shape(s)
  {
    s.sequencer.stamp + (if s.sequencer.phase.Barrier? then 1 else 0) ==
    |s.trace.order| + s.nodes[PRIMARY].version
  }

  /** Each write has a larger number than those before it. */
  predicate Rising(order: seq<Sequenced>, clock: nat) {
    && (forall k :: 0 <= k < |order| ==> order[k].stamp < clock)
    && (forall j, k :: 0 <= j < k < |order| ==> order[j].stamp < order[k].stamp)
  }

  lemma RisingNext(order: seq<Sequenced>, clock: nat, e: Entry)
    requires Rising(order, clock)
    ensures Rising(order + [Sequenced(clock, e)], clock + 1)
  {
  }

  lemma RisingLater(order: seq<Sequenced>, clock: nat, later: nat)
    requires Rising(order, clock) && clock <= later
    ensures Rising(order, later)
  {
  }

  lemma OthersKeepClock(s: System, ev: Event)
    requires Shape(s) && Enabled(s, ev) && !ev.Sequence? && !ev.CheckpointTest?
    ensures Step(s, ev).sequencer.stamp == s.sequencer.stamp + (if ev.EndBarrier? then 1 else 0)
    ensures Step(s, ev).sequencer.phase == if ev.EndBarrier? then Ready else s.sequencer.phase
  {
    if ev.ToPrimary? { ToPrimaryIs(s, ev.server); }
  }

  lemma SequenceMovesClock(s: System)
    requires Shape(s) && CanSequence(s)
    ensures var h, s' := s.sequencer.holdQueue[0], Step(s, Sequence);
            if h.HeldWrite?
            then s'.sequencer.stamp == s.sequencer.stamp + 1
                 && s'.trace.order == s.trace.order + [Sequenced(s.sequencer.stamp, h.entry)]
            else s'.sequencer.stamp == s.sequencer.stamp && s'.trace.order == s.trace.order
  {
    SequenceIs(s);
  }

  lemma TestKeepsClock(s: System)
    requires Shape(s) && s.sequencer.phase.Committed?
    ensures Step(s, CheckpointTest).sequencer.stamp == s.sequencer.stamp
  {
  }

  lemma CountsStep(s: System, ev: Event)
    requires Shape(s) && Counts(s) && Rising(s.trace.order, s.sequencer.stamp)
    ensures Counts(Step(s, ev)) && Rising(Step(s, ev).trace.order, Step(s, ev).sequencer.stamp)
  {
    if Enabled(s, ev) {
      if ev.Sequence? {
        SequenceMovesClock(s);
        SequenceMovesRound(s);
        var h := s.sequencer.holdQueue[0];
        if h.HeldWrite? { RisingNext(s.trace.order, s.sequencer.stamp, h.entry); }
      } else if ev.CheckpointTest? {
        TestKeepsClock(s);
        TestTakes(s);
      } else {
        OthersKeepClock(s, ev);
        OthersKeepRound(s, ev);
        RisingLater(s.trace.order, s.sequencer.stamp, Step(s, ev).sequencer.stamp);
      }
    }
  }

  /** In every run the primary's counter is the number of writes it has sequenced and of barriers that have ended, and
      the writes are numbered by it in increasing order. */
  lemma {:induction false} NumbersCount(n: nat, evs: seq<Event>)
    requires n >= 2
    ensures Counts(Run(n, evs)) && Rising(Run(n, evs).trace.order, Run(n, evs).sequencer.stamp)
  {
    if evs != [] {
      NumbersCount(n, evs[..|evs| - 1]);
      CountsStep(Run(n, evs[..|evs| - 1]), evs[|evs| - 1]);
    }
  }

  // ---- What messages carry ----

  /** The write that the requestor and its number identify was sequenced under this number. */
  ghost predicate Names(order: seq<Sequenced>, stamp: nat, requestor: nat, seqNum: nat) {
    exists k :: 0 <= k < |order| && order[k].stamp == stamp && Id(order[k]) == (requestor, seqNum)
  }

  ghost predicate UpTrue(order: seq<Sequenced>, clock: nat, m: UpMessage) {
    match m
    case Request(_) => true
    case Ack(stamp, r, q) => Names(order, stamp, r, q)
    case CheckpointAck(stamp) => stamp == clock
  }

  ghost predicate DownTrue(order: seq<Sequenced>, clock: nat, m: DownMessage) {
    match m
    case Announce(stamp, r, q) => Names(order, stamp, r, q)
    case Commit(item) => item in order
    case Okay(stamp, r, q) => Names(order, stamp, r, q)
    case Checkpoint(stamp) => stamp == clock
    case Transfer(_) => true
  }

  ghost predicate AllUp(order: seq<Sequenced>, clock: nat, up: seq<UpMessage>) {
    forall m :: m in up ==> UpTrue(order, clock, m)
  }

  ghost predicate AllDown(order: seq<Sequenced>, clock: nat, down: seq<DownMessage>) {
    forall m :: m in down ==> DownTrue(order, clock, m)
  }

  /** Every message under way carries the number of the write it is about, and those of a barrier the number at which
      it began. */
  ghost predicate TrueAt(s: System, i: nat)
    requires Shape(s) && IsServer(s, i)
  {
    AllUp(s.trace.order, s.sequencer.stamp, s.up[i]) && AllDown(s.trace.order, s.sequencer.stamp, s.down[i])
  }

  lemma NamesGrow(order: seq<Sequenced>, x: Sequenced, stamp: nat, r: nat, q: nat)
    requires Names(order, stamp, r, q)
    ensures Names(order + [x], stamp, r, q)
  {
    var k :| 0 <= k < |order| && order[k].stamp == stamp && Id(order[k]) == (r, q);
    assert (order + [x])[k] == order[k];
  }

  lemma NamesLast(order: seq<Sequenced>, x: Sequenced)
    ensures Names(order + [x], x.stamp, x.entry.requestor, x.entry.seqNum)
  {
    assert (order + [x])[|order|] == x;
  }

  lemma NamesMember(order: seq<Sequenced>, x: Sequenced)
    requires x in order
    ensures Names(order, x.stamp, x.entry.requestor, x.entry.seqNum)
  {
    var k :| 0 <= k < |order| && order[k] == x;
  }

  /** No message of a barrier is among them. */
  predicate NoBarrier(up: seq<UpMessage>, down: seq<DownMessage>) {
    (forall m :: m in up ==> !m.CheckpointAck?) && (forall m :: m in down ==> !m.Checkpoint?)
  }

  lemma {:induction false} NoneCounted(up: seq<UpMessage>, down: seq<DownMessage>)
    requires CheckpointAcksIn(up) == 0 && CheckpointsIn(down) == 0
    ensures NoBarrier(up, down)
    decreases |up| + |down|
  {
    if up != [] {
      NoneCounted(up[..|up| - 1], down);
      FrontAndLast(up);
    } else if down != [] {
      NoneCounted(up, down[..|down| - 1]);
      FrontAndLast(down);
    }
  }

  lemma TrueOn(order: seq<Sequenced>, clock: nat, up: seq<UpMessage>, down: seq<DownMessage>, x: Sequenced, later: nat)
    requires AllUp(order, clock, up) && AllDown(order, clock, down) && NoBarrier(up, down)
    ensures AllUp(order + [x], later, up) && AllDown(order + [x], later, down)
  {
    forall m | m in up ensures UpTrue(order + [x], later, m) {
      assert UpTrue(order, clock, m);
      if m.Ack? { NamesGrow(order, x, m.stamp, m.requestor, m.seqNum); }
    }
    forall m | m in down ensures DownTrue(order + [x], later, m) {
      assert DownTrue(order, clock, m);
      if m.Announce? || m.Okay? { NamesGrow(order, x, m.stamp, m.requestor, m.seqNum); }
    }
  }

  lemma TrueLater(order: seq<Sequenced>, clock: nat, up: seq<UpMessage>, down: seq<DownMessage>, later: nat)
    requires AllUp(order, clock, up) && AllDown(order, clock, down) && NoBarrier(up, down)
    ensures AllUp(order, later, up) && AllDown(order, later, down)
  {
    forall m | m in up ensures UpTrue(order, later, m) { assert UpTrue(order, clock, m); }
    forall m | m in down ensures DownTrue(order, later, m) { assert DownTrue(order, clock, m); }
  }

  lemma BarrierIsOver(s: System, i: nat)
    requires Shape(s) && BarrierInv(s) && IsPeer(s, i) && (s.sequencer.phase.Barrier? ==> !s.sequencer.checkpointBlock)
    ensures NoBarrier(s.up[i], s.down[i])
  {
    assert i !in Outstanding(s);
    NoneCounted(s.up[i], s.down[i]);
  }

  lemma UpMore(order: seq<Sequenced>, clock: nat, up: seq<UpMessage>, m: UpMessage)
    requires AllUp(order, clock, up) && UpTrue(order, clock, m)
    ensures AllUp(order, clock, up + [m])
  {
  }

  lemma DownMore(order: seq<Sequenced>, clock: nat, down: seq<DownMessage>, more: seq<DownMessage>)
    requires AllDown(order, clock, down) && AllDown(order, clock, more)
    ensures AllDown(order, clock, down + more)
  {
  }

  lemma TailsTrue(order: seq<Sequenced>, clock: nat, up: seq<UpMessage>, down: seq<DownMessage>)
    ensures AllUp(order, clock, up) && up != [] ==> UpTrue(order, clock, up[0]) && AllUp(order, clock, up[1..])
    ensures AllDown(order, clock, down) && down != [] ==>
              DownTrue(order, clock, down[0]) && AllDown(order, clock, down[1..])
  {
  }

  lemma TrueWrite(s: System, j: nat, c: Command, i: nat)
    requires Shape(s) && CanWrite(s, j) && IsPeer(s, i) && TrueAt(s, i)
    ensures TrueAt(StepWrite(s, j, c), i)
  {
    WriteMoves(s, j, c, i);
    UpMore(s.trace.order, s.sequencer.stamp, s.up[i], Request(HeldWrite(BeginWrite(s.nodes[j], j, c).1)));
  }

  lemma TrueRestart(s: System, j: nat, i: nat)
    requires Shape(s) && IsServer(s, j) && IsPeer(s, i) && TrueAt(s, i)
    ensures TrueAt(StepRestart(s, j), i)
  {
    UpMore(s.trace.order, s.sequencer.stamp, s.up[i], Request(HeldTransfer(i, |s.nodes[i].log|)));
  }

  lemma AnswerIsTrue(s: System, j: nat, i: nat)
    requires Shape(s) && CanDeliverUp(s, j) && UpTrue(s.trace.order, s.sequencer.stamp, s.up[j][0])
    ensures AllDown(s.trace.order, s.sequencer.stamp, AnswerTo(s, j, i))
  {
  }

  lemma DeliveryKeepsClock(s: System, j: nat)
    requires Shape(s) && CanDeliverUp(s, j)
    ensures StepToPrimary(s, j).sequencer.stamp == s.sequencer.stamp
  {
  }

  lemma TrueDelivery(s: System, j: nat, i: nat)
    requires Shape(s) && CanDeliverUp(s, j) && IsPeer(s, i) && TrueAt(s, i) && TrueAt(s, j)
    ensures TrueAt(StepToPrimary(s, j), i)
  {
    DeliveryKeepsClock(s, j);
    DeliveryChannels(s, j, i);
    TailsTrue(s.trace.order, s.sequencer.stamp, s.up[j], s.down[j]);
    AnswerIsTrue(s, j, i);
    DownMore(s.trace.order, s.sequencer.stamp, s.down[i], AnswerTo(s, j, i));
  }

  lemma AnswersTruly(order: seq<Sequenced>, clock: nat, node: Node, id: nat, m: DownMessage, up: seq<UpMessage>)
    requires AllUp(order, clock, up) && DownTrue(order, clock, m)
    ensures AllUp(order, clock, up + PeerReceive(node, id, m).1)
  {
    if m.Commit? { NamesMember(order, m.item); }
  }

  lemma TrueReceipt(s: System, i: nat)
    requires Shape(s) && CanDeliverDown(s, i) && TrueAt(s, i)
    ensures TrueAt(StepToPeer(s, i), i)
  {
    TailsTrue(s.trace.order, s.sequencer.stamp, s.up[i], s.down[i]);
    AnswersTruly(s.trace.order, s.sequencer.stamp, s.nodes[i], i, s.down[i][0], s.up[i]);
  }

  lemma ReceiptSparesOthers(s: System, j: nat, i: nat)
    requires Shape(s) && CanDeliverDown(s, j) && IsPeer(s, i) && i != j && TrueAt(s, i)
    ensures TrueAt(StepToPeer(s, j), i)
  {
  }

  lemma BroadcastsTrue(order: seq<Sequenced>, stamp: nat, e: Entry, clock: nat)
    ensures AllDown(order + [Sequenced(stamp, e)], clock, Broadcasts(stamp, e))
  {
    NamesLast(order, Sequenced(stamp, e));
  }

  lemma TrueSequence(s: System, e: Entry, i: nat)
    requires Shape(s) && CanSequence(s) && BarrierInv(s) && IsPeer(s, i) && TrueAt(s, i)
    ensures TrueAt(StepSequenceWrite(s, e), i)
  {
    var order, x, clock := s.trace.order, Sequenced(s.sequencer.stamp, e), s.sequencer.stamp;
    BarrierIsOver(s, i);
    TrueOn(order, clock, s.up[i], s.down[i], x, clock + 1);
    BroadcastsTrue(order, clock, e, clock + 1);
    DownMore(order + [x], clock + 1, s.down[i], Broadcasts(clock, e));
  }

  lemma TransfersTrue(order: seq<Sequenced>, clock: nat, cs: seq<Command>)
    ensures AllDown(order, clock, Transfers(cs))
  {
  }

  lemma TrueTransfer(s: System, q: nat, have: nat, i: nat)
    requires Shape(s) && CanSequence(s) && IsPeer(s, i) && TrueAt(s, i)
    ensures TrueAt(StepSequenceTransfer(s, q, have), i)
  {
    var sent := Shipped(LogFrom(s.nodes[PRIMARY].log, have));
    TransferMoves(s, q, have, i);
    TransfersTrue(s.trace.order, s.sequencer.stamp, sent);
    DownMore(s.trace.order, s.sequencer.stamp, s.down[i], Transfers(sent));
  }

  lemma TrueTest(s: System, i: nat)
    requires Shape(s) && IsPeer(s, i) && TrueAt(s, i)
    ensures TrueAt(StepCheckpointTest(s), i)
  {
    DownMore(s.trace.order, s.sequencer.stamp, s.down[i], [Checkpoint(s.sequencer.stamp)]);
  }

  lemma TrueEnd(s: System, i: nat)
    requires Shape(s) && BarrierInv(s) && IsPeer(s, i) && TrueAt(s, i) && Enabled(s, EndBarrier)
    ensures TrueAt(StepEndBarrier(s), i)
  {
    BarrierIsOver(s, i);
    TrueLater(s.trace.order, s.sequencer.stamp, s.up[i], s.down[i], s.sequencer.stamp + 1);
  }

  lemma QuietIsTrue(s: System, ev: Event, i: nat)
    requires Shape(s) && IsPeer(s, i) && TrueAt(s, i) && (!Enabled(s, ev) || ev.Finish? || ev.Disable?)
    ensures TrueAt(Step(s, ev), i)
  {
  }

  lemma TrueAdministration(s: System, ev: Event, i: nat)
    requires Shape(s) && BarrierInv(s) && IsPeer(s, i) && TrueAt(s, i) && Enabled(s, ev)
    requires ev.CheckpointTest? || ev.EndBarrier? || ev.Restart? || ev.Write?
    ensures TrueAt(Step(s, ev), i)
  {
    match ev {
      case Write(j, c) => WriteIs(s, j, c); TrueWrite(s, j, c, i);
      case CheckpointTest => TrueTest(s, i);
      case EndBarrier => TrueEnd(s, i);
      case Restart(j) => RestartIs(s, j); TrueRestart(s, j, i);
    }
  }

  lemma TrueSteps(s: System, ev: Event, i: nat)
    requires Shape(s) && BarrierInv(s) && IsPeer(s, i) && (forall j: nat :: IsPeer(s, j) ==> TrueAt(s, j))
    ensures TrueAt(Step(s, ev), i)
  {
    if !Enabled(s, ev) || ev.Finish? || ev.Disable? {
      QuietIsTrue(s, ev, i);
    } else if ev.ToPrimary? {
      ToPrimaryIs(s, ev.server);
      TrueDelivery(s, ev.server, i);
    } else if ev.ToPeer? {
      ToPeerIs(s, ev.server);
      if ev.server == i { TrueReceipt(s, i); } else { ReceiptSparesOthers(s, ev.server, i); }
    } else if ev.Sequence? {
      var h := s.sequencer.holdQueue[0];
      SequenceIs(s);
      if h.HeldWrite? { TrueSequence(s, h.entry, i); } else { TrueTransfer(s, h.requestor, h.have, i); }
    } else {
      TrueAdministration(s, ev, i);
    }
  }

  /** In every run, every announcement, commit, acknowledgement and +OK under way carries the number under which the
      write that it identifies was sequenced, and every message of a barrier the number at which the barrier began. */
  lemma {:induction false} MessagesAreTrue(n: nat, evs: seq<Event>)
    requires n >= 2
    ensures forall i: nat {:trigger TrueAt(Run(n, evs), i)} :: 2 <= i <= n ==> TrueAt(Run(n, evs), i)
  {
    if evs != [] {
      var front, ev := evs[..|evs| - 1], evs[|evs| - 1];
      MessagesAreTrue(n, front);
      BarrierHolds(n, front);
      forall i: nat | 2 <= i <= n ensures TrueAt(Run(n, evs), i) {
        TrueSteps(Run(n, front), ev, i);
      }
    }
  }
}
