/** What every run keeps about the primary's order: who has seen how much of it, how it numbers the
    requestors' writes, and how acknowledgements are counted against it. */
module Ordering {
  import opened Sequences
  import opened KeyValue
  import opened WriteAheadLog
  import opened Replication
  import opened Channels

  // ---- The invariants ----

  ghost predicate ChainInv(s: System)
    requires Shape(s)
  {
    forall i: nat :: IsPeer(s, i) ==>
      Chain(s.trace.order, s.trace.consumed[i], s.trace.acked[i], s.up[i], s.down[i])
  }

  /** The number a server's next write will get. */
  function NextNum(node: Node): nat {
    node.seqNum + if node.pending.Some? then 1 else 0
  }

  /** A server's channel carries its own requests, and its writes continue its numbering. */
  ghost predicate PipeAt(s: System, r: nat)
    requires Shape(s) && IsServer(s, r)
  {
    PipeOk(s.trace.order, s.sequencer.holdQueue, s.up[r], r, NextNum(s.nodes[r]))
  }

  ghost predicate PipeInv(s: System)
    requires Shape(s)
  {
    && s.up[PRIMARY] == []
    && Numbered(s.trace.order)
    && (forall k :: 0 <= k < |s.trace.order| ==> IsServer(s, s.trace.order[k].entry.requestor))
    && (forall k :: 0 <= k < |s.sequencer.holdQueue| ==> IsServer(s, RequestorOf(s.sequencer.holdQueue[k])))
    && (forall r: nat {:trigger PipeAt(s, r)} :: IsServer(s, r) ==> PipeAt(s, r))
  }

  /** The replicas whose acknowledgement of the k-th write has not been counted. */
  function Waiting(acked: seq<nat>, n: nat, k: nat): set<nat>
    requires |acked| == n + 1
  {
    set i: nat | 2 <= i <= n && acked[i] <= k
  }

  function CountOf(at: AckTrack, id: (nat, nat)): int {
    if Tracked(at, id.0, id.1) then at[id.0][id.1] else 0
  }

  ghost predicate TrackInv(s: System)
    requires Shape(s)
  {
    && (forall k :: 0 <= k < |s.trace.order| ==>
          CountOf(s.sequencer.acktrack, Id(s.trace.order[k])) == |Waiting(s.trace.acked, s.n, k)|)
    && (forall r: nat, q: int :: Tracked(s.sequencer.acktrack, r, q) ==>
          s.sequencer.acktrack[r][q] > 0 && 0 <= q < CountBy(s.trace.order, r))
  }

  /** A write is answered with +OK once, when it is a replica's and every replica has acknowledged it. */
  ghost predicate OkayInv(s: System)
    requires Shape(s)
  {
    && (forall k :: 0 <= k < |s.trace.order| ==>
          s.trace.okays[Id(s.trace.order[k])] ==
          if s.trace.order[k].entry.requestor != PRIMARY && Waiting(s.trace.acked, s.n, k) == {} then 1 else 0)
    && (forall id :: id in s.trace.okays ==> id.1 < CountBy(s.trace.order, id.0))
  }

  // ---- Waiting sets ----

  lemma {:induction false} PeersCount(acked: seq<nat>, n: nat, k: nat)
    requires n >= 1 && |acked| == n + 1 && forall i :: 2 <= i <= n ==> acked[i] <= k
    ensures |Waiting(acked, n, k)| == n - 1
  {
    if n == 1 {
      assert Waiting(acked, n, k) == {};
    } else {
      PeersCount(acked[..n], n - 1, k);
      assert Waiting(acked, n, k) == Waiting(acked[..n], n - 1, k) + {n};
    }
  }

  lemma WaitingCounts(acked: seq<nat>, n: nat, i: nat, k: nat)
    requires |acked| == n + 1 && 2 <= i <= n
    ensures var a := acked[i];
            Waiting(acked[i := a + 1], n, k) == if k == a then Waiting(acked, n, k) - {i} else Waiting(acked, n, k)
    ensures k == acked[i] ==> i in Waiting(acked, n, k)
  {
  }

  // ---- What some events leave alone ----

  /** What a delivery to a replica leaves alone. */
  lemma ReceiptMoves(s: System, i: nat)
    requires Shape(s) && CanDeliverDown(s, i)
    ensures var s' := StepToPeer(s, i);
            && s'.trace.order == s.trace.order && s'.trace.acked == s.trace.acked && s'.sequencer == s.sequencer
            && s'.nodes[i] == PeerReceive(s.nodes[i], i, s.down[i][0]).0
            && s'.down[i] == s.down[i][1..]
            && s'.up[i] == s.up[i] + PeerReceive(s.nodes[i], i, s.down[i][0]).1
  {
  }

  /** A checkpoint test leaves a server's writes alone. */
  lemma TestLeavesWrites(s: System, r: nat)
    requires Shape(s) && IsServer(s, r)
    ensures var s', node := StepCheckpointTest(s), StepCheckpointTest(s).nodes[r];
            && s'.trace.order == s.trace.order && s'.trace.acked == s.trace.acked
            && s'.up == s.up && s'.sequencer.holdQueue == s.sequencer.holdQueue
            && (s'.down[r] == s.down[r] || s'.down[r] == s.down[r] + [Checkpoint(s.sequencer.stamp)])
            && node.pending == s.nodes[r].pending && node.blocked == s.nodes[r].blocked
            && node.seqNum == s.nodes[r].seqNum
  {
  }

  /** Nor what the server holds and has executed. */
  lemma TestLeavesStore(s: System, r: nat)
    requires Shape(s) && IsServer(s, r)
    ensures var s', node := StepCheckpointTest(s), StepCheckpointTest(s).nodes[r];
            && node.log == s.nodes[r].log && node.tablet == s.nodes[r].tablet && node.disabled == s.nodes[r].disabled
            && s'.trace.journal == s.trace.journal && s'.trace.consumed == s.trace.consumed
            && s'.trace.stayed == s.trace.stayed
  {
  }

  // ---- Chains ----

  lemma ChainSteps(s: System, ev: Event)
    requires Shape(s) && ChainInv(s)
    ensures ChainInv(Step(s, ev))
  {
    var s' := Step(s, ev);
    if Enabled(s, ev) {
      forall i: nat | IsPeer(s, i)
        ensures Chain(s'.trace.order, s'.trace.consumed[i], s'.trace.acked[i], s'.up[i], s'.down[i])
      {
        ChainStepsAt(s, ev, i);
      }
    }
  }

  lemma ChainStepsAt(s: System, ev: Event, i: nat)
    requires Shape(s) && ChainInv(s) && Enabled(s, ev) && IsPeer(s, i)
    ensures var s' := Step(s, ev);
            Chain(s'.trace.order, s'.trace.consumed[i], s'.trace.acked[i], s'.up[i], s'.down[i])
  {
    match ev {
      case Write(j, cmd) => ChainRequest(s, i, HeldWrite(BeginWrite(s.nodes[j], j, cmd).1));
      case ToPrimary(j) => ChainToPrimary(s, j, i);
      case ToPeer(j) => ChainToPeer(s, j, i);
      case Sequence => ChainSequence(s, i);
      case CheckpointTest => ChainTest(s, i);
      case Restart(j) => ChainRequest(s, i, HeldTransfer(j, |s.nodes[j].log|));
      case _ =>
    }
  }

  /** Requests sent up leave the chain alone. */
  lemma ChainRequest(s: System, i: nat, item: Held)
    requires Shape(s) && ChainInv(s) && IsPeer(s, i)
    ensures Chain(s.trace.order, s.trace.consumed[i], s.trace.acked[i], s.up[i], s.down[i])
    ensures Chain(s.trace.order, s.trace.consumed[i], s.trace.acked[i], s.up[i] + [Request(item)], s.down[i])
  {
    UpOne(Request(item));
    ChainExtends(s.trace.order, s.trace.consumed[i], s.trace.acked[i], s.up[i], s.down[i], [Request(item)], []);
    assert s.down[i] + [] == s.down[i];
  }

  lemma ChainTest(s: System, i: nat)
    requires Shape(s) && ChainInv(s) && IsPeer(s, i)
    ensures var s' := StepCheckpointTest(s);
            Chain(s'.trace.order, s'.trace.consumed[i], s'.trace.acked[i], s'.up[i], s'.down[i])
  {
    var m := Checkpoint(s.sequencer.stamp);
    TestLeavesWrites(s, i);
    TestLeavesStore(s, i);
    DownOne(m);
    ChainExtends(s.trace.order, s.trace.consumed[i], s.trace.acked[i], s.up[i], s.down[i], [], [m]);
    assert s.up[i] + [] == s.up[i];
  }

  /** The answer to a message, for one server: +OK or nothing. */
  function AnswerTo(s: System, j: nat, i: nat): seq<DownMessage>
    requires Shape(s) && CanDeliverUp(s, j)
  {
    var m := s.up[j][0];
    var reply := PrimaryReceive(s.nodes[PRIMARY], s.sequencer, m).2;
    if reply.Some? && IsPeer(s, m.requestor) && m.requestor == i then [reply.value] else []
  }

  lemma AnswerIsOkay(s: System, j: nat, i: nat)
    requires Shape(s) && CanDeliverUp(s, j)
    ensures AnswerTo(s, j, i) == [] || (|AnswerTo(s, j, i)| == 1 && AnswerTo(s, j, i)[0].Okay?)
    ensures CommitsIn(AnswerTo(s, j, i)) == [] && TransfersIn(AnswerTo(s, j, i)) == []
  {
    var more := AnswerTo(s, j, i);
    if more != [] { DownOne(more[0]); }
  }

  /** What a delivery to the primary does to one server's channels. */
  lemma DeliveryChannels(s: System, j: nat, i: nat)
    requires Shape(s) && CanDeliverUp(s, j) && IsServer(s, i)
    ensures var s', m := StepToPrimary(s, j), s.up[j][0];
            && s'.trace.order == s.trace.order && s'.trace.consumed == s.trace.consumed
            && s'.down[i] == s.down[i] + AnswerTo(s, j, i)
            && s'.up[i] == (if j == i then s.up[i][1..] else s.up[i])
            && s'.trace.acked[i] == s.trace.acked[i] + if j == i && m.Ack? then 1 else 0
  {
    assert s.down[i] + [] == s.down[i];
  }

  lemma ChainToPrimary(s: System, j: nat, i: nat)
    requires Shape(s) && ChainInv(s) && CanDeliverUp(s, j) && IsPeer(s, i)
    ensures var s' := StepToPrimary(s, j);
            Chain(s'.trace.order, s'.trace.consumed[i], s'.trace.acked[i], s'.up[i], s'.down[i])
  {
    var order, c, a, up, down := s.trace.order, s.trace.consumed[i], s.trace.acked[i], s.up[i], s.down[i];
    var more := AnswerTo(s, j, i);
    DeliveryChannels(s, j, i);
    AnswerIsOkay(s, j, i);
    assert Chain(order, c, a, up, down);
    ChainExtends(order, c, a, up, down, [], more);
    assert up + [] == up;
    if j == i {
      if s.up[j][0].Ack? {
        ChainAcknowledges(order, c, a, up, down + more);
      } else {
        ChainSkipsUp(order, c, a, up, down + more);
      }
    }
  }

  lemma AnswersAcks(node: Node, i: nat, m: DownMessage)
    requires !m.Commit?
    ensures AcksIn(PeerReceive(node, i, m).1) == []
  {
    var answer := PeerReceive(node, i, m).1;
    if answer != [] {
      UpOne(answer[0]);
      Single(answer);
    }
  }

  lemma ChainSkips(s: System, i: nat)
    requires Shape(s) && ChainInv(s) && CanDeliverDown(s, i) && !s.down[i][0].Commit?
    ensures var s' := StepToPeer(s, i);
            Chain(s'.trace.order, s'.trace.consumed[i], s'.trace.acked[i], s'.up[i], s'.down[i])
  {
    var order, c, a, up, down := s.trace.order, s.trace.consumed[i], s.trace.acked[i], s.up[i], s.down[i];
    var answer := PeerReceive(s.nodes[i], i, down[0]).1;
    assert Chain(order, c, a, up, down);
    ChainSkipsDown(order, c, a, up, down);
    AnswersAcks(s.nodes[i], i, down[0]);
    ChainExtends(order, c, a, up, down[1..], answer, []);
    RightEmpty(down[1..]);
  }

  lemma ChainReceipt(s: System, i: nat)
    requires Shape(s) && ChainInv(s) && CanDeliverDown(s, i)
    ensures var s' := StepToPeer(s, i);
            Chain(s'.trace.order, s'.trace.consumed[i], s'.trace.acked[i], s'.up[i], s'.down[i])
  {
    if s.down[i][0].Commit? {
      assert Chain(s.trace.order, s.trace.consumed[i], s.trace.acked[i], s.up[i], s.down[i]);
      ChainConsumes(s.trace.order, s.trace.consumed[i], s.trace.acked[i], s.up[i], s.down[i]);
    } else {
      ChainSkips(s, i);
    }
  }

  lemma ChainToPeer(s: System, j: nat, i: nat)
    requires Shape(s) && ChainInv(s) && CanDeliverDown(s, j) && IsPeer(s, i)
    ensures var s' := StepToPeer(s, j);
            Chain(s'.trace.order, s'.trace.consumed[i], s'.trace.acked[i], s'.up[i], s'.down[i])
  {
    if j == i {
      ChainReceipt(s, i);
    } else {
      assert Chain(s.trace.order, s.trace.consumed[i], s.trace.acked[i], s.up[i], s.down[i]);
    }
  }

  lemma ChainSequence(s: System, i: nat)
    requires Shape(s) && ChainInv(s) && CanSequence(s) && IsPeer(s, i)
    ensures var s' := Step(s, Sequence);
            Chain(s'.trace.order, s'.trace.consumed[i], s'.trace.acked[i], s'.up[i], s'.down[i])
  {
    var order, c, a, up, down := s.trace.order, s.trace.consumed[i], s.trace.acked[i], s.up[i], s.down[i];
    assert Chain(order, c, a, up, down);
    match s.sequencer.holdQueue[0] {
      case HeldWrite(e) =>
        ChainSequences(order, c, a, up, down, s.sequencer.stamp, e);
      case HeldTransfer(r, have) =>
        var cs := Shipped(LogFrom(s.nodes[PRIMARY].log, have));
        TransfersProject(cs);
        ChainExtends(order, c, a, up, down, [], Transfers(cs));
        assert up + [] == up;
    }
  }

  // ---- Pipelines ----

  lemma PipeWrite(s: System, i: nat, c: Command, r: nat)
    requires Shape(s) && PipeInv(s) && CanWrite(s, i) && IsServer(s, r)
    ensures PipeAt(StepWrite(s, i, c), r)
  {
    var order, hold, up, next := s.trace.order, s.sequencer.holdQueue, s.up[r], NextNum(s.nodes[r]);
    var e := BeginWrite(s.nodes[i], i, c).1;
    assert PipeAt(s, r);
    if r != i {
      if i == PRIMARY { PipeOthers(order, hold, up, r, next, HeldWrite(e)); }
    } else if i == PRIMARY {
      PipeHolds(order, hold, r, next, e);
    } else {
      PipeSends(order, hold, up, r, next, e);
    }
  }

  /** Of a delivery, the pipelines notice only whether a request moved to the hold queue. */
  lemma DeliveryMoves(s: System, i: nat)
    requires Shape(s) && CanDeliverUp(s, i)
    ensures var s', m := StepToPrimary(s, i), s.up[i][0];
            && s'.trace.order == s.trace.order
            && s'.up == s.up[i := s.up[i][1..]]
            && s'.sequencer.holdQueue == s.sequencer.holdQueue + (if m.Request? then [m.item] else [])
            && s'.sequencer.phase == s.sequencer.phase
    ensures forall r: nat :: IsServer(s, r) ==> NextNum(StepToPrimary(s, i).nodes[r]) == NextNum(s.nodes[r])
  {
  }

  lemma PipeToPrimary(s: System, i: nat, r: nat)
    requires Shape(s) && PipeInv(s) && CanDeliverUp(s, i) && IsServer(s, r)
    ensures PipeAt(StepToPrimary(s, i), r)
    ensures s.up[i][0].Request? ==> RequestorOf(s.up[i][0].item) == i
  {
    var order, hold, m := s.trace.order, s.sequencer.holdQueue, s.up[i][0];
    DeliveryMoves(s, i);
    assert PipeAt(s, r) && PipeAt(s, i);
    if m.Request? {
      PipeArrives(order, hold, s.up[i], i, NextNum(s.nodes[i]));
      if r != i { PipeOthers(order, hold, s.up[r], r, NextNum(s.nodes[r]), m.item); }
    } else {
      assert hold + [] == hold;
      PipeDrops(order, hold, s.up[i], i, NextNum(s.nodes[i]));
    }
  }

  lemma PipeToPeer(s: System, i: nat, r: nat)
    requires Shape(s) && PipeInv(s) && CanDeliverDown(s, i) && IsServer(s, r)
    ensures PipeAt(StepToPeer(s, i), r)
  {
    var s' := StepToPeer(s, i);
    var answer := PeerReceive(s.nodes[i], i, s.down[i][0]).1;
    assert PipeAt(s, r);
    assert s'.trace.order == s.trace.order && s'.sequencer == s.sequencer;
    assert NextNum(s'.nodes[r]) == NextNum(s.nodes[r]);
    if r == i {
      if answer == [] {
        assert s.up[i] + [] == s.up[i];
      } else {
        assert answer == [answer[0]] && !answer[0].Request?;
        PipeAppends(s.trace.order, s.sequencer.holdQueue, s.up[i], i, NextNum(s.nodes[i]), answer[0]);
      }
    }
  }

  /** The write at the head of the hold queue is its requestor's next one. */
  lemma HeadIsNext(s: System, e: Entry)
    requires Shape(s) && PipeInv(s) && CanSequence(s) && s.sequencer.holdQueue[0] == HeldWrite(e)
    ensures IsServer(s, e.requestor) && e.seqNum == CountBy(s.trace.order, e.requestor)
  {
    var r := e.requestor;
    assert RequestorOf(s.sequencer.holdQueue[0]) == r;
    assert PipeAt(s, r);
    PipeSequences(s.trace.order, s.sequencer.holdQueue, s.up[r], r, NextNum(s.nodes[r]), 0);
  }

  lemma PipeSequenceWrite(s: System, e: Entry, r: nat)
    requires Shape(s) && PipeInv(s) && CanSequence(s) && s.sequencer.holdQueue[0] == HeldWrite(e) && IsServer(s, r)
    ensures PipeAt(StepSequenceWrite(s, e), r)
  {
    var s' := StepSequenceWrite(s, e);
    assert PipeAt(s, r);
    PipeSequences(s.trace.order, s.sequencer.holdQueue, s.up[r], r, NextNum(s.nodes[r]), s.sequencer.stamp);
    assert NextNum(s'.nodes[r]) == NextNum(s.nodes[r]);
  }

  lemma PipeSequenceTransfer(s: System, q: nat, have: nat, r: nat)
    requires Shape(s) && PipeInv(s) && CanSequence(s) && s.sequencer.holdQueue[0] == HeldTransfer(q, have)
    requires IsServer(s, r)
    ensures PipeAt(StepSequenceTransfer(s, q, have), r)
  {
    assert PipeAt(s, r);
    PipePops(s.trace.order, s.sequencer.holdQueue, s.up[r], r, NextNum(s.nodes[r]));
  }

  lemma PipeAfterWrite(s: System, e: Entry)
    requires Shape(s) && PipeInv(s) && CanSequence(s) && s.sequencer.holdQueue[0] == HeldWrite(e)
    ensures PipeInv(StepSequenceWrite(s, e))
  {
    var s' := StepSequenceWrite(s, e);
    HeadIsNext(s, e);
    NumberedNext(s.trace.order, Sequenced(s.sequencer.stamp, e));
    forall r: nat | IsServer(s, r) ensures PipeAt(s', r) { PipeSequenceWrite(s, e, r); }
  }

  lemma PipeAfterTransfer(s: System, q: nat, have: nat)
    requires Shape(s) && PipeInv(s) && CanSequence(s) && s.sequencer.holdQueue[0] == HeldTransfer(q, have)
    ensures PipeInv(StepSequenceTransfer(s, q, have))
  {
    var s' := StepSequenceTransfer(s, q, have);
    forall r: nat | IsServer(s, r) ensures PipeAt(s', r) { PipeSequenceTransfer(s, q, have, r); }
  }

  lemma PipeSequence(s: System)
    requires Shape(s) && PipeInv(s) && CanSequence(s)
    ensures PipeInv(Step(s, Sequence))
  {
    match s.sequencer.holdQueue[0] {
      case HeldWrite(e) => PipeAfterWrite(s, e);
      case HeldTransfer(q, have) => PipeAfterTransfer(s, q, have);
    }
  }

  lemma PipeRestart(s: System, i: nat, r: nat)
    requires Shape(s) && PipeInv(s) && IsServer(s, i) && IsServer(s, r)
    ensures PipeAt(StepRestart(s, i), r)
  {
    assert PipeAt(s, r);
    if r == i && i != PRIMARY {
      var m := Request(HeldTransfer(i, |s.nodes[i].log|));
      PipeAppends(s.trace.order, s.sequencer.holdQueue, s.up[i], i, NextNum(s.nodes[i]), m);
    }
  }

  lemma PipeAfterSend(s: System, i: nat, c: Command)
    requires Shape(s) && PipeInv(s) && CanWrite(s, i)
    ensures PipeInv(StepWrite(s, i, c))
  {
    forall r: nat | IsServer(s, r) ensures PipeAt(StepWrite(s, i, c), r) { PipeWrite(s, i, c, r); }
  }

  lemma PipeAfterDelivery(s: System, i: nat)
    requires Shape(s) && PipeInv(s) && CanDeliverUp(s, i)
    ensures PipeInv(StepToPrimary(s, i))
  {
    DeliveryMoves(s, i);
    forall r: nat | IsServer(s, r) ensures PipeAt(StepToPrimary(s, i), r) { PipeToPrimary(s, i, r); }
    PipeToPrimary(s, i, i);
  }

  lemma PipeAfterReceipt(s: System, i: nat)
    requires Shape(s) && PipeInv(s) && CanDeliverDown(s, i)
    ensures PipeInv(StepToPeer(s, i))
  {
    forall r: nat | IsServer(s, r) ensures PipeAt(StepToPeer(s, i), r) { PipeToPeer(s, i, r); }
  }

  lemma PipeAfterRestart(s: System, i: nat)
    requires Shape(s) && PipeInv(s) && IsServer(s, i)
    ensures PipeInv(StepRestart(s, i))
  {
    forall r: nat | IsServer(s, r) ensures PipeAt(StepRestart(s, i), r) { PipeRestart(s, i, r); }
  }

  lemma PipeSteps(s: System, ev: Event)
    requires Shape(s) && PipeInv(s)
    ensures PipeInv(Step(s, ev))
  {
    if Enabled(s, ev) {
      match ev {
        case Write(i, c) => PipeAfterSend(s, i, c);
        case ToPrimary(i) => PipeAfterDelivery(s, i);
        case ToPeer(i) => PipeAfterReceipt(s, i);
        case Sequence => PipeSequence(s);
        case Restart(i) => PipeAfterRestart(s, i);
        case _ => PipeUnmoved(s, Step(s, ev));
      }
    }
  }

  lemma PipeUnmoved(s: System, s': System)
    requires Shape(s) && Shape(s') && PipeInv(s)
    requires s'.n == s.n && s'.up == s.up && s'.trace.order == s.trace.order
    requires s'.sequencer.holdQueue == s.sequencer.holdQueue
    requires forall r: nat :: IsServer(s, r) ==> NextNum(s'.nodes[r]) == NextNum(s.nodes[r])
    ensures PipeInv(s')
  {
    forall r: nat | IsServer(s, r) ensures PipeAt(s', r) {
      assert PipeAt(s, r);
    }
  }

  // ---- Acknowledgement counting ----

  /** The acknowledgement a replica sent is for a tracked write, and brings its count down by one. */
  lemma AckIsTracked(s: System, i: nat)
    requires Shape(s) && ChainInv(s) && PipeInv(s) && TrackInv(s) && CanDeliverUp(s, i) && s.up[i][0].Ack?
    ensures var m, a := s.up[i][0], s.trace.acked[i];
            && a < |s.trace.order| && Id(s.trace.order[a]) == (m.requestor, m.seqNum)
            && Tracked(s.sequencer.acktrack, m.requestor, m.seqNum)
            && i in Waiting(s.trace.acked, s.n, a)
            && s.sequencer.acktrack[m.requestor][m.seqNum] == |Waiting(s.trace.acked, s.n, a)|
  {
    var order, a := s.trace.order, s.trace.acked[i];
    assert Chain(order, s.trace.consumed[i], a, s.up[i], s.down[i]);
    ChainAcknowledges(order, s.trace.consumed[i], a, s.up[i], s.down[i]);
    WaitingCounts(s.trace.acked, s.n, i, a);
    assert CountOf(s.sequencer.acktrack, Id(order[a])) == |Waiting(s.trace.acked, s.n, a)|;
  }

  lemma CountDownCounts(at: AckTrack, r: nat, q: nat, id: (nat, nat))
    requires Tracked(at, r, q)
    ensures CountOf(CountDown(at, r, q), id) == CountOf(at, id) - if id == (r, q) then 1 else 0
    ensures Tracked(CountDown(at, r, q), id.0, id.1) <==>
            Tracked(at, id.0, id.1) && !(id == (r, q) && at[r][q] == 1)
  {
  }

  lemma TrackCounts(at: AckTrack, r: nat, q: nat, peers: nat, id: (nat, nat))
    requires !Tracked(at, r, q)
    ensures CountOf(Track(at, r, q, peers), id) == if id == (r, q) then peers else CountOf(at, id)
    ensures Tracked(Track(at, r, q, peers), id.0, id.1) <==> Tracked(at, id.0, id.1) || id == (r, q)
  {
  }

  /** What delivering a tracked acknowledgement changes for the counting. */
  lemma AckEffect(s: System, i: nat)
    requires Shape(s) && CanDeliverUp(s, i) && s.up[i][0].Ack?
    requires Tracked(s.sequencer.acktrack, s.up[i][0].requestor, s.up[i][0].seqNum)
    ensures var s', m, at := StepToPrimary(s, i), s.up[i][0], s.sequencer.acktrack;
            && s'.trace.order == s.trace.order
            && s'.trace.acked == s.trace.acked[i := s.trace.acked[i] + 1]
            && s'.sequencer.acktrack == CountDown(at, m.requestor, m.seqNum)
            && s'.trace.okays == s.trace.okays +
                 if at[m.requestor][m.seqNum] == 1 && m.requestor != PRIMARY && IsPeer(s, m.requestor)
                 then multiset{(m.requestor, m.seqNum)} else multiset{}
  {
    var m := s.up[i][0];
    CountDownCounts(s.sequencer.acktrack, m.requestor, m.seqNum, (m.requestor, m.seqNum));
  }

  lemma AckedIds(s: System, i: nat, k: nat)
    requires Shape(s) && ChainInv(s) && PipeInv(s) && TrackInv(s) && CanDeliverUp(s, i) && s.up[i][0].Ack?
    requires k < |s.trace.order|
    ensures Id(s.trace.order[k]) == (s.up[i][0].requestor, s.up[i][0].seqNum) <==> k == s.trace.acked[i]
  {
    AckIsTracked(s, i);
    if Id(s.trace.order[k]) == Id(s.trace.order[s.trace.acked[i]]) {
      IdsDistinct(s.trace.order, s.trace.acked[i], k);
    }
  }

  lemma CountsBefore(s: System, k: nat)
    requires Shape(s) && TrackInv(s) && k < |s.trace.order|
    ensures CountOf(s.sequencer.acktrack, Id(s.trace.order[k])) == |Waiting(s.trace.acked, s.n, k)|
  {
  }

  lemma OneFewer(w: set<nat>, i: nat)
    requires i in w
    ensures |w - {i}| == |w| - 1
  {
  }

  lemma TrackAckLast(s: System, i: nat)
    requires Shape(s) && ChainInv(s) && PipeInv(s) && TrackInv(s) && CanDeliverUp(s, i) && s.up[i][0].Ack?
    ensures var s', a := StepToPrimary(s, i), s.trace.acked[i];
            && a < |s.trace.order|
            && CountOf(s'.sequencer.acktrack, Id(s.trace.order[a])) == |Waiting(s.trace.acked, s.n, a)| - 1
            && Waiting(s'.trace.acked, s.n, a) == Waiting(s.trace.acked, s.n, a) - {i}
            && i in Waiting(s.trace.acked, s.n, a)
  {
    var a := s.trace.acked[i];
    AckIsTracked(s, i);
    AckEffect(s, i);
    WaitingCounts(s.trace.acked, s.n, i, a);
    CountDownCounts(s.sequencer.acktrack, s.up[i][0].requestor, s.up[i][0].seqNum, Id(s.trace.order[a]));
  }

  lemma TrackAckOther(s: System, i: nat, k: nat)
    requires Shape(s) && ChainInv(s) && PipeInv(s) && TrackInv(s) && CanDeliverUp(s, i) && s.up[i][0].Ack?
    requires k < |s.trace.order| && k != s.trace.acked[i]
    ensures var s' := StepToPrimary(s, i);
            && CountOf(s'.sequencer.acktrack, Id(s.trace.order[k])) ==
               CountOf(s.sequencer.acktrack, Id(s.trace.order[k]))
            && Waiting(s'.trace.acked, s.n, k) == Waiting(s.trace.acked, s.n, k)
  {
    AckIsTracked(s, i);
    AckEffect(s, i);
    AckedIds(s, i, k);
    WaitingCounts(s.trace.acked, s.n, i, k);
    CountDownCounts(s.sequencer.acktrack, s.up[i][0].requestor, s.up[i][0].seqNum, Id(s.trace.order[k]));
  }

  lemma TrackAckAt(s: System, i: nat, k: nat)
    requires Shape(s) && ChainInv(s) && PipeInv(s) && TrackInv(s) && CanDeliverUp(s, i) && s.up[i][0].Ack?
    requires k < |s.trace.order|
    ensures var s' := StepToPrimary(s, i);
            CountOf(s'.sequencer.acktrack, Id(s.trace.order[k])) == |Waiting(s'.trace.acked, s.n, k)|
  {
    if k == s.trace.acked[i] {
      TrackAckLast(s, i);
      OneFewer(Waiting(s.trace.acked, s.n, k), i);
    } else {
      TrackAckOther(s, i, k);
      CountsBefore(s, k);
    }
  }

  lemma CountDownBound(at: AckTrack, r: nat, q: nat, r': nat, q': int)
    requires Tracked(at, r, q) && Tracked(CountDown(at, r, q), r', q')
    requires Tracked(at, r', q') ==> at[r'][q'] > 0
    ensures Tracked(at, r', q') && CountDown(at, r, q)[r'][q'] > 0
  {
  }

  lemma TrackAck(s: System, i: nat)
    requires Shape(s) && ChainInv(s) && PipeInv(s) && TrackInv(s) && CanDeliverUp(s, i) && s.up[i][0].Ack?
    ensures TrackInv(StepToPrimary(s, i))
  {
    var s', m := StepToPrimary(s, i), s.up[i][0];
    AckIsTracked(s, i);
    AckEffect(s, i);
    forall k | 0 <= k < |s.trace.order|
      ensures CountOf(s'.sequencer.acktrack, Id(s'.trace.order[k])) == |Waiting(s'.trace.acked, s.n, k)|
    {
      TrackAckAt(s, i, k);
    }
    forall r: nat, q: int | Tracked(s'.sequencer.acktrack, r, q)
      ensures s'.sequencer.acktrack[r][q] > 0 && 0 <= q < CountBy(s'.trace.order, r)
    {
      CountDownBound(s.sequencer.acktrack, m.requestor, m.seqNum, r, q);
      assert Tracked(s.sequencer.acktrack, r, q);
    }
  }

  lemma TrackSequenceAt(s: System, e: Entry, k: nat)
    requires Shape(s) && ChainInv(s) && PipeInv(s) && TrackInv(s) && CanSequence(s) && k <= |s.trace.order|
    requires s.sequencer.holdQueue[0] == HeldWrite(e)
    ensures var order' := s.trace.order + [Sequenced(s.sequencer.stamp, e)];
            CountOf(Track(s.sequencer.acktrack, e.requestor, e.seqNum, s.n - 1), Id(order'[k])) ==
            |Waiting(s.trace.acked, s.n, k)|
  {
    var order, at := s.trace.order, s.sequencer.acktrack;
    HeadIsNext(s, e);
    assert !Tracked(at, e.requestor, e.seqNum);
    if k == |order| {
      TrackCounts(at, e.requestor, e.seqNum, s.n - 1, (e.requestor, e.seqNum));
      forall i: nat | 2 <= i <= s.n ensures s.trace.acked[i] <= |order| {
        assert Chain(order, s.trace.consumed[i], s.trace.acked[i], s.up[i], s.down[i]);
      }
      PeersCount(s.trace.acked, s.n, k);
    } else {
      NumberBelowCount(order, k);
      TrackCounts(at, e.requestor, e.seqNum, s.n - 1, Id(order[k]));
      assert CountOf(at, Id(order[k])) == |Waiting(s.trace.acked, s.n, k)|;
    }
  }

  lemma TrackBound(at: AckTrack, r: nat, q: nat, peers: nat, r': nat, q': int)
    requires Tracked(Track(at, r, q, peers), r', q')
    ensures || (Tracked(at, r', q') && Track(at, r, q, peers)[r'][q'] == at[r'][q'])
            || (r' == r && q' == q && Track(at, r, q, peers)[r'][q'] == peers)
  {
  }

  lemma BoundBefore(s: System, r: nat, q: int)
    requires Shape(s) && TrackInv(s) && Tracked(s.sequencer.acktrack, r, q)
    ensures s.sequencer.acktrack[r][q] > 0 && 0 <= q < CountBy(s.trace.order, r)
  {
  }

  lemma TrackSequenceBound(s: System, e: Entry, r: nat, q: int)
    requires Shape(s) && TrackInv(s) && CanSequence(s) && e.seqNum == CountBy(s.trace.order, e.requestor)
    requires Tracked(Track(s.sequencer.acktrack, e.requestor, e.seqNum, s.n - 1), r, q)
    ensures Track(s.sequencer.acktrack, e.requestor, e.seqNum, s.n - 1)[r][q] > 0
    ensures 0 <= q < CountBy(s.trace.order + [Sequenced(s.sequencer.stamp, e)], r)
  {
    CountByNext(s.trace.order, Sequenced(s.sequencer.stamp, e), r);
    TrackBound(s.sequencer.acktrack, e.requestor, e.seqNum, s.n - 1, r, q);
    if Tracked(s.sequencer.acktrack, r, q) { BoundBefore(s, r, q); }
  }

  lemma TrackSequence(s: System, e: Entry)
    requires Shape(s) && ChainInv(s) && PipeInv(s) && TrackInv(s) && CanSequence(s)
    requires s.sequencer.holdQueue[0] == HeldWrite(e)
    ensures TrackInv(StepSequenceWrite(s, e))
  {
    var s' := StepSequenceWrite(s, e);
    HeadIsNext(s, e);
    forall k | 0 <= k <= |s.trace.order|
      ensures CountOf(s'.sequencer.acktrack, Id(s'.trace.order[k])) == |Waiting(s'.trace.acked, s.n, k)|
    {
      TrackSequenceAt(s, e, k);
    }
    forall r: nat, q: int | Tracked(s'.sequencer.acktrack, r, q)
      ensures s'.sequencer.acktrack[r][q] > 0 && 0 <= q < CountBy(s'.trace.order, r)
    {
      TrackSequenceBound(s, e, r, q);
    }
  }

  lemma TrackUnmoved(s: System, s': System)
    requires Shape(s) && Shape(s') && TrackInv(s)
    requires s'.n == s.n && s'.trace.order == s.trace.order && s'.trace.acked == s.trace.acked
    requires s'.sequencer.acktrack == s.sequencer.acktrack
    ensures TrackInv(s')
  {
    forall k | 0 <= k < |s.trace.order|
      ensures CountOf(s'.sequencer.acktrack, Id(s'.trace.order[k])) == |Waiting(s'.trace.acked, s'.n, k)|
    {
      assert CountOf(s.sequencer.acktrack, Id(s.trace.order[k])) == |Waiting(s.trace.acked, s.n, k)|;
    }
  }

  /** The events that leave order, acknowledgements and +OKs alone. */
  predicate Silent(s: System, ev: Event)
    requires Shape(s)
  {
    match ev
    case ToPrimary(i) => CanDeliverUp(s, i) ==> !s.up[i][0].Ack?
    case Sequence => CanSequence(s) ==> s.sequencer.holdQueue[0].HeldTransfer?
    case _ => true
  }

  lemma SilentStep(s: System, ev: Event)
    requires Shape(s) && Silent(s, ev)
    ensures var s' := Step(s, ev);
            && s'.trace.order == s.trace.order && s'.trace.acked == s.trace.acked
            && s'.sequencer.acktrack == s.sequencer.acktrack && s'.trace.okays == s.trace.okays
  {
    if Enabled(s, ev) {
      match ev {
        case ToPrimary(i) => assert s.trace.acked[i := s.trace.acked[i]] == s.trace.acked;
        case _ =>
      }
    }
  }

  lemma TrackSteps(s: System, ev: Event)
    requires Shape(s) && ChainInv(s) && PipeInv(s) && TrackInv(s)
    ensures TrackInv(Step(s, ev))
  {
    if Silent(s, ev) {
      SilentStep(s, ev);
      TrackUnmoved(s, Step(s, ev));
    } else if ev.ToPrimary? {
      TrackAck(s, ev.server);
    } else {
      TrackSequence(s, s.sequencer.holdQueue[0].entry);
    }
  }

  // ---- +OK ----

  /** Removing a member leaves nothing exactly when it was the only one. */
  lemma LastOne(w: set<nat>, i: nat)
    requires i in w
    ensures w - {i} == {} <==> |w| == 1
  {
    assert |w - {i}| == |w| - 1;
  }

  lemma OkayAckLast(s: System, i: nat)
    requires Shape(s) && ChainInv(s) && PipeInv(s) && TrackInv(s) && OkayInv(s)
    requires CanDeliverUp(s, i) && s.up[i][0].Ack?
    ensures var s', a := StepToPrimary(s, i), s.trace.acked[i];
            && a < |s.trace.order|
            && s'.trace.okays[Id(s.trace.order[a])] ==
               if s.trace.order[a].entry.requestor != PRIMARY && Waiting(s'.trace.acked, s.n, a) == {} then 1 else 0
  {
    var order, a := s.trace.order, s.trace.acked[i];
    AckIsTracked(s, i);
    AckEffect(s, i);
    LastOne(Waiting(s.trace.acked, s.n, a), i);
    assert IsServer(s, order[a].entry.requestor);
    WaitingCounts(s.trace.acked, s.n, i, a);
    OkayBefore(s, a);
  }

  lemma OkayBefore(s: System, k: nat)
    requires Shape(s) && OkayInv(s) && k < |s.trace.order|
    ensures s.trace.okays[Id(s.trace.order[k])] ==
            if s.trace.order[k].entry.requestor != PRIMARY && Waiting(s.trace.acked, s.n, k) == {} then 1 else 0
  {
  }

  lemma CountElsewhere<T>(a: multiset<T>, x: T, y: T)
    requires x != y
    ensures (a + multiset{x})[y] == a[y]
  {
  }

  lemma OkayAckOther(s: System, i: nat, k: nat)
    requires Shape(s) && ChainInv(s) && PipeInv(s) && TrackInv(s)
    requires CanDeliverUp(s, i) && s.up[i][0].Ack? && k < |s.trace.order| && k != s.trace.acked[i]
    ensures var s' := StepToPrimary(s, i);
            && s'.trace.okays[Id(s.trace.order[k])] == s.trace.okays[Id(s.trace.order[k])]
            && Waiting(s'.trace.acked, s.n, k) == Waiting(s.trace.acked, s.n, k)
  {
    var answered, okays := (s.up[i][0].requestor, s.up[i][0].seqNum), StepToPrimary(s, i).trace.okays;
    AckIsTracked(s, i);
    AckEffect(s, i);
    AckedIds(s, i, k);
    WaitingCounts(s.trace.acked, s.n, i, k);
    assert okays == s.trace.okays || okays == s.trace.okays + multiset{answered};
    CountElsewhere(s.trace.okays, answered, Id(s.trace.order[k]));
  }

  lemma OkayAckAt(s: System, i: nat, k: nat)
    requires Shape(s) && ChainInv(s) && PipeInv(s) && TrackInv(s) && OkayInv(s)
    requires CanDeliverUp(s, i) && s.up[i][0].Ack? && k < |s.trace.order|
    ensures var s' := StepToPrimary(s, i);
            s'.trace.okays[Id(s.trace.order[k])] ==
            if s.trace.order[k].entry.requestor != PRIMARY && Waiting(s'.trace.acked, s.n, k) == {} then 1 else 0
  {
    if k == s.trace.acked[i] {
      OkayAckLast(s, i);
    } else {
      OkayAckOther(s, i, k);
      OkayBefore(s, k);
    }
  }

  lemma OkayAck(s: System, i: nat)
    requires Shape(s) && ChainInv(s) && PipeInv(s) && TrackInv(s) && OkayInv(s)
    requires CanDeliverUp(s, i) && s.up[i][0].Ack?
    ensures OkayInv(StepToPrimary(s, i))
  {
    var s' := StepToPrimary(s, i);
    var order, a, m := s.trace.order, s.trace.acked[i], s.up[i][0];
    AckIsTracked(s, i);
    AckEffect(s, i);
    assert IsServer(s, order[a].entry.requestor);
    NumberBelowCount(order, a);
    forall k | 0 <= k < |order|
      ensures s'.trace.okays[Id(order[k])] ==
        if order[k].entry.requestor != PRIMARY && Waiting(s'.trace.acked, s.n, k) == {} then 1 else 0
    {
      OkayAckAt(s, i, k);
    }
  }

  lemma SequencedLast(s: System, e: Entry)
    requires Shape(s) && CanSequence(s)
    ensures var s' := StepSequenceWrite(s, e);
            && s'.trace.order == s.trace.order + [Sequenced(s.sequencer.stamp, e)]
            && s'.trace.okays == s.trace.okays && s'.trace.acked == s.trace.acked
  {
  }

  /** A write just sequenced has not been answered, and replica 2 has yet to acknowledge it. */
  lemma OkayAfterAll(s: System, e: Entry)
    requires Shape(s) && ChainInv(s) && PipeInv(s) && OkayInv(s) && CanSequence(s)
    requires s.sequencer.holdQueue[0] == HeldWrite(e)
    ensures (e.requestor, e.seqNum) !in s.trace.okays
    ensures Waiting(s.trace.acked, s.n, |s.trace.order|) != {}
  {
    HeadIsNext(s, e);
    assert Chain(s.trace.order, s.trace.consumed[2], s.trace.acked[2], s.up[2], s.down[2]);
    assert 2 in Waiting(s.trace.acked, s.n, |s.trace.order|);
  }

  lemma OkaySequence(s: System, e: Entry)
    requires Shape(s) && ChainInv(s) && PipeInv(s) && OkayInv(s) && CanSequence(s)
    requires s.sequencer.holdQueue[0] == HeldWrite(e)
    ensures OkayInv(StepSequenceWrite(s, e))
  {
    var s', order := StepSequenceWrite(s, e), s.trace.order;
    SequencedLast(s, e);
    OkayAfterAll(s, e);
    forall k | 0 <= k < |s'.trace.order|
      ensures s'.trace.okays[Id(s'.trace.order[k])] ==
              if s'.trace.order[k].entry.requestor != PRIMARY && Waiting(s'.trace.acked, s.n, k) == {} then 1 else 0
    {
      if k < |order| { OkayBefore(s, k); }
    }
    forall id | id in s'.trace.okays ensures id.1 < CountBy(s'.trace.order, id.0) {
      CountByNext(order, Sequenced(s.sequencer.stamp, e), id.0);
    }
  }

  lemma OkaySteps(s: System, ev: Event)
    requires Shape(s) && ChainInv(s) && PipeInv(s) && TrackInv(s) && OkayInv(s)
    ensures OkayInv(Step(s, ev))
  {
    if Silent(s, ev) {
      SilentStep(s, ev);
    } else if ev.ToPrimary? {
      OkayAck(s, ev.server);
    } else {
      OkaySequence(s, s.sequencer.holdQueue[0].entry);
    }
  }

  // ---- Whole runs ----

  ghost predicate OrderInv(s: System)
    requires Shape(s)
  {
    ChainInv(s) && PipeInv(s) && TrackInv(s) && OkayInv(s)
  }

  lemma {:induction false} OrderHolds(n: nat, evs: seq<Event>)
    requires n >= 2
    ensures OrderInv(Run(n, evs))
  {
    if evs != [] {
      var s := Run(n, evs[..|evs| - 1]);
      OrderHolds(n, evs[..|evs| - 1]);
      ChainSteps(s, evs[|evs| - 1]);
      PipeSteps(s, evs[|evs| - 1]);
      TrackSteps(s, evs[|evs| - 1]);
      OkaySteps(s, evs[|evs| - 1]);
    }
  }
}
