/** The checkpoint barrier: while the primary waits nothing is sequenced, and when it goes on every server that its
    request met enabled has taken its checkpoint after the same commits. */
module Barrier {
  import opened KeyValue
  import opened WriteAheadLog
  import opened Replication
  import opened Channels
  import opened Ordering

  /** No commit travels behind a checkpoint request. */
  predicate NoCommitBehind(q: seq<DownMessage>) {
    forall x, y :: 0 <= x < y < |q| && q[x].Checkpoint? ==> !q[y].Commit?
  }

  /** Checkpoint requests and answers under way between the primary and one replica. */
  function Under(s: System, i: nat): nat
    requires Shape(s) && IsServer(s, i)
  {
    CheckpointsIn(s.down[i]) + CheckpointAcksIn(s.up[i])
  }

  function Outstanding(s: System): set<nat>
    requires Shape(s)
  {
    set i: nat | 2 <= i <= s.n && Under(s, i) > 0
  }

  /** The cuts at which a replica met the request. */
  function Taken(cuts: seq<nat>, took: seq<bool>): seq<nat>
    requires |cuts| == |took|
  {
    if took == [] then []
    else Taken(cuts[..|took| - 1], took[..|took| - 1]) + (if took[|took| - 1] then [cuts[|took| - 1]] else [])
  }

  /** A replica has answered every request of the primary's but the ones on their way to it, and its own cuts are
      the primary's at those it met. */
  predicate Cut(primary: seq<nat>, cuts: seq<nat>, took: seq<bool>, coming: nat, sequenced: nat) {
    && |took| + coming == |primary|
    && cuts == Taken(primary[..|took|], took)
    && (coming > 0 ==> primary[|primary| - 1] == sequenced)
  }

  ghost predicate BarrierAt(s: System, i: nat)
    requires Shape(s) && IsServer(s, i)
  {
    && Under(s, i) <= 1
    && NoCommitBehind(s.down[i])
    && Cut(s.trace.cuts[PRIMARY], s.trace.cuts[i], s.trace.took[i], CheckpointsIn(s.down[i]), |s.trace.order|)
    && s.nodes[i].version == |s.trace.cuts[i]|
    && (s.trace.stayed[i] ==> !s.nodes[i].disabled && false !in s.trace.took[i])
  }

  ghost predicate BarrierInv(s: System)
    requires Shape(s)
  {
    var q := s.sequencer;
    && (forall i: nat {:trigger BarrierAt(s, i)} :: IsPeer(s, i) ==> BarrierAt(s, i))
    && s.nodes[PRIMARY].version == |s.trace.cuts[PRIMARY]|
    && (q.phase != Phase.Barrier ==> Outstanding(s) == {} && !q.checkpointBlock)
    && (q.phase == Phase.Barrier ==>
          && q.sendCount == |Outstanding(s)|
          && (q.checkpointBlock <==> q.sendCount != 0)
          && s.trace.cuts[PRIMARY] != []
          && s.trace.cuts[PRIMARY][|s.trace.cuts[PRIMARY]| - 1] == |s.trace.order|)
  }

  // ---- Cuts ----

  lemma CutAsked(primary: seq<nat>, cuts: seq<nat>, took: seq<bool>, before: nat, sequenced: nat)
    requires Cut(primary, cuts, took, 0, before)
    ensures Cut(primary + [sequenced], cuts, took, 1, sequenced)
  {
    assert (primary + [sequenced])[..|took|] == primary[..|took|];
  }

  lemma CutAnswered(primary: seq<nat>, cuts: seq<nat>, took: seq<bool>, sequenced: nat, met: bool)
    requires Cut(primary, cuts, took, 1, sequenced)
    ensures Cut(primary, cuts + (if met then [sequenced] else []), took + [met], 0, sequenced)
  {
    assert (took + [met])[..|took|] == took;
    assert primary[..|took + [met]|][..|took|] == primary[..|took|];
  }

  lemma {:induction false} TakenAll(cuts: seq<nat>, took: seq<bool>)
    requires |cuts| == |took| && false !in took
    ensures Taken(cuts, took) == cuts
  {
    if took != [] {
      TakenAll(cuts[..|took| - 1], took[..|took| - 1]);
      assert took[|took| - 1] in took;
      assert cuts == cuts[..|took| - 1] + [cuts[|took| - 1]];
    }
  }

  // ---- Channels ----

  lemma {:induction false} NoCheckpoints(q: seq<DownMessage>)
    ensures CheckpointsIn(q) == 0 <==> forall x :: 0 <= x < |q| ==> !q[x].Checkpoint?
  {
    if q != [] {
      NoCheckpoints(q[..|q| - 1]);
    }
  }

  lemma {:induction false} NoCommits(q: seq<DownMessage>)
    requires forall x :: 0 <= x < |q| ==> !q[x].Commit?
    ensures CommitsIn(q) == []
  {
    if q != [] {
      NoCommits(q[..|q| - 1]);
    }
  }

  lemma BehindAppend(q: seq<DownMessage>, more: seq<DownMessage>)
    requires NoCommitBehind(q)
    requires (forall x :: 0 <= x < |more| ==> !more[x].Commit?) ||
             (CheckpointsIn(q) == 0 && NoCommitBehind(more))
    ensures NoCommitBehind(q + more)
  {
    NoCheckpoints(q);
  }

  /** A checkpoint request is consumed after every commit of the order. */
  lemma CheckpointSeesAll(s: System, i: nat)
    requires Shape(s) && ChainInv(s) && IsPeer(s, i) && NoCommitBehind(s.down[i])
    requires s.down[i] != [] && s.down[i][0].Checkpoint?
    ensures s.trace.consumed[i] == |s.trace.order|
  {
    var down, order, c := s.down[i], s.trace.order, s.trace.consumed[i];
    assert Chain(order, c, s.trace.acked[i], s.up[i], down);
    DownHead(down);
    DownOne(down[0]);
    NoCommits(down[1..]);
    assert |order[c..]| == 0;
  }

  // ---- Steps ----

  /** The frame of the events that touch no checkpoint, counter or cut. */
  lemma BarrierUnmoved(s: System, s': System)
    requires Shape(s) && Shape(s') && BarrierInv(s) && s'.n == s.n
    requires s'.trace.cuts == s.trace.cuts && s'.trace.took == s.trace.took && s'.trace.order == s.trace.order
    requires s'.sequencer.phase == s.sequencer.phase && s'.sequencer.sendCount == s.sequencer.sendCount
    requires s'.sequencer.checkpointBlock == s.sequencer.checkpointBlock
    requires forall i: nat :: IsServer(s, i) ==> s'.nodes[i].version == s.nodes[i].version
    requires forall i: nat :: IsPeer(s, i) && s'.trace.stayed[i] ==>
               s.trace.stayed[i] && s'.nodes[i].disabled == s.nodes[i].disabled
    requires forall i: nat :: IsPeer(s, i) ==>
               && CheckpointsIn(s'.down[i]) == CheckpointsIn(s.down[i])
               && CheckpointAcksIn(s'.up[i]) == CheckpointAcksIn(s.up[i])
               && (NoCommitBehind(s.down[i]) ==> NoCommitBehind(s'.down[i]))
    ensures BarrierInv(s')
  {
    forall i: nat | IsPeer(s, i) ensures BarrierAt(s', i) {
      assert BarrierAt(s, i);
    }
    assert Outstanding(s') == Outstanding(s);
  }

  /** Requests travel up without touching the barrier. */
  lemma RequestUnmoved(q: seq<UpMessage>, item: Held)
    ensures CheckpointAcksIn(q + [Request(item)]) == CheckpointAcksIn(q)
  {
    UpConcat(q, [Request(item)]);
    UpOne(Request(item));
  }

  lemma BarrierWrite(s: System, i: nat, c: Command)
    requires Shape(s) && BarrierInv(s) && CanWrite(s, i)
    ensures BarrierInv(StepWrite(s, i, c))
  {
    var s' := StepWrite(s, i, c);
    RequestUnmoved(s.up[i], HeldWrite(BeginWrite(s.nodes[i], i, c).1));
    assert s'.down == s.down && s'.trace == s.trace;
    assert forall j: nat :: IsServer(s, j) ==> s'.nodes[j].disabled == s.nodes[j].disabled;
    BarrierUnmoved(s, s');
  }

  lemma BarrierRestart(s: System, i: nat)
    requires Shape(s) && BarrierInv(s) && IsServer(s, i) && s.nodes[i].disabled
    ensures BarrierInv(StepRestart(s, i))
  {
    RequestUnmoved(s.up[i], HeldTransfer(i, |s.nodes[i].log|));
    var s' := StepRestart(s, i);
    if IsPeer(s, i) { assert BarrierAt(s, i); }
    BarrierUnmoved(s, s');
  }

  lemma BarrierDisable(s: System, i: nat)
    requires Shape(s) && BarrierInv(s) && IsServer(s, i)
    ensures BarrierInv(StepDisable(s, i))
  {
    BarrierUnmoved(s, StepDisable(s, i));
  }

  /** What a delivery to the primary does to the channels and the barrier. */
  lemma DeliveryEffect(s: System, i: nat) returns (more: seq<DownMessage>, r: nat)
    requires Shape(s) && CanDeliverUp(s, i)
    ensures IsServer(s, r) && forall x :: 0 <= x < |more| ==> more[x].Okay?
    ensures |more| <= 1
    ensures var s', q, m := StepToPrimary(s, i), s.sequencer, s.up[i][0];
            && s'.down == s.down[r := s.down[r] + more]
            && s'.up == s.up[i := s.up[i][1..]]
            && s'.trace.cuts == s.trace.cuts && s'.trace.order == s.trace.order
            && s'.trace.took == s.trace.took && s'.trace.stayed == s.trace.stayed
            && s'.sequencer.phase == q.phase
            && s'.sequencer.sendCount == q.sendCount - (if m.CheckpointAck? then 1 else 0)
            && s'.sequencer.checkpointBlock ==
               (q.checkpointBlock && (m.CheckpointAck? ==> q.sendCount - 1 != 0))
            && (forall j: nat :: IsServer(s, j) ==>
                  s'.nodes[j].version == s.nodes[j].version && s'.nodes[j].disabled == s.nodes[j].disabled)
  {
    var m := s.up[i][0];
    var reply := PrimaryReceive(s.nodes[PRIMARY], s.sequencer, m).2;
    if reply.Some? && IsPeer(s, m.requestor) {
      more, r := [reply.value], m.requestor;
    } else {
      more, r := [], PRIMARY;
      assert s.down[r] + [] == s.down[r];
      assert s.down[r := s.down[r]] == s.down;
    }
  }

  lemma BarrierToPrimaryAt(s: System, i: nat, j: nat)
    requires Shape(s) && BarrierInv(s) && CanDeliverUp(s, i) && IsPeer(s, j)
    ensures BarrierAt(StepToPrimary(s, i), j)
    ensures Under(StepToPrimary(s, i), j) ==
            Under(s, j) - if j == i && s.up[i][0].CheckpointAck? then 1 else 0
  {
    var more, r := DeliveryEffect(s, i);
    assert BarrierAt(s, j);
    if j == i {
      UpHead(s.up[i]);
      UpOne(s.up[i][0]);
    }
    if j == r {
      DownConcat(s.down[r], more);
      NoCheckpoints(more);
      BehindAppend(s.down[r], more);
    }
  }

  lemma AnswerCounts(up: seq<UpMessage>)
    requires up != [] && up[0].CheckpointAck?
    ensures CheckpointAcksIn(up) > 0
  {
    UpHead(up);
    UpOne(up[0]);
  }

  /** An answer that arrives is no longer outstanding. */
  lemma OutstandingLess(s: System, s': System, i: nat, answer: bool)
    requires Shape(s) && Shape(s') && s'.n == s.n && IsPeer(s, i) && Under(s, i) <= 1 && (answer ==> Under(s, i) > 0)
    requires forall j: nat :: IsPeer(s, j) ==> Under(s', j) == Under(s, j) - if j == i && answer then 1 else 0
    ensures Outstanding(s') == if answer then Outstanding(s) - {i} else Outstanding(s)
    ensures answer ==> i in Outstanding(s)
  {
  }

  lemma BarrierToPrimary(s: System, i: nat)
    requires Shape(s) && BarrierInv(s) && CanDeliverUp(s, i)
    ensures BarrierInv(StepToPrimary(s, i))
  {
    var s', m := StepToPrimary(s, i), s.up[i][0];
    var more, r := DeliveryEffect(s, i);
    forall j: nat | IsPeer(s, j)
      ensures BarrierAt(s', j) && Under(s', j) == Under(s, j) - if j == i && m.CheckpointAck? then 1 else 0
    {
      BarrierToPrimaryAt(s, i, j);
    }
    if m.CheckpointAck? { AnswerCounts(s.up[i]); }
    assert BarrierAt(s, i);
    OutstandingLess(s, s', i, m.CheckpointAck?);
  }

  /** What a message from the primary does to a replica's checkpoints, and what it answers. */
  lemma MessageEffect(node: Node, id: nat, m: DownMessage)
    ensures var (node', answer) := PeerReceive(node, id, m);
            && node'.disabled == node.disabled
            && node'.version == node.version + (if m.Checkpoint? && !node.disabled then 1 else 0)
            && CheckpointAcksIn(answer) == (if m.Checkpoint? then 1 else 0)
  {
    var answer := PeerReceive(node, id, m).1;
    if answer != [] {
      UpOne(answer[0]);
      assert answer == [answer[0]];
    }
  }

  lemma ReceiptElsewhere(s: System, i: nat, j: nat)
    requires Shape(s) && CanDeliverDown(s, i) && IsServer(s, j) && j != i
    ensures var s' := StepToPeer(s, i);
            && s'.nodes[j] == s.nodes[j] && s'.up[j] == s.up[j] && s'.down[j] == s.down[j]
            && s'.trace.cuts[j] == s.trace.cuts[j] && s'.trace.took[j] == s.trace.took[j]
            && s'.trace.stayed == s.trace.stayed
  {
  }

  lemma ReceiptCuts(s: System, i: nat)
    requires Shape(s) && CanDeliverDown(s, i)
    ensures StepToPeer(s, i).trace.stayed == s.trace.stayed
    ensures StepToPeer(s, i).trace.cuts[i] ==
            s.trace.cuts[i] + if s.down[i][0].Checkpoint? && !s.nodes[i].disabled then [s.trace.consumed[i]] else []
    ensures StepToPeer(s, i).trace.took[i] ==
            s.trace.took[i] + if s.down[i][0].Checkpoint? then [!s.nodes[i].disabled] else []
  {
  }

  /** What a delivery to a replica does to its channels and its cuts. */
  lemma ReceiptEffect(s: System, i: nat)
    requires Shape(s) && CanDeliverDown(s, i)
    ensures var s', m := StepToPeer(s, i), s.down[i][0];
            && s'.down[i] == s.down[i][1..]
            && s'.nodes[i].disabled == s.nodes[i].disabled
            && CheckpointAcksIn(s'.up[i]) == CheckpointAcksIn(s.up[i]) + (if m.Checkpoint? then 1 else 0)
            && CheckpointsIn(s'.down[i]) == CheckpointsIn(s.down[i]) - (if m.Checkpoint? then 1 else 0)
            && s'.nodes[i].version == s.nodes[i].version + (if m.Checkpoint? && !s.nodes[i].disabled then 1 else 0)
  {
    ReceiptMoves(s, i);
    MessageEffect(s.nodes[i], i, s.down[i][0]);
    DownHead(s.down[i]);
    DownOne(s.down[i][0]);
    UpConcat(s.up[i], PeerReceive(s.nodes[i], i, s.down[i][0]).1);
  }

  lemma BarrierReceipt(s: System, i: nat)
    requires Shape(s) && ChainInv(s) && IsPeer(s, i) && BarrierAt(s, i) && CanDeliverDown(s, i)
    ensures BarrierAt(StepToPeer(s, i), i) && Under(StepToPeer(s, i), i) == Under(s, i)
  {
    ReceiptMoves(s, i);
    ReceiptEffect(s, i);
    ReceiptCuts(s, i);
    assert s.trace.cuts[i] + [] == s.trace.cuts[i] && s.trace.took[i] + [] == s.trace.took[i];
    if s.down[i][0].Checkpoint? {
      CheckpointSeesAll(s, i);
      CutAnswered(s.trace.cuts[PRIMARY], s.trace.cuts[i], s.trace.took[i], |s.trace.order|, !s.nodes[i].disabled);
    }
  }

  lemma BarrierElsewhere(s: System, i: nat, j: nat)
    requires Shape(s) && CanDeliverDown(s, i) && IsPeer(s, j) && j != i && BarrierAt(s, j)
    ensures BarrierAt(StepToPeer(s, i), j) && Under(StepToPeer(s, i), j) == Under(s, j)
  {
    ReceiptMoves(s, i);
    ReceiptElsewhere(s, i, j);
    ReceiptElsewhere(s, i, PRIMARY);
  }

  lemma BarrierToPeer(s: System, i: nat)
    requires Shape(s) && ChainInv(s) && BarrierInv(s) && CanDeliverDown(s, i)
    ensures BarrierInv(StepToPeer(s, i))
  {
    var s' := StepToPeer(s, i);
    ReceiptMoves(s, i);
    ReceiptElsewhere(s, i, PRIMARY);
    forall j: nat | IsPeer(s, j) ensures BarrierAt(s', j) && Under(s', j) == Under(s, j) {
      assert BarrierAt(s, j);
      if j == i { BarrierReceipt(s, i); } else { BarrierElsewhere(s, i, j); }
    }
    assert Outstanding(s') == Outstanding(s);
  }

  /** Outside a barrier nothing of it is under way. */
  lemma NothingUnder(s: System, i: nat)
    requires Shape(s) && BarrierInv(s) && s.sequencer.phase != Phase.Barrier && IsPeer(s, i)
    ensures BarrierAt(s, i) && CheckpointsIn(s.down[i]) == 0 && CheckpointAcksIn(s.up[i]) == 0
  {
    assert BarrierAt(s, i);
    assert i !in Outstanding(s);
  }

  lemma SequenceSends(s: System, e: Entry, i: nat)
    requires Shape(s) && CanSequence(s) && IsPeer(s, i)
    ensures var s' := StepSequenceWrite(s, e);
            && s'.down[i] == s.down[i] + Broadcasts(s.sequencer.stamp, e) && s'.up[i] == s.up[i]
            && s'.nodes[i] == s.nodes[i] && s'.trace.stayed == s.trace.stayed
            && s'.trace.cuts == s.trace.cuts && s'.trace.took == s.trace.took
  {
  }

  lemma CutIdle(primary: seq<nat>, cuts: seq<nat>, took: seq<bool>, before: nat, after: nat)
    requires Cut(primary, cuts, took, 0, before)
    ensures Cut(primary, cuts, took, 0, after)
  {
  }

  lemma SequenceBehind(q: seq<DownMessage>, stamp: nat, e: Entry)
    requires CheckpointsIn(q) == 0 && NoCommitBehind(q)
    ensures CheckpointsIn(q + Broadcasts(stamp, e)) == 0 && NoCommitBehind(q + Broadcasts(stamp, e))
  {
    BroadcastsProject(stamp, e);
    TransfersConcat(q, Broadcasts(stamp, e));
    BehindAppend(q, Broadcasts(stamp, e));
  }

  lemma SequenceAt(s: System, e: Entry, i: nat)
    requires Shape(s) && CanSequence(s) && IsPeer(s, i)
    requires BarrierAt(s, i) && CheckpointsIn(s.down[i]) == 0 && CheckpointAcksIn(s.up[i]) == 0
    ensures BarrierAt(StepSequenceWrite(s, e), i) && Under(StepSequenceWrite(s, e), i) == 0
  {
    SequenceSends(s, e, i);
    SequenceBehind(s.down[i], s.sequencer.stamp, e);
    CutIdle(s.trace.cuts[PRIMARY], s.trace.cuts[i], s.trace.took[i], |s.trace.order|,
            |StepSequenceWrite(s, e).trace.order|);
  }

  lemma BarrierSequenceWrite(s: System, e: Entry)
    requires Shape(s) && BarrierInv(s) && CanSequence(s)
    ensures BarrierInv(StepSequenceWrite(s, e))
  {
    var s' := StepSequenceWrite(s, e);
    forall i: nat | IsPeer(s, i) ensures BarrierAt(s', i) && Under(s', i) == 0 {
      NothingUnder(s, i);
      SequenceAt(s, e, i);
    }
    assert Outstanding(s') == {};
  }

  lemma BarrierSequenceTransfer(s: System, r: nat, have: nat)
    requires Shape(s) && BarrierInv(s) && CanSequence(s)
    ensures BarrierInv(StepSequenceTransfer(s, r, have))
  {
    var s' := StepSequenceTransfer(s, r, have);
    var cs := Shipped(LogFrom(s.nodes[PRIMARY].log, have));
    TransfersProject(cs);
    if IsPeer(s, r) {
      DownConcat(s.down[r], Transfers(cs));
      if NoCommitBehind(s.down[r]) { BehindAppend(s.down[r], Transfers(cs)); }
    }
    BarrierUnmoved(s, s');
  }

  lemma {:induction false} AllPeers(n: nat) returns (peers: set<nat>)
    requires n >= 1
    ensures |peers| == n - 1 && forall i: nat :: i in peers <==> 2 <= i <= n
  {
    PeersCount(Repeat(0, n + 1), n, 0);
    peers := Waiting(Repeat(0, n + 1), n, 0);
  }

  lemma CheckpointJoins(q: seq<DownMessage>, stamp: nat)
    requires CheckpointsIn(q) == 0 && NoCommitBehind(q)
    ensures CheckpointsIn(q + [Checkpoint(stamp)]) == 1 && NoCommitBehind(q + [Checkpoint(stamp)])
  {
    DownOne(Checkpoint(stamp));
    TransfersConcat(q, [Checkpoint(stamp)]);
    BehindAppend(q, [Checkpoint(stamp)]);
  }

  lemma CheckpointSent(s: System, i: nat)
    requires Shape(s) && CheckpointDue(s.nodes[PRIMARY]) && IsPeer(s, i)
    ensures var s' := StepCheckpointTest(s);
            && s'.n == s.n && s'.down[i] == s.down[i] + [Checkpoint(s.sequencer.stamp)] && s'.up[i] == s.up[i]
            && s'.nodes[i] == s.nodes[i] && s'.trace.stayed == s.trace.stayed && s'.trace.order == s.trace.order
            && s'.trace.cuts[i] == s.trace.cuts[i] && s'.trace.took[i] == s.trace.took[i]
            && s'.trace.cuts[PRIMARY] == s.trace.cuts[PRIMARY] + [|s.trace.order|]
  {
  }

  lemma CheckpointAt(s: System, i: nat)
    requires Shape(s) && CheckpointDue(s.nodes[PRIMARY]) && IsPeer(s, i)
    requires BarrierAt(s, i) && CheckpointsIn(s.down[i]) == 0 && CheckpointAcksIn(s.up[i]) == 0
    ensures BarrierAt(StepCheckpointTest(s), i) && Under(StepCheckpointTest(s), i) == 1
  {
    CheckpointSent(s, i);
    CheckpointJoins(s.down[i], s.sequencer.stamp);
    CutAsked(s.trace.cuts[PRIMARY], s.trace.cuts[i], s.trace.took[i], |s.trace.order|, |s.trace.order|);
  }

  lemma BarrierBegins(s: System)
    requires Shape(s) && BarrierInv(s) && s.sequencer.phase == Committed && CheckpointDue(s.nodes[PRIMARY])
    ensures BarrierInv(StepCheckpointTest(s))
  {
    var s' := StepCheckpointTest(s);
    forall i: nat | IsPeer(s, i) ensures BarrierAt(s', i) && Under(s', i) == 1 {
      NothingUnder(s, i);
      CheckpointAt(s, i);
    }
    var peers := AllPeers(s.n);
    assert Outstanding(s') == peers;
  }

  lemma BarrierTest(s: System)
    requires Shape(s) && BarrierInv(s) && s.sequencer.phase == Committed
    ensures BarrierInv(StepCheckpointTest(s))
  {
    if CheckpointDue(s.nodes[PRIMARY]) {
      BarrierBegins(s);
    } else {
      var s' := StepCheckpointTest(s);
      forall i: nat | IsPeer(s, i) ensures BarrierAt(s', i) { assert BarrierAt(s, i); }
      assert Outstanding(s') == Outstanding(s);
    }
  }

  lemma BarrierEnd(s: System)
    requires Shape(s) && BarrierInv(s) && s.sequencer.phase == Phase.Barrier && !s.sequencer.checkpointBlock
    ensures BarrierInv(StepEndBarrier(s))
  {
    var s' := StepEndBarrier(s);
    forall i: nat | IsPeer(s, i) ensures BarrierAt(s', i) { assert BarrierAt(s, i); }
    assert Outstanding(s') == Outstanding(s);
  }

  lemma BarrierSteps(s: System, ev: Event)
    requires Shape(s) && ChainInv(s) && BarrierInv(s)
    ensures BarrierInv(Step(s, ev))
  {
    if Enabled(s, ev) {
      match ev {
        case Write(i, c) => BarrierWrite(s, i, c);
        case Finish(i) => BarrierUnmoved(s, StepFinish(s, i));
        case ToPrimary(i) => BarrierToPrimary(s, i);
        case ToPeer(i) => BarrierToPeer(s, i);
        case Sequence =>
          match s.sequencer.holdQueue[0] {
            case HeldWrite(e) => BarrierSequenceWrite(s, e);
            case HeldTransfer(r, have) => BarrierSequenceTransfer(s, r, have);
          }
        case CheckpointTest => BarrierTest(s);
        case EndBarrier => BarrierEnd(s);
        case Disable(i) => BarrierDisable(s, i);
        case Restart(i) => BarrierRestart(s, i);
      }
    }
  }

  lemma {:induction false} BarrierHolds(n: nat, evs: seq<Event>)
    requires n >= 2
    ensures BarrierInv(Run(n, evs))
  {
    if evs == [] {
      forall i: nat | 2 <= i <= n ensures BarrierAt(Initial(n), i) {}
      assert Outstanding(Initial(n)) == {};
    } else {
      BarrierHolds(n, evs[..|evs| - 1]);
      OrderHolds(n, evs[..|evs| - 1]);
      BarrierSteps(Run(n, evs[..|evs| - 1]), evs[|evs| - 1]);
    }
  }

  // ---- The barrier's guarantees ----

  /** While the primary is blocked, it awaits exactly the requests and answers under way, and no write can be
      sequenced. */
  lemma BlockedPrimary(n: nat, evs: seq<Event>)
    requires n >= 2
    ensures var s := Run(n, evs);
            s.sequencer.checkpointBlock ==>
              && s.sequencer.sendCount == |Outstanding(s)| > 0
              && (forall i: nat :: IsPeer(s, i) ==> Under(s, i) <= 1)
              && !CanSequence(s)
  {
    BarrierHolds(n, evs);
    var s := Run(n, evs);
    forall i: nat | IsPeer(s, i) ensures Under(s, i) <= 1 { assert BarrierAt(s, i); }
  }

  /** In every run a server's version is the number of checkpoints it took, and a replica took its own at those of
      the primary's requests that met it enabled, after the same commits as the primary. */
  lemma CheckpointsAreThePrimarys(n: nat, evs: seq<Event>, i: nat)
    requires n >= 2 && 2 <= i <= n
    ensures var s := Run(n, evs);
            && s.nodes[i].version == |s.trace.cuts[i]| && s.nodes[PRIMARY].version == |s.trace.cuts[PRIMARY]|
            && |s.trace.took[i]| <= |s.trace.cuts[PRIMARY]| <= |s.trace.took[i]| + 1
            && s.trace.cuts[i] == Taken(s.trace.cuts[PRIMARY][..|s.trace.took[i]|], s.trace.took[i])
  {
    BarrierHolds(n, evs);
    assert BarrierAt(Run(n, evs), i);
  }

  /** The replica has answered every request of the primary's, the last of them after every commit of the order; and
      if that one met it enabled, it has taken its last checkpoint then. */
  predicate RoundIsDone(s: System, i: nat)
    requires Shape(s) && IsPeer(s, i)
  {
    var all, own, took := s.trace.cuts[PRIMARY], s.trace.cuts[i], s.trace.took[i];
    && |took| == |all| > 0 && all[|all| - 1] == |s.trace.order|
    && (took[|took| - 1] ==> own != [] && own[|own| - 1] == |s.trace.order|)
  }

  lemma RoundEnds(s: System, i: nat)
    requires Shape(s) && BarrierInv(s) && IsPeer(s, i)
    requires s.sequencer.phase == Phase.Barrier && !s.sequencer.checkpointBlock
    ensures RoundIsDone(s, i)
  {
    assert BarrierAt(s, i);
    NothingAwaited(s, i);
    assert s.trace.cuts[PRIMARY][..|s.trace.took[i]|] == s.trace.cuts[PRIMARY];
  }

  /** When the barrier is over, every replica the last request met enabled has taken its checkpoint after the same
      commits as the primary, however often it was disabled before. */
  lemma ReleaseFollowsCheckpoints(n: nat, evs: seq<Event>, i: nat)
    requires n >= 2 && 2 <= i <= n && Enabled(Run(n, evs), EndBarrier)
    ensures RoundIsDone(Run(n, evs), i)
  {
    BarrierHolds(n, evs);
    RoundEnds(Run(n, evs), i);
  }

  lemma NothingAwaited(s: System, i: nat)
    requires Shape(s) && BarrierInv(s) && !s.sequencer.checkpointBlock && IsPeer(s, i)
    ensures CheckpointsIn(s.down[i]) == 0
  {
    assert i !in Outstanding(s);
  }

  /** Outside a barrier, the servers that were never disabled have taken equally many checkpoints, each after
      the same commits; inside one, a server is at most one behind. */
  lemma CheckpointsAgree(n: nat, evs: seq<Event>, i: nat)
    requires n >= 2 && 1 <= i <= n && Run(n, evs).trace.stayed[i]
    ensures var s := Run(n, evs);
            && s.nodes[i].version <= s.nodes[PRIMARY].version <= s.nodes[i].version + 1
            && s.trace.cuts[i] <= s.trace.cuts[PRIMARY]
            && (!s.sequencer.checkpointBlock ==>
                  s.trace.cuts[i] == s.trace.cuts[PRIMARY] && s.nodes[i].version == s.nodes[PRIMARY].version)
  {
    BarrierHolds(n, evs);
    var s := Run(n, evs);
    if i != PRIMARY {
      assert BarrierAt(s, i);
      if !s.sequencer.checkpointBlock { NothingAwaited(s, i); }
      TakenAll(s.trace.cuts[PRIMARY][..|s.trace.took[i]|], s.trace.took[i]);
    }
  }
}
