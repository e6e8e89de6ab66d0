/** The life of a replica's own write: sent, held, sequenced, acknowledged by every replica, released, and only
    then executed by the replica that asked for it. */
module OwnWrites {
  import opened Wrappers
  import opened KeyValue
  import opened WriteAheadLog
  import opened Replication
  import opened Channels
  import opened Ordering

  /** Every earlier write of the requestor has been acknowledged by all replicas. */
  ghost predicate Settled(order: seq<Sequenced>, acked: seq<nat>, n: nat, r: nat, before: nat)
    requires |acked| == n + 1
  {
    forall k :: 0 <= k < |order| && order[k].entry.requestor == r && order[k].entry.seqNum < before ==>
      Waiting(acked, n, k) == {}
  }

  /** The pending write has been sequenced as the k-th: the replica stays blocked until the last acknowledgement
      has brought it the +OK. */
  ghost predicate Awaited(e: Entry, at: Sequenced, waiting: set<nat>, oks: seq<(nat, nat)>, blocked: bool) {
    && at.entry == e
    && if waiting != {} then blocked && oks == []
       else if blocked then oks == [(e.requestor, e.seqNum)]
       else oks == []
  }

  /** Where the one write a replica may have under way stands. */
  ghost predicate Own(order: seq<Sequenced>, acked: seq<nat>, n: nat, pipe: seq<Entry>, oks: seq<(nat, nat)>,
                      node: Node, r: nat)
    requires |acked| == n + 1
  {
    && Settled(order, acked, n, r, node.seqNum)
    && match node.pending
       case None => pipe == [] && oks == []
       case Some(c) =>
         var e := Entry(r, node.seqNum, c);
         && (pipe != [] ==> pipe == [e] && node.blocked && oks == [])
         && (pipe == [] ==>
               forall k :: 0 <= k < |order| && Id(order[k]) == (r, node.seqNum) ==>
                 Awaited(e, order[k], Waiting(acked, n, k), oks, node.blocked))
  }

  ghost predicate OwnAt(s: System, r: nat)
    requires Shape(s) && IsPeer(s, r)
  {
    Own(s.trace.order, s.trace.acked, s.n, Pipe(s.sequencer.holdQueue, s.up[r], r), OkaysIn(s.down[r]), s.nodes[r], r)
  }

  // ---- Facts about the order ----

  /** A number below the count belongs to a sequenced write. */
  lemma {:induction false} NumberIsSequenced(order: seq<Sequenced>, r: nat, q: nat) returns (k: nat)
    requires Numbered(order) && q < CountBy(order, r)
    ensures k < |order| && Id(order[k]) == (r, q)
  {
    var last := |order| - 1;
    if order[last].entry.requestor == r && order[last].entry.seqNum == q {
      k := last;
    } else {
      assert Numbered(order[..last]) by {
        forall j | 0 <= j < last
          ensures order[..last][j].entry.seqNum == CountBy(order[..last][..j], order[..last][j].entry.requestor)
        {
          assert order[..last][..j] == order[..j];
        }
      }
      k := NumberIsSequenced(order[..last], r, q);
    }
  }

  /** A write every replica has acknowledged has been consumed by every replica. */
  lemma AcknowledgedIsConsumed(s: System, k: nat, i: nat)
    requires Shape(s) && ChainInv(s) && IsPeer(s, i) && k < |s.trace.order|
    requires Waiting(s.trace.acked, s.n, k) == {}
    ensures s.trace.consumed[i] > k
  {
    assert Chain(s.trace.order, s.trace.consumed[i], s.trace.acked[i], s.up[i], s.down[i]);
    assert i !in Waiting(s.trace.acked, s.n, k);
  }

  // ---- Steps ----

  lemma PipeIs(s: System, r: nat)
    requires Shape(s) && PipeInv(s) && IsServer(s, r)
    ensures PipeOk(s.trace.order, s.sequencer.holdQueue, s.up[r], r, NextNum(s.nodes[r]))
  {
    assert PipeAt(s, r);
  }

  lemma PipeCounts(s: System, r: nat)
    requires Shape(s) && PipeInv(s) && IsServer(s, r)
    ensures CountBy(s.trace.order, r) + |Pipe(s.sequencer.holdQueue, s.up[r], r)| == NextNum(s.nodes[r])
  {
    PipeIs(s, r);
  }

  /** A server's writes on their way into the order. */
  function PipeOf(s: System, r: nat): seq<Entry>
    requires Shape(s) && IsServer(s, r)
  {
    Pipe(s.sequencer.holdQueue, s.up[r], r)
  }

  /** A new write joins the end of its server's pipeline. */
  lemma WriteJoinsPipe(s: System, i: nat, c: Command, r: nat)
    requires Shape(s) && CanWrite(s, i) && IsServer(s, r) && s.up[PRIMARY] == []
    ensures var e := BeginWrite(s.nodes[i], i, c).1;
            PipeOf(StepWrite(s, i, c), r) == PipeOf(s, r) + if i == r then [e] else []
  {
    var e := BeginWrite(s.nodes[i], i, c).1;
    if i == PRIMARY {
      HeldConcat(s.sequencer.holdQueue, [HeldWrite(e)], r);
      HeldOne(HeldWrite(e), r);
    } else if i == r {
      SentJoinsPipe(s.sequencer.holdQueue, s.up[r], e);
    }
  }

  lemma OwnWriteElsewhere(s: System, i: nat, c: Command, r: nat)
    requires Shape(s) && CanWrite(s, i) && IsPeer(s, r) && r != i && OwnAt(s, r) && s.up[PRIMARY] == []
    ensures OwnAt(StepWrite(s, i, c), r)
  {
    WriteJoinsPipe(s, i, c, r);
    assert PipeOf(s, r) + [] == PipeOf(s, r);
  }

  lemma OwnWriteHere(s: System, c: Command, r: nat)
    requires Shape(s) && CanWrite(s, r) && IsPeer(s, r) && OwnAt(s, r) && s.up[PRIMARY] == []
    ensures OwnAt(StepWrite(s, r, c), r)
  {
    WriteJoinsPipe(s, r, c, r);
    assert [] + [BeginWrite(s.nodes[r], r, c).1] == [BeginWrite(s.nodes[r], r, c).1];
  }

  lemma OwnWrite(s: System, i: nat, c: Command, r: nat)
    requires Shape(s) && PipeInv(s) && CanWrite(s, i) && IsPeer(s, r) && OwnAt(s, r)
    ensures OwnAt(StepWrite(s, i, c), r)
  {
    if i == r { OwnWriteHere(s, c, r); } else { OwnWriteElsewhere(s, i, c, r); }
  }

  lemma OwnFinishes(order: seq<Sequenced>, acked: seq<nat>, n: nat, pipe: seq<Entry>, oks: seq<(nat, nat)>,
                    node: Node, r: nat, done: Node)
    requires |acked| == n + 1 && Numbered(order) && Own(order, acked, n, pipe, oks, node, r)
    requires node.pending.Some? && !node.blocked && CountBy(order, r) + |pipe| == node.seqNum + 1
    requires done.pending == None && done.seqNum == node.seqNum + 1
    ensures pipe == []
    ensures Own(order, acked, n, pipe, oks, done, r)
  {
    assert pipe == [];
    var k := NumberIsSequenced(order, r, node.seqNum);
    OnlyNumber(order, r, node.seqNum, k);
    assert Awaited(Entry(r, node.seqNum, node.pending.value), order[k], Waiting(acked, n, k), oks, node.blocked);
  }

  lemma OnlyNumber(order: seq<Sequenced>, r: nat, q: nat, k: nat)
    requires Numbered(order) && k < |order| && Id(order[k]) == (r, q)
    ensures forall j :: 0 <= j < |order| && order[j].entry.requestor == r && order[j].entry.seqNum == q ==> j == k
  {
    forall j | 0 <= j < |order| && Id(order[j]) == (r, q) ensures j == k {
      IdsDistinct(order, j, k);
    }
  }

  lemma OwnFinish(s: System, i: nat, r: nat)
    requires Shape(s) && PipeInv(s) && CanFinish(s, i) && IsPeer(s, r) && OwnAt(s, r)
    ensures OwnAt(StepFinish(s, i), r)
  {
    if i == r {
      PipeCounts(s, r);
      OwnFinishes(s.trace.order, s.trace.acked, s.n, Pipe(s.sequencer.holdQueue, s.up[r], r),
                  OkaysIn(s.down[r]), s.nodes[r], r, StepFinish(s, i).nodes[r]);
    }
  }

  lemma RequestLeavesWrites(s: System, i: nat, r: nat)
    requires Shape(s) && PipeInv(s) && CanDeliverUp(s, i) && !s.up[i][0].Ack? && IsServer(s, r)
    ensures var s' := StepToPrimary(s, i);
            Pipe(s'.sequencer.holdQueue, s'.up[r], r) == Pipe(s.sequencer.holdQueue, s.up[r], r)
  {
    var m, hold := s.up[i][0], s.sequencer.holdQueue;
    DeliveryMoves(s, i);
    if m.Request? {
      if r == i {
        ArrivalKeepsPipe(hold, s.up[i], r);
      } else {
        PipeToPrimary(s, i, r);
        ArrivalKeepsOthers(hold, m.item, s.up[r], r);
      }
    } else {
      UpHead(s.up[i]);
      UpOne(m);
      assert hold + [] == hold;
      assert HeldIn(s.up[i][1..]) == HeldIn(s.up[i]);
    }
  }

  lemma OwnRequest(s: System, i: nat, r: nat)
    requires Shape(s) && PipeInv(s) && CanDeliverUp(s, i) && !s.up[i][0].Ack? && IsPeer(s, r) && OwnAt(s, r)
    ensures OwnAt(StepToPrimary(s, i), r)
  {
    var s' := StepToPrimary(s, i);
    RequestLeavesWrites(s, i, r);
    assert s.trace.acked[i := s.trace.acked[i] + 0] == s.trace.acked;
    assert s'.down == s.down && s'.nodes[r] == s.nodes[r] && s'.trace.order == s.trace.order;
  }

  lemma AckReply(node: Node, q: Sequencer, m: UpMessage)
    requires m.Ack? && Tracked(q.acktrack, m.requestor, m.seqNum)
    ensures PrimaryReceive(node, q, m).2 ==
            if q.acktrack[m.requestor][m.seqNum] == 1 && m.requestor != PRIMARY
            then Some(Okay(m.stamp, m.requestor, m.seqNum)) else None
  {
    CountDownCounts(q.acktrack, m.requestor, m.seqNum, (m.requestor, m.seqNum));
  }

  /** The primary answers with +OK when the acknowledgement is the last one for a replica's write. */
  lemma AckAnswers(s: System, i: nat, r: nat)
    requires Shape(s) && CanDeliverUp(s, i) && s.up[i][0].Ack? && IsPeer(s, r)
    requires Tracked(s.sequencer.acktrack, s.up[i][0].requestor, s.up[i][0].seqNum)
    ensures var m := s.up[i][0];
            var last := s.sequencer.acktrack[m.requestor][m.seqNum] == 1;
            OkaysIn(StepToPrimary(s, i).down[r]) ==
            OkaysIn(s.down[r]) + (if last && m.requestor == r then [(r, m.seqNum)] else [])
  {
    AckReply(s.nodes[PRIMARY], s.sequencer, s.up[i][0]);
    DeliveryChannels(s, i, r);
    OkaysConcat(s.down[r], AnswerTo(s, i, r));
    if AnswerTo(s, i, r) != [] { DownOne(AnswerTo(s, i, r)[0]); }
  }

  lemma DeliverySparesPeer(s: System, i: nat, r: nat)
    requires Shape(s) && CanDeliverUp(s, i) && IsPeer(s, r)
    ensures StepToPrimary(s, i).nodes[r] == s.nodes[r]
  {
  }

  lemma DeliveryKeepsPending(s: System, j: nat, r: nat)
    requires Shape(s) && CanDeliverUp(s, j) && IsServer(s, r)
    ensures var node, node' := s.nodes[r], StepToPrimary(s, j).nodes[r];
            node'.pending == node.pending && node'.seqNum == node.seqNum
  {
  }

  /** What the arrival of an acknowledgement, for the a-th write, changes for a replica's own write. */
  lemma OwnAckEffect(s: System, i: nat, r: nat)
    requires Shape(s) && ChainInv(s) && PipeInv(s) && TrackInv(s) && CanDeliverUp(s, i) && s.up[i][0].Ack?
    requires IsPeer(s, r)
    ensures var s', m, a := StepToPrimary(s, i), s.up[i][0], s.trace.acked[i];
            var last := Waiting(s.trace.acked, s.n, a) == {i};
            && a < |s.trace.order| && Id(s.trace.order[a]) == (m.requestor, m.seqNum)
            && i in Waiting(s.trace.acked, s.n, a)
            && s'.trace.order == s.trace.order && s'.trace.acked == s.trace.acked[i := a + 1]
            && OkaysIn(s'.down[r]) ==
               OkaysIn(s.down[r]) +
               (if last && s.trace.order[a].entry.requestor == r then [Id(s.trace.order[a])] else [])
            && s'.nodes[r] == s.nodes[r]
  {
    var a := s.trace.acked[i];
    AckIsTracked(s, i);
    AckEffect(s, i);
    LastOne(Waiting(s.trace.acked, s.n, a), i);
    assert Waiting(s.trace.acked, s.n, a) == {i} <==> Waiting(s.trace.acked, s.n, a) - {i} == {};
    assert IsServer(s, s.trace.order[a].entry.requestor);
    AckAnswers(s, i, r);
    DeliverySparesPeer(s, i, r);
  }

  /** One acknowledgement less for the a-th write. */
  lemma OwnAcks(order: seq<Sequenced>, acked: seq<nat>, n: nat, pipe: seq<Entry>, oks: seq<(nat, nat)>,
                node: Node, r: nat, i: nat, oks': seq<(nat, nat)>)
    requires |acked| == n + 1 && 2 <= i <= n && acked[i] < |order| && Numbered(order)
    requires Own(order, acked, n, pipe, oks, node, r)
    requires CountBy(order, r) + |pipe| == NextNum(node)
    requires var last := Waiting(acked, n, acked[i]) == {i};
             oks' == oks + if last && order[acked[i]].entry.requestor == r then [Id(order[acked[i]])] else []
    ensures Own(order, acked[i := acked[i] + 1], n, pipe, oks', node, r)
  {
    var a := acked[i];
    var acked' := acked[i := a + 1];
    forall k: nat
      ensures Waiting(acked', n, k) == if k == a then Waiting(acked, n, k) - {i} else Waiting(acked, n, k)
    {
      WaitingCounts(acked, n, i, k);
    }
    WaitingCounts(acked, n, i, a);
    NumberBelowCount(order, a);
    if node.pending.Some? && pipe == [] {
      var e := Entry(r, node.seqNum, node.pending.value);
      forall k | 0 <= k < |order| && Id(order[k]) == (r, node.seqNum)
        ensures Awaited(e, order[k], Waiting(acked', n, k), oks', node.blocked)
      {
        assert Awaited(e, order[k], Waiting(acked, n, k), oks, node.blocked);
        if Id(order[a]) == (r, node.seqNum) { IdsDistinct(order, a, k); }
      }
    }
  }

  lemma AckLeavesWrites(s: System, i: nat, r: nat)
    requires Shape(s) && CanDeliverUp(s, i) && s.up[i][0].Ack? && IsServer(s, r)
    ensures var s' := StepToPrimary(s, i);
            Pipe(s'.sequencer.holdQueue, s'.up[r], r) == Pipe(s.sequencer.holdQueue, s.up[r], r)
  {
    DeliveryMoves(s, i);
    assert s.sequencer.holdQueue + [] == s.sequencer.holdQueue;
    UpHead(s.up[i]);
    UpOne(s.up[i][0]);
    assert HeldIn(s.up[i][1..]) == HeldIn(s.up[i]);
  }

  lemma OwnAckCounts(s: System, i: nat, r: nat)
    requires Shape(s) && ChainInv(s) && PipeInv(s) && TrackInv(s) && CanDeliverUp(s, i) && s.up[i][0].Ack?
    requires IsPeer(s, r) && OwnAt(s, r)
    ensures Own(s.trace.order, s.trace.acked[i := s.trace.acked[i] + 1], s.n,
                Pipe(s.sequencer.holdQueue, s.up[r], r), OkaysIn(StepToPrimary(s, i).down[r]), s.nodes[r], r)
  {
    OwnAckEffect(s, i, r);
    PipeCounts(s, r);
    OwnAcks(s.trace.order, s.trace.acked, s.n, Pipe(s.sequencer.holdQueue, s.up[r], r), OkaysIn(s.down[r]),
            s.nodes[r], r, i, OkaysIn(StepToPrimary(s, i).down[r]));
  }

  lemma OwnHere(s: System, r: nat, order: seq<Sequenced>, acked: seq<nat>, pipe: seq<Entry>, node: Node)
    requires Shape(s) && IsPeer(s, r) && s.trace.order == order && s.trace.acked == acked && s.nodes[r] == node
    requires Pipe(s.sequencer.holdQueue, s.up[r], r) == pipe
    requires Own(order, acked, s.n, pipe, OkaysIn(s.down[r]), node, r)
    ensures OwnAt(s, r)
  {
  }

  lemma OwnAck(s: System, i: nat, r: nat)
    requires Shape(s) && ChainInv(s) && PipeInv(s) && TrackInv(s) && CanDeliverUp(s, i) && s.up[i][0].Ack?
    requires IsPeer(s, r) && OwnAt(s, r)
    ensures OwnAt(StepToPrimary(s, i), r)
  {
    OwnAckEffect(s, i, r);
    AckLeavesWrites(s, i, r);
    OwnAckCounts(s, i, r);
    OwnHere(StepToPrimary(s, i), r, s.trace.order, s.trace.acked[i := s.trace.acked[i] + 1],
            Pipe(s.sequencer.holdQueue, s.up[r], r), s.nodes[r]);
  }

  /** What a message from the primary changes in the server's account of its own write. */
  lemma MessageForOwn(node: Node, id: nat, m: DownMessage)
    ensures var (node', answer) := PeerReceive(node, id, m);
            && node'.pending == node.pending && node'.seqNum == node.seqNum
            && node'.blocked == (node.blocked && !m.Okay?)
            && HeldIn(answer) == []
  {
    var answer := PeerReceive(node, id, m).1;
    if answer != [] {
      UpOne(answer[0]);
      assert answer == [answer[0]];
    }
  }

  lemma OkaysHead(q: seq<DownMessage>)
    requires q != []
    ensures OkaysIn(q) == (if q[0].Okay? then [(q[0].requestor, q[0].seqNum)] else []) + OkaysIn(q[1..])
  {
    DownHead(q);
    DownOne(q[0]);
  }

  lemma ReceiptForOwn(s: System, i: nat)
    requires Shape(s) && CanDeliverDown(s, i)
    ensures var s', m, node := StepToPeer(s, i), s.down[i][0], s.nodes[i];
            && HeldIn(s'.up[i]) == HeldIn(s.up[i])
            && s'.trace.order == s.trace.order && s'.trace.acked == s.trace.acked && s'.sequencer == s.sequencer
            && s'.nodes[i].pending == node.pending && s'.nodes[i].seqNum == node.seqNum
            && s'.nodes[i].blocked == (node.blocked && !m.Okay?)
            && OkaysIn(s.down[i]) == (if m.Okay? then [(m.requestor, m.seqNum)] else []) + OkaysIn(s'.down[i])
  {
    ReceiptMoves(s, i);
    OkaysHead(s.down[i]);
    MessageForOwn(s.nodes[i], i, s.down[i][0]);
    UpConcat(s.up[i], PeerReceive(s.nodes[i], i, s.down[i][0]).1);
  }

  /** The +OK arrives. */
  lemma OwnReleases(order: seq<Sequenced>, acked: seq<nat>, n: nat, pipe: seq<Entry>, ok: (nat, nat),
                    oks: seq<(nat, nat)>, node: Node, r: nat, node': Node)
    requires |acked| == n + 1 && Numbered(order)
    requires Own(order, acked, n, pipe, [ok] + oks, node, r)
    requires node.pending.Some? ==> CountBy(order, r) + |pipe| == node.seqNum + 1
    requires node'.pending == node.pending && node'.seqNum == node.seqNum && !node'.blocked
    ensures Own(order, acked, n, pipe, oks, node', r)
  {
    var k := NumberIsSequenced(order, r, node.seqNum);
    OnlyNumber(order, r, node.seqNum, k);
    assert Awaited(Entry(r, node.seqNum, node.pending.value), order[k], Waiting(acked, n, k), [ok] + oks, node.blocked);
    assert |[ok] + oks| == 1;
  }

  lemma OwnToPeer(s: System, i: nat, r: nat)
    requires Shape(s) && PipeInv(s) && CanDeliverDown(s, i) && IsPeer(s, r) && OwnAt(s, r)
    ensures OwnAt(StepToPeer(s, i), r)
  {
    if i == r {
      var s', m := StepToPeer(s, i), s.down[i][0];
      ReceiptForOwn(s, i);
      if m.Okay? {
        PipeCounts(s, r);
        OwnReleases(s.trace.order, s.trace.acked, s.n, Pipe(s.sequencer.holdQueue, s.up[r], r),
                    (m.requestor, m.seqNum), OkaysIn(s'.down[r]), s.nodes[r], r, s'.nodes[r]);
      } else {
        assert [] + OkaysIn(s'.down[r]) == OkaysIn(s'.down[r]);
      }
    }
  }

  /** The server's own write is sequenced. */
  lemma OwnSequences(order: seq<Sequenced>, acked: seq<nat>, n: nat, oks: seq<(nat, nat)>, node: Node, r: nat,
                     e: Entry, stamp: nat, node': Node)
    requires |acked| == n + 1 && Numbered(order) && Own(order, acked, n, [e], oks, node, r)
    requires e.requestor == r && e.seqNum == CountBy(order, r) && Waiting(acked, n, |order|) != {}
    requires node'.pending == node.pending && node'.seqNum == node.seqNum
    requires node'.blocked == node.blocked
    ensures Own(order + [Sequenced(stamp, e)], acked, n, [], oks, node', r)
  {
    forall k | 0 <= k < |order| && order[k].entry.requestor == r ensures order[k].entry.seqNum < e.seqNum {
      NumberBelowCount(order, k);
    }
  }

  lemma OwnOtherSequenced(order: seq<Sequenced>, acked: seq<nat>, n: nat, pipe: seq<Entry>, oks: seq<(nat, nat)>,
                          node: Node, r: nat, x: Sequenced, node': Node)
    requires |acked| == n + 1 && Own(order, acked, n, pipe, oks, node, r) && x.entry.requestor != r
    requires node'.pending == node.pending && node'.seqNum == node.seqNum
    requires node'.blocked == node.blocked
    ensures Own(order + [x], acked, n, pipe, oks, node', r)
  {
  }

  lemma SequencedNodes(s: System, e: Entry, r: nat)
    requires Shape(s) && CanSequence(s) && IsServer(s, r)
    ensures var node, node' := s.nodes[r], StepSequenceWrite(s, e).nodes[r];
            && node'.pending == node.pending && node'.seqNum == node.seqNum
            && node'.blocked == (node.blocked && !(r == PRIMARY && e.requestor == PRIMARY))
    ensures OkaysIn(StepSequenceWrite(s, e).down[r]) == OkaysIn(s.down[r])
  {
    DownConcat(s.down[r], Broadcasts(s.sequencer.stamp, e));
    BroadcastsProject(s.sequencer.stamp, e);
  }

  /** The write at the head of the hold queue is all that is left of its requestor's pipeline. */
  lemma OwnHead(s: System, e: Entry)
    requires Shape(s) && ChainInv(s) && CanSequence(s) && s.sequencer.holdQueue[0] == HeldWrite(e)
    requires IsPeer(s, e.requestor) && OwnAt(s, e.requestor)
    ensures var r, hold := e.requestor, s.sequencer.holdQueue;
            && Pipe(hold, s.up[r], r) == [e] && Pipe(hold[1..], s.up[r], r) == []
            && Waiting(s.trace.acked, s.n, |s.trace.order|) != {}
  {
    var r, hold := e.requestor, s.sequencer.holdQueue;
    WritesHead(hold, r);
    assert Pipe(hold, s.up[r], r)[0] == e;
    assert Pipe(hold, s.up[r], r) == [e] + Pipe(hold[1..], s.up[r], r);
    assert |Pipe(hold, s.up[r], r)| <= 1;
    assert Chain(s.trace.order, s.trace.consumed[2], s.trace.acked[2], s.up[2], s.down[2]);
    assert 2 in Waiting(s.trace.acked, s.n, |s.trace.order|);
  }

  lemma OwnSequenceWrite(s: System, e: Entry, r: nat)
    requires Shape(s) && ChainInv(s) && PipeInv(s) && CanSequence(s) && s.sequencer.holdQueue[0] == HeldWrite(e)
    requires IsPeer(s, r) && OwnAt(s, r)
    ensures OwnAt(StepSequenceWrite(s, e), r)
  {
    HeadIsNext(s, e);
    SequencedNodes(s, e, r);
    var node' := StepSequenceWrite(s, e).nodes[r];
    if e.requestor == r {
      OwnHead(s, e);
      OwnSequences(s.trace.order, s.trace.acked, s.n, OkaysIn(s.down[r]), s.nodes[r], r, e, s.sequencer.stamp, node');
    } else {
      WritesHead(s.sequencer.holdQueue, r);
      OwnOtherSequenced(s.trace.order, s.trace.acked, s.n, Pipe(s.sequencer.holdQueue, s.up[r], r), OkaysIn(s.down[r]),
                        s.nodes[r], r, Sequenced(s.sequencer.stamp, e), node');
    }
  }

  lemma OwnUnmoved(s: System, s': System, r: nat)
    requires Shape(s) && Shape(s') && s'.n == s.n && IsPeer(s, r) && OwnAt(s, r)
    requires s'.trace.order == s.trace.order && s'.trace.acked == s.trace.acked
    requires WritesOf(s'.sequencer.holdQueue, r) == WritesOf(s.sequencer.holdQueue, r)
    requires WritesOf(HeldIn(s'.up[r]), r) == WritesOf(HeldIn(s.up[r]), r)
    requires OkaysIn(s'.down[r]) == OkaysIn(s.down[r])
    requires s'.nodes[r].pending == s.nodes[r].pending && s'.nodes[r].blocked == s.nodes[r].blocked
    requires s'.nodes[r].seqNum == s.nodes[r].seqNum
    ensures OwnAt(s', r)
  {
  }

  /** What answering a transfer request changes. */
  lemma TransferMoves(s: System, q: nat, have: nat, i: nat)
    requires Shape(s) && CanSequence(s) && IsServer(s, i)
    ensures var s' := StepSequenceTransfer(s, q, have);
            && s'.nodes == s.nodes && s'.up == s.up && s'.trace == s.trace
            && s'.sequencer.holdQueue == s.sequencer.holdQueue[1..]
            && s'.down[i] ==
               if q == i && IsPeer(s, i) then s.down[i] + Transfers(Shipped(LogFrom(s.nodes[PRIMARY].log, have)))
               else s.down[i]
  {
  }

  lemma TransferIsNoOkay(q: seq<DownMessage>, cs: seq<Command>)
    ensures OkaysIn(q + Transfers(cs)) == OkaysIn(q)
  {
    OkaysConcat(q, Transfers(cs));
    TransfersProject(cs);
  }

  lemma TransferLeavesWrites(s: System, q: nat, have: nat, r: nat)
    requires Shape(s) && CanSequence(s) && s.sequencer.holdQueue[0] == HeldTransfer(q, have) && IsServer(s, r)
    ensures var s' := StepSequenceTransfer(s, q, have);
            && s'.up == s.up && s'.nodes == s.nodes && s'.trace == s.trace
            && WritesOf(s'.sequencer.holdQueue, r) == WritesOf(s.sequencer.holdQueue, r)
            && OkaysIn(s'.down[r]) == OkaysIn(s.down[r])
  {
    HeldHead(s.sequencer.holdQueue, r);
    HeldOne(s.sequencer.holdQueue[0], r);
    TransferMoves(s, q, have, r);
    TransferIsNoOkay(s.down[r], Shipped(LogFrom(s.nodes[PRIMARY].log, have)));
  }

  lemma OwnSequenceTransfer(s: System, q: nat, have: nat, r: nat)
    requires Shape(s) && CanSequence(s) && s.sequencer.holdQueue[0] == HeldTransfer(q, have)
    requires IsPeer(s, r) && OwnAt(s, r)
    ensures OwnAt(StepSequenceTransfer(s, q, have), r)
  {
    TransferLeavesWrites(s, q, have, r);
    OwnUnmoved(s, StepSequenceTransfer(s, q, have), r);
  }

  lemma CheckpointIsNoOkay(q: seq<DownMessage>, stamp: nat)
    ensures OkaysIn(q + [Checkpoint(stamp)]) == OkaysIn(q)
  {
    DownConcat(q, [Checkpoint(stamp)]);
    DownOne(Checkpoint(stamp));
  }

  lemma OwnTest(s: System, r: nat)
    requires Shape(s) && IsPeer(s, r) && OwnAt(s, r)
    ensures OwnAt(StepCheckpointTest(s), r)
  {
    TestLeavesWrites(s, r);
    CheckpointIsNoOkay(s.down[r], s.sequencer.stamp);
    OwnUnmoved(s, StepCheckpointTest(s), r);
  }

  lemma TransferIsNoWrite(up: seq<UpMessage>, i: nat, have: nat, r: nat)
    ensures WritesOf(HeldIn(up + [Request(HeldTransfer(i, have))]), r) == WritesOf(HeldIn(up), r)
  {
    var h := HeldTransfer(i, have);
    UpConcat(up, [Request(h)]);
    UpOne(Request(h));
    HeldConcat(HeldIn(up), [h], r);
    HeldOne(h, r);
  }

  lemma OwnRestart(s: System, i: nat, r: nat)
    requires Shape(s) && IsServer(s, i) && IsPeer(s, r) && OwnAt(s, r)
    ensures OwnAt(StepRestart(s, i), r)
  {
    TransferIsNoWrite(s.up[i], i, |s.nodes[i].log|, r);
    OwnUnmoved(s, StepRestart(s, i), r);
  }

  lemma OwnSteps(s: System, ev: Event, r: nat)
    requires Shape(s) && OrderInv(s) && IsPeer(s, r) && OwnAt(s, r)
    ensures OwnAt(Step(s, ev), r)
  {
    if Enabled(s, ev) {
      match ev {
        case Write(i, c) => OwnWrite(s, i, c, r);
        case Finish(i) => OwnFinish(s, i, r);
        case ToPrimary(i) => if s.up[i][0].Ack? { OwnAck(s, i, r); } else { OwnRequest(s, i, r); }
        case ToPeer(i) => OwnToPeer(s, i, r);
        case Sequence =>
          match s.sequencer.holdQueue[0] {
            case HeldWrite(e) => OwnSequenceWrite(s, e, r);
            case HeldTransfer(q, have) => OwnSequenceTransfer(s, q, have, r);
          }
        case CheckpointTest => OwnTest(s, r);
        case EndBarrier => OwnUnmoved(s, StepEndBarrier(s), r);
        case Disable(i) => OwnUnmoved(s, StepDisable(s, i), r);
        case Restart(i) => OwnRestart(s, i, r);
      }
    }
  }

  lemma {:induction false} OwnHolds(n: nat, evs: seq<Event>, r: nat)
    requires n >= 2 && 2 <= r <= n
    ensures OwnAt(Run(n, evs), r)
  {
    if evs != [] {
      OrderHolds(n, evs[..|evs| - 1]);
      OwnHolds(n, evs[..|evs| - 1], r);
      OwnSteps(Run(n, evs[..|evs| - 1]), evs[|evs| - 1], r);
    }
  }
}
