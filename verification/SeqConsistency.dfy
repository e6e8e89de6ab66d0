/** One server's side of the protocol, with the variables its threads share. Each method is what a thread does
    between two points where it waits; its contract is the corresponding function of the Replication module. */
module SeqConsistency {
  import opened Sequences
  import opened Wrappers
  import opened KeyValue
  import opened WriteAheadLog
  import opened Logging
  import opened Storage
  import opened Replication

  class Server {
    const id: nat
    /** The group's servers are numbered from 1; the number stands for the socket as well. */
    const groupSize: nat
    const store: Store

    var pending: Option<Command>
    var blockFlag: bool
    var nodeSeqNum: nat

    var holdQueue: seq<Held>
    var acktrack: AckTrack
    var glblSeqNum: nat
    var sendCount: int
    var isCheckpointBlock: bool
    var phase: Phase

    /** What has been sent to the primary, and to each of the other servers. */
    var sentUp: seq<UpMessage>
    var sentDown: seq<seq<DownMessage>>

    constructor (id: nat, groupSize: nat)
      requires 1 <= id <= groupSize
      ensures this.id == id && this.groupSize == groupSize && Valid() && fresh(store) && fresh(store.log)
      ensures AsNode() == Initial(groupSize).nodes[id] && AsSequencer() == Initial(groupSize).sequencer
      ensures sentUp == [] && sentDown == Initial(groupSize).down
    {
      this.id, this.groupSize := id, groupSize;
      store := new Store();
      pending, blockFlag, nodeSeqNum := None, false, 0;
      holdQueue, acktrack, glblSeqNum := [], map[], 0;
      sendCount, isCheckpointBlock, phase := 0, false, Ready;
      sentUp, sentDown := [], Repeat([], groupSize + 1);
    }

    ghost predicate Valid()
      reads this`sentDown, store, store.log
    {
      1 <= id <= groupSize && |sentDown| == groupSize + 1 && store.log.Counted() && store.log.Readable()
    }

    /** The counter file has room for one more entry. */
    predicate HasRoom()
      reads store, store.log
    {
      |store.log.entries| + 1 < INT_LIMIT
    }

    ghost function AsNode(): Node
      reads this`pending, this`blockFlag, this`nodeSeqNum, store, store.log
    {
      Node(store.tablet, store.log.entries, store.disabled, pending, blockFlag, nodeSeqNum, store.checkpoint,
           store.version)
    }

    ghost function AsSequencer(): Sequencer
      reads this`holdQueue, this`acktrack, this`glblSeqNum, this`sendCount, this`isCheckpointBlock, this`phase
    {
      Sequencer(holdQueue, acktrack, glblSeqNum, sendCount, isCheckpointBlock, phase)
    }

    // ---- A client's write, up to the wait and after it ----

    method StartWrite(c: Command)
      requires Valid() && pending.None?
      modifies this`pending, this`blockFlag, this`holdQueue, this`sentUp
      ensures Valid()
      ensures var (node, e) := BeginWrite(old(AsNode()), id, c);
              && AsNode() == node
              && holdQueue == old(holdQueue) + (if id == PRIMARY then [HeldWrite(e)] else [])
              && sentUp == old(sentUp) + (if id == PRIMARY then [] else [Request(HeldWrite(e))])
    {
      var e := Entry(id, nodeSeqNum, c);
      if id != PRIMARY {
        sentUp := sentUp + [Request(HeldWrite(e))];
      } else {
        holdQueue := holdQueue + [HeldWrite(e)];
      }
      pending := Some(c);
      blockFlag := true;
    }

    method EndWrite()
      requires Valid() && HasRoom() && pending.Some? && !blockFlag
      modifies this`pending, this`nodeSeqNum, store`tablet, store.log
      ensures Valid() && AsNode() == FinishWrite(old(AsNode()), id)
    {
      if id == PRIMARY || !store.disabled {
        var status := store.ProcessCommand(pending.value);
      }
      pending := None;
      nodeSeqNum := nodeSeqNum + 1;
    }

    // ---- The listening thread ----

    /** A message from another server arrives at the primary. */
    method ReceiveAtPrimary(m: UpMessage)
      requires Valid() && id == PRIMARY
      modifies this`blockFlag, this`holdQueue, this`acktrack, this`sendCount, this`isCheckpointBlock, this`sentDown
      ensures Valid()
      ensures var (node, q, reply) := PrimaryReceive(old(AsNode()), old(AsSequencer()), m);
              && AsNode() == node && AsSequencer() == q
              && sentDown == if reply.Some? && 2 <= m.requestor <= groupSize
                             then old(sentDown)[m.requestor := old(sentDown)[m.requestor] + [reply.value]]
                             else old(sentDown)
    {
      match m {
        case Ack(stamp, requestor, seqNum) =>
          if requestor in acktrack && seqNum in acktrack[requestor] {
            var counts := acktrack[requestor];
            var ackCount := counts[seqNum] - 1;
            if ackCount == 0 {
              acktrack := acktrack[requestor := counts - {seqNum}];
              if requestor != PRIMARY {
                if 2 <= requestor <= groupSize {
                  sentDown := sentDown[requestor := sentDown[requestor] + [Okay(stamp, requestor, seqNum)]];
                }
              } else {
                blockFlag := false;
              }
            } else {
              acktrack := acktrack[requestor := counts[seqNum := ackCount]];
            }
          }
        case CheckpointAck(_) =>
          sendCount := sendCount - 1;
          if sendCount == 0 {
            isCheckpointBlock := false;
          }
        case Request(item) =>
          holdQueue := holdQueue + [item];
      }
    }

    /** A message from the primary arrives at another server. */
    method ReceiveAtPeer(m: DownMessage)
      requires Valid() && HasRoom() && id != PRIMARY
      modifies this`blockFlag, this`sentUp, store`tablet, store`checkpoint, store`version, store.log
      ensures Valid()
      ensures var (node, answer) := PeerReceive(old(AsNode()), id, m);
              AsNode() == node && sentUp == old(sentUp) + answer
    {
      match m {
        case Okay(_, _, _) =>
          blockFlag := false;
        case Checkpoint(stamp) =>
          if !store.disabled {
            store.TakeCheckpoint();
          }
          sentUp := sentUp + [CheckpointAck(stamp)];
        case Transfer(c) =>
          if !store.disabled {
            var status := store.ProcessCommand(c);
          }
        case Commit(item) =>
          if item.entry.requestor != id && !store.disabled {
            var status := store.ProcessCommand(item.entry.cmd);
          }
          sentUp := sentUp + [Ack(item.stamp, item.entry.requestor, item.entry.seqNum)];
        case Announce(_, _, _) =>
      }
    }

    // ---- The sequencing thread ----

    method CountPeers() returns (count: nat)
      requires id == PRIMARY && groupSize >= 1
      ensures count == groupSize - 1
    {
      count := 0;
      var sid := 1;
      while sid <= groupSize
        invariant 1 <= sid <= groupSize + 1
        invariant count == if sid == 1 then 0 else sid - 2
      {
        if sid != id {
          count := count + 1;
        }
        sid := sid + 1;
      }
    }

    method Broadcast(m: DownMessage)
      requires id == PRIMARY && |sentDown| == groupSize + 1
      modifies this`sentDown
      ensures sentDown == ToAllPeers(old(sentDown), [m])
    {
      var sid := 1;
      while sid <= groupSize
        invariant 1 <= sid <= groupSize + 1 && |sentDown| == groupSize + 1
        invariant forall i :: 0 <= i <= groupSize ==>
                    sentDown[i] == old(sentDown)[i] + if 2 <= i < sid then [m] else []
      {
        if sid != id {
          sentDown := sentDown[sid := sentDown[sid] + [m]];
        }
        sid := sid + 1;
      }
    }

    /** The request at the head of the queue is a restarted replica's: it is sent what it misses. */
    method ServeTransfer()
      requires Valid() && id == PRIMARY && phase == Ready && holdQueue != [] && holdQueue[0].HeldTransfer?
      modifies this`holdQueue, this`sentDown
      ensures Valid() && AsSequencer() == old(AsSequencer()).(holdQueue := old(holdQueue)[1..])
      ensures var r, have := old(holdQueue)[0].requestor, old(holdQueue)[0].have;
              var sent := Transfers(Shipped(LogFrom(AsNode().log, have)));
              sentDown == if 2 <= r <= groupSize then old(sentDown)[r := old(sentDown)[r] + sent] else old(sentDown)
    {
      var r, have := holdQueue[0].requestor, holdQueue[0].have;
      holdQueue := holdQueue[1..];
      var entries := store.log.TransferLog(have);
      if 2 <= r <= groupSize {
        var i := 0;
        assert sentDown[r] + Transfers(entries[..0]) == sentDown[r];
        while i < |entries|
          invariant 0 <= i <= |entries| && |sentDown| == groupSize + 1
          invariant sentDown == old(sentDown)[r := old(sentDown)[r] + Transfers(entries[..i])]
          invariant holdQueue == old(holdQueue)[1..]
        {
          assert Transfers(entries[..i + 1]) == Transfers(entries[..i]) + [Transfer(entries[i])];
          Reassociate(old(sentDown)[r], Transfers(entries[..i]), [Transfer(entries[i])]);
          sentDown := sentDown[r := sentDown[r] + [Transfer(entries[i])]];
          i := i + 1;
        }
        assert entries[..|entries|] == entries;
      }
    }

    method ExpectAcks(e: Entry, peerCount: nat)
      modifies this`acktrack
      ensures acktrack == Track(old(acktrack), e.requestor, e.seqNum, peerCount)
    {
      if e.requestor !in acktrack {
        acktrack := acktrack[e.requestor := map[e.seqNum := peerCount]];
      } else if e.seqNum !in acktrack[e.requestor] {
        acktrack := acktrack[e.requestor := acktrack[e.requestor][e.seqNum := peerCount]];
      }
    }

    method TrackAndSend(e: Entry)
      requires id == PRIMARY && 1 <= groupSize && |sentDown| == groupSize + 1
      modifies this`acktrack, this`sentDown
      ensures acktrack == Track(old(acktrack), e.requestor, e.seqNum, groupSize - 1)
      ensures sentDown == ToAllPeers(old(sentDown), Broadcasts(glblSeqNum, e))
    {
      var peerCount := CountPeers();
      ExpectAcks(e, peerCount);
      Broadcast(Announce(glblSeqNum, e.requestor, e.seqNum));
      Broadcast(Commit(Sequenced(glblSeqNum, e)));
      BroadcastTwice(old(sentDown), glblSeqNum, e);
    }

    method ExecuteOrRelease(e: Entry)
      requires Valid() && HasRoom() && id == PRIMARY
      modifies this`blockFlag, store`tablet, store.log
      ensures Valid() && AsSequencer() == old(AsSequencer())
      ensures AsNode() == if e.requestor != PRIMARY then Execute(old(AsNode()), e.cmd)
                          else old(AsNode()).(blocked := false)
    {
      if e.requestor != id {
        var status := store.ProcessCommand(e.cmd);
      } else {
        blockFlag := false;
      }
    }

    /** The request at the head of the queue is a write. */
    method SequenceHead()
      requires Valid() && HasRoom() && id == PRIMARY && phase == Ready && holdQueue != [] && holdQueue[0].HeldWrite?
      modifies this`holdQueue, this`acktrack, this`glblSeqNum, this`phase, this`blockFlag, this`sentDown
      modifies store`tablet, store.log
      ensures Valid()
      ensures var e := old(holdQueue)[0].entry;
              && AsNode() == SequenceWrite(old(AsNode()), old(AsSequencer()), e, groupSize - 1).0
              && AsSequencer() == SequenceWrite(old(AsNode()), old(AsSequencer()), e, groupSize - 1).1
              && sentDown == ToAllPeers(old(sentDown), Broadcasts(old(glblSeqNum), e))
    {
      var e := holdQueue[0].entry;
      TrackAndSend(e);
      PassOn(e);
    }

    /** The write leaves the queue, and is executed or released. */
    method PassOn(e: Entry)
      requires Valid() && HasRoom() && id == PRIMARY && holdQueue != []
      modifies this`holdQueue, this`glblSeqNum, this`phase, this`blockFlag, store`tablet, store.log
      ensures Valid()
      ensures AsNode() == if e.requestor != PRIMARY then Execute(old(AsNode()), e.cmd)
                          else old(AsNode()).(blocked := false)
      ensures AsSequencer() ==
              old(AsSequencer()).(holdQueue := old(holdQueue)[1..], stamp := old(glblSeqNum) + 1, phase := Committed)
    {
      TakeHead();
      ExecuteOrRelease(e);
      Commits();
    }

    method TakeHead()
      requires Valid() && holdQueue != []
      modifies this`holdQueue
      ensures Valid() && AsNode() == old(AsNode())
      ensures AsSequencer() == old(AsSequencer()).(holdQueue := old(holdQueue)[1..])
    {
      holdQueue := holdQueue[1..];
    }

    method Commits()
      requires Valid()
      modifies this`glblSeqNum, this`phase
      ensures Valid() && AsNode() == old(AsNode())
      ensures AsSequencer() == old(AsSequencer()).(stamp := old(glblSeqNum) + 1, phase := Committed)
    {
      glblSeqNum := glblSeqNum + 1;
      phase := Committed;
    }

    /** Every LOG_LIMIT entries the group takes a checkpoint; the sequencing thread then waits for the answers. */
    method TestCheckpoint()
      requires Valid() && id == PRIMARY && phase == Committed
      modifies this`sendCount, this`isCheckpointBlock, this`phase, this`sentDown, store`checkpoint, store`version
      ensures Valid()
      ensures if CheckpointDue(old(AsNode())) then
                && AsNode() == Replication.TakeCheckpoint(old(AsNode()))
                && AsSequencer() == old(AsSequencer()).(sendCount := groupSize - 1, checkpointBlock := true,
                                                        phase := Phase.Barrier)
                && sentDown == ToAllPeers(old(sentDown), [Checkpoint(glblSeqNum)])
              else
                && AsNode() == old(AsNode()) && AsSequencer() == old(AsSequencer()).(phase := Ready)
                && sentDown == old(sentDown)
    {
      var logSize := store.log.GetLogSequenceNo();
      if logSize % LOG_LIMIT == 0 {
        isCheckpointBlock := true;
        sendCount := CountPeers();
        Broadcast(Checkpoint(glblSeqNum));
        store.TakeCheckpoint();
        phase := Phase.Barrier;
      } else {
        phase := Ready;
      }
    }

    method LeaveBarrier()
      requires Valid() && phase == Phase.Barrier && !isCheckpointBlock
      modifies this`glblSeqNum, this`phase
      ensures Valid() && AsNode() == old(AsNode())
      ensures AsSequencer() == old(AsSequencer()).(stamp := old(glblSeqNum) + 1, phase := Ready)
    {
      glblSeqNum := glblSeqNum + 1;
      phase := Ready;
    }

    // ---- The administrator's commands ----

    method Disable()
      requires Valid()
      modifies store
      ensures Valid() && AsNode() == DisableNode(old(AsNode()))
    {
      store.Disable();
    }

    method Restart()
      requires Valid()
      modifies this`sentUp, store
      ensures Valid() && AsNode() == RestartNode(old(AsNode()))
      ensures sentUp == old(sentUp) + if id == PRIMARY then [] else [Request(HeldTransfer(id, |AsNode().log|))]
    {
      var have := store.Restart();
      if id != PRIMARY {
        sentUp := sentUp + [Request(HeldTransfer(id, have))];
      }
    }
  }

  /** The announcement and the commit go out one after the other to each peer. */
  lemma BroadcastTwice(down: seq<seq<DownMessage>>, stamp: nat, e: Entry)
    ensures ToAllPeers(ToAllPeers(down, [Announce(stamp, e.requestor, e.seqNum)]), [Commit(Sequenced(stamp, e))]) ==
            ToAllPeers(down, Broadcasts(stamp, e))
  {
    var a, c := Announce(stamp, e.requestor, e.seqNum), Commit(Sequenced(stamp, e));
    assert [a] + [c] == Broadcasts(stamp, e);
    forall i | 2 <= i < |down| ensures (down[i] + [a]) + [c] == down[i] + Broadcasts(stamp, e) {
      Reassociate(down[i], [a], [c]);
    }
  }
}
