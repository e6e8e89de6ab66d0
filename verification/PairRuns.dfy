/** Runs of a group of two servers, step by step, with the state in one record. */
module PairRuns {
  import opened Sequences
  import opened Wrappers
  import opened KeyValue
  import opened WriteAheadLog
  import opened Replication
  import opened Ordering

  datatype Pair = Pair(primary: Node, replica: Node, hold: seq<Held>, at: AckTrack, stamp: nat, phase: Phase,
                       up: seq<UpMessage>, down: seq<DownMessage>, order: seq<Sequenced>)

  predicate Is(s: System, p: Pair) {
    && Shape(s) && s.n == 2
    && s.nodes[1] == p.primary && s.nodes[2] == p.replica
    && s.sequencer.holdQueue == p.hold && s.sequencer.acktrack == p.at
    && s.sequencer.stamp == p.stamp && s.sequencer.phase == p.phase
    && s.up[1] == [] && s.up[2] == p.up && s.down[1] == [] && s.down[2] == p.down
    && s.trace.order == p.order
  }

  /** A run that leads to the given state. */
  ghost predicate Leads(evs: seq<Event>, p: Pair) {
    Is(Run(2, evs), p)
  }

  lemma After(evs: seq<Event>, ev: Event, p: Pair)
    requires Is(Step(Run(2, evs), ev), p)
    ensures Leads(evs + [ev], p)
  {
    assert (evs + [ev])[..|evs|] == evs;
  }

  function FreshNode(): Node {
    Node(map[], [], false, None, false, 0, map[], 0)
  }

  function Fresh(): Pair {
    Pair(FreshNode(), FreshNode(), [], map[], 0, Ready, [], [], [])
  }

  lemma Starts()
    ensures Leads([], Fresh())
  {
  }

  lemma PrimaryWrites(evs: seq<Event>, p: Pair, c: Command)
    requires Leads(evs, p) && p.primary.pending == None && !p.primary.disabled
    ensures Leads(evs + [Write(1, c)],
                  p.(primary := p.primary.(pending := Some(c), blocked := true),
                     hold := p.hold + [HeldWrite(Entry(1, p.primary.seqNum, c))]))
  {
    After(evs, Write(1, c), p.(primary := p.primary.(pending := Some(c), blocked := true),
                               hold := p.hold + [HeldWrite(Entry(1, p.primary.seqNum, c))]));
  }

  lemma ReplicaWrites(evs: seq<Event>, p: Pair, c: Command)
    requires Leads(evs, p) && p.replica.pending == None && !p.replica.disabled
    ensures Leads(evs + [Write(2, c)],
                  p.(replica := p.replica.(pending := Some(c), blocked := true),
                     up := p.up + [Request(HeldWrite(Entry(2, p.replica.seqNum, c)))]))
  {
    After(evs, Write(2, c), p.(replica := p.replica.(pending := Some(c), blocked := true),
                               up := p.up + [Request(HeldWrite(Entry(2, p.replica.seqNum, c)))]));
  }

  lemma PrimaryFinishes(evs: seq<Event>, p: Pair)
    requires Leads(evs, p) && p.primary.pending.Some? && !p.primary.blocked
    ensures Leads(evs + [Finish(1)], p.(primary := FinishWrite(p.primary, 1)))
  {
    After(evs, Finish(1), p.(primary := FinishWrite(p.primary, 1)));
  }

  lemma ReplicaFinishes(evs: seq<Event>, p: Pair)
    requires Leads(evs, p) && p.replica.pending.Some? && !p.replica.blocked
    ensures Leads(evs + [Finish(2)], p.(replica := FinishWrite(p.replica, 2)))
  {
    After(evs, Finish(2), p.(replica := FinishWrite(p.replica, 2)));
  }

  function AfterSequence(p: Pair, e: Entry): Pair {
    p.(primary := if e.requestor != PRIMARY then Execute(p.primary, e.cmd) else p.primary.(blocked := false),
       hold := if p.hold != [] then p.hold[1..] else [],
       at := Track(p.at, e.requestor, e.seqNum, 1),
       stamp := p.stamp + 1,
       phase := Committed,
       down := p.down + Broadcasts(p.stamp, e),
       order := p.order + [Sequenced(p.stamp, e)])
  }

  lemma SequencesHead(evs: seq<Event>, p: Pair, e: Entry)
    requires Leads(evs, p) && p.phase == Ready && p.hold != [] && p.hold[0] == HeldWrite(e)
    ensures Leads(evs + [Sequence], AfterSequence(p, e))
  {
    After(evs, Sequence, AfterSequence(p, e));
  }

  lemma SkipsCheckpoint(evs: seq<Event>, p: Pair)
    requires Leads(evs, p) && p.phase == Committed && !CheckpointDue(p.primary)
    ensures Leads(evs + [CheckpointTest], p.(phase := Ready))
  {
    After(evs, CheckpointTest, p.(phase := Ready));
  }

  function AfterReceipt(p: Pair): Pair
    requires p.down != []
  {
    var (node, answer) := PeerReceive(p.replica, 2, p.down[0]);
    p.(replica := node, up := p.up + answer, down := p.down[1..])
  }

  lemma Receives(evs: seq<Event>, p: Pair)
    requires Leads(evs, p) && p.down != []
    ensures Leads(evs + [ToPeer(2)], AfterReceipt(p))
  {
    After(evs, ToPeer(2), AfterReceipt(p));
  }

  lemma HoldsRequest(evs: seq<Event>, p: Pair)
    requires Leads(evs, p) && p.up != [] && p.up[0].Request?
    ensures Leads(evs + [ToPrimary(2)], p.(hold := p.hold + [p.up[0].item], up := p.up[1..]))
  {
    After(evs, ToPrimary(2), p.(hold := p.hold + [p.up[0].item], up := p.up[1..]));
  }

  /** The only replica's acknowledgement is always the last one. */
  function AfterAck(p: Pair): Pair
    requires p.up != [] && p.up[0].Ack? && Tracked(p.at, p.up[0].requestor, p.up[0].seqNum)
  {
    var m := p.up[0];
    var q := p.(at := CountDown(p.at, m.requestor, m.seqNum), up := p.up[1..]);
    if m.requestor == PRIMARY then q.(primary := p.primary.(blocked := false))
    else q.(down := p.down + [Okay(m.stamp, m.requestor, m.seqNum)])
  }

  lemma CountsAck(evs: seq<Event>, p: Pair)
    requires Leads(evs, p) && p.up != [] && p.up[0].Ack? && (p.up[0].requestor == 1 || p.up[0].requestor == 2)
    requires Tracked(p.at, p.up[0].requestor, p.up[0].seqNum) && p.at[p.up[0].requestor][p.up[0].seqNum] == 1
    ensures Leads(evs + [ToPrimary(2)], AfterAck(p))
  {
    CountDownCounts(p.at, p.up[0].requestor, p.up[0].seqNum, (p.up[0].requestor, p.up[0].seqNum));
    After(evs, ToPrimary(2), AfterAck(p));
  }

  lemma Disables(evs: seq<Event>, p: Pair)
    requires Leads(evs, p)
    ensures !p.primary.disabled ==> Leads(evs + [Disable(1)], p.(primary := DisableNode(p.primary)))
    ensures !p.replica.disabled ==> Leads(evs + [Disable(2)], p.(replica := DisableNode(p.replica)))
  {
    if !p.primary.disabled { After(evs, Disable(1), p.(primary := DisableNode(p.primary))); }
    if !p.replica.disabled { After(evs, Disable(2), p.(replica := DisableNode(p.replica))); }
  }

  lemma PrimaryRestarts(evs: seq<Event>, p: Pair)
    requires Leads(evs, p) && p.primary.disabled
    ensures Leads(evs + [Restart(1)], p.(primary := RestartNode(p.primary)))
  {
    After(evs, Restart(1), p.(primary := RestartNode(p.primary)));
  }

  function AfterRestart(p: Pair): Pair {
    p.(replica := RestartNode(p.replica), up := p.up + [Request(HeldTransfer(2, |p.replica.log|))])
  }

  lemma ReplicaRestarts(evs: seq<Event>, p: Pair)
    requires Leads(evs, p) && p.replica.disabled
    ensures Leads(evs + [Restart(2)], AfterRestart(p))
  {
    After(evs, Restart(2), AfterRestart(p));
  }

  lemma Answers(evs: seq<Event>, p: Pair, have: nat)
    requires Leads(evs, p) && p.phase == Ready && p.hold != [] && p.hold[0] == HeldTransfer(2, have)
    ensures Leads(evs + [Sequence], p.(hold := p.hold[1..],
                                       down := p.down + Transfers(Shipped(LogFrom(p.primary.log, have)))))
  {
    After(evs, Sequence, p.(hold := p.hold[1..],
                            down := p.down + Transfers(Shipped(LogFrom(p.primary.log, have)))));
  }

  // ---- Everything the replica is sent ----

  function ReceiveAll(p: Pair): Pair
    decreases |p.down|
  {
    if p.down == [] then p else ReceiveAll(AfterReceipt(p))
  }

  lemma {:induction false} ReceivesOn(evs: seq<Event>, p: Pair) returns (more: seq<Event>)
    requires Leads(evs, p)
    ensures Leads(evs + more, ReceiveAll(p))
    decreases |p.down|
  {
    if p.down == [] {
      more := [];
      assert evs + more == evs;
    } else {
      Receives(evs, p);
      var rest := ReceivesOn(evs + [ToPeer(2)], AfterReceipt(p));
      more := [ToPeer(2)] + rest;
      Reassociate(evs, [ToPeer(2)], rest);
    }
  }

  lemma ReceivesAll(evs: seq<Event>, p: Pair) returns (evs': seq<Event>)
    requires Leads(evs, p)
    ensures Leads(evs', ReceiveAll(p))
  {
    var more := ReceivesOn(evs, p);
    evs' := evs + more;
  }

  lemma ReceiveAllStep(p: Pair)
    requires p.down != []
    ensures ReceiveAll(p) == ReceiveAll(AfterReceipt(p))
  {
  }

  lemma ReceivesCommit(p: Pair, stamp: nat, e: Entry)
    requires p.down == Broadcasts(stamp, e) && !p.replica.disabled
    ensures ReceiveAll(p) ==
            p.(replica := if e.requestor == 2 then p.replica else Execute(p.replica, e.cmd),
               up := p.up + [Ack(stamp, e.requestor, e.seqNum)], down := [])
  {
    ReceiveAllStep(p);
    var q := AfterReceipt(p);
    assert q == p.(down := [Commit(Sequenced(stamp, e))]);
    ReceiveAllStep(q);
  }

  lemma {:induction false} ReceiveInTurn(p: Pair, first: seq<DownMessage>, rest: seq<DownMessage>)
    requires p.down == first
    ensures ReceiveAll(p.(down := first + rest)) == ReceiveAll(ReceiveAll(p).(down := rest))
    decreases |first|
  {
    var q := p.(down := first + rest);
    if first == [] {
      assert first + rest == rest;
    } else {
      ReceiveInTurn(AfterReceipt(p), first[1..], rest);
      ReceiveAllStep(p);
      ReceiveAllStep(q);
      assert (first + rest)[1..] == first[1..] + rest;
    }
  }

  lemma ReceivesDisabled(p: Pair, stamp: nat, e: Entry)
    requires p.down == Broadcasts(stamp, e) && p.replica.disabled
    ensures ReceiveAll(p) == p.(up := p.up + [Ack(stamp, e.requestor, e.seqNum)], down := [])
  {
    ReceiveAllStep(p);
    var q := AfterReceipt(p);
    assert q == p.(down := [Commit(Sequenced(stamp, e))]);
    ReceiveAllStep(q);
  }

  lemma ReceivesTransfer(p: Pair, w: Command)
    requires p.down == Transfers([w]) && !p.replica.disabled
    ensures ReceiveAll(p) == p.(replica := Execute(p.replica, w), down := [])
  {
    ReceiveAllStep(p);
  }

  lemma AtRest(s: System, p: Pair)
    requires Is(s, p) && p.hold == [] && p.up == [] && p.down == []
    requires p.primary.pending == None && p.replica.pending == None
    ensures Quiescent(s)
  {
  }
}
