/** When the primary is released to execute a write of its own. It does not wait for acknowledgements, and the last
    one to arrive for an earlier write releases whatever write it is blocked on by then. */
module Release {
  import opened Replication
  import opened Channels
  import opened Ordering
  import opened OwnWrites
  import opened Journals
  import opened Convergence

  /** A write the primary is free to execute has been given its place in the order. */
  predicate InOrder(s: System)
    requires Shape(s)
  {
    CanFinish(s, PRIMARY) ==> s.nodes[PRIMARY].seqNum < CountBy(s.trace.order, PRIMARY)
  }

  /** The last acknowledgement for a write of the primary's own arrives while a later one is still held. */
  predicate StaleRelease(s: System, ev: Event)
    requires Shape(s)
  {
    && ev.ToPrimary? && CanDeliverUp(s, ev.server)
    && var m := s.up[ev.server][0];
       && m.Ack? && m.requestor == PRIMARY
       && CountOf(s.sequencer.acktrack, (PRIMARY, m.seqNum)) == 1
       && WritesOf(s.sequencer.holdQueue, PRIMARY) != []
  }

  /** The primary has at most the pending write on its way, and none once it is released. */
  predicate OneAtATime(s: System)
    requires Shape(s)
  {
    && |PipeOf(s, PRIMARY)| <= 1
    && (PipeOf(s, PRIMARY) != [] ==> s.nodes[PRIMARY].pending.Some? && s.nodes[PRIMARY].blocked)
  }

  lemma OneAtATimeIsInOrder(s: System)
    requires Shape(s) && PipeInv(s) && OneAtATime(s)
    ensures InOrder(s)
  {
    PipeCounts(s, PRIMARY);
  }

  // ---- Steps ----

  lemma HeldIsPipe(s: System)
    requires Shape(s) && s.up[PRIMARY] == []
    ensures PipeOf(s, PRIMARY) == WritesOf(s.sequencer.holdQueue, PRIMARY)
  {
  }

  lemma DeliveryReleases(s: System, i: nat)
    requires Shape(s) && PipeInv(s) && CanDeliverUp(s, i)
    ensures var s', node, node' := StepToPrimary(s, i), s.nodes[PRIMARY], StepToPrimary(s, i).nodes[PRIMARY];
            var m := s.up[i][0];
            var last := m.Ack? && m.requestor == PRIMARY && CountOf(s.sequencer.acktrack, (PRIMARY, m.seqNum)) == 1;
            && PipeOf(s', PRIMARY) == PipeOf(s, PRIMARY)
            && node'.pending == node.pending && node'.blocked == (node.blocked && !last)
  {
    if s.up[i][0].Ack? { AckLeavesWrites(s, i, PRIMARY); } else { RequestLeavesWrites(s, i, PRIMARY); }
    AckReleases(s.nodes[PRIMARY], s.sequencer, s.up[i][0]);
  }

  lemma AckReleases(node: Node, q: Sequencer, m: UpMessage)
    ensures var node' := PrimaryReceive(node, q, m).0;
            var last := m.Ack? && m.requestor == PRIMARY && CountOf(q.acktrack, (PRIMARY, m.seqNum)) == 1;
            node'.pending == node.pending && node'.blocked == (node.blocked && !last)
  {
    if m.Ack? && Tracked(q.acktrack, m.requestor, m.seqNum) {
      CountDownCounts(q.acktrack, m.requestor, m.seqNum, (m.requestor, m.seqNum));
    }
  }

  lemma SequenceReleases(s: System)
    requires Shape(s) && CanSequence(s) && s.up[PRIMARY] == [] && OneAtATime(s)
    ensures OneAtATime(Step(s, Sequence))
  {
    var h := s.sequencer.holdQueue[0];
    if h.HeldWrite? {
      HeadLeavesPipe(s, h.entry, PRIMARY);
      SequencedNodes(s, h.entry, PRIMARY);
    } else {
      TransferLeavesWrites(s, h.requestor, h.have, PRIMARY);
    }
  }

  lemma QuietRelease(s: System, ev: Event)
    requires Shape(s) && s.up[PRIMARY] == [] && OneAtATime(s) && Enabled(s, ev)
    requires ev.ToPeer? || ev.CheckpointTest? || ev.EndBarrier? || ev.Disable? || ev.Restart?
    ensures OneAtATime(Step(s, ev))
  {
  }

  lemma OneAtATimeSteps(s: System, ev: Event)
    requires Shape(s) && PipeInv(s) && OneAtATime(s) && !StaleRelease(s, ev)
    ensures OneAtATime(Step(s, ev))
  {
    if Enabled(s, ev) {
      match ev {
        case Write(i, c) => WriteJoinsPipe(s, i, c, PRIMARY);
        case Finish(_) =>
        case ToPrimary(i) =>
          DeliveryReleases(s, i);
          HeldIsPipe(s);
        case Sequence => SequenceReleases(s);
        case _ => QuietRelease(s, ev);
      }
    }
  }

  lemma StaleBreaks(s: System, ev: Event)
    requires Shape(s) && PipeInv(s) && OneAtATime(s) && StaleRelease(s, ev)
    ensures !InOrder(Step(s, ev))
  {
    var s' := Step(s, ev);
    DeliveryReleases(s, ev.server);
    HeldIsPipe(s);
    PipeSteps(s, ev);
    PipeCounts(s', PRIMARY);
  }

  // ---- Whole runs ----

  lemma {:induction false} NoStaleSoFar(n: nat, evs: seq<Event>, k: nat)
    requires n >= 2 && k <= |evs|
    requires forall j :: 0 <= j < k ==> !StaleRelease(Run(n, evs[..j]), evs[j])
    ensures PipeInv(Run(n, evs[..k])) && OneAtATime(Run(n, evs[..k]))
  {
    OrderHolds(n, evs[..k]);
    if k == 0 {
      assert Run(n, evs[..0]) == Initial(n);
    } else {
      NoStaleSoFar(n, evs, k - 1);
      RunNext(n, evs, k - 1);
      OneAtATimeSteps(Run(n, evs[..k - 1]), evs[k - 1]);
    }
  }

  lemma NotStale(n: nat, evs: seq<Event>, k: nat)
    requires n >= 2 && k < |evs| && InOrder(Run(n, evs[..k + 1]))
    requires forall j :: 0 <= j < k ==> !StaleRelease(Run(n, evs[..j]), evs[j])
    ensures !StaleRelease(Run(n, evs[..k]), evs[k])
  {
    NoStaleSoFar(n, evs, k);
    RunNext(n, evs, k);
    if StaleRelease(Run(n, evs[..k]), evs[k]) {
      StaleBreaks(Run(n, evs[..k]), evs[k]);
    }
  }

  lemma {:induction false} InOrderSoFar(n: nat, evs: seq<Event>, k: nat)
    requires n >= 2 && k < |evs|
    requires forall j :: 0 <= j <= |evs| ==> InOrder(Run(n, evs[..j]))
    ensures !StaleRelease(Run(n, evs[..k]), evs[k])
  {
    forall j | 0 <= j < k ensures !StaleRelease(Run(n, evs[..j]), evs[j]) { InOrderSoFar(n, evs, j); }
    assert InOrder(Run(n, evs[..k + 1]));
    NotStale(n, evs, k);
  }

  /** All along a run the primary executes its own writes only once they are in the order exactly when no
      acknowledgement releases a write that is still held. */
  lemma PrimaryReleasesInOrder(n: nat, evs: seq<Event>)
    requires n >= 2
    ensures (forall k :: 0 <= k <= |evs| ==> InOrder(Run(n, evs[..k]))) <==>
            (forall k :: 0 <= k < |evs| ==> !StaleRelease(Run(n, evs[..k]), evs[k]))
  {
    if forall k :: 0 <= k < |evs| ==> !StaleRelease(Run(n, evs[..k]), evs[k]) {
      forall k | 0 <= k <= |evs| ensures InOrder(Run(n, evs[..k])) {
        NoStaleSoFar(n, evs, k);
        OneAtATimeIsInOrder(Run(n, evs[..k]));
      }
    }
    if forall k :: 0 <= k <= |evs| ==> InOrder(Run(n, evs[..k])) {
      forall k | 0 <= k < |evs| ensures !StaleRelease(Run(n, evs[..k]), evs[k]) { InOrderSoFar(n, evs, k); }
    }
  }

  // ---- What the primary can check beforehand ----

  predicate Untracked(s: System) {
    PRIMARY !in s.sequencer.acktrack || s.sequencer.acktrack[PRIMARY] == map[]
  }

  /** The primary takes on a write while acknowledgements for an earlier one of its own are missing. */
  predicate Overruns(s: System, ev: Event)
    requires Shape(s)
  {
    ev.Write? && ev.server == PRIMARY && CanWrite(s, PRIMARY) && !Untracked(s)
  }

  predicate HeldUntracked(s: System)
    requires Shape(s)
  {
    PipeOf(s, PRIMARY) != [] ==> Untracked(s)
  }

  lemma DeliveryUntracks(s: System, i: nat)
    requires Shape(s) && CanDeliverUp(s, i) && Untracked(s)
    ensures Untracked(StepToPrimary(s, i))
  {
  }

  lemma SequenceUntracks(s: System, e: Entry)
    requires Shape(s) && CanSequence(s) && Untracked(s) && e.requestor != PRIMARY
    ensures Untracked(StepSequenceWrite(s, e))
  {
  }

  lemma HeldUntrackedSequence(s: System)
    requires Shape(s) && CanSequence(s) && s.up[PRIMARY] == [] && OneAtATime(s) && HeldUntracked(s)
    ensures HeldUntracked(Step(s, Sequence))
  {
    var h := s.sequencer.holdQueue[0];
    if h.HeldWrite? {
      HeadLeavesPipe(s, h.entry, PRIMARY);
      if h.entry.requestor != PRIMARY && Untracked(s) { SequenceUntracks(s, h.entry); }
    } else {
      TransferLeavesWrites(s, h.requestor, h.have, PRIMARY);
    }
  }

  lemma HeldUntrackedQuiet(s: System, ev: Event)
    requires Shape(s) && s.up[PRIMARY] == [] && HeldUntracked(s) && Enabled(s, ev)
    requires !ev.Write? && !ev.ToPrimary? && !ev.Sequence?
    ensures HeldUntracked(Step(s, ev))
  {
  }

  lemma HeldUntrackedSteps(s: System, ev: Event)
    requires Shape(s) && PipeInv(s) && OneAtATime(s) && HeldUntracked(s) && !Overruns(s, ev)
    ensures !StaleRelease(s, ev) && HeldUntracked(Step(s, ev))
  {
    HeldIsPipe(s);
    if Enabled(s, ev) {
      match ev {
        case Write(i, c) => WriteJoinsPipe(s, i, c, PRIMARY);
        case ToPrimary(i) =>
          DeliveryReleases(s, i);
          if Untracked(s) { DeliveryUntracks(s, i); }
        case Sequence => HeldUntrackedSequence(s);
        case _ => HeldUntrackedQuiet(s, ev);
      }
    }
  }

  lemma DrainedStep(s: System, ev: Event)
    requires Shape(s) && PipeInv(s) && OneAtATime(s) && HeldUntracked(s) && !Overruns(s, ev)
    ensures PipeInv(Step(s, ev)) && OneAtATime(Step(s, ev)) && HeldUntracked(Step(s, ev))
  {
    HeldUntrackedSteps(s, ev);
    OneAtATimeSteps(s, ev);
    PipeSteps(s, ev);
  }

  lemma {:induction false} DrainedSoFar(n: nat, evs: seq<Event>, k: nat)
    requires n >= 2 && k <= |evs|
    requires forall j :: 0 <= j < |evs| ==> !Overruns(Run(n, evs[..j]), evs[j])
    ensures PipeInv(Run(n, evs[..k])) && OneAtATime(Run(n, evs[..k])) && HeldUntracked(Run(n, evs[..k]))
  {
    if k == 0 {
      OrderHolds(n, evs[..0]);
      assert Run(n, evs[..0]) == Initial(n);
    } else {
      DrainedSoFar(n, evs, k - 1);
      RunNext(n, evs, k - 1);
      DrainedStep(Run(n, evs[..k - 1]), evs[k - 1]);
    }
  }

  /** A primary that takes on a write only when its earlier ones are fully acknowledged never executes one before
      it is in the order. */
  lemma DrainedPrimaryIsInOrder(n: nat, evs: seq<Event>, k: nat)
    requires n >= 2 && k <= |evs| && forall j :: 0 <= j < |evs| ==> !Overruns(Run(n, evs[..j]), evs[j])
    ensures InOrder(Run(n, evs[..k]))
  {
    DrainedSoFar(n, evs, k);
    OneAtATimeIsInOrder(Run(n, evs[..k]));
  }

  // ---- Replicas ----

  /** A replica is free to execute its own write only after it was sequenced and every replica consumed its
      commit. */
  lemma ReplicaReleasesAfterAll(n: nat, evs: seq<Event>, r: nat) returns (k: nat)
    requires n >= 2 && 2 <= r <= n && CanFinish(Run(n, evs), r)
    ensures var s := Run(n, evs);
            && k < |s.trace.order|
            && s.trace.order[k].entry == Entry(r, s.nodes[r].seqNum, s.nodes[r].pending.value)
            && forall i: nat :: IsPeer(s, i) ==> s.trace.consumed[i] > k
  {
    var s := Run(n, evs);
    OrderHolds(n, evs);
    OwnHolds(n, evs, r);
    k := ReleasedIsAcknowledged(s, r);
    forall i: nat | IsPeer(s, i) ensures s.trace.consumed[i] > k { AcknowledgedIsConsumed(s, k, i); }
  }

  lemma ReleasedIsAcknowledged(s: System, r: nat) returns (k: nat)
    requires Shape(s) && OrderInv(s) && IsPeer(s, r) && CanFinish(s, r) && OwnAt(s, r)
    ensures k < |s.trace.order| && Waiting(s.trace.acked, s.n, k) == {}
    ensures s.trace.order[k].entry == Entry(r, s.nodes[r].seqNum, s.nodes[r].pending.value)
  {
    var node := s.nodes[r];
    PipeCounts(s, r);
    assert PipeOf(s, r) == [];
    k := NumberIsSequenced(s.trace.order, r, node.seqNum);
    assert Awaited(Entry(r, node.seqNum, node.pending.value), s.trace.order[k], Waiting(s.trace.acked, s.n, k),
                   OkaysIn(s.down[r]), node.blocked);
  }
}
