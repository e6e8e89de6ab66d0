/** What a server's checkpoint holds, and when the checkpoints of two servers agree. */
module Snapshots {
  import opened KeyValue
  import opened WriteAheadLog
  import opened Replication
  import opened Ordering
  import opened Barrier
  import opened Journals
  import opened Convergence

  /** The event has server r take a checkpoint. */
  predicate Takes(s: System, ev: Event, r: nat)
    requires Shape(s) && IsServer(s, r)
  {
    && Enabled(s, ev)
    && match ev
       case CheckpointTest => r == PRIMARY && CheckpointDue(s.nodes[PRIMARY])
       case ToPeer(i) => i == r && s.down[i][0].Checkpoint? && !s.nodes[i].disabled
       case _ => false
  }

  /** After how many commits the server took its last checkpoint. */
  function LastCut(s: System, r: nat): nat
    requires Shape(s) && IsServer(s, r)
  {
    if s.trace.cuts[r] == [] then 0 else s.trace.cuts[r][|s.trace.cuts[r]| - 1]
  }

  /** The checkpoint held in s' is the tablet of s, where the server had seen every commit sequenced so far. */
  predicate HeldSince(s: System, s': System, r: nat)
    requires Shape(s) && Shape(s') && IsServer(s, r) && IsServer(s', r)
  {
    s'.nodes[r].checkpoint == s.nodes[r].tablet && LastCut(s', r) == Seen(s, r) == |s.trace.order|
  }

  lemma TestSnapshot(s: System, r: nat)
    requires Shape(s) && IsServer(s, r)
    ensures var s', taken := StepCheckpointTest(s), r == PRIMARY && CheckpointDue(s.nodes[PRIMARY]);
            && s'.nodes[r].checkpoint == (if taken then s.nodes[r].tablet else s.nodes[r].checkpoint)
            && s'.trace.cuts[r] == s.trace.cuts[r] + if taken then [|s.trace.order|] else []
  {
    assert s.trace.cuts[r] + [] == s.trace.cuts[r];
  }

  lemma ReceiptSnapshot(s: System, i: nat, r: nat)
    requires Shape(s) && IsServer(s, r) && CanDeliverDown(s, i)
    ensures var s', taken := StepToPeer(s, i), i == r && s.down[i][0].Checkpoint? && !s.nodes[i].disabled;
            && s'.nodes[r].checkpoint == (if taken then s.nodes[r].tablet else s.nodes[r].checkpoint)
            && s'.trace.cuts[r] == s.trace.cuts[r] + if taken then [s.trace.consumed[r]] else []
  {
    assert s.trace.cuts[r] + [] == s.trace.cuts[r];
    if i == r { ReceiptCuts(s, i); } else { ReceiptElsewhere(s, i, r); }
  }

  lemma DeliverySnapshot(s: System, i: nat, r: nat)
    requires Shape(s) && IsServer(s, r) && CanDeliverUp(s, i)
    ensures var s' := StepToPrimary(s, i);
            s'.nodes[r].checkpoint == s.nodes[r].checkpoint && s'.trace.cuts == s.trace.cuts
  {
  }

  lemma SequenceSnapshot(s: System, r: nat)
    requires Shape(s) && IsServer(s, r) && CanSequence(s)
    ensures var s' := Step(s, Sequence);
            s'.nodes[r].checkpoint == s.nodes[r].checkpoint && s'.trace.cuts == s.trace.cuts
  {
  }

  lemma QuietSnapshot(s: System, ev: Event, r: nat)
    requires Shape(s) && IsServer(s, r) && Enabled(s, ev)
    requires ev.EndBarrier? || ev.Disable? || ev.Restart?
    ensures var s' := Step(s, ev);
            s'.nodes[r].checkpoint == s.nodes[r].checkpoint && s'.trace.cuts == s.trace.cuts
  {
  }

  lemma WriteSnapshot(s: System, ev: Event, r: nat)
    requires Shape(s) && IsServer(s, r) && Enabled(s, ev) && (ev.Write? || ev.Finish?)
    ensures var s' := Step(s, ev);
            s'.nodes[r].checkpoint == s.nodes[r].checkpoint && s'.trace.cuts == s.trace.cuts
  {
  }

  /** A checkpoint is the tablet at that moment, and its cut is what the server has seen of the order. */
  lemma SnapshotStep(s: System, ev: Event, r: nat)
    requires Shape(s) && IsServer(s, r)
    ensures var s' := Step(s, ev);
            && s'.nodes[r].checkpoint == (if Takes(s, ev, r) then s.nodes[r].tablet else s.nodes[r].checkpoint)
            && s'.trace.cuts[r] == s.trace.cuts[r] + if Takes(s, ev, r) then [Seen(s, r)] else []
  {
    assert s.trace.cuts[r] + [] == s.trace.cuts[r];
    if Enabled(s, ev) {
      match ev {
        case CheckpointTest => TestSnapshot(s, r);
        case ToPeer(i) => ReceiptSnapshot(s, i, r);
        case ToPrimary(i) => DeliverySnapshot(s, i, r);
        case Sequence => SequenceSnapshot(s, r);
        case Write(_, _) => WriteSnapshot(s, ev, r);
        case Finish(_) => WriteSnapshot(s, ev, r);
        case _ => QuietSnapshot(s, ev, r);
      }
    }
  }

  lemma TakenComplete(n: nat, evs: seq<Event>, ev: Event, r: nat)
    requires n >= 2 && 1 <= r <= n && Takes(Run(n, evs), ev, r)
    ensures Seen(Run(n, evs), r) == |Run(n, evs).trace.order|
  {
    var s := Run(n, evs);
    if r != PRIMARY {
      OrderHolds(n, evs);
      BarrierHolds(n, evs);
      assert BarrierAt(s, r);
      CheckpointSeesAll(s, r);
    }
  }

  lemma HeldStep(s: System, ev: Event, r: nat)
    requires Shape(s) && IsServer(s, r) && (Takes(s, ev, r) ==> Seen(s, r) == |s.trace.order|)
    ensures var s' := Step(s, ev);
            if Takes(s, ev, r) then HeldSince(s, s', r)
            else s'.nodes[r].checkpoint == s.nodes[r].checkpoint && s'.trace.cuts[r] == s.trace.cuts[r]
  {
    SnapshotStep(s, ev, r);
    if !Takes(s, ev, r) { assert s.trace.cuts[r] + [] == s.trace.cuts[r]; }
  }

  lemma HeldNext(n: nat, evs: seq<Event>, m: nat, r: nat)
    requires n >= 2 && 1 <= r <= n && m < |evs|
    ensures var s, s' := Run(n, evs[..m]), Run(n, evs[..m + 1]);
            if Takes(s, evs[m], r) then HeldSince(s, s', r)
            else s'.nodes[r].checkpoint == s.nodes[r].checkpoint && s'.trace.cuts[r] == s.trace.cuts[r]
  {
    RunNext(n, evs, m);
    if Takes(Run(n, evs[..m]), evs[m], r) { TakenComplete(n, evs[..m], evs[m], r); }
    HeldStep(Run(n, evs[..m]), evs[m], r);
  }

  /** The checkpoint held after m events was taken at the k-th. */
  predicate TakenAt(n: nat, evs: seq<Event>, k: nat, m: nat, r: nat)
    requires n >= 2 && 1 <= r <= n && m <= |evs|
  {
    k < m && Takes(Run(n, evs[..k]), evs[k], r) && HeldSince(Run(n, evs[..k]), Run(n, evs[..m]), r)
  }

  lemma StillHeld(n: nat, evs: seq<Event>, k: nat, m: nat, r: nat)
    requires n >= 2 && 1 <= r <= n && m < |evs| && !Takes(Run(n, evs[..m]), evs[m], r)
    requires TakenAt(n, evs, k, m, r)
    ensures TakenAt(n, evs, k, m + 1, r)
  {
    HeldNext(n, evs, m, r);
  }

  lemma NoCutAtStart(n: nat, evs: seq<Event>, r: nat)
    requires n >= 2 && 1 <= r <= n
    ensures Run(n, evs[..0]).trace.cuts[r] == []
  {
    assert Run(n, evs[..0]) == Initial(n);
  }

  lemma {:induction false} TakenBy(n: nat, evs: seq<Event>, m: nat, r: nat) returns (k: nat)
    requires n >= 2 && 1 <= r <= n && m <= |evs| && Run(n, evs[..m]).trace.cuts[r] != []
    ensures TakenAt(n, evs, k, m, r)
  {
    NoCutAtStart(n, evs, r);
    HeldNext(n, evs, m - 1, r);
    if Takes(Run(n, evs[..m - 1]), evs[m - 1], r) {
      k := m - 1;
    } else {
      k := TakenBy(n, evs, m - 1, r);
      StillHeld(n, evs, k, m - 1, r);
    }
  }

  /** In every run, the checkpoint a server holds is the tablet it had when it took its last one, at a moment when it
      had seen every commit sequenced so far. */
  lemma SnapshotTaken(n: nat, evs: seq<Event>, r: nat) returns (k: nat)
    requires n >= 2 && 1 <= r <= n && Run(n, evs).trace.cuts[r] != []
    ensures k < |evs| && Takes(Run(n, evs[..k]), evs[k], r)
    ensures HeldSince(Run(n, evs[..k]), Run(n, evs), r)
  {
    assert evs[..|evs|] == evs;
    k := TakenBy(n, evs, |evs|, r);
  }

  /** So it is the replay of what the server had logged by then; that of a primary disabled at that moment is empty. */
  lemma SnapshotIsReplay(n: nat, evs: seq<Event>, r: nat) returns (k: nat)
    requires n >= 2 && 1 <= r <= n && Run(n, evs).trace.cuts[r] != []
    requires r == PRIMARY ==> forall j :: 0 <= j < |evs| ==> !AddsWhileDisabled(Run(n, evs[..j]), evs[j])
    ensures k < |evs| && Takes(Run(n, evs[..k]), evs[k], r)
    ensures var node := Run(n, evs[..k]).nodes[r];
            AllFaithful(node.log) ==>
              Run(n, evs).nodes[r].checkpoint == if node.disabled then map[] else ReplayAll(map[], node.log)
  {
    k := SnapshotTaken(n, evs, r);
    WalSoFar(n, evs, k, r);
  }

  /** Whenever the server takes a checkpoint, it has executed exactly those of its own writes whose commit it has
      seen. */
  predicate CleanCuts(n: nat, evs: seq<Event>, r: nat)
    requires n >= 2 && 1 <= r <= n
  {
    forall k :: 0 <= k < |evs| && Takes(Run(n, evs[..k]), evs[k], r) ==>
      Seen(Run(n, evs[..k]), r) <= |Run(n, evs[..k]).trace.order| && AllSettled(Run(n, evs[..k]), r)
  }

  lemma StillUncontended(n: nat, evs: seq<Event>, k: nat, j: nat, r: nat)
    requires n >= 2 && 1 <= r <= n && j < k <= |evs| && !Contended(Run(n, evs[..j]), evs[j], r)
    ensures !Contended(Run(n, evs[..k][..j]), evs[..k][j], r)
  {
    assert evs[..k][..j] == evs[..j] && evs[..k][j] == evs[j];
  }

  lemma UncontendedPrefix(n: nat, evs: seq<Event>, k: nat, r: nat)
    requires n >= 2 && 1 <= r <= n && k <= |evs| && Uncontended(n, evs, r)
    ensures Uncontended(n, evs[..k], r)
  {
    forall j | 0 <= j < k ensures !Contended(Run(n, evs[..k][..j]), evs[..k][j], r) {
      StillUncontended(n, evs, k, j, r);
    }
  }

  lemma CutOfOrder(order: seq<Sequenced>, seen: seq<Entry>, cut: nat)
    requires cut <= |order| && |seen| == cut && seen <= Entries(order)
    ensures seen == Entries(order[..cut])
  {
    assert seen == Entries(order)[..cut];
  }

  /** What a server had seen at an earlier moment of a run is that much of the order. */
  lemma SeenIsOfOrder(n: nat, evs: seq<Event>, k: nat, r: nat)
    requires n >= 2 && 1 <= r <= n && k <= |evs| && Steady(Run(n, evs), r)
    ensures var s, order := Run(n, evs[..k]), Run(n, evs).trace.order;
            && Seen(s, r) <= |s.trace.order| && Seen(s, r) <= |order|
            && SeenOf(s, r) == Entries(order[..Seen(s, r)])
  {
    RunGrows(n, evs, k, r);
    var s, s' := Run(n, evs[..k]), Run(n, evs);
    assert SeenOf(s', r) == Entries(s'.trace.order)[..Seen(s', r)];
    CutOfOrder(s'.trace.order, SeenOf(s, r), Seen(s, r));
  }

  /** A never-disabled server's checkpoint is the tablet that the order gives up to its last cut: provided it took it
      with nothing of its own unsettled, none of its steps was contended, and the writes name no more new users than
      a tablet holds. */
  lemma SnapshotIsOfOrder(n: nat, evs: seq<Event>, r: nat)
    requires n >= 2 && 1 <= r <= n && Run(n, evs).trace.stayed[r] && Run(n, evs).trace.cuts[r] != []
    requires Uncontended(n, evs, r) && CleanCuts(n, evs, r)
    requires |Added(Cmds(Entries(Run(n, evs).trace.order)))| <= MAX_TABLET_USERS
    ensures var s := Run(n, evs);
            && LastCut(s, r) <= |s.trace.order|
            && s.nodes[r].checkpoint == ApplyAll(map[], Cmds(Entries(s.trace.order[..LastCut(s, r)])))
  {
    var k := SnapshotTaken(n, evs, r);
    var order, cut := Run(n, evs).trace.order, Seen(Run(n, evs[..k]), r);
    SeenIsOfOrder(n, evs, k, r);
    StayedSince(n, evs, k, r);
    UncontendedPrefix(n, evs, k, r);
    FewerAdded(order, cut);
    SettledTablet(n, evs[..k], r);
  }

  lemma FewerAdded(order: seq<Sequenced>, cut: nat)
    requires cut <= |order|
    ensures |Added(Cmds(Entries(order[..cut])))| <= |Added(Cmds(Entries(order)))|
  {
    var some, all := Cmds(Entries(order[..cut])), Cmds(Entries(order));
    assert some == all[..cut];
    SubsetSize(Added(some), Added(all));
  }

  lemma SameCuts(n: nat, evs: seq<Event>, r: nat)
    requires n >= 2 && 1 <= r <= n && !Run(n, evs).sequencer.checkpointBlock && Run(n, evs).trace.stayed[r]
    ensures Run(n, evs).trace.cuts[r] == Run(n, evs).trace.cuts[PRIMARY]
  {
    CheckpointsAgree(n, evs, r);
  }

  /** A tablet that has taken all writes up to a place in the order. */
  function TabletUpTo(order: seq<Sequenced>, cut: nat): Tablet
    requires cut <= |order|
  {
    ApplyAll(map[], Cmds(Entries(order[..cut])))
  }

  lemma SnapshotAtCut(n: nat, evs: seq<Event>, r: nat, cut: nat)
    requires n >= 2 && 1 <= r <= n && Run(n, evs).trace.stayed[r] && Run(n, evs).trace.cuts[r] != []
    requires Uncontended(n, evs, r) && CleanCuts(n, evs, r) && LastCut(Run(n, evs), r) == cut
    requires |Added(Cmds(Entries(Run(n, evs).trace.order)))| <= MAX_TABLET_USERS
    ensures cut <= |Run(n, evs).trace.order|
    ensures Run(n, evs).nodes[r].checkpoint == TabletUpTo(Run(n, evs).trace.order, cut)
  {
    SnapshotIsOfOrder(n, evs, r);
  }

  lemma SameLastCut(s: System, i: nat)
    requires Shape(s) && IsServer(s, i) && s.trace.cuts[i] == s.trace.cuts[PRIMARY]
    ensures LastCut(s, i) == LastCut(s, PRIMARY)
  {
  }

  /** Outside a barrier, two such servers hold the same checkpoint. */
  lemma SnapshotsAgree(n: nat, evs: seq<Event>, i: nat, j: nat)
    requires n >= 2 && 1 <= i <= n && 1 <= j <= n && !Run(n, evs).sequencer.checkpointBlock
    requires Run(n, evs).trace.stayed[i] && Run(n, evs).trace.stayed[j] && Run(n, evs).trace.cuts[PRIMARY] != []
    requires Uncontended(n, evs, i) && CleanCuts(n, evs, i) && Uncontended(n, evs, j) && CleanCuts(n, evs, j)
    requires |Added(Cmds(Entries(Run(n, evs).trace.order)))| <= MAX_TABLET_USERS
    ensures Run(n, evs).nodes[i].checkpoint == Run(n, evs).nodes[j].checkpoint
  {
    SameCuts(n, evs, i);
    SameCuts(n, evs, j);
    SameLastCut(Run(n, evs), i);
    SameLastCut(Run(n, evs), j);
    SnapshotAtCut(n, evs, i, LastCut(Run(n, evs), PRIMARY));
    SnapshotAtCut(n, evs, j, LastCut(Run(n, evs), PRIMARY));
  }
}
