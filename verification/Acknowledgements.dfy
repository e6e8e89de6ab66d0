/** Conservation of acknowledgements, +OK, and freedom from deadlock. */
module Acknowledgements {
  import opened Sequences
  import opened KeyValue
  import opened Replication
  import opened Channels
  import opened Ordering
  import opened Barrier
  import opened OwnWrites

  // ---- Counting what is under way ----

  /** Commits and acknowledgements of one write under way between the primary and replicas 2..m. */
  function UnderWay(s: System, id: (nat, nat), m: nat): nat
    requires Shape(s) && m <= s.n
  {
    if m < 2 then 0
    else UnderWay(s, id, m - 1) + multiset(Ids(CommitsIn(s.down[m])))[id] + multiset(AcksIn(s.up[m]))[id]
  }

  lemma CountMore<T>(xs: seq<T>, x: T, y: T)
    ensures multiset(xs + [x])[y] == multiset(xs)[y] + if x == y then 1 else 0
  {
  }

  /** No other write of the order has the k-th one's number. */
  predicate Unique(order: seq<Sequenced>, k: nat)
    requires k < |order|
  {
    forall j :: 0 <= j < |order| ==> (Id(order[j]) == Id(order[k]) <==> j == k)
  }

  lemma NumbersAreUnique(order: seq<Sequenced>, k: nat)
    requires Numbered(order) && k < |order|
    ensures Unique(order, k)
  {
    forall j | 0 <= j < |order| && Id(order[j]) == Id(order[k]) ensures j == k {
      IdsDistinct(order, j, k);
    }
  }

  lemma {:induction false} OccursOnce(order: seq<Sequenced>, from: nat, upTo: nat, k: nat)
    requires k < |order| && Unique(order, k) && from <= upTo <= |order|
    ensures multiset(Ids(order[from..upTo]))[Id(order[k])] == if from <= k < upTo then 1 else 0
    decreases upTo
  {
    if from < upTo {
      OccursOnce(order, from, upTo - 1, k);
      IdsLast(order, from, upTo);
      CountMore(Ids(order[from..upTo - 1]), Id(order[upTo - 1]), Id(order[k]));
    } else {
      IdsNone(order, from);
    }
  }

  lemma OccursNever(xs: seq<Sequenced>, id: (nat, nat))
    requires forall k :: 0 <= k < |xs| ==> Id(xs[k]) != id
    ensures multiset(Ids(xs))[id] == 0
  {
    assert id !in Ids(xs);
  }

  lemma ShareIn(order: seq<Sequenced>, c: nat, a: nat, up: seq<UpMessage>, down: seq<DownMessage>, k: nat)
    requires Chain(order, c, a, up, down) && k < |order| && Unique(order, k)
    ensures multiset(Ids(CommitsIn(down)))[Id(order[k])] + multiset(AcksIn(up))[Id(order[k])] ==
            if a <= k then 1 else 0
  {
    OccursOnce(order, a, c, k);
    OccursOnce(order, c, |order|, k);
    assert order[c..] == order[c..|order|];
  }

  /** One replica's share: a write is under way to or from it until its acknowledgement is counted, and then
      only once. */
  lemma ShareOf(s: System, i: nat, k: nat)
    requires Shape(s) && OrderInv(s) && IsPeer(s, i) && k < |s.trace.order|
    ensures multiset(Ids(CommitsIn(s.down[i])))[Id(s.trace.order[k])] +
            multiset(AcksIn(s.up[i]))[Id(s.trace.order[k])] == if s.trace.acked[i] <= k then 1 else 0
  {
    NumbersAreUnique(s.trace.order, k);
    assert Chain(s.trace.order, s.trace.consumed[i], s.trace.acked[i], s.up[i], s.down[i]);
    ShareIn(s.trace.order, s.trace.consumed[i], s.trace.acked[i], s.up[i], s.down[i], k);
  }

  /** Acknowledgements of a number that is tracked already go on being counted from where they were. */
  lemma TrackedIsKept(at: AckTrack, r: nat, q: nat, peers: nat)
    ensures Tracked(at, r, q) ==> Track(at, r, q, peers) == at
    ensures !Tracked(at, r, q) ==> CountOf(Track(at, r, q, peers), (r, q)) == peers
  {
    if !Tracked(at, r, q) { TrackCounts(at, r, q, peers, (r, q)); }
  }

  /** In every run no write is sequenced while acknowledgements of its number are awaited. */
  lemma TrackedOnce(n: nat, evs: seq<Event>)
    requires n >= 2 && CanSequence(Run(n, evs)) && Run(n, evs).sequencer.holdQueue[0].HeldWrite?
    ensures var e := Run(n, evs).sequencer.holdQueue[0].entry;
            !Tracked(Run(n, evs).sequencer.acktrack, e.requestor, e.seqNum)
  {
    var s := Run(n, evs);
    OrderHolds(n, evs);
    HeadIsNext(s, s.sequencer.holdQueue[0].entry);
  }

  lemma WaitingGrows(acked: seq<nat>, m: nat, k: nat)
    requires 2 <= m < |acked|
    ensures |Waiting(acked[..m + 1], m, k)| == |Waiting(acked[..m], m - 1, k)| + if acked[m] <= k then 1 else 0
  {
    var w, w1 := Waiting(acked[..m + 1], m, k), Waiting(acked[..m], m - 1, k);
    assert w == if acked[m] <= k then w1 + {m} else w1;
  }

  lemma {:induction false} SharesAddUp(s: System, k: nat, m: nat)
    requires Shape(s) && OrderInv(s) && 1 <= m <= s.n && k < |s.trace.order|
    ensures UnderWay(s, Id(s.trace.order[k]), m) == |Waiting(s.trace.acked[..m + 1], m, k)|
  {
    if m == 1 {
      assert Waiting(s.trace.acked[..m + 1], m, k) == {};
    } else {
      SharesAddUp(s, k, m - 1);
      ShareOf(s, m, k);
      WaitingGrows(s.trace.acked, m, k);
    }
  }

  lemma NoShare(s: System, id: (nat, nat), i: nat)
    requires Shape(s) && ChainInv(s) && IsPeer(s, i)
    requires forall k :: 0 <= k < |s.trace.order| ==> Id(s.trace.order[k]) != id
    ensures multiset(Ids(CommitsIn(s.down[i])))[id] == 0 && multiset(AcksIn(s.up[i]))[id] == 0
  {
    var order, c, a := s.trace.order, s.trace.consumed[i], s.trace.acked[i];
    assert Chain(order, c, a, s.up[i], s.down[i]);
    OccursNever(order[c..], id);
    OccursNever(order[a..c], id);
  }

  lemma {:induction false} UnsequencedIsNowhere(s: System, id: (nat, nat), m: nat)
    requires Shape(s) && ChainInv(s) && m <= s.n
    requires forall k :: 0 <= k < |s.trace.order| ==> Id(s.trace.order[k]) != id
    ensures UnderWay(s, id, m) == 0
  {
    if m >= 2 {
      UnsequencedIsNowhere(s, id, m - 1);
      NoShare(s, id, m);
    }
  }

  /** In every run and for every write, the primary's count is the number of its commits and acknowledgements
      under way, whether or not the replicas are disabled. */
  lemma AcknowledgementsAreConserved(n: nat, evs: seq<Event>, id: (nat, nat))
    requires n >= 2
    ensures CountOf(Run(n, evs).sequencer.acktrack, id) == UnderWay(Run(n, evs), id, n)
  {
    var s := Run(n, evs);
    OrderHolds(n, evs);
    if k :| 0 <= k < |s.trace.order| && Id(s.trace.order[k]) == id {
      SharesAddUp(s, k, n);
      assert s.trace.acked[..n + 1] == s.trace.acked;
    } else {
      UnsequencedIsNowhere(s, id, n);
      if Tracked(s.sequencer.acktrack, id.0, id.1) {
        var k := NumberIsSequenced(s.trace.order, id.0, id.1);
        assert false;
      }
    }
  }

  /** A write is answered with +OK at most once, never for the primary itself, and only after every replica has
      consumed its commit and the count has come down to nothing. */
  lemma OkayOnceAfterAll(n: nat, evs: seq<Event>, k: nat)
    requires n >= 2 && k < |Run(n, evs).trace.order|
    ensures var s := Run(n, evs);
            var id := Id(s.trace.order[k]);
            && s.trace.okays[id] <= 1
            && (s.trace.okays[id] == 1 <==> id.0 != PRIMARY && CountOf(s.sequencer.acktrack, id) == 0)
            && (s.trace.okays[id] == 1 ==> forall i: nat :: IsPeer(s, i) ==> s.trace.consumed[i] > k)
  {
    OrderHolds(n, evs);
    var s := Run(n, evs);
    assert CountOf(s.sequencer.acktrack, Id(s.trace.order[k])) == |Waiting(s.trace.acked, n, k)|;
    if Waiting(s.trace.acked, n, k) == {} {
      forall i: nat | IsPeer(s, i) ensures s.trace.consumed[i] > k { AcknowledgedIsConsumed(s, k, i); }
    }
  }

  // ---- Freedom from deadlock ----

  /** The events that carry work on; new writes and the administrator's commands are not among them. */
  predicate Progress(ev: Event) {
    !ev.Write? && !ev.Disable? && !ev.Restart?
  }

  /** The primary is blocked only on a write it still holds. */
  predicate PrimaryHolds(s: System)
    requires Shape(s)
  {
    s.nodes[PRIMARY].pending.Some? && s.nodes[PRIMARY].blocked ==> WritesOf(s.sequencer.holdQueue, PRIMARY) != []
  }

  lemma PrimaryHoldsWrite(s: System, i: nat, c: Command)
    requires Shape(s) && PrimaryHolds(s) && CanWrite(s, i)
    ensures PrimaryHolds(StepWrite(s, i, c))
  {
    var h := HeldWrite(BeginWrite(s.nodes[i], i, c).1);
    HeldConcat(s.sequencer.holdQueue, [h], PRIMARY);
    HeldOne(h, PRIMARY);
  }

  lemma PrimaryHoldsDelivery(s: System, i: nat)
    requires Shape(s) && PrimaryHolds(s) && CanDeliverUp(s, i)
    ensures PrimaryHolds(StepToPrimary(s, i))
  {
    DeliveryMoves(s, i);
    if s.up[i][0].Request? { HeldConcat(s.sequencer.holdQueue, [s.up[i][0].item], PRIMARY); }
  }

  lemma PrimaryHoldsWriteSequenced(s: System, e: Entry)
    requires Shape(s) && PrimaryHolds(s) && CanSequence(s) && s.sequencer.holdQueue[0] == HeldWrite(e)
    ensures PrimaryHolds(StepSequenceWrite(s, e))
  {
    HeldHead(s.sequencer.holdQueue, PRIMARY);
    HeldOne(s.sequencer.holdQueue[0], PRIMARY);
    SequencedNodes(s, e, PRIMARY);
  }

  lemma PrimaryHoldsTransferSequenced(s: System, q: nat, have: nat)
    requires Shape(s) && PrimaryHolds(s) && CanSequence(s) && s.sequencer.holdQueue[0] == HeldTransfer(q, have)
    ensures PrimaryHolds(StepSequenceTransfer(s, q, have))
  {
    HeldHead(s.sequencer.holdQueue, PRIMARY);
    HeldOne(s.sequencer.holdQueue[0], PRIMARY);
    LeftEmpty(WritesOf(s.sequencer.holdQueue[1..], PRIMARY));
  }

  lemma PrimaryHoldsSequence(s: System)
    requires Shape(s) && PrimaryHolds(s) && CanSequence(s)
    ensures PrimaryHolds(Step(s, Sequence))
  {
    var h := s.sequencer.holdQueue[0];
    SequenceIs(s);
    if h.HeldWrite? {
      PrimaryHoldsWriteSequenced(s, h.entry);
    } else {
      PrimaryHoldsTransferSequenced(s, h.requestor, h.have);
    }
  }

  lemma PrimaryHoldsSteps(s: System, ev: Event)
    requires Shape(s) && PrimaryHolds(s)
    ensures PrimaryHolds(Step(s, ev))
  {
    if Enabled(s, ev) {
      match ev {
        case Write(i, c) => PrimaryHoldsWrite(s, i, c);
        case ToPrimary(i) => PrimaryHoldsDelivery(s, i);
        case Sequence => PrimaryHoldsSequence(s);
        case _ =>
      }
    }
  }

  lemma {:induction false} PrimaryHoldsHolds(n: nat, evs: seq<Event>)
    requires n >= 2
    ensures PrimaryHolds(Run(n, evs))
  {
    if evs != [] {
      PrimaryHoldsHolds(n, evs[..|evs| - 1]);
      PrimaryHoldsSteps(Run(n, evs[..|evs| - 1]), evs[|evs| - 1]);
    }
  }

  /** With a request in the hold queue, the sequencing thread or a replica it waits for can move. */
  lemma QueueMoves(s: System) returns (ev: Event)
    requires Shape(s) && BarrierInv(s) && s.sequencer.holdQueue != []
    ensures Progress(ev) && Enabled(s, ev)
  {
    match s.sequencer.phase {
      case Ready => ev := Sequence;
      case Committed => ev := CheckpointTest;
      case Barrier =>
        if !s.sequencer.checkpointBlock {
          ev := EndBarrier;
        } else {
          var i :| i in Outstanding(s);
          assert s.down[i] == [] ==> CheckpointsIn(s.down[i]) == 0;
          ev := if s.down[i] != [] then ToPeer(i) else ToPrimary(i);
        }
    }
  }

  /** A replica's write always has something under way, until it is released. */
  lemma WriteMoves(s: System, r: nat) returns (ev: Event)
    requires Shape(s) && OrderInv(s) && BarrierInv(s) && IsPeer(s, r) && OwnAt(s, r) && s.nodes[r].pending.Some?
    ensures Progress(ev) && Enabled(s, ev)
  {
    var node := s.nodes[r];
    if s.sequencer.holdQueue != [] {
      ev := QueueMoves(s);
    } else if s.up[r] != [] {
      ev := ToPrimary(r);
    } else if s.down[r] != [] {
      ev := ToPeer(r);
    } else if !node.blocked {
      ev := Finish(r);
    } else {
      var k := BlockedIsWaiting(s, r);
      var i :| i in Waiting(s.trace.acked, s.n, k);
      ev := WaitingMoves(s, k, i);
    }
  }

  /** A blocked write that is on no channel of its own waits for acknowledgements. */
  lemma BlockedIsWaiting(s: System, r: nat) returns (k: nat)
    requires Shape(s) && OrderInv(s) && IsPeer(s, r) && OwnAt(s, r)
    requires s.nodes[r].pending.Some? && s.nodes[r].blocked
    requires s.sequencer.holdQueue == [] && s.up[r] == [] && s.down[r] == []
    ensures k < |s.trace.order| && Waiting(s.trace.acked, s.n, k) != {}
  {
    var node := s.nodes[r];
    PipeCounts(s, r);
    k := NumberIsSequenced(s.trace.order, r, node.seqNum);
    assert Awaited(Entry(r, node.seqNum, node.pending.value), s.trace.order[k], Waiting(s.trace.acked, s.n, k),
                   OkaysIn(s.down[r]), node.blocked);
  }

  /** A replica whose acknowledgement is awaited has something to receive or to have delivered. */
  lemma WaitingMoves(s: System, k: nat, i: nat) returns (ev: Event)
    requires Shape(s) && ChainInv(s) && k < |s.trace.order| && i in Waiting(s.trace.acked, s.n, k)
    ensures Progress(ev) && Enabled(s, ev)
  {
    assert Chain(s.trace.order, s.trace.consumed[i], s.trace.acked[i], s.up[i], s.down[i]);
    if s.down[i] != [] {
      ev := ToPeer(i);
    } else {
      assert CommitsIn(s.down[i]) == [] && s.trace.consumed[i] == |s.trace.order|;
      assert |AcksIn(s.up[i])| > 0;
      ev := ToPrimary(i);
    }
  }

  /** In every run the group can carry on until it comes to rest, however many replicas are disabled. */
  lemma NeverStuck(n: nat, evs: seq<Event>) returns (ev: Event)
    requires n >= 2 && !Quiescent(Run(n, evs))
    ensures Progress(ev) && Enabled(Run(n, evs), ev)
  {
    var s := Run(n, evs);
    OrderHolds(n, evs);
    BarrierHolds(n, evs);
    PrimaryHoldsHolds(n, evs);
    NothingAtPrimary(n, evs);
    if s.sequencer.holdQueue != [] {
      ev := QueueMoves(s);
    } else {
      var i: nat :| 1 <= i <= n && !(s.up[i] == [] && s.down[i] == [] && s.nodes[i].pending.None?);
      if i == PRIMARY {
        ev := Finish(PRIMARY);
      } else if s.up[i] != [] {
        ev := ToPrimary(i);
      } else if s.down[i] != [] {
        ev := ToPeer(i);
      } else {
        OwnHolds(n, evs, i);
        ev := WriteMoves(s, i);
      }
    }
  }

  lemma NothingSent(s: System, ev: Event)
    requires Shape(s) && s.down[PRIMARY] == []
    ensures Step(s, ev).down[PRIMARY] == []
  {
    if Enabled(s, ev) && ev.ToPrimary? {
      OkayIsForPeers(s, ev.server);
    }
  }

  lemma OkayIsForPeers(s: System, i: nat)
    requires Shape(s) && CanDeliverUp(s, i)
    ensures StepToPrimary(s, i).down[PRIMARY] == s.down[PRIMARY]
  {
  }

  lemma {:induction false} NothingAtPrimary(n: nat, evs: seq<Event>)
    requires n >= 2
    ensures Run(n, evs).down[PRIMARY] == [] && Run(n, evs).up[PRIMARY] == []
  {
    OrderHolds(n, evs);
    if evs != [] {
      NothingAtPrimary(n, evs[..|evs| - 1]);
      NothingSent(Run(n, evs[..|evs| - 1]), evs[|evs| - 1]);
    }
  }
}
