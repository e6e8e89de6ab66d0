/** Without new writes every run comes to rest: each step of the threads brings it closer. */
module Liveness {
  import opened Replication
  import opened Channels
  import opened Ordering
  import opened Barrier
  import opened OwnWrites
  import opened Acknowledgements

  // ---- How much is left to do ----

  /** A message weighs more than the answer to it: those to the primary weigh 2, a +OK 1. */
  function DownWeight(m: DownMessage): nat {
    if m.Commit? || m.Checkpoint? then 3 else 1
  }

  function UpLoad(q: seq<UpMessage>): nat {
    2 * |q|
  }

  function DownLoad(q: seq<DownMessage>): nat {
    if q == [] then 0 else DownWeight(q[0]) + DownLoad(q[1..])
  }

  function Total(xs: seq<nat>): nat {
    if xs == [] then 0 else xs[0] + Total(xs[1..])
  }

  function UpLoads(up: seq<seq<UpMessage>>): seq<nat> {
    seq(|up|, i requires 0 <= i < |up| => UpLoad(up[i]))
  }

  function DownLoads(down: seq<seq<DownMessage>>): seq<nat> {
    seq(|down|, i requires 0 <= i < |down| => DownLoad(down[i]))
  }

  function RequestCounts(up: seq<seq<UpMessage>>): seq<nat> {
    seq(|up|, i requires 0 <= i < |up| => |HeldIn(up[i])|)
  }

  function PendingCounts(nodes: seq<Node>): seq<nat> {
    seq(|nodes|, i requires 0 <= i < |nodes| => if nodes[i].pending.Some? then 1 else 0)
  }

  /** Requests that have yet to leave the hold queue. */
  function Unsequenced(s: System): nat {
    |s.sequencer.holdQueue| + Total(RequestCounts(s.up))
  }

  function PhaseRank(s: System): nat {
    match s.sequencer.phase
    case Ready => 0
    case Barrier => 1
    case Committed => 2
  }

  function Load(s: System): nat {
    Total(UpLoads(s.up)) + Total(DownLoads(s.down)) + Total(PendingCounts(s.nodes))
  }

  /** Less is left to do, in lexicographic order. */
  predicate Nearer(s': System, s: System) {
    || Unsequenced(s') < Unsequenced(s)
    || (Unsequenced(s') == Unsequenced(s) && PhaseRank(s') < PhaseRank(s))
    || (Unsequenced(s') == Unsequenced(s) && PhaseRank(s') == PhaseRank(s) && Load(s') < Load(s))
  }

  // ---- Sums ----

  lemma {:induction false} TotalUpdate(xs: seq<nat>, i: nat, v: nat)
    requires i < |xs|
    ensures Total(xs[i := v]) == Total(xs) - xs[i] + v
  {
    if i == 0 {
      assert xs[0 := v][1..] == xs[1..];
    } else {
      TotalUpdate(xs[1..], i - 1, v);
      assert xs[i := v][1..] == xs[1..][i - 1 := v];
    }
  }

  lemma UpUpdate(up: seq<seq<UpMessage>>, i: nat, q: seq<UpMessage>)
    requires i < |up|
    ensures Total(UpLoads(up[i := q])) == Total(UpLoads(up)) - UpLoad(up[i]) + UpLoad(q)
    ensures Total(RequestCounts(up[i := q])) == Total(RequestCounts(up)) - |HeldIn(up[i])| + |HeldIn(q)|
  {
    TotalUpdate(UpLoads(up), i, UpLoad(q));
    TotalUpdate(RequestCounts(up), i, |HeldIn(q)|);
    assert UpLoads(up[i := q]) == UpLoads(up)[i := UpLoad(q)];
    assert RequestCounts(up[i := q]) == RequestCounts(up)[i := |HeldIn(q)|];
  }

  lemma DownUpdate(down: seq<seq<DownMessage>>, i: nat, q: seq<DownMessage>)
    requires i < |down|
    ensures Total(DownLoads(down[i := q])) == Total(DownLoads(down)) - DownLoad(down[i]) + DownLoad(q)
  {
    TotalUpdate(DownLoads(down), i, DownLoad(q));
    assert DownLoads(down[i := q]) == DownLoads(down)[i := DownLoad(q)];
  }

  lemma {:induction false} DownLoadConcat(a: seq<DownMessage>, b: seq<DownMessage>)
    ensures DownLoad(a + b) == DownLoad(a) + DownLoad(b)
  {
    if a == [] {
      assert a + b == b;
    } else {
      DownLoadConcat(a[1..], b);
      assert (a + b)[1..] == a[1..] + b;
    }
  }

  // ---- Steps ----

  lemma FinishNearer(s: System, i: nat)
    requires Shape(s) && CanFinish(s, i)
    ensures Nearer(StepFinish(s, i), s)
  {
    TotalUpdate(PendingCounts(s.nodes), i, 0);
    assert PendingCounts(StepFinish(s, i).nodes) == PendingCounts(s.nodes)[i := 0];
  }

  lemma OkayLoad(more: seq<DownMessage>)
    requires |more| <= 1 && forall x :: 0 <= x < |more| ==> more[x].Okay?
    ensures DownLoad(more) <= 1
  {
  }

  lemma DeliveryKeepsCounts(s: System, i: nat)
    requires Shape(s) && CanDeliverUp(s, i)
    ensures PendingCounts(StepToPrimary(s, i).nodes) == PendingCounts(s.nodes)
  {
    forall r: nat | 1 <= r <= s.n ensures StepToPrimary(s, i).nodes[r].pending == s.nodes[r].pending {
      DeliveryKeepsPending(s, i, r);
    }
    assert StepToPrimary(s, i).nodes[0] == s.nodes[0];
  }

  lemma ArrivalKeepsCount(s: System, i: nat)
    requires Shape(s) && CanDeliverUp(s, i)
    ensures Unsequenced(StepToPrimary(s, i)) == Unsequenced(s)
  {
    var m := s.up[i][0];
    DeliveryMoves(s, i);
    UpUpdate(s.up, i, s.up[i][1..]);
    UpHead(s.up[i]);
    UpOne(m);
  }

  lemma DeliveryNearer(s: System, i: nat)
    requires Shape(s) && CanDeliverUp(s, i)
    ensures Nearer(StepToPrimary(s, i), s)
  {
    var more, r := DeliveryEffect(s, i);
    ArrivalKeepsCount(s, i);
    DeliveryKeepsCounts(s, i);
    UpUpdate(s.up, i, s.up[i][1..]);
    DownUpdate(s.down, r, s.down[r] + more);
    DownLoadConcat(s.down[r], more);
    OkayLoad(more);
  }

  /** A replica's answer weighs less than what it answers. */
  lemma AnswerIsLighter(node: Node, id: nat, m: DownMessage)
    ensures UpLoad(PeerReceive(node, id, m).1) < DownWeight(m)
  {
  }

  lemma ReceiptKeepsCounts(s: System, i: nat)
    requires Shape(s) && CanDeliverDown(s, i)
    ensures PendingCounts(StepToPeer(s, i).nodes) == PendingCounts(s.nodes)
    ensures StepToPeer(s, i).down == s.down[i := s.down[i][1..]]
    ensures StepToPeer(s, i).up == s.up[i := StepToPeer(s, i).up[i]]
  {
    ReceiptForOwn(s, i);
  }

  lemma ReceiptNearer(s: System, i: nat)
    requires Shape(s) && CanDeliverDown(s, i)
    ensures Nearer(StepToPeer(s, i), s)
  {
    var answer := PeerReceive(s.nodes[i], i, s.down[i][0]).1;
    ReceiptKeepsCounts(s, i);
    ReceiptForOwn(s, i);
    ReceiptMoves(s, i);
    UpUpdate(s.up, i, s.up[i] + answer);
    DownUpdate(s.down, i, s.down[i][1..]);
    AnswerIsLighter(s.nodes[i], i, s.down[i][0]);
  }

  lemma SequenceNearer(s: System)
    requires Shape(s) && CanSequence(s)
    ensures Nearer(Step(s, Sequence), s)
  {
    match s.sequencer.holdQueue[0] {
      case HeldWrite(e) =>
        assert StepSequenceWrite(s, e).up == s.up;
      case HeldTransfer(r, have) =>
        TransferMoves(s, r, have, PRIMARY);
    }
  }

  lemma TestNearer(s: System)
    requires Shape(s) && s.sequencer.phase == Committed
    ensures Nearer(StepCheckpointTest(s), s)
  {
    TestLeavesWrites(s, PRIMARY);
  }

  /** Every step of the threads, of the clients' writes under way and of the channels leaves less to do. */
  lemma ProgressIsNearer(s: System, ev: Event)
    requires Shape(s) && Progress(ev) && Enabled(s, ev)
    ensures Nearer(Step(s, ev), s)
  {
    match ev {
      case Finish(i) => FinishNearer(s, i);
      case ToPrimary(i) => DeliveryNearer(s, i);
      case ToPeer(i) => ReceiptNearer(s, i);
      case Sequence => SequenceNearer(s);
      case CheckpointTest => TestNearer(s);
      case EndBarrier =>
    }
  }

  // ---- Whole runs ----

  lemma NextIsNearer(n: nat, evs: seq<Event>, ev: Event)
    requires n >= 2 && Progress(ev) && Enabled(Run(n, evs), ev)
    ensures Nearer(Run(n, evs + [ev]), Run(n, evs))
  {
    assert (evs + [ev])[..|evs + [ev]| - 1] == evs;
    ProgressIsNearer(Run(n, evs), ev);
  }

  /** The events of a schedule, which picks each from those before it. */
  function Scheduled(evs: seq<Event>, pick: seq<Event> -> Event, steps: nat): seq<Event>
    decreases steps
  {
    if steps == 0 then evs else Scheduled(evs + [pick(evs)], pick, steps - 1)
  }

  /** While the group is not at rest, the schedule picks a step that is possible, and no new write, disabling or
      restart. */
  ghost predicate NeverIdle(n: nat, pick: seq<Event> -> Event)
    requires n >= 2
  {
    forall evs :: !Quiescent(Run(n, evs)) ==> Progress(pick(evs)) && Enabled(Run(n, evs), pick(evs))
  }

  /** Under every such schedule, every run comes to rest. */
  lemma {:induction false} EveryScheduleRests(n: nat, evs: seq<Event>, pick: seq<Event> -> Event) returns (steps: nat)
    requires n >= 2 && NeverIdle(n, pick)
    ensures Quiescent(Run(n, Scheduled(evs, pick, steps)))
    decreases Unsequenced(Run(n, evs)), PhaseRank(Run(n, evs)), Load(Run(n, evs))
  {
    if Quiescent(Run(n, evs)) {
      steps := 0;
    } else {
      NextIsNearer(n, evs, pick(evs));
      steps := EveryScheduleRests(n, evs + [pick(evs)], pick);
      steps := steps + 1;
    }
  }

  predicate AllProgress(evs: seq<Event>) {
    forall k :: 0 <= k < |evs| ==> Progress(evs[k])
  }

  lemma ProgressFirst(evs: seq<Event>, ev: Event, rest: seq<Event>)
    requires Progress(ev) && AllProgress(rest)
    ensures AllProgress([ev] + rest) && evs + ([ev] + rest) == (evs + [ev]) + rest
  {
  }

  /** Every run can be carried on to rest without new writes, disablings or restarts, however many servers are
      disabled. */
  lemma {:induction false} ComesToRest(n: nat, evs: seq<Event>) returns (more: seq<Event>)
    requires n >= 2
    ensures Quiescent(Run(n, evs + more)) && AllProgress(more)
    decreases Unsequenced(Run(n, evs)), PhaseRank(Run(n, evs)), Load(Run(n, evs))
  {
    if Quiescent(Run(n, evs)) {
      more := [];
      assert evs + more == evs;
    } else {
      var ev := NeverStuck(n, evs);
      NextIsNearer(n, evs, ev);
      var rest := ComesToRest(n, evs + [ev]);
      ProgressFirst(evs, ev, rest);
      more := [ev] + rest;
    }
  }
}
