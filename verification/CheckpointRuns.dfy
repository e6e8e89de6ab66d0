/** Runs of a group of two servers up to a checkpoint, and past one that is left out. */
module CheckpointRuns {
  import opened Sequences
  import opened Wrappers
  import opened KeyValue
  import opened WriteAheadLog
  import opened Replication
  import opened Ordering
  import opened Journals
  import opened Convergence
  import opened PairRuns

  // ---- A write of the replica's, from its request to its end ----

  /** No number of the replica's from q on is tracked. */
  ghost predicate Clear(at: AckTrack, q: nat) {
    forall k: nat :: k >= q ==> !Tracked(at, 2, k)
  }

  /** Nothing is under way. */
  predicate Calm(p: Pair) {
    && p.hold == [] && p.up == [] && p.down == [] && p.primary.pending == None && p.replica.pending == None
    && !p.primary.disabled && !p.replica.disabled
  }

  ghost predicate Ripe(p: Pair) {
    Calm(p) && p.phase == Ready && Clear(p.at, p.replica.seqNum)
  }

  function Next(p: Pair, c: Command): Entry {
    Entry(2, p.replica.seqNum, c)
  }

  function Requested(p: Pair, c: Command): Pair {
    p.(replica := p.replica.(pending := Some(c), blocked := true), up := [Request(HeldWrite(Next(p, c)))])
  }

  function Queued(p: Pair, c: Command): Pair {
    Requested(p, c).(hold := [HeldWrite(Next(p, c))], up := [])
  }

  function Announced(p: Pair, c: Command): Pair {
    var e := Next(p, c);
    Queued(p, c).(primary := Execute(p.primary, c), hold := [], at := Track(p.at, 2, e.seqNum, 1),
                  stamp := p.stamp + 1, phase := Committed, down := Broadcasts(p.stamp, e),
                  order := p.order + [Sequenced(p.stamp, e)])
  }

  function Acknowledged(p: Pair, c: Command): Pair {
    Announced(p, c).(up := [Ack(p.stamp, 2, p.replica.seqNum)], down := [])
  }

  function Counted(p: Pair, c: Command): Pair {
    var q := p.replica.seqNum;
    Announced(p, c).(at := CountDown(Track(p.at, 2, q, 1), 2, q), down := [Okay(p.stamp, 2, q)])
  }

  /** The write is executed at both ends. */
  function Done(p: Pair, c: Command): Pair {
    Counted(p, c).(replica := Execute(p.replica, c).(pending := None, blocked := false,
                                                     seqNum := p.replica.seqNum + 1), down := [])
  }

  lemma QueuesWrite(evs: seq<Event>, p: Pair, c: Command)
    requires Leads(evs, p) && Ripe(p)
    ensures Leads((evs + [Write(2, c)]) + [ToPrimary(2)], Queued(p, c))
  {
    ReplicaWrites(evs, p, c);
    LeftEmpty([Request(HeldWrite(Next(p, c)))]);
    HoldsRequest(evs + [Write(2, c)], Requested(p, c));
    LeftEmpty([HeldWrite(Next(p, c))]);
  }

  lemma CommitsWrite(evs: seq<Event>, p: Pair, c: Command)
    requires Leads(evs, Queued(p, c)) && Ripe(p)
    ensures Leads(evs + [Sequence], Announced(p, c))
  {
    SequencesHead(evs, Queued(p, c), Next(p, c));
    LeftEmpty(Broadcasts(p.stamp, Next(p, c)));
    assert AfterSequence(Queued(p, c), Next(p, c)) == Announced(p, c);
  }

  lemma SeesCommit(p: Pair, c: Command)
    requires Ripe(p)
    ensures ReceiveAll(Announced(p, c)) == Acknowledged(p, c)
  {
    ReceivesCommit(Announced(p, c), p.stamp, Next(p, c));
    LeftEmpty<UpMessage>([Ack(p.stamp, 2, p.replica.seqNum)]);
  }

  lemma CountsWrite(evs: seq<Event>, p: Pair, c: Command)
    requires Leads(evs, Acknowledged(p, c)) && Ripe(p)
    ensures Leads(evs + [ToPrimary(2)], Counted(p, c))
  {
    TrackCounts(p.at, 2, p.replica.seqNum, 1, (2, p.replica.seqNum));
    CountsAck(evs, Acknowledged(p, c));
    LeftEmpty<DownMessage>([Okay(p.stamp, 2, p.replica.seqNum)]);
    assert AfterAck(Acknowledged(p, c)) == Counted(p, c);
  }

  lemma EndsWrite(evs: seq<Event>, p: Pair, c: Command)
    requires Leads(evs, Counted(p, c)) && Ripe(p)
    ensures Leads((evs + [ToPeer(2)]) + [Finish(2)], Done(p, c))
  {
    var freed := Counted(p, c).(replica := p.replica.(pending := Some(c), blocked := false), down := []);
    Receives(evs, Counted(p, c));
    RightEmpty(Counted(p, c).up);
    assert AfterReceipt(Counted(p, c)) == freed;
    ReplicaFinishes(evs + [ToPeer(2)], freed);
  }

  lemma StaysClear(at: AckTrack, q: nat)
    requires Clear(at, q)
    ensures Clear(CountDown(Track(at, 2, q, 1), 2, q), q + 1)
  {
    forall k: nat | k >= q + 1 ensures !Tracked(CountDown(Track(at, 2, q, 1), 2, q), 2, k) {
      TrackCounts(at, 2, q, 1, (2, k));
      CountDownCounts(Track(at, 2, q, 1), 2, q, (2, k));
    }
  }

  /** A write of the replica's, up to the test that follows it. */
  lemma Completes(evs: seq<Event>, p: Pair, c: Command) returns (evs': seq<Event>)
    requires Leads(evs, p) && Ripe(p)
    ensures Leads(evs', Done(p, c)) && Calm(Done(p, c)) && Clear(Done(p, c).at, Done(p, c).replica.seqNum)
  {
    QueuesWrite(evs, p, c);
    var held := (evs + [Write(2, c)]) + [ToPrimary(2)];
    CommitsWrite(held, p, c);
    var more := ReceivesOn(held + [Sequence], Announced(p, c));
    SeesCommit(p, c);
    CountsWrite((held + [Sequence]) + more, p, c);
    EndsWrite(((held + [Sequence]) + more) + [ToPrimary(2)], p, c);
    evs' := ((((held + [Sequence]) + more) + [ToPrimary(2)]) + [ToPeer(2)]) + [Finish(2)];
    StaysClear(p.at, p.replica.seqNum);
  }

  /** No checkpoint is taken while the log does not hold a multiple of three entries. */
  lemma TestSkips(evs: seq<Event>, p: Pair)
    requires Leads(evs, p) && p.phase == Committed && |p.primary.log| % 3 != 0
    ensures Leads(evs + [CheckpointTest], p.(phase := Ready))
  {
    SkipsCheckpoint(evs, p);
  }

  /** Both ends have executed the commands, and taken no checkpoint. */
  predicate Twins(p: Pair, cs: seq<Command>) {
    && p.primary.log == p.replica.log == cs && p.primary.tablet == p.replica.tablet == ApplyAll(map[], cs)
    && p.primary.version == p.replica.version == 0
  }

  lemma TwinsGrow(p: Pair, cs: seq<Command>, c: Command)
    requires Ripe(p) && Twins(p, cs)
    ensures Twins(Done(p, c), cs + [c])
  {
    ReplayStep(map[], cs, c);
  }

  lemma Writes(evs: seq<Event>, p: Pair, cs: seq<Command>, c: Command) returns (evs': seq<Event>, p': Pair)
    requires Leads(evs, p) && Ripe(p) && Twins(p, cs)
    ensures Leads(evs', p') && Twins(p', cs + [c]) && Calm(p') && Clear(p'.at, p'.replica.seqNum)
    ensures p'.phase == Committed && p'.primary.seqNum == p.primary.seqNum && (1 in p'.at <==> 1 in p.at)
  {
    evs' := Completes(evs, p, c);
    p' := Done(p, c);
    TwinsGrow(p, cs, c);
  }

  lemma Passes(evs: seq<Event>, p: Pair, cs: seq<Command>, c: Command) returns (evs': seq<Event>, p': Pair)
    requires Leads(evs, p) && Ripe(p) && Twins(p, cs) && |cs + [c]| % 3 != 0
    ensures Leads(evs', p') && Ripe(p') && Twins(p', cs + [c])
    ensures p'.primary.seqNum == p.primary.seqNum && (1 in p'.at <==> 1 in p.at)
  {
    evs', p' := Writes(evs, p, cs, c);
    TestSkips(evs', p');
    evs', p' := evs' + [CheckpointTest], p'.(phase := Ready);
  }

  // ---- The checkpoint ----

  /** The node has taken a checkpoint of its tablet. */
  predicate Took(before: Node, after: Node) {
    after == before.(checkpoint := before.tablet, version := before.version + 1)
  }

  lemma RoundStarts(s: System)
    requires Shape(s) && s.n == 2 && s.sequencer.phase == Committed && |s.nodes[1].log| % 3 == 0 && s.down[2] == []
    ensures var s' := Step(s, CheckpointTest);
            && Took(s.nodes[1], s'.nodes[1]) && s'.nodes[2] == s.nodes[2] && s'.up == s.up
            && s'.down[1] == s.down[1] && s'.down[2] == [Checkpoint(s.sequencer.stamp)]
            && s'.sequencer == s.sequencer.(sendCount := 1, checkpointBlock := true, phase := Barrier)
  {
    LeftEmpty([Checkpoint(s.sequencer.stamp)]);
  }

  lemma RoundArrives(s: System, stamp: nat)
    requires Shape(s) && s.n == 2 && s.down[2] == [Checkpoint(stamp)] && s.up[2] == [] && !s.nodes[2].disabled
    ensures var s' := Step(s, ToPeer(2));
            && s'.nodes[1] == s.nodes[1] && Took(s.nodes[2], s'.nodes[2]) && s'.sequencer == s.sequencer
            && s'.up[1] == s.up[1] && s'.up[2] == [CheckpointAck(stamp)]
            && s'.down[1] == s.down[1] && s'.down[2] == []
  {
    LeftEmpty([CheckpointAck(stamp)]);
  }

  lemma RoundReturns(s: System, stamp: nat)
    requires Shape(s) && s.n == 2 && s.up[2] == [CheckpointAck(stamp)] && s.sequencer.sendCount == 1
    ensures var s' := Step(s, ToPrimary(2));
            && s'.nodes == s.nodes && s'.down == s.down && s'.up[1] == s.up[1] && s'.up[2] == []
            && s'.sequencer == s.sequencer.(sendCount := 0, checkpointBlock := false)
  {
    assert s.nodes[1 := s.nodes[1]] == s.nodes;
  }

  lemma RoundEnds(s: System)
    requires Shape(s) && s.sequencer.phase == Barrier && !s.sequencer.checkpointBlock
    ensures Step(s, EndBarrier) == s.(sequencer := s.sequencer.(stamp := s.sequencer.stamp + 1, phase := Ready))
  {
  }

  lemma Stepped(evs: seq<Event>, ev: Event)
    ensures Run(2, evs + [ev]) == Step(Run(2, evs), ev)
  {
    FrontOfNext(evs, ev);
  }

  /** Both ends have taken a checkpoint, and the replica's answer is on its way. */
  predicate Answering(s: System, primary: Node, replica: Node, stamp: nat) {
    && Shape(s) && s.n == 2 && Took(primary, s.nodes[1]) && Took(replica, s.nodes[2])
    && s.sequencer.holdQueue == [] && s.sequencer.sendCount == 1 && s.sequencer.phase == Barrier
    && s.up[1] == [] && s.up[2] == [CheckpointAck(stamp)] && s.down[1] == [] && s.down[2] == []
  }

  lemma Answers(evs: seq<Event>, p: Pair) returns (evs': seq<Event>)
    requires Leads(evs, p) && Calm(p) && p.phase == Committed && |p.primary.log| % 3 == 0
    ensures Answering(Run(2, evs'), p.primary, p.replica, p.stamp)
  {
    Stepped(evs, CheckpointTest);
    RoundStarts(Run(2, evs));
    Stepped(evs + [CheckpointTest], ToPeer(2));
    RoundArrives(Run(2, evs + [CheckpointTest]), p.stamp);
    evs' := evs + [CheckpointTest] + [ToPeer(2)];
  }

  /** The answer has been counted. */
  predicate Freed(s: System, primary: Node, replica: Node) {
    && Shape(s) && s.n == 2 && s.nodes[1] == primary && s.nodes[2] == replica
    && s.sequencer.holdQueue == [] && !s.sequencer.checkpointBlock && s.sequencer.phase == Barrier
    && s.up[1] == [] && s.up[2] == [] && s.down[1] == [] && s.down[2] == []
  }

  lemma AnswerIsCounted(evs: seq<Event>, primary: Node, replica: Node, stamp: nat)
    requires Answering(Run(2, evs), primary, replica, stamp)
    ensures Freed(Run(2, evs + [ToPrimary(2)]), Run(2, evs).nodes[1], Run(2, evs).nodes[2])
  {
    Stepped(evs, ToPrimary(2));
    RoundReturns(Run(2, evs), stamp);
  }

  lemma EmptyIsQuiet(s: System)
    requires Shape(s) && s.n == 2 && s.sequencer.holdQueue == []
    requires s.up[1] == [] && s.up[2] == [] && s.down[1] == [] && s.down[2] == []
    requires s.nodes[1].pending == None && s.nodes[2].pending == None
    ensures Quiescent(s)
  {
  }

  lemma RestsAfter(s: System, s': System, primary: Node, replica: Node)
    requires Freed(s, primary, replica) && primary.pending == None && replica.pending == None
    requires s' == s.(sequencer := s.sequencer.(stamp := s.sequencer.stamp + 1, phase := Ready))
    ensures s'.n == 2 && Shape(s') && Quiescent(s') && s'.nodes[1] == primary && s'.nodes[2] == replica
  {
    EmptyIsQuiet(s');
  }

  lemma BarrierIsLeft(evs: seq<Event>, primary: Node, replica: Node)
    requires Freed(Run(2, evs), primary, replica) && primary.pending == None && replica.pending == None
    ensures var s := Run(2, evs + [EndBarrier]);
            s.n == 2 && Quiescent(s) && s.nodes[1] == primary && s.nodes[2] == replica
  {
    var s := Run(2, evs);
    Stepped(evs, EndBarrier);
    RoundEnds(s);
    RestsAfter(s, Step(s, EndBarrier), primary, replica);
  }

  lemma Released(evs: seq<Event>, primary: Node, replica: Node, stamp: nat) returns (evs': seq<Event>)
    requires Answering(Run(2, evs), primary, replica, stamp) && primary.pending == None && replica.pending == None
    ensures var s := Run(2, evs'); s.n == 2 && Quiescent(s) && Took(primary, s.nodes[1]) && Took(replica, s.nodes[2])
  {
    AnswerIsCounted(evs, primary, replica, stamp);
    BarrierIsLeft(evs + [ToPrimary(2)], Run(2, evs).nodes[1], Run(2, evs).nodes[2]);
    evs' := evs + [ToPrimary(2)] + [EndBarrier];
  }

  /** With nothing else under way, both ends take a checkpoint of what they hold, and come to rest. */
  lemma TakesRound(evs: seq<Event>, p: Pair) returns (evs': seq<Event>)
    requires Leads(evs, p) && Calm(p) && p.phase == Committed && |p.primary.log| % 3 == 0
    ensures var s := Run(2, evs');
            s.n == 2 && Quiescent(s) && Took(p.primary, s.nodes[1]) && Took(p.replica, s.nodes[2])
  {
    evs' := Answers(evs, p);
    evs' := Released(evs', p.primary, p.replica, p.stamp);
  }

  lemma FreshIsRipe()
    ensures Leads([], Fresh()) && Ripe(Fresh()) && Twins(Fresh(), [])
  {
    Starts();
  }

  lemma UserKept(t: Tablet, c: Command, u: string)
    requires u in t && !c.DeleteUser?
    ensures u in Apply(t, c)
  {
  }

  lemma UserStays(cs: seq<Command>, c: Command, u: string)
    requires u in ApplyAll(map[], cs) && !c.DeleteUser?
    ensures u in ApplyAll(map[], cs + [c])
  {
    ReplayStep(map[], cs, c);
    UserKept(ApplyAll(map[], cs), c, u);
  }

  lemma UserAppears(a: Command)
    requires a.AddUser?
    ensures a.user in ApplyAll(map[], [a])
  {
    ReplayStep(map[], [], a);
    LeftEmpty([a]);
  }

  lemma FirstUserStays(a: Command, b: Command, c: Command)
    requires a.AddUser? && !b.DeleteUser? && !c.DeleteUser?
    ensures a.user in ApplyAll(map[], [a, b, c])
  {
    UserAppears(a);
    UserStays([a], b, a.user);
    OneAndOne(a, b);
    UserStays([a, b], c, a.user);
    TwoAndOne(a, b, c);
  }

  lemma TwoWrites(a: Command, b: Command) returns (evs: seq<Event>, p: Pair)
    ensures Leads(evs, p) && Ripe(p) && Twins(p, [a, b]) && 1 !in p.at
  {
    FreshIsRipe();
    LeftEmpty([a]);
    evs, p := Passes([], Fresh(), [], a);
    OneAndOne(a, b);
    evs, p := Passes(evs, p, [a], b);
  }

  /** In a group of two, three writes of the replica's, whatever they are, are followed by a checkpoint: at rest both
      servers have version 1 and hold the tablet that the three give, with the user the first one adds. */
  lemma ThirdIsCheckpointed(a: Command, b: Command, c: Command) returns (evs: seq<Event>)
    ensures var s := Run(2, evs);
            && s.n == 2 && Quiescent(s) && s.nodes[1].version == s.nodes[2].version == 1
            && s.nodes[1].checkpoint == s.nodes[2].checkpoint == ApplyAll(map[], [a, b, c])
            && (a.AddUser? && !b.DeleteUser? && !c.DeleteUser? ==> a.user in s.nodes[1].checkpoint)
  {
    var p: Pair;
    evs, p := TwoWrites(a, b);
    evs, p := Writes(evs, p, [a, b], c);
    TwoAndOne(a, b, c);
    evs := TakesRound(evs, p);
    if a.AddUser? && !b.DeleteUser? && !c.DeleteUser? { FirstUserStays(a, b, c); }
  }

  // ---- A checkpoint that is left out ----

  function Own(p: Pair, w: Command): Entry {
    Entry(1, p.primary.seqNum, w)
  }

  function OwnHeld(p: Pair, w: Command): Pair {
    p.(primary := p.primary.(pending := Some(w), blocked := true), hold := [HeldWrite(Own(p, w))])
  }

  function OwnSent(p: Pair, w: Command): Pair {
    p.(primary := p.primary.(pending := Some(w), blocked := false), at := Track(p.at, 1, p.primary.seqNum, 1),
       stamp := p.stamp + 1, phase := Committed, down := Broadcasts(p.stamp, Own(p, w)),
       order := p.order + [Sequenced(p.stamp, Own(p, w))])
  }

  function OwnExecuted(p: Pair, w: Command): Pair {
    OwnSent(p, w).(primary := Execute(p.primary, w).(pending := None, blocked := false, seqNum := p.primary.seqNum + 1),
                   phase := Ready)
  }

  function OwnSeen(p: Pair, w: Command): Pair {
    OwnExecuted(p, w).(replica := Execute(p.replica, w), up := [Ack(p.stamp, 1, p.primary.seqNum)], down := [])
  }

  function OwnEnded(p: Pair, w: Command): Pair {
    OwnSeen(p, w).(at := CountDown(Track(p.at, 1, p.primary.seqNum, 1), 1, p.primary.seqNum), up := [])
  }

  lemma HoldsOwn(evs: seq<Event>, p: Pair, w: Command)
    requires Leads(evs, p) && Ripe(p)
    ensures Leads(evs + [Write(1, w)], OwnHeld(p, w))
  {
    PrimaryWrites(evs, p, w);
    LeftEmpty([HeldWrite(Own(p, w))]);
  }

  lemma SendsOwn(evs: seq<Event>, p: Pair, w: Command)
    requires Leads(evs, OwnHeld(p, w)) && Ripe(p)
    ensures Leads(evs + [Sequence], OwnSent(p, w))
  {
    SequencesHead(evs, OwnHeld(p, w), Own(p, w));
    LeftEmpty(Broadcasts(p.stamp, Own(p, w)));
    assert AfterSequence(OwnHeld(p, w), Own(p, w)) == OwnSent(p, w);
  }

  /** The test comes while the primary has yet to execute its write. */
  lemma ExecutesOwn(evs: seq<Event>, p: Pair, w: Command)
    requires Leads(evs, OwnSent(p, w)) && Ripe(p) && |p.primary.log| % 3 != 0
    ensures Leads((evs + [CheckpointTest]) + [Finish(1)], OwnExecuted(p, w))
  {
    TestSkips(evs, OwnSent(p, w));
    PrimaryFinishes(evs + [CheckpointTest], OwnSent(p, w).(phase := Ready));
  }

  lemma ReplicaSeesOwn(p: Pair, w: Command)
    requires Ripe(p)
    ensures ReceiveAll(OwnExecuted(p, w)) == OwnSeen(p, w)
  {
    ReceivesCommit(OwnExecuted(p, w), p.stamp, Own(p, w));
    LeftEmpty<UpMessage>([Ack(p.stamp, 1, p.primary.seqNum)]);
  }

  lemma CountsOwn(evs: seq<Event>, p: Pair, w: Command)
    requires Leads(evs, OwnSeen(p, w)) && Ripe(p) && 1 !in p.at
    ensures Leads(evs + [ToPrimary(2)], OwnEnded(p, w))
  {
    CountsAck(evs, OwnSeen(p, w));
    assert AfterAck(OwnSeen(p, w)) == OwnEnded(p, w);
  }

  lemma OwnStaysClear(at: AckTrack, q: nat, own: nat)
    requires Clear(at, q) && 1 !in at
    ensures Clear(CountDown(Track(at, 1, own, 1), 1, own), q)
  {
    forall k: nat | k >= q ensures !Tracked(CountDown(Track(at, 1, own, 1), 1, own), 2, k) {
      TrackCounts(at, 1, own, 1, (2, k));
      CountDownCounts(Track(at, 1, own, 1), 1, own, (2, k));
    }
  }

  /** The primary's own write is sequenced and committed, and executed after the test. */
  lemma OwnWritePasses(evs: seq<Event>, p: Pair, cs: seq<Command>, w: Command) returns (evs': seq<Event>, p': Pair)
    requires Leads(evs, p) && Ripe(p) && Twins(p, cs) && |cs| % 3 != 0 && 1 !in p.at
    ensures Leads(evs', p') && Ripe(p') && Twins(p', cs + [w])
  {
    HoldsOwn(evs, p, w);
    SendsOwn(evs + [Write(1, w)], p, w);
    ExecutesOwn(evs + [Write(1, w)] + [Sequence], p, w);
    evs' := evs + [Write(1, w)] + [Sequence] + [CheckpointTest] + [Finish(1)];
    evs' := ReceivesAll(evs', OwnExecuted(p, w));
    ReplicaSeesOwn(p, w);
    CountsOwn(evs', p, w);
    evs', p' := evs' + [ToPrimary(2)], OwnEnded(p, w);
    OwnStaysClear(p.at, p.replica.seqNum, p.primary.seqNum);
    ReplayStep(map[], cs, w);
  }

  lemma OwnThird(a: Command, b: Command, w: Command) returns (evs: seq<Event>, p: Pair)
    ensures Leads(evs, p) && Ripe(p) && Twins(p, [a, b, w])
  {
    evs, p := TwoWrites(a, b);
    TwoAndOne(a, b, w);
    evs, p := OwnWritePasses(evs, p, [a, b], w);
  }

  /** A write of the primary's own is not yet in its log when the test that follows it comes, and may be the third by
      the time of the next: at rest both servers have executed four writes, and there is no checkpoint. */
  lemma OwnWriteSkipsCheckpoint(a: Command, b: Command, w: Command, c: Command) returns (evs: seq<Event>)
    ensures var s := Run(2, evs);
            && s.n == 2 && Quiescent(s) && |s.trace.order| == 4
            && s.nodes[1].log == s.nodes[2].log == [a, b, w, c] && s.nodes[1].version == s.nodes[2].version == 0
  {
    var p: Pair;
    evs, p := OwnThird(a, b, w);
    assert [a, b, w] + [c] == [a, b, w, c];
    evs, p := Passes(evs, p, [a, b, w], c);
    AtRest(Run(2, evs), p);
    AllLogged(evs);
  }

  lemma AllLogged(evs: seq<Event>)
    requires Quiescent(Run(2, evs))
    ensures |Run(2, evs).trace.order| == |Run(2, evs).nodes[1].log|
  {
    ExactlyOnce(2, evs, 1);
    CommitPathIsPrefix(2, evs, 1);
    var s := Run(2, evs);
    assert |multiset(s.trace.journal[1])| == |s.trace.journal[1]|;
    assert |multiset(Entries(s.trace.order))| == |s.trace.order|;
  }
}
