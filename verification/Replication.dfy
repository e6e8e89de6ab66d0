/** The primary-sequenced replication protocol of one group of servers, as a transition system.
    Server 1 is the primary; the others talk to it alone, over reliable first-in-first-out channels. */
module Replication {
  import opened Wrappers
  import opened KeyValue
  import opened WriteAheadLog

  const PRIMARY: nat := 1
  const LOG_LIMIT: nat := 3

  /** A write as its requestor numbers it. */
  datatype Entry = Entry(requestor: nat, seqNum: nat, cmd: Command)

  /** A write as the primary broadcasts it. */
  datatype Sequenced = Sequenced(stamp: nat, entry: Entry)

  /** An element of the primary's hold queue: a write, or a restarted replica's -TRANSFER request. */
  datatype Held = HeldWrite(entry: Entry) | HeldTransfer(requestor: nat, have: nat)

  /** Messages to the primary. */
  datatype UpMessage =
    | Request(item: Held)
    | Ack(stamp: nat, requestor: nat, seqNum: nat)
    | CheckpointAck(stamp: nat)

  /** Messages from the primary. */
  datatype DownMessage =
    | Announce(stamp: nat, requestor: nat, seqNum: nat)
    | Commit(item: Sequenced)
    | Okay(stamp: nat, requestor: nat, seqNum: nat)
    | Checkpoint(stamp: nat)
    | Transfer(cmd: Command)

  // ---- One server ----

  /** `pending` is the client write the server is busy with, `blocked` its block_flag. */
  datatype Node = Node(
    tablet: Tablet,
    log: seq<Command>,
    disabled: bool,
    pending: Option<Command>,
    blocked: bool,
    seqNum: nat,
    checkpoint: Tablet,
    version: nat)

  function Execute(node: Node, c: Command): Node {
    node.(tablet := Apply(node.tablet, c), log := node.log + [c])
  }

  function TakeCheckpoint(node: Node): Node {
    node.(checkpoint := node.tablet, version := node.version + 1)
  }

  /** A client's write is taken on: it is numbered, sent off, and the server blocks. */
  function BeginWrite(node: Node, id: nat, c: Command): (Node, Entry) {
    (node.(pending := Some(c), blocked := true), Entry(id, node.seqNum, c))
  }

  /** The write is released: it is executed, unless a replica was disabled meanwhile, and the number advances. */
  function FinishWrite(node: Node, id: nat): Node
    requires node.pending.Some?
  {
    var done := if id == PRIMARY || !node.disabled then Execute(node, node.pending.value) else node;
    done.(pending := None, seqNum := node.seqNum + 1)
  }

  /** A replica's handling of a message from the primary, with its answer. */
  function PeerReceive(node: Node, id: nat, m: DownMessage): (Node, seq<UpMessage>) {
    match m
    case Announce(_, _, _) => (node, [])
    case Okay(_, _, _) => (node.(blocked := false), [])
    case Checkpoint(stamp) => (if node.disabled then node else TakeCheckpoint(node), [CheckpointAck(stamp)])
    case Transfer(c) => (if node.disabled then node else Execute(node, c), [])
    case Commit(Sequenced(stamp, e)) =>
      (if e.requestor != id && !node.disabled then Execute(node, e.cmd) else node,
       [Ack(stamp, e.requestor, e.seqNum)])
  }

  function DisableNode(node: Node): Node {
    node.(tablet := map[], disabled := true)
  }

  function RestartNode(node: Node): Node {
    node.(tablet := ReplayAll(node.tablet, node.log), disabled := false)
  }

  // ---- The sequencer of the primary ----

  type AckTrack = map<int, map<int, int>>

  /** Where the sequencing thread stands: at the queue, about to test for a checkpoint, or in its barrier. */
  datatype Phase = Ready | Committed | Barrier

  datatype Sequencer = Sequencer(
    holdQueue: seq<Held>,
    acktrack: AckTrack,
    stamp: nat,
    sendCount: int,
    checkpointBlock: bool,
    phase: Phase)

  predicate Tracked(at: AckTrack, requestor: int, seqNum: int) {
    requestor in at && seqNum in at[requestor]
  }

  /** `std::map::insert`: an existing number is left alone. */
  function Track(at: AckTrack, requestor: int, seqNum: int, peers: int): AckTrack {
    if requestor !in at then at[requestor := map[seqNum := peers]]
    else if seqNum in at[requestor] then at
    else at[requestor := at[requestor][seqNum := peers]]
  }

  /** One acknowledgement less, forgetting the number at 0. */
  function CountDown(at: AckTrack, requestor: int, seqNum: int): AckTrack
    requires Tracked(at, requestor, seqNum)
  {
    if at[requestor][seqNum] == 1 then at[requestor := at[requestor] - {seqNum}]
    else at[requestor := at[requestor][seqNum := at[requestor][seqNum] - 1]]
  }

  /** The primary's handling of a message, with the +OK it may send to the requestor. */
  function PrimaryReceive(node: Node, q: Sequencer, m: UpMessage): (Node, Sequencer, Option<DownMessage>) {
    match m
    case Request(item) => (node, q.(holdQueue := q.holdQueue + [item]), None)
    case Ack(stamp, r, s) =>
      if !Tracked(q.acktrack, r, s) then (node, q, None)
      else
        var q1 := q.(acktrack := CountDown(q.acktrack, r, s));
        if Tracked(q1.acktrack, r, s) then (node, q1, None)
        else if r != PRIMARY then (node, q1, Some(Okay(stamp, r, s)))
        else (node.(blocked := false), q1, None)
    case CheckpointAck(_) =>
      (node,
       q.(sendCount := q.sendCount - 1, checkpointBlock := q.checkpointBlock && q.sendCount - 1 != 0),
       None)
  }

  /** The next write is popped, given a stamp, tracked and executed; the primary's own write is released instead. */
  function SequenceWrite(node: Node, q: Sequencer, e: Entry, peers: nat): (Node, Sequencer)
    requires q.holdQueue != []
  {
    (if e.requestor != PRIMARY then Execute(node, e.cmd) else node.(blocked := false),
     q.(holdQueue := q.holdQueue[1..],
        acktrack := Track(q.acktrack, e.requestor, e.seqNum, peers),
        stamp := q.stamp + 1,
        phase := Committed))
  }

  function Broadcasts(stamp: nat, e: Entry): seq<DownMessage> {
    [Announce(stamp, e.requestor, e.seqNum), Commit(Sequenced(stamp, e))]
  }

  function LogFrom(log: seq<Command>, have: nat): seq<Command> {
    log[if have <= |log| then have else |log|..]
  }

  function Transfers(cs: seq<Command>): seq<DownMessage> {
    seq(|cs|, i requires 0 <= i < |cs| => Transfer(cs[i]))
  }

  predicate CheckpointDue(node: Node) {
    |node.log| % LOG_LIMIT == 0
  }

  // ---- The group ----

  /** What a run has done so far, kept beside the state to speak about it: the order the primary gave the
      writes, how many commits each replica consumed and how many of its acknowledgements arrived, the +OKs
      sent, each server's own account of the writes it executed, which servers were never disabled, after
      how many commits each took its checkpoints, and which of the requests for one a replica met, being
      enabled. */
  datatype Trace = Trace(
    order: seq<Sequenced>,
    consumed: seq<nat>,
    acked: seq<nat>,
    okays: multiset<(nat, nat)>,
    journal: seq<seq<Entry>>,
    stayed: seq<bool>,
    cuts: seq<seq<nat>>,
    took: seq<seq<bool>>)

  datatype System = System(
    n: nat,
    nodes: seq<Node>,
    sequencer: Sequencer,
    up: seq<seq<UpMessage>>,
    down: seq<seq<DownMessage>>,
    trace: Trace)

  datatype Event =
    | Write(server: nat, cmd: Command)
    | Finish(server: nat)
    | ToPrimary(server: nat)
    | ToPeer(server: nat)
    | Sequence
    | CheckpointTest
    | EndBarrier
    | Disable(server: nat)
    | Restart(server: nat)

  function Repeat<T>(x: T, count: nat): seq<T> {
    seq(count, _ => x)
  }

  /** Every server has an empty log and an empty tablet; index 0 is unused, as in the descriptor table. */
  function Initial(n: nat): System {
    System(n,
           Repeat(Node(map[], [], false, None, false, 0, map[], 0), n + 1),
           Sequencer([], map[], 0, 0, false, Ready),
           Repeat([], n + 1),
           Repeat([], n + 1),
           Trace([], Repeat(0, n + 1), Repeat(0, n + 1), multiset{}, Repeat([], n + 1), Repeat(true, n + 1),
                 Repeat([], n + 1), Repeat([], n + 1)))
  }

  predicate Shape(s: System) {
    && s.n >= 2
    && |s.nodes| == |s.up| == |s.down| == s.n + 1
    && |s.trace.consumed| == |s.trace.acked| == s.n + 1
    && |s.trace.journal| == |s.trace.stayed| == |s.trace.cuts| == |s.trace.took| == s.n + 1
  }

  predicate IsServer(s: System, i: nat) {
    1 <= i <= s.n
  }

  predicate IsPeer(s: System, i: nat) {
    2 <= i <= s.n
  }

  /** Messages sent to every server but the primary. */
  function ToAllPeers(down: seq<seq<DownMessage>>, ms: seq<DownMessage>): seq<seq<DownMessage>> {
    seq(|down|, i requires 0 <= i < |down| => if i >= 2 then down[i] + ms else down[i])
  }

  /** The number of commits a server's tablet accounts for: the primary's is up to date with its order. */
  function Seen(s: System, i: nat): nat
    requires Shape(s) && IsServer(s, i)
  {
    if i == PRIMARY then |s.trace.order| else s.trace.consumed[i]
  }

  // ---- Steps ----

  predicate CanWrite(s: System, i: nat)
    requires Shape(s)
  {
    IsServer(s, i) && !s.nodes[i].disabled && s.nodes[i].pending.None?
  }

  function StepWrite(s: System, i: nat, c: Command): System
    requires Shape(s) && CanWrite(s, i)
  {
    var (node, e) := BeginWrite(s.nodes[i], i, c);
    var s1 := s.(nodes := s.nodes[i := node]);
    if i == PRIMARY then s1.(sequencer := s.sequencer.(holdQueue := s.sequencer.holdQueue + [HeldWrite(e)]))
    else s1.(up := s.up[i := s.up[i] + [Request(HeldWrite(e))]])
  }

  predicate CanFinish(s: System, i: nat)
    requires Shape(s)
  {
    IsServer(s, i) && s.nodes[i].pending.Some? && !s.nodes[i].blocked
  }

  function StepFinish(s: System, i: nat): System
    requires Shape(s) && CanFinish(s, i)
  {
    var e := Entry(i, s.nodes[i].seqNum, s.nodes[i].pending.value);
    var executed := i == PRIMARY || !s.nodes[i].disabled;
    s.(nodes := s.nodes[i := FinishWrite(s.nodes[i], i)],
       trace := s.trace.(journal := s.trace.journal[i := s.trace.journal[i] + (if executed then [e] else [])]))
  }

  predicate CanDeliverUp(s: System, i: nat)
    requires Shape(s)
  {
    IsPeer(s, i) && s.up[i] != []
  }

  function StepToPrimary(s: System, i: nat): System
    requires Shape(s) && CanDeliverUp(s, i)
  {
    var m := s.up[i][0];
    var (node, q, reply) := PrimaryReceive(s.nodes[PRIMARY], s.sequencer, m);
    var s1 := s.(nodes := s.nodes[PRIMARY := node],
                 sequencer := q,
                 up := s.up[i := s.up[i][1..]],
                 trace := s.trace.(acked := s.trace.acked[i := s.trace.acked[i] + (if m.Ack? then 1 else 0)]));
    if reply.Some? && IsPeer(s, m.requestor) then
      s1.(down := s.down[m.requestor := s.down[m.requestor] + [reply.value]],
          trace := s1.trace.(okays := s.trace.okays + multiset{(m.requestor, m.seqNum)}))
    else s1
  }

  predicate CanDeliverDown(s: System, i: nat)
    requires Shape(s)
  {
    IsPeer(s, i) && s.down[i] != []
  }

  function StepToPeer(s: System, i: nat): System
    requires Shape(s) && CanDeliverDown(s, i)
  {
    var m := s.down[i][0];
    var (node, answer) := PeerReceive(s.nodes[i], i, m);
    var foreign := m.Commit? && m.item.entry.requestor != i && !s.nodes[i].disabled;
    var t := s.trace;
    s.(nodes := s.nodes[i := node],
       up := s.up[i := s.up[i] + answer],
       down := s.down[i := s.down[i][1..]],
       trace := t.(consumed := t.consumed[i := t.consumed[i] + (if m.Commit? then 1 else 0)],
                   journal := t.journal[i := t.journal[i] + (if foreign then [m.item.entry] else [])],
                   cuts := t.cuts[i := t.cuts[i] +
                                       (if m.Checkpoint? && !s.nodes[i].disabled then [t.consumed[i]] else [])],
                   took := t.took[i := t.took[i] + (if m.Checkpoint? then [!s.nodes[i].disabled] else [])]))
  }

  predicate CanSequence(s: System) {
    s.sequencer.phase == Ready && s.sequencer.holdQueue != []
  }

  function StepSequenceWrite(s: System, e: Entry): System
    requires Shape(s) && CanSequence(s)
  {
    var (node, q) := SequenceWrite(s.nodes[PRIMARY], s.sequencer, e, s.n - 1);
    var own := e.requestor == PRIMARY;
    var t := s.trace;
    s.(nodes := s.nodes[PRIMARY := node],
       sequencer := q,
       down := ToAllPeers(s.down, Broadcasts(s.sequencer.stamp, e)),
       trace := t.(order := t.order + [Sequenced(s.sequencer.stamp, e)],
                   journal := t.journal[PRIMARY := t.journal[PRIMARY] + (if own then [] else [e])]))
  }

  function StepSequenceTransfer(s: System, r: nat, have: nat): System
    requires Shape(s) && CanSequence(s)
  {
    var s1 := s.(sequencer := s.sequencer.(holdQueue := s.sequencer.holdQueue[1..]));
    if IsPeer(s, r) then
      s1.(down := s.down[r := s.down[r] + Transfers(Shipped(LogFrom(s.nodes[PRIMARY].log, have)))])
    else s1
  }

  /** A checkpoint is due every LOG_LIMIT entries: the replicas are told, and the sequencer waits for them. */
  function StepCheckpointTest(s: System): System
    requires Shape(s)
  {
    if CheckpointDue(s.nodes[PRIMARY]) then
      s.(nodes := s.nodes[PRIMARY := TakeCheckpoint(s.nodes[PRIMARY])],
         sequencer := s.sequencer.(sendCount := s.n - 1, checkpointBlock := true, phase := Barrier),
         down := ToAllPeers(s.down, [Checkpoint(s.sequencer.stamp)]),
         trace := s.trace.(cuts := s.trace.cuts[PRIMARY := s.trace.cuts[PRIMARY] + [|s.trace.order|]]))
    else s.(sequencer := s.sequencer.(phase := Ready))
  }

  function StepEndBarrier(s: System): System {
    s.(sequencer := s.sequencer.(stamp := s.sequencer.stamp + 1, phase := Ready))
  }

  function StepDisable(s: System, i: nat): System
    requires Shape(s) && IsServer(s, i)
  {
    s.(nodes := s.nodes[i := DisableNode(s.nodes[i])],
       trace := s.trace.(stayed := s.trace.stayed[i := false]))
  }

  /** The -TRANSFER request follows the replay; the primary has nobody to send one to. */
  function StepRestart(s: System, i: nat): System
    requires Shape(s) && IsServer(s, i)
  {
    var s1 := s.(nodes := s.nodes[i := RestartNode(s.nodes[i])]);
    if i == PRIMARY then s1
    else s1.(up := s.up[i := s.up[i] + [Request(HeldTransfer(i, |s.nodes[i].log|))]])
  }

  predicate Enabled(s: System, ev: Event)
    requires Shape(s)
  {
    match ev
    case Write(i, _) => CanWrite(s, i)
    case Finish(i) => CanFinish(s, i)
    case ToPrimary(i) => CanDeliverUp(s, i)
    case ToPeer(i) => CanDeliverDown(s, i)
    case Sequence => CanSequence(s)
    case CheckpointTest => s.sequencer.phase == Committed
    case EndBarrier => s.sequencer.phase == Barrier && !s.sequencer.checkpointBlock
    case Disable(i) => IsServer(s, i) && !s.nodes[i].disabled
    case Restart(i) => IsServer(s, i) && s.nodes[i].disabled
  }

  /** An event that is not enabled changes nothing. */
  function Step(s: System, ev: Event): (s': System)
    requires Shape(s)
    ensures Shape(s') && s'.n == s.n
  {
    if !Enabled(s, ev) then s
    else match ev
      case Write(i, c) => StepWrite(s, i, c)
      case Finish(i) => StepFinish(s, i)
      case ToPrimary(i) => StepToPrimary(s, i)
      case ToPeer(i) => StepToPeer(s, i)
      case Sequence =>
        (match s.sequencer.holdQueue[0]
         case HeldWrite(e) => StepSequenceWrite(s, e)
         case HeldTransfer(r, have) => StepSequenceTransfer(s, r, have))
      case CheckpointTest => StepCheckpointTest(s)
      case EndBarrier => StepEndBarrier(s)
      case Disable(i) => StepDisable(s, i)
      case Restart(i) => StepRestart(s, i)
  }

  // Each event by the step it takes.

  lemma WriteIs(s: System, i: nat, c: Command)
    requires Shape(s) && CanWrite(s, i)
    ensures Step(s, Write(i, c)) == StepWrite(s, i, c)
  {
  }

  lemma FinishIs(s: System, i: nat)
    requires Shape(s) && CanFinish(s, i)
    ensures Step(s, Finish(i)) == StepFinish(s, i)
  {
  }

  lemma ToPrimaryIs(s: System, i: nat)
    requires Shape(s) && CanDeliverUp(s, i)
    ensures Step(s, ToPrimary(i)) == StepToPrimary(s, i)
  {
  }

  lemma ToPeerIs(s: System, i: nat)
    requires Shape(s) && CanDeliverDown(s, i)
    ensures Step(s, ToPeer(i)) == StepToPeer(s, i)
  {
  }

  lemma SequenceIs(s: System)
    requires Shape(s) && CanSequence(s)
    ensures var h := s.sequencer.holdQueue[0];
            Step(s, Sequence) == if h.HeldWrite? then StepSequenceWrite(s, h.entry)
                                 else StepSequenceTransfer(s, h.requestor, h.have)
  {
  }

  lemma RestartIs(s: System, i: nat)
    requires Shape(s) && IsServer(s, i) && s.nodes[i].disabled
    ensures Step(s, Restart(i)) == StepRestart(s, i)
  {
  }

  /** The state after a sequence of events. */
  function Run(n: nat, evs: seq<Event>): (s: System)
    requires n >= 2
    ensures Shape(s) && s.n == n
  {
    if evs == [] then Initial(n) else Step(Run(n, evs[..|evs| - 1]), evs[|evs| - 1])
  }

  /** Nothing is under way: no message, no queued request, no client waiting. */
  predicate Quiescent(s: System)
    requires Shape(s)
  {
    && s.sequencer.holdQueue == []
    && forall i :: 1 <= i <= s.n ==> s.up[i] == [] && s.down[i] == [] && s.nodes[i].pending.None?
  }
}
