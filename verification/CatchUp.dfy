/** A replica that was disabled catches up: it replays its own log, asks for what it missed, and executes what
    the primary sends, followed by the commits sequenced since. */
module CatchUp {
  import opened Sequences
  import opened KeyValue
  import opened WriteAheadLog
  import opened Replication
  import opened Channels
  import opened Ordering
  import opened Barrier
  import opened OwnWrites
  import opened Journals

  // ---- What is under way ----

  /** The log lengths a server's transfer requests name. */
  function AskedIn(q: seq<Held>, r: nat): seq<nat> {
    if q == [] then []
    else AskedIn(q[..|q| - 1], r) +
         (if q[|q| - 1].HeldTransfer? && q[|q| - 1].requestor == r then [q[|q| - 1].have] else [])
  }

  function Asked(s: System, r: nat): seq<nat>
    requires Shape(s) && IsServer(s, r)
  {
    AskedIn(s.sequencer.holdQueue, r) + AskedIn(HeldIn(s.up[r]), r)
  }

  /** The command an enabled replica executes on a message. */
  function PayloadOf(m: DownMessage, id: nat): seq<Command> {
    match m
    case Transfer(c) => [c]
    case Commit(item) => if item.entry.requestor != id then [item.entry.cmd] else []
    case _ => []
  }

  function Payloads(q: seq<DownMessage>, id: nat): seq<Command> {
    if q == [] then [] else Payloads(q[..|q| - 1], id) + PayloadOf(q[|q| - 1], id)
  }

  lemma {:induction false} AskedConcat(a: seq<Held>, b: seq<Held>, r: nat)
    ensures AskedIn(a + b, r) == AskedIn(a, r) + AskedIn(b, r)
  {
    if b == [] {
      assert a + b == a;
    } else {
      var h := b[|b| - 1];
      AskedConcat(a, b[..|b| - 1], r);
      Front(a, b);
      Reassociate(AskedIn(a, r), AskedIn(b[..|b| - 1], r),
                  if h.HeldTransfer? && h.requestor == r then [h.have] else []);
    }
  }

  lemma {:induction false} PayloadsConcat(a: seq<DownMessage>, b: seq<DownMessage>, id: nat)
    ensures Payloads(a + b, id) == Payloads(a, id) + Payloads(b, id)
  {
    if b == [] {
      assert a + b == a;
    } else {
      PayloadsConcat(a, b[..|b| - 1], id);
      Front(a, b);
      Reassociate(Payloads(a, id), Payloads(b[..|b| - 1], id), PayloadOf(b[|b| - 1], id));
    }
  }

  lemma AskedOne(h: Held, r: nat)
    ensures AskedIn([h], r) == if h.HeldTransfer? && h.requestor == r then [h.have] else []
  {
    assert [h][..0] == [];
  }

  lemma PayloadsOne(m: DownMessage, id: nat)
    ensures Payloads([m], id) == PayloadOf(m, id)
  {
    assert [m][..0] == [];
  }

  lemma AskedHead(q: seq<Held>, r: nat)
    requires q != []
    ensures AskedIn(q, r) ==
            (if q[0].HeldTransfer? && q[0].requestor == r then [q[0].have] else []) + AskedIn(q[1..], r)
  {
    AskedConcat([q[0]], q[1..], r);
    AskedOne(q[0], r);
    assert [q[0]] + q[1..] == q;
  }

  lemma PayloadsHead(q: seq<DownMessage>, id: nat)
    requires q != []
    ensures Payloads(q, id) == PayloadOf(q[0], id) + Payloads(q[1..], id)
  {
    PayloadsConcat([q[0]], q[1..], id);
    PayloadsOne(q[0], id);
    assert [q[0]] + q[1..] == q;
  }

  lemma {:induction false} TransferPayloads(cs: seq<Command>, id: nat)
    ensures Payloads(Transfers(cs), id) == cs
  {
    if cs != [] {
      TransferPayloads(cs[..|cs| - 1], id);
      assert Transfers(cs)[..|cs| - 1] == Transfers(cs[..|cs| - 1]);
      assert cs == cs[..|cs| - 1] + [cs[|cs| - 1]];
    }
  }

  lemma BroadcastPayloads(stamp: nat, e: Entry, id: nat)
    ensures Payloads(Broadcasts(stamp, e), id) == if e.requestor != id then [e.cmd] else []
  {
    var a, b := Announce(stamp, e.requestor, e.seqNum), Commit(Sequenced(stamp, e));
    PayloadsConcat([a], [b], id);
    PayloadsOne(a, id);
    PayloadsOne(b, id);
    assert [a] + [b] == Broadcasts(stamp, e);
  }

  // ---- The window between restart and the end of the transfer ----

  /** No write of the server is under way. */
  predicate Idle(s: System, r: nat)
    requires Shape(s) && IsServer(s, r)
  {
    s.nodes[r].pending.None? && Pipe(s.sequencer.holdQueue, s.up[r], r) == []
  }

  /** A disabled replica holds a prefix of the primary's log. */
  predicate Behind(s: System, i: nat)
    requires Shape(s) && IsPeer(s, i)
  {
    && s.nodes[i].disabled && Idle(s, PRIMARY) && Idle(s, i)
    && s.nodes[i].log <= s.nodes[PRIMARY].log && Asked(s, i) == []
  }

  /** Neither end takes on a write, and the replica is not disabled again. */
  predicate Calm(s: System, ev: Event, i: nat)
    requires Shape(s) && IsPeer(s, i)
  {
    match ev
    case Write(j, _) => j != PRIMARY && j != i
    case Disable(j) => j != i
    case _ => true
  }

  /** The state after more events. */
  function Continue(s: System, evs: seq<Event>): (s': System)
    requires Shape(s)
    ensures Shape(s') && s'.n == s.n
  {
    if evs == [] then s else Step(Continue(s, evs[..|evs| - 1]), evs[|evs| - 1])
  }

  predicate CalmRun(s: System, evs: seq<Event>, i: nat)
    requires Shape(s) && IsPeer(s, i)
  {
    evs == [] ||
    (CalmRun(s, evs[..|evs| - 1], i) && Calm(Continue(s, evs[..|evs| - 1]), evs[|evs| - 1], i))
  }

  /** What the answer to a transfer request finds: the replica's log at its restart, what it was and will be sent as
      commits until the answer, and the primary's log. */
  datatype Gap = Gap(mine: seq<Command>, flight: seq<Command>, theirs: seq<Command>)

  type Start = g: Gap | g.mine <= g.theirs witness Gap([], [], [])

  function Missing(g: Start): seq<Command> {
    g.theirs[|g.mine|..]
  }

  /** The gap after the primary has logged more while the request waits: it is committed to the replica as well. */
  function More(g: Start, cs: seq<Command>): Start {
    assert g.mine <= g.theirs + cs;
    Gap(g.mine, g.flight + cs, g.theirs + cs)
  }

  /** What an event has the primary log while the replica's request waits. */
  function NewIn(s: System, ev: Event, i: nat): seq<Command>
    requires Shape(s) && IsPeer(s, i)
  {
    if Asked(s, i) != [] then PrimaryExecutes(s, ev) else []
  }

  /** What the primary logs until the replica's request is answered. */
  function Window(s: System, evs: seq<Event>, i: nat): seq<Command>
    requires Shape(s) && IsPeer(s, i)
  {
    if evs == [] then []
    else Window(s, evs[..|evs| - 1], i) + NewIn(Continue(s, evs[..|evs| - 1]), evs[|evs| - 1], i)
  }

  lemma MoreNothing(g: Start)
    ensures More(g, []) == g
  {
    RightEmpty(g.flight);
    RightEmpty(g.theirs);
  }

  lemma MoreTwice(g: Start, a: seq<Command>, b: seq<Command>)
    ensures More(More(g, a), b) == More(g, a + b)
  {
    Reassociate(g.flight, a, b);
    Reassociate(g.theirs, a, b);
  }

  /** Until the answer, what the replica has executed and what is on its way to it are its old log and the commits; from
      then on, they are also the entries sent, and everything the primary has logged since. */
  predicate Progresses(log: seq<Command>, coming: seq<Command>, primary: seq<Command>, asked: seq<nat>, g: Start) {
    if asked != [] then asked == [|g.mine|] && primary == g.theirs && log + coming == g.mine + g.flight
    else
      && g.theirs <= primary
      && log + coming == ((g.mine + g.flight) + Shipped(Missing(g))) + primary[|g.theirs|..]
  }

  ghost predicate CatchingUp(s: System, i: nat, g: Start)
    requires Shape(s) && IsPeer(s, i)
  {
    && !s.nodes[i].disabled && Idle(s, PRIMARY) && Idle(s, i)
    && Progresses(s.nodes[i].log, Payloads(s.down[i], i), s.nodes[PRIMARY].log, Asked(s, i), g)
  }

  // ---- Steps ----

  lemma Untouched(s: System, s': System, i: nat, g: Start)
    requires Shape(s) && Shape(s') && s'.n == s.n && IsPeer(s, i) && CatchingUp(s, i, g)
    requires s'.nodes[PRIMARY].log == s.nodes[PRIMARY].log && s'.nodes[PRIMARY].pending == s.nodes[PRIMARY].pending
    requires s'.nodes[i].log == s.nodes[i].log && s'.nodes[i].pending == s.nodes[i].pending
    requires s'.nodes[i].disabled == s.nodes[i].disabled
    requires Pipe(s'.sequencer.holdQueue, s'.up[PRIMARY], PRIMARY) ==
             Pipe(s.sequencer.holdQueue, s.up[PRIMARY], PRIMARY)
    requires Pipe(s'.sequencer.holdQueue, s'.up[i], i) == Pipe(s.sequencer.holdQueue, s.up[i], i)
    requires Asked(s', i) == Asked(s, i) && Payloads(s'.down[i], i) == Payloads(s.down[i], i)
    ensures CatchingUp(s', i, g)
  {
  }

  lemma ArrivalKeepsAsked(hold: seq<Held>, up: seq<UpMessage>, r: nat)
    requires up != [] && up[0].Request?
    ensures AskedIn(hold + [up[0].item], r) + AskedIn(HeldIn(up[1..]), r) == AskedIn(hold, r) + AskedIn(HeldIn(up), r)
  {
    var h, rest := up[0].item, HeldIn(up[1..]);
    HeldInHead(up);
    AskedConcat(hold, [h], r);
    AskedConcat([h], rest, r);
    Reassociate(AskedIn(hold, r), AskedIn([h], r), AskedIn(rest, r));
  }

  lemma ArrivalAsksForOthers(hold: seq<Held>, h: Held, r: nat)
    requires RequestorOf(h) != r
    ensures AskedIn(hold + [h], r) == AskedIn(hold, r)
  {
    AskedConcat(hold, [h], r);
    AskedOne(h, r);
  }

  lemma SenderIsRequestor(s: System, j: nat)
    requires Shape(s) && PipeInv(s) && CanDeliverUp(s, j) && s.up[j][0].Request?
    ensures RequestorOf(s.up[j][0].item) == j
  {
    PipeToPrimary(s, j, j);
  }

  lemma DeliveryKeepsAsked(s: System, j: nat, i: nat)
    requires Shape(s) && CanDeliverUp(s, j) && IsPeer(s, i)
    requires s.up[j][0].Request? ==> RequestorOf(s.up[j][0].item) == j
    ensures Asked(StepToPrimary(s, j), i) == Asked(s, i)
  {
    var m, hold := s.up[j][0], s.sequencer.holdQueue;
    DeliveryMoves(s, j);
    if m.Request? {
      if j == i { ArrivalKeepsAsked(hold, s.up[i], i); } else { ArrivalAsksForOthers(hold, m.item, i); }
    } else {
      UpHead(s.up[j]);
      UpOne(m);
      assert hold + [] == hold && HeldIn(s.up[j][1..]) == HeldIn(s.up[j]);
    }
  }

  lemma OkayPayloads(q: seq<DownMessage>, more: seq<DownMessage>, id: nat)
    requires |more| <= 1 && forall x :: 0 <= x < |more| ==> more[x].Okay?
    ensures Payloads(q + more, id) == Payloads(q, id)
  {
    if more == [] {
      assert q + more == q;
    } else {
      assert more == [more[0]];
      PayloadsConcat(q, more, id);
      PayloadsOne(more[0], id);
    }
  }

  lemma DeliveryKeepsPayloads(s: System, j: nat, i: nat)
    requires Shape(s) && CanDeliverUp(s, j) && IsPeer(s, i)
    ensures Payloads(StepToPrimary(s, j).down[i], i) == Payloads(s.down[i], i)
  {
    var more, r := DeliveryEffect(s, j);
    OkayPayloads(s.down[i], more, i);
  }

  lemma DeliveryKeepsPipes(s: System, j: nat, r: nat)
    requires Shape(s) && PipeInv(s) && CanDeliverUp(s, j) && IsServer(s, r)
    ensures var s' := StepToPrimary(s, j);
            Pipe(s'.sequencer.holdQueue, s'.up[r], r) == Pipe(s.sequencer.holdQueue, s.up[r], r)
  {
    if s.up[j][0].Ack? { AckLeavesWrites(s, j, r); } else { RequestLeavesWrites(s, j, r); }
  }

  lemma CatchToPrimary(s: System, j: nat, i: nat, g: Start)
    requires Shape(s) && PipeInv(s) && CanDeliverUp(s, j)
    requires IsPeer(s, i) && CatchingUp(s, i, g)
    ensures CatchingUp(StepToPrimary(s, j), i, g)
  {
    DeliveryKeeps(s, j, i);
    DeliveryKeeps(s, j, PRIMARY);
    DeliveryKeepsPipes(s, j, i);
    DeliveryKeepsPipes(s, j, PRIMARY);
    if s.up[j][0].Request? { SenderIsRequestor(s, j); }
    DeliveryKeepsAsked(s, j, i);
    DeliveryKeepsPayloads(s, j, i);
    DeliveryKeepsPending(s, j, i);
    DeliveryKeepsPending(s, j, PRIMARY);
    Untouched(s, StepToPrimary(s, j), i, g);
  }

  /** An enabled replica appends to its log exactly the command it was sent. */
  lemma ReceiptExecutes(node: Node, id: nat, m: DownMessage)
    requires !node.disabled
    ensures var node' := PeerReceive(node, id, m).0;
            && node'.log == node.log + PayloadOf(m, id) && !node'.disabled && node'.pending == node.pending
  {
  }

  lemma CatchToPeer(s: System, i: nat, g: Start)
    requires Shape(s) && CanDeliverDown(s, i)
    requires IsPeer(s, i) && CatchingUp(s, i, g)
    ensures CatchingUp(StepToPeer(s, i), i, g)
  {
    var s', m := StepToPeer(s, i), s.down[i][0];
    ReceiptForOwn(s, i);
    ReceiptMoves(s, i);
    ReceiptExecutes(s.nodes[i], i, m);
    PayloadsHead(s.down[i], i);
    Reassociate(s.nodes[i].log, PayloadOf(m, i), Payloads(s'.down[i], i));
    assert s'.nodes[PRIMARY] == s.nodes[PRIMARY] && s'.up[PRIMARY] == s.up[PRIMARY];
  }

  /** A write of a third server is logged by the primary and sent to the replica. */
  lemma ProgressSequenced(log: seq<Command>, coming: seq<Command>, primary: seq<Command>,
                          g: Start, c: Command)
    requires Progresses(log, coming, primary, [], g)
    ensures Progresses(log, coming + [c], primary + [c], [], g)
  {
    assert (primary + [c])[|g.theirs|..] == primary[|g.theirs|..] + [c];
    Reassociate(log, coming, [c]);
    Reassociate((g.mine + g.flight) + Shipped(Missing(g)), primary[|g.theirs|..], [c]);
  }

  lemma IdleHead(s: System, r: nat)
    requires Shape(s) && CanSequence(s) && IsServer(s, r) && Pipe(s.sequencer.holdQueue, s.up[r], r) == []
    ensures Pipe(s.sequencer.holdQueue[1..], s.up[r], r) == []
    ensures s.sequencer.holdQueue[0].HeldWrite? ==> s.sequencer.holdQueue[0].entry.requestor != r
  {
    HeldHead(s.sequencer.holdQueue, r);
    HeldOne(s.sequencer.holdQueue[0], r);
  }

  /** What sequencing a third server's write changes at both ends. */
  lemma SequencedMoves(s: System, e: Entry, i: nat)
    requires Shape(s) && CanSequence(s) && IsPeer(s, i) && e.requestor != PRIMARY
    ensures var s' := StepSequenceWrite(s, e);
            && s'.down[i] == s.down[i] + Broadcasts(s.sequencer.stamp, e)
            && s'.nodes[PRIMARY].log == s.nodes[PRIMARY].log + [e.cmd]
            && s'.nodes[PRIMARY].disabled == s.nodes[PRIMARY].disabled
            && s'.nodes[PRIMARY].pending == s.nodes[PRIMARY].pending
            && s'.nodes[i] == s.nodes[i] && s'.up == s.up
            && s'.sequencer.holdQueue == s.sequencer.holdQueue[1..]
  {
  }

  lemma IdleAfterWrite(s: System, e: Entry, r: nat)
    requires Shape(s) && CanSequence(s) && s.sequencer.holdQueue[0] == HeldWrite(e) && IsServer(s, r) && Idle(s, r)
    ensures e.requestor != r && Idle(StepSequenceWrite(s, e), r)
  {
    IdleHead(s, r);
    SequencedNodes(s, e, r);
  }

  lemma AskedAfterWrite(s: System, e: Entry, i: nat)
    requires Shape(s) && CanSequence(s) && s.sequencer.holdQueue[0] == HeldWrite(e) && IsPeer(s, i)
    ensures Asked(StepSequenceWrite(s, e), i) == Asked(s, i)
  {
    AskedHead(s.sequencer.holdQueue, i);
  }

  lemma SequencedCarries(s: System, e: Entry, i: nat)
    requires Shape(s) && CanSequence(s) && IsPeer(s, i) && e.requestor != PRIMARY && e.requestor != i
    ensures Payloads(StepSequenceWrite(s, e).down[i], i) == Payloads(s.down[i], i) + [e.cmd]
  {
    SequencedMoves(s, e, i);
    PayloadsConcat(s.down[i], Broadcasts(s.sequencer.stamp, e), i);
    BroadcastPayloads(s.sequencer.stamp, e, i);
  }

  /** The same while the request waits. */
  lemma ProgressWaiting(log: seq<Command>, coming: seq<Command>, primary: seq<Command>, asked: seq<nat>, g: Start,
                        c: Command)
    requires asked != [] && Progresses(log, coming, primary, asked, g)
    ensures Progresses(log, coming + [c], primary + [c], asked, More(g, [c]))
  {
    Reassociate(log, coming, [c]);
    Reassociate(g.mine, g.flight, [c]);
  }

  lemma SequencedNew(s: System, e: Entry, i: nat)
    requires Shape(s) && CanSequence(s) && s.sequencer.holdQueue[0] == HeldWrite(e) && e.requestor != PRIMARY
    requires IsPeer(s, i)
    ensures NewIn(s, Sequence, i) == if Asked(s, i) != [] then [e.cmd] else []
  {
  }

  lemma CatchSequenceWrite(s: System, e: Entry, i: nat, g: Start)
    requires Shape(s) && CanSequence(s) && s.sequencer.holdQueue[0] == HeldWrite(e)
    requires IsPeer(s, i) && CatchingUp(s, i, g)
    ensures CatchingUp(StepSequenceWrite(s, e), i, More(g, NewIn(s, Sequence, i)))
  {
    var log, coming, primary := s.nodes[i].log, Payloads(s.down[i], i), s.nodes[PRIMARY].log;
    IdleAfterWrite(s, e, i);
    IdleAfterWrite(s, e, PRIMARY);
    AskedAfterWrite(s, e, i);
    SequencedMoves(s, e, i);
    SequencedCarries(s, e, i);
    SequencedNew(s, e, i);
    if Asked(s, i) == [] {
      MoreNothing(g);
      ProgressSequenced(log, coming, primary, g, e.cmd);
    } else {
      ProgressWaiting(log, coming, primary, Asked(s, i), g, e.cmd);
    }
  }

  /** What is sent joins what is on its way. */
  lemma ProgressSent(log: seq<Command>, coming: seq<Command>, g: Start, sent: seq<Command>)
    requires Progresses(log, coming, g.theirs, [|g.mine|], g) && sent == Shipped(Missing(g))
    ensures Progresses(log, coming + sent, g.theirs, [], g)
  {
    Reassociate(log, coming, sent);
    assert g.theirs[|g.theirs|..] == [];
    assert ((g.mine + g.flight) + sent) + [] == (g.mine + g.flight) + sent;
  }

  lemma OnlyAsk(have: nat, more: seq<nat>, sent: seq<nat>, asked: nat)
    requires ([have] + more) + sent == [asked]
    ensures have == asked && more == [] && sent == []
  {
    assert (([have] + more) + sent)[0] == have;
    assert |([have] + more) + sent| == 1 + |more| + |sent|;
  }

  /** The transfer request is answered, and taken off the queue. */
  lemma AskAnswered(s: System, have: nat, i: nat, asked: nat)
    requires Shape(s) && CanSequence(s) && s.sequencer.holdQueue[0] == HeldTransfer(i, have) && IsPeer(s, i)
    requires Asked(s, i) == [asked]
    ensures have == asked && Asked(StepSequenceTransfer(s, i, have), i) == []
  {
    TransferMoves(s, i, have, i);
    AskedHead(s.sequencer.holdQueue, i);
    OnlyAsk(have, AskedIn(s.sequencer.holdQueue[1..], i), AskedIn(HeldIn(s.up[i]), i), asked);
  }

  lemma IdleAfterTransfer(s: System, q: nat, have: nat, r: nat)
    requires Shape(s) && CanSequence(s) && IsServer(s, r) && Idle(s, r)
    ensures Idle(StepSequenceTransfer(s, q, have), r)
  {
    IdleHead(s, r);
  }

  lemma TransferCarries(s: System, have: nat, i: nat)
    requires Shape(s) && CanSequence(s) && IsPeer(s, i)
    ensures Payloads(StepSequenceTransfer(s, i, have).down[i], i) ==
            Payloads(s.down[i], i) + Shipped(LogFrom(s.nodes[PRIMARY].log, have))
  {
    var cs := Shipped(LogFrom(s.nodes[PRIMARY].log, have));
    TransferMoves(s, i, have, i);
    PayloadsConcat(s.down[i], Transfers(cs), i);
    TransferPayloads(cs, i);
  }

  /** What is sent in answer is what the log holds beyond the replica's. */
  lemma CatchTransfer(s: System, have: nat, i: nat, g: Start)
    requires Shape(s) && CanSequence(s) && s.sequencer.holdQueue[0] == HeldTransfer(i, have)
    requires IsPeer(s, i) && CatchingUp(s, i, g) && Asked(s, i) == [|g.mine|]
    ensures CatchingUp(StepSequenceTransfer(s, i, have), i, g)
  {
    AskAnswered(s, have, i, |g.mine|);
    IdleAfterTransfer(s, i, have, i);
    IdleAfterTransfer(s, i, have, PRIMARY);
    TransferCarries(s, have, i);
    TransferMoves(s, i, have, i);
    ProgressSent(s.nodes[i].log, Payloads(s.down[i], i), g, Shipped(Missing(g)));
  }

  lemma AskIsPending(s: System, have: nat, i: nat)
    requires Shape(s) && CanSequence(s) && s.sequencer.holdQueue[0] == HeldTransfer(i, have) && IsPeer(s, i)
    ensures Asked(s, i) != []
  {
    AskedHead(s.sequencer.holdQueue, i);
  }

  lemma CatchOtherTransfer(s: System, r: nat, have: nat, i: nat, g: Start)
    requires Shape(s) && CanSequence(s) && s.sequencer.holdQueue[0] == HeldTransfer(r, have) && r != i
    requires IsPeer(s, i) && CatchingUp(s, i, g)
    ensures CatchingUp(StepSequenceTransfer(s, r, have), i, g)
  {
    TransferMoves(s, r, have, i);
    IdleAfterTransfer(s, r, have, i);
    IdleAfterTransfer(s, r, have, PRIMARY);
    AskedHead(s.sequencer.holdQueue, i);
    Untouched(s, StepSequenceTransfer(s, r, have), i, g);
  }

  lemma CheckpointIsNoPayload(q: seq<DownMessage>, stamp: nat, id: nat)
    ensures Payloads(q + [Checkpoint(stamp)], id) == Payloads(q, id)
  {
    PayloadsConcat(q, [Checkpoint(stamp)], id);
    PayloadsOne(Checkpoint(stamp), id);
  }

  lemma CatchTest(s: System, i: nat, g: Start)
    requires Shape(s) && IsPeer(s, i) && CatchingUp(s, i, g)
    ensures CatchingUp(StepCheckpointTest(s), i, g)
  {
    TestLeavesWrites(s, i);
    TestLeavesStore(s, i);
    TestLeavesWrites(s, PRIMARY);
    TestLeavesStore(s, PRIMARY);
    CheckpointIsNoPayload(s.down[i], s.sequencer.stamp, i);
    Untouched(s, StepCheckpointTest(s), i, g);
  }

  /** The events of other servers, and of the clock, leave both ends alone; disabling the primary does not keep it
      from logging. */
  lemma CatchElsewhere(s: System, ev: Event, i: nat, g: Start)
    requires Shape(s) && IsPeer(s, i) && CatchingUp(s, i, g) && Enabled(s, ev)
    requires ev.Write? || ev.Finish? || ev.ToPeer? || ev.EndBarrier? || ev.Disable? || ev.Restart?
    requires !ev.EndBarrier? ==> ev.server != i && (ev.server == PRIMARY ==> ev.Disable? || ev.Restart?)
    ensures CatchingUp(Step(s, ev), i, g)
  {
    var s' := Step(s, ev);
    assert s'.nodes[PRIMARY].log == s.nodes[PRIMARY].log && s'.nodes[PRIMARY].pending == s.nodes[PRIMARY].pending;
    assert s'.nodes[i] == s.nodes[i] && s'.up[PRIMARY] == s.up[PRIMARY];
    assert s'.up[i] == s.up[i] && s'.down[i] == s.down[i] && s'.sequencer.holdQueue == s.sequencer.holdQueue;
  }

  lemma CatchTransfers(s: System, i: nat, g: Start)
    requires Shape(s) && CanSequence(s) && s.sequencer.holdQueue[0].HeldTransfer? && IsPeer(s, i)
    requires CatchingUp(s, i, g)
    ensures CatchingUp(Step(s, Sequence), i, g)
  {
    var h := s.sequencer.holdQueue[0];
    SequenceIs(s);
    if h.requestor == i {
      AskIsPending(s, h.have, i);
      CatchTransfer(s, h.have, i, g);
    } else {
      CatchOtherTransfer(s, h.requestor, h.have, i, g);
    }
  }

  /** The event sequences a write. */
  predicate Sequencing(s: System, ev: Event) {
    ev.Sequence? && CanSequence(s) && s.sequencer.holdQueue[0].HeldWrite?
  }

  /** An idle primary logs nothing but what it sequences. */
  lemma NothingNew(s: System, ev: Event, i: nat)
    requires Shape(s) && IsPeer(s, i) && Idle(s, PRIMARY) && !Sequencing(s, ev)
    ensures NewIn(s, ev, i) == []
  {
  }

  lemma CatchDelivery(s: System, ev: Event, i: nat, g: Start)
    requires Shape(s) && PipeInv(s) && IsPeer(s, i) && CatchingUp(s, i, g) && Enabled(s, ev)
    requires ev.ToPrimary? || ev.ToPeer?
    ensures CatchingUp(Step(s, ev), i, g)
  {
    match ev {
      case ToPrimary(j) => CatchToPrimary(s, j, i, g);
      case ToPeer(j) => if j == i { CatchToPeer(s, i, g); } else { CatchElsewhere(s, ev, i, g); }
    }
  }

  lemma CatchOthers(s: System, ev: Event, i: nat, g: Start)
    requires Shape(s) && PipeInv(s) && IsPeer(s, i) && CatchingUp(s, i, g) && Calm(s, ev, i) && !Sequencing(s, ev)
    ensures CatchingUp(Step(s, ev), i, g)
  {
    if Enabled(s, ev) {
      if ev.ToPrimary? || ev.ToPeer? {
        CatchDelivery(s, ev, i, g);
      } else if ev.Sequence? {
        CatchTransfers(s, i, g);
      } else if ev.CheckpointTest? {
        CatchTest(s, i, g);
      } else {
        CatchElsewhere(s, ev, i, g);
      }
    }
  }

  lemma CatchSteps(s: System, ev: Event, i: nat, g: Start)
    requires Shape(s) && PipeInv(s) && IsPeer(s, i) && CatchingUp(s, i, g) && Calm(s, ev, i)
    ensures CatchingUp(Step(s, ev), i, More(g, NewIn(s, ev, i)))
  {
    if Sequencing(s, ev) {
      SequenceIs(s);
      CatchSequenceWrite(s, s.sequencer.holdQueue[0].entry, i, g);
    } else {
      NothingNew(s, ev, i);
      MoreNothing(g);
      CatchOthers(s, ev, i, g);
    }
  }

  // ---- What is on its way, and what is sent ----

  lemma {:induction false} ShippedConcat(a: seq<Command>, b: seq<Command>)
    ensures Shipped(a + b) == Shipped(a) + Shipped(b)
  {
    if b == [] {
      assert a + b == a;
    } else {
      ShippedConcat(a, b[..|b| - 1]);
      Front(a, b);
      Reassociate(Shipped(a), Shipped(b[..|b| - 1]), if Transferable(b[|b| - 1]) then [b[|b| - 1]] else []);
    }
  }

  lemma {:induction false} ShippedKinds(cs: seq<Command>)
    ensures forall k :: 0 <= k < |Shipped(cs)| ==> Transferable(Shipped(cs)[k])
    ensures Shipped(cs) == [] <==> forall k :: 0 <= k < |cs| ==> !Transferable(cs[k])
  {
    if cs != [] {
      ShippedKinds(cs[..|cs| - 1]);
    }
  }

  predicate AllTransferable(cs: seq<Command>) {
    forall k :: 0 <= k < |cs| ==> Transferable(cs[k])
  }

  predicate NoneTransferable(cs: seq<Command>) {
    forall k :: 0 <= k < |cs| ==> !Transferable(cs[k])
  }

  lemma SentFromBoth(flight: seq<Command>, rest: seq<Command>)
    requires NoneTransferable(flight) && AllTransferable(rest)
    ensures Shipped(flight + rest) == rest
  {
    ShippedConcat(flight, rest);
    ShippedKinds(flight);
    ShippedIsWhole(rest);
    LeftEmpty(rest);
  }

  /** When what is sent is what follows the part on its way, that part is not sent and all the rest is. */
  lemma RestIsSent(flight: seq<Command>, rest: seq<Command>)
    requires Shipped(flight + rest) == rest
    ensures NoneTransferable(flight) && AllTransferable(rest)
  {
    ShippedConcat(flight, rest);
    ShippedKinds(flight + rest);
    ShippedIsWhole(rest);
    assert |Shipped(flight)| + |rest| == |rest|;
    ShippedKinds(flight);
  }

  lemma RestIsSentExactly(flight: seq<Command>, rest: seq<Command>)
    ensures Shipped(flight + rest) == rest <==> NoneTransferable(flight) && AllTransferable(rest)
  {
    if Shipped(flight + rest) == rest {
      RestIsSent(flight, rest);
    } else if NoneTransferable(flight) && AllTransferable(rest) {
      SentFromBoth(flight, rest);
    }
  }

  /** What is on its way and what is sent make up what is missing exactly when what is on its way comes first in it and
      is of kinds that are not sent, and all the rest is of kinds that are: each entry reaches the replica by one of
      the two ways, and by one only. */
  lemma OneWayEach(flight: seq<Command>, missing: seq<Command>)
    ensures flight + Shipped(missing) == missing <==>
            flight <= missing && NoneTransferable(flight) && AllTransferable(missing[|flight|..])
  {
    if flight <= missing {
      var rest := missing[|flight|..];
      TakeDrop(missing, |flight|);
      assert missing == flight + rest;
      SameTails(flight, Shipped(missing), rest);
      RestIsSentExactly(flight, rest);
    } else {
      StartsWith(flight, Shipped(missing));
    }
  }

  // ---- Whole runs ----

  lemma AskStarts(s: System, i: nat)
    requires Shape(s) && IsPeer(s, i)
    ensures Asked(StepRestart(s, i), i) == Asked(s, i) + [|s.nodes[i].log|]
  {
    var h := HeldTransfer(i, |s.nodes[i].log|);
    RequestsConcat(s.up[i], [Request(h)]);
    UpOne(Request(h));
    AskedConcat(HeldIn(s.up[i]), [h], i);
    AskedOne(h, i);
    Reassociate(AskedIn(s.sequencer.holdQueue, i), AskedIn(HeldIn(s.up[i]), i), [|s.nodes[i].log|]);
  }

  lemma RestartMoves(s: System, i: nat)
    requires Shape(s) && IsPeer(s, i)
    ensures var s' := StepRestart(s, i);
            && s'.nodes[PRIMARY] == s.nodes[PRIMARY] && s'.nodes[i] == RestartNode(s.nodes[i])
            && s'.up[PRIMARY] == s.up[PRIMARY] && s'.down == s.down && s'.sequencer == s.sequencer
            && s'.up[i] == s.up[i] + [Request(HeldTransfer(i, |s.nodes[i].log|))]
  {
  }

  /** What the restart of a replica finds. */
  function Found(s: System, i: nat): Start
    requires Shape(s) && IsPeer(s, i) && Behind(s, i)
  {
    Gap(s.nodes[i].log, Payloads(s.down[i], i), s.nodes[PRIMARY].log)
  }

  lemma CatchStarts(s: System, i: nat)
    requires Shape(s) && IsPeer(s, i) && Behind(s, i)
    ensures CatchingUp(StepRestart(s, i), i, Found(s, i))
  {
    TransferIsNoWrite(s.up[i], i, |s.nodes[i].log|, i);
    AskStarts(s, i);
    RestartMoves(s, i);
    assert [] + [|s.nodes[i].log|] == [|s.nodes[i].log|];
  }

  lemma {:induction false} CatchHolds(s: System, evs: seq<Event>, i: nat, g: Start)
    requires Shape(s) && PipeInv(s) && IsPeer(s, i) && CatchingUp(s, i, g) && CalmRun(s, evs, i)
    ensures PipeInv(Continue(s, evs)) && CatchingUp(Continue(s, evs), i, More(g, Window(s, evs, i)))
  {
    if evs == [] {
      MoreNothing(g);
    } else {
      var front, ev := evs[..|evs| - 1], evs[|evs| - 1];
      var before := Continue(s, front);
      CatchHolds(s, front, i, g);
      PipeSteps(before, ev);
      CatchSteps(before, ev, i, More(g, Window(s, front, i)));
      MoreTwice(g, Window(s, front, i), NewIn(before, ev, i));
    }
  }

  lemma {:induction false} ContinueIsRun(n: nat, start: seq<Event>, evs: seq<Event>)
    requires n >= 2
    ensures Continue(Run(n, start), evs) == Run(n, start + evs)
  {
    if evs == [] {
      RightEmpty(start);
    } else {
      ContinueIsRun(n, start, evs[..|evs| - 1]);
      Front(start, evs);
    }
  }

  lemma PipesHold(n: nat, evs: seq<Event>, ev: Event)
    requires n >= 2
    ensures PipeInv(Step(Run(n, evs), ev))
  {
    OrderHolds(n, evs);
    PipeSteps(Run(n, evs), ev);
  }

  lemma WholeOrNot(mine: seq<Command>, sent: seq<Command>, missing: seq<Command>, rest: seq<Command>)
    ensures (mine + sent) + rest == (mine + missing) + rest <==> sent == missing
  {
    if (mine + sent) + rest == (mine + missing) + rest {
      assert |sent| == |missing|;
      assert sent == ((mine + sent) + rest)[|mine|..|mine| + |sent|];
      assert missing == ((mine + missing) + rest)[|mine|..|mine| + |sent|];
    }
  }

  /** With the request answered and everything received, the logs agree exactly when what was on its way and what was
      sent make up what was missing. */
  lemma ProgressEnds(log: seq<Command>, primary: seq<Command>, g: Start)
    requires Progresses(log, [], primary, [], g)
    ensures log == primary <==> g.flight + Shipped(Missing(g)) == Missing(g)
  {
    var sent, rest := Shipped(Missing(g)), primary[|g.theirs|..];
    assert log + [] == log;
    Reassociate(g.mine, g.flight, sent);
    assert log == (g.mine + (g.flight + sent)) + rest;
    assert primary == (g.mine + Missing(g)) + rest;
    WholeOrNot(g.mine, g.flight + sent, Missing(g), rest);
  }

  /** The transfer request of a restarted replica has been answered, and everything it will execute has arrived. */
  predicate CaughtUp(s: System, i: nat)
    requires Shape(s) && IsPeer(s, i)
  {
    Asked(s, i) == [] && Payloads(s.down[i], i) == []
  }

  /** The state after a restart has begun to catch up. */
  lemma RestartBegins(n: nat, before: seq<Event>, i: nat)
    requires n >= 2 && 2 <= i <= n && Behind(Run(n, before), i)
    ensures var s0, s1 := Run(n, before), Step(Run(n, before), Restart(i));
            && Shape(s1) && IsPeer(s1, i) && PipeInv(s1) && CatchingUp(s1, i, Found(s0, i))
  {
    PipesHold(n, before, Restart(i));
    RestartIs(Run(n, before), i);
    CatchStarts(Run(n, before), i);
  }

  /** The gap that the answer to the request finds. */
  function GapOf(s1: System, evs: seq<Event>, i: nat, g: Start): Start
    requires Shape(s1) && IsPeer(s1, i)
  {
    More(g, Window(s1, evs, i))
  }

  lemma CatchEnds(s1: System, evs: seq<Event>, i: nat, g: Start)
    requires Shape(s1) && PipeInv(s1) && IsPeer(s1, i) && CatchingUp(s1, i, g)
    requires CalmRun(s1, evs, i) && CaughtUp(Continue(s1, evs), i)
    ensures var s, g' := Continue(s1, evs), GapOf(s1, evs, i, g);
            && !s.nodes[i].disabled
            && (s.nodes[i].log == s.nodes[PRIMARY].log <==> g'.flight + Shipped(Missing(g')) == Missing(g'))
  {
    var s := Continue(s1, evs);
    CatchHolds(s1, evs, i, g);
    ProgressEnds(s.nodes[i].log, s.nodes[PRIMARY].log, GapOf(s1, evs, i, g));
  }

  /** Each missing entry reaches the replica on one way only: the first ones, of kinds that are not sent, as commits
      before the answer, and all the others, of kinds that are sent, with it. */
  predicate OneWayOnly(g: Start) {
    g.flight <= Missing(g) && NoneTransferable(g.flight) && AllTransferable(Missing(g)[|g.flight|..])
  }

  /** Once a restarted replica has received all it was sent, its log is the primary's exactly when the commits that
      were on their way to it at the restart or were sequenced before its request was answered, and what the transfer
      sends, make up what it had missed by then; that is, when each missing entry reaches it on one way only. */
  lemma LogsMeet(n: nat, before: seq<Event>, i: nat, evs: seq<Event>)
    requires n >= 2 && 2 <= i <= n && Behind(Run(n, before), i)
    requires CalmRun(Step(Run(n, before), Restart(i)), evs, i)
    requires CaughtUp(Continue(Step(Run(n, before), Restart(i)), evs), i)
    ensures var s1 := Step(Run(n, before), Restart(i));
            var s, g := Continue(s1, evs), GapOf(s1, evs, i, Found(Run(n, before), i));
            && !s.nodes[i].disabled
            && (s.nodes[i].log == s.nodes[PRIMARY].log <==> g.flight + Shipped(Missing(g)) == Missing(g))
            && (s.nodes[i].log == s.nodes[PRIMARY].log <==> OneWayOnly(g))
  {
    var s1, g0 := Step(Run(n, before), Restart(i)), Found(Run(n, before), i);
    RestartBegins(n, before, i);
    CatchEnds(s1, evs, i, g0);
    OneWayEach(GapOf(s1, evs, i, g0).flight, Missing(GapOf(s1, evs, i, g0)));
  }

  lemma QuietGap(g: Start)
    requires g.flight == []
    ensures g.flight + Shipped(Missing(g)) == Missing(g) <==> AllTransferable(Missing(g))
  {
    LeftEmpty(Shipped(Missing(g)));
    ShippedIsWhole(Missing(g));
  }

  /** With nothing on its way at the restart and nothing sequenced before the answer, the logs agree exactly when every
      missed entry is of a kind that is sent. */
  lemma QuietLogsMeet(n: nat, before: seq<Event>, i: nat, evs: seq<Event>)
    requires n >= 2 && 2 <= i <= n && Behind(Run(n, before), i)
    requires CalmRun(Step(Run(n, before), Restart(i)), evs, i)
    requires CaughtUp(Continue(Step(Run(n, before), Restart(i)), evs), i)
    requires Payloads(Run(n, before).down[i], i) == []
    requires Window(Step(Run(n, before), Restart(i)), evs, i) == []
    ensures var g := Found(Run(n, before), i);
            var s := Continue(Step(Run(n, before), Restart(i)), evs);
            s.nodes[i].log == s.nodes[PRIMARY].log <==> AllTransferable(Missing(g))
  {
    LogsMeet(n, before, i, evs);
    MoreNothing(Found(Run(n, before), i));
    QuietGap(Found(Run(n, before), i));
  }

  /** When the logs agree the tablets agree as well, while both servers are enabled, the primary has added no user
      while it was disabled, and the log holds no delete command that replay misreads. */
  lemma TabletsMeet(n: nat, before: seq<Event>, i: nat, evs: seq<Event>)
    requires n >= 2 && 2 <= i <= n && Behind(Run(n, before), i)
    requires CalmRun(Step(Run(n, before), Restart(i)), evs, i)
    requires CaughtUp(Continue(Step(Run(n, before), Restart(i)), evs), i)
    requires OneWayOnly(GapOf(Step(Run(n, before), Restart(i)), evs, i, Found(Run(n, before), i)))
    requires var whole := (before + [Restart(i)]) + evs;
             && !Run(n, whole).nodes[PRIMARY].disabled && AllFaithful(Run(n, whole).nodes[PRIMARY].log)
             && forall k :: 0 <= k < |whole| ==> !AddsWhileDisabled(Run(n, whole[..k]), whole[k])
    ensures var s := Continue(Step(Run(n, before), Restart(i)), evs);
            s.nodes[i].tablet == s.nodes[PRIMARY].tablet == ReplayAll(map[], s.nodes[PRIMARY].log)
  {
    LogsMeet(n, before, i, evs);
    RestartsToRun(n, before, i, evs);
    var whole := (before + [Restart(i)]) + evs;
    TabletIsReplay(n, whole, i);
    TabletIsReplay(n, whole, PRIMARY);
  }

  lemma RestartsToRun(n: nat, before: seq<Event>, i: nat, evs: seq<Event>)
    requires n >= 2
    ensures Continue(Step(Run(n, before), Restart(i)), evs) == Run(n, (before + [Restart(i)]) + evs)
  {
    var start := before + [Restart(i)];
    assert start[..|start| - 1] == before;
    ContinueIsRun(n, start, evs);
  }
}
