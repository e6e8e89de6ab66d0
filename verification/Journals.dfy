/** What each server has executed, against the primary's order and against its own log. */
module Journals {
  import opened Sequences
  import opened KeyValue
  import opened WriteAheadLog
  import opened Replication
  import opened Channels
  import opened Ordering
  import opened OwnWrites

  // ---- Sequences of writes ----

  function By(es: seq<Entry>, r: nat): seq<Entry> {
    if es == [] then []
    else By(es[..|es| - 1], r) + (if es[|es| - 1].requestor == r then [es[|es| - 1]] else [])
  }

  function NotBy(es: seq<Entry>, r: nat): seq<Entry> {
    if es == [] then []
    else NotBy(es[..|es| - 1], r) + (if es[|es| - 1].requestor != r then [es[|es| - 1]] else [])
  }

  function Entries(xs: seq<Sequenced>): seq<Entry> {
    seq(|xs|, i requires 0 <= i < |xs| => xs[i].entry)
  }

  function Cmds(es: seq<Entry>): seq<Command> {
    seq(|es|, i requires 0 <= i < |es| => es[i].cmd)
  }

  lemma NextEntry(es: seq<Entry>, e: Entry, r: nat)
    ensures By(es + [e], r) == By(es, r) + (if e.requestor == r then [e] else [])
    ensures NotBy(es + [e], r) == NotBy(es, r) + (if e.requestor != r then [e] else [])
    ensures Cmds(es + [e]) == Cmds(es) + [e.cmd]
  {
    assert (es + [e])[..|es|] == es;
  }

  lemma NextSequenced(order: seq<Sequenced>, c: nat)
    requires c < |order|
    ensures Entries(order[..c + 1]) == Entries(order[..c]) + [order[c].entry]
  {
  }

  lemma EntriesAppend(order: seq<Sequenced>, x: Sequenced, c: nat)
    requires c <= |order|
    ensures Entries((order + [x])[..c]) == Entries(order[..c])
    ensures Entries(order + [x]) == Entries(order) + [x.entry]
  {
    assert (order + [x])[..c] == order[..c];
  }

  lemma SplitNext(es: seq<Entry>, e: Entry, r: nat)
    requires multiset(es) == multiset(By(es, r)) + multiset(NotBy(es, r))
    ensures multiset(es + [e]) == multiset(By(es + [e], r)) + multiset(NotBy(es + [e], r))
  {
    NextEntry(es, e, r);
    MultisetNext(es, e);
    if e.requestor == r {
      MultisetNext(By(es, r), e);
      RightEmpty(NotBy(es, r));
    } else {
      MultisetNext(NotBy(es, r), e);
      RightEmpty(By(es, r));
    }
  }

  lemma {:induction false} SplitByRequestor(es: seq<Entry>, r: nat)
    ensures multiset(es) == multiset(By(es, r)) + multiset(NotBy(es, r))
  {
    if es != [] {
      SplitByRequestor(es[..|es| - 1], r);
      SplitNext(es[..|es| - 1], es[|es| - 1], r);
      FrontAndLast(es);
    }
  }

  // ---- The invariants ----

  predicate NoTransfer(hs: seq<Held>, r: nat) {
    forall h :: h in hs && h.HeldTransfer? ==> h.requestor != r
  }

  /** No disabling has kept the server from executing: it was never disabled, or it is the primary, which goes on
      executing while it is. */
  predicate Steady(s: System, i: nat)
    requires Shape(s) && IsServer(s, i)
  {
    i == PRIMARY || s.trace.stayed[i]
  }

  /** Such a server executed, of the others' writes, exactly those among the commits it has seen, in their order;
      its log lists what it executed, and its tablet is the result while it was never disabled. */
  ghost predicate JournalAt(s: System, i: nat)
    requires Shape(s) && IsServer(s, i) && Seen(s, i) <= |s.trace.order|
  {
    && (s.trace.stayed[i] ==> !s.nodes[i].disabled && s.nodes[i].tablet == ApplyAll(map[], s.nodes[i].log))
    && s.nodes[i].log == Cmds(s.trace.journal[i])
    && NotBy(s.trace.journal[i], i) == NotBy(Entries(s.trace.order[..Seen(s, i)]), i)
    && TransfersIn(s.down[i]) == []
    && NoTransfer(HeldIn(s.up[i]), i)
    && NoTransfer(s.sequencer.holdQueue, i)
  }

  ghost predicate JournalInv(s: System)
    requires Shape(s) && ChainInv(s)
  {
    forall i: nat {:trigger JournalAt(s, i)} :: IsServer(s, i) && Steady(s, i) ==>
      Seen(s, i) <= |s.trace.order| && JournalAt(s, i)
  }

  /** A server's tablet is the replay of its log while it is enabled, and empty while it is disabled. */
  ghost predicate WalAt(node: Node) {
    AllFaithful(node.log) ==> node.tablet == if node.disabled then map[] else ReplayAll(map[], node.log)
  }

  /** The primary goes on executing while it is disabled: here it adds a user to its cleared tablet. */
  predicate AddsWhileDisabled(s: System, ev: Event)
    requires Shape(s)
  {
    && s.nodes[PRIMARY].disabled && Enabled(s, ev)
    && match ev
       case Finish(i) => i == PRIMARY && s.nodes[PRIMARY].pending.value.AddUser?
       case Sequence =>
         var h := s.sequencer.holdQueue[0];
         h.HeldWrite? && h.entry.requestor != PRIMARY && h.entry.cmd.AddUser?
       case _ => false
  }

  // ---- One server at a time ----

  lemma FaithfulPrefix(a: seq<Command>, b: seq<Command>)
    requires a <= b && AllFaithful(b)
    ensures AllFaithful(a)
  {
    forall k | 0 <= k < |a| ensures Faithful(a[k]) { assert a[k] == b[k]; }
  }

  /** An empty tablet stays empty under every command but one that adds a user. */
  lemma EmptyStaysEmpty(c: Command)
    ensures Apply(map[], c) == map[] <==> !c.AddUser?
  {
    var t: Tablet := map[];
    if c.AddUser? { assert c.user in Apply(t, c); }
  }

  lemma WalExecutes(node: Node, c: Command)
    requires WalAt(node) && !(node.disabled && c.AddUser?)
    ensures WalAt(Execute(node, c))
  {
    ReplayStep(map[], node.log, c);
    EmptyStaysEmpty(c);
    if AllFaithful(node.log + [c]) {
      FaithfulPrefix(node.log, node.log + [c]);
      assert (node.log + [c])[|node.log|] == c;
    }
  }

  lemma WalBreaks(node: Node, c: Command)
    requires WalAt(node) && node.disabled && c.AddUser? && AllFaithful(node.log + [c])
    ensures !WalAt(Execute(node, c))
  {
    FaithfulPrefix(node.log, node.log + [c]);
    EmptyStaysEmpty(c);
  }

  lemma WalRestarts(node: Node)
    requires WalAt(node) && node.disabled
    ensures WalAt(RestartNode(node))
  {
  }

  lemma WalFinish(s: System, j: nat)
    requires Shape(s) && CanFinish(s, j) && WalAt(s.nodes[j]) && !AddsWhileDisabled(s, Finish(j))
    ensures WalAt(StepFinish(s, j).nodes[j])
  {
    if j == PRIMARY || !s.nodes[j].disabled { WalExecutes(s.nodes[j], s.nodes[j].pending.value); }
  }

  lemma WalToPeer(s: System, j: nat)
    requires Shape(s) && CanDeliverDown(s, j) && WalAt(s.nodes[j])
    ensures WalAt(StepToPeer(s, j).nodes[j])
  {
    var m := s.down[j][0];
    if !s.nodes[j].disabled {
      if m.Transfer? { WalExecutes(s.nodes[j], m.cmd); }
      if m.Commit? { WalExecutes(s.nodes[j], m.item.entry.cmd); }
    }
  }

  lemma SequencedNode(s: System)
    requires Shape(s) && CanSequence(s)
    ensures Step(s, Sequence).nodes[PRIMARY] ==
            match s.sequencer.holdQueue[0]
            case HeldWrite(e) => SequenceWrite(s.nodes[PRIMARY], s.sequencer, e, s.n - 1).0
            case HeldTransfer(_, _) => s.nodes[PRIMARY]
  {
  }

  lemma WalSequence(node: Node, q: Sequencer, e: Entry, peers: nat)
    requires q.holdQueue != [] && WalAt(node)
    requires !(node.disabled && e.requestor != PRIMARY && e.cmd.AddUser?)
    ensures WalAt(SequenceWrite(node, q, e, peers).0)
  {
    if e.requestor != PRIMARY { WalExecutes(node, e.cmd); }
  }

  lemma WalSequenceStep(s: System, i: nat)
    requires Shape(s) && CanSequence(s) && IsServer(s, i) && WalAt(s.nodes[i])
    requires i == PRIMARY ==> !AddsWhileDisabled(s, Sequence)
    ensures WalAt(Step(s, Sequence).nodes[i])
  {
    if i == PRIMARY {
      SequencedNode(s);
      var h := s.sequencer.holdQueue[0];
      if h.HeldWrite? { WalSequence(s.nodes[i], s.sequencer, h.entry, s.n - 1); }
    } else {
      SequenceSpares(s, i);
    }
  }

  lemma WalDelivery(s: System, j: nat, i: nat)
    requires Shape(s) && CanDeliverUp(s, j) && IsServer(s, i) && WalAt(s.nodes[i])
    ensures WalAt(Step(s, ToPrimary(j)).nodes[i])
  {
    ToPrimaryIs(s, j);
    DeliveryKeeps(s, j, i);
  }

  lemma StoreElsewhere(s: System, ev: Event, i: nat)
    requires Shape(s) && IsServer(s, i) && !ev.ToPrimary? && !ev.Sequence?
    requires ev.Finish? || ev.ToPeer? || ev.Disable? || ev.Restart? ==> ev.server != i
    ensures var s' := Step(s, ev);
            && s'.nodes[i].log == s.nodes[i].log && s'.nodes[i].tablet == s.nodes[i].tablet
            && s'.nodes[i].disabled == s.nodes[i].disabled
  {
  }

  lemma WalOwn(s: System, ev: Event, i: nat)
    requires Shape(s) && IsServer(s, i) && WalAt(s.nodes[i]) && Enabled(s, ev)
    requires i == PRIMARY ==> !AddsWhileDisabled(s, ev)
    requires (ev.Finish? || ev.ToPeer? || ev.Disable? || ev.Restart?) && ev.server == i
    ensures WalAt(Step(s, ev).nodes[i])
  {
    match ev {
      case Finish(_) => WalFinish(s, i); FinishIs(s, i);
      case ToPeer(_) => WalToPeer(s, i); ToPeerIs(s, i);
      case Disable(_) =>
      case Restart(_) => WalRestarts(s.nodes[i]); RestartIs(s, i);
    }
  }

  lemma WalSteps(s: System, ev: Event, i: nat)
    requires Shape(s) && IsServer(s, i) && WalAt(s.nodes[i]) && (i == PRIMARY ==> !AddsWhileDisabled(s, ev))
    ensures WalAt(Step(s, ev).nodes[i])
  {
    if Enabled(s, ev) {
      if ev.Sequence? {
        WalSequenceStep(s, i);
      } else if ev.ToPrimary? {
        WalDelivery(s, ev.server, i);
      } else if (ev.Finish? || ev.ToPeer? || ev.Disable? || ev.Restart?) && ev.server == i {
        WalOwn(s, ev, i);
      } else {
        StoreElsewhere(s, ev, i);
      }
    }
  }

  lemma SequenceSpares(s: System, i: nat)
    requires Shape(s) && CanSequence(s) && IsPeer(s, i)
    ensures Step(s, Sequence).nodes[i] == s.nodes[i]
  {
  }

  // ---- Journals ----

  /** Executing one more write, the next of the seen commits when it is another server's. */
  lemma JournalExecutes(node: Node, journal: seq<Entry>, seen: seq<Entry>, i: nat, e: Entry)
    requires node.log == Cmds(journal) && NotBy(journal, i) == NotBy(seen, i)
    ensures var done := Execute(node, e.cmd);
            && done.log == Cmds(journal + [e])
            && (node.tablet == ApplyAll(map[], node.log) ==> done.tablet == ApplyAll(map[], done.log))
            && NotBy(journal + [e], i) == NotBy(if e.requestor == i then seen else seen + [e], i)
  {
    NextEntry(journal, e, i);
    NextEntry(seen, e, i);
    ReplayStep(map[], node.log, e.cmd);
  }

  lemma NoTransferAppend(hs: seq<Held>, h: Held, r: nat)
    requires NoTransfer(hs, r) && !(h.HeldTransfer? && h.requestor == r)
    ensures NoTransfer(hs + [h], r)
  {
  }

  lemma NoTransferTail(hs: seq<Held>, r: nat)
    requires NoTransfer(hs, r) && hs != []
    ensures NoTransfer(hs[1..], r)
  {
  }

  /** What taking on a write changes for a server's channels. */
  lemma WriteMoves(s: System, j: nat, c: Command, i: nat)
    requires Shape(s) && CanWrite(s, j) && IsServer(s, i)
    ensures var s', h := StepWrite(s, j, c), HeldWrite(BeginWrite(s.nodes[j], j, c).1);
            && (s'.up[i] == s.up[i] || s'.up[i] == s.up[i] + [Request(h)])
            && (s'.sequencer.holdQueue == s.sequencer.holdQueue ||
                s'.sequencer.holdQueue == s.sequencer.holdQueue + [h])
            && s'.down == s.down && s'.trace == s.trace
            && s'.nodes[i].log == s.nodes[i].log && s'.nodes[i].tablet == s.nodes[i].tablet
            && s'.nodes[i].disabled == s.nodes[i].disabled
  {
  }

  lemma JournalWrite(s: System, j: nat, c: Command, i: nat)
    requires Shape(s) && CanWrite(s, j) && IsServer(s, i)
    requires Seen(s, i) <= |s.trace.order| && JournalAt(s, i)
    ensures Seen(StepWrite(s, j, c), i) <= |StepWrite(s, j, c).trace.order|
    ensures JournalAt(StepWrite(s, j, c), i)
  {
    var h := HeldWrite(BeginWrite(s.nodes[j], j, c).1);
    WriteMoves(s, j, c, i);
    SentJoinsPipe([], s.up[i], h.entry);
    NoTransferAppend(HeldIn(s.up[i]), h, i);
    NoTransferAppend(s.sequencer.holdQueue, h, i);
  }

  lemma JournalFinish(s: System, j: nat, i: nat)
    requires Shape(s) && ChainInv(s) && CanFinish(s, j) && IsServer(s, i) && Steady(s, i)
    requires Seen(s, i) <= |s.trace.order| && JournalAt(s, i)
    ensures JournalAt(StepFinish(s, j), i)
  {
    if j == i {
      var e := Entry(i, s.nodes[i].seqNum, s.nodes[i].pending.value);
      JournalExecutes(s.nodes[i], s.trace.journal[i], Entries(s.trace.order[..Seen(s, i)]), i, e);
    }
  }

  lemma ReceiveKeepsStore(node: Node, q: Sequencer, m: UpMessage)
    ensures var node' := PrimaryReceive(node, q, m).0;
            node'.log == node.log && node'.tablet == node.tablet && node'.disabled == node.disabled
  {
  }

  lemma DeliveryTraces(s: System, j: nat, i: nat)
    requires Shape(s) && CanDeliverUp(s, j) && IsServer(s, i)
    ensures var s' := StepToPrimary(s, j);
            && s'.trace.journal == s.trace.journal && s'.trace.stayed == s.trace.stayed
            && s'.nodes[i] == if i == PRIMARY then PrimaryReceive(s.nodes[PRIMARY], s.sequencer, s.up[j][0]).0
                              else s.nodes[i]
  {
  }

  /** What a delivery to the primary leaves alone. */
  lemma DeliveryKeeps(s: System, j: nat, i: nat)
    requires Shape(s) && CanDeliverUp(s, j) && IsServer(s, i)
    ensures var s' := StepToPrimary(s, j);
            && s'.trace.order == s.trace.order && s'.trace.journal == s.trace.journal
            && s'.trace.consumed == s.trace.consumed && s'.trace.stayed == s.trace.stayed
            && s'.nodes[i].log == s.nodes[i].log && s'.nodes[i].tablet == s.nodes[i].tablet
            && s'.nodes[i].disabled == s.nodes[i].disabled
            && TransfersIn(s'.down[i]) == TransfersIn(s.down[i])
            && CommitsIn(s'.down[i]) == CommitsIn(s.down[i])
  {
    DeliveryTraces(s, j, i);
    ReceiveKeepsStore(s.nodes[PRIMARY], s.sequencer, s.up[j][0]);
    DeliveryChannels(s, j, i);
    AnswerIsOkay(s, j, i);
    DownConcat(s.down[i], AnswerTo(s, j, i));
  }

  /** A write that arrives joins the hold queue, and none that is held asks for a transfer. */
  lemma HoldsNoTransfer(s: System, j: nat, i: nat)
    requires Shape(s) && PipeInv(s) && CanDeliverUp(s, j) && IsServer(s, i)
    requires NoTransfer(HeldIn(s.up[i]), i) && NoTransfer(s.sequencer.holdQueue, i)
    ensures var s' := StepToPrimary(s, j); NoTransfer(HeldIn(s'.up[i]), i) && NoTransfer(s'.sequencer.holdQueue, i)
  {
    var m, hold := s.up[j][0], s.sequencer.holdQueue;
    DeliveryMoves(s, j);
    UpHead(s.up[j]);
    UpOne(m);
    RightEmpty(hold);
    if m.Request? {
      PipeToPrimary(s, j, i);
      if j == i { HeadAsksNothing(s.up[i], i); }
      NoTransferAppend(hold, m.item, i);
    }
  }

  lemma HeadAsksNothing(up: seq<UpMessage>, i: nat)
    requires up != [] && up[0].Request? && NoTransfer(HeldIn(up), i)
    ensures NoTransfer(HeldIn(up[1..]), i) && !(up[0].item.HeldTransfer? && up[0].item.requestor == i)
  {
    HeldInHead(up);
    NoTransferTail(HeldIn(up), i);
    assert HeldIn(up)[0] == up[0].item;
    assert HeldIn(up)[1..] == HeldIn(up[1..]);
  }

  lemma JournalToPrimary(s: System, j: nat, i: nat)
    requires Shape(s) && ChainInv(s) && PipeInv(s) && CanDeliverUp(s, j) && IsServer(s, i)
    requires Seen(s, i) <= |s.trace.order| && JournalAt(s, i)
    ensures JournalAt(StepToPrimary(s, j), i)
  {
    DeliveryKeeps(s, j, i);
    HoldsNoTransfer(s, j, i);
  }

  lemma ReceiptChannels(s: System, i: nat)
    requires Shape(s) && CanDeliverDown(s, i)
    ensures HeldIn(StepToPeer(s, i).up[i]) == HeldIn(s.up[i])
    ensures TransfersIn(s.down[i]) == [] ==> TransfersIn(s.down[i][1..]) == [] && !s.down[i][0].Transfer?
  {
    ReceiptForOwn(s, i);
    DownHead(s.down[i]);
    DownOne(s.down[i][0]);
  }

  /** The commit a replica receives is the next of the order. */
  lemma CommitIsNext(s: System, i: nat)
    requires Shape(s) && ChainInv(s) && CanDeliverDown(s, i) && s.down[i][0].Commit?
    ensures s.trace.consumed[i] < |s.trace.order| && s.trace.order[s.trace.consumed[i]] == s.down[i][0].item
  {
    assert Chain(s.trace.order, s.trace.consumed[i], s.trace.acked[i], s.up[i], s.down[i]);
    ChainConsumes(s.trace.order, s.trace.consumed[i], s.trace.acked[i], s.up[i], s.down[i]);
  }

  lemma CommitMoves(s: System, i: nat)
    requires Shape(s) && CanDeliverDown(s, i) && s.down[i][0].Commit? && !s.nodes[i].disabled
    ensures var s', e := StepToPeer(s, i), s.down[i][0].item.entry;
            && s'.nodes[i] == (if e.requestor != i then Execute(s.nodes[i], e.cmd) else s.nodes[i])
            && s'.trace.journal[i] == s.trace.journal[i] + (if e.requestor != i then [e] else [])
  {
  }

  /** Seeing the commit of an own write executes nothing. */
  lemma JournalSpares(journal: seq<Entry>, seen: seq<Entry>, i: nat, e: Entry)
    requires e.requestor == i && NotBy(journal, i) == NotBy(seen, i)
    ensures journal + [] == journal && NotBy(journal, i) == NotBy(seen + [e], i)
  {
    NextEntry(seen, e, i);
  }

  lemma JournalCommit(s: System, i: nat)
    requires Shape(s) && ChainInv(s) && CanDeliverDown(s, i) && s.down[i][0].Commit? && s.trace.stayed[i]
    requires Seen(s, i) <= |s.trace.order| && JournalAt(s, i)
    ensures var s' := StepToPeer(s, i);
            && s.trace.consumed[i] < |s.trace.order|
            && s'.nodes[i].log == Cmds(s'.trace.journal[i])
            && s'.nodes[i].tablet == ApplyAll(map[], s'.nodes[i].log)
            && NotBy(s'.trace.journal[i], i) == NotBy(Entries(s.trace.order[..s.trace.consumed[i] + 1]), i)
  {
    var e, seen := s.down[i][0].item.entry, Entries(s.trace.order[..s.trace.consumed[i]]);
    CommitIsNext(s, i);
    CommitMoves(s, i);
    NextSequenced(s.trace.order, s.trace.consumed[i]);
    if e.requestor != i {
      JournalExecutes(s.nodes[i], s.trace.journal[i], seen, i, e);
    } else {
      JournalSpares(s.trace.journal[i], seen, i, e);
    }
  }

  /** A message to another server, or one that executes nothing. */
  lemma ReceiptSpares(s: System, j: nat, i: nat)
    requires Shape(s) && CanDeliverDown(s, j) && IsServer(s, i)
    requires j == i ==> !s.down[i][0].Commit? && !s.down[i][0].Transfer?
    ensures var s' := StepToPeer(s, j);
            && s'.nodes[i].log == s.nodes[i].log && s'.nodes[i].tablet == s.nodes[i].tablet
            && s'.nodes[i].disabled == s.nodes[i].disabled
            && s'.trace.journal[i] == s.trace.journal[i] && s'.trace.consumed[i] == s.trace.consumed[i]
            && s'.trace.order == s.trace.order && s'.trace.stayed == s.trace.stayed
            && s'.sequencer == s.sequencer && (j != i ==> s'.up[i] == s.up[i] && s'.down[i] == s.down[i])
  {
    RightEmpty(s.trace.journal[i]);
  }

  lemma JournalReceives(s: System, i: nat)
    requires Shape(s) && ChainInv(s) && CanDeliverDown(s, i) && s.down[i][0].Commit? && s.trace.stayed[i]
    requires Seen(s, i) <= |s.trace.order| && JournalAt(s, i)
    ensures Seen(StepToPeer(s, i), i) <= |StepToPeer(s, i).trace.order|
    ensures JournalAt(StepToPeer(s, i), i)
  {
    ReceiptChannels(s, i);
    JournalCommit(s, i);
  }

  lemma JournalToPeer(s: System, j: nat, i: nat)
    requires Shape(s) && ChainInv(s) && CanDeliverDown(s, j) && IsServer(s, i) && Steady(s, i)
    requires Seen(s, i) <= |s.trace.order| && JournalAt(s, i)
    ensures Seen(StepToPeer(s, j), i) <= |StepToPeer(s, j).trace.order|
    ensures JournalAt(StepToPeer(s, j), i)
  {
    if j == i && s.down[i][0].Commit? {
      JournalReceives(s, i);
    } else {
      if j == i { ReceiptChannels(s, i); }
      ReceiptSpares(s, j, i);
    }
  }

  lemma SequenceChannels(s: System, e: Entry, i: nat)
    requires Shape(s) && CanSequence(s) && IsServer(s, i)
    ensures TransfersIn(StepSequenceWrite(s, e).down[i]) == TransfersIn(s.down[i])
    ensures StepSequenceWrite(s, e).up == s.up
    ensures StepSequenceWrite(s, e).sequencer.holdQueue == s.sequencer.holdQueue[1..]
  {
    DownConcat(s.down[i], Broadcasts(s.sequencer.stamp, e));
    BroadcastsProject(s.sequencer.stamp, e);
  }

  lemma JournalPrimary(s: System, e: Entry)
    requires Shape(s) && CanSequence(s) && JournalAt(s, PRIMARY)
    ensures var s' := StepSequenceWrite(s, e);
            && s'.nodes[PRIMARY].log == Cmds(s'.trace.journal[PRIMARY])
            && (s.trace.stayed[PRIMARY] ==> s'.nodes[PRIMARY].tablet == ApplyAll(map[], s'.nodes[PRIMARY].log))
            && NotBy(s'.trace.journal[PRIMARY], PRIMARY) == NotBy(Entries(s'.trace.order), PRIMARY)
  {
    var order, x := s.trace.order, Sequenced(s.sequencer.stamp, e);
    EntriesAppend(order, x, |order|);
    NextEntry(Entries(order), e, PRIMARY);
    assert order[..|order|] == order;
    if e.requestor != PRIMARY {
      JournalExecutes(s.nodes[PRIMARY], s.trace.journal[PRIMARY], Entries(order), PRIMARY, e);
    } else {
      assert s.trace.journal[PRIMARY] + [] == s.trace.journal[PRIMARY];
    }
  }

  lemma JournalSequenceWrite(s: System, e: Entry, i: nat)
    requires Shape(s) && ChainInv(s) && CanSequence(s) && s.sequencer.holdQueue[0] == HeldWrite(e) && IsServer(s, i)
    requires Seen(s, i) <= |s.trace.order| && JournalAt(s, i)
    ensures Seen(StepSequenceWrite(s, e), i) <= |StepSequenceWrite(s, e).trace.order|
    ensures JournalAt(StepSequenceWrite(s, e), i)
  {
    var s' := StepSequenceWrite(s, e);
    NoTransferTail(s.sequencer.holdQueue, i);
    SequenceChannels(s, e, i);
    if i == PRIMARY {
      JournalPrimary(s, e);
      assert s'.trace.order[..Seen(s', i)] == s'.trace.order;
    } else {
      EntriesAppend(s.trace.order, Sequenced(s.sequencer.stamp, e), Seen(s, i));
    }
  }

  lemma JournalSequenceTransfer(s: System, r: nat, have: nat, i: nat)
    requires Shape(s) && ChainInv(s) && CanSequence(s) && IsServer(s, i)
    requires s.sequencer.holdQueue[0] == HeldTransfer(r, have)
    requires Seen(s, i) <= |s.trace.order| && JournalAt(s, i)
    ensures JournalAt(StepSequenceTransfer(s, r, have), i)
  {
    NoTransferTail(s.sequencer.holdQueue, i);
  }

  lemma RestartSends(s: System, j: nat, i: nat)
    requires Shape(s) && IsServer(s, j) && IsServer(s, i)
    ensures var s' := StepRestart(s, j);
            && s'.down == s.down && s'.sequencer == s.sequencer && s'.trace == s.trace
            && s'.nodes[i].log == s.nodes[i].log
            && (i != j ==> s'.nodes[i] == s.nodes[i])
            && (i != j || i == PRIMARY ==> s'.up[i] == s.up[i])
  {
  }

  lemma JournalRestart(s: System, j: nat, i: nat)
    requires Shape(s) && ChainInv(s) && IsServer(s, j) && s.nodes[j].disabled && IsServer(s, i) && Steady(s, i)
    requires Seen(s, i) <= |s.trace.order| && JournalAt(s, i)
    ensures JournalAt(StepRestart(s, j), i)
  {
    RestartSends(s, j, i);
  }

  lemma JournalSequence(s: System, i: nat)
    requires Shape(s) && ChainInv(s) && CanSequence(s) && IsServer(s, i)
    requires Seen(s, i) <= |s.trace.order| && JournalAt(s, i)
    ensures Seen(Step(s, Sequence), i) <= |Step(s, Sequence).trace.order|
    ensures JournalAt(Step(s, Sequence), i)
  {
    var h := s.sequencer.holdQueue[0];
    if h.HeldWrite? {
      assert Step(s, Sequence) == StepSequenceWrite(s, h.entry);
      JournalSequenceWrite(s, h.entry, i);
    } else {
      assert Step(s, Sequence) == StepSequenceTransfer(s, h.requestor, h.have);
      JournalSequenceTransfer(s, h.requestor, h.have, i);
    }
  }

  lemma JournalStepAt(s: System, ev: Event, i: nat)
    requires Shape(s) && ChainInv(s) && PipeInv(s) && Enabled(s, ev) && IsServer(s, i)
    requires Seen(s, i) <= |s.trace.order| && JournalAt(s, i) && Steady(s, i) && Steady(Step(s, ev), i)
    ensures Seen(Step(s, ev), i) <= |Step(s, ev).trace.order| && JournalAt(Step(s, ev), i)
  {
    match ev {
      case Write(j, c) => JournalWrite(s, j, c, i);
      case Finish(j) => JournalFinish(s, j, i);
      case ToPrimary(j) => JournalToPrimary(s, j, i);
      case ToPeer(j) => JournalToPeer(s, j, i);
      case Sequence => JournalSequence(s, i);
      case CheckpointTest => JournalTest(s, i);
      case Restart(j) => JournalRestart(s, j, i);
      case _ =>
    }
  }

  lemma SteadyBefore(s: System, ev: Event, i: nat)
    requires Shape(s) && IsServer(s, i) && Steady(Step(s, ev), i)
    ensures Steady(s, i)
  {
    if i != PRIMARY { StayedBefore(s, ev, i); }
  }

  lemma JournalSteps(s: System, ev: Event)
    requires Shape(s) && ChainInv(s) && PipeInv(s) && JournalInv(s)
    ensures ChainInv(Step(s, ev)) && JournalInv(Step(s, ev))
  {
    ChainSteps(s, ev);
    if Enabled(s, ev) {
      var s' := Step(s, ev);
      forall i: nat | IsServer(s', i) && Steady(s', i)
        ensures Seen(s', i) <= |s'.trace.order| && JournalAt(s', i)
      {
        SteadyBefore(s, ev, i);
        assert JournalAt(s, i);
        JournalStepAt(s, ev, i);
      }
    }
  }

  lemma CheckpointIsNoTransfer(q: seq<DownMessage>, stamp: nat)
    ensures TransfersIn(q + [Checkpoint(stamp)]) == TransfersIn(q)
  {
    DownConcat(q, [Checkpoint(stamp)]);
    DownOne(Checkpoint(stamp));
  }

  lemma JournalTest(s: System, i: nat)
    requires Shape(s) && IsServer(s, i)
    requires Seen(s, i) <= |s.trace.order| && JournalAt(s, i)
    ensures Seen(StepCheckpointTest(s), i) <= |StepCheckpointTest(s).trace.order|
    ensures JournalAt(StepCheckpointTest(s), i)
  {
    TestLeavesWrites(s, i);
    TestLeavesStore(s, i);
    CheckpointIsNoTransfer(s.down[i], s.sequencer.stamp);
  }

  // ---- Whole runs ----

  lemma InitialJournal(n: nat, i: nat)
    requires n >= 2 && 1 <= i <= n
    ensures Seen(Initial(n), i) == 0 && JournalAt(Initial(n), i)
  {
    var s := Initial(n);
    assert s.trace.order[..0] == [] && Entries([]) == [] && Cmds([]) == [];
    assert s.up[i] == [] && s.down[i] == [];
  }

  lemma {:induction false} JournalHolds(n: nat, evs: seq<Event>)
    requires n >= 2
    ensures ChainInv(Run(n, evs)) && JournalInv(Run(n, evs))
  {
    OrderHolds(n, evs);
    if evs == [] {
      var s := Run(n, evs);
      assert s == Initial(n);
      forall i: nat | IsServer(s, i) && Steady(s, i) ensures Seen(s, i) <= |s.trace.order| && JournalAt(s, i) {
        InitialJournal(n, i);
      }
    } else {
      var s := Run(n, evs[..|evs| - 1]);
      OrderHolds(n, evs[..|evs| - 1]);
      JournalHolds(n, evs[..|evs| - 1]);
      JournalSteps(s, evs[|evs| - 1]);
    }
  }

  /** In every run, a server that was never disabled has executed through the commit path exactly a prefix of
      the primary's order with its own writes left out; for the primary it is the whole order, whether or not it
      was disabled. */
  lemma CommitPathIsPrefix(n: nat, evs: seq<Event>, i: nat)
    requires n >= 2 && 1 <= i <= n && Steady(Run(n, evs), i)
    ensures var s := Run(n, evs);
            && Seen(s, i) <= |s.trace.order|
            && (i == PRIMARY ==> Seen(s, i) == |s.trace.order|)
            && NotBy(s.trace.journal[i], i) == NotBy(Entries(s.trace.order[..Seen(s, i)]), i)
            && s.nodes[i].log == Cmds(s.trace.journal[i])
            && (s.trace.stayed[i] ==> s.nodes[i].tablet == ApplyAll(map[], s.nodes[i].log))
  {
    JournalHolds(n, evs);
    assert JournalAt(Run(n, evs), i);
  }

  /** In every run each requestor's writes are sequenced in increasing order of their numbers, and numbered
      without gaps. */
  lemma RequestorOrder(n: nat, evs: seq<Event>, j: nat, k: nat)
    requires n >= 2 && j < k < |Run(n, evs).trace.order|
    ensures var order := Run(n, evs).trace.order;
            && (order[j].entry.requestor == order[k].entry.requestor ==>
                  order[j].entry.seqNum < order[k].entry.seqNum)
            && order[k].entry.seqNum == CountBy(order[..k], order[k].entry.requestor)
  {
    OrderHolds(n, evs);
    var order := Run(n, evs).trace.order;
    if order[j].entry.requestor == order[k].entry.requestor {
      NumbersIncrease(order, j, k);
    }
  }

  // ---- Tablets and logs ----

  lemma WalNext(n: nat, evs: seq<Event>, k: nat, i: nat)
    requires n >= 2 && 1 <= i <= n && k < |evs| && WalAt(Run(n, evs[..k]).nodes[i])
    requires i == PRIMARY ==> !AddsWhileDisabled(Run(n, evs[..k]), evs[k])
    ensures WalAt(Run(n, evs[..k + 1]).nodes[i])
  {
    RunNext(n, evs, k);
    WalSteps(Run(n, evs[..k]), evs[k], i);
  }

  lemma WalStarts(n: nat, evs: seq<Event>, i: nat)
    requires n >= 2 && 1 <= i <= n
    ensures WalAt(Run(n, evs[..0]).nodes[i])
  {
    assert Run(n, evs[..0]) == Initial(n);
  }

  lemma {:induction false} WalSoFar(n: nat, evs: seq<Event>, k: nat, i: nat)
    requires n >= 2 && 1 <= i <= n && k <= |evs|
    requires i == PRIMARY ==> forall j :: 0 <= j < k ==> !AddsWhileDisabled(Run(n, evs[..j]), evs[j])
    ensures WalAt(Run(n, evs[..k]).nodes[i])
  {
    if k == 0 {
      WalStarts(n, evs, i);
    } else {
      WalSoFar(n, evs, k - 1, i);
      WalNext(n, evs, k - 1, i);
    }
  }

  lemma RunNext(n: nat, evs: seq<Event>, k: nat)
    requires n >= 2 && k < |evs|
    ensures Run(n, evs[..k + 1]) == Step(Run(n, evs[..k]), evs[k])
  {
    assert evs[..k + 1][..k] == evs[..k];
  }

  lemma StayedBefore(s: System, ev: Event, r: nat)
    requires Shape(s) && IsServer(s, r) && Step(s, ev).trace.stayed[r]
    ensures s.trace.stayed[r]
  {
    if Enabled(s, ev) && ev.ToPrimary? { DeliveryKeeps(s, ev.server, r); }
  }

  lemma {:induction false} StayedSince(n: nat, evs: seq<Event>, k: nat, r: nat)
    requires n >= 2 && 1 <= r <= n && k <= |evs| && Run(n, evs).trace.stayed[r]
    ensures Run(n, evs[..k]).trace.stayed[r]
    decreases |evs| - k
  {
    if k == |evs| {
      assert evs[..k] == evs;
    } else {
      StayedSince(n, evs, k + 1, r);
      RunNext(n, evs, k);
      StayedBefore(Run(n, evs[..k]), evs[k], r);
    }
  }

  /** The command the primary executes on an event, disabled or not. */
  function PrimaryExecutes(s: System, ev: Event): seq<Command>
    requires Shape(s)
  {
    if !Enabled(s, ev) then []
    else match ev
      case Finish(i) => if i == PRIMARY then [s.nodes[PRIMARY].pending.value] else []
      case Sequence =>
        var h := s.sequencer.holdQueue[0];
        if h.HeldWrite? && h.entry.requestor != PRIMARY then [h.entry.cmd] else []
      case _ => []
  }

  lemma PrimaryLogs(s: System, ev: Event)
    requires Shape(s)
    ensures Step(s, ev).nodes[PRIMARY].log == s.nodes[PRIMARY].log + PrimaryExecutes(s, ev)
    ensures PrimaryExecutes(s, ev) != [] ==>
              var node := Step(s, ev).nodes[PRIMARY];
              var done := Execute(s.nodes[PRIMARY], PrimaryExecutes(s, ev)[0]);
              node.tablet == done.tablet && node.log == done.log && node.disabled == done.disabled
  {
    if Enabled(s, ev) {
      if ev.ToPrimary? { DeliveryKeeps(s, ev.server, PRIMARY); }
      if ev.Sequence? { SequencedNode(s); }
    }
    assert s.nodes[PRIMARY].log + [] == s.nodes[PRIMARY].log;
  }

  lemma {:induction false} PrimaryLogGrows(n: nat, evs: seq<Event>, k: nat)
    requires n >= 2 && k <= |evs|
    ensures Run(n, evs[..k]).nodes[PRIMARY].log <= Run(n, evs).nodes[PRIMARY].log
    decreases |evs| - k
  {
    if k == |evs| {
      assert evs[..k] == evs;
    } else {
      PrimaryLogGrows(n, evs, k + 1);
      RunNext(n, evs, k);
      PrimaryLogs(Run(n, evs[..k]), evs[k]);
    }
  }

  lemma AddingBreaks(s: System, ev: Event)
    requires Shape(s) && AddsWhileDisabled(s, ev) && AllFaithful(Step(s, ev).nodes[PRIMARY].log)
    ensures !WalAt(s.nodes[PRIMARY]) || !WalAt(Step(s, ev).nodes[PRIMARY])
  {
    PrimaryLogs(s, ev);
    var c := PrimaryExecutes(s, ev)[0];
    assert PrimaryExecutes(s, ev) == [c];
    if WalAt(s.nodes[PRIMARY]) { WalBreaks(s.nodes[PRIMARY], c); }
  }

  lemma AddingShows(n: nat, evs: seq<Event>, k: nat)
    requires n >= 2 && k < |evs| && AllFaithful(Run(n, evs).nodes[PRIMARY].log)
    requires AddsWhileDisabled(Run(n, evs[..k]), evs[k])
    ensures !WalAt(Run(n, evs[..k]).nodes[PRIMARY]) || !WalAt(Run(n, evs[..k + 1]).nodes[PRIMARY])
  {
    RunNext(n, evs, k);
    PrimaryLogGrows(n, evs, k + 1);
    FaithfulPrefix(Run(n, evs[..k + 1]).nodes[PRIMARY].log, Run(n, evs).nodes[PRIMARY].log);
    AddingBreaks(Run(n, evs[..k]), evs[k]);
  }

  /** All along a run the primary's tablet is the replay of its log while it is enabled, and empty while it is
      disabled, exactly when it adds no user while it is disabled; as long as the log holds no delete command whose
      user the replay misreads. */
  lemma PrimaryTabletIsReplay(n: nat, evs: seq<Event>)
    requires n >= 2 && AllFaithful(Run(n, evs).nodes[PRIMARY].log)
    ensures (forall k :: 0 <= k <= |evs| ==> WalAt(Run(n, evs[..k]).nodes[PRIMARY])) <==>
            (forall k :: 0 <= k < |evs| ==> !AddsWhileDisabled(Run(n, evs[..k]), evs[k]))
  {
    if forall k :: 0 <= k < |evs| ==> !AddsWhileDisabled(Run(n, evs[..k]), evs[k]) {
      forall k | 0 <= k <= |evs| ensures WalAt(Run(n, evs[..k]).nodes[PRIMARY]) { WalSoFar(n, evs, k, PRIMARY); }
    } else {
      var k :| 0 <= k < |evs| && AddsWhileDisabled(Run(n, evs[..k]), evs[k]);
      AddingShows(n, evs, k);
    }
  }

  /** In every run a server's tablet is the replay of its log while it is enabled and empty while it is disabled, as
      long as the log holds no delete command whose user the replay misreads; the primary's too, when it adds no
      user while it is disabled. */
  lemma TabletIsReplay(n: nat, evs: seq<Event>, i: nat)
    requires n >= 2 && 1 <= i <= n && AllFaithful(Run(n, evs).nodes[i].log)
    requires i == PRIMARY ==> forall k :: 0 <= k < |evs| ==> !AddsWhileDisabled(Run(n, evs[..k]), evs[k])
    ensures var node := Run(n, evs).nodes[i];
            node.tablet == if node.disabled then map[] else ReplayAll(map[], node.log)
  {
    WalSoFar(n, evs, |evs|, i);
    assert evs[..|evs|] == evs;
  }
}
