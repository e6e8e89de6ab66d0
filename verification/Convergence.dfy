/** When a run comes to rest, the servers that were never disabled, and the primary, have executed the same writes,
    and agree on every user whose writes were not executed out of the primary's order. */
module Convergence {
  import opened Sequences
  import opened Wrappers
  import opened KeyValue
  import opened WriteAheadLog
  import opened Replication
  import opened Channels
  import opened Ordering
  import opened OwnWrites
  import opened Journals

  // ---- What a server has executed, against what it has seen of the order ----

  /** The write a server's client is waiting for. */
  function PendingOf(s: System, r: nat): seq<Entry>
    requires Shape(s) && IsServer(s, r)
  {
    if s.nodes[r].pending.Some? then [Entry(r, s.nodes[r].seqNum, s.nodes[r].pending.value)] else []
  }

  /** The commits a server has seen. */
  function SeenOf(s: System, r: nat): seq<Entry>
    requires Shape(s) && IsServer(s, r) && Seen(s, r) <= |s.trace.order|
  {
    Entries(s.trace.order[..Seen(s, r)])
  }

  /** The part of the longer of two sequences beyond the shorter. */
  function Beyond<T>(xs: seq<T>, ys: seq<T>): seq<T> {
    if |ys| <= |xs| then xs[|ys|..] else []
  }

  /** Own writes whose commit the server has seen but which it has yet to execute, or which it executed, being
      released early, before it has seen their commit. */
  function Unsettled(journal: seq<Entry>, seen: seq<Entry>, r: nat): seq<Entry> {
    Beyond(By(seen, r), By(journal, r)) + Beyond(By(journal, r), By(seen, r))
  }

  /** The write of another server that an event has server r execute. */
  function ForeignOf(s: System, ev: Event, r: nat): Option<Entry>
    requires Shape(s) && IsServer(s, r) && Enabled(s, ev)
  {
    match ev
    case ToPeer(i) =>
      var m := s.down[i][0];
      if i == r && m.Commit? && m.item.entry.requestor != r then Some(m.item.entry) else None
    case Sequence =>
      var h := s.sequencer.holdQueue[0];
      if r == PRIMARY && h.HeldWrite? && h.entry.requestor != r then Some(h.entry) else None
    case _ => None
  }

  /** None of the writes names the command's user. */
  ghost predicate Apart(es: seq<Entry>, c: Command) {
    forall x :: x in es ==> UserOf(x.cmd) != UserOf(c)
  }

  /** Server r is about to execute another server's write naming a user of one of its own unsettled writes. */
  ghost predicate Contended(s: System, ev: Event, r: nat)
    requires Shape(s) && IsServer(s, r)
  {
    && Enabled(s, ev) && Seen(s, r) <= |s.trace.order| && ForeignOf(s, ev, r).Some?
    && !Apart(Unsettled(s.trace.journal[r], SeenOf(s, r), r), ForeignOf(s, ev, r).value.cmd)
  }

  ghost predicate Uncontended(n: nat, evs: seq<Event>, r: nat)
    requires n >= 2 && 1 <= r <= n
  {
    forall k :: 0 <= k < |evs| ==> !Contended(Run(n, evs[..k]), evs[k], r)
  }

  /** The server executes what it is sent and what it is released to execute. */
  predicate Executing(s: System, r: nat)
    requires Shape(s) && IsServer(s, r)
  {
    r == PRIMARY || !s.nodes[r].disabled
  }

  /** A server's own writes, sequenced or on their way. */
  function Written(s: System, r: nat): seq<Entry>
    requires Shape(s) && IsServer(s, r)
  {
    By(Entries(s.trace.order), r) + PipeOf(s, r)
  }

  /** A server's own writes, executed or pending. */
  function Accounted(s: System, r: nat): seq<Entry>
    requires Shape(s) && IsServer(s, r)
  {
    By(s.trace.journal[r], r) + PendingOf(s, r)
  }

  /** A server's own writes are conserved. */
  predicate Conserved(s: System, r: nat)
    requires Shape(s) && IsServer(s, r)
  {
    Accounted(s, r) == Written(s, r)
  }

  /** The write an event has server r take on. */
  function NewBy(s: System, ev: Event, r: nat): seq<Entry>
    requires Shape(s) && IsServer(s, r)
  {
    if ev.Write? && ev.server == r && CanWrite(s, r) then [BeginWrite(s.nodes[r], r, ev.cmd).1] else []
  }

  // ---- Writes naming one user ----

  function For(es: seq<Entry>, u: string): seq<Entry> {
    if es == [] then []
    else For(es[..|es| - 1], u) + (if UserOf(es[|es| - 1].cmd) == u then [es[|es| - 1]] else [])
  }

  lemma {:induction false} ForConcat(a: seq<Entry>, b: seq<Entry>, u: string)
    ensures For(a + b, u) == For(a, u) + For(b, u)
  {
    if b == [] {
      RightEmpty(a);
      RightEmpty(For(a, u));
    } else {
      var last := b[|b| - 1];
      ForConcat(a, b[..|b| - 1], u);
      Front(a, b);
      Reassociate(For(a, u), For(b[..|b| - 1], u), if UserOf(last.cmd) == u then [last] else []);
    }
  }

  lemma ForOne(e: Entry, u: string)
    ensures For([e], u) == if UserOf(e.cmd) == u then [e] else []
  {
    assert [e][..0] == [];
  }

  lemma {:induction false} ForMembers(es: seq<Entry>, e: Entry, u: string)
    ensures e in For(es, u) <==> e in es && UserOf(e.cmd) == u
  {
    if es != [] {
      ForMembers(es[..|es| - 1], e, u);
      assert es == es[..|es| - 1] + [es[|es| - 1]];
    }
  }

  lemma {:induction false} ForIsNaming(es: seq<Entry>, u: string)
    ensures Cmds(For(es, u)) == Naming(Cmds(es), u)
  {
    if es != [] {
      ForIsNaming(es[..|es| - 1], u);
      assert Cmds(es)[..|es| - 1] == Cmds(es[..|es| - 1]);
    }
  }

  lemma {:induction false} ByConcat(a: seq<Entry>, b: seq<Entry>, r: nat)
    ensures By(a + b, r) == By(a, r) + By(b, r)
  {
    if b == [] {
      RightEmpty(a);
      RightEmpty(By(a, r));
    } else {
      var last := b[|b| - 1];
      ByConcat(a, b[..|b| - 1], r);
      Front(a, b);
      Reassociate(By(a, r), By(b[..|b| - 1], r), if last.requestor == r then [last] else []);
    }
  }

  lemma {:induction false} ByMembers(es: seq<Entry>, e: Entry, r: nat)
    ensures e in By(es, r) <==> e in es && e.requestor == r
  {
    if es != [] {
      ByMembers(es[..|es| - 1], e, r);
      assert es == es[..|es| - 1] + [es[|es| - 1]];
    }
  }

  // ---- One user's writes at one server ----

  /** The two sequences list the same writes of the user in the same order, but for the own writes that only one
      of them lists yet. */
  predicate Tally(a: seq<Entry>, b: seq<Entry>, r: nat, u: string) {
    For(a, u) + For(Beyond(By(b, r), By(a, r)), u) == For(b, u) + For(Beyond(By(a, r), By(b, r)), u)
  }

  predicate Comparable<T(==)>(xs: seq<T>, ys: seq<T>) {
    xs <= ys || ys <= xs
  }

  /** The shorter sequence grows towards the longer. */
  lemma BeyondShorter<T>(x: seq<T>, y: seq<T>, p: T)
    requires |x| < |y| && Comparable(x + [p], y)
    ensures Beyond(y, x) == [p] + Beyond(y, x + [p]) && Beyond(x, y) == [] && Beyond(x + [p], y) == []
  {
    assert y[|x|] == (x + [p])[|x|];
  }

  /** The longer sequence grows. */
  lemma BeyondLonger<T>(x: seq<T>, y: seq<T>, p: T)
    requires |y| <= |x|
    ensures Beyond(x + [p], y) == Beyond(x, y) + [p] && Beyond(y, x) == [] && Beyond(y, x + [p]) == []
  {
  }

  /** One of the sequences lists one more of the own writes. */
  lemma TallyOwn(a: seq<Entry>, b: seq<Entry>, p: Entry, r: nat, u: string)
    requires Tally(a, b, r, u) && p.requestor == r && Comparable(By(a + [p], r), By(b, r))
    ensures Tally(a + [p], b, r, u)
  {
    NextEntry(a, p, r);
    ForConcat(a, [p], u);
    var x, y := By(a, r), By(b, r);
    if |x| < |y| {
      BeyondShorter(x, y, p);
      ForConcat([p], Beyond(y, x + [p]), u);
      Reassociate(For(a, u), For([p], u), For(Beyond(y, x + [p]), u));
    } else {
      BeyondLonger(x, y, p);
      ForConcat(Beyond(x, y), [p], u);
      Reassociate(For(b, u), For(Beyond(x, y), u), For([p], u));
      RightEmpty(For(a, u));
      RightEmpty(For(a + [p], u));
    }
  }

  lemma TallySymmetric(a: seq<Entry>, b: seq<Entry>, r: nat, u: string)
    requires Tally(a, b, r, u)
    ensures Tally(b, a, r, u)
  {
  }

  lemma NoneNaming(es: seq<Entry>, u: string)
    requires forall x :: x in es ==> UserOf(x.cmd) != u
    ensures For(es, u) == []
  {
    if For(es, u) != [] { ForMembers(es, For(es, u)[0], u); }
  }

  lemma OthersAreNotOwn(es: seq<Entry>, e: Entry, r: nat)
    requires e.requestor != r
    ensures By(es + [e], r) == By(es, r)
  {
    NextEntry(es, e, r);
  }

  lemma UnsettledApart(a: seq<Entry>, b: seq<Entry>, r: nat, c: Command)
    requires Apart(Unsettled(a, b, r), c)
    ensures var u := UserOf(c);
            For(Beyond(By(b, r), By(a, r)), u) == [] && For(Beyond(By(a, r), By(b, r)), u) == []
  {
    var u := UserOf(c);
    NoneNaming(Unsettled(a, b, r), u);
    ForConcat(Beyond(By(b, r), By(a, r)), Beyond(By(a, r), By(b, r)), u);
  }

  lemma AppendsAlike(x: seq<Entry>, y: seq<Entry>, late: seq<Entry>, early: seq<Entry>, more: seq<Entry>)
    requires x + late == y + early && (more == [] || (late == [] && early == []))
    ensures (x + more) + late == (y + more) + early
  {
    assert x + [] == x && y + [] == y && x + more + [] == x + more && y + more + [] == y + more;
  }

  /** Both list one more write of another server, which names no user of an unsettled one. */
  lemma TallyForeign(a: seq<Entry>, b: seq<Entry>, e: Entry, r: nat, u: string)
    requires Tally(a, b, r, u) && e.requestor != r && Apart(Unsettled(a, b, r), e.cmd)
    ensures Tally(a + [e], b + [e], r, u)
  {
    OthersAreNotOwn(a, e, r);
    OthersAreNotOwn(b, e, r);
    ForConcat(a, [e], u);
    ForConcat(b, [e], u);
    ForOne(e, u);
    if UserOf(e.cmd) == u { UnsettledApart(a, b, r, e.cmd); }
    AppendsAlike(For(a, u), For(b, u), For(Beyond(By(b, r), By(a, r)), u), For(Beyond(By(a, r), By(b, r)), u),
                 For([e], u));
  }

  // ---- What each event adds to a server's account ----

  /** The commit an event has server r see. */
  function SeenBy(s: System, ev: Event, r: nat): seq<Entry>
    requires Shape(s) && IsServer(s, r) && Enabled(s, ev)
  {
    match ev
    case ToPeer(i) => if i == r && s.down[i][0].Commit? then [s.down[i][0].item.entry] else []
    case Sequence =>
      if r == PRIMARY && s.sequencer.holdQueue[0].HeldWrite? then [s.sequencer.holdQueue[0].entry] else []
    case _ => []
  }

  /** What an event has server r execute. */
  function DoneBy(s: System, ev: Event, r: nat): seq<Entry>
    requires Shape(s) && IsServer(s, r) && Enabled(s, ev)
  {
    if ev == Finish(r) then PendingOf(s, r)
    else if ForeignOf(s, ev, r).Some? then [ForeignOf(s, ev, r).value] else []
  }

  /** What sequencing a write adds to the order and to a server's account. */
  lemma SequenceEffect(s: System, e: Entry, r: nat)
    requires Shape(s) && CanSequence(s) && IsServer(s, r)
    ensures var s', x := StepSequenceWrite(s, e), Sequenced(s.sequencer.stamp, e);
            && s'.trace.order == s.trace.order + [x]
            && Entries(s'.trace.order) == Entries(s.trace.order) + [e]
            && s'.trace.journal[r] ==
               s.trace.journal[r] + (if r == PRIMARY && e.requestor != PRIMARY then [e] else [])
            && s'.sequencer.holdQueue == s.sequencer.holdQueue[1..] && s'.up == s.up
            && s'.trace.consumed == s.trace.consumed
            && PendingOf(s', r) == PendingOf(s, r)
  {
    EntriesAppend(s.trace.order, Sequenced(s.sequencer.stamp, e), 0);
    SequencedNodes(s, e, r);
    assert s.trace.journal[r] + [] == s.trace.journal[r];
  }

  /** What consuming a commit adds to a replica's account. */
  lemma CommitEffect(s: System, r: nat)
    requires Shape(s) && ChainInv(s) && CanDeliverDown(s, r) && s.down[r][0].Commit? && Executing(s, r)
    ensures var s', c, e := StepToPeer(s, r), s.trace.consumed[r], s.down[r][0].item.entry;
            && c < |s.trace.order| && s.trace.order[c].entry == e
            && s'.trace.order == s.trace.order && s'.trace.consumed[r] == c + 1
            && s'.trace.journal[r] == s.trace.journal[r] + (if e.requestor == r then [] else [e])
  {
    CommitIsNext(s, r);
    CommitMoves(s, r);
  }

  /** What an event leaves of a server's account when it is not among the server's own. */
  lemma QuietStep(s: System, ev: Event, r: nat)
    requires Shape(s) && IsServer(s, r) && Enabled(s, ev)
    requires !ev.ToPrimary? && !ev.Sequence? && !(ev.Finish? && ev.server == r)
    requires !(ev.ToPeer? && ev.server == r && s.down[r][0].Commit?)
    ensures var s' := Step(s, ev);
            && s'.trace.order == s.trace.order && s'.trace.consumed[r] == s.trace.consumed[r]
            && s'.trace.journal[r] == s.trace.journal[r]
  {
    assert s.trace.journal[r] + [] == s.trace.journal[r];
  }

  /** The server's account after an event, in what it has executed and what it has seen. */
  ghost predicate Accounts(s: System, ev: Event, r: nat)
    requires Shape(s) && IsServer(s, r) && Enabled(s, ev) && Seen(s, r) <= |s.trace.order|
  {
    var s' := Step(s, ev);
    && Seen(s', r) <= |s'.trace.order|
    && SeenOf(s', r) == SeenOf(s, r) + SeenBy(s, ev, r)
    && s'.trace.journal[r] == s.trace.journal[r] + DoneBy(s, ev, r)
  }

  lemma AccountSame(s: System, ev: Event, r: nat)
    requires Shape(s) && IsServer(s, r) && Enabled(s, ev) && Seen(s, r) <= |s.trace.order|
    requires SeenBy(s, ev, r) == [] && DoneBy(s, ev, r) == []
    requires var s' := Step(s, ev);
             && s'.trace.order == s.trace.order && s'.trace.consumed[r] == s.trace.consumed[r]
             && s'.trace.journal[r] == s.trace.journal[r]
    ensures Accounts(s, ev, r)
  {
  }

  lemma AccountSequence(s: System, r: nat)
    requires Shape(s) && CanSequence(s) && IsServer(s, r) && Seen(s, r) <= |s.trace.order|
    ensures Accounts(s, Sequence, r)
  {
    var h := s.sequencer.holdQueue[0];
    if h.HeldWrite? {
      SequenceEffect(s, h.entry, r);
      EntriesAppend(s.trace.order, Sequenced(s.sequencer.stamp, h.entry), Seen(s, r));
      var s' := StepSequenceWrite(s, h.entry);
      if r == PRIMARY {
        assert s'.trace.order[..Seen(s', r)] == s'.trace.order && s.trace.order[..Seen(s, r)] == s.trace.order;
      }
    } else {
      AccountSame(s, Sequence, r);
    }
  }

  lemma AccountCommit(s: System, r: nat)
    requires Shape(s) && ChainInv(s) && CanDeliverDown(s, r) && s.down[r][0].Commit? && Executing(s, r)
    requires Seen(s, r) <= |s.trace.order|
    ensures Accounts(s, ToPeer(r), r)
  {
    CommitEffect(s, r);
    NextSequenced(s.trace.order, s.trace.consumed[r]);
  }

  lemma AccountFinish(s: System, r: nat)
    requires Shape(s) && CanFinish(s, r) && Executing(s, r) && Seen(s, r) <= |s.trace.order|
    ensures Accounts(s, Finish(r), r)
  {
    assert SeenOf(s, r) + [] == SeenOf(s, r);
  }

  lemma AccountStep(s: System, ev: Event, r: nat)
    requires Shape(s) && ChainInv(s) && IsServer(s, r) && Executing(s, r) && Enabled(s, ev)
    requires Seen(s, r) <= |s.trace.order|
    ensures Accounts(s, ev, r)
  {
    if ev.Sequence? {
      AccountSequence(s, r);
    } else if ev.ToPrimary? {
      DeliveryKeeps(s, ev.server, r);
      AccountSame(s, ev, r);
    } else if ev == Finish(r) {
      AccountFinish(s, r);
    } else if ev == ToPeer(r) && s.down[r][0].Commit? {
      AccountCommit(s, r);
    } else {
      QuietStep(s, ev, r);
      AccountSame(s, ev, r);
    }
  }

  // ---- Conservation of own writes ----

  lemma WrittenSame(s: System, s': System, r: nat)
    requires Shape(s) && Shape(s') && IsServer(s, r) && IsServer(s', r)
    requires s'.trace.order == s.trace.order && PipeOf(s', r) == PipeOf(s, r)
    ensures Written(s', r) == Written(s, r) + []
  {
    assert Written(s, r) + [] == Written(s, r);
  }

  lemma WrittenWrite(s: System, i: nat, c: Command, r: nat)
    requires Shape(s) && CanWrite(s, i) && IsServer(s, r) && s.up[PRIMARY] == []
    ensures Written(StepWrite(s, i, c), r) == Written(s, r) + NewBy(s, Write(i, c), r)
  {
    WriteJoinsPipe(s, i, c, r);
    assert StepWrite(s, i, c).trace.order == s.trace.order;
    Reassociate(By(Entries(s.trace.order), r), PipeOf(s, r), NewBy(s, Write(i, c), r));
  }

  lemma WrittenDelivery(s: System, i: nat, r: nat)
    requires Shape(s) && PipeInv(s) && CanDeliverUp(s, i) && IsServer(s, r)
    ensures Written(StepToPrimary(s, i), r) == Written(s, r) + []
  {
    DeliveryKeeps(s, i, r);
    if s.up[i][0].Ack? { AckLeavesWrites(s, i, r); } else { RequestLeavesWrites(s, i, r); }
    WrittenSame(s, StepToPrimary(s, i), r);
  }

  lemma WrittenReceipt(s: System, i: nat, r: nat)
    requires Shape(s) && CanDeliverDown(s, i) && IsServer(s, r)
    ensures Written(StepToPeer(s, i), r) == Written(s, r) + []
  {
    ReceiptForOwn(s, i);
    WrittenSame(s, StepToPeer(s, i), r);
  }

  /** The head of the hold queue leaves its requestor's pipeline. */
  lemma HeadLeavesPipe(s: System, e: Entry, r: nat)
    requires Shape(s) && CanSequence(s) && s.sequencer.holdQueue[0] == HeldWrite(e) && IsServer(s, r)
    ensures PipeOf(s, r) == (if e.requestor == r then [e] else []) + Pipe(s.sequencer.holdQueue[1..], s.up[r], r)
  {
    WritesHead(s.sequencer.holdQueue, r);
  }

  lemma WrittenSequence(s: System, e: Entry, r: nat)
    requires Shape(s) && CanSequence(s) && s.sequencer.holdQueue[0] == HeldWrite(e) && IsServer(s, r)
    ensures Written(StepSequenceWrite(s, e), r) == Written(s, r) + []
  {
    var own := if e.requestor == r then [e] else [];
    SequenceEffect(s, e, r);
    HeadLeavesPipe(s, e, r);
    NextEntry(Entries(s.trace.order), e, r);
    Reassociate(By(Entries(s.trace.order), r), own, PipeOf(StepSequenceWrite(s, e), r));
    assert Written(s, r) + [] == Written(s, r);
  }

  lemma WrittenTransfer(s: System, q: nat, have: nat, r: nat)
    requires Shape(s) && CanSequence(s) && s.sequencer.holdQueue[0] == HeldTransfer(q, have) && IsServer(s, r)
    ensures Written(StepSequenceTransfer(s, q, have), r) == Written(s, r) + []
  {
    TransferLeavesWrites(s, q, have, r);
    WrittenSame(s, StepSequenceTransfer(s, q, have), r);
  }

  lemma WrittenRestart(s: System, i: nat, r: nat)
    requires Shape(s) && IsServer(s, i) && IsServer(s, r)
    ensures Written(StepRestart(s, i), r) == Written(s, r) + []
  {
    TransferIsNoWrite(s.up[i], i, |s.nodes[i].log|, r);
    WrittenSame(s, StepRestart(s, i), r);
  }

  /** Nothing but a client's request adds to a server's writes, and none is lost on its way. */
  lemma WrittenSteps(s: System, ev: Event, r: nat)
    requires Shape(s) && PipeInv(s) && IsServer(s, r)
    ensures Written(Step(s, ev), r) == Written(s, r) + NewBy(s, ev, r)
  {
    if Enabled(s, ev) {
      match ev {
        case Write(i, c) => WrittenWrite(s, i, c, r);
        case ToPrimary(i) => WrittenDelivery(s, i, r);
        case ToPeer(i) => WrittenReceipt(s, i, r);
        case Sequence =>
          var h := s.sequencer.holdQueue[0];
          if h.HeldWrite? { WrittenSequence(s, h.entry, r); } else { WrittenTransfer(s, h.requestor, h.have, r); }
        case Restart(i) => WrittenRestart(s, i, r);
        case _ => WrittenSame(s, Step(s, ev), r);
      }
    } else {
      WrittenSame(s, s, r);
    }
  }

  lemma AccountedSame(s: System, s': System, r: nat)
    requires Shape(s) && Shape(s') && IsServer(s, r) && IsServer(s', r)
    requires By(s'.trace.journal[r], r) == By(s.trace.journal[r], r) && PendingOf(s', r) == PendingOf(s, r)
    ensures Accounted(s', r) == Accounted(s, r) + []
  {
    assert Accounted(s, r) + [] == Accounted(s, r);
  }

  lemma AccountedWrite(s: System, i: nat, c: Command, r: nat)
    requires Shape(s) && CanWrite(s, i) && IsServer(s, r)
    ensures Accounted(StepWrite(s, i, c), r) == Accounted(s, r) + NewBy(s, Write(i, c), r)
  {
    if i == r {
      assert PendingOf(StepWrite(s, i, c), r) == NewBy(s, Write(i, c), r);
      Reassociate(By(s.trace.journal[r], r), PendingOf(s, r), NewBy(s, Write(i, c), r));
    } else {
      AccountedSame(s, StepWrite(s, i, c), r);
    }
  }

  /** A pending write is among those executed once it has finished. */
  lemma FinishMoves(s: System, r: nat)
    requires Shape(s) && CanFinish(s, r) && Executing(s, r)
    ensures var s', own := StepFinish(s, r), PendingOf(s, r);
            && |own| == 1 && own[0].requestor == r && PendingOf(s', r) == []
            && s'.trace.journal[r] == s.trace.journal[r] + [own[0]]
  {
  }

  lemma AccountedFinish(s: System, i: nat, r: nat)
    requires Shape(s) && CanFinish(s, i) && IsServer(s, r) && Executing(s, r)
    ensures Accounted(StepFinish(s, i), r) == Accounted(s, r) + []
  {
    if i == r {
      FinishMoves(s, r);
      Single(PendingOf(s, r));
      NextEntry(s.trace.journal[r], PendingOf(s, r)[0], r);
      RightEmpty(Accounted(s, r));
      RightEmpty(By(StepFinish(s, i).trace.journal[r], r));
    } else {
      AccountedSame(s, StepFinish(s, i), r);
    }
  }

  lemma AccountedDelivery(s: System, i: nat, r: nat)
    requires Shape(s) && CanDeliverUp(s, i) && IsServer(s, r)
    ensures Accounted(StepToPrimary(s, i), r) == Accounted(s, r) + []
  {
    DeliveryKeeps(s, i, r);
    DeliveryKeepsPending(s, i, r);
    AccountedSame(s, StepToPrimary(s, i), r);
  }

  lemma AccountedReceipt(s: System, i: nat, r: nat)
    requires Shape(s) && CanDeliverDown(s, i) && IsServer(s, r)
    ensures Accounted(StepToPeer(s, i), r) == Accounted(s, r) + []
  {
    var journal, m := s.trace.journal[r], s.down[i][0];
    if i == r {
      ReceiptForOwn(s, i);
      if m.Commit? { NextEntry(journal, m.item.entry, r); }
      assert journal + [] == journal;
    }
    AccountedSame(s, StepToPeer(s, i), r);
  }

  lemma NoneAdded(es: seq<Entry>, e: Entry, r: nat, more: seq<Entry>)
    requires e.requestor != r && (more == [] || more == [e])
    ensures By(es + more, r) == By(es, r)
  {
    if more == [] { assert es + more == es; } else { OthersAreNotOwn(es, e, r); }
  }

  lemma AccountedSequence(s: System, e: Entry, r: nat)
    requires Shape(s) && CanSequence(s) && IsServer(s, r)
    ensures Accounted(StepSequenceWrite(s, e), r) == Accounted(s, r) + []
  {
    SequenceEffect(s, e, r);
    var more := if r == PRIMARY && e.requestor != PRIMARY then [e] else [];
    if more == [] { assert s.trace.journal[r] + more == s.trace.journal[r]; }
    else { NoneAdded(s.trace.journal[r], e, r, more); }
    AccountedSame(s, StepSequenceWrite(s, e), r);
  }

  lemma AccountedSequenceStep(s: System, r: nat)
    requires Shape(s) && CanSequence(s) && IsServer(s, r)
    ensures Accounted(Step(s, Sequence), r) == Accounted(s, r) + []
  {
    var h := s.sequencer.holdQueue[0];
    SequenceIs(s);
    if h.HeldWrite? {
      AccountedSequence(s, h.entry, r);
    } else {
      AccountedSame(s, StepSequenceTransfer(s, h.requestor, h.have), r);
    }
  }

  lemma AccountedAdministration(s: System, ev: Event, r: nat)
    requires Shape(s) && IsServer(s, r) && Enabled(s, ev)
    requires ev.CheckpointTest? || ev.EndBarrier? || ev.Disable? || ev.Restart?
    ensures Accounted(Step(s, ev), r) == Accounted(s, r) + []
  {
    AccountedSame(s, Step(s, ev), r);
  }

  lemma AccountedRequests(s: System, ev: Event, r: nat)
    requires Shape(s) && IsServer(s, r) && Executing(s, r) && Enabled(s, ev) && (ev.Write? || ev.Finish?)
    ensures Accounted(Step(s, ev), r) == Accounted(s, r) + NewBy(s, ev, r)
  {
    if ev.Write? {
      WriteIs(s, ev.server, ev.cmd);
      AccountedWrite(s, ev.server, ev.cmd, r);
    } else {
      FinishIs(s, ev.server);
      AccountedFinish(s, ev.server, r);
    }
  }

  lemma AccountedDeliveries(s: System, ev: Event, r: nat)
    requires Shape(s) && IsServer(s, r) && Enabled(s, ev) && (ev.ToPrimary? || ev.ToPeer?)
    ensures Accounted(Step(s, ev), r) == Accounted(s, r) + []
  {
    if ev.ToPrimary? {
      ToPrimaryIs(s, ev.server);
      AccountedDelivery(s, ev.server, r);
    } else {
      ToPeerIs(s, ev.server);
      AccountedReceipt(s, ev.server, r);
    }
  }

  /** A server that executes what it should accounts for every write its clients requested. */
  lemma AccountedSteps(s: System, ev: Event, r: nat)
    requires Shape(s) && IsServer(s, r) && Executing(s, r)
    ensures Accounted(Step(s, ev), r) == Accounted(s, r) + NewBy(s, ev, r)
  {
    if !Enabled(s, ev) {
      AccountedSame(s, s, r);
    } else if ev.Write? || ev.Finish? {
      AccountedRequests(s, ev, r);
    } else if ev.ToPrimary? || ev.ToPeer? {
      AccountedDeliveries(s, ev, r);
    } else if ev.Sequence? {
      AccountedSequenceStep(s, r);
    } else {
      AccountedAdministration(s, ev, r);
    }
  }

  lemma ConservedSteps(s: System, ev: Event, r: nat)
    requires Shape(s) && PipeInv(s) && IsServer(s, r) && Executing(s, r) && Conserved(s, r)
    ensures Conserved(Step(s, ev), r)
  {
    WrittenSteps(s, ev, r);
    AccountedSteps(s, ev, r);
  }

  // ---- One user's writes, step by step ----

  /** What a server has executed of its own writes and what it has seen of them are both prefixes of its writes. */
  lemma OwnPrefixes(s: System, r: nat)
    requires Shape(s) && IsServer(s, r) && Seen(s, r) <= |s.trace.order| && Conserved(s, r)
    ensures By(s.trace.journal[r], r) <= By(Entries(s.trace.order), r) + PipeOf(s, r)
    ensures By(SeenOf(s, r), r) <= By(Entries(s.trace.order), r) + PipeOf(s, r)
  {
    var order, c := s.trace.order, Seen(s, r);
    assert Entries(order) == Entries(order[..c]) + Entries(order[c..]);
    ByConcat(Entries(order[..c]), Entries(order[c..]), r);
  }

  ghost predicate UserOrder(s: System, r: nat)
    requires Shape(s) && IsServer(s, r) && Seen(s, r) <= |s.trace.order|
  {
    forall u :: Tally(s.trace.journal[r], SeenOf(s, r), r, u)
  }

  lemma TallySees(journal: seq<Entry>, seen: seq<Entry>, e: Entry, r: nat, u: string)
    requires Tally(journal, seen, r, u) && e.requestor == r && Comparable(By(journal, r), By(seen + [e], r))
    ensures Tally(journal, seen + [e], r, u)
  {
    TallySymmetric(journal, seen, r, u);
    TallyOwn(seen, journal, e, r, u);
    TallySymmetric(seen + [e], journal, r, u);
  }

  /** What one event may add: another server's write to both accounts, or an own one to either. */
  ghost predicate Advances(journal: seq<Entry>, seen: seq<Entry>, done: seq<Entry>, saw: seq<Entry>, r: nat) {
    || (done == [] && saw == [])
    || (|done| == 1 && saw == [] && done[0].requestor == r)
    || (done == [] && |saw| == 1 && saw[0].requestor == r)
    || (|done| == 1 && saw == done && done[0].requestor != r && Apart(Unsettled(journal, seen, r), done[0].cmd))
  }

  lemma TallyStep(journal: seq<Entry>, seen: seq<Entry>, done: seq<Entry>, saw: seq<Entry>, r: nat, u: string)
    requires Tally(journal, seen, r, u) && Advances(journal, seen, done, saw, r)
    requires Comparable(By(journal + done, r), By(seen + saw, r))
    ensures Tally(journal + done, seen + saw, r, u)
  {
    RightEmpty(journal);
    RightEmpty(seen);
    if done != [] && saw == [] {
      Single(done);
      TallyOwn(journal, seen, done[0], r, u);
    } else if done == [] && saw != [] {
      Single(saw);
      TallySees(journal, seen, saw[0], r, u);
    } else if done != [] {
      Single(done);
      TallyForeign(journal, seen, done[0], r, u);
    }
  }

  lemma TalliesStep(journal: seq<Entry>, seen: seq<Entry>, done: seq<Entry>, saw: seq<Entry>, r: nat)
    requires (forall u :: Tally(journal, seen, r, u)) && Advances(journal, seen, done, saw, r)
    requires Comparable(By(journal + done, r), By(seen + saw, r))
    ensures forall u :: Tally(journal + done, seen + saw, r, u)
  {
    forall u ensures Tally(journal + done, seen + saw, r, u) {
      TallyStep(journal, seen, done, saw, r, u);
    }
  }

  lemma AccountAdvances(s: System, ev: Event, r: nat)
    requires Shape(s) && IsServer(s, r) && Enabled(s, ev) && Seen(s, r) <= |s.trace.order| && !Contended(s, ev, r)
    ensures Advances(s.trace.journal[r], SeenOf(s, r), DoneBy(s, ev, r), SeenBy(s, ev, r), r)
  {
  }

  lemma UserOrderSteps(s: System, ev: Event, r: nat)
    requires Shape(s) && ChainInv(s) && PipeInv(s) && IsServer(s, r) && Executing(s, r) && Conserved(s, r)
    requires Seen(s, r) <= |s.trace.order| && UserOrder(s, r) && !Contended(s, ev, r)
    ensures Seen(Step(s, ev), r) <= |Step(s, ev).trace.order| && UserOrder(Step(s, ev), r)
  {
    if Enabled(s, ev) {
      AccountStep(s, ev, r);
      AccountAdvances(s, ev, r);
      ConservedSteps(s, ev, r);
      OwnPrefixes(Step(s, ev), r);
      UserOrderAdvances(s, Step(s, ev), DoneBy(s, ev, r), SeenBy(s, ev, r), r);
    }
  }

  lemma UserOrderAdvances(s: System, s': System, done: seq<Entry>, saw: seq<Entry>, r: nat)
    requires Shape(s) && Shape(s') && IsServer(s, r) && IsServer(s', r)
    requires Seen(s, r) <= |s.trace.order| && Seen(s', r) <= |s'.trace.order|
    requires UserOrder(s, r) && Advances(s.trace.journal[r], SeenOf(s, r), done, saw, r)
    requires s'.trace.journal[r] == s.trace.journal[r] + done && SeenOf(s', r) == SeenOf(s, r) + saw
    requires Comparable(By(s'.trace.journal[r], r), By(SeenOf(s', r), r))
    ensures UserOrder(s', r)
  {
    TalliesStep(s.trace.journal[r], SeenOf(s, r), done, saw, r);
  }

  // ---- Whole runs ----

  /** What is known of a steady server before each step of a run. */
  lemma Standing(n: nat, evs: seq<Event>, r: nat)
    requires n >= 2 && 1 <= r <= n && Steady(Run(n, evs), r)
    ensures var s := Run(n, evs);
            && ChainInv(s) && PipeInv(s) && Executing(s, r) && Seen(s, r) <= |s.trace.order|
            && NotBy(s.trace.journal[r], r) == NotBy(SeenOf(s, r), r)
  {
    OrderHolds(n, evs);
    JournalHolds(n, evs);
    assert JournalAt(Run(n, evs), r);
  }

  lemma {:induction false} ConservedHolds(n: nat, evs: seq<Event>, r: nat)
    requires n >= 2 && 1 <= r <= n && Steady(Run(n, evs), r)
    ensures Conserved(Run(n, evs), r)
  {
    if evs != [] {
      var front := evs[..|evs| - 1];
      SteadyBefore(Run(n, front), evs[|evs| - 1], r);
      ConservedHolds(n, front, r);
      Standing(n, front, r);
      ConservedSteps(Run(n, front), evs[|evs| - 1], r);
    }
  }

  lemma UserOrderStarts(n: nat, r: nat)
    requires n >= 2 && 1 <= r <= n
    ensures Seen(Initial(n), r) == 0 && UserOrder(Initial(n), r)
  {
  }

  lemma UserOrderNext(n: nat, evs: seq<Event>, ev: Event, r: nat)
    requires n >= 2 && 1 <= r <= n && Steady(Run(n, evs), r) && !Contended(Run(n, evs), ev, r)
    requires Seen(Run(n, evs), r) <= |Run(n, evs).trace.order| && UserOrder(Run(n, evs), r)
    ensures var s' := Step(Run(n, evs), ev); Seen(s', r) <= |s'.trace.order| && UserOrder(s', r)
  {
    ConservedHolds(n, evs, r);
    Standing(n, evs, r);
    UserOrderSteps(Run(n, evs), ev, r);
  }

  lemma {:induction false} UserOrderHolds(n: nat, evs: seq<Event>, k: nat, r: nat)
    requires n >= 2 && 1 <= r <= n && k <= |evs| && Steady(Run(n, evs[..k]), r) && Uncontended(n, evs, r)
    ensures Seen(Run(n, evs[..k]), r) <= |Run(n, evs[..k]).trace.order| && UserOrder(Run(n, evs[..k]), r)
  {
    if k == 0 {
      assert evs[..0] == [];
      UserOrderStarts(n, r);
    } else {
      RunNext(n, evs, k - 1);
      SteadyBefore(Run(n, evs[..k - 1]), evs[k - 1], r);
      UserOrderHolds(n, evs, k - 1, r);
      UserOrderNext(n, evs[..k - 1], evs[k - 1], r);
    }
  }

  /** At rest, everything sequenced has been seen by every server, and nothing is left to execute. */
  lemma RestIsComplete(n: nat, evs: seq<Event>, r: nat)
    requires n >= 2 && 1 <= r <= n && Quiescent(Run(n, evs))
    ensures var s := Run(n, evs);
            && Seen(s, r) == |s.trace.order| && SeenOf(s, r) == Entries(s.trace.order)
            && PipeOf(s, r) == [] && PendingOf(s, r) == []
  {
    OrderHolds(n, evs);
    var s := Run(n, evs);
    if r != PRIMARY {
      assert Chain(s.trace.order, s.trace.consumed[r], s.trace.acked[r], s.up[r], s.down[r]);
      assert |s.trace.order[s.trace.consumed[r]..]| == 0;
    }
    assert s.trace.order[..|s.trace.order|] == s.trace.order;
  }

  // ---- Contention shows at the end ----

  predicate Distinct<T(==)>(xs: seq<T>) {
    forall i, j :: 0 <= i < j < |xs| ==> xs[i] != xs[j]
  }

  lemma ForPrefix(a: seq<Entry>, b: seq<Entry>, u: string)
    requires a <= b
    ensures For(a, u) <= For(b, u)
  {
    ForConcat(a, b[|a|..], u);
    assert a + b[|a|..] == b;
  }

  lemma {:induction false} ForDistinct(es: seq<Entry>, u: string)
    requires Distinct(es)
    ensures Distinct(For(es, u))
  {
    if es != [] {
      ForDistinct(es[..|es| - 1], u);
      ForMembers(es[..|es| - 1], es[|es| - 1], u);
    }
  }

  lemma OrderDistinct(order: seq<Sequenced>)
    requires Numbered(order)
    ensures Distinct(Entries(order))
  {
    forall i, j | 0 <= i < j < |order| && order[i].entry == order[j].entry ensures false {
      IdsDistinct(order, i, j);
    }
  }

  lemma SameSpot<T>(f: seq<T>, x: seq<T>, y: seq<T>, e: T)
    requires Distinct(f) && x + [e] <= f && y + [e] <= f
    ensures x == y
  {
    assert f[|x|] == (x + [e])[|x|] && f[|y|] == (y + [e])[|y|];
    assert x == f[..|x|] && y == f[..|y|];
  }

  /** A write executed before the user's earlier one leaves its mark on the user's order. */
  lemma OvertakingShows(a: seq<Entry>, b: seq<Entry>, fa: seq<Entry>, fb: seq<Entry>, e: Entry, x: Entry)
    requires a + [e] <= fa && b + [e] <= fb && Distinct(fb)
    requires (x in a <==> x !in b) && UserOf(x.cmd) == UserOf(e.cmd)
    ensures For(fa, UserOf(e.cmd)) != For(fb, UserOf(e.cmd))
  {
    var u := UserOf(e.cmd);
    ForPrefix(a + [e], fa, u);
    ForPrefix(b + [e], fb, u);
    ForConcat(a, [e], u);
    ForConcat(b, [e], u);
    ForOne(e, u);
    ForMembers(a, x, u);
    ForMembers(b, x, u);
    if For(fa, u) == For(fb, u) {
      ForDistinct(fb, u);
      SameSpot(For(fb, u), For(a, u), For(b, u), e);
    }
  }

  lemma {:induction false} ByNumbers(order: seq<Sequenced>, r: nat)
    requires Numbered(order)
    ensures |By(Entries(order), r)| == CountBy(order, r)
    ensures NumberedFrom(By(Entries(order), r), r, 0)
  {
    if order != [] {
      var front, last := order[..|order| - 1], order[|order| - 1];
      assert Numbered(front) by {
        forall j | 0 <= j < |front| ensures front[j].entry.seqNum == CountBy(front[..j], front[j].entry.requestor) {
          assert front[..j] == order[..j];
        }
      }
      ByNumbers(front, r);
      assert Entries(order)[..|order| - 1] == Entries(front);
    }
  }

  /** A server's own writes, sequenced or on their way, are numbered without gaps. */
  lemma OwnNumbers(s: System, r: nat)
    requires Shape(s) && PipeInv(s) && IsServer(s, r)
    ensures NumberedFrom(By(Entries(s.trace.order), r) + PipeOf(s, r), r, 0)
  {
    ByNumbers(s.trace.order, r);
    PipeIs(s, r);
  }

  lemma BeyondIsNew(all: seq<Entry>, longer: seq<Entry>, shorter: seq<Entry>, r: nat, first: nat, x: Entry)
    requires NumberedFrom(all, r, first) && longer <= all && shorter <= all && x in Beyond(longer, shorter)
    ensures x in longer && x !in shorter && x.requestor == r
  {
    var k :| 0 <= k < |Beyond(longer, shorter)| && Beyond(longer, shorter)[k] == x;
    assert all[|shorter| + k] == longer[|shorter| + k] == x;
    forall j | 0 <= j < |shorter| ensures shorter[j].seqNum == first + j {
      assert all[j] == shorter[j];
    }
  }

  /** An unsettled write has been executed or seen, but not both. */
  lemma OneSided(journal: seq<Entry>, seen: seq<Entry>, all: seq<Entry>, r: nat, first: nat, x: Entry)
    requires NumberedFrom(all, r, first) && By(journal, r) <= all && By(seen, r) <= all
    requires x in Unsettled(journal, seen, r)
    ensures x in journal <==> x !in seen
  {
    ByMembers(journal, x, r);
    ByMembers(seen, x, r);
    if x in Beyond(By(seen, r), By(journal, r)) {
      BeyondIsNew(all, By(seen, r), By(journal, r), r, first, x);
    } else {
      BeyondIsNew(all, By(journal, r), By(seen, r), r, first, x);
    }
  }

  lemma UnsettledIsOneSided(s: System, r: nat, x: Entry)
    requires Shape(s) && PipeInv(s) && IsServer(s, r) && Seen(s, r) <= |s.trace.order| && Conserved(s, r)
    requires x in Unsettled(s.trace.journal[r], SeenOf(s, r), r)
    ensures x in s.trace.journal[r] <==> x !in SeenOf(s, r)
  {
    OwnNumbers(s, r);
    OwnPrefixes(s, r);
    OneSided(s.trace.journal[r], SeenOf(s, r), By(Entries(s.trace.order), r) + PipeOf(s, r), r, 0, x);
  }

  lemma AccountGrows(s: System, ev: Event, r: nat)
    requires Shape(s) && ChainInv(s) && IsServer(s, r) && Executing(s, r) && Seen(s, r) <= |s.trace.order|
    ensures s.trace.journal[r] <= Step(s, ev).trace.journal[r]
    ensures Seen(Step(s, ev), r) <= |Step(s, ev).trace.order| && SeenOf(s, r) <= SeenOf(Step(s, ev), r)
  {
    if Enabled(s, ev) { AccountStep(s, ev, r); }
  }

  lemma {:induction false} RunGrows(n: nat, evs: seq<Event>, k: nat, r: nat)
    requires n >= 2 && 1 <= r <= n && k <= |evs| && Steady(Run(n, evs), r)
    ensures var s, s' := Run(n, evs[..k]), Run(n, evs);
            && Steady(s, r) && s.trace.journal[r] <= s'.trace.journal[r]
            && Seen(s, r) <= |s.trace.order| && Seen(s', r) <= |s'.trace.order| && SeenOf(s, r) <= SeenOf(s', r)
    decreases |evs| - k
  {
    if k == |evs| {
      assert evs[..k] == evs;
      Standing(n, evs, r);
    } else {
      RunGrows(n, evs, k + 1, r);
      RunNext(n, evs, k);
      SteadyBefore(Run(n, evs[..k]), evs[k], r);
      Standing(n, evs[..k], r);
      AccountGrows(Run(n, evs[..k]), evs[k], r);
    }
  }

  /** At a contended step both accounts gain the same write, and one of them lacks an earlier one of its user. */
  lemma ContendedStep(s: System, ev: Event, r: nat) returns (e: Entry, x: Entry)
    requires Shape(s) && ChainInv(s) && PipeInv(s) && IsServer(s, r) && Executing(s, r) && Conserved(s, r)
    requires Seen(s, r) <= |s.trace.order| && Contended(s, ev, r)
    ensures Seen(Step(s, ev), r) <= |Step(s, ev).trace.order|
    ensures s.trace.journal[r] + [e] == Step(s, ev).trace.journal[r]
    ensures SeenOf(s, r) + [e] == SeenOf(Step(s, ev), r)
    ensures (x in s.trace.journal[r] <==> x !in SeenOf(s, r)) && UserOf(x.cmd) == UserOf(e.cmd)
  {
    AccountStep(s, ev, r);
    e := ForeignOf(s, ev, r).value;
    x :| x in Unsettled(s.trace.journal[r], SeenOf(s, r), r) && UserOf(x.cmd) == UserOf(e.cmd);
    UnsettledIsOneSided(s, r, x);
  }

  /** The accounts around a contended step, within those at the end of the run. */
  lemma ContendedRun(n: nat, evs: seq<Event>, k: nat, r: nat) returns (e: Entry, x: Entry)
    requires n >= 2 && 1 <= r <= n && k < |evs| && Steady(Run(n, evs), r)
    requires Contended(Run(n, evs[..k]), evs[k], r)
    ensures var s, s' := Run(n, evs[..k]), Run(n, evs);
            && Seen(s, r) <= |s.trace.order| && Seen(s', r) <= |s'.trace.order|
            && s.trace.journal[r] + [e] <= s'.trace.journal[r] && SeenOf(s, r) + [e] <= SeenOf(s', r)
            && (x in s.trace.journal[r] <==> x !in SeenOf(s, r)) && UserOf(x.cmd) == UserOf(e.cmd)
  {
    RunGrows(n, evs, k, r);
    RunGrows(n, evs, k + 1, r);
    RunNext(n, evs, k);
    Standing(n, evs[..k], r);
    ConservedHolds(n, evs[..k], r);
    e, x := ContendedStep(Run(n, evs[..k]), evs[k], r);
  }

  lemma OrderIsDistinct(n: nat, evs: seq<Event>, r: nat)
    requires n >= 2 && 1 <= r <= n && Seen(Run(n, evs), r) == |Run(n, evs).trace.order|
    ensures SeenOf(Run(n, evs), r) == Entries(Run(n, evs).trace.order) && Distinct(SeenOf(Run(n, evs), r))
  {
    var order := Run(n, evs).trace.order;
    OrderHolds(n, evs);
    OrderDistinct(order);
    assert order[..|order|] == order;
  }

  /** Each contended step leaves some user's writes in a different order. */
  lemma ContentionShows(n: nat, evs: seq<Event>, k: nat, r: nat) returns (u: string)
    requires n >= 2 && 1 <= r <= n && k < |evs| && Steady(Run(n, evs), r)
    requires Seen(Run(n, evs), r) == |Run(n, evs).trace.order|
    requires Contended(Run(n, evs[..k]), evs[k], r)
    ensures For(Run(n, evs).trace.journal[r], u) != For(Entries(Run(n, evs).trace.order), u)
  {
    var s, s' := Run(n, evs[..k]), Run(n, evs);
    var e, x := ContendedRun(n, evs, k, r);
    OrderIsDistinct(n, evs, r);
    OvertakingShows(s.trace.journal[r], SeenOf(s, r), s'.trace.journal[r], SeenOf(s', r), e, x);
    u := UserOf(e.cmd);
  }

  // ---- Nothing unsettled ----

  /** The server has executed exactly those of its own writes whose commit it has seen. */
  predicate AllSettled(s: System, r: nat)
    requires Shape(s) && IsServer(s, r) && Seen(s, r) <= |s.trace.order|
  {
    Unsettled(s.trace.journal[r], SeenOf(s, r), r) == []
  }

  lemma SettledOwn(s: System, r: nat)
    requires Shape(s) && IsServer(s, r) && Seen(s, r) <= |s.trace.order| && Conserved(s, r)
    ensures AllSettled(s, r) <==> By(s.trace.journal[r], r) == By(SeenOf(s, r), r)
  {
    OwnPrefixes(s, r);
    var x, y, all := By(s.trace.journal[r], r), By(SeenOf(s, r), r), Written(s, r);
    if AllSettled(s, r) {
      assert |x| == |y|;
      assert x == all[..|x|] && y == all[..|y|];
    }
  }

  lemma TallySettled(a: seq<Entry>, b: seq<Entry>, r: nat, u: string)
    requires Tally(a, b, r, u) && By(a, r) == By(b, r)
    ensures For(a, u) == For(b, u)
  {
    assert For(a, u) + [] == For(a, u) && For(b, u) + [] == For(b, u);
  }

  lemma SettledWrites(s: System, r: nat)
    requires Shape(s) && IsServer(s, r) && Seen(s, r) <= |s.trace.order| && Conserved(s, r) && AllSettled(s, r)
    requires NotBy(s.trace.journal[r], r) == NotBy(SeenOf(s, r), r)
    ensures multiset(s.trace.journal[r]) == multiset(SeenOf(s, r))
  {
    SettledOwn(s, r);
    SplitByRequestor(s.trace.journal[r], r);
    SplitByRequestor(SeenOf(s, r), r);
  }

  lemma SettledUsers(s: System, r: nat)
    requires Shape(s) && IsServer(s, r) && Seen(s, r) <= |s.trace.order| && Conserved(s, r) && AllSettled(s, r)
    requires UserOrder(s, r)
    ensures forall u :: For(s.trace.journal[r], u) == For(SeenOf(s, r), u)
  {
    SettledOwn(s, r);
    forall u ensures For(s.trace.journal[r], u) == For(SeenOf(s, r), u) {
      TallySettled(s.trace.journal[r], SeenOf(s, r), r, u);
    }
  }

  /** With nothing unsettled, a server has executed exactly what it has seen, each user's writes in the primary's
      order when none of its steps was contended. */
  lemma SettledOrder(n: nat, evs: seq<Event>, r: nat)
    requires n >= 2 && 1 <= r <= n && Steady(Run(n, evs), r)
    requires Seen(Run(n, evs), r) <= |Run(n, evs).trace.order| && AllSettled(Run(n, evs), r)
    ensures multiset(Run(n, evs).trace.journal[r]) == multiset(SeenOf(Run(n, evs), r))
    ensures Uncontended(n, evs, r) ==>
              forall u :: For(Run(n, evs).trace.journal[r], u) == For(SeenOf(Run(n, evs), r), u)
  {
    Standing(n, evs, r);
    ConservedHolds(n, evs, r);
    SettledWrites(Run(n, evs), r);
    if Uncontended(n, evs, r) {
      assert evs[..|evs|] == evs;
      UserOrderHolds(n, evs, |evs|, r);
      SettledUsers(Run(n, evs), r);
    }
  }

  lemma RestIsSettled(n: nat, evs: seq<Event>, r: nat)
    requires n >= 2 && 1 <= r <= n && Steady(Run(n, evs), r) && Quiescent(Run(n, evs))
    ensures Seen(Run(n, evs), r) <= |Run(n, evs).trace.order| && AllSettled(Run(n, evs), r)
  {
    var s := Run(n, evs);
    RestIsComplete(n, evs, r);
    ConservedHolds(n, evs, r);
    assert Accounted(s, r) == By(s.trace.journal[r], r);
    assert Written(s, r) == By(Entries(s.trace.order), r);
    SettledOwn(s, r);
  }

  /** At rest, a server that was never disabled, and the primary in any case, has executed every sequenced write
      exactly once, and nothing else. */
  lemma ExactlyOnce(n: nat, evs: seq<Event>, r: nat)
    requires n >= 2 && 1 <= r <= n && Steady(Run(n, evs), r) && Quiescent(Run(n, evs))
    ensures multiset(Run(n, evs).trace.journal[r]) == multiset(Entries(Run(n, evs).trace.order))
  {
    RestIsComplete(n, evs, r);
    RestIsSettled(n, evs, r);
    SettledOrder(n, evs, r);
  }

  /** At rest, a server that was never disabled, and the primary in any case, has executed every user's writes in the
      primary's order exactly when none of its steps was contended. */
  lemma UserOrderExact(n: nat, evs: seq<Event>, r: nat)
    requires n >= 2 && 1 <= r <= n && Steady(Run(n, evs), r) && Quiescent(Run(n, evs))
    ensures (forall u :: For(Run(n, evs).trace.journal[r], u) == For(Entries(Run(n, evs).trace.order), u)) <==>
            Uncontended(n, evs, r)
  {
    RestIsComplete(n, evs, r);
    if Uncontended(n, evs, r) {
      RestIsSettled(n, evs, r);
      SettledOrder(n, evs, r);
    } else {
      var k :| 0 <= k < |evs| && Contended(Run(n, evs[..k]), evs[k], r);
      var u := ContentionShows(n, evs, k, r);
    }
  }

  // ---- Tablets ----

  lemma SameWritesSameUsers(xs: seq<Entry>, ys: seq<Entry>)
    requires multiset(xs) == multiset(ys)
    ensures Added(Cmds(xs)) == Added(Cmds(ys))
  {
    AddedSubset(xs, ys);
    AddedSubset(ys, xs);
  }

  lemma AddedSubset(xs: seq<Entry>, ys: seq<Entry>)
    requires multiset(xs) == multiset(ys)
    ensures Added(Cmds(xs)) <= Added(Cmds(ys))
  {
    forall u | u in Added(Cmds(xs)) ensures u in Added(Cmds(ys)) {
      var c :| c in Cmds(xs) && c.AddUser? && c.user == u;
      var i :| 0 <= i < |Cmds(xs)| && Cmds(xs)[i] == c;
      assert xs[i] in multiset(xs);
      assert xs[i] in ys;
      var j :| 0 <= j < |ys| && ys[j] == xs[i];
      assert Cmds(ys)[j] == c;
    }
  }

  lemma SameOrderSameTablet(xs: seq<Entry>, ys: seq<Entry>)
    requires multiset(xs) == multiset(ys) && |Added(Cmds(ys))| <= MAX_TABLET_USERS
    requires forall u :: For(xs, u) == For(ys, u)
    ensures ApplyAll(map[], Cmds(xs)) == ApplyAll(map[], Cmds(ys))
  {
    SameWritesSameUsers(xs, ys);
    forall u ensures Naming(Cmds(xs), u) == Naming(Cmds(ys), u) {
      ForIsNaming(xs, u);
      ForIsNaming(ys, u);
    }
    SameRowsSameTablet(Cmds(xs), Cmds(ys));
  }

  /** The server's tablet is what its log gives: it was never disabled, or it is the primary, is enabled again, has
      added no user while it was disabled, and has logged no delete command that replay misreads. */
  ghost predicate HoldsItsLog(n: nat, evs: seq<Event>, r: nat)
    requires n >= 2 && 1 <= r <= n
  {
    || Run(n, evs).trace.stayed[r]
    || (&& r == PRIMARY && !Run(n, evs).nodes[r].disabled && AllFaithful(Run(n, evs).nodes[r].log)
        && forall k :: 0 <= k < |evs| ==> !AddsWhileDisabled(Run(n, evs[..k]), evs[k]))
  }

  lemma TabletOfJournal(n: nat, evs: seq<Event>, r: nat)
    requires n >= 2 && 1 <= r <= n && HoldsItsLog(n, evs, r)
    ensures Steady(Run(n, evs), r)
    ensures Run(n, evs).nodes[r].tablet == ApplyAll(map[], Cmds(Run(n, evs).trace.journal[r]))
  {
    CommitPathIsPrefix(n, evs, r);
    if !Run(n, evs).trace.stayed[r] {
      TabletIsReplay(n, evs, r);
      ReplayIsLive(map[], Run(n, evs).nodes[r].log);
    }
  }

  /** At any moment of a run, a server with nothing unsettled holds the tablet that the part of the order it has seen
      gives: provided none of its steps was contended, and the writes name no more new users than a tablet holds. */
  lemma SettledTablet(n: nat, evs: seq<Event>, r: nat)
    requires n >= 2 && 1 <= r <= n && HoldsItsLog(n, evs, r) && Uncontended(n, evs, r)
    requires Seen(Run(n, evs), r) <= |Run(n, evs).trace.order| && AllSettled(Run(n, evs), r)
    requires |Added(Cmds(SeenOf(Run(n, evs), r)))| <= MAX_TABLET_USERS
    ensures Run(n, evs).nodes[r].tablet == ApplyAll(map[], Cmds(SeenOf(Run(n, evs), r)))
  {
    TabletOfJournal(n, evs, r);
    SettledOrder(n, evs, r);
    SameOrderSameTablet(Run(n, evs).trace.journal[r], SeenOf(Run(n, evs), r));
  }

  /** At rest, such a server holds the tablet that the primary's whole order gives, whoever asked for the writes. */
  lemma ServersConverge(n: nat, evs: seq<Event>, r: nat)
    requires n >= 2 && 1 <= r <= n && HoldsItsLog(n, evs, r) && Quiescent(Run(n, evs)) && Uncontended(n, evs, r)
    requires |Added(Cmds(Entries(Run(n, evs).trace.order)))| <= MAX_TABLET_USERS
    ensures Run(n, evs).nodes[r].tablet == ApplyAll(map[], Cmds(Entries(Run(n, evs).trace.order)))
  {
    TabletOfJournal(n, evs, r);
    RestIsComplete(n, evs, r);
    RestIsSettled(n, evs, r);
    SettledTablet(n, evs, r);
  }

  // ---- Users with one home server ----

  /** All writes that name one user are requested at one server. */
  predicate OneHome(evs: seq<Event>) {
    forall v, w :: v in evs && w in evs && v.Write? && w.Write? && UserOf(v.cmd) == UserOf(w.cmd) ==>
      v.server == w.server
  }

  /** The writes a server took on in a run, numbered in turn. */
  function TakenOn(n: nat, evs: seq<Event>, r: nat): seq<Entry>
    requires n >= 2 && 1 <= r <= n
  {
    if evs == [] then []
    else TakenOn(n, evs[..|evs| - 1], r) + NewBy(Run(n, evs[..|evs| - 1]), evs[|evs| - 1], r)
  }

  /** In every run and for every server, the writes it took on are those sequenced and those on their way, in order,
      whichever servers are disabled. */
  lemma {:induction false} NoWriteIsLost(n: nat, evs: seq<Event>, r: nat)
    requires n >= 2 && 1 <= r <= n
    ensures By(Entries(Run(n, evs).trace.order), r) + PipeOf(Run(n, evs), r) == TakenOn(n, evs, r)
  {
    if evs == [] {
      assert Run(n, evs) == Initial(n);
    } else {
      var front := evs[..|evs| - 1];
      NoWriteIsLost(n, front, r);
      OrderHolds(n, front);
      WrittenSteps(Run(n, front), evs[|evs| - 1], r);
    }
  }

  lemma NewIsRequested(s: System, ev: Event, r: nat, e: Entry)
    requires Shape(s) && IsServer(s, r) && e in NewBy(s, ev, r)
    ensures ev == Write(r, e.cmd) && e.requestor == r
  {
  }

  lemma InWhole(evs: seq<Event>, v: Event)
    requires evs != [] && (v in evs[..|evs| - 1] || v == evs[|evs| - 1])
    ensures v in evs
  {
  }

  lemma {:induction false} TakenOnWasRequested(n: nat, evs: seq<Event>, r: nat, e: Entry)
    requires n >= 2 && 1 <= r <= n && e in TakenOn(n, evs, r)
    ensures Write(r, e.cmd) in evs && e.requestor == r
  {
    var front, last := evs[..|evs| - 1], evs[|evs| - 1];
    if e in TakenOn(n, front, r) {
      TakenOnWasRequested(n, front, r, e);
    } else {
      NewIsRequested(Run(n, front), last, r, e);
    }
    InWhole(evs, Write(r, e.cmd));
  }

  /** A write in the order or in the hold queue is one of its requestor's. */
  lemma ForeignIsWritten(s: System, ev: Event, r: nat)
    requires Shape(s) && ChainInv(s) && PipeInv(s) && IsServer(s, r) && Enabled(s, ev) && ForeignOf(s, ev, r).Some?
    ensures var e := ForeignOf(s, ev, r).value;
            e.requestor != r && IsServer(s, e.requestor) && e in Written(s, e.requestor)
  {
    var e := ForeignOf(s, ev, r).value;
    if ev.ToPeer? {
      CommitIsNext(s, r);
      assert Entries(s.trace.order)[s.trace.consumed[r]] == e;
      ByMembers(Entries(s.trace.order), e, e.requestor);
    } else {
      HeadIsNext(s, e);
      HeadLeavesPipe(s, e, e.requestor);
      assert PipeOf(s, e.requestor)[0] == e;
    }
  }

  lemma UnsettledIsWritten(s: System, r: nat, x: Entry)
    requires Shape(s) && IsServer(s, r) && Seen(s, r) <= |s.trace.order| && Conserved(s, r)
    requires x in Unsettled(s.trace.journal[r], SeenOf(s, r), r)
    ensures x in Written(s, r)
  {
    OwnPrefixes(s, r);
  }

  lemma RequestedAt(n: nat, evs: seq<Event>, k: nat, r: nat, e: Entry)
    requires n >= 2 && 1 <= r <= n && k <= |evs| && e in Written(Run(n, evs[..k]), r)
    ensures Write(r, e.cmd) in evs
  {
    NoWriteIsLost(n, evs[..k], r);
    TakenOnWasRequested(n, evs[..k], r, e);
  }

  /** What a contended step executes and a write it overtakes name one user at two servers. */
  lemma ContendersMeet(s: System, ev: Event, r: nat) returns (e: Entry, x: Entry)
    requires Shape(s) && ChainInv(s) && PipeInv(s) && IsServer(s, r) && Conserved(s, r) && Contended(s, ev, r)
    ensures IsServer(s, e.requestor) && e.requestor != r && UserOf(e.cmd) == UserOf(x.cmd)
    ensures e in Written(s, e.requestor) && x in Written(s, r)
  {
    e := ForeignOf(s, ev, r).value;
    x :| x in Unsettled(s.trace.journal[r], SeenOf(s, r), r) && UserOf(x.cmd) == UserOf(e.cmd);
    ForeignIsWritten(s, ev, r);
    UnsettledIsWritten(s, r, x);
  }

  lemma ContentionHasTwoHomes(n: nat, evs: seq<Event>, k: nat, r: nat)
    requires n >= 2 && 1 <= r <= n && k < |evs| && Steady(Run(n, evs[..k]), r)
    requires Contended(Run(n, evs[..k]), evs[k], r)
    ensures !OneHome(evs)
  {
    Standing(n, evs[..k], r);
    ConservedHolds(n, evs[..k], r);
    var e, x := ContendersMeet(Run(n, evs[..k]), evs[k], r);
    RequestedAt(n, evs, k, r, x);
    RequestedAt(n, evs, k, e.requestor, e);
    assert Write(r, x.cmd).server != Write(e.requestor, e.cmd).server;
  }

  /** A run that requests each user's writes at one server is never contended. */
  lemma OneHomeIsUncontended(n: nat, evs: seq<Event>, r: nat)
    requires n >= 2 && 1 <= r <= n && Steady(Run(n, evs), r) && OneHome(evs)
    ensures Uncontended(n, evs, r)
  {
    forall k | 0 <= k < |evs| ensures !Contended(Run(n, evs[..k]), evs[k], r) {
      if Contended(Run(n, evs[..k]), evs[k], r) {
        RunGrows(n, evs, k, r);
        ContentionHasTwoHomes(n, evs, k, r);
      }
    }
  }

  /** When every user's writes are requested at one server, all servers that hold what their logs give agree at
      rest. */
  lemma OneHomeConverges(n: nat, evs: seq<Event>, i: nat, j: nat)
    requires n >= 2 && 1 <= i <= n && 1 <= j <= n && OneHome(evs) && Quiescent(Run(n, evs))
    requires HoldsItsLog(n, evs, i) && HoldsItsLog(n, evs, j)
    requires |Added(Cmds(Entries(Run(n, evs).trace.order)))| <= MAX_TABLET_USERS
    ensures Run(n, evs).nodes[i].tablet == Run(n, evs).nodes[j].tablet
  {
    OneHomeIsUncontended(n, evs, i);
    OneHomeIsUncontended(n, evs, j);
    ServersConverge(n, evs, i);
    ServersConverge(n, evs, j);
  }
}
