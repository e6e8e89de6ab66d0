/** Runs of a group of two servers in which a restarted replica does, or does not, end up with the primary's log. */
module CatchUpRuns {
  import opened Sequences
  import opened Wrappers
  import opened KeyValue
  import opened WriteAheadLog
  import opened Replication
  import opened OwnWrites
  import opened CatchUp
  import opened PairRuns

  // ---- A replica that was away ----

  /** The primary has executed a write while the replica is disabled; its commit is on its way. */
  function Away(w: Command): Pair {
    var e := Entry(1, 0, w);
    Pair(Execute(FreshNode(), w).(seqNum := 1), DisableNode(FreshNode()), [], map[1 := map[0 := 1]], 1, Ready, [],
         Broadcasts(0, e), [Sequenced(0, e)])
  }

  /** The replica is disabled and the primary's write is held. */
  function AwayHeld(w: Command): Pair {
    Fresh().(replica := DisableNode(FreshNode()), primary := FreshNode().(pending := Some(w), blocked := true),
             hold := [HeldWrite(Entry(1, 0, w))])
  }

  lemma HoldsFirst(w: Command) returns (evs: seq<Event>)
    ensures Leads(evs, AwayHeld(w))
  {
    var p := Fresh().(replica := DisableNode(FreshNode()));
    Starts();
    Disables([], Fresh());
    PrimaryWrites([] + [Disable(2)], p, w);
    evs := [] + [Disable(2)] + [Write(1, w)];
    LeftEmpty([HeldWrite(Entry(1, 0, w))]);
  }

  lemma AwaySequenced(w: Command)
    ensures var p := AfterSequence(AwayHeld(w), Entry(1, 0, w));
            p.(primary := FinishWrite(p.primary, 1)).(phase := Ready) == Away(w)
  {
  }

  lemma GoesAway(w: Command) returns (evs: seq<Event>)
    ensures Leads(evs, Away(w))
  {
    var e := Entry(1, 0, w);
    evs := HoldsFirst(w);
    var p := AfterSequence(AwayHeld(w), e);
    SequencesHead(evs, AwayHeld(w), e);
    PrimaryFinishes(evs + [Sequence], p);
    SkipsCheckpoint(evs + [Sequence] + [Finish(1)], p.(primary := FinishWrite(p.primary, 1)));
    AwaySequenced(w);
    evs := evs + [Sequence] + [Finish(1)] + [CheckpointTest];
  }

  /** The replica has let the commit pass. */
  function PassedBy(w: Command): Pair {
    Away(w).(at := map[1 := map[]], down := [])
  }

  lemma LetsFirstPass(w: Command)
    ensures var p := ReceiveAll(Away(w));
            && p.up == [Ack(0, 1, 0)] && p.at == map[1 := map[0 := 1]]
            && AfterAck(p) == PassedBy(w)
  {
    ReceivesDisabled(Away(w), 0, Entry(1, 0, w));
  }

  lemma LetsPass(w: Command) returns (evs: seq<Event>)
    ensures Leads(evs, PassedBy(w))
  {
    evs := GoesAway(w);
    evs := ReceivesAll(evs, Away(w));
    LetsFirstPass(w);
    CountsAck(evs, ReceiveAll(Away(w)));
    evs := evs + [ToPrimary(2)];
  }

  lemma ShippedOne(w: Command)
    ensures Shipped([w]) == if Transferable(w) then [w] else []
  {
    assert [w][..0] == [];
  }

  /** The group after the replica's restart and the answer to its request. */
  function Answered(p: Pair): Pair {
    p.(replica := FreshNode(), down := p.down + Transfers(Shipped(p.primary.log)))
  }

  /** A replica with an empty log is restarted and asks for everything. */
  lemma Asks(evs: seq<Event>, p: Pair) returns (evs': seq<Event>)
    requires Leads(evs, p) && p.replica == DisableNode(FreshNode())
    requires p.hold == [] && p.up == [] && p.phase == Ready
    ensures Leads((evs + [Restart(2)]) + evs', Answered(p))
  {
    var q := AfterRestart(p);
    var start := evs + [Restart(2)];
    ReplicaRestarts(evs, p);
    assert q == p.(replica := FreshNode(), up := [Request(HeldTransfer(2, 0))]);
    HoldsRequest(start, q);
    q := q.(hold := [HeldTransfer(2, 0)], up := []);
    Answers(start + [ToPrimary(2)], q, 0);
    evs' := [ToPrimary(2)] + [Sequence];
    assert start + evs' == start + [ToPrimary(2)] + [Sequence];
    assert LogFrom(p.primary.log, 0) == p.primary.log;
  }

  lemma BehindIn(s: System, p: Pair)
    requires Is(s, p) && p.replica == DisableNode(FreshNode()) && p.primary.pending == None
    requires p.hold == [] && p.up == []
    ensures Behind(s, 2) && Found(s, 2) == Gap([], Payloads(p.down, 2), p.primary.log)
  {
  }

  /** The two servers are at rest with the given logs. */
  predicate RestsWith(s: System, primary: seq<Command>, replica: seq<Command>)
    requires Shape(s)
  {
    s.n == 2 && Quiescent(s) && s.nodes[1].log == primary && s.nodes[2].log == replica
  }

  lemma Rests(s: System, p: Pair)
    requires Is(s, p) && p.hold == [] && p.up == [] && p.down == []
    requires p.primary.pending == None && p.replica.pending == None
    ensures RestsWith(s, p.primary.log, p.replica.log)
  {
    AtRest(s, p);
  }

  /** A missed write of a kind that is not sent, a password change for example, is missing from the replica's log for
      good. */
  lemma MissedForGood(w: Command) returns (before: seq<Event>, evs: seq<Event>)
    requires w.ChangePassword? || w.DeleteUser? || w.DelFile?
    ensures Behind(Run(2, before), 2) && Found(Run(2, before), 2) == Gap([], [], [w])
    ensures RestsWith(Run(2, (before + [Restart(2)]) + evs), [w], [])
  {
    before := LetsPass(w);
    BehindIn(Run(2, before), PassedBy(w));
    evs := Asks(before, PassedBy(w));
    ShippedOne(w);
    assert Transfers([]) == [];
    Rests(Run(2, (before + [Restart(2)]) + evs), Answered(PassedBy(w)));
  }

  /** The replica receives the commit and then the transfer, and executes the write on both. */
  lemma ReceivesTwice(w: Command)
    requires Transferable(w)
    ensures ReceiveAll(Answered(Away(w))) ==
            Away(w).(replica := Execute(Execute(FreshNode(), w), w), up := [Ack(0, 1, 0)], down := [])
  {
    var e, p := Entry(1, 0, w), Answered(Away(w));
    var q := p.(down := Broadcasts(0, e));
    ShippedOne(w);
    ReceiveInTurn(q, Broadcasts(0, e), Transfers([w]));
    ReceivesCommit(q, 0, e);
    ReceivesTransfer(ReceiveAll(q).(down := Transfers([w])), w);
  }

  lemma CommitsAway(w: Command)
    ensures Payloads(Away(w).down, 2) == [w]
  {
    BroadcastPayloads(0, Entry(1, 0, w), 2);
  }

  /** A commit that is on its way to the replica when it is restarted is executed twice, once as it arrives and once
      when it is sent again. */
  lemma ExecutedTwice(w: Command) returns (before: seq<Event>, evs: seq<Event>)
    requires Transferable(w)
    ensures Behind(Run(2, before), 2) && Found(Run(2, before), 2) == Gap([], [w], [w])
    ensures RestsWith(Run(2, (before + [Restart(2)]) + evs), [w], [w, w])
  {
    before := GoesAway(w);
    BehindIn(Run(2, before), Away(w));
    CommitsAway(w);
    evs := ReceivesBothWays(before, w);
    Rests(Run(2, (before + [Restart(2)]) + evs), TwiceExecuted(w));
  }

  function TwiceExecuted(w: Command): Pair {
    PassedBy(w).(replica := FreshNode().(tablet := Apply(Apply(map[], w), w), log := [w, w]))
  }

  lemma CountsLast(w: Command)
    requires Transferable(w)
    ensures var p := ReceiveAll(Answered(Away(w)));
            && p.up == [Ack(0, 1, 0)] && p.at == map[1 := map[0 := 1]]
            && AfterAck(p) == TwiceExecuted(w)
  {
    ReceivesTwice(w);
  }

  lemma ReceivesBothWays(before: seq<Event>, w: Command) returns (evs: seq<Event>)
    requires Transferable(w) && Leads(before, Away(w))
    ensures Leads((before + [Restart(2)]) + evs, TwiceExecuted(w))
  {
    var start := before + [Restart(2)];
    var first := Asks(before, Away(w));
    var more := ReceivesOn(start + first, Answered(Away(w)));
    CountsLast(w);
    CountsAck((start + first) + more, ReceiveAll(Answered(Away(w))));
    evs := first + (more + [ToPrimary(2)]);
    Reassociate(start + first, more, [ToPrimary(2)]);
    Reassociate(start, first, more + [ToPrimary(2)]);
  }

  /** The primary has sequenced its second write, which the disabled replica let pass, and has yet to execute it. */
  function SecondPassed(v: Command, w: Command): Pair {
    var p := PassedBy(v);
    p.(primary := p.primary.(pending := Some(w)), stamp := 2, order := p.order + [Sequenced(1, Entry(1, 1, w))])
  }

  lemma SequencesSecondOwn(evs: seq<Event>, p: Pair, w: Command) returns (more: seq<Event>)
    requires Leads(evs, p) && p.primary.pending == None && !p.primary.disabled && p.hold == []
    requires p.phase == Ready && |p.primary.log| == 1 && p.primary.seqNum == 1
    ensures Leads(evs + more, AfterSequence(p.(primary := p.primary.(pending := Some(w), blocked := true)),
                                            Entry(1, 1, w)).(phase := Ready))
  {
    var e, q := Entry(1, 1, w), p.(primary := p.primary.(pending := Some(w), blocked := true));
    PrimaryWrites(evs, p, w);
    assert p.hold + [HeldWrite(e)] == [HeldWrite(e)];
    SequencesHead(evs + [Write(1, w)], q.(hold := [HeldWrite(e)]), e);
    assert AfterSequence(q.(hold := [HeldWrite(e)]), e) == AfterSequence(q, e);
    SkipsCheckpoint((evs + [Write(1, w)]) + [Sequence], AfterSequence(q, e));
    more := [Write(1, w), Sequence, CheckpointTest];
    assert evs + more == ((evs + [Write(1, w)]) + [Sequence]) + [CheckpointTest];
  }

  function SecondAway(v: Command, w: Command): Pair {
    var p, e := PassedBy(v), Entry(1, 1, w);
    Pair(p.primary.(pending := Some(w)), p.replica, [], map[1 := map[1 := 1]], 2, Ready, [], Broadcasts(1, e),
         p.order + [Sequenced(1, e)])
  }

  lemma SecondSequenced(v: Command, w: Command)
    ensures var p := PassedBy(v);
            AfterSequence(p.(primary := p.primary.(pending := Some(w), blocked := true)), Entry(1, 1, w))
            .(phase := Ready) == SecondAway(v, w)
  {
  }

  lemma LetsSecondPass(v: Command, w: Command)
    ensures var p := ReceiveAll(SecondAway(v, w));
            && p.up == [Ack(1, 1, 1)] && p.at == map[1 := map[1 := 1]]
            && AfterAck(p) == SecondPassed(v, w)
  {
    ReceivesDisabled(SecondAway(v, w), 1, Entry(1, 1, w));
  }

  lemma PassesSecond(v: Command, w: Command) returns (evs: seq<Event>)
    ensures Leads(evs, SecondPassed(v, w))
  {
    evs := LetsPass(v);
    var more := SequencesSecondOwn(evs, PassedBy(v), w);
    evs := evs + more;
    SecondSequenced(v, w);
    evs := ReceivesAll(evs, SecondAway(v, w));
    LetsSecondPass(v, w);
    CountsAck(evs, ReceiveAll(SecondAway(v, w)));
    evs := evs + [ToPrimary(2)];
  }

  /** The replica has been sent the first write, and the primary executes its second. */
  function SecondLost(v: Command, w: Command): Pair {
    var p := SecondPassed(v, w);
    p.(primary := FinishWrite(p.primary, 1), replica := Execute(FreshNode(), v))
  }

  lemma LosesSecond(before: seq<Event>, v: Command, w: Command) returns (evs: seq<Event>)
    requires Transferable(v) && Leads(before, SecondPassed(v, w))
    ensures Leads((before + [Restart(2)]) + evs, SecondLost(v, w))
  {
    var p := SecondPassed(v, w);
    var first := Asks(before, p);
    var start := (before + [Restart(2)]) + first;
    ShippedOne(v);
    ReceivesTransfer(Answered(p), v);
    var more := ReceivesOn(start, Answered(p));
    PrimaryFinishes(start + more, p.(replica := Execute(FreshNode(), v)));
    evs := first + (more + [Finish(1)]);
    Reassociate(start, more, [Finish(1)]);
    Reassociate(before + [Restart(2)], first, more + [Finish(1)]);
  }

  lemma LostLogs(v: Command, w: Command)
    ensures SecondLost(v, w).primary.log == [v, w] && SecondLost(v, w).replica.log == [v]
  {
  }

  /** A write of the primary's own that is sequenced but not yet executed when it answers a transfer request, and that
      the replica let pass, never reaches the replica. */
  lemma OwnWriteIsLost(v: Command, w: Command) returns (before: seq<Event>, evs: seq<Event>)
    requires Transferable(v)
    ensures var s := Run(2, before);
            && s.nodes[1].pending == Some(w) && PipeOf(s, 1) == [] && s.nodes[1].log == [v]
            && s.nodes[2].log == [] && s.down[2] == [] && Asked(s, 2) == []
    ensures RestsWith(Run(2, (before + [Restart(2)]) + evs), [v, w], [v])
  {
    before := PassesSecond(v, w);
    NothingHeld(Run(2, before), SecondPassed(v, w));
    evs := LosesSecond(before, v, w);
    LostLogs(v, w);
    Rests(Run(2, (before + [Restart(2)]) + evs), SecondLost(v, w));
  }

  lemma NothingHeld(s: System, p: Pair)
    requires Is(s, p) && p.hold == [] && p.up == []
    ensures PipeOf(s, 1) == [] && Asked(s, 2) == []
  {
  }

  /** The replica has caught up on the first write. */
  function LevelAgain(v: Command): Pair {
    PassedBy(v).(replica := Execute(FreshNode(), v))
  }

  lemma CatchesUp(v: Command) returns (before: seq<Event>, evs: seq<Event>)
    requires Transferable(v)
    ensures Behind(Run(2, before), 2) && Found(Run(2, before), 2) == Gap([], [], [v])
    ensures Leads((before + [Restart(2)]) + evs, LevelAgain(v))
  {
    before := LetsPass(v);
    BehindIn(Run(2, before), PassedBy(v));
    var first := Asks(before, PassedBy(v));
    ShippedOne(v);
    ReceivesTransfer(Answered(PassedBy(v)), v);
    var more := ReceivesOn((before + [Restart(2)]) + first, Answered(PassedBy(v)));
    evs := first + more;
    Reassociate(before + [Restart(2)], first, more);
  }

  lemma LevelLogs(s: System, v: Command)
    requires Is(s, LevelAgain(v))
    ensures RestsWith(s, [v], [v]) && s.nodes[1].tablet == s.nodes[2].tablet == Apply(map[], v)
  {
    Rests(s, LevelAgain(v));
  }

  /** A missed write of any other kind is in the replica's log at rest, and its effect in the tablet. */
  lemma MissedAndSent(w: Command) returns (before: seq<Event>, evs: seq<Event>)
    requires w.AddUser? || w.PutMail? || w.DelMail? || w.PutFile? || w.MkFolder? || w.DelFolder?
    ensures Behind(Run(2, before), 2) && Found(Run(2, before), 2) == Gap([], [], [w])
    ensures var s := Run(2, (before + [Restart(2)]) + evs);
            RestsWith(s, [w], [w]) && s.nodes[1].tablet == s.nodes[2].tablet == Apply(map[], w)
  {
    before, evs := CatchesUp(w);
    LevelLogs(Run(2, (before + [Restart(2)]) + evs), w);
  }

  /** Then both ends write: the primary's write is sequenced first, and executed by it last. */
  function BothEnds(v: Command, w: Command, x: Command): Pair {
    var e, f, p := Entry(1, 1, w), Entry(2, 0, x), LevelAgain(v);
    Pair(Execute(Execute(p.primary, x), w).(seqNum := 2), p.replica.(pending := Some(x), blocked := true), [],
         map[1 := map[1 := 1], 2 := map[0 := 1]], 3, Committed, [], Broadcasts(1, e) + Broadcasts(2, f),
         (p.order + [Sequenced(1, e)]) + [Sequenced(2, f)])
  }

  /** A write of the replica's reaches the hold queue. */
  function ReplicaHeld(p: Pair, x: Command): Pair {
    p.(replica := p.replica.(pending := Some(x), blocked := true), hold := [HeldWrite(Entry(2, 0, x))], up := [])
  }

  lemma HoldsReplicas(evs: seq<Event>, p: Pair, x: Command)
    requires Leads(evs, p) && p.replica.pending == None && !p.replica.disabled && p.replica.seqNum == 0
    requires p.up == [] && p.hold == []
    ensures Leads((evs + [Write(2, x)]) + [ToPrimary(2)], ReplicaHeld(p, x))
  {
    var h, q := HeldWrite(Entry(2, 0, x)), p.(replica := p.replica.(pending := Some(x), blocked := true));
    ReplicaWrites(evs, p, x);
    assert [] + [Request(h)] == [Request(h)] && [] + [h] == [h];
    HoldsRequest(evs + [Write(2, x)], q.(up := [Request(h)]));
  }

  lemma FourMore(evs: seq<Event>, x: Command)
    ensures evs + [Write(2, x), ToPrimary(2), Sequence, Finish(1)] ==
            (((evs + [Write(2, x)]) + [ToPrimary(2)]) + [Sequence]) + [Finish(1)]
  {
  }

  /** It is sequenced while the primary has yet to execute its own. */
  lemma SequencesReplicas(evs: seq<Event>, p: Pair, w: Command, x: Command) returns (more: seq<Event>)
    requires Leads(evs, p) && p.replica.pending == None && !p.replica.disabled && p.replica.seqNum == 0
    requires p.up == [] && p.hold == [] && p.phase == Ready && p.primary.pending == Some(w) && !p.primary.blocked
    ensures var q := AfterSequence(ReplicaHeld(p, x), Entry(2, 0, x));
            Leads(evs + more, q.(primary := FinishWrite(q.primary, 1)))
  {
    var evs1 := (evs + [Write(2, x)]) + [ToPrimary(2)];
    HoldsReplicas(evs, p, x);
    SequencesHead(evs1, ReplicaHeld(p, x), Entry(2, 0, x));
    PrimaryFinishes(evs1 + [Sequence], AfterSequence(ReplicaHeld(p, x), Entry(2, 0, x)));
    more := [Write(2, x), ToPrimary(2), Sequence, Finish(1)];
    FourMore(evs, x);
  }

  /** The primary's write is sequenced and not yet executed. */
  function OneEnd(v: Command, w: Command): Pair {
    var p, e := LevelAgain(v), Entry(1, 1, w);
    Pair(p.primary.(pending := Some(w)), p.replica, [], map[1 := map[1 := 1]], 2, Ready, [], Broadcasts(1, e),
         p.order + [Sequenced(1, e)])
  }

  lemma OneEndSequenced(v: Command, w: Command)
    ensures var p := LevelAgain(v);
            AfterSequence(p.(primary := p.primary.(pending := Some(w), blocked := true)), Entry(1, 1, w))
            .(phase := Ready) == OneEnd(v, w)
  {
  }

  lemma BothEndsSequenced(v: Command, w: Command, x: Command)
    ensures var q := AfterSequence(ReplicaHeld(OneEnd(v, w), x), Entry(2, 0, x));
            q.(primary := FinishWrite(q.primary, 1)) == BothEnds(v, w, x)
  {
    assert Track(map[1 := map[1 := 1]], 2, 0, 1) == map[1 := map[1 := 1], 2 := map[0 := 1]];
  }

  lemma WritesAtBothEnds(evs: seq<Event>, v: Command, w: Command, x: Command) returns (more: seq<Event>)
    requires Leads(evs, LevelAgain(v))
    ensures Leads(evs + more, BothEnds(v, w, x))
  {
    var first := SequencesSecondOwn(evs, LevelAgain(v), w);
    OneEndSequenced(v, w);
    var second := SequencesReplicas(evs + first, OneEnd(v, w), w, x);
    BothEndsSequenced(v, w, x);
    more := first + second;
    Reassociate(evs, first, second);
  }

  /** The replica executes the primary's write as its commit arrives, and its own, sequenced later, when it is
      released. */
  function BothEndsReceived(v: Command, w: Command, x: Command): Pair {
    var p := BothEnds(v, w, x);
    p.(replica := Execute(p.replica, w), up := [Ack(1, 1, 1), Ack(2, 2, 0)], down := [])
  }

  lemma ReceivesFirstEnd(v: Command, w: Command, x: Command)
    ensures var p := BothEnds(v, w, x);
            ReceiveAll(p.(down := Broadcasts(1, Entry(1, 1, w)))) ==
            p.(replica := Execute(p.replica, w), up := [Ack(1, 1, 1)], down := [])
  {
    ReceivesCommit(BothEnds(v, w, x).(down := Broadcasts(1, Entry(1, 1, w))), 1, Entry(1, 1, w));
  }

  lemma ReceivesSecondEnd(p: Pair, x: Command)
    requires p.down == Broadcasts(2, Entry(2, 0, x)) && p.up == [Ack(1, 1, 1)] && !p.replica.disabled
    ensures ReceiveAll(p) == p.(up := [Ack(1, 1, 1), Ack(2, 2, 0)], down := [])
  {
    ReceivesCommit(p, 2, Entry(2, 0, x));
    OneAndOne<UpMessage>(Ack(1, 1, 1), Ack(2, 2, 0));
  }

  lemma ReceivesBothEnds(v: Command, w: Command, x: Command)
    ensures ReceiveAll(BothEnds(v, w, x)) == BothEndsReceived(v, w, x)
  {
    var p := BothEnds(v, w, x);
    var q := p.(replica := Execute(p.replica, w), up := [Ack(1, 1, 1)], down := []);
    ReceiveInTurn(p.(down := Broadcasts(1, Entry(1, 1, w))), Broadcasts(1, Entry(1, 1, w)),
                  Broadcasts(2, Entry(2, 0, x)));
    ReceivesFirstEnd(v, w, x);
    ReceivesSecondEnd(q.(down := Broadcasts(2, Entry(2, 0, x))), x);
  }

  lemma BothEndsCounted(p: Pair)
    requires p.at == map[1 := map[1 := 1], 2 := map[0 := 1]] && p.up == [Ack(1, 1, 1), Ack(2, 2, 0)]
    requires p.down == [] && !p.primary.blocked
    ensures AfterAck(p) == p.(at := map[1 := map[], 2 := map[0 := 1]], up := [Ack(2, 2, 0)])
    ensures AfterAck(AfterAck(p)) == p.(at := map[1 := map[], 2 := map[]], up := [], down := [Okay(2, 2, 0)])
  {
  }

  lemma CountsBothEnds(evs: seq<Event>, v: Command, w: Command, x: Command)
    requires Leads(evs, BothEndsReceived(v, w, x))
    ensures Leads((evs + [ToPrimary(2)]) + [ToPrimary(2)],
                  BothEndsReceived(v, w, x).(at := map[1 := map[], 2 := map[]], up := [], down := [Okay(2, 2, 0)]))
  {
    var p := BothEndsReceived(v, w, x);
    BothEndsCounted(p);
    CountsAck(evs, p);
    CountsAck(evs + [ToPrimary(2)], AfterAck(p));
  }

  /** The replica at the end, released and done. */
  function BothEndsDone(v: Command, w: Command, x: Command): Pair {
    var p := BothEndsReceived(v, w, x).(at := map[1 := map[], 2 := map[]], up := []);
    p.(replica := FinishWrite(p.replica.(blocked := false), 2))
  }

  lemma FinishesBothEnds(evs: seq<Event>, v: Command, w: Command, x: Command)
    requires Leads(evs, BothEndsReceived(v, w, x).(at := map[1 := map[], 2 := map[]], up := [],
                                                   down := [Okay(2, 2, 0)]))
    ensures Leads((evs + [ToPeer(2)]) + [Finish(2)], BothEndsDone(v, w, x))
  {
    var p := BothEndsReceived(v, w, x).(at := map[1 := map[], 2 := map[]], up := [], down := [Okay(2, 2, 0)]);
    Receives(evs, p);
    ReplicaFinishes(evs + [ToPeer(2)], p.(replica := p.replica.(blocked := false), down := []));
  }

  lemma ReleasesBothEnds(evs: seq<Event>, v: Command, w: Command, x: Command) returns (more: seq<Event>)
    requires Leads(evs, BothEnds(v, w, x))
    ensures Leads(evs + more, BothEndsDone(v, w, x))
  {
    var first := ReceivesOn(evs, BothEnds(v, w, x));
    ReceivesBothEnds(v, w, x);
    CountsBothEnds(evs + first, v, w, x);
    FinishesBothEnds(((evs + first) + [ToPrimary(2)]) + [ToPrimary(2)], v, w, x);
    more := first + [ToPrimary(2), ToPrimary(2), ToPeer(2), Finish(2)];
    OneByOne(evs, first);
  }

  lemma OneByOne(evs: seq<Event>, first: seq<Event>)
    ensures evs + (first + [ToPrimary(2), ToPrimary(2), ToPeer(2), Finish(2)]) ==
            ((((evs + first) + [ToPrimary(2)]) + [ToPrimary(2)]) + [ToPeer(2)]) + [Finish(2)]
  {
  }

  lemma LogsAtBothEnds(v: Command, w: Command, x: Command)
    ensures BothEndsDone(v, w, x).primary.log == [v, x, w] && BothEndsDone(v, w, x).replica.log == [v, w, x]
  {
    assert LevelAgain(v).primary.log == [v] && LevelAgain(v).replica.log == [v];
    assert [v] + [x] == [v, x] && [v, x] + [w] == [v, x, w];
    assert [v] + [w] == [v, w] && [v, w] + [x] == [v, w, x];
  }

  lemma InTurn(start: seq<Event>, first: seq<Event>, second: seq<Event>, third: seq<Event>)
    ensures ((start + first) + second) + third == start + (first + (second + third))
  {
  }

  /** A replica has caught up, and then both ends write: at rest the same commands are logged, the primary's own write
      at another place by the primary than by the replica. */
  lemma OwnWriteMoves(v: Command, w: Command, x: Command) returns (before: seq<Event>, evs: seq<Event>)
    requires Transferable(v)
    ensures Behind(Run(2, before), 2) && Found(Run(2, before), 2) == Gap([], [], [v])
    ensures RestsWith(Run(2, (before + [Restart(2)]) + evs), [v, x, w], [v, w, x])
  {
    var first: seq<Event>;
    before, first := CatchesUp(v);
    var start := before + [Restart(2)];
    var second := WritesAtBothEnds(start + first, v, w, x);
    var third := ReleasesBothEnds((start + first) + second, v, w, x);
    evs := first + (second + third);
    InTurn(start, first, second, third);
    LogsAtBothEnds(v, w, x);
    Rests(Run(2, start + evs), BothEndsDone(v, w, x));
  }
}
