/** Runs of a group of two servers in which the protocol falls short of what it is meant to give. */
module Counterexamples {
  import opened Wrappers
  import opened KeyValue
  import opened WriteAheadLog
  import opened Replication
  import opened Channels
  import opened Journals
  import opened Release
  import opened PairRuns

  // ---- A write released too early ----

  /** The primary's first write is sequenced and executed, its second is held. */
  function SecondHeld(w1: Command, w2: Command): Pair {
    var e1 := Entry(1, 0, w1);
    Pair(Execute(FreshNode(), w1).(seqNum := 1, pending := Some(w2), blocked := true), FreshNode(),
         [HeldWrite(Entry(1, 1, w2))], map[1 := map[0 := 1]], 1, Committed, [], Broadcasts(0, e1), [Sequenced(0, e1)])
  }

  lemma HoldsSecond(w1: Command, w2: Command) returns (evs: seq<Event>)
    ensures Leads(evs, SecondHeld(w1, w2))
  {
    var e1, p := Entry(1, 0, w1), Fresh();
    evs := [];
    Starts();
    PrimaryWrites(evs, p, w1);
    evs, p := evs + [Write(1, w1)],
    p.(primary := p.primary.(pending := Some(w1), blocked := true), hold := [HeldWrite(e1)]);
    SequencesHead(evs, p, e1);
    evs, p := evs + [Sequence], AfterSequence(p, e1);
    PrimaryFinishes(evs, p);
    evs, p := evs + [Finish(1)], p.(primary := FinishWrite(p.primary, 1));
    PrimaryWrites(evs, p, w2);
    evs, p := evs + [Write(1, w2)],
    p.(primary := p.primary.(pending := Some(w2), blocked := true), hold := [HeldWrite(Entry(1, 1, w2))]);
    assert p == SecondHeld(w1, w2);
  }

  lemma ReleasedEarly(s: System, p: Pair, w1: Command, w2: Command)
    requires Is(s, p) && p.primary.pending == Some(w2) && !p.primary.blocked && p.primary.seqNum == 1
    requires p.order == [Sequenced(0, Entry(1, 0, w1))]
    ensures CanFinish(s, PRIMARY) && !InOrder(s)
  {
    CountByNext([], Sequenced(0, Entry(1, 0, w1)), 1);
    assert [] + [Sequenced(0, Entry(1, 0, w1))] == [Sequenced(0, Entry(1, 0, w1))];
  }

  /** Then the acknowledgement of the first releases the second. */
  lemma EarlyRelease(w1: Command, w2: Command) returns (evs: seq<Event>)
    ensures CanFinish(Run(2, evs), PRIMARY) && Run(2, evs).nodes[PRIMARY].pending == Some(w2)
    ensures Run(2, evs).sequencer.holdQueue == [HeldWrite(Entry(PRIMARY, 1, w2))] && !InOrder(Run(2, evs))
  {
    evs := HoldsSecond(w1, w2);
    var p := SecondHeld(w1, w2);
    ReceivesCommit(p, 0, Entry(1, 0, w1));
    evs := ReceivesAll(evs, p);
    p := p.(replica := Execute(p.replica, w1), up := [Ack(0, 1, 0)], down := []);
    CountsAck(evs, p);
    evs, p := evs + [ToPrimary(2)], AfterAck(p);
    ReleasedEarly(Run(2, evs), p, w1, w2);
  }

  // ---- Tablets that differ at rest ----

  /** The replica's write is sequenced. */
  function FirstSequenced(x: Entry): Pair {
    Pair(Execute(FreshNode(), x.cmd), FreshNode().(pending := Some(x.cmd), blocked := true),
         [], map[2 := map[0 := 1]], 1, Ready, [], Broadcasts(0, x), [Sequenced(0, x)])
  }

  lemma SequencesFirst(x: Entry) returns (evs: seq<Event>)
    requires x.requestor == 2 && x.seqNum == 0
    ensures Leads(evs, FirstSequenced(x))
  {
    var p := Fresh();
    evs := [];
    Starts();
    ReplicaWrites(evs, p, x.cmd);
    evs, p := evs + [Write(2, x.cmd)],
    p.(replica := FreshNode().(pending := Some(x.cmd), blocked := true), up := [Request(HeldWrite(x))]);
    HoldsRequest(evs, p);
    evs, p := evs + [ToPrimary(2)], p.(hold := [HeldWrite(x)], up := []);
    SequencesHead(evs, p, x);
    evs, p := evs + [Sequence], AfterSequence(p, x);
    SkipsCheckpoint(evs, p);
    evs, p := evs + [CheckpointTest], p.(phase := Ready);
    assert p == FirstSequenced(x);
  }

  /** Then one of the primary's is, and the primary executes it at once. */
  function BothSequenced(x: Entry, y: Entry): Pair {
    var p := FirstSequenced(x);
    Pair(Execute(p.primary, y.cmd).(seqNum := 1), p.replica,
         [], map[2 := map[0 := 1], 1 := map[0 := 1]], 2, Committed, [], p.down + Broadcasts(1, y),
         p.order + [Sequenced(1, y)])
  }

  lemma SequencesSecond(evs: seq<Event>, x: Entry, y: Entry) returns (evs': seq<Event>)
    requires y.requestor == 1 && y.seqNum == 0 && Leads(evs, FirstSequenced(x))
    ensures Leads(evs', BothSequenced(x, y))
  {
    var p := FirstSequenced(x);
    evs' := evs;
    PrimaryWrites(evs', p, y.cmd);
    evs', p := evs' + [Write(1, y.cmd)],
    p.(primary := p.primary.(pending := Some(y.cmd), blocked := true), hold := [HeldWrite(y)]);
    SequencesHead(evs', p, y);
    evs', p := evs' + [Sequence], AfterSequence(p, y);
    PrimaryFinishes(evs', p);
    evs', p := evs' + [Finish(1)], p.(primary := FinishWrite(p.primary, 1));
    assert p == BothSequenced(x, y);
  }

  /** The replica executes the second write as its commit arrives, and acknowledges both. */
  function BothReceived(x: Entry, y: Entry): Pair {
    var p := BothSequenced(x, y);
    p.(replica := Execute(p.replica, y.cmd), up := [Ack(0, 2, 0), Ack(1, 1, 0)], down := [])
  }

  lemma ReceivesBoth(x: Entry, y: Entry)
    requires x.requestor == 2 && x.seqNum == 0 && y.requestor == 1 && y.seqNum == 0
    ensures ReceiveAll(BothSequenced(x, y)) == BothReceived(x, y)
  {
    var p := BothSequenced(x, y);
    var q := p.(down := Broadcasts(0, x));
    ReceiveInTurn(q, Broadcasts(0, x), Broadcasts(1, y));
    ReceivesCommit(q, 0, x);
    ReceivesCommit(ReceiveAll(q).(down := Broadcasts(1, y)), 1, y);
  }

  /** The +OK releases the replica, which executes its own write, the first, last. */
  function BothExecuted(x: Entry, y: Entry): Pair {
    var p := BothReceived(x, y);
    p.(replica := FinishWrite(p.replica.(blocked := false), 2), at := map[2 := map[], 1 := map[]], up := [])
  }

  lemma AcksCounted(p: Pair)
    requires p.at == map[2 := map[0 := 1], 1 := map[0 := 1]] && p.up == [Ack(0, 2, 0), Ack(1, 1, 0)]
    requires p.down == [] && !p.primary.blocked
    ensures AfterAck(p) == p.(at := map[2 := map[], 1 := map[0 := 1]], up := [Ack(1, 1, 0)], down := [Okay(0, 2, 0)])
    ensures AfterAck(AfterAck(p)) == p.(at := map[2 := map[], 1 := map[]], up := [], down := [Okay(0, 2, 0)])
  {
  }

  lemma CountsBoth(evs: seq<Event>, p: Pair)
    requires p.at == map[2 := map[0 := 1], 1 := map[0 := 1]] && p.up == [Ack(0, 2, 0), Ack(1, 1, 0)]
    requires p.down == [] && !p.primary.blocked && Leads(evs, p)
    ensures Leads(evs + [ToPrimary(2)] + [ToPrimary(2)],
                  p.(at := map[2 := map[], 1 := map[]], up := [], down := [Okay(0, 2, 0)]))
  {
    AcksCounted(p);
    CountsAck(evs, p);
    CountsAck(evs + [ToPrimary(2)], AfterAck(p));
  }

  lemma ReleasesReplica(evs: seq<Event>, x: Entry, y: Entry) returns (evs': seq<Event>)
    requires Leads(evs, BothReceived(x, y).(at := map[2 := map[], 1 := map[]], up := [], down := [Okay(0, 2, 0)]))
    ensures Leads(evs', BothExecuted(x, y))
  {
    var p := BothReceived(x, y).(at := map[2 := map[], 1 := map[]], up := [], down := [Okay(0, 2, 0)]);
    evs' := evs;
    Receives(evs', p);
    evs', p := evs' + [ToPeer(2)], p.(replica := p.replica.(blocked := false), down := []);
    ReplicaFinishes(evs', p);
    evs' := evs' + [Finish(2)];
  }

  lemma FirstClaimWins(password: string, other: string)
    ensures var t := Apply(Apply(map[], AddUser("bob", password)), AddUser("bob", other));
            "bob" in t && t["bob"].password == password
  {
  }

  lemma TabletsOf(x: Entry, y: Entry)
    ensures BothExecuted(x, y).primary.tablet == Apply(Apply(map[], x.cmd), y.cmd)
    ensures BothExecuted(x, y).replica.tablet == Apply(Apply(map[], y.cmd), x.cmd)
    ensures BothExecuted(x, y).primary.pending == None && BothExecuted(x, y).replica.pending == None
  {
  }

  /** Two servers add the same user at once: at rest, with neither ever disabled, the user has one password on the
      primary and the other on the replica. */
  lemma ServersDiverge(first: string, second: string) returns (evs: seq<Event>)
    requires first != second
    ensures Quiescent(Run(2, evs)) && Run(2, evs).nodes[1].tablet != Run(2, evs).nodes[2].tablet
  {
    var x, y := Entry(2, 0, AddUser("bob", first)), Entry(1, 0, AddUser("bob", second));
    evs := SequencesFirst(x);
    evs := SequencesSecond(evs, x, y);
    evs := ReceivesAll(evs, BothSequenced(x, y));
    ReceivesBoth(x, y);
    CountsBoth(evs, BothReceived(x, y));
    evs := evs + [ToPrimary(2)] + [ToPrimary(2)];
    evs := ReleasesReplica(evs, x, y);
    TabletsOf(x, y);
    AtRest(Run(2, evs), BothExecuted(x, y));
    FirstClaimWins(first, second);
    FirstClaimWins(second, first);
  }

  // ---- A disabled primary that goes on executing ----

  /** The primary was disabled while it and the replica each had a write under way. */
  function Interrupted(x: Command, y: Command): Pair {
    Pair(DisableNode(FreshNode()).(pending := Some(x), blocked := true),
         FreshNode().(pending := Some(y), blocked := true), [HeldWrite(Entry(1, 0, x))], map[], 0, Ready,
         [Request(HeldWrite(Entry(2, 0, y)))], [], [])
  }

  lemma Interrupts(x: Command, y: Command) returns (evs: seq<Event>)
    ensures Leads(evs, Interrupted(x, y))
  {
    var p := Fresh();
    evs := [];
    Starts();
    PrimaryWrites(evs, p, x);
    evs, p := evs + [Write(1, x)],
    p.(primary := p.primary.(pending := Some(x), blocked := true), hold := [HeldWrite(Entry(1, 0, x))]);
    ReplicaWrites(evs, p, y);
    evs, p := evs + [Write(2, y)],
    p.(replica := p.replica.(pending := Some(y), blocked := true), up := [Request(HeldWrite(Entry(2, 0, y)))]);
    Disables(evs, p);
    evs := evs + [Disable(1)];
    assert p.(primary := DisableNode(p.primary)) == Interrupted(x, y);
  }

  /** It executes both on its cleared tablet. */
  function ExecutesBoth(x: Command, y: Command): Node {
    Execute(Execute(DisableNode(FreshNode()), x).(seqNum := 1), y)
  }

  lemma GoesOn(x: Command, y: Command) returns (evs: seq<Event>)
    ensures Run(2, evs).nodes[1] == RestartNode(ExecutesBoth(x, y))
  {
    var p := Interrupted(x, y);
    evs := Interrupts(x, y);
    SequencesHead(evs, p, Entry(1, 0, x));
    evs, p := evs + [Sequence], AfterSequence(p, Entry(1, 0, x));
    PrimaryFinishes(evs, p);
    evs, p := evs + [Finish(1)], p.(primary := FinishWrite(p.primary, 1));
    SkipsCheckpoint(evs, p);
    evs, p := evs + [CheckpointTest], p.(phase := Ready);
    HoldsRequest(evs, p);
    evs, p := evs + [ToPrimary(2)], p.(hold := [HeldWrite(Entry(2, 0, y))], up := []);
    SequencesHead(evs, p, Entry(2, 0, y));
    evs, p := evs + [Sequence], AfterSequence(p, Entry(2, 0, y));
    assert p.primary == ExecutesBoth(x, y);
    PrimaryRestarts(evs, p);
    evs := evs + [Restart(1)];
  }

  lemma FirstMail(password: string, header: MailHeader, body: string)
    ensures var t := Apply(Apply(map[], AddUser("bob", password)), PutMail("bob", header, body));
            "bob" in t && t["bob"].numEmails == 1
  {
  }

  lemma NextMail(t: Tablet, password: string, header: MailHeader, body: string)
    requires "bob" in t
    ensures var again := Apply(Apply(t, AddUser("bob", password)), PutMail("bob", header, body));
            "bob" in again && again["bob"].numEmails == t["bob"].numEmails + 1
  {
  }

  lemma ReplayTwo(t: Tablet, x: Command, y: Command)
    requires Faithful(x) && Faithful(y)
    ensures ReplayAll(t, [x, y]) == Apply(Apply(t, x), y)
  {
    ReplayStep(t, [], x);
    ReplayStep(t, [x], y);
    assert [] + [x] == [x] && [x] + [y] == [x, y];
  }

  lemma MailTwice(password: string, header: MailHeader, body: string)
    ensures var node := RestartNode(ExecutesBoth(AddUser("bob", password), PutMail("bob", header, body)));
            && !node.disabled && AllFaithful(node.log)
            && "bob" in node.tablet && node.tablet["bob"].numEmails == 2
            && "bob" in ReplayAll(map[], node.log) && ReplayAll(map[], node.log)["bob"].numEmails == 1
  {
    var add, mail := AddUser("bob", password), PutMail("bob", header, body);
    var t := Apply(Apply(map[], add), mail);
    assert ExecutesBoth(add, mail).log == [add, mail] by { assert ([] + [add]) + [mail] == [add, mail]; }
    FirstMail(password, header, body);
    NextMail(t, password, header, body);
    ReplayTwo(map[], add, mail);
    ReplayTwo(t, add, mail);
  }

  /** A user is added and a mail stored while the primary is disabled, and the restart replays both onto what is there:
      the mail is stored twice, and the tablet is not the replay of the log. */
  lemma StoredTwice(password: string, header: MailHeader, body: string) returns (evs: seq<Event>)
    ensures var node := Run(2, evs).nodes[PRIMARY];
            && !node.disabled && AllFaithful(node.log) && !WalAt(node)
            && "bob" in node.tablet && node.tablet["bob"].numEmails == 2
            && "bob" in ReplayAll(map[], node.log) && ReplayAll(map[], node.log)["bob"].numEmails == 1
  {
    evs := GoesOn(AddUser("bob", password), PutMail("bob", header, body));
    MailTwice(password, header, body);
  }
}
