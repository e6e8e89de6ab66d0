/** How often the group takes a checkpoint. */
module Checkpoints {
  import opened Sequences
  import opened Replication
  import opened Journals
  import opened Convergence
  import opened Barrier

  // ---- Steps ----

  /** What the primary's checkpoints depend on. */
  predicate SameRound(s: System, s': System)
    requires Shape(s) && Shape(s')
  {
    && s'.nodes[PRIMARY].version == s.nodes[PRIMARY].version && s'.trace.order == s.trace.order
    && (s'.sequencer.phase == s.sequencer.phase || (s.sequencer.phase.Barrier? && s'.sequencer.phase.Ready?))
  }

  lemma DeliveryKeepsRound(s: System, i: nat)
    requires Shape(s) && CanDeliverUp(s, i)
    ensures SameRound(s, StepToPrimary(s, i))
  {
  }

  lemma OthersKeepRound(s: System, ev: Event)
    requires Shape(s) && Enabled(s, ev) && !ev.Sequence? && !ev.CheckpointTest?
    ensures SameRound(s, Step(s, ev))
  {
    if ev.ToPrimary? {
      ToPrimaryIs(s, ev.server);
      DeliveryKeepsRound(s, ev.server);
    }
  }

  lemma SequenceMovesRound(s: System)
    requires Shape(s) && CanSequence(s)
    ensures var s' := Step(s, Sequence);
            && s'.nodes[PRIMARY].version == s.nodes[PRIMARY].version
            && if s.sequencer.holdQueue[0].HeldWrite?
               then s'.sequencer.phase.Committed? && |s'.trace.order| == |s.trace.order| + 1
               else s'.sequencer.phase.Ready? && s'.trace.order == s.trace.order
  {
    SequenceIs(s);
  }

  /** Of the tests between one write and the next, those that find a multiple of three entries in the log start a
      barrier, with a checkpoint of the primary's and a request to every replica. */
  lemma TestTakes(s: System)
    requires Shape(s) && s.sequencer.phase.Committed?
    ensures var s' := Step(s, CheckpointTest);
            && s'.trace.order == s.trace.order
            && if |s.nodes[PRIMARY].log| % 3 == 0
               then
                 && s'.sequencer.phase.Barrier? && s'.nodes[PRIMARY].version == s.nodes[PRIMARY].version + 1
                 && s'.nodes[PRIMARY].checkpoint == s.nodes[PRIMARY].tablet
                 && forall i :: 2 <= i <= s.n ==> s'.down[i] == s.down[i] + [Checkpoint(s.sequencer.stamp)]
               else
                 && s'.sequencer.phase.Ready? && s'.nodes == s.nodes && s'.down == s.down
  {
  }

  // ---- All runs: the tests that take one are counted ----

  /** The event is a test that finds a multiple of three entries in the primary's log. */
  predicate Takes(s: System, ev: Event)
    requires Shape(s)
  {
    ev.CheckpointTest? && s.sequencer.phase.Committed? && |s.nodes[PRIMARY].log| % 3 == 0
  }

  function TestsThatTake(n: nat, evs: seq<Event>): nat
    requires n >= 2
  {
    if evs == [] then 0
    else TestsThatTake(n, evs[..|evs| - 1]) +
         if Takes(Run(n, evs[..|evs| - 1]), evs[|evs| - 1]) then 1 else 0
  }

  lemma VersionStep(s: System, ev: Event)
    requires Shape(s)
    ensures Step(s, ev).nodes[PRIMARY].version == s.nodes[PRIMARY].version + if Takes(s, ev) then 1 else 0
  {
    if Enabled(s, ev) {
      if ev.CheckpointTest? {
        TestTakes(s);
      } else if ev.Sequence? {
        SequenceMovesRound(s);
      } else {
        OthersKeepRound(s, ev);
      }
    }
  }

  /** In every run the primary's version is the number of tests that found a multiple of three entries in its log. */
  lemma {:induction false} VersionCountsTests(n: nat, evs: seq<Event>)
    requires n >= 2
    ensures Run(n, evs).nodes[PRIMARY].version == TestsThatTake(n, evs)
  {
    if evs != [] {
      VersionCountsTests(n, evs[..|evs| - 1]);
      VersionStep(Run(n, evs[..|evs| - 1]), evs[|evs| - 1]);
    }
  }

  // ---- Runs in which the primary has no writes of its own ----

  ghost predicate NoneOwn(evs: seq<Event>) {
    forall c :: Write(PRIMARY, c) !in evs
  }

  lemma NoneTaken(n: nat, evs: seq<Event>)
    requires n >= 2 && NoneOwn(evs)
    ensures TakenOn(n, evs, PRIMARY) == []
  {
    if TakenOn(n, evs, PRIMARY) != [] {
      TakenOnWasRequested(n, evs, PRIMARY, TakenOn(n, evs, PRIMARY)[0]);
    }
  }

  /** Then what the primary has logged is what it has sequenced. */
  lemma LogIsOrder(n: nat, evs: seq<Event>)
    requires n >= 2 && NoneOwn(evs)
    ensures |Run(n, evs).nodes[PRIMARY].log| == |Run(n, evs).trace.order|
  {
    var s := Run(n, evs);
    NoneTaken(n, evs);
    NoWriteIsLost(n, evs, PRIMARY);
    ConservedHolds(n, evs, PRIMARY);
    CommitPathIsPrefix(n, evs, PRIMARY);
    NoneBy(s.trace.journal[PRIMARY], PRIMARY);
    NoneBy(Entries(s.trace.order), PRIMARY);
    assert s.trace.order[..|s.trace.order|] == s.trace.order;
  }

  lemma {:induction false} NoneBy(es: seq<Entry>, r: nat)
    requires By(es, r) == []
    ensures NotBy(es, r) == es
  {
    if es != [] {
      NoneBy(es[..|es| - 1], r);
      FrontAndLast(es);
    }
  }

  /** One checkpoint for every three writes, the last of them once the test after the third has come. */
  predicate InThrees(s: System)
    requires Shape(s)
  {
    if s.sequencer.phase.Committed?
    then |s.trace.order| > 0 && s.nodes[PRIMARY].version == (|s.trace.order| - 1) / 3
    else s.nodes[PRIMARY].version == |s.trace.order| / 3
  }

  lemma InThreesStep(s: System, ev: Event)
    requires Shape(s) && InThrees(s) && |s.nodes[PRIMARY].log| == |s.trace.order|
    ensures InThrees(Step(s, ev))
  {
    if Enabled(s, ev) {
      if ev.CheckpointTest? {
        TestTakes(s);
      } else if ev.Sequence? {
        SequenceMovesRound(s);
      } else {
        OthersKeepRound(s, ev);
      }
    }
  }

  /** In every run in which the primary has no writes of its own, it has taken one checkpoint for every three writes it
      has sequenced, the last one as soon as the test after the third has come. */
  lemma {:induction false} OneInThree(n: nat, evs: seq<Event>)
    requires n >= 2 && NoneOwn(evs)
    ensures var s := Run(n, evs);
            s.nodes[PRIMARY].version ==
            (if s.sequencer.phase == Committed then |s.trace.order| - 1 else |s.trace.order|) / 3
    ensures InThrees(Run(n, evs))
  {
    if evs != [] {
      var front := evs[..|evs| - 1];
      assert NoneOwn(front);
      OneInThree(n, front);
      LogIsOrder(n, front);
      InThreesStep(Run(n, front), evs[|evs| - 1]);
    }
  }

  /** So has every replica that was never disabled, outside a barrier. */
  lemma ReplicasOneInThree(n: nat, evs: seq<Event>, i: nat)
    requires n >= 2 && 1 <= i <= n && NoneOwn(evs) && Run(n, evs).trace.stayed[i]
    requires Run(n, evs).sequencer.phase == Ready && !Run(n, evs).sequencer.checkpointBlock
    ensures Run(n, evs).nodes[i].version == |Run(n, evs).trace.order| / 3
  {
    OneInThree(n, evs);
    CheckpointsAgree(n, evs, i);
  }
}
