/** From a moment at which a replica holds the primary's log and nothing of either is under way, a run in which neither
    executes another's write over an unsettled own one of the same user leaves them with equal tablets, however often
    the replica was disabled and restarted before. */
module Rejoin {
  import opened Sequences
  import opened KeyValue
  import opened WriteAheadLog
  import opened Replication
  import opened Channels
  import opened Ordering
  import opened OwnWrites
  import opened Journals
  import opened Convergence
  import opened CatchUp
  import opened Reconciliation

  /** No write of the server's is under way, it has seen every commit, and no transfer is on its way to it. */
  predicate Level(s: System, r: nat)
    requires Shape(s) && IsServer(s, r)
  {
    && s.nodes[r].pending.None? && PipeOf(s, r) == [] && Seen(s, r) == |s.trace.order|
    && (r != PRIMARY ==> !s.nodes[r].disabled && NoneComing(s, r))
  }

  predicate NoneComing(s: System, r: nat)
    requires Shape(s) && IsServer(s, r)
  {
    Asked(s, r) == [] && TransfersIn(s.down[r]) == []
  }

  /** A replica at rest is level, once it is enabled. */
  lemma RestIsLevel(n: nat, evs: seq<Event>, r: nat)
    requires n >= 2 && 1 <= r <= n && Quiescent(Run(n, evs)) && (r != PRIMARY ==> !Run(n, evs).nodes[r].disabled)
    ensures Level(Run(n, evs), r)
  {
    RestIsComplete(n, evs, r);
  }

  /** The server is the primary, or an enabled replica that is not disabled on the way. */
  predicate OnDuty(s: System, evs: seq<Event>, r: nat)
    requires Shape(s) && IsServer(s, r)
  {
    r == PRIMARY || (!s.nodes[r].disabled && StaysUp(evs, r))
  }

  // ---- What a server has executed and seen since a moment ----

  function Since(s0: System, s: System, r: nat): seq<Entry>
    requires Shape(s0) && Shape(s) && IsServer(s0, r) && IsServer(s, r)
  {
    Beyond(s.trace.journal[r], s0.trace.journal[r])
  }

  /** The commits seen since the moment, when everything sequenced by then had been seen. */
  function SeenSince(s0: System, s: System, r: nat): seq<Entry>
    requires Shape(s0) && Shape(s) && IsServer(s, r) && Seen(s, r) <= |s.trace.order|
  {
    Beyond(SeenOf(s, r), Entries(s0.trace.order))
  }

  function OrderSince(s0: System, s: System): seq<Entry> {
    Beyond(Entries(s.trace.order), Entries(s0.trace.order))
  }

  /** Both accounts have only grown. */
  ghost predicate Grown(s0: System, s: System, r: nat)
    requires Shape(s0) && Shape(s) && IsServer(s0, r) && IsServer(s, r)
  {
    && Seen(s, r) <= |s.trace.order|
    && s0.trace.journal[r] <= s.trace.journal[r] && Entries(s0.trace.order) <= SeenOf(s, r)
  }

  lemma BeyondGrows<T>(a: seq<T>, b: seq<T>, more: seq<T>)
    requires a <= b
    ensures a <= b + more && Beyond(b + more, a) == Beyond(b, a) + more
  {
    SliceOfLonger(b, more, |a|);
  }

  lemma BeyondParts<T>(a: seq<T>, b: seq<T>)
    requires a <= b
    ensures b == a + Beyond(b, a)
  {
    TakeDrop(b, |a|);
  }

  /** What an event has the server execute, and the commit it has it see. */
  function Does(s: System, ev: Event, r: nat): seq<Entry>
    requires Shape(s) && IsServer(s, r)
  {
    if Enabled(s, ev) then DoneBy(s, ev, r) else []
  }

  function Sees(s: System, ev: Event, r: nat): seq<Entry>
    requires Shape(s) && IsServer(s, r)
  {
    if Enabled(s, ev) then SeenBy(s, ev, r) else []
  }

  lemma GrownStep(s0: System, s: System, ev: Event, r: nat)
    requires Shape(s0) && Shape(s) && ChainInv(s) && IsServer(s0, r) && IsServer(s, r) && Executing(s, r)
    requires Grown(s0, s, r)
    ensures Grown(s0, Step(s, ev), r)
    ensures Since(s0, Step(s, ev), r) == Since(s0, s, r) + Does(s, ev, r)
    ensures SeenSince(s0, Step(s, ev), r) == SeenSince(s0, s, r) + Sees(s, ev, r)
  {
    if Enabled(s, ev) {
      AccountStep(s, ev, r);
      BeyondGrows(s0.trace.journal[r], s.trace.journal[r], DoneBy(s, ev, r));
      BeyondGrows(Entries(s0.trace.order), SeenOf(s, r), SeenBy(s, ev, r));
    } else {
      RightEmpty(Since(s0, s, r));
      RightEmpty(SeenSince(s0, s, r));
    }
  }

  lemma StartsGrown(s0: System, r: nat)
    requires Shape(s0) && IsServer(s0, r) && Seen(s0, r) == |s0.trace.order|
    ensures Grown(s0, s0, r) && Since(s0, s0, r) == [] && SeenSince(s0, s0, r) == []
  {
    assert s0.trace.order[..|s0.trace.order|] == s0.trace.order;
  }

  lemma StillOnDuty(s: System, evs: seq<Event>, r: nat)
    requires Shape(s) && IsServer(s, r) && evs != [] && OnDuty(s, evs, r)
    ensures OnDuty(s, evs[..|evs| - 1], r) && (r != PRIMARY ==> evs[|evs| - 1] != Disable(r))
  {
  }

  lemma ExecutingStep(s: System, ev: Event, r: nat)
    requires Shape(s) && IsServer(s, r) && Executing(s, r) && (r != PRIMARY ==> ev != Disable(r))
    ensures Executing(Step(s, ev), r)
  {
    if r != PRIMARY { StepStaysUp(s, ev, r); }
  }

  lemma {:induction false} AccountsGrow(s: System, evs: seq<Event>, r: nat)
    requires Shape(s) && ChainInv(s) && PipeInv(s) && IsServer(s, r) && Seen(s, r) <= |s.trace.order|
    requires OnDuty(s, evs, r)
    ensures var s' := Continue(s, evs);
            && ChainInv(s') && PipeInv(s') && Executing(s', r) && Seen(s', r) <= |s'.trace.order|
            && s.trace.journal[r] <= s'.trace.journal[r] && SeenOf(s, r) <= SeenOf(s', r)
  {
    if evs != [] {
      var front, ev := evs[..|evs| - 1], evs[|evs| - 1];
      var s1 := Continue(s, front);
      StillOnDuty(s, evs, r);
      AccountsGrow(s, front, r);
      ChainSteps(s1, ev);
      PipeSteps(s1, ev);
      ExecutingStep(s1, ev, r);
      AccountGrows(s1, ev, r);
      PrefixOfPrefix(s.trace.journal[r], s1.trace.journal[r], Step(s1, ev).trace.journal[r]);
      PrefixOfPrefix(SeenOf(s, r), SeenOf(s1, r), SeenOf(Step(s1, ev), r));
    }
  }

  lemma GrownAlong(s0: System, evs: seq<Event>, r: nat)
    requires Shape(s0) && ChainInv(s0) && PipeInv(s0) && IsServer(s0, r) && Seen(s0, r) == |s0.trace.order|
    requires OnDuty(s0, evs, r)
    ensures var s := Continue(s0, evs); ChainInv(s) && PipeInv(s) && Executing(s, r) && Grown(s0, s, r)
  {
    AccountsGrow(s0, evs, r);
    assert s0.trace.order[..|s0.trace.order|] == s0.trace.order;
  }

  // ---- Own writes ----

  /** The writes a server takes on along the way. */
  function TakenSince(s: System, evs: seq<Event>, r: nat): seq<Entry>
    requires Shape(s) && IsServer(s, r)
  {
    if evs == [] then []
    else TakenSince(s, evs[..|evs| - 1], r) + NewBy(Continue(s, evs[..|evs| - 1]), evs[|evs| - 1], r)
  }

  lemma {:induction false} WrittenSince(s: System, evs: seq<Event>, r: nat)
    requires Shape(s) && PipeInv(s) && IsServer(s, r)
    ensures PipeInv(Continue(s, evs)) && Written(Continue(s, evs), r) == Written(s, r) + TakenSince(s, evs, r)
  {
    if evs == [] {
      RightEmpty(Written(s, r));
    } else {
      var front, ev := evs[..|evs| - 1], evs[|evs| - 1];
      WrittenSince(s, front, r);
      PipeSteps(Continue(s, front), ev);
      WrittenSteps(Continue(s, front), ev, r);
      Reassociate(Written(s, r), TakenSince(s, front, r), NewBy(Continue(s, front), ev, r));
    }
  }

  lemma {:induction false} AccountedSince(s: System, evs: seq<Event>, r: nat)
    requires Shape(s) && IsServer(s, r) && OnDuty(s, evs, r)
    ensures Executing(Continue(s, evs), r)
    ensures Accounted(Continue(s, evs), r) == Accounted(s, r) + TakenSince(s, evs, r)
  {
    if evs == [] {
      RightEmpty(Accounted(s, r));
    } else {
      var front, ev := evs[..|evs| - 1], evs[|evs| - 1];
      StillOnDuty(s, evs, r);
      AccountedSince(s, front, r);
      ExecutingStep(Continue(s, front), ev, r);
      AccountedSteps(Continue(s, front), ev, r);
      Reassociate(Accounted(s, r), TakenSince(s, front, r), NewBy(Continue(s, front), ev, r));
    }
  }

  lemma StaysDisabled(s: System, ev: Event, r: nat)
    requires Shape(s) && IsServer(s, r) && s.nodes[r].disabled && ev != Restart(r)
    ensures Step(s, ev).nodes[r].disabled && NewBy(s, ev, r) == []
  {
    if Enabled(s, ev) && ev.ToPrimary? {
      ToPrimaryIs(s, ev.server);
      DeliveryKeeps(s, ev.server, r);
    }
  }

  /** A disabled server takes on no write until it is restarted. */
  lemma {:induction false} DisabledTakesNone(s: System, evs: seq<Event>, r: nat)
    requires Shape(s) && IsServer(s, r) && s.nodes[r].disabled && Restart(r) !in evs
    ensures Continue(s, evs).nodes[r].disabled && TakenSince(s, evs, r) == []
  {
    if evs != [] {
      DisabledTakesNone(s, evs[..|evs| - 1], r);
      StaysDisabled(Continue(s, evs[..|evs| - 1]), evs[|evs| - 1], r);
    }
  }

  /** What is behind a common part. */
  lemma BehindCommon<T>(common: seq<T>, a: seq<T>, b: seq<T>, all: seq<T>)
    requires (common + a) + b == common + all
    ensures a + b == all
  {
    Reassociate(common, a, b);
    SameTails(common, a + b, all);
  }

  lemma OwnDone(s0: System, evs: seq<Event>, r: nat)
    requires Shape(s0) && ChainInv(s0) && PipeInv(s0) && IsServer(s0, r) && Level(s0, r) && OnDuty(s0, evs, r)
    ensures var s := Continue(s0, evs); By(Since(s0, s, r), r) + PendingOf(s, r) == TakenSince(s0, evs, r)
  {
    var s := Continue(s0, evs);
    GrownAlong(s0, evs, r);
    AccountedSince(s0, evs, r);
    BeyondParts(s0.trace.journal[r], s.trace.journal[r]);
    ByConcat(s0.trace.journal[r], Since(s0, s, r), r);
    RightEmpty(By(s0.trace.journal[r], r));
    BehindCommon(By(s0.trace.journal[r], r), By(Since(s0, s, r), r), PendingOf(s, r), TakenSince(s0, evs, r));
  }

  /** The part of the order a server has yet to see. */
  function Unseen(s: System, r: nat): seq<Entry>
    requires Shape(s) && IsServer(s, r) && Seen(s, r) <= |s.trace.order|
  {
    Entries(s.trace.order[Seen(s, r)..])
  }

  lemma OrderParts(s0: System, s: System, r: nat)
    requires Shape(s0) && Shape(s) && IsServer(s0, r) && IsServer(s, r) && Grown(s0, s, r)
    ensures Entries(s.trace.order) == (Entries(s0.trace.order) + SeenSince(s0, s, r)) + Unseen(s, r)
  {
    BeyondParts(Entries(s0.trace.order), SeenOf(s, r));
    assert Entries(s.trace.order) == SeenOf(s, r) + Unseen(s, r);
  }

  lemma OwnSeen(s0: System, evs: seq<Event>, r: nat)
    requires Shape(s0) && ChainInv(s0) && PipeInv(s0) && IsServer(s0, r) && Level(s0, r) && OnDuty(s0, evs, r)
    ensures var s := Continue(s0, evs);
            && Seen(s, r) <= |s.trace.order|
            && By(SeenSince(s0, s, r), r) + (By(Unseen(s, r), r) + PipeOf(s, r)) == TakenSince(s0, evs, r)
  {
    var s, base := Continue(s0, evs), Entries(s0.trace.order);
    GrownAlong(s0, evs, r);
    WrittenSince(s0, evs, r);
    OrderParts(s0, s, r);
    ByConcat(base + SeenSince(s0, s, r), Unseen(s, r), r);
    ByConcat(base, SeenSince(s0, s, r), r);
    Reassociate(By(base, r) + By(SeenSince(s0, s, r), r), By(Unseen(s, r), r), PipeOf(s, r));
    RightEmpty(By(base, r));
    BehindCommon(By(base, r), By(SeenSince(s0, s, r), r), By(Unseen(s, r), r) + PipeOf(s, r), TakenSince(s0, evs, r));
  }

  /** What a server has executed of its own writes since, and what it has seen of them, are both prefixes of those it
      has taken on. */
  lemma OwnSince(s0: System, evs: seq<Event>, r: nat)
    requires Shape(s0) && ChainInv(s0) && PipeInv(s0) && IsServer(s0, r) && Level(s0, r) && OnDuty(s0, evs, r)
    ensures var s, own := Continue(s0, evs), TakenSince(s0, evs, r);
            && Seen(s, r) <= |s.trace.order|
            && By(Since(s0, s, r), r) <= own && By(SeenSince(s0, s, r), r) <= own
            && (Quiescent(s) && Seen(s, r) == |s.trace.order| ==>
                  By(Since(s0, s, r), r) == By(SeenSince(s0, s, r), r) == own)
  {
    var s := Continue(s0, evs);
    OwnDone(s0, evs, r);
    OwnSeen(s0, evs, r);
    if Quiescent(s) && Seen(s, r) == |s.trace.order| {
      assert By(Unseen(s, r), r) == [] && PipeOf(s, r) == [];
    }
  }

  // ---- Order of a user's writes ----

  /** The server is about to execute another's write naming a user of an own write that, since the moment, it has seen
      and not executed, or executed and not seen. */
  ghost predicate ContendedSince(s0: System, s: System, ev: Event, r: nat)
    requires Shape(s0) && Shape(s) && IsServer(s0, r) && IsServer(s, r)
  {
    && Enabled(s, ev) && Seen(s, r) <= |s.trace.order| && ForeignOf(s, ev, r).Some?
    && !Apart(Unsettled(Since(s0, s, r), SeenSince(s0, s, r), r), ForeignOf(s, ev, r).value.cmd)
  }

  ghost predicate UncontendedSince(s0: System, evs: seq<Event>, r: nat)
    requires Shape(s0) && IsServer(s0, r)
  {
    forall k :: 0 <= k < |evs| ==> !ContendedSince(s0, Continue(s0, evs[..k]), evs[k], r)
  }

  lemma UncontendedFront(s0: System, evs: seq<Event>, r: nat)
    requires Shape(s0) && IsServer(s0, r) && evs != [] && UncontendedSince(s0, evs, r)
    ensures var front := evs[..|evs| - 1];
            UncontendedSince(s0, front, r) && !ContendedSince(s0, Continue(s0, front), evs[|evs| - 1], r)
  {
    var front := evs[..|evs| - 1];
    forall k | 0 <= k < |front| ensures !ContendedSince(s0, Continue(s0, front[..k]), front[k], r) {
      TakeOfTake(evs, k, |evs| - 1);
      assert !ContendedSince(s0, Continue(s0, evs[..k]), evs[k], r);
    }
  }

  ghost predicate OrderKept(s0: System, s: System, r: nat)
    requires Shape(s0) && Shape(s) && IsServer(s0, r) && IsServer(s, r) && Seen(s, r) <= |s.trace.order|
  {
    forall u :: Tally(Since(s0, s, r), SeenSince(s0, s, r), r, u)
  }

  lemma SinceAdvances(s0: System, s: System, ev: Event, r: nat)
    requires Shape(s0) && Shape(s) && IsServer(s0, r) && IsServer(s, r) && Seen(s, r) <= |s.trace.order|
    requires !ContendedSince(s0, s, ev, r)
    ensures Advances(Since(s0, s, r), SeenSince(s0, s, r), Does(s, ev, r), Sees(s, ev, r), r)
  {
  }

  lemma OrderKeptStep(s0: System, evs: seq<Event>, r: nat)
    requires Shape(s0) && ChainInv(s0) && PipeInv(s0) && IsServer(s0, r) && Level(s0, r) && OnDuty(s0, evs, r)
    requires evs != [] && !ContendedSince(s0, Continue(s0, evs[..|evs| - 1]), evs[|evs| - 1], r)
    requires var s := Continue(s0, evs[..|evs| - 1]); Seen(s, r) <= |s.trace.order| && OrderKept(s0, s, r)
    ensures var s' := Continue(s0, evs); Seen(s', r) <= |s'.trace.order| && OrderKept(s0, s', r)
  {
    var front, ev := evs[..|evs| - 1], evs[|evs| - 1];
    var s := Continue(s0, front);
    StillOnDuty(s0, evs, r);
    GrownAlong(s0, front, r);
    GrownStep(s0, s, ev, r);
    SinceAdvances(s0, s, ev, r);
    OwnSince(s0, evs, r);
    TalliesStep(Since(s0, s, r), SeenSince(s0, s, r), Does(s, ev, r), Sees(s, ev, r), r);
  }

  lemma {:induction false} OrderKeptAlong(s0: System, evs: seq<Event>, r: nat)
    requires Shape(s0) && ChainInv(s0) && PipeInv(s0) && IsServer(s0, r) && Level(s0, r) && OnDuty(s0, evs, r)
    requires UncontendedSince(s0, evs, r)
    ensures var s := Continue(s0, evs); Seen(s, r) <= |s.trace.order| && OrderKept(s0, s, r)
  {
    if evs == [] {
      StartsGrown(s0, r);
    } else {
      StillOnDuty(s0, evs, r);
      UncontendedFront(s0, evs, r);
      OrderKeptAlong(s0, evs[..|evs| - 1], r);
      OrderKeptStep(s0, evs, r);
    }
  }

  /** Everything sequenced has been seen. */
  lemma RestSeesAll(s0: System, s: System, r: nat)
    requires Shape(s0) && Shape(s) && IsServer(s0, r) && IsServer(s, r) && ChainInv(s) && Quiescent(s)
    ensures Seen(s, r) == |s.trace.order| && SeenSince(s0, s, r) == OrderSince(s0, s)
  {
    if r != PRIMARY {
      assert Chain(s.trace.order, s.trace.consumed[r], s.trace.acked[r], s.up[r], s.down[r]);
      assert |s.trace.order[s.trace.consumed[r]..]| == 0;
    }
    assert s.trace.order[..|s.trace.order|] == s.trace.order;
  }

  // ---- Contention shows at the end ----

  lemma ContinueNext(s0: System, evs: seq<Event>, k: nat)
    requires Shape(s0) && k < |evs|
    ensures Continue(s0, evs[..k + 1]) == Step(Continue(s0, evs[..k]), evs[k])
  {
    TakeOfTake(evs, k, k + 1);
  }

  lemma OnDutySoFar(s0: System, evs: seq<Event>, k: nat, r: nat)
    requires Shape(s0) && IsServer(s0, r) && k <= |evs| && OnDuty(s0, evs, r)
    ensures OnDuty(s0, evs[..k], r)
  {
  }

  lemma SinceStep(s0: System, evs: seq<Event>, k: nat, r: nat)
    requires Shape(s0) && ChainInv(s0) && PipeInv(s0) && IsServer(s0, r) && Level(s0, r) && OnDuty(s0, evs, r)
    requires k < |evs|
    ensures var s, s' := Continue(s0, evs[..k]), Continue(s0, evs[..k + 1]);
            && Seen(s, r) <= |s.trace.order| && Seen(s', r) <= |s'.trace.order|
            && Since(s0, s', r) == Since(s0, s, r) + Does(s, evs[k], r)
            && SeenSince(s0, s', r) == SeenSince(s0, s, r) + Sees(s, evs[k], r)
  {
    OnDutySoFar(s0, evs, k, r);
    GrownAlong(s0, evs[..k], r);
    GrownStep(s0, Continue(s0, evs[..k]), evs[k], r);
    ContinueNext(s0, evs, k);
  }

  lemma {:induction false} ContinueOn(s: System, evs: seq<Event>, more: seq<Event>)
    requires Shape(s)
    ensures Continue(s, evs + more) == Continue(Continue(s, evs), more)
  {
    if more == [] {
      RightEmpty(evs);
    } else {
      ContinueOn(s, evs, more[..|more| - 1]);
      Front(evs, more);
    }
  }

  lemma BeyondMonotone<T>(a: seq<T>, b: seq<T>, c: seq<T>)
    requires a <= b && b <= c
    ensures Beyond(b, a) <= Beyond(c, a)
  {
    TakeDrop(c, |b|);
    SliceOfLonger(b, c[|b|..], |a|);
    StartsWith(b[|a|..], c[|b|..]);
  }

  lemma OnDutyLater(s0: System, evs: seq<Event>, k: nat, r: nat)
    requires Shape(s0) && IsServer(s0, r) && k <= |evs| && OnDuty(s0, evs, r)
    requires Executing(Continue(s0, evs[..k]), r)
    ensures OnDuty(Continue(s0, evs[..k]), evs[k..], r)
  {
  }

  lemma SinceGrows(s0: System, evs: seq<Event>, k: nat, r: nat)
    requires Shape(s0) && ChainInv(s0) && PipeInv(s0) && IsServer(s0, r) && Seen(s0, r) == |s0.trace.order|
    requires OnDuty(s0, evs, r) && k <= |evs|
    ensures var s, s' := Continue(s0, evs[..k]), Continue(s0, evs);
            && Seen(s, r) <= |s.trace.order| && Seen(s', r) <= |s'.trace.order|
            && Since(s0, s, r) <= Since(s0, s', r) && SeenSince(s0, s, r) <= SeenSince(s0, s', r)
  {
    var s, s' := Continue(s0, evs[..k]), Continue(s0, evs);
    OnDutySoFar(s0, evs, k, r);
    GrownAlong(s0, evs[..k], r);
    OnDutyLater(s0, evs, k, r);
    AccountsGrow(s, evs[k..], r);
    TakeDrop(evs, k);
    ContinueOn(s0, evs[..k], evs[k..]);
    BeyondMonotone(s0.trace.journal[r], s.trace.journal[r], s'.trace.journal[r]);
    BeyondMonotone(Entries(s0.trace.order), SeenOf(s, r), SeenOf(s', r));
  }

  lemma OwnSinceNumbers(s0: System, evs: seq<Event>, r: nat)
    requires Shape(s0) && PipeInv(s0) && IsServer(s0, r)
    ensures NumberedFrom(TakenSince(s0, evs, r), r, |Written(s0, r)|)
  {
    WrittenSince(s0, evs, r);
    OwnNumbers(Continue(s0, evs), r);
    NumberedBehind(Written(s0, r), TakenSince(s0, evs, r), r);
  }

  lemma NumberedBehind(a: seq<Entry>, b: seq<Entry>, r: nat)
    requires NumberedFrom(a + b, r, 0)
    ensures NumberedFrom(b, r, |a|)
  {
    forall k | 0 <= k < |b| ensures b[k].requestor == r && b[k].seqNum == |a| + k {
      assert (a + b)[|a| + k] == b[k];
    }
  }

  lemma OneSidedSince(s0: System, evs: seq<Event>, r: nat, x: Entry)
    requires Shape(s0) && ChainInv(s0) && PipeInv(s0) && IsServer(s0, r) && Level(s0, r) && OnDuty(s0, evs, r)
    requires var s := Continue(s0, evs);
             Seen(s, r) <= |s.trace.order| && x in Unsettled(Since(s0, s, r), SeenSince(s0, s, r), r)
    ensures var s := Continue(s0, evs); x in Since(s0, s, r) <==> x !in SeenSince(s0, s, r)
  {
    var s := Continue(s0, evs);
    OwnSinceNumbers(s0, evs, r);
    OwnSince(s0, evs, r);
    OneSided(Since(s0, s, r), SeenSince(s0, s, r), TakenSince(s0, evs, r), r, |Written(s0, r)|, x);
  }

  lemma ForeignIsBoth(s: System, ev: Event, r: nat)
    requires Shape(s) && IsServer(s, r) && Enabled(s, ev) && ForeignOf(s, ev, r).Some?
    ensures Does(s, ev, r) == Sees(s, ev, r) == [ForeignOf(s, ev, r).value]
  {
  }

  /** At a contended step both accounts gain the same write, and one of them lacks an earlier one of its user. */
  lemma OvertakesSince(s0: System, evs: seq<Event>, ev: Event, r: nat) returns (e: Entry, x: Entry)
    requires Shape(s0) && ChainInv(s0) && PipeInv(s0) && IsServer(s0, r) && Level(s0, r) && OnDuty(s0, evs, r)
    requires ContendedSince(s0, Continue(s0, evs), ev, r)
    ensures var s := Continue(s0, evs);
            && Seen(s, r) <= |s.trace.order| && Does(s, ev, r) == [e] && Sees(s, ev, r) == [e]
            && (x in Since(s0, s, r) <==> x !in SeenSince(s0, s, r)) && UserOf(x.cmd) == UserOf(e.cmd)
  {
    var s := Continue(s0, evs);
    e := ForeignOf(s, ev, r).value;
    x :| x in Unsettled(Since(s0, s, r), SeenSince(s0, s, r), r) && UserOf(x.cmd) == UserOf(e.cmd);
    OneSidedSince(s0, evs, r, x);
    ForeignIsBoth(s, ev, r);
  }

  lemma OrderSinceDistinct(s0: System, s: System)
    requires Numbered(s.trace.order)
    ensures Distinct(OrderSince(s0, s))
  {
    OrderDistinct(s.trace.order);
  }

  /** Each contended step leaves some user's writes in a different order. */
  lemma SinceShows(s0: System, evs: seq<Event>, k: nat, r: nat) returns (u: string)
    requires Shape(s0) && ChainInv(s0) && PipeInv(s0) && IsServer(s0, r) && Level(s0, r) && OnDuty(s0, evs, r)
    requires k < |evs| && ContendedSince(s0, Continue(s0, evs[..k]), evs[k], r) && Quiescent(Continue(s0, evs))
    ensures For(Since(s0, Continue(s0, evs), r), u) != For(OrderSince(s0, Continue(s0, evs)), u)
  {
    var s, s' := Continue(s0, evs[..k]), Continue(s0, evs);
    OnDutySoFar(s0, evs, k, r);
    var e, x := OvertakesSince(s0, evs[..k], evs[k], r);
    SinceStep(s0, evs, k, r);
    SinceGrows(s0, evs, k + 1, r);
    GrownAlong(s0, evs, r);
    RestSeesAll(s0, s', r);
    OrderSinceDistinct(s0, s');
    OvertakingShows(Since(s0, s, r), SeenSince(s0, s, r), Since(s0, s', r), OrderSince(s0, s'), e, x);
    u := UserOf(e.cmd);
  }

  /** From a level moment to rest, a server executes every user's writes in the primary's order exactly when none of its
      steps is contended. */
  lemma SinceExact(s0: System, evs: seq<Event>, r: nat)
    requires Shape(s0) && ChainInv(s0) && PipeInv(s0) && IsServer(s0, r) && Level(s0, r) && OnDuty(s0, evs, r)
    requires Quiescent(Continue(s0, evs))
    ensures var s := Continue(s0, evs);
            (forall u :: For(Since(s0, s, r), u) == For(OrderSince(s0, s), u)) <==> UncontendedSince(s0, evs, r)
  {
    var s := Continue(s0, evs);
    if UncontendedSince(s0, evs, r) {
      GrownAlong(s0, evs, r);
      RestSeesAll(s0, s, r);
      OrderKeptAlong(s0, evs, r);
      OwnSince(s0, evs, r);
      SettledSince(s0, s, r);
    } else {
      var k :| 0 <= k < |evs| && ContendedSince(s0, Continue(s0, evs[..k]), evs[k], r);
      var u := SinceShows(s0, evs, k, r);
    }
  }

  lemma SettledSince(s0: System, s: System, r: nat)
    requires Shape(s0) && Shape(s) && IsServer(s0, r) && IsServer(s, r) && Seen(s, r) <= |s.trace.order|
    requires OrderKept(s0, s, r) && By(Since(s0, s, r), r) == By(SeenSince(s0, s, r), r)
    ensures forall u :: For(Since(s0, s, r), u) == For(SeenSince(s0, s, r), u)
  {
    forall u ensures For(Since(s0, s, r), u) == For(SeenSince(s0, s, r), u) {
      TallySettled(Since(s0, s, r), SeenSince(s0, s, r), r, u);
    }
  }

  // ---- Logs ----

  lemma DoneIsLogged(s: System, ev: Event)
    requires Shape(s)
    ensures PrimaryExecutes(s, ev) == Cmds(Does(s, ev, PRIMARY))
  {
  }

  lemma PeerLogs(s: System, ev: Event, r: nat)
    requires Shape(s) && IsPeer(s, r) && !s.nodes[r].disabled && TransfersIn(s.down[r]) == []
    requires ev != Disable(r)
    ensures Step(s, ev).nodes[r].log == s.nodes[r].log + Cmds(Does(s, ev, r))
  {
    RightEmpty(s.nodes[r].log);
    if Enabled(s, ev) {
      if ev.ToPrimary? {
        DeliveryKeeps(s, ev.server, r);
      } else if ev.Sequence? {
        SequenceSpares(s, r);
      } else if ev == ToPeer(r) {
        ReceiptLogs(s, r);
      } else if ev == Finish(r) {
        FinishIs(s, r);
      } else {
        LogElsewhere(s, ev, r);
      }
    }
  }

  lemma CommitLogs(s: System, r: nat)
    requires Shape(s) && CanDeliverDown(s, r) && s.down[r][0].Commit? && !s.nodes[r].disabled
    ensures Step(s, ToPeer(r)).nodes[r].log == s.nodes[r].log + Cmds(Does(s, ToPeer(r), r))
  {
    ToPeerIs(s, r);
    CommitMoves(s, r);
    RightEmpty(s.nodes[r].log);
  }

  lemma ReceiptLogs(s: System, r: nat)
    requires Shape(s) && CanDeliverDown(s, r) && !s.nodes[r].disabled && TransfersIn(s.down[r]) == []
    ensures Step(s, ToPeer(r)).nodes[r].log == s.nodes[r].log + Cmds(Does(s, ToPeer(r), r))
  {
    if s.down[r][0].Commit? {
      CommitLogs(s, r);
    } else {
      ReceiptChannels(s, r);
      ToPeerIs(s, r);
      Journals.ReceiptSpares(s, r, r);
      RightEmpty(s.nodes[r].log);
    }
  }

  lemma LogElsewhere(s: System, ev: Event, r: nat)
    requires Shape(s) && IsPeer(s, r) && !s.nodes[r].disabled && Enabled(s, ev)
    requires !ev.ToPrimary? && !ev.Sequence? && ev != ToPeer(r) && ev != Finish(r) && ev != Disable(r)
    ensures Step(s, ev).nodes[r].log == s.nodes[r].log && Does(s, ev, r) == []
  {
  }

  lemma LogStep(s: System, ev: Event, r: nat)
    requires Shape(s) && IsServer(s, r) && (r != PRIMARY ==> !s.nodes[r].disabled && NoneComing(s, r))
    requires r != PRIMARY ==> ev != Disable(r)
    ensures Step(s, ev).nodes[r].log == s.nodes[r].log + Cmds(Does(s, ev, r))
  {
    if r == PRIMARY {
      PrimaryLogs(s, ev);
      DoneIsLogged(s, ev);
    } else {
      PeerLogs(s, ev, r);
    }
  }

  // ---- No transfer comes to a replica that has not asked ----

  lemma TransfersAfterSequence(s: System, r: nat)
    requires Shape(s) && CanSequence(s) && IsPeer(s, r) && NoneComing(s, r)
    ensures TransfersIn(Step(s, Sequence).down[r]) == []
  {
    var h := s.sequencer.holdQueue[0];
    SequenceIs(s);
    AskedHead(s.sequencer.holdQueue, r);
    if h.HeldWrite? {
      SequenceChannels(s, h.entry, r);
    } else {
      TransferMoves(s, h.requestor, h.have, r);
    }
  }

  lemma TransfersElsewhere(s: System, ev: Event, r: nat)
    requires Shape(s) && IsPeer(s, r) && Enabled(s, ev)
    requires !ev.ToPrimary? && !ev.Sequence? && !ev.CheckpointTest? && ev != ToPeer(r)
    ensures Step(s, ev).down[r] == s.down[r]
  {
  }

  lemma NoTransferStep(s: System, ev: Event, r: nat)
    requires Shape(s) && IsPeer(s, r) && NoneComing(s, r)
    ensures TransfersIn(Step(s, ev).down[r]) == []
  {
    if Enabled(s, ev) {
      if ev.ToPrimary? {
        DeliveryKeeps(s, ev.server, r);
      } else if ev.Sequence? {
        TransfersAfterSequence(s, r);
      } else if ev.CheckpointTest? {
        TestLeavesWrites(s, r);
        CheckpointIsNoTransfer(s.down[r], s.sequencer.stamp);
      } else if ev == ToPeer(r) {
        ReceiptChannels(s, r);
        ToPeerIs(s, r);
      } else {
        TransfersElsewhere(s, ev, r);
      }
    }
  }

  lemma NoneComingStep(s: System, ev: Event, r: nat)
    requires Shape(s) && PipeInv(s) && IsPeer(s, r) && !s.nodes[r].disabled && NoneComing(s, r)
    ensures NoneComing(Step(s, ev), r)
  {
    AskedSteps(s, ev, r);
    NoTransferStep(s, ev, r);
  }

  lemma LogNext(log: seq<Command>, since: seq<Entry>, more: seq<Entry>)
    ensures (log + Cmds(since)) + Cmds(more) == log + Cmds(since + more)
  {
  }

  lemma {:induction false} LogSince(s0: System, evs: seq<Event>, r: nat)
    requires Shape(s0) && ChainInv(s0) && PipeInv(s0) && IsServer(s0, r) && Level(s0, r) && OnDuty(s0, evs, r)
    ensures var s := Continue(s0, evs);
            && (r != PRIMARY ==> !s.nodes[r].disabled && NoneComing(s, r))
            && s.nodes[r].log == s0.nodes[r].log + Cmds(Since(s0, s, r))
  {
    if evs == [] {
      StartsGrown(s0, r);
      RightEmpty(s0.nodes[r].log);
    } else {
      var front, ev := evs[..|evs| - 1], evs[|evs| - 1];
      var s := Continue(s0, front);
      StillOnDuty(s0, evs, r);
      LogSince(s0, front, r);
      GrownAlong(s0, front, r);
      GrownStep(s0, s, ev, r);
      ExecutingStep(s, ev, r);
      LogStep(s, ev, r);
      if r != PRIMARY { NoneComingStep(s, ev, r); }
      LogNext(s0.nodes[r].log, Since(s0, s, r), Does(s, ev, r));
    }
  }

  // ---- Tablets ----

  lemma {:induction false} NamingConcat(a: seq<Command>, b: seq<Command>, u: string)
    ensures Naming(a + b, u) == Naming(a, u) + Naming(b, u)
  {
    if b == [] {
      RightEmpty(a);
      RightEmpty(Naming(a, u));
    } else {
      var last := b[|b| - 1];
      NamingConcat(a, b[..|b| - 1], u);
      Front(a, b);
      Reassociate(Naming(a, u), Naming(b[..|b| - 1], u), if UserOf(last) == u then [last] else []);
    }
  }

  lemma {:induction false} NamingMembers(cs: seq<Command>, c: Command)
    ensures c in Naming(cs, UserOf(c)) <==> c in cs
  {
    if cs != [] {
      NamingMembers(cs[..|cs| - 1], c);
      FrontAndLast(cs);
    }
  }

  /** Commands that name each user alike are the same commands. */
  lemma SameNamesSameCommands(xs: seq<Command>, ys: seq<Command>)
    requires forall u :: Naming(xs, u) == Naming(ys, u)
    ensures Added(xs) == Added(ys) && (AllFaithful(xs) <==> AllFaithful(ys))
  {
    forall c ensures c in xs <==> c in ys {
      NamingMembers(xs, c);
      NamingMembers(ys, c);
    }
    FaithfulMembers(xs, ys);
    FaithfulMembers(ys, xs);
  }

  lemma FaithfulMembers(xs: seq<Command>, ys: seq<Command>)
    requires forall c :: c in xs ==> c in ys
    ensures AllFaithful(ys) ==> AllFaithful(xs)
  {
    if AllFaithful(ys) {
      forall i | 0 <= i < |xs| ensures Faithful(xs[i]) {
        assert xs[i] in ys;
      }
    }
  }

  lemma SameNames(log: seq<Command>, xs: seq<Entry>, ys: seq<Entry>)
    requires forall u :: For(xs, u) == For(ys, u)
    ensures forall u :: Naming(log + Cmds(xs), u) == Naming(log + Cmds(ys), u)
  {
    forall u ensures Naming(log + Cmds(xs), u) == Naming(log + Cmds(ys), u) {
      NamingConcat(log, Cmds(xs), u);
      NamingConcat(log, Cmds(ys), u);
      ForIsNaming(xs, u);
      ForIsNaming(ys, u);
    }
  }

  /** From a moment at which the logs agree and both ends are level, a run to rest that is uncontended at both leaves
      logs that list each user's commands alike. */
  lemma LogsStayLevel(s0: System, evs: seq<Event>, i: nat)
    requires Shape(s0) && ChainInv(s0) && PipeInv(s0) && IsPeer(s0, i) && Level(s0, i) && Level(s0, PRIMARY)
    requires s0.nodes[i].log == s0.nodes[PRIMARY].log && StaysUp(evs, i) && Quiescent(Continue(s0, evs))
    requires UncontendedSince(s0, evs, i) && UncontendedSince(s0, evs, PRIMARY)
    ensures var s := Continue(s0, evs);
            && !s.nodes[i].disabled
            && forall u :: Naming(s.nodes[i].log, u) == Naming(s.nodes[PRIMARY].log, u)
  {
    var s := Continue(s0, evs);
    SinceExact(s0, evs, i);
    SinceExact(s0, evs, PRIMARY);
    LogSince(s0, evs, i);
    LogSince(s0, evs, PRIMARY);
    SameNames(s0.nodes[PRIMARY].log, Since(s0, s, i), Since(s0, s, PRIMARY));
  }

  /** Logs that list each user's commands alike give equal tablets, while both servers are enabled, the primary has
      added no user while it was disabled, no delete command is misread by replay, and the user limit is kept. */
  lemma SameNamesSameTablets(n: nat, evs: seq<Event>, i: nat)
    requires n >= 2 && 1 <= i <= n && !Run(n, evs).nodes[i].disabled && !Run(n, evs).nodes[PRIMARY].disabled
    requires forall u :: Naming(Run(n, evs).nodes[i].log, u) == Naming(Run(n, evs).nodes[PRIMARY].log, u)
    requires AllFaithful(Run(n, evs).nodes[PRIMARY].log)
    requires |Added(Run(n, evs).nodes[PRIMARY].log)| <= MAX_TABLET_USERS
    requires forall k :: 0 <= k < |evs| ==> !AddsWhileDisabled(Run(n, evs[..k]), evs[k])
    ensures Run(n, evs).nodes[i].tablet == Run(n, evs).nodes[PRIMARY].tablet
  {
    var mine, theirs := Run(n, evs).nodes[i].log, Run(n, evs).nodes[PRIMARY].log;
    SameNamesSameCommands(mine, theirs);
    TabletIsReplay(n, evs, i);
    TabletIsReplay(n, evs, PRIMARY);
    ReplayIsLive(map[], mine);
    ReplayIsLive(map[], theirs);
    SameRowsSameTablet(mine, theirs);
  }

  /** A replica that was ever so often disabled and restarted, and at some moment has the primary's log, with nothing of
      either under way, agrees with the primary at every later rest it reaches enabled and uncontended. */
  lemma RejoinedConverge(n: nat, before: seq<Event>, i: nat, evs: seq<Event>)
    requires n >= 2 && 2 <= i <= n && Level(Run(n, before), i) && Level(Run(n, before), PRIMARY)
    requires Run(n, before).nodes[i].log == Run(n, before).nodes[PRIMARY].log
    requires StaysUp(evs, i) && Quiescent(Run(n, before + evs)) && !Run(n, before + evs).nodes[PRIMARY].disabled
    requires UncontendedSince(Run(n, before), evs, i) && UncontendedSince(Run(n, before), evs, PRIMARY)
    requires var log := Run(n, before + evs).nodes[PRIMARY].log;
             AllFaithful(log) && |Added(log)| <= MAX_TABLET_USERS
    requires var whole := before + evs;
             forall k :: 0 <= k < |whole| ==> !AddsWhileDisabled(Run(n, whole[..k]), whole[k])
    ensures Run(n, before + evs).nodes[i].tablet == Run(n, before + evs).nodes[PRIMARY].tablet
  {
    OrderHolds(n, before);
    ContinueIsRun(n, before, evs);
    LogsStayLevel(Run(n, before), evs, i);
    SameNamesSameTablets(n, before + evs, i);
  }

  /** A replica is restarted and catches up, each missed entry reaching it on one way only; once nothing of either end
      is under way, both take on writes again. At every later rest it reaches enabled and uncontended, it holds the
      primary's tablet. */
  lemma RestartedConverge(n: nat, before: seq<Event>, i: nat, evs: seq<Event>, later: seq<Event>)
    requires n >= 2 && 2 <= i <= n && Behind(Run(n, before), i)
    requires var s1 := Step(Run(n, before), Restart(i));
             && CalmRun(s1, evs, i) && CaughtUp(Continue(s1, evs), i)
             && OneWayOnly(GapOf(s1, evs, i, Found(Run(n, before), i)))
    requires var s2 := Run(n, (before + [Restart(i)]) + evs);
             && Level(s2, i) && Level(s2, PRIMARY) && StaysUp(later, i)
             && UncontendedSince(s2, later, i) && UncontendedSince(s2, later, PRIMARY)
    requires var s := Run(n, ((before + [Restart(i)]) + evs) + later);
             && Quiescent(s) && !s.nodes[PRIMARY].disabled
             && AllFaithful(s.nodes[PRIMARY].log) && |Added(s.nodes[PRIMARY].log)| <= MAX_TABLET_USERS
    requires var whole := ((before + [Restart(i)]) + evs) + later;
             forall k :: 0 <= k < |whole| ==> !AddsWhileDisabled(Run(n, whole[..k]), whole[k])
    ensures var s := Run(n, ((before + [Restart(i)]) + evs) + later); s.nodes[i].tablet == s.nodes[PRIMARY].tablet
  {
    LogsMeet(n, before, i, evs);
    RestartsToRun(n, before, i, evs);
    RejoinedConverge(n, (before + [Restart(i)]) + evs, i, later);
  }
}
