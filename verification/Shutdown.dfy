/** How the master's pool of workers serves connections and how it ends. */
module Shutdown {
  import opened Sequences
  import opened WorkQueue

  // ---- Every connection taken is served by its worker ----

  /** The descriptors of accepted connections a worker took, in turn. */
  function TakenBy(taken: seq<(nat, int)>, w: nat): seq<int> {
    if taken == [] then []
    else
      var last := taken[|taken| - 1];
      TakenBy(taken[..|taken| - 1], w) + (if last.0 == w && last.1 != -1 then [last.1] else [])
  }

  /** The descriptor whose handling an event ends. */
  function Ended(p: Pool, ev: Event, w: nat): seq<int> {
    if ev.Done? && ev.worker == w && Enabled(p, ev) then [p.workers[w].fd] else []
  }

  /** The descriptors a worker has finished with. */
  function FinishedBy(n: nat, evs: seq<Event>, w: nat): seq<int> {
    if evs == [] then []
    else FinishedBy(n, evs[..|evs| - 1], w) + Ended(Run(n, evs[..|evs| - 1]), evs[|evs| - 1], w)
  }

  function InHand(p: Pool, w: nat): seq<int>
    requires w < |p.workers|
  {
    if p.workers[w].Handling? then [p.workers[w].fd] else []
  }

  lemma TakenNext(taken: seq<(nat, int)>, v: nat, fd: int, w: nat)
    ensures TakenBy(taken + [(v, fd)], w) == TakenBy(taken, w) + if v == w && fd != -1 then [fd] else []
  {
    FrontOfNext(taken, (v, fd));
  }

  lemma TakeServes(p: Pool, v: nat, w: nat)
    requires w < |p.workers| && Enabled(p, Take(v)) && p.pending != []
    ensures var p' := Step(p, Take(v));
            && (v == w ==> InHand(p, w) == [] && TakenBy(p'.taken, w) == TakenBy(p.taken, w) + InHand(p', w))
            && (v != w ==> TakenBy(p'.taken, w) == TakenBy(p.taken, w) && InHand(p', w) == InHand(p, w))
  {
    TakenNext(p.taken, v, p.pending[0], w);
    RightEmpty(TakenBy(p.taken, w));
  }

  lemma OthersServe(p: Pool, ev: Event, w: nat)
    requires w < |p.workers| && !(Enabled(p, ev) && ev.Take? && p.pending != [])
    ensures var p' := Step(p, ev); p'.taken == p.taken && InHand(p, w) == Ended(p, ev, w) + InHand(p', w)
  {
  }

  lemma ServesStep(p: Pool, ev: Event, w: nat, finished: seq<int>)
    requires w < |p.workers| && TakenBy(p.taken, w) == finished + InHand(p, w)
    ensures var p' := Step(p, ev); TakenBy(p'.taken, w) == (finished + Ended(p, ev, w)) + InHand(p', w)
  {
    RightEmpty(finished);
    if Enabled(p, ev) && ev.Take? && p.pending != [] {
      TakeServes(p, ev.worker, w);
    } else {
      OthersServe(p, ev, w);
      Reassociate(finished, Ended(p, ev, w), InHand(Step(p, ev), w));
    }
  }

  /** In every run, what a worker has taken is what it has finished with, then what it is handling. */
  lemma {:induction false} TakenIsServed(n: nat, evs: seq<Event>, w: nat)
    requires w < n
    ensures TakenBy(Run(n, evs).taken, w) == FinishedBy(n, evs, w) + InHand(Run(n, evs), w)
  {
    if evs != [] {
      var front := evs[..|evs| - 1];
      TakenIsServed(n, front, w);
      ServesStep(Run(n, front), evs[|evs| - 1], w, FinishedBy(n, front, w));
    }
  }

  // ---- What shuts the pool down ----

  /** An order to shut down, a handler that fails, or a descriptor of -1. */
  predicate Ends(p: Pool, ev: Event) {
    match ev
    case Shutdown => true
    case Done(_, failed) => Enabled(p, ev) && failed
    case Take(_) => Enabled(p, ev) && p.pending != [] && p.pending[0] == -1
    case _ => false
  }

  lemma EndsStep(p: Pool, ev: Event)
    ensures Step(p, ev).terminating <==> p.terminating || Ends(p, ev)
  {
  }

  ghost predicate HasEnded(n: nat, evs: seq<Event>) {
    exists k :: 0 <= k < |evs| && EndsAt(n, evs, k)
  }

  predicate EndsAt(n: nat, evs: seq<Event>, k: nat)
    requires k < |evs|
  {
    Ends(Run(n, evs[..k]), evs[k])
  }

  lemma EndsInFront(n: nat, evs: seq<Event>, k: nat)
    requires k < |evs| - 1
    ensures EndsAt(n, evs[..|evs| - 1], k) == EndsAt(n, evs, k)
  {
    TakeOfTake(evs, k, |evs| - 1);
  }

  lemma EndedBefore(n: nat, evs: seq<Event>)
    requires evs != [] && HasEnded(n, evs[..|evs| - 1])
    ensures HasEnded(n, evs)
  {
    var k :| 0 <= k < |evs[..|evs| - 1]| && EndsAt(n, evs[..|evs| - 1], k);
    EndsInFront(n, evs, k);
  }

  lemma EndedNow(n: nat, evs: seq<Event>)
    requires evs != [] && HasEnded(n, evs) && !HasEnded(n, evs[..|evs| - 1])
    ensures EndsAt(n, evs, |evs| - 1)
  {
    var k :| 0 <= k < |evs| && EndsAt(n, evs, k);
    if k < |evs| - 1 { EndsInFront(n, evs, k); }
  }

  /** In every run the pool is shutting down exactly when one of these has happened. */
  lemma {:induction false} ShutDownExactly(n: nat, evs: seq<Event>)
    ensures Run(n, evs).terminating <==> HasEnded(n, evs)
  {
    if evs != [] {
      var front := evs[..|evs| - 1];
      ShutDownExactly(n, front);
      EndsStep(Run(n, front), evs[|evs| - 1]);
      if HasEnded(n, front) {
        EndedBefore(n, evs);
      } else if HasEnded(n, evs) {
        EndedNow(n, evs);
      } else {
        assert !EndsAt(n, evs, |evs| - 1);
      }
    }
  }

  // ---- The end ----

  /** The event is a worker's. */
  predicate Works(ev: Event) {
    ev.Look? || ev.Take? || ev.Done?
  }

  /** How many steps a worker has at most before it, once the pool is shutting down. */
  function StepsLeft(w: Worker): nat {
    match w
    case Stopped => 0
    case Looking => 1
    case Handling(_) => 2
    case Waiting => 3
  }

  function AllLeft(workers: seq<Worker>): nat {
    if workers == [] then 0 else AllLeft(workers[..|workers| - 1]) + StepsLeft(workers[|workers| - 1])
  }

  lemma {:induction false} LeftUpdate(workers: seq<Worker>, w: nat, x: Worker)
    requires w < |workers|
    ensures AllLeft(workers[w := x]) == AllLeft(workers) - StepsLeft(workers[w]) + StepsLeft(x)
  {
    var last := |workers| - 1;
    if w == last {
      assert workers[w := x][..last] == workers[..last];
    } else {
      LeftUpdate(workers[..last], w, x);
      assert workers[w := x][..last] == workers[..last][w := x];
    }
  }

  /** Every step of a worker brings the end nearer, and no other event puts it off. */
  lemma StepBringsEnd(p: Pool, ev: Event)
    requires p.terminating
    ensures Step(p, ev).terminating
    ensures AllLeft(Step(p, ev).workers) <= AllLeft(p.workers) - if Works(ev) && Enabled(p, ev) then 1 else 0
  {
    if Works(ev) && Enabled(p, ev) { LeftUpdate(p.workers, ev.worker, Step(p, ev).workers[ev.worker]); }
  }

  lemma {:induction false} LeftAtMost(workers: seq<Worker>)
    ensures AllLeft(workers) <= 3 * |workers|
    ensures AllLeft(workers) == 0 <==> forall w :: 0 <= w < |workers| ==> workers[w] == Stopped
  {
    if workers != [] { LeftAtMost(workers[..|workers| - 1]); }
  }

  /** The steps that workers make after a moment. */
  function WorkSteps(n: nat, before: seq<Event>, evs: seq<Event>): nat {
    if evs == [] then 0
    else
      WorkSteps(n, before, evs[..|evs| - 1]) +
      if Works(evs[|evs| - 1]) && Enabled(Run(n, before + evs[..|evs| - 1]), evs[|evs| - 1]) then 1 else 0
  }

  /** Once the pool is shutting down its workers make at most three steps each, whatever is still submitted. */
  lemma {:induction false} WorkersEnd(n: nat, before: seq<Event>, evs: seq<Event>)
    requires Run(n, before).terminating
    ensures Run(n, before + evs).terminating
    ensures WorkSteps(n, before, evs) + AllLeft(Run(n, before + evs).workers) <= 3 * n
  {
    if evs == [] {
      RightEmpty(before);
      LeftAtMost(Run(n, before).workers);
    } else {
      var front, ev := evs[..|evs| - 1], evs[|evs| - 1];
      WorkersEnd(n, before, front);
      Front(before, evs);
      StepBringsEnd(Run(n, before + front), ev);
    }
  }

  /** A worker whose wait is over either gets the oldest descriptor, or, with none left, stops. */
  lemma WaitEnds(p: Pool, w: nat)
    requires w < |p.workers| && p.workers[w] == Waiting && (p.pending != [] || p.terminating)
    ensures var p' := Step(p, Take(w));
            if p.pending == [] then p'.workers[w] == Stopped && p'.taken == p.taken
            else p'.taken == p.taken + [(w, p.pending[0])] && [p.pending[0]] + p'.pending == p.pending
  {
  }

  /** And while one of them has not stopped, some worker can make a step. */
  lemma WorkerCanStep(p: Pool) returns (ev: Event)
    requires p.terminating && exists w :: 0 <= w < |p.workers| && p.workers[w] != Stopped
    ensures Works(ev) && Enabled(p, ev)
  {
    var w :| 0 <= w < |p.workers| && p.workers[w] != Stopped;
    match p.workers[w] {
      case Looking => ev := Look(w);
      case Waiting => ev := Take(w);
      case Handling(_) => ev := Done(w, false);
    }
  }
}
