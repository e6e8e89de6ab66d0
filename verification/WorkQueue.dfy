/** The master's queue of accepted connections: a linked list shared by a pool of worker threads. */
module WorkQueue {

  class Item {
    const fd: int
    var next: Item?

    constructor (fd: int)
      ensures this.fd == fd && next == null
    {
      this.fd := fd;
      next := null;
    }
  }

  ghost function FdsOf(items: seq<Item>): seq<int> {
    seq(|items|, i requires 0 <= i < |items| => items[i].fd)
  }

  ghost predicate Linked(items: seq<Item>)
    reads items
  {
    && (forall i :: 0 <= i < |items| - 1 ==> items[i].next == items[i + 1])
    && (items != [] ==> items[|items| - 1].next == null)
    && (forall i, j :: 0 <= i < j < |items| ==> items[i] != items[j])
  }

  lemma LinkedTail(items: seq<Item>)
    requires items != [] && Linked(items)
    ensures Linked(items[1..]) && items[0] !in items[1..]
    ensures items[0].next == if items[1..] == [] then null else items[1..][0]
    ensures FdsOf(items) == [items[0].fd] + FdsOf(items[1..])
  {
    var rest := items[1..];
    forall i | 0 <= i < |rest| - 1 ensures rest[i].next == rest[i + 1] {
      assert items[i + 1].next == items[i + 2];
    }
    assert |items| > 1 ==> items[0].next == items[1];
  }

  /** Each method runs under the pool's mutex, so that every interleaving of the threads is a sequence of calls. */
  class Queue {
    var head: Item?
    var tail: Item?
    var length: int
    var terminateFlag: bool

    /** The items of the list, those already given back to the allocator, and every descriptor put in and taken
        out so far. */
    ghost var spine: seq<Item>
    ghost var freed: set<Item>
    ghost var enqueued: seq<int>
    ghost var dequeued: seq<int>

    /** `tail` is the last item while there is one; when the list is empty it may point to a freed item. */
    ghost predicate Valid()
      reads this, spine
    {
      && head == (if spine == [] then null else spine[0])
      && (spine != [] ==> tail == spine[|spine| - 1])
      && Linked(spine)
      && (forall i :: 0 <= i < |spine| ==> spine[i] !in freed)
      && length == |spine|
      && enqueued == dequeued + Pending()
    }

    ghost function Pending(): seq<int>
      reads this
    {
      FdsOf(spine)
    }

    constructor ()
      ensures Valid() && Pending() == [] && enqueued == [] && dequeued == [] && !terminateFlag
    {
      head, tail, length, terminateFlag := null, null, 0, false;
      spine, freed, enqueued, dequeued := [], {}, [], [];
    }

    method Enqueue(fd: int)
      requires Valid()
      modifies this, if spine == [] then {} else {spine[|spine| - 1]}
      ensures Valid() && Pending() == old(Pending()) + [fd] && length == old(length) + 1
      ensures enqueued == old(enqueued) + [fd] && dequeued == old(dequeued) && freed == old(freed)
      ensures terminateFlag == old(terminateFlag)
      ensures |spine| == |old(spine)| + 1 && spine[..|old(spine)|] == old(spine) && fresh(spine[|old(spine)|])
    {
      var item := new Item(fd);
      if head == null {
        head := item;
        tail := item;
      } else {
        tail.next := item;
        tail := item;
      }
      length := length + 1;
      assert FdsOf(spine + [item]) == FdsOf(spine) + [fd];
      spine, enqueued := spine + [item], enqueued + [fd];
    }

    /** A worker's wait is over once there is an item or the pool is shutting down; -1 stands for none. */
    method Dequeue() returns (fd: int)
      requires Valid() && (head != null || terminateFlag)
      modifies this
      ensures Valid() && terminateFlag == old(terminateFlag) && enqueued == old(enqueued)
      ensures if old(Pending()) == [] then fd == -1 && Pending() == [] && dequeued == old(dequeued) && spine == []
              else
                && [fd] + Pending() == old(Pending()) && dequeued == old(dequeued) + [fd]
                && spine == old(spine)[1..] && old(head) in freed && length == old(length) - 1
    {
      fd := -1;
      if head != null {
        fd := head.fd;
        ghost var toRemove := head;
        head := head.next;
        freed := freed + {toRemove};
        length := length - 1;
        LinkedTail(spine);
        spine, dequeued := spine[1..], dequeued + [fd];
      }
    }

    method Terminate()
      requires Valid()
      modifies this`terminateFlag
      ensures Valid() && terminateFlag && Pending() == old(Pending())
    {
      terminateFlag := true;
    }
  }

  // ---- The pool: workers sharing the queue ----

  /** Where a worker stands: before its loop test, waiting for an item, handling one, or gone. */
  datatype Worker = Looking | Waiting | Handling(fd: int) | Stopped

  datatype Pool = Pool(
    workers: seq<Worker>,
    pending: seq<int>,
    terminating: bool,
    submitted: seq<int>,
    taken: seq<(nat, int)>)

  datatype Event =
    | Submit(fd: int)
    | Look(worker: nat)
    | Take(worker: nat)
    | Done(worker: nat, failed: bool)
    | Shutdown

  function Fresh(n: nat): Pool {
    Pool(seq(n, _ => Looking), [], false, [], [])
  }

  predicate Enabled(p: Pool, ev: Event) {
    match ev
    case Look(w) => w < |p.workers| && p.workers[w] == Looking
    case Take(w) => w < |p.workers| && p.workers[w] == Waiting && (p.pending != [] || p.terminating)
    case Done(w, _) => w < |p.workers| && p.workers[w].Handling?
    case _ => true
  }

  /** A worker that gets no item, or whose handler fails, shuts the pool down. */
  function Step(p: Pool, ev: Event): (p': Pool)
    ensures |p'.workers| == |p.workers|
  {
    if !Enabled(p, ev) then p
    else match ev
      case Submit(fd) => p.(pending := p.pending + [fd], submitted := p.submitted + [fd])
      case Look(w) => p.(workers := p.workers[w := if p.terminating then Stopped else Waiting])
      case Take(w) =>
        if p.pending == [] then p.(workers := p.workers[w := Stopped])
        else
          var fd := p.pending[0];
          var q := p.(pending := p.pending[1..], taken := p.taken + [(w, fd)]);
          if fd == -1 then q.(workers := p.workers[w := Stopped], terminating := true)
          else q.(workers := p.workers[w := Handling(fd)])
      case Done(w, failed) =>
        if failed then p.(workers := p.workers[w := Stopped], terminating := true)
        else p.(workers := p.workers[w := Looking])
      case Shutdown => p.(terminating := true)
  }

  function Run(n: nat, evs: seq<Event>): (p: Pool)
    ensures |p.workers| == n
  {
    if evs == [] then Fresh(n) else Step(Run(n, evs[..|evs| - 1]), evs[|evs| - 1])
  }

  function Fds(taken: seq<(nat, int)>): seq<int> {
    seq(|taken|, i requires 0 <= i < |taken| => taken[i].1)
  }

  /** Whatever the interleaving, the descriptors submitted are those handed out, each to one worker and in the
      order of submission, followed by those still queued. */
  lemma {:induction false} Conserved(n: nat, evs: seq<Event>)
    ensures var p := Run(n, evs); p.submitted == Fds(p.taken) + p.pending
  {
    if evs != [] {
      var p, ev := Run(n, evs[..|evs| - 1]), evs[|evs| - 1];
      Conserved(n, evs[..|evs| - 1]);
      if Enabled(p, ev) {
        match ev {
          case Submit(fd) => assert (Fds(p.taken) + p.pending) + [fd] == Fds(p.taken) + (p.pending + [fd]);
          case Take(w) =>
            if p.pending != [] {
              assert Fds(p.taken + [(w, p.pending[0])]) == Fds(p.taken) + [p.pending[0]];
              assert p.pending == [p.pending[0]] + p.pending[1..];
            }
          case _ =>
        }
      }
    }
  }

  /** No worker leaves the pool before it shuts down. */
  lemma {:induction false} WorkersStay(n: nat, evs: seq<Event>)
    ensures var p := Run(n, evs); p.terminating || Stopped !in p.workers
  {
    if evs != [] {
      WorkersStay(n, evs[..|evs| - 1]);
    }
  }

  /** The workers that are still to take an item. */
  function Waiters(workers: seq<Worker>): set<nat> {
    set w: nat | w < |workers| && workers[w] == Waiting
  }

  /** Once the pool is shutting down, each item handed out is the last of a worker that was already waiting. */
  lemma {:induction false} LastItems(n: nat, before: seq<Event>, evs: seq<Event>)
    requires Run(n, before).terminating
    ensures var p, p' := Run(n, before), Run(n, before + evs);
            && p'.terminating && Waiters(p'.workers) <= Waiters(p.workers)
            && |p'.taken| + |Waiters(p'.workers)| <= |p.taken| + |Waiters(p.workers)|
  {
    if evs == [] {
      assert before + evs == before;
    } else {
      var front, ev := evs[..|evs| - 1], evs[|evs| - 1];
      assert (before + evs)[..|before + evs| - 1] == before + front;
      LastItems(n, before, front);
      FewerWaiters(Run(n, before + front), ev);
    }
  }

  lemma FewerWaiters(p: Pool, ev: Event)
    requires p.terminating
    ensures var p' := Step(p, ev);
            && p'.terminating && Waiters(p'.workers) <= Waiters(p.workers)
            && |p'.taken| + |Waiters(p'.workers)| <= |p.taken| + |Waiters(p.workers)|
  {
    var p' := Step(p, ev);
    if Enabled(p, ev) && ev.Take? {
      assert Waiters(p'.workers) == Waiters(p.workers) - {ev.worker};
    } else {
      assert Waiters(p'.workers) == Waiters(p.workers);
    }
  }

  lemma {:induction false} FewWaiters(workers: seq<Worker>)
    ensures |Waiters(workers)| <= |workers|
  {
    if workers != [] {
      var front := workers[..|workers| - 1];
      FewWaiters(front);
      assert Waiters(workers) <= Waiters(front) + {|front|};
      var both := Waiters(front) + {|front|};
      assert both == Waiters(workers) + (both - Waiters(workers));
    }
  }

  /** So at most one item per worker is handed out after the shutdown, however many are queued. */
  lemma ShutdownIsPrompt(n: nat, before: seq<Event>, evs: seq<Event>)
    requires Run(n, before).terminating
    ensures |Run(n, before + evs).taken| <= |Run(n, before).taken| + n
  {
    LastItems(n, before, evs);
    FewWaiters(Run(n, before).workers);
  }
}
