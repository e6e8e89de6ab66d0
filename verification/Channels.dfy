/** What is under way on a channel, kind by kind, and how each kind follows the primary's order. */
module Channels {
  import opened Sequences
  import opened KeyValue
  import opened Replication

  // ---- Projections; each distributes over concatenation ----

  function CommitsIn(q: seq<DownMessage>): seq<Sequenced> {
    if q == [] then []
    else CommitsIn(q[..|q| - 1]) + (if q[|q| - 1].Commit? then [q[|q| - 1].item] else [])
  }

  function OkaysIn(q: seq<DownMessage>): seq<(nat, nat)> {
    if q == [] then []
    else OkaysIn(q[..|q| - 1]) + (if q[|q| - 1].Okay? then [(q[|q| - 1].requestor, q[|q| - 1].seqNum)] else [])
  }

  function CheckpointsIn(q: seq<DownMessage>): nat {
    if q == [] then 0 else CheckpointsIn(q[..|q| - 1]) + (if q[|q| - 1].Checkpoint? then 1 else 0)
  }

  function TransfersIn(q: seq<DownMessage>): seq<Command> {
    if q == [] then []
    else TransfersIn(q[..|q| - 1]) + (if q[|q| - 1].Transfer? then [q[|q| - 1].cmd] else [])
  }

  function AcksIn(q: seq<UpMessage>): seq<(nat, nat)> {
    if q == [] then []
    else AcksIn(q[..|q| - 1]) + (if q[|q| - 1].Ack? then [(q[|q| - 1].requestor, q[|q| - 1].seqNum)] else [])
  }

  function CheckpointAcksIn(q: seq<UpMessage>): nat {
    if q == [] then 0 else CheckpointAcksIn(q[..|q| - 1]) + (if q[|q| - 1].CheckpointAck? then 1 else 0)
  }

  function HeldIn(q: seq<UpMessage>): seq<Held> {
    if q == [] then []
    else HeldIn(q[..|q| - 1]) + (if q[|q| - 1].Request? then [q[|q| - 1].item] else [])
  }

  /** The writes among held items, from one requestor. */
  function WritesOf(q: seq<Held>, r: nat): seq<Entry> {
    if q == [] then []
    else WritesOf(q[..|q| - 1], r) +
         (if q[|q| - 1].HeldWrite? && q[|q| - 1].entry.requestor == r then [q[|q| - 1].entry] else [])
  }

  lemma {:induction false} CommitsConcat(a: seq<DownMessage>, b: seq<DownMessage>)
    ensures CommitsIn(a + b) == CommitsIn(a) + CommitsIn(b)
  {
    if b == [] {
      assert a + b == a;
    } else {
      var last := if b[|b| - 1].Commit? then [b[|b| - 1].item] else [];
      CommitsConcat(a, b[..|b| - 1]);
      Front(a, b);
      Reassociate(CommitsIn(a), CommitsIn(b[..|b| - 1]), last);
    }
  }

  lemma {:induction false} OkaysConcat(a: seq<DownMessage>, b: seq<DownMessage>)
    ensures OkaysIn(a + b) == OkaysIn(a) + OkaysIn(b)
  {
    if b == [] {
      assert a + b == a;
    } else {
      var m := b[|b| - 1];
      OkaysConcat(a, b[..|b| - 1]);
      Front(a, b);
      Reassociate(OkaysIn(a), OkaysIn(b[..|b| - 1]), if m.Okay? then [(m.requestor, m.seqNum)] else []);
    }
  }

  lemma {:induction false} TransfersConcat(a: seq<DownMessage>, b: seq<DownMessage>)
    ensures TransfersIn(a + b) == TransfersIn(a) + TransfersIn(b)
    ensures CheckpointsIn(a + b) == CheckpointsIn(a) + CheckpointsIn(b)
  {
    if b == [] {
      assert a + b == a;
    } else {
      var last := if b[|b| - 1].Transfer? then [b[|b| - 1].cmd] else [];
      TransfersConcat(a, b[..|b| - 1]);
      Front(a, b);
      Reassociate(TransfersIn(a), TransfersIn(b[..|b| - 1]), last);
    }
  }

  lemma DownConcat(a: seq<DownMessage>, b: seq<DownMessage>)
    ensures CommitsIn(a + b) == CommitsIn(a) + CommitsIn(b)
    ensures OkaysIn(a + b) == OkaysIn(a) + OkaysIn(b)
    ensures CheckpointsIn(a + b) == CheckpointsIn(a) + CheckpointsIn(b)
    ensures TransfersIn(a + b) == TransfersIn(a) + TransfersIn(b)
  {
    CommitsConcat(a, b);
    OkaysConcat(a, b);
    TransfersConcat(a, b);
  }

  lemma {:induction false} AcksConcat(a: seq<UpMessage>, b: seq<UpMessage>)
    ensures AcksIn(a + b) == AcksIn(a) + AcksIn(b)
    ensures CheckpointAcksIn(a + b) == CheckpointAcksIn(a) + CheckpointAcksIn(b)
  {
    if b == [] {
      assert a + b == a;
    } else {
      var m := b[|b| - 1];
      AcksConcat(a, b[..|b| - 1]);
      Front(a, b);
      Reassociate(AcksIn(a), AcksIn(b[..|b| - 1]), if m.Ack? then [(m.requestor, m.seqNum)] else []);
    }
  }

  lemma {:induction false} RequestsConcat(a: seq<UpMessage>, b: seq<UpMessage>)
    ensures HeldIn(a + b) == HeldIn(a) + HeldIn(b)
  {
    if b == [] {
      assert a + b == a;
    } else {
      var last := if b[|b| - 1].Request? then [b[|b| - 1].item] else [];
      RequestsConcat(a, b[..|b| - 1]);
      Front(a, b);
      Reassociate(HeldIn(a), HeldIn(b[..|b| - 1]), last);
    }
  }

  lemma UpConcat(a: seq<UpMessage>, b: seq<UpMessage>)
    ensures AcksIn(a + b) == AcksIn(a) + AcksIn(b)
    ensures CheckpointAcksIn(a + b) == CheckpointAcksIn(a) + CheckpointAcksIn(b)
    ensures HeldIn(a + b) == HeldIn(a) + HeldIn(b)
  {
    AcksConcat(a, b);
    RequestsConcat(a, b);
  }

  lemma {:induction false} HeldConcat(a: seq<Held>, b: seq<Held>, r: nat)
    ensures WritesOf(a + b, r) == WritesOf(a, r) + WritesOf(b, r)
  {
    if b == [] {
      assert a + b == a;
    } else {
      var h := b[|b| - 1];
      HeldConcat(a, b[..|b| - 1], r);
      Front(a, b);
      Reassociate(WritesOf(a, r), WritesOf(b[..|b| - 1], r),
                  if h.HeldWrite? && h.entry.requestor == r then [h.entry] else []);
    }
  }

  lemma DownOne(m: DownMessage)
    ensures CommitsIn([m]) == if m.Commit? then [m.item] else []
    ensures OkaysIn([m]) == if m.Okay? then [(m.requestor, m.seqNum)] else []
    ensures CheckpointsIn([m]) == if m.Checkpoint? then 1 else 0
    ensures TransfersIn([m]) == if m.Transfer? then [m.cmd] else []
  {
    assert [m][..0] == [];
  }

  lemma UpOne(m: UpMessage)
    ensures AcksIn([m]) == if m.Ack? then [(m.requestor, m.seqNum)] else []
    ensures CheckpointAcksIn([m]) == if m.CheckpointAck? then 1 else 0
    ensures HeldIn([m]) == if m.Request? then [m.item] else []
  {
    assert [m][..0] == [];
  }

  lemma HeldOne(h: Held, r: nat)
    ensures WritesOf([h], r) == if h.HeldWrite? && h.entry.requestor == r then [h.entry] else []
  {
    assert [h][..0] == [];
  }

  /** Taking the head off a channel. */
  lemma DownHead(q: seq<DownMessage>)
    requires q != []
    ensures CommitsIn(q) == CommitsIn([q[0]]) + CommitsIn(q[1..])
    ensures OkaysIn(q) == OkaysIn([q[0]]) + OkaysIn(q[1..])
    ensures CheckpointsIn(q) == CheckpointsIn([q[0]]) + CheckpointsIn(q[1..])
    ensures TransfersIn(q) == TransfersIn([q[0]]) + TransfersIn(q[1..])
  {
    DownConcat([q[0]], q[1..]);
    assert [q[0]] + q[1..] == q;
  }

  lemma UpHead(q: seq<UpMessage>)
    requires q != []
    ensures AcksIn(q) == AcksIn([q[0]]) + AcksIn(q[1..])
    ensures CheckpointAcksIn(q) == CheckpointAcksIn([q[0]]) + CheckpointAcksIn(q[1..])
    ensures HeldIn(q) == HeldIn([q[0]]) + HeldIn(q[1..])
  {
    UpConcat([q[0]], q[1..]);
    assert [q[0]] + q[1..] == q;
  }

  lemma HeldHead(q: seq<Held>, r: nat)
    requires q != []
    ensures WritesOf(q, r) == WritesOf([q[0]], r) + WritesOf(q[1..], r)
  {
    HeldConcat([q[0]], q[1..], r);
    assert [q[0]] + q[1..] == q;
  }

  lemma {:induction false} TransfersProject(cs: seq<Command>)
    ensures CommitsIn(Transfers(cs)) == [] && OkaysIn(Transfers(cs)) == []
    ensures CheckpointsIn(Transfers(cs)) == 0 && TransfersIn(Transfers(cs)) == cs
  {
    if cs != [] {
      TransfersProject(cs[..|cs| - 1]);
      assert Transfers(cs)[..|cs| - 1] == Transfers(cs[..|cs| - 1]);
      assert cs == cs[..|cs| - 1] + [cs[|cs| - 1]];
    }
  }

  lemma BroadcastsAre(stamp: nat, e: Entry)
    ensures [Announce(stamp, e.requestor, e.seqNum)] + [Commit(Sequenced(stamp, e))] == Broadcasts(stamp, e)
  {
  }

  lemma BroadcastsProject(stamp: nat, e: Entry)
    ensures CommitsIn(Broadcasts(stamp, e)) == [Sequenced(stamp, e)]
    ensures OkaysIn(Broadcasts(stamp, e)) == [] && CheckpointsIn(Broadcasts(stamp, e)) == 0
    ensures TransfersIn(Broadcasts(stamp, e)) == []
  {
    var a, b := Announce(stamp, e.requestor, e.seqNum), Commit(Sequenced(stamp, e));
    DownConcat([a], [b]);
    DownOne(a);
    DownOne(b);
    BroadcastsAre(stamp, e);
    LeftEmpty([Sequenced(stamp, e)]);
  }

  // ---- The commit and acknowledgement chain of one replica ----

  function Id(x: Sequenced): (nat, nat) {
    (x.entry.requestor, x.entry.seqNum)
  }

  function Ids(xs: seq<Sequenced>): seq<(nat, nat)> {
    seq(|xs|, i requires 0 <= i < |xs| => Id(xs[i]))
  }

  /** In flight to a replica are the commits it has yet to consume, in order; in flight from it are the
      acknowledgements of those it consumed that the primary has yet to count, in order. */
  predicate Chain(order: seq<Sequenced>, consumed: nat, acked: nat, up: seq<UpMessage>, down: seq<DownMessage>) {
    && acked <= consumed <= |order|
    && CommitsIn(down) == order[consumed..]
    && AcksIn(up) == Ids(order[acked..consumed])
  }

  lemma ChainSequences(order: seq<Sequenced>, c: nat, a: nat, up: seq<UpMessage>, down: seq<DownMessage>,
                       stamp: nat, e: Entry)
    requires Chain(order, c, a, up, down)
    ensures Chain(order + [Sequenced(stamp, e)], c, a, up, down + Broadcasts(stamp, e))
  {
    DownConcat(down, Broadcasts(stamp, e));
    BroadcastsProject(stamp, e);
    var x := Sequenced(stamp, e);
    assert (order + [x])[c..] == order[c..] + [x];
    assert (order + [x])[a..c] == order[a..c];
  }

  lemma HeadOf<T>(x: T, rest: seq<T>, s: seq<T>, c: nat)
    requires c <= |s| && [x] + rest == s[c..]
    ensures c < |s| && x == s[c] && rest == s[c + 1..]
  {
    assert ([x] + rest)[0] == x && ([x] + rest)[1..] == rest;
    assert s[c..][1..] == s[c + 1..];
  }

  lemma IdsLast(order: seq<Sequenced>, from: nat, upTo: nat)
    requires from < upTo <= |order|
    ensures Ids(order[from..upTo]) == Ids(order[from..upTo - 1]) + [Id(order[upTo - 1])]
  {
    assert order[from..upTo] == order[from..upTo - 1] + [order[upTo - 1]];
  }

  lemma IdsFirst(order: seq<Sequenced>, from: nat, upTo: nat)
    requires from < upTo <= |order|
    ensures Ids(order[from..upTo]) == [Id(order[from])] + Ids(order[from + 1..upTo])
  {
    assert order[from..upTo] == [order[from]] + order[from + 1..upTo];
  }

  lemma IdsNone(order: seq<Sequenced>, from: nat)
    requires from <= |order|
    ensures Ids(order[from..from]) == []
  {
  }

  /** The commit at the head of a channel is the next one of the order. */
  lemma ChainConsumes(order: seq<Sequenced>, c: nat, a: nat, up: seq<UpMessage>, down: seq<DownMessage>)
    requires Chain(order, c, a, up, down) && down != [] && down[0].Commit?
    ensures c < |order| && down[0].item == order[c]
    ensures var e := order[c].entry;
            Chain(order, c + 1, a, up + [Ack(order[c].stamp, e.requestor, e.seqNum)], down[1..])
  {
    DownHead(down);
    DownOne(down[0]);
    HeadOf(down[0].item, CommitsIn(down[1..]), order, c);
    var m := Ack(order[c].stamp, order[c].entry.requestor, order[c].entry.seqNum);
    AcksConcat(up, [m]);
    UpOne(m);
    IdsLast(order, a, c + 1);
  }

  /** The acknowledgement at the head of a channel is for the next commit to be counted. */
  lemma ChainAcknowledges(order: seq<Sequenced>, c: nat, a: nat, up: seq<UpMessage>, down: seq<DownMessage>)
    requires Chain(order, c, a, up, down) && up != [] && up[0].Ack?
    ensures a < c && (up[0].requestor, up[0].seqNum) == Id(order[a])
    ensures Chain(order, c, a + 1, up[1..], down)
  {
    UpHead(up);
    UpOne(up[0]);
    if a == c {
      IdsNone(order, a);
    } else {
      IdsFirst(order, a, c);
      HeadOf((up[0].requestor, up[0].seqNum), AcksIn(up[1..]), Ids(order[a..c]), 0);
      assert Ids(order[a..c])[1..] == Ids(order[a + 1..c]);
    }
  }

  /** Messages of other kinds leave the chain alone. */
  lemma ChainSkipsUp(order: seq<Sequenced>, c: nat, a: nat, up: seq<UpMessage>, down: seq<DownMessage>)
    requires Chain(order, c, a, up, down) && up != [] && !up[0].Ack?
    ensures Chain(order, c, a, up[1..], down)
  {
    UpHead(up);
    UpOne(up[0]);
  }

  lemma ChainSkipsDown(order: seq<Sequenced>, c: nat, a: nat, up: seq<UpMessage>, down: seq<DownMessage>)
    requires Chain(order, c, a, up, down) && down != [] && !down[0].Commit?
    ensures Chain(order, c, a, up, down[1..])
  {
    DownHead(down);
    DownOne(down[0]);
  }

  lemma ChainExtends(order: seq<Sequenced>, c: nat, a: nat, up: seq<UpMessage>, down: seq<DownMessage>,
                     moreUp: seq<UpMessage>, moreDown: seq<DownMessage>)
    requires Chain(order, c, a, up, down) && AcksIn(moreUp) == [] && CommitsIn(moreDown) == []
    ensures Chain(order, c, a, up + moreUp, down + moreDown)
  {
    UpConcat(up, moreUp);
    DownConcat(down, moreDown);
  }

  // ---- The pipeline of one requestor ----

  /** How many of the sequenced writes a requestor made. */
  function CountBy(order: seq<Sequenced>, r: nat): nat {
    if order == [] then 0
    else CountBy(order[..|order| - 1], r) + (if order[|order| - 1].entry.requestor == r then 1 else 0)
  }

  lemma CountByNext(order: seq<Sequenced>, x: Sequenced, r: nat)
    ensures CountBy(order + [x], r) == CountBy(order, r) + (if x.entry.requestor == r then 1 else 0)
  {
    assert (order + [x])[..|order|] == order;
  }

  lemma {:induction false} CountByGrows(order: seq<Sequenced>, j: nat, k: nat, r: nat)
    requires j <= k <= |order|
    ensures CountBy(order[..j], r) <= CountBy(order[..k], r)
    decreases k
  {
    if j < k {
      CountByGrows(order, j, k - 1, r);
      assert order[..k][..k - 1] == order[..k - 1];
    }
  }

  /** Each requestor's writes are numbered 0, 1, 2, ... in the primary's order. */
  predicate Numbered(order: seq<Sequenced>) {
    forall k :: 0 <= k < |order| ==>
      order[k].entry.seqNum == CountBy(order[..k], order[k].entry.requestor)
  }

  lemma NumberedNext(order: seq<Sequenced>, x: Sequenced)
    requires Numbered(order) && x.entry.seqNum == CountBy(order, x.entry.requestor)
    ensures Numbered(order + [x])
  {
    forall k | 0 <= k < |order| + 1
      ensures (order + [x])[k].entry.seqNum == CountBy((order + [x])[..k], (order + [x])[k].entry.requestor)
    {
      assert (order + [x])[..k] == order[..k];
      assert order[..|order|] == order;
    }
  }

  /** A requestor's numbers increase along the order, so no write is sequenced twice. */
  lemma NumbersIncrease(order: seq<Sequenced>, j: nat, k: nat)
    requires Numbered(order) && j < k < |order| && order[j].entry.requestor == order[k].entry.requestor
    ensures order[j].entry.seqNum < order[k].entry.seqNum
  {
    var r := order[j].entry.requestor;
    assert order[..j + 1][..j] == order[..j];
    CountByGrows(order, j + 1, k, r);
  }

  lemma NumberBelowCount(order: seq<Sequenced>, k: nat)
    requires Numbered(order) && k < |order|
    ensures order[k].entry.seqNum < CountBy(order, order[k].entry.requestor)
  {
    var r := order[k].entry.requestor;
    assert order[..k + 1] == order[..k] + [order[k]] && order[..|order|] == order;
    CountByNext(order[..k], order[k], r);
    CountByGrows(order, k + 1, |order|, r);
  }

  lemma IdsDistinct(order: seq<Sequenced>, j: nat, k: nat)
    requires Numbered(order) && j < |order| && k < |order| && Id(order[j]) == Id(order[k])
    ensures j == k
  {
    if j < k {
      NumbersIncrease(order, j, k);
    } else if k < j {
      NumbersIncrease(order, k, j);
    }
  }

  /** A requestor's writes on their way into the order: first those held, then those still in its channel. */
  function Pipe(hold: seq<Held>, up: seq<UpMessage>, r: nat): seq<Entry> {
    WritesOf(hold, r) + WritesOf(HeldIn(up), r)
  }

  function RequestorOf(h: Held): nat {
    match h
    case HeldWrite(e) => e.requestor
    case HeldTransfer(r, _) => r
  }

  predicate NumberedFrom(es: seq<Entry>, r: nat, first: nat) {
    forall x :: 0 <= x < |es| ==> es[x].requestor == r && es[x].seqNum == first + x
  }

  lemma NumberedTail(e: Entry, es: seq<Entry>, rest: seq<Entry>, r: nat, first: nat)
    requires NumberedFrom(([e] + es) + rest, r, first)
    ensures NumberedFrom(es + rest, r, first + 1)
    ensures e.requestor == r && e.seqNum == first
  {
    var whole := ([e] + es) + rest;
    assert whole[0] == e;
    assert forall x :: 0 <= x < |es + rest| ==> (es + rest)[x] == whole[x + 1];
  }

  /** The writes of one requestor at the head of the hold queue. */
  lemma WritesHead(hold: seq<Held>, r: nat)
    requires hold != [] && hold[0].HeldWrite?
    ensures hold[0].entry.requestor == r ==> WritesOf(hold, r) == [hold[0].entry] + WritesOf(hold[1..], r)
    ensures hold[0].entry.requestor != r ==> WritesOf(hold, r) == WritesOf(hold[1..], r)
  {
    HeldHead(hold, r);
    HeldOne(hold[0], r);
  }

  /** They continue the requestor's numbering, up to the number its next write will get. */
  predicate PipeOk(order: seq<Sequenced>, hold: seq<Held>, up: seq<UpMessage>, r: nat, next: nat) {
    && (forall x :: 0 <= x < |HeldIn(up)| ==> RequestorOf(HeldIn(up)[x]) == r)
    && NumberedFrom(Pipe(hold, up, r), r, CountBy(order, r))
    && CountBy(order, r) + |Pipe(hold, up, r)| == next
  }

  lemma PipeSame(order: seq<Sequenced>, hold: seq<Held>, hold': seq<Held>, up: seq<UpMessage>, up': seq<UpMessage>,
                 r: nat, next: nat)
    requires PipeOk(order, hold, up, r, next)
    requires HeldIn(up') == HeldIn(up) && WritesOf(hold', r) == WritesOf(hold, r)
    ensures PipeOk(order, hold', up', r, next)
  {
    assert Pipe(hold', up', r) == Pipe(hold, up, r);
  }

  lemma NumberedMore(es: seq<Entry>, e: Entry, r: nat, first: nat)
    requires NumberedFrom(es, r, first) && e.requestor == r && e.seqNum == first + |es|
    ensures NumberedFrom(es + [e], r, first)
  {
  }

  /** A write sent by its requestor joins the end of its pipeline. */
  lemma SentJoinsPipe(hold: seq<Held>, up: seq<UpMessage>, e: Entry)
    ensures HeldIn(up + [Request(HeldWrite(e))]) == HeldIn(up) + [HeldWrite(e)]
    ensures Pipe(hold, up + [Request(HeldWrite(e))], e.requestor) == Pipe(hold, up, e.requestor) + [e]
  {
    var h, r := HeldWrite(e), e.requestor;
    RequestsConcat(up, [Request(h)]);
    UpOne(Request(h));
    HeldConcat(HeldIn(up), [h], r);
    HeldOne(h, r);
    Reassociate(WritesOf(hold, r), WritesOf(HeldIn(up), r), [e]);
  }

  /** A replica numbers its next write and sends it. */
  lemma PipeSends(order: seq<Sequenced>, hold: seq<Held>, up: seq<UpMessage>, r: nat, next: nat, e: Entry)
    requires PipeOk(order, hold, up, r, next) && e.requestor == r && e.seqNum == next
    ensures PipeOk(order, hold, up + [Request(HeldWrite(e))], r, next + 1)
  {
    SentJoinsPipe(hold, up, e);
    NumberedMore(Pipe(hold, up, r), e, r, CountBy(order, r));
  }

  /** The primary numbers its next write and holds it. */
  lemma PipeHolds(order: seq<Sequenced>, hold: seq<Held>, r: nat, next: nat, e: Entry)
    requires PipeOk(order, hold, [], r, next) && e.requestor == r && e.seqNum == next
    ensures PipeOk(order, hold + [HeldWrite(e)], [], r, next + 1)
  {
    HeldConcat(hold, [HeldWrite(e)], r);
    HeldOne(HeldWrite(e), r);
    assert Pipe(hold + [HeldWrite(e)], [], r) == Pipe(hold, [], r) + [e];
  }

  /** A request arrives and is held. */
  lemma PipeArrives(order: seq<Sequenced>, hold: seq<Held>, up: seq<UpMessage>, r: nat, next: nat)
    requires PipeOk(order, hold, up, r, next) && up != [] && up[0].Request?
    ensures PipeOk(order, hold + [up[0].item], up[1..], r, next)
    ensures RequestorOf(up[0].item) == r
  {
    var h, rest := up[0].item, up[1..];
    HeldInHead(up);
    assert HeldIn(up)[0] == h;
    assert forall x :: 0 <= x < |HeldIn(rest)| ==> HeldIn(rest)[x] == HeldIn(up)[x + 1];
    HeldConcat(hold, [h], r);
    HeldConcat([h], HeldIn(rest), r);
    Reassociate(WritesOf(hold, r), WritesOf([h], r), WritesOf(HeldIn(rest), r));
  }

  /** An arriving request leaves every server's pipeline as it is. */
  lemma ArrivalKeepsPipe(hold: seq<Held>, up: seq<UpMessage>, r: nat)
    requires up != [] && up[0].Request?
    ensures Pipe(hold + [up[0].item], up[1..], r) == Pipe(hold, up, r)
  {
    var h, rest := up[0].item, up[1..];
    HeldInHead(up);
    HeldConcat(hold, [h], r);
    HeldConcat([h], HeldIn(rest), r);
    Reassociate(WritesOf(hold, r), WritesOf([h], r), WritesOf(HeldIn(rest), r));
  }

  lemma ArrivalKeepsOthers(hold: seq<Held>, h: Held, up: seq<UpMessage>, r: nat)
    requires RequestorOf(h) != r
    ensures Pipe(hold + [h], up, r) == Pipe(hold, up, r)
  {
    HeldConcat(hold, [h], r);
    HeldOne(h, r);
  }

  lemma HeldInHead(up: seq<UpMessage>)
    requires up != [] && up[0].Request?
    ensures HeldIn(up) == [up[0].item] + HeldIn(up[1..])
  {
    UpHead(up);
    UpOne(up[0]);
  }

  lemma PipeOthers(order: seq<Sequenced>, hold: seq<Held>, up: seq<UpMessage>, r: nat, next: nat, h: Held)
    requires PipeOk(order, hold, up, r, next) && (h.HeldWrite? ==> h.entry.requestor != r)
    ensures PipeOk(order, hold + [h], up, r, next)
  {
    HeldConcat(hold, [h], r);
    HeldOne(h, r);
    PipeSame(order, hold, hold + [h], up, up, r, next);
  }

  /** A message of another kind, or a transfer request, is sent or taken off the channel. */
  lemma PipeAppends(order: seq<Sequenced>, hold: seq<Held>, up: seq<UpMessage>, r: nat, next: nat, m: UpMessage)
    requires PipeOk(order, hold, up, r, next) && (m.Request? ==> m.item.HeldTransfer? && m.item.requestor == r)
    ensures PipeOk(order, hold, up + [m], r, next)
  {
    UpConcat(up, [m]);
    UpOne(m);
    if m.Request? {
      HeldConcat(HeldIn(up), [m.item], r);
      HeldOne(m.item, r);
      assert Pipe(hold, up + [m], r) == Pipe(hold, up, r);
    } else {
      assert HeldIn(up + [m]) == HeldIn(up);
    }
  }

  lemma PipeDrops(order: seq<Sequenced>, hold: seq<Held>, up: seq<UpMessage>, r: nat, next: nat)
    requires PipeOk(order, hold, up, r, next) && up != [] && !up[0].Request?
    ensures PipeOk(order, hold, up[1..], r, next)
  {
    UpHead(up);
    UpOne(up[0]);
    assert HeldIn(up[1..]) == HeldIn(up);
    PipeSame(order, hold, hold, up, up[1..], r, next);
  }

  /** The head of the hold queue is sequenced. */
  lemma PipeSequences(order: seq<Sequenced>, hold: seq<Held>, up: seq<UpMessage>, r: nat, next: nat, stamp: nat)
    requires PipeOk(order, hold, up, r, next) && hold != [] && hold[0].HeldWrite?
    ensures PipeOk(order + [Sequenced(stamp, hold[0].entry)], hold[1..], up, r, next)
    ensures hold[0].entry.requestor == r ==> hold[0].entry.seqNum == CountBy(order, r)
  {
    var e := hold[0].entry;
    CountByNext(order, Sequenced(stamp, e), r);
    WritesHead(hold, r);
    if r == e.requestor {
      NumberedTail(e, WritesOf(hold[1..], r), WritesOf(HeldIn(up), r), r, CountBy(order, r));
    }
  }

  lemma PipePops(order: seq<Sequenced>, hold: seq<Held>, up: seq<UpMessage>, r: nat, next: nat)
    requires PipeOk(order, hold, up, r, next) && hold != [] && hold[0].HeldTransfer?
    ensures PipeOk(order, hold[1..], up, r, next)
  {
    HeldHead(hold, r);
    HeldOne(hold[0], r);
    PipeSame(order, hold, hold[1..], up, up, r, next);
  }
}
