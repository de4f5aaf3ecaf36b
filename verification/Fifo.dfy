/** What the destination queue is meant to be: one line of messages with a cursor.

    The line is backlog, output list and wait list, in this order; `sent` messages
    are in the backlog and `ready` in the output list.  In front of the line stand
    the input lists of the threads.  `gone` tells what became of all others. */
module Fifo {
  import opened RefWord

  /** A queued message: who pushed it (-1 for a thread without an input list), its
      place in the order of all pushes, and its path options. */
  datatype Node = Node(thread: int, serial: nat, ackNeeded: bool, flowControl: bool)

  /** Whoever gives a message up acks it, except when it is handed out without a backlog. */
  datatype Fate = Dropped(ackType: AckType) | Acked(ackType: AckType) | HandedOut | Freed(ackType: AckType)

  datatype Gone = Gone(node: Node, fate: Fate)

  datatype Queue = Queue(line: seq<Node>, sent: nat, ready: nat, inputs: seq<seq<Node>>,
                         gone: seq<Gone>, pushed: nat)
  {
    predicate Valid() { sent + ready <= |line| }

    /** log_queue_fifo_get_length(): what is in the output and wait lists. */
    function Length(): int { |line| - sent }
  }

  function DropFate(n: Node): Fate { Dropped(if n.flowControl then Suspended else Processed) }

  function AckedFate(n: Node): Fate { Acked(Processed) }

  function FreedFate(n: Node): Fate { Freed(Aborted) }

  function Fates(ns: seq<Node>, f: Node -> Fate): (r: seq<Gone>)
    ensures |r| == |ns| && forall i :: 0 <= i < |ns| ==> r[i] == Gone(ns[i], f(ns[i]))
  {
    if ns == [] then [] else Fates(ns[..|ns| - 1], f) + [Gone(ns[|ns| - 1], f(ns[|ns| - 1]))]
  }

  // ----- the operations

  predicate Pushable(q: Queue, n: Node) {
    n.serial == q.pushed && -1 <= n.thread < |q.inputs|
  }

  /** push_tail: onto the thread's own input list, or else straight into the line,
      unless that is full. */
  function Push(q: Queue, n: Node, size: int): Queue
    requires Pushable(q, n)
  {
    var p := q.(pushed := q.pushed + 1);
    if n.thread >= 0 then p.(inputs := q.inputs[n.thread := q.inputs[n.thread] + [n]])
    else if q.Length() < size then p.(line := q.line + [n])
    else p.(gone := q.gone + [Gone(n, DropFate(n))])
  }

  /** How many of a batch of `len` messages do not fit behind `length` others. */
  function Overflow(length: int, len: nat, size: int): (n: nat)
    ensures n <= len
  {
    if length + len > size then len - (if size > length then size - length else 0) else 0
  }

  /** move_input: the oldest messages of the batch are dropped, the rest joins the line. */
  function Move(q: Queue, t: nat, drop: nat): Queue
    requires t < |q.inputs| && drop <= |q.inputs[t]|
  {
    q.(inputs := q.inputs[t := []], line := q.line + q.inputs[t][drop..],
       gone := q.gone + Fates(q.inputs[t][..drop], DropFate))
  }

  /** pop_head: an empty output list first takes over the whole wait list. */
  function Filled(q: Queue): Queue {
    if q.ready == 0 && q.sent <= |q.line| then q.(ready := |q.line| - q.sent) else q
  }

  function Pop(q: Queue, useBacklog: bool): Queue
    requires q.Valid()
  {
    var p := Filled(q);
    if p.ready == 0 then p
    else if useBacklog then p.(sent := p.sent + 1, ready := p.ready - 1)
    else p.(line := p.line[..p.sent] + p.line[p.sent + 1..], ready := p.ready - 1,
            gone := p.gone + [Gone(p.line[p.sent], HandedOut)])
  }

  function Min(a: nat, b: nat): nat { if a <= b then a else b }

  /** ack_backlog: the oldest messages sent are acknowledged. */
  function Confirm(q: Queue, count: nat): Queue
    requires q.Valid()
  {
    var n := Min(count, q.sent);
    q.(line := q.line[n..], sent := q.sent - n, gone := q.gone + Fates(q.line[..n], AckedFate))
  }

  /** rewind_backlog: the cursor goes back. */
  function Rewind(q: Queue, count: nat): Queue {
    var n := Min(count, q.sent);
    q.(sent := q.sent - n, ready := q.ready + n)
  }

  /** rewind_backlog_all: the backlog goes behind the output list. */
  function RewindAll(q: Queue): Queue
    requires q.Valid()
  {
    q.(line := q.line[q.sent..q.sent + q.ready] + q.line[..q.sent] + q.line[q.sent + q.ready..],
       sent := 0, ready := q.ready + q.sent)
  }

  function Joined(ins: seq<seq<Node>>): seq<Node> {
    if ins == [] then [] else Joined(ins[..|ins| - 1]) + ins[|ins| - 1]
  }

  /** Everything queued, in the order in which free gives it up. */
  function Everything(q: Queue): seq<Node>
    requires q.Valid()
  {
    Joined(q.inputs) + q.line[q.sent + q.ready..] + q.line[q.sent..q.sent + q.ready] + q.line[..q.sent]
  }

  /** free: whatever is still queued is given up. */
  function Emptied(q: Queue): Queue
    requires q.Valid()
  {
    q.(line := [], sent := 0, ready := 0, inputs := seq(|q.inputs|, _ => []),
       gone := q.gone + Fates(Everything(q), FreedFate))
  }

  datatype Op =
    | OPush(node: Node, size: int)
    | OMove(thread: nat, drop: nat)
    | OPop(useBacklog: bool)
    | OAck(count: nat)
    | ORewind(count: nat)
    | ORewindAll
    | OFree

  predicate Enabled(q: Queue, op: Op) {
    match op
    case OPush(n, _) => Pushable(q, n)
    case OMove(t, drop) => t < |q.inputs| && drop <= |q.inputs[t]|
    case _ => true
  }

  function Next(q: Queue, op: Op): Queue
    requires q.Valid() && Enabled(q, op)
  {
    match op
    case OPush(n, size) => Push(q, n, size)
    case OMove(t, drop) => Move(q, t, drop)
    case OPop(b) => Pop(q, b)
    case OAck(n) => Confirm(q, n)
    case ORewind(n) => Rewind(q, n)
    case ORewindAll => RewindAll(q)
    case OFree => Emptied(q)
  }

  // ----- every message is in one place

  ghost function Count(ns: seq<Node>, k: nat): nat {
    if ns == [] then 0 else Count(ns[..|ns| - 1], k) + (if ns[|ns| - 1].serial == k then 1 else 0)
  }

  ghost function CountGone(gs: seq<Gone>, k: nat): nat {
    if gs == [] then 0 else CountGone(gs[..|gs| - 1], k) + (if gs[|gs| - 1].node.serial == k then 1 else 0)
  }

  ghost function CountInputs(ins: seq<seq<Node>>, k: nat): nat {
    if ins == [] then 0 else CountInputs(ins[..|ins| - 1], k) + Count(ins[|ins| - 1], k)
  }

  ghost function Places(q: Queue, k: nat): nat {
    Count(q.line, k) + CountInputs(q.inputs, k) + CountGone(q.gone, k)
  }

  lemma {:induction false} CountAppend(a: seq<Node>, b: seq<Node>, k: nat)
    ensures Count(a + b, k) == Count(a, k) + Count(b, k)
  {
    if b == [] {
      assert a + b == a;
    } else {
      assert (a + b)[..|a + b| - 1] == a + b[..|b| - 1];
      CountAppend(a, b[..|b| - 1], k);
    }
  }

  lemma {:induction false} CountGoneAppend(a: seq<Gone>, b: seq<Gone>, k: nat)
    ensures CountGone(a + b, k) == CountGone(a, k) + CountGone(b, k)
  {
    if b == [] {
      assert a + b == a;
    } else {
      assert (a + b)[..|a + b| - 1] == a + b[..|b| - 1];
      CountGoneAppend(a, b[..|b| - 1], k);
    }
  }

  lemma {:induction false} CountFates(ns: seq<Node>, f: Node -> Fate, k: nat)
    ensures CountGone(Fates(ns, f), k) == Count(ns, k)
  {
    if ns != [] {
      assert Fates(ns, f)[..|ns| - 1] == Fates(ns[..|ns| - 1], f);
      CountFates(ns[..|ns| - 1], f, k);
    }
  }

  lemma {:induction false} CountInputsUpdate(ins: seq<seq<Node>>, t: nat, x: seq<Node>, k: nat)
    requires t < |ins|
    ensures CountInputs(ins[t := x], k) == CountInputs(ins, k) - Count(ins[t], k) + Count(x, k)
  {
    var last := |ins| - 1;
    if t < last {
      assert ins[t := x][..last] == ins[..last][t := x];
      CountInputsUpdate(ins[..last], t, x, k);
    } else {
      assert ins[t := x][..last] == ins[..last];
    }
  }

  /** An operation other than a push moves messages about, and loses and doubles none. */
  lemma PlacesKept(q: Queue, op: Op, k: nat)
    requires q.Valid() && Enabled(q, op)
    ensures Next(q, op).Valid()
    ensures Places(Next(q, op), k) == Places(q, k) + (if op.OPush? && op.node.serial == k then 1 else 0)
  {
    match op
    case OPush(n, size) => PushPlaces(q, n, size, k);
    case OMove(t, drop) => MovePlaces(q, t, drop, k);
    case OPop(b) => PopPlaces(q, b, k);
    case OAck(count) => AckPlaces(q, count, k);
    case ORewind(n) =>
    case ORewindAll => RewindAllPlaces(q, k);
    case OFree => FreePlaces(q, k);
  }

  lemma RewindAllPlaces(q: Queue, k: nat)
    requires q.Valid()
    ensures RewindAll(q).Valid() && Places(RewindAll(q), k) == Places(q, k)
  {
    hide Count, CountInputs, CountGone;
    var a, b, c := q.line[..q.sent], q.line[q.sent..q.sent + q.ready], q.line[q.sent + q.ready..];
    assert q.line == a + b + c;
    CountAppend(a + b, c, k);
    CountAppend(a, b, k);
    CountAppend(b + a, c, k);
    CountAppend(b, a, k);
  }

  lemma FreePlaces(q: Queue, k: nat)
    requires q.Valid()
    ensures Emptied(q).Valid() && Places(Emptied(q), k) == Places(q, k)
  {
    hide Count, CountInputs, CountGone, Joined, Fates;
    var a, b, c := q.line[..q.sent], q.line[q.sent..q.sent + q.ready], q.line[q.sent + q.ready..];
    var ins := Joined(q.inputs);
    assert q.line == a + b + c;
    CountAppend(a + b, c, k);
    CountAppend(a, b, k);
    CountAppend(ins + c + b, a, k);
    CountAppend(ins + c, b, k);
    CountAppend(ins, c, k);
    CountJoined(q.inputs, k);
    CountGoneAppend(q.gone, Fates(Everything(q), FreedFate), k);
    CountFates(Everything(q), FreedFate, k);
    NothingYet(Emptied(q).inputs, k);
    CountNone(k);
  }

  lemma CountNone(k: nat)
    ensures Count([], k) == 0
  {
  }

  lemma {:induction false} CountJoined(ins: seq<seq<Node>>, k: nat)
    ensures Count(Joined(ins), k) == CountInputs(ins, k)
  {
    if ins != [] {
      CountJoined(ins[..|ins| - 1], k);
      CountAppend(Joined(ins[..|ins| - 1]), ins[|ins| - 1], k);
    }
  }

  lemma PopPlaces(q: Queue, b: bool, k: nat)
    requires q.Valid()
    ensures Pop(q, b).Valid() && Places(Pop(q, b), k) == Places(q, k)
  {
    hide Count, CountInputs, CountGone;
    var p := Filled(q);
    if p.ready > 0 && !b {
      CountRemove(p.line, p.sent, k);
      CountGoneOne(p, k);
    }
  }

  lemma AckPlaces(q: Queue, count: nat, k: nat)
    requires q.Valid() && Enabled(q, OAck(count))
    ensures Next(q, OAck(count)).Valid() && Places(Next(q, OAck(count)), k) == Places(q, k)
  {
    var n := Min(count, q.sent);
    assert q.line == q.line[..n] + q.line[n..];
    CountAppend(q.line[..n], q.line[n..], k);
    CountGoneAppend(q.gone, Fates(q.line[..n], AckedFate), k);
    CountFates(q.line[..n], AckedFate, k);
  }

  lemma PushPlaces(q: Queue, n: Node, size: int, k: nat)
    requires Pushable(q, n)
    ensures Places(Push(q, n, size), k) == Places(q, k) + (if n.serial == k then 1 else 0)
  {
    assert [n][..0] == [] && Count([n], k) == if n.serial == k then 1 else 0;
    if n.thread >= 0 {
      CountAppend(q.inputs[n.thread], [n], k);
      CountInputsUpdate(q.inputs, n.thread, q.inputs[n.thread] + [n], k);
    } else {
      CountAppend(q.line, [n], k);
      assert (q.gone + [Gone(n, DropFate(n))])[..|q.gone|] == q.gone;
    }
  }

  lemma MovePlaces(q: Queue, t: nat, drop: nat, k: nat)
    requires t < |q.inputs| && drop <= |q.inputs[t]|
    ensures Places(Move(q, t, drop), k) == Places(q, k)
  {
    var batch := q.inputs[t];
    assert batch == batch[..drop] + batch[drop..];
    CountAppend(batch[..drop], batch[drop..], k);
    CountAppend(q.line, batch[drop..], k);
    CountGoneAppend(q.gone, Fates(batch[..drop], DropFate), k);
    CountFates(batch[..drop], DropFate, k);
    CountInputsUpdate(q.inputs, t, [], k);
  }

  lemma CountRemove(ns: seq<Node>, i: nat, k: nat)
    requires i < |ns|
    ensures Count(ns, k) == Count(ns[..i] + ns[i + 1..], k) + (if ns[i].serial == k then 1 else 0)
  {
    assert ns == ns[..i] + ([ns[i]] + ns[i + 1..]);
    CountAppend(ns[..i], [ns[i]] + ns[i + 1..], k);
    CountAppend([ns[i]], ns[i + 1..], k);
    CountAppend(ns[..i], ns[i + 1..], k);
    assert [ns[i]][..0] == [];
  }

  lemma CountGoneOne(p: Queue, k: nat)
    requires p.sent < |p.line|
    ensures CountGone(p.gone + [Gone(p.line[p.sent], HandedOut)], k)
            == CountGone(p.gone, k) + (if p.line[p.sent].serial == k then 1 else 0)
  {
    assert (p.gone + [Gone(p.line[p.sent], HandedOut)])[..|p.gone|] == p.gone;
  }

  // ----- every thread's messages stay in the order it pushed them

  ghost predicate InOrder(ns: seq<Node>) {
    forall i, j :: 0 <= i < j < |ns| && ns[i].thread == ns[j].thread ==> ns[i].serial < ns[j].serial
  }

  /** The thread's messages in the line, then those in its input list. */
  ghost predicate Ordered(q: Queue) {
    && InOrder(q.line)
    && (forall i :: 0 <= i < |q.line| ==> q.line[i].serial < q.pushed)
    && (forall t :: 0 <= t < |q.inputs| ==> InputOrdered(q, t))
  }

  ghost predicate InputOrdered(q: Queue, t: nat)
    requires t < |q.inputs|
  {
    var b := q.inputs[t];
    && InOrder(b)
    && (forall j :: 0 <= j < |b| ==> b[j].thread == t && b[j].serial < q.pushed)
    && (forall i, j :: 0 <= i < |q.line| && 0 <= j < |b| && q.line[i].thread == t ==> q.line[i].serial < b[j].serial)
  }

  lemma MoveKeepsOrder(q: Queue, t: nat, drop: nat)
    requires Ordered(q) && t < |q.inputs| && drop <= |q.inputs[t]|
    ensures Ordered(Move(q, t, drop))
  {
    var p := Move(q, t, drop);
    assert InputOrdered(q, t);
    assert InOrder(p.line);
    forall u | 0 <= u < |p.inputs|
      ensures InputOrdered(p, u)
    {
      assert InputOrdered(q, u);
    }
  }

  lemma PushKeepsOrder(q: Queue, n: Node, size: int)
    requires Ordered(q) && Pushable(q, n)
    ensures Ordered(Push(q, n, size))
  {
    var p := Push(q, n, size);
    forall u | 0 <= u < |p.inputs|
      ensures InputOrdered(p, u)
    {
      assert InputOrdered(q, u);
    }
  }

  /** Leaving messages out of the line. */
  lemma ShorterKeepsOrder(q: Queue, p: Queue, a: nat, b: nat)
    requires Ordered(q) && p.inputs == q.inputs && p.pushed == q.pushed
    requires a <= b <= |q.line| && p.line == q.line[..a] + q.line[b..]
    ensures Ordered(p)
  {
    forall u | 0 <= u < |p.inputs|
      ensures InputOrdered(p, u)
    {
      assert InputOrdered(q, u);
    }
  }

  /** No thread has messages both in the backlog and in the output list. */
  predicate Separate(q: Queue)
    requires q.Valid()
  {
    forall i, j :: 0 <= i < q.sent <= j < q.sent + q.ready ==> q.line[i].thread != q.line[j].thread
  }

  /** Every operation keeps the order, rewind_backlog_all exactly when no thread has
      messages both in the backlog and in the output list. */
  lemma OrderKept(q: Queue, op: Op)
    requires q.Valid() && Ordered(q) && Enabled(q, op)
    ensures Ordered(Next(q, op)) <==> (op.ORewindAll? ==> Separate(q))
  {
    match op
    case OPush(n, size) => PushKeepsOrder(q, n, size);
    case OMove(t, drop) => MoveKeepsOrder(q, t, drop);
    case OPop(b) =>
      var p := Pop(q, b);
      var i := if p.line == q.line then 0 else q.sent;
      ShorterKeepsOrder(q, p, i, if p.line == q.line then 0 else i + 1);
    case OAck(count) => ShorterKeepsOrder(q, Confirm(q, count), 0, Min(count, q.sent));
    case ORewind(n) => ShorterKeepsOrder(q, Rewind(q, n), 0, 0);
    case ORewindAll => RewindAllKeepsOrder(q);
    case OFree =>
      var p := Emptied(q);
      assert forall u :: 0 <= u < |p.inputs| ==> InputOrdered(p, u);
  }

  lemma RewindAllKeepsOrder(q: Queue)
    requires q.Valid() && Ordered(q)
    ensures RewindAll(q).Valid()
    ensures Ordered(RewindAll(q)) <==> Separate(q)
  {
    var p := RewindAll(q);
    if Ordered(p) {
      forall i, j | 0 <= i < q.sent <= j < q.sent + q.ready
        ensures q.line[i].thread != q.line[j].thread
      {
        assert p.line[q.ready + i] == q.line[i] && p.line[j - q.sent] == q.line[j];
      }
    } else if Separate(q) {
      RewindAllInOrder(q);
      forall u | 0 <= u < |p.inputs|
        ensures InputOrdered(p, u)
      {
        assert InputOrdered(q, u);
      }
    }
  }

  /** Where the message at place `i` of the rewound line stood before. */
  function Before(q: Queue, i: nat): nat {
    if i < q.ready then q.sent + i else if i < q.ready + q.sent then i - q.ready else i
  }

  lemma RewindAllFrom(q: Queue, i: nat)
    requires q.Valid() && i < |q.line|
    ensures |RewindAll(q).line| == |q.line| && Before(q, i) < |q.line| && RewindAll(q).line[i] == q.line[Before(q, i)]
  {
  }

  lemma RewindAllInOrder(q: Queue)
    requires q.Valid() && InOrder(q.line) && Separate(q)
    ensures InOrder(RewindAll(q).line)
    ensures forall i :: 0 <= i < |q.line| ==> Before(q, i) < |q.line| && RewindAll(q).line[i] == q.line[Before(q, i)]
  {
    hide RewindAll;
    var l := RewindAll(q).line;
    assert |l| == |q.line| by {
      if q.line != [] { RewindAllFrom(q, 0); } else { RewindEmpty(q); }
    }
    forall i | 0 <= i < |q.line|
      ensures Before(q, i) < |q.line| && l[i] == q.line[Before(q, i)]
    {
      RewindAllFrom(q, i);
    }
    forall i, j | 0 <= i < j < |q.line| && l[i].thread == l[j].thread
      ensures l[i].serial < l[j].serial
    {
      var a, b := Before(q, i), Before(q, j);
      assert q.line[a].thread == q.line[b].thread;
      assert a < b;
    }
  }

  lemma RewindEmpty(q: Queue)
    requires q.Valid() && q.line == []
    ensures RewindAll(q).line == []
  {
  }

  /** A batch move drops the oldest messages, and no more of them than it must: the
      queue ends up no longer than its limit, or than it was. */
  lemma MoveDropsFewest(q: Queue, t: nat, size: int)
    requires q.Valid() && t < |q.inputs|
    ensures var d := Overflow(q.Length(), |q.inputs[t]|, size);
            var p := Move(q, t, d);
            && p.Length() <= (if size > q.Length() then size else q.Length())
            && (d > 0 ==> p.Length() == if size > q.Length() then size else q.Length())
            && p.gone == q.gone + Fates(q.inputs[t][..d], DropFate)
  {
  }

  /** A push into the line is refused exactly when the line is full; one into an input list
      never is. */
  lemma PushRefusedIffFull(q: Queue, n: Node, size: int)
    requires q.Valid() && Pushable(q, n)
    ensures var p := Push(q, n, size);
            && (p.gone == q.gone <==> n.thread >= 0 || q.Length() < size)
            && (p.gone == q.gone ==> if n.thread >= 0 then p.inputs[n.thread] == q.inputs[n.thread] + [n]
                                     else p.line == q.line + [n])
            && (p.gone != q.gone ==> |p.gone| == |q.gone| + 1 && p.gone[|q.gone|].node == n && p.line == q.line)
  {
    assert |q.gone + [Gone(n, DropFate(n))]| == |q.gone| + 1;
  }

  // ----- over every run

  ghost predicate Run(qs: seq<Queue>, ops: seq<Op>) {
    && |qs| == |ops| + 1
    && qs[0] == Queue([], 0, 0, seq(|qs[0].inputs|, i => []), [], 0)
    && forall i :: 0 <= i < |ops| ==> qs[i].Valid() && Enabled(qs[i], ops[i]) && qs[i + 1] == Next(qs[i], ops[i])
  }

  /** In every run each message pushed so far is in exactly one list or has met
      exactly one fate, and no other message is anywhere. */
  lemma {:induction false} EveryRun(qs: seq<Queue>, ops: seq<Op>, i: nat, k: nat)
    requires Run(qs, ops) && i < |qs|
    ensures qs[i].Valid() && Places(qs[i], k) == if k < qs[i].pushed then 1 else 0
  {
    if i == 0 {
      NothingYet(qs[0].inputs, k);
    } else {
      EveryRun(qs, ops, i - 1, k);
      PlacesKept(qs[i - 1], ops[i - 1], k);
    }
  }

  /** As long as no rewind_backlog_all meets a thread with messages both in the backlog and
      in the output list, the messages of each thread stand in the order it pushed them;
      the first one that does breaks the order. */
  lemma {:induction false} EveryRunOrdered(qs: seq<Queue>, ops: seq<Op>, i: nat)
    requires Run(qs, ops) && i < |qs|
    requires forall j :: 0 <= j < i - 1 ==> (ops[j].ORewindAll? ==> Separate(qs[j]))
    ensures Ordered(qs[i]) <==> (i > 0 && ops[i - 1].ORewindAll? ==> Separate(qs[i - 1]))
    ensures forall j :: 0 <= j < i ==> Ordered(qs[j])
  {
    if i > 0 {
      EveryRunOrdered(qs, ops, i - 1);
      OrderKept(qs[i - 1], ops[i - 1]);
    }
  }

  // ----- what becomes of messages, and in which order

  /** Dropped messages are acked SUSPENDED if flow control was requested for them and PROCESSED
      if not, those left over when the queue is freed ABORTED, and those confirmed PROCESSED. */
  predicate RightFate(g: Gone) {
    match g.fate
    case Dropped(a) => a != Aborted && (a == Suspended <==> g.node.flowControl)
    case Acked(a) => a == Processed
    case Freed(a) => a == Aborted
    case HandedOut => true
  }

  /** The operations that can have brought about a fate. */
  predicate CausedBy(f: Fate, op: Op) {
    match f
    case Dropped(_) => op.OPush? || op.OMove?
    case Acked(_) => op.OAck?
    case Freed(_) => op.OFree?
    case HandedOut => op == OPop(false)
  }

  lemma NewFates(q: Queue, op: Op, i: nat)
    requires q.Valid() && Enabled(q, op) && i < |Next(q, op).gone|
    ensures q.gone <= Next(q, op).gone
    ensures i >= |q.gone| ==> RightFate(Next(q, op).gone[i]) && CausedBy(Next(q, op).gone[i].fate, op)
  {
  }

  /** In every run every message that is gone met the right fate, by the right operation. */
  lemma {:induction false} EveryFate(qs: seq<Queue>, ops: seq<Op>, i: nat, k: nat)
    requires Run(qs, ops) && i < |qs| && k < |qs[i].gone|
    ensures RightFate(qs[i].gone[k])
    ensures exists j :: 0 <= j < i && CausedBy(qs[i].gone[k].fate, ops[j])
  {
    if i > 0 {
      hide Next;
      NewFates(qs[i - 1], ops[i - 1], k);
      if k < |qs[i - 1].gone| {
        EveryFate(qs, ops, i - 1, k);
      }
    }
  }

  /** The messages confirmed so far, in order. */
  function Confirmed(gone: seq<Gone>): seq<Node> {
    if gone == [] then []
    else Confirmed(gone[..|gone| - 1]) + if gone[|gone| - 1].fate.Acked? then [gone[|gone| - 1].node] else []
  }

  lemma {:induction false} ConfirmedTwo(a: seq<Gone>, b: seq<Gone>)
    ensures Confirmed(a + b) == Confirmed(a) + Confirmed(b)
    decreases |b|
  {
    if b == [] {
      assert a + b == a;
    } else {
      ConfirmedTwo(a, b[..|b| - 1]);
      assert (a + b)[..|a + b| - 1] == a + b[..|b| - 1];
    }
  }

  lemma {:induction false} ConfirmedFates(ns: seq<Node>, f: Node -> Fate, acked: bool)
    requires forall n :: f(n).Acked? == acked
    ensures Confirmed(Fates(ns, f)) == if acked then ns else []
    decreases |ns|
  {
    if ns != [] {
      var front := ns[..|ns| - 1];
      ConfirmedFates(front, f, acked);
      assert Fates(ns, f)[..|ns| - 1] == Fates(front, f);
      assert front + [ns[|ns| - 1]] == ns;
    }
  }

  /** The queue with what was confirmed still in front of the line. */
  function Whole(q: Queue): Queue { q.(line := Confirmed(q.gone) + q.line) }

  /** Operations of a consumer that works with the backlog and takes back no more than it
      counts, and of the input threads. */
  predicate Steady(op: Op) { !op.ORewindAll? && !op.OFree? && op != OPop(false) }

  lemma WholeOrdered(q: Queue, op: Op)
    requires q.Valid() && Enabled(q, op) && Steady(op) && Ordered(Whole(q))
    ensures Ordered(Whole(Next(q, op)))
  {
    hide Fates, Confirmed, Ordered;
    match op
    case OPush(n, size) => PushWhole(q, n, size);
    case OMove(t, drop) => MoveWhole(q, t, drop);
    case OPop(b) => SameOrder(Whole(q), Whole(Pop(q, b)));
    case OAck(count) => ConfirmWhole(q, count);
    case ORewind(n) => SameOrder(Whole(q), Whole(Rewind(q, n)));
  }

  lemma MoveWhole(q: Queue, t: nat, drop: nat)
    requires Ordered(Whole(q)) && t < |q.inputs| && drop <= |q.inputs[t]|
    ensures Ordered(Whole(Move(q, t, drop)))
  {
    hide Fates, Confirmed, Ordered;
    var c, batch := Confirmed(q.gone), q.inputs[t];
    ConfirmedTwo(q.gone, Fates(batch[..drop], DropFate));
    ConfirmedFates(batch[..drop], DropFate, false);
    assert c + (q.line + batch[drop..]) == c + q.line + batch[drop..] && c + [] == c;
    MoveKeepsOrder(Whole(q), t, drop);
    SameOrder(Move(Whole(q), t, drop), Whole(Move(q, t, drop)));
  }

  lemma ConfirmWhole(q: Queue, count: nat)
    requires q.Valid() && Ordered(Whole(q))
    ensures Ordered(Whole(Confirm(q, count)))
  {
    hide Fates, Confirmed, Ordered;
    var c, n := Confirmed(q.gone), Min(count, q.sent);
    ConfirmedTwo(q.gone, Fates(q.line[..n], AckedFate));
    ConfirmedFates(q.line[..n], AckedFate, true);
    assert c + q.line[..n] + q.line[n..] == c + q.line;
    SameOrder(Whole(q), Whole(Confirm(q, count)));
  }

  lemma DropsOne(n: Node)
    ensures Confirmed([Gone(n, DropFate(n))]) == []
  {
    assert [Gone(n, DropFate(n))][..0] == [];
  }

  lemma SameOrder(q: Queue, p: Queue)
    requires Ordered(q) && p.line == q.line && p.inputs == q.inputs && p.pushed == q.pushed
    ensures Ordered(p)
  {
    forall t | 0 <= t < |p.inputs|
      ensures InputOrdered(p, t)
    {
      assert InputOrdered(q, t);
    }
  }

  lemma PushWhole(q: Queue, n: Node, size: int)
    requires Ordered(Whole(q)) && Pushable(q, n)
    ensures Ordered(Whole(Push(q, n, size)))
  {
    hide Confirmed, Ordered;
    var w, c := Whole(q), Confirmed(q.gone);
    ConfirmedTwo(q.gone, [Gone(n, DropFate(n))]);
    DropsOne(n);
    assert c + (q.line + [n]) == c + q.line + [n] && c + [] == c;
    var room := if q.Length() < size then w.Length() + 1 else w.Length();
    PushKeepsOrder(w, n, room);
    SameOrder(Push(w, n, room), Whole(Push(q, n, size)));
  }

  /** A consumer that works with the backlog confirms the messages of each thread in the order
      in which the thread pushed them, and before any that are still queued. */
  lemma {:induction false} ConfirmedInOrder(qs: seq<Queue>, ops: seq<Op>, i: nat)
    requires Run(qs, ops) && i < |qs| && forall j :: 0 <= j < i ==> Steady(ops[j])
    ensures Ordered(Whole(qs[i]))
  {
    hide Next;
    if i == 0 {
      assert forall t :: 0 <= t < |qs[0].inputs| ==> InputOrdered(Whole(qs[0]), t);
    } else {
      ConfirmedInOrder(qs, ops, i - 1);
      WholeOrdered(qs[i - 1], ops[i - 1]);
    }
  }

  /** `k` messages taken one after the other. */
  function Taken(q: Queue, k: nat): (r: Queue)
    requires q.Valid()
    ensures r.Valid()
  {
    if k == 0 then q else Pop(Taken(q, k - 1), true)
  }

  lemma {:induction false} TakenAre(q: Queue, k: nat)
    requires q.Valid() && k <= q.Length()
    ensures var r := Taken(q, k); r == q.(sent := q.sent + k, ready := r.ready)
  {
    if k > 0 {
      TakenAre(q, k - 1);
    }
  }

  /** Putting back as many messages as were taken leaves the line as it was, and confirming
      them, when no others were out, takes just the first ones off it. */
  lemma TakenBack(q: Queue, k: nat)
    requires q.Valid() && k <= q.Length()
    ensures var r := Rewind(Taken(q, k), k); r == q.(ready := r.ready)
    ensures q.sent == 0 ==>
              var r := Confirm(Taken(q, k), k);
              r.line == q.line[k..] && r.sent == 0 && Confirmed(r.gone) == Confirmed(q.gone) + q.line[..k]
  {
    hide Fates;
    TakenAre(q, k);
    ConfirmedTwo(q.gone, Fates(q.line[..k], AckedFate));
    ConfirmedFates(q.line[..k], AckedFate, true);
  }

  lemma {:induction false} NothingYet(ins: seq<seq<Node>>, k: nat)
    requires forall t :: 0 <= t < |ins| ==> ins[t] == []
    ensures CountInputs(ins, k) == 0
  {
    if ins != [] { NothingYet(ins[..|ins| - 1], k); }
  }

  lemma Extended(qs: seq<Queue>, ops: seq<Op>, op: Op, q: Queue)
    requires Run(qs, ops) && qs[|ops|].Valid() && Enabled(qs[|ops|], op) && Next(qs[|ops|], op) == q
    ensures Run(qs + [q], ops + [op])
  {
    hide Next, Enabled;
  }

  const OLDER := Node(0, 0, true, false)

  const YOUNGER := Node(0, 1, true, false)

  /** The first of two messages of one thread was sent; no message is at rest elsewhere. */
  function Sending(): Queue { Queue([OLDER, YOUNGER], 1, 1, [[]], [], 2) }

  /** An order that a run loses: two messages of one thread arrive, the first is sent, and
      after the rewind it is sent again after the younger one. */
  lemma RewindAllReorders() returns (qs: seq<Queue>, ops: seq<Op>)
    ensures Run(qs, ops) && |qs| == 6
    ensures ops == [OPush(OLDER, 2), OPush(YOUNGER, 2), OMove(0, 0), OPop(true), ORewindAll]
    ensures qs[4].line == [OLDER, YOUNGER] && Ordered(qs[4])
    ensures qs[5].line == [YOUNGER, OLDER] && !Ordered(qs[5])
  {
    hide Run, Next, Ordered;
    qs, ops := FirstSent();
    var r := RewindAll(Sending());
    assert Next(Sending(), ORewindAll) == r by {
      RewindNext();
    }
    Extended(qs, ops, ORewindAll, r);
    qs, ops := qs + [r], ops + [ORewindAll];
    Reordered();
  }

  lemma RewindNext()
    ensures Next(Sending(), ORewindAll) == RewindAll(Sending())
  {
  }

  lemma Reordered()
    ensures Ordered(Sending())
    ensures var r := RewindAll(Sending()); r.line == [YOUNGER, OLDER] && !Ordered(r)
  {
    assert InputOrdered(Sending(), 0);
    var l := RewindAll(Sending()).line;
    assert l == [YOUNGER, OLDER];
    assert l[0].thread == l[1].thread && l[0].serial > l[1].serial;
  }

  lemma FirstSent() returns (qs: seq<Queue>, ops: seq<Op>)
    ensures Run(qs, ops) && |qs| == 5 && qs[4] == Sending()
    ensures ops == [OPush(OLDER, 2), OPush(YOUNGER, 2), OMove(0, 0), OPop(true)]
  {
    hide Run, Next;
    qs, ops := BothPushed();
    Arrived();
    var q := Queue([OLDER, YOUNGER], 0, 0, [[]], [], 2);
    Extended(qs, ops, OMove(0, 0), q);
    qs, ops := qs + [q], ops + [OMove(0, 0)];
    Extended(qs, ops, OPop(true), Sending());
    qs, ops := qs + [Sending()], ops + [OPop(true)];
  }

  lemma Arrived()
    ensures Next(Queue([], 0, 0, [[OLDER, YOUNGER]], [], 2), OMove(0, 0)) == Queue([OLDER, YOUNGER], 0, 0, [[]], [], 2)
    ensures Next(Queue([OLDER, YOUNGER], 0, 0, [[]], [], 2), OPop(true)) == Sending()
  {
    var batch := [OLDER, YOUNGER];
    assert [] + batch[0..] == batch && Fates(batch[..0], DropFate) == [] && [batch][0 := []] == [[]];
  }

  lemma BothPushed() returns (qs: seq<Queue>, ops: seq<Op>)
    ensures Run(qs, ops) && |qs| == 3 && qs[2] == Queue([], 0, 0, [[OLDER, YOUNGER]], [], 2)
    ensures ops == [OPush(OLDER, 2), OPush(YOUNGER, 2)]
  {
    var none: seq<seq<Node>> := [[]];
    assert none == seq(1, i => []);
    qs, ops := [Queue([], 0, 0, none, [], 0)], [];
    assert none[0] + [OLDER] == [OLDER];
    Extended(qs, ops, OPush(OLDER, 2), Queue([], 0, 0, [[OLDER]], [], 1));
    qs, ops := qs + [Queue([], 0, 0, [[OLDER]], [], 1)], ops + [OPush(OLDER, 2)];
    assert [OLDER] + [YOUNGER] == [OLDER, YOUNGER];
    Extended(qs, ops, OPush(YOUNGER, 2), Queue([], 0, 0, [[OLDER, YOUNGER]], [], 2));
    qs, ops := qs + [Queue([], 0, 0, [[OLDER, YOUNGER]], [], 2)], ops + [OPush(YOUNGER, 2)];
  }
}
