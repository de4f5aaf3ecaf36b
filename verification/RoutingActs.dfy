/** The operations that make up the routing of a message, and consumers of queue nodes at
    work in between. */
module RoutingActs {
  import opened Wrappers
  import opened Ledger
  import opened LogTree
  import opened LogPath
  import opened PathCounts

  // ----- the operations of a routing thread

  predicate Routing(acts: seq<Act>) { forall a :: a in acts ==> !a.AConsume? }

  /** Nodes are queued with an ack to give exactly when they are queued with flow control. */
  predicate Promised(acts: seq<Act>) { forall a :: a in acts && a.AQueue? ==> a.o.ack == a.o.flow }

  function OneDriver(m: nat, d: string, i: nat, o: Options): (r: seq<Act>)
    ensures Routing(r) && (o.ack ==> Promised(r))
  {
    var o1 := if o.flow then o else o.(ack := false);
    [ALend(m, o)] + (if o.flow then [] else [ABreak(m, o)]) + ([AQueue(m, d, i, o1)] + [ADrop(m, o1)])
  }

  function DriverActs(m: nat, d: string, i: nat, n: nat, o: Options): (r: seq<Act>)
    requires i <= n
    ensures Routing(r) && (o.ack ==> Promised(r))
    decreases n - i
  {
    if i == n then [] else OneDriver(m, d, i, o) + DriverActs(m, d, i + 1, n, o)
  }

  /** What queueing `m` into the first pipe of `p` does, one operation after the other. */
  function PathActs(sem: Meaning, g: Drivers, w: World, m: nat, p: Path, o: Options): (r: seq<Act>)
    requires Sized(w) && m < |w.bodies|
    ensures Routing(r) && (o.ack ==> Promised(r))
    decreases p, 0
  {
    match p
    case End => [ADrop(m, o)]
    case Proc(e, rest) =>
      var effect := sem(e, View(w, m));
      [AStore(m, effect.edits)] +
      if effect.accept then PathActs(sem, g, StoreAll(w, m, effect.edits), m, rest, o) else [ADrop(m, o)]
    case Group(d, rest) =>
      DriverActs(m, d, 0, g(d), o) + PathActs(sem, g, RunDrivers(w, m, d, 0, g(d), o), m, rest, o)
    case Mpx(hops, rest) =>
      HopsActs(sem, g, w, m, hops, rest.End?, o) +
      PathActs(sem, g, RunHops(sem, g, w, m, hops, rest.End?, o), m, rest, o)
  }

  function HopActs(sem: Meaning, g: Drivers, w: World, m: nat, p: Path, mark: Mark, last: bool,
                   o: Options): (r: seq<Act>)
    requires Sized(w) && m < |w.bodies|
    ensures Routing(r) && (o.ack ==> Promised(r))
    decreases p, 1
  {
    var o1 := o.(flow := o.flow || mark.hard);
    var w1 := Lend(w, m, o1);
    if mark.clone && (w.bodies[m].referenced || !last)
    then [ALend(m, o1)] + [AClone(m, o1)] + PathActs(sem, g, CloneOf(w1, m, o1), |w.bodies|, p, o1)
    else [ALend(m, o1)] + PathActs(sem, g, w1, m, p, o1)
  }

  function PassActs(sem: Meaning, g: Drivers, w: World, m: nat, hops: Hops, fallback: bool, delivered: bool,
                    end: bool, fx: bool, o: Options): (r: seq<Act>)
    requires Sized(w) && m < |w.bodies|
    ensures Routing(r) && (o.ack ==> Promised(r))
    decreases hops, 0
  {
    match hops
    case NoHops => []
    case Hop(path, mark, tail) =>
      if mark.fallback != fallback then PassActs(sem, g, w, m, tail, fallback, delivered, end, fx, o)
      else
        var last := end && tail.NoHops? && (!fx || delivered || fallback);
        var out := RunHop(sem, g, w, m, path, mark, last, o);
        HopActs(sem, g, w, m, path, mark, last, o) +
        if out.ok && mark.final then []
        else PassActs(sem, g, out.world, m, tail, fallback, delivered || out.ok, end, fx, o)
  }

  function HopsActs(sem: Meaning, g: Drivers, w: World, m: nat, hops: Hops, end: bool, o: Options): (r: seq<Act>)
    requires Sized(w) && m < |w.bodies|
    ensures Routing(r) && (o.ack ==> Promised(r))
    decreases hops, 1
  {
    var fx := FallbackExists(hops);
    var first := RunPass(sem, g, w, m, hops, false, false, end, fx, o);
    PassActs(sem, g, w, m, hops, false, false, end, fx, o) +
    if fx && !first.ok then PassActs(sem, g, first.world, m, hops, true, false, end, fx, o) else []
  }

  // ----- they do what routing does

  /** The state after a sequence of operations, if all of them are possible. */
  function DoAll(f: Flow, acts: seq<Act>): Option<Flow> {
    if acts == [] then Some(f)
    else
      var q := DoAll(f, acts[..|acts| - 1]);
      var a := acts[|acts| - 1];
      if q.Some? && CanAct(q.value, a) then Some(Acted(q.value, a)) else None
  }

  lemma DoOne(f: Flow, a: Act)
    requires CanAct(f, a)
    ensures DoAll(f, [a]) == Some(Acted(f, a))
  {
    hide Acted, CanAct;
    assert [a][..0] == [];
  }

  lemma {:induction false} Then(f: Flow, a: seq<Act>, q: Flow, b: seq<Act>, r: Flow)
    requires DoAll(f, a) == Some(q) && DoAll(q, b) == Some(r)
    ensures DoAll(f, a + b) == Some(r)
    decreases |b|
  {
    hide Acted, CanAct;
    if b == [] {
      assert a + b == a;
    } else {
      var front := b[..|b| - 1];
      Then(f, a, q, front, DoAll(q, front).value);
      assert (a + b)[..|a + b| - 1] == a + front;
    }
  }

  lemma SameBodies(w: World, m: nat, d: string, i: nat, o: Options)
    requires Sized(w) && m < |w.bodies|
    ensures |Lend(w, m, o).bodies| == |BreakAck(w, m, o).bodies| == |Enqueue(w, m, d, i, o).bodies| == |w.bodies|
  {
    hide Sized, Give, Take, View;
  }

  lemma LendStep(f: Flow, m: nat, o: Options)
    requires f.Holds(m, o)
    ensures var q := Flow(Lend(f.w, m, o), f.refs[m := f.refs[m] + 1], f.acks[m := f.acks[m] + Unit(o)]);
            q.Holds(m, o) && DoAll(f, [ALend(m, o)]) == Some(q)
  {
    hide DoAll, Sized, Lend, Drop, CloneOf, Enqueue, BreakAck, StoreAll, Consume;
    SameBodies(f.w, m, "", 0, o);
    DoOne(f, ALend(m, o));
  }

  lemma BreakStep(f: Flow, m: nat, o: Options)
    requires f.Holds(m, o)
    ensures var q := f.(w := BreakAck(f.w, m, o), acks := f.acks[m := f.acks[m] - Unit(o)]);
            q.Holds(m, o.(ack := false)) && DoAll(f, [ABreak(m, o)]) == Some(q)
  {
    hide DoAll, Sized, Lend, Drop, CloneOf, Enqueue, BreakAck, StoreAll, Consume;
    SameBodies(f.w, m, "", 0, o);
    DoOne(f, ABreak(m, o));
  }

  lemma QueueStep(f: Flow, m: nat, d: string, i: nat, o: Options)
    requires f.Holds(m, o)
    ensures var q := f.(w := Enqueue(f.w, m, d, i, o));
            q.Holds(m, o) && DoAll(f, [AQueue(m, d, i, o)]) == Some(q)
  {
    hide DoAll, Sized, Lend, Drop, CloneOf, Enqueue, BreakAck, StoreAll, Consume;
    SameBodies(f.w, m, d, i, o);
    DoOne(f, AQueue(m, d, i, o));
  }

  lemma DropStep(f: Flow, m: nat, o: Options)
    requires f.Holds(m, o)
    ensures DoAll(f, [ADrop(m, o)]) ==
            Some(Flow(Drop(f.w, m, o), f.refs[m := f.refs[m] - 1], f.acks[m := f.acks[m] - Unit(o)]))
  {
    hide DoAll, Sized, Lend, Drop, CloneOf, Enqueue, BreakAck, StoreAll, Consume;
    DoOne(f, ADrop(m, o));
  }

  /** The queue node, and then what came with the message is given back. */
  lemma QueueDrop(f: Flow, m: nat, d: string, i: nat, o: Options)
    requires f.Holds(m, o)
    ensures DoAll(f, [AQueue(m, d, i, o)] + [ADrop(m, o)]) ==
            Some(Flow(Drop(Enqueue(f.w, m, d, i, o), m, o), f.refs[m := f.refs[m] - 1],
                f.acks[m := f.acks[m] - Unit(o)]))
  {
    hide DoAll, Sized, Enqueue, Drop;
    QueueStep(f, m, d, i, o);
    var q := f.(w := Enqueue(f.w, m, d, i, o));
    DropStep(q, m, o);
    Then(f, [AQueue(m, d, i, o)], q, [ADrop(m, o)], DoAll(q, [ADrop(m, o)]).value);
  }

  lemma OneDriverDoes(f: Flow, m: nat, d: string, i: nat, o: Options)
    requires f.Holds(m, o)
    ensures var w := RunDriver(Lend(f.w, m, o), m, d, i, o);
            f.(w := w).Holds(m, o) && DoAll(f, OneDriver(m, d, i, o)) == Some(f.(w := w))
  {
    hide DoAll, Sized, Lend, Enqueue, Drop, BreakAck;
    LendStep(f, m, o);
    var lent := Flow(Lend(f.w, m, o), f.refs[m := f.refs[m] + 1], f.acks[m := f.acks[m] + Unit(o)]);
    if o.flow {
      QueueDrop(lent, m, d, i, o);
      assert lent.refs[m := lent.refs[m] - 1] == f.refs && lent.acks[m := lent.acks[m] - Unit(o)] == f.acks;
      assert [ALend(m, o)] + [] == [ALend(m, o)];
      Then(f, [ALend(m, o)], lent, [AQueue(m, d, i, o)] + [ADrop(m, o)], f.(w := RunDriver(lent.w, m, d, i, o)));
    } else {
      var o1 := o.(ack := false);
      BreakStep(lent, m, o);
      var broken := lent.(w := BreakAck(lent.w, m, o), acks := lent.acks[m := lent.acks[m] - Unit(o)]);
      QueueDrop(broken, m, d, i, o1);
      assert broken.refs[m := broken.refs[m] - 1] == f.refs && broken.acks[m := broken.acks[m] - 0] == f.acks;
      Then(f, [ALend(m, o)], lent, [ABreak(m, o)], broken);
      Then(f, [ALend(m, o)] + [ABreak(m, o)], broken, [AQueue(m, d, i, o1)] + [ADrop(m, o1)],
           f.(w := RunDriver(lent.w, m, d, i, o)));
    }
  }

  lemma {:induction false} DriversDo(f: Flow, m: nat, d: string, i: nat, n: nat, o: Options)
    requires f.Holds(m, o) && i <= n
    ensures DoAll(f, DriverActs(m, d, i, n, o)) == Some(f.(w := RunDrivers(f.w, m, d, i, n, o)))
    decreases n - i
  {
    hide OneDriver, RunDriver, Lend, Acted, CanAct, Sized;
    if i < n {
      OneDriverDoes(f, m, d, i, o);
      var q := f.(w := RunDriver(Lend(f.w, m, o), m, d, i, o));
      DriversDo(q, m, d, i + 1, n, o);
      Then(f, OneDriver(m, d, i, o), q, DriverActs(m, d, i + 1, n, o), q.(w := RunDrivers(q.w, m, d, i + 1, n, o)));
    }
  }

  /** The state with `w` in which this path has used up what it carried. */
  function Paid(f: Flow, w: World, m: nat, o: Options): Flow
    requires f.Holds(m, o)
  {
    Flow(w, Spent(f.refs, m, 1, |w.bodies|), Spent(f.acks, m, Unit(o), |w.bodies|))
  }

  /** The state with `w` in which the thread holds what it held; clones are not held. */
  function Held(f: Flow, w: World): Flow { Flow(w, Pad(f.refs, |w.bodies|), Pad(f.acks, |w.bodies|)) }

  lemma HeldHolds(f: Flow, w: World, m: nat, o: Options)
    requires f.Holds(m, o) && Sized(w) && |w.bodies| >= |f.w.bodies|
    ensures Held(f, w).Holds(m, o)
  {
    hide Sized;
  }

  lemma DropDoes(f: Flow, m: nat, o: Options)
    requires f.Holds(m, o)
    ensures DoAll(f, [ADrop(m, o)]) == Some(Paid(f, Drop(f.w, m, o), m, o))
  {
    hide DoAll, Sized;
    DropStep(f, m, o);
  }

  /** Routing a message is the effect of its operations, all of which are possible, and uses
      up what the path carried. */
  lemma {:induction false} PathDoes(sem: Meaning, g: Drivers, f: Flow, m: nat, p: Path, o: Options)
    requires f.Holds(m, o)
    ensures DoAll(f, PathActs(sem, g, f.w, m, p, o)) == Some(Paid(f, RunPath(sem, g, f.w, m, p, o).world, m, o))
    decreases p, 0
  {
    hide DoAll, Sized, Spent, Acted;
    match p
    case End => DropDoes(f, m, o);
    case Proc(e, rest) => ProcDoes(sem, g, f, m, p, o);
    case Group(d, rest) =>
      DriversDo(f, m, d, 0, g(d), o);
      var q := f.(w := RunDrivers(f.w, m, d, 0, g(d), o));
      PathDoes(sem, g, q, m, rest, o);
      Then(f, DriverActs(m, d, 0, g(d), o), q, PathActs(sem, g, q.w, m, rest, o),
           Paid(q, RunPath(sem, g, q.w, m, rest, o).world, m, o));
    case Mpx(hops, rest) =>
      HopsDo(sem, g, f, m, hops, rest.End?, o);
      var q := Held(f, RunHops(sem, g, f.w, m, hops, rest.End?, o));
      HeldHolds(f, q.w, m, o);
      PathDoes(sem, g, q, m, rest, o);
      var r := RunPath(sem, g, q.w, m, rest, o).world;
      Then(f, HopsActs(sem, g, f.w, m, hops, rest.End?, o), q, PathActs(sem, g, q.w, m, rest, o), Paid(q, r, m, o));
      PadSpent(f.refs, m, 1, |q.w.bodies|, |r.bodies|);
      PadSpent(f.acks, m, Unit(o), |q.w.bodies|, |r.bodies|);
  }

  lemma {:induction false} ProcDoes(sem: Meaning, g: Drivers, f: Flow, m: nat, p: Path, o: Options)
    requires f.Holds(m, o) && p.Proc?
    ensures DoAll(f, PathActs(sem, g, f.w, m, p, o)) == Some(Paid(f, RunPath(sem, g, f.w, m, p, o).world, m, o))
    decreases p.rest, 2
  {
    hide DoAll, Sized, Spent;
    var e := sem(p.elem, View(f.w, m));
    var q := f.(w := StoreAll(f.w, m, e.edits));
    DoOne(f, AStore(m, e.edits));
    if e.accept {
      PathDoes(sem, g, q, m, p.rest, o);
      Then(f, [AStore(m, e.edits)], q, PathActs(sem, g, q.w, m, p.rest, o),
           Paid(q, RunPath(sem, g, q.w, m, p.rest, o).world, m, o));
    } else {
      DropDoes(q, m, o);
      Then(f, [AStore(m, e.edits)], q, [ADrop(m, o)], Paid(q, Drop(q.w, m, o), m, o));
    }
  }

  lemma {:induction false} HopDoes(sem: Meaning, g: Drivers, f: Flow, m: nat, p: Path, mark: Mark, last: bool,
                                   o: Options)
    requires f.Holds(m, o)
    ensures DoAll(f, HopActs(sem, g, f.w, m, p, mark, last, o)) ==
            Some(Held(f, RunHop(sem, g, f.w, m, p, mark, last, o).world))
    decreases p, 1
  {
    hide DoAll, Sized, Spent, Pad, Lend, CloneOf, RunPath, PathActs;
    var o1 := o.(flow := o.flow || mark.hard);
    if mark.clone && (f.w.bodies[m].referenced || !last) {
      CloneDoes(f, m, o1);
      LendStep(f, m, o1);
      var q := Flow(CloneOf(Lend(f.w, m, o1), m, o1), f.refs + [1], f.acks + [Unit(o1)]);
      var x := |f.w.bodies|;
      PathDoes(sem, g, q, x, p, o1);
      var r := RunPath(sem, g, q.w, x, p, o1).world;
      PadClone(f.refs, 1, |r.bodies|);
      PadClone(f.acks, Unit(o1), |r.bodies|);
      Then(f, [ALend(m, o1)] + [AClone(m, o1)], q, PathActs(sem, g, q.w, x, p, o1), Paid(q, r, x, o1));
    } else {
      LendStep(f, m, o1);
      var lent := Flow(Lend(f.w, m, o1), f.refs[m := f.refs[m] + 1], f.acks[m := f.acks[m] + Unit(o1)]);
      PathDoes(sem, g, lent, m, p, o1);
      var r := RunPath(sem, g, lent.w, m, p, o1).world;
      PadBack(f.refs, m, 1, |r.bodies|);
      PadBack(f.acks, m, Unit(o1), |r.bodies|);
      Then(f, [ALend(m, o1)], lent, PathActs(sem, g, lent.w, m, p, o1), Paid(lent, r, m, o1));
    }
  }

  lemma CloneDoes(f: Flow, m: nat, o: Options)
    requires f.Holds(m, o)
    ensures var q := Flow(CloneOf(Lend(f.w, m, o), m, o), f.refs + [1], f.acks + [Unit(o)]);
            q.Holds(|f.w.bodies|, o) && DoAll(f, [ALend(m, o)] + [AClone(m, o)]) == Some(q)
  {
    hide DoAll, Sized, Lend, CloneOf;
    LendStep(f, m, o);
    var lent := Flow(Lend(f.w, m, o), f.refs[m := f.refs[m] + 1], f.acks[m := f.acks[m] + Unit(o)]);
    CloneStep(lent, m, o);
    assert lent.refs[m := lent.refs[m] - 1] == f.refs && lent.acks[m := lent.acks[m] - Unit(o)] == f.acks;
    Then(f, [ALend(m, o)], lent, [AClone(m, o)], DoAll(lent, [AClone(m, o)]).value);
  }

  lemma CloneStep(f: Flow, m: nat, o: Options)
    requires f.Holds(m, o)
    ensures var q := Flow(CloneOf(f.w, m, o), f.refs[m := f.refs[m] - 1] + [1],
                          f.acks[m := f.acks[m] - Unit(o)] + [Unit(o)]);
            q.Holds(|f.w.bodies|, o) && DoAll(f, [AClone(m, o)]) == Some(q)
  {
    hide DoAll, Sized, Lend, Drop, CloneOf, Enqueue, BreakAck, StoreAll, Consume;
    OneMoreBody(f.w, m, o);
    DoOne(f, AClone(m, o));
    assert (f.refs[m := f.refs[m] - 1] + [1])[|f.refs|] == 1;
    assert (f.acks[m := f.acks[m] - Unit(o)] + [Unit(o)])[|f.acks|] == Unit(o);
  }

  lemma OneMoreBody(w: World, m: nat, o: Options)
    requires Sized(w) && m < |w.bodies|
    ensures |CloneOf(w, m, o).bodies| == |w.bodies| + 1
  {
    hide Sized, Spawn;
  }

  lemma HeldTwice(f: Flow, w: World, v: World)
    requires f.Wide() && |f.w.bodies| <= |w.bodies| <= |v.bodies|
    ensures Held(Held(f, w), v) == Held(f, v)
  {
    hide Sized;
    PadTwice(f.refs, |w.bodies|, |v.bodies|);
    PadTwice(f.acks, |w.bodies|, |v.bodies|);
  }

  lemma {:induction false} PassDoes(sem: Meaning, g: Drivers, f: Flow, m: nat, hops: Hops, fallback: bool,
                                    delivered: bool, end: bool, fx: bool, o: Options)
    requires f.Holds(m, o)
    ensures DoAll(f, PassActs(sem, g, f.w, m, hops, fallback, delivered, end, fx, o)) ==
            Some(Held(f, RunPass(sem, g, f.w, m, hops, fallback, delivered, end, fx, o).world))
    decreases hops, 0
  {
    hide Sized, Pad, HopActs, RunHop, CanAct, Acted;
    match hops
    case NoHops => HeldStill(f);
    case Hop(path, mark, tail) =>
      if mark.fallback != fallback {
        PassDoes(sem, g, f, m, tail, fallback, delivered, end, fx, o);
      } else {
        var last := end && tail.NoHops? && (!fx || delivered || fallback);
        HopDoes(sem, g, f, m, path, mark, last, o);
        var r := RunHop(sem, g, f.w, m, path, mark, last, o);
        var acts := HopActs(sem, g, f.w, m, path, mark, last, o);
        if r.ok && mark.final {
          assert acts + [] == acts;
        } else {
          var q := Held(f, r.world);
          HeldHolds(f, r.world, m, o);
          PassDoes(sem, g, q, m, tail, fallback, delivered || r.ok, end, fx, o);
          var v := RunPass(sem, g, r.world, m, tail, fallback, delivered || r.ok, end, fx, o).world;
          HeldTwice(f, r.world, v);
          Then(f, acts, q, PassActs(sem, g, r.world, m, tail, fallback, delivered || r.ok, end, fx, o), Held(q, v));
        }
      }
  }

  lemma HeldStill(f: Flow)
    requires f.Wide()
    ensures Held(f, f.w) == f
  {
  }

  lemma {:induction false} HopsDo(sem: Meaning, g: Drivers, f: Flow, m: nat, hops: Hops, end: bool, o: Options)
    requires f.Holds(m, o)
    ensures DoAll(f, HopsActs(sem, g, f.w, m, hops, end, o)) == Some(Held(f, RunHops(sem, g, f.w, m, hops, end, o)))
    decreases hops, 1
  {
    hide Sized, Pad, DoAll, PassActs, RunPass;
    var fx := FallbackExists(hops);
    PassDoes(sem, g, f, m, hops, false, false, end, fx, o);
    var first := RunPass(sem, g, f.w, m, hops, false, false, end, fx, o);
    var acts := PassActs(sem, g, f.w, m, hops, false, false, end, fx, o);
    if fx && !first.ok {
      var q := Held(f, first.world);
      HeldHolds(f, first.world, m, o);
      PassDoes(sem, g, q, m, hops, true, false, end, fx, o);
      var v := RunPass(sem, g, first.world, m, hops, true, false, end, fx, o).world;
      HeldTwice(f, first.world, v);
      Then(f, acts, q, PassActs(sem, g, first.world, m, hops, true, false, end, fx, o), Held(q, v));
    } else {
      assert acts + [] == acts;
    }
  }

  // ----- consumers in between

  /** The operations of the routing thread. */
  function Routed(acts: seq<Act>): seq<Act> {
    if acts == [] then []
    else Routed(acts[..|acts| - 1]) + if acts[|acts| - 1].AConsume? then [] else [acts[|acts| - 1]]
  }

  /** Consumers have touched counters and queues only. */
  predicate SameCore(f: Flow, q: Flow) {
    f.refs == q.refs && f.acks == q.acks && f.w.bodies == q.w.bodies && f.w.heap == q.w.heap
  }

  lemma {:induction false} SameStores(w: World, v: World, m: nat, edits: seq<Edit>)
    requires Sized(w) && Sized(v) && m < |w.bodies| && w.bodies == v.bodies && w.heap == v.heap
    ensures var r, q := StoreAll(w, m, edits), StoreAll(v, m, edits);
            r.bodies == q.bodies && r.heap == q.heap
    decreases |edits|
  {
    hide Sized;
    if edits != [] {
      SameStores(w, v, m, edits[..|edits| - 1]);
    }
  }

  /** The thread does the same whatever the consumers have done. */
  lemma SameStep(f: Flow, q: Flow, a: Act)
    requires SameCore(f, q) && f.Wide() && CanAct(q, a) && !a.AConsume?
    ensures CanAct(f, a) && SameCore(Acted(f, a), Acted(q, a))
  {
    hide Sized;
    if a.AStore? {
      SameStores(f.w, q.w, a.m, a.edits);
    }
  }

  lemma {:induction false} RoutedPrefix(acts: seq<Act>, j: nat)
    requires j <= |acts|
    ensures Routed(acts[..j]) <= Routed(acts)
  {
    if j < |acts| {
      RoutedPrefix(acts[..|acts| - 1], j);
      assert acts[..|acts| - 1][..j] == acts[..j];
    } else {
      assert acts[..j] == acts;
    }
  }

  lemma {:induction false} DoPrefix(f: Flow, acts: seq<Act>, k: nat)
    requires DoAll(f, acts).Some? && k <= |acts|
    ensures DoAll(f, acts[..k]).Some?
    ensures k < |acts| ==> CanAct(DoAll(f, acts[..k]).value, acts[k])
  {
    hide CanAct, Acted;
    if k == |acts| {
      assert acts[..k] == acts;
    } else if k < |acts| - 1 {
      DoPrefix(f, acts[..|acts| - 1], k);
      assert acts[..|acts| - 1][..k] == acts[..k];
    }
  }

  /** In step with the thread alone. */
  lemma {:induction false} InStep(fs: seq<Flow>, acts: seq<Act>, c: Content, all: seq<Act>, j: nat)
    requires Flows(fs, acts, c) && j <= |acts| && DoAll(fs[0], all).Some? && Routed(acts) <= all
    ensures Routed(acts[..j]) <= all && DoAll(fs[0], Routed(acts[..j])).Some?
    ensures SameCore(fs[j], DoAll(fs[0], Routed(acts[..j])).value)
  {
    hide CanAct, Acted;
    RoutedPrefix(acts, j);
    var now := Routed(acts[..j]);
    assert all[..|now|] == now;
    DoPrefix(fs[0], all, |now|);
    if j > 0 {
      InStep(fs, acts, c, all, j - 1);
      FlowsFair(fs, acts, c, j - 1);
      var before := Routed(acts[..j - 1]);
      assert acts[..j][..j - 1] == acts[..j - 1];
      var a := acts[j - 1];
      if a.AConsume? {
        assert now == before;
        ConsumeSame(fs[j - 1], a);
      } else {
        assert now[..|now| - 1] == before && now[|now| - 1] == a;
        SameStep(fs[j - 1], DoAll(fs[0], before).value, a);
      }
    }
  }

  lemma ConsumeSame(f: Flow, a: Act)
    requires a.AConsume? && CanAct(f, a)
    ensures SameCore(Acted(f, a), f)
  {
    hide Sized;
  }

  lemma {:induction false} InRouted(acts: seq<Act>, j: nat)
    requires j < |acts| && !acts[j].AConsume?
    ensures acts[j] in Routed(acts)
  {
    if j < |acts| - 1 {
      InRouted(acts[..|acts| - 1], j);
    }
  }

  /** At any time the nodes that owe an ack are those queued with flow control. */
  lemma {:induction false} FlowsOwe(fs: seq<Flow>, acts: seq<Act>, c: Content, j: nat)
    requires Flows(fs, acts, c) && j < |fs| && Promised(Routed(acts))
    ensures Owing(fs[j].w.nodes)
  {
    hide Acted, CanAct, Routed;
    if j > 0 {
      FlowsOwe(fs, acts, c, j - 1);
      if !acts[j - 1].AConsume? {
        InRouted(acts, j - 1);
      }
      ActOwes(fs[j - 1], acts[j - 1]);
    }
  }

  lemma ActOwes(f: Flow, a: Act)
    requires CanAct(f, a) && Owing(f.w.nodes) && (a.AQueue? ==> a.o.ack == a.o.flow)
    ensures Owing(Acted(f, a).w.nodes)
  {
    hide Sized;
    if a.AStore? {
      StoredNodes(f.w, a.m, a.edits);
    }
  }

  lemma FirstHolds(c: Content, o: Options)
    requires |c| == PARTS
    ensures Flow(Start(c), [1], [1]).Holds(0, o)
  {
  }

  lemma NothingHeld(c: Content, r: World, o: Options)
    requires |c| == PARTS && o.ack && |r.bodies| >= 1 && Flow(Start(c), [1], [1]).Holds(0, o)
    ensures var q := Paid(Flow(Start(c), [1], [1]), r, 0, o);
            && (forall x :: 0 <= x < |q.refs| ==> q.refs[x] == 0)
            && (forall x :: 0 <= x < |q.acks| ==> q.acks[x] == 0)
  {
  }

  /** Routing a message from a source through any tree of pipes, with consumers finishing queue
      nodes at any time: the thread is never stopped by them and decides as if it were alone;
      when it is through it holds nothing, so from then on the message is acked exactly when
      no node queued with flow control is left, and freed exactly when no node is left. */
  lemma RoutedInEveryInterleaving(sem: Meaning, g: Drivers, c: Content, p: Path, flow: bool, fs: seq<Flow>,
                                  acts: seq<Act>)
    requires Flows(fs, acts, c)
    requires Routed(acts) <= PathActs(sem, g, Start(c), 0, p, Options(true, flow))
    ensures var all := PathActs(sem, g, Start(c), 0, p, Options(true, flow));
            var f := fs[|acts|];
            var r := RunPath(sem, g, Start(c), 0, p, Options(true, flow)).world;
            && (|Routed(acts)| < |all| ==> CanAct(f, all[|Routed(acts)|]))
            && (Routed(acts) == all ==>
                  && f.Wide() && f.w.bodies == r.bodies && f.w.heap == r.heap
                  && f.w.acks.ended[0] == (if exists i :: 0 <= i < |f.w.nodes| && f.w.nodes[i].flow then 0 else 1)
                  && f.w.refs.ended[0] == (if f.w.nodes == [] then 1 else 0))
  {
    hide CanAct, Acted, PathActs, RunPath, Sized, DoAll, Routed;
    var o := Options(true, flow);
    var all := PathActs(sem, g, Start(c), 0, p, o);
    FirstHolds(c, o);
    PathDoes(sem, g, fs[0], 0, p, o);
    assert acts[..|acts|] == acts;
    InStep(fs, acts, c, all, |acts|);
    FlowsFair(fs, acts, c, |acts|);
    var done := Routed(acts);
    var f := fs[|acts|];
    if |done| < |all| {
      DoPrefix(fs[0], all, |done|);
      assert all[..|done|] == done;
      assert all[|done|] in all;
      SameStep(f, DoAll(fs[0], done).value, all[|done|]);
    } else {
      assert done == all;
      AckedInEveryInterleaving(fs, acts, c, |acts|);
      FlowsOwe(fs, acts, c, |acts|);
      NothingHeld(c, RunPath(sem, g, Start(c), 0, p, o).world, o);
    }
  }
}
