/** The other direction of isolation: a tree of pipes that is not fine goes wrong.

    Every pipe that can store makes the name-value table one entry longer.  The weight of
    a world is the length of the tables of all queued messages; pipes that share a message
    they should not share make it too heavy. */
module PathWeight {
  import opened Wrappers
  import opened Ledger
  import opened LogTree
  import opened LogPath
  import opened Sharing
  import opened PathChoice
  import opened PathIsolation

  // ----- what is assumed of the pipes

  /** Some pipe of the chain itself can store into the message. */
  predicate OwnWrites(p: Path) {
    match p
    case End => false
    case Proc(e, rest) => e.writes || OwnWrites(rest)
    case Group(_, rest) => OwnWrites(rest)
    case Mpx(_, rest) => OwnWrites(rest)
  }

  /** A multiplexer with one destination group. */
  predicate ToGroup(hops: Hops) {
    hops.Hop? && hops.tail.NoHops? && hops.path.Group? && hops.path.rest.End? && hops.mark == PLAIN
  }

  /** A hop whose own pipes store is marked for cloning, and only destinations are followed
      by other pipes. */
  predicate Plain(p: Path) {
    match p
    case End => true
    case Proc(_, rest) => Plain(rest)
    case Group(_, rest) => Plain(rest)
    case Mpx(hops, rest) => PlainHops(hops) && Plain(rest) && (rest.End? || ToGroup(hops))
  }

  predicate PlainHops(hops: Hops) {
    hops.Hop? ==> Plain(hops.path) && PlainHops(hops.tail) && (OwnWrites(hops.path) ==> hops.mark.clone)
  }

  // ----- a meaning that leaves traces

  function Longer(can: Answers, e: Elem, c: Content): Effect {
    Effect(if e.writes && |c| > 0 then [Edit(0, c[0] + [0])] else [], can(e, true))
  }

  function Tracing(can: Answers): Meaning { (e: Elem, c: Content) => Longer(can, e, c) }

  lemma TracingObeys(can: Answers)
    requires Decided(can)
    ensures Obeys(Tracing(can), can)
  {
  }

  function Bump(e: Elem): nat { if e.writes then 1 else 0 }

  /** The length of the name-value table of message `x`. */
  function Len(w: World, x: nat): nat
    requires Sized(w) && x < |w.bodies|
  {
    |w.heap[w.bodies[x].blocks[0]]|
  }

  function Weight(w: World, n: nat): nat
    requires Sized(w) && n <= |w.nodes|
  {
    if n == 0 then 0 else Weight(w, n - 1) + Len(w, w.nodes[n - 1].msg)
  }

  function Total(w: World): nat
    requires Sized(w)
  {
    Weight(w, |w.nodes|)
  }

  predicate Queued(w: World, m: nat) { exists i :: 0 <= i < |w.nodes| && w.nodes[i].msg == m }

  /** Tables only become longer, and nodes and references stay. */
  predicate Grows(w: World, r: World) {
    && Sized(w) && Sized(r) && |w.bodies| <= |r.bodies| && w.nodes <= r.nodes
    && forall y :: 0 <= y < |w.bodies| ==> Len(w, y) <= Len(r, y) && (w.bodies[y].referenced ==> r.bodies[y].referenced)
  }

  lemma GrowsTrans(a: World, b: World, c: World)
    requires Grows(a, b) && Grows(b, c)
    ensures Grows(a, c)
  {
  }

  lemma {:induction false} WeightGrows(w: World, r: World, n: nat)
    requires Grows(w, r) && n <= |w.nodes|
    ensures Weight(w, n) <= Weight(r, n)
  {
    if n > 0 {
      WeightGrows(w, r, n - 1);
      assert w.nodes[n - 1] == r.nodes[n - 1];
    }
  }

  lemma {:induction false} WeightMore(w: World, r: World, m: nat, n: nat, i: nat)
    requires Grows(w, r) && i < n <= |w.nodes| && w.nodes[i].msg == m && m < |w.bodies| && Len(w, m) < Len(r, m)
    ensures Weight(w, n) < Weight(r, n)
  {
    assert w.nodes[n - 1] == r.nodes[n - 1];
    if i < n - 1 {
      WeightMore(w, r, m, n - 1, i);
    } else {
      WeightGrows(w, r, n - 1);
    }
  }

  lemma {:induction false} WeightSame(w: World, r: World, n: nat)
    requires Sized(w) && Sized(r) && |w.bodies| <= |r.bodies| && w.nodes <= r.nodes && n <= |w.nodes|
    requires forall y :: 0 <= y < |w.bodies| ==> Len(w, y) == Len(r, y)
    ensures Weight(w, n) == Weight(r, n)
  {
    if n > 0 {
      WeightSame(w, r, n - 1);
      assert w.nodes[n - 1] == r.nodes[n - 1];
    }
  }

  // ----- operations on messages

  /** Nothing but counters, references and new messages. */
  lemma Light(w: World, r: World)
    requires Sized(w) && Sized(r) && r.heap == w.heap && r.nodes == w.nodes && |w.bodies| <= |r.bodies|
    requires forall y :: 0 <= y < |w.bodies| ==> r.bodies[y].blocks == w.bodies[y].blocks
    requires forall y :: 0 <= y < |w.bodies| && w.bodies[y].referenced ==> r.bodies[y].referenced
    ensures Grows(w, r) && Total(r) == Total(w)
    ensures forall y :: 0 <= y < |w.bodies| ==> Len(r, y) == Len(w, y)
  {
    WeightSame(w, r, |w.nodes|);
  }

  lemma OneMore(w: World, m: nat, d: string, i: nat, o: Options)
    requires Sized(w) && m < |w.bodies|
    ensures var r := RunDriver(w, m, d, i, o);
            && Grows(w, r) && Total(r) == Total(w) + Len(w, m) && Len(r, m) == Len(w, m)
            && r.bodies[m].referenced && Queued(r, m)
  {
    var r := RunDriver(w, m, d, i, o);
    assert r.nodes[|w.nodes|].msg == m;
    assert forall y :: 0 <= y < |w.bodies| ==> r.bodies[y].blocks == w.bodies[y].blocks;
    WeightSame(w, r, |w.nodes|);
  }

  function Times(n: nat, k: nat): nat { if k == 0 then 0 else n + Times(n, k - 1) }

  lemma {:induction false} TimesMore(a: nat, b: nat, k: nat)
    requires a <= b
    ensures Times(a, k) <= Times(b, k) && (a < b && k > 0 ==> Times(a, k) < Times(b, k))
  {
    if k > 0 {
      TimesMore(a, b, k - 1);
    }
  }

  lemma {:induction false} DriversWeigh(w: World, m: nat, d: string, i: nat, n: nat, o: Options)
    requires Sized(w) && m < |w.bodies| && i <= n
    ensures var r := RunDrivers(w, m, d, i, n, o);
            && Grows(w, r) && Total(r) == Total(w) + Times(Len(w, m), n - i) && Len(r, m) == Len(w, m)
            && (r.bodies[m].referenced <==> w.bodies[m].referenced || i < n)
            && (Queued(w, m) || i < n ==> Queued(r, m))
    decreases n - i
  {
    hide Sized;
    Light(w, w);
    if i < n {
      var w0 := Lend(w, m, o);
      Light(w, w0);
      OneMore(w0, m, d, i, o);
      var w1 := RunDriver(w0, m, d, i, o);
      GrowsTrans(w, w0, w1);
      DriversWeigh(w1, m, d, i + 1, n, o);
      GrowsTrans(w, w1, RunDrivers(w, m, d, i, n, o));
    }
  }

  /** What a pipe does to the message. */
  lemma StoreWeighs(can: Answers, w: World, m: nat, e: Elem)
    requires Sized(w) && m < |w.bodies|
    ensures var r := StoreAll(w, m, Longer(can, e, View(w, m)).edits);
            && Grows(w, r) && Len(r, m) == Len(w, m) + Bump(e) && r.bodies[m].referenced == w.bodies[m].referenced
            && Total(r) >= Total(w) && (e.writes && Queued(w, m) ==> Total(r) > Total(w)) && r.nodes == w.nodes
  {
    var edits := Longer(can, e, View(w, m)).edits;
    var r := StoreAll(w, m, edits);
    if e.writes {
      assert edits[..0] == [];
      assert StoreAll(w, m, []) == w;
      assert r == Store(w, m, edits[0]);
      assert Grows(w, r);
      WeightGrows(w, r, |w.nodes|);
      if Queued(w, m) {
        var i :| 0 <= i < |w.nodes| && w.nodes[i].msg == m;
        WeightMore(w, r, m, |w.nodes|, i);
      }
    }
  }

  // ----- the weight a reader of the pipes expects

  function Load(can: Answers, g: Drivers, p: Path, n: nat): nat
    decreases p, 0
  {
    match p
    case End => 0
    case Proc(e, rest) => if can(e, true) then Load(can, g, rest, n + Bump(e)) else 0
    case Group(d, rest) => Times(n, g(d)) + Load(can, g, rest, n)
    case Mpx(hops, rest) => LoadHops(can, g, hops, n) + Load(can, g, rest, n)
  }

  function LoadPass(can: Answers, g: Drivers, hops: Hops, fallback: bool, n: nat): nat
    decreases hops, 0
  {
    if hops.NoHops? then 0
    else if hops.mark.fallback != fallback then LoadPass(can, g, hops.tail, fallback, n)
    else Load(can, g, hops.path, n) + if Stops(can, hops.path, hops.mark) then 0
        else LoadPass(can, g, hops.tail, fallback, n)
  }

  function LoadHops(can: Answers, g: Drivers, hops: Hops, n: nat): nat
    decreases hops, 1
  {
    LoadPass(can, g, hops, false, n) + if MayFall(can, hops) then LoadPass(can, g, hops, true, n) else 0
  }

  // ----- what a run tells

  /** The only way out of `p` is `x`, and a run from `w` to `r` leaves `m` that way.  The run
      weighs what a reader expects who takes `m` to have length `n`, or more; and more, if the
      pipes are not fine or `m` is longer and shown to somebody. */
  ghost predicate Heavier(can: Answers, g: Drivers, w: World, r: World, m: nat, p: Path, n: nat, x: Exit)
    requires Sized(w) && m < |w.bodies| && Sized(r)
  {
    var ref := w.bodies[m].referenced;
    && Grows(w, r) && Exits(can, g, p, ref) == {x} && x.ok == Sure(can, p)
    && r.bodies[m].referenced == x.ref && (x.dirty ==> Len(r, m) > Len(w, m))
    && Total(r) >= Total(w) + Load(can, g, p, n)
    && (!Fine(can, g, p, ref) || (n < Len(w, m) && !Idle(can, g, p)) ==> Total(r) > Total(w) + Load(can, g, p, n))
  }

  lemma {:induction false} PathWeighs(can: Answers, g: Drivers, w: World, m: nat, p: Path, o: Options, n: nat)
      returns (x: Exit)
    requires Decided(can) && Sized(w) && m < |w.bodies| && Plain(p) && n <= Len(w, m)
    requires OwnWrites(p) && w.bodies[m].referenced ==> Queued(w, m)
    ensures var r := RunPath(Tracing(can), g, w, m, p, o);
            r.ok == x.ok && Heavier(can, g, w, r.world, m, p, n, x)
    decreases p, 1
  {
    match p
    case End =>
      Light(w, Drop(w, m, o));
      x := Exit(true, w.bodies[m].referenced, false);
    case Proc(_, _) => x := ProcWeighs(can, g, w, m, p, o, n);
    case Group(_, _) => x := GroupWeighs(can, g, w, m, p, o, n);
    case Mpx(_, _) => x := MpxWeighs(can, g, w, m, p, o, n);
  }

  lemma ProcExit(can: Answers, g: Drivers, p: Path, ref: bool)
    requires p.Proc? && can(p.elem, true) != can(p.elem, false)
    ensures !can(p.elem, true) ==> Exits(can, g, p, ref) == {Exit(false, ref, p.elem.writes)}
    ensures forall y :: can(p.elem, true) && Exits(can, g, p.rest, ref) == {y} ==>
              Exits(can, g, p, ref) == {y.After(p.elem.writes)}
  {
    forall y | can(p.elem, true) && Exits(can, g, p.rest, ref) == {y}
      ensures Exits(can, g, p, ref) == {y.After(p.elem.writes)}
    {
      assert Exits(can, g, p, ref) == (set z | z in {y} :: z.After(p.elem.writes)) + {};
    }
  }

  lemma {:induction false} ProcWeighs(can: Answers, g: Drivers, w: World, m: nat, p: Path, o: Options, n: nat)
      returns (x: Exit)
    requires Decided(can) && Sized(w) && m < |w.bodies| && Plain(p) && n <= Len(w, m) && p.Proc?
    requires OwnWrites(p) && w.bodies[m].referenced ==> Queued(w, m)
    ensures var r := RunPath(Tracing(can), g, w, m, p, o);
            r.ok == x.ok && Heavier(can, g, w, r.world, m, p, n, x)
    decreases p, 0
  {
    hide Sized, Grows, Queued, Total, Exits;
    var e, rest, ref := p.elem, p.rest, w.bodies[m].referenced;
    StoreWeighs(can, w, m, e);
    var w1 := StoreAll(w, m, Longer(can, e, View(w, m)).edits);
    assert Tracing(can)(e, View(w, m)) == Longer(can, e, View(w, m));
    GrowsAt(w, w1, m);
    assert can(e, true) != can(e, false);
    ProcExit(can, g, p, ref);
    if can(e, true) {
      var y := PathWeighs(can, g, w1, m, rest, o, n + Bump(e));
      x := y.After(e.writes);
      var r := RunPath(Tracing(can), g, w1, m, rest, o).world;
      GrowsTrans(w, w1, r);
      GrowsAt(w1, r, m);
    } else {
      x := Exit(false, ref, e.writes);
      Light(w1, Drop(w1, m, o));
      GrowsTrans(w, w1, Drop(w1, m, o));
    }
  }

  lemma {:induction false} GroupWeighs(can: Answers, g: Drivers, w: World, m: nat, p: Path, o: Options, n: nat)
      returns (x: Exit)
    requires Decided(can) && Sized(w) && m < |w.bodies| && Plain(p) && n <= Len(w, m) && p.Group?
    requires OwnWrites(p) && w.bodies[m].referenced ==> Queued(w, m)
    ensures var r := RunPath(Tracing(can), g, w, m, p, o);
            r.ok == x.ok && Heavier(can, g, w, r.world, m, p, n, x)
    decreases p, 0
  {
    hide Sized, Grows, Queued, Total, Times;
    var d := p.dest;
    DriversWeigh(w, m, d, 0, g(d), o);
    TimesMore(n, Len(w, m), g(d));
    var w1 := RunDrivers(w, m, d, 0, g(d), o);
    x := PathWeighs(can, g, w1, m, p.rest, o, n);
    var r := RunPath(Tracing(can), g, w1, m, p.rest, o).world;
    GrowsTrans(w, w1, r);
    GrowsAt(w1, r, m);
  }

  lemma GrowsAt(w: World, r: World, m: nat)
    requires Grows(w, r) && m < |w.bodies|
    ensures m < |r.bodies| && Len(w, m) <= Len(r, m) && (w.bodies[m].referenced ==> r.bodies[m].referenced)
    ensures Queued(w, m) ==> Queued(r, m)
  {
    if Queued(w, m) {
      var i :| 0 <= i < |w.nodes| && w.nodes[i].msg == m;
      assert r.nodes[i] == w.nodes[i];
    }
  }

  ghost predicate HeavierHop(can: Answers, g: Drivers, w: World, r: World, m: nat, p: Path, mark: Mark, last: bool,
                             n: nat, x: Exit)
    requires Sized(w) && m < |w.bodies| && Sized(r)
  {
    var ref := w.bodies[m].referenced;
    && Grows(w, r) && HopExits(can, g, p, mark, last, ref) == {x} && x.ok == Sure(can, p)
    && r.bodies[m].referenced == x.ref && (x.dirty ==> Len(r, m) > Len(w, m))
    && Total(r) >= Total(w) + Load(can, g, p, n)
    && (!Fine(can, g, p, !Clones(mark, last, ref) && ref) || (n < Len(w, m) && !Idle(can, g, p)) ==>
          Total(r) > Total(w) + Load(can, g, p, n))
  }

  lemma {:induction false} HopWeighs(can: Answers, g: Drivers, w: World, m: nat, p: Path, mark: Mark, last: bool,
                                     o: Options, n: nat)
      returns (x: Exit)
    requires Decided(can) && Sized(w) && m < |w.bodies| && Plain(p) && n <= Len(w, m) && (OwnWrites(p) ==> mark.clone)
    ensures var r := RunHop(Tracing(can), g, w, m, p, mark, last, o);
            r.ok == x.ok && HeavierHop(can, g, w, r.world, m, p, mark, last, n, x)
    decreases p, 3
  {
    hide Sized, Grows, RunPath, Fine, Exits, Idle, Sure, OwnWrites, Load, Queued, Total, Plain, Decided, Len;
    var o1 := o.(flow := o.flow || mark.hard);
    if Clones(mark, last, w.bodies[m].referenced) {
      x := CloneWeighs(can, g, w, m, p, mark, last, o1, n);
    } else {
      var w1 := Lend(w, m, o1);
      Light(w, w1);
      GrowsAt(w, w1, m);
      x := PathWeighs(can, g, w1, m, p, o1, n);
      GrowsTrans(w, w1, RunPath(Tracing(can), g, w1, m, p, o1).world);
    }
  }

  lemma {:induction false} CloneWeighs(can: Answers, g: Drivers, w: World, m: nat, p: Path, mark: Mark, last: bool,
                                       o: Options, n: nat)
      returns (x: Exit)
    requires Decided(can) && Sized(w) && m < |w.bodies| && Plain(p) && n <= Len(w, m)
             && Clones(mark, last, w.bodies[m].referenced)
    ensures var r := RunPath(Tracing(can), g, CloneOf(Lend(w, m, o), m, o), |w.bodies|, p, o);
            r.ok == x.ok && HeavierHop(can, g, w, r.world, m, p, mark, last, n, x)
    decreases p, 2
  {
    hide Sized, Grows, RunPath, Fine, Exits, HopExits, Idle, Sure, OwnWrites, Load, Queued, Total, Plain, Decided, Len;
    var k, w1 := |w.bodies|, Lend(w, m, o);
    Light(w, w1);
    GrowsAt(w, w1, m);
    var w2 := CloneOf(w1, m, o);
    Cloned(w1, m, o);
    GrowsTrans(w, w1, w2);
    GrowsAt(w1, w2, m);
    var y := PathWeighs(can, g, w2, k, p, o, n);
    var r := RunPath(Tracing(can), g, w2, k, p, o).world;
    x := Exit(y.ok, true, false);
    GrowsTrans(w, w2, r);
    GrowsAt(w2, r, m);
    CloneExit(can, g, p, mark, last, w.bodies[m].referenced, y);
  }

  lemma CloneExit(can: Answers, g: Drivers, p: Path, mark: Mark, last: bool, ref: bool, y: Exit)
    requires Clones(mark, last, ref) && Exits(can, g, p, false) == {y}
    ensures HopExits(can, g, p, mark, last, ref) == {Exit(y.ok, true, false)}
  {
    assert y in Exits(can, g, p, false);
  }

  lemma Cloned(w: World, m: nat, o: Options)
    requires Sized(w) && m < |w.bodies|
    ensures var r := CloneOf(w, m, o);
            && Grows(w, r) && Total(r) == Total(w) && |r.bodies| == |w.bodies| + 1 && r.bodies[m].referenced
            && Len(r, |w.bodies|) == Len(w, m) && !r.bodies[|w.bodies|].referenced && Len(r, m) == Len(w, m)
  {
    Light(w, CloneOf(w, m, o));
  }

  /** A pass that is not fine is heavier, or leaves the damage to the second pass. */
  ghost predicate HeavierPass(can: Answers, g: Drivers, w: World, r: World, m: nat, hops: Hops, a: Round,
                              delivered: bool, n: nat, x: Exit)
    requires Sized(w) && m < |w.bodies| && Sized(r)
  {
    var ref := w.bodies[m].referenced;
    && Grows(w, r) && PassExits(can, g, hops, a, delivered, ref) == {x}
    && (delivered ==> x.ok) && (!a.fallback ==> x.ok == (delivered || SureTaken(can, hops)))
    && r.bodies[m].referenced == x.ref && (x.dirty ==> Len(r, m) > Len(w, m))
    && Total(r) >= Total(w) + LoadPass(can, g, hops, a.fallback, n)
    && ((!PassFine(can, g, hops, a, delivered, ref) && !(x.dirty && !Settled(a, x.ok)))
        || (n < Len(w, m) && !SortIdle(can, g, hops, a.fallback)) ==>
          Total(r) > Total(w) + LoadPass(can, g, hops, a.fallback, n))
  }

  lemma {:induction false} PassWeighs(can: Answers, g: Drivers, w: World, m: nat, hops: Hops, a: Round, delivered: bool,
                                      o: Options, n: nat) returns (x: Exit)
    requires Decided(can) && Sized(w) && m < |w.bodies| && PlainHops(hops) && n <= Len(w, m)
    ensures var r := RunPass(Tracing(can), g, w, m, hops, a.fallback, delivered, a.end, a.fx, o);
            r.ok == x.ok && HeavierPass(can, g, w, r.world, m, hops, a, delivered, n, x)
    decreases hops, 1
  {
    hide Sized, Grows, RunHop, Fine, Idle, OwnWrites, Load, Total, Plain, Sure, HopExits;
    match hops
    case NoHops =>
      Light(w, w);
      x := Exit(delivered, w.bodies[m].referenced, false);
    case Hop(path, mark, tail) =>
      if mark.fallback != a.fallback {
        x := PassWeighs(can, g, w, m, tail, a, delivered, o, n);
      } else {
        x := FirstWeighs(can, g, w, m, hops, a, delivered, o, n);
      }
  }

  lemma {:induction false} FirstWeighs(can: Answers, g: Drivers, w: World, m: nat, hops: Hops, a: Round,
                                       delivered: bool, o: Options, n: nat) returns (x: Exit)
    requires Decided(can) && Sized(w) && m < |w.bodies| && PlainHops(hops) && n <= Len(w, m)
    requires hops.Hop? && hops.mark.fallback == a.fallback
    ensures var r := RunPass(Tracing(can), g, w, m, hops, a.fallback, delivered, a.end, a.fx, o);
            r.ok == x.ok && HeavierPass(can, g, w, r.world, m, hops, a, delivered, n, x)
    decreases hops, 0
  {
    hide Sized, Grows, RunHop, RunPass, Fine, Idle, OwnWrites, Load, Total, Plain, Sure, HopExits;
    hide PassFine, PassExits, SortIdle, LoadPass, SureTaken;
    var path, mark, tail := hops.path, hops.mark, hops.tail;
    var last := Last(a, tail, delivered);
    var ref := w.bodies[m].referenced;
    var x1 := HopWeighs(can, g, w, m, path, mark, last, o, n);
    var r1 := RunHop(Tracing(can), g, w, m, path, mark, last, o);
    GrowsAt(w, r1.world, m);
    PassSteps(Tracing(can), g, w, m, hops, a, delivered, o);
    Unfolded(can, g, hops, a, delivered, ref, n, x1);
    if x1.ok && mark.final {
      x := x1;
      StopExit(can, g, hops, a, delivered, ref, x1);
    } else {
      var y := PassWeighs(can, g, r1.world, m, tail, a, delivered || r1.ok, o, n);
      x := y.After(x1.dirty);
      NextExit(can, g, hops, a, delivered, ref, x1, y);
      var r := RunPass(Tracing(can), g, r1.world, m, tail, a.fallback, delivered || r1.ok, a.end, a.fx, o).world;
      GrowsTrans(w, r1.world, r);
      GrowsAt(r1.world, r, m);
    }
  }

  /** A pass that visits its first hop, which can only end as `x`. */
  lemma Unfolded(can: Answers, g: Drivers, hops: Hops, a: Round, delivered: bool, ref: bool, n: nat, x: Exit)
    requires hops.Hop? && hops.mark.fallback == a.fallback && x.ok == Sure(can, hops.path)
    requires HopExits(can, g, hops.path, hops.mark, Last(a, hops.tail, delivered), ref) == {x}
    ensures var stop := x.ok && hops.mark.final;
            && (SortIdle(can, g, hops, a.fallback) <==>
                Idle(can, g, hops.path) && (stop || SortIdle(can, g, hops.tail, a.fallback)))
            && LoadPass(can, g, hops, a.fallback, n) ==
               Load(can, g, hops.path, n) + (if stop then 0 else LoadPass(can, g, hops.tail, a.fallback, n))
            && (!a.fallback ==> SureTaken(can, hops) == (x.ok || SureTaken(can, hops.tail)))
    ensures var last := Last(a, hops.tail, delivered);
            && Fine(can, g, hops.path, !Clones(hops.mark, last, ref) && ref)
            && (|| (x.ok && hops.mark.final)
                || (&& PassFine(can, g, hops.tail, a, delivered || x.ok, x.ref)
                    && (x.dirty ==> && SortIdle(can, g, hops.tail, a.fallback)
                                    && (Settled(a, delivered || x.ok) || SureTaken(can, hops.tail)))))
            ==> PassFine(can, g, hops, a, delivered, ref)
  {
    hide Fine, Idle, Load, Sure, HopExits;
  }

  lemma StopExit(can: Answers, g: Drivers, hops: Hops, a: Round, delivered: bool, ref: bool, x: Exit)
    requires hops.Hop? && hops.mark.fallback == a.fallback && x.ok && hops.mark.final
    requires HopExits(can, g, hops.path, hops.mark, Last(a, hops.tail, delivered), ref) == {x}
    ensures PassExits(can, g, hops, a, delivered, ref) == {x}
  {
    hide HopExits;
  }

  lemma NextExit(can: Answers, g: Drivers, hops: Hops, a: Round, delivered: bool, ref: bool, x: Exit, y: Exit)
    requires hops.Hop? && hops.mark.fallback == a.fallback && !(x.ok && hops.mark.final)
    requires HopExits(can, g, hops.path, hops.mark, Last(a, hops.tail, delivered), ref) == {x}
    requires PassExits(can, g, hops.tail, a, delivered || x.ok, x.ref) == {y}
    ensures PassExits(can, g, hops, a, delivered, ref) == {y.After(x.dirty)}
  {
    hide HopExits;
    assert x in HopExits(can, g, hops.path, hops.mark, Last(a, hops.tail, delivered), ref);
    assert y in PassExits(can, g, hops.tail, a, delivered || x.ok, x.ref);
  }

  ghost predicate HeavierHops(can: Answers, g: Drivers, w: World, r: World, m: nat, hops: Hops, end: bool, n: nat,
                              x: Exit)
    requires Sized(w) && m < |w.bodies| && Sized(r)
  {
    var ref := w.bodies[m].referenced;
    && Grows(w, r) && HopsExits(can, g, hops, end, ref) == {x}
    && r.bodies[m].referenced == x.ref && (x.dirty ==> Len(r, m) > Len(w, m))
    && Total(r) >= Total(w) + LoadHops(can, g, hops, n)
    && (!HopsFine(can, g, hops, end, ref) || (n < Len(w, m) && !HopsIdle(can, g, hops)) ==>
          Total(r) > Total(w) + LoadHops(can, g, hops, n))
  }

  predicate HopsIdle(can: Answers, g: Drivers, hops: Hops) {
    SortIdle(can, g, hops, false) && (MayFall(can, hops) ==> SortIdle(can, g, hops, true))
  }

  lemma {:induction false} HopsWeigh(can: Answers, g: Drivers, w: World, m: nat, hops: Hops, end: bool, o: Options,
                                     n: nat)
      returns (x: Exit)
    requires Decided(can) && Sized(w) && m < |w.bodies| && PlainHops(hops) && n <= Len(w, m)
    ensures HeavierHops(can, g, w, RunHops(Tracing(can), g, w, m, hops, end, o), m, hops, end, n, x)
    decreases hops, 2
  {
    hide Sized, Grows, RunPass, PassFine, PassExits, Total, LoadPass, SortIdle, SureTaken, Plain;
    var fx := FallbackExists(hops);
    var a, b := FirstRound(can, g, hops, end), SecondRound(hops, end);
    var ref := w.bodies[m].referenced;
    var x1 := PassWeighs(can, g, w, m, hops, a, false, o, n);
    var w1 := RunPass(Tracing(can), g, w, m, hops, false, false, end, fx, o).world;
    GrowsAt(w, w1, m);
    assert x1 in PassExits(can, g, hops, a, false, ref);
    if fx && !x1.ok {
      var y := PassWeighs(can, g, w1, m, hops, b, false, o, n);
      x := y.After(x1.dirty);
      var r := RunPass(Tracing(can), g, w1, m, hops, true, false, end, fx, o).world;
      GrowsTrans(w, w1, r);
      GrowsAt(w1, r, m);
      TwoExits(can, g, hops, end, ref, x1, y);
    } else {
      x := x1;
      OneExit(can, g, hops, end, ref, x1);
    }
  }

  lemma OneExit(can: Answers, g: Drivers, hops: Hops, end: bool, ref: bool, x: Exit)
    requires PassExits(can, g, hops, FirstRound(can, g, hops, end), false, ref) == {x}
             && (FallbackExists(hops) ==> x.ok)
    ensures HopsExits(can, g, hops, end, ref) == {x}
  {
    hide PassExits, SortIdle;
  }

  lemma TwoExits(can: Answers, g: Drivers, hops: Hops, end: bool, ref: bool, x: Exit, y: Exit)
    requires PassExits(can, g, hops, FirstRound(can, g, hops, end), false, ref) == {x} && FallbackExists(hops) && !x.ok
    requires PassExits(can, g, hops, SecondRound(hops, end), false, x.ref) == {y}
    ensures HopsExits(can, g, hops, end, ref) == {y.After(x.dirty)}
  {
    hide PassExits, SortIdle;
    assert x in PassExits(can, g, hops, FirstRound(can, g, hops, end), false, ref);
    assert y in PassExits(can, g, hops, SecondRound(hops, end), false, x.ref);
  }

  lemma MpxExit(can: Answers, g: Drivers, p: Path, ref: bool, h: Exit, y: Exit)
    requires p.Mpx? && HopsExits(can, g, p.hops, p.rest.End?, ref) == {h} && Exits(can, g, p.rest, h.ref) == {y}
    ensures Exits(can, g, p, ref) == {y.After(h.dirty)}
  {
    hide HopsExits;
    assert h in HopsExits(can, g, p.hops, p.rest.End?, ref) && y in Exits(can, g, p.rest, h.ref);
  }

  lemma MpxFine(can: Answers, g: Drivers, p: Path, ref: bool, h: Exit)
    requires p.Mpx? && HopsExits(can, g, p.hops, p.rest.End?, ref) == {h}
    requires HopsFine(can, g, p.hops, p.rest.End?, ref) && (h.dirty ==> p.rest.End?) && Fine(can, g, p.rest, h.ref)
    ensures Fine(can, g, p, ref)
  {
    hide HopsExits, HopsFine;
  }

  lemma MpxRest(can: Answers, g: Drivers, p: Path, n: nat)
    requires p.Mpx?
    ensures Load(can, g, p, n) == LoadHops(can, g, p.hops, n) + Load(can, g, p.rest, n)
    ensures HopsIdle(can, g, p.hops) && Idle(can, g, p.rest) ==> Idle(can, g, p)
    ensures Sure(can, p) == Sure(can, p.rest)
  {
    hide LoadHops;
  }

  lemma {:induction false} MpxWeighs(can: Answers, g: Drivers, w: World, m: nat, p: Path, o: Options, n: nat)
      returns (x: Exit)
    requires Decided(can) && Sized(w) && m < |w.bodies| && Plain(p) && n <= Len(w, m) && p.Mpx?
    requires OwnWrites(p) && w.bodies[m].referenced ==> Queued(w, m)
    ensures var r := RunPath(Tracing(can), g, w, m, p, o);
            r.ok == x.ok && Heavier(can, g, w, r.world, m, p, n, x)
    decreases p, 0
  {
    hide Sized, Grows, RunHops, HopsFine, HopsExits, Total, LoadHops, Queued, HopsIdle, Exits, Fine, Load, Idle, Sure;
    var hops, rest := p.hops, p.rest;
    var end := rest.End?;
    var ref := w.bodies[m].referenced;
    var h := HopsWeigh(can, g, w, m, hops, end, o, n);
    var w1 := RunHops(Tracing(can), g, w, m, hops, end, o);
    GrowsAt(w, w1, m);
    if !end {
      GroupQueues(can, g, w, m, hops, o);
      assert h in HopsExits(can, g, hops, false, ref);
    }
    var y := PathWeighs(can, g, w1, m, rest, o, n);
    x := y.After(h.dirty);
    MpxExit(can, g, p, ref, h, y);
    MpxRest(can, g, p, n);
    if HopsFine(can, g, hops, end, ref) && (h.dirty ==> end) && Fine(can, g, rest, h.ref) {
      MpxFine(can, g, p, ref, h);
    }
    var r := RunPath(Tracing(can), g, w1, m, rest, o).world;
    GrowsTrans(w, w1, r);
    GrowsAt(w1, r, m);
  }

  /** A destination with drivers queues the message itself and leaves it as it is. */
  lemma GroupQueues(can: Answers, g: Drivers, w: World, m: nat, hops: Hops, o: Options)
    requires Sized(w) && m < |w.bodies| && ToGroup(hops)
    ensures var r := RunHops(Tracing(can), g, w, m, hops, false, o);
            && (g(hops.path.dest) > 0 ==> Queued(r, m))
            && r.bodies[m].referenced == (w.bodies[m].referenced || g(hops.path.dest) > 0)
    ensures forall h :: h in HopsExits(can, g, hops, false, w.bodies[m].referenced) ==> !h.dirty
  {
    hide Sized;
    var d := hops.path.dest;
    var ref := w.bodies[m].referenced;
    var w1 := Lend(w, m, o);
    DriversWeigh(w1, m, d, 0, g(d), o);
    var w2 := RunDrivers(w1, m, d, 0, g(d), o);
    assert o.(flow := o.flow || PLAIN.hard) == o;
    assert RunPath(Tracing(can), g, w1, m, hops.path, o) == RunPath(Tracing(can), g, w2, m, End, o);
    var r := Out(Drop(w2, m, o), true);
    assert RunHop(Tracing(can), g, w, m, hops.path, PLAIN, false, o) == r;
    assert RunPass(Tracing(can), g, r.world, m, NoHops, false, true, false, false, o).world == r.world;
    assert !FallbackExists(hops) && !FallbackExists(NoHops);
    assert RunHops(Tracing(can), g, w, m, hops, false, o) == r.world;
    GroupExits(can, g, hops, false, ref);
  }

  lemma GroupExits(can: Answers, g: Drivers, hops: Hops, end: bool, ref: bool)
    requires ToGroup(hops)
    ensures HopsExits(can, g, hops, end, ref) == {Exit(true, ref || g(hops.path.dest) > 0, false)}
    ensures HopsFine(can, g, hops, end, ref)
  {
    var x := Exit(true, ref || g(hops.path.dest) > 0, false);
    var a := FirstRound(can, g, hops, end);
    assert !FallbackExists(NoHops) && !FallbackExists(hops);
    assert Exits(can, g, End, x.ref) == {x};
    assert Exits(can, g, hops.path, ref) == {x};
    assert HopExits(can, g, hops.path, PLAIN, Last(a, NoHops, false), ref) == {x};
    assert PassExits(can, g, NoHops, a, true, x.ref) == {x};
    Unfold1(can, g, hops, a, ref, x);
    OneExit(can, g, hops, end, ref, x);
    assert Fine(can, g, End, x.ref);
    assert Fine(can, g, hops.path, ref);
    assert PassFine(can, g, hops, a, false, ref);
  }

  lemma Unfold1(can: Answers, g: Drivers, hops: Hops, a: Round, ref: bool, x: Exit)
    requires ToGroup(hops) && !a.fallback && x.ok && !x.dirty
    requires HopExits(can, g, hops.path, PLAIN, Last(a, NoHops, false), ref) == {x}
             && PassExits(can, g, NoHops, a, true, x.ref) == {x}
    ensures PassExits(can, g, hops, a, false, ref) == {x}
  {
    hide HopExits;
    assert x in HopExits(can, g, hops.path, PLAIN, Last(a, NoHops, false), ref);
    assert x in PassExits(can, g, NoHops, a, true, x.ref);
    assert x.After(false) == x;
  }

  // ----- the weight of mails

  function Size(c: Content): nat { if |c| > 0 then |c[0]| else 0 }

  function Mass(mails: seq<Mail>): nat {
    if mails == [] then 0 else Size(mails[0].content) + Mass(mails[1..])
  }

  lemma {:induction false} MassTwo(a: seq<Mail>, b: seq<Mail>)
    ensures Mass(a + b) == Mass(a) + Mass(b)
  {
    if a == [] {
      assert a + b == b;
    } else {
      assert (a + b)[1..] == a[1..] + b;
      MassTwo(a[1..], b);
    }
  }

  lemma {:induction false} CopiesMass(e: Event, i: nat, n: nat)
    requires i <= n
    ensures Mass(Copies(e, i, n)) == Times(Size(e.content), n - i)
    decreases n - i
  {
    if i < n {
      CopiesMass(e, i + 1, n);
      assert Copies(e, i, n)[1..] == Copies(e, i + 1, n);
    }
  }

  lemma OneMass(g: Drivers, e: Event, more: seq<Event>)
    ensures Mass(Posted(g, [e] + more)) == Times(Size(e.content), g(e.dest)) + Mass(Posted(g, more))
  {
    assert ([e] + more)[1..] == more;
    MassTwo(Copies(e, 0, g(e.dest)), Posted(g, more));
    CopiesMass(e, 0, g(e.dest));
  }

  lemma TwoMass(g: Drivers, a: seq<Event>, b: seq<Event>)
    ensures Mass(Posted(g, a + b)) == Mass(Posted(g, a)) + Mass(Posted(g, b))
  {
    PostedTwo(g, a, b);
    MassTwo(Posted(g, a), Posted(g, b));
  }

  lemma LongerSize(can: Answers, e: Elem, c: Content)
    requires |c| == PARTS
    ensures var d := Edited(c, Longer(can, e, c).edits);
            |d| == PARTS && Size(d) == Size(c) + Bump(e)
  {
    var edits := Longer(can, e, c).edits;
    if e.writes {
      assert edits[..0] == [];
      assert Edited(c, []) == c;
      assert Edited(c, edits) == Stored(c, edits[0]);
    }
  }

  /** A reader of the pipes expects mails of mass `Load`. */
  lemma {:induction false} ReadLoad(can: Answers, g: Drivers, p: Path, c: Content, flow: bool)
    requires Decided(can) && |c| == PARTS
    ensures var r := ReadPath(Tracing(can), p, c, flow);
            r.matched == Sure(can, p) && Mass(Posted(g, r.events)) == Load(can, g, p, Size(c))
    decreases p, 0
  {
    hide Posted, Mass, Times;
    NoMass(g);
    match p
    case End =>
    case Proc(e, rest) =>
      LongerSize(can, e, c);
      assert Tracing(can)(e, c) == Longer(can, e, c);
      assert can(e, true) != can(e, false);
      if can(e, true) {
        ReadLoad(can, g, rest, Edited(c, Longer(can, e, c).edits), flow);
      }
    case Group(d, rest) =>
      ReadLoad(can, g, rest, c, flow);
      OneMass(g, Event(d, c, flow), ReadPath(Tracing(can), rest, c, flow).events);
    case Mpx(hops, rest) =>
      ReadLoad(can, g, rest, c, flow);
      HopsLoad(can, g, hops, c, flow);
      TwoMass(g, ReadHops(Tracing(can), hops, c, flow), ReadPath(Tracing(can), rest, c, flow).events);
  }

  lemma NoMass(g: Drivers)
    ensures Posted(g, []) == [] && Mass([]) == 0
  {
  }

  lemma {:induction false} PassLoad(can: Answers, g: Drivers, hops: Hops, fallback: bool, c: Content, flow: bool)
    requires Decided(can) && |c| == PARTS
    ensures var r := Pass(Tracing(can), hops, fallback, c, flow);
            && (!fallback ==> r.matched == SureTaken(can, hops))
            && Mass(Posted(g, r.events)) == LoadPass(can, g, hops, fallback, Size(c))
    decreases hops, 0
  {
    hide Posted, Mass;
    if hops.NoHops? {
      NoMass(g);
    } else {
      PassLoad(can, g, hops.tail, fallback, c, flow);
      if hops.mark.fallback == fallback {
        var flow1 := flow || hops.mark.hard;
        ReadLoad(can, g, hops.path, c, flow1);
        TwoMass(g, ReadPath(Tracing(can), hops.path, c, flow1).events,
            Pass(Tracing(can), hops.tail, fallback, c, flow).events);
      }
    }
  }

  lemma {:induction false} HopsLoad(can: Answers, g: Drivers, hops: Hops, c: Content, flow: bool)
    requires Decided(can) && |c| == PARTS
    ensures Mass(Posted(g, ReadHops(Tracing(can), hops, c, flow))) == LoadHops(can, g, hops, Size(c))
    decreases hops, 1
  {
    hide Posted, Mass, Pass, LoadPass, SureTaken;
    PassLoad(can, g, hops, false, c, flow);
    PassLoad(can, g, hops, true, c, flow);
    TwoMass(g, Pass(Tracing(can), hops, false, c, flow).events, Pass(Tracing(can), hops, true, c, flow).events);
  }

  /** If all queued messages are what they were when queued, the world weighs what its
      mails do. */
  lemma {:induction false} KeptMass(w: World, n: nat)
    requires Sized(w) && n <= |w.nodes|
    requires forall i :: 0 <= i < |w.nodes| ==> View(w, w.nodes[i].msg) == w.nodes[i].seen
    ensures Weight(w, n) == Mass(Shown(w.nodes)[..n])
  {
    if n > 0 {
      KeptMass(w, n - 1);
      var mail := Shown(w.nodes)[n - 1];
      assert Shown(w.nodes)[..n] == Shown(w.nodes)[..n - 1] + [mail];
      MassTwo(Shown(w.nodes)[..n - 1], [mail]);
      assert Size(mail.content) == Len(w, w.nodes[n - 1].msg);
    }
  }
}
