/** Conservation of references and acks: queueing a message into a tree of pipes uses up
    exactly the reference and the ack that came with it. */
module PathCounts {
  import opened Wrappers
  import opened Ledger
  import opened LogTree
  import opened LogPath

  datatype Book = Refs | Acks

  function Led(w: World, k: Book): Ledger { if k == Refs then w.refs else w.acks }

  /** What a path with these options carries. */
  function Units(o: Options, k: Book): nat { if k == Refs then 1 else Unit(o) }

  /** Queue nodes among the first `n` with a claim on message `x`. */
  function OnNodes(nodes: seq<Node>, x: nat, k: Book, n: nat): nat
    requires n <= |nodes|
  {
    if n == 0 then 0
    else OnNodes(nodes, x, k, n - 1) + if nodes[n - 1].msg == x && (k == Refs || nodes[n - 1].ack) then 1 else 0
  }

  /** The claims of callers, given by `held`, and of queue nodes. */
  function Claims(nodes: seq<Node>, held: seq<nat>, k: Book): (c: seq<nat>)
    ensures |c| == |held|
  {
    seq(|held|, x requires 0 <= x < |held| => held[x] + OnNodes(nodes, x, k, |nodes|))
  }

  ghost predicate Fair(w: World, held: seq<nat>, k: Book) {
    |held| == |w.bodies| && Balanced(Led(w, k), Claims(w.nodes, held, k))
  }

  function Pad(held: seq<nat>, n: nat): (r: seq<nat>)
    ensures |held| <= n ==> |r| == n
  {
    if n <= |held| then held else held + seq(n - |held|, _ => 0)
  }

  /** `held` after `u` units of `m` were used up and there are `n` messages. */
  function Spent(held: seq<nat>, m: nat, u: nat, n: nat): seq<nat>
    requires m < |held| && u <= held[m]
  {
    Pad(held[m := held[m] - u], n)
  }

  /** Changing what is held of `m` changes the claims on `m` alike. */
  lemma ClaimsMove(nodes: seq<Node>, held: seq<nat>, m: nat, v: nat, k: Book)
    requires m < |held|
    ensures Claims(nodes, held[m := v], k) == Claims(nodes, held, k)[m := v + OnNodes(nodes, m, k, |nodes|)]
  {
  }

  lemma LendFair(w: World, held: seq<nat>, m: nat, o: Options, k: Book)
    requires Sized(w) && Fair(w, held, k) && m < |held| == |w.bodies| && Units(o, k) <= held[m]
    ensures Fair(Lend(w, m, o), held[m := held[m] + Units(o, k)], k)
  {
    hide Balanced;
    GiveBalanced(Led(w, k), Claims(w.nodes, held, k), m, Units(o, k));
    ClaimsMove(w.nodes, held, m, held[m] + Units(o, k), k);
  }

  lemma DropFair(w: World, held: seq<nat>, m: nat, o: Options, k: Book)
    requires Sized(w) && Fair(w, held, k) && m < |held| == |w.bodies| && Units(o, k) <= held[m]
    ensures Fair(Drop(w, m, o), held[m := held[m] - Units(o, k)], k)
  {
    hide Balanced;
    if Units(o, k) > 0 {
      TakeBalanced(Led(w, k), Claims(w.nodes, held, k), m);
      ClaimsMove(w.nodes, held, m, held[m] - 1, k);
    } else {
      assert held[m := held[m] - 0] == held;
    }
  }

  lemma CloneFair(w: World, held: seq<nat>, m: nat, o: Options, k: Book)
    requires Sized(w) && Fair(w, held, k) && m < |held| == |w.bodies| && Units(o, k) <= held[m]
    ensures Fair(CloneOf(w, m, o), held[m := held[m] - Units(o, k)] + [Units(o, k)], k)
  {
    hide Balanced;
    var c := Claims(w.nodes, held, k);
    var u := Units(o, k);
    SpawnBalanced(Led(w, k), c, m, u);
    NotOnNodes(w.nodes, |held|, k, |w.nodes|);
    assert Claims(w.nodes, held[m := held[m] - u] + [u], k) == c[m := c[m] - u] + [u];
  }

  lemma {:induction false} NotOnNodes(nodes: seq<Node>, x: nat, k: Book, n: nat)
    requires n <= |nodes| && forall i :: 0 <= i < n ==> nodes[i].msg != x
    ensures OnNodes(nodes, x, k, n) == 0
  {
    if n > 0 {
      NotOnNodes(nodes, x, k, n - 1);
    }
  }

  lemma {:induction false} SameNodes(nodes: seq<Node>, more: seq<Node>, x: nat, k: Book, n: nat)
    requires n <= |nodes| && nodes <= more
    ensures OnNodes(more, x, k, n) == OnNodes(nodes, x, k, n)
  {
    if n > 0 {
      SameNodes(nodes, more, x, k, n - 1);
    }
  }

  /** A new queue node is one more claim on its message. */
  lemma ClaimsQueued(nodes: seq<Node>, n: Node, held: seq<nat>, k: Book)
    requires n.msg < |held|
    ensures var c := Claims(nodes, held, k);
            Claims(nodes + [n], held, k) == c[n.msg := c[n.msg] + if k == Refs || n.ack then 1 else 0]
  {
    forall x | 0 <= x < |held|
      ensures OnNodes(nodes + [n], x, k, |nodes|) == OnNodes(nodes, x, k, |nodes|)
    {
      SameNodes(nodes, nodes + [n], x, k, |nodes|);
    }
  }

  lemma EnqueueFair(w: World, held: seq<nat>, m: nat, d: string, i: nat, o: Options, k: Book)
    requires Sized(w) && Fair(w, held, k) && m < |held| == |w.bodies| && Units(o, k) <= held[m]
    ensures Fair(Enqueue(w, m, d, i, o), held, k)
  {
    hide Balanced;
    GiveBalanced(Led(w, k), Claims(w.nodes, held, k), m, Units(o, k));
    ClaimsQueued(w.nodes, Node(d, i, m, o.ack, o.flow, View(w, m)), held, k);
  }

  lemma BreakFair(w: World, held: seq<nat>, m: nat, o: Options, k: Book)
    requires Sized(w) && Fair(w, held, k) && m < |held| == |w.bodies| && Units(o, k) <= held[m]
    ensures Fair(BreakAck(w, m, o), if k == Acks then held[m := held[m] - Unit(o)] else held, k)
  {
    hide Balanced;
    if o.ack && k == Acks {
      TakeBalanced(w.acks, Claims(w.nodes, held, k), m);
      ClaimsMove(w.nodes, held, m, held[m] - 1, k);
    } else {
      assert held[m := held[m] - 0] == held;
    }
  }

  /** Queueing and then dropping uses up what this path carries. */
  lemma QueueFair(w: World, held: seq<nat>, m: nat, d: string, i: nat, o: Options, k: Book)
    requires Sized(w) && Fair(w, held, k) && m < |held| == |w.bodies| && Units(o, k) <= held[m]
    ensures Fair(Drop(Enqueue(w, m, d, i, o), m, o), held[m := held[m] - Units(o, k)], k)
  {
    hide Fair;
    EnqueueFair(w, held, m, d, i, o, k);
    DropFair(Enqueue(w, m, d, i, o), held, m, o, k);
  }

  lemma DriverFair(w: World, held: seq<nat>, m: nat, d: string, i: nat, o: Options, k: Book)
    requires Sized(w) && Fair(w, held, k) && m < |held| == |w.bodies| && Units(o, k) <= held[m]
    ensures Fair(RunDriver(w, m, d, i, o), held[m := held[m] - Units(o, k)], k)
  {
    hide Fair;
    if o.flow {
      QueueFair(w, held, m, d, i, o, k);
    } else {
      BreakFair(w, held, m, o, k);
      var held1 := if k == Acks then held[m := held[m] - Unit(o)] else held;
      var o1 := o.(ack := false);
      QueueFair(BreakAck(w, m, o), held1, m, d, i, o1, k);
      assert held1[m := held1[m] - Units(o1, k)] == held[m := held[m] - Units(o, k)];
    }
  }

  lemma {:induction false} DriversFair(w: World, held: seq<nat>, m: nat, d: string, i: nat, n: nat, o: Options, k: Book)
    requires Sized(w) && Fair(w, held, k) && m < |held| == |w.bodies| && Units(o, k) <= held[m] && i <= n
    ensures Fair(RunDrivers(w, m, d, i, n, o), held, k)
    decreases n - i
  {
    hide Fair;
    if i < n {
      LendFair(w, held, m, o, k);
      var more := held[m := held[m] + Units(o, k)];
      DriverFair(Lend(w, m, o), more, m, d, i, o, k);
      assert more[m := more[m] - Units(o, k)] == held;
      DriversFair(RunDriver(Lend(w, m, o), m, d, i, o), held, m, d, i + 1, n, o, k);
    }
  }

  lemma {:induction false} StoreAllFair(w: World, held: seq<nat>, m: nat, edits: seq<Edit>, k: Book)
    requires Sized(w) && Fair(w, held, k) && m < |held|
    ensures Fair(StoreAll(w, m, edits), held, k) && StoreAll(w, m, edits).nodes == w.nodes
    decreases |edits|
  {
    if edits != [] {
      StoreAllFair(w, held, m, edits[..|edits| - 1], k);
    }
  }

  // ----- trees of pipes

  lemma PadTwice(held: seq<nat>, n1: nat, n2: nat)
    requires |held| <= n1 <= n2
    ensures Pad(Pad(held, n1), n2) == Pad(held, n2)
  {
  }

  lemma PadSpent(held: seq<nat>, m: nat, u: nat, n1: nat, n2: nat)
    requires m < |held| <= n1 <= n2 && u <= held[m]
    ensures m < |Pad(held, n1)| && u <= Pad(held, n1)[m]
    ensures Spent(Pad(held, n1), m, u, n2) == Spent(held, m, u, n2)
  {
  }

  lemma PadClone(held: seq<nat>, u: nat, n: nat)
    requires |held| < n
    ensures Spent(held + [u], |held|, u, n) == Pad(held, n)
  {
  }

  lemma PadBack(held: seq<nat>, m: nat, u: nat, n: nat)
    requires m < |held| <= n
    ensures Spent(held[m := held[m] + u], m, u, n) == Pad(held, n)
  {
    assert held[m := held[m] + u][m := held[m]] == held;
  }

  lemma {:induction false} PathFair(sem: Meaning, g: Drivers, w: World, m: nat, p: Path, o: Options, held: seq<nat>,
                                    k: Book)
    requires Sized(w) && Fair(w, held, k) && m < |held| == |w.bodies| && Units(o, k) <= held[m]
    ensures var r := RunPath(sem, g, w, m, p, o).world;
            Fair(r, Spent(held, m, Units(o, k), |r.bodies|), k)
    decreases p, 0
  {
    hide Fair;
    match p
    case End => DropFair(w, held, m, o, k);
    case Proc(e, rest) =>
      var r := sem(e, View(w, m));
      StoreAllFair(w, held, m, r.edits, k);
      if r.accept {
        PathFair(sem, g, StoreAll(w, m, r.edits), m, rest, o, held, k);
      } else {
        DropFair(StoreAll(w, m, r.edits), held, m, o, k);
      }
    case Group(d, rest) =>
      DriversFair(w, held, m, d, 0, g(d), o, k);
      PathFair(sem, g, RunDrivers(w, m, d, 0, g(d), o), m, rest, o, held, k);
    case Mpx(hops, rest) =>
      HopsFair(sem, g, w, m, hops, rest.End?, o, held, k);
      var w1 := RunHops(sem, g, w, m, hops, rest.End?, o);
      PadSpent(held, m, Units(o, k), |w1.bodies|, |RunPath(sem, g, w1, m, rest, o).world.bodies|);
      PathFair(sem, g, w1, m, rest, o, Pad(held, |w1.bodies|), k);
  }

  /** Lending `m` and cloning it leaves the caller's claims alone and gives the clone its own. */
  lemma LendCloneFair(w: World, held: seq<nat>, m: nat, o: Options, k: Book)
    requires Sized(w) && Fair(w, held, k) && m < |held| == |w.bodies| && Units(o, k) <= held[m]
    ensures Fair(CloneOf(Lend(w, m, o), m, o), held + [Units(o, k)], k)
  {
    hide Fair, Sized;
    var u := Units(o, k);
    var more := held[m := held[m] + u];
    LendFair(w, held, m, o, k);
    CloneFair(Lend(w, m, o), more, m, o, k);
    assert more[m := more[m] - u] + [u] == held + [u];
  }

  lemma {:induction false} HopFair(sem: Meaning, g: Drivers, w: World, m: nat, p: Path, mark: Mark, last: bool,
                                   o: Options, held: seq<nat>, k: Book)
    requires Sized(w) && Fair(w, held, k) && m < |held| == |w.bodies| && Units(o, k) <= held[m]
    ensures var r := RunHop(sem, g, w, m, p, mark, last, o).world;
            Fair(r, Pad(held, |r.bodies|), k)
    decreases p, 1
  {
    hide Fair, Sized, RunPath, Spent, Pad, Give, Spawn;
    var o1 := o.(flow := o.flow || mark.hard);
    var u := Units(o, k);
    if mark.clone && (w.bodies[m].referenced || !last) {
      LendCloneFair(w, held, m, o1, k);
      PathFair(sem, g, CloneOf(Lend(w, m, o1), m, o1), |held|, p, o1, held + [u], k);
      PadClone(held, u, |RunHop(sem, g, w, m, p, mark, last, o).world.bodies|);
    } else {
      var more := held[m := held[m] + u];
      LendFair(w, held, m, o1, k);
      PathFair(sem, g, Lend(w, m, o1), m, p, o1, more, k);
      PadBack(held, m, u, |RunHop(sem, g, w, m, p, mark, last, o).world.bodies|);
    }
  }

  lemma {:induction false} PassFair(sem: Meaning, g: Drivers, w: World, m: nat, hops: Hops, fallback: bool,
                                    delivered: bool, end: bool, fx: bool, o: Options, held: seq<nat>, k: Book)
    requires Sized(w) && Fair(w, held, k) && m < |held| == |w.bodies| && Units(o, k) <= held[m]
    ensures var r := RunPass(sem, g, w, m, hops, fallback, delivered, end, fx, o).world;
            Fair(r, Pad(held, |r.bodies|), k)
    decreases hops, 0
  {
    hide Fair, Sized;
    match hops
    case NoHops =>
    case Hop(path, mark, tail) =>
      if mark.fallback != fallback {
        PassFair(sem, g, w, m, tail, fallback, delivered, end, fx, o, held, k);
      } else {
        var last := end && tail.NoHops? && (!fx || delivered || fallback);
        HopFair(sem, g, w, m, path, mark, last, o, held, k);
        var r := RunHop(sem, g, w, m, path, mark, last, o);
        var padded := Pad(held, |r.world.bodies|);
        PassFair(sem, g, r.world, m, tail, fallback, delivered || r.ok, end, fx, o, padded, k);
        PadTwice(held, |r.world.bodies|,
                 |RunPass(sem, g, r.world, m, tail, fallback, delivered || r.ok, end, fx, o).world.bodies|);
      }
  }

  lemma {:induction false} HopsFair(sem: Meaning, g: Drivers, w: World, m: nat, hops: Hops, end: bool, o: Options,
                                    held: seq<nat>, k: Book)
    requires Sized(w) && Fair(w, held, k) && m < |held| == |w.bodies| && Units(o, k) <= held[m]
    ensures var r := RunHops(sem, g, w, m, hops, end, o);
            Fair(r, Pad(held, |r.bodies|), k)
    decreases hops, 1
  {
    hide Fair;
    var fx := FallbackExists(hops);
    PassFair(sem, g, w, m, hops, false, false, end, fx, o, held, k);
    var first := RunPass(sem, g, w, m, hops, false, false, end, fx, o);
    if fx && !first.ok {
      PassFair(sem, g, first.world, m, hops, true, false, end, fx, o, Pad(held, |first.world.bodies|), k);
      PadTwice(held, |first.world.bodies|, |RunHops(sem, g, w, m, hops, end, o).bodies|);
    }
  }

  // ----- who owes an ack

  /** A queue node owes an ack exactly when it was queued with flow control. */
  predicate Owing(nodes: seq<Node>) { forall i :: 0 <= i < |nodes| ==> nodes[i].ack == nodes[i].flow }

  /** A driver breaks the ack chain exactly when no flow control is requested. */
  lemma DriverOwes(w: World, m: nat, d: string, i: nat, o: Options)
    requires Sized(w) && m < |w.bodies| && o.ack && Owing(w.nodes)
    ensures Owing(RunDriver(w, m, d, i, o).nodes)
  {
    hide Sized;
  }

  lemma {:induction false} DriversOwe(w: World, m: nat, d: string, i: nat, n: nat, o: Options)
    requires Sized(w) && m < |w.bodies| && o.ack && Owing(w.nodes) && i <= n
    ensures Owing(RunDrivers(w, m, d, i, n, o).nodes)
    decreases n - i
  {
    hide Owing, Sized, RunDriver;
    if i < n {
      DriverOwes(Lend(w, m, o), m, d, i, o);
      DriversOwe(RunDriver(Lend(w, m, o), m, d, i, o), m, d, i + 1, n, o);
    }
  }

  lemma {:induction false} StoredNodes(w: World, m: nat, edits: seq<Edit>)
    requires Sized(w) && m < |w.bodies|
    ensures StoreAll(w, m, edits).nodes == w.nodes
    decreases |edits|
  {
    if edits != [] {
      StoredNodes(w, m, edits[..|edits| - 1]);
    }
  }

  lemma {:induction false} PathOwes(sem: Meaning, g: Drivers, w: World, m: nat, p: Path, o: Options)
    requires Sized(w) && m < |w.bodies| && o.ack && Owing(w.nodes)
    ensures Owing(RunPath(sem, g, w, m, p, o).world.nodes)
    decreases p, 0
  {
    hide Owing, Sized;
    match p
    case End =>
    case Proc(e, rest) =>
      var r := sem(e, View(w, m));
      StoredNodes(w, m, r.edits);
      if r.accept {
        PathOwes(sem, g, StoreAll(w, m, r.edits), m, rest, o);
      }
    case Group(d, rest) =>
      DriversOwe(w, m, d, 0, g(d), o);
      PathOwes(sem, g, RunDrivers(w, m, d, 0, g(d), o), m, rest, o);
    case Mpx(hops, rest) =>
      HopsOwe(sem, g, w, m, hops, rest.End?, o);
      PathOwes(sem, g, RunHops(sem, g, w, m, hops, rest.End?, o), m, rest, o);
  }

  lemma {:induction false} HopOwes(sem: Meaning, g: Drivers, w: World, m: nat, p: Path, mark: Mark, last: bool,
                                   o: Options)
    requires Sized(w) && m < |w.bodies| && o.ack && Owing(w.nodes)
    ensures Owing(RunHop(sem, g, w, m, p, mark, last, o).world.nodes)
    decreases p, 1
  {
    hide Owing, Sized;
    var o1 := o.(flow := o.flow || mark.hard);
    if mark.clone && (w.bodies[m].referenced || !last) {
      PathOwes(sem, g, CloneOf(Lend(w, m, o1), m, o1), |w.bodies|, p, o1);
    } else {
      PathOwes(sem, g, Lend(w, m, o1), m, p, o1);
    }
  }

  lemma {:induction false} PassOwes(sem: Meaning, g: Drivers, w: World, m: nat, hops: Hops, fallback: bool,
                                    delivered: bool, end: bool, fx: bool, o: Options)
    requires Sized(w) && m < |w.bodies| && o.ack && Owing(w.nodes)
    ensures Owing(RunPass(sem, g, w, m, hops, fallback, delivered, end, fx, o).world.nodes)
    decreases hops, 0
  {
    hide Owing, Sized, RunHop;
    if hops.Hop? {
      if hops.mark.fallback != fallback {
        PassOwes(sem, g, w, m, hops.tail, fallback, delivered, end, fx, o);
      } else {
        var last := end && hops.tail.NoHops? && (!fx || delivered || fallback);
        HopOwes(sem, g, w, m, hops.path, hops.mark, last, o);
        var r := RunHop(sem, g, w, m, hops.path, hops.mark, last, o);
        PassOwes(sem, g, r.world, m, hops.tail, fallback, delivered || r.ok, end, fx, o);
      }
    }
  }

  lemma {:induction false} HopsOwe(sem: Meaning, g: Drivers, w: World, m: nat, hops: Hops, end: bool, o: Options)
    requires Sized(w) && m < |w.bodies| && o.ack && Owing(w.nodes)
    ensures Owing(RunHops(sem, g, w, m, hops, end, o).nodes)
    decreases hops, 1
  {
    hide Owing, Sized, RunPass;
    var fx := FallbackExists(hops);
    PassOwes(sem, g, w, m, hops, false, false, end, fx, o);
    var first := RunPass(sem, g, w, m, hops, false, false, end, fx, o);
    if fx && !first.ok {
      PassOwes(sem, g, first.world, m, hops, true, false, end, fx, o);
    }
  }

  // ----- from the source to the last ack

  /** A message as the source hands it to the pipeline: one reference and one ack. */
  function Start(c: Content): (w: World)
    requires |c| == PARTS
    ensures Sized(w)
  {
    var l := Ledger([1], [0], [None]);
    World(l, l, [Body([0, 1, 2], [true, true, true], false)], c, [])
  }

  /** The consumer of queue node `i` is done with it: it acks if the node owes an ack,
      and gives back the node's reference. */
  function Consume(w: World, i: nat): (r: World)
    requires Sized(w) && i < |w.nodes|
    ensures Sized(r)
  {
    var n := w.nodes[i];
    Drop(w, n.msg, Options(n.ack, n.flow)).(nodes := w.nodes[..i] + w.nodes[i + 1..])
  }

  /** The worlds after the consumers finished their nodes in the order `order`. */
  predicate Consumed(ws: seq<World>, order: seq<nat>) {
    && |ws| == |order| + 1 && Sized(ws[0])
    && forall j :: 0 <= j < |order| ==>
        Sized(ws[j]) && order[j] < |ws[j].nodes| && ws[j + 1] == Consume(ws[j], order[j])
  }

  /** No caller holds anything any more: all claims are those of queue nodes. */
  ghost predicate Settled(w: World) {
    Sized(w) && Fair(w, seq(|w.bodies|, _ => 0), Refs) && Fair(w, seq(|w.bodies|, _ => 0), Acks)
  }

  lemma {:induction false} OnNodesSplit(nodes: seq<Node>, i: nat, x: nat, k: Book, n: nat)
    requires i < |nodes| && n <= |nodes| - 1
    ensures var rest := nodes[..i] + nodes[i + 1..];
            OnNodes(rest, x, k, n) == if n <= i then OnNodes(nodes, x, k, n)
                                      else OnNodes(nodes, x, k, n + 1) -
                                           if nodes[i].msg == x && (k == Refs || nodes[i].ack) then 1 else 0
  {
    if n > 0 {
      OnNodesSplit(nodes, i, x, k, n - 1);
    }
  }

  lemma ClaimsConsumed(nodes: seq<Node>, i: nat, held: seq<nat>, k: Book)
    requires i < |nodes| && nodes[i].msg < |held|
    ensures var c := Claims(nodes, held, k);
            var n := nodes[i];
            var u := if k == Refs || n.ack then 1 else 0;
            c[n.msg] >= u && Claims(nodes[..i] + nodes[i + 1..], held, k) == c[n.msg := c[n.msg] - u]
  {
    var n := nodes[i];
    var rest := nodes[..i] + nodes[i + 1..];
    var u := if k == Refs || n.ack then 1 else 0;
    forall x | 0 <= x < |held|
      ensures OnNodes(rest, x, k, |rest|) == OnNodes(nodes, x, k, |nodes|) - if n.msg == x then u else 0
    {
      OnNodesSplit(nodes, i, x, k, |rest|);
    }
  }

  lemma ConsumeFair(w: World, i: nat, held: seq<nat>, k: Book)
    requires Sized(w) && Fair(w, held, k) && i < |w.nodes| && |held| == |w.bodies|
    ensures Fair(Consume(w, i), held, k)
  {
    hide Balanced;
    var n := w.nodes[i];
    var c := Claims(w.nodes, held, k);
    ClaimsConsumed(w.nodes, i, held, k);
    if k == Refs || n.ack {
      TakeBalanced(Led(w, k), c, n.msg);
    } else {
      assert c[n.msg := c[n.msg] - 0] == c;
    }
  }

  lemma ConsumeSettled(w: World, i: nat)
    requires Settled(w) && i < |w.nodes|
    ensures Settled(Consume(w, i))
  {
    ConsumeFair(w, i, seq(|w.bodies|, _ => 0), Refs);
    ConsumeFair(w, i, seq(|w.bodies|, _ => 0), Acks);
  }

  lemma {:induction false} AllSettled(ws: seq<World>, order: seq<nat>, j: nat)
    requires Consumed(ws, order) && Settled(ws[0]) && j <= |order|
    ensures Settled(ws[j])
  {
    hide Settled, Sized;
    if j > 0 {
      AllSettled(ws, order, j - 1);
      ConsumeSettled(ws[j - 1], order[j - 1]);
    }
  }

  lemma {:induction false} AllOwing(ws: seq<World>, order: seq<nat>, j: nat)
    requires Consumed(ws, order) && Owing(ws[0].nodes) && j <= |order|
    ensures Owing(ws[j].nodes)
  {
    hide Sized;
    if j > 0 {
      AllOwing(ws, order, j - 1);
    }
  }

  predicate Owes(n: Node, k: Book) { k == Refs || n.ack }

  lemma ZeroClaims(nodes: seq<Node>, c: seq<nat>, k: Book)
    requires forall i :: 0 <= i < |nodes| ==> nodes[i].msg < |c|
    requires c == Claims(nodes, seq(|c|, _ => 0), k)
    ensures (exists x :: 0 <= x < |c| && c[x] > 0) <==> exists i :: 0 <= i < |nodes| && Owes(nodes[i], k)
  {
    if i :| 0 <= i < |nodes| && Owes(nodes[i], k) {
      SomeOnNodes(nodes, i, k, |nodes|);
      assert c[nodes[i].msg] > 0;
    } else {
      forall x | 0 <= x < |c|
        ensures c[x] == 0
      {
        NoneOnNodes(nodes, x, k, |nodes|);
      }
    }
  }

  lemma {:induction false} SomeOnNodes(nodes: seq<Node>, i: nat, k: Book, n: nat)
    requires i < n <= |nodes| && (k == Refs || nodes[i].ack)
    ensures OnNodes(nodes, nodes[i].msg, k, n) > 0
  {
    if i < n - 1 {
      SomeOnNodes(nodes, i, k, n - 1);
    }
  }

  lemma {:induction false} NoneOnNodes(nodes: seq<Node>, x: nat, k: Book, n: nat)
    requires n <= |nodes| && forall i :: 0 <= i < |nodes| ==> !Owes(nodes[i], k)
    ensures OnNodes(nodes, x, k, n) == 0
  {
    if n > 0 {
      NoneOnNodes(nodes, x, k, n - 1);
    }
  }

  lemma StartSettles(sem: Meaning, g: Drivers, c: Content, p: Path, flow: bool)
    requires |c| == PARTS
    ensures Settled(RunPath(sem, g, Start(c), 0, p, Options(true, flow)).world)
  {
    var w := Start(c);
    var o := Options(true, flow);
    var n := |RunPath(sem, g, w, 0, p, o).world.bodies|;
    assert Spent([1], 0, 1, n) == seq(n, _ => 0);
    StartFair(c, Refs);
    StartFair(c, Acks);
    PathFair(sem, g, w, 0, p, o, [1], Refs);
    PathFair(sem, g, w, 0, p, o, [1], Acks);
  }

  lemma StartFair(c: Content, k: Book)
    requires |c| == PARTS
    ensures Fair(Start(c), [1], k)
  {
    NoChildren(Start(c).refs, 0, 1);
  }

  /** Whatever the tree of pipes, and in whatever order the queue consumers finish: the
      source's message is acked exactly once, when no node queued with flow control is left,
      and freed exactly once, when no queue node is left. */
  lemma AckedAfterTheLastLeaf(sem: Meaning, g: Drivers, c: Content, p: Path, flow: bool,
                              ws: seq<World>, order: seq<nat>, j: nat)
    requires |c| == PARTS && Consumed(ws, order) && j <= |order|
    requires ws[0] == RunPath(sem, g, Start(c), 0, p, Options(true, flow)).world
    ensures Sized(ws[j])
    ensures ws[j].acks.ended[0] == if exists i :: 0 <= i < |ws[j].nodes| && ws[j].nodes[i].flow then 0 else 1
    ensures ws[j].refs.ended[0] == if ws[j].nodes == [] then 1 else 0
  {
    hide RunPath;
    StartSettles(sem, g, c, p, flow);
    AllSettled(ws, order, j);
    PathOwes(sem, g, Start(c), 0, p, Options(true, flow));
    AllOwing(ws, order, j);
    var w := ws[j];
    var zero := seq(|w.bodies|, _ => 0);
    var acks, refs := Claims(w.nodes, zero, Acks), Claims(w.nodes, zero, Refs);
    RootIffClaims(w.acks, acks);
    RootIffClaims(w.refs, refs);
    ZeroClaims(w.nodes, acks, Acks);
    ZeroClaims(w.nodes, refs, Refs);
    assert w.nodes != [] ==> Owes(w.nodes[0], Refs);
    assert forall i :: 0 <= i < |w.nodes| ==> Owes(w.nodes[i], Acks) == w.nodes[i].flow;
  }

  // ----- consumers at work while the message is still on its way

  /** The operations that routing is made of, and a consumer finishing a queue node. */
  datatype Act =
    | ALend(m: nat, o: Options)
    | ADrop(m: nat, o: Options)
    | AClone(m: nat, o: Options)
    | AQueue(m: nat, dest: string, driver: nat, o: Options)
    | ABreak(m: nat, o: Options)
    | AStore(m: nat, edits: seq<Edit>)
    | AConsume(node: nat)

  /** A world and the references and acks that the routing thread holds. */
  datatype Flow = Flow(w: World, refs: seq<nat>, acks: seq<nat>) {
    predicate Wide() { Sized(w) && |refs| == |acks| == |w.bodies| }

    /** The thread holds a reference to `m` and what a path with these options carries. */
    predicate Holds(m: nat, o: Options) { Wide() && m < |refs| && refs[m] >= 1 && acks[m] >= Unit(o) }
  }

  predicate CanAct(f: Flow, a: Act) {
    match a
    case AConsume(i) => f.Wide() && i < |f.w.nodes|
    case AStore(m, _) => f.Wide() && m < |f.refs|
    case _ => f.Holds(a.m, a.o)
  }

  function Acted(f: Flow, a: Act): Flow
    requires CanAct(f, a)
  {
    match a
    case ALend(m, o) => Flow(Lend(f.w, m, o), f.refs[m := f.refs[m] + 1], f.acks[m := f.acks[m] + Unit(o)])
    case ADrop(m, o) => Flow(Drop(f.w, m, o), f.refs[m := f.refs[m] - 1], f.acks[m := f.acks[m] - Unit(o)])
    case AClone(m, o) =>
      Flow(CloneOf(f.w, m, o), f.refs[m := f.refs[m] - 1] + [1], f.acks[m := f.acks[m] - Unit(o)] + [Unit(o)])
    case AQueue(m, d, i, o) => f.(w := Enqueue(f.w, m, d, i, o))
    case ABreak(m, o) => f.(w := BreakAck(f.w, m, o), acks := f.acks[m := f.acks[m] - Unit(o)])
    case AStore(m, edits) => f.(w := StoreAll(f.w, m, edits))
    case AConsume(i) => f.(w := Consume(f.w, i))
  }

  ghost predicate FlowFair(f: Flow) { f.Wide() && Fair(f.w, f.refs, Refs) && Fair(f.w, f.acks, Acks) }

  lemma ActFair(f: Flow, a: Act)
    requires FlowFair(f) && CanAct(f, a)
    ensures FlowFair(Acted(f, a))
  {
    hide Fair;
    match a
    case ALend(m, o) =>
      LendFair(f.w, f.refs, m, o, Refs);
      LendFair(f.w, f.acks, m, o, Acks);
    case ADrop(m, o) =>
      DropFair(f.w, f.refs, m, o, Refs);
      DropFair(f.w, f.acks, m, o, Acks);
    case AClone(m, o) =>
      CloneFair(f.w, f.refs, m, o, Refs);
      CloneFair(f.w, f.acks, m, o, Acks);
    case AQueue(m, d, i, o) =>
      EnqueueFair(f.w, f.refs, m, d, i, o, Refs);
      EnqueueFair(f.w, f.acks, m, d, i, o, Acks);
    case ABreak(m, o) =>
      BreakFair(f.w, f.refs, m, o, Refs);
      BreakFair(f.w, f.acks, m, o, Acks);
    case AStore(m, edits) =>
      StoreAllFair(f.w, f.refs, m, edits, Refs);
      StoreAllFair(f.w, f.acks, m, edits, Acks);
    case AConsume(i) =>
      ConsumeFair(f.w, i, f.refs, Refs);
      ConsumeFair(f.w, i, f.acks, Acks);
  }

  ghost predicate Flows(fs: seq<Flow>, acts: seq<Act>, c: Content) {
    && |fs| == |acts| + 1 && |c| == PARTS && fs[0] == Flow(Start(c), [1], [1])
    && forall j :: 0 <= j < |acts| ==> CanAct(fs[j], acts[j]) && fs[j + 1] == Acted(fs[j], acts[j])
  }

  lemma {:induction false} FlowsFair(fs: seq<Flow>, acts: seq<Act>, c: Content, j: nat)
    requires Flows(fs, acts, c) && j < |fs|
    ensures FlowFair(fs[j])
  {
    hide Acted, FlowFair;
    if j == 0 {
      FirstFlow(c);
    } else {
      FlowsFair(fs, acts, c, j - 1);
      ActFair(fs[j - 1], acts[j - 1]);
    }
  }

  lemma FirstFlow(c: Content)
    requires |c| == PARTS
    ensures FlowFair(Flow(Start(c), [1], [1]))
  {
    StartFair(c, Refs);
    StartFair(c, Acks);
  }

  /** In every interleaving of routing operations and consumers: the source's message is
      acked at most once, exactly when neither the routing thread nor a queue node owes an
      ack for it or for a clone any more, and freed at most once, exactly when neither holds
      a reference any more. */
  lemma AckedInEveryInterleaving(fs: seq<Flow>, acts: seq<Act>, c: Content, j: nat)
    requires Flows(fs, acts, c) && j < |fs|
    ensures var f := fs[j];
            && f.Wide()
            && f.w.acks.ended[0] == (if (exists x :: 0 <= x < |f.acks| && f.acks[x] > 0) ||
                                        (exists i :: 0 <= i < |f.w.nodes| && f.w.nodes[i].ack) then 0 else 1)
            && f.w.refs.ended[0] ==
               (if (exists x :: 0 <= x < |f.refs| && f.refs[x] > 0) || f.w.nodes != [] then 0 else 1)
  {
    hide Acted;
    FlowsFair(fs, acts, c, j);
    var f := fs[j];
    RootIffClaims(f.w.acks, Claims(f.w.nodes, f.acks, Acks));
    RootIffClaims(f.w.refs, Claims(f.w.nodes, f.refs, Refs));
    SomeClaim(f.w.nodes, f.acks, Acks);
    SomeClaim(f.w.nodes, f.refs, Refs);
    assert f.w.nodes != [] ==> Owes(f.w.nodes[0], Refs);
    assert forall i :: 0 <= i < |f.w.nodes| ==> Owes(f.w.nodes[i], Acks) == f.w.nodes[i].ack;
  }

  lemma SomeClaim(nodes: seq<Node>, held: seq<nat>, k: Book)
    requires forall i :: 0 <= i < |nodes| ==> nodes[i].msg < |held|
    ensures (exists x :: 0 <= x < |held| && Claims(nodes, held, k)[x] > 0) <==>
            (exists x :: 0 <= x < |held| && held[x] > 0) || (exists i :: 0 <= i < |nodes| && Owes(nodes[i], k))
  {
    var c := Claims(nodes, held, k);
    if i :| 0 <= i < |nodes| && Owes(nodes[i], k) {
      SomeOnNodes(nodes, i, k, |nodes|);
      assert c[nodes[i].msg] > 0;
    } else if x :| 0 <= x < |held| && held[x] > 0 {
      assert c[x] > 0;
    } else {
      forall x | 0 <= x < |held|
        ensures c[x] == 0
      {
        NoneOnNodes(nodes, x, k, |nodes|);
      }
    }
  }
}
