/** A message travelling through compiled pipes, with the reference and ack counters, the
    copy-on-write parts and the queue nodes it leaves behind. */
module LogPath {
  import opened Wrappers
  import opened Ledger
  import opened LogTree

  /** Name-value table, tags, structured data. */
  const PARTS := 3

  /** The parts of a message: the blocks they live in and which of them it owns
      (LF_STATE_OWN_*); `referenced` is LF_STATE_REFERENCED. */
  datatype Body = Body(blocks: seq<nat>, owns: seq<bool>, referenced: bool)

  /** A message waiting in the queue of driver `driver` of group `dest`; `seen` records
      its contents at the time it was queued. */
  datatype Node = Node(dest: string, driver: nat, msg: nat, ack: bool, flow: bool, seen: Content)

  /** LogPathOptions without `matched`. */
  datatype Options = Options(ack: bool, flow: bool)

  datatype World = World(refs: Ledger, acks: Ledger, bodies: seq<Body>, heap: seq<Block>, nodes: seq<Node>)

  predicate ValidBody(b: Body, heap: nat) {
    |b.blocks| == PARTS && |b.owns| == PARTS && forall k :: 0 <= k < PARTS ==> b.blocks[k] < heap
  }

  /** Message 0 came from the source, the others are its clones. */
  predicate Sized(w: World) {
    && Rooted(w.refs) && Rooted(w.acks)
    && |w.refs.count| == |w.acks.count| == |w.bodies|
    && (forall x :: 0 <= x < |w.bodies| ==> ValidBody(w.bodies[x], |w.heap|))
    && (forall i :: 0 <= i < |w.nodes| ==> w.nodes[i].msg < |w.bodies|)
  }

  function View(w: World, x: nat): Content
    requires Sized(w) && x < |w.bodies|
  {
    seq(PARTS, k requires 0 <= k < PARTS => w.heap[w.bodies[x].blocks[k]])
  }

  // ----- operations on messages

  function Unit(o: Options): nat { if o.ack then 1 else 0 }

  /** Another reference to `m`, with an ack if this path needs one. */
  function Lend(w: World, m: nat, o: Options): (r: World)
    requires Sized(w) && m < |w.bodies|
    ensures Sized(r)
  {
    w.(refs := Give(w.refs, m, 1), acks := Give(w.acks, m, Unit(o)))
  }

  /** log_msg_ack() followed by log_msg_unref(). */
  function Drop(w: World, m: nat, o: Options): (r: World)
    requires Sized(w) && m < |w.bodies|
    ensures Sized(r)
  {
    w.(refs := Take(w.refs, m), acks := if o.ack then Take(w.acks, m) else w.acks)
  }

  /** A copy-on-write clone of `m`, which takes over a reference to `m` and an ack. */
  function CloneOf(w: World, m: nat, o: Options): (r: World)
    requires Sized(w) && m < |w.bodies|
    ensures Sized(r)
  {
    var b := w.bodies[m];
    w.(refs := Spawn(w.refs, m, 1), acks := Spawn(w.acks, m, Unit(o)),
       bodies := w.bodies[m := b.(referenced := true)] + [Body(b.blocks, seq(PARTS, _ => false), false)])
  }

  /** log_queue_push_tail(): the queue node holds a reference and owes the ack. */
  function Enqueue(w: World, m: nat, dest: string, driver: nat, o: Options): (r: World)
    requires Sized(w) && m < |w.bodies|
    ensures Sized(r)
  {
    w.(refs := Give(w.refs, m, 1), acks := Give(w.acks, m, Unit(o)),
       bodies := w.bodies[m := w.bodies[m].(referenced := true)],
       nodes := w.nodes + [Node(dest, driver, m, o.ack, o.flow, View(w, m))])
  }

  /** log_msg_break_ack(): the ack of this path, if any, is given early. */
  function BreakAck(w: World, m: nat, o: Options): (r: World)
    requires Sized(w) && m < |w.bodies|
    ensures Sized(r)
  {
    if o.ack then w.(acks := Take(w.acks, m)) else w
  }

  /** One store into a part of `m`: in place if `m` owns the block, else into a copy. */
  function Store(w: World, m: nat, e: Edit): (r: World)
    requires Sized(w) && m < |w.bodies|
    ensures Sized(r) && |r.bodies| == |w.bodies|
  {
    var b := w.bodies[m];
    if e.part >= PARTS then w
    else if b.owns[e.part] then w.(heap := w.heap[b.blocks[e.part] := e.value])
    else w.(heap := w.heap + [e.value],
            bodies := w.bodies[m := b.(blocks := b.blocks[e.part := |w.heap|], owns := b.owns[e.part := true])])
  }

  function StoreAll(w: World, m: nat, edits: seq<Edit>): (r: World)
    requires Sized(w) && m < |w.bodies|
    ensures Sized(r) && |r.bodies| == |w.bodies|
    decreases |edits|
  {
    if edits == [] then w
    else Store(StoreAll(w, m, edits[..|edits| - 1]), m, edits[|edits| - 1])
  }

  // ----- pipes

  /** A queueing destination driver: without flow control the ack is given at once and
      neither the node nor the rest of the path owes one. */
  function RunDriver(w: World, m: nat, dest: string, driver: nat, o: Options): (r: World)
    requires Sized(w) && m < |w.bodies|
    ensures Sized(r) && |r.bodies| == |w.bodies|
  {
    var w1 := if o.flow then w else BreakAck(w, m, o);
    var o1 := if o.flow then o else o.(ack := false);
    Drop(Enqueue(w1, m, dest, driver, o1), m, o1)
  }

  /** The drivers of a destination group from `i` on. */
  function RunDrivers(w: World, m: nat, dest: string, i: nat, n: nat, o: Options): (r: World)
    requires Sized(w) && m < |w.bodies| && i <= n
    ensures Sized(r) && |r.bodies| == |w.bodies|
    decreases n - i
  {
    if i == n then w else RunDrivers(RunDriver(Lend(w, m, o), m, dest, i, o), m, dest, i + 1, n, o)
  }

  /** The world after a call, and `matched` or `delivered`. */
  datatype Out = Out(world: World, ok: bool)

  /** Queueing `m` into the first pipe of `p`. */
  function RunPath(sem: Meaning, g: Drivers, w: World, m: nat, p: Path, o: Options): (r: Out)
    requires Sized(w) && m < |w.bodies|
    ensures Sized(r.world) && |r.world.bodies| >= |w.bodies|
    decreases p, 0
  {
    match p
    case End => Out(Drop(w, m, o), true)
    case Proc(e, rest) =>
      var r := sem(e, View(w, m));
      var w1 := StoreAll(w, m, r.edits);
      if r.accept then RunPath(sem, g, w1, m, rest, o) else Out(Drop(w1, m, o), false)
    case Group(d, rest) => RunPath(sem, g, RunDrivers(w, m, d, 0, g(d), o), m, rest, o)
    case Mpx(hops, rest) => RunPath(sem, g, RunHops(sem, g, w, m, hops, rest.End?, o), m, rest, o)
  }

  /** Handing `m` to one hop; `last` tells that nobody uses `m` after this hop. */
  function RunHop(sem: Meaning, g: Drivers, w: World, m: nat, p: Path, mark: Mark, last: bool, o: Options): (r: Out)
    requires Sized(w) && m < |w.bodies|
    ensures Sized(r.world) && |r.world.bodies| >= |w.bodies|
    decreases p, 1
  {
    var o1 := o.(flow := o.flow || mark.hard);
    var w1 := Lend(w, m, o1);
    if mark.clone && (w.bodies[m].referenced || !last)
    then RunPath(sem, g, CloneOf(w1, m, o1), |w.bodies|, p, o1)
    else RunPath(sem, g, w1, m, p, o1)
  }

  /** One pass over the hops; `end` tells that the multiplexer has no pipe_next. */
  function RunPass(sem: Meaning, g: Drivers, w: World, m: nat, hops: Hops, fallback: bool, delivered: bool,
                   end: bool, fallbackExists: bool, o: Options): (r: Out)
    requires Sized(w) && m < |w.bodies|
    ensures Sized(r.world) && |r.world.bodies| >= |w.bodies|
    decreases hops, 0
  {
    match hops
    case NoHops => Out(w, delivered)
    case Hop(path, mark, tail) =>
      if mark.fallback != fallback then
        RunPass(sem, g, w, m, tail, fallback, delivered, end, fallbackExists, o)
      else
        var last := end && tail.NoHops? && (!fallbackExists || delivered || fallback);
        var r := RunHop(sem, g, w, m, path, mark, last, o);
        if r.ok && mark.final then r
        else RunPass(sem, g, r.world, m, tail, fallback, delivered || r.ok, end, fallbackExists, o)
  }

  function RunHops(sem: Meaning, g: Drivers, w: World, m: nat, hops: Hops, end: bool, o: Options): (r: World)
    requires Sized(w) && m < |w.bodies|
    ensures Sized(r) && |r.bodies| >= |w.bodies|
    decreases hops, 1
  {
    var fx := FallbackExists(hops);
    var first := RunPass(sem, g, w, m, hops, false, false, end, fx, o);
    if fx && !first.ok then RunPass(sem, g, first.world, m, hops, true, false, end, fx, o).world else first.world
  }
}
