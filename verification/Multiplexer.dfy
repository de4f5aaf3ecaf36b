/** Queueing a message into the graph of pipes: the loops of the multiplexer and of the
    destination group, proved to do what LogPath says about the tree of pipes. */
module Multiplexer {
  import opened Wrappers
  import opened Ledger
  import opened LogTree
  import opened LogPath
  import opened PipeGraph

  class Router {
    const pipes: seq<Pipe>
    const sem: Meaning
    const drivers: Drivers
    var world: World

    constructor (pipes: seq<Pipe>, sem: Meaning, drivers: Drivers, world: World)
      ensures this.pipes == pipes && this.sem == sem && this.drivers == drivers && this.world == world
    {
      this.pipes, this.sem, this.drivers, this.world := pipes, sem, drivers, world;
    }

    /** log_multiplexer_init(): is any next hop a fallback branch? */
    method FindFallback(hs: seq<nat>, ghost s: set<nat>, ghost hops: Hops) returns (found: bool)
      requires RepHops(pipes, s, hs, 0, hops)
      ensures found == FallbackExists(hops)
    {
      found := false;
      ghost var rest := hops;
      var i := 0;
      while i < |hs|
        invariant i <= |hs| && RepHops(pipes, s, hs, i, rest)
        invariant FallbackExists(hops) == (found || FallbackExists(rest))
      {
        if pipes[hs[i]].mark.fallback {
          found := true;
        }
        rest := rest.tail;
        i := i + 1;
      }
    }

    /** log_dest_group_queue(): every driver of the group gets a reference and an ack. */
    method QueueGroup(dest: string, m: nat, o: Options)
      requires Sized(world) && m < |world.bodies|
      modifies this
      ensures world == RunDrivers(old(world), m, dest, 0, drivers(dest), o)
    {
      hide RunDriver, Lend;
      var i := 0;
      while i < drivers(dest)
        invariant i <= drivers(dest) && Sized(world) && m < |world.bodies|
        invariant RunDrivers(old(world), m, dest, 0, drivers(dest), o) ==
                    RunDrivers(world, m, dest, i, drivers(dest), o)
      {
        world := Lend(world, m, o);
        world := RunDriver(world, m, dest, i, o);
        i := i + 1;
      }
    }

    /** log_pipe_queue() on pipe `p`; a filter or parser that rejects clears `matched`. */
    method Queue(p: nat, m: nat, o: Options, matched: bool, ghost s: set<nat>, ghost path: Path)
        returns (matched': bool)
      requires Rep(pipes, s, p, path) && Sized(world) && m < |world.bodies|
      modifies this
      ensures var r := RunPath(sem, drivers, old(world), m, path, o);
              world == r.world && matched' == (matched && r.ok)
      decreases path, 0
    {
      hide StoreAll, Drop, RunDrivers, Sized, RunHops;
      match pipes[p].kind {
        case KProc(e) =>
          var effect := sem(e, View(world, m));
          world := StoreAll(world, m, effect.edits);
          if effect.accept {
            matched' := Forward(pipes[p].next, m, o, matched, s, path.rest);
          } else {
            matched' := false;
            world := Drop(world, m, o);
          }
        case KGroup(dest) =>
          QueueGroup(dest, m, o);
          matched' := Forward(pipes[p].next, m, o, matched, s, path.rest);
        case KMpx(hs) =>
          QueueHops(hs, pipes[p].next == None, m, o, s, path.hops);
          matched' := Forward(pipes[p].next, m, o, matched, s, path.rest);
      }
    }

    /** log_pipe_forward_msg(): on to the next pipe, or the message is dropped. */
    method Forward(next: Option<nat>, m: nat, o: Options, matched: bool, ghost s: set<nat>, ghost path: Path)
        returns (matched': bool)
      requires RepNext(pipes, s, next, path) && Sized(world) && m < |world.bodies|
      modifies this
      ensures var r := RunPath(sem, drivers, old(world), m, path, o);
              world == r.world && matched' == (matched && r.ok)
      decreases path, 1
    {
      hide Drop, Sized;
      if next.Some? {
        matched' := Queue(next.value, m, o, matched, s, path);
      } else {
        world := Drop(world, m, o);
        matched' := matched;
      }
    }

    /** Clone or reference, then queue into the hop with `matched` set. */
    method QueueHop(h: nat, last: bool, m: nat, o: Options, ghost s: set<nat>, ghost path: Path) returns (matched: bool)
      requires Rep(pipes, s, h, path) && Sized(world) && m < |world.bodies|
      modifies this
      ensures var r := RunHop(sem, drivers, old(world), m, path, pipes[h].mark, last, o);
              world == r.world && matched == r.ok
      decreases path, 1
    {
      hide Sized, RunPath;
      var mark := pipes[h].mark;
      var local := o;
      if mark.hard {
        local := local.(flow := true);
      }
      var next := m;
      var referenced := world.bodies[m].referenced;
      world := Lend(world, m, local);
      if mark.clone {
        if referenced {
          next := |world.bodies|;
          world := CloneOf(world, m, local);
        } else if !last {
          next := |world.bodies|;
          world := CloneOf(world, m, local);
        }
      }
      matched := Queue(h, next, local, true, s, path);
    }

    /** One round of log_multiplexer_queue()'s outer loop. */
    method QueuePass(hs: seq<nat>, fallback: bool, delivered: bool, end: bool, fx: bool, m: nat, o: Options,
                     ghost s: set<nat>, ghost hops: Hops) returns (delivered': bool)
      requires RepHops(pipes, s, hs, 0, hops) && Sized(world) && m < |world.bodies|
      modifies this
      ensures Out(world, delivered') == RunPass(sem, drivers, old(world), m, hops, fallback, delivered, end, fx, o)
      decreases hops, 0
    {
      hide RunHop, Sized;
      delivered' := delivered;
      ghost var rest := hops;
      var i := 0;
      while i < |hs|
        invariant i <= |hs| && RepHops(pipes, s, hs, i, rest) && Sized(world) && m < |world.bodies|
        invariant rest == hops || rest < hops
        invariant RunPass(sem, drivers, world, m, rest, fallback, delivered', end, fx, o) ==
                  RunPass(sem, drivers, old(world), m, hops, fallback, delivered, end, fx, o)
      {
        var h := hs[i];
        if pipes[h].mark.fallback == fallback {
          var last := end && i == |hs| - 1 && (!fx || delivered' || fallback);
          assert rest.tail.NoHops? <==> i == |hs| - 1;
          var matched := QueueHop(h, last, m, o, s, rest.path);
          if matched {
            delivered' := true;
            if pipes[h].mark.final {
              return;
            }
          }
        }
        rest := rest.tail;
        i := i + 1;
      }
    }

    /** log_multiplexer_queue() up to the final forward. */
    method QueueHops(hs: seq<nat>, end: bool, m: nat, o: Options, ghost s: set<nat>, ghost hops: Hops)
      requires RepHops(pipes, s, hs, 0, hops) && Sized(world) && m < |world.bodies|
      modifies this
      ensures world == RunHops(sem, drivers, old(world), m, hops, end, o)
      decreases hops, 1
    {
      hide RunPass, Sized;
      var fx := FindFallback(hs, s, hops);
      var delivered := QueuePass(hs, false, false, end, fx, m, o, s, hops);
      if fx && !delivered {
        delivered := QueuePass(hs, true, delivered, end, fx, m, o, s, hops);
      }
    }
  }
}
