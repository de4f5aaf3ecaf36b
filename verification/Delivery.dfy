/** Compiler and run time together: a message queued at a source ends up where the log
    statements say. */
module Delivery {
  import opened Wrappers
  import opened LogTree
  import opened LogPath
  import opened Sharing
  import opened PathCounts
  import opened PathIsolation
  import opened Pipeline
  import opened PipeGraph
  import opened LogCenter
  import opened Multiplexer

  /** After log_center_init() a source hands a message with contents `c` to its multiplexer:
      if the pipes of the statements it feeds keep their branches apart, the queues of the
      destination drivers receive exactly the mails that reading those statements gives, in
      that order, and when the routing is over every queued message still is what it was when
      it was queued. */
  method Deliver(center: Center, conns: seq<Stmt>, name: string, sem: Meaning, ghost can: Answers, drivers: Drivers,
                 c: Content)
    returns (w: World)
    requires center.Connected(conns, name) && Obeys(sem, can) && |c| == PARTS
    requires Apart(center.cfg, can, drivers, Feeding(conns, name, |conns|))
    ensures Sized(w) && Shown(w.nodes) ==
              Posted(drivers, SourceEvents(center.cfg, sem, Feeding(conns, name, |conns|), c))
    ensures forall i :: 0 <= i < |w.nodes| ==> View(w, w.nodes[i].msg) == w.nodes[i].seen
    ensures RightlyFed(conns, name, Feeding(conns, name, |conns|))
  {
    hide RunPath, HopsFine, SourceEvents, Posted, Feeding, RepHops, CompileForks, Obeys, RightlyFed;
    AllRightlyFed(conns);
    ghost var branches := Feeding(conns, name, |conns|);
    ghost var hops := CompileForks(center.cfg, FromSource(branches), true, 0).value;
    var x := center.pipes[center.at.sources[name]].next.value;
    var router := new Router(center.pipes, sem, drivers, Start(c));
    ghost var s := center.sealed + {x};
    Enter(center.pipes, center.sealed, x, hops);
    var matched := router.Queue(x, 0, Options(true, false), true, s, Mpx(hops, End));
    SourceDelivers(center.cfg, sem, can, drivers, branches, c);
    w := router.world;
  }

  lemma Enter(g: seq<Pipe>, s: set<nat>, x: nat, hops: Hops)
    requires x < |g| && g[x].kind.KMpx? && g[x].next == None && RepHops(g, s, g[x].kind.hops, 0, hops)
    ensures Rep(g, s + {x}, x, Mpx(hops, End))
  {
    HopsKept(g, s, g, s + {x}, g[x].kind.hops, 0, hops);
    assert RepNext(g, s + {x}, None, End);
  }
}
