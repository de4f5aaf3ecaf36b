/** What the destinations see: copy-on-write clones keep the branches of a tree of pipes
    apart, as long as whatever is changed in place is not used afterwards. */
module PathIsolation {
  import opened Wrappers
  import opened Ledger
  import opened LogTree
  import opened LogPath
  import opened Sharing

  // ----- invariants of the store

  /** An owned block is used by nobody else unless its owner is marked as referenced, and
      then only by messages that do not own it. */
  predicate Private(w: World)
    requires Sized(w)
  {
    forall x, y, k, l :: 0 <= x < |w.bodies| && 0 <= y < |w.bodies| && 0 <= k < PARTS && 0 <= l < PARTS &&
                         w.bodies[x].owns[k] && w.bodies[x].blocks[k] == w.bodies[y].blocks[l] ==>
                         (x == y && k == l) || (x != y && w.bodies[x].referenced && !w.bodies[y].owns[l])
  }

  /** Every queued message is marked as referenced and still what it was when queued. */
  predicate Kept(w: World)
    requires Sized(w)
  {
    forall i :: 0 <= i < |w.nodes| ==>
                  w.bodies[w.nodes[i].msg].referenced && View(w, w.nodes[i].msg) == w.nodes[i].seen
  }

  predicate Good(w: World) { Sized(w) && Private(w) && Kept(w) }

  /** From `w` to `r` no message changed, except `m` where `loose` allows it. */
  predicate Frame(w: World, r: World, m: nat, loose: bool) {
    && Sized(w) && Sized(r) && |w.bodies| <= |r.bodies|
    && forall y :: 0 <= y < |w.bodies| ==>
         && (w.bodies[y].referenced ==> r.bodies[y].referenced)
         && (y != m || !loose ==> View(r, y) == View(w, y))
  }

  lemma FrameTrans(a: World, b: World, c: World, m: nat, l1: bool, l2: bool, l: bool)
    requires Frame(a, b, m, l1) && Frame(b, c, m, l2) && (l1 || l2 ==> l)
    ensures Frame(a, c, m, l)
  {
  }

  /** Whatever happens to a message that did not exist before does not show. */
  lemma FrameFresh(a: World, b: World, c: World, m: nat, n: nat, l1: bool, l2: bool)
    requires Frame(a, b, m, l1) && Frame(b, c, n, l2) && n >= |a.bodies|
    ensures Frame(a, c, m, l1)
  {
  }

  lemma FrameAt(w: World, r: World, m: nat, loose: bool)
    requires Frame(w, r, m, loose) && m < |w.bodies|
    ensures m < |r.bodies| && (w.bodies[m].referenced ==> r.bodies[m].referenced)
    ensures !loose ==> View(r, m) == View(w, m)
  {
  }

  // ----- operations on messages

  lemma ViewSame(w: World, r: World, x: nat)
    requires Sized(w) && Sized(r) && x < |w.bodies| && x < |r.bodies|
    requires r.heap == w.heap && r.bodies[x].blocks == w.bodies[x].blocks
    ensures View(r, x) == View(w, x)
  {
  }

  /** Counters do not matter here. */
  lemma CountersGood(w: World, r: World, m: nat)
    requires Good(w) && Sized(r) && r.bodies == w.bodies && r.heap == w.heap && r.nodes == w.nodes
    ensures Good(r) && Frame(w, r, m, false) && (m < |w.bodies| ==> View(r, m) == View(w, m))
  {
    forall x | 0 <= x < |w.bodies|
      ensures View(r, x) == View(w, x)
    {
      ViewSame(w, r, x);
    }
  }

  lemma CloneGood(w: World, m: nat, o: Options)
    requires Good(w) && m < |w.bodies|
    ensures var r := CloneOf(w, m, o);
            && Good(r) && Frame(w, r, m, false) && r.nodes == w.nodes
            && |r.bodies| == |w.bodies| + 1 && View(r, |w.bodies|) == View(w, m) && !r.bodies[|w.bodies|].referenced
  {
    var r := CloneOf(w, m, o);
    forall x | 0 <= x < |w.bodies|
      ensures View(r, x) == View(w, x)
    {
      ViewSame(w, r, x);
    }
    assert View(r, |w.bodies|) == View(w, m);
  }

  lemma EnqueueGood(w: World, m: nat, d: string, i: nat, o: Options)
    requires Good(w) && m < |w.bodies|
    ensures var r := Enqueue(w, m, d, i, o);
            && Good(r) && Frame(w, r, m, false) && View(r, m) == View(w, m)
            && r.nodes == w.nodes + [Node(d, i, m, o.ack, o.flow, View(w, m))]
  {
    var r := Enqueue(w, m, d, i, o);
    forall x | 0 <= x < |w.bodies|
      ensures View(r, x) == View(w, x)
    {
      ViewSame(w, r, x);
    }
  }

  lemma StorePrivate(w: World, m: nat, e: Edit)
    requires Sized(w) && Private(w) && m < |w.bodies| && !w.bodies[m].referenced
    ensures Private(Store(w, m, e)) && View(Store(w, m, e), m) == Stored(View(w, m), e)
    ensures forall y :: 0 <= y < |w.bodies| ==> Store(w, m, e).bodies[y].referenced == w.bodies[y].referenced
  {
  }

  lemma StoreElsewhere(w: World, m: nat, e: Edit, y: nat)
    requires Sized(w) && Private(w) && m < |w.bodies| && !w.bodies[m].referenced && y < |w.bodies| && y != m
    ensures View(Store(w, m, e), y) == View(w, y)
  {
  }

  /** A store into a message that is not marked as referenced is seen by nobody else. */
  lemma StoreGood(w: World, m: nat, e: Edit)
    requires Good(w) && m < |w.bodies| && !w.bodies[m].referenced
    ensures var r := Store(w, m, e);
            && Good(r) && Frame(w, r, m, true) && r.nodes == w.nodes
            && !r.bodies[m].referenced && View(r, m) == Stored(View(w, m), e)
  {
    hide Private, View;
    var r := Store(w, m, e);
    StorePrivate(w, m, e);
    forall y | 0 <= y < |w.bodies| && y != m
      ensures View(r, y) == View(w, y)
    {
      StoreElsewhere(w, m, e, y);
    }
  }

  lemma {:induction false} StoreAllGood(w: World, m: nat, edits: seq<Edit>)
    requires Good(w) && m < |w.bodies| && (edits != [] ==> !w.bodies[m].referenced)
    ensures var r := StoreAll(w, m, edits);
            && Good(r) && Frame(w, r, m, edits != []) && r.nodes == w.nodes
            && r.bodies[m].referenced == w.bodies[m].referenced && View(r, m) == Edited(View(w, m), edits)
    decreases |edits|
  {
    if edits != [] {
      var before := edits[..|edits| - 1];
      StoreAllGood(w, m, before);
      StoreGood(StoreAll(w, m, before), m, edits[|edits| - 1]);
      FrameTrans(w, StoreAll(w, m, before), StoreAll(w, m, edits), m, before != [], true, true);
    }
  }

  // ----- trees of pipes

  /** What a destination driver finds in its queue. */
  datatype Mail = Mail(dest: string, driver: nat, flow: bool, content: Content)

  function Shown(nodes: seq<Node>): seq<Mail> {
    seq(|nodes|, i requires 0 <= i < |nodes| => Mail(nodes[i].dest, nodes[i].driver, nodes[i].flow, nodes[i].seen))
  }

  /** One mail for each driver from `i` to `n`. */
  function Copies(e: Event, i: nat, n: nat): seq<Mail>
    requires i <= n
    decreases n - i
  {
    if i == n then [] else [Mail(e.dest, i, e.flow, e.content)] + Copies(e, i + 1, n)
  }

  /** A delivery to a group is a mail for each of its drivers. */
  function Posted(g: Drivers, events: seq<Event>): seq<Mail> {
    if events == [] then [] else Copies(events[0], 0, g(events[0].dest)) + Posted(g, events[1..])
  }

  lemma {:induction false} PostedTwo(g: Drivers, a: seq<Event>, b: seq<Event>)
    ensures Posted(g, a + b) == Posted(g, a) + Posted(g, b)
  {
    hide Copies;
    if a == [] {
      assert a + b == b;
    } else {
      assert (a + b)[1..] == a[1..] + b;
      PostedTwo(g, a[1..], b);
      Regrouped(Copies(a[0], 0, g(a[0].dest)), Posted(g, a[1..]), Posted(g, b));
    }
  }

  lemma {:induction false} CopyOf(e: Event, i: nat, n: nat, k: nat)
    requires i <= n
    ensures |Copies(e, i, n)| == n - i
    ensures k < n - i ==> Copies(e, i, n)[k] == Mail(e.dest, i + k, e.flow, e.content)
    decreases n - i
  {
    if i < n {
      CopyOf(e, i + 1, n, if k > 0 then k - 1 else 0);
    }
  }

  /** Every driver of the group of every delivery gets it ... */
  lemma {:induction false} EveryDriver(g: Drivers, events: seq<Event>, e: Event, i: nat)
    requires e in events && i < g(e.dest)
    ensures Mail(e.dest, i, e.flow, e.content) in Posted(g, events)
  {
    var mails := Copies(events[0], 0, g(events[0].dest));
    if events[0] == e {
      CopyOf(e, 0, g(e.dest), i);
      assert mails[i] in mails;
    } else {
      EveryDriver(g, events[1..], e, i);
    }
  }

  /** ... and nothing else is in the queues. */
  lemma {:induction false} MailOf(g: Drivers, events: seq<Event>, k: nat) returns (e: Event)
    requires k < |Posted(g, events)|
    ensures e in events
    ensures var m := Posted(g, events)[k]; m == Mail(e.dest, m.driver, e.flow, e.content) && m.driver < g(e.dest)
  {
    var mails := Copies(events[0], 0, g(events[0].dest));
    CopyOf(events[0], 0, g(events[0].dest), k);
    if k < |mails| {
      e := events[0];
    } else {
      e := MailOf(g, events[1..], k - |mails|);
    }
  }

  lemma Regrouped(a: seq<Mail>, b: seq<Mail>, c: seq<Mail>)
    ensures a + (b + c) == a + b + c
  {
  }

  /** The queues of `r` hold those of `w` and the mails of `events`. */
  predicate Delivers(g: Drivers, w: World, r: World, events: seq<Event>) {
    Shown(r.nodes) == Shown(w.nodes) + Posted(g, events)
  }

  lemma DeliversTwo(g: Drivers, a: World, b: World, c: World, e1: seq<Event>, e2: seq<Event>)
    requires Delivers(g, a, b, e1) && Delivers(g, b, c, e2)
    ensures Delivers(g, a, c, e1 + e2)
  {
    PostedTwo(g, e1, e2);
  }

  lemma DriverGood(w: World, m: nat, d: string, i: nat, o: Options)
    requires Good(w) && m < |w.bodies|
    ensures var r := RunDriver(Lend(w, m, o), m, d, i, o);
            && Good(r) && Frame(w, r, m, false) && r.bodies[m].referenced
            && Shown(r.nodes) == Shown(w.nodes) + [Mail(d, i, o.flow, View(w, m))]
  {
    hide Private, Kept;
    var w0 := Lend(w, m, o);
    CountersGood(w, w0, m);
    var w1 := if o.flow then w0 else BreakAck(w0, m, o);
    CountersGood(w0, w1, m);
    var o1 := if o.flow then o else o.(ack := false);
    EnqueueGood(w1, m, d, i, o1);
    var w2 := Enqueue(w1, m, d, i, o1);
    CountersGood(w2, Drop(w2, m, o1), m);
  }

  lemma {:induction false} DriversGood(w: World, m: nat, d: string, i: nat, n: nat, o: Options)
    requires Good(w) && m < |w.bodies| && i <= n
    ensures var r := RunDrivers(w, m, d, i, n, o);
            && Good(r) && Frame(w, r, m, false) && r.bodies[m].referenced == (w.bodies[m].referenced || i < n)
            && Shown(r.nodes) == Shown(w.nodes) + Copies(Event(d, View(w, m), o.flow), i, n)
    decreases n - i
  {
    hide Private, Kept, Frame, Sized, Shown;
    CountersGood(w, w, m);
    if i < n {
      DriverGood(w, m, d, i, o);
      var w1 := RunDriver(Lend(w, m, o), m, d, i, o);
      FrameAt(w, w1, m, false);
      DriversGood(w1, m, d, i + 1, n, o);
      Regrouped(Shown(w.nodes), [Mail(d, i, o.flow, View(w, m))], Copies(Event(d, View(w, m), o.flow), i + 1, n));
      FrameTrans(w, w1, RunDrivers(w, m, d, i, n, o), m, false, false, false);
    }
  }

  lemma GroupGood(g: Drivers, w: World, m: nat, d: string, o: Options)
    requires Good(w) && m < |w.bodies|
    ensures var r := RunDrivers(w, m, d, 0, g(d), o);
            && Good(r) && Frame(w, r, m, false) && r.bodies[m].referenced == (w.bodies[m].referenced || g(d) > 0)
            && Delivers(g, w, r, [Event(d, View(w, m), o.flow)])
  {
    hide Private, Kept, Frame, Sized, Shown, Copies;
    DriversGood(w, m, d, 0, g(d), o);
    assert Posted(g, []) == [];
    var e := Event(d, View(w, m), o.flow);
    assert [e][1..] == [];
    assert Posted(g, [e]) == Copies(e, 0, g(d)) + Posted(g, []);
  }

  // ----- branches that reach no driver

  lemma SamePosted(g: Drivers, w: World, r: World, e1: seq<Event>, e2: seq<Event>)
    requires Delivers(g, w, r, e1) && Posted(g, e1) == Posted(g, e2)
    ensures Delivers(g, w, r, e2)
  {
  }

  lemma {:induction false} SureMatches(sem: Meaning, can: Answers, p: Path, c: Content, flow: bool)
    requires Obeys(sem, can) && Sure(can, p)
    ensures ReadPath(sem, p, c, flow).matched
  {
    match p
    case End =>
    case Proc(e, rest) => SureMatches(sem, can, rest, Edited(c, sem(e, c).edits), flow);
    case Group(_, rest) => SureMatches(sem, can, rest, c, flow);
    case Mpx(_, rest) => SureMatches(sem, can, rest, c, flow);
  }

  lemma {:induction false} TakenMatches(sem: Meaning, can: Answers, hops: Hops, c: Content, flow: bool)
    requires Obeys(sem, can) && SureTaken(can, hops)
    ensures Pass(sem, hops, false, c, flow).matched
    decreases hops
  {
    if !hops.mark.fallback && Sure(can, hops.path) {
      SureMatches(sem, can, hops.path, c, flow || hops.mark.hard);
    } else {
      TakenMatches(sem, can, hops.tail, c, flow);
    }
  }

  lemma {:induction false} IdlePosts(sem: Meaning, can: Answers, g: Drivers, p: Path, c: Content, flow: bool)
    requires Obeys(sem, can) && Idle(can, g, p)
    ensures Posted(g, ReadPath(sem, p, c, flow).events) == []
    decreases p, 0
  {
    match p
    case End =>
    case Proc(e, rest) =>
      if sem(e, c).accept {
        IdlePosts(sem, can, g, rest, Edited(c, sem(e, c).edits), flow);
      }
    case Group(d, rest) =>
      IdlePosts(sem, can, g, rest, c, flow);
      var e := Event(d, c, flow);
      assert ([e] + ReadPath(sem, rest, c, flow).events)[1..] == ReadPath(sem, rest, c, flow).events;
      assert Copies(e, 0, g(d)) == [];
    case Mpx(hops, rest) =>
      IdlePosts(sem, can, g, rest, c, flow);
      IdleHops(sem, can, g, hops, c, flow);
      PostedTwo(g, ReadHops(sem, hops, c, flow), ReadPath(sem, rest, c, flow).events);
  }

  lemma {:induction false} IdleHops(sem: Meaning, can: Answers, g: Drivers, hops: Hops, c: Content, flow: bool)
    requires Obeys(sem, can) && SortIdle(can, g, hops, false) && (MayFall(can, hops) ==> SortIdle(can, g, hops, true))
    ensures Posted(g, ReadHops(sem, hops, c, flow)) == []
    decreases hops, 1
  {
    hide Posted, SortIdle, SureTaken;
    IdlePass(sem, can, g, hops, false, c, flow);
    if MayFall(can, hops) {
      IdlePass(sem, can, g, hops, true, c, flow);
      PostedTwo(g, Pass(sem, hops, false, c, flow).events, Pass(sem, hops, true, c, flow).events);
    } else if FallbackExists(hops) {
      TakenMatches(sem, can, hops, c, flow);
    }
  }

  lemma {:induction false} IdlePass(sem: Meaning, can: Answers, g: Drivers, hops: Hops, fallback: bool, c: Content,
                                    flow: bool)
    requires Obeys(sem, can) && SortIdle(can, g, hops, fallback)
    ensures Posted(g, Pass(sem, hops, fallback, c, flow).events) == []
    decreases hops, 0
  {
    if hops.Hop? {
      if hops.mark.fallback != fallback {
        IdlePass(sem, can, g, hops.tail, fallback, c, flow);
      } else {
        IdlePosts(sem, can, g, hops.path, c, flow || hops.mark.hard);
        if Stops(can, hops.path, hops.mark) {
          SureMatches(sem, can, hops.path, c, flow || hops.mark.hard);
        } else {
          IdlePass(sem, can, g, hops.tail, fallback, c, flow);
          PostedTwo(g, ReadPath(sem, hops.path, c, flow || hops.mark.hard).events,
              Pass(sem, hops.tail, fallback, c, flow).events);
        }
      }
    }
  }

  // ----- isolation

  /** The message `m` leaves from `w` to `r` as `x` says. */
  predicate Left(w: World, r: World, m: nat, x: Exit) {
    Good(r) && Frame(w, r, m, x.dirty) && m < |r.bodies| && r.bodies[m].referenced == x.ref
  }

  /** Every destination below `p` gets the message as a reader of the pipes expects it and
      keeps it unchanged; of the other messages only `m` may change, and only if one of the
      ways out says so. */
  lemma {:induction false} PathIsolated(sem: Meaning, can: Answers, g: Drivers, w: World, m: nat, p: Path, o: Options)
      returns (x: Exit)
    requires Obeys(sem, can) && Good(w) && m < |w.bodies| && Fine(can, g, p, w.bodies[m].referenced)
    ensures x in Exits(can, g, p, w.bodies[m].referenced)
    ensures var r := RunPath(sem, g, w, m, p, o);
            var rd := ReadPath(sem, p, View(w, m), o.flow);
            Left(w, r.world, m, x) && r.ok == x.ok == rd.matched && Delivers(g, w, r.world, rd.events)
    decreases p, 1
  {
    hide Private, Kept, Frame, Delivers, Sized, Obeys;
    match p
    case End =>
      DropIsolated(g, w, m, o);
      x := Exit(true, w.bodies[m].referenced, false);
    case Proc(e, rest) => x := ProcIsolated(sem, can, g, w, m, e, rest, o);
    case Group(d, rest) =>
      GroupGood(g, w, m, d, o);
      var w1 := RunDrivers(w, m, d, 0, g(d), o);
      FrameAt(w, w1, m, false);
      x := PathIsolated(sem, can, g, w1, m, rest, o);
      Joined(g, w, w1, RunPath(sem, g, w1, m, rest, o).world, m, false, x.dirty, x.dirty,
             [Event(d, View(w, m), o.flow)], ReadPath(sem, rest, View(w, m), o.flow).events);
    case Mpx(_, _) => x := MpxIsolated(sem, can, g, w, m, p, o);
  }

  lemma {:induction false} MpxIsolated(sem: Meaning, can: Answers, g: Drivers, w: World, m: nat, p: Path, o: Options)
      returns (x: Exit)
    requires Obeys(sem, can) && Good(w) && m < |w.bodies| && p.Mpx? && Fine(can, g, p, w.bodies[m].referenced)
    ensures x in Exits(can, g, p, w.bodies[m].referenced)
    ensures var r := RunPath(sem, g, w, m, p, o);
            var rd := ReadPath(sem, p, View(w, m), o.flow);
            Left(w, r.world, m, x) && r.ok == x.ok == rd.matched && Delivers(g, w, r.world, rd.events)
    decreases p, 0
  {
    hide Private, Kept, Frame, Delivers, Sized, Obeys, HopsFine, HopsExits, RunHops, ReadHops;
    var hops, rest := p.hops, p.rest;
    var h := HopsIsolated(sem, can, g, w, m, hops, rest.End?, o);
    var w1 := RunHops(sem, g, w, m, hops, rest.End?, o);
    FrameAt(w, w1, m, h.dirty);
    var y := PathIsolated(sem, can, g, w1, m, rest, o);
    x := y.After(h.dirty);
    assert ReadPath(sem, rest, View(w1, m), o.flow) == ReadPath(sem, rest, View(w, m), o.flow);
    Joined(g, w, w1, RunPath(sem, g, w1, m, rest, o).world, m, h.dirty, y.dirty, x.dirty,
           ReadHops(sem, hops, View(w, m), o.flow), ReadPath(sem, rest, View(w, m), o.flow).events);
  }

  lemma DropIsolated(g: Drivers, w: World, m: nat, o: Options)
    requires Good(w) && m < |w.bodies|
    ensures Good(Drop(w, m, o)) && Frame(w, Drop(w, m, o), m, false) && Delivers(g, w, Drop(w, m, o), [])
  {
    CountersGood(w, Drop(w, m, o), m);
  }

  lemma {:induction false} ProcIsolated(sem: Meaning, can: Answers, g: Drivers, w: World, m: nat, e: Elem, rest: Path,
                                        o: Options)
      returns (x: Exit)
    requires Obeys(sem, can) && Good(w) && m < |w.bodies| && Fine(can, g, Proc(e, rest), w.bodies[m].referenced)
    ensures x in Exits(can, g, Proc(e, rest), w.bodies[m].referenced)
    ensures var r := RunPath(sem, g, w, m, Proc(e, rest), o);
            var rd := ReadPath(sem, Proc(e, rest), View(w, m), o.flow);
            Left(w, r.world, m, x) && r.ok == x.ok == rd.matched && Delivers(g, w, r.world, rd.events)
    decreases rest, 2
  {
    hide Private, Kept, Frame, Delivers, Sized;
    var r := sem(e, View(w, m));
    StoreAllGood(w, m, r.edits);
    var w1 := StoreAll(w, m, r.edits);
    FrameAt(w, w1, m, r.edits != []);
    NothingNew(g, w, w1);
    assert can(e, r.accept);
    if r.accept {
      var y := PathIsolated(sem, can, g, w1, m, rest, o);
      x := y.After(e.writes);
      Joined(g, w, w1, RunPath(sem, g, w1, m, rest, o).world, m, r.edits != [], y.dirty, x.dirty, [],
             ReadPath(sem, rest, View(w1, m), o.flow).events);
      assert [] + ReadPath(sem, rest, View(w1, m), o.flow).events == ReadPath(sem, rest, View(w1, m), o.flow).events;
    } else {
      x := Exit(false, w.bodies[m].referenced, e.writes);
      DropIsolated(g, w1, m, o);
      FrameTrans(w, w1, Drop(w1, m, o), m, r.edits != [], false, e.writes);
      DeliversTwo(g, w, w1, Drop(w1, m, o), [], []);
      var none: seq<Event> := [];
      assert none + none == none;
    }
  }

  lemma NothingNew(g: Drivers, w: World, r: World)
    requires r.nodes == w.nodes
    ensures Delivers(g, w, r, [])
  {
  }

  /** A hop gets the contents the message has now, as a clone or the message itself. */
  lemma {:induction false} HopIsolated(sem: Meaning, can: Answers, g: Drivers, w: World, m: nat, p: Path, mark: Mark,
                                       last: bool, o: Options) returns (x: Exit)
    requires Obeys(sem, can) && Good(w) && m < |w.bodies|
    requires Fine(can, g, p, !Clones(mark, last, w.bodies[m].referenced) && w.bodies[m].referenced)
    ensures x in HopExits(can, g, p, mark, last, w.bodies[m].referenced)
    ensures var r := RunHop(sem, g, w, m, p, mark, last, o);
            var rd := ReadPath(sem, p, View(w, m), o.flow || mark.hard);
            Left(w, r.world, m, x) && r.ok == x.ok == rd.matched && Delivers(g, w, r.world, rd.events)
    decreases p, 3
  {
    hide Private, Kept, Frame, Delivers, Sized, RunPath, ReadPath, Obeys, Fine, Exits;
    var o1 := o.(flow := o.flow || mark.hard);
    if Clones(mark, last, w.bodies[m].referenced) {
      var y := CloneIsolated(sem, can, g, w, m, p, o1);
      x := Exit(y.ok, true, false);
    } else {
      x := LentIsolated(sem, can, g, w, m, p, o1);
    }
  }

  /** The hop gets a clone. */
  lemma {:induction false} CloneIsolated(sem: Meaning, can: Answers, g: Drivers, w: World, m: nat, p: Path, o: Options)
      returns (y: Exit)
    requires Obeys(sem, can) && Good(w) && m < |w.bodies| && Fine(can, g, p, false)
    ensures y in Exits(can, g, p, false)
    ensures var r := RunPath(sem, g, CloneOf(Lend(w, m, o), m, o), |w.bodies|, p, o);
            var rd := ReadPath(sem, p, View(w, m), o.flow);
            && Left(w, r.world, m, Exit(y.ok, true, false))
            && r.ok == y.ok == rd.matched && Delivers(g, w, r.world, rd.events)
    decreases p, 2
  {
    hide Private, Kept, Frame, Delivers, Sized, RunPath, ReadPath, Obeys;
    LendClone(g, w, m, o);
    var w2 := CloneOf(Lend(w, m, o), m, o);
    y := PathIsolated(sem, can, g, w2, |w.bodies|, p, o);
    var r := RunPath(sem, g, w2, |w.bodies|, p, o);
    var events := ReadPath(sem, p, View(w, m), o.flow).events;
    FrameStill(w2, r.world, |w.bodies|, y.dirty, m);
    FrameFresh(w, w2, r.world, m, |w.bodies|, false, y.dirty);
    DeliversTwo(g, w, w2, r.world, [], events);
    assert [] + events == events;
  }

  lemma FrameStill(w: World, r: World, m: nat, loose: bool, y: nat)
    requires Frame(w, r, m, loose) && y < |w.bodies| && w.bodies[y].referenced
    ensures y < |r.bodies| && r.bodies[y].referenced
  {
  }

  /** The hop gets the message itself. */
  lemma {:induction false} LentIsolated(sem: Meaning, can: Answers, g: Drivers, w: World, m: nat, p: Path, o: Options)
      returns (x: Exit)
    requires Obeys(sem, can) && Good(w) && m < |w.bodies| && Fine(can, g, p, w.bodies[m].referenced)
    ensures x in Exits(can, g, p, w.bodies[m].referenced)
    ensures var r := RunPath(sem, g, Lend(w, m, o), m, p, o);
            var rd := ReadPath(sem, p, View(w, m), o.flow);
            Left(w, r.world, m, x) && r.ok == x.ok == rd.matched && Delivers(g, w, r.world, rd.events)
    decreases p, 2
  {
    hide Private, Kept, Frame, Delivers, Sized, RunPath, ReadPath, Obeys;
    LendOnly(g, w, m, o);
    var w1 := Lend(w, m, o);
    x := PathIsolated(sem, can, g, w1, m, p, o);
    var r := RunPath(sem, g, w1, m, p, o);
    var events := ReadPath(sem, p, View(w, m), o.flow).events;
    Joined(g, w, w1, r.world, m, false, x.dirty, x.dirty, [], events);
    assert [] + events == events;
  }

  lemma LendOnly(g: Drivers, w: World, m: nat, o: Options)
    requires Good(w) && m < |w.bodies|
    ensures var r := Lend(w, m, o);
            && Good(r) && Frame(w, r, m, false) && Delivers(g, w, r, []) && m < |r.bodies|
            && r.bodies[m] == w.bodies[m] && View(r, m) == View(w, m)
  {
    hide Private, Kept, Frame, Sized;
    CountersGood(w, Lend(w, m, o), m);
  }

  lemma LendClone(g: Drivers, w: World, m: nat, o: Options)
    requires Good(w) && m < |w.bodies|
    ensures var r := CloneOf(Lend(w, m, o), m, o);
            && Good(r) && Frame(w, r, m, false) && Delivers(g, w, r, []) && |w.bodies| < |r.bodies|
            && r.bodies[m].referenced
            && !r.bodies[|w.bodies|].referenced && View(r, |w.bodies|) == View(w, m) && Frame(w, w, m, false)
  {
    hide Private, Kept, Frame, Sized;
    var w1 := Lend(w, m, o);
    CountersGood(w, w, m);
    CountersGood(w, w1, m);
    CloneGood(w1, m, o);
    FrameTrans(w, w1, CloneOf(w1, m, o), m, false, false, false);
  }

  /** What a pass does with a message whose contents are what a reader expects. */
  ghost predicate PassDone(sem: Meaning, can: Answers, g: Drivers, w: World, m: nat, hops: Hops, a: Round,
                           delivered: bool, o: Options, r: Out, x: Exit)
    requires Sized(w) && m < |w.bodies|
  {
    var rd := Pass(sem, hops, a.fallback, View(w, m), o.flow);
    && Left(w, r.world, m, x) && r.ok == x.ok && (x.dirty ==> Settled(a, x.ok))
    && (Settled(a, false) || r.ok == (delivered || rd.matched)) && Delivers(g, w, r.world, rd.events)
  }

  lemma {:induction false} PassIsolated(sem: Meaning, can: Answers, g: Drivers, w: World, m: nat, hops: Hops, a: Round,
                                        delivered: bool, o: Options) returns (x: Exit)
    requires Obeys(sem, can) && Good(w) && m < |w.bodies|
    requires PassFine(can, g, hops, a, delivered, w.bodies[m].referenced)
    ensures x in PassExits(can, g, hops, a, delivered, w.bodies[m].referenced)
    ensures PassDone(sem, can, g, w, m, hops, a, delivered, o,
                     RunPass(sem, g, w, m, hops, a.fallback, delivered, a.end, a.fx, o), x)
    decreases hops, 1
  {
    hide Private, Kept, Frame, Delivers, Sized, Obeys, PassDone;
    match hops
    case NoHops =>
      x := Exit(delivered, w.bodies[m].referenced, false);
      NoPass(sem, can, g, w, m, a, delivered, o);
    case Hop(path, mark, tail) =>
      if mark.fallback != a.fallback {
        x := PassIsolated(sem, can, g, w, m, tail, a, delivered, o);
        OtherSort(sem, can, g, w, m, hops, a, delivered, o, x);
      } else {
        x := FirstIsolated(sem, can, g, w, m, hops, a, delivered, o);
      }
  }

  lemma NoPass(sem: Meaning, can: Answers, g: Drivers, w: World, m: nat, a: Round, delivered: bool, o: Options)
    requires Good(w) && m < |w.bodies|
    ensures PassDone(sem, can, g, w, m, NoHops, a, delivered, o, Out(w, delivered),
              Exit(delivered, w.bodies[m].referenced, false))
  {
    hide Private, Kept, Sized;
    CountersGood(w, w, m);
    NothingNew(g, w, w);
  }

  lemma OtherSort(sem: Meaning, can: Answers, g: Drivers, w: World, m: nat, hops: Hops, a: Round, delivered: bool,
                  o: Options, x: Exit)
    requires Sized(w) && m < |w.bodies| && hops.Hop? && hops.mark.fallback != a.fallback
    requires PassDone(sem, can, g, w, m, hops.tail, a, delivered, o,
                      RunPass(sem, g, w, m, hops.tail, a.fallback, delivered, a.end, a.fx, o), x)
    ensures PassDone(sem, can, g, w, m, hops, a, delivered, o,
                     RunPass(sem, g, w, m, hops, a.fallback, delivered, a.end, a.fx, o), x)
  {
    hide Sized, Left, Delivers;
  }

  lemma Joined(g: Drivers, a: World, b: World, c: World, m: nat, l1: bool, l2: bool, l: bool, e1: seq<Event>,
               e2: seq<Event>)
    requires Frame(a, b, m, l1) && Frame(b, c, m, l2) && (l1 || l2 ==> l)
    requires Delivers(g, a, b, e1) && Delivers(g, b, c, e2)
    ensures Frame(a, c, m, l) && Delivers(g, a, c, e1 + e2)
  {
    hide Frame, Delivers;
    FrameTrans(a, b, c, m, l1, l2, l);
    DeliversTwo(g, a, b, c, e1, e2);
  }

  lemma {:induction false} FirstIsolated(sem: Meaning, can: Answers, g: Drivers, w: World, m: nat, hops: Hops, a: Round,
                                         delivered: bool, o: Options) returns (x: Exit)
    requires Obeys(sem, can) && Good(w) && m < |w.bodies|
    requires PassFine(can, g, hops, a, delivered, w.bodies[m].referenced)
    requires hops.Hop? && hops.mark.fallback == a.fallback
    ensures x in PassExits(can, g, hops, a, delivered, w.bodies[m].referenced)
    ensures PassDone(sem, can, g, w, m, hops, a, delivered, o,
                     RunPass(sem, g, w, m, hops, a.fallback, delivered, a.end, a.fx, o), x)
    decreases hops, 0
  {
    hide Private, Kept, Frame, Delivers, Sized, Obeys, Posted, Left;
    hide RunHop, RunPass, Pass, ReadPath, Fine, HopExits, PassFine, PassExits, Unnoticed, PassDone;
    var path, mark, tail := hops.path, hops.mark, hops.tail;
    var last := Last(a, tail, delivered);
    FirstHop(can, g, hops, a, delivered, w.bodies[m].referenced);
    var x1 := HopIsolated(sem, can, g, w, m, path, mark, last, o);
    var r1 := RunHop(sem, g, w, m, path, mark, last, o);
    LeftIs(w, r1.world, m, x1);
    if r1.ok && mark.final {
      x := x1;
      StopIsolated(sem, can, g, w, m, hops, a, delivered, o, x1);
    } else {
      var y := PassIsolated(sem, can, g, r1.world, m, tail, a, delivered || r1.ok, o);
      x := y.After(x1.dirty);
      RestIsolated(sem, can, g, w, r1, m, hops, a, delivered, o, x1, y);
      GoesOn(sem, can, g, w, r1, m, hops, a, delivered, o, y.After(x1.dirty));
    }
  }

  /** The pass ends with its first hop. */
  lemma StopIsolated(sem: Meaning, can: Answers, g: Drivers, w: World, m: nat, hops: Hops, a: Round, delivered: bool,
                     o: Options, x: Exit)
    requires Sized(w) && m < |w.bodies| && hops.Hop? && hops.mark.fallback == a.fallback && hops.mark.final && x.ok
    requires var r := RunHop(sem, g, w, m, hops.path, hops.mark, Last(a, hops.tail, delivered), o);
             var rd := ReadPath(sem, hops.path, View(w, m), o.flow || hops.mark.hard);
             Left(w, r.world, m, x) && r.ok == x.ok == rd.matched && Delivers(g, w, r.world, rd.events)
    ensures PassDone(sem, can, g, w, m, hops, a, delivered, o,
                     RunPass(sem, g, w, m, hops, a.fallback, delivered, a.end, a.fx, o), x)
  {
    hide Sized, Left, Delivers, RunHop, RunPass, Pass, ReadPath;
    PassSteps(sem, g, w, m, hops, a, delivered, o);
  }

  lemma GoesOn(sem: Meaning, can: Answers, g: Drivers, w: World, r1: Out, m: nat, hops: Hops, a: Round, delivered: bool,
               o: Options, x: Exit)
    requires Sized(w) && m < |w.bodies| && hops.Hop? && hops.mark.fallback == a.fallback
    requires r1 == RunHop(sem, g, w, m, hops.path, hops.mark, Last(a, hops.tail, delivered), o)
    requires !(r1.ok && hops.mark.final)
             && r1.ok == ReadPath(sem, hops.path, View(w, m), o.flow || hops.mark.hard).matched
    requires var r := RunPass(sem, g, r1.world, m, hops.tail, a.fallback, delivered || r1.ok, a.end, a.fx, o);
             var t := Pass(sem, hops.tail, a.fallback, View(w, m), o.flow);
             && Left(w, r.world, m, x) && r.ok == x.ok && (x.dirty ==> Settled(a, x.ok))
             && (Settled(a, false) || r.ok == (delivered || r1.ok || t.matched))
             && Delivers(g, w, r.world, ReadPath(sem, hops.path, View(w, m), o.flow || hops.mark.hard).events
                 + t.events)
    ensures PassDone(sem, can, g, w, m, hops, a, delivered, o,
                     RunPass(sem, g, w, m, hops, a.fallback, delivered, a.end, a.fx, o), x)
  {
    hide Sized, Left, Delivers, RunHop, RunPass, Pass, ReadPath;
    PassSteps(sem, g, w, m, hops, a, delivered, o);
  }

  lemma LeftIs(w: World, r: World, m: nat, x: Exit)
    requires Left(w, r, m, x)
    ensures Good(r) && m < |r.bodies| && r.bodies[m].referenced == x.ref
  {
  }

  /** What is known of the first hop of a pass and of the hops after it. */
  lemma FirstHop(can: Answers, g: Drivers, hops: Hops, a: Round, delivered: bool, ref: bool)
    requires PassFine(can, g, hops, a, delivered, ref) && hops.Hop? && hops.mark.fallback == a.fallback
    ensures Fine(can, g, hops.path, !Clones(hops.mark, Last(a, hops.tail, delivered), ref) && ref)
    ensures forall x :: x in HopExits(can, g, hops.path, hops.mark, Last(a, hops.tail, delivered), ref) ==>
              if x.ok && hops.mark.final then x in PassExits(can, g, hops, a, delivered, ref)
              else
                && PassFine(can, g, hops.tail, a, delivered || x.ok, x.ref)
                && (x.dirty ==> Unnoticed(can, g, hops.tail, a, delivered || x.ok))
                && forall y :: y in PassExits(can, g, hops.tail, a, delivered || x.ok, x.ref) ==>
                     y.After(x.dirty) in PassExits(can, g, hops, a, delivered, ref)
  {
    hide Fine, HopExits, Unnoticed;
  }

  /** The hops after the first one, which left `r1`. */
  lemma {:induction false} RestIsolated(sem: Meaning, can: Answers, g: Drivers, w: World, r1: Out, m: nat, hops: Hops,
                                        a: Round, delivered: bool, o: Options, x1: Exit, y: Exit)
    requires Obeys(sem, can) && Sized(w) && m < |w.bodies| && hops.Hop?
    requires x1.dirty ==> Unnoticed(can, g, hops.tail, a, delivered || x1.ok)
    requires var rd := ReadPath(sem, hops.path, View(w, m), o.flow || hops.mark.hard);
             Left(w, r1.world, m, x1) && r1.ok == x1.ok == rd.matched && Delivers(g, w, r1.world, rd.events)
    requires PassDone(sem, can, g, r1.world, m, hops.tail, a, delivered || r1.ok, o,
                      RunPass(sem, g, r1.world, m, hops.tail, a.fallback, delivered || r1.ok, a.end, a.fx, o), y)
    ensures var r := RunPass(sem, g, r1.world, m, hops.tail, a.fallback, delivered || r1.ok, a.end, a.fx, o);
            var x := y.After(x1.dirty);
            var t := Pass(sem, hops.tail, a.fallback, View(w, m), o.flow);
            && Left(w, r.world, m, x) && r.ok == x.ok && (x.dirty ==> Settled(a, x.ok))
            && (Settled(a, false) || r.ok == (delivered || r1.ok || t.matched))
            && Delivers(g, w, r.world, ReadPath(sem, hops.path, View(w, m), o.flow || hops.mark.hard).events + t.events)
  {
    hide Private, Kept, Frame, Delivers, Sized, Obeys, Posted;
    hide RunPass, Pass, ReadPath, SortIdle, SureTaken;
    var tail, w1 := hops.tail, r1.world;
    FrameAt(w, w1, m, x1.dirty);
    var r := RunPass(sem, g, w1, m, tail, a.fallback, delivered || r1.ok, a.end, a.fx, o);
    KeepsOk(sem, g, w1, m, tail, a, delivered || r1.ok, o);
    TailPosted(sem, can, g, tail, a, View(w, m), View(w1, m), o.flow, x1.dirty);
    if SureTaken(can, tail) && !a.fallback {
      TakenRuns(sem, can, g, w1, m, tail, a, delivered || r1.ok, o);
      TakenMatches(sem, can, tail, View(w, m), o.flow);
    }
    FromClean(g, w, w1, r.world, m, x1.dirty, y.dirty, y.After(x1.dirty).dirty,
              ReadPath(sem, hops.path, View(w, m), o.flow || hops.mark.hard).events,
              Pass(sem, tail, a.fallback, View(w1, m), o.flow).events,
                  Pass(sem, tail, a.fallback, View(w, m), o.flow).events);
  }

  lemma FromClean(g: Drivers, a: World, b: World, c: World, m: nat, l1: bool, l2: bool, l: bool,
                  e1: seq<Event>, seen: seq<Event>, e2: seq<Event>)
    requires Frame(a, b, m, l1) && Frame(b, c, m, l2) && (l1 || l2 ==> l)
    requires Delivers(g, a, b, e1) && Delivers(g, b, c, seen) && Posted(g, seen) == Posted(g, e2)
    ensures Frame(a, c, m, l) && Delivers(g, a, c, e1 + e2)
  {
    hide Frame, Delivers;
    SamePosted(g, b, c, seen, e2);
    Joined(g, a, b, c, m, l1, l2, l, e1, e2);
  }

  /** `delivered` is never taken back. */
  lemma {:induction false} KeepsOk(sem: Meaning, g: Drivers, w: World, m: nat, hops: Hops, a: Round, delivered: bool,
                                   o: Options)
    requires Sized(w) && m < |w.bodies|
    ensures delivered ==> RunPass(sem, g, w, m, hops, a.fallback, delivered, a.end, a.fx, o).ok
    decreases hops
  {
    hide RunHop;
    if hops.Hop? {
      if hops.mark.fallback != a.fallback {
        KeepsOk(sem, g, w, m, hops.tail, a, delivered, o);
      } else {
        var r := RunHop(sem, g, w, m, hops.path, hops.mark, Last(a, hops.tail, delivered), o);
        KeepsOk(sem, g, r.world, m, hops.tail, a, delivered || r.ok, o);
      }
    }
  }

  /** Both ways of making a pass, one hop at a time. */
  lemma PassSteps(sem: Meaning, g: Drivers, w: World, m: nat, hops: Hops, a: Round, delivered: bool, o: Options)
    requires Sized(w) && m < |w.bodies| && hops.Hop? && hops.mark.fallback == a.fallback
    ensures var r := RunHop(sem, g, w, m, hops.path, hops.mark, Last(a, hops.tail, delivered), o);
            RunPass(sem, g, w, m, hops, a.fallback, delivered, a.end, a.fx, o) ==
            if r.ok && hops.mark.final then r
            else RunPass(sem, g, r.world, m, hops.tail, a.fallback, delivered || r.ok, a.end, a.fx, o)
    ensures var r := ReadPath(sem, hops.path, View(w, m), o.flow || hops.mark.hard);
            var t := Pass(sem, hops.tail, a.fallback, View(w, m), o.flow);
            Pass(sem, hops, a.fallback, View(w, m), o.flow) ==
            if r.matched && hops.mark.final then r else Reading(r.events + t.events, r.matched || t.matched)
  {
  }

  /** Either nothing changed or there is no hop left to notice. */
  lemma TailPosted(sem: Meaning, can: Answers, g: Drivers, tail: Hops, a: Round, c: Content, c1: Content, flow: bool,
                   loose: bool)
    requires Obeys(sem, can) && (loose ==> SortIdle(can, g, tail, a.fallback)) && (!loose ==> c1 == c)
    ensures Posted(g, Pass(sem, tail, a.fallback, c1, flow).events) ==
              Posted(g, Pass(sem, tail, a.fallback, c, flow).events)
  {
    if loose {
      IdlePass(sem, can, g, tail, a.fallback, c, flow);
      IdlePass(sem, can, g, tail, a.fallback, c1, flow);
    }
  }

  lemma {:induction false} SureRuns(sem: Meaning, can: Answers, g: Drivers, w: World, m: nat, p: Path, o: Options)
    requires Obeys(sem, can) && Sized(w) && m < |w.bodies| && Sure(can, p)
    ensures RunPath(sem, g, w, m, p, o).ok
    decreases p
  {
    hide StoreAll, RunDrivers, RunHops, Sized;
    match p
    case End =>
    case Proc(e, rest) => SureRuns(sem, can, g, StoreAll(w, m, sem(e, View(w, m)).edits), m, rest, o);
    case Group(d, rest) => SureRuns(sem, can, g, RunDrivers(w, m, d, 0, g(d), o), m, rest, o);
    case Mpx(hops, rest) => SureRuns(sem, can, g, RunHops(sem, g, w, m, hops, rest.End?, o), m, rest, o);
  }

  lemma {:induction false} TakenRuns(sem: Meaning, can: Answers, g: Drivers, w: World, m: nat, hops: Hops, a: Round,
                                     delivered: bool, o: Options)
    requires Obeys(sem, can) && Sized(w) && m < |w.bodies| && SureTaken(can, hops) && !a.fallback
    ensures RunPass(sem, g, w, m, hops, false, delivered, a.end, a.fx, o).ok
    decreases hops
  {
    hide RunPath, Sized, Obeys;
    if hops.mark.fallback {
      TakenRuns(sem, can, g, w, m, hops.tail, a, delivered, o);
    } else {
      var r := RunHop(sem, g, w, m, hops.path, hops.mark, Last(a, hops.tail, delivered), o);
      if Sure(can, hops.path) {
        var o1 := o.(flow := o.flow || hops.mark.hard);
        SureRuns(sem, can, g, Lend(w, m, o1), m, hops.path, o1);
        SureRuns(sem, can, g, CloneOf(Lend(w, m, o1), m, o1), |w.bodies|, hops.path, o1);
        KeepsOk(sem, g, r.world, m, hops.tail, a, delivered || r.ok, o);
      } else {
        TakenRuns(sem, can, g, r.world, m, hops.tail, a, delivered || r.ok, o);
      }
    }
  }

  lemma {:induction false} HopsIsolated(sem: Meaning, can: Answers, g: Drivers, w: World, m: nat, hops: Hops, end: bool,
                                        o: Options)
      returns (x: Exit)
    requires Obeys(sem, can) && Good(w) && m < |w.bodies| && HopsFine(can, g, hops, end, w.bodies[m].referenced)
    ensures x in HopsExits(can, g, hops, end, w.bodies[m].referenced)
    ensures var r := RunHops(sem, g, w, m, hops, end, o);
            Left(w, r, m, x) && Delivers(g, w, r, ReadHops(sem, hops, View(w, m), o.flow))
    decreases hops, 3
  {
    hide Private, Kept, Frame, Delivers, Sized, Obeys, Pass, PassExits, PassFine, RunPass, Posted, SortIdle;
    var fx := FallbackExists(hops);
    var a := FirstRound(can, g, hops, end);
    var x1 := PassIsolated(sem, can, g, w, m, hops, a, false, o);
    var first := RunPass(sem, g, w, m, hops, false, false, end, fx, o);
    FrameAt(w, first.world, m, x1.dirty);
    ReadTwo(sem, can, g, hops, View(w, m), View(first.world, m), o.flow, first.ok);
    if fx && !first.ok {
      x := SecondIsolated(sem, can, g, w, first.world, m, hops, end, o, x1);
    } else {
      x := x1;
      SamePosted(g, w, first.world, Pass(sem, hops, false, View(w, m), o.flow).events,
          ReadHops(sem, hops, View(w, m), o.flow));
    }
  }

  /** The second pass, which finds the message as the first one left it in `w1`. */
  lemma {:induction false} SecondIsolated(sem: Meaning, can: Answers, g: Drivers, w: World, w1: World, m: nat,
                                          hops: Hops, end: bool, o: Options, x1: Exit) returns (x: Exit)
    requires Obeys(sem, can) && Sized(w) && m < |w.bodies| && Left(w, w1, m, x1) && FallbackExists(hops) && !x1.ok
    requires x1 in PassExits(can, g, hops, FirstRound(can, g, hops, end), false, w.bodies[m].referenced)
    requires PassFine(can, g, hops, SecondRound(hops, end), false, x1.ref)
    requires var e1, e2 := Pass(sem, hops, false, View(w, m), o.flow).events,
               Pass(sem, hops, true, View(w, m), o.flow).events;
             && Delivers(g, w, w1, e1) && Posted(g, ReadHops(sem, hops, View(w, m), o.flow)) == Posted(g, e1 + e2)
             && Posted(g, Pass(sem, hops, true, View(w1, m), o.flow).events) == Posted(g, e2)
    ensures x in HopsExits(can, g, hops, end, w.bodies[m].referenced)
    ensures var r := RunPass(sem, g, w1, m, hops, true, false, end, FallbackExists(hops), o).world;
            Left(w, r, m, x) && Delivers(g, w, r, ReadHops(sem, hops, View(w, m), o.flow))
    decreases hops, 2
  {
    hide Private, Kept, Frame, Delivers, Sized, Obeys, Pass, PassExits, PassFine, RunPass, Posted, SortIdle, ReadHops;
    var b := SecondRound(hops, end);
    var e1, e2 := Pass(sem, hops, false, View(w, m), o.flow).events, Pass(sem, hops, true, View(w, m), o.flow).events;
    var y := PassIsolated(sem, can, g, w1, m, hops, b, false, o);
    x := y.After(x1.dirty);
    var r := RunPass(sem, g, w1, m, hops, true, false, end, FallbackExists(hops), o).world;
    FromClean(g, w, w1, r, m, x1.dirty, y.dirty, x.dirty, e1, Pass(sem, hops, true, View(w1, m), o.flow).events, e2);
    SamePosted(g, w, r, e1 + e2, ReadHops(sem, hops, View(w, m), o.flow));
  }

  /** What the second pass adds, be it made or not; `c1` is what it finds. */
  lemma ReadTwo(sem: Meaning, can: Answers, g: Drivers, hops: Hops, c: Content, c1: Content, flow: bool, ok: bool)
    requires Obeys(sem, can)
    requires FallbackExists(hops) && !SortIdle(can, g, hops, true) ==>
               ok == Pass(sem, hops, false, c, flow).matched && (!ok ==> c1 == c)
    ensures var e1, e2 := Pass(sem, hops, false, c, flow).events, Pass(sem, hops, true, c, flow).events;
            && Posted(g, ReadHops(sem, hops, c, flow)) == Posted(g, if FallbackExists(hops) && !ok then e1 + e2 else e1)
            && (FallbackExists(hops) && !ok ==> Posted(g, Pass(sem, hops, true, c1, flow).events) == Posted(g, e2))
  {
    hide Pass, Posted;
    PostedTwo(g, Pass(sem, hops, false, c, flow).events, Pass(sem, hops, true, c, flow).events);
    if SortIdle(can, g, hops, true) {
      IdlePass(sem, can, g, hops, true, c, flow);
      IdlePass(sem, can, g, hops, true, c1, flow);
    }
  }
}
