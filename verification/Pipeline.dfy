/** From log statements to destinations: when the branches of the compiled pipes are kept
    apart, and what goes wrong when they are not. */
module Pipeline {
  import opened Wrappers
  import opened Ledger
  import opened LogTree
  import opened LogPath
  import opened Sharing
  import opened PathCounts
  import opened PathChoice
  import opened PathIsolation
  import opened PathWeight

  // ----- the whole way

  /** The pipes of the statements fed by a source are fine for a new message. */
  predicate Apart(cfg: Config, can: Answers, g: Drivers, branches: seq<Stmt>) {
    var hops := CompileForks(cfg, FromSource(branches), true, 0);
    hops.Some? && HopsFine(can, g, hops.value, true, false)
  }

  /** The world after a message with contents `c` went through the pipes of the statements. */
  function Outcome(cfg: Config, sem: Meaning, g: Drivers, branches: seq<Stmt>, c: Content): (w: World)
    requires CompileForks(cfg, FromSource(branches), true, 0).Some? && |c| == PARTS
    ensures Sized(w)
  {
    RunPath(sem, g, Start(c), 0, Mpx(CompileForks(cfg, FromSource(branches), true, 0).value, End),
        Options(true, false)).world
  }

  /** The queues hold exactly the mails that reading the statements gives, and every queued
      message is still what it was when queued. */
  predicate Right(cfg: Config, sem: Meaning, g: Drivers, branches: seq<Stmt>, c: Content)
    requires CompileForks(cfg, FromSource(branches), true, 0).Some? && |c| == PARTS
  {
    var w := Outcome(cfg, sem, g, branches, c);
    && Shown(w.nodes) == Posted(g, SourceEvents(cfg, sem, branches, c))
    && forall i :: 0 <= i < |w.nodes| ==> View(w, w.nodes[i].msg) == w.nodes[i].seen
  }

  lemma StartGood(c: Content)
    requires |c| == PARTS
    ensures Good(Start(c)) && View(Start(c), 0) == c && Start(c).nodes == [] && !Start(c).bodies[0].referenced
  {
  }

  /** A message from a source whose statements are kept apart ends up in the queues of
      exactly the drivers a reading of the configuration gives, with the contents and flow
      control that reading gives, and is still unchanged there in the end. */
  lemma SourceDelivers(cfg: Config, sem: Meaning, can: Answers, g: Drivers, branches: seq<Stmt>, c: Content)
    requires Obeys(sem, can) && Apart(cfg, can, g, branches) && |c| == PARTS
    ensures Right(cfg, sem, g, branches, c)
  {
    hide RunPath, RunHops, ReadHops, Posted, SourceEvents, HopsFine, Obeys, Exits, HopsExits;
    var s := FromSource(branches);
    var hops := CompileForks(cfg, s, true, 0).value;
    var p := Mpx(hops, End);
    StartGood(c);
    TopFine(can, g, hops);
    var x := PathIsolated(sem, can, g, Start(c), 0, p, Options(true, false));
    SourceReading(cfg, sem, branches, c);
    ReadLast(cfg, sem, s, hops, c, false);
    var r := RunPath(sem, g, Start(c), 0, p, Options(true, false)).world;
    FromNothing(g, c, r, SourceEvents(cfg, sem, branches, c));
  }

  lemma TopFine(can: Answers, g: Drivers, hops: Hops)
    ensures Fine(can, g, Mpx(hops, End), false) == HopsFine(can, g, hops, true, false)
  {
    hide HopsExits, HopsFine;
    assert forall ref :: Fine(can, g, End, ref);
  }

  lemma FromNothing(g: Drivers, c: Content, r: World, events: seq<Event>)
    requires |c| == PARTS && Delivers(g, Start(c), r, events)
    ensures Shown(r.nodes) == Posted(g, events)
  {
    assert Shown(Start(c).nodes) == [];
    assert [] + Posted(g, events) == Posted(g, events);
  }

  // ----- when the source gets its ack

  /** Queue node `n` is a delivery of top-level statement `i` ... */
  ghost predicate DeliveredBy(cfg: Config, sem: Meaning, branches: seq<Stmt>, c: Content, n: Node, i: nat) {
    && i < |branches| && Visited(cfg, sem, FromSource(branches), i, c)
    && Event(n.dest, n.seen, n.flow) in Direct(cfg, sem, branches[i], c, AnyFlow(branches[i]))
  }

  /** ... of one in whose tree nobody asks for flow control. */
  ghost predicate Uncontrolled(cfg: Config, sem: Meaning, branches: seq<Stmt>, c: Content, n: Node) {
    exists i: nat :: i < |branches| && DeliveredBy(cfg, sem, branches, c, n, i) && !AnyFlow(branches[i])
  }

  /** Every queue node is a delivery of some statement, and was queued with flow control
      exactly when that statement, or one embedded in it, asks for it. */
  lemma NodeFlow(cfg: Config, sem: Meaning, can: Answers, g: Drivers, branches: seq<Stmt>, c: Content, k: nat)
      returns (i: nat)
    requires Obeys(sem, can) && Apart(cfg, can, g, branches) && |c| == PARTS
    requires k < |Outcome(cfg, sem, g, branches, c).nodes|
    ensures var n := Outcome(cfg, sem, g, branches, c).nodes[k];
            DeliveredBy(cfg, sem, branches, c, n, i) && (n.flow <==> AnyFlow(branches[i]))
  {
    hide Posted, HopsFine, Obeys, Outcome, Direct, Visited, ForkEvents;
    SourceDelivers(cfg, sem, can, g, branches, c);
    var nodes := Outcome(cfg, sem, g, branches, c).nodes;
    var events := SourceEvents(cfg, sem, branches, c);
    assert Shown(nodes)[k] == Posted(g, events)[k];
    var e := MailOf(g, events, k);
    i := SourceFlow(cfg, sem, branches, e !in ForkEvents(cfg, sem, FromSource(branches), false, 0, c, false), 0, c, e);
  }

  lemma {:induction false} LeftFromStart(ws: seq<World>, order: seq<nat>, j: nat, k: nat) returns (i: nat)
    requires Consumed(ws, order) && j <= |order| && k < |ws[j].nodes|
    ensures i < |ws[0].nodes| && ws[0].nodes[i] == ws[j].nodes[k]
  {
    hide Sized;
    if j == 0 {
      i := k;
    } else {
      i := LeftFromStart(ws, order, j - 1, if k < order[j - 1] then k else k + 1);
    }
  }

  lemma UncontrolledIff(cfg: Config, sem: Meaning, can: Answers, g: Drivers, branches: seq<Stmt>, c: Content, k: nat)
    requires Obeys(sem, can) && Apart(cfg, can, g, branches) && |c| == PARTS
    requires k < |Outcome(cfg, sem, g, branches, c).nodes|
    ensures var n := Outcome(cfg, sem, g, branches, c).nodes[k];
            Uncontrolled(cfg, sem, branches, c, n) <==> !n.flow
  {
    hide HopsFine, Obeys, Outcome, AnyFlow, Direct, Visited;
    var n := Outcome(cfg, sem, g, branches, c).nodes[k];
    var i := NodeFlow(cfg, sem, can, g, branches, c, k);
    if Uncontrolled(cfg, sem, branches, c, n) {
      var x: nat :| x < |branches| && DeliveredBy(cfg, sem, branches, c, n, x) && !AnyFlow(branches[x]);
      TreeFlow(cfg, sem, branches[x], c, AnyFlow(branches[x]), Event(n.dest, n.seen, n.flow));
    }
  }

  /** A message from a source whose statements are kept apart, with the consumers done with
      some of the queue nodes: it is acked, once, exactly when all nodes left are deliveries of
      statements that do not ask for flow control. */
  lemma AckedByStatements(cfg: Config, sem: Meaning, can: Answers, g: Drivers, branches: seq<Stmt>, c: Content,
                          ws: seq<World>, order: seq<nat>, j: nat)
    requires Obeys(sem, can) && Apart(cfg, can, g, branches) && |c| == PARTS
    requires Consumed(ws, order) && j <= |order| && ws[0] == Outcome(cfg, sem, g, branches, c)
    ensures Sized(ws[j]) && ws[j].acks.ended[0] <= 1
    ensures ws[j].acks.ended[0] == 1 <==>
            forall k :: 0 <= k < |ws[j].nodes| ==> Uncontrolled(cfg, sem, branches, c, ws[j].nodes[k])
  {
    hide HopsFine, Obeys, RunPath, Sized, Uncontrolled;
    var p := Mpx(CompileForks(cfg, FromSource(branches), true, 0).value, End);
    AckedAfterTheLastLeaf(sem, g, c, p, false, ws, order, j);
    forall k | 0 <= k < |ws[j].nodes|
      ensures Uncontrolled(cfg, sem, branches, c, ws[j].nodes[k]) <==> !ws[j].nodes[k].flow
    {
      var x := LeftFromStart(ws, order, j, k);
      UncontrolledIff(cfg, sem, can, g, branches, c, x);
    }
  }

  // ----- statements that are kept apart whatever the drivers

  predicate AnyWrites(elems: seq<Elem>, i: nat) {
    exists j :: i <= j < |elems| && elems[j].writes
  }

  /** Some item from `i` on refers to an element that stores into the message. */
  predicate ItemsWrite(cfg: Config, items: seq<Item>, i: nat) {
    exists j :: i <= j < |items| && AnyWrites(Rule(cfg, items[j]), 0)
  }

  /** No element stores into the message after a destination of the same statement. */
  predicate Orderly(cfg: Config, items: seq<Item>, i: nat) {
    forall j :: i <= j < |items| && items[j].Destination? ==> !ItemsWrite(cfg, items, j + 1)
  }

  /** The statement or one embedded in it stores into the message. */
  predicate StmtWrites(cfg: Config, s: Stmt)
    decreases s
  {
    ItemsWrite(cfg, s.items, 0) || exists i :: 0 <= i < |s.forks| && StmtWrites(cfg, s.forks[i])
  }

  /** A statement is sound if it is orderly and, should it or an embedded statement store
      into the message, is marked for cloning; and the embedded statements are sound. */
  predicate Sound(cfg: Config, s: Stmt)
    decreases s
  {
    && Orderly(cfg, s.items, 0)
    && (StmtWrites(cfg, s) ==> Changes(cfg, s.items))
    && forall i :: 0 <= i < |s.forks| ==> Sound(cfg, s.forks[i])
  }

  /** Some pipe of the chain or of a branch below it stores. */
  predicate Writing(p: Path) {
    match p
    case End => false
    case Proc(e, rest) => e.writes || Writing(rest)
    case Group(_, rest) => Writing(rest)
    case Mpx(hops, rest) => HopsWriting(hops) || Writing(rest)
  }

  predicate HopsWriting(hops: Hops) {
    hops.Hop? && (Writing(hops.path) || HopsWriting(hops.tail))
  }

  predicate Tidy(p: Path) {
    match p
    case End => true
    case Proc(_, rest) => Tidy(rest)
    case Group(_, rest) => !OwnWrites(rest) && Tidy(rest)
    case Mpx(hops, rest) => !OwnWrites(rest) && HopsTidy(hops) && Tidy(rest)
  }

  predicate HopsTidy(hops: Hops) {
    hops.Hop? ==> Tidy(hops.path) && (Writing(hops.path) ==> hops.mark.clone) && HopsTidy(hops.tail)
  }

  lemma {:induction false} OwnIsWriting(p: Path)
    ensures OwnWrites(p) ==> Writing(p)
  {
    if !p.End? {
      OwnIsWriting(p.rest);
    }
  }

  /** Only a chain with a pipe that stores changes the message. */
  lemma {:induction false} OnlyWriting(can: Answers, g: Drivers, p: Path, ref: bool, x: Exit)
    requires x in Exits(can, g, p, ref) && x.dirty
    ensures Writing(p)
    decreases p, 0
  {
    match p
    case End =>
    case Proc(e, rest) =>
      if !e.writes {
        OnlyWriting(can, g, rest, ref, x);
      }
    case Group(d, rest) => OnlyWriting(can, g, rest, ref || g(d) > 0, x);
    case Mpx(hops, rest) =>
      hide Exits;
      var h, y := MpxVia(can, g, p, ref, x);
      if h.dirty {
        OnlyWritingHops(can, g, hops, rest.End?, ref, h);
      } else {
        OnlyWriting(can, g, rest, h.ref, y);
      }
  }

  lemma {:induction false} OnlyWritingHops(can: Answers, g: Drivers, hops: Hops, end: bool, ref: bool, x: Exit)
    requires x in HopsExits(can, g, hops, end, ref) && x.dirty
    ensures HopsWriting(hops)
    decreases hops, 1
  {
    hide PassExits;
    var a := FirstRound(can, g, hops, end);
    if x in PassExits(can, g, hops, a, false, ref) {
      OnlyWritingPass(can, g, hops, a, false, ref, x);
    } else {
      var z, y := HopsVia(can, g, hops, end, ref, x);
      if z.dirty {
        OnlyWritingPass(can, g, hops, a, false, ref, z);
      } else {
        OnlyWritingPass(can, g, hops, SecondRound(hops, end), false, z.ref, y);
      }
    }
  }

  lemma {:induction false} OnlyWritingPass(can: Answers, g: Drivers, hops: Hops, a: Round, del: bool, ref: bool,
                                           x: Exit)
    requires x in PassExits(can, g, hops, a, del, ref) && x.dirty
    ensures HopsWriting(hops)
    decreases hops, 0
  {
    if hops.mark.fallback != a.fallback {
      OnlyWritingPass(can, g, hops.tail, a, del, ref, x);
    } else {
      hide PassExits;
      var last := Last(a, hops.tail, del);
      var xs := HopExits(can, g, hops.path, hops.mark, last, ref);
      var z, y := x, x;
      if !(x in xs && x.ok && hops.mark.final) {
        z, y := PassVia(can, g, hops, a, del, ref, x);
      }
      if z.dirty {
        OnlyWriting(can, g, hops.path, ref, z);
      } else {
        OnlyWritingPass(can, g, hops.tail, a, del || z.ok, z.ref, y);
      }
    }
  }

  /** Tidy pipes are fine. */
  lemma {:induction false} TidyFine(can: Answers, g: Drivers, p: Path, ref: bool)
    requires Tidy(p) && (OwnWrites(p) ==> !ref)
    ensures Fine(can, g, p, ref)
    decreases p, 0
  {
    match p
    case End =>
    case Proc(_, rest) => TidyFine(can, g, rest, ref);
    case Group(d, rest) => TidyFine(can, g, rest, ref || g(d) > 0);
    case Mpx(hops, rest) =>
      hide HopsExits, HopsFine;
      forall h | h in HopsExits(can, g, hops, rest.End?, ref)
        ensures (h.dirty ==> rest.End?) && Fine(can, g, rest, h.ref)
      {
        TidyHops(can, g, hops, rest.End?, ref, h);
        TidyFine(can, g, rest, h.ref);
      }
      TidyHopsFine(can, g, hops, rest.End?, ref);
  }

  lemma {:induction false} TidyHopsFine(can: Answers, g: Drivers, hops: Hops, end: bool, ref: bool)
    requires HopsTidy(hops)
    ensures HopsFine(can, g, hops, end, ref)
    decreases hops, 1
  {
    hide PassFine, PassExits;
    TidyPass(can, g, hops, FirstRound(can, g, hops, end), false, ref);
    forall x | x in PassExits(can, g, hops, FirstRound(can, g, hops, end), false, ref)
      ensures PassFine(can, g, hops, SecondRound(hops, end), false, x.ref)
    {
      TidyPass(can, g, hops, SecondRound(hops, end), false, x.ref);
    }
  }

  lemma {:induction false} TidyPass(can: Answers, g: Drivers, hops: Hops, a: Round, del: bool, ref: bool)
    requires HopsTidy(hops)
    ensures PassFine(can, g, hops, a, del, ref)
    decreases hops, 0
  {
    if hops.Hop? {
      if hops.mark.fallback != a.fallback {
        TidyPass(can, g, hops.tail, a, del, ref);
      } else {
        hide Fine, HopExits, Tidy, Writing, OwnWrites;
        var last := Last(a, hops.tail, del);
        OwnIsWriting(hops.path);
        TidyFine(can, g, hops.path, !Clones(hops.mark, last, ref) && ref);
        forall x | x in HopExits(can, g, hops.path, hops.mark, last, ref)
          ensures PassFine(can, g, hops.tail, a, del || x.ok, x.ref)
          ensures x.dirty ==> Unnoticed(can, g, hops.tail, a, del || x.ok)
        {
          TidyPass(can, g, hops.tail, a, del || x.ok, x.ref);
          if x.dirty {
            TidyHop(can, g, hops.path, hops.mark, last, ref, x);
          }
        }
      }
    }
  }

  /** A hop that is marked if it stores only changes the message when it is the last one. */
  lemma TidyHop(can: Answers, g: Drivers, p: Path, mark: Mark, last: bool, ref: bool, x: Exit)
    requires (Writing(p) ==> mark.clone) && x in HopExits(can, g, p, mark, last, ref) && x.dirty
    ensures last
  {
    hide Exits, Writing;
    OnlyWriting(can, g, p, ref, x);
  }

  lemma {:induction false} TidyHops(can: Answers, g: Drivers, hops: Hops, end: bool, ref: bool, x: Exit)
    requires HopsTidy(hops) && x in HopsExits(can, g, hops, end, ref)
    ensures x.dirty ==> end
  {
    hide PassExits;
    var a := FirstRound(can, g, hops, end);
    if x in PassExits(can, g, hops, a, false, ref) {
      TidyRound(can, g, hops, a, false, ref, x);
    } else {
      var z, y := HopsVia(can, g, hops, end, ref, x);
      TidyRound(can, g, hops, a, false, ref, z);
      TidyRound(can, g, hops, SecondRound(hops, end), false, z.ref, y);
    }
  }

  lemma {:induction false} TidyRound(can: Answers, g: Drivers, hops: Hops, a: Round, del: bool, ref: bool, x: Exit)
    requires HopsTidy(hops) && x in PassExits(can, g, hops, a, del, ref)
    ensures x.dirty ==> a.end
    decreases hops
  {
    if hops.Hop? {
      if hops.mark.fallback != a.fallback {
        TidyRound(can, g, hops.tail, a, del, ref, x);
      } else {
        hide PassExits, HopExits, Writing;
        var last := Last(a, hops.tail, del);
        var xs := HopExits(can, g, hops.path, hops.mark, last, ref);
        var z, y := x, x;
        if !(x in xs && x.ok && hops.mark.final) {
          z, y := PassVia(can, g, hops, a, del, ref, x);
          TidyRound(can, g, hops.tail, a, del || z.ok, z.ref, y);
        }
        if z.dirty {
          TidyHop(can, g, hops.path, hops.mark, last, ref, z);
        }
      }
    }
  }

  lemma {:induction false} PrependWrites(elems: seq<Elem>, i: nat, rest: Path)
    requires i <= |elems|
    ensures var p := Prepend(elems, i, rest);
            && (OwnWrites(p) <==> AnyWrites(elems, i) || OwnWrites(rest))
            && (Writing(p) <==> AnyWrites(elems, i) || Writing(rest))
            && (Tidy(p) <==> Tidy(rest))
    decreases |elems| - i
  {
    if i < |elems| {
      PrependWrites(elems, i + 1, rest);
    }
  }

  function ToDest(d: string, rest: Path): Path { Mpx(Hop(Group(d, End), PLAIN, NoHops), rest) }

  lemma DestWrites(d: string, rest: Path)
    ensures OwnWrites(ToDest(d, rest)) == OwnWrites(rest) && Writing(ToDest(d, rest)) == Writing(rest)
    ensures Tidy(ToDest(d, rest)) <==> Tidy(rest) && !OwnWrites(rest)
  {
    assert !HopsWriting(NoHops) && HopsTidy(NoHops);
    assert !Writing(End) && !OwnWrites(End) && Tidy(End);
    assert !Writing(Group(d, End)) && Tidy(Group(d, End));
    var hops := Hop(Group(d, End), PLAIN, NoHops);
    assert !HopsWriting(hops) && HopsTidy(hops);
  }

  lemma ItemWriting(cfg: Config, it: Item, tail: Path)
    ensures var p := ItemPath(cfg, it, tail);
            && (OwnWrites(p) <==> AnyWrites(Rule(cfg, it), 0) || OwnWrites(tail))
            && (Writing(p) <==> AnyWrites(Rule(cfg, it), 0) || Writing(tail))
            && (Tidy(p) <==> Tidy(tail) && (it.Destination? ==> !OwnWrites(tail)))
  {
    if it.Destination? {
      DestWrites(it.name, tail);
    } else {
      PrependWrites(Rule(cfg, it), 0, tail);
    }
  }

  lemma {:induction false} ItemsWriting(cfg: Config, s: Stmt, toplevel: bool, i: nat, rest: Path)
    requires i <= |s.items| && CompileItems(cfg, s, toplevel, i, rest).Some? && !OwnWrites(rest)
    ensures var p := CompileItems(cfg, s, toplevel, i, rest).value;
            && (OwnWrites(p) <==> ItemsWrite(cfg, s.items, i))
            && (Writing(p) <==> ItemsWrite(cfg, s.items, i) || Writing(rest))
            && (Tidy(p) <==> Tidy(rest) && Orderly(cfg, s.items, i))
    decreases |s.items| - i
  {
    hide OwnWrites, Writing, Tidy;
    if i < |s.items| {
      ItemWriting(cfg, s.items[i], CompileItems(cfg, s, toplevel, i + 1, rest).value);
      ItemsWriting(cfg, s, toplevel, i + 1, rest);
    }
  }

  /** PIF_CLONE is set on a statement exactly when one of its own pipes carries it, so if
      pipes that store carry it, a statement that stores itself is marked. */
  lemma MarkedIff(cfg: Config, items: seq<Item>)
    requires ValidConfig(cfg)
    ensures Changes(cfg, items) <==>
            exists i, j :: 0 <= i < |items| && 0 <= j < |Rule(cfg, items[i])| && Rule(cfg, items[i])[j].changing
    ensures Honest(cfg) && ItemsWrite(cfg, items, 0) ==> Changes(cfg, items)
  {
    if Changes(cfg, items) {
      var i :| 0 <= i < |items| && Alters(cfg, items[i]);
      assert Rule(cfg, items[i])[0].changing;
    }
    if i, j :| 0 <= i < |items| && 0 <= j < |Rule(cfg, items[i])| && Rule(cfg, items[i])[j].changing {
      assert Alters(cfg, items[i]);
    }
    if Honest(cfg) && ItemsWrite(cfg, items, 0) {
      var i :| 0 <= i < |items| && AnyWrites(Rule(cfg, items[i]), 0);
      var j :| 0 <= j < |Rule(cfg, items[i])| && Rule(cfg, items[i])[j].writes;
      assert Rule(cfg, items[i])[j].changing;
    }
  }

  lemma {:induction false} ForksSound(cfg: Config, s: Stmt, top: bool, i: nat)
    requires i <= |s.forks| && CompileForks(cfg, s, top, i).Some?
    ensures var hops := CompileForks(cfg, s, top, i).value;
            && (HopsTidy(hops) <==> forall j :: i <= j < |s.forks| ==> Sound(cfg, s.forks[j]))
            && (HopsWriting(hops) <==> exists j :: i <= j < |s.forks| && StmtWrites(cfg, s.forks[j]))
    decreases s, 0, |s.forks| - i
  {
    if i < |s.forks| {
      hide Compile, CompileForks, Sound, StmtWrites, Tidy, Writing;
      FirstFork(cfg, s, top, i);
      SoundIff(cfg, s.forks[i], top, s.flags.flowControl);
      ForksSound(cfg, s, top, i + 1);
    }
  }

  /** A statement is sound exactly when its pipes are tidy and marked if they store. */
  lemma {:induction false} SoundIff(cfg: Config, s: Stmt, toplevel: bool, parentFlow: bool)
    requires Compile(cfg, s, toplevel, parentFlow).Some?
    ensures var (path, mark) := Compile(cfg, s, toplevel, parentFlow).value;
            && (Tidy(path) && (Writing(path) ==> mark.clone) <==> Sound(cfg, s))
            && (Writing(path) <==> StmtWrites(cfg, s))
    decreases s, 1, 0
  {
    var hops := CompileForks(cfg, s, false, 0).value;
    var rest := if s.forks == [] then End else Mpx(hops, End);
    ForksSound(cfg, s, false, 0);
    RestWriting(hops);
    ItemsWriting(cfg, s, toplevel, 0, rest);
  }

  lemma RestWriting(hops: Hops)
    ensures !OwnWrites(End) && !Writing(End) && Tidy(End)
    ensures !OwnWrites(Mpx(hops, End)) && Writing(Mpx(hops, End)) == HopsWriting(hops)
    ensures Tidy(Mpx(hops, End)) == HopsTidy(hops)
  {
  }

  /** Sound statements are kept apart, whatever the pipes answer and however many drivers the
      destinations have. */
  lemma SoundIsApart(cfg: Config, can: Answers, g: Drivers, branches: seq<Stmt>)
    requires CompileForks(cfg, FromSource(branches), true, 0).Some?
    requires forall i :: 0 <= i < |branches| ==> Sound(cfg, branches[i])
    ensures Apart(cfg, can, g, branches)
  {
    hide HopsFine;
    var s := FromSource(branches);
    ForksSound(cfg, s, true, 0);
    TidyHopsFine(can, g, CompileForks(cfg, s, true, 0).value, true, false);
  }

  // ----- the exact condition

  lemma {:induction false} PrependPlain(elems: seq<Elem>, i: nat, rest: Path)
    requires i <= |elems| && Plain(rest)
    ensures Plain(Prepend(elems, i, rest))
    decreases |elems| - i
  {
    if i < |elems| {
      PrependPlain(elems, i + 1, rest);
    }
  }

  lemma {:induction false} ItemsPlain(cfg: Config, s: Stmt, toplevel: bool, i: nat, rest: Path)
    requires i <= |s.items| && CompileItems(cfg, s, toplevel, i, rest).Some? && Plain(rest)
    ensures Plain(CompileItems(cfg, s, toplevel, i, rest).value)
    decreases |s.items| - i
  {
    if i < |s.items| {
      var tail := CompileItems(cfg, s, toplevel, i + 1, rest).value;
      ItemsPlain(cfg, s, toplevel, i + 1, rest);
      if s.items[i].Destination? {
        DestPlain(s.items[i].name, tail);
      } else {
        PrependPlain(Rule(cfg, s.items[i]), 0, tail);
      }
    }
  }

  lemma DestPlain(d: string, rest: Path)
    requires Plain(rest)
    ensures Plain(ToDest(d, rest))
  {
    assert Plain(End) && !OwnWrites(End) && PlainHops(NoHops);
    assert Plain(Group(d, End)) && !OwnWrites(Group(d, End));
    assert PlainHops(Hop(Group(d, End), PLAIN, NoHops));
  }

  lemma {:induction false} ForksPlain(cfg: Config, s: Stmt, top: bool, i: nat)
    requires ValidConfig(cfg) && Honest(cfg) && i <= |s.forks| && CompileForks(cfg, s, top, i).Some?
    ensures PlainHops(CompileForks(cfg, s, top, i).value)
    decreases s, 0, |s.forks| - i
  {
    if i < |s.forks| {
      hide Compile, CompileForks, Plain, OwnWrites;
      FirstFork(cfg, s, top, i);
      StmtPlain(cfg, s.forks[i], top, s.flags.flowControl);
      ForksPlain(cfg, s, top, i + 1);
    }
  }

  lemma {:induction false} StmtPlain(cfg: Config, s: Stmt, toplevel: bool, parentFlow: bool)
    requires ValidConfig(cfg) && Honest(cfg) && Compile(cfg, s, toplevel, parentFlow).Some?
    ensures var (path, mark) := Compile(cfg, s, toplevel, parentFlow).value;
            Plain(path) && (OwnWrites(path) ==> mark.clone)
    decreases s, 1, 0
  {
    var hops := CompileForks(cfg, s, false, 0).value;
    var rest := if s.forks == [] then End else Mpx(hops, End);
    ForksPlain(cfg, s, false, 0);
    RestWriting(hops);
    assert Plain(End);
    ItemsPlain(cfg, s, toplevel, 0, rest);
    ItemsWriting(cfg, s, toplevel, 0, rest);
    MarkedIff(cfg, s.items);
  }

  /** Statements that are not kept apart: with some answers of the pipes, a pipe that makes the
      name-value table longer shows up where it should not. */
  lemma Misdelivers(cfg: Config, can: Answers, g: Drivers, branches: seq<Stmt>) returns (sem: Meaning, c: Content)
    requires ValidConfig(cfg) && Honest(cfg) && CompileForks(cfg, FromSource(branches), true, 0).Some?
    requires Answered(can) && SingleUse(can, CompileForks(cfg, FromSource(branches), true, 0).value)
    requires !Apart(cfg, can, g, branches)
    ensures Obeys(sem, can) && |c| == PARTS && !Right(cfg, sem, g, branches, c)
  {
    hide HopsFine, SingleUse;
    var d := Decide(can, g, CompileForks(cfg, FromSource(branches), true, 0).value, true, false);
    TracingObeys(d);
    sem, c := Tracing(d), [[], [], []];
    Overweight(cfg, d, g, branches, c);
  }

  lemma Overweight(cfg: Config, d: Answers, g: Drivers, branches: seq<Stmt>, c: Content)
    requires ValidConfig(cfg) && Honest(cfg) && CompileForks(cfg, FromSource(branches), true, 0).Some?
    requires Decided(d) && !Apart(cfg, d, g, branches) && c == [[], [], []]
    ensures !Right(cfg, Tracing(d), g, branches, c)
  {
    hide RunPath, HopsFine, Posted, SourceEvents, ReadHops, Mass, LoadHops, Pass, Tracing, Decided;
    var s := FromSource(branches);
    var hops := CompileForks(cfg, s, true, 0).value;
    ForksPlain(cfg, s, true, 0);
    TopPlain(d, g, hops);
    TopFine(d, g, hops);
    var x := PathWeighs(d, g, Start(c), 0, Mpx(hops, End), Options(true, false), 0);
    assert Total(Start(c)) == 0;
    HopsLoad(d, g, hops, c, false);
    SourceReading(cfg, Tracing(d), branches, c);
    if Right(cfg, Tracing(d), g, branches, c) {
      RightMass(cfg, Tracing(d), g, branches, c);
    }
  }

  lemma RightMass(cfg: Config, sem: Meaning, g: Drivers, branches: seq<Stmt>, c: Content)
    requires CompileForks(cfg, FromSource(branches), true, 0).Some? && |c| == PARTS && Right(cfg, sem, g, branches, c)
    ensures Total(Outcome(cfg, sem, g, branches, c)) == Mass(Posted(g, SourceEvents(cfg, sem, branches, c)))
  {
    hide RunPath, Posted, SourceEvents, Mass;
    var w := Outcome(cfg, sem, g, branches, c);
    KeptMass(w, |w.nodes|);
    assert Shown(w.nodes)[..|w.nodes|] == Shown(w.nodes);
  }

  lemma TopPlain(can: Answers, g: Drivers, hops: Hops)
    requires PlainHops(hops)
    ensures Plain(Mpx(hops, End)) && !OwnWrites(Mpx(hops, End))
    ensures forall n :: Load(can, g, Mpx(hops, End), n) == LoadHops(can, g, hops, n)
  {
    assert Plain(End) && !OwnWrites(End);
  }

  /** Where storing pipes carry PIF_CLONE and no pipe that may give either answer is used
      twice, every message is delivered as the statements say, whatever the pipes store and
      whichever of their answers they give, if and only if the statements are kept apart. */
  lemma DeliversIff(cfg: Config, can: Answers, g: Drivers, branches: seq<Stmt>)
    requires ValidConfig(cfg) && Honest(cfg) && CompileForks(cfg, FromSource(branches), true, 0).Some?
    requires Answered(can) && SingleUse(can, CompileForks(cfg, FromSource(branches), true, 0).value)
    ensures Apart(cfg, can, g, branches) <==>
            forall sem: Meaning, c: Content :: Obeys(sem, can) && |c| == PARTS ==> Right(cfg, sem, g, branches, c)
  {
    hide Right, Apart, Obeys, Answered, SingleUse;
    if Apart(cfg, can, g, branches) {
      forall sem: Meaning, c: Content | Obeys(sem, can) && |c| == PARTS
        ensures Right(cfg, sem, g, branches, c)
      {
        SourceDelivers(cfg, sem, can, g, branches, c);
      }
    } else {
      var sem, c := Misdelivers(cfg, can, g, branches);
    }
  }

  // ----- branches that are not kept apart

  const NO_FLAGS := Flags(false, false, false, false)

  /** A rewrite: it stores and carries PIF_CLONE. */
  const REWRITE := Elem(0, true, true)

  /** A filter that stores only through a filter() call: PIF_CLONE is missing. */
  const CALLER := Elem(1, false, true)

  /** A filter that only answers. */
  const ASKER := Elem(2, false, false)

  /** The rewrite rule "r", the filter rules "f" and "p" and two destinations. */
  function SmallConfig(): Config {
    Config({}, map[(Rewrite, "r") := [REWRITE], (Filter, "f") := [CALLER], (Filter, "p") := [ASKER]], {"a", "b"})
  }

  lemma StoreView(w: World, m: nat, e: Edit)
    requires Sized(w) && Private(w) && m < |w.bodies|
    ensures var r := Store(w, m, e);
            && Private(r) && r.nodes == w.nodes && View(r, m) == Stored(View(w, m), e)
  {
  }

  /** Whoever refers to `m` as well, `m` itself shows what was stored. */
  lemma {:induction false} StoreAllView(w: World, m: nat, edits: seq<Edit>)
    requires Sized(w) && Private(w) && m < |w.bodies|
    ensures var r := StoreAll(w, m, edits);
            && Private(r) && r.nodes == w.nodes && View(r, m) == Edited(View(w, m), edits)
    decreases |edits|
  {
    if edits != [] {
      StoreAllView(w, m, edits[..|edits| - 1]);
      StoreView(StoreAll(w, m, edits[..|edits| - 1]), m, edits[|edits| - 1]);
    }
  }

  /** A destination gets the message as it is and leaves it alone. */
  lemma DestIsolated(sem: Meaning, g: Drivers, w: World, d: string, o: Options)
    requires Obeys(sem, ANY) && Good(w) && 0 < |w.bodies|
    ensures var r := RunPath(sem, g, w, 0, ToDest(d, End), o);
            && Good(r.world) && r.ok && Frame(w, r.world, 0, false)
            && Delivers(g, w, r.world, [Event(d, View(w, 0), o.flow)])
  {
    hide Private, Kept, Delivers, Frame, RunPath, Exits, Fine;
    DestFine(ANY, g, d, w.bodies[0].referenced);
    var x := PathIsolated(sem, ANY, g, w, 0, ToDest(d, End), o);
    ReadOneDest(sem, d, End, View(w, 0), o.flow);
    assert [Event(d, View(w, 0), o.flow)] + [] == [Event(d, View(w, 0), o.flow)];
  }

  lemma DestFine(can: Answers, g: Drivers, d: string, ref: bool)
    ensures Fine(can, g, ToDest(d, End), ref)
    ensures forall x :: x in Exits(can, g, ToDest(d, End), ref) ==> !x.dirty
  {
    hide Exits, Fine;
    RestWriting(NoHops);
    DestWrites(d, End);
    TidyFine(can, g, ToDest(d, End), ref);
    forall x | x in Exits(can, g, ToDest(d, End), ref)
      ensures !x.dirty
    {
      if x.dirty {
        OnlyWriting(can, g, ToDest(d, End), ref, x);
      }
    }
  }

  /** What the chain "`e`, then destination a" delivers. */
  function Mailed(sem: Meaning, e: Elem, c: Content, flow: bool): seq<Event> {
    if sem(e, c).accept then [Event("a", Edited(c, sem(e, c).edits), flow)] else []
  }

  /** That chain, given the message itself, leaves its stores in it, be it accepted or not. */
  lemma StoresInPlace(sem: Meaning, g: Drivers, w: World, e: Elem, o: Options)
    requires Obeys(sem, ANY) && Good(w) && 0 < |w.bodies| && !w.bodies[0].referenced
    ensures var r := RunPath(sem, g, w, 0, Proc(e, ToDest("a", End)), o);
            && Good(r.world) && r.ok == sem(e, View(w, 0)).accept
            && View(r.world, 0) == Edited(View(w, 0), sem(e, View(w, 0)).edits)
            && Delivers(g, w, r.world, Mailed(sem, e, View(w, 0), o.flow))
  {
    hide Private, Kept, Delivers, RunHops, Obeys;
    var effect := sem(e, View(w, 0));
    StoreAllGood(w, 0, effect.edits);
    var w1 := StoreAll(w, 0, effect.edits);
    NothingNew(g, w, w1);
    if effect.accept {
      DestIsolated(sem, g, w1, "a", o);
      var r := RunPath(sem, g, w1, 0, ToDest("a", End), o);
      FrameAt(w1, r.world, 0, false);
      DeliversTwo(g, w, w1, r.world, [], Mailed(sem, e, View(w, 0), o.flow));
      assert [] + Mailed(sem, e, View(w, 0), o.flow) == Mailed(sem, e, View(w, 0), o.flow);
    } else {
      DropIsolated(g, w1, 0, o);
      FrameAt(w1, Drop(w1, 0, o), 0, false);
      DeliversTwo(g, w, w1, Drop(w1, 0, o), [], []);
      assert [] + [] == Mailed(sem, e, View(w, 0), o.flow);
    }
  }

  /** The compiled form of a branch that only holds the branch rewriting for "a". */
  function Inner(): Path {
    Mpx(Hop(Proc(REWRITE, ToDest("a", End)), Mark(false, false, true, false), NoHops), End)
  }

  /** The last-delivery shortcut of the inner multiplexer changes the caller's message. */
  lemma InnerInPlace(sem: Meaning, g: Drivers, w: World, o: Options)
    requires Obeys(sem, ANY) && Good(w) && 0 < |w.bodies| && !w.bodies[0].referenced
    ensures var r := RunPath(sem, g, w, 0, Inner(), o);
            && Good(r.world) && r.ok
            && View(r.world, 0) == Edited(View(w, 0), sem(REWRITE, View(w, 0)).edits)
            && Delivers(g, w, r.world, Mailed(sem, REWRITE, View(w, 0), o.flow))
  {
    hide Private, Kept, Delivers, Sized, Mailed;
    var p := Proc(REWRITE, ToDest("a", End));
    var mark := Mark(false, false, true, false);
    assert o.(flow := o.flow || mark.hard) == o;
    LendOnly(g, w, 0, o);
    var w1 := Lend(w, 0, o);
    StoresInPlace(sem, g, w1, REWRITE, o);
    var r1 := RunPath(sem, g, w1, 0, p, o);
    assert RunHop(sem, g, w, 0, p, mark, true, o) == r1;
    assert RunPass(sem, g, w, 0, Hop(p, mark, NoHops), false, false, true, false, o) == Out(r1.world, r1.ok);
    assert !FallbackExists(NoHops) && !FallbackExists(Hop(p, mark, NoHops));
    assert RunHops(sem, g, w, 0, Hop(p, mark, NoHops), true, o) == r1.world;
    assert RunPath(sem, g, w, 0, Inner(), o) == Out(Drop(r1.world, 0, o), true);
    DropIsolated(g, r1.world, 0, o);
    FrameAt(r1.world, Drop(r1.world, 0, o), 0, false);
    var events := Mailed(sem, REWRITE, View(w, 0), o.flow);
    DeliversTwo(g, w, w1, r1.world, [], events);
    DeliversTwo(g, w, r1.world, Drop(r1.world, 0, o), [] + events, []);
    assert [] + events + [] == events;
  }

  /** A source with an unmarked branch and the branch "destination b". */
  function TwoHops(first: Path): Hops { Hop(first, PLAIN, Hop(ToDest("b", End), PLAIN, NoHops)) }

  /** If the first branch leaves the message as `changed`, "b" gets it that way. */
  lemma SecondSees(sem: Meaning, g: Drivers, c: Content, first: Path, events: seq<Event>, changed: Content)
    requires Obeys(sem, ANY) && |c| == PARTS
    requires var o := Options(true, false);
             var r := RunPath(sem, g, Lend(Start(c), 0, o), 0, first, o);
             && Good(r.world) && View(r.world, 0) == changed
             && Delivers(g, Lend(Start(c), 0, o), r.world, events)
    ensures var r := RunPath(sem, g, Start(c), 0, Mpx(TwoHops(first), End), Options(true, false)).world;
            Shown(r.nodes) == Posted(g, events + [Event("b", changed, false)])
  {
    hide Private, Kept, Delivers, Sized, RunPath, Frame;
    var w, o := Start(c), Options(true, false);
    assert o.(flow := o.flow || PLAIN.hard) == o;
    StartGood(c);
    LendOnly(g, w, 0, o);
    var r1 := RunHop(sem, g, w, 0, first, PLAIN, false, o);
    assert r1 == RunPath(sem, g, Lend(w, 0, o), 0, first, o);
    DeliversTwo(g, w, Lend(w, 0, o), r1.world, [], events);
    assert [] + events == events;
    LendOnly(g, r1.world, 0, o);
    DestIsolated(sem, g, Lend(r1.world, 0, o), "b", o);
    var r2 := RunHop(sem, g, r1.world, 0, ToDest("b", End), PLAIN, true, o);
    assert r2 == RunPath(sem, g, Lend(r1.world, 0, o), 0, ToDest("b", End), o);
    var b := [Event("b", changed, false)];
    DeliversTwo(g, r1.world, Lend(r1.world, 0, o), r2.world, [], b);
    assert [] + b == b;
    DeliversTwo(g, w, r1.world, r2.world, events, b);
    DropIsolated(g, r2.world, 0, o);
    DeliversTwo(g, w, r2.world, Drop(r2.world, 0, o), events + b, []);
    assert events + b + [] == events + b;
    TwoSteps(sem, g, c, first);
    FromNothing(g, c, Drop(r2.world, 0, o), events + b);
  }

  lemma TwoSteps(sem: Meaning, g: Drivers, c: Content, first: Path)
    requires |c| == PARTS
    ensures var w, o := Start(c), Options(true, false);
            var r1 := RunHop(sem, g, w, 0, first, PLAIN, false, o);
            var r2 := RunHop(sem, g, r1.world, 0, ToDest("b", End), PLAIN, true, o);
            RunPath(sem, g, w, 0, Mpx(TwoHops(first), End), o) == Out(Drop(r2.world, 0, o), true)
  {
    hide RunHop;
    var w, o := Start(c), Options(true, false);
    var r1 := RunHop(sem, g, w, 0, first, PLAIN, false, o);
    var r2 := RunHop(sem, g, r1.world, 0, ToDest("b", End), PLAIN, true, o);
    var second := Hop(ToDest("b", End), PLAIN, NoHops);
    assert !FallbackExists(NoHops) && !FallbackExists(second) && !FallbackExists(TwoHops(first));
    assert RunPass(sem, g, r1.world, 0, second, false, r1.ok, true, false, o).world == r2.world;
    assert RunPass(sem, g, w, 0, TwoHops(first), false, false, true, false, o).world == r2.world;
    assert RunHops(sem, g, w, 0, TwoHops(first), true, o) == r2.world;
  }

  /** log { log { rewrite(r); destination(a); }; }; log { destination(b); }; */
  function LeakyBranches(): seq<Stmt> {
    [Stmt([], [Stmt([Process(Rewrite, "r"), Destination("a")], [], NO_FLAGS)], NO_FLAGS),
     Stmt([Destination("b")], [], NO_FLAGS)]
  }

  /** "rewrite(r); destination(a);" is marked, "destination(b);" is not. */
  lemma SmallCompiled(top: bool)
    ensures var cfg := SmallConfig();
            && Compile(cfg, Stmt([Process(Rewrite, "r"), Destination("a")], [], NO_FLAGS), top, false) ==
               Some((Proc(REWRITE, ToDest("a", End)), Mark(false, false, true, false)))
            && Compile(cfg, Stmt([Destination("b")], [], NO_FLAGS), top, false) == Some((ToDest("b", End), PLAIN))
            && Compile(cfg, Stmt([Process(Filter, "f"), Destination("a")], [], NO_FLAGS), top, false) ==
               Some((Proc(CALLER, ToDest("a", End)), PLAIN))
  {
    OneRuleCompiled(Rewrite, "r", REWRITE, "a", top);
    OneRuleCompiled(Filter, "f", CALLER, "a", top);
    var cfg := SmallConfig();
    var second := Stmt([Destination("b")], [], NO_FLAGS);
    assert CompileItems(cfg, second, top, 1, End) == Some(End);
    assert CompileItems(cfg, second, top, 0, End) == Some(ToDest("b", End));
    assert CompileForks(cfg, second, false, 0) == Some(NoHops);
    assert !Changes(cfg, second.items);
  }

  lemma OneRuleCompiled(kind: Kind, name: string, e: Elem, d: string, top: bool)
    requires (kind, name) in SmallConfig().rules && SmallConfig().rules[(kind, name)] == [e] && d in SmallConfig().dests
    ensures Compile(SmallConfig(), Stmt([Process(kind, name), Destination(d)], [], NO_FLAGS), top, false) ==
            Some((Proc(e, ToDest(d, End)), Mark(false, false, kind != Filter || e.changing, false)))
  {
    var cfg := SmallConfig();
    var s := Stmt([Process(kind, name), Destination(d)], [], NO_FLAGS);
    assert CompileItems(cfg, s, top, 2, End) == Some(End);
    assert CompileItems(cfg, s, top, 1, End) == Some(ToDest(d, End));
    assert Rule(cfg, s.items[0]) == [e];
    assert Prepend([e], 1, ToDest(d, End)) == ToDest(d, End);
    assert Prepend([e], 0, ToDest(d, End)) == Proc(e, ToDest(d, End));
    assert CompileItems(cfg, s, top, 0, End) == Some(Proc(e, ToDest(d, End)));
    assert CompileForks(cfg, s, false, 0) == Some(NoHops);
    assert !Alters(cfg, s.items[1]);
    assert Changes(cfg, s.items) == Alters(cfg, s.items[0]);
  }

  lemma LeakyCompiled()
    ensures CompileForks(SmallConfig(), FromSource(LeakyBranches()), true, 0) == Some(TwoHops(Inner()))
  {
    hide CompileItems;
    SmallCompiled(true);
    SmallCompiled(false);
    var cfg := SmallConfig();
    var s := FromSource(LeakyBranches());
    var outer := LeakyBranches()[0];
    assert CompileForks(cfg, outer, false, 1) == Some(NoHops);
    assert CompileForks(cfg, outer, false, 0) == Some(Inner().hops);
    NoItems(cfg, outer, true, Inner());
    assert !Changes(cfg, outer.items);
    assert Compile(cfg, outer, true, false) == Some((Inner(), PLAIN));
    assert CompileForks(cfg, s, true, 2) == Some(NoHops);
    assert CompileForks(cfg, s, true, 1) == Some(Hop(ToDest("b", End), PLAIN, NoHops));
  }

  lemma NoItems(cfg: Config, s: Stmt, top: bool, rest: Path)
    requires s.items == []
    ensures CompileItems(cfg, s, top, 0, rest) == Some(rest)
  {
  }

  /** A branch that changes nothing itself but holds one that does is not marked, so the
      next branch finds the changed message: destination b gets the rewritten contents,
      and what the configuration says only if the rewrite left the contents alone. */
  lemma EmbeddedRewriteLeaks(sem: Meaning, g: Drivers, c: Content)
    requires Obeys(sem, ANY) && |c| == PARTS
    ensures CompileForks(SmallConfig(), FromSource(LeakyBranches()), true, 0).Some?
    ensures Shown(Outcome(SmallConfig(), sem, g, LeakyBranches(), c).nodes) ==
            Posted(g, Mailed(sem, REWRITE, c, false) + [Event("b", Edited(c, sem(REWRITE, c).edits), false)])
  {
    hide Good, Delivers, RunPath;
    var o := Options(true, false);
    LeakyCompiled();
    StartGood(c);
    LendOnly(g, Start(c), 0, o);
    InnerInPlace(sem, g, Lend(Start(c), 0, o), o);
    SecondSees(sem, g, c, Inner(), Mailed(sem, REWRITE, c, false), Edited(c, sem(REWRITE, c).edits));
  }

  /** log { filter(f); destination(a); }; log { destination(b); }; */
  function CallerBranches(): seq<Stmt> {
    [Stmt([Process(Filter, "f"), Destination("a")], [], NO_FLAGS), Stmt([Destination("b")], [], NO_FLAGS)]
  }

  /** A filter that stores although its pipe lacks PIF_CLONE: destination b gets what it
      stored, whether or not the filter accepted the message. */
  lemma CalledFilterLeaks(sem: Meaning, g: Drivers, c: Content)
    requires Obeys(sem, ANY) && |c| == PARTS
    ensures ValidConfig(SmallConfig()) && !Honest(SmallConfig())
    ensures CompileForks(SmallConfig(), FromSource(CallerBranches()), true, 0).Some?
    ensures Shown(Outcome(SmallConfig(), sem, g, CallerBranches(), c).nodes) ==
            Posted(g, Mailed(sem, CALLER, c, false) + [Event("b", Edited(c, sem(CALLER, c).edits), false)])
  {
    hide Good, Delivers, RunPath, Compile;
    var o := Options(true, false);
    var cfg := SmallConfig();
    assert cfg.rules[(Filter, "f")][0].writes && !cfg.rules[(Filter, "f")][0].changing;
    SmallCompiled(true);
    var s := FromSource(CallerBranches());
    assert CompileForks(cfg, s, true, 2) == Some(NoHops);
    assert CompileForks(cfg, s, true, 1) == Some(Hop(ToDest("b", End), PLAIN, NoHops));
    assert CompileForks(cfg, s, true, 0) == Some(TwoHops(Proc(CALLER, ToDest("a", End))));
    StartGood(c);
    LendOnly(g, Start(c), 0, o);
    StoresInPlace(sem, g, Lend(Start(c), 0, o), CALLER, o);
    SecondSees(sem, g, c, Proc(CALLER, ToDest("a", End)), Mailed(sem, CALLER, c, false),
        Edited(c, sem(CALLER, c).edits));
  }

  /** log { log { rewrite(r); destination(a); }; log { destination(b); }; }; is not sound, but
      the rewriting branch is not the last one and so gets a clone. */
  lemma ClonedNotLast(can: Answers, g: Drivers)
    ensures var inner := Stmt([Process(Rewrite, "r"), Destination("a")], [], NO_FLAGS);
            var s := Stmt([], [inner, Stmt([Destination("b")], [], NO_FLAGS)], NO_FLAGS);
            !Sound(SmallConfig(), s) && Apart(SmallConfig(), can, g, [s, Stmt([Destination("b")], [], NO_FLAGS)])
  {
    NotLastCompiled();
    NotLastFine(can, g);
    var inner := Stmt([Process(Rewrite, "r"), Destination("a")], [], NO_FLAGS);
    var s := Stmt([], [inner, Stmt([Destination("b")], [], NO_FLAGS)], NO_FLAGS);
    assert Rule(SmallConfig(), inner.items[0])[0].writes;
    assert ItemsWrite(SmallConfig(), inner.items, 0);
    assert StmtWrites(SmallConfig(), s.forks[0]);
  }

  function NotLast(): Hops {
    Hop(Proc(REWRITE, ToDest("a", End)), Mark(false, false, true, false), Hop(ToDest("b", End), PLAIN, NoHops))
  }

  lemma NotLastCompiled()
    ensures var inner := Stmt([Process(Rewrite, "r"), Destination("a")], [], NO_FLAGS);
            var b := Stmt([Destination("b")], [], NO_FLAGS);
            var s := Stmt([], [inner, b], NO_FLAGS);
            CompileForks(SmallConfig(), FromSource([s, b]), true, 0) == Some(TwoHops(Mpx(NotLast(), End)))
  {
    hide CompileItems;
    SmallCompiled(true);
    SmallCompiled(false);
    var cfg := SmallConfig();
    var inner := Stmt([Process(Rewrite, "r"), Destination("a")], [], NO_FLAGS);
    var b := Stmt([Destination("b")], [], NO_FLAGS);
    var s := Stmt([], [inner, b], NO_FLAGS);
    assert CompileForks(cfg, s, false, 2) == Some(NoHops);
    assert CompileForks(cfg, s, false, 1) == Some(Hop(ToDest("b", End), PLAIN, NoHops));
    assert CompileForks(cfg, s, false, 0) == Some(NotLast());
    NoItems(cfg, s, true, Mpx(NotLast(), End));
    assert !Changes(cfg, s.items);
    assert Compile(cfg, s, true, false) == Some((Mpx(NotLast(), End), PLAIN));
    var top := FromSource([s, b]);
    assert CompileForks(cfg, top, true, 2) == Some(NoHops);
    assert CompileForks(cfg, top, true, 1) == Some(Hop(ToDest("b", End), PLAIN, NoHops));
  }

  lemma NotLastFine(can: Answers, g: Drivers)
    ensures HopsFine(can, g, TwoHops(Mpx(NotLast(), End)), true, false)
  {
    hide Fine, Exits, HopsFine, OwnWrites, Tidy, Writing, CleanHops;
    NotLastTidy();
    TidyFine(can, g, Mpx(NotLast(), End), false);
    NotLastClean(can, g);
    forall x | x in Exits(can, g, Mpx(NotLast(), End), false)
      ensures !x.dirty
    {
      CleanMpx(can, g, NotLast(), false, x);
    }
    TwoFine(can, g, Mpx(NotLast(), End));
  }

  lemma NotLastTidy()
    ensures Tidy(Mpx(NotLast(), End)) && !OwnWrites(Mpx(NotLast(), End))
  {
    RestWriting(NotLast());
    DestWrites("a", End);
    DestWrites("b", End);
    var p := Proc(REWRITE, ToDest("a", End));
    assert Tidy(p) && Writing(p);
    assert HopsTidy(NoHops) && HopsTidy(NotLast().tail) && HopsTidy(NotLast());
  }

  /** Every hop leaves the message alone, or is marked for cloning and not the last one. */
  ghost predicate CleanHops(can: Answers, g: Drivers, hops: Hops) {
    hops.Hop? ==>
      && ((hops.mark.clone && hops.tail.Hop?) || forall ref, x :: x in Exits(can, g, hops.path, ref) ==> !x.dirty)
      && CleanHops(can, g, hops.tail)
  }

  lemma NotLastClean(can: Answers, g: Drivers)
    ensures CleanHops(can, g, NotLast())
  {
    hide Exits;
    forall ref
      ensures forall x :: x in Exits(can, g, ToDest("b", End), ref) ==> !x.dirty
    {
      DestFine(can, g, "b", ref);
    }
    assert CleanHops(can, g, NoHops) && CleanHops(can, g, NotLast().tail);
  }

  lemma CleanHop(can: Answers, g: Drivers, hops: Hops, last: bool, ref: bool, x: Exit)
    requires hops.Hop? && CleanHops(can, g, hops) && (last ==> hops.tail.NoHops?)
    requires x in HopExits(can, g, hops.path, hops.mark, last, ref)
    ensures !x.dirty
  {
    hide Exits;
  }

  lemma {:induction false} CleanPass(can: Answers, g: Drivers, hops: Hops, a: Round, del: bool, ref: bool, x: Exit)
    requires CleanHops(can, g, hops) && x in PassExits(can, g, hops, a, del, ref)
    ensures !x.dirty
    decreases hops
  {
    if hops.Hop? {
      if hops.mark.fallback != a.fallback {
        CleanPass(can, g, hops.tail, a, del, ref, x);
      } else {
        hide PassExits, HopExits;
        var last := Last(a, hops.tail, del);
        if x in HopExits(can, g, hops.path, hops.mark, last, ref) && x.ok && hops.mark.final {
          CleanHop(can, g, hops, last, ref, x);
        } else {
          var z, y := PassVia(can, g, hops, a, del, ref, x);
          CleanHop(can, g, hops, last, ref, z);
          CleanPass(can, g, hops.tail, a, del || z.ok, z.ref, y);
        }
      }
    }
  }

  lemma CleanMpx(can: Answers, g: Drivers, hops: Hops, ref: bool, x: Exit)
    requires CleanHops(can, g, hops) && x in Exits(can, g, Mpx(hops, End), ref)
    ensures !x.dirty
  {
    hide PassExits, CleanHops;
    var h, y := MpxVia(can, g, Mpx(hops, End), ref, x);
    var a := FirstRound(can, g, hops, true);
    if h in PassExits(can, g, hops, a, false, ref) {
      CleanPass(can, g, hops, a, false, ref, h);
    } else {
      var z, v := HopsVia(can, g, hops, true, ref, h);
      CleanPass(can, g, hops, a, false, ref, z);
      CleanPass(can, g, hops, SecondRound(hops, true), false, z.ref, v);
    }
  }

  /** A first branch that leaves the message alone does no harm to the branch "destination b". */
  lemma TwoFine(can: Answers, g: Drivers, first: Path)
    requires Fine(can, g, first, false) && forall x :: x in Exits(can, g, first, false) ==> !x.dirty
    ensures HopsFine(can, g, TwoHops(first), true, false)
  {
    hide Fine, Exits;
    var hops := TwoHops(first);
    var a := FirstRound(can, g, hops, true);
    assert !FallbackExists(NoHops) && !FallbackExists(hops.tail) && !FallbackExists(hops);
    forall ref
      ensures Fine(can, g, ToDest("b", End), ref) && forall x :: x in Exits(can, g, ToDest("b", End), ref) ==> !x.dirty
    {
      DestFine(can, g, "b", ref);
    }
    assert forall del, ref :: PassFine(can, g, NoHops, a, del, ref);
    assert forall del, ref :: PassFine(can, g, hops.tail, a, del, ref);
    assert PassFine(can, g, hops, a, false, false);
  }

  /** log { filter(f); destination(a); }; alone is kept apart, and delivers as it should,
      although the filter stores and is not marked: nobody else sees the message. */
  lemma CallerAlone(can: Answers, g: Drivers)
    ensures var s := Stmt([Process(Filter, "f"), Destination("a")], [], NO_FLAGS);
            && !Sound(SmallConfig(), s) && Apart(SmallConfig(), can, g, [s])
            && forall sem: Meaning, c: Content :: Obeys(sem, can) && |c| == PARTS ==>
                 Right(SmallConfig(), sem, g, [s], c)
  {
    hide Compile, Fine, Exits, HopsFine, Obeys, Right;
    SmallCompiled(true);
    var p := Proc(CALLER, ToDest("a", End));
    var one := Stmt([Process(Filter, "f"), Destination("a")], [], NO_FLAGS);
    var s := FromSource([one]);
    assert CompileForks(SmallConfig(), s, true, 1) == Some(NoHops);
    assert CompileForks(SmallConfig(), s, true, 0) == Some(Hop(p, PLAIN, NoHops));
    DestFine(can, g, "a", false);
    ProcFine(can, g, CALLER, ToDest("a", End));
    LastFine(can, g, p);
    assert AnyWrites(Rule(SmallConfig(), one.items[0]), 0) by {
      assert Rule(SmallConfig(), one.items[0])[0].writes;
    }
    assert ItemsWrite(SmallConfig(), one.items, 0);
    assert !Alters(SmallConfig(), one.items[0]) && !Alters(SmallConfig(), one.items[1]);
    forall sem: Meaning, c: Content | Obeys(sem, can) && |c| == PARTS
      ensures Right(SmallConfig(), sem, g, [one], c)
    {
      SourceDelivers(SmallConfig(), sem, can, g, [one], c);
    }
  }

  lemma ProcFine(can: Answers, g: Drivers, e: Elem, rest: Path)
    requires Fine(can, g, rest, false)
    ensures Fine(can, g, Proc(e, rest), false)
  {
  }

  /** A branch that is alone may do to the message what it likes. */
  lemma LastFine(can: Answers, g: Drivers, p: Path)
    requires Fine(can, g, p, false)
    ensures HopsFine(can, g, Hop(p, PLAIN, NoHops), true, false)
  {
    hide Fine, Exits;
    var hops := Hop(p, PLAIN, NoHops);
    var a := FirstRound(can, g, hops, true);
    assert !FallbackExists(NoHops) && !FallbackExists(hops);
    assert forall del, ref :: PassFine(can, g, NoHops, a, del, ref);
    assert forall del :: Unnoticed(can, g, NoHops, a, del);
    assert PassFine(can, g, hops, a, false, false);
  }

  /** log { log { destination(b); flags(fallback); }; log { filter(p); destination(a); };
            log { rewrite(r); destination(b); }; }; */
  function FallbackStmt(): Stmt {
    Stmt([], [Stmt([Destination("b")], [], NO_FLAGS.(fallback := true)),
              Stmt([Process(Filter, "p"), Destination("a")], [], NO_FLAGS),
              Stmt([Process(Rewrite, "r"), Destination("b")], [], NO_FLAGS)], NO_FLAGS)
  }

  function FallbackHops(): Hops {
    Hop(ToDest("b", End), Mark(true, false, false, false), AskHop())
  }

  function AskHop(): Hops { Hop(Proc(ASKER, ToDest("a", End)), PLAIN, RewriteHop()) }

  function RewriteHop(): Hops { Hop(Proc(REWRITE, ToDest("b", End)), Mark(false, false, true, false), NoHops) }

  /** The rewriting hop is the last delivery only when destination a got the message before; if
      that has a driver, the message is referenced then, and the hop gets a clone. */
  lemma LastIsReferenced(can: Answers, g: Drivers, ref: bool, x: Exit)
    requires g("a") > 0 && x in Exits(can, g, Mpx(FallbackHops(), End), ref)
    ensures !x.dirty
  {
    hide PassExits;
    var hops := FallbackHops();
    var h, y := MpxVia(can, g, Mpx(hops, End), ref, x);
    var a := FirstRound(can, g, hops, true);
    if h in PassExits(can, g, hops, a, false, ref) {
      AskClean(can, g, a, ref, h);
    } else {
      var z, v := HopsVia(can, g, hops, true, ref, h);
      AskClean(can, g, a, ref, z);
      FallbackClean(can, g, z.ref, v);
    }
  }

  lemma AskClean(can: Answers, g: Drivers, a: Round, ref: bool, x: Exit)
    requires g("a") > 0 && !a.fallback && a.fx && x in PassExits(can, g, FallbackHops(), a, false, ref)
    ensures !x.dirty
  {
    hide HopExits, Exits;
    assert x in PassExits(can, g, AskHop(), a, false, ref);
    var z, y := PassVia(can, g, AskHop(), a, false, ref, x);
    AskExits(can, g, ref, z);
    RewriteClean(can, g, a, z.ok, z.ref, y);
  }

  lemma AskExits(can: Answers, g: Drivers, ref: bool, z: Exit)
    requires g("a") > 0 && z in HopExits(can, g, Proc(ASKER, ToDest("a", End)), PLAIN, false, ref)
    ensures !z.dirty && (z.ok ==> z.ref)
  {
    hide HopsExits;
    GroupExits(can, g, Hop(Group("a", End), PLAIN, NoHops), true, ref);
  }

  lemma RewriteClean(can: Answers, g: Drivers, a: Round, del: bool, ref: bool, x: Exit)
    requires !a.fallback && a.fx && (del ==> ref) && x in PassExits(can, g, RewriteHop(), a, del, ref)
    ensures !x.dirty
  {
    hide Exits;
    var z, y := PassVia(can, g, RewriteHop(), a, del, ref, x);
  }

  lemma FallbackClean(can: Answers, g: Drivers, ref: bool, x: Exit)
    requires x in PassExits(can, g, FallbackHops(), SecondRound(FallbackHops(), true), false, ref)
    ensures !x.dirty
  {
    hide Exits;
    var a := SecondRound(FallbackHops(), true);
    var z, y := PassVia(can, g, FallbackHops(), a, false, ref, x);
    DestFine(can, g, "b", ref);
    assert y in PassExits(can, g, AskHop(), a, z.ok, z.ref);
    assert y in PassExits(can, g, RewriteHop(), a, z.ok, z.ref);
    assert y in PassExits(can, g, NoHops, a, z.ok, z.ref);
  }

  /** That statement, with a driver in destination a, and log { destination(b); }; are kept
      apart, although the statement is not sound. */
  lemma FallbackApart(can: Answers, g: Drivers)
    requires g("a") > 0
    ensures !Sound(SmallConfig(), FallbackStmt())
    ensures Apart(SmallConfig(), can, g, [FallbackStmt(), Stmt([Destination("b")], [], NO_FLAGS)])
  {
    hide Fine, Exits, HopsFine, Tidy, OwnWrites, CompileForks;
    var p := Mpx(FallbackHops(), End);
    FallbackCompiled();
    FallbackTidy();
    TidyFine(can, g, p, false);
    forall x | x in Exits(can, g, p, false)
      ensures !x.dirty
    {
      LastIsReferenced(can, g, false, x);
    }
    TwoFine(can, g, p);
    var third := FallbackStmt().forks[2];
    assert Rule(SmallConfig(), third.items[0])[0].writes;
    assert ItemsWrite(SmallConfig(), third.items, 0);
    assert StmtWrites(SmallConfig(), FallbackStmt().forks[2]);
  }

  lemma FallbackTidy()
    ensures Tidy(Mpx(FallbackHops(), End)) && !OwnWrites(Mpx(FallbackHops(), End))
  {
    RestWriting(FallbackHops());
    DestWrites("a", End);
    DestWrites("b", End);
    assert HopsTidy(NoHops) && HopsTidy(RewriteHop()) && HopsTidy(AskHop()) && HopsTidy(FallbackHops());
  }

  lemma FallbackCompiled()
    ensures var s := FromSource([FallbackStmt(), Stmt([Destination("b")], [], NO_FLAGS)]);
            CompileForks(SmallConfig(), s, true, 0) == Some(TwoHops(Mpx(FallbackHops(), End)))
  {
    hide CompileItems, Compile;
    SmallCompiled(true);
    FallbackStmtCompiled();
    var cfg := SmallConfig();
    var top := FromSource([FallbackStmt(), Stmt([Destination("b")], [], NO_FLAGS)]);
    assert CompileForks(cfg, top, true, 2) == Some(NoHops);
    assert CompileForks(cfg, top, true, 1) == Some(Hop(ToDest("b", End), PLAIN, NoHops));
  }

  lemma FallbackStmtCompiled()
    ensures Compile(SmallConfig(), FallbackStmt(), true, false) == Some((Mpx(FallbackHops(), End), PLAIN))
  {
    hide CompileItems, CompileForks;
    FallbackForksCompiled();
    NoItems(SmallConfig(), FallbackStmt(), true, Mpx(FallbackHops(), End));
    assert !Changes(SmallConfig(), FallbackStmt().items);
    assert !AnyHard(FallbackHops()) by {
      assert !AnyHard(NoHops) && !AnyHard(RewriteHop()) && !AnyHard(AskHop());
    }
  }

  lemma FallbackForksCompiled()
    ensures CompileForks(SmallConfig(), FallbackStmt(), false, 0) == Some(FallbackHops())
  {
    hide CompileItems, Compile;
    OneRuleCompiled(Filter, "p", ASKER, "a", false);
    OneRuleCompiled(Rewrite, "r", REWRITE, "b", false);
    FirstCompiled();
    var cfg := SmallConfig();
    var s := FallbackStmt();
    assert CompileForks(cfg, s, false, 3) == Some(NoHops);
    assert CompileForks(cfg, s, false, 2) == Some(RewriteHop());
    assert CompileForks(cfg, s, false, 1) == Some(AskHop());
  }

  lemma FirstCompiled()
    ensures Compile(SmallConfig(), FallbackStmt().forks[0], false, false) ==
            Some((ToDest("b", End), Mark(true, false, false, false)))
  {
    var cfg := SmallConfig();
    var s := FallbackStmt().forks[0];
    assert CompileItems(cfg, s, false, 1, End) == Some(End);
    assert CompileItems(cfg, s, false, 0, End) == Some(ToDest("b", End));
    assert CompileForks(cfg, s, false, 0) == Some(NoHops);
    assert !Changes(cfg, s.items);
  }

  /** The multiplexer of a destination reference with one driver: one mail, and the
      message goes on. */
  lemma OneMail(sem: Meaning, g: Drivers, w: World, o: Options)
    requires Good(w) && 0 < |w.bodies| && g("a") == 1
    ensures var r := RunHops(sem, g, w, 0, Hop(Group("a", End), PLAIN, NoHops), false, o);
            && Good(r) && |r.bodies| == |w.bodies| && View(r, 0) == View(w, 0) && |r.nodes| == |w.nodes| + 1
            && Shown(r.nodes) == Shown(w.nodes) + [Mail("a", 0, o.flow, View(w, 0))] && r.nodes[|w.nodes|].msg == 0
  {
    hide Private, Kept, Sized, Frame;
    var group := Group("a", End);
    var hops := Hop(group, PLAIN, NoHops);
    LendOnly(g, w, 0, o);
    var w0 := Lend(w, 0, o);
    var w1 := RunDriver(Lend(w0, 0, o), 0, "a", 0, o);
    DriverNode(w0, o);
    assert RunDrivers(w1, 0, "a", 1, 1, o) == w1;
    assert RunDrivers(w0, 0, "a", 0, 1, o) == w1;
    var w2 := Drop(w1, 0, o);
    CountersGood(w1, w2, 0);
    assert RunPath(sem, g, w0, 0, group, o) == Out(w2, true);
    assert o.(flow := o.flow || PLAIN.hard) == o;
    assert RunHop(sem, g, w, 0, group, PLAIN, false, o) == Out(w2, true);
    assert RunPass(sem, g, w, 0, hops, false, false, false, false, o).world == w2;
    assert RunHops(sem, g, w, 0, hops, false, o) == w2;
  }

  lemma DriverNode(w: World, o: Options)
    requires Good(w) && 0 < |w.bodies|
    ensures var r := RunDriver(Lend(w, 0, o), 0, "a", 0, o);
            && Good(r) && |r.bodies| == |w.bodies| && View(r, 0) == View(w, 0) && |r.nodes| == |w.nodes| + 1
            && Shown(r.nodes) == Shown(w.nodes) + [Mail("a", 0, o.flow, View(w, 0))] && r.nodes[|w.nodes|].msg == 0
  {
    hide Private, Kept;
    var r := RunDriver(Lend(w, 0, o), 0, "a", 0, o);
    DriverGood(w, 0, "a", 0, o);
    FrameAt(w, r, 0, false);
    assert |Shown(r.nodes)| == |w.nodes| + 1;
  }

  /** log { destination(a); rewrite(r); }: the queued message is changed under the
      destination's hands, unless the rewrite leaves the contents alone. */
  lemma RewriteAfterDestination(sem: Meaning, g: Drivers, w: World, o: Options)
    requires Good(w) && 0 < |w.bodies| && g("a") == 1
    ensures var r := RunPath(sem, g, w, 0, ToDest("a", Proc(REWRITE, End)), o).world;
            var edits := sem(REWRITE, View(w, 0)).edits;
            && Shown(r.nodes) == Shown(w.nodes) + [Mail("a", 0, o.flow, View(w, 0))]
            && |r.nodes| == |w.nodes| + 1 && r.nodes[|w.nodes|].msg == 0 && View(r, 0) == Edited(View(w, 0), edits)
            && (View(r, 0) == r.nodes[|w.nodes|].seen <==> Edited(View(w, 0), edits) == View(w, 0))
  {
    hide Private, Kept, RunHops;
    OneMail(sem, g, w, o);
    var w2 := RunHops(sem, g, w, 0, Hop(Group("a", End), PLAIN, NoHops), false, o);
    StoreAllView(w2, 0, sem(REWRITE, View(w2, 0)).edits);
    assert Shown(w2.nodes)[|w.nodes|] == Mail("a", 0, o.flow, View(w, 0));
  }
}
