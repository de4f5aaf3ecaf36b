/** Log statements, the tree of pipes they compile to, and what each of the two says
    about where a message goes.

    `Direct` reads a statement as its author wrote it; `ReadPath` follows the compiled
    pipes the way the multiplexer does, in two passes with a `delivered` flag.  Both are
    about contents only; sharing of messages in memory is the business of LogPath. */
module LogTree {
  import opened Wrappers

  // ----- configuration

  datatype Kind = Filter | Parser | Rewrite

  /** A processing pipe.  `changing` is its PIF_CLONE flag; `writes` tells whether it can
      store into the message. */
  datatype Elem = Elem(id: nat, changing: bool, writes: bool)

  datatype Item =
    | Source(name: string)
    | Process(kind: Kind, name: string)
    | Destination(name: string)

  datatype Flags = Flags(catchAll: bool, fallback: bool, final: bool, flowControl: bool)

  /** The grammar puts embedded statements after all other endpoints. */
  datatype Stmt = Stmt(items: seq<Item>, forks: seq<Stmt>, flags: Flags)

  datatype Config = Config(sources: set<string>, rules: map<(Kind, string), seq<Elem>>, dests: set<string>)

  /** A filter rule holds exactly one pipe; parsers and rewrites always carry PIF_CLONE. */
  predicate ValidConfig(cfg: Config) {
    forall k :: k in cfg.rules ==>
      if k.0 == Filter then |cfg.rules[k]| == 1
      else forall i :: 0 <= i < |cfg.rules[k]| ==> cfg.rules[k][i].changing
  }

  /** Every pipe that can store into the message carries PIF_CLONE. */
  predicate Honest(cfg: Config) {
    forall k, i :: k in cfg.rules && 0 <= i < |cfg.rules[k]| && cfg.rules[k][i].writes ==> cfg.rules[k][i].changing
  }

  // ----- compiled pipes

  /** A chain of pipes linked by pipe_next. */
  datatype Path =
    | End
    | Proc(elem: Elem, rest: Path)
    | Group(dest: string, rest: Path)
    | Mpx(hops: Hops, rest: Path)

  /** The next hops of a multiplexer with the flags found on their first pipe. */
  datatype Hops = NoHops | Hop(path: Path, mark: Mark, tail: Hops)

  datatype Mark = Mark(fallback: bool, final: bool, clone: bool, hard: bool)

  const PLAIN := Mark(false, false, false, false)

  function Prepend(elems: seq<Elem>, i: nat, rest: Path): Path
    requires i <= |elems|
    decreases |elems| - i
  {
    if i == |elems| then rest else Proc(elems[i], Prepend(elems, i + 1, rest))
  }

  predicate Resolves(cfg: Config, s: Stmt, toplevel: bool, it: Item) {
    match it
    case Source(name) => toplevel && !s.flags.catchAll && name in cfg.sources
    case Process(kind, name) => (kind, name) in cfg.rules
    case Destination(name) => name in cfg.dests
  }

  /** The elements a processing item refers to. */
  function Rule(cfg: Config, it: Item): seq<Elem> {
    if it.Process? && (it.kind, it.name) in cfg.rules then cfg.rules[(it.kind, it.name)] else []
  }

  /** The pipes of one item in front of `tail`. */
  function ItemPath(cfg: Config, it: Item, tail: Path): Path {
    if it.Destination? then Mpx(Hop(Group(it.name, End), PLAIN, NoHops), tail)
    else Prepend(Rule(cfg, it), 0, tail)
  }

  /** The pipes of the items from `i` on, followed by `rest`. */
  function CompileItems(cfg: Config, s: Stmt, toplevel: bool, i: nat, rest: Path): Option<Path>
    requires i <= |s.items|
    decreases |s.items| - i
  {
    if i == |s.items| then Some(rest)
    else
      var tail := CompileItems(cfg, s, toplevel, i + 1, rest);
      if tail == None || !Resolves(cfg, s, toplevel, s.items[i]) then None
      else Some(ItemPath(cfg, s.items[i], tail.value))
  }

  /** The item refers to a rule that is not empty and no pure filter. */
  predicate Alters(cfg: Config, it: Item) {
    && it.Process? && (it.kind, it.name) in cfg.rules
    && var elems := cfg.rules[(it.kind, it.name)];
       elems != [] && (it.kind != Filter || elems[0].changing)
  }

  /** path_changes_the_message */
  predicate Changes(cfg: Config, items: seq<Item>) {
    exists i :: 0 <= i < |items| && Alters(cfg, items[i])
  }

  predicate AnyHard(hops: Hops) {
    hops.Hop? && (hops.mark.hard || AnyHard(hops.tail))
  }

  /** The branches of `s` from `i` on; `top` tells that they are top-level statements. */
  function CompileForks(cfg: Config, s: Stmt, top: bool, i: nat): Option<Hops>
    requires i <= |s.forks|
    decreases s, 0, |s.forks| - i
  {
    if i == |s.forks| then Some(NoHops)
    else
      var head := Compile(cfg, s.forks[i], top, s.flags.flowControl);
      var tail := CompileForks(cfg, s, top, i + 1);
      if head == None || tail == None then None else Some(Hop(head.value.0, head.value.1, tail.value))
  }

  /** The chain of pipes of a statement and the flags put on its first pipe, or None
      when the configuration is refused. */
  function Compile(cfg: Config, s: Stmt, toplevel: bool, parentFlow: bool): Option<(Path, Mark)>
    decreases s, 1, 0
  {
    if !toplevel && s.flags.catchAll then None
    else
      var hops := CompileForks(cfg, s, false, 0);
      if hops == None then None
      else
        var path := CompileItems(cfg, s, toplevel, 0, if s.forks == [] then End else Mpx(hops.value, End));
        if path == None || path.value == End then None
        else Some((path.value,
                   Mark(s.flags.fallback, s.flags.final, Changes(cfg, s.items),
                        s.flags.flowControl || AnyHard(hops.value) || parentFlow)))
  }

  // ----- which configurations are refused

  /** `d` is embedded in `s`, directly or further down. */
  predicate Below(d: Stmt, s: Stmt)
    decreases s
  {
    exists i :: 0 <= i < |s.forks| && (d == s.forks[i] || Below(d, s.forks[i]))
  }

  /** Only a top-level statement may be a catch-all or name sources, and not both; whatever is
      named exists; and there is something in the statement besides sources and empty rules. */
  ghost predicate Sane(cfg: Config, s: Stmt, toplevel: bool) {
    && (s.flags.catchAll ==> toplevel && forall n :: Source(n) !in s.items)
    && (forall n :: Source(n) in s.items ==> toplevel && n in cfg.sources)
    && (forall k, n :: Process(k, n) in s.items ==> (k, n) in cfg.rules)
    && (forall n :: Destination(n) in s.items ==> n in cfg.dests)
    && (s.forks != [] || exists it :: it in s.items && (it.Destination? || Rule(cfg, it) != []))
  }

  lemma {:induction false} ItemsCompile(cfg: Config, s: Stmt, toplevel: bool, i: nat, rest: Path)
    requires i <= |s.items|
    ensures var p := CompileItems(cfg, s, toplevel, i, rest);
            && (p.Some? <==> forall j :: i <= j < |s.items| ==> Resolves(cfg, s, toplevel, s.items[j]))
            && (p.Some? && rest == End ==> (p.value == End <==>
                 forall j :: i <= j < |s.items| ==> !s.items[j].Destination? && Rule(cfg, s.items[j]) == []))
            && (p.Some? && rest != End ==> p.value != End)
    decreases |s.items| - i
  {
    if i < |s.items| {
      ItemsCompile(cfg, s, toplevel, i + 1, rest);
    }
  }

  lemma {:induction false} ForksCompile(cfg: Config, s: Stmt, top: bool, i: nat)
    requires i <= |s.forks|
    ensures CompileForks(cfg, s, top, i).Some? <==>
            forall j :: i <= j < |s.forks| ==> Compile(cfg, s.forks[j], top, s.flags.flowControl).Some?
    decreases |s.forks| - i
  {
    hide Compile;
    if i < |s.forks| {
      ForksCompile(cfg, s, top, i + 1);
    }
  }

  /** The items of a statement that is no misplaced catch-all resolve and make a pipe. */
  lemma SaneIff(cfg: Config, s: Stmt, toplevel: bool)
    requires s.flags.catchAll ==> toplevel
    ensures Sane(cfg, s, toplevel) <==>
            && (forall j :: 0 <= j < |s.items| ==> Resolves(cfg, s, toplevel, s.items[j]))
            && (s.forks != [] ||
                exists j :: 0 <= j < |s.items| && (s.items[j].Destination? || Rule(cfg, s.items[j]) != []))
  {
    if forall j :: 0 <= j < |s.items| ==> Resolves(cfg, s, toplevel, s.items[j]) {
      forall it | it in s.items
        ensures Resolves(cfg, s, toplevel, it)
      {
        var j :| 0 <= j < |s.items| && s.items[j] == it;
      }
    }
    if Sane(cfg, s, toplevel) {
      forall j | 0 <= j < |s.items|
        ensures Resolves(cfg, s, toplevel, s.items[j])
      {
        assert s.items[j] in s.items;
        match s.items[j]
        case Source(n) =>
        case Process(k, n) =>
        case Destination(n) =>
      }
    }
  }

  /** A statement compiles exactly when it and all statements embedded in it are sane. */
  lemma {:induction false} CompilesIff(cfg: Config, s: Stmt, toplevel: bool, parentFlow: bool)
    ensures Compile(cfg, s, toplevel, parentFlow).Some? <==>
            Sane(cfg, s, toplevel) && forall d :: Below(d, s) ==> Sane(cfg, d, false)
    decreases s
  {
    hide Sane, Resolves;
    forall j | 0 <= j < |s.forks|
      ensures Compile(cfg, s.forks[j], false, s.flags.flowControl).Some? <==>
              Sane(cfg, s.forks[j], false) && forall d :: Below(d, s.forks[j]) ==> Sane(cfg, d, false)
    {
      CompilesIff(cfg, s.forks[j], false, s.flags.flowControl);
    }
    ForksCompile(cfg, s, false, 0);
    BelowIff(cfg, s);
    if s.flags.catchAll && !toplevel {
      NotSane(cfg, s);
    } else {
      SaneIff(cfg, s, toplevel);
      if CompileForks(cfg, s, false, 0).Some? {
        var hops := CompileForks(cfg, s, false, 0).value;
        ItemsCompile(cfg, s, toplevel, 0, if s.forks == [] then End else Mpx(hops, End));
      }
    }
  }

  lemma NotSane(cfg: Config, s: Stmt)
    requires s.flags.catchAll
    ensures !Sane(cfg, s, false)
  {
  }

  lemma BelowIff(cfg: Config, s: Stmt)
    ensures (forall d :: Below(d, s) ==> Sane(cfg, d, false)) <==>
            forall j :: 0 <= j < |s.forks| ==>
              Sane(cfg, s.forks[j], false) && forall d :: Below(d, s.forks[j]) ==> Sane(cfg, d, false)
  {
    hide Sane;
    if forall d :: Below(d, s) ==> Sane(cfg, d, false) {
      forall j | 0 <= j < |s.forks|
        ensures Sane(cfg, s.forks[j], false) && forall d :: Below(d, s.forks[j]) ==> Sane(cfg, d, false)
      {
        assert Below(s.forks[j], s);
        assert forall d :: Below(d, s.forks[j]) ==> Below(d, s);
      }
    }
  }

  /** `g(d)` is the number of drivers of destination group `d`. */
  type Drivers = string -> nat

  // ----- what pipes do to a message

  type Block = seq<nat>

  /** The values, tags and structured data of a message. */
  type Content = seq<Block>

  /** One call that stores into part `part` of the message. */
  datatype Edit = Edit(part: nat, value: Block)

  /** What a processing pipe does: the stores it makes, then accept or reject. */
  datatype Effect = Effect(edits: seq<Edit>, accept: bool)

  /** The effect of every processing pipe on every message. */
  type Meaning = (Elem, Content) -> Effect

  function Stored(c: Content, e: Edit): Content {
    if e.part < |c| then c[e.part := e.value] else c
  }

  function Edited(c: Content, edits: seq<Edit>): Content
    decreases |edits|
  {
    if edits == [] then c else Stored(Edited(c, edits[..|edits| - 1]), edits[|edits| - 1])
  }

  datatype Event = Event(dest: string, content: Content, flow: bool)

  // ----- following the compiled pipes

  datatype Reading = Reading(events: seq<Event>, matched: bool)

  function ReadPath(sem: Meaning, p: Path, c: Content, flow: bool): Reading
    decreases p, 0
  {
    match p
    case End => Reading([], true)
    case Proc(e, rest) =>
      var r := sem(e, c);
      if r.accept then ReadPath(sem, rest, Edited(c, r.edits), flow) else Reading([], false)
    case Group(d, rest) =>
      var r := ReadPath(sem, rest, c, flow);
      Reading([Event(d, c, flow)] + r.events, r.matched)
    case Mpx(hops, rest) =>
      var r := ReadPath(sem, rest, c, flow);
      Reading(ReadHops(sem, hops, c, flow) + r.events, r.matched)
  }

  /** One pass over the hops that are (or are not) fallback branches; `matched` of the
      result is the multiplexer's `delivered`. */
  function Pass(sem: Meaning, hops: Hops, fallback: bool, c: Content, flow: bool): Reading
    decreases hops, 0
  {
    match hops
    case NoHops => Reading([], false)
    case Hop(path, mark, tail) =>
      if mark.fallback != fallback then Pass(sem, tail, fallback, c, flow)
      else
        var r := ReadPath(sem, path, c, flow || mark.hard);
        if r.matched && mark.final then r
        else
          var t := Pass(sem, tail, fallback, c, flow);
          Reading(r.events + t.events, r.matched || t.matched)
  }

  predicate FallbackExists(hops: Hops) {
    hops.Hop? && (hops.mark.fallback || FallbackExists(hops.tail))
  }

  function ReadHops(sem: Meaning, hops: Hops, c: Content, flow: bool): seq<Event>
    decreases hops, 1
  {
    var first := Pass(sem, hops, false, c, flow);
    if first.matched || !FallbackExists(hops) then first.events
    else first.events + Pass(sem, hops, true, c, flow).events
  }

  // ----- reading the statement directly

  /** The message as it leaves the elements, or None when one of them rejects it. */
  function Through(sem: Meaning, elems: seq<Elem>, i: nat, c: Content): Option<Content>
    requires i <= |elems|
    decreases |elems| - i
  {
    if i == |elems| then Some(c)
    else
      var r := sem(elems[i], c);
      if r.accept then Through(sem, elems, i + 1, Edited(c, r.edits)) else None
  }

  /** The message as it leaves the items before item `n`. */
  function At(cfg: Config, sem: Meaning, items: seq<Item>, n: nat, c: Content): Option<Content>
    requires n <= |items|
  {
    if n == 0 then Some(c)
    else
      var before := At(cfg, sem, items, n - 1, c);
      if before == None then None else Through(sem, Rule(cfg, items[n - 1]), 0, before.value)
  }

  /** A branch matches when none of its own processing elements rejects the message. */
  predicate Matches(cfg: Config, sem: Meaning, s: Stmt, c: Content) {
    At(cfg, sem, s.items, |s.items|, c).Some?
  }

  /** Which branches of `s` get the message: a fallback branch only when no other branch
      matches, and no branch after a matching final branch of its own sort. */
  predicate Visited(cfg: Config, sem: Meaning, s: Stmt, i: nat, c: Content)
    requires i < |s.forks|
  {
    && (s.forks[i].flags.fallback ==>
          forall j :: 0 <= j < |s.forks| && !s.forks[j].flags.fallback ==> !Matches(cfg, sem, s.forks[j], c))
    && forall j :: 0 <= j < i && s.forks[j].flags.fallback == s.forks[i].flags.fallback && s.forks[j].flags.final ==>
         !Matches(cfg, sem, s.forks[j], c)
  }

  /** Some statement of the tree asks for flow control. */
  predicate AnyFlow(s: Stmt)
    decreases s
  {
    s.flags.flowControl || exists i :: 0 <= i < |s.forks| && AnyFlow(s.forks[i])
  }

  function OwnEvent(it: Item, c: Content, flow: bool): seq<Event> {
    if it.Destination? then [Event(it.name, c, flow)] else []
  }

  /** Every destination before the first rejecting element, in order. */
  function ItemEvents(cfg: Config, sem: Meaning, items: seq<Item>, n: nat, c: Content, flow: bool): seq<Event>
    requires n <= |items|
  {
    if n == 0 then []
    else
      var before := At(cfg, sem, items, n - 1, c);
      ItemEvents(cfg, sem, items, n - 1, c, flow) +
      if before.Some? then OwnEvent(items[n - 1], before.value, flow) else []
  }

  function ForkEvents(cfg: Config, sem: Meaning, s: Stmt, fallback: bool, n: nat, c: Content, flow: bool): seq<Event>
    requires n <= |s.forks|
    decreases s, 0, |s.forks| - n
  {
    if n == |s.forks| then []
    else
      (if s.forks[n].flags.fallback == fallback && Visited(cfg, sem, s, n, c)
       then Direct(cfg, sem, s.forks[n], c, flow || AnyFlow(s.forks[n])) else [])
      + ForkEvents(cfg, sem, s, fallback, n + 1, c, flow)
  }

  /** The deliveries a reader of the configuration expects: the destinations up to the
      first rejecting element, then the visited branches, each with the message as it
      was at the end of the items. */
  function Direct(cfg: Config, sem: Meaning, s: Stmt, c: Content, flow: bool): seq<Event>
    decreases s, 1, 0
  {
    var out := At(cfg, sem, s.items, |s.items|, c);
    ItemEvents(cfg, sem, s.items, |s.items|, c, flow) +
    if out == None then []
    else ForkEvents(cfg, sem, s, false, 0, out.value, flow) + ForkEvents(cfg, sem, s, true, 0, out.value, flow)
  }


  // ----- flow control: marking up and down the tree

  lemma {:induction false} HardForks(cfg: Config, s: Stmt, top: bool, i: nat)
    requires i <= |s.forks| && CompileForks(cfg, s, top, i).Some?
    ensures AnyHard(CompileForks(cfg, s, top, i).value) <==>
            exists j :: i <= j < |s.forks| && (s.flags.flowControl || AnyFlow(s.forks[j]))
    decreases s, 0, |s.forks| - i
  {
    if i < |s.forks| {
      HardIsAnyFlow(cfg, s.forks[i], top, s.flags.flowControl);
      HardForks(cfg, s, top, i + 1);
    }
  }

  /** The first pipe is marked exactly when the parent or a statement of the tree asks
      for flow control. */
  lemma {:induction false} HardIsAnyFlow(cfg: Config, s: Stmt, toplevel: bool, parentFlow: bool)
    requires Compile(cfg, s, toplevel, parentFlow).Some?
    ensures Compile(cfg, s, toplevel, parentFlow).value.1.hard <==> parentFlow || AnyFlow(s)
    decreases s, 1, 0
  {
    HardForks(cfg, s, false, 0);
  }

  // ----- the compiled pipes deliver what the statement says

  lemma {:induction false} ReadPrepend(sem: Meaning, elems: seq<Elem>, i: nat, rest: Path, c: Content, flow: bool)
    requires i <= |elems|
    ensures var out := Through(sem, elems, i, c);
            ReadPath(sem, Prepend(elems, i, rest), c, flow) ==
            if out.Some? then ReadPath(sem, rest, out.value, flow) else Reading([], false)
    decreases |elems| - i
  {
    if i < |elems| {
      var r := sem(elems[i], c);
      if r.accept {
        ReadPrepend(sem, elems, i + 1, rest, Edited(c, r.edits), flow);
      }
    }
  }

  lemma {:induction false} Stopped(cfg: Config, sem: Meaning, items: seq<Item>, i: nat, n: nat, c: Content, flow: bool)
    requires i <= n <= |items| && At(cfg, sem, items, i, c) == None
    ensures At(cfg, sem, items, n, c) == None
    ensures ItemEvents(cfg, sem, items, n, c, flow) == ItemEvents(cfg, sem, items, i, c, flow)
    decreases n - i
  {
    if i < n {
      Stopped(cfg, sem, items, i, n - 1, c, flow);
    }
  }

  /** A destination reference is a multiplexer with the group as its only hop. */
  lemma ReadOneDest(sem: Meaning, name: string, tail: Path, c: Content, flow: bool)
    ensures var r := ReadPath(sem, Mpx(Hop(Group(name, End), PLAIN, NoHops), tail), c, flow);
            var t := ReadPath(sem, tail, c, flow);
            r == Reading([Event(name, c, flow)] + t.events, t.matched)
  {
    var hops := Hop(Group(name, End), PLAIN, NoHops);
    var e := [Event(name, c, flow)];
    assert ReadPath(sem, Group(name, End), c, flow) == Reading(e + [], true);
    assert e + [] == e;
    assert Pass(sem, hops, false, c, flow) == Reading(e + [], true);
    assert ReadHops(sem, hops, c, flow) == e;
  }

  lemma ReadItem(cfg: Config, sem: Meaning, it: Item, tail: Path, c: Content, flow: bool)
    ensures var out := Through(sem, Rule(cfg, it), 0, c);
            var after := if out.Some? then ReadPath(sem, tail, out.value, flow) else Reading([], false);
            ReadPath(sem, ItemPath(cfg, it, tail), c, flow) ==
                Reading(OwnEvent(it, c, flow) + after.events, after.matched)
  {
    if it.Destination? {
      ReadOneDest(sem, it.name, tail, c, flow);
    } else {
      ReadPrepend(sem, Rule(cfg, it), 0, tail, c, flow);
    }
  }

  lemma Regroup(a: seq<Event>, b: seq<Event>, c: seq<Event>)
    ensures a + (b + c) == a + b + c
  {
  }

  /** Reading the compiled items from `i` on yields the remaining destinations and then
      whatever `rest` does with the message that came through. */
  lemma {:induction false} ReadItems(cfg: Config, sem: Meaning, s: Stmt, toplevel: bool, i: nat, rest: Path, c: Content,
                                     flow: bool)
    requires i <= |s.items| && At(cfg, sem, s.items, i, c).Some?
    requires CompileItems(cfg, s, toplevel, i, rest).Some?
    ensures var r := ReadPath(sem, CompileItems(cfg, s, toplevel, i, rest).value, At(cfg, sem, s.items, i, c).value,
              flow);
            var out := At(cfg, sem, s.items, |s.items|, c);
            var after := if out.Some? then ReadPath(sem, rest, out.value, flow) else Reading([], false);
            && ItemEvents(cfg, sem, s.items, i, c, flow) + r.events ==
               ItemEvents(cfg, sem, s.items, |s.items|, c, flow) + after.events
            && r.matched == after.matched
    decreases |s.items| - i
  {
    hide ReadPath, Through, Rule, ItemPath, OwnEvent;
    if i < |s.items| {
      var it := s.items[i];
      var ci := At(cfg, sem, s.items, i, c).value;
      var tail := CompileItems(cfg, s, toplevel, i + 1, rest).value;
      ReadItem(cfg, sem, it, tail, ci, flow);
      var next := At(cfg, sem, s.items, i + 1, c);
      Regroup(ItemEvents(cfg, sem, s.items, i, c, flow), OwnEvent(it, ci, flow),
              if next.Some? then ReadPath(sem, tail, next.value, flow).events else []);
      if At(cfg, sem, s.items, i + 1, c).Some? {
        ReadItems(cfg, sem, s, toplevel, i + 1, rest, c, flow);
      } else {
        Stopped(cfg, sem, s.items, i + 1, |s.items|, c, flow);
      }
    }
  }

  /** A matching final branch of this sort comes before branch `i`. */
  predicate Closed(cfg: Config, sem: Meaning, s: Stmt, fallback: bool, i: nat, c: Content)
    requires i <= |s.forks|
  {
    exists j :: 0 <= j < i && s.forks[j].flags.fallback == fallback && s.forks[j].flags.final
        && Matches(cfg, sem, s.forks[j], c)
  }

  /** Some branch of this sort from `i` on matches. */
  predicate Taken(cfg: Config, sem: Meaning, s: Stmt, fallback: bool, i: nat, c: Content)
    requires i <= |s.forks|
  {
    exists j :: i <= j < |s.forks| && s.forks[j].flags.fallback == fallback && Matches(cfg, sem, s.forks[j], c)
  }

  /** Branches that are not visited contribute nothing. */
  lemma {:induction false} NoEvents(cfg: Config, sem: Meaning, s: Stmt, fallback: bool, i: nat, c: Content, flow: bool)
    requires i <= |s.forks|
    requires Closed(cfg, sem, s, fallback, i, c) || (fallback && Taken(cfg, sem, s, false, 0, c))
             || (forall j :: i <= j < |s.forks| ==> s.forks[j].flags.fallback != fallback)
    ensures ForkEvents(cfg, sem, s, fallback, i, c, flow) == []
    decreases |s.forks| - i
  {
    if i < |s.forks| {
      NoEvents(cfg, sem, s, fallback, i + 1, c, flow);
    }
  }

  lemma BranchStep(cfg: Config, sem: Meaning, s: Stmt, fallback: bool, i: nat, c: Content)
    requires i < |s.forks|
    ensures var here := s.forks[i].flags.fallback == fallback && Matches(cfg, sem, s.forks[i], c);
            && (Taken(cfg, sem, s, fallback, i, c) <==> here || Taken(cfg, sem, s, fallback, i + 1, c))
            && (Closed(cfg, sem, s, fallback, i + 1, c) <==>
                Closed(cfg, sem, s, fallback, i, c) || (here && s.forks[i].flags.final))
    ensures s.forks[i].flags.fallback == fallback ==>
              (Visited(cfg, sem, s, i, c) <==>
               !Closed(cfg, sem, s, fallback, i, c) && (fallback ==> !Taken(cfg, sem, s, false, 0, c)))
  {
  }

  lemma FirstFork(cfg: Config, s: Stmt, top: bool, i: nat)
    requires i < |s.forks| && CompileForks(cfg, s, top, i).Some?
    ensures var first := Compile(cfg, s.forks[i], top, s.flags.flowControl);
            var rest := CompileForks(cfg, s, top, i + 1);
            && first.Some? && rest.Some?
            && CompileForks(cfg, s, top, i).value == Hop(first.value.0, first.value.1, rest.value)
  {
    hide Compile;
  }

  lemma PassOne(sem: Meaning, path: Path, mark: Mark, tail: Hops, fallback: bool, c: Content, flow: bool)
    ensures var r := ReadPath(sem, path, c, flow || mark.hard);
            var t := Pass(sem, tail, fallback, c, flow);
            Pass(sem, Hop(path, mark, tail), fallback, c, flow) ==
            if mark.fallback != fallback then t
            else if r.matched && mark.final then r else Reading(r.events + t.events, r.matched || t.matched)
  {
    hide ReadPath;
  }

  lemma EventsOne(cfg: Config, sem: Meaning, s: Stmt, fallback: bool, i: nat, c: Content, flow: bool)
    requires i < |s.forks|
    ensures ForkEvents(cfg, sem, s, fallback, i, c, flow) ==
            (if s.forks[i].flags.fallback == fallback && Visited(cfg, sem, s, i, c)
             then Direct(cfg, sem, s.forks[i], c, flow || AnyFlow(s.forks[i])) else [])
            + ForkEvents(cfg, sem, s, fallback, i + 1, c, flow)
  {
    hide Visited, Direct, AnyFlow;
  }

  /** A pass over the compiled branches from `i` on, none being cut off already. */
  lemma {:induction false} PassIsForkEvents(cfg: Config, sem: Meaning, s: Stmt, top: bool, fallback: bool, i: nat,
                                            c: Content, flow: bool)
    requires i <= |s.forks| && CompileForks(cfg, s, top, i).Some?
    requires s.flags.flowControl ==> flow
    requires !Closed(cfg, sem, s, fallback, i, c)
    requires fallback ==> !Taken(cfg, sem, s, false, 0, c)
    ensures var r := Pass(sem, CompileForks(cfg, s, top, i).value, fallback, c, flow);
            && r.events == ForkEvents(cfg, sem, s, fallback, i, c, flow)
            && (r.matched <==> Taken(cfg, sem, s, fallback, i, c))
    decreases s, 0, |s.forks| - i, 1
  {
    if i < |s.forks| {
      hide Compile, CompileForks, Direct, Visited, Taken, Closed, Matches, Pass, ForkEvents, AnyFlow;
      FirstFork(cfg, s, top, i);
      BranchStep(cfg, sem, s, fallback, i, c);
      BranchMark(cfg, s.forks[i], top, s.flags.flowControl);
      var br := Compile(cfg, s.forks[i], top, s.flags.flowControl).value;
      PassOne(sem, br.0, br.1, CompileForks(cfg, s, top, i + 1).value, fallback, c, flow);
      EventsOne(cfg, sem, s, fallback, i, c, flow);
      if s.forks[i].flags.fallback != fallback {
        PassIsForkEvents(cfg, sem, s, top, fallback, i + 1, c, flow);
        assert [] + ForkEvents(cfg, sem, s, fallback, i + 1, c, flow) ==
                 ForkEvents(cfg, sem, s, fallback, i + 1, c, flow);
      } else {
        BranchEvents(cfg, sem, s, top, fallback, i, c, flow);
      }
    }
  }

  lemma BranchMark(cfg: Config, s: Stmt, top: bool, parentFlow: bool)
    requires Compile(cfg, s, top, parentFlow).Some?
    ensures var mark := Compile(cfg, s, top, parentFlow).value.1;
            mark.fallback == s.flags.fallback && mark.final == s.flags.final
  {
  }

  /** Branch `i` is visited, and then the pass goes on or not. */
  lemma {:induction false} BranchEvents(cfg: Config, sem: Meaning, s: Stmt, top: bool, fallback: bool, i: nat,
                                        c: Content, flow: bool)
    requires i < |s.forks| && CompileForks(cfg, s, top, i).Some? && s.forks[i].flags.fallback == fallback
    requires s.flags.flowControl ==> flow
    requires !Closed(cfg, sem, s, fallback, i, c)
    requires fallback ==> !Taken(cfg, sem, s, false, 0, c)
    ensures var r := Pass(sem, CompileForks(cfg, s, top, i).value, fallback, c, flow);
            && r.events == ForkEvents(cfg, sem, s, fallback, i, c, flow)
            && (r.matched <==> Taken(cfg, sem, s, fallback, i, c))
    decreases s, 0, |s.forks| - i, 0
  {
    hide Compile, CompileForks, Direct, Visited, Taken, Closed, Matches, Pass, ForkEvents, AnyFlow, ReadPath;
    var b := s.forks[i];
    FirstFork(cfg, s, top, i);
    BranchStep(cfg, sem, s, fallback, i, c);
    BranchMark(cfg, b, top, s.flags.flowControl);
    var br := Compile(cfg, b, top, s.flags.flowControl).value;
    PassOne(sem, br.0, br.1, CompileForks(cfg, s, top, i + 1).value, fallback, c, flow);
    EventsOne(cfg, sem, s, fallback, i, c, flow);
    HardIsAnyFlow(cfg, b, top, s.flags.flowControl);
    CompiledIsDirect(cfg, sem, b, top, s.flags.flowControl, c, flow || AnyFlow(b));
    assert flow || br.1.hard == (flow || AnyFlow(b));
    if Matches(cfg, sem, b, c) && b.flags.final {
      NoEvents(cfg, sem, s, fallback, i + 1, c, flow);
      assert Direct(cfg, sem, b, c, flow || AnyFlow(b)) + [] == Direct(cfg, sem, b, c, flow || AnyFlow(b));
    } else {
      PassIsForkEvents(cfg, sem, s, top, fallback, i + 1, c, flow);
    }
  }

  /** Both passes of the multiplexer together visit exactly the visited branches. */
  lemma {:induction false} HopsAreForkEvents(cfg: Config, sem: Meaning, s: Stmt, top: bool, c: Content, flow: bool)
    requires CompileForks(cfg, s, top, 0).Some? && (s.flags.flowControl ==> flow)
    ensures ReadHops(sem, CompileForks(cfg, s, top, 0).value, c, flow) ==
            ForkEvents(cfg, sem, s, false, 0, c, flow) + ForkEvents(cfg, sem, s, true, 0, c, flow)
    decreases s, 1, 0
  {
    var hops := CompileForks(cfg, s, top, 0).value;
    PassIsForkEvents(cfg, sem, s, top, false, 0, c, flow);
    if Taken(cfg, sem, s, false, 0, c) {
      NoEvents(cfg, sem, s, true, 0, c, flow);
    } else {
      FallbackForks(cfg, s, top, 0);
      if FallbackExists(hops) {
        PassIsForkEvents(cfg, sem, s, top, true, 0, c, flow);
      } else {
        NoEvents(cfg, sem, s, true, 0, c, flow);
      }
    }
  }

  lemma {:induction false} FallbackForks(cfg: Config, s: Stmt, top: bool, i: nat)
    requires i <= |s.forks| && CompileForks(cfg, s, top, i).Some?
    ensures FallbackExists(CompileForks(cfg, s, top, i).value) <==>
              exists j :: i <= j < |s.forks| && s.forks[j].flags.fallback
    decreases |s.forks| - i
  {
    if i < |s.forks| {
      FallbackForks(cfg, s, top, i + 1);
    }
  }

  /** Following the compiled pipes delivers exactly what a direct reading of the
      statement gives, for every tree of statements and every message. */
  lemma {:induction false} CompiledIsDirect(cfg: Config, sem: Meaning, s: Stmt, toplevel: bool, parentFlow: bool,
                                            c: Content, flow: bool)
    requires Compile(cfg, s, toplevel, parentFlow).Some?
    requires AnyFlow(s) ==> flow
    ensures ReadPath(sem, Compile(cfg, s, toplevel, parentFlow).value.0, c, flow) ==
            Reading(Direct(cfg, sem, s, c, flow), Matches(cfg, sem, s, c))
    decreases s, 2, 0
  {
    hide ReadPath, ReadHops, ItemEvents, ForkEvents, At, CompileItems;
    var hops := CompileForks(cfg, s, false, 0).value;
    var rest := if s.forks == [] then End else Mpx(hops, End);
    var p := CompileItems(cfg, s, toplevel, 0, rest).value;
    Begin(cfg, sem, s.items, c, flow);
    ReadItems(cfg, sem, s, toplevel, 0, rest, c, flow);
    assert [] + ReadPath(sem, p, c, flow).events == ReadPath(sem, p, c, flow).events;
    var out := At(cfg, sem, s.items, |s.items|, c);
    if out.Some? {
      ReadLast(cfg, sem, s, hops, out.value, flow);
      if s.forks != [] {
        HopsAreForkEvents(cfg, sem, s, false, out.value, flow);
      }
    }
  }

  lemma Begin(cfg: Config, sem: Meaning, items: seq<Item>, c: Content, flow: bool)
    ensures At(cfg, sem, items, 0, c) == Some(c) && ItemEvents(cfg, sem, items, 0, c, flow) == []
  {
  }

  lemma ReadLast(cfg: Config, sem: Meaning, s: Stmt, hops: Hops, c: Content, flow: bool)
    ensures ReadPath(sem, Mpx(hops, End), c, flow) == Reading(ReadHops(sem, hops, c, flow), true)
    ensures ReadPath(sem, End, c, flow) == Reading([], true)
    ensures s.forks == [] ==>
              ForkEvents(cfg, sem, s, false, 0, c, flow) + ForkEvents(cfg, sem, s, true, 0, c, flow) == []
  {
    assert ReadPath(sem, End, c, flow) == Reading([], true);
    assert ReadHops(sem, hops, c, flow) + [] == ReadHops(sem, hops, c, flow);
  }

  /** The branches a source feeds are those of a statement without items of its own. */
  function FromSource(branches: seq<Stmt>): Stmt {
    Stmt([], branches, Flags(false, false, false, false))
  }

  /** All deliveries of a message that enters the multiplexer of a source. */
  function SourceEvents(cfg: Config, sem: Meaning, branches: seq<Stmt>, c: Content): seq<Event> {
    ForkEvents(cfg, sem, FromSource(branches), false, 0, c, false)
        + ForkEvents(cfg, sem, FromSource(branches), true, 0, c, false)
  }

  /** The pipes behind a source deliver to exactly the destinations, in exactly the order
      and with exactly the contents and the flow control a reading of its top-level
      statements gives. */
  lemma SourceReading(cfg: Config, sem: Meaning, branches: seq<Stmt>, c: Content)
    requires CompileForks(cfg, FromSource(branches), true, 0).Some?
    ensures ReadHops(sem, CompileForks(cfg, FromSource(branches), true, 0).value, c, false) ==
            SourceEvents(cfg, sem, branches, c)
  {
    HopsAreForkEvents(cfg, sem, FromSource(branches), true, c, false);
  }

  // ----- flow control of a delivery

  /** Every delivery of a tree of statements has the same flow control. */
  lemma {:induction false} TreeFlow(cfg: Config, sem: Meaning, s: Stmt, c: Content, flow: bool, e: Event)
    requires AnyFlow(s) ==> flow
    requires e in Direct(cfg, sem, s, c, flow)
    ensures e.flow == flow
    decreases s, 1, 0
  {
    if e in ItemEvents(cfg, sem, s.items, |s.items|, c, flow) {
      ItemFlow(cfg, sem, s.items, |s.items|, c, flow, e);
    } else {
      var out := At(cfg, sem, s.items, |s.items|, c).value;
      ForkFlow(cfg, sem, s, e in ForkEvents(cfg, sem, s, true, 0, out, flow), 0, out, flow, e);
    }
  }

  lemma {:induction false} ItemFlow(cfg: Config, sem: Meaning, items: seq<Item>, n: nat, c: Content, flow: bool,
                                    e: Event)
    requires n <= |items| && e in ItemEvents(cfg, sem, items, n, c, flow)
    ensures e.flow == flow
  {
    if e in ItemEvents(cfg, sem, items, n - 1, c, flow) {
      ItemFlow(cfg, sem, items, n - 1, c, flow, e);
    }
  }

  lemma {:induction false} ForkFlow(cfg: Config, sem: Meaning, s: Stmt, fallback: bool, n: nat, c: Content, flow: bool,
                                    e: Event)
    requires n <= |s.forks| && (AnyFlow(s) ==> flow) && e in ForkEvents(cfg, sem, s, fallback, n, c, flow)
    ensures e.flow == flow
    decreases s, 0, |s.forks| - n
  {
    hide Visited, Direct, At;
    if e in ForkEvents(cfg, sem, s, fallback, n + 1, c, flow) {
      ForkFlow(cfg, sem, s, fallback, n + 1, c, flow, e);
    } else {
      TreeFlow(cfg, sem, s.forks[n], c, flow, e);
    }
  }

  /** Flow control is requested of a destination exactly when some statement of the
      top-level tree that delivers to it asks for it. */
  lemma {:induction false} SourceFlow(cfg: Config, sem: Meaning, branches: seq<Stmt>, fallback: bool, n: nat,
                                      c: Content, e: Event)
      returns (i: nat)
    requires n <= |branches| && e in ForkEvents(cfg, sem, FromSource(branches), fallback, n, c, false)
    ensures n <= i < |branches| && Visited(cfg, sem, FromSource(branches), i, c)
    ensures e in Direct(cfg, sem, branches[i], c, AnyFlow(branches[i])) && (e.flow <==> AnyFlow(branches[i]))
    decreases |branches| - n
  {
    var s := FromSource(branches);
    if s.forks[n].flags.fallback == fallback && Visited(cfg, sem, s, n, c) &&
       e in Direct(cfg, sem, branches[n], c, AnyFlow(branches[n])) {
      i := n;
      TreeFlow(cfg, sem, branches[n], c, AnyFlow(branches[n]), e);
    } else {
      i := SourceFlow(cfg, sem, branches, fallback, n + 1, c, e);
    }
  }
}
