/** The compiler from log statements to pipes, working in place on a graph of pipes. */
module LogCenter {
  import opened Wrappers
  import opened LogTree
  import opened PipeGraph

  type Key = (Kind, string)

  // ----- statements as chains of stages

  function ElemStages(elems: seq<Elem>): seq<Stage> {
    seq(|elems|, i requires 0 <= i < |elems| => SProc(elems[i]))
  }

  function ItemStages(cfg: Config, it: Item): seq<Stage> {
    if it.Destination? then [SMpx([(Group(it.name, End), PLAIN)])] else ElemStages(Rule(cfg, it))
  }

  function StagesFrom(cfg: Config, items: seq<Item>, i: nat): seq<Stage>
    requires i <= |items|
    decreases |items| - i
  {
    if i == |items| then [] else ItemStages(cfg, items[i]) + StagesFrom(cfg, items, i + 1)
  }

  lemma {:induction false} BuildSuffix(a: seq<Stage>, b: seq<Stage>, j: nat)
    requires j <= |b|
    ensures Build(a + b, |a| + j) == Build(b, j)
    decreases |b| - j
  {
    if j < |b| {
      BuildSuffix(a, b, j + 1);
    }
  }

  lemma {:induction false} BuildElems(elems: seq<Elem>, rest: seq<Stage>, i: nat)
    requires i <= |elems|
    ensures Build(ElemStages(elems) + rest, i) == Prepend(elems, i, Build(rest, 0))
    decreases |elems| - i
  {
    if i == |elems| {
      BuildSuffix(ElemStages(elems), rest, 0);
    } else {
      BuildElems(elems, rest, i + 1);
    }
  }

  lemma BuildItem(cfg: Config, it: Item, rest: seq<Stage>)
    ensures Build(ItemStages(cfg, it) + rest, 0) == ItemPath(cfg, it, Build(rest, 0))
  {
    if it.Destination? {
      var b: Branches := [(Group(it.name, End), PLAIN)];
      assert ToHops(b, 1) == NoHops;
      assert ToHops(b, 0) == Hop(Group(it.name, End), PLAIN, NoHops);
      BuildSuffix([SMpx(b)], rest, 0);
    } else {
      BuildElems(Rule(cfg, it), rest, 0);
    }
  }

  /** The items from `i` on can all be resolved. */
  predicate AllResolve(cfg: Config, s: Stmt, toplevel: bool, i: nat) {
    forall j :: i <= j < |s.items| ==> Resolves(cfg, s, toplevel, s.items[j])
  }

  lemma {:induction false} CompileItemsIsBuild(cfg: Config, s: Stmt, toplevel: bool, i: nat, rest: seq<Stage>)
    requires i <= |s.items|
    ensures CompileItems(cfg, s, toplevel, i, Build(rest, 0)) ==
            if AllResolve(cfg, s, toplevel, i) then Some(Build(StagesFrom(cfg, s.items, i) + rest, 0)) else None
    decreases |s.items| - i
  {
    if i == |s.items| {
      assert StagesFrom(cfg, s.items, i) + rest == rest;
    } else {
      CompileItemsIsBuild(cfg, s, toplevel, i + 1, rest);
      BuildItem(cfg, s.items[i], StagesFrom(cfg, s.items, i + 1) + rest);
      assert StagesFrom(cfg, s.items, i) + rest ==
               ItemStages(cfg, s.items[i]) + (StagesFrom(cfg, s.items, i + 1) + rest);
    }
  }

  /** The compiled branches of `s` up to `n`, if all of them compile. */
  predicate Compiled(cfg: Config, s: Stmt, top: bool, b: Branches) {
    |b| <= |s.forks| && forall i :: 0 <= i < |b| ==> Compile(cfg, s.forks[i], top, s.flags.flowControl) == Some(b[i])
  }

  lemma {:induction false} CompiledIsForks(cfg: Config, s: Stmt, top: bool, b: Branches, i: nat)
    requires Compiled(cfg, s, top, b) && |b| == |s.forks| && i <= |b|
    ensures CompileForks(cfg, s, top, i) == Some(ToHops(b, i))
    decreases |b| - i
  {
    if i < |b| {
      CompiledIsForks(cfg, s, top, b, i + 1);
    }
  }

  lemma {:induction false} UncompiledForks(cfg: Config, s: Stmt, top: bool, i: nat, j: nat)
    requires i <= j < |s.forks| && Compile(cfg, s.forks[j], top, s.flags.flowControl) == None
    ensures CompileForks(cfg, s, top, i) == None
    decreases j - i
  {
    if i < j {
      UncompiledForks(cfg, s, top, i + 1, j);
    }
  }

  lemma {:induction false} HardBranches(b: Branches, i: nat)
    requires i <= |b|
    ensures AnyHard(ToHops(b, i)) <==> exists j :: i <= j < |b| && b[j].1.hard
    decreases |b| - i
  {
    if i < |b| {
      HardBranches(b, i + 1);
    }
  }

  /** The stages of a statement: its items, then one multiplexer for its branches. */
  function ForkStages(b: Branches): seq<Stage> { if b == [] then [] else [SMpx(b)] }

  lemma ForkStagesBuild(b: Branches)
    ensures Build(ForkStages(b), 0) == if b == [] then End else Mpx(ToHops(b, 0), End)
  {
    if b != [] {
      assert Build(ForkStages(b), 1) == End;
    }
  }

  /** What compiling comes to, in terms of stages. */
  lemma CompileIs(cfg: Config, s: Stmt, toplevel: bool, parentFlow: bool, b: Branches)
    requires Compiled(cfg, s, false, b) && |b| == |s.forks|
    ensures var stages := StagesFrom(cfg, s.items, 0) + ForkStages(b);
            Compile(cfg, s, toplevel, parentFlow) ==
            if (!toplevel && s.flags.catchAll) || !AllResolve(cfg, s, toplevel, 0) || stages == [] then None
            else Some((Build(stages, 0),
                       Mark(s.flags.fallback, s.flags.final, Changes(cfg, s.items),
                            s.flags.flowControl || (exists j :: 0 <= j < |b| && b[j].1.hard) || parentFlow)))
  {
    CompiledIsForks(cfg, s, false, b, 0);
    HardBranches(b, 0);
    ForkStagesBuild(b);
    CompileItemsIsBuild(cfg, s, toplevel, 0, ForkStages(b));
  }

  // ----- what the compiler keeps about the graph

  /** Where the configuration's own pipes are. */
  datatype Places = Places(rules: map<Key, seq<nat>>, groups: map<string, nat>, sources: map<string, nat>)

  /** The graph during compilation: `sealed` pipes belong to finished statements, `open`
      ones to statements being compiled, and `fed` holds the branches of each source. */
  datatype Graph = Graph(pipes: seq<Pipe>, sealed: set<nat>, open: set<nat>, fed: map<string, Branches>)

  function Plain(e: Elem): Mark { Mark(false, false, e.changing, false) }

  /** A rule that has not been referenced yet still has its pipes to itself. */
  ghost predicate SpareRule(g: Graph, ids: seq<nat>, elems: seq<Elem>)
    requires |ids| == |elems|
  {
    forall i :: 0 <= i < |ids| ==>
      && ids[i] < |g.pipes| && ids[i] !in g.sealed && ids[i] !in g.open
      && g.pipes[ids[i]] == Pipe(KProc(elems[i]), None, Plain(elems[i]), false)
  }

  ghost predicate RuleOk(g: Graph, ids: seq<nat>, elems: seq<Elem>) {
    && |ids| == |elems|
    && (forall i :: 0 <= i < |ids| ==> ids[i] < |g.pipes| && g.pipes[ids[i]].kind == KProc(elems[i]))
    && (forall i, j :: 0 <= i < j < |ids| ==> ids[i] != ids[j])
    && (ids != [] && !g.pipes[ids[0]].inlined ==> SpareRule(g, ids, elems))
  }

  ghost predicate RulesOk(cfg: Config, at: Places, g: Graph) {
    && (forall k :: k in cfg.rules ==> k in at.rules && RuleOk(g, at.rules[k], cfg.rules[k]))
    && (forall k, l, i, j ::
          (k in cfg.rules && l in cfg.rules && k != l && k in at.rules && l in at.rules &&
           0 <= i < |at.rules[k]| && 0 <= j < |at.rules[l]|) ==> at.rules[k][i] != at.rules[l][j])
  }

  ghost predicate GroupsOk(cfg: Config, at: Places, g: Graph) {
    forall d :: d in cfg.dests ==>
      && d in at.groups && at.groups[d] < |g.pipes| && at.groups[d] in g.sealed
      && g.pipes[at.groups[d]] == Pipe(KGroup(d), None, PLAIN, false)
  }

  /** A source without multiplexer feeds nothing; otherwise its multiplexer has the
      branches recorded in `fed`. */
  ghost predicate SourceOk(g: Graph, name: string, p: nat) {
    && p < |g.pipes| && p !in g.sealed && p !in g.open && name in g.fed && g.pipes[p].kind == KSource(name)
    && match g.pipes[p].next
       case None => g.fed[name] == []
       case Some(x) =>
         && x < |g.pipes| && x !in g.sealed && x !in g.open && g.pipes[x].kind.KMpx? && g.pipes[x].next == None
         && RepBranches(g.pipes, g.sealed, g.pipes[x].kind.hops, g.fed[name])
  }

  ghost predicate SourcesOk(cfg: Config, at: Places, g: Graph) {
    && (forall s :: s in cfg.sources ==> s in at.sources && SourceOk(g, s, at.sources[s]))
    && (forall s, t ::
          (s in cfg.sources && t in cfg.sources && s != t && s in at.sources && t in at.sources &&
           at.sources[s] < |g.pipes| && at.sources[t] < |g.pipes| && g.pipes[at.sources[s]].next.Some?) ==>
            g.pipes[at.sources[s]].next != g.pipes[at.sources[t]].next)
  }

  ghost predicate SetsOk(g: Graph) {
    && g.sealed !! g.open
    && (forall x :: x in g.sealed || x in g.open ==> x < |g.pipes|)
  }

  ghost predicate ValidGraph(cfg: Config, at: Places, g: Graph) {
    SetsOk(g) && RulesOk(cfg, at, g) && GroupsOk(cfg, at, g) && SourcesOk(cfg, at, g)
  }

  /** Only open pipes were changed, or new ones opened, and no processing pipe changed
      its element or its PIF_INLINED flag. */
  ghost predicate OpenWork(g: Graph, h: Graph) {
    && |g.pipes| <= |h.pipes| && h.sealed == g.sealed && h.fed == g.fed && g.open <= h.open
    && (forall x :: 0 <= x < |g.pipes| && x !in g.open ==> h.pipes[x] == g.pipes[x])
    && (forall x :: x in g.open && x < |g.pipes| && g.pipes[x].kind.KProc? ==>
          h.pipes[x].kind == g.pipes[x].kind && h.pipes[x].inlined == g.pipes[x].inlined)
    && (forall x :: x in h.open ==> x in g.open || |g.pipes| <= x < |h.pipes|)
  }

  lemma SpareKept(g: Graph, h: Graph, ids: seq<nat>, elems: seq<Elem>)
    requires RuleOk(g, ids, elems) && SetsOk(g) && OpenWork(g, h)
    ensures RuleOk(h, ids, elems)
  {
  }

  lemma SourceKept(g: Graph, h: Graph, name: string, p: nat)
    requires SourceOk(g, name, p) && SetsOk(g) && OpenWork(g, h)
    ensures SourceOk(h, name, p)
  {
    if g.pipes[p].next.Some? {
      var x := g.pipes[p].next.value;
      BranchesKept(g.pipes, g.sealed, h.pipes, h.sealed, g.pipes[x].kind.hops, g.fed[name]);
    }
  }

  lemma OpenWorkValid(cfg: Config, at: Places, g: Graph, h: Graph)
    requires ValidGraph(cfg, at, g) && OpenWork(g, h)
    ensures ValidGraph(cfg, at, h)
  {
    hide RuleOk, SourceOk;
    forall k | k in cfg.rules
      ensures RuleOk(h, at.rules[k], cfg.rules[k])
    {
      SpareKept(g, h, at.rules[k], cfg.rules[k]);
    }
    forall s | s in cfg.sources
      ensures SourceOk(h, s, at.sources[s])
      ensures at.sources[s] < |g.pipes| && h.pipes[at.sources[s]] == g.pipes[at.sources[s]]
    {
      SourceKept(g, h, s, at.sources[s]);
      SourcePlace(g, s, at.sources[s]);
    }
  }

  lemma SourcePlace(g: Graph, name: string, p: nat)
    requires SourceOk(g, name, p)
    ensures p < |g.pipes| && p !in g.open && p !in g.sealed && g.pipes[p].kind == KSource(name)
  {
  }

  /** Finishing a statement: its pipes are sealed. */
  function Sealed(g: Graph, spine: seq<nat>): Graph {
    var x := set k | 0 <= k < |spine| :: spine[k];
    g.(sealed := g.sealed + x, open := g.open - x)
  }

  lemma SealValid(cfg: Config, at: Places, g: Graph, spine: seq<nat>)
    requires ValidGraph(cfg, at, g) && forall k :: 0 <= k < |spine| ==> spine[k] in g.open
    ensures ValidGraph(cfg, at, Sealed(g, spine))
  {
    var h := Sealed(g, spine);
    forall s | s in cfg.sources
      ensures SourceOk(h, s, at.sources[s])
    {
      var p := at.sources[s];
      assert SourceOk(g, s, p);
      if g.pipes[p].next.Some? {
        var x := g.pipes[p].next.value;
        BranchesKept(g.pipes, g.sealed, h.pipes, h.sealed, g.pipes[x].kind.hops, g.fed[s]);
      }
    }
    forall k | k in cfg.rules
      ensures RuleOk(h, at.rules[k], cfg.rules[k])
    {
      assert RuleOk(g, at.rules[k], cfg.rules[k]);
    }
  }

  // ----- putting a rule into the pipeline

  ghost function SetOf(spine: seq<nat>): set<nat> { set k | 0 <= k < |spine| :: spine[k] }

  predicate HasMpx(at: Places, g: Graph, name: string) {
    name in at.sources && at.sources[name] < |g.pipes| && g.pipes[at.sources[name]].next.Some?
  }

  /** A source that has its multiplexer keeps it. */
  ghost predicate MpxKept(cfg: Config, at: Places, g: Graph, h: Graph) {
    forall s :: s in cfg.sources && HasMpx(at, g, s) ==> HasMpx(at, h, s)
  }

  /** `spine` was opened and nothing that was in use before has changed. */
  ghost predicate Grown(cfg: Config, at: Places, g: Graph, h: Graph, spine: seq<nat>) {
    && MpxKept(cfg, at, g, h)
    && |g.pipes| <= |h.pipes| && h.sealed == g.sealed && h.fed == g.fed && h.open == g.open + SetOf(spine)
    && Keeps(g.pipes, g.sealed + g.open, h.pipes)
    && (forall k :: 0 <= k < |spine| ==> spine[k] < |h.pipes| && spine[k] !in g.open && spine[k] !in g.sealed)
  }

  /** The pipes of a rule linked into a chain. */
  ghost predicate Linked(g: seq<Pipe>, spine: seq<nat>, elems: seq<Elem>) {
    && |spine| == |elems|
    && (forall k :: 0 <= k < |spine| ==>
          spine[k] < |g| && g[spine[k]] == Pipe(KProc(elems[k]), After(spine, |spine|, k), Plain(elems[k]), true))
    && (forall j, k :: 0 <= j < k < |spine| ==> spine[j] != spine[k])
  }

  lemma LinkedChain(g: seq<Pipe>, s: set<nat>, spine: seq<nat>, elems: seq<Elem>)
    requires Linked(g, spine, elems)
    ensures Chain(g, s, spine, ElemStages(elems))
  {
  }

  /** The pipes of rule `k`, so far unused, are taken into use as `h` has them. */
  ghost predicate Taken(cfg: Config, at: Places, g: Graph, k: Key, h: Graph) {
    && k in cfg.rules && k in at.rules && |at.rules[k]| == |cfg.rules[k]| && SpareRule(g, at.rules[k], cfg.rules[k])
    && h.sealed == g.sealed && h.fed == g.fed && h.open == g.open + SetOf(at.rules[k])
    && |h.pipes| == |g.pipes| && Linked(h.pipes, at.rules[k], cfg.rules[k])
    && (forall x :: 0 <= x < |h.pipes| && x !in SetOf(at.rules[k]) ==> h.pipes[x] == g.pipes[x])
  }

  lemma TakeSource(cfg: Config, at: Places, g: Graph, k: Key, h: Graph, name: string, p: nat)
    requires Taken(cfg, at, g, k, h) && SetsOk(g) && SourceOk(g, name, p)
    ensures SourceOk(h, name, p) && h.pipes[p] == g.pipes[p]
  {
    if g.pipes[p].next.Some? {
      var x := g.pipes[p].next.value;
      BranchesKept(g.pipes, g.sealed, h.pipes, g.sealed, g.pipes[x].kind.hops, g.fed[name]);
    }
  }

  lemma TakeSources(cfg: Config, at: Places, g: Graph, k: Key, h: Graph)
    requires Taken(cfg, at, g, k, h) && SetsOk(g) && SourcesOk(cfg, at, g)
    ensures SourcesOk(cfg, at, h)
  {
    hide SourceOk, Taken;
    forall s | s in cfg.sources
      ensures SourceOk(h, s, at.sources[s])
      ensures at.sources[s] < |g.pipes| && at.sources[s] < |h.pipes| && h.pipes[at.sources[s]] == g.pipes[at.sources[s]]
    {
      SourcePlace(g, s, at.sources[s]);
      TakeSource(cfg, at, g, k, h, s, at.sources[s]);
      SourcePlace(h, s, at.sources[s]);
    }
  }

  lemma TakeKeepsMpx(cfg: Config, at: Places, g: Graph, k: Key, h: Graph)
    requires Taken(cfg, at, g, k, h) && SetsOk(g) && SourcesOk(cfg, at, g)
    ensures MpxKept(cfg, at, g, h)
  {
    forall s | s in cfg.sources && HasMpx(at, g, s)
      ensures HasMpx(at, h, s)
    {
      TakeSource(cfg, at, g, k, h, s, at.sources[s]);
    }
  }

  /** First reference: the rule's own pipes are used. */
  lemma TakeValid(cfg: Config, at: Places, g: Graph, k: Key, h: Graph)
    requires ValidGraph(cfg, at, g) && Taken(cfg, at, g, k, h)
    ensures ValidGraph(cfg, at, h) && Grown(cfg, at, g, h, at.rules[k])
  {
    hide SourcesOk, RuleOk, MpxKept;
    TakeKeepsMpx(cfg, at, g, k, h);
    TakeSources(cfg, at, g, k, h);
    forall l | l in cfg.rules
      ensures RuleOk(h, at.rules[l], cfg.rules[l])
    {
      OtherRule(cfg, at, g, k, l, h);
    }
  }

  lemma OtherRule(cfg: Config, at: Places, g: Graph, k: Key, l: Key, h: Graph)
    requires RulesOk(cfg, at, g) && l in cfg.rules && Taken(cfg, at, g, k, h)
    ensures RuleOk(h, at.rules[l], cfg.rules[l])
  {
    assert RuleOk(g, at.rules[l], cfg.rules[l]);
    if l != k {
      forall i | 0 <= i < |at.rules[l]|
        ensures at.rules[l][i] !in SetOf(at.rules[k])
      {
      }
    }
  }

  lemma RuleAt(cfg: Config, at: Places, g: Graph, k: Key)
    requires ValidGraph(cfg, at, g) && k in cfg.rules
    ensures k in at.rules && RuleOk(g, at.rules[k], cfg.rules[k])
  {
  }

  /** Further references: fresh copies of the rule's pipes, from `n` on. */
  ghost function Range(n: nat, len: nat): seq<nat> { seq(len, i requires 0 <= i < len => n + i) }

  lemma CloneValid(cfg: Config, at: Places, g: Graph, elems: seq<Elem>, h: Graph)
    requires ValidGraph(cfg, at, g)
    requires var spine := Range(|g.pipes|, |elems|);
             && |h.pipes| == |g.pipes| + |elems| && g.pipes <= h.pipes && Linked(h.pipes, spine, elems)
             && h.sealed == g.sealed && h.fed == g.fed && h.open == g.open + SetOf(spine)
    ensures ValidGraph(cfg, at, h) && Grown(cfg, at, g, h, Range(|g.pipes|, |elems|))
  {
    hide RulesOk, GroupsOk, SourcesOk, Linked;
    OpenWorkValid(cfg, at, g, h);
  }

  // ----- a statement being compiled

  function StageMark(st: Stage): Mark { if st.SProc? then Plain(st.elem) else PLAIN }

  /** No branch flags have been put on these pipes yet. */
  predicate Unmarked(g: seq<Pipe>, spine: seq<nat>, stages: seq<Stage>) {
    |spine| == |stages| && forall k :: 0 <= k < |spine| ==> spine[k] < |g| && g[spine[k]].mark == StageMark(stages[k])
  }

  /** From `g` to `h` no pipe that was in use has changed. */
  ghost predicate Safe(cfg: Config, at: Places, g: Graph, h: Graph) {
    && MpxKept(cfg, at, g, h)
    && |g.pipes| <= |h.pipes| && g.sealed <= h.sealed && Keeps(g.pipes, g.sealed + g.open, h.pipes)
  }

  /** Since `g` the chain `spine` was built for the stages `stages`. */
  ghost predicate Working(cfg: Config, at: Places, g: Graph, h: Graph, spine: seq<nat>, stages: seq<Stage>) {
    && ValidGraph(cfg, at, h) && Safe(cfg, at, g, h) && h.fed == g.fed
    && h.open == g.open + SetOf(spine) && SetOf(spine) !! g.open
    && Chain(h.pipes, h.sealed, spine, stages) && Unmarked(h.pipes, spine, stages)
  }

  /** A new piece `b` was made, ready to be linked to the chain. */
  ghost predicate Piece(cfg: Config, at: Places, g: Graph, h: Graph, b: seq<nat>, sb: seq<Stage>) {
    && ValidGraph(cfg, at, h) && Grown(cfg, at, g, h, b) && Chain(h.pipes, h.sealed, b, sb) && Unmarked(h.pipes, b, sb)
  }

  lemma LinkedPiece(cfg: Config, at: Places, g: Graph, h: Graph, b: seq<nat>, elems: seq<Elem>)
    requires ValidGraph(cfg, at, h) && Grown(cfg, at, g, h, b) && Linked(h.pipes, b, elems)
    ensures Piece(cfg, at, g, h, b, ElemStages(elems))
  {
    hide ValidGraph, Grown, After;
    LinkedChain(h.pipes, h.sealed, b, elems);
  }

  /** The graph after `last` of chain `a` was made to point at the piece `b`. */
  function Joined(h: Graph, a: seq<nat>, b: seq<nat>): Graph
    requires a != [] && b != [] && a[|a| - 1] < |h.pipes|
  {
    var last := a[|a| - 1];
    h.(pipes := h.pipes[last := h.pipes[last].(next := Some(b[0]))])
  }

  lemma JoinedValid(cfg: Config, at: Places, h: Graph, a: seq<nat>, b: seq<nat>)
    requires a != [] && b != [] && a[|a| - 1] in h.open && ValidGraph(cfg, at, h)
    ensures a[|a| - 1] < |h.pipes| && ValidGraph(cfg, at, Joined(h, a, b))
    ensures a[|a| - 1] !in h.sealed
  {
    hide RulesOk, GroupsOk, SourcesOk;
    OpenWorkValid(cfg, at, h, Joined(h, a, b));
  }

  /** A piece is the beginning of the chain. */
  lemma FirstPiece(cfg: Config, at: Places, g: Graph, h: Graph, k: Graph, b: seq<nat>, sb: seq<Stage>)
    requires Working(cfg, at, g, h, [], []) && Piece(cfg, at, h, k, b, sb)
    ensures Working(cfg, at, g, k, b, sb)
  {
    hide ValidGraph, Chain, Unmarked;
    assert h.open == g.open;
  }

  lemma PieceApart(cfg: Config, at: Places, g: Graph, h: Graph, k: Graph, a: seq<nat>, sa: seq<Stage>, b: seq<nat>,
                   sb: seq<Stage>)
    requires Working(cfg, at, g, h, a, sa) && Piece(cfg, at, h, k, b, sb)
    ensures Chain(k.pipes, k.sealed, a, sa) && Unmarked(k.pipes, a, sa)
    ensures forall i, j :: 0 <= i < |a| && 0 <= j < |b| ==> a[i] != b[j]
    ensures SetOf(a + b) == SetOf(a) + SetOf(b) && SetOf(b) !! g.open && k.open == g.open + SetOf(a + b)
    ensures Safe(cfg, at, g, k) && k.fed == g.fed
  {
    hide ValidGraph, After;
    assert forall i :: 0 <= i < |a| ==> a[i] in SetOf(a) && a[i] in h.open && a[i] < |h.pipes|;
    ChainKept(h.pipes, h.sealed, k.pipes, k.sealed, a, sa);
    assert SetOf(a + b) == SetOf(a) + SetOf(b) by {
      forall x | x in SetOf(a) + SetOf(b)
        ensures x in SetOf(a + b)
      {
        if x in SetOf(a) {
          var i :| 0 <= i < |a| && a[i] == x;
          assert (a + b)[i] == x;
        } else {
          var i :| 0 <= i < |b| && b[i] == x;
          assert (a + b)[|a| + i] == x;
        }
      }
    }
  }

  lemma JoinedUnmarked(k: Graph, a: seq<nat>, sa: seq<Stage>, b: seq<nat>, sb: seq<Stage>)
    requires Unmarked(k.pipes, a, sa) && Unmarked(k.pipes, b, sb) && a != [] && b != []
    ensures Unmarked(Joined(k, a, b).pipes, a + b, sa + sb)
  {
  }

  lemma JoinedSafe(cfg: Config, at: Places, g: Graph, k: Graph, a: seq<nat>, b: seq<nat>)
    requires Safe(cfg, at, g, k) && a != [] && b != [] && a[|a| - 1] < |k.pipes|
    requires a[|a| - 1] !in g.open && a[|a| - 1] !in g.sealed
    requires ValidGraph(cfg, at, k) && a[|a| - 1] in k.open
    ensures Safe(cfg, at, g, Joined(k, a, b))
  {
    hide RulesOk, GroupsOk;
    var h := Joined(k, a, b);
    forall s | s in cfg.sources && HasMpx(at, g, s)
      ensures HasMpx(at, h, s)
    {
      assert HasMpx(at, k, s);
      assert SourceOk(k, s, at.sources[s]);
    }
  }

  /** Linking the piece to a chain that has begun. */
  lemma NextPiece(cfg: Config, at: Places, g: Graph, h: Graph, k: Graph, a: seq<nat>, sa: seq<Stage>, b: seq<nat>,
                  sb: seq<Stage>)
    requires Working(cfg, at, g, h, a, sa) && Piece(cfg, at, h, k, b, sb) && a != [] && b != []
    ensures a[|a| - 1] < |k.pipes| && Working(cfg, at, g, Joined(k, a, b), a + b, sa + sb)
  {
    hide ValidGraph, Chain, Unmarked, Keeps;
    PieceApart(cfg, at, g, h, k, a, sa, b, sb);
    assert a[|a| - 1] in SetOf(a);
    JoinedValid(cfg, at, k, a, b);
    ChainLinked(k.pipes, k.sealed, a, sa, b, sb, Joined(k, a, b).pipes);
    JoinedUnmarked(k, a, sa, b, sb);
    JoinedSafe(cfg, at, g, k, a, b);
  }

  /** A new multiplexer is a piece of one pipe. */
  lemma MpxPiece(cfg: Config, at: Places, g: Graph, hops: seq<nat>, b: Branches)
    requires ValidGraph(cfg, at, g) && RepBranches(g.pipes, g.sealed, hops, b)
    ensures var h := g.(pipes := g.pipes + [Pipe(KMpx(hops), None, PLAIN, false)], open := g.open + {|g.pipes|});
            Piece(cfg, at, g, h, [|g.pipes|], [SMpx(b)])
  {
    var h := g.(pipes := g.pipes + [Pipe(KMpx(hops), None, PLAIN, false)], open := g.open + {|g.pipes|});
    assert SetOf([|g.pipes|]) == {|g.pipes|} by {
      assert [|g.pipes|][0] == |g.pipes|;
    }
    MpxValid(cfg, at, g, h);
    BranchesKept(g.pipes, g.sealed, h.pipes, h.sealed, hops, b);
  }

  lemma MpxValid(cfg: Config, at: Places, g: Graph, h: Graph)
    requires ValidGraph(cfg, at, g) && |h.pipes| == |g.pipes| + 1 && g.pipes <= h.pipes
    requires h.sealed == g.sealed && h.fed == g.fed && h.open == g.open + {|g.pipes|}
    ensures ValidGraph(cfg, at, h)
    ensures |g.pipes| !in g.open && |g.pipes| !in g.sealed
  {
    hide RulesOk, GroupsOk, SourcesOk;
    OpenWorkValid(cfg, at, g, h);
  }

  lemma GroupBranch(cfg: Config, at: Places, g: Graph, d: string)
    requires ValidGraph(cfg, at, g) && d in cfg.dests
    ensures d in at.groups && RepBranches(g.pipes, g.sealed, [at.groups[d]], [(Group(d, End), PLAIN)])
  {
    hide SetsOk, RulesOk, SourcesOk;
    assert RepNext(g.pipes, g.sealed, None, End);
  }

  function Head(a: seq<nat>): Option<nat> { if a == [] then None else Some(a[0]) }

  function Tail(a: seq<nat>): Option<nat> { if a == [] then None else Some(a[|a| - 1]) }

  // ----- sources

  /** Only a source or its multiplexer was changed, or a multiplexer for it added. */
  ghost predicate SourceWork(g: Graph, h: Graph) {
    && |g.pipes| <= |h.pipes| && h.sealed == g.sealed && h.open == g.open
    && (forall x :: 0 <= x < |g.pipes| && (x in g.sealed || x in g.open || g.pipes[x].kind.KProc?) ==>
        h.pipes[x] == g.pipes[x])
  }

  lemma SourceWorkRules(cfg: Config, at: Places, g: Graph, h: Graph)
    requires SetsOk(g) && RulesOk(cfg, at, g) && GroupsOk(cfg, at, g) && SourceWork(g, h)
    ensures SetsOk(h) && RulesOk(cfg, at, h) && GroupsOk(cfg, at, h)
  {
    forall k | k in cfg.rules
      ensures RuleOk(h, at.rules[k], cfg.rules[k])
    {
      assert RuleOk(g, at.rules[k], cfg.rules[k]);
    }
  }

  /** A source not concerned by the change. */
  lemma OtherSource(g: Graph, h: Graph, name: string, p: nat)
    requires SourceOk(g, name, p) && SourceWork(g, h) && name in h.fed && h.fed[name] == g.fed[name]
    requires h.pipes[p] == g.pipes[p]
    requires g.pipes[p].next.Some? ==> h.pipes[g.pipes[p].next.value] == g.pipes[g.pipes[p].next.value]
    ensures SourceOk(h, name, p)
  {
    if g.pipes[p].next.Some? {
      var x := g.pipes[p].next.value;
      BranchesKept(g.pipes, g.sealed, h.pipes, h.sealed, g.pipes[x].kind.hops, g.fed[name]);
    }
  }

  function WithMpx(g: Graph, src: nat): Graph
    requires src < |g.pipes|
  {
    g.(pipes := (g.pipes + [Pipe(KMpx([]), None, PLAIN, false)])[src := g.pipes[src].(next := Some(|g.pipes|))])
  }

  lemma WithMpxValid(cfg: Config, at: Places, g: Graph, name: string)
    requires ValidGraph(cfg, at, g) && name in cfg.sources
    requires name in at.sources && SourceOk(g, name, at.sources[name]) && g.pipes[at.sources[name]].next == None
    ensures ValidGraph(cfg, at, WithMpx(g, at.sources[name])) && SourceWork(g, WithMpx(g, at.sources[name]))
  {
    var h := WithMpx(g, at.sources[name]);
    SourceWorkRules(cfg, at, g, h);
    forall s | s in cfg.sources
      ensures SourceOk(h, s, at.sources[s])
    {
      assert SourceOk(g, s, at.sources[s]);
      if s != name {
        OtherSource(g, h, s, at.sources[s]);
      }
    }
  }

  function WithHop(g: Graph, name: string, x: nat, p: nat, br: (Path, Mark)): Graph
    requires x < |g.pipes| && g.pipes[x].kind.KMpx? && name in g.fed
  {
    g.(pipes := g.pipes[x := g.pipes[x].(kind := KMpx(g.pipes[x].kind.hops + [p]))],
       fed := g.fed[name := g.fed[name] + [br]])
  }

  lemma WithHopValid(cfg: Config, at: Places, g: Graph, name: string, x: nat, p: nat, br: (Path, Mark))
    requires ValidGraph(cfg, at, g) && name in cfg.sources
    requires name in at.sources && SourceOk(g, name, at.sources[name]) && g.pipes[at.sources[name]].next == Some(x)
    requires Rep(g.pipes, g.sealed, p, br.0) && g.pipes[p].mark == br.1
    ensures ValidGraph(cfg, at, WithHop(g, name, x, p, br)) && SourceWork(g, WithHop(g, name, x, p, br))
  {
    var h := WithHop(g, name, x, p, br);
    SourceWorkRules(cfg, at, g, h);
    forall s | s in cfg.sources
      ensures SourceOk(h, s, at.sources[s])
    {
      assert SourceOk(g, s, at.sources[s]);
      if s != name {
        OtherSource(g, h, s, at.sources[s]);
      } else {
        BranchesKept(g.pipes, g.sealed, h.pipes, h.sealed, g.pipes[x].kind.hops, g.fed[s]);
        RepKept(g.pipes, g.sealed, h.pipes, h.sealed, p, br.0);
      }
    }
  }

  lemma SourceWorkWorking(cfg: Config, at: Places, g: Graph, h: Graph, k: Graph, spine: seq<nat>, stages: seq<Stage>)
    requires Working(cfg, at, g, h, spine, stages) && SourceWork(h, k) && ValidGraph(cfg, at, k) && k.fed == h.fed
    requires MpxKept(cfg, at, h, k)
    ensures Working(cfg, at, g, k, spine, stages)
  {
    hide RulesOk, GroupsOk, SourcesOk, After, StageAt;
    assert forall i :: 0 <= i < |spine| ==> spine[i] in SetOf(spine);
    ChainKept(h.pipes, h.sealed, k.pipes, k.sealed, spine, stages);
  }

  // ----- items

  lemma ChangesMore(cfg: Config, items: seq<Item>, i: nat)
    requires i < |items|
    ensures Changes(cfg, items[..i + 1]) <==> Changes(cfg, items[..i]) || Alters(cfg, items[i])
  {
    hide Alters;
    assert items[..i + 1][i] == items[i];
    assert forall j :: 0 <= j < i ==> items[..i + 1][j] == items[..i][j];
  }

  /** If the first pipe carries PIF_CLONE of its own, the statement changes the message. */
  lemma {:induction false} FirstChanges(cfg: Config, items: seq<Item>, i: nat)
    requires i <= |items| && StagesFrom(cfg, items, i) != [] && StageMark(StagesFrom(cfg, items, i)[0]).clone
    ensures Changes(cfg, items)
    decreases |items| - i
  {
    if ItemStages(cfg, items[i]) == [] {
      FirstChanges(cfg, items, i + 1);
    } else {
      assert Alters(cfg, items[i]);
    }
  }

  /** All sources mentioned by the first `n` items have a multiplexer. */
  ghost predicate Ready(cfg: Config, at: Places, g: Graph, items: seq<Item>, n: nat) {
    forall i :: 0 <= i < n && i < |items| && items[i].Source? ==>
        items[i].name in cfg.sources && HasMpx(at, g, items[i].name)
  }

  lemma ReadyKept(cfg: Config, at: Places, g: Graph, h: Graph, items: seq<Item>, n: nat)
    requires Ready(cfg, at, g, items, n) && MpxKept(cfg, at, g, h)
    ensures Ready(cfg, at, h, items, n)
  {
  }

  lemma MpxKeptTrans(cfg: Config, at: Places, g: Graph, h: Graph, k: Graph)
    requires MpxKept(cfg, at, g, h) && MpxKept(cfg, at, h, k)
    ensures MpxKept(cfg, at, g, k)
  {
  }

  // ----- embedded statements

  /** A nested compilation leaves the chain alone. */
  lemma SubWorking(cfg: Config, at: Places, g: Graph, h: Graph, k: Graph, spine: seq<nat>, stages: seq<Stage>)
    requires Working(cfg, at, g, h, spine, stages)
    requires ValidGraph(cfg, at, k) && Safe(cfg, at, h, k) && k.open == h.open && k.fed == h.fed
    ensures Working(cfg, at, g, k, spine, stages)
  {
    hide RulesOk, GroupsOk, SourcesOk, After, StageAt;
    assert forall i :: 0 <= i < |spine| ==> spine[i] in SetOf(spine);
    ChainKept(h.pipes, h.sealed, k.pipes, k.sealed, spine, stages);
    MpxKeptTrans(cfg, at, g, h, k);
  }

  /** The multiplexer at the end of the chain with one hop more. */
  function WithBranch(h: Graph, p: nat, sub: nat): Graph
    requires p < |h.pipes| && h.pipes[p].kind.KMpx?
  {
    h.(pipes := h.pipes[p := h.pipes[p].(kind := KMpx(h.pipes[p].kind.hops + [sub]))])
  }

  lemma LastStage(cfg: Config, at: Places, g: Graph, h: Graph, spine: seq<nat>, sa: seq<Stage>, b: Branches)
    requires Working(cfg, at, g, h, spine, sa + [SMpx(b)])
    ensures |spine| == |sa| + 1
    ensures var p := spine[|sa|];
            && p < |h.pipes| && p in h.open && p !in g.open && p !in h.sealed && p !in g.sealed
            && h.pipes[p].kind.KMpx? && RepBranches(h.pipes, h.sealed, h.pipes[p].kind.hops, b)
  {
    assert StageAt(h.pipes, h.sealed, spine[|sa|], (sa + [SMpx(b)])[|sa|]);
    assert spine[|sa|] in SetOf(spine);
  }

  lemma WithBranchValid(cfg: Config, at: Places, h: Graph, p: nat, sub: nat)
    requires ValidGraph(cfg, at, h) && p in h.open && p < |h.pipes| && h.pipes[p].kind.KMpx?
    ensures ValidGraph(cfg, at, WithBranch(h, p, sub)) && MpxKept(cfg, at, h, WithBranch(h, p, sub))
  {
    var k := WithBranch(h, p, sub);
    OpenWorkValid(cfg, at, h, k);
    forall s | s in cfg.sources && HasMpx(at, h, s)
      ensures HasMpx(at, k, s)
    {
      assert SourceOk(h, s, at.sources[s]);
    }
  }

  lemma WithBranchChain(cfg: Config, at: Places, g: Graph, h: Graph, spine: seq<nat>, sa: seq<Stage>, b: Branches,
                        sub: nat, br: (Path, Mark))
    requires Working(cfg, at, g, h, spine, sa + [SMpx(b)])
    requires Rep(h.pipes, h.sealed, sub, br.0) && h.pipes[sub].mark == br.1
    requires |spine| == |sa| + 1 && spine[|sa|] < |h.pipes| && h.pipes[spine[|sa|]].kind.KMpx?
    ensures var k := WithBranch(h, spine[|sa|], sub);
            Chain(k.pipes, k.sealed, spine, sa + [SMpx(b + [br])]) && Unmarked(k.pipes, spine, sa + [SMpx(b + [br])])
  {
    hide ValidGraph, After;
    var p := spine[|sa|];
    var k := WithBranch(h, p, sub);
    LastStage(cfg, at, g, h, spine, sa, b);
    var old' := sa + [SMpx(b)];
    var now := sa + [SMpx(b + [br])];
    assert Keeps(h.pipes, h.sealed, k.pipes);
    RepKept(h.pipes, h.sealed, k.pipes, k.sealed, sub, br.0);
    BranchesKept(h.pipes, h.sealed, k.pipes, k.sealed, h.pipes[p].kind.hops, b);
    forall i | 0 <= i < |spine|
      ensures StageAt(k.pipes, k.sealed, spine[i], now[i]) && k.pipes[spine[i]].next == h.pipes[spine[i]].next
      ensures k.pipes[spine[i]].mark == StageMark(now[i])
    {
      assert StageAt(h.pipes, h.sealed, spine[i], old'[i]);
      if i < |sa| {
        assert spine[i] != p;
        if old'[i].SMpx? {
          BranchesKept(h.pipes, h.sealed, k.pipes, k.sealed, h.pipes[spine[i]].kind.hops, old'[i].branches);
        }
      }
    }
  }

  lemma BranchAdded(cfg: Config, at: Places, g: Graph, h: Graph, spine: seq<nat>, sa: seq<Stage>, b: Branches, sub: nat,
                    br: (Path, Mark))
    requires Working(cfg, at, g, h, spine, sa + [SMpx(b)])
    requires Rep(h.pipes, h.sealed, sub, br.0) && h.pipes[sub].mark == br.1
    ensures |spine| == |sa| + 1 && spine[|sa|] < |h.pipes| && h.pipes[spine[|sa|]].kind.KMpx?
    ensures Working(cfg, at, g, WithBranch(h, spine[|sa|], sub), spine, sa + [SMpx(b + [br])])
    ensures MpxKept(cfg, at, h, WithBranch(h, spine[|sa|], sub))
  {
    hide RulesOk, GroupsOk, SourcesOk, Chain, Unmarked, RepBranches, Rep, MpxKept;
    LastStage(cfg, at, g, h, spine, sa, b);
    var p := spine[|sa|];
    var k := WithBranch(h, p, sub);
    WithBranchValid(cfg, at, h, p, sub);
    WithBranchChain(cfg, at, g, h, spine, sa, b, sub, br);
    MpxKeptTrans(cfg, at, g, h, k);
  }

  lemma StartWorking(cfg: Config, at: Places, g: Graph)
    requires ValidGraph(cfg, at, g)
    ensures Working(cfg, at, g, g, [], [])
  {
    assert g.open + SetOf([]) == g.open;
  }

  // ----- feeding the sources' messages into a finished statement

  /** How often the first `n` items mention source `name`. */
  function Mentions(items: seq<Item>, name: string, n: nat): nat
    requires n <= |items|
  {
    if n == 0 then 0 else Mentions(items, name, n - 1) + if items[n - 1] == Source(name) then 1 else 0
  }

  /** How many times a top-level statement is fed by source `name`. */
  function Feeds(s: Stmt, name: string): nat {
    if s.flags.catchAll then 1 else Mentions(s.items, name, |s.items|)
  }

  function Times(br: (Path, Mark), n: nat): Branches { seq(n, _ => br) }

  /** `f` extended by `n(name)` copies of a branch for every source. */
  ghost predicate FedMore(cfg: Config, f: map<string, Branches>, h: map<string, Branches>, br: (Path, Mark),
                          n: string -> nat) {
    forall name :: name in cfg.sources ==> name in f && name in h && h[name] == f[name] + Times(br, n(name))
  }

  lemma SourceWorkTrans(cfg: Config, at: Places, g: Graph, h: Graph, k: Graph)
    requires SourceWork(g, h) && SourceWork(h, k)
    ensures SourceWork(g, k)
  {
  }

  lemma SourceWorkRep(g: Graph, h: Graph, p: nat, path: Path)
    requires SourceWork(g, h) && Rep(g.pipes, g.sealed, p, path)
    ensures Rep(h.pipes, h.sealed, p, path) && p < |g.pipes| && h.pipes[p] == g.pipes[p]
  {
    RepKept(g.pipes, g.sealed, h.pipes, h.sealed, p, path);
  }

  // ----- finishing a statement

  function WithMark(h: Graph, p: nat, mark: Mark): Graph
    requires p < |h.pipes|
  {
    h.(pipes := h.pipes[p := h.pipes[p].(mark := mark)])
  }

  lemma MarkedChain(h: Graph, spine: seq<nat>, stages: seq<Stage>, mark: Mark)
    requires Chain(h.pipes, h.sealed, spine, stages) && spine != [] && spine[0] !in h.sealed && spine[0] < |h.pipes|
    ensures Chain(WithMark(h, spine[0], mark).pipes, h.sealed, spine, stages)
  {
    hide After;
    var k := WithMark(h, spine[0], mark);
    forall i | 0 <= i < |spine|
      ensures StageAt(k.pipes, k.sealed, spine[i], stages[i]) && k.pipes[spine[i]].next == h.pipes[spine[i]].next
    {
      assert StageAt(h.pipes, h.sealed, spine[i], stages[i]);
      if stages[i].SMpx? {
        BranchesKept(h.pipes, h.sealed, k.pipes, k.sealed, h.pipes[spine[i]].kind.hops, stages[i].branches);
      }
    }
  }

  lemma FirstPipe(cfg: Config, at: Places, g: Graph, h: Graph, spine: seq<nat>, stages: seq<Stage>)
    requires Working(cfg, at, g, h, spine, stages) && spine != []
    ensures var p := spine[0];
            && p < |h.pipes| && p in h.open && p !in h.sealed && p !in g.open && p !in g.sealed
            && stages != [] && h.pipes[p].mark == StageMark(stages[0])
  {
    assert spine[0] in SetOf(spine);
  }

  lemma WithMarkValid(cfg: Config, at: Places, h: Graph, p: nat, mark: Mark)
    requires ValidGraph(cfg, at, h) && p in h.open && p < |h.pipes|
    ensures ValidGraph(cfg, at, WithMark(h, p, mark)) && MpxKept(cfg, at, h, WithMark(h, p, mark))
  {
    var k := WithMark(h, p, mark);
    OpenWorkValid(cfg, at, h, k);
    forall s | s in cfg.sources && HasMpx(at, h, s)
      ensures HasMpx(at, k, s)
    {
      assert SourceOk(h, s, at.sources[s]);
    }
  }

  /** The chain with its marks, sealed, is the finished pipeline. */
  lemma Finished(cfg: Config, at: Places, g: Graph, h: Graph, spine: seq<nat>, stages: seq<Stage>, mark: Mark)
    requires Working(cfg, at, g, h, spine, stages) && spine != []
    ensures spine[0] < |h.pipes|
    ensures var k := Sealed(WithMark(h, spine[0], mark), spine);
            && ValidGraph(cfg, at, k) && Safe(cfg, at, g, k) && k.open == g.open && k.fed == g.fed
            && MpxKept(cfg, at, h, k)
            && Rep(k.pipes, k.sealed, spine[0], Build(stages, 0)) && k.pipes[spine[0]].mark == mark
  {
    hide RulesOk, GroupsOk, SourcesOk, Chain, Unmarked, MpxKept, Rep;
    FirstPipe(cfg, at, g, h, spine, stages);
    var p := spine[0];
    var m := WithMark(h, p, mark);
    WithMarkValid(cfg, at, h, p, mark);
    MarkedChain(h, spine, stages, mark);
    assert forall i :: 0 <= i < |spine| ==> spine[i] in SetOf(spine);
    SealValid(cfg, at, m, spine);
    var k := Sealed(m, spine);
    ChainSize(m, spine, stages);
    ChainDone(m.pipes, m.sealed, k.sealed, spine, stages, 0);
    SealMpx(cfg, at, g, h, m, k);
    assert k.open == g.open;
  }

  lemma ChainSize(m: Graph, spine: seq<nat>, stages: seq<Stage>)
    requires Chain(m.pipes, m.sealed, spine, stages)
    ensures |spine| == |stages|
  {
  }

  lemma SealMpx(cfg: Config, at: Places, g: Graph, h: Graph, m: Graph, k: Graph)
    requires MpxKept(cfg, at, g, h) && MpxKept(cfg, at, h, m) && k.pipes == m.pipes
    ensures MpxKept(cfg, at, g, k) && MpxKept(cfg, at, h, k)
  {
  }

  // ----- the whole configuration

  /** The branches of source `name` after the first `n` statements. */
  function FedBy(cfg: Config, conns: seq<Stmt>, name: string, n: nat): Branches
    requires n <= |conns| && forall i :: 0 <= i < n ==> Compile(cfg, conns[i], true, false).Some?
  {
    if n == 0 then []
    else
      FedBy(cfg, conns, name, n - 1) + Times(Compile(cfg, conns[n - 1], true, false).value, Feeds(conns[n - 1], name))
  }

  /** The statements that feed on source `name`, once for each mention. */
  function Feeding(conns: seq<Stmt>, name: string, n: nat): seq<Stmt>
    requires n <= |conns|
  {
    if n == 0 then [] else Feeding(conns, name, n - 1) + seq(Feeds(conns[n - 1], name), _ => conns[n - 1])
  }

  // ----- which statements these are

  function MentionedAt(items: seq<Item>, name: string, n: nat): set<nat> {
    set j: nat | j < n && j < |items| && items[j] == Source(name)
  }

  /** How often a statement is to be fed by source `name`. */
  ghost function Due(s: Stmt, name: string): nat {
    if s.flags.catchAll then 1 else |MentionedAt(s.items, name, |s.items|)|
  }

  /** `fs` are the statements `conns[from[k]]`, in the order of the configuration: each
      catch-all statement once, every other one once for each time it mentions source `name`. */
  ghost predicate FedFrom(conns: seq<Stmt>, name: string, fs: seq<Stmt>, from: seq<nat>) {
    && |from| == |fs|
    && (forall k :: 0 <= k < |from| ==> from[k] < |conns| && fs[k] == conns[from[k]])
    && (forall k, l :: 0 <= k < l < |from| ==> from[k] <= from[l])
    && forall i :: 0 <= i < |conns| ==> multiset(from)[i] == Due(conns[i], name)
  }

  ghost predicate RightlyFed(conns: seq<Stmt>, name: string, fs: seq<Stmt>) {
    exists from: seq<nat> :: FedFrom(conns, name, fs, from)
  }

  lemma {:induction false} MentionsCount(items: seq<Item>, name: string, n: nat)
    requires n <= |items|
    ensures Mentions(items, name, n) == |MentionedAt(items, name, n)|
  {
    if n == 0 {
      assert MentionedAt(items, name, 0) == {};
    } else {
      MentionsCount(items, name, n - 1);
      var before := MentionedAt(items, name, n - 1);
      assert MentionedAt(items, name, n) == if items[n - 1] == Source(name) then before + {n - 1} else before;
    }
  }

  /** A source feeds the statements it should, as often and in the order it should. */
  lemma {:induction false} FeedingIsRight(conns: seq<Stmt>, name: string, n: nat) returns (from: seq<nat>)
    requires n <= |conns|
    ensures FedFrom(conns[..n], name, Feeding(conns, name, n), from)
  {
    if n == 0 {
      from := [];
    } else {
      var s := conns[n - 1];
      var before := FeedingIsRight(conns, name, n - 1);
      var k := Feeds(s, name);
      MentionsCount(s.items, name, |s.items|);
      from := before + seq(k, _ => n - 1);
      assert conns[..n][..n - 1] == conns[..n - 1];
      SameTimes(n - 1, k);
      FedStepRight(conns, name, n, before, k);
    }
  }

  lemma {:induction false} SameTimes(i: nat, k: nat)
    ensures multiset(seq(k, _ => i)) == multiset{}[i := k]
  {
    if k > 0 {
      SameTimes(i, k - 1);
      assert seq(k, _ => i) == seq(k - 1, _ => i) + [i];
    }
  }

  lemma FedStepRight(conns: seq<Stmt>, name: string, n: nat, before: seq<nat>, k: nat)
    requires 0 < n <= |conns| && FedFrom(conns[..n - 1], name, Feeding(conns, name, n - 1), before)
    requires k == Feeds(conns[n - 1], name) == Due(conns[n - 1], name)
    requires multiset(seq(k, _ => n - 1)) == multiset{}[n - 1 := k]
    ensures FedFrom(conns[..n], name, Feeding(conns, name, n), before + seq(k, _ => n - 1))
  {
    hide Due, Feeds, FedFrom;
    assert Feeding(conns, name, n) == Feeding(conns, name, n - 1) + seq(k, _ => conns[n - 1]);
    OneMoreFed(conns[..n - 1], name, Feeding(conns, name, n - 1), before, conns[n - 1], k);
    assert conns[..n - 1] + [conns[n - 1]] == conns[..n];
  }

  lemma OneMoreFed(conns: seq<Stmt>, name: string, fs: seq<Stmt>, from: seq<nat>, s: Stmt, k: nat)
    requires FedFrom(conns, name, fs, from) && k == Due(s, name)
    requires multiset(seq(k, _ => |conns|)) == multiset{}[|conns| := k]
    ensures FedFrom(conns + [s], name, fs + seq(k, _ => s), from + seq(k, _ => |conns|))
  {
    hide Due;
    var more := seq(k, _ => |conns|);
    CountTwo(from, more, |conns|, k);
    var all := conns + [s];
    forall i | 0 <= i < |all|
      ensures multiset(from + more)[i] == Due(all[i], name)
    {
      if i < |conns| {
        assert all[i] == conns[i];
      } else {
        assert |conns| !in from;
      }
    }
  }

  lemma CountTwo(a: seq<nat>, b: seq<nat>, x: nat, k: nat)
    requires multiset(b) == multiset{}[x := k]
    ensures forall i: nat :: multiset(a + b)[i] == multiset(a)[i] + if i == x then k else 0
  {
    assert multiset(a + b) == multiset(a) + multiset(b);
  }

  lemma AllRightlyFed(conns: seq<Stmt>)
    ensures forall name: string :: RightlyFed(conns, name, Feeding(conns, name, |conns|))
  {
    forall name: string
      ensures RightlyFed(conns, name, Feeding(conns, name, |conns|))
    {
      var from := FeedingIsRight(conns, name, |conns|);
      assert conns[..|conns|] == conns;
    }
  }

  /** In particular: a statement is fed exactly if it is a catch-all or mentions the source. */
  lemma FeedingHas(conns: seq<Stmt>, name: string, i: nat)
    requires i < |conns|
    ensures RightlyFed(conns, name, Feeding(conns, name, |conns|))
    ensures conns[i].flags.catchAll || Source(name) in conns[i].items ==> conns[i] in Feeding(conns, name, |conns|)
    ensures forall s :: s in Feeding(conns, name, |conns|) ==>
              s in conns && (s.flags.catchAll || Source(name) in s.items)
  {
    hide Feeding, Mentions;
    var fs := Feeding(conns, name, |conns|);
    var from := FeedingIsRight(conns, name, |conns|);
    assert conns[..|conns|] == conns;
    var at := MentionedAt(conns[i].items, name, |conns[i].items|);
    if Source(name) in conns[i].items {
      var j :| 0 <= j < |conns[i].items| && conns[i].items[j] == Source(name);
      assert j in at;
    }
    if conns[i].flags.catchAll || Source(name) in conns[i].items {
      assert i in multiset(from);
      var k :| 0 <= k < |from| && from[k] == i;
      assert fs[k] == conns[i];
    }
    forall s | s in fs
      ensures s in conns && (s.flags.catchAll || Source(name) in s.items)
    {
      var k :| 0 <= k < |fs| && fs[k] == s;
      assert from[k] in multiset(from);
      if !s.flags.catchAll {
        var j :| j in MentionedAt(s.items, name, |s.items|);
      }
    }
  }

  lemma {:induction false} FedIsFeeding(cfg: Config, conns: seq<Stmt>, name: string, n: nat)
    requires n <= |conns| && forall i :: 0 <= i < n ==> Compile(cfg, conns[i], true, false).Some?
    ensures var b, f := FedBy(cfg, conns, name, n), Feeding(conns, name, n);
            |b| == |f| && forall i :: 0 <= i < |b| ==> Compile(cfg, f[i], true, false) == Some(b[i])
  {
    if n > 0 {
      FedIsFeeding(cfg, conns, name, n - 1);
    }
  }

  lemma FedCompiles(cfg: Config, conns: seq<Stmt>, name: string)
    requires forall i :: 0 <= i < |conns| ==> Compile(cfg, conns[i], true, false).Some?
    ensures CompileForks(cfg, FromSource(Feeding(conns, name, |conns|)), true, 0) ==
            Some(ToHops(FedBy(cfg, conns, name, |conns|), 0))
  {
    hide Compile;
    FedIsFeeding(cfg, conns, name, |conns|);
    CompiledIsForks(cfg, FromSource(Feeding(conns, name, |conns|)), true, FedBy(cfg, conns, name, |conns|), 0);
  }

  /** The pipes of a configuration as the parser leaves them: nothing is linked yet. */
  ghost predicate Parsed(cfg: Config, at: Places, pipes: seq<Pipe>) {
    && (forall k :: k in cfg.rules ==>
          && k in at.rules && |at.rules[k]| == |cfg.rules[k]|
          && (forall i :: 0 <= i < |at.rules[k]| ==>
                && at.rules[k][i] < |pipes|
                && pipes[at.rules[k][i]] == Pipe(KProc(cfg.rules[k][i]), None, Plain(cfg.rules[k][i]), false))
          && (forall i, j :: 0 <= i < j < |at.rules[k]| ==> at.rules[k][i] != at.rules[k][j]))
    && (forall k, l, i, j ::
          (k in cfg.rules && l in cfg.rules && k != l && k in at.rules && l in at.rules &&
           0 <= i < |at.rules[k]| && 0 <= j < |at.rules[l]|) ==> at.rules[k][i] != at.rules[l][j])
    && (forall d :: d in cfg.dests ==>
          d in at.groups && at.groups[d] < |pipes| && pipes[at.groups[d]] == Pipe(KGroup(d), None, PLAIN, false))
    && (forall s :: s in cfg.sources ==>
          s in at.sources && at.sources[s] < |pipes| && pipes[at.sources[s]] == Pipe(KSource(s), None, PLAIN, false))
  }

  ghost function GroupPipes(cfg: Config, at: Places): set<nat> {
    set d | d in cfg.dests && d in at.groups :: at.groups[d]
  }

  lemma ParsedValid(cfg: Config, at: Places, pipes: seq<Pipe>, fed: map<string, Branches>)
    requires Parsed(cfg, at, pipes)
    requires forall name :: name in cfg.sources ==> name in fed && fed[name] == []
    ensures ValidGraph(cfg, at, Graph(pipes, GroupPipes(cfg, at), {}, fed))
  {
    var g := Graph(pipes, GroupPipes(cfg, at), {}, fed);
    forall k | k in cfg.rules
      ensures RuleOk(g, at.rules[k], cfg.rules[k])
    {
    }
    forall s | s in cfg.sources
      ensures SourceOk(g, s, at.sources[s])
    {
    }
  }

  class Center {
    const cfg: Config
    const at: Places
    var pipes: seq<Pipe>
    ghost var sealed: set<nat>
    ghost var open: set<nat>
    ghost var fed: map<string, Branches>

    ghost function G(): Graph
      reads this
    {
      Graph(pipes, sealed, open, fed)
    }

    ghost predicate Valid()
      reads this
    {
      ValidGraph(cfg, at, G())
    }

    constructor (cfg: Config, at: Places, pipes: seq<Pipe>)
      requires Parsed(cfg, at, pipes)
      ensures Valid() && this.cfg == cfg && this.at == at && open == {}
      ensures forall name :: name in cfg.sources ==> name in fed && fed[name] == []
    {
      this.cfg, this.at, this.pipes := cfg, at, pipes;
      sealed := GroupPipes(cfg, at);
      open := {};
      fed := map name | name in cfg.sources :: [];
      new;
      ParsedValid(cfg, at, pipes, fed);
    }

    /** log_center_init(): every statement in turn; at the end the multiplexer of each
        source has as its hops the pipelines of the statements fed by it. */
    method Init(conns: seq<Stmt>) returns (ok: bool)
      requires Valid() && open == {} && forall name :: name in cfg.sources ==> name in fed && fed[name] == []
      modifies this
      ensures ok == forall i :: 0 <= i < |conns| ==> Compile(cfg, conns[i], true, false).Some?
      ensures ok ==> Valid() && forall name :: name in cfg.sources && HasMpx(at, G(), name) ==> Connected(conns, name)
      ensures ok ==> forall name :: name in cfg.sources && !HasMpx(at, G(), name) ==>
                Feeding(conns, name, |conns|) == []
      ensures forall name: string :: RightlyFed(conns, name, Feeding(conns, name, |conns|))
    {
      hide Compile, Feeds, ValidGraph, Safe, Rep, HasMpx, RightlyFed;
      AllRightlyFed(conns);
      var i := 0;
      while i < |conns|
        invariant i <= |conns| && Valid() && open == {}
        invariant forall j :: 0 <= j < i ==> Compile(cfg, conns[j], true, false).Some?
        invariant forall name :: name in cfg.sources ==> name in fed && fed[name] == FedBy(cfg, conns, name, i)
      {
        var first := InitPipeLine(conns[i], true, false);
        if first == None {
          return false;
        }
        i := i + 1;
      }
      ok := true;
      forall name | name in cfg.sources
        ensures HasMpx(at, G(), name) ==> Connected(conns, name)
        ensures !HasMpx(at, G(), name) ==> Feeding(conns, name, |conns|) == []
      {
        FedSource(cfg, at, G(), conns, name);
      }
    }

    /** The multiplexer of source `name` is the tree of pipes its statements compile to. */
    ghost predicate Connected(conns: seq<Stmt>, name: string)
      reads this
    {
      FeedsOn(cfg, at, G(), conns, name)
    }

    /** Linking the rule's own pipes in order. */
    method LinkOwn(ids: seq<nat>, ghost elems: seq<Elem>)
      requires |ids| == |elems| && forall i, j :: 0 <= i < j < |ids| ==> ids[i] != ids[j]
      requires forall i :: 0 <= i < |ids| ==>
                 ids[i] < |pipes| && pipes[ids[i]] == Pipe(KProc(elems[i]), None, Plain(elems[i]), false)
      modifies `pipes
      ensures |pipes| == |old(pipes)| && Linked(pipes, ids, elems)
      ensures forall x :: 0 <= x < |pipes| && x !in ids ==> pipes[x] == old(pipes[x])
    {
      hide After;
      var i, last := 0, None;
      while i < |ids|
        invariant i <= |ids| && |pipes| == |old(pipes)| && last == (if i == 0 then None else Some(ids[i - 1]))
        invariant forall j :: 0 <= j < i ==>
                    pipes[ids[j]] == Pipe(KProc(elems[j]), After(ids, i, j), Plain(elems[j]), true)
        invariant forall j :: i <= j < |ids| ==> pipes[ids[j]] == old(pipes)[ids[j]]
        invariant forall x :: 0 <= x < |pipes| && x !in ids ==> pipes[x] == old(pipes)[x]
      {
        AfterGrows(ids, i);
        var p := ids[i];
        pipes := pipes[p := pipes[p].(inlined := true)];
        if last.Some? {
          pipes := pipes[last.value := pipes[last.value].(next := Some(p))];
        }
        last := Some(p);
        i := i + 1;
      }
    }

    /** Appending linked copies of processing pipes. */
    method LinkCopies(elems: seq<Elem>, ghost spine: seq<nat>)
      requires |spine| == |elems| && forall i :: 0 <= i < |spine| ==> spine[i] == |pipes| + i
      modifies `pipes
      ensures |pipes| == |old(pipes)| + |elems| && old(pipes) <= pipes && Linked(pipes, spine, elems)
    {
      hide After;
      ghost var n := |pipes|;
      var i, last := 0, None;
      while i < |elems|
        invariant i <= |elems| && |pipes| == n + i && old(pipes) <= pipes
        invariant last == (if i == 0 then None else Some(spine[i - 1]))
        invariant forall j :: 0 <= j < i ==>
                    pipes[spine[j]] == Pipe(KProc(elems[j]), After(spine, i, j), Plain(elems[j]), true)
      {
        AfterGrows(spine, i);
        var p := |pipes|;
        pipes := pipes + [Pipe(KProc(elems[i]), None, Plain(elems[i]), true)];
        if last.Some? {
          pipes := pipes[last.value := pipes[last.value].(next := Some(p))];
        }
        last := Some(p);
        i := i + 1;
      }
    }

    /** log_center_instantiate_process_pipe_line(): the rule's own pipes the first time,
        clones of them afterwards. */
    method Instantiate(k: Key) returns (first: Option<nat>, ghost spine: seq<nat>)
      requires Valid() && k in cfg.rules
      modifies `pipes, `open
      ensures Piece(cfg, at, old(G()), G(), spine, ElemStages(cfg.rules[k])) && first == Head(spine)
    {
      hide ValidGraph, Linked, Grown, After;
      ghost var g := G();
      RuleAt(cfg, at, g, k);
      var ids := at.rules[k];
      if ids == [] {
        spine := [];
        first := None;
        assert open + SetOf(spine) == open;
        NoPiece(cfg, at, g);
      } else if !pipes[ids[0]].inlined {
        LinkOwn(ids, cfg.rules[k]);
        open := open + SetOf(ids);
        spine := ids;
        first := Some(ids[0]);
        TakenNow(cfg, at, g, k, G());
        TakeValid(cfg, at, g, k, G());
        LinkedPiece(cfg, at, g, G(), spine, cfg.rules[k]);
      } else {
        spine := Range(|pipes|, |ids|);
        first := Some(|pipes|);
        LinkCopies(cfg.rules[k], spine);
        open := open + SetOf(spine);
        CloneValid(cfg, at, g, cfg.rules[k], G());
        LinkedPiece(cfg, at, g, G(), spine, cfg.rules[k]);
      }
    }

    method NewMpx(hops: seq<nat>, ghost b: Branches) returns (p: nat)
      requires Valid() && RepBranches(pipes, sealed, hops, b)
      modifies `pipes, `open
      ensures Piece(cfg, at, old(G()), G(), [p], [SMpx(b)])
    {
      hide ValidGraph;
      ghost var g := G();
      p := |pipes|;
      pipes := pipes + [Pipe(KMpx(hops), None, PLAIN, false)];
      open := open + {p};
      MpxPiece(cfg, at, g, hops, b);
    }

    /** Appending a piece to the chain and looking for its final pipe. */
    method Link(first: Option<nat>, last: Option<nat>, pipe: nat, ghost g: Graph, ghost h: Graph,
                ghost a: seq<nat>, ghost sa: seq<Stage>, ghost b: seq<nat>, ghost sb: seq<Stage>)
      returns (f: Option<nat>, l: Option<nat>)
      requires Working(cfg, at, g, h, a, sa) && Piece(cfg, at, h, G(), b, sb)
      requires b != [] && pipe == b[0] && first == Head(a) && last == Tail(a)
      modifies `pipes
      ensures Working(cfg, at, g, G(), a + b, sa + sb) && f == Head(a + b) && l == Tail(a + b)
      ensures MpxKept(cfg, at, h, G())
    {
      hide Working, Piece, MpxKept;
      WorkingChain(cfg, at, g, h, a, sa);
      f := if first == None then Some(pipe) else first;
      if last.Some? {
        NextPiece(cfg, at, g, h, G(), a, sa, b, sb);
        pipes := pipes[last.value := pipes[last.value].(next := Some(pipe))];
        assert G() == Joined(old(G()), a, b);
      } else {
        FirstPiece(cfg, at, g, h, G(), b, sb);
        assert a + b == b && sa + sb == sb;
      }
      MpxAfter(cfg, at, g, h, old(G()), a, sa, b, sb, G());
      WorkingChain(cfg, at, g, G(), a + b, sa + sb);
      l := FinalPipe(pipe, a + b, sa + sb, |a|);
    }

    /** A source gets a multiplexer the first time it is mentioned. */
    method SourceMpx(name: string)
      requires Valid() && name in cfg.sources
      modifies `pipes
      ensures Valid() && SourceWork(old(G()), G()) && MpxKept(cfg, at, old(G()), G()) && HasMpx(at, G(), name)
    {
      hide ValidGraph;
      ghost var g := G();
      SourceAt(cfg, at, g, name);
      var src := at.sources[name];
      if pipes[src].next == None {
        WithMpxValid(cfg, at, g, name);
        var p := |pipes|;
        pipes := pipes + [Pipe(KMpx([]), None, PLAIN, false)];
        pipes := pipes[src := pipes[src].(next := Some(p))];
        assert G() == WithMpx(g, src);
      }
    }

    /** One endpoint other than an embedded statement. */
    method AddItem(s: Stmt, toplevel: bool, it: Item, first: Option<nat>, last: Option<nat>, changes: bool,
                   ghost g: Graph, ghost spine: seq<nat>, ghost stages: seq<Stage>)
      returns (ok: bool, f: Option<nat>, l: Option<nat>, alters: bool, ghost spine': seq<nat>)
      requires Working(cfg, at, g, G(), spine, stages) && first == Head(spine) && last == Tail(spine)
      modifies `pipes, `open
      ensures ok == Resolves(cfg, s, toplevel, it)
      ensures ok ==> Working(cfg, at, g, G(), spine', stages + ItemStages(cfg, it))
      ensures ok ==> f == Head(spine') && l == Tail(spine')
      ensures ok ==> alters == (changes || Alters(cfg, it))
      ensures ok ==> MpxKept(cfg, at, old(G()), G()) && (it.Source? ==> HasMpx(at, G(), it.name))
    {
      hide Working, MpxKept, HasMpx, Unmarked, Chain, ValidGraph;
      ghost var h := G();
      WorkingChain(cfg, at, g, h, spine, stages);
      ok, f, l, alters, spine' := false, first, last, changes, spine;
      match it {
        case Source(name) =>
          if toplevel && !s.flags.catchAll && name in cfg.sources {
            SourceMpx(name);
            SourceWorkWorking(cfg, at, g, h, G(), spine, stages);
            assert stages + ItemStages(cfg, it) == stages;
            ok := true;
          }
        case Process(kind, name) =>
          if (kind, name) in cfg.rules {
            var p;
            ghost var b;
            p, b := Instantiate((kind, name));
            ghost var sb := ElemStages(cfg.rules[(kind, name)]);
            ghost var k := G();
            PieceMpx(cfg, at, h, k, b, sb);
            if p.Some? {
              if kind != Filter || pipes[p.value].mark.clone {
                alters := true;
              }
              f, l := Link(first, last, p.value, g, h, spine, stages, b, sb);
              spine' := spine + b;
            } else {
              NothingAdded(cfg, at, g, h, k, spine, stages, b, sb);
            }
            ok := true;
          }
        case Destination(name) =>
          if name in cfg.dests {
            GroupBranch(cfg, at, h, name);
            ghost var br: Branches := [(Group(name, End), PLAIN)];
            var p := NewMpx([at.groups[name]], br);
            ghost var k := G();
            PieceMpx(cfg, at, h, k, [p], [SMpx(br)]);
            f, l := Link(first, last, p, g, h, spine, stages, [p], [SMpx(br)]);
            spine' := spine + [p];
            ok := true;
          }
      }
    }

    /** All endpoints before the embedded statements. */
    method AddItems(s: Stmt, toplevel: bool)
      returns (ok: bool, first: Option<nat>, last: Option<nat>, changes: bool, ghost spine: seq<nat>)
      requires Valid()
      modifies `pipes, `open
      ensures ok == AllResolve(cfg, s, toplevel, 0)
      ensures ok ==> Working(cfg, at, old(G()), G(), spine, StagesFrom(cfg, s.items, 0))
      ensures ok ==> first == Head(spine) && last == Tail(spine) && changes == Changes(cfg, s.items)
      ensures ok ==> Ready(cfg, at, G(), s.items, |s.items|)
    {
      hide Working, MpxKept, ItemStages, Alters, ValidGraph, HasMpx, Resolves;
      ghost var g := G();
      ghost var stages: seq<Stage> := [];
      StartWorking(cfg, at, g);
      ok, first, last, changes, spine := true, None, None, false, [];
      var i := 0;
      while i < |s.items|
        invariant i <= |s.items| && forall j :: 0 <= j < i ==> Resolves(cfg, s, toplevel, s.items[j])
        invariant Working(cfg, at, g, G(), spine, stages)
                  && stages + StagesFrom(cfg, s.items, i) == StagesFrom(cfg, s.items, 0)
        invariant first == Head(spine) && last == Tail(spine) && changes == Changes(cfg, s.items[..i])
        invariant Ready(cfg, at, G(), s.items, i)
      {
        ghost var h := G();
        ok, first, last, changes, spine := AddItem(s, toplevel, s.items[i], first, last, changes, g, spine, stages);
        if !ok {
          return;
        }
        ReadyKept(cfg, at, h, G(), s.items, i);
        SourceResolved(cfg, s, toplevel, s.items[i]);
        StagesStep(cfg, s.items, i, stages);
        ChangesMore(cfg, s.items, i);
        stages := stages + ItemStages(cfg, s.items[i]);
        i := i + 1;
      }
      assert s.items[..i] == s.items;
      assert stages + [] == stages;
    }

    /** log_multiplexer_add_next_hop() on the multiplexer of a source. */
    method FeedSource(name: string, first: nat, ghost br: (Path, Mark))
      requires Valid() && name in cfg.sources && HasMpx(at, G(), name)
      requires Rep(pipes, sealed, first, br.0) && pipes[first].mark == br.1
      modifies `pipes, `fed
      ensures Valid() && SourceWork(old(G()), G()) && MpxKept(cfg, at, old(G()), G())
      ensures name in old(fed) && fed == old(fed)[name := old(fed)[name] + [br]]
    {
      hide ValidGraph, Rep, RepBranches;
      ghost var g := G();
      SourceAt(cfg, at, g, name);
      var x := pipes[at.sources[name]].next.value;
      WithHopValid(cfg, at, g, name, x, first, br);
      pipes := pipes[x := pipes[x].(kind := KMpx(pipes[x].kind.hops + [first]))];
      fed := fed[name := fed[name] + [br]];
      assert G() == WithHop(g, name, x, first, br);
    }

    /** The finished statement is fed by every source its items mention. */
    method FeedMentioned(s: Stmt, first: nat, ghost br: (Path, Mark))
      requires Valid() && Ready(cfg, at, G(), s.items, |s.items|)
      requires Rep(pipes, sealed, first, br.0) && pipes[first].mark == br.1
      modifies `pipes, `fed
      ensures Valid() && SourceWork(old(G()), G()) && MpxKept(cfg, at, old(G()), G())
      ensures FedMore(cfg, old(fed), fed, br, name => Mentions(s.items, name, |s.items|))
    {
      hide ValidGraph, Rep, HasMpx, MpxKept, SourceWork;
      ghost var g := G();
      NoSourceWork(cfg, at, g);
      var i := 0;
      while i < |s.items|
        invariant i <= |s.items| && Valid() && SourceWork(g, G()) && MpxKept(cfg, at, g, G())
        invariant FedMore(cfg, g.fed, fed, br, name => Mentions(s.items, name, i))
      {
        ghost var h := G();
        if s.items[i].Source? {
          ReadyKept(cfg, at, g, h, s.items, |s.items|);
          SourceWorkRep(g, h, first, br.0);
          FeedSource(s.items[i].name, first, br);
          SourceWorkTrans(cfg, at, g, h, G());
          MpxKeptTrans(cfg, at, g, h, G());
        }
        FedStep(cfg, g.fed, h.fed, fed, br, s.items, i);
        i := i + 1;
      }
    }

    /** A catch-all statement is fed by every source there is. */
    method FeedAll(first: nat, ghost br: (Path, Mark))
      requires Valid() && Rep(pipes, sealed, first, br.0) && pipes[first].mark == br.1
      modifies `pipes, `fed
      ensures Valid() && SourceWork(old(G()), G()) && MpxKept(cfg, at, old(G()), G())
      ensures FedMore(cfg, old(fed), fed, br, name => 1)
    {
      hide ValidGraph, Rep, HasMpx, MpxKept, SourceWork;
      ghost var g := G();
      NoSourceWork(cfg, at, g);
      var todo := cfg.sources;
      while todo != {}
        invariant todo <= cfg.sources && Valid() && SourceWork(g, G()) && MpxKept(cfg, at, g, G())
        invariant FedMore(cfg, g.fed, fed, br, name => if name in todo then 0 else 1)
        decreases |todo|
      {
        var name :| name in todo;
        ghost var h := G();
        SourceMpx(name);
        ghost var k := G();
        SourceWorkTrans(cfg, at, g, h, k);
        MpxKeptTrans(cfg, at, g, h, k);
        SourceWorkRep(g, k, first, br.0);
        FeedSource(name, first, br);
        SourceWorkTrans(cfg, at, g, k, G());
        MpxKeptTrans(cfg, at, g, k, G());
        FedOne(cfg, g.fed, h.fed, fed, br, todo, name);
        todo := todo - {name};
      }
    }

    /** The multiplexer for embedded statements, made for the first of them. */
    method OpenFork(first: Option<nat>, last: Option<nat>, ghost g: Graph, ghost spine: seq<nat>, ghost sa: seq<Stage>)
      returns (p: nat, f: Option<nat>)
      requires Working(cfg, at, g, G(), spine, sa) && first == Head(spine) && last == Tail(spine)
      modifies `pipes, `open
      ensures Working(cfg, at, g, G(), spine + [p], sa + [SMpx([])]) && f == Head(spine + [p])
      ensures MpxKept(cfg, at, old(G()), G())
    {
      hide Working, MpxKept, ValidGraph, Piece;
      ghost var h := G();
      WorkingChain(cfg, at, g, h, spine, sa);
      p := NewMpx([], []);
      var l;
      f, l := Link(first, last, p, g, h, spine, sa, [p], [SMpx([])]);
    }

    /** A compiled embedded statement becomes a hop. */
    method AddBranch(mpx: nat, sub: nat, ghost g: Graph, ghost spine: seq<nat>, ghost sa: seq<Stage>, ghost b: Branches,
                     ghost br: (Path, Mark))
      requires Working(cfg, at, g, G(), spine, sa + [SMpx(b)]) && spine != [] && mpx == spine[|spine| - 1]
      requires Rep(pipes, sealed, sub, br.0) && pipes[sub].mark == br.1
      modifies `pipes
      ensures Working(cfg, at, g, G(), spine, sa + [SMpx(b + [br])]) && MpxKept(cfg, at, old(G()), G())
    {
      hide Working, MpxKept, Rep;
      ghost var h := G();
      BranchAdded(cfg, at, g, h, spine, sa, b, sub, br);
      pipes := pipes[mpx := pipes[mpx].(kind := KMpx(pipes[mpx].kind.hops + [sub]))];
      assert G() == WithBranch(h, mpx, sub);
    }

    /** Compiling one embedded statement and adding it to the multiplexer. */
    method AddFork(s: Stmt, i: nat, mpx: nat, ghost g: Graph, ghost spine: seq<nat>, ghost sa: seq<Stage>,
                   ghost b: Branches)
      returns (ok: bool, hard: bool)
      requires i < |s.forks|
      requires Working(cfg, at, g, G(), spine, sa + [SMpx(b)]) && spine != [] && mpx == spine[|spine| - 1]
      modifies this
      ensures ok == Compile(cfg, s.forks[i], false, s.flags.flowControl).Some?
      ensures ok ==> var br := Compile(cfg, s.forks[i], false, s.flags.flowControl).value;
                     && Working(cfg, at, g, G(), spine, sa + [SMpx(b + [br])]) && hard == br.1.hard
                     && MpxKept(cfg, at, old(G()), G())
      decreases s, 0
    {
      hide Working, MpxKept, Rep, ValidGraph, Safe;
      ghost var h := G();
      WorkingChain(cfg, at, g, h, spine, sa + [SMpx(b)]);
      var sub := InitPipeLine(s.forks[i], false, s.flags.flowControl);
      ok, hard := sub.Some?, false;
      if ok {
        ghost var br := Compile(cfg, s.forks[i], false, s.flags.flowControl).value;
        ghost var k := G();
        SubWorking(cfg, at, g, h, k, spine, sa + [SMpx(b)]);
        SafeMpx(cfg, at, h, k);
        hard := pipes[sub.value].mark.hard;
        AddBranch(mpx, sub.value, g, spine, sa, b, br);
        MpxKeptTrans(cfg, at, h, k, G());
      }
    }

    /** The embedded statements, each a hop of one multiplexer at the end of the chain. */
    method AddForks(s: Stmt, first: Option<nat>, last: Option<nat>, ghost g: Graph, ghost spine0: seq<nat>,
                    ghost sa: seq<Stage>)
      returns (ok: bool, f: Option<nat>, flowChild: bool, ghost spine: seq<nat>, ghost b: Branches)
      requires Working(cfg, at, g, G(), spine0, sa) && first == Head(spine0) && last == Tail(spine0)
      modifies this
      ensures ok == (forall i :: 0 <= i < |s.forks| ==> Compile(cfg, s.forks[i], false, s.flags.flowControl).Some?)
      ensures ok ==> Working(cfg, at, g, G(), spine, sa + ForkStages(b))
      ensures ok ==> f == Head(spine) && MpxKept(cfg, at, old(G()), G())
      ensures ok ==> Compiled(cfg, s, false, b) && |b| == |s.forks|
      ensures ok ==> (flowChild <==> exists j :: 0 <= j < |b| && b[j].1.hard)
      decreases s, 1
    {
      hide Working, MpxKept;
      ghost var h0 := G();
      ok, f, flowChild, spine, b := true, first, false, spine0, [];
      var mpx: Option<nat> := None;
      var i := 0;
      assert sa + ForkStages([]) == sa;
      SameMpx(cfg, at, h0);
      while i < |s.forks|
        invariant i == |b| <= |s.forks| && Compiled(cfg, s, false, b) && (mpx == None <==> i == 0)
        invariant Working(cfg, at, g, G(), spine, sa + ForkStages(b)) && f == Head(spine) && MpxKept(cfg, at, h0, G())
        invariant mpx.Some? ==> spine != [] && mpx == Tail(spine)
        invariant i == 0 ==> spine == spine0
        invariant flowChild <==> exists j :: 0 <= j < |b| && b[j].1.hard
      {
        if mpx == None {
          ghost var h := G();
          var p;
          p, f := OpenFork(first, last, g, spine, sa);
          spine := spine + [p];
          mpx := Some(p);
          MpxKeptTrans(cfg, at, h0, h, G());
        }
        ghost var k := G();
        var hard;
        ok, hard := AddFork(s, i, mpx.value, g, spine, sa, b);
        if !ok {
          return;
        }
        flowChild := flowChild || hard;
        MpxKeptTrans(cfg, at, h0, k, G());
        b := b + [Compile(cfg, s.forks[i], false, s.flags.flowControl).value];
        i := i + 1;
      }
    }

    /** The branch flags go on the first pipe, and the statement is done. */
    method Finish(s: Stmt, p: nat, changes: bool, hard: bool, ghost g: Graph, ghost spine: seq<nat>,
                  ghost stages: seq<Stage>)
      returns (ghost mark: Mark)
      requires Working(cfg, at, g, G(), spine, stages) && spine != [] && p == spine[0] && stages != []
      modifies `pipes, `sealed, `open
      ensures Valid() && Safe(cfg, at, g, G()) && open == g.open && MpxKept(cfg, at, old(G()), G())
      ensures Rep(pipes, sealed, p, Build(stages, 0)) && pipes[p].mark == mark
      ensures var was := StageMark(stages[0]);
              mark == Mark(s.flags.fallback || was.fallback, s.flags.final || was.final, changes || was.clone,
                           hard || was.hard)
    {
      hide Working, MpxKept, Rep, ValidGraph, Safe;
      ghost var h := G();
      FirstPipe(cfg, at, g, h, spine, stages);
      var m := pipes[p].mark;
      if s.flags.fallback {
        m := m.(fallback := true);
      }
      if s.flags.final {
        m := m.(final := true);
      }
      if changes {
        m := m.(clone := true);
      }
      if hard {
        m := m.(hard := true);
      }
      pipes := pipes[p := pipes[p].(mark := m)];
      mark := m;
      Finished(cfg, at, g, h, spine, stages, m);
      sealed := sealed + SetOf(spine);
      open := open - SetOf(spine);
      assert G() == Sealed(WithMark(h, p, m), spine);
    }

    /** A top-level statement is connected to its sources. */
    method Connect(s: Stmt, p: nat, ghost br: (Path, Mark))
      requires Valid() && Ready(cfg, at, G(), s.items, |s.items|) && Rep(pipes, sealed, p, br.0)
               && pipes[p].mark == br.1
      modifies `pipes, `fed
      ensures Valid() && SourceWork(old(G()), G()) && MpxKept(cfg, at, old(G()), G())
      ensures FedMore(cfg, old(fed), fed, br, name => Feeds(s, name))
    {
      hide ValidGraph, Rep, MpxKept, SourceWork, Ready;
      if !s.flags.catchAll {
        FeedMentioned(s, p, br);
      } else {
        FeedAll(p, br);
      }
    }

    /** log_center_init_pipe_line(): None is the NULL returned for a configuration error. */
    method InitPipeLine(s: Stmt, toplevel: bool, parentFlow: bool) returns (first: Option<nat>)
      requires Valid()
      modifies this
      ensures first.Some? == Compile(cfg, s, toplevel, parentFlow).Some?
      ensures first.Some? ==> Valid() && Safe(cfg, at, old(G()), G()) && open == old(open)
      ensures first.Some? ==> var (path, mark) := Compile(cfg, s, toplevel, parentFlow).value;
                              && first.value < |pipes| && Rep(pipes, sealed, first.value, path)
                              && pipes[first.value].mark == mark
      ensures first.Some? && !toplevel ==> fed == old(fed)
      ensures first.Some? && toplevel ==>
                FedMore(cfg, old(fed), fed, Compile(cfg, s, toplevel, parentFlow).value, name => Feeds(s, name))
      decreases s, 2
    {
      hide Working, MpxKept, Rep, ValidGraph, Safe, Ready, FedMore, SourceWork;
      hide Compile, StagesFrom, ForkStages, AllResolve, Build, Changes, Compiled, Chain;
      ghost var g := G();
      if !toplevel && s.flags.catchAll {
        NestedCatchAll(cfg, s, parentFlow);
        return None;
      }
      var ok, f, l, changes;
      ghost var spine0;
      ok, f, l, changes, spine0 := AddItems(s, toplevel);
      if !ok {
        Unresolved(cfg, s, toplevel, parentFlow);
        return None;
      }
      ghost var sa := StagesFrom(cfg, s.items, 0);
      ghost var h := G();
      var flowChild;
      ghost var spine, b;
      ok, f, flowChild, spine, b := AddForks(s, f, l, g, spine0, sa);
      if !ok {
        Unforked(cfg, s, toplevel, parentFlow);
        return None;
      }
      ghost var stages := sa + ForkStages(b);
      ghost var k := G();
      CompileIs(cfg, s, toplevel, parentFlow, b);
      WorkingChain(cfg, at, g, k, spine, stages);
      if f == None {
        return None;
      }
      assert stages != [];
      ReadyKept(cfg, at, h, k, s.items, |s.items|);
      FirstMark(cfg, s.items, b);
      ghost var mark := Finish(s, f.value, changes, s.flags.flowControl || flowChild || parentFlow, g, spine, stages);
      ghost var br := (Build(stages, 0), mark);
      ghost var done := G();
      RepInside(done, f.value, br.0);
      if toplevel {
        ReadyKept(cfg, at, k, done, s.items, |s.items|);
        Connect(s, f.value, br);
        SourceWorkRep(done, G(), f.value, br.0);
        RepInside(G(), f.value, br.0);
        SafeThen(cfg, at, g, done, G());
      }
      first := f;
    }

    /** Following pipe_next to the end. */
    method FinalPipe(pipe: nat, ghost spine: seq<nat>, ghost stages: seq<Stage>, ghost from: nat)
        returns (l: Option<nat>)
      requires Chain(pipes, sealed, spine, stages) && from < |spine| && pipe == spine[from]
      ensures l == Tail(spine)
    {
      hide RepBranches;
      var p := pipe;
      ghost var k := from;
      assert StageAt(pipes, sealed, spine[k], stages[k]);
      while pipes[p].next.Some?
        invariant k < |spine| && p == spine[k] && p < |pipes|
        decreases |spine| - k
      {
        p := pipes[p].next.value;
        k := k + 1;
        assert StageAt(pipes, sealed, spine[k], stages[k]);
      }
      l := Some(p);
    }
  }

  lemma SourceAt(cfg: Config, at: Places, g: Graph, name: string)
    requires ValidGraph(cfg, at, g) && name in cfg.sources
    ensures name in at.sources && SourceOk(g, name, at.sources[name])
  {
  }

  lemma PieceMpx(cfg: Config, at: Places, g: Graph, h: Graph, b: seq<nat>, sb: seq<Stage>)
    requires Piece(cfg, at, g, h, b, sb)
    ensures MpxKept(cfg, at, g, h) && |b| == |sb| && Unmarked(h.pipes, b, sb)
    ensures b != [] ==> b[0] < |h.pipes| && h.pipes[b[0]].mark == StageMark(sb[0])
  {
  }

  /** Linking a piece does not touch the sources. */
  lemma MpxAfter(cfg: Config, at: Places, g: Graph, h: Graph, k: Graph, a: seq<nat>, sa: seq<Stage>, b: seq<nat>,
                 sb: seq<Stage>, r: Graph)
    requires Working(cfg, at, g, h, a, sa) && Piece(cfg, at, h, k, b, sb) && b != []
    requires a == [] ==> r == k
    requires a != [] ==> a[|a| - 1] < |k.pipes| && r == Joined(k, a, b)
    ensures MpxKept(cfg, at, h, r)
  {
    if a != [] {
      assert a[|a| - 1] in SetOf(a);
      forall s | s in cfg.sources && HasMpx(at, h, s)
        ensures HasMpx(at, r, s)
      {
        assert HasMpx(at, k, s);
        assert SourceOk(k, s, at.sources[s]);
      }
    }
  }

  lemma NothingAdded(cfg: Config, at: Places, g: Graph, h: Graph, k: Graph, a: seq<nat>, sa: seq<Stage>, b: seq<nat>,
                     sb: seq<Stage>)
    requires Working(cfg, at, g, h, a, sa) && Piece(cfg, at, h, k, b, sb) && b == []
    ensures Working(cfg, at, g, k, a, sa + sb)
  {
    hide ValidGraph;
    assert sb == [];
    PieceApart(cfg, at, g, h, k, a, sa, b, sb);
    assert a + b == a && sa + sb == sa;
  }

  lemma SourceResolved(cfg: Config, s: Stmt, toplevel: bool, it: Item)
    requires Resolves(cfg, s, toplevel, it)
    ensures it.Source? ==> it.name in cfg.sources
  {
  }

  lemma StagesStep(cfg: Config, items: seq<Item>, i: nat, stages: seq<Stage>)
    requires i < |items|
    ensures stages + ItemStages(cfg, items[i]) + StagesFrom(cfg, items, i + 1) == stages + StagesFrom(cfg, items, i)
  {
  }

  lemma NoSourceWork(cfg: Config, at: Places, g: Graph)
    requires ValidGraph(cfg, at, g)
    ensures SourceWork(g, g) && MpxKept(cfg, at, g, g)
    ensures forall name :: name in cfg.sources ==> name in g.fed && g.fed[name] + [] == g.fed[name]
  {
    forall name | name in cfg.sources
      ensures name in g.fed
    {
      assert SourceOk(g, name, at.sources[name]);
    }
  }

  lemma FedStep(cfg: Config, f: map<string, Branches>, h: map<string, Branches>, k: map<string, Branches>,
                br: (Path, Mark), items: seq<Item>, i: nat)
    requires i < |items| && FedMore(cfg, f, h, br, name => Mentions(items, name, i))
    requires if items[i].Source? then items[i].name in h && k == h[items[i].name := h[items[i].name] + [br]] else k == h
    ensures FedMore(cfg, f, k, br, name => Mentions(items, name, i + 1))
  {
    forall name | name in cfg.sources
      ensures name in k && k[name] == f[name] + Times(br, Mentions(items, name, i + 1))
    {
      var m := Mentions(items, name, i);
      assert Times(br, m) + [br] == Times(br, m + 1);
      assert f[name] + Times(br, m) + [br] == f[name] + (Times(br, m) + [br]);
    }
  }

  lemma FedOne(cfg: Config, f: map<string, Branches>, h: map<string, Branches>, k: map<string, Branches>,
               br: (Path, Mark), todo: set<string>, one: string)
    requires one in todo && FedMore(cfg, f, h, br, name => if name in todo then 0 else 1)
    requires one in h && k == h[one := h[one] + [br]]
    ensures FedMore(cfg, f, k, br, name => if name in todo - {one} then 0 else 1)
  {
    forall name | name in cfg.sources
      ensures name in k && k[name] == f[name] + Times(br, if name in todo - {one} then 0 else 1)
    {
      assert Times(br, 0) == [] && Times(br, 1) == [br];
      assert f[name] + [] == f[name];
    }
  }

  lemma SameMpx(cfg: Config, at: Places, g: Graph)
    ensures MpxKept(cfg, at, g, g)
  {
  }

  lemma SafeMpx(cfg: Config, at: Places, g: Graph, h: Graph)
    requires Safe(cfg, at, g, h)
    ensures MpxKept(cfg, at, g, h)
  {
  }

  lemma SafeThen(cfg: Config, at: Places, g: Graph, h: Graph, k: Graph)
    requires Safe(cfg, at, g, h) && SourceWork(h, k) && MpxKept(cfg, at, h, k) && h.open == g.open
    ensures Safe(cfg, at, g, k)
  {
    MpxKeptTrans(cfg, at, g, h, k);
  }

  lemma Unresolved(cfg: Config, s: Stmt, toplevel: bool, parentFlow: bool)
    requires !AllResolve(cfg, s, toplevel, 0)
    ensures Compile(cfg, s, toplevel, parentFlow) == None
  {
    hide Resolves;
    var hops := CompileForks(cfg, s, false, 0);
    if hops.Some? {
      UnresolvedItems(cfg, s, toplevel, 0, if s.forks == [] then End else Mpx(hops.value, End));
    }
  }

  lemma {:induction false} UnresolvedItems(cfg: Config, s: Stmt, toplevel: bool, i: nat, rest: Path)
    requires i <= |s.items| && !AllResolve(cfg, s, toplevel, i)
    ensures CompileItems(cfg, s, toplevel, i, rest) == None
    decreases |s.items| - i
  {
    hide Resolves;
    if i < |s.items| && Resolves(cfg, s, toplevel, s.items[i]) {
      UnresolvedItems(cfg, s, toplevel, i + 1, rest);
    }
  }

  lemma Unforked(cfg: Config, s: Stmt, toplevel: bool, parentFlow: bool)
    requires exists i :: 0 <= i < |s.forks| && Compile(cfg, s.forks[i], false, s.flags.flowControl) == None
    ensures Compile(cfg, s, toplevel, parentFlow) == None
  {
    var i :| 0 <= i < |s.forks| && Compile(cfg, s.forks[i], false, s.flags.flowControl) == None;
    UncompiledForks(cfg, s, false, 0, i);
  }

  /** The first pipe carries no branch flags yet, and PIF_CLONE only in a statement that
      changes the message anyway. */
  lemma FirstMark(cfg: Config, items: seq<Item>, b: Branches)
    ensures var stages := StagesFrom(cfg, items, 0) + ForkStages(b);
            stages != [] ==>
              var m := StageMark(stages[0]);
              !m.fallback && !m.final && !m.hard && (m.clone ==> Changes(cfg, items))
  {
    var stages := StagesFrom(cfg, items, 0) + ForkStages(b);
    if stages != [] && StageMark(stages[0]).clone {
      if StagesFrom(cfg, items, 0) != [] {
        FirstChanges(cfg, items, 0);
      }
    }
  }

  lemma RepInside(g: Graph, p: nat, path: Path)
    requires Rep(g.pipes, g.sealed, p, path)
    ensures p < |g.pipes|
  {
  }

  lemma NestedCatchAll(cfg: Config, s: Stmt, parentFlow: bool)
    requires s.flags.catchAll
    ensures Compile(cfg, s, false, parentFlow) == None
  {
  }

  ghost predicate FeedsOn(cfg: Config, at: Places, g: Graph, conns: seq<Stmt>, name: string) {
    && HasMpx(at, g, name)
    && var x := g.pipes[at.sources[name]].next.value;
       var hops := CompileForks(cfg, FromSource(Feeding(conns, name, |conns|)), true, 0);
       && x < |g.pipes| && g.pipes[x].kind.KMpx? && g.pipes[x].next == None
       && hops.Some? && RepHops(g.pipes, g.sealed, g.pipes[x].kind.hops, 0, hops.value)
  }

  lemma FedSource(cfg: Config, at: Places, g: Graph, conns: seq<Stmt>, name: string)
    requires ValidGraph(cfg, at, g) && name in cfg.sources && name in g.fed
    requires forall i :: 0 <= i < |conns| ==> Compile(cfg, conns[i], true, false).Some?
    requires g.fed[name] == FedBy(cfg, conns, name, |conns|)
    ensures HasMpx(at, g, name) ==> FeedsOn(cfg, at, g, conns, name)
    ensures !HasMpx(at, g, name) ==> Feeding(conns, name, |conns|) == []
  {
    hide Compile, RulesOk, GroupsOk, CompileForks;
    SourceAt(cfg, at, g, name);
    FedCompiles(cfg, conns, name);
    FedIsFeeding(cfg, conns, name, |conns|);
    if HasMpx(at, g, name) {
      var x := g.pipes[at.sources[name]].next.value;
      BranchesToHops(g.pipes, g.sealed, g.pipes[x].kind.hops, g.fed[name], 0);
    }
  }

  lemma WorkingChain(cfg: Config, at: Places, g: Graph, h: Graph, spine: seq<nat>, stages: seq<Stage>)
    requires Working(cfg, at, g, h, spine, stages)
    ensures Chain(h.pipes, h.sealed, spine, stages) && ValidGraph(cfg, at, h) && |spine| == |stages| && h.fed == g.fed
  {
  }

  lemma NoPiece(cfg: Config, at: Places, g: Graph)
    requires ValidGraph(cfg, at, g)
    ensures Piece(cfg, at, g, g, [], ElemStages([]))
  {
    hide ValidGraph;
    assert g.open + SetOf([]) == g.open;
  }

  lemma TakenNow(cfg: Config, at: Places, g: Graph, k: Key, h: Graph)
    requires k in cfg.rules && k in at.rules && RuleOk(g, at.rules[k], cfg.rules[k])
    requires at.rules[k] != [] && !g.pipes[at.rules[k][0]].inlined
    requires h.sealed == g.sealed && h.fed == g.fed && h.open == g.open + SetOf(at.rules[k])
    requires |h.pipes| == |g.pipes| && Linked(h.pipes, at.rules[k], cfg.rules[k])
    requires forall x :: 0 <= x < |h.pipes| && x !in at.rules[k] ==> h.pipes[x] == g.pipes[x]
    ensures Taken(cfg, at, g, k, h)
  {
    assert forall x :: x in at.rules[k] ==> x in SetOf(at.rules[k]);
  }

  lemma AfterGrows(ids: seq<nat>, i: nat)
    requires i < |ids|
    ensures After(ids, i + 1, i) == None
    ensures i > 0 ==> After(ids, i + 1, i - 1) == Some(ids[i]) && After(ids, i, i - 1) == None
    ensures forall j :: 0 <= j < i - 1 ==> After(ids, i + 1, j) == After(ids, i, j)
  {
  }
}
