/** Pipes as records that point at each other, and when such a graph is the tree of pipes
    a log statement compiles to. */
module PipeGraph {
  import opened Wrappers
  import opened LogTree

  datatype PipeKind =
    | KProc(elem: Elem)
    | KGroup(dest: string)
    | KMpx(hops: seq<nat>)
    | KSource(name: string)

  /** A LogPipe: its pipe_next, its branch flags and PIF_INLINED. */
  datatype Pipe = Pipe(kind: PipeKind, next: Option<nat>, mark: Mark, inlined: bool)

  // ----- finished pipelines

  /** From pipe `p` on, following pipe_next and next hops, the graph is `path`; all pipes
      met on the way are in `s`. */
  predicate Rep(g: seq<Pipe>, s: set<nat>, p: nat, path: Path)
    decreases path, 0
  {
    && p < |g| && p in s
    && match path
       case End => false
       case Proc(e, rest) => g[p].kind == KProc(e) && RepNext(g, s, g[p].next, rest)
       case Group(d, rest) => g[p].kind == KGroup(d) && RepNext(g, s, g[p].next, rest)
       case Mpx(hops, rest) =>
         g[p].kind.KMpx? && RepHops(g, s, g[p].kind.hops, 0, hops) && RepNext(g, s, g[p].next, rest)
  }

  predicate RepNext(g: seq<Pipe>, s: set<nat>, next: Option<nat>, path: Path)
    decreases path, 1
  {
    if path.End? then next == None else next.Some? && Rep(g, s, next.value, path)
  }

  predicate RepHops(g: seq<Pipe>, s: set<nat>, hs: seq<nat>, i: nat, hops: Hops)
    decreases hops, 0
  {
    match hops
    case NoHops => i == |hs|
    case Hop(path, mark, tail) =>
      i < |hs| && Rep(g, s, hs[i], path) && g[hs[i]].mark == mark && RepHops(g, s, hs, i + 1, tail)
  }

  /** `h` keeps every pipe of `s`. */
  predicate Keeps(g: seq<Pipe>, s: set<nat>, h: seq<Pipe>) {
    forall x :: x in s && x < |g| ==> x < |h| && h[x] == g[x]
  }

  lemma {:induction false} RepKept(g: seq<Pipe>, s: set<nat>, h: seq<Pipe>, t: set<nat>, p: nat, path: Path)
    requires Rep(g, s, p, path) && Keeps(g, s, h) && s <= t
    ensures Rep(h, t, p, path)
    decreases path, 0
  {
    match path
    case Proc(_, rest) => NextKept(g, s, h, t, g[p].next, rest);
    case Group(_, rest) => NextKept(g, s, h, t, g[p].next, rest);
    case Mpx(hops, rest) =>
      HopsKept(g, s, h, t, g[p].kind.hops, 0, hops);
      NextKept(g, s, h, t, g[p].next, rest);
  }

  lemma {:induction false} NextKept(g: seq<Pipe>, s: set<nat>, h: seq<Pipe>, t: set<nat>, next: Option<nat>, path: Path)
    requires RepNext(g, s, next, path) && Keeps(g, s, h) && s <= t
    ensures RepNext(h, t, next, path)
    decreases path, 1
  {
    if !path.End? {
      RepKept(g, s, h, t, next.value, path);
    }
  }

  lemma {:induction false} HopsKept(g: seq<Pipe>, s: set<nat>, h: seq<Pipe>, t: set<nat>, hs: seq<nat>, i: nat,
                                    hops: Hops)
    requires RepHops(g, s, hs, i, hops) && Keeps(g, s, h) && s <= t
    ensures RepHops(h, t, hs, i, hops)
    decreases hops, 0
  {
    if hops.Hop? {
      RepKept(g, s, h, t, hs[i], hops.path);
      HopsKept(g, s, h, t, hs, i + 1, hops.tail);
    }
  }

  // ----- pipelines under construction

  /** The branches of a multiplexer as a list that grows at its end. */
  type Branches = seq<(Path, Mark)>

  function ToHops(b: Branches, i: nat): Hops
    requires i <= |b|
    decreases |b| - i
  {
    if i == |b| then NoHops else Hop(b[i].0, b[i].1, ToHops(b, i + 1))
  }

  predicate RepBranches(g: seq<Pipe>, s: set<nat>, hs: seq<nat>, b: Branches) {
    |hs| == |b| && forall i :: 0 <= i < |b| ==> Rep(g, s, hs[i], b[i].0) && g[hs[i]].mark == b[i].1
  }

  lemma {:induction false} BranchesToHops(g: seq<Pipe>, s: set<nat>, hs: seq<nat>, b: Branches, i: nat)
    requires RepBranches(g, s, hs, b) && i <= |b|
    ensures RepHops(g, s, hs, i, ToHops(b, i))
    decreases |b| - i
  {
    if i < |b| {
      BranchesToHops(g, s, hs, b, i + 1);
    }
  }

  lemma BranchesKept(g: seq<Pipe>, s: set<nat>, h: seq<Pipe>, t: set<nat>, hs: seq<nat>, b: Branches)
    requires RepBranches(g, s, hs, b) && Keeps(g, s, h) && s <= t
    ensures RepBranches(h, t, hs, b)
  {
    forall i | 0 <= i < |b|
      ensures Rep(h, t, hs[i], b[i].0) && h[hs[i]].mark == b[i].1
    {
      RepKept(g, s, h, t, hs[i], b[i].0);
    }
  }

  /** One link of a chain. */
  datatype Stage = SProc(elem: Elem) | SMpx(branches: Branches)

  function Build(stages: seq<Stage>, i: nat): Path
    requires i <= |stages|
    decreases |stages| - i
  {
    if i == |stages| then End
    else match stages[i]
         case SProc(e) => Proc(e, Build(stages, i + 1))
         case SMpx(b) => Mpx(ToHops(b, 0), Build(stages, i + 1))
  }

  predicate StageAt(g: seq<Pipe>, s: set<nat>, p: nat, stage: Stage) {
    && p < |g|
    && match stage
       case SProc(e) => g[p].kind == KProc(e)
       case SMpx(b) => g[p].kind.KMpx? && RepBranches(g, s, g[p].kind.hops, b)
  }

  /** The pipe after link `k` in a chain of the first `n` pipes of `spine`. */
  function After(spine: seq<nat>, n: nat, k: nat): Option<nat>
    requires n <= |spine|
  {
    if k + 1 < n then Some(spine[k + 1]) else None
  }

  /** The pipes of `spine` are linked one after the other and are the given stages; their
      branches lie in `s`. */
  predicate Chain(g: seq<Pipe>, s: set<nat>, spine: seq<nat>, stages: seq<Stage>) {
    && |spine| == |stages|
    && (forall k :: 0 <= k < |spine| ==>
        StageAt(g, s, spine[k], stages[k]) && g[spine[k]].next == After(spine, |spine|, k))
    && (forall j, k :: 0 <= j < k < |spine| ==> spine[j] != spine[k])
  }

  /** A chain whose pipes are added to `s` is a finished pipeline. */
  lemma {:induction false} ChainDone(g: seq<Pipe>, s: set<nat>, t: set<nat>, spine: seq<nat>, stages: seq<Stage>,
                                     i: nat)
    requires Chain(g, s, spine, stages) && s <= t && i < |spine|
    requires forall k :: 0 <= k < |spine| ==> spine[k] in t
    ensures Rep(g, t, spine[i], Build(stages, i))
    decreases |spine| - i
  {
    if i + 1 < |spine| {
      ChainDone(g, s, t, spine, stages, i + 1);
    }
    assert StageAt(g, s, spine[i], stages[i]);
    if stages[i].SMpx? {
      BranchesKept(g, s, g, t, g[spine[i]].kind.hops, stages[i].branches);
      BranchesToHops(g, t, g[spine[i]].kind.hops, stages[i].branches, 0);
    }
  }

  /** A chain survives changes to other pipes. */
  lemma ChainKept(g: seq<Pipe>, s: set<nat>, h: seq<Pipe>, t: set<nat>, spine: seq<nat>, stages: seq<Stage>)
    requires Chain(g, s, spine, stages) && Keeps(g, s, h) && s <= t
    requires forall k :: 0 <= k < |spine| ==> spine[k] < |h| && h[spine[k]] == g[spine[k]]
    ensures Chain(h, t, spine, stages)
  {
    forall k | 0 <= k < |spine|
      ensures StageAt(h, t, spine[k], stages[k])
    {
      assert StageAt(g, s, spine[k], stages[k]);
      if stages[k].SMpx? {
        BranchesKept(g, s, h, t, g[spine[k]].kind.hops, stages[k].branches);
      }
    }
  }

  /** Setting pipe_next of a pipe that is still being worked on changes no stage. */
  lemma StageKept(g: seq<Pipe>, s: set<nat>, last: nat, next: Option<nat>, p: nat, stage: Stage)
    requires last < |g| && last !in s && StageAt(g, s, p, stage)
    ensures StageAt(g[last := g[last].(next := next)], s, p, stage)
  {
    if stage.SMpx? {
      BranchesKept(g, s, g[last := g[last].(next := next)], s, g[p].kind.hops, stage.branches);
    }
  }

  /** `log_pipe_append(last, q)` links two chains. */
  lemma ChainLinked(g: seq<Pipe>, s: set<nat>, a: seq<nat>, sa: seq<Stage>, b: seq<nat>, sb: seq<Stage>, h: seq<Pipe>)
    requires Chain(g, s, a, sa) && Chain(g, s, b, sb) && a != [] && b != []
    requires forall j, k :: 0 <= j < |a| && 0 <= k < |b| ==> a[j] != b[k]
    requires a[|a| - 1] !in s
    requires h == g[a[|a| - 1] := g[a[|a| - 1]].(next := Some(b[0]))]
    ensures Chain(h, s, a + b, sa + sb)
  {
    hide RepBranches;
    var last := a[|a| - 1];
    forall k | 0 <= k < |a| + |b|
      ensures StageAt(h, s, (a + b)[k], (sa + sb)[k]) && h[(a + b)[k]].next == After(a + b, |a + b|, k)
    {
      if k < |a| {
        assert StageAt(g, s, a[k], sa[k]) && g[a[k]].next == After(a, |a|, k);
        StageKept(g, s, last, Some(b[0]), a[k], sa[k]);
      } else {
        assert StageAt(g, s, b[k - |a|], sb[k - |a|]) && g[b[k - |a|]].next == After(b, |b|, k - |a|);
        StageKept(g, s, last, Some(b[0]), b[k - |a|], sb[k - |a|]);
      }
    }
  }
}
