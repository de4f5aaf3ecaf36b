/** Initialization of filter rules that refer to each other through filter(): it always
    ends, it succeeds exactly when no cycle and no missing rule can be reached, and what
    it initialized can be evaluated.  Evaluation may store matches into the message; a
    filter() call hides that from the pipe's PIF_CLONE flag. */
module FilterInit {
  import opened Wrappers
  import LogTree

  /** A filter expression.  A call is known by its node, since every FilterCall object has
      its own `visited` flag and its own link to the rule's expression; `comp` negates, and
      `stores` is the store-matches flag of a match. */
  datatype Expr =
    | Leaf(id: nat, stores: bool, comp: bool)
    | Or(left: Expr, right: Expr, comp: bool)
    | And(left: Expr, right: Expr, comp: bool)
    | Call(node: nat, rule: string, comp: bool)

  type Rules = map<string, Expr>

  function Nodes(e: Expr): set<nat> {
    match e
    case Leaf(_, _, _) => {}
    case Or(l, r, _) => Nodes(l) + Nodes(r)
    case And(l, r, _) => Nodes(l) + Nodes(r)
    case Call(n, _, _) => {n}
  }

  /** The expression calls rule `t`. */
  predicate Calls(e: Expr, t: string) {
    match e
    case Leaf(_, _, _) => false
    case Or(l, r, _) => Calls(l, t) || Calls(r, t)
    case And(l, r, _) => Calls(l, t) || Calls(r, t)
    case Call(_, rule, _) => rule == t
  }

  /** `e` is the expression of a rule or part of it. */
  predicate PartOf(e: Expr, whole: Expr) {
    e == whole ||
    match whole
    case Leaf(_, _, _) => false
    case Or(l, r, _) => PartOf(e, l) || PartOf(e, r)
    case And(l, r, _) => PartOf(e, l) || PartOf(e, r)
    case Call(_, _, _) => false
  }

  lemma {:induction false} PartCalls(e: Expr, whole: Expr, t: string)
    requires PartOf(e, whole)
    ensures Calls(e, t) ==> Calls(whole, t)
    ensures Nodes(e) <= Nodes(whole)
    decreases whole
  {
    if e != whole {
      if PartOf(e, whole.left) {
        PartCalls(e, whole.left, t);
      } else {
        PartCalls(e, whole.right, t);
      }
    }
  }

  lemma {:induction false} Parts(e: Expr, whole: Expr)
    requires PartOf(e, whole) && (e.Or? || e.And?)
    ensures PartOf(e.left, whole) && PartOf(e.right, whole)
    decreases whole
  {
    if e == whole {
      assert PartOf(e.left, e.left) && PartOf(e.right, e.right);
    } else if PartOf(e, whole.left) {
      Parts(e, whole.left);
    } else {
      Parts(e, whole.right);
    }
  }

  /** Different rules are made of different objects. */
  predicate Disjoint(rules: Rules) {
    forall r, s :: r in rules && s in rules && r != s ==> Nodes(rules[r]) !! Nodes(rules[s])
  }

  // ----- paths along filter() references

  predicate Path(rules: Rules, p: seq<string>) {
    p != [] && forall i :: 0 <= i < |p| - 1 ==> p[i] in rules && Calls(rules[p[i]], p[i + 1])
  }

  /** A path that ends in a missing rule or closes a cycle. */
  predicate Bad(rules: Rules, p: seq<string>) {
    Path(rules, p) && (p[|p| - 1] !in rules || exists i :: 0 <= i < |p| - 1 && p[i] == p[|p| - 1])
  }

  // ----- initialized rules

  /** Every rule called by `e` is among the first `k` of `order`. */
  predicate CallsBefore(e: Expr, order: seq<string>, k: nat)
    requires k <= |order|
  {
    match e
    case Leaf(_, _, _) => true
    case Or(l, r, _) => CallsBefore(l, order, k) && CallsBefore(r, order, k)
    case And(l, r, _) => CallsBefore(l, order, k) && CallsBefore(r, order, k)
    case Call(_, rule, _) => rule in order[..k]
  }

  /** In order of initialization a rule comes after all rules it calls. */
  predicate Ordered(rules: Rules, order: seq<string>) {
    forall i :: 0 <= i < |order| ==> order[i] in rules && CallsBefore(rules[order[i]], order, i)
  }

  lemma {:induction false} CallsEarlier(e: Expr, order: seq<string>, k: nat, t: string)
    requires k <= |order| && CallsBefore(e, order, k) && Calls(e, t)
    ensures t in order[..k]
  {
    if e.Or? || e.And? {
      if Calls(e.left, t) {
        CallsEarlier(e.left, order, k, t);
      } else {
        CallsEarlier(e.right, order, k, t);
      }
    }
  }

  lemma {:induction false} BeforeGrows(e: Expr, order: seq<string>, k: nat, more: seq<string>, n: nat)
    requires k <= |order| && CallsBefore(e, order, k) && order <= more && k <= n <= |more|
    ensures CallsBefore(e, more, n)
  {
    if e.Or? || e.And? {
      BeforeGrows(e.left, order, k, more, n);
      BeforeGrows(e.right, order, k, more, n);
    } else if e.Call? {
      var i :| 0 <= i < k && order[i] == e.rule;
      assert more[..n][i] == e.rule;
    }
  }

  function First(order: seq<string>, r: string): (i: nat)
    requires r in order
    ensures i < |order| && order[i] == r && r !in order[..i]
  {
    if order[0] == r then 0
    else
      assert order == [order[0]] + order[1..];
      1 + First(order[1..], r)
  }

  /** Along a path of initialized rules the place in the order goes down. */
  lemma {:induction false} Descends(rules: Rules, order: seq<string>, p: seq<string>, i: nat)
    requires Ordered(rules, order) && Path(rules, p) && p[0] in order && i < |p|
    ensures p[i] in order && p[i] in rules
    ensures forall j :: 0 <= j < i ==> p[j] in order && First(order, p[i]) < First(order, p[j])
  {
    if i > 0 {
      Descends(rules, order, p, i - 1);
      var k := First(order, p[i - 1]);
      CallsEarlier(rules[p[i - 1]], order, k, p[i]);
    }
    var k := First(order, p[i]);
    assert order[k] in rules;
  }

  /** From an initialized rule no cycle and no missing rule is reachable. */
  lemma InitializedIsSafe(rules: Rules, order: seq<string>, p: seq<string>)
    requires Ordered(rules, order) && p != [] && p[0] in order
    ensures !Bad(rules, p)
  {
    if Path(rules, p) {
      Descends(rules, order, p, |p| - 1);
    }
  }

  // ----- initialization

  function Size(e: Expr): nat {
    match e
    case Leaf(_, _, _) => 1
    case Or(l, r, _) => 1 + Size(l) + Size(r)
    case And(l, r, _) => 1 + Size(l) + Size(r)
    case Call(_, _, _) => 1
  }

  /** The visited calls belong to rules further down the stack, and the stack is a path. */
  ghost predicate Stacked(rules: Rules, visited: set<nat>, stack: seq<string>) {
    && Path(rules, stack)
    && forall n :: n in visited ==> exists i :: 0 <= i < |stack| - 1 && n in Nodes(rules[stack[i]])
  }

  /** Following a call puts its rule on the stack. */
  lemma StackedDeeper(rules: Rules, visited: set<nat>, stack: seq<string>, n: nat, rule: string)
    requires Stacked(rules, visited, stack) && stack[|stack| - 1] in rules
    requires n in Nodes(rules[stack[|stack| - 1]]) && Calls(rules[stack[|stack| - 1]], rule)
    ensures Stacked(rules, visited + {n}, stack + [rule])
  {
    var deeper := stack + [rule];
    forall m | m in visited + {n}
      ensures exists i :: 0 <= i < |deeper| - 1 && m in Nodes(rules[deeper[i]])
    {
      if m == n {
        assert deeper[|stack| - 1] == stack[|stack| - 1];
      } else {
        var i :| 0 <= i < |stack| - 1 && m in Nodes(rules[stack[i]]);
        assert deeper[i] == stack[i];
      }
    }
  }

  class Initializer {
    const rules: Rules
    /** The FilterCall nodes whose `visited` flag is set. */
    var visited: set<nat>
    /** The rules whose pipe has PIF_INITIALIZED. */
    var initialized: set<string>
    /** The FilterCall nodes whose `filter_expr` points to the expression of their rule. */
    var linked: set<nat>
    ghost var order: seq<string>

    constructor (rules: Rules)
      requires Disjoint(rules)
      ensures Valid() && visited == {} && initialized == {} && this.rules == rules
    {
      this.rules := rules;
      visited, initialized, linked, order := {}, {}, {}, [];
    }

    ghost predicate Valid()
      reads this
    {
      && Disjoint(rules) && Ordered(rules, order)
      && (forall r :: r in initialized <==> r in order)
      && (forall r :: r in order && r in rules ==> Nodes(rules[r]) <= linked)
    }

    ghost function AllNodes(): set<nat> {
      set r, n | r in rules && n in Nodes(rules[r]) :: n
    }

    ghost predicate OnStack(stack: seq<string>)
      reads this
    {
      Stacked(rules, visited, stack) && visited <= AllNodes()
    }

    /** log_pipe_init() of a rule's filter pipe; `stack` is how it was reached. */
    method InitPipe(r: string, ghost stack: seq<string>) returns (ok: bool, ghost bad: seq<string>)
      requires Valid() && r in rules && OnStack(stack) && stack[|stack| - 1] == r
      modifies this
      ensures Valid() && old(order) <= order && old(linked) <= linked
      ensures ok ==> visited == old(visited) && r in initialized
      ensures !ok ==> Bad(rules, bad) && stack <= bad
      decreases AllNodes() - visited, Size(rules[r]), 1
    {
      if r in initialized {
        return true, [];
      }
      assert PartOf(rules[r], rules[r]);
      ok, bad := InitExpr(rules[r], r, stack);
      if ok {
        Appended(rules, order, r);
        initialized := initialized + {r};
        order := order + [r];
      }
    }

    /** fop_init() and the init methods of the other expressions. */
    method InitExpr(e: Expr, ghost r: string, ghost stack: seq<string>) returns (ok: bool, ghost bad: seq<string>)
      requires Valid() && r in rules && PartOf(e, rules[r]) && OnStack(stack) && stack[|stack| - 1] == r
      modifies this
      ensures Valid() && old(order) <= order && old(linked) <= linked
      ensures ok ==> visited == old(visited) && CallsBefore(e, order, |order|) && Nodes(e) <= linked
      ensures !ok ==> Bad(rules, bad) && stack <= bad
      decreases AllNodes() - visited, Size(e), 0
    {
      match e {
        case Leaf(_, _, _) => ok, bad := true, [];
        case Call(n, rule, _) => ok, bad := InitCall(n, rule, e, r, stack);
        case Or(left, right, _) =>
          Parts(e, rules[r]);
          ok, bad := InitBoth(left, right, r, stack);
        case And(left, right, _) =>
          Parts(e, rules[r]);
          ok, bad := InitBoth(left, right, r, stack);
      }
    }

    method InitBoth(left: Expr, right: Expr, ghost r: string, ghost stack: seq<string>)
        returns (ok: bool, ghost bad: seq<string>)
      requires Valid() && r in rules && PartOf(left, rules[r]) && PartOf(right, rules[r]) && OnStack(stack)
               && stack[|stack| - 1] == r
      modifies this
      ensures Valid() && old(order) <= order && old(linked) <= linked
      ensures ok ==> visited == old(visited) && CallsBefore(left, order, |order|) && CallsBefore(right, order, |order|)
      ensures ok ==> Nodes(left) + Nodes(right) <= linked
      ensures !ok ==> Bad(rules, bad) && stack <= bad
      decreases AllNodes() - visited, Size(left) + Size(right), 1
    {
      ok, bad := InitExpr(left, r, stack);
      if ok {
        ghost var before := order;
        ok, bad := InitExpr(right, r, stack);
        BeforeGrows(left, before, |before|, order, |order|);
      }
    }

    /** filter_call_init() */
    method InitCall(n: nat, rule: string, ghost e: Expr, ghost r: string, ghost stack: seq<string>)
      returns (ok: bool, ghost bad: seq<string>)
      requires Valid() && r in rules && e.Call? && e.node == n && e.rule == rule && PartOf(e, rules[r])
      requires OnStack(stack) && stack[|stack| - 1] == r
      modifies this
      ensures Valid() && old(order) <= order && old(linked) <= linked
      ensures ok ==> visited == old(visited) && rule in order && n in linked
      ensures !ok ==> Bad(rules, bad) && stack <= bad
      decreases AllNodes() - visited, 0
    {
      PartCalls(e, rules[r], rule);
      if n in visited {
        ghost var i :| 0 <= i < |stack| - 1 && n in Nodes(rules[stack[i]]);
        assert stack[i] == r;
        return false, stack;
      }
      ghost var before := visited;
      visited := visited + {n};
      ghost var deeper := stack + [rule];
      if rule !in rules {
        return false, deeper;
      }
      StackedDeeper(rules, before, stack, n, rule);
      ok, bad := InitPipe(rule, deeper);
      if ok {
        linked := linked + {n};
        visited := visited - {n};
        assert visited == before;
      } else {
        assert stack <= bad;
      }
    }
  }

  lemma Appended(rules: Rules, order: seq<string>, r: string)
    requires Ordered(rules, order) && r in rules && CallsBefore(rules[r], order, |order|)
    ensures Ordered(rules, order + [r])
  {
    var more := order + [r];
    forall i | 0 <= i < |more|
      ensures more[i] in rules && CallsBefore(rules[more[i]], more, i)
    {
      if i < |order| {
        BeforeGrows(rules[order[i]], order, i, more, i);
      } else {
        BeforeGrows(rules[r], order, |order|, more, i);
      }
    }
  }

  /** From a fresh configuration: initializing rule `r` succeeds exactly when every path of
      filter() references from `r` stays among existing rules and never repeats one. */
  method InitRule(rules: Rules, r: string)
      returns (ok: bool, ghost bad: seq<string>, ghost order: seq<string>, linked: set<nat>)
    requires Disjoint(rules) && r in rules
    ensures ok ==> forall p :: p != [] && p[0] == r ==> !Bad(rules, p)
    ensures !ok ==> Bad(rules, bad) && bad[0] == r
    ensures ok ==> Ordered(rules, order) && r in order
    ensures ok ==> forall x :: x in order && x in rules ==> Nodes(rules[x]) <= linked
  {
    var init := new Initializer(rules);
    ok, bad := init.InitPipe(r, [r]);
    order, linked := init.order, init.linked;
    if ok {
      forall p | p != [] && p[0] == r
        ensures !Bad(rules, p)
      {
        InitializedIsSafe(rules, order, p);
      }
    }
  }

  // ----- evaluation

  /** Filter evaluation, following the links; `atoms` decides the expressions that are no
      operators and no calls.  It ends because a rule only calls rules before it. */
  function Eval(rules: Rules, order: seq<string>, e: Expr, k: nat, linked: set<nat>, atoms: nat -> bool): bool
    requires Ordered(rules, order) && k <= |order| && CallsBefore(e, order, k)
    decreases k, e
  {
    match e
    case Leaf(id, _, comp) => atoms(id) != comp
    case Or(l, r, comp) => (Eval(rules, order, l, k, linked, atoms) || Eval(rules, order, r, k, linked, atoms)) != comp
    case And(l, r, comp) => (Eval(rules, order, l, k, linked, atoms) && Eval(rules, order, r, k, linked, atoms)) != comp
    case Call(n, rule, comp) =>
      if n in linked then
        var j := First(order, rule);
        assert j < k;
        Eval(rules, order, rules[order[j]], j, linked, atoms) != comp
      else comp
  }

  /** The result does not depend on the order in which rules were initialized. */
  lemma {:induction false} EvalAgrees(rules: Rules, o1: seq<string>, k1: nat, o2: seq<string>, k2: nat,
                                      e: Expr, linked: set<nat>, atoms: nat -> bool)
    requires Ordered(rules, o1) && k1 <= |o1| && CallsBefore(e, o1, k1)
    requires Ordered(rules, o2) && k2 <= |o2| && CallsBefore(e, o2, k2)
    ensures Eval(rules, o1, e, k1, linked, atoms) == Eval(rules, o2, e, k2, linked, atoms)
    decreases k1, e
  {
    match e
    case Leaf(_, _, _) =>
    case Or(l, r, _) =>
      EvalAgrees(rules, o1, k1, o2, k2, l, linked, atoms);
      EvalAgrees(rules, o1, k1, o2, k2, r, linked, atoms);
    case And(l, r, _) =>
      EvalAgrees(rules, o1, k1, o2, k2, l, linked, atoms);
      EvalAgrees(rules, o1, k1, o2, k2, r, linked, atoms);
    case Call(n, rule, _) =>
      if n in linked {
        EvalAgrees(rules, o1, First(o1, rule), o2, First(o2, rule), rules[rule], linked, atoms);
      }
  }

  /** Wherever an initialized filter() call stands, it means what its rule means. */
  lemma CallMeansRule(rules: Rules, order: seq<string>, k: nat, e: Expr, linked: set<nat>, atoms: nat -> bool)
    requires Ordered(rules, order) && k <= |order| && CallsBefore(e, order, k) && e.Call? && e.node in linked
    ensures e.rule in rules && CallsBefore(rules[e.rule], order, k)
    ensures Eval(rules, order, e, k, linked, atoms) == (Eval(rules, order, rules[e.rule], k, linked, atoms) != e.comp)
  {
    var j := First(order, e.rule);
    assert order[j] == e.rule && j < k;
    BeforeGrows(rules[e.rule], order, j, order, k);
    EvalAgrees(rules, order, j, order, k, rules[e.rule], linked, atoms);
  }

  // ----- what a filter means

  /** A leaf that matches, or does not. */
  datatype Literal = Literal(id: nat, matches: bool)

  type Clause = set<Literal>

  predicate Holds(clause: Clause, atoms: nat -> bool) {
    forall x :: x in clause ==> atoms(x.id) == x.matches
  }

  function Pairs(a: set<Clause>, b: set<Clause>): set<Clause> { set x, y | x in a && y in b :: x + y }

  /** All ways in which `e` can come out as `want`: of a disjunction that is to hold, the ways
      of either side, of one that is not to hold, a way of each side; of a conjunction the other
      way round. */
  function Ways(rules: Rules, order: seq<string>, e: Expr, k: nat, linked: set<nat>, want: bool): set<Clause>
    requires Ordered(rules, order) && k <= |order| && CallsBefore(e, order, k)
    decreases k, e
  {
    match e
    case Leaf(id, _, comp) => {{Literal(id, want != comp)}}
    case Or(l, r, comp) =>
      var w := want != comp;
      var a, b := Ways(rules, order, l, k, linked, w), Ways(rules, order, r, k, linked, w);
      if w then a + b else Pairs(a, b)
    case And(l, r, comp) =>
      var w := want != comp;
      var a, b := Ways(rules, order, l, k, linked, w), Ways(rules, order, r, k, linked, w);
      if w then Pairs(a, b) else a + b
    case Call(n, rule, comp) =>
      if n in linked then
        var j := First(order, rule);
        assert j < k;
        Ways(rules, order, rules[order[j]], j, linked, want != comp)
      else if want == comp then {{}} else {}
  }

  ghost predicate SomeHolds(clauses: set<Clause>, atoms: nat -> bool) {
    exists x :: x in clauses && Holds(x, atoms)
  }

  lemma EitherHolds(a: set<Clause>, b: set<Clause>, atoms: nat -> bool)
    ensures SomeHolds(a + b, atoms) <==> SomeHolds(a, atoms) || SomeHolds(b, atoms)
  {
    if SomeHolds(a, atoms) {
      var x :| x in a && Holds(x, atoms);
      assert x in a + b;
    } else if SomeHolds(b, atoms) {
      var x :| x in b && Holds(x, atoms);
      assert x in a + b;
    }
  }

  lemma BothHold(a: set<Clause>, b: set<Clause>, atoms: nat -> bool)
    ensures SomeHolds(Pairs(a, b), atoms) <==> SomeHolds(a, atoms) && SomeHolds(b, atoms)
  {
    if SomeHolds(Pairs(a, b), atoms) {
      var z :| z in Pairs(a, b) && Holds(z, atoms);
      var x, y :| x in a && y in b && z == x + y;
      assert Holds(x, atoms) && Holds(y, atoms);
    }
    if SomeHolds(a, atoms) && SomeHolds(b, atoms) {
      var x :| x in a && Holds(x, atoms);
      var y :| y in b && Holds(y, atoms);
      assert x + y in Pairs(a, b) && Holds(x + y, atoms);
    }
  }

  /** A filter comes out as `want` exactly when one of those ways is the case. */
  lemma {:induction false} EvalMeans(rules: Rules, order: seq<string>, e: Expr, k: nat, linked: set<nat>,
                                     atoms: nat -> bool, want: bool)
    requires Ordered(rules, order) && k <= |order| && CallsBefore(e, order, k)
    ensures Eval(rules, order, e, k, linked, atoms) == want <==>
            SomeHolds(Ways(rules, order, e, k, linked, want), atoms)
    decreases k, e
  {
    hide SomeHolds;
    match e
    case Leaf(id, _, comp) => OneHolds({Literal(id, want != comp)}, atoms);
    case Call(n, rule, comp) =>
      if n in linked {
        EvalMeans(rules, order, rules[order[First(order, rule)]], First(order, rule), linked, atoms, want != comp);
      } else {
        OneHolds({}, atoms);
      }
    case _ =>
      var w := want != e.comp;
      EvalMeans(rules, order, e.left, k, linked, atoms, w);
      EvalMeans(rules, order, e.right, k, linked, atoms, w);
      EitherHolds(Ways(rules, order, e.left, k, linked, w), Ways(rules, order, e.right, k, linked, w), atoms);
      BothHold(Ways(rules, order, e.left, k, linked, w), Ways(rules, order, e.right, k, linked, w), atoms);
  }

  lemma OneHolds(clause: Clause, atoms: nat -> bool)
    ensures SomeHolds({clause}, atoms) <==> Holds(clause, atoms)
    ensures !SomeHolds({}, atoms)
  {
    assert clause in {clause};
  }

  // ----- filters that store into the message

  /** The `modify` flag of an expression as its constructors set it; a call never has it. */
  predicate Modify(e: Expr) {
    match e
    case Leaf(_, stores, _) => stores
    case Or(l, r, _) => Modify(l) || Modify(r)
    case And(l, r, _) => Modify(l) || Modify(r)
    case Call(_, _, _) => false
  }

  /** Evaluation runs into an expression that stores and matches; operators stop as soon as
      they know the result. */
  predicate Touches(rules: Rules, order: seq<string>, e: Expr, k: nat, linked: set<nat>, atoms: nat -> bool)
    requires Ordered(rules, order) && k <= |order| && CallsBefore(e, order, k)
    decreases k, e
  {
    match e
    case Leaf(id, stores, _) => stores && atoms(id)
    case Or(l, r, _) =>
      || Touches(rules, order, l, k, linked, atoms)
      || (!Eval(rules, order, l, k, linked, atoms) && Touches(rules, order, r, k, linked, atoms))
    case And(l, r, _) =>
      || Touches(rules, order, l, k, linked, atoms)
      || (Eval(rules, order, l, k, linked, atoms) && Touches(rules, order, r, k, linked, atoms))
    case Call(n, rule, _) =>
      n in linked &&
      var j := First(order, rule);
      assert j < k;
      Touches(rules, order, rules[order[j]], j, linked, atoms)
  }

  // ----- what evaluation looks at

  /** The leaves that evaluation visits, in order. */
  function Visits(rules: Rules, order: seq<string>, e: Expr, k: nat, linked: set<nat>, atoms: nat -> bool): seq<Expr>
    requires Ordered(rules, order) && k <= |order| && CallsBefore(e, order, k)
    decreases k, e
  {
    match e
    case Leaf(_, _, _) => [e]
    case Or(l, r, _) =>
      Visits(rules, order, l, k, linked, atoms) +
      if Eval(rules, order, l, k, linked, atoms) then [] else Visits(rules, order, r, k, linked, atoms)
    case And(l, r, _) =>
      Visits(rules, order, l, k, linked, atoms) +
      if Eval(rules, order, l, k, linked, atoms) then Visits(rules, order, r, k, linked, atoms) else []
    case Call(n, rule, _) =>
      if n in linked then
        var j := First(order, rule);
        assert j < k;
        Visits(rules, order, rules[order[j]], j, linked, atoms)
      else []
  }

  /** The two agree on the leaves `vs`. */
  predicate Agree(a: nat -> bool, b: nat -> bool, vs: seq<Expr>) {
    forall i :: 0 <= i < |vs| && vs[i].Leaf? ==> a(vs[i].id) == b(vs[i].id)
  }

  predicate StoringMatch(v: Expr, atoms: nat -> bool) { v.Leaf? && v.stores && atoms(v.id) }

  ghost predicate SomeStoring(vs: seq<Expr>, atoms: nat -> bool) {
    exists i :: 0 <= i < |vs| && StoringMatch(vs[i], atoms)
  }

  /** An operator looks at its right side exactly when its left side leaves the result open. */
  lemma OpVisits(rules: Rules, order: seq<string>, e: Expr, k: nat, linked: set<nat>, atoms: nat -> bool)
    requires Ordered(rules, order) && k <= |order| && CallsBefore(e, order, k) && (e.Or? || e.And?)
    ensures var l := Visits(rules, order, e.left, k, linked, atoms);
            Visits(rules, order, e, k, linked, atoms) ==
            if Eval(rules, order, e.left, k, linked, atoms) == e.And?
            then l + Visits(rules, order, e.right, k, linked, atoms) else l
  {
    var l := Visits(rules, order, e.left, k, linked, atoms);
    assert l + [] == l;
  }

  /** Evaluation stores exactly when it visits a leaf that stores and matches. */
  lemma {:induction false} TouchesVisited(rules: Rules, order: seq<string>, e: Expr, k: nat, linked: set<nat>,
                                          atoms: nat -> bool)
    requires Ordered(rules, order) && k <= |order| && CallsBefore(e, order, k)
    ensures Touches(rules, order, e, k, linked, atoms) <==>
            SomeStoring(Visits(rules, order, e, k, linked, atoms), atoms)
    decreases k, e
  {
    hide SomeStoring;
    match e
    case Leaf(_, _, _) =>
      assert Visits(rules, order, e, k, linked, atoms) == [] + [e];
      SomeIn([], [e], atoms);
    case Call(n, rule, _) =>
      if n in linked {
        TouchesVisited(rules, order, rules[order[First(order, rule)]], First(order, rule), linked, atoms);
      } else {
        SomeIn([], [e], atoms);
      }
    case _ =>
      TouchesVisited(rules, order, e.left, k, linked, atoms);
      TouchesVisited(rules, order, e.right, k, linked, atoms);
      OpVisits(rules, order, e, k, linked, atoms);
      SomeIn(Visits(rules, order, e.left, k, linked, atoms), Visits(rules, order, e.right, k, linked, atoms), atoms);
  }

  lemma SomeIn(a: seq<Expr>, b: seq<Expr>, atoms: nat -> bool)
    ensures SomeStoring(a + b, atoms) <==> SomeStoring(a, atoms) || SomeStoring(b, atoms)
    ensures !SomeStoring([], atoms)
    ensures |b| == 1 ==> SomeStoring(b, atoms) == StoringMatch(b[0], atoms)
  {
    if i :| 0 <= i < |a| && StoringMatch(a[i], atoms) {
      assert StoringMatch((a + b)[i], atoms);
    } else if i :| 0 <= i < |b| && StoringMatch(b[i], atoms) {
      assert StoringMatch((a + b)[|a| + i], atoms);
    }
  }

  lemma AgreeParts(a: nat -> bool, b: nat -> bool, l: seq<Expr>, r: seq<Expr>)
    requires Agree(a, b, l + r)
    ensures Agree(a, b, l) && Agree(a, b, r)
  {
    assert forall i :: 0 <= i < |l| ==> l[i] == (l + r)[i];
    assert forall i :: 0 <= i < |r| ==> r[i] == (l + r)[|l| + i];
  }

  /** What is not visited makes no difference. */
  lemma {:induction false} VisitsDecide(rules: Rules, order: seq<string>, e: Expr, k: nat, linked: set<nat>,
                                        a: nat -> bool, b: nat -> bool)
    requires Ordered(rules, order) && k <= |order| && CallsBefore(e, order, k)
    requires Agree(a, b, Visits(rules, order, e, k, linked, a))
    ensures Eval(rules, order, e, k, linked, a) == Eval(rules, order, e, k, linked, b)
    ensures Visits(rules, order, e, k, linked, a) == Visits(rules, order, e, k, linked, b)
    decreases k, e
  {
    match e
    case Leaf(_, _, _) => assert Visits(rules, order, e, k, linked, a)[0] == e;
    case Call(n, rule, _) =>
      if n in linked {
        VisitsDecide(rules, order, rules[order[First(order, rule)]], First(order, rule), linked, a, b);
      }
    case _ =>
      hide Visits, Agree;
      OpVisits(rules, order, e, k, linked, a);
      OpVisits(rules, order, e, k, linked, b);
      var l, r := Visits(rules, order, e.left, k, linked, a), Visits(rules, order, e.right, k, linked, a);
      if Eval(rules, order, e.left, k, linked, a) == e.And? {
        AgreeParts(a, b, l, r);
        VisitsDecide(rules, order, e.right, k, linked, a, b);
      }
      VisitsDecide(rules, order, e.left, k, linked, a, b);
  }

  /** The leaves in the order in which they are written, those of a rule where it is called. */
  function Leaves(rules: Rules, order: seq<string>, e: Expr, k: nat): seq<Expr>
    requires Ordered(rules, order) && k <= |order| && CallsBefore(e, order, k)
    decreases k, e
  {
    match e
    case Leaf(_, _, _) => [e]
    case Or(l, r, _) => Leaves(rules, order, l, k) + Leaves(rules, order, r, k)
    case And(l, r, _) => Leaves(rules, order, l, k) + Leaves(rules, order, r, k)
    case Call(_, rule, _) =>
      var j := First(order, rule);
      assert j < k;
      Leaves(rules, order, rules[order[j]], j)
  }

  /** `a` is what is left of `b` at the places `at`. */
  predicate Picked(a: seq<Expr>, b: seq<Expr>, at: seq<nat>) {
    && |at| == |a| && (forall i :: 0 <= i < |a| ==> at[i] < |b| && a[i] == b[at[i]])
    && forall i, j :: 0 <= i < j < |at| ==> at[i] < at[j]
  }

  /** Leaves are visited in the order in which they are written. */
  lemma {:induction false} VisitsInOrder(rules: Rules, order: seq<string>, e: Expr, k: nat, linked: set<nat>,
                                         atoms: nat -> bool) returns (at: seq<nat>)
    requires Ordered(rules, order) && k <= |order| && CallsBefore(e, order, k)
    ensures Picked(Visits(rules, order, e, k, linked, atoms), Leaves(rules, order, e, k), at)
    decreases k, e
  {
    match e
    case Leaf(_, _, _) =>
      at := [0];
      assert Picked([e], [e], [0]);
    case Call(n, rule, _) =>
      if n in linked {
        at := VisitsInOrder(rules, order, rules[order[First(order, rule)]], First(order, rule), linked, atoms);
      } else {
        at := [];
      }
    case _ =>
      var l := VisitsInOrder(rules, order, e.left, k, linked, atoms);
      var r := VisitsInOrder(rules, order, e.right, k, linked, atoms);
      OpVisits(rules, order, e, k, linked, atoms);
      hide Visits, Eval, Picked;
      var vl, vr := Visits(rules, order, e.left, k, linked, atoms), Visits(rules, order, e.right, k, linked, atoms);
      var bl, br := Leaves(rules, order, e.left, k), Leaves(rules, order, e.right, k);
      PickedTwo(vl, bl, l, vr, br, r);
      at := if Eval(rules, order, e.left, k, linked, atoms) == e.And? then l + Shifted(r, |bl|) else l;
  }

  function Shifted(at: seq<nat>, n: nat): seq<nat> { seq(|at|, i requires 0 <= i < |at| => n + at[i]) }

  lemma PickedTwo(a: seq<Expr>, b: seq<Expr>, at: seq<nat>, c: seq<Expr>, d: seq<Expr>, ct: seq<nat>)
    requires Picked(a, b, at) && Picked(c, d, ct)
    ensures Picked(a, b + d, at) && Picked(a + c, b + d, at + Shifted(ct, |b|))
  {
  }

  /** The leaves of `e` and of the rules it calls. */
  function Ids(rules: Rules, order: seq<string>, e: Expr, k: nat): set<nat>
    requires Ordered(rules, order) && k <= |order| && CallsBefore(e, order, k)
    decreases k, e
  {
    match e
    case Leaf(id, _, _) => {id}
    case Or(l, r, _) => Ids(rules, order, l, k) + Ids(rules, order, r, k)
    case And(l, r, _) => Ids(rules, order, l, k) + Ids(rules, order, r, k)
    case Call(_, rule, _) =>
      var j := First(order, rule);
      assert j < k;
      Ids(rules, order, rules[order[j]], j)
  }

  /** All calls are linked, and no leaf is used twice. */
  predicate ReadOnce(rules: Rules, order: seq<string>, e: Expr, k: nat, linked: set<nat>)
    requires Ordered(rules, order) && k <= |order| && CallsBefore(e, order, k)
    decreases k, e
  {
    match e
    case Leaf(_, _, _) => true
    case Or(l, r, _) =>
      && Ids(rules, order, l, k) !! Ids(rules, order, r, k)
      && ReadOnce(rules, order, l, k, linked) && ReadOnce(rules, order, r, k, linked)
    case And(l, r, _) =>
      && Ids(rules, order, l, k) !! Ids(rules, order, r, k)
      && ReadOnce(rules, order, l, k, linked) && ReadOnce(rules, order, r, k, linked)
    case Call(n, rule, _) =>
      && n in linked
      && var j := First(order, rule);
         assert j < k;
         ReadOnce(rules, order, rules[order[j]], j, linked)
  }

  lemma {:induction false} VisitsIds(rules: Rules, order: seq<string>, e: Expr, k: nat, linked: set<nat>,
                                     atoms: nat -> bool)
    requires Ordered(rules, order) && k <= |order| && CallsBefore(e, order, k)
    ensures forall v :: v in Visits(rules, order, e, k, linked, atoms) ==> v.Leaf? && v.id in Ids(rules, order, e, k)
    decreases k, e
  {
    match e
    case Leaf(_, _, _) =>
    case Call(n, rule, _) =>
      if n in linked {
        VisitsIds(rules, order, rules[order[First(order, rule)]], First(order, rule), linked, atoms);
      }
    case _ =>
      VisitsIds(rules, order, e.left, k, linked, atoms);
      VisitsIds(rules, order, e.right, k, linked, atoms);
  }

  /** `a` on the leaves `ids`, and `b` elsewhere. */
  function Mixed(ids: set<nat>, a: nat -> bool, b: nat -> bool): nat -> bool {
    (x: nat) => if x in ids then a(x) else b(x)
  }

  lemma SameOnIds(rules: Rules, order: seq<string>, e: Expr, k: nat, linked: set<nat>, a: nat -> bool, b: nat -> bool)
    requires Ordered(rules, order) && k <= |order| && CallsBefore(e, order, k)
    requires forall x :: x in Ids(rules, order, e, k) ==> a(x) == b(x)
    ensures Eval(rules, order, e, k, linked, a) == Eval(rules, order, e, k, linked, b)
    ensures Visits(rules, order, e, k, linked, a) == Visits(rules, order, e, k, linked, b)
  {
    VisitsIds(rules, order, e, k, linked, a);
    VisitsDecide(rules, order, e, k, linked, a, b);
  }

  /** Without a leaf used twice a filter can come out either way. */
  lemma {:induction false} Free(rules: Rules, order: seq<string>, e: Expr, k: nat, linked: set<nat>, want: bool)
      returns (atoms: nat -> bool)
    requires Ordered(rules, order) && k <= |order| && CallsBefore(e, order, k) && ReadOnce(rules, order, e, k, linked)
    ensures Eval(rules, order, e, k, linked, atoms) == want
    decreases k, e
  {
    match e
    case Leaf(_, _, comp) => atoms := (x: nat) => want != comp;
    case Call(_, rule, comp) =>
      atoms := Free(rules, order, rules[order[First(order, rule)]], First(order, rule), linked, want != comp);
    case _ =>
      var a := Free(rules, order, e.left, k, linked, want != e.comp);
      var b := Free(rules, order, e.right, k, linked, want != e.comp);
      var ids := Ids(rules, order, e.left, k);
      atoms := Mixed(ids, a, b);
      SameOnIds(rules, order, e.left, k, linked, a, atoms);
      SameOnIds(rules, order, e.right, k, linked, b, atoms);
  }

  /** Evaluation stops as soon as it can: where no leaf is used twice, the leaves visited
      before any leaf it visits leave the result open. */
  lemma {:induction false} NoVisitInVain(rules: Rules, order: seq<string>, e: Expr, k: nat, linked: set<nat>,
                                         a: nat -> bool, i: nat) returns (b: nat -> bool)
    requires Ordered(rules, order) && k <= |order| && CallsBefore(e, order, k) && ReadOnce(rules, order, e, k, linked)
    requires i < |Visits(rules, order, e, k, linked, a)|
    ensures Agree(a, b, Visits(rules, order, e, k, linked, a)[..i])
    ensures Eval(rules, order, e, k, linked, a) != Eval(rules, order, e, k, linked, b)
    decreases k, e
  {
    match e
    case Leaf(_, _, _) => b := (x: nat) => !a(x);
    case Call(_, rule, _) =>
      b := NoVisitInVain(rules, order, rules[order[First(order, rule)]], First(order, rule), linked, a, i);
    case _ =>
      var l := Visits(rules, order, e.left, k, linked, a);
      if i < |l| {
        b := LeftInVain(rules, order, e, k, linked, a, i);
      } else {
        var c := NoVisitInVain(rules, order, e.right, k, linked, a, i - |l|);
        b := RightInVain(rules, order, e, k, linked, a, i, c);
      }
  }

  /** While the left side is being looked at, the right side can still be anything. */
  lemma {:induction false} LeftInVain(rules: Rules, order: seq<string>, e: Expr, k: nat, linked: set<nat>,
                                      a: nat -> bool, i: nat) returns (b: nat -> bool)
    requires Ordered(rules, order) && k <= |order| && CallsBefore(e, order, k) && ReadOnce(rules, order, e, k, linked)
    requires (e.Or? || e.And?) && i < |Visits(rules, order, e.left, k, linked, a)|
    ensures Agree(a, b, Visits(rules, order, e, k, linked, a)[..i])
    ensures Eval(rules, order, e, k, linked, a) != Eval(rules, order, e, k, linked, b)
    decreases k, e, 0
  {
    var ids := Ids(rules, order, e.left, k);
    var l := Visits(rules, order, e.left, k, linked, a);
    var all := Visits(rules, order, e, k, linked, a);
    assert all[..i] == l[..i];
    var was := Eval(rules, order, e, k, linked, a) != e.comp;
    // the result is to become the other one
    var right := Free(rules, order, e.right, k, linked, !was);
    var left := a;
    if Eval(rules, order, e.left, k, linked, a) == was {
      left := NoVisitInVain(rules, order, e.left, k, linked, a, i);
    }
    b := Mixed(ids, left, right);
    SameOnIds(rules, order, e.left, k, linked, left, b);
    SameOnIds(rules, order, e.right, k, linked, right, b);
    VisitsIds(rules, order, e.left, k, linked, a);
    assert forall j :: 0 <= j < i ==> l[j] in l;
  }

  /** Once the left side has left the result open, it is up to the right side. */
  lemma RightInVain(rules: Rules, order: seq<string>, e: Expr, k: nat, linked: set<nat>, a: nat -> bool, i: nat,
                    c: nat -> bool) returns (b: nat -> bool)
    requires Ordered(rules, order) && k <= |order| && CallsBefore(e, order, k) && ReadOnce(rules, order, e, k, linked)
    requires (e.Or? || e.And?) && Eval(rules, order, e.left, k, linked, a) == e.And?
    requires |Visits(rules, order, e.left, k, linked, a)| <= i < |Visits(rules, order, e, k, linked, a)|
    requires var n := i - |Visits(rules, order, e.left, k, linked, a)|;
             Agree(a, c, Visits(rules, order, e.right, k, linked, a)[..n])
    requires Eval(rules, order, e.right, k, linked, a) != Eval(rules, order, e.right, k, linked, c)
    ensures Agree(a, b, Visits(rules, order, e, k, linked, a)[..i])
    ensures Eval(rules, order, e, k, linked, a) != Eval(rules, order, e, k, linked, b)
  {
    var ids := Ids(rules, order, e.left, k);
    var l, r := Visits(rules, order, e.left, k, linked, a), Visits(rules, order, e.right, k, linked, a);
    b := Mixed(ids, a, c);
    SameOnIds(rules, order, e.left, k, linked, a, b);
    SameOnIds(rules, order, e.right, k, linked, c, b);
    VisitsIds(rules, order, e.left, k, linked, a);
    VisitsIds(rules, order, e.right, k, linked, a);
    var all: seq<Expr> := l + r;
    forall j | 0 <= j < i && all[j].Leaf?
      ensures a(all[j].id) == b(all[j].id)
    {
      if j < |l| {
        assert l[j] in l;
      } else {
        assert r[j - |l|] in r && r[..i - |l|][j - |l|] == r[j - |l|];
      }
    }
  }

  /** Some expression that stores stands in `e` or in a rule called from it. */
  predicate Stores(rules: Rules, order: seq<string>, e: Expr, k: nat)
    requires Ordered(rules, order) && k <= |order| && CallsBefore(e, order, k)
    decreases k, e
  {
    match e
    case Leaf(_, stores, _) => stores
    case Or(l, r, _) => Stores(rules, order, l, k) || Stores(rules, order, r, k)
    case And(l, r, _) => Stores(rules, order, l, k) || Stores(rules, order, r, k)
    case Call(_, rule, _) =>
      var j := First(order, rule);
      assert j < k;
      Stores(rules, order, rules[order[j]], j)
  }

  /** Only such filters ever store. */
  lemma {:induction false} OnlyStores(rules: Rules, order: seq<string>, e: Expr, k: nat, linked: set<nat>,
                                      atoms: nat -> bool)
    requires Ordered(rules, order) && k <= |order| && CallsBefore(e, order, k)
    ensures Touches(rules, order, e, k, linked, atoms) ==> Stores(rules, order, e, k)
    decreases k, e
  {
    match e
    case Leaf(_, _, _) =>
    case Or(l, r, _) =>
      OnlyStores(rules, order, l, k, linked, atoms);
      OnlyStores(rules, order, r, k, linked, atoms);
    case And(l, r, _) =>
      OnlyStores(rules, order, l, k, linked, atoms);
      OnlyStores(rules, order, r, k, linked, atoms);
    case Call(n, rule, _) =>
      var j := First(order, rule);
      assert j < k;
      OnlyStores(rules, order, rules[order[j]], j, linked, atoms);
  }

  /** Along filter() references `r` reaches another rule with an expression that stores. */
  ghost predicate Reaches(rules: Rules, r: string) {
    exists p :: |p| >= 2 && p[0] == r && StoringPath(rules, p)
  }

  predicate StoringPath(rules: Rules, p: seq<string>) {
    Path(rules, p) && p[|p| - 1] in rules && Modify(rules[p[|p| - 1]])
  }

  lemma {:induction false} StoresReaches(rules: Rules, order: seq<string>, r: string, e: Expr, k: nat)
    requires Ordered(rules, order) && k <= |order| && CallsBefore(e, order, k) && r in rules && PartOf(e, rules[r])
    requires Stores(rules, order, e, k)
    ensures Modify(e) || Reaches(rules, r)
    decreases k, e
  {
    if e.Or? || e.And? {
      Parts(e, rules[r]);
      if Stores(rules, order, e.left, k) {
        StoresReaches(rules, order, r, e.left, k);
      } else {
        StoresReaches(rules, order, r, e.right, k);
      }
    } else if e.Call? {
      var j := First(order, e.rule);
      assert j < k;
      PartCalls(e, rules[r], e.rule);
      assert PartOf(rules[e.rule], rules[e.rule]);
      StoresReaches(rules, order, e.rule, rules[e.rule], j);
      if Modify(rules[e.rule]) {
        assert StoringPath(rules, [r, e.rule]);
      } else {
        var p :| |p| >= 2 && p[0] == e.rule && StoringPath(rules, p);
        Longer(rules, r, p);
      }
    }
  }

  lemma Longer(rules: Rules, r: string, p: seq<string>)
    requires p != [] && StoringPath(rules, p) && r in rules && Calls(rules[r], p[0])
    ensures Reaches(rules, r)
  {
    var q := [r] + p;
    assert forall i :: 0 <= i < |p| ==> q[i + 1] == p[i];
    assert q[|q| - 1] == p[|p| - 1];
    assert StoringPath(rules, q);
  }

  lemma {:induction false} ModifyStores(rules: Rules, order: seq<string>, e: Expr, k: nat)
    requires Ordered(rules, order) && k <= |order| && CallsBefore(e, order, k) && Modify(e)
    ensures Stores(rules, order, e, k)
  {
    if e.Or? || e.And? {
      if Modify(e.left) {
        ModifyStores(rules, order, e.left, k);
      } else {
        ModifyStores(rules, order, e.right, k);
      }
    }
  }

  lemma {:induction false} CallStores(rules: Rules, order: seq<string>, e: Expr, k: nat, t: string)
    requires Ordered(rules, order) && k <= |order| && CallsBefore(e, order, k) && Calls(e, t) && t in order
    requires Stores(rules, order, rules[order[First(order, t)]], First(order, t))
    ensures Stores(rules, order, e, k)
    decreases e
  {
    if e.Or? || e.And? {
      if Calls(e.left, t) {
        CallStores(rules, order, e.left, k, t);
      } else {
        CallStores(rules, order, e.right, k, t);
      }
    }
  }

  lemma {:induction false} PathStores(rules: Rules, order: seq<string>, p: seq<string>)
    requires Ordered(rules, order) && StoringPath(rules, p) && p[0] in order
    ensures Stores(rules, order, rules[order[First(order, p[0])]], First(order, p[0]))
    decreases |p|
  {
    var k := First(order, p[0]);
    if |p| == 1 {
      ModifyStores(rules, order, rules[p[0]], k);
    } else {
      Descends(rules, order, p, 1);
      var rest := p[1..];
      assert StoringPath(rules, rest) by {
        assert forall i :: 0 <= i < |rest| ==> rest[i] == p[i + 1];
      }
      PathStores(rules, order, rest);
      CallStores(rules, order, rules[p[0]], k, p[1]);
    }
  }

  /** The pipe of an initialized filter rule. */
  function PipeOf(rules: Rules, order: seq<string>, r: string, id: nat): LogTree.Elem
    requires Ordered(rules, order) && r in order
  {
    var k := First(order, r);
    LogTree.Elem(id, Modify(rules[order[k]]), Stores(rules, order, rules[order[k]], k))
  }

  /** PIF_CLONE tells whether the filter can store if and only if the rule has an expression
      of its own that stores or reaches none through filter() references. */
  lemma FlagIff(rules: Rules, order: seq<string>, r: string, id: nat)
    requires Ordered(rules, order) && r in order
    ensures r in rules && var e := PipeOf(rules, order, r, id);
            && (e.writes <==> Modify(rules[r]) || Reaches(rules, r))
            && (e.changing == e.writes <==> Modify(rules[r]) || !Reaches(rules, r))
            && (e.changing ==> e.writes)
  {
    var k := First(order, r);
    assert order[k] in rules;
    assert PartOf(rules[r], rules[r]);
    if Stores(rules, order, rules[r], k) {
      StoresReaches(rules, order, r, rules[r], k);
    }
    if Modify(rules[r]) {
      ModifyStores(rules, order, rules[r], k);
    }
    if Reaches(rules, r) {
      var p :| |p| >= 2 && p[0] == r && StoringPath(rules, p);
      PathStores(rules, order, p);
    }
  }

  /** filter g { match(".." flags(store-matches)); }; filter f { filter(g); }; */
  function CallerRules(): Rules { map["g" := Leaf(0, true, false), "f" := Call(1, "g", false)] }

  /** Evaluating f stores whenever g matches, but the pipe of f lacks PIF_CLONE. */
  lemma CalledFilterStores(linked: set<nat>, atoms: nat -> bool)
    requires 1 in linked && atoms(0)
    ensures var order := ["g", "f"];
            && Ordered(CallerRules(), order)
            && CallsBefore(CallerRules()["f"], order, 1)
            && Touches(CallerRules(), order, CallerRules()["f"], 1, linked, atoms)
            && PipeOf(CallerRules(), order, "f", 1) == LogTree.Elem(1, false, true)
  {
    var rules, order := CallerRules(), ["g", "f"];
    assert order[..1][0] == "g";
    assert Ordered(rules, order);
    assert First(order, "g") == 0 && First(order, "f") == 1;
    assert Touches(rules, order, rules["g"], 0, linked, atoms);
    assert Stores(rules, order, rules["g"], 0);
  }
}
