/** Counters of a tree of cloned messages, for reference counts and for acks alike.

    A message's counter covers the claims on the message itself and one unit for every
    clone whose own counter is not zero.  When a counter drops to zero the message has
    come to its end (it is freed, or acked) and gives its unit back to its original. */
module Ledger {
  import opened Wrappers

  datatype Ledger = Ledger(count: seq<int>, ended: seq<nat>, parent: seq<Option<nat>>)

  predicate Shaped(l: Ledger) {
    && |l.ended| == |l.count| == |l.parent|
    && forall x :: 0 <= x < |l.parent| && l.parent[x].Some? ==> l.parent[x].value < x
  }

  /** `u` more units for `x`. */
  function Give(l: Ledger, x: nat, u: nat): Ledger
    requires x < |l.count|
  {
    l.(count := l.count[x := l.count[x] + u])
  }

  /** One unit of `x` less; the last one ends the message and is passed on. */
  function Take(l: Ledger, x: nat): (r: Ledger)
    requires Shaped(l) && x < |l.count|
    ensures Shaped(r) && |r.count| == |l.count| && r.parent == l.parent
    decreases x
  {
    var m := l.(count := l.count[x := l.count[x] - 1]);
    if m.count[x] != 0 then m
    else
      var e := m.(ended := m.ended[x := m.ended[x] + 1]);
      if e.parent[x] == None then e else Take(e, e.parent[x].value)
  }

  /** A clone of `x` with `u` units of its own. */
  function Spawn(l: Ledger, x: nat, u: nat): Ledger {
    Ledger(l.count + [u], l.ended + [0], l.parent + [Some(x)])
  }

  /** How many of the first `n` messages are clones of `x` that have not ended. */
  function Children(l: Ledger, x: nat, n: nat): nat
    requires Shaped(l) && n <= |l.count|
  {
    if n == 0 then 0
    else Children(l, x, n - 1) + if l.parent[n - 1] == Some(x) && l.count[n - 1] > 0 then 1 else 0
  }

  /** Every counter is made up of the claims on the message and its living clones. */
  ghost predicate Balanced(l: Ledger, claims: seq<nat>) {
    && Shaped(l) && |claims| == |l.count|
    && (forall x :: 0 <= x < |claims| ==> l.count[x] == claims[x] + Children(l, x, |l.count|))
    && (forall x :: 0 <= x < |claims| ==> l.ended[x] <= 1 && (l.count[x] > 0 ==> l.ended[x] == 0))
    && (claims != [] && l.count[0] == 0 ==> l.ended[0] == 1)
  }

  lemma {:induction false} SameChildren(l: Ledger, r: Ledger, x: nat, n: nat)
    requires Shaped(l) && Shaped(r) && n <= |l.count| && n <= |r.count|
    requires forall y :: 0 <= y < n ==> r.parent[y] == l.parent[y] && (r.count[y] > 0 <==> l.count[y] > 0)
    ensures Children(r, x, n) == Children(l, x, n)
  {
    if n > 0 {
      SameChildren(l, r, x, n - 1);
    }
  }

  /** Message `y` has ended in `r`, and nothing else became or ceased to be alive. */
  lemma {:induction false} OneChildLess(l: Ledger, r: Ledger, y: nat, x: nat, n: nat)
    requires Shaped(l) && Shaped(r) && r.parent == l.parent && |r.count| == |l.count| && n <= |l.count| && y < |l.count|
    requires l.count[y] > 0 && r.count[y] <= 0
    requires forall z :: 0 <= z < |l.count| && z != y ==> (r.count[z] > 0 <==> l.count[z] > 0)
    ensures Children(r, x, n) == Children(l, x, n) - if y < n && l.parent[y] == Some(x) then 1 else 0
  {
    if n > 0 {
      OneChildLess(l, r, y, x, n - 1);
    }
  }

  lemma GiveBalanced(l: Ledger, claims: seq<nat>, x: nat, u: nat)
    requires Balanced(l, claims) && x < |claims| && (u > 0 ==> claims[x] > 0)
    ensures Balanced(Give(l, x, u), claims[x := claims[x] + u])
  {
    var r := Give(l, x, u);
    forall y | 0 <= y < |claims|
      ensures Children(r, y, |r.count|) == Children(l, y, |l.count|)
    {
      SameChildren(l, r, y, |l.count|);
    }
  }

  /** The counter of `x` as it ends, before the unit is passed on. */
  function Ending(l: Ledger, x: nat): Ledger
    requires Shaped(l) && x < |l.count|
  {
    l.(count := l.count[x := l.count[x] - 1], ended := l.ended[x := l.ended[x] + 1])
  }

  lemma EndingBalanced(l: Ledger, claims: seq<nat>, x: nat)
    requires Balanced(l, claims) && x < |claims| && claims[x] > 0 && l.count[x] == 1
    ensures var fewer := claims[x := claims[x] - 1];
            Balanced(Ending(l, x),
                     if l.parent[x] == None then fewer else fewer[l.parent[x].value := fewer[l.parent[x].value] + 1])
  {
    var e := Ending(l, x);
    forall y | 0 <= y < |claims|
      ensures Children(e, y, |e.count|) == Children(l, y, |l.count|) - if l.parent[x] == Some(y) then 1 else 0
    {
      OneChildLess(l, e, x, y, |l.count|);
    }
  }

  lemma {:induction false} TakeBalanced(l: Ledger, claims: seq<nat>, x: nat)
    requires Balanced(l, claims) && x < |claims| && claims[x] > 0
    ensures Balanced(Take(l, x), claims[x := claims[x] - 1])
    decreases x
  {
    var fewer := claims[x := claims[x] - 1];
    if l.count[x] != 1 {
      var m := l.(count := l.count[x := l.count[x] - 1]);
      forall y | 0 <= y < |claims|
        ensures Children(m, y, |m.count|) == Children(l, y, |l.count|)
      {
        SameChildren(l, m, y, |l.count|);
      }
    } else {
      EndingBalanced(l, claims, x);
      if l.parent[x].Some? {
        var p := l.parent[x].value;
        var moved := fewer[p := fewer[p] + 1];
        TakeBalanced(Ending(l, x), moved, p);
        assert moved[p := moved[p] - 1] == fewer;
      }
    }
  }

  /** A claim on `x` is turned into the claim on a new clone of `x`. */
  lemma SpawnBalanced(l: Ledger, claims: seq<nat>, x: nat, u: nat)
    requires Balanced(l, claims) && x < |claims| && u <= 1 && u <= claims[x]
    ensures Balanced(Spawn(l, x, u), claims[x := claims[x] - u] + [u])
  {
    var r := Spawn(l, x, u);
    var n := |l.count|;
    forall y | 0 <= y < n
      ensures Children(r, y, n + 1) == Children(l, y, n) + if y == x then u else 0
    {
      SameChildren(l, r, y, n);
    }
    NoChildren(r, n, n + 1);
  }

  lemma {:induction false} NoChildren(l: Ledger, x: nat, n: nat)
    requires Shaped(l) && n <= x + 1 && n <= |l.count|
    ensures Children(l, x, n) == 0
  {
    if n > 0 {
      NoChildren(l, x, n - 1);
    }
  }

  // ----- the end of the original

  /** Everything hangs off message 0. */
  predicate Rooted(l: Ledger) {
    Shaped(l) && l.parent != [] && l.parent[0] == None && forall x :: 0 < x < |l.parent| ==> l.parent[x].Some?
  }

  lemma {:induction false} Child(l: Ledger, x: nat, y: nat, n: nat)
    requires Shaped(l) && y < n <= |l.count| && l.parent[y] == Some(x) && l.count[y] > 0
    ensures Children(l, x, n) > 0
  {
    if y < n - 1 {
      Child(l, x, y, n - 1);
    }
  }

  /** A living message keeps its original alive, so any claim keeps the root alive. */
  lemma {:induction false} RootAlive(l: Ledger, claims: seq<nat>, x: nat)
    requires Balanced(l, claims) && Rooted(l) && x < |claims| && l.count[x] > 0
    ensures l.count[0] > 0
    decreases x
  {
    if x > 0 {
      var p := l.parent[x].value;
      Child(l, p, x, |l.count|);
      RootAlive(l, claims, p);
    }
  }

  /** Without claims nothing is alive, clones before originals. */
  lemma {:induction false} NothingAlive(l: Ledger, claims: seq<nat>, n: nat)
    requires Balanced(l, claims) && n <= |claims|
    requires forall x :: 0 <= x < |claims| ==> claims[x] == 0
    ensures forall x :: n <= x < |claims| ==> l.count[x] == 0
    decreases |claims| - n
  {
    if n < |claims| {
      NothingAlive(l, claims, n + 1);
      DeadChildren(l, n, |l.count|);
    }
  }

  lemma {:induction false} DeadChildren(l: Ledger, x: nat, n: nat)
    requires Shaped(l) && n <= |l.count| && forall y :: x < y < |l.count| ==> l.count[y] == 0
    ensures Children(l, x, n) == 0
  {
    if n > 0 {
      DeadChildren(l, x, n - 1);
    }
  }

  /** The original has not ended exactly as long as there is a claim on it or on a clone,
      and it ends once. */
  lemma RootIffClaims(l: Ledger, claims: seq<nat>)
    requires Balanced(l, claims) && Rooted(l)
    ensures l.ended[0] <= 1
    ensures l.ended[0] == 0 <==> exists x :: 0 <= x < |claims| && claims[x] > 0
  {
    if x :| 0 <= x < |claims| && claims[x] > 0 {
      RootAlive(l, claims, x);
    } else {
      NothingAlive(l, claims, 0);
    }
  }
}
