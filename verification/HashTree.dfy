/** The path trie with "." between keys: finding, inserting and naming nodes. */
module HashTree {
  import opened Wrappers

  // ----- paths as text

  /** Where the first '.' of `s` is, or |s|. */
  function Dot(s: string): (d: nat)
    ensures d <= |s| && '.' !in s[..d] && (d < |s| ==> s[d] == '.')
  {
    if s == "" || s[0] == '.' then 0
    else
      assert s == [s[0]] + s[1..];
      1 + Dot(s[1..])
  }

  /** The parts of `s` between the dots. */
  function Pieces(s: string): seq<string>
    decreases |s|
  {
    var d := Dot(s);
    if d == |s| then [s] else [s[..d]] + Pieces(s[d + 1..])
  }

  /** g_strsplit(): the empty string has no parts at all. */
  function Split(s: string): seq<string> { if s == "" then [] else Pieces(s) }

  function Join(keys: seq<string>): string {
    if keys == [] then "" else if |keys| == 1 then keys[0] else keys[0] + "." + Join(keys[1..])
  }

  predicate Dotless(keys: seq<string>) { forall i :: 0 <= i < |keys| ==> '.' !in keys[i] }

  lemma {:induction false} PiecesDotless(s: string)
    ensures Pieces(s) != [] && Dotless(Pieces(s)) && Join(Pieces(s)) == s
    decreases |s|
  {
    var d := Dot(s);
    if d < |s| {
      PiecesDotless(s[d + 1..]);
      var rest := Pieces(s[d + 1..]);
      assert ([s[..d]] + rest)[1..] == rest;
      assert s == s[..d] + "." + s[d + 1..];
    } else {
      assert s[..d] == s;
    }
  }

  lemma DotAfter(k: string, rest: string)
    requires '.' !in k
    ensures Dot(k + "." + rest) == |k|
  {
    var s := k + "." + rest;
    assert s[|k|] == '.';
    assert forall i :: 0 <= i < |k| ==> s[i] == k[i];
  }

  lemma {:induction false} PiecesJoin(keys: seq<string>)
    requires keys != [] && Dotless(keys)
    ensures Pieces(Join(keys)) == keys
  {
    if |keys| == 1 {
      assert Join(keys) == keys[0];
      assert Dot(keys[0]) == |keys[0]|;
    } else {
      var rest := Join(keys[1..]);
      PiecesJoin(keys[1..]);
      DotAfter(keys[0], rest);
      var s := keys[0] + "." + rest;
      assert s[..|keys[0]|] == keys[0] && s[|keys[0]| + 1..] == rest;
      assert [keys[0]] + keys[1..] == keys;
    }
  }

  /** Splitting undoes joining, except for the one path that joins to nothing. */
  lemma SplitJoin(keys: seq<string>)
    requires keys != [] && Dotless(keys)
    ensures Split(Join(keys)) == keys <==> keys != [""]
  {
    PiecesJoin(keys);
    if |keys| > 1 {
      assert Join(keys)[|keys[0]|] == '.';
    }
  }

  // ----- the tree

  /** `children` is None until the node gets its first child. */
  datatype Node = Node(parent: Option<nat>, key: string, children: Option<map<string, nat>>)

  /** Node 0 is the root; a child is stored under its own key and knows its parent. */
  ghost predicate Tree(t: seq<Node>) {
    && t != [] && t[0].parent == None
    && (forall x :: 0 < x < |t| ==>
          && t[x].parent.Some? && t[x].parent.value < x && '.' !in t[x].key
          && Child(t, t[x].parent.value, t[x].key) == Some(x))
    && (forall x, k :: 0 <= x < |t| && Child(t, x, k).Some? ==>
          && Child(t, x, k).value < |t| && t[Child(t, x, k).value].parent == Some(x)
          && t[Child(t, x, k).value].key == k)
  }

  function Child(t: seq<Node>, x: nat, k: string): Option<nat>
    requires x < |t|
  {
    if t[x].children.Some? && k in t[x].children.value then Some(t[x].children.value[k]) else None
  }

  /** The keys on the way from the root to `x`. */
  ghost function PathOf(t: seq<Node>, x: nat): seq<string>
    requires Tree(t) && x < |t|
  {
    if x == 0 then [] else PathOf(t, t[x].parent.value) + [t[x].key]
  }

  /** The node reached by the first `n` keys. */
  ghost function Reach(t: seq<Node>, keys: seq<string>, n: nat): (r: Option<nat>)
    requires Tree(t) && n <= |keys|
    ensures r.Some? ==> r.value < |t|
  {
    if n == 0 then Some(0)
    else
      var before := Reach(t, keys, n - 1);
      if before == None then None else Child(t, before.value, keys[n - 1])
  }

  /** Keys lead to the node whose path they are, and to no other. */
  lemma {:induction false} ReachIsPath(t: seq<Node>, keys: seq<string>, n: nat, x: nat)
    requires Tree(t) && n <= |keys| && x < |t|
    ensures Reach(t, keys, n) == Some(x) <==> PathOf(t, x) == keys[..n]
    decreases n
  {
    if n > 0 {
      var before := Reach(t, keys, n - 1);
      if before.Some? {
        ReachIsPath(t, keys, n - 1, before.value);
      }
      if x > 0 {
        ReachIsPath(t, keys, n - 1, t[x].parent.value);
      }
      ReachStep(t, keys, n, x, before);
    }
  }

  lemma ReachStep(t: seq<Node>, keys: seq<string>, n: nat, x: nat, before: Option<nat>)
    requires Tree(t) && 0 < n <= |keys| && x < |t| && before == Reach(t, keys, n - 1)
    requires before.Some? ==> PathOf(t, before.value) == keys[..n - 1]
    requires x > 0 ==> (before == t[x].parent <==> PathOf(t, t[x].parent.value) == keys[..n - 1])
    ensures Reach(t, keys, n) == Some(x) <==> PathOf(t, x) == keys[..n]
  {
    assert keys[..n] == keys[..n - 1] + [keys[n - 1]];
    if x > 0 {
      assert Child(t, t[x].parent.value, t[x].key) == Some(x);
      var p := PathOf(t, t[x].parent.value);
      assert PathOf(t, x) == p + [t[x].key];
      assert PathOf(t, x) == keys[..n] ==> p == keys[..n - 1] && t[x].key == keys[n - 1] by {
        assert (p + [t[x].key])[..|p|] == p && (p + [t[x].key])[|p|] == t[x].key;
      }
    }
  }

  lemma {:induction false} PathDotless(t: seq<Node>, x: nat)
    requires Tree(t) && x < |t|
    ensures Dotless(PathOf(t, x)) && (x > 0 ==> PathOf(t, x) != [])
  {
    if x > 0 {
      PathDotless(t, t[x].parent.value);
    }
  }

  /** What lookup by text means: the node whose path is the split text, if it is not the root. */
  ghost predicate Names(t: seq<Node>, path: string, x: nat)
    requires Tree(t)
  {
    0 < x < |t| && PathOf(t, x) == Split(path)
  }

  // ----- growing the tree

  /** _insert_key(): a new child of `p`. */
  function Grow(t: seq<Node>, p: nat, k: string): seq<Node>
    requires p < |t|
  {
    var kids := if t[p].children.Some? then t[p].children.value else map[];
    t[p := t[p].(children := Some(kids[k := |t|]))] + [Node(Some(p), k, None)]
  }

  /** `g` has all nodes of `t` under the same parents and keys. */
  ghost predicate Extends(t: seq<Node>, g: seq<Node>) {
    |t| <= |g| && forall x :: 0 <= x < |t| ==> g[x].parent == t[x].parent && g[x].key == t[x].key
  }

  lemma GrowChild(t: seq<Node>, p: nat, k: string, x: nat, j: string)
    requires p < |t| && x <= |t|
    ensures |Grow(t, p, k)| == |t| + 1
    ensures Child(Grow(t, p, k), x, j) ==
            if x == |t| then None else if x == p && j == k then Some(|t|) else Child(t, x, j)
  {
  }

  lemma GrowShape(t: seq<Node>, p: nat, k: string)
    requires p < |t|
    ensures var g := Grow(t, p, k);
            Extends(t, g) && |g| == |t| + 1 && g[|t|].parent == Some(p) && g[|t|].key == k
  {
  }

  lemma GrowTree(t: seq<Node>, p: nat, k: string)
    requires Tree(t) && p < |t| && Child(t, p, k) == None && '.' !in k
    ensures Tree(Grow(t, p, k))
    ensures forall j :: Child(Grow(t, p, k), |t|, j) == None
  {
    hide Grow, Child;
    var g := Grow(t, p, k);
    GrowShape(t, p, k);
    forall x, j | 0 <= x <= |t|
      ensures Child(g, x, j) == if x == |t| then None else if x == p && j == k then Some(|t|) else Child(t, x, j)
    {
      GrowChild(t, p, k, x, j);
    }
    forall x | 0 < x < |t|
      ensures Child(g, g[x].parent.value, g[x].key) == Some(x)
    {
      assert Child(t, t[x].parent.value, t[x].key) == Some(x);
    }
  }

  lemma {:induction false} PathKept(t: seq<Node>, g: seq<Node>, x: nat)
    requires Tree(t) && Tree(g) && Extends(t, g) && x < |t|
    ensures PathOf(g, x) == PathOf(t, x)
  {
    if x > 0 {
      PathKept(t, g, t[x].parent.value);
    }
  }

  /** Nodes of `g` that are not in `t` lie on the way along `keys`. */
  ghost predicate OnlyAdds(t: seq<Node>, g: seq<Node>, keys: seq<string>)
    requires Tree(t) && Tree(g)
  {
    Extends(t, g) && forall x :: |t| <= x < |g| ==> PathOf(g, x) <= keys
  }

  /** An insert changes no other lookup: what was found is still found, and what is found
      in addition is the inserted path or a prefix of it. */
  lemma OthersUnchanged(t: seq<Node>, g: seq<Node>, keys: seq<string>, path: string, x: nat)
    requires Tree(t) && Tree(g) && OnlyAdds(t, g, keys)
    ensures Names(t, path, x) ==> Names(g, path, x)
    ensures Names(g, path, x) ==> Names(t, path, x) || Split(path) <= keys
  {
    if x < |t| {
      PathKept(t, g, x);
    }
  }

  class HTree {
    var nodes: seq<Node>

    ghost predicate Valid()
      reads this
    {
      Tree(nodes)
    }

    /** htree_new(): the first key names the root, the others a chain below it. */
    constructor (path: string)
      ensures Valid() && Pieces(path) != [] && nodes[0].key == Pieces(path)[0] && |nodes| == |Pieces(path)|
      ensures forall x :: 0 <= x < |nodes| ==> PathOf(nodes, x) <= Pieces(path)[1..]
      ensures exists x :: 0 <= x < |nodes| && PathOf(nodes, x) == Pieces(path)[1..]
    {
      PiecesDotless(path);
      var keys := Pieces(path);
      nodes := [Node(None, keys[0], None)];
      new;
      assert PathOf(nodes, 0) == keys[1..][..0];
      var node := InsertKeys(0, keys[1..], 0);
    }

    /** _longest_match_key_array(): follows `keys` as far as the tree goes; `i` is the first
        key that did not match. */
    method LongestMatchKeys(keys: seq<string>) returns (res: Option<nat>, i: nat)
      requires Valid()
      ensures i <= |keys| && Reach(nodes, keys, i).Some? && (i < |keys| ==> Reach(nodes, keys, i + 1) == None)
      ensures res == if i > 0 then Reach(nodes, keys, i)
                     else if keys != [] && nodes[0].children == None then Some(0) else None
    {
      res := None;
      var node: Option<nat> := Some(0);
      var matching := true;
      i := 0;
      while matching && i < |keys|
        invariant i <= |keys| && (matching ==>
                    node == Reach(nodes, keys, i) && node.Some? && res == if i > 0 then node else None)
        invariant !matching ==>
                    && i > 0 && Reach(nodes, keys, i - 1).Some? && Reach(nodes, keys, i) == None
                    && res == if i > 1 then Reach(nodes, keys, i - 1)
                              else if nodes[0].children == None then Some(0) else None
        decreases |keys| - i, matching
      {
        if nodes[node.value].children == None {
          res := node;
          node := None;
        } else {
          node := Child(nodes, node.value, keys[i]);
        }
        if node.Some? {
          res := node;
        } else {
          matching := false;
        }
        i := i + 1;
      }
      if !matching {
        i := i - 1;
      }
    }

    /** _htree_find_longest_match(): a single key is looked up directly below the root.
        `remain` is the first key that did not match. */
    method FindLongestMatch(keys: seq<string>) returns (res: Option<nat>, remain: Option<nat>)
      requires Valid()
      ensures remain == None ==>
                Reach(nodes, keys, |keys|).Some? && res == if keys == [] then None else Reach(nodes, keys, |keys|)
      ensures remain.Some? ==> remain.value < |keys|
      ensures remain.Some? ==> Reach(nodes, keys, remain.value).Some? && Reach(nodes, keys, remain.value + 1) == None
      ensures remain.Some? ==> res == if remain.value > 0 then Reach(nodes, keys, remain.value)
                                      else if |keys| > 1 && nodes[0].children == None then Some(0) else None
    {
      remain := None;
      if |keys| == 1 {
        res := Child(nodes, 0, keys[0]);
        assert Reach(nodes, keys, 0) == Some(0);
        if res == None {
          remain := Some(0);
        }
        return;
      }
      var i;
      res, i := LongestMatchKeys(keys);
      if i < |keys| {
        remain := Some(i);
      }
    }

    /** htree_find() */
    method Find(path: string) returns (node: Option<nat>)
      requires Valid()
      ensures node.Some? ==> Names(nodes, path, node.value)
      ensures node == None ==> forall x :: !Names(nodes, path, x)
    {
      var keys := Split(path);
      var remain;
      node, remain := FindLongestMatch(keys);
      if remain.Some? {
        node := None;
        ReachStops(nodes, keys, remain.value + 1, |keys|);
      }
      forall x | 0 < x < |nodes|
        ensures Names(nodes, path, x) <==> node == Some(x)
      {
        ReachIsPath(nodes, keys, |keys|, x);
        assert keys[..|keys|] == keys;
        PathDotless(nodes, x);
      }
      if node.Some? {
        ReachIsPath(nodes, keys, |keys|, node.value);
        assert keys[..|keys|] == keys;
      }
    }

    /** _htree_insert_keys() below `start`, from key `from` on. */
    method InsertKeys(start: nat, keys: seq<string>, from: nat) returns (node: nat)
      requires Valid() && start < |nodes| && from <= |keys| && Dotless(keys) && PathOf(nodes, start) == keys[..from]
      requires from < |keys| ==> Child(nodes, start, keys[from]) == None
      modifies this
      ensures Valid() && OnlyAdds(old(nodes), nodes, keys) && node < |nodes| && PathOf(nodes, node) == keys
      ensures |nodes| == |old(nodes)| + |keys| - from
    {
      node := start;
      var i := from;
      ghost var t := nodes;
      while i < |keys|
        invariant from <= i <= |keys| && Valid() && OnlyAdds(t, nodes, keys) && node < |nodes| == |t| + i - from
        invariant PathOf(nodes, node) == keys[..i] && (i < |keys| ==> Child(nodes, node, keys[i]) == None)
      {
        ghost var g := nodes;
        GrowTree(nodes, node, keys[i]);
        var child := |nodes|;
        nodes := Grow(nodes, node, keys[i]);
        Added(t, g, nodes, node, keys, i);
        node := child;
        i := i + 1;
      }
      assert keys[..|keys|] == keys;
    }

    /** htree_insert(): the missing keys of `path` are added below the longest match. */
    method Insert(path: string) returns (node: nat)
      requires Valid()
      modifies this
      ensures Valid() && OnlyAdds(old(nodes), nodes, Split(path)) && node < |nodes|
              && PathOf(nodes, node) == Split(path)
    {
      var keys := Split(path);
      if path != "" {
        PiecesDotless(path);
      }
      var res, remain := FindLongestMatch(keys);
      var root := if res.Some? then res.value else 0;
      if remain.Some? {
        assert Reach(nodes, keys, remain.value) == Some(root);
        ReachIsPath(nodes, keys, remain.value, root);
        node := InsertKeys(root, keys, remain.value);
      } else {
        assert Reach(nodes, keys, |keys|) == Some(root);
        ReachIsPath(nodes, keys, |keys|, root);
        assert keys[..|keys|] == keys;
        node := root;
      }
    }

    /** hnode_get_fqdn(): keys are put in front, up to the child of the root. */
    method Fqdn(x: nat) returns (s: string)
      requires Valid() && x < |nodes|
      ensures s == Join(PathOf(nodes, x))
    {
      hide Join, PathOf, Tree;
      s := "";
      if nodes[x].parent == None {
        RootPath(nodes, x);
        return;
      }
      var p := x;
      ghost var below: seq<string> := [];
      while true
        invariant p < |nodes| && nodes[p].parent != None && PathOf(nodes, x) == PathOf(nodes, p) + below
        invariant s == if below == [] then "" else "." + Join(below)
        decreases p
      {
        JoinFront(nodes[p].key, below);
        s := nodes[p].key + s;
        ghost var more := [nodes[p].key] + below;
        UpwardPath(nodes, p, below);
        p := nodes[p].parent.value;
        if nodes[p].parent == None {
          RootPath(nodes, p);
          assert [] + more == more;
          return;
        }
        below := more;
        s := "." + s;
      }
    }
  }

  lemma RootPath(t: seq<Node>, x: nat)
    requires Tree(t) && x < |t| && t[x].parent == None
    ensures PathOf(t, x) == [] && Join([]) == ""
  {
  }

  lemma UpwardPath(t: seq<Node>, x: nat, below: seq<string>)
    requires Tree(t) && x < |t| && t[x].parent != None
    ensures t[x].parent.value < x
    ensures PathOf(t, x) + below == PathOf(t, t[x].parent.value) + ([t[x].key] + below)
  {
  }

  lemma JoinFront(k: string, keys: seq<string>)
    ensures Join([k] + keys) == k + if keys == [] then "" else "." + Join(keys)
  {
    assert ([k] + keys)[1..] == keys;
  }

  /** Beyond a key that does not match nothing is reached. */
  lemma {:induction false} ReachStops(t: seq<Node>, keys: seq<string>, i: nat, n: nat)
    requires Tree(t) && i <= n <= |keys| && Reach(t, keys, i) == None
    ensures Reach(t, keys, n) == None
    decreases n - i
  {
    if i < n {
      ReachStops(t, keys, i, n - 1);
    }
  }

  lemma Added(t: seq<Node>, g: seq<Node>, h: seq<Node>, p: nat, keys: seq<string>, i: nat)
    requires Tree(t) && Tree(g) && Tree(h) && OnlyAdds(t, g, keys) && p < |g| && i < |keys|
    requires PathOf(g, p) == keys[..i] && h == Grow(g, p, keys[i])
    ensures |h| == |g| + 1 && OnlyAdds(t, h, keys) && PathOf(h, |g|) == keys[..i + 1]
  {
    hide Grow, Tree;
    GrowShape(g, p, keys[i]);
    forall x | 0 <= x < |g|
      ensures PathOf(h, x) == PathOf(g, x)
    {
      PathKept(g, h, x);
    }
    assert keys[..i + 1] == keys[..i] + [keys[i]];
  }

  /** Looking up the name of a node gives back the node, unless the name is empty. */
  lemma FindFqdn(t: seq<Node>, x: nat)
    requires Tree(t) && 0 < x < |t|
    ensures Names(t, Join(PathOf(t, x)), x) <==> PathOf(t, x) != [""]
  {
    PathDotless(t, x);
    SplitJoin(PathOf(t, x));
  }

  /** The name of the node found for a path is that path, and no other node has it. */
  lemma FqdnFind(t: seq<Node>, path: string, x: nat, y: nat)
    requires Tree(t) && Names(t, path, x)
    ensures Join(PathOf(t, x)) == path
    ensures Names(t, path, y) ==> y == x
  {
    PathDotless(t, x);
    PiecesDotless(path);
    var keys := Split(path);
    assert keys[..|keys|] == keys;
    ReachIsPath(t, keys, |keys|, x);
    if Names(t, path, y) {
      ReachIsPath(t, keys, |keys|, y);
    }
  }
}
