/** The array of structured data elements of a message: where a new element goes. */
module Sdata {
  import opened Wrappers

  const MAX_SDATA := 255
  const PREFIX := ".SDATA."

  /** The name .SDATA.id.param of an element, or .SDATA.id of a block without parameters;
      the id may contain dots. */
  datatype Name = Name(id: string, param: string) | Standalone(id: string)

  /** What follows the prefix. */
  function Rest(n: Name): string { if n.Name? then n.id + "." + n.param else n.id }

  function Text(n: Name): string { PREFIX + Rest(n) }

  /** An id and a parameter that can be told apart by the last dot. */
  predicate ValidName(n: Name) { n.Name? && n.id != "" && n.param != "" && '.' !in n.param }

  /** memrchr(): where the last '.' of `s` is, if there is one. */
  function LastDot(s: string): (d: nat)
    ensures d <= |s| && ('.' in s ==> d < |s| && s[d] == '.' && '.' !in s[d + 1..])
  {
    if s == "" then 0
    else if s[|s| - 1] == '.' then |s| - 1
    else
      assert s == s[..|s| - 1] + [s[|s| - 1]];
      var d := LastDot(s[..|s| - 1]);
      assert '.' in s ==> s[d + 1..] == s[..|s| - 1][d + 1..] + [s[|s| - 1]];
      d
  }

  lemma LastDotBefore(front: string, param: string)
    requires '.' !in param
    ensures var s := front + "." + param;
            '.' in s && LastDot(s) == |front|
  {
    var s := front + "." + param;
    assert s[|front|] == '.';
    assert forall i :: |front| < i < |s| ==> s[i] == param[i - |front| - 1];
  }

  lemma LastDotOfText(n: Name)
    requires ValidName(n)
    ensures LastDot(Text(n)) == |PREFIX| + |n.id|
  {
    hide LastDot;
    LastDotBefore(PREFIX + n.id, n.param);
    assert Text(n) == PREFIX + n.id + "." + n.param;
  }

  /** The name of `n` up to its last dot. */
  function Stem(n: Name): (t: string)
    ensures |t| == LastDot(Text(n)) && t == Text(n)[..|t|]
  {
    Text(n)[..LastDot(Text(n))]
  }

  predicate Begins(stem: string, m: Name) { |Text(m)| > |stem| && Text(m)[..|stem|] == stem }

  /** The test that finds elements of the same block: same text up to the last dot of `n`,
      and something after it. */
  predicate SameBlock(m: Name, n: Name) { Begins(Stem(n), m) }

  /** What the test comes to: the id of `n` begins the name of `m`, which goes on. */
  lemma SameBlockIs(m: Name, n: Name)
    requires ValidName(n)
    ensures SameBlock(m, n) <==> n.id <= Rest(m) && |n.id| < |Rest(m)|
  {
    LastDotOfText(n);
    var len := |PREFIX| + |n.id|;
    var rest := Rest(m);
    assert Text(m) == PREFIX + rest;
    assert Text(n)[..len] == PREFIX + n.id;
    if |n.id| <= |rest| {
      assert Text(m)[..len] == PREFIX + rest[..|n.id|];
      assert Text(m)[..len][|PREFIX|..] == rest[..|n.id|];
      assert Text(n)[..len][|PREFIX|..] == n.id;
    }
  }

  /** Neither id begins with the other, unless they are the same. */
  predicate Unprefixed(a: string, b: string) { (a <= b || b <= a) ==> a == b }

  lemma SameBlockIsSameId(m: Name, n: Name)
    requires ValidName(m) && ValidName(n) && Unprefixed(m.id, n.id)
    ensures (SameBlock(m, n) <==> m.id == n.id)
  {
    SameBlockIs(m, n);
    var rest := m.id + "." + m.param;
    assert m.id == rest[..|m.id|];
    if n.id <= rest && |n.id| <= |m.id| {
      assert n.id == rest[..|n.id|] == m.id[..|n.id|];
    }
  }

  // ----- where a new element goes

  function LastBegun(ns: seq<Name>, stem: string, k: nat): (i: int)
    requires k <= |ns|
    ensures -1 <= i < k && (i >= 0 ==> Begins(stem, ns[i])) && forall j :: i < j < k ==> !Begins(stem, ns[j])
  {
    if k == 0 then -1 else if Begins(stem, ns[k - 1]) then k - 1 else LastBegun(ns, stem, k - 1)
  }

  /** The last element the test finds, or -1. */
  function LastMatch(ns: seq<Name>, n: Name): (i: int)
    ensures -1 <= i < |ns|
  {
    LastBegun(ns, Stem(n), |ns|)
  }

  /** A new element goes in front of the last one of its block, or to the end. */
  function Inserted(ns: seq<Name>, n: Name, initialParse: bool): seq<Name>
  {
    var i := if initialParse then -1 else LastMatch(ns, n);
    if i >= 0 then ns[..i] + [n] + ns[i..] else ns + [n]
  }

  /** The elements of a block stand together. */
  predicate Contiguous(ns: seq<Name>) {
    forall i, j, k :: 0 <= i < j < k < |ns| && ns[i].id == ns[k].id ==> ns[j].id == ns[i].id
  }

  predicate AllUnprefixed(ns: seq<Name>, n: Name) {
    ValidName(n) && forall i :: 0 <= i < |ns| ==> ValidName(ns[i]) && Unprefixed(ns[i].id, n.id)
  }

  /** Exactly when an insertion keeps the blocks together: the element it goes in front of
      is of the same block, or begins its own block and leaves the new element next to
      the elements of its block. */
  predicate KeepsTogether(ns: seq<Name>, n: Name)
  {
    var i := LastMatch(ns, n);
    if i < 0 then forall j :: 0 <= j < |ns| && ns[j].id == n.id ==> ns[|ns| - 1].id == n.id
    else || ns[i].id == n.id
         || ((i == 0 || ns[i - 1].id != ns[i].id) &&
             forall j :: 0 <= j < |ns| && ns[j].id == n.id ==> i > 0 && ns[i - 1].id == n.id)
  }

  /** An id that is in use is found. */
  lemma PresentIsFound(ns: seq<Name>, n: Name, j: nat)
    requires ValidName(n) && j < |ns| && ns[j].Name? && ns[j].id == n.id
    ensures SameBlock(ns[j], n) && j <= LastMatch(ns, n)
  {
    SameBlockIs(ns[j], n);
    var rest := ns[j].id + "." + ns[j].param;
    assert rest[..|n.id|] == n.id;
  }

  /** Inserting next to or inside an element's own block keeps all blocks together. */
  lemma BesideOwn(ns: seq<Name>, n: Name, i: nat)
    requires Contiguous(ns) && i <= |ns|
    requires 0 < i < |ns| && ns[i - 1].id == ns[i].id ==> ns[i].id == n.id
    requires forall j :: 0 <= j < |ns| && ns[j].id == n.id ==>
               (i < |ns| && ns[i].id == n.id) || (i > 0 && ns[i - 1].id == n.id)
    ensures Contiguous(ns[..i] + [n] + ns[i..])
  {
    var r := ns[..i] + [n] + ns[i..];
    forall a, b, c | 0 <= a < b < c < |r| && r[a].id == r[c].id
      ensures r[b].id == r[a].id
    {
      if a != i && b != i && c != i {
        var a', b', c' := if a < i then a else a - 1, if b < i then b else b - 1, if c < i then c else c - 1;
        assert r[a] == ns[a'] && r[b] == ns[b'] && r[c] == ns[c'];
      } else if b == i {
        assert r[a] == ns[a] && r[c] == ns[c - 1];
        assert a < i - 1 ==> ns[i - 1].id == ns[a].id;
        assert i < c - 1 ==> ns[i].id == ns[a].id;
      } else if a == i {
        assert r[c] == ns[c - 1] && r[b] == ns[b - 1];
      } else {
        assert r[a] == ns[a] && r[b] == ns[b];
      }
    }
  }

  /** The other direction: an insertion that keeps the blocks together is of that kind. */
  lemma TogetherIsBeside(ns: seq<Name>, n: Name, i: nat)
    requires i <= |ns| && Contiguous(ns[..i] + [n] + ns[i..])
    ensures 0 < i < |ns| && ns[i - 1].id == ns[i].id ==> ns[i].id == n.id
    ensures forall j :: 0 <= j < i && ns[j].id == n.id ==> ns[i - 1].id == n.id
    ensures forall j :: i <= j < |ns| && ns[j].id == n.id ==> ns[i].id == n.id
  {
    var r := ns[..i] + [n] + ns[i..];
    assert forall j :: 0 <= j < i ==> r[j] == ns[j];
    assert i < |ns| ==> r[i + 1] == ns[i];
    assert r[i] == n;
    forall j | 0 <= j < i && ns[j].id == n.id
      ensures ns[i - 1].id == n.id
    {
      assert r[j].id == r[i].id;
      assert j < i - 1 ==> r[i - 1].id == r[j].id;
    }
    forall j | i <= j < |ns| && ns[j].id == n.id
      ensures ns[i].id == n.id
    {
      assert r[j + 1].id == r[i].id;
      assert i < j ==> r[i + 1].id == r[i].id;
    }
  }

  lemma ContiguousIff(ns: seq<Name>, n: Name)
    requires Contiguous(ns)
    ensures Contiguous(Inserted(ns, n, false)) <==> KeepsTogether(ns, n)
  {
    hide SameBlock;
    var i := LastMatch(ns, n);
    var at := if i >= 0 then i else |ns|;
    assert Inserted(ns, n, false) == ns[..at] + [n] + ns[at..];
    if KeepsTogether(ns, n) {
      BesideOwn(ns, n, at);
    }
    if Contiguous(Inserted(ns, n, false)) {
      TogetherIsBeside(ns, n, at);
    }
  }

  /** If no id begins another, insertions after parsing keep every block together. */
  lemma InsertKeepsBlocks(ns: seq<Name>, n: Name)
    requires Contiguous(ns) && AllUnprefixed(ns, n)
    ensures Contiguous(Inserted(ns, n, false))
  {
    LastDotOfText(n);
    var i := LastMatch(ns, n);
    if i >= 0 {
      SameBlockIsSameId(ns[i], n);
    }
    forall j | 0 <= j < |ns| && ns[j].id == n.id
      ensures j <= i
    {
      PresentIsFound(ns, n, j);
    }
    ContiguousIff(ns, n);
  }

  /** Valid names of which no id begins another. */
  predicate AllFree(ns: seq<Name>) {
    && (forall i :: 0 <= i < |ns| ==> ValidName(ns[i]))
    && (forall i, j :: 0 <= i < |ns| && 0 <= j < |ns| ==> Unprefixed(ns[i].id, ns[j].id))
  }

  /** The array after the elements `more` were added one by one, none beyond the limit. */
  function InsertedAll(ns: seq<Name>, more: seq<Name>): seq<Name>
    decreases |more|
  {
    if more == [] then ns
    else
      var before := InsertedAll(ns, more[..|more| - 1]);
      if |before| >= MAX_SDATA then before else Inserted(before, more[|more| - 1], false)
  }

  lemma InsertedFrom(ns: seq<Name>, n: Name, x: Name)
    ensures x in Inserted(ns, n, false) ==> x in ns || x == n
  {
  }

  lemma {:induction false} InsertedAllFrom(ns: seq<Name>, more: seq<Name>, x: Name)
    requires x in InsertedAll(ns, more)
    ensures x in ns || x in more
    decreases |more|
  {
    if more != [] {
      var before := InsertedAll(ns, more[..|more| - 1]);
      InsertedFrom(before, more[|more| - 1], x);
      if x in before {
        InsertedAllFrom(ns, more[..|more| - 1], x);
      }
    }
  }

  /** Any number of insertions after parsing keeps every block together and the number of
      elements within the limit. */
  lemma {:induction false} InsertionsKeepBlocks(ns: seq<Name>, more: seq<Name>)
    requires Contiguous(ns) && |ns| <= MAX_SDATA && AllFree(ns + more)
    ensures Contiguous(InsertedAll(ns, more)) && |InsertedAll(ns, more)| <= MAX_SDATA
    decreases |more|
  {
    hide Text, Contiguous, AllFree, Inserted;
    if more != [] {
      var front, n := more[..|more| - 1], more[|more| - 1];
      FreeFront(ns, more);
      InsertionsKeepBlocks(ns, front);
      var before := InsertedAll(ns, front);
      FreeOf(ns, more, before);
      InsertKeepsBlocks(before, n);
      InsertedSize(before, n);
    }
  }

  lemma InsertedSize(ns: seq<Name>, n: Name)
    ensures |Inserted(ns, n, false)| == |ns| + 1
  {
  }

  lemma FreeFront(ns: seq<Name>, more: seq<Name>)
    requires more != [] && AllFree(ns + more)
    ensures AllFree(ns + more[..|more| - 1])
  {
    var all, front := ns + more, ns + more[..|more| - 1];
    assert forall i :: 0 <= i < |front| ==> front[i] == all[i];
  }

  /** What was inserted so far and the next name are of the names that go well together. */
  lemma FreeOf(ns: seq<Name>, more: seq<Name>, before: seq<Name>)
    requires more != [] && AllFree(ns + more)
    requires before == InsertedAll(ns, more[..|more| - 1])
    ensures AllUnprefixed(before, more[|more| - 1])
  {
    hide Text, Unprefixed, ValidName;
    var all, front, n := ns + more, more[..|more| - 1], more[|more| - 1];
    assert all[|all| - 1] == n;
    forall i | 0 <= i < |before|
      ensures ValidName(before[i]) && Unprefixed(before[i].id, n.id)
    {
      InsertedAllFrom(ns, front, before[i]);
      assert before[i] in all;
      var j :| 0 <= j < |all| && all[j] == before[i];
    }
  }

  /** An id that begins another one can be put into the middle of the other's block. */
  lemma PrefixSplitsBlock()
    ensures var ns := [Name("foobar", "x"), Name("foobar", "y")];
            var n := Name("foo", "p");
            && Contiguous(ns) && ValidName(n)
            && Inserted(ns, n, false) == [ns[0], n, ns[1]] && !Contiguous(Inserted(ns, n, false))
  {
    var ns := [Name("foobar", "x"), Name("foobar", "y")];
    var n := Name("foo", "p");
    LastDotOfText(n);
    SameBlockIs(ns[1], n);
    assert (ns[1].id + "." + ns[1].param)[..3] == "foo";
    assert LastMatch(ns, n) == 1;
    var r := Inserted(ns, n, false);
    assert r == [ns[0], n, ns[1]];
    assert r[0].id == r[2].id && r[1].id != r[0].id;
  }

  /** The test does not find a block without parameters: its first parameter goes to the
      end, behind another block. */
  lemma StandaloneNotFound()
    ensures var ns := [Standalone("x"), Name("y", "p")];
            var n := Name("x", "q");
            Contiguous(ns) && Inserted(ns, n, false) == ns + [n] && !Contiguous(Inserted(ns, n, false))
  {
    var ns := [Standalone("x"), Name("y", "p")];
    var n := Name("x", "q");
    SameBlockIs(ns[0], n);
    SameBlockIs(ns[1], n);
    assert Rest(ns[1])[0] == 'y' && n.id[0] == 'x';
    var r := ns + [n];
    assert r[0].id == r[2].id && r[1].id != r[0].id;
  }

  // ----- the array

  /** How many slots the array has after room was made for one more element. */
  function Allocated(num: nat, alloc: nat): (r: nat)
    requires num < MAX_SDATA && alloc <= MAX_SDATA
    ensures num < r <= MAX_SDATA && alloc <= r
  {
    if alloc > num then alloc
    else
      var rounded := (num + 8) / 8 * 8;
      var wanted := if rounded > num + 1 then rounded else num + 1;
      if wanted > MAX_SDATA then MAX_SDATA else wanted
  }

  class SdataArray {
    /** The slots, of which the first `num` are in use; the array belongs to this message
        only if `owned` (LF_STATE_OWN_SDATA). */
    var slots: array<Name>
    var num: nat
    var owned: bool
    var initialParse: bool

    constructor ()
      ensures Valid() && Names() == []
    {
      slots, num, owned, initialParse := new Name[0], 0, false, false;
    }

    ghost predicate Valid()
      reads this
    {
      num <= slots.Length <= MAX_SDATA
    }

    ghost function Names(): seq<Name>
      requires Valid()
      reads this, slots
    {
      slots[..num]
    }

    /** An array of this message's own with a free slot. */
    method MakeRoom()
      requires Valid() && num < MAX_SDATA
      modifies `slots, `owned
      ensures Valid() && num < slots.Length == Allocated(num, old(slots.Length)) && owned && Names() == old(Names())
      ensures slots == old(slots) || fresh(slots)
      ensures old(owned) || fresh(slots)
    {
      var alloc := Allocated(num, slots.Length);
      if owned && slots.Length >= alloc {
        return;
      }
      var more := new Name[alloc];
      forall i | 0 <= i < num {
        more[i] := slots[i];
      }
      slots, owned := more, true;
    }

    /** The last element of the block of `n`, searched from the end, or -1. */
    method FindBlock(n: Name) returns (i: int)
      requires Valid()
      ensures i == LastMatch(slots[..num], n)
    {
      hide LastDot, Text;
      var len := LastDot(Text(n));
      ghost var stem := Stem(n);
      i := num - 1;
      while i >= 0
        invariant -1 <= i < num
        invariant LastMatch(slots[..num], n) == LastBegun(slots[..num], stem, i + 1)
      {
        if |Text(slots[i])| > len && Text(slots[i])[..len] == Text(n)[..len] {
          return;
        }
        i := i - 1;
      }
    }

    /** memmove() of the elements from `i` on by one slot. */
    method ShiftUp(i: nat)
      requires Valid() && i <= num < slots.Length
      modifies slots
      ensures slots[..i] == old(slots[..i]) && slots[i + 1..num + 1] == old(slots[i..num])
    {
      var k := num;
      ghost var was := slots[..];
      while k > i
        invariant i <= k <= num
        invariant slots[..k] == was[..k] && slots[k + 1..num + 1] == was[k..num]
      {
        slots[k] := slots[k - 1];
        k := k - 1;
      }
    }

    /** Room is made at slot `i` and the element stored there. */
    method PutAt(i: nat, n: Name)
      requires Valid() && i <= num < slots.Length
      modifies slots
      ensures slots[..num + 1] == old(slots[..i]) + [n] + old(slots[i..num])
    {
      ShiftUp(i);
      slots[i] := n;
      assert slots[..num + 1] == slots[..i] + [slots[i]] + slots[i + 1..num + 1];
    }

    /** The new element goes to its place; there is a free slot. */
    method Place(n: Name)
      requires Valid() && num < slots.Length
      modifies slots, `num
      ensures Valid() && Names() == Inserted(old(Names()), n, initialParse)
    {
      hide Text, LastMatch;
      ghost var was := Names();
      var i := -1;
      if !initialParse {
        i := FindBlock(n);
      }
      if i >= 0 {
        assert slots[i..num] == was[i..] && slots[..i] == was[..i];
        PutAt(i, n);
      } else {
        slots[num] := n;
        assert slots[..num + 1] == was + [n];
      }
      num := num + 1;
    }

    /** log_msg_update_sdata_slow(): a new element is added, unless there are 255 already;
        an array shared with another message is left as it is. */
    method Update(n: Name)
      requires Valid()
      modifies this, slots
      ensures Valid() && initialParse == old(initialParse)
      ensures Names() == if old(num) == MAX_SDATA then old(Names()) else Inserted(old(Names()), n, initialParse)
      ensures old(num) < MAX_SDATA && !old(owned) ==> fresh(slots) && old(slots)[..] == old(slots[..])
    {
      if num == MAX_SDATA {
        return;
      }
      hide Text, Inserted;
      MakeRoom();
      Place(n);
    }
  }
}
