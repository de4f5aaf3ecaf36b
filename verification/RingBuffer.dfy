/** The ring buffer of lib/ringbuffer.c over an array; slots stand for the pointers
    that its functions hand out. */
module RingBuffer {
  import opened Wrappers

  lemma {:induction false} ModShift(x: nat, q: nat, n: nat)
    requires n > 0
    ensures (x + q * n) % n == x % n
  {
    if q > 0 {
      ModShift(x, q - 1, n);
      var y := x + (q - 1) * n;
      assert x + q * n == y + n;
      assert (y + n) % n == y % n by { AddOnce(y, n); }
    }
  }

  lemma AddOnce(y: nat, n: nat)
    requires n > 0
    ensures (y + n) % n == y % n
  {
    var q, r := y / n, y % n;
    assert y == q * n + r;
    assert y + n == (q + 1) * n + r;
    Unique(y + n, q + 1, r, n);
  }

  lemma AtLeastOnce(k: nat, n: nat)
    requires k > 0
    ensures k * n >= n
  {
  }

  lemma Unique(x: nat, q: nat, r: nat, n: nat)
    requires 0 <= r < n && x == q * n + r
    ensures x % n == r
  {
    var q', r' := x / n, x % n;
    assert x == q' * n + r';
    assert (q - q') * n == r' - r;
    if q > q' { AtLeastOnce(q - q', n); }
    if q' > q { AtLeastOnce(q' - q, n); }
  }

  /** Reducing first changes nothing: a record keeps its slot while the head moves. */
  lemma ModAdd(a: nat, b: nat, n: nat)
    requires n > 0
    ensures (a % n + b) % n == (a + b) % n
  {
    var q, r := a / n, a % n;
    assert a == q * n + r;
    assert a + b == r + b + q * n;
    ModShift(r + b, q, n);
  }

  /** Indexes less than one lap apart have different slots. */
  lemma SlotsDiffer(head: nat, i: nat, j: nat, n: nat)
    requires head < n && i < n && j < n && i != j
    ensures (head + i) % n != (head + j) % n
  {
    Unwrapped(head + i, n);
    Unwrapped(head + j, n);
  }

  lemma Unwrapped(x: nat, n: nat)
    requires x < 2 * n
    ensures x % n == if x < n then x else x - n
  {
    if x < n { Unique(x, 0, x, n); } else { Unique(x, 1, x - n, n); }
  }

  class Ring<T(0)> {
    var buffer: array<T>
    var head: nat
    var tail: nat
    var count: nat

    ghost predicate Valid()
      reads this
    {
      && 0 < buffer.Length && head < buffer.Length && count <= buffer.Length
      && tail == (head + count) % buffer.Length
    }

    function Slot(i: nat): (s: nat)
      requires buffer.Length > 0
      reads this
      ensures s < buffer.Length
    {
      (head + i) % buffer.Length
    }

    /** All slots, used or not, in the order they come up from the head on. */
    ghost function Laid(): (c: seq<T>)
      requires Valid()
      reads this, buffer
      ensures |c| == buffer.Length
    {
      seq(buffer.Length, i requires 0 <= i && Valid() reads this, buffer => buffer[Slot(i)])
    }

    ghost function Contents(): (c: seq<T>)
      requires Valid()
      reads this, buffer
      ensures |c| == count
    {
      Laid()[..count]
    }

    constructor (capacity: nat, zero: T)
      requires capacity > 0
      ensures Valid() && fresh(buffer) && buffer.Length == capacity && count == 0 && head == 0
      ensures Laid() == seq(capacity, _ => zero)
    {
      buffer := new T[capacity](_ => zero);
      head, tail, count := 0, 0, 0;
    }

    method Tail() returns (slot: Option<nat>)
      requires Valid()
      ensures slot == if count == buffer.Length then None else Some(tail)
    {
      if buffer.Length == count { return None; }
      slot := Some(tail);
    }

    method Push() returns (slot: Option<nat>)
      requires Valid()
      modifies this`count, this`tail
      ensures Valid() && Laid() == old(Laid())
      ensures slot == if old(count) == buffer.Length then None else Some(old(tail))
      ensures slot.None? ==> count == old(count)
      ensures slot.Some? ==> slot.value < buffer.Length && Contents() == old(Contents()) + [buffer[slot.value]]
    {
      slot := Tail();
      if slot.Some? {
        ghost var was := Laid();
        assert tail == Slot(count);
        ModAdd(head + count, 1, buffer.Length);
        count := count + 1;
        tail := (tail + 1) % buffer.Length;
        assert Laid() == was;
      }
    }

    /** Filling the slot behind the last element touches no other slot. */
    method FillTail(x: T)
      requires Valid() && count < buffer.Length
      modifies buffer
      ensures Valid() && Laid() == old(Laid())[count := x] && buffer[tail] == x
    {
      buffer[tail] := x;
      forall j | 0 <= j < buffer.Length && j != count
        ensures Slot(j) != tail
      {
        SlotsDiffer(head, j, count, buffer.Length);
      }
    }

    /** The slots given up come last. */
    method Drop(n: nat) returns (ok: bool)
      requires Valid()
      modifies this`count, this`head
      ensures Valid() && ok == (n <= old(count))
      ensures ok ==> count == old(count) - n && Laid() == old(Laid())[n..] + old(Laid())[..n]
      ensures ok ==> Contents() == old(Contents())[n..] && head == (old(head) + n) % buffer.Length
      ensures !ok ==> count == old(count) && Laid() == old(Laid()) && head == old(head)
    {
      if count < n { return false; }
      ghost var was, h := Laid(), head;
      count := count - n;
      head := (head + n) % buffer.Length;
      forall i: nat
        ensures Slot(i) == (h + (n + i)) % buffer.Length
      {
        ModAdd(h + n, i, buffer.Length);
      }
      assert tail == Slot(count);
      forall i | 0 <= i < buffer.Length
        ensures Laid()[i] == (was[n..] + was[..n])[i]
      {
        if i >= buffer.Length - n { AddOnce(h + (n + i - buffer.Length), buffer.Length); }
      }
      ok := true;
    }

    method ElementAt(i: nat) returns (slot: Option<nat>)
      requires Valid()
      ensures slot == if i < count then Some(Slot(i)) else None
    {
      if i >= count { return None; }
      slot := Some((head + i) % buffer.Length);
    }

    method ContinualRangeLength(pred: T -> bool) returns (n: nat)
      requires Valid()
      ensures n <= count
      ensures forall i :: 0 <= i < n ==> pred(Contents()[i])
      ensures n < count ==> !pred(Contents()[n])
    {
      n := 0;
      for i := 0 to count
        invariant n == i
        invariant forall j :: 0 <= j < i ==> pred(Contents()[j])
      {
        var slot := ElementAt(i);
        if !pred(buffer[slot.value]) { break; }
        n := n + 1;
      }
    }

    /** Writing through a pointer to the i-th element changes that element only. */
    method Write(slot: nat, ghost i: nat, x: T)
      requires Valid() && i < count && slot == Slot(i)
      modifies buffer
      ensures Valid() && Laid() == old(Laid())[i := x] && Contents() == old(Contents())[i := x]
    {
      buffer[slot] := x;
      forall j | 0 <= j < buffer.Length && j != i
        ensures Slot(j) != slot
      {
        SlotsDiffer(head, i, j, buffer.Length);
      }
    }
  }
}
