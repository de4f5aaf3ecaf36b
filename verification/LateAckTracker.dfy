/** The tracker as the code has it: records in a ring buffer, flags set through
    pointers, a loop that clears the released range, and the window of the source.
    Every method is one step, or two, of the machine in AckTracker. */
module LateAckTracker {
  import opened Wrappers
  import opened RefWord
  import opened RingBuffer
  import opened AckTracker

  datatype Record = Record(acked: bool, bookmark: Option<nat>)

  /** The ring's records are those of the machine's state ... */
  ghost predicate Matches(records: seq<Record>, first: nat, acked: seq<bool>, positions: seq<nat>) {
    && |positions| == first + |acked| && |records| == |acked|
    && forall i :: 0 <= i < |records| ==> records[i] == Record(acked[i], Some(positions[first + i]))
  }

  /** ... and so are the saved bookmarks. */
  ghost predicate Saved(saved: seq<nat>, saves: seq<nat>, positions: seq<nat>) {
    && |saved| == |saves|
    && forall i :: 0 <= i < |saved| ==> saves[i] < |positions| && saved[i] == positions[saves[i]]
  }

  /** A record that is not in use is ready for use: its flag is off. */
  ghost predicate Spare(slots: seq<Record>, count: nat) {
    forall i :: count <= i < |slots| ==> !slots[i].acked
  }

  lemma MatchesDrop(records: seq<Record>, n: nat, first: nat, acked: seq<bool>, positions: seq<nat>)
    requires Matches(records, first, acked, positions) && n <= |acked|
    ensures Matches(records[n..], first + n, acked[n..], positions)
  {
  }

  lemma MatchesAt(records: seq<Record>, i: nat, first: nat, acked: seq<bool>, positions: seq<nat>)
    requires Matches(records, first, acked, positions) && i < |acked|
    ensures i < |records| && first + i < |positions| && records[i] == Record(acked[i], Some(positions[first + i]))
  {
  }

  lemma SavedNext(saved: seq<nat>, saves: seq<nat>, positions: seq<nat>, k: nat)
    requires Saved(saved, saves, positions) && k < |positions|
    ensures Saved(saved + [positions[k]], saves + [k], positions)
  {
  }

  /** The machine's state after the first `n` messages were released. */
  ghost predicate Releases(s: State, n: nat, ackType: AckType, done: State) {
    && 0 < n <= |s.acked| && done.first == s.first + n && done.acked == s.acked[n..]
    && done.saves == (if ackType == Aborted then s.saves else s.saves + [s.first + n - 1])
    && done.window == s.window + (if ackType == Suspended then 1 else n) && done.suspended == (ackType == Suspended)
    && done.capacity == s.capacity && done.reserved == s.reserved
  }

  /** The locked section releases all messages up to the first that is not acked yet. */
  lemma ReleaseForm(s: State, t: nat)
    requires Enabled(s, Release(t))
    ensures var n, d := Range(s.acked), Next(s, Release(t));
            && (n > 0 ==> Releases(s, n, s.waiting[t].ackType, d))
            && (n == 0 ==> d == s.(waiting := d.waiting, lost := d.lost))
  {
  }

  /** The records and saved bookmarks after that. */
  lemma KeptReleased(records: seq<Record>, saved: seq<nat>, positions: seq<nat>, s: State, n: nat, ackType: AckType,
                     done: State)
    requires Matches(records, s.first, s.acked, positions) && Saved(saved, s.saves, positions)
    requires Releases(s, n, ackType, done)
    ensures n <= |records| == |s.acked| && records[n - 1].bookmark.Some?
    ensures Matches(records[n..], done.first, done.acked, positions)
    ensures Saved(if ackType == Aborted then saved else saved + [records[n - 1].bookmark.value], done.saves, positions)
  {
    hide Matches, Saved;
    MatchesAt(records, n - 1, s.first, s.acked, positions);
    MatchesDrop(records, n, s.first, s.acked, positions);
    SavedNext(saved, s.saves, positions, s.first + n - 1);
  }

  /** One more message tracked. */
  lemma MatchesTracked(records: seq<Record>, first: nat, acked: seq<bool>, positions: seq<nat>, position: nat)
    requires Matches(records, first, acked, positions)
    ensures Matches(records + [Record(false, Some(position))], first, acked + [false], positions + [position])
    ensures |records| == |acked|
  {
  }

  lemma SavedLonger(saved: seq<nat>, saves: seq<nat>, positions: seq<nat>, position: nat)
    requires Saved(saved, saves, positions)
    ensures Saved(saved, saves, positions + [position])
  {
  }

  lemma SpareTaken(slots: seq<Record>, count: nat, r: Record)
    requires Spare(slots, count) && count < |slots|
    ensures !slots[count].acked && Spare(slots[count := r], count + 1)
  {
  }

  lemma MatchesAcked(records: seq<Record>, i: nat, first: nat, acked: seq<bool>, positions: seq<nat>)
    requires Matches(records, first, acked, positions) && i < |acked|
    ensures i < |records| && Matches(records[i := records[i].(acked := true)], first, acked[i := true], positions)
  {
  }

  class Tracker {
    const ring: Ring<Record>
    var pending: Option<nat>
    var window: int
    var suspended: bool
    /** The positions written to the persistent state, in order. */
    var saved: seq<nat>
    ghost var st: State
    ghost var records: seq<Record>
    /** The position of every message ever tracked. */
    ghost var positions: seq<nat>

    ghost predicate Valid()
      reads this, ring, ring.buffer
    {
      && ring.Valid() && ring.buffer.Length == st.capacity && ring.head == st.first % st.capacity
      && Spare(ring.Laid(), ring.count)
      && ring.Contents() == records && Matches(records, st.first, st.acked, positions)
      && Saved(saved, st.saves, positions)
      && pending == (if st.reserved then Some(ring.tail) else None)
      && (st.reserved ==> ring.count < ring.buffer.Length)
      && window == st.window && suspended == st.suspended
    }

    constructor (initWindow: nat)
      requires initWindow > 0
      ensures Valid() && fresh(ring) && fresh(ring.buffer) && st == Initial(initWindow)
    {
      ring := new Ring(initWindow, Record(false, None));
      pending, window, suspended, saved := None, initWindow, false, [];
      st, records, positions := Initial(initWindow), [], [];
    }

    /** A source that keeps to its window always gets a slot. */
    method RequestBookmark() returns (slot: Option<nat>)
      requires Valid() && Enabled(st, Request)
      modifies this`pending, this`st
      ensures Valid() && st == Next(old(st), Request)
      ensures slot == if ring.count == ring.buffer.Length then None else Some(ring.tail)
      ensures CreditInv(old(st)) ==> slot.Some?
    {
      pending := ring.Tail();
      st := Next(st, Request);
      slot := pending;
    }

    /** `position` is what the source stored in the bookmark it had requested; the
        slot returned is the message's ack record.  Nobody touches its flag here. */
    method TrackMsg(position: nat) returns (slot: nat)
      requires Valid() && Enabled(st, Track)
      modifies this`pending, this`st, this`records, this`positions, ring`count, ring`tail, ring.buffer
      ensures Valid() && st == Next(old(st), Track) && positions == old(positions) + [position]
      ensures slot == (st.first + |st.acked| - 1) % st.capacity
    {
      hide Saved, Matches, Spare;
      ModAdd(st.first, |st.acked|, st.capacity);
      MatchesTracked(records, st.first, st.acked, positions, position);
      SavedLonger(saved, st.saves, positions, position);
      SpareTaken(ring.Laid(), ring.count, Record(false, Some(position)));
      slot := pending.value;
      assert ring.buffer[slot] == ring.Laid()[ring.count];
      ring.FillTail(ring.buffer[slot].(bookmark := Some(position)));
      var pushed := ring.Push();
      assert pushed == pending;
      pending := None;
      records, positions := records + [Record(false, Some(position))], positions + [position];
      st := Next(st, Track);
    }

    /** The window decrement of log_source_queue() with its assertion. */
    method TakeSlot() returns (oldWindow: int)
      requires Valid() && Enabled(st, Take)
      modifies this`window, this`st
      ensures Valid() && st == Next(old(st), Take)
      ensures CreditInv(old(st)) ==> oldWindow > 0
    {
      oldWindow := window;
      window := window - 1;
      st := Next(st, Take);
    }

    /** The ack of message `number`, whose record is in `slot`, made by thread `t`:
        its flag is set before the lock is taken. */
    method MarkAcked(slot: nat, ghost ackType: AckType, ghost number: nat, ghost t: nat)
      requires Valid() && Enabled(st, SetAcked(t, number, ackType)) && slot == number % st.capacity
      modifies this`st, this`records, ring.buffer
      ensures Valid() && st == Next(old(st), SetAcked(t, number, ackType))
    {
      hide Matches, Saved;
      ghost var i := number - st.first;
      ModAdd(st.first, i, st.capacity);
      MatchesAcked(records, i, st.first, st.acked, positions);
      assert ring.buffer[slot] == ring.Contents()[i];
      ring.Write(slot, i, ring.buffer[slot].(acked := true));
      records := records[i := records[i].(acked := true)];
      st := Next(st, SetAcked(t, number, ackType));
    }

    method ContinuousRangeLength() returns (n: nat)
      requires Valid()
      ensures n == Range(st.acked)
    {
      n := ring.ContinualRangeLength((r: Record) => r.acked);
      RangeIsUnique(ring.Contents(), st.acked, n);
    }

    /** The locked section. */
    method ReleaseRange(ackType: AckType, ghost t: nat)
      requires Valid() && Enabled(st, Release(t)) && st.waiting[t].ackType == ackType
      modifies this`window, this`suspended, this`saved, this`st, this`records, ring`head, ring`count, ring.buffer
      ensures Valid() && st == Next(old(st), Release(t))
    {
      hide Next, Releases, Matches, Saved, Spare;
      ReleaseForm(st, t);
      var n := ContinuousRangeLength();
      if n > 0 {
        ReleaseSome(n, ackType, Next(st, Release(t)));
      } else {
        st := Next(st, Release(t));
      }
    }

    method ReleaseSome(n: nat, ackType: AckType, ghost done: State)
      requires Valid() && Releases(st, n, ackType, done)
      modifies this`window, this`suspended, this`saved, this`st, this`records, ring`head, ring`count, ring.buffer
      ensures Valid() && st == done
    {
      hide Matches, Saved, Spare, ring.Laid, ring.Contents;
      KeptReleased(records, saved, positions, st, n, ackType, done);
      var last := ring.ElementAt(n - 1);
      SaveAndDrop(n, last.value, ackType != Aborted);
      if ackType == Suspended { FlowControlSuspend(); } else { FlowControlAdjust(n); }
      records := records[n..];
      st := done;
    }

    method SaveAndDrop(n: nat, last: nat, save: bool)
      requires ring.Valid() && 0 < n <= ring.count && last == ring.Slot(n - 1) && ring.Contents()[n - 1].bookmark.Some?
      requires ring.buffer.Length == st.capacity && ring.head == st.first % st.capacity
               && Spare(ring.Laid(), ring.count)
      modifies this`saved, ring`head, ring`count, ring.buffer
      ensures ring.Valid() && ring.Contents() == old(ring.Contents())[n..] && Spare(ring.Laid(), ring.count)
      ensures ring.count == old(ring.count) - n && ring.head == (st.first + n) % st.capacity
      ensures saved == if save then old(saved) + [old(ring.Contents())[n - 1].bookmark.value] else old(saved)
    {
      ModAdd(st.first, n, st.capacity);
      if save {
        saved := saved + [ring.buffer[last].bookmark.value];
      }
      DropRange(n);
    }

    method ManageMsgAck(slot: nat, ackType: AckType, ghost number: nat, ghost t: nat)
      requires Valid() && Enabled(st, SetAcked(t, number, ackType)) && slot == number % st.capacity
      modifies this`window, this`suspended, this`saved, this`st, this`records, ring`head, ring`count, ring.buffer
      ensures Valid() && st == Next(Next(old(st), SetAcked(t, number, ackType)), Release(t))
    {
      MarkAcked(slot, ackType, number, t);
      ReleaseRange(ackType, t);
    }

    /** The records given up are cleared, so that their slots can be used again. */
    method DropRange(n: nat)
      requires ring.Valid() && n <= ring.count && Spare(ring.Laid(), ring.count)
      modifies ring`head, ring`count, ring.buffer
      ensures ring.Valid() && ring.Contents() == old(ring.Contents())[n..] && Spare(ring.Laid(), ring.count)
      ensures ring.count == old(ring.count) - n && ring.head == (old(ring.head) + n) % ring.buffer.Length
    {
      for i := 0 to n
        invariant ring.Valid() && ring.count == old(ring.count) && ring.head == old(ring.head)
        invariant forall j :: 0 <= j < i ==> ring.Laid()[j] == Record(false, None)
        invariant ring.Laid()[n..] == old(ring.Laid())[n..]
      {
        var slot := ring.ElementAt(i);
        ring.Write(slot.value, i, Record(false, None));
      }
      ghost var cleared := ring.Laid();
      assert cleared[..ring.count][n..] == cleared[n..][..ring.count - n];
      var ok := ring.Drop(n);
    }

    method FlowControlAdjust(n: nat)
      modifies this`window, this`suspended
      ensures window == old(window) + n
      ensures !suspended
    {
      var oldWindow := window;
      window := window + n;
      if oldWindow == 0 || suspended { suspended := false; }
    }

    method FlowControlSuspend()
      modifies this`window, this`suspended
      ensures window == old(window) + 1 && suspended
    {
      FlowControlAdjust(1);
      suspended := true;
    }
  }

  lemma RangeIsUnique(records: seq<Record>, acked: seq<bool>, n: nat)
    requires n <= |records| == |acked| && forall i :: 0 <= i < |records| ==> records[i].acked == acked[i]
    requires (forall i :: 0 <= i < n ==> records[i].acked) && (n < |records| ==> !records[n].acked)
    ensures n == Range(acked)
  {
    assert n < |acked| ==> records[n].acked == acked[n];
  }
}
