/** The late ack tracker and the flow-control window of its source.  Messages are
    numbered in the order they are tracked.  Acks arrive in any order and from any
    thread, but only a contiguous range of acked records is released. */
module AckTracker {
  import opened Wrappers
  import opened RefWord

  /** A thread that has set its record's acked flag and waits for the tracker's lock. */
  datatype Pending = Pending(number: nat, ackType: AckType)

  /** `first` records have left the ring; `acked` are the flags of those still in it,
      so that record `first + i` is the ring's i-th.  `reserved` is between
      request_bookmark and track_msg, `sending` between track_msg and the decrement
      of the window; `suspended` says that the source was told to pause.  The rest is
      history: `done` are the numbers acked so far, `saves` the bookmarks saved, `lost`
      the window slots that SUSPENDED acks did not give back. */
  datatype State = State(capacity: nat, first: nat, acked: seq<bool>, reserved: bool, sending: bool,
                         window: int, suspended: bool, waiting: map<nat, Pending>,
                         done: set<nat>, saves: seq<nat>, lost: nat)

  /** The number of leading acked records. */
  function Range(acked: seq<bool>): nat { RangeFrom(acked, 0) }

  function RangeFrom(acked: seq<bool>, i: nat): (n: nat)
    requires i <= |acked|
    ensures i <= n <= |acked|
    ensures forall j :: i <= j < n ==> acked[j]
    ensures n < |acked| ==> !acked[n]
    decreases |acked| - i
  {
    if i == |acked| || !acked[i] then i else RangeFrom(acked, i + 1)
  }

  datatype Step =
    | Request
    | Track
    | Take
    | SetAcked(thread: nat, number: nat, ackType: AckType)
    | Release(thread: nat)

  /** The source asks for a bookmark only when its window is open, and one message at
      a time; a message is acked once. */
  predicate Enabled(s: State, a: Step) {
    match a
    case Request => !s.reserved && !s.sending && s.window > 0
    case Track => s.reserved
    case Take => s.sending
    case SetAcked(t, k, _) => t !in s.waiting && s.first <= k < s.first + |s.acked| && !s.acked[k - s.first]
    case Release(t) => t in s.waiting
  }

  function Next(s: State, a: Step): State
    requires Enabled(s, a)
  {
    match a
    case Request => s.(reserved := |s.acked| < s.capacity)
    case Track => s.(reserved := false, sending := true, acked := s.acked + [false])
    case Take => s.(sending := false, window := s.window - 1)
    case SetAcked(t, k, ty) =>
      s.(acked := s.acked[k - s.first := true], done := s.done + {k}, waiting := s.waiting[t := Pending(k, ty)])
    case Release(t) => Released(s.(waiting := s.waiting - {t}), s.waiting[t].ackType)
  }

  /** The locked section of manage_msg_ack. */
  function Released(s: State, ackType: AckType): State {
    var n := Range(s.acked);
    if n == 0 then s
    else s.(first := s.first + n, acked := s.acked[n..],
            saves := if ackType == Aborted then s.saves else s.saves + [s.first + n - 1],
            window := s.window + (if ackType == Suspended then 1 else n), suspended := ackType == Suspended,
            lost := s.lost + (if ackType == Suspended then n - 1 else 0))
  }

  function Initial(window: nat): State {
    State(window, 0, [], false, false, window, false, map[], {}, [], 0)
  }

  ghost predicate Increasing(saves: seq<nat>, bound: nat) {
    && (forall i, j :: 0 <= i < j < |saves| ==> saves[i] < saves[j])
    && forall i :: 0 <= i < |saves| ==> saves[i] < bound
  }

  /** The window is a credit counter. */
  ghost predicate CreditInv(s: State) {
    && s.window + |s.acked| + s.lost == s.capacity + (if s.sending then 1 else 0)
    && s.window >= (if s.reserved || s.sending then 1 else 0)
    && s.window + |s.acked| >= (if s.sending then 2 else 1)
    && !(s.reserved && s.sending)
    && (s.reserved ==> |s.acked| < s.capacity)
  }

  /** A record is in the ring until all records up to it have been acked. */
  ghost predicate RecordInv(s: State) {
    && (forall k :: 0 <= k < s.first ==> k in s.done)
    && (forall i :: 0 <= i < |s.acked| ==> (s.acked[i] <==> s.first + i in s.done))
    && (forall k :: k in s.done ==> k < s.first + |s.acked|)
    && Increasing(s.saves, s.first)
  }

  /** Nothing that could be released stays in the ring unless a thread is on its way. */
  ghost predicate ReleaseInv(s: State) {
    s.acked != [] && s.acked[0] ==> s.waiting != map[]
  }

  ghost predicate Inv(s: State) { CreditInv(s) && RecordInv(s) && ReleaseInv(s) }

  lemma ReleaseKeepsRecords(s: State, ackType: AckType)
    requires RecordInv(s)
    ensures RecordInv(Released(s, ackType))
  {
    hide RangeFrom;
    var r := Released(s, ackType);
    var n := Range(s.acked);
    RangeIs(s.acked);
    forall k | 0 <= k < r.first
      ensures k in r.done
    {
      if k >= s.first { assert s.acked[k - s.first]; }
    }
    forall i | 0 <= i < |r.acked|
      ensures r.acked[i] <==> r.first + i in r.done
    {
      assert r.acked[i] == s.acked[n + i];
    }
    SavesGrow(s.saves, s.first, n);
  }

  lemma RangeIs(acked: seq<bool>)
    ensures var n := Range(acked);
            n <= |acked| && (forall i :: 0 <= i < n ==> acked[i]) && (n < |acked| ==> !acked[n])
  {
  }

  lemma SavesGrow(saves: seq<nat>, first: nat, n: nat)
    requires Increasing(saves, first)
    ensures Increasing(saves, first + n)
    ensures n > 0 ==> Increasing(saves + [first + n - 1], first + n)
  {
  }

  lemma NextKeepsCredit(s: State, a: Step)
    requires CreditInv(s) && Enabled(s, a)
    ensures CreditInv(Next(s, a))
  {
    hide RangeFrom;
    if a.Release? {
      RangeIs(s.acked);
    }
  }

  lemma NextKeepsRecords(s: State, a: Step)
    requires RecordInv(s) && Enabled(s, a)
    ensures RecordInv(Next(s, a))
  {
    hide Released, Increasing;
    if a.Release? {
      ReleaseKeepsRecords(s.(waiting := s.waiting - {a.thread}), s.waiting[a.thread].ackType);
    }
  }

  lemma NextKeepsRelease(s: State, a: Step)
    requires ReleaseInv(s) && Enabled(s, a)
    ensures ReleaseInv(Next(s, a))
  {
    hide RangeFrom;
    match a
    case SetAcked(t, k, ty) => assert t in Next(s, a).waiting;
    case Release(t) => RangeIs(s.acked);
    case _ =>
  }

  lemma NextKeeps(s: State, a: Step)
    requires Inv(s) && Enabled(s, a)
    ensures Inv(Next(s, a))
  {
    hide CreditInv, RecordInv, ReleaseInv, Next;
    NextKeepsCredit(s, a);
    NextKeepsRecords(s, a);
    NextKeepsRelease(s, a);
  }

  ghost predicate Run(ss: seq<State>, steps: seq<Step>) {
    && |ss| == |steps| + 1 && ss[0].capacity >= 1 && ss[0] == Initial(ss[0].capacity)
    && forall i :: 0 <= i < |steps| ==> Enabled(ss[i], steps[i]) && ss[i + 1] == Next(ss[i], steps[i])
  }

  lemma {:induction false} RunKeeps(ss: seq<State>, steps: seq<Step>, i: nat)
    requires Run(ss, steps) && i < |ss|
    ensures Inv(ss[i]) && ss[i].capacity == ss[0].capacity
  {
    if i > 0 {
      RunKeeps(ss, steps, i - 1);
      NextKeeps(ss[i - 1], steps[i - 1]);
    }
  }

  /** A SUSPENDED ack that releases two or more records: it gives back only one slot. */
  predicate Loses(s: State, a: Step) {
    a.Release? && a.thread in s.waiting && s.waiting[a.thread].ackType == Suspended && Range(s.acked) >= 2
  }

  /** The slots that the first `i` steps did not give back. */
  ghost function Deficit(ss: seq<State>, steps: seq<Step>, i: nat): nat
    requires i <= |steps| < |ss|
  {
    if i == 0 then 0
    else Deficit(ss, steps, i - 1) + (if Loses(ss[i - 1], steps[i - 1]) then Range(ss[i - 1].acked) - 1 else 0)
  }

  lemma {:induction false} LostIs(ss: seq<State>, steps: seq<Step>, i: nat)
    requires Run(ss, steps) && i <= |steps|
    ensures ss[i].lost == Deficit(ss, steps, i)
    ensures Deficit(ss, steps, i) == 0 <==> forall k :: 0 <= k < i ==> !Loses(ss[k], steps[k])
  {
    hide Next, Loses;
    if i > 0 {
      LostIs(ss, steps, i - 1);
      StepLoses(ss[i - 1], steps[i - 1]);
    }
  }

  lemma StepLoses(s: State, a: Step)
    requires Enabled(s, a)
    ensures Next(s, a).lost == s.lost + (if Loses(s, a) then Range(s.acked) - 1 else 0)
    ensures Loses(s, a) ==> Range(s.acked) >= 2
  {
    hide RangeFrom;
    RangeIs(s.acked);
  }

  /** Over every run: bookmarks are saved in strictly increasing order and never
      before everything up to them has been acked; the records gone are exactly the
      first ones, so each leaves the ring once and in order; window and ring never
      exceed the initial window and make it up exactly as long as no SUSPENDED ack has
      released more than one record; and the source, which sends when the window is open,
      always finds a slot in the ring and a positive window. */
  lemma EveryRun(ss: seq<State>, steps: seq<Step>, i: nat)
    requires Run(ss, steps) && i < |ss|
    ensures var s := ss[i];
            && (forall a, b :: 0 <= a < b < |s.saves| ==> s.saves[a] < s.saves[b])
            && (forall a, k :: 0 <= a < |s.saves| && 0 <= k <= s.saves[a] ==> k in s.done)
            && (forall k :: 0 <= k < s.first ==> k in s.done)
            && (!s.sending ==> s.window + |s.acked| <= ss[0].capacity)
            && (!s.sending ==>
                  (s.window + |s.acked| == ss[0].capacity <==> forall k :: 0 <= k < i ==> !Loses(ss[k], steps[k])))
            && (Enabled(s, Request) ==> Next(s, Request).reserved)
            && (Enabled(s, Take) ==> s.window > 0)
  {
    hide RangeFrom, Loses;
    RunKeeps(ss, steps, i);
    LostIs(ss, steps, i);
    var s := ss[i];
    forall a, k | 0 <= a < |s.saves| && 0 <= k <= s.saves[a]
      ensures k in s.done
    {
      assert s.saves[a] < s.first;
    }
  }

  /** Once every message tracked has been acked and no ack is under way, the ring is
      empty and the window is open; it is back to its initial size if and only if no
      SUSPENDED ack released more than one record, and else short by the other records
      those acks released. */
  lemma EverythingComesBack(ss: seq<State>, steps: seq<Step>, i: nat)
    requires Run(ss, steps) && i < |ss|
    requires ss[i].waiting == map[] && !ss[i].sending
    requires forall k :: 0 <= k < ss[i].first + |ss[i].acked| ==> k in ss[i].done
    ensures ss[i].acked == [] && ss[i].window == ss[0].capacity - Deficit(ss, steps, i) >= 1
    ensures ss[i].window == ss[0].capacity <==> forall k :: 0 <= k < i ==> !Loses(ss[k], steps[k])
  {
    hide RangeFrom, Loses, Deficit;
    RunKeeps(ss, steps, i);
    LostIs(ss, steps, i);
    assert ss[i].first + 0 in ss[i].done || ss[i].acked == [];
  }

  /** The step takes the lock for an ack and finds the oldest record acked. */
  predicate FreesRecords(s: State, a: Step) { a.Release? && a.thread in s.waiting && s.acked != [] && s.acked[0] }

  /** The type of the last ack that released records in the first `i` steps. */
  ghost function LastType(ss: seq<State>, steps: seq<Step>, i: nat): Option<AckType>
    requires i <= |steps| < |ss|
  {
    if i == 0 then None
    else if FreesRecords(ss[i - 1], steps[i - 1]) then Some(ss[i - 1].waiting[steps[i - 1].thread].ackType)
    else LastType(ss, steps, i - 1)
  }

  /** The last records released by those acks that were not ABORTED. */
  ghost function Bookmarks(ss: seq<State>, steps: seq<Step>, i: nat): seq<int>
    requires i <= |steps| < |ss|
  {
    if i == 0 then []
    else Bookmarks(ss, steps, i - 1) +
         if FreesRecords(ss[i - 1], steps[i - 1]) && ss[i - 1].waiting[steps[i - 1].thread].ackType != Aborted
         then [ss[i].first - 1] else []
  }

  /** Over every run: the source is suspended exactly when the last ack that released records
      was SUSPENDED, and the bookmarks saved are those of the releases that were not ABORTED. */
  lemma {:induction false} SavedAndSuspended(ss: seq<State>, steps: seq<Step>, i: nat)
    requires Run(ss, steps) && i < |ss|
    ensures ss[i].suspended <==> LastType(ss, steps, i) == Some(Suspended)
    ensures ss[i].saves == Bookmarks(ss, steps, i)
  {
    hide Next;
    if i > 0 {
      SavedAndSuspended(ss, steps, i - 1);
      StepSaves(ss[i - 1], steps[i - 1]);
    }
  }

  lemma StepSaves(s: State, a: Step)
    requires Enabled(s, a)
    ensures var n := Next(s, a);
            if FreesRecords(s, a) then
              var ty := s.waiting[a.thread].ackType;
              n.suspended == (ty == Suspended) && n.saves == s.saves + if ty == Aborted then [] else [n.first - 1]
            else n.suspended == s.suspended && n.saves == s.saves
  {
    hide RangeFrom;
    RangeIs(s.acked);
  }

  lemma Extended(ss: seq<State>, steps: seq<Step>, a: Step)
    requires Run(ss, steps) && Enabled(ss[|steps|], a)
    ensures Run(ss + [Next(ss[|steps|], a)], steps + [a])
  {
    hide Next, Enabled;
  }

  /** One message from the request of its bookmark to the decrement of the window. */
  lemma SendOne(ss: seq<State>, steps: seq<Step>) returns (ss': seq<State>, steps': seq<Step>)
    requires Run(ss, steps) && Enabled(ss[|steps|], Request) && |ss[|steps|].acked| < ss[|steps|].capacity
    ensures Run(ss', steps') && |ss| <= |ss'| && ss'[0] == ss[0] && steps' == steps + [Request, Track, Take]
    ensures var s := ss[|steps|]; ss'[|steps'|] == s.(acked := s.acked + [false], window := s.window - 1)
  {
    ss', steps' := ss, steps;
    Extended(ss', steps', Request);
    ss', steps' := ss' + [Next(ss'[|steps'|], Request)], steps' + [Request];
    Extended(ss', steps', Track);
    ss', steps' := ss' + [Next(ss'[|steps'|], Track)], steps' + [Track];
    Extended(ss', steps', Take);
    ss', steps' := ss' + [Next(ss'[|steps'|], Take)], steps' + [Take];
  }

  /** Both steps of manage_msg_ack with nobody in between. */
  lemma AckOne(ss: seq<State>, steps: seq<Step>, number: nat, ackType: AckType)
      returns (ss': seq<State>, steps': seq<Step>)
    requires Run(ss, steps) && ss[|steps|].waiting == map[] && Enabled(ss[|steps|], SetAcked(1, number, ackType))
    ensures Run(ss', steps') && |ss| <= |ss'| && ss'[0] == ss[0]
            && steps' == steps + [SetAcked(1, number, ackType), Release(1)]
    ensures var s := ss[|steps|];
            ss'[|steps'|] == Released(s.(acked := s.acked[number - s.first := true], done := s.done + {number}),
                ackType)
  {
    ss', steps' := ss, steps;
    var s := ss[|steps|];
    var ack := SetAcked(1, number, ackType);
    Extended(ss', steps', ack);
    ss', steps' := ss' + [Next(s, ack)], steps' + [ack];
    Extended(ss', steps', Release(1));
    assert Next(s, ack).waiting - {1} == map[];
    ss', steps' := ss' + [Next(Next(s, ack), Release(1))], steps' + [Release(1)];
  }

  /** Two messages are sent; the younger is acked first, the older one SUSPENDED: both
      records leave the ring and one slot of the window never comes back. */
  lemma SuspendedAckLosesASlot() returns (ss: seq<State>, steps: seq<Step>)
    ensures Run(ss, steps) && ss[0] == Initial(2)
    ensures steps == [Request, Track, Take, Request, Track, Take, SetAcked(1, 1, Processed), Release(1),
                      SetAcked(1, 0, Suspended), Release(1)]
    ensures ss[10] == State(2, 2, [], false, false, 1, true, map[], {0, 1}, [1], 1)
  {
    hide Run, RangeFrom, Next;
    ss, steps := TwoSent();
    ss, steps := AckOne(ss, steps, 1, Processed);
    Younger();
    ss, steps := AckOne(ss, steps, 0, Suspended);
    Older();
  }

  lemma Younger()
    ensures var s := State(2, 0, [false, false], false, false, 0, false, map[], {}, [], 0);
            Released(s.(acked := s.acked[1 := true], done := s.done + {1}), Processed) ==
            State(2, 0, [false, true], false, false, 0, false, map[], {1}, [], 0)
  {
    RangeIs([false, true]);
    assert [false, false][1 := true] == [false, true];
  }

  lemma Older()
    ensures var s := State(2, 0, [false, true], false, false, 0, false, map[], {1}, [], 0);
            Released(s.(acked := s.acked[0 := true], done := s.done + {0}), Suspended) ==
            State(2, 2, [], false, false, 1, true, map[], {0, 1}, [1], 1)
  {
    RangeIs([true, true]);
    assert [false, true][0 := true] == [true, true];
  }

  lemma TwoSent() returns (ss: seq<State>, steps: seq<Step>)
    ensures Run(ss, steps) && ss[0] == Initial(2)
    ensures steps == [Request, Track, Take, Request, Track, Take]
    ensures ss[6] == State(2, 0, [false, false], false, false, 0, false, map[], {}, [], 0)
  {
    ss, steps := [Initial(2)], [];
    ss, steps := SendOne(ss, steps);
    assert [] + [false] == [false] && [false] + [false] == [false, false];
    ss, steps := SendOne(ss, steps);
  }
}
