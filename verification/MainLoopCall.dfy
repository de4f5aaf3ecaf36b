/** Calls from worker threads into the main loop: a shared list of call sites, one
    site per thread, a posted event, and a condition each thread waits on.

    `main_task_lock` is modelled by its owner; the sections under a site's own lock
    are single steps.  Reading `pending` in a wait loop and going to sleep are two
    steps, with the main thread free to act in between. */
module MainLoopCall {
  import opened Wrappers

  /** Where a worker thread is in main_loop_call().  `first` tells the loop that waits
      for an earlier call of the same thread from the one that waits for its own. */
  datatype Pc =
    | Idle
    | WantLock
    | Check
    | Loop(first: bool)
    | Nap(first: bool)
    | Asleep(first: bool)
    | Waking(first: bool)
    | Fill
    | Leave
    | Return

  /** A thread with its call site.  `call` is the call it is making, `wants` whether
      the caller asked to wait; `site` is the call stored in the call site. */
  datatype Thread = Thread(pc: Pc, call: nat, wants: bool,
                           pending: bool, wait: bool, site: nat, result: nat)

  datatype MainPc = MIdle | MWant | MHold | MRun(t: nat) | MRan(t: nat, result: nat) | MDone(t: nat)

  datatype Owner = Main | Worker(t: nat)

  /** Call `c` was made by thread `callers[c]`.  `filed` lists the calls put into a call
      site, `runs` the calls executed, and `returned` pairs each finished waiting call with
      the result it got; the result of running call `c` is `c` itself. */
  datatype State = State(threads: seq<Thread>, lock: Option<Owner>, queue: seq<nat>, posted: bool, main: MainPc,
                         callers: seq<nat>, filed: seq<nat>, runs: seq<nat>, returned: seq<(nat, nat)>)

  datatype Step =
    | Begin(t: nat, wants: bool)
    | Lock(t: nat)
    | CheckSite(t: nat)
    | ReadPending(t: nat)
    | Sleep(t: nat)
    | Spurious(t: nat)
    | Relock(t: nat)
    | FillSite(t: nat)
    | Unlock(t: nat)
    | End(t: nat)
    | MWake
    | MLock
    | MTake
    | MExecute
    | MFinish
    | MSignal

  predicate Enabled(s: State, a: Step) {
    match a
    case Begin(t, _) => t < |s.threads| && s.threads[t].pc == Idle
    case Lock(t) => t < |s.threads| && s.threads[t].pc == WantLock && s.lock == None
    case CheckSite(t) => t < |s.threads| && s.threads[t].pc == Check
    case ReadPending(t) => t < |s.threads| && s.threads[t].pc.Loop?
    case Sleep(t) => t < |s.threads| && s.threads[t].pc.Nap?
    case Spurious(t) => t < |s.threads| && s.threads[t].pc.Asleep?
    case Relock(t) => t < |s.threads| && s.threads[t].pc.Waking? && s.lock == None
    case FillSite(t) => t < |s.threads| && s.threads[t].pc == Fill
    case Unlock(t) => t < |s.threads| && s.threads[t].pc == Leave
    case End(t) => t < |s.threads| && s.threads[t].pc == Return
    case MWake => s.main == MIdle && s.posted
    case MLock => s.main == MWant && s.lock == None
    case MTake => s.main == MHold
    case MExecute => s.main.MRun? && s.main.t < |s.threads|
    case MFinish => s.main.MRan? && s.main.t < |s.threads|
    case MSignal => s.main.MDone? && s.main.t < |s.threads| && s.lock == None
  }

  function Put(s: State, t: nat, th: Thread): State
    requires t < |s.threads|
  {
    s.(threads := s.threads[t := th])
  }

  function Next(s: State, a: Step): State
    requires Enabled(s, a)
  {
    match a
    case Begin(t, w) =>
      Put(s, t, s.threads[t].(pc := WantLock, call := |s.callers|, wants := w)).(callers := s.callers + [t])
    case Lock(t) => Put(s, t, s.threads[t].(pc := Check)).(lock := Some(Worker(t)))
    case CheckSite(t) =>
      var th := s.threads[t];
      if th.pending then Put(s, t, th.(pc := Loop(true), wait := true)) else Put(s, t, th.(pc := Fill))
    case ReadPending(t) =>
      var th := s.threads[t];
      Put(s, t, th.(pc := if th.pending then Nap(th.pc.first) else if th.pc.first then Fill else Leave))
    case Sleep(t) => Put(s, t, s.threads[t].(pc := Asleep(s.threads[t].pc.first))).(lock := None)
    case Spurious(t) => Put(s, t, s.threads[t].(pc := Waking(s.threads[t].pc.first)))
    case Relock(t) => Put(s, t, s.threads[t].(pc := Loop(s.threads[t].pc.first))).(lock := Some(Worker(t)))
    case FillSite(t) =>
      var th := s.threads[t];
      Put(s, t, th.(pending := true, site := th.call, wait := th.wants, pc := if th.wants then Loop(false) else Leave))
      .(queue := [t] + s.queue, posted := true, filed := s.filed + [th.call])
    case Unlock(t) => Put(s, t, s.threads[t].(pc := Return)).(lock := None)
    case End(t) =>
      var th := s.threads[t];
      Put(s, t, th.(pc := Idle)).(returned := if th.wants then s.returned + [(th.call, th.result)] else s.returned)
    case MWake => s.(main := MWant, posted := false)
    case MLock => s.(main := MHold, lock := Some(Main))
    case MTake =>
      if s.queue == [] then s.(main := MIdle, lock := None)
      else s.(main := MRun(s.queue[0]), queue := s.queue[1..], lock := None)
    case MExecute =>
      var c := s.threads[s.main.t].site;
      s.(main := MRan(s.main.t, c), runs := s.runs + [c])
    case MFinish =>
      Put(s, s.main.t, s.threads[s.main.t].(result := s.main.result, pending := false)).(main := MDone(s.main.t))
    case MSignal =>
      var th := s.threads[s.main.t];
      var woken := if th.wait && th.pc.Asleep? then Put(s, s.main.t, th.(pc := Waking(th.pc.first))) else s;
      woken.(main := MHold, lock := Some(Main))
  }

  // ----- what every step keeps

  predicate HoldsLock(pc: Pc) {
    pc == Check || pc.Loop? || pc.Nap? || pc == Fill || pc == Leave
  }

  predicate InLoop(pc: Pc) { pc.Loop? || pc.Nap? || pc.Asleep? || pc.Waking? }

  /** The call site is in the hands of the main loop. */
  predicate Running(s: State, t: nat) {
    s.main == MRun(t) || (s.main.MRan? && s.main.t == t)
  }

  ghost predicate ThreadInv(s: State, t: nat)
    requires t < |s.threads|
  {
    var th := s.threads[t];
    && (s.lock == Some(Worker(t)) <==> HoldsLock(th.pc))
    && (th.pending <==> t in s.queue || Running(s, t))
    && (InLoop(th.pc) ==> th.wait)
    // going to sleep or asleep: the call is still to run, or the main thread is about to signal
    && ((th.pc.Nap? || th.pc.Asleep?) && !th.pending ==> s.main == MDone(t))
    && (th.pc == Fill ==> !th.pending)
    && (InLoop(th.pc) && !th.pc.first ==> th.wants && th.site == th.call)
    && (InLoop(th.pc) && !th.pc.first && !th.pending ==> th.result == th.site)
    && (th.pc in {Leave, Return} && th.wants ==> !th.pending && th.result == th.call)
    && (s.main.MRan? && s.main.t == t ==> s.main.result == th.site)
  }

  ghost predicate QueueInv(s: State) {
    && (forall i :: 0 <= i < |s.queue| ==> s.queue[i] < |s.threads|)
    && (forall i, j :: 0 <= i < j < |s.queue| ==> s.queue[i] != s.queue[j])
    && (s.main.MRun? || s.main.MRan? || s.main.MDone? ==> s.main.t < |s.threads|)
    && (s.main.MRun? || s.main.MRan? ==> s.main.t !in s.queue)
    && (s.queue != [] ==> s.posted || s.main != MIdle)
    && (s.lock == Some(Main) <==> s.main == MHold)
    && (s.lock.Some? && s.lock.value.Worker? ==> s.lock.value.t < |s.threads|)
  }

  /** The call stored in the site of `t` has not been executed yet. */
  predicate Waiting(s: State, t: nat) {
    t in s.queue || s.main == MRun(t)
  }

  predicate Unfiled(pc: Pc) { pc in {WantLock, Check, Fill} || (InLoop(pc) && pc.first) }

  ghost predicate CallInv(s: State, t: nat)
    requires t < |s.threads|
  {
    var th := s.threads[t];
    && (th.pc != Idle ==> th.call < |s.callers| && s.callers[th.call] == t)
    && (Waiting(s, t) ==> th.site < |s.callers| && s.callers[th.site] == t && th.site in s.filed && th.site !in s.runs)
    && (Unfiled(th.pc) ==> th.call !in s.runs && th.call !in s.filed && (Waiting(s, t) ==> th.site != th.call))
    && (th.pc != Idle && !Unfiled(th.pc) ==> th.site == th.call && th.call in s.filed)
  }

  ghost predicate HistoryInv(s: State) {
    && (forall i :: 0 <= i < |s.callers| ==> s.callers[i] < |s.threads|)
    && (forall i, j :: 0 <= i < j < |s.runs| ==> s.runs[i] != s.runs[j])
    && (forall c :: c in s.runs ==> c in s.filed)
    && (forall c :: c in s.filed ==> c < |s.callers|)
    && (forall c :: c in s.filed && c !in s.runs ==> s.threads[s.callers[c]].site == c && Waiting(s, s.callers[c]))
  }

  predicate Rewarded(s: State) {
    forall i :: 0 <= i < |s.returned| ==> s.returned[i].0 == s.returned[i].1 && s.returned[i].0 in s.runs
  }

  ghost predicate Calls(s: State) {
    HistoryInv(s) && Rewarded(s) && forall t :: 0 <= t < |s.threads| ==> CallInv(s, t)
  }

  ghost predicate Inv(s: State) {
    QueueInv(s) && forall t :: 0 <= t < |s.threads| ==> ThreadInv(s, t)
  }

  lemma EnterOrLeaveKeeps(s: State, a: Step, t: nat)
    requires Inv(s) && Enabled(s, a)
    requires a in {Begin(t, false), Begin(t, true), Unlock(t), End(t)}
    ensures Inv(Next(s, a))
  {
    var n := Next(s, a);
    assert ThreadInv(s, t);
    forall u | 0 <= u < |n.threads|
      ensures ThreadInv(n, u)
    {
      assert ThreadInv(s, u);
    }
  }

  lemma LockKeeps(s: State, a: Step, t: nat)
    requires Inv(s) && Enabled(s, a)
    requires a in {Lock(t), CheckSite(t), Relock(t)}
    ensures Inv(Next(s, a))
  {
    var n := Next(s, a);
    assert ThreadInv(s, t);
    forall u | 0 <= u < |n.threads|
      ensures ThreadInv(n, u)
    {
      assert ThreadInv(s, u);
    }
  }

  lemma SleepKeeps(s: State, a: Step, t: nat)
    requires Inv(s) && Enabled(s, a)
    requires a in {ReadPending(t), Sleep(t), Spurious(t)}
    ensures Inv(Next(s, a))
  {
    var n := Next(s, a);
    assert ThreadInv(s, t);
    forall u | 0 <= u < |n.threads|
      ensures ThreadInv(n, u)
    {
      assert ThreadInv(s, u);
    }
  }

  lemma FillKeeps(s: State, t: nat)
    requires Inv(s) && Enabled(s, FillSite(t))
    ensures Inv(Next(s, FillSite(t)))
  {
    var n := Next(s, FillSite(t));
    assert ThreadInv(s, t);
    assert forall u :: u in n.queue <==> u == t || u in s.queue;
    forall u | 0 <= u < |n.threads|
      ensures ThreadInv(n, u)
    {
      assert ThreadInv(s, u);
    }
  }

  lemma TakeKeeps(s: State)
    requires Inv(s) && Enabled(s, MTake)
    ensures Inv(Next(s, MTake))
  {
    var n := Next(s, MTake);
    if s.queue != [] {
      assert forall u :: u in s.queue <==> u == s.queue[0] || u in n.queue;
      assert s.queue[0] !in n.queue;
    }
    forall u | 0 <= u < |n.threads|
      ensures ThreadInv(n, u)
    {
      assert ThreadInv(s, u);
    }
  }

  lemma MainKeeps(s: State, a: Step)
    requires Inv(s) && Enabled(s, a)
    requires a in {MWake, MLock, MExecute, MFinish, MSignal}
    ensures Inv(Next(s, a))
  {
    var n := Next(s, a);
    forall u | 0 <= u < |n.threads|
      ensures ThreadInv(n, u)
    {
      assert ThreadInv(s, u);
    }
  }

  lemma NextKeeps(s: State, a: Step)
    requires Inv(s) && Enabled(s, a)
    ensures Inv(Next(s, a))
  {
    match a
    case FillSite(t) => FillKeeps(s, t);
    case MTake => TakeKeeps(s);
    case Begin(t, w) => EnterOrLeaveKeeps(s, Begin(t, w), t);
    case Lock(t) => LockKeeps(s, a, t);
    case CheckSite(t) => LockKeeps(s, a, t);
    case ReadPending(t) => SleepKeeps(s, a, t);
    case Sleep(t) => SleepKeeps(s, a, t);
    case Spurious(t) => SleepKeeps(s, a, t);
    case Relock(t) => LockKeeps(s, a, t);
    case Unlock(t) => EnterOrLeaveKeeps(s, a, t);
    case End(t) => EnterOrLeaveKeeps(s, a, t);
    case _ => MainKeeps(s, a);
  }

  /** A step that moves only thread `t` and neither files nor executes a call. */
  lemma QuietKeeps(s: State, n: State, t: nat)
    requires Calls(s)
    requires |n.threads| == |s.threads| && n.filed == s.filed && n.runs == s.runs && s.callers <= n.callers
    requires forall i :: |s.callers| <= i < |n.callers| ==> n.callers[i] < |n.threads|
    requires forall u :: 0 <= u < |s.threads| ==>
               n.threads[u].site == s.threads[u].site && Waiting(n, u) == Waiting(s, u)
    requires forall u :: 0 <= u < |s.threads| && u != t ==> n.threads[u] == s.threads[u]
    requires t < |n.threads| ==> CallInv(n, t)
    ensures HistoryInv(n) && forall u :: 0 <= u < |n.threads| ==> CallInv(n, u)
  {
    forall u | 0 <= u < |n.threads|
      ensures CallInv(n, u)
    {
      assert CallInv(s, u);
    }
    forall c | c in n.filed && c !in n.runs
      ensures n.threads[n.callers[c]].site == c && Waiting(n, n.callers[c])
    {
      assert n.callers[c] == s.callers[c];
    }
  }

  lemma EnterOrLeaveKeepsCalls(s: State, a: Step, t: nat)
    requires Inv(s) && Calls(s) && Enabled(s, a)
    requires a in {Begin(t, false), Begin(t, true), Unlock(t), End(t)}
    ensures Calls(Next(s, a))
  {
    var n := Next(s, a);
    assert ThreadInv(s, t) && CallInv(s, t);
    assert CallInv(n, t);
    QuietKeeps(s, n, t);
  }

  lemma LockKeepsCalls(s: State, a: Step, t: nat)
    requires Inv(s) && Calls(s) && Enabled(s, a)
    requires a in {Lock(t), CheckSite(t), Relock(t)}
    ensures Calls(Next(s, a))
  {
    var n := Next(s, a);
    assert ThreadInv(s, t) && CallInv(s, t);
    assert CallInv(n, t);
    QuietKeeps(s, n, t);
  }

  lemma SleepKeepsCalls(s: State, a: Step, t: nat)
    requires Inv(s) && Calls(s) && Enabled(s, a)
    requires a in {ReadPending(t), Sleep(t), Spurious(t)}
    ensures Calls(Next(s, a))
  {
    var n := Next(s, a);
    assert ThreadInv(s, t) && CallInv(s, t);
    assert CallInv(n, t);
    QuietKeeps(s, n, t);
  }

  lemma FillKeepsCalls(s: State, t: nat)
    requires Inv(s) && Calls(s) && Enabled(s, FillSite(t))
    ensures Calls(Next(s, FillSite(t)))
  {
    hide CallInv;
    FillKeepsHistory(s, t);
    forall u | 0 <= u < |s.threads|
      ensures CallInv(Next(s, FillSite(t)), u)
    {
      FillKeepsCall(s, t, u);
    }
  }

  lemma FillKeepsHistory(s: State, t: nat)
    requires Inv(s) && Calls(s) && Enabled(s, FillSite(t))
    ensures var n := Next(s, FillSite(t)); |n.threads| == |s.threads| && HistoryInv(n) && Rewarded(n)
  {
    var n := Next(s, FillSite(t));
    assert ThreadInv(s, t) && CallInv(s, t);
    assert forall u :: u in n.queue <==> u == t || u in s.queue;
  }

  lemma FillKeepsCall(s: State, t: nat, u: nat)
    requires Inv(s) && Calls(s) && Enabled(s, FillSite(t)) && u < |s.threads|
    ensures CallInv(Next(s, FillSite(t)), u)
  {
    var n := Next(s, FillSite(t));
    assert ThreadInv(s, t) && CallInv(s, t) && CallInv(s, u);
    assert forall v :: v in n.queue <==> v == t || v in s.queue;
  }

  lemma TakeKeepsCalls(s: State)
    requires Inv(s) && Calls(s) && Enabled(s, MTake)
    ensures Calls(Next(s, MTake))
  {
    var n := Next(s, MTake);
    if s.queue != [] {
      assert forall u :: u in s.queue <==> u == s.queue[0] || u in n.queue;
    }
    forall u | 0 <= u < |n.threads|
      ensures CallInv(n, u)
    {
      assert CallInv(s, u);
    }
  }

  lemma ExecuteKeepsCalls(s: State)
    requires Inv(s) && Calls(s) && Enabled(s, MExecute)
    ensures Calls(Next(s, MExecute))
  {
    var n := Next(s, MExecute);
    assert CallInv(s, s.main.t);
    forall u | 0 <= u < |n.threads|
      ensures CallInv(n, u)
    {
      assert CallInv(s, u);
    }
  }

  lemma MainKeepsCalls(s: State, a: Step)
    requires Inv(s) && Calls(s) && Enabled(s, a)
    requires a in {MWake, MLock, MFinish, MSignal}
    ensures Calls(Next(s, a))
  {
    var t := if s.main.MRan? || s.main.MDone? then s.main.t else |s.threads|;
    if t < |s.threads| {
      assert CallInv(s, t);
    }
    QuietKeeps(s, Next(s, a), t);
  }

  lemma NextKeepsCalls(s: State, a: Step)
    requires Inv(s) && Calls(s) && Enabled(s, a)
    ensures Calls(Next(s, a))
  {
    match a
    case FillSite(t) => FillKeepsCalls(s, t);
    case MTake => TakeKeepsCalls(s);
    case MExecute => ExecuteKeepsCalls(s);
    case Begin(t, w) => EnterOrLeaveKeepsCalls(s, Begin(t, w), t);
    case Lock(t) => LockKeepsCalls(s, a, t);
    case CheckSite(t) => LockKeepsCalls(s, a, t);
    case ReadPending(t) => SleepKeepsCalls(s, a, t);
    case Sleep(t) => SleepKeepsCalls(s, a, t);
    case Spurious(t) => SleepKeepsCalls(s, a, t);
    case Relock(t) => LockKeepsCalls(s, a, t);
    case Unlock(t) => EnterOrLeaveKeepsCalls(s, a, t);
    case End(t) => EnterOrLeaveKeepsCalls(s, a, t);
    case _ => MainKeepsCalls(s, a);
  }

  // ----- whole runs

  predicate Initial(s: State) {
    && s.lock == None && s.queue == [] && !s.posted && s.main == MIdle
    && s.callers == [] && s.filed == [] && s.runs == [] && s.returned == []
    && forall t :: 0 <= t < |s.threads| ==> s.threads[t].pc == Idle && !s.threads[t].pending
  }

  predicate Run(ss: seq<State>, steps: seq<Step>) {
    && |ss| == |steps| + 1
    && Initial(ss[0])
    && forall i :: 0 <= i < |steps| ==> Enabled(ss[i], steps[i]) && ss[i + 1] == Next(ss[i], steps[i])
  }

  lemma {:induction false} RunKeeps(ss: seq<State>, steps: seq<Step>, i: nat)
    requires Run(ss, steps) && i <= |steps|
    ensures Inv(ss[i]) && Calls(ss[i])
  {
    if i > 0 {
      RunKeeps(ss, steps, i - 1);
      assert Enabled(ss[i - 1], steps[i - 1]);
      NextKeeps(ss[i - 1], steps[i - 1]);
      NextKeepsCalls(ss[i - 1], steps[i - 1]);
    }
  }

  /** In every interleaving: a call is executed at most once, and only after it was filed;
      every filed call has been executed or still sits untouched in its thread's call site;
      a waiting call that returned got the result of its own function; and a call site is
      only refilled when the main loop is done with it. */
  lemma EveryCallOnce(ss: seq<State>, steps: seq<Step>, i: nat)
    requires Run(ss, steps) && i <= |steps|
    ensures var s := ss[i];
            && (forall j, k :: 0 <= j < k < |s.runs| ==> s.runs[j] != s.runs[k])
            && (forall c :: c in s.runs ==> c in s.filed)
            && (forall c :: c in s.filed && c !in s.runs ==>
                  c < |s.callers| && s.callers[c] < |s.threads| &&
                  s.threads[s.callers[c]].site == c && Waiting(s, s.callers[c]))
            && (forall j :: 0 <= j < |s.returned| ==> s.returned[j].0 == s.returned[j].1 && s.returned[j].0 in s.runs)
    ensures i < |steps| && steps[i].FillSite? ==> steps[i].t !in ss[i].queue && !Running(ss[i], steps[i].t)
  {
    RunKeeps(ss, steps, i);
    if i < |steps| && steps[i].FillSite? {
      assert Enabled(ss[i], steps[i]);
      assert ThreadInv(ss[i], steps[i].t);
    }
  }

  /** No wakeup is lost.  When the main loop has nothing left to do, every filed call was
      executed and no thread sleeps; and a thread found asleep after its call finished is
      woken by the main thread's very next step. */
  lemma NoLostWakeup(ss: seq<State>, steps: seq<Step>, i: nat, t: nat)
    requires Run(ss, steps) && i <= |steps| && t < |ss[i].threads|
    ensures ss[i].main == MIdle && !ss[i].posted ==>
              !ss[i].threads[t].pc.Asleep? && forall c :: c in ss[i].filed ==> c in ss[i].runs
    ensures ss[i].threads[t].pc.Asleep? && !ss[i].threads[t].pending ==>
              ss[i].main == MDone(t) &&
              (Enabled(ss[i], MSignal) ==> Next(ss[i], MSignal).threads[t].pc.Waking?)
  {
    RunKeeps(ss, steps, i);
    assert ThreadInv(ss[i], t);
  }

  // ----- the order of execution

  ghost predicate LaterFiled(filed: seq<nat>, c: nat, d: nat) {
    exists x, y :: 0 <= y < x < |filed| && filed[x] == c && filed[y] == d
  }

  /** The queue holds the call filed last in front. */
  ghost predicate Stacked(s: State) {
    && (forall i :: 0 <= i < |s.queue| ==> s.queue[i] < |s.threads|)
    && forall i, j :: 0 <= i < j < |s.queue| ==>
         LaterFiled(s.filed, s.threads[s.queue[i]].site, s.threads[s.queue[j]].site)
  }

  lemma FillStacks(s: State, t: nat)
    requires Inv(s) && Calls(s) && Stacked(s) && Enabled(s, FillSite(t))
    ensures Stacked(Next(s, FillSite(t)))
  {
    var n := Next(s, FillSite(t));
    assert ThreadInv(s, t);
    var c := s.threads[t].call;
    assert n.filed[|s.filed|] == c;
    forall i, j | 0 <= i < j < |n.queue|
      ensures LaterFiled(n.filed, n.threads[n.queue[i]].site, n.threads[n.queue[j]].site)
    {
      var d := s.threads[s.queue[j - 1]].site;
      assert s.queue[j - 1] in s.queue && CallInv(s, s.queue[j - 1]);
      if i == 0 {
        var y :| 0 <= y < |s.filed| && s.filed[y] == d;
        assert n.filed[y] == d;
      } else {
        var x, y :| 0 <= y < x < |s.filed| && s.filed[x] == s.threads[s.queue[i - 1]].site && s.filed[y] == d;
        assert n.filed[x] == s.filed[x] && n.filed[y] == d;
      }
    }
  }

  lemma OtherStacks(s: State, a: Step)
    requires Stacked(s) && Enabled(s, a) && !a.FillSite?
    ensures Stacked(Next(s, a))
  {
    hide LaterFiled;
    SameSites(s, a);
  }

  lemma SameSites(s: State, a: Step)
    requires Enabled(s, a) && !a.FillSite?
    ensures var n := Next(s, a);
            && n.filed == s.filed && |n.threads| == |s.threads|
            && (forall t :: 0 <= t < |s.threads| ==> n.threads[t].site == s.threads[t].site)
            && n.queue == if a == MTake && s.queue != [] then s.queue[1..] else s.queue
  {
  }

  lemma {:induction false} RunStacks(ss: seq<State>, steps: seq<Step>, i: nat)
    requires Run(ss, steps) && i <= |steps|
    ensures Stacked(ss[i])
  {
    if i > 0 {
      hide Stacked, Next;
      RunStacks(ss, steps, i - 1);
      RunKeeps(ss, steps, i - 1);
      assert Enabled(ss[i - 1], steps[i - 1]);
      if steps[i - 1].FillSite? {
        FillStacks(ss[i - 1], steps[i - 1].t);
      } else {
        OtherStacks(ss[i - 1], steps[i - 1]);
      }
    }
  }

  /** The main loop executes, of the calls that wait, the one filed last. */
  lemma LastFiledFirst(ss: seq<State>, steps: seq<Step>, i: nat, t: nat)
    requires Run(ss, steps) && i < |steps| && steps[i] == MTake && t in ss[i].queue
    ensures ss[i + 1].main.MRun? && ss[i + 1].main.t < |ss[i].threads| && t < |ss[i].threads|
    ensures var c := ss[i].threads[ss[i + 1].main.t].site;
            t == ss[i + 1].main.t || LaterFiled(ss[i].filed, c, ss[i].threads[t].site)
  {
    RunStacks(ss, steps, i);
    var j :| 0 <= j < |ss[i].queue| && ss[i].queue[j] == t;
  }

  // ----- every call comes to its end

  /** How far a thread is from the end of its call: more than the steps it and the main
      loop still have to make for it. */
  function Left(th: Thread): nat {
    match th.pc
    case Idle => 0
    case Return => 1
    case Leave => 2
    case Fill => 20
    case Check => 28
    case WantLock => 29
    case Loop(first) => (if first then 18 else 0) + (if th.pending then 9 else 3)
    case Waking(first) => (if first then 18 else 0) + (if th.pending then 10 else 4)
    case Asleep(first) => (if first then 18 else 0) + (if th.pending then 7 else 5)
    case Nap(first) => (if first then 18 else 0) + (if th.pending then 8 else 6)
  }

  function LeftMain(m: MainPc): nat {
    match m
    case MIdle => 0
    case MHold => 1
    case MWant => 2
    case MDone(_) => 5
    case MRan(_, _) => 6
    case MRun(_) => 7
  }

  function LeftAll(ths: seq<Thread>): nat {
    if ths == [] then 0 else LeftAll(ths[..|ths| - 1]) + Left(ths[|ths| - 1])
  }

  /** What is left apart from the threads themselves. */
  function LeftElse(s: State): nat { 7 * |s.queue| + (if s.posted then 3 else 0) + LeftMain(s.main) }

  function Work(s: State): nat {
    LeftAll(s.threads) + LeftElse(s)
  }

  lemma {:induction false} LeftUpdate(ths: seq<Thread>, t: nat, th: Thread)
    requires t < |ths|
    ensures LeftAll(ths[t := th]) == LeftAll(ths) - Left(ths[t]) + Left(th)
  {
    var last := |ths| - 1;
    if t < last {
      assert ths[t := th][..last] == ths[..last][t := th];
      LeftUpdate(ths[..last], t, th);
    } else {
      assert ths[t := th][..last] == ths[..last];
    }
  }

  lemma Fewer(s: State, n: State, t: nat)
    requires t < |s.threads| == |n.threads| && n.threads == s.threads[t := n.threads[t]]
    requires Left(n.threads[t]) + LeftElse(n) < Left(s.threads[t]) + LeftElse(s)
    ensures Work(n) < Work(s)
  {
    LeftUpdate(s.threads, t, n.threads[t]);
  }

  lemma ThreadRunsOut(s: State, a: Step, t: nat)
    requires Inv(s) && Enabled(s, a)
    requires a in {Lock(t), CheckSite(t), ReadPending(t), Sleep(t), Relock(t), FillSite(t), Unlock(t), End(t)}
    ensures Work(Next(s, a)) < Work(s)
  {
    hide Work, LeftAll;
    assert ThreadInv(s, t);
    Fewer(s, Next(s, a), t);
  }

  lemma MainRunsOut(s: State, a: Step)
    requires Inv(s) && Enabled(s, a) && a in {MWake, MLock, MTake, MExecute}
    ensures Work(Next(s, a)) < Work(s)
  {
  }

  /** Every step other than a new call or a spurious wakeup brings the end nearer. */
  lemma StepsRunOut(s: State, a: Step)
    requires Inv(s) && Enabled(s, a) && !a.Begin? && !a.Spurious?
    ensures Work(Next(s, a)) < Work(s)
  {
    hide Work, Next, Inv;
    match a
    case Lock(t) => ThreadRunsOut(s, a, t);
    case CheckSite(t) => ThreadRunsOut(s, a, t);
    case ReadPending(t) => ThreadRunsOut(s, a, t);
    case Sleep(t) => ThreadRunsOut(s, a, t);
    case Relock(t) => ThreadRunsOut(s, a, t);
    case FillSite(t) => ThreadRunsOut(s, a, t);
    case Unlock(t) => ThreadRunsOut(s, a, t);
    case End(t) => ThreadRunsOut(s, a, t);
    case MFinish => SignalRunsOut(s, a);
    case MSignal => SignalRunsOut(s, a);
    case _ => MainRunsOut(s, a);
  }

  lemma SignalRunsOut(s: State, a: Step)
    requires Inv(s) && Enabled(s, a) && a in {MFinish, MSignal}
    ensures Work(Next(s, a)) < Work(s)
  {
    hide Work, LeftAll;
    Fewer(s, Next(s, a), s.main.t);
  }

  /** A thread inside a call never blocks everybody: some thread can take a step that is
      neither a new call nor a spurious wakeup. */
  lemma NeverStuck(s: State, t: nat) returns (a: Step)
    requires Inv(s) && t < |s.threads| && s.threads[t].pc != Idle
    ensures Enabled(s, a) && !a.Begin? && !a.Spurious?
  {
    assert ThreadInv(s, t);
    if s.lock.Some? && s.lock.value.Worker? {
      var u := s.lock.value.t;
      assert ThreadInv(s, u);
      match s.threads[u].pc
      case Check => a := CheckSite(u);
      case Loop(_) => a := ReadPending(u);
      case Nap(_) => a := Sleep(u);
      case Fill => a := FillSite(u);
      case Leave => a := Unlock(u);
    } else if s.lock == Some(Main) {
      a := MTake;
    } else {
      match s.threads[t].pc
      case WantLock => a := Lock(t);
      case Waking(_) => a := Relock(t);
      case Return => a := End(t);
      case Asleep(_) =>
        a := match s.main
             case MIdle => MWake
             case MWant => MLock
             case MRun(_) => MExecute
             case MRan(_, _) => MFinish
             case _ => MSignal;
    }
  }

  /** Once no new calls are made, a run without spurious wakeups is over after a bounded
      number of steps; and when nobody can take a step any more, every call has been
      executed and every caller has returned. */
  lemma {:induction false} EveryCallReturns(ss: seq<State>, steps: seq<Step>, i: nat, j: nat)
    requires Run(ss, steps) && i <= j <= |steps|
    requires forall k :: i <= k < j ==> !steps[k].Begin? && !steps[k].Spurious?
    ensures j - i <= Work(ss[i])
    ensures (forall a :: Enabled(ss[j], a) ==> a.Begin? || a.Spurious?) ==>
              && (forall t :: 0 <= t < |ss[j].threads| ==> ss[j].threads[t].pc == Idle)
              && (forall c :: c in ss[j].filed ==> c in ss[j].runs)
  {
    WorkShrinks(ss, steps, i, j);
    RunKeeps(ss, steps, j);
    var s := ss[j];
    if forall a :: Enabled(s, a) ==> a.Begin? || a.Spurious? {
      forall t | 0 <= t < |s.threads|
        ensures s.threads[t].pc == Idle
      {
        if s.threads[t].pc != Idle {
          var a := NeverStuck(s, t);
        }
      }
      MainIdle(s);
    }
  }

  lemma {:induction false} WorkShrinks(ss: seq<State>, steps: seq<Step>, i: nat, j: nat)
    requires Run(ss, steps) && i <= j <= |steps|
    requires forall k :: i <= k < j ==> !steps[k].Begin? && !steps[k].Spurious?
    ensures Work(ss[j]) + (j - i) <= Work(ss[i])
    decreases j
  {
    hide Work, Next, Inv, Calls;
    if i < j {
      WorkShrinks(ss, steps, i, j - 1);
      RunKeeps(ss, steps, j - 1);
      assert Enabled(ss[j - 1], steps[j - 1]);
      StepsRunOut(ss[j - 1], steps[j - 1]);
    }
  }

  /** With all threads idle and no step left, nothing is waiting for the main loop. */
  lemma MainIdle(s: State)
    requires Inv(s) && Calls(s) && forall t :: 0 <= t < |s.threads| ==> s.threads[t].pc == Idle
    requires forall a :: Enabled(s, a) ==> a.Begin? || a.Spurious?
    ensures forall c :: c in s.filed ==> c in s.runs
  {
    forall t | 0 <= t < |s.threads| ensures s.lock != Some(Worker(t)) {
      assert ThreadInv(s, t);
    }
    assert s.lock.Some? ==> s.lock.value == Main;
    assert !Enabled(s, MWake) && !Enabled(s, MLock) && !Enabled(s, MTake);
    assert !Enabled(s, MExecute) && !Enabled(s, MFinish) && !Enabled(s, MSignal);
  }
}
