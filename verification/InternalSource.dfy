/** The internal() source: any thread posts messages into a shared queue, destination
    threads give window slots back, and the main loop feeds the messages into the log
    path.  No wakeup is lost between them.

    What happens under `internal_msg_lock` is one step.  Reading the window and the
    suspended flag, acting on what was read, and raising an event are separate steps. */
module InternalSource {
  import opened Wrappers

  const MAX_MESSAGES := 10000

  /** log_source_flow_control_adjust() without and with an external ack, and
      log_source_flow_control_suspend(). */
  datatype AckKind = Adjust | External | Suspend

  /** A destination thread giving slots back: the window was increased, from zero or
      not; about to clear `suspended`; about to raise schedule_wakeup; about to finish. */
  datatype AckPc =
    | AIdle
    | AAdded(wasZero: bool, kind: AckKind)
    | AClear(kind: AckKind)
    | APost(kind: AckKind)
    | AAfter(kind: AckKind)

  /** The main thread: idle in the loop; in afinter_source_post() (checking the window,
      popping, sending); in afinter_source_mark(); in afinter_source_update_watches()
      (checking, going to sleep, waking); in init and deinit. */
  datatype MainPc =
    | MIdle
    | MLoop
    | MPop
    | MSend(msg: nat)
    | MMark
    | MSendMark
    | MCheck
    | MToSleep
    | MStop
    | MToWake
    | MLock
    | MInit
    | MDeinit

  datatype Life = Fresh | Initialized | Gone

  /** `posted` and `wakeup` are pending events, `restart` is the registered task and
      `current` tells that current_internal_source points to this source. */
  datatype State = State(queue: seq<nat>, window: nat, suspended: bool, life: Life, current: bool,
                         posted: bool, wakeup: bool, restart: bool, watches: bool,
                         main: MainPc, acks: seq<AckPc>, accepted: seq<nat>, sent: seq<nat>)

  predicate FreeToSend(s: State) { s.window > 0 && !s.suspended }

  datatype Step =
    | Post(msg: nat)
    | AckBegin(t: nat, slots: nat, kind: AckKind)
    | AckTest(t: nat)
    | AckClear(t: nat)
    | AckPost(t: nat)
    | AckAfter(t: nat)
    | Init
    | Deinit
    | TakePost
    | TakeRestart
    | TakeWakeup
    | TakeMark(due: bool)
    | Main

  predicate Enabled(s: State, a: Step) {
    match a
    case Post(_) => true
    case AckBegin(t, slots, kind) => t < |s.acks| && s.acks[t] == AIdle && (kind == Suspend ==> slots == 1)
    case AckTest(t) => t < |s.acks| && s.acks[t].AAdded?
    case AckClear(t) => t < |s.acks| && s.acks[t].AClear?
    case AckPost(t) => t < |s.acks| && s.acks[t].APost?
    case AckAfter(t) => t < |s.acks| && s.acks[t].AAfter?
    case Init => s.main == MIdle && s.life == Fresh
    case Deinit => s.main == MIdle && s.life == Initialized
    case TakePost => s.main == MIdle && s.life == Initialized && s.posted
    case TakeRestart => s.main == MIdle && s.life == Initialized && s.restart
    case TakeWakeup => s.main == MIdle && s.life == Initialized && s.wakeup
    case TakeMark(_) => s.main == MIdle && s.life == Initialized && s.watches
    case Main => s.main != MIdle
  }

  function Stopped(s: State): State {
    if s.watches then s.(restart := false, watches := false) else s
  }

  /** The next step of the main thread inside a handler. */
  function MainNext(s: State): State
    requires s.main != MIdle
  {
    match s.main
    case MLoop => s.(main := if FreeToSend(s) then MPop else MCheck)
    case MPop =>
      if s.queue == [] then s.(main := MCheck) else s.(main := MSend(s.queue[0]), queue := s.queue[1..])
    case MSend(msg) => s.(main := MLoop, window := if s.window > 0 then s.window - 1 else 0, sent := s.sent + [msg])
    case MMark => s.(main := if FreeToSend(s) then MSendMark else MCheck)
    case MSendMark => s.(main := MCheck, window := if s.window > 0 then s.window - 1 else 0)
    case MCheck => s.(main := if FreeToSend(s) then MToWake else MToSleep)
    case MToSleep => s.(main := MStop, current := false)
    case MStop => Stopped(s).(main := MIdle)
    case MToWake => Stopped(s).(main := MLock, watches := true)
    case MLock => s.(main := MIdle, restart := s.restart || s.queue != [], current := true)
    case MInit => s.(main := MIdle, posted := s.posted || s.queue != [], life := Initialized)
    case MDeinit => Stopped(s).(main := MIdle, posted := false, wakeup := false, life := Gone)
  }

  function Next(s: State, a: Step): State
    requires Enabled(s, a)
  {
    match a
    case Post(msg) =>
      if |s.queue| < MAX_MESSAGES
      then s.(queue := s.queue + [msg], accepted := s.accepted + [msg], posted := s.posted || s.current)
      else s
    case AckBegin(t, slots, kind) =>
      s.(window := s.window + slots, acks := s.acks[t := AAdded(s.window == 0, kind)])
    case AckTest(t) =>
      var pc := s.acks[t];
      s.(acks := s.acks[t := if pc.wasZero || s.suspended then AClear(pc.kind) else AAfter(pc.kind)])
    case AckClear(t) => s.(suspended := false, acks := s.acks[t := APost(s.acks[t].kind)])
    case AckPost(t) =>
      s.(wakeup := s.wakeup || s.life == Initialized, acks := s.acks[t := AAfter(s.acks[t].kind)])
    case AckAfter(t) =>
      (match s.acks[t].kind
       case Adjust => s.(acks := s.acks[t := AIdle])
       case External => s.(acks := s.acks[t := AClear(Adjust)])
       case Suspend => s.(suspended := true, acks := s.acks[t := AIdle]))
    case Init => s.(main := MInit, watches := true, current := true)
    case Deinit => s.(main := MDeinit, current := false)
    case TakePost => s.(main := MLoop, posted := false)
    case TakeRestart => s.(main := MLoop, restart := false)
    case TakeWakeup => s.(main := MCheck, wakeup := false)
    // a mark that is no longer due is not sent
    case TakeMark(due) => s.(main := if due then MMark else MCheck)
    case Main => MainNext(s)
  }

  // ----- the invariant

  /** A destination thread that will raise schedule_wakeup whatever happens. */
  predicate Waking(pc: AckPc) { (pc.AAdded? && pc.wasZero) || pc.AClear? || pc.APost? }

  predicate Coming(s: State) {
    s.wakeup || exists t :: 0 <= t < |s.acks| && Waking(s.acks[t])
  }

  /** Inside a handler that will look at the window and the queue again. */
  predicate Looking(pc: MainPc) {
    pc in {MLoop, MPop, MMark, MSendMark, MCheck, MToWake, MLock} || pc.MSend?
  }

  /** While the source can send, a wakeup is coming, or the main thread is looking, or
      the posting threads raise the event themselves and a waiting message has one. */
  predicate Awake(s: State) {
    s.life == Initialized && s.main != MDeinit && FreeToSend(s) ==>
      || Coming(s) || Looking(s.main)
      || (s.main == MIdle && s.current && (s.queue != [] ==> s.posted || s.restart))
  }

  predicate Started(s: State) {
    && (s.main == MInit ==> s.life == Fresh && s.current)
    && (s.life == Initialized || s.main in {MInit, MIdle})
  }

  predicate Conserved(s: State) {
    && s.accepted == s.sent + (if s.main.MSend? then [s.main.msg] else []) + s.queue
    && |s.queue| <= MAX_MESSAGES
    && (s.main == MPop || s.main.MSend? || s.main == MSendMark ==> s.window > 0)
  }

  predicate Inv(s: State) { Awake(s) && Started(s) && Conserved(s) }

  /** Only thread `t` moved; if it was about to raise the wakeup it still is, or has done so. */
  lemma ComingKept(s: State, n: State, t: nat)
    requires Coming(s) && t < |s.acks| == |n.acks| && n.acks == s.acks[t := n.acks[t]] && (s.wakeup ==> n.wakeup)
    requires Waking(s.acks[t]) ==> Waking(n.acks[t]) || n.wakeup
    ensures Coming(n)
  {
    if !s.wakeup {
      var u :| 0 <= u < |s.acks| && Waking(s.acks[u]);
      assert u != t ==> n.acks[u] == s.acks[u];
      assert u == t && !n.wakeup ==> Waking(n.acks[t]);
    }
  }

  /** A step of a destination thread that does not make the source free to send. */
  lemma AckQuiet(s: State, n: State, t: nat)
    requires Awake(s) && t < |s.acks| == |n.acks| && n.acks == s.acks[t := n.acks[t]] && (s.wakeup ==> n.wakeup)
    requires s.life == Initialized && Waking(s.acks[t]) ==> Waking(n.acks[t]) || n.wakeup
    requires n.life == s.life && n.main == s.main && n.current == s.current && n.queue == s.queue
    requires n.posted == s.posted && n.restart == s.restart && (FreeToSend(n) ==> FreeToSend(s))
    ensures Awake(n)
  {
    hide Coming;
    if s.life == Initialized && Coming(s) {
      ComingKept(s, n, t);
    }
  }

  /** A thread that made the source free to send raises the wakeup next. */
  lemma AckFrees(n: State, t: nat)
    requires t < |n.acks| && Waking(n.acks[t])
    ensures Awake(n)
  {
  }

  lemma BeginKeepsAwake(s: State, t: nat, slots: nat, kind: AckKind)
    requires Awake(s) && Enabled(s, AckBegin(t, slots, kind))
    ensures Awake(Next(s, AckBegin(t, slots, kind)))
  {
    hide Awake, Coming;
    var n := Next(s, AckBegin(t, slots, kind));
    if s.window == 0 {
      AckFrees(n, t);
    } else {
      AckQuiet(s, n, t);
    }
  }

  lemma TestKeepsAwake(s: State, t: nat)
    requires Awake(s) && Enabled(s, AckTest(t))
    ensures Awake(Next(s, AckTest(t)))
  {
    hide Awake, Coming;
    AckQuiet(s, Next(s, AckTest(t)), t);
  }

  lemma ClearKeepsAwake(s: State, t: nat)
    requires Awake(s) && Enabled(s, AckClear(t))
    ensures Awake(Next(s, AckClear(t)))
  {
    hide Awake, Coming;
    AckFrees(Next(s, AckClear(t)), t);
  }

  lemma PostKeepsAwake(s: State, t: nat)
    requires Awake(s) && Enabled(s, AckPost(t))
    ensures Awake(Next(s, AckPost(t)))
  {
    hide Awake, Coming;
    AckQuiet(s, Next(s, AckPost(t)), t);
  }

  lemma AfterKeepsAwake(s: State, t: nat)
    requires Awake(s) && Enabled(s, AckAfter(t))
    ensures Awake(Next(s, AckAfter(t)))
  {
    hide Awake, Coming;
    match s.acks[t].kind
    case Adjust => AckQuiet(s, s.(acks := s.acks[t := AIdle]), t);
    case External => AckQuiet(s, s.(acks := s.acks[t := AClear(Adjust)]), t);
    case Suspend => AckQuiet(s, s.(suspended := true, acks := s.acks[t := AIdle]), t);
  }

  lemma AckKeepsAwake(s: State, a: Step)
    requires Awake(s) && Enabled(s, a) && (a.AckBegin? || a.AckTest? || a.AckClear? || a.AckPost? || a.AckAfter?)
    ensures Awake(Next(s, a))
  {
    hide Awake, Next;
    match a
    case AckBegin(t, slots, kind) => BeginKeepsAwake(s, t, slots, kind);
    case AckTest(t) => TestKeepsAwake(s, t);
    case AckClear(t) => ClearKeepsAwake(s, t);
    case AckPost(t) => PostKeepsAwake(s, t);
    case AckAfter(t) => AfterKeepsAwake(s, t);
  }

  lemma SameComing(s: State, n: State)
    requires n.acks == s.acks && n.wakeup == s.wakeup
    ensures Coming(n) == Coming(s)
  {
  }

  lemma LoopKeepsAwake(s: State)
    requires s.main in {MLoop, MPop, MMark, MSendMark} || s.main.MSend?
    ensures Awake(MainNext(s))
  {
    hide Coming, FreeToSend;
  }

  lemma CheckKeepsAwake(s: State)
    requires Awake(s) && s.main in {MCheck, MToSleep, MStop}
    ensures Awake(MainNext(s))
  {
    hide Coming;
    SameComing(s, MainNext(s));
  }

  lemma WatchKeepsAwake(s: State)
    requires Awake(s) && Started(s) && s.main in {MToWake, MLock, MInit, MDeinit}
    ensures Awake(MainNext(s))
  {
    hide Coming;
    if s.main != MDeinit {
      SameComing(s, MainNext(s));
    }
  }

  lemma MainKeepsAwake(s: State)
    requires Awake(s) && Started(s) && s.main != MIdle
    ensures Awake(MainNext(s))
  {
    hide Awake, Started;
    match s.main
    case MCheck | MToSleep | MStop => CheckKeepsAwake(s);
    case MToWake | MLock | MInit | MDeinit => WatchKeepsAwake(s);
    case _ => LoopKeepsAwake(s);
  }

  lemma OtherKeepsAwake(s: State, a: Step)
    requires Awake(s) && Started(s) && Enabled(s, a)
    requires a.Post? || a.TakeMark? || a in {Init, Deinit, TakePost, TakeRestart, TakeWakeup}
    ensures Awake(Next(s, a))
  {
    hide Coming;
    if a != TakeWakeup {
      SameComing(s, Next(s, a));
    }
  }

  lemma NextKeepsAwake(s: State, a: Step)
    requires Awake(s) && Started(s) && Enabled(s, a)
    ensures Awake(Next(s, a))
  {
    hide Awake, Started;
    if a.AckBegin? || a.AckTest? || a.AckClear? || a.AckPost? || a.AckAfter? {
      AckKeepsAwake(s, a);
    } else if a == Main {
      MainKeepsAwake(s);
    } else {
      OtherKeepsAwake(s, a);
    }
  }

  lemma PostConserves(s: State, msg: nat)
    requires Conserved(s)
    ensures Conserved(Next(s, Post(msg)))
  {
    var hand := if s.main.MSend? then [s.main.msg] else [];
    assert s.sent + hand + s.queue + [msg] == s.sent + hand + (s.queue + [msg]);
  }

  lemma MainConserves(s: State)
    requires Conserved(s) && s.main != MIdle
    ensures Conserved(MainNext(s))
  {
    match s.main
    case MPop =>
      if s.queue != [] {
        assert s.sent + [] + s.queue == s.sent + [s.queue[0]] + s.queue[1..];
      }
    case MSend(msg) => assert s.sent + [msg] + s.queue == s.sent + [msg] + [] + s.queue;
    case _ =>
  }

  lemma OtherConserves(s: State, n: State)
    requires Conserved(s) && n.accepted == s.accepted && n.sent == s.sent && n.queue == s.queue && s.window <= n.window
    requires n.main == s.main || (s.main == MIdle && n.main in {MInit, MDeinit, MLoop, MCheck, MMark})
    ensures Conserved(n)
  {
  }

  lemma SameConserves(s: State, n: State)
    requires Conserved(s) && n.accepted == s.accepted && n.sent == s.sent && n.queue == s.queue && s.window <= n.window
    requires n.main == s.main
    ensures Conserved(n)
  {
  }

  /** A step of a destination thread touches neither the messages nor the main thread. */
  ghost predicate Aside(s: State, n: State) {
    && n.accepted == s.accepted && n.sent == s.sent && n.queue == s.queue && s.window <= n.window
    && n.main == s.main
  }

  lemma FirstAside(s: State, a: Step)
    requires Enabled(s, a) && (a.AckBegin? || a.AckTest? || a.AckClear?)
    ensures Aside(s, Next(s, a))
  {
    hide MainNext;
  }

  lemma PostAside(s: State, t: nat)
    requires Enabled(s, AckPost(t))
    ensures Aside(s, Next(s, AckPost(t)))
  {
    hide MainNext;
  }

  lemma AfterAside(s: State, t: nat)
    requires Enabled(s, AckAfter(t))
    ensures Aside(s, Next(s, AckAfter(t)))
  {
    hide MainNext, Aside;
    if s.acks[t].kind == Adjust {
      AcksAside(s, s.acks[t := AIdle], s.suspended);
    } else if s.acks[t].kind == External {
      AcksAside(s, s.acks[t := AClear(Adjust)], s.suspended);
    } else {
      AcksAside(s, s.acks[t := AIdle], true);
    }
  }

  lemma AcksAside(s: State, acks: seq<AckPc>, suspended: bool)
    ensures Aside(s, s.(acks := acks, suspended := suspended))
  {
  }

  lemma AckAlone(s: State, a: Step)
    requires Enabled(s, a) && (a.AckBegin? || a.AckTest? || a.AckClear? || a.AckPost? || a.AckAfter?)
    ensures Aside(s, Next(s, a))
  {
    hide Aside, Next;
    match a
    case AckPost(t) => PostAside(s, t);
    case AckAfter(t) => AfterAside(s, t);
    case _ => FirstAside(s, a);
  }

  lemma AckConserves(s: State, a: Step)
    requires Conserved(s) && Enabled(s, a) && (a.AckBegin? || a.AckTest? || a.AckClear? || a.AckPost? || a.AckAfter?)
    ensures Conserved(Next(s, a))
  {
    hide Conserved, Next;
    AckAlone(s, a);
    SameConserves(s, Next(s, a));
  }

  lemma NextConserves(s: State, a: Step)
    requires Conserved(s) && Enabled(s, a)
    ensures Conserved(Next(s, a))
  {
    hide Conserved;
    if a.Post? {
      PostConserves(s, a.msg);
    } else if a == Main {
      MainConserves(s);
    } else if a.AckBegin? || a.AckTest? || a.AckClear? || a.AckPost? || a.AckAfter? {
      AckConserves(s, a);
    } else {
      OtherConserves(s, Next(s, a));
    }
  }

  lemma AckStarted(s: State, n: State)
    requires Started(s) && n.main == s.main && n.life == s.life && n.current == s.current
    ensures Started(n)
  {
  }

  lemma MainStarted(s: State)
    requires Started(s) && s.main != MIdle
    ensures Started(MainNext(s))
  {
  }

  lemma NextStarted(s: State, a: Step)
    requires Started(s) && Enabled(s, a)
    ensures Started(Next(s, a))
  {
    if a.AckBegin? || a.AckTest? || a.AckClear? || a.AckPost? || a.AckAfter? || a.Post? {
      AckStarted(s, Next(s, a));
    } else if a == Main {
      MainStarted(s);
    }
  }

  lemma NextKeeps(s: State, a: Step)
    requires Inv(s) && Enabled(s, a)
    ensures Inv(Next(s, a))
  {
    hide Awake, Started, Conserved;
    NextKeepsAwake(s, a);
    NextStarted(s, a);
    NextConserves(s, a);
  }

  // ----- whole runs

  predicate Initial(s: State) {
    && s.life == Fresh && s.main == MIdle && !s.current && !s.posted && !s.wakeup && !s.restart && !s.watches
    && s.sent == [] && s.accepted == s.queue && |s.queue| <= MAX_MESSAGES
  }

  predicate Run(ss: seq<State>, steps: seq<Step>) {
    && |ss| == |steps| + 1 && Initial(ss[0])
    && forall i :: 0 <= i < |steps| ==> Enabled(ss[i], steps[i]) && ss[i + 1] == Next(ss[i], steps[i])
  }

  lemma {:induction false} RunKeeps(ss: seq<State>, steps: seq<Step>, i: nat)
    requires Run(ss, steps) && i <= |steps|
    ensures Inv(ss[i])
  {
    if i > 0 {
      RunKeeps(ss, steps, i - 1);
      assert Enabled(ss[i - 1], steps[i - 1]);
      NextKeeps(ss[i - 1], steps[i - 1]);
    }
  }

  /** In every interleaving: when messages wait and the source can send, an event or the
      restart task is pending, or a thread is about to raise one, or the main thread is
      going to look at window and queue again, unless it is shutting the source down. */
  lemma NoLostWakeup(ss: seq<State>, steps: seq<Step>, i: nat)
    requires Run(ss, steps) && i <= |steps|
    requires ss[i].life == Initialized && ss[i].queue != [] && FreeToSend(ss[i])
    ensures ss[i].posted || ss[i].restart || ss[i].wakeup || Looking(ss[i].main) || ss[i].main == MDeinit ||
            exists t :: 0 <= t < |ss[i].acks| && Waking(ss[i].acks[t])
  {
    RunKeeps(ss, steps, i);
  }

  /** Messages leave in the order they were accepted, none twice and none missing; the
      queue stays within its limit and the window is never overdrawn. */
  lemma InOrder(ss: seq<State>, steps: seq<Step>, i: nat)
    requires Run(ss, steps) && i <= |steps|
    ensures var s := ss[i];
            && s.sent <= s.accepted && |s.sent| + |s.queue| <= |s.accepted| <= |s.sent| + |s.queue| + 1
            && s.accepted[|s.accepted| - |s.queue|..] == s.queue && |s.queue| <= MAX_MESSAGES
            && (s.main.MSend? || s.main == MSendMark ==> s.window > 0)
  {
    RunKeeps(ss, steps, i);
  }

  /** A message posted is accepted exactly when fewer than the limit are waiting, not counting
      one that is being sent; nothing else adds to what was accepted. */
  lemma AcceptedUnlessFull(ss: seq<State>, steps: seq<Step>, i: nat)
    requires Run(ss, steps) && i < |steps|
    ensures var s, n := ss[i], ss[i + 1];
            var waiting := |s.accepted| - |s.sent| - (if s.main.MSend? then 1 else 0);
            n.accepted ==
            if steps[i].Post? && waiting < MAX_MESSAGES then s.accepted + [steps[i].msg] else s.accepted
  {
    RunKeeps(ss, steps, i);
    assert Conserved(ss[i]);
    StepAccepts(ss[i], steps[i]);
  }

  lemma StepAccepts(s: State, a: Step)
    requires Enabled(s, a)
    ensures Next(s, a).accepted ==
            if a.Post? && |s.queue| < MAX_MESSAGES then s.accepted + [a.msg] else s.accepted
  {
    if a.AckBegin? || a.AckTest? || a.AckClear? || a.AckPost? || a.AckAfter? {
      hide Next;
      AckAlone(s, a);
    } else if a == Main {
      MainAccepts(s);
    } else {
      hide MainNext;
    }
  }

  lemma MainAccepts(s: State)
    requires s.main != MIdle
    ensures MainNext(s).accepted == s.accepted
  {
    if s.main in {MLoop, MPop, MMark, MSendMark} || s.main.MSend? {
      LoopAccepts(s);
    } else {
      EdgeAccepts(s);
    }
  }

  lemma LoopAccepts(s: State)
    requires s.main in {MLoop, MPop, MMark, MSendMark} || s.main.MSend?
    ensures MainNext(s).accepted == s.accepted
  {
  }

  lemma EdgeAccepts(s: State)
    requires s.main in {MCheck, MToSleep, MStop, MToWake, MLock, MInit, MDeinit}
    ensures MainNext(s).accepted == s.accepted
  {
  }

  /** Whether the last of the SUSPENDED acks and wakeups among the first `i` steps was a
      SUSPENDED ack. */
  ghost function LastWasSuspend(ss: seq<State>, steps: seq<Step>, i: nat): bool
    requires Run(ss, steps) && i <= |steps|
  {
    if i == 0 then ss[0].suspended
    else
      var s, a := ss[i - 1], steps[i - 1];
      if a.AckClear? then false
      else if a.AckAfter? && a.t < |s.acks| && s.acks[a.t] == AAfter(Suspend) then true
      else LastWasSuspend(ss, steps, i - 1)
  }

  /** The source is suspended from a SUSPENDED ack until a thread wakes it up, and starts to
      send a message or a mark only when it is not suspended and its window is open. */
  lemma {:induction false} SendsOnlyWhenFree(ss: seq<State>, steps: seq<Step>, i: nat)
    requires Run(ss, steps) && i <= |steps|
    ensures ss[i].suspended == LastWasSuspend(ss, steps, i)
    ensures i < |steps| && ss[i + 1].main in {MPop, MSendMark} && ss[i].main != ss[i + 1].main ==>
              ss[i].window > 0 && !ss[i].suspended
  {
    hide Next;
    if i > 0 {
      SendsOnlyWhenFree(ss, steps, i - 1);
      assert Enabled(ss[i - 1], steps[i - 1]);
      StepSuspends(ss[i - 1], steps[i - 1]);
    }
    if i < |steps| {
      assert Enabled(ss[i], steps[i]);
      StepSends(ss[i], steps[i]);
    }
  }

  lemma StepSuspends(s: State, a: Step)
    requires Enabled(s, a)
    ensures Next(s, a).suspended ==
            if a.AckClear? then false
            else if a.AckAfter? && s.acks[a.t] == AAfter(Suspend) then true else s.suspended
  {
    if a == Main {
      MainSuspends(s);
    } else {
      hide MainNext;
    }
  }

  lemma MainSuspends(s: State)
    requires s.main != MIdle
    ensures MainNext(s).suspended == s.suspended
  {
    if s.main in {MLoop, MPop, MMark, MSendMark} || s.main.MSend? {
      LoopSuspends(s);
    } else {
      EdgeSuspends(s);
    }
  }

  lemma LoopSuspends(s: State)
    requires s.main in {MLoop, MPop, MMark, MSendMark} || s.main.MSend?
    ensures MainNext(s).suspended == s.suspended
  {
  }

  lemma EdgeSuspends(s: State)
    requires s.main in {MCheck, MToSleep, MStop, MToWake, MLock, MInit, MDeinit}
    ensures MainNext(s).suspended == s.suspended
  {
  }

  lemma StepSends(s: State, a: Step)
    requires Enabled(s, a)
    ensures Next(s, a).main in {MPop, MSendMark} && s.main != Next(s, a).main ==> s.window > 0 && !s.suspended
  {
    if a.AckBegin? || a.AckTest? || a.AckClear? || a.AckPost? || a.AckAfter? {
      hide Next;
      AckAlone(s, a);
    } else if a == Main {
      if s.main in {MLoop, MPop, MMark, MSendMark} || s.main.MSend? {
        LoopSends(s);
      } else {
        EdgeSends(s);
      }
    } else {
      hide MainNext;
    }
  }

  lemma LoopSends(s: State)
    requires s.main in {MLoop, MPop, MMark, MSendMark} || s.main.MSend?
    ensures MainNext(s).main in {MPop, MSendMark} ==> s.window > 0 && !s.suspended
  {
  }

  lemma EdgeSends(s: State)
    requires s.main in {MCheck, MToSleep, MStop, MToWake, MLock, MInit, MDeinit}
    ensures MainNext(s).main !in {MPop, MSendMark}
  {
  }
}
