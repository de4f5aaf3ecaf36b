/** The threaded destination: it takes the queue's first message, hands it to the
    worker and, by the worker's answer, finishes it or puts it back. */
module ThreadedDest {
  import opened Wrappers
  import opened Fifo
  import opened LogQueueFifo
  import Throttle

  datatype Result = Drop | NotConnected | Error | Rewound | Success

  datatype Verdict = Verdict(node: Node, accepted: bool)

  datatype Try = Try(node: Node, result: Result)

  /** `line` is what the queue holds, `log` the messages finished, `tries` every
      answer the worker gave. */
  datatype State = State(line: seq<Node>, suspended: bool, counter: nat, log: seq<Verdict>, tries: seq<Try>)

  function Finish(s: State, accepted: bool): State
    requires s.line != []
  {
    s.(line := s.line[1..], counter := 0, log := s.log + [Verdict(s.line[0], accepted)])
  }

  /** One turn of the do_insert loop. */
  function Insert(s: State, r: Result, max: nat): State
    requires s.line != []
  {
    var t := s.(tries := s.tries + [Try(s.line[0], r)]);
    match r
    case Drop => Finish(t, false).(suspended := true)
    case NotConnected => t.(suspended := true)
    case Error => if t.counter + 1 >= max then Finish(t, false)
                  else t.(counter := t.counter + 1, suspended := true)
    case Rewound => t
    case Success => Finish(t, true)
  }

  // ----- the results, over every run

  datatype Event = Answer(result: Result) | Arrive(node: Node) | Resume

  predicate Enabled(s: State, e: Event) {
    e.Answer? ==> !s.suspended && s.line != []
  }

  function Next(s: State, e: Event, max: nat): State
    requires Enabled(s, e)
  {
    match e
    case Answer(r) => Insert(s, r, max)
    case Arrive(n) => s.(line := s.line + [n])
    case Resume => s.(suspended := false)
  }

  ghost predicate Run(ss: seq<State>, es: seq<Event>, max: nat) {
    && |ss| == |es| + 1 && ss[0].counter == 0 && ss[0].log == [] && ss[0].tries == []
    && forall i :: 0 <= i < |es| ==> Enabled(ss[i], es[i]) && ss[i + 1] == Next(ss[i], es[i], max)
  }

  function Nodes(log: seq<Verdict>): seq<Node> { seq(|log|, i requires 0 <= i < |log| => log[i].node) }

  function Arrivals(es: seq<Event>): seq<Node> {
    if es == [] then []
    else Arrivals(es[..|es| - 1]) + (if es[|es| - 1].Arrive? then [es[|es| - 1].node] else [])
  }

  /** The messages finished, then those still queued. */
  function All(s: State): seq<Node> { Nodes(s.log) + s.line }

  lemma InsertKeepsAll(s: State, r: Result, max: nat)
    requires s.line != []
    ensures All(Insert(s, r, max)) == All(s)
  {
    var t := Insert(s, r, max);
    if t.log != s.log {
      assert Nodes(t.log) == Nodes(s.log) + [s.line[0]];
      assert s.line == [s.line[0]] + t.line;
    }
  }

  /** Everything that was or came into the queue is finished or still waiting, in the
      order it was queued: nothing is skipped, repeated or overtaken. */
  lemma {:induction false} InQueueOrder(ss: seq<State>, es: seq<Event>, max: nat, i: nat)
    requires Run(ss, es, max) && i < |ss|
    ensures All(ss[i]) == ss[0].line + Arrivals(es[..i])
  {
    if i > 0 {
      InQueueOrder(ss, es, max, i - 1);
      assert es[..i][..i - 1] == es[..i - 1];
      var s, e := ss[i - 1], es[i - 1];
      match e
      case Answer(r) => InsertKeepsAll(s, r, max);
      case Arrive(n) => assert Nodes(s.log) + (s.line + [n]) == Nodes(s.log) + s.line + [n];
      case Resume =>
    }
  }

  ghost function Errors(tries: seq<Try>, n: Node): nat {
    if tries == [] then 0
    else Errors(tries[..|tries| - 1], n) + (if tries[|tries| - 1] == Try(n, Error) then 1 else 0)
  }

  ghost predicate Distinct(ns: seq<Node>) {
    forall i, j :: 0 <= i < j < |ns| ==> ns[i] != ns[j]
  }

  /** The retry counter counts the ERROR answers of the message at the head. */
  ghost predicate RetryInv(s: State, all: seq<Node>, max: nat) {
    && s.counter < max && |s.log| <= |all| && (|s.log| == |all| ==> s.counter == 0)
    && (forall i :: 0 <= i < |all| ==> (if i < |s.log| then Errors(s.tries, all[i]) <= max
                                        else if i == |s.log| then Errors(s.tries, all[i]) == s.counter
                                        else Errors(s.tries, all[i]) == 0))
    && forall i :: 0 <= i < |s.tries| ==> s.tries[i].node in all
  }

  lemma {:induction false} NeverTried(tries: seq<Try>, n: Node)
    requires forall i :: 0 <= i < |tries| ==> tries[i].node != n
    ensures Errors(tries, n) == 0
  {
    if tries != [] { NeverTried(tries[..|tries| - 1], n); }
  }

  lemma OneMoreTry(s: State, r: Result, n: Node)
    requires s.line != []
    ensures Errors(s.tries + [Try(s.line[0], r)], n)
            == Errors(s.tries, n) + (if n == s.line[0] && r == Error then 1 else 0)
  {
    assert (s.tries + [Try(s.line[0], r)])[..|s.tries|] == s.tries;
  }

  lemma InsertKeepsRetries(s: State, r: Result, max: nat)
    requires RetryInv(s, All(s), max) && s.line != [] && Distinct(All(s))
    ensures RetryInv(Insert(s, r, max), All(s), max)
  {
    var all := All(s);
    assert all[|s.log|] == s.line[0];
    forall n { OneMoreTry(s, r, n); }
  }

  lemma ArriveKeepsRetries(s: State, n: Node, max: nat)
    requires RetryInv(s, All(s), max) && Distinct(All(s) + [n])
    ensures RetryInv(s, All(s) + [n], max)
  {
    forall i | 0 <= i < |s.tries|
      ensures s.tries[i].node != n
    {
      var j :| 0 <= j < |All(s)| && All(s)[j] == s.tries[i].node;
      assert (All(s) + [n])[j] != (All(s) + [n])[|All(s)|];
    }
    NeverTried(s.tries, n);
  }

  lemma NextKeepsRetries(s: State, e: Event, max: nat)
    requires RetryInv(s, All(s), max) && Enabled(s, e) && Distinct(All(Next(s, e, max)))
    ensures RetryInv(Next(s, e, max), All(Next(s, e, max)), max)
  {
    match e
    case Answer(r) =>
      InsertKeepsAll(s, r, max);
      InsertKeepsRetries(s, r, max);
    case Arrive(n) =>
      assert All(Next(s, e, max)) == All(s) + [n];
      ArriveKeepsRetries(s, n, max);
    case Resume =>
  }

  lemma StillDistinct(ss: seq<State>, es: seq<Event>, max: nat, i: nat)
    requires Run(ss, es, max) && i < |ss| && Distinct(ss[0].line + Arrivals(es))
    ensures Distinct(All(ss[i]))
  {
    InQueueOrder(ss, es, max, i);
    ArrivalsPrefix(es, i);
    var all, later := All(ss[i]), ss[0].line + Arrivals(es);
    assert forall j :: 0 <= j < |all| ==> all[j] == later[j];
  }

  /** No message gets more than `max` ERROR answers. */
  lemma {:induction false} RetriesBounded(ss: seq<State>, es: seq<Event>, max: nat, i: nat)
    requires Run(ss, es, max) && i < |ss| && max > 0 && Distinct(ss[0].line + Arrivals(es))
    ensures RetryInv(ss[i], All(ss[i]), max)
    ensures forall n :: n in All(ss[i]) ==> Errors(ss[i].tries, n) <= max
  {
    if i > 0 {
      RetriesBounded(ss, es, max, i - 1);
      StillDistinct(ss, es, max, i);
      NextKeepsRetries(ss[i - 1], es[i - 1], max);
    }
  }

  lemma {:induction false} ArrivalsPrefix(es: seq<Event>, i: nat)
    requires i <= |es|
    ensures Arrivals(es[..i]) <= Arrivals(es)
  {
    if i < |es| {
      assert es[..|es| - 1][..i] == es[..i];
      ArrivalsPrefix(es[..|es| - 1], i);
    } else {
      assert es[..i] == es;
    }
  }

  // ----- what the answers do to a message

  /** What the answers given for `n` make of it: nothing yet, accepted, or dropped. */
  ghost predicate Judged(tries: seq<Try>, n: Node, verdict: Option<bool>, max: nat) {
    && (verdict == Some(true) <==> Try(n, Success) in tries)
    && (verdict == Some(false) <==> Try(n, Drop) in tries || Errors(tries, n) == max)
  }

  function VerdictAt(log: seq<Verdict>, i: nat): Option<bool> { if i < |log| then Some(log[i].accepted) else None }

  /** Every message is judged by the answers given for it. */
  ghost predicate VerdictInv(s: State, all: seq<Node>, max: nat) {
    && (forall i :: 0 <= i < |all| ==> Judged(s.tries, all[i], VerdictAt(s.log, i), max))
    && forall i :: 0 <= i < |s.tries| ==> s.tries[i].node in all
  }

  lemma OtherTry(tries: seq<Try>, t: Try, n: Node, verdict: Option<bool>, max: nat)
    requires Judged(tries, n, verdict, max) && t.node != n
    ensures Judged(tries + [t], n, verdict, max)
  {
    assert (tries + [t])[..|tries|] == tries;
  }

  /** The message at the head, whose ERROR answers are counted by `counter`. */
  lemma OwnTry(tries: seq<Try>, n: Node, r: Result, counter: nat, max: nat)
    requires Judged(tries, n, None, max) && Errors(tries, n) == counter < max
    ensures Judged(tries + [Try(n, r)], n,
                   if r == Success then Some(true)
                   else if r == Drop || (r == Error && counter + 1 >= max) then Some(false) else None, max)
  {
    var more := tries + [Try(n, r)];
    assert more[..|tries|] == tries && more[|tries|] == Try(n, r);
    assert forall t :: t in more <==> t in tries || t == Try(n, r);
  }

  lemma InsertKeepsVerdicts(s: State, r: Result, max: nat)
    requires VerdictInv(s, All(s), max) && RetryInv(s, All(s), max) && s.line != [] && Distinct(All(s))
    ensures VerdictInv(Insert(s, r, max), All(s), max)
  {
    hide Judged, Errors;
    var all, t := All(s), Insert(s, r, max);
    var head := |s.log|;
    assert all[head] == s.line[0];
    OwnTry(s.tries, s.line[0], r, s.counter, max);
    forall i | 0 <= i < |all|
      ensures Judged(t.tries, all[i], VerdictAt(t.log, i), max)
    {
      assert Judged(s.tries, all[i], VerdictAt(s.log, i), max);
      if i != head {
        assert all[i] != all[head];
        OtherTry(s.tries, Try(s.line[0], r), all[i], VerdictAt(s.log, i), max);
      }
    }
    assert all[head] in all;
  }

  lemma NotTried(s: State, n: Node, max: nat)
    requires VerdictInv(s, All(s), max) && Distinct(All(s) + [n]) && max > 0
    ensures VerdictInv(s, All(s) + [n], max)
  {
    var all := All(s) + [n];
    forall i | 0 <= i < |s.tries|
      ensures s.tries[i].node != n
    {
      var before := All(s);
      assert s.tries[i].node in before;
      var j :| 0 <= j < |before| && before[j] == s.tries[i].node;
      assert all[j] != all[|before|];
    }
    NeverTried(s.tries, n);
  }

  lemma NextKeepsVerdicts(s: State, e: Event, max: nat)
    requires VerdictInv(s, All(s), max) && RetryInv(s, All(s), max) && max > 0
    requires Enabled(s, e) && Distinct(All(Next(s, e, max)))
    ensures VerdictInv(Next(s, e, max), All(Next(s, e, max)), max)
  {
    hide VerdictInv, RetryInv;
    match e
    case Answer(r) =>
      InsertKeepsAll(s, r, max);
      InsertKeepsVerdicts(s, r, max);
    case Arrive(n) =>
      assert All(Next(s, e, max)) == All(s) + [n];
      NotTried(s, n, max);
      SameVerdicts(s, Next(s, e, max), All(s) + [n], max);
    case Resume => SameVerdicts(s, Next(s, e, max), All(s), max);
  }

  lemma SameVerdicts(s: State, t: State, all: seq<Node>, max: nat)
    requires VerdictInv(s, all, max) && t.tries == s.tries && t.log == s.log
    ensures VerdictInv(t, all, max)
  {
  }

  lemma {:induction false} RunKeepsVerdicts(ss: seq<State>, es: seq<Event>, max: nat, i: nat)
    requires Run(ss, es, max) && i < |ss| && max > 0 && Distinct(ss[0].line + Arrivals(es))
    ensures VerdictInv(ss[i], All(ss[i]), max)
  {
    if i > 0 {
      hide VerdictInv, Insert;
      RunKeepsVerdicts(ss, es, max, i - 1);
      RetriesBounded(ss, es, max, i - 1);
      StillDistinct(ss, es, max, i);
      NextKeepsVerdicts(ss[i - 1], es[i - 1], max);
    }
  }

  /** In every run a message was accepted if and only if the worker answered SUCCESS for it,
      and dropped if and only if it answered DROP, or ERROR for the max-th time. */
  lemma VerdictIff(ss: seq<State>, es: seq<Event>, max: nat, i: nat, n: Node)
    requires Run(ss, es, max) && i < |ss| && max > 0 && Distinct(ss[0].line + Arrivals(es))
    ensures Verdict(n, true) in ss[i].log <==> Try(n, Success) in ss[i].tries
    ensures Verdict(n, false) in ss[i].log <==> Try(n, Drop) in ss[i].tries || Errors(ss[i].tries, n) == max
  {
    RunKeepsVerdicts(ss, es, max, i);
    StillDistinct(ss, es, max, i);
    var s := ss[i];
    var all := All(s);
    if n in all {
      var k :| 0 <= k < |all| && all[k] == n;
      assert Judged(s.tries, n, VerdictAt(s.log, k), max);
      forall a | Verdict(n, a) in s.log
        ensures VerdictAt(s.log, k) == Some(a)
      {
        var j :| 0 <= j < |s.log| && s.log[j] == Verdict(n, a);
        assert all[j] == n;
      }
      if VerdictAt(s.log, k).Some? {
        assert s.log[k].node == n;
      }
    } else {
      NoneOf(s, n);
      NeverTried(s.tries, n);
    }
  }

  lemma NoneOf(s: State, n: Node)
    requires n !in All(s)
    requires forall i :: 0 <= i < |s.tries| ==> s.tries[i].node in All(s)
    ensures forall i :: 0 <= i < |s.tries| ==> s.tries[i].node != n
    ensures forall a :: Verdict(n, a) !in s.log
  {
    forall j | 0 <= j < |s.log|
      ensures s.log[j].node != n
    {
      assert All(s)[j] == s.log[j].node;
    }
  }

  /** A message that is finished is never handed to the worker again. */
  lemma {:induction false} NoTryAfter(ss: seq<State>, es: seq<Event>, max: nat, i: nat, j: nat, v: Verdict)
    requires Run(ss, es, max) && i <= j < |ss| && Distinct(ss[0].line + Arrivals(es)) && v in ss[i].log
    ensures ss[i].log <= ss[j].log && ss[i].tries <= ss[j].tries
    ensures forall k :: |ss[i].tries| <= k < |ss[j].tries| ==> ss[j].tries[k].node != v.node
    decreases j
  {
    hide Next, Enabled;
    if i < j {
      NoTryAfter(ss, es, max, i, j - 1, v);
      StillDistinct(ss, es, max, j - 1);
      StepTries(ss[j - 1], es[j - 1], max, v);
    }
  }

  /** Only the message at the head is tried, and that is none of those finished. */
  lemma StepTries(s: State, e: Event, max: nat, v: Verdict)
    requires Enabled(s, e) && Distinct(All(s)) && v in s.log
    ensures var t := Next(s, e, max);
            && s.log <= t.log && s.tries <= t.tries
            && forall k :: |s.tries| <= k < |t.tries| ==> t.tries[k].node != v.node
  {
    if e.Answer? {
      var k :| 0 <= k < |s.log| && s.log[k] == v;
      assert All(s)[k] == v.node && All(s)[|s.log|] == s.line[0];
    }
  }

  /** After an answer the driver goes on at once, unless it was DROP or NOT_CONNECTED, or an
      ERROR for a message that is to be tried again; and the message stays at the head exactly
      when no answer has finished it. */
  lemma AfterAnswer(ss: seq<State>, es: seq<Event>, max: nat, i: nat)
    requires Run(ss, es, max) && i < |es| && es[i].Answer? && max > 0 && Distinct(ss[0].line + Arrivals(es))
    ensures var n, t := ss[i].line[0], ss[i + 1];
            && (t.line == ss[i].line <==> !(exists a :: Verdict(n, a) in t.log))
            && (t.suspended <==>
                  es[i].result in {Drop, NotConnected} || (es[i].result == Error && t.line == ss[i].line))
  {
    hide Errors;
    var s, t := ss[i], ss[i + 1];
    StillDistinct(ss, es, max, i);
    assert All(s)[|s.log|] == s.line[0];
    if t.log == s.log {
      forall j | 0 <= j < |s.log|
        ensures s.log[j].node != s.line[0]
      {
        assert All(s)[j] == s.log[j].node;
      }
    } else {
      assert t.log[|s.log|].node == s.line[0];
      assert Verdict(s.line[0], t.log[|s.log|].accepted) in t.log;
    }
  }

  /** The driver, its queue and the rate limit of the queue. */
  class Driver {
    const queue: FifoQueue
    const limiter: Throttle.Limiter
    const max: nat
    var suspended: bool
    var counter: nat
    var log: seq<Verdict>
    ghost var tries: seq<Try>

    ghost function Model(): State
      reads this, queue
    {
      State(queue.Model().line, suspended, counter, log, tries)
    }

    /** Between two messages the backlog is empty. */
    ghost predicate Valid()
      reads this, queue
    {
      queue.Valid() && queue.Counted() && queue.useBacklog && queue.backlog == []
    }

    /** log_threaded_dest_driver_start(): a limit that is not positive becomes 3. */
    constructor (queue: FifoQueue, limiter: Throttle.Limiter, retries: int)
      requires queue.Valid() && queue.Counted() && queue.useBacklog && queue.backlog == []
      ensures Valid() && this.queue == queue && this.limiter == limiter && max == (if retries <= 0 then 3 else retries)
      ensures Model() == State(queue.Model().line, false, 0, [], [])
    {
      this.queue, this.limiter, max := queue, limiter, if retries <= 0 then 3 else retries;
      suspended, counter, log, tries := false, 0, [], [];
    }

    /** The do_insert loop; `results` are the answers the worker will give.  It stops
        when the driver is suspended, the queue is empty, the rate limit is reached or there
        are no more answers; `ss` are the states it goes through. */
    method DoInsert(results: seq<Result>) returns (used: nat, ghost ss: seq<State>)
      requires Valid()
      modifies this, queue, limiter
      ensures Valid() && used <= |results|
      ensures used < |results| ==>
                suspended || queue.Model().line == [] || (limiter.throttle != 0 && limiter.tokens == 0)
      ensures Turns(ss, results[..used], max) && ss[0] == old(Model()) && ss[used] == Model()
      ensures limiter.throttle == old(limiter.throttle)
      ensures limiter.throttle > 0 && old(limiter.tokens) >= 0 ==> limiter.tokens == old(limiter.tokens) - used >= 0
    {
      used, ss := 0, [Model()];
      while !suspended && used < |results|
        invariant Valid() && used <= |results|
        invariant Turns(ss, results[..used], max) && ss[0] == old(Model()) && ss[used] == Model()
        invariant limiter.throttle == old(limiter.throttle)
        invariant limiter.throttle > 0 && old(limiter.tokens) >= 0 ==> limiter.tokens == old(limiter.tokens) - used >= 0
        decreases |results| - used
      {
        var popped := Turn(results[used]);
        if !popped { break; }
        ss := ss + [Model()];
        assert results[..used + 1] == results[..used] + [results[used]];
        used := used + 1;
      }
    }

    method Turn(r: Result) returns (popped: bool)
      requires Valid()
      modifies this, queue, limiter
      ensures Valid() && popped == (old(Model()).line != [] && (limiter.throttle == 0 || old(limiter.tokens) != 0))
      ensures Model() == if popped then Insert(old(Model()), r, max) else old(Model())
      ensures limiter.throttle == old(limiter.throttle)
      ensures limiter.tokens == old(limiter.tokens) - (if popped && old(limiter.tokens) > 0 then 1 else 0)
    {
      if !limiter.Open() { return false; }
      var msg := queue.PopHead();
      popped := msg.Some?;
      limiter.Charge(popped);
      if popped { Settle(msg.value, r); }
    }

    /** The body of the loop once a message has been popped. */
    method Settle(msg: Node, r: Result)
      requires queue.Valid() && queue.Counted() && queue.useBacklog && |queue.backlog| == 1 && msg == queue.backlog[0]
      modifies this, queue
      ensures Valid() && Model() == Insert(old(Model()), r, max)
    {
      tries := tries + [Try(msg, r)];
      match r {
        case Drop =>
          Accept(msg, false);
          suspended := true;
        case NotConnected =>
          queue.RewindBacklog(1);
          suspended := true;
        case Error =>
          counter := counter + 1;
          if counter >= max {
            Accept(msg, false);
          } else {
            queue.RewindBacklog(1);
            suspended := true;
          }
        case Rewound =>
          queue.RewindBacklog(1);
        case Success =>
          Accept(msg, true);
      }
    }

    method Accept(msg: Node, accepted: bool)
      requires queue.Valid() && queue.Counted() && queue.useBacklog && |queue.backlog| == 1 && msg == queue.backlog[0]
      modifies this`counter, this`log, queue
      ensures Valid() && Model() == Finish(old(Model()), accepted)
    {
      counter := 0;
      log := log + [Verdict(msg, accepted)];
      queue.AckBacklog(1);
    }
  }

  /** The turns of the loop are answers in a run of the machine. */
  lemma {:induction false} TurnsAreRun(ss: seq<State>, es: seq<Event>, max: nat, ts: seq<State>, rs: seq<Result>)
      returns (ss': seq<State>, es': seq<Event>)
    requires Run(ss, es, max) && Turns(ts, rs, max) && ts[0] == ss[|es|]
    ensures Run(ss', es', max) && |es'| == |es| + |rs| && ss'[|es'|] == ts[|rs|]
    ensures ss <= ss' && es <= es' && forall i :: 0 <= i < |rs| ==> es'[|es| + i] == Answer(rs[i])
    decreases |rs|
  {
    hide Insert;
    if rs == [] {
      ss', es' := ss, es;
    } else {
      var n := |rs| - 1;
      assert Turns(ts[..n + 1], rs[..n], max);
      ss', es' := TurnsAreRun(ss, es, max, ts[..n + 1], rs[..n]);
      ss', es' := ss' + [ts[n + 1]], es' + [Answer(rs[n])];
    }
  }

  /** Consecutive turns of the loop with the driver not suspended in between. */
  ghost predicate Turns(ss: seq<State>, rs: seq<Result>, max: nat) {
    && |ss| == |rs| + 1
    && forall i :: 0 <= i < |rs| ==> !ss[i].suspended && ss[i].line != [] && ss[i + 1] == Insert(ss[i], rs[i], max)
  }
}
