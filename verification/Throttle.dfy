/** The token bucket of log_queue_check_items() and log_queue_pop_head().  Times are
    microseconds; a time within the first second stands for "never checked". */
module Throttle {
  import opened Wrappers

  const USEC := 1_000_000

  function Wrap32(n: int): int { (n + 0x8000_0000) % 0x1_0000_0000 - 0x8000_0000 }

  function Wrap64(n: int): int {
    (n + 0x8000_0000_0000_0000) % 0x1_0000_0000_0000_0000 - 0x8000_0000_0000_0000
  }

  /** Division as in C, towards zero. */
  function Quot(n: int, d: int): int
    requires d > 0
  {
    if n >= 0 then n / d else -(-n / d)
  }

  datatype Bucket = Bucket(throttle: int, tokens: int, last: int)

  /** The tokens that `diff` microseconds are worth, in the code's integer types. */
  function Earned(throttle: int, diff: int): int { Wrap32(Quot(Wrap64(throttle * diff), USEC)) }

  /** The bucket after log_queue_check_items() on a non-empty queue. */
  function Checked(b: Bucket, now: int): Bucket {
    var c := if b.last / USEC != 0 then b else b.(last := now);
    var n := Earned(b.throttle, now - c.last);
    if n == 0 then c
    else c.(tokens := (var t := Wrap32(c.tokens + n); if t < c.throttle then t else c.throttle), last := now)
  }

  function Timeout(throttle: int): int
    requires throttle > 0
  {
    1000 / throttle + 1
  }

  class Limiter {
    var throttle: int
    var tokens: int
    var last: int
    /** Whether a wakeup is registered for the next push. */
    var notify: bool

    ghost function Model(): Bucket
      reads this
    {
      Bucket(throttle, tokens, last)
    }

    /** log_queue_set_throttle() on a fresh queue */
    constructor (throttle: int)
      ensures Model() == Bucket(throttle, throttle, 0) && !notify
    {
      this.throttle, tokens, last, notify := throttle, throttle, 0, false;
    }

    /** `length` is the length of the queue.  The consumer goes ahead, or is woken by
        the next push, or has to come back after `timeout` milliseconds. */
    method CheckItems(length: nat, now: int) returns (ok: bool, timeout: int)
      modifies this`tokens, this`last, this`notify
      ensures notify == (length == 0)
      ensures Model() == if length > 0 && throttle > 0 then Checked(old(Model()), now) else old(Model())
      ensures ok == (length > 0 && (throttle > 0 ==> tokens != 0))
      ensures timeout == if !ok && length > 0 then Timeout(throttle) else 0
    {
      timeout := 0;
      if length == 0 {
        notify := true;
        return false, 0;
      }
      notify := false;
      if throttle > 0 {
        var diff;
        if last / USEC != 0 {
          diff := now - last;
        } else {
          diff := 0;
          last := now;
        }
        var newTokens := Wrap32(Quot(Wrap64(throttle * diff), USEC));
        if newTokens != 0 {
          var sum := Wrap32(tokens + newTokens);
          tokens := if throttle < sum then throttle else sum;
          last := now;
        }
        if tokens == 0 {
          return false, 1000 / throttle + 1;
        }
      }
      ok := true;
    }

    /** Whether log_queue_pop_head() lets a message pass. */
    predicate Open()
      reads this`throttle, this`tokens
    {
      throttle == 0 || tokens != 0
    }

    /** The token of a message popped. */
    method Charge(popped: bool)
      modifies this`tokens
      ensures tokens == old(tokens) - (if popped && old(tokens) > 0 then 1 else 0)
    {
      if popped && tokens > 0 { tokens := tokens - 1; }
    }

    /** log_queue_pop_head(); `available` says whether the queue has a message. */
    method PopHead(available: bool) returns (popped: bool)
      modifies this`tokens
      ensures popped == (available && (throttle == 0 || old(tokens) != 0))
      ensures tokens == old(tokens) - (if popped && old(tokens) > 0 then 1 else 0)
    {
      if throttle != 0 && tokens == 0 { return false; }
      popped := available;
      Charge(popped);
    }
  }

  // ----- what the code keeps

  lemma NoWrap(n: int)
    ensures -0x8000_0000 <= n < 0x8000_0000 ==> Wrap32(n) == n
    ensures -0x8000_0000_0000_0000 <= n < 0x8000_0000_0000_0000 ==> Wrap64(n) == n
  {
  }

  /** The time since the last check that counted, as the code takes it. */
  function Since(b: Bucket, now: int): int { if b.last / USEC != 0 then now - b.last else 0 }

  /** The tokens that really accrue in `diff` microseconds. */
  function Accrued(throttle: int, diff: int): int { throttle * diff / USEC }

  /** The tokens credited by a check, before they are truncated to 32 bits. */
  function Credit(b: Bucket, now: int): int
    requires b.throttle > 0
  {
    Quot(Wrap64(b.throttle * Since(b, now)), USEC)
  }

  /** Credited is what accrues, if the product fits in 64 bits. */
  lemma CreditIs(b: Bucket, now: int)
    requires b.throttle > 0 && Since(b, now) >= 0 && b.throttle * Since(b, now) < 0x8000_0000_0000_0000
    ensures Credit(b, now) == Accrued(b.throttle, Since(b, now)) >= 0
  {
    assert b.throttle * Since(b, now) >= 0;
    NoWrap(b.throttle * Since(b, now));
  }

  /** The credit is a multiple of 2^32, or leaves bit 31 of the sum clear. */
  predicate Fits(b: Bucket, now: int)
    requires b.throttle > 0
  {
    var q := Credit(b, now);
    q % 0x1_0000_0000 == 0 || (b.tokens + q) % 0x1_0000_0000 < 0x8000_0000
  }

  /** The bucket stays between 0 and the limit after a check exactly when the credit fits, and
      turns negative otherwise. */
  lemma RangeKept(b: Bucket, now: int)
    requires 0 <= b.tokens <= b.throttle && b.throttle > 0
    ensures Fits(b, now) <==> 0 <= Checked(b, now).tokens <= b.throttle
    ensures !Fits(b, now) <==> Checked(b, now).tokens < 0
  {
    hide Wrap32, Credit, Checked;
    CheckedTokens(b, now);
    SignBit(b.tokens + Credit(b, now));
  }

  lemma CheckedTokens(b: Bucket, now: int)
    requires b.throttle > 0
    ensures var q := Credit(b, now);
            var t := Wrap32(b.tokens + q);
            Checked(b, now).tokens ==
            if q % 0x1_0000_0000 == 0 then b.tokens else if t < b.throttle then t else b.throttle
  {
    hide Wrap32, Wrap64, Quot;
    WrapsAgain(b.tokens, Credit(b, now));
  }

  lemma SignBit(n: int)
    ensures Wrap32(n) >= 0 <==> n % 0x1_0000_0000 < 0x8000_0000
  {
  }

  /** Truncating first makes no difference to the sum, and only multiples of 2^32 vanish. */
  lemma WrapsAgain(a: int, e: int)
    ensures Wrap32(a + Wrap32(e)) == Wrap32(a + e)
    ensures Wrap32(e) == 0 <==> e % 0x1_0000_0000 == 0
  {
    var q := (e + 0x8000_0000) / 0x1_0000_0000;
    assert e + 0x8000_0000 == q * 0x1_0000_0000 + (e + 0x8000_0000) % 0x1_0000_0000;
    assert Wrap32(e) == e - q * 0x1_0000_0000;
    SameRest(a + e + 0x8000_0000, q);
  }

  lemma SameRest(x: int, q: int)
    ensures (x - q * 0x1_0000_0000) % 0x1_0000_0000 == x % 0x1_0000_0000
  {
    var u := x / 0x1_0000_0000;
    var r := x % 0x1_0000_0000;
    assert x - q * 0x1_0000_0000 == (u - q) * 0x1_0000_0000 + r;
    UniqueRest(x - q * 0x1_0000_0000, u - q, r);
  }

  lemma UniqueRest(y: int, k: int, r: int)
    requires y == k * 0x1_0000_0000 + r && 0 <= r < 0x1_0000_0000
    ensures y % 0x1_0000_0000 == r
  {
    var k' := y / 0x1_0000_0000;
    assert y == k' * 0x1_0000_0000 + y % 0x1_0000_0000;
    assert (k - k') * 0x1_0000_0000 == y % 0x1_0000_0000 - r;
  }

  /** What a consumer can rely on: the tokens that accrue between two checks, together with
      those in the bucket, fit in 31 bits, or else the bucket turns negative. */
  lemma PauseBounded(b: Bucket, now: int)
    requires 0 <= b.tokens <= b.throttle && 0 < b.throttle < 0x8000_0000 && Since(b, now) >= 0
    ensures var sum := b.tokens + Accrued(b.throttle, Since(b, now));
            && (sum < 0x8000_0000 ==> 0 <= Checked(b, now).tokens == (if sum < b.throttle then sum else b.throttle))
            && (0x8000_0000 <= sum < 0x1_0000_0000 ==> Checked(b, now).tokens < 0)
  {
    hide Checked, Since, Credit;
    var d := Since(b, now);
    var e := Accrued(b.throttle, d);
    if b.tokens + e < 0x1_0000_0000 {
      Within(b.throttle * d);
      CreditIs(b, now);
      CheckedTokens(b, now);
      assert b.throttle * d >= 0;
      SmallWrap(b.tokens, e);
    }
  }

  lemma Within(p: int)
    requires p / USEC < 0x1_0000_0000
    ensures p < 0x8000_0000_0000_0000
  {
  }

  lemma SmallWrap(a: int, e: int)
    requires 0 <= a && 0 <= e && a + e < 0x1_0000_0000
    ensures e % 0x1_0000_0000 == e
    ensures Wrap32(a + e) == if a + e < 0x8000_0000 then a + e else a + e - 0x1_0000_0000
  {
  }

  /** The shortest pause that goes wrong with an empty bucket. */
  function FatalPause(throttle: int): (d: int)
    requires throttle > 0
    ensures d >= 0
  {
    (0x8000_0000 * USEC + throttle - 1) / throttle
  }

  lemma FatalPauseIsFirst(throttle: int, d: int)
    requires throttle > 0 && d >= 0
    ensures Accrued(throttle, d) >= 0x8000_0000 <==> d >= FatalPause(throttle)
  {
    var k := 0x8000_0000 * USEC;
    var f := FatalPause(throttle);
    var r := (k + throttle - 1) % throttle;
    assert k + throttle - 1 == throttle * f + r;
    if d >= f {
      assert throttle * d >= throttle * f;
    } else {
      assert throttle * d <= throttle * (f - 1);
    }
  }

  /** An empty bucket is full or in range after any shorter pause and negative after this
      one; a negative bucket lets every message pass without being charged. */
  lemma ShortestFatalPause(throttle: int, last: int, now: int)
    requires 0 < throttle < 0x8000_0000 && last >= USEC && now >= last
    ensures var b := Bucket(throttle, 0, last);
            && (now - last < FatalPause(throttle) ==> 0 <= Checked(b, now).tokens <= throttle)
            && (now - last == FatalPause(throttle) ==> Checked(b, now).tokens < 0)
  {
    var b := Bucket(throttle, 0, last);
    FatalPauseIsFirst(throttle, now - last);
    PauseBounded(b, now);
    if now - last == FatalPause(throttle) {
      assert throttle * FatalPause(throttle) <= 0x8000_0000 * USEC + throttle - 1;
    }
  }

  /** At 10000 messages a second that is after 59 hours and 39 minutes without a check. */
  lemma LongPauseOverflows()
    ensures FatalPause(10_000) == 214_748_364_800
    ensures Checked(Bucket(10_000, 0, 1_000_000), 1_000_000 + 214_748_364_800).tokens < 0
  {
    ShortestFatalPause(10_000, 1_000_000, 1_000_000 + 214_748_364_800);
  }

  // ----- the rate, over every run

  /** A bucket with the time of its first check, the time of the latest event and the
      number of messages let through. */
  datatype Meter = Meter(bucket: Bucket, first: Option<int>, clock: int, pops: nat)

  datatype Event = Check(now: int) | Take

  /** The clock does not go back. */
  predicate Enabled(m: Meter, e: Event) {
    match e
    case Take => m.bucket.tokens != 0
    case Check(now) => now >= m.clock && now >= USEC
  }

  function Next(m: Meter, e: Event): Meter {
    match e
    case Take =>
      m.(bucket := m.bucket.(tokens := m.bucket.tokens - (if m.bucket.tokens > 0 then 1 else 0)), pops := m.pops + 1)
    case Check(now) => m.(bucket := Checked(m.bucket, now), clock := now,
                          first := if m.first.None? then Some(now) else m.first)
  }

  /** At most a full bucket plus the rate times the time since the first check. */
  predicate Bounded(m: Meter) {
    match m.first
    case None => m.pops <= m.bucket.throttle
    case Some(f) => m.pops <= m.bucket.throttle + m.bucket.throttle * (m.clock - f) / USEC
  }

  /** The times of a meter, whatever its bucket holds. */
  predicate Timely(m: Meter) {
    && 0 < m.bucket.throttle < 0x8000_0000
    && match m.first
       case None => m.bucket.last == 0
       case Some(f) => USEC <= f && USEC <= m.bucket.last <= m.clock
  }

  ghost predicate Inv(m: Meter) {
    var b := m.bucket;
    && Timely(m) && 0 <= b.tokens <= b.throttle
    && match m.first
       case None => m.pops + b.tokens <= b.throttle
       case Some(f) => f <= b.last && (m.pops + b.tokens) * USEC <= b.throttle * USEC + b.throttle * (b.last - f)
  }

  lemma Longer(throttle: int, f: int, last: int, now: int)
    ensures throttle * (last - f) + throttle * (now - last) == throttle * (now - f)
  {
  }

  lemma CheckedLast(b: Bucket, now: int)
    requires b.throttle > 0
    ensures Checked(b, now).throttle == b.throttle
    ensures Checked(b, now).last == if Credit(b, now) % 0x1_0000_0000 != 0 || b.last / USEC == 0 then now else b.last
  {
    hide Wrap32, Wrap64, Quot;
    WrapsAgain(b.tokens, Credit(b, now));
  }

  /** What a check adds is never more than what accrued, even when the arithmetic wraps. */
  lemma NeverMore(b: Bucket, now: int)
    requires 0 <= b.tokens && 0 < b.throttle && Since(b, now) >= 0
    ensures Wrap32(b.tokens + Credit(b, now)) <= b.tokens + Accrued(b.throttle, Since(b, now))
  {
    hide Since, Credit;
    var p := b.throttle * Since(b, now);
    assert p >= 0;
    if p < 0x8000_0000_0000_0000 {
      CreditIs(b, now);
    } else {
      assert p / USEC >= 0x8000_0000_0000_0000 / USEC;
    }
  }

  lemma CheckKeeps(m: Meter, now: int)
    requires Inv(m) && Enabled(m, Check(now)) && Fits(m.bucket, now)
    ensures Inv(Next(m, Check(now)))
  {
    hide Checked, Wrap32, Credit, Fits;
    var b := m.bucket;
    RangeKept(b, now);
    CheckedTokens(b, now);
    CheckedLast(b, now);
    if m.first.Some? {
      var d := Since(b, now);
      assert d == now - b.last;
      NeverMore(b, now);
      Longer(b.throttle, m.first.value, b.last, now);
      Credited(m.pops, b.tokens, Accrued(b.throttle, d), b.throttle, b.throttle * (b.last - m.first.value),
          b.throttle * d);
    } else {
      NoCredit(b, now);
    }
  }

  lemma NoCredit(b: Bucket, now: int)
    requires b.throttle > 0 && b.last == 0
    ensures Credit(b, now) == 0
  {
    assert b.throttle * 0 == 0;
  }

  lemma Credited(pops: nat, tokens: int, n: int, throttle: int, x: int, y: int)
    requires (pops + tokens) * USEC <= throttle * USEC + x && n == y / USEC
    ensures (pops + tokens + n) * USEC <= throttle * USEC + (x + y)
  {
  }

  lemma InvBounded(m: Meter)
    requires Inv(m)
    ensures Bounded(m)
  {
    if m.first.Some? {
      var b, f := m.bucket, m.first.value;
      Longer(b.throttle, f, b.last, m.clock);
      assert b.throttle * (m.clock - b.last) >= 0;
      Divide(m.pops, b.throttle, b.throttle * (m.clock - f));
    }
  }

  lemma Divide(pops: int, throttle: int, x: int)
    requires pops * USEC <= throttle * USEC + x
    ensures pops <= throttle + x / USEC
  {
  }

  /** A run of the fresh bucket of log_queue_set_throttle(). */
  ghost predicate Run(ms: seq<Meter>, es: seq<Event>) {
    && |ms| == |es| + 1 && 0 < ms[0].bucket.throttle < 0x8000_0000
    && ms[0] == Meter(Bucket(ms[0].bucket.throttle, ms[0].bucket.throttle, 0), None, ms[0].clock, 0)
    && forall i :: 0 <= i < |es| ==> Enabled(ms[i], es[i]) && ms[i + 1] == Next(ms[i], es[i])
  }

  lemma {:induction false} RunTimely(ms: seq<Meter>, es: seq<Event>, i: nat)
    requires Run(ms, es) && i < |ms|
    ensures Timely(ms[i]) && ms[i].bucket.throttle == ms[0].bucket.throttle
  {
    if i > 0 {
      RunTimely(ms, es, i - 1);
      if es[i - 1].Check? {
        CheckedLast(ms[i - 1].bucket, es[i - 1].now);
      }
    }
  }

  /** All checks among the first `n` events fit. */
  ghost predicate Fitting(ms: seq<Meter>, es: seq<Event>, n: nat)
    requires Run(ms, es) && n <= |es|
  {
    forall j :: 0 <= j < n && es[j].Check? ==> ms[j].bucket.throttle > 0 && Fits(ms[j].bucket, es[j].now)
  }

  lemma {:induction false} RunKeeps(ms: seq<Meter>, es: seq<Event>, i: nat)
    requires Run(ms, es) && i < |ms| && Fitting(ms, es, i)
    ensures Inv(ms[i])
  {
    if i > 0 {
      hide Fits;
      RunKeeps(ms, es, i - 1);
      if es[i - 1].Check? {
        CheckKeeps(ms[i - 1], es[i - 1].now);
      }
    }
  }

  /** While all checks fit, the bucket is in range and the rate is kept at every time from the
      latest check on. */
  lemma RateBounded(ms: seq<Meter>, es: seq<Event>, i: nat, t: int)
    requires Run(ms, es) && i < |ms| && Fitting(ms, es, i) && t >= ms[i].clock
    ensures var throttle := ms[0].bucket.throttle;
            && 0 <= ms[i].bucket.tokens <= throttle
            && match ms[i].first
               case None => ms[i].pops <= throttle
               case Some(f) => ms[i].pops <= throttle + throttle * (t - f) / USEC
  {
    RunTimely(ms, es, i);
    RunKeeps(ms, es, i);
    InvBounded(ms[i].(clock := t));
  }

  /** `k` more messages, as long as the bucket lets them pass. */
  function Burst(m: Meter, k: nat): Meter {
    if k == 0 then m
    else
      var b := Burst(m, k - 1);
      if b.bucket.tokens != 0 then Next(b, Take) else b
  }

  lemma {:induction false} BurstKeeps(m: Meter, k: nat)
    requires Inv(m)
    ensures Inv(Burst(m, k))
  {
    if k > 0 {
      BurstKeeps(m, k - 1);
    }
  }

  /** A negative bucket lets every message pass and is not charged. */
  lemma {:induction false} BurstUnlimited(m: Meter, k: nat)
    requires m.bucket.tokens < 0
    ensures Burst(m, k) == m.(pops := m.pops + k)
  {
    if k > 0 {
      BurstUnlimited(m, k - 1);
    }
  }

  /** In every run the rate is kept at every point, however many messages are taken there, if
      and only if the credit of every check fits. */
  lemma RateBoundedIff(ms: seq<Meter>, es: seq<Event>)
    requires Run(ms, es)
    ensures Fitting(ms, es, |es|) <==> forall i, k: nat :: 0 <= i < |ms| ==> Bounded(Burst(ms[i], k))
  {
    hide Fits, Checked, Bounded, Timely;
    if Fitting(ms, es, |es|) {
      forall i, k: nat | 0 <= i < |ms|
        ensures Bounded(Burst(ms[i], k))
      {
        RunKeeps(ms, es, i);
        BurstKeeps(ms[i], k);
        InvBounded(Burst(ms[i], k));
      }
    } else {
      var j, k := Overrun(ms, es, |es|);
      assert !Bounded(Burst(ms[j], k));
    }
  }

  /** After the first check that does not fit, any number of messages passes. */
  lemma {:induction false} Overrun(ms: seq<Meter>, es: seq<Event>, n: nat) returns (j: nat, k: nat)
    requires Run(ms, es) && n <= |es| && !Fitting(ms, es, n)
    ensures j < |ms| && !Bounded(Burst(ms[j], k))
  {
    hide Fits, Checked;
    if n > 0 && !Fitting(ms, es, n - 1) {
      j, k := Overrun(ms, es, n - 1);
    } else {
      RunKeeps(ms, es, n - 1);
      RangeKept(ms[n - 1].bucket, es[n - 1].now);
      j := n;
      k := Beyond(ms[j]);
    }
  }

  lemma Beyond(m: Meter) returns (k: nat)
    requires m.bucket.tokens < 0
    ensures !Bounded(Burst(m, k))
  {
    var limit := m.bucket.throttle
        + (if m.first.Some? then m.bucket.throttle * (m.clock - m.first.value) / USEC else 0);
    k := if limit >= m.pops then limit - m.pops + 1 else 0;
    BurstUnlimited(m, k);
  }

  // ----- and the rate is reached

  /** The check does not find more tokens than the bucket holds. */
  predicate Unfilled(b: Bucket, now: int) { b.tokens + Accrued(b.throttle, Since(b, now)) <= b.throttle }

  ghost predicate NeverFull(ms: seq<Meter>, es: seq<Event>, n: nat)
    requires Run(ms, es) && n <= |es|
  {
    forall j :: 0 <= j < n && es[j].Check? ==> Unfilled(ms[j].bucket, es[j].now)
  }

  /** The checks among the first `n` events that added tokens. */
  ghost function Refills(ms: seq<Meter>, es: seq<Event>, n: nat): nat
    requires Run(ms, es) && n <= |es|
  {
    if n == 0 then 0
    else
      var b, e := ms[n - 1].bucket, es[n - 1];
      Refills(ms, es, n - 1) + if e.Check? && Accrued(b.throttle, Since(b, e.now)) > 0 then 1 else 0
  }

  /** At most one token is lost with each refill, and less than one is due since the last. */
  ghost predicate Served(m: Meter, refills: nat) {
    var b := m.bucket;
    && Timely(m) && 0 <= b.tokens <= b.throttle
    && match m.first
       case None => refills == 0 && m.pops + b.tokens == b.throttle
       case Some(f) =>
         && b.throttle * USEC + b.throttle * (b.last - f) <= (m.pops + b.tokens + refills) * USEC
         && b.throttle * (m.clock - b.last) < USEC
  }

  /** An unfilled check credits exactly what accrued, and keeps the time of the last refill
      when that was nothing. */
  lemma UnfilledCheck(b: Bucket, now: int)
    requires 0 <= b.tokens <= b.throttle && 0 < b.throttle < 0x8000_0000 && Since(b, now) >= 0 && Unfilled(b, now)
    ensures var e := Accrued(b.throttle, Since(b, now));
            && e >= 0 && Checked(b, now).throttle == b.throttle && Checked(b, now).tokens == b.tokens + e
            && Checked(b, now).last == if e > 0 || b.last / USEC == 0 then now else b.last
  {
    hide Checked, Credit;
    var d := Since(b, now);
    assert b.throttle * d >= 0;
    PauseBounded(b, now);
    Within(b.throttle * d);
    CreditIs(b, now);
    CheckedLast(b, now);
  }

  lemma CheckServes(m: Meter, now: int, refills: nat)
    requires Served(m, refills) && Enabled(m, Check(now)) && Unfilled(m.bucket, now)
    ensures var b := m.bucket;
            Served(Next(m, Check(now)), refills + if Accrued(b.throttle, Since(b, now)) > 0 then 1 else 0)
  {
    hide Checked, Accrued;
    var b := m.bucket;
    NothingElapsed(b.throttle, now);
    UnfilledCheck(b, now);
    if m.first.Some? {
      var f, e := m.first.value, Accrued(b.throttle, now - b.last);
      assert Since(b, now) == now - b.last;
      Longer(b.throttle, f, b.last, now);
      Rounded(b.throttle, now - b.last);
      var x, y := b.throttle * USEC + b.throttle * (b.last - f), b.throttle * (now - b.last);
      Refilled(m.pops + b.tokens + refills, e, x, y);
    }
  }

  lemma NothingElapsed(throttle: int, now: int)
    ensures Accrued(throttle, 0) == 0 && throttle * (now - now) == 0
  {
    assert throttle * 0 == 0;
  }

  lemma Rounded(throttle: int, d: int)
    ensures Accrued(throttle, d) * USEC <= throttle * d < (Accrued(throttle, d) + 1) * USEC
  {
  }

  lemma Refilled(had: int, e: int, x: int, y: int)
    requires x <= had * USEC && y < (e + 1) * USEC
    ensures x + y <= (had + e + 1) * USEC
  {
  }

  lemma {:induction false} RunServes(ms: seq<Meter>, es: seq<Event>, i: nat)
    requires Run(ms, es) && i < |ms| && NeverFull(ms, es, i)
    ensures Served(ms[i], Refills(ms, es, i))
  {
    if i > 0 {
      hide Checked, Unfilled, Accrued;
      RunServes(ms, es, i - 1);
      if es[i - 1].Check? {
        CheckServes(ms[i - 1], es[i - 1].now, Refills(ms, es, i - 1));
      }
    }
  }

  /** If no check finds the bucket full, what was let through or still may pass is a full
      bucket plus the rate times the time between the first and the latest check, less at most
      a token for each refill and one more. */
  lemma RateReached(ms: seq<Meter>, es: seq<Event>, i: nat)
    requires Run(ms, es) && i < |ms| && NeverFull(ms, es, i) && ms[i].first.Some?
    ensures var throttle := ms[0].bucket.throttle;
            var due := throttle * USEC + throttle * (ms[i].clock - ms[i].first.value);
            due < (ms[i].pops + ms[i].bucket.tokens + Refills(ms, es, i) + 1) * USEC
  {
    RunServes(ms, es, i);
    RunTimely(ms, es, i);
    var m := ms[i];
    Longer(m.bucket.throttle, m.first.value, m.bucket.last, m.clock);
  }

  /** Whoever was told to wait finds a token at a later check exactly when the credit, modulo
      2^32, is positive as a 32-bit number; which it is after the timeout, unless the pause
      was too long. */
  lemma TimeoutSuffices(ms: seq<Meter>, es: seq<Event>, i: nat, now: int)
    requires Run(ms, es) && i < |ms| && ms[i].first.Some? && ms[i].bucket.tokens == 0 && now >= ms[i].clock
    ensures var b := ms[i].bucket;
            && b.throttle > 0
            && (Checked(b, now).tokens > 0 <==> 0 < Credit(b, now) % 0x1_0000_0000 < 0x8000_0000)
            && (now >= ms[i].clock + Timeout(b.throttle) * 1000 && now - b.last < FatalPause(b.throttle) ==>
                Checked(b, now).tokens > 0)
  {
    RunTimely(ms, es, i);
    var b := ms[i].bucket;
    TokenIff(b, now);
    if now >= ms[i].clock + Timeout(b.throttle) * 1000 && now - b.last < FatalPause(b.throttle) {
      PauseEnough(b, now);
    }
  }

  lemma TokenIff(b: Bucket, now: int)
    requires b.throttle > 0 && b.tokens == 0
    ensures Checked(b, now).tokens > 0 <==> 0 < Credit(b, now) % 0x1_0000_0000 < 0x8000_0000
  {
    hide Checked, Credit;
    CheckedTokens(b, now);
  }

  lemma PauseEnough(b: Bucket, now: int)
    requires b.throttle > 0 && b.tokens == 0 && b.last >= USEC
    requires Timeout(b.throttle) * 1000 <= now - b.last < FatalPause(b.throttle)
    ensures 0 < Credit(b, now) % 0x1_0000_0000 < 0x8000_0000
  {
    hide Timeout, FatalPause, Credit, Wrap32;
    var d := Since(b, now);
    OneToken(b.throttle, d);
    FatalPauseIsFirst(b.throttle, d);
    Within(b.throttle * d);
    CreditIs(b, now);
  }

  lemma MulLess(a: int, x: int, y: int)
    requires a > 0 && x < y
    ensures a * x < a * y
  {
  }

  lemma QuotBelow(n: int, d: int)
    requires n >= 0 && d > 0
    ensures d * (n / d) <= n
  {
  }

  /** And it is at most a millisecond longer than it takes for a token to accrue. */
  lemma TimeoutTight(throttle: int, d: int)
    requires throttle > 0 && 0 <= d < (Timeout(throttle) - 1) * 1000
    ensures Accrued(throttle, d) == 0
  {
    hide Accrued;
    var q := Timeout(throttle) - 1;
    QuotBelow(1000, throttle);
    MulLess(throttle, d, q * 1000);
    Regroup(throttle, q);
    assert throttle * d >= 0;
    Small(throttle, d);
  }

  lemma Regroup(a: int, q: int)
    ensures a * (q * 1000) == a * q * 1000
  {
  }

  lemma Small(throttle: int, d: int)
    requires 0 <= throttle * d < USEC
    ensures Accrued(throttle, d) == 0
  {
  }

  lemma OneToken(throttle: int, d: int)
    requires throttle > 0 && d >= Timeout(throttle) * 1000
    ensures throttle * d >= USEC
  {
    var q, r := 1000 / throttle, 1000 % throttle;
    assert 1000 == q * throttle + r;
    assert (q + 1) * throttle == q * throttle + throttle > 1000;
    assert throttle * d >= throttle * ((q + 1) * 1000);
    assert throttle * ((q + 1) * 1000) == (q + 1) * throttle * 1000;
  }
}
