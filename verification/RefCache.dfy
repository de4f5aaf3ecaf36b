/** One message whose REF and ACK counters are changed by many threads at once,
    some of which cache their changes between refcache_start and refcache_stop.

    Every reference and every promised acknowledgement is held by some owner: a
    thread, a queue node, the source (owner 0, which keeps one reference for the
    ack callback) or a clone.  A thread in a session changes what it holds without
    touching the word; the word then lags behind by the session's cached deltas. */
module RefCache {
  import opened Wrappers
  import opened RefWord

  /** The thread-local block of a thread between start and stop.  `folded` says
      that refcache_stop() has already folded the acks into the word. */
  datatype Session = Session(producer: bool, ackNeeded: bool, refs: int, acks: int,
                             abort: bool, suspend: bool, folded: bool)

  datatype Holder = Holder(refs: nat, acks: nat, session: Option<Session>) {
    function CachedRefs(): int { if session.Some? then session.value.refs else 0 }

    function CachedAcks(): int { if session.Some? then session.value.acks else 0 }

    /** How much of the word stands for this owner; for the two flags, whether the
        owner's session has one cached that the word still lacks. */
    function Backed(k: Counter): int {
      match k
      case REF => refs - CachedRefs()
      case ACK => acks - CachedAcks()
      case ABORT => Bit(session.Some? && session.value.abort)
      case SUSPEND => Bit(session.Some? && session.value.suspend)
    }

    /** Take or drop references and acks: a session caches the difference. */
    function Change(addRef: int, addAck: int, abort: bool, suspend: bool): Holder
      requires refs + addRef >= 0 && acks + addAck >= 0
    {
      Holder(refs + addRef, acks + addAck,
             match session
             case None => None
             case Some(s) => Some(s.(refs := s.refs + addRef, acks := s.acks + addAck,
                                     abort := s.abort || abort, suspend := s.suspend || suspend)))
    }

    /** A session whose acks are still cached and count. */
    predicate Acking() {
      session.Some? && session.value.ackNeeded && !session.value.folded
    }
  }

  datatype Counter = REF | ACK | ABORT | SUSPEND

  /** `requested` is set by the first add_ack, `calling` holds the thread that saw
      the ACK counter drop to zero and is about to run the ack callback, `fired`
      lists the types handed to the callback, `freed` counts the frees, and the two
      flags at the end remember every ack ever made, cached or not. */
  datatype Message = Message(word: Fields, holders: seq<Holder>, requested: bool,
                             calling: Option<Call>, fired: seq<AckType>, freed: nat,
                             aborted: bool, suspended: bool)
  {
    predicate Busy(o: nat) { calling.Some? && calling.value.owner == o }

    function With(o: nat, h: Holder): Message
      requires o < |holders|
    {
      this.(holders := holders[o := h])
    }
  }

  datatype Call = Call(owner: nat, ackType: AckType)

  function Cached(w: Fields): AckType {
    if w.suspend then Suspended else if w.abort then Aborted else Processed
  }

  /** The type passed to the callback: the ack that dropped the counter speaks
      first, then the flags found in the word. */
  function Handed(abort: bool, suspend: bool, w: Fields): AckType {
    if suspend then Suspended else if abort then Aborted else Cached(w)
  }

  // ----- the steps of log_msg_* on one message

  /** One owner's change, cached by its session or else written to the word. */
  function Booked(m: Message, o: nat, addRef: int, addAck: int, abort: bool, suspend: bool): Message
    requires o < |m.holders| && m.holders[o].refs + addRef >= 0 && m.holders[o].acks + addAck >= 0
  {
    m.With(o, m.holders[o].Change(addRef, addAck, abort, suspend)).(
      word := if m.holders[o].session.Some? then m.word else m.word.Plus(addRef, addAck, abort, suspend),
      aborted := m.aborted || abort, suspended := m.suspended || suspend)
  }

  predicate CanRef(m: Message, o: nat) {
    && o < |m.holders| && !m.Busy(o) && m.holders[o].refs >= 1
    && match m.holders[o].session
       case None => m.word.ref + 1 < FIELD
       case Some(s) => s.producer && !s.folded ==> s.refs + 1 < 0
  }

  function DoRef(m: Message, o: nat): Message
    requires CanRef(m, o)
  {
    Booked(m, o, 1, 0, false, false)
  }

  predicate CanUnref(m: Message, o: nat) {
    o < |m.holders| && !m.Busy(o) && m.holders[o].refs >= 1
  }

  function DoUnref(m: Message, o: nat): Message
    requires CanUnref(m, o)
  {
    Booked(m, o, -1, 0, false, false).(
      freed := m.freed + Bit(m.holders[o].session.None? && m.word.ref == 1))
  }

  /** Only the first add_ack may come from an owner that holds none yet. */
  predicate CanAddAck(m: Message, o: nat) {
    && o < |m.holders| && !m.Busy(o) && m.holders[o].refs >= 1
    && (m.requested ==> m.holders[o].acks >= 1)
    && match m.holders[o].session
       case None => m.word.ack + 1 < FIELD
       case Some(s) => s.ackNeeded && !s.folded && (s.producer ==> s.acks + 1 < 0)
  }

  function DoAddAck(m: Message, o: nat): Message
    requires CanAddAck(m, o)
  {
    Booked(m, o, 0, 1, false, false).(requested := true)
  }

  predicate CanAck(m: Message, o: nat) {
    && o < |m.holders| && !m.Busy(o) && m.holders[o].acks >= 1
    && (m.holders[o].session.Some? ==> m.holders[o].Acking())
  }

  function DoAck(m: Message, o: nat, t: AckType): Message
    requires CanAck(m, o)
  {
    Booked(m, o, 0, -1, t == Aborted, t == Suspended).(
      calling := if m.holders[o].session.None? && m.word.ack == 1
                 then Some(Call(o, Handed(t == Aborted, t == Suspended, m.word))) else m.calling)
  }

  /** Only the thread that has just created the message, while nobody else holds it. */
  predicate CanStartProducer(m: Message, o: nat) {
    && o < |m.holders| && m.holders[o].refs >= 1 && !m.requested
    && m.word.ref + BIAS < FIELD
    && forall i :: 0 <= i < |m.holders| ==> m.holders[i].session.None? && (i != o ==> m.holders[i].refs == 0)
  }

  function DoStartProducer(m: Message, o: nat): Message
    requires CanStartProducer(m, o)
  {
    m.With(o, m.holders[o].(session := Some(Session(true, true, -BIAS, -BIAS, false, false, false))))
    .(word := m.word.Plus(BIAS, BIAS, false, false))
  }

  /** A consumer that was handed an ack obligation says so, and nobody else does. */
  predicate CanStartConsumer(m: Message, o: nat, ackNeeded: bool) {
    && o < |m.holders| && !m.Busy(o) && m.holders[o].refs >= 1 && m.holders[o].session.None?
    && (ackNeeded ==> m.holders[o].acks >= 1)
  }

  function DoStartConsumer(m: Message, o: nat, ackNeeded: bool): Message
    requires CanStartConsumer(m, o, ackNeeded)
  {
    m.With(o, m.holders[o].(session := Some(Session(false, ackNeeded, 0, 0, false, false, false))))
  }

  /** The assertions at the head of refcache_stop(), room for the result in 15 bits,
      and that a producer stops only after it has asked for an acknowledgement. */
  predicate CanStopAcks(m: Message, o: nat) {
    && o < |m.holders| && !m.Busy(o) && m.holders[o].session.Some?
    && var s := m.holders[o].session.value;
       && !s.folded
       && -BIAS <= s.acks < BIAS - 1 && -BIAS <= s.refs < BIAS - 1
       && m.word.ack + s.acks < FIELD
       && (s.producer ==> m.requested)
  }

  /** Steps 1 and 2 of refcache_stop(): take a reference, fold the acks. */
  function DoStopAcks(m: Message, o: nat): Message
    requires CanStopAcks(m, o)
  {
    var h := m.holders[o];
    var s := h.session.value;
    m.With(o, h.(refs := h.refs + 1,
                 session := Some(s.(refs := s.refs + 1, acks := 0, abort := false, suspend := false, folded := true))))
    .(word := m.word.Plus(0, s.acks, s.abort, s.suspend),
      calling := if m.word.ack == -s.acks && s.ackNeeded then Some(Call(o, Handed(s.abort, s.suspend, m.word)))
                 else m.calling)
  }

  predicate CanCall(m: Message, o: nat) { o < |m.holders| && m.Busy(o) }

  /** The ack callback starts; the reference the source kept for it, if there is
      one, is now the calling thread's to drop. */
  function DoCall(m: Message, o: nat): Message
    requires CanCall(m, o)
  {
    var n := m.(calling := None, fired := m.fired + [m.calling.value.ackType]);
    if o != 0 && m.holders[0].refs >= 1 && m.holders[0].session.None? then DoGive(n, 0, o, true) else n
  }

  predicate CanStopRefs(m: Message, o: nat) {
    && o < |m.holders| && !m.Busy(o) && m.holders[o].session.Some?
    && m.holders[o].session.value.folded && m.holders[o].refs >= 1
    && m.word.ref + m.holders[o].session.value.refs <= FIELD
  }

  /** Steps 4 and 5 of refcache_stop(): drop the reference of step 1, fold the rest. */
  function DoStopRefs(m: Message, o: nat): Message
    requires CanStopRefs(m, o)
  {
    var h := m.holders[o];
    var d := h.session.value.refs - 1;
    m.With(o, h.(refs := h.refs - 1, session := None))
    .(word := m.word.Plus(d, 0, false, false), freed := m.freed + Bit(m.word.ref == -d))
  }

  /** Handing over is not an operation on the message, only on what the owners hold.
      A thread in a session must keep one reference (ack) that the word counts. */
  predicate MayGive(h: Holder, refs: bool) {
    if refs then h.refs >= 1 && (h.session.Some? ==> h.Backed(REF) >= 2)
    else h.acks >= 1 && (h.Acking() ==> h.Backed(ACK) >= 2)
  }

  predicate CanGive(m: Message, from: nat, to: nat, refs: bool) {
    && from < |m.holders| && to < |m.holders| && from != to && !m.Busy(from)
    && MayGive(m.holders[from], refs)
  }

  function DoGive(m: Message, from: nat, to: nat, refs: bool): Message
    requires from < |m.holders| && to < |m.holders| && from != to
    requires if refs then m.holders[from].refs >= 1 else m.holders[from].acks >= 1
  {
    var f, t := m.holders[from], m.holders[to];
    if refs then m.With(from, f.(refs := f.refs - 1)).With(to, t.(refs := t.refs + 1))
    else m.With(from, f.(acks := f.acks - 1)).With(to, t.(acks := t.acks + 1))
  }

  // ----- what every step keeps

  ghost function Sum(hs: seq<Holder>, k: Counter): int {
    if hs == [] then 0 else Sum(hs[..|hs| - 1], k) + hs[|hs| - 1].Backed(k)
  }

  /** `requested`: somebody has asked for an acknowledgement before. */
  ghost predicate HolderInv(h: Holder, requested: bool) {
    && h.Backed(ACK) >= 0
    && (!requested ==> h.acks == 0 && (h.Acking() ==> h.session.value.producer))
    && match h.session
       case None => true
       case Some(s) =>
         && h.Backed(REF) >= 1
         && (s.ackNeeded && !s.folded ==> h.Backed(ACK) >= 1)
         && (s.producer && !s.folded ==> s.refs < 0 && s.acks < 0)
         && (!s.ackNeeded || s.folded ==> s.acks == 0 && !s.abort && !s.suspend)
  }

  ghost predicate Clean(m: Message) { !m.aborted && !m.suspended }

  /** The callback of a message may be told `a`: PROCESSED exactly when every ack was, and
      ABORTED or SUSPENDED only when some ack was just that. */
  ghost predicate MayTell(m: Message, a: AckType) {
    && (a == Processed <==> Clean(m))
    && (a == Aborted ==> m.aborted) && (a == Suspended ==> m.suspended)
  }

  /** The word plus the live cached deltas are the counts really outstanding. */
  ghost predicate Balanced(m: Message) {
    && |m.holders| >= 1
    && (forall i :: 0 <= i < |m.holders| ==> HolderInv(m.holders[i], m.requested))
    && m.word.ref == Sum(m.holders, REF) < FIELD
    && m.word.ack == Sum(m.holders, ACK) < FIELD
    && (m.aborted <==> m.word.abort || Sum(m.holders, ABORT) > 0)
    && (m.suspended <==> m.word.suspend || Sum(m.holders, SUSPEND) > 0)
  }

  /** The message is freed once exactly when the REF counter is zero; the callback
      has been called, or is being called, once exactly when a requested ACK counter
      is zero, and is told what the acks were. */
  ghost predicate Settled(m: Message) {
    && m.freed == Bit(m.word.ref == 0)
    && |m.fired| + Bit(m.calling.Some?) == Bit(m.requested && m.word.ack == 0)
    && (m.calling.Some? ==> m.calling.value.owner < |m.holders| && MayTell(m, m.calling.value.ackType))
    && (m.fired != [] ==> MayTell(m, m.fired[0]))
  }

  ghost predicate Inv(m: Message) { Balanced(m) && Settled(m) }

  lemma {:induction false} SumUpdate(hs: seq<Holder>, o: nat, h: Holder, k: Counter)
    requires o < |hs|
    ensures Sum(hs[o := h], k) == Sum(hs, k) - hs[o].Backed(k) + h.Backed(k)
  {
    var last := |hs| - 1;
    if o < last {
      assert hs[o := h][..last] == hs[..last][o := h];
      SumUpdate(hs[..last], o, h, k);
    } else {
      assert hs[o := h][..last] == hs[..last];
    }
  }

  /** Nobody's share of the word exceeds the word. */
  lemma {:induction false} ShareFits(hs: seq<Holder>, req: bool, o: nat, k: Counter)
    requires o < |hs| && forall i :: 0 <= i < |hs| ==> HolderInv(hs[i], req)
    ensures 0 <= hs[o].Backed(k) <= Sum(hs, k)
  {
    SumNonNegative(hs[..|hs| - 1], req, k);
    if o < |hs| - 1 { ShareFits(hs[..|hs| - 1], req, o, k); }
  }

  lemma {:induction false} SumNonNegative(hs: seq<Holder>, req: bool, k: Counter)
    requires forall i :: 0 <= i < |hs| ==> HolderInv(hs[i], req)
    ensures Sum(hs, k) >= 0
  {
    if hs != [] { SumNonNegative(hs[..|hs| - 1], req, k); }
  }

  /** With a counter at zero nobody holds anything and nobody caches anything. */
  lemma NothingLeft(hs: seq<Holder>, req: bool, k: Counter)
    requires forall i :: 0 <= i < |hs| ==> HolderInv(hs[i], req)
    requires Sum(hs, k) == 0
    ensures forall i :: 0 <= i < |hs| ==> hs[i].Backed(k) == 0
  {
    forall i | 0 <= i < |hs|
      ensures hs[i].Backed(k) == 0
    {
      ShareFits(hs, req, i, k);
    }
  }

  /** Acks all folded in: so are the flags. */
  lemma NoFlagLeft(hs: seq<Holder>, req: bool)
    requires forall i :: 0 <= i < |hs| ==> HolderInv(hs[i], req)
    requires Sum(hs, ACK) == 0
    ensures Sum(hs, ABORT) == 0 && Sum(hs, SUSPEND) == 0
  {
    NothingLeft(hs, req, ACK);
    AllZero(hs, ABORT);
    AllZero(hs, SUSPEND);
  }

  lemma {:induction false} AllZero(hs: seq<Holder>, k: Counter)
    requires forall i :: 0 <= i < |hs| ==> hs[i].Backed(k) == 0
    ensures Sum(hs, k) == 0
  {
    if hs != [] { AllZero(hs[..|hs| - 1], k); }
  }

  /** What replacing one holder does to the four sums. */
  lemma Swap(hs: seq<Holder>, req: bool, o: nat, ns: seq<Holder>)
    requires o < |hs| == |ns| && ns == hs[o := ns[o]] && HolderInv(ns[o], req)
    requires forall i :: 0 <= i < |hs| ==> HolderInv(hs[i], req)
    ensures forall i :: 0 <= i < |ns| ==> HolderInv(ns[i], req)
    ensures forall k :: Sum(ns, k) == Sum(hs, k) - hs[o].Backed(k) + ns[o].Backed(k)
    ensures forall k :: Sum(ns, k) >= ns[o].Backed(k) >= 0 && Sum(hs, k) >= hs[o].Backed(k) >= 0
  {
    forall k
      ensures Sum(ns, k) == Sum(hs, k) - hs[o].Backed(k) + ns[o].Backed(k)
      ensures Sum(ns, k) >= ns[o].Backed(k) >= 0 && Sum(hs, k) >= hs[o].Backed(k) >= 0
    {
      SumUpdate(hs, o, ns[o], k);
      ShareFits(hs, req, o, k);
      ShareFits(ns, req, o, k);
    }
  }

  /** Replacing one holder and moving the word by the difference keeps the balance. */
  lemma Rebalanced(m: Message, n: Message, o: nat)
    requires Balanced(m) && o < |m.holders| == |n.holders| && n.requested == m.requested
    requires n.holders == m.holders[o := n.holders[o]] && HolderInv(n.holders[o], m.requested)
    requires n.word.ref == m.word.ref - m.holders[o].Backed(REF) + n.holders[o].Backed(REF) < FIELD
    requires n.word.ack == m.word.ack - m.holders[o].Backed(ACK) + n.holders[o].Backed(ACK) < FIELD
    requires n.aborted == (m.aborted || n.word.abort || n.holders[o].Backed(ABORT) > 0)
    requires n.suspended == (m.suspended || n.word.suspend || n.holders[o].Backed(SUSPEND) > 0)
    requires m.word.abort || m.holders[o].Backed(ABORT) > 0 ==> n.word.abort || n.holders[o].Backed(ABORT) > 0
    requires m.word.suspend || m.holders[o].Backed(SUSPEND) > 0 ==> n.word.suspend || n.holders[o].Backed(SUSPEND) > 0
    ensures Balanced(n)
  {
    Swap(m.holders, m.requested, o, n.holders);
  }

  lemma BookedKeeps(m: Message, o: nat, addRef: int, addAck: int, abort: bool, suspend: bool)
    requires Balanced(m) && o < |m.holders|
    requires m.holders[o].refs + addRef >= 0 && m.holders[o].acks + addAck >= 0
    requires HolderInv(m.holders[o].Change(addRef, addAck, abort, suspend), m.requested)
    requires m.holders[o].session.None? ==> m.word.ref + addRef < FIELD && m.word.ack + addAck < FIELD
    ensures Balanced(Booked(m, o, addRef, addAck, abort, suspend))
  {
    var n := Booked(m, o, addRef, addAck, abort, suspend);
    forall k { ShareFits(m.holders, m.requested, o, k); }
    Rebalanced(m, n, o);
  }

  lemma RefKeeps(m: Message, o: nat)
    requires Inv(m) && CanRef(m, o)
    ensures Inv(DoRef(m, o))
  {
    BookedKeeps(m, o, 1, 0, false, false);
    ShareFits(m.holders, m.requested, o, REF);
  }

  lemma UnrefKeeps(m: Message, o: nat)
    requires Inv(m) && CanUnref(m, o)
    ensures Inv(DoUnref(m, o))
  {
    hide HolderInv, Settled, Sum;
    UnrefHolder(m.holders[o], m.requested);
    BookedKeeps(m, o, -1, 0, false, false);
    ShareFits(m.holders, m.requested, o, REF);
    UnrefSettles(m, o);
  }

  lemma UnrefSettles(m: Message, o: nat)
    requires Settled(m) && m.word.ref < FIELD && m.word.ack < FIELD && CanUnref(m, o)
    requires m.holders[o].session.None? ==> m.word.ref >= 1
    ensures Settled(DoUnref(m, o))
  {
  }

  lemma UnrefHolder(h: Holder, req: bool)
    requires HolderInv(h, req) && h.refs >= 1
    ensures HolderInv(h.Change(-1, 0, false, false), req)
  {
  }

  lemma AddAckKeeps(m: Message, o: nat)
    requires Inv(m) && CanAddAck(m, o)
    ensures Inv(DoAddAck(m, o))
  {
    BookedKeeps(m.(requested := true), o, 0, 1, false, false);
    ShareFits(m.holders, m.requested, o, ACK);
  }

  lemma AckKeeps(m: Message, o: nat, t: AckType)
    requires Inv(m) && CanAck(m, o)
    ensures Inv(DoAck(m, o, t))
  {
    hide HolderInv, Settled, Sum;
    AckHolder(m.holders[o], m.requested, t);
    BookedKeeps(m, o, 0, -1, t == Aborted, t == Suspended);
    ShareFits(m.holders, m.requested, o, ACK);
    var n := DoAck(m, o, t);
    if n.word.ack == 0 { NoFlagLeft(n.holders, n.requested); }
    AckSettles(m, o, t);
  }

  lemma AckHolder(h: Holder, req: bool, t: AckType)
    requires HolderInv(h, req) && h.acks >= 1 && (h.session.Some? ==> h.Acking())
    ensures req && h.Backed(ACK) >= 1 && HolderInv(h.Change(0, -1, t == Aborted, t == Suspended), req)
  {
  }

  /** The last ack calls back, and by then every flag is in the word. */
  lemma AckSettles(m: Message, o: nat, t: AckType)
    requires Settled(m) && m.word.ref < FIELD && 1 <= m.word.ack < FIELD && m.requested && CanAck(m, o)
    requires var n := DoAck(m, o, t);
             n.word.ack == 0 ==> (n.aborted <==> n.word.abort) && (n.suspended <==> n.word.suspend)
    ensures Settled(DoAck(m, o, t))
  {
  }

  /** What the callback is told when the ack that drops the counter is `t`: that ack speaks
      first; if it was PROCESSED, a SUSPENDED ack made before counts more than an ABORTED one. */
  ghost function Spoken(m: Message, t: AckType): AckType {
    if t != Processed then t else if m.suspended then Suspended else if m.aborted then Aborted else Processed
  }

  lemma LastAckSpeaks(m: Message, o: nat, t: AckType)
    requires Inv(m) && CanAck(m, o) && m.calling.None? && DoAck(m, o, t).calling.Some?
    ensures DoAck(m, o, t).calling == Some(Call(o, Spoken(m, t)))
  {
    hide HolderInv, Settled, Sum;
    AckKeeps(m, o, t);
    var n := DoAck(m, o, t);
    assert n.word.ack == 0;
    NoFlagLeft(n.holders, n.requested);
  }

  lemma StartProducerKeeps(m: Message, o: nat)
    requires Inv(m) && CanStartProducer(m, o)
    ensures Inv(DoStartProducer(m, o))
  {
    forall k { ShareFits(m.holders, m.requested, o, k); }
    AllZero(m.holders, ACK);
    Rebalanced(m, DoStartProducer(m, o), o);
  }

  lemma StartConsumerKeeps(m: Message, o: nat, ackNeeded: bool)
    requires Inv(m) && CanStartConsumer(m, o, ackNeeded)
    ensures Inv(DoStartConsumer(m, o, ackNeeded))
  {
    forall k { ShareFits(m.holders, m.requested, o, k); }
    Rebalanced(m, DoStartConsumer(m, o, ackNeeded), o);
  }

  lemma StopAcksKeeps(m: Message, o: nat)
    requires Inv(m) && CanStopAcks(m, o)
    ensures Inv(DoStopAcks(m, o))
  {
    var n := DoStopAcks(m, o);
    forall k { ShareFits(m.holders, m.requested, o, k); }
    Rebalanced(m, n, o);
    if n.word.ack == 0 { NoFlagLeft(n.holders, n.requested); }
  }

  /** The same for a session that folds the last acks: its acks together speak first, and
      among them a SUSPENDED one counts more than an ABORTED one. */
  lemma LastStopSpeaks(m: Message, o: nat)
    requires Inv(m) && CanStopAcks(m, o) && m.calling.None? && DoStopAcks(m, o).calling.Some?
    ensures var s := m.holders[o].session.value;
            DoStopAcks(m, o).calling ==
            Some(Call(o, Spoken(m, if s.suspend then Suspended else if s.abort then Aborted else Processed)))
  {
    hide HolderInv, Settled, Sum;
    StopAcksKeeps(m, o);
    var n := DoStopAcks(m, o);
    assert n.word.ack == 0;
    NoFlagLeft(n.holders, n.requested);
  }

  lemma StopRefsKeeps(m: Message, o: nat)
    requires Inv(m) && CanStopRefs(m, o)
    ensures Inv(DoStopRefs(m, o))
  {
    forall k { ShareFits(m.holders, m.requested, o, k); }
    Rebalanced(m, DoStopRefs(m, o), o);
  }

  lemma GiveKeeps(m: Message, from: nat, to: nat, refs: bool)
    requires Inv(m) && from < |m.holders| && to < |m.holders| && from != to
    requires MayGive(m.holders[from], refs)
    ensures Inv(DoGive(m, from, to, refs))
  {
    var n := DoGive(m, from, to, refs);
    GiveHolders(m.holders[from], m.holders[to], n.holders[from], n.holders[to], refs, m.requested);
    GiveKeepsBalance(m, m.With(from, n.holders[from]), n, from, to);
  }

  lemma GiveHolders(f: Holder, t: Holder, f': Holder, t': Holder, refs: bool, req: bool)
    requires HolderInv(f, req) && HolderInv(t, req) && MayGive(f, refs)
    requires f' == if refs then f.(refs := f.refs - 1) else f.(acks := f.acks - 1)
    requires t' == if refs then t.(refs := t.refs + 1) else t.(acks := t.acks + 1)
    ensures HolderInv(f', req) && HolderInv(t', req)
    ensures forall k :: f'.Backed(k) + t'.Backed(k) == f.Backed(k) + t.Backed(k)
  {
    hide HolderInv;
    if refs {
      OneLessRef(f, req);
      OneMoreRef(t, req);
    } else {
      OneLessAck(f, req);
      OneMoreAck(t, req);
    }
  }

  lemma OneLessRef(h: Holder, req: bool)
    requires HolderInv(h, req) && MayGive(h, true)
    ensures var n := h.(refs := h.refs - 1);
            HolderInv(n, req) && n.Backed(REF) == h.Backed(REF) - 1 && n.Backed(ACK) == h.Backed(ACK)
  {
  }

  lemma OneMoreRef(h: Holder, req: bool)
    requires HolderInv(h, req)
    ensures var n := h.(refs := h.refs + 1);
            HolderInv(n, req) && n.Backed(REF) == h.Backed(REF) + 1 && n.Backed(ACK) == h.Backed(ACK)
  {
  }

  lemma OneLessAck(h: Holder, req: bool)
    requires HolderInv(h, req) && MayGive(h, false)
    ensures var n := h.(acks := h.acks - 1);
            req && HolderInv(n, req) && n.Backed(ACK) == h.Backed(ACK) - 1 && n.Backed(REF) == h.Backed(REF)
  {
  }

  /** Only somebody who was asked has acks to give. */
  lemma OneMoreAck(h: Holder, req: bool)
    requires HolderInv(h, req) && req
    ensures var n := h.(acks := h.acks + 1);
            HolderInv(n, req) && n.Backed(ACK) == h.Backed(ACK) + 1 && n.Backed(REF) == h.Backed(REF)
  {
  }

  lemma GiveKeepsBalance(m: Message, mid: Message, n: Message, from: nat, to: nat)
    requires Balanced(m) && from < |m.holders| == |mid.holders| == |n.holders| && to < |m.holders| && from != to
    requires mid == m.With(from, mid.holders[from]) && n == mid.With(to, n.holders[to])
    requires HolderInv(mid.holders[from], m.requested) && HolderInv(n.holders[to], m.requested)
    requires forall k :: mid.holders[from].Backed(k) + n.holders[to].Backed(k)
                         == m.holders[from].Backed(k) + m.holders[to].Backed(k)
    ensures Balanced(n)
  {
    Swap(m.holders, m.requested, from, mid.holders);
    Swap(mid.holders, m.requested, to, n.holders);
  }

  lemma CallKeeps(m: Message, o: nat)
    requires Inv(m) && CanCall(m, o)
    ensures Inv(DoCall(m, o))
  {
    var n := m.(calling := None, fired := m.fired + [m.calling.value.ackType]);
    if o != 0 && m.holders[0].refs >= 1 && m.holders[0].session.None? { GiveKeeps(n, 0, o, true); }
  }

  ghost function TotalHeld(hs: seq<Holder>, k: Counter): int {
    if hs == [] then 0
    else TotalHeld(hs[..|hs| - 1], k) + (if k == REF then hs[|hs| - 1].refs else hs[|hs| - 1].acks)
  }

  ghost function TotalCached(hs: seq<Holder>, k: Counter): int {
    if hs == [] then 0
    else TotalCached(hs[..|hs| - 1], k) + (if k == REF then hs[|hs| - 1].CachedRefs() else hs[|hs| - 1].CachedAcks())
  }

  lemma {:induction false} SumIsDifference(hs: seq<Holder>, k: Counter)
    requires k == REF || k == ACK
    ensures Sum(hs, k) == TotalHeld(hs, k) - TotalCached(hs, k)
  {
    if hs != [] { SumIsDifference(hs[..|hs| - 1], k); }
  }

  /** The callback hands the reference that the source kept for it to the thread that calls,
      which may then drop it; nobody gains or loses anything else by the call. */
  lemma CallHandsOver(m: Message, o: nat)
    requires Inv(m) && CanCall(m, o)
    ensures var n := DoCall(m, o);
            && |n.holders| == |m.holders| && n.word == m.word
            && (forall i :: 0 <= i < |m.holders| && i != 0 && i != o ==> n.holders[i] == m.holders[i])
            && (o != 0 && m.holders[0].refs >= 1 && m.holders[0].session.None? ==>
                  && n.holders[0] == m.holders[0].(refs := m.holders[0].refs - 1)
                  && n.holders[o] == m.holders[o].(refs := m.holders[o].refs + 1) && CanUnref(n, o))
            && (o == 0 || m.holders[0].refs == 0 ==> n.holders == m.holders)
            && (o == 0 && m.holders[0].refs >= 1 ==> CanUnref(n, 0))
  {
  }

  /** The bias at work: a producer may hand over every reference it holds. */
  lemma ProducerMayGive(m: Message, o: nat, refs: bool)
    requires Inv(m) && o < |m.holders| && m.holders[o].session.Some?
    requires m.holders[o].session.value.producer && !m.holders[o].session.value.folded
    requires if refs then m.holders[o].refs >= 1 else m.holders[o].acks >= 1
    ensures MayGive(m.holders[o], refs)
  {
    assert HolderInv(m.holders[o], m.requested);
  }

  /** The assertions of log_msg_ref() and log_msg_unref(): an uncached call always
      finds the counter positive. */
  lemma UncachedFindsCounter(m: Message, o: nat)
    requires Inv(m) && o < |m.holders| && m.holders[o].refs >= 1 && m.holders[o].session.None?
    ensures m.word.ref >= 1 && m.freed == 0
  {
    ShareFits(m.holders, m.requested, o, REF);
  }

  // ----- why the two side conditions on handing over are needed

  /** One thread, in a consumer session, with the only reference. */
  function LoneConsumer(): Message {
    Message(Fields(1, 0, false, false),
            [Holder(0, 0, None), Holder(1, 0, Some(Session(false, false, 0, 0, false, false, false))),
                Holder(0, 0, None)],
            false, None, [], 0, false, false)
  }

  /** A consumer takes a cached reference and hands it to another thread, which
      drops it: the message is freed under the consumer's feet. */
  lemma CachedReferenceGivenAway()
    ensures var m := LoneConsumer();
            && Inv(m) && CanRef(m, 1)
            && var n := DoGive(DoRef(m, 1), 1, 2, true);
               && !MayGive(DoRef(m, 1).holders[1], true) && CanUnref(n, 2)
               && DoUnref(n, 2).freed == 1 && DoUnref(n, 2).holders[1].refs == 1
  {
    var m := LoneConsumer();
    var hs := m.holders;
    forall k
      ensures Sum(hs, k) == hs[0].Backed(k) + hs[1].Backed(k) + hs[2].Backed(k)
    {
      assert hs[..2][..1] == [hs[0]] && hs[..1][..0] == [];
      assert Sum(hs[..2], k) == Sum(hs[..1], k) + hs[1].Backed(k);
    }
  }

  /** A producer's session in which `k` more references were taken than dropped. */
  function Producing(k: nat): Message
    requires k <= BIAS
  {
    Message(Fields(1 + BIAS - k, BIAS, false, false),
            [Holder(0, 0, None), Holder(1, 0, Some(Session(true, true, k - BIAS, -BIAS, false, false, false))),
             Holder(0, 0, None)],
            false, None, [], 0, false, false)
  }

  /** The producer takes a cached reference that another thread drops uncached;
      nothing here checks the budget of BIAS additions. */
  function Round(m: Message): Message
    requires |m.holders| == 3 && m.calling.None?
  {
    var n := DoGive(Booked(m, 1, 1, 0, false, false), 1, 2, true);
    DoUnref(n, 2)
  }

  function Rounds(k: nat): (m: Message)
    requires k <= BIAS
    ensures m == Producing(k)
  {
    if k == 0 then Producing(0) else RoundForm(k - 1); Round(Rounds(k - 1))
  }

  lemma RoundForm(k: nat)
    requires k < BIAS
    ensures Round(Producing(k)) == Producing(k + 1)
  {
    var m := Booked(Producing(k), 1, 1, 0, false, false);
    assert m.holders[1] == Holder(2, 0, Some(Session(true, true, k + 1 - BIAS, -BIAS, false, false, false)));
    var n := DoGive(m, 1, 2, true);
    assert n.holders == Producing(k + 1).holders[2 := Holder(1, 0, None)];
  }

  /** The producer hands over its last reference after `k` additions and the other
      thread drops it: the message is freed inside the session if and only if the
      bias is used up, and refcache_stop() would find both its assertions true. */
  lemma BiasRunsOut(k: nat)
    requires k <= BIAS
    ensures var m := Rounds(k);
            && |m.holders| == 3 && m.holders[1].refs == 1
            && var n := DoGive(m, 1, 2, true);
               && CanUnref(n, 2)
               && var f := DoUnref(n, 2);
                  && f.freed == Bit(k == BIAS) && f.holders[1].session.Some?
                  && var s := f.holders[1].session.value;
                     -BIAS <= s.refs < BIAS - 1 && -BIAS <= s.acks < BIAS - 1
  {
    var n := DoGive(Rounds(k), 1, 2, true);
    assert n.holders[2] == Holder(1, 0, None);
  }
}
