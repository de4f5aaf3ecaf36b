/** All messages of a running system: originals and their copy-on-write clones.
    A clone keeps one reference to the message it was cloned from and, when its
    path wants acknowledgements, one ack of it; its ack callback passes that ack
    on, and freeing it drops the reference. */
module CloneTree {
  import opened Wrappers
  import opened RefWord
  import opened RefCache

  /** `slot` is the owner index under which a clone holds its share of `parent`. */
  datatype Origin = Origin(parent: nat, slot: nat, ackNeeded: bool)

  /** `direct` are the types of the acks made on this very message. */
  datatype Node = Node(msg: Message, original: Option<Origin>, direct: set<AckType>)

  /** Owners below `threads` are the source and the threads, the same in every
      message; the owners above are the slots of its clones. */
  datatype World = World(threads: nat, nodes: seq<Node>)

  datatype Op =
    | ORef | OUnref | OAddAck | OAck(ackType: AckType) | OGive(to: nat, refs: bool)
    | OStartProducer | OStartConsumer(ackNeeded: bool) | OStopAcks | OStopRefs
  {
    /** The types of the acks this operation makes. */
    function Acks(): set<AckType> { if OAck? then {ackType} else {} }
  }

  datatype Step =
    | Create(thread: nat)
    | CloneOf(parent: nat, thread: nat, ackNeeded: bool)
    | Do(node: nat, thread: nat, op: Op)
    | CallBack(node: nat, thread: nat)

  function Born(threads: nat, t: nat, ack: bool): Message
    requires t < threads
  {
    Message(Fields(1, Bit(ack), false, false),
            seq(threads, i => if i == t then Holder(1, Bit(ack), None) else Holder(0, 0, None)),
            ack, None, [], 0, false, false)
  }

  predicate CanOp(m: Message, o: nat, op: Op, threads: nat) {
    match op
    case ORef => CanRef(m, o)
    case OUnref => CanUnref(m, o)
    case OAddAck => CanAddAck(m, o)
    case OAck(_) => CanAck(m, o) && m.holders[o].refs >= 1
    case OGive(to, refs) => to < threads && CanGive(m, o, to, refs)
    case OStartProducer => CanStartProducer(m, o)
    case OStartConsumer(a) => CanStartConsumer(m, o, a)
    case OStopAcks => CanStopAcks(m, o)
    case OStopRefs => CanStopRefs(m, o)
  }

  function DoOp(m: Message, o: nat, op: Op, threads: nat): Message
    requires CanOp(m, o, op, threads)
  {
    match op
    case ORef => DoRef(m, o)
    case OUnref => DoUnref(m, o)
    case OAddAck => DoAddAck(m, o)
    case OAck(t) => DoAck(m, o, t)
    case OGive(to, refs) => DoGive(m, o, to, refs)
    case OStartProducer => DoStartProducer(m, o)
    case OStartConsumer(a) => DoStartConsumer(m, o, a)
    case OStopAcks => DoStopAcks(m, o)
    case OStopRefs => DoStopRefs(m, o)
  }

  /** log_msg_clone_cow() on the message being cloned: a fresh slot receives the
      reference just taken and, if there is one to pass on, the thread's ack. */
  predicate CanClone(p: Message, t: nat, ack: bool) {
    && CanRef(p, t) && MayGive(p.holders[t].Change(1, 0, false, false), true)
    && (ack ==> MayGive(p.holders[t], false))
  }

  function Cloned(p: Message, t: nat, ack: bool): Message
    requires CanClone(p, t, ack)
  {
    var q := DoRef(p, t);
    var slot := |q.holders|;
    var r := DoGive(q.(holders := q.holders + [Holder(0, 0, None)]), t, slot, true);
    if ack then DoGive(r, t, slot, false) else r
  }

  predicate Enabled(w: World, s: Step) {
    match s
    case Create(t) => t < w.threads
    case CloneOf(p, t, ack) => p < |w.nodes| && t < w.threads && CanClone(w.nodes[p].msg, t, ack)
    case Do(n, t, op) =>
      && n < |w.nodes| && t < w.threads && CanOp(w.nodes[n].msg, t, op, w.threads)
      // a path that wants no acks never asks a clone for one
      && (op.OAddAck? ==> w.nodes[n].original.None? || w.nodes[n].original.value.ackNeeded)
      && (op.OStartProducer? ==> w.nodes[n].original.None?)
      // a thread has one current message
      && (op.OStartProducer? || op.OStartConsumer? ==>
            forall i :: 0 <= i < |w.nodes| && t < |w.nodes[i].msg.holders| ==> w.nodes[i].msg.holders[t].session.None?)
    case CallBack(n, t) =>
      && n < |w.nodes| && t < w.threads && CanCall(w.nodes[n].msg, t)
      && match w.nodes[n].original
         case None => true
         case Some(g) => g.parent < |w.nodes| && g.slot < |w.nodes[g.parent].msg.holders|
                         && CanPassOn(w.nodes[g.parent].msg, g.slot, t)
  }

  /** The calling thread takes over the clone's ack and may ack the original. */
  predicate CanPassOn(p: Message, slot: nat, t: nat) {
    && t < |p.holders| && slot < |p.holders| && slot != t && p.holders[slot].acks >= 1
    && CanAck(DoGive(p, slot, t, false), t)
  }

  /** log_msg_clone_ack() */
  function PassedOn(p: Message, slot: nat, t: nat, ackType: AckType): Message
    requires CanPassOn(p, slot, t)
  {
    DoAck(DoGive(p, slot, t, false), t, ackType)
  }

  /** Message `n` becomes `m`.  If that freed a clone, its reference to its original
      is now the freeing thread's to drop (log_msg_free). */
  function Commit(w: World, n: nat, m: Message, acks: set<AckType>, t: nat): World
    requires n < |w.nodes|
  {
    var node := w.nodes[n];
    var w' := w.(nodes := w.nodes[n := node.(msg := m, direct := node.direct + acks)]);
    if m.freed > node.msg.freed && node.original.Some? then Release(w', node.original.value, t) else w'
  }

  function Next(w: World, s: Step): World
    requires Enabled(w, s)
  {
    match s
    case Create(t) => w.(nodes := w.nodes + [Node(Born(w.threads, t, false), None, {})])
    case CloneOf(p, t, ack) =>
      var parent := w.nodes[p];
      w.(nodes := w.nodes[p := parent.(msg := Cloned(parent.msg, t, ack))]
                  + [Node(Born(w.threads, t, ack), Some(Origin(p, |parent.msg.holders|, ack)), {})])
    case Do(n, t, op) =>
      Commit(w, n, DoOp(w.nodes[n].msg, t, op, w.threads), op.Acks(), t)
    case CallBack(n, t) =>
      var node := w.nodes[n];
      var w' := w.(nodes := w.nodes[n := node.(msg := DoCall(node.msg, t))]);
      match node.original
      case None => w'
      case Some(g) =>
        var p := w.nodes[g.parent];
        w'.(nodes := w'.nodes[g.parent := p.(msg := PassedOn(p.msg, g.slot, t, node.msg.calling.value.ackType))])
  }

  function Release(w: World, g: Origin, t: nat): World {
    if g.parent < |w.nodes| && g.slot < |w.nodes[g.parent].msg.holders| && t < |w.nodes[g.parent].msg.holders|
       && t != g.slot && w.nodes[g.parent].msg.holders[g.slot].refs >= 1 then
      var parent := w.nodes[g.parent];
      w.(nodes := w.nodes[g.parent := parent.(msg := DoGive(parent.msg, g.slot, t, true))])
    else w
  }

  // ----- what every run keeps

  /** A clone holds its original and owes it an ack until it is freed, and acked. */
  ghost predicate Linked(w: World, c: nat)
    requires c < |w.nodes|
  {
    var m := w.nodes[c].msg;
    && |m.holders| >= w.threads
    && match w.nodes[c].original
       case None => true
       case Some(g) =>
         && g.parent < c && w.threads <= g.slot < |w.nodes[g.parent].msg.holders|
         && w.nodes[g.parent].msg.holders[g.slot]
            == Holder(Bit(m.freed == 0), Bit(g.ackNeeded && m.fired == []), None)
         && m.requested == g.ackNeeded
  }

  ghost predicate SlotsDiffer(w: World) {
    forall c, d :: 0 <= c < d < |w.nodes| && w.nodes[c].original.Some? && w.nodes[d].original.Some?
                   && w.nodes[c].original.value.parent == w.nodes[d].original.value.parent
                   ==> w.nodes[c].original.value.slot != w.nodes[d].original.value.slot
  }

  /** Clone `c` of `p` has passed on an ack of type `k`. */
  ghost predicate PassedAck(w: World, p: nat, c: nat, k: AckType)
    requires c < |w.nodes|
  {
    && w.nodes[c].original.Some? && w.nodes[c].original.value.parent == p
    && w.nodes[c].msg.fired != [] && w.nodes[c].msg.fired[0] == k
  }

  /** Message `p` got an ack of type `k`, directly or from a clone. */
  ghost predicate Got(w: World, p: nat, k: AckType)
    requires p < |w.nodes|
  {
    k in w.nodes[p].direct || exists c :: 0 <= c < |w.nodes| && PassedAck(w, p, c, k)
  }

  ghost predicate TreeInv(w: World) {
    && (forall c :: 0 <= c < |w.nodes| ==> Linked(w, c))
    && SlotsDiffer(w)
  }

  /** The two flags remember just the acks that were not PROCESSED. */
  ghost predicate Blamed(w: World, p: nat)
    requires p < |w.nodes|
  {
    && (w.nodes[p].msg.aborted <==> Got(w, p, Aborted))
    && (w.nodes[p].msg.suspended <==> Got(w, p, Suspended))
  }

  ghost predicate BlameInv(w: World) {
    forall p :: 0 <= p < |w.nodes| ==> Blamed(w, p)
  }

  ghost predicate MessagesInv(w: World) {
    forall c :: 0 <= c < |w.nodes| ==> Inv(w.nodes[c].msg)
  }

  ghost predicate WorldInv(w: World) {
    w.threads >= 1 && MessagesInv(w) && TreeInv(w) && BlameInv(w)
  }

  lemma OpKeeps(m: Message, o: nat, op: Op, threads: nat)
    requires Inv(m) && CanOp(m, o, op, threads)
    ensures Inv(DoOp(m, o, op, threads))
  {
    match op
    case ORef => RefKeeps(m, o);
    case OUnref => UnrefKeeps(m, o);
    case OAddAck => AddAckKeeps(m, o);
    case OAck(t) => AckKeeps(m, o, t);
    case OGive(to, refs) => GiveKeeps(m, o, to, refs);
    case OStartProducer => StartProducerKeeps(m, o);
    case OStartConsumer(a) => StartConsumerKeeps(m, o, a);
    case OStopAcks => StopAcksKeeps(m, o);
    case OStopRefs => StopRefsKeeps(m, o);
  }

  ghost predicate SameFlags(m: Message, n: Message) { m.aborted == n.aborted && m.suspended == n.suspended }

  /** What an operation of one thread may change in a message. */
  ghost predicate OpFrame(m: Message, n: Message, op: Op, threads: nat) {
    && |n.holders| == |m.holders| && n.fired == m.fired && n.freed >= m.freed
    && (forall i :: threads <= i < |m.holders| ==> n.holders[i] == m.holders[i])
    && n.aborted == (m.aborted || Aborted in op.Acks()) && n.suspended == (m.suspended || Suspended in op.Acks())
    && n.requested == (m.requested || op.OAddAck?)
  }

  lemma OpFacts(m: Message, o: nat, op: Op, threads: nat)
    requires o < threads <= |m.holders| && CanOp(m, o, op, threads)
    ensures OpFrame(m, DoOp(m, o, op, threads), op, threads)
  {
  }

  lemma BornInv(threads: nat, t: nat, ack: bool)
    requires t < threads
    ensures Inv(Born(threads, t, ack)) && Clean(Born(threads, t, ack))
  {
    var m := Born(threads, t, ack);
    var none := seq(threads, i => Holder(0, 0, None));
    assert m.holders == none[t := Holder(1, Bit(ack), None)];
    forall k
      ensures Sum(m.holders, k) == Holder(1, Bit(ack), None).Backed(k)
    {
      AllZero(none, k);
      SumUpdate(none, t, Holder(1, Bit(ack), None), k);
    }
  }

  /** What cloning may change in the original. */
  ghost predicate CloneFrame(p: Message, n: Message, t: nat, ack: bool) {
    && |n.holders| == |p.holders| + 1 && n.fired == p.fired && n.freed == p.freed
    && n.holders[|p.holders|] == Holder(1, Bit(ack), None)
    && (forall i :: 0 <= i < |p.holders| && i != t ==> n.holders[i] == p.holders[i])
    && SameFlags(n, p) && n.requested == p.requested
  }

  lemma ClonedFacts(p: Message, t: nat, ack: bool)
    requires CanClone(p, t, ack)
    ensures CloneFrame(p, Cloned(p, t, ack), t, ack)
  {
  }

  lemma ClonedKeeps(p: Message, t: nat, ack: bool)
    requires Inv(p) && CanClone(p, t, ack)
    ensures Inv(Cloned(p, t, ack))
  {
    RefKeeps(p, t);
    var q := DoRef(p, t);
    var q' := q.(holders := q.holders + [Holder(0, 0, None)]);
    AddSlot(q, q');
    GiveKeeps(q', t, |q.holders|, true);
    if ack { GiveKeeps(DoGive(q', t, |q.holders|, true), t, |q.holders|, false); }
  }

  lemma AddSlot(q: Message, q': Message)
    requires Inv(q) && q' == q.(holders := q.holders + [Holder(0, 0, None)])
    ensures Inv(q')
  {
    assert q'.holders[..|q.holders|] == q.holders;
  }

  lemma CreateKeeps(w: World, t: nat)
    requires WorldInv(w) && t < w.threads
    ensures WorldInv(Next(w, Create(t)))
  {
    BornInv(w.threads, t, false);
    var w' := Next(w, Create(t));
    forall c | 0 <= c < |w'.nodes|
      ensures Linked(w', c)
    {
      if c < |w.nodes| { assert Linked(w, c); }
    }
    Appended(w, w');
  }

  /** A new node changes nobody's blame and has none itself. */
  lemma Appended(w: World, w': World)
    requires TreeInv(w) && BlameInv(w) && |w'.nodes| == |w.nodes| + 1
    requires forall c :: 0 <= c < |w.nodes| ==>
               && w'.nodes[c].original == w.nodes[c].original && w'.nodes[c].direct == w.nodes[c].direct
               && w'.nodes[c].msg.fired == w.nodes[c].msg.fired && SameFlags(w'.nodes[c].msg, w.nodes[c].msg)
    requires var last := w'.nodes[|w.nodes|]; Clean(last.msg) && last.direct == {} && last.msg.fired == []
    ensures BlameInv(w')
  {
    forall p | 0 <= p < |w'.nodes|
      ensures Blamed(w', p)
    {
      assert p < |w.nodes| ==> Blamed(w, p);
      AppendedGot(w, w', p, Aborted);
      AppendedGot(w, w', p, Suspended);
    }
  }

  lemma AppendedGot(w: World, w': World, p: nat, k: AckType)
    requires TreeInv(w) && |w'.nodes| == |w.nodes| + 1 && p < |w'.nodes|
    requires forall c :: 0 <= c < |w.nodes| ==>
               && w'.nodes[c].original == w.nodes[c].original && w'.nodes[c].direct == w.nodes[c].direct
               && w'.nodes[c].msg.fired == w.nodes[c].msg.fired
    requires var last := w'.nodes[|w.nodes|]; last.direct == {} && last.msg.fired == []
    ensures Got(w', p, k) <==> p < |w.nodes| && Got(w, p, k)
  {
    assert !PassedAck(w', p, |w.nodes|, k);
    forall c | 0 <= c < |w.nodes|
      ensures PassedAck(w', p, c, k) == PassedAck(w, p, c, k)
      ensures p == |w.nodes| ==> !PassedAck(w, p, c, k)
    {
      assert Linked(w, c);
    }
    if p < |w.nodes| && Got(w, p, k) && k !in w.nodes[p].direct {
      var c :| 0 <= c < |w.nodes| && PassedAck(w, p, c, k);
      assert PassedAck(w', p, c, k);
    }
  }

  /** If no callback ran, only the acks made on `p` itself are new. */
  lemma SameGot(w: World, w': World, p: nat, k: AckType)
    requires p < |w.nodes| == |w'.nodes|
    requires forall c :: 0 <= c < |w.nodes| ==>
               w'.nodes[c].original == w.nodes[c].original && w'.nodes[c].msg.fired == w.nodes[c].msg.fired
    requires w.nodes[p].direct <= w'.nodes[p].direct
    ensures Got(w', p, k) <==> Got(w, p, k) || k in w'.nodes[p].direct
  {
    forall c | 0 <= c < |w.nodes|
      ensures PassedAck(w', p, c, k) == PassedAck(w, p, c, k)
    {
    }
  }

  lemma CommitKeepsTree(w: World, n: nat, m: Message, op: Op, acks: set<AckType>, t: nat)
    requires TreeInv(w) && n < |w.nodes| && t < w.threads && OpFrame(w.nodes[n].msg, m, op, w.threads) && m.freed <= 1
    requires w.nodes[n].original.Some? ==> m.requested == w.nodes[n].msg.requested
    ensures TreeInv(Commit(w, n, m, acks, t))
  {
    var w' := Commit(w, n, m, acks, t);
    forall c | 0 <= c < |w'.nodes|
      ensures Linked(w', c)
    {
      CommitKeepsLink(w, n, m, op, acks, t, c);
    }
  }

  lemma CommitKeepsLink(w: World, n: nat, m: Message, op: Op, acks: set<AckType>, t: nat, c: nat)
    requires TreeInv(w) && n < |w.nodes| && t < w.threads && OpFrame(w.nodes[n].msg, m, op, w.threads) && m.freed <= 1
    requires w.nodes[n].original.Some? ==> m.requested == w.nodes[n].msg.requested
    requires c < |w.nodes|
    ensures Linked(Commit(w, n, m, acks, t), c)
  {
    assert Linked(w, c) && Linked(w, n);
    if w.nodes[c].original.Some? {
      var g := w.nodes[c].original.value;
      assert Linked(w, g.parent);
      if c != n && m.freed > w.nodes[n].msg.freed && w.nodes[n].original.Some? {
        var h := w.nodes[n].original.value;
        assert g.parent == h.parent ==> g.slot != h.slot;
      }
    }
  }

  lemma CommitKeepsBlame(w: World, n: nat, m: Message, op: Op, t: nat)
    requires BlameInv(w) && n < |w.nodes| && OpFrame(w.nodes[n].msg, m, op, w.threads)
    ensures BlameInv(Commit(w, n, m, op.Acks(), t))
  {
    var w' := Commit(w, n, m, op.Acks(), t);
    forall p | 0 <= p < |w'.nodes|
      ensures Blamed(w', p)
    {
      assert Blamed(w, p);
      SameGot(w, w', p, Aborted);
      SameGot(w, w', p, Suspended);
    }
  }

  lemma DoKeeps(w: World, n: nat, t: nat, op: Op)
    requires WorldInv(w) && Enabled(w, Do(n, t, op))
    ensures WorldInv(Next(w, Do(n, t, op)))
  {
    assert Linked(w, n);
    var m := DoOp(w.nodes[n].msg, t, op, w.threads);
    OpKeeps(w.nodes[n].msg, t, op, w.threads);
    OpFacts(w.nodes[n].msg, t, op, w.threads);
    CommitKeepsTree(w, n, m, op, op.Acks(), t);
    CommitKeepsBlame(w, n, m, op, t);
    CommitKeepsMessages(w, n, m, op.Acks(), t);
  }

  lemma CommitKeepsMessages(w: World, n: nat, m: Message, acks: set<AckType>, t: nat)
    requires MessagesInv(w) && n < |w.nodes| && Inv(m)
    requires w.nodes[n].original.Some? ==> var g := w.nodes[n].original.value;
               g.parent < n && g.slot < |w.nodes[g.parent].msg.holders|
                   && w.nodes[g.parent].msg.holders[g.slot].session.None?
    ensures MessagesInv(Commit(w, n, m, acks, t))
  {
    if m.freed > w.nodes[n].msg.freed && w.nodes[n].original.Some? {
      var g := w.nodes[n].original.value;
      var p := w.nodes[g.parent].msg;
      if t < |p.holders| && t != g.slot && p.holders[g.slot].refs >= 1 { GiveKeeps(p, g.slot, t, true); }
    }
  }

  lemma CloneKeeps(w: World, p: nat, t: nat, ack: bool)
    requires WorldInv(w) && Enabled(w, CloneOf(p, t, ack))
    ensures WorldInv(Next(w, CloneOf(p, t, ack)))
  {
    BornInv(w.threads, t, ack);
    ClonedFacts(w.nodes[p].msg, t, ack);
    ClonedKeeps(w.nodes[p].msg, t, ack);
    CloneKeepsTree(w, p, t, Cloned(w.nodes[p].msg, t, ack), Born(w.threads, t, ack), ack);
  }

  function Grown(w: World, p: nat, q: Message, m: Message, ack: bool): World
    requires p < |w.nodes|
  {
    w.(nodes := w.nodes[p := w.nodes[p].(msg := q)] + [Node(m, Some(Origin(p, |w.nodes[p].msg.holders|, ack)), {})])
  }

  lemma CloneKeepsTree(w: World, p: nat, t: nat, q: Message, m: Message, ack: bool)
    requires TreeInv(w) && BlameInv(w) && p < |w.nodes| && t < w.threads && CloneFrame(w.nodes[p].msg, q, t, ack)
    requires |m.holders| == w.threads && m.freed == 0 && m.fired == [] && m.requested == ack && Clean(m)
    ensures TreeInv(Grown(w, p, q, m, ack)) && BlameInv(Grown(w, p, q, m, ack))
  {
    var w' := Grown(w, p, q, m, ack);
    forall c | 0 <= c < |w'.nodes|
      ensures Linked(w', c)
    {
      assert Linked(w, p);
      if c < |w.nodes| {
        assert Linked(w, c);
        if w.nodes[c].original.Some? { assert Linked(w, w.nodes[c].original.value.parent); }
      }
    }
    forall c | 0 <= c < |w.nodes| && w.nodes[c].original.Some? && w.nodes[c].original.value.parent == p
      ensures w.nodes[c].original.value.slot < |w.nodes[p].msg.holders|
    {
      assert Linked(w, c);
    }
    Appended(w, w');
  }

  /** What the callback leaves of the message it is called for ... */
  ghost predicate CallFrame(m: Message, n: Message, a: AckType, threads: nat) {
    && |n.holders| == |m.holders| && n.freed == m.freed && n.requested == m.requested && SameFlags(n, m)
    && m.fired == [] && n.fired == [a]
    && forall i :: threads <= i < |m.holders| ==> n.holders[i] == m.holders[i]
  }

  /** ... and of the original that a clone's callback passes the ack on to. */
  ghost predicate PassFrame(p: Message, n: Message, slot: nat, a: AckType, threads: nat) {
    && threads <= slot < |p.holders| == |n.holders|
    && n.freed == p.freed && n.requested == p.requested && n.fired == p.fired
    && n.aborted == (p.aborted || a == Aborted) && n.suspended == (p.suspended || a == Suspended)
    && p.holders[slot].acks == 1 && n.holders[slot] == p.holders[slot].(acks := 0)
    && forall i :: threads <= i < |p.holders| && i != slot ==> n.holders[i] == p.holders[i]
  }

  lemma CallFacts(m: Message, t: nat, threads: nat)
    requires Inv(m) && CanCall(m, t) && t < threads <= |m.holders|
    ensures Inv(DoCall(m, t)) && CallFrame(m, DoCall(m, t), m.calling.value.ackType, threads)
  {
    CallKeeps(m, t);
  }

  lemma PassFacts(p: Message, slot: nat, t: nat, a: AckType, threads: nat)
    requires Inv(p) && t < threads <= slot < |p.holders| && p.holders[slot].session.None? && p.holders[slot].acks == 1
    requires CanPassOn(p, slot, t)
    ensures Inv(PassedOn(p, slot, t, a)) && PassFrame(p, PassedOn(p, slot, t, a), slot, a, threads)
  {
    GiveKeeps(p, slot, t, false);
    AckKeeps(DoGive(p, slot, t, false), t, a);
  }

  lemma CallKeepsWorld(w: World, n: nat, t: nat)
    requires WorldInv(w) && Enabled(w, CallBack(n, t))
    ensures WorldInv(Next(w, CallBack(n, t)))
  {
    var m := w.nodes[n].msg;
    assert Linked(w, n);
    CallFacts(m, t, w.threads);
    var a := m.calling.value.ackType;
    match w.nodes[n].original
    case None => CallRoot(w, n, DoCall(m, t), a);
    case Some(g) =>
      var p := w.nodes[g.parent].msg;
      PassFacts(p, g.slot, t, a, w.threads);
      CallClone(w, n, g, DoCall(m, t), PassedOn(p, g.slot, t, a), a);
  }

  /** A callback that is due can run at once, unless it is that of a clone and the thread is
      in a session on the original that takes no acks. */
  lemma DueCanRun(w: World, n: nat, t: nat)
    requires WorldInv(w) && n < |w.nodes| && t < w.threads && CanCall(w.nodes[n].msg, t)
    ensures Enabled(w, CallBack(n, t)) <==>
            match w.nodes[n].original
            case None => true
            case Some(g) => g.parent < |w.nodes| && t < |w.nodes[g.parent].msg.holders| &&
                            var h := w.nodes[g.parent].msg.holders[t]; h.session.None? || h.Acking()
  {
    var m := w.nodes[n].msg;
    assert Linked(w, n) && Inv(m);
    if w.nodes[n].original.Some? {
      var g := w.nodes[n].original.value;
      var p := w.nodes[g.parent].msg;
      assert Linked(w, g.parent) && Inv(p);
      assert m.requested && m.fired == [];
      assert p.holders[g.slot].acks == 1;
      ShareFits(p.holders, p.requested, g.slot, ACK);
      assert p.calling.None?;
    }
  }

  lemma CallRoot(w: World, n: nat, m: Message, a: AckType)
    requires TreeInv(w) && BlameInv(w) && n < |w.nodes| && w.nodes[n].original.None?
    requires CallFrame(w.nodes[n].msg, m, a, w.threads)
    ensures var w' := w.(nodes := w.nodes[n := w.nodes[n].(msg := m)]); TreeInv(w') && BlameInv(w')
  {
    var w' := w.(nodes := w.nodes[n := w.nodes[n].(msg := m)]);
    forall c | 0 <= c < |w.nodes|
      ensures Linked(w', c)
    {
      assert Linked(w, c);
      if w.nodes[c].original.Some? { assert Linked(w, w.nodes[c].original.value.parent); }
    }
    forall p | 0 <= p < |w.nodes|
      ensures Blamed(w', p)
    {
      assert Blamed(w, p);
      RootGot(w, w', n, p, Aborted);
      RootGot(w, w', n, p, Suspended);
    }
  }

  /** The callback of an original passes nothing on. */
  lemma RootGot(w: World, w': World, n: nat, p: nat, k: AckType)
    requires p < |w.nodes| == |w'.nodes| && n < |w.nodes| && w.nodes[n].original.None?
    requires w'.nodes[n].original.None? && w'.nodes[n].direct == w.nodes[n].direct
    requires forall c :: 0 <= c < |w.nodes| && c != n ==> w'.nodes[c] == w.nodes[c]
    ensures Got(w', p, k) <==> Got(w, p, k)
  {
    forall c | 0 <= c < |w.nodes|
      ensures PassedAck(w', p, c, k) == PassedAck(w, p, c, k)
    {
    }
  }

  function Passed(w: World, n: nat, g: Origin, m: Message, q: Message): World
    requires n < |w.nodes| && g.parent < |w.nodes|
  {
    w.(nodes := w.nodes[n := w.nodes[n].(msg := m)][g.parent := w.nodes[g.parent].(msg := q)])
  }

  lemma CallClone(w: World, n: nat, g: Origin, m: Message, q: Message, a: AckType)
    requires TreeInv(w) && BlameInv(w) && n < |w.nodes| && w.nodes[n].original == Some(g) && g.parent < n
    requires CallFrame(w.nodes[n].msg, m, a, w.threads)
    requires PassFrame(w.nodes[g.parent].msg, q, g.slot, a, w.threads)
    ensures TreeInv(Passed(w, n, g, m, q)) && BlameInv(Passed(w, n, g, m, q))
  {
    var w' := Passed(w, n, g, m, q);
    forall c | 0 <= c < |w.nodes|
      ensures Linked(w', c)
    {
      CallKeepsLink(w, n, g, m, q, a, c);
    }
    forall p | 0 <= p < |w.nodes|
      ensures Blamed(w', p)
    {
      assert Linked(w, n) && Blamed(w, p);
      CloneGot(w, w', n, g, a, p, Aborted);
      CloneGot(w, w', n, g, a, p, Suspended);
    }
  }

  /** The callback of a clone passes its type on to the original and nowhere else. */
  lemma CloneGot(w: World, w': World, n: nat, g: Origin, a: AckType, p: nat, k: AckType)
    requires p < |w.nodes| == |w'.nodes| && n < |w.nodes|
    requires w.nodes[n].original == Some(g) && w.nodes[n].msg.fired == []
    requires w'.nodes[n].original == Some(g) && w'.nodes[n].msg.fired == [a]
    requires forall c :: 0 <= c < |w.nodes| ==>
               && w'.nodes[c].original == w.nodes[c].original && w'.nodes[c].direct == w.nodes[c].direct
               && (c != n ==> w'.nodes[c].msg.fired == w.nodes[c].msg.fired)
    ensures Got(w', p, k) <==> Got(w, p, k) || (p == g.parent && k == a)
  {
    forall c | 0 <= c < |w.nodes| && c != n
      ensures PassedAck(w', p, c, k) == PassedAck(w, p, c, k)
    {
    }
    assert !PassedAck(w, p, n, k);
    assert PassedAck(w', p, n, k) == (p == g.parent && k == a);
    if Got(w, p, k) && k !in w.nodes[p].direct {
      var c :| 0 <= c < |w.nodes| && PassedAck(w, p, c, k);
      assert PassedAck(w', p, c, k);
    }
  }

  lemma CallKeepsLink(w: World, n: nat, g: Origin, m: Message, q: Message, a: AckType, c: nat)
    requires TreeInv(w) && n < |w.nodes| && w.nodes[n].original == Some(g) && g.parent < n && c < |w.nodes|
    requires CallFrame(w.nodes[n].msg, m, a, w.threads)
    requires PassFrame(w.nodes[g.parent].msg, q, g.slot, a, w.threads)
    ensures Linked(Passed(w, n, g, m, q), c)
  {
    assert Linked(w, c) && Linked(w, n);
    if w.nodes[c].original.Some? {
      var h := w.nodes[c].original.value;
      assert Linked(w, h.parent);
      assert c != n && h.parent == g.parent ==> h.slot != g.slot;
    }
  }

  // ----- the main results

  ghost predicate Run(ws: seq<World>, steps: seq<Step>) {
    && |ws| == |steps| + 1 && ws[0].threads >= 1 && ws[0].nodes == []
    && forall i :: 0 <= i < |steps| ==> Enabled(ws[i], steps[i]) && ws[i + 1] == Next(ws[i], steps[i])
  }

  lemma NextKeeps(w: World, s: Step)
    requires WorldInv(w) && Enabled(w, s)
    ensures WorldInv(Next(w, s))
  {
    match s
    case Create(t) => CreateKeeps(w, t);
    case CloneOf(p, t, ack) => CloneKeeps(w, p, t, ack);
    case Do(n, t, op) => DoKeeps(w, n, t, op);
    case CallBack(n, t) => CallKeepsWorld(w, n, t);
  }

  lemma {:induction false} RunKeeps(ws: seq<World>, steps: seq<Step>, i: nat)
    requires Run(ws, steps) && i < |ws|
    ensures WorldInv(ws[i])
  {
    if i > 0 {
      RunKeeps(ws, steps, i - 1);
      NextKeeps(ws[i - 1], steps[i - 1]);
    }
  }

  /** Clone `c` acks on behalf of `i`. */
  ghost predicate AcksFor(w: World, i: nat, c: nat) {
    && i < c < |w.nodes| && w.nodes[c].original.Some? && w.nodes[c].original.value.parent == i
    && w.nodes[c].original.value.ackNeeded
  }

  /** An ack of type `k` was made on message `i` or on some clone, or clone of a clone, that
      acks on its behalf. */
  ghost predicate InTree(w: World, i: nat, k: AckType)
    requires i < |w.nodes|
    decreases |w.nodes| - i
  {
    k in w.nodes[i].direct || exists c: nat :: AcksFor(w, i, c) && InTree(w, c, k)
  }

  ghost predicate TreeClean(w: World, i: nat)
    requires i < |w.nodes|
  {
    !InTree(w, i, Aborted) && !InTree(w, i, Suspended)
  }

  /** An ack that a clone has passed on was made below it, and clones that ack have passed
      something on once the original's callback has run. */
  lemma {:induction false} GotIsInTree(w: World, i: nat, k: AckType)
    requires WorldInv(w) && i < |w.nodes| && w.nodes[i].msg.fired != [] && k != Processed && Got(w, i, k)
    ensures InTree(w, i, k)
    decreases |w.nodes| - i, 0
  {
    if k !in w.nodes[i].direct {
      var c :| 0 <= c < |w.nodes| && PassedAck(w, i, c, k);
      assert Linked(w, c) && Inv(w.nodes[c].msg);
      assert AcksFor(w, i, c);
      ToldIsInTree(w, c);
    }
  }

  /** A callback told ABORTED or SUSPENDED had such an ack in the message's tree. */
  lemma {:induction false} ToldIsInTree(w: World, i: nat)
    requires WorldInv(w) && i < |w.nodes| && w.nodes[i].msg.fired != []
    ensures w.nodes[i].msg.fired[0] != Processed ==> InTree(w, i, w.nodes[i].msg.fired[0])
    decreases |w.nodes| - i, 1
  {
    var m := w.nodes[i].msg;
    assert Inv(m) && Blamed(w, i);
    if m.fired[0] != Processed {
      GotIsInTree(w, i, m.fired[0]);
    }
  }

  /** A callback told PROCESSED had no other ack in the message's tree. */
  lemma {:induction false} ProcessedIsClean(w: World, i: nat, k: AckType)
    requires WorldInv(w) && i < |w.nodes| && w.nodes[i].msg.fired == [Processed] && k != Processed
    ensures !InTree(w, i, k)
    decreases |w.nodes| - i
  {
    var m := w.nodes[i].msg;
    assert Inv(m) && Blamed(w, i);
    NothingLeft(m.holders, m.requested, ACK);
    forall c: nat | AcksFor(w, i, c)
      ensures !InTree(w, c, k)
    {
      assert Linked(w, c) && Inv(w.nodes[c].msg);
      var f := w.nodes[c].msg.fired;
      assert f != [] && |f| == 1;
      if f[0] != Processed {
        assert PassedAck(w, i, c, f[0]);
      }
      ProcessedIsClean(w, c, k);
    }
  }

  /** The callback of a message is told PROCESSED exactly when no ack in its whole tree of
      clones was ABORTED or SUSPENDED, and is told one of these only if some ack there was
      just that; so where all the others were of one kind, it is told that kind. */
  lemma TypeOfTheTree(w: World, i: nat)
    requires WorldInv(w) && i < |w.nodes| && w.nodes[i].msg.fired != []
    ensures var a := w.nodes[i].msg.fired[0];
            && (a == Processed <==> TreeClean(w, i))
            && (a != Processed ==> InTree(w, i, a))
            && (InTree(w, i, Suspended) && !InTree(w, i, Aborted) ==> a == Suspended)
            && (InTree(w, i, Aborted) && !InTree(w, i, Suspended) ==> a == Aborted)
  {
    assert Inv(w.nodes[i].msg);
    ToldIsInTree(w, i);
    if w.nodes[i].msg.fired[0] == Processed {
      ProcessedIsClean(w, i, Aborted);
      ProcessedIsClean(w, i, Suspended);
    }
  }

  ghost predicate NobodyHolds(m: Message) {
    forall i :: 0 <= i < |m.holders| ==> m.holders[i].refs == 0 && m.holders[i].session.None?
  }

  ghost predicate NobodyOwes(m: Message) {
    forall i :: 0 <= i < |m.holders| ==> m.holders[i].acks == 0 && !m.holders[i].Acking()
  }

  /** In every interleaving: the word and the caches add up to what is held; a
      message is freed at most once, and exactly when nobody holds it and no session
      is open on it; its callback runs at most once, exactly when it has been asked
      for and nobody owes an ack any more; and it is told PROCESSED exactly when the
      whole clone tree was, and else something the tree was acked with. */
  lemma EveryInterleaving(ws: seq<World>, steps: seq<Step>, i: nat, n: nat)
    requires Run(ws, steps) && i < |ws| && n < |ws[i].nodes|
    ensures var m := ws[i].nodes[n].msg;
            && m.word.ref + TotalCached(m.holders, REF) == TotalHeld(m.holders, REF)
            && m.word.ack + TotalCached(m.holders, ACK) == TotalHeld(m.holders, ACK)
            && m.freed <= 1 && (m.freed == 1 <==> NobodyHolds(m))
            && |m.fired| <= 1 && (m.fired != [] || m.calling.Some? <==> m.requested && NobodyOwes(m))
            && (m.fired != [] ==>
                  && m.calling.None? && (m.fired[0] == Processed <==> TreeClean(ws[i], n))
                  && (m.fired[0] != Processed ==> InTree(ws[i], n, m.fired[0])))
  {
    RunKeeps(ws, steps, i);
    var m := ws[i].nodes[n].msg;
    assert Inv(m);
    SumIsDifference(m.holders, REF);
    SumIsDifference(m.holders, ACK);
    if m.word.ref == 0 { NothingLeft(m.holders, m.requested, REF); }
    if m.word.ack == 0 { NothingLeft(m.holders, m.requested, ACK); }
    if NobodyHolds(m) { AllZero(m.holders, REF); }
    if NobodyOwes(m) { AllZero(m.holders, ACK); }
    if m.fired != [] { TypeOfTheTree(ws[i], n); }
  }
}
