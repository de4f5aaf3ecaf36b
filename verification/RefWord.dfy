/** The 32-bit word that packs a message's REF and ACK counters with its
    ABORT and SUSPEND flags, and the compare-and-exchange loop that updates it.

    Masking and shifting are written as division and remainder: the REF counter
    is the low 15 bits, the ACK counter the next 15, then one bit per flag. */
module RefWord {

  const FIELD := 0x8000
  const ABORT_UNIT := 0x4000_0000
  const SUSPEND_UNIT := 0x8000_0000
  const BIAS := 0x2000

  type Word = w: nat | w < 0x1_0000_0000

  datatype AckType = Processed | Aborted | Suspended

  function Ref(w: Word): nat { w % FIELD }

  function Ack(w: Word): nat { w / FIELD % FIELD }

  predicate Abort(w: Word) { w / ABORT_UNIT % 2 == 1 }

  predicate Suspend(w: Word) { w / SUSPEND_UNIT == 1 }

  function Bit(b: bool): nat { if b then 1 else 0 }

  function WithRef(w: Word, n: int): Word { w - Ref(w) + n % FIELD }

  function WithAck(w: Word, n: int): Word { w - Ack(w) * FIELD + n % FIELD * FIELD }

  function WithAbort(w: Word, b: bool): Word { w - Bit(Abort(w)) * ABORT_UNIT + Bit(b) * ABORT_UNIT }

  function WithSuspend(w: Word, b: bool): Word { w - Bit(Suspend(w)) * SUSPEND_UNIT + Bit(b) * SUSPEND_UNIT }

  /** The new word: each field is cut out and put back in turn.  A counter wraps
      inside its own 15 bits, a flag is or-ed. */
  function Updated(w: Word, addRef: int, addAck: int, abort: bool, suspend: bool): Word {
    var w1 := WithRef(w, Ref(w) + addRef);
    var w2 := WithAck(w1, Ack(w) + addAck);
    var w3 := WithAbort(w2, Abort(w) || abort);
    WithSuspend(w3, Suspend(w) || suspend)
  }

  function Packed(ref: nat, ack: nat, abort: bool, suspend: bool): Word
    requires ref < FIELD && ack < FIELD
  {
    ref + ack * FIELD + Bit(abort) * ABORT_UNIT + Bit(suspend) * SUSPEND_UNIT
  }

  /** Packing and reading back are inverse to each other, both ways round. */
  lemma PackedRoundTrip(ref: nat, ack: nat, abort: bool, suspend: bool)
    requires ref < FIELD && ack < FIELD
    ensures var w := Packed(ref, ack, abort, suspend);
            Ref(w) == ref && Ack(w) == ack && Abort(w) == abort && Suspend(w) == suspend
  {
    var w := Packed(ref, ack, abort, suspend);
    assert w == ref + FIELD * (ack + FIELD * (Bit(abort) + 2 * Bit(suspend)));
    assert w / FIELD == ack + FIELD * (Bit(abort) + 2 * Bit(suspend));
  }

  lemma EveryWordIsPacked(w: Word)
    ensures w == Packed(Ref(w), Ack(w), Abort(w), Suspend(w))
  {
    assert w == w / FIELD * FIELD + Ref(w);
    assert w / FIELD == w / ABORT_UNIT * FIELD + Ack(w);
  }

  /** A number cut to 15 bits. */
  function Wrap(n: int): nat { if 0 <= n < FIELD then n else n % FIELD }

  /** The word taken apart. */
  datatype Fields = Fields(ref: nat, ack: nat, abort: bool, suspend: bool) {
    function Plus(addRef: int, addAck: int, addAbort: bool, addSuspend: bool): Fields {
      Fields(Wrap(ref + addRef), Wrap(ack + addAck), abort || addAbort, suspend || addSuspend)
    }
  }

  function Read(w: Word): Fields { Fields(Ref(w), Ack(w), Abort(w), Suspend(w)) }

  lemma PutRef(w: Word, n: int)
    ensures Read(WithRef(w, n)) == Read(w).(ref := Wrap(n))
  {
    EveryWordIsPacked(w);
    PackedRoundTrip(n % FIELD, Ack(w), Abort(w), Suspend(w));
  }

  lemma PutAck(w: Word, n: int)
    ensures Read(WithAck(w, n)) == Read(w).(ack := Wrap(n))
  {
    EveryWordIsPacked(w);
    PackedRoundTrip(Ref(w), n % FIELD, Abort(w), Suspend(w));
  }

  lemma PutFlags(w: Word, b: bool)
    ensures Read(WithAbort(w, b)) == Read(w).(abort := b)
    ensures Read(WithSuspend(w, b)) == Read(w).(suspend := b)
  {
    EveryWordIsPacked(w);
    PackedRoundTrip(Ref(w), Ack(w), b, Suspend(w));
    PackedRoundTrip(Ref(w), Ack(w), Abort(w), b);
  }

  /** No update of one field leaks into another one. */
  lemma FieldsAreIndependent(w: Word, addRef: int, addAck: int, abort: bool, suspend: bool)
    ensures Read(Updated(w, addRef, addAck, abort, suspend)) == Read(w).Plus(addRef, addAck, abort, suspend)
  {
    var f := Read(w);
    AfterRef(WithRef(w, f.ref + addRef), f, addRef, addAck, abort, suspend) by { PutRef(w, f.ref + addRef); }
  }

  lemma AfterRef(w1: Word, f: Fields, addRef: int, addAck: int, abort: bool, suspend: bool)
    requires f.ref < FIELD && Read(w1) == f.(ref := Wrap(f.ref + addRef))
    ensures Read(WithSuspend(WithAbort(WithAck(w1, f.ack + addAck), f.abort || abort), f.suspend || suspend))
            == f.Plus(addRef, addAck, abort, suspend)
  {
    var w2 := WithAck(w1, f.ack + addAck);
    AfterAck(w2, f.(ref := Wrap(f.ref + addRef), ack := Wrap(f.ack + addAck)), abort, suspend)
    by { PutAck(w1, f.ack + addAck); }
  }

  lemma AfterAck(w2: Word, f: Fields, abort: bool, suspend: bool)
    requires Read(w2) == f
    ensures Read(WithSuspend(WithAbort(w2, f.abort || abort), f.suspend || suspend))
            == f.(abort := f.abort || abort, suspend := f.suspend || suspend)
  {
    PutFlags(w2, f.abort || abort);
    PutFlags(WithAbort(w2, f.abort || abort), f.suspend || suspend);
  }

  /** The word as a shared cell. */
  class Cell {
    var word: Word

    constructor (w: Word)
      ensures word == w
    {
      word := w;
    }

    /** The compare-and-exchange loop.  `writes[k]` is what other threads left in
        the word between the load and the exchange of the loop's k-th attempt; once
        they are used up nobody interferes.  Whatever was written in between, the
        update is applied to the word as it stood at the exchange, and that very
        value is handed back. */
    method Update(addRef: int, addAck: int, abort: bool, suspend: bool, writes: seq<Word>)
      returns (oldValue: Word, attempts: nat)
      modifies this
      ensures attempts <= |writes|
      ensures oldValue == if attempts < |writes| then writes[attempts]
                           else if writes == [] then old(word) else writes[|writes| - 1]
      ensures word == Updated(oldValue, addRef, addAck, abort, suspend)
    {
      attempts := 0;
      while true
        invariant attempts <= |writes|
        invariant attempts > 0 ==> word == writes[attempts - 1]
        invariant attempts == 0 ==> word == old(word)
        decreases |writes| - attempts
      {
        oldValue := word;
        var newValue := Updated(oldValue, addRef, addAck, abort, suspend);
        if attempts < |writes| { word := writes[attempts]; }
        if word == oldValue {
          word := newValue;
          return;
        }
        attempts := attempts + 1;
      }
    }
  }
}
