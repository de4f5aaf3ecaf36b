/** The queue as the code has it: separate lists, each with a length field of its
    own, and loops over their nodes.  Every method does what Fifo says. */
module LogQueueFifo {
  import opened Wrappers
  import opened RefWord
  import opened Fifo

  /** The length fields of the input lists have 16 bits. */
  const LEN_UNIT := 0x1_0000

  class FifoQueue {
    const size: int
    var useBacklog: bool
    var input: seq<seq<Node>>
    var inputLen: seq<nat>
    var registered: seq<bool>
    var wait: seq<Node>
    var waitLen: int
    var output: seq<Node>
    var outputLen: int
    var backlog: seq<Node>
    var backlogLen: int
    var stored: int
    var dropped: nat
    /** The acks made and the messages handed out, in order. */
    var fates: seq<Gone>
    ghost var pushed: nat

    ghost function Model(): Queue
      reads this
    {
      Queue(backlog + output + wait, |backlog|, |output|, input, fates, pushed)
    }

    /** A non-empty input list always has its batch callback registered. */
    ghost predicate Valid()
      reads this
    {
      && |inputLen| == |registered| == |input|
      && forall t :: 0 <= t < |input| ==> inputLen[t] == |input[t]| % LEN_UNIT && (input[t] != [] ==> registered[t])
    }

    /** The length fields and the stored counter agree with the lists. */
    ghost predicate Counted()
      reads this
    {
      && waitLen == |wait| && outputLen == |output| && backlogLen == |backlog|
      && stored == waitLen + outputLen
    }

    constructor (size: int, threads: nat)
      ensures Valid() && Counted() && this.size == size && !useBacklog
      ensures Model() == Queue([], 0, 0, seq(threads, i => []), [], 0)
    {
      this.size, useBacklog := size, false;
      input, inputLen, registered := seq(threads, i => []), seq(threads, i => 0), seq(threads, i => false);
      wait, waitLen, output, outputLen, backlog, backlogLen := [], 0, [], 0, [], 0;
      stored, dropped, fates, pushed := 0, 0, [], 0;
    }

    method PushTail(n: Node)
      requires Valid() && Counted() && Pushable(Model(), n)
      modifies this
      ensures Valid() && Counted() && useBacklog == old(useBacklog)
      ensures Model() == Push(old(Model()), n, size)
    {
      pushed := pushed + 1;
      if n.thread >= 0 {
        PushInput(n.thread, n);
        return;
      }
      if waitLen + outputLen < size {
        assert backlog + output + (wait + [n]) == backlog + output + wait + [n];
        wait := wait + [n];
        waitLen := waitLen + 1;
        stored := stored + 1;
      } else {
        dropped := dropped + 1;
        fates := fates + [Gone(n, Dropped(if n.flowControl then Suspended else Processed))];
      }
    }

    /** The lockless path of a thread with an input list of its own. */
    method PushInput(t: nat, n: Node)
      requires Valid() && t < |input|
      modifies this`registered, this`input, this`inputLen
      ensures Valid() && input == old(input)[t := old(input)[t] + [n]]
    {
      if !registered[t] {
        registered := registered[t := true];
      }
      input := input[t := input[t] + [n]];
      inputLen := inputLen[t := (inputLen[t] + 1) % LEN_UNIT];
    }

    /** `seenOutput` is the length of the output list as the input thread happened to
        read it.  The length fields stay right exactly as long as the batch is small
        enough for its own 16-bit length field. */
    method MoveInput(t: nat, seenOutput: nat)
      requires Valid() && Counted() && t < |input|
      modifies this`input, this`inputLen, this`registered, this`dropped, this`fates, this`stored, this`wait,
          this`waitLen
      ensures Valid()
      ensures Model() == Move(old(Model()), t, Overflow(old(waitLen) + seenOutput, |old(input[t])| % LEN_UNIT, size))
      ensures Counted() <==> |old(input[t])| < LEN_UNIT
    {
      hide Fates;
      ghost var q, d := Model(), Overflow(waitLen + seenOutput, inputLen[t], size);
      NoFates(q.inputs[t]);
      var queueLen := waitLen + seenOutput;
      if queueLen + inputLen[t] > size {
        var room := if size > queueLen then size - queueLen else 0;
        DropOldest(t, inputLen[t] - room);
      } else {
        assert input[t][0..] == input[t] && fates + [] == fates;
      }
      assert input[t] == q.inputs[t][d..] && fates == q.gone + Fates(q.inputs[t][..d], DropFate);
      assert inputLen[t] == |q.inputs[t]| % LEN_UNIT - d;
      Splice(t);
    }

    /** The slow path: the oldest `n` messages of the batch are dropped. */
    method DropOldest(t: nat, n: nat)
      requires |inputLen| == |input| && t < |input| && n <= inputLen[t] <= |input[t]|
      modifies this`input, this`inputLen, this`dropped, this`fates
      ensures input == old(input)[t := old(input)[t][n..]] && inputLen == old(inputLen)[t := old(inputLen)[t] - n]
      ensures fates == old(fates) + Fates(old(input)[t][..n], DropFate)
      ensures dropped == old(dropped) + n
    {
      ghost var batch := input[t];
      for i := 0 to n
        invariant |inputLen| == |input| == |old(input)| && dropped == old(dropped) + i
        invariant input == old(input)[t := batch[i..]] && inputLen == old(inputLen)[t := old(inputLen)[t] - i]
        invariant fates == old(fates) + Fates(batch[..i], DropFate)
      {
        var node := input[t][0];
        input := input[t := input[t][1..]];
        inputLen := inputLen[t := inputLen[t] - 1];
        dropped := dropped + 1;
        assert batch[..i + 1][..i] == batch[..i];
        fates := fates + [Gone(node, Dropped(if node.flowControl then Suspended else Processed))];
      }
    }

    /** What is left of the batch joins the wait list, counted by its length field. */
    method Splice(t: nat)
      requires |inputLen| == |registered| == |input| && t < |input|
      modifies this`input, this`inputLen, this`registered, this`stored, this`wait, this`waitLen
      ensures input == old(input)[t := []] && inputLen == old(inputLen)[t := 0]
              && registered == old(registered)[t := false]
      ensures wait == old(wait) + old(input)[t] && waitLen == old(waitLen) + old(inputLen)[t]
      ensures stored == old(stored) + old(inputLen)[t]
      ensures Model() == old(Model()).(inputs := input, line := old(Model()).line + old(input)[t])
    {
      stored := stored + inputLen[t];
      assert backlog + output + (wait + input[t]) == (backlog + output + wait) + input[t];
      wait := wait + input[t];
      waitLen := waitLen + inputLen[t];
      input := input[t := []];
      inputLen := inputLen[t := 0];
      registered := registered[t := false];
    }

    method PopHead() returns (r: Option<Node>)
      requires Valid() && Counted()
      modifies this`wait, this`waitLen, this`output, this`outputLen, this`backlog, this`backlogLen, this`stored,
          this`fates
      ensures Valid() && Counted()
      ensures Model() == Pop(old(Model()), useBacklog)
      ensures r == if old(Model()).Length() == 0 then None else Some(old(Model()).line[old(Model()).sent])
    {
      if outputLen == 0 {
        TakeWaiting();
      }
      if outputLen == 0 { return None; }
      r := Some(output[0]);
      TakeFirst();
    }

    method TakeWaiting()
      requires Counted() && outputLen == 0
      modifies this`wait, this`waitLen, this`output, this`outputLen
      ensures Counted() && Model() == Filled(old(Model()))
    {
      assert backlog + output + wait == backlog + wait + [];
      output, wait := output + wait, [];
      outputLen, waitLen := waitLen, 0;
    }

    method TakeFirst()
      requires Counted() && outputLen > 0
      modifies this`output, this`outputLen, this`backlog, this`backlogLen, this`stored, this`fates
      ensures Counted() && Model() == Pop(old(Model()), useBacklog)
    {
      var node := output[0];
      ghost var line := Model().line;
      output, outputLen := output[1..], outputLen - 1;
      stored := stored - 1;
      if useBacklog {
        backlog, backlogLen := backlog + [node], backlogLen + 1;
        assert Model().line == line;
      } else {
        fates := fates + [Gone(node, HandedOut)];
        assert Model().line == line[..|backlog|] + line[|backlog| + 1..];
      }
    }

    method AckBacklog(count: nat)
      requires Counted()
      modifies this`backlog, this`backlogLen, this`fates
      ensures Counted()
      ensures Model() == Confirm(old(Model()), count)
    {
      SentFirst(backlog, output, wait, Min(count, |backlog|));
      AckOldest(count);
    }

    method AckOldest(count: nat)
      requires backlogLen == |backlog|
      modifies this`backlog, this`backlogLen, this`fates
      ensures backlogLen == |backlog|
      ensures var n := Min(count, |old(backlog)|);
              backlog == old(backlog)[n..] && fates == old(fates) + Fates(old(backlog)[..n], AckedFate)
    {
      ghost var was := backlog;
      var pos := 0;
      while pos < count && backlogLen > 0
        invariant backlogLen == |backlog| && pos <= count && pos <= |was| && backlog == was[pos..]
        invariant fates == old(fates) + Fates(was[..pos], AckedFate)
      {
        var node := backlog[0];
        backlog, backlogLen := backlog[1..], backlogLen - 1;
        assert was[..pos + 1][..pos] == was[..pos];
        fates := fates + [Gone(node, Acked(Processed))];
        pos := pos + 1;
      }
    }

    method RewindBacklog(count: nat)
      requires Counted()
      modifies this`backlog, this`backlogLen, this`output, this`outputLen, this`stored
      ensures Counted()
      ensures Model() == Rewind(old(Model()), count)
    {
      var n := if count > backlogLen then backlogLen else count;
      for pos := 0 to n
        invariant Counted()
        invariant backlogLen == old(backlogLen) - pos
        invariant Model() == Rewind(old(Model()), pos)
      {
        var node := backlog[|backlog| - 1];
        assert backlog + output == backlog[..|backlog| - 1] + ([node] + output);
        backlog, output := backlog[..|backlog| - 1], [node] + output;
        backlogLen, outputLen := backlogLen - 1, outputLen + 1;
        stored := stored + 1;
      }
    }

    method RewindBacklogAll()
      requires Counted()
      modifies this`backlog, this`backlogLen, this`output, this`outputLen, this`stored
      ensures Counted()
      ensures Model() == RewindAll(old(Model()))
    {
      output, outputLen := output + backlog, outputLen + backlogLen;
      stored := stored + backlogLen;
      backlog, backlogLen := [], 0;
    }

    /** log_queue_fifo_free(): whatever is still queued is acked as ABORTED. */
    method Free()
      modifies this`input, this`wait, this`output, this`backlog, this`fates
      ensures Model() == Emptied(old(Model()))
    {
      hide Fates, Joined, Everything;
      InOrderOfFree(input, backlog, output, wait);
      FreeInputs();
      assert input == seq(|old(input)|, _ => []);
      FatesOfLists(old(fates), Joined(old(input)), wait, output, backlog);
      var w := FreeList(wait);
      var o := FreeList(output);
      var b := FreeList(backlog);
      fates, wait, output, backlog := fates + w + o + b, [], [], [];
    }

    method FreeInputs()
      modifies this`input, this`fates
      ensures |input| == |old(input)| && forall t :: 0 <= t < |input| ==> input[t] == []
      ensures fates == old(fates) + Fates(Joined(old(input)), FreedFate)
    {
      hide Fates, Joined;
      ghost var ins := input;
      NothingJoined(ins);
      for t := 0 to |input|
        invariant |input| == |ins| && forall u :: 0 <= u < t ==> input[u] == []
        invariant forall u :: t <= u < |input| ==> input[u] == ins[u]
        invariant fates == old(fates) + Fates(Joined(ins[..t]), FreedFate)
      {
        OneMoreJoined(ins, t);
        var freed := FreeList(input[t]);
        fates := fates + freed;
        input := input[t := []];
      }
      assert ins[..|ins|] == ins;
    }
  }

  lemma SentFirst(backlog: seq<Node>, output: seq<Node>, wait: seq<Node>, n: nat)
    requires n <= |backlog|
    ensures (backlog + output + wait)[n..] == backlog[n..] + output + wait
    ensures (backlog + output + wait)[..n] == backlog[..n]
  {
  }

  lemma InOrderOfFree(input: seq<seq<Node>>, backlog: seq<Node>, output: seq<Node>, wait: seq<Node>)
    ensures forall gone, pushed ::
              Everything(Queue(backlog + output + wait, |backlog|, |output|, input, gone, pushed)) ==
              Joined(input) + wait + output + backlog
  {
    var line := backlog + output + wait;
    assert line[|backlog| + |output|..] == wait && line[|backlog|..|backlog| + |output|] == output
           && line[..|backlog|] == backlog;
  }

  lemma NoFates(s: seq<Node>)
    ensures Fates(s[..0], DropFate) == []
  {
  }

  lemma NothingJoined(ins: seq<seq<Node>>)
    ensures Fates(Joined(ins[..0]), FreedFate) == []
  {
  }

  lemma OneMoreJoined(ins: seq<seq<Node>>, t: nat)
    requires t < |ins|
    ensures Fates(Joined(ins[..t + 1]), FreedFate) == Fates(Joined(ins[..t]), FreedFate) + Fates(ins[t], FreedFate)
  {
    hide Fates;
    assert ins[..t + 1][..t] == ins[..t];
    FatesAppend(Joined(ins[..t]), ins[t]);
  }

  lemma {:induction false} FatesAppend(a: seq<Node>, b: seq<Node>)
    ensures Fates(a + b, FreedFate) == Fates(a, FreedFate) + Fates(b, FreedFate)
  {
  }

  lemma FatesOfLists(f: seq<Gone>, i: seq<Node>, w: seq<Node>, o: seq<Node>, b: seq<Node>)
    ensures f + Fates(i + w + o + b, FreedFate)
            == f + Fates(i, FreedFate) + Fates(w, FreedFate) + Fates(o, FreedFate) + Fates(b, FreedFate)
  {
    FatesAppend(i, w);
    FatesAppend(i + w, o);
    FatesAppend(i + w + o, b);
    Associate(f, Fates(i, FreedFate), Fates(w, FreedFate), Fates(o, FreedFate), Fates(b, FreedFate));
  }

  lemma Associate<T>(f: seq<T>, i: seq<T>, w: seq<T>, o: seq<T>, b: seq<T>)
    ensures f + (i + w + o + b) == f + i + w + o + b
  {
  }

  method FreeList(q: seq<Node>) returns (r: seq<Gone>)
    ensures r == Fates(q, FreedFate)
  {
    r := [];
    var rest := q;
    while rest != []
      invariant |rest| <= |q| && rest == q[|q| - |rest|..]
      invariant r == Fates(q[..|q| - |rest|], FreedFate)
    {
      var node := rest[0];
      assert q[..|q| - |rest| + 1][..|q| - |rest|] == q[..|q| - |rest|];
      rest := rest[1..];
      r := r + [Gone(node, Freed(Aborted))];
    }
    assert q[..|q|] == q;
  }
}
