/** Pipes that may give either answer: if such a pipe stands only once in a tree that is not
    fine, the tree is not fine with one of the two answers already. */
module PathChoice {
  import opened LogTree
  import opened Sharing

  // ----- the pipes of a tree

  function Elems(p: Path): set<Elem>
    decreases p, 0
  {
    match p
    case End => {}
    case Proc(e, rest) => {e} + Elems(rest)
    case Group(_, rest) => Elems(rest)
    case Mpx(hops, rest) => SortElems(hops, false) + SortElems(hops, true) + Elems(rest)
  }

  /** The pipes below the fallback hops, or below the others. */
  function SortElems(hops: Hops, fallback: bool): set<Elem>
    decreases hops, 0
  {
    if hops.NoHops? then {}
    else (if hops.mark.fallback == fallback then Elems(hops.path) else {}) + SortElems(hops.tail, fallback)
  }

  /** `e` stands in the tree at most once. */
  predicate Once(e: Elem, p: Path)
    decreases p, 0
  {
    match p
    case End => true
    case Proc(f, rest) => (e == f ==> e !in Elems(rest)) && Once(e, rest)
    case Group(_, rest) => Once(e, rest)
    case Mpx(hops, rest) =>
      && OnceHops(e, hops) && Once(e, rest)
      && (e in SortElems(hops, false) + SortElems(hops, true) ==> e !in Elems(rest))
  }

  predicate OnceHops(e: Elem, hops: Hops)
    decreases hops, 0
  {
    hops.Hop? ==>
      && Once(e, hops.path) && OnceHops(e, hops.tail)
      && (e in Elems(hops.path) ==> e !in SortElems(hops.tail, false) + SortElems(hops.tail, true))
  }

  lemma {:induction false} OneSort(e: Elem, hops: Hops)
    requires OnceHops(e, hops)
    ensures !(e in SortElems(hops, false) && e in SortElems(hops, true))
  {
    if hops.Hop? {
      OneSort(e, hops.tail);
    }
  }

  // ----- the answers of pipes elsewhere do not matter

  ghost predicate Agree(a: Answers, b: Answers, es: set<Elem>) {
    forall e, x :: e in es ==> a(e, x) == b(e, x)
  }

  lemma {:induction false} SameSure(a: Answers, b: Answers, p: Path)
    requires Agree(a, b, Elems(p))
    ensures Sure(a, p) == Sure(b, p)
  {
    if !p.End? {
      SameSure(a, b, p.rest);
    }
  }

  lemma {:induction false} SameTaken(a: Answers, b: Answers, hops: Hops)
    requires Agree(a, b, SortElems(hops, false))
    ensures SureTaken(a, hops) == SureTaken(b, hops)
  {
    if hops.Hop? {
      SameTaken(a, b, hops.tail);
      if !hops.mark.fallback {
        SameSure(a, b, hops.path);
      }
    }
  }

  lemma {:induction false} SameIdle(a: Answers, b: Answers, g: Drivers, p: Path)
    requires Agree(a, b, Elems(p))
    ensures Idle(a, g, p) == Idle(b, g, p)
    decreases p, 0
  {
    if !p.End? {
      SameIdle(a, b, g, p.rest);
      if p.Mpx? {
        SameTaken(a, b, p.hops);
        SameSort(a, b, g, p.hops, false);
        SameSort(a, b, g, p.hops, true);
      }
    }
  }

  lemma {:induction false} SameSort(a: Answers, b: Answers, g: Drivers, hops: Hops, fallback: bool)
    requires Agree(a, b, SortElems(hops, fallback))
    ensures SortIdle(a, g, hops, fallback) == SortIdle(b, g, hops, fallback)
    decreases hops, 0
  {
    if hops.Hop? {
      SameSort(a, b, g, hops.tail, fallback);
      if hops.mark.fallback == fallback {
        SameIdle(a, b, g, hops.path);
        SameSure(a, b, hops.path);
      }
    }
  }

  lemma {:induction false} SameExits(a: Answers, b: Answers, g: Drivers, p: Path, ref: bool)
    requires Agree(a, b, Elems(p))
    ensures Exits(a, g, p, ref) == Exits(b, g, p, ref)
    decreases p, 0
  {
    match p
    case End =>
    case Proc(e, rest) => SameExits(a, b, g, rest, ref);
    case Group(d, rest) => SameExits(a, b, g, rest, ref || g(d) > 0);
    case Mpx(hops, rest) =>
      SameHopsExits(a, b, g, hops, rest.End?, ref);
      SameExits(a, b, g, rest, false);
      SameExits(a, b, g, rest, true);
      forall h | h in HopsExits(a, g, hops, rest.End?, ref)
        ensures Exits(a, g, rest, h.ref) == Exits(b, g, rest, h.ref)
      {
      }
  }

  lemma {:induction false} SamePass(a: Answers, b: Answers, g: Drivers, hops: Hops, r: Round, delivered: bool,
                                    ref: bool)
    requires Agree(a, b, SortElems(hops, r.fallback))
    ensures PassExits(a, g, hops, r, delivered, ref) == PassExits(b, g, hops, r, delivered, ref)
    decreases hops, 0
  {
    if hops.Hop? {
      if hops.mark.fallback != r.fallback {
        SamePass(a, b, g, hops.tail, r, delivered, ref);
      } else {
        SameExits(a, b, g, hops.path, ref);
        SameExits(a, b, g, hops.path, false);
        var xs := HopExits(a, g, hops.path, hops.mark, Last(r, hops.tail, delivered), ref);
        assert HopExits(b, g, hops.path, hops.mark, Last(r, hops.tail, delivered), ref) == xs;
        forall x | x in xs
          ensures PassExits(a, g, hops.tail, r, delivered || x.ok, x.ref) ==
                    PassExits(b, g, hops.tail, r, delivered || x.ok, x.ref)
        {
          SamePass(a, b, g, hops.tail, r, delivered || x.ok, x.ref);
        }
      }
    }
  }

  /** How a pass can end does not depend on `quiet`. */
  lemma {:induction false} QuietExits(can: Answers, g: Drivers, hops: Hops, r: Round, s: Round, delivered: bool,
                                      ref: bool)
    requires s == r.(quiet := s.quiet)
    ensures PassExits(can, g, hops, r, delivered, ref) == PassExits(can, g, hops, s, delivered, ref)
    decreases hops
  {
    if hops.Hop? {
      if hops.mark.fallback != r.fallback {
        QuietExits(can, g, hops.tail, r, s, delivered, ref);
      } else {
        forall x | x in HopExits(can, g, hops.path, hops.mark, Last(r, hops.tail, delivered), ref)
          ensures PassExits(can, g, hops.tail, r, delivered || x.ok, x.ref) ==
                    PassExits(can, g, hops.tail, s, delivered || x.ok, x.ref)
        {
          QuietExits(can, g, hops.tail, r, s, delivered || x.ok, x.ref);
        }
      }
    }
  }

  lemma {:induction false} SameHopsExits(a: Answers, b: Answers, g: Drivers, hops: Hops, end: bool, ref: bool)
    requires Agree(a, b, SortElems(hops, false) + SortElems(hops, true))
    ensures HopsExits(a, g, hops, end, ref) == HopsExits(b, g, hops, end, ref)
    decreases hops, 1
  {
    var ra, rb, s := FirstRound(a, g, hops, end), FirstRound(b, g, hops, end), SecondRound(hops, end);
    SamePass(a, b, g, hops, ra, false, ref);
    QuietExits(b, g, hops, ra, rb, false, ref);
    forall x | x in PassExits(a, g, hops, ra, false, ref)
      ensures PassExits(a, g, hops, s, false, x.ref) == PassExits(b, g, hops, s, false, x.ref)
    {
      SamePass(a, b, g, hops, s, false, x.ref);
    }
  }

  lemma {:induction false} SameFine(a: Answers, b: Answers, g: Drivers, p: Path, ref: bool)
    requires Agree(a, b, Elems(p))
    ensures Fine(a, g, p, ref) == Fine(b, g, p, ref)
    decreases p, 0
  {
    match p
    case End =>
    case Proc(e, rest) => SameFine(a, b, g, rest, ref);
    case Group(d, rest) => SameFine(a, b, g, rest, ref || g(d) > 0);
    case Mpx(hops, rest) =>
      SameHopsFine(a, b, g, hops, rest.End?, ref);
      SameHopsExits(a, b, g, hops, rest.End?, ref);
      SameFine(a, b, g, rest, false);
      SameFine(a, b, g, rest, true);
  }

  lemma {:induction false} SamePassFine(a: Answers, b: Answers, g: Drivers, hops: Hops, r: Round, delivered: bool,
                                        ref: bool)
    requires Agree(a, b, SortElems(hops, r.fallback)) && (r.fallback ==> Settled(r, false))
    ensures PassFine(a, g, hops, r, delivered, ref) == PassFine(b, g, hops, r, delivered, ref)
    decreases hops, 0
  {
    if hops.Hop? {
      if hops.mark.fallback != r.fallback {
        SamePassFine(a, b, g, hops.tail, r, delivered, ref);
      } else {
        var last := Last(r, hops.tail, delivered);
        SameFine(a, b, g, hops.path, !Clones(hops.mark, last, ref) && ref);
        SameExits(a, b, g, hops.path, ref);
        SameExits(a, b, g, hops.path, false);
        assert HopExits(a, g, hops.path, hops.mark, last, ref) == HopExits(b, g, hops.path, hops.mark, last, ref);
        SameSort(a, b, g, hops.tail, r.fallback);
        if !r.fallback {
          SameTaken(a, b, hops.tail);
        }
        forall x | x in HopExits(a, g, hops.path, hops.mark, last, ref)
          ensures PassFine(a, g, hops.tail, r, delivered || x.ok, x.ref) ==
                    PassFine(b, g, hops.tail, r, delivered || x.ok, x.ref)
          ensures Unnoticed(a, g, hops.tail, r, delivered || x.ok) == Unnoticed(b, g, hops.tail, r, delivered || x.ok)
        {
          SamePassFine(a, b, g, hops.tail, r, delivered || x.ok, x.ref);
        }
      }
    }
  }

  lemma {:induction false} SameHopsFine(a: Answers, b: Answers, g: Drivers, hops: Hops, end: bool, ref: bool)
    requires Agree(a, b, SortElems(hops, false) + SortElems(hops, true))
    ensures HopsFine(a, g, hops, end, ref) == HopsFine(b, g, hops, end, ref)
    decreases hops, 1
  {
    SameSort(a, b, g, hops, true);
    var r, s := FirstRound(a, g, hops, end), SecondRound(hops, end);
    SamePassFine(a, b, g, hops, r, false, ref);
    SamePass(a, b, g, hops, r, false, ref);
    forall x | x in PassExits(a, g, hops, r, false, ref)
      ensures PassFine(a, g, hops, s, false, x.ref) == PassFine(b, g, hops, s, false, x.ref)
    {
      SamePassFine(a, b, g, hops, s, false, x.ref);
    }
  }

  // ----- one pipe with both answers

  /** Pipe `e` only answers `b`. */
  function Narrow(can: Answers, e: Elem, b: bool): Answers {
    (x: Elem, a: bool) => if x == e then a == b else can(x, a)
  }

  predicate Open(can: Answers, e: Elem) { can(e, true) && can(e, false) }

  lemma Elsewhere(can: Answers, e: Elem, es: set<Elem>)
    requires e !in es
    ensures Agree(can, Narrow(can, e, true), es) && Agree(can, Narrow(can, e, false), es)
  {
  }

  lemma {:induction false} SplitSure(can: Answers, e: Elem, p: Path)
    requires Sure(Narrow(can, e, true), p) && Sure(Narrow(can, e, false), p)
    ensures Sure(can, p)
  {
    if !p.End? {
      SplitSure(can, e, p.rest);
    }
  }

  lemma {:induction false} SplitTaken(can: Answers, e: Elem, hops: Hops)
    requires OnceHops(e, hops) && SureTaken(Narrow(can, e, true), hops) && SureTaken(Narrow(can, e, false), hops)
    ensures SureTaken(can, hops)
  {
    hide Sure, Elems, SortElems, Once;
    var t, f := Narrow(can, e, true), Narrow(can, e, false);
    if e in Elems(hops.path) {
      Elsewhere(can, e, SortElems(hops.tail, false));
      SameTaken(can, t, hops.tail);
      SameTaken(can, f, hops.tail);
      if !hops.mark.fallback && Sure(t, hops.path) && Sure(f, hops.path) {
        SplitSure(can, e, hops.path);
      }
    } else {
      Elsewhere(can, e, Elems(hops.path));
      SameSure(can, t, hops.path);
      SameSure(can, f, hops.path);
      if SureTaken(t, hops.tail) && SureTaken(f, hops.tail) {
        SplitTaken(can, e, hops.tail);
      }
    }
  }

  lemma {:induction false} SplitIdle(can: Answers, e: Elem, g: Drivers, p: Path)
    requires Once(e, p) && Idle(Narrow(can, e, true), g, p) && Idle(Narrow(can, e, false), g, p)
    ensures Idle(can, g, p)
    decreases p, 0
  {
    var t, f := Narrow(can, e, true), Narrow(can, e, false);
    match p
    case End =>
    case Proc(x, rest) =>
      if x == e {
        Elsewhere(can, e, Elems(rest));
        SameIdle(can, t, g, rest);
      } else if can(x, true) {
        SplitIdle(can, e, g, rest);
      }
    case Group(_, rest) => SplitIdle(can, e, g, rest);
    case Mpx(hops, rest) =>
      SplitIdle(can, e, g, rest);
      SplitHopsIdle(can, e, g, hops);
  }

  lemma {:induction false} SplitHopsIdle(can: Answers, e: Elem, g: Drivers, hops: Hops)
    requires OnceHops(e, hops)
    requires var t := Narrow(can, e, true);
             SortIdle(t, g, hops, false) && (MayFall(t, hops) ==> SortIdle(t, g, hops, true))
    requires var f := Narrow(can, e, false);
             SortIdle(f, g, hops, false) && (MayFall(f, hops) ==> SortIdle(f, g, hops, true))
    ensures SortIdle(can, g, hops, false) && (MayFall(can, hops) ==> SortIdle(can, g, hops, true))
    decreases hops, 1
  {
    hide SortIdle, SureTaken, SortElems;
    var t, f := Narrow(can, e, true), Narrow(can, e, false);
    SplitSort(can, e, g, hops, false);
    OneSort(e, hops);
    if e in SortElems(hops, true) {
      Elsewhere(can, e, SortElems(hops, false));
      SameTaken(can, t, hops);
      SameTaken(can, f, hops);
      if MayFall(can, hops) {
        SplitSort(can, e, g, hops, true);
      }
    } else {
      Elsewhere(can, e, SortElems(hops, true));
      SameSort(can, t, g, hops, true);
      SameSort(can, f, g, hops, true);
      if SureTaken(t, hops) && SureTaken(f, hops) {
        SplitTaken(can, e, hops);
      }
    }
  }

  lemma {:induction false} SplitSort(can: Answers, e: Elem, g: Drivers, hops: Hops, fallback: bool)
    requires OnceHops(e, hops) && SortIdle(Narrow(can, e, true), g, hops, fallback)
             && SortIdle(Narrow(can, e, false), g, hops, fallback)
    ensures SortIdle(can, g, hops, fallback)
    decreases hops, 0
  {
    if hops.Hop? {
      hide Idle, Sure, Elems, SortElems, Once;
      var t, f := Narrow(can, e, true), Narrow(can, e, false);
      if hops.mark.fallback != fallback {
        SplitSort(can, e, g, hops.tail, fallback);
      } else {
        SplitIdle(can, e, g, hops.path);
        if e in Elems(hops.path) {
          Elsewhere(can, e, SortElems(hops.tail, fallback));
          SameSort(can, t, g, hops.tail, fallback);
          SameSort(can, f, g, hops.tail, fallback);
          if Sure(t, hops.path) && Sure(f, hops.path) {
            SplitSure(can, e, hops.path);
          }
        } else {
          Elsewhere(can, e, Elems(hops.path));
          SameSure(can, t, hops.path);
          SameSure(can, f, hops.path);
          if !Stops(can, hops.path, hops.mark) {
            SplitSort(can, e, g, hops.tail, fallback);
          }
        }
      }
    }
  }

  // ways out are put together and taken apart

  lemma IntoMpx(can: Answers, g: Drivers, p: Path, ref: bool, h: Exit, y: Exit)
    requires p.Mpx? && h in HopsExits(can, g, p.hops, p.rest.End?, ref) && y in Exits(can, g, p.rest, h.ref)
    ensures y.After(h.dirty) in Exits(can, g, p, ref)
  {
    hide HopsExits;
  }

  lemma MpxVia(can: Answers, g: Drivers, p: Path, ref: bool, x: Exit) returns (h: Exit, y: Exit)
    requires p.Mpx? && x in Exits(can, g, p, ref)
    ensures h in HopsExits(can, g, p.hops, p.rest.End?, ref) && y in Exits(can, g, p.rest, h.ref)
            && x == y.After(h.dirty)
  {
    hide HopsExits;
    h, y :| h in HopsExits(can, g, p.hops, p.rest.End?, ref) && y in Exits(can, g, p.rest, h.ref)
        && x == y.After(h.dirty);
  }

  lemma IntoPass(can: Answers, g: Drivers, hops: Hops, r: Round, delivered: bool, ref: bool, z: Exit, y: Exit)
    requires hops.Hop? && hops.mark.fallback == r.fallback && !(z.ok && hops.mark.final)
    requires z in HopExits(can, g, hops.path, hops.mark, Last(r, hops.tail, delivered), ref)
    requires y in PassExits(can, g, hops.tail, r, delivered || z.ok, z.ref)
    ensures y.After(z.dirty) in PassExits(can, g, hops, r, delivered, ref)
  {
    hide HopExits;
  }

  lemma IntoStop(can: Answers, g: Drivers, hops: Hops, r: Round, delivered: bool, ref: bool, z: Exit)
    requires hops.Hop? && hops.mark.fallback == r.fallback && z.ok && hops.mark.final
    requires z in HopExits(can, g, hops.path, hops.mark, Last(r, hops.tail, delivered), ref)
    ensures z in PassExits(can, g, hops, r, delivered, ref)
  {
    hide HopExits;
  }

  lemma PassVia(can: Answers, g: Drivers, hops: Hops, r: Round, delivered: bool, ref: bool, x: Exit)
      returns (z: Exit, y: Exit)
    requires hops.Hop? && hops.mark.fallback == r.fallback && x in PassExits(can, g, hops, r, delivered, ref)
    requires var xs := HopExits(can, g, hops.path, hops.mark, Last(r, hops.tail, delivered), ref);
             !(x in xs && x.ok && hops.mark.final)
    ensures z in HopExits(can, g, hops.path, hops.mark, Last(r, hops.tail, delivered), ref)
            && !(z.ok && hops.mark.final)
    ensures y in PassExits(can, g, hops.tail, r, delivered || z.ok, z.ref) && x == y.After(z.dirty)
  {
    hide HopExits;
    var xs := HopExits(can, g, hops.path, hops.mark, Last(r, hops.tail, delivered), ref);
    z, y :| && z in xs && !(z.ok && hops.mark.final)
            && y in PassExits(can, g, hops.tail, r, delivered || z.ok, z.ref) && x == y.After(z.dirty);
  }

  lemma HopsVia(can: Answers, g: Drivers, hops: Hops, end: bool, ref: bool, x: Exit) returns (z: Exit, y: Exit)
    requires x in HopsExits(can, g, hops, end, ref)
             && x !in PassExits(can, g, hops, FirstRound(can, g, hops, end), false, ref)
    ensures z in PassExits(can, g, hops, FirstRound(can, g, hops, end), false, ref) && !z.ok && FallbackExists(hops)
    ensures y in PassExits(can, g, hops, SecondRound(hops, end), false, z.ref) && x == y.After(z.dirty)
  {
    hide PassExits;
    z, y :| && z in PassExits(can, g, hops, FirstRound(can, g, hops, end), false, ref) && !z.ok && FallbackExists(hops)
            && y in PassExits(can, g, hops, SecondRound(hops, end), false, z.ref) && x == y.After(z.dirty);
  }

  lemma IntoSecond(can: Answers, g: Drivers, hops: Hops, end: bool, ref: bool, r: Round, z: Exit, y: Exit)
    requires r == FirstRound(can, g, hops, end).(quiet := r.quiet) && FallbackExists(hops) && !z.ok
    requires z in PassExits(can, g, hops, r, false, ref)
             && y in PassExits(can, g, hops, SecondRound(hops, end), false, z.ref)
    ensures y.After(z.dirty) in HopsExits(can, g, hops, end, ref)
  {
    hide PassExits;
    QuietExits(can, g, hops, r, FirstRound(can, g, hops, end), false, ref);
  }

  lemma IntoFirst(can: Answers, g: Drivers, hops: Hops, end: bool, ref: bool, r: Round, z: Exit)
    requires r == FirstRound(can, g, hops, end).(quiet := r.quiet) && (FallbackExists(hops) ==> z.ok)
    requires z in PassExits(can, g, hops, r, false, ref)
    ensures z in HopsExits(can, g, hops, end, ref)
  {
    hide PassExits;
    QuietExits(can, g, hops, r, FirstRound(can, g, hops, end), false, ref);
  }

  /** Every way out is one with one of the two answers. */
  lemma {:induction false} SplitExits(can: Answers, e: Elem, g: Drivers, p: Path, ref: bool, x: Exit)
    requires Open(can, e) && Once(e, p) && x in Exits(can, g, p, ref)
    ensures x in Exits(Narrow(can, e, true), g, p, ref) || x in Exits(Narrow(can, e, false), g, p, ref)
    decreases p, 1
  {
    hide HopsExits;
    match p
    case End =>
    case Proc(y, rest) =>
      if y == e {
        Elsewhere(can, e, Elems(rest));
        SameExits(can, Narrow(can, e, true), g, rest, ref);
      } else if x != Exit(false, ref, y.writes) || !can(y, false) {
        var z :| z in Exits(can, g, rest, ref) && x == z.After(y.writes);
        SplitExits(can, e, g, rest, ref, z);
      }
    case Group(d, rest) => SplitExits(can, e, g, rest, ref || g(d) > 0, x);
    case Mpx(_, _) => SplitMpx(can, e, g, p, ref, x);
  }

  lemma {:induction false} SplitMpx(can: Answers, e: Elem, g: Drivers, p: Path, ref: bool, x: Exit)
    requires Open(can, e) && Once(e, p) && x in Exits(can, g, p, ref) && p.Mpx?
    ensures x in Exits(Narrow(can, e, true), g, p, ref) || x in Exits(Narrow(can, e, false), g, p, ref)
    decreases p, 0
  {
    hide Exits, HopsExits, Elems, SortElems;
    var t, f := Narrow(can, e, true), Narrow(can, e, false);
    var hops, rest := p.hops, p.rest;
    var h, y := MpxVia(can, g, p, ref, x);
    if e in Elems(rest) {
      Elsewhere(can, e, SortElems(hops, false) + SortElems(hops, true));
      SameHopsExits(can, t, g, hops, rest.End?, ref);
      SameHopsExits(can, f, g, hops, rest.End?, ref);
      SplitExits(can, e, g, rest, h.ref, y);
    } else {
      Elsewhere(can, e, Elems(rest));
      SameExits(can, t, g, rest, h.ref);
      SameExits(can, f, g, rest, h.ref);
      SplitHopsExits(can, e, g, hops, rest.End?, ref, h);
    }
    if h in HopsExits(t, g, hops, rest.End?, ref) && y in Exits(t, g, rest, h.ref) {
      IntoMpx(t, g, p, ref, h, y);
    } else {
      IntoMpx(f, g, p, ref, h, y);
    }
  }

  lemma {:induction false} SplitHopExits(can: Answers, e: Elem, g: Drivers, p: Path, mark: Mark, last: bool, ref: bool,
                                         x: Exit)
    requires Open(can, e) && Once(e, p) && x in HopExits(can, g, p, mark, last, ref)
    ensures x in HopExits(Narrow(can, e, true), g, p, mark, last, ref)
            || x in HopExits(Narrow(can, e, false), g, p, mark, last, ref)
    decreases p, 2
  {
    hide Exits;
    if Clones(mark, last, ref) {
      var z :| z in Exits(can, g, p, false) && x == Exit(z.ok, true, false);
      SplitExits(can, e, g, p, false, z);
    } else {
      SplitExits(can, e, g, p, ref, x);
    }
  }

  lemma SameHop(a: Answers, b: Answers, g: Drivers, p: Path, mark: Mark, last: bool, ref: bool)
    requires Agree(a, b, Elems(p))
    ensures HopExits(a, g, p, mark, last, ref) == HopExits(b, g, p, mark, last, ref)
  {
    hide Exits;
    SameExits(a, b, g, p, ref);
    SameExits(a, b, g, p, false);
  }

  lemma {:induction false} SplitPass(can: Answers, e: Elem, g: Drivers, hops: Hops, r: Round, delivered: bool,
                                     ref: bool, x: Exit)
    requires Open(can, e) && OnceHops(e, hops) && x in PassExits(can, g, hops, r, delivered, ref)
    ensures x in PassExits(Narrow(can, e, true), g, hops, r, delivered, ref) ||
            x in PassExits(Narrow(can, e, false), g, hops, r, delivered, ref)
    decreases hops, 1
  {
    hide HopExits, Elems, SortElems, Once;
    if hops.Hop? {
      if hops.mark.fallback != r.fallback {
        SplitPass(can, e, g, hops.tail, r, delivered, ref, x);
      } else {
        SplitFirstHop(can, e, g, hops, r, delivered, ref, x);
      }
    }
  }

  lemma {:induction false} SplitFirstHop(can: Answers, e: Elem, g: Drivers, hops: Hops, r: Round, delivered: bool,
                                         ref: bool, x: Exit)
    requires Open(can, e) && OnceHops(e, hops) && x in PassExits(can, g, hops, r, delivered, ref)
    requires hops.Hop? && hops.mark.fallback == r.fallback
    ensures x in PassExits(Narrow(can, e, true), g, hops, r, delivered, ref) ||
            x in PassExits(Narrow(can, e, false), g, hops, r, delivered, ref)
    decreases hops, 0
  {
    hide HopExits, PassExits, Elems, SortElems, Once;
    var t, f := Narrow(can, e, true), Narrow(can, e, false);
    var path, mark, tail := hops.path, hops.mark, hops.tail;
    var last := Last(r, tail, delivered);
    if x in HopExits(can, g, path, mark, last, ref) && x.ok && mark.final {
      SplitHopExits(can, e, g, path, mark, last, ref, x);
      if x in HopExits(t, g, path, mark, last, ref) {
        IntoStop(t, g, hops, r, delivered, ref, x);
      } else {
        IntoStop(f, g, hops, r, delivered, ref, x);
      }
    } else {
      var z, y := PassVia(can, g, hops, r, delivered, ref, x);
      if e in Elems(path) {
        Elsewhere(can, e, SortElems(tail, r.fallback));
        SplitHopExits(can, e, g, path, mark, last, ref, z);
        SamePass(can, t, g, tail, r, delivered || z.ok, z.ref);
        SamePass(can, f, g, tail, r, delivered || z.ok, z.ref);
      } else {
        Elsewhere(can, e, Elems(path));
        SameHop(can, t, g, path, mark, last, ref);
        SameHop(can, f, g, path, mark, last, ref);
        SplitPass(can, e, g, tail, r, delivered || z.ok, z.ref, y);
      }
      if z in HopExits(t, g, path, mark, last, ref) && y in PassExits(t, g, tail, r, delivered || z.ok, z.ref) {
        IntoPass(t, g, hops, r, delivered, ref, z, y);
      } else {
        IntoPass(f, g, hops, r, delivered, ref, z, y);
      }
    }
  }

  lemma {:induction false} SplitHopsExits(can: Answers, e: Elem, g: Drivers, hops: Hops, end: bool, ref: bool, x: Exit)
    requires Open(can, e) && OnceHops(e, hops) && x in HopsExits(can, g, hops, end, ref)
    ensures x in HopsExits(Narrow(can, e, true), g, hops, end, ref)
            || x in HopsExits(Narrow(can, e, false), g, hops, end, ref)
    decreases hops, 3
  {
    hide PassExits, SortIdle, SortElems;
    var t, f := Narrow(can, e, true), Narrow(can, e, false);
    var r, fx := FirstRound(can, g, hops, end), FallbackExists(hops);
    if x in PassExits(can, g, hops, r, false, ref) && (x.ok || !fx) {
      SplitPass(can, e, g, hops, r, false, ref, x);
      if x in PassExits(t, g, hops, r, false, ref) {
        IntoFirst(t, g, hops, end, ref, r, x);
      } else {
        IntoFirst(f, g, hops, end, ref, r, x);
      }
    } else {
      var z, y :| && z in PassExits(can, g, hops, r, false, ref) && !z.ok && fx
                  && y in PassExits(can, g, hops, SecondRound(hops, end), false, z.ref) && x == y.After(z.dirty);
      SplitSecond(can, e, g, hops, end, ref, z, y);
    }
  }

  lemma {:induction false} SplitSecond(can: Answers, e: Elem, g: Drivers, hops: Hops, end: bool, ref: bool, z: Exit,
                                       y: Exit)
    requires Open(can, e) && OnceHops(e, hops) && FallbackExists(hops) && !z.ok
    requires z in PassExits(can, g, hops, FirstRound(can, g, hops, end), false, ref)
    requires y in PassExits(can, g, hops, SecondRound(hops, end), false, z.ref)
    ensures var x := y.After(z.dirty);
            x in HopsExits(Narrow(can, e, true), g, hops, end, ref)
                || x in HopsExits(Narrow(can, e, false), g, hops, end, ref)
    decreases hops, 2
  {
    hide PassExits, HopsExits, SortIdle, SortElems;
    var t, f := Narrow(can, e, true), Narrow(can, e, false);
    var r, s := FirstRound(can, g, hops, end), SecondRound(hops, end);
    OneSort(e, hops);
    if e in SortElems(hops, false) {
      SplitPass(can, e, g, hops, r, false, ref, z);
      Elsewhere(can, e, SortElems(hops, true));
      SamePass(can, t, g, hops, s, false, z.ref);
      SamePass(can, f, g, hops, s, false, z.ref);
    } else {
      Elsewhere(can, e, SortElems(hops, false));
      SamePass(can, t, g, hops, r, false, ref);
      SamePass(can, f, g, hops, r, false, ref);
      SplitPass(can, e, g, hops, s, false, z.ref, y);
    }
    if z in PassExits(t, g, hops, r, false, ref) && y in PassExits(t, g, hops, s, false, z.ref) {
      IntoSecond(t, g, hops, end, ref, r, z, y);
    } else {
      IntoSecond(f, g, hops, end, ref, r, z, y);
    }
  }

  // ----- fine with either answer is fine

  lemma {:induction false} SplitFine(can: Answers, e: Elem, g: Drivers, p: Path, ref: bool)
    requires Open(can, e) && Once(e, p) && Fine(Narrow(can, e, true), g, p, ref)
             && Fine(Narrow(can, e, false), g, p, ref)
    ensures Fine(can, g, p, ref)
    decreases p, 0
  {
    var t, f := Narrow(can, e, true), Narrow(can, e, false);
    match p
    case End =>
    case Proc(x, rest) =>
      if x == e {
        Elsewhere(can, e, Elems(rest));
        SameFine(can, t, g, rest, ref);
      } else if can(x, true) {
        SplitFine(can, e, g, rest, ref);
      }
    case Group(d, rest) => SplitFine(can, e, g, rest, ref || g(d) > 0);
    case Mpx(hops, rest) =>
      SplitHopsFine(can, e, g, hops, rest.End?, ref);
      forall h | h in HopsExits(can, g, hops, rest.End?, ref)
        ensures (h.dirty ==> rest.End?) && Fine(can, g, rest, h.ref)
      {
        SplitHopsExits(can, e, g, hops, rest.End?, ref, h);
        if e in Elems(rest) {
          Elsewhere(can, e, SortElems(hops, false) + SortElems(hops, true));
          SameHopsExits(can, t, g, hops, rest.End?, ref);
          SameHopsExits(can, f, g, hops, rest.End?, ref);
          SplitFine(can, e, g, rest, h.ref);
        } else {
          Elsewhere(can, e, Elems(rest));
          SameFine(can, t, g, rest, h.ref);
          SameFine(can, f, g, rest, h.ref);
        }
      }
  }

  lemma {:induction false} SplitPassFine(can: Answers, e: Elem, g: Drivers, hops: Hops, r: Round, delivered: bool,
                                         ref: bool)
    requires Open(can, e) && OnceHops(e, hops) && (r.fallback ==> Settled(r, false))
    requires PassFine(Narrow(can, e, true), g, hops, r, delivered, ref)
             && PassFine(Narrow(can, e, false), g, hops, r, delivered, ref)
    ensures PassFine(can, g, hops, r, delivered, ref)
    decreases hops, 0
  {
    if hops.Hop? {
      hide HopExits, Elems, SortElems, Once, Fine, Unnoticed;
      if hops.mark.fallback != r.fallback {
        SplitPassFine(can, e, g, hops.tail, r, delivered, ref);
      } else {
        var last := Last(r, hops.tail, delivered);
        SplitFine(can, e, g, hops.path, !Clones(hops.mark, last, ref) && ref);
        forall x | x in HopExits(can, g, hops.path, hops.mark, last, ref) && !(x.ok && hops.mark.final)
          ensures PassFine(can, g, hops.tail, r, delivered || x.ok, x.ref)
          ensures x.dirty ==> Unnoticed(can, g, hops.tail, r, delivered || x.ok)
        {
          SplitAfter(can, e, g, hops, r, delivered, ref, x);
        }
      }
    }
  }

  lemma FineAfter(can: Answers, g: Drivers, hops: Hops, r: Round, delivered: bool, ref: bool, x: Exit)
    requires hops.Hop? && hops.mark.fallback == r.fallback && PassFine(can, g, hops, r, delivered, ref)
    requires x in HopExits(can, g, hops.path, hops.mark, Last(r, hops.tail, delivered), ref)
             && !(x.ok && hops.mark.final)
    ensures PassFine(can, g, hops.tail, r, delivered || x.ok, x.ref)
    ensures x.dirty ==> Unnoticed(can, g, hops.tail, r, delivered || x.ok)
  {
    hide HopExits, Fine, Unnoticed;
  }

  lemma {:induction false} SplitAfter(can: Answers, e: Elem, g: Drivers, hops: Hops, r: Round, delivered: bool,
                                      ref: bool, x: Exit)
    requires Open(can, e) && OnceHops(e, hops) && (r.fallback ==> Settled(r, false)) && hops.Hop?
             && hops.mark.fallback == r.fallback
    requires PassFine(Narrow(can, e, true), g, hops, r, delivered, ref)
             && PassFine(Narrow(can, e, false), g, hops, r, delivered, ref)
    requires x in HopExits(can, g, hops.path, hops.mark, Last(r, hops.tail, delivered), ref)
             && !(x.ok && hops.mark.final)
    ensures PassFine(can, g, hops.tail, r, delivered || x.ok, x.ref)
    ensures x.dirty ==> Unnoticed(can, g, hops.tail, r, delivered || x.ok)
    decreases hops.tail, 1
  {
    hide HopExits, Elems, SortElems, Once, SortIdle, SureTaken, PassFine;
    var t, f := Narrow(can, e, true), Narrow(can, e, false);
    var path, mark, tail := hops.path, hops.mark, hops.tail;
    var last := Last(r, tail, delivered);
    if e in Elems(path) {
      SplitHopExits(can, e, g, path, mark, last, ref, x);
      var side := if x in HopExits(t, g, path, mark, last, ref) then t else f;
      FineAfter(side, g, hops, r, delivered, ref, x);
      Elsewhere(can, e, SortElems(tail, r.fallback));
      SamePassFine(can, side, g, tail, r, delivered || x.ok, x.ref);
      SameSort(can, side, g, tail, r.fallback);
      if !r.fallback {
        SameTaken(can, side, tail);
      }
    } else {
      Elsewhere(can, e, Elems(path));
      SameHop(can, t, g, path, mark, last, ref);
      SameHop(can, f, g, path, mark, last, ref);
      FineAfter(t, g, hops, r, delivered, ref, x);
      FineAfter(f, g, hops, r, delivered, ref, x);
      SplitPassFine(can, e, g, tail, r, delivered || x.ok, x.ref);
      if x.dirty {
        SplitSort(can, e, g, tail, r.fallback);
        if SureTaken(t, tail) && SureTaken(f, tail) {
          SplitTaken(can, e, tail);
        }
      }
    }
  }

  lemma {:induction false} QuietFine(can: Answers, g: Drivers, hops: Hops, r: Round, delivered: bool, ref: bool)
    requires PassFine(can, g, hops, r, delivered, ref)
    ensures PassFine(can, g, hops, r.(quiet := true), delivered, ref)
    decreases hops
  {
    if hops.Hop? {
      hide HopExits, Fine, SortIdle, SureTaken;
      var s := r.(quiet := true);
      if hops.mark.fallback != r.fallback {
        QuietFine(can, g, hops.tail, r, delivered, ref);
      } else {
        forall x | x in HopExits(can, g, hops.path, hops.mark, Last(r, hops.tail, delivered), ref)
            && !(x.ok && hops.mark.final)
          ensures PassFine(can, g, hops.tail, s, delivered || x.ok, x.ref)
        {
          QuietFine(can, g, hops.tail, r, delivered || x.ok, x.ref);
        }
      }
    }
  }

  /** The first pass, whose `quiet` may depend on the answer. */
  lemma {:induction false} SplitFirst(can: Answers, e: Elem, g: Drivers, hops: Hops, end: bool, ref: bool)
    requires Open(can, e) && OnceHops(e, hops)
    requires PassFine(Narrow(can, e, true), g, hops, FirstRound(Narrow(can, e, true), g, hops, end), false, ref)
    requires PassFine(Narrow(can, e, false), g, hops, FirstRound(Narrow(can, e, false), g, hops, end), false, ref)
    ensures PassFine(can, g, hops, FirstRound(can, g, hops, end), false, ref)
    decreases hops, 1
  {
    hide PassFine, SortIdle, SortElems;
    var t, f := Narrow(can, e, true), Narrow(can, e, false);
    var r, rt, rf := FirstRound(can, g, hops, end), FirstRound(t, g, hops, end), FirstRound(f, g, hops, end);
    OneSort(e, hops);
    if e in SortElems(hops, true) {
      Elsewhere(can, e, SortElems(hops, false));
      if SortIdle(t, g, hops, true) && SortIdle(f, g, hops, true) {
        SplitSort(can, e, g, hops, true);
      }
      SamePassFine(can, t, g, hops, rt, false, ref);
      SamePassFine(can, f, g, hops, rf, false, ref);
      QuietFine(can, g, hops, rt, false, ref);
    } else {
      Elsewhere(can, e, SortElems(hops, true));
      SameSort(can, t, g, hops, true);
      SameSort(can, f, g, hops, true);
      SplitPassFine(can, e, g, hops, r, false, ref);
    }
  }

  lemma {:induction false} SplitHopsFine(can: Answers, e: Elem, g: Drivers, hops: Hops, end: bool, ref: bool)
    requires Open(can, e) && OnceHops(e, hops)
    requires HopsFine(Narrow(can, e, true), g, hops, end, ref) && HopsFine(Narrow(can, e, false), g, hops, end, ref)
    ensures HopsFine(can, g, hops, end, ref)
    decreases hops, 2
  {
    hide PassFine, PassExits, SortIdle, SortElems;
    var t, f := Narrow(can, e, true), Narrow(can, e, false);
    var r, s := FirstRound(can, g, hops, end), SecondRound(hops, end);
    SplitFirst(can, e, g, hops, end, ref);
    QuietExits(t, g, hops, r, FirstRound(t, g, hops, end), false, ref);
    QuietExits(f, g, hops, r, FirstRound(f, g, hops, end), false, ref);
    OneSort(e, hops);
    forall x | FallbackExists(hops) && x in PassExits(can, g, hops, r, false, ref) && !x.ok
      ensures PassFine(can, g, hops, s, false, x.ref)
    {
      if e in SortElems(hops, true) {
        Elsewhere(can, e, SortElems(hops, false));
        SamePass(can, t, g, hops, r, false, ref);
        SamePass(can, f, g, hops, r, false, ref);
        SplitPassFine(can, e, g, hops, s, false, x.ref);
      } else {
        SplitPass(can, e, g, hops, r, false, ref, x);
        Elsewhere(can, e, SortElems(hops, true));
        SamePassFine(can, t, g, hops, s, false, x.ref);
        SamePassFine(can, f, g, hops, s, false, x.ref);
      }
    }
  }

  // ----- every pipe decided

  /** Every pipe gives some answer. */
  ghost predicate Answered(can: Answers) { forall e: Elem :: can(e, true) || can(e, false) }

  /** Every pipe has one answer, whatever the message. */
  ghost predicate Decided(can: Answers) { forall e: Elem :: can(e, true) != can(e, false) }

  /** No pipe that may give either answer stands twice below these hops. */
  predicate SingleUse(can: Answers, hops: Hops) {
    forall e :: e in SortElems(hops, false) + SortElems(hops, true) && Open(can, e) ==> OnceHops(e, hops)
  }

  function Undecided(can: Answers, hops: Hops): set<Elem> {
    set e | e in SortElems(hops, false) + SortElems(hops, true) && Open(can, e)
  }

  /** Hops that are not fine are not fine with one answer of each pipe. */
  lemma {:induction false} Decide(can: Answers, g: Drivers, hops: Hops, end: bool, ref: bool) returns (d: Answers)
    requires Answered(can) && SingleUse(can, hops) && !HopsFine(can, g, hops, end, ref)
    ensures Decided(d) && !HopsFine(d, g, hops, end, ref) && forall e: Elem, b :: d(e, b) ==> can(e, b)
    decreases |Undecided(can, hops)|
  {
    hide HopsFine, SortElems, OnceHops;
    if e :| e in Undecided(can, hops) {
      var t, f := Narrow(can, e, true), Narrow(can, e, false);
      if HopsFine(t, g, hops, end, ref) && HopsFine(f, g, hops, end, ref) {
        SplitHopsFine(can, e, g, hops, end, ref);
      }
      var b := !HopsFine(t, g, hops, end, ref);
      assert Undecided(Narrow(can, e, b), hops) == Undecided(can, hops) - {e};
      d := Decide(Narrow(can, e, b), g, hops, end, ref);
    } else {
      d := (x: Elem, a: bool) => a == can(x, true);
      forall x | x in SortElems(hops, false) + SortElems(hops, true)
        ensures can(x, false) == !can(x, true)
      {
        assert x !in Undecided(can, hops);
      }
      SameHopsFine(can, d, g, hops, end, ref);
    }
  }
}
