/** What can be told from the compiled pipes alone about the message that several branches
    share: how a branch can leave it, and whether somebody would notice a change.

    Everything is relative to `can`, which tells the answers each processing pipe may give:
    accept (true), reject (false) or both. */
module Sharing {
  import opened LogTree

  type Answers = (Elem, bool) -> bool

  /** Pipes store only if they can, and give only answers they may give. */
  ghost predicate Obeys(sem: Meaning, can: Answers) {
    forall e: Elem, c: Content :: (e.writes || sem(e, c).edits == []) && can(e, sem(e, c).accept)
  }

  /** Every answer is possible. */
  const ANY: Answers := (e: Elem, b: bool) => true

  // ----- branches that reach no driver

  /** No pipe of the chain itself can reject the message, so the branch matches. */
  predicate Sure(can: Answers, p: Path) {
    match p
    case End => true
    case Proc(e, rest) => !can(e, false) && Sure(can, rest)
    case Group(_, rest) => Sure(can, rest)
    case Mpx(_, rest) => Sure(can, rest)
  }

  /** No hop of this sort after this one is visited. */
  predicate Stops(can: Answers, p: Path, mark: Mark) { mark.final && Sure(can, p) }

  /** Some hop that is no fallback matches for sure. */
  predicate SureTaken(can: Answers, hops: Hops) {
    hops.Hop? && ((!hops.mark.fallback && Sure(can, hops.path)) || SureTaken(can, hops.tail))
  }

  /** The fallback hops may be visited. */
  predicate MayFall(can: Answers, hops: Hops) { FallbackExists(hops) && !SureTaken(can, hops) }

  /** No driver is reached. */
  predicate Idle(can: Answers, g: Drivers, p: Path) {
    match p
    case End => true
    case Proc(e, rest) => !can(e, true) || Idle(can, g, rest)
    case Group(d, rest) => g(d) == 0 && Idle(can, g, rest)
    case Mpx(hops, rest) =>
      SortIdle(can, g, hops, false) && (MayFall(can, hops) ==> SortIdle(can, g, hops, true)) && Idle(can, g, rest)
  }

  /** No driver is reached from the fallback hops, or from the others. */
  predicate SortIdle(can: Answers, g: Drivers, hops: Hops, fallback: bool) {
    hops.Hop? ==>
      if hops.mark.fallback != fallback then SortIdle(can, g, hops.tail, fallback)
      else Idle(can, g, hops.path) && (Stops(can, hops.path, hops.mark) || SortIdle(can, g, hops.tail, fallback))
  }

  // ----- how a message can come out

  /** The message matched (or was delivered), is referenced, and may have been changed. */
  datatype Exit = Exit(ok: bool, ref: bool, dirty: bool) {
    function After(d: bool): Exit { this.(dirty := d || dirty) }
  }

  /** One pass over the hops of a multiplexer: over which of them, whether pipe_next is
      NULL, whether there are fallback hops, and whether the pass that may follow reaches
      no driver. */
  datatype Round = Round(fallback: bool, end: bool, fx: bool, quiet: bool)

  function FirstRound(can: Answers, g: Drivers, hops: Hops, end: bool): Round {
    Round(false, end, FallbackExists(hops), SortIdle(can, g, hops, true))
  }

  function SecondRound(hops: Hops, end: bool): Round { Round(true, end, FallbackExists(hops), true) }

  /** last_delivery for the hop before `tail` */
  predicate Last(a: Round, tail: Hops, delivered: bool) { a.end && tail.NoHops? && (!a.fx || delivered || a.fallback) }

  /** A hop marked for cloning gets the message itself only when it is the last one and
      nobody refers to the message. */
  predicate Clones(mark: Mark, last: bool, ref: bool) { mark.clone && (ref || !last) }

  /** All ways in which a chain can leave a message that is referenced or not. */
  function Exits(can: Answers, g: Drivers, p: Path, ref: bool): set<Exit>
    decreases p, 0
  {
    match p
    case End => {Exit(true, ref, false)}
    case Proc(e, rest) =>
      (if can(e, true) then (set x | x in Exits(can, g, rest, ref) :: x.After(e.writes)) else {})
      + (if can(e, false) then {Exit(false, ref, e.writes)} else {})
    case Group(d, rest) => Exits(can, g, rest, ref || g(d) > 0)
    case Mpx(hops, rest) =>
      set h, x | h in HopsExits(can, g, hops, rest.End?, ref) && x in Exits(can, g, rest, h.ref) :: x.After(h.dirty)
  }

  function HopExits(can: Answers, g: Drivers, p: Path, mark: Mark, last: bool, ref: bool): set<Exit>
    decreases p, 1
  {
    if Clones(mark, last, ref) then set x | x in Exits(can, g, p, false) :: Exit(x.ok, true, false)
    else Exits(can, g, p, ref)
  }

  /** `ok` of the exits is the multiplexer's `delivered`. */
  function PassExits(can: Answers, g: Drivers, hops: Hops, a: Round, delivered: bool, ref: bool): set<Exit>
    decreases hops, 0
  {
    match hops
    case NoHops => {Exit(delivered, ref, false)}
    case Hop(path, mark, tail) =>
      if mark.fallback != a.fallback then PassExits(can, g, tail, a, delivered, ref)
      else
        var xs := HopExits(can, g, path, mark, Last(a, tail, delivered), ref);
        (set x | x in xs && x.ok && mark.final)
        + (set x, y | x in xs && !(x.ok && mark.final) && y in PassExits(can, g, tail, a, delivered || x.ok, x.ref) ::
             y.After(x.dirty))
  }

  function HopsExits(can: Answers, g: Drivers, hops: Hops, end: bool, ref: bool): set<Exit>
    decreases hops, 1
  {
    var fx := FallbackExists(hops);
    var first := PassExits(can, g, hops, FirstRound(can, g, hops, end), false, ref);
    (set x | x in first && (x.ok || !fx))
    + (set x, y | x in first && !x.ok && fx && y in PassExits(can, g, hops, SecondRound(hops, end), false, x.ref) ::
         y.After(x.dirty))
  }

  // ----- would somebody notice?

  /** Whatever the second pass finds, it makes no difference. */
  predicate Settled(a: Round, ok: bool) { a.fallback || !a.fx || a.quiet || ok }

  /** No pipe stores into a message that somebody refers to, and a message changed in place
      is not shown to anybody afterwards. */
  predicate Fine(can: Answers, g: Drivers, p: Path, ref: bool)
    decreases p, 0
  {
    match p
    case End => true
    case Proc(e, rest) => (e.writes ==> !ref) && (can(e, true) ==> Fine(can, g, rest, ref))
    case Group(d, rest) => Fine(can, g, rest, ref || g(d) > 0)
    case Mpx(hops, rest) =>
      && HopsFine(can, g, hops, rest.End?, ref)
      && forall h :: h in HopsExits(can, g, hops, rest.End?, ref) ==>
          (h.dirty ==> rest.End?) && Fine(can, g, rest, h.ref)
  }

  predicate PassFine(can: Answers, g: Drivers, hops: Hops, a: Round, delivered: bool, ref: bool)
    decreases hops, 0
  {
    match hops
    case NoHops => true
    case Hop(path, mark, tail) =>
      if mark.fallback != a.fallback then PassFine(can, g, tail, a, delivered, ref)
      else
        var last := Last(a, tail, delivered);
        && Fine(can, g, path, !Clones(mark, last, ref) && ref)
        && forall x :: x in HopExits(can, g, path, mark, last, ref) ==>
             || (x.ok && mark.final)
             || (PassFine(can, g, tail, a, delivered || x.ok, x.ref)
                 && (x.dirty ==> Unnoticed(can, g, tail, a, delivered || x.ok)))
  }

  /** The hops that follow show nothing, and make no difference to the second pass. */
  predicate Unnoticed(can: Answers, g: Drivers, tail: Hops, a: Round, delivered: bool) {
    SortIdle(can, g, tail, a.fallback) && (Settled(a, delivered) || SureTaken(can, tail))
  }

  predicate HopsFine(can: Answers, g: Drivers, hops: Hops, end: bool, ref: bool)
    decreases hops, 1
  {
    var a := FirstRound(can, g, hops, end);
    && PassFine(can, g, hops, a, false, ref)
    && (FallbackExists(hops) ==> forall x :: x in PassExits(can, g, hops, a, false, ref) ==>
          x.ok || PassFine(can, g, hops, SecondRound(hops, end), false, x.ref))
  }
}
