/** Release pointers: compare-and-swap link moves, guarded activation and fenced rollback.
    Every operation takes a number of link steps (renames and unlinks) it may still make before
    it is cut off, so each state a crash can leave is the result of some call. */
module Pointers {
  import opened Base

  type Target = string

  datatype Product = Baby | Gateway

  datatype Slot = Current | Previous

  /** One of the four fixed links. */
  datatype LinkPath = LinkPath(product: Product, slot: Slot)

  datatype Pair = Pair(current: Option<Target>, previous: Option<Target>)

  type Links = map<LinkPath, Target>

  datatype Refusal =
    | StalePointer
    | NoPreviousRelease
    | NoKnownGood
    | CandidateMissing
    | CandidateNotDirectory
    | OutsideFence
    | GuardNotReadBack
    | LegacyNotAccepted

  /** How a call ended: finished, refused, or cut off before its next link step. */
  datatype Outcome = Done | Refused(why: Refusal) | Cut

  /** The links together with the number of link steps left before the cut. */
  datatype World = World(links: Links, fuel: nat)

  datatype Step = Step(world: World, outcome: Outcome)

  datatype CandidateState = Missing | NotRealDirectory | RealDirectory

  datatype Disposition =
    Armed | Pending | SuccessMarkerValid | Disarmed | StaleGeneration | RolledBack | RollbackFailed

  datatype Guard = Guard(
    deploymentId: string,
    generation: nat,
    recordDigest: string,
    expected: Product -> Pair,
    candidate: Product -> Target)

  datatype Status = Status(
    deploymentId: string, generation: nat, guardRecordDigest: string, disposition: Disposition)

  function Read(links: Links, link: LinkPath): Option<Target> {
    if link in links then Some(links[link]) else None
  }

  function PairOf(links: Links, p: Product): Pair {
    Pair(Read(links, LinkPath(p, Current)), Read(links, LinkPath(p, Previous)))
  }

  /** A JavaScript string that is neither absent nor empty. */
  predicate Truthy(t: Option<Target>) {
    t.Some? && t.value != ""
  }

  // ---------------------------------------------------------------- link moves

  function Swap1(w: World, link: LinkPath, expected: Option<Target>, target: Target): Step {
    if Read(w.links, link) != expected then Step(w, Refused(StalePointer))
    else if w.fuel == 0 then Step(w, Cut)
    else Step(World(w.links[link := target], w.fuel - 1), Done)
  }

  function Remove1(w: World, link: LinkPath, expected: Target): Step {
    if Read(w.links, link) != Some(expected) then Step(w, Refused(StalePointer))
    else if w.fuel == 0 then Step(w, Cut)
    else Step(World(w.links - {link}, w.fuel - 1), Done)
  }

  function SwapPair(w: World, p: Product, target: Target, fence: Option<Pair>): Step {
    var now := PairOf(w.links, p);
    if fence.Some? && now != fence.value then Step(w, Refused(StalePointer))
    else
      var first := if Truthy(now.current)
                   then Swap1(w, LinkPath(p, Previous), now.previous, now.current.value)
                   else Step(w, Done);
      if first.outcome != Done then first
      else Swap1(first.world, LinkPath(p, Current), now.current, target)
  }

  function RollbackPair(w: World, p: Product, fence: Option<Pair>): Step {
    var now := PairOf(w.links, p);
    if !Truthy(now.previous) then Step(w, Refused(NoPreviousRelease))
    else if fence.Some? && now != fence.value then Step(w, Refused(StalePointer))
    else
      var first := Swap1(w, LinkPath(p, Current), now.current, now.previous.value);
      if first.outcome != Done || !Truthy(now.current) then first
      else Swap1(first.world, LinkPath(p, Previous), now.previous, now.current.value)
  }

  // ---------------------------------------------------------------- activation

  predicate GuardReadBack(g: Guard, s: Status) {
    && s.deploymentId == g.deploymentId
    && s.generation == g.generation
    && s.guardRecordDigest == g.recordDigest
    && (s.disposition == Armed || s.disposition == Pending)
  }

  function Activate(w: World, p: Product, g: Guard, s: Status, accepted: bool, c: CandidateState): Step {
    if !GuardReadBack(g, s) then Step(w, Refused(GuardNotReadBack))
    else if p == Baby && !accepted then Step(w, Refused(LegacyNotAccepted))
    else if !Truthy(g.expected(p).current) then Step(w, Refused(NoKnownGood))
    else if c == Missing then Step(w, Refused(CandidateMissing))
    else if c == NotRealDirectory then Step(w, Refused(CandidateNotDirectory))
    else SwapPair(w, p, g.candidate(p), Some(g.expected(p)))
  }

  // ---------------------------------------------------------------- rollback

  predicate PairInFence(now: Pair, expected: Pair, candidate: Target) {
    && (now.current == expected.current || now.current == Some(candidate))
    && (now.previous == expected.previous || now.previous == expected.current)
  }

  predicate InFence(links: Links, g: Guard) {
    && PairInFence(PairOf(links, Baby), g.expected(Baby), g.candidate(Baby))
    && PairInFence(PairOf(links, Gateway), g.expected(Gateway), g.candidate(Gateway))
  }

  function RestoreCurrent(w: World, p: Product, expected: Pair, candidate: Target): Step {
    var now := Read(w.links, LinkPath(p, Current));
    if !Truthy(expected.current) then Step(w, Refused(NoKnownGood))
    else if now == expected.current then Step(w, Done)
    else if now != Some(candidate) then Step(w, Refused(OutsideFence))
    else Swap1(w, LinkPath(p, Current), Some(candidate), expected.current.value)
  }

  function RestorePrevious(w: World, p: Product, expected: Pair): Step {
    var now := Read(w.links, LinkPath(p, Previous));
    if now == expected.previous then Step(w, Done)
    else if expected.previous.None? then Remove1(w, LinkPath(p, Previous), now.value)
    else Swap1(w, LinkPath(p, Previous), now, expected.previous.value)
  }

  function RestorePair(w: World, p: Product, expected: Pair, candidate: Target): Step {
    var first := RestoreCurrent(w, p, expected, candidate);
    if first.outcome != Done then first else RestorePrevious(first.world, p, expected)
  }

  function Rollback(w: World, g: Guard): Step {
    if !InFence(w.links, g) then Step(w, Refused(OutsideFence))
    else
      var first := RestorePair(w, Baby, g.expected(Baby), g.candidate(Baby));
      if first.outcome != Done then first
      else RestorePair(first.world, Gateway, g.expected(Gateway), g.candidate(Gateway))
  }

  // ---------------------------------------------------------------- the host that holds the links

  /** The link directory of one host and the link steps it can still make. */
  class LinkHost {
    var links: Links
    var fuel: nat

    constructor (links: Links, fuel: nat)
      ensures this.links == links && this.fuel == fuel
    {
      this.links := links;
      this.fuel := fuel;
    }

    function View(): World
      reads this
    {
      World(links, fuel)
    }

    method CompareAndSwap(link: LinkPath, expected: Option<Target>, target: Target) returns (o: Outcome)
      modifies this
      ensures Step(View(), o) == Swap1(old(View()), link, expected, target)
    {
      var actual := Read(links, link);
      if actual != expected { return Refused(StalePointer); }
      if fuel == 0 { return Cut; }
      links := links[link := target];
      fuel := fuel - 1;
      return Done;
    }

    method CompareAndRemove(link: LinkPath, expected: Target) returns (o: Outcome)
      modifies this
      ensures Step(View(), o) == Remove1(old(View()), link, expected)
    {
      var actual := Read(links, link);
      if actual != Some(expected) { return Refused(StalePointer); }
      if fuel == 0 { return Cut; }
      links := links - {link};
      fuel := fuel - 1;
      return Done;
    }

    method SwapReleases(p: Product, target: Target, fence: Option<Pair>) returns (o: Outcome)
      modifies this
      ensures Step(View(), o) == SwapPair(old(View()), p, target, fence)
    {
      var oldCurrent := Read(links, LinkPath(p, Current));
      var oldPrevious := Read(links, LinkPath(p, Previous));
      if fence.Some? && (oldCurrent != fence.value.current || oldPrevious != fence.value.previous) {
        return Refused(StalePointer);
      }
      if Truthy(oldCurrent) {
        o := CompareAndSwap(LinkPath(p, Previous), oldPrevious, oldCurrent.value);
        if o != Done { return; }
      }
      o := CompareAndSwap(LinkPath(p, Current), oldCurrent, target);
    }

    method RollbackReleases(p: Product, fence: Option<Pair>) returns (o: Outcome)
      modifies this
      ensures Step(View(), o) == RollbackPair(old(View()), p, fence)
    {
      var previousTarget := Read(links, LinkPath(p, Previous));
      if !Truthy(previousTarget) { return Refused(NoPreviousRelease); }
      var currentTarget := Read(links, LinkPath(p, Current));
      if fence.Some? && (currentTarget != fence.value.current || previousTarget != fence.value.previous) {
        return Refused(StalePointer);
      }
      o := CompareAndSwap(LinkPath(p, Current), currentTarget, previousTarget.value);
      if o == Done && Truthy(currentTarget) {
        o := CompareAndSwap(LinkPath(p, Previous), previousTarget, currentTarget.value);
      }
    }

    method ActivateCandidate(p: Product, g: Guard, s: Status, accepted: bool, c: CandidateState)
      returns (o: Outcome)
      modifies this
      ensures Step(View(), o) == Activate(old(View()), p, g, s, accepted, c)
    {
      if !GuardReadBack(g, s) { return Refused(GuardNotReadBack); }
      if p == Baby && !accepted { return Refused(LegacyNotAccepted); }
      if !Truthy(g.expected(p).current) { return Refused(NoKnownGood); }
      if c == Missing { return Refused(CandidateMissing); }
      if c == NotRealDirectory { return Refused(CandidateNotDirectory); }
      o := SwapReleases(p, g.candidate(p), Some(g.expected(p)));
    }

    method RestoreProductPointers(p: Product, expected: Pair, candidate: Target) returns (o: Outcome)
      modifies this
      ensures Step(View(), o) == RestorePair(old(View()), p, expected, candidate)
    {
      var currentActual := Read(links, LinkPath(p, Current));
      if !Truthy(expected.current) { return Refused(NoKnownGood); }
      if currentActual != expected.current {
        if currentActual != Some(candidate) { return Refused(OutsideFence); }
        o := CompareAndSwap(LinkPath(p, Current), Some(candidate), expected.current.value);
        if o != Done { return; }
      }
      var previousActual := Read(links, LinkPath(p, Previous));
      o := Done;
      if expected.previous.None? {
        if previousActual.Some? {
          o := CompareAndRemove(LinkPath(p, Previous), previousActual.value);
        }
      } else if previousActual != expected.previous {
        o := CompareAndSwap(LinkPath(p, Previous), previousActual, expected.previous.value);
      }
    }

    method RestoreAllPointers(g: Guard) returns (o: Outcome)
      modifies this
      ensures Step(View(), o) == Rollback(old(View()), g)
    {
      if !InFence(links, g) { return Refused(OutsideFence); }
      o := RestoreProductPointers(Baby, g.expected(Baby), g.candidate(Baby));
      if o != Done { return; }
      o := RestoreProductPointers(Gateway, g.expected(Gateway), g.candidate(Gateway));
    }
  }

  // ---------------------------------------------------------------- runs

  /** One call on the host, cut off after `fuel` link steps. */
  datatype Call =
    | DoActivate(p: Product, s: Status, accepted: bool, c: CandidateState, fuel: nat)
    | DoRollback(fuel: nat)

  function Perform(links: Links, g: Guard, call: Call): Step {
    match call
    case DoActivate(p, s, accepted, c, fuel) => Activate(World(links, fuel), p, g, s, accepted, c)
    case DoRollback(fuel) => Rollback(World(links, fuel), g)
  }

  function RunCalls(links: Links, g: Guard, calls: seq<Call>): Links
    decreases calls
  {
    if calls == [] then links
    else RunCalls(Perform(links, g, calls[0]).world.links, g, calls[1..])
  }

  /** What record validation guarantees of a signed guard: both known-good targets are present. */
  ghost predicate ValidGuard(g: Guard) {
    forall p: Product :: Truthy(g.expected(p).current)
  }

  ghost predicate AtExpected(links: Links, g: Guard) {
    forall p: Product :: PairOf(links, p) == g.expected(p)
  }

  /** The only three pointer pairs a guarded product can ever show. */
  predicate Tame(now: Pair, expected: Pair, candidate: Target) {
    || now == expected
    || now == Pair(expected.current, expected.current)
    || now == Pair(Some(candidate), expected.current)
  }

  ghost predicate AllTame(links: Links, g: Guard) {
    forall p: Product :: Tame(PairOf(links, p), g.expected(p), g.candidate(p))
  }

  lemma ActivateKeepsTame(w: World, p: Product, g: Guard, s: Status, accepted: bool, c: CandidateState)
    requires AllTame(w.links, g)
    ensures AllTame(Activate(w, p, g, s, accepted, c).world.links, g)
  {
    var links' := Activate(w, p, g, s, accepted, c).world.links;
    forall q: Product ensures Tame(PairOf(links', q), g.expected(q), g.candidate(q)) {
      assert Tame(PairOf(w.links, q), g.expected(q), g.candidate(q));
    }
  }

  lemma RestorePairKeepsTame(w: World, p: Product, g: Guard)
    requires ValidGuard(g) && AllTame(w.links, g)
    ensures AllTame(RestorePair(w, p, g.expected(p), g.candidate(p)).world.links, g)
  {
    var links' := RestorePair(w, p, g.expected(p), g.candidate(p)).world.links;
    forall q: Product ensures Tame(PairOf(links', q), g.expected(q), g.candidate(q)) {
      assert Tame(PairOf(w.links, q), g.expected(q), g.candidate(q));
      assert Truthy(g.expected(q).current);
    }
  }

  lemma PerformKeepsTame(links: Links, g: Guard, call: Call)
    requires ValidGuard(g) && AllTame(links, g)
    ensures AllTame(Perform(links, g, call).world.links, g)
  {
    match call
    case DoActivate(p, s, accepted, c, fuel) => ActivateKeepsTame(World(links, fuel), p, g, s, accepted, c);
    case DoRollback(fuel) =>
      var w := World(links, fuel);
      if InFence(links, g) {
        RestorePairKeepsTame(w, Baby, g);
        var first := RestorePair(w, Baby, g.expected(Baby), g.candidate(Baby));
        RestorePairKeepsTame(first.world, Gateway, g);
      }
  }

  lemma {:induction false} RunsStayTame(links: Links, g: Guard, calls: seq<Call>)
    requires ValidGuard(g) && AllTame(links, g)
    ensures AllTame(RunCalls(links, g, calls), g)
    decreases calls
  {
    if calls != [] {
      PerformKeepsTame(links, g, calls[0]);
      RunsStayTame(Perform(links, g, calls[0]).world.links, g, calls[1..]);
    }
  }

  /** Whatever calls were made and wherever each was cut off, both products stay inside the signed
      rollback fence and keep a current release. */
  lemma EveryCrashStaysInFence(links: Links, g: Guard, calls: seq<Call>)
    requires ValidGuard(g) && AtExpected(links, g)
    ensures InFence(RunCalls(links, g, calls), g)
    ensures forall p: Product :: LinkPath(p, Current) in RunCalls(links, g, calls)
  {
    forall p: Product ensures Tame(PairOf(links, p), g.expected(p), g.candidate(p)) {
      assert PairOf(links, p) == g.expected(p);
    }
    RunsStayTame(links, g, calls);
    var end := RunCalls(links, g, calls);
    forall p: Product ensures LinkPath(p, Current) in end && PairInFence(PairOf(end, p), g.expected(p), g.candidate(p)) {
      assert Tame(PairOf(end, p), g.expected(p), g.candidate(p));
      assert Truthy(g.expected(p).current);
    }
  }

  lemma RestorePairIsExact(w: World, p: Product, expected: Pair, candidate: Target)
    requires Truthy(expected.current) && w.fuel >= 2
    ensures var r := RestorePair(w, p, expected, candidate);
            var now := PairOf(w.links, p);
            && (r.outcome == Done <==> now.current == expected.current || now.current == Some(candidate))
            && (r.outcome == Done ==>
                  && PairOf(r.world.links, p) == expected
                  && r.world.fuel + 2 >= w.fuel
                  && forall l: LinkPath | l.product != p :: Read(r.world.links, l) == Read(w.links, l))
  {
  }

  /** A pointer restoration with its (at most four) link steps available finishes exactly when the
      links are inside the fence, and then ends exactly at the signed expected pointers. */
  lemma RollbackCompletesExactlyInsideTheFence(links: Links, g: Guard, fuel: nat)
    requires ValidGuard(g) && fuel >= 4
    ensures var r := Rollback(World(links, fuel), g);
            && (r.outcome == Done <==> InFence(links, g))
            && (r.outcome == Done ==> AtExpected(r.world.links, g))
            && (r.outcome != Done ==> r.world.links == links)
  {
    if InFence(links, g) {
      var w := World(links, fuel);
      assert Truthy(g.expected(Baby).current) && Truthy(g.expected(Gateway).current);
      RestorePairIsExact(w, Baby, g.expected(Baby), g.candidate(Baby));
      var first := RestorePair(w, Baby, g.expected(Baby), g.candidate(Baby));
      var gw := LinkPath(Gateway, Current);
      assert Read(first.world.links, gw) == Read(links, gw);
      RestorePairIsExact(first.world, Gateway, g.expected(Gateway), g.candidate(Gateway));
      var end := RestorePair(first.world, Gateway, g.expected(Gateway), g.candidate(Gateway)).world.links;
      forall p: Product ensures PairOf(end, p) == g.expected(p) {
        if p == Baby {
          assert Read(end, LinkPath(Baby, Current)) == Read(first.world.links, LinkPath(Baby, Current));
          assert Read(end, LinkPath(Baby, Previous)) == Read(first.world.links, LinkPath(Baby, Previous));
        }
      }
    }
  }

  /** From every state any sequence of cut-off calls can leave, one uncut restoration ends at the
      signed expected pointers. */
  lemma OneRestorationRecoversEveryCrash(links: Links, g: Guard, calls: seq<Call>, fuel: nat)
    requires ValidGuard(g) && AtExpected(links, g) && fuel >= 4
    ensures var r := Rollback(World(RunCalls(links, g, calls), fuel), g);
            r.outcome == Done && AtExpected(r.world.links, g)
  {
    EveryCrashStaysInFence(links, g, calls);
    RollbackCompletesExactlyInsideTheFence(RunCalls(links, g, calls), g, fuel);
  }

  /** An activation cut after its first step cannot simply be retried: the retry is refused exactly
      when the move of `previous` changed it. */
  lemma CutActivationMustBeRolledBack(links: Links, p: Product, g: Guard, s: Status, accepted: bool, fuel: nat)
    requires ValidGuard(g) && PairOf(links, p) == g.expected(p)
    requires GuardReadBack(g, s) && (p == Baby ==> accepted) && fuel >= 2
    ensures var cut := Activate(World(links, 1), p, g, s, accepted, RealDirectory);
            && cut.outcome == Cut
            && PairOf(cut.world.links, p) == Pair(g.expected(p).current, g.expected(p).current)
            && var again := Activate(World(cut.world.links, fuel), p, g, s, accepted, RealDirectory);
               again.outcome == Refused(StalePointer) <==> g.expected(p).previous != g.expected(p).current
  {
    assert Truthy(g.expected(p).current);
  }

  /** An uncut activation publishes the candidate and keeps the old release as `previous`; no other
      product's link moves. */
  lemma ActivationPublishes(links: Links, p: Product, g: Guard, s: Status, accepted: bool, c: CandidateState, fuel: nat)
    requires ValidGuard(g) && fuel >= 2
    ensures var r := Activate(World(links, fuel), p, g, s, accepted, c);
            && (r.outcome == Done <==>
                  && GuardReadBack(g, s) && (p == Baby ==> accepted) && c == RealDirectory
                  && PairOf(links, p) == g.expected(p))
            && (r.outcome == Done ==>
                  PairOf(r.world.links, p) == Pair(Some(g.candidate(p)), g.expected(p).current))
            && (r.outcome != Done ==> r.world.links == links)
            && forall l: LinkPath | l.product != p :: Read(r.world.links, l) == Read(links, l)
  {
    assert Truthy(g.expected(p).current);
  }

  /** Swapping in a release and rolling it back restores the old current release; rolling back twice
      restores both links. */
  lemma RollbackUndoesSwap(links: Links, p: Product, target: Target)
    requires Truthy(Read(links, LinkPath(p, Current))) && target != ""
    ensures var swapped := SwapPair(World(links, 2), p, target, None).world.links;
            var back := RollbackPair(World(swapped, 2), p, None).world.links;
            && PairOf(back, p) == Pair(Read(links, LinkPath(p, Current)), Some(target))
            && RollbackPair(World(back, 2), p, None) == Step(World(swapped, 0), Done)
  {
    var c := Read(links, LinkPath(p, Current)).value;
    var swapped := SwapPair(World(links, 2), p, target, None).world.links;
    var back := RollbackPair(World(swapped, 2), p, None).world.links;
    assert PairOf(swapped, p) == Pair(Some(target), Some(c));
    assert PairOf(back, p) == Pair(Some(c), Some(target));
    var again := RollbackPair(World(back, 2), p, None).world.links;
    assert again == swapped;
  }

  /** The unfenced rollback is not crash-safe: cut after its first step, the release that was current
      is named by neither link, unless it was also the previous one. */
  lemma CutRollbackForgetsCurrent(links: Links, p: Product)
    requires Truthy(Read(links, LinkPath(p, Current))) && Truthy(Read(links, LinkPath(p, Previous)))
    ensures var before := PairOf(links, p);
            var cut := RollbackPair(World(links, 1), p, None);
            var after := PairOf(cut.world.links, p);
            && cut.outcome == Cut
            && after == Pair(before.previous, before.previous)
            && (before.current == after.current || before.current == after.previous
                <==> before.current == before.previous)
  {
  }
}
