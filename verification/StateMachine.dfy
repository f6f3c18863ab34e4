/** The forty deployment states, which transitions exist, and what each of them demands. */
module StateMachine {
  import opened Base

  datatype State =
    | Requested | SourceResolving | SourceVerified | Building | Testing | Packaging
    | ReproducibilityVerifying | ArtifactVerified | CompatibilityVerifying | Preflight | Staging
    | CandidateVerifying | ReadyToActivate | Snapshotting | GuardArming | GuardArmed
    | GatewayInstalling | GatewayActivating | GatewayAcceptingLegacy | BabyInstalling
    | BabyActivating | BabyAccepting | RestartAccepting | ChatgptAccepting | SuccessMarking
    | GuardDisarming | Succeeded
    | CancelRequested | Cancelling | Failed | TimedOut | Partial | Ambiguous | Unknown
    | Reconciling | RollbackRequested | RollingBack | RolledBack | RollbackFailed
    | ManualRecoveryRequired

  const HAPPY_PATH: seq<State> := [
    Requested, SourceResolving, SourceVerified, Building, Testing, Packaging,
    ReproducibilityVerifying, ArtifactVerified, CompatibilityVerifying, Preflight, Staging,
    CandidateVerifying, ReadyToActivate, Snapshotting, GuardArming, GuardArmed,
    GatewayInstalling, GatewayActivating, GatewayAcceptingLegacy, BabyInstalling,
    BabyActivating, BabyAccepting, RestartAccepting, ChatgptAccepting, SuccessMarking,
    GuardDisarming, Succeeded]

  /** The first fifteen states of the path. */
  const PRE_ARM_WORK: set<State> := {
    Requested, SourceResolving, SourceVerified, Building, Testing, Packaging,
    ReproducibilityVerifying, ArtifactVerified, CompatibilityVerifying, Preflight, Staging,
    CandidateVerifying, ReadyToActivate, Snapshotting, GuardArming}

  const ACTIVE_MUTATION: set<State> := {
    GatewayActivating, GatewayAcceptingLegacy, BabyActivating, BabyAccepting, RestartAccepting,
    ChatgptAccepting, SuccessMarking, GuardDisarming}

  const POST_ARM: set<State> := {GuardArmed, GatewayInstalling, BabyInstalling} + ACTIVE_MUTATION

  predicate Terminal(s: State) {
    s == Succeeded || s == Failed || s == TimedOut || s == RolledBack || s == ManualRecoveryRequired
  }

  /** The steps listed one by one beside the path and the two classes. */
  const SINGLE_STEPS: seq<(State, State)> := [
    (GuardArming, RollbackRequested), (CancelRequested, Cancelling), (CancelRequested, Reconciling),
    (Cancelling, Failed), (Cancelling, RollbackRequested), (Partial, Reconciling),
    (Partial, RollbackRequested), (Ambiguous, Reconciling), (Unknown, Reconciling),
    (Unknown, ManualRecoveryRequired), (Reconciling, RollbackRequested), (Reconciling, RollingBack),
    (Reconciling, RolledBack), (Reconciling, RollbackFailed), (Reconciling, ManualRecoveryRequired),
    (RollbackRequested, RollingBack), (RollbackRequested, Unknown), (RollingBack, RolledBack),
    (RollingBack, RollbackFailed), (RollingBack, Ambiguous), (RollingBack, Unknown),
    (RollbackFailed, RollingBack), (RollbackFailed, ManualRecoveryRequired)]

  const PRE_ARM_EXITS: set<State> := {CancelRequested, Failed, TimedOut, Partial, Ambiguous, Unknown}
  const POST_ARM_EXITS: set<State> := {RollbackRequested, Partial, Ambiguous, Unknown}

  predicate StepAt(path: seq<State>, i: nat, f: State, t: State)
    requires i + 1 < |path|
  {
    path[i] == f && path[i + 1] == t
  }

  /** `t` directly follows `f` in the list. */
  predicate Adjacent(path: seq<State>, f: State, t: State) {
    exists i | 0 <= i < |path| - 1 :: StepAt(path, i, f, t)
  }

  /** The transitions there are. */
  predicate Allowed(from: State, to: State) {
    && from != to && !Terminal(from)
    && (|| Adjacent(HAPPY_PATH, from, to)
        || (from in PRE_ARM_WORK && to in PRE_ARM_EXITS)
        || (from in POST_ARM && to in POST_ARM_EXITS)
        || (from == Reconciling && to in HAPPY_PATH && !Terminal(to))
        || (from, to) in SINGLE_STEPS)
  }

  predicate Proper(f: State, t: State) {
    f != t && !Terminal(f)
  }

  function Add(pairs: set<(State, State)>, from: State, to: State): set<(State, State)> {
    if from == to || Terminal(from) then pairs else pairs + {(from, to)}
  }

  method AddPath(pairs: set<(State, State)>, path: seq<State>) returns (r: set<(State, State)>)
    ensures forall f, t :: (f, t) in r <==> (f, t) in pairs || (Proper(f, t) && Adjacent(path, f, t))
  {
    r := pairs;
    if path == [] { return; }
    for i := 0 to |path| - 1
      invariant forall f, t :: (f, t) in r <==> (f, t) in pairs || (Proper(f, t) && Adjacent(path[..i + 1], f, t))
    {
      r := Add(r, path[i], path[i + 1]);
      AdjacentMore(path, i);
    }
    TakeAll(path);
  }

  lemma AdjacentMore(path: seq<State>, i: nat)
    requires i + 1 < |path|
    ensures forall f, t {:trigger Adjacent(path[..i + 2], f, t)} ::
              Adjacent(path[..i + 2], f, t) <==> Adjacent(path[..i + 1], f, t) || StepAt(path, i, f, t)
  {
    var longer, shorter := path[..i + 2], path[..i + 1];
    forall f, t {:trigger Adjacent(longer, f, t)}
      ensures Adjacent(longer, f, t) <==> Adjacent(shorter, f, t) || StepAt(path, i, f, t)
    {
      if Adjacent(longer, f, t) {
        var k :| 0 <= k < |longer| - 1 && StepAt(longer, k, f, t);
        if k < i { assert StepAt(shorter, k, f, t); }
      }
      if Adjacent(shorter, f, t) {
        var k :| 0 <= k < |shorter| - 1 && StepAt(shorter, k, f, t);
        assert StepAt(longer, k, f, t);
      }
      if StepAt(path, i, f, t) { assert StepAt(longer, i, f, t); }
    }
  }

  /** Adds the steps from every state of `sources` to every state of `exits`. */
  method AddPairs(pairs: set<(State, State)>, sources: set<State>, exits: set<State>)
    returns (r: set<(State, State)>)
    ensures forall f, t :: (f, t) in r <==> (f, t) in pairs || (Proper(f, t) && f in sources && t in exits)
  {
    r := pairs;
    var rest := sources;
    while rest != {}
      invariant rest <= sources
      invariant forall f, t :: (f, t) in r <==> (f, t) in pairs || (Proper(f, t) && f in sources - rest && t in exits)
      decreases rest
    {
      var f :| f in rest;
      r := AddExits(r, f, exits);
      rest := rest - {f};
    }
  }

  method AddExits(pairs: set<(State, State)>, from: State, exits: set<State>) returns (r: set<(State, State)>)
    ensures forall f, t :: (f, t) in r <==> (f, t) in pairs || (Proper(f, t) && f == from && t in exits)
  {
    r := pairs;
    var rest := exits;
    while rest != {}
      invariant rest <= exits
      invariant forall f, t :: (f, t) in r <==> (f, t) in pairs || (Proper(f, t) && f == from && t in exits - rest)
      decreases rest
    {
      var t :| t in rest;
      r := Add(r, from, t);
      rest := rest - {t};
    }
  }

  method AddListed(pairs: set<(State, State)>, steps: seq<(State, State)>) returns (r: set<(State, State)>)
    ensures forall f, t :: (f, t) in r <==> (f, t) in pairs || (Proper(f, t) && (f, t) in steps)
  {
    r := pairs;
    for i := 0 to |steps|
      invariant forall f, t :: (f, t) in r <==> (f, t) in pairs || (Proper(f, t) && (f, t) in steps[..i])
    {
      TakeNext(steps, i);
      r := Add(r, steps[i].0, steps[i].1);
    }
    TakeAll(steps);
  }

  /** The states of the list that are not terminal. */
  method Reconcilable(path: seq<State>) returns (r: set<State>)
    ensures forall t :: t in r <==> t in path && !Terminal(t)
  {
    r := {};
    for i := 0 to |path|
      invariant forall t :: t in r <==> t in path[..i] && !Terminal(t)
    {
      TakeNext(path, i);
      if !Terminal(path[i]) { r := r + {path[i]}; }
    }
    TakeAll(path);
  }

  /** Builds the table step by step; it holds exactly the allowed transitions. */
  method BuildTransitionPairs() returns (pairs: set<(State, State)>)
    ensures forall f, t :: (f, t) in pairs <==> Allowed(f, t)
  {
    hide Adjacent, HAPPY_PATH, PRE_ARM_WORK, POST_ARM, SINGLE_STEPS, PRE_ARM_EXITS, POST_ARM_EXITS;
    pairs := AddPath({}, HAPPY_PATH);
    pairs := AddPairs(pairs, PRE_ARM_WORK, PRE_ARM_EXITS);
    pairs := AddPairs(pairs, POST_ARM, POST_ARM_EXITS);
    pairs := AddListed(pairs, SINGLE_STEPS);
    var reconcilable := Reconcilable(HAPPY_PATH);
    pairs := AddExits(pairs, Reconciling, reconcilable);
  }

  // ---------------------------------------------------------------- what a transition demands

  datatype MutationClass = NoMutation | InactiveOnly | GuardControl | ActiveProduct | RollbackClass
  datatype TerminalTruth = NonTerminal | Success | RolledBackTruth | ManualRecoveryTruth | Failure

  function Mutation(s: State): MutationClass {
    match s
    case Staging => InactiveOnly
    case CandidateVerifying => InactiveOnly
    case GatewayInstalling => InactiveOnly
    case BabyInstalling => InactiveOnly
    case GuardArming => GuardControl
    case GuardArmed => GuardControl
    case GuardDisarming => GuardControl
    case GatewayActivating => ActiveProduct
    case GatewayAcceptingLegacy => ActiveProduct
    case BabyActivating => ActiveProduct
    case BabyAccepting => ActiveProduct
    case RestartAccepting => ActiveProduct
    case ChatgptAccepting => ActiveProduct
    case SuccessMarking => ActiveProduct
    case RollbackRequested => RollbackClass
    case RollingBack => RollbackClass
    case RolledBack => RollbackClass
    case RollbackFailed => RollbackClass
    case _ => NoMutation
  }

  function Truth(s: State): TerminalTruth {
    match s
    case Succeeded => Success
    case RolledBack => RolledBackTruth
    case ManualRecoveryRequired => ManualRecoveryTruth
    case Failed => Failure
    case TimedOut => Failure
    case _ => NonTerminal
  }

  function RequiredEvidence(s: State): seq<string> {
    match s
    case Requested => ["request.validated"]
    case SourceResolving => ["request.validated"]
    case SourceVerified => ["source.identity"]
    case Building => ["source.materialization"]
    case Testing => ["build.result"]
    case Packaging => ["test.result"]
    case ReproducibilityVerifying => ["package.first"]
    case ArtifactVerified => ["reproducibility.match", "artifact.manifest"]
    case CompatibilityVerifying => ["artifact.verification"]
    case Preflight => ["compatibility.declaration"]
    case Staging => ["preflight.report"]
    case CandidateVerifying => ["stage.readback"]
    case ReadyToActivate => ["candidate.acceptance"]
    case Snapshotting => ["activation.intent"]
    case GuardArming => ["snapshot.verified"]
    case GuardArmed => ["guard.readback"]
    case GatewayInstalling => ["guard.readback"]
    case GatewayActivating => ["gateway.inactive_install"]
    case GatewayAcceptingLegacy => ["gateway.activation.readback"]
    case BabyInstalling => ["gateway.legacy.acceptance"]
    case BabyActivating => ["baby.inactive_install"]
    case BabyAccepting => ["baby.activation.readback"]
    case RestartAccepting => ["baby.acceptance"]
    case ChatgptAccepting => ["restart.acceptance"]
    case SuccessMarking => ["chatgpt.acceptance"]
    case GuardDisarming => ["success.marker"]
    case Succeeded => ["success.marker", "guard.disarm.readback"]
    case CancelRequested => ["cancellation.intent"]
    case Cancelling => ["cancellation.readback"]
    case Failed => ["failure.terminal"]
    case TimedOut => ["deadline.readback"]
    case Partial => ["partial.readback"]
    case Ambiguous => ["mutation.ambiguous"]
    case Unknown => ["state.unknown"]
    case Reconciling => ["reconciliation.readback"]
    case RollbackRequested => ["rollback.intent"]
    case RollingBack => ["rollback.preflight"]
    case RolledBack => ["rollback.acceptance", "guard.disarm.readback"]
    case RollbackFailed => ["rollback.failure"]
    case ManualRecoveryRequired => ["manual_recovery.record"]
  }

  datatype GuardStatus = ArmedReadback | DisarmedReadback

  datatype EvidenceRef = EvidenceRef(kind: string, digest: string)

  // An optional field is either absent or holds a non-empty value.
  datatype TransitionInput = TransitionInput(
    deploymentId: string, generation: nat, expectedState: State, expectedSequence: nat, nextState: State,
    evidence: seq<EvidenceRef>, actor: string, occurredAt: string, idempotencyKey: string,
    reason: Option<string>, guardStatus: Option<GuardStatus>, successMarkerDigest: Option<string>,
    signingKeyId: Option<string>, signature: Option<string>, signatureAlgorithm: Option<string>)

  datatype TransitionError =
    | TerminalState | Forbidden | EvidenceMissing | Invalid | IdempotencyConflict | NotFound
    | GenerationConflict | StateConflict | Conflict

  predicate HasKind(evidence: seq<EvidenceRef>, kind: string) {
    exists i | 0 <= i < |evidence| :: evidence[i].kind == kind
  }

  /** The digest of the first reference of that kind. */
  function FirstOfKind(evidence: seq<EvidenceRef>, kind: string): Option<string> {
    if evidence == [] then None
    else if evidence[0].kind == kind then Some(evidence[0].digest)
    else FirstOfKind(evidence[1..], kind)
  }

  predicate IsMarkerState(s: State) {
    s == GuardDisarming || s == Succeeded
  }

  function CheckTransition(armed: bool, x: TransitionInput): Result<(), TransitionError> {
    if !Allowed(x.expectedState, x.nextState) then
      Err(if Terminal(x.expectedState) then TerminalState else Forbidden)
    else if exists k :: k in RequiredEvidence(x.nextState) && !HasKind(x.evidence, k) then Err(EvidenceMissing)
    else if x.nextState in ACTIVE_MUTATION && !armed then Err(Forbidden)
    else if x.nextState in POST_ARM && x.nextState != GuardArmed && !armed then Err(Forbidden)
    else if armed && x.nextState in PRE_ARM_WORK && x.nextState != GuardArming then Err(Forbidden)
    else if x.nextState == GuardArmed && x.guardStatus != Some(ArmedReadback) then Err(Forbidden)
    else if x.guardStatus == Some(ArmedReadback) && x.nextState != GuardArmed then Err(Forbidden)
    else if x.guardStatus == Some(DisarmedReadback) && x.nextState != Succeeded && x.nextState != RolledBack then
      Err(Forbidden)
    else if armed && (x.nextState == Failed || x.nextState == TimedOut || x.nextState == Cancelling) then
      Err(Forbidden)
    else if x.nextState == Succeeded && (x.guardStatus != Some(DisarmedReadback) || x.successMarkerDigest.None?) then
      Err(Forbidden)
    else if x.nextState == RolledBack && x.guardStatus != Some(DisarmedReadback) then Err(Forbidden)
    else if IsMarkerState(x.nextState) &&
            (x.successMarkerDigest.None? || FirstOfKind(x.evidence, "success.marker") != x.successMarkerDigest) then
      Err(Forbidden)
    else if x.successMarkerDigest.Some? && !IsMarkerState(x.nextState) then Err(Forbidden)
    else Ok(())
  }

  lemma PathIntoSucceeded(from: State)
    ensures Adjacent(HAPPY_PATH, from, Succeeded) <==> from == GuardDisarming
  {
    var path := HAPPY_PATH;
    if Adjacent(path, from, Succeeded) {
      var i :| 0 <= i < |path| - 1 && StepAt(path, i, from, Succeeded);
      assert i == 25;
    }
    assert StepAt(path, 25, GuardDisarming, Succeeded);
  }

  lemma NoSingleStepIntoSucceeded(from: State)
    ensures (from, Succeeded) !in SINGLE_STEPS
  {
  }

  /** The only way into `Succeeded`. */
  lemma SucceededOnlyFromDisarming(from: State)
    ensures Allowed(from, Succeeded) <==> from == GuardDisarming
  {
    PathIntoSucceeded(from);
    NoSingleStepIntoSucceeded(from);
    hide Adjacent, SINGLE_STEPS;
  }

  lemma {:induction false} FirstOfKindIsMember(evidence: seq<EvidenceRef>, kind: string)
    ensures FirstOfKind(evidence, kind).Some? ==>
              EvidenceRef(kind, FirstOfKind(evidence, kind).value) in evidence
  {
    if evidence != [] && evidence[0].kind != kind {
      FirstOfKindIsMember(evidence[1..], kind);
    }
  }

  /** The states whose guard flag is settled by the state alone. */
  predicate FlagFits(s: State, armed: bool) {
    && (s in POST_ARM ==> armed)
    && (armed && s in PRE_ARM_WORK ==> s == GuardArming)
    && (armed && Terminal(s) ==> s == ManualRecoveryRequired)
  }

  function NextFlag(armed: bool, status: Option<GuardStatus>): bool {
    match status
    case None => armed
    case Some(ArmedReadback) => true
    case Some(DisarmedReadback) => false
  }

  /** An accepted transition leads to a state that fits the new guard flag. */
  lemma AcceptedFits(armed: bool, x: TransitionInput)
    requires CheckTransition(armed, x).Ok?
    ensures FlagFits(x.nextState, NextFlag(armed, x.guardStatus))
    ensures !armed && NextFlag(armed, x.guardStatus) ==> x.nextState == GuardArmed
  {
    hide Allowed, RequiredEvidence;
  }
}
