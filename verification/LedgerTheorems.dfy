/** What every reachable ledger satisfies: rows are the fold of their logs, logs cannot be rewritten
    unnoticed, the guard flag fits the state, success has its provenance, and replays are exact. */
module LedgerTheorems {
  import opened Base
  import opened Order
  import opened StateMachine
  import opened Ledger

  // ---------------------------------------------------------------- rows are folds of their logs

  function LogOf(log: seq<Transition>, id: string): seq<Transition> {
    if log == [] then []
    else
      var front := LogOf(log[..|log| - 1], id);
      if log[|log| - 1].input.deploymentId == id then front + [log[|log| - 1]] else front
  }

  function Fold(start: Deployment, log: seq<Transition>): Deployment {
    if log == [] then start else Advance(Fold(start, log[..|log| - 1]), log[|log| - 1])
  }

  /** The transition was accepted from the row. */
  predicate Follows(d: Deployment, t: Transition, less: Collation) {
    && !d.terminal && t.input.generation == d.request.generation && t.input.deploymentId == d.request.deploymentId
    && t.input.expectedState == d.state && t.input.expectedSequence == d.sequence
    && CheckTransition(d.armed, t.input).Ok?
    && (t.input.nextState == Succeeded ==> d.marker == t.input.successMarkerDigest)
    && t == RecordFor(d, t.input, less)
  }

  /** Every transition of the log was accepted from the row its predecessors fold to. */
  predicate Chain(start: Deployment, log: seq<Transition>, less: Collation) {
    log == [] ||
    (Chain(start, log[..|log| - 1], less) && Follows(Fold(start, log[..|log| - 1]), log[|log| - 1], less))
  }

  function StartOf(d: Deployment): Deployment {
    Created(d.request, d.sources)
  }

  /** The row of `id`, if there is one, is the fold of its accepted log. */
  ghost predicate RowFolds(db: Db, less: Collation, id: string) {
    id in db.deployments ==>
      var d := db.deployments[id];
      var log := LogOf(db.transitions, id);
      d.request.deploymentId == id && Chain(StartOf(d), log, less) && d == Fold(StartOf(d), log)
  }

  ghost predicate RowsFold(db: Db, less: Collation) {
    forall id {:trigger RowFolds(db, less, id)} :: RowFolds(db, less, id)
  }

  ghost predicate KeysUnique(db: Db) {
    && (forall a, b | a in db.deployments && b in db.deployments &&
          db.deployments[a].request.idempotencyKey == db.deployments[b].request.idempotencyKey :: a == b)
    && (forall a, b | a in db.deployments && b in db.deployments &&
          db.deployments[a].request.generation == db.deployments[b].request.generation :: a == b)
  }

  ghost predicate LogsOwned(db: Db) {
    forall t | t in db.transitions :: t.input.deploymentId in db.deployments
  }

  ghost predicate EvidenceHeld(db: Db) {
    forall t, r | t in db.transitions && r in t.input.evidence ::
      (t.input.deploymentId, r.kind, r.digest) in db.evidence
  }

  /** No two recorded transitions of a deployment share a key. */
  ghost predicate AttemptsUnique(log: seq<Transition>) {
    forall i, j | 0 <= i < j < |log| ::
      !Attempted(log[i], log[j].input.deploymentId, log[j].input.idempotencyKey)
  }

  ghost predicate Valid(db: Db, less: Collation) {
    RowsFold(db, less) && KeysUnique(db) && LogsOwned(db) && EvidenceHeld(db) && AttemptsUnique(db.transitions)
  }

  // ---------------------------------------------------------------- operations keep it

  datatype Operation =
    | Create(request: Request, sources: seq<Source>)
    | AddOne(product: Product)
    | Append(evidence: Evidence)
    | Transit(input: TransitionInput)

  ghost function Step(db: Db, op: Operation, less: Collation): Db {
    match op
    case Create(request, sources) => CreateDeployment(db, request, sources).0
    case AddOne(p) => AddProduct(db, p).0
    case Append(e) => AppendEvidence(db, e).0
    case Transit(x) => ApplyTransition(db, x, less).0
  }

  ghost function Run(db: Db, ops: seq<Operation>, less: Collation): Db
    decreases ops
  {
    if ops == [] then db else Run(Step(db, ops[0], less), ops[1..], less)
  }

  lemma LogOfAppend(log: seq<Transition>, t: Transition, id: string)
    ensures LogOf(log + [t], id) == if t.input.deploymentId == id then LogOf(log, id) + [t] else LogOf(log, id)
  {
    assert (log + [t])[..|log + [t]| - 1] == log;
  }

  lemma {:induction false} LogOfNobody(log: seq<Transition>, id: string)
    requires forall t | t in log :: t.input.deploymentId != id
    ensures LogOf(log, id) == []
  {
    if log != [] {
      assert log[|log| - 1] in log;
      LogOfNobody(log[..|log| - 1], id);
    }
  }

  lemma NewRowFolds(db: Db, row: Deployment, less: Collation)
    requires RowsFold(db, less) && LogsOwned(db) && row == StartOf(row)
    requires row.request.deploymentId !in db.deployments
    ensures RowsFold(db.(deployments := db.deployments[row.request.deploymentId := row]), less)
  {
    var id := row.request.deploymentId;
    var next := db.(deployments := db.deployments[id := row]);
    LogOfNobody(db.transitions, id);
    forall x ensures RowFolds(next, less, x) {
      assert RowFolds(db, less, x);
    }
  }

  lemma NewRowKeepsKeys(db: Db, row: Deployment)
    requires KeysUnique(db)
    requires forall id | id in db.deployments :: !HasKey(db.deployments[id], row.request.idempotencyKey)
    requires forall id | id in db.deployments :: db.deployments[id].request.generation != row.request.generation
    ensures KeysUnique(db.(deployments := db.deployments[row.request.deploymentId := row]))
  {
    var id := row.request.deploymentId;
    var next := db.deployments[id := row];
    forall a, b | a in next && b in next && next[a].request.idempotencyKey == next[b].request.idempotencyKey
      ensures a == b
    {
      if a != id { assert !HasKey(db.deployments[a], row.request.idempotencyKey); }
      if b != id { assert !HasKey(db.deployments[b], row.request.idempotencyKey); }
    }
  }

  lemma CreateKeeps(db: Db, request: Request, sources: seq<Source>, less: Collation)
    requires Valid(db, less)
    ensures Valid(CreateDeployment(db, request, sources).0, less)
  {
    hide RowsFold, KeysUnique, LogsOwned, EvidenceHeld, AttemptsUnique;
    var next := CreateDeployment(db, request, sources).0;
    if next != db {
      var row := next.deployments[request.deploymentId];
      NewRowFolds(db, row, less);
      NewRowKeepsKeys(db, row);
      MoreRowsOwnLogs(db, next);
      SameEvidenceHeld(db, next);
    }
  }

  lemma MoreRowsOwnLogs(db: Db, next: Db)
    requires LogsOwned(db) && next.transitions == db.transitions
    requires forall id | id in db.deployments :: id in next.deployments
    ensures LogsOwned(next)
  {
  }

  lemma SameEvidenceHeld(db: Db, next: Db)
    requires EvidenceHeld(db) && next.transitions == db.transitions
    requires forall k | k in db.evidence :: k in next.evidence
    ensures EvidenceHeld(next)
  {
  }

  lemma FoldAppend(start: Deployment, log: seq<Transition>, t: Transition, less: Collation)
    ensures Fold(start, log + [t]) == Advance(Fold(start, log), t)
    ensures Chain(start, log + [t], less) <==> Chain(start, log, less) && Follows(Fold(start, log), t, less)
  {
    assert (log + [t])[..|log + [t]| - 1] == log;
  }

  lemma {:induction false} PriorAttemptFinds(log: seq<Transition>, id: string, key: string)
    ensures PriorAttempt(log, id, key).Some? ==>
              PriorAttempt(log, id, key).value in log && Attempted(PriorAttempt(log, id, key).value, id, key)
    ensures PriorAttempt(log, id, key).None? ==> forall t | t in log :: !Attempted(t, id, key)
  {
    if log != [] && !Attempted(log[0], id, key) {
      PriorAttemptFinds(log[1..], id, key);
      assert log == [log[0]] + log[1..];
    }
  }

  lemma TransitRowsFold(db: Db, x: TransitionInput, less: Collation)
    requires RowsFold(db, less) && x.deploymentId in db.deployments
    requires CheckFresh(db, db.deployments[x.deploymentId], x).Ok?
    ensures var d := db.deployments[x.deploymentId];
            var t := RecordFor(d, x, less);
            RowsFold(db.(deployments := db.deployments[x.deploymentId := Advance(d, t)],
                         transitions := db.transitions + [t]), less)
  {
    var d := db.deployments[x.deploymentId];
    var t := RecordFor(d, x, less);
    var next := db.(deployments := db.deployments[x.deploymentId := Advance(d, t)], transitions := db.transitions + [t]);
    var log := LogOf(db.transitions, x.deploymentId);
    assert RowFolds(db, less, x.deploymentId);
    assert Follows(d, t, less);
    FoldAppend(StartOf(d), log, t, less);
    assert StartOf(Advance(d, t)) == StartOf(d);
    hide CheckFresh, Chain, Fold, Advance;
    forall id ensures RowFolds(next, less, id) {
      LogOfAppend(db.transitions, t, id);
      assert RowFolds(db, less, id);
    }
  }

  lemma AttemptsStayUnique(log: seq<Transition>, t: Transition)
    requires AttemptsUnique(log)
    requires forall u | u in log :: !Attempted(u, t.input.deploymentId, t.input.idempotencyKey)
    ensures AttemptsUnique(log + [t])
  {
    var next := log + [t];
    forall i, j | 0 <= i < j < |next|
      ensures !Attempted(next[i], next[j].input.deploymentId, next[j].input.idempotencyKey)
    {
      assert next[i] == log[i] && log[i] in log;
    }
  }

  lemma TransitKeepsEvidence(db: Db, t: Transition, deployments: map<string, Deployment>)
    requires EvidenceHeld(db) && EvidenceInLedger(db, t.input.deploymentId, t.input.evidence)
    ensures EvidenceHeld(db.(deployments := deployments, transitions := db.transitions + [t]))
  {
    forall u, r | u in db.transitions + [t] && r in u.input.evidence
      ensures (u.input.deploymentId, r.kind, r.digest) in db.evidence
    {
      if u !in db.transitions { assert u == t; }
    }
  }

  lemma SameRequestsKeepKeys(db: Db, next: Db)
    requires KeysUnique(db) && next.deployments.Keys == db.deployments.Keys
    requires forall id | id in db.deployments :: next.deployments[id].request == db.deployments[id].request
    ensures KeysUnique(next)
  {
  }

  lemma OwnedTransition(db: Db, next: Db, t: Transition)
    requires LogsOwned(db) && next.transitions == db.transitions + [t]
    requires t.input.deploymentId in db.deployments && next.deployments.Keys == db.deployments.Keys
    ensures LogsOwned(next)
  {
    forall u | u in next.transitions ensures u.input.deploymentId in next.deployments {
      if u !in db.transitions { assert u == t; }
    }
  }

  lemma TransitKeeps(db: Db, x: TransitionInput, less: Collation)
    requires Valid(db, less)
    ensures Valid(ApplyTransition(db, x, less).0, less)
  {
    hide RowsFold, KeysUnique, LogsOwned, EvidenceHeld, AttemptsUnique, CheckTransition, IntentOf;
    var next := ApplyTransition(db, x, less).0;
    if next != db {
      var d := db.deployments[x.deploymentId];
      var t := RecordFor(d, x, less);
      TransitRowsFold(db, x, less);
      PriorAttemptFinds(db.transitions, x.deploymentId, x.idempotencyKey);
      AttemptsStayUnique(db.transitions, t);
      TransitKeepsEvidence(db, t, next.deployments);
      assert next.deployments.Keys == db.deployments.Keys;
      SameRequestsKeepKeys(db, next);
      OwnedTransition(db, next, t);
    }
  }

  lemma OthersKeep(db: Db, op: Operation, less: Collation)
    requires Valid(db, less) && (op.AddOne? || op.Append?)
    ensures Valid(Step(db, op, less), less)
  {
    hide Valid;
    var next := Step(db, op, less);
    SameLogsStayValid(db, next, less);
  }

  lemma SameLogsStayValid(db: Db, next: Db, less: Collation)
    requires Valid(db, less) && next.deployments == db.deployments && next.transitions == db.transitions
    requires forall k | k in db.evidence :: k in next.evidence
    ensures Valid(next, less)
  {
    SameEvidenceHeld(db, next);
    hide Chain, Fold, LogOf, EvidenceHeld;
    forall id ensures RowFolds(next, less, id) { assert RowFolds(db, less, id); }
  }

  lemma {:induction false} RunKeeps(db: Db, ops: seq<Operation>, less: Collation)
    requires Valid(db, less)
    ensures Valid(Run(db, ops, less), less)
    decreases ops
  {
    if ops != [] {
      match ops[0] {
        case Create(request, sources) => CreateKeeps(db, request, sources, less);
        case AddOne(_) => OthersKeep(db, ops[0], less);
        case Append(_) => OthersKeep(db, ops[0], less);
        case Transit(x) => TransitKeeps(db, x, less);
      }
      hide Valid;
      RunKeeps(Step(db, ops[0], less), ops[1..], less);
    }
  }

  ghost function Reached(ops: seq<Operation>, less: Collation): Db {
    Run(EMPTY_DB, ops, less)
  }

  /** Refinement: in every reachable ledger each row is the fold of its accepted transition log. */
  lemma RowsRefineLogs(ops: seq<Operation>, less: Collation)
    ensures Valid(Reached(ops, less), less)
  {
    assert Valid(EMPTY_DB, less);
    RunKeeps(EMPTY_DB, ops, less);
  }

  // ---------------------------------------------------------------- what the log shows

  lemma AcceptedStep(d: Deployment, t: Transition, less: Collation)
    requires Follows(d, t, less)
    ensures !d.terminal && t.sequence == d.sequence + 1 && t.input.expectedSequence == d.sequence
    ensures t.input.expectedState == d.state && t.terminal == Terminal(t.input.nextState)
    ensures var next := Advance(d, t);
            && next.request == d.request && next.sources == d.sources && next.sequence == t.sequence
            && next.state == t.input.nextState && next.terminal == t.terminal
            && next.armed == NextFlag(d.armed, t.input.guardStatus)
            && (t.input.successMarkerDigest.Some? ==> next.marker == t.input.successMarkerDigest)
  {
    hide CheckTransition, IntentOf;
  }

  lemma {:induction false} LogSequences(start: Deployment, log: seq<Transition>, less: Collation)
    requires start == StartOf(start) && Chain(start, log, less)
    ensures Fold(start, log).sequence == |log|
    ensures forall i | 0 <= i < |log| :: log[i].sequence == i + 1 && log[i].input.expectedSequence == i
    ensures Fold(start, log).request == start.request && Fold(start, log).sources == start.sources
  {
    hide Follows, Advance;
    if log != [] {
      var front := log[..|log| - 1];
      AcceptedStep(Fold(start, front), log[|log| - 1], less);
      LogSequences(start, front, less);
      assert forall i | 0 <= i < |front| :: log[i] == front[i];
    }
  }

  /** The state a log of transitions ends in. */
  function LastState(log: seq<Transition>): State {
    if log == [] then Requested else log[|log| - 1].input.nextState
  }

  lemma {:induction false} LogStates(start: Deployment, log: seq<Transition>, less: Collation)
    requires start == StartOf(start) && Chain(start, log, less)
    ensures Fold(start, log).state == LastState(log)
    ensures Fold(start, log).terminal == Terminal(LastState(log))
    ensures forall i | 0 <= i < |log| :: log[i].input.expectedState == LastState(log[..i]) && !Terminal(LastState(log[..i]))
  {
    hide Follows, Advance;
    if log != [] {
      var front := log[..|log| - 1];
      AcceptedStep(Fold(start, front), log[|log| - 1], less);
      LogStates(start, front, less);
      forall i | 0 <= i < |log|
        ensures log[i].input.expectedState == LastState(log[..i]) && !Terminal(LastState(log[..i]))
      {
        if i < |front| { assert log[i] == front[i] && log[..i] == front[..i]; }
      }
    }
  }

  /** In every reachable ledger sequences run 1..n without gaps, each transition starts in the state
      the last one ended in, nothing follows a terminal state, and the row shows the end. */
  lemma LogIsGapFree(ops: seq<Operation>, less: Collation, id: string)
    requires id in Reached(ops, less).deployments
    ensures var db := Reached(ops, less);
            var log := LogOf(db.transitions, id);
            && db.deployments[id].sequence == |log| && db.deployments[id].state == LastState(log)
            && db.deployments[id].terminal == Terminal(LastState(log))
            && forall i | 0 <= i < |log| ::
                 && log[i].sequence == i + 1 && log[i].input.expectedSequence == i
                 && log[i].input.expectedState == LastState(log[..i]) && !Terminal(LastState(log[..i]))
  {
    RowOf(ops, less, id);
    var db := Reached(ops, less);
    LogSequences(StartOf(db.deployments[id]), LogOf(db.transitions, id), less);
    LogStates(StartOf(db.deployments[id]), LogOf(db.transitions, id), less);
  }

  /** The guard flag fits the state at every point of every log. */
  lemma {:induction false} GuardDiscipline(start: Deployment, log: seq<Transition>, less: Collation)
    requires start == StartOf(start) && Chain(start, log, less)
    ensures FlagFits(Fold(start, log).state, Fold(start, log).armed)
  {
    if log != [] {
      GuardDiscipline(start, log[..|log| - 1], less);
      AcceptedFits(Fold(start, log[..|log| - 1]).armed, log[|log| - 1].input);
    }
  }

  lemma {:induction false} ArmedHasOrigin(start: Deployment, log: seq<Transition>, less: Collation)
    requires start == StartOf(start) && Chain(start, log, less) && Fold(start, log).armed
    ensures exists i | 0 <= i < |log| :: log[i].input.nextState == GuardArmed
  {
    if log != [] {
      var front := log[..|log| - 1];
      if Fold(start, front).armed {
        ArmedHasOrigin(start, front, less);
        var i :| 0 <= i < |front| && front[i].input.nextState == GuardArmed;
        assert log[i] == front[i];
      } else {
        AcceptedFits(false, log[|log| - 1].input);
        assert log[|log| - 1].input.nextState == GuardArmed;
      }
    }
  }

  /** The log armed the guard, and its last two transitions mark and disarm with one marker. */
  ghost predicate EndsInSuccess(log: seq<Transition>) {
    var n := |log|;
    && n >= 2
    && log[n - 1].input.nextState == Succeeded && log[n - 2].input.nextState == GuardDisarming
    && log[n - 1].input.successMarkerDigest.Some?
    && log[n - 2].input.successMarkerDigest == log[n - 1].input.successMarkerDigest
    && EvidenceRef("success.marker", log[n - 1].input.successMarkerDigest.value) in log[n - 1].input.evidence
    && EvidenceRef("success.marker", log[n - 1].input.successMarkerDigest.value) in log[n - 2].input.evidence
    && (exists i | 0 <= i < n - 2 :: log[i].input.nextState == GuardArmed)
  }

  /** The marker of the last transition is evidence of the deployment. */
  ghost predicate MarkerInLedger(db: Db, id: string, log: seq<Transition>) {
    && log != [] && log[|log| - 1].input.successMarkerDigest.Some?
    && (id, "success.marker", log[|log| - 1].input.successMarkerDigest.value) in db.evidence
  }

  lemma SuccessStep(d: Deployment, t: Transition, less: Collation)
    requires Follows(d, t, less) && t.input.nextState == Succeeded
    ensures d.state == GuardDisarming
    ensures t.input.successMarkerDigest.Some? && d.marker == t.input.successMarkerDigest
    ensures EvidenceRef("success.marker", t.input.successMarkerDigest.value) in t.input.evidence
  {
    SucceededOnlyFromDisarming(t.input.expectedState);
    FirstOfKindIsMember(t.input.evidence, "success.marker");
    hide RequiredEvidence;
  }

  lemma DisarmingStep(d: Deployment, t: Transition, less: Collation)
    requires Follows(d, t, less) && t.input.nextState == GuardDisarming
    ensures d.armed && t.input.successMarkerDigest.Some?
    ensures EvidenceRef("success.marker", t.input.successMarkerDigest.value) in t.input.evidence
  {
    FirstOfKindIsMember(t.input.evidence, "success.marker");
    hide RequiredEvidence, Allowed;
  }

  /** A log that ends by disarming armed the guard before and carries its marker. */
  ghost predicate EndsDisarming(log: seq<Transition>) {
    var n := |log|;
    && n >= 1 && log[n - 1].input.nextState == GuardDisarming && log[n - 1].input.successMarkerDigest.Some?
    && EvidenceRef("success.marker", log[n - 1].input.successMarkerDigest.value) in log[n - 1].input.evidence
    && (exists i | 0 <= i < n - 1 :: log[i].input.nextState == GuardArmed)
  }

  lemma ArmedThenDisarming(front: seq<Transition>, log: seq<Transition>)
    requires log != [] && front == log[..|log| - 1] && log[|log| - 1].input.nextState == GuardDisarming
    requires log[|log| - 1].input.successMarkerDigest.Some?
    requires var last := log[|log| - 1].input;
             EvidenceRef("success.marker", last.successMarkerDigest.value) in last.evidence
    requires exists i | 0 <= i < |front| :: front[i].input.nextState == GuardArmed
    ensures EndsDisarming(log)
  {
    var i :| 0 <= i < |front| && front[i].input.nextState == GuardArmed;
    assert log[i] == front[i];
  }

  lemma DisarmingTrail(start: Deployment, log: seq<Transition>, less: Collation)
    requires start == StartOf(start) && Chain(start, log, less)
    requires Fold(start, log).state == GuardDisarming
    ensures EndsDisarming(log) && Fold(start, log).marker == log[|log| - 1].input.successMarkerDigest
  {
    hide Follows, Advance, EndsDisarming;
    var front := log[..|log| - 1];
    var d, t := Fold(start, front), log[|log| - 1];
    AcceptedStep(d, t, less);
    DisarmingStep(d, t, less);
    ArmedHasOrigin(start, front, less);
    ArmedThenDisarming(front, log);
  }

  lemma SuccessFromDisarming(log: seq<Transition>)
    requires log != [] && EndsDisarming(log[..|log| - 1]) && log[|log| - 1].input.nextState == Succeeded
    requires log[|log| - 1].input.successMarkerDigest == log[..|log| - 1][|log| - 2].input.successMarkerDigest
    requires log[|log| - 1].input.successMarkerDigest.Some? ==>
      EvidenceRef("success.marker", log[|log| - 1].input.successMarkerDigest.value) in log[|log| - 1].input.evidence
    ensures EndsInSuccess(log)
  {
    var front := log[..|log| - 1];
    assert front[|log| - 2] == log[|log| - 2];
    var i :| 0 <= i < |front| - 1 && front[i].input.nextState == GuardArmed;
    assert log[i] == front[i];
  }

  lemma DisarmingNonEmpty(log: seq<Transition>)
    ensures EndsDisarming(log) ==> log != []
  {
  }

  lemma SuccessTrail(start: Deployment, log: seq<Transition>, less: Collation)
    requires start == StartOf(start) && Chain(start, log, less) && Fold(start, log).state == Succeeded
    ensures EndsInSuccess(log)
  {
    hide Follows, Advance, EndsInSuccess, EndsDisarming;
    var front := log[..|log| - 1];
    var d, t := Fold(start, front), log[|log| - 1];
    AcceptedStep(d, t, less);
    SuccessStep(d, t, less);
    DisarmingTrail(start, front, less);
    DisarmingNonEmpty(front);
    SuccessFromDisarming(log);
  }

  lemma {:induction false} LogMembers(log: seq<Transition>, id: string)
    ensures forall t :: t in LogOf(log, id) <==> t in log && t.input.deploymentId == id
  {
    if log != [] {
      LogMembers(log[..|log| - 1], id);
      assert log == log[..|log| - 1] + [log[|log| - 1]];
    }
  }

  /** Success provenance over all runs: a succeeded deployment entered `GuardArmed`, its last two
      transitions carry one marker digest, and that marker is evidence in the ledger. */
  lemma SuccessProvenance(ops: seq<Operation>, less: Collation, id: string)
    requires id in Reached(ops, less).deployments && Reached(ops, less).deployments[id].state == Succeeded
    ensures var db := Reached(ops, less);
            var log := LogOf(db.transitions, id);
            EndsInSuccess(log) && MarkerInLedger(db, id, log)
  {
    RowsRefineLogs(ops, less);
    hide Valid, EndsInSuccess, Reached;
    SuccessInLedger(Reached(ops, less), less, id);
  }

  lemma SuccessInLedger(db: Db, less: Collation, id: string)
    requires Valid(db, less) && id in db.deployments && db.deployments[id].state == Succeeded
    ensures var log := LogOf(db.transitions, id);
            EndsInSuccess(log) && MarkerInLedger(db, id, log)
  {
    RowIsFold(db, less, id);
    hide Valid, Chain, Fold, LogOf, EndsInSuccess, MarkerInLedger;
    SuccessTrail(StartOf(db.deployments[id]), LogOf(db.transitions, id), less);
    LastMarkerHeld(db, less, id);
  }

  lemma LastMarkerHeld(db: Db, less: Collation, id: string)
    requires Valid(db, less) && EndsInSuccess(LogOf(db.transitions, id))
    ensures MarkerInLedger(db, id, LogOf(db.transitions, id))
  {
    hide Valid, LogOf;
    var log := LogOf(db.transitions, id);
    var last := log[|log| - 1];
    LogMembers(db.transitions, id);
    assert last in log;
    EvidenceIsHeld(db, less, last, EvidenceRef("success.marker", last.input.successMarkerDigest.value));
  }

  lemma RowIsFold(db: Db, less: Collation, id: string)
    requires Valid(db, less) && id in db.deployments
    ensures var d := db.deployments[id];
            && d.request.deploymentId == id
            && Chain(StartOf(d), LogOf(db.transitions, id), less)
            && d == Fold(StartOf(d), LogOf(db.transitions, id))
  {
    assert RowFolds(db, less, id);
  }

  lemma RowOf(ops: seq<Operation>, less: Collation, id: string)
    requires id in Reached(ops, less).deployments
    ensures var db := Reached(ops, less);
            var d := db.deployments[id];
            && Valid(db, less) && d.request.deploymentId == id
            && Chain(StartOf(d), LogOf(db.transitions, id), less)
            && d == Fold(StartOf(d), LogOf(db.transitions, id))
  {
    RowsRefineLogs(ops, less);
    RowIsFold(Reached(ops, less), less, id);
  }

  lemma EvidenceIsHeld(db: Db, less: Collation, t: Transition, r: EvidenceRef)
    requires Valid(db, less) && t in db.transitions && r in t.input.evidence
    ensures (t.input.deploymentId, r.kind, r.digest) in db.evidence
  {
  }

  /** Guard discipline over all runs. */
  lemma GuardDisciplineEverywhere(ops: seq<Operation>, less: Collation, id: string)
    requires id in Reached(ops, less).deployments
    ensures var d := Reached(ops, less).deployments[id];
            && (d.state in POST_ARM ==> d.armed)
            && (d.armed && d.state in PRE_ARM_WORK ==> d.state == GuardArming)
            && (d.armed && d.terminal ==> d.state == ManualRecoveryRequired)
  {
    RowOf(ops, less, id);
    var db := Reached(ops, less);
    var log := LogOf(db.transitions, id);
    GuardDiscipline(StartOf(db.deployments[id]), log, less);
    LogStates(StartOf(db.deployments[id]), log, less);
  }

  // ---------------------------------------------------------------- tamper evidence

  /** Equal record digests mean equal creation requests and equal intents all along both logs. */
  lemma {:induction false} TamperEvident(
    a: Deployment, logA: seq<Transition>, b: Deployment, logB: seq<Transition>, less: Collation)
    requires a == StartOf(a) && b == StartOf(b) && Chain(a, logA, less) && Chain(b, logB, less)
    requires Fold(a, logA).record == Fold(b, logB).record
    ensures a == b && |logA| == |logB|
    ensures forall i | 0 <= i < |logA| :: logA[i].intent == logB[i].intent
  {
    hide CheckTransition, IntentOf;
    if logA != [] && logB != [] {
      var frontA, frontB := logA[..|logA| - 1], logB[..|logB| - 1];
      TamperEvident(a, frontA, b, frontB, less);
      forall i | 0 <= i < |logA| ensures logA[i].intent == logB[i].intent {
        if i < |frontA| { assert logA[i] == frontA[i] && logB[i] == frontB[i]; }
      }
    }
  }

  /** Two inputs have one intent exactly when they agree on every bound field and list the same
      evidence in some order. */
  lemma IntentsAgree(x: TransitionInput, y: TransitionInput, less: Collation)
    requires OrdersStrictly(less, x.evidence)
    ensures IntentOf(x, less) == IntentOf(y, less) <==>
            && multiset(x.evidence) == multiset(y.evidence)
            && y == x.(evidence := y.evidence, idempotencyKey := y.idempotencyKey,
                       signingKeyId := y.signingKeyId, signature := y.signature)
  {
    SortCanonical(less, x.evidence, y.evidence);
  }

  /** Tamper evidence between any two reachable ledgers. */
  lemma LedgersAgree(opsA: seq<Operation>, opsB: seq<Operation>, less: Collation, idA: string, idB: string)
    requires idA in Reached(opsA, less).deployments && idB in Reached(opsB, less).deployments
    requires Reached(opsA, less).deployments[idA].record == Reached(opsB, less).deployments[idB].record
    ensures var a, b := Reached(opsA, less), Reached(opsB, less);
            var logA, logB := LogOf(a.transitions, idA), LogOf(b.transitions, idB);
            && idA == idB
            && a.deployments[idA].request == b.deployments[idB].request
            && a.deployments[idA].sources == b.deployments[idB].sources
            && |logA| == |logB|
            && (forall i | 0 <= i < |logA| :: logA[i].intent == logB[i].intent)
  {
    RowOf(opsA, less, idA);
    RowOf(opsB, less, idB);
    var a, b := Reached(opsA, less), Reached(opsB, less);
    TamperEvident(StartOf(a.deployments[idA]), LogOf(a.transitions, idA),
                  StartOf(b.deployments[idB]), LogOf(b.transitions, idB), less);
  }

  // ---------------------------------------------------------------- replays

  lemma {:induction false} LogGrows(db: Db, ops: seq<Operation>, less: Collation)
    ensures db.transitions <= Run(db, ops, less).transitions
    decreases ops
  {
    if ops != [] {
      LogGrows(Step(db, ops[0], less), ops[1..], less);
    }
  }

  lemma AttemptIsUnique(log: seq<Transition>, t: Transition)
    requires AttemptsUnique(log) && t in log
    ensures PriorAttempt(log, t.input.deploymentId, t.input.idempotencyKey) == Some(t)
  {
    var id, key := t.input.deploymentId, t.input.idempotencyKey;
    PriorAttemptFinds(log, id, key);
    var found := PriorAttempt(log, id, key).value;
    var i :| 0 <= i < |log| && log[i] == t;
    var j :| 0 <= j < |log| && log[j] == found;
    AttemptsDiffer(log, i, j);
  }

  lemma AttemptsDiffer(log: seq<Transition>, i: nat, j: nat)
    requires AttemptsUnique(log) && i < |log| && j < |log|
    requires Attempted(log[i], log[j].input.deploymentId, log[j].input.idempotencyKey)
    ensures i == j
  {
    var back := Attempted(log[j], log[i].input.deploymentId, log[i].input.idempotencyKey);
  }

  predicate WellFormedInput(x: TransitionInput) {
    && x.generation > 0 && x.evidence != [] && DistinctEvidence(x.evidence)
    && (x.signatureAlgorithm.None? || x.signatureAlgorithm.value == "ed25519")
  }

  /** Replay at any distance: whatever happened since a transition was recorded, resubmitting it under
      its key changes nothing; it returns the record exactly when the intent is unchanged, and is
      refused otherwise. */
  lemma ReplayAtAnyDistance(
    ops: seq<Operation>, later: seq<Operation>, less: Collation, t: Transition, x: TransitionInput)
    requires t in Reached(ops, less).transitions && WellFormedInput(x)
    requires x.deploymentId == t.input.deploymentId && x.idempotencyKey == t.input.idempotencyKey
    ensures var db := Run(Reached(ops, less), later, less);
            ApplyTransition(db, x, less) ==
              (db, if IntentOf(x, less) == t.intent then Ok(t) else Err(IdempotencyConflict))
  {
    var db := Run(Reached(ops, less), later, less);
    RowsRefineLogs(ops, less);
    RunKeeps(Reached(ops, less), later, less);
    LogGrows(Reached(ops, less), later, less);
    assert t in db.transitions;
    AttemptIsUnique(db.transitions, t);
  }

  lemma {:induction false} LogPositions(log: seq<Transition>, id: string, t: Transition)
    requires t in log && t.input.deploymentId == id
    ensures exists k :: 0 <= k < |LogOf(log, id)| && LogOf(log, id)[k] == t
  {
    LogMembers(log, id);
  }

  /** Of all attempts on one expected sequence of a deployment, at most one is ever recorded. */
  lemma OneCommitPerSequence(ops: seq<Operation>, less: Collation, s: Transition, t: Transition)
    requires s in Reached(ops, less).transitions && t in Reached(ops, less).transitions
    requires s.input.deploymentId == t.input.deploymentId
    requires s.input.expectedSequence == t.input.expectedSequence
    ensures s == t
  {
    RowsRefineLogs(ops, less);
    var db := Reached(ops, less);
    var id := s.input.deploymentId;
    var log := LogOf(db.transitions, id);
    assert id in db.deployments;
    RowIsFold(db, less, id);
    var start := StartOf(db.deployments[id]);
    LogPositions(db.transitions, id, s);
    LogPositions(db.transitions, id, t);
    var i :| 0 <= i < |log| && log[i] == s;
    var j :| 0 <= j < |log| && log[j] == t;
    LogSequences(start, log, less);
  }
}
