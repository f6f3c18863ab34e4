/** When a manual recovery restores the host, in every sound store, and the run that restores after a
    completed restoration. */
module ManualRecovery {
  import opened Base
  import opened Order
  import opened ControllerStore
  import opened Controller
  import opened GuardSafety
  import opened GuardTheorems
  import HostTree

  // ---------------------------------------------------------------- the order of attempts

  /** The order of attempt files: by time, and at one time by the text of the digest. */
  predicate Earlier(a: Evidence, b: Evidence, hex: Evidence -> string) {
    a.occurredAt < b.occurredAt || (a.occurredAt == b.occurredAt && TextLess(hex(a), hex(b)))
  }

  lemma NamesCompare(a: Evidence, b: Evidence, hex: Evidence -> string)
    ensures TextLess(AttemptName(a, hex), AttemptName(b, hex)) <==> Earlier(a, b, hex)
  {
    DatesFit();
    NameParts(a, hex);
    NameParts(b, hex);
    PadOrder(a.occurredAt, b.occurredAt, 16);
    PadInjective(a.occurredAt, b.occurredAt, 16);
    TextLessOnPrefix(Pad(a.occurredAt, 16), Pad(b.occurredAt, 16), "-" + hex(a), "-" + hex(b));
    TextLessOnPrefix("-", "-", hex(a), hex(b));
    TextIrreflexive("-");
  }

  lemma LastIsGreatest(attempts: map<string, Evidence>)
    requires attempts != map[]
    ensures exists last :: last in attempts && LastAttempt(attempts) == Some(attempts[last])
              && forall n | n in attempts && n != last :: TextLess(n, last)
  {
    AttemptFound(attempts);
    var names := HostTree.SortedNames(attempts.Keys);
    var last := names[|names| - 1];
    assert last in names;
    forall n | n in attempts && n != last ensures TextLess(n, last) {
      assert n in names;
      var i :| 0 <= i < |names| && names[i] == n;
    }
  }

  /** Some failed attempt lies after every completed one. */
  predicate FailedLast(attempts: map<string, Evidence>, hex: Evidence -> string) {
    exists f :: f in attempts && attempts[f].disposition == RollbackFailed
      && forall d | d in attempts && attempts[d].disposition == RolledBack :: Earlier(attempts[d], attempts[f], hex)
  }

  /** The attempt that is read as the ending is a failed one exactly when some failed attempt lies after
      every completed one. */
  lemma EndingFailedExactlyWhen(attempts: map<string, Evidence>, hex: Evidence -> string)
    requires attempts != map[]
    requires forall n | n in attempts :: n == AttemptName(attempts[n], hex) && RollbackEnding(attempts[n].disposition)
    ensures LastAttempt(attempts).Some?
    ensures LastAttempt(attempts).value.disposition == RollbackFailed <==> FailedLast(attempts, hex)
  {
    LastIsGreatest(attempts);
    var last :| last in attempts && LastAttempt(attempts) == Some(attempts[last])
                && forall n | n in attempts && n != last :: TextLess(n, last);
    if attempts[last].disposition == RollbackFailed {
      forall d | d in attempts && attempts[d].disposition == RolledBack ensures Earlier(attempts[d], attempts[last], hex) {
        NamesCompare(attempts[d], attempts[last], hex);
      }
    } else if f :| f in attempts && attempts[f].disposition == RollbackFailed
                   && forall d | d in attempts && attempts[d].disposition == RolledBack :: Earlier(attempts[d], attempts[f], hex) {
      NamesCompare(attempts[last], attempts[f], hex);
      TextTransitive(f, last, f);
      TextIrreflexive(f);
    }
  }

  // ---------------------------------------------------------------- the exact condition

  /** The store lets a manual recovery of `id` through: its rollback failed, and so did every attempt or
      some attempt after every completed one. */
  predicate MayRecover(s: Store, id: DeploymentId, hex: Evidence -> string) {
    && id in s.rollback && s.rollback[id].disposition == RollbackFailed
    && (AttemptsOf(s, id) == map[] || FailedLast(AttemptsOf(s, id), hex))
  }

  lemma TerminalFailedExactlyWhen(c: Config, s: Store, id: DeploymentId)
    requires Sound(c, s)
    ensures (ReadTerminal(s, id).Some? && ReadTerminal(s, id).value.disposition == RollbackFailed) <==> MayRecover(s, id, c.hex)
  {
    StoredRecordsVerify(c, s, id);
    var attempts := AttemptsOf(s, id);
    AttemptFound(attempts);
    if attempts != map[] {
      AttemptsFollowFailure(c, s, id);
      forall n | n in attempts ensures n == AttemptName(attempts[n], c.hex) && RollbackEnding(attempts[n].disposition) {
        assert n in AttemptsOf(s, id);
      }
      EndingFailedExactlyWhen(attempts, c.hex);
    }
  }

  /** In every sound store a manual recovery restores the host exactly when it names the guard's snapshot
      and a valid reason, the recorded rollback failed, and no completed attempt lies after, by time and
      then digest, all failed ones. Otherwise it touches nothing. */
  lemma RecoveryRestoresExactlyWhen(
    c: Config, w: World, id: DeploymentId, digest: string, reason: string, ok: bool, r: RestoreReport, now: Millis, cut: nat)
    requires Sound(c, w.store)
    ensures var end := Perform(c, w, Call(ManualRecover(id, digest, reason, ok, r), now, cut)).0;
            var through := ok && id in w.store.guards && w.store.guards[id].binding.snapshotDigest == digest
                           && MayRecover(w.store, id, c.hex);
            && (through && cut > 0 ==> end.restored == w.restored + [Restoration(id, true)])
            && (!through || cut == 0 ==> end == w)
  {
    StoredRecordsVerify(c, w.store, id);
    TerminalFailedExactlyWhen(c, w.store, id);
    var plan := RecoverPlan(c, w.store, id, digest, reason, ok, now, r);
    if plan.writes != [] {
      RecoverPlanned(c, w.store, id, digest, reason, ok, r, now);
      var e := plan.reply.value.evidence.value;
      hide Sound, MayRecover;
      RecoverEffect(w, id, AttemptName(e, c.hex), e, cut, plan.reply);
    }
  }

  /** So after a completed attempt another recovery is let through exactly when a failed attempt lies
      after every completed one, by a clock that stepped back or by a greater digest at one time. */
  lemma RecoveryAfterCompletion(
    c: Config, w: World, id: DeploymentId, done: string, reason: string, r: RestoreReport, now: Millis, cut: nat)
    requires Sound(c, w.store) && done in AttemptsOf(w.store, id) && AttemptsOf(w.store, id)[done].disposition == RolledBack
    requires cut > 0
    ensures id in w.store.guards
    ensures var digest := w.store.guards[id].binding.snapshotDigest;
            var end := Perform(c, w, Call(ManualRecover(id, digest, reason, true, r), now, cut)).0;
            RestorationsOf(end, id) == RestorationsOf(w, id) + (if FailedLast(AttemptsOf(w.store, id), c.hex) then 1 else 0)
  {
    AttemptsFollowFailure(c, w.store, id);
    assert AttemptsOf(w.store, id) != map[];
    assert id in w.store.guards by { assert AttemptsSound(c, w.store); }
    RecoveryRestoresExactlyWhen(c, w, id, w.store.guards[id].binding.snapshotDigest, reason, true, r, now, cut);
  }

  // ---------------------------------------------------------------- the run that restores too often

  const FAIL := RestoreReport(false, "")
  const DONE := RestoreReport(true, "")

  function FailedRollback(g: Guard): Evidence {
    EvidenceFor(g, RollbackFailed, AboutRestore(""), g.deadline)
  }

  function FailedAttempt(g: Guard, reason: string, at: Millis): Evidence {
    EvidenceFor(g, RollbackFailed, AboutRecovery("", reason, FailedRollback(g)), at)
  }

  function CompletedAttempt(g: Guard, reason: string, failedAt: Millis, at: Millis): Evidence {
    EvidenceFor(g, RolledBack, AboutRecovery("", reason, FailedAttempt(g, reason, failedAt)), at)
  }

  lemma ArmWhole(c: Config, g: Guard)
    requires VerifyGuard(c, g).Ok? && g.deadline > 0
    ensures var end := Perform(c, World(EMPTY_STORE, []), Call(Arm(g, g.expected), 0, 3)).0;
            && end.restored == [] && Active(end.store, g.binding.deploymentId)
            && end.store.guards[g.binding.deploymentId] == g
            && end.store.markers == map[] && end.store.manual == map[]
  {
    var w := World(EMPTY_STORE, []);
    var plan := ArmPlan(c, EMPTY_STORE, g, 0, g.expected);
    assert IsLatest({}, Latest(EMPTY_STORE));
    ArmPlanned(c, EMPTY_STORE, g, 0, g.expected);
    var e := EvidenceFor(g, Armed, AboutGuard(g, g.expected), 0);
    ExecuteStep(w, PutGuard(g), [PutGeneration(g)] + EvidenceWrites(e), 3, plan.reply);
    var w1 := Apply(w, PutGuard(g)).value;
    ExecuteStep(w1, PutGeneration(g), EvidenceWrites(e), 2, plan.reply);
    RecordOnly(Apply(w1, PutGeneration(g)).value, e, 1, plan.reply);
  }

  /** An accepted recovery with enough steps adds exactly its attempt. */
  lemma RecoverWhole(c: Config, w: World, id: DeploymentId, digest: string, reason: string, r: RestoreReport, now: Millis)
    requires Sound(c, w.store) && id in w.store.guards && w.store.guards[id].binding.snapshotDigest == digest
    requires ReadTerminal(w.store, id).Some? && ReadTerminal(w.store, id).value.disposition == RollbackFailed
    ensures var e := EvidenceFor(w.store.guards[id], RestoredAs(r), AboutRecovery(r.report, reason, ReadTerminal(w.store, id).value), now);
            AttemptName(e, c.hex) !in AttemptsOf(w.store, id) ==>
              var end := Perform(c, w, Call(ManualRecover(id, digest, reason, true, r), now, 3)).0;
              && AttemptAdded(w.store, end.store, id, e, c.hex) && end.store.guards == w.store.guards
              && end.restored == w.restored + [Restoration(id, true)]
  {
    StoredRecordsVerify(c, w.store, id);
    assert w.store.guards[id].binding.deploymentId == id by { assert GuardsSound(c, w.store); }
    var plan := RecoverPlan(c, w.store, id, digest, reason, true, now, r);
    var e := EvidenceFor(w.store.guards[id], RestoredAs(r), AboutRecovery(r.report, reason, ReadTerminal(w.store, id).value), now);
    hide Sound, LoadGuard, ReadVerifiedTerminal, ReadTerminal, Execute;
    assert plan.writes == [RestoreHost(id, true)] + [PutEvidence(e), PutAttempt(AttemptName(e, c.hex), e)];
    if AttemptName(e, c.hex) !in AttemptsOf(w.store, id) {
      AttemptRecorded(w, id, AttemptName(e, c.hex), e, plan.reply);
    }
  }

  lemma AttemptRecorded(w: World, id: DeploymentId, name: string, e: Evidence, reply: Result<Status, Error>)
    requires e.binding.deploymentId == id && name !in AttemptsOf(w.store, id)
    ensures var end := Execute(w, [RestoreHost(id, true)] + [PutEvidence(e), PutAttempt(name, e)], 3, reply).0;
            && end.store.manual == w.store.manual[id := AttemptsOf(w.store, id)[name := e]]
            && end.store.guards == w.store.guards && end.restored == w.restored + [Restoration(id, true)]
  {
    var put := PutAttempt(name, e);
    ExecuteStep(w, RestoreHost(id, true), [PutEvidence(e), put], 3, reply);
    var w1 := Apply(w, RestoreHost(id, true)).value;
    assert [PutEvidence(e)] + [put] == [PutEvidence(e), put] && [put] + [] == [put];
    ExecuteStep(w1, PutEvidence(e), [put], 2, reply);
    ExecuteStep(Apply(w1, PutEvidence(e)).value, put, [], 1, reply);
  }

  /** From the empty store: an armed guard, an overdue evaluation whose restoration fails, a recovery
      that fails at `failedAt` and one that completes at `doneAt`. Then another recovery restores the
      host again exactly when the completed attempt is not the later one. */
  lemma RestoredAgainAfterCompletion(
    c: Config, g: Guard, reason: string, failedAt: Millis, doneAt: Millis, now: Millis, r: RestoreReport)
    requires VerifyGuard(c, g).Ok? && g.deadline > 0
    requires var failed, done := FailedAttempt(g, reason, failedAt), CompletedAttempt(g, reason, failedAt, doneAt);
             failedAt != doneAt || c.hex(failed) != c.hex(done)
    ensures var id := g.binding.deploymentId;
            var w := Reached(c, [Call(Arm(g, g.expected), 0, 3), Call(Evaluate(id, FAIL), g.deadline, 3),
                                 RecoverCall(g, reason, FAIL, failedAt)] + [RecoverCall(g, reason, DONE, doneAt)]);
            var end := Perform(c, w, RecoverCall(g, reason, r, now)).0;
            && Completed(w.store, id) && RestorationsOf(w, id) == 3
            && (RestorationsOf(end, id) == 4 <==>
                  Earlier(CompletedAttempt(g, reason, failedAt, doneAt), FailedAttempt(g, reason, failedAt), c.hex))
            && (RestorationsOf(end, id) == 3 || RestorationsOf(end, id) == 4)
  {
    var a, b := RecoverCall(g, reason, FAIL, failedAt), RecoverCall(g, reason, DONE, doneAt);
    var failed, done := FailedAttempt(g, reason, failedAt), CompletedAttempt(g, reason, failedAt, doneAt);
    RunTo(c, g, a, b);
    FirstAttempt(c, g, reason, failedAt);
    hide Perform, Reached, UntilFailure, AfterFailure, AfterBoth, Completed, RestorationsOf;
    var w := Perform(c, UntilFailure(c, g), a).0;
    SecondAttempt(c, w, g, reason, failedAt, doneAt);
    ThenAgain(c, Perform(c, w, b).0, g, reason, failed, done, now, r);
  }

  function RecoverCall(g: Guard, reason: string, r: RestoreReport, at: Millis): Call {
    Call(ManualRecover(g.binding.deploymentId, g.binding.snapshotDigest, reason, true, r), at, 3)
  }

  /** The world after the failed recovery. */
  ghost predicate AfterFailure(c: Config, w: World, g: Guard, failed: Evidence) {
    var id := g.binding.deploymentId;
    && Sound(c, w.store) && id in w.store.guards && w.store.guards[id] == g
    && AttemptsOf(w.store, id) == map[AttemptName(failed, c.hex) := failed]
    && ReadTerminal(w.store, id) == Some(failed)
    && w.restored == [Restoration(id, false), Restoration(id, true)]
  }

  /** The world after the failed and the completed recovery. */
  ghost predicate AfterBoth(c: Config, w: World, g: Guard, failed: Evidence, done: Evidence) {
    var id := g.binding.deploymentId;
    && Sound(c, w.store) && id in w.store.guards && w.store.guards[id] == g
    && AttemptName(failed, c.hex) != AttemptName(done, c.hex)
    && AttemptsOf(w.store, id) == map[AttemptName(failed, c.hex) := failed, AttemptName(done, c.hex) := done]
    && w.restored == [Restoration(id, false), Restoration(id, true)] + [Restoration(id, true)]
  }

  lemma FirstAttempt(c: Config, g: Guard, reason: string, at: Millis)
    requires VerifyGuard(c, g).Ok? && g.deadline > 0
    ensures AfterFailure(c, Perform(c, UntilFailure(c, g), RecoverCall(g, reason, FAIL, at)).0, g, FailedAttempt(g, reason, at))
  {
    var id, failed := g.binding.deploymentId, FailedAttempt(g, reason, at);
    var w := UntilFailure(c, g);
    RecoverWhole(c, w, id, g.binding.snapshotDigest, reason, FAIL, at);
    PerformKeeps(c, w, RecoverCall(g, reason, FAIL, at));
    hide Perform, Sound, UntilFailure;
    OnlyAttempt(AttemptName(failed, c.hex), failed);
  }

  lemma SecondAttempt(c: Config, w: World, g: Guard, reason: string, failedAt: Millis, doneAt: Millis)
    requires AfterFailure(c, w, g, FailedAttempt(g, reason, failedAt))
    requires var failed, done := FailedAttempt(g, reason, failedAt), CompletedAttempt(g, reason, failedAt, doneAt);
             failedAt != doneAt || c.hex(failed) != c.hex(done)
    ensures AfterBoth(c, Perform(c, w, RecoverCall(g, reason, DONE, doneAt)).0, g,
                      FailedAttempt(g, reason, failedAt), CompletedAttempt(g, reason, failedAt, doneAt))
  {
    NamesDiffer(FailedAttempt(g, reason, failedAt), CompletedAttempt(g, reason, failedAt, doneAt), c.hex);
    hide Perform, Sound, ReadTerminal, AttemptName;
    RecoverWhole(c, w, g.binding.deploymentId, g.binding.snapshotDigest, reason, DONE, doneAt);
    PerformKeeps(c, w, RecoverCall(g, reason, DONE, doneAt));
  }

  lemma ThenAgain(
    c: Config, w: World, g: Guard, reason: string, failed: Evidence, done: Evidence, now: Millis, r: RestoreReport)
    requires AfterBoth(c, w, g, failed, done)
    requires failed.disposition == RollbackFailed && done.disposition == RolledBack
    ensures var id := g.binding.deploymentId;
            var end := Perform(c, w, RecoverCall(g, reason, r, now)).0;
            && Completed(w.store, id) && RestorationsOf(w, id) == 3
            && (RestorationsOf(end, id) == 4 <==> Earlier(done, failed, c.hex))
            && (RestorationsOf(end, id) == 3 || RestorationsOf(end, id) == 4)
  {
    hide Perform, Sound;
    var id := g.binding.deploymentId;
    var attempts := AttemptsOf(w.store, id);
    assert attempts[AttemptName(done, c.hex)] == done && attempts[AttemptName(failed, c.hex)] == failed;
    RecoveryAfterCompletion(c, w, id, AttemptName(done, c.hex), reason, r, now, 3);
  }

  lemma NamesDiffer(a: Evidence, b: Evidence, hex: Evidence -> string)
    requires a.occurredAt != b.occurredAt || hex(a) != hex(b)
    ensures AttemptName(a, hex) != AttemptName(b, hex)
  {
    NamesCompare(a, b, hex);
    NamesCompare(b, a, hex);
    TextIrreflexive(AttemptName(a, hex));
    if a.occurredAt == b.occurredAt { TextConnected(hex(a), hex(b)); }
  }

  lemma OnlyAttempt(n: string, e: Evidence)
    ensures LastAttempt(map[n := e]) == Some(e)
  {
    assert n in map[n := e];
    LastIsGreatest(map[n := e]);
  }

  /** The world after the failed rollback. */
  ghost function UntilFailure(c: Config, g: Guard): (w: World)
    requires VerifyGuard(c, g).Ok? && g.deadline > 0
    ensures var id := g.binding.deploymentId;
            && w == Reached(c, [Call(Arm(g, g.expected), 0, 3), Call(Evaluate(id, FAIL), g.deadline, 3)])
            && Sound(c, w.store) && id in w.store.guards && w.store.guards[id] == g
            && id in w.store.rollback && w.store.rollback[id] == FailedRollback(g)
            && ReadTerminal(w.store, id) == Some(FailedRollback(g))
            && AttemptsOf(w.store, id) == map[] && w.restored == [Restoration(id, false)]
  {
    var id := g.binding.deploymentId;
    var arm, evaluate := Call(Arm(g, g.expected), 0, 3), Call(Evaluate(id, FAIL), g.deadline, 3);
    var w1 := Perform(c, World(EMPTY_STORE, []), arm).0;
    assert Perform(c, w1, evaluate).0 == Reached(c, [arm, evaluate]) by {
      RunFirst(c, World(EMPTY_STORE, []), arm, [evaluate]);
      RunFirst(c, w1, evaluate, []);
      assert [arm] + [evaluate] == [arm, evaluate] && [evaluate] + [] == [evaluate];
    }
    FailureRecorded(c, g);
    Perform(c, w1, evaluate).0
  }

  lemma FailureRecorded(c: Config, g: Guard)
    requires VerifyGuard(c, g).Ok? && g.deadline > 0
    ensures var id := g.binding.deploymentId;
            var w := Perform(c, Perform(c, World(EMPTY_STORE, []), Call(Arm(g, g.expected), 0, 3)).0,
                             Call(Evaluate(id, FAIL), g.deadline, 3)).0;
            && Sound(c, w.store) && id in w.store.guards && w.store.guards[id] == g
            && id in w.store.rollback && w.store.rollback[id] == FailedRollback(g)
            && ReadTerminal(w.store, id) == Some(FailedRollback(g))
            && AttemptsOf(w.store, id) == map[] && w.restored == [Restoration(id, false)]
  {
    var id := g.binding.deploymentId;
    var arm, evaluate := Call(Arm(g, g.expected), 0, 3), Call(Evaluate(id, FAIL), g.deadline, 3);
    ArmWhole(c, g);
    assert Sound(c, EMPTY_STORE) by { ReachedSound(c, []); }
    PerformKeeps(c, World(EMPTY_STORE, []), arm);
    var w1 := Perform(c, World(EMPTY_STORE, []), arm).0;
    PerformKeeps(c, w1, evaluate);
    EvaluateCases(c, w1.store, id, g.deadline, FAIL);
    assert ActiveNewest(w1.store) && IsLatest(w1.store.generations.Keys, Latest(w1.store));
    var e := FailedRollback(g);
    var plan := EvaluatePlan(c, w1.store, id, g.deadline, FAIL);
    hide Sound;
    ExecuteStep(w1, RestoreHost(id, false), EvidenceWrites(e), 3, plan.reply);
    RecordRollback(Apply(w1, RestoreHost(id, false)).value, e, 2, plan.reply);
    AttemptFound(map[]);
  }

  lemma RunTo(c: Config, g: Guard, a: Call, b: Call)
    requires VerifyGuard(c, g).Ok? && g.deadline > 0
    ensures var id := g.binding.deploymentId;
            Reached(c, [Call(Arm(g, g.expected), 0, 3), Call(Evaluate(id, FAIL), g.deadline, 3), a] + [b])
              == Perform(c, Perform(c, UntilFailure(c, g), a).0, b).0
  {
    var id := g.binding.deploymentId;
    var x, y := Call(Arm(g, g.expected), 0, 3), Call(Evaluate(id, FAIL), g.deadline, 3);
    var w := World(EMPTY_STORE, []);
    var w1 := Perform(c, w, x).0;
    var w2 := Perform(c, w1, y).0;
    assert [x, y, a] + [b] == [x] + [y, a, b] && [x, y] == [x] + [y] && [y] + [] == [y];
    RunFirst(c, w, x, [y]);
    RunFirst(c, w1, y, []);
    RunFirst(c, w, x, [y, a, b]);
    ThreeCalls(c, w1, y, a, b);
  }
}
