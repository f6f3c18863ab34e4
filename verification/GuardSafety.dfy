/** What every run of controller actions keeps, however the actions are cut off. */
module GuardSafety {
  import opened Base
  import opened ControllerStore
  import opened Controller

  // ---------------------------------------------------------------- the invariant

  predicate Sealed(g: Guard, e: Evidence) {
    e.signer == ControllerKey && e.binding == g.binding
  }

  predicate RollbackEnding(d: Disposition) {
    d == RolledBack || d == RollbackFailed
  }

  ghost predicate GuardsSound(c: Config, s: Store) {
    forall id | id in s.guards :: s.guards[id].binding.deploymentId == id && VerifyGuard(c, s.guards[id]).Ok?
  }

  ghost predicate OneActive(s: Store) {
    forall a, b | Active(s, a) && Active(s, b) :: a == b
  }

  ghost predicate ActiveNewest(s: Store) {
    forall id, g | Active(s, id) && g in s.generations :: g <= s.guards[id].binding.generation
  }

  ghost predicate MarkersSound(c: Config, s: Store) {
    forall id | id in s.markers :: id in s.guards && MarkerValid(c, s.markers[id], s.guards[id])
  }

  ghost predicate DisarmedSound(s: Store) {
    forall id | id in s.disarmed ::
      && id in s.guards && id in s.markers && id !in s.rollback
      && Sealed(s.guards[id], s.disarmed[id]) && s.disarmed[id].disposition == Disarmed
  }

  ghost predicate RollbackSound(s: Store) {
    forall id | id in s.rollback ::
      id in s.guards && Sealed(s.guards[id], s.rollback[id]) && RollbackEnding(s.rollback[id].disposition)
  }

  ghost predicate AttemptsSound(c: Config, s: Store) {
    forall id, n | n in AttemptsOf(s, id) ::
      && id in s.rollback && s.rollback[id].disposition == RollbackFailed && id in s.guards
      && Sealed(s.guards[id], s.manual[id][n]) && RollbackEnding(s.manual[id][n].disposition)
      && n == AttemptName(s.manual[id][n], c.hex)
  }

  ghost predicate Sound(c: Config, s: Store) {
    && GuardsSound(c, s) && OneActive(s) && ActiveNewest(s) && MarkersSound(c, s)
    && DisarmedSound(s) && RollbackSound(s) && AttemptsSound(c, s)
  }

  // ---------------------------------------------------------------- single writes

  lemma ExecuteStep(w: World, x: Write, rest: seq<Write>, cut: nat, reply: Result<Status, Error>)
    ensures Execute(w, [x] + rest, cut, reply)
         == if cut == 0 then (w, Crashed)
            else match Apply(w, x)
              case None => (w, Replied(Err(IntegrityFailed)))
              case Some(next) => Execute(next, rest, cut - 1, reply)
  {
    assert ([x] + rest)[1..] == rest;
  }

  lemma AttemptsKeep(c: Config, s: Store, t: Store)
    requires AttemptsSound(c, s) && t.manual == s.manual
    requires forall id | id in s.rollback :: id in t.rollback && t.rollback[id] == s.rollback[id]
    requires forall id | id in s.guards :: id in t.guards && t.guards[id] == s.guards[id]
    ensures AttemptsSound(c, t)
  {
    forall id ensures AttemptsOf(t, id) == AttemptsOf(s, id) {}
  }

  lemma PutGuardKeeps(c: Config, s: Store, g: Guard)
    requires Sound(c, s) && VerifyGuard(c, g).Ok?
    requires forall id :: !Active(s, id)
    requires forall n | n in s.generations :: n < g.binding.generation
    requires CreateOnce(s.guards, g.binding.deploymentId, g).Some?
    ensures var t := s.(guards := s.guards[g.binding.deploymentId := g]);
            Sound(c, t) && forall id | Active(t, id) :: id == g.binding.deploymentId
  {
    var id := g.binding.deploymentId;
    var t := s.(guards := s.guards[id := g]);
    forall x | Active(t, x) ensures x == id { assert !Active(s, x); }
    AttemptsKeep(c, s, t);
    hide AttemptsSound;
  }

  lemma PutGenerationKeeps(c: Config, s: Store, g: Guard, record: GenerationRecord)
    requires Sound(c, s) && g.binding.deploymentId in s.guards && s.guards[g.binding.deploymentId] == g
    requires forall id | Active(s, id) :: id == g.binding.deploymentId
    ensures Sound(c, s.(generations := s.generations[g.binding.generation := record]))
  {
    var t := s.(generations := s.generations[g.binding.generation := record]);
    forall x ensures Active(t, x) == Active(s, x) {}
    AttemptsKeep(c, s, t);
    hide AttemptsSound;
  }

  lemma PutMarkerKeeps(c: Config, s: Store, m: Marker)
    requires Sound(c, s) && m.binding.deploymentId in s.guards
    requires MarkerValid(c, m, s.guards[m.binding.deploymentId])
    ensures Sound(c, s.(markers := s.markers[m.binding.deploymentId := m]))
  {
    var t := s.(markers := s.markers[m.binding.deploymentId := m]);
    assert OneActive(t) && ActiveNewest(t) by {
      forall x ensures Active(t, x) == Active(s, x) {}
    }
    AttemptsKeep(c, s, t);
    assert MarkersSound(c, t) by { hide MarkerValid; }
    hide AttemptsSound, OneActive, ActiveNewest, MarkersSound, MarkerValid;
  }

  lemma PutEvidenceKeeps(c: Config, s: Store, all: set<Evidence>)
    requires Sound(c, s)
    ensures Sound(c, s.(evidence := all))
  {
    var t := s.(evidence := all);
    forall x ensures Active(t, x) == Active(s, x) {}
    AttemptsKeep(c, s, t);
    hide AttemptsSound;
  }

  lemma PutDisarmedKeeps(c: Config, s: Store, id: DeploymentId, e: Evidence)
    requires Sound(c, s) && id in s.guards && id in s.markers && id !in s.rollback
    requires Sealed(s.guards[id], e) && e.disposition == Disarmed
    ensures Sound(c, s.(disarmed := s.disarmed[id := e]))
  {
    var t := s.(disarmed := s.disarmed[id := e]);
    forall x ensures Active(t, x) ==> Active(s, x) {}
    AttemptsKeep(c, s, t);
    hide AttemptsSound;
  }

  lemma PutRollbackKeeps(c: Config, s: Store, id: DeploymentId, e: Evidence)
    requires Sound(c, s) && id in s.guards && id !in s.disarmed && id !in s.rollback
    requires Sealed(s.guards[id], e) && RollbackEnding(e.disposition)
    ensures Sound(c, s.(rollback := s.rollback[id := e]))
  {
    var t := s.(rollback := s.rollback[id := e]);
    forall x ensures Active(t, x) ==> Active(s, x) {}
    AttemptsKeep(c, s, t);
    hide AttemptsSound;
  }

  lemma PutAttemptKeeps(c: Config, s: Store, id: DeploymentId, e: Evidence)
    requires Sound(c, s) && id in s.guards && id in s.rollback && s.rollback[id].disposition == RollbackFailed
    requires Sealed(s.guards[id], e) && RollbackEnding(e.disposition)
    ensures Sound(c, s.(manual := s.manual[id := AttemptsOf(s, id)[AttemptName(e, c.hex) := e]]))
  {
    var name := AttemptName(e, c.hex);
    var t := s.(manual := s.manual[id := AttemptsOf(s, id)[name := e]]);
    forall x ensures Active(t, x) == Active(s, x) {}
    forall x, n | n in AttemptsOf(t, x) && !(x == id && n == name) ensures n in AttemptsOf(s, x) {}
  }

  // ---------------------------------------------------------------- evidence

  /** Evidence that ends nothing touches only the evidence records. */
  lemma RecordOnly(w: World, e: Evidence, cut: nat, reply: Result<Status, Error>)
    requires e.disposition != Disarmed && !RollbackEnding(e.disposition)
    ensures var (end, o) := Execute(w, EvidenceWrites(e), cut, reply);
            end == w.(store := w.store.(evidence := end.store.evidence)) && (o.Replied? ==> o.reply == reply)
  {
    ExecuteStep(w, PutEvidence(e), [], cut, reply);
    assert EvidenceWrites(e) == [PutEvidence(e)] + [];
  }

  /** Evidence that ends the guard is cut before its terminal record or writes it. */
  lemma RecordRollback(w: World, e: Evidence, cut: nat, reply: Result<Status, Error>)
    requires RollbackEnding(e.disposition) && e.binding.deploymentId !in w.store.rollback
    ensures var (end, o) := Execute(w, EvidenceWrites(e), cut, reply);
            var noted := w.store.(evidence := end.store.evidence);
            && end.restored == w.restored
            && end.store == (if cut < 2 then noted
                             else noted.(rollback := w.store.rollback[e.binding.deploymentId := e]))
            && o == if cut < 2 then Crashed else Replied(reply)
  {
    ExecuteStep(w, PutEvidence(e), [PutRollback(e)], cut, reply);
    if cut > 0 {
      var next := Apply(w, PutEvidence(e)).value;
      ExecuteStep(next, PutRollback(e), [], cut - 1, reply);
      assert [PutRollback(e)] + [] == [PutRollback(e)];
    }
  }

  lemma RecordDisarm(w: World, e: Evidence, cut: nat, reply: Result<Status, Error>)
    requires e.disposition == Disarmed && e.binding.deploymentId !in w.store.disarmed
    ensures var (end, o) := Execute(w, EvidenceWrites(e), cut, reply);
            var noted := w.store.(evidence := end.store.evidence);
            && end.restored == w.restored
            && end.store == (if cut < 2 then noted
                             else noted.(disarmed := w.store.disarmed[e.binding.deploymentId := e]))
            && o == if cut < 2 then Crashed else Replied(reply)
  {
    ExecuteStep(w, PutEvidence(e), [PutDisarmed(e)], cut, reply);
    if cut > 0 {
      var next := Apply(w, PutEvidence(e)).value;
      ExecuteStep(next, PutDisarmed(e), [], cut - 1, reply);
      assert [PutDisarmed(e)] + [] == [PutDisarmed(e)];
    }
  }

  // ---------------------------------------------------------------- the actions keep the invariant

  /** In a sound store the checks of stored records never fail. */
  lemma StoredRecordsVerify(c: Config, s: Store, id: DeploymentId)
    requires Sound(c, s)
    ensures LoadGuard(c, s, id) == if id in s.guards then Ok(s.guards[id]) else Err(NotFound)
    ensures ReadVerifiedTerminal(c, s, id) == Ok(ReadTerminal(s, id))
    ensures ReadTerminal(s, id).None? <==> id !in s.disarmed && id !in s.rollback
    ensures id in s.guards ==>
              LoadValidMarker(c, s, s.guards[id]) == if id in s.markers then Some(s.markers[id]) else None
    ensures ReadTerminal(s, id).Some? && ReadTerminal(s, id).value.disposition == RollbackFailed ==>
              id in s.rollback && s.rollback[id].disposition == RollbackFailed
  {
    var attempts := AttemptsOf(s, id);
    if LastAttempt(attempts).Some? {
      AttemptFound(attempts);
      var n :| n in attempts && attempts[n] == LastAttempt(attempts).value;
      assert Sealed(s.guards[id], s.manual[id][n]);
    }
  }

  lemma AttemptFound(attempts: map<string, Evidence>)
    ensures LastAttempt(attempts).Some? ==> exists n :: n in attempts && attempts[n] == LastAttempt(attempts).value
    ensures LastAttempt(attempts).None? <==> attempts == map[]
  {
    var names := HostTree.SortedNames(attempts.Keys);
    if names != [] {
      assert names[|names| - 1] in names;
    } else {
      assert attempts.Keys == {};
    }
  }

  /** When arming writes anything, no guard is active and the generation is new. */
  lemma ArmPlanned(c: Config, s: Store, g: Guard, now: Millis, actual: Pointers)
    requires ArmPlan(c, s, g, now, actual).writes != []
    ensures VerifyGuard(c, g).Ok? && forall id :: !Active(s, id)
    ensures forall n | n in s.generations :: n < g.binding.generation
    ensures g.deadline > now && actual == g.expected
    ensures var e := EvidenceFor(g, Armed, AboutGuard(g, actual), now);
            ArmPlan(c, s, g, now, actual)
              == Plan([PutGuard(g)] + ([PutGeneration(g)] + EvidenceWrites(e)), Ok(Status(g, Armed, Some(e))))
  {
    var e := EvidenceFor(g, Armed, AboutGuard(g, actual), now);
    Associate([PutGuard(g)], [PutGeneration(g)], EvidenceWrites(e));
    assert [PutGuard(g), PutGeneration(g)] == [PutGuard(g)] + [PutGeneration(g)];
  }

  lemma ArmWritesKeep(c: Config, w: World, g: Guard, e: Evidence, cut: nat, reply: Result<Status, Error>)
    requires Sound(c, w.store) && e.disposition == Armed
    requires VerifyGuard(c, g).Ok? && forall id :: !Active(w.store, id)
    requires forall n | n in w.store.generations :: n < g.binding.generation
    ensures Sound(c, Execute(w, [PutGuard(g)] + ([PutGeneration(g)] + EvidenceWrites(e)), cut, reply).0.store)
  {
    hide Sound, EvidenceWrites;
    var id := g.binding.deploymentId;
    ExecuteStep(w, PutGuard(g), [PutGeneration(g)] + EvidenceWrites(e), cut, reply);
    if cut > 0 && CreateOnce(w.store.guards, id, g).Some? {
      PutGuardKeeps(c, w.store, g);
      var w1 := Apply(w, PutGuard(g)).value;
      assert w1.store == w.store.(guards := w.store.guards[id := g]);
      ArmTailKeeps(c, w1, g, e, cut - 1, reply);
    }
  }

  lemma ArmKeeps(c: Config, w: World, g: Guard, now: Millis, actual: Pointers, cut: nat)
    requires Sound(c, w.store)
    ensures Sound(c, Perform(c, w, Call(Arm(g, actual), now, cut)).0.store)
  {
    var plan := ArmPlan(c, w.store, g, now, actual);
    if plan.writes != [] {
      ArmPlanned(c, w.store, g, now, actual);
      hide Sound, ArmPlan, EvidenceWrites;
      ArmWritesKeep(c, w, g, EvidenceFor(g, Armed, AboutGuard(g, actual), now), cut, plan.reply);
    }
  }

  lemma ArmTailKeeps(c: Config, w: World, g: Guard, e: Evidence, cut: nat, reply: Result<Status, Error>)
    requires Sound(c, w.store) && e.disposition == Armed
    requires g.binding.deploymentId in w.store.guards && w.store.guards[g.binding.deploymentId] == g
    requires forall id | Active(w.store, id) :: id == g.binding.deploymentId
    ensures Sound(c, Execute(w, [PutGeneration(g)] + EvidenceWrites(e), cut, reply).0.store)
  {
    ExecuteStep(w, PutGeneration(g), EvidenceWrites(e), cut, reply);
    var next := Apply(w, PutGeneration(g));
    if cut > 0 && next.Some? {
      PutGenerationKeeps(c, w.store, g, next.value.store.generations[g.binding.generation]);
      RecordOnly(next.value, e, cut - 1, reply);
      PutEvidenceKeeps(c, next.value.store, Execute(next.value, EvidenceWrites(e), cut - 1, reply).0.store.evidence);
    }
  }

  lemma CommitKeeps(c: Config, w: World, m: Marker, now: Millis, cut: nat)
    requires Sound(c, w.store)
    ensures Sound(c, Perform(c, w, Call(CommitSuccess(m), now, cut)).0.store)
  {
    var plan := CommitPlan(c, w.store, m, now);
    if plan.writes != [] && cut > 0 {
      var g := w.store.guards[m.binding.deploymentId];
      var e := EvidenceFor(g, SuccessMarkerValid, AboutMarker(m), now);
      ExecuteStep(w, PutMarker(m), EvidenceWrites(e), cut, plan.reply);
      var next := Apply(w, PutMarker(m));
      if next.Some? {
        PutMarkerKeeps(c, w.store, m);
        assert next.value.store == w.store.(markers := w.store.markers[m.binding.deploymentId := m]);
        RecordOnly(next.value, e, cut - 1, plan.reply);
        PutEvidenceKeeps(c, next.value.store, Execute(next.value, EvidenceWrites(e), cut - 1, plan.reply).0.store.evidence);
      }
    }
  }

  lemma RecordKeeps(c: Config, w: World, g: Guard, e: Evidence, cut: nat, reply: Result<Status, Error>)
    requires Sound(c, w.store) && g.binding.deploymentId in w.store.guards
    requires w.store.guards[g.binding.deploymentId] == g && Sealed(g, e)
    requires RollbackEnding(e.disposition) || e.disposition == Disarmed ==>
      g.binding.deploymentId !in w.store.rollback && g.binding.deploymentId !in w.store.disarmed
    requires e.disposition == Disarmed ==> g.binding.deploymentId in w.store.markers
    ensures Sound(c, Execute(w, EvidenceWrites(e), cut, reply).0.store)
  {
    var end := Execute(w, EvidenceWrites(e), cut, reply).0;
    PutEvidenceKeeps(c, w.store, end.store.evidence);
    var noted := w.store.(evidence := end.store.evidence);
    var id := g.binding.deploymentId;
    if RollbackEnding(e.disposition) {
      RecordRollback(w, e, cut, reply);
      PutRollbackKeeps(c, noted, id, e);
    } else if e.disposition == Disarmed {
      RecordDisarm(w, e, cut, reply);
      PutDisarmedKeeps(c, noted, id, e);
    } else {
      RecordOnly(w, e, cut, reply);
    }
  }

  lemma DisarmKeeps(c: Config, w: World, id: DeploymentId, now: Millis, cut: nat)
    requires Sound(c, w.store)
    ensures Sound(c, Perform(c, w, Call(Disarm(id), now, cut)).0.store)
  {
    StoredRecordsVerify(c, w.store, id);
    var plan := DisarmPlan(c, w.store, id, now);
    if plan.writes != [] {
      var g := w.store.guards[id];
      RecordKeeps(c, w, g, EvidenceFor(g, Disarmed, AboutDisarm(w.store.markers[id], g), now), cut, plan.reply);
    }
  }

  /** What an evaluation of a sound store plans. */
  lemma EvaluateCases(c: Config, s: Store, id: DeploymentId, now: Millis, r: RestoreReport)
    requires Sound(c, s) && id in s.guards
    ensures var g := s.guards[id];
            var plan := EvaluatePlan(c, s, id, now, r);
            if g.binding.generation < Latest(s) then
              plan == Record(g, EvidenceFor(g, StaleGeneration, AboutStale(Latest(s)), now))
            else if id in s.disarmed || id in s.rollback then
              && ReadTerminal(s, id).Some?
              && plan == Reply(g, ReadTerminal(s, id).value.disposition, ReadTerminal(s, id))
            else if id in s.markers then
              plan == Record(g, EvidenceFor(g, SuccessMarkerValid, AboutMarker(s.markers[id]), now))
            else if now < g.deadline then
              plan == Record(g, EvidenceFor(g, Pending, AboutPending(g.deadline, false), now))
            else
              var e := EvidenceFor(g, RestoredAs(r), AboutRestore(r.report), now);
              plan == RestorePlan(g, false, e, EvidenceWrites(e))
  {
    StoredRecordsVerify(c, s, id);
  }

  lemma EvaluateKeeps(c: Config, w: World, id: DeploymentId, now: Millis, r: RestoreReport, cut: nat)
    requires Sound(c, w.store)
    ensures Sound(c, Perform(c, w, Call(Evaluate(id, r), now, cut)).0.store)
  {
    var plan := EvaluatePlan(c, w.store, id, now, r);
    if id !in w.store.guards {
      assert plan == Refuse(NotFound);
    } else {
      EvaluateCases(c, w.store, id, now, r);
      hide EvaluatePlan;
      var g := w.store.guards[id];
      if plan.writes != [] {
        var e := plan.reply.value.evidence.value;
        assert g.binding.deploymentId == id;
        if plan.writes[0].RestoreHost? {
          RestoreAndRecordKeeps(c, w, g, e, cut, plan.reply);
        } else {
          RecordKeeps(c, w, g, e, cut, plan.reply);
        }
      }
    }
  }

  lemma RestoreAndRecordKeeps(c: Config, w: World, g: Guard, e: Evidence, cut: nat, reply: Result<Status, Error>)
    requires Sound(c, w.store) && Active(w.store, g.binding.deploymentId)
    requires w.store.guards[g.binding.deploymentId] == g && Sealed(g, e) && RollbackEnding(e.disposition)
    ensures Sound(c, Execute(w, [RestoreHost(g.binding.deploymentId, false)] + EvidenceWrites(e), cut, reply).0.store)
  {
    hide Sound;
    var restore := RestoreHost(g.binding.deploymentId, false);
    ExecuteStep(w, restore, EvidenceWrites(e), cut, reply);
    if cut > 0 {
      RecordKeeps(c, Apply(w, restore).value, g, e, cut - 1, reply);
    }
  }

  lemma RecoverKeeps(
    c: Config, w: World, id: DeploymentId, digest: string, reason: string, ok: bool, r: RestoreReport,
    now: Millis, cut: nat)
    requires Sound(c, w.store)
    ensures Sound(c, Perform(c, w, Call(ManualRecover(id, digest, reason, ok, r), now, cut)).0.store)
  {
    StoredRecordsVerify(c, w.store, id);
    var plan := RecoverPlan(c, w.store, id, digest, reason, ok, now, r);
    if plan.writes != [] {
      RecoverPlanned(c, w.store, id, digest, reason, ok, r, now);
      var g, e := w.store.guards[id], plan.reply.value.evidence.value;
      var name := AttemptName(e, c.hex);
      assert g.binding.deploymentId == id;
      RecoverEffect(w, id, name, e, cut, plan.reply);
      var end := Perform(c, w, Call(ManualRecover(id, digest, reason, ok, r), now, cut)).0;
      PutEvidenceKeeps(c, w.store, end.store.evidence);
      PutAttemptKeeps(c, w.store.(evidence := end.store.evidence), id, e);
    }
  }

  /** What an accepted manual recovery plans. */
  lemma RecoverPlanned(
    c: Config, s: Store, id: DeploymentId, digest: string, reason: string, ok: bool, r: RestoreReport, now: Millis)
    requires Sound(c, s) && RecoverPlan(c, s, id, digest, reason, ok, now, r).writes != []
    ensures id in s.guards && ReadTerminal(s, id).Some?
    ensures ReadTerminal(s, id).value.disposition == RollbackFailed
    ensures id in s.rollback && s.rollback[id].disposition == RollbackFailed
    ensures var e := EvidenceFor(s.guards[id], RestoredAs(r), AboutRecovery(r.report, reason, ReadTerminal(s, id).value), now);
            RecoverPlan(c, s, id, digest, reason, ok, now, r)
              == RestorePlan(s.guards[id], true, e, [PutEvidence(e), PutAttempt(AttemptName(e, c.hex), e)])
  {
    StoredRecordsVerify(c, s, id);
  }

  /** A recorded restoration: the host first, then the attempt. */
  lemma RecoverEffect(w: World, id: DeploymentId, name: string, e: Evidence, cut: nat, reply: Result<Status, Error>)
    requires e.binding.deploymentId == id
    ensures var end := Execute(w, [RestoreHost(id, true)] + [PutEvidence(e), PutAttempt(name, e)], cut, reply).0;
            var noted := w.store.(evidence := end.store.evidence);
            && (|| end.store == noted
                || end.store == noted.(manual := w.store.manual[id := AttemptsOf(w.store, id)[name := e]]))
            && end.restored == (if cut == 0 then w.restored else w.restored + [Restoration(id, true)])
  {
    var put := PutAttempt(name, e);
    ExecuteStep(w, RestoreHost(id, true), [PutEvidence(e), put], cut, reply);
    if cut > 0 {
      var w1 := Apply(w, RestoreHost(id, true)).value;
      ExecuteStep(w1, PutEvidence(e), [put], cut - 1, reply);
      assert [PutEvidence(e)] + [put] == [PutEvidence(e), put];
      if cut > 1 {
        var w2 := Apply(w1, PutEvidence(e)).value;
        ExecuteStep(w2, put, [], cut - 2, reply);
        assert [put] + [] == [put];
      }
    }
  }

  lemma PerformKeeps(c: Config, w: World, call: Call)
    requires Sound(c, w.store)
    ensures Sound(c, Perform(c, w, call).0.store)
  {
    match call.action
    case Arm(g, actual) => ArmKeeps(c, w, g, call.now, actual, call.cut);
    case CommitSuccess(m) => CommitKeeps(c, w, m, call.now, call.cut);
    case Disarm(id) => DisarmKeeps(c, w, id, call.now, call.cut);
    case Evaluate(id, r) => EvaluateKeeps(c, w, id, call.now, r, call.cut);
    case ManualRecover(id, d, reason, ok, r) => RecoverKeeps(c, w, id, d, reason, ok, r, call.now, call.cut);
  }

  lemma {:induction false} RunKeeps(c: Config, w: World, calls: seq<Call>)
    requires Sound(c, w.store)
    ensures Sound(c, Run(c, w, calls).store)
    decreases calls
  {
    hide Sound;
    if calls != [] {
      PerformKeeps(c, w, calls[0]);
      RunKeeps(c, Perform(c, w, calls[0]).0, calls[1..]);
    }
  }

  ghost function Reached(c: Config, calls: seq<Call>): World {
    Run(c, World(EMPTY_STORE, []), calls)
  }

  lemma ReachedSound(c: Config, calls: seq<Call>)
    ensures Sound(c, Reached(c, calls).store)
  {
    assert forall id :: AttemptsOf(EMPTY_STORE, id) == map[];
    RunKeeps(c, World(EMPTY_STORE, []), calls);
  }
}
