/** Safety and progress of the deployment guard over all runs: no guard is stranded, endings are
    exclusive and final, and restorations are bounded. */
module GuardTheorems {
  import opened Base
  import opened Order
  import opened ControllerStore
  import opened Controller
  import opened GuardSafety
  import HostTree

  // ---------------------------------------------------------------- records only accumulate

  ghost predicate Within<K, V>(m: map<K, V>, n: map<K, V>) {
    forall k | k in m :: k in n && n[k] == m[k]
  }

  ghost predicate Grows(s: Store, t: Store) {
    && Within(s.guards, t.guards) && Within(s.generations, t.generations) && Within(s.markers, t.markers)
    && Within(s.disarmed, t.disarmed) && Within(s.rollback, t.rollback)
    && (forall id :: Within(AttemptsOf(s, id), AttemptsOf(t, id)))
  }

  lemma WriteGrows(w: World, x: Write)
    ensures Apply(w, x).Some? ==> Grows(w.store, Apply(w, x).value.store)
  {
  }

  lemma {:induction false} ExecuteGrows(w: World, writes: seq<Write>, cut: nat, reply: Result<Status, Error>)
    ensures Grows(w.store, Execute(w, writes, cut, reply).0.store)
    decreases writes
  {
    if writes != [] && cut > 0 {
      WriteGrows(w, writes[0]);
      hide Apply;
      if Apply(w, writes[0]).Some? {
        ExecuteGrows(Apply(w, writes[0]).value, writes[1..], cut - 1, reply);
      }
    }
  }

  /** No run removes or changes a guard, generation, marker, ending or attempt. */
  lemma {:induction false} RunGrows(c: Config, w: World, calls: seq<Call>)
    ensures Grows(w.store, Run(c, w, calls).store)
    decreases calls
  {
    if calls != [] {
      var plan := PlanOf(c, w.store, calls[0].action, calls[0].now);
      ExecuteGrows(w, plan.writes, calls[0].cut, plan.reply);
      RunGrows(c, Perform(c, w, calls[0]).0, calls[1..]);
    }
  }

  /** A deployment ends in one way: once it is disarmed or rolled back, no later run gives it the
      other ending or changes the record. */
  lemma EndingsAreExclusiveAndFinal(c: Config, calls: seq<Call>, more: seq<Call>, id: DeploymentId)
    ensures var s := Reached(c, calls).store;
            var t := Run(c, Reached(c, calls), more).store;
            && (id in s.disarmed ==> id in t.disarmed && t.disarmed[id] == s.disarmed[id] && id !in t.rollback)
            && (id in s.rollback ==> id in t.rollback && t.rollback[id] == s.rollback[id] && id !in t.disarmed)
  {
    ReachedSound(c, calls);
    RunKeeps(c, Reached(c, calls), more);
    RunGrows(c, Reached(c, calls), more);
  }

  // ---------------------------------------------------------------- no stranded guard

  /** In every reachable store at most one guard is active, and no recorded generation is newer. */
  lemma ActiveGuardIsNewest(c: Config, calls: seq<Call>)
    ensures var s := Reached(c, calls).store;
            && (forall a, b | Active(s, a) && Active(s, b) :: a == b)
            && (forall id | Active(s, id) :: Latest(s) <= s.guards[id].binding.generation)
  {
    ReachedSound(c, calls);
    var s := Reached(c, calls).store;
    forall id | Active(s, id) ensures Latest(s) <= s.guards[id].binding.generation {
      assert IsLatest(s.generations.Keys, Latest(s));
    }
  }

  /** What an overdue evaluation of an active guard without a marker does, wherever it is cut. */
  lemma OverdueEvaluation(c: Config, w: World, id: DeploymentId, now: Millis, r: RestoreReport, cut: nat)
    requires Sound(c, w.store) && Active(w.store, id) && id !in w.store.markers
    requires now >= w.store.guards[id].deadline
    ensures var (end, o) := Perform(c, w, Call(Evaluate(id, r), now, cut));
            && end.restored == (if cut == 0 then w.restored else w.restored + [Restoration(id, false)])
            && (cut < 3 ==> o == Crashed && end.store == w.store.(evidence := end.store.evidence))
            && (cut >= 3 ==>
                  && o.Replied? && o.reply.Ok? && o.reply.value.disposition == RestoredAs(r)
                  && id in end.store.rollback && end.store.rollback[id].disposition == RestoredAs(r)
                  && end.store.rollback == w.store.rollback[id := end.store.rollback[id]]
                  && o.reply.value.evidence == Some(end.store.rollback[id]))
  {
    EvaluateCases(c, w.store, id, now, r);
    assert IsLatest(w.store.generations.Keys, Latest(w.store));
    var plan := EvaluatePlan(c, w.store, id, now, r);
    var e := plan.reply.value.evidence.value;
    ExecuteStep(w, RestoreHost(id, false), EvidenceWrites(e), cut, plan.reply);
    if cut > 0 {
      RecordRollback(Apply(w, RestoreHost(id, false)).value, e, cut - 1, plan.reply);
    }
  }

  /** No guard is stranded: in every reachable store an active guard whose deadline has passed is
      ended by one uncut action, a rollback without a success marker and a disarm with one. */
  lemma NoStrandedGuard(c: Config, calls: seq<Call>, id: DeploymentId, now: Millis, r: RestoreReport, cut: nat)
    requires Active(Reached(c, calls).store, id) && cut >= 3
    ensures var w := Reached(c, calls);
            && (id !in w.store.markers && now >= w.store.guards[id].deadline ==>
                  id in Perform(c, w, Call(Evaluate(id, r), now, cut)).0.store.rollback)
            && (id in w.store.markers ==>
                  id in Perform(c, w, Call(Disarm(id), now, cut)).0.store.disarmed)
  {
    var w := Reached(c, calls);
    ReachedSound(c, calls);
    if id in w.store.markers {
      StoredRecordsVerify(c, w.store, id);
      var g := w.store.guards[id];
      var e := EvidenceFor(g, Disarmed, AboutDisarm(w.store.markers[id], g), now);
      RecordDisarm(w, e, cut, Ok(Status(g, Disarmed, Some(e))));
    } else if now >= w.store.guards[id].deadline {
      OverdueEvaluation(c, w, id, now, r, cut);
    }
  }

  /** The read-only status tells the truth in every reachable store: it shows an ending exactly when the
      guard is no longer active, of the kind that was recorded, and a valid marker exactly when one is
      stored on an active guard. */
  lemma StatusIsTruthful(c: Config, calls: seq<Call>, id: DeploymentId)
    requires id in Reached(c, calls).store.guards
    ensures var s := Reached(c, calls).store;
            var r := ReadStatus(c, s, id);
            && r.Ok? && r.value.guard == s.guards[id]
            && (r.value.disposition == Armed <==> Active(s, id) && id !in s.markers)
            && (r.value.disposition == SuccessMarkerValid <==> Active(s, id) && id in s.markers)
            && (r.value.disposition == Disarmed <==> id in s.disarmed)
            && (RollbackEnding(r.value.disposition) <==> id in s.rollback)
  {
    ReachedSound(c, calls);
    var s := Reached(c, calls).store;
    StoredRecordsVerify(c, s, id);
    var attempts := AttemptsOf(s, id);
    if LastAttempt(attempts).Some? {
      AttemptFound(attempts);
      var n :| n in attempts && attempts[n] == LastAttempt(attempts).value;
      assert RollbackEnding(s.manual[id][n].disposition);
    }
  }

  // ---------------------------------------------------------------- restorations by evaluate

  lemma WriteKeepsRestored(w: World, x: Write)
    requires !x.RestoreHost?
    ensures Apply(w, x).Some? ==> Apply(w, x).value.restored == w.restored
  {
  }

  lemma {:induction false} NoRestoreWritten(w: World, writes: seq<Write>, cut: nat, reply: Result<Status, Error>)
    requires forall x | x in writes :: !x.RestoreHost?
    ensures Execute(w, writes, cut, reply).0.restored == w.restored
    decreases writes
  {
    if writes != [] && cut > 0 {
      assert writes[0] in writes;
      WriteKeepsRestored(w, writes[0]);
      hide Apply;
      if Apply(w, writes[0]).Some? {
        NoRestoreWritten(Apply(w, writes[0]).value, writes[1..], cut - 1, reply);
      }
    }
  }

  lemma EvaluateRestores(c: Config, w: World, id: DeploymentId, now: Millis, r: RestoreReport, cut: nat)
    requires Sound(c, w.store)
    ensures var end := Perform(c, w, Call(Evaluate(id, r), now, cut)).0;
            || end.restored == w.restored
            || (&& cut > 0 && end.restored == w.restored + [Restoration(id, false)]
                && Active(w.store, id) && id !in w.store.markers && now >= w.store.guards[id].deadline)
  {
    var plan := EvaluatePlan(c, w.store, id, now, r);
    StoredRecordsVerify(c, w.store, id);
    if id in w.store.guards {
      EvaluateCases(c, w.store, id, now, r);
      if Active(w.store, id) && id !in w.store.markers && now >= w.store.guards[id].deadline {
        OverdueEvaluation(c, w, id, now, r, cut);
      } else {
        NoRestoreWritten(w, plan.writes, cut, plan.reply);
      }
    }
  }

  lemma RecoverRestores(
    c: Config, w: World, id: DeploymentId, digest: string, reason: string, ok: bool, r: RestoreReport,
    now: Millis, cut: nat)
    requires Sound(c, w.store)
    ensures var end := Perform(c, w, Call(ManualRecover(id, digest, reason, ok, r), now, cut)).0;
            || end.restored == w.restored
            || (&& end.restored == w.restored + [Restoration(id, true)]
                && ReadTerminal(w.store, id).Some?
                && ReadTerminal(w.store, id).value.disposition == RollbackFailed)
  {
    var plan := RecoverPlan(c, w.store, id, digest, reason, ok, now, r);
    if plan.writes != [] {
      RecoverPlanned(c, w.store, id, digest, reason, ok, r, now);
      var e := plan.reply.value.evidence.value;
      RecoverEffect(w, id, AttemptName(e, c.hex), e, cut, plan.reply);
    }
  }

  /** Which calls restore the host, and when. */
  lemma WhoRestores(c: Config, w: World, call: Call)
    requires Sound(c, w.store)
    ensures var end := Perform(c, w, call).0;
            var s := w.store;
            || end.restored == w.restored
            || (&& call.action.Evaluate? && call.cut > 0
                && end.restored == w.restored + [Restoration(call.action.id, false)]
                && Active(s, call.action.id) && call.action.id !in s.markers
                && call.now >= s.guards[call.action.id].deadline)
            || (&& call.action.ManualRecover?
                && end.restored == w.restored + [Restoration(call.action.id, true)]
                && ReadTerminal(s, call.action.id).Some?
                && ReadTerminal(s, call.action.id).value.disposition == RollbackFailed)
  {
    match call.action
    case Evaluate(id, r) => EvaluateRestores(c, w, id, call.now, r, call.cut);
    case ManualRecover(id, d, reason, ok, r) => RecoverRestores(c, w, id, d, reason, ok, r, call.now, call.cut);
    case Arm(_, _) => OthersDoNotRestore(c, w, call);
    case CommitSuccess(_) => OthersDoNotRestore(c, w, call);
    case Disarm(_) => OthersDoNotRestore(c, w, call);
  }

  lemma OthersDoNotRestore(c: Config, w: World, call: Call)
    requires !call.action.Evaluate? && !call.action.ManualRecover?
    ensures Perform(c, w, call).0.restored == w.restored
  {
    var plan := PlanOf(c, w.store, call.action, call.now);
    NoRestoreWritten(w, plan.writes, call.cut, plan.reply);
  }

  /** How often `evaluate` restored the host for `id`. */
  function Rollbacks(w: World, id: DeploymentId): nat {
    multiset(w.restored)[Restoration(id, false)]
  }

  /** The call restores the host for `id` and dies before the rollback is recorded. */
  ghost predicate DiesInRestore(w: World, call: Call, id: DeploymentId) {
    && call.action.Evaluate? && call.action.id == id && 1 <= call.cut < 3
    && Active(w.store, id) && id !in w.store.markers && w.store.guards[id].deadline <= call.now
  }

  /** How many calls of a run die so. */
  ghost function Deaths(c: Config, w: World, calls: seq<Call>, id: DeploymentId): nat
    decreases calls
  {
    if calls == [] then 0
    else (if DiesInRestore(w, calls[0], id) then 1 else 0) + Deaths(c, Perform(c, w, calls[0]).0, calls[1..], id)
  }

  /** The rollback record of `id` appeared between the two stores. */
  ghost predicate Recorded(s: Store, t: Store, id: DeploymentId) {
    id in t.rollback && id !in s.rollback
  }

  lemma WriteKeepsRollback(w: World, x: Write)
    requires !x.PutRollback?
    ensures Apply(w, x).Some? ==> Apply(w, x).value.store.rollback == w.store.rollback
  {
  }

  lemma {:induction false} NoRollbackWritten(w: World, writes: seq<Write>, cut: nat, reply: Result<Status, Error>)
    requires forall x | x in writes :: !x.PutRollback?
    ensures Execute(w, writes, cut, reply).0.store.rollback == w.store.rollback
    decreases writes
  {
    if writes != [] && cut > 0 {
      assert writes[0] in writes;
      WriteKeepsRollback(w, writes[0]);
      hide Apply;
      if Apply(w, writes[0]).Some? {
        NoRollbackWritten(Apply(w, writes[0]).value, writes[1..], cut - 1, reply);
      }
    }
  }

  lemma EvaluateRecords(c: Config, w: World, call: Call)
    requires Sound(c, w.store) && call.action.Evaluate?
    requires var id := call.action.id;
             !(Active(w.store, id) && id !in w.store.markers && call.now >= w.store.guards[id].deadline)
    ensures var end := Perform(c, w, call).0;
            end.store.rollback == w.store.rollback && end.restored == w.restored
  {
    var id, r := call.action.id, call.action.restore;
    var plan := EvaluatePlan(c, w.store, id, call.now, r);
    if id in w.store.guards { EvaluateCases(c, w.store, id, call.now, r); } else { assert plan == Refuse(NotFound); }
    hide Sound, EvaluatePlan;
    NoRollbackWritten(w, plan.writes, call.cut, plan.reply);
    NoRestoreWritten(w, plan.writes, call.cut, plan.reply);
  }

  lemma OthersDoNotRecord(c: Config, w: World, call: Call)
    requires !call.action.Evaluate?
    ensures Perform(c, w, call).0.store.rollback == w.store.rollback
  {
    var plan := PlanOf(c, w.store, call.action, call.now);
    NoRollbackWritten(w, plan.writes, call.cut, plan.reply);
  }

  /** One call: each restoration is recorded, or the call dies in it. */
  lemma PerformCounts(c: Config, w: World, call: Call, id: DeploymentId)
    requires Sound(c, w.store)
    ensures var end := Perform(c, w, call).0;
            Rollbacks(end, id) == Rollbacks(w, id) + (if DiesInRestore(w, call, id) then 1 else 0)
                                  + (if Recorded(w.store, end.store, id) then 1 else 0)
  {
    if call.action.Evaluate? {
      var of := call.action.id;
      if Active(w.store, of) && of !in w.store.markers && call.now >= w.store.guards[of].deadline {
        OverdueEvaluation(c, w, of, call.now, call.action.restore, call.cut);
      } else {
        EvaluateRecords(c, w, call);
      }
    } else {
      OthersDoNotRecord(c, w, call);
      WhoRestores(c, w, call);
    }
  }

  /** Exactly how often a run lets evaluation restore a deployment: once for each call that dies between
      the restoration and its record, and once if the run records the rollback. */
  lemma {:induction false} RestorationsAreCounted(c: Config, w: World, calls: seq<Call>, id: DeploymentId)
    requires Sound(c, w.store)
    ensures var end := Run(c, w, calls);
            Rollbacks(end, id) == Rollbacks(w, id) + Deaths(c, w, calls, id)
                                  + (if Recorded(w.store, end.store, id) then 1 else 0)
    decreases calls
  {
    if calls != [] {
      var next := Perform(c, w, calls[0]).0;
      var plan := PlanOf(c, w.store, calls[0].action, calls[0].now);
      hide Sound, DiesInRestore;
      PerformKeeps(c, w, calls[0]);
      PerformCounts(c, w, calls[0], id);
      ExecuteGrows(w, plan.writes, calls[0].cut, plan.reply);
      RestorationsAreCounted(c, next, calls[1..], id);
      RunGrows(c, next, calls[1..]);
    }
  }

  /** From the empty store a deployment is rolled back by evaluation at most once if and only if the
      evaluations of it that died before their record and the recorded rollback are one at most. */
  lemma RolledBackAtMostOnce(c: Config, calls: seq<Call>, id: DeploymentId)
    ensures var w := Reached(c, calls);
            var deaths := Deaths(c, World(EMPTY_STORE, []), calls, id);
            Rollbacks(w, id) <= 1 <==> deaths == 0 || (deaths == 1 && id !in w.store.rollback)
  {
    var start := World(EMPTY_STORE, []);
    assert Sound(c, EMPTY_STORE) by { ReachedSound(c, []); }
    assert Rollbacks(start, id) == 0;
    RestorationsAreCounted(c, start, calls, id);
  }

  /** Such a death leaves the guard active, and the next evaluation restores the host once more. */
  lemma CrashInRestoreRepeatsIt(
    c: Config, w: World, id: DeploymentId, now: Millis, later: Millis, r: RestoreReport, again: RestoreReport, cut: nat)
    requires Sound(c, w.store) && Active(w.store, id) && id !in w.store.markers
    requires w.store.guards[id].deadline <= now <= later && 1 <= cut < 3
    ensures var crashed := Perform(c, w, Call(Evaluate(id, r), now, cut)).0;
            && Active(crashed.store, id)
            && Rollbacks(Perform(c, crashed, Call(Evaluate(id, again), later, 3)).0, id) == Rollbacks(w, id) + 2
  {
    OverdueEvaluation(c, w, id, now, r, cut);
    var crashed := Perform(c, w, Call(Evaluate(id, r), now, cut)).0;
    PutEvidenceKeeps(c, w.store, crashed.store.evidence);
    OverdueEvaluation(c, crashed, id, later, again, 3);
  }

  /** Once a success marker is stored, or the deployment has ended, evaluation never restores it. */
  lemma {:induction false} NoRollbackAfterMarkerOrEnding(c: Config, w: World, calls: seq<Call>, id: DeploymentId)
    requires Sound(c, w.store)
    requires id in w.store.markers || id in w.store.disarmed || id in w.store.rollback
    ensures Rollbacks(Run(c, w, calls), id) == Rollbacks(w, id)
    decreases calls
  {
    if calls != [] {
      hide Sound;
      PerformKeeps(c, w, calls[0]);
      NoRollbackInOneCall(c, w, calls[0], id);
      NoRollbackAfterMarkerOrEnding(c, Perform(c, w, calls[0]).0, calls[1..], id);
    }
  }

  lemma NoRollbackInOneCall(c: Config, w: World, call: Call, id: DeploymentId)
    requires Sound(c, w.store)
    requires id in w.store.markers || id in w.store.disarmed || id in w.store.rollback
    ensures var next := Perform(c, w, call).0;
            && Rollbacks(next, id) == Rollbacks(w, id)
            && (id in next.store.markers || id in next.store.disarmed || id in next.store.rollback)
  {
    WhoRestores(c, w, call);
    hide Sound;
    var plan := PlanOf(c, w.store, call.action, call.now);
    ExecuteGrows(w, plan.writes, call.cut, plan.reply);
  }

  // ---------------------------------------------------------------- manual recovery

  /** With equal times apart, the attempt listed last is the latest one. */
  lemma LatestAttemptIsListedLast(attempts: map<string, Evidence>, n: string, hex: Evidence -> string)
    requires n in attempts && forall m | m in attempts :: m == AttemptName(attempts[m], hex)
    requires forall m | m in attempts && m != n :: attempts[m].occurredAt < attempts[n].occurredAt
    ensures LastAttempt(attempts) == Some(attempts[n])
  {
    var names := HostTree.SortedNames(attempts.Keys);
    assert n in names;
    var i :| 0 <= i < |names| && names[i] == n;
    var last := names[|names| - 1];
    assert last in names;
    if last != n {
      DatesFit();
      PadOrder(attempts[last].occurredAt, attempts[n].occurredAt, 16);
      TextLessOnPrefix(Pad(attempts[last].occurredAt, 16), Pad(attempts[n].occurredAt, 16),
                       "-" + hex(attempts[last]), "-" + hex(attempts[n]));
      NameParts(attempts[last], hex);
      NameParts(attempts[n], hex);
      TextTransitive(n, last, n);
      TextIrreflexive(n);
    }
  }

  lemma NameParts(e: Evidence, hex: Evidence -> string)
    requires e.occurredAt < Power10(16)
    ensures AttemptName(e, hex) == Pad(e.occurredAt, 16) + ("-" + hex(e))
  {
  }

  /** Attempts lie before `t`, and one that completed is later than all others. */
  ghost predicate Timely(s: Store, t: nat) {
    && (forall id, n | n in AttemptsOf(s, id) :: AttemptsOf(s, id)[n].occurredAt < t)
    && (forall id, m, n | n in AttemptsOf(s, id) && m in AttemptsOf(s, id) && m != n ::
          AttemptsOf(s, id)[n].disposition == RolledBack ==>
            AttemptsOf(s, id)[m].occurredAt < AttemptsOf(s, id)[n].occurredAt)
  }

  /** A restoration of the deployment was recorded as complete. */
  ghost predicate Completed(s: Store, id: DeploymentId) {
    || (id in s.rollback && s.rollback[id].disposition == RolledBack)
    || (exists n :: n in AttemptsOf(s, id) && AttemptsOf(s, id)[n].disposition == RolledBack)
  }

  lemma CompletedIsTerminal(c: Config, s: Store, t: nat, id: DeploymentId)
    requires Sound(c, s) && Timely(s, t) && Completed(s, id)
    ensures ReadTerminal(s, id).Some? && ReadTerminal(s, id).value.disposition == RolledBack
    ensures id in s.rollback
  {
    var attempts := AttemptsOf(s, id);
    if n :| n in attempts && attempts[n].disposition == RolledBack {
      LatestAttemptIsListedLast(attempts, n, c.hex);
    } else {
      AttemptFound(attempts);
      AttemptsFollowFailure(c, s, id);
    }
  }

  lemma AttemptsFollowFailure(c: Config, s: Store, id: DeploymentId)
    requires Sound(c, s)
    ensures AttemptsOf(s, id) != map[] ==> id in s.rollback && s.rollback[id].disposition == RollbackFailed
  {
    if AttemptsOf(s, id) != map[] {
      var n :| n in AttemptsOf(s, id);
    }
  }

  lemma WriteKeepsAttempts(w: World, x: Write)
    requires !x.PutAttempt?
    ensures Apply(w, x).Some? ==> Apply(w, x).value.store.manual == w.store.manual
  {
  }

  lemma {:induction false} NoAttemptWritten(
    w: World, writes: seq<Write>, cut: nat, reply: Result<Status, Error>)
    requires forall x | x in writes :: !x.PutAttempt?
    ensures Execute(w, writes, cut, reply).0.store.manual == w.store.manual
    decreases writes
  {
    if writes != [] && cut > 0 {
      assert writes[0] in writes;
      WriteKeepsAttempts(w, writes[0]);
      hide Apply;
      if Apply(w, writes[0]).Some? {
        NoAttemptWritten(Apply(w, writes[0]).value, writes[1..], cut - 1, reply);
      }
    }
  }

  /** The attempts after `e` was added to those of `id`. */
  ghost predicate AttemptAdded(s: Store, t: Store, id: DeploymentId, e: Evidence, hex: Evidence -> string) {
    t.manual == s.manual[id := AttemptsOf(s, id)[AttemptName(e, hex) := e]]
  }

  /** Only an accepted manual recovery adds an attempt, at its own time, to a failed rollback. */
  lemma WhoAttempts(c: Config, w: World, call: Call)
    requires Sound(c, w.store)
    ensures var t := Perform(c, w, call).0.store;
            || t.manual == w.store.manual
            || (&& call.action.ManualRecover? && ReadTerminal(w.store, call.action.id).Some?
                && ReadTerminal(w.store, call.action.id).value.disposition == RollbackFailed
                && exists e: Evidence ::
                     e.occurredAt == call.now && AttemptAdded(w.store, t, call.action.id, e, c.hex))
  {
    match call.action
    case ManualRecover(id, digest, reason, ok, r) => AttemptEffect(c, w, id, digest, reason, ok, r, call.now, call.cut);
    case Evaluate(_, _) => OthersDoNotAttempt(c, w, call);
    case Arm(_, _) => OthersDoNotAttempt(c, w, call);
    case CommitSuccess(_) => OthersDoNotAttempt(c, w, call);
    case Disarm(_) => OthersDoNotAttempt(c, w, call);
  }

  lemma OthersDoNotAttempt(c: Config, w: World, call: Call)
    requires !call.action.ManualRecover?
    ensures Perform(c, w, call).0.store.manual == w.store.manual
  {
    hide LoadGuard, ReadVerifiedTerminal, LoadValidMarker, Latest;
    var plan := PlanOf(c, w.store, call.action, call.now);
    NoAttemptWritten(w, plan.writes, call.cut, plan.reply);
  }

  lemma AttemptEffect(
    c: Config, w: World, id: DeploymentId, digest: string, reason: string, ok: bool, r: RestoreReport,
    now: Millis, cut: nat)
    requires Sound(c, w.store)
    ensures var t := Perform(c, w, Call(ManualRecover(id, digest, reason, ok, r), now, cut)).0.store;
            || t.manual == w.store.manual
            || (&& ReadTerminal(w.store, id).Some?
                && ReadTerminal(w.store, id).value.disposition == RollbackFailed
                && exists e: Evidence :: e.occurredAt == now && AttemptAdded(w.store, t, id, e, c.hex))
  {
    var plan := RecoverPlan(c, w.store, id, digest, reason, ok, now, r);
    var t := Perform(c, w, Call(ManualRecover(id, digest, reason, ok, r), now, cut)).0.store;
    if plan.writes != [] {
      RecoverPlanned(c, w.store, id, digest, reason, ok, r, now);
      var e := plan.reply.value.evidence.value;
      RecoverEffect(w, id, AttemptName(e, c.hex), e, cut, plan.reply);
      assert t.manual == w.store.manual || AttemptAdded(w.store, t, id, e, c.hex);
    }
  }

  lemma TimelyLater(s: Store, t: nat, u: nat)
    requires Timely(s, t) && t <= u
    ensures Timely(s, u)
  {
  }

  lemma PerformKeepsTimely(c: Config, w: World, call: Call)
    requires Sound(c, w.store) && Timely(w.store, call.now)
    ensures Timely(Perform(c, w, call).0.store, call.now + 1)
  {
    WhoAttempts(c, w, call);
    var s, t := w.store, Perform(c, w, call).0.store;
    if t.manual == s.manual {
      assert forall id :: AttemptsOf(t, id) == AttemptsOf(s, id);
    } else {
      var id := call.action.id;
      var e: Evidence :| e.occurredAt == call.now && AttemptAdded(s, t, id, e, c.hex);
      forall n | n in AttemptsOf(s, id) ensures AttemptsOf(s, id)[n].disposition != RolledBack {
        if AttemptsOf(s, id)[n].disposition == RolledBack {
          assert Completed(s, id);
          CompletedIsTerminal(c, s, call.now, id);
        }
      }
      AddedIsTimely(s, t, id, e, c.hex);
    }
  }

  lemma AddedIsTimely(s: Store, t: Store, id: DeploymentId, e: Evidence, hex: Evidence -> string)
    requires Timely(s, e.occurredAt) && AttemptAdded(s, t, id, e, hex)
    requires forall n | n in AttemptsOf(s, id) :: AttemptsOf(s, id)[n].disposition != RolledBack
    ensures Timely(t, e.occurredAt + 1)
  {
    assert AttemptsOf(t, id) == AttemptsOf(s, id)[AttemptName(e, hex) := e];
    forall x | x != id ensures AttemptsOf(t, x) == AttemptsOf(s, x) {}
  }

  /** Every call happens later than the one before it, and not before `t`. */
  predicate StrictClock(calls: seq<Call>, t: nat) {
    calls == [] || (calls[0].now >= t && StrictClock(calls[1..], calls[0].now + 1))
  }

  /** The restorations of the host for `id`, by evaluation or by hand. */
  function RestorationsOf(w: World, id: DeploymentId): nat {
    multiset(w.restored)[Restoration(id, false)] + multiset(w.restored)[Restoration(id, true)]
  }

  lemma CompletedStays(c: Config, w: World, call: Call, id: DeploymentId)
    requires Sound(c, w.store) && Timely(w.store, call.now) && Completed(w.store, id)
    ensures Completed(Perform(c, w, call).0.store, id)
    ensures RestorationsOf(Perform(c, w, call).0, id) == RestorationsOf(w, id)
  {
    CompletedIsTerminal(c, w.store, call.now, id);
    WhoRestores(c, w, call);
    var plan := PlanOf(c, w.store, call.action, call.now);
    ExecuteGrows(w, plan.writes, call.cut, plan.reply);
    var t := Perform(c, w, call).0.store;
    assert Within(AttemptsOf(w.store, id), AttemptsOf(t, id));
  }

  lemma {:induction false} RunAfterCompletion(c: Config, w: World, calls: seq<Call>, id: DeploymentId, t: nat)
    requires Sound(c, w.store) && Timely(w.store, t) && Completed(w.store, id) && StrictClock(calls, t)
    ensures RestorationsOf(Run(c, w, calls), id) == RestorationsOf(w, id)
    decreases calls
  {
    if calls != [] {
      hide Sound, Timely, Completed;
      TimelyLater(w.store, t, calls[0].now);
      CompletedStays(c, w, calls[0], id);
      PerformKeeps(c, w, calls[0]);
      PerformKeepsTimely(c, w, calls[0]);
      RunAfterCompletion(c, Perform(c, w, calls[0]).0, calls[1..], id, calls[0].now + 1);
    }
  }

  /** While the clock strictly increases, a deployment whose restoration was recorded complete, by
      evaluation or by hand, is never restored again. */
  lemma {:induction false} NoRestorationAfterCompletion(
    c: Config, w: World, calls: seq<Call>, k: nat, id: DeploymentId, t: nat)
    requires Sound(c, w.store) && Timely(w.store, t) && StrictClock(calls, t) && k <= |calls|
    requires Completed(Run(c, w, calls[..k]).store, id)
    ensures RestorationsOf(Run(c, w, calls), id) == RestorationsOf(Run(c, w, calls[..k]), id)
    decreases k
  {
    hide Sound, Timely, Completed;
    if k == 0 {
      RunAfterCompletion(c, w, calls, id, t);
    } else {
      TimelyLater(w.store, t, calls[0].now);
      PerformKeeps(c, w, calls[0]);
      PerformKeepsTimely(c, w, calls[0]);
      assert calls[..k][1..] == calls[1..][..k - 1];
      NoRestorationAfterCompletion(c, Perform(c, w, calls[0]).0, calls[1..], k - 1, id, calls[0].now + 1);
    }
  }

  lemma NoRestorationAfterCompletionFromStart(c: Config, calls: seq<Call>, k: nat, id: DeploymentId)
    requires StrictClock(calls, 0) && k <= |calls| && Completed(Reached(c, calls[..k]).store, id)
    ensures RestorationsOf(Reached(c, calls), id) == RestorationsOf(Reached(c, calls[..k]), id)
  {
    assert Sound(c, EMPTY_STORE) by { ReachedSound(c, []); }
    assert Timely(EMPTY_STORE, 0);
    NoRestorationAfterCompletion(c, World(EMPTY_STORE, []), calls, k, id, 0);
  }

  /** With two attempts at one time, one failed and one complete, the digests decide: another manual
      recovery is accepted exactly when the failed attempt's digest is the greater text. */
  lemma EqualTimesLetDigestsDecide(failed: Evidence, completed: Evidence, hex: Evidence -> string)
    requires failed.occurredAt == completed.occurredAt && hex(failed) != hex(completed)
    requires failed.disposition == RollbackFailed && completed.disposition == RolledBack
    ensures var attempts := map[AttemptName(failed, hex) := failed, AttemptName(completed, hex) := completed];
            && LastAttempt(attempts).Some?
            && (LastAttempt(attempts).value.disposition == RollbackFailed <==> TextLess(hex(completed), hex(failed)))
  {
    DatesFit();
    var a, b := AttemptName(failed, hex), AttemptName(completed, hex);
    var stamp := Pad(failed.occurredAt, 16);
    NameParts(failed, hex);
    NameParts(completed, hex);
    TextLessOnPrefix(stamp, stamp, "-" + hex(failed), "-" + hex(completed));
    TextLessOnPrefix(stamp, stamp, "-" + hex(completed), "-" + hex(failed));
    TextLessOnPrefix("-", "-", hex(failed), hex(completed));
    TextLessOnPrefix("-", "-", hex(completed), hex(failed));
    TextIrreflexive(stamp);
    TextIrreflexive("-");
    TextConnected(hex(failed), hex(completed));
    if TextLess(hex(failed), hex(completed)) && TextLess(hex(completed), hex(failed)) {
      TextTransitive(hex(failed), hex(completed), hex(failed));
      TextIrreflexive(hex(failed));
    }
    LastOfTwo(a, b, failed, completed);
  }

  lemma LastOfTwo(a: string, b: string, x: Evidence, y: Evidence)
    requires TextLess(a, b) != TextLess(b, a)
    ensures LastAttempt(map[a := x, b := y]) == Some(if TextLess(a, b) then y else x)
  {
    var m := map[a := x, b := y];
    var names := HostTree.SortedNames(m.Keys);
    assert a in names && b in names;
    assert names[|names| - 1] in names;
    var i :| 0 <= i < |names| && names[i] == a;
    var j :| 0 <= j < |names| && names[j] == b;
    TextIrreflexive(a);
  }

  // ---------------------------------------------------------------- what "armed" means

  /** An arm that replies "armed" leaves the guard active exactly when the deployment had no ending
      before. A deployment that has ended can get the reply only if its generation was never
      recorded. */
  lemma ArmedMeansActiveUnlessEnded(c: Config, w: World, g: Guard, now: Millis, actual: Pointers, cut: nat)
    requires Sound(c, w.store)
    ensures var (end, o) := Perform(c, w, Call(Arm(g, actual), now, cut));
            var id := g.binding.deploymentId;
            o.Replied? && o.reply.Ok? ==>
              && id in end.store.guards && end.store.guards[id] == g && o.reply.value.disposition == Armed
              && (Active(end.store, id) <==> id !in w.store.disarmed && id !in w.store.rollback)
              && (id in w.store.disarmed || id in w.store.rollback ==> g.binding.generation !in w.store.generations)
  {
    var plan := ArmPlan(c, w.store, g, now, actual);
    StoredRecordsVerify(c, w.store, g.binding.deploymentId);
    if plan.writes != [] {
      ArmPlanned(c, w.store, g, now, actual);
      ArmWritesEffect(w, g, EvidenceFor(g, Armed, AboutGuard(g, actual), now), cut, plan.reply);
    }
  }

  lemma ArmWritesEffect(w: World, g: Guard, e: Evidence, cut: nat, reply: Result<Status, Error>)
    requires e.disposition == Armed && reply.Ok?
    ensures var (end, o) := Execute(w, [PutGuard(g)] + ([PutGeneration(g)] + EvidenceWrites(e)), cut, reply);
            && end.store.disarmed == w.store.disarmed && end.store.rollback == w.store.rollback
            && (o.Replied? && o.reply.Ok? ==>
                  && o.reply == reply
                  && g.binding.deploymentId in end.store.guards && end.store.guards[g.binding.deploymentId] == g)
  {
    ExecuteStep(w, PutGuard(g), [PutGeneration(g)] + EvidenceWrites(e), cut, reply);
    var first := Apply(w, PutGuard(g));
    if cut > 0 && first.Some? {
      ExecuteStep(first.value, PutGeneration(g), EvidenceWrites(e), cut - 1, reply);
      var second := Apply(first.value, PutGeneration(g));
      if cut > 1 && second.Some? {
        RecordOnly(second.value, e, cut - 2, reply);
      }
    }
  }

  /** A first arm cut between the guard and its generation record. A retry of the same record replies
      "armed" and writes nothing, so the generation record stays missing. */
  lemma RetryNeverRecordsGeneration(c: Config, w: World, g: Guard, now: Millis, later: Millis, actual: Pointers, cut: nat)
    requires Sound(c, w.store) && ArmPlan(c, w.store, g, now, actual).writes != []
    requires g.binding.deploymentId !in w.store.guards && later < g.deadline
    ensures var crashed := Perform(c, w, Call(Arm(g, actual), now, 1)).0;
            && g.binding.generation !in crashed.store.generations
            && Perform(c, crashed, Call(Arm(g, actual), later, cut)) == (crashed, Replied(Ok(Status(g, Armed, None))))
  {
    ArmPlanned(c, w.store, g, now, actual);
    var id := g.binding.deploymentId;
    var plan := ArmPlan(c, w.store, g, now, actual);
    var e := EvidenceFor(g, Armed, AboutGuard(g, actual), now);
    var tail := [PutGeneration(g)] + EvidenceWrites(e);
    ExecuteStep(w, PutGuard(g), tail, 1, plan.reply);
    var crashed := Perform(c, w, Call(Arm(g, actual), now, 1)).0;
    assert Execute(Apply(w, PutGuard(g)).value, tail, 0, plan.reply) == (Apply(w, PutGuard(g)).value, Crashed);
    assert crashed.store == w.store.(guards := w.store.guards[id := g]);
    ArmKeeps(c, w, g, now, actual, 1);
    StoredRecordsVerify(c, crashed.store, id);
    assert id !in w.store.disarmed && id !in w.store.rollback;
    assert Active(crashed.store, id);
  }

  /** So generations need not increase from one guard to the next: after such a crash, once that
      guard has ended, a guard of a smaller unrecorded generation is armed. */
  lemma SmallerGenerationArmed(c: Config, w: World, g: Guard, now: Millis, actual: Pointers)
    requires Sound(c, w.store) && VerifyGuard(c, g).Ok? && g.deadline > now && actual == g.expected
    requires forall id :: !Active(w.store, id)
    requires g.binding.deploymentId !in w.store.guards
    ensures var (end, o) := Perform(c, w, Call(Arm(g, actual), now, 3));
            && (o.Replied? && o.reply.Ok? <==> Latest(w.store) < g.binding.generation)
            && (o.Replied? && o.reply.Ok? ==> Active(end.store, g.binding.deploymentId))
  {
    var plan := ArmPlan(c, w.store, g, now, actual);
    if plan.writes != [] {
      ArmPlanned(c, w.store, g, now, actual);
      var e := EvidenceFor(g, Armed, AboutGuard(g, actual), now);
      var tail := [PutGeneration(g)] + EvidenceWrites(e);
      ExecuteStep(w, PutGuard(g), tail, 3, plan.reply);
      var w1 := Apply(w, PutGuard(g)).value;
      ExecuteStep(w1, PutGeneration(g), EvidenceWrites(e), 2, plan.reply);
      assert IsLatest(w.store.generations.Keys, Latest(w.store));
      var w2 := Apply(w1, PutGeneration(g)).value;
      ExecuteStep(w2, PutEvidence(e), [], 1, plan.reply);
      assert EvidenceWrites(e) == [PutEvidence(e)] + [];
      assert g.binding.deploymentId !in w.store.disarmed && g.binding.deploymentId !in w.store.rollback;
    }
  }

  /** The store after the guard of a first arm was written and the call crashed. */
  lemma CrashedFirstArm(c: Config, g: Guard)
    requires VerifyGuard(c, g).Ok? && g.deadline > 0
    ensures Perform(c, World(EMPTY_STORE, []), Call(Arm(g, g.expected), 0, 1))
         == (World(EMPTY_STORE.(guards := map[g.binding.deploymentId := g]), []), Crashed)
  {
    var w := World(EMPTY_STORE, []);
    assert IsLatest({}, Latest(EMPTY_STORE));
    var plan := ArmPlan(c, EMPTY_STORE, g, 0, g.expected);
    ArmPlanned(c, EMPTY_STORE, g, 0, g.expected);
    var tail := [PutGeneration(g)] + EvidenceWrites(EvidenceFor(g, Armed, AboutGuard(g, g.expected), 0));
    ExecuteStep(w, PutGuard(g), tail, 1, plan.reply);
    var w1 := Apply(w, PutGuard(g)).value;
    assert Execute(w1, tail, 0, plan.reply) == (w1, Crashed);
  }

  lemma CommitWhole(c: Config, w: World, m: Marker, g: Guard, now: Millis)
    requires g.binding.deploymentId in w.store.guards && w.store.guards[g.binding.deploymentId] == g
    requires VerifyGuard(c, g).Ok? && MarkerValid(c, m, g) && m.acceptedAt <= now
    requires g.binding.deploymentId !in w.store.markers
    ensures var end := Perform(c, w, Call(CommitSuccess(m), now, 2)).0;
            end.store == w.store.(markers := w.store.markers[g.binding.deploymentId := m], evidence := end.store.evidence)
  {
    var e := EvidenceFor(g, SuccessMarkerValid, AboutMarker(m), now);
    var plan := CommitPlan(c, w.store, m, now);
    ExecuteStep(w, PutMarker(m), EvidenceWrites(e), 2, plan.reply);
    RecordOnly(Apply(w, PutMarker(m)).value, e, 1, plan.reply);
  }

  /** "armed" is not always true: a first arm that crashed before its generation record, a committed
      and disarmed success, and the same arm again before the deadline. The last reply is "armed"
      although the deployment is disarmed. */
  lemma ArmedThoughDisarmed(c: Config, g: Guard, m: Marker)
    requires VerifyGuard(c, g).Ok? && g.deadline > 0 && MarkerValid(c, m, g) && m.acceptedAt == 0
    ensures var id := g.binding.deploymentId;
            var w := Reached(c, [Call(Arm(g, g.expected), 0, 1), Call(CommitSuccess(m), 0, 2), Call(Disarm(id), 0, 2)]);
            var (end, o) := Perform(c, w, Call(Arm(g, g.expected), 0, 3));
            o.Replied? && o.reply.Ok? && o.reply.value.disposition == Armed && id in end.store.disarmed
  {
    var id := g.binding.deploymentId;
    var a, b, d := Call(Arm(g, g.expected), 0, 1), Call(CommitSuccess(m), 0, 2), Call(Disarm(id), 0, 2);
    var w1 := World(EMPTY_STORE.(guards := map[id := g]), []);
    CrashedFirstArm(c, g);
    CommitWhole(c, w1, m, g, 0);
    var w2 := Perform(c, w1, b).0;
    ThreeCalls(c, World(EMPTY_STORE, []), a, b, d);
    ReachedSound(c, [a]);
    RunFirst(c, World(EMPTY_STORE, []), a, []);
    assert [a] + [] == [a] && Run(c, w1, []) == w1;
    PerformKeeps(c, w1, b);
    StoredRecordsVerify(c, w2.store, id);
    var e := EvidenceFor(g, Disarmed, AboutDisarm(m, g), 0);
    RecordDisarm(w2, e, 2, Ok(Status(g, Disarmed, Some(e))));
    var w3 := Perform(c, w2, d).0;
    ArmOverEnding(c, w3, g);
  }

  lemma ThreeCalls(c: Config, w: World, x: Call, y: Call, z: Call)
    ensures Run(c, w, [x, y, z]) == Perform(c, Perform(c, Perform(c, w, x).0, y).0, z).0
  {
    var w1 := Perform(c, w, x).0;
    var w2 := Perform(c, w1, y).0;
    RunFirst(c, w, x, [y, z]);
    RunFirst(c, w1, y, [z]);
    RunFirst(c, w2, z, []);
    assert [x] + [y, z] == [x, y, z] && [y] + [z] == [y, z] && [z] + [] == [z];
    assert Run(c, Perform(c, w2, z).0, []) == Perform(c, w2, z).0;
  }

  lemma RunFirst(c: Config, w: World, x: Call, rest: seq<Call>)
    ensures Run(c, w, [x] + rest) == Run(c, Perform(c, w, x).0, rest)
  {
    assert ([x] + rest)[1..] == rest;
  }

  lemma ArmOverEnding(c: Config, w: World, g: Guard)
    requires VerifyGuard(c, g).Ok? && g.deadline > 0
    requires w.store.guards == map[g.binding.deploymentId := g] && w.store.generations == map[]
    requires g.binding.deploymentId in w.store.disarmed
    ensures var (end, o) := Perform(c, w, Call(Arm(g, g.expected), 0, 3));
            && o.Replied? && o.reply.Ok? && o.reply.value.disposition == Armed
            && end.store.disarmed == w.store.disarmed
  {
    assert IsLatest({}, Latest(w.store));
    assert w.store.generations.Keys == {};
    var plan := ArmPlan(c, w.store, g, 0, g.expected);
    ArmPlanned(c, w.store, g, 0, g.expected);
    var e := EvidenceFor(g, Armed, AboutGuard(g, g.expected), 0);
    var tail := [PutGeneration(g)] + EvidenceWrites(e);
    ExecuteStep(w, PutGuard(g), tail, 3, plan.reply);
    var w1 := Apply(w, PutGuard(g)).value;
    ExecuteStep(w1, PutGeneration(g), EvidenceWrites(e), 2, plan.reply);
    var w2 := Apply(w1, PutGeneration(g)).value;
    ExecuteStep(w2, PutEvidence(e), [], 1, plan.reply);
    assert EvidenceWrites(e) == [PutEvidence(e)] + [];
  }
}
