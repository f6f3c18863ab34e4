/** What a torn record does to the reading of a deployment: which torn file makes its status fail, and
    that nothing repairs it. */
module TornEndings {
  import opened Base
  import opened Order
  import opened ControllerStore
  import opened Controller
  import opened GuardSafety
  import opened GuardTheorems
  import opened ManualRecovery
  import opened TornRecords

  predicate ShowsTorn(e: Option<Evidence>) {
    e.Some? && e.value.signer == Unreadable
  }

  /** A torn file is in the way of every reader of `id`: its guard, the record read as its ending (the
      attempt listed last, else disarmed, else rollback), or, when it has no ending, its marker. */
  predicate Blocked(s: Store, id: DeploymentId) {
    && id in s.guards
    && (|| s.guards[id].signer == Unreadable
        || ShowsTorn(ReadTerminal(s, id))
        || (ReadTerminal(s, id).None? && MarkerTorn(s, id)))
  }

  /** Status reads the marker outside any handler, when the guard verifies and there is no ending. */
  function StatusOn(c: Config, s: Store, id: DeploymentId): Result<Status, Error> {
    if LoadGuard(c, s, id).Ok? && ReadVerifiedTerminal(c, s, id) == Ok(None) && MarkerTorn(s, id)
    then Err(IntegrityFailed)
    else ReadStatus(c, s, id)
  }

  /** The action is about the deployment and reads its records. */
  predicate About(a: Action, id: DeploymentId) {
    (a.Disarm? || a.Evaluate? || a.ManualRecover?) && a.id == id
  }

  // ---------------------------------------------------------------- a blocked deployment stays blocked

  /** Neither the status nor any action that reads the records of a blocked deployment gets through. */
  lemma BlockedRefuses(c: Config, s: Store, id: DeploymentId, a: Action, now: Millis)
    requires Blocked(s, id)
    ensures StatusOn(c, s, id).Err?
    ensures About(a, id) && (a.Evaluate? ==> Latest(s) <= s.guards[id].binding.generation) ==>
              PlanOn(c, s, a, now).writes == [] && PlanOn(c, s, a, now).reply.Err?
  {
    hide Latest;
  }

  /** The write records an ending of `id`. */
  predicate Ends(x: Write, id: DeploymentId) {
    (x.PutDisarmed? || x.PutRollback? || x.PutAttempt?) && x.evidence.binding.deploymentId == id
  }

  predicate NoneEnds(writes: seq<Write>, id: DeploymentId) {
    forall x | x in writes :: !Ends(x, id)
  }

  lemma BlockedPlansNoEnding(c: Config, s: Store, id: DeploymentId, a: Action, now: Millis)
    requires Keyed(s) && Blocked(s, id)
    ensures NoneEnds(PlanOn(c, s, a, now).writes, id)
  {
    match a
    case Arm(g, actual) =>
      if ArmPlan(c, s, g, now, actual).writes != [] { ArmPlanned(c, s, g, now, actual); }
    case CommitSuccess(_) => hide LoadGuard;
    case Disarm(i) => DisarmEndsOwn(c, s, id, i, now);
    case Evaluate(i, r) => EvaluateEndsOwn(c, s, id, i, r, now);
    case ManualRecover(i, digest, reason, ok, r) => RecoverEndsOwn(c, s, id, a, now);
  }

  lemma GuardNamesItself(c: Config, s: Store, i: DeploymentId)
    requires Keyed(s)
    ensures LoadGuard(c, s, i).Ok? ==> LoadGuard(c, s, i).value.binding.deploymentId == i
  {
  }

  lemma BlockedNoEnding(c: Config, s: Store, id: DeploymentId)
    requires Blocked(s, id) && LoadGuard(c, s, id).Ok?
    ensures ReadVerifiedTerminal(c, s, id).Err? || (ReadVerifiedTerminal(c, s, id) == Ok(None) && MarkerTorn(s, id))
  {
  }

  lemma DisarmEndsOwn(c: Config, s: Store, id: DeploymentId, i: DeploymentId, now: Millis)
    requires Keyed(s) && Blocked(s, id)
    ensures NoneEnds(PlanOn(c, s, Disarm(i), now).writes, id)
  {
    GuardNamesItself(c, s, i);
    if LoadGuard(c, s, id).Ok? { BlockedNoEnding(c, s, id); }
    hide LoadGuard, ReadVerifiedTerminal, LoadValidMarker, Keyed, Blocked, Latest;
  }

  lemma EvaluateEndsOwn(c: Config, s: Store, id: DeploymentId, i: DeploymentId, r: RestoreReport, now: Millis)
    requires Keyed(s) && Blocked(s, id)
    ensures NoneEnds(PlanOn(c, s, Evaluate(i, r), now).writes, id)
  {
    hide NoneEnds;
    if i == id { EvaluateBlocked(c, s, id, r, now); } else { EvaluateOther(c, s, id, i, r, now); }
  }

  lemma EvaluateBlocked(c: Config, s: Store, id: DeploymentId, r: RestoreReport, now: Millis)
    requires Blocked(s, id)
    ensures NoneEnds(PlanOn(c, s, Evaluate(id, r), now).writes, id)
  {
    if LoadGuard(c, s, id).Ok? { BlockedNoEnding(c, s, id); }
    hide LoadGuard, ReadVerifiedTerminal, LoadValidMarker, Blocked, Latest;
  }

  lemma EvaluateOther(c: Config, s: Store, id: DeploymentId, i: DeploymentId, r: RestoreReport, now: Millis)
    requires Keyed(s) && i != id
    ensures NoneEnds(PlanOn(c, s, Evaluate(i, r), now).writes, id)
  {
    GuardNamesItself(c, s, i);
    hide LoadGuard, ReadVerifiedTerminal, LoadValidMarker, Keyed, Latest;
  }

  lemma RecoverEndsOwn(c: Config, s: Store, id: DeploymentId, a: Action, now: Millis)
    requires Keyed(s) && Blocked(s, id) && a.ManualRecover?
    ensures NoneEnds(PlanOn(c, s, a, now).writes, id)
  {
    GuardNamesItself(c, s, a.id);
    if LoadGuard(c, s, id).Ok? { BlockedNoEnding(c, s, id); }
    hide LoadGuard, ReadVerifiedTerminal, Keyed, Blocked;
  }

  predicate KeyedBlocked(s: Store, id: DeploymentId) {
    Keyed(s) && Blocked(s, id)
  }

  lemma WriteKeepsBlocked(d: Disk, x: Write, id: DeploymentId)
    requires KeyedBlocked(d.world.store, id) && !Ends(x, id)
    ensures KeyedBlocked(Tear(d, x).world.store, id)
    ensures ApplyOn(d, x).Some? ==> KeyedBlocked(ApplyOn(d, x).value.world.store, id)
  {
    hide LastAttempt;
  }

  lemma {:induction false} ExecuteKeepsBlocked(
    d: Disk, writes: seq<Write>, cut: nat, inside: bool, reply: Result<Status, Error>, id: DeploymentId)
    requires KeyedBlocked(d.world.store, id) && NoneEnds(writes, id)
    ensures KeyedBlocked(ExecuteOn(d, writes, cut, inside, reply).0.world.store, id)
    decreases writes
  {
    if writes != [] {
      assert writes[0] in writes;
      WriteKeepsBlocked(d, writes[0], id);
      assert NoneEnds(writes[1..], id) by { assert forall x | x in writes[1..] :: x in writes; }
      hide KeyedBlocked, Tear, ApplyOn, NoneEnds, Ends;
      if cut > 0 && ApplyOn(d, writes[0]).Some? {
        ExecuteKeepsBlocked(ApplyOn(d, writes[0]).value, writes[1..], cut - 1, inside, reply, id);
      }
    }
  }

  /** Through every later run, with crashes between and inside records, a blocked deployment stays so. */
  lemma {:induction false} BlockedForever(c: Config, d: Disk, calls: seq<TornCall>, id: DeploymentId)
    requires KeyedBlocked(d.world.store, id)
    ensures KeyedBlocked(RunOn(c, d, calls).world.store, id)
    decreases calls
  {
    if calls != [] {
      var call := calls[0].call;
      var plan := PlanOn(c, d.world.store, call.action, call.now);
      BlockedPlansNoEnding(c, d.world.store, id, call.action, call.now);
      hide Blocked, PlanOn;
      ExecuteKeepsBlocked(d, plan.writes, call.cut, calls[0].inside, plan.reply, id);
      BlockedForever(c, PerformOn(c, d, calls[0]).0, calls[1..], id);
    }
  }

  // ---------------------------------------------------------------- the first torn record

  /** A torn attempt is read as the ending, or the attempt that was listed last still is. */
  lemma TornAttemptShowsOrNot(attempts: map<string, Evidence>, name: string, e: Evidence)
    ensures var last := LastAttempt(Keep(attempts, name, e)); last == Some(e) || last == LastAttempt(attempts)
  {
    var now := Keep(attempts, name, e);
    if now != attempts && attempts != map[] {
      LastIsGreatest(attempts);
      LastIsGreatest(now);
      var m :| m in attempts && LastAttempt(attempts) == Some(attempts[m])
               && forall n | n in attempts && n != m :: TextLess(n, m);
      var k :| k in now && LastAttempt(now) == Some(now[k]) && forall n | n in now && n != k :: TextLess(n, k);
      if k != name && k != m {
        TextTransitive(k, m, k);
        TextIrreflexive(k);
      }
    } else if now != attempts {
      LastIsGreatest(now);
    }
  }

  /** What status reads of `id` is the same in both stores: guard, ending and, without an ending, marker. */
  predicate ReadsSame(s: Store, t: Store, id: DeploymentId) {
    && id in s.guards && id in t.guards && s.guards[id] == t.guards[id]
    && ReadTerminal(s, id) == ReadTerminal(t, id)
    && (ReadTerminal(s, id).None? ==> (id in s.markers <==> id in t.markers))
    && (ReadTerminal(s, id).None? && id in s.markers ==> s.markers[id] == t.markers[id])
  }

  /** A torn record blocks `id` or is not read. */
  lemma TearBlocksOrIsUnread(w: World, x: Write, id: DeploymentId)
    requires id in Tear(Disk(w, {}), x).world.store.guards
    ensures var t := Tear(Disk(w, {}), x).world.store; Blocked(t, id) || ReadsSame(w.store, t, id)
  {
    if x.PutAttempt? {
      TornAttemptShowsOrNot(AttemptsOf(w.store, x.evidence.binding.deploymentId), x.name, TornEvidence(x.evidence));
    }
    hide LastAttempt;
  }

  lemma ReadsSameStatus(c: Config, s: Store, t: Store, id: DeploymentId)
    requires Sound(c, s) && ReadsSame(s, t, id) && Keyed(t)
    ensures StatusOn(c, t, id).Ok? && StatusOn(c, t, id) == ReadStatus(c, s, id)
  {
    StoredRecordsVerify(c, s, id);
    assert id in s.markers ==> s.markers[id].signer != Unreadable by { assert MarkersSound(c, s); }
    assert s.guards[id].binding.deploymentId == id;
    hide Sound, ReadTerminal;
  }

  /** After any whole run and one call that died inside a step, the status of a deployment fails, and
      fails for good, through every later run with crashes of either kind, exactly when the torn file is
      its guard, the record read as its ending, or without an ending its marker. Otherwise it is the status
      the whole records give. */
  lemma StatusFailsExactlyWhenTorn(c: Config, calls: seq<Call>, call: Call, id: DeploymentId)
    requires id in PerformOn(c, Disk(Reached(c, calls), {}), TornCall(call, true)).0.world.store.guards
    ensures var d := PerformOn(c, Disk(Reached(c, calls), {}), TornCall(call, true)).0;
            && (Blocked(d.world.store, id) <==>
                  forall more: seq<TornCall> :: StatusOn(c, RunOn(c, d, more).world.store, id).Err?)
            && (!Blocked(d.world.store, id) ==>
                  && id in Perform(c, Reached(c, calls), call).0.store.guards
                  && StatusOn(c, d.world.store, id) == ReadStatus(c, Perform(c, Reached(c, calls), call).0.store, id))
  {
    var w := Reached(c, calls);
    ReachedSound(c, calls);
    var d := PerformOn(c, Disk(w, {}), TornCall(call, true)).0;
    DiedKeyed(c, w, call);
    if Blocked(d.world.store, id) {
      forall more: seq<TornCall> ensures StatusOn(c, RunOn(c, d, more).world.store, id).Err? {
        BlockedForever(c, d, more, id);
        BlockedRefuses(c, RunOn(c, d, more).world.store, id, Disarm(id), 0);
      }
    } else {
      DiedUnread(c, w, call, id);
      assert RunOn(c, d, []) == d;
    }
  }

  lemma DiedUnread(c: Config, w: World, call: Call, id: DeploymentId)
    requires Sound(c, w.store)
    requires var t := PerformOn(c, Disk(w, {}), TornCall(call, true)).0.world.store; id in t.guards && !Blocked(t, id)
    ensures var t := PerformOn(c, Disk(w, {}), TornCall(call, true)).0.world.store;
            var s := Perform(c, w, call).0.store;
            id in s.guards && StatusOn(c, t, id).Ok? && StatusOn(c, t, id) == ReadStatus(c, s, id)
  {
    SoundPlans(c, w.store, call.action, call.now);
    var plan := PlanOf(c, w.store, call.action, call.now);
    TornAtCut(w, plan.writes, call.cut, plan.reply);
    PerformKeeps(c, w, call);
    DiedKeyed(c, w, call);
    hide Sound, PlanOf, PlanOn, Blocked, Execute, ExecuteOn, StatusOn, ReadStatus, Keyed;
    var (end, o) := Execute(w, plan.writes, call.cut, plan.reply);
    var t := PerformOn(c, Disk(w, {}), TornCall(call, true)).0.world.store;
    if o.Crashed? {
      TearBlocksOrIsUnread(end, plan.writes[call.cut], id);
    } else {
      assert t == end.store;
    }
    ReadsSameStatus(c, end.store, t, id);
  }

  /** While the status fails, no evaluation, disarm or manual recovery of the deployment gets through
      either, except that an evaluation notices a newer generation first. */
  lemma BlockedActionsFail(
    c: Config, d: Disk, more: seq<TornCall>, id: DeploymentId, a: Action, now: Millis)
    requires Keyed(d.world.store) && Blocked(d.world.store, id) && About(a, id)
    ensures var s := RunOn(c, d, more).world.store;
            var plan := PlanOn(c, s, a, now);
            && id in s.guards
            && ((plan.writes == [] && plan.reply.Err?)
                || (a.Evaluate? && s.guards[id].binding.generation < Latest(s) && plan.reply.Ok?
                    && plan.reply.value.disposition == StaleGeneration))
  {
    BlockedForever(c, d, more, id);
    var s := RunOn(c, d, more).world.store;
    BlockedRefuses(c, s, id, a, now);
    hide Latest, Blocked;
  }
}
