/** Crashes inside a create-once write: the file is there under its name and does not parse. When such
    a record strands a guard, and for how long. */
module TornRecords {
  import opened Base
  import opened Order
  import opened ControllerStore
  import opened Controller
  import opened GuardSafety
  import opened GuardTheorems

  /** The world with torn records as unreadable ones, and the evidence files that are torn. */
  datatype Disk = Disk(world: World, tornEvidence: set<Evidence>)

  /** A call that may die inside its next durable step instead of before it. */
  datatype TornCall = TornCall(call: Call, inside: bool)

  function TornGuard(g: Guard): Guard {
    g.(signer := Unreadable)
  }

  function TornEvidence(e: Evidence): Evidence {
    e.(signer := Unreadable)
  }

  function Keep<K, V>(m: map<K, V>, k: K, v: V): map<K, V> {
    if k in m then m else m[k := v]
  }

  /** Dying inside a step leaves an unreadable record where there was none. */
  function Tear(d: Disk, x: Write): Disk {
    var s := d.world.store;
    match x
    case PutGuard(g) => Stored(d, s.(guards := Keep(s.guards, g.binding.deploymentId, TornGuard(g))))
    case PutGeneration(g) =>
      var record := GenerationRecord(g.binding.deploymentId, g.binding.generation, TornGuard(g));
      Stored(d, s.(generations := Keep(s.generations, g.binding.generation, record)))
    case PutMarker(m) => Stored(d, s.(markers := Keep(s.markers, m.binding.deploymentId, m.(signer := Unreadable))))
    case PutEvidence(e) => if e in s.evidence then d else d.(tornEvidence := d.tornEvidence + {e})
    case PutDisarmed(e) => Stored(d, s.(disarmed := Keep(s.disarmed, e.binding.deploymentId, TornEvidence(e))))
    case PutRollback(e) => Stored(d, s.(rollback := Keep(s.rollback, e.binding.deploymentId, TornEvidence(e))))
    case PutAttempt(name, e) =>
      var id := e.binding.deploymentId;
      Stored(d, s.(manual := s.manual[id := Keep(AttemptsOf(s, id), name, TornEvidence(e))]))
    case RestoreHost(_, _) => d
  }

  function Stored(d: Disk, s: Store): Disk {
    d.(world := d.world.(store := s))
  }

  /** A create-once write finds a torn file different from what it would write. */
  function ApplyOn(d: Disk, x: Write): Option<Disk> {
    if x.PutEvidence? && x.evidence in d.tornEvidence then None
    else match Apply(d.world, x)
      case None => None
      case Some(w) => Some(d.(world := w))
  }

  function ExecuteOn(d: Disk, writes: seq<Write>, cut: nat, inside: bool, reply: Result<Status, Error>): (Disk, Outcome)
    decreases writes
  {
    if writes == [] then (d, Replied(reply))
    else if cut == 0 then (if inside then Tear(d, writes[0]) else d, Crashed)
    else match ApplyOn(d, writes[0])
      case None => (d, Replied(Err(IntegrityFailed)))
      case Some(next) => ExecuteOn(next, writes[1..], cut - 1, inside, reply)
  }

  predicate MarkerTorn(s: Store, id: DeploymentId) {
    id in s.markers && s.markers[id].signer == Unreadable
  }

  /** The action gets as far as reading the success marker of `id`. */
  ghost predicate ReadsMarker(c: Config, s: Store, a: Action) {
    (a.Disarm? || a.Evaluate?) && LoadGuard(c, s, a.id).Ok? && ReadVerifiedTerminal(c, s, a.id) == Ok(None)
    && (a.Evaluate? ==> LoadGuard(c, s, a.id).value.binding.generation >= Latest(s))
  }

  /** The marker file is parsed outside any handler, so a torn one fails the action. Any other torn
      record fails the check of its signature. */
  ghost function PlanOn(c: Config, s: Store, a: Action, now: Millis): Plan {
    if ReadsMarker(c, s, a) && MarkerTorn(s, a.id) then Refuse(IntegrityFailed) else PlanOf(c, s, a, now)
  }

  ghost function PerformOn(c: Config, d: Disk, t: TornCall): (Disk, Outcome) {
    var plan := PlanOn(c, d.world.store, t.call.action, t.call.now);
    ExecuteOn(d, plan.writes, t.call.cut, t.inside, plan.reply)
  }

  ghost function RunOn(c: Config, d: Disk, calls: seq<TornCall>): Disk
    decreases calls
  {
    if calls == [] then d else RunOn(c, PerformOn(c, d, calls[0]).0, calls[1..])
  }

  // ---------------------------------------------------------------- a stranded guard stays stranded

  /** The guard is active and its guard file or its marker file does not parse. */
  predicate Stuck(s: Store, id: DeploymentId) {
    Active(s, id) && (s.guards[id].signer == Unreadable || MarkerTorn(s, id))
  }

  predicate Keyed(s: Store) {
    forall id | id in s.guards :: s.guards[id].binding.deploymentId == id
  }

  /** The write, done or torn, ends the guard of `id` or restores its host. */
  predicate Touches(x: Write, id: DeploymentId) {
    match x
    case PutDisarmed(e) => e.binding.deploymentId == id
    case PutRollback(e) => e.binding.deploymentId == id
    case RestoreHost(i, manual) => i == id && !manual
    case _ => false
  }

  /** A stuck guard and the number of times evaluation restored its host. */
  predicate StuckWith(d: Disk, id: DeploymentId, times: nat) {
    Keyed(d.world.store) && Stuck(d.world.store, id) && Rollbacks(d.world, id) == times
  }

  lemma TearKeepsStuck(d: Disk, x: Write, id: DeploymentId, times: nat)
    requires StuckWith(d, id, times) && !Touches(x, id)
    ensures StuckWith(Tear(d, x), id, times)
  {
  }

  lemma WriteKeepsStuck(d: Disk, x: Write, id: DeploymentId, times: nat)
    requires StuckWith(d, id, times) && !Touches(x, id)
    ensures ApplyOn(d, x).Some? ==> StuckWith(ApplyOn(d, x).value, id, times)
  {
    hide Tear;
    if x.RestoreHost? {
      assert multiset(d.world.restored + [Restoration(x.id, x.manual)])
          == multiset(d.world.restored) + multiset{Restoration(x.id, x.manual)};
    }
  }

  lemma {:induction false} ExecuteKeepsStuck(
    d: Disk, writes: seq<Write>, cut: nat, inside: bool, reply: Result<Status, Error>, id: DeploymentId, times: nat)
    requires StuckWith(d, id, times) && forall x | x in writes :: !Touches(x, id)
    ensures StuckWith(ExecuteOn(d, writes, cut, inside, reply).0, id, times)
    decreases writes
  {
    if writes != [] {
      assert writes[0] in writes;
      WriteKeepsStuck(d, writes[0], id, times);
      TearKeepsStuck(d, writes[0], id, times);
      hide StuckWith, Tear, ApplyOn;
      if cut > 0 && ApplyOn(d, writes[0]).Some? {
        ExecuteKeepsStuck(ApplyOn(d, writes[0]).value, writes[1..], cut - 1, inside, reply, id, times);
      }
    }
  }

  /** Neither evaluation nor disarm of a stuck guard plans to end it. */
  lemma StuckBlocks(c: Config, s: Store, a: Action, now: Millis, id: DeploymentId)
    requires Stuck(s, id) && (a.Disarm? || a.Evaluate?) && a.id == id
    ensures forall x | x in PlanOn(c, s, a, now).writes :: !Touches(x, id)
  {
    assert LoadGuard(c, s, id).Ok? ==> s.guards[id].signer == BabyAuthority;
  }

  lemma DisarmLeavesStuck(c: Config, s: Store, i: DeploymentId, now: Millis, id: DeploymentId)
    requires Keyed(s) && i != id
    ensures forall x | x in PlanOn(c, s, Disarm(i), now).writes :: !Touches(x, id)
  {
    assert LoadGuard(c, s, i).Ok? ==> LoadGuard(c, s, i).value.binding.deploymentId == i;
    hide LoadGuard, ReadVerifiedTerminal, LoadValidMarker, Keyed, Latest;
  }

  lemma EvaluateLeavesStuck(c: Config, s: Store, i: DeploymentId, r: RestoreReport, now: Millis, id: DeploymentId)
    requires Keyed(s) && i != id
    ensures forall x | x in PlanOn(c, s, Evaluate(i, r), now).writes :: !Touches(x, id)
  {
    assert LoadGuard(c, s, i).Ok? ==> LoadGuard(c, s, i).value.binding.deploymentId == i;
    hide LoadGuard, ReadVerifiedTerminal, LoadValidMarker, Keyed, Latest;
  }

  lemma ArmLeavesStuck(c: Config, s: Store, g: Guard, actual: Pointers, now: Millis, id: DeploymentId)
    ensures forall x | x in PlanOn(c, s, Arm(g, actual), now).writes :: !Touches(x, id)
  {
    if ArmPlan(c, s, g, now, actual).writes != [] { ArmPlanned(c, s, g, now, actual); }
  }

  lemma RecordsLeaveStuck(c: Config, s: Store, a: Action, now: Millis, id: DeploymentId)
    requires a.CommitSuccess? || a.ManualRecover?
    ensures forall x | x in PlanOn(c, s, a, now).writes :: !Touches(x, id)
  {
    hide LoadGuard, ReadVerifiedTerminal;
  }

  /** No action plans to end a stuck guard or to restore its host by evaluation. */
  lemma NothingTouchesStuck(c: Config, s: Store, a: Action, now: Millis, id: DeploymentId)
    requires Keyed(s) && Stuck(s, id)
    ensures forall x | x in PlanOn(c, s, a, now).writes :: !Touches(x, id)
  {
    hide PlanOn, Touches;
    match a
    case Arm(g, actual) => ArmLeavesStuck(c, s, g, actual, now, id);
    case CommitSuccess(_) => RecordsLeaveStuck(c, s, a, now, id);
    case ManualRecover(_, _, _, _, _) => RecordsLeaveStuck(c, s, a, now, id);
    case Disarm(i) => if i == id { StuckBlocks(c, s, a, now, id); } else { DisarmLeavesStuck(c, s, i, now, id); }
    case Evaluate(i, r) => if i == id { StuckBlocks(c, s, a, now, id); } else { EvaluateLeavesStuck(c, s, i, r, now, id); }
  }

  lemma {:induction false} StuckForever(c: Config, d: Disk, calls: seq<TornCall>, id: DeploymentId, times: nat)
    requires StuckWith(d, id, times)
    ensures StuckWith(RunOn(c, d, calls), id, times)
    decreases calls
  {
    if calls != [] {
      var call := calls[0].call;
      var plan := PlanOn(c, d.world.store, call.action, call.now);
      NothingTouchesStuck(c, d.world.store, call.action, call.now, id);
      ExecuteKeepsStuck(d, plan.writes, call.cut, calls[0].inside, plan.reply, id, times);
      StuckForever(c, PerformOn(c, d, calls[0]).0, calls[1..], id, times);
    }
  }

  /** And no other deployment can be armed meanwhile. */
  lemma StuckExcludesOthers(c: Config, s: Store, id: DeploymentId, g: Guard, now: Millis, actual: Pointers)
    requires Stuck(s, id) && g.binding.deploymentId != id
    ensures PlanOn(c, s, Arm(g, actual), now).writes == [] && PlanOn(c, s, Arm(g, actual), now).reply.Err?
  {
  }

  // ---------------------------------------------------------------- the first torn record

  /** What an execution that dies inside a step leaves: the world before the step, torn by it. */
  lemma {:induction false} TornAtCut(w: World, writes: seq<Write>, cut: nat, reply: Result<Status, Error>)
    ensures var (end, o) := Execute(w, writes, cut, reply);
            var d := ExecuteOn(Disk(w, {}), writes, cut, true, reply).0;
            if o.Crashed? then cut < |writes| && d == Tear(Disk(end, {}), writes[cut]) else d == Disk(end, {})
    decreases writes
  {
    if writes != [] && cut > 0 && Apply(w, writes[0]).Some? {
      TornAtCut(Apply(w, writes[0]).value, writes[1..], cut - 1, reply);
    }
  }

  /** The stores agree on all that an evaluation or a disarm of `id` reads. */
  predicate SameFor(s: Store, t: Store, id: DeploymentId) {
    && (id in s.guards <==> id in t.guards) && (id in s.guards ==> s.guards[id] == t.guards[id])
    && (id in s.markers <==> id in t.markers) && (id in s.markers ==> s.markers[id] == t.markers[id])
    && (id in s.disarmed <==> id in t.disarmed) && (id in s.disarmed ==> s.disarmed[id] == t.disarmed[id])
    && (id in s.rollback <==> id in t.rollback) && (id in s.rollback ==> s.rollback[id] == t.rollback[id])
    && AttemptsOf(s, id) == AttemptsOf(t, id) && s.generations == t.generations
  }

  /** For an active guard that is not stuck the torn record might as well not be there. */
  ghost predicate Readable(c: Config, t: Store, id: DeploymentId) {
    exists s: Store :: Sound(c, s) && SameFor(s, t, id)
  }

  lemma SoundIsReadable(c: Config, s: Store, id: DeploymentId)
    requires Sound(c, s)
    ensures Readable(c, s, id)
  {
    assert SameFor(s, s, id);
  }

  /** A torn record other than a guard or a generation does not concern an active guard that is not
      stuck. */
  lemma TearIsReadable(c: Config, w: World, x: Write, id: DeploymentId)
    requires Sound(c, w.store) && !x.PutGuard? && !x.PutGeneration?
    requires x.PutAttempt? ==> x.evidence.binding.deploymentId in w.store.rollback
    requires var t := Tear(Disk(w, {}), x).world.store; Active(t, id) && !Stuck(t, id)
    ensures Readable(c, Tear(Disk(w, {}), x).world.store, id)
  {
    hide Sound;
    assert SameFor(w.store, Tear(Disk(w, {}), x).world.store, id);
  }

  lemma TornGuardIsStuck(w: World, g: Guard, id: DeploymentId)
    requires forall i :: !Active(w.store, i)
    requires Active(Tear(Disk(w, {}), PutGuard(g)).world.store, id)
    ensures Stuck(Tear(Disk(w, {}), PutGuard(g)).world.store, id)
  {
    assert !Active(w.store, id);
  }

  /** The name of a torn generation record says all that is read of it. */
  lemma TornGenerationIsSound(c: Config, w: World, g: Guard, now: Millis, actual: Pointers)
    requires Sound(c, w.store) && ArmPlan(c, w.store, g, now, actual).writes != []
    requires CreateOnce(w.store.guards, g.binding.deploymentId, g).Some?
    ensures Sound(c, Tear(Disk(Apply(w, PutGuard(g)).value, {}), PutGeneration(g)).world.store)
  {
    ArmPlanned(c, w.store, g, now, actual);
    PutGuardKeeps(c, w.store, g);
    var s := w.store.(guards := w.store.guards[g.binding.deploymentId := g]);
    assert CreateOnce(w.store.guards, g.binding.deploymentId, g).value == s.guards;
    var record := GenerationRecord(g.binding.deploymentId, g.binding.generation, TornGuard(g));
    PutGenerationKeeps(c, s, g, record);
    hide Sound;
    assert g.binding.generation !in s.generations;
  }

  lemma ArmDiesReadable(c: Config, w: World, g: Guard, actual: Pointers, now: Millis, cut: nat, id: DeploymentId)
    requires Sound(c, w.store)
    requires var plan := ArmPlan(c, w.store, g, now, actual);
             var (end, o) := Execute(w, plan.writes, cut, plan.reply);
             && o.Crashed? && cut < |plan.writes|
             && var t := Tear(Disk(end, {}), plan.writes[cut]).world.store; Active(t, id) && !Stuck(t, id)
    ensures var plan := ArmPlan(c, w.store, g, now, actual);
            Readable(c, Tear(Disk(Execute(w, plan.writes, cut, plan.reply).0, {}), plan.writes[cut]).world.store, id)
  {
    var plan := ArmPlan(c, w.store, g, now, actual);
    ArmPlanned(c, w.store, g, now, actual);
    var e := EvidenceFor(g, Armed, AboutGuard(g, actual), now);
    var rest := [PutGeneration(g)] + EvidenceWrites(e);
    ExecuteStep(w, PutGuard(g), rest, cut, plan.reply);
    if cut == 0 {
      TornGuardIsStuck(w, g, id);
    } else {
      var w1 := Apply(w, PutGuard(g)).value;
      ExecuteStep(w1, PutGeneration(g), EvidenceWrites(e), cut - 1, plan.reply);
      if cut == 1 {
        TornGenerationIsSound(c, w, g, now, actual);
        SoundIsReadable(c, Tear(Disk(w1, {}), PutGeneration(g)).world.store, id);
      } else {
        PerformKeeps(c, w, Call(Arm(g, actual), now, cut));
        assert plan.writes[cut] == PutEvidence(e);
        TearIsReadable(c, Execute(w, plan.writes, cut, plan.reply).0, PutEvidence(e), id);
      }
    }
  }

  predicate Harmless(x: Write) {
    !x.PutGuard? && !x.PutGeneration? && !x.PutAttempt?
  }

  lemma CommitWrites(c: Config, s: Store, m: Marker, now: Millis)
    ensures forall x | x in CommitPlan(c, s, m, now).writes :: Harmless(x)
  {
    hide LoadGuard;
  }

  lemma DisarmWrites(c: Config, s: Store, id: DeploymentId, now: Millis)
    ensures forall x | x in DisarmPlan(c, s, id, now).writes :: Harmless(x)
  {
    hide LoadGuard, ReadVerifiedTerminal, LoadValidMarker;
  }

  lemma EvaluateWrites(c: Config, s: Store, id: DeploymentId, now: Millis, r: RestoreReport)
    ensures forall x | x in EvaluatePlan(c, s, id, now, r).writes :: Harmless(x)
  {
    hide LoadGuard, ReadVerifiedTerminal, LoadValidMarker, Latest;
  }

  /** What a plan other than arming writes. */
  lemma OtherWrites(c: Config, s: Store, a: Action, now: Millis, x: Write)
    requires Sound(c, s) && !a.Arm? && x in PlanOf(c, s, a, now).writes
    ensures !x.PutGuard? && !x.PutGeneration?
    ensures x.PutAttempt? ==> x.evidence.binding.deploymentId in s.rollback
  {
    match a
    case CommitSuccess(m) => CommitWrites(c, s, m, now); hide Sound, CommitPlan;
    case Disarm(id) => DisarmWrites(c, s, id, now); hide Sound, DisarmPlan;
    case Evaluate(id, r) => EvaluateWrites(c, s, id, now, r); hide Sound, EvaluatePlan;
    case ManualRecover(id, digest, reason, ok, r) =>
      RecoverPlanned(c, s, id, digest, reason, ok, r, now);
      assert s.guards[id].binding.deploymentId == id by { assert GuardsSound(c, s); }
      hide Sound, RecoverPlan;
  }

  lemma SoundPlans(c: Config, s: Store, a: Action, now: Millis)
    requires Sound(c, s)
    ensures PlanOn(c, s, a, now) == PlanOf(c, s, a, now)
  {
    if a.Disarm? || a.Evaluate? { assert MarkersSound(c, s); }
    hide PlanOf, LoadGuard, ReadVerifiedTerminal;
  }

  /** After any whole run and one call that died inside a step, an active guard that is not stuck reads
      as in a sound store. */
  lemma DiedReadable(c: Config, w: World, call: Call, id: DeploymentId)
    requires Sound(c, w.store)
    requires var t := PerformOn(c, Disk(w, {}), TornCall(call, true)).0.world.store; Active(t, id) && !Stuck(t, id)
    ensures Readable(c, PerformOn(c, Disk(w, {}), TornCall(call, true)).0.world.store, id)
  {
    SoundPlans(c, w.store, call.action, call.now);
    var plan := PlanOf(c, w.store, call.action, call.now);
    TornAtCut(w, plan.writes, call.cut, plan.reply);
    PerformKeeps(c, w, call);
    var (end, o) := Execute(w, plan.writes, call.cut, plan.reply);
    if !o.Crashed? {
      SoundIsReadable(c, end.store, id);
    } else if call.action.Arm? {
      ArmDiesReadable(c, w, call.action.guard, call.action.actual, call.now, call.cut, id);
    } else {
      OtherWrites(c, w.store, call.action, call.now, plan.writes[call.cut]);
      ExecuteGrows(w, plan.writes, call.cut, plan.reply);
      TearIsReadable(c, end, plan.writes[call.cut], id);
    }
  }

  // ---------------------------------------------------------------- one action ends it

  lemma LatestAgrees(s: Store, t: Store)
    requires s.generations == t.generations
    ensures Latest(s) == Latest(t)
  {
    assert IsLatest(s.generations.Keys, Latest(s)) && IsLatest(t.generations.Keys, Latest(t));
  }

  lemma ReadableEvaluates(c: Config, d: Disk, id: DeploymentId, now: Millis, r: RestoreReport)
    requires Readable(c, d.world.store, id) && Active(d.world.store, id) && id !in d.world.store.markers
    requires now >= d.world.store.guards[id].deadline && forall e | e in d.tornEvidence :: e.occurredAt != now
    ensures id in PerformOn(c, d, TornCall(Call(Evaluate(id, r), now, 3), false)).0.world.store.rollback
  {
    var t := d.world.store;
    var s :| Sound(c, s) && SameFor(s, t, id);
    StoredRecordsVerify(c, s, id);
    EvaluateCases(c, s, id, now, r);
    LatestAgrees(s, t);
    assert ActiveNewest(s) && IsLatest(s.generations.Keys, Latest(s));
    assert t.guards[id].binding.deploymentId == id by { assert GuardsSound(c, s); }
    hide Sound;
    var g := t.guards[id];
    var e := EvidenceFor(g, RestoredAs(r), AboutRestore(r.report), now);
    var plan := PlanOn(c, t, Evaluate(id, r), now);
    assert plan == RestorePlan(g, false, e, EvidenceWrites(e));
    assert plan.writes == [RestoreHost(id, false), PutEvidence(e), PutRollback(e)];
    EndsWith(d, RestoreHost(id, false), e, plan.reply);
  }

  lemma ReadableDisarms(c: Config, d: Disk, id: DeploymentId, now: Millis)
    requires Readable(c, d.world.store, id) && Active(d.world.store, id) && id in d.world.store.markers
    requires forall e | e in d.tornEvidence :: e.occurredAt != now
    ensures id in PerformOn(c, d, TornCall(Call(Disarm(id), now, 3), false)).0.world.store.disarmed
  {
    var t := d.world.store;
    var s :| Sound(c, s) && SameFor(s, t, id);
    StoredRecordsVerify(c, s, id);
    assert t.guards[id].binding.deploymentId == id by { assert GuardsSound(c, s); }
    assert !MarkerTorn(t, id) by { assert MarkersSound(c, s); }
    hide Sound;
    var g := t.guards[id];
    var e := EvidenceFor(g, Disarmed, AboutDisarm(t.markers[id], g), now);
    var plan := PlanOn(c, t, Disarm(id), now);
    assert plan == Record(g, e);
    assert plan.writes == [PutEvidence(e), PutDisarmed(e)];
    DisarmsWith(d, e, plan.reply);
  }

  lemma EndsWith(d: Disk, first: Write, e: Evidence, reply: Result<Status, Error>)
    requires first.RestoreHost? && e !in d.tornEvidence && e.binding.deploymentId !in d.world.store.rollback
    ensures e.binding.deploymentId
         in ExecuteOn(d, [first, PutEvidence(e), PutRollback(e)], 3, false, reply).0.world.store.rollback
  {
    var a := ApplyOn(d, first).value;
    var b := ApplyOn(a, PutEvidence(e)).value;
    var z := ApplyOn(b, PutRollback(e)).value;
    assert [first, PutEvidence(e), PutRollback(e)][1..] == [PutEvidence(e), PutRollback(e)];
    assert [PutEvidence(e), PutRollback(e)][1..] == [PutRollback(e)] && [PutRollback(e)][1..] == [];
    assert ExecuteOn(z, [], 0, false, reply).0 == z;
    assert ExecuteOn(b, [PutRollback(e)], 1, false, reply).0 == z;
    assert ExecuteOn(a, [PutEvidence(e), PutRollback(e)], 2, false, reply).0 == z;
  }

  lemma DisarmsWith(d: Disk, e: Evidence, reply: Result<Status, Error>)
    requires e !in d.tornEvidence && e.binding.deploymentId !in d.world.store.disarmed
    ensures e.binding.deploymentId
         in ExecuteOn(d, [PutEvidence(e), PutDisarmed(e)], 3, false, reply).0.world.store.disarmed
  {
    var b := ApplyOn(d, PutEvidence(e)).value;
    var z := ApplyOn(b, PutDisarmed(e)).value;
    assert [PutEvidence(e), PutDisarmed(e)][1..] == [PutDisarmed(e)] && [PutDisarmed(e)][1..] == [];
    assert ExecuteOn(z, [], 1, false, reply).0 == z;
    assert ExecuteOn(b, [PutDisarmed(e)], 2, false, reply).0 == z;
  }

  lemma DiedKeyed(c: Config, w: World, call: Call)
    requires Sound(c, w.store)
    ensures Keyed(PerformOn(c, Disk(w, {}), TornCall(call, true)).0.world.store)
  {
    SoundPlans(c, w.store, call.action, call.now);
    var plan := PlanOf(c, w.store, call.action, call.now);
    TornAtCut(w, plan.writes, call.cut, plan.reply);
    PerformKeeps(c, w, call);
    var end := Execute(w, plan.writes, call.cut, plan.reply).0;
    assert Keyed(end.store) by { assert GuardsSound(c, end.store); }
    hide Sound, PerformOn, PlanOf, Execute;
    if call.cut < |plan.writes| { TearKeyed(end, plan.writes[call.cut]); }
  }

  lemma TearKeyed(w: World, x: Write)
    requires Keyed(w.store)
    ensures Keyed(Tear(Disk(w, {}), x).world.store)
  {
  }

  /** After any whole run and one call that died inside a step, an overdue active guard is stranded for
      good, through every later run with crashes of either kind, exactly when its guard file or its
      marker file is the torn one. Otherwise one uncut evaluation or disarm ends it, at any instant other
      than that of a torn evidence file. */
  lemma StrandedExactlyWhenTorn(
    c: Config, calls: seq<Call>, call: Call, id: DeploymentId, now: Millis, r: RestoreReport)
    requires var d := PerformOn(c, Disk(Reached(c, calls), {}), TornCall(call, true)).0;
             && Active(d.world.store, id) && now >= d.world.store.guards[id].deadline
             && forall e | e in d.tornEvidence :: e.occurredAt != now
    ensures var d := PerformOn(c, Disk(Reached(c, calls), {}), TornCall(call, true)).0;
            Stuck(d.world.store, id) <==> forall more: seq<TornCall> :: Active(RunOn(c, d, more).world.store, id)
  {
    var w := Reached(c, calls);
    ReachedSound(c, calls);
    var d := PerformOn(c, Disk(w, {}), TornCall(call, true)).0;
    if Stuck(d.world.store, id) {
      DiedKeyed(c, w, call);
      forall more: seq<TornCall> ensures Active(RunOn(c, d, more).world.store, id) {
        StuckForever(c, d, more, id, Rollbacks(d.world, id));
      }
    } else {
      DiedReadable(c, w, call, id);
      var last := TornCall(Call(if id in d.world.store.markers then Disarm(id) else Evaluate(id, r), now, 3), false);
      if id in d.world.store.markers {
        ReadableDisarms(c, d, id, now);
      } else {
        ReadableEvaluates(c, d, id, now, r);
      }
      OneCall(c, d, last);
      assert !Active(RunOn(c, d, [last]).world.store, id);
    }
  }

  lemma OneCall(c: Config, d: Disk, t: TornCall)
    ensures RunOn(c, d, [t]) == PerformOn(c, d, t).0
  {
    assert [t][1..] == [];
    assert RunOn(c, PerformOn(c, d, t).0, []) == PerformOn(c, d, t).0;
  }
}
