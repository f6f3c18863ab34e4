/** The fixed deployment controller. Every action reads the store once, then makes a short list of
    durable writes and replies; a crash cuts the list anywhere. */
module Controller {
  import opened Base
  import opened Order
  import opened ControllerStore
  import HostTree

  datatype Error =
    | InvalidRecord | SignatureInvalid | MachineMismatch | GenerationConflict | ActiveGuardConflict
    | PointerMismatch | DeadlineInvalid | MarkerMismatch | NotFound | IntegrityFailed | RollbackFailedError

  datatype Status = Status(guard: Guard, disposition: Disposition, evidence: Option<Evidence>)

  /** The machine the controller runs on and the hexadecimal form of evidence digests. */
  datatype Config = Config(machineId: string, hex: Evidence -> string)

  datatype Plan = Plan(writes: seq<Write>, reply: Result<Status, Error>)

  datatype Outcome = Replied(reply: Result<Status, Error>) | Crashed

  datatype RestoreReport = RestoreReport(completed: bool, report: string)

  // ---------------------------------------------------------------- verification of records

  function VerifyGuard(c: Config, g: Guard): Result<Guard, Error> {
    if g.binding.generation < 1 then Err(InvalidRecord)
    else if g.signer != BabyAuthority then Err(SignatureInvalid)
    else if g.binding.machineId != c.machineId then Err(MachineMismatch)
    else Ok(g)
  }

  function LoadGuard(c: Config, s: Store, id: DeploymentId): Result<Guard, Error> {
    if id !in s.guards then Err(NotFound) else VerifyGuard(c, s.guards[id])
  }

  predicate MarkerMatches(m: Marker, g: Guard) {
    m.binding == g.binding && m.evidenceDigest == g.evidenceDigest
  }

  predicate MarkerValid(c: Config, m: Marker, g: Guard) {
    && m.binding.generation >= 1 && m.signer == BabyAuthority && MarkerMatches(m, g)
    && m.binding.machineId == c.machineId
  }

  function LoadValidMarker(c: Config, s: Store, g: Guard): Option<Marker> {
    var id := g.binding.deploymentId;
    if id in s.markers && MarkerValid(c, s.markers[id], g) then Some(s.markers[id]) else None
  }

  function ReadVerifiedTerminal(c: Config, s: Store, id: DeploymentId): Result<Option<Evidence>, Error> {
    match ReadTerminal(s, id)
    case None => Ok(None)
    case Some(e) =>
      if e.signer != ControllerKey then Err(SignatureInvalid)
      else if e.binding.machineId != c.machineId then Err(MachineMismatch)
      else Ok(Some(e))
  }

  function EvidenceFor(g: Guard, d: Disposition, details: Details, now: Millis): Evidence {
    Evidence(g.binding, d, details, now, ControllerKey)
  }

  // ---------------------------------------------------------------- the actions

  function Refuse(e: Error): Plan {
    Plan([], Err(e))
  }

  function Reply(g: Guard, d: Disposition, e: Option<Evidence>): Plan {
    Plan([], Ok(Status(g, d, e)))
  }

  /** Records evidence and reports it. */
  function Record(g: Guard, e: Evidence): Plan {
    Plan(EvidenceWrites(e), Ok(Status(g, e.disposition, Some(e))))
  }

  ghost function ArmPlan(c: Config, s: Store, g: Guard, now: Millis, actual: Pointers): Plan {
    var id := g.binding.deploymentId;
    if VerifyGuard(c, g).Err? then Refuse(VerifyGuard(c, g).error)
    else if g.deadline <= now then Refuse(DeadlineInvalid)
    else if exists other :: Active(s, other) && other != id then Refuse(ActiveGuardConflict)
    else if Active(s, id) then
      match LoadGuard(c, s, id)
      case Err(e) => Refuse(e)
      case Ok(existing) => if existing != g then Refuse(GenerationConflict) else Reply(existing, Armed, None)
    else if Latest(s) > g.binding.generation || Latest(s) == g.binding.generation then Refuse(GenerationConflict)
    else if actual != g.expected then Refuse(PointerMismatch)
    else
      var e := EvidenceFor(g, Armed, AboutGuard(g, actual), now);
      Plan([PutGuard(g), PutGeneration(g)] + EvidenceWrites(e), Ok(Status(g, Armed, Some(e))))
  }

  function CommitPlan(c: Config, s: Store, m: Marker, now: Millis): Plan {
    if m.binding.generation < 1 then Refuse(InvalidRecord)
    else if m.signer != BabyAuthority then Refuse(SignatureInvalid)
    else
      match LoadGuard(c, s, m.binding.deploymentId)
      case Err(e) => Refuse(e)
      case Ok(g) =>
        if !MarkerMatches(m, g) then Refuse(MarkerMismatch)
        else if m.binding.machineId != c.machineId then Refuse(MachineMismatch)
        else if m.acceptedAt > now then Refuse(MarkerMismatch)
        else
          var e := EvidenceFor(g, SuccessMarkerValid, AboutMarker(m), now);
          Plan([PutMarker(m)] + EvidenceWrites(e), Ok(Status(g, SuccessMarkerValid, Some(e))))
  }

  function DisarmPlan(c: Config, s: Store, id: DeploymentId, now: Millis): Plan {
    match LoadGuard(c, s, id)
    case Err(e) => Refuse(e)
    case Ok(g) =>
      match ReadVerifiedTerminal(c, s, id)
      case Err(e) => Refuse(e)
      case Ok(Some(t)) =>
        if t.disposition == Disarmed then Reply(g, Disarmed, Some(t)) else Refuse(MarkerMismatch)
      case Ok(None) =>
        match LoadValidMarker(c, s, g)
        case None => Refuse(MarkerMismatch)
        case Some(m) => Record(g, EvidenceFor(g, Disarmed, AboutDisarm(m, g), now))
  }

  function RestorePlan(g: Guard, manual: bool, e: Evidence, tail: seq<Write>): Plan {
    Plan([RestoreHost(g.binding.deploymentId, manual)] + tail, Ok(Status(g, e.disposition, Some(e))))
  }

  function RestoredAs(r: RestoreReport): Disposition {
    if r.completed then RolledBack else RollbackFailed
  }

  ghost function EvaluatePlan(c: Config, s: Store, id: DeploymentId, now: Millis, r: RestoreReport): Plan {
    match LoadGuard(c, s, id)
    case Err(e) => Refuse(e)
    case Ok(g) =>
      if g.binding.generation < Latest(s) then
        Record(g, EvidenceFor(g, StaleGeneration, AboutStale(Latest(s)), now))
      else
        match ReadVerifiedTerminal(c, s, id)
        case Err(e) => Refuse(e)
        case Ok(Some(t)) => Reply(g, t.disposition, Some(t))
        case Ok(None) =>
          match LoadValidMarker(c, s, g)
          case Some(m) => Record(g, EvidenceFor(g, SuccessMarkerValid, AboutMarker(m), now))
          case None =>
            if now < g.deadline then
              Record(g, EvidenceFor(g, Pending, AboutPending(g.deadline, id in s.markers), now))
            else
              var e := EvidenceFor(g, RestoredAs(r), AboutRestore(r.report), now);
              RestorePlan(g, false, e, EvidenceWrites(e))
  }

  function RecoverPlan(
    c: Config, s: Store, id: DeploymentId, snapshotDigest: string, reason: string, reasonOk: bool,
    now: Millis, r: RestoreReport): Plan
  {
    if !reasonOk then Refuse(InvalidRecord)
    else
      match LoadGuard(c, s, id)
      case Err(e) => Refuse(e)
      case Ok(g) =>
        if g.binding.snapshotDigest != snapshotDigest then Refuse(MarkerMismatch)
        else
          match ReadVerifiedTerminal(c, s, id)
          case Err(e) => Refuse(e)
          case Ok(None) => Refuse(RollbackFailedError)
          case Ok(Some(t)) =>
            if t.disposition != RollbackFailed then Refuse(RollbackFailedError)
            else
              var e := EvidenceFor(g, RestoredAs(r), AboutRecovery(r.report, reason, t), now);
              RestorePlan(g, true, e, [PutEvidence(e), PutAttempt(AttemptName(e, c.hex), e)])
  }

  function ReadStatus(c: Config, s: Store, id: DeploymentId): Result<Status, Error> {
    match LoadGuard(c, s, id)
    case Err(e) => Err(e)
    case Ok(g) =>
      match ReadVerifiedTerminal(c, s, id)
      case Err(e) => Err(e)
      case Ok(Some(t)) => Ok(Status(g, t.disposition, Some(t)))
      case Ok(None) =>
        Ok(Status(g, if LoadValidMarker(c, s, g).Some? then SuccessMarkerValid else Armed, None))
  }

  // ---------------------------------------------------------------- calls

  datatype Action =
    | Arm(guard: Guard, actual: Pointers)
    | CommitSuccess(marker: Marker)
    | Disarm(id: DeploymentId)
    | Evaluate(id: DeploymentId, restore: RestoreReport)
    | ManualRecover(id: DeploymentId, snapshotDigest: string, reason: string, reasonOk: bool, restore: RestoreReport)

  /** An action at some time that crashes after `cut` durable steps, if it makes that many. */
  datatype Call = Call(action: Action, now: Millis, cut: nat)

  ghost function PlanOf(c: Config, s: Store, a: Action, now: Millis): Plan {
    match a
    case Arm(g, actual) => ArmPlan(c, s, g, now, actual)
    case CommitSuccess(m) => CommitPlan(c, s, m, now)
    case Disarm(id) => DisarmPlan(c, s, id, now)
    case Evaluate(id, r) => EvaluatePlan(c, s, id, now, r)
    case ManualRecover(id, digest, reason, ok, r) => RecoverPlan(c, s, id, digest, reason, ok, now, r)
  }

  /** The world after the first `cut` writes, and how the action ended. */
  function Execute(w: World, writes: seq<Write>, cut: nat, reply: Result<Status, Error>): (World, Outcome)
    decreases writes
  {
    if writes == [] then (w, Replied(reply))
    else if cut == 0 then (w, Crashed)
    else match Apply(w, writes[0])
      case None => (w, Replied(Err(IntegrityFailed)))
      case Some(next) => Execute(next, writes[1..], cut - 1, reply)
  }

  ghost function Perform(c: Config, w: World, call: Call): (World, Outcome) {
    var plan := PlanOf(c, w.store, call.action, call.now);
    Execute(w, plan.writes, call.cut, plan.reply)
  }

  ghost function Run(c: Config, w: World, calls: seq<Call>): World
    decreases calls
  {
    if calls == [] then w else Run(c, Perform(c, w, calls[0]).0, calls[1..])
  }

  // ---------------------------------------------------------------- the controller object

  class FixedDeploymentController {
    const config: Config
    var guards: map<DeploymentId, Guard>
    var generations: map<nat, GenerationRecord>
    var markers: map<DeploymentId, Marker>
    var disarmed: map<DeploymentId, Evidence>
    var rollback: map<DeploymentId, Evidence>
    var manual: map<DeploymentId, map<string, Evidence>>
    var evidence: set<Evidence>
    var restored: seq<Restoration>
    /** Durable steps left before the process dies. */
    var fuel: nat

    function Records(): Store
      reads this
    {
      Store(guards, generations, markers, disarmed, rollback, manual, evidence)
    }

    function View(): World
      reads this
    {
      World(Records(), restored)
    }

    constructor (config: Config, fuel: nat)
      ensures this.config == config && this.fuel == fuel && View() == World(EMPTY_STORE, [])
    {
      this.config := config;
      this.fuel := fuel;
      guards, generations, markers, disarmed, rollback := map[], map[], map[], map[], map[];
      manual, evidence, restored := map[], {}, [];
    }

    method ActiveGuardIds() returns (active: set<DeploymentId>)
      ensures forall id :: id in active <==> Active(Records(), id)
    {
      active := {};
      var rest := guards.Keys;
      while rest != {}
        invariant rest <= guards.Keys
        invariant forall id :: id in active <==> id in guards && id !in rest && Active(Records(), id)
        decreases rest
      {
        var id :| id in rest;
        if id !in disarmed && id !in rollback { active := active + {id}; }
        rest := rest - {id};
      }
    }

    method LatestGeneration() returns (latest: nat)
      ensures latest == Latest(Records())
    {
      latest := 0;
      var rest := generations.Keys;
      while rest != {}
        invariant rest <= generations.Keys
        invariant IsLatest(generations.Keys - rest, latest)
        decreases rest
      {
        var g :| g in rest;
        ghost var seen := generations.Keys - rest;
        if latest < g { latest := g; }
        rest := rest - {g};
        assert generations.Keys - rest == seen + {g};
      }
      assert generations.Keys - rest == generations.Keys;
      assert IsLatest(Records().generations.Keys, latest);
    }

    /** One durable step, unless the process dies before it or the record differs. */
    method Step(x: Write, reply: Result<Status, Error>) returns (o: Outcome)
      modifies this
      ensures (View(), o) == Execute(old(View()), [x], old(fuel), reply)
      ensures o == Replied(reply) && reply.Ok? ==> fuel + 1 == old(fuel)
    {
      if fuel == 0 { return Crashed; }
      var next := Apply(View(), x);
      if next.None? { return Replied(Err(IntegrityFailed)); }
      var s := next.value.store;
      guards, generations, markers := s.guards, s.generations, s.markers;
      disarmed, rollback, manual, evidence := s.disarmed, s.rollback, s.manual, s.evidence;
      restored := next.value.restored;
      fuel := fuel - 1;
      return Replied(reply);
    }

    method StepAll(writes: seq<Write>, reply: Result<Status, Error>) returns (o: Outcome)
      requires reply.Ok?
      modifies this
      ensures (View(), o) == Execute(old(View()), writes, old(fuel), reply)
    {
      ghost var start, startFuel := View(), fuel;
      var i := 0;
      while i < |writes|
        invariant 0 <= i <= |writes|
        invariant Execute(View(), writes[i..], fuel, reply) == Execute(start, writes, startFuel, reply)
      {
        DropNext(writes, i);
        ghost var here, hereFuel := View(), fuel;
        o := Step(writes[i], reply);
        assert [writes[i]][1..] == [];
        if o != Replied(reply) {
          return;
        }
        i := i + 1;
      }
      return Replied(reply);
    }

    method ArmGuard(g: Guard, now: Millis, actual: Pointers) returns (o: Outcome)
      modifies this
      ensures (View(), o) == Perform(config, old(View()), Call(Arm(g, actual), now, old(fuel)))
    {
      var id := g.binding.deploymentId;
      var verified := VerifyGuard(config, g);
      if verified.Err? { return Replied(Err(verified.error)); }
      if g.deadline <= now { return Replied(Err(DeadlineInvalid)); }
      var active := ActiveGuardIds();
      if exists other :: other in active && other != id { return Replied(Err(ActiveGuardConflict)); }
      if id in active {
        var existing := LoadGuard(config, Records(), id);
        if existing.Err? { return Replied(Err(existing.error)); }
        if existing.value != g { return Replied(Err(GenerationConflict)); }
        return Replied(Ok(Status(existing.value, Armed, None)));
      }
      var latest := LatestGeneration();
      if latest > g.binding.generation || latest == g.binding.generation {
        return Replied(Err(GenerationConflict));
      }
      if actual != g.expected { return Replied(Err(PointerMismatch)); }
      var e := EvidenceFor(g, Armed, AboutGuard(g, actual), now);
      o := StepAll([PutGuard(g), PutGeneration(g)] + EvidenceWrites(e), Ok(Status(g, Armed, Some(e))));
    }

    method CommitMarker(m: Marker, now: Millis) returns (o: Outcome)
      modifies this
      ensures (View(), o) == Perform(config, old(View()), Call(CommitSuccess(m), now, old(fuel)))
    {
      if m.binding.generation < 1 { return Replied(Err(InvalidRecord)); }
      if m.signer != BabyAuthority { return Replied(Err(SignatureInvalid)); }
      var loaded := LoadGuard(config, Records(), m.binding.deploymentId);
      if loaded.Err? { return Replied(Err(loaded.error)); }
      var g := loaded.value;
      if !MarkerMatches(m, g) { return Replied(Err(MarkerMismatch)); }
      if m.binding.machineId != config.machineId { return Replied(Err(MachineMismatch)); }
      if m.acceptedAt > now { return Replied(Err(MarkerMismatch)); }
      var e := EvidenceFor(g, SuccessMarkerValid, AboutMarker(m), now);
      o := StepAll([PutMarker(m)] + EvidenceWrites(e), Ok(Status(g, SuccessMarkerValid, Some(e))));
    }

    method DisarmGuard(id: DeploymentId, now: Millis) returns (o: Outcome)
      modifies this
      ensures (View(), o) == Perform(config, old(View()), Call(Disarm(id), now, old(fuel)))
    {
      var loaded := LoadGuard(config, Records(), id);
      if loaded.Err? { return Replied(Err(loaded.error)); }
      var g := loaded.value;
      var terminal := ReadVerifiedTerminal(config, Records(), id);
      if terminal.Err? { return Replied(Err(terminal.error)); }
      if terminal.value.Some? {
        if terminal.value.value.disposition == Disarmed {
          return Replied(Ok(Status(g, Disarmed, terminal.value)));
        }
        return Replied(Err(MarkerMismatch));
      }
      var marker := LoadValidMarker(config, Records(), g);
      if marker.None? { return Replied(Err(MarkerMismatch)); }
      var e := EvidenceFor(g, Disarmed, AboutDisarm(marker.value, g), now);
      o := StepAll(EvidenceWrites(e), Ok(Status(g, Disarmed, Some(e))));
    }

    method EvaluateGuard(id: DeploymentId, now: Millis, r: RestoreReport) returns (o: Outcome)
      modifies this
      ensures (View(), o) == Perform(config, old(View()), Call(Evaluate(id, r), now, old(fuel)))
    {
      var loaded := LoadGuard(config, Records(), id);
      if loaded.Err? { return Replied(Err(loaded.error)); }
      var g := loaded.value;
      var latest := LatestGeneration();
      if g.binding.generation < latest {
        o := RecordEvidence(g, EvidenceFor(g, StaleGeneration, AboutStale(latest), now));
        return;
      }
      var terminal := ReadVerifiedTerminal(config, Records(), id);
      if terminal.Err? { return Replied(Err(terminal.error)); }
      if terminal.value.Some? {
        return Replied(Ok(Status(g, terminal.value.value.disposition, terminal.value)));
      }
      var marker := LoadValidMarker(config, Records(), g);
      if marker.Some? {
        o := RecordEvidence(g, EvidenceFor(g, SuccessMarkerValid, AboutMarker(marker.value), now));
        return;
      }
      if now < g.deadline {
        o := RecordEvidence(g, EvidenceFor(g, Pending, AboutPending(g.deadline, id in markers), now));
        return;
      }
      var e := EvidenceFor(g, RestoredAs(r), AboutRestore(r.report), now);
      var plan := RestorePlan(g, false, e, EvidenceWrites(e));
      o := StepAll(plan.writes, plan.reply);
    }

    method RecordEvidence(g: Guard, e: Evidence) returns (o: Outcome)
      modifies this
      ensures (View(), o) == Execute(old(View()), Record(g, e).writes, old(fuel), Record(g, e).reply)
    {
      o := StepAll(EvidenceWrites(e), Ok(Status(g, e.disposition, Some(e))));
    }

    method RecoverManually(
      id: DeploymentId, snapshotDigest: string, reason: string, reasonOk: bool, now: Millis, r: RestoreReport)
      returns (o: Outcome)
      modifies this
      ensures (View(), o)
           == Perform(config, old(View()), Call(ManualRecover(id, snapshotDigest, reason, reasonOk, r), now, old(fuel)))
    {
      if !reasonOk { return Replied(Err(InvalidRecord)); }
      var loaded := LoadGuard(config, Records(), id);
      if loaded.Err? { return Replied(Err(loaded.error)); }
      var g := loaded.value;
      if g.binding.snapshotDigest != snapshotDigest { return Replied(Err(MarkerMismatch)); }
      var terminal := ReadVerifiedTerminal(config, Records(), id);
      if terminal.Err? { return Replied(Err(terminal.error)); }
      if terminal.value.None? || terminal.value.value.disposition != RollbackFailed {
        return Replied(Err(RollbackFailedError));
      }
      var e := EvidenceFor(g, RestoredAs(r), AboutRecovery(r.report, reason, terminal.value.value), now);
      var plan := RestorePlan(g, true, e, [PutEvidence(e), PutAttempt(AttemptName(e, config.hex), e)]);
      o := StepAll(plan.writes, plan.reply);
    }
  }
}
