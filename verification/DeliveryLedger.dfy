/** The delivery ledger: runs changed by compare-and-swap, their event and evidence logs with paging
    readers, and controller leases with the run's pointer to the active one. */
module DeliveryLedger {
  import opened Base

  type DeliveryId = string
  type LeaseId = string
  type Time = nat

  const MAX_EVENTS_PER_RUN: nat := 100_000

  const TERMINAL_STATES: set<string> := {
    "SUCCEEDED", "REJECTED", "FAILED", "CANCELLED_PRE_ARM", "ROLLED_BACK", "ROLLBACK_FAILED",
    "MANUAL_RECOVERY_REQUIRED", "PARTIAL", "AMBIGUOUS", "UNKNOWN"}

  datatype LeaseStatus = Active | Released | Expired

  datatype Lease = Lease(
    generation: nat, holder: string, acquiredAt: Time, heartbeatAt: Time, expiresAt: Time,
    status: LeaseStatus, releasedAt: Option<Time>)

  /** What a transition request means, apart from its idempotency key. */
  datatype Change = Change(
    planDigest: string, generation: nat, expectedState: string, expectedSequence: nat, nextState: string,
    phase: string, kind: string, message: string, occurredAt: Time, deploymentId: Option<string>,
    deploymentState: Option<string>, detail: string)

  /** The part of a run that transitions change. */
  datatype Progress = Progress(
    state: string, sequence: nat, deploymentId: Option<string>, deploymentState: Option<string>, terminal: bool)

  datatype Event = Event(offset: nat, key: string, change: Change, after: Progress)

  datatype Evidence = Evidence(
    generation: nat, planDigest: string, deploymentId: Option<string>, kind: string, digest: string, detail: string)

  datatype EvidenceRow = EvidenceRow(sequence: nat, evidence: Evidence)

  datatype Run = Run(
    planDigest: string, generation: nat, expiresAt: Time, progress: Progress, pointer: Option<LeaseId>,
    leases: map<LeaseId, Lease>, events: seq<Event>, evidence: seq<EvidenceRow>)

  type Ledger = map<DeliveryId, Run>

  datatype Error =
    | NotFound | PlanChanged | GenerationConflict | StateConflict | DeliveryExpired | Conflict | Invalid
    | IdempotencyConflict | ControllerConflict

  // ---------------------------------------------------------------- runs and transitions

  function CreateRun(l: Ledger, id: DeliveryId, planDigest: string, generation: nat, createdAt: Time, expiresAt: Time)
    : (Ledger, Result<Run, Error>)
  {
    if generation == 0 then (l, Err(Invalid))
    else if createdAt > expiresAt then (l, Err(DeliveryExpired))
    else if id in l then
      if l[id].planDigest != planDigest then (l, Err(PlanChanged))
      else if l[id].generation != generation then (l, Err(GenerationConflict))
      else (l, Ok(l[id]))
    else
      var run := Run(planDigest, generation, expiresAt, Progress("PLANNED", 0, None, None, false), None, map[], [], []);
      (l[id := run], Ok(run))
  }

  function FindEvent(events: seq<Event>, key: string): Option<Event> {
    if events == [] then None
    else if events[0].key == key then Some(events[0])
    else FindEvent(events[1..], key)
  }

  /** One more than the greatest offset, or zero. */
  function NextOffset(events: seq<Event>): nat {
    if events == [] then 0
    else
      var before := NextOffset(events[..|events| - 1]);
      var last := events[|events| - 1].offset + 1;
      if last > before then last else before
  }

  function CheckChange(run: Run, c: Change): Result<Progress, Error> {
    var p := run.progress;
    var deploymentId := if c.deploymentId.Some? then c.deploymentId else p.deploymentId;
    var deploymentState := if c.deploymentState.Some? then c.deploymentState else p.deploymentState;
    if run.planDigest != c.planDigest then Err(PlanChanged)
    else if run.generation != c.generation then Err(GenerationConflict)
    else if p.terminal then Err(StateConflict)
    else if p.state != c.expectedState || p.sequence != c.expectedSequence then Err(StateConflict)
    else if c.occurredAt > run.expiresAt then Err(DeliveryExpired)
    else if p.deploymentId.Some? && c.deploymentId.Some? && p.deploymentId != c.deploymentId then Err(Conflict)
    else if deploymentState.Some? && deploymentId.None? then Err(Invalid)
    else if |run.events| >= MAX_EVENTS_PER_RUN then Err(Conflict)
    else Ok(Progress(c.nextState, p.sequence + 1, deploymentId, deploymentState, c.nextState in TERMINAL_STATES))
  }

  /** A replay returns the stored event and says so. */
  function Transition(l: Ledger, id: DeliveryId, key: string, c: Change): (Ledger, Result<(Event, bool), Error>) {
    if id !in l then (l, Err(NotFound))
    else
      var run := l[id];
      var prior := FindEvent(run.events, key);
      if prior.Some? then
        (l, if prior.value.change == c then Ok((prior.value, true)) else Err(IdempotencyConflict))
      else
        match CheckChange(run, c)
        case Err(e) => (l, Err(e))
        case Ok(after) =>
          var event := Event(NextOffset(run.events), key, c, after);
          (l[id := run.(progress := after, events := run.events + [event])], Ok((event, false)))
  }

  // ---------------------------------------------------------------- evidence

  function NextSequence(rows: seq<EvidenceRow>): nat {
    if rows == [] then 0
    else
      var before := NextSequence(rows[..|rows| - 1]);
      var last := rows[|rows| - 1].sequence + 1;
      if last > before then last else before
  }

  function FindEvidence(rows: seq<EvidenceRow>, kind: string, digest: string): Option<Evidence> {
    if rows == [] then None
    else if rows[0].evidence.kind == kind && rows[0].evidence.digest == digest then Some(rows[0].evidence)
    else FindEvidence(rows[1..], kind, digest)
  }

  function Fence(l: Ledger, id: DeliveryId, planDigest: string, generation: nat): Result<Run, Error> {
    if id !in l then Err(NotFound)
    else if l[id].planDigest != planDigest then Err(PlanChanged)
    else if l[id].generation != generation then Err(GenerationConflict)
    else Ok(l[id])
  }

  function AppendEvidence(l: Ledger, id: DeliveryId, e: Evidence): (Ledger, Result<Evidence, Error>) {
    match Fence(l, id, e.planDigest, e.generation)
    case Err(x) => (l, Err(x))
    case Ok(run) =>
      var existing := FindEvidence(run.evidence, e.kind, e.digest);
      if e.deploymentId.Some? && run.progress.deploymentId != e.deploymentId then (l, Err(Conflict))
      else if existing.Some? then (l, if existing.value == e then Ok(e) else Err(Conflict))
      else
        var row := EvidenceRow(NextSequence(run.evidence), e);
        (l[id := run.(evidence := run.evidence + [row])], Ok(e))
  }

  // ---------------------------------------------------------------- controller leases

  predicate IsActive(run: Run, id: LeaseId) {
    id in run.leases && run.leases[id].status == Active
  }

  /** The lease row the active-lease query returns. */
  ghost function ActiveLease(run: Run): Option<LeaseId> {
    if exists id :: IsActive(run, id) then
      var id :| IsActive(run, id);
      Some(id)
    else None
  }

  /** Marks the displaced lease as expired at the takeover. */
  function Displace(run: Run, displaced: Option<LeaseId>, at: Time): map<LeaseId, Lease>
    requires displaced.Some? ==> displaced.value in run.leases
  {
    if displaced.None? then run.leases
    else run.leases[displaced.value := run.leases[displaced.value].(heartbeatAt := at, status := Expired, releasedAt := Some(at))]
  }

  ghost function Acquire(
    l: Ledger, id: DeliveryId, planDigest: string, generation: nat, lease: LeaseId, holder: string,
    acquiredAt: Time, expiresAt: Time): (Ledger, Result<Lease, Error>)
  {
    if expiresAt <= acquiredAt then (l, Err(Invalid))
    else
      match Fence(l, id, planDigest, generation)
      case Err(e) => (l, Err(e))
      case Ok(run) =>
        var made := Lease(generation, holder, acquiredAt, acquiredAt, expiresAt, Active, None);
        var active := ActiveLease(run);
        if run.progress.terminal then (l, Err(StateConflict))
        else if lease in run.leases then
          var same := run.leases[lease];
          if same.generation == generation && same.holder == holder && same.acquiredAt == acquiredAt
             && same.expiresAt == expiresAt && same.status == Active
          then (l, Ok(same)) else (l, Err(ControllerConflict))
        else if active.Some? && run.leases[active.value].expiresAt > acquiredAt then (l, Err(ControllerConflict))
        else
          (l[id := run.(leases := Displace(run, active, acquiredAt)[lease := made], pointer := Some(lease))], Ok(made))
  }

  function Renew(
    l: Ledger, id: DeliveryId, planDigest: string, generation: nat, lease: LeaseId, holder: string,
    heartbeatAt: Time, expiresAt: Time): (Ledger, Result<Lease, Error>)
  {
    if expiresAt <= heartbeatAt then (l, Err(Invalid))
    else
      match Fence(l, id, planDigest, generation)
      case Err(e) => (l, Err(e))
      case Ok(run) =>
        if lease !in run.leases then (l, Err(ControllerConflict))
        else
          var held := run.leases[lease];
          if held.status != Active || held.holder != holder || run.pointer != Some(lease) then (l, Err(ControllerConflict))
          else if heartbeatAt < held.heartbeatAt then (l, Err(ControllerConflict))
          else if heartbeatAt == held.heartbeatAt && expiresAt == held.expiresAt then (l, Ok(held))
          else if expiresAt < held.expiresAt then (l, Err(ControllerConflict))
          else
            var renewed := held.(heartbeatAt := heartbeatAt, expiresAt := expiresAt);
            (l[id := run.(leases := run.leases[lease := renewed], pointer := Some(lease))], Ok(renewed))
  }

  function Release(
    l: Ledger, id: DeliveryId, planDigest: string, generation: nat, lease: LeaseId, holder: string, releasedAt: Time)
    : (Ledger, Result<Lease, Error>)
  {
    match Fence(l, id, planDigest, generation)
    case Err(e) => (l, Err(e))
    case Ok(run) =>
      if lease !in run.leases then (l, Err(ControllerConflict))
      else
        var held := run.leases[lease];
        if held.holder != holder then (l, Err(ControllerConflict))
        else if held.status == Released then
          (l, if held.releasedAt == Some(releasedAt) then Ok(held) else Err(ControllerConflict))
        else if held.status != Active then (l, Err(ControllerConflict))
        else
          var released := held.(heartbeatAt := releasedAt, status := Released, releasedAt := Some(releasedAt));
          var pointer := if run.pointer == Some(lease) then None else run.pointer;
          (l[id := run.(leases := run.leases[lease := released], pointer := pointer)], Ok(released))
  }

  // ---------------------------------------------------------------- paging

  datatype Page<T> = Page(items: seq<T>, next: nat)

  /** Rows at or past `offset` that satisfy `keep`, at most `limit` of them, in log order. */
  function Pick<T>(rows: seq<T>, at: T -> nat, keep: T -> bool, offset: nat, limit: nat): seq<T> {
    if rows == [] || limit == 0 then []
    else if at(rows[0]) >= offset && keep(rows[0]) then [rows[0]] + Pick(rows[1..], at, keep, offset, limit - 1)
    else Pick(rows[1..], at, keep, offset, limit)
  }

  function PageOf<T>(rows: seq<T>, at: T -> nat, keep: T -> bool, offset: nat, limit: nat): Page<T> {
    var items := Pick(rows, at, keep, offset, limit);
    Page(items, if items == [] then offset else at(items[|items| - 1]) + 1)
  }

  function ListEvents(run: Run, offset: nat, limit: nat): Result<Page<Event>, Error> {
    if limit < 1 || limit > 200 then Err(Invalid)
    else Ok(PageOf(run.events, (e: Event) => e.offset, (e: Event) => true, offset, limit))
  }

  function ListEvidence(run: Run, kind: Option<string>, offset: nat, limit: nat): Result<Page<EvidenceRow>, Error> {
    if limit < 1 || limit > 200 then Err(Invalid)
    else
      Ok(PageOf(run.evidence, (r: EvidenceRow) => r.sequence,
                (r: EvidenceRow) => kind.None? || r.evidence.kind == kind.value, offset, limit))
  }

  // ---------------------------------------------------------------- the persistence object

  class DeliveryPersistence {
    var runs: Ledger

    constructor ()
      ensures runs == map[]
    {
      runs := map[];
    }

    method Create(id: DeliveryId, planDigest: string, generation: nat, createdAt: Time, expiresAt: Time)
      returns (r: Result<Run, Error>)
      modifies this
      ensures (runs, r) == CreateRun(old(runs), id, planDigest, generation, createdAt, expiresAt)
    {
      if generation == 0 { return Err(Invalid); }
      if createdAt > expiresAt { return Err(DeliveryExpired); }
      if id in runs {
        if runs[id].planDigest != planDigest { return Err(PlanChanged); }
        if runs[id].generation != generation { return Err(GenerationConflict); }
        return Ok(runs[id]);
      }
      var run := Run(planDigest, generation, expiresAt, Progress("PLANNED", 0, None, None, false), None, map[], [], []);
      runs := runs[id := run];
      return Ok(run);
    }

    method Transit(id: DeliveryId, key: string, c: Change) returns (r: Result<(Event, bool), Error>)
      modifies this
      ensures (runs, r) == Transition(old(runs), id, key, c)
    {
      if id !in runs { return Err(NotFound); }
      var run := runs[id];
      var i := 0;
      while i < |run.events|
        invariant 0 <= i <= |run.events|
        invariant FindEvent(run.events, key) == FindEvent(run.events[i..], key)
        invariant runs == old(runs)
      {
        DropNext(run.events, i);
        if run.events[i].key == key {
          return if run.events[i].change == c then Ok((run.events[i], true)) else Err(IdempotencyConflict);
        }
        i := i + 1;
      }
      var checked := CheckChange(run, c);
      if checked.Err? { return Err(checked.error); }
      var offset := NextOffset(run.events);
      var event := Event(offset, key, c, checked.value);
      runs := runs[id := run.(progress := checked.value, events := run.events + [event])];
      return Ok((event, false));
    }

    method AddEvidence(id: DeliveryId, e: Evidence) returns (r: Result<Evidence, Error>)
      modifies this
      ensures (runs, r) == AppendEvidence(old(runs), id, e)
    {
      var fenced := Fence(runs, id, e.planDigest, e.generation);
      if fenced.Err? { return Err(fenced.error); }
      var run := fenced.value;
      if e.deploymentId.Some? && run.progress.deploymentId != e.deploymentId { return Err(Conflict); }
      var existing := FindEvidence(run.evidence, e.kind, e.digest);
      if existing.Some? { return if existing.value == e then Ok(e) else Err(Conflict); }
      var row := EvidenceRow(NextSequence(run.evidence), e);
      runs := runs[id := run.(evidence := run.evidence + [row])];
      return Ok(e);
    }

    /** SELECT of the active lease; the unique index allows at most one. */
    method FindActive(run: Run) returns (active: Option<LeaseId>)
      requires forall a, b | IsActive(run, a) && IsActive(run, b) :: a == b
      ensures active == ActiveLease(run)
    {
      var rest := run.leases.Keys;
      while rest != {}
        invariant rest <= run.leases.Keys
        invariant forall x | x in run.leases && x !in rest :: !IsActive(run, x)
        decreases rest
      {
        var x :| x in rest;
        if run.leases[x].status == Active {
          assert IsActive(run, x);
          return Some(x);
        }
        rest := rest - {x};
      }
      return None;
    }

    method AcquireLease(
      id: DeliveryId, planDigest: string, generation: nat, lease: LeaseId, holder: string, acquiredAt: Time, expiresAt: Time)
      returns (r: Result<Lease, Error>)
      requires id in runs ==> forall a, b | IsActive(runs[id], a) && IsActive(runs[id], b) :: a == b
      modifies this
      ensures (runs, r) == Acquire(old(runs), id, planDigest, generation, lease, holder, acquiredAt, expiresAt)
    {
      if expiresAt <= acquiredAt { return Err(Invalid); }
      var fenced := Fence(runs, id, planDigest, generation);
      if fenced.Err? { return Err(fenced.error); }
      var run := fenced.value;
      if run.progress.terminal { return Err(StateConflict); }
      if lease in run.leases {
        var same := run.leases[lease];
        if same.generation == generation && same.holder == holder && same.acquiredAt == acquiredAt
           && same.expiresAt == expiresAt && same.status == Active
        {
          return Ok(same);
        }
        return Err(ControllerConflict);
      }
      var active := FindActive(run);
      if active.Some? && run.leases[active.value].expiresAt > acquiredAt { return Err(ControllerConflict); }
      var made := Lease(generation, holder, acquiredAt, acquiredAt, expiresAt, Active, None);
      runs := runs[id := run.(leases := Displace(run, active, acquiredAt)[lease := made], pointer := Some(lease))];
      return Ok(made);
    }

    method RenewLease(
      id: DeliveryId, planDigest: string, generation: nat, lease: LeaseId, holder: string, heartbeatAt: Time, expiresAt: Time)
      returns (r: Result<Lease, Error>)
      modifies this
      ensures (runs, r) == Renew(old(runs), id, planDigest, generation, lease, holder, heartbeatAt, expiresAt)
    {
      if expiresAt <= heartbeatAt { return Err(Invalid); }
      var fenced := Fence(runs, id, planDigest, generation);
      if fenced.Err? { return Err(fenced.error); }
      var run := fenced.value;
      if lease !in run.leases { return Err(ControllerConflict); }
      var held := run.leases[lease];
      if held.status != Active || held.holder != holder || run.pointer != Some(lease) { return Err(ControllerConflict); }
      if heartbeatAt < held.heartbeatAt { return Err(ControllerConflict); }
      if heartbeatAt == held.heartbeatAt && expiresAt == held.expiresAt { return Ok(held); }
      if expiresAt < held.expiresAt { return Err(ControllerConflict); }
      var renewed := held.(heartbeatAt := heartbeatAt, expiresAt := expiresAt);
      runs := runs[id := run.(leases := run.leases[lease := renewed], pointer := Some(lease))];
      return Ok(renewed);
    }

    method ReleaseLease(
      id: DeliveryId, planDigest: string, generation: nat, lease: LeaseId, holder: string, releasedAt: Time)
      returns (r: Result<Lease, Error>)
      modifies this
      ensures (runs, r) == Release(old(runs), id, planDigest, generation, lease, holder, releasedAt)
    {
      var fenced := Fence(runs, id, planDigest, generation);
      if fenced.Err? { return Err(fenced.error); }
      var run := fenced.value;
      if lease !in run.leases { return Err(ControllerConflict); }
      var held := run.leases[lease];
      if held.holder != holder { return Err(ControllerConflict); }
      if held.status == Released {
        return if held.releasedAt == Some(releasedAt) then Ok(held) else Err(ControllerConflict);
      }
      if held.status != Active { return Err(ControllerConflict); }
      var released := held.(heartbeatAt := releasedAt, status := Released, releasedAt := Some(releasedAt));
      var pointer := if run.pointer == Some(lease) then None else run.pointer;
      runs := runs[id := run.(leases := run.leases[lease := released], pointer := pointer)];
      return Ok(released);
    }
  }
}
