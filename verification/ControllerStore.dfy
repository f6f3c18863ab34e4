/** Signed controller records, the create-once store that keeps them, and what the store shows. */
module ControllerStore {
  import opened Base
  import opened Order
  import HostTree

  type DeploymentId = string

  /** Milliseconds since the epoch, as far as a date can reach in sixteen decimal digits. */
  type Millis = n: nat | n < 10_000_000_000_000_000

  // A record whose file does not parse is `Unreadable`: no check of its signature succeeds.
  datatype Signer = BabyAuthority | ControllerKey | Stranger | Unreadable

  datatype Disposition =
    Armed | Pending | SuccessMarkerValid | Disarmed | StaleGeneration | RolledBack | RollbackFailed

  datatype ProductPointers = ProductPointers(current: Option<string>, previous: Option<string>)
  datatype Pointers = Pointers(baby: ProductPointers, gateway: ProductPointers)

  /** The fields that guard, marker and evidence of one deployment share. */
  datatype Binding = Binding(
    deploymentId: DeploymentId, generation: nat, machineId: string, planDigest: string, snapshotDigest: string,
    babyManifest: string, gatewayManifest: string, babyTarget: string, gatewayTarget: string)

  // A record digest is an ideal hash of the payload, so records are compared instead of digests.
  datatype Guard = Guard(
    binding: Binding, expected: Pointers, deadline: Millis, evidenceDigest: string, signer: Signer)
  datatype Marker = Marker(binding: Binding, evidenceDigest: string, acceptedAt: Millis, signer: Signer)
  datatype Evidence = Evidence(
    binding: Binding, disposition: Disposition, details: Details, occurredAt: Millis, signer: Signer)

  datatype Details =
    | AboutGuard(guard: Guard, pointers: Pointers)
    | AboutMarker(marker: Marker)
    | AboutStale(latest: nat)
    | AboutPending(deadline: Millis, markerPresent: bool)
    | AboutDisarm(marker: Marker, guard: Guard)
    | AboutRestore(report: string)
    | AboutRecovery(report: string, reason: string, prior: Evidence)

  datatype GenerationRecord = GenerationRecord(deploymentId: DeploymentId, generation: nat, guard: Guard)

  datatype Store = Store(
    guards: map<DeploymentId, Guard>,
    generations: map<nat, GenerationRecord>,
    markers: map<DeploymentId, Marker>,
    disarmed: map<DeploymentId, Evidence>,
    rollback: map<DeploymentId, Evidence>,
    manual: map<DeploymentId, map<string, Evidence>>,
    evidence: set<Evidence>)

  const EMPTY_STORE := Store(map[], map[], map[], map[], map[], map[], {})

  // ---------------------------------------------------------------- what the store shows

  predicate Active(s: Store, id: DeploymentId) {
    id in s.guards && id !in s.disarmed && id !in s.rollback
  }

  ghost predicate IsLatest(gs: set<nat>, m: nat) {
    (forall g | g in gs :: g <= m) && (if gs == {} then m == 0 else m in gs)
  }

  lemma {:induction false} LatestExists(gs: set<nat>)
    ensures exists m: nat :: IsLatest(gs, m)
  {
    if gs == {} {
      assert IsLatest(gs, 0);
    } else {
      var g :| g in gs;
      LatestExists(gs - {g});
      var m: nat :| IsLatest(gs - {g}, m);
      var top := if m < g then g else m;
      assert forall x | x in gs :: x == g || x in gs - {g};
      assert IsLatest(gs, top);
    }
  }

  /** The greatest recorded generation, or zero. */
  ghost function Latest(s: Store): (m: nat)
    ensures IsLatest(s.generations.Keys, m)
  {
    LatestExists(s.generations.Keys);
    var m: nat :| IsLatest(s.generations.Keys, m);
    m
  }

  lemma DatesFit()
    ensures Power10(16) == 10_000_000_000_000_000
  {
    assert Power10(4) == 10_000;
    assert Power10(8) == 100_000_000;
    assert Power10(12) == 1_000_000_000_000;
  }

  /** The name of a manual-recovery attempt: its time on sixteen digits, then its digest. */
  function AttemptName(e: Evidence, hex: Evidence -> string): string {
    DatesFit();
    Pad(e.occurredAt, 16) + "-" + hex(e)
  }

  function LastAttempt(attempts: map<string, Evidence>): Option<Evidence> {
    var names := HostTree.SortedNames(attempts.Keys);
    if names == [] then None
    else
      assert names[|names| - 1] in names;
      Some(attempts[names[|names| - 1]])
  }

  function AttemptsOf(s: Store, id: DeploymentId): map<string, Evidence> {
    if id in s.manual then s.manual[id] else map[]
  }

  function ReadTerminal(s: Store, id: DeploymentId): Option<Evidence> {
    var last := LastAttempt(AttemptsOf(s, id));
    if last.Some? then last
    else if id in s.disarmed then Some(s.disarmed[id])
    else if id in s.rollback then Some(s.rollback[id])
    else None
  }

  // ---------------------------------------------------------------- durable steps

  /** One durable step: a create-once record, or a restoration of the host. */
  datatype Write =
    | PutGuard(guard: Guard)
    | PutGeneration(guard: Guard)
    | PutMarker(marker: Marker)
    | PutEvidence(evidence: Evidence)
    | PutDisarmed(evidence: Evidence)
    | PutRollback(evidence: Evidence)
    | PutAttempt(name: string, evidence: Evidence)
    | RestoreHost(id: DeploymentId, manual: bool)

  datatype Restoration = Restoration(id: DeploymentId, manual: bool)

  /** The store and the restorations of the host so far. */
  datatype World = World(store: Store, restored: seq<Restoration>)

  /** A create-once file: equal contents are accepted again, different contents refused. */
  function CreateOnce<K, V(==)>(m: map<K, V>, k: K, v: V): Option<map<K, V>> {
    if k !in m then Some(m[k := v]) else if m[k] == v then Some(m) else None
  }

  function Apply(w: World, x: Write): Option<World> {
    var s := w.store;
    match x
    case PutGuard(g) =>
      (match CreateOnce(s.guards, g.binding.deploymentId, g)
       case None => None
       case Some(m) => Some(w.(store := s.(guards := m))))
    case PutGeneration(g) =>
      var record := GenerationRecord(g.binding.deploymentId, g.binding.generation, g);
      (match CreateOnce(s.generations, g.binding.generation, record)
       case None => None
       case Some(m) => Some(w.(store := s.(generations := m))))
    case PutMarker(r) =>
      (match CreateOnce(s.markers, r.binding.deploymentId, r)
       case None => None
       case Some(m) => Some(w.(store := s.(markers := m))))
    // The name of an evidence file is the digest of its contents, so an existing one is equal.
    case PutEvidence(e) => Some(w.(store := s.(evidence := s.evidence + {e})))
    case PutDisarmed(e) =>
      (match CreateOnce(s.disarmed, e.binding.deploymentId, e)
       case None => None
       case Some(m) => Some(w.(store := s.(disarmed := m))))
    case PutRollback(e) =>
      (match CreateOnce(s.rollback, e.binding.deploymentId, e)
       case None => None
       case Some(m) => Some(w.(store := s.(rollback := m))))
    case PutAttempt(name, e) =>
      var id := e.binding.deploymentId;
      (match CreateOnce(AttemptsOf(s, id), name, e)
       case None => None
       case Some(m) => Some(w.(store := s.(manual := s.manual[id := m]))))
    case RestoreHost(id, manual) => Some(w.(restored := w.restored + [Restoration(id, manual)]))
  }

  /** The writes that record a piece of evidence. */
  function EvidenceWrites(e: Evidence): seq<Write> {
    [PutEvidence(e)] +
    (if e.disposition == Disarmed then [PutDisarmed(e)]
     else if e.disposition == RolledBack || e.disposition == RollbackFailed then [PutRollback(e)]
     else [])
  }
}
