/** The deployment ledger: rows, products, evidence and the hash-chained transition log, changed only
    by transactions. */
module Ledger {
  import opened Base
  import opened Order
  import opened StateMachine

  datatype ProductName = BabyQuirt | BabyQuirtMcp

  function RepositoryOf(p: ProductName): string {
    match p
    case BabyQuirt => "StealthEyeLLC/baby-quirt"
    case BabyQuirtMcp => "StealthEyeLLC/baby-quirt-mcp"
  }

  datatype Request = Request(
    deploymentId: string, generation: nat, machineId: string, planDigest: string, requestDigest: string,
    deadline: nat, requestedAt: nat, requestedBy: string, idempotencyKey: string)

  datatype Source = Source(deploymentId: string, product: ProductName, repository: string, commit: string, tree: string)

  datatype Product = Product(
    deploymentId: string, product: ProductName, repository: string, commit: string, tree: string,
    manifestDigest: string, artifactDigest: string, compatibilityDigest: string)

  datatype Evidence = Evidence(
    deploymentId: string, kind: string, digest: string, contentLength: nat, signingKeyId: string,
    signature: string, createdAt: string)

  /** What an intent digest binds: everything but the idempotency key and the signature. */
  datatype Intent = Intent(
    deploymentId: string, generation: nat, expectedState: State, expectedSequence: nat, nextState: State,
    evidence: seq<EvidenceRef>, actor: string, occurredAt: string, reason: Option<string>,
    guardStatus: Option<GuardStatus>, successMarkerDigest: Option<string>, signatureAlgorithm: Option<string>)

  /** Ideal digests: each holds the document that was hashed. */
  datatype Hash =
    | CreationHash(request: Request, sources: seq<Source>)
    | TransitionHash(prior: Hash, intent: Intent, sequence: nat, mutation: MutationClass, truth: TerminalTruth)
    | RecordHash(
        priorRecord: Hash, transition: Hash, state: State, stateSequence: nat, guardArmed: bool,
        marker: Option<string>, terminal: bool)

  datatype Deployment = Deployment(
    request: Request, sources: seq<Source>, state: State, sequence: nat, armed: bool, marker: Option<string>,
    terminal: bool, record: Hash, updatedAt: string)

  datatype Transition = Transition(input: TransitionInput, sequence: nat, intent: Intent, digest: Hash, terminal: bool)

  datatype Db = Db(
    deployments: map<string, Deployment>,
    products: map<(string, ProductName), Product>,
    evidence: map<(string, string, string), Evidence>,
    transitions: seq<Transition>)

  const EMPTY_DB := Db(map[], map[], map[], [])

  /** The collation of evidence keys. */
  type Collation = (EvidenceRef, EvidenceRef) -> bool

  function IntentOf(x: TransitionInput, less: Collation): Intent {
    Intent(x.deploymentId, x.generation, x.expectedState, x.expectedSequence, x.nextState, Sort(less, x.evidence),
           x.actor, x.occurredAt, x.reason, x.guardStatus, x.successMarkerDigest, x.signatureAlgorithm)
  }

  // ---------------------------------------------------------------- creating a deployment

  /** The two sources in product order, when exactly the two products are named once each. */
  function CanonicalSources(id: string, sources: seq<Source>): Result<seq<Source>, TransitionError> {
    if |sources| != 2 then Err(Invalid)
    else if sources[0].deploymentId != id || sources[1].deploymentId != id then Err(Invalid)
    else if sources[0].product == sources[1].product then Err(Invalid)
    else if sources[0].repository != RepositoryOf(sources[0].product)
         || sources[1].repository != RepositoryOf(sources[1].product) then Err(Invalid)
    else if sources[0].product == BabyQuirt then Ok(sources) else Ok([sources[1], sources[0]])
  }

  function Created(request: Request, sources: seq<Source>): Deployment {
    Deployment(request, sources, Requested, 0, false, None, false, CreationHash(request, sources), "")
  }

  predicate HasKey(d: Deployment, key: string) {
    d.request.idempotencyKey == key
  }

  ghost function CreateDeployment(db: Db, request: Request, sources: seq<Source>): (Db, Result<Deployment, TransitionError>) {
    var canonical := CanonicalSources(request.deploymentId, sources);
    if request.deadline <= request.requestedAt || request.generation == 0 then (db, Err(Invalid))
    else if canonical.Err? then (db, Err(canonical.error))
    else if exists id :: id in db.deployments && HasKey(db.deployments[id], request.idempotencyKey) then
      var id :| id in db.deployments && HasKey(db.deployments[id], request.idempotencyKey);
      var existing := db.deployments[id];
      if existing.request.requestDigest == request.requestDigest && existing.sources == canonical.value
      then (db, Ok(existing)) else (db, Err(IdempotencyConflict))
    else if exists id :: id in db.deployments &&
              (id == request.deploymentId || db.deployments[id].request.generation == request.generation) then
      (db, Err(Conflict))
    else
      var row := Created(request, canonical.value);
      (db.(deployments := db.deployments[request.deploymentId := row]), Ok(row))
  }

  // ---------------------------------------------------------------- products and evidence

  function SourceOf(d: Deployment, p: ProductName): Option<Source> {
    if |d.sources| != 2 then None
    else if d.sources[0].product == p then Some(d.sources[0])
    else if d.sources[1].product == p then Some(d.sources[1])
    else None
  }

  function AddProduct(db: Db, p: Product): (Db, Result<Product, TransitionError>) {
    var key := (p.deploymentId, p.product);
    if p.repository != RepositoryOf(p.product) then (db, Err(Invalid))
    else if p.deploymentId !in db.deployments then (db, Err(NotFound))
    else
      var d := db.deployments[p.deploymentId];
      if d.state != Requested && d.state != ArtifactVerified && d.state != CompatibilityVerifying then
        (db, Err(StateConflict))
      else
        match SourceOf(d, p.product)
        case None => (db, Err(Invalid))
        case Some(s) =>
          if s.repository != p.repository || s.commit != p.commit || s.tree != p.tree then (db, Err(Conflict))
          else if key in db.products then
            if db.products[key] == p then (db, Ok(p)) else (db, Err(Conflict))
          else (db.(products := db.products[key := p]), Ok(p))
  }

  function AppendEvidence(db: Db, e: Evidence): (Db, Result<Evidence, TransitionError>) {
    var key := (e.deploymentId, e.kind, e.digest);
    if e.deploymentId !in db.deployments then (db, Err(NotFound))
    else if key in db.evidence then
      if db.evidence[key] == e then (db, Ok(e)) else (db, Err(Conflict))
    else (db.(evidence := db.evidence[key := e]), Ok(e))
  }

  // ---------------------------------------------------------------- transitions

  predicate Attempted(t: Transition, id: string, key: string) {
    t.input.deploymentId == id && t.input.idempotencyKey == key
  }

  /** The recorded transition of that deployment under that key. */
  function PriorAttempt(log: seq<Transition>, id: string, key: string): Option<Transition> {
    if log == [] then None
    else if Attempted(log[0], id, key) then Some(log[0])
    else PriorAttempt(log[1..], id, key)
  }

  predicate DistinctEvidence(evidence: seq<EvidenceRef>) {
    forall i, j | 0 <= i < j < |evidence| :: evidence[i] != evidence[j]
  }

  predicate CompatibleProducts(db: Db, id: string) {
    && (id, BabyQuirt) in db.products && (id, BabyQuirtMcp) in db.products
    && db.products[(id, BabyQuirt)].compatibilityDigest == db.products[(id, BabyQuirtMcp)].compatibilityDigest
  }

  predicate EvidenceInLedger(db: Db, id: string, evidence: seq<EvidenceRef>) {
    forall i | 0 <= i < |evidence| :: (id, evidence[i].kind, evidence[i].digest) in db.evidence
  }

  /** The checks a fresh transition of row `d` has to pass, in their order. */
  function CheckFresh(db: Db, d: Deployment, x: TransitionInput): Result<(), TransitionError> {
    if d.terminal then Err(TerminalState)
    else if d.request.generation != x.generation then Err(GenerationConflict)
    else if d.state != x.expectedState || d.sequence != x.expectedSequence then Err(StateConflict)
    else if CheckTransition(d.armed, x).Err? then CheckTransition(d.armed, x)
    else if x.nextState == Preflight && !CompatibleProducts(db, x.deploymentId) then Err(Forbidden)
    else if !EvidenceInLedger(db, x.deploymentId, x.evidence) then Err(EvidenceMissing)
    else if Terminal(x.nextState) &&
            (x.signatureAlgorithm != Some("ed25519") || x.signingKeyId.None? || x.signature.None?) then Err(Forbidden)
    else if x.nextState == Succeeded && d.marker != x.successMarkerDigest then Err(Forbidden)
    else Ok(())
  }

  function RecordFor(d: Deployment, x: TransitionInput, less: Collation): Transition {
    var intent := IntentOf(x, less);
    var digest := TransitionHash(d.record, intent, d.sequence + 1, Mutation(x.nextState), Truth(x.nextState));
    Transition(x, d.sequence + 1, intent, digest, Terminal(x.nextState))
  }

  /** The row after a transition was recorded. */
  function Advance(d: Deployment, t: Transition): Deployment {
    var x := t.input;
    var armed := NextFlag(d.armed, x.guardStatus);
    var marker := if x.successMarkerDigest.Some? then x.successMarkerDigest else d.marker;
    d.(state := x.nextState, sequence := t.sequence, armed := armed, marker := marker, terminal := t.terminal,
       record := RecordHash(d.record, t.digest, x.nextState, t.sequence, armed, marker, t.terminal),
       updatedAt := x.occurredAt)
  }

  function ApplyTransition(db: Db, x: TransitionInput, less: Collation): (Db, Result<Transition, TransitionError>) {
    var prior := PriorAttempt(db.transitions, x.deploymentId, x.idempotencyKey);
    if x.generation == 0 then (db, Err(Invalid))
    else if x.evidence == [] then (db, Err(EvidenceMissing))
    else if !DistinctEvidence(x.evidence) then (db, Err(Invalid))
    else if x.signatureAlgorithm.Some? && x.signatureAlgorithm.value != "ed25519" then (db, Err(Invalid))
    else if prior.Some? then
      if prior.value.intent == IntentOf(x, less) then (db, Ok(prior.value)) else (db, Err(IdempotencyConflict))
    else if x.deploymentId !in db.deployments then (db, Err(NotFound))
    else
      var d := db.deployments[x.deploymentId];
      match CheckFresh(db, d, x)
      case Err(e) => (db, Err(e))
      case Ok(_) =>
        var t := RecordFor(d, x, less);
        (db.(deployments := db.deployments[x.deploymentId := Advance(d, t)], transitions := db.transitions + [t]), Ok(t))
  }

  // ---------------------------------------------------------------- the database object

  class DeploymentDatabase {
    const less: Collation
    var deployments: map<string, Deployment>
    var products: map<(string, ProductName), Product>
    var evidence: map<(string, string, string), Evidence>
    var transitions: seq<Transition>

    function View(): Db
      reads this
    {
      Db(deployments, products, evidence, transitions)
    }

    constructor (less: Collation)
      ensures this.less == less && View() == EMPTY_DB
    {
      this.less := less;
      deployments, products, evidence, transitions := map[], map[], map[], [];
    }

    /** SELECT by idempotency key; at most one row can match. */
    method FindByKey(key: string) returns (id: Option<string>)
      requires forall a, b | a in deployments && b in deployments &&
                 HasKey(deployments[a], key) && HasKey(deployments[b], key) :: a == b
      ensures id.Some? ==> id.value in deployments && HasKey(deployments[id.value], key)
      ensures id.None? ==> forall x | x in deployments :: !HasKey(deployments[x], key)
    {
      var rest := deployments.Keys;
      while rest != {}
        invariant rest <= deployments.Keys
        invariant forall x | x in deployments && x !in rest :: !HasKey(deployments[x], key)
        decreases rest
      {
        var x :| x in rest;
        if HasKey(deployments[x], key) { return Some(x); }
        rest := rest - {x};
      }
      return None;
    }

    method CreateNew(request: Request, sources: seq<Source>) returns (r: Result<Deployment, TransitionError>)
      requires forall a, b | a in deployments && b in deployments &&
                 deployments[a].request.idempotencyKey == deployments[b].request.idempotencyKey :: a == b
      modifies this
      ensures (View(), r) == CreateDeployment(old(View()), request, sources)
    {
      var canonical := CanonicalSources(request.deploymentId, sources);
      if request.deadline <= request.requestedAt || request.generation == 0 { return Err(Invalid); }
      if canonical.Err? { return Err(canonical.error); }
      var existing := FindByKey(request.idempotencyKey);
      if existing.Some? {
        var d := deployments[existing.value];
        if d.request.requestDigest == request.requestDigest && d.sources == canonical.value { return Ok(d); }
        return Err(IdempotencyConflict);
      }
      var rest := deployments.Keys;
      while rest != {}
        invariant rest <= deployments.Keys
        invariant forall x | x in deployments && x !in rest ::
                    x != request.deploymentId && deployments[x].request.generation != request.generation
        decreases rest
      {
        var x :| x in rest;
        if x == request.deploymentId || deployments[x].request.generation == request.generation {
          return Err(Conflict);
        }
        rest := rest - {x};
      }
      var row := Created(request, canonical.value);
      deployments := deployments[request.deploymentId := row];
      return Ok(row);
    }

    method AddFrozenProduct(p: Product) returns (r: Result<Product, TransitionError>)
      modifies this
      ensures (View(), r) == AddProduct(old(View()), p)
    {
      if p.repository != RepositoryOf(p.product) { return Err(Invalid); }
      if p.deploymentId !in deployments { return Err(NotFound); }
      var d := deployments[p.deploymentId];
      if d.state != Requested && d.state != ArtifactVerified && d.state != CompatibilityVerifying {
        return Err(StateConflict);
      }
      var source := SourceOf(d, p.product);
      if source.None? { return Err(Invalid); }
      if source.value.repository != p.repository || source.value.commit != p.commit || source.value.tree != p.tree {
        return Err(Conflict);
      }
      var key := (p.deploymentId, p.product);
      if key in products {
        if products[key] == p { return Ok(p); }
        return Err(Conflict);
      }
      products := products[key := p];
      return Ok(p);
    }

    method AppendRecordedEvidence(e: Evidence) returns (r: Result<Evidence, TransitionError>)
      modifies this
      ensures (View(), r) == AppendEvidence(old(View()), e)
    {
      if e.deploymentId !in deployments { return Err(NotFound); }
      var key := (e.deploymentId, e.kind, e.digest);
      if key in evidence {
        if evidence[key] == e { return Ok(e); }
        return Err(Conflict);
      }
      evidence := evidence[key := e];
      return Ok(e);
    }

    method FindAttempt(id: string, key: string) returns (r: Option<Transition>)
      ensures r == PriorAttempt(transitions, id, key)
    {
      var i := 0;
      while i < |transitions|
        invariant 0 <= i <= |transitions|
        invariant PriorAttempt(transitions, id, key) == PriorAttempt(transitions[i..], id, key)
      {
        DropNext(transitions, i);
        if Attempted(transitions[i], id, key) { return Some(transitions[i]); }
        i := i + 1;
      }
      return None;
    }

    method Transit(x: TransitionInput) returns (r: Result<Transition, TransitionError>)
      modifies this
      ensures (View(), r) == ApplyTransition(old(View()), x, less)
    {
      if x.generation == 0 { return Err(Invalid); }
      if x.evidence == [] { return Err(EvidenceMissing); }
      if !DistinctEvidence(x.evidence) { return Err(Invalid); }
      if x.signatureAlgorithm.Some? && x.signatureAlgorithm.value != "ed25519" { return Err(Invalid); }
      var prior := FindAttempt(x.deploymentId, x.idempotencyKey);
      if prior.Some? {
        if prior.value.intent == IntentOf(x, less) { return Ok(prior.value); }
        return Err(IdempotencyConflict);
      }
      if x.deploymentId !in deployments { return Err(NotFound); }
      var d := deployments[x.deploymentId];
      var checked := CheckFresh(View(), d, x);
      if checked.Err? { return Err(checked.error); }
      var t := RecordFor(d, x, less);
      transitions := transitions + [t];
      deployments := deployments[x.deploymentId := Advance(d, t)];
      return Ok(t);
    }
  }
}
