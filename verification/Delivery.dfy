/** Publishing a delivery through a provider: push, pull request, workflow and artifacts, each a durable
    run that may be cut off anywhere and resumed from its stored result. */
module Delivery {
  import opened Base

  type Commit = string
  type Tree = string

  datatype RunId = Named(name: string) | Child(parent: string, part: string)

  datatype PullRequest = PullRequest(
    number: nat, baseBranch: string, headBranch: string, headCommit: Commit, headTree: Tree,
    title: string, body: string, draft: bool, open: bool, changedPaths: string)

  datatype WorkflowIdentity = WorkflowIdentity(workflow: string, runId: nat, attempt: nat, headSha: Commit)

  datatype Job = Job(jobId: nat, success: bool)

  datatype Workflow = Workflow(identity: WorkflowIdentity, completed: bool, success: bool, jobs: seq<Job>)

  datatype Artifact = Artifact(
    name: string, artifactId: nat, workflow: WorkflowIdentity, digest: string, size: nat,
    sourceCommit: Commit, sourceTree: Tree)

  datatype Pushed = Pushed(planId: string, commit: Commit, tree: Tree)

  /** The recorded parts of a delivery. */
  datatype Parts = Parts(
    push: Option<Pushed>, pr: Option<PullRequest>, workflow: Option<Workflow>, artifacts: Option<seq<Artifact>>)

  const NOTHING := Parts(None, None, None, None)

  datatype DeliveryInput = DeliveryInput(
    repository: string, workspace: string, destinationRef: string, headBranch: string, baseBranch: string,
    title: string, body: string, changedPaths: string, selected: seq<nat>, deadline: nat, maximum: nat,
    names: Option<set<string>>, digests: map<string, string>, maxBytes: nat)

  // The semantic digest of a request is an ideal hash, so requests are compared.
  datatype Request =
    | PrRequest(
        repository: string, headBranch: string, headCommit: Commit, headTree: Tree, baseBranch: string,
        previous: Option<Option<PullRequest>>, title: string, body: string)
    | WaitRequest(repository: string, workflow: WorkflowIdentity, selected: seq<nat>, deadline: nat, maximum: nat)
    | CaptureRequest(
        repository: string, workflow: WorkflowIdentity, names: Option<set<string>>, maxBytes: nat,
        commit: Commit, tree: Tree, digests: map<string, string>)
    | DeliveryRequest(input: DeliveryInput)

  datatype RunResult =
    | PrResult(pr: PullRequest)
    | WorkflowResult(workflow: Workflow)
    | ArtifactsResult(artifacts: seq<Artifact>)
    | DeliveryResult(parts: Parts)

  datatype RunState =
    | IntentPersisted | RemoteAttempted | RemoteReconciled | Verified | AmbiguousResult | Failed | Cancelled
    | PushVerified | PrVerified | WorkflowVerified | ArtifactsVerified | Completed

  datatype ProviderRun = ProviderRun(
    key: string, request: Request, state: RunState, result: Option<RunResult>, attempt: nat, partial: bool)

  /** The run table and the durable updates left before the process dies. */
  datatype World = World(runs: map<RunId, ProviderRun>, fuel: nat)

  datatype Error =
    | IdempotencyConflict | RunFailed | PreconditionFailed | WriteFailed | ResultUnknown | Mismatch
    | WorkflowNotFound | WorkflowMismatch | WorkflowTimeout | JobMissing | WorkflowFailed
    | ArtifactMissing | ArtifactExpired | SourceMismatch | SizeMismatch | DigestMismatch | StoreMismatch
    | PushRefused | PushMismatch | Terminal | Integrity

  datatype Ending<+T> = Done(value: T) | Refused(error: Error) | Crashed

  // ---------------------------------------------------------------- the run table

  /** The run under that identity and key, made if neither exists; any other use of them conflicts. */
  function Reserve(w: World, id: RunId, key: string, request: Request, result: Option<RunResult>)
    : (World, Ending<ProviderRun>)
  {
    if id in w.runs then
      (w, if w.runs[id].key == key && w.runs[id].request == request then Done(w.runs[id]) else Refused(IdempotencyConflict))
    else if exists other :: other in w.runs && w.runs[other].key == key then (w, Refused(IdempotencyConflict))
    else if w.fuel == 0 then (w, Crashed)
    else
      var run := ProviderRun(key, request, IntentPersisted, result, 0, false);
      (World(w.runs[id := run], w.fuel - 1), Done(run))
  }

  datatype Update = Update(state: RunState, attempt: Option<nat>, result: Option<RunResult>, partial: bool)

  function Updated(run: ProviderRun, u: Update): ProviderRun {
    run.(state := u.state,
         attempt := if u.attempt.Some? then u.attempt.value else run.attempt,
         result := if u.result.Some? then u.result else run.result,
         partial := run.partial || u.partial)
  }

  function Move(w: World, id: RunId, u: Update): (World, Ending<ProviderRun>) {
    if id !in w.runs then (w, Refused(Integrity))
    else if w.fuel == 0 then (w, Crashed)
    else (World(w.runs[id := Updated(w.runs[id], u)], w.fuel - 1), Done(Updated(w.runs[id], u)))
  }

  /** Records a failure and refuses. */
  function Fail<T>(w: World, id: RunId, state: RunState, e: Error): (World, Ending<T>) {
    var (w', o) := Move(w, id, Update(state, None, None, false));
    (w', match o case Done(_) => Refused(e) case Refused(x) => Refused(x) case Crashed => Crashed)
  }

  // ---------------------------------------------------------------- pull requests

  datatype WriteOutcome = WriteOutcome(failed: bool, readback: Option<PullRequest>)

  /** What the provider shows during one upsert. */
  datatype PrWeather = PrWeather(previous: Option<PullRequest>, outcome: WriteOutcome, found: Option<PullRequest>)

  predicate PrMatches(p: PullRequest, r: Request)
    requires r.PrRequest?
  {
    && p.baseBranch == r.baseBranch && p.headBranch == r.headBranch && p.headCommit == r.headCommit
    && p.headTree == r.headTree && p.title == r.title && p.body == r.body && p.draft && p.open
  }

  function FinishPr(w: World, id: RunId, p: PullRequest): (World, Ending<PullRequest>) {
    var (w1, o1) := Move(w, id, Update(RemoteReconciled, None, Some(PrResult(p)), false));
    if !o1.Done? then (w1, if o1.Crashed? then Crashed else Refused(o1.error))
    else
      var (w2, o2) := Move(w1, id, Update(Verified, None, Some(PrResult(p)), false));
      (w2, match o2 case Done(run) => StoredPr(run) case Refused(e) => Refused(e) case Crashed => Crashed)
  }

  function StoredPr(run: ProviderRun): Ending<PullRequest> {
    if run.result.Some? && run.result.value.PrResult? then Done(run.result.value.pr) else Refused(Integrity)
  }

  /** An upsert after its reservation: reconcile what exists, write, and reconcile again. */
  function AttemptPr(w: World, id: RunId, r: Request, x: PrWeather, attempt: nat): (World, Ending<PullRequest>)
    requires r.PrRequest?
  {
    if r.previous.Some? && r.previous.value != x.previous then Fail(w, id, Failed, PreconditionFailed)
    else if x.previous.Some? && PrMatches(x.previous.value, r) then FinishPr(w, id, x.previous.value)
    else
      var (w2, o2) := Move(w, id, Update(RemoteAttempted, Some(attempt + 1), None, false));
      if !o2.Done? then (w2, if o2.Crashed? then Crashed else Refused(o2.error))
      else ReconcilePr(w2, id, r, x)
  }

  function ReconcilePr(w: World, id: RunId, r: Request, x: PrWeather): (World, Ending<PullRequest>)
    requires r.PrRequest?
  {
    var seen := if x.outcome.readback.Some? then x.outcome.readback else x.found;
    if seen.Some? && PrMatches(seen.value, r) then FinishPr(w, id, seen.value)
    else if x.outcome.failed then Fail(w, id, Failed, WriteFailed)
    else Fail(w, id, AmbiguousResult, ResultUnknown)
  }

  function UpsertPr(w: World, id: RunId, key: string, r: Request, x: PrWeather): (World, Ending<PullRequest>)
    requires r.PrRequest?
  {
    var (w1, o1) := Reserve(w, id, key, r, None);
    match o1
    case Refused(e) => (w1, Refused(e))
    case Crashed => (w1, Crashed)
    case Done(run) =>
      if run.state == Verified then (w1, StoredPr(run))
      else if run.state == Failed then (w1, Refused(RunFailed))
      else AttemptPr(w1, id, r, x, run.attempt)
  }

  // ---------------------------------------------------------------- workflows

  predicate SameIdentity(a: WorkflowIdentity, b: WorkflowIdentity) {
    a.runId == b.runId && a.attempt == b.attempt && a.headSha == b.headSha
  }

  /** One answer of the provider while a workflow is awaited, and the clock at that moment. */
  datatype Poll = Poll(now: nat, readback: Workflow)

  function SelectedJobs(jobs: seq<Job>, ids: seq<nat>): seq<Job> {
    if jobs == [] then []
    else (if jobs[0].jobId in ids then [jobs[0]] else []) + SelectedJobs(jobs[1..], ids)
  }

  predicate AllSucceeded(jobs: seq<Job>) {
    forall i | 0 <= i < |jobs| :: jobs[i].success
  }

  function ChosenJobs(r: Request, wf: Workflow): seq<Job>
    requires r.WaitRequest?
  {
    if r.selected == [] then wf.jobs else SelectedJobs(wf.jobs, r.selected)
  }

  function StoredWorkflow(run: ProviderRun): Ending<Workflow> {
    if run.result.Some? && run.result.value.WorkflowResult? then Done(run.result.value.workflow) else Refused(Integrity)
  }

  /** The polling loop from a given attempt on. */
  function PollOn(w: World, id: RunId, r: Request, attempt: nat, polls: nat -> Poll): (World, Ending<Workflow>)
    requires r.WaitRequest?
    decreases r.maximum - attempt
  {
    if attempt >= r.maximum then Fail(w, id, Failed, WorkflowTimeout)
    else if polls(attempt).now > r.deadline then Fail(w, id, Failed, WorkflowTimeout)
    else
      var wf := polls(attempt).readback;
      if !SameIdentity(wf.identity, r.workflow) then (w, Refused(WorkflowMismatch))
      else
        var (w1, o1) := Move(w, id, Update(RemoteReconciled, Some(attempt + 1), Some(WorkflowResult(wf)), false));
        if !o1.Done? then (w1, if o1.Crashed? then Crashed else Refused(o1.error))
        else if !wf.completed then PollOn(w1, id, r, attempt + 1, polls)
        else if r.selected != [] && |SelectedJobs(wf.jobs, r.selected)| != |r.selected| then Fail(w1, id, Failed, JobMissing)
        else if !wf.success || !AllSucceeded(ChosenJobs(r, wf)) then Fail(w1, id, Failed, WorkflowFailed)
        else
          var (w2, o2) := Move(w1, id, Update(Verified, None, Some(WorkflowResult(wf)), false));
          (w2, match o2 case Done(run) => StoredWorkflow(run) case Refused(e) => Refused(e) case Crashed => Crashed)
  }

  function WaitWorkflow(w: World, id: RunId, key: string, r: Request, polls: nat -> Poll): (World, Ending<Workflow>)
    requires r.WaitRequest?
  {
    var (w1, o1) := Reserve(w, id, key, r, None);
    match o1
    case Refused(e) => (w1, Refused(e))
    case Crashed => (w1, Crashed)
    case Done(run) =>
      if run.state == Verified then (w1, StoredWorkflow(run))
      else if run.state == Failed then (w1, Refused(RunFailed))
      else PollOn(w1, id, r, run.attempt, polls)
  }

  // ---------------------------------------------------------------- artifacts

  /** A listed artifact, what its download gives, and what the sink stored. */
  datatype Descriptor = Descriptor(
    name: string, artifactId: nat, expired: bool, sourceCommit: Commit, sourceTree: Tree, size: nat,
    bytesSize: nat, bytesDigest: string, storedSize: nat, storedDigest: string)

  function Wanted(ds: seq<Descriptor>, names: Option<set<string>>): seq<Descriptor> {
    if ds == [] then []
    else (if names.None? || ds[0].name in names.value then [ds[0]] else []) + Wanted(ds[1..], names)
  }

  /** The checks of one artifact, in their order. */
  function CheckArtifact(d: Descriptor, r: Request): Result<Artifact, Error>
    requires r.CaptureRequest?
  {
    if d.expired then Err(ArtifactExpired)
    else if d.sourceCommit != r.commit || d.sourceTree != r.tree then Err(SourceMismatch)
    else if d.bytesSize != d.size || d.bytesSize > r.maxBytes then Err(SizeMismatch)
    else if d.name in r.digests && r.digests[d.name] != d.bytesDigest then Err(DigestMismatch)
    else if d.storedDigest != d.bytesDigest || d.storedSize != d.bytesSize then Err(StoreMismatch)
    else Ok(Artifact(d.name, d.artifactId, r.workflow, d.bytesDigest, d.bytesSize, d.sourceCommit, d.sourceTree))
  }

  function CheckAll(ds: seq<Descriptor>, r: Request): Result<seq<Artifact>, Error>
    requires r.CaptureRequest?
  {
    if ds == [] then Ok([])
    else
      match CheckArtifact(ds[0], r)
      case Err(e) => Err(e)
      case Ok(a) =>
        match CheckAll(ds[1..], r)
        case Err(e) => Err(e)
        case Ok(rest) => Ok([a] + rest)
  }

  function Prepend(front: seq<Artifact>, r: Result<seq<Artifact>, Error>): Result<seq<Artifact>, Error> {
    match r
    case Err(e) => Err(e)
    case Ok(rest) => Ok(front + rest)
  }

  lemma PrependNothing(r: Result<seq<Artifact>, Error>)
    ensures Prepend([], r) == r
  {
    if r.Ok? { assert [] + r.value == r.value; }
  }

  lemma PrependOne(front: seq<Artifact>, a: Artifact, r: Result<seq<Artifact>, Error>)
    ensures Prepend(front, Prepend([a], r)) == Prepend(front + [a], r)
  {
    if r.Ok? { Associate(front, [a], r.value); }
  }

  function StoredArtifacts(run: ProviderRun): Ending<seq<Artifact>> {
    if run.result.Some? && run.result.value.ArtifactsResult? then Done(run.result.value.artifacts) else Refused(Integrity)
  }

  function CaptureArtifacts(w: World, id: RunId, key: string, r: Request, listed: seq<Descriptor>)
    : (World, Ending<seq<Artifact>>)
    requires r.CaptureRequest?
  {
    var (w1, o1) := Reserve(w, id, key, r, None);
    match o1
    case Refused(e) => (w1, Refused(e))
    case Crashed => (w1, Crashed)
    case Done(run) =>
      var wanted := Wanted(listed, r.names);
      if run.state == Verified then (w1, StoredArtifacts(run))
      else if r.names.Some? && |wanted| != |r.names.value| then Fail(w1, id, Failed, ArtifactMissing)
      else
        match CheckAll(wanted, r)
        case Err(e) => Fail(w1, id, Failed, e)
        case Ok(artifacts) =>
          var (w2, o2) := Move(w1, id, Update(Verified, None, Some(ArtifactsResult(artifacts)), false));
          (w2, match o2 case Done(run2) => StoredArtifacts(run2) case Refused(e) => Refused(e) case Crashed => Crashed)
  }

  // ---------------------------------------------------------------- a delivery

  /** What a verified push reports: its plan and the commit and tree read back. */
  datatype PushReport = PushReport(planId: string, planned: Commit, plannedTree: Tree, seen: Commit, seenTree: Tree)

  /** What the outside answers during one publish. */
  datatype Weather = Weather(
    push: Option<PushReport>, pr: PrWeather, prReadback: PullRequest, discovered: Option<Workflow>,
    polls: nat -> Poll, listed: seq<Descriptor>)

  function Checkpoint(w: World, id: RunId, state: RunState, parts: Parts): (World, Ending<Parts>) {
    var (w1, o) := Move(w, id, Update(state, None, Some(DeliveryResult(parts)), false));
    (w1, match o case Done(_) => Done(parts) case Refused(e) => Refused(e) case Crashed => Crashed)
  }

  function PushStage(w: World, id: RunId, x: DeliveryInput, parts: Parts, env: Weather): (World, Ending<Parts>) {
    if parts.push.Some? then (w, Done(parts))
    else if env.push.None? then (w, Refused(PushRefused))
    else
      var p := env.push.value;
      if p.seen != p.planned || p.seenTree != p.plannedTree then (w, Refused(PushMismatch))
      else Checkpoint(w, id, PushVerified, parts.(push := Some(Pushed(p.planId, p.seen, p.seenTree))))
  }

  function PrRequestFor(x: DeliveryInput, p: Pushed): Request {
    PrRequest(x.repository, x.headBranch, p.commit, p.tree, x.baseBranch, None, x.title, x.body)
  }

  predicate PrVerifies(p: PullRequest, x: DeliveryInput, push: Pushed) {
    && p.baseBranch == x.baseBranch && p.headBranch == x.headBranch && p.headCommit == push.commit
    && p.headTree == push.tree && p.draft && p.changedPaths == x.changedPaths
  }

  function PrStage(w: World, name: string, key: string, x: DeliveryInput, parts: Parts, env: Weather)
    : (World, Ending<Parts>)
    requires parts.push.Some?
  {
    if parts.pr.Some? then (w, Done(parts))
    else
      var push := parts.push.value;
      var (w1, o1) := UpsertPr(w, Child(name, "pr"), key + ":pr", PrRequestFor(x, push), env.pr);
      if !o1.Done? then (w1, if o1.Crashed? then Crashed else Refused(o1.error))
      else if !PrVerifies(env.prReadback, x, push) then (w1, Refused(Mismatch))
      else Checkpoint(w1, Named(name), PrVerified, parts.(pr := Some(env.prReadback)))
  }

  function WaitRequestFor(x: DeliveryInput, found: WorkflowIdentity): Request {
    WaitRequest(x.repository, found, x.selected, x.deadline, x.maximum)
  }

  function WorkflowStage(w: World, name: string, key: string, x: DeliveryInput, parts: Parts, env: Weather)
    : (World, Ending<Parts>)
    requires parts.push.Some?
  {
    if parts.workflow.Some? then (w, Done(parts))
    else if env.discovered.None? || env.discovered.value.identity.headSha != parts.push.value.commit then
      (w, Refused(WorkflowNotFound))
    else
      var r := WaitRequestFor(x, env.discovered.value.identity);
      var (w1, o1) := WaitWorkflow(w, Child(name, "workflow"), key + ":workflow", r, env.polls);
      if !o1.Done? then (w1, if o1.Crashed? then Crashed else Refused(o1.error))
      else Checkpoint(w1, Named(name), WorkflowVerified, parts.(workflow := Some(o1.value)))
  }

  function CaptureRequestFor(x: DeliveryInput, push: Pushed, wf: Workflow): Request {
    CaptureRequest(x.repository, wf.identity, x.names, x.maxBytes, push.commit, push.tree, x.digests)
  }

  function ArtifactsStage(w: World, name: string, key: string, x: DeliveryInput, parts: Parts, env: Weather)
    : (World, Ending<Parts>)
    requires parts.push.Some? && parts.workflow.Some?
  {
    if parts.artifacts.Some? then (w, Done(parts))
    else
      var r := CaptureRequestFor(x, parts.push.value, parts.workflow.value);
      var (w1, o1) := CaptureArtifacts(w, Child(name, "artifacts"), key + ":artifacts", r, env.listed);
      if !o1.Done? then (w1, if o1.Crashed? then Crashed else Refused(o1.error))
      else Checkpoint(w1, Named(name), ArtifactsVerified, parts.(artifacts := Some(o1.value)))
  }

  /** The stages in turn; each is skipped when its part is already recorded. */
  function Stages(w: World, name: string, key: string, x: DeliveryInput, parts: Parts, env: Weather): (World, Ending<Parts>) {
    var (w1, o1) := PushStage(w, Named(name), x, parts, env);
    if !o1.Done? || o1.value.push.None? then (w1, if o1.Done? then Refused(Integrity) else o1)
    else
      var (w2, o2) := PrStage(w1, name, key, x, o1.value, env);
      if !o2.Done? || o2.value.push.None? then (w2, if o2.Done? then Refused(Integrity) else o2)
      else
        var (w3, o3) := WorkflowStage(w2, name, key, x, o2.value, env);
        if !o3.Done? || o3.value.push.None? || o3.value.workflow.None? then (w3, if o3.Done? then Refused(Integrity) else o3)
        else
          var (w4, o4) := ArtifactsStage(w3, name, key, x, o3.value, env);
          if !o4.Done? then (w4, o4) else Checkpoint(w4, Named(name), Completed, o4.value)
  }

  function PartsOf(run: ProviderRun): Parts {
    if run.result.Some? && run.result.value.DeliveryResult? then run.result.value.parts else NOTHING
  }

  /** An error makes the run terminal: cancelled once a push was recorded, failed before. */
  function Terminate(w: World, id: RunId, e: Error): (World, Ending<Parts>) {
    if id !in w.runs then (w, Refused(e))
    else
      var pushed := PartsOf(w.runs[id]).push.Some?;
      var (w1, o) := Move(w, id, Update(if pushed then Cancelled else Failed, None, None, pushed));
      (w1, if o.Crashed? then Crashed else Refused(e))
  }

  /** Goes on from the recorded parts; an error ends the delivery, a crash leaves it as recorded. */
  function Resume(w: World, name: string, key: string, x: DeliveryInput, parts: Parts, env: Weather): (World, Ending<Parts>) {
    var (w2, o2) := Stages(w, name, key, x, parts, env);
    if o2.Refused? then Terminate(w2, Named(name), o2.error) else (w2, o2)
  }

  function Publish(w: World, name: string, key: string, x: DeliveryInput, env: Weather): (World, Ending<Parts>) {
    var id := Named(name);
    var (w1, o1) := Reserve(w, id, key, DeliveryRequest(x), Some(DeliveryResult(NOTHING)));
    match o1
    case Refused(e) => (w1, Refused(e))
    case Crashed => (w1, Crashed)
    case Done(run) =>
      if run.state == Completed then (w1, Done(PartsOf(run)))
      else if run.state == Failed || run.state == Cancelled then (w1, Refused(Terminal))
      else Resume(w1, name, key, x, PartsOf(run), env)
  }

  // ---------------------------------------------------------------- the publisher object

  class DeliveryPublisher {
    var runs: map<RunId, ProviderRun>
    /** Durable updates left before the process dies. */
    var fuel: nat

    function View(): World
      reads this
    {
      World(runs, fuel)
    }

    constructor (runs: map<RunId, ProviderRun>, fuel: nat)
      ensures View() == World(runs, fuel)
    {
      this.runs, this.fuel := runs, fuel;
    }

    method ReserveRun(id: RunId, key: string, request: Request, result: Option<RunResult>)
      returns (o: Ending<ProviderRun>)
      modifies this
      ensures (View(), o) == Reserve(old(View()), id, key, request, result)
    {
      if id in runs {
        return if runs[id].key == key && runs[id].request == request then Done(runs[id]) else Refused(IdempotencyConflict);
      }
      var rest := runs.Keys;
      while rest != {}
        invariant rest <= runs.Keys
        invariant forall other | other in runs && other !in rest :: runs[other].key != key
        decreases rest
      {
        var other :| other in rest;
        if runs[other].key == key { return Refused(IdempotencyConflict); }
        rest := rest - {other};
      }
      if fuel == 0 { return Crashed; }
      var run := ProviderRun(key, request, IntentPersisted, result, 0, false);
      runs, fuel := runs[id := run], fuel - 1;
      return Done(run);
    }

    method MoveRun(id: RunId, u: Update) returns (o: Ending<ProviderRun>)
      modifies this
      ensures (View(), o) == Move(old(View()), id, u)
    {
      if id !in runs { return Refused(Integrity); }
      if fuel == 0 { return Crashed; }
      runs, fuel := runs[id := Updated(runs[id], u)], fuel - 1;
      return Done(runs[id]);
    }

    method FailRun<T>(id: RunId, state: RunState, e: Error) returns (o: Ending<T>)
      modifies this
      ensures (View(), o) == Fail(old(View()), id, state, e)
    {
      var moved := MoveRun(id, Update(state, None, None, false));
      match moved {
        case Done(_) => return Refused(e);
        case Refused(x) => return Refused(x);
        case Crashed => return Crashed;
      }
    }

    /** Polls the workflow attempt by attempt. */
    method AwaitWorkflow(id: RunId, key: string, r: Request, polls: nat -> Poll) returns (o: Ending<Workflow>)
      requires r.WaitRequest?
      modifies this
      ensures (View(), o) == WaitWorkflow(old(View()), id, key, r, polls)
    {
      var reserved := ReserveRun(id, key, r, None);
      if !reserved.Done? { return if reserved.Crashed? then Crashed else Refused(reserved.error); }
      var run := reserved.value;
      if run.state == Verified { return StoredWorkflow(run); }
      if run.state == Failed { return Refused(RunFailed); }
      ghost var start := View();
      var attempt := run.attempt;
      while attempt < r.maximum
        invariant PollOn(View(), id, r, attempt, polls) == PollOn(start, id, r, run.attempt, polls)
        decreases r.maximum - attempt
      {
        if polls(attempt).now > r.deadline { o := FailRun(id, Failed, WorkflowTimeout); return; }
        var wf := polls(attempt).readback;
        if !SameIdentity(wf.identity, r.workflow) { return Refused(WorkflowMismatch); }
        var polled := MoveRun(id, Update(RemoteReconciled, Some(attempt + 1), Some(WorkflowResult(wf)), false));
        if !polled.Done? { return if polled.Crashed? then Crashed else Refused(polled.error); }
        if wf.completed {
          if r.selected != [] && |SelectedJobs(wf.jobs, r.selected)| != |r.selected| {
            o := FailRun(id, Failed, JobMissing);
            return;
          }
          if !wf.success || !AllSucceeded(ChosenJobs(r, wf)) { o := FailRun(id, Failed, WorkflowFailed); return; }
          var verified := MoveRun(id, Update(Verified, None, Some(WorkflowResult(wf)), false));
          if !verified.Done? { return if verified.Crashed? then Crashed else Refused(verified.error); }
          return StoredWorkflow(verified.value);
        }
        attempt := attempt + 1;
      }
      o := FailRun(id, Failed, WorkflowTimeout);
    }

    /** Checks the wanted artifacts one by one. */
    method CaptureAll(id: RunId, key: string, r: Request, listed: seq<Descriptor>) returns (o: Ending<seq<Artifact>>)
      requires r.CaptureRequest?
      modifies this
      ensures (View(), o) == CaptureArtifacts(old(View()), id, key, r, listed)
    {
      var reserved := ReserveRun(id, key, r, None);
      if !reserved.Done? { return if reserved.Crashed? then Crashed else Refused(reserved.error); }
      if reserved.value.state == Verified { return StoredArtifacts(reserved.value); }
      var wanted := Wanted(listed, r.names);
      if r.names.Some? && |wanted| != |r.names.value| { o := FailRun(id, Failed, ArtifactMissing); return; }
      var captured: seq<Artifact> := [];
      ghost var start := View();
      PrependNothing(CheckAll(wanted, r));
      assert wanted[0..] == wanted;
      for i := 0 to |wanted|
        invariant Prepend(captured, CheckAll(wanted[i..], r)) == CheckAll(wanted, r) && View() == start
      {
        DropNext(wanted, i);
        if CheckArtifact(wanted[i], r).Ok? {
          PrependOne(captured, CheckArtifact(wanted[i], r).value, CheckAll(wanted[i + 1..], r));
        }
        var checked := CheckArtifact(wanted[i], r);
        if checked.Err? {
          assert CheckAll(wanted, r) == Err(checked.error);
          o := FailRun(id, Failed, checked.error);
          return;
        }
        captured := captured + [checked.value];
      }
      TakeAll(wanted);
      assert captured + [] == captured;
      assert CheckAll(wanted, r) == Ok(captured);
      var verified := MoveRun(id, Update(Verified, None, Some(ArtifactsResult(captured)), false));
      if !verified.Done? { return if verified.Crashed? then Crashed else Refused(verified.error); }
      return StoredArtifacts(verified.value);
    }

    method UpsertPullRequest(id: RunId, key: string, r: Request, x: PrWeather) returns (o: Ending<PullRequest>)
      requires r.PrRequest?
      modifies this
      ensures (View(), o) == UpsertPr(old(View()), id, key, r, x)
    {
      var reserved := ReserveRun(id, key, r, None);
      if !reserved.Done? { return if reserved.Crashed? then Crashed else Refused(reserved.error); }
      var run := reserved.value;
      if run.state == Verified { return StoredPr(run); }
      if run.state == Failed { return Refused(RunFailed); }
      if r.previous.Some? && r.previous.value != x.previous { o := FailRun(id, Failed, PreconditionFailed); return; }
      if x.previous.Some? && PrMatches(x.previous.value, r) { o := FinishPullRequest(id, x.previous.value); return; }
      var attempted := MoveRun(id, Update(RemoteAttempted, Some(run.attempt + 1), None, false));
      if !attempted.Done? { return if attempted.Crashed? then Crashed else Refused(attempted.error); }
      var reconciled := if x.outcome.readback.Some? then x.outcome.readback else x.found;
      if reconciled.Some? && PrMatches(reconciled.value, r) { o := FinishPullRequest(id, reconciled.value); return; }
      if x.outcome.failed { o := FailRun(id, Failed, WriteFailed); return; }
      o := FailRun(id, AmbiguousResult, ResultUnknown);
    }

    method FinishPullRequest(id: RunId, p: PullRequest) returns (o: Ending<PullRequest>)
      modifies this
      ensures (View(), o) == FinishPr(old(View()), id, p)
    {
      var first := MoveRun(id, Update(RemoteReconciled, None, Some(PrResult(p)), false));
      if !first.Done? { return if first.Crashed? then Crashed else Refused(first.error); }
      var second := MoveRun(id, Update(Verified, None, Some(PrResult(p)), false));
      if !second.Done? { return if second.Crashed? then Crashed else Refused(second.error); }
      return StoredPr(second.value);
    }

    method Record(id: RunId, state: RunState, parts: Parts) returns (o: Ending<Parts>)
      modifies this
      ensures (View(), o) == Checkpoint(old(View()), id, state, parts)
    {
      var moved := MoveRun(id, Update(state, None, Some(DeliveryResult(parts)), false));
      match moved {
        case Done(_) => return Done(parts);
        case Refused(e) => return Refused(e);
        case Crashed => return Crashed;
      }
    }

    method PushPart(name: string, x: DeliveryInput, parts: Parts, env: Weather) returns (o: Ending<Parts>)
      modifies this
      ensures (View(), o) == PushStage(old(View()), Named(name), x, parts, env)
    {
      if parts.push.Some? { return Done(parts); }
      if env.push.None? { return Refused(PushRefused); }
      var p := env.push.value;
      if p.seen != p.planned || p.seenTree != p.plannedTree { return Refused(PushMismatch); }
      o := Record(Named(name), PushVerified, parts.(push := Some(Pushed(p.planId, p.seen, p.seenTree))));
    }

    method PrPart(name: string, key: string, x: DeliveryInput, parts: Parts, env: Weather) returns (o: Ending<Parts>)
      requires parts.push.Some?
      modifies this
      ensures (View(), o) == PrStage(old(View()), name, key, x, parts, env)
    {
      if parts.pr.Some? { return Done(parts); }
      var pr := UpsertPullRequest(Child(name, "pr"), key + ":pr", PrRequestFor(x, parts.push.value), env.pr);
      if !pr.Done? { return if pr.Crashed? then Crashed else Refused(pr.error); }
      if !PrVerifies(env.prReadback, x, parts.push.value) { return Refused(Mismatch); }
      o := Record(Named(name), PrVerified, parts.(pr := Some(env.prReadback)));
    }

    method WorkflowPart(name: string, key: string, x: DeliveryInput, parts: Parts, env: Weather) returns (o: Ending<Parts>)
      requires parts.push.Some?
      modifies this
      ensures (View(), o) == WorkflowStage(old(View()), name, key, x, parts, env)
    {
      if parts.workflow.Some? { return Done(parts); }
      if env.discovered.None? || env.discovered.value.identity.headSha != parts.push.value.commit {
        return Refused(WorkflowNotFound);
      }
      var r := WaitRequestFor(x, env.discovered.value.identity);
      var wf := AwaitWorkflow(Child(name, "workflow"), key + ":workflow", r, env.polls);
      if !wf.Done? { return if wf.Crashed? then Crashed else Refused(wf.error); }
      o := Record(Named(name), WorkflowVerified, parts.(workflow := Some(wf.value)));
    }

    method ArtifactsPart(name: string, key: string, x: DeliveryInput, parts: Parts, env: Weather) returns (o: Ending<Parts>)
      requires parts.push.Some? && parts.workflow.Some?
      modifies this
      ensures (View(), o) == ArtifactsStage(old(View()), name, key, x, parts, env)
    {
      if parts.artifacts.Some? { return Done(parts); }
      var r := CaptureRequestFor(x, parts.push.value, parts.workflow.value);
      var captured := CaptureAll(Child(name, "artifacts"), key + ":artifacts", r, env.listed);
      if !captured.Done? { return if captured.Crashed? then Crashed else Refused(captured.error); }
      o := Record(Named(name), ArtifactsVerified, parts.(artifacts := Some(captured.value)));
    }

    /** Runs the missing stages in turn; each records its part before the next begins. */
    method RunStages(name: string, key: string, x: DeliveryInput, parts: Parts, env: Weather) returns (o: Ending<Parts>)
      modifies this
      ensures (View(), o) == Stages(old(View()), name, key, x, parts, env)
    {
      o := PushPart(name, x, parts, env);
      if !o.Done? { return; }
      if o.value.push.None? { return Refused(Integrity); }
      o := PrPart(name, key, x, o.value, env);
      if !o.Done? { return; }
      if o.value.push.None? { return Refused(Integrity); }
      o := WorkflowPart(name, key, x, o.value, env);
      if !o.Done? { return; }
      if o.value.push.None? || o.value.workflow.None? { return Refused(Integrity); }
      o := ArtifactsPart(name, key, x, o.value, env);
      if !o.Done? { return; }
      o := Record(Named(name), Completed, o.value);
    }

    method PublishDelivery(name: string, key: string, x: DeliveryInput, env: Weather) returns (o: Ending<Parts>)
      modifies this
      ensures (View(), o) == Publish(old(View()), name, key, x, env)
    {
      var id := Named(name);
      var reserved := ReserveRun(id, key, DeliveryRequest(x), Some(DeliveryResult(NOTHING)));
      if !reserved.Done? { return if reserved.Crashed? then Crashed else Refused(reserved.error); }
      var run := reserved.value;
      if run.state == Completed { return Done(PartsOf(run)); }
      if run.state == Failed || run.state == Cancelled { return Refused(Terminal); }
      o := RunStages(name, key, x, PartsOf(run), env);
      if o.Refused? && id in runs {
        var pushed := PartsOf(runs[id]).push.Some?;
        var moved := MoveRun(id, Update(if pushed then Cancelled else Failed, None, None, pushed));
        if moved.Crashed? { return Crashed; }
      }
    }
  }
}
