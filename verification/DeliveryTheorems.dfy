/** Coherence of deliveries over any calls, crashes and resumptions: every part of a delivery is about
    the one commit that was pushed. */
module DeliveryTheorems {
  import opened Base
  import opened Delivery

  /** Each recorded part rests on the ones before it and names the pushed commit and tree. */
  predicate Coherent(d: Parts) {
    && (d.pr.Some? ==> d.push.Some? && d.pr.value.headCommit == d.push.value.commit && d.pr.value.headTree == d.push.value.tree)
    && (d.workflow.Some? ==> d.pr.Some? && d.push.Some? && d.workflow.value.identity.headSha == d.push.value.commit)
    && (d.artifacts.Some? ==>
          && d.workflow.Some? && d.push.Some?
          && forall i | 0 <= i < |d.artifacts.value| ::
               && d.artifacts.value[i].sourceCommit == d.push.value.commit
               && d.artifacts.value[i].sourceTree == d.push.value.tree
               && d.artifacts.value[i].workflow == d.workflow.value.identity)
  }

  predicate FromSource(artifacts: seq<Artifact>, r: Request)
    requires r.CaptureRequest?
  {
    forall i | 0 <= i < |artifacts| ::
      artifacts[i].sourceCommit == r.commit && artifacts[i].sourceTree == r.tree && artifacts[i].workflow == r.workflow
  }

  predicate RunSound(run: ProviderRun) {
    match run.request
    case PrRequest(_, _, _, _, _, _, _, _) =>
      run.state == Verified ==>
        run.result.Some? && run.result.value.PrResult? && PrMatches(run.result.value.pr, run.request)
    case WaitRequest(_, _, _, _, _) =>
      run.state == Verified ==>
        && run.result.Some? && run.result.value.WorkflowResult?
        && SameIdentity(run.result.value.workflow.identity, run.request.workflow)
        && run.result.value.workflow.completed && run.result.value.workflow.success
    case CaptureRequest(_, _, _, _, _, _, _) =>
      run.state == Verified ==>
        run.result.Some? && run.result.value.ArtifactsResult? && FromSource(run.result.value.artifacts, run.request)
    case DeliveryRequest(_) =>
      && run.result.Some? && run.result.value.DeliveryResult? && Coherent(run.result.value.parts)
      && (run.state == Completed ==>
            var d := run.result.value.parts;
            d.push.Some? && d.pr.Some? && d.workflow.Some? && d.artifacts.Some?)
  }

  ghost predicate TableSound(w: World) {
    forall id | id in w.runs :: RunSound(w.runs[id])
  }

  /** Only the run `id` may have changed, and its request and key stay. */
  ghost predicate Only(w: World, id: RunId, next: World) {
    && (forall j | j in w.runs && j != id :: j in next.runs && next.runs[j] == w.runs[j])
    && (forall j | j in next.runs && j != id :: j in w.runs)
    && (id in w.runs ==> id in next.runs && next.runs[id].request == w.runs[id].request && next.runs[id].key == w.runs[id].key)
  }

  /** The table stays sound and only `id`, a run of `request`, changes. */
  ghost predicate Kept(w: World, id: RunId, request: Request, next: World) {
    && TableSound(next) && Only(w, id, next)
    && (id in w.runs && w.runs[id].request != request ==> next.runs[id] == w.runs[id])
    && (id in next.runs && id !in w.runs ==> next.runs[id].request == request)
  }

  // ---------------------------------------------------------------- the run table

  lemma ReserveKeeps(w: World, id: RunId, key: string, request: Request, result: Option<RunResult>)
    requires TableSound(w)
    requires if request.DeliveryRequest? then result == Some(DeliveryResult(NOTHING)) else result.None?
    ensures var (next, o) := Reserve(w, id, key, request, result);
            && Kept(w, id, request, next)
            && (o.Done? ==> id in next.runs && next.runs[id] == o.value && o.value.request == request && RunSound(o.value))
            && (id in w.runs ==> next.runs[id] == w.runs[id])
  {
  }

  lemma MoveKeeps(w: World, id: RunId, u: Update, request: Request)
    requires TableSound(w) && id in w.runs && w.runs[id].request == request
    requires RunSound(Updated(w.runs[id], u))
    ensures var (next, o) := Move(w, id, u);
            && Kept(w, id, request, next) && id in next.runs && next.runs[id].request == request
            && (o.Done? ==> next.runs[id] == o.value && o.value == Updated(w.runs[id], u))
            && (!o.Done? ==> next == w && o.Crashed?)
  {
  }

  lemma KeptTransitive(w: World, id: RunId, request: Request, mid: World, next: World)
    requires Kept(w, id, request, mid) && Kept(mid, id, request, next)
    ensures Kept(w, id, request, next)
  {
  }

  lemma KeptReflexive(w: World, id: RunId, request: Request)
    requires TableSound(w)
    ensures Kept(w, id, request, w)
  {
  }

  lemma FailKeeps<T>(w: World, id: RunId, state: RunState, e: Error, request: Request)
    requires TableSound(w) && id in w.runs && w.runs[id].request == request
    requires !request.DeliveryRequest? && state != Verified
    ensures Kept(w, id, request, Fail<T>(w, id, state, e).0) && !Fail<T>(w, id, state, e).1.Done?
  {
    MoveKeeps(w, id, Update(state, None, None, false), request);
  }

  // ---------------------------------------------------------------- child runs

  lemma FinishPrKeeps(w: World, id: RunId, p: PullRequest, r: Request)
    requires TableSound(w) && id in w.runs && w.runs[id].request == r && r.PrRequest? && PrMatches(p, r)
    ensures Kept(w, id, r, FinishPr(w, id, p).0)
    ensures FinishPr(w, id, p).1.Done? ==> PrMatches(FinishPr(w, id, p).1.value, r)
  {
    var u1 := Update(RemoteReconciled, None, Some(PrResult(p)), false);
    MoveKeeps(w, id, u1, r);
    var (w1, o1) := Move(w, id, u1);
    if o1.Done? {
      var u2 := Update(Verified, None, Some(PrResult(p)), false);
      MoveKeeps(w1, id, u2, r);
      KeptTransitive(w, id, r, w1, Move(w1, id, u2).0);
    }
  }

  lemma ReconcileKeeps(w: World, id: RunId, r: Request, x: PrWeather)
    requires TableSound(w) && r.PrRequest? && id in w.runs && w.runs[id].request == r
    ensures Kept(w, id, r, ReconcilePr(w, id, r, x).0)
    ensures ReconcilePr(w, id, r, x).1.Done? ==> PrMatches(ReconcilePr(w, id, r, x).1.value, r)
  {
    var seen := if x.outcome.readback.Some? then x.outcome.readback else x.found;
    if seen.Some? && PrMatches(seen.value, r) {
      FinishPrKeeps(w, id, seen.value, r);
    } else {
      FailKeeps<PullRequest>(w, id, Failed, WriteFailed, r);
      FailKeeps<PullRequest>(w, id, AmbiguousResult, ResultUnknown, r);
    }
    hide Kept, PrMatches, FinishPr, Fail;
  }

  lemma AttemptKeeps(w: World, id: RunId, r: Request, x: PrWeather, attempt: nat)
    requires TableSound(w) && r.PrRequest? && id in w.runs && w.runs[id].request == r && w.runs[id].state != Verified
    ensures Kept(w, id, r, AttemptPr(w, id, r, x, attempt).0)
    ensures AttemptPr(w, id, r, x, attempt).1.Done? ==> PrMatches(AttemptPr(w, id, r, x, attempt).1.value, r)
  {
    FailKeeps<PullRequest>(w, id, Failed, PreconditionFailed, r);
    if x.previous.Some? && PrMatches(x.previous.value, r) { FinishPrKeeps(w, id, x.previous.value, r); }
    var u := Update(RemoteAttempted, Some(attempt + 1), None, false);
    MoveKeeps(w, id, u, r);
    var (w2, o2) := Move(w, id, u);
    if o2.Done? {
      ReconcileKeeps(w2, id, r, x);
      KeptTransitive(w, id, r, w2, ReconcilePr(w2, id, r, x).0);
    }
    hide Kept, FinishPr, Fail, ReconcilePr, Move;
  }

  lemma UpsertKeeps(w: World, id: RunId, key: string, r: Request, x: PrWeather)
    requires TableSound(w) && r.PrRequest?
    ensures Kept(w, id, r, UpsertPr(w, id, key, r, x).0)
    ensures UpsertPr(w, id, key, r, x).1.Done? ==> PrMatches(UpsertPr(w, id, key, r, x).1.value, r)
  {
    ReserveKeeps(w, id, key, r, None);
    var (w1, o1) := Reserve(w, id, key, r, None);
    if o1.Done? && o1.value.state != Verified {
      AttemptKeeps(w1, id, r, x, o1.value.attempt);
      KeptTransitive(w, id, r, w1, AttemptPr(w1, id, r, x, o1.value.attempt).0);
    }
    hide Kept, Reserve, AttemptPr, PrMatches;
  }

  predicate Fits(wf: Workflow, r: Request)
    requires r.WaitRequest?
  {
    SameIdentity(wf.identity, r.workflow) && wf.completed && wf.success
  }

  lemma {:induction false} PollKeeps(w: World, id: RunId, r: Request, attempt: nat, polls: nat -> Poll)
    requires TableSound(w) && r.WaitRequest? && id in w.runs && w.runs[id].request == r && w.runs[id].state != Verified
    ensures Kept(w, id, r, PollOn(w, id, r, attempt, polls).0)
    ensures PollOn(w, id, r, attempt, polls).1.Done? ==> Fits(PollOn(w, id, r, attempt, polls).1.value, r)
    decreases r.maximum - attempt
  {
    FailKeeps<Workflow>(w, id, Failed, WorkflowTimeout, r);
    KeptReflexive(w, id, r);
    if attempt < r.maximum && polls(attempt).now <= r.deadline {
      var wf := polls(attempt).readback;
      if SameIdentity(wf.identity, r.workflow) {
        var u := Update(RemoteReconciled, Some(attempt + 1), Some(WorkflowResult(wf)), false);
        MoveKeeps(w, id, u, r);
        var (w1, o1) := Move(w, id, u);
        hide Kept, TableSound, Fail;
        if o1.Done? {
          if !wf.completed {
            PollKeeps(w1, id, r, attempt + 1, polls);
          } else {
            PolledKeeps(w1, id, r, wf);
          }
          KeptTransitive(w, id, r, w1, PollOn(w, id, r, attempt, polls).0);
        }
      }
    }
  }

  lemma PolledKeeps(w: World, id: RunId, r: Request, wf: Workflow)
    requires TableSound(w) && r.WaitRequest? && id in w.runs && w.runs[id].request == r
    requires SameIdentity(wf.identity, r.workflow) && wf.completed
    ensures Kept(w, id, r, Fail<Workflow>(w, id, Failed, JobMissing).0)
    ensures Kept(w, id, r, Fail<Workflow>(w, id, Failed, WorkflowFailed).0)
    ensures !Fail<Workflow>(w, id, Failed, JobMissing).1.Done? && !Fail<Workflow>(w, id, Failed, WorkflowFailed).1.Done?
    ensures wf.success ==>
              var (next, o) := Move(w, id, Update(Verified, None, Some(WorkflowResult(wf)), false));
              Kept(w, id, r, next) && (o.Done? ==> StoredWorkflow(o.value) == Done(wf))
  {
    FailKeeps<Workflow>(w, id, Failed, JobMissing, r);
    FailKeeps<Workflow>(w, id, Failed, WorkflowFailed, r);
    if wf.success { MoveKeeps(w, id, Update(Verified, None, Some(WorkflowResult(wf)), false), r); }
  }

  lemma WaitKeeps(w: World, id: RunId, key: string, r: Request, polls: nat -> Poll)
    requires TableSound(w) && r.WaitRequest?
    ensures Kept(w, id, r, WaitWorkflow(w, id, key, r, polls).0)
    ensures WaitWorkflow(w, id, key, r, polls).1.Done? ==> Fits(WaitWorkflow(w, id, key, r, polls).1.value, r)
  {
    ReserveKeeps(w, id, key, r, None);
    var (w1, o1) := Reserve(w, id, key, r, None);
    if o1.Done? && o1.value.state != Verified && o1.value.state != Failed {
      PollKeeps(w1, id, r, o1.value.attempt, polls);
      KeptTransitive(w, id, r, w1, PollOn(w1, id, r, o1.value.attempt, polls).0);
    }
  }

  lemma {:induction false} CheckedFromSource(ds: seq<Descriptor>, r: Request)
    requires r.CaptureRequest?
    ensures CheckAll(ds, r).Ok? ==> FromSource(CheckAll(ds, r).value, r)
  {
    if ds != [] { CheckedFromSource(ds[1..], r); }
  }

  lemma CaptureKeeps(w: World, id: RunId, key: string, r: Request, listed: seq<Descriptor>)
    requires TableSound(w) && r.CaptureRequest?
    ensures Kept(w, id, r, CaptureArtifacts(w, id, key, r, listed).0)
    ensures CaptureArtifacts(w, id, key, r, listed).1.Done? ==>
              FromSource(CaptureArtifacts(w, id, key, r, listed).1.value, r)
  {
    ReserveKeeps(w, id, key, r, None);
    var (w1, o1) := Reserve(w, id, key, r, None);
    if o1.Done? && o1.value.state != Verified {
      var wanted := Wanted(listed, r.names);
      FailKeeps<seq<Artifact>>(w1, id, Failed, ArtifactMissing, r);
      KeptTransitive(w, id, r, w1, Fail<seq<Artifact>>(w1, id, Failed, ArtifactMissing).0);
      var checked := CheckAll(wanted, r);
      if checked.Err? {
        FailKeeps<seq<Artifact>>(w1, id, Failed, checked.error, r);
        KeptTransitive(w, id, r, w1, Fail<seq<Artifact>>(w1, id, Failed, checked.error).0);
      } else {
        CheckedFromSource(wanted, r);
        var u := Update(Verified, None, Some(ArtifactsResult(checked.value)), false);
        MoveKeeps(w1, id, u, r);
        KeptTransitive(w, id, r, w1, Move(w1, id, u).0);
      }
    }
  }

  // ---------------------------------------------------------------- deliveries

  /** The delivery's own run is there and its recorded parts are at least `parts`. */
  ghost predicate Holds(w: World, name: string, x: DeliveryInput) {
    TableSound(w) && Named(name) in w.runs && w.runs[Named(name)].request == DeliveryRequest(x)
  }

  /** No delivery but this one changes or appears. */
  ghost predicate OthersKept(w: World, name: string, next: World) {
    forall n {:trigger Named(n)} | n != name ::
      && (Named(n) in next.runs <==> Named(n) in w.runs)
      && (Named(n) in w.runs ==> next.runs[Named(n)] == w.runs[Named(n)])
  }

  /** Parts once recorded stay as they are. */
  predicate Extends(d: Parts, e: Parts) {
    && (d.push.Some? ==> e.push == d.push) && (d.pr.Some? ==> e.pr == d.pr)
    && (d.workflow.Some? ==> e.workflow == d.workflow) && (d.artifacts.Some? ==> e.artifacts == d.artifacts)
  }

  lemma CheckpointKeeps(w: World, name: string, x: DeliveryInput, state: RunState, parts: Parts)
    requires Holds(w, name, x) && Coherent(parts)
    requires state == Completed ==> parts.push.Some? && parts.pr.Some? && parts.workflow.Some? && parts.artifacts.Some?
    ensures var (next, o) := Checkpoint(w, Named(name), state, parts);
            && Holds(next, name, x) && OthersKept(w, name, next)
            && (o.Done? ==> o.value == parts && PartsOf(next.runs[Named(name)]) == parts)
            && (!o.Done? ==> next == w)
            && PartsOf(next.runs[Named(name)]) == (if o.Done? then parts else PartsOf(w.runs[Named(name)]))
  {
    MoveKeeps(w, Named(name), Update(state, None, Some(DeliveryResult(parts)), false), DeliveryRequest(x));
  }

  /** A child operation leaves the delivery's own run alone. */
  lemma ChildLeavesParent(w: World, name: string, x: DeliveryInput, part: string, r: Request, next: World)
    requires Holds(w, name, x) && Kept(w, Child(name, part), r, next)
    ensures Holds(next, name, x) && next.runs[Named(name)] == w.runs[Named(name)] && OthersKept(w, name, next)
  {
    assert Named(name) != Child(name, part);
    assert forall n :: Named(n) != Child(name, part);
  }

  lemma OthersKeptTransitive(w: World, name: string, mid: World, next: World)
    requires OthersKept(w, name, mid) && OthersKept(mid, name, next)
    ensures OthersKept(w, name, next)
  {
  }

  /** What a stage achieves: the run stays sound, and the parts it returns are recorded, coherent and
      extend the earlier ones. */
  ghost predicate StageOk(w: World, name: string, x: DeliveryInput, parts: Parts, next: World, o: Ending<Parts>) {
    && Holds(next, name, x) && OthersKept(w, name, next)
    && var now := PartsOf(next.runs[Named(name)]);
       Coherent(now) && Extends(parts, now) && (o.Done? ==> o.value == now)
  }

  lemma PushStageOk(w: World, name: string, x: DeliveryInput, parts: Parts, env: Weather)
    requires Holds(w, name, x) && PartsOf(w.runs[Named(name)]) == parts && Coherent(parts)
    ensures var (next, o) := PushStage(w, Named(name), x, parts, env);
            StageOk(w, name, x, parts, next, o) && (o.Done? ==> o.value.push.Some?)
  {
    if parts.push.None? && env.push.Some? {
      var p := env.push.value;
      if p.seen == p.planned && p.seenTree == p.plannedTree {
        CheckpointKeeps(w, name, x, PushVerified, parts.(push := Some(Pushed(p.planId, p.seen, p.seenTree))));
      }
    }
  }

  lemma PrStageOk(w: World, name: string, key: string, x: DeliveryInput, parts: Parts, env: Weather)
    requires Holds(w, name, x) && PartsOf(w.runs[Named(name)]) == parts && Coherent(parts) && parts.push.Some?
    ensures var (next, o) := PrStage(w, name, key, x, parts, env);
            StageOk(w, name, x, parts, next, o) && (o.Done? ==> o.value.push.Some? && o.value.pr.Some?)
  {
    if parts.pr.None? {
      var r := PrRequestFor(x, parts.push.value);
      UpsertKeeps(w, Child(name, "pr"), key + ":pr", r, env.pr);
      var (w1, o1) := UpsertPr(w, Child(name, "pr"), key + ":pr", r, env.pr);
      ChildLeavesParent(w, name, x, "pr", r, w1);
      if o1.Done? && PrVerifies(env.prReadback, x, parts.push.value) {
        CheckpointKeeps(w1, name, x, PrVerified, parts.(pr := Some(env.prReadback)));
      }
    }
  }

  lemma WorkflowStageOk(w: World, name: string, key: string, x: DeliveryInput, parts: Parts, env: Weather)
    requires Holds(w, name, x) && PartsOf(w.runs[Named(name)]) == parts && Coherent(parts)
    requires parts.push.Some? && parts.pr.Some?
    ensures var (next, o) := WorkflowStage(w, name, key, x, parts, env);
            StageOk(w, name, x, parts, next, o) && (o.Done? ==> o.value.push.Some? && o.value.pr.Some? && o.value.workflow.Some?)
  {
    if parts.workflow.None? && env.discovered.Some? && env.discovered.value.identity.headSha == parts.push.value.commit {
      var r := WaitRequestFor(x, env.discovered.value.identity);
      WaitKeeps(w, Child(name, "workflow"), key + ":workflow", r, env.polls);
      var (w1, o1) := WaitWorkflow(w, Child(name, "workflow"), key + ":workflow", r, env.polls);
      ChildLeavesParent(w, name, x, "workflow", r, w1);
      if o1.Done? {
        CheckpointKeeps(w1, name, x, WorkflowVerified, parts.(workflow := Some(o1.value)));
      }
    }
  }

  lemma ArtifactsStageOk(w: World, name: string, key: string, x: DeliveryInput, parts: Parts, env: Weather)
    requires Holds(w, name, x) && PartsOf(w.runs[Named(name)]) == parts && Coherent(parts)
    requires parts.push.Some? && parts.pr.Some? && parts.workflow.Some?
    ensures var (next, o) := ArtifactsStage(w, name, key, x, parts, env);
            && StageOk(w, name, x, parts, next, o)
            && (o.Done? ==> o.value.push.Some? && o.value.pr.Some? && o.value.workflow.Some? && o.value.artifacts.Some?)
  {
    if parts.artifacts.None? {
      var r := CaptureRequestFor(x, parts.push.value, parts.workflow.value);
      CaptureKeeps(w, Child(name, "artifacts"), key + ":artifacts", r, env.listed);
      var (w1, o1) := CaptureArtifacts(w, Child(name, "artifacts"), key + ":artifacts", r, env.listed);
      ChildLeavesParent(w, name, x, "artifacts", r, w1);
      if o1.Done? {
        CheckpointKeeps(w1, name, x, ArtifactsVerified, parts.(artifacts := Some(o1.value)));
      }
    }
  }

  lemma StagesOk(w: World, name: string, key: string, x: DeliveryInput, parts: Parts, env: Weather)
    requires Holds(w, name, x) && PartsOf(w.runs[Named(name)]) == parts && Coherent(parts)
    ensures var (next, o) := Stages(w, name, key, x, parts, env);
            && StageOk(w, name, x, parts, next, o)
            && (o.Done? ==> o.value.push.Some? && o.value.pr.Some? && o.value.workflow.Some? && o.value.artifacts.Some?)
  {
    hide PushStage, PrStage, WorkflowStage, ArtifactsStage, Checkpoint, Coherent, TableSound, OthersKept;
    PushStageOk(w, name, x, parts, env);
    var (w1, o1) := PushStage(w, Named(name), x, parts, env);
    if o1.Done? {
      PrStageOk(w1, name, key, x, o1.value, env);
      var (w2, o2) := PrStage(w1, name, key, x, o1.value, env);
      OthersKeptTransitive(w, name, w1, w2);
      if o2.Done? {
        WorkflowStageOk(w2, name, key, x, o2.value, env);
        var (w3, o3) := WorkflowStage(w2, name, key, x, o2.value, env);
        OthersKeptTransitive(w, name, w2, w3);
        if o3.Done? {
          ArtifactsStageOk(w3, name, key, x, o3.value, env);
          var (w4, o4) := ArtifactsStage(w3, name, key, x, o3.value, env);
          OthersKeptTransitive(w, name, w3, w4);
          if o4.Done? {
            CheckpointKeeps(w4, name, x, Completed, o4.value);
            OthersKeptTransitive(w, name, w4, Checkpoint(w4, Named(name), Completed, o4.value).0);
          }
        }
      }
    }
  }

  predicate TerminalState(s: RunState) {
    s == Completed || s == Failed || s == Cancelled
  }

  /** A publish keeps the table sound, other deliveries as they are, and recorded parts recorded. */
  ghost predicate DeliveryKept(w: World, n: string, next: World) {
    Named(n) in w.runs && w.runs[Named(n)].request.DeliveryRequest? ==>
      var was := w.runs[Named(n)];
      && Named(n) in next.runs && next.runs[Named(n)].request == was.request
      && Extends(PartsOf(was), PartsOf(next.runs[Named(n)]))
      && (TerminalState(was.state) ==> next.runs[Named(n)] == was)
  }

  lemma TerminateKeeps(w: World, name: string, x: DeliveryInput, e: Error)
    requires Holds(w, name, x)
    ensures var next := Terminate(w, Named(name), e).0;
            && Holds(next, name, x) && OthersKept(w, name, next)
            && PartsOf(next.runs[Named(name)]) == PartsOf(w.runs[Named(name)])
  {
    var pushed := PartsOf(w.runs[Named(name)]).push.Some?;
    var u := Update(if pushed then Cancelled else Failed, None, None, pushed);
    assert RunSound(w.runs[Named(name)]);
    MoveKeeps(w, Named(name), u, DeliveryRequest(x));
  }

  lemma ResumeKeeps(w: World, name: string, key: string, x: DeliveryInput, parts: Parts, env: Weather)
    requires Holds(w, name, x) && PartsOf(w.runs[Named(name)]) == parts && Coherent(parts)
    ensures var next := Resume(w, name, key, x, parts, env).0;
            && Holds(next, name, x) && OthersKept(w, name, next)
            && Extends(parts, PartsOf(next.runs[Named(name)]))
  {
    hide Stages, Terminate, Coherent, TableSound, OthersKept, Extends, PartsOf;
    StagesOk(w, name, key, x, parts, env);
    var (w2, o2) := Stages(w, name, key, x, parts, env);
    if o2.Refused? {
      TerminateKeeps(w2, name, x, o2.error);
      OthersKeptTransitive(w, name, w2, Terminate(w2, Named(name), o2.error).0);
    }
  }

  lemma ReservedDelivery(w: World, name: string, key: string, x: DeliveryInput)
    requires TableSound(w)
    ensures var (w1, o1) := Reserve(w, Named(name), key, DeliveryRequest(x), Some(DeliveryResult(NOTHING)));
            && TableSound(w1) && OthersKept(w, name, w1)
            && (Named(name) in w.runs ==> Named(name) in w1.runs && w1.runs[Named(name)] == w.runs[Named(name)])
            && (o1.Done? ==> Holds(w1, name, x) && w1.runs[Named(name)] == o1.value && Coherent(PartsOf(o1.value)))
  {
    ReserveKeeps(w, Named(name), key, DeliveryRequest(x), Some(DeliveryResult(NOTHING)));
  }

  lemma PublishOwn(w: World, name: string, key: string, x: DeliveryInput, env: Weather)
    requires TableSound(w)
    ensures var next := Publish(w, name, key, x, env).0;
            TableSound(next) && OthersKept(w, name, next) && DeliveryKept(w, name, next)
  {
    ReservedDelivery(w, name, key, x);
    var (w1, o1) := Reserve(w, Named(name), key, DeliveryRequest(x), Some(DeliveryResult(NOTHING)));
    hide Reserve, Resume, Coherent, TableSound, OthersKept, PartsOf;
    if o1.Done? && !TerminalState(o1.value.state) {
      ResumeKeeps(w1, name, key, x, PartsOf(o1.value), env);
      OthersKeptTransitive(w, name, w1, Resume(w1, name, key, x, PartsOf(o1.value), env).0);
    }
  }

  // ---------------------------------------------------------------- runs

  /** A call on the shared run table that dies after `fuel` durable updates, if it makes that many. */
  datatype Call =
    | DoPublish(name: string, key: string, input: DeliveryInput, env: Weather, fuel: nat)
    | DoUpsert(id: RunId, key: string, request: Request, pr: PrWeather, fuel: nat)
    | DoWait(id: RunId, key: string, request: Request, polls: nat -> Poll, fuel: nat)
    | DoCapture(id: RunId, key: string, request: Request, listed: seq<Descriptor>, fuel: nat)

  type Table = map<RunId, ProviderRun>

  function Perform(t: Table, c: Call): Table {
    match c
    case DoPublish(name, key, x, env, fuel) => Publish(World(t, fuel), name, key, x, env).0.runs
    case DoUpsert(id, key, r, x, fuel) =>
      if r.PrRequest? then UpsertPr(World(t, fuel), id, key, r, x).0.runs else t
    case DoWait(id, key, r, polls, fuel) =>
      if r.WaitRequest? then WaitWorkflow(World(t, fuel), id, key, r, polls).0.runs else t
    case DoCapture(id, key, r, listed, fuel) =>
      if r.CaptureRequest? then CaptureArtifacts(World(t, fuel), id, key, r, listed).0.runs else t
  }

  function Run(t: Table, calls: seq<Call>): Table
    decreases calls
  {
    if calls == [] then t else Run(Perform(t, calls[0]), calls[1..])
  }

  lemma ChildCallKeeps(w: World, id: RunId, r: Request, next: World, n: string)
    requires TableSound(w) && Kept(w, id, r, next) && !r.DeliveryRequest?
    ensures DeliveryKept(w, n, next)
  {
  }

  lemma PerformKeeps(t: Table, c: Call, n: string)
    requires TableSound(World(t, 0))
    ensures TableSound(World(Perform(t, c), 0)) && DeliveryKept(World(t, 0), n, World(Perform(t, c), 0))
  {
    var w := World(t, c.fuel);
    assert TableSound(w);
    match c
    case DoPublish(name, key, x, env, fuel) =>
      PublishOwn(w, name, key, x, env);
      var next := Publish(w, name, key, x, env).0;
      assert n != name && Named(n) in w.runs ==> next.runs[Named(n)] == w.runs[Named(n)];
      hide Publish;
    case DoUpsert(id, key, r, x, fuel) =>
      if r.PrRequest? {
        UpsertKeeps(w, id, key, r, x);
        ChildCallKeeps(w, id, r, UpsertPr(w, id, key, r, x).0, n);
      }
      hide UpsertPr;
    case DoWait(id, key, r, polls, fuel) =>
      if r.WaitRequest? {
        WaitKeeps(w, id, key, r, polls);
        ChildCallKeeps(w, id, r, WaitWorkflow(w, id, key, r, polls).0, n);
      }
      hide WaitWorkflow;
    case DoCapture(id, key, r, listed, fuel) =>
      if r.CaptureRequest? {
        CaptureKeeps(w, id, key, r, listed);
        ChildCallKeeps(w, id, r, CaptureArtifacts(w, id, key, r, listed).0, n);
      }
      hide CaptureArtifacts;
  }

  lemma {:induction false} RunKeeps(t: Table, calls: seq<Call>, n: string)
    requires TableSound(World(t, 0))
    ensures TableSound(World(Run(t, calls), 0)) && DeliveryKept(World(t, 0), n, World(Run(t, calls), 0))
    decreases calls
  {
    hide TableSound, Perform;
    if calls != [] {
      PerformKeeps(t, calls[0], n);
      RunKeeps(Perform(t, calls[0]), calls[1..], n);
    }
  }

  /** Coherence over crash and resume: whatever calls were made and wherever each died, a completed
      delivery has all four parts, and pull request, workflow and every artifact name its pushed
      commit, the trees where they are recorded. */
  lemma CompletedDeliveriesAreCoherent(calls: seq<Call>, n: string)
    requires Named(n) in Run(map[], calls) && Run(map[], calls)[Named(n)].request.DeliveryRequest?
    requires Run(map[], calls)[Named(n)].state == Completed
    ensures var d := PartsOf(Run(map[], calls)[Named(n)]);
            && d.push.Some? && d.pr.Some? && d.workflow.Some? && d.artifacts.Some?
            && var commit := d.push.value.commit;
               && d.pr.value.headCommit == commit && d.pr.value.headTree == d.push.value.tree
               && d.workflow.value.identity.headSha == commit
               && forall i | 0 <= i < |d.artifacts.value| ::
                    d.artifacts.value[i].sourceCommit == commit && d.artifacts.value[i].sourceTree == d.push.value.tree
  {
    RunKeeps(map[], calls, n);
    assert RunSound(Run(map[], calls)[Named(n)]);
  }

  /** A recorded part never changes, and a delivery that ended never changes at all, whatever calls
      follow. */
  lemma RecordedPartsStay(calls: seq<Call>, more: seq<Call>, n: string)
    requires Named(n) in Run(map[], calls) && Run(map[], calls)[Named(n)].request.DeliveryRequest?
    ensures var was := Run(map[], calls)[Named(n)];
            var later := Run(Run(map[], calls), more);
            && Named(n) in later && Extends(PartsOf(was), PartsOf(later[Named(n)]))
            && (TerminalState(was.state) ==> later[Named(n)] == was)
  {
    RunKeeps(map[], calls, n);
    RunKeeps(Run(map[], calls), more, n);
  }

  /** A child run that is already verified is replayed from its stored result, without an update. */
  lemma VerifiedChildrenAreReplayed(w: World, id: RunId, key: string, r: Request, listed: seq<Descriptor>)
    requires TableSound(w) && r.CaptureRequest? && id in w.runs
    requires w.runs[id].key == key && w.runs[id].request == r && w.runs[id].state == Verified
    ensures CaptureArtifacts(w, id, key, r, listed) == (w, Done(w.runs[id].result.value.artifacts))
  {
    assert RunSound(w.runs[id]);
  }
}
