/** Deliveries whose push is a publication run: what a delivery records was really on the remote. */
module PublishedDeliveries {
  import opened Base
  import opened Delivery
  import DeliveryTheorems
  import Publication
  import PublicationPlans
  import PublicationTruth

  /** What an apply returned: the readback of a run that was verified at that moment. */
  datatype Reply = Reply(mutation: Publication.MutationId, git: Publication.Observation)

  /** The publication world with the replies so far, and the run table of the deliveries. */
  datatype Both = Both(remote: Publication.World, replies: set<Reply>, table: DeliveryTheorems.Table)

  datatype Event = Publishing(step: Publication.Step) | Delivering(call: DeliveryTheorems.Call)

  /** The plan a fingerprint names, and the mutation a delivery pushes under. */
  datatype Naming = Naming(planOf: Publication.Fingerprint -> Publication.Plan, pushOf: string -> Publication.MutationId)

  const START_BOTH := Both(Publication.START, {}, map[])

  /** What applies can return in this world. */
  function Answerable(w: Publication.World): set<Reply> {
    set m | m in w.registry.runs && w.registry.runs[m].state == Publication.Verified
            && Publication.Completed(w.registry, m).Some? :: Reply(m, Publication.Completed(w.registry, m).value.0)
  }

  function Next(b: Both, e: Event): Both {
    match e
    case Publishing(step) =>
      var w := Publication.Next(b.remote, step);
      Both(w, b.replies + Answerable(w), b.table)
    case Delivering(call) => b.(table := DeliveryTheorems.Perform(b.table, call))
  }

  function Run(b: Both, events: seq<Event>): Both
    decreases events
  {
    if events == [] then b else Run(Next(b, events[0]), events[1..])
  }

  /** The report is what the apply of the delivery's own push returned, for a plan to its destination. */
  ghost predicate Answers(k: Naming, b: Both, name: string, ref: Publication.Ref, p: PushReport) {
    var m := k.pushOf(name);
    && m in b.remote.registry.runs
    && var plan := k.planOf(b.remote.registry.runs[m].fingerprint);
       && plan.planId == p.planId && plan.ref == ref && plan.target == p.planned && plan.tree == p.plannedTree
       && exists git :: Reply(m, git) in b.replies && git.commit == Some(p.seen) && git.tree == Some(p.seenTree)
  }

  /** Applies name the plan of their fingerprint, and deliveries get their reports from applies. */
  ghost predicate Linked(k: Naming, b: Both, e: Event) {
    match e
    case Publishing(step) => step.StartApply? ==> step.plan == k.planOf(step.fingerprint)
    case Delivering(c) =>
      c.DoPublish? && c.env.push.Some? ==> Answers(k, b, c.name, c.input.destinationRef, c.env.push.value)
  }

  ghost predicate LinkedRun(k: Naming, b: Both, events: seq<Event>)
    decreases events
  {
    events == [] || (Linked(k, b, events[0]) && LinkedRun(k, Next(b, events[0]), events[1..]))
  }

  // ---------------------------------------------------------------- the publication side

  ghost predicate RemoteSound(k: Naming, w: Publication.World) {
    && Publication.Sound(w, false) && Publication.Sound(w, true)
    && PublicationTruth.Traced(w) && PublicationPlans.NamedBy(w, k.planOf)
  }

  /** The reply shows the planned commit of its run, and that commit was put at the planned ref. */
  ghost predicate Backed(w: Publication.World, r: Reply) {
    && r.mutation in w.registry.runs
    && var plan := w.registry.runs[r.mutation].plan;
       && Publication.SawPlan(r.git, r.mutation, plan, Publication.GitTransport)
       && PublicationTruth.Put(w, plan.ref, plan.target)
  }

  ghost predicate AllBacked(w: Publication.World, replies: set<Reply>) {
    forall r | r in replies :: Backed(w, r)
  }

  lemma MovesKept(w: Publication.World, step: Publication.Step)
    ensures w.moves <= Publication.Next(w, step).moves
  {
    if step.Advance? && step.sid in w.sessions { PublicationTruth.AdvanceIsOwnStep(w, step.sid, step.answer); }
    hide Publication.AdvanceSession, Publication.Begin;
    if step.StartApply? { BeginMoves(w, step); }
  }

  lemma BeginMoves(w: Publication.World, step: Publication.Step)
    requires step.StartApply?
    ensures Publication.Begin(w, step.sid, step.mutation, step.plan, step.fingerprint).moves == w.moves
  {
  }

  lemma AnswerableBacked(w: Publication.World)
    requires Publication.Sound(w, true) && PublicationTruth.Traced(w)
    ensures AllBacked(w, Answerable(w))
  {
    forall r | r in Answerable(w) ensures Backed(w, r) {
      assert Publication.Attested(w.registry, r.mutation, true);
      assert PublicationTruth.GitTraced(w, w.registry.runs[r.mutation].git);
    }
  }

  lemma BackedStays(w: Publication.World, next: Publication.World, replies: set<Reply>)
    requires AllBacked(w, replies) && Publication.Grows(w.registry, next.registry) && w.moves <= next.moves
    ensures AllBacked(next, replies)
  {
    PublicationTruth.MovesGrow(w, next);
  }

  lemma PublishingKeeps(k: Naming, b: Both, step: Publication.Step)
    requires RemoteSound(k, b.remote) && AllBacked(b.remote, b.replies) && Linked(k, b, Publishing(step))
    ensures var next := Next(b, Publishing(step)); RemoteSound(k, next.remote) && AllBacked(next.remote, next.replies)
  {
    PublicationPlans.NextKeepsNames(b.remote, step, k.planOf);
    hide Publication.Next, Publication.Sound, PublicationTruth.Traced, PublicationPlans.NamedBy, Publication.Agreed,
      Publication.Grows, Backed;
    Publication.NextKeeps(b.remote, step, false);
    Publication.NextKeeps(b.remote, step, true);
    PublicationTruth.NextTraced(b.remote, step);
    MovesKept(b.remote, step);
    var w := Publication.Next(b.remote, step);
    AnswerableBacked(w);
    BackedStays(b.remote, w, b.replies);
  }

  // ---------------------------------------------------------------- the delivery side

  function PushOf(t: DeliveryTheorems.Table, name: string): Option<Pushed> {
    if Named(name) in t then PartsOf(t[Named(name)]).push else None
  }

  /** Where a publish gets the push part from: its record, or the report it was given. */
  ghost predicate FromReport(was: Option<Pushed>, now: Option<Pushed>, env: Weather) {
    || now == was
    || (&& env.push.Some? && env.push.value.seen == env.push.value.planned
        && now == Some(Pushed(env.push.value.planId, env.push.value.seen, env.push.value.seenTree)))
  }

  lemma StagesPush(w: World, name: string, key: string, x: DeliveryInput, parts: Parts, env: Weather)
    requires DeliveryTheorems.Holds(w, name, x) && PartsOf(w.runs[Named(name)]) == parts && DeliveryTheorems.Coherent(parts)
    ensures var next := Stages(w, name, key, x, parts, env).0;
            Named(name) in next.runs && FromReport(parts.push, PartsOf(next.runs[Named(name)]).push, env)
  {
    hide DeliveryTheorems.Coherent, DeliveryTheorems.TableSound, DeliveryTheorems.OthersKept, PrStage, WorkflowStage,
      ArtifactsStage;
    DeliveryTheorems.PushStageOk(w, name, x, parts, env);
    var (w1, o1) := PushStage(w, Named(name), x, parts, env);
    PushStageReports(w, name, x, parts, env);
    hide PushStage, FromReport, Checkpoint;
    if o1.Done? { LaterStagesKeepPush(w1, name, key, x, o1.value, env); }
  }

  lemma PushStageReports(w: World, name: string, x: DeliveryInput, parts: Parts, env: Weather)
    requires DeliveryTheorems.Holds(w, name, x) && PartsOf(w.runs[Named(name)]) == parts && DeliveryTheorems.Coherent(parts)
    ensures var next := PushStage(w, Named(name), x, parts, env).0;
            Named(name) in next.runs && FromReport(parts.push, PartsOf(next.runs[Named(name)]).push, env)
  {
    if parts.push.None? && env.push.Some? {
      var p := env.push.value;
      if p.seen == p.planned && p.seenTree == p.plannedTree {
        DeliveryTheorems.CheckpointKeeps(w, name, x, PushVerified, parts.(push := Some(Pushed(p.planId, p.seen, p.seenTree))));
      }
    }
  }

  /** The stages after the push leave a recorded push as it is. */
  lemma LaterStagesKeepPush(w: World, name: string, key: string, x: DeliveryInput, parts: Parts, env: Weather)
    requires DeliveryTheorems.Holds(w, name, x) && PartsOf(w.runs[Named(name)]) == parts
    requires DeliveryTheorems.Coherent(parts) && parts.push.Some?
    ensures PushStage(w, Named(name), x, parts, env) == (w, Done(parts))
    ensures var next := Stages(w, name, key, x, parts, env).0;
            Named(name) in next.runs && PartsOf(next.runs[Named(name)]).push == parts.push
  {
    DeliveryTheorems.StagesOk(w, name, key, x, parts, env);
    hide Stages, DeliveryTheorems.TableSound, DeliveryTheorems.Coherent;
  }

  lemma ResumePush(w: World, name: string, key: string, x: DeliveryInput, parts: Parts, env: Weather)
    requires DeliveryTheorems.Holds(w, name, x) && PartsOf(w.runs[Named(name)]) == parts && DeliveryTheorems.Coherent(parts)
    ensures var next := Resume(w, name, key, x, parts, env).0;
            Named(name) in next.runs && FromReport(parts.push, PartsOf(next.runs[Named(name)]).push, env)
  {
    StagesPush(w, name, key, x, parts, env);
    DeliveryTheorems.StagesOk(w, name, key, x, parts, env);
    var (w2, o2) := Stages(w, name, key, x, parts, env);
    hide Stages, DeliveryTheorems.Coherent, FromReport, Terminate;
    if o2.Refused? { DeliveryTheorems.TerminateKeeps(w2, name, x, o2.error); }
  }

  lemma ReservedPush(w: World, name: string, key: string, x: DeliveryInput)
    requires DeliveryTheorems.TableSound(w)
    ensures var w1 := Reserve(w, Named(name), key, DeliveryRequest(x), Some(DeliveryResult(NOTHING))).0;
            && PushOf(w1.runs, name) == PushOf(w.runs, name)
            && (Named(name) in w1.runs && Named(name) !in w.runs ==> w1.runs[Named(name)].request == DeliveryRequest(x))
  {
  }

  /** A publish changes the push part only by its report, and only of a delivery of its input. */
  lemma PublishPush(w: World, name: string, key: string, x: DeliveryInput, env: Weather)
    requires DeliveryTheorems.TableSound(w)
    ensures var next := Publish(w, name, key, x, env).0;
            && FromReport(PushOf(w.runs, name), PushOf(next.runs, name), env)
            && (Named(name) in next.runs ==>
                  || next.runs[Named(name)].request == DeliveryRequest(x)
                  || (Named(name) in w.runs && next.runs[Named(name)] == w.runs[Named(name)]))
  {
    DeliveryTheorems.ReservedDelivery(w, name, key, x);
    ReservedPush(w, name, key, x);
    var (w1, o1) := Reserve(w, Named(name), key, DeliveryRequest(x), Some(DeliveryResult(NOTHING)));
    assert FromReport(PushOf(w.runs, name), PushOf(w.runs, name), env);
    hide Reserve, Resume, DeliveryTheorems.Coherent, DeliveryTheorems.TableSound, FromReport;
    if o1.Done? && !DeliveryTheorems.TerminalState(o1.value.state) {
      ResumePush(w1, name, key, x, PartsOf(o1.value), env);
      DeliveryTheorems.ResumeKeeps(w1, name, key, x, PartsOf(o1.value), env);
    }
  }

  /** The recorded push of every delivery was put at the delivery's destination. */
  ghost predicate Stood(w: Publication.World, t: DeliveryTheorems.Table) {
    forall n {:trigger PushOf(t, n)} | Named(n) in t && t[Named(n)].request.DeliveryRequest? && PushOf(t, n).Some? ::
      PublicationTruth.Put(w, t[Named(n)].request.input.destinationRef, PushOf(t, n).value.commit)
  }

  /** The reported commit stood at the ref. */
  lemma AnswerStood(k: Naming, b: Both, name: string, ref: Publication.Ref, p: PushReport)
    requires RemoteSound(k, b.remote) && AllBacked(b.remote, b.replies) && Answers(k, b, name, ref, p)
    ensures PublicationTruth.Put(b.remote, ref, p.seen)
  {
    var git :| Reply(k.pushOf(name), git) in b.replies && git.commit == Some(p.seen) && git.tree == Some(p.seenTree);
    assert Backed(b.remote, Reply(k.pushOf(name), git));
    hide Publication.Sound, PublicationTruth.Traced, PublicationTruth.Put;
  }

  lemma DoPublishKeeps(k: Naming, b: Both, c: DeliveryTheorems.Call)
    requires RemoteSound(k, b.remote) && AllBacked(b.remote, b.replies) && Linked(k, b, Delivering(c)) && c.DoPublish?
    requires DeliveryTheorems.TableSound(World(b.table, 0)) && Stood(b.remote, b.table)
    ensures Stood(b.remote, Next(b, Delivering(c)).table)
  {
    var w := World(b.table, c.fuel);
    assert DeliveryTheorems.TableSound(w);
    var next := Publish(w, c.name, c.key, c.input, c.env).0;
    PublishPush(w, c.name, c.key, c.input, c.env);
    DeliveryTheorems.PublishOwn(w, c.name, c.key, c.input, c.env);
    if c.env.push.Some? { AnswerStood(k, b, c.name, c.input.destinationRef, c.env.push.value); }
    hide Publish, PublicationTruth.Put, RemoteSound, AllBacked, Answers, DeliveryTheorems.TableSound;
    forall n | Named(n) in next.runs && next.runs[Named(n)].request.DeliveryRequest? && PushOf(next.runs, n).Some?
      ensures PublicationTruth.Put(b.remote, next.runs[Named(n)].request.input.destinationRef, PushOf(next.runs, n).value.commit)
    {
      assert PushOf(b.table, n).Some? || n == c.name;
    }
  }

  lemma ChildKeepsStood(w: World, id: RunId, r: Request, next: World, remote: Publication.World)
    requires DeliveryTheorems.Kept(w, id, r, next) && !r.DeliveryRequest? && Stood(remote, w.runs)
    ensures Stood(remote, next.runs)
  {
    hide PublicationTruth.Put, DeliveryTheorems.TableSound;
    forall n | Named(n) in next.runs && next.runs[Named(n)].request.DeliveryRequest? && PushOf(next.runs, n).Some?
      ensures PublicationTruth.Put(remote, next.runs[Named(n)].request.input.destinationRef, PushOf(next.runs, n).value.commit)
    {
      assert Named(n) in w.runs && next.runs[Named(n)] == w.runs[Named(n)];
      assert PushOf(w.runs, n) == PushOf(next.runs, n);
    }
  }

  lemma DeliveringKeeps(k: Naming, b: Both, c: DeliveryTheorems.Call)
    requires RemoteSound(k, b.remote) && AllBacked(b.remote, b.replies) && Linked(k, b, Delivering(c))
    requires DeliveryTheorems.TableSound(World(b.table, 0)) && Stood(b.remote, b.table)
    ensures Stood(b.remote, Next(b, Delivering(c)).table)
  {
    var w := World(b.table, c.fuel);
    assert DeliveryTheorems.TableSound(w);
    hide RemoteSound, AllBacked, Stood, DeliveryTheorems.TableSound, DeliveryTheorems.Kept;
    match c
    case DoPublish(_, _, _, _, _) => DoPublishKeeps(k, b, c);
    case DoUpsert(id, key, r, x, _) =>
      if r.PrRequest? {
        DeliveryTheorems.UpsertKeeps(w, id, key, r, x);
        ChildKeepsStood(w, id, r, UpsertPr(w, id, key, r, x).0, b.remote);
      }
      hide UpsertPr;
    case DoWait(id, key, r, polls, _) =>
      if r.WaitRequest? {
        DeliveryTheorems.WaitKeeps(w, id, key, r, polls);
        ChildKeepsStood(w, id, r, WaitWorkflow(w, id, key, r, polls).0, b.remote);
      }
      hide WaitWorkflow;
    case DoCapture(id, key, r, listed, _) =>
      if r.CaptureRequest? {
        DeliveryTheorems.CaptureKeeps(w, id, key, r, listed);
        ChildKeepsStood(w, id, r, CaptureArtifacts(w, id, key, r, listed).0, b.remote);
      }
      hide CaptureArtifacts;
  }

  // ---------------------------------------------------------------- runs of both

  ghost predicate BothSound(k: Naming, b: Both) {
    && RemoteSound(k, b.remote) && AllBacked(b.remote, b.replies)
    && DeliveryTheorems.TableSound(World(b.table, 0)) && Stood(b.remote, b.table)
  }

  lemma StoodStays(w: Publication.World, next: Publication.World, t: DeliveryTheorems.Table)
    requires Stood(w, t) && w.moves <= next.moves
    ensures Stood(next, t)
  {
    PublicationTruth.MovesGrow(w, next);
    hide PublicationTruth.Put;
  }

  lemma NextKeeps(k: Naming, b: Both, e: Event)
    requires BothSound(k, b) && Linked(k, b, e)
    ensures BothSound(k, Next(b, e))
  {
    hide RemoteSound, AllBacked, Stood, Linked, DeliveryTheorems.TableSound;
    match e
    case Publishing(step) =>
      PublishingKeeps(k, b, step);
      MovesKept(b.remote, step);
      StoodStays(b.remote, Publication.Next(b.remote, step), b.table);
    case Delivering(c) =>
      DeliveringKeeps(k, b, c);
      DeliveryTheorems.PerformKeeps(b.table, c, "");
  }

  lemma {:induction false} RunKeeps(k: Naming, b: Both, events: seq<Event>)
    requires BothSound(k, b) && LinkedRun(k, b, events)
    ensures BothSound(k, Run(b, events))
    decreases events
  {
    hide BothSound, Linked;
    if events != [] {
      NextKeeps(k, b, events[0]);
      RunKeeps(k, Next(b, events[0]), events[1..]);
    }
  }

  /** Whatever applies, crashes, late pushes, other writers and delivery calls did, in any interleaving:
      the commit a delivery recorded as pushed was put at the delivery's destination by some move of the
      remote, and a completed delivery has its pull request, workflow and artifacts from that commit. */
  lemma DeliveredCommitStoodOnTheRemote(k: Naming, events: seq<Event>, n: string)
    requires LinkedRun(k, START_BOTH, events)
    requires var t := Run(START_BOTH, events).table; Named(n) in t && t[Named(n)].request.DeliveryRequest?
    ensures var b := Run(START_BOTH, events);
            var run := b.table[Named(n)];
            var d := PartsOf(run);
            && (run.state == Completed ==> d.push.Some? && d.pr.Some? && d.workflow.Some? && d.artifacts.Some?)
            && (d.push.Some? ==>
                  var commit := d.push.value.commit;
                  && (exists i :: 0 <= i < |b.remote.moves|
                        && PublicationTruth.RefOf(b.remote.moves[i]) == run.request.input.destinationRef
                        && b.remote.moves[i].after == Some(commit))
                  && (d.pr.Some? ==> d.pr.value.headCommit == commit)
                  && (d.workflow.Some? ==> d.workflow.value.identity.headSha == commit)
                  && (d.artifacts.Some? ==>
                        forall i | 0 <= i < |d.artifacts.value| :: d.artifacts.value[i].sourceCommit == commit))
  {
    StartSound(k);
    RunKeeps(k, START_BOTH, events);
    var b := Run(START_BOTH, events);
    assert DeliveryTheorems.RunSound(b.table[Named(n)]);
    hide RemoteSound, AllBacked, Run;
    if PushOf(b.table, n).Some? {
      assert PublicationTruth.Put(b.remote, b.table[Named(n)].request.input.destinationRef, PushOf(b.table, n).value.commit);
    }
  }

  lemma StartSound(k: Naming)
    ensures BothSound(k, START_BOTH)
  {
  }
}
