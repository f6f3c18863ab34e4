/** What "verified" says about the remote itself: the observed commit stood there at some moment. */
module PublicationTruth {
  import opened Base
  import opened Publication

  function RefOf(move: Move): Ref {
    match move
    case ByPush(push, _, _) => push.ref
    case ByOther(ref, _, _) => ref
  }

  /** Some move, by a push or by another writer, put `o` at the ref. */
  ghost predicate Put(w: World, ref: Ref, o: Object) {
    exists i | 0 <= i < |w.moves| :: RefOf(w.moves[i]) == ref && w.moves[i].after == Some(o)
  }

  /** Points an apply reaches only after it read the target at the ref. */
  predicate SawTarget(p: Point) {
    p.RecordGit? || p.UpdateGit? || p.AskApi? || p.RecordApi? || p.UpdateVerified?
  }

  ghost predicate RemoteTraced(w: World) {
    forall ref | ref in w.remote :: Put(w, ref, w.remote[ref])
  }

  ghost predicate SessionsTraced(w: World) {
    forall sid | sid in w.sessions && SawTarget(w.sessions[sid].point) ::
      Put(w, w.sessions[sid].plan.ref, w.sessions[sid].plan.target)
  }

  /** The observed commit was put at the observed ref. */
  ghost predicate GitTraced(w: World, git: Option<Observation>) {
    git.Some? && git.value.commit.Some? && Put(w, git.value.ref, git.value.commit.value)
  }

  ghost predicate RunsTraced(w: World) {
    forall m | m in w.registry.runs && w.registry.runs[m].state == Verified :: GitTraced(w, w.registry.runs[m].git)
  }

  ghost predicate Traced(w: World) {
    RemoteTraced(w) && SessionsTraced(w) && RunsTraced(w)
  }

  lemma MovesGrow(w: World, next: World)
    requires w.moves <= next.moves
    ensures forall ref, o | Put(w, ref, o) :: Put(next, ref, o)
  {
    forall ref, o | Put(w, ref, o) ensures Put(next, ref, o) {
      var i :| 0 <= i < |w.moves| && RefOf(w.moves[i]) == ref && w.moves[i].after == Some(o);
      assert next.moves[i] == w.moves[i];
    }
  }

  lemma LastMovePuts(w: World, move: Move, o: Object)
    requires w.moves != [] && w.moves[|w.moves| - 1] == move && move.after == Some(o)
    ensures Put(w, RefOf(move), o)
  {
  }

  // ---------------------------------------------------------------- steps of a live apply

  /** What a step of one apply may do to the records of its own session and run. */
  ghost predicate OwnStep(w: World, sid: SessionId, next: World)
    requires sid in w.sessions
  {
    var s := w.sessions[sid];
    && next.moves == w.moves && next.remote == w.remote && next.registry.runs.Keys == w.registry.runs.Keys
    && (sid in next.sessions ==> next.sessions[sid].plan == s.plan)
    && (sid in next.sessions && SawTarget(next.sessions[sid].point) ==>
          SawTarget(s.point) || ReadRef(w, s.plan.ref) == Some(s.plan.target))
    && (s.mutation in w.registry.runs && next.registry.runs[s.mutation].state == Verified ==>
          var run, after := w.registry.runs[s.mutation], next.registry.runs[s.mutation];
          || (run.state == Verified && after.git == run.git)
          || (s.point.UpdateVerified? && after.git == Some(s.point.git)))
  }

  lemma AdvanceIsOwnStep(w: World, sid: SessionId, a: ApiAnswer)
    requires sid in w.sessions
    ensures OwnStep(w, sid, AdvanceSession(w, sid, a))
  {
    match w.sessions[sid].point
    case ReadInitial => assert OwnStep(w, sid, ReadInitialStep(w, sid));
    case MarkAttempt => assert OwnStep(w, sid, MarkStep(w, sid));
    case SendPush(attempt) => assert OwnStep(w, sid, SendStep(w, sid, attempt));
    case Reconcile => assert OwnStep(w, sid, ReconcileStep(w, sid));
    case RecordGit =>
    case UpdateGit(git) => assert OwnStep(w, sid, UpdateGitStep(w, sid, git));
    case AskApi(git) => assert OwnStep(w, sid, AskApiStep(w, sid, git, a));
    case RecordApi(_, _) =>
    case UpdateVerified(git, api) => assert OwnStep(w, sid, VerifyStep(w, sid, git, api));
  }

  lemma OwnStepTraced(w: World, sid: SessionId, next: World)
    requires Sound(w, false) && Traced(w) && sid in w.sessions && OwnStep(w, sid, next) && Local(w, sid, next)
    ensures Traced(next)
  {
    MovesGrow(w, next);
    var s := w.sessions[sid];
    assert s.mutation in w.registry.runs && (s.point.UpdateVerified? ==> SawPlan(s.point.git, s.mutation, s.plan, GitTransport)) by {
      assert SessionSound(w.registry, s, false);
    }
    hide Sound, Put;
    assert SawTarget(s.point) || ReadRef(w, s.plan.ref) == Some(s.plan.target) ==> Put(w, s.plan.ref, s.plan.target);
    forall m | m in next.registry.runs && next.registry.runs[m].state == Verified
      ensures GitTraced(next, next.registry.runs[m].git)
    {
      if m != s.mutation { assert next.registry.runs[m] == w.registry.runs[m]; }
    }
  }

  lemma AdvanceTraced(w: World, sid: SessionId, a: ApiAnswer)
    requires Sound(w, false) && Traced(w) && sid in w.sessions
    ensures Traced(AdvanceSession(w, sid, a))
  {
    AdvanceIsLocal(w, sid, a);
    AdvanceIsOwnStep(w, sid, a);
    hide Sound, Traced, OwnStep, Local, AdvanceSession;
    OwnStepTraced(w, sid, AdvanceSession(w, sid, a));
  }

  // ---------------------------------------------------------------- the other steps

  lemma BeginTraced(w: World, sid: SessionId, m: MutationId, plan: Plan, request: string)
    requires Traced(w)
    ensures Traced(Begin(w, sid, m, plan, request))
  {
    MovesGrow(w, Begin(w, sid, m, plan, request));
    hide Put;
  }

  lemma RemoteMoved(w: World, move: Move, remote: map<Ref, Object>)
    requires Traced(w)
    requires forall ref | ref in remote ::
      (ref in w.remote && remote[ref] == w.remote[ref]) || (ref == RefOf(move) && move.after == Some(remote[ref]))
    ensures Traced(w.(remote := remote, moves := w.moves + [move]))
  {
    var next := w.(remote := remote, moves := w.moves + [move]);
    MovesGrow(w, next);
    if move.after.Some? { LastMovePuts(next, move, move.after.value); }
    hide Put;
  }

  lemma NextTraced(w: World, step: Step)
    requires Sound(w, false) && Traced(w)
    ensures Traced(Next(w, step))
  {
    hide AdvanceSession, Begin;
    match step
    case StartApply(sid, m, plan, request) => BeginTraced(w, sid, m, plan, request);
    case Advance(sid, a) => if sid in w.sessions { AdvanceTraced(w, sid, a); }
    case Crash(_) => MovesGrow(w, Next(w, step));
    case Deliver(p) =>
      RemoteMoved(w, ByPush(p, p.expected, Some(p.target)), w.remote[p.ref := p.target]);
    case Drop(_) => MovesGrow(w, Next(w, step));
    case OtherWrite(ref, value) =>
      RemoteMoved(w, ByOther(ref, ReadRef(w, ref), value), WriteRef(w, ref, value));
  }

  lemma {:induction false} RunTraced(w: World, steps: seq<Step>)
    requires Sound(w, false) && Traced(w)
    ensures Traced(Run(w, steps))
    decreases steps
  {
    if steps != [] {
      NextKeeps(w, steps[0], false);
      NextTraced(w, steps[0]);
      hide Sound, Traced, Next;
      RunTraced(Next(w, steps[0]), steps[1..]);
    }
  }

  /** A verified run is never a false claim: some recorded move of the remote, by a push or by another
      writer, put exactly the commit that its observations show at the ref they show. */
  lemma VerifiedCommitReachedTheRemote(steps: seq<Step>, m: MutationId)
    requires m in Run(START, steps).registry.runs && Run(START, steps).registry.runs[m].state == Verified
    ensures var w := Run(START, steps);
            && Paired(w.registry, m)
            && var git := w.registry.runs[m].git.value;
               exists i :: 0 <= i < |w.moves| && RefOf(w.moves[i]) == git.ref && w.moves[i].after == git.commit
  {
    RunTraced(START, steps);
    VerifiedIsPaired(steps, m);
    var w := Run(START, steps);
    assert GitTraced(w, w.registry.runs[m].git);
  }

  /** Where all applies agree with the recorded plans, that is the planned commit at the planned ref. */
  lemma VerifiedPlanReachedTheRemote(steps: seq<Step>, m: MutationId)
    requires AgreedRun(START, steps)
    requires m in Run(START, steps).registry.runs && Run(START, steps).registry.runs[m].state == Verified
    ensures var w := Run(START, steps);
            exists i :: 0 <= i < |w.moves| && RefOf(w.moves[i]) == w.registry.runs[m].plan.ref
                        && w.moves[i].after == Some(w.registry.runs[m].plan.target)
  {
    VerifiedCommitReachedTheRemote(steps, m);
    VerifiedIsWitnessed(steps, m);
  }
}
