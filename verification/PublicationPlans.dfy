/** Whether pushes and verifications follow the plan that was recorded: exactly in the runs whose
    applies name plans that agree with it, which no comparison of the registry makes sure of. */
module PublicationPlans {
  import opened Base
  import opened Publication

  // ---------------------------------------------------------------- running step by step

  lemma {:induction false} RunAppend(w: World, a: seq<Step>, b: seq<Step>)
    ensures Run(w, a + b) == Run(Run(w, a), b)
    decreases a
  {
    if a == [] {
      assert a + b == b;
    } else {
      assert (a + b)[0] == a[0] && (a + b)[1..] == a[1..] + b;
      RunAppend(Next(w, a[0]), a[1..], b);
    }
  }

  lemma RunSingle(w: World, step: Step)
    ensures Run(w, [step]) == Next(w, step)
  {
    assert [step][1..] == [];
    assert Run(Next(w, step), []) == Next(w, step);
  }

  lemma RunPrefix(w: World, steps: seq<Step>, k: nat)
    requires 0 < k <= |steps|
    ensures Run(w, steps[..k]) == Run(Next(w, steps[0]), steps[1..][..k - 1])
  {
    assert steps[..k][0] == steps[0] && steps[..k][1..] == steps[1..][..k - 1];
  }

  /** The API answer that confirms a plan. */
  function Confirmation(plan: Plan): ApiAnswer {
    ApiAnswer(plan.ref, Some(plan.target), Some(plan.tree), "")
  }

  function Go(sid: SessionId, plan: Plan): Step {
    Advance(sid, Confirmation(plan))
  }

  /** The five steps from a read target to a verified run. */
  function Confirming(sid: SessionId, plan: Plan): seq<Step> {
    [Go(sid, plan)] + ([Go(sid, plan)] + ([Go(sid, plan)] + ([Go(sid, plan)] + [Go(sid, plan)])))
  }

  /** The run of `sid` ended verified with observations of the session's plan; all else of the runs and
      sessions is as before. */
  ghost predicate EndsVerified(w: World, sid: SessionId, end: World)
    requires sid in w.sessions && w.sessions[sid].mutation in w.registry.runs
  {
    var s := w.sessions[sid];
    && end.sessions == w.sessions - {sid} && end.moves == w.moves
    && s.mutation in end.registry.runs
    && var run := end.registry.runs[s.mutation];
       && run.state == Verified && run.plan == w.registry.runs[s.mutation].plan
       && Completed(end.registry, s.mutation).Some?
       && SawPlan(Completed(end.registry, s.mutation).value.0, s.mutation, s.plan, GitTransport)
       && SawPlan(Completed(end.registry, s.mutation).value.1, s.mutation, s.plan, GitHubApi)
  }

  lemma Confirms(w: World, sid: SessionId)
    requires sid in w.sessions && w.sessions[sid].mutation in w.registry.runs && w.sessions[sid].point == RecordGit
    ensures EndsVerified(w, sid, Run(w, Confirming(sid, w.sessions[sid].plan)))
  {
    var s := w.sessions[sid];
    var go := Go(sid, s.plan);
    var a := Next(w, go);
    var b := Next(a, go);
    var c := Next(b, go);
    var d := Next(c, go);
    var e := Next(d, go);
    RunOne(w, go, [go] + ([go] + ([go] + [go])));
    RunOne(a, go, [go] + ([go] + [go]));
    RunOne(b, go, [go] + [go]);
    RunOne(c, go, [go]);
    RunSingle(d, go);
    hide Run;
    var git, api := GitObservation(s, ""), ApiObservation(s, go.answer);
    assert a.sessions == w.sessions[sid := s.(point := UpdateGit(git))] && git in a.registry.observations;
    assert b.sessions == w.sessions[sid := s.(point := AskApi(git))];
    assert c.sessions == w.sessions[sid := s.(point := RecordApi(git, api))];
    assert d.sessions == w.sessions[sid := s.(point := UpdateVerified(git, api))] && api in d.registry.observations;
    assert e.sessions == w.sessions - {sid};
  }

  /** Another writer puts the target at the ref, and the apply reads it and confirms it. */
  function Finishing(sid: SessionId, plan: Plan): seq<Step> {
    [OtherWrite(plan.ref, Some(plan.target))] + ([Go(sid, plan)] + Confirming(sid, plan))
  }

  lemma Finishes(w: World, sid: SessionId)
    requires sid in w.sessions && w.sessions[sid].mutation in w.registry.runs && w.sessions[sid].point == ReadInitial
    ensures var s := w.sessions[sid];
            var end := Run(w, Finishing(sid, s.plan));
            && EndsVerified(w.(moves := end.moves), sid, end)
  {
    var s := w.sessions[sid];
    var write, go := OtherWrite(s.plan.ref, Some(s.plan.target)), Go(sid, s.plan);
    var a := Next(w, write);
    var b := Next(a, go);
    RunOne(w, write, [go] + Confirming(sid, s.plan));
    RunOne(a, go, Confirming(sid, s.plan));
    assert ReadRef(a, s.plan.ref) == Some(s.plan.target);
    assert b.sessions == w.sessions[sid := s.(point := RecordGit)] && b.registry == w.registry;
    Confirms(b, sid);
  }

  // ---------------------------------------------------------------- a verified run can still lose the state

  /** Two applies of one mutation start before either reads the remote; one verifies the run while the
      other has yet to read. This reachable state is not settled, so "verified" is not final in it. */
  lemma VerifiedBesideAnEarlyApply(m: MutationId, plan: Plan, f: Fingerprint)
    ensures var steps := [StartApply(0, m, plan, f)] + ([StartApply(1, m, plan, f)] + Finishing(0, plan));
            var w := Run(START, steps);
            && m in w.registry.runs && w.registry.runs[m].state == Verified && !Settled(w, m)
            && exists more: seq<Step> :: Unverified(Run(w, more), m)
  {
    var x, y := StartApply(0, m, plan, f), StartApply(1, m, plan, f);
    var a := Next(START, x);
    var b := Next(a, y);
    RunOne(START, x, [y] + Finishing(0, plan));
    RunOne(a, y, Finishing(0, plan));
    assert a.sessions == map[0 := Session(m, plan, 0, ReadInitial)];
    assert b.sessions == map[0 := Session(m, plan, 0, ReadInitial), 1 := Session(m, plan, 0, ReadInitial)];
    Finishes(b, 0);
    var w := Run(b, Finishing(0, plan));
    assert 1 in w.sessions && w.sessions[1].mutation == m;
    EarlyApplyUnverifies(w, 1, m);
  }

  // ---------------------------------------------------------------- a reused fingerprint swaps the plan

  /** The run that breaks the promise: an apply of `a` is recorded and dies, an apply of `b` brings the
      same mutation and fingerprint, is taken for the same request, pushes `b` and verifies the run. The
      recorded plan is still `a`, the only move of the remote is the push of `b`, and the observations
      are of `b`. */
  lemma SwappedPlanIsPublished(m: MutationId, a: Plan, b: Plan, f: Fingerprint)
    requires b.expected.None? && (a.ref != b.ref || a.target != b.target || a.tree != b.tree)
    ensures var go, push := Go(1, b), Push(m, 1, b.ref, None, b.target);
            var w := Run(START, [StartApply(0, m, a, f), Crash(0), StartApply(1, m, b, f)]
                                + ([go, go, go] + ([Deliver(push), go] + Confirming(1, b))));
            && m in w.registry.runs && w.registry.runs[m].state == Verified && w.registry.runs[m].plan == a
            && w.moves == [ByPush(push, None, Some(b.target))] && !Witnessed(w.registry, m)
  {
    var go, push := Go(1, b), Push(m, 1, b.ref, None, b.target);
    var starts, rest := [StartApply(0, m, a, f), Crash(0), StartApply(1, m, b, f)], [Deliver(push), go] + Confirming(1, b);
    RunAppend(START, starts, [go, go, go] + rest);
    SwapBegins(m, a, b, f);
    var w1 := Run(START, starts);
    RunAppend(w1, [go, go, go], rest);
    RunThree(w1, go, go, go);
    Sends(w1, 1, a);
    hide Run, Next, Confirming;
    var w2 := Run(w1, [go, go, go]);
    assert push in w2.wire;
    RunAppend(w2, [Deliver(push), go], Confirming(1, b));
    RunTwo(w2, Deliver(push), go);
    Lands(w2, 1, push);
    Confirms(Run(w2, [Deliver(push), go]), 1);
  }

  lemma SwapBegins(m: MutationId, a: Plan, b: Plan, f: Fingerprint)
    ensures var w := Run(START, [StartApply(0, m, a, f), Crash(0), StartApply(1, m, b, f)]);
            && w.sessions == map[1 := Session(m, b, 0, ReadInitial)]
            && m in w.registry.runs && w.registry.runs[m].plan == a
            && w.remote == map[] && w.wire == {} && w.moves == []
  {
    RunThree(START, StartApply(0, m, a, f), Crash(0), StartApply(1, m, b, f));
    var x := Next(START, StartApply(0, m, a, f));
    assert x.sessions == map[0 := Session(m, a, 0, ReadInitial)] && x.registry.runs[m].plan == a;
    assert Next(x, Crash(0)).sessions == map[];
  }

  /** The push arrives while its lease holds, and the apply that sent it reads its target. */
  lemma Lands(w: World, sid: SessionId, p: Push)
    requires sid in w.sessions && w.sessions[sid].point == Reconcile && p in w.wire && ReadRef(w, p.ref) == p.expected
    requires w.sessions[sid].plan.ref == p.ref && w.sessions[sid].plan.target == p.target
    ensures var end := Next(Next(w, Deliver(p)), Go(sid, w.sessions[sid].plan));
            && end.sessions == w.sessions[sid := w.sessions[sid].(point := RecordGit)] && end.registry == w.registry
            && end.moves == w.moves + [ByPush(p, p.expected, Some(p.target))]
  {
    assert ReadRef(Next(w, Deliver(p)), p.ref) == Some(p.target);
  }

  /** Three steps take an apply whose lease holds from its first read to a push on the wire. */
  lemma Sends(w: World, sid: SessionId, recorded: Plan)
    requires sid in w.sessions && w.sessions[sid].point == ReadInitial
    requires w.sessions[sid].mutation in w.registry.runs && w.registry.runs[w.sessions[sid].mutation].plan == recorded
    requires ReadRef(w, w.sessions[sid].plan.ref) == w.sessions[sid].plan.expected
    requires w.sessions[sid].plan.expected != Some(w.sessions[sid].plan.target)
    ensures var s, go := w.sessions[sid], Go(sid, w.sessions[sid].plan);
            var end := Next(Next(Next(w, go), go), go);
            && end.wire == w.wire + {Push(s.mutation, s.base + 1, s.plan.ref, s.plan.expected, s.plan.target)}
            && end.sessions == w.sessions[sid := s.(point := Reconcile)]
            && end.remote == w.remote && end.moves == w.moves
            && s.mutation in end.registry.runs && end.registry.runs[s.mutation].plan == recorded
  {
    var s, go := w.sessions[sid], Go(sid, w.sessions[sid].plan);
    var x := Next(w, go);
    var y := Next(x, go);
    assert x.sessions == w.sessions[sid := s.(point := MarkAttempt)] && x.registry == w.registry;
    assert y.sessions == w.sessions[sid := s.(point := SendPush(s.base + 1))];
  }

  // ---------------------------------------------------------------- the exact condition

  /** Every push and every verification is of the plan its run has recorded. */
  ghost predicate PlansKept(w: World) {
    && (forall m | m in w.registry.runs && w.registry.runs[m].state == Verified :: Witnessed(w.registry, m))
    && (forall p | p in w.wire :: Grounded(w.registry, p, true))
    && (forall i | 0 <= i < |w.moves| :: MoveGrounded(w.registry, w.moves[i], true))
  }

  /** No further apply begins. */
  predicate Quiet(steps: seq<Step>) {
    forall i | 0 <= i < |steps| :: !steps[i].StartApply?
  }

  lemma {:induction false} QuietAgrees(w: World, steps: seq<Step>)
    requires Quiet(steps)
    ensures AgreedRun(w, steps)
    decreases steps
  {
    if steps != [] { QuietAgrees(Next(w, steps[0]), steps[1..]); }
  }

  lemma SoundKeepsPlans(w: World)
    requires Sound(w, true)
    ensures PlansKept(w)
  {
    forall m | m in w.registry.runs && w.registry.runs[m].state == Verified ensures Witnessed(w.registry, m) {
      assert Attested(w.registry, m, true);
    }
  }

  /** An apply that rejoins a run with a plan that disagrees can go on, with no further apply, to
      verify or to send what the recorded plan does not allow. */
  lemma DisagreementShows(w: World, step: Step)
    requires Rejoins(w, step) && !Agreed(w, step)
    ensures exists more: seq<Step> :: Quiet(more) && !PlansKept(Run(Next(w, step), more))
  {
    var sid, m, plan := step.sid, step.mutation, step.plan;
    var recorded := w.registry.runs[m].plan;
    var next := Next(w, step);
    assert next.sessions[sid] == Session(m, plan, w.registry.runs[m].attempt, ReadInitial) && next.registry == w.registry;
    if recorded.ref != plan.ref || recorded.target != plan.target || recorded.tree != plan.tree {
      Finishes(next, sid);
      var end := Run(next, Finishing(sid, plan));
      assert end.registry.runs[m].state == Verified && !Witnessed(end.registry, m);
      assert Quiet(Finishing(sid, plan));
    } else {
      var write, go := OtherWrite(plan.ref, plan.expected), Go(sid, plan);
      var moved := Next(next, write);
      Sends(moved, sid, recorded);
      var more := [write] + [go, go, go];
      RunOne(next, write, [go, go, go]);
      RunThree(moved, go, go, go);
      var p := Push(m, moved.sessions[sid].base + 1, plan.ref, plan.expected, plan.target);
      assert p in Run(next, more).wire && !Grounded(Run(next, more).registry, p, true);
      assert Quiet(more);
    }
  }

  lemma {:induction false} FirstDisagreementShows(w: World, steps: seq<Step>)
    requires Sound(w, true) && !AgreedRun(w, steps)
    ensures exists k: nat, more: seq<Step> :: k <= |steps| && Quiet(more) && !PlansKept(Run(Run(w, steps[..k]), more))
    decreases steps
  {
    hide Sound, PlansKept, Quiet;
    var next := Next(w, steps[0]);
    if !Agreed(w, steps[0]) {
      DisagreementShows(w, steps[0]);
      var more: seq<Step> :| Quiet(more) && !PlansKept(Run(next, more));
      assert steps[..1] == [steps[0]];
      RunSingle(w, steps[0]);
      assert !PlansKept(Run(Run(w, steps[..1]), more));
    } else {
      NextKeeps(w, steps[0], true);
      FirstDisagreementShows(next, steps[1..]);
      var k: nat, more: seq<Step> :| k <= |steps[1..]| && Quiet(more) && !PlansKept(Run(Run(next, steps[1..][..k]), more));
      RunPrefix(w, steps, k + 1);
      assert !PlansKept(Run(Run(w, steps[..k + 1]), more));
    }
  }

  lemma {:induction false} PrefixAgrees(w: World, steps: seq<Step>, k: nat)
    requires AgreedRun(w, steps) && k <= |steps|
    ensures AgreedRun(w, steps[..k])
    decreases k
  {
    if k > 0 {
      assert steps[..k][0] == steps[0] && steps[..k][1..] == steps[1..][..k - 1];
      PrefixAgrees(Next(w, steps[0]), steps[1..], k - 1);
    }
  }

  /** For every run: all its applies agree with the recorded plans if and only if at no point of it, and
      in no way it can go on from there without a further apply, is a push sent or made or a run
      verified that is not the recorded plan's. */
  lemma PlansAreKeptExactlyWhenAppliesAgree(steps: seq<Step>)
    ensures AgreedRun(START, steps) <==>
            forall k: nat, more: seq<Step> | k <= |steps| && Quiet(more) :: PlansKept(Run(Run(START, steps[..k]), more))
  {
    if AgreedRun(START, steps) {
      forall k: nat, more: seq<Step> | k <= |steps| && Quiet(more) ensures PlansKept(Run(Run(START, steps[..k]), more)) {
        PrefixAgrees(START, steps, k);
        RunKeeps(START, steps[..k], true);
        QuietAgrees(Run(START, steps[..k]), more);
        RunKeeps(Run(START, steps[..k]), more, true);
        SoundKeepsPlans(Run(Run(START, steps[..k]), more));
      }
    } else {
      FirstDisagreementShows(START, steps);
    }
  }

  // ---------------------------------------------------------------- fingerprints that name the plan

  /** Every run is of the plan that its fingerprint names. */
  ghost predicate NamedBy(w: World, planOf: Fingerprint -> Plan) {
    forall m | m in w.registry.runs :: w.registry.runs[m].plan == planOf(w.registry.runs[m].fingerprint)
  }

  lemma NextKeepsNames(w: World, step: Step, planOf: Fingerprint -> Plan)
    requires NamedBy(w, planOf) && (step.StartApply? ==> step.plan == planOf(step.fingerprint))
    ensures Agreed(w, step) && NamedBy(Next(w, step), planOf)
  {
    if step.Advance? && step.sid in w.sessions {
      AdvanceKeepsNames(w, step.sid, step.answer, planOf);
    }
    hide AdvanceSession;
  }

  lemma AdvanceKeepsNames(w: World, sid: SessionId, a: ApiAnswer, planOf: Fingerprint -> Plan)
    requires NamedBy(w, planOf) && sid in w.sessions
    ensures NamedBy(AdvanceSession(w, sid, a), planOf)
  {
  }

  lemma {:induction false} RunKeepsNames(w: World, steps: seq<Step>, planOf: Fingerprint -> Plan)
    requires NamedBy(w, planOf)
    requires forall i | 0 <= i < |steps| && steps[i].StartApply? :: steps[i].plan == planOf(steps[i].fingerprint)
    ensures AgreedRun(w, steps)
    decreases steps
  {
    if steps != [] {
      NextKeepsNames(w, steps[0], planOf);
      hide NamedBy, Agreed, Next;
      RunKeepsNames(Next(w, steps[0]), steps[1..], planOf);
    }
  }

  /** A caller whose fingerprints determine the plan, as the delivery publisher's do, always agrees. */
  lemma NamingFingerprintsAgree(steps: seq<Step>, planOf: Fingerprint -> Plan)
    requires forall i | 0 <= i < |steps| && steps[i].StartApply? :: steps[i].plan == planOf(steps[i].fingerprint)
    ensures AgreedRun(START, steps)
  {
    RunKeepsNames(START, steps, planOf);
  }
}
