/** Publishing one commit to a remote ref: a durable run record, a leased push, and a readback over two
    channels, against a remote that others write too and that delivers pushes late or never. */
module Publication {
  import opened Base

  type Ref = string
  type Object = string
  type MutationId = string
  type SessionId = nat

  /** An approved push plan; `expected` is the object of the lease, none meaning an absent ref. A plan
      identifier is registered once and for all, so a run that names it is taken to name the plan. */
  datatype Plan = Plan(planId: string, ref: Ref, expected: Option<Object>, target: Object, tree: Object)

  /** The digest a caller sends as the identity of its request; nothing ties it to the plan. */
  type Fingerprint = string

  datatype RunState = IntentPersisted | RemoteAttempted | RemoteReconciled | Verified | Failed | AmbiguousResult

  datatype Channel = GitTransport | GitHubApi

  /** A stored observation; its identifier is the digest of its contents. */
  datatype Observation = Observation(
    mutation: MutationId, channel: Channel, ref: Ref, commit: Option<Object>, tree: Option<Object>, evidence: string)

  datatype PushRun = PushRun(
    fingerprint: Fingerprint, plan: Plan, state: RunState, attempt: nat,
    git: Option<Observation>, api: Option<Observation>, error: Option<string>)

  datatype Event =
    | IntentLogged | LocalPrepared | PushAttempted(attempt: nat, expected: Option<Object>) | GitReconciled
    | ApiDisagreement | PublicationVerified | PublicationFailed(code: string)

  datatype Registry = Registry(
    runs: map<MutationId, PushRun>, observations: set<Observation>, events: map<MutationId, seq<Event>>)

  // ---------------------------------------------------------------- the registry

  datatype Reservation = Conflict | Existing(run: PushRun) | CreatedRun(run: PushRun)

  function ReserveRun(r: Registry, m: MutationId, f: Fingerprint, plan: Plan): (Registry, Reservation) {
    if m in r.runs then
      (r, if r.runs[m].fingerprint == f then Existing(r.runs[m]) else Conflict)
    else
      var run := PushRun(f, plan, IntentPersisted, 0, None, None, None);
      (r.(runs := r.runs[m := run]), CreatedRun(run))
  }

  datatype Update = Update(
    state: RunState, attempt: Option<nat>, git: Option<Observation>, api: Option<Observation>,
    error: Option<string>, clearError: bool)

  /** Absent fields keep their value; there is no condition on the current state. */
  function UpdatedRun(run: PushRun, u: Update): PushRun {
    run.(state := u.state,
         attempt := if u.attempt.Some? then u.attempt.value else run.attempt,
         git := if u.git.Some? then u.git else run.git,
         api := if u.api.Some? then u.api else run.api,
         error := if u.clearError then None else if u.error.Some? then u.error else run.error)
  }

  function UpdateRun(r: Registry, m: MutationId, u: Update): Registry {
    if m in r.runs then r.(runs := r.runs[m := UpdatedRun(r.runs[m], u)]) else r
  }

  function EventsOf(r: Registry, m: MutationId): seq<Event> {
    if m in r.events then r.events[m] else []
  }

  function AppendEvent(r: Registry, m: MutationId, e: Event): Registry {
    r.(events := r.events[m := EventsOf(r, m) + [e]])
  }

  function FailRun(r: Registry, m: MutationId, state: RunState, code: string): Registry {
    AppendEvent(UpdateRun(r, m, Update(state, None, None, None, Some(code), false)), m, PublicationFailed(code))
  }

  class PublicationRegistry {
    var runs: map<MutationId, PushRun>
    var observations: set<Observation>
    var events: map<MutationId, seq<Event>>

    function View(): Registry
      reads this
    {
      Registry(runs, observations, events)
    }

    constructor ()
      ensures View() == Registry(map[], {}, map[])
    {
      runs, observations, events := map[], {}, map[];
    }

    method Reserve(m: MutationId, f: Fingerprint, plan: Plan) returns (r: Reservation)
      modifies `runs
      ensures (View(), r) == ReserveRun(old(View()), m, f, plan)
    {
      if m in runs {
        if runs[m].fingerprint != f { return Conflict; }
        return Existing(runs[m]);
      }
      var run := PushRun(f, plan, IntentPersisted, 0, None, None, None);
      runs := runs[m := run];
      return CreatedRun(run);
    }

    method Change(m: MutationId, u: Update) returns (run: Option<PushRun>)
      modifies `runs
      ensures View() == UpdateRun(old(View()), m, u)
      ensures run == if m in runs then Some(runs[m]) else None
    {
      if m !in runs { return None; }
      runs := runs[m := UpdatedRun(runs[m], u)];
      return Some(runs[m]);
    }

    method Observe(o: Observation)
      modifies `observations
      ensures View() == old(View()).(observations := old(observations) + {o})
    {
      observations := observations + {o};
    }

    method Log(m: MutationId, e: Event)
      modifies `events
      ensures View() == AppendEvent(old(View()), m, e)
    {
      events := events[m := (if m in events then events[m] else []) + [e]];
    }

    /** What a verified run returns, when it holds both observations. */
    method CompletedResult(m: MutationId) returns (r: Option<(Observation, Observation)>)
      ensures r == Completed(View(), m)
    {
      if m !in runs || runs[m].git.None? || runs[m].api.None? { return None; }
      var git, api := runs[m].git.value, runs[m].api.value;
      if git !in observations || api !in observations { return None; }
      return Some((git, api));
    }
  }

  function Completed(r: Registry, m: MutationId): Option<(Observation, Observation)> {
    if m !in r.runs || r.runs[m].git.None? || r.runs[m].api.None? then None
    else if r.runs[m].git.value !in r.observations || r.runs[m].api.value !in r.observations then None
    else Some((r.runs[m].git.value, r.runs[m].api.value))
  }

  // ---------------------------------------------------------------- live applies and the remote

  /** Where a live apply stands. */
  datatype Point =
    | ReadInitial
    | MarkAttempt
    | SendPush(attempt: nat)
    | Reconcile
    | RecordGit
    | UpdateGit(git: Observation)
    | AskApi(git: Observation)
    | RecordApi(git: Observation, api: Observation)
    | UpdateVerified(git: Observation, api: Observation)

  datatype Session = Session(mutation: MutationId, plan: Plan, base: nat, point: Point)

  /** A push on its way to the remote. */
  datatype Push = Push(mutation: MutationId, attempt: nat, ref: Ref, expected: Option<Object>, target: Object)

  datatype Move =
    | ByPush(push: Push, before: Option<Object>, after: Option<Object>)
    | ByOther(ref: Ref, before: Option<Object>, after: Option<Object>)

  datatype World = World(
    registry: Registry, remote: map<Ref, Object>, wire: set<Push>, moves: seq<Move>,
    sessions: map<SessionId, Session>)

  const START := World(Registry(map[], {}, map[]), map[], {}, [], map[])

  datatype Step =
    | StartApply(sid: SessionId, mutation: MutationId, plan: Plan, fingerprint: Fingerprint)
    | Advance(sid: SessionId, answer: ApiAnswer)
    | Crash(sid: SessionId)
    | Deliver(push: Push)
    | Drop(push: Push)
    | OtherWrite(ref: Ref, value: Option<Object>)

  /** What the API says when it is asked; the remote does not bind it. */
  datatype ApiAnswer = ApiAnswer(ref: Ref, commit: Option<Object>, tree: Option<Object>, evidence: string)

  function ReadRef(w: World, ref: Ref): Option<Object> {
    if ref in w.remote then Some(w.remote[ref]) else None
  }

  function WriteRef(w: World, ref: Ref, value: Option<Object>): map<Ref, Object> {
    match value
    case None => w.remote - {ref}
    case Some(o) => w.remote[ref := o]
  }

  function Goto(w: World, sid: SessionId, point: Point): World
    requires sid in w.sessions
  {
    w.(sessions := w.sessions[sid := w.sessions[sid].(point := point)])
  }

  function Stop(w: World, sid: SessionId): World {
    w.(sessions := w.sessions - {sid})
  }

  function WithRegistry(w: World, r: Registry): World {
    w.(registry := r)
  }

  /** Reservation; a verified run returns at once, a changed intent is refused. */
  function Begin(w: World, sid: SessionId, m: MutationId, plan: Plan, f: Fingerprint): World {
    if sid in w.sessions then w
    else
      var (r, reservation) := ReserveRun(w.registry, m, f, plan);
      match reservation
      case Conflict => w
      case Existing(run) =>
        if run.state == Verified then w
        else w.(sessions := w.sessions[sid := Session(m, plan, run.attempt, ReadInitial)])
      case CreatedRun(run) =>
        var logged := AppendEvent(AppendEvent(r, m, IntentLogged), m, LocalPrepared);
        w.(registry := logged, sessions := w.sessions[sid := Session(m, plan, 0, ReadInitial)])
  }

  function GitObservation(s: Session, evidence: string): Observation {
    Observation(s.mutation, GitTransport, s.plan.ref, Some(s.plan.target), Some(s.plan.tree), evidence)
  }

  function ApiObservation(s: Session, a: ApiAnswer): Observation {
    Observation(s.mutation, GitHubApi, a.ref, a.commit, a.tree, a.evidence)
  }

  // Every readback of the ref sees its value at that moment.

  function ReadInitialStep(w: World, sid: SessionId): World
    requires sid in w.sessions
  {
    var s := w.sessions[sid];
    var seen := ReadRef(w, s.plan.ref);
    if seen == Some(s.plan.target) then Goto(w, sid, RecordGit)
    else if seen != s.plan.expected then
      Stop(WithRegistry(w, FailRun(w.registry, s.mutation, Failed, "remote_base_mismatch")), sid)
    else Goto(w, sid, MarkAttempt)
  }

  function MarkStep(w: World, sid: SessionId): World
    requires sid in w.sessions
  {
    var s := w.sessions[sid];
    var attempt := s.base + 1;
    var u := Update(RemoteAttempted, Some(attempt), None, None, None, false);
    var e := PushAttempted(attempt, s.plan.expected);
    Goto(WithRegistry(w, AppendEvent(UpdateRun(w.registry, s.mutation, u), s.mutation, e)), sid, SendPush(attempt))
  }

  function SendStep(w: World, sid: SessionId, attempt: nat): World
    requires sid in w.sessions
  {
    var s := w.sessions[sid];
    Goto(w.(wire := w.wire + {Push(s.mutation, attempt, s.plan.ref, s.plan.expected, s.plan.target)}), sid, Reconcile)
  }

  function ReconcileStep(w: World, sid: SessionId): World
    requires sid in w.sessions
  {
    var s := w.sessions[sid];
    var seen := ReadRef(w, s.plan.ref);
    if seen == Some(s.plan.target) then Goto(w, sid, RecordGit)
    else if seen == s.plan.expected then
      Stop(WithRegistry(w, FailRun(w.registry, s.mutation, Failed, "push_failed")), sid)
    else Stop(WithRegistry(w, FailRun(w.registry, s.mutation, AmbiguousResult, "push_result_unknown")), sid)
  }

  function ObserveStep(w: World, sid: SessionId, o: Observation, point: Point): World
    requires sid in w.sessions
  {
    Goto(WithRegistry(w, w.registry.(observations := w.registry.observations + {o})), sid, point)
  }

  function UpdateGitStep(w: World, sid: SessionId, git: Observation): World
    requires sid in w.sessions
  {
    var m := w.sessions[sid].mutation;
    var u := Update(RemoteReconciled, None, Some(git), None, None, false);
    Goto(WithRegistry(w, AppendEvent(UpdateRun(w.registry, m, u), m, GitReconciled)), sid, AskApi(git))
  }

  function AskApiStep(w: World, sid: SessionId, git: Observation, a: ApiAnswer): World
    requires sid in w.sessions
  {
    var s := w.sessions[sid];
    if a.commit != Some(s.plan.target) || a.tree != Some(s.plan.tree) || a.ref != s.plan.ref then
      var u := Update(RemoteReconciled, None, Some(git), None, Some("git_api_disagreement"), false);
      Stop(WithRegistry(w, AppendEvent(UpdateRun(w.registry, s.mutation, u), s.mutation, ApiDisagreement)), sid)
    else Goto(w, sid, RecordApi(git, ApiObservation(s, a)))
  }

  function VerifyStep(w: World, sid: SessionId, git: Observation, api: Observation): World
    requires sid in w.sessions
  {
    var m := w.sessions[sid].mutation;
    var u := Update(Verified, None, Some(git), Some(api), None, true);
    Stop(WithRegistry(w, AppendEvent(UpdateRun(w.registry, m, u), m, PublicationVerified)), sid)
  }

  /** One step of a live apply. */
  function AdvanceSession(w: World, sid: SessionId, a: ApiAnswer): World
    requires sid in w.sessions
  {
    var s := w.sessions[sid];
    match s.point
    case ReadInitial => ReadInitialStep(w, sid)
    case MarkAttempt => MarkStep(w, sid)
    case SendPush(attempt) => SendStep(w, sid, attempt)
    case Reconcile => ReconcileStep(w, sid)
    case RecordGit => ObserveStep(w, sid, GitObservation(s, a.evidence), UpdateGit(GitObservation(s, a.evidence)))
    case UpdateGit(git) => UpdateGitStep(w, sid, git)
    case AskApi(git) => AskApiStep(w, sid, git, a)
    case RecordApi(git, api) => ObserveStep(w, sid, api, UpdateVerified(git, api))
    case UpdateVerified(git, api) => VerifyStep(w, sid, git, api)
  }

  /** The remote honours the lease: it moves the ref only from the object the push expects. */
  function DeliverPush(w: World, p: Push): World {
    if p in w.wire && ReadRef(w, p.ref) == p.expected then
      w.(remote := w.remote[p.ref := p.target], moves := w.moves + [ByPush(p, p.expected, Some(p.target))])
    else w
  }

  function Next(w: World, step: Step): World {
    match step
    case StartApply(sid, m, plan, f) => Begin(w, sid, m, plan, f)
    case Advance(sid, a) => if sid in w.sessions then AdvanceSession(w, sid, a) else w
    case Crash(sid) => Stop(w, sid)
    case Deliver(p) => DeliverPush(w, p)
    case Drop(p) => w.(wire := w.wire - {p})
    case OtherWrite(ref, value) =>
      w.(remote := WriteRef(w, ref, value), moves := w.moves + [ByOther(ref, ReadRef(w, ref), value)])
  }

  function Run(w: World, steps: seq<Step>): World
    decreases steps
  {
    if steps == [] then w else Run(Next(w, steps[0]), steps[1..])
  }

  // ---------------------------------------------------------------- which plan an apply names

  /** Acting on `named` never does what `recorded` does not allow: same ref, commit and tree, and the
      same lease unless `named` expects what it would push and so never pushes. */
  predicate Agrees(recorded: Plan, named: Plan) {
    && recorded.ref == named.ref && recorded.target == named.target && recorded.tree == named.tree
    && (recorded.expected == named.expected || named.expected == Some(named.target))
  }

  /** The apply gets past the reservation of a run that another call recorded. */
  predicate Rejoins(w: World, step: Step) {
    && step.StartApply? && step.sid !in w.sessions && step.mutation in w.registry.runs
    && w.registry.runs[step.mutation].fingerprint == step.fingerprint
    && w.registry.runs[step.mutation].state != Verified
  }

  /** An apply that gets past the reservation names a plan that agrees with the recorded one. */
  predicate Agreed(w: World, step: Step) {
    Rejoins(w, step) ==> Agrees(w.registry.runs[step.mutation].plan, step.plan)
  }

  predicate AgreedRun(w: World, steps: seq<Step>)
    decreases steps
  {
    steps == [] || (Agreed(w, steps[0]) && AgreedRun(Next(w, steps[0]), steps[1..]))
  }

  // ---------------------------------------------------------------- the invariant

  // Everything below is proved twice at once: for every run, and, where `agreed` holds, for the runs
  // in which all applies agree with the recorded plans.

  ghost predicate OfPlan(p: Push, plan: Plan) {
    p.ref == plan.ref && p.expected == plan.expected && p.target == plan.target
  }

  /** The run of a push and its attempt were recorded before, and the push is the recorded plan's. */
  ghost predicate Grounded(r: Registry, p: Push, agreed: bool) {
    && p.mutation in r.runs
    && PushAttempted(p.attempt, p.expected) in EventsOf(r, p.mutation)
    && (agreed ==> OfPlan(p, r.runs[p.mutation].plan))
  }

  ghost predicate MoveGrounded(r: Registry, move: Move, agreed: bool) {
    move.ByPush? ==>
      Grounded(r, move.push, agreed) && move.before == move.push.expected && move.after == Some(move.push.target)
  }

  predicate SawPlan(o: Observation, m: MutationId, plan: Plan, channel: Channel) {
    && o.mutation == m && o.channel == channel && o.ref == plan.ref
    && o.commit == Some(plan.target) && o.tree == Some(plan.tree)
  }

  /** The run holds a Git and an API observation of one commit and tree at one ref. */
  predicate Paired(r: Registry, m: MutationId) {
    && Completed(r, m).Some?
    && var (git, api) := Completed(r, m).value;
       && git.mutation == m && api.mutation == m && git.channel == GitTransport && api.channel == GitHubApi
       && git.ref == api.ref && git.commit.Some? && git.commit == api.commit && git.tree.Some? && git.tree == api.tree
  }

  /** The run holds a Git and an API observation of the recorded plan's commit. */
  predicate Witnessed(r: Registry, m: MutationId) {
    && m in r.runs && Completed(r, m).Some?
    && SawPlan(Completed(r, m).value.0, m, r.runs[m].plan, GitTransport)
    && SawPlan(Completed(r, m).value.1, m, r.runs[m].plan, GitHubApi)
  }

  ghost predicate Attested(r: Registry, m: MutationId, agreed: bool) {
    Paired(r, m) && (agreed ==> Witnessed(r, m))
  }

  /** What a session has seen and logged is about the plan it was called with. */
  ghost predicate SessionSound(r: Registry, s: Session, agreed: bool) {
    && s.mutation in r.runs && (agreed ==> Agrees(r.runs[s.mutation].plan, s.plan))
    && (match s.point
        case MarkAttempt => s.plan.expected != Some(s.plan.target)
        case SendPush(attempt) =>
          s.plan.expected != Some(s.plan.target) && PushAttempted(attempt, s.plan.expected) in EventsOf(r, s.mutation)
        case UpdateGit(git) => git in r.observations && SawPlan(git, s.mutation, s.plan, GitTransport)
        case AskApi(git) => git in r.observations && SawPlan(git, s.mutation, s.plan, GitTransport)
        case RecordApi(git, api) =>
          && git in r.observations && SawPlan(git, s.mutation, s.plan, GitTransport)
          && SawPlan(api, s.mutation, s.plan, GitHubApi)
        case UpdateVerified(git, api) =>
          && git in r.observations && SawPlan(git, s.mutation, s.plan, GitTransport)
          && api in r.observations && SawPlan(api, s.mutation, s.plan, GitHubApi)
        case _ => true)
  }

  ghost predicate RunsSound(r: Registry, agreed: bool) {
    forall m | m in r.runs && r.runs[m].state == Verified :: Attested(r, m, agreed)
  }

  ghost predicate Sound(w: World, agreed: bool) {
    && RunsSound(w.registry, agreed)
    && (forall p | p in w.wire :: Grounded(w.registry, p, agreed))
    && (forall i | 0 <= i < |w.moves| :: MoveGrounded(w.registry, w.moves[i], agreed))
    && (forall sid | sid in w.sessions :: SessionSound(w.registry, w.sessions[sid], agreed))
  }

  /** Runs keep their plan, and observations and events only accumulate. */
  ghost predicate Grows(r: Registry, t: Registry) {
    && (forall m | m in r.runs :: m in t.runs && t.runs[m].plan == r.runs[m].plan
                                  && t.runs[m].fingerprint == r.runs[m].fingerprint)
    && r.observations <= t.observations
    && (forall m, e | e in EventsOf(r, m) :: e in EventsOf(t, m))
  }

  lemma GrowsKeeps(r: Registry, t: Registry, agreed: bool)
    requires Grows(r, t)
    ensures forall p | Grounded(r, p, agreed) :: Grounded(t, p, agreed)
    ensures forall move | MoveGrounded(r, move, agreed) :: MoveGrounded(t, move, agreed)
    ensures forall s | SessionSound(r, s, agreed) :: SessionSound(t, s, agreed)
  {
  }

  lemma UpdateGrows(r: Registry, m: MutationId, u: Update)
    ensures Grows(r, UpdateRun(r, m, u))
  {
  }

  lemma AppendGrows(r: Registry, m: MutationId, e: Event)
    ensures Grows(r, AppendEvent(r, m, e))
    ensures e in EventsOf(AppendEvent(r, m, e), m)
  {
  }

  lemma GrowsTransitive(r: Registry, s: Registry, t: Registry)
    requires Grows(r, s) && Grows(s, t)
    ensures Grows(r, t)
  {
  }

  /** An update to verified brings observations of `plan`. */
  ghost predicate Attests(r: Registry, m: MutationId, plan: Plan, u: Update) {
    u.state == Verified ==>
      && u.git.Some? && u.api.Some?
      && u.git.value in r.observations && SawPlan(u.git.value, m, plan, GitTransport)
      && u.api.value in r.observations && SawPlan(u.api.value, m, plan, GitHubApi)
  }

  /** The run of `m` may be changed by an apply of `plan`. */
  ghost predicate MayChange(r: Registry, m: MutationId, plan: Plan, agreed: bool) {
    m in r.runs && (agreed ==> Agrees(r.runs[m].plan, plan))
  }

  /** An update that does not verify keeps the registry sound, and one that verifies needs witnesses. */
  lemma UpdateKeepsRuns(r: Registry, m: MutationId, plan: Plan, u: Update, agreed: bool)
    requires RunsSound(r, agreed) && MayChange(r, m, plan, agreed) && Attests(r, m, plan, u)
    ensures RunsSound(UpdateRun(r, m, u), agreed)
  {
    var t := UpdateRun(r, m, u);
    forall n | n in t.runs && t.runs[n].state == Verified ensures Attested(t, n, agreed) {
      if n != m { assert Attested(r, n, agreed); }
    }
  }

  lemma AppendKeepsRuns(r: Registry, m: MutationId, e: Event, agreed: bool)
    requires RunsSound(r, agreed)
    ensures RunsSound(AppendEvent(r, m, e), agreed)
  {
    var t := AppendEvent(r, m, e);
    forall n | n in t.runs && t.runs[n].state == Verified ensures Attested(t, n, agreed) {
      assert Attested(r, n, agreed);
    }
  }

  lemma ObserveKeepsRuns(r: Registry, o: Observation, agreed: bool)
    requires RunsSound(r, agreed)
    ensures RunsSound(r.(observations := r.observations + {o}), agreed)
  {
    var t := r.(observations := r.observations + {o});
    forall n | n in t.runs && t.runs[n].state == Verified ensures Attested(t, n, agreed) {
      assert Attested(r, n, agreed);
    }
  }

  /** A session's step over a registry that grew soundly. */
  lemma SessionMoves(w: World, sid: SessionId, r: Registry, s: Option<Session>, wire: set<Push>, agreed: bool)
    requires Sound(w, agreed) && Grows(w.registry, r) && RunsSound(r, agreed)
    requires s.Some? ==> SessionSound(r, s.value, agreed)
    requires forall p | p in wire :: p in w.wire || Grounded(r, p, agreed)
    ensures Sound(w.(registry := r, wire := wire,
                     sessions := if s.Some? then w.sessions[sid := s.value] else w.sessions - {sid}), agreed)
  {
    GrowsKeeps(w.registry, r, agreed);
  }

  /** One registry change: an update of the run and the event that goes with it. */
  lemma UpdateAndLog(r: Registry, m: MutationId, plan: Plan, u: Update, e: Event, agreed: bool)
    requires RunsSound(r, agreed) && MayChange(r, m, plan, agreed) && Attests(r, m, plan, u)
    ensures var t := AppendEvent(UpdateRun(r, m, u), m, e);
            RunsSound(t, agreed) && Grows(r, t) && e in EventsOf(t, m)
  {
    UpdateKeepsRuns(r, m, plan, u, agreed);
    UpdateGrows(r, m, u);
    AppendKeepsRuns(UpdateRun(r, m, u), m, e, agreed);
    AppendGrows(UpdateRun(r, m, u), m, e);
    GrowsTransitive(r, UpdateRun(r, m, u), AppendEvent(UpdateRun(r, m, u), m, e));
  }

  // ---------------------------------------------------------------- every step keeps it

  lemma BeginKeeps(w: World, sid: SessionId, m: MutationId, plan: Plan, f: Fingerprint, agreed: bool)
    requires Sound(w, agreed) && (agreed ==> Agreed(w, StartApply(sid, m, plan, f)))
    ensures Sound(Begin(w, sid, m, plan, f), agreed) && Grows(w.registry, Begin(w, sid, m, plan, f).registry)
  {
    var next := Begin(w, sid, m, plan, f);
    var r := w.registry;
    if sid !in w.sessions {
      if m in r.runs {
        if next != w {
          SessionMoves(w, sid, r, Some(next.sessions[sid]), w.wire, agreed);
        }
      } else {
        var made := ReserveRun(r, m, f, plan).0;
        NewRunSound(r, m, plan, f, agreed);
        AppendKeepsRuns(made, m, IntentLogged, agreed);
        AppendGrows(made, m, IntentLogged);
        var once := AppendEvent(made, m, IntentLogged);
        AppendKeepsRuns(once, m, LocalPrepared, agreed);
        AppendGrows(once, m, LocalPrepared);
        GrowsTransitive(r, made, once);
        GrowsTransitive(r, once, next.registry);
        SessionMoves(w, sid, next.registry, Some(next.sessions[sid]), w.wire, agreed);
      }
    }
  }

  lemma NewRunSound(r: Registry, m: MutationId, plan: Plan, f: Fingerprint, agreed: bool)
    requires RunsSound(r, agreed) && m !in r.runs
    ensures var t := ReserveRun(r, m, f, plan).0;
            RunsSound(t, agreed) && Grows(r, t) && m in t.runs && t.runs[m].plan == plan
  {
    var t := ReserveRun(r, m, f, plan).0;
    forall n | n in t.runs && t.runs[n].state == Verified ensures Attested(t, n, agreed) {
      assert Attested(r, n, agreed);
    }
    assert forall n :: EventsOf(t, n) == EventsOf(r, n);
  }

  lemma FailKeeps(w: World, sid: SessionId, state: RunState, code: string, agreed: bool)
    requires Sound(w, agreed) && sid in w.sessions && state != Verified
    ensures var r := FailRun(w.registry, w.sessions[sid].mutation, state, code);
            Sound(Stop(WithRegistry(w, r), sid), agreed) && Grows(w.registry, r)
  {
    var m := w.sessions[sid].mutation;
    assert SessionSound(w.registry, w.sessions[sid], agreed);
    UpdateAndLog(w.registry, m, w.sessions[sid].plan, Update(state, None, None, None, Some(code), false), PublicationFailed(code), agreed);
    SessionMoves(w, sid, FailRun(w.registry, m, state, code), None, w.wire, agreed);
  }

  /** A step that only moves the session on, perhaps putting a push of its plan on the wire. */
  lemma MoveOnKeeps(w: World, sid: SessionId, point: Point, wire: set<Push>, agreed: bool)
    requires Sound(w, agreed) && sid in w.sessions
    requires SessionSound(w.registry, w.sessions[sid].(point := point), agreed)
    requires forall p | p in wire :: p in w.wire || Grounded(w.registry, p, agreed)
    ensures Sound(Goto(w.(wire := wire), sid, point), agreed) && Grows(w.registry, w.registry)
  {
    GrowsReflexive(w.registry);
    SessionMoves(w, sid, w.registry, Some(w.sessions[sid].(point := point)), wire, agreed);
  }

  lemma ReadInitialKeeps(w: World, sid: SessionId, agreed: bool)
    requires Sound(w, agreed) && sid in w.sessions
    ensures Sound(ReadInitialStep(w, sid), agreed) && Grows(w.registry, ReadInitialStep(w, sid).registry)
  {
    assert SessionSound(w.registry, w.sessions[sid], agreed);
    FailKeeps(w, sid, Failed, "remote_base_mismatch", agreed);
    MoveOnKeeps(w, sid, RecordGit, w.wire, agreed);
    if w.sessions[sid].plan.expected != Some(w.sessions[sid].plan.target) {
      MoveOnKeeps(w, sid, MarkAttempt, w.wire, agreed);
    }
    hide Sound, Grows, FailRun;
    assert w.(wire := w.wire) == w;
  }

  lemma ReconcileKeeps(w: World, sid: SessionId, agreed: bool)
    requires Sound(w, agreed) && sid in w.sessions
    ensures Sound(ReconcileStep(w, sid), agreed) && Grows(w.registry, ReconcileStep(w, sid).registry)
  {
    assert SessionSound(w.registry, w.sessions[sid], agreed);
    FailKeeps(w, sid, Failed, "push_failed", agreed);
    FailKeeps(w, sid, AmbiguousResult, "push_result_unknown", agreed);
    MoveOnKeeps(w, sid, RecordGit, w.wire, agreed);
    hide Sound, Grows, FailRun;
    assert w.(wire := w.wire) == w;
  }

  lemma SendKeeps(w: World, sid: SessionId, attempt: nat, agreed: bool)
    requires Sound(w, agreed) && sid in w.sessions && w.sessions[sid].point == SendPush(attempt)
    ensures Sound(SendStep(w, sid, attempt), agreed) && Grows(w.registry, SendStep(w, sid, attempt).registry)
  {
    var s := w.sessions[sid];
    assert SessionSound(w.registry, s, agreed);
    var p := Push(s.mutation, attempt, s.plan.ref, s.plan.expected, s.plan.target);
    assert Grounded(w.registry, p, agreed);
    MoveOnKeeps(w, sid, Reconcile, w.wire + {p}, agreed);
  }

  lemma ObserveKeeps(w: World, sid: SessionId, o: Observation, point: Point, agreed: bool)
    requires Sound(w, agreed) && sid in w.sessions
    requires SessionSound(w.registry.(observations := w.registry.observations + {o}), w.sessions[sid].(point := point), agreed)
    ensures Sound(ObserveStep(w, sid, o, point), agreed) && Grows(w.registry, ObserveStep(w, sid, o, point).registry)
  {
    var r := w.registry.(observations := w.registry.observations + {o});
    ObserveKeepsRuns(w.registry, o, agreed);
    assert forall m :: EventsOf(r, m) == EventsOf(w.registry, m);
    SessionMoves(w, sid, r, Some(w.sessions[sid].(point := point)), w.wire, agreed);
  }

  /** One registry update with its event, after which the session goes on or stops. */
  lemma LoggedKeeps(w: World, sid: SessionId, u: Update, e: Event, point: Option<Point>, agreed: bool)
    requires Sound(w, agreed) && sid in w.sessions
    requires var s, r := w.sessions[sid], w.registry;
             && Attests(r, s.mutation, s.plan, u)
             && (point.Some? ==>
                   SessionSound(AppendEvent(UpdateRun(r, s.mutation, u), s.mutation, e), s.(point := point.value), agreed))
    ensures var s := w.sessions[sid];
            var t := AppendEvent(UpdateRun(w.registry, s.mutation, u), s.mutation, e);
            && Grows(w.registry, t)
            && Sound(w.(registry := t,
                        sessions := if point.Some? then w.sessions[sid := s.(point := point.value)] else w.sessions - {sid}), agreed)
  {
    var s := w.sessions[sid];
    assert SessionSound(w.registry, s, agreed);
    UpdateAndLog(w.registry, s.mutation, s.plan, u, e, agreed);
    var t := AppendEvent(UpdateRun(w.registry, s.mutation, u), s.mutation, e);
    hide Grows, RunsSound, SawPlan;
    SessionMoves(w, sid, t, if point.Some? then Some(s.(point := point.value)) else None, w.wire, agreed);
  }

  lemma SessionIsSound(w: World, sid: SessionId, agreed: bool)
    requires Sound(w, agreed) && sid in w.sessions
    ensures SessionSound(w.registry, w.sessions[sid], agreed)
  {
  }

  lemma AttemptLogged(r: Registry, s: Session, u: Update, attempt: nat, agreed: bool)
    requires SessionSound(r, s, agreed) && s.point.MarkAttempt?
    ensures var e := PushAttempted(attempt, s.plan.expected);
            SessionSound(AppendEvent(UpdateRun(r, s.mutation, u), s.mutation, e), s.(point := SendPush(attempt)), agreed)
  {
    AppendGrows(UpdateRun(r, s.mutation, u), s.mutation, PushAttempted(attempt, s.plan.expected));
  }

  lemma MarkKeeps(w: World, sid: SessionId, agreed: bool)
    requires Sound(w, agreed) && sid in w.sessions && w.sessions[sid].point.MarkAttempt?
    ensures Sound(MarkStep(w, sid), agreed) && Grows(w.registry, MarkStep(w, sid).registry)
  {
    hide Sound, Grows, SessionSound, UpdateRun, AppendEvent;
    var s := w.sessions[sid];
    var attempt: nat := s.base + 1;
    var u := Update(RemoteAttempted, Some(attempt), None, None, None, false);
    SessionIsSound(w, sid, agreed);
    AttemptLogged(w.registry, s, u, attempt, agreed);
    LoggedKeeps(w, sid, u, PushAttempted(attempt, s.plan.expected), Some(SendPush(attempt)), agreed);
  }

  lemma UpdateGitKeeps(w: World, sid: SessionId, git: Observation, agreed: bool)
    requires Sound(w, agreed) && sid in w.sessions && w.sessions[sid].point == UpdateGit(git)
    ensures Sound(UpdateGitStep(w, sid, git), agreed) && Grows(w.registry, UpdateGitStep(w, sid, git).registry)
  {
    assert SessionSound(w.registry, w.sessions[sid], agreed);
    LoggedKeeps(w, sid, Update(RemoteReconciled, None, Some(git), None, None, false), GitReconciled, Some(AskApi(git)), agreed);
    hide Sound, Grows;
  }

  lemma AskApiKeeps(w: World, sid: SessionId, git: Observation, a: ApiAnswer, agreed: bool)
    requires Sound(w, agreed) && sid in w.sessions && w.sessions[sid].point == AskApi(git)
    ensures Sound(AskApiStep(w, sid, git, a), agreed) && Grows(w.registry, AskApiStep(w, sid, git, a).registry)
  {
    var s := w.sessions[sid];
    assert SessionSound(w.registry, s, agreed);
    if a.commit != Some(s.plan.target) || a.tree != Some(s.plan.tree) || a.ref != s.plan.ref {
      var u := Update(RemoteReconciled, None, Some(git), None, Some("git_api_disagreement"), false);
      LoggedKeeps(w, sid, u, ApiDisagreement, None, agreed);
      hide Sound, Grows;
    } else {
      MoveOnKeeps(w, sid, RecordApi(git, ApiObservation(s, a)), w.wire, agreed);
      assert w.(wire := w.wire) == w;
      hide Sound, Grows;
    }
  }

  lemma VerifyKeeps(w: World, sid: SessionId, git: Observation, api: Observation, agreed: bool)
    requires Sound(w, agreed) && sid in w.sessions && w.sessions[sid].point == UpdateVerified(git, api)
    ensures Sound(VerifyStep(w, sid, git, api), agreed) && Grows(w.registry, VerifyStep(w, sid, git, api).registry)
  {
    assert SessionSound(w.registry, w.sessions[sid], agreed);
    LoggedKeeps(w, sid, Update(Verified, None, Some(git), Some(api), None, true), PublicationVerified, None, agreed);
    hide Sound, Grows;
  }

  lemma AdvanceKeeps(w: World, sid: SessionId, a: ApiAnswer, agreed: bool)
    requires Sound(w, agreed) && sid in w.sessions
    ensures Sound(AdvanceSession(w, sid, a), agreed) && Grows(w.registry, AdvanceSession(w, sid, a).registry)
  {
    var s := w.sessions[sid];
    assert SessionSound(w.registry, s, agreed);
    hide Sound, Grows, ReadInitialStep, MarkStep, SendStep, ReconcileStep, ObserveStep, UpdateGitStep, AskApiStep, VerifyStep;
    match s.point
    case ReadInitial => ReadInitialKeeps(w, sid, agreed);
    case MarkAttempt => MarkKeeps(w, sid, agreed);
    case SendPush(attempt) => SendKeeps(w, sid, attempt, agreed);
    case Reconcile => ReconcileKeeps(w, sid, agreed);
    case RecordGit =>
      var git := GitObservation(s, a.evidence);
      ObserveKeeps(w, sid, git, UpdateGit(git), agreed);
    case UpdateGit(git) => UpdateGitKeeps(w, sid, git, agreed);
    case AskApi(git) => AskApiKeeps(w, sid, git, a, agreed);
    case RecordApi(git, api) => ObserveKeeps(w, sid, api, UpdateVerified(git, api), agreed);
    case UpdateVerified(git, api) => VerifyKeeps(w, sid, git, api, agreed);
  }

  lemma DeliverKeeps(w: World, p: Push, agreed: bool)
    requires Sound(w, agreed)
    ensures Sound(DeliverPush(w, p), agreed)
  {
    if p in w.wire { assert Grounded(w.registry, p, agreed); }
  }

  lemma NextKeeps(w: World, step: Step, agreed: bool)
    requires Sound(w, agreed) && (agreed ==> Agreed(w, step))
    ensures Sound(Next(w, step), agreed) && Grows(w.registry, Next(w, step).registry)
  {
    match step
    case StartApply(sid, m, plan, f) => BeginKeeps(w, sid, m, plan, f, agreed);
    case Advance(sid, a) => if sid in w.sessions { AdvanceKeeps(w, sid, a, agreed); }
    case Crash(sid) => SessionMoves(w, sid, w.registry, None, w.wire, agreed);
    case Deliver(p) => DeliverKeeps(w, p, agreed);
    case Drop(_) =>
    case OtherWrite(_, _) =>
  }

  lemma {:induction false} RunKeeps(w: World, steps: seq<Step>, agreed: bool)
    requires Sound(w, agreed) && (agreed ==> AgreedRun(w, steps))
    ensures Sound(Run(w, steps), agreed) && Grows(w.registry, Run(w, steps).registry)
    decreases steps
  {
    hide Sound, Grows;
    if steps == [] {
      GrowsReflexive(w.registry);
    } else {
      NextKeeps(w, steps[0], agreed);
      RunKeeps(Next(w, steps[0]), steps[1..], agreed);
      GrowsTransitive(w.registry, Next(w, steps[0]).registry, Run(w, steps).registry);
    }
  }

  lemma GrowsReflexive(r: Registry)
    ensures Grows(r, r)
  {
  }

  // ---------------------------------------------------------------- what every run keeps

  /** Over every run, whatever fingerprints its applies bring: a push moves the ref exactly from the
      object it expects to its target, after its run and its attempt with that lease were recorded. */
  lemma PushesAreLeasedAndRecorded(steps: seq<Step>, i: nat)
    requires i < |Run(START, steps).moves| && Run(START, steps).moves[i].ByPush?
    ensures var w := Run(START, steps);
            var move := w.moves[i];
            && move.before == move.push.expected && move.after == Some(move.push.target)
            && move.push.mutation in w.registry.runs
            && PushAttempted(move.push.attempt, move.before) in EventsOf(w.registry, move.push.mutation)
  {
    RunKeeps(START, steps, false);
    assert MoveGrounded(Run(START, steps).registry, Run(START, steps).moves[i], false);
  }

  /** Every push on the wire already has its run and its attempt on record. */
  lemma IntentPrecedesPush(steps: seq<Step>, p: Push)
    requires p in Run(START, steps).wire
    ensures var r := Run(START, steps).registry;
            p.mutation in r.runs && PushAttempted(p.attempt, p.expected) in EventsOf(r, p.mutation)
  {
    RunKeeps(START, steps, false);
    assert Grounded(Run(START, steps).registry, p, false);
  }

  /** A verified run holds a Git and an API observation of one commit and tree at one ref. */
  lemma VerifiedIsPaired(steps: seq<Step>, m: MutationId)
    requires m in Run(START, steps).registry.runs && Run(START, steps).registry.runs[m].state == Verified
    ensures Paired(Run(START, steps).registry, m)
  {
    RunKeeps(START, steps, false);
    assert Attested(Run(START, steps).registry, m, false);
  }

  // ---------------------------------------------------------------- what agreeing applies keep

  /** Where all applies agree with the recorded plans, a push is exactly the recorded plan's. */
  lemma PushesFollowThePlan(steps: seq<Step>, i: nat)
    requires AgreedRun(START, steps) && i < |Run(START, steps).moves| && Run(START, steps).moves[i].ByPush?
    ensures var w := Run(START, steps);
            var move := w.moves[i];
            var m := move.push.mutation;
            && m in w.registry.runs
            && move.before == w.registry.runs[m].plan.expected
            && move.after == Some(w.registry.runs[m].plan.target)
            && move.push.ref == w.registry.runs[m].plan.ref
            && PushAttempted(move.push.attempt, move.before) in EventsOf(w.registry, m)
  {
    RunKeeps(START, steps, true);
    assert MoveGrounded(Run(START, steps).registry, Run(START, steps).moves[i], true);
  }

  /** Where all applies agree, a verified run holds two observations of the planned commit and tree. */
  lemma VerifiedIsWitnessed(steps: seq<Step>, m: MutationId)
    requires AgreedRun(START, steps)
    requires m in Run(START, steps).registry.runs && Run(START, steps).registry.runs[m].state == Verified
    ensures Witnessed(Run(START, steps).registry, m)
  {
    RunKeeps(START, steps, true);
    assert Attested(Run(START, steps).registry, m, true);
  }

  // ---------------------------------------------------------------- is "verified" final?

  predicate IsLate(p: Point) {
    p.RecordApi? || p.UpdateVerified?
  }

  /** No live apply of the mutation can still change its state away from verified. */
  ghost predicate Settled(w: World, m: MutationId) {
    && m in w.registry.runs && w.registry.runs[m].state == Verified
    && forall sid | sid in w.sessions && w.sessions[sid].mutation == m :: IsLate(w.sessions[sid].point)
  }

  /** A step stops or moves its own session and touches the run of its own mutation only. */
  ghost predicate Local(w: World, sid: SessionId, next: World)
    requires sid in w.sessions
  {
    var s := w.sessions[sid];
    && (forall m | m in w.registry.runs && m != s.mutation ::
          m in next.registry.runs && next.registry.runs[m] == w.registry.runs[m])
    && (|| next.sessions == w.sessions - {sid}
        || (&& sid in next.sessions && next.sessions == w.sessions[sid := next.sessions[sid]]
            && next.sessions[sid].mutation == s.mutation))
  }

  lemma AdvanceIsLocal(w: World, sid: SessionId, a: ApiAnswer)
    requires sid in w.sessions
    ensures Local(w, sid, AdvanceSession(w, sid, a))
  {
    var s := w.sessions[sid];
    match s.point
    case ReadInitial => assert Local(w, sid, ReadInitialStep(w, sid));
    case MarkAttempt => assert Local(w, sid, MarkStep(w, sid));
    case SendPush(attempt) => assert Local(w, sid, SendStep(w, sid, attempt));
    case Reconcile => assert Local(w, sid, ReconcileStep(w, sid));
    case RecordGit =>
    case UpdateGit(git) => assert Local(w, sid, UpdateGitStep(w, sid, git));
    case AskApi(git) => assert Local(w, sid, AskApiStep(w, sid, git, a));
    case RecordApi(git, api) =>
    case UpdateVerified(git, api) => assert Local(w, sid, VerifyStep(w, sid, git, api));
  }

  lemma LateStepKeepsSettled(w: World, sid: SessionId, a: ApiAnswer, m: MutationId)
    requires Settled(w, m) && sid in w.sessions && w.sessions[sid].mutation == m
    ensures Settled(AdvanceSession(w, sid, a), m)
  {
    hide ReadInitialStep, MarkStep, SendStep, ReconcileStep, UpdateGitStep, AskApiStep;
  }

  lemma AdvanceKeepsSettled(w: World, sid: SessionId, a: ApiAnswer, m: MutationId)
    requires Settled(w, m) && sid in w.sessions
    ensures Settled(AdvanceSession(w, sid, a), m)
  {
    if w.sessions[sid].mutation == m {
      LateStepKeepsSettled(w, sid, a, m);
    } else {
      AdvanceIsLocal(w, sid, a);
      hide AdvanceSession;
    }
  }

  lemma NextKeepsSettled(w: World, step: Step, m: MutationId)
    requires Settled(w, m)
    ensures Settled(Next(w, step), m)
  {
    hide AdvanceSession;
    if step.Advance? && step.sid in w.sessions {
      AdvanceKeepsSettled(w, step.sid, step.answer, m);
    }
  }

  /** A settled run stays verified in every continuation. */
  lemma {:induction false} SettledIsAbsorbing(w: World, steps: seq<Step>, m: MutationId)
    requires Settled(w, m)
    ensures Settled(Run(w, steps), m)
    decreases steps
  {
    if steps != [] {
      NextKeepsSettled(w, steps[0], m);
      SettledIsAbsorbing(Next(w, steps[0]), steps[1..], m);
    }
  }

  ghost predicate Unverified(w: World, m: MutationId) {
    m in w.registry.runs && w.registry.runs[m].state != Verified
  }

  lemma RunOne(w: World, step: Step, rest: seq<Step>)
    ensures Run(w, [step] + rest) == Run(Next(w, step), rest)
  {
    assert ([step] + rest)[1..] == rest;
  }

  lemma RunTwo(w: World, x: Step, y: Step)
    ensures Run(w, [x, y]) == Next(Next(w, x), y)
  {
    RunOne(w, x, [y]);
    RunOne(Next(w, x), y, []);
    assert [x] + [y] == [x, y] && [y] + [] == [y];
    assert Run(Next(Next(w, x), y), []) == Next(Next(w, x), y);
  }

  lemma RunThree(w: World, x: Step, y: Step, z: Step)
    ensures Run(w, [x, y, z]) == Next(Next(Next(w, x), y), z)
  {
    RunOne(w, x, [y, z]);
    RunTwo(Next(w, x), y, z);
    assert [x] + [y, z] == [x, y, z];
  }

  /** An object that is neither the plan's expected one nor its target, or an absent ref. */
  function Elsewhere(plan: Plan): Option<Object> {
    if plan.expected.None? then Some(plan.target + "x") else None
  }

  lemma ReadElsewhereUnverifies(w: World, sid: SessionId, a: ApiAnswer)
    requires sid in w.sessions && w.sessions[sid].mutation in w.registry.runs
    requires w.sessions[sid].point == ReadInitial || w.sessions[sid].point == Reconcile
    ensures var s := w.sessions[sid];
            Unverified(Next(Next(w, OtherWrite(s.plan.ref, Elsewhere(s.plan))), Advance(sid, a)), s.mutation)
  {
    var s := w.sessions[sid];
    var moved := Next(w, OtherWrite(s.plan.ref, Elsewhere(s.plan)));
    assert |s.plan.target + "x"| != |s.plan.target|;
    assert ReadRef(moved, s.plan.ref) == Elsewhere(s.plan);
  }

  /** From an early point a live apply can leave the verified state within three steps. */
  lemma EarlyApplyUnverifies(w: World, sid: SessionId, m: MutationId)
    requires m in w.registry.runs && sid in w.sessions && w.sessions[sid].mutation == m
    requires !IsLate(w.sessions[sid].point)
    ensures exists steps: seq<Step> :: Unverified(Run(w, steps), m)
  {
    var s := w.sessions[sid];
    var go := Advance(sid, ApiAnswer(s.plan.ref, None, None, ""));
    var away := OtherWrite(s.plan.ref, Elsewhere(s.plan));
    match s.point
    case ReadInitial =>
      ReadElsewhereUnverifies(w, sid, go.answer);
      RunTwo(w, away, go);
      assert Unverified(Run(w, [away, go]), m);
    case Reconcile =>
      ReadElsewhereUnverifies(w, sid, go.answer);
      RunTwo(w, away, go);
      assert Unverified(Run(w, [away, go]), m);
    case SendPush(_) =>
      ReadElsewhereUnverifies(Next(w, go), sid, go.answer);
      RunThree(w, go, away, go);
      assert Unverified(Run(w, [go, away, go]), m);
    case RecordGit =>
      RunTwo(w, go, go);
      assert Unverified(Run(w, [go, go]), m);
    case MarkAttempt => OneStepUnverifies(w, go, m);
    case UpdateGit(_) => OneStepUnverifies(w, go, m);
    case AskApi(_) => OneStepUnverifies(w, go, m);
  }

  lemma OneStepUnverifies(w: World, step: Step, m: MutationId)
    requires Unverified(Next(w, step), m)
    ensures exists steps: seq<Step> :: Unverified(Run(w, steps), m)
  {
    RunOne(w, step, []);
    assert [step] + [] == [step] && Run(Next(w, step), []) == Next(w, step);
    assert Unverified(Run(w, [step]), m);
  }

  /** "Verified" is final exactly when no live apply of the same mutation is at an early point. */
  lemma VerifiedIsFinalExactlyWhenSettled(w: World, m: MutationId)
    requires m in w.registry.runs && w.registry.runs[m].state == Verified
    ensures Settled(w, m) <==> forall steps: seq<Step> :: !Unverified(Run(w, steps), m)
  {
    if Settled(w, m) {
      forall steps: seq<Step> ensures !Unverified(Run(w, steps), m) { SettledIsAbsorbing(w, steps, m); }
    } else {
      var sid :| sid in w.sessions && w.sessions[sid].mutation == m && !IsLate(w.sessions[sid].point);
      EarlyApplyUnverifies(w, sid, m);
    }
  }

  /** An apply starts only when no other apply of its mutation is live. */
  predicate Exclusive(w: World, step: Step) {
    step.StartApply? ==> forall sid | sid in w.sessions :: w.sessions[sid].mutation != step.mutation
  }

  predicate ExclusiveRun(w: World, steps: seq<Step>)
    decreases steps
  {
    steps == [] || (Exclusive(w, steps[0]) && ExclusiveRun(Next(w, steps[0]), steps[1..]))
  }

  /** At most one live apply per mutation, and none of a verified mutation. */
  ghost predicate OneApply(w: World) {
    && (forall a, b | a in w.sessions && b in w.sessions && w.sessions[a].mutation == w.sessions[b].mutation :: a == b)
    && (forall sid | sid in w.sessions :: Unverified(w, w.sessions[sid].mutation))
  }

  lemma BeginKeepsOne(w: World, sid: SessionId, m: MutationId, plan: Plan, f: Fingerprint)
    requires OneApply(w) && Exclusive(w, StartApply(sid, m, plan, f))
    ensures OneApply(Begin(w, sid, m, plan, f))
  {
  }

  /** The run of a session that goes on is not verified. */
  lemma GoingOnIsUnverified(w: World, sid: SessionId, a: ApiAnswer)
    requires sid in w.sessions && Unverified(w, w.sessions[sid].mutation)
    ensures var next := AdvanceSession(w, sid, a);
            sid in next.sessions ==> Unverified(next, w.sessions[sid].mutation)
  {
  }

  lemma AdvanceKeepsOne(w: World, sid: SessionId, a: ApiAnswer)
    requires OneApply(w) && sid in w.sessions
    ensures OneApply(AdvanceSession(w, sid, a))
  {
    AdvanceIsLocal(w, sid, a);
    GoingOnIsUnverified(w, sid, a);
    hide AdvanceSession;
    var next := AdvanceSession(w, sid, a);
    forall x | x in next.sessions ensures Unverified(next, next.sessions[x].mutation) {
      assert Unverified(w, w.sessions[x].mutation);
    }
  }

  lemma {:induction false} ExclusiveRunsKeepOne(w: World, steps: seq<Step>)
    requires OneApply(w) && ExclusiveRun(w, steps)
    ensures OneApply(Run(w, steps))
    decreases steps
  {
    if steps != [] {
      match steps[0] {
        case StartApply(sid, m, plan, f) => BeginKeepsOne(w, sid, m, plan, f);
        case Advance(sid, a) => if sid in w.sessions { AdvanceKeepsOne(w, sid, a); }
        case _ =>
      }
      ExclusiveRunsKeepOne(Next(w, steps[0]), steps[1..]);
    }
  }

  lemma OneApplySettles(w: World, m: MutationId)
    requires OneApply(w) && m in w.registry.runs && w.registry.runs[m].state == Verified
    ensures Settled(w, m)
  {
    forall sid ensures sid in w.sessions ==> Unverified(w, w.sessions[sid].mutation) {}
  }

  /** With one live apply per mutation at a time, "verified" is final and what a repeated apply
      returns is a pair of observations of one commit, the planned one where all applies agree. */
  lemma VerifiedIsFinalUnderExclusion(steps: seq<Step>, more: seq<Step>, m: MutationId, agreed: bool)
    requires ExclusiveRun(START, steps) && (agreed ==> AgreedRun(START, steps) && AgreedRun(Run(START, steps), more))
    requires m in Run(START, steps).registry.runs && Run(START, steps).registry.runs[m].state == Verified
    ensures var end := Run(Run(START, steps), more);
            && m in end.registry.runs && end.registry.runs[m].state == Verified
            && Paired(end.registry, m) && (agreed ==> Witnessed(end.registry, m))
  {
    ExclusiveRunsKeepOne(START, steps);
    var w := Run(START, steps);
    OneApplySettles(w, m);
    SettledIsAbsorbing(w, more, m);
    RunKeeps(START, steps, agreed);
    RunKeeps(w, more, agreed);
    assert Attested(Run(w, more).registry, m, agreed);
  }
}
