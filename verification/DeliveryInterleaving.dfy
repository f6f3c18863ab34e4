/** Several publishers of one delivery at once, taking turns stage by stage over the same run table,
    each going on from the parts it read or wrote last. */
module DeliveryInterleaving {
  import opened Base
  import opened Delivery
  import opened DeliveryTheorems

  /** A live publisher and the parts it believes recorded. */
  datatype Session = Session(name: string, key: string, input: DeliveryInput, parts: Parts)

  datatype Shared = Shared(table: Table, sessions: map<nat, Session>)

  const START := Shared(map[], map[])

  datatype Turn =
    | Begin(sid: nat, name: string, key: string, input: DeliveryInput, fuel: nat)
    | Go(sid: nat, env: Weather, fuel: nat)
    | Die(sid: nat)
    | Other(call: Call)

  predicate AllParts(d: Parts) {
    d.push.Some? && d.pr.Some? && d.workflow.Some? && d.artifacts.Some?
  }

  /** The first stage whose part the publisher lacks; with all parts it completes the delivery. */
  function Stage(w: World, s: Session, env: Weather): (World, Ending<Parts>) {
    if s.parts.push.None? then PushStage(w, Named(s.name), s.input, s.parts, env)
    else if s.parts.pr.None? then PrStage(w, s.name, s.key, s.input, s.parts, env)
    else if s.parts.workflow.None? then WorkflowStage(w, s.name, s.key, s.input, s.parts, env)
    else if s.parts.artifacts.None? then ArtifactsStage(w, s.name, s.key, s.input, s.parts, env)
    else Checkpoint(w, Named(s.name), Completed, s.parts)
  }

  function BeginSession(st: Shared, sid: nat, name: string, key: string, x: DeliveryInput, fuel: nat): Shared {
    if sid in st.sessions then st
    else
      var (w, o) := Reserve(World(st.table, fuel), Named(name), key, DeliveryRequest(x), Some(DeliveryResult(NOTHING)));
      if o.Done? && !TerminalState(o.value.state)
      then Shared(w.runs, st.sessions[sid := Session(name, key, x, PartsOf(o.value))])
      else st.(table := w.runs)
  }

  /** One stage; an error makes the run terminal and ends the publisher, a crash only ends it. */
  function GoOn(st: Shared, sid: nat, env: Weather, fuel: nat): Shared
    requires sid in st.sessions
  {
    var s := st.sessions[sid];
    var (w, o) := Stage(World(st.table, fuel), s, env);
    match o
    case Done(parts) =>
      Shared(w.runs, if AllParts(s.parts) then st.sessions - {sid} else st.sessions[sid := s.(parts := parts)])
    case Refused(e) => Shared(Terminate(w, Named(s.name), e).0.runs, st.sessions - {sid})
    case Crashed => Shared(w.runs, st.sessions - {sid})
  }

  function Next(st: Shared, t: Turn): Shared {
    match t
    case Begin(sid, name, key, x, fuel) => BeginSession(st, sid, name, key, x, fuel)
    case Go(sid, env, fuel) => if sid in st.sessions then GoOn(st, sid, env, fuel) else st
    case Die(sid) => st.(sessions := st.sessions - {sid})
    case Other(call) => st.(table := Perform(st.table, call))
  }

  function TurnAll(st: Shared, turns: seq<Turn>): Shared
    decreases turns
  {
    if turns == [] then st else TurnAll(Next(st, turns[0]), turns[1..])
  }

  // ---------------------------------------------------------------- what every interleaving keeps

  /** The publisher's run is that of its delivery, and what it believes is coherent. */
  ghost predicate SessionSound(t: Table, s: Session) {
    && Named(s.name) in t && t[Named(s.name)].request == DeliveryRequest(s.input) && Coherent(s.parts)
  }

  ghost predicate Sound(st: Shared) {
    && TableSound(World(st.table, 0))
    && forall sid | sid in st.sessions :: SessionSound(st.table, st.sessions[sid])
  }

  /** Runs of deliveries stay there with their requests. */
  ghost predicate RequestsStay(t: Table, u: Table) {
    forall n {:trigger Named(n)} | Named(n) in t && t[Named(n)].request.DeliveryRequest? ::
      Named(n) in u && u[Named(n)].request == t[Named(n)].request
  }

  /** What one stage does, whatever the run has recorded meanwhile. */
  ghost predicate StageDone(w: World, s: Session, next: World, o: Ending<Parts>) {
    && Holds(next, s.name, s.input) && OthersKept(w, s.name, next) && (o.Done? ==> Coherent(o.value))
  }

  lemma StageKeeps(w: World, s: Session, env: Weather)
    requires Holds(w, s.name, s.input) && Coherent(s.parts)
    ensures StageDone(w, s, Stage(w, s, env).0, Stage(w, s, env).1)
  {
    if s.parts.push.None? {
      PushKeeps(w, s, env);
    } else if s.parts.pr.None? {
      PrKeeps(w, s, env);
    } else if s.parts.workflow.None? {
      WorkflowKeeps(w, s, env);
    } else if s.parts.artifacts.None? {
      ArtifactsKeep(w, s, env);
    } else {
      CheckpointKeeps(w, s.name, s.input, Completed, s.parts);
    }
  }

  lemma PushKeeps(w: World, s: Session, env: Weather)
    requires Holds(w, s.name, s.input) && Coherent(s.parts) && s.parts.push.None?
    ensures var (next, o) := PushStage(w, Named(s.name), s.input, s.parts, env); StageDone(w, s, next, o)
  {
    if env.push.Some? {
      var p := env.push.value;
      CheckpointKeeps(w, s.name, s.input, PushVerified, s.parts.(push := Some(Pushed(p.planId, p.seen, p.seenTree))));
    }
  }

  lemma PrKeeps(w: World, s: Session, env: Weather)
    requires Holds(w, s.name, s.input) && Coherent(s.parts) && s.parts.push.Some? && s.parts.pr.None?
    ensures var (next, o) := PrStage(w, s.name, s.key, s.input, s.parts, env); StageDone(w, s, next, o)
  {
    var r := PrRequestFor(s.input, s.parts.push.value);
    UpsertKeeps(w, Child(s.name, "pr"), s.key + ":pr", r, env.pr);
    var (w1, o1) := UpsertPr(w, Child(s.name, "pr"), s.key + ":pr", r, env.pr);
    ChildLeavesParent(w, s.name, s.input, "pr", r, w1);
    if o1.Done? && PrVerifies(env.prReadback, s.input, s.parts.push.value) {
      CheckpointKeeps(w1, s.name, s.input, PrVerified, s.parts.(pr := Some(env.prReadback)));
    }
    hide UpsertPr, Checkpoint, TableSound;
  }

  lemma WorkflowKeeps(w: World, s: Session, env: Weather)
    requires Holds(w, s.name, s.input) && Coherent(s.parts)
    requires s.parts.push.Some? && s.parts.pr.Some? && s.parts.workflow.None?
    ensures var (next, o) := WorkflowStage(w, s.name, s.key, s.input, s.parts, env); StageDone(w, s, next, o)
  {
    if env.discovered.Some? && env.discovered.value.identity.headSha == s.parts.push.value.commit {
      var r := WaitRequestFor(s.input, env.discovered.value.identity);
      WaitKeeps(w, Child(s.name, "workflow"), s.key + ":workflow", r, env.polls);
      var (w1, o1) := WaitWorkflow(w, Child(s.name, "workflow"), s.key + ":workflow", r, env.polls);
      ChildLeavesParent(w, s.name, s.input, "workflow", r, w1);
      if o1.Done? {
        CheckpointKeeps(w1, s.name, s.input, WorkflowVerified, s.parts.(workflow := Some(o1.value)));
      }
    }
    hide WaitWorkflow, Checkpoint, TableSound;
  }

  lemma ArtifactsKeep(w: World, s: Session, env: Weather)
    requires Holds(w, s.name, s.input) && Coherent(s.parts)
    requires s.parts.push.Some? && s.parts.pr.Some? && s.parts.workflow.Some? && s.parts.artifacts.None?
    ensures var (next, o) := ArtifactsStage(w, s.name, s.key, s.input, s.parts, env); StageDone(w, s, next, o)
  {
    var r := CaptureRequestFor(s.input, s.parts.push.value, s.parts.workflow.value);
    CaptureKeeps(w, Child(s.name, "artifacts"), s.key + ":artifacts", r, env.listed);
    var (w1, o1) := CaptureArtifacts(w, Child(s.name, "artifacts"), s.key + ":artifacts", r, env.listed);
    ChildLeavesParent(w, s.name, s.input, "artifacts", r, w1);
    if o1.Done? {
      CheckpointKeeps(w1, s.name, s.input, ArtifactsVerified, s.parts.(artifacts := Some(o1.value)));
    }
    hide CaptureArtifacts, Checkpoint, TableSound;
  }

  lemma SessionsStaySound(st: Shared, next: Shared)
    requires Sound(st) && TableSound(World(next.table, 0)) && RequestsStay(st.table, next.table)
    requires forall sid | sid in next.sessions ::
      (sid in st.sessions && next.sessions[sid] == st.sessions[sid]) || SessionSound(next.table, next.sessions[sid])
    ensures Sound(next)
  {
  }

  lemma GoKeeps(st: Shared, sid: nat, env: Weather, fuel: nat)
    requires Sound(st) && sid in st.sessions
    ensures Sound(GoOn(st, sid, env, fuel)) && RequestsStay(st.table, GoOn(st, sid, env, fuel).table)
  {
    var s, w := st.sessions[sid], World(st.table, fuel);
    assert TableSound(w) && Holds(w, s.name, s.input) && SessionSound(st.table, s);
    StageKeeps(w, s, env);
    var (w1, o1) := Stage(w, s, env);
    if o1.Refused? { TerminateKeeps(w1, s.name, s.input, o1.error); }
    var next := GoOn(st, sid, env, fuel);
    hide Stage, Terminate, Coherent, RunSound;
    assert TableSound(World(next.table, 0));
    assert RequestsStay(st.table, next.table);
    SessionsStaySound(st, next);
  }

  lemma BeginKeeps(st: Shared, sid: nat, name: string, key: string, x: DeliveryInput, fuel: nat)
    requires Sound(st)
    ensures var next := BeginSession(st, sid, name, key, x, fuel); Sound(next) && RequestsStay(st.table, next.table)
  {
    var w := World(st.table, fuel);
    assert TableSound(w);
    ReservedDelivery(w, name, key, x);
    var next := BeginSession(st, sid, name, key, x, fuel);
    hide Coherent, RunSound;
    assert TableSound(World(next.table, 0));
    assert RequestsStay(st.table, next.table);
    SessionsStaySound(st, next);
  }

  lemma OtherKeeps(st: Shared, call: Call)
    requires Sound(st)
    ensures Sound(st.(table := Perform(st.table, call))) && RequestsStay(st.table, Perform(st.table, call))
  {
    var next := st.(table := Perform(st.table, call));
    forall n {:trigger Named(n)} | Named(n) in st.table && st.table[Named(n)].request.DeliveryRequest?
      ensures Named(n) in next.table && next.table[Named(n)].request == st.table[Named(n)].request
    {
      PerformKeeps(st.table, call, n);
    }
    PerformKeeps(st.table, call, "");
    hide Perform, TableSound;
    SessionsStaySound(st, next);
  }

  lemma NextKeeps(st: Shared, t: Turn)
    requires Sound(st)
    ensures Sound(Next(st, t))
  {
    hide Sound, GoOn, BeginSession, Perform;
    match t
    case Begin(sid, name, key, x, fuel) => BeginKeeps(st, sid, name, key, x, fuel);
    case Go(sid, env, fuel) => if sid in st.sessions { GoKeeps(st, sid, env, fuel); }
    case Die(sid) => DieKeeps(st, sid);
    case Other(call) => OtherKeeps(st, call);
  }

  lemma DieKeeps(st: Shared, sid: nat)
    requires Sound(st)
    ensures Sound(st.(sessions := st.sessions - {sid}))
  {
  }

  lemma {:induction false} TurnsKeep(st: Shared, turns: seq<Turn>)
    requires Sound(st)
    ensures Sound(TurnAll(st, turns))
    decreases turns
  {
    hide Sound, Next;
    if turns != [] {
      NextKeeps(st, turns[0]);
      TurnsKeep(Next(st, turns[0]), turns[1..]);
    }
  }

  /** In every interleaving of publishers, crashes and other calls a completed delivery has all four
      parts, and they are about one commit and, where recorded, one tree. */
  lemma CompletedStaysCoherent(turns: seq<Turn>, n: string)
    requires var t := TurnAll(START, turns).table;
             Named(n) in t && t[Named(n)].request.DeliveryRequest? && t[Named(n)].state == Completed
    ensures var d := PartsOf(TurnAll(START, turns).table[Named(n)]);
            && AllParts(d)
            && var commit := d.push.value.commit;
               && d.pr.value.headCommit == commit && d.pr.value.headTree == d.push.value.tree
               && d.workflow.value.identity.headSha == commit
               && forall i | 0 <= i < |d.artifacts.value| ::
                    d.artifacts.value[i].sourceCommit == commit && d.artifacts.value[i].sourceTree == d.push.value.tree
  {
    TurnsKeep(START, turns);
    assert RunSound(TurnAll(START, turns).table[Named(n)]);
  }

  // ---------------------------------------------------------------- is "completed" final?

  /** The delivery is completed, and every live publisher of it has all its parts. */
  ghost predicate Final(st: Shared, n: string) {
    && IsCompleted(st, n)
    && forall sid | sid in st.sessions && st.sessions[sid].name == n :: AllParts(st.sessions[sid].parts)
  }

  predicate IsCompleted(st: Shared, n: string) {
    Named(n) in st.table && st.table[Named(n)].request.DeliveryRequest? && st.table[Named(n)].state == Completed
  }

  lemma GoKeepsFinal(st: Shared, sid: nat, env: Weather, fuel: nat, n: string)
    requires Sound(st) && Final(st, n) && sid in st.sessions
    ensures Final(GoOn(st, sid, env, fuel), n)
  {
    var s, w := st.sessions[sid], World(st.table, fuel);
    if s.name == n {
      hide PushStage, PrStage, WorkflowStage, ArtifactsStage, Sound;
    } else {
      assert TableSound(w) && Holds(w, s.name, s.input) && SessionSound(st.table, s);
      StageKeeps(w, s, env);
      var (w1, o1) := Stage(w, s, env);
      if o1.Refused? { TerminateKeeps(w1, s.name, s.input, o1.error); }
      hide Stage, Terminate, Coherent, RunSound, TableSound, Sound;
      assert GoOn(st, sid, env, fuel).table[Named(n)] == st.table[Named(n)];
    }
  }

  lemma NextKeepsFinal(st: Shared, t: Turn, n: string)
    requires Sound(st) && Final(st, n)
    ensures Final(Next(st, t), n)
  {
    match t
    case Begin(sid, name, key, x, fuel) => hide Sound;
    case Go(sid, env, fuel) => if sid in st.sessions { GoKeepsFinal(st, sid, env, fuel, n); } hide GoOn, Sound;
    case Die(_) => hide Sound;
    case Other(call) => PerformKeeps(st.table, call, n); hide Perform, Sound, TableSound;
  }

  lemma {:induction false} TurnsKeepFinal(st: Shared, turns: seq<Turn>, n: string)
    requires Sound(st) && Final(st, n)
    ensures Final(TurnAll(st, turns), n)
    decreases turns
  {
    hide Sound, Next, Final;
    if turns != [] {
      NextKeeps(st, turns[0]);
      NextKeepsFinal(st, turns[0], n);
      TurnsKeepFinal(Next(st, turns[0]), turns[1..], n);
    }
  }

  /** No stage but the last one leaves the run completed when it does not crash. */
  lemma MissingPartUncompletes(st: Shared, sid: nat)
    requires Sound(st) && sid in st.sessions && !AllParts(st.sessions[sid].parts)
    ensures exists env: Weather, fuel: nat :: !IsCompleted(GoOn(st, sid, env, fuel), st.sessions[sid].name)
  {
    var s := st.sessions[sid];
    assert SessionSound(st.table, s);
    var pr := PullRequest(0, "", "", "", "", "", "", false, false, "");
    var env := Weather(None, PrWeather(None, WriteOutcome(true, None), None), pr, None,
                       (i: nat) => Poll(0, Workflow(WorkflowIdentity("", 0, 0, ""), false, false, [])), []);
    var w := World(st.table, 10);
    assert TableSound(w) && Holds(w, s.name, s.input);
    StageKeeps(w, s, env);
    StageMoves(w, s, env);
    var (w1, o1) := Stage(w, s, env);
    if o1.Refused? { TerminateMoves(w1, s.name, o1.error); }
    hide Stage, Terminate, Sound, StageDone;
    assert !IsCompleted(GoOn(st, sid, env, 10), s.name);
  }

  lemma TerminateMoves(w: World, name: string, e: Error)
    requires Named(name) in w.runs && w.fuel > 0
    ensures Named(name) in Terminate(w, Named(name), e).0.runs
    ensures Terminate(w, Named(name), e).0.runs[Named(name)].state != Completed
  {
  }

  /** With this answer from outside a stage with a missing part does not crash: it is refused, or it
      records its part and the state that goes with it. */
  lemma StageMoves(w: World, s: Session, env: Weather)
    requires Holds(w, s.name, s.input) && Coherent(s.parts) && !AllParts(s.parts)
    requires w.fuel >= 10 && env.push.None? && env.discovered.None?
    ensures var (next, o) := Stage(w, s, env);
            && !o.Crashed? && (o.Refused? ==> next.fuel > 0 && Named(s.name) in next.runs)
            && (o.Done? ==> Named(s.name) in next.runs && next.runs[Named(s.name)].state != Completed)
  {
    if s.parts.push.Some? && s.parts.pr.None? {
      UpsertSpends(w, Child(s.name, "pr"), s.key + ":pr", PrRequestFor(s.input, s.parts.push.value), env.pr);
      hide UpsertPr, TableSound;
    } else if s.parts.push.Some? && s.parts.workflow.Some? {
      var r := CaptureRequestFor(s.input, s.parts.push.value, s.parts.workflow.value);
      CaptureSpends(w, Child(s.name, "artifacts"), s.key + ":artifacts", r, env.listed);
      hide CaptureArtifacts, TableSound;
    }
  }

  lemma UpsertSpends(w: World, id: RunId, key: string, r: Request, x: PrWeather)
    requires r.PrRequest? && w.fuel >= 10
    ensures var (next, o) := UpsertPr(w, id, key, r, x);
            !o.Crashed? && next.fuel >= 5 && forall j | j in w.runs :: j in next.runs
  {
  }

  lemma CaptureSpends(w: World, id: RunId, key: string, r: Request, listed: seq<Descriptor>)
    requires r.CaptureRequest? && w.fuel >= 10
    ensures var (next, o) := CaptureArtifacts(w, id, key, r, listed);
            !o.Crashed? && next.fuel >= 5 && forall j | j in w.runs :: j in next.runs
  {
  }

  lemma LaggingPublisherUncompletes(st: Shared, sid: nat)
    requires Sound(st) && sid in st.sessions && !AllParts(st.sessions[sid].parts)
    ensures exists turns: seq<Turn> :: !IsCompleted(TurnAll(st, turns), st.sessions[sid].name)
  {
    MissingPartUncompletes(st, sid);
    hide Sound, GoOn, IsCompleted;
    var env: Weather, fuel: nat :| !IsCompleted(GoOn(st, sid, env, fuel), st.sessions[sid].name);
    var turn := Go(sid, env, fuel);
    assert Next(st, turn) == GoOn(st, sid, env, fuel);
    hide Next;
    assert [turn][1..] == [] && TurnAll(Next(st, turn), []) == Next(st, turn);
    assert TurnAll(st, [turn]) == Next(st, turn);
  }

  /** "Completed" is final exactly when no live publisher of the delivery lacks a part. */
  lemma CompletedIsFinalExactlyWhen(before: seq<Turn>, n: string)
    requires IsCompleted(TurnAll(START, before), n)
    ensures var st := TurnAll(START, before);
            Final(st, n) <==> forall turns: seq<Turn> :: IsCompleted(TurnAll(st, turns), n)
  {
    TurnsKeep(START, before);
    hide Sound, TurnAll, IsCompleted;
    var st := TurnAll(START, before);
    if Final(st, n) {
      forall turns: seq<Turn> ensures IsCompleted(TurnAll(st, turns), n) { TurnsKeepFinal(st, turns, n); }
    } else {
      var sid :| sid in st.sessions && st.sessions[sid].name == n && !AllParts(st.sessions[sid].parts);
      LaggingPublisherUncompletes(st, sid);
    }
  }

  // ---------------------------------------------------------------- a completed delivery that is not final

  const INPUT := DeliveryInput("repo", "work", "ref", "head", "base", "title", "body", "files", [], 9, 9, None, map[], 9)
  const PR := PullRequest(1, "base", "head", "commit", "tree", "title", "body", true, true, "files")
  const WORKFLOW := Workflow(WorkflowIdentity("build", 1, 1, "commit"), true, true, [])
  const FAIR := Weather(
    Some(PushReport("plan", "commit", "tree", "commit", "tree")), PrWeather(Some(PR), WriteOutcome(false, None), None), PR,
    Some(WORKFLOW), (i: nat) => Poll(0, WORKFLOW), [])

  /** What the first publisher has recorded after so many stages, while the second has not moved. */
  function Recorded(k: nat): Parts {
    Parts(if k >= 1 then Some(Pushed("plan", "commit", "tree")) else None, if k >= 2 then Some(PR) else None,
          if k >= 3 then Some(WORKFLOW) else None, if k >= 4 then Some([]) else None)
  }

  ghost predicate Along(st: Shared, k: nat) {
    && st.sessions == map[0 := Session("d", "key", INPUT, Recorded(k)), 1 := Session("d", "key", INPUT, NOTHING)]
    && Named("d") in st.table && st.table[Named("d")].request == DeliveryRequest(INPUT) && st.table[Named("d")].key == "key"
    && (k < 2 ==> Child("d", "pr") !in st.table)
    && (k < 3 ==> Child("d", "workflow") !in st.table)
    && (k < 4 ==> Child("d", "artifacts") !in st.table)
    && (forall j | j in st.table :: st.table[j].key == "key" || j == Child("d", "pr") || j == Child("d", "workflow")
                                    || j == Child("d", "artifacts"))
    && (Child("d", "pr") in st.table ==> st.table[Child("d", "pr")].key == "key:pr")
    && (Child("d", "workflow") in st.table ==> st.table[Child("d", "workflow")].key == "key:workflow")
    && (Child("d", "artifacts") in st.table ==> st.table[Child("d", "artifacts")].key == "key:artifacts")
  }

  lemma KeysDiffer()
    ensures "key" + ":pr" == "key:pr" && "key" + ":workflow" == "key:workflow" && "key" + ":artifacts" == "key:artifacts"
    ensures |"key"| == 3 && |"key:pr"| == 6 && |"key:workflow"| == 12 && |"key:artifacts"| == 13
  {
  }

  lemma GoPush(st: Shared)
    requires Along(st, 0)
    ensures Along(GoOn(st, 0, FAIR, 9), 1)
  {
    hide PrStage, WorkflowStage, ArtifactsStage;
  }

  lemma GoPr(st: Shared)
    requires Along(st, 1)
    ensures Along(GoOn(st, 0, FAIR, 9), 2)
  {
    KeysDiffer();
    hide PushStage, WorkflowStage, ArtifactsStage;
  }

  lemma GoWorkflow(st: Shared)
    requires Along(st, 2)
    ensures Along(GoOn(st, 0, FAIR, 9), 3)
  {
    KeysDiffer();
    hide PushStage, PrStage, ArtifactsStage;
  }

  lemma GoArtifacts(st: Shared)
    requires Along(st, 3)
    ensures Along(GoOn(st, 0, FAIR, 9), 4)
  {
    KeysDiffer();
    hide PushStage, PrStage, WorkflowStage;
  }

  /** Two publishers of one delivery begin; one completes it before the other has moved. The delivery is
      completed and not final. */
  lemma CompletedBesideALaggingPublisher()
    ensures var go := Go(0, FAIR, 9);
            var st := TurnAll(START, [Begin(0, "d", "key", INPUT, 9)] + ([Begin(1, "d", "key", INPUT, 9)]
                                     + ([go] + ([go] + ([go] + ([go] + [go]))))));
            IsCompleted(st, "d") && !Final(st, "d")
  {
    var go, a, b := Go(0, FAIR, 9), Begin(0, "d", "key", INPUT, 9), Begin(1, "d", "key", INPUT, 9);
    var rest := [go] + ([go] + ([go] + ([go] + [go])));
    BothBegin();
    var st := Next(Next(START, a), b);
    TurnOne(START, a, [b] + rest);
    TurnOne(Next(START, a), b, rest);
    hide Next, IsCompleted, Along, Final;
    FirstFinishes(st);
  }

  lemma BothBegin()
    ensures Along(Next(Next(START, Begin(0, "d", "key", INPUT, 9)), Begin(1, "d", "key", INPUT, 9)), 0)
  {
    var x := Next(START, Begin(0, "d", "key", INPUT, 9));
    assert x.sessions == map[0 := Session("d", "key", INPUT, NOTHING)] && x.table.Keys == {Named("d")};
  }

  lemma FirstFinishes(st: Shared)
    requires Along(st, 0)
    ensures var go := Go(0, FAIR, 9);
            var end := TurnAll(st, [go] + ([go] + ([go] + ([go] + [go]))));
            IsCompleted(end, "d") && !Final(end, "d")
  {
    var go := Go(0, FAIR, 9);
    var s1 := GoOn(st, 0, FAIR, 9);
    GoPush(st);
    GoesOn(st, 0, [go] + ([go] + ([go] + [go])));
    var s2 := GoOn(s1, 0, FAIR, 9);
    hide Along, GoOn, IsCompleted, Final;
    GoPr(s1);
    GoesOn(s1, 1, [go] + ([go] + [go]));
    var s3 := GoOn(s2, 0, FAIR, 9);
    GoWorkflow(s2);
    GoesOn(s2, 2, [go] + [go]);
    var s4 := GoOn(s3, 0, FAIR, 9);
    GoArtifacts(s3);
    GoesOn(s3, 3, [go]);
    GoesOn(s4, 4, []);
    GoComplete(s4);
    assert [go] + [] == [go] && TurnAll(GoOn(s4, 0, FAIR, 9), []) == GoOn(s4, 0, FAIR, 9);
  }

  lemma GoesOn(st: Shared, k: nat, rest: seq<Turn>)
    requires Along(st, k)
    ensures TurnAll(st, [Go(0, FAIR, 9)] + rest) == TurnAll(GoOn(st, 0, FAIR, 9), rest)
  {
    TurnOne(st, Go(0, FAIR, 9), rest);
    hide GoOn, TurnAll;
  }

  lemma GoComplete(st: Shared)
    requires Along(st, 4)
    ensures IsCompleted(GoOn(st, 0, FAIR, 9), "d") && !Final(GoOn(st, 0, FAIR, 9), "d")
  {
    hide PushStage, PrStage, WorkflowStage, ArtifactsStage;
    var end := GoOn(st, 0, FAIR, 9);
    assert 1 in end.sessions && end.sessions[1].name == "d" && !AllParts(end.sessions[1].parts);
  }

  lemma TurnOne(st: Shared, t: Turn, rest: seq<Turn>)
    ensures TurnAll(st, [t] + rest) == TurnAll(Next(st, t), rest)
  {
    assert ([t] + rest)[1..] == rest;
  }
}
