/** Every reachable delivery ledger: leases agree with the run's pointer, event offsets have no gap,
    paging readers miss nothing, and replays are exact. */
module DeliveryLedgerTheorems {
  import opened Base
  import opened DeliveryLedger

  // ---------------------------------------------------------------- the invariant

  /** At most one lease is active, the run refers to it exactly when it exists, and its heartbeat lies
      before its expiry. */
  ghost predicate LeasesAgree(run: Run) {
    && (forall a, b | IsActive(run, a) && IsActive(run, b) :: a == b)
    && (forall id :: IsActive(run, id) <==> run.pointer == Some(id))
    && (forall id | IsActive(run, id) :: run.leases[id].heartbeatAt < run.leases[id].expiresAt)
  }

  ghost predicate EventsInOrder(run: Run) {
    && |run.events| == run.progress.sequence
    && (forall i | 0 <= i < |run.events| :: run.events[i].offset == i && run.events[i].change.expectedSequence == i)
    && (run.events != [] ==> run.events[|run.events| - 1].after == run.progress)
    && (run.events == [] ==> run.progress == Progress("PLANNED", 0, None, None, false))
  }

  ghost predicate KeysUnique(run: Run) {
    forall i, j | 0 <= i < j < |run.events| :: run.events[i].key != run.events[j].key
  }

  ghost predicate EvidenceInOrder(run: Run) {
    forall i | 0 <= i < |run.evidence| :: run.evidence[i].sequence == i
  }

  ghost predicate RunSound(run: Run) {
    LeasesAgree(run) && EventsInOrder(run) && KeysUnique(run) && EvidenceInOrder(run)
  }

  ghost predicate Sound(l: Ledger) {
    forall id | id in l :: RunSound(l[id])
  }

  datatype Operation =
    | DoCreate(id: DeliveryId, plan: string, generation: nat, at: Time, expires: Time)
    | DoTransition(id: DeliveryId, key: string, change: Change)
    | DoEvidence(id: DeliveryId, evidence: Evidence)
    | DoAcquire(id: DeliveryId, plan: string, generation: nat, lease: LeaseId, holder: string, at: Time, expires: Time)
    | DoRenew(id: DeliveryId, plan: string, generation: nat, lease: LeaseId, holder: string, at: Time, expires: Time)
    | DoRelease(id: DeliveryId, plan: string, generation: nat, lease: LeaseId, holder: string, at: Time)

  ghost function Step(l: Ledger, op: Operation): Ledger {
    match op
    case DoCreate(id, plan, g, at, expires) => CreateRun(l, id, plan, g, at, expires).0
    case DoTransition(id, key, c) => Transition(l, id, key, c).0
    case DoEvidence(id, e) => AppendEvidence(l, id, e).0
    case DoAcquire(id, plan, g, lease, holder, at, expires) => Acquire(l, id, plan, g, lease, holder, at, expires).0
    case DoRenew(id, plan, g, lease, holder, at, expires) => Renew(l, id, plan, g, lease, holder, at, expires).0
    case DoRelease(id, plan, g, lease, holder, at) => Release(l, id, plan, g, lease, holder, at).0
  }

  ghost function RunAll(l: Ledger, ops: seq<Operation>): Ledger
    decreases ops
  {
    if ops == [] then l else RunAll(Step(l, ops[0]), ops[1..])
  }

  // ---------------------------------------------------------------- every operation keeps it

  lemma {:induction false} OffsetsEnd(events: seq<Event>)
    requires forall i | 0 <= i < |events| :: events[i].offset == i
    ensures NextOffset(events) == |events|
  {
    if events != [] { OffsetsEnd(events[..|events| - 1]); }
  }

  lemma {:induction false} SequencesEnd(rows: seq<EvidenceRow>)
    requires forall i | 0 <= i < |rows| :: rows[i].sequence == i
    ensures NextSequence(rows) == |rows|
  {
    if rows != [] { SequencesEnd(rows[..|rows| - 1]); }
  }

  lemma {:induction false} FindEventFinds(events: seq<Event>, key: string)
    ensures FindEvent(events, key).Some? ==> FindEvent(events, key).value in events && FindEvent(events, key).value.key == key
    ensures FindEvent(events, key).None? ==> forall i | 0 <= i < |events| :: events[i].key != key
  {
    if events != [] && events[0].key != key {
      FindEventFinds(events[1..], key);
      assert events == [events[0]] + events[1..];
    }
  }

  lemma TransitionKeeps(run: Run, key: string, c: Change)
    requires RunSound(run) && FindEvent(run.events, key).None? && CheckChange(run, c).Ok?
    ensures var after := CheckChange(run, c).value;
            var event := Event(NextOffset(run.events), key, c, after);
            RunSound(run.(progress := after, events := run.events + [event]))
  {
    var after := CheckChange(run, c).value;
    var next := run.(progress := after, events := run.events + [Event(NextOffset(run.events), key, c, after)]);
    OffsetsEnd(run.events);
    FindEventFinds(run.events, key);
    SameLeases(run, next);
    hide LeasesAgree, CheckChange;
    assert after.sequence == run.progress.sequence + 1 && c.expectedSequence == run.progress.sequence by { CheckedSequence(run, c); }
  }

  lemma CheckedSequence(run: Run, c: Change)
    ensures CheckChange(run, c).Ok? ==>
              && CheckChange(run, c).value.sequence == run.progress.sequence + 1
              && c.expectedSequence == run.progress.sequence && !run.progress.terminal
  {
  }

  lemma SameLeases(run: Run, next: Run)
    requires LeasesAgree(run) && next.leases == run.leases && next.pointer == run.pointer
    ensures LeasesAgree(next)
  {
    assert forall id :: IsActive(next, id) == IsActive(run, id);
  }

  lemma EvidenceKeeps(run: Run, e: Evidence)
    requires RunSound(run)
    ensures RunSound(run.(evidence := run.evidence + [EvidenceRow(NextSequence(run.evidence), e)]))
  {
    SequencesEnd(run.evidence);
    SameLeases(run, run.(evidence := run.evidence + [EvidenceRow(NextSequence(run.evidence), e)]));
  }

  lemma ActiveFound(run: Run)
    requires LeasesAgree(run)
    ensures ActiveLease(run) == run.pointer
    ensures run.pointer.Some? ==> run.pointer.value in run.leases
  {
    if run.pointer.Some? { assert IsActive(run, run.pointer.value); }
  }

  lemma TakeoverKeeps(run: Run, lease: LeaseId, made: Lease)
    requires LeasesAgree(run) && lease !in run.leases && made.status == Active && made.heartbeatAt < made.expiresAt
    requires ActiveLease(run) == run.pointer && (run.pointer.Some? ==> run.pointer.value in run.leases)
    ensures LeasesAgree(run.(leases := Displace(run, run.pointer, made.acquiredAt)[lease := made], pointer := Some(lease)))
  {
    var next := run.(leases := Displace(run, run.pointer, made.acquiredAt)[lease := made], pointer := Some(lease));
    forall id ensures IsActive(next, id) <==> id == lease {
      assert IsActive(run, id) <==> run.pointer == Some(id);
    }
  }

  lemma RenewKeeps(run: Run, lease: LeaseId, renewed: Lease)
    requires LeasesAgree(run) && run.pointer == Some(lease) && renewed.status == Active
    requires renewed.heartbeatAt < renewed.expiresAt
    ensures LeasesAgree(run.(leases := run.leases[lease := renewed], pointer := Some(lease)))
  {
    var next := run.(leases := run.leases[lease := renewed], pointer := Some(lease));
    forall id ensures IsActive(next, id) <==> id == lease {
      assert IsActive(run, id) <==> run.pointer == Some(id);
    }
  }

  lemma ReleaseKeeps(run: Run, lease: LeaseId, released: Lease)
    requires LeasesAgree(run) && IsActive(run, lease) && released.status == Released
    ensures LeasesAgree(run.(leases := run.leases[lease := released], pointer := None))
    ensures run.pointer == Some(lease)
  {
    var next := run.(leases := run.leases[lease := released], pointer := None);
    forall id ensures !IsActive(next, id) {
      assert IsActive(run, id) <==> run.pointer == Some(id);
    }
  }

  lemma LeaseStepKeeps(run: Run, next: Run)
    requires RunSound(run) && LeasesAgree(next)
    requires next == run.(leases := next.leases, pointer := next.pointer)
    ensures RunSound(next)
  {
    hide LeasesAgree;
  }

  lemma StepKeeps(l: Ledger, op: Operation)
    requires Sound(l)
    ensures Sound(Step(l, op))
  {
    var next := Step(l, op);
    var id := op.id;
    if id in l { assert RunSound(l[id]); }
    hide LeasesAgree, EventsInOrder, KeysUnique, EvidenceInOrder, CheckChange;
    match op
    case DoCreate(_, plan, g, at, expires) =>
      if id !in l && next != l { NewRunSound(next[id]); }
    case DoTransition(_, key, c) =>
      if next != l { TransitionKeeps(l[id], key, c); }
    case DoEvidence(_, e) =>
      if next != l { EvidenceKeeps(l[id], e); }
    case DoAcquire(_, plan, g, lease, holder, at, expires) =>
      if next != l {
        ActiveFound(l[id]);
        TakeoverKeeps(l[id], lease, Lease(g, holder, at, at, expires, Active, None));
        LeaseStepKeeps(l[id], next[id]);
      }
    case DoRenew(_, plan, g, lease, holder, at, expires) =>
      if next != l {
        RenewKeeps(l[id], lease, l[id].leases[lease].(heartbeatAt := at, expiresAt := expires));
        LeaseStepKeeps(l[id], next[id]);
      }
    case DoRelease(_, plan, g, lease, holder, at) =>
      if next != l {
        ReleaseKeeps(l[id], lease, l[id].leases[lease].(heartbeatAt := at, status := Released, releasedAt := Some(at)));
        LeaseStepKeeps(l[id], next[id]);
      }
  }

  lemma NewRunSound(run: Run)
    requires run.progress == Progress("PLANNED", 0, None, None, false)
    requires run.pointer.None? && run.leases == map[] && run.events == [] && run.evidence == []
    ensures RunSound(run)
  {
  }

  lemma {:induction false} RunsStaySound(l: Ledger, ops: seq<Operation>)
    requires Sound(l)
    ensures Sound(RunAll(l, ops))
    decreases ops
  {
    hide Sound;
    if ops != [] {
      StepKeeps(l, ops[0]);
      RunsStaySound(Step(l, ops[0]), ops[1..]);
    }
  }

  /** Lease agreement in every reachable ledger. */
  lemma LeasesAlwaysAgree(ops: seq<Operation>, id: DeliveryId)
    requires id in RunAll(map[], ops)
    ensures var run := RunAll(map[], ops)[id];
            && (forall a, b | IsActive(run, a) && IsActive(run, b) :: a == b)
            && (forall x :: IsActive(run, x) <==> run.pointer == Some(x))
            && (forall x | IsActive(run, x) :: run.leases[x].heartbeatAt < run.leases[x].expiresAt)
  {
    RunsStaySound(map[], ops);
    assert RunSound(RunAll(map[], ops)[id]);
  }

  /** Event offsets are exactly 0..stateSequence-1 in every reachable ledger. */
  lemma OffsetsHaveNoGap(ops: seq<Operation>, id: DeliveryId)
    requires id in RunAll(map[], ops)
    ensures var run := RunAll(map[], ops)[id];
            |run.events| == run.progress.sequence && forall i | 0 <= i < |run.events| :: run.events[i].offset == i
  {
    RunsStaySound(map[], ops);
    assert RunSound(RunAll(map[], ops)[id]);
  }

  /** How a step may treat an active lease. */
  ghost predicate LeaseStep(l: Ledger, op: Operation, id: DeliveryId, lease: LeaseId)
    requires id in l && lease in l[id].leases
  {
    var held := l[id].leases[lease];
    var next := Step(l, op);
    && id in next && lease in next[id].leases
    && (IsActive(next[id], lease) ==>
          held.expiresAt <= next[id].leases[lease].expiresAt && next[id].leases[lease].holder == held.holder)
    && (!IsActive(next[id], lease) ==>
          || (op.DoRelease? && op.id == id && op.lease == lease && op.holder == held.holder)
          || (op.DoAcquire? && op.id == id && op.lease != lease && op.at >= held.expiresAt))
  }

  lemma AcquireTreatsLease(l: Ledger, op: Operation, id: DeliveryId, lease: LeaseId)
    requires id in l && RunSound(l[id]) && IsActive(l[id], lease) && op.DoAcquire?
    ensures LeaseStep(l, op, id, lease)
  {
    ActiveFound(l[id]);
    assert l[id].pointer == Some(lease);
    hide LeasesAgree, EventsInOrder, KeysUnique, EvidenceInOrder, ActiveLease;
  }

  lemma RenewTreatsLease(l: Ledger, op: Operation, id: DeliveryId, lease: LeaseId)
    requires id in l && IsActive(l[id], lease) && op.DoRenew?
    ensures LeaseStep(l, op, id, lease)
  {
  }

  lemma ReleaseTreatsLease(l: Ledger, op: Operation, id: DeliveryId, lease: LeaseId)
    requires id in l && IsActive(l[id], lease) && op.DoRelease?
    ensures LeaseStep(l, op, id, lease)
  {
  }

  lemma OthersTreatLease(l: Ledger, op: Operation, id: DeliveryId, lease: LeaseId)
    requires id in l && IsActive(l[id], lease) && (op.DoCreate? || op.DoTransition? || op.DoEvidence?)
    ensures LeaseStep(l, op, id, lease)
  {
    hide CheckChange, FindEvent, FindEvidence, NextOffset, NextSequence;
  }

  /** An active lease ends in two ways only: its holder releases it, or another one takes over at or
      after its expiry. While it stays active its expiry never moves back. */
  lemma TakeoverOnlyAfterExpiry(ops: seq<Operation>, op: Operation, id: DeliveryId, lease: LeaseId)
    requires id in RunAll(map[], ops) && IsActive(RunAll(map[], ops)[id], lease)
    ensures LeaseStep(RunAll(map[], ops), op, id, lease)
  {
    RunsStaySound(map[], ops);
    var l := RunAll(map[], ops);
    assert RunSound(l[id]);
    hide LeaseStep, RunSound;
    match op
    case DoAcquire(_, _, _, _, _, _, _) => AcquireTreatsLease(l, op, id, lease);
    case DoRenew(_, _, _, _, _, _, _) => RenewTreatsLease(l, op, id, lease);
    case DoRelease(_, _, _, _, _, _) => ReleaseTreatsLease(l, op, id, lease);
    case DoCreate(_, _, _, _, _) => OthersTreatLease(l, op, id, lease);
    case DoTransition(_, _, _) => OthersTreatLease(l, op, id, lease);
    case DoEvidence(_, _) => OthersTreatLease(l, op, id, lease);
  }

  // ---------------------------------------------------------------- replays

  lemma EventUnique(run: Run, e: Event)
    requires KeysUnique(run) && e in run.events
    ensures FindEvent(run.events, e.key) == Some(e)
  {
    FindEventFinds(run.events, e.key);
    var found := FindEvent(run.events, e.key).value;
    var i :| 0 <= i < |run.events| && run.events[i] == e;
    var j :| 0 <= j < |run.events| && run.events[j] == found;
    SameKeySamePlace(run, i, j);
  }

  lemma SameKeySamePlace(run: Run, i: nat, j: nat)
    requires KeysUnique(run) && i < |run.events| && j < |run.events| && run.events[i].key == run.events[j].key
    ensures i == j
  {
  }

  lemma {:induction false} EventsGrow(l: Ledger, ops: seq<Operation>, id: DeliveryId)
    requires id in l
    ensures id in RunAll(l, ops) && l[id].events <= RunAll(l, ops)[id].events
    ensures l[id].evidence <= RunAll(l, ops)[id].evidence
    decreases ops
  {
    if ops != [] {
      StepGrows(l, ops[0], id);
      hide Step;
      EventsGrow(Step(l, ops[0]), ops[1..], id);
    }
  }

  lemma StepGrows(l: Ledger, op: Operation, id: DeliveryId)
    requires id in l
    ensures id in Step(l, op) && l[id].events <= Step(l, op)[id].events && l[id].evidence <= Step(l, op)[id].evidence
  {
  }

  /** Replay at any distance: after whatever followed, the same key returns the recorded event and
      changes nothing when the change is the same, and is refused otherwise. */
  lemma ReplayAtAnyDistance(ops: seq<Operation>, later: seq<Operation>, id: DeliveryId, e: Event, c: Change)
    requires id in RunAll(map[], ops) && e in RunAll(map[], ops)[id].events
    ensures var l := RunAll(RunAll(map[], ops), later);
            Transition(l, id, e.key, c) == (l, if c == e.change then Ok((e, true)) else Err(IdempotencyConflict))
  {
    var start := RunAll(map[], ops);
    RunsStaySound(map[], ops);
    RunsStaySound(start, later);
    EventsGrow(start, later, id);
    var l := RunAll(start, later);
    assert RunSound(l[id]);
    EventUnique(l[id], e);
  }

  /** Of changes racing on one expected sequence at most one is recorded. */
  lemma OneEventPerSequence(ops: seq<Operation>, id: DeliveryId, d: Event, e: Event)
    requires id in RunAll(map[], ops) && d in RunAll(map[], ops)[id].events && e in RunAll(map[], ops)[id].events
    requires d.change.expectedSequence == e.change.expectedSequence
    ensures d == e
  {
    RunsStaySound(map[], ops);
    var run := RunAll(map[], ops)[id];
    assert RunSound(run);
    var i :| 0 <= i < |run.events| && run.events[i] == d;
    var j :| 0 <= j < |run.events| && run.events[j] == e;
  }

  // ---------------------------------------------------------------- paging

  function Kept<T>(rows: seq<T>, keep: T -> bool): seq<T> {
    if rows == [] then []
    else (if keep(rows[0]) then [rows[0]] else []) + Kept(rows[1..], keep)
  }

  lemma {:induction false} KeptAppend<T>(a: seq<T>, b: seq<T>, keep: T -> bool)
    ensures Kept(a + b, keep) == Kept(a, keep) + Kept(b, keep)
  {
    if a == [] {
      assert a + b == b;
    } else {
      ConsAppend(a, b);
      KeptAppend(a[1..], b, keep);
      Associate(if keep(a[0]) then [a[0]] else [], Kept(a[1..], keep), Kept(b, keep));
    }
  }

  /** Row `i` carries offset `base + i`. */
  ghost predicate Numbered<T(!new)>(rows: seq<T>, at: T -> nat, base: nat) {
    forall i | 0 <= i < |rows| :: at(rows[i]) == base + i
  }

  /** A page holds exactly the kept rows between its offset and the offset it names next, and it is
      empty only when no kept row is left. */
  lemma {:induction false} PageIsExact<T(!new)>(rows: seq<T>, at: T -> nat, keep: T -> bool, base: nat, offset: nat, limit: nat)
    requires Numbered(rows, at, base) && base <= offset && limit >= 1
    ensures var p := PageOf(rows, at, keep, offset, limit);
            && offset <= p.next && (p.next > offset ==> p.next <= base + |rows|)
            && (p.items == [] ==> p.next == offset && forall i | 0 <= i < |rows| && base + i >= offset :: !keep(rows[i]))
            && (offset <= base + |rows| ==> p.next <= base + |rows| && p.items == Kept(rows[offset - base..p.next - base], keep))
    decreases rows
  {
    if rows != [] {
      NumberedTail(rows, at, base);
      assert at(rows[0]) == base;
      if base < offset {
        PageIsExact(rows[1..], at, keep, base + 1, offset, limit);
        var p := PageOf(rows, at, keep, offset, limit);
        assert p == PageOf(rows[1..], at, keep, offset, limit);
        if offset <= base + |rows| {
          assert rows[offset - base..p.next - base] == rows[1..][offset - base - 1..p.next - base - 1];
        }
        forall i | 0 <= i < |rows| && base + i >= offset ensures rows[i] == rows[1..][i - 1] {}
      } else {
        PageFromStart(rows, at, keep, base, limit);
        if PageOf(rows, at, keep, offset, limit).items == [] { EmptyPage(rows, at, keep, base, limit); }
      }
    }
  }

  lemma NumberedTail<T(!new)>(rows: seq<T>, at: T -> nat, base: nat)
    requires Numbered(rows, at, base) && rows != []
    ensures Numbered(rows[1..], at, base + 1)
  {
  }

  /** The page starts at `base` and holds the kept rows up to the offset it names next. */
  ghost predicate Exact<T(!new)>(rows: seq<T>, p: Page<T>, keep: T -> bool, base: nat) {
    && base <= p.next <= base + |rows|
    && p.items == Kept(rows[..p.next - base], keep)
    && (p.items == [] ==> p.next == base)
  }

  lemma {:induction false} PageFromStart<T(!new)>(rows: seq<T>, at: T -> nat, keep: T -> bool, base: nat, limit: nat)
    requires Numbered(rows, at, base)
    ensures Exact(rows, PageOf(rows, at, keep, base, limit), keep, base)
    decreases rows
  {
    if rows != [] && limit > 0 {
      NumberedTail(rows, at, base);
      assert at(rows[0]) == base;
      var left := if keep(rows[0]) then limit - 1 else limit;
      StartLower(rows[1..], at, keep, base, left);
      PageFromStart(rows[1..], at, keep, base + 1, left);
      PageHead(rows, PageOf(rows[1..], at, keep, base + 1, left), keep, base);
      hide Exact;
    }
  }

  /** How a page over the tail extends to the first row, which is kept or not. */
  lemma PageHead<T(!new)>(rows: seq<T>, p: Page<T>, keep: T -> bool, base: nat)
    requires rows != [] && Exact(rows[1..], p, keep, base + 1)
    ensures keep(rows[0]) ==> Exact(rows, Page([rows[0]] + p.items, p.next), keep, base)
    ensures !keep(rows[0]) ==> Exact(rows, if p.items == [] then Page([], base) else p, keep, base)
  {
    FrontKept(rows, keep, p.next - base - 1);
  }

  /** An empty page means that no kept row is left. */
  lemma {:induction false} EmptyPage<T(!new)>(rows: seq<T>, at: T -> nat, keep: T -> bool, base: nat, limit: nat)
    requires Numbered(rows, at, base) && limit >= 1 && Pick(rows, at, keep, base, limit) == []
    ensures forall i | 0 <= i < |rows| :: !keep(rows[i])
    decreases rows
  {
    if rows != [] {
      NumberedTail(rows, at, base);
      assert at(rows[0]) == base;
      StartLower(rows[1..], at, keep, base, limit);
      EmptyPage(rows[1..], at, keep, base + 1, limit);
      forall i | 0 < i < |rows| ensures rows[i] == rows[1..][i - 1] {}
    }
  }

  lemma FrontKept<T(!new)>(rows: seq<T>, keep: T -> bool, n: nat)
    requires rows != [] && n < |rows|
    ensures Kept(rows[..n + 1], keep) == (if keep(rows[0]) then [rows[0]] else []) + Kept(rows[1..][..n], keep)
  {
    assert rows[..n + 1][1..] == rows[1..][..n];
  }

  /** Rows that all lie past an offset are picked alike from any lower one. */
  lemma {:induction false} StartLower<T(!new)>(rows: seq<T>, at: T -> nat, keep: T -> bool, base: nat, limit: nat)
    requires forall i | 0 <= i < |rows| :: at(rows[i]) >= base + 1
    ensures Pick(rows, at, keep, base, limit) == Pick(rows, at, keep, base + 1, limit)
    decreases rows
  {
    if rows != [] {
      StartLower(rows[1..], at, keep, base, limit);
      if limit > 0 { StartLower(rows[1..], at, keep, base, limit - 1); }
    }
  }

  /** A reader that takes one page per snapshot and goes on where the page says. */
  function ReadOn<T>(snapshots: seq<seq<T>>, at: T -> nat, keep: T -> bool, cursor: nat, limits: nat -> nat): (seq<T>, nat)
    decreases snapshots
  {
    if snapshots == [] then ([], cursor)
    else
      var p := PageOf(snapshots[0], at, keep, cursor, limits(|snapshots|));
      var (later, last) := ReadOn(snapshots[1..], at, keep, p.next, limits);
      (p.items + later, last)
  }

  /** Each snapshot extends the one before: the log only grows. */
  ghost predicate Growing<T(!new)>(snapshots: seq<seq<T>>) {
    forall i, j | 0 <= i < j < |snapshots| :: snapshots[i] <= snapshots[j]
  }

  /** A reader following the next offset, with any limits of at least one and appends in between, has
      seen exactly the kept rows between where it began and where it stands, once and in order. */
  lemma {:induction false} ReadersMissNothing<T(!new)>(
    snapshots: seq<seq<T>>, at: T -> nat, keep: T -> bool, cursor: nat, limits: nat -> nat)
    requires snapshots != [] && Growing(snapshots) && cursor <= |snapshots[0]|
    requires forall n | 1 <= n <= |snapshots| :: limits(n) >= 1
    requires forall i | 0 <= i < |snapshots| :: Numbered(snapshots[i], at, 0)
    ensures var (seen, last) := ReadOn(snapshots, at, keep, cursor, limits);
            var final := snapshots[|snapshots| - 1];
            cursor <= last <= |final| && seen == Kept(final[cursor..last], keep)
    decreases snapshots
  {
    hide Kept, PageOf, Growing, Numbered;
    var first, final, limit := snapshots[0], snapshots[|snapshots| - 1], limits(|snapshots|);
    PageInside(first, at, keep, cursor, limit);
    var p, rest := PageOf(first, at, keep, cursor, limit), snapshots[1..];
    if rest == [] {
      assert ReadOn(rest, at, keep, p.next, limits) == ([], p.next);
      assert p.items + [] == p.items;
    } else {
      SnapshotTail(snapshots, at);
      ReadersMissNothing(rest, at, keep, p.next, limits);
      KeptGoesOn(first, final, keep, cursor, p.next, ReadOn(rest, at, keep, p.next, limits).1);
    }
  }

  lemma PageInside<T(!new)>(rows: seq<T>, at: T -> nat, keep: T -> bool, offset: nat, limit: nat)
    requires Numbered(rows, at, 0) && limit >= 1 && offset <= |rows|
    ensures var p := PageOf(rows, at, keep, offset, limit);
            offset <= p.next <= |rows| && p.items == Kept(rows[offset..p.next], keep)
  {
    PageIsExact(rows, at, keep, 0, offset, limit);
  }

  lemma SnapshotTail<T(!new)>(snapshots: seq<seq<T>>, at: T -> nat)
    requires |snapshots| > 1 && Growing(snapshots)
    requires forall i | 0 <= i < |snapshots| :: Numbered(snapshots[i], at, 0)
    ensures var rest := snapshots[1..];
            && Growing(rest) && (forall i | 0 <= i < |rest| :: Numbered(rest[i], at, 0))
            && |snapshots[0]| <= |rest[0]| && rest[|rest| - 1] == snapshots[|snapshots| - 1]
            && snapshots[0] <= snapshots[|snapshots| - 1]
  {
    assert snapshots[0] <= snapshots[1] && snapshots[0] <= snapshots[|snapshots| - 1];
  }

  lemma KeptGoesOn<T(!new)>(first: seq<T>, final: seq<T>, keep: T -> bool, cursor: nat, next: nat, last: nat)
    requires first <= final && cursor <= next <= |first| && next <= last <= |final|
    ensures Kept(final[cursor..last], keep) == Kept(first[cursor..next], keep) + Kept(final[next..last], keep)
  {
    assert first[cursor..next] == final[cursor..next];
    assert final[cursor..last] == final[cursor..next] + final[next..last];
    KeptAppend(final[cursor..next], final[next..last], keep);
  }

  // ---------------------------------------------------------------- readers beside running operations

  function EventsAt(l: Ledger, id: DeliveryId): seq<Event> {
    if id in l then l[id].events else []
  }

  function EvidenceAt(l: Ledger, id: DeliveryId): seq<EvidenceRow> {
    if id in l then l[id].evidence else []
  }

  /** The ledger at the start and after each batch of operations. */
  ghost function States(l: Ledger, batches: seq<seq<Operation>>): (v: seq<Ledger>)
    ensures |v| == |batches| + 1 && v[0] == l
    decreases batches
  {
    if batches == [] then [l] else [l] + States(RunAll(l, batches[0]), batches[1..])
  }

  ghost function RunBatches(l: Ledger, batches: seq<seq<Operation>>): Ledger
    decreases batches
  {
    if batches == [] then l else RunBatches(RunAll(l, batches[0]), batches[1..])
  }

  function Through<T>(ledgers: seq<Ledger>, view: Ledger -> seq<T>): (v: seq<seq<T>>)
    ensures |v| == |ledgers| && forall i | 0 <= i < |v| :: v[i] == view(ledgers[i])
    decreases ledgers
  {
    if ledgers == [] then [] else [view(ledgers[0])] + Through(ledgers[1..], view)
  }

  /** Seen from the states, the rows only grow, and the last state is that of the whole run. */
  lemma {:induction false} StatesGrow<T(!new)>(l: Ledger, batches: seq<seq<Operation>>, view: Ledger -> seq<T>, at: T -> nat)
    requires Sound(l) && forall m: Ledger | Sound(m) :: Numbered(view(m), at, 0)
    requires forall m: Ledger, ops :: view(m) <= view(RunAll(m, ops))
    ensures var v := States(l, batches);
            && Growing(Through(v, view)) && (forall i | 0 <= i < |v| :: Numbered(view(v[i]), at, 0))
            && v[|v| - 1] == RunBatches(l, batches)
    decreases batches
  {
    if batches != [] {
      hide Sound, Numbered, Growing;
      RunsStaySound(l, batches[0]);
      var next := RunAll(l, batches[0]);
      StatesGrow(next, batches[1..], view, at);
      var v, w := States(l, batches), States(next, batches[1..]);
      assert v == [l] + w && v[1..] == w;
      assert Through(v, view) == [view(l)] + Through(w, view);
      ConsGrows(view(l), Through(w, view));
    }
  }

  lemma ConsGrows<T(!new)>(first: seq<T>, rest: seq<seq<T>>)
    requires Growing(rest) && rest != [] && first <= rest[0]
    ensures Growing([first] + rest)
  {
    var all := [first] + rest;
    forall i, j | 0 <= i < j < |all| ensures all[i] <= all[j] {
      assert all[j] == rest[j - 1] && rest[0] <= rest[j - 1];
    }
  }

  lemma {:induction false} StatesHold(l: Ledger, batches: seq<seq<Operation>>, id: DeliveryId)
    requires id in l
    ensures forall i | 0 <= i < |States(l, batches)| :: id in States(l, batches)[i]
    ensures id in RunBatches(l, batches)
    decreases batches
  {
    if batches != [] {
      EventsGrow(l, batches[0], id);
      StatesHold(RunAll(l, batches[0]), batches[1..], id);
    }
  }

  /** One page of a list call per state, each call going on at the offset the last one named. */
  function ReadList<T>(
    ledgers: seq<Ledger>, id: DeliveryId, list: (Run, nat, nat) -> Result<Page<T>, Error>, cursor: nat, limits: nat -> nat)
    : Result<(seq<T>, nat), Error>
    decreases ledgers
  {
    if ledgers == [] then Ok(([], cursor))
    else if id !in ledgers[0] then Err(NotFound)
    else
      match list(ledgers[0][id], cursor, limits(|ledgers|))
      case Err(e) => Err(e)
      case Ok(p) =>
        match ReadList(ledgers[1..], id, list, p.next, limits)
        case Err(e) => Err(e)
        case Ok((later, last)) => Ok((p.items + later, last))
  }

  function Events(): (Run, nat, nat) -> Result<Page<Event>, Error> {
    (run: Run, offset: nat, limit: nat) => ListEvents(run, offset, limit)
  }

  function EvidenceOf(kind: Option<string>): (Run, nat, nat) -> Result<Page<EvidenceRow>, Error> {
    (run: Run, offset: nat, limit: nat) => ListEvidence(run, kind, offset, limit)
  }

  /** The list call accepts limits from 1 to 200 and then gives the page of its rows. */
  ghost predicate Lists<T(!new)>(
    list: (Run, nat, nat) -> Result<Page<T>, Error>, id: DeliveryId, view: Ledger -> seq<T>, at: T -> nat, keep: T -> bool)
  {
    forall l: Ledger, offset: nat, limit: nat | id in l ::
      list(l[id], offset, limit) == if 1 <= limit <= 200 then Ok(PageOf(view(l), at, keep, offset, limit)) else Err(Invalid)
  }

  /** Reading by list calls is reading pages, as long as every limit is accepted. */
  lemma {:induction false} ListsReadOn<T(!new)>(
    ledgers: seq<Ledger>, id: DeliveryId, list: (Run, nat, nat) -> Result<Page<T>, Error>, view: Ledger -> seq<T>,
    at: T -> nat, keep: T -> bool, cursor: nat, limits: nat -> nat)
    requires Lists(list, id, view, at, keep) && forall i | 0 <= i < |ledgers| :: id in ledgers[i]
    ensures var r := ReadList(ledgers, id, list, cursor, limits);
            && (r.Ok? <==> forall n | 1 <= n <= |ledgers| :: 1 <= limits(n) <= 200)
            && (r.Ok? ==> r.value == ReadOn(Through(ledgers, view), at, keep, cursor, limits))
    decreases ledgers
  {
    if ledgers != [] && 1 <= limits(|ledgers|) <= 200 {
      var p := PageOf(view(ledgers[0]), at, keep, cursor, limits(|ledgers|));
      assert list(ledgers[0][id], cursor, limits(|ledgers|)) == Ok(p);
      hide PageOf, Lists;
      ListsReadOn(ledgers[1..], id, list, view, at, keep, p.next, limits);
      assert Through(ledgers, view)[1..] == Through(ledgers[1..], view);
    }
  }

  lemma {:induction false} NoneKept<T(!new)>(rows: seq<T>, keep: T -> bool)
    requires forall i | 0 <= i < |rows| :: !keep(rows[i])
    ensures Kept(rows, keep) == []
    decreases rows
  {
    if rows != [] {
      assert !keep(rows[0]);
      NoneKept(rows[1..], keep);
    }
  }

  /** Whoever gets an empty page has all the kept rows behind it. */
  lemma EmptyPageMeansAll<T(!new)>(rows: seq<T>, at: T -> nat, keep: T -> bool, offset: nat, limit: nat)
    requires Numbered(rows, at, 0) && limit >= 1 && offset <= |rows| && PageOf(rows, at, keep, offset, limit).items == []
    ensures Kept(rows[..offset], keep) == Kept(rows, keep)
  {
    PageIsExact(rows, at, keep, 0, offset, limit);
    forall i | 0 <= i < |rows[offset..]| ensures !keep(rows[offset..][i]) {
      assert rows[offset..][i] == rows[offset + i];
    }
    NoneKept(rows[offset..], keep);
    assert rows == rows[..offset] + rows[offset..];
    KeptAppend(rows[..offset], rows[offset..], keep);
    assert Kept(rows[..offset], keep) + [] == Kept(rows[..offset], keep);
  }

  /** What a reader by list calls has seen after a start and any batches of operations. */
  ghost predicate Seen<T(!new)>(
    r: Result<(seq<T>, nat), Error>, end: Ledger, id: DeliveryId, list: (Run, nat, nat) -> Result<Page<T>, Error>,
    view: Ledger -> seq<T>, keep: T -> bool)
  {
    r.Ok? ==>
      var (seen, last) := r.value;
      && id in end && last <= |view(end)| && seen == Kept(view(end)[..last], keep)
      && forall limit: nat | list(end[id], last, limit).Ok? && list(end[id], last, limit).value.items == [] ::
           seen == Kept(view(end), keep)
  }

  lemma ListReaderMissesNothing<T(!new)>(
    start: Ledger, batches: seq<seq<Operation>>, id: DeliveryId, list: (Run, nat, nat) -> Result<Page<T>, Error>,
    view: Ledger -> seq<T>, at: T -> nat, keep: T -> bool, limits: nat -> nat)
    requires Sound(start) && forall m: Ledger | Sound(m) :: Numbered(view(m), at, 0)
    requires forall m: Ledger, ops :: view(m) <= view(RunAll(m, ops))
    requires Lists(list, id, view, at, keep)
    ensures var r := ReadList(States(start, batches), id, list, 0, limits);
            && (r.Ok? <==> id in start && forall n | 1 <= n <= |batches| + 1 :: 1 <= limits(n) <= 200)
            && Seen(r, RunBatches(start, batches), id, list, view, keep)
  {
    var states, end := States(start, batches), RunBatches(start, batches);
    if id in start {
      StatesHold(start, batches, id);
      ListsReadOn(states, id, list, view, at, keep, 0, limits);
      var r := ReadList(states, id, list, 0, limits);
      if r.Ok? {
        StatesGrow(start, batches, view, at);
        var views := Through(states, view);
        hide Sound, Numbered, Growing, ReadOn, ReadList, States, RunBatches, PageOf;
        assert views[|views| - 1] == view(end);
        ReadersMissNothing(views, at, keep, 0, limits);
        var last := r.value.1;
        assert view(end)[0..last] == view(end)[..last];
        forall limit: nat | list(end[id], last, limit).Ok? && list(end[id], last, limit).value.items == []
          ensures r.value.0 == Kept(view(end), keep)
        {
          assert Numbered(view(end), at, 0);
          EmptyPageMeansAll(view(end), at, keep, last, limit);
        }
      }
    }
  }

  /** A reader of the event list that follows the next offset from the start, with any operations
      between its pages, is refused exactly when the delivery is unknown or a limit lies outside 1 to
      200. Otherwise it has seen exactly the events below its offset, once and in order, and all of them
      when a further page comes back empty. */
  lemma EventReaderMissesNothing(ops: seq<Operation>, batches: seq<seq<Operation>>, id: DeliveryId, limits: nat -> nat)
    ensures var start := RunAll(map[], ops);
            var end := RunBatches(start, batches);
            var r := ReadList(States(start, batches), id, Events(), 0, limits);
            && (r.Ok? <==> id in start && forall n | 1 <= n <= |batches| + 1 :: 1 <= limits(n) <= 200)
            && (r.Ok? ==>
                  var (seen, last) := r.value;
                  && id in end && last <= |end[id].events| && seen == end[id].events[..last]
                  && forall limit: nat | ListEvents(end[id], last, limit).Ok? && ListEvents(end[id], last, limit).value.items == [] ::
                       seen == end[id].events)
  {
    var start := RunAll(map[], ops);
    RunsStaySound(map[], ops);
    var view := (l: Ledger) => EventsAt(l, id);
    var at, keep := (e: Event) => e.offset, (e: Event) => true;
    forall m: Ledger, more ensures view(m) <= view(RunAll(m, more)) {
      if id in m { EventsGrow(m, more, id); }
    }
    forall m: Ledger | Sound(m) ensures Numbered(view(m), at, 0) {
      assert id in m ==> RunSound(m[id]);
    }
    ListReaderMissesNothing(start, batches, id, Events(), view, at, keep, limits);
    var end, r := RunBatches(start, batches), ReadList(States(start, batches), id, Events(), 0, limits);
    hide Sound, Numbered, States, RunBatches, ReadList, ListEvents;
    if r.Ok? {
      AllKept(end[id].events[..r.value.1]);
      AllKept(end[id].events);
      forall limit: nat | ListEvents(end[id], r.value.1, limit).Ok? && ListEvents(end[id], r.value.1, limit).value.items == []
        ensures r.value.0 == end[id].events
      {
        assert Events()(end[id], r.value.1, limit) == ListEvents(end[id], r.value.1, limit);
      }
    }
  }

  lemma {:induction false} AllKept<T>(rows: seq<T>)
    ensures Kept(rows, (t: T) => true) == rows
    decreases rows
  {
    if rows != [] {
      AllKept(rows[1..]);
      assert [rows[0]] + rows[1..] == rows;
    }
  }

  function OfKind(kind: Option<string>): EvidenceRow -> bool {
    (r: EvidenceRow) => kind.None? || r.evidence.kind == kind.value
  }

  /** The same for the evidence list, whole or of one kind: offsets skip the other kinds, yet exactly the
      rows of that kind are seen. */
  lemma EvidenceReaderMissesNothing(
    ops: seq<Operation>, batches: seq<seq<Operation>>, id: DeliveryId, kind: Option<string>, limits: nat -> nat)
    ensures var start := RunAll(map[], ops);
            var end := RunBatches(start, batches);
            var r := ReadList(States(start, batches), id, EvidenceOf(kind), 0, limits);
            && (r.Ok? <==> id in start && forall n | 1 <= n <= |batches| + 1 :: 1 <= limits(n) <= 200)
            && (r.Ok? ==>
                  var (seen, last) := r.value;
                  && id in end && last <= |end[id].evidence| && seen == Kept(end[id].evidence[..last], OfKind(kind))
                  && forall limit: nat | ListEvidence(end[id], kind, last, limit).Ok?
                                         && ListEvidence(end[id], kind, last, limit).value.items == [] ::
                       seen == Kept(end[id].evidence, OfKind(kind)))
  {
    var start := RunAll(map[], ops);
    RunsStaySound(map[], ops);
    var view := (l: Ledger) => EvidenceAt(l, id);
    var at := (r: EvidenceRow) => r.sequence;
    forall m: Ledger, more ensures view(m) <= view(RunAll(m, more)) {
      if id in m { EventsGrow(m, more, id); }
    }
    forall m: Ledger | Sound(m) ensures Numbered(view(m), at, 0) {
      assert id in m ==> RunSound(m[id]);
    }
    ListReaderMissesNothing(start, batches, id, EvidenceOf(kind), view, at, OfKind(kind), limits);
    var end, r := RunBatches(start, batches), ReadList(States(start, batches), id, EvidenceOf(kind), 0, limits);
    hide Sound, Numbered, States, RunBatches, ReadList, ListEvidence, OfKind;
    if r.Ok? {
      forall limit: nat | ListEvidence(end[id], kind, r.value.1, limit).Ok?
                          && ListEvidence(end[id], kind, r.value.1, limit).value.items == []
        ensures r.value.0 == Kept(end[id].evidence, OfKind(kind))
      {
        assert EvidenceOf(kind)(end[id], r.value.1, limit) == ListEvidence(end[id], kind, r.value.1, limit);
      }
    }
  }
}
