/** Restoring chosen snapshot targets on a host and reading them back. */
module Snapshot {
  import opened Base
  import opened Order
  import opened HostTree
  import opened Capture
  import opened Restore

  const POINTER_TARGETS: seq<Path> := [
    ["opt", "baby-quirt", "current"],
    ["opt", "baby-quirt", "previous"],
    ["opt", "baby-quirt-mcp", "current"],
    ["opt", "baby-quirt-mcp", "previous"]]

  const STATE_TARGETS: seq<Path> := [
    ["etc", "systemd", "system", "baby-quirt.service"],
    ["etc", "systemd", "system", "baby-quirt.socket"],
    ["etc", "systemd", "system", "baby-quirt-mcp.service"],
    ["etc", "tmpfiles.d", "baby-quirt.conf"],
    ["etc", "tmpfiles.d", "baby-quirt-mcp.conf"],
    ["etc", "baby-quirt"],
    ["etc", "baby-quirt-mcp"],
    ["var", "lib", "baby-quirt", "deployment-state.sqlite"],
    ["var", "lib", "baby-quirt", "deployment-state.sqlite-wal"],
    ["var", "lib", "baby-quirt", "deployment-state.sqlite-shm"],
    ["var", "lib", "baby-quirt-mcp"],
    ["etc", "caddy", "Caddyfile"],
    ["etc", "caddy", "sites-enabled", "baby-quirt-mcp.Caddyfile"]]

  const SNAPSHOT_TARGETS: seq<Path> := POINTER_TARGETS + STATE_TARGETS

  /** Neither path lies at or below the other. */
  predicate Apart(p: Path, q: Path) {
    !(p <= q) && !(q <= p)
  }

  ghost predicate ApartAll(targets: seq<Path>) {
    && (forall i | 0 <= i < |targets| :: targets[i] != [])
    && (forall i, j | 0 <= i < j < |targets| :: Apart(targets[i], targets[j]))
  }

  datatype Verdict = NotFixed | UndeclaredPath | RestoreFailed | ReadbackFailed | ReadbackDiffers | Verified(count: nat)

  datatype Report = Report(fs: Fs, verdict: Verdict)

  // ---------------------------------------------------------------- the restore call

  /** The first declared target at or above `p`. */
  function TargetOf(targets: seq<Path>, p: Path): Option<Path> {
    if targets == [] then None
    else if targets[0] <= p then Some(targets[0])
    else TargetOf(targets[1..], p)
  }

  function Keep(es: seq<Entry>, keep: Path -> bool): seq<Entry> {
    if es == [] then []
    else if keep(es[0].path) then [es[0]] + Keep(es[1..], keep)
    else Keep(es[1..], keep)
  }

  function GroupOf(targets: seq<Path>, es: seq<Entry>, t: Path): seq<Entry> {
    Keep(es, p => TargetOf(targets, p) == Some(t))
  }

  function Expected(es: seq<Entry>, selected: seq<Path>): seq<Entry> {
    Keep(es, p => exists t :: t in selected && t <= p)
  }

  function Chosen(targets: seq<Path>, selected: seq<Path>): seq<Path> {
    if targets == [] then []
    else if targets[0] in selected then [targets[0]] + Chosen(targets[1..], selected)
    else Chosen(targets[1..], selected)
  }

  datatype Restoring = Restoring(fs: Fs, ok: bool, count: nat)

  /** Restores the selected ones of `rest` in their fixed order. */
  function RestoreChosen(fs: Fs, targets: seq<Path>, rest: seq<Path>, rec: Recovery, selected: seq<Path>, count: nat)
    : Restoring
    decreases rest
  {
    if rest == [] then Restoring(fs, true, count)
    else if rest[0] !in selected then RestoreChosen(fs, targets, rest[1..], rec, selected, count)
    else
      var group := GroupOf(targets, rec.entries, rest[0]);
      var r := RestoreTarget(fs, rest[0], group, rec.blobs);
      if !r.ok then Restoring(r.fs, false, count)
      else RestoreChosen(r.fs, targets, rest[1..], rec, selected, count + |group|)
  }

  function ReadBack(fs: Fs, rec: Recovery, selected: seq<Path>, max: nat, count: nat): Verdict {
    match WalkRoots(fs, selected, [], max)
    case None => ReadbackFailed
    case Some(es) => if es == Expected(rec.entries, selected) then Verified(count) else ReadbackDiffers
  }

  function RestoreSelected(
    fs: Fs, targets: seq<Path>, pointers: seq<Path>, rec: Recovery, selected: seq<Path>, max: nat): Report
  {
    if exists t :: t in selected && (t !in targets || t in pointers) then Report(fs, NotFixed)
    else if exists e :: e in rec.entries && TargetOf(targets, e.path).None? then Report(fs, UndeclaredPath)
    else
      var r := RestoreChosen(fs, targets, targets, rec, selected, 0);
      if !r.ok then Report(r.fs, RestoreFailed)
      else Report(r.fs, ReadBack(r.fs, rec, selected, max, r.count))
  }

  // ---------------------------------------------------------------- the manager

  class SnapshotManager {
    const targets: seq<Path>
    const pointers: seq<Path>
    const maxEntries: nat
    var fs: Fs

    constructor (fs: Fs, targets: seq<Path>, pointers: seq<Path>, maxEntries: nat)
      ensures this.fs == fs && this.targets == targets && this.pointers == pointers && this.maxEntries == maxEntries
    {
      this.fs := fs;
      this.targets := targets;
      this.pointers := pointers;
      this.maxEntries := maxEntries;
    }

    method RestoreNonPointerTargets(rec: Recovery, selected: seq<Path>) returns (v: Verdict)
      modifies this
      ensures Report(fs, v) == RestoreSelected(old(fs), targets, pointers, rec, selected, maxEntries)
    {
      var i := 0;
      while i < |selected|
        invariant 0 <= i <= |selected|
        invariant forall k | 0 <= k < i :: selected[k] in targets && selected[k] !in pointers
      {
        if selected[i] !in targets || selected[i] in pointers { return NotFixed; }
        i := i + 1;
      }
      i := 0;
      while i < |rec.entries|
        invariant 0 <= i <= |rec.entries|
        invariant forall k | 0 <= k < i :: TargetOf(targets, rec.entries[k].path).Some?
      {
        if TargetOf(targets, rec.entries[i].path).None? {
          assert rec.entries[i] in rec.entries;
          return UndeclaredPath;
        }
        i := i + 1;
      }
      var host := new Restorer(fs);
      var restoredEntryCount: nat := 0;
      i := 0;
      while i < |targets|
        invariant 0 <= i <= |targets|
        invariant RestoreChosen(host.fs, targets, targets[i..], rec, selected, restoredEntryCount)
               == RestoreChosen(fs, targets, targets, rec, selected, 0)
        invariant fs == old(fs) && fresh(host)
      {
        assert targets[i..][0] == targets[i] && targets[i..][1..] == targets[i + 1..];
        if targets[i] in selected {
          var group := GroupOf(targets, rec.entries, targets[i]);
          var ok := host.RestoreOneTarget(targets[i], group, rec.blobs);
          if !ok {
            fs := host.fs;
            return RestoreFailed;
          }
          restoredEntryCount := restoredEntryCount + |group|;
        }
        i := i + 1;
      }
      fs := host.fs;
      v := InventoryAndCompare(rec, selected, restoredEntryCount);
    }

    /** Walks the selected targets in the order they were asked for and compares. */
    method InventoryAndCompare(rec: Recovery, selected: seq<Path>, count: nat) returns (v: Verdict)
      ensures v == ReadBack(fs, rec, selected, maxEntries, count)
    {
      var writer := new SnapshotWriter(fs, maxEntries);
      var i := 0;
      while i < |selected|
        invariant 0 <= i <= |selected|
        invariant writer.fs == fs && writer.maxEntries == maxEntries && Honest(writer.payloads)
        invariant WalkRoots(fs, selected, [], maxEntries) == WalkRoots(fs, selected[i..], writer.entries, maxEntries)
      {
        assert selected[i..][0] == selected[i] && selected[i..][1..] == selected[i + 1..];
        var ok := writer.CapturePath(selected[i]);
        if !ok { return ReadbackFailed; }
        i := i + 1;
      }
      return if writer.entries == Expected(rec.entries, selected) then Verified(count) else ReadbackDiffers;
    }
  }

  // ---------------------------------------------------------------- grouping the entries

  lemma PrefixesComparable(p: Path, q: Path, r: Path)
    requires p <= r && q <= r
    ensures p <= q || q <= p
  {
    if |p| <= |q| { assert q[..|p|] == r[..|p|] == p; } else { assert p[..|q|] == r[..|q|] == q; }
  }

  lemma PrefixTransitive(p: Path, q: Path, r: Path)
    ensures p <= q && q <= r ==> p <= r
  {
    if p <= q && q <= r { assert r[..|p|] == q[..|p|]; }
  }

  /** What lies below one of two disjoint targets is neither below nor above the other. */
  lemma Disjointness(u: Path, t: Path, q: Path)
    requires Apart(u, t) && u <= q
    ensures !(t <= q) && !(q <= t)
  {
    PrefixTransitive(u, q, t);
    if t <= q { PrefixesComparable(u, t, q); }
  }

  lemma ApartTails(targets: seq<Path>)
    requires ApartAll(targets) && targets != []
    ensures ApartAll(targets[1..]) && forall u | u in targets[1..] :: Apart(targets[0], u)
  {
  }

  lemma {:induction false} TargetUnique(targets: seq<Path>, t: Path, p: Path)
    requires ApartAll(targets) && t in targets && t <= p
    ensures TargetOf(targets, p) == Some(t)
  {
    if targets[0] <= p {
      PrefixesComparable(targets[0], t, p);
    } else {
      ApartTails(targets);
      TargetUnique(targets[1..], t, p);
    }
  }

  lemma ApartMembers(targets: seq<Path>, t: Path, u: Path)
    requires ApartAll(targets) && t in targets && u in targets && t != u
    ensures Apart(t, u)
  {
    var i :| 0 <= i < |targets| && targets[i] == t;
    var j :| 0 <= j < |targets| && targets[j] == u;
    if i < j { assert Apart(targets[i], targets[j]); } else { assert Apart(targets[j], targets[i]); }
  }

  /** Every entry of a walk lies below its root, and only the first one is the root. */
  lemma PreorderRoot(fs: Fs, t: Path)
    requires WellFormed(fs)
    ensures Preorder(fs, t) != [] && Preorder(fs, t)[0].path == t
    ensures forall e | e in Preorder(fs, t) :: t <= e.path
    ensures forall e | e in Preorder(fs, t)[1..] :: t <= e.path && t != e.path
  {
    if t in fs {
      PreorderDescribes(fs, t);
      var es := Preorder(fs, t);
      assert t in Below(fs, t);
      forall e | e in es ensures t <= e.path { PathsMember(es, e); }
      forall e | e in es[1..] ensures t != e.path {
        var k :| 0 <= k < |es[1..]| && es[1..][k] == e;
        assert es[0].path != es[k + 1].path;
      }
      assert forall e | e in es[1..] :: e in es;
    }
  }

  lemma {:induction false} KeepAll(es: seq<Entry>, keep: Path -> bool, yes: bool)
    requires forall e | e in es :: keep(e.path) == yes
    ensures Keep(es, keep) == if yes then es else []
  {
    if es != [] {
      assert es[0] in es && forall e | e in es[1..] :: e in es;
      KeepAll(es[1..], keep, yes);
      assert es == [es[0]] + es[1..];
    }
  }

  lemma {:induction false} KeepAppend(a: seq<Entry>, b: seq<Entry>, keep: Path -> bool)
    ensures Keep(a + b, keep) == Keep(a, keep) + Keep(b, keep)
  {
    if a == [] {
      assert a + b == b;
    } else {
      assert (a + b)[1..] == a[1..] + b;
      KeepAppend(a[1..], b, keep);
    }
  }

  /** Filtering whole walks keeps the walks of the chosen roots. */
  lemma {:induction false} KeepConcat(fs: Fs, ts: seq<Path>, selected: seq<Path>, keep: Path -> bool)
    requires WellFormed(fs)
    requires forall t, e | t in ts && e in Preorder(fs, t) :: keep(e.path) == (t in selected)
    ensures Keep(Concat(fs, ts), keep) == Concat(fs, Chosen(ts, selected))
  {
    if ts != [] {
      var t := ts[0];
      assert t in ts && forall u | u in ts[1..] :: u in ts;
      KeepAll(Preorder(fs, t), keep, t in selected);
      KeepAppend(Preorder(fs, t), Concat(fs, ts[1..]), keep);
      KeepConcat(fs, ts[1..], selected, keep);
    }
  }

  lemma {:induction false} ChosenOne(ts: seq<Path>, t: Path)
    requires ApartAll(ts)
    ensures Chosen(ts, [t]) == if t in ts then [t] else []
  {
    if ts != [] {
      ApartTails(ts);
      ChosenOne(ts[1..], t);
      if t == ts[0] { assert t !in ts[1..]; }
    }
  }

  /** The group of a target is its own walk. */
  lemma GroupIsWalk(origin: Fs, targets: seq<Path>, t: Path)
    requires WellFormed(origin) && ApartAll(targets) && t in targets
    ensures GroupOf(targets, Concat(origin, targets), t) == Preorder(origin, t)
  {
    var keep := p => TargetOf(targets, p) == Some(t);
    forall u, e | u in targets && e in Preorder(origin, u) ensures keep(e.path) == (u in [t]) {
      PreorderRoot(origin, u);
      TargetUnique(targets, u, e.path);
    }
    KeepConcat(origin, targets, [t], keep);
    ChosenOne(targets, t);
    assert Concat(origin, [t]) == Preorder(origin, t) + Concat(origin, []);
  }

  lemma ExpectedIsWalks(origin: Fs, targets: seq<Path>, selected: seq<Path>)
    requires WellFormed(origin) && ApartAll(targets) && forall t | t in selected :: t in targets
    ensures Expected(Concat(origin, targets), selected) == Concat(origin, Chosen(targets, selected))
  {
    var keep := p => exists t :: t in selected && t <= p;
    forall u, e | u in targets && e in Preorder(origin, u) ensures keep(e.path) == (u in selected) {
      PreorderRoot(origin, u);
      assert u <= e.path;
      if keep(e.path) {
        var t :| t in selected && t <= e.path;
        TargetUnique(targets, u, e.path);
        TargetUnique(targets, t, e.path);
      }
    }
    KeepConcat(origin, targets, selected, keep);
  }

  lemma {:induction false} EntryOrigin(origin: Fs, ts: seq<Path>, e: Entry)
    requires WellFormed(origin) && e in Concat(origin, ts)
    ensures exists t :: t in ts && e in Preorder(origin, t)
  {
    if e in Preorder(origin, ts[0]) {
      assert ts[0] in ts;
    } else {
      EntryOrigin(origin, ts[1..], e);
      var t :| t in ts[1..] && e in Preorder(origin, t);
      assert t in ts;
    }
  }

  lemma AllDeclared(origin: Fs, targets: seq<Path>)
    requires WellFormed(origin) && ApartAll(targets)
    ensures forall e | e in Concat(origin, targets) :: TargetOf(targets, e.path).Some?
  {
    forall e | e in Concat(origin, targets) ensures TargetOf(targets, e.path).Some? {
      EntryOrigin(origin, targets, e);
      var t :| t in targets && e in Preorder(origin, t);
      PreorderRoot(origin, t);
      TargetUnique(targets, t, e.path);
    }
  }

  // ---------------------------------------------------------------- the roots of concatenated walks

  function Roots(targets: seq<Path>, es: seq<Entry>): seq<Path> {
    if es == [] then []
    else if es[0].path in targets then [es[0].path] + Roots(targets, es[1..])
    else Roots(targets, es[1..])
  }

  lemma {:induction false} RootsSkip(targets: seq<Path>, a: seq<Entry>, b: seq<Entry>)
    requires forall e | e in a :: e.path !in targets
    ensures Roots(targets, a + b) == Roots(targets, b)
  {
    if a == [] {
      assert a + b == b;
    } else {
      assert a[0] in a && (a + b)[1..] == a[1..] + b;
      RootsSkip(targets, a[1..], b);
    }
  }

  /** The list of walks determines the list of roots. */
  lemma {:induction false} RootsOfConcat(fs: Fs, targets: seq<Path>, ts: seq<Path>)
    requires WellFormed(fs) && ApartAll(targets) && forall t | t in ts :: t in targets
    ensures Roots(targets, Concat(fs, ts)) == ts
  {
    if ts != [] {
      var t, rest := ts[0], Concat(fs, ts[1..]);
      assert t in ts && forall u | u in ts[1..] :: u in ts;
      PreorderRoot(fs, t);
      var walk := Preorder(fs, t);
      forall e | e in walk[1..] ensures e.path !in targets {
        if e.path in targets { ApartMembers(targets, t, e.path); }
      }
      RootsSkip(targets, walk[1..], rest);
      ConsAppend(walk, rest);
      RootsOfConcat(fs, targets, ts[1..]);
    }
  }

  // ---------------------------------------------------------------- restoring target after target

  /** Every target of `done` shows `origin`'s subtree with its recorded attributes; everything else
      is as in `before`, but for directories made on the way down to a restored target. */
  ghost predicate AllRestored(before: Fs, origin: Fs, done: seq<Path>, fs: Fs) {
    && WellFormed(fs)
    && (forall t | t in done :: Holds(origin, t, fs))
    && (forall q | q in before && !Under(done, q) :: q in fs && fs[q] == before[q])
    && (forall q | q in fs && q !in before && !Under(done, q) :: Above(done, q) && fs[q] == FRESH_DIRECTORY)
  }

  ghost predicate Holds(origin: Fs, t: Path, fs: Fs) {
    Below(fs, t) == Below(origin, t) && forall q | q in Below(fs, t) :: fs[q] == Settled(origin[q])
  }

  predicate Under(done: seq<Path>, q: Path) {
    exists t :: t in done && t <= q
  }

  predicate Above(done: seq<Path>, q: Path) {
    exists t :: t in done && q < t
  }

  /** Restoring a further target keeps the earlier ones and extends the frame. */
  lemma OneMore(before: Fs, origin: Fs, done: seq<Path>, fs: Fs, t: Path, after: Fs)
    requires AllRestored(before, origin, done, fs) && Restored(fs, origin, t, after) && WellFormed(after)
    requires forall u | u in done :: Apart(u, t)
    ensures AllRestored(before, origin, done + [t], after)
  {
    forall u | u in done + [t] ensures Holds(origin, u, after) {
      if u in done {
        HoldsStill(origin, u, fs, t, after);
      }
    }
    FrameGrows(before, origin, done, fs, t, after);
  }

  lemma HoldsStill(origin: Fs, u: Path, fs: Fs, t: Path, after: Fs)
    requires Holds(origin, u, fs) && Restored(fs, origin, t, after) && Apart(u, t)
    ensures Holds(origin, u, after)
  {
    forall q | u <= q ensures (q in after <==> q in fs) && (q in fs ==> after[q] == fs[q]) {
      Disjointness(u, t, q);
    }
    assert Below(after, u) == Below(fs, u);
  }

  lemma FrameGrows(before: Fs, origin: Fs, done: seq<Path>, fs: Fs, t: Path, after: Fs)
    requires AllRestored(before, origin, done, fs) && Restored(fs, origin, t, after)
    ensures forall q | q in before && !Under(done + [t], q) :: q in after && after[q] == before[q]
    ensures forall q | q in after && q !in before && !Under(done + [t], q) ::
              Above(done + [t], q) && after[q] == FRESH_DIRECTORY
  {
    var all := done + [t];
    assert forall u | u in done :: u in all;
    assert t in all;
    forall q | !Under(all, q) ensures !Under(done, q) && !(t <= q) {
      UnderMore(done, t, q);
    }
    forall q | q in after && q !in before && !Under(all, q)
      ensures Above(all, q) && after[q] == FRESH_DIRECTORY
    {
      if q in fs {
        var u :| u in done && q < u;
        assert u in all;
      }
    }
  }

  lemma UnderMore(done: seq<Path>, t: Path, q: Path)
    ensures Under(done + [t], q) <==> Under(done, q) || t <= q
  {
    var all := done + [t];
    if Under(done, q) {
      var u :| u in done && u <= q;
      assert u in all;
    }
    assert t in all;
  }

  lemma WayStaysOpen(before: Fs, origin: Fs, done: seq<Path>, fs: Fs, t: Path)
    requires AllRestored(before, origin, done, fs) && OpenWay(before, t)
    requires forall u | u in done :: Apart(u, t)
    ensures OpenWay(fs, t)
  {
    forall q | q in fs && q < t ensures fs[q].Directory? {
      NotUnder(done, q, t);
    }
  }

  lemma NotUnder(done: seq<Path>, q: Path, t: Path)
    requires q < t && forall u | u in done :: Apart(u, t)
    ensures !Under(done, q)
  {
    forall u | u in done ensures !(u <= q) {
      PrefixTransitive(u, q, t);
    }
  }

  /** A snapshot that capture made. */
  ghost predicate CapturedBy(rec: Recovery, origin: Fs, targets: seq<Path>) {
    && rec.entries == Concat(origin, targets)
    && Honest(rec.blobs) && Covers(rec.blobs, rec.entries)
    && (forall t | t in targets :: PlainPath(t))
    && forall t, q | t in targets && q in Below(origin, t) :: Capturable(q, origin[q])
  }

  lemma {:induction false} WalkRootsMeetCapturable(fs: Fs, roots: seq<Path>, es: seq<Entry>, max: nat)
    requires WellFormed(fs) && WalkRoots(fs, roots, es, max).Some?
    ensures forall t | t in roots :: PlainPath(t)
    ensures forall t, q | t in roots && q in Below(fs, t) :: Capturable(q, fs[q])
    decreases roots
  {
    if roots != [] {
      WalkMeetsCapturable(fs, roots[0], |es|, max);
      WalkRootsMeetCapturable(fs, roots[1..], es + Preorder(fs, roots[0]), max);
      assert forall t | t in roots :: t == roots[0] || t in roots[1..];
    }
  }

  lemma CaptureGives(origin: Fs, targets: seq<Path>, max: nat, maxBytes: nat)
    requires WellFormed(origin) && CaptureOf(origin, targets, max, maxBytes).Some?
    ensures CapturedBy(CaptureOf(origin, targets, max, maxBytes).value, origin, targets)
    ensures |Concat(origin, targets)| <= max
  {
    WalkRootsConcat(origin, targets, [], max);
    assert [] + Concat(origin, targets) == Concat(origin, targets);
    WalkRootsMeetCapturable(origin, targets, [], max);
    NoteAllCovers(map[], Concat(origin, targets));
  }

  lemma {:induction false} WalkInConcat(origin: Fs, ts: seq<Path>, t: Path)
    requires t in ts
    ensures forall e | e in Preorder(origin, t) :: e in Concat(origin, ts)
  {
    if t != ts[0] { WalkInConcat(origin, ts[1..], t); }
  }

  lemma OneComesBack(
    before: Fs, origin: Fs, targets: seq<Path>, rec: Recovery, done: seq<Path>, fs: Fs, t: Path)
    requires WellFormed(origin) && ApartAll(targets) && CapturedBy(rec, origin, targets)
    requires AllRestored(before, origin, done, fs) && OpenWay(before, t)
    requires t in targets && forall u | u in done :: Apart(u, t)
    ensures GroupOf(targets, rec.entries, t) == Preorder(origin, t)
    ensures var r := RestoreTarget(fs, t, GroupOf(targets, rec.entries, t), rec.blobs);
            r.ok && AllRestored(before, origin, done + [t], r.fs)
  {
    GroupIsWalk(origin, targets, t);
    WalkInConcat(origin, targets, t);
    WayStaysOpen(before, origin, done, fs, t);
    TargetComesBack(fs, origin, t, Preorder(origin, t), rec.blobs);
    OneMore(before, origin, done, fs, t, RestoreTarget(fs, t, Preorder(origin, t), rec.blobs).fs);
  }

  /** The targets still to restore are fixed ones and apart from those already restored. */
  ghost predicate Ahead(targets: seq<Path>, rest: seq<Path>, done: seq<Path>) {
    && ApartAll(rest)
    && (forall t | t in rest :: t in targets)
    && (forall u, t | u in done && t in rest :: Apart(u, t))
  }

  lemma StillAhead(targets: seq<Path>, rest: seq<Path>, done: seq<Path>)
    requires Ahead(targets, rest, done) && rest != []
    ensures Ahead(targets, rest[1..], done) && Ahead(targets, rest[1..], done + [rest[0]])
    ensures rest[0] in targets && forall u | u in done :: Apart(u, rest[0])
  {
    ApartTails(rest);
    assert rest[0] in rest && forall u | u in rest[1..] :: u in rest;
  }

  lemma ConcatCons(fs: Fs, t: Path, ts: seq<Path>)
    ensures Concat(fs, [t] + ts) == Preorder(fs, t) + Concat(fs, ts)
  {
    assert ([t] + ts)[1..] == ts;
  }

  lemma {:induction false} ChosenComeBack(
    before: Fs, origin: Fs, targets: seq<Path>, rest: seq<Path>, rec: Recovery, selected: seq<Path>,
    done: seq<Path>, fs: Fs, count: nat)
    requires WellFormed(origin) && ApartAll(targets) && CapturedBy(rec, origin, targets)
    requires AllRestored(before, origin, done, fs) && forall t | t in selected :: OpenWay(before, t)
    requires Ahead(targets, rest, done)
    ensures var r := RestoreChosen(fs, targets, rest, rec, selected, count);
            && r.ok && AllRestored(before, origin, done + Chosen(rest, selected), r.fs)
            && r.count == count + |Concat(origin, Chosen(rest, selected))|
    decreases rest
  {
    if rest == [] {
      assert done + [] == done;
    } else {
      var t := rest[0];
      StillAhead(targets, rest, done);
      ChoosesNext(fs, targets, rest, rec, selected, count);
      hide Ahead, CapturedBy, AllRestored, OpenWay, WellFormed, ApartAll;
      hide Chosen, RestoreChosen, RestoreTarget, GroupOf, Preorder, Concat;
      if t in selected {
        OneComesBack(before, origin, targets, rec, done, fs, t);
        var group := GroupOf(targets, rec.entries, t);
        var next := RestoreTarget(fs, t, group, rec.blobs).fs;
        var later := Chosen(rest[1..], selected);
        ChosenComeBack(before, origin, targets, rest[1..], rec, selected, done + [t], next, count + |group|);
        Associate(done, [t], later);
        ConcatCons(origin, t, later);
      } else {
        ChosenComeBack(before, origin, targets, rest[1..], rec, selected, done, fs, count);
      }
    }
  }

  /** One turn of the loop over the targets. */
  lemma ChoosesNext(fs: Fs, targets: seq<Path>, rest: seq<Path>, rec: Recovery, selected: seq<Path>, count: nat)
    requires rest != []
    ensures var t, group := rest[0], GroupOf(targets, rec.entries, rest[0]);
            var r := RestoreTarget(fs, t, group, rec.blobs);
            && (t !in selected ==>
                  && Chosen(rest, selected) == Chosen(rest[1..], selected)
                  && RestoreChosen(fs, targets, rest, rec, selected, count)
                     == RestoreChosen(fs, targets, rest[1..], rec, selected, count))
            && (t in selected && r.ok ==>
                  && Chosen(rest, selected) == [t] + Chosen(rest[1..], selected)
                  && RestoreChosen(fs, targets, rest, rec, selected, count)
                     == RestoreChosen(r.fs, targets, rest[1..], rec, selected, count + |group|))
  {
    hide RestoreTarget, GroupOf;
  }

  // ---------------------------------------------------------------- reading back

  lemma RestoredLooksSame(origin: Fs, t: Path, fs: Fs)
    requires WellFormed(origin) && WellFormed(fs) && Holds(origin, t, fs)
    requires forall q | q in Below(origin, t) :: Capturable(q, origin[q])
    ensures Preorder(fs, t) == Preorder(origin, t)
    ensures forall q | q in Below(fs, t) :: Capturable(q, fs[q])
  {
    forall q | t <= q
      ensures (q in fs <==> q in origin) && (q in fs && q in origin ==> EntryOf(q, fs[q]) == EntryOf(q, origin[q]))
      ensures q in fs ==> Capturable(q, fs[q]) && !fs[q].Special? && !origin[q].Special?
    {
      assert q in fs <==> q in Below(fs, t);
      assert q in origin <==> q in Below(origin, t);
    }
    SamePreorder(fs, origin, t);
  }

  lemma {:induction false} ReadbackWalk(origin: Fs, fs: Fs, ts: seq<Path>, es: seq<Entry>, max: nat)
    requires WellFormed(origin) && WellFormed(fs) && forall t | t in ts :: Holds(origin, t, fs)
    requires forall t | t in ts :: PlainPath(t)
    requires forall t, q | t in ts && q in Below(origin, t) :: Capturable(q, origin[q])
    ensures var r := WalkRoots(fs, ts, es, max);
            && (r.Some? ==> r.value == es + Concat(origin, ts))
            && (|es| + |Concat(origin, ts)| <= max ==> r.Some?)
    decreases ts
  {
    if ts == [] {
      assert es + [] == es;
    } else {
      var t := ts[0];
      assert t in ts && forall u | u in ts[1..] :: u in ts;
      RestoredLooksSame(origin, t, fs);
      var walk := Preorder(fs, t);
      if |es| + |walk| <= max { CapturableWalks(fs, t, |es|, max); }
      ReadbackWalk(origin, fs, ts[1..], es + walk, max);
      assert es + walk + Concat(origin, ts[1..]) == es + (walk + Concat(origin, ts[1..]));
    }
  }

  lemma {:induction false} ChosenShorter(origin: Fs, ts: seq<Path>, selected: seq<Path>)
    ensures |Concat(origin, Chosen(ts, selected))| <= |Concat(origin, ts)|
    ensures forall t :: t in Chosen(ts, selected) <==> t in ts && t in selected
  {
    if ts != [] { ChosenShorter(origin, ts[1..], selected); }
  }

  /** The round trip. Whatever happened to the selected targets since the capture, as long as real
      directories lead to them, the restore gives every one of them back, touches nothing else but
      missing directories above them, and its readback accepts exactly when the selection was
      written in the fixed target order without repeats. */
  lemma SnapshotRoundTrip(
    before: Fs, origin: Fs, targets: seq<Path>, pointers: seq<Path>, selected: seq<Path>, max: nat,
    maxBytes: nat)
    requires WellFormed(before) && WellFormed(origin) && ApartAll(targets)
    requires CaptureOf(origin, targets, max, maxBytes).Some?
    requires forall t | t in selected :: t in targets && t !in pointers && OpenWay(before, t)
    ensures var r := RestoreSelected(before, targets, pointers, CaptureOf(origin, targets, max, maxBytes).value, selected, max);
            && AllRestored(before, origin, Chosen(targets, selected), r.fs)
            && (r.verdict.Verified? <==> selected == Chosen(targets, selected))
            && (r.verdict.Verified? ==> r.verdict.count == |Concat(origin, selected)|)
  {
    hide WellFormed, ApartAll, OpenWay, CaptureOf, RestoreChosen, ReadBack, Chosen, Concat, Holds, TargetOf;
    var rec := CaptureOf(origin, targets, max, maxBytes).value;
    CaptureGives(origin, targets, max, maxBytes);
    AllDeclared(origin, targets);
    ChosenComeBack(before, origin, targets, targets, rec, selected, [], before, 0);
    var chosen := Chosen(targets, selected);
    assert [] + chosen == chosen;
    var r := RestoreChosen(before, targets, targets, rec, selected, 0);
    ChosenShorter(origin, targets, selected);
    ReadbackVerdict(origin, targets, rec, selected, max, r.fs, r.count);
  }

  /** On the restored host the readback accepts exactly a selection in the fixed order. */
  lemma ReadbackVerdict(
    origin: Fs, targets: seq<Path>, rec: Recovery, selected: seq<Path>, max: nat, fs: Fs, count: nat)
    requires WellFormed(origin) && ApartAll(targets) && CapturedBy(rec, origin, targets)
    requires |rec.entries| <= max && forall t | t in selected :: t in targets
    requires WellFormed(fs) && forall t | t in selected :: Holds(origin, t, fs)
    ensures var v := ReadBack(fs, rec, selected, max, count);
            (v.Verified? <==> selected == Chosen(targets, selected)) && (v.Verified? ==> v.count == count)
  {
    var chosen := Chosen(targets, selected);
    ChosenShorter(origin, targets, selected);
    ReadbackWalk(origin, fs, selected, [], max);
    assert [] + Concat(origin, selected) == Concat(origin, selected);
    ExpectedIsWalks(origin, targets, selected);
    RootsOfConcat(origin, targets, selected);
    RootsOfConcat(origin, targets, chosen);
  }

  lemma Fork(p: Path, q: Path, k: nat)
    requires k < |p| && k < |q| && p[k] != q[k]
    ensures Apart(p, q)
  {
  }

  /** The seventeen fixed targets never overlap. */
  lemma FixedTargetsApart()
    ensures ApartAll(SNAPSHOT_TARGETS)
  {
    var s := SNAPSHOT_TARGETS;
    forall i, j | 0 <= i < j < |s| ensures Apart(s[i], s[j]) {
      var p, q := s[i], s[j];
      if p[0] != q[0] {
        Fork(p, q, 0);
      } else if p[1] != q[1] {
        Fork(p, q, 1);
      } else {
        assert |p| > 2 && |q| > 2;
        if p[2] != q[2] {
          Fork(p, q, 2);
        } else {
          Fork(p, q, 3);
        }
      }
    }
  }
}
