/** The staged rollback of one host: services stopped, snapshot targets and release pointers of each
    product put back, services started and checked. */
module HostRollback {
  import opened Base
  import opened HostTree
  import opened Capture
  import opened Restore
  import opened Snapshot
  import P = Pointers

  datatype Stage =
    | SnapshotValidation | CandidateStop | BabyRestore | GatewayRestore | CaddyRestore
    | RuntimeRecreate | KnownGoodStart | KnownGoodVerify | Complete

  /** Positions in `SNAPSHOT_TARGETS` of the targets each stage restores. */
  const BABY_RESTORE: seq<nat> := [4, 5, 7, 9, 11, 12, 13]
  const GATEWAY_RESTORE: seq<nat> := [6, 8, 10, 14]
  const CADDY_RESTORE: seq<nat> := [15, 16]

  function Picks(ts: seq<Path>, picks: seq<nat>): seq<Path>
    requires forall i | 0 <= i < |picks| :: picks[i] < |ts|
  {
    seq(|picks|, i requires 0 <= i < |picks| => ts[picks[i]])
  }

  const BABY_RESTORE_TARGETS: seq<Path> := Picks(SNAPSHOT_TARGETS, BABY_RESTORE)
  const GATEWAY_RESTORE_TARGETS: seq<Path> := Picks(SNAPSHOT_TARGETS, GATEWAY_RESTORE)
  const CADDY_RESTORE_TARGETS: seq<Path> := Picks(SNAPSHOT_TARGETS, CADDY_RESTORE)

  datatype Host = Host(fs: Fs, links: P.Links)

  /** How far a rollback came: the stage it failed in, or `Complete`. */
  datatype Ending = Ending(host: Host, stage: Stage)

  /** What the rollback finds: the loaded snapshot when it is intact and names this guard, and which
      of the fixed service commands succeed. */
  datatype Circumstances = Circumstances(snapshot: Option<Recovery>, services: Stage -> bool, maxEntries: nat, maxBytes: nat)

  function RestoreList(host: Host, rec: Recovery, list: seq<Path>, max: nat): Report {
    RestoreSelected(host.fs, SNAPSHOT_TARGETS, POINTER_TARGETS, rec, list, max)
  }

  const UNCUT: nat := 4

  /** One product: its snapshot targets, then its two pointers. */
  function RestoreProduct(host: Host, rec: Recovery, g: P.Guard, p: P.Product, list: seq<Path>, max: nat): (Host, bool) {
    var r := RestoreList(host, rec, list, max);
    if !r.verdict.Verified? then (Host(r.fs, host.links), false)
    else
      var s := P.RestorePair(P.World(host.links, UNCUT), p, g.expected(p), g.candidate(p));
      (Host(r.fs, s.world.links), s.outcome == P.Done)
  }

  /** The stages that put trees and pointers back, and the one that failed. */
  function RestoreTrees(host: Host, rec: Recovery, g: P.Guard, max: nat): (Host, Option<Stage>) {
    var (h1, ok1) := RestoreProduct(host, rec, g, P.Baby, BABY_RESTORE_TARGETS, max);
    if !ok1 then (h1, Some(BabyRestore))
    else
      var (h2, ok2) := RestoreProduct(h1, rec, g, P.Gateway, GATEWAY_RESTORE_TARGETS, max);
      if !ok2 then (h2, Some(GatewayRestore))
      else
        var r := RestoreList(h2, rec, CADDY_RESTORE_TARGETS, max);
        (Host(r.fs, h2.links), if r.verdict.Verified? then None else Some(CaddyRestore))
  }

  function RestoreSnapshot(host: Host, g: P.Guard, c: Circumstances): Ending {
    if c.snapshot.None? || !P.InFence(host.links, g) then Ending(host, SnapshotValidation)
    else if !c.services(CandidateStop) then Ending(host, CandidateStop)
    else
      var (h, failed) := RestoreTrees(host, c.snapshot.value, g, c.maxEntries);
      if failed.Some? then Ending(h, failed.value)
      else if !c.services(RuntimeRecreate) then Ending(h, RuntimeRecreate)
      else if !c.services(KnownGoodStart) then Ending(h, KnownGoodStart)
      else if !c.services(KnownGoodVerify) || !PointersAsSigned(h.links, g) then Ending(h, KnownGoodVerify)
      else Ending(h, Complete)
  }

  predicate PointersAsSigned(links: P.Links, g: P.Guard) {
    P.PairOf(links, P.Baby) == g.expected(P.Baby) && P.PairOf(links, P.Gateway) == g.expected(P.Gateway)
  }

  class FilesystemGuardHost {
    var fs: Fs
    var links: P.Links

    method RestoreProductTargets(rec: Recovery, list: seq<Path>, max: nat) returns (ok: bool)
      modifies `fs
      ensures var r := RestoreList(old(Host(fs, links)), rec, list, max); fs == r.fs && ok == r.verdict.Verified?
    {
      var manager := new SnapshotManager(fs, SNAPSHOT_TARGETS, POINTER_TARGETS, max);
      var v := manager.RestoreNonPointerTargets(rec, list);
      fs := manager.fs;
      ok := v.Verified?;
    }

    method RestoreProductPointers(g: P.Guard, p: P.Product) returns (ok: bool)
      modifies `links
      ensures var s := P.RestorePair(P.World(old(links), UNCUT), p, g.expected(p), g.candidate(p));
              links == s.world.links && ok == (s.outcome == P.Done)
    {
      var host := new P.LinkHost(links, UNCUT);
      var o := host.RestoreProductPointers(p, g.expected(p), g.candidate(p));
      links := host.links;
      ok := o == P.Done;
    }

    method RestoreSnapshotStaged(g: P.Guard, c: Circumstances) returns (stage: Stage)
      modifies this
      ensures Ending(Host(fs, links), stage) == RestoreSnapshot(old(Host(fs, links)), g, c)
    {
      stage := SnapshotValidation;
      if c.snapshot.None? || !P.InFence(links, g) { return; }
      var rec := c.snapshot.value;
      stage := CandidateStop;
      if !c.services(CandidateStop) { return; }
      stage := BabyRestore;
      var ok := RestoreProductTargets(rec, BABY_RESTORE_TARGETS, c.maxEntries);
      if !ok { return; }
      ok := RestoreProductPointers(g, P.Baby);
      if !ok { return; }
      stage := GatewayRestore;
      ok := RestoreProductTargets(rec, GATEWAY_RESTORE_TARGETS, c.maxEntries);
      if !ok { return; }
      ok := RestoreProductPointers(g, P.Gateway);
      if !ok { return; }
      stage := CaddyRestore;
      ok := RestoreProductTargets(rec, CADDY_RESTORE_TARGETS, c.maxEntries);
      if !ok { return; }
      stage := RuntimeRecreate;
      if !c.services(RuntimeRecreate) { return; }
      stage := KnownGoodStart;
      if !c.services(KnownGoodStart) { return; }
      stage := KnownGoodVerify;
      if !c.services(KnownGoodVerify) || !PointersAsSigned(links, g) { return; }
      stage := Complete;
    }
  }

  // ---------------------------------------------------------------- the fixed lists are in order

  ghost predicate Increasing(picks: seq<nat>) {
    forall i, j | 0 <= i < j < |picks| :: picks[i] < picks[j]
  }

  /** Picks at increasing positions come out of the ordered selection unchanged. */
  lemma {:induction false} ChosenPicks(ts: seq<Path>, picks: seq<nat>, k: nat, j: nat)
    requires ApartAll(ts) && Increasing(picks) && k <= |ts| && j <= |picks|
    requires forall i | 0 <= i < |picks| :: picks[i] < |ts|
    requires forall i | 0 <= i < j :: picks[i] < k
    requires forall i | j <= i < |picks| :: picks[i] >= k
    ensures Chosen(ts[k..], Picks(ts, picks)) == Picks(ts, picks)[j..]
    decreases |ts| - k
  {
    var all := Picks(ts, picks);
    if k < |ts| {
      assert ts[k..][0] == ts[k] && ts[k..][1..] == ts[k + 1..];
      if j < |picks| && picks[j] == k {
        ChosenPicks(ts, picks, k + 1, j + 1);
        assert all[j] == ts[k] && all[j..] == [all[j]] + all[j + 1..];
      } else {
        ChosenPicks(ts, picks, k + 1, j);
        forall i | 0 <= i < |picks| ensures all[i] != ts[k] { DistinctAt(ts, picks[i], k); }
      }
    } else {
      if |picks| > 0 { assert picks[|picks| - 1] < |ts|; }
      assert all[j..] == [];
    }
  }

  lemma DistinctAt(ts: seq<Path>, i: nat, k: nat)
    requires ApartAll(ts) && i < |ts| && k < |ts| && i != k
    ensures ts[i] != ts[k]
  {
    if i < k { assert Apart(ts[i], ts[k]); } else { assert Apart(ts[k], ts[i]); }
  }

  lemma FixedListInOrder(picks: seq<nat>)
    requires Increasing(picks) && forall i | 0 <= i < |picks| :: 4 <= picks[i] < 17
    ensures var list := Picks(SNAPSHOT_TARGETS, picks);
            && list == Chosen(SNAPSHOT_TARGETS, list)
            && forall t | t in list :: t in SNAPSHOT_TARGETS && t !in POINTER_TARGETS
  {
    FixedTargetsApart();
    ChosenPicks(SNAPSHOT_TARGETS, picks, 0, 0);
    var s := SNAPSHOT_TARGETS;
    forall i, k | 0 <= i < |picks| && 0 <= k < 4 ensures s[picks[i]] != POINTER_TARGETS[k] {
      DistinctAt(s, picks[i], k);
    }
  }

  // ---------------------------------------------------------------- composing the stages

  /** A step that restores one of the fixed lists verifies and brings back exactly that list. */
  lemma ListComesBack(host: Host, origin: Fs, picks: seq<nat>, max: nat, maxBytes: nat)
    requires WellFormed(host.fs) && WellFormed(origin) && CaptureOf(origin, SNAPSHOT_TARGETS, max, maxBytes).Some?
    requires Increasing(picks) && forall i | 0 <= i < |picks| :: 4 <= picks[i] < 17
    requires forall t | t in Picks(SNAPSHOT_TARGETS, picks) :: OpenWay(host.fs, t)
    ensures var list := Picks(SNAPSHOT_TARGETS, picks);
            var r := RestoreList(host, CaptureOf(origin, SNAPSHOT_TARGETS, max, maxBytes).value, list, max);
            r.verdict.Verified? && AllRestored(host.fs, origin, list, r.fs)
  {
    FixedTargetsApart();
    FixedListInOrder(picks);
    SnapshotRoundTrip(host.fs, origin, SNAPSHOT_TARGETS, POINTER_TARGETS, Picks(SNAPSHOT_TARGETS, picks), max, maxBytes);
  }

  /** Restoring some targets and then others restores both. */
  lemma Compose(before: Fs, origin: Fs, a: seq<Path>, mid: Fs, b: seq<Path>, after: Fs)
    requires AllRestored(before, origin, a, mid) && AllRestored(mid, origin, b, after)
    requires forall u, t | u in a && t in b :: Apart(u, t)
    ensures AllRestored(before, origin, a + b, after)
  {
    forall t | t in a + b ensures Holds(origin, t, after) {
      if t in a { HoldsThrough(mid, origin, t, b, after); }
    }
    forall q ensures Under(a + b, q) <==> Under(a, q) || Under(b, q) { UnderJoin(a, b, q); }
    forall q ensures Above(a, q) || Above(b, q) ==> Above(a + b, q) { AboveJoin(a, b, q); }
  }

  lemma HoldsThrough(mid: Fs, origin: Fs, t: Path, b: seq<Path>, after: Fs)
    requires Holds(origin, t, mid) && AllRestored(mid, origin, b, after) && forall u | u in b :: Apart(t, u)
    ensures Holds(origin, t, after)
  {
    forall q | t <= q ensures (q in after <==> q in mid) && (q in mid ==> after[q] == mid[q]) {
      forall u | u in b ensures !(u <= q) && !(q <= u) { Disjointness(t, u, q); }
    }
    assert Below(after, t) == Below(mid, t);
  }

  lemma UnderJoin(a: seq<Path>, b: seq<Path>, q: Path)
    ensures Under(a + b, q) <==> Under(a, q) || Under(b, q)
  {
    if Under(a, q) { var t :| t in a && t <= q; assert t in a + b; }
    if Under(b, q) { var t :| t in b && t <= q; assert t in a + b; }
  }

  lemma AboveJoin(a: seq<Path>, b: seq<Path>, q: Path)
    ensures Above(a, q) || Above(b, q) ==> Above(a + b, q)
  {
    if Above(a, q) { var t :| t in a && q < t; assert t in a + b; }
    if Above(b, q) { var t :| t in b && q < t; assert t in a + b; }
  }

  /** Restoring fixed targets never puts anything but directories on the way to a fixed target. */
  lemma WaysStayOpen(before: Fs, origin: Fs, done: seq<Path>, fs: Fs, t: Path)
    requires AllRestored(before, origin, done, fs) && OpenWay(before, t)
    requires forall u | u in done :: u == t || Apart(u, t)
    ensures OpenWay(fs, t)
  {
    forall q | q in fs && q < t ensures fs[q].Directory? {
      forall u | u in done ensures !(u <= q) { PrefixTransitive(u, q, t); }
    }
  }

  lemma WaysToPicks(before: Fs, origin: Fs, done: seq<Path>, fs: Fs)
    requires AllRestored(before, origin, done, fs) && forall u | u in done :: u in SNAPSHOT_TARGETS
    requires forall t | t in SNAPSHOT_TARGETS :: OpenWay(before, t)
    ensures forall t | t in SNAPSHOT_TARGETS :: OpenWay(fs, t)
  {
    FixedTargetsApart();
    forall t | t in SNAPSHOT_TARGETS ensures OpenWay(fs, t) {
      forall u | u in done && u != t ensures Apart(u, t) { ApartMembers(SNAPSHOT_TARGETS, u, t); }
      WaysStayOpen(before, origin, done, fs, t);
    }
  }

  /** All targets the rollback restores, in stage order. */
  const ALL_RESTORED: seq<Path> :=
    BABY_RESTORE_TARGETS + GATEWAY_RESTORE_TARGETS + CADDY_RESTORE_TARGETS

  lemma ListsApart(a: seq<nat>, b: seq<nat>)
    requires forall i | 0 <= i < |a| :: a[i] < 17
    requires forall i | 0 <= i < |b| :: b[i] < 17
    requires forall i, j | 0 <= i < |a| && 0 <= j < |b| :: a[i] != b[j]
    ensures forall u, t | u in Picks(SNAPSHOT_TARGETS, a) && t in Picks(SNAPSHOT_TARGETS, b) :: Apart(u, t)
  {
    FixedTargetsApart();
    forall u, t | u in Picks(SNAPSHOT_TARGETS, a) && t in Picks(SNAPSHOT_TARGETS, b) ensures Apart(u, t) {
      var i :| 0 <= i < |a| && SNAPSHOT_TARGETS[a[i]] == u;
      var j :| 0 <= j < |b| && SNAPSHOT_TARGETS[b[j]] == t;
      DistinctAt(SNAPSHOT_TARGETS, a[i], b[j]);
      ApartMembers(SNAPSHOT_TARGETS, u, t);
    }
  }

  /** What every rollback starts from: a snapshot taken of `origin`, a host with real directories on
      the way to every target, and pointers inside the rollback fence. */
  ghost predicate Recoverable(host: Host, origin: Fs, g: P.Guard, c: Circumstances) {
    && WellFormed(host.fs) && WellFormed(origin)
    && CaptureOf(origin, SNAPSHOT_TARGETS, c.maxEntries, c.maxBytes).Some?
    && c.snapshot == Some(CaptureOf(origin, SNAPSHOT_TARGETS, c.maxEntries, c.maxBytes).value)
    && (forall t | t in SNAPSHOT_TARGETS :: OpenWay(host.fs, t))
    && P.ValidGuard(g) && P.InFence(host.links, g)
  }

  lemma ProductComesBack(
    host: Host, origin: Fs, g: P.Guard, c: Circumstances, p: P.Product, picks: seq<nat>)
    requires Recoverable(host, origin, g, c)
    requires Increasing(picks) && forall i | 0 <= i < |picks| :: 4 <= picks[i] < 17
    ensures var (h, ok) := RestoreProduct(host, c.snapshot.value, g, p, Picks(SNAPSHOT_TARGETS, picks), c.maxEntries);
            && ok && AllRestored(host.fs, origin, Picks(SNAPSHOT_TARGETS, picks), h.fs)
            && Recoverable(h, origin, g, c)
            && P.PairOf(h.links, p) == g.expected(p)
            && forall q: P.Product | q != p :: P.PairOf(h.links, q) == P.PairOf(host.links, q)
  {
    var list := Picks(SNAPSHOT_TARGETS, picks);
    ListComesBack(host, origin, picks, c.maxEntries, c.maxBytes);
    var r := RestoreList(host, c.snapshot.value, list, c.maxEntries);
    WaysToPicks(host.fs, origin, list, r.fs);
    var w := P.World(host.links, UNCUT);
    assert P.Truthy(g.expected(p).current) && P.PairInFence(P.PairOf(host.links, p), g.expected(p), g.candidate(p));
    P.RestorePairIsExact(w, p, g.expected(p), g.candidate(p));
    var links' := P.RestorePair(w, p, g.expected(p), g.candidate(p)).world.links;
    forall q: P.Product | q != p ensures P.PairOf(links', q) == P.PairOf(host.links, q) {
      assert P.Read(links', P.LinkPath(q, P.Current)) == P.Read(host.links, P.LinkPath(q, P.Current));
      assert P.Read(links', P.LinkPath(q, P.Previous)) == P.Read(host.links, P.LinkPath(q, P.Previous));
    }
  }

  /** The first two stages that change the host. */
  lemma BothProductsComeBack(host: Host, origin: Fs, g: P.Guard, c: Circumstances)
    requires Recoverable(host, origin, g, c)
    ensures var rec := c.snapshot.value;
            var (h1, ok1) := RestoreProduct(host, rec, g, P.Baby, BABY_RESTORE_TARGETS, c.maxEntries);
            var (h2, ok2) := RestoreProduct(h1, rec, g, P.Gateway, GATEWAY_RESTORE_TARGETS, c.maxEntries);
            && ok1 && ok2 && PointersAsSigned(h2.links, g) && Recoverable(h2, origin, g, c)
            && AllRestored(host.fs, origin, BABY_RESTORE_TARGETS + GATEWAY_RESTORE_TARGETS, h2.fs)
  {
    var rec := c.snapshot.value;
    ProductComesBack(host, origin, g, c, P.Baby, BABY_RESTORE);
    var h1 := RestoreProduct(host, rec, g, P.Baby, BABY_RESTORE_TARGETS, c.maxEntries).0;
    ProductComesBack(h1, origin, g, c, P.Gateway, GATEWAY_RESTORE);
    var h2 := RestoreProduct(h1, rec, g, P.Gateway, GATEWAY_RESTORE_TARGETS, c.maxEntries).0;
    ListsApart(BABY_RESTORE, GATEWAY_RESTORE);
    Compose(host.fs, origin, BABY_RESTORE_TARGETS, h1.fs, GATEWAY_RESTORE_TARGETS, h2.fs);
  }

  /** The last stage that changes the host. */
  lemma CaddyComesBack(before: Fs, host: Host, origin: Fs, g: P.Guard, c: Circumstances)
    requires Recoverable(host, origin, g, c)
    requires AllRestored(before, origin, BABY_RESTORE_TARGETS + GATEWAY_RESTORE_TARGETS, host.fs)
    ensures var r := RestoreList(host, c.snapshot.value, CADDY_RESTORE_TARGETS, c.maxEntries);
            && r.verdict.Verified? && Recoverable(Host(r.fs, host.links), origin, g, c)
            && AllRestored(before, origin, ALL_RESTORED, r.fs)
  {
    ListComesBack(host, origin, CADDY_RESTORE, c.maxEntries, c.maxBytes);
    var r := RestoreList(host, c.snapshot.value, CADDY_RESTORE_TARGETS, c.maxEntries);
    WaysToPicks(host.fs, origin, CADDY_RESTORE_TARGETS, r.fs);
    ListsApart(BABY_RESTORE, CADDY_RESTORE);
    ListsApart(GATEWAY_RESTORE, CADDY_RESTORE);
    Compose(before, origin, BABY_RESTORE_TARGETS + GATEWAY_RESTORE_TARGETS, host.fs, CADDY_RESTORE_TARGETS, r.fs);
  }

  /** On a recoverable host the stages that put trees and pointers back all succeed. */
  lemma TreesComeBack(host: Host, origin: Fs, g: P.Guard, c: Circumstances)
    requires Recoverable(host, origin, g, c)
    ensures var (h, failed) := RestoreTrees(host, c.snapshot.value, g, c.maxEntries);
            && failed.None? && Recoverable(h, origin, g, c) && PointersAsSigned(h.links, g)
            && AllRestored(host.fs, origin, ALL_RESTORED, h.fs)
  {
    var rec := c.snapshot.value;
    BothProductsComeBack(host, origin, g, c);
    var h1 := RestoreProduct(host, rec, g, P.Baby, BABY_RESTORE_TARGETS, c.maxEntries).0;
    var h2 := RestoreProduct(h1, rec, g, P.Gateway, GATEWAY_RESTORE_TARGETS, c.maxEntries).0;
    CaddyComesBack(host.fs, h2, origin, g, c);
  }

  /** A rollback of a recoverable host can fail only in a service command: it stops at the first
      stage whose commands fail and leaves the host recoverable; when none fails it completes, with
      both products' pointers as signed and exactly the snapshot's trees put back. */
  lemma StagedRollback(host: Host, origin: Fs, g: P.Guard, c: Circumstances)
    requires Recoverable(host, origin, g, c)
    ensures var end := RestoreSnapshot(host, g, c);
            && end.stage == (if !c.services(CandidateStop) then CandidateStop
                             else if !c.services(RuntimeRecreate) then RuntimeRecreate
                             else if !c.services(KnownGoodStart) then KnownGoodStart
                             else if !c.services(KnownGoodVerify) then KnownGoodVerify
                             else Complete)
            && Recoverable(end.host, origin, g, c)
            && (c.services(CandidateStop) ==>
                  && PointersAsSigned(end.host.links, g)
                  && AllRestored(host.fs, origin, ALL_RESTORED, end.host.fs))
  {
    TreesComeBack(host, origin, g, c);
  }

  /** Whatever activations and restorations were cut off where, and whatever became of the snapshot
      targets, a rollback whose service commands all succeed completes. */
  lemma RollbackRecoversTheHost(
    fs: Fs, links: P.Links, calls: seq<P.Call>, origin: Fs, g: P.Guard, c: Circumstances)
    requires P.ValidGuard(g) && P.AtExpected(links, g)
    requires WellFormed(fs) && WellFormed(origin) && forall t | t in SNAPSHOT_TARGETS :: OpenWay(fs, t)
    requires CaptureOf(origin, SNAPSHOT_TARGETS, c.maxEntries, c.maxBytes).Some?
    requires c.snapshot == Some(CaptureOf(origin, SNAPSHOT_TARGETS, c.maxEntries, c.maxBytes).value)
    requires forall s :: c.services(s)
    ensures var end := RestoreSnapshot(Host(fs, P.RunCalls(links, g, calls)), g, c);
            && end.stage == Complete && PointersAsSigned(end.host.links, g)
            && AllRestored(fs, origin, ALL_RESTORED, end.host.fs)
  {
    P.EveryCrashStaysInFence(links, g, calls);
    StagedRollback(Host(fs, P.RunCalls(links, g, calls)), origin, g, c);
  }
}
