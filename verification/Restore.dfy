/** Restoring recovery-snapshot targets: each target tree is removed, rebuilt entry by entry, and
    its directories receive their metadata deepest first. */
module Restore {
  import opened Base
  import opened Order
  import opened HostTree
  import opened Capture

  /** What a directory looks like just after it was made with mode 0700. */
  const FRESH_META := Meta(448, 0, 0, [], [])
  const FRESH_DIRECTORY := Directory(FRESH_META)

  /** The host after a step, and whether the step succeeded. */
  datatype Outcome = Outcome(fs: Fs, ok: bool)

  // ---------------------------------------------------------------- single steps

  /** Makes the directory and its missing parents. */
  function MkdirAll(fs: Fs, p: Path): Option<Fs>
    decreases |p|
  {
    if p in fs then (if fs[p].Directory? then Some(fs) else None)
    else if p == [] then Some(fs[p := FRESH_DIRECTORY])
    else match MkdirAll(fs, Parent(p))
      case None => None
      case Some(g) => Some(g[p := FRESH_DIRECTORY])
  }

  function ReadPayload(blobs: Blobs, d: Digest): Option<Bytes> {
    if d !in blobs || |blobs[d]| > MAX_ENTRY_BYTES || Sha256(blobs[d]) != d then None
    else Some(blobs[d])
  }

  function ChangeMode(fs: Fs, p: Path, a: Attrs): Outcome {
    if p !in fs then Outcome(fs, false)
    else match fs[p]
      case Directory(m) => Outcome(fs[p := Directory(m.(mode := a.mode, uid := a.uid, gid := a.gid))], true)
      case File(m, bytes) => Outcome(fs[p := File(m.(mode := a.mode, uid := a.uid, gid := a.gid), bytes)], true)
      case Symlink(_, _, _) => Outcome(fs, false)
      case Special => Outcome(fs, false)
  }

  function SetExtended(n: Node, acl: Bytes, xattrs: Bytes): Node {
    match n
    case Directory(m) => Directory(m.(acl := acl, xattrs := if |xattrs| > 0 then xattrs else m.xattrs))
    case File(m, bytes) => File(m.(acl := acl, xattrs := if |xattrs| > 0 then xattrs else m.xattrs), bytes)
    case Symlink(_, _, _) => n
    case Special => n
  }

  function RestoreMetadata(fs: Fs, p: Path, a: Attrs, blobs: Blobs): Outcome {
    var acl, xattrs := ReadPayload(blobs, a.acl), ReadPayload(blobs, a.xattrs);
    if acl.None? || xattrs.None? then Outcome(fs, false)
    else
      var r := ChangeMode(fs, p, a);
      if !r.ok then r
      else Outcome(r.fs[p := SetExtended(r.fs[p], acl.value, xattrs.value)], true)
  }

  function RestoreFile(fs: Fs, e: Entry, blobs: Blobs): Outcome
    requires e.FileEntry?
  {
    match MkdirAll(fs, Parent(e.path))
    case None => Outcome(fs, false)
    case Some(g) =>
      var bytes := ReadPayload(blobs, e.content);
      if bytes.None? || (e.path in g && g[e.path].Directory?) then Outcome(g, false)
      else RestoreMetadata(g[e.path := File(FRESH_META.(mode := e.attrs.mode), bytes.value)], e.path, e.attrs, blobs)
  }

  function RestoreLink(fs: Fs, e: Entry): Outcome
    requires e.SymlinkEntry?
  {
    match MkdirAll(fs, Parent(e.path))
    case None => Outcome(fs, false)
    case Some(g) =>
      if e.path in g then Outcome(g, false)
      else Outcome(g[e.path := Symlink(e.uid, e.gid, e.target)], true)
  }

  function RestoreEntry(fs: Fs, e: Entry, blobs: Blobs): Outcome {
    if !PlainPath(e.path) then Outcome(fs, false) else RestorePlain(fs, e, blobs)
  }

  function RestorePlain(fs: Fs, e: Entry, blobs: Blobs): Outcome {
    match e
    case AbsentEntry(_) => Outcome(fs, true)
    case DirectoryEntry(p, _) =>
      (match MkdirAll(fs, p)
       case None => Outcome(fs, false)
       case Some(g) => Outcome(g, true))
    case FileEntry(_, _, _, _) => RestoreFile(fs, e, blobs)
    case SymlinkEntry(_, _, _, _) => RestoreLink(fs, e)
  }

  function RestoreEntries(fs: Fs, es: seq<Entry>, blobs: Blobs): Outcome
    decreases es
  {
    if es == [] then Outcome(fs, true)
    else
      var r := RestoreEntry(fs, es[0], blobs);
      if !r.ok then r else RestoreEntries(r.fs, es[1..], blobs)
  }

  function SettleDirectory(fs: Fs, d: Entry, blobs: Blobs): Outcome
    requires d.DirectoryEntry?
  {
    var r := ChangeMode(fs, d.path, d.attrs);
    if !r.ok then r else RestoreMetadata(r.fs, d.path, d.attrs, blobs)
  }

  function SettleDirectories(fs: Fs, ds: seq<Entry>, blobs: Blobs): Outcome
    requires forall d | d in ds :: d.DirectoryEntry?
    decreases ds
  {
    if ds == [] then Outcome(fs, true)
    else
      assert ds[0] in ds;
      var r := SettleDirectory(fs, ds[0], blobs);
      if !r.ok then r else SettleDirectories(r.fs, ds[1..], blobs)
  }

  function DirectoriesOf(es: seq<Entry>): (ds: seq<Entry>)
    ensures forall d | d in ds :: d.DirectoryEntry? && d in es
    ensures forall d | d in es && d.DirectoryEntry? :: d in ds
  {
    if es == [] then []
    else if es[0].DirectoryEntry? then [es[0]] + DirectoriesOf(es[1..])
    else DirectoriesOf(es[1..])
  }

  predicate Deeper(a: Entry, b: Entry) {
    |a.path| > |b.path|
  }

  function DeepestFirst(ds: seq<Entry>): (r: seq<Entry>)
    ensures forall d :: d in r <==> d in ds
  {
    SameMembers(Sort(Deeper, ds), ds);
    Sort(Deeper, ds)
  }

  function RestoreTarget(fs: Fs, t: Path, es: seq<Entry>, blobs: Blobs): Outcome {
    if es == [] || es[0].path != t || !PlainPath(t) then Outcome(fs, false)
    else
      var cleared := Remove(fs, t);
      if es[0].AbsentEntry? then Outcome(cleared, true)
      else
        var r := RestoreEntries(cleared, es, blobs);
        if !r.ok then r
        else SettleDirectories(r.fs, DeepestFirst(DirectoriesOf(es)), blobs)
  }

  // ---------------------------------------------------------------- one target comes back

  /** A node as its entry records it: only the low nine mode bits survive. */
  function Settled(n: Node): Node {
    match n
    case Directory(m) => Directory(m.(mode := m.mode % 512))
    case File(m, bytes) => File(m.(mode := m.mode % 512), bytes)
    case Symlink(_, _, _) => n
    case Special => n
  }

  /** A node between the two passes: directories still have their fresh metadata. */
  function Raised(n: Node): Node {
    if n.Directory? then FRESH_DIRECTORY else Settled(n)
  }

  /** `after` holds `origin`'s subtree at `t`; elsewhere it is `before`, but for directories made
      above `t` where `before` had nothing. */
  ghost predicate Restored(before: Fs, origin: Fs, t: Path, after: Fs) {
    && Below(after, t) == Below(origin, t)
    && (forall q | q in Below(after, t) :: after[q] == Settled(origin[q]))
    && Untouched(before, t, after)
    && (t !in origin ==> after == Remove(before, t))
  }

  ghost predicate Untouched(before: Fs, t: Path, after: Fs) {
    && (forall q | q in before && !(t <= q) :: q in after && after[q] == before[q])
    && (forall q | q in after && !(t <= q) && q !in before :: q < t && after[q] == FRESH_DIRECTORY)
  }

  /** Nothing but directories stands on the way down to `t`. */
  ghost predicate OpenWay(fs: Fs, t: Path) {
    forall q | q in fs && q < t :: fs[q].Directory?
  }

  lemma {:induction false} MkdirAllEffect(fs: Fs, p: Path)
    requires WellFormed(fs) && forall q | q in fs && q <= p :: fs[q].Directory?
    ensures MkdirAll(fs, p).Some?
    ensures var g := MkdirAll(fs, p).value;
            && WellFormed(g) && p in g && g[p].Directory?
            && (forall q | q in fs :: q in g && g[q] == fs[q])
            && (forall q | q in g && q !in fs :: q <= p && g[q] == FRESH_DIRECTORY)
    decreases |p|
  {
    if p !in fs && p != [] {
      MkdirAllEffect(fs, Parent(p));
      var g := MkdirAll(fs, Parent(p)).value;
      forall q | q in g[p := FRESH_DIRECTORY] && q != [] ensures Parent(q) in g && g[Parent(q)].Directory? {
        if q != p { assert Parent(q) in g; }
      }
    }
  }

  /** The state of the rebuild once the entries `done` were restored onto `base`. */
  ghost predicate Built(base: Fs, origin: Fs, t: Path, done: seq<Entry>, fs: Fs) {
    && WellFormed(fs)
    && Below(fs, t) == Paths(done) <= origin.Keys
    && (forall q | q in Paths(done) :: fs[q] == Raised(origin[q]))
    && Untouched(base, t, fs)
    && (done == [] ==> fs == base)
  }

  lemma AddNode(base: Fs, origin: Fs, t: Path, done: seq<Entry>, fs: Fs, e: Entry)
    requires Built(base, origin, t, done, fs) && t <= e.path && e.path !in fs && e.path in origin
    requires e.path != [] && Parent(e.path) in fs && fs[Parent(e.path)].Directory?
    ensures Built(base, origin, t, done + [e], fs[e.path := Raised(origin[e.path])])
  {
    var g := fs[e.path := Raised(origin[e.path])];
    PathsAppend(done, [e]);
    PathsOfOne(e);
    assert forall q {:trigger Parent(q)} | q in g && q != [] :: Parent(q) in g && g[Parent(q)].Directory?;
  }

  /** What the metadata payloads of an entry read back as. */
  lemma PayloadsRead(e: Entry, blobs: Blobs, p: Path, n: Node)
    requires Honest(blobs) && Refs(e) <= blobs.Keys && Capturable(p, n) && e == EntryOf(p, n)
    ensures (n.Directory? || n.File?) ==>
      && ReadPayload(blobs, e.attrs.acl) == Some(n.meta.acl)
      && ReadPayload(blobs, e.attrs.xattrs) == Some(n.meta.xattrs)
    ensures n.File? ==> ReadPayload(blobs, e.content) == Some(n.bytes)
  {
  }

  /** Making the way to an absent target adds only directories above it. */
  lemma WayIsMade(base: Fs, t: Path)
    requires WellFormed(base) && Below(base, t) == {} && OpenWay(base, t) && t != []
    ensures MkdirAll(base, Parent(t)).Some?
    ensures var g := MkdirAll(base, Parent(t)).value;
            && WellFormed(g) && Parent(t) in g && g[Parent(t)].Directory?
            && Below(g, t) == {} && t !in g && Untouched(base, t, g)
  {
    assert Parent(t) < t && t <= t;
    forall q | q in base && q <= Parent(t) ensures base[q].Directory? { assert q < t; }
    MkdirAllEffect(base, Parent(t));
    var g := MkdirAll(base, Parent(t)).value;
    forall q | q in g ensures !(t <= q) && (q !in base ==> q < t) {
      assert q in base ==> (t <= q ==> q in Below(base, t));
      assert q <= Parent(t) ==> q < t;
    }
  }

  /** Restoring the root entry onto the cleared host makes its parents and the root node. */
  lemma RootBuilds(base: Fs, origin: Fs, t: Path, e: Entry, blobs: Blobs)
    requires WellFormed(base) && Below(base, t) == {} && OpenWay(base, t) && t != []
    requires t in origin && Capturable(t, origin[t]) && e == EntryOf(t, origin[t])
    requires Honest(blobs) && Refs(e) <= blobs.Keys
    ensures RestoreEntry(base, e, blobs).ok
    ensures Built(base, origin, t, [e], RestoreEntry(base, e, blobs).fs)
  {
    PayloadsRead(e, blobs, t, origin[t]);
    WayIsMade(base, t);
    var g := MkdirAll(base, Parent(t)).value;
    assert t in base ==> t in Below(base, t);
    var r := RestoreEntry(base, e, blobs).fs;
    assert r == g[t := Raised(origin[t])];
    RootAdded(base, origin, t, e, g);
  }

  lemma RootAdded(base: Fs, origin: Fs, t: Path, e: Entry, g: Fs)
    requires WellFormed(g) && Parent(t) in g && g[Parent(t)].Directory? && t != []
    requires Below(g, t) == {} && t !in g && Untouched(base, t, g) && t in origin && e.path == t
    ensures Built(base, origin, t, [e], g[t := Raised(origin[t])])
  {
    var r := g[t := Raised(origin[t])];
    PathsOfOne(e);
    forall q | q in Below(r, t) ensures q == t { assert q in g ==> q in Below(g, t); }
    assert t in Below(r, t);
    assert forall q {:trigger Parent(q)} | q in r && q != [] :: Parent(q) in r && r[Parent(q)].Directory?;
  }

  lemma ChildBuilds(base: Fs, origin: Fs, t: Path, done: seq<Entry>, fs: Fs, e: Entry, blobs: Blobs)
    requires Built(base, origin, t, done, fs) && t <= e.path && e.path !in Paths(done) && e.path != []
    requires e.path in origin && Capturable(e.path, origin[e.path]) && e == EntryOf(e.path, origin[e.path])
    requires Parent(e.path) in Paths(done) && origin[Parent(e.path)].Directory?
    requires Honest(blobs) && Refs(e) <= blobs.Keys
    ensures RestoreEntry(fs, e, blobs).ok
    ensures Built(base, origin, t, done + [e], RestoreEntry(fs, e, blobs).fs)
  {
    PayloadsRead(e, blobs, e.path, origin[e.path]);
    assert Parent(e.path) in Below(fs, t) && fs[Parent(e.path)] == FRESH_DIRECTORY;
    assert e.path in fs ==> e.path in Below(fs, t);
    AddNode(base, origin, t, done, fs, e);
    assert MkdirAll(fs, Parent(e.path)) == Some(fs);
    assert RestoreEntry(fs, e, blobs).fs == fs[e.path := Raised(origin[e.path])];
  }

  /** What capture leaves for one present target: entries, payloads, and capturable nodes. */
  ghost predicate Recorded(origin: Fs, t: Path, es: seq<Entry>, blobs: Blobs) {
    && Describes(es, origin, Below(origin, t))
    && es != [] && es[0].path == t && ParentsFirst(es, t)
    && (forall q | q in Below(origin, t) :: Capturable(q, origin[q]))
    && Honest(blobs) && Covers(blobs, es)
  }

  lemma NextEntry(origin: Fs, t: Path, es: seq<Entry>, blobs: Blobs, k: nat)
    requires Recorded(origin, t, es, blobs) && t != [] && 1 <= k < |es|
    ensures var e := es[k];
            && t <= e.path && e.path != [] && e.path !in Paths(es[..k])
            && e.path in origin && Capturable(e.path, origin[e.path]) && e == EntryOf(e.path, origin[e.path])
            && Parent(e.path) in Paths(es[..k]) && Parent(e.path) in origin && origin[Parent(e.path)].Directory?
            && Refs(e) <= blobs.Keys
  {
    var e := es[k];
    assert e.path in Paths(es) && e in es;
    assert e.path != es[0].path;
    assert FollowsParent(es, k);
    var j :| 0 <= j < k && es[j].path == Parent(e.path) && es[j].DirectoryEntry?;
    assert es[..k][j].path in Paths(es[..k]);
    forall i | 0 <= i < k ensures es[..k][i].path != e.path { assert es[i].path != es[k].path; }
  }

  /** One more entry is restored. */
  lemma EntryBuilds(base: Fs, origin: Fs, t: Path, es: seq<Entry>, blobs: Blobs, k: nat, fs: Fs)
    requires Recorded(origin, t, es, blobs) && t != [] && 1 <= k < |es|
    requires Built(base, origin, t, es[..k], fs)
    ensures RestoreEntry(fs, es[k], blobs).ok
    ensures Built(base, origin, t, es[..k + 1], RestoreEntry(fs, es[k], blobs).fs)
  {
    NextEntry(origin, t, es, blobs, k);
    ChildBuilds(base, origin, t, es[..k], fs, es[k], blobs);
    TakeNext(es, k);
  }

  lemma RestoreFrom(fs: Fs, es: seq<Entry>, blobs: Blobs, k: nat)
    requires k < |es| && RestoreEntry(fs, es[k], blobs).ok
    ensures RestoreEntries(fs, es[k..], blobs) == RestoreEntries(RestoreEntry(fs, es[k], blobs).fs, es[k + 1..], blobs)
  {
    DropNext(es, k);
  }

  lemma {:induction false} EntriesRebuild(
    base: Fs, origin: Fs, t: Path, es: seq<Entry>, blobs: Blobs, k: nat, fs: Fs)
    requires Recorded(origin, t, es, blobs) && t != [] && 1 <= k <= |es|
    requires Built(base, origin, t, es[..k], fs)
    ensures RestoreEntries(fs, es[k..], blobs).ok
    ensures Built(base, origin, t, es, RestoreEntries(fs, es[k..], blobs).fs)
    decreases |es| - k
  {
    hide Built, Recorded;
    if k == |es| {
      TakeAll(es);
    } else {
      EntryBuilds(base, origin, t, es, blobs, k, fs);
      var next := RestoreEntry(fs, es[k], blobs).fs;
      RestoreFrom(fs, es, blobs, k);
      EntriesRebuild(base, origin, t, es, blobs, k + 1, next);
    }
  }

  lemma DirectorySettles(fs: Fs, origin: Fs, d: Entry, blobs: Blobs)
    requires Honest(blobs) && Refs(d) <= blobs.Keys && d.DirectoryEntry?
    requires d.path in origin && origin[d.path].Directory? && Capturable(d.path, origin[d.path])
    requires d == EntryOf(d.path, origin[d.path])
    requires d.path in fs && (fs[d.path] == FRESH_DIRECTORY || fs[d.path] == Settled(origin[d.path]))
    ensures SettleDirectory(fs, d, blobs) == Outcome(fs[d.path := Settled(origin[d.path])], true)
  {
    PayloadsRead(d, blobs, d.path, origin[d.path]);
    assert SettleDirectory(fs, d, blobs).fs == fs[d.path := Settled(origin[d.path])];
  }

  lemma PathsCons(es: seq<Entry>)
    requires es != []
    ensures Paths(es) == {es[0].path} + Paths(es[1..])
  {
    PathsAppend([es[0]], es[1..]);
    PathsOfOne(es[0]);
    assert es == [es[0]] + es[1..];
  }

  /** The second pass gives every listed directory its recorded metadata and changes nothing else. */
  lemma {:induction false} DirectoriesSettle(fs: Fs, origin: Fs, ds: seq<Entry>, blobs: Blobs)
    requires Honest(blobs) && Covers(blobs, ds)
    requires forall d | d in ds ::
      && d.DirectoryEntry? && d.path in origin && origin[d.path].Directory? && Capturable(d.path, origin[d.path])
      && d == EntryOf(d.path, origin[d.path])
      && d.path in fs && (fs[d.path] == FRESH_DIRECTORY || fs[d.path] == Settled(origin[d.path]))
    ensures var r := SettleDirectories(fs, ds, blobs);
            && r.ok && r.fs.Keys == fs.Keys
            && forall q | q in fs :: r.fs[q] == if q in Paths(ds) then Settled(origin[q]) else fs[q]
    decreases ds
  {
    if ds != [] {
      var d := ds[0];
      assert d in ds && forall x | x in ds[1..] :: x in ds;
      DirectorySettles(fs, origin, d, blobs);
      DirectoriesSettle(SettleDirectory(fs, d, blobs).fs, origin, ds[1..], blobs);
      PathsCons(ds);
    }
  }

  lemma PrefixOfParent(t: Path, q: Path)
    ensures t <= Parent(q) ==> t <= q
  {
    if t <= Parent(q) { assert q[..|t|] == Parent(q)[..|t|] == t; }
  }

  lemma RemoveKeepsWellFormed(fs: Fs, t: Path)
    requires WellFormed(fs)
    ensures WellFormed(Remove(fs, t)) && Below(Remove(fs, t), t) == {}
  {
    var g := Remove(fs, t);
    forall q {:trigger Parent(q)} | q in g && q != [] ensures Parent(q) in g && g[Parent(q)].Directory? {
      assert Parent(q) in fs;
      PrefixOfParent(t, q);
    }
  }

  lemma SettledFromBuilt(base: Fs, origin: Fs, t: Path, es: seq<Entry>, blobs: Blobs, fs: Fs)
    requires Recorded(origin, t, es, blobs) && Built(base, origin, t, es, fs)
    ensures var r := SettleDirectories(fs, DeepestFirst(DirectoriesOf(es)), blobs);
            && r.ok && r.fs.Keys == fs.Keys && WellFormed(r.fs)
            && (forall q | q in fs :: r.fs[q] == if t <= q then Settled(origin[q]) else fs[q])
  {
    var ds := DeepestFirst(DirectoriesOf(es));
    forall d | d in ds ensures d.path in Paths(es) && d in es && d == EntryOf(d.path, origin[d.path]) {
      var i :| 0 <= i < |es| && es[i] == d;
    }
    forall q | q in Paths(ds) ensures q in Below(fs, t) && origin[q].Directory? {
      var i :| 0 <= i < |ds| && ds[i].path == q;
      assert ds[i] in ds;
    }
    DirectoriesSettle(fs, origin, ds, blobs);
    var r := SettleDirectories(fs, ds, blobs);
    forall q | q in fs ensures r.fs[q] == if t <= q then Settled(origin[q]) else fs[q] {
      if t <= q {
        assert q in Below(fs, t);
        var i :| 0 <= i < |es| && es[i].path == q;
        if origin[q].Directory? { PathsMember(ds, es[i]); }
      }
    }
    forall q {:trigger Parent(q)} | q in r.fs && q != [] ensures Parent(q) in r.fs && r.fs[Parent(q)].Directory? {
      assert Parent(q) in fs && fs[Parent(q)].Directory?;
      if t <= Parent(q) { assert Parent(q) in Below(fs, t); }
    }
  }

  /** Whatever became of the target since it was captured, as long as directories lead to it, the
      restore succeeds and brings back exactly the captured subtree and nothing else. */
  lemma TargetComesBack(before: Fs, origin: Fs, t: Path, es: seq<Entry>, blobs: Blobs)
    requires WellFormed(before) && WellFormed(origin) && OpenWay(before, t) && t != [] && PlainPath(t)
    requires es == Preorder(origin, t) && Honest(blobs) && Covers(blobs, es)
    requires forall q | q in Below(origin, t) :: Capturable(q, origin[q])
    ensures var r := RestoreTarget(before, t, es, blobs);
            r.ok && WellFormed(r.fs) && Restored(before, origin, t, r.fs)
  {
    RemoveKeepsWellFormed(before, t);
    var base := Remove(before, t);
    if t in origin {
      PreorderDescribes(origin, t);
      assert t in Below(origin, t) && es[0] in es;
      assert !origin[t].Special?;
      RootBuilds(base, origin, t, es[0], blobs);
      var first := RestoreEntry(base, es[0], blobs).fs;
      assert es[..1] == [es[0]];
      EntriesRebuild(base, origin, t, es, blobs, 1, first);
      var built := RestoreEntries(first, es[1..], blobs).fs;
      assert RestoreEntries(base, es, blobs) == RestoreEntries(first, es[1..], blobs);
      SettledFromBuilt(base, origin, t, es, blobs, built);
      var after := RestoreTarget(before, t, es, blobs).fs;
      assert Below(after, t) == Below(built, t) == Below(origin, t);
    } else {
      NothingBelowAbsent(origin, t);
    }
  }

  // ---------------------------------------------------------------- the restoring host

  /** The host being restored. */
  class Restorer {
    var fs: Fs

    constructor (fs: Fs)
      ensures this.fs == fs
    {
      this.fs := fs;
    }

    method RestoreOneMetadata(p: Path, a: Attrs, blobs: Blobs) returns (ok: bool)
      modifies this
      ensures Outcome(fs, ok) == RestoreMetadata(old(fs), p, a, blobs)
    {
      var acl := ReadPayload(blobs, a.acl);
      var xattrs := ReadPayload(blobs, a.xattrs);
      if acl.None? || xattrs.None? { return false; }
      var changed := ChangeMode(fs, p, a);
      if !changed.ok { return false; }
      fs := changed.fs;
      fs := fs[p := SetExtended(fs[p], acl.value, xattrs.value)];
      return true;
    }

    method RestoreOneEntry(e: Entry, blobs: Blobs) returns (ok: bool)
      modifies this
      ensures Outcome(fs, ok) == RestoreEntry(old(fs), e, blobs)
    {
      if !PlainPath(e.path) { return false; }
      if e.AbsentEntry? { return true; }
      var made := MkdirAll(fs, if e.DirectoryEntry? then e.path else Parent(e.path));
      if made.None? { return false; }
      fs := made.value;
      if e.DirectoryEntry? { return true; }
      if e.SymlinkEntry? {
        if e.path in fs { return false; }
        fs := fs[e.path := Symlink(e.uid, e.gid, e.target)];
        return true;
      }
      var bytes := ReadPayload(blobs, e.content);
      if bytes.None? || (e.path in fs && fs[e.path].Directory?) { return false; }
      fs := fs[e.path := File(FRESH_META.(mode := e.attrs.mode), bytes.value)];
      ok := RestoreOneMetadata(e.path, e.attrs, blobs);
    }

    method RestoreOneTarget(t: Path, es: seq<Entry>, blobs: Blobs) returns (ok: bool)
      modifies this
      ensures Outcome(fs, ok) == RestoreTarget(old(fs), t, es, blobs)
    {
      if es == [] || es[0].path != t || !PlainPath(t) { return false; }
      fs := Remove(fs, t);
      if es[0].AbsentEntry? { return true; }
      ghost var cleared := fs;
      var i := 0;
      while i < |es|
        invariant 0 <= i <= |es|
        invariant RestoreEntries(fs, es[i..], blobs) == RestoreEntries(cleared, es, blobs)
      {
        assert es[i..][0] == es[i] && es[i..][1..] == es[i + 1..];
        ok := RestoreOneEntry(es[i], blobs);
        if !ok { return; }
        i := i + 1;
      }
      var ds := DeepestFirst(DirectoriesOf(es));
      ghost var raised := fs;
      i := 0;
      while i < |ds|
        invariant 0 <= i <= |ds|
        invariant SettleDirectories(fs, ds[i..], blobs) == SettleDirectories(raised, ds, blobs)
      {
        assert ds[i..][0] == ds[i] && ds[i..][1..] == ds[i + 1..] && ds[i] in ds;
        var changed := ChangeMode(fs, ds[i].path, ds[i].attrs);
        if !changed.ok { return false; }
        fs := changed.fs;
        ok := RestoreOneMetadata(ds[i].path, ds[i].attrs, blobs);
        if !ok { return; }
        i := i + 1;
      }
      return true;
    }
  }
}
