/** Capturing a recovery snapshot: a walk that pushes one entry per node and collects every payload
    under its digest. */
module Capture {
  import opened Base
  import opened Order
  import opened HostTree

  type Blobs = map<Digest, Bytes>

  /** A captured snapshot: the entry list and the private payloads it refers to. */
  datatype Recovery = Recovery(entries: seq<Entry>, blobs: Blobs)

  function Refs(e: Entry): set<Digest> {
    match e
    case DirectoryEntry(_, a) => {a.acl, a.xattrs}
    case FileEntry(_, a, _, content) => {a.acl, a.xattrs, content}
    case AbsentEntry(_) => {}
    case SymlinkEntry(_, _, _, _) => {}
  }

  /** The payload store after the payloads of one entry were added. */
  function Note(blobs: Blobs, e: Entry): Blobs {
    match e
    case DirectoryEntry(_, a) => blobs[a.acl := a.acl.preimage][a.xattrs := a.xattrs.preimage]
    case FileEntry(_, a, _, content) =>
      blobs[a.acl := a.acl.preimage][a.xattrs := a.xattrs.preimage][content := content.preimage]
    case AbsentEntry(_) => blobs
    case SymlinkEntry(_, _, _, _) => blobs
  }

  function NoteAll(blobs: Blobs, es: seq<Entry>): Blobs
    decreases es
  {
    if es == [] then blobs else NoteAll(Note(blobs, es[0]), es[1..])
  }

  lemma {:induction false} NoteAllAppend(blobs: Blobs, a: seq<Entry>, b: seq<Entry>)
    ensures NoteAll(blobs, a + b) == NoteAll(NoteAll(blobs, a), b)
    decreases a
  {
    if a == [] {
      assert a + b == b;
    } else {
      assert (a + b)[1..] == a[1..] + b;
      NoteAllAppend(Note(blobs, a[0]), a[1..], b);
    }
  }

  ghost predicate Honest(blobs: Blobs) {
    forall d | d in blobs :: blobs[d] == d.preimage
  }

  /** Every payload the entries refer to is stored under its digest. */
  ghost predicate Covers(blobs: Blobs, es: seq<Entry>) {
    forall e | e in es :: Refs(e) <= blobs.Keys
  }

  lemma {:induction false} NoteAllCovers(blobs: Blobs, es: seq<Entry>)
    requires Honest(blobs)
    ensures Honest(NoteAll(blobs, es)) && Covers(NoteAll(blobs, es), es)
    ensures blobs.Keys <= NoteAll(blobs, es).Keys
    decreases es
  {
    if es != [] {
      NoteAllCovers(Note(blobs, es[0]), es[1..]);
      assert Refs(es[0]) <= Note(blobs, es[0]).Keys;
      assert forall e | e in es :: e == es[0] || e in es[1..];
    }
  }

  /** Whether the walk of `p` succeeds when `count` entries were pushed before it. */
  predicate WalkOk(fs: Fs, p: Path, count: nat, max: nat)
    decreases Below(fs, p), 1, 0
  {
    if p !in fs then PlainPath(p)
    else
      && Capturable(p, fs[p])
      && (fs[p].Directory? ==> WalkAllOk(fs, p, SortedNames(ChildNames(fs, p)), count + 1, max))
  }

  predicate WalkAllOk(fs: Fs, p: Path, names: seq<Name>, count: nat, max: nat)
    requires p in fs
    decreases Below(fs, p), 0, |names|
  {
    names == [] ||
    (BelowChild(fs, p, names[0]);
     var c := p + [names[0]];
     && WalkOk(fs, c, count, max)
     && count + |Preorder(fs, c)| <= max
     && WalkAllOk(fs, p, names[1..], count + |Preorder(fs, c)|, max))
  }

  /** One turn of the loop over a directory's names. */
  lemma NextName(fs: Fs, p: Path, names: seq<Name>, i: nat, es: seq<Entry>, blobs: Blobs, max: nat)
    requires p in fs && i < |names|
    ensures var first, rest := Preorder(fs, p + [names[i]]), names[i + 1..];
            && es + PreorderOf(fs, p, names[i..]) == (es + first) + PreorderOf(fs, p, rest)
            && NoteAll(blobs, PreorderOf(fs, p, names[i..])) == NoteAll(NoteAll(blobs, first), PreorderOf(fs, p, rest))
            && (WalkAllOk(fs, p, names[i..], |es|, max) <==>
                  && WalkOk(fs, p + [names[i]], |es|, max) && |es + first| <= max
                  && WalkAllOk(fs, p, rest, |es + first|, max))
  {
    assert names[i..][0] == names[i] && names[i..][1..] == names[i + 1..];
    NoteAllAppend(blobs, Preorder(fs, p + [names[i]]), PreorderOf(fs, p, names[i + 1..]));
  }

  /** The walks of several roots in turn, appended to `es`. */
  function WalkRoots(fs: Fs, roots: seq<Path>, es: seq<Entry>, max: nat): Option<seq<Entry>>
    decreases roots
  {
    if roots == [] then Some(es)
    else if !WalkOk(fs, roots[0], |es|, max) then None
    else WalkRoots(fs, roots[1..], es + Preorder(fs, roots[0]), max)
  }

  function Concat(fs: Fs, roots: seq<Path>): seq<Entry> {
    if roots == [] then [] else Preorder(fs, roots[0]) + Concat(fs, roots[1..])
  }

  /** A walk that succeeds met only nodes that can be captured. */
  lemma {:induction false} WalkMeetsCapturable(fs: Fs, p: Path, count: nat, max: nat)
    requires WellFormed(fs) && WalkOk(fs, p, count, max)
    ensures forall q | q in Below(fs, p) :: Capturable(q, fs[q])
    decreases Below(fs, p), 1, 0
  {
    if p in fs {
      BelowIsThrough(fs, p);
      if fs[p].Directory? {
        WalkAllMeetsCapturable(fs, p, SortedNames(ChildNames(fs, p)), count + 1, max);
      }
    } else {
      NothingBelowAbsent(fs, p);
    }
  }

  lemma NothingBelowAbsent(fs: Fs, p: Path)
    requires WellFormed(fs)
    ensures p !in fs ==> Below(fs, p) == {}
  {
    if q :| q in Below(fs, p) {
      assert q[..|p|] == p;
      ParentsUpTo(fs, q, |p|);
    }
  }

  lemma {:induction false} WalkAllMeetsCapturable(fs: Fs, p: Path, names: seq<Name>, count: nat, max: nat)
    requires WellFormed(fs) && p in fs && WalkAllOk(fs, p, names, count, max)
    ensures forall q | q in Through(fs, p, names) :: Capturable(q, fs[q])
    decreases Below(fs, p), 0, |names|
  {
    if names != [] {
      var c := p + [names[0]];
      BelowChild(fs, p, names[0]);
      WalkMeetsCapturable(fs, c, count, max);
      WalkAllMeetsCapturable(fs, p, names[1..], count + |Preorder(fs, c)|, max);
      forall q | q in Through(fs, p, names) ensures Capturable(q, fs[q]) {
        if q[|p|] == names[0] {
          assert q[..|c|] == c;
          assert q in Below(fs, c);
        } else {
          assert q in Through(fs, p, names[1..]);
        }
      }
    }
  }

  /** Within the entry bound, capturable nodes are all a walk needs. */
  lemma {:induction false} CapturableWalks(fs: Fs, p: Path, count: nat, max: nat)
    requires PlainPath(p) && forall q | q in Below(fs, p) :: Capturable(q, fs[q])
    requires count + |Preorder(fs, p)| <= max
    ensures WalkOk(fs, p, count, max)
    decreases Below(fs, p), 1, 0
  {
    if p in fs {
      assert p in Below(fs, p);
      if fs[p].Directory? {
        forall n | n in ChildNames(fs, p) ensures p + [n] in fs { ChildInFs(fs, p, n); }
        CapturableWalksAll(fs, p, SortedNames(ChildNames(fs, p)), count + 1, max);
      }
    }
  }

  lemma {:induction false} CapturableWalksAll(fs: Fs, p: Path, names: seq<Name>, count: nat, max: nat)
    requires p in fs && (forall n | n in names :: p + [n] in fs) && forall q | q in Below(fs, p) :: Capturable(q, fs[q])
    requires count + |PreorderOf(fs, p, names)| <= max
    ensures WalkAllOk(fs, p, names, count, max)
    decreases Below(fs, p), 0, |names|
  {
    if names != [] {
      BelowChild(fs, p, names[0]);
      assert p + [names[0]] in Below(fs, p + [names[0]]);
      CapturableWalks(fs, p + [names[0]], count, max);
      CapturableWalksAll(fs, p, names[1..], count + |Preorder(fs, p + [names[0]])|, max);
    }
  }

  lemma {:induction false} WalkRootsConcat(fs: Fs, roots: seq<Path>, es: seq<Entry>, max: nat)
    ensures WalkRoots(fs, roots, es, max).Some? ==> WalkRoots(fs, roots, es, max).value == es + Concat(fs, roots)
    decreases roots
  {
    if roots == [] {
      assert es + [] == es;
    } else {
      var first := Preorder(fs, roots[0]);
      WalkRootsConcat(fs, roots[1..], es + first, max);
      assert es + first + Concat(fs, roots[1..]) == es + (first + Concat(fs, roots[1..]));
    }
  }

  /** The bytes of all payloads together. */
  ghost function Total(blobs: Blobs): nat
    decreases |blobs|
  {
    if blobs == map[] then 0
    else
      var d :| d in blobs;
      assert (blobs - {d}).Keys == blobs.Keys - {d};
      |blobs[d]| + Total(blobs - {d})
  }

  lemma {:induction false} TotalWithout(blobs: Blobs, d: Digest)
    requires d in blobs
    ensures Total(blobs) == |blobs[d]| + Total(blobs - {d})
    decreases |blobs|
  {
    var x :| x in blobs && Total(blobs) == |blobs[x]| + Total(blobs - {x});
    if x != d {
      assert (blobs - {x}).Keys == blobs.Keys - {x} && (blobs - {d}).Keys == blobs.Keys - {d};
      TotalWithout(blobs - {x}, d);
      TotalWithout(blobs - {d}, x);
      assert blobs - {x} - {d} == blobs - {d} - {x};
    }
  }

  /** The snapshot writer of one host. */
  class SnapshotWriter {
    const fs: Fs
    const maxEntries: nat
    var entries: seq<Entry>
    var payloads: Blobs

    constructor (fs: Fs, maxEntries: nat)
      ensures this.fs == fs && this.maxEntries == maxEntries && entries == [] && payloads == map[]
    {
      this.fs := fs;
      this.maxEntries := maxEntries;
      entries := [];
      payloads := map[];
    }

    method AddPayload(bytes: Bytes) returns (d: Digest)
      requires Honest(payloads)
      modifies `payloads
      ensures d == Sha256(bytes) && payloads == old(payloads)[d := bytes]
    {
      d := Sha256(bytes);
      if d !in payloads {
        payloads := payloads[d := bytes];
      }
    }

    /** Pushes the entries of the subtree at `p` and collects their payloads. */
    method CapturePath(p: Path) returns (ok: bool)
      requires Honest(payloads)
      modifies `entries, `payloads
      ensures ok <==> WalkOk(fs, p, |old(entries)|, maxEntries)
      ensures ok ==> entries == old(entries) + Preorder(fs, p)
      ensures Honest(payloads)
      ensures ok ==> payloads == NoteAll(old(payloads), Preorder(fs, p))
      decreases Below(fs, p), 2
    {
      if !PlainPath(p) { return false; }
      if p !in fs {
        entries := entries + [AbsentEntry(p)];
        return true;
      }
      var node := fs[p];
      if node.Symlink? {
        entries := entries + [SymlinkEntry(p, node.uid, node.gid, node.target)];
        return true;
      }
      if node.Special? { return false; }
      var m := node.meta;
      if |m.acl| > MAX_METADATA_BYTES || |m.xattrs| > MAX_METADATA_BYTES { return false; }
      var acl := AddPayload(m.acl);
      var xattrs := AddPayload(m.xattrs);
      var attrs := Attrs(m.mode % 512, m.uid, m.gid, acl, xattrs);
      if node.File? {
        if |node.bytes| > MAX_ENTRY_BYTES { return false; }
        var content := AddPayload(node.bytes);
        entries := entries + [FileEntry(p, attrs, |node.bytes|, content)];
        assert Preorder(fs, p) == [FileEntry(p, attrs, |node.bytes|, content)];
        return true;
      }
      ok := CaptureDirectory(p, attrs);
    }

    /** Pushes the entry of a directory whose metadata was taken, and then its children. */
    method CaptureDirectory(p: Path, attrs: Attrs) returns (ok: bool)
      requires p in fs && fs[p].Directory? && Honest(payloads) && EntryOf(p, fs[p]) == DirectoryEntry(p, attrs)
      modifies `entries, `payloads
      ensures ok <==> WalkAllOk(fs, p, SortedNames(ChildNames(fs, p)), |old(entries)| + 1, maxEntries)
      ensures ok ==> entries == old(entries) + Preorder(fs, p)
      ensures Honest(payloads)
      ensures ok ==> payloads == NoteAll(old(payloads), PreorderOf(fs, p, SortedNames(ChildNames(fs, p))))
      decreases Below(fs, p), 1
    {
      entries := entries + [DirectoryEntry(p, attrs)];
      ghost var root := [DirectoryEntry(p, attrs)];
      var names := SortedNames(ChildNames(fs, p));
      ok := CaptureChildren(p, names);
      assert ok ==> entries == old(entries) + (root + PreorderOf(fs, p, names));
    }

    method CaptureChildren(p: Path, names: seq<Name>) returns (ok: bool)
      requires p in fs && Honest(payloads)
      modifies `entries, `payloads
      ensures ok <==> WalkAllOk(fs, p, names, |old(entries)|, maxEntries)
      ensures ok ==> entries == old(entries) + PreorderOf(fs, p, names)
      ensures Honest(payloads)
      ensures ok ==> payloads == NoteAll(old(payloads), PreorderOf(fs, p, names))
      decreases Below(fs, p), 0
    {
      ghost var before := entries;
      ghost var body := PreorderOf(fs, p, names);
      var i := 0;
      while i < |names|
        invariant 0 <= i <= |names|
        invariant Honest(payloads)
        invariant WalkAllOk(fs, p, names, |before|, maxEntries) <==>
                  WalkAllOk(fs, p, names[i..], |entries|, maxEntries)
        invariant entries + PreorderOf(fs, p, names[i..]) == before + body
        invariant NoteAll(payloads, PreorderOf(fs, p, names[i..])) == NoteAll(old(payloads), body)
      {
        var c := p + [names[i]];
        BelowChild(fs, p, names[i]);
        NextName(fs, p, names, i, entries, payloads, maxEntries);
        ok := CapturePath(c);
        if !ok { return; }
        if |entries| > maxEntries { return false; }
        i := i + 1;
      }
      return true;
    }

    /** Adds up the sizes of all payloads. */
    method SumPayloads() returns (sum: nat)
      ensures sum == Total(payloads)
    {
      sum := 0;
      var rest := payloads;
      while rest != map[]
        invariant sum + Total(rest) == Total(payloads)
        decreases |rest|
      {
        var d :| d in rest;
        TotalWithout(rest, d);
        assert |rest.Keys - {d}| < |rest.Keys| && (rest - {d}).Keys == rest.Keys - {d};
        sum := sum + |rest[d]|;
        rest := rest - {d};
      }
    }

    /** Captures every target root in its fixed order. */
    method CaptureTargets(targets: seq<Path>, maxBytes: nat) returns (r: Option<Recovery>)
      requires entries == [] && payloads == map[]
      modifies this
      ensures r == CaptureOf(fs, targets, maxEntries, maxBytes)
    {
      var i := 0;
      while i < |targets|
        invariant 0 <= i <= |targets|
        invariant Honest(payloads)
        invariant WalkRoots(fs, targets, [], maxEntries) == WalkRoots(fs, targets[i..], entries, maxEntries)
        invariant payloads == NoteAll(map[], entries)
      {
        assert targets[i..][0] == targets[i] && targets[i..][1..] == targets[i + 1..];
        ghost var was := entries;
        NoteAllAppend(map[], was, Preorder(fs, targets[i]));
        var ok := CapturePath(targets[i]);
        if !ok { return None; }
        i := i + 1;
      }
      if |entries| > maxEntries { return None; }
      var total := SumPayloads();
      if total > maxBytes { return None; }
      return Some(Recovery(entries, payloads));
    }
  }

  /** The snapshot of `targets`, when nothing makes the capture fail. */
  ghost function CaptureOf(fs: Fs, targets: seq<Path>, max: nat, maxBytes: nat): Option<Recovery> {
    match WalkRoots(fs, targets, [], max)
    case None => None
    case Some(es) =>
      if |es| > max || Total(NoteAll(map[], es)) > maxBytes then None else Some(Recovery(es, NoteAll(map[], es)))
  }
}
