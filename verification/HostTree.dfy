/** The host file system as a map from paths to nodes, and the pre-order entry list that a
    recovery snapshot keeps of a subtree. */
module HostTree {
  import opened Base
  import opened Order

  type Name = string

  /** Path components from the host root. */
  type Path = seq<Name>

  datatype Meta = Meta(mode: nat, uid: nat, gid: nat, acl: Bytes, xattrs: Bytes)

  datatype Node =
    | Directory(meta: Meta)
    | File(meta: Meta, bytes: Bytes)
    | Symlink(uid: nat, gid: nat, target: string)
    | Special

  type Fs = map<Path, Node>

  /** An ideal SHA-256: equal digests have equal preimages. */
  datatype Digest = Sha256(preimage: Bytes)

  datatype Attrs = Attrs(mode: nat, uid: nat, gid: nat, acl: Digest, xattrs: Digest)

  datatype Entry =
    | AbsentEntry(path: Path)
    | DirectoryEntry(path: Path, attrs: Attrs)
    | FileEntry(path: Path, attrs: Attrs, size: nat, content: Digest)
    | SymlinkEntry(path: Path, uid: nat, gid: nat, target: string)

  const MAX_ENTRY_BYTES: nat := 256 * 1024 * 1024
  const MAX_METADATA_BYTES: nat := 4 * 1024 * 1024

  function Parent(p: Path): Path {
    if p == [] then [] else p[..|p| - 1]
  }

  /** Every node but the root lies in a directory. */
  ghost predicate WellFormed(fs: Fs) {
    forall p {:trigger Parent(p)} | p in fs && p != [] :: Parent(p) in fs && fs[Parent(p)].Directory?
  }

  function Below(fs: Fs, p: Path): set<Path> {
    set q | q in fs && p <= q
  }

  function Remove(fs: Fs, p: Path): Fs {
    map q | q in fs && !(p <= q) :: fs[q]
  }

  function ChildNames(fs: Fs, p: Path): set<Name> {
    set q | q in fs && |q| == |p| + 1 && p <= q :: q[|p|]
  }

  // ---------------------------------------------------------------- sorted directory listing

  predicate IsLeast(x: Name, s: set<Name>) {
    x in s && forall y | y in s && y != x :: TextLess(x, y)
  }

  lemma {:induction false} LeastExists(s: set<Name>)
    requires s != {}
    ensures exists x :: IsLeast(x, s)
    decreases s
  {
    var x :| x in s;
    var rest := s - {x};
    if rest == {} {
      assert forall y | y in s && y != x :: y in rest;
      assert IsLeast(x, s);
    } else {
      LeastExists(rest);
      var m :| IsLeast(m, rest);
      if TextLess(x, m) {
        forall y | y in s && y != x ensures TextLess(x, y) {
          if y != m { TextTransitive(x, m, y); }
        }
        assert IsLeast(x, s);
      } else {
        TextConnected(x, m);
        assert IsLeast(m, s);
      }
    }
  }

  lemma LeastUnique(x: Name, y: Name, s: set<Name>)
    requires IsLeast(x, s) && IsLeast(y, s)
    ensures x == y
  {
    if x != y {
      TextTransitive(x, y, x);
      TextIrreflexive(x);
    }
  }

  /** The names of a directory in the order a sorted listing gives them. */
  function SortedNames(s: set<Name>): (r: seq<Name>)
    ensures forall x :: x in r <==> x in s
    ensures forall i, j | 0 <= i < j < |r| :: TextLess(r[i], r[j])
  {
    if s == {} then []
    else
      LeastExists(s);
      assert forall x, y | IsLeast(x, s) && IsLeast(y, s) :: x == y by {
        forall x, y | IsLeast(x, s) && IsLeast(y, s) ensures x == y { LeastUnique(x, y, s); }
      }
      var m :| IsLeast(m, s);
      [m] + SortedNames(s - {m})
  }

  // ---------------------------------------------------------------- entries

  function AttrsOf(m: Meta): Attrs {
    Attrs(m.mode % 512, m.uid, m.gid, Sha256(m.acl), Sha256(m.xattrs))
  }

  function EntryOf(p: Path, n: Node): Entry {
    match n
    case Directory(m) => DirectoryEntry(p, AttrsOf(m))
    case File(m, bytes) => FileEntry(p, AttrsOf(m), |bytes|, Sha256(bytes))
    case Symlink(uid, gid, target) => SymlinkEntry(p, uid, gid, target)
    case Special => AbsentEntry(p)
  }

  /** Host paths with two dots in a row are refused, also inside a name. */
  predicate Plain(name: Name) {
    forall i | 0 <= i < |name| - 1 :: !(name[i] == '.' && name[i + 1] == '.')
  }

  predicate PlainPath(p: Path) {
    forall i | 0 <= i < |p| :: Plain(p[i])
  }

  predicate Capturable(p: Path, n: Node) {
    PlainPath(p) &&
    match n
    case Directory(m) => |m.acl| <= MAX_METADATA_BYTES && |m.xattrs| <= MAX_METADATA_BYTES
    case File(m, bytes) =>
      && |m.acl| <= MAX_METADATA_BYTES && |m.xattrs| <= MAX_METADATA_BYTES
      && |bytes| <= MAX_ENTRY_BYTES
    case Symlink(_, _, _) => true
    case Special => false
  }

  /** The entries of the subtree at `p`: the node first, then its children in name order. */
  function Preorder(fs: Fs, p: Path): seq<Entry>
    decreases Below(fs, p), 1, 0
  {
    if p !in fs then [AbsentEntry(p)]
    else if fs[p].Directory? then
      [EntryOf(p, fs[p])] + PreorderOf(fs, p, SortedNames(ChildNames(fs, p)))
    else [EntryOf(p, fs[p])]
  }

  function PreorderOf(fs: Fs, p: Path, names: seq<Name>): seq<Entry>
    requires p in fs
    decreases Below(fs, p), 0, |names|
  {
    if names == [] then []
    else
      BelowChild(fs, p, names[0]);
      Preorder(fs, p + [names[0]]) + PreorderOf(fs, p, names[1..])
  }

  lemma BelowChild(fs: Fs, p: Path, name: Name)
    requires p in fs
    ensures Below(fs, p + [name]) < Below(fs, p)
  {
    var c := p + [name];
    assert p in Below(fs, p) && p !in Below(fs, c);
    forall q | q in Below(fs, c) ensures q in Below(fs, p) {
      assert q[..|p|] == c[..|p|] == p;
    }
  }

  // ---------------------------------------------------------------- what the entry list holds

  function Paths(es: seq<Entry>): set<Path> {
    set i | 0 <= i < |es| :: es[i].path
  }

  lemma PathsAppend(a: seq<Entry>, b: seq<Entry>)
    ensures Paths(a + b) == Paths(a) + Paths(b)
  {
    var es := a + b;
    forall x | x in Paths(es) ensures x in Paths(a) + Paths(b) {
      var i :| 0 <= i < |es| && es[i].path == x;
      if i < |a| { assert a[i].path == x; } else { assert b[i - |a|].path == x; }
    }
    forall x | x in Paths(a) ensures x in Paths(es) {
      var i :| 0 <= i < |a| && a[i].path == x;
      assert es[i].path == x;
    }
    forall x | x in Paths(b) ensures x in Paths(es) {
      var i :| 0 <= i < |b| && b[i].path == x;
      assert es[|a| + i].path == x;
    }
  }

  lemma PathsOfOne(e: Entry)
    ensures Paths([e]) == {e.path}
  {
    assert [e][0].path == e.path;
  }

  lemma PathsMember(es: seq<Entry>, e: Entry)
    requires e in es
    ensures e.path in Paths(es)
  {
    var i :| 0 <= i < |es| && es[i] == e;
  }

  /** `es` describes exactly the nodes of `fs` at the paths `s`, each once. */
  ghost predicate Describes(es: seq<Entry>, fs: Fs, s: set<Path>) {
    && Paths(es) == s
    && (forall i | 0 <= i < |es| :: es[i].path in fs && es[i] == EntryOf(es[i].path, fs[es[i].path]))
    && (forall i, j | 0 <= i < j < |es| :: es[i].path != es[j].path)
  }

  /** The entry at `i` follows the directory entry of its parent. */
  ghost predicate FollowsParent(es: seq<Entry>, i: nat)
    requires i < |es|
  {
    exists j | 0 <= j < i :: es[j].path == Parent(es[i].path) && es[j].DirectoryEntry?
  }

  /** Every entry but the one for `root` follows the directory entry of its parent. */
  ghost predicate ParentsFirst(es: seq<Entry>, root: Path) {
    forall i {:trigger FollowsParent(es, i)} | 0 <= i < |es| ::
      es[i].path == root || FollowsParent(es, i)
  }

  /** The paths strictly below `p` that pass through one of `names`. */
  function Through(fs: Fs, p: Path, names: seq<Name>): set<Path> {
    set q | q in fs && p <= q && |q| > |p| && q[|p|] in names
  }

  lemma ThroughSplit(fs: Fs, p: Path, names: seq<Name>)
    requires names != [] && forall i | 0 < i < |names| :: names[i] != names[0]
    ensures Through(fs, p, names) == Below(fs, p + [names[0]]) + Through(fs, p, names[1..])
    ensures Below(fs, p + [names[0]]) !! Through(fs, p, names[1..])
  {
    var c := p + [names[0]];
    forall q | q in fs ensures q in Below(fs, c) <==> p <= q && |q| > |p| && q[|p|] == names[0] {
      if p <= q && |q| > |p| && q[|p|] == names[0] {
        assert q[..|c|] == c;
      }
      if c <= q { assert q[..|p|] == c[..|p|] == p && q[|p|] == c[|p|]; }
    }
  }

  lemma {:induction false} ParentsUpTo(fs: Fs, q: Path, k: nat)
    requires WellFormed(fs) && q in fs && k <= |q|
    ensures q[..k] in fs && (k < |q| ==> fs[q[..k]].Directory?)
    decreases |q| - k
  {
    if k == |q| {
      assert q[..k] == q;
    } else {
      ParentsUpTo(fs, q, k + 1);
      assert Parent(q[..k + 1]) == q[..k];
    }
  }

  lemma BelowIsThrough(fs: Fs, p: Path)
    requires WellFormed(fs) && p in fs
    ensures Below(fs, p) == {p} + Through(fs, p, SortedNames(ChildNames(fs, p)))
    ensures !fs[p].Directory? ==> Below(fs, p) == {p}
  {
    forall q | q in Below(fs, p) && q != p
      ensures q in Through(fs, p, SortedNames(ChildNames(fs, p))) && fs[p].Directory?
    {
      ParentsUpTo(fs, q, |p| + 1);
      ParentsUpTo(fs, q, |p|);
      var c := q[..|p| + 1];
      assert c in fs && p <= c && |c| == |p| + 1 && c[|p|] == q[|p|];
      assert q[|p|] in ChildNames(fs, p);
      assert q[..|p|] == p;
    }
  }

  lemma DescribesAppend(a: seq<Entry>, b: seq<Entry>, fs: Fs, s: set<Path>, t: set<Path>)
    requires Describes(a, fs, s) && Describes(b, fs, t) && s !! t
    ensures Describes(a + b, fs, s + t)
  {
    var es := a + b;
    PathsAppend(a, b);
    forall i | 0 <= i < |es|
      ensures es[i].path in fs && es[i] == EntryOf(es[i].path, fs[es[i].path]) && es[i].path in s + t
    {
      if i < |a| { assert a[i].path in Paths(a); } else { assert b[i - |a|].path in Paths(b); }
    }
    forall i, j | 0 <= i < j < |es| ensures es[i].path != es[j].path {
      if i < |a| <= j {
        assert a[i].path in Paths(a) && b[j - |a|].path in Paths(b);
      }
    }
  }

  /** The entry list describes exactly the subtree, root first and parents before children. */
  lemma {:induction false} PreorderDescribes(fs: Fs, p: Path)
    requires WellFormed(fs) && p in fs
    ensures Describes(Preorder(fs, p), fs, Below(fs, p))
    ensures Preorder(fs, p)[0].path == p && ParentsFirst(Preorder(fs, p), p)
    decreases Below(fs, p), 1, 0
  {
    BelowIsThrough(fs, p);
    var root := [EntryOf(p, fs[p])];
    assert root[0].path == p && Describes(root, fs, {p});
    if fs[p].Directory? {
      var names := SortedNames(ChildNames(fs, p));
      forall n | n in names ensures p + [n] in fs { ChildInFs(fs, p, n); }
      forall i, j | 0 <= i < j < |names| ensures names[i] != names[j] { TextIrreflexive(names[i]); }
      PreorderOfDescribes(fs, p, names);
      DescribesAppend(root, PreorderOf(fs, p, names), fs, {p}, Through(fs, p, names));
      var es := Preorder(fs, p);
      forall i | 0 <= i < |es| && es[i].path != p ensures FollowsParent(es, i) {
        var rest := PreorderOf(fs, p, names);
        assert es[i] == rest[i - 1];
        if Parent(es[i].path) == p {
          assert es[0].DirectoryEntry?;
        } else {
          assert FollowsParent(rest, i - 1);
          var j :| 0 <= j < i - 1 && rest[j].path == Parent(rest[i - 1].path) && rest[j].DirectoryEntry?;
          assert es[j + 1] == rest[j];
        }
      }
    }
  }

  lemma ChildInFs(fs: Fs, p: Path, n: Name)
    requires n in ChildNames(fs, p)
    ensures p + [n] in fs
  {
    var q :| q in fs && |q| == |p| + 1 && p <= q && q[|p|] == n;
    assert q == p + [n];
  }

  /** Entries of `es` whose parent is not `p` follow the directory entry of their parent. */
  ghost predicate ParentsFirstUnder(es: seq<Entry>, p: Path) {
    forall i {:trigger FollowsParent(es, i)} | 0 <= i < |es| ::
      Parent(es[i].path) == p || FollowsParent(es, i)
  }

  lemma {:induction false} PreorderOfDescribes(fs: Fs, p: Path, names: seq<Name>)
    requires WellFormed(fs) && p in fs && forall n | n in names :: p + [n] in fs
    requires forall i, j | 0 <= i < j < |names| :: names[i] != names[j]
    ensures Describes(PreorderOf(fs, p, names), fs, Through(fs, p, names))
    ensures ParentsFirstUnder(PreorderOf(fs, p, names), p)
    decreases Below(fs, p), 0, |names|
  {
    if names == [] {
      assert Through(fs, p, names) == {};
    } else {
      var c := p + [names[0]];
      BelowChild(fs, p, names[0]);
      PreorderDescribes(fs, c);
      PreorderOfDescribes(fs, p, names[1..]);
      ThroughSplit(fs, p, names);
      var a, b := Preorder(fs, c), PreorderOf(fs, p, names[1..]);
      DescribesAppend(a, b, fs, Below(fs, c), Through(fs, p, names[1..]));
      assert PreorderOf(fs, p, names) == a + b;
      assert Parent(c) == p;
      UnderAppend(a, b, c, p);
    }
  }

  lemma UnderAppend(a: seq<Entry>, b: seq<Entry>, c: Path, p: Path)
    requires ParentsFirst(a, c) && Parent(c) == p && ParentsFirstUnder(b, p)
    ensures ParentsFirstUnder(a + b, p)
  {
    var es := a + b;
    forall i | 0 <= i < |es| && Parent(es[i].path) != p ensures FollowsParent(es, i) {
      if i < |a| {
        assert es[i] == a[i] && a[i].path != c;
        assert FollowsParent(a, i);
        var j :| 0 <= j < i && a[j].path == Parent(a[i].path) && a[j].DirectoryEntry?;
        assert es[j] == a[j];
      } else {
        assert es[i] == b[i - |a|] && FollowsParent(b, i - |a|);
        var j :| 0 <= j < i - |a| && b[j].path == Parent(b[i - |a|].path) && b[j].DirectoryEntry?;
        assert es[|a| + j] == b[j];
      }
    }
  }

  // ---------------------------------------------------------------- equal subtrees, equal lists

  /** The two hosts show the same entry at every path at or below `p`. */
  ghost predicate LooksSame(a: Fs, b: Fs, p: Path) {
    forall q | p <= q :: (q in a <==> q in b) && (q in a && q in b ==> EntryOf(q, a[q]) == EntryOf(q, b[q]))
  }

  lemma {:induction false} SamePreorder(a: Fs, b: Fs, p: Path)
    requires LooksSame(a, b, p)
    requires forall q | p <= q && q in a :: !a[q].Special? && !b[q].Special?
    ensures Preorder(a, p) == Preorder(b, p)
    decreases Below(a, p), 1, 0
  {
    if p in a && a[p].Directory? {
      SameChildren(a, b, p);
      SamePreorderOf(a, b, p, SortedNames(ChildNames(a, p)));
    }
  }

  lemma SameChildren(a: Fs, b: Fs, p: Path)
    requires LooksSame(a, b, p)
    ensures ChildNames(a, p) == ChildNames(b, p)
  {
    forall n | n in ChildNames(a, p) ensures n in ChildNames(b, p) {
      var q :| q in a && |q| == |p| + 1 && p <= q && q[|p|] == n;
      assert q in b;
    }
    forall n | n in ChildNames(b, p) ensures n in ChildNames(a, p) {
      var q :| q in b && |q| == |p| + 1 && p <= q && q[|p|] == n;
      assert q in a;
    }
  }

  lemma {:induction false} SamePreorderOf(a: Fs, b: Fs, p: Path, names: seq<Name>)
    requires p in a && p in b && LooksSame(a, b, p)
    requires forall q | p <= q && q in a :: !a[q].Special? && !b[q].Special?
    ensures PreorderOf(a, p, names) == PreorderOf(b, p, names)
    decreases Below(a, p), 0, |names|
  {
    if names != [] {
      var c := p + [names[0]];
      BelowChild(a, p, names[0]);
      forall q | c <= q && q in a ensures p <= q { assert q[..|p|] == c[..|p|] == p; }
      forall q | c <= q && q in b ensures p <= q { assert q[..|p|] == c[..|p|] == p; }
      SamePreorder(a, b, c);
      SamePreorderOf(a, b, p, names[1..]);
    }
  }
}
