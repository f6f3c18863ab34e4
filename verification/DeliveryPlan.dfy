/** The canonical form of delivery plans: list fields that are sets in meaning are sorted, and the plan
    digest is the hash of the sorted plan. */
module DeliveryPlan {
  import opened Base
  import opened Order

  datatype Source = Source(product: string, repository: string, commit: string, tree: string, adapter: string, detail: string)
  datatype Toolchain = Toolchain(name: string, version: string, digest: Option<string>)
  datatype Lockfile = Lockfile(path: string, sha256: string)

  // Fields that no check relates to others are kept together in `rest`.
  datatype Plan = Plan(
    products: seq<Source>, toolchains: seq<Toolchain>, lockfiles: seq<Lockfile>,
    commands: seq<string>, testCommands: seq<string>, properties: seq<string>, cycles: seq<string>,
    releases: seq<string>, paths: seq<string>, activationOrder: seq<string>, effects: seq<string>,
    evidence: seq<string>, checkpoints: seq<nat>, durationSeconds: nat,
    notBefore: nat, guardDeadline: nat, expiresAt: nat, rest: string)

  /** The digest is an ideal hash of the canonical body. */
  datatype CanonicalPlan = CanonicalPlan(body: Plan, digest: Plan)

  datatype Error = Invalid | PlanChanged

  /** The comparison of the string collation. */
  type Collation = (string, string) -> bool

  const PRODUCTS: set<string> := {"baby-quirt", "baby-quirt-mcp"}
  const ACTIVATION_ORDER: seq<string> := ["baby-quirt-mcp", "baby-quirt"]
  const REQUIRED_CYCLES: set<string> := {"success", "automatic_rollback", "restart_or_reboot_recovery"}

  predicate Distinct<T(==)>(s: seq<T>) {
    forall i, j | 0 <= i < j < |s| :: s[i] != s[j]
  }

  predicate StringSet(s: seq<string>, nonempty: bool) {
    (nonempty ==> s != []) && |s| <= 512 && Distinct(s) && forall i | 0 <= i < |s| :: 1 <= |s[i]| <= 4096
  }

  predicate DistinctNames(ts: seq<Toolchain>) {
    forall i, j | 0 <= i < j < |ts| :: ts[i].name != ts[j].name
  }

  predicate DistinctPaths(ls: seq<Lockfile>) {
    forall i, j | 0 <= i < j < |ls| :: ls[i].path != ls[j].path
  }

  predicate ValidSources(ps: seq<Source>) {
    && |ps| == 2 && ps[0].product != ps[1].product
    && forall i | 0 <= i < 2 :: ps[i].product in PRODUCTS && ps[i].repository == "StealthEyeLLC/" + ps[i].product
  }

  predicate ValidSoak(checkpoints: seq<nat>, duration: nat) {
    && duration >= 1 && checkpoints != [] && Distinct(checkpoints)
    && forall i | 0 <= i < |checkpoints| :: 1 <= checkpoints[i] <= duration
  }

  /** What canonicalization demands of a plan. */
  predicate Acceptable(p: Plan) {
    && ValidSources(p.products)
    && 1 <= |p.toolchains| <= 64 && DistinctNames(p.toolchains)
    && 1 <= |p.lockfiles| <= 64 && DistinctPaths(p.lockfiles)
    && StringSet(p.commands, true) && StringSet(p.testCommands, true) && StringSet(p.properties, true)
    && StringSet(p.cycles, true) && (forall c | c in REQUIRED_CYCLES :: c in p.cycles)
    && StringSet(p.releases, true) && StringSet(p.paths, true)
    && p.activationOrder == ACTIVATION_ORDER
    && StringSet(p.effects, false) && StringSet(p.evidence, true)
    && ValidSoak(p.checkpoints, p.durationSeconds)
    && p.notBefore < p.guardDeadline <= p.expiresAt
  }

  function ByProduct(less: Collation): (Source, Source) -> bool {
    (a: Source, b: Source) => less(a.product, b.product)
  }

  function ByName(less: Collation): (Toolchain, Toolchain) -> bool {
    (a: Toolchain, b: Toolchain) => less(a.name, b.name)
  }

  function ByPath(less: Collation): (Lockfile, Lockfile) -> bool {
    (a: Lockfile, b: Lockfile) => less(a.path, b.path)
  }

  function Ascending(): (nat, nat) -> bool {
    (a: nat, b: nat) => a < b
  }

  function Arranged(p: Plan, less: Collation): Plan {
    p.(products := Sort(ByProduct(less), p.products),
       toolchains := Sort(ByName(less), p.toolchains),
       lockfiles := Sort(ByPath(less), p.lockfiles),
       properties := Sort(less, p.properties),
       releases := Sort(less, p.releases),
       paths := Sort(less, p.paths),
       effects := Sort(less, p.effects),
       evidence := Sort(less, p.evidence),
       checkpoints := Sort(Ascending(), p.checkpoints))
  }

  function Canonicalize(p: Plan, less: Collation): Result<CanonicalPlan, Error> {
    if !Acceptable(p) then Err(Invalid)
    else Ok(CanonicalPlan(Arranged(p, less), Arranged(p, less)))
  }

  /** The ledger's check of a plan that claims a digest. */
  function CheckCanonical(c: CanonicalPlan, less: Collation): Result<CanonicalPlan, Error> {
    match Canonicalize(c.body, less)
    case Err(e) => Err(e)
    case Ok(again) => if again.digest != c.digest then Err(PlanChanged) else Ok(again)
  }

  /** The collation strictly and totally orders strings. */
  ghost predicate StrictCollation(less: Collation) {
    && (forall x :: !less(x, x))
    && (forall x, y, z | less(x, y) && less(y, z) :: less(x, z))
    && (forall x, y | x != y :: less(x, y) || less(y, x))
  }

  /** The plans differ at most in the order of the fields that are sets in meaning. */
  predicate SameUpToOrder(p: Plan, q: Plan) {
    && multiset(p.products) == multiset(q.products) && multiset(p.toolchains) == multiset(q.toolchains)
    && multiset(p.lockfiles) == multiset(q.lockfiles) && multiset(p.properties) == multiset(q.properties)
    && multiset(p.releases) == multiset(q.releases) && multiset(p.paths) == multiset(q.paths)
    && multiset(p.effects) == multiset(q.effects) && multiset(p.evidence) == multiset(q.evidence)
    && multiset(p.checkpoints) == multiset(q.checkpoints)
    && q == p.(products := q.products, toolchains := q.toolchains, lockfiles := q.lockfiles,
               properties := q.properties, releases := q.releases, paths := q.paths, effects := q.effects,
               evidence := q.evidence, checkpoints := q.checkpoints)
  }

  // ---------------------------------------------------------------- permuting keeps validity

  /** A list with no repeats has none in any order. */
  lemma DistinctUpToOrder<T(!new)>(a: seq<T>, b: seq<T>)
    requires multiset(a) == multiset(b) && Distinct(a)
    ensures Distinct(b)
  {
    if !Distinct(b) {
      var i, j :| 0 <= i < j < |b| && b[i] == b[j];
      Twice(b, i, j);
      Once(a, b[i]);
    }
  }

  lemma {:induction false} Once<T(!new)>(s: seq<T>, x: T)
    requires Distinct(s)
    ensures multiset(s)[x] <= 1
  {
    if s != [] {
      assert s == [s[0]] + s[1..];
      assert forall y | y in s[1..] :: y != s[0];
      Once(s[1..], x);
    }
  }

  lemma StringSetUpToOrder(a: seq<string>, b: seq<string>, nonempty: bool)
    requires multiset(a) == multiset(b) && StringSet(a, nonempty)
    ensures StringSet(b, nonempty)
  {
    SameMembers(a, b);
    DistinctUpToOrder(a, b);
    forall i | 0 <= i < |b| ensures 1 <= |b[i]| <= 4096 { assert b[i] in a; }
  }

  lemma NamesUpToOrder(a: seq<Toolchain>, b: seq<Toolchain>)
    requires multiset(a) == multiset(b) && DistinctNames(a)
    ensures DistinctNames(b)
  {
    SameMembers(a, b);
    DistinctUpToOrder(a, b);
    forall i, j | 0 <= i < j < |b| ensures b[i].name != b[j].name {
      assert b[i] in a && b[j] in a && b[i] != b[j];
    }
  }

  lemma PathsUpToOrder(a: seq<Lockfile>, b: seq<Lockfile>)
    requires multiset(a) == multiset(b) && DistinctPaths(a)
    ensures DistinctPaths(b)
  {
    SameMembers(a, b);
    DistinctUpToOrder(a, b);
    forall i, j | 0 <= i < j < |b| ensures b[i].path != b[j].path {
      assert b[i] in a && b[j] in a && b[i] != b[j];
    }
  }

  lemma SourcesUpToOrder(a: seq<Source>, b: seq<Source>)
    requires multiset(a) == multiset(b) && ValidSources(a)
    ensures ValidSources(b)
  {
    SameMembers(a, b);
    assert Distinct(a);
    DistinctUpToOrder(a, b);
    assert b[0] in a && b[1] in a && b[0] != b[1];
  }

  lemma SoakUpToOrder(a: seq<nat>, b: seq<nat>, duration: nat)
    requires multiset(a) == multiset(b) && ValidSoak(a, duration)
    ensures ValidSoak(b, duration)
  {
    SameMembers(a, b);
    DistinctUpToOrder(a, b);
    forall i | 0 <= i < |b| ensures 1 <= b[i] <= duration { assert b[i] in a; }
  }

  /** Whether a plan is accepted does not depend on the order of its set fields. */
  lemma AcceptableUpToOrder(p: Plan, q: Plan)
    requires SameUpToOrder(p, q) && Acceptable(p)
    ensures Acceptable(q)
  {
    SourcesUpToOrder(p.products, q.products);
    SameMembers(p.toolchains, q.toolchains);
    NamesUpToOrder(p.toolchains, q.toolchains);
    SameMembers(p.lockfiles, q.lockfiles);
    PathsUpToOrder(p.lockfiles, q.lockfiles);
    StringSetUpToOrder(p.properties, q.properties, true);
    StringSetUpToOrder(p.releases, q.releases, true);
    StringSetUpToOrder(p.paths, q.paths, true);
    StringSetUpToOrder(p.effects, q.effects, false);
    StringSetUpToOrder(p.evidence, q.evidence, true);
    SoakUpToOrder(p.checkpoints, q.checkpoints, p.durationSeconds);
    hide StringSet, ValidSources, DistinctNames, DistinctPaths, ValidSoak;
  }

  lemma ArrangedIsSame(p: Plan, less: Collation)
    ensures SameUpToOrder(p, Arranged(p, less))
  {
  }

  // ---------------------------------------------------------------- the orders are strict

  lemma StringsOrdered(less: Collation, s: seq<string>)
    requires StrictCollation(less)
    ensures OrdersStrictly(less, s)
  {
  }

  lemma SourcesOrdered(less: Collation, ps: seq<Source>)
    requires StrictCollation(less) && ValidSources(ps)
    ensures OrdersStrictly(ByProduct(less), ps)
  {
  }

  lemma ToolchainsOrdered(less: Collation, ts: seq<Toolchain>)
    requires StrictCollation(less) && DistinctNames(ts)
    ensures OrdersStrictly(ByName(less), ts)
  {
  }

  lemma LockfilesOrdered(less: Collation, ls: seq<Lockfile>)
    requires StrictCollation(less) && DistinctPaths(ls)
    ensures OrdersStrictly(ByPath(less), ls)
  {
  }

  // ---------------------------------------------------------------- main results

  /** Sorting the set fields of two plans gives the same lists exactly when the plans agree up to
      their order. */
  lemma ArrangedDecides(p: Plan, q: Plan, less: Collation)
    requires StrictCollation(less) && Acceptable(p)
    ensures Arranged(p, less) == Arranged(q, less) <==> SameUpToOrder(p, q)
  {
    SourcesOrdered(less, p.products);
    ToolchainsOrdered(less, p.toolchains);
    LockfilesOrdered(less, p.lockfiles);
    StringsOrdered(less, p.properties);
    StringsOrdered(less, p.releases);
    StringsOrdered(less, p.paths);
    StringsOrdered(less, p.effects);
    StringsOrdered(less, p.evidence);
    hide OrdersStrictly, Acceptable, StrictCollation;
    SortCanonical(ByProduct(less), p.products, q.products);
    SortCanonical(ByName(less), p.toolchains, q.toolchains);
    SortCanonical(ByPath(less), p.lockfiles, q.lockfiles);
    SortCanonical(less, p.properties, q.properties);
    SortCanonical(less, p.releases, q.releases);
    SortCanonical(less, p.paths, q.paths);
    SortCanonical(less, p.effects, q.effects);
    SortCanonical(less, p.evidence, q.evidence);
    CheckpointsDecide(p.checkpoints, q.checkpoints);
  }

  lemma CheckpointsDecide(a: seq<nat>, b: seq<nat>)
    ensures Sort(Ascending(), a) == Sort(Ascending(), b) <==> multiset(a) == multiset(b)
  {
    SortCanonical(Ascending(), a, b);
  }

  /** Two accepted plans have one digest exactly when they agree up to the order of their set fields. */
  lemma DigestDecides(p: Plan, q: Plan, less: Collation)
    requires StrictCollation(less) && Acceptable(p) && Acceptable(q)
    ensures Canonicalize(p, less).value.digest == Canonicalize(q, less).value.digest <==> SameUpToOrder(p, q)
  {
    ArrangedDecides(p, q, less);
    hide Arranged, SameUpToOrder, Acceptable;
  }

  /** Permuting the set fields changes neither acceptance nor the canonical plan. */
  lemma PermutationInvariant(p: Plan, q: Plan, less: Collation)
    requires StrictCollation(less) && SameUpToOrder(p, q)
    ensures Canonicalize(p, less) == Canonicalize(q, less)
  {
    SameBackwards(p, q);
    if Acceptable(p) {
      AcceptableUpToOrder(p, q);
      ArrangedDecides(p, q, less);
    } else if Acceptable(q) {
      AcceptableUpToOrder(q, p);
    }
    hide Arranged, Acceptable, SameUpToOrder;
  }

  lemma SameBackwards(p: Plan, q: Plan)
    requires SameUpToOrder(p, q)
    ensures SameUpToOrder(q, p)
  {
  }

  /** Canonicalizing is idempotent once the digest is stripped, so the ledger accepts every plan that
      canonicalization made. */
  lemma CanonicalIsFixed(p: Plan, less: Collation)
    requires StrictCollation(less) && Canonicalize(p, less).Ok?
    ensures var c := Canonicalize(p, less).value;
            Canonicalize(c.body, less) == Ok(c) && CheckCanonical(c, less) == Ok(c)
  {
    ArrangedIsSame(p, less);
    PermutationInvariant(p, Arranged(p, less), less);
    hide Arranged, Acceptable, SameUpToOrder;
  }
}
