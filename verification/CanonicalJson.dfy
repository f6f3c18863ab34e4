/** Canonical JSON: objects are rebuilt with sorted keys, printed as JSON.stringify prints them, and two
    values print alike exactly when they are the same JSON value. */
module CanonicalJson {
  import opened Base
  import opened Order

  /** A UTF-16 code unit, and text as JavaScript strings hold it. */
  type Unit = u: int | 0 <= u < 0x1_0000
  type Text = seq<Unit>

  datatype Member = Member(key: Text, value: Value)

  // An object lists its members in insertion order.
  datatype Value =
    | Null
    | Bool(b: bool)
    | Num(n: int)
    | Str(s: Text)
    | Arr(items: seq<Value>)
    | Obj(members: seq<Member>)

  /** No object repeats a key. */
  predicate KeysDistinct(v: Value) {
    match v
    case Arr(items) => forall i | 0 <= i < |items| :: KeysDistinct(items[i])
    case Obj(ms) =>
      && (forall i, j | 0 <= i < j < |ms| :: ms[i].key != ms[j].key)
      && (forall i | 0 <= i < |ms| :: KeysDistinct(ms[i].value))
    case _ => true
  }

  // ---------------------------------------------------------------- key order

  /** Lexicographic order by code unit. */
  predicate UnitsLess(a: Text, b: Text) {
    if b == [] then false
    else if a == [] then true
    else if a[0] != b[0] then a[0] < b[0]
    else UnitsLess(a[1..], b[1..])
  }

  predicate MemberLess(a: Member, b: Member) {
    UnitsLess(a.key, b.key)
  }

  lemma {:induction false} UnitsIrreflexive(a: Text)
    ensures !UnitsLess(a, a)
  {
    if a != [] { UnitsIrreflexive(a[1..]); }
  }

  lemma {:induction false} UnitsTransitive(a: Text, b: Text, c: Text)
    requires UnitsLess(a, b) && UnitsLess(b, c)
    ensures UnitsLess(a, c)
  {
    if a != [] && a[0] == b[0] && b[0] == c[0] { UnitsTransitive(a[1..], b[1..], c[1..]); }
  }

  lemma {:induction false} UnitsConnected(a: Text, b: Text)
    requires a != b
    ensures UnitsLess(a, b) || UnitsLess(b, a)
  {
    if a != [] && b != [] && a[0] == b[0] {
      assert a == [a[0]] + a[1..] && b == [b[0]] + b[1..];
      UnitsConnected(a[1..], b[1..]);
    }
  }

  ghost predicate DistinctKeys(ms: seq<Member>) {
    forall i, j | 0 <= i < j < |ms| :: ms[i].key != ms[j].key
  }

  lemma MembersOrdered(ms: seq<Member>)
    requires DistinctKeys(ms)
    ensures OrdersStrictly(MemberLess, ms)
  {
    forall x | x in ms ensures !MemberLess(x, x) { UnitsIrreflexive(x.key); }
    forall x, y, z | x in ms && y in ms && z in ms && MemberLess(x, y) && MemberLess(y, z) ensures MemberLess(x, z) {
      UnitsTransitive(x.key, y.key, z.key);
    }
    forall x, y | x in ms && y in ms && x != y ensures MemberLess(x, y) || MemberLess(y, x) {
      UnitsConnected(x.key, y.key);
    }
  }

  // ---------------------------------------------------------------- JavaScript objects

  /** The code units of "__proto__". */
  const PROTO: Text := [95, 95, 112, 114, 111, 116, 111, 95, 95]

  /** Assigning to "__proto__" never makes an own property; any other key is set or appended. */
  function Assign(ms: seq<Member>, key: Text, value: Value): seq<Member> {
    if key == PROTO then ms
    else if ms == [] then [Member(key, value)]
    else if ms[0].key == key then [Member(key, value)] + ms[1..]
    else [ms[0]] + Assign(ms[1..], key, value)
  }

  predicate AllDigits(t: Text) {
    forall i | 0 <= i < |t| :: 48 <= t[i] <= 57
  }

  function DigitsValue(t: Text): nat
    requires AllDigits(t)
  {
    if t == [] then 0 else 10 * DigitsValue(t[..|t| - 1]) + (t[|t| - 1] - 48)
  }

  /** An array index in canonical decimal form. */
  predicate IsIndex(t: Text) {
    t != [] && AllDigits(t) && (t[0] == 48 ==> |t| == 1) && DigitsValue(t) < 0xFFFF_FFFF
  }

  predicate IndexLess(a: Member, b: Member) {
    IsIndex(a.key) && IsIndex(b.key) && DigitsValue(a.key) < DigitsValue(b.key)
  }

  function Filter(ms: seq<Member>, keep: Text -> bool): seq<Member> {
    if ms == [] then []
    else (if keep(ms[0].key) then [ms[0]] else []) + Filter(ms[1..], keep)
  }

  /** Own keys in enumeration order: array indices ascending, then the others as inserted. */
  function Enumerate(ms: seq<Member>): seq<Member> {
    Sort(IndexLess, Filter(ms, k => IsIndex(k))) + Filter(ms, k => !IsIndex(k))
  }

  function Own(ms: seq<Member>): seq<Member> {
    Filter(ms, k => k != PROTO)
  }

  /** The members of the rebuilt object in the order it is printed in. */
  function Arrange(ms: seq<Member>): seq<Member> {
    Enumerate(Own(Sort(MemberLess, ms)))
  }

  function CanonicalItems(items: seq<Value>): (r: seq<Value>)
    ensures |r| == |items|
  {
    if items == [] then [] else [Canonical(items[0])] + CanonicalItems(items[1..])
  }

  function CanonicalMembers(ms: seq<Member>): (r: seq<Member>)
    ensures |r| == |ms|
  {
    if ms == [] then [] else [Member(ms[0].key, Canonical(ms[0].value))] + CanonicalMembers(ms[1..])
  }

  /** The value with every object's keys sorted. */
  function Canonical(v: Value): Value {
    match v
    case Arr(items) => Arr(CanonicalItems(items))
    case Obj(ms) => Obj(Arrange(CanonicalMembers(ms)))
    case _ => v
  }

  method SortMembers(ms: seq<Member>) returns (r: seq<Member>)
    requires DistinctKeys(ms)
    ensures r == Arrange(ms)
  {
    var keys := Sort(MemberLess, ms);
    SortKeepsDistinct(ms);
    var sorted: seq<Member> := [];
    for i := 0 to |keys|
      invariant sorted == Own(keys[..i])
    {
      TakeNext(keys, i);
      FilterAppend(keys[..i], [keys[i]], k => k != PROTO);
      AssignNew(keys, i);
      sorted := Assign(sorted, keys[i].key, keys[i].value);
    }
    TakeAll(keys);
    return Enumerate(sorted);
  }

  /** Rebuilds the value the way the source does, object by object. */
  method SortKeys(v: Value) returns (r: Value)
    requires KeysDistinct(v)
    ensures r == Canonical(v)
    decreases v, 1
  {
    match v {
      case Arr(items) =>
        var out := SortItems(v);
        return Arr(out);
      case Obj(ms) =>
        var out := SortValues(v);
        CanonicalKeepsKeys(ms);
        var members := SortMembers(out);
        return Obj(members);
      case _ => return v;
    }
  }

  method SortItems(v: Value) returns (out: seq<Value>)
    requires v.Arr? && KeysDistinct(v)
    ensures out == CanonicalItems(v.items)
    decreases v, 0
  {
    var items := v.items;
    out := [];
    for i := 0 to |items|
      invariant out + CanonicalItems(items[i..]) == CanonicalItems(items)
    {
      DropNext(items, i);
      var item := SortKeys(items[i]);
      out := out + [item];
    }
    TakeAll(items);
  }

  method SortValues(v: Value) returns (out: seq<Member>)
    requires v.Obj? && KeysDistinct(v)
    ensures out == CanonicalMembers(v.members)
    decreases v, 0
  {
    var ms := v.members;
    out := [];
    for i := 0 to |ms|
      invariant out + CanonicalMembers(ms[i..]) == CanonicalMembers(ms)
    {
      DropNext(ms, i);
      var value := SortKeys(ms[i].value);
      out := out + [Member(ms[i].key, value)];
    }
    TakeAll(ms);
  }

  // ---------------------------------------------------------------- facts about filters

  lemma {:induction false} FilterAppend(a: seq<Member>, b: seq<Member>, keep: Text -> bool)
    ensures Filter(a + b, keep) == Filter(a, keep) + Filter(b, keep)
  {
    if a == [] {
      assert a + b == b;
    } else {
      assert (a + b)[1..] == a[1..] + b;
      FilterAppend(a[1..], b, keep);
    }
  }

  lemma FilterOne(m: Member, keep: Text -> bool)
    ensures Filter([m], keep) == if keep(m.key) then [m] else []
  {
    assert [m][1..] == [];
    assert Filter([], keep) == [];
  }

  lemma {:induction false} FilterMembers(ms: seq<Member>, keep: Text -> bool)
    ensures forall m :: m in Filter(ms, keep) <==> m in ms && keep(m.key)
    ensures DistinctKeys(ms) ==> DistinctKeys(Filter(ms, keep))
  {
    if ms != [] {
      FilterMembers(ms[1..], keep);
      assert ms == [ms[0]] + ms[1..];
      if DistinctKeys(ms) {
        assert forall m | m in ms[1..] :: m.key != ms[0].key;
      }
    }
  }

  /** Splitting by a test keeps every member once. */
  lemma {:induction false} FilterSplits(ms: seq<Member>, keep: Text -> bool)
    ensures multiset(Filter(ms, keep)) + multiset(Filter(ms, k => !keep(k))) == multiset(ms)
  {
    if ms != [] {
      FilterSplits(ms[1..], keep);
      assert ms == [ms[0]] + ms[1..];
    }
  }

  lemma EnumerateKeeps(ms: seq<Member>)
    ensures multiset(Enumerate(ms)) == multiset(ms)
  {
    FilterSplits(ms, k => IsIndex(k));
    var others := k => !IsIndex(k);
    FilterSame(ms, k => !(k => IsIndex(k))(k), others);
  }

  lemma {:induction false} FilterSame(ms: seq<Member>, f: Text -> bool, g: Text -> bool)
    requires forall k :: f(k) == g(k)
    ensures Filter(ms, f) == Filter(ms, g)
  {
    if ms != [] { FilterSame(ms[1..], f, g); }
  }

  lemma SortKeepsDistinct(ms: seq<Member>)
    requires DistinctKeys(ms)
    ensures DistinctKeys(Sort(MemberLess, ms))
  {
    MembersOrdered(ms);
    SortSorted(MemberLess, ms);
    var s := Sort(MemberLess, ms);
    SameMembers(s, ms);
    forall i, j | 0 <= i < j < |s| ensures s[i].key != s[j].key {
      if s[i].key == s[j].key {
        assert s[i] in ms && s[j] in ms;
        assert s[i] == s[j];
        Twice(s, i, j);
        DistinctCounts(ms, s[i]);
      }
    }
  }

  lemma {:induction false} DistinctCounts(ms: seq<Member>, m: Member)
    requires DistinctKeys(ms)
    ensures multiset(ms)[m] == if m in ms then 1 else 0
  {
    if ms != [] {
      assert ms == [ms[0]] + ms[1..];
      assert forall x | x in ms[1..] :: x.key != ms[0].key;
      DistinctCounts(ms[1..], m);
    }
  }

  lemma {:induction false} AssignAppends(ms: seq<Member>, key: Text, value: Value)
    requires key != PROTO && forall m | m in ms :: m.key != key
    ensures Assign(ms, key, value) == ms + [Member(key, value)]
  {
    if ms != [] {
      assert ms[0] in ms && forall m | m in ms[1..] :: m in ms;
      AssignAppends(ms[1..], key, value);
      assert ms == [ms[0]] + ms[1..];
    }
  }

  lemma AssignNew(keys: seq<Member>, i: nat)
    requires DistinctKeys(keys) && i < |keys|
    ensures Assign(Own(keys[..i]), keys[i].key, keys[i].value) == Own(keys[..i]) + Own([keys[i]])
  {
    FilterMembers(keys[..i], k => k != PROTO);
    FilterOne(keys[i], k => k != PROTO);
    if keys[i].key != PROTO {
      AssignAppends(Own(keys[..i]), keys[i].key, keys[i].value);
    }
  }

  lemma {:induction false} CanonicalKeepsKeys(ms: seq<Member>)
    ensures forall i | 0 <= i < |ms| :: CanonicalMembers(ms)[i] == Member(ms[i].key, Canonical(ms[i].value))
  {
    if ms != [] {
      CanonicalKeepsKeys(ms[1..]);
      forall i | 0 <= i < |ms| ensures CanonicalMembers(ms)[i] == Member(ms[i].key, Canonical(ms[i].value)) {
        if i > 0 { assert ms[i] == ms[1..][i - 1]; }
      }
    }
  }

  lemma {:induction false} CanonicalItemsAt(items: seq<Value>)
    ensures forall i | 0 <= i < |items| :: CanonicalItems(items)[i] == Canonical(items[i])
  {
    if items != [] {
      CanonicalItemsAt(items[1..]);
      forall i | 0 <= i < |items| ensures CanonicalItems(items)[i] == Canonical(items[i]) {
        if i > 0 { assert items[i] == items[1..][i - 1]; }
      }
    }
  }

  // ---------------------------------------------------------------- equal JSON values

  /** Equal but for the order of object members; only own members count. */
  predicate SameJson(a: Value, b: Value) {
    match a
    case Arr(xs) =>
      b.Arr? && |xs| == |b.items| && forall i | 0 <= i < |xs| :: SameJson(xs[i], b.items[i])
    case Obj(ms) => b.Obj? && Matched(ms, b.members)
    case _ => a == b
  }

  predicate MatchAt(a: seq<Member>, i: nat, b: seq<Member>, j: nat)
    requires i < |a| && j < |b|
    decreases a, 0, 0
  {
    a[i].key == b[j].key && SameJson(a[i].value, b[j].value)
  }

  /** Every own member of either list has a partner in the other. */
  predicate Matched(a: seq<Member>, b: seq<Member>)
    decreases a, 1
  {
    && (forall i {:trigger HasPartner(a, i, b)} | 0 <= i < |a| :: a[i].key == PROTO || HasPartner(a, i, b))
    && (forall j {:trigger IsPartner(a, b, j)} | 0 <= j < |b| :: b[j].key == PROTO || IsPartner(a, b, j))
  }

  predicate HasPartner(a: seq<Member>, i: nat, b: seq<Member>)
    requires i < |a|
    decreases a, 0, 1
  {
    exists j | 0 <= j < |b| :: MatchAt(a, i, b, j)
  }

  predicate IsPartner(a: seq<Member>, b: seq<Member>, j: nat)
    requires j < |b|
    decreases a, 0, 1
  {
    exists i | 0 <= i < |a| :: MatchAt(a, i, b, j)
  }

  /** Own members determine the arranged list, in whatever order they were inserted. */
  lemma ArrangeCanonical(a: seq<Member>, b: seq<Member>)
    requires DistinctKeys(a) && DistinctKeys(b)
    ensures Arrange(a) == Arrange(b) <==> (forall m: Member | m.key != PROTO :: m in a <==> m in b)
  {
    var sa, sb := Own(Sort(MemberLess, a)), Own(Sort(MemberLess, b));
    OwnSorted(a);
    OwnSorted(b);
    EnumerateKeeps(sa);
    EnumerateKeeps(sb);
    if Arrange(a) == Arrange(b) {
      SameMembers(sa, sb);
    } else if forall m: Member | m.key != PROTO :: m in a <==> m in b {
      SameOwnSortedMembers(a, b, sa, sb);
    }
  }

  /** The own members in sorted order. */
  lemma OwnSorted(ms: seq<Member>)
    requires DistinctKeys(ms)
    ensures var s := Own(Sort(MemberLess, ms));
            && Sorted(MemberLess, s) && DistinctKeys(s)
            && forall m :: m in s <==> m in ms && m.key != PROTO
  {
    var sorted := Sort(MemberLess, ms);
    MembersOrdered(ms);
    SortSorted(MemberLess, ms);
    SortKeepsDistinct(ms);
    SameMembers(sorted, ms);
    FilterMembers(sorted, k => k != PROTO);
    FilterSorted(sorted, k => k != PROTO);
  }

  lemma {:induction false} FilterSorted(ms: seq<Member>, keep: Text -> bool)
    requires Sorted(MemberLess, ms)
    ensures Sorted(MemberLess, Filter(ms, keep))
  {
    if ms != [] {
      SortedTail(MemberLess, ms);
      FilterSorted(ms[1..], keep);
      FilterMembers(ms[1..], keep);
      if keep(ms[0].key) { SortedCons(MemberLess, ms[0], Filter(ms[1..], keep)); }
    }
  }

  lemma SameOwnSortedMembers(a: seq<Member>, b: seq<Member>, sa: seq<Member>, sb: seq<Member>)
    requires DistinctKeys(sa) && DistinctKeys(sb) && Sorted(MemberLess, sa) && Sorted(MemberLess, sb)
    requires forall m :: m in sa <==> m in a && m.key != PROTO
    requires forall m :: m in sb <==> m in b && m.key != PROTO
    requires forall m: Member | m.key != PROTO :: m in a <==> m in b
    ensures sa == sb
  {
    forall m ensures multiset(sa)[m] == multiset(sb)[m] {
      DistinctCounts(sa, m);
      DistinctCounts(sb, m);
    }
    MembersOrdered(sa);
    SortedUnique(MemberLess, sa, sb);
  }

  lemma CanonicalDistinct(ms: seq<Member>)
    requires DistinctKeys(ms)
    ensures DistinctKeys(CanonicalMembers(ms))
    ensures forall m :: m in CanonicalMembers(ms) <==>
              exists i | 0 <= i < |ms| :: m == Member(ms[i].key, Canonical(ms[i].value))
  {
    CanonicalKeepsKeys(ms);
    var c := CanonicalMembers(ms);
    forall m | exists i | 0 <= i < |ms| :: m == Member(ms[i].key, Canonical(ms[i].value)) ensures m in c {
      var i :| 0 <= i < |ms| && m == Member(ms[i].key, Canonical(ms[i].value));
      assert c[i] == m;
    }
  }

  /** Two values have one canonical form exactly when they are the same JSON value. */
  lemma {:induction false} CanonicalDecides(a: Value, b: Value)
    requires KeysDistinct(a) && KeysDistinct(b)
    ensures Canonical(a) == Canonical(b) <==> SameJson(a, b)
    decreases a
  {
    if a.Arr? && b.Arr? {
      CanonicalItemsAt(a.items);
      CanonicalItemsAt(b.items);
      if |a.items| == |b.items| {
        forall i | 0 <= i < |a.items| ensures Canonical(a.items[i]) == Canonical(b.items[i]) <==> SameJson(a.items[i], b.items[i]) {
          CanonicalDecides(a.items[i], b.items[i]);
        }
        if SameJson(a, b) { assert CanonicalItems(a.items) == CanonicalItems(b.items); }
        if Canonical(a) == Canonical(b) {
          forall i | 0 <= i < |a.items| ensures SameJson(a.items[i], b.items[i]) {
            assert CanonicalItems(a.items)[i] == CanonicalItems(b.items)[i];
          }
        }
      }
    } else if a.Obj? && b.Obj? {
      forall i, j | 0 <= i < |a.members| && 0 <= j < |b.members|
        ensures Canonical(a.members[i].value) == Canonical(b.members[j].value) <==>
                SameJson(a.members[i].value, b.members[j].value)
      {
        CanonicalDecides(a.members[i].value, b.members[j].value);
      }
      ObjectsDecide(a.members, b.members);
    }
  }

  /** The canonical form decides whether the members at `i` and `j` match. */
  ghost predicate Decided(a: seq<Member>, b: seq<Member>) {
    forall i, j {:trigger MatchAt(a, i, b, j)} | 0 <= i < |a| && 0 <= j < |b| ::
      MatchAt(a, i, b, j) <==> CanonicalMembers(a)[i] == CanonicalMembers(b)[j]
  }

  /** The objects' own members match up, given that the canonical form decides their values. */
  lemma ObjectsDecide(a: seq<Member>, b: seq<Member>)
    requires DistinctKeys(a) && DistinctKeys(b)
    requires forall i, j | 0 <= i < |a| && 0 <= j < |b| ::
      Canonical(a[i].value) == Canonical(b[j].value) <==> SameJson(a[i].value, b[j].value)
    ensures Canonical(Obj(a)) == Canonical(Obj(b)) <==> SameJson(Obj(a), Obj(b))
  {
    CanonicalKeepsKeys(a);
    CanonicalKeepsKeys(b);
    assert Decided(a, b);
    ArrangeCanonical(CanonicalMembers(a), CanonicalMembers(b)) by {
      CanonicalDistinct(a);
      CanonicalDistinct(b);
    }
    MembersDecide(a, b, CanonicalMembers(a), CanonicalMembers(b));
  }

  lemma MembersDecide(a: seq<Member>, b: seq<Member>, ca: seq<Member>, cb: seq<Member>)
    requires Decided(a, b) && ca == CanonicalMembers(a) && cb == CanonicalMembers(b)
    requires forall i | 0 <= i < |a| :: ca[i].key == a[i].key
    requires forall j | 0 <= j < |b| :: cb[j].key == b[j].key
    ensures Matched(a, b) <==> forall m: Member | m.key != PROTO :: m in ca <==> m in cb
  {
    hide SameJson, MatchAt, CanonicalMembers;
    if Matched(a, b) {
      forall m: Member | m.key != PROTO ensures m in ca <==> m in cb {
        if i :| 0 <= i < |ca| && ca[i] == m {
          assert HasPartner(a, i, b);
          var j :| 0 <= j < |b| && MatchAt(a, i, b, j);
        }
        if j :| 0 <= j < |cb| && cb[j] == m {
          assert IsPartner(a, b, j);
          var i :| 0 <= i < |a| && MatchAt(a, i, b, j);
        }
      }
    }
    if forall m: Member | m.key != PROTO :: m in ca <==> m in cb {
      forall i | 0 <= i < |a| && a[i].key != PROTO ensures HasPartner(a, i, b) {
        assert ca[i] in ca && ca[i] in cb;
        var j :| 0 <= j < |cb| && cb[j] == ca[i];
        assert MatchAt(a, i, b, j);
      }
      forall j | 0 <= j < |b| && b[j].key != PROTO ensures IsPartner(a, b, j) {
        assert cb[j] in cb && cb[j] in ca;
        var i :| 0 <= i < |ca| && ca[i] == cb[j];
        assert MatchAt(a, i, b, j);
      }
    }
  }
}
