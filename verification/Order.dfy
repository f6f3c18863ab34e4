/** Strict orders, the sorted form of a list, and fixed-width decimal names. */
module Order {

  // ---------------------------------------------------------------- sorting

  /** `less` totally and strictly orders the members of `s`. */
  ghost predicate OrdersStrictly<T(!new)>(less: (T, T) -> bool, s: seq<T>) {
    && (forall x | x in s :: !less(x, x))
    && (forall x, y, z | x in s && y in s && z in s && less(x, y) && less(y, z) :: less(x, z))
    && (forall x, y | x in s && y in s && x != y :: less(x, y) || less(y, x))
  }

  ghost predicate Sorted<T(!new)>(less: (T, T) -> bool, s: seq<T>) {
    forall i, j | 0 <= i < j < |s| :: !less(s[j], s[i])
  }

  function Insert<T>(less: (T, T) -> bool, x: T, s: seq<T>): (r: seq<T>)
    ensures multiset(r) == multiset(s) + multiset{x}
  {
    if s == [] then [x]
    else if less(x, s[0]) then [x] + s
    else
      assert s == [s[0]] + s[1..];
      [s[0]] + Insert(less, x, s[1..])
  }

  /** The list a stable comparison sort returns. */
  function Sort<T>(less: (T, T) -> bool, s: seq<T>): (r: seq<T>)
    ensures multiset(r) == multiset(s)
  {
    if s == [] then []
    else
      assert s == s[..|s| - 1] + [s[|s| - 1]];
      Insert(less, s[|s| - 1], Sort(less, s[..|s| - 1]))
  }

  lemma SameMembers<T(!new)>(a: seq<T>, b: seq<T>)
    requires multiset(a) == multiset(b)
    ensures |a| == |b|
    ensures forall x :: x in a <==> x in b
  {
    assert |multiset(a)| == |a| && |multiset(b)| == |b|;
    forall x ensures x in a <==> x in b {
      assert x in a <==> x in multiset(a);
      assert x in b <==> x in multiset(b);
    }
  }

  /** An element at two places counts twice. */
  lemma Twice<T(!new)>(s: seq<T>, i: nat, j: nat)
    requires i < j < |s| && s[i] == s[j]
    ensures multiset(s)[s[i]] >= 2
  {
    assert s == s[..j] + s[j..];
    assert s[..j][i] == s[i] && s[j..][0] == s[j];
    assert s[i] in multiset(s[..j]) && s[i] in multiset(s[j..]);
  }

  lemma SortedCons<T(!new)>(less: (T, T) -> bool, x: T, s: seq<T>)
    requires Sorted(less, s) && forall y | y in s :: !less(y, x)
    ensures Sorted(less, [x] + s)
  {
    var r := [x] + s;
    forall i, j | 0 <= i < j < |r| ensures !less(r[j], r[i]) {
      assert r[j] == s[j - 1] && r[j] in s;
      if i > 0 { assert r[i] == s[i - 1]; }
    }
  }

  lemma SortedTail<T(!new)>(less: (T, T) -> bool, s: seq<T>)
    requires Sorted(less, s) && s != []
    ensures Sorted(less, s[1..]) && forall y | y in s[1..] :: !less(y, s[0])
  {
  }

  lemma {:induction false} InsertSorted<T(!new)>(less: (T, T) -> bool, x: T, s: seq<T>)
    requires Sorted(less, s) && OrdersStrictly(less, s + [x])
    ensures Sorted(less, Insert(less, x, s))
  {
    if s == [] {
    } else if less(x, s[0]) {
      FrontSmallest(less, x, s);
      SortedCons(less, x, s);
    } else {
      var rest := s[1..];
      SortedTail(less, s);
      assert forall y | y in rest + [x] :: y in s + [x];
      InsertSorted(less, x, rest);
      SameMembers(Insert(less, x, rest), rest + [x]);
      SortedCons(less, s[0], Insert(less, x, rest));
    }
  }

  lemma FrontSmallest<T(!new)>(less: (T, T) -> bool, x: T, s: seq<T>)
    requires s != [] && Sorted(less, s) && OrdersStrictly(less, s + [x]) && less(x, s[0])
    ensures forall y | y in s :: !less(y, x)
  {
    var all := s + [x];
    assert s[0] in all && x in all;
    forall y | y in s ensures !less(y, x) {
      assert y in all;
      var k :| 0 <= k < |s| && s[k] == y;
      if k > 0 { assert !less(s[k], s[0]); }
    }
  }

  lemma {:induction false} SortSorted<T(!new)>(less: (T, T) -> bool, s: seq<T>)
    requires OrdersStrictly(less, s)
    ensures Sorted(less, Sort(less, s))
  {
    if s != [] {
      var front := s[..|s| - 1];
      var x := s[|s| - 1];
      assert forall y | y in front :: y in s;
      SortSorted(less, front);
      var sorted := Sort(less, front);
      SameMembers(sorted, front);
      assert forall y | y in sorted + [x] :: y in s;
      InsertSorted(less, x, sorted);
    }
  }

  lemma OrdersFewer<T(!new)>(less: (T, T) -> bool, a: seq<T>, b: seq<T>)
    requires OrdersStrictly(less, a) && forall x | x in b :: x in a
    ensures OrdersStrictly(less, b)
  {
  }

  lemma SortedHeadsAgree<T(!new)>(less: (T, T) -> bool, a: seq<T>, b: seq<T>)
    requires OrdersStrictly(less, a) && Sorted(less, a) && Sorted(less, b)
    requires a != [] && b != [] && a[0] in b && b[0] in a
    ensures a[0] == b[0]
  {
    var i :| 0 <= i < |a| && a[i] == b[0];
    var j :| 0 <= j < |b| && b[j] == a[0];
    if i > 0 && j > 0 {
      assert !less(b[0], a[0]) && !less(a[0], b[0]);
      assert a[0] in a;
    }
  }

  /** A list has one sorted arrangement. */
  lemma {:induction false} SortedUnique<T(!new)>(less: (T, T) -> bool, a: seq<T>, b: seq<T>)
    requires OrdersStrictly(less, a) && Sorted(less, a) && Sorted(less, b)
    requires multiset(a) == multiset(b)
    ensures a == b
    decreases |a|
  {
    SameMembers(a, b);
    if a != [] {
      assert a[0] in a && b[0] in b;
      SortedHeadsAgree(less, a, b);
      TailsAgree(a, b);
      OrdersFewer(less, a, a[1..]);
      TailsSorted(less, a, b);
      SortedUnique(less, a[1..], b[1..]);
      assert a == [a[0]] + a[1..] && b == [b[0]] + b[1..];
    }
  }

  lemma TailsAgree<T(!new)>(a: seq<T>, b: seq<T>)
    requires a != [] && b != [] && a[0] == b[0] && multiset(a) == multiset(b)
    ensures multiset(a[1..]) == multiset(b[1..])
  {
    assert a == [a[0]] + a[1..] && b == [b[0]] + b[1..];
    assert multiset(a[1..]) == multiset(a) - multiset{a[0]} == multiset(b[1..]);
  }

  lemma TailsSorted<T(!new)>(less: (T, T) -> bool, a: seq<T>, b: seq<T>)
    requires a != [] && b != [] && Sorted(less, a) && Sorted(less, b)
    ensures Sorted(less, a[1..]) && Sorted(less, b[1..])
  {
  }

  /** Under a strict order, two lists sort alike exactly when one permutes the other. */
  lemma SortCanonical<T(!new)>(less: (T, T) -> bool, a: seq<T>, b: seq<T>)
    requires OrdersStrictly(less, a)
    ensures Sort(less, a) == Sort(less, b) <==> multiset(a) == multiset(b)
  {
    if multiset(a) == multiset(b) {
      SameMembers(a, b);
      assert OrdersStrictly(less, b);
      SortSorted(less, a);
      SortSorted(less, b);
      SameMembers(Sort(less, a), a);
      assert OrdersStrictly(less, Sort(less, a));
      SortedUnique(less, Sort(less, a), Sort(less, b));
    } else {
      assert multiset(Sort(less, a)) == multiset(a);
      assert multiset(Sort(less, b)) == multiset(b);
    }
  }

  // ---------------------------------------------------------------- text order

  /** Lexicographic order of strings by character code. */
  predicate TextLess(a: string, b: string) {
    if b == [] then false
    else if a == [] then true
    else if a[0] != b[0] then a[0] < b[0]
    else TextLess(a[1..], b[1..])
  }

  lemma {:induction false} TextIrreflexive(a: string)
    ensures !TextLess(a, a)
  {
    if a != [] { TextIrreflexive(a[1..]); }
  }

  lemma {:induction false} TextTransitive(a: string, b: string, c: string)
    requires TextLess(a, b) && TextLess(b, c)
    ensures TextLess(a, c)
  {
    if a != [] && a[0] == b[0] && b[0] == c[0] {
      TextTransitive(a[1..], b[1..], c[1..]);
    }
  }

  lemma {:induction false} TextConnected(a: string, b: string)
    requires a != b
    ensures TextLess(a, b) || TextLess(b, a)
  {
    if a != [] && b != [] && a[0] == b[0] {
      assert a == [a[0]] + a[1..] && b == [b[0]] + b[1..];
      TextConnected(a[1..], b[1..]);
    }
  }

  /** Names of one length compare on the first part that differs. */
  lemma {:induction false} TextLessOnPrefix(a: string, b: string, x: string, y: string)
    requires |a| == |b|
    ensures TextLess(a + x, b + y) <==> TextLess(a, b) || (a == b && TextLess(x, y))
  {
    if a == [] {
      assert a + x == x && b + y == y;
    } else {
      assert (a + x)[1..] == a[1..] + x && (b + y)[1..] == b[1..] + y;
      assert a == [a[0]] + a[1..] && b == [b[0]] + b[1..];
      TextLessOnPrefix(a[1..], b[1..], x, y);
    }
  }

  // ---------------------------------------------------------------- fixed-width decimal names

  function Power10(width: nat): nat {
    if width == 0 then 1 else 10 * Power10(width - 1)
  }

  function Digit(d: nat): char
    requires d < 10
  {
    '0' + d as char
  }

  predicate IsDigit(c: char) {
    '0' as int <= c as int <= '9' as int
  }

  function DigitValue(c: char): nat
    requires IsDigit(c)
  {
    c as int - '0' as int
  }

  /** `n` in decimal, padded on the left with zeros to `width` characters. */
  function Pad(n: nat, width: nat): (s: string)
    requires n < Power10(width)
    ensures |s| == width && forall c | c in s :: IsDigit(c)
  {
    if width == 0 then ""
    else Pad(n / 10, width - 1) + [Digit(n % 10)]
  }

  function ParseDecimal(s: string): nat
    requires forall c | c in s :: IsDigit(c)
  {
    if s == "" then 0
    else
      assert s[|s| - 1] in s;
      10 * ParseDecimal(s[..|s| - 1]) + DigitValue(s[|s| - 1])
  }

  lemma {:induction false} ParseInvertsPad(n: nat, width: nat)
    requires n < Power10(width)
    ensures ParseDecimal(Pad(n, width)) == n
  {
    if width > 0 {
      ParseInvertsPad(n / 10, width - 1);
      var s := Pad(n, width);
      assert s[..|s| - 1] == Pad(n / 10, width - 1);
    }
  }

  lemma PadInjective(m: nat, n: nat, width: nat)
    requires m < Power10(width) && n < Power10(width)
    ensures Pad(m, width) == Pad(n, width) <==> m == n
  {
    ParseInvertsPad(m, width);
    ParseInvertsPad(n, width);
  }

  lemma DigitOrder(a: nat, b: nat)
    requires a < 10 && b < 10
    ensures TextLess([Digit(a)], [Digit(b)]) <==> a < b
  {
    assert [Digit(a)][1..] == "" && [Digit(b)][1..] == "";
  }

  /** The order of zero-padded names is the order of the numbers they stand for. */
  lemma {:induction false} PadOrder(m: nat, n: nat, width: nat)
    requires m < Power10(width) && n < Power10(width)
    ensures TextLess(Pad(m, width), Pad(n, width)) <==> m < n
  {
    if width > 0 {
      PadOrder(m / 10, n / 10, width - 1);
      PadInjective(m / 10, n / 10, width - 1);
      DigitOrder(m % 10, n % 10);
      TextLessOnPrefix(Pad(m / 10, width - 1), Pad(n / 10, width - 1), [Digit(m % 10)], [Digit(n % 10)]);
    }
  }
}
