/** The printed form of JSON values and a parser that inverts it. */
module JsonText {
  import opened Base
  import opened Order
  import opened CanonicalJson

  // ---------------------------------------------------------------- printing

  const NULL_TEXT: Text := [110, 117, 108, 108]
  const TRUE_TEXT: Text := [116, 114, 117, 101]
  const FALSE_TEXT: Text := [102, 97, 108, 115, 101]

  function Decimal(n: nat): Text {
    if n < 10 then [48 + n] else Decimal(n / 10) + [48 + n % 10]
  }

  function HexUnit(n: nat): Unit
    requires n < 16
  {
    if n < 10 then 48 + n else 87 + n
  }

  function Hex4(u: Unit): Text {
    [HexUnit(u / 16 / 16 / 16), HexUnit(u / 16 / 16 % 16), HexUnit(u / 16 % 16), HexUnit(u % 16)]
  }

  predicate IsHigh(u: Unit) {
    0xD800 <= u <= 0xDBFF
  }

  predicate IsLow(u: Unit) {
    0xDC00 <= u <= 0xDFFF
  }

  function EscapeUnit(u: Unit): Text {
    if u == 34 || u == 92 then [92, u]
    else if u == 8 then [92, 98]
    else if u == 12 then [92, 102]
    else if u == 10 then [92, 110]
    else if u == 13 then [92, 114]
    else if u == 9 then [92, 116]
    else if u < 32 || IsHigh(u) || IsLow(u) then [92, 117] + Hex4(u)
    else [u]
  }

  /** Surrogate pairs stay as they are; lone surrogates are escaped. */
  function Escape(s: Text): Text {
    if s == [] then []
    else if |s| > 1 && IsHigh(s[0]) && IsLow(s[1]) then s[..2] + Escape(s[2..])
    else EscapeUnit(s[0]) + Escape(s[1..])
  }

  function Quote(s: Text): Text {
    [34] + Escape(s) + [34]
  }

  function Print(v: Value): Text {
    match v
    case Null => NULL_TEXT
    case Bool(b) => if b then TRUE_TEXT else FALSE_TEXT
    case Num(n) => if n < 0 then [45] + Decimal(-n) else Decimal(n)
    case Str(s) => Quote(s)
    case Arr(items) => [91] + PrintItems(items) + [93]
    case Obj(ms) => [123] + PrintMembers(ms) + [125]
  }

  function PrintItems(items: seq<Value>): Text {
    if items == [] then []
    else Print(items[0]) + (if |items| == 1 then [] else [44] + PrintItems(items[1..]))
  }

  function PrintMembers(ms: seq<Member>): Text {
    if ms == [] then []
    else Quote(ms[0].key) + [58] + Print(ms[0].value) +
         (if |ms| == 1 then [] else [44] + PrintMembers(ms[1..]))
  }

  /** What `canonicalJson` returns. */
  function CanonicalText(v: Value): Text {
    Print(Canonical(v))
  }

  method CanonicalJsonOf(v: Value) returns (t: Text)
    requires KeysDistinct(v)
    ensures t == CanonicalText(v)
  {
    var sorted := SortKeys(v);
    t := Print(sorted);
  }

  // ---------------------------------------------------------------- parsing

  function HexOf(u: Unit): Option<nat> {
    if 48 <= u <= 57 then Some(u - 48)
    else if 97 <= u <= 102 then Some(u - 87)
    else if 65 <= u <= 70 then Some(u - 55)
    else None
  }

  function ParseHex4(t: Text): Option<Unit>
    requires |t| >= 4
  {
    var a, b, c, d := HexOf(t[0]), HexOf(t[1]), HexOf(t[2]), HexOf(t[3]);
    if a.None? || b.None? || c.None? || d.None? then None
    else Some(((a.value * 16 + b.value) * 16 + c.value) * 16 + d.value)
  }

  function SimpleEscape(u: Unit): Option<Unit> {
    if u == 34 || u == 92 || u == 47 then Some(u)
    else if u == 98 then Some(8)
    else if u == 102 then Some(12)
    else if u == 110 then Some(10)
    else if u == 114 then Some(13)
    else if u == 116 then Some(9)
    else None
  }

  /** One character of a string literal and what follows it. */
  function ParseUnit(t: Text): (r: Option<(Unit, Text)>)
    ensures r.Some? ==> |r.value.1| < |t|
  {
    if t == [] || t[0] < 32 || t[0] == 34 then None
    else if t[0] != 92 then Some((t[0], t[1..]))
    else if |t| < 2 then None
    else if SimpleEscape(t[1]).Some? then Some((SimpleEscape(t[1]).value, t[2..]))
    else if t[1] == 117 && |t| >= 6 && ParseHex4(t[2..]).Some? then Some((ParseHex4(t[2..]).value, t[6..]))
    else None
  }

  /** The rest of a string literal, after its opening quote. */
  function ParseString(t: Text): (r: Option<(Text, Text)>)
    ensures r.Some? ==> |r.value.1| < |t|
    decreases |t|
  {
    if t != [] && t[0] == 34 then Some(([], t[1..]))
    else
      match ParseUnit(t)
      case None => None
      case Some(p) =>
        match ParseString(p.1)
        case None => None
        case Some(q) => Some(([p.0] + q.0, q.1))
  }

  predicate StartsDigit(t: Text) {
    t != [] && 48 <= t[0] <= 57
  }

  function ReadDigits(acc: nat, t: Text): (r: (nat, Text))
    ensures |r.1| <= |t|
    decreases |t|
  {
    if StartsDigit(t) then ReadDigits(acc * 10 + (t[0] - 48), t[1..]) else (acc, t)
  }

  /** A zero stands alone: no number has a leading zero. */
  function ReadNumber(t: Text): (r: (nat, Text))
    requires StartsDigit(t)
    ensures |r.1| < |t|
  {
    if t[0] == 48 then (0, t[1..]) else ReadDigits(t[0] - 48, t[1..])
  }

  /** Minus zero is not a value here. */
  function ParseNumber(t: Text): (r: Option<(Value, Text)>)
    ensures r.Some? ==> |r.value.1| < |t|
  {
    if StartsDigit(t) then
      var p := ReadNumber(t);
      Some((Num(p.0), p.1))
    else if t != [] && t[0] == 45 && StartsDigit(t[1..]) && t[1] != 48 then
      var p := ReadNumber(t[1..]);
      Some((Num(0 - p.0), p.1))
    else None
  }

  function ParseWord(t: Text): (r: Option<(Value, Text)>)
    ensures r.Some? ==> |r.value.1| < |t|
  {
    if NULL_TEXT <= t then Some((Null, t[4..]))
    else if TRUE_TEXT <= t then Some((Bool(true), t[4..]))
    else if FALSE_TEXT <= t then Some((Bool(false), t[5..]))
    else None
  }

  function ParseValue(t: Text): (r: Option<(Value, Text)>)
    ensures r.Some? ==> |r.value.1| < |t|
    decreases |t|, 0
  {
    if t == [] then None
    else if t[0] == 34 then
      match ParseString(t[1..])
      case None => None
      case Some(p) => Some((Str(p.0), p.1))
    else if t[0] == 91 then
      if |t| > 1 && t[1] == 93 then Some((Arr([]), t[2..]))
      else
        match ParseItems(t[1..])
        case None => None
        case Some(p) => Some((Arr(p.0), p.1))
    else if t[0] == 123 then
      if |t| > 1 && t[1] == 125 then Some((Obj([]), t[2..]))
      else
        match ParseMembers(t[1..])
        case None => None
        case Some(p) => Some((Obj(p.0), p.1))
    else if t[0] == 45 || StartsDigit(t) then ParseNumber(t)
    else ParseWord(t)
  }

  /** The items up to the closing bracket. */
  function ParseItems(t: Text): (r: Option<(seq<Value>, Text)>)
    ensures r.Some? ==> |r.value.1| < |t|
    decreases |t|, 1
  {
    match ParseValue(t)
    case None => None
    case Some(p) =>
      if p.1 == [] then None
      else if p.1[0] == 93 then Some(([p.0], p.1[1..]))
      else if p.1[0] != 44 then None
      else
        match ParseItems(p.1[1..])
        case None => None
        case Some(q) => Some(([p.0] + q.0, q.1))
  }

  /** One key and its value. */
  function ParseMember(t: Text): (r: Option<(Member, Text)>)
    ensures r.Some? ==> |r.value.1| < |t|
    decreases |t|, 0
  {
    if t == [] || t[0] != 34 then None
    else
      match ParseString(t[1..])
      case None => None
      case Some(k) =>
        if k.1 == [] || k.1[0] != 58 then None
        else
          match ParseValue(k.1[1..])
          case None => None
          case Some(p) => Some((Member(k.0, p.0), p.1))
  }

  function ParseMembers(t: Text): (r: Option<(seq<Member>, Text)>)
    ensures r.Some? ==> |r.value.1| < |t|
    decreases |t|, 1
  {
    match ParseMember(t)
    case None => None
    case Some(p) =>
      if p.1 == [] then None
      else if p.1[0] == 125 then Some(([p.0], p.1[1..]))
      else if p.1[0] != 44 then None
      else
        match ParseMembers(p.1[1..])
        case None => None
        case Some(q) => Some(([p.0] + q.0, q.1))
  }

  // ---------------------------------------------------------------- strings read back

  lemma Hex4ReadsBack(u: Unit, rest: Text)
    ensures ParseHex4(Hex4(u) + rest) == Some(u)
  {
    var t := Hex4(u) + rest;
    assert t[0] == Hex4(u)[0] && t[1] == Hex4(u)[1] && t[2] == Hex4(u)[2] && t[3] == Hex4(u)[3];
    HexUnitReadsBack(u / 16 / 16 / 16);
    HexUnitReadsBack(u / 16 / 16 % 16);
    HexUnitReadsBack(u / 16 % 16);
    HexUnitReadsBack(u % 16);
  }

  lemma HexUnitReadsBack(n: nat)
    requires n < 16
    ensures HexOf(HexUnit(n)) == Some(n)
  {
  }

  lemma UnitReadsBack(u: Unit, rest: Text)
    ensures ParseUnit(EscapeUnit(u) + rest) == Some((u, rest))
  {
    var t := EscapeUnit(u) + rest;
    if |EscapeUnit(u)| == 6 {
      Hex4ReadsBack(u, rest);
      assert t[2..] == Hex4(u) + rest && t[6..] == rest;
    } else {
      assert t[|EscapeUnit(u)|..] == rest;
    }
  }

  /** One more character at the front of a literal. */
  lemma StringStep(front: Text, u: Unit, s: Text, tail: Text, rest: Text)
    requires front != [] && front[0] != 34 && ParseUnit(front + tail) == Some((u, tail))
    requires ParseString(tail) == Some((s, rest))
    ensures ParseString(front + tail) == Some(([u] + s, rest))
  {
  }

  lemma RawUnit(u: Unit, tail: Text)
    requires IsHigh(u) || IsLow(u)
    ensures ParseUnit([u] + tail) == Some((u, tail))
  {
    assert ([u] + tail)[1..] == tail;
  }

  /** The escaped text of a literal, cut after its first character or pair. */
  lemma EscapeCut(s: Text, rest: Text)
    requires s != []
    ensures Escape(s) + [34] + rest ==
            if |s| > 1 && IsHigh(s[0]) && IsLow(s[1])
            then [s[0]] + ([s[1]] + (Escape(s[2..]) + [34] + rest))
            else EscapeUnit(s[0]) + (Escape(s[1..]) + [34] + rest)
  {
    if |s| > 1 && IsHigh(s[0]) && IsLow(s[1]) {
      assert Escape(s) == s[..2] + Escape(s[2..]);
      hide Escape;
      AssociateLast(s[..2], Escape(s[2..]), [34], rest);
      PairFirst(s, Escape(s[2..]) + [34] + rest);
    } else {
      assert Escape(s) == EscapeUnit(s[0]) + Escape(s[1..]);
      hide Escape, EscapeUnit;
      AssociateLast(EscapeUnit(s[0]), Escape(s[1..]), [34], rest);
    }
  }

  lemma PairFirst(s: Text, tail: Text)
    requires |s| > 1
    ensures s[..2] + tail == [s[0]] + ([s[1]] + tail)
  {
  }

  lemma {:induction false} StringReadsBack(s: Text, rest: Text)
    ensures ParseString(Escape(s) + [34] + rest) == Some((s, rest))
    decreases |s|
  {
    if s == [] {
      assert (Escape(s) + [34] + rest)[1..] == rest;
    } else {
      EscapeCut(s, rest);
      if |s| > 1 && IsHigh(s[0]) && IsLow(s[1]) {
        var tail := Escape(s[2..]) + [34] + rest;
        StringReadsBack(s[2..], rest);
        RawUnit(s[1], tail);
        RawUnit(s[0], [s[1]] + tail);
        hide ParseUnit, ParseString, Escape;
        StringStep([s[1]], s[1], s[2..], tail, rest);
        StringStep([s[0]], s[0], [s[1]] + s[2..], [s[1]] + tail, rest);
        assert s == [s[0]] + ([s[1]] + s[2..]);
      } else {
        var tail := Escape(s[1..]) + [34] + rest;
        StringReadsBack(s[1..], rest);
        UnitReadsBack(s[0], tail);
        EscapeNeverStartsQuote(s[0], tail);
        hide ParseUnit, ParseString, Escape, EscapeUnit;
        StringStep(EscapeUnit(s[0]), s[0], s[1..], tail, rest);
        assert s == [s[0]] + s[1..];
      }
    }
  }

  lemma EscapeNeverStartsQuote(u: Unit, tail: Text)
    ensures EscapeUnit(u) != [] && EscapeUnit(u)[0] != 34
  {
  }

  // ---------------------------------------------------------------- numbers read back

  lemma {:induction false} DigitsReadBack(n: nat, rest: Text)
    requires !StartsDigit(rest)
    ensures StartsDigit(Decimal(n) + rest)
    ensures ReadNumber(Decimal(n) + rest) == (n, rest)
    ensures n > 0 ==> (Decimal(n) + rest)[0] != 48
  {
    DigitsReadOn(n, rest);
    NoLeadingZero(n);
    assert n > 0 ==> ReadDigits(n, rest) == (n, rest);
  }

  lemma {:induction false} NoLeadingZero(n: nat)
    ensures Decimal(n) != [] && (n > 0 ==> Decimal(n)[0] != 48)
    decreases n
  {
    if n >= 10 { NoLeadingZero(n / 10); }
  }

  /** Reading the digits of `n` leaves the reader with `n` before what follows. */
  lemma {:induction false} DigitsReadOn(n: nat, rest: Text)
    ensures StartsDigit(Decimal(n) + rest)
    ensures var t := Decimal(n) + rest; ReadDigits(t[0] - 48, t[1..]) == ReadDigits(n, rest)
    decreases n
  {
    var t := Decimal(n) + rest;
    if n < 10 {
      assert t[1..] == rest;
    } else {
      var digit: Text := [48 + n % 10];
      DigitsReadOn(n / 10, digit + rest);
      assert t == Decimal(n / 10) + (digit + rest);
      assert (digit + rest)[1..] == rest;
    }
  }

  // ---------------------------------------------------------------- values read back

  lemma PrintStarts(v: Value)
    ensures Print(v) != [] && Print(v)[0] != 93 && Print(v)[0] != 125
  {
    match v
    case Num(n) => if n >= 0 { DecimalStarts(n); }
    case _ =>
  }

  lemma {:induction false} DecimalStarts(n: nat)
    ensures StartsDigit(Decimal(n))
    decreases n
  {
    if n >= 10 { DecimalStarts(n / 10); }
  }

  /** The parser inverts the printer, whatever follows, as long as no digit does. */
  lemma {:induction false} ParseInvertsPrint(v: Value, rest: Text)
    requires !StartsDigit(rest)
    ensures ParseValue(Print(v) + rest) == Some((v, rest))
    decreases v
  {
    match v
    case Null => WordReadsBack(v, rest);
    case Bool(_) => WordReadsBack(v, rest);
    case Num(n) => NumberReadsBack(n, rest);
    case Str(s) => LiteralReadsBack(s, rest);
    case Arr(items) =>
      if items != [] {
        PrintStarts(items[0]);
        ItemsReadBack(items, rest);
      }
      ArrayReadsBack(items, rest);
    case Obj(ms) =>
      if ms != [] {
        MembersReadBack(ms, rest);
      }
      ObjectReadsBack(ms, rest);
  }

  lemma WordReadsBack(v: Value, rest: Text)
    requires v.Null? || v.Bool?
    ensures ParseValue(Print(v) + rest) == Some((v, rest))
  {
    var t := Print(v) + rest;
    assert t[|Print(v)|..] == rest;
    assert t[0] == Print(v)[0];
    assert Print(v) <= t;
  }

  lemma LiteralReadsBack(s: Text, rest: Text)
    ensures ParseValue(Print(Str(s)) + rest) == Some((Str(s), rest))
  {
    var t := Print(Str(s)) + rest;
    assert t[1..] == Escape(s) + [34] + rest;
    StringReadsBack(s, rest);
  }

  lemma ArrayStep(t: Text, items: seq<Value>, rest: Text)
    requires |t| > 1 && t[0] == 91 && t[1] != 93 && ParseItems(t[1..]) == Some((items, rest))
    ensures ParseValue(t) == Some((Arr(items), rest))
  {
    hide ParseItems, ParseMembers, ParseString;
  }

  lemma ObjectStep(t: Text, ms: seq<Member>, rest: Text)
    requires |t| > 1 && t[0] == 123 && t[1] != 125 && ParseMembers(t[1..]) == Some((ms, rest))
    ensures ParseValue(t) == Some((Obj(ms), rest))
  {
    hide ParseItems, ParseMembers, ParseString;
  }

  lemma EmptyReadsBack(rest: Text)
    ensures ParseValue(Print(Arr([])) + rest) == Some((Arr([]), rest))
    ensures ParseValue(Print(Obj([])) + rest) == Some((Obj([]), rest))
  {
    assert Print(Arr([])) == [91, 93] && Print(Obj([])) == [123, 125];
    assert ([91, 93] + rest)[2..] == rest && ([123, 125] + rest)[2..] == rest;
    hide ParseItems, ParseMembers, ParseString, Print;
  }

  lemma Bracketed(open: Unit, body: Text, close: Unit, rest: Text)
    ensures var t := [open] + body + [close] + rest;
            t[0] == open && t[1..] == body + ([close] + rest) && (body != [] ==> |t| > 1 && t[1] == body[0])
  {
  }

  lemma ArrayReadsBack(items: seq<Value>, rest: Text)
    requires items != [] ==> ParseItems(PrintItems(items) + ([93] + rest)) == Some((items, rest))
    requires items != [] ==> PrintItems(items) != [] && PrintItems(items)[0] != 93
    ensures ParseValue(Print(Arr(items)) + rest) == Some((Arr(items), rest))
  {
    EmptyReadsBack(rest);
    Bracketed(91, PrintItems(items), 93, rest);
    hide ParseItems, PrintItems, ParseValue;
    if items != [] { ArrayStep(Print(Arr(items)) + rest, items, rest); }
  }

  lemma ObjectReadsBack(ms: seq<Member>, rest: Text)
    requires ms != [] ==> ParseMembers(PrintMembers(ms) + ([125] + rest)) == Some((ms, rest))
    requires ms != [] ==> PrintMembers(ms) != [] && PrintMembers(ms)[0] == 34
    ensures ParseValue(Print(Obj(ms)) + rest) == Some((Obj(ms), rest))
  {
    EmptyReadsBack(rest);
    Bracketed(123, PrintMembers(ms), 125, rest);
    hide ParseMembers, PrintMembers, ParseValue;
    if ms != [] { ObjectStep(Print(Obj(ms)) + rest, ms, rest); }
  }

  lemma NumberReadsBack(n: int, rest: Text)
    requires !StartsDigit(rest)
    ensures ParseValue(Print(Num(n)) + rest) == Some((Num(n), rest))
  {
    var t := Print(Num(n)) + rest;
    if n >= 0 {
      DigitsReadBack(n, rest);
    } else {
      DigitsReadBack(-n, rest);
      assert t[1..] == Decimal(-n) + rest;
    }
  }

  lemma ItemsText(items: seq<Value>, rest: Text)
    requires items != []
    ensures PrintItems(items) + ([93] + rest) ==
            Print(items[0]) + (if |items| == 1 then [93] + rest else [44] + (PrintItems(items[1..]) + ([93] + rest)))
  {
    hide Print;
  }

  /** Reading an item and then the end or the others. */
  lemma ItemsStep(t: Text, v: Value, sep: Unit, tail: Text, others: seq<Value>, rest: Text)
    requires ParseValue(t) == Some((v, [sep] + tail))
    requires sep == 93 || sep == 44
    requires sep == 93 ==> others == [] && tail == rest
    requires sep == 44 ==> ParseItems(tail) == Some((others, rest))
    ensures ParseItems(t) == Some(([v] + others, rest))
  {
    hide ParseValue;
    assert ([sep] + tail)[1..] == tail && (others == [] ==> [v] + others == [v]);
  }

  lemma {:induction false} ItemsReadBack(items: seq<Value>, rest: Text)
    requires items != []
    ensures ParseItems(PrintItems(items) + ([93] + rest)) == Some((items, rest))
    decreases items
  {
    hide ParseItems, ParseValue, Print, PrintItems;
    var t := PrintItems(items) + ([93] + rest);
    ItemsText(items, rest);
    if |items| == 1 {
      ParseInvertsPrint(items[0], [93] + rest);
      ItemsStep(t, items[0], 93, rest, [], rest);
      assert items == [items[0]] + [];
    } else {
      var tail := PrintItems(items[1..]) + ([93] + rest);
      ParseInvertsPrint(items[0], [44] + tail);
      ItemsReadBack(items[1..], rest);
      ItemsStep(t, items[0], 44, tail, items[1..], rest);
      assert items == [items[0]] + items[1..];
    }
  }

  lemma {:induction false} MemberReadsBack(m: Member, rest: Text)
    requires !StartsDigit(rest)
    ensures ParseMember(Quote(m.key) + [58] + Print(m.value) + rest) == Some((m, rest))
    decreases m
  {
    var t := Quote(m.key) + [58] + Print(m.value) + rest;
    var after := [58] + (Print(m.value) + rest);
    MemberText(m, rest);
    StringReadsBack(m.key, after);
    assert after[1..] == Print(m.value) + rest;
    ParseInvertsPrint(m.value, rest);
    hide Escape, Print, ParseString, ParseValue, Quote;
  }

  lemma MemberText(m: Member, rest: Text)
    ensures var t := Quote(m.key) + [58] + Print(m.value) + rest;
            t[0] == 34 && t[1..] == Escape(m.key) + [34] + ([58] + (Print(m.value) + rest))
  {
    hide Escape, Print;
    var t := Quote(m.key) + [58] + Print(m.value) + rest;
    assert t == [34] + (Escape(m.key) + [34] + ([58] + (Print(m.value) + rest)));
  }

  function PrintMember(m: Member): Text {
    Quote(m.key) + [58] + Print(m.value)
  }

  lemma StartKept(a: Text, b: Text)
    requires a != []
    ensures a + b != [] && (a + b)[0] == a[0]
  {
  }

  function MembersTail(ms: seq<Member>): Text
    requires ms != []
  {
    if |ms| == 1 then [] else [44] + PrintMembers(ms[1..])
  }

  lemma MembersUnfold(ms: seq<Member>)
    requires ms != []
    ensures PrintMembers(ms) == PrintMember(ms[0]) + MembersTail(ms)
    ensures PrintMember(ms[0]) != [] && PrintMember(ms[0])[0] == 34
  {
  }

  lemma MembersText(ms: seq<Member>, rest: Text)
    requires ms != []
    ensures PrintMembers(ms) + ([125] + rest) ==
            PrintMember(ms[0]) + (if |ms| == 1 then [125] + rest else [44] + (PrintMembers(ms[1..]) + ([125] + rest)))
    ensures PrintMembers(ms) != [] && PrintMembers(ms)[0] == 34
  {
    MembersUnfold(ms);
    hide Print, PrintMember, PrintMembers, Quote;
    var first, tail, end := PrintMember(ms[0]), MembersTail(ms), [125] + rest;
    StartKept(first, tail);
    Associate(first, tail, end);
    if |ms| == 1 {
      assert tail + end == end;
    } else {
      Associate([44], PrintMembers(ms[1..]), end);
    }
  }

  /** Reading a member and then the end or the others. */
  lemma MembersStep(t: Text, m: Member, sep: Unit, tail: Text, others: seq<Member>, rest: Text)
    requires ParseMember(t) == Some((m, [sep] + tail))
    requires sep == 125 || sep == 44
    requires sep == 125 ==> others == [] && tail == rest
    requires sep == 44 ==> ParseMembers(tail) == Some((others, rest))
    ensures ParseMembers(t) == Some(([m] + others, rest))
  {
    hide ParseMember;
    assert ([sep] + tail)[1..] == tail && (others == [] ==> [m] + others == [m]);
  }

  lemma {:induction false} MembersReadBack(ms: seq<Member>, rest: Text)
    requires ms != []
    ensures ParseMembers(PrintMembers(ms) + ([125] + rest)) == Some((ms, rest))
    ensures PrintMembers(ms) != [] && PrintMembers(ms)[0] == 34
    decreases ms
  {
    MembersText(ms, rest);
    assert PrintMember(ms[0]) == Quote(ms[0].key) + [58] + Print(ms[0].value);
    hide ParseMembers, ParseMember, Print, PrintMember, PrintMembers, MembersTail, Quote;
    var t := PrintMembers(ms) + ([125] + rest);
    if |ms| == 1 {
      MemberReadsBack(ms[0], [125] + rest);
      MembersStep(t, ms[0], 125, rest, [], rest);
      assert ms == [ms[0]] + [];
    } else {
      var tail := PrintMembers(ms[1..]) + ([125] + rest);
      MemberReadsBack(ms[0], [44] + tail);
      MembersReadBack(ms[1..], rest);
      MembersStep(t, ms[0], 44, tail, ms[1..], rest);
      assert ms == [ms[0]] + ms[1..];
    }
  }

  // ---------------------------------------------------------------- main results

  /** Printed text determines the value, member order included. */
  lemma PrintInjective(a: Value, b: Value)
    ensures Print(a) == Print(b) <==> a == b
  {
    ParseInvertsPrint(a, []);
    ParseInvertsPrint(b, []);
    assert Print(a) + [] == Print(a) && Print(b) + [] == Print(b);
  }

  /** Two values have one canonical text exactly when they are the same JSON value. */
  lemma CanonicalTextDecides(a: Value, b: Value)
    requires KeysDistinct(a) && KeysDistinct(b)
    ensures CanonicalText(a) == CanonicalText(b) <==> SameJson(a, b)
  {
    PrintInjective(Canonical(a), Canonical(b));
    CanonicalDecides(a, b);
  }

  /** The text parses back to the canonical value and nothing is left over. */
  lemma CanonicalTextParses(v: Value)
    ensures ParseValue(CanonicalText(v)) == Some((Canonical(v), []))
  {
    ParseInvertsPrint(Canonical(v), []);
    assert CanonicalText(v) + [] == CanonicalText(v);
  }

  /** The one exception to "different values, different texts": a member named "__proto__" is lost. */
  lemma ProtoMemberIsLost(ms: seq<Member>, v: Value)
    requires KeysDistinct(Obj(ms + [Member(PROTO, v)]))
    ensures CanonicalText(Obj(ms + [Member(PROTO, v)])) == CanonicalText(Obj(ms))
  {
    var more := ms + [Member(PROTO, v)];
    FewerKeysDistinct(ms, Member(PROTO, v));
    ProtoIgnored(ms, v);
    CanonicalTextDecides(Obj(more), Obj(ms));
  }

  lemma FewerKeysDistinct(ms: seq<Member>, m: Member)
    requires KeysDistinct(Obj(ms + [m]))
    ensures KeysDistinct(Obj(ms))
  {
    var more := ms + [m];
    forall i | 0 <= i < |ms| ensures more[i] == ms[i] {}
  }

  lemma ProtoIgnored(ms: seq<Member>, v: Value)
    ensures Matched(ms + [Member(PROTO, v)], ms)
  {
    var more := ms + [Member(PROTO, v)];
    forall i | 0 <= i < |ms| ensures MatchAt(more, i, ms, i) {
      assert more[i] == ms[i];
      SameAsItself(ms[i].value);
    }
    hide SameJson, MatchAt;
    forall i | 0 <= i < |more| ensures more[i].key == PROTO || HasPartner(more, i, ms) {
      if i < |ms| { assert MatchAt(more, i, ms, i); }
    }
    forall j | 0 <= j < |ms| ensures IsPartner(more, ms, j) {
      assert MatchAt(more, j, ms, j);
    }
  }

  lemma {:induction false} SameAsItself(v: Value)
    ensures SameJson(v, v)
    decreases v
  {
    match v
    case Arr(items) =>
      forall i | 0 <= i < |items| ensures SameJson(items[i], items[i]) { SameAsItself(items[i]); }
    case Obj(ms) =>
      forall i | 0 <= i < |ms| ensures HasPartner(ms, i, ms) && IsPartner(ms, ms, i) {
        SameAsItself(ms[i].value);
        assert MatchAt(ms, i, ms, i);
      }
    case _ =>
  }
}
