/**
 Canonical JSON on the integer-only domain: the encoding of RFC 8785, with strings escaped as in its
 section 3.2.2.2 and members ordered by UTF-16 code units as in its section 3.2.3.
 */
module Canonical {
  import opened Prelude
  import Decimal

  type Byte = int
  type CodePoint = int
  type Text = seq<CodePoint>

  const MAX_SAFE := 9007199254740991

  /** Objects list their members in insertion order. */
  datatype Json = Null | Bool(flag: bool) | Int(number: int) | Str(text: Text) | Array(items: seq<Json>)
                | Object(members: seq<Member>)

  datatype Member = Member(key: Text, value: Json)

  predicate IsScalar(c: CodePoint) {
    0 <= c < 0x11_0000 && !(0xD800 <= c <= 0xDFFF)
  }

  predicate IsScalarText(s: Text) {
    forall c <- s :: IsScalar(c)
  }

  function Keys(members: seq<Member>): (keys: seq<Text>)
    ensures |keys| == |members| && forall i :: 0 <= i < |keys| ==> keys[i] == members[i].key
  {
    seq(|members|, i requires 0 <= i < |members| => members[i].key)
  }

  /** The values the encoder accepts. */
  ghost predicate InDomain(v: Json) {
    match v
    case Int(n) => -MAX_SAFE <= n <= MAX_SAFE
    case Str(s) => IsScalarText(s)
    case Array(items) => forall item <- items :: InDomain(item)
    case Object(members) =>
      Distinct(Keys(members)) && forall m <- members :: IsScalarText(m.key) && InDomain(m.value)
    case _ => true
  }

  // ----- strings ----------------------------------------------------------------------------------------

  function Ascii(s: string): (bytes: seq<Byte>)
    requires forall c <- s :: c < 128 as char
    ensures |bytes| == |s| && forall i :: 0 <= i < |s| ==> bytes[i] == s[i] as int
  {
    seq(|s|, i requires 0 <= i < |s| => s[i] as int)
  }

  function Utf8(c: CodePoint): seq<Byte> {
    if c < 0x80 then [c]
    else if c < 0x800 then [0xC0 + c / 0x40, 0x80 + c % 0x40]
    else if c < 0x1_0000 then [0xE0 + c / 0x1000, 0x80 + c / 0x40 % 0x40, 0x80 + c % 0x40]
    else [0xF0 + c / 0x4_0000, 0x80 + c / 0x1000 % 0x40, 0x80 + c / 0x40 % 0x40, 0x80 + c % 0x40]
  }

  function Hex(d: int): Byte
  {
    if d < 10 then 48 + d else 87 + d
  }

  /** Quotes, backslashes and controls are escaped, with the short forms where they exist. */
  function Escape(c: CodePoint): seq<Byte> {
    if c == 34 then [92, 34]
    else if c == 92 then [92, 92]
    else if c == 8 then [92, 98]
    else if c == 9 then [92, 116]
    else if c == 10 then [92, 110]
    else if c == 12 then [92, 102]
    else if c == 13 then [92, 114]
    else if c < 0x20 then [92, 117, 48, 48, Hex(c / 16), Hex(c % 16)]
    else Utf8(c)
  }

  function Escaped(s: Text): seq<Byte> {
    if s == [] then [] else Escape(s[0]) + Escaped(s[1..])
  }

  function Quoted(s: Text): seq<Byte> {
    [34] + Escaped(s) + [34]
  }

  // ----- member order -----------------------------------------------------------------------------------

  function Utf16(c: CodePoint): seq<Byte> {
    if c < 0x1_0000 then [c / 0x100, c % 0x100]
    else
      var high, low := 0xD800 + (c - 0x1_0000) / 0x400, 0xDC00 + (c - 0x1_0000) % 0x400;
      [high / 0x100, high % 0x100, low / 0x100, low % 0x100]
  }

  function SortKey(s: Text): seq<Byte> {
    if s == [] then [] else Utf16(s[0]) + SortKey(s[1..])
  }

  /** Byte strings compare lexicographically. */
  predicate Less(a: seq<Byte>, b: seq<Byte>) {
    b != [] && (a == [] || a[0] < b[0] || (a[0] == b[0] && Less(a[1..], b[1..])))
  }

  function Insert(key: Text, sorted: seq<Text>): seq<Text> {
    if sorted == [] || !Less(SortKey(sorted[0]), SortKey(key)) then [key] + sorted
    else [sorted[0]] + Insert(key, sorted[1..])
  }

  function Sort(keys: seq<Text>): (sorted: seq<Text>)
    ensures forall k :: k in sorted <==> k in keys
  {
    if keys == [] then []
    else
      var rest := Sort(keys[1..]);
      InsertMembers(keys[0], rest);
      assert keys == [keys[0]] + keys[1..];
      Insert(keys[0], rest)
  }

  lemma {:induction false} InsertMembers(key: Text, sorted: seq<Text>)
    ensures forall k :: k in Insert(key, sorted) <==> k == key || k in sorted
    ensures |Insert(key, sorted)| == |sorted| + 1
  {
    if sorted != [] && Less(SortKey(sorted[0]), SortKey(key)) {
      InsertMembers(key, sorted[1..]);
      assert sorted == [sorted[0]] + sorted[1..];
    }
  }

  /** The member a key selects. */
  function Lookup(members: seq<Member>, key: Text): (v: Json)
    requires key in Keys(members)
    ensures exists i :: 0 <= i < |members| && members[i].key == key && members[i].value == v
  {
    if members[0].key == key then members[0].value
    else
      var rest := members[1..];
      assert forall i :: 1 <= i < |members| ==> Keys(rest)[i - 1] == members[i].key;
      var v := Lookup(rest, key);
      assert exists i :: 0 <= i < |rest| && rest[i].key == key && rest[i].value == v && members[i + 1] == rest[i];
      v
  }

  // ----- the encoding -----------------------------------------------------------------------------------

  function Comma(i: nat): seq<Byte> {
    if i == 0 then [] else [44]
  }

  function Bytes(v: Json): seq<Byte>
    decreases v, 1
  {
    match v
    case Null => Ascii("null")
    case Bool(flag) => if flag then Ascii("true") else Ascii("false")
    case Int(n) => if n < 0 then [45] + Digits(-n) else Digits(n)
    case Str(s) => Quoted(s)
    case Array(items) => [91] + Items(v, 0) + [93]
    case Object(members) => [123] + Entries(v, Sort(Keys(members)), 0) + [125]
  }

  function Digits(n: nat): seq<Byte> {
    Ascii(Decimal.Numeral(n))
  }

  function Items(v: Json, i: nat): seq<Byte>
    requires v.Array? && i <= |v.items|
    decreases v, 0, |v.items| - i
  {
    if i == |v.items| then [] else Comma(i) + Bytes(v.items[i]) + Items(v, i + 1)
  }

  function Entries(v: Json, keys: seq<Text>, i: nat): seq<Byte>
    requires v.Object? && i <= |keys| && forall k <- keys :: k in Keys(v.members)
    decreases v, 0, |keys| - i
  {
    if i == |keys| then []
    else
      Comma(i) + Entry(v, keys[i]) + Entries(v, keys, i + 1)
  }

  /** One member: its key, a colon and its value. */
  function Entry(v: Json, key: Text): seq<Byte>
    requires v.Object? && key in Keys(v.members)
    decreases v, 0, 0
  {
    var value := Lookup(v.members, key);
    Quoted(key) + [58] + Bytes(value)
  }

  /** Equality of values: objects are equal when their keys are and equal keys hold equal values. */
  ghost predicate Same(a: Json, b: Json) {
    match (a, b)
    case (Array(xs), Array(ys)) => |xs| == |ys| && forall i :: 0 <= i < |xs| ==> Same(xs[i], ys[i])
    case (Object(ms), Object(ns)) =>
      && Elements(Keys(ms)) == Elements(Keys(ns))
      && forall i, j :: 0 <= i < |ms| && 0 <= j < |ns| && ms[i].key == ns[j].key ==> Same(ms[i].value, ns[j].value)
    case (_, _) => a == b
  }

  // ----- prefix codes -----------------------------------------------------------------------------------

  lemma SplitEqual(a: seq<Byte>, b: seq<Byte>, x: seq<Byte>, y: seq<Byte>)
    requires |a| == |b| && a + x == b + y
    ensures a == b && x == y
  {
    assert a == (a + x)[..|a|] && b == (b + y)[..|b|];
    assert x == (a + x)[|a|..] && y == (b + y)[|b|..];
  }

  /** The length of an escaped character shows in its first two bytes. */
  function EscapeLength(bytes: seq<Byte>): nat {
    if bytes == [] then 0
    else if bytes[0] == 92 then (if |bytes| > 1 && bytes[1] == 117 then 6 else 2)
    else if bytes[0] < 0x80 then 1
    else if bytes[0] < 0xE0 then 2
    else if bytes[0] < 0xF0 then 3
    else 4
  }

  lemma EscapeShows(c: CodePoint, x: seq<Byte>)
    requires IsScalar(c)
    ensures EscapeLength(Escape(c) + x) == |Escape(c)| && Escape(c)[0] != 34
  {
  }

  lemma EscapeIsInjective(c: CodePoint, d: CodePoint)
    requires IsScalar(c) && IsScalar(d) && Escape(c) == Escape(d)
    ensures c == d
  {
    if c >= 0x20 && c != 34 && c != 92 {
      assert Escape(c)[0] != 92;
      Utf8IsInjective(c, d);
    } else if c < 0x20 && |Escape(c)| == 6 {
      HexIsInjective(c / 16, d / 16);
      HexIsInjective(c % 16, d % 16);
    }
  }

  lemma HexIsInjective(a: int, b: int)
    requires 0 <= a < 16 && 0 <= b < 16 && Hex(a) == Hex(b)
    ensures a == b
  {
  }

  lemma Utf8IsInjective(c: CodePoint, d: CodePoint)
    requires IsScalar(c) && IsScalar(d) && Utf8(c) == Utf8(d)
    ensures c == d
  {
    Digits64(c);
    Digits64(d);
  }

  /** A code point is the sum of its six-bit digits. */
  lemma Digits64(c: CodePoint)
    requires IsScalar(c)
    ensures c == c / 0x40 * 0x40 + c % 0x40
    ensures c == c / 0x1000 * 0x1000 + c / 0x40 % 0x40 * 0x40 + c % 0x40
    ensures c == c / 0x4_0000 * 0x4_0000 + c / 0x1000 % 0x40 * 0x1000 + c / 0x40 % 0x40 * 0x40 + c % 0x40
  {
  }

  lemma EscapedSplits(s: Text, r: seq<Byte>)
    requires IsScalarText(s) && s != []
    ensures Escaped(s) + [34] + r == Escape(s[0]) + (Escaped(s[1..]) + [34] + r)
    ensures Escape(s[0]) != [] && (Escaped(s) + [34] + r)[0] != 34
  {
    EscapeShows(s[0], []);
  }

  /** Two escaped characters at the head of the same bytes are the same character. */
  lemma SameHead(c: CodePoint, d: CodePoint, x: seq<Byte>, y: seq<Byte>)
    requires IsScalar(c) && IsScalar(d) && Escape(c) + x == Escape(d) + y
    ensures c == d && x == y
  {
    hide Escape;
    EscapeShows(c, x);
    EscapeShows(d, y);
    SplitEqual(Escape(c), Escape(d), x, y);
    EscapeIsInjective(c, d);
  }

  /** An escaped string ends at its closing quote, and determines the string. */
  lemma {:induction false} EscapedIsUnique(s: Text, u: Text, r: seq<Byte>, t: seq<Byte>)
    requires IsScalarText(s) && IsScalarText(u) && Escaped(s) + [34] + r == Escaped(u) + [34] + t
    ensures s == u && r == t
  {
    hide Escape;
    if s != [] {
      EscapedSplits(s, r);
    }
    if u != [] {
      EscapedSplits(u, t);
    }
    if s == [] || u == [] {
      assert (Escaped([]) + [34] + r)[0] == 34 && (Escaped([]) + [34] + t)[0] == 34;
      assert Escaped([]) + [34] + r == [34] + r && Escaped([]) + [34] + t == [34] + t;
      SplitEqual([34], [34], r, t);
    } else {
      SameHead(s[0], u[0], Escaped(s[1..]) + [34] + r, Escaped(u[1..]) + [34] + t);
      EscapedIsUnique(s[1..], u[1..], r, t);
    }
  }

  lemma QuotedIsUnique(s: Text, u: Text, r: seq<Byte>, t: seq<Byte>)
    requires IsScalarText(s) && IsScalarText(u) && Quoted(s) + r == Quoted(u) + t
    ensures s == u && r == t
  {
    var x, y := Escaped(s) + [34] + r, Escaped(u) + [34] + t;
    assert Quoted(s) + r == [34] + x && Quoted(u) + t == [34] + y;
    SplitEqual([34], [34], x, y);
    EscapedIsUnique(s, u, r, t);
  }

  // ----- the member order is total and determines the order of keys -------------------------------------

  /** The first byte tells a surrogate pair from a single unit. */
  lemma Utf16Shows(c: CodePoint, x: seq<Byte>)
    requires IsScalar(c)
    ensures |Utf16(c)| == if 0xD8 <= (Utf16(c) + x)[0] < 0xDC then 4 else 2
  {
  }

  lemma Utf16IsInjective(c: CodePoint, d: CodePoint)
    requires IsScalar(c) && IsScalar(d) && Utf16(c) == Utf16(d)
    ensures c == d
  {
    if c < 0x1_0000 {
      assert c == Utf16(c)[0] * 0x100 + Utf16(c)[1];
    } else {
      assert c - 0x1_0000 == (Utf16(c)[0] * 0x100 + Utf16(c)[1] - 0xD800) * 0x400 +
             (Utf16(c)[2] * 0x100 + Utf16(c)[3] - 0xDC00);
    }
    if d < 0x1_0000 {
      assert d == Utf16(d)[0] * 0x100 + Utf16(d)[1];
    } else {
      assert d - 0x1_0000 == (Utf16(d)[0] * 0x100 + Utf16(d)[1] - 0xD800) * 0x400 +
             (Utf16(d)[2] * 0x100 + Utf16(d)[3] - 0xDC00);
    }
  }

  lemma Utf16IsPrefixCode(c: CodePoint, d: CodePoint, x: seq<Byte>, y: seq<Byte>)
    requires IsScalar(c) && IsScalar(d) && Utf16(c) + x == Utf16(d) + y
    ensures c == d && x == y
  {
    hide Utf16;
    Utf16Shows(c, x);
    Utf16Shows(d, y);
    SplitEqual(Utf16(c), Utf16(d), x, y);
    Utf16IsInjective(c, d);
  }

  lemma {:induction false} SortKeyIsInjective(s: Text, u: Text)
    requires IsScalarText(s) && IsScalarText(u) && SortKey(s) == SortKey(u)
    ensures s == u
  {
    if s != [] && u != [] {
      Utf16IsPrefixCode(s[0], u[0], SortKey(s[1..]), SortKey(u[1..]));
      SortKeyIsInjective(s[1..], u[1..]);
    }
  }

  lemma {:induction false} LessIsTotal(a: seq<Byte>, b: seq<Byte>)
    ensures Less(a, b) || Less(b, a) || a == b
    ensures !(Less(a, b) && Less(b, a)) && !Less(a, a)
  {
    if a != [] {
      LessIsTotal(a[1..], if b == [] then [] else b[1..]);
    }
  }

  lemma {:induction false} LessIsTransitive(a: seq<Byte>, b: seq<Byte>, c: seq<Byte>)
    requires Less(a, b) && Less(b, c)
    ensures Less(a, c)
  {
    if a != [] && a[0] == b[0] == c[0] {
      LessIsTransitive(a[1..], b[1..], c[1..]);
    }
  }

  ghost predicate Ascending(keys: seq<Text>) {
    keys == [] ||
    (Ascending(keys[1..]) && forall k <- keys[1..] :: Less(SortKey(keys[0]), SortKey(k)))
  }

  lemma {:induction false} InsertAscends(key: Text, sorted: seq<Text>)
    requires Ascending(sorted) && IsScalarText(key) && key !in sorted && forall k <- sorted :: IsScalarText(k)
    ensures Ascending(Insert(key, sorted))
  {
    if sorted == [] {
      assert ([key] + sorted)[1..] == [];
    } else {
      var first, rest := sorted[0], sorted[1..];
      assert first in sorted && forall k <- rest :: k in sorted;
      LessIsTotal(SortKey(first), SortKey(key));
      if Less(SortKey(first), SortKey(key)) {
        InsertAscends(key, rest);
        InsertMembers(key, rest);
        assert Insert(key, sorted)[1..] == Insert(key, rest);
      } else {
        if SortKey(first) == SortKey(key) {
          SortKeyIsInjective(first, key);
        }
        forall k | k in sorted ensures Less(SortKey(key), SortKey(k)) {
          if k != first {
            assert k in rest;
            LessIsTransitive(SortKey(key), SortKey(first), SortKey(k));
          }
        }
        assert ([key] + sorted)[1..] == sorted;
      }
    }
  }

  lemma {:induction false} SortAscends(keys: seq<Text>)
    requires Distinct(keys) && forall k <- keys :: IsScalarText(k)
    ensures Ascending(Sort(keys)) && |Sort(keys)| == |keys|
  {
    if keys != [] {
      assert forall k <- keys[1..] :: k in keys;
      SortAscends(keys[1..]);
      InsertAscends(keys[0], Sort(keys[1..]));
      InsertMembers(keys[0], Sort(keys[1..]));
    }
  }

  /** Keys have one ascending order: whatever order they were inserted in is forgotten. */
  lemma {:induction false} AscendingIsUnique(a: seq<Text>, b: seq<Text>)
    requires Ascending(a) && Ascending(b) && Elements(a) == Elements(b)
    ensures a == b
  {
    assert a != [] ==> a[0] in Elements(a);
    assert b != [] ==> b[0] in Elements(b);
    if a != [] && b != [] {
      LeastIsFirst(a, b);
      assert a == [a[0]] + a[1..] && b == [b[0]] + b[1..];
      NotAgain(a);
      NotAgain(b);
      forall k ensures k in Elements(a[1..]) <==> k in Elements(b[1..]) {
        assert k in Elements(a) <==> k in Elements(b);
      }
      AscendingIsUnique(a[1..], b[1..]);
    }
  }

  lemma NotAgain(a: seq<Text>)
    requires Ascending(a) && a != []
    ensures a[0] !in a[1..]
  {
    LessIsTotal(SortKey(a[0]), SortKey(a[0]));
  }

  lemma LeastIsFirst(a: seq<Text>, b: seq<Text>)
    requires Ascending(a) && Ascending(b) && Elements(a) == Elements(b) && a != [] && b != []
    ensures a[0] == b[0]
  {
    assert a[0] in Elements(b) && b[0] in Elements(a);
    assert a == [a[0]] + a[1..] && b == [b[0]] + b[1..];
    if a[0] != b[0] {
      LessIsTotal(SortKey(a[0]), SortKey(b[0]));
    }
  }

  // ----- the encoding determines the value --------------------------------------------------------------

  /** Only a digit could continue a value: numbers are the one form without a closing byte. */
  predicate Boundary(rest: seq<Byte>) {
    rest == [] || !(48 <= rest[0] <= 57)
  }

  predicate DigitBytes(bytes: seq<Byte>) {
    forall i :: 0 <= i < |bytes| ==> 48 <= bytes[i] <= 57
  }

  lemma {:induction false} SameDigitBytes(a: seq<Byte>, b: seq<Byte>, r: seq<Byte>, t: seq<Byte>)
    requires DigitBytes(a) && DigitBytes(b)
    requires Boundary(r) && Boundary(t) && a + r == b + t
    ensures a == b && r == t
  {
    assert a != [] ==> (a + r)[0] == a[0];
    assert b != [] ==> (b + t)[0] == b[0];
    if a != [] && b != [] {
      assert (a + r)[1..] == a[1..] + r && (b + t)[1..] == b[1..] + t;
      SameDigitBytes(a[1..], b[1..], r, t);
      assert a == [a[0]] + a[1..] && b == [b[0]] + b[1..];
    } else {
      assert a == [] ==> a + r == r;
      assert b == [] ==> b + t == t;
    }
  }

  lemma DigitsAreDigits(n: nat)
    ensures Digits(n) != [] && DigitBytes(Digits(n)) && 48 <= Digits(n)[0] <= 57
  {
    var s := Decimal.Numeral(n);
    forall i | 0 <= i < |s| ensures 48 <= s[i] as int <= 57 {
      assert Decimal.IsDigit(s[i]);
    }
  }

  lemma DigitsAreUnique(m: nat, n: nat, r: seq<Byte>, t: seq<Byte>)
    requires Boundary(r) && Boundary(t) && Digits(m) + r == Digits(n) + t
    ensures m == n && r == t
  {
    DigitsAreDigits(m);
    DigitsAreDigits(n);
    SameDigitBytes(Digits(m), Digits(n), r, t);
    var a, b := Decimal.Numeral(m), Decimal.Numeral(n);
    forall i | 0 <= i < |a| ensures a[i] == b[i] {
      assert Digits(m)[i] == Digits(n)[i];
    }
    assert a == b;
    Decimal.ValueOfNumeral(m);
    Decimal.ValueOfNumeral(n);
  }

  /** The first byte of a value shows its form, and is never a delimiter. */
  function Form(v: Json): int {
    match v
    case Null => 0
    case Bool(_) => 1
    case Int(_) => 2
    case Str(_) => 3
    case Array(_) => 4
    case Object(_) => 5
  }

  function FormOf(first: Byte): int {
    if first == 110 then 0
    else if first == 116 || first == 102 then 1
    else if first == 45 || 48 <= first <= 57 then 2
    else if first == 34 then 3
    else if first == 91 then 4
    else if first == 123 then 5
    else 6
  }

  lemma FirstByte(v: Json, r: seq<Byte>)
    ensures Bytes(v) != [] && FormOf(Bytes(v)[0]) == Form(v) && (Bytes(v) + r)[0] == Bytes(v)[0]
  {
    if v.Int? {
      DigitsAreDigits(if v.number < 0 then -v.number else v.number);
    }
  }

  /** Whatever delimiters follow, equal bytes start with equal values and go on alike. */
  lemma {:induction false} EncodingIsUnique(a: Json, b: Json, r: seq<Byte>, t: seq<Byte>)
    requires InDomain(a) && InDomain(b) && Boundary(r) && Boundary(t)
    requires Bytes(a) + r == Bytes(b) + t
    ensures Same(a, b) && r == t
    decreases a, 1
  {
    hide Bytes, FormOf, InDomain, Same;
    FirstByte(a, r);
    FirstByte(b, t);
    match a {
      case Array(_) =>
        ArrayIsUnique(a, b, r, t);
      case Object(_) =>
        ObjectIsUnique(a, b, r, t);
      case _ =>
        AtomIsUnique(a, b, r, t);
    }
  }

  lemma AtomIsUnique(a: Json, b: Json, r: seq<Byte>, t: seq<Byte>)
    requires InDomain(a) && InDomain(b) && Boundary(r) && Boundary(t) && Form(a) == Form(b) < 4
    requires Bytes(a) + r == Bytes(b) + t
    ensures Same(a, b) && r == t
  {
    match a {
      case Null =>
        SplitEqual(Bytes(a), Bytes(b), r, t);
      case Bool(_) =>
        assert (Bytes(a) + r)[0] == if a.flag then 116 else 102;
        assert (Bytes(b) + t)[0] == if b.flag then 116 else 102;
        SplitEqual(Bytes(a), Bytes(b), r, t);
      case Int(m) =>
        IntIsUnique(m, b.number, r, t);
      case Str(s) =>
        QuotedIsUnique(s, b.text, r, t);
    }
  }

  lemma ArrayIsUnique(a: Json, b: Json, r: seq<Byte>, t: seq<Byte>)
    requires a.Array? && b.Array? && InDomain(a) && InDomain(b) && Bytes(a) + r == Bytes(b) + t
    ensures Same(a, b) && r == t
    decreases a, 1, 0
  {
    hide Items, InDomain;
    var x, y := Items(a, 0) + [93] + r, Items(b, 0) + [93] + t;
    assert Bytes(a) + r == [91] + x && Bytes(b) + t == [91] + y;
    SplitEqual([91], [91], x, y);
    ItemsAreUnique(a, b, 0, r, t);
  }

  lemma IntIsUnique(m: int, n: int, r: seq<Byte>, t: seq<Byte>)
    requires Boundary(r) && Boundary(t) && Bytes(Int(m)) + r == Bytes(Int(n)) + t
    ensures m == n && r == t
  {
    DigitsAreDigits(if m < 0 then -m else m);
    DigitsAreDigits(if n < 0 then -n else n);
    assert (Bytes(Int(m)) + r)[0] == Bytes(Int(m))[0] && (Bytes(Int(n)) + t)[0] == Bytes(Int(n))[0];
    assert m < 0 <==> Bytes(Int(m))[0] == 45;
    assert n < 0 <==> Bytes(Int(n))[0] == 45;
    if m < 0 {
      assert Bytes(Int(m)) + r == [45] + (Digits(-m) + r);
      assert Bytes(Int(n)) + t == [45] + (Digits(-n) + t);
      SplitEqual([45], [45], Digits(-m) + r, Digits(-n) + t);
      DigitsAreUnique(-m, -n, r, t);
    } else {
      DigitsAreUnique(m, n, r, t);
    }
  }

  lemma {:induction false} ItemsAreUnique(a: Json, b: Json, i: nat, r: seq<Byte>, t: seq<Byte>)
    requires a.Array? && b.Array? && InDomain(a) && InDomain(b) && i <= |a.items| && i <= |b.items|
    requires Items(a, i) + [93] + r == Items(b, i) + [93] + t
    ensures |a.items| == |b.items| && r == t && forall k :: i <= k < |a.items| ==> Same(a.items[k], b.items[k])
    decreases a, 0, |a.items| - i
  {
    hide Bytes, Items, Same, Boundary;
    ItemsStart(a, i, r);
    ItemsStart(b, i, t);
    if i == |a.items| || i == |b.items| {
      SplitEqual([93], [93], r, t);
    } else {
      var x, y := Items(a, i + 1) + [93] + r, Items(b, i + 1) + [93] + t;
      SplitEqual(Comma(i), Comma(i), Bytes(a.items[i]) + x, Bytes(b.items[i]) + y);
      ItemsStart(a, i + 1, r);
      ItemsStart(b, i + 1, t);
      EncodingIsUnique(a.items[i], b.items[i], x, y);
      ItemsAreUnique(a, b, i + 1, r, t);
    }
  }

  lemma Regroup(p: seq<Byte>, q: seq<Byte>, u: seq<Byte>, c: seq<Byte>, r: seq<Byte>)
    ensures p + q + u + c + r == p + (q + (u + c + r))
  {
  }

  /** What follows an item is the closing bracket, or a comma and the next item. */
  lemma ItemsStart(a: Json, i: nat, r: seq<Byte>)
    requires a.Array? && i <= |a.items|
    ensures var all := Items(a, i) + [93] + r;
            && all != [] && (all[0] == 93 <==> i == |a.items|) && (i > 0 ==> Boundary(all))
            && (i == |a.items| ==> all == [93] + r)
            && (i < |a.items| ==> all == Comma(i) + (Bytes(a.items[i]) + (Items(a, i + 1) + [93] + r)))
  {
    hide Bytes, FormOf;
    if i < |a.items| {
      var rest := Items(a, i + 1) + [93] + r;
      Regroup(Comma(i), Bytes(a.items[i]), Items(a, i + 1), [93], r);
      FirstByte(a.items[i], rest);
      NoDelimiter(a.items[i]);
      assert i == 0 ==> Comma(i) + (Bytes(a.items[i]) + rest) == Bytes(a.items[i]) + rest;
    }
  }

  lemma NoDelimiter(v: Json)
    ensures Bytes(v) != [] && Bytes(v)[0] !in {93, 125, 44}
  {
    FirstByte(v, []);
  }

  lemma {:induction false} EntriesAreUnique(a: Json, b: Json, ks: seq<Text>, ls: seq<Text>, i: nat, r: seq<Byte>,
                                            t: seq<Byte>)
    requires a.Object? && b.Object? && InDomain(a) && InDomain(b) && i <= |ks| && i <= |ls|
    requires (forall k <- ks :: k in Keys(a.members) && IsScalarText(k))
    requires (forall k <- ls :: k in Keys(b.members) && IsScalarText(k))
    requires Entries(a, ks, i) + [125] + r == Entries(b, ls, i) + [125] + t
    ensures |ks| == |ls| && r == t
    ensures forall k :: i <= k < |ks| ==> ks[k] == ls[k] && Same(Lookup(a.members, ks[k]), Lookup(b.members, ls[k]))
    decreases a, 0, |ks| - i
  {
    hide Bytes, Entries, Entry, Lookup, InDomain, Same;
    EntriesStart(a, ks, i, r);
    EntriesStart(b, ls, i, t);
    if i == |ks| || i == |ls| {
      SplitEqual([125], [125], r, t);
    } else {
      var x, y := Entries(a, ks, i + 1) + [125] + r, Entries(b, ls, i + 1) + [125] + t;
      SplitEqual(Comma(i), Comma(i), Entry(a, ks[i]) + x, Entry(b, ls[i]) + y);
      assert ks[i] in ks && ls[i] in ls;
      EntryIsUnique(a, b, ks[i], ls[i], x, y);
      EntriesStart(a, ks, i + 1, r);
      EntriesStart(b, ls, i + 1, t);
      MemberIsSmaller(a, ks[i]);
      MemberIsSmaller(b, ls[i]);
      EncodingIsUnique(Lookup(a.members, ks[i]), Lookup(b.members, ls[i]), x, y);
      EntriesAreUnique(a, b, ks, ls, i + 1, r, t);
    }
  }

  lemma EntriesStart(a: Json, keys: seq<Text>, i: nat, r: seq<Byte>)
    requires a.Object? && i <= |keys| && forall k <- keys :: k in Keys(a.members)
    ensures var all := Entries(a, keys, i) + [125] + r;
            && all != [] && (all[0] == 125 <==> i == |keys|) && (i > 0 ==> Boundary(all))
            && (i == |keys| ==> all == [125] + r)
            && (i < |keys| ==> all == Comma(i) + (Entry(a, keys[i]) + (Entries(a, keys, i + 1) + [125] + r)))
  {
    hide Bytes, Lookup, Entry;
    if i < |keys| {
      var rest := Entries(a, keys, i + 1) + [125] + r;
      var entry := Entry(a, keys[i]);
      EntryStarts(a, keys[i]);
      Regroup(Comma(i), entry, Entries(a, keys, i + 1), [125], r);
      assert i == 0 ==> Comma(i) + (entry + rest) == entry + rest;
    }
  }

  lemma EntryStarts(a: Json, key: Text)
    requires a.Object? && key in Keys(a.members)
    ensures Entry(a, key) != [] && Entry(a, key)[0] == 34
  {
    hide Bytes, Lookup;
  }

  lemma EntryIsUnique(a: Json, b: Json, k: Text, l: Text, x: seq<Byte>, y: seq<Byte>)
    requires a.Object? && b.Object? && k in Keys(a.members) && l in Keys(b.members) && IsScalarText(k)
    requires IsScalarText(l)
    requires Entry(a, k) + x == Entry(b, l) + y
    ensures k == l && Bytes(Lookup(a.members, k)) + x == Bytes(Lookup(b.members, l)) + y
  {
    hide Bytes, Quoted, Lookup;
    var va, vb := Bytes(Lookup(a.members, k)), Bytes(Lookup(b.members, l));
    assert Entry(a, k) + x == Quoted(k) + ([58] + (va + x));
    assert Entry(b, l) + y == Quoted(l) + ([58] + (vb + y));
    QuotedIsUnique(k, l, [58] + (va + x), [58] + (vb + y));
    SplitEqual([58], [58], va + x, vb + y);
  }

  lemma MemberIsSmaller(v: Json, key: Text)
    requires v.Object? && key in Keys(v.members)
    ensures Lookup(v.members, key) < v && (InDomain(v) ==> InDomain(Lookup(v.members, key)))
  {
    var value := Lookup(v.members, key);
    var i :| 0 <= i < |v.members| && v.members[i].key == key && v.members[i].value == value;
    assert v.members[i] in v.members;
  }

  lemma SortedKeys(v: Json)
    requires v.Object? && InDomain(v)
    ensures var sorted := Sort(Keys(v.members));
            Ascending(sorted) && Elements(sorted) == Elements(Keys(v.members)) && forall k <- sorted :: IsScalarText(k)
  {
    forall k | k in Keys(v.members) ensures IsScalarText(k) {
      var i :| 0 <= i < |v.members| && Keys(v.members)[i] == k;
      assert v.members[i] in v.members;
    }
    SortAscends(Keys(v.members));
  }

  lemma LookupOfMember(members: seq<Member>, i: nat)
    requires Distinct(Keys(members)) && i < |members|
    ensures members[i].key in Keys(members) && Lookup(members, members[i].key) == members[i].value
  {
    hide Lookup, Distinct;
    assert Keys(members)[i] == members[i].key;
    var v := Lookup(members, members[i].key);
    var j :| 0 <= j < |members| && members[j].key == members[i].key && members[j].value == v;
    DistinctIndex(Keys(members), i, j);
  }

  lemma DistinctIndex<T>(s: seq<T>, i: nat, j: nat)
    requires Distinct(s) && i < |s| && j < |s| && s[i] == s[j]
    ensures i == j
  {
  }

  lemma ObjectIsUnique(a: Json, b: Json, r: seq<Byte>, t: seq<Byte>)
    requires a.Object? && b.Object? && InDomain(a) && InDomain(b) && Boundary(r) && Boundary(t)
    requires Bytes(a) + r == Bytes(b) + t
    ensures Same(a, b) && r == t
    decreases a, 1, 0
  {
    hide Entries, Sort, InDomain, Same;
    var ks, ls := Sort(Keys(a.members)), Sort(Keys(b.members));
    var x, y := Entries(a, ks, 0) + [125] + r, Entries(b, ls, 0) + [125] + t;
    assert Bytes(a) + r == [123] + x && Bytes(b) + t == [123] + y;
    SplitEqual([123], [123], x, y);
    SortedKeys(a);
    SortedKeys(b);
    EntriesAreUnique(a, b, ks, ls, 0, r, t);
    assert ks == ls;
    SameFromLookups(a, b, ks);
  }

  lemma SameFromLookups(a: Json, b: Json, keys: seq<Text>)
    requires a.Object? && b.Object? && InDomain(a) && InDomain(b)
    requires Elements(keys) == Elements(Keys(a.members)) == Elements(Keys(b.members))
    requires forall k <- keys ::
             k in Keys(a.members) && k in Keys(b.members) && Same(Lookup(a.members, k), Lookup(b.members, k))
    ensures Same(a, b)
  {
    var ms, ns := a.members, b.members;
    forall i, j | 0 <= i < |ms| && 0 <= j < |ns| && ms[i].key == ns[j].key ensures Same(ms[i].value, ns[j].value) {
      LookupOfMember(ms, i);
      LookupOfMember(ns, j);
      assert ms[i].key in Elements(Keys(ms));
      assert ms[i].key in Elements(keys);
    }
  }

  // ----- equal values encode alike ----------------------------------------------------------------------

  lemma {:induction false} SameEncodesAlike(a: Json, b: Json)
    requires InDomain(a) && InDomain(b) && Same(a, b)
    ensures Bytes(a) == Bytes(b)
    decreases a, 1
  {
    match a {
      case Array(items) =>
        SameItems(a, b, 0);
      case Object(members) =>
        SortedKeys(a);
        SortedKeys(b);
        AscendingIsUnique(Sort(Keys(a.members)), Sort(Keys(b.members)));
        SameEntries(a, b, Sort(Keys(a.members)), 0);
      case _ =>
    }
  }

  lemma {:induction false} SameItems(a: Json, b: Json, i: nat)
    requires a.Array? && b.Array? && InDomain(a) && InDomain(b) && Same(a, b) && i <= |a.items|
    ensures Items(a, i) == Items(b, i)
    decreases a, 0, |a.items| - i
  {
    if i < |a.items| {
      SameEncodesAlike(a.items[i], b.items[i]);
      SameItems(a, b, i + 1);
    }
  }

  lemma {:induction false} SameEntries(a: Json, b: Json, keys: seq<Text>, i: nat)
    requires a.Object? && b.Object? && InDomain(a) && InDomain(b) && Same(a, b) && i <= |keys|
    requires forall k <- keys :: k in Keys(a.members) && k in Keys(b.members)
    ensures Entries(a, keys, i) == Entries(b, keys, i)
    decreases a, 0, |keys| - i
  {
    if i < |keys| {
      var key := keys[i];
      assert key in keys;
      MemberIsSmaller(a, key);
      MemberIsSmaller(b, key);
      SameLookups(a, b, key);
      SameEncodesAlike(Lookup(a.members, key), Lookup(b.members, key));
      SameEntries(a, b, keys, i + 1);
    }
  }

  lemma SameLookups(a: Json, b: Json, key: Text)
    requires a.Object? && b.Object? && Same(a, b) && key in Keys(a.members) && key in Keys(b.members)
    ensures Same(Lookup(a.members, key), Lookup(b.members, key))
  {
    var va, vb := Lookup(a.members, key), Lookup(b.members, key);
    var i :| 0 <= i < |a.members| && a.members[i].key == key && a.members[i].value == va;
    var j :| 0 <= j < |b.members| && b.members[j].key == key && b.members[j].value == vb;
  }

  /** Two values of the domain have the same canonical bytes exactly when they are equal as values. */
  lemma CanonicalIffSame(a: Json, b: Json)
    requires InDomain(a) && InDomain(b)
    ensures Bytes(a) == Bytes(b) <==> Same(a, b)
  {
    if Bytes(a) == Bytes(b) {
      assert Bytes(a) + [] == Bytes(b) + [];
      EncodingIsUnique(a, b, [], []);
    } else if Same(a, b) {
      SameEncodesAlike(a, b);
    }
  }

  lemma {:induction false} SameIsReflexive(v: Json)
    requires InDomain(v)
    ensures Same(v, v)
  {
    match v {
      case Array(items) =>
        forall i | 0 <= i < |items| ensures Same(items[i], items[i]) {
          SameIsReflexive(items[i]);
        }
      case Object(ms) =>
        forall i, j | 0 <= i < |ms| && 0 <= j < |ms| && ms[i].key == ms[j].key ensures Same(ms[i].value, ms[j].value) {
          assert Keys(ms)[i] == Keys(ms)[j];
          assert ms[i] in ms;
          SameIsReflexive(ms[i].value);
        }
      case _ =>
    }
  }

  /** The order in which members were inserted leaves no trace in the bytes. */
  lemma InsertionOrderIsForgotten(members: seq<Member>, reordered: seq<Member>)
    requires InDomain(Object(members)) && multiset(members) == multiset(reordered)
    ensures InDomain(Object(reordered)) && Bytes(Object(members)) == Bytes(Object(reordered))
  {
    SameMultisetSameElements(members, reordered);
    assert forall m :: m in reordered ==> m in Elements(members);
    ReorderedKeys(members, reordered);
    SameIsReflexive(Object(members));
    forall i, j | 0 <= i < |members| && 0 <= j < |reordered| && members[i].key == reordered[j].key
      ensures Same(members[i].value, reordered[j].value)
    {
      assert reordered[j] in Elements(members);
      var k :| 0 <= k < |members| && members[k] == reordered[j];
    }
    SameEncodesAlike(Object(members), Object(reordered));
  }

  lemma ReorderedKeys(members: seq<Member>, reordered: seq<Member>)
    requires Distinct(Keys(members)) && multiset(members) == multiset(reordered)
    ensures Distinct(Keys(reordered)) && Elements(Keys(members)) == Elements(Keys(reordered))
  {
    SameMultisetSameElements(members, reordered);
    assert Distinct(members) by {
      forall i, j | 0 <= i < j < |members| ensures members[i] != members[j] {
        assert Keys(members)[i] != Keys(members)[j];
      }
    }
    PermutationDistinct(members, reordered);
    forall i, j | 0 <= i < j < |reordered| ensures Keys(reordered)[i] != Keys(reordered)[j] {
      assert reordered[i] in Elements(members) && reordered[j] in Elements(members);
      var k :| 0 <= k < |members| && members[k] == reordered[i];
      var l :| 0 <= l < |members| && members[l] == reordered[j];
      assert Keys(members)[k] != Keys(members)[l];
    }
    forall key ensures key in Keys(members) <==> key in Keys(reordered) {
      if key in Keys(members) {
        var i :| 0 <= i < |members| && Keys(members)[i] == key;
        assert members[i] in Elements(reordered);
        var j :| 0 <= j < |reordered| && reordered[j] == members[i];
        assert Keys(reordered)[j] == key;
      }
      if key in Keys(reordered) {
        var i :| 0 <= i < |reordered| && Keys(reordered)[i] == key;
        assert reordered[i] in Elements(members);
        var j :| 0 <= j < |members| && members[j] == reordered[i];
        assert Keys(members)[j] == key;
      }
    }
  }
}
