/**
 A reader of JSON texts as RFC 8259 defines them, white space left out, and UTF-8 as RFC 3629 does. It knows nothing of
 the canonical encoder; what the encoder writes must read back as the value it was given.
 */
module JsonReader {
  import opened Prelude
  import opened Canonical
  import Decimal

  /** What was read, and the bytes behind it. */
  datatype Read<T> = Read(value: T, rest: seq<Byte>)

  // ----- strings (section 7 of RFC 8259) ----------------------------------------------------------------

  function HexValue(b: Byte): Option<int> {
    if '0' as int <= b <= '9' as int then Some(b - '0' as int)
    else if 'A' as int <= b <= 'F' as int then Some(b - 'A' as int + 10)
    else if 'a' as int <= b <= 'f' as int then Some(b - 'a' as int + 10)
    else None
  }

  /** Four hexadecimal digits, in either case. */
  function ReadUnit(b: seq<Byte>): Option<int> {
    if |b| < 4 || HexValue(b[0]).None? || HexValue(b[1]).None? || HexValue(b[2]).None? || HexValue(b[3]).None? then None
    else
      Some(HexValue(b[0]).value * 4096 + HexValue(b[1]).value * 256 + HexValue(b[2]).value * 16 + HexValue(b[3]).value)
  }

  /** The character an escape of two bytes stands for. */
  function Short(b: Byte): Option<CodePoint> {
    if b == '"' as int || b == '\\' as int || b == '/' as int then Some(b)
    else if b == 'b' as int then Some(8)
    else if b == 't' as int then Some(9)
    else if b == 'n' as int then Some(10)
    else if b == 'f' as int then Some(12)
    else if b == 'r' as int then Some(13)
    else None
  }

  /** What stands behind a backslash: a short form, a code unit, or a pair of surrogates. */
  function ReadEscape(b: seq<Byte>): (r: Option<Read<CodePoint>>)
    ensures r.Some? ==> |r.value.rest| < |b|
  {
    if b == [] then None
    else if Short(b[0]).Some? then Some(Read(Short(b[0]).value, b[1..]))
    else if b[0] != 'u' as int || ReadUnit(b[1..]).None? then None
    else
      var unit := ReadUnit(b[1..]).value;
      if !(0xD800 <= unit < 0xE000) then Some(Read(unit, b[5..]))
      else if unit < 0xDC00 && |b| >= 11 && b[5] == '\\' as int && b[6] == 'u' as int && ReadUnit(b[7..]).Some?
              && 0xDC00 <= ReadUnit(b[7..]).value < 0xE000
      then Some(Read(0x1_0000 + (unit - 0xD800) * 0x400 + ReadUnit(b[7..]).value - 0xDC00, b[11..]))
      else None
  }

  predicate Continues(b: Byte) {
    0x80 <= b < 0xC0
  }

  /** One character of UTF-8, in its shortest form. */
  function ReadUtf8(b: seq<Byte>): (r: Option<Read<CodePoint>>)
    ensures r.Some? ==> |r.value.rest| < |b| && IsScalar(r.value.value)
  {
    if b == [] then None
    else if 0 <= b[0] < 0x80 then Some(Read(b[0], b[1..]))
    else if 0xC2 <= b[0] < 0xE0 then
      if |b| >= 2 && Continues(b[1]) then Some(Read((b[0] - 0xC0) * 0x40 + b[1] - 0x80, b[2..])) else None
    else if 0xE0 <= b[0] < 0xF0 && |b| >= 3 && Continues(b[1]) && Continues(b[2]) then
      var c := (b[0] - 0xE0) * 0x1000 + (b[1] - 0x80) * 0x40 + b[2] - 0x80;
      if c >= 0x800 && !(0xD800 <= c < 0xE000) then Some(Read(c, b[3..])) else None
    else if 0xF0 <= b[0] < 0xF5 && |b| >= 4 && Continues(b[1]) && Continues(b[2]) && Continues(b[3]) then
      var c := (b[0] - 0xF0) * 0x4_0000 + (b[1] - 0x80) * 0x1000 + (b[2] - 0x80) * 0x40 + b[3] - 0x80;
      if 0x1_0000 <= c < 0x11_0000 then Some(Read(c, b[4..])) else None
    else None
  }

  /** One character of a string, which is no quotation mark and no bare control. */
  function ReadChar(b: seq<Byte>): (r: Option<Read<CodePoint>>)
    ensures r.Some? ==> |r.value.rest| < |b|
  {
    if b == [] || b[0] == '"' as int || b[0] < 0x20 then None
    else if b[0] == '\\' as int then ReadEscape(b[1..])
    else ReadUtf8(b)
  }

  /** The characters up to the closing quotation mark. */
  function ReadText(b: seq<Byte>): (r: Option<Read<Text>>)
    ensures r.Some? ==> |r.value.rest| < |b|
    decreases |b|
  {
    if b != [] && b[0] == '"' as int then Some(Read([], b[1..]))
    else
      var c := ReadChar(b);
      if c.None? then None
      else
        var more := ReadText(c.value.rest);
        if more.None? then None else Some(Read([c.value.value] + more.value.value, more.value.rest))
  }

  // ----- numbers (section 6, without fractions and exponents) -------------------------------------------

  function DigitRun(b: seq<Byte>): (n: nat)
    ensures n <= |b| && DigitBytes(b[..n]) && Boundary(b[n..])
  {
    if b == [] || !(48 <= b[0] <= 57) then 0
    else
      var n := 1 + DigitRun(b[1..]);
      assert b[..n] == [b[0]] + b[1..][..n - 1] && b[n..] == b[1..][n - 1..];
      n
  }

  function NumberOf(digits: seq<Byte>): int {
    if digits == [] then 0
    else NumberOf(digits[..|digits| - 1]) * 10 + digits[|digits| - 1] - '0' as int
  }

  /** Digits without a leading zero, behind a sign or not. */
  function ReadInt(b: seq<Byte>): (r: Option<Read<int>>)
    ensures r.Some? ==> |r.value.rest| < |b|
  {
    var negative := b != [] && b[0] == '-' as int;
    var d := if negative then b[1..] else b;
    var n := DigitRun(d);
    if n == 0 || (n > 1 && d[0] == '0' as int) then None
    else Some(Read(if negative then -NumberOf(d[..n]) else NumberOf(d[..n]), d[n..]))
  }

  // ----- values (sections 3 to 5) -----------------------------------------------------------------------

  function Starts(b: seq<Byte>, word: string): (r: bool)
    ensures r ==> |word| <= |b|
  {
    |word| <= |b| && forall i :: 0 <= i < |word| ==> b[i] == word[i] as int
  }

  function ReadValue(b: seq<Byte>): (r: Option<Read<Json>>)
    ensures r.Some? ==> |r.value.rest| < |b|
    decreases |b|, 0
  {
    if Starts(b, "null") then Some(Read(Null, b[4..]))
    else if Starts(b, "true") then Some(Read(Bool(true), b[4..]))
    else if Starts(b, "false") then Some(Read(Bool(false), b[5..]))
    else if b == [] then None
    else if b[0] == '"' as int then
      var s := ReadText(b[1..]);
      if s.None? then None else Some(Read(Str(s.value.value), s.value.rest))
    else if b[0] == '[' as int then
      if |b| > 1 && b[1] == ']' as int then Some(Read(Array([]), b[2..]))
      else
        var items := ReadItems(b[1..]);
        if items.None? then None else Some(Read(Array(items.value.value), items.value.rest))
    else if b[0] == '{' as int then
      if |b| > 1 && b[1] == '}' as int then Some(Read(Object([]), b[2..]))
      else
        var members := ReadMembers(b[1..]);
        if members.None? then None else Some(Read(Object(members.value.value), members.value.rest))
    else
      var n := ReadInt(b);
      if n.None? then None else Some(Read(Int(n.value.value), n.value.rest))
  }

  /** One or more values with commas between, up to the closing bracket. */
  function ReadItems(b: seq<Byte>): (r: Option<Read<seq<Json>>>)
    ensures r.Some? ==> |r.value.rest| < |b|
    decreases |b|, 1
  {
    var first := ReadValue(b);
    if first.None? || first.value.rest == [] then None
    else
      var rest := first.value.rest;
      if rest[0] == ']' as int then Some(Read([first.value.value], rest[1..]))
      else if rest[0] != ',' as int then None
      else
        var more := ReadItems(rest[1..]);
        if more.None? then None else Some(Read([first.value.value] + more.value.value, more.value.rest))
  }

  function ReadMember(b: seq<Byte>): (r: Option<Read<Member>>)
    ensures r.Some? ==> |r.value.rest| < |b|
    decreases |b|, 1
  {
    if b == [] || b[0] != '"' as int then None
    else
      var key := ReadText(b[1..]);
      if key.None? || key.value.rest == [] || key.value.rest[0] != ':' as int then None
      else
        var value := ReadValue(key.value.rest[1..]);
        if value.None? then None else Some(Read(Member(key.value.value, value.value.value), value.value.rest))
  }

  function ReadMembers(b: seq<Byte>): (r: Option<Read<seq<Member>>>)
    ensures r.Some? ==> |r.value.rest| < |b|
    decreases |b|, 2
  {
    var first := ReadMember(b);
    if first.None? || first.value.rest == [] then None
    else
      var rest := first.value.rest;
      if rest[0] == '}' as int then Some(Read([first.value.value], rest[1..]))
      else if rest[0] != ',' as int then None
      else
        var more := ReadMembers(rest[1..]);
        if more.None? then None else Some(Read([first.value.value] + more.value.value, more.value.rest))
  }

  // ----- what the encoder writes of a character ---------------------------------------------------------

  lemma HexReads(d: int)
    requires 0 <= d < 16
    ensures HexValue(Hex(d)) == Some(d) && !('A' as int <= Hex(d) <= 'F' as int)
  {
  }

  lemma Utf8Reads(c: CodePoint, r: seq<Byte>)
    requires IsScalar(c)
    ensures ReadUtf8(Utf8(c) + r) == Some(Read(c, r))
    ensures c >= 0x80 ==> Utf8(c)[0] >= 0xC0
  {
    Digits64(c);
    var b := Utf8(c) + r;
    assert b[|Utf8(c)|..] == r;
  }

  /** An escaped character is read back, whatever follows it. */
  lemma EscapeReads(c: CodePoint, r: seq<Byte>)
    requires IsScalar(c)
    ensures ReadChar(Escape(c) + r) == Some(Read(c, r)) && Escape(c)[0] != '"' as int
  {
    var b := Escape(c) + r;
    if c < 0x20 || c == 34 || c == 92 {
      assert b[1..][1..] == (if |Escape(c)| == 2 then r else b[2..]);
      if |Escape(c)| == 6 {
        ControlReads(c, r);
      }
    } else {
      Utf8Reads(c, r);
    }
  }

  lemma ControlReads(c: CodePoint, r: seq<Byte>)
    requires 0 <= c < 0x20 && |Escape(c)| == 6
    ensures ReadChar(Escape(c) + r) == Some(Read(c, r))
  {
    var b := Escape(c) + r;
    HexReads(c / 16);
    HexReads(c % 16);
    assert b[1..][1..][..4] == Escape(c)[2..6];
    assert b[1..][5..] == r;
    assert HexValue(48) == Some(0);
  }

  /** No shorter text is read as the character: it is escaped only where it must be, and shortly where it can be. */
  lemma EscapeIsShortest(c: CodePoint, b: seq<Byte>)
    requires IsScalar(c) && ReadChar(b) == Some(Read(c, []))
    ensures |Escape(c)| <= |b|
    ensures forall i :: 2 <= i < |Escape(c)| && c < 0x20 ==> !('A' as int <= Escape(c)[i] <= 'F' as int)
  {
    if c < 0x20 {
      HexReads(c / 16);
      HexReads(c % 16);
    } else {
      UnescapedLength(c, b);
    }
  }

  lemma UnescapedLength(c: CodePoint, b: seq<Byte>)
    requires IsScalar(c) && ReadChar(b) == Some(Read(c, [])) && c >= 0x20
    ensures |Escape(c)| <= |b|
  {
    Digits64(c);
  }

  lemma {:induction false} TextReads(s: Text, r: seq<Byte>)
    requires IsScalarText(s)
    ensures ReadText(Escaped(s) + [34] + r) == Some(Read(s, r))
  {
    hide Escape;
    var b := Escaped(s) + [34] + r;
    if s == [] {
      assert b == [34] + r && b[1..] == r;
    } else {
      EscapedSplits(s, r);
      EscapeReads(s[0], Escaped(s[1..]) + [34] + r);
      TextReads(s[1..], r);
      assert s == [s[0]] + s[1..];
    }
  }

  // ----- what it writes of a number ---------------------------------------------------------------------

  lemma {:induction false} RunIs(digits: seq<Byte>, r: seq<Byte>)
    requires DigitBytes(digits) && Boundary(r)
    ensures DigitRun(digits + r) == |digits| && (digits + r)[..|digits|] == digits && (digits + r)[|digits|..] == r
  {
    var b := digits + r;
    var n := DigitRun(b);
    assert b[..n] + b[n..] == b;
    SameDigitBytes(b[..n], digits, b[n..], r);
  }

  lemma {:induction false} NumeralReads(n: nat)
    ensures NumberOf(Digits(n)) == n && DigitBytes(Digits(n)) && Digits(n) != []
    ensures |Digits(n)| > 1 ==> n > 9 && Digits(n)[0] != '0' as int
    ensures n > 0 ==> Digits(n)[0] != '0' as int
  {
    DigitsAreDigits(n);
    if n < 10 {
      assert Digits(n)[..0] == [];
    } else {
      NumeralReads(n / 10);
      var front := Digits(n / 10);
      assert Digits(n) == front + [Decimal.Digit(n % 10) as int];
      assert Digits(n)[..|front|] == front;
    }
  }

  lemma IntReads(n: int, r: seq<Byte>)
    requires Boundary(r)
    ensures ReadInt(Bytes(Int(n)) + r) == Some(Read(n, r))
  {
    hide Digits, DigitRun, NumberOf, Boundary;
    var m := if n < 0 then -n else n;
    NumeralReads(m);
    RunIs(Digits(m), r);
    IntBytes(n, r);
    DigitsAreDigits(m);
    assert (Digits(m) + r)[0] == Digits(m)[0];
  }

  lemma IntBytes(n: int, r: seq<Byte>)
    ensures n < 0 ==> Bytes(Int(n)) + r == [45] + (Digits(-n) + r) && (Bytes(Int(n)) + r)[1..] == Digits(-n) + r
    ensures n >= 0 ==> Bytes(Int(n)) + r == Digits(n) + r
  {
  }

  // ----- the reader inverts the encoder -----------------------------------------------------------------

  /** What was written is read back: the same value, and the bytes behind it are left. */
  ghost predicate ReadsAs(v: Json, r: seq<Byte>) {
    ReadValue(Bytes(v) + r).Some? && ReadValue(Bytes(v) + r).value.rest == r &&
        Same(v, ReadValue(Bytes(v) + r).value.value)
  }

  /** The encoding of a value reads back as that value, whatever delimiter follows it. */
  lemma {:induction false} ReaderInvertsEncoder(v: Json, r: seq<Byte>)
    requires InDomain(v) && Boundary(r)
    ensures ReadsAs(v, r)
    decreases v, 2
  {
    hide *;
    match v
    case Null => AtomReads(v, "null", r);
    case Bool(flag) => AtomReads(v, if flag then "true" else "false", r);
    case Int(n) => NumberReads(n, r);
    case Str(s) => StringReads(s, r);
    case Array(items) => ArrayReads(v, r);
    case Object(members) => ObjectReads(v, r);
  }

  lemma AtomReads(v: Json, word: string, r: seq<Byte>)
    requires (v == Null && word == "null") || (v == Bool(true) && word == "true") ||
             (v == Bool(false) && word == "false")
    ensures ReadsAs(v, r)
  {
    var b := Bytes(v) + r;
    assert Bytes(v) == Ascii(word);
    assert Starts(b, word) && b[|word|..] == r;
    assert b[0] == word[0] as int;
    assert word != "null" ==> !Starts(b, "null");
    assert word == "false" ==> !Starts(b, "true");
  }

  lemma NumberReads(n: int, r: seq<Byte>)
    requires Boundary(r)
    ensures ReadsAs(Int(n), r)
  {
    hide ReadInt, Bytes, Boundary, Starts;
    IntReads(n, r);
    IntStarts(n, r);
  }

  lemma IntStarts(n: int, r: seq<Byte>)
    ensures var b := Bytes(Int(n)) + r; b != [] && (b[0] == '-' as int || 48 <= b[0] <= 57)
    ensures !Starts(Bytes(Int(n)) + r, "null") && !Starts(Bytes(Int(n)) + r, "true")
    ensures !Starts(Bytes(Int(n)) + r, "false")
  {
    DigitsAreDigits(if n < 0 then -n else n);
    var b := Bytes(Int(n)) + r;
    StartsAlike(b, "null");
    StartsAlike(b, "true");
    StartsAlike(b, "false");
  }

  lemma StartsAlike(b: seq<Byte>, word: string)
    requires word != ""
    ensures Starts(b, word) ==> b != [] && b[0] == word[0] as int
  {
  }

  lemma NoWord(b: seq<Byte>)
    requires b != [] && b[0] in {34, 91, 123}
    ensures !Starts(b, "null") && !Starts(b, "true") && !Starts(b, "false")
  {
    StartsAlike(b, "null");
    StartsAlike(b, "true");
    StartsAlike(b, "false");
  }

  lemma StringReads(s: Text, r: seq<Byte>)
    requires InDomain(Str(s))
    ensures ReadsAs(Str(s), r)
  {
    var b := Bytes(Str(s)) + r;
    assert b[1..] == Escaped(s) + [34] + r;
    TextReads(s, r);
    NoWord(b);
  }

  lemma {:induction false} ArrayReads(v: Json, r: seq<Byte>)
    requires v.Array? && InDomain(v)
    ensures ReadsAs(v, r)
    decreases v, 1
  {
    hide Items, Bytes, ReadValue, ReadItems, Same, InDomain, Boundary;
    var b, inner := Bytes(v) + r, Items(v, 0) + [93] + r;
    ArrayBytes(v, r);
    ItemsStart(v, 0, r);
    if v.items == [] {
      assert b[2..] == inner[1..] == r;
    } else {
      ItemsRead(v, 0, r);
      assert Comma(0) + (Bytes(v.items[0]) + (Items(v, 1) + [93] + r)) == Bytes(v.items[0]) + (Items(v, 1) + [93] + r);
    }
    ArrayValue(b);
    SameArrays(v, ReadValue(b).value.value);
  }

  lemma ArrayBytes(v: Json, r: seq<Byte>)
    requires v.Array?
    ensures var b := Bytes(v) + r; |b| > 1 && b[0] == 91 && b[1..] == Items(v, 0) + [93] + r && b[1] == b[1..][0]
  {
  }

  lemma ArrayValue(b: seq<Byte>)
    requires |b| > 1 && b[0] == 91
    ensures b[1] == 93 ==> ReadValue(b) == Some(Read(Array([]), b[2..]))
    ensures b[1] != 93 && ReadItems(b[1..]).Some? ==>
              ReadValue(b) == Some(Read(Array(ReadItems(b[1..]).value.value), ReadItems(b[1..]).value.rest))
  {
    NoWord(b);
  }

  lemma SameArrays(a: Json, b: Json)
    requires a.Array? && b.Array? && |a.items| == |b.items|
    requires forall i :: 0 <= i < |a.items| ==> Same(a.items[i], b.items[i])
    ensures Same(a, b)
  {
  }

  /** The items from the ith on are read back, one by one. */
  lemma {:induction false} ItemsRead(v: Json, i: nat, r: seq<Byte>)
    requires v.Array? && InDomain(v) && i < |v.items|
    ensures var read := ReadItems(Bytes(v.items[i]) + (Items(v, i + 1) + [93] + r));
            && read.Some? && read.value.rest == r && |read.value.value| == |v.items| - i
            && forall k :: i <= k < |v.items| ==> Same(v.items[k], read.value.value[k - i])
    decreases v, 0, |v.items| - i
  {
    hide Bytes, Items, Same, ReadValue, InDomain, Boundary;
    var rest := Items(v, i + 1) + [93] + r;
    ItemsStart(v, i + 1, r);
    ItemIsSmaller(v, i);
    ReaderInvertsEncoder(v.items[i], rest);
    if i + 1 == |v.items| {
      assert rest[1..] == r;
    } else {
      var next := Bytes(v.items[i + 1]) + (Items(v, i + 2) + [93] + r);
      assert rest == [44] + next && rest[1..] == next;
      ItemsRead(v, i + 1, r);
    }
  }

  lemma ItemIsSmaller(v: Json, i: nat)
    requires v.Array? && InDomain(v) && i < |v.items|
    ensures v.items[i] < v && InDomain(v.items[i])
  {
  }

  lemma {:induction false} ObjectReads(v: Json, r: seq<Byte>)
    requires v.Object? && InDomain(v)
    ensures ReadsAs(v, r)
    decreases v, 1
  {
    hide Entries, Entry, Same, Sort, Bytes, ReadValue, ReadMembers, InDomain, Boundary, Lookup;
    var b, keys := Bytes(v) + r, Sort(Keys(v.members));
    var inner := Entries(v, keys, 0) + [125] + r;
    ObjectBytes(v, r);
    SortedKeys(v);
    EntriesStart(v, keys, 0, r);
    ObjectValue(b);
    if keys == [] {
      assert b[2..] == inner[1..] == r;
      NoMembers(v, keys);
    } else {
      EntriesRead(v, keys, 0, r);
      var behind := Entries(v, keys, 1) + [125] + r;
      assert Comma(0) + (Entry(v, keys[0]) + behind) == Entry(v, keys[0]) + behind;
      ReadBackIsSame(v, keys, ReadMembers(inner).value.value);
    }
  }

  lemma ObjectBytes(v: Json, r: seq<Byte>)
    requires v.Object?
    ensures var b := Bytes(v) + r;
            |b| > 1 && b[0] == 123 && b[1..] == Entries(v, Sort(Keys(v.members)), 0) + [125] + r && b[1] == b[1..][0]
  {
    hide Sort, Keys, Entries;
  }

  lemma ObjectValue(b: seq<Byte>)
    requires |b| > 1 && b[0] == 123
    ensures b[1] == 125 ==> ReadValue(b) == Some(Read(Object([]), b[2..]))
    ensures b[1] != 125 && ReadMembers(b[1..]).Some? ==>
              ReadValue(b) == Some(Read(Object(ReadMembers(b[1..]).value.value), ReadMembers(b[1..]).value.rest))
  {
    NoWord(b);
  }

  lemma NoMembers(v: Json, keys: seq<Text>)
    requires v.Object? && keys == [] && Elements(keys) == Elements(Keys(v.members))
    ensures Same(v, Object([]))
  {
    SomeElement(Keys(v.members));
    assert Keys(v.members) == [];
  }

  lemma SomeElement<T>(s: seq<T>)
    ensures s != [] ==> Elements(s) != {}
  {
    assert s != [] ==> s[0] in Elements(s);
  }

  /** The members from the ith key on are read back, in the order they were written. */
  lemma {:induction false} EntriesRead(v: Json, keys: seq<Text>, i: nat, r: seq<Byte>)
    requires v.Object? && InDomain(v) && i < |keys| && forall k <- keys :: k in Keys(v.members) && IsScalarText(k)
    ensures var read := ReadMembers(Entry(v, keys[i]) + (Entries(v, keys, i + 1) + [125] + r));
            && read.Some? && read.value.rest == r && |read.value.value| == |keys| - i
            && forall k :: i <= k < |keys| ==>
                           && read.value.value[k - i].key == keys[k]
                           && Same(Lookup(v.members, keys[k]), read.value.value[k - i].value)
    decreases v, 0, |keys| - i
  {
    hide Bytes, Entries, Entry, Same, ReadMember, InDomain, Boundary, Lookup;
    var rest := Entries(v, keys, i + 1) + [125] + r;
    EntriesStart(v, keys, i + 1, r);
    assert keys[i] in keys;
    MemberIsSmaller(v, keys[i]);
    ReaderInvertsEncoder(Lookup(v.members, keys[i]), rest);
    EntryReads(v, keys[i], rest);
    if i + 1 == |keys| {
      assert rest[1..] == r;
    } else {
      var next := Entry(v, keys[i + 1]) + (Entries(v, keys, i + 2) + [125] + r);
      assert rest == [44] + next && rest[1..] == next;
      EntriesRead(v, keys, i + 1, r);
    }
  }

  lemma EntryReads(v: Json, key: Text, rest: seq<Byte>)
    requires v.Object? && key in Keys(v.members) && IsScalarText(key) && ReadsAs(Lookup(v.members, key), rest)
    ensures var read := ReadMember(Entry(v, key) + rest);
            && read.Some? && read.value.rest == rest && read.value.value.key == key
            && Same(Lookup(v.members, key), read.value.value.value)
  {
    hide Bytes, Same, ReadValue, Lookup, Escaped;
    var value := Bytes(Lookup(v.members, key)) + rest;
    var b := Entry(v, key) + rest;
    assert b[1..] == Escaped(key) + [34] + ([58] + value);
    TextReads(key, [58] + value);
    assert ([58] + value)[1..] == value;
  }

  lemma ReadBackIsSame(v: Json, keys: seq<Text>, members: seq<Member>)
    requires v.Object? && InDomain(v) && Elements(keys) == Elements(Keys(v.members)) && |members| == |keys|
    requires forall k :: 0 <= k < |keys| ==>
               keys[k] in Keys(v.members) && members[k].key == keys[k]
               && Same(Lookup(v.members, keys[k]), members[k].value)
    ensures Same(v, Object(members))
  {
    hide InDomain, Lookup, Same;
    var ms := v.members;
    assert Keys(members) == keys;
    forall i, j | 0 <= i < |ms| && 0 <= j < |members| && ms[i].key == members[j].key
      ensures Same(ms[i].value, members[j].value)
    {
      KeysAreDistinct(v);
      LookupOfMember(ms, i);
    }
    SameObjects(v, Object(members));
  }

  lemma KeysAreDistinct(v: Json)
    requires v.Object? && InDomain(v)
    ensures Distinct(Keys(v.members))
  {
  }

  lemma SameObjects(a: Json, b: Json)
    requires a.Object? && b.Object? && Elements(Keys(a.members)) == Elements(Keys(b.members))
    requires forall i, j :: 0 <= i < |a.members| && 0 <= j < |b.members| && a.members[i].key == b.members[j].key ==>
               Same(a.members[i].value, b.members[j].value)
    ensures Same(a, b)
  {
  }

  // ----- the order of members (section 3.2.3 of RFC 8785) -----------------------------------------------

  /** By UTF-16 code units: supplementary characters stand below the units from U+E000 on, as their surrogates do. */
  predicate Before(c: CodePoint, d: CodePoint) {
    if (c < 0x1_0000) == (d < 0x1_0000) then c < d
    else if c < 0x1_0000 then c < 0xD800
    else d >= 0xE000
  }

  predicate Precedes(s: Text, t: Text) {
    t != [] && (s == [] || Before(s[0], t[0]) || (s[0] == t[0] && Precedes(s[1..], t[1..])))
  }

  lemma UnitOrder(c: CodePoint, d: CodePoint, x: seq<Byte>, y: seq<Byte>)
    requires IsScalar(c) && IsScalar(d) && c != d
    ensures Less(Utf16(c) + x, Utf16(d) + y) <==> Before(c, d)
  {
    hide Utf16, Less;
    var k := Utf16Order(c, d);
    var a, b := Utf16(c), Utf16(d);
    assert (a + x)[..k] == a[..k] && (b + y)[..k] == b[..k];
    LessAt(a + x, b + y, k);
  }

  /** Unequal characters differ at some byte of their units, in the order of the characters. */
  lemma Utf16Order(c: CodePoint, d: CodePoint) returns (k: nat)
    requires IsScalar(c) && IsScalar(d) && c != d
    ensures DiffersAt(Utf16(c), Utf16(d), k) && (Utf16(c)[k] < Utf16(d)[k] <==> Before(c, d))
  {
    var a, b := Utf16(c), Utf16(d);
    if a[0] != b[0] {
      k := 0;
    } else if a[1] != b[1] {
      k := 1;
    } else if a[2] != b[2] {
      k := 2;
    } else {
      k := 3;
    }
    assert a[..k] == b[..k];
  }

  ghost predicate DiffersAt(a: seq<Byte>, b: seq<Byte>, k: nat) {
    k < |a| && k < |b| && a[..k] == b[..k] && a[k] != b[k]
  }

  lemma {:induction false} LessAt(a: seq<Byte>, b: seq<Byte>, k: nat)
    requires DiffersAt(a, b, k)
    ensures Less(a, b) <==> a[k] < b[k]
  {
    if k > 0 {
      assert a[0] == a[..k][0] == b[..k][0] == b[0];
      assert a[1..][..k - 1] == a[..k][1..] && b[1..][..k - 1] == b[..k][1..];
      LessAt(a[1..], b[1..], k - 1);
    }
  }

  /** The order in which members are written is that of their keys' code units, the first difference deciding. */
  lemma {:induction false} KeysAreOrdered(s: Text, t: Text)
    requires IsScalarText(s) && IsScalarText(t)
    ensures Less(SortKey(s), SortKey(t)) <==> Precedes(s, t)
  {
    hide Utf16, Before;
    if s != [] && t != [] {
      if s[0] != t[0] {
        UnitOrder(s[0], t[0], SortKey(s[1..]), SortKey(t[1..]));
      } else {
        SameHeadLess(Utf16(s[0]), SortKey(s[1..]), SortKey(t[1..]));
        BeforeIsStrict(s[0]);
        KeysAreOrdered(s[1..], t[1..]);
      }
    } else if t != [] {
      Utf16Shows(t[0], []);
    }
  }

  lemma BeforeIsStrict(c: CodePoint)
    ensures !Before(c, c)
  {
  }

  lemma {:induction false} SameHeadLess(h: seq<Byte>, x: seq<Byte>, y: seq<Byte>)
    ensures Less(h + x, h + y) <==> Less(x, y)
  {
    if h == [] {
      assert h + x == x && h + y == y;
    } else {
      assert (h + x)[1..] == h[1..] + x && (h + y)[1..] == h[1..] + y;
      SameHeadLess(h[1..], x, y);
    }
  }
}
