/** Exact UTC timestamps YYYY-MM-DDTHH:MM:SSZ, which the repository compares as texts. */
module Timestamps {
  import opened Prelude
  import opened Sorting
  import Decimal

  datatype Civil = Civil(year: nat, month: nat, day: nat, hour: nat, minute: nat, second: nat)

  predicate Leap(year: nat) {
    year % 4 == 0 && (year % 100 != 0 || year % 400 == 0)
  }

  function MonthLength(year: nat, month: nat): nat {
    if month in {4, 6, 9, 11} then 30 else if month == 2 then if Leap(year) then 29 else 28 else 31
  }

  predicate Valid(c: Civil) {
    && c.year <= 9999 && 1 <= c.month <= 12 && 1 <= c.day <= MonthLength(c.year, c.month)
    && c.hour < 24 && c.minute < 60 && c.second < 60
  }

  // ----- chronological order ----------------------------------------------------------------------------

  function DaysBeforeYear(year: nat): nat {
    if year == 0 then 0 else DaysBeforeYear(year - 1) + if Leap(year - 1) then 366 else 365
  }

  function DaysBeforeMonth(year: nat, month: nat): nat
    requires month >= 1
  {
    if month == 1 then 0 else DaysBeforeMonth(year, month - 1) + MonthLength(year, month - 1)
  }

  /** Seconds since the start of year zero. */
  function Seconds(c: Civil): nat
    requires Valid(c)
  {
    (((DaysBeforeYear(c.year) + DaysBeforeMonth(c.year, c.month) + c.day - 1) * 24 + c.hour) * 60 + c.minute) * 60 +
        c.second
  }

  // ----- the text ---------------------------------------------------------------------------------------

  function Digit(n: nat): (c: char)
    requires n < 10
    ensures (c as int) == n + 48
  {
    (n + 48) as char
  }

  function Digits(n: nat, width: nat): (s: string)
    ensures |s| == width
  {
    if width == 0 then "" else Digits(n / 10, width - 1) + [Digit(n % 10)]
  }

  function Format(c: Civil): string {
    Digits(c.year, 4) + ("-" + (Digits(c.month, 2) + ("-" + (Digits(c.day, 2) + ("T" +
    (Digits(c.hour, 2) + (":" + (Digits(c.minute, 2) + (":" + (Digits(c.second, 2) + "Z"))))))))))
  }

  // ----- the two orders agree ---------------------------------------------------------------------------

  lemma {:induction false} LessConcat(a: string, b: string, x: string, y: string)
    requires |a| == |b|
    ensures Less(a + x, b + y) <==> Less(a, b) || (a == b && Less(x, y))
  {
    if a == "" {
      assert a + x == x && b + y == y;
    } else {
      assert (a + x)[1..] == a[1..] + x && (b + y)[1..] == b[1..] + y;
      LessConcat(a[1..], b[1..], x, y);
      assert a == b <==> a[0] == b[0] && a[1..] == b[1..];
    }
  }

  lemma {:induction false} DigitsOrder(m: nat, n: nat, width: nat)
    requires m < Power(10, width) && n < Power(10, width)
    ensures Less(Digits(m, width), Digits(n, width)) <==> m < n
    ensures Digits(m, width) == Digits(n, width) <==> m == n
  {
    if width > 0 {
      DigitsOrder(m / 10, n / 10, width - 1);
      var a, b := Digits(m / 10, width - 1), Digits(n / 10, width - 1);
      LessConcat(a, b, [Digit(m % 10)], [Digit(n % 10)]);
      assert [Digit(m % 10)][1..] == [] && [Digit(n % 10)][1..] == [];
      assert Digits(m, width)[..width - 1] == a && Digits(n, width)[..width - 1] == b;
      assert Digits(m, width)[width - 1] == Digit(m % 10) && Digits(n, width)[width - 1] == Digit(n % 10);
    }
  }

  /** A fixed-width field followed by anything: the field decides first. */
  lemma FieldOrder(m: nat, n: nat, width: nat, x: string, y: string)
    requires m < Power(10, width) && n < Power(10, width)
    ensures Less(Digits(m, width) + x, Digits(n, width) + y) <==> m < n || (m == n && Less(x, y))
  {
    DigitsOrder(m, n, width);
    LessConcat(Digits(m, width), Digits(n, width), x, y);
  }

  lemma MarkOrder(mark: string, x: string, y: string)
    ensures Less(mark + x, mark + y) <==> Less(x, y)
  {
    LessConcat(mark, mark, x, y);
    Irreflexive(mark);
  }

  /** Field by field, the most significant first. */
  predicate Earlier(a: Civil, b: Civil) {
    a.year < b.year || (a.year == b.year &&
    (a.month < b.month || (a.month == b.month &&
    (a.day < b.day || (a.day == b.day &&
    (a.hour < b.hour || (a.hour == b.hour &&
    (a.minute < b.minute || (a.minute == b.minute && a.second < b.second)))))))))
  }

  lemma TextOrder(a: Civil, b: Civil)
    requires Valid(a) && Valid(b)
    ensures Less(Format(a), Format(b)) <==> Earlier(a, b)
  {
    assert Power(10, 2) == 100 && Power(10, 4) == 10000 by {
      assert Power(10, 1) == 10 && Power(10, 3) == 1000;
    }
    hide Less, Digits, Power;
    var second, second' := Digits(a.second, 2) + "Z", Digits(b.second, 2) + "Z";
    FieldOrder(a.second, b.second, 2, "Z", "Z");
    Irreflexive("Z");
    var minute, minute' := Digits(a.minute, 2) + (":" + second), Digits(b.minute, 2) + (":" + second');
    MarkOrder(":", second, second');
    FieldOrder(a.minute, b.minute, 2, ":" + second, ":" + second');
    var hour, hour' := Digits(a.hour, 2) + (":" + minute), Digits(b.hour, 2) + (":" + minute');
    MarkOrder(":", minute, minute');
    FieldOrder(a.hour, b.hour, 2, ":" + minute, ":" + minute');
    var day, day' := Digits(a.day, 2) + ("T" + hour), Digits(b.day, 2) + ("T" + hour');
    MarkOrder("T", hour, hour');
    FieldOrder(a.day, b.day, 2, "T" + hour, "T" + hour');
    var month, month' := Digits(a.month, 2) + ("-" + day), Digits(b.month, 2) + ("-" + day');
    MarkOrder("-", day, day');
    FieldOrder(a.month, b.month, 2, "-" + day, "-" + day');
    MarkOrder("-", month, month');
    FieldOrder(a.year, b.year, 4, "-" + month, "-" + month');
  }

  lemma {:induction false} MonthsAdd(year: nat, m: nat, n: nat)
    requires 1 <= m < n
    ensures DaysBeforeMonth(year, m) + MonthLength(year, m) <= DaysBeforeMonth(year, n)
  {
    if m < n - 1 {
      MonthsAdd(year, m, n - 1);
    }
  }

  lemma YearFits(c: Civil)
    requires Valid(c)
    ensures DaysBeforeMonth(c.year, c.month) + c.day <= if Leap(c.year) then 366 else 365
  {
    if c.month < 12 {
      MonthsAdd(c.year, c.month, 12);
    }
    hide Leap;
    var y := c.year;
    assert DaysBeforeMonth(y, 4) == 59 + (if Leap(y) then 1 else 0) + 31 by {
      assert DaysBeforeMonth(y, 2) == 31;
      assert DaysBeforeMonth(y, 3) == 59 + if Leap(y) then 1 else 0;
    }
    assert DaysBeforeMonth(y, 5) == DaysBeforeMonth(y, 4) + 30;
    assert DaysBeforeMonth(y, 6) == DaysBeforeMonth(y, 5) + 31;
    assert DaysBeforeMonth(y, 7) == DaysBeforeMonth(y, 6) + 30;
    assert DaysBeforeMonth(y, 8) == DaysBeforeMonth(y, 7) + 31;
    assert DaysBeforeMonth(y, 9) == DaysBeforeMonth(y, 8) + 31;
    assert DaysBeforeMonth(y, 10) == DaysBeforeMonth(y, 9) + 30;
    assert DaysBeforeMonth(y, 11) == DaysBeforeMonth(y, 10) + 31;
    assert DaysBeforeMonth(y, 12) == DaysBeforeMonth(y, 11) + 30;
  }

  lemma {:induction false} YearsAdd(m: nat, n: nat)
    requires m < n
    ensures DaysBeforeYear(m) + (if Leap(m) then 366 else 365) <= DaysBeforeYear(n)
  {
    if m < n - 1 {
      YearsAdd(m, n - 1);
    }
  }

  function Day(c: Civil): nat
    requires Valid(c)
  {
    DaysBeforeYear(c.year) + DaysBeforeMonth(c.year, c.month) + c.day - 1
  }

  lemma DayOrder(a: Civil, b: Civil)
    requires Valid(a) && Valid(b)
    requires a.year < b.year || (a.year == b.year && (a.month < b.month || (a.month == b.month && a.day < b.day)))
    ensures Day(a) < Day(b)
  {
    hide Leap;
    if a.year < b.year {
      YearFits(a);
      YearsAdd(a.year, b.year);
    } else if a.month < b.month {
      MonthsAdd(a.year, a.month, b.month);
    }
  }

  lemma EarlierIsBefore(a: Civil, b: Civil)
    requires Valid(a) && Valid(b) && Earlier(a, b)
    ensures Seconds(a) < Seconds(b)
  {
    if a.year < b.year || (a.year == b.year && (a.month < b.month || (a.month == b.month && a.day < b.day))) {
      DayOrder(a, b);
    }
    assert Seconds(a) == 86400 * Day(a) + 3600 * a.hour + 60 * a.minute + a.second;
    assert Seconds(b) == 86400 * Day(b) + 3600 * b.hour + 60 * b.minute + b.second;
  }

  /** Comparing two exact timestamps as texts is comparing the instants they name. */
  lemma LexicographicIsChronological(a: Civil, b: Civil)
    requires Valid(a) && Valid(b)
    ensures Less(Format(a), Format(b)) <==> Seconds(a) < Seconds(b)
  {
    hide Seconds, Less, Format;
    TextOrder(a, b);
    if Earlier(a, b) {
      EarlierIsBefore(a, b);
    } else if Earlier(b, a) {
      EarlierIsBefore(b, a);
    }
  }

  // ----- the calendar and the text, checked against what they are known to be ------------------------------

  /** A leap year every four years, but of the centuries only every fourth: 146097 days in 400 years. */
  lemma {:induction false} YearsAre(year: nat)
    ensures DaysBeforeYear(year) == 365 * year + (year + 3) / 4 - (year + 99) / 100 + (year + 399) / 400
  {
    if year > 0 {
      YearsAre(year - 1);
      FourthYears(year - 1);
      HundredthYears(year - 1);
      FourHundredthYears(year - 1);
    }
  }

  lemma FourthYears(y: nat)
    ensures (y + 4) / 4 == (y + 3) / 4 + if y % 4 == 0 then 1 else 0
  {
  }

  lemma HundredthYears(y: nat)
    ensures (y + 100) / 100 == (y + 99) / 100 + if y % 100 == 0 then 1 else 0
    ensures y % 100 == 0 ==> y % 4 == 0
  {
    var q, r := y / 100, y % 100;
    assert y == 100 * q + r && 0 <= r < 100;
    if r == 0 {
      assert y == 4 * (25 * q);
    }
  }

  lemma FourHundredthYears(y: nat)
    ensures (y + 400) / 400 == (y + 399) / 400 + if y % 400 == 0 then 1 else 0
    ensures y % 400 == 0 ==> y % 100 == 0
  {
    var q, r := y / 400, y % 400;
    assert y == 400 * q + r && 0 <= r < 400;
    if r == 0 {
      assert y == 100 * (4 * q);
    }
  }

  /** The days before each month of a year. */
  lemma MonthsAre(year: nat, month: nat)
    requires 1 <= month <= 12
    ensures DaysBeforeMonth(year, month) ==
            [0, 31, 59, 90, 120, 151, 181, 212, 243, 273, 304, 334][month - 1] +
            if month > 2 && Leap(year) then 1 else 0
  {
    hide Leap;
    if month > 1 {
      MonthsAre(year, month - 1);
    }
  }

  lemma DigitsAre(n: nat, width: nat)
    requires n < Power(10, width)
    ensures Decimal.AllDigits(Digits(n, width)) && Decimal.Value(Digits(n, width)) == n
  {
    if width > 0 {
      DigitsAre(n / 10, width - 1);
      var front := Digits(n / 10, width - 1);
      assert Digits(n, width)[..width - 1] == front;
      assert Decimal.IsDigit(Digit(n % 10));
    }
  }

  /** The text spells this number in the digits between two positions. */
  ghost predicate Spells(text: string, from: nat, to: nat, n: nat) {
    from <= to <= |text| && Decimal.AllDigits(text[from..to]) && Decimal.Value(text[from..to]) == n
  }

  /** A field and its mark before a text: the text moves on by both. */
  lemma FieldSpells(n: nat, width: nat, mark: string, text: string)
    requires n < Power(10, width) && |mark| == 1
    ensures var all := Digits(n, width) + (mark + text);
            && |all| == width + 1 + |text| && Spells(all, 0, width, n) && all[width] == mark[0]
            && (forall k :: 0 <= k < |text| ==> all[width + 1 + k] == text[k])
            && forall from: nat, to: nat, m: nat :: Spells(text, from, to, m) ==>
                 Spells(all, width + 1 + from, width + 1 + to, m)
  {
    hide Spells, Digits;
    OwnSpells(n, width, mark + text);
    MovesOn(Digits(n, width), mark, text);
  }

  lemma OwnSpells(n: nat, width: nat, rest: string)
    requires n < Power(10, width)
    ensures Spells(Digits(n, width) + rest, 0, width, n)
  {
    DigitsAre(n, width);
    assert (Digits(n, width) + rest)[0..width] == Digits(n, width);
  }

  lemma MovesOn(field: string, mark: string, text: string)
    requires |mark| == 1
    ensures var all := field + (mark + text);
            && all[|field|] == mark[0] && (forall k :: 0 <= k < |text| ==> all[|field| + 1 + k] == text[k])
            && forall from: nat, to: nat, m: nat :: Spells(text, from, to, m) ==>
                 Spells(all, |field| + 1 + from, |field| + 1 + to, m)
  {
    hide Spells;
    assert field + (mark + text) == (field + mark) + text;
    forall from: nat, to: nat, m: nat | Spells(text, from, to, m)
      ensures Spells(field + (mark + text), |field| + 1 + from, |field| + 1 + to, m)
    {
      Behind(field + mark, text, from, to, m);
    }
  }

  lemma Behind(head: string, text: string, from: nat, to: nat, m: nat)
    requires Spells(text, from, to, m)
    ensures Spells(head + text, |head| + from, |head| + to, m)
  {
    assert (head + text)[|head| + from..|head| + to] == text[from..to];
  }

  /** Twenty characters: every field in its place, with its marks between them. */
  lemma FormatIs(c: Civil)
    requires Valid(c)
    ensures var t := Format(c);
            && |t| == 20 && t[4] == '-' && t[7] == '-' && t[10] == 'T' && t[13] == ':' && t[16] == ':' && t[19] == 'Z'
            && Spells(t, 0, 4, c.year) && Spells(t, 5, 7, c.month) && Spells(t, 8, 10, c.day)
            && Spells(t, 11, 13, c.hour) && Spells(t, 14, 16, c.minute) && Spells(t, 17, 19, c.second)
  {
    TimeIs(c);
    assert Power(10, 2) == 100 && Power(10, 4) == 10000 by {
      assert Power(10, 1) == 10 && Power(10, 3) == 1000;
    }
    hide Spells, Digits, Power, TimeText;
    var day := Digits(c.day, 2) + ("T" + TimeText(c));
    FieldSpells(c.day, 2, "T", TimeText(c));
    var month := Digits(c.month, 2) + ("-" + day);
    FieldSpells(c.month, 2, "-", day);
    FieldSpells(c.year, 4, "-", month);
    FormatSplits(c);
  }

  function TimeText(c: Civil): string {
    Digits(c.hour, 2) + (":" + (Digits(c.minute, 2) + (":" + (Digits(c.second, 2) + "Z"))))
  }

  lemma FormatSplits(c: Civil)
    ensures Format(c) ==
            Digits(c.year, 4) + ("-" + (Digits(c.month, 2) + ("-" + (Digits(c.day, 2) + ("T" + TimeText(c))))))
  {
  }

  lemma TimeIs(c: Civil)
    requires Valid(c)
    ensures var t := TimeText(c);
            && |t| == 9 && t[2] == ':' && t[5] == ':' && t[8] == 'Z'
            && Spells(t, 0, 2, c.hour) && Spells(t, 3, 5, c.minute) && Spells(t, 6, 8, c.second)
  {
    assert Power(10, 2) == 100 by {
      assert Power(10, 1) == 10;
    }
    hide Spells, Digits, Power;
    var second := Digits(c.second, 2) + "Z";
    FieldSpells(c.second, 2, "Z", "");
    assert Digits(c.second, 2) + ("Z" + "") == second;
    FieldSpells(c.minute, 2, ":", second);
    FieldSpells(c.hour, 2, ":", Digits(c.minute, 2) + (":" + second));
  }
}
