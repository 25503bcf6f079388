/** Unsigned decimal numerals, and why they can be read back whatever non-digit follows. */
module Decimal {

  predicate IsDigit(c: char) {
    '0' <= c <= '9'
  }

  predicate AllDigits(s: string) {
    forall c <- s :: IsDigit(c)
  }

  function Digit(d: nat): (c: char)
    requires d < 10
    ensures IsDigit(c)
  {
    '0' + d as char
  }

  function Numeral(n: nat): (s: string)
    ensures s != [] && AllDigits(s)
  {
    if n < 10 then [Digit(n)] else Numeral(n / 10) + [Digit(n % 10)]
  }

  function Value(s: string): nat
    requires AllDigits(s)
  {
    if s == [] then 0
    else
      assert IsDigit(s[|s| - 1]);
      Value(s[..|s| - 1]) * 10 + (s[|s| - 1] as nat - '0' as nat)
  }

  lemma {:induction false} ValueOfNumeral(n: nat)
    ensures Value(Numeral(n)) == n
  {
    if n >= 10 {
      ValueOfNumeral(n / 10);
      var front := Numeral(n / 10);
      assert Numeral(n)[..|front|] == front;
    } else {
      assert Numeral(n)[..0] == [];
    }
  }

  /** A numeral ends where the digits end. */
  predicate Stops(rest: string) {
    rest == [] || !IsDigit(rest[0])
  }

  lemma {:induction false} SameDigits(a: string, b: string, r: string, t: string)
    requires AllDigits(a) && AllDigits(b) && Stops(r) && Stops(t) && a + r == b + t
    ensures a == b && r == t
  {
    if a != [] && b != [] {
      assert (a + r)[0] == a[0] && (b + t)[0] == b[0];
      assert (a + r)[1..] == a[1..] + r && (b + t)[1..] == b[1..] + t;
      SameDigits(a[1..], b[1..], r, t);
      assert a == [a[0]] + a[1..] && b == [b[0]] + b[1..];
    } else {
      assert a == [] ==> a + r == r;
      assert b == [] ==> b + t == t;
    }
  }

  lemma NumeralIsUnique(m: nat, n: nat, r: string, t: string)
    requires Stops(r) && Stops(t) && Numeral(m) + r == Numeral(n) + t
    ensures m == n && r == t
  {
    SameDigits(Numeral(m), Numeral(n), r, t);
    ValueOfNumeral(m);
    ValueOfNumeral(n);
  }
}
