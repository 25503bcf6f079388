/** Small shared vocabulary: optional values, results and facts about sequences. */
module Prelude {

  datatype Option<+T> = None | Some(value: T)

  datatype Result<+T, +E> = Ok(value: T) | Err(error: E)

  function Max(a: int, b: int): int { if a < b then b else a }

  function Min(a: int, b: int): int { if a < b then a else b }

  function Power(base: nat, n: nat): nat {
    if n == 0 then 1 else base * Power(base, n - 1)
  }

  function Flatten<T>(ss: seq<seq<T>>): seq<T> {
    if ss == [] then [] else Flatten(ss[..|ss| - 1]) + ss[|ss| - 1]
  }

  function Elements<T>(s: seq<T>): set<T> {
    set x | x in s
  }

  /** The distinct elements of a sequence in order of first appearance, as a dictionary lists its keys. */
  function Unique<T(==)>(s: seq<T>): seq<T> {
    if s == [] then []
    else
      var before, last := Unique(s[..|s| - 1]), s[|s| - 1];
      if last in before then before else before + [last]
  }

  /** A sequence with every occurrence of an element removed. */
  function Without<T(==, !new)>(s: seq<T>, x: T): (r: seq<T>)
    ensures forall y :: y in r <==> y in s && y != x
    ensures |r| <= |s| && (x in s ==> |r| < |s|) && (x !in s ==> r == s)
  {
    if s == [] then []
    else
      var front, last := Without(s[..|s| - 1], x), s[|s| - 1];
      if last == x then front else front + [last]
  }

  ghost predicate Distinct<T>(s: seq<T>) {
    forall i, j :: 0 <= i < j < |s| ==> s[i] != s[j]
  }

  lemma {:induction false} UniqueOnce<T>(s: seq<T>)
    ensures Distinct(Unique(s)) && forall x :: x in Unique(s) <==> x in s
  {
    if s != [] {
      assert s == s[..|s| - 1] + [s[|s| - 1]];
      UniqueOnce(s[..|s| - 1]);
    }
  }

  /** Counting distinct elements tells whether a sequence repeats any. */
  lemma {:induction false} CountElements<T>(s: seq<T>)
    ensures |Elements(s)| <= |s| && (|Elements(s)| == |s| <==> Distinct(s))
  {
    if s == [] {
      assert Elements(s) == {};
    } else {
      var front, last := s[..|s| - 1], s[|s| - 1];
      CountElements(front);
      assert Elements(s) == Elements(front) + {last};
      assert last in front ==> Elements(s) == Elements(front);
      assert Distinct(s) <==> Distinct(front) && last !in front;
    }
  }

  lemma SubsetIsSmaller<T>(a: set<T>, b: set<T>)
    requires a <= b
    ensures |a| <= |b| && (|a| == |b| ==> a == b)
  {
    assert b == a + (b - a);
  }

  /** A non-empty set has a member. */
  lemma Member<T>(s: set<T>) returns (m: T)
    requires s != {}
    ensures m in s
  {
    m :| m in s;
  }

  lemma FlattenSnoc<T>(ss: seq<seq<T>>, s: seq<T>)
    ensures Flatten(ss + [s]) == Flatten(ss) + s
  {
    assert (ss + [s])[..|ss|] == ss;
  }

  lemma {:induction false} FlattenConcat<T>(a: seq<seq<T>>, b: seq<seq<T>>)
    ensures Flatten(a + b) == Flatten(a) + Flatten(b)
  {
    if b == [] {
      assert a + b == a;
    } else {
      var k := |b| - 1;
      FlattenConcat(a, b[..k]);
      FlattenSnoc(a + b[..k], b[k]);
      assert a + b == a + b[..k] + [b[k]];
    }
  }

  lemma FlattenCons<T>(s: seq<T>, ss: seq<seq<T>>)
    ensures Flatten([s] + ss) == s + Flatten(ss)
  {
    FlattenConcat([s], ss);
    assert Flatten([s]) == Flatten([s][..0]) + s;
  }

  lemma SameMultisetSameElements<T>(a: seq<T>, b: seq<T>)
    requires multiset(a) == multiset(b)
    ensures Elements(a) == Elements(b) && |a| == |b|
  {
    forall x ensures x in a <==> x in b {
      assert x in multiset(a) <==> x in multiset(b);
    }
    assert |a| == |multiset(a)| == |multiset(b)| == |b|;
  }

  /** Distinct sequences with the same elements are permutations of each other. */
  lemma DistinctMultiset<T>(s: seq<T>)
    requires Distinct(s)
    ensures forall x :: multiset(s)[x] == if x in s then 1 else 0
  {
    if s != [] {
      var k := |s| - 1;
      assert s == s[..k] + [s[k]];
      DistinctMultiset(s[..k]);
    }
  }

  lemma PermutationDistinct<T>(a: seq<T>, b: seq<T>)
    requires multiset(a) == multiset(b) && Distinct(a)
    ensures Distinct(b)
  {
    DistinctMultiset(a);
    forall i, j | 0 <= i < j < |b| ensures b[i] != b[j] {
      CountedOnce(b, i, j);
    }
  }

  lemma CountedOnce<T>(b: seq<T>, i: nat, j: nat)
    requires i < j < |b| && multiset(b)[b[i]] <= 1
    ensures b[i] != b[j]
  {
    assert b == b[..j] + b[j..];
    assert b[i] == b[..j][i];
    assert multiset(b)[b[i]] == multiset(b[..j])[b[i]] + multiset(b[j..])[b[i]];
    assert b[j..][0] == b[j];
  }
}
