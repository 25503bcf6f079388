/** Stable sorting, as the sorts of the source are, and the lexicographic order of texts. */
module Sorting {

  predicate Less(a: string, b: string) {
    b != [] && (a == [] || a[0] < b[0] || (a[0] == b[0] && Less(a[1..], b[1..])))
  }

  /** Behind every element it may stand behind: equal elements keep their order. */
  function Insert<T>(s: seq<T>, x: T, le: (T, T) -> bool): seq<T> {
    if s == [] || le(s[|s| - 1], x) then s + [x] else Insert(s[..|s| - 1], x, le) + [s[|s| - 1]]
  }

  function Sort<T>(s: seq<T>, le: (T, T) -> bool): seq<T> {
    if s == [] then [] else Insert(Sort(s[..|s| - 1], le), s[|s| - 1], le)
  }

  lemma {:induction false} InsertKeeps<T>(s: seq<T>, x: T, le: (T, T) -> bool)
    ensures multiset(Insert(s, x, le)) == multiset(s) + multiset{x}
  {
    if s != [] {
      assert s == s[..|s| - 1] + [s[|s| - 1]];
      InsertKeeps(s[..|s| - 1], x, le);
    }
  }

  lemma {:induction false} SortKeeps<T>(s: seq<T>, le: (T, T) -> bool)
    ensures multiset(Sort(s, le)) == multiset(s)
    ensures |Sort(s, le)| == |s| && forall x :: x in Sort(s, le) <==> x in s
  {
    if s != [] {
      assert s == s[..|s| - 1] + [s[|s| - 1]];
      SortKeeps(s[..|s| - 1], le);
      InsertKeeps(Sort(s[..|s| - 1], le), s[|s| - 1], le);
    }
    assert |Sort(s, le)| == |multiset(Sort(s, le))| == |multiset(s)| == |s|;
    forall x ensures x in Sort(s, le) <==> x in s {
      assert x in multiset(Sort(s, le)) <==> x in multiset(s);
    }
  }

  ghost predicate TotalPreorder<T(!new)>(le: (T, T) -> bool) {
    && (forall a, b :: le(a, b) || le(b, a))
    && (forall a, b, c :: le(a, b) && le(b, c) ==> le(a, c))
  }

  ghost predicate Ordered<T>(s: seq<T>, le: (T, T) -> bool) {
    forall i, j :: 0 <= i < j < |s| ==> le(s[i], s[j])
  }

  lemma {:induction false} InsertOrders<T(!new)>(s: seq<T>, x: T, le: (T, T) -> bool)
    requires TotalPreorder(le) && Ordered(s, le)
    ensures Ordered(Insert(s, x, le), le)
  {
    if s != [] && !le(s[|s| - 1], x) {
      var front, last := s[..|s| - 1], s[|s| - 1];
      InsertOrders(front, x, le);
      InsertKeeps(front, x, le);
      forall y | y in Insert(front, x, le) ensures le(y, last) {
        assert y in multiset(front) + multiset{x};
      }
    }
  }

  lemma {:induction false} SortOrders<T(!new)>(s: seq<T>, le: (T, T) -> bool)
    requires TotalPreorder(le)
    ensures Ordered(Sort(s, le), le)
  {
    if s != [] {
      SortOrders(s[..|s| - 1], le);
      InsertOrders(Sort(s[..|s| - 1], le), s[|s| - 1], le);
    }
  }

  /** In order of one relation, and where that does not tell them apart in order of the other. */
  ghost predicate OrderedBy<T>(s: seq<T>, le: (T, T) -> bool, first: (T, T) -> bool) {
    forall i, j :: 0 <= i < j < |s| ==> le(s[i], s[j]) && (le(s[j], s[i]) ==> first(s[i], s[j]))
  }

  lemma {:induction false} InsertIsStable<T(!new)>(s: seq<T>, x: T, le: (T, T) -> bool, first: (T, T) -> bool)
    requires TotalPreorder(le) && OrderedBy(s, le, first) && forall y <- s :: first(y, x)
    ensures OrderedBy(Insert(s, x, le), le, first)
  {
    if s != [] {
      var front, last := s[..|s| - 1], s[|s| - 1];
      if le(last, x) {
        forall y | y in s ensures le(y, x) && first(y, x) {
          var k :| 0 <= k < |s| && s[k] == y;
          assert k < |s| - 1 ==> le(y, last);
        }
      } else {
        InsertIsStable(front, x, le, first);
        InsertKeeps(front, x, le);
        forall y | y in Insert(front, x, le) ensures le(y, last) && (le(last, y) ==> first(y, last)) {
          assert y in multiset(front) + multiset{x};
          if y in front {
            var k :| 0 <= k < |front| && s[k] == y;
          }
        }
      }
    }
  }

  /** Sorting is stable: whatever order the elements stood in decides where the sort does not. */
  lemma {:induction false} SortIsStable<T(!new)>(s: seq<T>, le: (T, T) -> bool, first: (T, T) -> bool)
    requires TotalPreorder(le) && Ordered(s, first)
    ensures OrderedBy(Sort(s, le), le, first)
  {
    if s != [] {
      var front, last := s[..|s| - 1], s[|s| - 1];
      SortIsStable(front, le, first);
      SortKeeps(front, le);
      forall y | y in Sort(front, le) ensures first(y, last) {
        var k :| 0 <= k < |front| && s[k] == y;
      }
      InsertIsStable(Sort(front, le), last, le, first);
    }
  }

  /** No two elements clash, wherever they stand. */
  ghost predicate Apart<T>(s: seq<T>, clash: (T, T) -> bool) {
    forall i, j :: 0 <= i < j < |s| ==> !clash(s[i], s[j]) && !clash(s[j], s[i])
  }

  lemma ApartSnoc<T>(s: seq<T>, x: T, clash: (T, T) -> bool)
    requires Apart(s, clash) && forall y <- s :: !clash(x, y) && !clash(y, x)
    ensures Apart(s + [x], clash)
  {
  }

  lemma ApartFront<T>(s: seq<T>, front: seq<T>, last: T, clash: (T, T) -> bool)
    requires s == front + [last] && Apart(s, clash)
    ensures Apart(front, clash) && forall y <- front :: !clash(last, y) && !clash(y, last)
  {
    assert forall i :: 0 <= i < |front| ==> front[i] == s[i];
    assert s[|front|] == last;
  }

  lemma {:induction false} InsertKeepsApart<T>(s: seq<T>, x: T, le: (T, T) -> bool, clash: (T, T) -> bool)
    requires Apart(s, clash) && forall y <- s :: !clash(x, y) && !clash(y, x)
    ensures Apart(Insert(s, x, le), clash)
  {
    hide Apart;
    if s == [] || le(s[|s| - 1], x) {
      ApartSnoc(s, x, clash);
    } else {
      var front, last := s[..|s| - 1], s[|s| - 1];
      ApartFront(s, front, last, clash);
      InsertKeepsApart(front, x, le, clash);
      InsertKeeps(front, x, le);
      forall y | y in Insert(front, x, le) ensures !clash(last, y) && !clash(y, last) {
        assert y in multiset(front) + multiset{x};
      }
      ApartSnoc(Insert(front, x, le), last, clash);
    }
  }

  lemma {:induction false} SortKeepsApart<T>(s: seq<T>, le: (T, T) -> bool, clash: (T, T) -> bool)
    requires Apart(s, clash)
    ensures Apart(Sort(s, le), clash)
  {
    if s != [] {
      var front := s[..|s| - 1];
      SortKeepsApart(front, le, clash);
      SortKeeps(front, le);
      var sorted, last := Sort(front, le), s[|s| - 1];
      forall y | y in sorted ensures !clash(last, y) && !clash(y, last) {
        assert y in multiset(sorted);
        assert y in multiset(front);
        var i :| 0 <= i < |front| && s[i] == y;
      }
      InsertKeepsApart(sorted, last, le, clash);
    }
  }

  lemma {:induction false} Irreflexive(s: string)
    ensures !Less(s, s)
  {
    if s != "" {
      Irreflexive(s[1..]);
    }
  }

  lemma {:induction false} LessIsTransitive(a: string, b: string, c: string)
    requires Less(a, b) && Less(b, c)
    ensures Less(a, c)
  {
    if a != "" && a[0] == b[0] && b[0] == c[0] {
      LessIsTransitive(a[1..], b[1..], c[1..]);
    }
  }

  lemma {:induction false} LessIsTotal(a: string, b: string)
    ensures Less(a, b) || Less(b, a) || a == b
  {
    if a != "" && b != "" && a[0] == b[0] {
      LessIsTotal(a[1..], b[1..]);
      assert a[1..] == b[1..] ==> a == [a[0]] + a[1..] && b == [b[0]] + b[1..];
    }
  }
}
