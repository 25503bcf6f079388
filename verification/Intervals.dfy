/** Line sets and the interval rows they are persisted as. */
module Intervals {
  import opened Prelude

  const MAX_LINE := 1_000_000

  /** An inclusive row of lines. */
  datatype Row = Row(first: int, last: int)

  function Range(first: int, last: int): (lines: set<int>)
    ensures forall n :: n in lines <==> first <= n <= last
    decreases last - first
  {
    if last < first then {} else Range(first, last - 1) + {last}
  }

  function AllLines(rows: seq<Row>): set<int> {
    if rows == [] then {}
    else AllLines(rows[..|rows| - 1]) + Range(rows[|rows| - 1].first, rows[|rows| - 1].last)
  }

  function LastLine(rows: seq<Row>): int {
    if rows == [] then 0 else rows[|rows| - 1].last
  }

  /** Ascending, disjoint rows of positive lines, each further than gap above the one before. */
  predicate Ascending(rows: seq<Row>, gap: nat) {
    rows == [] ||
    var k := |rows| - 1;
    && Ascending(rows[..k], gap) && rows[k].first <= rows[k].last
    && LastLine(rows[..k]) + (if k == 0 then 0 else gap) < rows[k].first
  }

  /** What the decoder accepts: ascending rows of positive lines up to the line bound. */
  predicate Acceptable(rows: seq<Row>) {
    Ascending(rows, 0) && LastLine(rows) <= MAX_LINE
  }

  predicate InBounds(lines: set<int>) {
    forall n <- lines :: 1 <= n <= MAX_LINE
  }

  lemma {:induction false} LastIsGreatest(rows: seq<Row>, gap: nat)
    requires Ascending(rows, gap)
    ensures LastLine(rows) >= 0 && (rows != [] ==> LastLine(rows) in AllLines(rows))
    ensures forall n <- AllLines(rows) :: 1 <= n <= LastLine(rows)
    ensures Ascending(rows, 0)
  {
    if rows != [] {
      LastIsGreatest(rows[..|rows| - 1], gap);
    }
  }

  lemma {:induction false} PrefixAcceptable(rows: seq<Row>, i: nat)
    requires i <= |rows| && Ascending(rows, 0)
    ensures Ascending(rows[..i], 0) && LastLine(rows[..i]) <= LastLine(rows)
  {
    LastIsGreatest(rows, 0);
    if i == |rows| {
      assert rows[..i] == rows;
    } else {
      var front := rows[..|rows| - 1];
      assert front[..i] == rows[..i];
      PrefixAcceptable(front, i);
    }
  }

  /** Decodes rows in one pass; refuses exactly the unacceptable ones. */
  method Decode(rows: seq<Row>) returns (lines: Option<set<int>>)
    ensures lines == if Acceptable(rows) then Some(AllLines(rows)) else None
  {
    var result, last := {}, 0;
    for i := 0 to |rows|
      invariant Acceptable(rows[..i])
      invariant result == AllLines(rows[..i]) && last == LastLine(rows[..i])
    {
      assert rows[..i + 1][..i] == rows[..i];
      if rows[i].first <= last || rows[i].last < rows[i].first || rows[i].last > MAX_LINE {
        if Ascending(rows, 0) {
          PrefixAcceptable(rows, i + 1);
        }
        return None;
      }
      result, last := result + Range(rows[i].first, rows[i].last), rows[i].last;
    }
    assert rows[..|rows|] == rows;
    lines := Some(result);
  }

  /** The least element of a set, where sorting takes its next line from. */
  method Least(s: set<int>) returns (m: int)
    requires s != {}
    ensures m in s && forall n :: n in s ==> m <= n
  {
    ghost var member := Member(s);
    m :| m in s;
    var left := s - {m};
    while left != {}
      invariant left <= s && m in s && forall n :: n in s && n !in left ==> m <= n
      decreases |left|
    {
      ghost var other := Member(left);
      var n :| n in left;
      left := left - {n};
      if n < m {
        m := n;
      }
    }
  }

  /** Extends the last row by the next line when they touch, and starts a new row otherwise. */
  function AddLine(rows: seq<Row>, n: int): seq<Row> {
    var k := |rows| - 1;
    if rows != [] && rows[k].last == n - 1 then rows[..k] + [Row(rows[k].first, n)] else rows + [Row(n, n)]
  }

  lemma AddLineAdds(rows: seq<Row>, n: int)
    requires Ascending(rows, 1) && LastLine(rows) < n && n > 0
    ensures var longer := AddLine(rows, n);
            Ascending(longer, 1) && AllLines(longer) == AllLines(rows) + {n} && LastLine(longer) == n
  {
    var k, longer := |rows| - 1, AddLine(rows, n);
    if rows != [] && rows[k].last == n - 1 {
      assert longer[..k] == rows[..k];
      assert Range(rows[k].first, n) == Range(rows[k].first, n - 1) + {n};
    } else {
      assert longer[..|rows|] == rows;
      assert Range(n, n) == {n};
    }
  }

  /** Takes the lines in ascending order, extending the last row while they are consecutive. */
  method Encode(lines: set<int>) returns (rows: seq<Row>)
    requires forall n :: n in lines ==> n > 0
    ensures Ascending(rows, 1) && AllLines(rows) == lines
  {
    rows := [];
    assert Ascending(rows, 1) && AllLines(rows) == {} && LastLine(rows) == 0;
    hide Ascending, AllLines, LastLine, AddLine;
    var left := lines;
    while left != {}
      invariant left <= lines && AllLines(rows) == lines - left && Ascending(rows, 1)
      invariant forall n :: n in left ==> LastLine(rows) < n
      decreases |left|
    {
      var n := Least(left);
      AddLineAdds(rows, n);
      rows, left := AddLine(rows, n), left - {n};
    }
  }

  /** Encoded rows of in-bounds lines are accepted, so encoding then decoding gives the lines back. */
  lemma EncodedIsAcceptable(rows: seq<Row>)
    requires Ascending(rows, 1) && InBounds(AllLines(rows))
    ensures Acceptable(rows)
  {
    LastIsGreatest(rows, 1);
  }

  lemma SplitLast(rows: seq<Row>)
    requires Ascending(rows, 1) && rows != []
    ensures var k := |rows| - 1;
            && Ascending(rows[..k], 1)
            && AllLines(rows[..k]) == AllLines(rows) - Range(rows[k].first, rows[k].last)
            && rows[k].first - 1 !in AllLines(rows) && Range(rows[k].first, rows[k].last) <= AllLines(rows)
            && rows[k].last == LastLine(rows) && rows[k].last in AllLines(rows)
            && forall n <- AllLines(rows) :: n <= rows[k].last
  {
    LastIsGreatest(rows, 1);
    LastIsGreatest(rows[..|rows| - 1], 1);
  }

  /** The encoding is canonical: rows with a gap between any two are determined by their lines. */
  lemma {:induction false} EncodingIsCanonical(a: seq<Row>, b: seq<Row>)
    requires Ascending(a, 1) && Ascending(b, 1) && AllLines(a) == AllLines(b)
    ensures a == b
  {
    if a != [] && b != [] {
      var i, j := |a| - 1, |b| - 1;
      SplitLast(a);
      SplitLast(b);
      SameFirst(a[i].first, b[j].first, a[i].last, AllLines(a));
      EncodingIsCanonical(a[..i], b[..j]);
      assert a == a[..i] + [a[i]] && b == b[..j] + [b[j]];
    } else {
      LastIsGreatest(a, 1);
      LastIsGreatest(b, 1);
    }
  }

  lemma SameFirst(a: int, b: int, last: int, lines: set<int>)
    requires Range(a, last) <= lines && Range(b, last) <= lines && a <= last && b <= last
    requires a - 1 !in lines && b - 1 !in lines
    ensures a == b
  {
    assert a < b ==> b - 1 in Range(a, last);
    assert b < a ==> a - 1 in Range(b, last);
  }

  /** In terms of the rows: each within the bound and not reversed, and every later row wholly above. */
  ghost predicate Separate(rows: seq<Row>, gap: nat) {
    && (forall i :: 0 <= i < |rows| ==> 1 <= rows[i].first <= rows[i].last)
    && (forall i, j :: 0 <= i < j < |rows| ==> rows[i].last + gap < rows[j].first)
  }

  lemma {:induction false} AscendingIs(rows: seq<Row>, gap: nat)
    ensures Ascending(rows, gap) <==> Separate(rows, gap)
  {
    if rows != [] {
      var k := |rows| - 1;
      AscendingIs(rows[..k], gap);
      assert forall i :: 0 <= i < k ==> rows[..k][i] == rows[i];
      if k > 0 {
        assert Separate(rows[..k], gap) ==> rows[k - 1].last >= 1;
      }
    }
  }

  /** The decoder accepts exactly separate rows of positive lines up to a million. */
  lemma AcceptableIs(rows: seq<Row>)
    ensures Acceptable(rows) <==> Separate(rows, 0) && forall i :: 0 <= i < |rows| ==> rows[i].last <= 1_000_000
  {
    AscendingIs(rows, 0);
    if rows != [] {
      assert rows[|rows| - 1].last == LastLine(rows);
    }
  }

  /** The lines of some rows are those inside one of them. */
  lemma {:induction false} LinesAre(rows: seq<Row>, n: int)
    ensures n in AllLines(rows) <==> exists i :: 0 <= i < |rows| && rows[i].first <= n <= rows[i].last
  {
    if rows != [] {
      LinesAre(rows[..|rows| - 1], n);
      assert forall i :: 0 <= i < |rows| - 1 ==> rows[..|rows| - 1][i] == rows[i];
    }
  }
}
