/** Carrying lines from one version of a file to another by blame signatures that are unique in both. */
module Carry {
  import opened Prelude

  /** One blamed line: its origin commit, original line, original file and content. */
  datatype Signature = Signature(origin: string, line: int, file: string, content: string)

  type Blame = seq<Signature>

  /** Line i of the old file survives as line j of the new one: the same signature, unique on both sides. */
  ghost predicate Survives(oldBlame: Blame, newBlame: Blame, i: int, j: int) {
    && 1 <= i <= |oldBlame| && 1 <= j <= |newBlame|
    && oldBlame[i - 1] == newBlame[j - 1]
    && multiset(oldBlame)[oldBlame[i - 1]] == 1 && multiset(newBlame)[newBlame[j - 1]] == 1
  }

  /** A match table lists exactly the surviving lines. */
  ghost predicate Matches(oldBlame: Blame, newBlame: Blame, table: map<int, int>) {
    && (forall i <- table :: Survives(oldBlame, newBlame, i, table[i]))
    && (forall i, j :: Survives(oldBlame, newBlame, i, j) ==> i in table && table[i] == j)
  }

  lemma UniquePosition(blame: Blame, i: int, j: int)
    requires 1 <= i <= |blame| && 1 <= j <= |blame| && blame[i - 1] == blame[j - 1]
    requires multiset(blame)[blame[i - 1]] == 1
    ensures i == j
  {
    if i < j {
      CountedOnce(blame, i - 1, j - 1);
    } else if j < i {
      CountedOnce(blame, j - 1, i - 1);
    }
  }

  /** Survival is one-to-one. */
  lemma SurvivalIsInjective(oldBlame: Blame, newBlame: Blame, i: int, j: int, i': int, j': int)
    requires Survives(oldBlame, newBlame, i, j) && Survives(oldBlame, newBlame, i', j')
    ensures i == i' <==> j == j'
  {
    if i == i' {
      UniquePosition(newBlame, j, j');
    }
    if j == j' {
      UniquePosition(oldBlame, i, i');
    }
  }

  /** The positions of the signatures that occur once. */
  method Positions(blame: Blame) returns (positions: map<Signature, int>)
    ensures forall s :: s in positions <==> multiset(blame)[s] == 1
    ensures forall s <- positions :: 1 <= positions[s] <= |blame| && blame[positions[s] - 1] == s
  {
    positions := map[];
    for k := 0 to |blame|
      invariant forall s <- positions ::
                multiset(blame)[s] == 1 && 1 <= positions[s] <= k && blame[positions[s] - 1] == s
      invariant forall i :: 0 <= i < k && multiset(blame)[blame[i]] == 1 ==> blame[i] in positions
    {
      if multiset(blame)[blame[k]] == 1 {
        positions := positions[blame[k] := k + 1];
      }
    }
    forall s | multiset(blame)[s] == 1 ensures s in positions {
      assert s in multiset(blame) && s in blame;
    }
  }

  /** The match table as the source builds it: new positions first, then a pass over the old lines. */
  method MatchTable(oldBlame: Blame, newBlame: Blame) returns (table: map<int, int>)
    ensures Matches(oldBlame, newBlame, table)
  {
    var positions := Positions(newBlame);
    table := map[];
    for k := 0 to |oldBlame|
      invariant forall i <- table :: 1 <= i <= k && Survives(oldBlame, newBlame, i, table[i])
      invariant forall i :: 1 <= i <= k && multiset(oldBlame)[oldBlame[i - 1]] == 1 && oldBlame[i - 1] in positions ==>
                  i in table
    {
      var s := oldBlame[k];
      if multiset(oldBlame)[s] == 1 && s in positions {
        assert Survives(oldBlame, newBlame, k + 1, positions[s]);
        table := table[k + 1 := positions[s]];
      }
    }
    forall i, j | Survives(oldBlame, newBlame, i, j) ensures i in table && table[i] == j {
      assert newBlame[j - 1] in positions;
      SurvivalIsInjective(oldBlame, newBlame, i, table[i], i, j);
    }
  }

  /** Zero and negative numbers count back from the end, as list indices do. */
  function Normal(number: int, maximum: nat): int {
    if number > 0 then number else maximum + number
  }

  predicate OutOfRange(lines: set<int>, maximum: nat) {
    exists n <- lines :: n <= maximum && Normal(n, maximum) < 1
  }

  /** The lines carried; numbers past the end or without a match are dropped. */
  function Carried(lines: set<int>, table: map<int, int>, maximum: nat): set<int> {
    set n | n in lines && n <= maximum && Normal(n, maximum) in table :: table[Normal(n, maximum)]
  }

  /** Where a number lands: a line of the file by its match, and a number counted from the end by that of its line. */
  ghost predicate Lands(table: map<int, int>, maximum: nat, n: int, m: int) {
    || (1 <= n <= maximum && n in table && table[n] == m)
    || (n <= 0 && maximum + n in table && table[maximum + n] == m)
  }

  lemma CarriedIs(lines: set<int>, table: map<int, int>, maximum: nat)
    ensures OutOfRange(lines, maximum) <==> exists n <- lines :: maximum + n < 1 && n <= 0
    ensures forall m :: m in Carried(lines, table, maximum) <==> exists n <- lines :: Lands(table, maximum, n, m)
  {
  }

  method CarryLines(lines: set<int>, table: map<int, int>, maximum: nat) returns (selected: Option<set<int>>)
    ensures selected == if OutOfRange(lines, maximum) then None else Some(Carried(lines, table, maximum))
    ensures selected.None? <==> exists n <- lines :: maximum + n < 1 && n <= 0
    ensures selected.Some? ==> forall m :: m in selected.value <==> exists n <- lines :: Lands(table, maximum, n, m)
  {
    CarriedIs(lines, table, maximum);
    var left, result := lines, {};
    while left != {}
      invariant left <= lines && !OutOfRange(lines - left, maximum)
      invariant result == Carried(lines - left, table, maximum)
      decreases |left|
    {
      ghost var member := Member(left);
      var n :| n in left;
      var normal := Normal(n, maximum);
      if n <= maximum && normal < 1 {
        return None;
      }
      CarriedSplit(lines - left, n, table, maximum);
      assert lines - (left - {n}) == (lines - left) + {n};
      if n <= maximum && normal in table {
        result := result + {table[normal]};
      }
      left := left - {n};
    }
    assert lines - left == lines;
    selected := Some(result);
  }

  lemma CarriedSplit(lines: set<int>, n: int, table: map<int, int>, maximum: nat)
    requires !OutOfRange(lines, maximum) && !(n <= maximum && Normal(n, maximum) < 1)
    ensures !OutOfRange(lines + {n}, maximum)
    ensures Carried(lines + {n}, table, maximum) ==
            Carried(lines, table, maximum) +
                if n <= maximum && Normal(n, maximum) in table then {table[Normal(n, maximum)]} else {}
  {
    var all := Carried(lines + {n}, table, maximum);
    forall m | m in Carried(lines, table, maximum) ensures m in all {
      var k :| k in lines && k <= maximum && Normal(k, maximum) in table && table[Normal(k, maximum)] == m;
      assert k in lines + {n};
    }
    if n <= maximum && Normal(n, maximum) in table {
      assert n in lines + {n};
      assert table[Normal(n, maximum)] in all;
    }
  }

  /** Carrying distributes over union, errors included. */
  lemma CarryDistributes(a: set<int>, b: set<int>, table: map<int, int>, maximum: nat)
    ensures Carried(a + b, table, maximum) == Carried(a, table, maximum) + Carried(b, table, maximum)
    ensures OutOfRange(a + b, maximum) <==> OutOfRange(a, maximum) || OutOfRange(b, maximum)
  {
    forall m | m in Carried(a, table, maximum) + Carried(b, table, maximum)
      ensures m in Carried(a + b, table, maximum)
    {
      var n :| (n in a || n in b) && n <= maximum && Normal(n, maximum) in table && table[Normal(n, maximum)] == m;
      assert n in a + b;
    }
    if OutOfRange(a, maximum) || OutOfRange(b, maximum) {
      var n :| (n in a || n in b) && n <= maximum && Normal(n, maximum) < 1;
      assert n in a + b;
    }
  }

  /** Two numbers land on one line exactly when they name one line; distinct positive numbers never do. */
  lemma CarryIsInjective(oldBlame: Blame, newBlame: Blame, table: map<int, int>, m: int, n: int)
    requires Matches(oldBlame, newBlame, table) && m <= |oldBlame| && n <= |oldBlame|
    requires Normal(m, |oldBlame|) in table && Normal(n, |oldBlame|) in table
    ensures table[Normal(m, |oldBlame|)] == table[Normal(n, |oldBlame|)] <==>
              Normal(m, |oldBlame|) == Normal(n, |oldBlame|)
    ensures m > 0 && n > 0 && m != n ==> table[Normal(m, |oldBlame|)] != table[Normal(n, |oldBlame|)]
  {
    var a, b := Normal(m, |oldBlame|), Normal(n, |oldBlame|);
    SurvivalIsInjective(oldBlame, newBlame, a, table[a], b, table[b]);
  }

  /** The lines of a set that survive. */
  function Surviving(lines: set<int>, table: map<int, int>): set<int> {
    set n | n in lines && n in table
  }

  /** A line not among the others lands where none of them does. */
  lemma NewLandsElsewhere(oldBlame: Blame, newBlame: Blame, table: map<int, int>, rest: set<int>, n: int)
    requires Matches(oldBlame, newBlame, table) && (forall m :: m in rest ==> m > 0) && n > 0 && n !in rest
    requires n in table
    ensures table[n] !in Carried(rest, table, |oldBlame|)
  {
    assert Survives(oldBlame, newBlame, n, table[n]);
    forall m | m in rest && m <= |oldBlame| && Normal(m, |oldBlame|) in table
      ensures table[Normal(m, |oldBlame|)] != table[n]
    {
      CarryIsInjective(oldBlame, newBlame, table, m, n);
    }
  }

  /** A set of positive lines loses exactly its unmatched lines: no two are ever merged. */
  lemma {:induction false} CarriedCount(oldBlame: Blame, newBlame: Blame, table: map<int, int>, lines: set<int>)
    requires Matches(oldBlame, newBlame, table) && forall n :: n in lines ==> n > 0
    ensures |Carried(lines, table, |oldBlame|)| == |Surviving(lines, table)|
    decreases |lines|
  {
    if lines != {} {
      var n := Member(lines);
      var rest := lines - {n};
      CarriedCount(oldBlame, newBlame, table, rest);
      assert lines == rest + {n};
      assert !OutOfRange(rest, |oldBlame|);
      CarriedSplit(rest, n, table, |oldBlame|);
      if n in table {
        NewLandsElsewhere(oldBlame, newBlame, table, rest, n);
        assert Surviving(lines, table) == Surviving(rest, table) + {n};
      } else {
        assert Surviving(lines, table) == Surviving(rest, table);
      }
    } else {
      assert Carried(lines, table, |oldBlame|) == {} && Surviving(lines, table) == {};
    }
  }

  /** The anchor test of triage: the carried set is as large as the original exactly when every line survives. */
  lemma AnchorVerifiedIff(oldBlame: Blame, newBlame: Blame, table: map<int, int>, lines: set<int>)
    requires Matches(oldBlame, newBlame, table) && forall n :: n in lines ==> n > 0
    ensures |Carried(lines, table, |oldBlame|)| == |lines| <==> forall n :: n in lines ==>
              exists j :: Survives(oldBlame, newBlame, n, j)
  {
    CarriedCount(oldBlame, newBlame, table, lines);
    assert Surviving(lines, table) <= lines;
    if |Surviving(lines, table)| == |lines| {
      SubsetIsSmaller(Surviving(lines, table), lines);
      forall n | n in lines ensures exists j :: Survives(oldBlame, newBlame, n, j) {
        assert n in Surviving(lines, table);
        assert Survives(oldBlame, newBlame, n, table[n]);
      }
    }
    if forall n :: n in lines ==> exists j :: Survives(oldBlame, newBlame, n, j) {
      assert Surviving(lines, table) == lines;
    }
  }
}
