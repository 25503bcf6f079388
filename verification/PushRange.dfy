/** Push-range reviews: the files of a range are split into a chain of parts under the review size limit. */
module PushRange {
  import opened Prelude
  import opened Sorting

  const FILE_BYTES := 262144
  const SCOPE_BYTES := 2097152

  type Path = string

  datatype Disposition = Included | Renamed | OverScopeCap | OtherDisposition

  /** A file of the range at the pinned target; configured and text say what its own checks find. */
  datatype Row = Row(path: Path, bytes: nat, disposition: Disposition, configured: bool, text: bool)

  /** Stopped only by the cumulative cap: it fits a part by itself. */
  predicate Rescueable(r: Row) {
    r.disposition == OverScopeCap && r.bytes <= FILE_BYTES
  }

  /** The rows a part may select: configured, and either within the cap or rescued from it as text. */
  predicate Reviewable(r: Row) {
    r.configured && (r.disposition == Included || r.disposition == Renamed || (Rescueable(r) && r.text))
  }

  /** What the listing at one target guarantees: a path once, and no selected file over the file limit. */
  ghost predicate Listing(rows: seq<Row>) {
    && (forall i, j :: 0 <= i < j < |rows| ==> rows[i].path != rows[j].path)
    && (forall r <- rows :: (r.disposition == Included || r.disposition == Renamed) ==> r.bytes <= FILE_BYTES)
  }

  function Filter(rows: seq<Row>, wanted: Option<set<Path>>): seq<Row> {
    if rows == [] then []
    else
      var last := rows[|rows| - 1];
      Filter(rows[..|rows| - 1], wanted) +
          if Reviewable(last) && (wanted.None? || last.path in wanted.value) then [last] else []
  }

  predicate PathLe(a: Row, b: Row) {
    !Less(b.path, a.path)
  }

  function Candidates(rows: seq<Row>, wanted: Option<set<Path>>): seq<Row> {
    Sort(Filter(rows, wanted), PathLe)
  }

  function Bytes(rows: seq<Row>): nat {
    if rows == [] then 0 else Bytes(rows[..|rows| - 1]) + rows[|rows| - 1].bytes
  }

  datatype Split = Split(kept: seq<Row>, overflow: seq<Row>, total: nat)

  function SplitTo(candidates: seq<Row>, n: nat): Split
    requires n <= |candidates|
  {
    if n == 0 then Split([], [], 0)
    else
      var before, row := SplitTo(candidates, n - 1), candidates[n - 1];
      if before.total + row.bytes > SCOPE_BYTES then before.(overflow := before.overflow + [row])
      else before.(kept := before.kept + [row], total := before.total + row.bytes)
  }

  method SplitScope(rows: seq<Row>, wanted: Option<set<Path>>) returns (kept: seq<Row>, overflow: seq<Row>)
    ensures var c := Candidates(rows, wanted); Split(kept, overflow, Bytes(kept)) == SplitTo(c, |c|)
    ensures SplitsSo(rows, wanted, kept, overflow)
  {
    SplitIsSo(rows, wanted);
    hide Candidates, SplitsSo;
    var candidates := Candidates(rows, wanted);
    var total: nat := 0;
    kept, overflow := [], [];
    for i := 0 to |candidates|
      invariant SplitTo(candidates, i) == Split(kept, overflow, total) && total == Bytes(kept)
    {
      var row := candidates[i];
      if total + row.bytes > SCOPE_BYTES {
        overflow := overflow + [row];
      } else {
        assert (kept + [row])[..|kept|] == kept;
        total, kept := total + row.bytes, kept + [row];
      }
    }
  }

  // ----- one part ---------------------------------------------------------------------------------------

  lemma {:induction false} FilterIs(rows: seq<Row>, wanted: Option<set<Path>>)
    ensures forall r :: r in Filter(rows, wanted) <==>
              r in rows && Reviewable(r) && (wanted.None? || r.path in wanted.value)
    ensures Distinct(rows) ==> Distinct(Filter(rows, wanted))
  {
    hide Reviewable;
    if rows != [] {
      assert rows == rows[..|rows| - 1] + [rows[|rows| - 1]];
      FilterIs(rows[..|rows| - 1], wanted);
    }
  }

  lemma CandidatesAre(rows: seq<Row>, wanted: Option<set<Path>>)
    requires Listing(rows)
    ensures var c := Candidates(rows, wanted);
            && (forall r :: r in c <==> r in rows && Reviewable(r) && (wanted.None? || r.path in wanted.value))
            && Distinct(c) && forall r <- c :: r.bytes <= FILE_BYTES
  {
    FilterIs(rows, wanted);
    SortKeeps(Filter(rows, wanted), PathLe);
    PermutationDistinct(Filter(rows, wanted), Candidates(rows, wanted));
  }

  /** A split of the rows seen so far: each on one side, once, and the kept ones within the limit. */
  ghost predicate Divided(s: Split, seen: seq<Row>) {
    && (forall r :: r in s.kept || r in s.overflow <==> r in seen) && (forall r <- s.kept :: r !in s.overflow)
    && Distinct(s.kept) && Distinct(s.overflow)
    && s.total == Bytes(s.kept) <= SCOPE_BYTES && |s.kept| + |s.overflow| == |seen|
  }

  lemma DividedGrows(s: Split, seen: seq<Row>, row: Row)
    requires Divided(s, seen) && row !in seen
    ensures Divided(s.(overflow := s.overflow + [row]), seen + [row])
    ensures s.total + row.bytes <= SCOPE_BYTES ==>
              Divided(s.(kept := s.kept + [row], total := s.total + row.bytes), seen + [row])
  {
    assert (s.kept + [row])[..|s.kept|] == s.kept;
  }

  lemma {:induction false} SplitIs(candidates: seq<Row>, n: nat)
    requires n <= |candidates| && Distinct(candidates)
    ensures var s := SplitTo(candidates, n);
            Divided(s, candidates[..n]) && (n > 0 && candidates[0].bytes <= FILE_BYTES ==> s.kept != [])
  {
    hide Divided;
    if n == 0 {
      NothingDivided(candidates[..0]);
    } else {
      SplitIs(candidates, n - 1);
      assert candidates[..n] == candidates[..n - 1] + [candidates[n - 1]];
      assert candidates[n - 1] !in candidates[..n - 1];
      DividedGrows(SplitTo(candidates, n - 1), candidates[..n - 1], candidates[n - 1]);
    }
  }

  lemma NothingDivided(none: seq<Row>)
    requires none == []
    ensures Divided(Split([], [], 0), none)
  {
  }

  function PathsOf(rows: seq<Row>): set<Path> {
    set r | r in rows :: r.path
  }

  /** What a follow-up part selects is exactly what its parent deferred. */
  lemma FollowUpTakesOverflow(rows: seq<Row>, wanted: Option<set<Path>>)
    requires Listing(rows)
    ensures var c := Candidates(rows, wanted);
            var s := SplitTo(c, |c|);
            var next := Candidates(rows, Some(PathsOf(s.overflow)));
            && (forall r :: r in next <==> r in s.overflow) && |next| == |s.overflow|
            && |s.kept| + |s.overflow| == |c| && (c != [] ==> s.kept != [])
  {
    hide Reviewable;
    var c := Candidates(rows, wanted);
    var s := SplitTo(c, |c|);
    var next := Candidates(rows, Some(PathsOf(s.overflow)));
    CandidatesAre(rows, wanted);
    CandidatesAre(rows, Some(PathsOf(s.overflow)));
    SplitIs(c, |c|);
    assert c[..|c|] == c;
    forall r ensures r in next <==> r in s.overflow {
      if r in next {
        var q :| q in s.overflow && q.path == r.path;
        SamePathSameRow(rows, q, r);
      }
    }
    CountElements(next);
    CountElements(s.overflow);
    assert Elements(next) == Elements(s.overflow);
    if c != [] {
      assert c[0] in c;
    }
  }

  lemma SamePathSameRow(rows: seq<Row>, a: Row, b: Row)
    requires Listing(rows) && a in rows && b in rows && a.path == b.path
    ensures a == b
  {
    var i :| 0 <= i < |rows| && rows[i] == a;
    var j :| 0 <= j < |rows| && rows[j] == b;
    assert i == j;
  }

  // ----- the split, said of the rows --------------------------------------------------------------------

  /** Configured, wanted, and either within the cumulative cap or a text stopped by nothing else. */
  ghost predicate Chosen(r: Row, wanted: Option<set<Path>>) {
    && r.configured && (wanted.Some? ==> r.path in wanted.value)
    && (r.disposition == Included || r.disposition == Renamed
        || (r.disposition == OverScopeCap && r.bytes <= 262_144 && r.text))
  }

  ghost function Picks(c: seq<Row>, keep: seq<bool>, side: bool): seq<Row>
    requires |keep| == |c|
  {
    if c == [] then []
    else
      var n := |c| - 1;
      Picks(c[..n], keep[..n], side) + if keep[n] == side then [c[n]] else []
  }

  /** A row is kept exactly when it still fits behind the rows kept before it. */
  ghost predicate Greedy(c: seq<Row>, keep: seq<bool>) {
    && |keep| == |c|
    && forall j :: 0 <= j < |c| ==> (keep[j] <==> Bytes(Picks(c[..j], keep[..j], true)) + c[j].bytes <= 2_097_152)
  }

  /** The chosen rows of the listing, each once, in the order of their paths. */
  ghost predicate InOrder(rows: seq<Row>, wanted: Option<set<Path>>, c: seq<Row>) {
    && (Listing(rows) ==> Distinct(c)) && (forall r :: r in c <==> r in rows && Chosen(r, wanted))
    && forall a, b :: 0 <= a < b < |c| ==> !Less(c[b].path, c[a].path)
  }

  ghost predicate SplitsSo(rows: seq<Row>, wanted: Option<set<Path>>, kept: seq<Row>, overflow: seq<Row>) {
    exists c, keep ::
      InOrder(rows, wanted, c) && Greedy(c, keep) && kept == Picks(c, keep, true) && overflow == Picks(c, keep, false)
  }

  lemma CandidatesInOrder(rows: seq<Row>, wanted: Option<set<Path>>)
    ensures InOrder(rows, wanted, Candidates(rows, wanted))
  {
    FilterIs(rows, wanted);
    SortKeeps(Filter(rows, wanted), PathLe);
    if Listing(rows) {
      CandidatesAre(rows, wanted);
    }
    PathOrder();
    SortOrders(Filter(rows, wanted), PathLe);
    hide Sort, Filter, Less, Listing, TotalPreorder;
    forall r ensures r in Candidates(rows, wanted) <==> r in rows && Chosen(r, wanted) {
      ChosenIs(r);
    }
  }

  lemma ChosenIs(r: Row)
    ensures Chosen(r, None) <==> Reviewable(r)
  {
  }

  lemma PathOrder()
    ensures TotalPreorder(PathLe)
  {
    hide Less;
    forall a, b ensures PathLe(a, b) || PathLe(b, a) {
      if Less(b.path, a.path) && Less(a.path, b.path) {
        LessIsTransitive(a.path, b.path, a.path);
        Irreflexive(a.path);
      }
    }
    forall a, b, c | PathLe(a, b) && PathLe(b, c) ensures PathLe(a, c) {
      LessIsTotal(b.path, c.path);
      if Less(c.path, a.path) && Less(b.path, c.path) {
        LessIsTransitive(b.path, c.path, a.path);
      }
    }
  }

  lemma PicksSnoc(c: seq<Row>, keep: seq<bool>, row: Row, fits: bool, side: bool)
    requires |keep| == |c|
    ensures Picks(c + [row], keep + [fits], side) == Picks(c, keep, side) + if fits == side then [row] else []
  {
    assert (c + [row])[..|c|] == c && (keep + [fits])[..|c|] == keep;
  }

  lemma BytesSnoc(rows: seq<Row>, row: Row)
    ensures Bytes(rows + [row]) == Bytes(rows) + row.bytes
  {
    assert (rows + [row])[..|rows|] == rows;
  }

  /** The split holds the two sides of a greedy choice among these rows. */
  ghost predicate Chooses(s: Split, c: seq<Row>, keep: seq<bool>) {
    Greedy(c, keep) && s == Split(Picks(c, keep, true), Picks(c, keep, false), Bytes(Picks(c, keep, true)))
  }

  lemma ChoosesSnoc(s: Split, c: seq<Row>, keep: seq<bool>, row: Row)
    requires Chooses(s, c, keep)
    ensures Chooses(if s.total + row.bytes > SCOPE_BYTES then s.(overflow := s.overflow + [row])
                    else s.(kept := s.kept + [row], total := s.total + row.bytes),
                    c + [row], keep + [s.total + row.bytes <= SCOPE_BYTES])
  {
    var fits := s.total + row.bytes <= SCOPE_BYTES;
    GreedySnoc(c, keep, row);
    PicksSnoc(c, keep, row, fits, true);
    PicksSnoc(c, keep, row, fits, false);
    BytesSnoc(s.kept, row);
    hide Picks, Bytes;
  }

  lemma NothingChosen(c: seq<Row>)
    requires c == []
    ensures Chooses(Split([], [], 0), c, [])
  {
  }

  lemma {:induction false} SplitChooses(c: seq<Row>, n: nat) returns (keep: seq<bool>)
    requires n <= |c|
    ensures Chooses(SplitTo(c, n), c[..n], keep)
  {
    hide Chooses;
    if n == 0 {
      keep := [];
      NothingChosen(c[..0]);
    } else {
      var front := SplitChooses(c, n - 1);
      assert c[..n] == c[..n - 1] + [c[n - 1]];
      ChoosesSnoc(SplitTo(c, n - 1), c[..n - 1], front, c[n - 1]);
      keep := front + [SplitTo(c, n - 1).total + c[n - 1].bytes <= SCOPE_BYTES];
    }
  }

  lemma GreedySnoc(c: seq<Row>, keep: seq<bool>, row: Row)
    requires Greedy(c, keep)
    ensures Greedy(c + [row], keep + [Bytes(Picks(c, keep, true)) + row.bytes <= 2_097_152])
  {
    hide Picks, Bytes;
    var fits := Bytes(Picks(c, keep, true)) + row.bytes <= 2_097_152;
    var c', keep' := c + [row], keep + [fits];
    forall j | 0 <= j < |c'|
      ensures keep'[j] <==> Bytes(Picks(c'[..j], keep'[..j], true)) + c'[j].bytes <= 2_097_152
    {
      if j < |c| {
        assert c'[..j] == c[..j] && keep'[..j] == keep[..j];
      } else {
        assert c'[..j] == c && keep'[..j] == keep;
      }
    }
  }

  /** The split of the source is the greedy one, in the order of the paths. */
  lemma SplitIsSo(rows: seq<Row>, wanted: Option<set<Path>>)
    ensures var c := Candidates(rows, wanted);
            SplitsSo(rows, wanted, SplitTo(c, |c|).kept, SplitTo(c, |c|).overflow)
  {
    hide Candidates, Picks, Greedy, InOrder;
    var c := Candidates(rows, wanted);
    CandidatesInOrder(rows, wanted);
    var keep := SplitChooses(c, |c|);
    assert c[..|c|] == c;
  }

  // ----- the chain of parts -----------------------------------------------------------------------------

  /** The kept rows of a part and of the follow-ups it leads to at the same pinned target. */
  ghost function Parts(rows: seq<Row>, wanted: Option<set<Path>>): (parts: seq<seq<Row>>)
    requires Listing(rows)
    ensures parts != []
    decreases |Candidates(rows, wanted)|
  {
    var c := Candidates(rows, wanted);
    var s := SplitTo(c, |c|);
    FollowUpTakesOverflow(rows, wanted);
    if s.overflow == [] then [s.kept] else [s.kept] + Parts(rows, Some(PathsOf(s.overflow)))
  }

  ghost predicate InPart(parts: seq<seq<Row>>, r: Row) {
    exists i :: 0 <= i < |parts| && r in parts[i]
  }

  /** Every part within the size limit, and none sharing a row with a later one. */
  ghost predicate GoodParts(parts: seq<seq<Row>>) {
    && (forall i :: 0 <= i < |parts| ==> Bytes(parts[i]) <= SCOPE_BYTES && Distinct(parts[i]))
    && (forall i, j, r :: 0 <= i < j < |parts| && r in parts[i] ==> r !in parts[j])
  }

  lemma PartsUnfold(rows: seq<Row>, wanted: Option<set<Path>>)
    requires Listing(rows)
    ensures var c := Candidates(rows, wanted);
            var s := SplitTo(c, |c|);
            Parts(rows, wanted) == if s.overflow == [] then [s.kept]
                else [s.kept] + Parts(rows, Some(PathsOf(s.overflow)))
  {
    hide Candidates, SplitTo;
  }

  /** The parts hold exactly these candidates, none twice, each part within the limit and none empty without need. */
  ghost predicate Cover(parts: seq<seq<Row>>, c: seq<Row>) {
    && GoodParts(parts) && (forall r :: InPart(parts, r) <==> r in c)
    && |parts| <= (if c == [] then 1 else |c|) && (c != [] ==> forall i :: 0 <= i < |parts| ==> parts[i] != [])
  }

  lemma {:induction false} PartsCover(rows: seq<Row>, wanted: Option<set<Path>>)
    requires Listing(rows)
    ensures Cover(Parts(rows, wanted), Candidates(rows, wanted))
    decreases |Candidates(rows, wanted)|
  {
    hide Candidates, SplitTo, Parts, Cover, Listing, Divided, PathsOf;
    var c := Candidates(rows, wanted);
    var s := SplitTo(c, |c|);
    CandidatesAre(rows, wanted);
    SplitIs(c, |c|);
    assert c[..|c|] == c;
    FollowUpTakesOverflow(rows, wanted);
    PartsUnfold(rows, wanted);
    if s.overflow == [] {
      LastPart(s, c);
    } else {
      PartsCover(rows, Some(PathsOf(s.overflow)));
      MoreParts(s, Parts(rows, Some(PathsOf(s.overflow))), Candidates(rows, Some(PathsOf(s.overflow))), c);
    }
  }

  lemma LastPart(s: Split, c: seq<Row>)
    requires Divided(s, c) && s.overflow == [] && (c != [] ==> s.kept != [])
    ensures Cover([s.kept], c)
  {
    forall r ensures InPart([s.kept], r) <==> r in c {
      if r in c {
        assert r in [s.kept][0];
      }
    }
  }

  lemma MoreParts(s: Split, rest: seq<seq<Row>>, next: seq<Row>, c: seq<Row>)
    requires Divided(s, c) && s.kept != [] && s.overflow != [] && Cover(rest, next)
    requires (forall r :: r in next <==> r in s.overflow) && |next| == |s.overflow|
    ensures Cover([s.kept] + rest, c)
  {
    var kept, all := s.kept, [s.kept] + rest;
    assert next != [];
    forall r ensures InPart(all, r) <==> r in c {
      if r in kept {
        assert r in all[0];
      }
      if InPart(rest, r) {
        var i :| 0 <= i < |rest| && r in rest[i];
        assert r in all[i + 1];
      }
      if InPart(all, r) {
        var i :| 0 <= i < |all| && r in all[i];
        assert i > 0 ==> r in rest[i - 1];
      }
    }
    forall i, j, r | 0 <= i < j < |all| && r in all[i] ensures r !in all[j] {
      assert all[j] == rest[j - 1];
      if i == 0 {
        assert !InPart(rest, r);
      }
    }
  }

  /**
   The parts captured at one target are finitely many, each within the size limit, and every reviewable row of
   the range is kept in exactly one of them.
   */
  lemma SplittingIsExact(rows: seq<Row>)
    requires Listing(rows)
    ensures var parts := Parts(rows, None);
            && GoodParts(parts) && |parts| <= |rows| + 1
            && forall r :: InPart(parts, r) <==> r in rows && Reviewable(r)
  {
    PartsCover(rows, None);
    CandidatesAre(rows, None);
    FilterLength(rows);
    SortKeeps(Filter(rows, None), PathLe);
  }

  lemma {:induction false} FilterLength(rows: seq<Row>)
    ensures |Filter(rows, None)| <= |rows|
  {
    if rows != [] {
      FilterLength(rows[..|rows| - 1]);
    }
  }
}
