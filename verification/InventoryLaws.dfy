/** What a ranking says of the captured inputs, in terms of their fields alone. */
module InventoryLaws {
  import opened Prelude
  import opened Sorting
  import opened RequiredGroups
  import opened Inventory
  import Intervals

  // ----- rows, owners and holds -------------------------------------------------------------------------

  ghost predicate Ongoing(j: Job) {
    || j.state == "pending" || j.state == "reviewing" || j.state == "launch-unknown" || j.state == "publication-pending"
    || j.vendor == "live" || j.vendor == "unknown"
  }

  ghost predicate TakenByJob(i: Inputs, j: Job, path: Path, blob: string, line: int) {
    && Ongoing(j) && j.target == Some(i.target)
    && exists s <- j.scope :: s.path == path && s.blob == blob && line in s.lines
  }

  /** A mapped claim or work under way at this target holds the line. */
  ghost predicate Taken(i: Inputs, path: Path, blob: string, line: int) {
    || (exists c <- i.queue.mapped :: c.unit == Unit(Some(i.target), path, blob) && line in c.lines)
    || (exists j <- i.queue.jobs :: TakenByJob(i, j, path, blob, line))
  }

  /** The last captured row of a path. */
  ghost predicate RowFor(i: Inputs, path: Path, row: Row) {
    row.path == path &&
    exists k ::
      0 <= k < |i.objects| && i.objects[k] == row && forall m :: k < m < |i.objects| ==> i.objects[m].path != path
  }

  ghost predicate Open(i: Inputs, row: Row, line: int) {
    1 <= line <= row.lines && line !in row.covered && !Taken(i, row.path, row.blob, line)
  }

  ghost predicate AnyOpen(i: Inputs, row: Row) {
    exists line :: Open(i, row, line)
  }

  ghost predicate Waits(h: History, at: int) {
    h.quarantined || (h.nextAt.Some? && at < h.nextAt.value)
  }

  ghost function LineageFor(i: Inputs, path: Path): string {
    if path in i.queue.lineages then i.queue.lineages[path] else path
  }

  ghost predicate PathWaits(i: Inputs, path: Path) {
    LineageFor(i, path) in i.queue.failures && Waits(i.queue.failures[LineageFor(i, path)], i.at)
  }

  ghost predicate FamilyWaits(i: Inputs, family: Family) {
    family in i.queue.families && Waits(i.queue.families[family], i.at)
  }

  /** Supported, with an open line, and not held back by its own failures. */
  ghost predicate Eligible(i: Inputs, row: Row) {
    row.supported && AnyOpen(i, row) && !PathWaits(i, row.path)
  }

  /** Eligible, and small enough to be asked for. */
  ghost predicate Goes(i: Inputs, row: Row) {
    Eligible(i, row) && row.bytes <= i.limits.perFile && row.bytes <= i.limits.total
  }

  lemma {:induction false} TableIs(objects: seq<Row>, path: Path)
    ensures path in Table(objects) <==> exists r <- objects :: r.path == path
    ensures path in Table(objects) ==>
              var row := Table(objects)[path];
              row.path == path && exists k ::
                0 <= k < |objects| && objects[k] == row && forall m :: k < m < |objects| ==> objects[m].path != path
  {
    if objects != [] {
      var n := |objects| - 1;
      var front := objects[..n];
      assert objects == front + [objects[n]];
      TableIs(front, path);
      if objects[n].path == path {
        assert objects[n] == Table(objects)[path];
      } else if path in Table(front) {
        var k :| 0 <= k < n && front[k] == Table(front)[path] && forall m :: k < m < n ==> front[m].path != path;
        assert objects[k] == Table(objects)[path];
        forall m | k < m < |objects| ensures objects[m].path != path {
          assert m < n ==> objects[m] == front[m];
        }
      }
    }
  }

  lemma RowForIs(i: Inputs, path: Path, row: Row)
    ensures RowFor(i, path, row) <==> path in Table(i.objects) && Table(i.objects)[path] == row
  {
    TableIs(i.objects, path);
    if RowFor(i, path, row) {
      assert row in i.objects;
      var k :| 0 <= k < |i.objects| && i.objects[k] == row
               && forall m :: k < m < |i.objects| ==> i.objects[m].path != path;
      var last := Table(i.objects)[path];
      var n :| 0 <= n < |i.objects| && i.objects[n] == last
               && forall m :: n < m < |i.objects| ==> i.objects[m].path != path;
    }
  }

  lemma TakenIs(i: Inputs, path: Path, blob: string, line: int)
    ensures Taken(i, path, blob, line) <==> OwnsLine(i.queue, Unit(Some(i.target), path, blob), line)
  {
    forall j | j in i.queue.jobs
      ensures TakenByJob(i, j, path, blob, line) <==> Live(j) && OwnsByJob(j, Unit(Some(i.target), path, blob), line)
    {
    }
  }

  lemma OpenIs(i: Inputs, path: Path, row: Row, line: int)
    requires RowFor(i, path, row)
    ensures Open(i, row, line) <==> line in Free(i, path)
  {
    RowForIs(i, path, row);
    FreeIff(i, path, line);
    TakenIs(i, path, row.blob, line);
  }

  lemma AnyOpenIs(i: Inputs, path: Path, row: Row)
    requires RowFor(i, path, row)
    ensures AnyOpen(i, row) <==> Free(i, path) != {}
  {
    forall line ensures Open(i, row, line) <==> line in Free(i, path) {
      OpenIs(i, path, row, line);
    }
    if Free(i, path) != {} {
      var line := Member(Free(i, path));
      assert Open(i, row, line);
    }
  }

  lemma NoRowIsUnwanted(i: Inputs, path: Path)
    requires path !in Table(i.objects)
    ensures !Wanted(i, path) && Free(i, path) == {}
  {
    hide OwnedLines;
  }

  /** Which paths a packing takes up, and which of these it has room for at all. */
  lemma FitsIff(i: Inputs, path: Path)
    ensures Wanted(i, path) <==> exists row :: RowFor(i, path, row) && Eligible(i, row)
    ensures Fits(i, path) <==> exists row :: RowFor(i, path, row) && Goes(i, row)
  {
    if path in Table(i.objects) {
      var row := Table(i.objects)[path];
      RowForIs(i, path, row);
      AnyOpenIs(i, path, row);
      forall other | RowFor(i, path, other) ensures other == row {
        RowForIs(i, path, other);
      }
      hide Free, RowFor, AnyOpen;
      assert Wanted(i, path) <==> Eligible(i, row);
      assert Fits(i, path) <==> Goes(i, row);
    } else {
      NoRowIsUnwanted(i, path);
      forall row ensures !RowFor(i, path, row) {
        RowForIs(i, path, row);
      }
    }
  }

  // ----- one candidate ----------------------------------------------------------------------------------

  ghost function Uncovered(row: Row): set<int> {
    set line | 1 <= line <= row.lines && line !in row.covered
  }

  ghost function Worth(row: Row): nat {
    |Uncovered(row)| * (1 + row.weight)
  }

  ghost function SumWorth(rows: seq<Row>): nat {
    if rows == [] then 0 else SumWorth(rows[..|rows| - 1]) + Worth(rows[|rows| - 1])
  }

  ghost function SumBytes(rows: seq<Row>): nat {
    if rows == [] then 0 else SumBytes(rows[..|rows| - 1]) + rows[|rows| - 1].bytes
  }

  ghost predicate Ascend(paths: seq<Path>) {
    forall a, b :: 0 <= a < b < |paths| ==> !Less(paths[b], paths[a])
  }

  /** Asks for exactly the open lines of one captured row. */
  ghost predicate AsksFor(i: Inputs, row: Row, s: Scope) {
    s.path == row.path && s.blob == row.blob && forall line :: line in s.lines <==> Open(i, row, line)
  }

  /** The subject, the family or one of the paths has been tried before. */
  ghost predicate TriedBefore(i: Inputs, c: Candidate) {
    || (c.family in i.queue.families && i.queue.families[c.family].failures > 0)
    || (exists j <- i.queue.jobs :: j.subject == Some(c.subject))
    || (exists s <- c.subject.scope ::
          LineageFor(i, s.path) in i.queue.failures && i.queue.failures[LineageFor(i, s.path)].failures > 0)
  }

  /** One above the greatest generation a job of the subject was queued with. */
  ghost predicate NextFor(i: Inputs, c: Candidate) {
    && (forall j <- i.queue.jobs :: j.subject == Some(c.subject) ==> j.generation < c.generation)
    && (c.generation > 0 ==>
        exists j <- i.queue.jobs :: j.subject == Some(c.subject) && j.generation == c.generation - 1)
  }

  ghost predicate Describes(i: Inputs, c: Candidate, rows: seq<Row>) {
    && 1 <= |rows| == |c.subject.scope| && |rows| <= i.limits.files && SumBytes(rows) <= i.limits.total
    && (forall k :: 0 <= k < |rows| ==>
        RowFor(i, rows[k].path, rows[k]) && Goes(i, rows[k]) && AsksFor(i, rows[k], c.subject.scope[k]))
    && (forall a, b :: 0 <= a < b < |rows| ==> rows[a].path != rows[b].path)
    && c.subject.target == i.target && c.subject.kind == c.family.kind && c.subject.prs == c.family.prs
    && multiset(c.subject.paths) == multiset(ScopePaths(c)) && Ascend(c.subject.paths)
    && c.score == SumWorth(rows)
    && (exists r <- rows :: r.tier == c.tier) && (forall r <- rows :: c.tier <= r.tier)
    && (c.retry <==> TriedBefore(i, c)) && NextFor(i, c)
  }

  ghost predicate Described(i: Inputs, c: Candidate) {
    exists rows :: Describes(i, c, rows)
  }

  ghost function RowsOf(i: Inputs, group: seq<Path>): (rows: seq<Row>)
    ensures |rows| == |group| && forall k :: 0 <= k < |rows| ==> rows[k] == RowAt(i, group[k])
  {
    seq(|group|, k requires 0 <= k < |group| => RowAt(i, group[k]))
  }

  lemma UncoveredIs(i: Inputs, path: Path)
    ensures Inventory.Uncovered(i, path) == Uncovered(RowAt(i, path))
    ensures Score(i, path) == Worth(RowAt(i, path))
  {
  }

  lemma {:induction false} SumsAre(i: Inputs, group: seq<Path>)
    ensures TotalScore(i, group) == SumWorth(RowsOf(i, group)) && Bytes(i, group) == SumBytes(RowsOf(i, group))
  {
    if group != [] {
      var n := |group| - 1;
      SumsAre(i, group[..n]);
      assert RowsOf(i, group)[..n] == RowsOf(i, group[..n]);
      UncoveredIs(i, group[n]);
    }
  }

  lemma {:induction false} LeastTierIs(i: Inputs, group: seq<Path>)
    requires group != []
    ensures (exists r <- RowsOf(i, group) :: r.tier == LeastTier(i, group))
    ensures forall r <- RowsOf(i, group) :: LeastTier(i, group) <= r.tier
  {
    hide RowAt;
    var n := |group| - 1;
    var rows := RowsOf(i, group);
    assert rows[n] in rows;
    if n > 0 {
      LeastTierIs(i, group[..n]);
      assert rows == RowsOf(i, group[..n]) + [rows[n]];
    } else {
      assert rows == [rows[0]];
    }
  }

  lemma TextOrder()
    ensures TotalPreorder(TextLe)
  {
    forall a, b ensures TextLe(a, b) || TextLe(b, a) {
      if Less(b, a) && Less(a, b) {
        LessIsTransitive(a, b, a);
        Irreflexive(a);
      }
    }
    forall a, b, c | TextLe(a, b) && TextLe(b, c) ensures TextLe(a, c) {
      if Less(c, a) {
        LessIsTotal(b, c);
        if Less(b, c) {
          LessIsTransitive(b, c, a);
        }
      }
    }
  }

  lemma SortedTexts(paths: seq<Path>)
    ensures multiset(Sort(paths, TextLe)) == multiset(paths) && Ascend(Sort(paths, TextLe))
  {
    hide Sort;
    TextOrder();
    SortKeeps(paths, TextLe);
    SortOrders(paths, TextLe);
  }

  lemma {:induction false} GenerationIs(jobs: seq<Job>, subject: Subject)
    ensures forall j <- jobs :: j.subject == Some(subject) ==> j.generation < NextGeneration(jobs, subject)
    ensures NextGeneration(jobs, subject) > 0 ==>
              exists j <- jobs :: j.subject == Some(subject) && j.generation == NextGeneration(jobs, subject) - 1
  {
    if jobs != [] {
      assert jobs == jobs[..|jobs| - 1] + [jobs[|jobs| - 1]];
      GenerationIs(jobs[..|jobs| - 1], subject);
    }
  }

  lemma GroupRow(i: Inputs, path: Path)
    requires Fits(i, path)
    ensures RowAt(i, path).path == path && RowFor(i, path, RowAt(i, path)) && Goes(i, RowAt(i, path))
    ensures AsksFor(i, RowAt(i, path), Scope(path, RowAt(i, path).blob, Free(i, path)))
  {
    FitsIff(i, path);
    var row :| RowFor(i, path, row) && Goes(i, row);
    RowForIs(i, path, row);
    forall line ensures Open(i, row, line) <==> line in Free(i, path) {
      OpenIs(i, path, row, line);
    }
    hide Free, RowFor, Goes;
  }

  lemma RetriedIs(i: Inputs, family: Family, row: int, group: seq<Path>, partition: nat)
    ensures var c := MakeCandidate(i, family, row, group, partition); c.retry <==> TriedBefore(i, c)
  {
    hide RowAt, Free, Sort, NextGeneration, LeastTier, TotalScore;
    var c := MakeCandidate(i, family, row, group, partition);
    assert |c.subject.scope| == |group| && forall k :: 0 <= k < |group| ==> c.subject.scope[k].path == group[k];
    forall path | path in group ensures exists s <- c.subject.scope :: s.path == path {
      var k :| 0 <= k < |group| && group[k] == path;
      assert c.subject.scope[k] in c.subject.scope;
    }
    forall s | s in c.subject.scope ensures s.path in group {
      var k :| 0 <= k < |group| && c.subject.scope[k] == s;
    }
  }

  /** A candidate made of a group that is within the limits says of its rows what it should. */
  lemma MakeDescribes(i: Inputs, family: Family, row: int, group: seq<Path>, partition: nat)
    requires group != [] && Distinct(group) && Within(i, group)
    ensures Describes(i, MakeCandidate(i, family, row, group, partition), RowsOf(i, group))
  {
    hide Fits, Goes, RowFor, Open, Free, TriedBefore, Sort, LeastTier, TotalScore, NextGeneration, RowAt, Retried,
        AsksFor;
    var c, rows := MakeCandidate(i, family, row, group, partition), RowsOf(i, group);
    forall k | 0 <= k < |rows|
      ensures RowFor(i, rows[k].path, rows[k]) && Goes(i, rows[k]) && AsksFor(i, rows[k], c.subject.scope[k])
      ensures rows[k].path == group[k]
    {
      assert group[k] in group;
      GroupRow(i, group[k]);
    }
    SumsAre(i, group);
    LeastTierIs(i, group);
    SortedTexts(group);
    GenerationIs(i.queue.jobs, c.subject);
    RetriedIs(i, family, row, group, partition);
    assert ScopePaths(c) == group;
  }

  // ----- the candidates of one family -------------------------------------------------------------------

  /** The paths that go, in their given order. */
  ghost function Going(i: Inputs, names: seq<Path>): seq<Path> {
    if names == [] then []
    else
      var n := |names| - 1;
      Going(i, names[..n]) + if exists row :: RowFor(i, names[n], row) && Goes(i, row) then [names[n]] else []
  }

  /** A path taken up after a group, by its position, for which the group had no room left. */
  ghost predicate NoRoom(i: Inputs, names: seq<Path>, group: seq<Path>, b: nat) {
    && b < |names|
    && exists row :: RowFor(i, names[b], row) && Eligible(i, row) &&
                     (|group| == i.limits.files || Bytes(i, group) + row.bytes > i.limits.total)
  }

  /** A group ends only at an eligible path it had no room for, after its own last path. */
  ghost predicate EndsFull(i: Inputs, names: seq<Path>, group: seq<Path>, limit: nat) {
    group != [] && exists a: nat, b: nat ::
      a < b < limit && a < |names| && names[a] == group[|group| - 1] && NoRoom(i, names, group, b)
  }

  lemma {:induction false} GoingIs(i: Inputs, names: seq<Path>, n: nat)
    requires n <= |names|
    ensures Fitting(i, names, n) == Going(i, names[..n])
  {
    hide Fits, RowFor, Goes;
    if n > 0 {
      GoingIs(i, names, n - 1);
      assert names[..n][..n - 1] == names[..n - 1];
      FitsIff(i, names[n - 1]);
    }
  }

  ghost predicate Closed(i: Inputs, names: seq<Path>, p: Packing, n: nat) {
    && (forall g <- p.groups :: EndsFull(i, names, g, n))
    && (p.current != [] ==> exists a: nat :: a < n && a < |names| && names[a] == p.current[|p.current| - 1])
  }

  lemma EndsFullLater(i: Inputs, names: seq<Path>, group: seq<Path>, n: nat, m: nat)
    requires EndsFull(i, names, group, n) && n <= m
    ensures EndsFull(i, names, group, m)
  {
    hide NoRoom;
  }

  lemma FlushEndsFull(i: Inputs, names: seq<Path>, p: Packing, n: nat, placed: seq<Path>)
    requires n < |names| && Closed(i, names, p, n) && Packed(i, p, placed) && p.current != [] && Wanted(i, names[n])
    requires |p.current| == i.limits.files || p.size + RowAt(i, names[n]).bytes > i.limits.total
    ensures EndsFull(i, names, p.current, n + 1)
  {
    hide Eligible, RowFor, Wanted, Within;
    FitsIff(i, names[n]);
    var row :| RowFor(i, names[n], row) && Eligible(i, row);
    RowForIs(i, names[n], row);
    assert NoRoom(i, names, p.current, n);
    var a: nat :| a < n && a < |names| && names[a] == p.current[|p.current| - 1];
  }

  lemma ClosedStays(i: Inputs, names: seq<Path>, p: Packing, n: nat)
    requires n < |names| && Closed(i, names, p, n)
    ensures Closed(i, names, p, n + 1)
  {
    hide EndsFull;
    forall g | g in p.groups ensures EndsFull(i, names, g, n + 1) {
      EndsFullLater(i, names, g, n, n + 1);
    }
  }

  lemma ClosedFlush(i: Inputs, names: seq<Path>, p: Packing, n: nat)
    requires Closed(i, names, p, n) && EndsFull(i, names, p.current, n)
    ensures Closed(i, names, Packing(p.groups + [p.current], [], 0), n)
  {
    hide EndsFull;
  }

  lemma ClosedAdd(i: Inputs, names: seq<Path>, p: Packing, n: nat, size: nat)
    requires n < |names| && Closed(i, names, p, n + 1)
    ensures Closed(i, names, p.(current := p.current + [names[n]], size := size), n + 1)
  {
    hide EndsFull;
    var current := p.current + [names[n]];
    assert current[|current| - 1] == names[n];
  }

  ghost predicate Full(i: Inputs, p: Packing, path: Path) {
    p.current != [] && (|p.current| == i.limits.files || p.size + RowAt(i, path).bytes > i.limits.total)
  }

  ghost function RoomFor(i: Inputs, p: Packing, path: Path): Packing {
    if Full(i, p, path) then Packing(p.groups + [p.current], [], 0) else p
  }

  ghost function Packs(i: Inputs, p: Packing, path: Path): Packing {
    if !Wanted(i, path) then p
    else
      var room := RoomFor(i, p, path);
      if Small(i, path) then room.(current := room.current + [path], size := room.size + RowAt(i, path).bytes) else room
  }

  lemma PacksIs(i: Inputs, names: seq<Path>, n: nat)
    requires n < |names|
    ensures PackTo(i, names, n + 1) == Packs(i, PackTo(i, names, n), names[n])
  {
    PackingStep(i, names, n);
    hide PackTo, Wanted, Small, RowAt;
  }

  lemma PacksCloses(i: Inputs, names: seq<Path>, p: Packing, n: nat, placed: seq<Path>)
    requires n < |names| && Closed(i, names, p, n) && Packed(i, p, placed)
    ensures Closed(i, names, Packs(i, p, names[n]), n + 1)
  {
    hide Wanted, Small, Packed, RowAt, EndsFull, Closed;
    ClosedStays(i, names, p, n);
    if Wanted(i, names[n]) {
      if Full(i, p, names[n]) {
        FlushEndsFull(i, names, p, n, placed);
        ClosedFlush(i, names, p, n + 1);
      }
      var room := RoomFor(i, p, names[n]);
      ClosedAdd(i, names, room, n, room.size + RowAt(i, names[n]).bytes);
    }
  }

  lemma NothingClosed(i: Inputs, names: seq<Path>)
    ensures Closed(i, names, PackTo(i, names, 0), 0)
  {
  }

  lemma {:induction false} PackingCloses(i: Inputs, names: seq<Path>, n: nat)
    requires n <= |names| && i.limits.files >= 1
    ensures Closed(i, names, PackTo(i, names, n), n)
  {
    hide *;
    if n == 0 {
      NothingClosed(i, names);
    } else {
      PackingCloses(i, names, n - 1);
      PackingIsExact(i, names, n - 1);
      PacksIs(i, names, n - 1);
      PacksCloses(i, names, PackTo(i, names, n - 1), n - 1, Fitting(i, names, n - 1));
    }
  }

  /** All groups of a packing but the last end for want of room. */
  lemma PackCloses(i: Inputs, names: seq<Path>)
    requires i.limits.files >= 1
    ensures var groups := Pack(i, names);
            && Flatten(groups) == Going(i, names)
            && forall k :: 0 <= k < |groups| - 1 ==> EndsFull(i, names, groups[k], |names|)
  {
    hide PackTo, EndsFull, Going;
    PackIsExact(i, names);
    PackingCloses(i, names, |names|);
    GoingIs(i, names, |names|);
    assert names[..|names|] == names;
  }

  /**
   The candidates of one family: none while it waits; otherwise its going paths in order, cut only where a group had no
   room left, numbered from zero, each describing its rows.
   */
  ghost predicate FamilyCut(i: Inputs, family: Family, row: int, names: seq<Path>, cs: seq<Candidate>) {
    if FamilyWaits(i, family) then cs == []
    else
      && Flatten(seq(|cs|, k requires 0 <= k < |cs| => ScopePaths(cs[k]))) == Going(i, names)
      && (forall k :: 0 <= k < |cs| ==>
          Described(i, cs[k]) && cs[k].family == family && cs[k].row == row && cs[k].subject.partition == k)
      && (forall k :: 0 <= k < |cs| - 1 ==> EndsFull(i, names, ScopePaths(cs[k]), |names|))
  }

  lemma CandidatesAre(i: Inputs, kind: Kind, prs: seq<int>, row: int, names: seq<Path>)
    requires i.limits.files >= 1 && Distinct(names)
    ensures FamilyCut(i, FamilyOf(kind, prs, names), row, names, CandidatesOf(i, kind, prs, row, names))
  {
    hide Fits, Fitting, Pack, Within, EndsFull, Going, MakeCandidate, Describes, ScopePaths, FamilyOf;
    var family, groups, cs := FamilyOf(kind, prs, names), Pack(i, names), CandidatesOf(i, kind, prs, row, names);
    if !FamilyHeld(i, family) {
      PackIsExact(i, names);
      PackCloses(i, names);
      FittingIs(i, names, |names|);
      FlattenApart(groups);
      forall k | 0 <= k < |groups|
        ensures ScopePaths(cs[k]) == groups[k] && Described(i, cs[k]) && cs[k].family == family && cs[k].row == row
        ensures cs[k].subject.partition == k
      {
        assert groups[k] in groups;
        MakeDescribes(i, family, row, groups[k], k);
        MakeIsOf(i, family, row, groups[k], k);
      }
      assert seq(|cs|, k requires 0 <= k < |cs| => ScopePaths(cs[k])) == groups;
    }
  }

  lemma MakeIsOf(i: Inputs, family: Family, row: int, group: seq<Path>, partition: nat)
    ensures var c := MakeCandidate(i, family, row, group, partition);
            ScopePaths(c) == group && c.family == family && c.row == row && c.subject.partition == partition
  {
    hide RowAt, Free, Retried, LeastTier, TotalScore, NextGeneration, Sort;
    assert ScopePaths(MakeCandidate(i, family, row, group, partition)) == group;
  }

  // ----- which paths a family has -----------------------------------------------------------------------

  /** Retained evidence of one of the group's pull requests names the path, and it is captured. */
  ghost predicate Names(i: Inputs, g: Group, path: Path) {
    && (exists pr <- g.prs :: pr in i.evidence && path in i.evidence[pr])
    && exists r <- i.objects :: r.path == path
  }

  /** By importance, then by name. */
  ghost predicate ByTier(i: Inputs, paths: seq<Path>) {
    forall a, b, x, y ::
      0 <= a < b < |paths| && RowFor(i, paths[a], x) && RowFor(i, paths[b], y) ==>
        x.tier < y.tier || (x.tier == y.tier && !Less(paths[b], paths[a]))
  }

  /** Worth most first, then by name. */
  ghost predicate ByWorth(i: Inputs, paths: seq<Path>) {
    forall a, b, x, y ::
      0 <= a < b < |paths| && RowFor(i, paths[a], x) && RowFor(i, paths[b], y) ==>
        Worth(x) > Worth(y) || (Worth(x) == Worth(y) && !Less(paths[b], paths[a]))
  }

  /** The paths this group is the first to name. */
  ghost predicate FirstNamed(i: Inputs, groups: seq<Group>, k: nat, names: seq<Path>)
    requires k < |groups|
  {
    && Distinct(names) && ByTier(i, names)
    && forall path :: path in names <==>
         Names(i, groups[k], path) && forall m :: 0 <= m < k ==> !Names(i, groups[m], path)
  }

  lemma {:induction false} EvidenceIs(i: Inputs, prs: seq<int>, path: Path)
    ensures path in Evidence(i, prs) <==> exists pr <- prs :: pr in i.evidence && path in i.evidence[pr]
  {
    if prs != [] {
      assert prs == prs[..|prs| - 1] + [prs[|prs| - 1]];
      EvidenceIs(i, prs[..|prs| - 1], path);
    }
  }

  lemma {:induction false} KnownIs(i: Inputs, paths: seq<Path>, path: Path)
    ensures path in Known(i, paths) <==> path in paths && path in Table(i.objects)
  {
    if paths != [] {
      assert paths == paths[..|paths| - 1] + [paths[|paths| - 1]];
      KnownIs(i, paths[..|paths| - 1], path);
    }
  }

  lemma NamesAre(i: Inputs, g: Group, path: Path)
    ensures path in NamesOf(i, g) <==> Names(i, g, path)
  {
    hide Unique, Sort, Evidence, Known;
    var known := Known(i, Evidence(i, g.prs));
    UniqueOnce(known);
    SortKeeps(Unique(known), PathLe(i));
    KnownIs(i, Evidence(i, g.prs), path);
    EvidenceIs(i, g.prs, path);
    TableIs(i.objects, path);
  }

  lemma PathOrder(i: Inputs)
    ensures TotalPreorder(PathLe(i)) && TotalPreorder(ScoreLe(i))
  {
    TextOrder();
    hide TextLe, RowAt, Score;
    forall a, b, c ensures PathLe(i)(a, b) && PathLe(i)(b, c) ==> PathLe(i)(a, c)
                   ensures ScoreLe(i)(a, b) && ScoreLe(i)(b, c) ==> ScoreLe(i)(a, c)
    {
      assert TextLe(a, b) && TextLe(b, c) ==> TextLe(a, c);
    }
    forall a, b ensures PathLe(i)(a, b) || PathLe(i)(b, a)
                ensures ScoreLe(i)(a, b) || ScoreLe(i)(b, a)
    {
      assert TextLe(a, b) || TextLe(b, a);
    }
  }

  lemma TierPair(i: Inputs, a: Path, b: Path, x: Row, y: Row)
    requires PathLe(i)(a, b) && RowFor(i, a, x) && RowFor(i, b, y)
    ensures x.tier < y.tier || (x.tier == y.tier && !Less(b, a))
  {
    RowForIs(i, a, x);
    RowForIs(i, b, y);
    hide RowFor;
    assert RowAt(i, a) == x && RowAt(i, b) == y;
    assert RowAt(i, a).tier < RowAt(i, b).tier || (RowAt(i, a).tier == RowAt(i, b).tier && TextLe(a, b));
  }

  lemma TierOrder(i: Inputs, paths: seq<Path>)
    requires Ordered(paths, PathLe(i))
    ensures ByTier(i, paths)
  {
    hide PathLe, RowFor, Less;
    forall a, b, x, y | 0 <= a < b < |paths| && RowFor(i, paths[a], x) && RowFor(i, paths[b], y)
      ensures x.tier < y.tier || (x.tier == y.tier && !Less(paths[b], paths[a]))
    {
      TierPair(i, paths[a], paths[b], x, y);
    }
  }

  lemma WorthPair(i: Inputs, a: Path, b: Path, x: Row, y: Row)
    requires ScoreLe(i)(a, b) && RowFor(i, a, x) && RowFor(i, b, y)
    ensures Worth(x) > Worth(y) || (Worth(x) == Worth(y) && !Less(b, a))
  {
    RowForIs(i, a, x);
    RowForIs(i, b, y);
    UncoveredIs(i, a);
    UncoveredIs(i, b);
    hide RowFor, Less, Score, Worth;
  }

  lemma WorthOrder(i: Inputs, paths: seq<Path>)
    requires Ordered(paths, ScoreLe(i))
    ensures ByWorth(i, paths)
  {
    hide ScoreLe, RowFor, Less, Worth;
    forall a, b, x, y | 0 <= a < b < |paths| && RowFor(i, paths[a], x) && RowFor(i, paths[b], y)
      ensures Worth(x) > Worth(y) || (Worth(x) == Worth(y) && !Less(paths[b], paths[a]))
    {
      WorthPair(i, paths[a], paths[b], x, y);
    }
  }

  /** Leaving paths out keeps the order of the others. */
  lemma {:induction false} UntakenOrdered(names: seq<Path>, taken: set<Path>, le: (Path, Path) -> bool)
    requires Ordered(names, le)
    ensures Ordered(Untaken(names, taken), le)
  {
    if names != [] {
      var front, last := names[..|names| - 1], names[|names| - 1];
      UntakenOrdered(front, taken, le);
      UntakenIs(front, taken);
      forall path | path in front ensures le(path, last) {
        var k :| 0 <= k < |front| && names[k] == path;
      }
    }
  }

  lemma {:induction false} ClaimedIs(i: Inputs, groups: seq<Group>, n: nat, path: Path)
    requires n <= |groups|
    ensures path in Claimed(i, groups, n) <==> exists m :: 0 <= m < n && Names(i, groups[m], path)
  {
    hide Names, NamesOf;
    if n > 0 {
      ClaimedIs(i, groups, n - 1, path);
      NamesAre(i, groups[n - 1], path);
    }
  }

  lemma AvailableIs(i: Inputs, groups: seq<Group>, k: nat)
    requires k < |groups|
    ensures FirstNamed(i, groups, k, Available(i, groups, k))
  {
    hide Names, Claimed, RowFor;
    var names, taken := NamesOf(i, groups[k]), Claimed(i, groups, k);
    NamesOnce(i, groups[k]);
    UntakenIs(names, taken);
    forall path ensures path in names <==> Names(i, groups[k], path)
                ensures path in taken <==> exists m :: 0 <= m < k && Names(i, groups[m], path)
    {
      NamesAre(i, groups[k], path);
      ClaimedIs(i, groups, k, path);
    }
    PathOrder(i);
    SortOrders(Unique(Known(i, Evidence(i, groups[k].prs))), PathLe(i));
    hide Sort, Unique, Known, Evidence;
    UntakenOrdered(names, taken, PathLe(i));
    TierOrder(i, Untaken(names, taken));
  }

  // ----- clusters ---------------------------------------------------------------------------------------

  /** The text before the last slash, or nothing where there is none. */
  ghost predicate InDirectory(path: Path, directory: string) {
    if '/' in path then
      exists k :: 0 <= k < |path| && path[k] == '/' && '/' !in path[k + 1..] && directory == path[..k]
    else directory == ""
  }

  lemma SplitsAt(path: Path, last: char, k: nat)
    requires k < |path|
    ensures (path + [last])[k] == path[k] && (path + [last])[k + 1..] == path[k + 1..] + [last]
    ensures (path + [last])[..k] == path[..k]
  {
  }

  lemma InLonger(path: Path, last: char, directory: string)
    requires InDirectory(path, directory) && last != '/'
    ensures InDirectory(path + [last], directory)
  {
    if '/' in path {
      var k :| 0 <= k < |path| && path[k] == '/' && '/' !in path[k + 1..] && directory == path[..k];
      SplitsAt(path, last, k);
      assert '/' !in path[k + 1..] + [last];
    }
  }

  lemma {:induction false} DirectoryIs(path: Path)
    ensures InDirectory(path, Directory(path))
  {
    if path != "" {
      var n := |path| - 1;
      assert path == path[..n] + [path[n]];
      if path[n] != '/' {
        DirectoryIs(path[..n]);
        hide InDirectory;
        InLonger(path[..n], path[n], Directory(path[..n]));
      } else {
        assert path[n + 1..] == [];
      }
    }
  }

  lemma SlashAfter(path: Path, k: nat, m: nat)
    requires k < |path| && m < |path| && path[m] == '/'
    ensures k < m ==> '/' in path[k + 1..]
  {
    if k < m {
      assert path[k + 1..][m - k - 1] == '/';
    }
  }

  lemma OneDirectory(path: Path, a: string, b: string)
    requires InDirectory(path, a) && InDirectory(path, b)
    ensures a == b
  {
    if '/' in path {
      var k :| 0 <= k < |path| && path[k] == '/' && '/' !in path[k + 1..] && a == path[..k];
      var m :| 0 <= m < |path| && path[m] == '/' && '/' !in path[m + 1..] && b == path[..m];
      SlashAfter(path, k, m);
      SlashAfter(path, m, k);
    }
  }

  /** Captured, with an open line, and named by no required pull request. */
  ghost predicate Unclaimed(i: Inputs, groups: seq<Group>, path: Path) {
    && (exists row :: RowFor(i, path, row) && AnyOpen(i, row))
    && forall k :: 0 <= k < |groups| ==> !Names(i, groups[k], path)
  }

  ghost predicate Belongs(i: Inputs, path: Path, c: Cluster) {
    InDirectory(path, c.directory) && exists row :: RowFor(i, path, row) && row.tier == c.tier
  }

  /** The unclaimed paths of one directory and importance. */
  ghost predicate ClusterFor(i: Inputs, groups: seq<Group>, c: Cluster, names: seq<Path>) {
    && Distinct(names) && ByWorth(i, names)
    && forall path :: path in names <==> Unclaimed(i, groups, path) && Belongs(i, path, c)
  }

  lemma BelongsIs(i: Inputs, path: Path, c: Cluster)
    requires path in Table(i.objects)
    ensures Belongs(i, path, c) <==> ClusterOf(i, path) == c
  {
    var row := Table(i.objects)[path];
    RowForIs(i, path, row);
    DirectoryIs(path);
    forall other | RowFor(i, path, other) ensures other == row {
      RowForIs(i, path, other);
    }
    if InDirectory(path, c.directory) {
      OneDirectory(path, c.directory, Directory(path));
    }
    hide InDirectory, RowFor;
  }

  lemma LooseAre(i: Inputs, groups: seq<Group>, path: Path)
    ensures path in LoosePaths(i, groups) <==> Unclaimed(i, groups, path)
    ensures path in LoosePaths(i, groups) ==> path in Table(i.objects)
    ensures Distinct(LoosePaths(i, groups))
  {
    hide Names, Claimed, Free, AnyOpen, Unique, LooseOnes;
    var paths := Unique(Paths(i.objects));
    UniqueOnce(Paths(i.objects));
    LooseIs(i, Claimed(i, groups, |groups|), paths);
    ClaimedIs(i, groups, |groups|, path);
    TableIs(i.objects, path);
    if path in Table(i.objects) {
      var row := Table(i.objects)[path];
      RowForIs(i, path, row);
      AnyOpenIs(i, path, row);
      PathsHold(i.objects, path);
      forall other | RowFor(i, path, other) ensures other == row {
        RowForIs(i, path, other);
      }
    } else {
      NoRowIsUnwanted(i, path);
      forall row ensures !RowFor(i, path, row) {
        RowForIs(i, path, row);
      }
    }
  }

  lemma PathsHold(objects: seq<Row>, path: Path)
    requires exists r <- objects :: r.path == path
    ensures path in Paths(objects)
  {
    var r :| r in objects && r.path == path;
    var k :| 0 <= k < |objects| && objects[k] == r;
    assert Paths(objects)[k] == path;
  }

  lemma ClusterIs(i: Inputs, groups: seq<Group>, c: Cluster)
    ensures ClusterFor(i, groups, c, ClusterNames(i, LoosePaths(i, groups), c))
  {
    hide Unclaimed, Belongs, LoosePaths, ClusterOf, Sort, RowFor, Worth;
    var loose := LoosePaths(i, groups);
    var names := ClusterNames(i, loose, c);
    forall path ensures path in loose <==> Unclaimed(i, groups, path)
                ensures path in loose ==> (Belongs(i, path, c) <==> ClusterOf(i, path) == c)
    {
      LooseAre(i, groups, path);
      if path in loose {
        BelongsIs(i, path, c);
      }
    }
    LooseAre(i, groups, "");
    ClusterNamesAre(i, loose, c);
    PathOrder(i);
    SortOrders(InCluster(i, c, loose), ScoreLe(i));
    WorthOrder(i, names);
  }

  // ----- the ranking ------------------------------------------------------------------------------------

  /** One family's share of a ranking: its paths in the order they are packed, and the candidates cut from them. */
  datatype Part = Part(family: Family, row: int, names: seq<Path>, candidates: seq<Candidate>)

  ghost predicate Cut(i: Inputs, p: Part) {
    FamilyCut(i, p.family, p.row, p.names, p.candidates)
  }

  ghost predicate RequiredPart(i: Inputs, groups: seq<Group>, k: nat, p: Part)
    requires k < |groups|
  {
    p.family == Family(A, groups[k].prs, []) && p.row == groups[k].row && FirstNamed(i, groups, k, p.names) && Cut(i, p)
  }

  ghost predicate ClusterPart(i: Inputs, groups: seq<Group>, c: Cluster, p: Part) {
    && p.family.kind.B? && p.family.prs == [] && p.row == 0 && ClusterFor(i, groups, c, p.names)
    && multiset(p.family.lineage) == multiset(p.names) && Ascend(p.family.lineage) && Cut(i, p)
  }

  ghost function SharesOf(parts: seq<Part>): seq<Candidate> {
    Flatten(seq(|parts|, k requires 0 <= k < |parts| => parts[k].candidates))
  }

  /** A part for every required group, then one for every cluster of paths that none of them names. */
  ghost predicate Parts(i: Inputs, groups: seq<Group>, keys: seq<Cluster>, parts: seq<Part>) {
    && |parts| == |groups| + |keys| && Distinct(keys)
    && (forall k :: 0 <= k < |groups| ==> RequiredPart(i, groups, k, parts[k]))
    && (forall k :: 0 <= k < |keys| ==> ClusterPart(i, groups, keys[k], parts[|groups| + k]))
    && (forall path :: Unclaimed(i, groups, path) ==> exists c <- keys :: Belongs(i, path, c))
  }

  lemma SharesSnoc(parts: seq<Part>, p: Part)
    ensures SharesOf(parts + [p]) == SharesOf(parts) + p.candidates
  {
    var lists := seq(|parts|, k requires 0 <= k < |parts| => parts[k].candidates);
    FlattenSnoc(lists, p.candidates);
    var more := parts + [p];
    assert seq(|more|, k requires 0 <= k < |more| => more[k].candidates) == lists + [p.candidates];
  }

  lemma {:induction false} RequiredParts(i: Inputs, groups: seq<Group>, n: nat) returns (parts: seq<Part>)
    requires n <= |groups| && i.limits.files >= 1
    ensures |parts| == n && SharesOf(parts) == RequiredTo(i, groups, n)
    ensures forall k :: 0 <= k < n ==> RequiredPart(i, groups, k, parts[k])
  {
    if n == 0 {
      parts := [];
    } else {
      hide RequiredPart, SharesOf, CandidatesOf, Available, FirstNamed, Cut;
      var front := RequiredParts(i, groups, n - 1);
      var p := RequiredOne(i, groups, n - 1);
      SharesSnoc(front, p);
      parts := front + [p];
      forall k | 0 <= k < n ensures RequiredPart(i, groups, k, parts[k]) {
        assert parts[k] == if k < n - 1 then front[k] else p;
      }
    }
  }

  lemma RequiredOne(i: Inputs, groups: seq<Group>, k: nat) returns (p: Part)
    requires k < |groups| && i.limits.files >= 1
    ensures RequiredPart(i, groups, k, p)
    ensures p.candidates == CandidatesOf(i, A, groups[k].prs, groups[k].row, Available(i, groups, k))
  {
    hide CandidatesOf, FamilyCut, Available;
    var names := Available(i, groups, k);
    AvailableIs(i, groups, k);
    CandidatesAre(i, A, groups[k].prs, groups[k].row, names);
    p := Part(FamilyOf(A, groups[k].prs, names), groups[k].row, names,
              CandidatesOf(i, A, groups[k].prs, groups[k].row, names));
  }

  lemma ClusterOne(i: Inputs, groups: seq<Group>, c: Cluster) returns (p: Part)
    requires i.limits.files >= 1
    ensures ClusterPart(i, groups, c, p)
    ensures p.candidates == CandidatesOf(i, B, [], 0, ClusterNames(i, LoosePaths(i, groups), c))
  {
    hide CandidatesOf, FamilyCut, ClusterNames, Unclaimed, Belongs, Sort;
    var names := ClusterNames(i, LoosePaths(i, groups), c);
    ClusterIs(i, groups, c);
    SortedTexts(names);
    CandidatesAre(i, B, [], 0, names);
    p := Part(FamilyOf(B, [], names), 0, names, CandidatesOf(i, B, [], 0, names));
  }

  lemma {:induction false} ClusterParts(i: Inputs, groups: seq<Group>, keys: seq<Cluster>, n: nat)
      returns (parts: seq<Part>)
    requires n <= |keys| && i.limits.files >= 1
    ensures |parts| == n && SharesOf(parts) == ClustersTo(i, LoosePaths(i, groups), keys, n)
    ensures forall k :: 0 <= k < n ==> ClusterPart(i, groups, keys[k], parts[k])
  {
    if n == 0 {
      parts := [];
    } else {
      hide ClusterPart, SharesOf, CandidatesOf, LoosePaths, ClusterNames;
      var front := ClusterParts(i, groups, keys, n - 1);
      var p := ClusterOne(i, groups, keys[n - 1]);
      SharesSnoc(front, p);
      parts := front + [p];
      forall k | 0 <= k < n ensures ClusterPart(i, groups, keys[k], parts[k]) {
        assert parts[k] == if k < n - 1 then front[k] else p;
      }
    }
  }

  lemma {:induction false} SharesConcat(a: seq<Part>, b: seq<Part>)
    ensures SharesOf(a + b) == SharesOf(a) + SharesOf(b)
  {
    hide SharesOf;
    if b == [] {
      assert a + b == a;
      NoShares();
    } else {
      var front, last := b[..|b| - 1], b[|b| - 1];
      SharesConcat(a, front);
      assert a + b == (a + front) + [last] && b == front + [last];
      SharesSnoc(a + front, last);
      SharesSnoc(front, last);
    }
  }

  lemma NoShares()
    ensures SharesOf([]) == []
  {
  }

  lemma KeysCover(i: Inputs, groups: seq<Group>)
    ensures var keys := ClusterKeys(i, LoosePaths(i, groups));
            && Distinct(keys)
            && forall path :: Unclaimed(i, groups, path) ==> exists c <- keys :: Belongs(i, path, c)
  {
    hide LoosePaths, ClusterKeys, ClusterOf, Unclaimed, Belongs;
    var loose := LoosePaths(i, groups);
    ClusterKeysAre(i, loose);
    forall path | Unclaimed(i, groups, path) ensures exists c <- ClusterKeys(i, loose) :: Belongs(i, path, c) {
      LooseAre(i, groups, path);
      BelongsIs(i, path, ClusterOf(i, path));
    }
  }

  /** The sort key of the source, position by position. */
  ghost function KeyFor(order: Subject -> int, c: Candidate): seq<int> {
    var place: int := if c.family.kind.A? then c.row else -(c.score as int);
    [c.tier, if c.retry then 1 else 0, if c.family.kind.A? then 0 else 1, place, order(c.subject)]
  }

  /** The order of tuples: the first position that differs decides. */
  ghost predicate NotAfter(a: seq<int>, b: seq<int>)
    requires |a| == |b|
  {
    a == b || exists k :: 0 <= k < |a| && a[k] < b[k] && a[..k] == b[..k]
  }

  lemma KeyOrder(order: Subject -> int, a: Candidate, b: Candidate)
    requires Precedes(order, a, b)
    ensures NotAfter(KeyFor(order, a), KeyFor(order, b))
  {
    var x, y := KeyFor(order, a), KeyFor(order, b);
    if x != y {
      var k := if x[0] != y[0] then 0 else if x[1] != y[1] then 1 else if x[2] != y[2] then 2
               else if x[3] != y[3] then 3 else 4;
      assert x[k] < y[k] && x[..k] == y[..k];
    }
  }

  /**
   A ranking is the shares of its families, each once, in the order of their keys: every required group with the paths
   it is the first to name, and every cluster of the paths no required pull request names.
   */
  lemma RankingIs(i: Inputs, order: Subject -> int)
    requires Ranking(i, order).Ok? && i.limits.files >= 1
    ensures var cs, groups := Ranking(i, order).value, Groups(i.required).value;
            && (exists keys, parts :: Parts(i, groups, keys, parts) && multiset(cs) == multiset(SharesOf(parts)))
            && forall a, b :: 0 <= a < b < |cs| ==> NotAfter(KeyFor(order, cs[a]), KeyFor(order, cs[b]))
  {
    hide Groups, RequiredTo, ClustersTo, ClusterKeys, LoosePaths, Sort, RequiredPart, ClusterPart, SharesOf, NotAfter,
         Precedes, Unclaimed, Belongs;
    var groups := Groups(i.required).value;
    var keys := ClusterKeys(i, LoosePaths(i, groups));
    var a := RequiredParts(i, groups, |groups|);
    var b := ClusterParts(i, groups, keys, |keys|);
    KeysCover(i, groups);
    SharesConcat(a, b);
    SortKeeps(Unsorted(i, groups), CandidateLe(order));
    assert Parts(i, groups, keys, a + b);
    RankingIsOrdered(i, order);
    var cs := Ranking(i, order).value;
    forall m, n | 0 <= m < n < |cs| ensures NotAfter(KeyFor(order, cs[m]), KeyFor(order, cs[n])) {
      assert CandidateLe(order)(cs[m], cs[n]);
      KeyOrder(order, cs[m], cs[n]);
    }
  }
}
