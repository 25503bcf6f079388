/**
 Ranking of a captured inventory into bounded review candidates: required pull requests first (kind A), then
 clusters of the paths none of them names (kind B). Everything is a function of the captured inputs.
 */
module Inventory {
  import opened Prelude
  import opened Sorting
  import opened RequiredGroups
  import Intervals

  type Path = string

  datatype Kind = A | B

  datatype Row = Row(path: Path, blob: string, lines: nat, covered: set<int>, bytes: nat, supported: bool, tier: nat,
                     weight: nat)

  datatype Scope = Scope(path: Path, blob: string, lines: set<int>)

  /** Ideal digests of what a candidate asks for and of the history it shares. */
  datatype Subject = Subject(kind: Kind, prs: seq<int>, paths: seq<Path>, target: string, scope: seq<Scope>,
                             partition: nat)
  datatype Family = Family(kind: Kind, prs: seq<int>, lineage: seq<Path>)

  datatype Unit = Unit(target: Option<string>, path: Path, blob: string)
  datatype Claim = Claim(unit: Unit, lines: set<int>)

  datatype Job = Job(state: string, vendor: string, target: Option<string>, scope: seq<Scope>, subject: Option<Subject>,
                     generation: nat)

  datatype History = History(quarantined: bool, nextAt: Option<int>, failures: nat)

  datatype Queue = Queue(mapped: seq<Claim>, jobs: seq<Job>, families: map<Family, History>,
                         failures: map<string, History>, lineages: map<Path, string>)

  datatype Limits = Limits(files: nat, perFile: nat, total: nat)

  datatype Inputs = Inputs(objects: seq<Row>, queue: Queue, required: Required, evidence: map<int, seq<Path>>,
                           limits: Limits, target: string, at: int)

  datatype Candidate = Candidate(subject: Subject, family: Family, generation: nat, retry: bool, row: int, tier: nat,
                                 score: nat)

  // ----- ownership --------------------------------------------------------------------------------------

  /** Work that may still be under way. */
  predicate Live(job: Job) {
    job.state in {"pending", "reviewing", "launch-unknown", "publication-pending"} || job.vendor in {"live", "unknown"}
  }

  function Get(owned: map<Unit, set<int>>, unit: Unit): set<int> {
    if unit in owned then owned[unit] else {}
  }

  ghost predicate OwnsLine(q: Queue, unit: Unit, line: int) {
    || (exists c <- q.mapped :: c.unit == unit && line in c.lines)
    || (exists j <- q.jobs :: Live(j) && OwnsByJob(j, unit, line))
  }

  ghost predicate OwnsByJob(job: Job, unit: Unit, line: int) {
    exists s <- job.scope :: Unit(job.target, s.path, s.blob) == unit && line in s.lines
  }

  function OwnedByRows(rows: seq<Scope>, target: Option<string>, unit: Unit): set<int> {
    if rows == [] then {}
    else
      var last := rows[|rows| - 1];
      OwnedByRows(rows[..|rows| - 1], target, unit) +
          if Unit(target, last.path, last.blob) == unit then last.lines else {}
  }

  function OwnedByJobs(jobs: seq<Job>, unit: Unit): set<int> {
    if jobs == [] then {}
    else
      var last := jobs[|jobs| - 1];
      OwnedByJobs(jobs[..|jobs| - 1], unit) + if Live(last) then OwnedByRows(last.scope, last.target, unit) else {}
  }

  function OwnedByClaims(claims: seq<Claim>, unit: Unit): set<int> {
    if claims == [] then {}
    else OwnedByClaims(claims[..|claims| - 1], unit) +
         if claims[|claims| - 1].unit == unit then claims[|claims| - 1].lines else {}
  }

  function OwnedLines(q: Queue, unit: Unit): set<int> {
    OwnedByClaims(q.mapped, unit) + OwnedByJobs(q.jobs, unit)
  }

  method Owned(q: Queue) returns (owned: map<Unit, set<int>>)
    ensures forall unit :: Get(owned, unit) == OwnedLines(q, unit)
  {
    hide Live;
    owned := map[];
    for i := 0 to |q.mapped|
      invariant forall unit :: Get(owned, unit) == OwnedByClaims(q.mapped[..i], unit)
    {
      var claim := q.mapped[i];
      assert q.mapped[..i + 1][..i] == q.mapped[..i];
      owned := owned[claim.unit := Get(owned, claim.unit) + claim.lines];
    }
    assert q.mapped[..|q.mapped|] == q.mapped;
    for i := 0 to |q.jobs|
      invariant forall unit :: Get(owned, unit) == OwnedByClaims(q.mapped, unit) + OwnedByJobs(q.jobs[..i], unit)
    {
      var job := q.jobs[i];
      assert q.jobs[..i + 1][..i] == q.jobs[..i];
      if Live(job) {
        ghost var before := owned;
        assert job.scope[..0] == [];
        for k := 0 to |job.scope|
          invariant forall unit :: Get(owned, unit) == Get(before, unit) + OwnedByRows(job.scope[..k], job.target, unit)
        {
          var row := job.scope[k];
          assert job.scope[..k + 1][..k] == job.scope[..k];
          var unit := Unit(job.target, row.path, row.blob);
          owned := owned[unit := Get(owned, unit) + row.lines];
        }
        assert job.scope[..|job.scope|] == job.scope;
      }
    }
    assert q.jobs[..|q.jobs|] == q.jobs;
  }

  /** A line is owned exactly when a mapped claim or a live job's scope holds it. */
  lemma OwnedIff(q: Queue, unit: Unit, line: int)
    ensures line in OwnedLines(q, unit) <==> OwnsLine(q, unit, line)
  {
    ClaimsIff(q.mapped, unit, line);
    JobsIff(q.jobs, unit, line);
  }

  lemma {:induction false} ClaimsIff(claims: seq<Claim>, unit: Unit, line: int)
    ensures line in OwnedByClaims(claims, unit) <==> exists c <- claims :: c.unit == unit && line in c.lines
  {
    if claims != [] {
      assert claims == claims[..|claims| - 1] + [claims[|claims| - 1]];
      ClaimsIff(claims[..|claims| - 1], unit, line);
    }
  }

  lemma {:induction false} RowsIff(rows: seq<Scope>, target: Option<string>, unit: Unit, line: int)
    ensures line in OwnedByRows(rows, target, unit) <==>
              exists s <- rows :: Unit(target, s.path, s.blob) == unit && line in s.lines
  {
    if rows != [] {
      assert rows == rows[..|rows| - 1] + [rows[|rows| - 1]];
      RowsIff(rows[..|rows| - 1], target, unit, line);
    }
  }

  lemma {:induction false} JobsIff(jobs: seq<Job>, unit: Unit, line: int)
    ensures line in OwnedByJobs(jobs, unit) <==> exists j <- jobs :: Live(j) && OwnsByJob(j, unit, line)
  {
    hide Live;
    if jobs != [] {
      var last := jobs[|jobs| - 1];
      assert jobs == jobs[..|jobs| - 1] + [last];
      JobsIff(jobs[..|jobs| - 1], unit, line);
      RowsIff(last.scope, last.target, unit, line);
    }
  }

  // ----- rows and what is left to review ----------------------------------------------------------------

  function Table(objects: seq<Row>): map<Path, Row> {
    if objects == [] then map[]
    else Table(objects[..|objects| - 1])[objects[|objects| - 1].path := objects[|objects| - 1]]
  }

  const NO_ROW := Row("", "", 0, {}, 0, false, 0, 0)

  function RowAt(i: Inputs, path: Path): Row {
    if path in Table(i.objects) then Table(i.objects)[path] else NO_ROW
  }

  function Uncovered(i: Inputs, path: Path): set<int> {
    Intervals.Range(1, RowAt(i, path).lines) - RowAt(i, path).covered
  }

  function Free(i: Inputs, path: Path): set<int> {
    Uncovered(i, path) - OwnedLines(i.queue, Unit(Some(i.target), path, RowAt(i, path).blob))
  }

  function Score(i: Inputs, path: Path): nat {
    |Uncovered(i, path)| * (1 + RowAt(i, path).weight)
  }

  /** The free lines are the uncovered lines of the file that nobody owns. */
  lemma FreeIff(i: Inputs, path: Path, line: int)
    ensures line in Free(i, path) <==>
              && 1 <= line <= RowAt(i, path).lines && line !in RowAt(i, path).covered
              && !OwnsLine(i.queue, Unit(Some(i.target), path, RowAt(i, path).blob), line)
  {
    OwnedIff(i.queue, Unit(Some(i.target), path, RowAt(i, path).blob), line);
  }

  // ----- packing ----------------------------------------------------------------------------------------

  predicate Holding(h: History, at: int) {
    h.quarantined || (h.nextAt.Some? && h.nextAt.value > at)
  }

  function Lineage(i: Inputs, path: Path): string {
    if path in i.queue.lineages then i.queue.lineages[path] else path
  }

  predicate PathHeld(i: Inputs, path: Path) {
    Lineage(i, path) in i.queue.failures && Holding(i.queue.failures[Lineage(i, path)], i.at)
  }

  predicate FamilyHeld(i: Inputs, family: Family) {
    family in i.queue.families && Holding(i.queue.families[family], i.at)
  }

  predicate Wanted(i: Inputs, path: Path) {
    !PathHeld(i, path) && RowAt(i, path).supported && Free(i, path) != {}
  }

  predicate Small(i: Inputs, path: Path) {
    RowAt(i, path).bytes <= i.limits.perFile && RowAt(i, path).bytes <= i.limits.total
  }

  /** A supported path with free lines that is not held and fits a candidate by itself. */
  predicate Fits(i: Inputs, path: Path) {
    Wanted(i, path) && Small(i, path)
  }

  function Bytes(i: Inputs, paths: seq<Path>): nat {
    if paths == [] then 0 else Bytes(i, paths[..|paths| - 1]) + RowAt(i, paths[|paths| - 1]).bytes
  }

  datatype Packing = Packing(groups: seq<seq<Path>>, current: seq<Path>, size: nat)

  function PackTo(i: Inputs, names: seq<Path>, n: nat): Packing
    requires n <= |names|
  {
    if n == 0 then Packing([], [], 0)
    else
      var before, path := PackTo(i, names, n - 1), names[n - 1];
      if !Wanted(i, path) then before
      else
        var bytes := RowAt(i, path).bytes;
        var full := before.current != [] &&
            (|before.current| == i.limits.files || before.size + bytes > i.limits.total);
        var room := if full then Packing(before.groups + [before.current], [], 0) else before;
        if Small(i, path) then room.(current := room.current + [path], size := room.size + bytes) else room
  }

  function Pack(i: Inputs, names: seq<Path>): seq<seq<Path>> {
    var end := PackTo(i, names, |names|);
    if end.current == [] then end.groups else end.groups + [end.current]
  }

  function Fitting(i: Inputs, names: seq<Path>, n: nat): seq<Path>
    requires n <= |names|
  {
    if n == 0 then []
    else if Fits(i, names[n - 1]) then Fitting(i, names, n - 1) + [names[n - 1]] else Fitting(i, names, n - 1)
  }

  ghost predicate Within(i: Inputs, group: seq<Path>) {
    |group| <= i.limits.files && Bytes(i, group) <= i.limits.total && forall path <- group :: Fits(i, path)
  }

  ghost predicate Packed(i: Inputs, p: Packing, placed: seq<Path>) {
    && (forall g <- p.groups :: Within(i, g) && g != []) && Within(i, p.current) && p.size == Bytes(i, p.current)
    && Flatten(p.groups) + p.current == placed
  }

  lemma FlushKeeps(i: Inputs, p: Packing, placed: seq<Path>)
    requires Packed(i, p, placed) && p.current != []
    ensures Packed(i, Packing(p.groups + [p.current], [], 0), placed)
  {
    hide Fits;
    FlattenSnoc(p.groups, p.current);
    assert Flatten(p.groups) + p.current + [] == placed;
  }

  lemma AddKeeps(i: Inputs, p: Packing, placed: seq<Path>, path: Path)
    requires Packed(i, p, placed) && Fits(i, path)
    requires |p.current| < i.limits.files && p.size + RowAt(i, path).bytes <= i.limits.total
    ensures Packed(i, p.(current := p.current + [path], size := p.size + RowAt(i, path).bytes), placed + [path])
  {
    hide Fits, RowAt;
    assert (p.current + [path])[..|p.current|] == p.current;
    assert Flatten(p.groups) + (p.current + [path]) == placed + [path];
  }

  /** Packing puts every fitting path in exactly one group, in order, and each group within the limits. */
  lemma {:induction false} PackingIsExact(i: Inputs, names: seq<Path>, n: nat)
    requires n <= |names| && i.limits.files >= 1
    ensures Packed(i, PackTo(i, names, n), Fitting(i, names, n))
  {
    if n > 0 {
      PackingIsExact(i, names, n - 1);
      var before, path, placed := PackTo(i, names, n - 1), names[n - 1], Fitting(i, names, n - 1);
      hide Wanted, Small, Packed, Fitting, RowAt;
      FittingStep(i, names, n);
      if Wanted(i, path) {
        var bytes := RowAt(i, path).bytes;
        var full := before.current != [] &&
            (|before.current| == i.limits.files || before.size + bytes > i.limits.total);
        var room := if full then Packing(before.groups + [before.current], [], 0) else before;
        if full {
          FlushKeeps(i, before, placed);
        }
        RoomIsLeft(i, room, placed);
        SmallFits(i, path);
        if Small(i, path) {
          AddKeeps(i, room, placed, path);
        }
      }
    }
  }

  lemma FittingStep(i: Inputs, names: seq<Path>, n: nat)
    requires 0 < n <= |names|
    ensures Fitting(i, names, n) == Fitting(i, names, n - 1) + if Fits(i, names[n - 1]) then [names[n - 1]] else []
  {
  }

  lemma RoomIsLeft(i: Inputs, p: Packing, placed: seq<Path>)
    requires Packed(i, p, placed)
    ensures |p.current| <= i.limits.files && (p.current == [] ==> p.size == 0)
  {
  }

  lemma SmallFits(i: Inputs, path: Path)
    ensures Small(i, path) ==> RowAt(i, path).bytes <= i.limits.total
  {
  }

  // ----- candidates -------------------------------------------------------------------------------------

  function TextLe(a: string, b: string): bool { !Less(b, a) }

  function ScopeOf(i: Inputs, group: seq<Path>): seq<Scope> {
    seq(|group|, k requires 0 <= k < |group| => Scope(group[k], RowAt(i, group[k]).blob, Free(i, group[k])))
  }

  /** One above every generation the subject was queued with. */
  function NextGeneration(jobs: seq<Job>, subject: Subject): nat {
    if jobs == [] then 0
    else
      var before, last := NextGeneration(jobs[..|jobs| - 1], subject), jobs[|jobs| - 1];
      if last.subject == Some(subject) && last.generation >= before then last.generation + 1 else before
  }

  function LeastTier(i: Inputs, group: seq<Path>): nat {
    if group == [] then 0
    else
      var last := RowAt(i, group[|group| - 1]).tier;
      if |group| == 1 then last
      else
        var before := LeastTier(i, group[..|group| - 1]);
        if before < last then before else last
  }

  function TotalScore(i: Inputs, group: seq<Path>): nat {
    if group == [] then 0 else TotalScore(i, group[..|group| - 1]) + Score(i, group[|group| - 1])
  }

  predicate Retried(i: Inputs, family: Family, subject: Subject, group: seq<Path>) {
    || (family in i.queue.families && i.queue.families[family].failures > 0)
    || (exists j <- i.queue.jobs :: j.subject == Some(subject))
    || (exists path <- group :: Lineage(i, path) in i.queue.failures && i.queue.failures[Lineage(i, path)].failures > 0)
  }

  function MakeCandidate(i: Inputs, family: Family, row: int, group: seq<Path>, partition: nat): Candidate {
    var subject := Subject(family.kind, family.prs, Sort(group, TextLe), i.target, ScopeOf(i, group), partition);
    Candidate(subject, family, NextGeneration(i.queue.jobs, subject), Retried(i, family, subject, group), row,
              LeastTier(i, group), TotalScore(i, group))
  }

  function FamilyOf(kind: Kind, prs: seq<int>, names: seq<Path>): Family {
    Family(kind, prs, if kind.B? then Sort(names, TextLe) else [])
  }

  function CandidatesOf(i: Inputs, kind: Kind, prs: seq<int>, row: int, names: seq<Path>): seq<Candidate> {
    var family := FamilyOf(kind, prs, names);
    if FamilyHeld(i, family) then []
    else
      var groups := Pack(i, names);
      seq(|groups|, k requires 0 <= k < |groups| => MakeCandidate(i, family, row, groups[k], k))
  }

  function PathLe(i: Inputs): (Path, Path) -> bool {
    (a: Path, b: Path) => RowAt(i, a).tier < RowAt(i, b).tier || (RowAt(i, a).tier == RowAt(i, b).tier && TextLe(a, b))
  }

  /** The paths the retained evidence of these pull requests names. */
  function Evidence(i: Inputs, prs: seq<int>): seq<Path> {
    if prs == [] then []
    else
      var pr := prs[|prs| - 1];
      Evidence(i, prs[..|prs| - 1]) + if pr in i.evidence then i.evidence[pr] else []
  }

  function Known(i: Inputs, paths: seq<Path>): seq<Path> {
    if paths == [] then []
    else
      var last := paths[|paths| - 1];
      Known(i, paths[..|paths| - 1]) + if last in Table(i.objects) then [last] else []
  }

  function NamesOf(i: Inputs, g: Group): seq<Path> {
    Sort(Unique(Known(i, Evidence(i, g.prs))), PathLe(i))
  }

  function Untaken(names: seq<Path>, taken: set<Path>): seq<Path> {
    if names == [] then []
    else Untaken(names[..|names| - 1], taken) + if names[|names| - 1] in taken then [] else [names[|names| - 1]]
  }

  /** What the first n groups name, held or not. */
  function Claimed(i: Inputs, groups: seq<Group>, n: nat): set<Path>
    requires n <= |groups|
  {
    if n == 0 then {} else Claimed(i, groups, n - 1) + Elements(NamesOf(i, groups[n - 1]))
  }

  function Available(i: Inputs, groups: seq<Group>, k: nat): seq<Path>
    requires k < |groups|
  {
    Untaken(NamesOf(i, groups[k]), Claimed(i, groups, k))
  }

  function RequiredTo(i: Inputs, groups: seq<Group>, n: nat): seq<Candidate>
    requires n <= |groups|
  {
    if n == 0 then []
    else
      RequiredTo(i, groups, n - 1) +
      CandidatesOf(i, A, groups[n - 1].prs, groups[n - 1].row, Available(i, groups, n - 1))
  }

  // ----- clusters ---------------------------------------------------------------------------------------

  datatype Cluster = Cluster(directory: string, tier: nat)

  /** The text before the last slash. */
  function Directory(path: Path): string {
    if path == "" then "" else if path[|path| - 1] == '/' then path[..|path| - 1] else Directory(path[..|path| - 1])
  }

  function ClusterOf(i: Inputs, path: Path): Cluster {
    Cluster(Directory(path), RowAt(i, path).tier)
  }

  function ClusterLe(a: Cluster, b: Cluster): bool {
    Less(a.directory, b.directory) || (a.directory == b.directory && a.tier <= b.tier)
  }

  function ScoreLe(i: Inputs): (Path, Path) -> bool {
    (a: Path, b: Path) => Score(i, a) > Score(i, b) || (Score(i, a) == Score(i, b) && TextLe(a, b))
  }

  function Paths(objects: seq<Row>): seq<Path> {
    seq(|objects|, k requires 0 <= k < |objects| => objects[k].path)
  }

  predicate Loose(i: Inputs, taken: set<Path>, path: Path) {
    path !in taken && Free(i, path) != {}
  }

  /** Of these paths, those no required group names and which have a free line. */
  function LooseOnes(i: Inputs, taken: set<Path>, paths: seq<Path>): seq<Path> {
    if paths == [] then []
    else LooseOnes(i, taken, paths[..|paths| - 1]) +
         if Loose(i, taken, paths[|paths| - 1]) then [paths[|paths| - 1]] else []
  }

  function InCluster(i: Inputs, c: Cluster, paths: seq<Path>): seq<Path> {
    if paths == [] then []
    else InCluster(i, c, paths[..|paths| - 1]) +
         if ClusterOf(i, paths[|paths| - 1]) == c then [paths[|paths| - 1]] else []
  }

  function ClusterKeys(i: Inputs, loose: seq<Path>): seq<Cluster> {
    Sort(Unique(seq(|loose|, k requires 0 <= k < |loose| => ClusterOf(i, loose[k]))), ClusterLe)
  }

  function ClusterNames(i: Inputs, loose: seq<Path>, c: Cluster): seq<Path> {
    Sort(InCluster(i, c, loose), ScoreLe(i))
  }

  function ClustersTo(i: Inputs, loose: seq<Path>, keys: seq<Cluster>, n: nat): seq<Candidate>
    requires n <= |keys|
  {
    if n == 0 then []
    else ClustersTo(i, loose, keys, n - 1) + CandidatesOf(i, B, [], 0, ClusterNames(i, loose, keys[n - 1]))
  }

  /** By importance, fresh before retried, required before clusters, then by row or by score; ties by digest. */
  predicate Precedes(order: Subject -> int, a: Candidate, b: Candidate) {
    var rankA: int := if a.family.kind.A? then a.row else -(a.score as int);
    var rankB: int := if b.family.kind.A? then b.row else -(b.score as int);
    a.tier < b.tier || (a.tier == b.tier &&
    ((!a.retry && b.retry) || (a.retry == b.retry &&
    ((a.family.kind.A? && b.family.kind.B?) || (a.family.kind == b.family.kind &&
    (rankA < rankB || (rankA == rankB && order(a.subject) <= order(b.subject))))))))
  }

  function CandidateLe(order: Subject -> int): (Candidate, Candidate) -> bool {
    (a: Candidate, b: Candidate) => Precedes(order, a, b)
  }

  function LoosePaths(i: Inputs, groups: seq<Group>): seq<Path> {
    LooseOnes(i, Claimed(i, groups, |groups|), Unique(Paths(i.objects)))
  }

  function Unsorted(i: Inputs, groups: seq<Group>): seq<Candidate> {
    var loose := LoosePaths(i, groups);
    var keys := ClusterKeys(i, loose);
    RequiredTo(i, groups, |groups|) + ClustersTo(i, loose, keys, |keys|)
  }

  function Ranking(i: Inputs, order: Subject -> int): Result<seq<Candidate>, Refusal> {
    var groups := Groups(i.required);
    if groups.Err? then Err(groups.error) else Ok(Sort(Unsorted(i, groups.value), CandidateLe(order)))
  }

  // ----- the loops of the source ------------------------------------------------------------------------

  method Partitions(i: Inputs, kind: Kind, prs: seq<int>, row: int, names: seq<Path>) returns (more: seq<Candidate>)
    ensures more == CandidatesOf(i, kind, prs, row, names)
  {
    hide PackTo, MakeCandidate, Wanted, Small, FamilyOf, FamilyHeld;
    var family := FamilyOf(kind, prs, names);
    if FamilyHeld(i, family) {
      return [];
    }
    var current, size: nat, groups := [], 0, [];
    PackingStarts(i, names);
    for n := 0 to |names|
      invariant PackTo(i, names, n) == Packing(groups, current, size)
    {
      var name := names[n];
      PackingStep(i, names, n);
      if Wanted(i, name) {
        var bytes := RowAt(i, name).bytes;
        if current != [] && (|current| == i.limits.files || size + bytes > i.limits.total) {
          groups, current, size := groups + [current], [], 0;
        }
        if Small(i, name) {
          current, size := current + [name], size + bytes;
        }
      }
    }
    if current != [] {
      groups := groups + [current];
    }
    assert groups == Pack(i, names);
    more := [];
    for k := 0 to |groups|
      invariant |more| == k && forall j :: 0 <= j < k ==> more[j] == MakeCandidate(i, family, row, groups[j], j)
    {
      more := more + [MakeCandidate(i, family, row, groups[k], k)];
    }
  }

  lemma PackingStarts(i: Inputs, names: seq<Path>)
    ensures PackTo(i, names, 0) == Packing([], [], 0)
  {
  }

  lemma PackingStep(i: Inputs, names: seq<Path>, n: nat)
    requires n < |names|
    ensures PackTo(i, names, n + 1) ==
            var before, path := PackTo(i, names, n), names[n];
            if !Wanted(i, path) then before
            else
              var bytes := RowAt(i, path).bytes;
              var full := before.current != [] &&
                  (|before.current| == i.limits.files || before.size + bytes > i.limits.total);
              var room := if full then Packing(before.groups + [before.current], [], 0) else before;
              if Small(i, path) then room.(current := room.current + [path], size := room.size + bytes) else room
  {
    hide Wanted, Small;
  }

  method RankRequired(i: Inputs, groups: seq<Group>) returns (candidates: seq<Candidate>, taken: set<Path>)
    ensures candidates == RequiredTo(i, groups, |groups|) && taken == Claimed(i, groups, |groups|)
  {
    hide CandidatesOf, NamesOf;
    candidates, taken := [], {};
    for n := 0 to |groups|
      invariant candidates == RequiredTo(i, groups, n) && taken == Claimed(i, groups, n)
    {
      var names := NamesOf(i, groups[n]);
      var more := Partitions(i, A, groups[n].prs, groups[n].row, Untaken(names, taken));
      candidates, taken := candidates + more, taken + Elements(names);
    }
  }

  function At(clusters: map<Cluster, seq<Path>>, c: Cluster): seq<Path> {
    if c in clusters then clusters[c] else []
  }

  method GatherClusters(i: Inputs, taken: set<Path>) returns (clusters: map<Cluster, seq<Path>>, kinds: seq<Cluster>)
    ensures var loose := LooseOnes(i, taken, Unique(Paths(i.objects)));
            && kinds == seq(|loose|, k requires 0 <= k < |loose| => ClusterOf(i, loose[k]))
            && forall c :: At(clusters, c) == InCluster(i, c, loose)
  {
    hide Unique, Loose, LooseOnes, InCluster, ClusterOf;
    var paths := Unique(Paths(i.objects));
    ghost var loose := [];
    clusters, kinds := map[], [];
    GatherStarts(i, taken, paths);
    for n := 0 to |paths|
      invariant loose == LooseOnes(i, taken, paths[..n])
      invariant |kinds| == |loose| && forall k :: 0 <= k < |loose| ==> kinds[k] == ClusterOf(i, loose[k])
      invariant forall c :: At(clusters, c) == InCluster(i, c, loose)
    {
      var path := paths[n];
      LooseStep(i, taken, paths, n);
      if Loose(i, taken, path) {
        var c := ClusterOf(i, path);
        ClusterStep(i, clusters, loose, path);
        clusters := clusters[c := At(clusters, c) + [path]];
        loose, kinds := loose + [path], kinds + [c];
      }
    }
    assert paths[..|paths|] == paths;
  }

  lemma GatherStarts(i: Inputs, taken: set<Path>, paths: seq<Path>)
    ensures LooseOnes(i, taken, paths[..0]) == []
    ensures forall c :: InCluster(i, c, []) == []
  {
  }

  lemma LooseStep(i: Inputs, taken: set<Path>, paths: seq<Path>, n: nat)
    requires n < |paths|
    ensures LooseOnes(i, taken, paths[..n + 1]) == LooseOnes(i, taken, paths[..n]) +
        if Loose(i, taken, paths[n]) then [paths[n]] else []
  {
    hide Loose;
    assert paths[..n + 1][..n] == paths[..n];
  }

  lemma ClusterStep(i: Inputs, clusters: map<Cluster, seq<Path>>, loose: seq<Path>, path: Path)
    requires forall c :: At(clusters, c) == InCluster(i, c, loose)
    ensures var c := ClusterOf(i, path);
            forall d :: At(clusters[c := At(clusters, c) + [path]], d) == InCluster(i, d, loose + [path])
  {
    hide ClusterOf;
    assert (loose + [path])[..|loose|] == loose;
  }

  method Rank(i: Inputs, order: Subject -> int) returns (r: Result<seq<Candidate>, Refusal>)
    ensures r == Ranking(i, order)
  {
    hide Groups, CandidatesOf, RequiredTo, Claimed, LooseOnes, InCluster, ClusterOf, Sort, CandidateLe, ScoreLe;
    var required := GroupRequired(i.required);
    if required.Err? {
      return Err(required.error);
    }
    var candidates, taken := RankRequired(i, required.value);
    var clusters, kinds := GatherClusters(i, taken);
    ghost var first, loose := candidates, LoosePaths(i, required.value);
    var keys := Sort(Unique(kinds), ClusterLe);
    assert keys == ClusterKeys(i, loose);
    assert first + [] == first;
    for n := 0 to |keys|
      invariant candidates == first + ClustersTo(i, loose, keys, n)
    {
      var names := Sort(At(clusters, keys[n]), ScoreLe(i));
      NamesOfCluster(i, loose, keys[n]);
      var more := Partitions(i, B, [], 0, names);
      candidates := candidates + more;
    }
    r := Ok(Sort(candidates, CandidateLe(order)));
  }

  lemma NamesOfCluster(i: Inputs, loose: seq<Path>, c: Cluster)
    ensures ClusterNames(i, loose, c) == Sort(InCluster(i, c, loose), ScoreLe(i))
  {
  }

  // ----- what a ranking promises ------------------------------------------------------------------------

  function ScopePaths(c: Candidate): seq<Path> {
    seq(|c.subject.scope|, k requires 0 <= k < |c.subject.scope| => c.subject.scope[k].path)
  }

  predicate Holds(c: Candidate, path: Path) {
    path in ScopePaths(c)
  }

  ghost predicate Has(candidates: seq<Candidate>, path: Path) {
    exists c <- candidates :: Holds(c, path)
  }

  ghost predicate Clash(a: Candidate, b: Candidate) {
    exists path :: Holds(a, path) && Holds(b, path)
  }

  /** Within the limits, no path twice, each row exactly its free lines, and a generation no queued job had. */
  ghost predicate CandidateOk(i: Inputs, c: Candidate) {
    && c.subject.scope != [] && Distinct(ScopePaths(c)) && Within(i, ScopePaths(c))
    && c.subject.scope == ScopeOf(i, ScopePaths(c)) && c.subject.kind == c.family.kind
    && (forall j <- i.queue.jobs :: j.subject == Some(c.subject) ==> j.generation < c.generation)
  }

  ghost predicate AllOk(i: Inputs, candidates: seq<Candidate>, kind: Kind) {
    forall c <- candidates :: CandidateOk(i, c) && c.family.kind == kind
  }

  lemma {:induction false} FittingIs(i: Inputs, names: seq<Path>, n: nat)
    requires n <= |names| && Distinct(names)
    ensures Distinct(Fitting(i, names, n))
    ensures forall path :: path in Fitting(i, names, n) <==> path in names[..n] && Fits(i, path)
  {
    hide Fits;
    if n > 0 {
      FittingIs(i, names, n - 1);
      assert names[..n] == names[..n - 1] + [names[n - 1]];
    }
  }

  predicate Shares(a: seq<Path>, b: seq<Path>) {
    exists path <- a :: path in b
  }

  lemma {:induction false} FlattenMembers(groups: seq<seq<Path>>)
    ensures forall path :: path in Flatten(groups) <==> exists g <- groups :: path in g
  {
    if groups != [] {
      assert groups == groups[..|groups| - 1] + [groups[|groups| - 1]];
      FlattenMembers(groups[..|groups| - 1]);
    }
  }

  lemma {:induction false} FlattenApart(groups: seq<seq<Path>>)
    requires Distinct(Flatten(groups))
    ensures Apart(groups, Shares) && forall g <- groups :: Distinct(g)
  {
    if groups != [] {
      var front, last := groups[..|groups| - 1], groups[|groups| - 1];
      assert forall k :: 0 <= k < |Flatten(front)| ==> Flatten(groups)[k] == Flatten(front)[k];
      assert forall k :: 0 <= k < |last| ==> Flatten(groups)[|Flatten(front)| + k] == last[k];
      assert Distinct(Flatten(front)) && Distinct(last);
      FlattenApart(front);
      FlattenMembers(front);
      assert forall path <- Flatten(front) :: path !in last;
      forall k | 0 <= k < |front| ensures !Shares(front[k], last) && !Shares(last, front[k]) {
        assert forall path <- front[k] :: path in Flatten(front);
      }
    }
  }

  lemma PackIsExact(i: Inputs, names: seq<Path>)
    requires i.limits.files >= 1
    ensures Flatten(Pack(i, names)) == Fitting(i, names, |names|)
    ensures forall g <- Pack(i, names) :: Within(i, g) && g != []
  {
    hide PackTo, Within;
    PackingIsExact(i, names, |names|);
    var end := PackTo(i, names, |names|);
    FlattenSnoc(end.groups, end.current);
    if end.current == [] {
      assert Flatten(end.groups) + [] == Flatten(end.groups);
    }
  }

  lemma {:induction false} NextGenerationIsNew(jobs: seq<Job>, subject: Subject)
    ensures forall j <- jobs :: j.subject == Some(subject) ==> j.generation < NextGeneration(jobs, subject)
  {
    if jobs != [] {
      assert jobs == jobs[..|jobs| - 1] + [jobs[|jobs| - 1]];
      NextGenerationIsNew(jobs[..|jobs| - 1], subject);
    }
  }

  lemma MakeIsOk(i: Inputs, family: Family, row: int, group: seq<Path>, partition: nat)
    requires group != [] && Distinct(group) && Within(i, group)
    ensures var c := MakeCandidate(i, family, row, group, partition);
            CandidateOk(i, c) && ScopePaths(c) == group && c.family == family
  {
    hide Within, Free;
    var c := MakeCandidate(i, family, row, group, partition);
    assert ScopePaths(c) == group;
    NextGenerationIsNew(i.queue.jobs, c.subject);
  }

  lemma CandidatesAreOk(i: Inputs, kind: Kind, prs: seq<int>, row: int, names: seq<Path>)
    requires i.limits.files >= 1 && Distinct(names)
    ensures var cs := CandidatesOf(i, kind, prs, row, names);
            && AllOk(i, cs, kind) && Apart(cs, Clash)
            && forall path :: Has(cs, path) <==>
                 !FamilyHeld(i, FamilyOf(kind, prs, names)) && path in names && Fits(i, path)
  {
    hide Fits, Fitting, Pack, Within, FamilyHeld, MakeCandidate, CandidateOk, ScopePaths;
    var family, groups, cs := FamilyOf(kind, prs, names), Pack(i, names), CandidatesOf(i, kind, prs, row, names);
    if !FamilyHeld(i, family) {
      PackIsExact(i, names);
      FittingIs(i, names, |names|);
      assert names[..|names|] == names;
      FlattenApart(groups);
      FlattenMembers(groups);
      forall k | 0 <= k < |groups|
        ensures CandidateOk(i, cs[k]) && ScopePaths(cs[k]) == groups[k] && cs[k].family == family
      {
        assert groups[k] in groups;
        MakeIsOk(i, family, row, groups[k], k);
      }
      forall a, b | 0 <= a < b < |cs| ensures !Clash(cs[a], cs[b]) && !Clash(cs[b], cs[a]) {
        assert !Shares(groups[a], groups[b]);
      }
      forall path ensures Has(cs, path) <==> path in names && Fits(i, path) {
        PlacedInGroups(i, groups, cs, path);
      }
    }
  }

  lemma PlacedInGroups(i: Inputs, groups: seq<seq<Path>>, cs: seq<Candidate>, path: Path)
    requires |cs| == |groups| && forall k :: 0 <= k < |cs| ==> ScopePaths(cs[k]) == groups[k]
    ensures Has(cs, path) <==> exists g <- groups :: path in g
  {
    hide ScopePaths;
    if Has(cs, path) {
      var c :| c in cs && Holds(c, path);
      var k :| 0 <= k < |cs| && cs[k] == c;
      assert path in groups[k] && groups[k] in groups;
    }
    if g :| g in groups && path in g {
      var k :| 0 <= k < |groups| && groups[k] == g;
      assert Holds(cs[k], path) && cs[k] in cs;
    }
  }

  lemma {:induction false} UntakenIs(names: seq<Path>, taken: set<Path>)
    ensures forall path :: path in Untaken(names, taken) <==> path in names && path !in taken
    ensures Distinct(names) ==> Distinct(Untaken(names, taken))
  {
    if names != [] {
      assert names == names[..|names| - 1] + [names[|names| - 1]];
      UntakenIs(names[..|names| - 1], taken);
    }
  }

  lemma NamesOnce(i: Inputs, g: Group)
    ensures Distinct(NamesOf(i, g))
  {
    var names := Unique(Known(i, Evidence(i, g.prs)));
    UniqueOnce(Known(i, Evidence(i, g.prs)));
    SortKeeps(names, PathLe(i));
    PermutationDistinct(names, NamesOf(i, g));
  }

  lemma HasJoin(a: seq<Candidate>, b: seq<Candidate>, path: Path)
    ensures Has(a + b, path) <==> Has(a, path) || Has(b, path)
  {
    hide Holds;
    if Has(a, path) {
      var c :| c in a && Holds(c, path);
      assert c in a + b;
    }
    if Has(b, path) {
      var c :| c in b && Holds(c, path);
      assert c in a + b;
    }
  }

  lemma ApartJoin(a: seq<Candidate>, b: seq<Candidate>)
    requires Apart(a, Clash) && Apart(b, Clash) && forall path :: !(Has(a, path) && Has(b, path))
    ensures Apart(a + b, Clash)
  {
    hide Holds;
    forall x, y | 0 <= x < |a| && 0 <= y < |b| ensures !Clash(a[x], b[y]) && !Clash(b[y], a[x]) {
      forall path ensures !(Holds(a[x], path) && Holds(b[y], path)) {
        assert !(Has(a, path) && Has(b, path));
        assert a[x] in a && b[y] in b;
      }
    }
  }

  /** Where the required groups place a path: with the first group that names it, unless that group's family is held. */
  ghost predicate PlacedRequired(i: Inputs, groups: seq<Group>, n: nat, path: Path)
    requires n <= |groups|
  {
    exists k ::
      && 0 <= k < n && path in Available(i, groups, k)
      && !FamilyHeld(i, FamilyOf(A, groups[k].prs, Available(i, groups, k)))
  }

  lemma {:induction false} RequiredPlaces(i: Inputs, groups: seq<Group>, n: nat)
    requires n <= |groups| && i.limits.files >= 1
    ensures var cs := RequiredTo(i, groups, n);
            && AllOk(i, cs, A) && Apart(cs, Clash)
            && (forall path :: Has(cs, path) <==> Fits(i, path) && PlacedRequired(i, groups, n, path))
            && (forall path :: Has(cs, path) ==> path in Claimed(i, groups, n))
  {
    hide Fits, CandidatesOf, CandidateOk, FamilyHeld, FamilyOf, NamesOf;
    if n > 0 {
      RequiredPlaces(i, groups, n - 1);
      var before, names := RequiredTo(i, groups, n - 1), Available(i, groups, n - 1);
      var more := CandidatesOf(i, A, groups[n - 1].prs, groups[n - 1].row, names);
      NamesOnce(i, groups[n - 1]);
      UntakenIs(NamesOf(i, groups[n - 1]), Claimed(i, groups, n - 1));
      CandidatesAreOk(i, A, groups[n - 1].prs, groups[n - 1].row, names);
      ApartJoin(before, more);
      forall path ensures Has(before + more, path) <==> Has(before, path) || Has(more, path) {
        HasJoin(before, more, path);
      }
      forall path ensures PlacedRequired(i, groups, n, path) <==>
                          PlacedRequired(i, groups, n - 1, path) ||
                              (path in names && !FamilyHeld(i, FamilyOf(A, groups[n - 1].prs, names))) {
        PlacedStep(i, groups, n, path);
      }
    }
  }

  lemma PlacedStep(i: Inputs, groups: seq<Group>, n: nat, path: Path)
    requires 0 < n <= |groups|
    ensures PlacedRequired(i, groups, n, path) <==>
            || PlacedRequired(i, groups, n - 1, path)
            || (path in Available(i, groups, n - 1) &&
                !FamilyHeld(i, FamilyOf(A, groups[n - 1].prs, Available(i, groups, n - 1))))
  {
    hide Available, FamilyHeld, FamilyOf;
  }

  lemma {:induction false} LooseIs(i: Inputs, taken: set<Path>, paths: seq<Path>)
    ensures forall path :: path in LooseOnes(i, taken, paths) <==> path in paths && Loose(i, taken, path)
    ensures Distinct(paths) ==> Distinct(LooseOnes(i, taken, paths))
  {
    hide Loose;
    if paths != [] {
      assert paths == paths[..|paths| - 1] + [paths[|paths| - 1]];
      LooseIs(i, taken, paths[..|paths| - 1]);
    }
  }

  lemma {:induction false} InClusterIs(i: Inputs, c: Cluster, paths: seq<Path>)
    ensures forall path :: path in InCluster(i, c, paths) <==> path in paths && ClusterOf(i, path) == c
    ensures Distinct(paths) ==> Distinct(InCluster(i, c, paths))
  {
    hide ClusterOf;
    if paths != [] {
      assert paths == paths[..|paths| - 1] + [paths[|paths| - 1]];
      InClusterIs(i, c, paths[..|paths| - 1]);
    }
  }

  lemma ClusterNamesAre(i: Inputs, loose: seq<Path>, c: Cluster)
    requires Distinct(loose)
    ensures Distinct(ClusterNames(i, loose, c))
    ensures forall path :: path in ClusterNames(i, loose, c) <==> path in loose && ClusterOf(i, path) == c
  {
    hide ClusterOf;
    InClusterIs(i, c, loose);
    SortKeeps(InCluster(i, c, loose), ScoreLe(i));
    PermutationDistinct(InCluster(i, c, loose), ClusterNames(i, loose, c));
  }

  lemma ClusterKeysAre(i: Inputs, loose: seq<Path>)
    ensures Distinct(ClusterKeys(i, loose)) && forall path <- loose :: ClusterOf(i, path) in ClusterKeys(i, loose)
  {
    hide ClusterOf, ClusterLe;
    var kinds := seq(|loose|, k requires 0 <= k < |loose| => ClusterOf(i, loose[k]));
    UniqueOnce(kinds);
    SortKeeps(Unique(kinds), ClusterLe);
    PermutationDistinct(Unique(kinds), ClusterKeys(i, loose));
    forall path | path in loose ensures ClusterOf(i, path) in ClusterKeys(i, loose) {
      var k :| 0 <= k < |loose| && loose[k] == path;
      assert kinds[k] in kinds;
    }
  }

  ghost predicate PlacedLoose(i: Inputs, loose: seq<Path>, path: Path) {
    path in loose && !FamilyHeld(i, FamilyOf(B, [], ClusterNames(i, loose, ClusterOf(i, path))))
  }

  lemma {:induction false} ClustersPlace(i: Inputs, loose: seq<Path>, keys: seq<Cluster>, n: nat)
    requires n <= |keys| && Distinct(keys) && Distinct(loose) && i.limits.files >= 1
    ensures var cs := ClustersTo(i, loose, keys, n);
            && AllOk(i, cs, B) && Apart(cs, Clash)
            && (forall path :: Has(cs, path) <==>
                Fits(i, path) && PlacedLoose(i, loose, path) && ClusterOf(i, path) in keys[..n])
  {
    hide Fits, CandidatesOf, CandidateOk, FamilyHeld, FamilyOf, ClusterNames, ClusterOf;
    if n > 0 {
      ClustersPlace(i, loose, keys, n - 1);
      var key := keys[n - 1];
      var before, names := ClustersTo(i, loose, keys, n - 1), ClusterNames(i, loose, key);
      var more := CandidatesOf(i, B, [], 0, names);
      assert keys[..n] == keys[..n - 1] + [key] && key !in keys[..n - 1];
      ClusterNamesAre(i, loose, key);
      CandidatesAreOk(i, B, [], 0, names);
      ApartJoin(before, more);
      forall path ensures Has(before + more, path) <==> Has(before, path) || Has(more, path) {
        HasJoin(before, more, path);
      }
    }
  }

  /** A path that reaches a candidate: it fits, and the one family it belongs to is not held. */
  ghost predicate Placeable(i: Inputs, groups: seq<Group>, path: Path) {
    Fits(i, path) && (PlacedRequired(i, groups, |groups|, path) || PlacedLoose(i, LoosePaths(i, groups), path))
  }

  /** A path some required group names never counts as loose. */
  lemma {:induction false} NamedIsClaimed(i: Inputs, groups: seq<Group>, n: nat, k: nat, path: Path)
    requires k < n <= |groups| && path in NamesOf(i, groups[k])
    ensures path in Claimed(i, groups, n)
  {
    hide NamesOf;
    if k < n - 1 {
      NamedIsClaimed(i, groups, n - 1, k, path);
    }
  }

  ghost predicate Named(i: Inputs, groups: seq<Group>, path: Path) {
    exists k :: 0 <= k < |groups| && path in NamesOf(i, groups[k])
  }

  /**
   Whatever the inputs: no path is in two candidates; a path is in one exactly when it is supported, has free
   lines, fits and is not held; every candidate keeps the limits and takes exactly the free lines of its
   paths; and what a required pull request names never reaches a cluster candidate.
   */
  lemma RankingIsSound(i: Inputs, order: Subject -> int)
    requires Ranking(i, order).Ok? && i.limits.files >= 1
    ensures var cs, groups := Ranking(i, order).value, Groups(i.required).value;
            && Apart(cs, Clash) && (forall c <- cs :: CandidateOk(i, c))
            && (forall path :: Has(cs, path) <==> Placeable(i, groups, path))
            && (forall c, path :: c in cs && c.family.kind.B? && Holds(c, path) ==> !Named(i, groups, path))
  {
    hide Fits, CandidateOk, FamilyHeld, FamilyOf, ClusterNames, ClusterOf, RequiredTo, ClustersTo, Groups, Sort,
      CandidateLe, Holds, PlacedRequired, NamesOf, ClusterKeys, Loose, Unique;
    var groups := Groups(i.required).value;
    var loose := LoosePaths(i, groups);
    var keys := ClusterKeys(i, loose);
    var a, b := RequiredTo(i, groups, |groups|), ClustersTo(i, loose, keys, |keys|);
    RequiredPlaces(i, groups, |groups|);
    UniqueOnce(Paths(i.objects));
    LooseIs(i, Claimed(i, groups, |groups|), Unique(Paths(i.objects)));
    ClusterKeysAre(i, loose);
    ClustersPlace(i, loose, keys, |keys|);
    assert keys[..|keys|] == keys;
    LooseUnclaimed(i, groups);
    ApartJoin(a, b);
    var cs := Sort(a + b, CandidateLe(order));
    SortKeeps(a + b, CandidateLe(order));
    SortKeepsApart(a + b, CandidateLe(order), Clash);
    forall path ensures Has(cs, path) <==> Placeable(i, groups, path) {
      HasSorted(a + b, cs, path);
      HasJoin(a, b, path);
    }
    forall c, path | c in cs && c.family.kind.B? && Holds(c, path) ensures !Named(i, groups, path) {
      assert c in a + b && c in b;
      assert Has(b, path);
      LooseUnnamed(i, groups, path);
    }
  }

  lemma HasSorted(a: seq<Candidate>, b: seq<Candidate>, path: Path)
    requires forall c :: c in b <==> c in a
    ensures Has(b, path) <==> Has(a, path)
  {
  }

  lemma LooseUnclaimed(i: Inputs, groups: seq<Group>)
    ensures forall path <- LoosePaths(i, groups) :: path !in Claimed(i, groups, |groups|)
  {
    hide Claimed, Free, Unique;
    LooseIs(i, Claimed(i, groups, |groups|), Unique(Paths(i.objects)));
  }

  lemma LooseUnnamed(i: Inputs, groups: seq<Group>, path: Path)
    requires path in LoosePaths(i, groups)
    ensures !Named(i, groups, path)
  {
    hide LoosePaths, NamesOf, Claimed;
    LooseUnclaimed(i, groups);
    forall k | 0 <= k < |groups| ensures path !in NamesOf(i, groups[k]) {
      if path in NamesOf(i, groups[k]) {
        NamedIsClaimed(i, groups, |groups|, k, path);
      }
    }
  }

  /** The candidates stand in the order they will be taken. */
  lemma RankingIsOrdered(i: Inputs, order: Subject -> int)
    requires Ranking(i, order).Ok?
    ensures Ordered(Ranking(i, order).value, CandidateLe(order))
  {
    hide Unsorted, Groups;
    OrderIsTotal(order);
    SortOrders(Unsorted(i, Groups(i.required).value), CandidateLe(order));
  }

  lemma OrderIsTotal(order: Subject -> int)
    ensures TotalPreorder(CandidateLe(order))
  {
    var le := CandidateLe(order);
    forall a, b ensures le(a, b) || le(b, a) {
      assert Precedes(order, a, b) || Precedes(order, b, a);
    }
    forall a, b, c | le(a, b) && le(b, c) ensures le(a, c) {
      assert Precedes(order, a, b) && Precedes(order, b, c);
    }
  }
}
