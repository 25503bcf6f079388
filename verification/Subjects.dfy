/**
 Construction of bounded review subjects: the requested paths of a candidate are cut into partitions small
 enough to review, recursively; what cannot be put up for review is recorded as debt.
 */
module Subjects {
  import opened Prelude
  import opened Sorting

  type Path = string

  datatype Object = Object(blob: string, bytes: nat, included: bool, tier: nat)

  /** One row of a candidate's scope; intervals as the lines they cover. */
  datatype Row = Row(path: Path, blob: string, lines: set<int>)

  datatype Limits = Limits(files: nat, total: nat, diff: Option<nat>)

  /** What Git shows for the paths pinned together: from the real baseline, or (residual) as whole added files. */
  datatype Diff = Diff(bytes: nat, changed: map<Path, set<int>>)

  datatype Task = Task(subject: string, scope: seq<Row>, objects: map<Path, Object>, limits: Limits,
                       defaultTier: nat, diff: (seq<Path>, bool) -> Diff)

  datatype Reason = Unavailable | FileTooLarge | DiffTooLarge | NotExposed
  datatype Debt = Debt(path: Path, reason: Reason)

  /** Ideal digest of what tells one partition from another. */
  datatype Identity = Identity(parent: string, scope: seq<Row>, number: nat, residual: bool)

  datatype Partition = Partition(number: nat, identity: Identity, paths: seq<Path>, scope: seq<Row>, residual: bool,
                                 diffBytes: nat)

  datatype Built = Built(partitions: seq<Partition>, debt: seq<Debt>)

  // ----- the request ------------------------------------------------------------------------------------

  /** Rows by path, a later row replacing an earlier one. */
  function Requested(rows: seq<Row>): map<Path, Row> {
    if rows == [] then map[] else Requested(rows[..|rows| - 1])[rows[|rows| - 1].path := rows[|rows| - 1]]
  }

  function Listed(rows: seq<Row>): seq<Path> {
    Unique(seq(|rows|, i requires 0 <= i < |rows| => rows[i].path))
  }

  function Tier(t: Task, path: Path): nat {
    if path in t.objects then t.objects[path].tier else t.defaultTier
  }

  /** By path, then stably by importance. */
  function Names(t: Task): seq<Path> {
    Sort(Sort(Listed(t.scope), (a: Path, b: Path) => !Less(b, a)), (a: Path, b: Path) => Tier(t, a) <= Tier(t, b))
  }

  predicate Eligible(t: Task, path: Path) {
    && path in Requested(t.scope) && path in t.objects
    && t.objects[path].included && t.objects[path].blob == Requested(t.scope)[path].blob
  }

  predicate Ready(t: Task, names: seq<Path>) {
    forall n <- names :: Eligible(t, n)
  }

  function Lines(t: Task, path: Path): set<int> {
    if path in Requested(t.scope) then Requested(t.scope)[path].lines else {}
  }

  // ----- cutting ----------------------------------------------------------------------------------------

  function Size(t: Task, path: Path): nat {
    if path in t.objects then t.objects[path].bytes else 0
  }

  function Blob(t: Task, path: Path): string {
    if path in t.objects then t.objects[path].blob else ""
  }

  function Bytes(t: Task, names: seq<Path>): nat {
    if names == [] then 0 else Bytes(t, names[..|names| - 1]) + Size(t, names[|names| - 1])
  }

  function Changed(t: Task, names: seq<Path>, residual: bool, path: Path): set<int> {
    var changed := t.diff(names, residual).changed;
    if path in changed then changed[path] else {}
  }

  function Seen(t: Task, names: seq<Path>, residual: bool, path: Path): set<int> {
    Lines(t, path) * Changed(t, names, residual, path)
  }

  /** The scope of the first n names: each path with the requested lines the diff shows, if any. */
  function ScopeTo(t: Task, names: seq<Path>, residual: bool, n: nat): seq<Row>
    requires n <= |names|
  {
    if n == 0 then []
    else
      var before, path := ScopeTo(t, names, residual, n - 1), names[n - 1];
      if Seen(t, names, residual, path) == {} then before
      else before + [Row(path, Blob(t, path), Seen(t, names, residual, path))]
  }

  /** Of the first n names, those with a requested line the diff does not show. */
  function RemainingTo(t: Task, names: seq<Path>, residual: bool, n: nat): (rest: seq<Path>)
    requires n <= |names|
    ensures |rest| <= n && forall path <- rest :: path in names
  {
    if n == 0 then []
    else
      var before, path := RemainingTo(t, names, residual, n - 1), names[n - 1];
      if Lines(t, path) - Seen(t, names, residual, path) == {} then before else before + [path]
  }

  function Unexposed(names: seq<Path>): seq<Debt> {
    seq(|names|, i requires 0 <= i < |names| => Debt(names[i], NotExposed))
  }

  predicate Oversized(t: Task, names: seq<Path>) {
    |names| > t.limits.files || Bytes(t, names) > t.limits.total
  }

  predicate Overlong(t: Task, names: seq<Path>, residual: bool) {
    t.limits.diff.Some? && t.diff(names, residual).bytes > t.limits.diff.value
  }

  function Here(t: Task, names: seq<Path>, residual: bool, number: nat): seq<Partition> {
    var scope := ScopeTo(t, names, residual, |names|);
    if scope == [] then []
    else [Partition(number, Identity(t.subject, scope, number, residual), names, scope, residual,
                    t.diff(names, residual).bytes)]
  }

  function Join(a: Built, b: Built): Built {
    Built(a.partitions + b.partitions, a.debt + b.debt)
  }

  predicate Divides(t: Task, names: seq<Path>, residual: bool) {
    Oversized(t, names) || Overlong(t, names, residual)
  }

  function SingleDebt(t: Task, names: seq<Path>): Debt
    requires names != []
  {
    Debt(names[0], if Oversized(t, names) then FileTooLarge else DiffTooLarge)
  }

  /** What cutting these names adds, the next partition taking the given number. */
  function Cut(t: Task, names: seq<Path>, residual: bool, number: nat): Built
    decreases if residual then 0 else 1, |names|
  {
    if names == [] then Built([], [])
    else if Divides(t, names, residual) then
      if |names| == 1 then Built([], [SingleDebt(t, names)])
      else
        var low := Cut(t, names[..|names| / 2], residual, number);
        Join(low, Cut(t, names[|names| / 2..], residual, number + |low.partitions|))
    else
      var here, rest := Here(t, names, residual, number), RemainingTo(t, names, residual, |names|);
      if rest == [] then Built(here, [])
      else if residual then Built(here, Unexposed(rest))
      else Join(Built(here, []), Cut(t, rest, true, number + |here|))
  }

  function Sift(t: Task, names: seq<Path>): seq<Path> {
    if names == [] then []
    else Sift(t, names[..|names| - 1]) + if Eligible(t, names[|names| - 1]) then [names[|names| - 1]] else []
  }

  function Unfit(t: Task, names: seq<Path>): seq<Debt> {
    if names == [] then []
    else Unfit(t, names[..|names| - 1]) +
         if Eligible(t, names[|names| - 1]) then [] else [Debt(names[|names| - 1], Unavailable)]
  }

  lemma {:induction false} SiftIsReady(t: Task, names: seq<Path>)
    ensures forall n :: n in Sift(t, names) <==> n in names && Eligible(t, n)
    ensures forall d :: d in Unfit(t, names) <==> d.path in names && !Eligible(t, d.path) && d.reason == Unavailable
    ensures Distinct(names) ==> Distinct(Sift(t, names))
  {
    hide Eligible;
    if names != [] {
      assert names == names[..|names| - 1] + [names[|names| - 1]];
      SiftIsReady(t, names[..|names| - 1]);
    }
  }

  function Construct(t: Task): Built {
    Join(Built([], Unfit(t, Names(t))), Cut(t, Sift(t, Names(t)), false, 0))
  }

  lemma CutNothing(t: Task, names: seq<Path>, residual: bool, number: nat)
    requires names == []
    ensures Cut(t, names, residual, number) == Built([], [])
  {
  }

  lemma CutDivides(t: Task, names: seq<Path>, residual: bool, number: nat)
    requires names != [] && Divides(t, names, residual)
    ensures Cut(t, names, residual, number) ==
            if |names| == 1 then Built([], [SingleDebt(t, names)])
            else
              var low := Cut(t, names[..|names| / 2], residual, number);
              Join(low, Cut(t, names[|names| / 2..], residual, number + |low.partitions|))
  {
  }

  lemma CutFits(t: Task, names: seq<Path>, residual: bool, number: nat)
    requires names != [] && !Divides(t, names, residual)
    ensures var here, rest := Here(t, names, residual, number), RemainingTo(t, names, residual, |names|);
            Cut(t, names, residual, number) ==
            if rest == [] then Built(here, [])
            else if residual then Built(here, Unexposed(rest))
            else Join(Built(here, []), Cut(t, rest, true, number + |here|))
  {
  }

  /** The two lists every recursive call appends to. */
  class Construction {
    var partitions: seq<Partition>
    var debt: seq<Debt>

    constructor ()
      ensures partitions == [] && debt == []
    {
      partitions, debt := [], [];
    }

    method CutInto(t: Task, names: seq<Path>, residual: bool)
      modifies this
      ensures Built(partitions, debt) == Join(old(Built(partitions, debt)), Cut(t, names, residual, |old(partitions)|))
      decreases if residual then 0 else 1, |names|
    {
      hide Cut, Oversized, Overlong, ScopeTo, RemainingTo, Seen, Lines;
      if names == [] {
        CutNothing(t, names, residual, |partitions|);
        return;
      }
      if Divides(t, names, residual) {
        CutDivides(t, names, residual, |partitions|);
        if |names| == 1 {
          debt := debt + [SingleDebt(t, names)];
        } else {
          var midpoint := |names| / 2;
          CutInto(t, names[..midpoint], residual);
          CutInto(t, names[midpoint..], residual);
        }
        return;
      }
      CutFits(t, names, residual, |partitions|);
      ScopeStarts(t, names, residual);
      var scope, remaining := [], [];
      for i := 0 to |names|
        invariant scope == ScopeTo(t, names, residual, i) && remaining == RemainingTo(t, names, residual, i)
        invariant partitions == old(partitions) && debt == old(debt)
      {
        var path := names[i];
        ScopeStep(t, names, residual, i);
        var seen := Seen(t, names, residual, path);
        if seen != {} {
          scope := scope + [Row(path, Blob(t, path), seen)];
        }
        if Lines(t, path) - seen != {} {
          remaining := remaining + [path];
        }
      }
      if scope != [] {
        var number := |partitions|;
        partitions := partitions +
          [Partition(number, Identity(t.subject, scope, number, residual), names, scope, residual,
                     t.diff(names, residual).bytes)];
      }
      ghost var here := Here(t, names, residual, |old(partitions)|);
      assert partitions == old(partitions) + here && debt == old(debt) + [];
      if remaining != [] {
        if residual {
          debt := debt + Unexposed(remaining);
        } else {
          CutInto(t, remaining, true);
          JoinAssociates(old(Built(partitions, debt)), Built(here, []),
                         Cut(t, remaining, true, |old(partitions)| + |here|));
        }
      }
    }

    method Build(t: Task)
      requires partitions == [] && debt == []
      modifies this
      ensures Built(partitions, debt) == Construct(t)
    {
      hide Cut, Names, Eligible;
      var names, eligible := Names(t), [];
      assert names[..0] == [];
      for i := 0 to |names|
        invariant debt == Unfit(t, names[..i]) && eligible == Sift(t, names[..i]) && partitions == []
      {
        assert names[..i + 1][..i] == names[..i];
        if Eligible(t, names[i]) {
          eligible := eligible + [names[i]];
        } else {
          debt := debt + [Debt(names[i], Unavailable)];
        }
      }
      assert names[..|names|] == names;
      SiftIsReady(t, names);
      CutInto(t, eligible, false);
    }
  }

  lemma JoinAssociates(a: Built, b: Built, c: Built)
    ensures Join(Join(a, b), c) == Join(a, Join(b, c))
  {
    assert a.partitions + b.partitions + c.partitions == a.partitions + (b.partitions + c.partitions);
    assert a.debt + b.debt + c.debt == a.debt + (b.debt + c.debt);
  }

  lemma ScopeStarts(t: Task, names: seq<Path>, residual: bool)
    ensures ScopeTo(t, names, residual, 0) == [] && RemainingTo(t, names, residual, 0) == []
  {
  }

  lemma ScopeStep(t: Task, names: seq<Path>, residual: bool, i: nat)
    requires i < |names|
    ensures var path := names[i];
            && ScopeTo(t, names, residual, i + 1) == ScopeTo(t, names, residual, i) +
                 (if Seen(t, names, residual, path) == {} then []
                  else [Row(path, Blob(t, path), Seen(t, names, residual, path))])
            && RemainingTo(t, names, residual, i + 1) == RemainingTo(t, names, residual, i) +
                 (if Lines(t, path) - Seen(t, names, residual, path) == {} then [] else [path])
  {
  }

  // ----- what a construction is worth -------------------------------------------------------------------

  ghost predicate InScope(scope: seq<Row>, path: Path, line: int) {
    exists r <- scope :: r.path == path && line in r.lines
  }

  /** A partition within every limit whose scope is exactly the requested lines its own diff shows. */
  ghost predicate Sound(t: Task, p: Partition) {
    && Ready(t, p.paths) && |p.paths| <= t.limits.files && Bytes(t, p.paths) <= t.limits.total
    && (t.limits.diff.Some? ==> p.diffBytes <= t.limits.diff.value) && p.diffBytes == t.diff(p.paths, p.residual).bytes
    && p.scope != [] && p.identity == Identity(t.subject, p.scope, p.number, p.residual)
    && ExactScope(t, p)
  }

  ghost predicate ExactScope(t: Task, p: Partition) {
    forall path, line :: InScope(p.scope, path, line) <==>
      path in p.paths && line in Lines(t, path) && line in Changed(t, p.paths, p.residual, path)
  }

  ghost predicate Shown(b: Built, path: Path, line: int) {
    exists p <- b.partitions :: InScope(p.scope, path, line)
  }

  ghost predicate Indebted(b: Built, path: Path) {
    exists d <- b.debt :: d.path == path
  }

  /** Nothing asked of these paths is lost: a line is in some scope or its path is in debt. */
  ghost predicate NothingLost(t: Task, names: seq<Path>, b: Built) {
    forall path, line :: path in names && line in Lines(t, path) ==> Shown(b, path, line) || Indebted(b, path)
  }

  ghost predicate AllSound(t: Task, b: Built) {
    forall p <- b.partitions :: Sound(t, p)
  }

  /** The debts are true: a file over its limits, or a line no whole-file diff of its group shows. */
  ghost predicate Owed(t: Task, d: Debt) {
    match d.reason
    case Unavailable => !Eligible(t, d.path)
    case FileTooLarge => Eligible(t, d.path) && (1 > t.limits.files || t.objects[d.path].bytes > t.limits.total)
    case DiffTooLarge => Overlong(t, [d.path], false) || Overlong(t, [d.path], true)
    case NotExposed => exists names: seq<Path>, line ::
        d.path in names && line in Lines(t, d.path) && line !in Changed(t, names, true, d.path)
  }

  ghost predicate AllOwed(t: Task, b: Built) {
    forall d <- b.debt :: Owed(t, d)
  }

  /** Consecutive numbers, so no two partitions share an identity. */
  ghost predicate Numbered(b: Built, number: nat) {
    forall i :: 0 <= i < |b.partitions| ==> b.partitions[i].number == number + i
  }

  ghost predicate PathsIn(b: Built, names: seq<Path>) {
    forall p <- b.partitions :: forall n <- p.paths :: n in names
  }

  /** Within one pass no path is put up for review twice. */
  ghost predicate OncePerPass(b: Built) {
    forall i, j, n :: (0 <= i < j < |b.partitions| && b.partitions[i].residual == b.partitions[j].residual
                       && n in b.partitions[i].paths) ==>
      n !in b.partitions[j].paths
  }

  lemma {:induction false} ScopeIsExact(t: Task, names: seq<Path>, residual: bool, n: nat)
    requires n <= |names|
    ensures forall path, line :: InScope(ScopeTo(t, names, residual, n), path, line) <==>
              path in names[..n] && line in Seen(t, names, residual, path)
  {
    hide Seen;
    if n > 0 {
      ScopeIsExact(t, names, residual, n - 1);
      ScopeStep(t, names, residual, n - 1);
      var before, path := ScopeTo(t, names, residual, n - 1), names[n - 1];
      assert names[..n] == names[..n - 1] + [path];
      forall other, line
        ensures InScope(ScopeTo(t, names, residual, n), other, line) <==>
                InScope(before, other, line) || (other == path && line in Seen(t, names, residual, path))
      {
        if Seen(t, names, residual, path) != {} {
          AppendScope(before, Row(path, Blob(t, path), Seen(t, names, residual, path)), other, line);
        }
      }
    }
  }

  lemma AppendScope(scope: seq<Row>, r: Row, path: Path, line: int)
    ensures InScope(scope + [r], path, line) <==> InScope(scope, path, line) || (r.path == path && line in r.lines)
  {
    assert r == (scope + [r])[|scope|];
    if InScope(scope, path, line) {
      var q :| q in scope && q.path == path && line in q.lines;
      assert q in scope + [r];
    }
  }

  lemma {:induction false} RemainingIsExact(t: Task, names: seq<Path>, residual: bool, n: nat)
    requires n <= |names|
    ensures forall path :: path in RemainingTo(t, names, residual, n) <==>
              path in names[..n] && Lines(t, path) - Seen(t, names, residual, path) != {}
    ensures Distinct(names[..n]) ==> Distinct(RemainingTo(t, names, residual, n))
  {
    hide Lines, Seen;
    if n > 0 {
      RemainingIsExact(t, names, residual, n - 1);
      assert names[..n] == names[..n - 1] + [names[n - 1]];
    }
  }

  lemma HereIsSound(t: Task, names: seq<Path>, residual: bool, number: nat)
    requires Ready(t, names) && !Divides(t, names, residual)
    ensures var here := Built(Here(t, names, residual, number), []);
            && AllSound(t, here) && Numbered(here, number) && PathsIn(here, names) && OncePerPass(here)
            && (forall path, line :: path in names && line in Seen(t, names, residual, path) ==>
                Shown(here, path, line))
            && (forall p <- here.partitions :: p.residual == residual)
  {
    hide Eligible, Bytes, ScopeTo;
    ScopeIsExact(t, names, residual, |names|);
    assert names[..|names|] == names;
    var scope, here := ScopeTo(t, names, residual, |names|), Here(t, names, residual, number);
    forall path, line | path in names && line in Seen(t, names, residual, path)
      ensures Shown(Built(here, []), path, line)
    {
      assert InScope(scope, path, line);
      assert here[0] in here;
    }
  }

  lemma JoinKeeps(t: Task, a: Built, b: Built, number: nat)
    requires AllSound(t, a) && AllSound(t, b) && AllOwed(t, a) && AllOwed(t, b)
    requires Numbered(a, number) && Numbered(b, number + |a.partitions|)
    ensures AllSound(t, Join(a, b)) && AllOwed(t, Join(a, b)) && Numbered(Join(a, b), number)
  {
    hide Sound, Owed;
  }

  lemma JoinLosesNothing(a: Built, b: Built, path: Path, line: int)
    ensures Shown(a, path, line) || Shown(b, path, line) ==> Shown(Join(a, b), path, line)
    ensures Indebted(a, path) || Indebted(b, path) ==> Indebted(Join(a, b), path)
  {
    hide InScope;
    var c := Join(a, b);
    if Shown(a, path, line) {
      var p :| p in a.partitions && InScope(p.scope, path, line);
      assert p in c.partitions;
    }
    if Shown(b, path, line) {
      var p :| p in b.partitions && InScope(p.scope, path, line);
      assert p in c.partitions;
    }
    assert forall d :: d in a.debt || d in b.debt ==> d in c.debt;
  }

  lemma {:induction false} CutIsSound(t: Task, names: seq<Path>, residual: bool, number: nat)
    requires Ready(t, names)
    ensures var b := Cut(t, names, residual, number);
            AllSound(t, b) && AllOwed(t, b) && Numbered(b, number)
    decreases if residual then 0 else 1, |names|
  {
    hide Cut, Sound, Owed, Eligible, Here, Divides, RemainingTo;
    if names == [] {
      CutNothing(t, names, residual, number);
    } else if Divides(t, names, residual) {
      CutDivides(t, names, residual, number);
      if |names| == 1 {
        SingleIsOwed(t, names, residual);
      } else {
        var m := |names| / 2;
        var low := Cut(t, names[..m], residual, number);
        CutIsSound(t, names[..m], residual, number);
        CutIsSound(t, names[m..], residual, number + |low.partitions|);
        JoinKeeps(t, low, Cut(t, names[m..], residual, number + |low.partitions|), number);
      }
    } else {
      var here, rest := Here(t, names, residual, number), RemainingTo(t, names, residual, |names|);
      CutFits(t, names, residual, number);
      HereIsSound(t, names, residual, number);
      if rest != [] && !residual {
        assert Ready(t, rest);
        CutIsSound(t, rest, true, number + |here|);
        JoinKeeps(t, Built(here, []), Cut(t, rest, true, number + |here|), number);
      } else if rest != [] {
        UnexposedIsOwed(t, names);
      }
    }
  }

  lemma SingleIsOwed(t: Task, names: seq<Path>, residual: bool)
    requires Ready(t, names) && |names| == 1 && Divides(t, names, residual)
    ensures Owed(t, SingleDebt(t, names))
  {
    assert names[..0] == [] && names == [names[0]] && names[0] in names;
    assert Bytes(t, names) == Bytes(t, []) + Size(t, names[0]);
  }

  lemma UnexposedIsOwed(t: Task, names: seq<Path>)
    ensures forall d <- Unexposed(RemainingTo(t, names, true, |names|)) :: Owed(t, d)
  {
    hide Lines, Changed;
    var rest := RemainingTo(t, names, true, |names|);
    RemainingIsExact(t, names, true, |names|);
    forall d | d in Unexposed(rest) ensures Owed(t, d) {
      assert d.path in rest && d.reason == NotExposed;
      ghost var hidden := Lines(t, d.path) - Seen(t, names, true, d.path);
      ghost var line := Member(hidden);
      assert d.path in names && line in Lines(t, d.path) && line !in Changed(t, names, true, d.path);
    }
  }

  lemma {:induction false} CutLosesNothing(t: Task, names: seq<Path>, residual: bool, number: nat)
    requires Ready(t, names)
    ensures NothingLost(t, names, Cut(t, names, residual, number))
    decreases if residual then 0 else 1, |names|
  {
    hide Cut, Eligible, Here, Divides, RemainingTo, Shown, Indebted, Join, NothingLost;
    var b := Cut(t, names, residual, number);
    if names == [] {
      NothingToLose(t, names, b);
    } else if Divides(t, names, residual) {
      CutDivides(t, names, residual, number);
      if |names| == 1 {
        SingleIsIndebted(t, names, b);
      } else {
        var m := |names| / 2;
        var low := Cut(t, names[..m], residual, number);
        CutLosesNothing(t, names[..m], residual, number);
        CutLosesNothing(t, names[m..], residual, number + |low.partitions|);
        HalvesLoseNothing(t, names, m, low, Cut(t, names[m..], residual, number + |low.partitions|));
      }
    } else {
      var here, rest := Here(t, names, residual, number), RemainingTo(t, names, residual, |names|);
      CutFits(t, names, residual, number);
      if rest != [] && !residual {
        assert Ready(t, rest);
        CutLosesNothing(t, rest, true, number + |here|);
      }
      LeafLosesNothing(t, names, residual, number);
    }
  }

  lemma NothingToLose(t: Task, names: seq<Path>, b: Built)
    requires names == []
    ensures NothingLost(t, names, b)
  {
  }

  lemma SingleIsIndebted(t: Task, names: seq<Path>, b: Built)
    requires |names| == 1 && b.debt == [SingleDebt(t, names)]
    ensures NothingLost(t, names, b)
  {
    assert b.debt[0] in b.debt;
  }

  lemma HalvesLoseNothing(t: Task, names: seq<Path>, m: nat, a: Built, b: Built)
    requires m <= |names| && NothingLost(t, names[..m], a) && NothingLost(t, names[m..], b)
    ensures NothingLost(t, names, Join(a, b))
  {
    hide Shown, Indebted, Lines, Join;
    assert names == names[..m] + names[m..];
    forall path, line | path in names && line in Lines(t, path)
      ensures Shown(Join(a, b), path, line) || Indebted(Join(a, b), path)
    {
      JoinLosesNothing(a, b, path, line);
    }
  }

  lemma LeafLosesNothing(t: Task, names: seq<Path>, residual: bool, number: nat)
    requires Ready(t, names) && names != [] && !Divides(t, names, residual)
    requires var rest := RemainingTo(t, names, residual, |names|);
             !residual && rest != [] ==>
                 NothingLost(t, rest, Cut(t, rest, true, number + |Here(t, names, false, number)|))
    ensures NothingLost(t, names, Cut(t, names, residual, number))
  {
    hide Cut, Eligible, Here, Divides, RemainingTo, Shown, Indebted, Join, Unexposed, Lines, Changed;
    var here, rest := Here(t, names, residual, number), RemainingTo(t, names, residual, |names|);
    CutFits(t, names, residual, number);
    HereIsSound(t, names, residual, number);
    RemainingIsExact(t, names, residual, |names|);
    assert names[..|names|] == names;
    var b := Cut(t, names, residual, number);
    forall path, line | path in names && line in Lines(t, path) ensures Shown(b, path, line) || Indebted(b, path) {
      if line in Seen(t, names, residual, path) {
        assert Shown(Built(here, []), path, line);
      } else {
        assert line in Lines(t, path) - Seen(t, names, residual, path);
        assert path in rest;
      }
      UnexposedShows(here, rest, path, line);
      JoinLosesNothing(Built(here, []), Cut(t, rest, true, number + |here|), path, line);
    }
  }

  lemma UnexposedShows(here: seq<Partition>, rest: seq<Path>, path: Path, line: int)
    ensures Shown(Built(here, []), path, line) ==> Shown(Built(here, Unexposed(rest)), path, line)
    ensures path in rest ==> Indebted(Built(here, Unexposed(rest)), path)
  {
    if path in rest {
      var i :| 0 <= i < |rest| && rest[i] == path;
      assert Unexposed(rest)[i] in Unexposed(rest);
    }
  }

  lemma {:induction false} CutOncePerPass(t: Task, names: seq<Path>, residual: bool, number: nat)
    requires Ready(t, names) && Distinct(names)
    ensures var b := Cut(t, names, residual, number);
            PathsIn(b, names) && OncePerPass(b) && (residual ==> forall p <- b.partitions :: p.residual)
    decreases if residual then 0 else 1, |names|
  {
    hide Cut, Eligible, Here, Divides, RemainingTo, OncePerPass, PathsIn;
    if names == [] {
      CutNothing(t, names, residual, number);
      NoPartitions(Cut(t, names, residual, number), names);
    } else if Divides(t, names, residual) {
      CutDivides(t, names, residual, number);
      if |names| == 1 {
        NoPartitions(Cut(t, names, residual, number), names);
      } else {
        var m := |names| / 2;
        var low := Cut(t, names[..m], residual, number);
        CutOncePerPass(t, names[..m], residual, number);
        CutOncePerPass(t, names[m..], residual, number + |low.partitions|);
        HalvesOnce(low, Cut(t, names[m..], residual, number + |low.partitions|), names, m);
      }
    } else {
      var here, rest := Here(t, names, residual, number), RemainingTo(t, names, residual, |names|);
      CutFits(t, names, residual, number);
      HereIsSound(t, names, residual, number);
      if rest != [] && !residual {
        assert Ready(t, rest);
        RemainingIsExact(t, names, residual, |names|);
        assert names[..|names|] == names;
        CutOncePerPass(t, rest, true, number + |here|);
        PassesOnce(Built(here, []), Cut(t, rest, true, number + |here|), names, rest);
      } else {
        SamePartitions(Built(here, []), Cut(t, names, residual, number), names);
      }
    }
  }

  lemma NoPartitions(b: Built, names: seq<Path>)
    requires b.partitions == []
    ensures PathsIn(b, names) && OncePerPass(b)
  {
  }

  lemma SamePartitions(a: Built, b: Built, names: seq<Path>)
    requires a.partitions == b.partitions && PathsIn(a, names) && OncePerPass(a)
    ensures PathsIn(b, names) && OncePerPass(b)
  {
  }

  lemma HalvesOnce(a: Built, b: Built, names: seq<Path>, m: nat)
    requires m <= |names| && Distinct(names)
    requires PathsIn(a, names[..m]) && PathsIn(b, names[m..]) && OncePerPass(a) && OncePerPass(b)
    ensures PathsIn(Join(a, b), names) && OncePerPass(Join(a, b))
  {
    forall n | n in names[..m] ensures n !in names[m..] {
      var i :| 0 <= i < m && names[i] == n;
    }
  }

  lemma PassesOnce(a: Built, b: Built, names: seq<Path>, rest: seq<Path>)
    requires PathsIn(a, names) && PathsIn(b, rest) && OncePerPass(a) && OncePerPass(b) && forall n <- rest :: n in names
    requires (forall p <- a.partitions :: !p.residual) && forall p <- b.partitions :: p.residual
    ensures PathsIn(Join(a, b), names) && OncePerPass(Join(a, b))
  {
  }

  // ----- the whole construction -------------------------------------------------------------------------

  lemma {:induction false} RequestedRows(rows: seq<Row>)
    ensures forall path :: path in Requested(rows) <==> exists r <- rows :: r.path == path
  {
    if rows != [] {
      assert rows == rows[..|rows| - 1] + [rows[|rows| - 1]];
      RequestedRows(rows[..|rows| - 1]);
    }
  }

  lemma ListedOnce(rows: seq<Row>)
    ensures Distinct(Listed(rows)) && forall path :: path in Listed(rows) <==> path in Requested(rows)
  {
    var paths := seq(|rows|, i requires 0 <= i < |rows| => rows[i].path);
    UniqueOnce(paths);
    RequestedRows(rows);
    forall path ensures path in paths <==> exists r <- rows :: r.path == path {
      if r :| r in rows && r.path == path {
        var i :| 0 <= i < |rows| && rows[i] == r;
        assert paths[i] == path;
      }
    }
  }

  lemma NamesOnce(t: Task)
    ensures Distinct(Names(t)) && forall path :: path in Names(t) <==> path in Requested(t.scope)
  {
    hide Sort, Less, Tier;
    var byPath := (a: Path, b: Path) => !Less(b, a);
    var byTier := (a: Path, b: Path) => Tier(t, a) <= Tier(t, b);
    ListedOnce(t.scope);
    SortKeeps(Listed(t.scope), byPath);
    SortKeeps(Sort(Listed(t.scope), byPath), byTier);
    PermutationDistinct(Listed(t.scope), Sort(Listed(t.scope), byPath));
    PermutationDistinct(Sort(Listed(t.scope), byPath), Sort(Sort(Listed(t.scope), byPath), byTier));
  }

  /**
   For every candidate, object table, limits and diff: nothing requested is lost, every partition is within
   its limits and shows exactly requested lines, every debt is true, and partitions have distinct identities.
   */
  lemma ConstructionIsSound(t: Task)
    ensures var b := Construct(t);
            && (forall path, line :: path in Requested(t.scope) && line in Requested(t.scope)[path].lines ==>
                  Shown(b, path, line) || Indebted(b, path))
            && AllSound(t, b) && AllOwed(t, b) && OncePerPass(b)
            && (forall i, j :: 0 <= i < j < |b.partitions| ==> b.partitions[i].identity != b.partitions[j].identity)
  {
    hide Cut, Names, Eligible, Shown, Indebted, Sound, OncePerPass;
    var names, eligible := Names(t), Sift(t, Names(t));
    NamesOnce(t);
    SiftIsReady(t, names);
    var unfit, cut := Built([], Unfit(t, names)), Cut(t, eligible, false, 0);
    CutIsSound(t, eligible, false, 0);
    CutLosesNothing(t, eligible, false, 0);
    CutOncePerPass(t, eligible, false, 0);
    var b := Construct(t);
    assert b.partitions == cut.partitions;
    SamePartitions(cut, b, eligible);
    forall path, line | path in Requested(t.scope) && line in Requested(t.scope)[path].lines
      ensures Shown(b, path, line) || Indebted(b, path)
    {
      JoinLosesNothing(unfit, cut, path, line);
      if !Eligible(t, path) {
        UnfitIsIndebted(t, names, path);
      }
    }
    IdentitiesDiffer(t, b);
  }

  lemma UnfitIsIndebted(t: Task, names: seq<Path>, path: Path)
    requires path in names && !Eligible(t, path)
    ensures Indebted(Built([], Unfit(t, names)), path)
  {
    SiftIsReady(t, names);
    assert Debt(path, Unavailable) in Unfit(t, names);
  }

  lemma IdentitiesDiffer(t: Task, b: Built)
    requires AllSound(t, b) && Numbered(b, 0)
    ensures forall i, j :: 0 <= i < j < |b.partitions| ==> b.partitions[i].identity != b.partitions[j].identity
  {
    hide ExactScope, Ready, Bytes;
    forall i, j | 0 <= i < j < |b.partitions| ensures b.partitions[i].identity != b.partitions[j].identity {
      assert Sound(t, b.partitions[i]) && Sound(t, b.partitions[j]);
    }
  }

  /** When whole-file diffs show every requested line and each file fits alone, every requested line is shown. */
  lemma FittingRequestsAreShown(t: Task, path: Path, line: int)
    requires Eligible(t, path) && line in Lines(t, path)
    requires 1 <= t.limits.files && t.objects[path].bytes <= t.limits.total
    requires !Overlong(t, [path], false) && !Overlong(t, [path], true)
    requires forall names: seq<Path> :: path in names ==> Lines(t, path) <= Changed(t, names, true, path)
    ensures Shown(Construct(t), path, line)
  {
    hide Construct, Eligible, Shown, Changed, Owed;
    ConstructionIsSound(t);
    RequestedLines(t, path);
    forall d | d in Construct(t).debt ensures d.path != path {
      OwedElsewhere(t, path, d);
    }
  }

  lemma OwedElsewhere(t: Task, path: Path, d: Debt)
    requires Eligible(t, path) && Owed(t, d)
    requires 1 <= t.limits.files && t.objects[path].bytes <= t.limits.total
    requires !Overlong(t, [path], false) && !Overlong(t, [path], true)
    requires forall names: seq<Path> :: path in names ==> Lines(t, path) <= Changed(t, names, true, path)
    ensures d.path != path
  {
  }

  lemma RequestedLines(t: Task, path: Path)
    requires Eligible(t, path)
    ensures path in Requested(t.scope) && path in t.objects && Requested(t.scope)[path].lines == Lines(t, path)
  {
  }
}
