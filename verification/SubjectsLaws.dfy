/** What a construction makes of every group of paths it takes up, and which groups it takes up. */
module SubjectsLaws {
  import opened Prelude
  import opened Sorting
  import opened Subjects

  // ----- the request ------------------------------------------------------------------------------------

  /** The last row asked for of a path. */
  ghost predicate Asked(t: Task, path: Path, row: Row) {
    row.path == path && exists k ::
      0 <= k < |t.scope| && t.scope[k] == row && forall m :: k < m < |t.scope| ==> t.scope[m].path != path
  }

  ghost predicate Wants(t: Task, path: Path, line: int) {
    exists row :: Asked(t, path, row) && line in row.lines
  }

  /** Present at the target, included, and still the blob that was asked for. */
  ghost predicate Available(t: Task, path: Path) {
    && path in t.objects && t.objects[path].included
    && exists row :: Asked(t, path, row) && t.objects[path].blob == row.blob
  }

  ghost function TierOf(t: Task, path: Path): nat {
    if path in t.objects then t.objects[path].tier else t.defaultTier
  }

  /** Every path asked for, once, by importance and then by name. */
  ghost predicate InOrder(t: Task, names: seq<Path>) {
    && Distinct(names) && (forall path :: path in names <==> exists row :: Asked(t, path, row))
    && forall a, b :: 0 <= a < b < |names| ==>
         TierOf(t, names[a]) < TierOf(t, names[b])
         || (TierOf(t, names[a]) == TierOf(t, names[b]) && !Less(names[b], names[a]))
  }

  lemma {:induction false} RequestedIs(rows: seq<Row>, path: Path)
    ensures path in Requested(rows) <==> exists r <- rows :: r.path == path
    ensures path in Requested(rows) ==>
              var row := Requested(rows)[path];
              row.path == path && exists k ::
                0 <= k < |rows| && rows[k] == row && forall m :: k < m < |rows| ==> rows[m].path != path
  {
    if rows != [] {
      var n := |rows| - 1;
      var front := rows[..n];
      assert rows == front + [rows[n]];
      RequestedIs(front, path);
      if rows[n].path == path {
        assert rows[n] == Requested(rows)[path];
      } else if path in Requested(front) {
        var k :| 0 <= k < n && front[k] == Requested(front)[path] && forall m :: k < m < n ==> front[m].path != path;
        assert rows[k] == Requested(rows)[path];
        forall m | k < m < |rows| ensures rows[m].path != path {
          assert m < n ==> rows[m] == front[m];
        }
      }
    }
  }

  lemma AskedIs(t: Task, path: Path, row: Row)
    ensures Asked(t, path, row) <==> path in Requested(t.scope) && Requested(t.scope)[path] == row
  {
    RequestedIs(t.scope, path);
    if Asked(t, path, row) {
      assert row in t.scope;
      var k :| 0 <= k < |t.scope| && t.scope[k] == row && forall m :: k < m < |t.scope| ==> t.scope[m].path != path;
      var last := Requested(t.scope)[path];
      var n :| 0 <= n < |t.scope| && t.scope[n] == last && forall m :: n < m < |t.scope| ==> t.scope[m].path != path;
    }
  }

  lemma WantsIs(t: Task, path: Path, line: int)
    ensures Wants(t, path, line) <==> line in Lines(t, path)
  {
    if path in Requested(t.scope) {
      AskedIs(t, path, Requested(t.scope)[path]);
    }
    forall row | Asked(t, path, row) ensures path in Requested(t.scope) && Requested(t.scope)[path] == row {
      AskedIs(t, path, row);
    }
    hide Asked, Requested;
  }

  lemma AvailableIs(t: Task, path: Path)
    ensures Available(t, path) <==> Eligible(t, path)
  {
    if path in Requested(t.scope) {
      AskedIs(t, path, Requested(t.scope)[path]);
    }
    forall row | Asked(t, path, row) ensures path in Requested(t.scope) && Requested(t.scope)[path] == row {
      AskedIs(t, path, row);
    }
    hide Asked, Requested;
  }

  lemma TextOrder()
    ensures TotalPreorder((a: Path, b: Path) => !Less(b, a))
  {
    var le := (a: Path, b: Path) => !Less(b, a);
    hide Less;
    forall a, b ensures le(a, b) || le(b, a) {
      if Less(b, a) && Less(a, b) {
        LessIsTransitive(a, b, a);
        Irreflexive(a);
      }
    }
    forall a, b, c | le(a, b) && le(b, c) ensures le(a, c) {
      LessIsTotal(b, c);
      if Less(c, a) && Less(b, c) {
        LessIsTransitive(b, c, a);
      }
    }
  }

  lemma NamesInOrder(t: Task)
    ensures InOrder(t, Names(t))
  {
    var byPath := (a: Path, b: Path) => !Less(b, a);
    var byTier := (a: Path, b: Path) => Tier(t, a) <= Tier(t, b);
    var paths := Sort(Listed(t.scope), byPath);
    TextOrder();
    TierOrder(t);
    SortOrders(Listed(t.scope), byPath);
    SortIsStable(paths, byTier, byPath);
    NamesOnce(t);
    forall path ensures path in Requested(t.scope) <==> exists row :: Asked(t, path, row) {
      if path in Requested(t.scope) {
        AskedIs(t, path, Requested(t.scope)[path]);
      }
      forall row | Asked(t, path, row) ensures path in Requested(t.scope) {
        AskedIs(t, path, row);
      }
    }
    hide Sort, Less, Asked, Requested, Listed, TotalPreorder, Ordered;
    StableTiers(t, Names(t), byTier, byPath);
  }

  lemma TierOrder(t: Task)
    ensures TotalPreorder((a: Path, b: Path) => Tier(t, a) <= Tier(t, b))
  {
  }

  lemma StableTiers(t: Task, names: seq<Path>, byTier: (Path, Path) -> bool, byPath: (Path, Path) -> bool)
    requires OrderedBy(names, byTier, byPath)
    requires byTier == ((a: Path, b: Path) => Tier(t, a) <= Tier(t, b)) && byPath == ((a: Path, b: Path) => !Less(b, a))
    ensures forall a, b :: 0 <= a < b < |names| ==>
              TierOf(t, names[a]) < TierOf(t, names[b])
              || (TierOf(t, names[a]) == TierOf(t, names[b]) && !Less(names[b], names[a]))
  {
    hide Less;
  }

  // ----- the groups taken up ----------------------------------------------------------------------------

  /** A group of paths put up together, on a first pass or a residual one. */
  datatype Group = Group(names: seq<Path>, residual: bool)

  ghost function SumBytes(t: Task, names: seq<Path>): nat {
    if names == [] then 0
    else SumBytes(t, names[..|names| - 1]) +
         if names[|names| - 1] in t.objects then t.objects[names[|names| - 1]].bytes else 0
  }

  ghost predicate TooBig(t: Task, names: seq<Path>) {
    |names| > t.limits.files || SumBytes(t, names) > t.limits.total
  }

  ghost predicate TooLong(t: Task, g: Group) {
    t.limits.diff.Some? && t.diff(g.names, g.residual).bytes > t.limits.diff.value
  }

  ghost predicate TooMuch(t: Task, g: Group) {
    TooBig(t, g.names) || TooLong(t, g)
  }

  /** A requested line of the path that the group's own diff shows, or does not. */
  ghost predicate Shows(t: Task, g: Group, path: Path, line: int) {
    Wants(t, path, line) && path in t.diff(g.names, g.residual).changed &&
        line in t.diff(g.names, g.residual).changed[path]
  }

  ghost predicate Conceals(t: Task, g: Group, path: Path, line: int) {
    Wants(t, path, line) && !Shows(t, g, path, line)
  }

  ghost predicate Showing(t: Task, g: Group, path: Path) {
    exists line :: Shows(t, g, path, line)
  }

  ghost predicate Concealing(t: Task, g: Group, path: Path) {
    exists line :: Conceals(t, g, path, line)
  }

  /** Of the first n names, those with a line the diff does not show, in order. */
  ghost function Concealed(t: Task, g: Group, n: nat): (rest: seq<Path>)
    requires n <= |g.names|
    ensures |rest| <= n
  {
    if n == 0 then []
    else Concealed(t, g, n - 1) + if Concealing(t, g, g.names[n - 1]) then [g.names[n - 1]] else []
  }

  /**
   Every group taken up in turn: one that is too much is halved unless it is a single path, and what the diff of a
   first-pass group does not show is taken up once more, as whole files.
   */
  ghost function TakenUp(t: Task, g: Group): seq<Group>
    decreases if g.residual then 0 else 1, |g.names|
  {
    var n := |g.names|;
    if n == 0 then []
    else if TooMuch(t, g) then
      [g] + if n == 1 then []
          else TakenUp(t, Group(g.names[..n / 2], g.residual)) + TakenUp(t, Group(g.names[n / 2..], g.residual))
    else [g] + if g.residual then [] else TakenUp(t, Group(Concealed(t, g, n), true))
  }

  /** A group becomes a partition when it is not too much and its diff shows any line asked of it. */
  ghost predicate Reviewable(t: Task, g: Group) {
    !TooMuch(t, g) && exists path <- g.names :: Showing(t, g, path)
  }

  ghost function Reviewables(t: Task, gs: seq<Group>): seq<Group> {
    if gs == [] then []
    else Reviewables(t, gs[..|gs| - 1]) + if Reviewable(t, gs[|gs| - 1]) then [gs[|gs| - 1]] else []
  }

  /** The debts of a group: a single path that is too much, or what even whole files do not show. */
  ghost function Owes(t: Task, g: Group): seq<Debt> {
    if g.names == [] then []
    else if TooMuch(t, g) then
      if |g.names| == 1 then [Debt(g.names[0], if TooBig(t, g.names) then FileTooLarge else DiffTooLarge)] else []
    else if g.residual then Unexposed(Concealed(t, g, |g.names|)) else []
  }

  ghost function AllOwes(t: Task, gs: seq<Group>): seq<Debt> {
    if gs == [] then [] else AllOwes(t, gs[..|gs| - 1]) + Owes(t, gs[|gs| - 1])
  }

  /** The rows of a partition: its group's paths in order, each with exactly the requested lines its diff shows. */
  ghost predicate ScopeFor(t: Task, g: Group, scope: seq<Row>, n: nat)
    requires n <= |g.names|
  {
    if n == 0 then scope == []
    else if Showing(t, g, g.names[n - 1]) then
      && scope != []
      && var last := scope[|scope| - 1];
         && last.path == g.names[n - 1] && (last.path in t.objects ==> last.blob == t.objects[last.path].blob)
         && (forall line :: line in last.lines <==> Shows(t, g, last.path, line))
         && ScopeFor(t, g, scope[..|scope| - 1], n - 1)
    else ScopeFor(t, g, scope, n - 1)
  }

  ghost predicate PartitionFor(t: Task, g: Group, number: nat, p: Partition) {
    && p.paths == g.names && p.residual == g.residual && p.number == number
    && p.diffBytes == t.diff(g.names, g.residual).bytes && ScopeFor(t, g, p.scope, |g.names|)
    && p.identity == Identity(t.subject, p.scope, number, g.residual)
  }

  ghost predicate PartitionsFor(t: Task, gs: seq<Group>, number: nat, ps: seq<Partition>) {
    var shown := Reviewables(t, gs);
    |ps| == |shown| && forall k :: 0 <= k < |ps| ==> PartitionFor(t, shown[k], number + k, ps[k])
  }

  // ----- one group --------------------------------------------------------------------------------------

  lemma ShowsIs(t: Task, g: Group, path: Path, line: int)
    ensures Shows(t, g, path, line) <==> line in Seen(t, g.names, g.residual, path)
    ensures Conceals(t, g, path, line) <==> line in Lines(t, path) - Seen(t, g.names, g.residual, path)
  {
    WantsIs(t, path, line);
    hide Wants, Lines;
  }

  lemma ShowingIs(t: Task, g: Group, path: Path)
    ensures Showing(t, g, path) <==> Seen(t, g.names, g.residual, path) != {}
    ensures Concealing(t, g, path) <==> Lines(t, path) - Seen(t, g.names, g.residual, path) != {}
  {
    var seen := Seen(t, g.names, g.residual, path);
    var hidden := Lines(t, path) - seen;
    forall line ensures Shows(t, g, path, line) <==> line in seen
                ensures Conceals(t, g, path, line) <==> line in hidden
    {
      ShowsIs(t, g, path, line);
    }
    hide Shows, Conceals, Seen, Lines;
    if seen != {} {
      var line := Member(seen);
      assert Shows(t, g, path, line);
    }
    if hidden != {} {
      var line := Member(hidden);
      assert Conceals(t, g, path, line);
    }
  }

  lemma {:induction false} SumBytesIs(t: Task, names: seq<Path>)
    ensures SumBytes(t, names) == Bytes(t, names)
  {
    if names != [] {
      SumBytesIs(t, names[..|names| - 1]);
    }
  }

  lemma DividesIs(t: Task, g: Group)
    ensures TooMuch(t, g) <==> Divides(t, g.names, g.residual)
    ensures TooBig(t, g.names) <==> Oversized(t, g.names)
  {
    SumBytesIs(t, g.names);
    hide Bytes, SumBytes;
  }

  lemma {:induction false} ConcealedIs(t: Task, g: Group, n: nat)
    requires n <= |g.names|
    ensures Concealed(t, g, n) == RemainingTo(t, g.names, g.residual, n)
  {
    hide Showing, Concealing, Seen, Lines;
    if n > 0 {
      ConcealedIs(t, g, n - 1);
      ShowingIs(t, g, g.names[n - 1]);
    }
  }

  lemma {:induction false} ScopeIs(t: Task, g: Group, n: nat)
    requires n <= |g.names|
    ensures ScopeFor(t, g, ScopeTo(t, g.names, g.residual, n), n)
    ensures ScopeTo(t, g.names, g.residual, n) != [] <==> exists path <- g.names[..n] :: Showing(t, g, path)
  {
    hide Showing, Seen, Shows;
    if n > 0 {
      var path := g.names[n - 1];
      ScopeIs(t, g, n - 1);
      ShowingIs(t, g, path);
      assert g.names[..n] == g.names[..n - 1] + [path];
      forall line ensures Shows(t, g, path, line) <==> line in Seen(t, g.names, g.residual, path) {
        ShowsIs(t, g, path, line);
      }
      var before, scope := ScopeTo(t, g.names, g.residual, n - 1), ScopeTo(t, g.names, g.residual, n);
      if Showing(t, g, path) {
        assert scope[..|scope| - 1] == before;
      }
    }
  }

  lemma HereIs(t: Task, g: Group, number: nat)
    requires !TooMuch(t, g)
    ensures PartitionsFor(t, [g], number, Here(t, g.names, g.residual, number))
  {
    hide ScopeFor, ScopeTo, Showing, TooMuch;
    ScopeIs(t, g, |g.names|);
    assert g.names[..|g.names|] == g.names;
    assert Reviewables(t, [g][..0]) == [];
  }

  // ----- the whole cut ----------------------------------------------------------------------------------

  lemma {:induction false} ReviewablesConcat(t: Task, a: seq<Group>, b: seq<Group>)
    ensures Reviewables(t, a + b) == Reviewables(t, a) + Reviewables(t, b)
    ensures AllOwes(t, a + b) == AllOwes(t, a) + AllOwes(t, b)
  {
    hide Reviewable, Owes;
    if b == [] {
      assert a + b == a;
    } else {
      assert (a + b)[..|a + b| - 1] == a + b[..|b| - 1];
      ReviewablesConcat(t, a, b[..|b| - 1]);
    }
  }

  lemma PartitionsConcat(t: Task, a: seq<Group>, b: seq<Group>, number: nat, p: seq<Partition>, q: seq<Partition>)
    requires PartitionsFor(t, a, number, p) && PartitionsFor(t, b, number + |p|, q)
    ensures PartitionsFor(t, a + b, number, p + q)
  {
    hide PartitionFor, Reviewables;
    ReviewablesConcat(t, a, b);
    var shown := Reviewables(t, a + b);
    forall k | 0 <= k < |p + q| ensures PartitionFor(t, shown[k], number + k, (p + q)[k]) {
      if k >= |p| {
        assert PartitionFor(t, Reviewables(t, b)[k - |p|], number + |p| + (k - |p|), q[k - |p|]);
      }
    }
  }

  lemma NoReviewables(t: Task, g: Group, number: nat)
    requires TooMuch(t, g)
    ensures PartitionsFor(t, [g], number, [])
  {
    hide TooMuch, Showing;
    assert Reviewables(t, [g][..0]) == [];
  }

  lemma OneOwes(t: Task, g: Group)
    ensures AllOwes(t, [g]) == Owes(t, g)
  {
    hide Owes;
    assert AllOwes(t, [g][..0]) == [];
  }

  /** Cutting makes of the groups taken up, in turn, exactly their partitions and their debts. */
  ghost predicate CutSo(t: Task, g: Group, number: nat, b: Built) {
    PartitionsFor(t, TakenUp(t, g), number, b.partitions) && b.debt == AllOwes(t, TakenUp(t, g))
  }

  lemma CutEmpty(t: Task, g: Group, number: nat)
    requires g.names == []
    ensures CutSo(t, g, number, Cut(t, g.names, g.residual, number))
  {
  }

  lemma CutSingle(t: Task, g: Group, number: nat)
    requires |g.names| == 1 && TooMuch(t, g)
    ensures CutSo(t, g, number, Cut(t, g.names, g.residual, number))
  {
    DividesIs(t, g);
    CutDivides(t, g.names, g.residual, number);
    NoReviewables(t, g, number);
    OneOwes(t, g);
    hide Cut, Divides, TooMuch, TooBig, Oversized, PartitionsFor, AllOwes;
  }

  lemma TakesHalves(t: Task, g: Group)
    requires |g.names| > 1 && TooMuch(t, g)
    ensures TakenUp(t, g) ==
            [g] + (TakenUp(t, Group(g.names[..|g.names| / 2], g.residual)) +
                   TakenUp(t, Group(g.names[|g.names| / 2..], g.residual)))
  {
    hide TooMuch;
  }

  lemma CutHalves(t: Task, g: Group, number: nat, low: Built, high: Built)
    requires |g.names| > 1 && TooMuch(t, g)
    requires CutSo(t, Group(g.names[..|g.names| / 2], g.residual), number, low)
    requires CutSo(t, Group(g.names[|g.names| / 2..], g.residual), number + |low.partitions|, high)
    ensures CutSo(t, g, number, Join(low, high))
  {
    hide TooMuch, PartitionsFor, AllOwes, TakenUp, Reviewables, Owes;
    var m := |g.names| / 2;
    var a, b := TakenUp(t, Group(g.names[..m], g.residual)), TakenUp(t, Group(g.names[m..], g.residual));
    TakesHalves(t, g);
    NoReviewables(t, g, number);
    OneOwes(t, g);
    NothingOwed(t, g);
    PartitionsConcat(t, a, b, number, low.partitions, high.partitions);
    ReviewablesConcat(t, a, b);
    PartitionsConcat(t, [g], a + b, number, [], low.partitions + high.partitions);
    ReviewablesConcat(t, [g], a + b);
    assert [] + (low.partitions + high.partitions) == low.partitions + high.partitions;
  }

  lemma NothingOwed(t: Task, g: Group)
    requires |g.names| > 1 && TooMuch(t, g)
    ensures Owes(t, g) == []
  {
  }

  lemma CutLeaf(t: Task, g: Group, number: nat, rest: Built)
    requires g.names != [] && !TooMuch(t, g)
    requires var here := Here(t, g.names, g.residual, number);
             if g.residual then rest == Built([], Unexposed(Concealed(t, g, |g.names|)))
             else CutSo(t, Group(Concealed(t, g, |g.names|), true), number + |here|, rest)
    ensures CutSo(t, g, number, Join(Built(Here(t, g.names, g.residual, number), []), rest))
  {
    var here := Here(t, g.names, g.residual, number);
    var more := if g.residual then [] else TakenUp(t, Group(Concealed(t, g, |g.names|), true));
    HereIs(t, g, number);
    OneOwes(t, g);
    NothingMore(t, number + |here|);
    PartitionsConcat(t, [g], more, number, here, rest.partitions);
    ReviewablesConcat(t, [g], more);
    assert TakenUp(t, g) == [g] + more;
    hide TooMuch, PartitionsFor, AllOwes, TakenUp, Here, Concealed;
  }

  lemma NothingMore(t: Task, number: nat)
    ensures PartitionsFor(t, [], number, []) && AllOwes(t, []) == []
  {
  }

  lemma {:induction false} CutIs(t: Task, g: Group, number: nat)
    ensures CutSo(t, g, number, Cut(t, g.names, g.residual, number))
    decreases if g.residual then 0 else 1, |g.names|
  {
    hide Cut, CutSo, Divides, TooMuch, Here, RemainingTo, Concealed;
    var names, residual := g.names, g.residual;
    DividesIs(t, g);
    if names == [] {
      CutEmpty(t, g, number);
    } else if TooMuch(t, g) {
      CutDivides(t, names, residual, number);
      if |names| == 1 {
        CutSingle(t, g, number);
      } else {
        var m := |names| / 2;
        var low := Cut(t, names[..m], residual, number);
        CutIs(t, Group(names[..m], residual), number);
        CutIs(t, Group(names[m..], residual), number + |low.partitions|);
        CutHalves(t, g, number, low, Cut(t, names[m..], residual, number + |low.partitions|));
      }
    } else {
      var here, rest := Here(t, names, residual, number), RemainingTo(t, names, residual, |names|);
      CutFits(t, names, residual, number);
      ConcealedIs(t, g, |names|);
      if residual {
        CutLeaf(t, g, number, Built([], Unexposed(rest)));
        JoinsNothing(here, Unexposed(rest));
        assert rest == [] ==> Unexposed(rest) == [];
      } else {
        CutIs(t, Group(rest, true), number + |here|);
        CutLeaf(t, g, number, Cut(t, rest, true, number + |here|));
        CutNone(t, here, rest, number + |here|);
      }
    }
  }

  lemma JoinsNothing(here: seq<Partition>, debt: seq<Debt>)
    ensures Join(Built(here, []), Built([], debt)) == Built(here, debt)
  {
  }

  lemma CutNone(t: Task, here: seq<Partition>, rest: seq<Path>, number: nat)
    ensures rest == [] ==> Join(Built(here, []), Cut(t, rest, true, number)) == Built(here, [])
  {
  }

  // ----- the construction -------------------------------------------------------------------------------

  /** The paths of a request that are available, or are not, in order. */
  ghost function Split(t: Task, names: seq<Path>, available: bool): seq<Path> {
    if names == [] then []
    else
      Split(t, names[..|names| - 1], available) +
          if Available(t, names[|names| - 1]) == available then [names[|names| - 1]] else []
  }

  /** Unavailable paths are in debt; the others are taken up together, in order, as the first group. */
  ghost predicate Constructs(t: Task, b: Built) {
    exists names, cut ::
      && InOrder(t, names) && CutSo(t, Group(Split(t, names, true), false), 0, cut)
      && b.partitions == cut.partitions && b.debt == Lacking(Split(t, names, false)) + cut.debt
  }

  ghost function Lacking(names: seq<Path>): seq<Debt> {
    seq(|names|, k requires 0 <= k < |names| => Debt(names[k], Unavailable))
  }

  lemma {:induction false} SplitIs(t: Task, names: seq<Path>)
    ensures Split(t, names, true) == Sift(t, names) && Lacking(Split(t, names, false)) == Unfit(t, names)
  {
    if names != [] {
      SplitIs(t, names[..|names| - 1]);
      AvailableIs(t, names[|names| - 1]);
      hide Available, Eligible;
    }
  }

  /** A construction does exactly this. */
  lemma ConstructIs(t: Task)
    ensures Constructs(t, Construct(t))
  {
    hide Cut, CutSo, Names, InOrder;
    var names := Names(t);
    NamesInOrder(t);
    SplitIs(t, names);
    CutIs(t, Group(Sift(t, names), false), 0);
  }
}
