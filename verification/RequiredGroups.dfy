/** The required pull requests, grouped by their explicit unions and ordered by the rows of the list. */
module RequiredGroups {
  import opened Prelude
  import opened Sorting

  datatype PrRow = PrRow(pr: int, row: int)
  datatype Required = Required(rows: seq<PrRow>, unions: seq<seq<int>>)
  datatype Group = Group(prs: seq<int>, row: int)

  datatype Refusal = DuplicateRow | InvalidUnion

  function Prs(rows: seq<PrRow>): seq<int> {
    seq(|rows|, i requires 0 <= i < |rows| => rows[i].pr)
  }

  function RowNumbers(rows: seq<PrRow>): seq<int> {
    seq(|rows|, i requires 0 <= i < |rows| => rows[i].row)
  }

  predicate NoRepeat(s: seq<int>) {
    |Elements(s)| == |s|
  }

  function RowOf(rows: seq<PrRow>, pr: int): int {
    if rows == [] then 0 else if rows[|rows| - 1].pr == pr then rows[|rows| - 1].row else RowOf(rows[..|rows| - 1], pr)
  }

  function LeastRow(rows: seq<PrRow>, prs: seq<int>): int
    requires prs != []
  {
    var row := RowOf(rows, prs[|prs| - 1]);
    if |prs| == 1 then row
    else
      var before := LeastRow(rows, prs[..|prs| - 1]);
      if before < row then before else row
  }

  predicate UnionFits(req: Required, union: seq<int>, members: set<int>) {
    union != [] && (forall pr <- union :: pr in Prs(req.rows)) && (forall pr <- union :: pr !in members)
  }

  datatype Unions = Unions(groups: seq<Group>, members: set<int>)

  function IntLe(a: int, b: int): bool { a <= b }

  predicate GroupLe(a: Group, b: Group) { a.row <= b.row }

  /** The first n explicit unions, refused at the first that is empty, unknown or overlapping. */
  function UnionsTo(req: Required, n: nat): Result<Unions, Refusal>
    requires n <= |req.unions|
  {
    if n == 0 then Ok(Unions([], {}))
    else
      var before, union := UnionsTo(req, n - 1), req.unions[n - 1];
      if before.Err? then before
      else if !UnionFits(req, union, before.value.members) then Err(InvalidUnion)
      else Ok(Unions(before.value.groups + [Group(Sort(union, IntLe), LeastRow(req.rows, union))],
                     before.value.members + Elements(union)))
  }

  function Singles(rows: seq<PrRow>, members: set<int>, n: nat): seq<Group>
    requires n <= |rows|
  {
    if n == 0 then []
    else if rows[n - 1].pr in members then Singles(rows, members, n - 1)
    else Singles(rows, members, n - 1) + [Group([rows[n - 1].pr], rows[n - 1].row)]
  }

  function Groups(req: Required): Result<seq<Group>, Refusal> {
    if !NoRepeat(Prs(req.rows)) || !NoRepeat(RowNumbers(req.rows)) then Err(DuplicateRow)
    else
      var unions := UnionsTo(req, |req.unions|);
      if unions.Err? then Err(unions.error)
      else Ok(Sort(unions.value.groups + Singles(req.rows, unions.value.members, |req.rows|), GroupLe))
  }

  method GroupRequired(req: Required) returns (r: Result<seq<Group>, Refusal>)
    ensures r == Groups(req)
  {
    hide UnionsTo, Sort, LeastRow, UnionFits, NoRepeat;
    if !NoRepeat(Prs(req.rows)) || !NoRepeat(RowNumbers(req.rows)) {
      return Err(DuplicateRow);
    }
    var members: set<int>, result: seq<Group> := {}, [];
    UnionsStart(req);
    for i := 0 to |req.unions|
      invariant UnionsTo(req, i) == Ok(Unions(result, members))
    {
      var union := req.unions[i];
      UnionsStep(req, i);
      if !UnionFits(req, union, members) {
        UnionsStop(req, i + 1, |req.unions|);
        return Err(InvalidUnion);
      }
      FittingUnion(req, union, members);
      members := members + Elements(union);
      result := result + [Group(Sort(union, IntLe), LeastRow(req.rows, union))];
    }
    ghost var unions := result;
    assert unions + [] == unions;
    for i := 0 to |req.rows|
      invariant result == unions + Singles(req.rows, members, i)
    {
      if req.rows[i].pr !in members {
        result := result + [Group([req.rows[i].pr], req.rows[i].row)];
      }
    }
    r := Ok(Sort(result, GroupLe));
  }

  lemma UnionsStart(req: Required)
    ensures UnionsTo(req, 0) == Ok(Unions([], {}))
  {
  }

  lemma UnionsStep(req: Required, i: nat)
    requires i < |req.unions| && UnionsTo(req, i).Ok?
    ensures var before, union := UnionsTo(req, i).value, req.unions[i];
            UnionsTo(req, i + 1) ==
            if !UnionFits(req, union, before.members) then Err(InvalidUnion)
            else Ok(Unions(before.groups + [Group(Sort(union, IntLe), LeastRow(req.rows, union))],
                           before.members + Elements(union)))
  {
  }

  lemma {:induction false} UnionsStop(req: Required, i: nat, n: nat)
    requires i <= n <= |req.unions| && UnionsTo(req, i).Err?
    ensures UnionsTo(req, n) == UnionsTo(req, i)
  {
    if i < n {
      UnionsStop(req, i, n - 1);
    }
  }

  lemma FittingUnion(req: Required, union: seq<int>, members: set<int>)
    requires UnionFits(req, union, members)
    ensures union != []
  {
  }

  /** Groups share no pull request. */
  ghost predicate DisjointGroups(groups: seq<Group>) {
    Apart(groups, Overlap)
  }

  predicate Overlap(a: Group, b: Group) {
    exists pr <- a.prs :: pr in b.prs
  }

  ghost predicate Grouped(groups: seq<Group>, pr: int) {
    exists g <- groups :: pr in g.prs
  }

  lemma {:induction false} UnionsGroup(req: Required, n: nat)
    requires n <= |req.unions| && UnionsTo(req, n).Ok?
    ensures var u := UnionsTo(req, n).value;
            && DisjointGroups(u.groups) && (forall pr :: Grouped(u.groups, pr) <==> pr in u.members)
            && (forall pr <- u.members :: pr in Prs(req.rows)) && (forall g <- u.groups :: g.prs != [])
  {
    hide LeastRow, Sort;
    if n > 0 {
      UnionsGroup(req, n - 1);
      var before, union := UnionsTo(req, n - 1).value, req.unions[n - 1];
      var g := Group(Sort(union, IntLe), LeastRow(req.rows, union));
      SortKeeps(union, IntLe);
      forall pr ensures Grouped(before.groups + [g], pr) <==> Grouped(before.groups, pr) || pr in g.prs {
        AppendGroup(before.groups, g, pr);
      }
      AppendApart(before.groups, g);
    }
  }

  lemma AppendGroup(groups: seq<Group>, g: Group, pr: int)
    ensures Grouped(groups + [g], pr) <==> Grouped(groups, pr) || pr in g.prs
  {
    assert (groups + [g])[|groups|] == g;
    if Grouped(groups, pr) {
      var h :| h in groups && pr in h.prs;
      assert h in groups + [g];
    }
  }

  lemma AppendApart(groups: seq<Group>, g: Group)
    requires DisjointGroups(groups) && forall pr <- g.prs :: !Grouped(groups, pr)
    ensures DisjointGroups(groups + [g])
  {
    forall i | 0 <= i < |groups| ensures !Overlap(groups[i], g) && !Overlap(g, groups[i]) {
      assert groups[i] in groups;
    }
  }

  lemma {:induction false} SinglesGroup(rows: seq<PrRow>, members: set<int>, n: nat)
    requires n <= |rows| && Distinct(Prs(rows))
    ensures var s := Singles(rows, members, n);
            && DisjointGroups(s) && (forall pr :: Grouped(s, pr) <==> pr in Prs(rows)[..n] && pr !in members)
            && (forall g <- s :: g.prs != [])
  {
    if n > 0 {
      SinglesGroup(rows, members, n - 1);
      var before, g := Singles(rows, members, n - 1), Group([rows[n - 1].pr], rows[n - 1].row);
      assert Prs(rows)[..n] == Prs(rows)[..n - 1] + [rows[n - 1].pr];
      if rows[n - 1].pr !in members {
        forall pr ensures Grouped(before + [g], pr) <==> Grouped(before, pr) || pr == rows[n - 1].pr {
          AppendGroup(before, g, pr);
        }
        assert forall k :: 0 <= k < n - 1 ==> Prs(rows)[k] != Prs(rows)[n - 1];
        assert !Grouped(before, rows[n - 1].pr);
        AppendApart(before, g);
      }
    }
  }

  /**
   Accepted groups hold every required pull request exactly once and nothing else, in the order of their first rows.
   */
  lemma GroupsPartitionPrs(req: Required)
    requires Groups(req).Ok?
    ensures var groups := Groups(req).value;
            && DisjointGroups(groups) && (forall pr :: Grouped(groups, pr) <==> pr in Prs(req.rows))
            && (forall g <- groups :: g.prs != []) && Ordered(groups, GroupLe)
  {
    hide Sort, UnionsTo, Singles, Overlap;
    var u := UnionsTo(req, |req.unions|).value;
    var singles := Singles(req.rows, u.members, |req.rows|);
    UnionsGroup(req, |req.unions|);
    CountElements(Prs(req.rows));
    SinglesGroup(req.rows, u.members, |req.rows|);
    assert Prs(req.rows)[..|req.rows|] == Prs(req.rows);
    JoinGroups(u.groups, singles);
    SortKeepsApart(u.groups + singles, GroupLe, Overlap);
    SortKeeps(u.groups + singles, GroupLe);
    SortOrders(u.groups + singles, GroupLe);
    forall pr
      ensures Grouped(Sort(u.groups + singles, GroupLe), pr) <==> Grouped(u.groups, pr) || Grouped(singles, pr)
    {
      SameGrouped(u.groups, singles, Sort(u.groups + singles, GroupLe), pr);
    }
  }

  lemma SameGrouped(a: seq<Group>, b: seq<Group>, sorted: seq<Group>, pr: int)
    requires forall g :: g in sorted <==> g in a + b
    ensures Grouped(sorted, pr) <==> Grouped(a, pr) || Grouped(b, pr)
  {
    if Grouped(a, pr) {
      var g :| g in a && pr in g.prs;
      assert g in a + b;
    }
    if Grouped(b, pr) {
      var g :| g in b && pr in g.prs;
      assert g in a + b;
    }
  }

  lemma JoinGroups(a: seq<Group>, b: seq<Group>)
    requires DisjointGroups(a) && DisjointGroups(b) && forall pr :: !(Grouped(a, pr) && Grouped(b, pr))
    ensures DisjointGroups(a + b)
  {
    forall i, j | 0 <= i < |a| && 0 <= j < |b| ensures !Overlap(a[i], b[j]) && !Overlap(b[j], a[i]) {
      assert forall pr <- a[i].prs :: Grouped(a, pr);
      assert forall pr <- b[j].prs :: Grouped(b, pr);
    }
  }

  // ----- what the groups are, in terms of the list ------------------------------------------------------

  /** Two rows share a pull request or a row number. */
  ghost predicate Repeats(rows: seq<PrRow>) {
    exists i, j :: 0 <= i < j < |rows| && (rows[i].pr == rows[j].pr || rows[i].row == rows[j].row)
  }

  ghost predicate Listed(rows: seq<PrRow>, pr: int) {
    exists r <- rows :: r.pr == pr
  }

  /** An explicit union that is empty, names an unknown pull request, or one an earlier union has. */
  ghost predicate BadUnion(req: Required, k: nat)
    requires k < |req.unions|
  {
    || req.unions[k] == []
    || (exists pr <- req.unions[k] :: !Listed(req.rows, pr))
    || (exists m :: 0 <= m < k && exists pr <- req.unions[m] :: pr in req.unions[k])
  }

  /** Standing in no union. */
  ghost predicate Alone(req: Required, pr: int) {
    forall union <- req.unions :: pr !in union
  }

  /** The group of some pull requests: in ascending order, at the least row any of them has. */
  ghost predicate GroupOf(rows: seq<PrRow>, prs: seq<int>, g: Group) {
    && multiset(g.prs) == multiset(prs) && (forall i, j :: 0 <= i < j < |g.prs| ==> g.prs[i] <= g.prs[j])
    && (exists r <- rows :: r.pr in prs && r.row == g.row) && (forall r <- rows :: r.pr in prs ==> g.row <= r.row)
  }

  ghost predicate FromList(req: Required, g: Group) {
    || (exists k :: 0 <= k < |req.unions| && GroupOf(req.rows, req.unions[k], g))
    || (exists r <- req.rows :: Alone(req, r.pr) && g == Group([r.pr], r.row))
  }

  ghost predicate HasGroup(rows: seq<PrRow>, prs: seq<int>, groups: seq<Group>) {
    exists g <- groups :: GroupOf(rows, prs, g)
  }

  /** One group for every union and one for every pull request in none, and no other, in the order of their rows. */
  ghost predicate GroupsFor(req: Required, groups: seq<Group>) {
    && (forall g <- groups :: FromList(req, g))
    && (forall k :: 0 <= k < |req.unions| ==> HasGroup(req.rows, req.unions[k], groups))
    && (forall r <- req.rows :: Alone(req, r.pr) ==> Group([r.pr], r.row) in groups)
    && (forall i, j :: 0 <= i < j < |groups| ==> groups[i].row < groups[j].row)
  }

  lemma RepeatsIff(rows: seq<PrRow>)
    ensures Repeats(rows) <==> !NoRepeat(Prs(rows)) || !NoRepeat(RowNumbers(rows))
  {
    CountElements(Prs(rows));
    CountElements(RowNumbers(rows));
    assert forall i :: 0 <= i < |rows| ==> Prs(rows)[i] == rows[i].pr && RowNumbers(rows)[i] == rows[i].row;
    if Repeats(rows) {
      var i, j :| 0 <= i < j < |rows| && (rows[i].pr == rows[j].pr || rows[i].row == rows[j].row);
      assert Prs(rows)[i] == Prs(rows)[j] || RowNumbers(rows)[i] == RowNumbers(rows)[j];
    } else {
      assert Distinct(Prs(rows)) && Distinct(RowNumbers(rows));
    }
  }

  lemma ListedIff(rows: seq<PrRow>, pr: int)
    ensures Listed(rows, pr) <==> pr in Prs(rows)
  {
    if pr in Prs(rows) {
      var i :| 0 <= i < |rows| && Prs(rows)[i] == pr;
      assert rows[i] in rows;
    }
    if Listed(rows, pr) {
      var r :| r in rows && r.pr == pr;
      var i :| 0 <= i < |rows| && rows[i] == r;
      assert Prs(rows)[i] == pr;
    }
  }

  lemma {:induction false} RowOfIs(rows: seq<PrRow>, r: PrRow)
    requires r in rows && !Repeats(rows)
    ensures RowOf(rows, r.pr) == r.row
  {
    var k, i := |rows| - 1, 0;
    i :| 0 <= i < |rows| && rows[i] == r;
    if i < k {
      assert rows[i].pr != rows[k].pr;
      assert rows[..k][i] == r;
      assert !Repeats(rows[..k]) by {
        assert forall m :: 0 <= m < k ==> rows[..k][m] == rows[m];
      }
      RowOfIs(rows[..k], r);
    }
  }

  /** The least row is one of a member's, and none of them is less. */
  lemma {:induction false} LeastRowIs(rows: seq<PrRow>, prs: seq<int>)
    requires prs != [] && !Repeats(rows) && forall pr <- prs :: Listed(rows, pr)
    ensures exists r <- rows :: r.pr in prs && r.row == LeastRow(rows, prs)
    ensures forall r <- rows :: r.pr in prs ==> LeastRow(rows, prs) <= r.row
  {
    hide Repeats, RowOf;
    var k := |prs| - 1;
    assert Listed(rows, prs[k]);
    var last :| last in rows && last.pr == prs[k];
    RowOfIs(rows, last);
    assert prs == prs[..k] + [prs[k]];
    if k > 0 {
      LeastRowIs(rows, prs[..k]);
      var r :| r in rows && r.pr in prs[..k] && r.row == LeastRow(rows, prs[..k]);
      assert LeastRow(rows, prs) == r.row || LeastRow(rows, prs) == last.row;
    } else {
      assert LeastRow(rows, prs) == last.row;
    }
    forall r | r in rows && r.pr in prs ensures LeastRow(rows, prs) <= r.row {
      if r.pr == prs[k] {
        RowOfIs(rows, r);
      }
    }
  }

  /** What a fitting union becomes. */
  function MadeOf(req: Required, k: nat): Group
    requires k < |req.unions| && req.unions[k] != []
  {
    Group(Sort(req.unions[k], IntLe), LeastRow(req.rows, req.unions[k]))
  }

  lemma MadeOfIs(req: Required, k: nat)
    requires k < |req.unions| && !BadUnion(req, k) && !Repeats(req.rows)
    ensures GroupOf(req.rows, req.unions[k], MadeOf(req, k))
  {
    hide Sort, LeastRow;
    LeastRowIs(req.rows, req.unions[k]);
    SortKeeps(req.unions[k], IntLe);
    SortOrders(req.unions[k], IntLe);
  }

  /** The loop over the unions accepts exactly good ones, makes each its group and remembers their members. */
  lemma {:induction false} UnionsAre(req: Required, n: nat)
    requires n <= |req.unions|
    ensures UnionsTo(req, n).Ok? <==> forall k :: 0 <= k < n ==> !BadUnion(req, k)
    ensures UnionsTo(req, n).Err? ==> UnionsTo(req, n).error == InvalidUnion
    ensures UnionsTo(req, n).Ok? ==>
              var u := UnionsTo(req, n).value;
              && |u.groups| == n && (forall k :: 0 <= k < n ==> req.unions[k] != [] && u.groups[k] == MadeOf(req, k))
              && forall pr :: pr in u.members <==> exists k :: 0 <= k < n && pr in req.unions[k]
  {
    hide Sort, LeastRow;
    if n > 0 {
      UnionsAre(req, n - 1);
      if UnionsTo(req, n - 1).Ok? {
        var before, union := UnionsTo(req, n - 1).value, req.unions[n - 1];
        assert UnionFits(req, union, before.members) <==> !BadUnion(req, n - 1) by {
          forall pr ensures Listed(req.rows, pr) <==> pr in Prs(req.rows) {
            ListedIff(req.rows, pr);
          }
        }
      }
    }
  }

  lemma {:induction false} SinglesAre(rows: seq<PrRow>, members: set<int>, n: nat)
    requires n <= |rows|
    ensures forall g :: g in Singles(rows, members, n) <==>
                        exists i :: 0 <= i < n && rows[i].pr !in members && g == Group([rows[i].pr], rows[i].row)
  {
    if n > 0 {
      SinglesAre(rows, members, n - 1);
    }
  }

  /** Two groups of the list at one row are the same group. */
  lemma RowsDiffer(req: Required, groups: seq<Group>)
    requires !Repeats(req.rows) && Ordered(groups, GroupLe) && DisjointGroups(groups)
    requires forall g <- groups :: exists r <- req.rows :: r.pr in g.prs && r.row == g.row
    ensures forall i, j :: 0 <= i < j < |groups| ==> groups[i].row < groups[j].row
  {
    forall i, j | 0 <= i < j < |groups| ensures groups[i].row < groups[j].row {
      assert groups[i] in groups && groups[j] in groups;
      var r :| r in req.rows && r.pr in groups[i].prs && r.row == groups[i].row;
      var t :| t in req.rows && t.pr in groups[j].prs && t.row == groups[j].row;
      assert !Overlap(groups[i], groups[j]);
      assert r.pr != t.pr;
    }
  }

  lemma RowIsOwn(req: Required, g: Group)
    requires FromList(req, g)
    ensures exists r <- req.rows :: r.pr in g.prs && r.row == g.row
  {
    if k :| 0 <= k < |req.unions| && GroupOf(req.rows, req.unions[k], g) {
      var r :| r in req.rows && r.pr in req.unions[k] && r.row == g.row;
      assert r.pr in multiset(g.prs);
    } else {
      var r :| r in req.rows && Alone(req, r.pr) && g == Group([r.pr], r.row);
    }
  }

  /** A repeated row and a bad union are refused, in that order; everything else is grouped as the list says. */
  lemma GroupingIs(req: Required)
    ensures Groups(req) == Err(DuplicateRow) <==> Repeats(req.rows)
    ensures Groups(req) == Err(InvalidUnion) <==>
            !Repeats(req.rows) && exists k :: 0 <= k < |req.unions| && BadUnion(req, k)
    ensures Groups(req).Ok? ==> GroupsFor(req, Groups(req).value)
  {
    hide UnionsTo, Sort, LeastRow, BadUnion, GroupsFor, NoRepeat, Repeats;
    RepeatsIff(req.rows);
    UnionsAre(req, |req.unions|);
    if Groups(req).Ok? {
      GroupsAre(req);
    }
  }

  lemma GroupsAre(req: Required)
    requires Groups(req).Ok? && !Repeats(req.rows)
    ensures GroupsFor(req, Groups(req).value)
  {
    hide UnionsTo, Singles, Sort, LeastRow, BadUnion, GroupOf, FromList, Alone, NoRepeat, Repeats, MadeOf;
    UnionsAre(req, |req.unions|);
    var u, sorted := UnionsTo(req, |req.unions|).value, Groups(req).value;
    var singles := Singles(req.rows, u.members, |req.rows|);
    SortKeeps(u.groups + singles, GroupLe);
    SortOrders(u.groups + singles, GroupLe);
    SinglesAre(req.rows, u.members, |req.rows|);
    forall pr ensures Alone(req, pr) <==> pr !in u.members {
      AloneIff(req, pr);
    }
    forall k | 0 <= k < |req.unions| ensures GroupOf(req.rows, req.unions[k], u.groups[k]) {
      MadeOfIs(req, k);
    }
    forall g | g in sorted ensures FromList(req, g) {
      ItIsFromList(req, u.groups, singles, g);
    }
    ItIsComplete(req, u.groups, singles, u.members, sorted);
    GroupsPartitionPrs(req);
    forall g | g in sorted ensures exists r <- req.rows :: r.pr in g.prs && r.row == g.row {
      RowIsOwn(req, g);
    }
    RowsDiffer(req, sorted);
  }

  lemma ItIsComplete(req: Required, made: seq<Group>, singles: seq<Group>, members: set<int>, sorted: seq<Group>)
    requires |made| == |req.unions| && forall g :: g in sorted <==> g in made + singles
    requires forall k :: 0 <= k < |made| ==> GroupOf(req.rows, req.unions[k], made[k])
    requires forall pr :: Alone(req, pr) <==> pr !in members
    requires forall g :: g in singles <==>
                         exists i :: 0 <= i < |req.rows| && req.rows[i].pr !in members
                                     && g == Group([req.rows[i].pr], req.rows[i].row)
    ensures forall k :: 0 <= k < |req.unions| ==> HasGroup(req.rows, req.unions[k], sorted)
    ensures forall r <- req.rows :: Alone(req, r.pr) ==> Group([r.pr], r.row) in sorted
  {
    hide GroupOf, Alone;
    forall k | 0 <= k < |req.unions| ensures HasGroup(req.rows, req.unions[k], sorted) {
      assert made[k] in made + singles && made[k] in sorted && GroupOf(req.rows, req.unions[k], made[k]);
    }
    forall r | r in req.rows && Alone(req, r.pr) ensures Group([r.pr], r.row) in sorted {
      var i :| 0 <= i < |req.rows| && req.rows[i] == r;
      assert Group([r.pr], r.row) in singles;
    }
  }

  lemma AloneIff(req: Required, pr: int)
    ensures Alone(req, pr) <==> !exists k :: 0 <= k < |req.unions| && pr in req.unions[k]
  {
    if k :| 0 <= k < |req.unions| && pr in req.unions[k] {
      assert req.unions[k] in req.unions;
    }
  }

  lemma ItIsFromList(req: Required, made: seq<Group>, singles: seq<Group>, g: Group)
    requires |made| == |req.unions| && g in made + singles
    requires forall k :: 0 <= k < |made| ==> GroupOf(req.rows, req.unions[k], made[k])
    requires g in singles ==> exists r <- req.rows :: Alone(req, r.pr) && g == Group([r.pr], r.row)
    ensures FromList(req, g)
  {
    hide GroupOf, Alone;
    if g !in singles {
      var k :| 0 <= k < |made| && made[k] == g;
    }
  }
}
