/** Git provenance of credit: following a path along first-parent history through exact renames. */
module Lineage {
  import opened Prelude

  type Path = string
  type Blob = string
  type Tree = map<Path, Blob>

  datatype Status = Added | Modified | TypeChanged | Deleted | Renamed(score: nat) | Copied(score: nat)

  datatype Change = Change(status: Status, source: Path, destination: Path)

  /** A commit with its first parent, its tree and the name-status diff against that parent. */
  datatype Commit = Root(tree: Tree) | Child(parent: Commit, tree: Tree, changes: seq<Change>)

  function Copies(tree: Tree, blob: Blob): set<Path> {
    set p | p in tree && tree[p] == blob
  }

  /** The changes of one commit applied to a path, from the i-th change on. */
  function Step(before: Tree, after: Tree, changes: seq<Change>, i: nat, current: Path): Option<Path>
    requires i <= |changes|
    decreases |changes| - i
  {
    if i == |changes| then Some(current)
    else
      var change := changes[i];
      if change.source != current then Step(before, after, changes, i + 1, current)
      else if change.status.Deleted? || change.status.Copied? then None
      else if change.status.Renamed? then
        if change.status.score != 100 || current !in before
           || |Copies(before, before[current])| != 1 || |Copies(after, before[current])| != 1
        then None
        else Step(before, after, changes, i + 1, change.destination)
      else Step(before, after, changes, i + 1, current)
  }

  predicate InChain(start: Commit, tip: Commit) {
    start == tip || (tip.Child? && InChain(start, tip.parent))
  }

  /** Where a path of the old commit has got to by the new one, before the final tree check. */
  function Follow(start: Commit, tip: Commit, name: Path): Option<Path> {
    if start == tip then Some(name)
    else if tip.Root? then None
    else
      var middle := Follow(start, tip.parent, name);
      if middle.None? then None else Step(tip.parent.tree, tip.tree, tip.changes, 0, middle.value)
  }

  function LineageOf(start: Commit, tip: Commit, name: Path): Option<Path> {
    if name !in start.tree || !InChain(start, tip) then None
    else
      var current := Follow(start, tip, name);
      if current.Some? && current.value in tip.tree then current else None
  }

  /** The first-parent chain, newest first. */
  function Chain(commit: Commit): (chain: seq<Commit>)
    ensures |chain| >= 1 && chain[0] == commit
    ensures forall i :: 0 <= i < |chain| - 1 ==> chain[i].Child? && chain[i].parent == chain[i + 1]
    ensures forall c :: c in chain <==> InChain(c, commit)
  {
    if commit.Root? then [commit] else [commit] + Chain(commit.parent)
  }

  method StepThrough(commit: Commit, name: Path) returns (current: Option<Path>)
    requires commit.Child?
    ensures current == Step(commit.parent.tree, commit.tree, commit.changes, 0, name)
    ensures TruthfulDiff(commit.parent.tree, commit.tree, commit.changes) && name in commit.parent.tree ==>
              forall next :: current == Some(next) <==>
                Carries(commit.parent.tree, commit.tree, commit.changes, name, next)
  {
    if TruthfulDiff(commit.parent.tree, commit.tree, commit.changes) && name in commit.parent.tree {
      forall next ensures Step(commit.parent.tree, commit.tree, commit.changes, 0, name) == Some(next) <==>
                          Carries(commit.parent.tree, commit.tree, commit.changes, name, next)
      {
        StepIs(commit, name, next);
      }
    }
    var before, after, path := commit.parent.tree, commit.tree, name;
    for i := 0 to |commit.changes|
      invariant Step(before, after, commit.changes, 0, name) == Step(before, after, commit.changes, i, path)
    {
      var change := commit.changes[i];
      if change.source != path {
        continue;
      }
      if change.status.Deleted? || change.status.Copied? {
        return None;
      }
      if change.status.Renamed? {
        if change.status.score != 100 || path !in before
           || |Copies(before, before[path])| != 1 || |Copies(after, before[path])| != 1 {
          return None;
        }
        path := change.destination;
      }
    }
    current := Some(path);
  }

  method Position(chain: seq<Commit>, commit: Commit) returns (at: nat)
    requires commit in chain
    ensures at < |chain| && chain[at] == commit && commit !in chain[..at]
  {
    at := 0;
    while chain[at] != commit
      invariant 0 <= at < |chain| && commit !in chain[..at] && commit in chain[at..]
      decreases |chain| - at
    {
      at := at + 1;
    }
  }

  /** The walk of the source: from the old commit up the chain, one commit at a time. */
  method FindLineage(start: Commit, tip: Commit, name: Path) returns (current: Option<Path>)
    ensures current == LineageOf(start, tip, name)
    ensures Truthful(tip) ==>
              forall next :: current == Some(next) <==>
                InChain(start, tip) && name in start.tree && Carried(start, tip, name, next)
  {
    hide TruthfulDiff, Carries, Carried, Truthful, Step;
    if Truthful(tip) && InChain(start, tip) && name in start.tree {
      forall next ensures LineageOf(start, tip, name) == Some(next) <==> Carried(start, tip, name, next) {
        LineageIs(start, tip, name, next);
      }
    }
    if name !in start.tree {
      return None;
    }
    var chain := Chain(tip);
    if start !in chain {
      return None;
    }
    var at := Position(chain, start);
    var path, i := name, at;
    while i > 0
      invariant 0 <= i <= at && Follow(start, chain[i], name) == Some(path)
    {
      i := i - 1;
      assert chain[i] in chain[..at];
      var next := StepThrough(chain[i], path);
      if next.None? {
        StaysLost(start, chain, i, name);
        return None;
      }
      path := next.value;
    }
    current := if path in tip.tree then Some(path) else None;
  }

  lemma {:induction false} StaysLost(start: Commit, chain: seq<Commit>, i: nat, name: Path)
    requires i < |chain|
    requires forall k :: 0 <= k < i ==> chain[k].Child? && chain[k].parent == chain[k + 1] && chain[k] != start
    requires Follow(start, chain[i], name).None?
    ensures Follow(start, chain[0], name).None?
  {
    if i > 0 {
      StaysLost(start, chain, i - 1, name);
    }
  }

  // ----- truthful diffs ---------------------------------------------------------------------------------

  predicate Moves(change: Change) {
    change.status.Renamed? || change.status.Copied?
  }

  predicate Removes(change: Change) {
    change.status.Renamed? || change.status.Deleted?
  }

  ghost predicate TruthfulChange(before: Tree, after: Tree, change: Change) {
    match change.status
    case Added => change.source !in before && change.source in after
    case Modified => change.source in before && change.source in after
    case TypeChanged => change.source in before && change.source in after
    case Deleted => change.source in before && change.source !in after
    case Renamed(score) =>
      change.source in before && change.source !in after && change.destination !in before && change.destination in after
      && (score == 100 ==> before[change.source] == after[change.destination])
    case Copied(_) => change.source in before && change.destination !in before && change.destination in after
  }

  /** A name-status diff lists every vanished path once and gives every new path at most one origin. */
  ghost predicate TruthfulDiff(before: Tree, after: Tree, changes: seq<Change>) {
    && (forall c <- changes :: TruthfulChange(before, after, c))
    && (forall p :: p in before && p !in after ==> exists c <- changes :: Removes(c) && c.source == p)
    && (forall i, j :: 0 <= i < j < |changes| && Removes(changes[i]) && Removes(changes[j]) ==>
        changes[i].source != changes[j].source)
    && (forall i, j :: 0 <= i < j < |changes| && Moves(changes[i]) && Moves(changes[j]) ==>
        changes[i].destination != changes[j].destination)
  }

  ghost predicate Truthful(commit: Commit) {
    commit.Child? ==> Truthful(commit.parent) && TruthfulDiff(commit.parent.tree, commit.tree, commit.changes)
  }

  // ----- what a commit does to a path -------------------------------------------------------------------

  /** No change takes the path away or copies it. */
  ghost predicate Untouched(changes: seq<Change>, path: Path) {
    forall c <- changes :: c.source == path ==> c.status.Added? || c.status.Modified? || c.status.TypeChanged?
  }

  /** The path holds its blob, and no other path of the tree does. */
  ghost predicate OnlyHolder(tree: Tree, path: Path) {
    path in tree && forall p <- tree :: tree[p] == tree[path] ==> p == path
  }

  /**
   A path stays where it is when nothing takes it away or copies it, and moves where its first such change is an exact
   rename of a blob held once on both sides. In every other case it is lost.
   */
  ghost predicate Carries(before: Tree, after: Tree, changes: seq<Change>, path: Path, next: Path) {
    || (next == path && Untouched(changes, path))
    || exists k ::
         && 0 <= k < |changes| && changes[k] == Change(Renamed(100), path, next) && Untouched(changes[..k], path)
         && OnlyHolder(before, path) && OnlyHolder(after, next) && after[next] == before[path]
  }

  lemma HeldOnce(tree: Tree, path: Path)
    requires path in tree
    ensures |Copies(tree, tree[path])| == 1 <==> OnlyHolder(tree, path)
  {
    var copies := Copies(tree, tree[path]);
    SubsetIsSmaller({path}, copies);
    if |copies| == 1 {
      forall p | p in tree && tree[p] == tree[path] ensures p == path {
        assert p in copies;
      }
    }
    assert OnlyHolder(tree, path) ==> copies == {path};
  }

  /** From the i-th change on, with nothing before it touching the path. */
  lemma {:induction false} StepCarries(before: Tree, after: Tree, changes: seq<Change>, i: nat, path: Path, next: Path)
    requires i <= |changes| && path in before && Untouched(changes[..i], path)
    requires forall c <- changes :: TruthfulChange(before, after, c)
    ensures Step(before, after, changes, i, path) == Some(next) <==> Carries(before, after, changes, path, next)
    decreases |changes| - i
  {
    if i == |changes| {
      assert changes[..i] == changes;
    } else {
      var change := changes[i];
      assert change in changes && TruthfulChange(before, after, change);
      assert changes[..i + 1] == changes[..i] + [change];
      if change.source == path && (Removes(change) || change.status.Copied?) {
        FirstDecides(changes, i, path);
        if change.status.Renamed? {
          RenameDecides(before, after, changes, i, path, next);
        }
      } else {
        StepCarries(before, after, changes, i + 1, path, next);
      }
    }
  }

  lemma Touched(changes: seq<Change>, i: nat, k: nat, path: Path)
    requires i < k <= |changes|
    requires changes[i].source == path && (Removes(changes[i]) || changes[i].status.Copied?)
    ensures !Untouched(changes[..k], path)
  {
    assert changes[..k][i] in changes[..k];
  }

  /** Only the first change that takes a path away or copies it can be the rename that carries it. */
  lemma FirstDecides(changes: seq<Change>, i: nat, path: Path)
    requires i < |changes| && Untouched(changes[..i], path)
    requires changes[i].source == path && (Removes(changes[i]) || changes[i].status.Copied?)
    ensures !Untouched(changes, path)
    ensures forall k ::
      (0 <= k < |changes| && changes[k].source == path && changes[k].status.Renamed? &&
       Untouched(changes[..k], path)) ==>
        k == i
  {
    Touched(changes, i, |changes|, path);
    assert changes[..|changes|] == changes;
    forall k | 0 <= k < |changes|
      ensures i < k ==> !Untouched(changes[..k], path)
      ensures k < i && changes[k].source == path && changes[k].status.Renamed? ==> !Untouched(changes[..i], path)
    {
      if i < k {
        Touched(changes, i, k, path);
      } else if k < i && changes[k].source == path && changes[k].status.Renamed? {
        Touched(changes, k, i, path);
      }
    }
  }

  lemma RenameDecides(before: Tree, after: Tree, changes: seq<Change>, i: nat, path: Path, next: Path)
    requires i < |changes| && path in before && Untouched(changes[..i], path)
    requires forall c <- changes :: TruthfulChange(before, after, c)
    requires changes[i].source == path && changes[i].status.Renamed?
    ensures Step(before, after, changes, i, path) == Some(next) <==> Carries(before, after, changes, path, next)
  {
    var change := changes[i];
    assert change in changes && TruthfulChange(before, after, change);
    FirstDecides(changes, i, path);
    HeldOnce(before, path);
    if change.status.score == 100 {
      HeldOnce(after, change.destination);
      NewPathStays(before, after, changes, i + 1, change.destination);
    }
  }

  /** Under truthful diffs a commit carries a path exactly so; whatever is not carried anywhere is lost. */
  lemma StepIs(commit: Commit, path: Path, next: Path)
    requires commit.Child? && TruthfulDiff(commit.parent.tree, commit.tree, commit.changes)
    requires path in commit.parent.tree
    ensures Step(commit.parent.tree, commit.tree, commit.changes, 0, path) == Some(next) <==>
            Carries(commit.parent.tree, commit.tree, commit.changes, path, next)
  {
    StepCarries(commit.parent.tree, commit.tree, commit.changes, 0, path, next);
  }

  /** The path is carried from the old commit to the new one, commit by commit. */
  ghost predicate Carried(start: Commit, tip: Commit, name: Path, next: Path) {
    if start == tip then next == name
    else tip.Child? && exists middle ::
           Carried(start, tip.parent, name, middle) && Carries(tip.parent.tree, tip.tree, tip.changes, middle, next)
  }

  /** Lineage is being carried through every commit between: no other path is ever credited. */
  lemma {:induction false} LineageIs(start: Commit, tip: Commit, name: Path, next: Path)
    requires Truthful(tip) && InChain(start, tip) && name in start.tree
    ensures Follow(start, tip, name) == Some(next) <==> Carried(start, tip, name, next)
    ensures LineageOf(start, tip, name) == Some(next) <==> Carried(start, tip, name, next)
  {
    if start != tip {
      forall middle
        ensures Follow(start, tip.parent, name) == Some(middle) <==> Carried(start, tip.parent, name, middle)
      {
        LineageIs(start, tip.parent, name, middle);
      }
      if Follow(start, tip.parent, name).Some? {
        var middle := Follow(start, tip.parent, name).value;
        FollowLandsInTree(start, tip.parent, name);
        StepIs(tip, middle, next);
      }
    }
    if Follow(start, tip, name).Some? {
      FollowLandsInTree(start, tip, name);
    }
  }

  lemma {:induction false} NewPathStays(before: Tree, after: Tree, changes: seq<Change>, i: nat, current: Path)
    requires i <= |changes| && (forall c <- changes :: TruthfulChange(before, after, c)) && current !in before
    ensures Step(before, after, changes, i, current) == Some(current)
    decreases |changes| - i
  {
    if i < |changes| {
      assert changes[i] in changes;
      NewPathStays(before, after, changes, i + 1, current);
    }
  }

  /** One commit keeps a path, or moves it by the one rename that lists it. */
  lemma {:induction false} StepOutcome(before: Tree, after: Tree, changes: seq<Change>, i: nat, current: Path)
    requires i <= |changes| && (forall c <- changes :: TruthfulChange(before, after, c)) && current in before
    requires Step(before, after, changes, i, current).Some?
    ensures var next := Step(before, after, changes, i, current).value;
            || (next == current && forall j :: i <= j < |changes| && changes[j].source == current ==>
                !Removes(changes[j]))
            || (exists j ::
                  && i <= j < |changes| && changes[j].status.Renamed?
                  && changes[j].source == current && changes[j].destination == next)
    decreases |changes| - i
  {
    if i < |changes| {
      assert changes[i] in changes;
      if changes[i].source == current && changes[i].status.Renamed? {
        NewPathStays(before, after, changes, i + 1, changes[i].destination);
      } else {
        StepOutcome(before, after, changes, i + 1, current);
      }
    }
  }

  lemma StepLandsInTree(commit: Commit, name: Path)
    requires commit.Child? && TruthfulDiff(commit.parent.tree, commit.tree, commit.changes)
    requires name in commit.parent.tree
    requires Step(commit.parent.tree, commit.tree, commit.changes, 0, name).Some?
    ensures Step(commit.parent.tree, commit.tree, commit.changes, 0, name).value in commit.tree
  {
    hide Step;
    StepOutcome(commit.parent.tree, commit.tree, commit.changes, 0, name);
    var next := Step(commit.parent.tree, commit.tree, commit.changes, 0, name).value;
    if name !in commit.tree {
      var c :| c in commit.changes && Removes(c) && c.source == name;
      var k :| 0 <= k < |commit.changes| && commit.changes[k] == c;
    }
    forall j | 0 <= j < |commit.changes| && commit.changes[j].status.Renamed?
      ensures commit.changes[j].destination in commit.tree
    {
      assert commit.changes[j] in commit.changes;
    }
  }

  /** The rename that moved a path out of the old tree, if it moved. */
  lemma MovedBy(commit: Commit, name: Path) returns (j: int)
    requires commit.Child? && TruthfulDiff(commit.parent.tree, commit.tree, commit.changes)
    requires name in commit.parent.tree
    requires Step(commit.parent.tree, commit.tree, commit.changes, 0, name).Some?
    ensures var next := Step(commit.parent.tree, commit.tree, commit.changes, 0, name).value;
            if next in commit.parent.tree then next == name
            else 0 <= j < |commit.changes| && commit.changes[j].status.Renamed?
                 && commit.changes[j].source == name && commit.changes[j].destination == next
  {
    hide Step;
    StepOutcome(commit.parent.tree, commit.tree, commit.changes, 0, name);
    var next := Step(commit.parent.tree, commit.tree, commit.changes, 0, name).value;
    if next != name {
      j :| 0 <= j < |commit.changes| && commit.changes[j].status.Renamed?
           && commit.changes[j].source == name && commit.changes[j].destination == next;
      assert commit.changes[j] in commit.changes;
    } else {
      j := -1;
    }
  }

  lemma StepIsInjective(commit: Commit, a: Path, b: Path)
    requires commit.Child? && TruthfulDiff(commit.parent.tree, commit.tree, commit.changes)
    requires a in commit.parent.tree && b in commit.parent.tree
    requires Step(commit.parent.tree, commit.tree, commit.changes, 0, a).Some?
    requires Step(commit.parent.tree, commit.tree, commit.changes, 0, a) ==
             Step(commit.parent.tree, commit.tree, commit.changes, 0, b)
    ensures a == b
  {
    hide Step;
    var i := MovedBy(commit, a);
    var j := MovedBy(commit, b);
  }

  lemma {:induction false} FollowLandsInTree(start: Commit, tip: Commit, name: Path)
    requires Truthful(tip) && InChain(start, tip) && name in start.tree && Follow(start, tip, name).Some?
    ensures Follow(start, tip, name).value in tip.tree
  {
    if start != tip {
      FollowLandsInTree(start, tip.parent, name);
      StepLandsInTree(tip, Follow(start, tip.parent, name).value);
    }
  }

  /** Two paths never inherit credit as one: lineage is injective. */
  lemma {:induction false} LineageIsInjective(start: Commit, tip: Commit, a: Path, b: Path)
    requires Truthful(tip) && LineageOf(start, tip, a).Some? && LineageOf(start, tip, a) == LineageOf(start, tip, b)
    ensures a == b
  {
    if start != tip {
      var middleA, middleB := Follow(start, tip.parent, a), Follow(start, tip.parent, b);
      FollowLandsInTree(start, tip.parent, a);
      FollowLandsInTree(start, tip.parent, b);
      StepIsInjective(tip, middleA.value, middleB.value);
      LineageIsInjective(start, tip.parent, a, b);
    }
  }

  lemma {:induction false} ChainTransitive(start: Commit, middle: Commit, tip: Commit)
    requires InChain(start, middle) && InChain(middle, tip)
    ensures InChain(start, tip)
  {
    if middle != tip {
      ChainTransitive(start, middle, tip.parent);
    }
  }

  /** A commit is never among its own ancestors: a chain only shrinks on the way back. */
  function Length(commit: Commit): nat {
    if commit.Root? then 0 else 1 + Length(commit.parent)
  }

  lemma {:induction false} ChainLength(start: Commit, tip: Commit)
    requires InChain(start, tip)
    ensures Length(start) <= Length(tip) && (start != tip ==> Length(start) < Length(tip))
  {
    if start != tip {
      ChainLength(start, tip.parent);
    }
  }

  lemma {:induction false} FollowComposes(start: Commit, middle: Commit, tip: Commit, name: Path)
    requires InChain(start, middle) && InChain(middle, tip)
    ensures var first := Follow(start, middle, name);
            Follow(start, tip, name) == if first.None? then None else Follow(middle, tip, first.value)
  {
    ChainLength(start, middle);
    ChainLength(middle, tip);
    if middle != tip {
      ChainLength(middle, tip.parent);
      FollowComposes(start, middle, tip.parent, name);
    }
  }

  /** Following old to middle to new is following old to new, whether or not the path survives. */
  lemma LineageComposes(start: Commit, middle: Commit, tip: Commit, name: Path)
    requires Truthful(tip) && InChain(start, middle) && InChain(middle, tip)
    ensures var first := LineageOf(start, middle, name);
            LineageOf(start, tip, name) == if first.None? then None else LineageOf(middle, tip, first.value)
  {
    ChainTransitive(start, middle, tip);
    FollowComposes(start, middle, tip, name);
    TruthfulAncestor(middle, tip);
    if name in start.tree && Follow(start, middle, name).Some? {
      FollowLandsInTree(start, middle, name);
    }
  }

  lemma {:induction false} TruthfulAncestor(start: Commit, tip: Commit)
    requires Truthful(tip) && InChain(start, tip)
    ensures Truthful(start)
  {
    if start != tip {
      TruthfulAncestor(start, tip.parent);
    }
  }
}
