/**
 The lane of push-range reviews of one repository: discovery enrolls the range behind the reviewed tip, a capture
 splits it into parts at a pinned target, and the tip moves when the first part of a whole range is counted, while
 the overflow may still wait in follow-up parts.
 */
module PushLane {
  import opened Prelude
  import opened PushRange

  /** Commits are numbered as they were created, so a commit's number is above those of its ancestors. */
  type Commit = nat

  /** The files affected between two commits, as found at the second. */
  type Listings = (Commit, Commit) -> seq<Row>

  /** The identity of a part: the range it was enrolled for, and 1 for the whole range, 2 for its first follow-up. */
  datatype Id = Id(base: Commit, head: Commit, part: nat)

  datatype State = Pending | Reviewing | Blocked | Done | Skipped | NothingSelected

  datatype Capture = Capture(target: Commit, kept: seq<Row>, overflow: seq<Row>)

  datatype Item = Item(id: Id, wanted: Option<set<Path>>, dependsOn: Option<Id>, pin: Option<Commit>, state: State,
                       failures: nat, capture: Option<Capture>)

  datatype Outcome = Completed | RateLimited | ActionRequired | Auth | NotReviewed | TooLarge | OtherFailure

  datatype Prepared = Plan(target: Commit) | NotReady | PlanningError | NothingToReview

  /** A reviewed stretch of history, after from, up to and including to, and the whole-range item that was counted. */
  datatype Stretch = Stretch(from: Commit, to: Commit, item: Id)

  function Next(id: Id): Id {
    id.(part := id.part + 1)
  }

  predicate Whole(i: Item) {
    i.wanted.None? && i.dependsOn.None?
  }

  function Cut(rows: seq<Row>, wanted: Option<set<Path>>): Split {
    var c := Candidates(rows, wanted);
    SplitTo(c, |c|)
  }

  // ----- what every item keeps --------------------------------------------------------------------------

  ghost predicate Truthful(listing: Listings) {
    forall a, b :: Listing(listing(a, b))
  }

  /** The item is the follow-up a capture of the parent at the pinned target deferred. */
  ghost predicate FollowUpOf(listing: Listings, j: Item, p: Item)
    requires j.pin.Some?
  {
    var cut := Cut(listing(p.id.base, j.pin.value), p.wanted);
    && j.id == Next(p.id) && cut.overflow != [] && j.wanted == Some(PathsOf(cut.overflow))
    && (p.pin.Some? ==> p.pin == j.pin)
  }

  ghost predicate HasParent(listing: Listings, items: seq<Item>, tried: set<Id>, j: Item)
    requires j.pin.Some?
  {
    exists p <- items :: FollowUpOf(listing, j, p) && (p.capture.Some? || p.id in tried)
  }

  ghost predicate Enrolled(listing: Listings, items: seq<Item>, tried: set<Id>, i: Item) {
    && i.id.part >= 1 && (i.wanted.None? <==> i.id.part == 1) && (i.pin.None? <==> i.id.part == 1)
    && (i.dependsOn.None? <==> i.id.part == 1)
    && (i.pin.Some? ==> HasParent(listing, items, tried, i))
  }

  /** A capture is the cut of the range at its target, and its overflow waits in a follow-up pinned there. */
  ghost predicate Captured(listing: Listings, i: Item)
    requires i.capture.Some?
  {
    var c := i.capture.value;
    var cut := Cut(listing(i.id.base, c.target), i.wanted);
    && c.kept == cut.kept && c.overflow == cut.overflow && (i.pin.Some? ==> i.pin == Some(c.target))
    && i.id.base <= c.target
  }

  ghost predicate Followed(listing: Listings, items: seq<Item>, i: Item)
    requires i.capture.Some?
  {
    var c := i.capture.value;
    c.overflow == [] || exists j <- items :: j.pin == Some(c.target) && FollowUpOf(listing, j, i)
  }

  /** Only an uncaptured whole range is ever skipped; what was reviewed was captured. */
  ghost predicate StateOk(i: Item) {
    && (i.state == Skipped ==> Whole(i) && i.capture.None?)
    && (i.state == Reviewing || i.state == Done ==> i.capture.Some?)
    && (i.state == NothingSelected ==> i.capture.Some? && i.capture.value.kept == [])
  }

  /** Another target's follow-up already stands where the overflow of a capture at this target belongs. */
  predicate Stale(items: seq<Item>, i: Item, target: Commit) {
    exists j <- items :: j.id == Next(i.id) && j.pin != Some(target)
  }

  ghost predicate ItemOk(listing: Listings, items: seq<Item>, tried: set<Id>, lost: set<Id>, i: Item) {
    && Enrolled(listing, items, tried, i) && StateOk(i) && (i.id in lost ==> i.capture.Some?)
    && (i.capture.Some? ==>
          && Captured(listing, i)
          && if i.id in lost then i.capture.value.overflow != [] && Stale(items, i, i.capture.value.target)
             else Followed(listing, items, i))
  }

  predicate HasId(items: seq<Item>, id: Id) {
    exists i <- items :: i.id == id
  }

  ghost predicate UniqueIds(items: seq<Item>) {
    forall m, n :: 0 <= m < n < |items| ==> items[m].id != items[n].id
  }

  ghost predicate ItemsOk(listing: Listings, items: seq<Item>, tried: set<Id>, lost: set<Id>) {
    && UniqueIds(items) && (forall i <- items :: ItemOk(listing, items, tried, lost, i))
    && lost <= tried && forall id <- lost :: id.part == 1 && HasId(items, id)
  }

  /** The counted item behind a stretch. */
  ghost predicate Backed(items: seq<Item>, s: Stretch) {
    exists i <- items :: i.id == s.item && i.state == Done && Whole(i) && i.capture.Some?
                         && i.id.base == s.from && i.capture.value.target == s.to
  }

  ghost predicate Joined(floor: Commit, stretches: seq<Stretch>, tip: Commit) {
    if stretches == [] then tip == floor
    else
      var last := stretches[|stretches| - 1];
      last.to == tip && last.from <= tip && Joined(floor, stretches[..|stretches| - 1], last.from)
  }

  // ----- every operation keeps them ---------------------------------------------------------------------

  /** The ranges, pins and captures of items are for good, and a counted item stays counted. */
  predicate SameRange(i: Item, i': Item) {
    && i'.id == i.id && i'.wanted == i.wanted && i'.dependsOn == i.dependsOn && i'.pin == i.pin
    && (i.capture.Some? ==> i'.capture == i.capture) && (i.state == Done ==> i'.state == Done)
  }

  ghost predicate Grown(items: seq<Item>, items': seq<Item>) {
    |items| <= |items'| && forall m :: 0 <= m < |items| ==> SameRange(items[m], items'[m])
  }

  lemma LaterItem(items: seq<Item>, items': seq<Item>, i: Item) returns (i': Item)
    requires Grown(items, items') && i in items
    ensures i' in items' && SameRange(i, i')
  {
    var m :| 0 <= m < |items| && items[m] == i;
    i' := items'[m];
  }

  lemma ParentStays(listing: Listings, items: seq<Item>, items': seq<Item>, tried: set<Id>, tried': set<Id>, j: Item,
                    j': Item)
    requires Grown(items, items') && tried <= tried' && j.pin.Some? && SameRange(j, j')
    requires HasParent(listing, items, tried, j)
    ensures HasParent(listing, items', tried', j')
  {
    hide Cut, PathsOf, Grown;
    var p :| p in items && FollowUpOf(listing, j, p) && (p.capture.Some? || p.id in tried);
    var p' := LaterItem(items, items', p);
    assert FollowUpOf(listing, j', p');
  }

  lemma FollowUpStays(listing: Listings, items: seq<Item>, items': seq<Item>, i: Item, i': Item)
    requires Grown(items, items') && SameRange(i, i') && i.capture.Some? && Followed(listing, items, i)
    ensures Followed(listing, items', i')
  {
    hide Cut, PathsOf, Grown;
    var c := i.capture.value;
    if c.overflow != [] {
      var j :| j in items && j.pin == Some(c.target) && FollowUpOf(listing, j, i);
      var j' := LaterItem(items, items', j);
      assert FollowUpOf(listing, j', i');
    }
  }

  lemma StaleStays(items: seq<Item>, items': seq<Item>, i: Item, i': Item, target: Commit)
    requires Grown(items, items') && i'.id == i.id && Stale(items, i, target)
    ensures Stale(items', i', target)
  {
    hide Grown;
    var j :| j in items && j.id == Next(i.id) && j.pin != Some(target);
    var j' := LaterItem(items, items', j);
  }

  lemma EnrolledStays(listing: Listings, items: seq<Item>, items': seq<Item>, tried: set<Id>, tried': set<Id>, i: Item,
                      i': Item)
    requires Grown(items, items') && tried <= tried' && SameRange(i, i') && Enrolled(listing, items, tried, i)
    ensures Enrolled(listing, items', tried', i')
  {
    hide Grown, HasParent;
    if i.pin.Some? {
      ParentStays(listing, items, items', tried, tried', i, i');
    }
  }

  lemma ItemOkStays(listing: Listings, items: seq<Item>, items': seq<Item>, tried: set<Id>, tried': set<Id>,
                    lost: set<Id>, lost': set<Id>, i: Item)
    requires Grown(items, items') && tried <= tried' && (i.id in lost' <==> i.id in lost)
    requires ItemOk(listing, items, tried, lost, i)
    ensures ItemOk(listing, items', tried', lost', i)
  {
    hide Grown, Enrolled, Followed, Stale, Captured;
    EnrolledStays(listing, items, items', tried, tried', i, i);
    if i.capture.Some? {
      if i.id in lost {
        StaleStays(items, items', i, i, i.capture.value.target);
      } else {
        FollowUpStays(listing, items, items', i, i);
      }
    }
  }

  lemma IdsStay(items: seq<Item>, items': seq<Item>, id: Id)
    requires Grown(items, items') && HasId(items, id)
    ensures HasId(items', id)
  {
    hide Grown;
    var i :| i in items && i.id == id;
    var i' := LaterItem(items, items', i);
  }

  lemma UpdateGrows(items: seq<Item>, k: nat, x: Item)
    requires k < |items| && SameRange(items[k], x)
    ensures Grown(items, items[k := x]) && (UniqueIds(items) ==> UniqueIds(items[k := x]))
  {
  }

  /** A change of one item within its range leaves all in order when the item itself is. */
  lemma UpdateKeeps(listing: Listings, items: seq<Item>, tried: set<Id>, tried': set<Id>, lost: set<Id>, lost': set<Id>,
                    k: nat, x: Item)
    requires k < |items| && SameRange(items[k], x) && ItemsOk(listing, items, tried, lost)
    requires tried <= tried' && lost <= lost' <= lost + {x.id} && lost' <= tried' && (x.id in lost' ==> x.id.part == 1)
    requires ItemOk(listing, items[k := x], tried', lost', x)
    ensures ItemsOk(listing, items[k := x], tried', lost') && Grown(items, items[k := x])
  {
    var changed := items[k := x];
    UpdateGrows(items, k, x);
    assert x.id == items[k].id;
    hide SameRange, ItemOk;
    forall m | 0 <= m < |changed| ensures ItemOk(listing, changed, tried', lost', changed[m]) {
      if m != k {
        ItemOkStays(listing, items, changed, tried, tried', lost, lost', items[m]);
      }
    }
    forall id <- lost' ensures id.part == 1 && HasId(changed, id) {
      if id == x.id {
        assert x in changed;
      } else {
        IdsStay(items, changed, id);
      }
    }
  }

  lemma AppendKeeps(listing: Listings, items: seq<Item>, tried: set<Id>, lost: set<Id>, x: Item)
    requires ItemsOk(listing, items, tried, lost) && (forall i <- items :: i.id != x.id)
    requires ItemOk(listing, items + [x], tried, lost, x)
    ensures ItemsOk(listing, items + [x], tried, lost) && Grown(items, items + [x])
  {
    hide ItemOk;
    forall m | 0 <= m < |items| ensures ItemOk(listing, items + [x], tried, lost, (items + [x])[m]) {
      ItemOkStays(listing, items, items + [x], tried, tried, lost, lost, items[m]);
    }
    forall id <- lost ensures HasId(items + [x], id) {
      IdsStay(items, items + [x], id);
    }
  }

  /** Enrollment is sticky: an identity once used is never enrolled again. */
  function Enroll(items: seq<Item>, x: Item): seq<Item> {
    if HasId(items, x.id) then items else items + [x]
  }

  function WholeRange(base: Commit, head: Commit): Item {
    Item(Id(base, head, 1), None, None, None, Pending, 0, None)
  }

  function FollowUp(i: Item, target: Commit, overflow: seq<Row>): Item {
    Item(Next(i.id), Some(PathsOf(overflow)), Some(i.id), Some(target), Pending, 0, None)
  }

  /** Follow-up parts are never skipped for a wider range; a range not yet captured is. */
  function Coalesced(i: Item): Item {
    if i.state == Pending && i.capture.None? && Whole(i) then i.(state := Skipped) else i
  }

  function Coalesce(items: seq<Item>): (r: seq<Item>)
    ensures |r| == |items| && forall m :: 0 <= m < |r| ==> r[m] == Coalesced(items[m])
  {
    seq(|items|, m requires 0 <= m < |items| => Coalesced(items[m]))
  }

  lemma WholeRangeKeeps(listing: Listings, items: seq<Item>, tried: set<Id>, lost: set<Id>, base: Commit, head: Commit)
    requires ItemsOk(listing, items, tried, lost)
    ensures var r := Enroll(items, WholeRange(base, head)); ItemsOk(listing, r, tried, lost) && Grown(items, r)
  {
    if !HasId(items, Id(base, head, 1)) {
      hide Stale, Followed, Captured, HasParent;
      AppendKeeps(listing, items, tried, lost, WholeRange(base, head));
    }
  }

  lemma CoalesceKeeps(listing: Listings, items: seq<Item>, tried: set<Id>, lost: set<Id>)
    requires ItemsOk(listing, items, tried, lost)
    ensures ItemsOk(listing, Coalesce(items), tried, lost) && Grown(items, Coalesce(items))
  {
    var r := Coalesce(items);
    assert Grown(items, r);
    forall m | 0 <= m < |r| ensures ItemOk(listing, r, tried, lost, r[m]) {
      hide Stale, Followed, Captured, HasParent, Grown;
      ItemOkStays(listing, items, r, tried, tried, lost, lost, items[m]);
      assert r[m].state == Skipped && items[m].state != Skipped ==> Enrolled(listing, r, tried, items[m]);
    }
    forall id <- lost ensures HasId(r, id) {
      IdsStay(items, r, id);
    }
  }

  lemma FollowUpIsOk(listing: Listings, items: seq<Item>, tried: set<Id>, lost: set<Id>, k: nat, x: Item,
                     target: Commit)
    requires ItemsOk(listing, items, tried, lost) && k < |items| && items[k].id in tried
    requires items[k].pin.Some? ==> items[k].pin == Some(target)
    requires var cut := Cut(listing(items[k].id.base, target), items[k].wanted);
             cut.overflow != [] && x == FollowUp(items[k], target, cut.overflow)
    requires !HasId(items, x.id)
    ensures ItemOk(listing, items + [x], tried, lost, x)
  {
    hide Stale, Followed, Captured, Cut, PathsOf, UniqueIds;
    assert items[k] in items && ItemOk(listing, items, tried, lost, items[k]);
    assert FollowUpOf(listing, x, items[k]);
    assert (items + [x])[k] == items[k];
  }

  /** Enrolling the follow-up of a capture, attempted or made. */
  lemma FollowUpKeeps(listing: Listings, items: seq<Item>, tried: set<Id>, lost: set<Id>, k: nat, target: Commit)
    requires ItemsOk(listing, items, tried, lost) && Truthful(listing) && k < |items| && items[k].id in tried
    requires items[k].pin.Some? ==> items[k].pin == Some(target)
    ensures var cut := Cut(listing(items[k].id.base, target), items[k].wanted);
            var r := Enroll(items, FollowUp(items[k], target, cut.overflow));
            cut.overflow != [] ==> ItemsOk(listing, r, tried, lost) && Grown(items, r)
  {
    var i := items[k];
    var cut := Cut(listing(i.id.base, target), i.wanted);
    if cut.overflow != [] && !HasId(items, Next(i.id)) {
      var x := FollowUp(i, target, cut.overflow);
      FollowUpIsOk(listing, items, tried, lost, k, x, target);
      hide ItemsOk, ItemOk, Cut;
      AppendKeeps(listing, items, tried, lost, x);
    }
  }

  lemma SameIdSameItem(items: seq<Item>, a: Item, b: Item)
    requires UniqueIds(items) && a in items && b in items && a.id == b.id
    ensures a == b
  {
    var m :| 0 <= m < |items| && items[m] == a;
    var n :| 0 <= n < |items| && items[n] == b;
  }

  /** Whatever stands under the identity of an item's follow-up was deferred by it, at the target it is pinned to. */
  lemma FollowUpIs(listing: Listings, items: seq<Item>, tried: set<Id>, lost: set<Id>, p: Item, j: Item)
    requires ItemsOk(listing, items, tried, lost) && p in items && j in items && j.id == Next(p.id)
    ensures j.pin.Some? && FollowUpOf(listing, j, p) && (p.capture.Some? || p.id in tried)
  {
    hide Cut, PathsOf, Captured, Followed, Stale, UniqueIds;
    assert ItemOk(listing, items, tried, lost, j) && ItemOk(listing, items, tried, lost, p);
    var q :| q in items && FollowUpOf(listing, j, q) && (q.capture.Some? || q.id in tried);
    SameIdSameItem(items, p, q);
  }

  /** An attempt that ended in a capture need not be remembered. */
  lemma AttemptEnds(listing: Listings, items: seq<Item>, tried: set<Id>, lost: set<Id>, k: nat)
    requires k < |items| && items[k].capture.Some? && lost <= tried
    requires ItemsOk(listing, items, tried + {items[k].id}, lost)
    ensures ItemsOk(listing, items, tried, lost)
  {
    hide Cut, PathsOf, Captured, Followed, Stale;
    forall i | i in items ensures ItemOk(listing, items, tried, lost, i) {
      assert ItemOk(listing, items, tried + {items[k].id}, lost, i);
      if i.pin.Some? {
        var q :| q in items && FollowUpOf(listing, i, q) && (q.capture.Some? || q.id in tried + {items[k].id});
        if q.id == items[k].id {
          SameIdSameItem(items, q, items[k]);
        }
        assert HasParent(listing, items, tried, i);
      }
    }
  }

  /** The target a capture pins: the parent's for a follow-up, the tip of the branch for a whole range. */
  function TargetOf(i: Item, tip: Commit): Commit {
    if i.pin.Some? then i.pin.value else tip
  }

  function CaptureAt(i: Item, target: Commit, cut: Split): Item {
    i.(capture := Some(Capture(target, cut.kept, cut.overflow)))
  }

  /** The overflow of the capture has no follow-up at its target. */
  predicate Loses(items: seq<Item>, i: Item, target: Commit, cut: Split) {
    cut.overflow != [] && Stale(items, i, target)
  }

  lemma MoreAttempts(listing: Listings, items: seq<Item>, tried: set<Id>, tried': set<Id>, lost: set<Id>)
    requires ItemsOk(listing, items, tried, lost) && tried <= tried'
    ensures ItemsOk(listing, items, tried', lost)
  {
    assert Grown(items, items);
    forall m | 0 <= m < |items| ensures ItemOk(listing, items, tried', lost, items[m]) {
      hide ItemOk, Grown;
      ItemOkStays(listing, items, items, tried, tried', lost, lost, items[m]);
    }
  }

  /** The queue once the follow-up of a capture is enrolled. */
  function Queued(items: seq<Item>, i: Item, target: Commit, cut: Split): seq<Item> {
    if cut.overflow == [] then items else Enroll(items, FollowUp(i, target, cut.overflow))
  }

  lemma QueuedKeeps(listing: Listings, items: seq<Item>, tried: set<Id>, lost: set<Id>, k: nat, target: Commit)
    requires ItemsOk(listing, items, tried, lost) && Truthful(listing) && k < |items|
    requires items[k].pin.Some? ==> items[k].pin == Some(target)
    ensures var queued := Queued(items, items[k], target, Cut(listing(items[k].id.base, target), items[k].wanted));
            && ItemsOk(listing, queued, tried + {items[k].id}, lost) && Grown(items, queued)
            && |items| <= |queued| && queued[..|items|] == items
  {
    hide ItemsOk, Cut;
    MoreAttempts(listing, items, tried, tried + {items[k].id}, lost);
    FollowUpKeeps(listing, items, tried + {items[k].id}, lost, k, target);
  }

  /** A capture that loses its overflow is one of a whole range, attempted before at another target. */
  lemma OnlyRetriesLose(listing: Listings, items: seq<Item>, tried: set<Id>, lost: set<Id>, i: Item, target: Commit)
    requires ItemsOk(listing, items, tried, lost) && i in items && i.capture.None? && Stale(items, i, target)
    requires i.pin.Some? ==> i.pin == Some(target)
    ensures i.id in tried && i.id.part == 1 && i.id !in lost
  {
    hide Cut, PathsOf, Captured, Followed;
    var j :| j in items && j.id == Next(i.id) && j.pin != Some(target);
    FollowUpIs(listing, items, tried, lost, i, j);
    assert ItemOk(listing, items, tried, lost, i);
  }

  lemma OverflowIsFollowed(listing: Listings, items: seq<Item>, tried: set<Id>, lost: set<Id>, i: Item, x: Item,
                           target: Commit)
    requires ItemsOk(listing, items, tried, lost) && i in items && HasId(items, Next(i.id)) && !Stale(items, i, target)
    requires x.capture.Some? && x.capture.value.target == target && SameRange(i, x)
    ensures Followed(listing, items, x)
  {
    hide ItemsOk, Cut, PathsOf;
    var j :| j in items && j.id == Next(i.id);
    FollowUpIs(listing, items, tried, lost, i, j);
    assert FollowUpOf(listing, j, x);
  }

  lemma CaptureKeeps(listing: Listings, items: seq<Item>, tried: set<Id>, lost: set<Id>, k: nat, target: Commit)
    requires ItemsOk(listing, items, tried, lost) && Truthful(listing) && k < |items| && items[k].capture.None?
    requires items[k].pin.Some? ==> items[k].pin == Some(target)
    requires items[k].state == Pending && items[k].id.base <= target
    ensures var cut := Cut(listing(items[k].id.base, target), items[k].wanted);
            var queued := Queued(items, items[k], target, cut);
            var lost' := if Loses(items, items[k], target, cut) then lost + {items[k].id} else lost;
            && |queued| >= |items|
            && ItemsOk(listing, queued[k := CaptureAt(items[k], target, cut)], tried, lost')
            && Grown(items, queued[k := CaptureAt(items[k], target, cut)])
  {
    hide Cut, Queued, ItemsOk, ItemOk, Loses, Grown;
    var i := items[k];
    var cut := Cut(listing(i.id.base, target), i.wanted);
    var queued := Queued(items, i, target, cut);
    var lost' := if Loses(items, i, target, cut) then lost + {i.id} else lost;
    var x := CaptureAt(i, target, cut);
    QueuedKeeps(listing, items, tried, lost, k, target);
    assert queued[..|items|][k] == i;
    LossIsKnown(listing, items, tried, lost, i, target, cut);
    CapturedItemOk(listing, items, queued, tried + {i.id}, lost, k, target, cut);
    UpdateKeeps(listing, queued, tried + {i.id}, tried + {i.id}, lost, lost', k, x);
    GrownTwice(items, queued, queued[k := x]);
    AttemptEnds(listing, queued[k := x], tried, lost', k);
  }

  lemma GrownTwice(a: seq<Item>, b: seq<Item>, c: seq<Item>)
    requires Grown(a, b) && Grown(b, c)
    ensures Grown(a, c)
  {
  }

  lemma LossIsKnown(listing: Listings, items: seq<Item>, tried: set<Id>, lost: set<Id>, i: Item, target: Commit,
                    cut: Split)
    requires ItemsOk(listing, items, tried, lost) && i in items && i.capture.None?
    requires i.pin.Some? ==> i.pin == Some(target)
    ensures lost <= tried && i.id !in lost && (Loses(items, i, target, cut) ==> i.id in tried && i.id.part == 1)
  {
    assert ItemOk(listing, items, tried, lost, i);
    if Loses(items, i, target, cut) {
      OnlyRetriesLose(listing, items, tried, lost, i, target);
    }
  }

  lemma CapturedItemOk(listing: Listings, items: seq<Item>, queued: seq<Item>, tried: set<Id>, lost: set<Id>, k: nat,
                       target: Commit, cut: Split)
    requires k < |items| && queued == Queued(items, items[k], target, cut) && |items| <= |queued|
    requires queued[k] == items[k] && Grown(items, queued) && ItemsOk(listing, queued, tried, lost)
    requires cut == Cut(listing(items[k].id.base, target), items[k].wanted)
    requires items[k].pin.Some? ==> items[k].pin == Some(target)
    requires items[k].state == Pending && items[k].id.base <= target && items[k].capture.None?
    ensures ItemOk(listing, queued[k := CaptureAt(items[k], target, cut)], tried,
                   if Loses(items, items[k], target, cut) then lost + {items[k].id} else lost,
                   CaptureAt(items[k], target, cut))
  {
    var i := items[k];
    var x := CaptureAt(i, target, cut);
    var changed := queued[k := x];
    assert ItemOk(listing, queued, tried, lost, i);
    assert Captured(listing, x);
    QueuedIsStale(items, i, target, cut);
    UpdateGrows(queued, k, x);
    hide Cut, PathsOf, HasParent, Followed, Stale, Captured, ItemsOk, UniqueIds, Grown, Queued;
    EnrolledStays(listing, queued, changed, tried, tried, i, x);
    if Loses(items, i, target, cut) {
      StaleStays(queued, changed, i, x, target);
    } else if cut.overflow != [] {
      OverflowIsFollowed(listing, queued, tried, lost, i, x, target);
      FollowUpStays(listing, queued, changed, x, x);
    } else {
      NothingToFollow(listing, changed, x);
    }
  }

  lemma NothingToFollow(listing: Listings, items: seq<Item>, x: Item)
    requires x.capture.Some? && x.capture.value.overflow == []
    ensures Followed(listing, items, x)
  {
  }

  lemma QueuedIsStale(items: seq<Item>, i: Item, target: Commit, cut: Split)
    ensures var queued := Queued(items, i, target, cut);
            (Stale(queued, i, target) <==> Stale(items, i, target)) &&
                (cut.overflow != [] ==> HasId(queued, Next(i.id)))
  {
    var x := FollowUp(i, target, cut.overflow);
    assert x in items + [x];
  }

  // ----- the reviewed tip -------------------------------------------------------------------------------

  lemma JoinMore(floor: Commit, stretches: seq<Stretch>, tip: Commit, more: Stretch)
    requires Joined(floor, stretches, tip) && more.from == tip <= more.to
    ensures Joined(floor, stretches + [more], more.to)
  {
    assert (stretches + [more])[..|stretches|] == stretches;
  }

  lemma BackedStays(items: seq<Item>, items': seq<Item>, reviewed: seq<Stretch>)
    requires Grown(items, items') && forall s <- reviewed :: Backed(items, s)
    ensures forall s <- reviewed :: Backed(items', s)
  {
    hide Grown;
    forall s <- reviewed ensures Backed(items', s) {
      var i :| i in items && i.id == s.item && i.state == Done && Whole(i) && i.capture.Some?
               && i.id.base == s.from && i.capture.value.target == s.to;
      var i' := LaterItem(items, items', i);
    }
  }

  predicate Live(i: Item) {
    i.state == Pending || i.state == Reviewing || i.state == Blocked
  }

  /** The state of an item after its review ended without being counted. */
  function Uncounted(i: Item, outcome: Outcome, maxFailures: nat): Item {
    if outcome == RateLimited || outcome == ActionRequired || outcome == Auth then i.(state := Pending)
    else
      var n := i.failures + 1;
      var hopeless := outcome == NotReviewed || outcome == TooLarge || n >= maxFailures;
      i.(failures := n, state := if hopeless then Blocked else Pending)
  }

  /** A captured or running item holds the lane until its harvest. */
  predicate Pinned(items: seq<Item>) {
    exists i <- items :: Live(i) && (i.capture.Some? || i.state == Reviewing)
  }

  predicate Waiting(items: seq<Item>, id: Id) {
    exists i <- items :: i.id == id && i.state == Pending && i.capture.None?
  }

  // ----- what an operation does, said of the items ------------------------------------------------------

  ghost predicate Stands(items: seq<Item>, id: Id) {
    exists i <- items :: i.id == id
  }

  /** The items stay where they are, and a new one comes last unless its identity was ever used. */
  ghost predicate TakesIn(items: seq<Item>, items': seq<Item>, x: Item) {
    if Stands(items, x.id) then |items'| == |items| else |items'| == |items| + 1 && items'[|items|] == x
  }

  ghost predicate OthersStay(items: seq<Item>, items': seq<Item>, k: nat) {
    |items| <= |items'| && forall m :: 0 <= m < |items| && m != k ==> items'[m] == items[m]
  }

  /** The follow-up of an item: the next part of its range, for exactly the deferred paths, at the same target. */
  ghost predicate Defers(i: Item, target: Commit, overflow: seq<Row>, j: Item) {
    && j.id.base == i.id.base && j.id.head == i.id.head && j.id.part == i.id.part + 1
    && j.wanted.Some? && (forall path :: path in j.wanted.value <==> exists r <- overflow :: r.path == path)
    && j.dependsOn == Some(i.id) && j.pin == Some(target)
    && j.state == Pending && j.failures == 0 && j.capture.None?
  }

  /** The queue after a capture deferred this overflow. */
  ghost predicate QueuesOverflow(items: seq<Item>, items': seq<Item>, i: Item, target: Commit, overflow: seq<Row>) {
    if overflow == [] then |items'| == |items|
    else exists j :: Defers(i, target, overflow, j) && TakesIn(items, items', j)
  }

  /** A captured item and the plan made of it: there is nothing to review where nothing was kept. */
  ghost predicate PlansFor(i: Item, kept: seq<Row>, target: Commit, x: Item, r: Prepared) {
    if kept == [] then x == i.(state := NothingSelected) && r == NothingToReview else x == i && r == Plan(target)
  }

  ghost predicate Prepares(listing: Listings, items: seq<Item>, items': seq<Item>, k: nat, tip: Commit, behind: bool,
                           broken: bool, r: Prepared)
    requires k < |items|
  {
    var i := items[k];
    var target := if i.pin.Some? then i.pin.value else tip;
    OthersStay(items, items', k) &&
    if i.capture.Some? then
      |items'| == |items| && PlansFor(i, i.capture.value.kept, i.capture.value.target, items'[k], r)
    else if !behind then items' == items && r == NotReady
    else
      exists kept, overflow ::
        && SplitsSo(listing(i.id.base, target), i.wanted, kept, overflow)
        && QueuesOverflow(items, items', i, target, overflow)
        && if broken then items'[k] == i && r == PlanningError
           else PlansFor(i.(capture := Some(Capture(target, kept, overflow))), kept, target, items'[k], r)
  }

  /** The overflow of this capture is lost: another target's follow-up stands in its place. */
  ghost predicate LosesOverflow(items: seq<Item>, i: Item, x: Item) {
    && i.capture.None? && x.capture.Some? && x.capture.value.overflow != []
    && exists j <- items ::
         j.id == Id(i.id.base, i.id.head, i.id.part + 1) && j.pin != Some(x.capture.value.target)
  }

  lemma FollowUpDefers(i: Item, target: Commit, overflow: seq<Row>)
    ensures Defers(i, target, overflow, FollowUp(i, target, overflow))
  {
  }

  lemma EnrollTakesIn(items: seq<Item>, x: Item)
    ensures TakesIn(items, Enroll(items, x), x) && OthersStay(items, Enroll(items, x), |items|)
  {
  }

  lemma QueuedTakesIn(items: seq<Item>, i: Item, target: Commit, cut: Split)
    ensures QueuesOverflow(items, Queued(items, i, target, cut), i, target, cut.overflow)
    ensures OthersStay(items, Queued(items, i, target, cut), |items|)
  {
    FollowUpDefers(i, target, cut.overflow);
    EnrollTakesIn(items, FollowUp(i, target, cut.overflow));
    hide Defers, TakesIn, Enroll;
  }

  lemma CutSplitsSo(rows: seq<Row>, wanted: Option<set<Path>>)
    ensures SplitsSo(rows, wanted, Cut(rows, wanted).kept, Cut(rows, wanted).overflow)
  {
    SplitIsSo(rows, wanted);
  }

  lemma SelectedPlans(i: Item)
    requires i.capture.Some?
    ensures PlansFor(i, i.capture.value.kept, i.capture.value.target, Selected(i), PlanOf(i))
  {
  }

  lemma QueuedPrepares(listing: Listings, items: seq<Item>, k: nat, tip: Commit, broken: bool)
    requires k < |items| && items[k].capture.None?
    ensures var i, target := items[k], TargetOf(items[k], tip);
            var cut := Cut(listing(i.id.base, target), i.wanted);
            var queued := Queued(items, i, target, cut);
            && |queued| >= |items| && LosesOverflow(items, i, CaptureAt(i, target, cut)) == Loses(items, i, target, cut)
            && Prepares(listing, items, if broken then queued else queued[k := Selected(CaptureAt(i, target, cut))], k,
                        tip, true, broken, if broken then PlanningError else PlanOf(CaptureAt(i, target, cut)))
  {
    var i, target := items[k], TargetOf(items[k], tip);
    var cut := Cut(listing(i.id.base, target), i.wanted);
    var queued, x := Queued(items, i, target, cut), CaptureAt(i, target, cut);
    CutSplitsSo(listing(i.id.base, target), i.wanted);
    QueuedTakesIn(items, i, target, cut);
    SelectedPlans(x);
    LossesAre(items, i, target, cut);
    hide Cut, SplitsSo, Queued, Selected, PlanOf, PlansFor, Defers, Stands, Loses, LosesOverflow;
    if !broken {
      ReplacedQueues(items, queued, k, Selected(x), i, target, cut.overflow);
    }
  }

  lemma LossesAre(items: seq<Item>, i: Item, target: Commit, cut: Split)
    requires i.capture.None?
    ensures LosesOverflow(items, i, CaptureAt(i, target, cut)) <==> Loses(items, i, target, cut)
  {
  }

  lemma ReplacedQueues(items: seq<Item>, queued: seq<Item>, k: nat, x: Item, i: Item, target: Commit,
                       overflow: seq<Row>)
    requires k < |items| <= |queued| && QueuesOverflow(items, queued, i, target, overflow)
    requires OthersStay(items, queued, |items|)
    ensures QueuesOverflow(items, queued[k := x], i, target, overflow) && OthersStay(items, queued[k := x], k)
  {
    hide Defers, Stands;
    if overflow != [] {
      var j :| Defers(i, target, overflow, j) && TakesIn(items, queued, j);
      assert TakesIn(items, queued[k := x], j);
    }
  }

  /** Whole ranges still waiting to be captured give way to a wider one. */
  ghost predicate GivesWay(i: Item, i': Item) {
    if i.state == Pending && i.capture.None? && i.wanted.None? && i.dependsOn.None? then i' == i.(state := Skipped)
    else i' == i
  }

  /** The range is enrolled: the tip is ahead and old enough, and no item is captured, running or waiting for it. */
  ghost predicate Opens(items: seq<Item>, base: Commit, tip: Commit, behind: bool, young: bool) {
    && base != tip && behind && !young
    && (forall i <- items :: i.capture.Some? ==> i.state != Pending && i.state != Blocked)
    && (forall i <- items :: i.state != Reviewing)
    && (forall i <- items :: i.id == Id(base, tip, 1) && i.capture.None? ==> i.state != Pending)
  }

  ghost predicate Discovers(items: seq<Item>, items': seq<Item>, base: Commit, tip: Commit, behind: bool, young: bool) {
    if Opens(items, base, tip, behind, young) then
      && TakesIn(items, items', Item(Id(base, tip, 1), None, None, None, Pending, 0, None))
      && forall m :: 0 <= m < |items| ==> m < |items'| && GivesWay(items[m], items'[m])
    else items' == items
  }

  lemma CoalesceGivesWay(items: seq<Item>, base: Commit, tip: Commit)
    ensures var items' := Enroll(Coalesce(items), WholeRange(base, tip));
            && TakesIn(items, items', Item(Id(base, tip, 1), None, None, None, Pending, 0, None))
            && forall m :: 0 <= m < |items| ==> m < |items'| && GivesWay(items[m], items'[m])
  {
    var c := Coalesce(items);
    var id := Id(base, tip, 1);
    if Stands(items, id) {
      var i :| i in items && i.id == id;
      var m :| 0 <= m < |items| && items[m] == i;
      assert c[m].id == id && c[m] in c;
    }
    if HasId(c, id) {
      var i :| i in c && i.id == id;
      var m :| 0 <= m < |c| && c[m] == i;
      assert items[m].id == id && items[m] in items;
    }
  }

  lemma DiscoversSo(items: seq<Item>, base: Commit, tip: Commit, behind: bool, young: bool)
    ensures var opens := base != tip && behind && !Pinned(items) && !young && !Waiting(items, Id(base, tip, 1));
            Discovers(items, if opens then Enroll(Coalesce(items), WholeRange(base, tip)) else items, base, tip, behind,
                      young)
  {
    CoalesceGivesWay(items, base, tip);
    OpensIs(items, base, tip, behind, young);
    hide Opens, TakesIn, GivesWay, Pinned, Waiting, Enroll, Coalesce;
  }

  lemma OpensIs(items: seq<Item>, base: Commit, tip: Commit, behind: bool, young: bool)
    ensures Opens(items, base, tip, behind, young) <==>
              base != tip && behind && !Pinned(items) && !young && !Waiting(items, Id(base, tip, 1))
  {
  }

  /** A review counted, put back, tried again or given up. */
  ghost predicate Ends(i: Item, i': Item, outcome: Outcome, maxFailures: nat) {
    match outcome
    case Completed => i' == i.(state := Done, failures := 0)
    case RateLimited => i' == i.(state := Pending)
    case ActionRequired => i' == i.(state := Pending)
    case Auth => i' == i.(state := Pending)
    case NotReviewed => i' == i.(state := Blocked, failures := i.failures + 1)
    case TooLarge => i' == i.(state := Blocked, failures := i.failures + 1)
    case OtherFailure =>
      i' == i.(state := if i.failures + 1 < maxFailures then Pending else Blocked, failures := i.failures + 1)
  }

  class Lane {
    const listing: Listings
    /** Is the first commit an ancestor of the second, or the second itself? */
    const ancestor: (Commit, Commit) -> bool
    var items: seq<Item>
    var reviewedTip: Option<Commit>
    /** Where the review boundary was last set without a review, and what was reviewed since. */
    ghost var floor: Commit
    ghost var reviewed: seq<Stretch>
    /** The items whose capture was broken off after its follow-up was enrolled, and those that lost overflow by it. */
    ghost var tried: set<Id>
    ghost var lost: set<Id>

    constructor (listing: Listings, ancestor: (Commit, Commit) -> bool)
      requires Truthful(listing) && forall a, b :: ancestor(a, b) ==> a <= b
      ensures Sound() && this.listing == listing && this.ancestor == ancestor
      ensures items == [] && reviewedTip.None? && reviewed == [] && tried == {} && lost == {}
    {
      this.listing, this.ancestor := listing, ancestor;
      items, reviewedTip, floor, reviewed, tried, lost := [], None, 0, [], {}, {};
    }

    ghost predicate Sound()
      reads this
    {
      && Truthful(listing) && (forall a, b :: ancestor(a, b) ==> a <= b)
      && ItemsOk(listing, items, tried, lost)
      && (if reviewedTip.None? then reviewed == [] else Joined(floor, reviewed, reviewedTip.value))
      && forall s <- reviewed :: Backed(items, s)
    }

    /** Does discovery enroll the range from the reviewed tip to the tip of the branch? */
    predicate Enrolls(items: seq<Item>, base: Commit, tip: Commit, young: bool) {
      base != tip && ancestor(base, tip) && !Pinned(items) && !young && !Waiting(items, Id(base, tip, 1))
    }

    /** First sight of a repository, or history rewritten under the tip: a boundary, not a review. */
    method SetBoundary(at: Commit)
      requires Sound()
      modifies `reviewedTip, `floor, `reviewed
      ensures Sound() && reviewedTip == Some(at) && reviewed == [] && floor == at
    {
      reviewedTip, floor, reviewed := Some(at), at, [];
    }

    /** Enroll the range behind the tip of the branch, unless a captured item pins the lane or the tip is too young. */
    method Discover(tip: Commit, floorCommit: Option<Commit>, young: bool)
      requires Sound()
      modifies this
      ensures Sound() && tried == old(tried) && lost == old(lost) && Grown(old(items), items)
      ensures old(reviewedTip).Some? ==>
                Discovers(old(items), items, old(reviewedTip).value, tip, ancestor(old(reviewedTip).value, tip), young)
      ensures old(reviewedTip).None? ==> items == old(items)
      ensures items == if old(reviewedTip).Some? && Enrolls(old(items), old(reviewedTip).value, tip, young)
                       then Enroll(Coalesce(old(items)), WholeRange(old(reviewedTip).value, tip)) else old(items)
      ensures old(reviewedTip).None? ==>
                reviewed == [] && reviewedTip == Some(if floorCommit.Some? then floorCommit.value else tip)
      ensures old(reviewedTip).Some? && (old(reviewedTip).value == tip || ancestor(old(reviewedTip).value, tip)) ==>
                reviewedTip == old(reviewedTip) && reviewed == old(reviewed) && floor == old(floor)
      ensures old(reviewedTip).Some? && old(reviewedTip).value != tip && !ancestor(old(reviewedTip).value, tip) ==>
                reviewedTip == Some(tip) && reviewed == []
    {
      assert Grown(items, items);
      if reviewedTip.None? {
        SetBoundary(if floorCommit.Some? then floorCommit.value else tip);
        return;
      }
      var base := reviewedTip.value;
      DiscoversSo(items, base, tip, ancestor(base, tip), young);
      hide Discovers;
      if base == tip {
        return;
      }
      if !ancestor(base, tip) {
        SetBoundary(tip);
        return;
      }
      if Pinned(items) || young || Waiting(items, Id(base, tip, 1)) {
        return;
      }
      CoalesceKeeps(listing, items, tried, lost);
      WholeRangeKeeps(listing, Coalesce(items), tried, lost, base, tip);
      GrownTwice(items, Coalesce(items), Enroll(Coalesce(items), WholeRange(base, tip)));
      BackedStays(items, Enroll(Coalesce(items), WholeRange(base, tip)), reviewed);
      for j := 0 to |items|
        modifies `items
        invariant |items| == |old(items)|
        invariant forall m :: 0 <= m < |items| ==> items[m] == if m < j then Coalesced(old(items)[m]) else old(items)[m]
      {
        if items[j].state == Pending && items[j].capture.None? && Whole(items[j]) {
          items := items[j := items[j].(state := Skipped)];
        }
      }
      assert items == Coalesce(old(items));
      items := Enroll(items, WholeRange(base, tip));
    }

    /** Pin an item to its target, enrolling a follow-up for what does not fit; broken says an exception ended it. */
    method CaptureItem(k: nat, target: Commit, broken: bool)
      requires Sound() && k < |items| && items[k].state == Pending && items[k].capture.None?
      requires (items[k].pin.Some? ==> items[k].pin == Some(target)) && ancestor(items[k].id.base, target)
      modifies `items, `tried, `lost
      ensures Sound() && Grown(old(items), items)
      ensures var i := old(items[k]);
              var cut := Cut(listing(i.id.base, target), i.wanted);
              if broken then
                items == Queued(old(items), i, target, cut) && lost == old(lost) && tried == old(tried) + {i.id}
              else
                && |Queued(old(items), i, target, cut)| > k && tried == old(tried)
                && items == Queued(old(items), i, target, cut)[k := CaptureAt(i, target, cut)]
                && lost == if Loses(old(items), i, target, cut) then old(lost) + {i.id} else old(lost)
    {
      hide Cut, SplitTo, ItemsOk, Truthful, Grown, Joined, Loses, SplitsSo, PathsOf, Candidates, Backed;
      var i := items[k];
      ghost var cut := Cut(listing(i.id.base, target), i.wanted);
      var kept, overflow := SplitScope(listing(i.id.base, target), i.wanted);
      CutIs(listing(i.id.base, target), i.wanted, kept, overflow);
      QueuedKeeps(listing, items, tried, lost, k, target);
      CaptureKeeps(listing, items, tried, lost, k, target);
      BackedStays(items, Queued(items, i, target, cut), reviewed);
      BackedStays(items, Queued(items, i, target, cut)[k := CaptureAt(i, target, cut)], reviewed);
      if Loses(items, i, target, cut) && !broken {
        lost := lost + {i.id};
      }
      if overflow != [] {
        items := Enroll(items, FollowUp(i, target, overflow));
      }
      if broken {
        tried := tried + {i.id};
        return;
      }
      items := items[k := i.(capture := Some(Capture(target, kept, overflow)))];
    }

    /** Plan the review of an item, capturing it first if need be. */
    method Prepare(k: nat, tip: Commit, broken: bool) returns (r: Prepared)
      requires Sound() && k < |items| && items[k].state == Pending
      modifies `items, `tried, `lost
      ensures Sound() && Grown(old(items), items) && k < |items|
      ensures var i, target := old(items[k]), TargetOf(old(items[k]), tip);
              var cut := Cut(listing(i.id.base, target), i.wanted);
              if i.capture.Some? then
                items == old(items)[k := Selected(i)] && lost == old(lost) && tried == old(tried) && r == PlanOf(i)
              else if !ancestor(i.id.base, target) then
                items == old(items) && lost == old(lost) && tried == old(tried) && r == NotReady
              else if broken then
                && items == Queued(old(items), i, target, cut) && lost == old(lost) && tried == old(tried) + {i.id}
                && r == PlanningError
              else
                && |Queued(old(items), i, target, cut)| > k && tried == old(tried)
                && items == Queued(old(items), i, target, cut)[k := Selected(CaptureAt(i, target, cut))]
                && lost == (if Loses(old(items), i, target, cut) then old(lost) + {i.id} else old(lost))
                && r == PlanOf(CaptureAt(i, target, cut))
      ensures Prepares(listing, old(items), items, k, tip,
                       ancestor(old(items[k]).id.base,
                                if old(items[k]).pin.Some? then old(items[k]).pin.value else tip),
                       broken, r)
      ensures lost == old(lost) + if LosesOverflow(old(items), old(items[k]), items[k]) then {old(items[k]).id} else {}
    {
      hide Cut, ItemsOk, Truthful, Joined, Loses, Queued, SplitsSo, QueuesOverflow;
      assert Grown(items, items);
      if items[k].capture.None? {
        QueuedPrepares(listing, items, k, tip, broken);
        var target := TargetOf(items[k], tip);
        if !ancestor(items[k].id.base, target) {
          return NotReady;
        }
        CaptureItem(k, target, broken);
        if broken {
          return PlanningError;
        }
      }
      var i := items[k];
      SelectedKeeps(listing, items, tried, lost, k);
      BackedStays(items, items[k := Selected(i)], reviewed);
      GrownTwice(old(items), items, items[k := Selected(i)]);
      if i.capture.value.kept == [] {
        items := items[k := i.(state := NothingSelected)];
        return NothingToReview;
      }
      assert items == items[k := i];
      r := Plan(i.capture.value.target);
    }

    /** Start the review of a captured item, or block it before anything is uploaded. */
    method Launch(k: nat, scanned: bool, checkedOut: bool)
      requires Sound() && k < |items| && items[k].state == Pending && items[k].capture.Some?
      modifies `items
      ensures Sound()
      ensures items == old(items)[k := old(items[k]).(state := if scanned && checkedOut then Reviewing else Blocked)]
    {
      hide ItemsOk, Truthful, Joined;
      ghost var x := items[k].(state := if scanned && checkedOut then Reviewing else Blocked);
      StateKeeps(listing, items, tried, lost, k, x);
      BackedStays(items, items[k := x], reviewed);
      items := items[k := items[k].(state := if scanned && checkedOut then Reviewing else Blocked)];
    }

    /**
     In every state of the lane: the stretches reviewed since the boundary join up to the tip, each reviewed by a
     counted whole-range item; and behind exactly those whose capture lost no overflow, every reviewable row is kept by
     a counted part or waits in a live part pinned to the end of the stretch. Only a capture once broken off can lose
     any.
     */
    lemma TipIsTrue()
      requires Sound() && reviewedTip.Some?
      ensures forall p: Commit :: Covers(reviewed, p) <==> floor < p <= reviewedTip.value
      ensures forall s <- reviewed :: Backed(items, s) && (RowsHeld(listing, items, s) <==> s.item !in lost)
      ensures lost <= tried
    {
      assert lost <= tried;
      hide Covers, Backed, RowsHeld, ItemsOk, Truthful;
      JoinedCovers(floor, reviewed, reviewedTip.value);
      forall s <- reviewed ensures RowsHeld(listing, items, s) <==> s.item !in lost {
        BelowTheTipIsHeldIff(listing, items, tried, lost, s);
      }
    }

    /** A counted whole range moves the tip, from its own base or an unset tip. */
    method Advance(i: Item)
      requires Sound() && i in items && i.state == Done && i.capture.Some? && i.id.base <= i.capture.value.target
      modifies `reviewedTip, `floor, `reviewed
      ensures Sound()
      ensures if Whole(i) && (old(reviewedTip).None? || old(reviewedTip) == Some(i.id.base)) then
                && reviewedTip == Some(i.capture.value.target)
                && reviewed == old(reviewed) + [Stretch(i.id.base, i.capture.value.target, i.id)]
                && (old(reviewedTip).Some? ==> floor == old(floor))
              else
                reviewedTip == old(reviewedTip) && reviewed == old(reviewed) && floor == old(floor)
    {
      hide ItemsOk, Truthful, Joined, Backed;
      if Whole(i) && (reviewedTip.None? || reviewedTip == Some(i.id.base)) {
        ghost var s := Stretch(i.id.base, i.capture.value.target, i.id);
        if reviewedTip.None? {
          floor := i.id.base;
          NothingJoined(floor);
        }
        JoinMore(floor, reviewed, i.id.base, s);
        CountedBacks(items, i);
        reviewed := reviewed + [s];
        reviewedTip := Some(i.capture.value.target);
      }
    }

    /** The end of a review of an item. */
    method Harvest(k: nat, outcome: Outcome, maxFailures: nat)
      requires Sound() && k < |items| && items[k].state == Reviewing
      modifies `items, `reviewedTip, `floor, `reviewed
      ensures Sound() && tried == old(tried) && lost == old(lost)
      ensures |items| == |old(items)| && OthersStay(old(items), items, k)
      ensures Ends(old(items[k]), items[k], outcome, maxFailures)
      ensures items == old(items)[k := if outcome == Completed then old(items[k]).(state := Done, failures := 0)
                                       else Uncounted(old(items[k]), outcome, maxFailures)]
      ensures var i := old(items[k]);
              if outcome == Completed && Whole(i) &&
                  (old(reviewedTip).None? || old(reviewedTip) == Some(i.id.base)) then
                && i.capture.Some? && reviewedTip == Some(i.capture.value.target)
                && reviewed == old(reviewed) + [Stretch(i.id.base, i.capture.value.target, i.id)]
                && (old(reviewedTip).Some? ==> floor == old(floor))
              else
                reviewedTip == old(reviewedTip) && reviewed == old(reviewed) && floor == old(floor)
    {
      hide ItemsOk, Truthful, Joined, Grown, Backed;
      var i := items[k];
      var x := if outcome == Completed then i.(state := Done, failures := 0) else Uncounted(i, outcome, maxFailures);
      HarvestKeeps(listing, items, tried, lost, k, x);
      BackedStays(items, items[k := x], reviewed);
      items := items[k := x];
      assert items[k] == x;
      if outcome == Completed {
        Advance(x);
      }
    }
  }

  lemma CountedBacks(items: seq<Item>, i: Item)
    requires i in items && i.state == Done && Whole(i) && i.capture.Some?
    ensures Backed(items, Stretch(i.id.base, i.capture.value.target, i.id))
  {
  }

  function Selected(i: Item): Item
    requires i.capture.Some?
  {
    if i.capture.value.kept == [] then i.(state := NothingSelected) else i
  }

  function PlanOf(i: Item): Prepared
    requires i.capture.Some?
  {
    if i.capture.value.kept == [] then NothingToReview else Plan(i.capture.value.target)
  }

  lemma CutIs(rows: seq<Row>, wanted: Option<set<Path>>, kept: seq<Row>, overflow: seq<Row>)
    requires var c := Candidates(rows, wanted); Split(kept, overflow, Bytes(kept)) == SplitTo(c, |c|)
    ensures Cut(rows, wanted).kept == kept && Cut(rows, wanted).overflow == overflow
  {
  }

  lemma NothingJoined(floor: Commit)
    ensures Joined(floor, [], floor)
  {
  }

  lemma StateKeeps(listing: Listings, items: seq<Item>, tried: set<Id>, lost: set<Id>, k: nat, x: Item)
    requires ItemsOk(listing, items, tried, lost) && k < |items| && items[k].capture.Some? && Live(items[k])
    requires x == items[k].(state := x.state, failures := x.failures)
    requires x.state == NothingSelected ==> items[k].capture.value.kept == []
    requires x.state != Skipped
    ensures ItemsOk(listing, items[k := x], tried, lost) && Grown(items, items[k := x])
  {
    hide HasParent, Followed, Stale, Captured, UniqueIds;
    var i := items[k];
    assert ItemOk(listing, items, tried, lost, i);
    assert SameRange(i, x);
    UpdateGrows(items, k, x);
    ItemOkStays(listing, items, items[k := x], tried, tried, lost, lost, i);
    StateIsApart(listing, items[k := x], tried, lost, i, x);
    UpdateKeeps(listing, items, tried, tried, lost, lost, k, x);
  }

  lemma StateIsApart(listing: Listings, items: seq<Item>, tried: set<Id>, lost: set<Id>, i: Item, x: Item)
    requires ItemOk(listing, items, tried, lost, i) && x == i.(state := x.state, failures := x.failures) && StateOk(x)
    ensures ItemOk(listing, items, tried, lost, x)
  {
  }

  lemma SelectedKeeps(listing: Listings, items: seq<Item>, tried: set<Id>, lost: set<Id>, k: nat)
    requires ItemsOk(listing, items, tried, lost) && k < |items| && items[k].capture.Some? && items[k].state == Pending
    ensures ItemsOk(listing, items[k := Selected(items[k])], tried, lost)
    ensures Grown(items, items[k := Selected(items[k])])
  {
    hide ItemsOk, Grown;
    StateKeeps(listing, items, tried, lost, k, Selected(items[k]));
  }

  lemma HarvestKeeps(listing: Listings, items: seq<Item>, tried: set<Id>, lost: set<Id>, k: nat, x: Item)
    requires ItemsOk(listing, items, tried, lost) && k < |items| && items[k].state == Reviewing
    requires x == items[k].(state := x.state, failures := x.failures) && (x.state == Done || Live(x))
    ensures ItemsOk(listing, items[k := x], tried, lost) && Grown(items, items[k := x])
    ensures x.capture.Some? && x.id.base <= x.capture.value.target
  {
    assert ItemOk(listing, items, tried, lost, items[k]);
    hide ItemsOk, ItemOk, Grown;
    StateKeeps(listing, items, tried, lost, k, x);
  }

  // ----- what is below the tip --------------------------------------------------------------------------

  /** A counted or live part of the range keeps the row, or a live part pinned to the target waits to select it. */
  ghost predicate Holds(listing: Listings, h: Item, range: Id, target: Commit, r: Row) {
    && h.id.base == range.base && h.id.head == range.head
    && if h.capture.Some? then
         (h.state == Done || Live(h)) && h.capture.value.target == target && r in h.capture.value.kept
       else Live(h) && h.pin == Some(target) && r in Candidates(listing(h.id.base, target), h.wanted)
  }

  ghost predicate Held(listing: Listings, items: seq<Item>, range: Id, target: Commit, r: Row) {
    exists h <- items :: Holds(listing, h, range, target, r)
  }

  lemma CutHolds(listing: Listings, base: Commit, target: Commit, wanted: Option<set<Path>>)
    requires Truthful(listing)
    ensures var rows := listing(base, target);
            var cut := Cut(rows, wanted);
            var next := Candidates(rows, Some(PathsOf(cut.overflow)));
            && (forall r :: r in Candidates(rows, wanted) <==> r in cut.kept || r in cut.overflow)
            && (forall r :: r in next <==> r in cut.overflow)
            && (cut.kept == [] ==> cut.overflow == []) && (cut.kept != [] ==> |next| < |Candidates(rows, wanted)|)
  {
    var rows := listing(base, target);
    var c := Candidates(rows, wanted);
    hide Candidates, SplitTo;
    FollowUpTakesOverflow(rows, wanted);
    CandidatesAre(rows, wanted);
    SplitIs(c, |c|);
    assert c[..|c|] == c;
    assert Divided(Cut(rows, wanted), c);
  }

  /** From a capture on, every row it selected from is held by it or further down its chain. */
  lemma {:induction false} ChainHolds(listing: Listings, items: seq<Item>, tried: set<Id>, lost: set<Id>, i: Item,
                                      r: Row)
    requires Truthful(listing) && ItemsOk(listing, items, tried, lost)
    requires i in items && i.capture.Some? && i.id !in lost
    requires r in Candidates(listing(i.id.base, i.capture.value.target), i.wanted)
    ensures Held(listing, items, i.id, i.capture.value.target, r)
    decreases |Candidates(listing(i.id.base, i.capture.value.target), i.wanted)|
  {
    hide Candidates, Cut, Truthful, UniqueIds, Stale;
    var c := i.capture.value;
    assert ItemOk(listing, items, tried, lost, i);
    CutHolds(listing, i.id.base, c.target, i.wanted);
    if r in c.kept {
      assert Holds(listing, i, i.id, c.target, r);
    } else {
      var j :| j in items && j.pin == Some(c.target) && FollowUpOf(listing, j, i);
      assert ItemOk(listing, items, tried, lost, j);
      if j.capture.Some? {
        ChainHolds(listing, items, tried, lost, j, r);
        var h :| h in items && Holds(listing, h, j.id, c.target, r);
        assert Holds(listing, h, i.id, c.target, r);
      } else {
        assert Holds(listing, j, i.id, c.target, r);
      }
    }
  }

  /** The follow-ups of one range are all pinned where its first one is. */
  lemma {:induction false} OnePin(listing: Listings, items: seq<Item>, tried: set<Id>, lost: set<Id>, first: Item,
                                  j: Item)
    requires ItemsOk(listing, items, tried, lost) && first in items && j in items
    requires first.id.part == 2 && j.id == first.id.(part := j.id.part) && j.id.part >= 2
    ensures j.pin == first.pin
    decreases j.id.part
  {
    hide Cut, PathsOf, Captured, Followed, Stale, UniqueIds;
    if j.id.part == 2 {
      SameIdSameItem(items, j, first);
    } else {
      var p := ParentOf(listing, items, tried, lost, j);
      OnePin(listing, items, tried, lost, first, p);
    }
  }

  /** A lost capture leaves its overflow to nobody. */
  lemma LostIsNotHeld(listing: Listings, items: seq<Item>, tried: set<Id>, lost: set<Id>, i: Item, r: Row)
    requires Truthful(listing) && ItemsOk(listing, items, tried, lost)
    requires i in items && i.capture.Some? && i.id in lost && r in i.capture.value.overflow
    ensures !Held(listing, items, i.id, i.capture.value.target, r)
  {
    hide Cut, Truthful, HasParent, Candidates, Followed;
    var c := i.capture.value;
    assert ItemOk(listing, items, tried, lost, i);
    KeptIsNotDeferred(listing, i, r);
    var first :| first in items && first.id == Next(i.id) && first.pin != Some(c.target);
    forall h | h in items && h.id.base == i.id.base && h.id.head == i.id.head
      ensures !Holds(listing, h, i.id, c.target, r)
    {
      assert ItemOk(listing, items, tried, lost, h);
      if h.id.part == 1 {
        SameIdSameItem(items, h, i);
      } else {
        OnePin(listing, items, tried, lost, first, h);
      }
    }
  }

  lemma KeptIsNotDeferred(listing: Listings, i: Item, r: Row)
    requires Truthful(listing) && i.capture.Some? && Captured(listing, i) && r in i.capture.value.overflow
    ensures r !in i.capture.value.kept
    ensures r in listing(i.id.base, i.capture.value.target) && Reviewable(r)
  {
    var rows := listing(i.id.base, i.capture.value.target);
    var c := Candidates(rows, i.wanted);
    hide Candidates, SplitTo, Reviewable;
    CandidatesAre(rows, i.wanted);
    SplitIs(c, |c|);
    assert c[..|c|] == c && Divided(Cut(rows, i.wanted), c);
  }

  ghost predicate RowsHeld(listing: Listings, items: seq<Item>, s: Stretch) {
    forall r :: r in listing(s.from, s.to) && Reviewable(r) ==> Held(listing, items, s.item, s.to, r)
  }

  /**
   Below the tip, every reviewable row of every reviewed stretch is kept by a counted part or waits in a live one
   pinned to the stretch's end: for exactly those stretches whose counted capture did not lose its overflow.
   */
  lemma BelowTheTipIsHeldIff(listing: Listings, items: seq<Item>, tried: set<Id>, lost: set<Id>, s: Stretch)
    requires Truthful(listing) && ItemsOk(listing, items, tried, lost) && Backed(items, s)
    ensures RowsHeld(listing, items, s) <==> s.item !in lost
  {
    var rows := listing(s.from, s.to);
    var i :| i in items && i.id == s.item && i.state == Done && Whole(i) && i.capture.Some?
             && i.id.base == s.from && i.capture.value.target == s.to;
    hide Reviewable, Held, Stale, Followed, HasParent;
    assert ItemOk(listing, items, tried, lost, i);
    CandidatesAre(rows, None);
    if i.id in lost {
      var r := i.capture.value.overflow[0];
      KeptIsNotDeferred(listing, i, r);
      LostIsNotHeld(listing, items, tried, lost, i, r);
    } else {
      forall r | r in rows && Reviewable(r) ensures Held(listing, items, s.item, s.to, r) {
        ChainHolds(listing, items, tried, lost, i, r);
      }
    }
  }

  /** What an item selects at a target splits into what is left of the parts of the whole range. */
  ghost predicate Left(listing: Listings, j: Item, target: Commit)
    requires Truthful(listing)
  {
    var rows := listing(j.id.base, target);
    assert Listing(rows);
    var all, left := Parts(rows, None), Parts(rows, j.wanted);
    1 <= j.id.part <= |all| && left == all[j.id.part - 1..]
  }

  lemma {:induction false} PartsLeft(listing: Listings, items: seq<Item>, tried: set<Id>, lost: set<Id>, j: Item,
                                     target: Commit)
    requires Truthful(listing) && ItemsOk(listing, items, tried, lost) && j in items
    requires j.pin.Some? ==> j.pin == Some(target)
    ensures Left(listing, j, target)
    decreases j.id.part
  {
    assert ItemOk(listing, items, tried, lost, j);
    hide Left, ItemsOk, FollowUpOf, Truthful, ItemOk;
    if j.id.part > 1 {
      var p := ParentOf(listing, items, tried, lost, j);
      PartsLeft(listing, items, tried, lost, p, target);
      FirstPartOff(listing, j, p);
    } else {
      AllIsLeft(listing, j, target);
    }
  }

  lemma AllIsLeft(listing: Listings, j: Item, target: Commit)
    requires Truthful(listing) && j.id.part == 1 && j.wanted.None?
    ensures Left(listing, j, target)
  {
    assert Listing(listing(j.id.base, target));
    hide Parts;
  }

  lemma ParentOf(listing: Listings, items: seq<Item>, tried: set<Id>, lost: set<Id>, j: Item) returns (p: Item)
    requires ItemsOk(listing, items, tried, lost) && j in items && j.id.part > 1
    ensures j.pin.Some? && p in items && FollowUpOf(listing, j, p) && (p.pin.Some? ==> p.pin == j.pin)
    ensures p.id.part == j.id.part - 1
    ensures p.id == j.id.(part := p.id.part) && p.id.part >= 1
  {
    hide Cut, PathsOf, Captured, Followed, Stale, UniqueIds;
    assert ItemOk(listing, items, tried, lost, j);
    p :| p in items && FollowUpOf(listing, j, p) && (p.capture.Some? || p.id in tried);
    assert ItemOk(listing, items, tried, lost, p);
  }

  lemma FirstPartOff(listing: Listings, j: Item, p: Item)
    requires Truthful(listing) && j.pin.Some? && FollowUpOf(listing, j, p) && Left(listing, p, j.pin.value)
    ensures Left(listing, j, j.pin.value)
  {
    var rows := listing(p.id.base, j.pin.value);
    assert Listing(rows);
    PartsUnfold(rows, p.wanted);
    hide Parts, Candidates, SplitTo, PathsOf, Listing;
    DropOne(Parts(rows, None), Parts(rows, p.wanted), Parts(rows, j.wanted), p.id.part - 1);
  }

  lemma DropOne<T>(all: seq<T>, left: seq<T>, next: seq<T>, n: nat)
    requires n < |all| && left == all[n..] && |left| > 1 && next == left[1..]
    ensures n + 1 < |all| && next == all[n + 1..]
  {
  }

  lemma CapturedPart(listing: Listings, items: seq<Item>, tried: set<Id>, lost: set<Id>, j: Item)
    requires Truthful(listing) && ItemsOk(listing, items, tried, lost) && j in items && j.capture.Some?
    ensures var all := Parts(listing(j.id.base, j.capture.value.target), None);
            1 <= j.id.part <= |all| && j.capture.value.kept == all[j.id.part - 1]
  {
    hide Parts, Candidates, SplitTo, PathsOf, Listing, HasParent, Followed, Stale, UniqueIds;
    var rows := listing(j.id.base, j.capture.value.target);
    assert ItemOk(listing, items, tried, lost, j) && Listing(rows);
    PartsLeft(listing, items, tried, lost, j, j.capture.value.target);
    PartsUnfold(rows, j.wanted);
  }

  /** The captured parts of a range at one target are parts of its exact split, so none keeps a row of another. */
  lemma PartsKeepApart(listing: Listings, items: seq<Item>, tried: set<Id>, lost: set<Id>, a: Item, b: Item, r: Row)
    requires Truthful(listing) && ItemsOk(listing, items, tried, lost) && a in items && b in items
    requires a.id == b.id.(part := a.id.part) && a.capture.Some? && b.capture.Some?
    requires a.capture.value.target == b.capture.value.target && r in a.capture.value.kept && r in b.capture.value.kept
    ensures a == b
  {
    hide Parts, Reviewable, Listing, ItemOk;
    var rows := listing(a.id.base, a.capture.value.target);
    assert Listing(rows);
    CapturedPart(listing, items, tried, lost, a);
    CapturedPart(listing, items, tried, lost, b);
    SplittingIsExact(rows);
    SameIdSameItem(items, a, b);
  }

  ghost predicate Covers(stretches: seq<Stretch>, p: Commit) {
    exists s <- stretches :: s.from < p <= s.to
  }

  /** The stretches join up from the boundary to the tip: they cover what lies between, and nothing beyond it. */
  lemma {:induction false} JoinedCovers(floor: Commit, stretches: seq<Stretch>, tip: Commit)
    requires Joined(floor, stretches, tip)
    ensures floor <= tip && forall p: Commit :: Covers(stretches, p) <==> floor < p <= tip
  {
    if stretches != [] {
      var front, last := stretches[..|stretches| - 1], stretches[|stretches| - 1];
      JoinedCovers(floor, front, last.from);
      forall p: Commit ensures Covers(stretches, p) <==> Covers(front, p) || last.from < p <= last.to {
        assert stretches == front + [last];
        if Covers(front, p) {
          var s :| s in front && s.from < p <= s.to;
          assert s in stretches;
        }
      }
    }
  }

  /** A capture defers something exactly if what it selects from is over the size limit. */
  lemma {:induction false} OverflowIff(rows: seq<Row>, wanted: Option<set<Path>>)
    ensures Cut(rows, wanted).overflow == [] <==> Bytes(Candidates(rows, wanted)) <= SCOPE_BYTES
  {
    var c := Candidates(rows, wanted);
    FitsIff(c, |c|);
    assert c[..|c|] == c;
  }

  lemma {:induction false} FitsIff(c: seq<Row>, n: nat)
    requires n <= |c|
    ensures var s := SplitTo(c, n);
            (s.overflow == [] <==> Bytes(c[..n]) <= SCOPE_BYTES) && (s.overflow == [] ==> s.total == Bytes(c[..n]))
  {
    if n > 0 {
      FitsIff(c, n - 1);
      assert c[..n][..n - 1] == c[..n - 1];
    }
  }

  /** A capture of a fresh whole range, broken off after its follow-up was enrolled. */
  method BreakOff(listing: Listings, ancestor: (Commit, Commit) -> bool, base: Commit, head: Commit, first: Commit)
    returns (lane: Lane)
    requires Truthful(listing) && forall a, b :: ancestor(a, b) ==> a <= b
    requires base != head && ancestor(base, head) && ancestor(base, first)
    requires Cut(listing(base, first), None).overflow != []
    ensures fresh(lane) && lane.Sound() && lane.listing == listing && lane.ancestor == ancestor
    ensures var whole := WholeRange(base, head);
            lane.items == [whole, FollowUp(whole, first, Cut(listing(base, first), None).overflow)]
    ensures lane.reviewedTip == Some(base) && lane.reviewed == [] && lane.lost == {}
  {
    hide Cut, Truthful, ItemsOk, Joined, Grown, Backed, PathsOf, Prepares, LosesOverflow, Discovers;
    lane := new Lane(listing, ancestor);
    lane.Discover(base, None, false);
    lane.Discover(head, None, false);
    assert Coalesce([]) == [];
    assert lane.items == [WholeRange(base, head)];
    var r := lane.Prepare(0, first, true);
  }

  /** It happens: a capture broken off after enrolling its follow-up, then made when the branch has moved on. */
  method LoseOverflow(listing: Listings, ancestor: (Commit, Commit) -> bool, base: Commit, head: Commit, first: Commit,
                      second: Commit)
    returns (lane: Lane)
    requires Truthful(listing) && forall a, b :: ancestor(a, b) ==> a <= b
    requires base != head && ancestor(base, head) && ancestor(base, first) && ancestor(base, second) && first != second
    requires Cut(listing(base, first), None).overflow != [] && Cut(listing(base, second), None).overflow != []
    ensures fresh(lane) && lane.Sound() && lane.listing == listing && lane.reviewedTip == Some(second)
    ensures lane.reviewed == [Stretch(base, second, Id(base, head, 1))] && lane.lost == {Id(base, head, 1)}
  {
    hide Cut, Truthful, ItemsOk, Joined, Grown, Backed, PathsOf, Prepares, LosesOverflow, OthersStay;
    lane := BreakOff(listing, ancestor, base, head, first);
    ghost var whole, cut := WholeRange(base, head), Cut(listing(base, second), None);
    CutHolds(listing, base, second, None);
    assert lane.items[1] in lane.items && lane.items[1].id == Next(whole.id);
    assert Queued(lane.items, whole, second, cut) == lane.items;
    var r := lane.Prepare(0, second, false);
    assert lane.items[0] == CaptureAt(whole, second, cut);
    lane.Launch(0, true, true);
    lane.Harvest(0, Completed, 3);
  }
}
