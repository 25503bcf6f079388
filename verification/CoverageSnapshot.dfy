/**
 Coverage of a target as a union of review credit, kept as a snapshot that is extended incrementally
 while evidence checks may fail and be retried.
 */
module CoverageSnapshot {
  import opened Prelude
  import opened Ledger
  import Intervals

  type Target = string
  type Name = string

  /** The lines one verified path of a review carries to a target. */
  datatype Piece = Piece(name: Name, lines: set<int>)

  /**
   What a review is worth at a target once its evidence verifies: Git objects are immutable, so this never changes.
   */
  type Credit = (Event, Target) -> seq<Piece>

  /** One try at a review: whole, or an error after some of its pieces were credited. */
  datatype Attempt = Whole | Failed(done: nat)

  type Covered = map<Name, set<int>>

  datatype Totals = Totals(covered: Covered, gaps: seq<Id>)

  predicate Creditable(event: Event) {
    event.payload.Review? && event.payload.creditable
  }

  predicate AnyCreditable(events: seq<Event>) {
    exists e <- events :: Creditable(e)
  }

  // ----- folding reviews --------------------------------------------------------------------------------

  function LinesAt(covered: Covered, name: Name): set<int> {
    if name in covered then covered[name] else {}
  }

  function AddPiece(covered: Covered, piece: Piece): Covered {
    if piece.lines == {} then covered else covered[piece.name := LinesAt(covered, piece.name) + piece.lines]
  }

  function AddPieces(covered: Covered, pieces: seq<Piece>, n: nat): Covered
    requires n <= |pieces|
  {
    if n == 0 then covered else AddPiece(AddPieces(covered, pieces, n - 1), pieces[n - 1])
  }

  function Reach(attempt: Attempt, pieces: seq<Piece>): (n: nat)
    ensures n <= |pieces|
  {
    if attempt.Failed? && attempt.done < |pieces| then attempt.done else |pieces|
  }

  /** The first n reviews folded in. */
  function FoldTo(start: Covered, target: Target, reviews: seq<Event>, credit: Credit, attempts: nat -> Attempt,
                  n: nat): Totals
    requires n <= |reviews|
  {
    if n == 0 then Totals(start, [])
    else
      var before, review := FoldTo(start, target, reviews, credit, attempts, n - 1), reviews[n - 1];
      if !Creditable(review) then before
      else
        var pieces := credit(review, target);
        Totals(AddPieces(before.covered, pieces, Reach(attempts(n - 1), pieces)),
               if attempts(n - 1).Failed? then before.gaps + [Sha(review)] else before.gaps)
  }

  /** The dictionaries a fold fills in place. */
  class Accounts {
    var covered: Covered
    var gaps: seq<Id>

    constructor (start: Covered)
      ensures covered == start && gaps == []
    {
      covered, gaps := start, [];
    }

    method Fold(target: Target, reviews: seq<Event>, credit: Credit, attempts: nat -> Attempt)
      requires gaps == []
      modifies this
      ensures Totals(covered, gaps) == FoldTo(old(covered), target, reviews, credit, attempts, |reviews|)
    {
      for i := 0 to |reviews|
        invariant Totals(covered, gaps) == FoldTo(old(covered), target, reviews, credit, attempts, i)
      {
        if Creditable(reviews[i]) {
          var pieces, before, failed := credit(reviews[i], target), covered, gaps;
          for k := 0 to Reach(attempts(i), pieces)
            invariant covered == AddPieces(before, pieces, k) && gaps == failed
          {
            covered := AddPiece(covered, pieces[k]);
          }
          if attempts(i).Failed? {
            gaps := gaps + [Sha(reviews[i])];
          }
        }
      }
    }
  }

  // ----- what a fold credits ----------------------------------------------------------------------------

  ghost predicate Covers(covered: Covered, name: Name, line: int) {
    name in covered && line in covered[name]
  }

  ghost predicate Credits(credit: Credit, target: Target, review: Event, name: Name, line: int) {
    exists p <- credit(review, target) :: p.name == name && line in p.lines
  }

  /** Nothing is covered beyond the start and the credit of the reviews. */
  ghost predicate Bounded(start: Covered, covered: Covered, target: Target, reviews: seq<Event>, credit: Credit) {
    forall name, line :: Covers(covered, name, line) ==>
      Covers(start, name, line) || exists e <- reviews :: Creditable(e) && Credits(credit, target, e, name, line)
  }

  /** Everything a creditable review without a gap is worth is covered. */
  ghost predicate Complete(covered: Covered, target: Target, reviews: seq<Event>, gaps: seq<Id>, credit: Credit) {
    forall e, name, line ::
        e in reviews && Creditable(e) && Sha(e) !in gaps && Credits(credit, target, e, name, line) ==>
      Covers(covered, name, line)
  }

  ghost predicate Includes(large: Covered, small: Covered) {
    forall name, line :: Covers(small, name, line) ==> Covers(large, name, line)
  }

  lemma {:induction false} PiecesAdd(covered: Covered, pieces: seq<Piece>, n: nat)
    requires n <= |pieces|
    ensures forall name, line :: Covers(AddPieces(covered, pieces, n), name, line) <==>
              Covers(covered, name, line) || exists i :: 0 <= i < n && pieces[i].name == name && line in pieces[i].lines
  {
    if n > 0 {
      PiecesAdd(covered, pieces, n - 1);
      var before := AddPieces(covered, pieces, n - 1);
      forall name, line
        ensures Covers(AddPieces(covered, pieces, n), name, line) <==>
                Covers(before, name, line) || (pieces[n - 1].name == name && line in pieces[n - 1].lines)
      {
      }
    }
  }

  /** Folding one review adds at most its credit, and all of it unless a gap is recorded. */
  lemma ReviewAdds(covered: Covered, pieces: seq<Piece>, n: nat)
    requires n <= |pieces|
    ensures Includes(AddPieces(covered, pieces, n), covered)
    ensures forall name, line :: Covers(AddPieces(covered, pieces, n), name, line) ==>
              Covers(covered, name, line) || exists p <- pieces :: p.name == name && line in p.lines
    ensures n == |pieces| ==> forall p, line :: p in pieces && line in p.lines ==>
              Covers(AddPieces(covered, pieces, n), p.name, line)
  {
    PiecesAdd(covered, pieces, n);
    forall p, line | n == |pieces| && p in pieces && line in p.lines
      ensures Covers(AddPieces(covered, pieces, n), p.name, line)
    {
      var i :| 0 <= i < n && pieces[i] == p;
    }
  }

  /**
   Whatever fails on the way, a fold lies between the credit of the reviews it left no gap for and the credit of all.
   */
  lemma {:induction false} FoldIsSandwiched(start: Covered, target: Target, reviews: seq<Event>, credit: Credit,
                                            attempts: nat -> Attempt, n: nat)
    requires n <= |reviews|
    ensures var r := FoldTo(start, target, reviews, credit, attempts, n);
            && Includes(r.covered, start)
            && Bounded(start, r.covered, target, reviews[..n], credit)
            && Complete(r.covered, target, reviews[..n], r.gaps, credit)
            && forall id <- r.gaps :: exists e <- reviews[..n] :: Creditable(e) && Sha(e) == id
  {
    if n > 0 {
      FoldIsSandwiched(start, target, reviews, credit, attempts, n - 1);
      var before, r := FoldTo(start, target, reviews, credit, attempts, n - 1),
          FoldTo(start, target, reviews, credit, attempts, n);
      var review := reviews[n - 1];
      assert reviews[..n] == reviews[..n - 1] + [review];
      if Creditable(review) {
        var pieces := credit(review, target);
        ReviewAdds(before.covered, pieces, Reach(attempts(n - 1), pieces));
        FoldStep(start, target, reviews[..n - 1], review, credit, before, r);
      }
    }
  }

  lemma FoldStep(start: Covered, target: Target, front: seq<Event>, review: Event, credit: Credit, before: Totals,
                 after: Totals)
    requires Creditable(review)
    requires Includes(before.covered, start) && Bounded(start, before.covered, target, front, credit)
    requires Complete(before.covered, target, front, before.gaps, credit)
    requires forall id <- before.gaps :: exists e <- front :: Creditable(e) && Sha(e) == id
    requires Includes(after.covered, before.covered)
    requires forall name, line :: Covers(after.covered, name, line) ==>
               Covers(before.covered, name, line) || Credits(credit, target, review, name, line)
    requires after.gaps == before.gaps + [Sha(review)] ||
             (after.gaps == before.gaps && forall name, line :: Credits(credit, target, review, name, line) ==>
              Covers(after.covered, name, line))
    ensures Includes(after.covered, start)
    ensures Bounded(start, after.covered, target, front + [review], credit)
    ensures Complete(after.covered, target, front + [review], after.gaps, credit)
    ensures forall id <- after.gaps :: exists e <- front + [review] :: Creditable(e) && Sha(e) == id
  {
    var all := front + [review];
    forall name, line | Covers(after.covered, name, line)
      ensures Covers(start, name, line) || exists e <- all :: Creditable(e) && Credits(credit, target, e, name, line)
    {
      if !Covers(start, name, line) {
        if Covers(before.covered, name, line) {
          var e :| e in front && Creditable(e) && Credits(credit, target, e, name, line);
          assert e in all;
        } else {
          assert review in all;
        }
      }
    }
    forall e, name, line | e in all && Creditable(e) && Sha(e) !in after.gaps && Credits(credit, target, e, name, line)
      ensures Covers(after.covered, name, line)
    {
      if e in front {
        assert Covers(before.covered, name, line);
      }
    }
    forall id | id in after.gaps ensures exists e <- all :: Creditable(e) && Sha(e) == id {
      if id in before.gaps {
        var e :| e in front && Creditable(e) && Sha(e) == id;
        assert e in all;
      } else {
        assert review in all;
      }
    }
  }

  /** What one try at a review puts in: its pieces up to the one that failed. */
  ghost predicate Gives(credit: Credit, target: Target, review: Event, attempt: Attempt, name: Name, line: int) {
    var pieces := credit(review, target);
    exists k ::
      && 0 <= k < |pieces| && (attempt.Failed? ==> k < attempt.done)
      && pieces[k].name == name && line in pieces[k].lines
  }

  /** Exactly what a fold credits and exactly which reviews it leaves a gap for. */
  lemma {:induction false} FoldIs(start: Covered, target: Target, reviews: seq<Event>, credit: Credit,
                                  attempts: nat -> Attempt, n: nat)
    requires n <= |reviews|
    ensures forall name, line :: Covers(FoldTo(start, target, reviews, credit, attempts, n).covered, name, line) <==>
              Covers(start, name, line) ||
              exists i :: 0 <= i < n && Creditable(reviews[i])
                          && Gives(credit, target, reviews[i], attempts(i), name, line)
    ensures forall id :: id in FoldTo(start, target, reviews, credit, attempts, n).gaps <==>
              exists i :: 0 <= i < n && Creditable(reviews[i]) && attempts(i).Failed? && Sha(reviews[i]) == id
  {
    if n > 0 {
      FoldIs(start, target, reviews, credit, attempts, n - 1);
      var review, before := reviews[n - 1], FoldTo(start, target, reviews, credit, attempts, n - 1).covered;
      if Creditable(review) {
        var pieces := credit(review, target);
        PiecesAdd(before, pieces, Reach(attempts(n - 1), pieces));
      }
    }
  }

  // ----- snapshots --------------------------------------------------------------------------------------

  /** A persisted snapshot; prefix stands for the digest of the event ids it was taken over. */
  datatype Snapshot = Snapshot(events: nat, prefix: seq<Id>, covered: Covered, gaps: seq<Id>)

  datatype Outcome = Current | Unchanged | Extended | Full

  function Prefix(events: seq<Event>): (r: seq<Id>) {
    seq(|events|, i requires 0 <= i < |events| => Sha(events[i]))
  }

  /** Rows out of the interval bound do not decode, and the snapshot then reads as missing. */
  predicate Readable(s: Snapshot) {
    forall name <- s.covered :: Intervals.InBounds(s.covered[name])
  }

  predicate Extends(s: Snapshot, events: seq<Event>) {
    s.events <= |events| && s.prefix == Prefix(events[..s.events])
  }

  /** The part of a stored snapshot that still speaks about this sequence. */
  predicate Usable(stored: map<Target, Snapshot>, target: Target, events: seq<Event>) {
    target in stored && Readable(stored[target]) && Extends(stored[target], events)
  }

  function Load(stored: map<Target, Snapshot>, target: Target, events: seq<Event>): Option<Totals> {
    if !Usable(stored, target, events) || AnyCreditable(events[stored[target].events..]) then None
    else Some(Totals(stored[target].covered, stored[target].gaps))
  }

  /** The positions of the first n events that left a gap. */
  function Retried(events: seq<Event>, gaps: seq<Id>, n: nat): (r: seq<nat>)
    requires n <= |events|
    ensures forall p <- r :: p < n
  {
    if n == 0 then [] else Retried(events, gaps, n - 1) + (if Sha(events[n - 1]) in gaps then [n - 1] else [])
  }

  function From(first: nat, last: nat): (r: seq<nat>)
    requires first <= last
    ensures forall p :: p in r <==> first <= p < last
  {
    if first == last then [] else From(first, last - 1) + [last - 1]
  }

  function Pick(events: seq<Event>, positions: seq<nat>): (r: seq<Event>)
    requires forall p <- positions :: p < |events|
    ensures |r| == |positions|
    ensures forall i :: 0 <= i < |r| ==> positions[i] in positions && r[i] == events[positions[i]]
  {
    seq(|positions|, i requires 0 <= i < |positions| => assert positions[i] in positions; events[positions[i]])
  }

  /** What comes of each try of a fold, when attempts tells it of each position of the ledger. */
  function Tries(attempts: nat -> Attempt, positions: seq<nat>): nat -> Attempt {
    (i: nat) => if i < |positions| then attempts(positions[i]) else Whole
  }

  function FoldAt(start: Covered, target: Target, events: seq<Event>, positions: seq<nat>, credit: Credit,
                  attempts: nat -> Attempt): Totals
    requires forall p <- positions :: p < |events|
  {
    FoldTo(start, target, Pick(events, positions), credit, Tries(attempts, positions), |positions|)
  }

  function NonEmpty(covered: Covered): Covered {
    map name | name in covered && covered[name] != {} :: covered[name]
  }

  /** The positions a refresh folds. */
  function Todo(s: Snapshot, events: seq<Event>): (todo: seq<nat>)
    requires Extends(s, events)
    ensures forall p <- todo :: p < |events|
  {
    var todo := Retried(events, s.gaps, s.events) + From(s.events, |events|);
    if AnyCreditable(Pick(events, todo)) then todo else []
  }

  function Written(covered: Covered, gaps: seq<Id>, events: seq<Event>): Snapshot {
    Snapshot(|events|, Prefix(events), NonEmpty(covered), gaps)
  }

  function Classify(s: Snapshot, events: seq<Event>, covered: Covered, gaps: seq<Id>): Outcome
    requires Extends(s, events)
  {
    if AnyCreditable(events[s.events..]) || NonEmpty(covered) != NonEmpty(s.covered) ||
        !(Elements(s.gaps) <= Elements(gaps))
    then Extended else Unchanged
  }

  /** The stored snapshots after a refresh, and what it reports; attempts says what becomes of each ledger position. */
  function Refreshed(stored: map<Target, Snapshot>, target: Target, events: seq<Event>, credit: Credit,
                     attempts: nat -> Attempt): (map<Target, Snapshot>, Outcome) {
    if Usable(stored, target, events) then
      var s := stored[target];
      var todo := Todo(s, events);
      if todo == [] && s.events == |events| then (stored, Current)
      else
        var r := FoldAt(s.covered, target, events, todo, credit, attempts);
        (stored[target := Written(r.covered, r.gaps, events)], Classify(s, events, r.covered, r.gaps))
    else
      var r := FoldAt(map[], target, events, From(0, |events|), credit, attempts);
      (stored[target := Written(r.covered, r.gaps, events)], Full)
  }

  /** The stored snapshot was taken over the first events of this very sequence and can be read back. */
  ghost predicate Stands(stored: map<Target, Snapshot>, target: Target, events: seq<Event>) {
    target in stored &&
    var s := stored[target];
    && |s.prefix| == s.events <= |events| && (forall i :: 0 <= i < s.events ==> s.prefix[i] == Sha(events[i]))
    && forall name, line :: Covers(s.covered, name, line) ==> 1 <= line <= 1_000_000
  }

  /** The creditable reviews a refresh tries: all of them from nothing, else those that came since or left a gap. */
  ghost predicate Tried(before: Option<Snapshot>, events: seq<Event>, p: nat) {
    && p < |events| && Creditable(events[p])
    && (before.Some? ==> p >= before.value.events || Sha(events[p]) in before.value.gaps)
  }

  /** The snapshot written: what stood before and what the tries gave, with the gaps they left and no others. */
  ghost predicate Records(before: Option<Snapshot>, after: Snapshot, target: Target, events: seq<Event>,
                          credit: Credit, attempts: nat -> Attempt) {
    && after.events == |events| == |after.prefix| &&
       (forall i :: 0 <= i < |events| ==> after.prefix[i] == Sha(events[i]))
    && (forall name <- after.covered :: after.covered[name] != {})
    && (forall name, line :: Covers(after.covered, name, line) <==>
        || (before.Some? && Covers(before.value.covered, name, line))
        || exists p: nat :: Tried(before, events, p) && Gives(credit, target, events[p], attempts(p), name, line))
    && (forall id :: id in after.gaps <==>
        exists p: nat :: Tried(before, events, p) && attempts(p).Failed? && Sha(events[p]) == id)
  }

  /** Selection's answer may be another: a review came, a line was gained or a gap closed. */
  ghost predicate Moved(before: Snapshot, after: Snapshot, events: seq<Event>) {
    || (exists p :: before.events <= p < |events| && Creditable(events[p]))
    || (exists name, line :: Covers(after.covered, name, line) && !Covers(before.covered, name, line))
    || (exists id <- before.gaps :: id !in after.gaps)
  }

  /** What a refresh does to the stored snapshots and what it reports. */
  ghost predicate Brings(stored: map<Target, Snapshot>, stored': map<Target, Snapshot>, target: Target,
                         events: seq<Event>, credit: Credit, attempts: nat -> Attempt, outcome: Outcome) {
    && stored' - {target} == stored - {target}
    && (outcome.Full? <==> !Stands(stored, target, events))
    && (outcome.Current? <==>
        Stands(stored, target, events) && stored[target].events == |events|
        && forall p: nat :: !Tried(Some(stored[target]), events, p))
    && (outcome.Current? ==> stored' == stored)
    && (!outcome.Current? ==>
        target in stored'
        && Records(if outcome.Full? then None else Some(stored[target]), stored'[target], target, events, credit,
                   attempts))
    && (outcome.Unchanged? ==> !Moved(stored[target], stored'[target], events))
    && (outcome.Extended? ==> Moved(stored[target], stored'[target], events))
  }

  ghost predicate CreditInBounds(target: Target, events: seq<Event>, credit: Credit) {
    forall e, name, line :: e in events && Creditable(e) && Credits(credit, target, e, name, line) ==>
      1 <= line <= 1_000_000
  }

  class Store {
    var snapshots: map<Target, Snapshot>

    /** Brings one target's snapshot to this ledger sequence. */
    method RefreshOne(target: Target, events: seq<Event>, credit: Credit, attempts: nat -> Attempt)
        returns (outcome: Outcome)
      modifies this
      ensures (snapshots, outcome) == Refreshed(old(snapshots), target, events, credit, attempts)
      ensures Brings(old(snapshots), snapshots, target, events, credit, attempts, outcome)
      ensures CreditInBounds(target, events, credit) ==> Load(snapshots, target, events).Some?
    {
      RefreshIs(snapshots, target, events, credit, attempts);
      hide FoldTo, Retried, From, Pick, Tries, Prefix, NonEmpty, Brings, CreditInBounds, Load;
      if Usable(snapshots, target, events) {
        var s := snapshots[target];
        var todo := Todo(s, events);
        if todo == [] && s.events == |events| {
          return Current;
        }
        var accounts := new Accounts(s.covered);
        accounts.Fold(target, Pick(events, todo), credit, Tries(attempts, todo));
        snapshots := snapshots[target := Written(accounts.covered, accounts.gaps, events)];
        outcome := Classify(s, events, accounts.covered, accounts.gaps);
      } else {
        var accounts := new Accounts(map[]);
        var all := From(0, |events|);
        accounts.Fold(target, Pick(events, all), credit, Tries(attempts, all));
        snapshots := snapshots[target := Written(accounts.covered, accounts.gaps, events)];
        outcome := Full;
      }
    }
  }

  // ----- every run of appends and refreshes -------------------------------------------------------------

  /** A stored snapshot speaks truthfully about a prefix of the ledger. */
  ghost predicate Truthful(s: Snapshot, target: Target, events: seq<Event>, credit: Credit) {
    s.events <= |events| &&
    var taken := events[..s.events];
    && s.prefix == Prefix(taken)
    && Bounded(map[], s.covered, target, taken, credit)
    && Complete(s.covered, target, taken, s.gaps, credit)
    && (forall id <- s.gaps :: exists e <- taken :: Creditable(e) && Sha(e) == id)
    && NonEmpty(s.covered) == s.covered
  }

  lemma {:induction false} RetriedMembers(events: seq<Event>, gaps: seq<Id>, n: nat)
    requires n <= |events|
    ensures forall p: nat :: p in Retried(events, gaps, n) <==> p < n && Sha(events[p]) in gaps
  {
    if n > 0 {
      RetriedMembers(events, gaps, n - 1);
    }
  }

  lemma NonEmptyCovers(covered: Covered)
    ensures NonEmpty(NonEmpty(covered)) == NonEmpty(covered)
    ensures forall name, line :: Covers(NonEmpty(covered), name, line) <==> Covers(covered, name, line)
  {
  }

  lemma FoldAtIs(start: Covered, target: Target, events: seq<Event>, positions: seq<nat>, credit: Credit,
                 attempts: nat -> Attempt)
    requires forall p <- positions :: p < |events|
    ensures var r := FoldAt(start, target, events, positions, credit, attempts);
            && (forall name, line :: Covers(r.covered, name, line) <==>
                Covers(start, name, line) ||
                exists p <- positions :: Creditable(events[p])
                                         && Gives(credit, target, events[p], attempts(p), name, line))
            && (forall id :: id in r.gaps <==>
                exists p <- positions :: Creditable(events[p]) && attempts(p).Failed? && Sha(events[p]) == id)
  {
    hide Gives, FoldTo, Covers;
    var reviews, tries := Pick(events, positions), Tries(attempts, positions);
    FoldIs(start, target, reviews, credit, tries, |positions|);
    forall p | p in positions
      ensures exists i :: 0 <= i < |positions| && reviews[i] == events[p] && tries(i) == attempts(p)
    {
      var i :| 0 <= i < |positions| && positions[i] == p;
      assert reviews[i] == events[p];
    }
  }

  lemma UsableIs(stored: map<Target, Snapshot>, target: Target, events: seq<Event>)
    ensures Usable(stored, target, events) <==> Stands(stored, target, events)
  {
    if target in stored {
      var s := stored[target];
      if Readable(s) {
        assert forall name, line :: Covers(s.covered, name, line) ==> Intervals.InBounds(s.covered[name]);
      } else {
        var name :| name in s.covered && !Intervals.InBounds(s.covered[name]);
        var line :| line in s.covered[name] && !(1 <= line <= Intervals.MAX_LINE);
        assert Covers(s.covered, name, line);
      }
    }
  }

  /** The positions tried are those of the list, or the list is empty because none is creditable. */
  lemma TodoIs(s: Snapshot, events: seq<Event>)
    requires Extends(s, events)
    ensures forall p: nat :: p < |events| && Creditable(events[p]) ==>
              (p in Todo(s, events) <==> Tried(Some(s), events, p))
    ensures Todo(s, events) == [] <==> forall p: nat :: !Tried(Some(s), events, p)
  {
    RetriedMembers(events, s.gaps, s.events);
    var all := Retried(events, s.gaps, s.events) + From(s.events, |events|);
    var picked := Pick(events, all);
    forall p: nat | Tried(Some(s), events, p) ensures AnyCreditable(picked) {
      assert p in all;
      var i :| 0 <= i < |all| && all[i] == p;
      assert picked[i] in picked;
    }
    if AnyCreditable(picked) {
      var e :| e in picked && Creditable(e);
      var i :| 0 <= i < |picked| && picked[i] == e;
      assert all[i] in all && Tried(Some(s), events, all[i]);
    }
  }

  lemma WrittenRecords(before: Option<Snapshot>, positions: seq<nat>, target: Target, events: seq<Event>,
                       credit: Credit, attempts: nat -> Attempt)
    requires forall p <- positions :: p < |events|
    requires forall p: nat :: p < |events| && Creditable(events[p]) ==> (p in positions <==> Tried(before, events, p))
    ensures var start := if before.Some? then before.value.covered else map[];
            var r := FoldAt(start, target, events, positions, credit, attempts);
            Records(before, Written(r.covered, r.gaps, events), target, events, credit, attempts)
  {
    hide Gives, FoldAt;
    var start := if before.Some? then before.value.covered else map[];
    var r := FoldAt(start, target, events, positions, credit, attempts);
    FoldAtIs(start, target, events, positions, credit, attempts);
    NonEmptyCovers(r.covered);
  }

  lemma LinesMoved(before: Covered, after: Covered)
    requires Includes(after, before)
    ensures NonEmpty(after) != NonEmpty(before) <==>
            exists name, line :: Covers(NonEmpty(after), name, line) && !Covers(before, name, line)
  {
    NonEmptyCovers(after);
    NonEmptyCovers(before);
    if forall name, line :: Covers(after, name, line) ==> Covers(before, name, line) {
      SameCoverage(after, before);
    }
  }

  lemma ClassifyIs(s: Snapshot, events: seq<Event>, covered: Covered, gaps: seq<Id>)
    requires Extends(s, events) && Includes(covered, s.covered)
    ensures Classify(s, events, covered, gaps) ==
            if Moved(s, Written(covered, gaps, events), events) then Extended else Unchanged
  {
    var appended := events[s.events..];
    forall p: nat | s.events <= p < |events| ensures events[p] in appended {
      assert appended[p - s.events] == events[p];
    }
    assert AnyCreditable(appended) <==> exists p :: s.events <= p < |events| && Creditable(events[p]);
    LinesMoved(s.covered, covered);
    assert Elements(s.gaps) <= Elements(gaps) <==> forall id <- s.gaps :: id in gaps by {
      assert forall id :: id in s.gaps <==> id in Elements(s.gaps);
    }
    hide NonEmpty, Covers;
  }

  /** The written snapshot is what selection loads for this sequence. */
  lemma RecordsLoad(stored: map<Target, Snapshot>, before: Option<Snapshot>, target: Target, events: seq<Event>,
                    credit: Credit, attempts: nat -> Attempt)
    requires target in stored && Records(before, stored[target], target, events, credit, attempts)
    requires CreditInBounds(target, events, credit)
    requires before.Some? ==> forall name, line :: Covers(before.value.covered, name, line) ==> 1 <= line <= 1_000_000
    ensures Load(stored, target, events).Some?
  {
    hide Prefix, Load;
    var s := stored[target];
    forall name, line | Covers(s.covered, name, line) ensures 1 <= line <= 1_000_000 {
      if before.None? || !Covers(before.value.covered, name, line) {
        var p: nat :| Tried(before, events, p) && Gives(credit, target, events[p], attempts(p), name, line);
        GivesCredit(credit, target, events[p], attempts(p), name, line);
        assert events[p] in events;
      }
    }
    LoadIs(stored, target, events);
  }

  lemma GivesCredit(credit: Credit, target: Target, review: Event, attempt: Attempt, name: Name, line: int)
    ensures Gives(credit, target, review, attempt, name, line) ==> Credits(credit, target, review, name, line)
    ensures attempt.Whole? && Credits(credit, target, review, name, line) ==>
              Gives(credit, target, review, attempt, name, line)
  {
    var pieces := credit(review, target);
    if attempt.Whole? && Credits(credit, target, review, name, line) {
      var p :| p in pieces && p.name == name && line in p.lines;
      var k :| 0 <= k < |pieces| && pieces[k] == p;
    }
  }

  /** Selection accepts a snapshot exactly when it stands and no creditable review came after it. */
  lemma LoadIs(stored: map<Target, Snapshot>, target: Target, events: seq<Event>)
    ensures Load(stored, target, events) ==
            if Stands(stored, target, events)
               && forall p: nat :: stored[target].events <= p < |events| ==> !Creditable(events[p])
            then Some(Totals(stored[target].covered, stored[target].gaps)) else None
  {
    UsableIs(stored, target, events);
    if Usable(stored, target, events) {
      var n := stored[target].events;
      forall p: nat | n <= p < |events| ensures events[p] in events[n..] {
        assert events[n..][p - n] == events[p];
      }
    }
  }

  lemma StandsIs(stored: map<Target, Snapshot>, target: Target, events: seq<Event>)
    requires Stands(stored, target, events)
    ensures target in stored && Extends(stored[target], events)
    ensures forall name, line :: Covers(stored[target].covered, name, line) ==> 1 <= line <= 1_000_000
  {
    UsableIs(stored, target, events);
  }

  /** A refresh in full: what it writes, what it reports, and that selection accepts the result. */
  lemma RefreshIs(stored: map<Target, Snapshot>, target: Target, events: seq<Event>, credit: Credit,
                  attempts: nat -> Attempt)
    ensures var r := Refreshed(stored, target, events, credit, attempts);
            && Brings(stored, r.0, target, events, credit, attempts, r.1)
            && (CreditInBounds(target, events, credit) ==> Load(r.0, target, events).Some?)
  {
    hide FoldAt, Todo, Records, Moved, Written, Classify, Load, CreditInBounds, Stands, Usable, Tried, Extends;
    UsableIs(stored, target, events);
    var r := Refreshed(stored, target, events, credit, attempts);
    if Usable(stored, target, events) {
      StandsIs(stored, target, events);
      var s := stored[target];
      TodoIs(s, events);
      if Todo(s, events) == [] && s.events == |events| {
        LoadIs(stored, target, events);
      } else {
        var todo := Todo(s, events);
        var fold := FoldAt(s.covered, target, events, todo, credit, attempts);
        WrittenRecords(Some(s), todo, target, events, credit, attempts);
        FoldAtGrows(s.covered, target, events, todo, credit, attempts);
        ClassifyIs(s, events, fold.covered, fold.gaps);
        if CreditInBounds(target, events, credit) {
          RecordsLoad(r.0, Some(s), target, events, credit, attempts);
        }
      }
    } else {
      AllTried(events);
      WrittenRecords(None, From(0, |events|), target, events, credit, attempts);
      if CreditInBounds(target, events, credit) {
        RecordsLoad(r.0, None, target, events, credit, attempts);
      }
    }
  }

  lemma AllTried(events: seq<Event>)
    ensures forall p: nat ::
              p < |events| && Creditable(events[p]) ==> (p in From(0, |events|) <==> Tried(None, events, p))
  {
  }

  lemma FoldAtGrows(start: Covered, target: Target, events: seq<Event>, positions: seq<nat>, credit: Credit,
                    attempts: nat -> Attempt)
    requires forall p <- positions :: p < |events|
    ensures Includes(FoldAt(start, target, events, positions, credit, attempts).covered, start)
  {
    hide FoldAt;
    FoldAtIs(start, target, events, positions, credit, attempts);
  }

  /** What a refresh writes over a truthful snapshot, or over none, is truthful. */
  lemma RecordsAreTruthful(before: Option<Snapshot>, after: Snapshot, target: Target, events: seq<Event>,
                           credit: Credit,
                           attempts: nat -> Attempt)
    requires Records(before, after, target, events, credit, attempts)
    requires before.Some? ==> Truthful(before.value, target, events, credit)
    ensures Truthful(after, target, events, credit)
  {
    hide Gives, Credits, Records;
    assert events[..|events|] == events;
    RecordsBounded(before, after, target, events, credit, attempts);
    RecordsComplete(before, after, target, events, credit, attempts);
    RecordsShape(before, after, target, events, credit, attempts);
  }

  lemma RecordsShape(before: Option<Snapshot>, after: Snapshot, target: Target, events: seq<Event>, credit: Credit,
                     attempts: nat -> Attempt)
    requires Records(before, after, target, events, credit, attempts)
    ensures after.events == |events| && after.prefix == Prefix(events) && NonEmpty(after.covered) == after.covered
    ensures forall id <- after.gaps :: exists e <- events :: Creditable(e) && Sha(e) == id
  {
    forall id | id in after.gaps ensures exists e <- events :: Creditable(e) && Sha(e) == id {
      var p: nat :| Tried(before, events, p) && attempts(p).Failed? && Sha(events[p]) == id;
      assert events[p] in events;
    }
  }

  lemma RecordsBounded(before: Option<Snapshot>, after: Snapshot, target: Target, events: seq<Event>, credit: Credit,
                       attempts: nat -> Attempt)
    requires Records(before, after, target, events, credit, attempts)
    requires before.Some? ==> Truthful(before.value, target, events, credit)
    ensures Bounded(map[], after.covered, target, events, credit)
  {
    hide Gives, Credits, Complete;
    forall name, line | Covers(after.covered, name, line)
      ensures exists e <- events :: Creditable(e) && Credits(credit, target, e, name, line)
    {
      if before.Some? && Covers(before.value.covered, name, line) {
        assert !Covers(map[], name, line);
        var e :| e in events[..before.value.events] && Creditable(e) && Credits(credit, target, e, name, line);
        assert e in events;
      } else {
        var p: nat :| Tried(before, events, p) && Gives(credit, target, events[p], attempts(p), name, line);
        GivesCredit(credit, target, events[p], attempts(p), name, line);
        assert events[p] in events;
      }
    }
  }

  lemma RecordsComplete(before: Option<Snapshot>, after: Snapshot, target: Target, events: seq<Event>, credit: Credit,
                        attempts: nat -> Attempt)
    requires Records(before, after, target, events, credit, attempts)
    requires before.Some? ==> Truthful(before.value, target, events, credit)
    ensures Complete(after.covered, target, events, after.gaps, credit)
  {
    hide Gives, Credits, Bounded, NonEmpty;
    forall e, name, line | e in events && Creditable(e) && Sha(e) !in after.gaps &&
        Credits(credit, target, e, name, line)
      ensures Covers(after.covered, name, line)
    {
      var p: nat :| p < |events| && events[p] == e;
      if Tried(before, events, p) {
        GivesCredit(credit, target, events[p], attempts(p), name, line);
      } else {
        assert events[..before.value.events][p] == e;
        assert Covers(before.value.covered, name, line);
      }
    }
  }

  datatype World = World(ledger: seq<Event>, stored: map<Target, Snapshot>)

  /** A refresh may still see an earlier prefix of the ledger than the one already published. */
  datatype Step = Append(event: Event) | Refresh(target: Target, seen: nat, attempts: nat -> Attempt)
                | Drop(target: Target)

  ghost predicate Next(w: World, w': World, step: Step, credit: Credit) {
    match step
    case Append(event) => w' == w.(ledger := w.ledger + [event])
    case Refresh(target, seen, attempts) =>
      seen <= |w.ledger| && w' == w.(stored := Refreshed(w.stored, target, w.ledger[..seen], credit, attempts).0)
    case Drop(target) => w' == w.(stored := w.stored - {target})
  }

  ghost predicate Invariant(w: World, credit: Credit) {
    forall t <- w.stored :: Truthful(w.stored[t], t, w.ledger, credit)
  }

  lemma TruthfulLater(s: Snapshot, target: Target, events: seq<Event>, more: seq<Event>, credit: Credit)
    requires Truthful(s, target, events, credit) && s.events <= |events| && events <= more
    ensures Truthful(s, target, more, credit)
  {
    assert more[..s.events] == events[..s.events];
  }

  lemma TruthfulEarlier(s: Snapshot, target: Target, events: seq<Event>, fewer: seq<Event>, credit: Credit)
    requires Truthful(s, target, events, credit) && fewer <= events && s.events <= |fewer|
    ensures Truthful(s, target, fewer, credit)
  {
    assert events[..s.events] == fewer[..s.events];
  }

  lemma NextKeeps(w: World, w': World, step: Step, credit: Credit)
    requires Invariant(w, credit) && Next(w, w', step, credit)
    ensures Invariant(w', credit)
  {
    hide Truthful, FoldTo, Todo, Prefix, Classify, Written;
    match step
    case Append(event) =>
      forall t | t in w'.stored ensures Truthful(w'.stored[t], t, w'.ledger, credit) {
        AppendKeeps(w.stored[t], t, w.ledger, event, credit);
      }
    case Refresh(target, seen, attempts) =>
      forall t | t in w'.stored ensures Truthful(w'.stored[t], t, w'.ledger, credit) {
        if t == target {
          RefreshKeeps(w.stored, t, w.ledger, seen, credit, attempts);
        }
      }
    case Drop(target) =>
  }

  lemma AppendKeeps(s: Snapshot, target: Target, events: seq<Event>, event: Event, credit: Credit)
    requires Truthful(s, target, events, credit)
    ensures Truthful(s, target, events + [event], credit)
  {
    TruthfulLater(s, target, events, events + [event], credit);
  }

  lemma RefreshKeeps(stored: map<Target, Snapshot>, target: Target, events: seq<Event>, seen: nat, credit: Credit,
                     attempts: nat -> Attempt)
    requires seen <= |events| && (target in stored ==> Truthful(stored[target], target, events, credit))
    ensures Truthful(Refreshed(stored, target, events[..seen], credit, attempts).0[target], target, events, credit)
  {
    hide FoldAt, Todo, Classify, Written, Usable, Refreshed, Load, CreditInBounds, Moved, Records, Truthful, Extends,
        Tried,
         Stands;
    var part := events[..seen];
    var r := Refreshed(stored, target, part, credit, attempts);
    RefreshIs(stored, target, part, credit, attempts);
    if Stands(stored, target, part) {
      StandsWithin(stored, target, part);
      TruthfulEarlier(stored[target], target, events, part, credit);
    }
    if r.1 != Current {
      RecordsAreTruthful(if r.1.Full? then None else Some(stored[target]), r.0[target], target, part, credit, attempts);
      TruthfulWithin(r.0[target], target, part, credit);
      TruthfulLater(r.0[target], target, part, events, credit);
    }
  }

  lemma StandsWithin(stored: map<Target, Snapshot>, target: Target, events: seq<Event>)
    requires Stands(stored, target, events)
    ensures target in stored && stored[target].events <= |events|
  {
  }

  lemma TruthfulWithin(s: Snapshot, target: Target, events: seq<Event>, credit: Credit)
    requires Truthful(s, target, events, credit)
    ensures s.events <= |events|
  {
  }

  ghost predicate Advances(w: World, w': World, credit: Credit) {
    exists step :: Next(w, w', step, credit)
  }

  ghost predicate Run(trace: seq<World>, credit: Credit) {
    trace != [] &&
    var n := |trace| - 1;
    if n == 0 then trace[0].stored == map[] else Run(trace[..n], credit) && Advances(trace[n - 1], trace[n], credit)
  }

  lemma {:induction false} RunInvariant(trace: seq<World>, credit: Credit)
    requires Run(trace, credit)
    ensures Invariant(trace[|trace| - 1], credit)
  {
    var n := |trace| - 1;
    if n > 0 {
      RunInvariant(trace[..n], credit);
      var step :| Next(trace[n - 1], trace[n], step, credit);
      NextKeeps(trace[n - 1], trace[n], step, credit);
    }
  }

  /** The full fold: every review tried once, none failing. */
  ghost function FullFold(target: Target, events: seq<Event>, credit: Credit): Totals {
    FoldTo(map[], target, events, credit, _ => Whole, |events|)
  }

  /**
   After any schedule of appends, refreshes and failures, an answer accepted for any prefix of the
   ledger contains the credit of every review without a gap and nothing beyond the credit of all; and
   an answer without gaps is exactly what folding that whole prefix from nothing would give.
   */
  lemma LoadRefinesFullFold(trace: seq<World>, credit: Credit, target: Target, seen: nat)
    requires Run(trace, credit) && seen <= |trace[|trace| - 1].ledger|
    requires Load(trace[|trace| - 1].stored, target, trace[|trace| - 1].ledger[..seen]).Some?
    ensures var events := trace[|trace| - 1].ledger[..seen];
            var answer := Load(trace[|trace| - 1].stored, target, events).value;
            && Bounded(map[], answer.covered, target, events, credit)
            && Complete(answer.covered, target, events, answer.gaps, credit)
            && (answer.gaps == [] ==> answer.covered == NonEmpty(FullFold(target, events, credit).covered))
  {
    hide FoldTo, Prefix;
    var w := trace[|trace| - 1];
    var events, s := w.ledger[..seen], w.stored[target];
    RunInvariant(trace, credit);
    TruthfulEarlier(s, target, w.ledger, events, credit);
    var taken, rest := events[..s.events], events[s.events..];
    assert events == taken + rest;
    assert forall e :: e in events && Creditable(e) ==> e in taken;
    assert forall e :: e in taken ==> e in events;
    if s.gaps == [] {
      var full := FullFold(target, events, credit).covered;
      FoldIsSandwiched(map[], target, events, credit, _ => Whole, |events|);
      assert events[..|events|] == events;
      NoGaps(map[], target, events, credit, |events|);
      NonEmptyCovers(full);
      forall name, line ensures Covers(s.covered, name, line) <==> Covers(full, name, line) {
        assert !Covers(map[], name, line);
      }
      SameCoverage(s.covered, full);
    }
  }

  lemma {:induction false} NoGaps(start: Covered, target: Target, events: seq<Event>, credit: Credit, n: nat)
    requires n <= |events|
    ensures FoldTo(start, target, events, credit, _ => Whole, n).gaps == []
  {
    if n > 0 {
      NoGaps(start, target, events, credit, n - 1);
    }
  }

  lemma SameCoverage(a: Covered, b: Covered)
    requires forall name, line :: Covers(a, name, line) <==> Covers(b, name, line)
    ensures NonEmpty(a) == NonEmpty(b)
  {
    forall name | name in NonEmpty(a) || name in NonEmpty(b)
      ensures name in NonEmpty(a) && name in NonEmpty(b) && NonEmpty(a)[name] == NonEmpty(b)[name]
    {
      var line := Member(if name in NonEmpty(a) then a[name] else b[name]);
      assert Covers(a, name, line) <==> Covers(b, name, line);
      forall other ensures other in a[name] <==> other in b[name] {
        assert Covers(a, name, other) <==> Covers(b, name, other);
      }
    }
  }

  /** A refresh that reports no change leaves selection's answer as it was: the same lines and the same open gaps. */
  lemma UnchangedKeepsAnswer(stored: map<Target, Snapshot>, target: Target, events: seq<Event>, credit: Credit,
                             attempts: nat -> Attempt)
    requires target in stored ==> Truthful(stored[target], target, events, credit)
    requires Refreshed(stored, target, events, credit, attempts).1 in {Current, Unchanged}
    ensures var before := Load(stored, target, events);
            var after := Load(Refreshed(stored, target, events, credit, attempts).0, target, events);
            && before.Some? == after.Some?
            && (before.Some? ==> after.value.covered == before.value.covered
                                 && Elements(after.value.gaps) == Elements(before.value.gaps))
            && (Refreshed(stored, target, events, credit, attempts).1 == Unchanged ==> before.Some?)
  {
    hide FoldAt, Todo, Classify, Written, Usable, Refreshed, Load, CreditInBounds, Gives, Truthful;
    var r := Refreshed(stored, target, events, credit, attempts);
    RefreshIs(stored, target, events, credit, attempts);
    LoadIs(stored, target, events);
    LoadIs(r.0, target, events);
    if r.1 == Unchanged {
      var s, t := stored[target], r.0[target];
      TruthfulShape(s, target, events, credit);
      SameCoverage(s.covered, t.covered);
      RecordsShape(Some(s), t, target, events, credit, attempts);
      assert Elements(t.gaps) == Elements(s.gaps);
    }
  }

  lemma TruthfulShape(s: Snapshot, target: Target, events: seq<Event>, credit: Credit)
    requires Truthful(s, target, events, credit)
    ensures NonEmpty(s.covered) == s.covered
  {
  }
}
