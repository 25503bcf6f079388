/**
 Publication of spooled events: the causal ordering, the batching and the push protocol against a
 compare-and-swap remote, together with what any reader can rebuild from the pushed history.
 */
module Publication {
  import opened Prelude
  import opened Ledger

  const BATCH_LIMIT := 64
  const BATCH_BYTES := 4 * 1024 * 1024
  const RECORD_BYTES := 1024 * 1024

  // ----- causal ordering --------------------------------------------------------------------------------

  /** Every event's dependencies are available or come earlier in the sequence. */
  ghost predicate Causal(available: set<Id>, events: seq<Event>)
    decreases |events|
  {
    events == [] ||
    (Dependencies(events[0]) <= available && Causal(available + {Sha(events[0])}, events[1..]))
  }

  lemma IdsConcat(a: seq<Event>, b: seq<Event>)
    ensures Ids(a + b) == Ids(a) + Ids(b)
  {
    assert forall e :: e in a + b <==> e in a || e in b;
  }

  lemma {:induction false} CausalConcat(available: set<Id>, a: seq<Event>, b: seq<Event>)
    ensures Causal(available, a + b) <==> Causal(available, a) && Causal(available + Ids(a), b)
    decreases |a|
  {
    if a == [] {
      assert a + b == b;
      assert available + Ids(a) == available;
    } else {
      assert (a + b)[1..] == a[1..] + b;
      assert a == [a[0]] + a[1..];
      IdsConcat([a[0]], a[1..]);
      assert available + {Sha(a[0])} + Ids(a[1..]) == available + Ids(a);
      CausalConcat(available + {Sha(a[0])}, a[1..], b);
    }
  }

  lemma CausalSnoc(available: set<Id>, events: seq<Event>, event: Event)
    requires Causal(available, events) && Dependencies(event) <= available + Ids(events)
    ensures Causal(available, events + [event])
  {
    CausalConcat(available, events, [event]);
    assert [event][1..] == [];
  }

  lemma {:induction false} CausalMore(small: set<Id>, large: set<Id>, events: seq<Event>)
    requires small <= large && Causal(small, events)
    ensures Causal(large, events)
    decreases |events|
  {
    if events != [] {
      CausalMore(small + {Sha(events[0])}, large + {Sha(events[0])}, events[1..]);
    }
  }

  function WithoutAt(s: seq<Event>, i: nat): (r: seq<Event>)
    requires i < |s|
    ensures multiset(r) == multiset(s) - multiset{s[i]}
  {
    assert s == s[..i] + [s[i]] + s[i + 1..];
    s[..i] + s[i + 1..]
  }

  /** Removes the first occurrence, as a list does. */
  method Remove(s: seq<Event>, event: Event) returns (r: seq<Event>)
    requires event in s
    ensures multiset(r) == multiset(s) - multiset{event} && |r| == |s| - 1
  {
    var i := 0;
    while s[i] != event
      invariant 0 <= i < |s| && event in s[i..]
      decreases |s| - i
    {
      i := i + 1;
    }
    r := WithoutAt(s, i);
  }

  /**
   An event none of whose orderings can be satisfied: something it needs is neither available nor pending elsewhere
   first.
   */
  ghost predicate Stuck(available: set<Id>, pending: set<Event>) {
    forall e <- pending :: !(Dependencies(e) <= available)
  }

  /** The pending events whose dependencies are all available, in their pending order. */
  method ReadyEvents(pending: seq<Event>, available: set<Id>) returns (ready: seq<Event>)
    ensures multiset(ready) <= multiset(pending)
    ensures forall e <- ready :: Dependencies(e) <= available
    ensures ready == [] ==> Stuck(available, Elements(pending))
  {
    ready := [];
    for i := 0 to |pending|
      invariant multiset(ready) <= multiset(pending[..i])
      invariant forall e <- ready :: Dependencies(e) <= available
      invariant ready == [] ==> forall e <- pending[..i] :: !(Dependencies(e) <= available)
    {
      assert pending[..i + 1] == pending[..i] + [pending[i]];
      if Dependencies(pending[i]) <= available {
        ready := ready + [pending[i]];
      }
    }
    assert pending[..|pending|] == pending;
  }

  /** Events whose dependencies are available may follow in any order. */
  lemma {:induction false} ReadyFollow(available: set<Id>, ready: seq<Event>)
    requires forall e <- ready :: Dependencies(e) <= available
    ensures Causal(available, ready)
    decreases |ready|
  {
    if ready != [] {
      assert ready[0] in ready;
      ReadyFollow(available + {Sha(ready[0])}, ready[1..]);
    }
  }

  /** Moves the ready events over, one by one. */
  method MoveReady(pending: seq<Event>, ready: seq<Event>) returns (left: seq<Event>)
    requires multiset(ready) <= multiset(pending)
    ensures multiset(left) == multiset(pending) - multiset(ready) && |left| == |pending| - |ready|
  {
    left := pending;
    for i := 0 to |ready|
      invariant multiset(left) == multiset(pending) - multiset(ready[..i]) && |left| == |pending| - i
    {
      assert ready[..i + 1] == ready[..i] + [ready[i]];
      assert ready == ready[..i + 1] + ready[i + 1..];
      assert multiset(ready[..i])[ready[i]] < multiset(ready)[ready[i]] <= multiset(pending)[ready[i]];
      assert ready[i] in multiset(left);
      left := Remove(left, ready[i]);
    }
    assert ready[..|ready|] == ready;
  }

  /**
   Repeatedly moves every event whose dependencies are available. Succeeds exactly when some causal
   order of the pending events exists, and then returns one.
   */
  method CausalOrder(spooled: seq<Event>, ids: set<Id>) returns (result: Result<seq<Event>, Refusal>)
    ensures result.Ok? ==> multiset(result.value) == multiset(spooled) && Causal(ids, result.value)
    ensures result.Err? ==> forall order :: multiset(order) == multiset(spooled) ==> !Causal(ids, order)
  {
    var ordered, available, pending := [], ids, spooled;
    while pending != []
      invariant multiset(ordered) + multiset(pending) == multiset(spooled)
      invariant available == ids + Ids(ordered)
      invariant Causal(ids, ordered)
      decreases |pending|
    {
      var ready := ReadyEvents(pending, available);
      if ready == [] {
        forall order | multiset(order) == multiset(spooled) ensures !Causal(ids, order) {
          Remainder(ids, ordered, pending, order);
        }
        return Err(MissingReview);
      }
      ReadyFollow(available, ready);
      CausalConcat(ids, ordered, ready);
      IdsConcat(ordered, ready);
      var left := MoveReady(pending, ready);
      assert multiset(ordered + ready) + multiset(left) == multiset(ordered) + multiset(pending);
      ordered, available, pending := ordered + ready, available + Ids(ready), left;
    }
    result := Ok(ordered);
  }

  /** A stuck remainder refutes every causal order: follow the order to its first stuck event. */
  lemma {:induction false} NoOrder(available: set<Id>, moved: set<Event>, pending: set<Event>, order: seq<Event>)
    requires Stuck(available + (set e <- moved :: Sha(e)), pending)
    requires Elements(order) <= moved + pending && Elements(order) * pending != {}
    ensures !Causal(available, order)
    decreases |order|
  {
    var stuck :| stuck in Elements(order) * pending;
    var first, rest := order[0], order[1..];
    assert order == [first] + rest;
    assert first in Elements(order);
    if first !in pending {
      assert stuck in Elements(rest);
      var more := available + {Sha(first)};
      assert more + (set e <- moved :: Sha(e)) == available + (set e <- moved :: Sha(e));
      NoOrder(more, moved, pending, rest);
    }
  }

  lemma Remainder(ids: set<Id>, ordered: seq<Event>, pending: seq<Event>, order: seq<Event>)
    requires pending != [] && Stuck(ids + Ids(ordered), Elements(pending))
    requires multiset(order) == multiset(ordered) + multiset(pending)
    ensures !Causal(ids, order)
  {
    assert (set e <- Elements(ordered) :: Sha(e)) == Ids(ordered);
    forall e | e in Elements(order) ensures e in Elements(ordered) + Elements(pending) {
      assert e in multiset(order);
    }
    assert pending[0] in multiset(order);
    assert pending[0] in Elements(order) * Elements(pending);
    NoOrder(ids, Elements(ordered), Elements(pending), order);
  }

  // ----- batching ---------------------------------------------------------------------------------------

  datatype Kind = Import | Enrollment | Single

  function Unpublished(events: seq<Event>, ids: set<Id>): seq<Event> {
    if events == [] then []
    else
      var k := |events| - 1;
      Unpublished(events[..k], ids) + (if Sha(events[k]) in ids then [] else [events[k]])
  }

  function Bytes(events: seq<Event>): nat {
    if events == [] then 0 else Bytes(events[..|events| - 1]) + events[|events| - 1].size
  }

  /** A group of one kind is an independent batch against everything recorded before it. */
  ghost predicate Grouped(kind: Kind, group: seq<Event>, earlier: seq<Event>) {
    && 1 <= |group| <= BATCH_LIMIT && (|group| > 1 ==> Bytes(group) <= BATCH_BYTES)
    && (kind == Import ==> forall e <- group :: IndependentImport(e))
    && (kind == Enrollment ==> FreshEnrollments(group, Jobs(earlier)))
    && (kind == Single ==> |group| == 1 && !IndependentBatch(group, earlier))
  }

  /** A new batch starts only where the one before is full or the two together would not be independent. */
  ghost predicate StartsAnew(last: seq<Event>, next: Event, earlier: seq<Event>) {
    |last| == 64 || Bytes(last) + next.size > 4_194_304 || !IndependentBatch(last + [next], earlier)
  }

  ghost predicate NoneShort(groups: seq<seq<Event>>, values: seq<Event>) {
    && (forall i :: 0 <= i < |groups| ==> groups[i] != [])
    && forall i :: 0 < i < |groups| ==> StartsAnew(groups[i - 1], groups[i][0], values + Flatten(groups[..i - 1]))
  }

  ghost predicate AllGrouped(kinds: seq<Kind>, groups: seq<seq<Event>>, values: seq<Event>)
    decreases |groups|
  {
    |kinds| == |groups| &&
    (groups == [] ||
     var n := |groups| - 1;
     Grouped(kinds[n], groups[n], values + Flatten(groups[..n])) && AllGrouped(kinds[..n], groups[..n], values))
  }

  /** The kind the grouping loop gives to the next event. */
  function KindOf(value: Event, seen: set<string>): Kind {
    if InitialEnrollment(value) && value.payload.job !in seen then Enrollment
    else if IndependentImport(value) then Import
    else Single
  }

  ghost predicate Scanned(events: seq<Event>, ids: set<Id>, acknowledged: set<Id>) {
    acknowledged == Ids(events) * ids && forall e <- events :: Sha(e) !in ids ==> e.size <= RECORD_BYTES
  }

  lemma ScannedSnoc(events: seq<Event>, ids: set<Id>, acknowledged: set<Id>, value: Event)
    requires Scanned(events, ids, acknowledged)
    ensures Sha(value) in ids ==> Scanned(events + [value], ids, acknowledged + {Sha(value)})
    ensures Sha(value) !in ids && value.size <= RECORD_BYTES ==> Scanned(events + [value], ids, acknowledged)
  {
    IdsConcat(events, [value]);
  }

  /**
   Splits ordered events into batches: consecutive imports or first enrollments share one, within
   the count and byte limits. Whatever is already on the remote is acknowledged instead.
   */
  method Batches(ordered: seq<Event>, values: seq<Event>)
      returns (result: Result<seq<seq<Event>>, Refusal>, acknowledged: set<Id>)
    ensures acknowledged <= Ids(values)
    ensures result.Err? <==> exists e <- ordered :: Sha(e) !in Ids(values) && e.size > 1_048_576
    ensures result.Ok? ==> Flatten(result.value) == Unpublished(ordered, Ids(values))
    ensures result.Ok? ==> acknowledged == Ids(ordered) * Ids(values)
    ensures result.Ok? ==> forall i :: 0 <= i < |result.value| ==>
              var batch := result.value[i];
              && 1 <= |batch| <= 64
              && (|batch| > 1 ==>
                  Bytes(batch) <= 4_194_304 && IndependentBatch(batch, values + Flatten(result.value[..i])))
    ensures result.Ok? ==> forall i :: 0 < i < |result.value| ==>
              StartsAnew(result.value[i - 1], result.value[i][0], values + Flatten(result.value[..i - 1]))
  {
    var ids, seen := Ids(values), Jobs(values);
    var groups: seq<seq<Event>>, kinds: seq<Kind> := [], [];
    acknowledged := {};
    assert Flatten(groups) == [] && values + [] == values;
    for k := 0 to |ordered|
      invariant Scanned(ordered[..k], ids, acknowledged)
      invariant Flatten(groups) == Unpublished(ordered[..k], ids)
      invariant seen == Jobs(values + Flatten(groups))
      invariant AllGrouped(kinds, groups, values) && NoneShort(groups, values)
    {
      var value := ordered[k];
      assert ordered[..k + 1][..k] == ordered[..k];
      assert ordered[..k + 1] == ordered[..k] + [value];
      ScannedSnoc(ordered[..k], ids, acknowledged, value);
      if Sha(value) in ids {
        acknowledged := acknowledged + {Sha(value)};
      } else if value.size > RECORD_BYTES {
        assert value in ordered;
        return Err(Malformed), acknowledged;
      } else {
        kinds, groups, seen := Place(kinds, groups, seen, value, values);
      }
    }
    assert ordered[..|ordered|] == ordered;
    IndependentGroups(kinds, groups, values);
    result := Ok(groups);
  }

  /** Puts one event into the last group or starts a new one. */
  method Place(kinds: seq<Kind>, groups: seq<seq<Event>>, seen: set<string>, value: Event, ghost values: seq<Event>)
      returns (kinds': seq<Kind>, groups': seq<seq<Event>>, seen': set<string>)
    requires AllGrouped(kinds, groups, values) && NoneShort(groups, values) && seen == Jobs(values + Flatten(groups))
    ensures AllGrouped(kinds', groups', values) && NoneShort(groups', values)
    ensures seen' == Jobs(values + Flatten(groups'))
    ensures Flatten(groups') == Flatten(groups) + [value]
  {
    var kind, n := KindOf(value, seen), |groups|;
    JobsSnoc(values, groups, value);
    if n > 0 && kind != Single && kinds[n - 1] == kind && |groups[n - 1]| < BATCH_LIMIT
       && Bytes(groups[n - 1]) + value.size <= BATCH_BYTES {
      JoinsLast(kinds, groups, value, values);
      JoiningIsShort(groups, value, values);
      groups', kinds' := groups[..n - 1] + [groups[n - 1] + [value]], kinds;
    } else {
      StartsGroup(kinds, groups, value, values);
      if n > 0 {
        StartsRightly(kinds, groups, value, values);
      }
      StartingIsShort(groups, value, values);
      groups', kinds' := groups + [[value]], kinds + [kind];
    }
    seen' := if value.payload.JobState? then seen + {value.payload.job} else seen;
  }

  lemma JoiningIsShort(groups: seq<seq<Event>>, value: Event, values: seq<Event>)
    requires groups != [] && NoneShort(groups, values)
    ensures NoneShort(groups[..|groups| - 1] + [groups[|groups| - 1] + [value]], values)
  {
    hide StartsAnew, Flatten;
    var n := |groups| - 1;
    var joined := groups[..n] + [groups[n] + [value]];
    forall i | 0 < i < |joined|
      ensures StartsAnew(joined[i - 1], joined[i][0], values + Flatten(joined[..i - 1]))
    {
      assert joined[..i - 1] == groups[..i - 1] && joined[i - 1] == groups[i - 1] && joined[i][0] == groups[i][0];
    }
  }

  lemma StartingIsShort(groups: seq<seq<Event>>, value: Event, values: seq<Event>)
    requires NoneShort(groups, values)
    requires groups != [] ==>
               StartsAnew(groups[|groups| - 1], value, values + Flatten(groups[..|groups| - 1]))
    ensures NoneShort(groups + [[value]], values)
  {
    hide StartsAnew, Flatten;
    var more := groups + [[value]];
    forall i | 0 < i < |more| ensures StartsAnew(more[i - 1], more[i][0], values + Flatten(more[..i - 1])) {
      assert more[..i - 1] == groups[..i - 1] && more[i - 1] == groups[i - 1];
    }
  }

  /** An independent batch of the last group and the next event would have been of the last group's kind. */
  lemma StartsRightly(kinds: seq<Kind>, groups: seq<seq<Event>>, value: Event, values: seq<Event>)
    requires groups != [] && AllGrouped(kinds, groups, values) && NoneShort(groups, values)
    requires var n, kind := |groups| - 1, KindOf(value, Jobs(values + Flatten(groups)));
             !(kind != Single && kinds[n] == kind && |groups[n]| < BATCH_LIMIT
               && Bytes(groups[n]) + value.size <= BATCH_BYTES)
    ensures StartsAnew(groups[|groups| - 1], value, values + Flatten(groups[..|groups| - 1]))
  {
    hide NoneShort, Grouped, KindOf, IndependentBatch, Jobs, Bytes;
    var n := |groups| - 1;
    var last, earlier := groups[n], values + Flatten(groups[..n]);
    GroupedFits(kinds[n], last, earlier);
    if IndependentBatch(last + [value], earlier) {
      assert values + Flatten(groups) == earlier + last;
      JobsConcat(earlier, last);
      SameKind(kinds[n], last, value, earlier);
    }
  }

  lemma GroupedFits(kind: Kind, group: seq<Event>, earlier: seq<Event>)
    requires Grouped(kind, group, earlier)
    ensures 1 <= |group| <= BATCH_LIMIT
  {
  }

  lemma SameKind(kind: Kind, last: seq<Event>, value: Event, earlier: seq<Event>)
    requires last != [] && Grouped(kind, last, earlier) && IndependentBatch(last + [value], earlier)
    ensures kind != Single && KindOf(value, Jobs(earlier) + Jobs(last)) == kind
  {
    FreshEnrollmentsSnoc(last, value, Jobs(earlier));
    assert last[0] in last && last[0] in last + [value] && value in last + [value];
    if FreshEnrollments(last, Jobs(earlier)) {
      assert InitialEnrollment(last[0]);
    }
    assert forall e :: e in last ==> e in last + [value];
  }

  lemma JobsConcat(a: seq<Event>, b: seq<Event>)
    ensures Jobs(a + b) == Jobs(a) + Jobs(b)
  {
    assert forall e :: e in a + b <==> e in a || e in b;
  }

  lemma JobsSnoc(values: seq<Event>, groups: seq<seq<Event>>, value: Event)
    ensures Jobs(values + (Flatten(groups) + [value])) ==
            Jobs(values + Flatten(groups)) + if value.payload.JobState? then {value.payload.job} else {}
  {
    assert values + (Flatten(groups) + [value]) == (values + Flatten(groups)) + [value];
    JobsConcat(values + Flatten(groups), [value]);
  }

  lemma StartsGroup(kinds: seq<Kind>, groups: seq<seq<Event>>, value: Event, values: seq<Event>)
    requires AllGrouped(kinds, groups, values)
    ensures AllGrouped(kinds + [KindOf(value, Jobs(values + Flatten(groups)))], groups + [[value]], values)
    ensures Flatten(groups + [[value]]) == Flatten(groups) + [value]
  {
    var kind := KindOf(value, Jobs(values + Flatten(groups)));
    assert [value][1..] == [];
    assert (groups + [[value]])[..|groups|] == groups;
    assert (kinds + [kind])[..|groups|] == kinds;
    assert Grouped(kind, [value], values + Flatten(groups));
  }

  lemma JoinsLast(kinds: seq<Kind>, groups: seq<seq<Event>>, value: Event, values: seq<Event>)
    requires AllGrouped(kinds, groups, values) && groups != []
    requires var n := |groups| - 1;
             var kind := KindOf(value, Jobs(values + Flatten(groups)));
             && kind != Single && kinds[n] == kind
             && |groups[n]| < BATCH_LIMIT && Bytes(groups[n]) + value.size <= BATCH_BYTES
    ensures var n := |groups| - 1;
            var joined := groups[..n] + [groups[n] + [value]];
            AllGrouped(kinds, joined, values) && Flatten(joined) == Flatten(groups) + [value]
  {
    var n := |groups| - 1;
    var last, earlier := groups[n], values + Flatten(groups[..n]);
    var joined := groups[..n] + [last + [value]];
    assert joined[..n] == groups[..n];
    assert (last + [value])[..|last|] == last;
    assert values + Flatten(groups) == earlier + last;
    JobsConcat(earlier, last);
    FreshEnrollmentsSnoc(last, value, Jobs(earlier));
  }

  lemma {:induction false} IndependentGroups(kinds: seq<Kind>, groups: seq<seq<Event>>, values: seq<Event>)
    requires AllGrouped(kinds, groups, values)
    ensures forall i :: 0 <= i < |groups| ==>
              && 1 <= |groups[i]| <= BATCH_LIMIT
              && (|groups[i]| > 1 ==>
                  Bytes(groups[i]) <= BATCH_BYTES && IndependentBatch(groups[i], values + Flatten(groups[..i])))
    decreases |groups|
  {
    if groups != [] {
      var n := |groups| - 1;
      IndependentGroups(kinds[..n], groups[..n], values);
      forall i | 0 <= i < n ensures groups[..n][i] == groups[i] && groups[..n][..i] == groups[..i] {
      }
    }
  }

  lemma {:induction false} UnpublishedCovers(events: seq<Event>, ids: set<Id>)
    ensures Ids(events) <= ids + Ids(Unpublished(events, ids))
  {
    if events != [] {
      var front, last := events[..|events| - 1], events[|events| - 1];
      assert events == front + [last];
      UnpublishedCovers(front, ids);
      IdsConcat(front, [last]);
      IdsConcat(Unpublished(front, ids), [last]);
    }
  }

  /** Leaving out what is already available keeps a causal order causal. */
  lemma {:induction false} UnpublishedKeepsCausal(ordered: seq<Event>, ids: set<Id>)
    requires Causal(ids, ordered)
    ensures Causal(ids, Unpublished(ordered, ids))
  {
    if ordered != [] {
      var k := |ordered| - 1;
      var front, last := ordered[..k], ordered[k];
      assert ordered == front + [last];
      CausalConcat(ids, front, [last]);
      UnpublishedKeepsCausal(front, ids);
      UnpublishedCovers(front, ids);
      if Sha(last) !in ids {
        CausalSnoc(ids, Unpublished(front, ids), last);
      } else {
        assert Unpublished(ordered, ids) == Unpublished(front, ids);
      }
    }
  }

  lemma {:induction false} UnpublishedPicks(events: seq<Event>, ids: set<Id>)
    ensures var r := Unpublished(events, ids);
            && |r| <= |events|
            && (forall e <- r :: e in events && Sha(e) !in ids)
            && (Distinct(events) ==> Distinct(r))
  {
    if events != [] {
      var k := |events| - 1;
      assert events == events[..k] + [events[k]];
      UnpublishedPicks(events[..k], ids);
    }
  }

  // ----- what a reader rebuilds -------------------------------------------------------------------------

  /** A history is one batch of new records per commit. */
  type History = seq<seq<Event>>

  /** A reading concatenates the commits, each in any order: the reader's sort key is one such order. */
  ghost predicate Reading(history: History, values: seq<Event>) {
    if history == [] then values == []
    else
      var n := |history| - 1;
      |history[n]| <= |values|
      && Reading(history[..n], values[..|values| - |history[n]|])
      && multiset(values[|values| - |history[n]|..]) == multiset(history[n])
  }

  ghost predicate Orderly(history: History) {
    forall c <- history :: |c| <= 1 || AllNeutral(c)
  }

  lemma OneReading(a: seq<Event>, b: seq<Event>)
    requires multiset(a) == multiset(b) && |a| <= 1
    ensures a == b
  {
    SameMultisetSameElements(a, b);
    if a != [] {
      assert a[0] in Elements(b);
    } 
  }

  /** Whatever order each commit is read in, the rebuilt ledger validates to the same index. */
  lemma {:induction false} ReadingValidates(history: History, values: seq<Event>)
    requires Orderly(history) && Accepted(Flatten(history)) && Reading(history, values)
    ensures Replay(EMPTY, values) == Replay(EMPTY, Flatten(history))
    ensures multiset(values) == multiset(Flatten(history))
  {
    if history != [] {
      var n := |history| - 1;
      var commit, cut := history[n], |values| - |history[n]|;
      assert values == values[..cut] + values[cut..];
      ReplayConcat(EMPTY, Flatten(history[..n]), commit);
      ReadingValidates(history[..n], values[..cut]);
      ReplayConcat(EMPTY, values[..cut], values[cut..]);
      ReplayKeeps(EMPTY, Flatten(history[..n]));
      if |commit| <= 1 {
        OneReading(commit, values[cut..]);
      } else {
        BatchOrderIrrelevant(Replay(EMPTY, Flatten(history[..n])).value, commit, values[cut..]);
      }
    }
  }

  lemma {:induction false} ReadingIsCausal(history: History, values: seq<Event>)
    requires Orderly(history) && Causal({}, Flatten(history)) && Reading(history, values)
    ensures Causal({}, values) && multiset(values) == multiset(Flatten(history))
  {
    hide Causal, Ids, Elements, AllNeutral;
    if history == [] {
      assert Flatten(history) == [];
    } else {
      var n := |history| - 1;
      var commit, cut := history[n], |values| - |history[n]|;
      var before, front, back := Flatten(history[..n]), values[..cut], values[cut..];
      assert values == front + back;
      CausalConcat({}, before, commit);
      ReadingIsCausal(history[..n], front);
      SameMultisetSameElements(front, before);
      IdsOfElements(front, before);
      CausalConcat({}, front, back);
      if |commit| <= 1 {
        OneReading(commit, back);
      } else {
        assert commit in history;
        ReorderedIsNeutral(commit, back);
        NeutralIsCausal({} + Ids(front), back);
      }
      assert multiset(values) == multiset(front) + multiset(back);
      assert multiset(before + commit) == multiset(before) + multiset(commit);
    }
  }

  lemma ReorderedIsNeutral(commit: seq<Event>, back: seq<Event>)
    requires multiset(back) == multiset(commit) && AllNeutral(commit)
    ensures AllNeutral(back)
  {
    SameMultisetSameElements(back, commit);
    forall e | e in back ensures Neutral(e) {
      assert e in Elements(commit);
    }
  }

  lemma {:induction false} NeutralIsCausal(available: set<Id>, events: seq<Event>)
    requires AllNeutral(events)
    ensures Causal(available, events)
    decreases |events|
  {
    if events != [] {
      assert Neutral(events[0]);
      assert Dependencies(events[0]) == {};
      NeutralIsCausal(available + {Sha(events[0])}, events[1..]);
    }
  }

  lemma IdsOfElements(a: seq<Event>, b: seq<Event>)
    requires Elements(a) == Elements(b)
    ensures Ids(a) == Ids(b)
  {
    forall e ensures e in a <==> e in b {
      assert e in Elements(a) <==> e in Elements(b);
    }
  }

  // ----- the protocol -----------------------------------------------------------------------------------

  /**
   What one publisher holds in memory: a plan bound to the head it last fetched, or a batch whose push was answered.
   */
  datatype Plan =
    | Idle
    | Ready(head: History, batches: seq<seq<Event>>)
    | Pushed(batch: seq<Event>, rest: seq<seq<Event>>)

  /** spooled and acknowledged survive a crash; the plan does not. */
  datatype Publisher = Publisher(spooled: set<Event>, acknowledged: set<Id>, plan: Plan)

  datatype World = World(remote: History, publishers: seq<Publisher>)

  datatype Step =
    | Spool(event: Event)
    | Prepare(values: seq<Event>, ordered: seq<Event>, batches: seq<seq<Event>>)
    | AcknowledgeKnown(event: Event)
    | PushAnswered(values: seq<Event>)
    | PushLost(values: seq<Event>)
    | Refetch
    | Abandon

  /** Records already in the tree are not added again. */
  function NewRecords(batch: seq<Event>, remote: History): (r: seq<Event>) {
    Unpublished(batch, Ids(Flatten(remote)))
  }

  /** A plan is what CausalOrder and Batches return for the spooled events at a fetched head. */
  ghost predicate Planned(p: Publisher, remote: History, values: seq<Event>, ordered: seq<Event>,
                          batches: seq<seq<Event>>) {
    && Reading(remote, values)
    && Elements(ordered) <= p.spooled && Distinct(ordered) && Causal(Ids(values), ordered)
    && Flatten(batches) == Unpublished(ordered, Ids(values))
    && forall i :: 0 <= i < |batches| ==>
         |batches[i]| > 1 ==> IndependentBatch(batches[i], values + Flatten(batches[..i]))
  }

  ghost predicate Unorderable(ids: set<Id>, pending: seq<Event>) {
    forall order :: multiset(order) == multiset(pending) ==> !Causal(ids, order)
  }

  predicate Oversized(ids: set<Id>, events: seq<Event>) {
    exists e <- events :: Sha(e) !in ids && e.size > RECORD_BYTES
  }

  /**
   What a publisher plans from its outbox at a fetched head: the order and the batches as they are computed are a plan
   of the protocol, and it is refused exactly if no causal order exists or an unpublished record is too large.
   */
  method MakePlan(pending: seq<Event>, values: seq<Event>, ghost p: Publisher, ghost remote: History)
      returns (plan: Result<(seq<Event>, seq<seq<Event>>), Refusal>, known: set<Id>)
    requires Reading(remote, values) && Distinct(pending) && Elements(pending) == p.spooled
    ensures plan.Ok? ==> Planned(p, remote, values, plan.value.0, plan.value.1) && known == Ids(pending) * Ids(values)
    ensures plan.Ok? ==> Elements(plan.value.0) == p.spooled
    ensures plan.Err? <==> Unorderable(Ids(values), pending) || Oversized(Ids(values), pending)
  {
    known := {};
    var ordered := CausalOrder(pending, Ids(values));
    if ordered.Err? {
      return Err(ordered.error), known;
    }
    assert !Unorderable(Ids(values), pending);
    OrderedIs(pending, ordered.value);
    var batches;
    batches, known := Batches(ordered.value, values);
    if batches.Err? {
      return Err(batches.error), known;
    }
    plan := Ok((ordered.value, batches.value));
  }

  lemma OrderedIs(pending: seq<Event>, ordered: seq<Event>)
    requires multiset(ordered) == multiset(pending) && Distinct(pending)
    ensures Distinct(ordered) && Elements(ordered) == Elements(pending) && Ids(ordered) == Ids(pending)
    ensures forall e :: e in ordered <==> e in pending
  {
    PermutationDistinct(pending, ordered);
    SameMultisetSameElements(ordered, pending);
    IdsOfElements(ordered, pending);
    forall e ensures e in ordered <==> e in pending {
      assert e in Elements(ordered) <==> e in Elements(pending);
    }
  }

  /** The push succeeds only while the remote is still the fetched head, and only after the batch validates there. */
  ghost predicate CanPush(w: World, p: Publisher, values: seq<Event>) {
    && p.plan.Ready? && p.plan.batches != [] && p.plan.head == w.remote
    && Reading(w.remote, values) && Accepted(values + p.plan.batches[0])
  }

  ghost predicate Next(w: World, w': World, who: nat, step: Step) {
    who < |w.publishers| &&
    var p := w.publishers[who];
    match step
    case Spool(event) =>
      w' == w.(publishers := w.publishers[who := p.(spooled := p.spooled + {event})])
    case Prepare(values, ordered, batches) =>
      && p.plan.Idle? && Planned(p, w.remote, values, ordered, batches)
      && w' == w.(publishers := w.publishers[who := p.(plan := Ready(w.remote, batches))])
    case AcknowledgeKnown(event) =>
      && p.plan.Ready? && event in p.spooled && Sha(event) in Ids(Flatten(p.plan.head))
      && w' == w.(publishers := w.publishers[who := p.(acknowledged := p.acknowledged + {Sha(event)})])
    case PushAnswered(values) =>
      && CanPush(w, p, values)
      && w' == World(w.remote + [NewRecords(p.plan.batches[0], w.remote)],
                     w.publishers[who := p.(plan := Pushed(p.plan.batches[0], p.plan.batches[1..]))])
    case PushLost(values) =>
      && CanPush(w, p, values)
      && w' == World(w.remote + [NewRecords(p.plan.batches[0], w.remote)], w.publishers[who := p.(plan := Idle)])
    case Refetch =>
      && p.plan.Pushed?
      && w' == w.(publishers := w.publishers[who := p.(acknowledged := p.acknowledged + Ids(p.plan.batch),
                                                       plan := Ready(w.remote, p.plan.rest))])
    case Abandon =>
      w' == w.(publishers := w.publishers[who := p.(plan := Idle)])
  }

  ghost predicate PlanSafe(p: Publisher, remote: History) {
    match p.plan
    case Idle => true
    case Ready(head, batches) =>
      && head <= remote
      && Orderly(batches) && Causal(Ids(Flatten(remote)), Flatten(batches)) && Distinct(Flatten(batches))
    case Pushed(batch, rest) =>
      && Ids(batch) <= Ids(Flatten(remote))
      && Orderly(rest) && Causal(Ids(Flatten(remote)), Flatten(rest)) && Distinct(Flatten(rest))
  }

  ghost predicate RemoteSafe(remote: History) {
    && Orderly(remote) && Accepted(Flatten(remote))
    && Distinct(Flatten(remote)) && Causal({}, Flatten(remote))
  }

  ghost predicate Invariant(w: World) {
    && RemoteSafe(w.remote)
    && forall p <- w.publishers :: p.acknowledged <= Ids(Flatten(w.remote)) && PlanSafe(p, w.remote)
  }

  ghost predicate Initial(w: World) {
    w.remote == [] && forall p <- w.publishers :: p.acknowledged == {} && p.plan.Idle?
  }

  /** Pushing a validated batch keeps the remote readable, whatever part of it is already there. */
  lemma PushKeeps(remote: History, batch: seq<Event>, values: seq<Event>)
    requires RemoteSafe(remote) && Reading(remote, values) && Accepted(values + batch)
    requires (|batch| <= 1 || AllNeutral(batch)) && Causal(Ids(Flatten(remote)), batch) && Distinct(batch)
    ensures RemoteSafe(remote + [NewRecords(batch, remote)])
    ensures Ids(Flatten(remote + [NewRecords(batch, remote)])) == Ids(Flatten(remote)) + Ids(batch)
  {
    hide Flatten, Causal, Distinct, Reading, Unpublished, Accepted, Orderly;
    var flat, added := Flatten(remote), NewRecords(batch, remote);
    FlattenSnoc(remote, added);
    IdsConcat(flat, added);
    UnpublishedPicks(batch, Ids(flat));
    UnpublishedCovers(batch, Ids(flat));
    PushValidates(remote, batch, values);
    DistinctConcat(flat, added);
    PushIsCausal(flat, batch);
    RemoteGrows(remote, added);
  }

  lemma PushIsCausal(flat: seq<Event>, batch: seq<Event>)
    requires Causal({}, flat) && Causal(Ids(flat), batch)
    ensures Causal({}, flat + Unpublished(batch, Ids(flat)))
  {
    UnpublishedKeepsCausal(batch, Ids(flat));
    CausalConcat({}, flat, Unpublished(batch, Ids(flat)));
    assert {} + Ids(flat) == Ids(flat);
  }

  lemma RemoteGrows(remote: History, added: seq<Event>)
    requires RemoteSafe(remote) && (|added| <= 1 || AllNeutral(added))
    requires Accepted(Flatten(remote) + added) && Distinct(Flatten(remote) + added)
    requires Causal({}, Flatten(remote) + added)
    ensures RemoteSafe(remote + [added])
  {
    hide Flatten, Causal, Distinct, Accepted, AllNeutral;
    FlattenSnoc(remote, added);
  }

  lemma DistinctConcat(a: seq<Event>, b: seq<Event>)
    requires Distinct(a) && Distinct(b) && forall e <- b :: Sha(e) !in Ids(a)
    ensures Distinct(a + b)
  {
    forall i, j | 0 <= i < |a| <= j < |a + b| ensures (a + b)[i] != (a + b)[j] {
      assert (a + b)[i] == a[i] && Sha(a[i]) in Ids(a);
      assert (a + b)[j] == b[j - |a|];
    }
  }

  lemma PushValidates(remote: History, batch: seq<Event>, values: seq<Event>)
    requires RemoteSafe(remote) && Reading(remote, values) && Accepted(values + batch) && Distinct(batch)
    ensures Accepted(Flatten(remote) + NewRecords(batch, remote))
  {
    var flat := Flatten(remote);
    ReadingValidates(remote, values);
    ReplayConcat(EMPTY, values, batch);
    ReplayConcat(EMPTY, flat, NewRecords(batch, remote));
    ReplayKeeps(EMPTY, flat);
    var index := Replay(EMPTY, flat).value;
    assert index.ids == Ids(flat);
    SkipKnown(index, batch);
  }

  /** Leaving out events the index already holds does not change acceptance. */
  lemma {:induction false} SkipKnown(index: Index, batch: seq<Event>)
    requires Consistent(index) && Replay(index, batch).Ok?
    ensures Replay(index, Unpublished(batch, index.ids)) == Replay(index, batch)
  {
    if batch != [] {
      var k := |batch| - 1;
      var front, last := batch[..k], batch[k];
      assert batch == front + [last];
      ReplayConcat(index, front, [last]);
      SkipKnown(index, front);
      ReplayKeeps(index, front);
      var middle := Replay(index, front).value;
      assert [last][1..] == [];
      if Sha(last) in index.ids {
        assert Apply(middle, last) == Ok(middle);
        assert Unpublished(batch, index.ids) == Unpublished(front, index.ids);
      } else {
        ReplayConcat(index, Unpublished(front, index.ids), [last]);
      }
    }
  }

  lemma PlanStaysSafe(p: Publisher, remote: History, added: seq<Event>)
    requires PlanSafe(p, remote) && p.acknowledged <= Ids(Flatten(remote))
    ensures PlanSafe(p, remote + [added]) && p.acknowledged <= Ids(Flatten(remote + [added]))
  {
    FlattenSnoc(remote, added);
    IdsConcat(Flatten(remote), added);
    var more := Ids(Flatten(remote + [added]));
    match p.plan
    case Idle =>
    case Ready(head, batches) =>
      CausalMore(Ids(Flatten(remote)), more, Flatten(batches));
    case Pushed(batch, rest) =>
      CausalMore(Ids(Flatten(remote)), more, Flatten(rest));
  }

  lemma FirstBatch(batches: seq<seq<Event>>, ids: set<Id>)
    requires batches != [] && Orderly(batches) && Causal(ids, Flatten(batches)) && Distinct(Flatten(batches))
    ensures (|batches[0]| <= 1 || AllNeutral(batches[0])) && Causal(ids, batches[0]) && Distinct(batches[0])
    ensures Orderly(batches[1..]) && Causal(ids + Ids(batches[0]), Flatten(batches[1..]))
    ensures Distinct(Flatten(batches[1..]))
  {
    hide Flatten, Causal, AllNeutral, Distinct;
    var first, rest := batches[0], batches[1..];
    assert batches == [first] + rest;
    FlattenCons(first, rest);
    CausalConcat(ids, first, Flatten(rest));
    DistinctSplit(first, Flatten(rest));
  }

  lemma DistinctSplit(a: seq<Event>, b: seq<Event>)
    requires Distinct(a + b)
    ensures Distinct(a) && Distinct(b)
  {
    var all := a + b;
    assert forall i :: 0 <= i < |a| ==> a[i] == all[i];
    assert forall i :: 0 <= i < |b| ==> b[i] == all[|a| + i];
  }

  lemma PlannedIsSafe(p: Publisher, remote: History, values: seq<Event>, ordered: seq<Event>, batches: seq<seq<Event>>)
    requires RemoteSafe(remote) && Planned(p, remote, values, ordered, batches)
    ensures PlanSafe(p.(plan := Ready(remote, batches)), remote)
  {
    ReadingValidates(remote, values);
    SameMultisetSameElements(values, Flatten(remote));
    IdsOfElements(values, Flatten(remote));
    UnpublishedKeepsCausal(ordered, Ids(values));
    UnpublishedPicks(ordered, Ids(values));
    forall b | b in batches && |b| > 1 ensures AllNeutral(b) {
      var i :| 0 <= i < |batches| && batches[i] == b;
      IndependentIsNeutral(b, values + Flatten(batches[..i]));
    }
  }

  lemma PublisherMoves(w: World, w': World, who: nat, p: Publisher)
    requires Invariant(w) && who < |w.publishers| && w' == w.(publishers := w.publishers[who := p])
    requires p.acknowledged <= Ids(Flatten(w.remote)) && PlanSafe(p, w.remote)
    ensures Invariant(w')
  {
    forall i | 0 <= i < |w'.publishers|
      ensures w'.publishers[i].acknowledged <= Ids(Flatten(w'.remote)) && PlanSafe(w'.publishers[i], w'.remote)
    {
      assert w.publishers[i] in w.publishers;
    }
  }

  lemma SamePlanSafe(p: Publisher, q: Publisher, remote: History)
    requires PlanSafe(p, remote) && q.plan == p.plan
    ensures PlanSafe(q, remote)
  {
    hide Causal, Distinct, Orderly, Flatten;
  }

  lemma IdleIsSafe(p: Publisher, remote: History)
    requires p.plan.Idle?
    ensures PlanSafe(p, remote)
  {
  }

  lemma RefetchIsSafe(p: Publisher, q: Publisher, remote: History)
    requires PlanSafe(p, remote) && p.plan.Pushed? && q.plan == Ready(remote, p.plan.rest)
    ensures PlanSafe(q, remote) && Ids(p.plan.batch) <= Ids(Flatten(remote))
  {
    hide Causal, Distinct, Orderly, Flatten, Ids;
  }

  lemma KnownIsRemote(p: Publisher, event: Event, remote: History)
    requires PlanSafe(p, remote) && p.plan.Ready? && Sha(event) in Ids(Flatten(p.plan.head))
    ensures Sha(event) in Ids(Flatten(remote))
  {
    hide Causal, Distinct, Orderly;
    HeadIds(p.plan.head, remote);
  }

  /** What a step of a publisher that does not push changes of it. */
  ghost predicate OwnMove(p: Publisher, p': Publisher, remote: History, step: Step) {
    match step
    case Spool(event) => p' == p.(spooled := p.spooled + {event})
    case Prepare(values, ordered, batches) =>
      Planned(p, remote, values, ordered, batches) && p' == p.(plan := Ready(remote, batches))
    case AcknowledgeKnown(event) =>
      && p.plan.Ready? && Sha(event) in Ids(Flatten(p.plan.head))
      && p' == p.(acknowledged := p.acknowledged + {Sha(event)})
    case Refetch =>
      && p.plan.Pushed?
      && p' == p.(acknowledged := p.acknowledged + Ids(p.plan.batch), plan := Ready(remote, p.plan.rest))
    case Abandon => p' == p.(plan := Idle)
    case _ => false
  }

  /** A publisher's own step: its plan stays safe and it acknowledges nothing that is not remote. */
  lemma OwnStep(p: Publisher, p': Publisher, remote: History, step: Step)
    requires RemoteSafe(remote) && p.acknowledged <= Ids(Flatten(remote)) && PlanSafe(p, remote)
    requires OwnMove(p, p', remote, step)
    ensures p'.acknowledged <= Ids(Flatten(remote)) && PlanSafe(p', remote)
  {
    hide PlanSafe, RemoteSafe, Planned, Ids, Flatten;
    match step
    case Spool(_) => SamePlanSafe(p, p', remote);
    case Prepare(values, ordered, batches) => PlannedIsSafe(p, remote, values, ordered, batches);
    case AcknowledgeKnown(event) =>
      KnownIsRemote(p, event, remote);
      SamePlanSafe(p, p', remote);
    case Refetch => RefetchIsSafe(p, p', remote);
    case _ => IdleIsSafe(p', remote);
  }

  /** A push: the remote grows by the batch, and every publisher's plan stays safe. */
  lemma PushedKeeps(w: World, w': World, who: nat, values: seq<Event>)
    requires Invariant(w) && who < |w.publishers| && CanPush(w, w.publishers[who], values)
    requires var p := w.publishers[who];
             && w'.remote == w.remote + [NewRecords(p.plan.batches[0], w.remote)]
             && (w'.publishers == w.publishers[who := p.(plan := Idle)] ||
                 w'.publishers == w.publishers[who := p.(plan := Pushed(p.plan.batches[0], p.plan.batches[1..]))])
    ensures Invariant(w')
  {
    var p, p' := w.publishers[who], w'.publishers[who];
    PublisherIs(w, p);
    PushingIsReady(w, p, values);
    hide Invariant, PlanSafe, RemoteSafe, CanPush, Ids, Flatten, NewRecords, Reading, Accepted;
    PushStep(p, w.remote, values);
    if p'.plan.Idle? {
      IdleIsSafe(p', w'.remote);
    }
    PublishersStaySafe(w, w', who, NewRecords(p.plan.batches[0], w.remote));
  }

  lemma NextKeeps(w: World, w': World, who: nat, step: Step)
    requires Invariant(w) && Next(w, w', who, step)
    ensures Invariant(w') && w.remote <= w'.remote
  {
    hide Invariant, PlanSafe, RemoteSafe, Planned, CanPush, Ids, Flatten, NewRecords;
    var p := w.publishers[who];
    PublisherIs(w, p);
    match step
    case PushAnswered(values) => PushedKeeps(w, w', who, values);
    case PushLost(values) => PushedKeeps(w, w', who, values);
    case _ =>
      assert OwnMove(p, w'.publishers[who], w.remote, step);
      OwnStep(p, w'.publishers[who], w.remote, step);
      PublisherMoves(w, w', who, w'.publishers[who]);
  }

  lemma PublisherIs(w: World, p: Publisher)
    requires Invariant(w) && p in w.publishers
    ensures RemoteSafe(w.remote) && p.acknowledged <= Ids(Flatten(w.remote)) && PlanSafe(p, w.remote)
  {
  }

  lemma PushingIsReady(w: World, p: Publisher, values: seq<Event>)
    requires CanPush(w, p, values)
    ensures p.plan.Ready? && p.plan.batches != [] && p.plan.head == w.remote
    ensures Reading(w.remote, values) && Accepted(values + p.plan.batches[0])
  {
  }

  lemma HeadIds(head: History, remote: History)
    requires head <= remote
    ensures Ids(Flatten(head)) <= Ids(Flatten(remote))
  {
    assert remote == head + remote[|head|..];
    FlattenConcat(head, remote[|head|..]);
    IdsConcat(Flatten(head), Flatten(remote[|head|..]));
  }

  /** After a push the remote, and the plan of the pusher should it learn of it, are safe. */
  lemma PushStep(p: Publisher, remote: History, values: seq<Event>)
    requires RemoteSafe(remote) && PlanSafe(p, remote) && p.plan.Ready? && p.plan.batches != []
    requires Reading(remote, values) && Accepted(values + p.plan.batches[0])
    ensures var remote' := remote + [NewRecords(p.plan.batches[0], remote)];
            && RemoteSafe(remote')
            && PlanSafe(p.(plan := Pushed(p.plan.batches[0], p.plan.batches[1..])), remote')
  {
    FirstBatch(p.plan.batches, Ids(Flatten(remote)));
    PushKeeps(remote, p.plan.batches[0], values);
  }

  lemma PublishersStaySafe(w: World, w': World, who: nat, added: seq<Event>)
    requires Invariant(w) && RemoteSafe(w'.remote) && w'.remote == w.remote + [added] && who < |w.publishers|
    requires |w'.publishers| == |w.publishers|
    requires forall i :: 0 <= i < |w.publishers| && i != who ==> w'.publishers[i] == w.publishers[i]
    requires w'.publishers[who].acknowledged == w.publishers[who].acknowledged
    requires PlanSafe(w'.publishers[who], w'.remote)
    ensures Invariant(w')
  {
    forall i | 0 <= i < |w'.publishers|
      ensures w'.publishers[i].acknowledged <= Ids(Flatten(w'.remote)) && PlanSafe(w'.publishers[i], w'.remote)
    {
      assert w.publishers[i] in w.publishers;
      PlanStaysSafe(w.publishers[i], w.remote, added);
    }
  }

  ghost predicate Advances(w: World, w': World) {
    exists who, step :: Next(w, w', who, step)
  }

  /** A run is any interleaving of any number of publishers. */
  ghost predicate Run(trace: seq<World>) {
    trace != [] &&
    var n := |trace| - 1;
    if n == 0 then Initial(trace[0])
    else Run(trace[..n]) && Advances(trace[n - 1], trace[n])
  }

  lemma {:induction false} RunInvariant(trace: seq<World>)
    requires Run(trace)
    ensures Invariant(trace[|trace| - 1])
    ensures |trace| > 1 ==> trace[|trace| - 2].remote <= trace[|trace| - 1].remote
  {
    var n := |trace| - 1;
    if n == 0 {
      assert Flatten(trace[0].remote) == [];
    } else {
      RunInvariant(trace[..n]);
      var who, step :| Next(trace[n - 1], trace[n], who, step);
      NextKeeps(trace[n - 1], trace[n], who, step);
    }
  }

  /**
   In every reachable world, whatever order a reader takes each commit in, the ledger it rebuilds is
   valid, holds each event once with its dependencies first, and contains every acknowledged event.
   */
  lemma PublishedLedgerIsSound(trace: seq<World>, values: seq<Event>)
    requires Run(trace) && Reading(trace[|trace| - 1].remote, values)
    ensures Accepted(values) && Distinct(values) && Causal({}, values)
    ensures forall p <- trace[|trace| - 1].publishers :: p.acknowledged <= Ids(values)
  {
    var remote := trace[|trace| - 1].remote;
    RunInvariant(trace);
    ReadingValidates(remote, values);
    ReadingIsCausal(remote, values);
    PermutationDistinct(Flatten(remote), values);
    SameMultisetSameElements(Flatten(remote), values);
    IdsOfElements(Flatten(remote), values);
  }

  // ----- a plan that nothing disturbs is carried out ----------------------------------------------------

  ghost predicate Moves(w: World, w': World, who: nat) {
    exists step :: Next(w, w', who, step)
  }

  /** Every step is one of the same publisher. */
  ghost predicate Undisturbed(trace: seq<World>, who: nat) {
    trace != [] && forall i {:trigger trace[i]} :: 0 < i < |trace| ==> Moves(trace[i - 1], trace[i], who)
  }

  lemma JoinTraces(a: seq<World>, b: seq<World>, who: nat)
    requires Undisturbed(a, who) && Undisturbed(b, who) && a[|a| - 1] == b[0]
    ensures Undisturbed(a + b[1..], who) && (a + b[1..])[0] == a[0] && (a + b[1..])[|a| + |b| - 2] == b[|b| - 1]
  {
    hide Moves;
    var both := a + b[1..];
    forall i {:trigger both[i]} | 0 < i < |both| ensures Moves(both[i - 1], both[i], who) {
      if i < |a| {
        assert both[i - 1] == a[i - 1] && both[i] == a[i];
      } else {
        assert both[i] == b[i - |a| + 1] && both[i - 1] == b[i - |a|];
      }
    }
  }

  /** Reading the commits as they were written is one way of reading them. */
  lemma {:induction false} WrittenIsRead(history: History)
    ensures Reading(history, Flatten(history))
  {
    if history != [] {
      var n := |history| - 1;
      WrittenIsRead(history[..n]);
      var flat := Flatten(history);
      assert flat == Flatten(history[..n]) + history[n];
      assert flat[..|flat| - |history[n]|] == Flatten(history[..n]) && flat[|flat| - |history[n]|..] == history[n];
    }
  }

  lemma {:induction false} AllAreNew(batch: seq<Event>, ids: set<Id>)
    requires forall e <- batch :: Sha(e) !in ids
    ensures Unpublished(batch, ids) == batch
  {
    if batch != [] {
      AllAreNew(batch[..|batch| - 1], ids);
      assert batch == batch[..|batch| - 1] + [batch[|batch| - 1]];
    }
  }

  /** The batches planned at the head, none of it there yet, still to be pushed. */
  ghost predicate Due(w: World, who: nat, batches: seq<seq<Event>>) {
    && who < |w.publishers| && w.publishers[who].plan == Ready(w.remote, batches)
    && Accepted(Flatten(w.remote) + Flatten(batches))
    && forall e <- Flatten(batches) :: Sha(e) !in Ids(Flatten(w.remote))
  }

  /** One batch is pushed and, refetched, acknowledged; the rest is due at the new head. */
  lemma OneRound(w: World, who: nat, batches: seq<seq<Event>>) returns (trace: seq<World>)
    requires Invariant(w) && Due(w, who, batches) && batches != []
    ensures |trace| == 3 && Undisturbed(trace, who) && trace[0] == w && Invariant(trace[2])
    ensures trace[2].remote == w.remote + [batches[0]] && Due(trace[2], who, batches[1..])
    ensures trace[2].publishers == w.publishers[who := w.publishers[who].(
              acknowledged := w.publishers[who].acknowledged + Ids(batches[0]),
              plan := Ready(trace[2].remote, batches[1..]))]
  {
    hide Invariant, Reading, Flatten, Ids, Unpublished, Replay, Distinct;
    var p, flat := w.publishers[who], Flatten(w.remote);
    WrittenIsRead(w.remote);
    DueSplits(w, who, batches);
    AllAreNew(batches[0], Ids(flat));
    var pushed := World(w.remote + [batches[0]], w.publishers[who := p.(plan := Pushed(batches[0], batches[1..]))]);
    var last := pushed.(publishers := pushed.publishers[who := p.(acknowledged := p.acknowledged + Ids(batches[0]),
                                                                  plan := Ready(pushed.remote, batches[1..]))]);
    assert CanPush(w, p, flat);
    assert Next(w, pushed, who, PushAnswered(flat));
    assert Next(pushed, last, who, Refetch);
    NextKeeps(w, pushed, who, PushAnswered(flat));
    NextKeeps(pushed, last, who, Refetch);
    assert last.publishers == w.publishers[who := last.publishers[who]];
    trace := [w, pushed, last];
    assert Moves(trace[0], trace[1], who) && Moves(trace[1], trace[2], who);
  }

  lemma DueSplits(w: World, who: nat, batches: seq<seq<Event>>)
    requires Invariant(w) && Due(w, who, batches) && batches != []
    ensures Accepted(Flatten(w.remote) + batches[0]) && forall e <- batches[0] :: Sha(e) !in Ids(Flatten(w.remote))
    ensures var remote := w.remote + [batches[0]];
            && Accepted(Flatten(remote) + Flatten(batches[1..]))
            && forall e <- Flatten(batches[1..]) :: Sha(e) !in Ids(Flatten(remote))
  {
    hide Flatten, Ids, Replay, Causal, Orderly;
    var flat, first, rest := Flatten(w.remote), batches[0], batches[1..];
    assert batches == [first] + rest;
    FlattenCons(first, rest);
    FlattenSnoc(w.remote, first);
    assert flat + (first + Flatten(rest)) == (flat + first) + Flatten(rest);
    ReplayConcat(EMPTY, flat + first, Flatten(rest));
    assert forall e :: e in first || e in Flatten(rest) ==> e in Flatten(batches);
    IdsConcat(flat, first);
    forall e | e in Flatten(rest) ensures Sha(e) !in Ids(flat + first) {
      PublisherIs(w, w.publishers[who]);
      NotInFirst(first, Flatten(rest), e);
    }
  }

  lemma NotInFirst(first: seq<Event>, rest: seq<Event>, e: Event)
    requires Distinct(first + rest) && e in rest
    ensures Sha(e) !in Ids(first)
  {
    var all := first + rest;
    var j :| 0 <= j < |rest| && rest[j] == e;
    assert all[|first| + j] == e;
    forall i | 0 <= i < |first| ensures first[i] != e {
      assert all[i] == first[i];
    }
  }

  /** A plan that validates is carried out, batch by batch, as long as nobody else moves: all of it is acknowledged. */
  lemma {:induction false} UndisturbedPlanIsPublished(w: World, who: nat, batches: seq<seq<Event>>)
      returns (trace: seq<World>)
    requires Invariant(w) && Due(w, who, batches)
    ensures Undisturbed(trace, who) && trace != [] && trace[0] == w
    ensures var last := trace[|trace| - 1];
            && last.remote == w.remote + batches
            && last.publishers == w.publishers[who := w.publishers[who].(
                 acknowledged := w.publishers[who].acknowledged + Ids(Flatten(batches)),
                 plan := Ready(last.remote, []))]
    decreases |batches|
  {
    hide Invariant, Flatten, Ids, Undisturbed, Accepted;
    if batches == [] {
      trace := NothingToPush(w, who);
    } else {
      var round := OneRound(w, who, batches);
      var more := UndisturbedPlanIsPublished(round[2], who, batches[1..]);
      JoinTraces(round, more, who);
      trace := round + more[1..];
      assert batches == [batches[0]] + batches[1..];
      FlattenCons(batches[0], batches[1..]);
      IdsConcat(batches[0], Flatten(batches[1..]));
      assert w.remote + [batches[0]] + batches[1..] == w.remote + batches;
      var last, p := trace[|trace| - 1], w.publishers[who];
      assert last == more[|more| - 1];
      assert p.acknowledged + Ids(batches[0]) + Ids(Flatten(batches[1..])) == p.acknowledged + Ids(Flatten(batches));
      assert last.publishers == w.publishers[who := last.publishers[who]];
    }
  }

  lemma NothingToPush(w: World, who: nat) returns (trace: seq<World>)
    requires Due(w, who, [])
    ensures trace == [w] && Undisturbed(trace, who) && w.remote + [] == w.remote
    ensures w.publishers == w.publishers[who := w.publishers[who].(
              acknowledged := w.publishers[who].acknowledged + Ids(Flatten<Event>([])), plan := Ready(w.remote, []))]
  {
    trace := [w];
    assert Flatten<Event>([]) == [];
    assert w.publishers[who].acknowledged + Ids([]) == w.publishers[who].acknowledged;
  }
}
