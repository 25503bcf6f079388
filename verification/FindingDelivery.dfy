/**
 Triage and delivery of findings: every decision is spooled as a ledger event before the local row changes,
 so a crash between the two is repaired by replaying the retained events.
 */
module FindingDelivery {
  import opened Prelude
  import opened Ledger

  /** The local row of a finding; status is None while it is untriaged. */
  datatype Row = Row(review: Id, status: Option<Action>, previous: Option<Id>, canonical: FindingId, target: string,
                     mappedPath: Option<string>, mappedLines: set<int>, receipt: Option<Evidence>, content: string)

  /** What the repair transport is asked, under the canonical finding as idempotency key. */
  datatype Request = Request(canonical: FindingId, finding: FindingId, review: Id, target: string,
                             path: Option<string>, lines: set<int>, content: string)

  datatype Call = Call(canonical: FindingId, request: Request)

  datatype Refusal = Unknown | OccurrenceConflict | MissingReason | MissingFix | BadDuplicate | Invalid
                   | NotConfirmed | RequestChanged | Unacknowledged | Died

  /** The save before which the process dies. */
  datatype Death = BeforeRequest | BeforeReceipt | BeforeEvent | BeforeRow | Never

  /** A decision on a finding: what is wanted of whom, and what carrying its anchor to the promoted commit gave. */
  datatype Decision = Decision(wanted: Action, actor: string, reason: string, at: string, size: nat, valid: bool,
                               promoted: string, path: Option<string>, lines: set<int>, whole: bool,
                               fixing: Option<string>, duplicateOf: Option<FindingId>)

  function Fresh(review: Id, target: string, finding: FindingId, content: string): Row {
    Row(review, None, None, finding, target, None, {}, None, content)
  }

  /** A row after one event is replayed on it. */
  function Recovered(row: Row, e: Event): Row
    requires e.payload.FindingEvent?
  {
    var p := e.payload;
    var moved := row.(status := Some(p.action), previous := Some(Sha(e)));
    if p.action == Delivered then moved.(receipt := Some(p.evidence))
    else if !p.evidence.Anchor? then moved
    else
      moved.(target := p.evidence.target, mappedPath := p.evidence.mappedPath, mappedLines := p.evidence.mappedLines,
             canonical := if p.action == Duplicate && p.evidence.canonical.Some? then p.evidence.canonical.value
                 else row.canonical)
  }

  // ----- chains -----------------------------------------------------------------------------------------

  function Tip(chain: seq<Event>, j: nat): Option<Id>
    requires j <= |chain|
  {
    if j == 0 then None else Some(Sha(chain[j - 1]))
  }

  function KeyFor(finding: FindingId, previous: Option<Id>, action: Action, evidence: Evidence): SourceKey {
    if action == Delivered then DeliveryKey(finding) else TriageKey(finding, previous, action, evidence)
  }

  /** The events of one finding, each naming the one before, under the source keys the two operations build. */
  ghost predicate Chain(finding: FindingId, review: Id, chain: seq<Event>) {
    forall k :: 0 <= k < |chain| ==> Link(finding, review, chain, k)
  }

  ghost predicate Link(finding: FindingId, review: Id, chain: seq<Event>, k: nat)
    requires k < |chain|
  {
    var e := chain[k];
    && e.wellFormed && e.payload.FindingEvent? && e.payload.finding == finding && e.payload.review == review
    && e.payload.previous == Tip(chain, k)
    && e.sourceKey == KeyFor(finding, e.payload.previous, e.payload.action, e.payload.evidence)
  }

  function Replayed(row: Row, chain: seq<Event>, j: nat): Row
    requires j <= |chain| && forall e <- chain :: e.payload.FindingEvent?
  {
    if j == 0 then row else Recovered(Replayed(row, chain, j - 1), chain[j - 1])
  }

  lemma {:induction false} ReplayedTip(finding: FindingId, row: Row, chain: seq<Event>, j: nat)
    requires j <= |chain| && Chain(finding, row.review, chain) && row.previous.None?
    requires forall e <- chain :: e.payload.FindingEvent?
    ensures Replayed(row, chain, j).previous == Tip(chain, j) && Replayed(row, chain, j).review == row.review
  {
    if j > 0 {
      ReplayedTip(finding, row, chain, j - 1);
    }
  }

  /** Content addresses along a chain never repeat: each contains the one before. */
  lemma {:induction false} TipsDiffer(finding: FindingId, review: Id, chain: seq<Event>, j: nat, k: nat)
    requires j < k <= |chain| && Chain(finding, review, chain)
    ensures Tip(chain, j) != Tip(chain, k)
  {
    assert Link(finding, review, chain, k - 1);
    if j > 0 {
      assert Link(finding, review, chain, j - 1);
      TipsDiffer(finding, review, chain, j - 1, k - 1);
    }
  }

  lemma ChainGrows(finding: FindingId, review: Id, chain: seq<Event>, e: Event)
    requires Chain(finding, review, chain) && Link(finding, review, chain + [e], |chain|)
    ensures Chain(finding, review, chain + [e])
  {
    forall k | 0 <= k < |chain| ensures Link(finding, review, chain + [e], k) {
      assert Link(finding, review, chain, k);
    }
  }

  lemma {:induction false} ReplayedPrefix(row: Row, chain: seq<Event>, e: Event, j: nat)
    requires j <= |chain| && forall f <- chain + [e] :: f.payload.FindingEvent?
    ensures (forall f <- chain :: f.payload.FindingEvent?) && Replayed(row, chain + [e], j) == Replayed(row, chain, j)
  {
    assert forall f :: f in chain ==> f in chain + [e];
    if j > 0 {
      ReplayedPrefix(row, chain, e, j - 1);
    }
  }

  // ----- the validator and a finding's chain ------------------------------------------------------------

  ghost predicate DeliveredOnce(chain: seq<Event>) {
    forall i, j :: 0 <= i < j < |chain| && IsDelivery(chain[i]) ==> !IsDelivery(chain[j])
  }

  /** A review that reports the finding and is accepted by itself. */
  ghost predicate Reports(review: Event, finding: FindingId) {
    review.payload.Review? && finding in review.payload.findings && review.sourceKey.Source? && Accepted([review])
  }

  lemma {:induction false} AddedFinding(index: Index, findings: seq<FindingId>, review: Id, finding: FindingId)
    requires AddFindings(index, findings, review).Ok?
    requires (finding in findings || (finding in index.findings && finding in index.tips))
    requires finding !in findings ==> index.findings[finding] == review && index.tips[finding] == None
    ensures var r := AddFindings(index, findings, review).value;
            && finding in r.findings && r.findings[finding] == review && finding in r.tips && r.tips[finding] == None
            && r.sources == index.sources && r.ids == index.ids
    decreases |findings|
  {
    if findings != [] {
      var next := index.(findings := index.findings[findings[0] := review], tips := index.tips[findings[0] := None]);
      if finding == findings[0] && finding in findings[1..] {
        SecondIsRefused(next, findings[1..], review, finding);
      }
      AddedFinding(next, findings[1..], review, finding);
    }
  }

  lemma {:induction false} SecondIsRefused(index: Index, findings: seq<FindingId>, review: Id, finding: FindingId)
    requires finding in index.findings && finding in findings
    ensures AddFindings(index, findings, review).Err?
    decreases |findings|
  {
    if findings[0] != finding && findings[0] !in index.findings {
      SecondIsRefused(index.(findings := index.findings[findings[0] := review],
                             tips := index.tips[findings[0] := None]),
                      findings[1..], review, finding);
    }
  }

  /** What the validator holds after the review and the first n events of a chain with at most one delivery. */
  ghost predicate Tracks(index: Index, review: Event, finding: FindingId, chain: seq<Event>, n: nat)
    requires n <= |chain|
  {
    && finding in index.findings && index.findings[finding] == Sha(review)
    && finding in index.tips && index.tips[finding] == Tip(chain, n)
    && index.sources.Keys == {review.sourceKey} + (set k | 0 <= k < n :: chain[k].sourceKey)
    && index.ids == {Sha(review)} + (set k | 0 <= k < n :: Sha(chain[k]))
  }

  lemma ReviewTracks(review: Event, finding: FindingId, chain: seq<Event>)
    requires Reports(review, finding)
    ensures Tracks(Replay(EMPTY, [review]).value, review, finding, chain, 0)
  {
    assert [review][1..] == [];
    var next := EMPTY.(sources := map[review.sourceKey := Sha(review)], ids := {Sha(review)});
    assert EMPTY.sources[review.sourceKey := Sha(review)] == next.sources && EMPTY.ids + {Sha(review)} == next.ids;
    AddedFinding(next.(reviews := {} + {Sha(review)}), review.payload.findings, Sha(review), finding);
  }

  predicate IsDelivery(e: Event) {
    e.payload.FindingEvent? && e.payload.action == Delivered
  }

  /** The nth event delivers what an earlier one already delivered. */
  ghost predicate Again(chain: seq<Event>, n: nat)
    requires n < |chain|
  {
    IsDelivery(chain[n]) && exists k :: 0 <= k < n && IsDelivery(chain[k])
  }

  /** The next event of a chain is accepted unless it delivers a finding already delivered. */
  lemma NextIsAcceptedIff(index: Index, review: Event, finding: FindingId, chain: seq<Event>, n: nat)
    requires n < |chain| && Chain(finding, Sha(review), chain) && review.sourceKey.Source? && review.payload.Review?
    requires Tracks(index, review, finding, chain, n) && DeliveredOnce(chain[..n])
    requires forall k :: k in index.sources ==> index.sources[k].event.sourceKey == k && index.sources[k] in index.ids
    ensures if Again(chain, n) then Apply(index, chain[n]) == Err(SourceConflict)
            else Apply(index, chain[n]).Ok? && Tracks(Apply(index, chain[n]).value, review, finding, chain, n + 1)
  {
    var e := chain[n];
    assert Link(finding, Sha(review), chain, n);
    forall k | 0 <= k < n ensures chain[k] != e && (chain[k].sourceKey == e.sourceKey <==>
        IsDelivery(e) && IsDelivery(chain[k]))
    {
      assert Link(finding, Sha(review), chain, k);
      TipsDiffer(finding, Sha(review), chain, k, n);
    }
    assert Sha(e) !in index.ids;
    assert (set k | 0 <= k < n + 1 :: chain[k].sourceKey) == (set k | 0 <= k < n :: chain[k].sourceKey) + {e.sourceKey};
    assert (set k | 0 <= k < n + 1 :: Sha(chain[k])) == (set k | 0 <= k < n :: Sha(chain[k])) + {Sha(e)};
    if e.sourceKey in index.sources {
      assert index.sources[e.sourceKey] != Sha(e);
    }
  }

  lemma OncePrefix(chain: seq<Event>, n: nat)
    requires 0 < n <= |chain| && DeliveredOnce(chain[..n])
    ensures DeliveredOnce(chain[..n - 1]) && !Again(chain, n - 1)
  {
    assert forall k :: 0 <= k < n ==> chain[..n][k] == chain[k];
    assert forall k :: 0 <= k < n - 1 ==> chain[..n - 1][k] == chain[k];
  }

  lemma ReplayStep(review: Event, chain: seq<Event>, n: nat)
    requires 0 < n <= |chain| && Accepted([review] + chain[..n - 1])
    ensures Replay(EMPTY, [review] + chain[..n]) == Apply(Replay(EMPTY, [review] + chain[..n - 1]).value, chain[n - 1])
  {
    hide Apply;
    assert [review] + chain[..n] == ([review] + chain[..n - 1]) + [chain[n - 1]];
    ReplayConcat(EMPTY, [review] + chain[..n - 1], [chain[n - 1]]);
    ReplaySingle(Replay(EMPTY, [review] + chain[..n - 1]).value, chain[n - 1]);
  }

  lemma {:induction false} ChainReplays(review: Event, finding: FindingId, chain: seq<Event>, n: nat)
    requires n <= |chain| && Reports(review, finding) && Chain(finding, Sha(review), chain) && DeliveredOnce(chain[..n])
    ensures Accepted([review] + chain[..n])
    ensures Tracks(Replay(EMPTY, [review] + chain[..n]).value, review, finding, chain, n)
  {
    hide Tracks, Chain, Apply, Replay, DeliveredOnce, Again;
    if n == 0 {
      assert [review] + chain[..0] == [review];
      ReviewTracks(review, finding, chain);
    } else {
      OncePrefix(chain, n);
      ChainReplays(review, finding, chain, n - 1);
      ReplayIsConsistent([review] + chain[..n - 1]);
      NextIsAcceptedIff(Replay(EMPTY, [review] + chain[..n - 1]).value, review, finding, chain, n - 1);
      ReplayStep(review, chain, n);
    }
  }

  lemma ReplaySingle(index: Index, e: Event)
    ensures Replay(index, [e]) == Apply(index, e)
  {
    assert [e][1..] == [];
  }

  lemma ReplayIsConsistent(events: seq<Event>)
    requires Accepted(events)
    ensures var r := Replay(EMPTY, events).value;
            forall k :: k in r.sources ==> r.sources[k] in r.ids && (r.sources[k].event.sourceKey == k)
  {
    SourcesKeyed(EMPTY, events);
    ReplayKeeps(EMPTY, events);
    var r := Replay(EMPTY, events).value;
    forall k | k in r.sources ensures r.sources[k] in r.ids {
      assert r.sources[k] in r.sources.Values;
    }
  }

  lemma {:induction false} SourcesKeyed(index: Index, events: seq<Event>)
    requires Replay(index, events).Ok? && forall k :: k in index.sources ==> index.sources[k].event.sourceKey == k
    ensures var r := Replay(index, events).value; forall k :: k in r.sources ==> r.sources[k].event.sourceKey == k
    decreases |events|
  {
    if events != [] {
      ApplySources(index, events[0]);
      SourcesKeyed(Apply(index, events[0]).value, events[1..]);
    }
  }

  lemma ApplySources(index: Index, e: Event)
    requires Apply(index, e).Ok?
    ensures var r := Apply(index, e).value;
            r.sources == index.sources || r.sources == index.sources[e.sourceKey := Sha(e)]
  {
    if e.payload.Review? && Sha(e) !in index.ids {
      var next := index.(sources := index.sources[e.sourceKey := Sha(e)], ids := index.ids + {Sha(e)});
      AddKeepsSources(next.(reviews := next.reviews + {Sha(e)}), e.payload.findings, Sha(e));
    }
  }

  lemma {:induction false} AddKeepsSources(index: Index, findings: seq<FindingId>, review: Id)
    requires AddFindings(index, findings, review).Ok?
    ensures AddFindings(index, findings, review).value.sources == index.sources
    decreases |findings|
  {
    if findings != [] {
      AddKeepsSources(index.(findings := index.findings[findings[0] := review],
                             tips := index.tips[findings[0] := None]),
                      findings[1..], review);
    }
  }

  lemma {:induction false} RefusalSticks(index: Index, a: seq<Event>, b: seq<Event>)
    requires Replay(index, a).Err?
    ensures Replay(index, a + b).Err?
  {
    ReplayConcat(index, a, b);
  }

  /** The ledger accepts a finding's chain exactly when the finding was delivered at most once. */
  lemma ChainAcceptedIff(review: Event, finding: FindingId, chain: seq<Event>)
    requires Reports(review, finding) && Chain(finding, Sha(review), chain)
    ensures Accepted([review] + chain) <==> DeliveredOnce(chain)
  {
    hide Tracks, Chain, Apply, Replay, DeliveredOnce, Again;
    assert chain[..|chain|] == chain;
    if DeliveredOnce(chain) {
      ChainReplays(review, finding, chain, |chain|);
    } else {
      var n := FirstRedelivery(chain, |chain|);
      ChainReplays(review, finding, chain, n);
      var index := Replay(EMPTY, [review] + chain[..n]).value;
      ReplayIsConsistent([review] + chain[..n]);
      NextIsAcceptedIff(index, review, finding, chain, n);
      assert chain[..n + 1][..n] == chain[..n];
      ReplayStep(review, chain, n + 1);
      RefusalSticks(EMPTY, [review] + chain[..n + 1], chain[n + 1..]);
      assert [review] + chain == [review] + chain[..n + 1] + chain[n + 1..];
    }
  }

  lemma {:induction false} FirstRedelivery(chain: seq<Event>, m: nat) returns (n: nat)
    requires m <= |chain| && !DeliveredOnce(chain[..m])
    ensures n < m && DeliveredOnce(chain[..n]) && Again(chain, n)
  {
    assert m > 0;
    if DeliveredOnce(chain[..m - 1]) {
      n := m - 1;
      assert forall k :: 0 <= k < m - 1 ==> chain[..m][k] == chain[k] && chain[..m - 1][k] == chain[k];
    } else {
      n := FirstRedelivery(chain, m - 1);
    }
  }

  function MakeEvent(finding: FindingId, review: Id, previous: Option<Id>, action: Action, evidence: Evidence,
                     actor: string,
                     at: string, size: nat): Event {
    Event(KeyFor(finding, previous, action, evidence), at,
          FindingEvent(finding, review, previous, action, evidence, actor), true, size)
  }

  lemma NextLink(finding: FindingId, review: Id, chain: seq<Event>, action: Action, evidence: Evidence, actor: string,
                 at: string, size: nat)
    requires chain == [] || Chain(finding, review, chain)
    ensures Chain(finding, review,
                  chain + [MakeEvent(finding, review, Tip(chain, |chain|), action, evidence, actor, at, size)])
  {
    var e := MakeEvent(finding, review, Tip(chain, |chain|), action, evidence, actor, at, size);
    assert (chain + [e])[|chain|] == e;
    ChainGrows(finding, review, chain, e);
  }

  /** A finding confirmed, delivered, confirmed again and delivered again: a proper chain the ledger refuses. */
  lemma RedeliveryIsRefused(review: Event, finding: FindingId, anchor: Evidence, receipt: Evidence, actor: string,
                            at: string, size: nat)
    requires Reports(review, finding)
    ensures var id := Sha(review);
            var a := MakeEvent(finding, id, None, Confirmed, anchor, actor, at, size);
            var b := MakeEvent(finding, id, Some(Sha(a)), Delivered, receipt, actor, at, size);
            var c := MakeEvent(finding, id, Some(Sha(b)), Confirmed, anchor, actor, at, size);
            var d := MakeEvent(finding, id, Some(Sha(c)), Delivered, receipt, actor, at, size);
            Chain(finding, id, [a, b, c, d]) && Accepted([review] + [a, b, c]) && !Accepted([review] + [a, b, c, d])
  {
    var id := Sha(review);
    var a := MakeEvent(finding, id, None, Confirmed, anchor, actor, at, size);
    var b := MakeEvent(finding, id, Some(Sha(a)), Delivered, receipt, actor, at, size);
    var c := MakeEvent(finding, id, Some(Sha(b)), Confirmed, anchor, actor, at, size);
    var d := MakeEvent(finding, id, Some(Sha(c)), Delivered, receipt, actor, at, size);
    var chain := [a, b, c, d];
    hide Chain, Link, Accepted;
    NextLink(finding, id, [], Confirmed, anchor, actor, at, size);
    assert [] + [a] == [a];
    NextLink(finding, id, [a], Delivered, receipt, actor, at, size);
    assert [a] + [b] == [a, b];
    NextLink(finding, id, [a, b], Confirmed, anchor, actor, at, size);
    assert [a, b] + [c] == [a, b, c];
    NextLink(finding, id, [a, b, c], Delivered, receipt, actor, at, size);
    assert [a, b, c] + [d] == chain;
    assert IsDelivery(chain[1]) && IsDelivery(chain[3]);
    ChainAcceptedIff(review, finding, [a, b, c]);
    ChainAcceptedIff(review, finding, chain);
  }

  // ----- replaying a set of events ----------------------------------------------------------------------

  /** A finding's events: a chain of its own, starting from an untouched row. */
  ghost predicate Home(f: FindingId, origin: Row, chain: seq<Event>) {
    Chain(f, origin.review, chain) && origin.previous.None? && origin.status.None? && AllOf(f, chain)
  }

  ghost predicate AllOf(f: FindingId, chain: seq<Event>) {
    forall e <- chain :: e.payload.FindingEvent? && e.payload.finding == f
  }

  ghost predicate RowAt(row: Row, origin: Row, chain: seq<Event>, j: nat) {
    j <= |chain| && (forall e <- chain :: e.payload.FindingEvent?) && row == Replayed(origin, chain, j)
  }

  ghost predicate Somewhere(row: Row, origin: Row, chain: seq<Event>) {
    exists j: nat :: RowAt(row, origin, chain, j)
  }

  /** What replaying one event does to the rows. */
  function Try(rows: map<FindingId, Row>, e: Event): (r: (map<FindingId, Row>, bool))
    requires e.payload.FindingEvent?
  {
    var f := e.payload.finding;
    if f !in rows then (rows, false)
    else if rows[f].previous == Some(Sha(e)) then (rows, true)
    else if rows[f].previous != e.payload.previous then (rows, false)
    else (rows[f := Recovered(rows[f], e)], true)
  }

  /** A row stands somewhere on its chain and everything beyond is still to be replayed. */
  ghost predicate Ahead(row: Row, origin: Row, chain: seq<Event>, left: seq<Event>) {
    exists j: nat :: RowAt(row, origin, chain, j) && Beyond(chain, j, left)
  }

  ghost predicate Beyond(chain: seq<Event>, j: nat, left: seq<Event>) {
    forall k :: j <= k < |chain| ==> chain[k] in left
  }

  lemma OwnTry(f: FindingId, row: Row, origin: Row, chain: seq<Event>, left: seq<Event>, e: Event)
    requires Home(f, origin, chain) && Ahead(row, origin, chain, left) && e in chain && e.payload.FindingEvent?
    requires row.previous == Some(Sha(e)) || row.previous == e.payload.previous
    ensures Ahead(if row.previous == Some(Sha(e)) then row else Recovered(row, e), origin, chain, Without(left, e))
  {
    var j: nat :| RowAt(row, origin, chain, j) && Beyond(chain, j, left);
    var k :| 0 <= k < |chain| && chain[k] == e;
    hide Chain, Recovered, RowAt, Home;
    var next := OwnStep(f, row, origin, chain, j, k);
    forall m | next <= m < |chain| ensures chain[m] in Without(left, e) {
      LinksDiffer(f, origin.review, chain, k, m);
    }
    assert Beyond(chain, next, Without(left, e));
  }

  /** Where the row stands once the event has been tried on it. */
  lemma OwnStep(f: FindingId, row: Row, origin: Row, chain: seq<Event>, j: nat, k: nat) returns (next: nat)
    requires Home(f, origin, chain) && RowAt(row, origin, chain, j) && k < |chain| && chain[k].payload.FindingEvent?
    requires row.previous == Some(Sha(chain[k])) || row.previous == chain[k].payload.previous
    ensures next >= j && next > k && Chain(f, origin.review, chain)
    ensures RowAt(if row.previous == Some(Sha(chain[k])) then row else Recovered(row, chain[k]), origin, chain, next)
  {
    hide Chain, Recovered;
    ReplayedTip(f, origin, chain, j);
    WhichLink(f, origin.review, chain, j, k);
    next := if row.previous == Some(Sha(chain[k])) then j else j + 1;
  }

  lemma OtherTry(f: FindingId, row: Row, origin: Row, chain: seq<Event>, left: seq<Event>, e: Event)
    requires AllOf(f, chain) && Ahead(row, origin, chain, left)
    requires e.payload.FindingEvent? && e.payload.finding != f
    ensures Ahead(row, origin, chain, Without(left, e))
  {
    var j: nat :| RowAt(row, origin, chain, j) && Beyond(chain, j, left);
    assert Beyond(chain, j, Without(left, e));
  }

  /** An event that follows a row at j, or is the one it stands on, is the link its place says. */
  lemma WhichLink(f: FindingId, review: Id, chain: seq<Event>, j: nat, k: nat)
    requires Chain(f, review, chain) && j <= |chain| && k < |chain|
    ensures Tip(chain, j) == Some(Sha(chain[k])) ==> k < j
    ensures chain[k].payload.FindingEvent? && (Tip(chain, j) == chain[k].payload.previous ==> k == j)
  {
    assert Link(f, review, chain, k);
    assert Tip(chain, k + 1) == Some(Sha(chain[k]));
    if j < k + 1 {
      TipsDiffer(f, review, chain, j, k + 1);
    }
    if j < k {
      TipsDiffer(f, review, chain, j, k);
    } else if k < j {
      TipsDiffer(f, review, chain, k, j);
    }
  }

  lemma LinksDiffer(f: FindingId, review: Id, chain: seq<Event>, k: nat, m: nat)
    requires Chain(f, review, chain) && k < m < |chain|
    ensures chain[k] != chain[m]
  {
    assert Link(f, review, chain, k) && Link(f, review, chain, m);
    TipsDiffer(f, review, chain, k, m);
  }

  lemma NextIsReplayable(f: FindingId, row: Row, origin: Row, chain: seq<Event>, j: nat)
    requires Home(f, origin, chain) && RowAt(row, origin, chain, j) && j < |chain|
    ensures chain[j].payload.FindingEvent? && chain[j].payload.finding == f && row.previous == chain[j].payload.previous
  {
    ReplayedTip(f, origin, chain, j);
    assert Link(f, origin.review, chain, j);
  }

  /** When no event left can be replayed, the row has its whole chain behind it. */
  lemma StuckIsSettled(f: FindingId, row: Row, origin: Row, chain: seq<Event>, left: seq<Event>)
    requires Home(f, origin, chain) && Ahead(row, origin, chain, left)
    requires forall e <- left ::
             e.payload.FindingEvent? && (e.payload.finding == f ==> row.previous != e.payload.previous)
    ensures RowAt(row, origin, chain, |chain|)
  {
    var j: nat :| RowAt(row, origin, chain, j) && Beyond(chain, j, left);
    hide Home, RowAt;
    if j < |chain| {
      NextIsReplayable(f, row, origin, chain, j);
    }
    RowWithin(row, origin, chain, j);
  }

  lemma RowWithin(row: Row, origin: Row, chain: seq<Event>, j: nat)
    requires RowAt(row, origin, chain, j)
    ensures j <= |chain|
  {
  }

  ghost predicate Founded(chains: map<FindingId, seq<Event>>, origins: map<FindingId, Row>, retained: set<Event>) {
    && chains.Keys == origins.Keys
    && (forall f <- chains :: Home(f, origins[f], chains[f]))
    && (forall f <- chains :: forall e <- chains[f] :: e in retained)
    && (forall e <- retained :: e.payload.FindingEvent? ==>
        e.payload.finding in chains && e in chains[e.payload.finding])
  }

  ghost predicate Placed(rows: map<FindingId, Row>, chains: map<FindingId, seq<Event>>, origins: map<FindingId, Row>) {
    && rows.Keys <= chains.Keys == origins.Keys
    && forall f <- rows :: Somewhere(rows[f], origins[f], chains[f])
  }

  ghost predicate AllAhead(rows: map<FindingId, Row>, chains: map<FindingId, seq<Event>>, origins: map<FindingId, Row>,
                           left: seq<Event>) {
    && rows.Keys <= chains.Keys == origins.Keys
    && forall f <- rows :: Ahead(rows[f], origins[f], chains[f], left)
  }

  ghost predicate AllSettled(rows: map<FindingId, Row>, chains: map<FindingId, seq<Event>>, origins: map<FindingId,
                             Row>) {
    && rows.Keys <= chains.Keys == origins.Keys
    && forall f <- rows :: RowAt(rows[f], origins[f], chains[f], |chains[f]|)
  }

  lemma StartAhead(rows: map<FindingId, Row>, chains: map<FindingId, seq<Event>>, origins: map<FindingId, Row>,
                   retained: set<Event>, left: seq<Event>)
    requires Founded(chains, origins, retained) && Placed(rows, chains, origins)
    requires forall e :: e in left <==> e in retained && e.payload.FindingEvent?
    ensures AllAhead(rows, chains, origins, left)
  {
    forall f | f in rows ensures Ahead(rows[f], origins[f], chains[f], left) {
      assert Somewhere(rows[f], origins[f], chains[f]);
      var j: nat :| RowAt(rows[f], origins[f], chains[f], j);
      assert AllOf(f, chains[f]) by {
        assert Home(f, origins[f], chains[f]);
      }
      assert Beyond(chains[f], j, left) by {
        forall k | j <= k < |chains[f]| ensures chains[f][k] in left {
          assert chains[f][k] in chains[f];
        }
      }
    }
  }

  lemma TryKeepsAhead(rows: map<FindingId, Row>, chains: map<FindingId, seq<Event>>, origins: map<FindingId, Row>,
                      retained: set<Event>, left: seq<Event>, e: Event)
    requires Founded(chains, origins, retained) && AllAhead(rows, chains, origins, left)
    requires e in retained && e.payload.FindingEvent? && Try(rows, e).1
    ensures AllAhead(Try(rows, e).0, chains, origins, Without(left, e)) && Try(rows, e).0.Keys == rows.Keys
  {
    hide Ahead, Recovered;
    var after := Try(rows, e).0;
    forall f | f in rows ensures Ahead(after[f], origins[f], chains[f], Without(left, e)) {
      assert Home(f, origins[f], chains[f]);
      if f == e.payload.finding {
        OwnTry(f, rows[f], origins[f], chains[f], left, e);
      } else {
        OtherTry(f, rows[f], origins[f], chains[f], left, e);
      }
    }
  }

  lemma StuckSettles(rows: map<FindingId, Row>, chains: map<FindingId, seq<Event>>, origins: map<FindingId, Row>,
                     retained: set<Event>, left: seq<Event>)
    requires Founded(chains, origins, retained) && AllAhead(rows, chains, origins, left)
    requires forall e <- left :: e.payload.FindingEvent? && !Try(rows, e).1
    ensures AllSettled(rows, chains, origins) && Placed(rows, chains, origins)
  {
    hide Ahead, RowAt;
    forall f | f in rows ensures RowAt(rows[f], origins[f], chains[f], |chains[f]|) {
      assert Home(f, origins[f], chains[f]);
      StuckIsSettled(f, rows[f], origins[f], chains[f], left);
    }
  }

  // ----- the inbox --------------------------------------------------------------------------------------

  /** The finding's lines all arrive at the promoted commit. */
  predicate Anchored(path: Option<string>, lines: set<int>, whole: bool) {
    path.Some? && lines != {} && whole
  }

  class Inbox {
    var rows: map<FindingId, Row>
    var retained: set<Event>
    var requests: map<FindingId, Request>
    var receipts: map<FindingId, Evidence>
    ghost var chains: map<FindingId, seq<Event>>
    ghost var origins: map<FindingId, Row>
    ghost var calls: seq<Call>

    constructor ()
      ensures Sound() && rows == map[] && retained == {} && chains == map[] && requests == map[] && receipts == map[]
    {
      rows, retained, requests, receipts, chains, origins, calls := map[], {}, map[], map[], map[], map[], [];
    }

    /** The retained events are one chain per finding; a row is its chain replayed up to somewhere. */
    ghost predicate Sound()
      reads this
    {
      && Founded(chains, origins, retained) && Placed(rows, chains, origins)
      && (forall c <- calls :: c.canonical in requests && requests[c.canonical] == c.request)
    }

    /** Every row has its whole chain replayed. */
    ghost predicate Settled()
      reads this
    {
      AllSettled(rows, chains, origins)
    }

    method RecoverEvent(value: Event) returns (applied: bool)
      requires value.payload.FindingEvent?
      modifies `rows
      ensures (rows, applied) == Try(old(rows), value) && (!applied ==> rows == old(rows))
    {
      var p := value.payload;
      if p.finding !in rows {
        return false;
      }
      var row := rows[p.finding];
      if row.previous == Some(Sha(value)) {
        return true;
      }
      if row.previous != p.previous {
        return false;
      }
      var updated := row.(status := Some(p.action), previous := Some(Sha(value)));
      if p.action == Delivered {
        updated := updated.(receipt := Some(p.evidence));
      } else if p.evidence.Anchor? {
        updated := updated.(target := p.evidence.target, mappedPath := p.evidence.mappedPath,
                            mappedLines := p.evidence.mappedLines);
        if p.action == Duplicate && p.evidence.canonical.Some? {
          updated := updated.(canonical := p.evidence.canonical.value);
        }
      }
      rows := rows[p.finding := updated];
      applied := true;
    }

    /** Replay the retained events, in whatever order their files are listed, until nothing more applies. */
    method Recover(events: seq<Event>)
      requires Sound() && forall e :: e in events <==> e in retained
      modifies `rows
      ensures Sound() && Settled() && rows.Keys == old(rows.Keys)
    {
      hide Founded, Placed, AllAhead, AllSettled, Try;
      var remaining := FindingEvents(events);
      StartAhead(rows, chains, origins, retained, remaining);
      while remaining != []
        invariant AllAhead(rows, chains, origins, remaining) && rows.Keys == old(rows.Keys)
        invariant forall e <- remaining :: e in retained && e.payload.FindingEvent?
        decreases |remaining|
      {
        var pass, advanced := remaining, false;
        ghost var entry := rows;
        for i := 0 to |pass|
          invariant AllAhead(rows, chains, origins, remaining) && rows.Keys == old(rows.Keys)
          invariant forall e <- remaining :: e in retained && e.payload.FindingEvent?
          invariant if advanced then |remaining| < |pass| else remaining == pass && rows == entry
          invariant !advanced ==> forall k :: 0 <= k < i ==> !Try(entry, pass[k]).1
        {
          ghost var before := rows;
          var value := pass[i];
          var applied := RecoverEvent(value);
          if applied {
            TryKeepsAhead(before, chains, origins, retained, remaining, value);
            remaining, advanced := Without(remaining, value), true;
          }
        }
        if !advanced {
          break;
        }
      }
      StuckSettles(rows, chains, origins, retained, remaining);
    }

    /**
     A row for every finding of a review; one already there must be of the same review and content. The events retained
     for a row that was lost are not looked at: the chains stay in order exactly if every row that enters where some are
     retained is the one they began from.
     */
    method Ingest(review: Event, target: string, contents: seq<string>, dies: nat) returns (r: Result<(), Refusal>)
      requires Sound() && review.payload.Review? && |contents| == |review.payload.findings|
      modifies `rows, `chains, `origins
      ensures Sound() <==> EntriesFit(old(rows), rows, old(chains), old(origins))
      ensures forall f <- old(rows) :: f in rows && rows[f] == old(rows)[f]
      ensures forall f <- rows :: f in old(rows) || Entered(review, target, contents, f, rows[f])
      ensures r.Ok? ==> forall i :: 0 <= i < |contents| ==> Holds(rows, review, contents, i)
      ensures r.Err? ==> exists i :: 0 <= i < |contents| && StopsAt(rows, review, contents, i, dies, r.error)
      ensures forall f <- old(chains) :: f in chains && chains[f] == old(chains)[f]
    {
      hide Founded, Placed, Ingesting, EntriesFit, Holds, Clashes, Entered;
      var findings := review.payload.findings;
      ghost var start := Local(rows, chains, origins);
      IngestStarts(start, retained, review, target, contents);
      for i := 0 to |findings|
        invariant Ingesting(start, Local(rows, chains, origins), retained, review, target, contents, i)
        invariant forall c <- calls :: c.canonical in requests && requests[c.canonical] == c.request
      {
        var f, row := findings[i], Fresh(Sha(review), target, findings[i], contents[i]);
        if f in rows {
          if rows[f].review != Sha(review) || rows[f].content != contents[i] {
            ItClashes(rows, review, contents, i);
            IngestEnds(start, Local(rows, chains, origins), retained, review, target, contents, i);
            ItStops(rows, review, contents, i, dies, OccurrenceConflict);
            return Err(OccurrenceConflict);
          }
          ItClashes(rows, review, contents, i);
          IngestSkips(start, Local(rows, chains, origins), retained, review, target, contents, i);
        } else {
          if i == dies {
            IngestEnds(start, Local(rows, chains, origins), retained, review, target, contents, i);
            ItStops(rows, review, contents, i, dies, Died);
            return Err(Died);
          }
          IngestEnters(start, Local(rows, chains, origins), retained, review, target, contents, i);
          origins, chains := OriginsWith(chains, origins, f, row), ChainsWith(chains, f);
          rows := rows[f := row];
        }
      }
      IngestEnds(start, Local(rows, chains, origins), retained, review, target, contents, |findings|);
      r := Ok(());
    }

    /** A local row lost with its file; the retained events stay. */
    method LoseRow(f: FindingId)
      requires Sound()
      modifies `rows
      ensures Sound() && rows == old(rows) - {f}
    {
      rows := rows - {f};
    }

    /** Spool the event, then write the row: what recovery would make of the event is what is written here. */
    method Commit(f: FindingId, value: Event, written: Row, dies: Death) returns (died: bool)
      requires Sound() && Settled() && f in rows && value.payload.FindingEvent? && written == Recovered(rows[f], value)
      requires value == MakeEvent(f, rows[f].review, rows[f].previous, value.payload.action, value.payload.evidence,
                                  value.payload.actor, value.occurredAt, value.size)
      modifies `rows, `retained, `chains
      ensures Sound() && rows.Keys == old(rows.Keys) && f in old(chains)
      ensures !died ==>
                Settled() && rows == old(rows)[f := written] && chains == old(chains)[f := old(chains)[f] + [value]]
      ensures died <==> dies == BeforeEvent || dies == BeforeRow
      ensures dies == BeforeEvent ==> retained == old(retained)
      ensures died ==> rows == old(rows) && chains == if dies == BeforeEvent then old(chains)
                                                      else old(chains)[f := old(chains)[f] + [value]]
    {
      hide Founded, Placed, AllSettled, Recovered, MakeEvent, KeyFor;
      InChains(rows, chains, origins, f);
      SpoolIsSound(rows, chains, origins, retained, f, value);
      if dies == BeforeEvent {
        return true;
      }
      retained, chains := retained + {value}, chains[f := chains[f] + [value]];
      if dies == BeforeRow {
        return true;
      }
      rows := rows[f := written];
      died := false;
    }

    /** One decision on a finding. */
    method Triage(events: seq<Event>, f: FindingId, d: Decision, dies: Death) returns (r: Result<Event, Refusal>)
      requires Sound() && forall e :: e in events <==> e in retained
      modifies `rows, `retained, `chains
      ensures Sound() && rows.Keys == old(rows.Keys)
      ensures var objection := Objection(old(rows.Keys), f, d);
              if objection.Some? then r == Err(objection.value)
              else r.Err? <==> dies == BeforeEvent || dies == BeforeRow
      ensures r.Err? && dies != BeforeRow ==> chains == old(chains) && retained == old(retained)
      ensures if Objection(old(rows.Keys), f, d).None? && dies != BeforeEvent then
                f in origins && f in old(chains) && Triages(origins[f], f, d, old(chains), chains, rows, r)
              else chains == old(chains)
      ensures r.Ok? ==> Settled()
      ensures r.Err? && Objection(old(rows.Keys), f, d).None? ==> r.error == Died
    {
      hide Founded, Placed, AllSettled, Replayed, Chain, MakeEvent, Recovered, KeyFor, RowAt, Decided, Triages;
      Recover(events);
      if f !in rows {
        return Err(Unknown);
      }
      var row := rows[f];
      var verified := Anchored(d.path, d.lines, d.whole);
      if d.actor == "" || d.reason == "" {
        return Err(MissingReason);
      }
      var action := if d.wanted == Confirmed && !verified then NeedsHuman else d.wanted;
      var fixed := action == Fixed || action == AlreadyFixed;
      if fixed && d.fixing.None? {
        return Err(MissingFix);
      }
      if action == Duplicate
         && (d.duplicateOf.None? || d.duplicateOf.value == f || d.duplicateOf.value !in rows) {
        return Err(BadDuplicate);
      }
      if action == Delivered || !d.valid {
        return Err(Invalid);
      }
      r := Decide(f, row, d, action, dies);
    }

    /** Spool the event of a decision that stands, then write the row. */
    method Decide(f: FindingId, row: Row, d: Decision, action: Action, dies: Death) returns (r: Result<Event, Refusal>)
      requires Sound() && Settled() && f in rows && row == rows[f] && Objection(rows.Keys, f, d).None?
      requires action == if d.wanted == Confirmed && !Anchored(d.path, d.lines, d.whole) then NeedsHuman else d.wanted
      modifies `rows, `retained, `chains
      ensures Sound() && rows.Keys == old(rows.Keys)
      ensures r.Err? <==> dies == BeforeEvent || dies == BeforeRow
      ensures dies == BeforeEvent ==> chains == old(chains) && retained == old(retained)
      ensures dies != BeforeEvent ==>
                f in origins && f in old(chains) && Triages(origins[f], f, d, old(chains), chains, rows, r)
      ensures if r.Ok? then Settled() else r.error == Died
    {
      hide Founded, Placed, AllSettled, Replayed, Chain, MakeEvent, Recovered, KeyFor, RowAt, Decided, Triages;
      var fixed := action == Fixed || action == AlreadyFixed;
      var evidence := Anchor(d.promoted, d.reason, Anchored(d.path, d.lines, d.whole), d.path, d.lines,
                             if fixed then d.fixing else None, if action == Duplicate then d.duplicateOf else None);
      var value := MakeEvent(f, row.review, row.previous, action, evidence, d.actor, d.at, d.size);
      DecisionIsRecovered(row, f, action, evidence, d.actor, d.at, d.size);
      var written := row.(status := Some(action), previous := Some(Sha(value)), target := d.promoted,
                          mappedPath := d.path, mappedLines := d.lines,
                          canonical := if action == Duplicate then d.duplicateOf.value else row.canonical);
      SettledRow(rows, chains, origins, f);
      ItIsDecided(row, f, value, d, action, evidence);
      ghost var before := chains;
      var died := Commit(f, value, written, dies);
      r := if died then Err(Died) else Ok(value);
      if dies != BeforeEvent {
        ItTriages(origins[f], row, value, f, d, before, chains, rows, r);
      }
    }

    /** The request is saved before the transport is asked; a saved receipt is used instead of asking again. */
    method Ask(f: FindingId, row: Row, reply: Evidence, dies: Death) returns (r: Result<Evidence, Refusal>)
      requires Sound()
      modifies `requests, `calls
      ensures Sound()
      ensures r.Ok? ==> r.value.Receipt? && r.value.acknowledgement != "" && r.value.repairTask != ""
      ensures old(calls) <= calls && |calls| <= |old(calls)| + 1 && (row.canonical in receipts ==> calls == old(calls))
      ensures forall c <- old(requests) :: c in requests && requests[c] == old(requests)[c]
      ensures Asks(row, f, reply, dies, old(requests), receipts, requests, r)
      ensures calls == if r == Err(RequestChanged) || r == Err(Died) || row.canonical in receipts then old(calls)
                       else old(calls) + [Call(row.canonical, requests[row.canonical])]
      ensures r != Err(RequestChanged) && r != Err(Died) ==> row.canonical in requests
    {
      hide Founded, Placed;
      var request := Request(row.canonical, f, row.review, row.target, row.mappedPath, row.mappedLines, row.content);
      if row.canonical in requests {
        if requests[row.canonical] != request {
          return Err(RequestChanged);
        }
      } else {
        if dies == BeforeRequest {
          return Err(Died);
        }
        requests := requests[row.canonical := request];
      }
      var receipt := reply;
      if row.canonical in receipts {
        receipt := receipts[row.canonical];
      } else {
        calls := calls + [Call(row.canonical, request)];
      }
      if !receipt.Receipt? || receipt.acknowledgement == "" || receipt.repairTask == "" {
        return Err(Unacknowledged);
      }
      r := Ok(receipt);
    }

    /** Hand a confirmed finding to the repair transport, once per canonical finding and always the same request. */
    method Deliver(events: seq<Event>, f: FindingId, reply: Evidence, at: string, size: nat, dies: Death)
        returns (r: Result<Evidence, Refusal>)
      requires Sound() && forall e :: e in events <==> e in retained
      modifies this
      ensures Sound() && rows.Keys == old(rows.Keys) && origins == old(origins)
      ensures f !in old(rows) ==>
                r == Err(Unknown)
                && Desk(requests, receipts, calls, chains) == old(Desk(requests, receipts, calls, chains))
      ensures f in old(rows) ==>
                && f in origins && f in old(chains)
                && Delivers(origins[f], f, reply, at, size, dies, old(Desk(requests, receipts, calls, chains)),
                            Desk(requests, receipts, calls, chains), r)
      ensures r.Ok? ==> Settled() && f in rows && rows[f].status == Some(Delivered) && rows[f].receipt == Some(r.value)
      ensures r.Err? && r.error != Died ==> retained == old(retained)
      ensures old(calls) <= calls && |calls| <= |old(calls)| + 1
      ensures forall c <- old(requests) :: c in requests && requests[c] == old(requests)[c]
    {
      hide Founded, Placed, AllSettled, Replayed, Chain, MakeEvent, Recovered, KeyFor, RowAt, Asks, Delivers;
      ghost var before := Desk(requests, receipts, calls, chains);
      Recover(events);
      if f !in rows {
        return Err(Unknown);
      }
      var row := rows[f];
      InChains(rows, chains, origins, f);
      SettledRow(rows, chains, origins, f);
      if row.status == Some(Delivered) {
        DeliveredHasReceipt(rows, chains, origins, retained, f);
        NothingToDeliver(origins[f], row, f, reply, at, size, dies, before, Ok(row.receipt.value));
        return Ok(row.receipt.value);
      }
      if row.status != Some(Confirmed) {
        NothingToDeliver(origins[f], row, f, reply, at, size, dies, before, Err(NotConfirmed));
        return Err(NotConfirmed);
      }
      ghost var acknowledged;
      r, acknowledged := HandOver(f, row, reply, at, size, dies);
      ItDelivers(origins[f], row, f, reply, at, size, dies, before, Desk(requests, receipts, calls, chains),
                 acknowledged, r);
    }

    /** Ask the transport, save its receipt, then spool the delivery and write the row. */
    method HandOver(f: FindingId, row: Row, reply: Evidence, at: string, size: nat, dies: Death)
        returns (r: Result<Evidence, Refusal>, ghost asked: Result<Evidence, Refusal>)
      requires Sound() && Settled() && f in rows && f in chains && row == rows[f]
      modifies this
      ensures Sound() && rows.Keys == old(rows.Keys) && origins == old(origins)
      ensures HandsOver(row, f, reply, at, size, dies, old(Desk(requests, receipts, calls, chains)),
                        Desk(requests, receipts, calls, chains), asked, r)
      ensures r.Ok? ==> Settled() && f in rows && rows[f].status == Some(Delivered) && rows[f].receipt == Some(r.value)
      ensures r.Err? && r.error != Died ==> retained == old(retained)
      ensures old(calls) <= calls && |calls| <= |old(calls)| + 1
      ensures forall c <- old(requests) :: c in requests && requests[c] == old(requests)[c]
    {
      hide Founded, Placed, AllSettled, Replayed, Chain, MakeEvent, Recovered, KeyFor, RowAt, Asks;
      r := Ask(f, row, reply, dies);
      asked := r;
      if r.Err? {
        return;
      }
      var receipt := r.value;
      if dies == BeforeReceipt {
        r := Err(Died);
        return;
      }
      receipts := receipts[row.canonical := receipt];
      var died := RecordDelivery(f, row, receipt, at, size, dies);
      r := if died then Err(Died) else Ok(receipt);
    }

    method RecordDelivery(f: FindingId, row: Row, receipt: Evidence, at: string, size: nat, dies: Death)
        returns (died: bool)
      requires Sound() && Settled() && f in rows && f in chains && row == rows[f]
      modifies `rows, `retained, `chains
      ensures Sound() && rows.Keys == old(rows.Keys)
      ensures chains == if dies == BeforeEvent then old(chains)
                        else old(chains)[f := old(chains)[f] + [DeliveryEvent(row, f, receipt, at, size)]]
      ensures died <==> dies == BeforeEvent || dies == BeforeRow
      ensures !died ==> Settled() && f in rows && rows[f].status == Some(Delivered) && rows[f].receipt == Some(receipt)
    {
      hide Founded, Placed, AllSettled, Replayed, Chain, MakeEvent, Recovered, KeyFor, RowAt;
      var value := MakeEvent(f, row.review, row.previous, Delivered, receipt, "crq-repair-adapter", at, size);
      DeliveryIsRecovered(row, f, receipt, "crq-repair-adapter", at, size);
      MakeIs(f, row.review, row.previous, Delivered, receipt, "crq-repair-adapter", at, size);
      died := Commit(f, value,
                     row.(status := Some(Delivered), previous := Some(Sha(value)), receipt := Some(receipt)), dies);
    }
  }

  // ----- what triage and delivery do --------------------------------------------------------------------

  /** Why a decision is refused before anything is written. */
  function Objection(known: set<FindingId>, f: FindingId, d: Decision): Option<Refusal> {
    if f !in known then Some(Unknown)
    else if d.actor == "" || d.reason == "" then Some(MissingReason)
    else if (d.wanted == Fixed || d.wanted == AlreadyFixed) && d.fixing == None then Some(MissingFix)
    else if d.wanted == Duplicate && (d.duplicateOf == None || d.duplicateOf.value == f ||
                                      d.duplicateOf.value !in known) then Some(BadDuplicate)
    else if d.wanted == Delivered || !d.valid then Some(Invalid)
    else None
  }

  /** The event a decision on this row spools. */
  ghost predicate Decided(row: Row, f: FindingId, e: Event, d: Decision) {
    var verified := d.path.Some? && d.lines != {} && d.whole;
    && e.payload.FindingEvent? && e.payload.finding == f && e.payload.review == row.review
    && e.payload.previous == row.previous && e.payload.actor == d.actor
    && e.payload.action == (if d.wanted == Confirmed && !verified then NeedsHuman else d.wanted)
    && e.payload.evidence == Anchor(d.promoted, d.reason, verified, d.path, d.lines,
                                    if d.wanted == Fixed || d.wanted == AlreadyFixed then d.fixing else None,
                                    if d.wanted == Duplicate then d.duplicateOf else None)
    && e.sourceKey == TriageKey(f, row.previous, e.payload.action, e.payload.evidence)
    && e.occurredAt == d.at && e.size == d.size && e.wellFormed && (d.wanted == Duplicate ==> d.duplicateOf.Some?)
  }

  /** The settled row, the event spooled on it, and the row written from both. */
  ghost predicate Triages(origin: Row, f: FindingId, d: Decision, before: map<FindingId, seq<Event>>,
                          after: map<FindingId, seq<Event>>, rows: map<FindingId, Row>, r: Result<Event, Refusal>)
    requires f in before
  {
    exists row, e ::
      && RowAt(row, origin, before[f], |before[f]|) && Decided(row, f, e, d)
      && after == before[f := before[f] + [e]]
      && (r.Ok? ==>
            && r.value == e && f in rows
            && rows[f] == row.(status := Some(e.payload.action), previous := Some(Sha(e)), target := d.promoted,
                               mappedPath := d.path, mappedLines := d.lines,
                               canonical := if d.wanted == Duplicate then d.duplicateOf.value else row.canonical))
  }

  lemma ItIsDecided(row: Row, f: FindingId, e: Event, d: Decision, action: Action, evidence: Evidence)
    requires e == MakeEvent(f, row.review, row.previous, action, evidence, d.actor, d.at, d.size)
    requires var verified := Anchored(d.path, d.lines, d.whole);
             && action == (if d.wanted == Confirmed && !verified then NeedsHuman else d.wanted) && action != Delivered
             && evidence == Anchor(d.promoted, d.reason, verified, d.path, d.lines,
                                   if action == Fixed || action == AlreadyFixed then d.fixing else None,
                                   if action == Duplicate then d.duplicateOf else None)
             && (action == Duplicate ==> d.duplicateOf.Some?)
    ensures Decided(row, f, e, d)
  {
  }

  lemma ItTriages(origin: Row, row: Row, e: Event, f: FindingId, d: Decision, before: map<FindingId, seq<Event>>,
                  after: map<FindingId, seq<Event>>, rows: map<FindingId, Row>, r: Result<Event, Refusal>)
    requires f in before && RowAt(row, origin, before[f], |before[f]|) && Decided(row, f, e, d)
    requires after == before[f := before[f] + [e]]
    requires r.Ok? ==>
               && r.value == e && f in rows
               && rows[f] == row.(status := Some(e.payload.action), previous := Some(Sha(e)), target := d.promoted,
                                  mappedPath := d.path, mappedLines := d.lines,
                                  canonical := if d.wanted == Duplicate then d.duplicateOf.value else row.canonical)
    ensures Triages(origin, f, d, before, after, rows, r)
  {
    hide RowAt;
  }

  /** What a request is made of, and when the transport's answer is taken. */
  ghost predicate Asks(row: Row, f: FindingId, reply: Evidence, dies: Death, requests: map<FindingId, Request>,
                       receipts: map<FindingId, Evidence>, after: map<FindingId, Request>,
                       r: Result<Evidence, Refusal>) {
    var c := row.canonical;
    var asked := Request(c, f, row.review, row.target, row.mappedPath, row.mappedLines, row.content);
    if c in requests && requests[c] != asked then after == requests && r == Err(RequestChanged)
    else if c !in requests && dies == BeforeRequest then after == requests && r == Err(Died)
    else
      var receipt := if c in receipts then receipts[c] else reply;
      && after == requests[c := asked]
      && r == if receipt.Receipt? && receipt.acknowledgement != "" && receipt.repairTask != "" then Ok(receipt)
              else Err(Unacknowledged)
  }

  /** What delivery keeps on disk, with the calls of the transport. */
  datatype Desk = Desk(requests: map<FindingId, Request>, receipts: map<FindingId, Evidence>, calls: seq<Call>,
                       chains: map<FindingId, seq<Event>>)

  /** The event that says a finding was delivered. */
  function DeliveryEvent(row: Row, f: FindingId, receipt: Evidence, at: string, size: nat): Event {
    Event(DeliveryKey(f), at, FindingEvent(f, row.review, row.previous, Delivered, receipt, "crq-repair-adapter"), true,
          size)
  }

  /** What delivering a finding does, from the row its whole chain leaves. */
  ghost predicate Delivers(origin: Row, f: FindingId, reply: Evidence, at: string, size: nat, dies: Death, before: Desk,
                           after: Desk, r: Result<Evidence, Refusal>)
    requires f in before.chains
  {
    exists row ::
      && RowAt(row, origin, before.chains[f], |before.chains[f]|)
      && if row.status == Some(Delivered) then after == before && row.receipt.Some? && r == Ok(row.receipt.value)
         else if row.status != Some(Confirmed) then after == before && r == Err(NotConfirmed)
         else exists asked :: HandsOver(row, f, reply, at, size, dies, before, after, asked, r)
  }

  /** A confirmed row is handed to the transport and its receipt saved, then the event spooled. */
  ghost predicate HandsOver(row: Row, f: FindingId, reply: Evidence, at: string, size: nat, dies: Death, before: Desk,
                            after: Desk, asked: Result<Evidence, Refusal>, r: Result<Evidence, Refusal>)
    requires f in before.chains
  {
    var c := row.canonical;
    && Asks(row, f, reply, dies, before.requests, before.receipts, after.requests, asked)
    && (asked.Err? ==> after.receipts == before.receipts && after.chains == before.chains && r == asked)
    && (if asked == Err(RequestChanged) || asked == Err(Died) || c in before.receipts then after.calls == before.calls
        else c in after.requests && after.calls == before.calls + [Call(c, after.requests[c])])
    && (asked.Ok? && dies == BeforeReceipt ==>
          after.receipts == before.receipts && after.chains == before.chains && r == Err(Died))
    && (asked.Ok? && dies != BeforeReceipt ==>
          var e := DeliveryEvent(row, f, asked.value, at, size);
          && after.receipts == before.receipts[c := asked.value]
          && after.chains == (if dies == BeforeEvent then before.chains
                              else before.chains[f := before.chains[f] + [e]])
          && r == if dies == BeforeEvent || dies == BeforeRow then Err(Died) else Ok(asked.value))
  }

  lemma NothingToDeliver(origin: Row, row: Row, f: FindingId, reply: Evidence, at: string, size: nat, dies: Death,
                         before: Desk, r: Result<Evidence, Refusal>)
    requires f in before.chains && RowAt(row, origin, before.chains[f], |before.chains[f]|)
    requires row.status != Some(Confirmed)
    requires if row.status == Some(Delivered) then row.receipt.Some? && r == Ok(row.receipt.value)
             else r == Err(NotConfirmed)
    ensures Delivers(origin, f, reply, at, size, dies, before, before, r)
  {
    hide RowAt;
  }

  lemma ItDelivers(origin: Row, row: Row, f: FindingId, reply: Evidence, at: string, size: nat, dies: Death,
                   before: Desk, after: Desk, asked: Result<Evidence, Refusal>, r: Result<Evidence, Refusal>)
    requires f in before.chains && RowAt(row, origin, before.chains[f], |before.chains[f]|)
    requires row.status == Some(Confirmed) && HandsOver(row, f, reply, at, size, dies, before, after, asked, r)
    ensures Delivers(origin, f, reply, at, size, dies, before, after, r)
  {
    hide RowAt, HandsOver;
  }

  lemma MakeIs(f: FindingId, review: Id, previous: Option<Id>, action: Action, evidence: Evidence, actor: string,
               at: string, size: nat)
    ensures MakeEvent(f, review, previous, action, evidence, actor, at, size) ==
            Event(if action == Delivered then DeliveryKey(f) else TriageKey(f, previous, action, evidence), at,
                  FindingEvent(f, review, previous, action, evidence, actor), true, size)
  {
  }

  lemma SettledRow(rows: map<FindingId, Row>, chains: map<FindingId, seq<Event>>, origins: map<FindingId, Row>,
                   f: FindingId)
    requires AllSettled(rows, chains, origins) && f in rows
    ensures f in chains && f in origins && RowAt(rows[f], origins[f], chains[f], |chains[f]|)
  {
  }

  /** What each operation writes is what recovery makes of the event it spooled. */
  lemma DeliveryIsRecovered(row: Row, f: FindingId, receipt: Evidence, actor: string, at: string, size: nat)
    ensures var e := MakeEvent(f, row.review, row.previous, Delivered, receipt, actor, at, size);
            && e.payload.FindingEvent? && e.payload.action == Delivered && e.payload.evidence == receipt &&
               e.payload.actor == actor
            && e.occurredAt == at && e.size == size
            && Recovered(row, e) == row.(status := Some(Delivered), previous := Some(Sha(e)), receipt := Some(receipt))
  {
  }

  lemma DecisionIsRecovered(row: Row, f: FindingId, action: Action, evidence: Evidence, actor: string, at: string,
                            size: nat)
    requires action != Delivered && evidence.Anchor? && (action == Duplicate ==> evidence.canonical.Some?)
    ensures var e := MakeEvent(f, row.review, row.previous, action, evidence, actor, at, size);
            && e.payload.FindingEvent? && e.payload.finding == f && e.payload.action == action &&
               e.payload.evidence == evidence
            && e.payload.actor == actor
            && e.occurredAt == at && e.size == size
            && Recovered(row, e) ==
               row.(status := Some(action), previous := Some(Sha(e)), target := evidence.target,
                    mappedPath := evidence.mappedPath,
                    mappedLines := evidence.mappedLines,
                    canonical := if action == Duplicate then evidence.canonical.value else row.canonical)
  {
  }

  // ----- what one step keeps ----------------------------------------------------------------------------

  lemma KeysAgree(chains: map<FindingId, seq<Event>>, origins: map<FindingId, Row>, retained: set<Event>)
    requires Founded(chains, origins, retained)
    ensures chains.Keys == origins.Keys
  {
  }

  lemma InChains(rows: map<FindingId, Row>, chains: map<FindingId, seq<Event>>, origins: map<FindingId, Row>,
                 f: FindingId)
    requires AllSettled(rows, chains, origins) && f in rows
    ensures f in chains
  {
  }

  lemma EnterIsSound(rows: map<FindingId, Row>, chains: map<FindingId, seq<Event>>, origins: map<FindingId, Row>,
                     retained: set<Event>, f: FindingId, row: Row)
    requires Founded(chains, origins, retained) && Placed(rows, chains, origins) && f !in rows
    requires row.previous.None? && row.status.None? && (f in chains && chains[f] != [] ==> origins[f] == row)
    ensures var c, o := ChainsWith(chains, f), OriginsWith(chains, origins, f, row);
            Founded(c, o, retained) && Placed(rows[f := row], c, o)
  {
    hide Home, RowAt, Somewhere;
    var c, o := ChainsWith(chains, f), OriginsWith(chains, origins, f, row);
    EmptyHome(f, row);
    forall g | g in c ensures Home(g, o[g], c[g]) {
      assert g in chains ==> Home(g, origins[g], chains[g]);
    }
    HomeStart(f, row, c[f]);
  }

  /** The row is the one its review makes of the finding. */
  ghost predicate Entered(review: Event, target: string, contents: seq<string>, f: FindingId, row: Row)
    requires review.payload.Review? && |contents| == |review.payload.findings|
  {
    exists i :: 0 <= i < |contents| && review.payload.findings[i] == f && row == Fresh(Sha(review), target, f,
                                                                                       contents[i])
  }

  predicate Holds(rows: map<FindingId, Row>, review: Event, contents: seq<string>, i: nat)
    requires review.payload.Review? && |contents| == |review.payload.findings| && i < |contents|
  {
    var f := review.payload.findings[i];
    f in rows && rows[f].review == Sha(review) && rows[f].content == contents[i]
  }

  predicate Clashes(rows: map<FindingId, Row>, review: Event, contents: seq<string>, i: nat)
    requires review.payload.Review? && |contents| == |review.payload.findings| && i < |contents|
  {
    var f := review.payload.findings[i];
    f in rows && (rows[f].review != Sha(review) || rows[f].content != contents[i])
  }

  /** Where the loop stops: the rows before are there, and the next clashes or is the one before which it dies. */
  ghost predicate StopsAt(rows: map<FindingId, Row>, review: Event, contents: seq<string>, i: nat, dies: nat,
                          refusal: Refusal)
    requires review.payload.Review? && |contents| == |review.payload.findings| && i < |contents|
  {
    && (forall k :: 0 <= k < i ==> Holds(rows, review, contents, k))
    && if Clashes(rows, review, contents, i) then refusal == OccurrenceConflict
       else review.payload.findings[i] !in rows && i == dies && refusal == Died
  }

  lemma ItStops(rows: map<FindingId, Row>, review: Event, contents: seq<string>, i: nat, dies: nat, refusal: Refusal)
    requires review.payload.Review? && |contents| == |review.payload.findings| && i < |contents|
    requires forall k :: 0 <= k < i ==> Holds(rows, review, contents, k)
    requires if refusal == OccurrenceConflict then Clashes(rows, review, contents, i)
             else review.payload.findings[i] !in rows && i == dies && refusal == Died
    ensures StopsAt(rows, review, contents, i, dies, refusal)
  {
  }

  /** Every row that entered where events are retained is the row they began from. */
  ghost predicate EntriesFit(before: map<FindingId, Row>, rows: map<FindingId, Row>, chains: map<FindingId, seq<Event>>,
                             origins: map<FindingId, Row>) {
    forall f <- rows :: f !in before && f in chains && chains[f] != [] ==> f in origins && origins[f] == rows[f]
  }

  /** Some row is nowhere along its chain. */
  ghost predicate Astray(rows: map<FindingId, Row>, chains: map<FindingId, seq<Event>>, origins: map<FindingId, Row>) {
    exists f <- rows :: f in chains && f in origins && !Somewhere(rows[f], origins[f], chains[f])
  }

  /** The rows with the chains and origins they belong to. */
  datatype Local = Local(rows: map<FindingId, Row>, chains: map<FindingId, seq<Event>>, origins: map<FindingId, Row>)

  ghost predicate RowsTaken(start: Local, now: Local, review: Event, target: string, contents: seq<string>, n: nat)
    requires review.payload.Review? && |contents| == |review.payload.findings| && n <= |contents|
  {
    && (forall f <- start.rows :: f in now.rows && now.rows[f] == start.rows[f])
    && (forall f <- now.rows :: f in start.rows || Entered(review, target, contents, f, now.rows[f]))
    && (forall k :: 0 <= k < n ==> Holds(now.rows, review, contents, k))
  }

  /** Chains are only added, empty and for rows; an origin moves only under an empty chain. */
  ghost predicate ChainsKept(start: Local, now: Local) {
    && (forall f <- start.chains :: f in now.chains && now.chains[f] == start.chains[f])
    && (forall f <- now.chains :: f in start.chains || f in now.rows)
    && (forall f <- start.chains :: start.chains[f] != [] ==>
          f in start.origins && f in now.origins && now.origins[f] == start.origins[f])
  }

  ghost predicate FitOrAstray(start: Local, now: Local, retained: set<Event>) {
    if EntriesFit(start.rows, now.rows, start.chains, start.origins)
    then Founded(now.chains, now.origins, retained) && Placed(now.rows, now.chains, now.origins)
    else Astray(now.rows, now.chains, now.origins)
  }

  /** What ingesting has done after the first n findings. */
  ghost predicate Ingesting(start: Local, now: Local, retained: set<Event>, review: Event, target: string,
                            contents: seq<string>,
                            n: nat)
    requires review.payload.Review? && |contents| == |review.payload.findings| && n <= |contents|
  {
    RowsTaken(start, now, review, target, contents, n) && ChainsKept(start, now) && FitOrAstray(start, now, retained)
  }

  ghost function ChainsWith(chains: map<FindingId, seq<Event>>, f: FindingId): map<FindingId, seq<Event>> {
    if f in chains then chains else chains[f := []]
  }

  ghost function OriginsWith(chains: map<FindingId, seq<Event>>, origins: map<FindingId, Row>, f: FindingId, row: Row)
    : map<FindingId, Row>
  {
    if f in chains && chains[f] != [] then origins else origins[f := row]
  }

  lemma IngestStarts(start: Local, retained: set<Event>, review: Event, target: string, contents: seq<string>)
    requires Founded(start.chains, start.origins, retained) && Placed(start.rows, start.chains, start.origins)
    requires review.payload.Review? && |contents| == |review.payload.findings|
    ensures Ingesting(start, start, retained, review, target, contents, 0)
  {
    KeysAgree(start.chains, start.origins, retained);
    hide Founded, Placed;
  }

  lemma IngestSkips(start: Local, now: Local, retained: set<Event>, review: Event, target: string,
                    contents: seq<string>, n: nat)
    requires review.payload.Review? && |contents| == |review.payload.findings| && n < |contents|
    requires Ingesting(start, now, retained, review, target, contents, n)
    requires review.payload.findings[n] in now.rows && !Clashes(now.rows, review, contents, n)
    ensures Ingesting(start, now, retained, review, target, contents, n + 1)
  {
    assert Holds(now.rows, review, contents, n);
    hide ChainsKept, FitOrAstray, Holds, Entered;
  }

  lemma IngestEnters(start: Local, now: Local, retained: set<Event>, review: Event, target: string,
                     contents: seq<string>, n: nat)
    requires review.payload.Review? && |contents| == |review.payload.findings| && n < |contents|
    requires Ingesting(start, now, retained, review, target, contents, n) && review.payload.findings[n] !in now.rows
    ensures var f := review.payload.findings[n];
            var row := Fresh(Sha(review), target, f, contents[n]);
            Ingesting(start, Local(now.rows[f := row], ChainsWith(now.chains, f),
                                   OriginsWith(now.chains, now.origins, f, row)),
                      retained, review, target, contents, n + 1)
  {
    var f := review.payload.findings[n];
    var row := Fresh(Sha(review), target, f, contents[n]);
    var next := Local(now.rows[f := row], ChainsWith(now.chains, f), OriginsWith(now.chains, now.origins, f, row));
    RowTaken(start, now, next, review, target, contents, n);
    ChainKept(start, now, next, f, row);
    hide RowsTaken, ChainsKept, FitOrAstray, ChainsWith, OriginsWith;
    EntryFitsOrStrays(start, now, next, retained, f, row);
  }

  lemma RowTaken(start: Local, now: Local, next: Local, review: Event, target: string, contents: seq<string>, n: nat)
    requires review.payload.Review? && |contents| == |review.payload.findings| && n < |contents|
    requires RowsTaken(start, now, review, target, contents, n) && review.payload.findings[n] !in now.rows
    requires var f := review.payload.findings[n]; next.rows == now.rows[f := Fresh(Sha(review), target, f, contents[n])]
    ensures RowsTaken(start, next, review, target, contents, n + 1)
  {
    var f := review.payload.findings[n];
    HoldingStays(now.rows, next.rows, review, contents, n, f);
    assert Holds(next.rows, review, contents, n) && Entered(review, target, contents, f, next.rows[f]);
    hide Holds, Entered;
  }

  lemma ChainKept(start: Local, now: Local, next: Local, f: FindingId, row: Row)
    requires ChainsKept(start, now)
    requires next == Local(now.rows[f := row], ChainsWith(now.chains, f), OriginsWith(now.chains, now.origins, f, row))
    ensures ChainsKept(start, next)
  {
  }

  lemma EntryFitsOrStrays(start: Local, now: Local, next: Local, retained: set<Event>, f: FindingId, row: Row)
    requires f !in now.rows && (forall g <- start.rows :: g in now.rows) && ChainsKept(start, now)
    requires row.previous.None? && row.status.None? && FitOrAstray(start, now, retained)
    requires next == Local(now.rows[f := row], ChainsWith(now.chains, f), OriginsWith(now.chains, now.origins, f, row))
    ensures FitOrAstray(start, next, retained)
  {
    EntryFits(start, now, f, row);
    hide Founded, Placed, Astray, EntriesFit, ChainsWith, OriginsWith, ChainsKept;
    if !EntriesFit(start.rows, now.rows, start.chains, start.origins) {
      AstrayStays(now.rows, now.chains, now.origins, f, row);
    } else {
      KeysAgree(now.chains, now.origins, retained);
      if f in now.chains && now.chains[f] != [] && now.origins[f] != row {
        ForeignRowIsAstray(now.rows, now.chains, now.origins, retained, f, row);
      } else {
        EnterIsSound(now.rows, now.chains, now.origins, retained, f, row);
      }
    }
  }

  lemma IngestEnds(start: Local, now: Local, retained: set<Event>, review: Event, target: string, contents: seq<string>,
                   n: nat)
    requires review.payload.Review? && |contents| == |review.payload.findings| && n <= |contents|
    requires Ingesting(start, now, retained, review, target, contents, n)
    ensures EntriesFit(start.rows, now.rows, start.chains, start.origins) <==>
            Founded(now.chains, now.origins, retained) && Placed(now.rows, now.chains, now.origins)
    ensures forall f <- start.rows :: f in now.rows && now.rows[f] == start.rows[f]
    ensures forall f <- now.rows :: f in start.rows || Entered(review, target, contents, f, now.rows[f])
    ensures forall k :: 0 <= k < n ==> Holds(now.rows, review, contents, k)
    ensures forall f <- start.chains :: f in now.chains && now.chains[f] == start.chains[f]
  {
    AstrayIsNotPlaced(now.rows, now.chains, now.origins);
    hide Founded, Placed, Holds, Entered, Astray, EntriesFit;
  }

  lemma ItClashes(rows: map<FindingId, Row>, review: Event, contents: seq<string>, i: nat)
    requires review.payload.Review? && |contents| == |review.payload.findings| && i < |contents|
    ensures Clashes(rows, review, contents, i) <==>
            var f := review.payload.findings[i];
                f in rows && (rows[f].review != Sha(review) || rows[f].content != contents[i])
  {
  }

  lemma HoldingStays(before: map<FindingId, Row>, rows: map<FindingId, Row>, review: Event, contents: seq<string>,
                     n: nat,
                     f: FindingId)
    requires review.payload.Review? && |contents| == |review.payload.findings| && n <= |contents|
    requires f !in before && f in rows && rows == before[f := rows[f]]
    requires forall k :: 0 <= k < n ==> Holds(before, review, contents, k)
    ensures forall k :: 0 <= k < n ==> Holds(rows, review, contents, k)
  {
    forall k | 0 <= k < n ensures Holds(rows, review, contents, k) {
      assert Holds(before, review, contents, k);
    }
  }

  lemma EntryFits(start: Local, now: Local, f: FindingId, row: Row)
    requires f !in now.rows && (forall g <- start.rows :: g in now.rows) && ChainsKept(start, now)
    ensures EntriesFit(start.rows, now.rows[f := row], start.chains, start.origins) <==>
            && EntriesFit(start.rows, now.rows, start.chains, start.origins)
            && (f in now.chains && now.chains[f] != [] ==> f in now.origins && now.origins[f] == row)
  {
    var after := now.rows[f := row];
    if EntriesFit(start.rows, after, start.chains, start.origins) {
      forall g | g in now.rows && g !in start.rows && g in start.chains && start.chains[g] != []
        ensures g in start.origins && start.origins[g] == now.rows[g]
      {
        assert g in after && after[g] == now.rows[g];
      }
      assert f in after;
    }
  }

  lemma AstrayIsNotPlaced(rows: map<FindingId, Row>, chains: map<FindingId, seq<Event>>, origins: map<FindingId, Row>)
    ensures Astray(rows, chains, origins) ==> !Placed(rows, chains, origins)
  {
    hide Somewhere;
  }

  lemma AstrayStays(rows: map<FindingId, Row>, chains: map<FindingId, seq<Event>>, origins: map<FindingId, Row>,
                    f: FindingId, row: Row)
    requires Astray(rows, chains, origins) && f !in rows
    ensures Astray(rows[f := row], ChainsWith(chains, f), OriginsWith(chains, origins, f, row))
  {
    hide Somewhere;
    var g :| g in rows && g in chains && g in origins && !Somewhere(rows[g], origins[g], chains[g]);
    assert g in rows[f := row] && rows[f := row][g] == rows[g];
  }

  /** An untouched row that is not the one its events began from is nowhere along them. */
  lemma ForeignRowIsAstray(rows: map<FindingId, Row>, chains: map<FindingId, seq<Event>>, origins: map<FindingId, Row>,
                           retained: set<Event>, f: FindingId, row: Row)
    requires Founded(chains, origins, retained) && f in chains && row.previous.None? && origins[f] != row
    requires chains[f] != []
    ensures Astray(rows[f := row], ChainsWith(chains, f), OriginsWith(chains, origins, f, row))
  {
    assert Home(f, origins[f], chains[f]);
    forall j: nat | RowAt(row, origins[f], chains[f], j) ensures false {
      ReplayedTip(f, origins[f], chains[f], j);
    }
    assert f in rows[f := row] && !Somewhere(rows[f := row][f], origins[f], chains[f]);
  }

  lemma EmptyHome(f: FindingId, row: Row)
    requires row.previous.None? && row.status.None?
    ensures Home(f, row, [])
  {
  }

  lemma HomeStart(f: FindingId, row: Row, chain: seq<Event>)
    requires Home(f, row, chain)
    ensures Somewhere(row, row, chain)
  {
    assert RowAt(row, row, chain, 0);
  }

  lemma HomeGrows(f: FindingId, origin: Row, chain: seq<Event>, row: Row, e: Event)
    requires Home(f, origin, chain) && RowAt(row, origin, chain, |chain|)
    requires e.payload.FindingEvent?
    requires e == MakeEvent(f, row.review, row.previous, e.payload.action, e.payload.evidence,
                                                       e.payload.actor, e.occurredAt, e.size)
    ensures Home(f, origin, chain + [e]) && RowAt(row, origin, chain + [e], |chain|)
    ensures RowAt(Recovered(row, e), origin, chain + [e], |chain + [e]|)
  {
    ReplayedTip(f, origin, chain, |chain|);
    assert (chain + [e])[|chain|] == e;
    ChainGrows(f, origin.review, chain, e);
    ReplayedPrefix(origin, chain, e, |chain|);
  }

  lemma FoundedGrows(chains: map<FindingId, seq<Event>>, origins: map<FindingId, Row>, retained: set<Event>,
                     f: FindingId, e: Event)
    requires Founded(chains, origins, retained) && f in chains && Home(f, origins[f], chains[f] + [e])
    requires e.payload.FindingEvent? && e.payload.finding == f
    ensures Founded(chains[f := chains[f] + [e]], origins, retained + {e})
  {
    hide Home;
    var c, chain := chains[f := chains[f] + [e]], chains[f];
    forall g | g in c ensures Home(g, origins[g], c[g]) {
      assert Home(g, origins[g], chains[g]);
    }
    forall x | x in retained + {e} && x.payload.FindingEvent?
      ensures x.payload.finding in c && x in c[x.payload.finding]
    {
      if x == e {
        assert (chain + [e])[|chain|] in chain + [e];
      }
    }
  }

  /** Spooling the next event of a settled row keeps everything, with the row written or not; written, it is settled. */
  lemma SpoolIsSound(rows: map<FindingId, Row>, chains: map<FindingId, seq<Event>>, origins: map<FindingId, Row>,
                     retained: set<Event>, f: FindingId, e: Event)
    requires Founded(chains, origins, retained) && AllSettled(rows, chains, origins) && f in rows
    requires e.payload.FindingEvent?
    requires e == MakeEvent(f, rows[f].review, rows[f].previous, e.payload.action, e.payload.evidence,
                                                       e.payload.actor, e.occurredAt, e.size)
    ensures var c := chains[f := chains[f] + [e]];
            && Founded(c, origins, retained + {e}) && Placed(rows, chains, origins) && Placed(rows, c, origins)
            && Placed(rows[f := Recovered(rows[f], e)], c, origins) &&
               AllSettled(rows[f := Recovered(rows[f], e)], c, origins)
  {
    hide Home, RowAt, Recovered;
    assert Home(f, origins[f], chains[f]) && RowAt(rows[f], origins[f], chains[f], |chains[f]|);
    HomeGrows(f, origins[f], chains[f], rows[f], e);
    FoundedGrows(chains, origins, retained, f, e);
    assert forall g <- rows :: RowAt(rows[g], origins[g], chains[g], |chains[g]|);
  }

  lemma DeliveredHasReceipt(rows: map<FindingId, Row>, chains: map<FindingId, seq<Event>>, origins: map<FindingId, Row>,
                            retained: set<Event>, f: FindingId)
    requires Founded(chains, origins, retained)
    requires AllSettled(rows, chains, origins) && f in rows && rows[f].status == Some(Delivered)
    ensures rows[f].receipt.Some?
  {
    assert Home(f, origins[f], chains[f]) && RowAt(rows[f], origins[f], chains[f], |chains[f]|);
  }

  /**
   Settled rows are determined by the chains: spooling then writing ends as spooling, crashing and recovering does.
   */
  lemma SettledIsUnique(a: map<FindingId, Row>, b: map<FindingId, Row>, chains: map<FindingId, seq<Event>>,
                        origins: map<FindingId, Row>)
    requires AllSettled(a, chains, origins) && AllSettled(b, chains, origins) && a.Keys == b.Keys
    ensures a == b
  {
    forall f | f in a ensures a[f] == b[f] {
      assert RowAt(a[f], origins[f], chains[f], |chains[f]|) && RowAt(b[f], origins[f], chains[f], |chains[f]|);
    }
  }

  function FindingEvents(events: seq<Event>): (r: seq<Event>)
    ensures forall e :: e in r <==> e in events && e.payload.FindingEvent?
  {
    if events == [] then []
    else (if events[0].payload.FindingEvent? then [events[0]] else []) + FindingEvents(events[1..])
  }
}
