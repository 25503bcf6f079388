/**
 The append-only evidence ledger: its events, the sequence validator and the test that decides
 which batches may share one commit. The digest is collision-free, so an identifier is the event
 it was computed from.
 */
module Ledger {
  import opened Prelude

  datatype Id = Sha(event: Event)

  type FindingId = string

  /** Source keys are strings built from fixed prefixes and digests; distinct builders never collide. */
  datatype SourceKey =
    | Source(text: string)
    | JobKey(job: string, payload: Payload)
    | TriageKey(finding: FindingId, previous: Option<Id>, action: Action, evidence: Evidence)
    | DeliveryKey(finding: FindingId)

  datatype Action = Confirmed | AlreadyFixed | Superseded | Dismissed | NeedsHuman | Duplicate | Delivered | Fixed

  datatype Evidence =
    | Anchor(target: string, reason: string, verified: bool, mappedPath: Option<string>,
             mappedLines: set<int>, fixing: Option<string>, canonical: Option<FindingId>)
    | Receipt(acknowledgement: string, repairTask: string)

  datatype ImportOutcome = Credited | DuplicateOf | Unverified | Rejected

  datatype Payload =
    | Review(findings: seq<FindingId>, creditable: bool)
    | FindingEvent(finding: FindingId, review: Id, previous: Option<Id>, action: Action, evidence: Evidence,
                   actor: string)
    | ImportResult(outcome: ImportOutcome, credited: Option<Id>, duplicate: Option<Id>)
    | JobState(job: string, reason: string, state: string, attempt: nat, failures: nat, generation: nat,
               nextEligible: Option<string>, operator: Option<string>)

  /** wellFormed: the single-event checks (schema, scopes, required evidence), a function of this
      event alone. size: the length of its canonical bytes. */
  datatype Event = Event(sourceKey: SourceKey, occurredAt: string, payload: Payload, wellFormed: bool, size: nat)

  datatype Refusal = Malformed | SourceConflict | FindingCollision | StalePredecessor | MissingReview

  /** What the validator has learnt from a prefix of the sequence. */
  datatype Index = Index(sources: map<SourceKey, Id>, ids: set<Id>, reviews: set<Id>,
                         findings: map<FindingId, Id>, tips: map<FindingId, Option<Id>>)

  const EMPTY := Index(map[], {}, {}, map[], map[])

  function AddFindings(index: Index, findings: seq<FindingId>, review: Id): Result<Index, Refusal>
    decreases |findings|
  {
    if findings == [] then Ok(index)
    else if findings[0] in index.findings then Err(FindingCollision)
    else AddFindings(index.(findings := index.findings[findings[0] := review], tips := index.tips[findings[0] := None]),
                     findings[1..], review)
  }

  /** One round of the validator's loop. */
  function Apply(index: Index, event: Event): Result<Index, Refusal> {
    var id := Sha(event);
    if !event.wellFormed then Err(Malformed)
    else if event.sourceKey in index.sources && index.sources[event.sourceKey] != id then Err(SourceConflict)
    else if id in index.ids then Ok(index)
    else
      var next := index.(sources := index.sources[event.sourceKey := id], ids := index.ids + {id});
      match event.payload
      case Review(findings, _) => AddFindings(next.(reviews := next.reviews + {id}), findings, id)
      case FindingEvent(finding, review, previous, _, _, _) =>
        if finding !in next.findings || next.findings[finding] != review
           || finding !in next.tips || next.tips[finding] != previous
        then Err(StalePredecessor)
        else Ok(next.(tips := next.tips[finding := Some(id)]))
      case ImportResult(outcome, credited, duplicate) =>
        var linked := if outcome == Credited then credited else duplicate;
        if linked.Some? && linked.value !in next.reviews then Err(MissingReview) else Ok(next)
      case JobState(_, _, _, _, _, _, _, _) => Ok(next)
  }

  /** The validator over a whole sequence, resumed from an index. */
  function Replay(index: Index, events: seq<Event>): Result<Index, Refusal>
    decreases |events|
  {
    if events == [] then Ok(index)
    else
      var next := Apply(index, events[0]);
      if next.Err? then next else Replay(next.value, events[1..])
  }

  ghost predicate Accepted(events: seq<Event>) {
    Replay(EMPTY, events).Ok?
  }

  lemma {:induction false} ReplayConcat(index: Index, a: seq<Event>, b: seq<Event>)
    ensures Replay(index, a + b) ==
            var first := Replay(index, a);
            if first.Err? then first else Replay(first.value, b)
    decreases |a|
  {
    if a == [] {
      assert a + b == b;
    } else {
      assert (a + b)[1..] == a[1..] + b;
      var next := Apply(index, a[0]);
      if next.Ok? {
        ReplayConcat(next.value, a[1..], b);
      }
    }
  }

  /** The validator as the source runs it: one loop over the sequence, stopping at the first refusal. */
  method ValidateSequence(events: seq<Event>) returns (result: Result<Index, Refusal>)
    ensures result == Replay(EMPTY, events)
    ensures result.Ok? <==> Lawful(events)
    ensures result.Ok? ==> result.value.ids == Ids(events)
    ensures result.Err? ==>
              exists i :: 0 <= i < |events| && Lawful(events[..i]) && Refuses(events[..i], events[i], result.error)
  {
    hide Apply, Represents, Admits, Refuses;
    var index := EMPTY;
    EmptyRepresents();
    assert events[..0] == [];
    for i := 0 to |events|
      invariant Replay(EMPTY, events) == Replay(index, events[i..])
      invariant Represents(index, events[..i]) && Lawful(events[..i])
    {
      assert events[i..][1..] == events[i + 1..];
      assert events[..i + 1] == events[..i] + [events[i]];
      ApplyIs(index, events[..i], events[i]);
      LawfulSnoc(events[..i], events[i]);
      var next := Apply(index, events[i]);
      if next.Err? {
        LawfulPrefix(events, i + 1);
        return next;
      }
      index := next.value;
    }
    assert events[..|events|] == events;
    RepresentsIds(index, events);
    result := Ok(index);
  }

  // ----- what acceptance means --------------------------------------------------------------------------

  /** The events an event refers to, as publication orders them. */
  function Dependencies(event: Event): set<Id> {
    match event.payload
    case FindingEvent(_, review, previous, _, _, _) => {review} + Optional(previous)
    case ImportResult(_, credited, duplicate) => Optional(credited) + Optional(duplicate)
    case _ => {}
  }

  function Optional<T>(o: Option<T>): set<T> {
    if o.Some? then {o.value} else {}
  }

  function Ids(events: seq<Event>): set<Id> {
    set e | e in events :: Sha(e)
  }

  // ----- acceptance, said of the sequence alone ---------------------------------------------------------

  /** The last event about a finding; an event met again says nothing new. */
  ghost function Tip(events: seq<Event>, finding: FindingId): Option<Id> {
    if events == [] then None
    else
      var last, before := events[|events| - 1], events[..|events| - 1];
      if last !in before && last.payload.FindingEvent? && last.payload.finding == finding then Some(Sha(last))
      else Tip(before, finding)
  }

  ghost predicate Lists(event: Event, finding: FindingId) {
    event.payload.Review? && finding in event.payload.findings
  }

  ghost predicate NoneTwice(findings: seq<FindingId>) {
    forall i, j :: 0 <= i < j < |findings| ==> findings[i] != findings[j]
  }

  /** What the payload of a new event must find in the events before it. */
  ghost predicate Admissible(events: seq<Event>, event: Event) {
    match event.payload
    case Review(findings, _) => NoneTwice(findings) && forall r <- events, f <- findings :: !Lists(r, f)
    case FindingEvent(finding, review, previous, _, _, _) =>
      review.event in events && Lists(review.event, finding) && Tip(events, finding) == previous
    case ImportResult(outcome, credited, duplicate) =>
      var linked := if outcome == Credited then credited else duplicate;
      linked.Some? ==> linked.value.event in events && linked.value.event.payload.Review?
    case JobState(_, _, _, _, _, _, _, _) => true
  }

  /** Another event already speaks for this source key. */
  ghost predicate SourceTaken(events: seq<Event>, event: Event) {
    exists other <- events :: other.sourceKey == event.sourceKey && other != event
  }

  ghost predicate Admits(events: seq<Event>, event: Event) {
    event.wellFormed && !SourceTaken(events, event) && (event in events || Admissible(events, event))
  }

  ghost predicate Refuses(events: seq<Event>, event: Event, refusal: Refusal) {
    match refusal
    case Malformed => !event.wellFormed
    case SourceConflict => event.wellFormed && SourceTaken(events, event)
    case _ =>
      && event.wellFormed && !SourceTaken(events, event) && event !in events && !Admissible(events, event)
      && (refusal.FindingCollision? <==> event.payload.Review?)
      && (refusal.StalePredecessor? <==> event.payload.FindingEvent?)
      && (refusal.MissingReview? <==> event.payload.ImportResult?)
  }

  /** Every event is admitted by the events before it. */
  ghost predicate Lawful(events: seq<Event>) {
    forall i :: 0 <= i < |events| ==> Admits(events[..i], events[i])
  }

  ghost predicate Registers(index: Index, events: seq<Event>) {
    && index.sources.Keys == (set e <- events :: e.sourceKey)
    && (forall e <- events :: index.sources[e.sourceKey] == Sha(e))
    && index.ids == Ids(events)
    && index.reviews == (set e <- events | e.payload.Review? :: Sha(e))
  }

  ghost predicate Owns(index: Index, events: seq<Event>) {
    && (forall e <- events, f :: Lists(e, f) ==> f in index.findings && index.findings[f] == Sha(e))
    && (forall f <- index.findings :: index.findings[f].event in events && Lists(index.findings[f].event, f))
  }

  ghost predicate Follows(index: Index, events: seq<Event>) {
    && index.tips.Keys == index.findings.Keys
    && (forall f <- index.tips :: index.tips[f] == Tip(events, f))
    && (forall f :: Tip(events, f).Some? ==> f in index.tips)
  }

  /** The validator's index holds exactly what the sequence says. */
  ghost predicate Represents(index: Index, events: seq<Event>) {
    Registers(index, events) && Owns(index, events) && Follows(index, events)
  }

  lemma EmptyRepresents()
    ensures Represents(EMPTY, []) && Lawful([])
  {
  }

  lemma RepresentsIds(index: Index, events: seq<Event>)
    requires Represents(index, events)
    ensures index.ids == Ids(events)
  {
  }

  lemma LawfulPrefix(events: seq<Event>, n: nat)
    requires n <= |events| && !Lawful(events[..n])
    ensures !Lawful(events)
  {
    forall i | 0 <= i < n ensures events[..n][..i] == events[..i] {
    }
  }

  lemma LawfulSnoc(events: seq<Event>, event: Event)
    ensures Lawful(events + [event]) <==> Lawful(events) && Admits(events, event)
  {
    hide Admits;
    forall i | 0 <= i <= |events|
      ensures (events + [event])[..i] == events[..i] && events[..|events|] == events
    {
    }
    if Lawful(events + [event]) {
      assert (events + [event])[|events|] == event;
      forall i | 0 <= i < |events| ensures Admits(events[..i], events[i]) {
        assert (events + [event])[i] == events[i];
      }
    }
  }

  /** A review's findings are new to the index, belong to the review and have no event yet. */
  ghost predicate Gains(index: Index, findings: seq<FindingId>, review: Id, next: Index) {
    && next.sources == index.sources && next.ids == index.ids && next.reviews == index.reviews
    && (forall f :: f in next.findings <==> f in index.findings || f in findings)
    && (forall f :: f in next.tips <==> f in index.tips || f in findings)
    && (forall f <- next.findings :: next.findings[f] == if f in findings then review else index.findings[f])
    && (forall f <- next.tips :: next.tips[f] == if f in findings then None else index.tips[f])
  }

  lemma {:induction false} AddFindingsIs(index: Index, findings: seq<FindingId>, review: Id)
    ensures var r := AddFindings(index, findings, review);
            && (r.Ok? <==> NoneTwice(findings) && forall f <- findings :: f !in index.findings)
            && (r.Err? ==> r.error == FindingCollision)
            && (r.Ok? ==> Gains(index, findings, review, r.value))
    decreases |findings|
  {
    if findings != [] {
      var first, rest := findings[0], findings[1..];
      assert findings == [first] + rest;
      NoneTwiceCons(first, rest);
      if first !in index.findings {
        AddFindingsIs(index.(findings := index.findings[first := review], tips := index.tips[first := None]), rest,
                      review);
        assert forall f :: f in findings <==> f == first || f in rest;
      }
    }
  }

  lemma NoneTwiceCons(first: FindingId, rest: seq<FindingId>)
    ensures NoneTwice([first] + rest) <==> NoneTwice(rest) && first !in rest
  {
    var all := [first] + rest;
    if NoneTwice(all) {
      forall i, j | 0 <= i < j < |rest| ensures rest[i] != rest[j] {
        assert all[i + 1] != all[j + 1];
      }
      forall j | 0 <= j < |rest| ensures rest[j] != first {
        assert all[0] != all[j + 1];
      }
    }
  }

  /** What one round of the loop decides, and that its index goes on holding what the sequence says. */
  lemma ApplyIs(index: Index, events: seq<Event>, event: Event)
    requires Represents(index, events)
    ensures Apply(index, event).Ok? <==> Admits(events, event)
    ensures Apply(index, event).Ok? ==> Represents(Apply(index, event).value, events + [event])
    ensures Apply(index, event).Err? ==> Refuses(events, event, Apply(index, event).error)
  {
    ClashIs(index, events, event);
    if event.wellFormed && !SourceTaken(events, event) {
      if event in events {
        SeenRepresents(index, events, event);
      } else {
        assert Sha(event) !in index.ids;
        NewIs(index, events, event);
      }
    }
  }

  lemma ClashIs(index: Index, events: seq<Event>, event: Event)
    requires Represents(index, events)
    ensures event.sourceKey in index.sources && index.sources[event.sourceKey] != Sha(event) <==>
              SourceTaken(events, event)
    ensures Sha(event) in index.ids <==> event in events
  {
    if event.sourceKey in index.sources {
      var other :| other in events && other.sourceKey == event.sourceKey;
      assert index.sources[other.sourceKey] == Sha(other);
    }
  }

  lemma SeenRepresents(index: Index, events: seq<Event>, event: Event)
    requires Represents(index, events) && event in events
    ensures Represents(index, events + [event])
  {
    var more := events + [event];
    assert more[..|more| - 1] == events;
    assert forall e :: e in more <==> e in events;
    assert forall f :: Tip(more, f) == Tip(events, f);
  }

  /** The registries a new event enters before its payload is looked at. */
  function Registering(index: Index, event: Event): Index {
    index.(sources := index.sources[event.sourceKey := Sha(event)], ids := index.ids + {Sha(event)})
  }

  lemma NewIs(index: Index, events: seq<Event>, event: Event)
    requires Represents(index, events) && event.wellFormed && !SourceTaken(events, event) && event !in events
    ensures Apply(index, event).Ok? <==> Admissible(events, event)
    ensures Apply(index, event).Ok? ==> Represents(Apply(index, event).value, events + [event])
    ensures Apply(index, event).Err? ==> Refuses(events, event, Apply(index, event).error)
  {
    hide Represents;
    ClashIs(index, events, event);
    match event.payload
    case Review(_, _) => ReviewIs(index, events, event);
    case FindingEvent(_, _, _, _, _, _) => FindingEventIs(index, events, event);
    case ImportResult(_, _, _) => ImportIs(index, events, event);
    case JobState(_, _, _, _, _, _, _, _) => QuietRepresents(index, events, event);
  }

  lemma KeysMore(events: seq<Event>, event: Event)
    ensures (set e <- events + [event] :: e.sourceKey) == (set e <- events :: e.sourceKey) + {event.sourceKey}
    ensures Ids(events + [event]) == Ids(events) + {Sha(event)}
  {
  }

  lemma ReviewsMore(events: seq<Event>, event: Event)
    ensures (set e <- events + [event] | e.payload.Review? :: Sha(e)) ==
            (set e <- events | e.payload.Review? :: Sha(e)) + if event.payload.Review? then {Sha(event)} else {}
  {
  }

  lemma RegistersMore(index: Index, events: seq<Event>, event: Event, next: Index)
    requires Registers(index, events) && !SourceTaken(events, event)
    requires next.sources == Registering(index, event).sources && next.ids == Registering(index, event).ids
    requires next.reviews == if event.payload.Review? then index.reviews + {Sha(event)} else index.reviews
    ensures Registers(next, events + [event])
  {
    KeysMore(events, event);
    ReviewsMore(events, event);
    forall e | e in events + [event] ensures next.sources[e.sourceKey] == Sha(e) {
      if e != event {
        assert e in events && (e.sourceKey == event.sourceKey ==> e == event);
      }
    }
    hide SourceTaken, Ids;
  }

  lemma OwnsMore(index: Index, events: seq<Event>, event: Event, next: Index)
    requires Owns(index, events) && !event.payload.Review? && next.findings == index.findings
    ensures Owns(next, events + [event])
  {
    forall e, f | e in events + [event] && Lists(e, f) ensures f in next.findings && next.findings[f] == Sha(e) {
      assert e in events;
    }
  }

  lemma TipAfter(events: seq<Event>, event: Event, f: FindingId)
    requires event !in events
    ensures Tip(events + [event], f) ==
            if event.payload.FindingEvent? && f == event.payload.finding then Some(Sha(event)) else Tip(events, f)
  {
    var more := events + [event];
    assert more[..|more| - 1] == events;
  }

  /** An event that is neither a review nor about a finding moves nothing but the registries. */
  lemma QuietRepresents(index: Index, events: seq<Event>, event: Event)
    requires Represents(index, events) && !SourceTaken(events, event) && event !in events
    requires !event.payload.Review? && !event.payload.FindingEvent?
    ensures Represents(Registering(index, event), events + [event])
  {
    hide Registers, Owns, SourceTaken, Tip;
    RegistersMore(index, events, event, Registering(index, event));
    OwnsMore(index, events, event, Registering(index, event));
    forall f ensures Tip(events + [event], f) == Tip(events, f) {
      TipAfter(events, event, f);
    }
  }

  lemma ImportIs(index: Index, events: seq<Event>, event: Event)
    requires Represents(index, events) && event.wellFormed && !SourceTaken(events, event) && event !in events
    requires event.payload.ImportResult?
    ensures Apply(index, event).Ok? <==> Admissible(events, event)
    ensures Apply(index, event).Ok? ==> Represents(Apply(index, event).value, events + [event])
    ensures Apply(index, event).Err? ==> Refuses(events, event, Apply(index, event).error)
  {
    hide Tip, Lists;
    ClashIs(index, events, event);
    QuietRepresents(index, events, event);
  }

  lemma FindingEventIs(index: Index, events: seq<Event>, event: Event)
    requires Represents(index, events) && event.wellFormed && !SourceTaken(events, event) && event !in events
    requires event.payload.FindingEvent?
    ensures Apply(index, event).Ok? <==> Admissible(events, event)
    ensures Apply(index, event).Ok? ==> Represents(Apply(index, event).value, events + [event])
    ensures Apply(index, event).Err? ==> Refuses(events, event, Apply(index, event).error)
  {
    ClashIs(index, events, event);
    TipIs(index, events, event.payload.finding, event.payload.review, event.payload.previous);
    if Admissible(events, event) {
      TipMoves(index, events, event);
    }
  }

  lemma TipIs(index: Index, events: seq<Event>, finding: FindingId, review: Id, previous: Option<Id>)
    requires Represents(index, events)
    ensures (finding in index.findings && index.findings[finding] == review && index.tips[finding] == previous) <==>
            (review.event in events && Lists(review.event, finding) && Tip(events, finding) == previous)
  {
    hide Tip, Lists;
  }

  lemma TipMoves(index: Index, events: seq<Event>, event: Event)
    requires Represents(index, events) && !SourceTaken(events, event) && event !in events
    requires event.payload.FindingEvent? && event.payload.finding in index.tips
    ensures var entered := Registering(index, event);
            Represents(entered.(tips := entered.tips[event.payload.finding := Some(Sha(event))]), events + [event])
  {
    hide Registers, Owns, SourceTaken, Tip;
    var entered := Registering(index, event);
    var next := entered.(tips := entered.tips[event.payload.finding := Some(Sha(event))]);
    RegistersMore(index, events, event, next);
    OwnsMore(index, events, event, next);
    forall f ensures f in next.tips ==> next.tips[f] == Tip(events + [event], f)
             ensures Tip(events + [event], f).Some? ==> f in next.tips
    {
      TipAfter(events, event, f);
    }
    assert next.tips.Keys == next.findings.Keys;
  }

  lemma ReviewIs(index: Index, events: seq<Event>, event: Event)
    requires Represents(index, events) && event.wellFormed && !SourceTaken(events, event) && event !in events
    requires event.payload.Review?
    ensures Apply(index, event).Ok? <==> Admissible(events, event)
    ensures Apply(index, event).Ok? ==> Represents(Apply(index, event).value, events + [event])
    ensures Apply(index, event).Err? ==> Refuses(events, event, Apply(index, event).error)
  {
    ClashIs(index, events, event);
    var entered, findings := Registering(index, event), event.payload.findings;
    var next := entered.(reviews := entered.reviews + {Sha(event)});
    AddFindingsIs(next, findings, Sha(event));
    NewFindings(index, events, findings);
    hide Represents, SourceTaken, AddFindings;
    assert Apply(index, event) == AddFindings(next, findings, Sha(event));
    if Apply(index, event).Ok? {
      ReviewRepresents(index, events, event, Apply(index, event).value);
    }
  }

  lemma NewFindings(index: Index, events: seq<Event>, findings: seq<FindingId>)
    requires Represents(index, events)
    ensures (forall f <- findings :: f !in index.findings) <==> (forall r <- events, f <- findings :: !Lists(r, f))
  {
    if f :| f in findings && f in index.findings {
      assert Lists(index.findings[f].event, f);
    }
  }

  lemma ReviewRepresents(index: Index, events: seq<Event>, event: Event, last: Index)
    requires Represents(index, events) && !SourceTaken(events, event) && event !in events && event.payload.Review?
    requires forall f <- event.payload.findings :: f !in index.findings
    requires Gains(Registering(index, event).(reviews := index.reviews + {Sha(event)}), event.payload.findings,
                   Sha(event), last)
    ensures Represents(last, events + [event])
  {
    hide Tip, SourceTaken, Registers;
    RegistersMore(index, events, event, last);
    forall f ensures Tip(events + [event], f) == Tip(events, f) {
      TipAfter(events, event, f);
    }
    forall e, f | e in events + [event] && Lists(e, f) ensures f in last.findings && last.findings[f] == Sha(e) {
      if e != event {
        assert e in events;
      }
    }
    assert last.tips.Keys == last.findings.Keys;
  }

  lemma {:induction false} ReplayRepresents(events: seq<Event>)
    ensures Accepted(events) <==> Lawful(events)
    ensures Accepted(events) ==> Represents(Replay(EMPTY, events).value, events)
  {
    if events == [] {
      EmptyRepresents();
    } else {
      var before, last := events[..|events| - 1], events[|events| - 1];
      assert events == before + [last];
      ReplayRepresents(before);
      ReplayConcat(EMPTY, before, [last]);
      LawfulSnoc(before, last);
      if Accepted(before) {
        var index := Replay(EMPTY, before).value;
        ApplyIs(index, before, last);
        assert Replay(index, [last]) == Apply(index, last);
      }
    }
  }

  /** The validator accepts exactly the lawful sequences. */
  lemma AcceptedIsLawful(events: seq<Event>)
    ensures Accepted(events) <==> Lawful(events)
  {
    ReplayRepresents(events);
  }

  /** An accepted ledger takes one more event exactly when the events already there admit it. */
  lemma AppendIsAccepted(events: seq<Event>, event: Event)
    requires Accepted(events)
    ensures Accepted(events + [event]) <==>
            && event.wellFormed
            && (forall other <- events :: other.sourceKey == event.sourceKey ==> other == event)
            && (event in events || Admissible(events, event))
  {
    ReplayRepresents(events);
    ReplayRepresents(events + [event]);
    LawfulSnoc(events, event);
  }

  /** The facts every index built by the validator satisfies. */
  ghost predicate Consistent(index: Index) {
    && index.sources.Values == index.ids
    && (forall id :: id in index.ids ==> id.event.sourceKey in index.sources && index.sources[id.event.sourceKey] == id)
    && index.findings.Keys == index.tips.Keys
    && index.reviews <= index.ids
    && (forall f :: f in index.findings ==> index.findings[f] in index.ids)
    && (forall f :: f in index.tips && index.tips[f].Some? ==> index.tips[f].value in index.ids)
  }

  lemma {:induction false} AddFindingsKeeps(index: Index, findings: seq<FindingId>, review: Id)
    requires Consistent(index) && review in index.ids
    ensures var r := AddFindings(index, findings, review);
            r.Ok? ==> Consistent(r.value) && r.value.ids == index.ids && r.value.sources == index.sources
    decreases |findings|
  {
    if findings != [] && findings[0] !in index.findings {
      AddFindingsKeeps(index.(findings := index.findings[findings[0] := review],
                              tips := index.tips[findings[0] := None]),
                       findings[1..], review);
    }
  }

  lemma ApplyKeeps(index: Index, event: Event)
    requires Consistent(index)
    ensures var r := Apply(index, event);
            r.Ok? ==> Consistent(r.value) && r.value.ids == index.ids + {Sha(event)}
  {
    var id := Sha(event);
    var r := Apply(index, event);
    if r.Ok? && id !in index.ids {
      var next := index.(sources := index.sources[event.sourceKey := id], ids := index.ids + {id});
      assert event.sourceKey !in index.sources;
      assert next.sources[event.sourceKey] == id;
      forall v | v in next.ids ensures v in next.sources.Values {
        assert v == id || next.sources[v.event.sourceKey] == v;
      }
      assert next.sources.Values == next.ids;
      if event.payload.Review? {
        AddFindingsKeeps(next.(reviews := next.reviews + {id}), event.payload.findings, id);
      }
    }
  }

  lemma {:induction false} ReplayKeeps(index: Index, events: seq<Event>)
    requires Consistent(index) && Replay(index, events).Ok?
    ensures var r := Replay(index, events).value;
            Consistent(r) && r.ids == index.ids + Ids(events)
    decreases |events|
  {
    if events != [] {
      ApplyKeeps(index, events[0]);
      var next := Apply(index, events[0]).value;
      ReplayKeeps(next, events[1..]);
      assert events == [events[0]] + events[1..];
    }
  }

  /** In an accepted sequence every finding event comes after its review and its predecessor, and
      every credited or duplicate import after the review it names. */
  lemma AcceptedIsCausal(events: seq<Event>, i: nat)
    requires Accepted(events) && i < |events|
    ensures match events[i].payload
            case FindingEvent(_, review, previous, _, _, _) => {review} + Optional(previous) <= Ids(events[..i + 1])
            case ImportResult(outcome, credited, duplicate) =>
              Optional(if outcome == Credited then credited else duplicate) <= Ids(events[..i + 1])
            case _ => Sha(events[i]) in Ids(events[..i + 1])
  {
    assert events == events[..i] + events[i..];
    assert events[..i + 1] == events[..i] + [events[i]];
    ReplayConcat(EMPTY, events[..i], events[i..]);
    ReplayKeeps(EMPTY, events[..i]);
    var index := Replay(EMPTY, events[..i]).value;
    assert Apply(index, events[i]).Ok?;
    if Sha(events[i]) in index.ids {
      SeenBefore(events[..i], events[i]);
    }
  }

  /** An event met again was accepted the first time, so its references are already there. */
  lemma {:induction false} SeenBefore(events: seq<Event>, event: Event)
    requires Accepted(events) && event in events
    ensures event.payload.FindingEvent? ==>
              {event.payload.review} + Optional(event.payload.previous) <= Ids(events)
    ensures event.payload.ImportResult? ==>
              Optional(if event.payload.outcome == Credited then event.payload.credited
                       else event.payload.duplicate) <= Ids(events)
  {
    var k := |events| - 1;
    assert events == events[..k] + [events[k]];
    ReplayConcat(EMPTY, events[..k], [events[k]]);
    ReplayKeeps(EMPTY, events[..k]);
    if event in events[..k] {
      SeenBefore(events[..k], event);
    } else {
      var index := Replay(EMPTY, events[..k]).value;
      assert Apply(index, event).Ok? by { assert Replay(index, [event]).Ok?; }
      assert forall id :: id in index.ids ==> id.event in events[..k];
    }
  }

  // ----- batches whose order cannot matter --------------------------------------------------------------

  predicate IndependentImport(event: Event) {
    event.payload.ImportResult? && event.payload.outcome in {Unverified, Rejected}
    && event.payload.credited.None? && event.payload.duplicate.None?
  }

  predicate InitialEnrollment(event: Event) {
    && event.payload.JobState?
    && event.payload.reason == "inventory enqueue" && event.payload.state == "pending"
    && event.payload.attempt == 0 && event.payload.failures == 0 && event.payload.generation == 0
    && event.payload.nextEligible.None? && event.payload.operator.None?
    && event.sourceKey == JobKey(event.payload.job, event.payload)
  }

  function Jobs(events: seq<Event>): set<string> {
    set e | e in events && e.payload.JobState? :: e.payload.job
  }

  predicate FreshEnrollments(events: seq<Event>, seen: set<string>) {
    events == [] ||
    (InitialEnrollment(events[0]) && events[0].payload.job !in seen
     && FreshEnrollments(events[1..], seen + {events[0].payload.job}))
  }

  predicate IndependentBatch(events: seq<Event>, previous: seq<Event>) {
    (forall e <- events :: IndependentImport(e)) || FreshEnrollments(events, Jobs(previous))
  }

  lemma {:induction false} FreshEnrollmentsSnoc(events: seq<Event>, event: Event, seen: set<string>)
    ensures FreshEnrollments(events + [event], seen) <==>
            FreshEnrollments(events, seen) && InitialEnrollment(event) && event.payload.job !in seen + Jobs(events)
  {
    if events == [] {
      assert events + [event] == [event];
    } else {
      assert (events + [event])[1..] == events[1..] + [event];
      if InitialEnrollment(events[0]) {
        FreshEnrollmentsSnoc(events[1..], event, seen + {events[0].payload.job});
        assert events == [events[0]] + events[1..];
        assert Jobs(events) == {events[0].payload.job} + Jobs(events[1..]);
      }
    }
  }

  /** Neutral events change nothing but the source and identifier registries. */
  predicate Neutral(event: Event) {
    IndependentImport(event) || event.payload.JobState?
  }

  predicate AllNeutral(events: seq<Event>) {
    forall e <- events :: Neutral(e)
  }

  lemma {:induction false} FreshEnrollmentsAreNeutral(events: seq<Event>, seen: set<string>)
    requires FreshEnrollments(events, seen)
    ensures AllNeutral(events)
  {
    if events != [] {
      FreshEnrollmentsAreNeutral(events[1..], seen + {events[0].payload.job});
      assert events == [events[0]] + events[1..];
    }
  }

  lemma IndependentIsNeutral(events: seq<Event>, previous: seq<Event>)
    requires IndependentBatch(events, previous)
    ensures AllNeutral(events)
  {
    if FreshEnrollments(events, Jobs(previous)) {
      FreshEnrollmentsAreNeutral(events, Jobs(previous));
    }
  }

  /** A set of neutral events fits an index when no source key is claimed twice. */
  ghost predicate Fits(index: Index, events: set<Event>) {
    && (forall e <- events :: e.wellFormed)
    && (forall e <- events :: e.sourceKey in index.sources ==> index.sources[e.sourceKey] == Sha(e))
    && (forall e <- events, f <- events :: e.sourceKey == f.sourceKey ==> e == f)
  }

  /** What an index becomes once a set of neutral events is in: nothing but the registries moves. */
  ghost predicate Absorbed(index: Index, events: set<Event>, next: Index) {
    && next.reviews == index.reviews && next.findings == index.findings && next.tips == index.tips
    && next.ids == index.ids + (set e <- events :: Sha(e))
    && next.sources.Keys == index.sources.Keys + (set e <- events :: e.sourceKey)
    && (forall k :: k in index.sources ==> next.sources[k] == index.sources[k])
    && (forall e <- events :: next.sources[e.sourceKey] == Sha(e))
  }

  lemma AbsorbedOnce(index: Index, events: set<Event>, a: Index, b: Index)
    requires Absorbed(index, events, a) && Absorbed(index, events, b)
    ensures a == b
  {
    forall k | k in a.sources ensures a.sources[k] == b.sources[k] {
      if k !in index.sources {
        var e :| e in events && e.sourceKey == k;
      }
    }
    assert a.sources == b.sources;
  }

  lemma AbsorbOne(index: Index, event: Event)
    requires Consistent(index) && Neutral(event)
    ensures Apply(index, event).Ok? <==> Fits(index, {event})
    ensures Apply(index, event).Ok? ==> Absorbed(index, {event}, Apply(index, event).value)
  {
    assert (set e <- {event} :: Sha(e)) == {Sha(event)};
    assert (set e <- {event} :: e.sourceKey) == {event.sourceKey};
  }

  lemma AbsorbedTwice(index: Index, event: Event, middle: Index, rest: set<Event>, last: Index)
    requires Absorbed(index, {event}, middle) && Absorbed(middle, rest, last)
    ensures Absorbed(index, {event} + rest, last)
  {
    assert (set e <- {event} :: Sha(e)) == {Sha(event)};
    assert (set e <- {event} :: e.sourceKey) == {event.sourceKey};
    assert (set e <- {event} + rest :: Sha(e)) == {Sha(event)} + (set e <- rest :: Sha(e));
    assert (set e <- {event} + rest :: e.sourceKey) == {event.sourceKey} + (set e <- rest :: e.sourceKey);
    forall e | e in {event} + rest ensures last.sources[e.sourceKey] == Sha(e) {
      assert e in rest || (e in {event} && middle.sources[e.sourceKey] == Sha(e));
    }
  }

  lemma FitsForward(index: Index, event: Event, middle: Index, rest: set<Event>)
    requires Fits(index, {event}) && Absorbed(index, {event}, middle) && Fits(middle, rest)
    ensures Fits(index, {event} + rest)
  {
    assert event in {event};
    forall e | e in rest ensures (e.sourceKey == event.sourceKey ==> e == event)
                             && (e.sourceKey in index.sources ==> index.sources[e.sourceKey] == Sha(e)) {
      assert e.sourceKey in middle.sources ==> middle.sources[e.sourceKey] == Sha(e);
    }
  }

  lemma FitsBackward(index: Index, event: Event, middle: Index, rest: set<Event>)
    requires Absorbed(index, {event}, middle) && Fits(index, {event} + rest)
    ensures Fits(middle, rest)
  {
    assert event in {event} && event in {event} + rest;
    forall e | e in rest && e.sourceKey in middle.sources ensures middle.sources[e.sourceKey] == Sha(e) {
      assert e in {event} + rest;
      if e.sourceKey !in index.sources {
        assert e.sourceKey == event.sourceKey;
      }
    }
    forall e, f | e in rest && f in rest && e.sourceKey == f.sourceKey ensures e == f {
      assert e in {event} + rest && f in {event} + rest;
    }
    forall e | e in rest ensures e.wellFormed {
      assert e in {event} + rest;
    }
  }

  /** Replaying neutral events depends only on which events they are, never on their order. */
  lemma {:induction false} ReplayNeutral(index: Index, events: seq<Event>)
    requires Consistent(index) && AllNeutral(events)
    ensures Replay(index, events).Ok? <==> Fits(index, Elements(events))
    ensures Replay(index, events).Ok? ==> Absorbed(index, Elements(events), Replay(index, events).value)
    decreases |events|
  {
    if events == [] {
      assert Elements(events) == {};
    } else {
      var first, rest := events[0], events[1..];
      assert events == [first] + rest;
      assert Elements(events) == {first} + Elements(rest);
      AbsorbOne(index, first);
      var next := Apply(index, first);
      if next.Ok? {
        ApplyKeeps(index, first);
        ReplayNeutral(next.value, rest);
        if Replay(next.value, rest).Ok? {
          FitsForward(index, first, next.value, Elements(rest));
          AbsorbedTwice(index, first, next.value, Elements(rest), Replay(next.value, rest).value);
        } else if Fits(index, Elements(events)) {
          FitsBackward(index, first, next.value, Elements(rest));
        }
      } else if Fits(index, Elements(events)) {
        assert first in Elements(events);
        assert Fits(index, {first});
      }
    }
  }

  /** Every ordering of one independent batch validates alike and leaves the same index. */
  lemma BatchOrderIrrelevant(index: Index, batch: seq<Event>, reordered: seq<Event>)
    requires Consistent(index) && AllNeutral(batch) && multiset(batch) == multiset(reordered)
    ensures Replay(index, batch).Ok? <==> Replay(index, reordered).Ok?
    ensures Replay(index, batch).Ok? ==> Replay(index, reordered) == Replay(index, batch)
  {
    SameMultisetSameElements(batch, reordered);
    assert AllNeutral(reordered) by {
      forall e | e in reordered ensures Neutral(e) {
        assert e in Elements(batch);
      }
    }
    ReplayNeutral(index, batch);
    ReplayNeutral(index, reordered);
    if Replay(index, batch).Ok? {
      AbsorbedOnce(index, Elements(batch), Replay(index, batch).value, Replay(index, reordered).value);
    }
  }
}
