/**
 Rolling discovery of merged pull requests: frozen intervals, inventory-cap partitions and the watermark,
 with a crash possible before every save. Instants are whole seconds.
 */
module Discovery {
  import opened Prelude

  const OVERLAP := 300
  const MAX_SPAN := 400 * 86400
  const SPAN_LAPSE_SLACK := 12 * 60

  datatype Interval = Interval(after: int, before: int)

  /** The persisted scan record: its bounds, hints for the next bounds, and whether a refusal or its reason stands. */
  datatype Active = Active(interval: Interval, complete: bool, span: Option<int>, overlapFrom: Option<int>,
                           flagged: bool)

  datatype Queue = Queue(active: Option<Active>, watermark: Option<int>)

  /** What the scan of the frozen interval comes to. */
  datatype Outcome = Complete | Incomplete | CapExceeded | OtherRefusal

  /** The save before which the process dies. */
  datatype Death = BeforeBounds | InScan | BeforeWatermark | Never

  /** One attempt: the clock when bounds are chosen, when the scan starts and when it ends. */
  datatype Attempt = Attempt(now: int, started: int, ended: int, outcome: Outcome, death: Death)

  // ----- choosing bounds --------------------------------------------------------------------------------

  function Span(active: Option<Active>): Option<int> {
    if active.Some? && active.value.span.Some? && 0 < active.value.span.value <= MAX_SPAN then active.value.span
    else None
  }

  function OverlapFrom(active: Option<Active>): Option<int> {
    if active.Some? then active.value.overlapFrom else None
  }

  predicate Resumable(q: Queue, floor: int, now: int) {
    q.active.Some? && !q.active.value.complete && q.active.value.interval.after >= floor &&
    q.active.value.interval.after < q.active.value.interval.before < now - 1
  }

  function LowerBound(q: Queue, floor: int): int {
    if q.watermark.None? then floor
    else
      var after := Max(floor, q.watermark.value - OVERLAP);
      if OverlapFrom(q.active).Some? then Max(after, Min(OverlapFrom(q.active).value, q.watermark.value)) else after
  }

  function UpperBound(q: Queue, after: int, now: int): int {
    if q.watermark.Some? && Span(q.active).Some?
    then Max(Min(now - 1, q.watermark.value + Span(q.active).value), after + 1)
    else now - 1
  }

  /** None when no valid interval exists. */
  function Rolling(q: Queue, floor: int, now: int): Option<Interval> {
    if floor >= now - 1 then None
    else if Resumable(q, floor, now) then Some(q.active.value.interval)
    else
      var after := LowerBound(q, floor);
      var before := UpperBound(q, after, now);
      if after < before then Some(Interval(after, before)) else None
  }

  // ----- an inventory over its cap ----------------------------------------------------------------------

  datatype Partition = Partition(interval: Interval, span: int)

  function Split(interval: Interval, watermark: Option<int>): Option<Partition> {
    var low := if watermark.Some? then Max(interval.after, watermark.value) else interval.after;
    var seconds := interval.before - low;
    if seconds >= 2 then Some(Partition(Interval(interval.after, low + seconds / 2), seconds / 2))
    else if interval.after < low < interval.before then Some(Partition(Interval(low, interval.before), seconds))
    else None
  }

  // ----- one attempt ------------------------------------------------------------------------------------

  /** Bounds made durable before the first read; a standing refusal is dropped. */
  function Freeze(q: Queue, interval: Interval): Queue {
    var same := q.active.Some? && q.active.value.interval == interval;
    if same && !q.active.value.flagged then q
    else
      var complete := same && q.active.value.complete;
      q.(active := Some(Active(interval, complete, Span(q.active), OverlapFrom(q.active), Span(q.active).Some? &&
                               !complete)))
  }

  function Summarize(q: Queue, was: Option<Active>, interval: Interval, complete: bool, ended: int): Queue {
    var grown := if complete && Span(was).Some? then Some(Min(Span(was).value * 2, MAX_SPAN)) else Span(was);
    var span := if complete && interval.before >= ended - (1 + SPAN_LAPSE_SLACK) then None else grown;
    var overlap :=
      if complete && OverlapFrom(was).Some? && OverlapFrom(was).value <= interval.before - OVERLAP then None
      else OverlapFrom(was);
    q.(active := Some(Active(interval, complete, span, overlap, false)))
  }

  function Raise(q: Queue, before: int): Queue {
    q.(watermark := Some(if q.watermark.Some? then Max(before, q.watermark.value) else before))
  }

  function Refuse(q: Queue, was: Option<Active>, interval: Interval, capped: bool): Queue
    requires q.active.Some?
  {
    var split := if capped then Split(interval, q.watermark) else None;
    if split.Some? then
      var overlap := if split.value.interval.after != interval.after then Some(split.value.interval.after)
          else OverlapFrom(was);
      q.(active := Some(Active(split.value.interval, false, Some(split.value.span), overlap, true)))
    else q.(active := Some(q.active.value.(complete := false, flagged := true)))
  }

  /** A scan whose upper bound is not yet past is refused before it reads anything. */
  function ScanResult(a: Attempt, interval: Interval): Outcome {
    if interval.before >= a.started then OtherRefusal else a.outcome
  }

  /** The durable queue after an attempt. */
  function After(q: Queue, floor: int, a: Attempt): Queue {
    var chosen := Rolling(q, floor, a.now);
    if chosen.None? then
      if q.active.Some? then q.(active := Some(q.active.value.(complete := false))) else q
    else if a.death == BeforeBounds then q
    else
      var interval, frozen := chosen.value, Freeze(q, chosen.value);
      if a.death == InScan then frozen
      else if ScanResult(a, interval).Complete? then
        var summed := Summarize(frozen, q.active, interval, true, a.ended);
        if a.death == BeforeWatermark then summed else Raise(summed, interval.before)
      else if ScanResult(a, interval).Incomplete? then Summarize(frozen, q.active, interval, false, a.ended)
      else Refuse(frozen, q.active, interval, ScanResult(a, interval).CapExceeded?)
  }

  /** The interval an attempt completes, if it gets as far as recording that. */
  function Completed(q: Queue, floor: int, a: Attempt): Option<Interval> {
    var chosen := Rolling(q, floor, a.now);
    if chosen.Some? && a.death !in {BeforeBounds, InScan} && ScanResult(a, chosen.value).Complete? then chosen else None
  }

  /** The queue file, rewritten save by save. */
  class QueueFile {
    var active: Option<Active>
    var watermark: Option<int>

    constructor ()
      ensures Queue(active, watermark) == Queue(None, None)
    {
      active, watermark := None, None;
    }

    method Discover(floor: int, a: Attempt) returns (done: Option<Interval>)
      modifies this
      ensures Queue(active, watermark) == After(old(Queue(active, watermark)), floor, a)
      ensures done == Completed(old(Queue(active, watermark)), floor, a)
    {
      var was := active;
      var chosen := Rolling(Queue(active, watermark), floor, a.now);
      if chosen.None? {
        if active.Some? {
          active := Some(active.value.(complete := false));
        }
        return None;
      }
      var interval := chosen.value;
      if a.death == BeforeBounds {
        return None;
      }
      var same := active.Some? && active.value.interval == interval;
      if !same || active.value.flagged {
        var complete := same && active.value.complete;
        active := Some(Active(interval, complete, Span(was), OverlapFrom(was), Span(was).Some? && !complete));
      }
      if a.death == InScan {
        return None;
      }
      var span, overlap := Span(was), OverlapFrom(was);
      var outcome := ScanResult(a, interval);
      if outcome.Complete? {
        if span.Some? {
          span := Some(Min(span.value * 2, MAX_SPAN));
        }
        if interval.before >= a.ended - (1 + SPAN_LAPSE_SLACK) {
          span := None;
        }
        if overlap.Some? && overlap.value <= interval.before - OVERLAP {
          overlap := None;
        }
        active := Some(Active(interval, true, span, overlap, false));
        if a.death != BeforeWatermark {
          watermark := Some(if watermark.Some? then Max(interval.before, watermark.value) else interval.before);
        }
        done := chosen;
      } else if outcome.Incomplete? {
        active := Some(Active(interval, false, span, overlap, false));
        done := None;
      } else {
        var split := if outcome.CapExceeded? then Split(interval, watermark) else None;
        if split.Some? {
          if split.value.interval.after != interval.after {
            overlap := Some(split.value.interval.after);
          }
          active := Some(Active(split.value.interval, false, Some(split.value.span), overlap, true));
        } else {
          active := Some(active.value.(complete := false, flagged := true));
        }
        done := None;
      }
    }
  }

  // ----- no gap -----------------------------------------------------------------------------------------

  datatype World = World(queue: Queue, clock: int, done: set<Interval>)

  predicate Inside(t: int, interval: Interval) {
    interval.after < t <= interval.before
  }

  ghost predicate CoveredBy(t: int, done: set<Interval>) {
    exists i <- done :: Inside(t, i)
  }

  /** The highest instant already covered. */
  function Reached(q: Queue, floor: int): int {
    if q.watermark.Some? then q.watermark.value else floor
  }

  ghost predicate NoGap(w: World, floor: int) {
    forall t :: floor < t <= Reached(w.queue, floor) ==> CoveredBy(t, w.done)
  }

  /** The record in progress is a real interval that starts no later than what is covered, and is not in the future. */
  ghost predicate Anchored(w: World, floor: int) {
    && (w.queue.watermark.Some? ==> floor < w.queue.watermark.value < w.clock)
    && (w.queue.active.Some? ==>
          var i := w.queue.active.value.interval;
          floor <= i.after <= Reached(w.queue, floor) && i.after < i.before <= w.clock)
  }

  function Include(done: set<Interval>, more: Option<Interval>): set<Interval> {
    if more.Some? then done + {more.value} else done
  }

  ghost predicate Next(w: World, v: World, floor: int) {
    exists a: Attempt :: Ticks(w, v, floor, a)
  }

  /** One tick under a clock that never runs backwards. */
  ghost predicate Ticks(w: World, v: World, floor: int, a: Attempt) {
    && w.clock <= a.now <= a.started <= a.ended <= v.clock
    && v.queue == After(w.queue, floor, a)
    && v.done == Include(w.done, Completed(w.queue, floor, a))
  }

  lemma RollingIsAnchored(w: World, floor: int, now: int)
    requires Anchored(w, floor) && w.clock <= now && Rolling(w.queue, floor, now).Some?
    ensures var i := Rolling(w.queue, floor, now).value;
            floor <= i.after <= Reached(w.queue, floor) && i.after < i.before <= now
  {
  }

  /**
   A partition is a strictly shorter, non-empty interval that still starts within what is covered and ends above it.
   */
  lemma PartitionShrinks(interval: Interval, watermark: Option<int>)
    requires interval.after < interval.before && Split(interval, watermark).Some?
    ensures var part := Split(interval, watermark).value.interval;
            && interval.after <= part.after < part.before <= interval.before
            && part.before - part.after < interval.before - interval.after
            && (part.after == interval.after || (watermark.Some? && part.after == watermark.value))
            && (watermark.Some? ==> watermark.value < part.before)
            && 0 < Split(interval, watermark).value.span
  {
  }

  /** Only a single second above both bounds, or an interval entirely covered, cannot be partitioned. */
  lemma PartitionFailsIff(interval: Interval, watermark: Option<int>)
    requires interval.after < interval.before
    ensures Split(interval, watermark).None? <==>
            (watermark.Some? && watermark.value >= interval.before) ||
            (interval.before == interval.after + 1 && (watermark.Some? ==> watermark.value <= interval.after))
  {
  }

  lemma TickKeeps(w: World, v: World, floor: int, a: Attempt)
    requires NoGap(w, floor) && Anchored(w, floor) && Ticks(w, v, floor, a)
    ensures NoGap(v, floor) && Anchored(v, floor)
    ensures w.queue.watermark.Some? ==> v.queue.watermark.Some? && w.queue.watermark.value <= v.queue.watermark.value
    ensures w.done <= v.done && forall i <- v.done - w.done :: i.before < a.started
  {
    if Rolling(w.queue, floor, a.now).Some? {
      RollingIsAnchored(w, floor, a.now);
      var interval := Rolling(w.queue, floor, a.now).value;
      if Split(interval, w.queue.watermark).Some? {
        PartitionShrinks(interval, w.queue.watermark);
      }
      hide Rolling, Split;
      TickAnchors(w, v, floor, a, interval);
      TickCovers(w, v, floor, a, interval);
    }
  }

  lemma TickAnchors(w: World, v: World, floor: int, a: Attempt, interval: Interval)
    requires Anchored(w, floor) && Ticks(w, v, floor, a) && Rolling(w.queue, floor, a.now) == Some(interval)
    requires floor <= interval.after <= Reached(w.queue, floor) && interval.after < interval.before <= a.now
    requires Split(interval, w.queue.watermark).Some? ==>
               var part := Split(interval, w.queue.watermark).value.interval;
               interval.after <= part.after < part.before <= interval.before &&
               (part.after == interval.after || (w.queue.watermark.Some? && part.after == w.queue.watermark.value))
    ensures Anchored(v, floor)
    ensures v.queue.watermark == w.queue.watermark ||
            (v.queue.watermark.Some? && v.queue.watermark.value == Max(interval.before, Reached(w.queue, floor)) &&
             interval in v.done)
  {
    hide Rolling, Split;
  }

  lemma TickCovers(w: World, v: World, floor: int, a: Attempt, interval: Interval)
    requires NoGap(w, floor) && w.done <= v.done && interval.after <= Reached(w.queue, floor)
    requires v.queue.watermark == w.queue.watermark ||
             (v.queue.watermark.Some? && v.queue.watermark.value == Max(interval.before, Reached(w.queue, floor)) &&
              interval in v.done)
    ensures NoGap(v, floor)
  {
    forall t | floor < t <= Reached(v.queue, floor) ensures CoveredBy(t, v.done) {
      if t <= Reached(w.queue, floor) {
        assert CoveredBy(t, w.done);
        var i :| i in w.done && Inside(t, i);
        assert i in v.done;
      } else {
        assert Inside(t, interval);
      }
    }
  }

  ghost predicate Run(trace: seq<World>, floor: int) {
    && trace != []
    && if |trace| == 1 then trace[0].queue == Queue(None, None) && trace[0].done == {}
       else Run(trace[..|trace| - 1], floor) && Next(trace[|trace| - 2], trace[|trace| - 1], floor)
  }

  /** In every reachable state each instant above the floor and up to the watermark lies in a completed interval. */
  lemma {:induction false} DiscoveryLeavesNoGap(trace: seq<World>, floor: int)
    requires Run(trace, floor)
    ensures NoGap(trace[|trace| - 1], floor) && Anchored(trace[|trace| - 1], floor)
  {
    hide NoGap, Anchored, Ticks;
    if |trace| == 1 {
      EmptyHasNoGap(trace[0], floor);
    } else {
      var w, v := trace[|trace| - 2], trace[|trace| - 1];
      DiscoveryLeavesNoGap(trace[..|trace| - 1], floor);
      assert trace[..|trace| - 1][|trace| - 2] == w;
      var a :| Ticks(w, v, floor, a);
      TickKeeps(w, v, floor, a);
    }
  }

  lemma EmptyHasNoGap(w: World, floor: int)
    requires w.queue == Queue(None, None)
    ensures NoGap(w, floor) && Anchored(w, floor)
  {
  }

  // ----- partitioning ends, and what it completes counts ------------------------------------------------

  /** The next tick picks up exactly the interval a refusal left, if that lies in the past. */
  lemma RefusalIsResumed(w: World, floor: int, now: int)
    requires Anchored(w, floor) && w.queue.active.Some? && !w.queue.active.value.complete
    requires w.queue.active.value.interval.before < now - 1
    ensures Rolling(w.queue, floor, now) == Some(w.queue.active.value.interval)
  {
  }

  /** A cap refusal leaves a strictly shorter interval in progress, ending above the watermark. */
  lemma CapRefusalShrinks(w: World, v: World, floor: int, a: Attempt)
    requires Anchored(w, floor) && Ticks(w, v, floor, a) && a.death == Never
    requires var chosen := Rolling(w.queue, floor, a.now);
             chosen.Some? && ScanResult(a, chosen.value).CapExceeded? && Split(chosen.value, w.queue.watermark).Some?
    ensures v.queue.active.Some?
    ensures var was, part := Rolling(w.queue, floor, a.now).value, v.queue.active.value;
            && v.queue.watermark == w.queue.watermark && !part.complete
            && part.interval.before - part.interval.after < was.before - was.after
            && Reached(w.queue, floor) < part.interval.before < a.started
  {
    RollingIsAnchored(w, floor, a.now);
    PartitionShrinks(Rolling(w.queue, floor, a.now).value, w.queue.watermark);
  }

  /** Consecutive attempts that each partition the interval the last one left. */
  ghost predicate Narrowing(trace: seq<World>, floor: int) {
    && trace != [] && Anchored(trace[0], floor) && NoGap(trace[0], floor)
    && (|trace| > 1 ==>
          && Narrowing(trace[..|trace| - 1], floor)
          && Narrows(trace[|trace| - 2], trace[|trace| - 1], floor))
  }

  ghost predicate Narrows(w: World, v: World, floor: int) {
    exists a: Attempt ::
      && Ticks(w, v, floor, a) && a.death == Never && w.queue.active.Some?
      && Rolling(w.queue, floor, a.now) == Some(w.queue.active.value.interval)
      && ScanResult(a, w.queue.active.value.interval).CapExceeded? &&
         Split(w.queue.active.value.interval, w.queue.watermark).Some?
  }

  function Width(w: World): int {
    if w.queue.active.Some? then w.queue.active.value.interval.before - w.queue.active.value.interval.after else 0
  }

  /** Partitioning terminates: n partitions in a row need an interval wider than n seconds. */
  lemma {:induction false} PartitioningTerminates(trace: seq<World>, floor: int)
    requires Narrowing(trace, floor) && |trace| > 1
    ensures 0 < Width(trace[|trace| - 1]) <= Width(trace[0]) - (|trace| - 1)
    ensures Reached(trace[0].queue, floor) == Reached(trace[|trace| - 1].queue, floor)
    ensures Reached(trace[0].queue, floor) < trace[|trace| - 1].queue.active.value.interval.before
    ensures Anchored(trace[|trace| - 1], floor) && NoGap(trace[|trace| - 1], floor)
  {
    hide Anchored, NoGap, Ticks, Rolling, Split;
    var front, w, v := trace[..|trace| - 1], trace[|trace| - 2], trace[|trace| - 1];
    if |front| > 1 {
      PartitioningTerminates(front, floor);
    }
    assert front[|front| - 1] == w && front[0] == trace[0];
    var a :| && Ticks(w, v, floor, a) && a.death == Never && w.queue.active.Some?
             && Rolling(w.queue, floor, a.now) == Some(w.queue.active.value.interval)
             && ScanResult(a, w.queue.active.value.interval).CapExceeded? &&
                Split(w.queue.active.value.interval, w.queue.watermark).Some?;
    CapRefusalShrinks(w, v, floor, a);
    TickKeeps(w, v, floor, a);
    NarrowedIsReal(v, floor);
  }

  lemma NarrowedIsReal(w: World, floor: int)
    requires Anchored(w, floor) && w.queue.active.Some?
    ensures 0 < Width(w)
  {
  }

  /** Completing an interval that ends above the watermark moves the watermark to its end. */
  lemma CompletionMovesWatermark(w: World, v: World, floor: int, a: Attempt)
    requires Anchored(w, floor) && Ticks(w, v, floor, a) && a.death == Never
    requires var chosen := Rolling(w.queue, floor, a.now);
             chosen.Some? && ScanResult(a, chosen.value).Complete? && Reached(w.queue, floor) < chosen.value.before
    ensures v.queue.watermark == Some(Rolling(w.queue, floor, a.now).value.before)
    ensures Reached(w.queue, floor) < v.queue.watermark.value
  {
  }

  /** Freshly chosen bounds end above the watermark and in the past, unless the watermark is already at the bound. */
  lemma FreshBoundsAdvance(w: World, floor: int, now: int)
    requires Anchored(w, floor) && w.clock <= now && floor < now - 1 && Reached(w.queue, floor) < now - 1
    requires !Resumable(w.queue, floor, now)
    ensures var i := Rolling(w.queue, floor, now);
            i.Some? && Reached(w.queue, floor) < i.value.before <= now - 1 &&
            (w.queue.watermark.Some? && OverlapFrom(w.queue.active).None? ==>
               i.value.after == Max(floor, w.queue.watermark.value - OVERLAP))
  {
  }

  // ----- what one attempt does, in terms of the record --------------------------------------------------

  /** The record carries a span hint: positive and at most 400 days. */
  ghost predicate Hinted(active: Option<Active>, span: int) {
    active.Some? && active.value.span == Some(span) && 0 < span <= 34_560_000
  }

  /** The bounds a tick works on: a frozen record still open, or fresh ones from the watermark. */
  ghost predicate Chooses(q: Queue, floor: int, now: int, chosen: Option<Interval>) {
    if floor >= now - 1 then chosen.None?
    else if q.active.Some? && !q.active.value.complete && floor <= q.active.value.interval.after
            && q.active.value.interval.after < q.active.value.interval.before
            && q.active.value.interval.before < now - 1 then chosen == Some(q.active.value.interval)
    else
      exists after, before ::
        && Lower(q, floor, after) && Upper(q, after, now, before)
        && chosen == if after < before then Some(Interval(after, before)) else None
  }

  /** Five minutes below the watermark, or from the point an overlap was cut to, and never below the floor. */
  ghost predicate Lower(q: Queue, floor: int, after: int) {
    match q.watermark
    case None => after == floor
    case Some(mark) =>
      && after >= floor && after >= mark - 300
      && if q.active.Some? && q.active.value.overlapFrom.Some? then
           var from := q.active.value.overlapFrom.value;
           var point := if from < mark then from else mark;
           after >= point && (after == floor || after == mark - 300 || after == point)
         else after == floor || after == mark - 300
  }

  /** A second ago, or after a partition one span above the watermark, and at least a second above the lower bound. */
  ghost predicate Upper(q: Queue, after: int, now: int, before: int) {
    && (q.watermark.None? || (forall span :: !Hinted(q.active, span)) ==> before == now - 1)
    && forall span :: q.watermark.Some? && Hinted(q.active, span) ==>
        var end := q.watermark.value + span;
        && before >= after + 1
        && (end <= now - 1 && end > after ==> before == end)
        && (end > now - 1 && now - 1 > after ==> before == now - 1)
        && (end <= after || now - 1 <= after ==> before == after + 1)
  }

  /** The record made durable before the first read. */
  ghost predicate Frozen(was: Option<Active>, i: Interval, x: Active) {
    if was.Some? && was.value.interval == i && !was.value.flagged then x == was.value
    else
      && x.interval == i && (x.complete <==> was.Some? && was.value.interval == i && was.value.complete)
      && Carried(was, x) && (x.flagged <==> x.span.Some? && !x.complete)
  }

  /** The hints of the old record, as far as they are valid. */
  ghost predicate Carried(was: Option<Active>, x: Active) {
    && (forall span :: x.span == Some(span) <==> Hinted(was, span))
    && x.overlapFrom == if was.Some? then was.value.overlapFrom else None
  }

  /**
   The record of a completed interval: the span doubled until the present is reached again, a passed overlap dropped.
   */
  ghost predicate Finished(was: Option<Active>, i: Interval, ended: int, x: Active) {
    && x.interval == i && x.complete && !x.flagged
    && (forall span :: Hinted(was, span) && i.before < ended - 721 ==>
          x.span == Some(if span * 2 < 34_560_000 then span * 2 else 34_560_000))
    && ((forall span :: !Hinted(was, span)) || i.before >= ended - 721 ==> x.span == None)
    && match (if was.Some? then was.value.overlapFrom else None)
       case None => x.overlapFrom == None
       case Some(from) => x.overlapFrom == if from <= i.before - 300 then None else Some(from)
  }

  /** The record of an interval over the cap: halved above the watermark, or cut to what lies above it. */
  ghost predicate Partitioned(was: Option<Active>, i: Interval, mark: Option<int>, frozen: Active, x: Active) {
    var low := if mark.Some? && mark.value > i.after then mark.value else i.after;
    && !x.complete && x.flagged
    && if i.before - low >= 2 then
         && x.interval == Interval(i.after, low + (i.before - low) / 2) && x.span == Some((i.before - low) / 2)
         && x.overlapFrom == if was.Some? then was.value.overlapFrom else None
       else if i.before - low == 1 && i.after < low then
         x.interval == Interval(low, i.before) && x.span == Some(1) && x.overlapFrom == Some(low)
       else x == frozen.(complete := false, flagged := true)
  }

  /** What the durable queue is after an attempt over an interval. */
  ghost predicate Attempts(q: Queue, i: Interval, a: Attempt, v: Queue, done: Option<Interval>) {
    if a.death == BeforeBounds then v == q && done.None?
    else
      v.active.Some? && exists frozen: Active ::
        && Frozen(q.active, i, frozen)
        && if a.death == InScan then v == q.(active := Some(frozen)) && done.None?
           else if i.before >= a.started || a.outcome == OtherRefusal then
             v == q.(active := Some(frozen.(complete := false, flagged := true))) && done.None?
           else match a.outcome
                case Complete =>
                  && Finished(q.active, i, a.ended, v.active.value) && done == Some(i)
                  && (a.death == BeforeWatermark ==> v.watermark == q.watermark)
                  && (a.death == Never ==>
                        v.watermark == if q.watermark.Some? && q.watermark.value > i.before then q.watermark
                                       else Some(i.before))
                case Incomplete =>
                  && v.watermark == q.watermark && v.active.value.interval == i && !v.active.value.complete
                  && !v.active.value.flagged && Carried(q.active, v.active.value) && done.None?
                case CapExceeded =>
                  && v.watermark == q.watermark && done.None?
                  && Partitioned(q.active, i, q.watermark, frozen, v.active.value)
                case OtherRefusal => true
  }

  lemma HintIs(active: Option<Active>)
    ensures forall span :: Hinted(active, span) <==> Span(active) == Some(span)
    ensures Span(active).None? <==> forall span :: !Hinted(active, span)
  {
    if Span(active).Some? {
      assert Hinted(active, Span(active).value);
    }
  }

  lemma ChoiceIs(q: Queue, floor: int, now: int)
    ensures Chooses(q, floor, now, Rolling(q, floor, now))
  {
    if floor < now - 1 && !Resumable(q, floor, now) {
      HintIs(q.active);
      var after := LowerBound(q, floor);
      var before := UpperBound(q, after, now);
      assert Lower(q, floor, after) && Upper(q, after, now, before);
    }
  }

  /** A tick chooses its bounds as it should, and without any it only reopens the record; with some it attempts them. */
  lemma AttemptIs(q: Queue, floor: int, a: Attempt)
    ensures exists chosen ::
              && Chooses(q, floor, a.now, chosen)
              && if chosen.Some? then Attempts(q, chosen.value, a, After(q, floor, a), Completed(q, floor, a))
                 else
                   && Completed(q, floor, a).None?
                   && After(q, floor, a) == if q.active.Some? then
                      q.(active := Some(q.active.value.(complete := false)))
                                            else q
  {
    hide Chooses, Rolling, Attempts;
    ChoiceIs(q, floor, a.now);
    var chosen := Rolling(q, floor, a.now);
    assert Chooses(q, floor, a.now, chosen);
    if chosen.Some? {
      AttemptsIs(q, floor, a, chosen.value);
    }
  }

  lemma AttemptsIs(q: Queue, floor: int, a: Attempt, i: Interval)
    requires Rolling(q, floor, a.now) == Some(i)
    ensures Attempts(q, i, a, After(q, floor, a), Completed(q, floor, a))
  {
    hide Rolling, Partitioned, Finished, Carried, Frozen, Refuse, Summarize, Freeze;
    if a.death != BeforeBounds {
      var frozen := Freeze(q, i);
      FreezeIs(q, i);
      assert frozen.active.Some? && Frozen(q.active, i, frozen.active.value);
      SummaryIs(frozen, q.active, i, a.ended);
      RefusalIs(frozen, q.active, i);
    }
  }

  lemma FreezeIs(q: Queue, i: Interval)
    ensures Freeze(q, i).active.Some? && Frozen(q.active, i, Freeze(q, i).active.value)
    ensures Freeze(q, i) == q.(active := Freeze(q, i).active)
  {
  }

  lemma SummaryIs(q: Queue, was: Option<Active>, i: Interval, ended: int)
    ensures var v := Summarize(q, was, i, true, ended);
            v.active.Some? && v == q.(active := v.active) && Finished(was, i, ended, v.active.value)
    ensures var v := Summarize(q, was, i, false, ended);
            && v.active.Some? && v == q.(active := v.active) && Carried(was, v.active.value)
            && v.active.value.interval == i && !v.active.value.complete && !v.active.value.flagged
  {
    HintIs(was);
  }

  lemma RefusalIs(q: Queue, was: Option<Active>, i: Interval)
    requires q.active.Some?
    ensures var v := Refuse(q, was, i, true);
            && v.active.Some? && v == q.(active := v.active)
            && Partitioned(was, i, q.watermark, q.active.value, v.active.value)
    ensures Refuse(q, was, i, false) == q.(active := Some(q.active.value.(complete := false, flagged := true)))
  {
  }
}
