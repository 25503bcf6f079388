/** What the operations of the rank-4 queue do, said of the fields of its items, holds and histories alone. */
module RankFourLaws {
  import opened Prelude
  import opened RankFour

  // ----- owners and units -------------------------------------------------------------------------------

  /** A vendor run may be under way for the item. */
  ghost predicate Owns(i: Item) {
    || i.vendor == VendorLive || i.vendor == VendorUnknown || i.run.Some?
    || i.state == Reviewing || i.state == LaunchUnknown
  }

  ghost function UnitAt(i: Item, path: Path): string {
    if path in i.lineages then i.lineages[path] else path
  }

  ghost predicate UnitOf(i: Item, unit: string) {
    exists r <- i.scope :: UnitAt(i, r.path) == unit
  }

  /** What is on record under a name; nothing is an empty history. */
  ghost function Recorded(m: map<string, History>, name: string): History {
    if name in m then m[name] else History(0, false, None)
  }

  /** The histories an item is judged by: its family's and those of the units of its paths. */
  ghost predicate JudgedBy(families: map<string, History>, scopes: map<string, History>, i: Item, h: History) {
    h == Recorded(families, i.family) || exists unit :: UnitOf(i, unit) && h == Recorded(scopes, unit)
  }

  lemma UnitsAre(i: Item)
    ensures forall unit :: unit in Units(i) <==> UnitOf(i, unit)
  {
  }

  lemma QuarantineIs(families: map<string, History>, scopes: map<string, History>, i: Item)
    ensures InQuarantine(families, scopes, i) <==> exists h :: JudgedBy(families, scopes, i, h) && h.quarantined
  {
    UnitsAre(i);
    hide Units, UnitOf;
    if InQuarantine(families, scopes, i) && !HistoryAt(families, i.family).quarantined {
      var u :| u in Units(i) && HistoryAt(scopes, u).quarantined;
      assert JudgedBy(families, scopes, i, Recorded(scopes, u));
    } else if InQuarantine(families, scopes, i) {
      assert JudgedBy(families, scopes, i, Recorded(families, i.family));
    }
  }

  /** The latest time among those the item is judged by. */
  ghost predicate LatestWait(families: map<string, History>, scopes: map<string, History>, i: Item, wait: Option<int>) {
    && (wait.Some? ==> exists h :: JudgedBy(families, scopes, i, h) && h.nextAt == wait)
    && forall h :: JudgedBy(families, scopes, i, h) && h.nextAt.Some? ==> wait.Some? && h.nextAt.value <= wait.value
  }

  lemma {:induction false} LatestOfIs(scopes: map<string, History>, rows: seq<Row>, i: Item)
    ensures var wait := LatestOf(scopes, rows, i);
            && (wait.Some? ==> exists r <- rows :: Recorded(scopes, UnitAt(i, r.path)).nextAt == wait)
            && forall r <- rows :: Recorded(scopes, UnitAt(i, r.path)).nextAt.Some? ==>
                 wait.Some? && Recorded(scopes, UnitAt(i, r.path)).nextAt.value <= wait.value
  {
    if rows != [] {
      var front, last := rows[..|rows| - 1], rows[|rows| - 1];
      assert rows == front + [last];
      LatestOfIs(scopes, front, i);
      var wait, before := LatestOf(scopes, rows, i), LatestOf(scopes, front, i);
      if wait.Some? {
        if wait == before {
          var r :| r in front && Recorded(scopes, UnitAt(i, r.path)).nextAt == wait;
          assert r in rows;
        } else {
          assert last in rows;
        }
      }
    }
  }

  lemma LatestIs(families: map<string, History>, scopes: map<string, History>, i: Item)
    ensures LatestWait(families, scopes, i, LatestDeadline(families, scopes, i))
  {
    LatestOfIs(scopes, i.scope, i);
    var wait := LatestDeadline(families, scopes, i);
    hide LatestOf;
    if wait.Some? {
      if wait == HistoryAt(families, i.family).nextAt {
        assert JudgedBy(families, scopes, i, Recorded(families, i.family));
      } else {
        var r :| r in i.scope && Recorded(scopes, UnitAt(i, r.path)).nextAt == wait;
        assert UnitOf(i, UnitAt(i, r.path));
        assert JudgedBy(families, scopes, i, Recorded(scopes, UnitAt(i, r.path)));
      }
    }
  }

  // ----- the end of a run -------------------------------------------------------------------------------

  /** Seconds to wait after the n-th failure in a row: doubled from an hour, but a day from the sixth on. */
  ghost function Delay(n: nat): nat {
    if n <= 1 then 3600 else if n == 2 then 7200 else if n == 3 then 14400 else if n == 4 then 28800
    else if n == 5 then 57600 else 86400
  }

  /** A history with one failure more. */
  ghost predicate Worse(h: History, h': History, at: int, outcome: Outcome, retryAfter: nat) {
    && h'.failures == h.failures + 1
    && (h'.quarantined <==>
        h.quarantined || h'.failures >= 6 || outcome.Auth? || outcome.Integrity? || outcome.Unsupported?
        || outcome.SecretScan?)
    && h'.nextAt == Some(at + Max(retryAfter, Delay(h'.failures)))
  }

  lemma DelayIs(n: nat, retryAfter: nat)
    requires n >= 1
    ensures Backoff(n, retryAfter) == Max(retryAfter, Delay(n))
  {
    assert Power(2, 1) == 2 && Power(2, 2) == 4;
    assert Power(2, 3) == 8;
    assert Power(2, 4) == 16;
    assert Power(2, 5) == 32;
  }

  lemma FailIsWorse(h: History, at: int, outcome: Outcome, retryAfter: nat)
    ensures Worse(h, Fail(h, at, outcome, retryAfter), at, outcome, retryAfter)
  {
    DelayIs(h.failures + 1, retryAfter);
    hide Backoff, Delay;
  }

  ghost predicate OnlyItem(items: seq<Item>, items': seq<Item>, k: nat) {
    |items'| == |items| && forall j :: 0 <= j < |items| && j != k ==> items'[j] == items[j]
  }

  /** The hold of the item's attempt notes that its run is over; no other hold changes. */
  ghost predicate HoldOver(holds: map<Attempt, Hold>, holds': map<Attempt, Hold>, i: Item, at: int) {
    holds'.Keys == holds.Keys &&
    forall a <- holds :: holds'[a] == if i.attemptId == Some(a) then holds[a].(terminalAt := Some(at)) else holds[a]
  }

  /** Every history the item is judged by has one failure more, and no other history changes. */
  ghost predicate AllWorse(w: World, w': World, i: Item, at: int, outcome: Outcome, retryAfter: nat) {
    && (forall f ::
          if f == i.family then Worse(Recorded(w.families, f), Recorded(w'.families, f), at, outcome, retryAfter)
          else Recorded(w'.families, f) == Recorded(w.families, f))
    && (forall u ::
          if UnitOf(i, u) then Worse(Recorded(w.scopes, u), Recorded(w'.scopes, u), at, outcome, retryAfter)
          else Recorded(w'.scopes, u) == Recorded(w.scopes, u))
  }

  /** A failed item waits as long as any history it is judged by, unless it is out of tries. */
  ghost predicate FailedItem(w': World, i: Item, x: Item) {
    && x == i.(vendor := VendorTerminal, run := None, failures := i.failures + 1, state := x.state,
               notBefore := x.notBefore)
    && LatestWait(w'.families, w'.scopes, i, x.notBefore)
    && x.state == if exists h :: JudgedBy(w'.families, w'.scopes, i, h) && h.quarantined then Quarantined
                  else if i.failures + 1 >= 3 then Blocked else Pending
  }

  /** The outcome of a run: unknown until the vendor confirms it, then completed or a failure on every record. */
  ghost predicate Terminates(w: World, w': World, k: nat, at: int, outcome: Outcome, confirmed: bool, retryAfter: nat)
    requires k < |w.items|
  {
    var i := w.items[k];
    OnlyItem(w.items, w'.items, k) && w'.admitting == w.admitting &&
    if !confirmed then
      && w'.items[k] == i.(vendor := VendorUnknown, state := LaunchUnknown)
      && w'.holds == w.holds && w'.families == w.families && w'.scopes == w.scopes
    else
      HoldOver(w.holds, w'.holds, i, at) &&
      if outcome.Completed? then
        && w'.items[k] == i.(vendor := VendorTerminal, run := None, state := PublicationPending)
        && w'.families == w.families && w'.scopes == w.scopes
      else AllWorse(w, w', i, at, outcome, retryAfter) && FailedItem(w', i, w'.items[k])
  }

  lemma EndedHold(holds: map<Attempt, Hold>, i: Item, at: int)
    ensures HoldOver(holds, HoldEnded(holds, i, at), i, at)
  {
  }

  lemma SameJudges(families: map<string, History>, scopes: map<string, History>, i: Item, j: Item)
    requires i.scope == j.scope && i.lineages == j.lineages && i.family == j.family
    ensures forall h :: JudgedBy(families, scopes, i, h) <==> JudgedBy(families, scopes, j, h)
  {
    assert forall unit :: UnitOf(i, unit) <==> UnitOf(j, unit) by {
      UnitsAre(i);
      UnitsAre(j);
    }
    hide UnitOf;
  }

  lemma FailFamilyIs(families: map<string, History>, family: string, at: int, o: Outcome, retryAfter: nat)
    ensures var r := FailFamily(WithFamily(families, family), family, at, o, retryAfter);
            forall f :: if f == family then Worse(Recorded(families, f), Recorded(r, f), at, o, retryAfter)
                        else Recorded(r, f) == Recorded(families, f)
  {
    FailIsWorse(HistoryAt(families, family), at, o, retryAfter);
    hide Worse, Fail;
    var r := FailFamily(WithFamily(families, family), family, at, o, retryAfter);
    forall f ensures Recorded(r, f) == if f == family then Fail(Recorded(families, f), at, o, retryAfter)
                                       else Recorded(families, f) {
      assert HistoryAt(r, f) == Recorded(r, f) && HistoryAt(families, f) == Recorded(families, f);
    }
  }

  lemma FailUnitsAre(scopes: map<string, History>, i: Item, at: int, o: Outcome, retryAfter: nat)
    ensures var r := FailUnits(WithUnits(scopes, Units(i)), Units(i), at, o, retryAfter);
            forall u :: if UnitOf(i, u) then Worse(Recorded(scopes, u), Recorded(r, u), at, o, retryAfter)
                        else Recorded(r, u) == Recorded(scopes, u)
  {
    UnitsAre(i);
    UnitsFail(scopes, Units(i), at, o, retryAfter);
    var r := FailUnits(WithUnits(scopes, Units(i)), Units(i), at, o, retryAfter);
    hide FailUnits, WithUnits, Units, UnitOf, Worse, Fail;
    forall u ensures if UnitOf(i, u) then Worse(Recorded(scopes, u), Recorded(r, u), at, o, retryAfter)
                     else Recorded(r, u) == Recorded(scopes, u) {
      assert HistoryAt(r, u) == Recorded(r, u) && HistoryAt(scopes, u) == Recorded(scopes, u);
      FailIsWorse(HistoryAt(scopes, u), at, o, retryAfter);
    }
  }

  lemma FailOfIs(w: World, k: nat, at: int, outcome: Outcome, retryAfter: nat)
    requires k < |w.items| && w.items[k].vendor == VendorTerminal && w.items[k].run.None?
    ensures var w', i := FailOf(w, k, at, outcome, retryAfter), w.items[k];
            && OnlyItem(w.items, w'.items, k) && w'.admitting == w.admitting && w'.holds == w.holds
            && AllWorse(w, w', i, at, outcome, retryAfter) && FailedItem(w', i, w'.items[k])
  {
    hide FailFamily, FailUnits, WithFamily, WithUnits, InQuarantine, LatestDeadline, Units, UnitOf, JudgedBy, Worse;
    hide LatestWait;
    var w', i := FailOf(w, k, at, outcome, retryAfter), w.items[k].(failures := w.items[k].failures + 1);
    FailFamilyIs(w.families, i.family, at, outcome, retryAfter);
    FailUnitsAre(w.scopes, i, at, outcome, retryAfter);
    QuarantineIs(w'.families, w'.scopes, i);
    LatestIs(w'.families, w'.scopes, i);
    JudgesStay(w'.families, w'.scopes, i, w.items[k], LatestDeadline(w'.families, w'.scopes, i));
  }

  lemma JudgesStay(families: map<string, History>, scopes: map<string, History>, i: Item, j: Item, wait: Option<int>)
    requires i.scope == j.scope && i.lineages == j.lineages && i.family == j.family
    ensures forall u :: UnitOf(i, u) <==> UnitOf(j, u)
    ensures LatestWait(families, scopes, i, wait) <==> LatestWait(families, scopes, j, wait)
    ensures (exists h :: JudgedBy(families, scopes, i, h) && h.quarantined) <==>
              exists h :: JudgedBy(families, scopes, j, h) && h.quarantined
  {
    UnitsAre(i);
    UnitsAre(j);
    SameUnits(i, j);
    SameJudges(families, scopes, i, j);
    hide UnitOf, JudgedBy, Units;
  }

  /** The end of a run does exactly this. */
  lemma TerminalIs(w: World, k: nat, at: int, outcome: Outcome, confirmed: bool, retryAfter: nat)
    requires k < |w.items|
    ensures Terminates(w, TerminalOf(w, k, at, outcome, confirmed, retryAfter), k, at, outcome, confirmed, retryAfter)
  {
    hide FailOf, HoldEnded, HoldOver, AllWorse, FailedItem;
    var i := w.items[k];
    EndedHold(w.holds, i, at);
    if confirmed && outcome != Completed {
      var ended := Put(w, k, i.(vendor := VendorTerminal, run := None)).(holds := HoldEnded(w.holds, i, at));
      FailOfIs(ended, k, at, outcome, retryAfter);
      EndedFails(w, ended, TerminalOf(w, k, at, outcome, confirmed, retryAfter), k, at, outcome, retryAfter);
    }
  }

  lemma EndedFails(w: World, ended: World, w': World, k: nat, at: int, outcome: Outcome, retryAfter: nat)
    requires k < |w.items| && k < |ended.items| && k < |w'.items|
    requires ended.families == w.families && ended.scopes == w.scopes
    requires ended.items[k] == w.items[k].(vendor := VendorTerminal, run := None)
    requires AllWorse(ended, w', ended.items[k], at, outcome, retryAfter)
    requires FailedItem(w', ended.items[k], w'.items[k])
    ensures AllWorse(w, w', w.items[k], at, outcome, retryAfter) && FailedItem(w', w.items[k], w'.items[k])
  {
    JudgesStay(w'.families, w'.scopes, ended.items[k], w.items[k], w'.items[k].notBefore);
    hide UnitOf, JudgedBy, LatestWait, Worse;
  }

  // ----- admission --------------------------------------------------------------------------------------

  /** Holds made or consumed that the observation does not show yet. */
  ghost function Unseen(holds: map<Attempt, Hold>, reflected: set<Attempt>): set<Attempt> {
    set a | a in holds && a !in reflected && !holds[a].quota.Released? && !holds[a].quota.Expired?
  }

  ghost predicate Readable(at: int, o: Observation) {
    o.observedAt.Some? && 0 <= at - o.observedAt.value <= 180 && o.remaining.Some? && o.remaining.value >= 0
  }

  /** Why an item is or is not admitted, the first reason that applies. */
  ghost predicate Decides(holds: map<Attempt, Hold>, at: int, observation: Option<Observation>, ordinary: bool,
                          inflight: nat, d: Decision) {
    if ordinary then d == OrdinaryEligible
    else if observation.None? || !observation.value.successful then d == UsageUnknown
    else
      var o := observation.value;
      if !Readable(at, o) then d == UsageStale
      else if o.remaining.value - |Unseen(holds, o.reflected)| <= 1 then d == OneSlotReserve
      else d == if inflight < 2 then Admit else InflightCap
  }

  lemma GateIs(holds: map<Attempt, Hold>, at: int, observation: Option<Observation>, ordinary: bool, inflight: nat)
    ensures Decides(holds, at, observation, ordinary, inflight, Gate(holds, at, observation, ordinary, inflight))
  {
    if observation.Some? {
      assert Unseen(holds, observation.value.reflected) == Unreflected(holds, observation.value.reflected);
    }
  }

  ghost function InFlightItems(items: seq<Item>): set<nat> {
    set k: nat | k < |items| && (items[k].kind.Backfill? || items[k].kind.Coverage?) && Owns(items[k])
  }

  /** The owners counted are the rank-4 items a vendor run may be under way for. */
  lemma {:induction false} OwnersAre(items: seq<Item>)
    ensures Owners(items) == |InFlightItems(items)|
  {
    if items == [] {
      assert InFlightItems(items) == {};
    } else {
      var n := |items| - 1;
      OwnersAre(items[..n]);
      var last := items[n];
      var here: set<nat> := if (last.kind.Backfill? || last.kind.Coverage?) && Owns(last) then {n} else {};
      assert InFlightItems(items) == InFlightItems(items[..n]) + here;
      assert here != {} <==> InFlight(last);
    }
  }

  // ----- a refusal for want of quota --------------------------------------------------------------------

  /** The latest of the times on record and the refusal's own. */
  ghost predicate LatestOfAll(w: World, i: Item, at: int, retrySeconds: nat, cooldown: Option<int>, until: int) {
    var own := at + if retrySeconds > 0 then retrySeconds else 3600;
    && until >= own && (i.notBefore.Some? ==> until >= i.notBefore.value)
    && (cooldown.Some? ==> until >= cooldown.value)
    && (forall h :: JudgedBy(w.families, w.scopes, i, h) && h.nextAt.Some? ==> until >= h.nextAt.value)
    && (|| until == own || i.notBefore == Some(until) || cooldown == Some(until)
        || exists h :: JudgedBy(w.families, w.scopes, i, h) && h.nextAt == Some(until))
  }

  ghost predicate Defers(w: World, w': World, k: nat, at: int, until: int)
    requires k < |w.items|
  {
    var i := w.items[k];
    && OnlyItem(w.items, w'.items, k) && w'.admitting == w.admitting && HoldOver(w.holds, w'.holds, i, at)
    && w'.items[k] == i.(vendor := VendorTerminal, run := None, state := Pending, notBefore := Some(until))
    && (forall f :: Recorded(w'.families, f) ==
                    if f == i.family then Recorded(w.families, f).(nextAt := Some(until)) else Recorded(w.families, f))
    && (forall u ::
          if UnitOf(i, u) then Recorded(w'.scopes, u) == Recorded(w.scopes, u).(nextAt := Some(until))
          else Recorded(w'.scopes, u) == Recorded(w.scopes, u))
  }

  lemma KnownJudges(families: map<string, History>, scopes: map<string, History>, i: Item, units: set<string>)
    ensures forall h :: JudgedBy(WithFamily(families, i.family), WithUnits(scopes, units), i, h) <==>
                        JudgedBy(families, scopes, i, h)
  {
    hide UnitOf;
    var families', scopes' := WithFamily(families, i.family), WithUnits(scopes, units);
    forall f ensures Recorded(families', f) == Recorded(families, f) {
      assert HistoryAt(families', f) == HistoryAt(families, f);
    }
    forall u ensures Recorded(scopes', u) == Recorded(scopes, u) {
      assert HistoryAt(scopes', u) == HistoryAt(scopes, u);
    }
  }

  lemma WaitIsLatest(w: World, i: Item, at: int, retrySeconds: nat, cooldown: Option<int>)
    ensures var families, scopes := WithFamily(w.families, i.family), WithUnits(w.scopes, Units(i));
            LatestOfAll(w, i, at, retrySeconds, cooldown,
                        WaitUntil(families, scopes, i, at, retrySeconds, cooldown))
  {
    var families, scopes := WithFamily(w.families, i.family), WithUnits(w.scopes, Units(i));
    LatestIs(families, scopes, i);
    KnownJudges(w.families, w.scopes, i, Units(i));
    hide JudgedBy, LatestDeadline, WithFamily, WithUnits, Units;
  }

  lemma DelayedUnits(scopes: map<string, History>, i: Item, until: int)
    ensures var r := DelayUnits(WithUnits(scopes, Units(i)), Units(i), until);
            forall u :: if UnitOf(i, u) then Recorded(r, u) == Recorded(scopes, u).(nextAt := Some(until))
                        else Recorded(r, u) == Recorded(scopes, u)
  {
    UnitsAre(i);
    var known := WithUnits(scopes, Units(i));
    var r := DelayUnits(known, Units(i), until);
    hide UnitOf, Units, DelayUnits, WithUnits;
    forall u ensures Recorded(r, u) == if u in Units(i) then Recorded(scopes, u).(nextAt := Some(until))
                                       else Recorded(scopes, u) {
      assert HistoryAt(r, u) == Recorded(r, u) && HistoryAt(scopes, u) == Recorded(scopes, u);
      assert HistoryAt(known, u) == HistoryAt(scopes, u);
    }
  }

  /** A deferral waits for exactly the latest of all times on record, and records that. */
  lemma DeferIs(w: World, k: nat, at: int, retrySeconds: nat, cooldown: Option<int>)
    requires k < |w.items|
    ensures var w' := DeferOf(w, k, at, retrySeconds, cooldown);
            && w'.items[k].notBefore.Some?
            && Defers(w, w', k, at, w'.items[k].notBefore.value)
            && LatestOfAll(w, w.items[k], at, retrySeconds, cooldown, w'.items[k].notBefore.value)
  {
    var i := w.items[k];
    var families := WithFamily(w.families, i.family);
    var until := WaitUntil(families, WithUnits(w.scopes, Units(i)), i, at, retrySeconds, cooldown);
    WaitIsLatest(w, i, at, retrySeconds, cooldown);
    DelayedUnits(w.scopes, i, until);
    EndedHold(w.holds, i, at);
    hide WaitUntil, DelayUnits, WithUnits, Units, UnitOf, HoldEnded, HoldOver, LatestOfAll;
    forall f ensures Recorded(families, f) == Recorded(w.families, f) {
      assert HistoryAt(families, f) == HistoryAt(w.families, f);
    }
  }

  // ----- an acknowledged completion ---------------------------------------------------------------------

  /** The credit for the last row of that path and blob. */
  ghost predicate CreditFor(credited: seq<Row>, path: Path, blob: string, line: int) {
    exists m :: 0 <= m < |credited| && credited[m].path == path && credited[m].blob == blob &&
        line in credited[m].lines &&
      forall n :: m < n < |credited| ==> credited[n].path != path || credited[n].blob != blob
  }

  ghost predicate Covered(credited: seq<Row>, r: Row) {
    forall line <- r.lines :: CreditFor(credited, r.path, r.blob, line)
  }

  /** Another item of the family that is not over, nor an earlier try at the same scope that was given up. */
  ghost predicate StillOpen(i: Item, j: Item) {
    && j.family == i.family && !j.state.Done? && !j.state.Skipped?
    && !((j.state.Blocked? || j.state.Failed?) && !Owns(j) && j.scope == i.scope && j.generation < i.generation)
  }

  ghost predicate AnyOpen(items: seq<Item>, k: nat)
    requires k < |items|
  {
    exists j :: 0 <= j < |items| && j != k && StillOpen(items[k], items[j])
  }

  /** The units of covered rows are forgotten; the family too when all are covered and nothing of it is open. */
  ghost predicate Completes(w: World, w': World, k: nat, credited: seq<Row>)
    requires k < |w.items|
  {
    var i := w.items[k];
    var whole := forall r <- i.scope :: Covered(credited, r);
    && OnlyItem(w.items, w'.items, k) && w'.items[k] == i.(state := if whole then Done else Partial)
    && w'.holds == w.holds && w'.admitting == w.admitting
    && (forall u :: u in w'.scopes <==>
          u in w.scopes && !exists r <- i.scope :: Covered(credited, r) && UnitAt(i, r.path) == u)
    && (forall u <- w'.scopes :: w'.scopes[u] == w.scopes[u])
    && (forall f :: f in w'.families <==> f in w.families && !(f == i.family && whole && !AnyOpen(w.items, k)))
    && (forall f <- w'.families :: w'.families[f] == w.families[f])
  }

  lemma CreditStays(front: seq<Row>, last: Row, path: Path, blob: string, line: int)
    requires CreditFor(front, path, blob, line) && (last.path != path || last.blob != blob)
    ensures CreditFor(front + [last], path, blob, line)
  {
    var m :| 0 <= m < |front| && front[m].path == path && front[m].blob == blob && line in front[m].lines
             && forall p :: m < p < |front| ==> front[p].path != path || front[p].blob != blob;
    assert (front + [last])[m] == front[m];
  }

  lemma CreditWas(front: seq<Row>, last: Row, path: Path, blob: string, line: int)
    requires CreditFor(front + [last], path, blob, line) && (last.path != path || last.blob != blob)
    ensures CreditFor(front, path, blob, line)
  {
    var all := front + [last];
    var m :| 0 <= m < |all| && all[m].path == path && all[m].blob == blob && line in all[m].lines
             && forall p :: m < p < |all| ==> all[p].path != path || all[p].blob != blob;
    assert front[m] == all[m];
    forall p | m < p < |front| ensures front[p].path != path || front[p].blob != blob {
      assert all[p] == front[p];
    }
  }

  lemma CreditSnoc(front: seq<Row>, last: Row, path: Path, blob: string, line: int)
    ensures CreditFor(front + [last], path, blob, line) <==>
              if last.path == path && last.blob == blob then line in last.lines else CreditFor(front, path, blob, line)
  {
    if last.path == path && last.blob == blob {
      var all, n := front + [last], |front|;
      assert all[n] == last;
    } else if CreditFor(front, path, blob, line) {
      CreditStays(front, last, path, blob, line);
    } else if CreditFor(front + [last], path, blob, line) {
      CreditWas(front, last, path, blob, line);
    }
  }

  lemma {:induction false} CreditIs(credited: seq<Row>, path: Path, blob: string, line: int)
    ensures line in CreditAt(credited, path, blob) <==> CreditFor(credited, path, blob, line)
  {
    if credited != [] {
      var n := |credited| - 1;
      hide CreditFor;
      CreditIs(credited[..n], path, blob, line);
      CreditSnoc(credited[..n], credited[n], path, blob, line);
      assert credited == credited[..n] + [credited[n]];
    }
  }

  lemma CoveredIs(credited: seq<Row>, r: Row)
    ensures RowCredited(credited, r) <==> Covered(credited, r)
  {
    hide CreditAt, CreditFor;
    if RowCredited(credited, r) {
      forall line | line in r.lines ensures CreditFor(credited, r.path, r.blob, line) {
        CreditIs(credited, r.path, r.blob, line);
      }
    }
    if Covered(credited, r) {
      forall line | line in r.lines ensures line in CreditAt(credited, r.path, r.blob) {
        CreditIs(credited, r.path, r.blob, line);
      }
    }
  }

  lemma OpenIs(items: seq<Item>, k: nat)
    requires k < |items|
    ensures HasSibling(items, k, |items|) <==> AnyOpen(items, k)
  {
    forall j | 0 <= j < |items| ensures Sibling(items[k], items[j]) <==> StillOpen(items[k], items[j]) {
    }
    hide Sibling, StillOpen;
  }

  /** A completion does exactly this. */
  lemma PublishedIs(w: World, k: nat, credited: seq<Row>)
    requires k < |w.items|
    ensures Completes(w, PublishedOf(w, k, credited), k, credited)
  {
    hide RowCredited, Covered, HasSibling, AnyOpen;
    var i := w.items[k];
    forall r ensures RowCredited(credited, r) <==> Covered(credited, r) {
      CoveredIs(credited, r);
    }
    OpenIs(w.items, k);
    assert forall u :: u in CompletedUnits(i, credited) <==>
                       exists r <- i.scope :: Covered(credited, r) && UnitAt(i, r.path) == u;
    hide CompletedUnits;
  }

  // ----- queueing ---------------------------------------------------------------------------------------

  /** The item may yet review this very scope at this target. */
  ghost predicate OwnsScope(i: Item, partition: Item) {
    && (Owns(i) || i.state == Pending || i.state == PublicationPending)
    && i.target == partition.target && i.scope == partition.scope
  }

  ghost predicate Answers(i: Item, partition: Item) {
    i.job == partition.job || OwnsScope(i, partition)
  }

  /** A new job: waiting, or in quarantine where a record it is judged by is; its records exist from now on. */
  ghost predicate Joins(w: World, w': World, partition: Item) {
    && |w'.items| == |w.items| + 1 && w'.items[..|w.items|] == w.items
    && w'.holds == w.holds && w'.admitting == w.admitting
    && w'.families.Keys == w.families.Keys + {partition.family}
    && (forall u :: u in w'.scopes <==> u in w.scopes || UnitOf(partition, u))
    && (forall f :: Recorded(w'.families, f) == Recorded(w.families, f))
    && (forall u :: Recorded(w'.scopes, u) == Recorded(w.scopes, u))
    && w'.items[|w.items|] == partition.(
         kind := Backfill, vendor := NoVendor, run := None, attempt := 0, attemptId := None, failures := 0,
         notBefore := None,
         state := if exists h :: JudgedBy(w.families, w.scopes, partition, h) && h.quarantined then Quarantined
                  else Pending)
  }

  /** The first item that answers for a partition decides; where none does the job is new. */
  ghost predicate Queues(w: World, w': World, partition: Item, r: Result<nat, Refusal>) {
    if exists i <- w.items :: Answers(i, partition) then
      w' == w && exists k ::
        && 0 <= k < |w.items| && Answers(w.items[k], partition)
        && (forall j :: 0 <= j < k ==> !Answers(w.items[j], partition))
        && r == if w.items[k].job == partition.job && w.items[k].scope != partition.scope then Err(ScopeConflict)
           else Ok(k)
    else r == Ok(|w.items|) && Joins(w, w', partition)
  }

  lemma {:induction false} StandsFirst(items: seq<Item>, partition: Item, k: nat)
    requires k <= |items| && forall j :: 0 <= j < k ==> !Answers(items[j], partition)
    ensures var s := Standing(items, partition, k);
            && (s.None? <==> forall i <- items :: !Answers(i, partition))
            && (s.Some? ==> exists m ::
                  && 0 <= m < |items| && Answers(items[m], partition)
                  && (forall j :: 0 <= j < m ==> !Answers(items[j], partition))
                  && s.value == if items[m].job == partition.job && items[m].scope != partition.scope
                                then Err(ScopeConflict) else Ok(m))
    decreases |items| - k
  {
    if k < |items| {
      assert Answers(items[k], partition) <==> items[k].job == partition.job || SameScopeOwner(items[k], partition);
      hide Answers, SameScopeOwner;
      if Answers(items[k], partition) {
        assert items[k] in items;
      } else {
        StandsFirst(items, partition, k + 1);
      }
    }
  }

  lemma RecordsKnown(families: map<string, History>, scopes: map<string, History>, i: Item)
    ensures var families', scopes' := WithFamily(families, i.family), WithUnits(scopes, Units(i));
            && families'.Keys == families.Keys + {i.family} && scopes'.Keys == scopes.Keys + Units(i)
            && (forall f :: Recorded(families', f) == Recorded(families, f))
            && (forall u :: Recorded(scopes', u) == Recorded(scopes, u))
  {
    hide Units;
    var families', scopes' := WithFamily(families, i.family), WithUnits(scopes, Units(i));
    forall u ensures Recorded(scopes', u) == Recorded(scopes, u) {
      assert HistoryAt(scopes', u) == HistoryAt(scopes, u);
    }
  }

  lemma JobJoins(w: World, partition: Item)
    requires Standing(w.items, partition, 0).None?
    ensures Joins(w, EnqueueOf(w, partition), partition)
  {
    hide WithFamily, WithUnits, Units, UnitOf, JudgedBy, InQuarantine, Standing, Recorded;
    var i := JobOf(partition);
    var families, scopes := WithFamily(w.families, i.family), WithUnits(w.scopes, Units(i));
    RecordsKnown(w.families, w.scopes, i);
    UnitsAre(i);
    UnitsAre(partition);
    SameUnits(i, partition);
    QuarantineIs(families, scopes, i);
    KnownJudges(w.families, w.scopes, i, Units(i));
    SameJudges(w.families, w.scopes, i, partition);
  }

  /** Queueing does exactly this. */
  lemma EnqueueIs(w: World, partition: Item)
    ensures var s := Standing(w.items, partition, 0);
            Queues(w, EnqueueOf(w, partition), partition, if s.Some? then s.value else Ok(|w.items|))
  {
    StandsFirst(w.items, partition, 0);
    if Standing(w.items, partition, 0).None? {
      JobJoins(w, partition);
    } else {
      hide Joins, Answers, Standing;
      var m :| 0 <= m < |w.items| && Answers(w.items[m], partition);
      assert w.items[m] in w.items;
    }
  }

  // ----- coverage reviews -------------------------------------------------------------------------------

  /** Neither record of the origin is in quarantine. */
  ghost predicate Clean(families: map<string, History>, scopes: map<string, History>, origin: string) {
    !Recorded(families, origin).quarantined && !Recorded(scopes, origin).quarantined
  }

  ghost predicate Forgets(before: map<string, History>, after: map<string, History>, families: map<string, History>,
                          scopes: map<string, History>, origins: seq<string>) {
    && (forall f :: f in after <==> f in before && !(f in origins && Clean(families, scopes, f)))
    && forall f <- after :: after[f] == before[f]
  }

  /** One failure more for each time the name occurs; six of them are a quarantine. */
  ghost predicate FailsOften(h: History, h': History, times: nat, at: int) {
    if times == 0 then h' == h
    else
      && h'.failures == h.failures + times && (h'.quarantined <==> h.quarantined || h'.failures >= 6)
      && h'.nextAt == Some(at + Delay(h'.failures))
  }

  ghost predicate FailsAll(before: map<string, History>, after: map<string, History>, origins: seq<string>, at: int) {
    forall f :: FailsOften(Recorded(before, f), Recorded(after, f), multiset(origins)[f], at)
  }

  lemma {:induction false} ForgetLegacyIs(families: map<string, History>, scopes: map<string, History>,
                                          origins: seq<string>)
    ensures var r := ForgetLegacy(families, scopes, origins);
            Forgets(families, r.0, families, scopes, origins) && Forgets(scopes, r.1, families, scopes, origins)
    decreases |origins|
  {
    if origins != [] {
      var o, rest := origins[0], origins[1..];
      assert origins == [o] + rest;
      if Clean(families, scopes, o) {
        ForgetLegacyIs(families - {o}, scopes - {o}, rest);
        assert forall f :: f != o ==> (Clean(families - {o}, scopes - {o}, f) <==> Clean(families, scopes, f));
      } else {
        ForgetLegacyIs(families, scopes, rest);
      }
    }
  }

  lemma FailsOneMore(h: History, middle: History, last: History, times: nat, at: int)
    requires Worse(h, middle, at, OtherFailure, 0) && FailsOften(middle, last, times, at)
    ensures FailsOften(h, last, times + 1, at)
  {
  }

  /** One name has a failure more, and no other changes. */
  ghost predicate OneWorse(before: map<string, History>, after: map<string, History>, o: string, at: int) {
    forall f :: if f == o then Worse(Recorded(before, f), Recorded(after, f), at, OtherFailure, 0)
                else Recorded(after, f) == Recorded(before, f)
  }

  lemma FailsMore(before: map<string, History>, middle: map<string, History>, after: map<string, History>, o: string,
                  rest: seq<string>, at: int)
    requires OneWorse(before, middle, o, at) && FailsAll(middle, after, rest, at)
    ensures FailsAll(before, after, [o] + rest, at)
  {
    hide FailsOften, Worse;
    forall f ensures FailsOften(Recorded(before, f), Recorded(after, f), multiset([o] + rest)[f], at) {
      assert multiset([o] + rest)[f] == multiset(rest)[f] + if f == o then 1 else 0;
      if f == o {
        FailsOneMore(Recorded(before, f), Recorded(middle, f), Recorded(after, f), multiset(rest)[f], at);
      }
    }
  }

  lemma UnitWorse(scopes: map<string, History>, o: string, at: int)
    ensures OneWorse(scopes, FailUnits(WithUnits(scopes, {o}), {o}, at, OtherFailure, 0), o, at)
  {
    UnitsFail(scopes, {o}, at, OtherFailure, 0);
    FailIsWorse(HistoryAt(scopes, o), at, OtherFailure, 0);
    var r := FailUnits(WithUnits(scopes, {o}), {o}, at, OtherFailure, 0);
    hide FailUnits, WithUnits, Worse, Fail;
    forall f ensures Recorded(r, f) == if f == o then Fail(Recorded(scopes, f), at, OtherFailure, 0)
                                       else Recorded(scopes, f) {
      assert HistoryAt(r, f) == Recorded(r, f) && HistoryAt(scopes, f) == Recorded(scopes, f);
    }
  }

  lemma {:induction false} FailLegacyIs(families: map<string, History>, scopes: map<string, History>,
                                        origins: seq<string>, at: int)
    ensures var r := FailLegacy(families, scopes, origins, at);
            FailsAll(families, r.0, origins, at) && FailsAll(scopes, r.1, origins, at)
    decreases |origins|
  {
    if origins != [] {
      var o, rest := origins[0], origins[1..];
      assert origins == [o] + rest;
      var families' := FailFamily(WithFamily(families, o), o, at, OtherFailure, 0);
      var scopes' := FailUnits(WithUnits(scopes, {o}), {o}, at, OtherFailure, 0);
      FailOne(families, scopes, origins, at);
      FailFamilyIs(families, o, at, OtherFailure, 0);
      UnitWorse(scopes, o, at);
      FailLegacyIs(families', scopes', rest, at);
      hide FailFamily, WithFamily, FailUnits, WithUnits, FailsAll, FailLegacy, Worse;
      var r := FailLegacy(families', scopes', rest, at);
      FailsMore(families, families', r.0, o, rest, at);
      FailsMore(scopes, scopes', r.1, o, rest, at);
    }
  }

  /** How the item of a coverage review ends. */
  ghost predicate ReviewEnds(i: Item, x: Item, result: Harvested, maxFailures: nat) {
    var vendor := if i.attemptId.Some? || result.Unresolved? then VendorTerminal else i.vendor;
    match result
    case Unresolved => x == i.(vendor := vendor, run := None, state := Blocked)
    case Counted(_, repairing) =>
      x == i.(vendor := vendor, run := None, failures := 0, state := if repairing then Repairing else Done)
    case Again => x == i.(vendor := vendor, run := None, state := Pending)
    case Uncounted(_, hopeless, retryAt) =>
      if hopeless || i.failures + 1 >= maxFailures then
        x == i.(vendor := vendor, run := None, failures := i.failures + 1, state := Blocked)
      else
        x == i.(vendor := vendor, run := None, failures := i.failures + 1, state := Pending, notBefore := Some(retryAt))
  }

  ghost predicate Harvests(w: World, w': World, k: nat, at: int, result: Harvested, maxFailures: nat)
    requires k < |w.items|
  {
    && OnlyItem(w.items, w'.items, k) && w'.admitting == w.admitting
    && HoldOver(w.holds, w'.holds, w.items[k], at) && ReviewEnds(w.items[k], w'.items[k], result, maxFailures)
    && match result
       case Counted(origins, _) =>
         && Forgets(w.families, w'.families, w.families, w.scopes, origins)
         && Forgets(w.scopes, w'.scopes, w.families, w.scopes, origins)
       case Uncounted(origins, _, _) =>
         FailsAll(w.families, w'.families, origins, at) && FailsAll(w.scopes, w'.scopes, origins, at)
       case _ => w'.families == w.families && w'.scopes == w.scopes
  }

  /** The harvest of a coverage review does exactly this. */
  lemma CoverageIs(w: World, k: nat, at: int, result: Harvested, maxFailures: nat)
    requires k < |w.items|
    ensures Harvests(w, CoverageOf(w, k, at, result, maxFailures), k, at, result, maxFailures)
  {
    hide FailLegacy, ForgetLegacy, HoldEnded, HoldOver, Forgets, FailsAll;
    EndedHold(w.holds, w.items[k], at);
    match result {
      case Counted(origins, _) => ForgetLegacyIs(w.families, w.scopes, origins);
      case Uncounted(origins, _, _) => FailLegacyIs(w.families, w.scopes, origins, at);
      case _ =>
    }
  }

  // ----- releasing a family -----------------------------------------------------------------------------

  /** The records of the family and of every unit of its items start afresh; no other changes. */
  ghost predicate Releases(w: World, w': World, family: string) {
    && w'.items == w.items && w'.holds == w.holds && w'.admitting == w.admitting
    && (forall f ::
          Recorded(w'.families, f) == if f == family then History(0, false, None) else Recorded(w.families, f))
    && (forall u ::
          if exists i <- w.items :: i.family == family && UnitOf(i, u) then
            Recorded(w'.scopes, u) == History(0, false, None)
          else Recorded(w'.scopes, u) == Recorded(w.scopes, u))
  }

  lemma {:induction false} AllUnitsAre(items: seq<Item>, u: string)
    ensures u in AllUnits(items) <==> exists i <- items :: UnitOf(i, u)
  {
    if items != [] {
      var front, last := items[..|items| - 1], items[|items| - 1];
      assert items == front + [last];
      AllUnitsAre(front, u);
      UnitsAre(last);
      hide UnitOf, Units;
    }
  }

  /** Releasing a family does exactly this. */
  lemma ReleaseIs(w: World, family: string)
    ensures Releases(w, FreeOf(w, family), family)
  {
    hide AllUnits, UnitOf, ClearUnits;
    var w', affected := FreeOf(w, family), Affected(w.items, family);
    forall u ensures u in AllUnits(affected) <==> exists i <- w.items :: i.family == family && UnitOf(i, u) {
      AllUnitsAre(affected, u);
    }
    forall u ensures Recorded(w'.scopes, u) == if u in AllUnits(affected) then NEW_HISTORY else Recorded(w.scopes, u) {
      assert HistoryAt(w'.scopes, u) == Recorded(w'.scopes, u) && HistoryAt(w.scopes, u) == Recorded(w.scopes, u);
    }
  }

  // ----- launches ---------------------------------------------------------------------------------------

  /** One hold is as the item's attempt has it, and no other changes. */
  ghost predicate OnlyHold(holds: map<Attempt, Hold>, holds': map<Attempt, Hold>, a: Attempt, h: Hold) {
    && holds'.Keys == holds.Keys + {a} && holds'[a] == h
    && forall b <- holds :: b != a ==> holds'[b] == holds[b]
  }

  ghost predicate SameHistories(w: World, w': World) {
    w'.families == w.families && w'.scopes == w.scopes
  }

  /** Admitting an item reserves its next attempt before anything is asked of the vendor. */
  lemma AdmitIs(w: World, k: nat)
    requires k < |w.items|
    ensures var i, w' := w.items[k], AdmitOf(w, k);
            var a := Attempt(match i.job case Some(job) => job case None => i.id, i.attempt + 1);
            && OnlyItem(w.items, w'.items, k) && SameHistories(w, w') && w'.admitting == Some(k)
            && w'.items[k] == i.(attempt := i.attempt + 1, attemptId := Some(a), vendor := VendorUnknown,
                                 state := LaunchUnknown)
            && OnlyHold(w.holds, w'.holds, a, Hold(i.id, Reserved, None, None))
  {
  }

  /** A run may be bound to an attempt that is held and has no other run; binding it makes the vendor live. */
  lemma BindIs(w: World, k: nat, run: string)
    requires k < |w.items|
    ensures Bindable(w, k, run) <==>
            exists a <- w.holds ::
              w.items[k].attemptId == Some(a) && (w.holds[a].vendorRun == None || w.holds[a].vendorRun == Some(run))
    ensures Bindable(w, k, run) ==>
              var i, w' := w.items[k], BindOf(w, k, run);
              && OnlyItem(w.items, w'.items, k) && SameHistories(w, w') && w'.admitting == w.admitting
              && w'.items[k] == i.(vendor := VendorLive, state := Reviewing)
              && OnlyHold(w.holds, w'.holds, i.attemptId.value,
                          w.holds[i.attemptId.value].(vendorRun := Some(run)))
  {
  }

  /** The hold of the item's attempt is released, if it has one, and no other changes. */
  ghost predicate HoldReleased(holds: map<Attempt, Hold>, holds': map<Attempt, Hold>, i: Item) {
    holds'.Keys == holds.Keys &&
    forall a <- holds :: holds'[a] == if i.attemptId == Some(a) then holds[a].(quota := Released) else holds[a]
  }

  /** Cancelling before the vendor was asked ends the attempt and gives its reservation back. */
  lemma CancelIs(w: World, k: nat)
    requires k < |w.items|
    ensures var w' := CancelOf(w, k);
            && OnlyItem(w.items, w'.items, k) && SameHistories(w, w') && w'.admitting == w.admitting
            && w'.items[k] == w.items[k].(vendor := VendorTerminal) && HoldReleased(w.holds, w'.holds, w.items[k])
  {
  }

  /** What the vendor must state before an unknown launch is given up. */
  lemma AbsenceIs(i: Item, evidence: Absence)
    ensures IsAbsent(i, evidence) <==>
            i.run == None && evidence == Absence(i.attemptId, true, true)
  {
  }

  /** An absent launch gives its reservation back: a coverage item waits again, any other counts a failure. */
  lemma AbsentIs(w: World, k: nat, at: int)
    requires k < |w.items|
    ensures exists cancelled: World ::
              && OnlyItem(w.items, cancelled.items, k) && SameHistories(w, cancelled)
              && cancelled.admitting == w.admitting
              && cancelled.items[k] == w.items[k].(vendor := VendorTerminal)
              && HoldReleased(w.holds, cancelled.holds, w.items[k])
              && if w.items[k].kind == Coverage then
                   AbsentOf(w, k, at) ==
                   cancelled.(items := cancelled.items[k := cancelled.items[k].(state := Pending, run := None)])
                 else Terminates(cancelled, AbsentOf(w, k, at), k, at, OtherFailure, true, 0)
  {
    hide CancelOf, TerminalOf, Terminates;
    CancelIs(w, k);
    TerminalIs(CancelOf(w, k), k, at, OtherFailure, true, 0);
  }
}
