/**
 The life cycle of spare-capacity (rank 4) review jobs: admission against a usage observation, ownership of
 vendor runs through unknown outcomes, failure histories and quarantine.
 */
module RankFour {
  import opened Prelude

  const USAGE_MAX_AGE_SECONDS := 180

  type Path = string
  type Line = string

  datatype Kind = Backfill | Coverage | Ordinary

  datatype State = Pending | Reviewing | LaunchUnknown | PublicationPending | Quarantined | Blocked | Failed | Partial
                 | Repairing | Done | Skipped

  datatype Vendor = NoVendor | VendorUnknown | VendorLive | VendorTerminal

  datatype Attempt = Attempt(job: string, number: nat)

  datatype Row = Row(path: Path, blob: string, lines: set<int>)

  datatype Item = Item(id: string, kind: Kind, job: Option<string>, family: string, scope: seq<Row>,
                       lineages: map<Path, string>,
                       target: string, generation: nat, state: State, vendor: Vendor, run: Option<string>, attempt: nat,
                       attemptId: Option<Attempt>, failures: nat, notBefore: Option<int>)

  datatype Quota = Reserved | Released | Expired

  datatype Hold = Hold(item: string, quota: Quota, vendorRun: Option<string>, terminalAt: Option<int>)

  datatype History = History(failures: nat, quarantined: bool, nextAt: Option<int>)

  datatype Observation = Observation(successful: bool, observedAt: Option<int>, remaining: Option<int>,
                                     reflected: set<Attempt>)

  datatype Decision = Admit | OrdinaryEligible | UsageUnknown | UsageStale | OneSlotReserve | InflightCap

  /** How the review of a coverage item ended: its lineage unresolved, counted, to be tried again, or not counted. */
  datatype Harvested = Unresolved | Counted(origins: seq<string>, repairing: bool) | Again
                     | Uncounted(origins: seq<string>, hopeless: bool, retryAt: int)

  datatype Outcome = Completed | Auth | Integrity | Unsupported | SecretScan | OtherFailure

  datatype Refusal = ScopeConflict | MissingHold | IdentityConflict | HasRun | NoAbsenceEvidence | NotPublishable
                   | NoOperator | StillOwned | NoItems

  /** The vendor's own statement that an attempt never started. */
  datatype Absence = Absence(attempt: Option<Attempt>, confirmedNotStarted: bool, vendorQuery: bool)

  const NEW_HISTORY := History(0, false, None)

  // ----- owners -----------------------------------------------------------------------------------------

  predicate IsOwner(i: Item) {
    i.vendor == VendorLive || i.vendor == VendorUnknown || i.run.Some? || i.state == Reviewing ||
        i.state == LaunchUnknown
  }

  predicate ScopeOwner(i: Item) {
    IsOwner(i) || i.state == Pending || i.state == PublicationPending
  }

  predicate InFlight(i: Item) {
    (i.kind == Backfill || i.kind == Coverage) && IsOwner(i)
  }

  function Owners(items: seq<Item>): nat {
    if items == [] then 0 else Owners(items[..|items| - 1]) + if InFlight(items[|items| - 1]) then 1 else 0
  }

  lemma {:induction false} OwnersUpdate(items: seq<Item>, k: nat, x: Item)
    requires k < |items|
    ensures Owners(items[k := x]) == Owners(items) - (if InFlight(items[k]) then 1 else 0) +
        if InFlight(x) then 1 else 0
    ensures InFlight(items[k]) ==> Owners(items) > 0
  {
    hide InFlight;
    var n := |items| - 1;
    if k == n {
      assert items[k := x][..n] == items[..n];
    } else {
      assert items[k := x][..n] == items[..n][k := x];
      OwnersUpdate(items[..n], k, x);
    }
  }

  lemma OwnersUnchanged(items: seq<Item>, i: Item)
    requires !InFlight(i)
    ensures Owners(items + [i]) == Owners(items)
  {
    assert (items + [i])[..|items|] == items;
  }

  /** Two distinct owners and one more make three. */
  lemma {:induction false} OwnersCount(items: seq<Item>, owners: set<nat>)
    requires forall k <- owners :: k < |items| && InFlight(items[k])
    ensures |owners| <= Owners(items)
  {
    hide InFlight;
    if items == [] {
      assert owners == {};
    } else {
      var n := |items| - 1;
      OwnersCount(items[..n], owners - {n});
      assert owners <= (owners - {n}) + {n};
    }
  }

  lemma NoThreeOwners(items: seq<Item>, a: nat, b: nat, c: nat)
    requires Owners(items) <= 2 && a < b < c < |items|
    ensures !(InFlight(items[a]) && InFlight(items[b]) && InFlight(items[c]))
  {
    if InFlight(items[a]) && InFlight(items[b]) && InFlight(items[c]) {
      OwnersCount(items, {a, b, c});
    }
  }

  // ----- histories --------------------------------------------------------------------------------------

  function Lineage(i: Item, path: Path): string {
    if path in i.lineages then i.lineages[path] else path
  }

  function Units(i: Item): set<string> {
    set r | r in i.scope :: Lineage(i, r.path)
  }

  function HistoryAt(m: map<string, History>, key: string): History {
    if key in m then m[key] else NEW_HISTORY
  }

  function Backoff(failures: nat, retryAfter: nat): nat
    requires failures >= 1
  {
    var wait := 3600 * Power(2, if failures - 1 < 5 then failures - 1 else 5);
    var capped := if wait < 86400 then wait else 86400;
    if retryAfter > capped then retryAfter else capped
  }

  /** An hour, doubled with each failure, never over a day unless the vendor asks for more. */
  lemma BackoffGrows(m: nat, n: nat, retryAfter: nat)
    requires 1 <= m <= n
    ensures Backoff(m, retryAfter) <= Backoff(n, retryAfter)
    ensures retryAfter <= Backoff(m, retryAfter) && 3600 <= Backoff(m, retryAfter)
    ensures retryAfter <= 86400 ==> Backoff(m, retryAfter) <= 86400
    ensures m < 5 ==> Backoff(m + 1, 0) == 2 * Backoff(m, 0)
    ensures m > 5 ==> Backoff(m, 0) == 86400
  {
    assert Power(2, 2) == 4 && Power(2, 3) == 8 by {
      assert Power(2, 1) == 2;
    }
    assert Power(2, 4) == 16 && Power(2, 5) == 32;
  }

  predicate Immediate(o: Outcome) {
    o in {Auth, Integrity, Unsupported, SecretScan}
  }

  function Fail(h: History, at: int, o: Outcome, retryAfter: nat): History {
    var n := h.failures + 1;
    History(n, h.quarantined || Immediate(o) || n >= 6, Some(at + Backoff(n, retryAfter)))
  }

  /** The histories with those of an item present, as they are from its first use. */
  function WithFamily(families: map<string, History>, family: string): (r: map<string, History>)
    ensures forall f :: HistoryAt(r, f) == HistoryAt(families, f)
  {
    if family in families then families else families[family := NEW_HISTORY]
  }

  function FailFamily(families: map<string, History>, family: string, at: int, o: Outcome,
                      retryAfter: nat): (r: map<string, History>)
    ensures forall f :: HistoryAt(r, f) ==
                        if f == family then Fail(HistoryAt(families, f), at, o, retryAfter) else HistoryAt(families, f)
  {
    families[family := Fail(HistoryAt(families, family), at, o, retryAfter)]
  }

  function WithUnits(scopes: map<string, History>, units: set<string>): (r: map<string, History>)
    ensures r.Keys == scopes.Keys + units && forall u :: HistoryAt(r, u) == HistoryAt(scopes, u)
  {
    map u | u in scopes.Keys + units :: HistoryAt(scopes, u)
  }

  function FailUnits(scopes: map<string, History>, units: set<string>, at: int, o: Outcome,
                     retryAfter: nat): (r: map<string, History>)
    ensures forall u :: HistoryAt(r, u) ==
              if u in units && u in scopes then Fail(HistoryAt(scopes, u), at, o, retryAfter) else HistoryAt(scopes, u)
  {
    map u | u in scopes :: if u in units then Fail(scopes[u], at, o, retryAfter) else scopes[u]
  }

  function DelayUnits(scopes: map<string, History>, units: set<string>, until: int): (r: map<string, History>)
    ensures forall u :: HistoryAt(r, u) ==
              if u in units && u in scopes then HistoryAt(scopes, u).(nextAt := Some(until)) else HistoryAt(scopes, u)
  {
    map u | u in scopes :: if u in units then scopes[u].(nextAt := Some(until)) else scopes[u]
  }

  function ClearUnits(scopes: map<string, History>, units: set<string>): (r: map<string, History>)
    ensures forall u :: HistoryAt(r, u) == if u in units then NEW_HISTORY else HistoryAt(scopes, u)
  {
    map u | u in scopes.Keys + units :: if u in units then NEW_HISTORY else scopes[u]
  }

  /** A history of the item, its family's or one of its units', is quarantined. */
  predicate InQuarantine(families: map<string, History>, scopes: map<string, History>, i: Item) {
    HistoryAt(families, i.family).quarantined || exists u <- Units(i) :: HistoryAt(scopes, u).quarantined
  }

  function CreditAt(credited: seq<Row>, path: Path, blob: string): set<int> {
    if credited == [] then {}
    else
      var last := credited[|credited| - 1];
      if last.path == path && last.blob == blob then last.lines else CreditAt(credited[..|credited| - 1], path, blob)
  }

  predicate RowCredited(credited: seq<Row>, r: Row) {
    r.lines <= CreditAt(credited, r.path, r.blob)
  }

  function CompletedUnits(i: Item, credited: seq<Row>): set<string> {
    set r | r in i.scope && RowCredited(credited, r) :: Lineage(i, r.path)
  }

  /** Another item of the family whose work is not over or replaced. */
  predicate Sibling(i: Item, j: Item) {
    && j.family == i.family && j.state != Done && j.state != Skipped
    && !((j.state == Blocked || j.state == Failed) && !IsOwner(j) && j.scope == i.scope && j.generation < i.generation)
  }

  // ----- quota ------------------------------------------------------------------------------------------

  /** Holds the observation does not yet show. */
  function Unreflected(holds: map<Attempt, Hold>, reflected: set<Attempt>): set<Attempt> {
    set k | k in holds && k !in reflected && holds[k].quota == Reserved
  }

  function Gate(holds: map<Attempt, Hold>, at: int, observation: Option<Observation>, ordinary: bool,
                inflight: nat): Decision {
    if ordinary then OrdinaryEligible
    else if observation.None? || !observation.value.successful then UsageUnknown
    else
      var o := observation.value;
      if o.observedAt.None? || at - o.observedAt.value < 0 || at - o.observedAt.value > USAGE_MAX_AGE_SECONDS
         || o.remaining.None? || o.remaining.value < 0 then UsageStale
      else if o.remaining.value - |Unreflected(holds, o.reflected)| < 2 then OneSlotReserve
      else if inflight >= 2 then InflightCap
      else Admit
  }

  lemma ReservationCosts(holds: map<Attempt, Hold>, reflected: set<Attempt>, key: Attempt, hold: Hold)
    ensures |Unreflected(holds[key := hold], reflected)| <= |Unreflected(holds, reflected)| + 1
  {
    var before, after := Unreflected(holds, reflected), Unreflected(holds[key := hold], reflected);
    SubsetIsSmaller(after, before + {key});
  }

  // ----- what each operation does -----------------------------------------------------------------------

  /** The queue as a value, with the item of the admission under way before its launch is settled. */
  datatype World = World(items: seq<Item>, holds: map<Attempt, Hold>, families: map<string, History>,
                         scopes: map<string, History>, admitting: Option<nat>)

  const EMPTY := World([], map[], map[], map[], None)

  function Put(w: World, k: nat, i: Item): World
    requires k < |w.items|
  {
    w.(items := w.items[k := i])
  }

  /** At most two rank-4 items own execution, and one of them may be the one being admitted. */
  ghost predicate Fits(w: World) {
    && Owners(w.items) <= 2
    && (w.admitting.Some? ==> w.admitting.value < |w.items| && RoomFor(w.items, w.admitting.value))
  }

  /** Whoever owns execution beside the item, it is one at most. */
  ghost predicate RoomFor(items: seq<Item>, k: nat)
    requires k < |items|
  {
    Owners(items) - (if InFlight(items[k]) then 1 else 0) <= 1
  }

  /** Nobody but the given item lost its ownership. */
  ghost predicate OthersKeep(items: seq<Item>, items': seq<Item>, k: nat) {
    |items| <= |items'| && forall j :: 0 <= j < |items| && j != k && IsOwner(items[j]) ==> IsOwner(items'[j])
  }

  ghost predicate AllKeep(items: seq<Item>, items': seq<Item>) {
    |items| <= |items'| && forall j :: 0 <= j < |items| && IsOwner(items[j]) ==> IsOwner(items'[j])
  }

  /** Changing one item keeps the bound unless it becomes an owner without being admitted. */
  lemma PutFits(w: World, k: nat, i: Item, w': World)
    requires Fits(w) && k < |w.items| && w'.items == w.items[k := i] && w'.admitting == w.admitting
    requires InFlight(i) ==> InFlight(w.items[k]) || w.admitting == Some(k)
    ensures Fits(w') && OthersKeep(w.items, w'.items, k)
    ensures (IsOwner(w.items[k]) ==> IsOwner(i)) ==> AllKeep(w.items, w'.items)
  {
    hide InFlight, IsOwner, Owners;
    OwnersUpdate(w.items, k, i);
    if w.admitting.Some? && w.admitting.value != k {
      OwnersUpdate(w.items, w.admitting.value, w.items[w.admitting.value]);
    }
  }

  /** The job of a partition as it enters the queue. */
  function JobOf(partition: Item): Item {
    partition.(kind := Backfill, state := Pending, vendor := NoVendor, run := None, attempt := 0, attemptId := None,
               failures := 0, notBefore := None)
  }

  predicate SameScopeOwner(i: Item, partition: Item) {
    ScopeOwner(i) && i.target == partition.target && i.scope == partition.scope
  }

  /** What the queue already holds for a partition, from the given position on. */
  function Standing(items: seq<Item>, partition: Item, k: nat): Option<Result<nat, Refusal>>
    requires k <= |items|
    decreases |items| - k
  {
    if k == |items| then None
    else if items[k].job == partition.job then
        Some(if items[k].scope != partition.scope then Err(ScopeConflict) else Ok(k))
    else if SameScopeOwner(items[k], partition) then Some(Ok(k))
    else Standing(items, partition, k + 1)
  }

  function EnqueueOf(w: World, partition: Item): World {
    if Standing(w.items, partition, 0).Some? then w
    else
      var i := JobOf(partition);
      var families, scopes := WithFamily(w.families, i.family), WithUnits(w.scopes, Units(i));
      w.(families := families, scopes := scopes,
         items := w.items + [i.(state := if InQuarantine(families, scopes, i) then Quarantined else Pending)])
  }

  function Reservation(i: Item): Attempt {
    Attempt(if i.job.Some? then i.job.value else i.id, i.attempt + 1)
  }

  function AdmitOf(w: World, k: nat): World
    requires k < |w.items|
  {
    var i := w.items[k];
    var a := Reservation(i);
    Put(w, k, i.(attempt := i.attempt + 1, attemptId := Some(a), vendor := VendorUnknown, state := LaunchUnknown))
      .(holds := w.holds[a := Hold(i.id, Reserved, None, None)], admitting := Some(k))
  }

  function BindOf(w: World, k: nat, vendorRun: string): World
    requires k < |w.items| && w.items[k].attemptId.Some? && w.items[k].attemptId.value in w.holds
  {
    var a := w.items[k].attemptId.value;
    Put(w, k, w.items[k].(vendor := VendorLive, state := Reviewing))
      .(holds := w.holds[a := w.holds[a].(vendorRun := Some(vendorRun))])
  }

  function Unknown(i: Item): Item {
    i.(vendor := VendorUnknown, state := LaunchUnknown)
  }

  function CancelOf(w: World, k: nat): World
    requires k < |w.items|
  {
    var i := w.items[k];
    Put(w, k, i.(vendor := VendorTerminal))
      .(holds := if i.attemptId.Some? && i.attemptId.value in w.holds
                 then w.holds[i.attemptId.value := w.holds[i.attemptId.value].(quota := Released)] else w.holds)
  }

  function HoldEnded(holds: map<Attempt, Hold>, i: Item, at: int): map<Attempt, Hold> {
    if i.attemptId.Some? && i.attemptId.value in holds then
      holds[i.attemptId.value := holds[i.attemptId.value].(terminalAt := Some(at))]
    else holds
  }

  /** A failure counted in every history of an item whose run is over. */
  function FailOf(w: World, k: nat, at: int, outcome: Outcome, retryAfter: nat): World
    requires k < |w.items|
  {
    var i := w.items[k].(failures := w.items[k].failures + 1);
    var families := FailFamily(WithFamily(w.families, i.family), i.family, at, outcome, retryAfter);
    var scopes := FailUnits(WithUnits(w.scopes, Units(i)), Units(i), at, outcome, retryAfter);
    var state :=
        if InQuarantine(families, scopes, i) then Quarantined else if i.failures >= 3 then Blocked else Pending;
    Put(w, k, i.(state := state, notBefore := LatestDeadline(families, scopes, i)))
      .(families := families, scopes := scopes)
  }

  function TerminalOf(w: World, k: nat, at: int, outcome: Outcome, confirmed: bool, retryAfter: nat): World
    requires k < |w.items|
  {
    var i := w.items[k];
    if !confirmed then Put(w, k, Unknown(i))
    else
      var ended := Put(w, k, i.(vendor := VendorTerminal, run := None)).(holds := HoldEnded(w.holds, i, at));
      if outcome == Completed then Put(ended, k, ended.items[k].(state := PublicationPending))
      else FailOf(ended, k, at, outcome, retryAfter)
  }

  /** The latest of the refusal's own deadline and every wait already on record. */
  function WaitUntil(families: map<string, History>, scopes: map<string, History>, i: Item, at: int, retrySeconds: nat,
                     cooldown: Option<int>): (until: int)
    ensures until >= at + (if retrySeconds > 0 then retrySeconds else 3600)
    ensures (cooldown.Some? ==> until >= cooldown.value)
  {
    var deadline := at + if retrySeconds > 0 then retrySeconds else 3600;
    Later(Some(deadline), Later(Later(i.notBefore, cooldown), LatestDeadline(families, scopes, i))).value
  }

  function DeferOf(w: World, k: nat, at: int, retrySeconds: nat, cooldown: Option<int>): World
    requires k < |w.items|
  {
    var i := w.items[k];
    var families, scopes := WithFamily(w.families, i.family), WithUnits(w.scopes, Units(i));
    var until := WaitUntil(families, scopes, i, at, retrySeconds, cooldown);
    Put(w, k, i.(vendor := VendorTerminal, run := None, state := Pending, notBefore := Some(until)))
      .(holds := HoldEnded(w.holds, i, at),
        families := families[i.family := HistoryAt(families, i.family).(nextAt := Some(until))],
        scopes := DelayUnits(scopes, Units(i), until))
  }

  function AbsentOf(w: World, k: nat, at: int): World
    requires k < |w.items|
  {
    var cancelled := CancelOf(w, k);
    if w.items[k].kind == Coverage then Put(cancelled, k, cancelled.items[k].(state := Pending, run := None))
    else TerminalOf(cancelled, k, at, OtherFailure, true, 0)
  }

  predicate WhollyCredited(i: Item, credited: seq<Row>) {
    forall row <- i.scope :: RowCredited(credited, row)
  }

  predicate HasSibling(items: seq<Item>, k: nat, n: nat)
    requires k < |items| && n <= |items|
  {
    exists m :: 0 <= m < n && m != k && Sibling(items[k], items[m])
  }

  function PublishedOf(w: World, k: nat, credited: seq<Row>): World
    requires k < |w.items|
  {
    var i := w.items[k];
    var whole := WhollyCredited(i, credited);
    Put(w, k, i.(state := if whole then Done else Partial))
      .(scopes := w.scopes - CompletedUnits(i, credited),
        families := if whole && !HasSibling(w.items, k, |w.items|) then w.families - {i.family} else w.families)
  }

  predicate IsAbsent(i: Item, evidence: Absence) {
    evidence.attempt == i.attemptId && evidence.confirmedNotStarted && evidence.vendorQuery && i.run.None?
  }

  /** A failed coverage review counts in the family and the unit of each of its legacy origins. */
  function FailLegacy(families: map<string, History>, scopes: map<string, History>, origins: seq<string>, at: int)
    : (map<string, History>, map<string, History>)
    decreases |origins|
  {
    if origins == [] then (families, scopes)
    else
      FailLegacy(FailFamily(WithFamily(families, origins[0]), origins[0], at, OtherFailure, 0),
                 FailUnits(WithUnits(scopes, {origins[0]}), {origins[0]}, at, OtherFailure, 0), origins[1..], at)
  }

  /** A counted one forgets what is on record of them, except where it came to quarantine. */
  function ForgetLegacy(families: map<string, History>, scopes: map<string, History>, origins: seq<string>)
    : (map<string, History>, map<string, History>)
    decreases |origins|
  {
    if origins == [] then (families, scopes)
    else
      var o := origins[0];
      if HistoryAt(families, o).quarantined || HistoryAt(scopes, o).quarantined then
        ForgetLegacy(families, scopes, origins[1..])
      else ForgetLegacy(families - {o}, scopes - {o}, origins[1..])
  }

  function EndedCoverage(i: Item, result: Harvested, maxFailures: nat): Item {
    var over := i.(vendor := if i.attemptId.Some? then VendorTerminal else i.vendor, run := None);
    match result
    case Unresolved => over.(vendor := VendorTerminal, state := Blocked)
    case Counted(_, repairing) => over.(failures := 0, state := if repairing then Repairing else Done)
    case Again => over.(state := Pending)
    case Uncounted(_, hopeless, retryAt) =>
      var n := i.failures + 1;
      if hopeless || n >= maxFailures then over.(failures := n, state := Blocked)
      else over.(failures := n, state := Pending, notBefore := Some(retryAt))
  }

  function CoverageOf(w: World, k: nat, at: int, result: Harvested, maxFailures: nat): World
    requires k < |w.items|
  {
    var i := w.items[k];
    var histories := match result
      case Counted(origins, _) => ForgetLegacy(w.families, w.scopes, origins)
      case Uncounted(origins, _, _) => FailLegacy(w.families, w.scopes, origins, at)
      case _ => (w.families, w.scopes);
    Put(w, k, EndedCoverage(i, result, maxFailures))
      .(holds := HoldEnded(w.holds, i, at), families := histories.0, scopes := histories.1)
  }

  function FreeOf(w: World, family: string): World {
    w.(families := w.families[family := NEW_HISTORY],
       scopes := ClearUnits(w.scopes, AllUnits(Affected(w.items, family))))
  }

  // ----- what each operation keeps ----------------------------------------------------------------------

  lemma NothingChanges(items: seq<Item>)
    ensures AllKeep(items, items) && forall k: nat :: OthersKeep(items, items, k)
  {
  }

  /** The result names an item of the same job and scope, or a live owner of the scope; only then is nothing queued. */
  ghost predicate EnqueuedAs(w: World, partition: Item, w': World, r: Result<nat, Refusal>) {
    && (forall f :: HistoryAt(w'.families, f) == HistoryAt(w.families, f))
    && match r
       case Ok(k) =>
         && k < |w'.items|
         && ((w'.items[k].job == partition.job && w'.items[k].scope == partition.scope) ||
             SameScopeOwner(w'.items[k], partition))
         && (w'.items == w.items ||
             (w'.items == w.items + [w'.items[k]] &&
              forall i <- w.items :: i.job != partition.job && !SameScopeOwner(i, partition)))
       case Err(_) => w' == w && exists i <- w.items :: i.job == partition.job && i.scope != partition.scope
  }

  lemma {:induction false} StandingIs(items: seq<Item>, partition: Item, k: nat)
    requires k <= |items|
    ensures var s := Standing(items, partition, k);
            match s
            case None => forall j :: k <= j < |items| ==>
                items[j].job != partition.job && !SameScopeOwner(items[j], partition)
            case Some(Ok(m)) => m < |items| && ((items[m].job == partition.job && items[m].scope == partition.scope) ||
                                                SameScopeOwner(items[m], partition))
            case Some(Err(_)) => exists i <- items :: i.job == partition.job && i.scope != partition.scope
    decreases |items| - k
  {
    hide SameScopeOwner;
    if k < |items| && Standing(items, partition, k) == Standing(items, partition, k + 1) {
      StandingIs(items, partition, k + 1);
    }
  }

  lemma EnqueueNames(w: World, partition: Item, r: Result<nat, Refusal>)
    requires var s := Standing(w.items, partition, 0); r == if s.Some? then s.value else Ok(|w.items|)
    ensures EnqueuedAs(w, partition, EnqueueOf(w, partition), r)
  {
    hide SameScopeOwner, InQuarantine, Units, WithUnits;
    StandingIs(w.items, partition, 0);
  }

  lemma EnqueueKeeps(w: World, partition: Item)
    requires Fits(w)
    ensures Fits(EnqueueOf(w, partition)) && AllKeep(w.items, EnqueueOf(w, partition).items)
  {
    hide InQuarantine, Units, WithUnits, WithFamily, Standing, Owners;
    if Standing(w.items, partition, 0).None? {
      OwnersUnchanged(w.items, EnqueueOf(w, partition).items[|w.items|]);
    }
  }

  lemma AdmitKeeps(w: World, k: nat, at: int, observation: Option<Observation>, ordinary: bool)
    requires k < |w.items| && Gate(w.holds, at, observation, ordinary, Owners(w.items)) == Admit
    ensures Fits(AdmitOf(w, k)) && AllKeep(w.items, AdmitOf(w, k).items) && IsOwner(AdmitOf(w, k).items[k])
    ensures observation.value.remaining.value - |Unreflected(AdmitOf(w, k).holds, observation.value.reflected)| >= 1
  {
    hide Unreflected, Owners;
    var i := w.items[k];
    ReservationCosts(w.holds, observation.value.reflected, Reservation(i), Hold(i.id, Reserved, None, None));
    OwnersUpdate(w.items, k, AdmitOf(w, k).items[k]);
  }

  predicate Bindable(w: World, k: nat, vendorRun: string)
    requires k < |w.items|
  {
    && w.items[k].attemptId.Some? && w.items[k].attemptId.value in w.holds
    && var bound := w.holds[w.items[k].attemptId.value].vendorRun;
       bound.None? || bound.value == vendorRun
  }

  /** No hold went, and none that had an identity got another. */
  ghost predicate BoundOnce(holds: map<Attempt, Hold>, holds': map<Attempt, Hold>) {
    forall a <- holds :: a in holds' && (holds[a].vendorRun.Some? ==> holds'[a].vendorRun == holds[a].vendorRun)
  }

  lemma SameBound(holds: map<Attempt, Hold>)
    ensures BoundOnce(holds, holds)
  {
  }

  lemma BindKeeps(w: World, k: nat, vendorRun: string)
    requires Fits(w) && k < |w.items| && (IsOwner(w.items[k]) || w.admitting == Some(k)) && Bindable(w, k, vendorRun)
    ensures var w' := BindOf(w, k, vendorRun);
            Fits(w') && AllKeep(w.items, w'.items) && IsOwner(w'.items[k]) && BoundOnce(w.holds, w'.holds)
  {
    hide Fits, AllKeep, OthersKeep;
    PutFits(w, k, BindOf(w, k, vendorRun).items[k], BindOf(w, k, vendorRun));
  }

  lemma CancelKeeps(w: World, k: nat)
    requires Fits(w) && k < |w.items|
    ensures Fits(CancelOf(w, k)) && OthersKeep(w.items, CancelOf(w, k).items, k)
  {
    hide Fits, AllKeep, OthersKeep;
    PutFits(w, k, CancelOf(w, k).items[k], CancelOf(w, k));
  }

  lemma UnconfirmedKeeps(w: World, k: nat)
    requires Fits(w) && k < |w.items|
    ensures var w' := Put(w, k, Unknown(w.items[k]));
            && OthersKeep(w.items, w'.items, k) && IsOwner(w'.items[k]) && (IsOwner(w.items[k]) ==> Fits(w'))
            && (Owners(w'.items) <= 2 <==> InFlight(w.items[k]) || w.items[k].kind == Ordinary || Owners(w.items) < 2)
  {
    var w' := Put(w, k, Unknown(w.items[k]));
    OwnersUpdate(w.items, k, Unknown(w.items[k]));
    if IsOwner(w.items[k]) {
      PutFits(w, k, Unknown(w.items[k]), w');
    }
    hide Owners;
  }

  /** What a failed run leaves. */
  lemma FailIs(w: World, k: nat, at: int, outcome: Outcome, retryAfter: nat)
    requires k < |w.items| && w.items[k].vendor == VendorTerminal && w.items[k].run.None?
    ensures var w' := FailOf(w, k, at, outcome, retryAfter);
            && |w'.items| == |w.items| && w'.items == w.items[k := w'.items[k]] && !IsOwner(w'.items[k])
            && w'.items[k].kind == w.items[k].kind && w'.admitting == w.admitting && w'.holds == w.holds
            && RunFailed(w.families, w'.families, w.scopes, w'.scopes, w'.items[k], at, outcome, retryAfter)
  {
    hide Fail, FailUnits, FailFamily, WithUnits, WithFamily, InQuarantine, LatestDeadline, Units, HistoryAt, RunFailed;
    var i := w.items[k].(failures := w.items[k].failures + 1);
    var w' := FailOf(w, k, at, outcome, retryAfter);
    SameQuarantine(w'.families, w'.scopes, i, w'.items[k]);
    RunFails(w.families, WithFamily(w.families, i.family), w'.families, w.scopes, WithUnits(w.scopes, Units(i)),
             w'.scopes,
             i, w'.items[k], at, outcome, retryAfter);
  }

  lemma SameQuarantine(families: map<string, History>, scopes: map<string, History>, i: Item, j: Item)
    requires i.scope == j.scope && i.lineages == j.lineages && i.family == j.family
    ensures InQuarantine(families, scopes, i) <==> InQuarantine(families, scopes, j)
  {
    SameUnits(i, j);
    hide Units;
  }

  lemma EndedKeeps(w: World, k: nat, at: int, outcome: Outcome, retryAfter: nat)
    requires Fits(w) && k < |w.items|
    ensures var w' := TerminalOf(w, k, at, outcome, true, retryAfter);
            && Fits(w') && OthersKeep(w.items, w'.items, k) && |w'.items| == |w.items| && !IsOwner(w'.items[k])
            && (outcome == Completed ==> w'.items[k].state == PublicationPending)
            && if outcome == Completed then w'.families == w.families && w'.scopes == w.scopes
               else RunFailed(w.families, w'.families, w.scopes, w'.scopes, w'.items[k], at, outcome, retryAfter)
  {
    hide Fits, AllKeep, OthersKeep, FailOf, HoldEnded, RunFailed;
    var i := w.items[k];
    var ended := Put(w, k, i.(vendor := VendorTerminal, run := None)).(holds := HoldEnded(w.holds, i, at));
    var w' := TerminalOf(w, k, at, outcome, true, retryAfter);
    if outcome != Completed {
      FailIs(ended, k, at, outcome, retryAfter);
    }
    PutFits(w, k, w'.items[k], w');
  }

  lemma DeferKeeps(w: World, k: nat, at: int, retrySeconds: nat, cooldown: Option<int>)
    requires Fits(w) && k < |w.items|
    ensures var w' := DeferOf(w, k, at, retrySeconds, cooldown); Fits(w') && OthersKeep(w.items, w'.items, k)
    ensures OthersKeep(w.items, w.items, k)
  {
    hide Fits, AllKeep, OthersKeep, Units, WithUnits, WithFamily, DelayUnits, WaitUntil, HoldEnded;
    var w' := DeferOf(w, k, at, retrySeconds, cooldown);
    NothingChanges(w.items);
    PutFits(w, k, w'.items[k], w');
  }

  lemma SameItemsFit(w: World, w': World)
    requires Fits(w) && w'.items == w.items && w'.admitting == w.admitting
    ensures Fits(w')
  {
  }

  lemma AbsentKeeps(w: World, k: nat, at: int)
    requires Fits(w) && k < |w.items| && w.items[k].run.None?
    ensures var w' := AbsentOf(w, k, at);
            Fits(w') && OthersKeep(w.items, w'.items, k) && |w'.items| == |w.items| && !IsOwner(w'.items[k])
  {
    hide Fits, AllKeep, OthersKeep, TerminalOf, RunFailed;
    var w' := AbsentOf(w, k, at);
    CancelKeeps(w, k);
    if w.items[k].kind == Coverage {
      PutFits(w, k, w'.items[k], w');
    } else {
      EndedKeeps(CancelOf(w, k), k, at, OtherFailure, 0);
      OthersKeepTwice(w.items, CancelOf(w, k).items, w'.items, k);
    }
  }

  lemma OthersKeepTwice(a: seq<Item>, b: seq<Item>, c: seq<Item>, k: nat)
    requires OthersKeep(a, b, k) && OthersKeep(b, c, k)
    ensures OthersKeep(a, c, k)
  {
  }

  /** No quarantine is lifted. */
  ghost predicate QuarantinesStay(before: map<string, History>, after: map<string, History>) {
    forall x :: HistoryAt(before, x).quarantined ==> HistoryAt(after, x).quarantined
  }

  lemma StayTwice(a: map<string, History>, b: map<string, History>, c: map<string, History>)
    requires QuarantinesStay(a, b) && QuarantinesStay(b, c)
    ensures QuarantinesStay(a, c)
  {
    hide HistoryAt;
  }

  lemma FailStays(families: map<string, History>, scopes: map<string, History>, o: string, at: int)
    ensures QuarantinesStay(families, FailFamily(WithFamily(families, o), o, at, OtherFailure, 0))
    ensures QuarantinesStay(scopes, FailUnits(WithUnits(scopes, {o}), {o}, at, OtherFailure, 0))
  {
    hide HistoryAt, FailFamily, FailUnits, WithFamily, WithUnits;
  }

  /** Neither the failures nor the successes of coverage reviews lift a quarantine. */
  lemma {:induction false} FailLegacyStays(families: map<string, History>, scopes: map<string, History>,
                                           origins: seq<string>, at: int)
    ensures var r := FailLegacy(families, scopes, origins, at);
            QuarantinesStay(families, r.0) && QuarantinesStay(scopes, r.1)
    decreases |origins|
  {
    if origins != [] {
      var o := origins[0];
      var families' := FailFamily(WithFamily(families, o), o, at, OtherFailure, 0);
      var scopes' := FailUnits(WithUnits(scopes, {o}), {o}, at, OtherFailure, 0);
      hide QuarantinesStay, FailFamily, WithFamily, FailUnits, WithUnits;
      FailStays(families, scopes, o, at);
      FailLegacyStays(families', scopes', origins[1..], at);
      var r := FailLegacy(families, scopes, origins, at);
      StayTwice(families, families', r.0);
      StayTwice(scopes, scopes', r.1);
    }
  }

  lemma ForgetStays(histories: map<string, History>, o: string)
    requires !HistoryAt(histories, o).quarantined
    ensures QuarantinesStay(histories, histories - {o})
  {
  }

  lemma {:induction false} ForgetLegacyStays(families: map<string, History>, scopes: map<string, History>,
                                             origins: seq<string>)
    ensures var r := ForgetLegacy(families, scopes, origins);
            QuarantinesStay(families, r.0) && QuarantinesStay(scopes, r.1)
    decreases |origins|
  {
    if origins != [] {
      var o := origins[0];
      var r := ForgetLegacy(families, scopes, origins);
      if HistoryAt(families, o).quarantined || HistoryAt(scopes, o).quarantined {
        ForgetLegacyStays(families, scopes, origins[1..]);
      } else {
        ForgetStays(families, o);
        ForgetStays(scopes, o);
        hide QuarantinesStay, HistoryAt;
        ForgetLegacyStays(families - {o}, scopes - {o}, origins[1..]);
        StayTwice(families, families - {o}, r.0);
        StayTwice(scopes, scopes - {o}, r.1);
      }
    }
  }

  lemma ForgetOne(families: map<string, History>, scopes: map<string, History>, origins: seq<string>)
    requires origins != []
    ensures var o := origins[0];
            ForgetLegacy(families, scopes, origins) ==
            if HistoryAt(families, o).quarantined || HistoryAt(scopes, o).quarantined then
              ForgetLegacy(families, scopes, origins[1..])
            else ForgetLegacy(families - {o}, scopes - {o}, origins[1..])
  {
    hide HistoryAt;
  }

  lemma ForgetNone(families: map<string, History>, scopes: map<string, History>)
    ensures ForgetLegacy(families, scopes, []) == (families, scopes)
  {
  }

  lemma FailOne(families: map<string, History>, scopes: map<string, History>, origins: seq<string>, at: int)
    requires origins != []
    ensures var o := origins[0];
            FailLegacy(families, scopes, origins, at) ==
            FailLegacy(FailFamily(WithFamily(families, o), o, at, OtherFailure, 0),
                       FailUnits(WithUnits(scopes, {o}), {o}, at, OtherFailure, 0), origins[1..], at)
  {
    hide FailFamily, WithFamily, FailUnits, WithUnits;
  }

  lemma FailNone(families: map<string, History>, scopes: map<string, History>, at: int)
    ensures FailLegacy(families, scopes, [], at) == (families, scopes)
  {
  }

  lemma CoverageKeeps(w: World, k: nat, at: int, result: Harvested, maxFailures: nat)
    requires Fits(w) && k < |w.items| && IsOwner(w.items[k])
    ensures var w' := CoverageOf(w, k, at, result, maxFailures);
            && Fits(w') && OthersKeep(w.items, w'.items, k) && (w.items[k].attemptId.Some? ==> !IsOwner(w'.items[k]))
            && QuarantinesStay(w.families, w'.families) && QuarantinesStay(w.scopes, w'.scopes)
  {
    hide Fits, AllKeep, OthersKeep, HoldEnded, FailLegacy, ForgetLegacy;
    var w' := CoverageOf(w, k, at, result, maxFailures);
    PutFits(w, k, w'.items[k], w');
    match result {
      case Counted(origins, _) => ForgetLegacyStays(w.families, w.scopes, origins);
      case Uncounted(origins, _, _) => FailLegacyStays(w.families, w.scopes, origins, at);
      case _ =>
    }
  }

  lemma PublishedKeeps(w: World, k: nat, credited: seq<Row>)
    requires Fits(w) && k < |w.items|
    ensures var w' := PublishedOf(w, k, credited);
            Fits(w') && (w.items[k].state == PublicationPending ==> AllKeep(w.items, w'.items))
  {
    hide Fits, AllKeep, OthersKeep, WhollyCredited, CompletedUnits, HasSibling;
    var w' := PublishedOf(w, k, credited);
    PutFits(w, k, w'.items[k], w');
  }

  // ----- the queue --------------------------------------------------------------------------------------

  class Queue {
    var items: seq<Item>
    var holds: map<Attempt, Hold>
    var families: map<string, History>
    var scopes: map<string, History>
    /** The item admitted in the transaction under way, before its launch is settled. */
    ghost var admitting: Option<nat>

    constructor ()
      ensures Sound() && items == [] && holds == map[] && families == map[] && scopes == map[] && admitting.None?
    {
      items, holds, families, scopes, admitting := [], map[], map[], map[], None;
    }

    ghost function State(): World
      reads this
    {
      World(items, holds, families, scopes, admitting)
    }

    ghost predicate Sound()
      reads this
    {
      Fits(State())
    }

    /** Nobody but the given item lost its ownership. */
    twostate predicate OthersKeepOwnership(k: nat)
      reads this
    {
      OthersKeep(old(items), items, k)
    }

    twostate predicate AllKeepOwnership()
      reads this
    {
      AllKeep(old(items), items)
    }

    method CountOwners() returns (n: nat)
      ensures n == Owners(items)
    {
      n := 0;
      assert items[..0] == [];
      for k := 0 to |items|
        invariant n == Owners(items[..k])
      {
        assert items[..k + 1][..k] == items[..k];
        if InFlight(items[k]) {
          n := n + 1;
        }
      }
      assert items[..|items|] == items;
    }

    /** The histories of an item exist from its first use. */
    method EnsureHistory(i: Item)
      modifies `families, `scopes
      ensures families == WithFamily(old(families), i.family) && scopes == WithUnits(old(scopes), Units(i))
    {
      if i.family !in families {
        families := families[i.family := NEW_HISTORY];
      }
      scopes := WithUnits(scopes, Units(i));
    }

    /** Queue a partition, unless its job or a live owner of its scope is there already. */
    method Enqueue(partition: Item) returns (r: Result<nat, Refusal>)
      requires Sound() && partition.job.Some?
      modifies this
      ensures Sound() && AllKeepOwnership() && State() == EnqueueOf(old(State()), partition)
      ensures EnqueuedAs(old(State()), partition, State(), r)
      ensures r == var s := Standing(old(items), partition, 0); if s.Some? then s.value else Ok(|old(items)|)
    {
      hide SameScopeOwner, InQuarantine, Units, WithUnits, Fits, AllKeep, EnqueuedAs;
      ghost var before := State();
      EnqueueKeeps(before, partition);
      for k := 0 to |items|
        invariant State() == before && Standing(items, partition, 0) == Standing(items, partition, k)
      {
        var item := items[k];
        if item.job == partition.job {
          r := if item.scope != partition.scope then Err(ScopeConflict) else Ok(k);
          EnqueueNames(before, partition, r);
          return;
        }
        if SameScopeOwner(item, partition) {
          EnqueueNames(before, partition, Ok(k));
          return Ok(k);
        }
      }
      r := Ok(|items|);
      EnqueueNames(before, partition, r);
      var job := JobOf(partition);
      EnsureHistory(job);
      if InQuarantine(families, scopes, job) {
        job := job.(state := Quarantined);
      }
      items := items + [job];
    }

    /** The reservation is made before any launch is attempted. */
    method Admission(k: nat, at: int, observation: Option<Observation>, ordinary: bool, reserve: bool)
        returns (d: Decision)
      requires Sound() && k < |items| && admitting.None?
      modifies `items, `holds, `admitting
      ensures Sound() && AllKeepOwnership()
      ensures d == Gate(old(holds), at, observation, ordinary, Owners(old(items)))
      ensures State() == if d == Admit && reserve then AdmitOf(old(State()), k) else old(State())
      ensures d == Admit && reserve ==>
                IsOwner(items[k]) &&
                    observation.value.remaining.value - |Unreflected(holds, observation.value.reflected)| >= 1
    {
      hide Fits, AllKeep, Owners, Unreflected, Gate;
      var inflight := CountOwners();
      d := Gate(holds, at, observation, ordinary, inflight);
      if d != Admit || !reserve {
        NothingChanges(items);
        return;
      }
      AdmitKeeps(State(), k, at, observation, ordinary);
      var item := items[k];
      var attempt := Reservation(item);
      items := items[k := item.(attempt := item.attempt + 1, attemptId := Some(attempt), vendor := VendorUnknown,
                                state := LaunchUnknown)];
      holds := holds[attempt := Hold(item.id, Reserved, None, None)];
      admitting := Some(k);
    }

    /** The queue is saved: whatever was being admitted is an item like any other. */
    ghost method Commit()
      requires Sound()
      modifies `admitting
      ensures Sound() && State() == old(State()).(admitting := None)
    {
      admitting := None;
    }

    /** The launcher recorded a run for the admitted item. */
    method Launched(k: nat, run: string)
      requires Sound() && k < |items| && IsOwner(items[k])
      modifies `items
      ensures Sound() && AllKeepOwnership()
      ensures State() == Put(old(State()), k, old(items[k]).(run := Some(run), state := Reviewing))
    {
      hide Fits, AllKeep, OthersKeep;
      PutFits(State(), k, items[k].(run := Some(run), state := Reviewing),
              Put(State(), k, items[k].(run := Some(run), state := Reviewing)));
      items := items[k := items[k].(run := Some(run), state := Reviewing)];
    }

    /** The launcher refused the admitted item before any upload; its ownership is still to be settled. */
    method LaunchRefused(k: nat)
      requires Sound() && k < |items| && items[k].vendor == VendorUnknown
      modifies `items
      ensures Sound() && AllKeepOwnership() && State() == Put(old(State()), k, old(items[k]).(state := Blocked))
    {
      hide Fits, AllKeep, OthersKeep;
      PutFits(State(), k, items[k].(state := Blocked), Put(State(), k, items[k].(state := Blocked)));
      items := items[k := items[k].(state := Blocked)];
    }

    /** An identity is bound to a hold once. */
    method BindRun(k: nat, vendorRun: string) returns (r: Result<(), Refusal>)
      requires Sound() && k < |items| && (IsOwner(items[k]) || admitting == Some(k))
      modifies `items, `holds
      ensures Sound() && AllKeepOwnership()
      ensures r.Ok? <==> Bindable(old(State()), k, vendorRun)
      ensures State() == if r.Ok? then BindOf(old(State()), k, vendorRun) else old(State())
      ensures r.Ok? ==> IsOwner(items[k])
      ensures BoundOnce(old(holds), holds)
    {
      hide Fits, AllKeep, OthersKeep, BoundOnce;
      NothingChanges(items);
      SameBound(holds);
      var item := items[k];
      if item.attemptId.None? || item.attemptId.value !in holds {
        return Err(MissingHold);
      }
      var hold := holds[item.attemptId.value];
      if hold.vendorRun.Some? && hold.vendorRun.value != vendorRun {
        return Err(IdentityConflict);
      }
      BindKeeps(State(), k, vendorRun);
      holds := holds[item.attemptId.value := hold.(vendorRun := Some(vendorRun))];
      items := items[k := item.(vendor := VendorLive, state := Reviewing)];
      r := Ok(());
    }

    /** Anything raised before the run was bound leaves the admitted item owned, whatever was already written. */
    method LaunchRaised(k: nat)
      requires Sound() && k < |items| && (IsOwner(items[k]) || admitting == Some(k))
      modifies `items
      ensures Sound() && AllKeepOwnership() && IsOwner(items[k])
      ensures State() == Put(old(State()), k, Unknown(old(items[k])))
    {
      hide Fits, AllKeep, OthersKeep;
      PutFits(State(), k, Unknown(items[k]), Put(State(), k, Unknown(items[k])));
      items := items[k := Unknown(items[k])];
    }

    /** Positive local evidence that the vendor was never started: no run is recorded. */
    method CancelBeforeVendor(k: nat) returns (r: Result<(), Refusal>)
      requires Sound() && k < |items|
      modifies `items, `holds
      ensures Sound() && OthersKeepOwnership(k)
      ensures r.Ok? <==> old(items[k]).run.None?
      ensures State() == if r.Ok? then CancelOf(old(State()), k) else old(State())
    {
      hide Fits, OthersKeep;
      NothingChanges(items);
      var item := items[k];
      if item.run.Some? {
        return Err(HasRun);
      }
      CancelKeeps(State(), k);
      if item.attemptId.Some? && item.attemptId.value in holds {
        holds := holds[item.attemptId.value := holds[item.attemptId.value].(quota := Released)];
      }
      items := items[k := item.(vendor := VendorTerminal)];
      r := Ok(());
    }

    /** Count a failure in every history of an item whose run is over. */
    method FailRun(k: nat, at: int, outcome: Outcome, retryAfter: nat)
      requires k < |items|
      modifies `items, `families, `scopes
      ensures State() == FailOf(old(State()), k, at, outcome, retryAfter)
    {
      hide Fail, FailUnits, FailFamily, WithUnits, WithFamily, InQuarantine, LatestDeadline, Units;
      var item := items[k].(failures := items[k].failures + 1);
      EnsureHistory(item);
      families := FailFamily(families, item.family, at, outcome, retryAfter);
      scopes := FailUnits(scopes, Units(item), at, outcome, retryAfter);
      item := item.(state := if InQuarantine(families, scopes, item) then Quarantined
                             else if item.failures >= 3 then Blocked else Pending,
                    notBefore := LatestDeadline(families, scopes, item));
      items := items[k := item];
    }

    /**
     The outcome of a run. One the vendor did not confirm ends nothing: it makes the item an owner, so it keeps the
     bound exactly when the item counted already, never counts, or there was room.
     */
    method Terminal(k: nat, at: int, outcome: Outcome, vendorTerminal: bool, retryAfter: nat)
      requires Sound() && k < |items|
      modifies this
      ensures State() == TerminalOf(old(State()), k, at, outcome, vendorTerminal, retryAfter)
      ensures !vendorTerminal ==>
                (Owners(items) <= 2 <==>
                 InFlight(old(items[k])) || old(items[k]).kind == Ordinary || Owners(old(items)) < 2)
      ensures vendorTerminal || IsOwner(old(items[k])) ==> Sound()
      ensures OthersKeepOwnership(k) && (IsOwner(items[k]) <==> !vendorTerminal)
      ensures vendorTerminal && outcome == Completed ==>
                items[k].state == PublicationPending && families == old(families) && scopes == old(scopes)
      ensures vendorTerminal && outcome != Completed ==>
                RunFailed(old(families), families, old(scopes), scopes, items[k], at, outcome, retryAfter)
    {
      hide Fits, OthersKeep, RunFailed, FailOf, HoldEnded, Owners, InFlight;
      var item := items[k];
      if !vendorTerminal {
        UnconfirmedKeeps(State(), k);
        items := items[k := Unknown(item)];
        return;
      }
      EndedKeeps(State(), k, at, outcome, retryAfter);
      holds := HoldEnded(holds, item, at);
      items := items[k := item.(vendor := VendorTerminal, run := None)];
      if outcome == Completed {
        items := items[k := items[k].(state := PublicationPending)];
      } else {
        FailRun(k, at, outcome, retryAfter);
      }
    }

    /** A verified quota refusal: the run is over, no failure is counted, the work waits. */
    method DeferQuota(k: nat, at: int, retrySeconds: nat, cooldown: Option<int>) returns (r: Result<int, Refusal>)
      requires Sound() && k < |items|
      modifies this
      ensures Sound() && OthersKeepOwnership(k)
      ensures r.Ok? <==> old(items[k]).attemptId.Some? && old(items[k]).attemptId.value in old(holds)
      ensures r.Err? ==> items == old(items) && holds == old(holds) && admitting == old(admitting)
      ensures r.Ok? ==>
                State() == DeferOf(old(State()), k, at, retrySeconds, cooldown) && items[k].notBefore == Some(r.value)
      ensures r.Ok? ==> r.value >= at + (if retrySeconds > 0 then retrySeconds else 3600)
                        && (cooldown.Some? ==> r.value >= cooldown.value)
      ensures OnlyDelayed(old(families), families) && OnlyDelayed(old(scopes), scopes)
    {
      hide Fits, OthersKeep, Units, WithUnits, WithFamily, DelayUnits, LatestDeadline, HistoryAt, OnlyDelayed,
          HoldEnded, WaitUntil;
      var item := items[k];
      ghost var before := State();
      DeferKeeps(before, k, at, retrySeconds, cooldown);
      KnownIsOnlyDelayed(families, item.family, scopes, Units(item));
      EnsureHistory(item);
      if item.attemptId.None? || item.attemptId.value !in holds {
        SameItemsFit(before, State());
        return Err(MissingHold);
      }
      var until := WaitUntil(families, scopes, item, at, retrySeconds, cooldown);
      HeldIsOnlyDelayed(old(families), families, item.family, old(scopes), scopes, Units(item), until);
      holds := HoldEnded(holds, item, at);
      families := families[item.family := HistoryAt(families, item.family).(nextAt := Some(until))];
      scopes := DelayUnits(scopes, Units(item), until);
      items := items[k := item.(vendor := VendorTerminal, run := None, state := Pending, notBefore := Some(until))];
      r := Ok(until);
    }

    /** An unknown launch is settled only by the vendor's own absence evidence for exactly that attempt. */
    method ReconcileAbsent(k: nat, at: int, operator: string, reason: string, evidence: Absence)
        returns (r: Result<(), Refusal>)
      requires Sound() && k < |items|
      modifies this
      ensures Sound() && OthersKeepOwnership(k)
      ensures State() == if r.Ok? then AbsentOf(old(State()), k, at) else old(State())
      ensures r.Ok? <==> operator != "" && reason != "" && IsAbsent(old(items[k]), evidence)
      ensures r.Ok? ==> |items| == |old(items)| && !IsOwner(items[k])
    {
      hide Fits, OthersKeep, TerminalOf, Owners, RunFailed;
      NothingChanges(items);
      if operator == "" || reason == "" || !IsAbsent(items[k], evidence) {
        return Err(NoAbsenceEvidence);
      }
      AbsentKeeps(State(), k, at);
      var cancelled := CancelBeforeVendor(k);
      if items[k].kind == Coverage {
        items := items[k := items[k].(state := Pending, run := None)];
      } else {
        Terminal(k, at, OtherFailure, true, 0);
      }
      r := Ok(());
    }

    /**
     The harvest of a coverage review: its run is over, and its failures count in the legacy families of its paths.
     */
    method HarvestCoverage(k: nat, at: int, result: Harvested, maxFailures: nat)
      requires Sound() && k < |items| && items[k].kind == Coverage && items[k].state == Reviewing
      modifies this
      ensures Sound() && OthersKeepOwnership(k)
      ensures State() == CoverageOf(old(State()), k, at, result, maxFailures)
      ensures old(items[k]).attemptId.Some? ==> !IsOwner(items[k])
      ensures QuarantinesStay(old(families), families) && QuarantinesStay(old(scopes), scopes)
    {
      hide Fits, OthersKeep, QuarantinesStay, HoldEnded, FailLegacy, ForgetLegacy, EndedCoverage;
      var item := items[k];
      ghost var before := State();
      CoverageKeeps(before, k, at, result, maxFailures);
      holds := HoldEnded(holds, item, at);
      match result {
        case Counted(origins, _) =>
          assert origins[0..] == origins;
          for n := 0 to |origins|
            invariant items == before.items && holds == HoldEnded(before.holds, item, at)
            invariant admitting == before.admitting
            invariant ForgetLegacy(families, scopes, origins[n..]) ==
                      ForgetLegacy(before.families, before.scopes, origins)
          {
            var origin := origins[n];
            assert origins[n..][1..] == origins[n + 1..];
            ForgetOne(families, scopes, origins[n..]);
            if !HistoryAt(families, origin).quarantined && !HistoryAt(scopes, origin).quarantined {
              families, scopes := families - {origin}, scopes - {origin};
            }
          }
          assert origins[|origins|..] == [];
          ForgetNone(families, scopes);
        case Uncounted(origins, _, _) =>
          assert origins[0..] == origins;
          for n := 0 to |origins|
            invariant items == before.items && holds == HoldEnded(before.holds, item, at)
            invariant admitting == before.admitting
            invariant FailLegacy(families, scopes, origins[n..], at) ==
                      FailLegacy(before.families, before.scopes, origins, at)
          {
            var origin := origins[n];
            assert origins[n..][1..] == origins[n + 1..];
            FailOne(families, scopes, origins[n..], at);
            families := FailFamily(WithFamily(families, origin), origin, at, OtherFailure, 0);
            scopes := FailUnits(WithUnits(scopes, {origin}), {origin}, at, OtherFailure, 0);
          }
          assert origins[|origins|..] == [];
          FailNone(families, scopes, at);
        case _ =>
      }
      items := items[k := EndedCoverage(item, result, maxFailures)];
      assert State() == CoverageOf(before, k, at, result, maxFailures);
    }

    /** A remote event acknowledged the credited scope of a completed job. */
    method Published(k: nat, credited: seq<Row>, remoteEvent: string) returns (r: Result<(), Refusal>)
      requires Sound() && k < |items|
      modifies `items, `families, `scopes
      ensures Sound() && AllKeepOwnership()
      ensures State() == if r.Ok? then PublishedOf(old(State()), k, credited) else old(State())
      ensures r.Ok? <==> old(items[k]).state == PublicationPending && remoteEvent != ""
      ensures r.Ok? ==> items[k].state == if WhollyCredited(old(items[k]), credited) then Done else Partial
      ensures r.Ok? ==> scopes == old(scopes) - CompletedUnits(old(items[k]), credited)
      ensures r.Ok? ==> families == old(families) || FamilyIsOver(old(items), k, credited, old(families), families)
      ensures r.Ok? ==> forall j :: 0 <= j < |items| && j != k && Sibling(old(items[k]), old(items[j])) ==>
                (InQuarantine(families, scopes, old(items[j])) <==>
                 HeldOtherwise(old(families), old(scopes), old(items[j]), CompletedUnits(old(items[k]), credited)))
    {
      hide Fits, AllKeep, OthersKeep, Units, CompletedUnits, RowCredited, InQuarantine, HeldOtherwise, Sibling;
      NothingChanges(items);
      var item := items[k];
      if item.state != PublicationPending || remoteEvent == "" {
        return Err(NotPublishable);
      }
      PublishedKeeps(State(), k, credited);
      scopes := scopes - CompletedUnits(item, credited);
      var whole := WhollyCredited(item, credited);
      if whole {
        var siblings := false;
        for j := 0 to |items|
          invariant siblings <==> HasSibling(items, k, j)
        {
          if j != k && Sibling(item, items[j]) {
            siblings := true;
          }
        }
        if !siblings {
          families := families - {item.family};
        }
      }
      SiblingsKeepQuarantine(items, k, credited, old(families), families, old(scopes));
      items := items[k := item.(state := if whole then Done else Partial)];
      r := Ok(());
    }

    method Release(k: nat, operator: string, reason: string, noLiveEvidence: bool) returns (r: Result<(), Refusal>)
      requires Sound() && k < |items|
      modifies `items
      ensures Sound() && AllKeepOwnership()
      ensures r.Ok? <==> operator != "" && reason != "" && noLiveEvidence && !IsOwner(old(items[k]))
      ensures State() == if r.Ok? then Put(old(State()), k, old(items[k]).(state := Skipped)) else old(State())
    {
      hide Fits, AllKeep, OthersKeep;
      NothingChanges(items);
      if operator == "" || reason == "" || !noLiveEvidence || IsOwner(items[k]) {
        return Err(StillOwned);
      }
      PutFits(State(), k, items[k].(state := Skipped), Put(State(), k, items[k].(state := Skipped)));
      items := items[k := items[k].(state := Skipped)];
      r := Ok(());
    }

    /** An operator clears a family, never while one of its items may own a run. */
    method ReleaseQuarantine(family: string, operator: string, reason: string) returns (r: Result<(), Refusal>)
      requires Sound()
      modifies `families, `scopes
      ensures items == old(items) && Sound()
      ensures State() == if r.Ok? then FreeOf(old(State()), family) else old(State())
      ensures r.Ok? <==> operator != "" && reason != "" && Affected(items, family) != []
                         && forall i <- Affected(items, family) :: !IsOwner(i)
      ensures r.Ok? ==> operator != "" && reason != "" && forall i <- items :: i.family == family ==> !IsOwner(i)
      ensures r.Ok? ==> HistoriesReleased(old(families), families, old(scopes), scopes, family,
                                          AllUnits(Affected(items, family)))
      ensures r.Ok? ==> forall i <- items :: i.family == family ==> !InQuarantine(families, scopes, i)
    {
      hide Units, ClearUnits, AllUnits, HistoryAt, HistoriesReleased, InQuarantine;
      if operator == "" || reason == "" {
        return Err(NoOperator);
      }
      var affected := Affected(items, family);
      if affected == [] {
        return Err(NoItems);
      }
      if exists i <- affected :: IsOwner(i) {
        return Err(StillOwned);
      }
      families := families[family := NEW_HISTORY];
      assert affected[..0] == [];
      NothingReleased(old(families), families, scopes, family);
      ClearTwice(scopes, {}, {});
      for n := 0 to |affected|
        invariant families == old(families)[family := NEW_HISTORY] && items == old(items)
        invariant scopes == ClearUnits(old(scopes), AllUnits(affected[..n]))
        invariant HistoriesReleased(old(families), families, old(scopes), scopes, family, AllUnits(affected[..n]))
      {
        ClearTwice(old(scopes), AllUnits(affected[..n]), Units(affected[n]));
        AllUnitsSnoc(affected, n);
        MoreReleased(old(families), families, old(scopes), scopes, family, affected, n);
        scopes := ClearUnits(scopes, Units(affected[n]));
      }
      assert affected[..|affected|] == affected;
      forall i | i in items && i.family == family ensures !InQuarantine(families, scopes, i) {
        ReleasedIsFree(old(families), families, old(scopes), scopes, affected, i);
      }
      r := Ok(());
    }
  }

  function AllUnits(items: seq<Item>): set<string> {
    if items == [] then {} else AllUnits(items[..|items| - 1]) + Units(items[|items| - 1])
  }

  /** The family's history and those of the units start afresh; every other is as it was. */
  ghost predicate HistoriesReleased(families: map<string, History>, families': map<string, History>,
                                    scopes: map<string, History>,
                           scopes': map<string, History>, family: string, units: set<string>) {
    && (forall f :: HistoryAt(families', f) == if f == family then NEW_HISTORY else HistoryAt(families, f))
    && (forall u :: HistoryAt(scopes', u) == if u in units then NEW_HISTORY else HistoryAt(scopes, u))
  }

  lemma ClearTwice(scopes: map<string, History>, a: set<string>, b: set<string>)
    ensures ClearUnits(ClearUnits(scopes, a), b) == ClearUnits(scopes, a + b) && ClearUnits(scopes, {}) == scopes
  {
  }

  lemma AllUnitsSnoc(items: seq<Item>, n: nat)
    requires n < |items|
    ensures AllUnits(items[..n + 1]) == AllUnits(items[..n]) + Units(items[n])
  {
    hide Units;
    assert items[..n + 1][..n] == items[..n];
  }

  lemma NothingReleased(families: map<string, History>, families': map<string, History>, scopes: map<string, History>,
                        family: string)
    requires families' == families[family := NEW_HISTORY]
    ensures HistoriesReleased(families, families', scopes, scopes, family, AllUnits([])) && AllUnits([]) == {}
  {
  }

  lemma MoreReleased(families: map<string, History>, families': map<string, History>, scopes: map<string, History>,
                     scopes': map<string, History>, family: string, affected: seq<Item>, n: nat)
    requires n < |affected| && HistoriesReleased(families, families', scopes, scopes', family, AllUnits(affected[..n]))
    ensures HistoriesReleased(families, families', scopes, ClearUnits(scopes', Units(affected[n])), family,
                              AllUnits(affected[..n + 1]))
  {
    hide Units, ClearUnits, HistoryAt;
    assert affected[..n + 1][..n] == affected[..n];
  }

  lemma {:induction false} UnitsCounted(items: seq<Item>, i: Item)
    requires i in items
    ensures Units(i) <= AllUnits(items)
  {
    hide Units;
    assert items == items[..|items| - 1] + [items[|items| - 1]];
    if i in items[..|items| - 1] {
      UnitsCounted(items[..|items| - 1], i);
    }
  }

  lemma ReleasedIsFree(families: map<string, History>, families': map<string, History>, scopes: map<string, History>,
                       scopes': map<string, History>, affected: seq<Item>, i: Item)
    requires i in affected && HistoriesReleased(families, families', scopes, scopes', i.family, AllUnits(affected))
    ensures !InQuarantine(families', scopes', i)
  {
    UnitsCounted(affected, i);
    hide Units, HistoryAt;
  }

  function Affected(items: seq<Item>, family: string): (r: seq<Item>)
    ensures forall i :: i in r <==> i in items && i.family == family
  {
    if items == [] then [] else (if items[0].family == family then [items[0]] else []) + Affected(items[1..], family)
  }

  function Later(a: Option<int>, b: Option<int>): (r: Option<int>)
    ensures r == a || r == b
    ensures (a.Some? ==> r.Some? && r.value >= a.value) && (b.Some? ==> r.Some? && r.value >= b.value)
  {
    if a.None? then b else if b.None? || b.value < a.value then a else b
  }

  function LatestOf(scopes: map<string, History>, rows: seq<Row>, i: Item): Option<int> {
    if rows == [] then None
    else Later(LatestOf(scopes, rows[..|rows| - 1], i), HistoryAt(scopes, Lineage(i, rows[|rows| - 1].path)).nextAt)
  }

  /** The latest time any history of the item asks to wait for. */
  function LatestDeadline(families: map<string, History>, scopes: map<string, History>, i: Item): Option<int> {
    Later(HistoryAt(families, i.family).nextAt, LatestOf(scopes, i.scope, i))
  }

  /** The family and the units of the item each count one failure more; nobody else's history moves. */
  ghost predicate FailedRun(families: map<string, History>, families': map<string, History>,
                            scopes: map<string, History>,
                            scopes': map<string, History>, family: string, units: set<string>, at: int, o: Outcome,
                                retryAfter: nat) {
    && (forall f :: HistoryAt(families', f) ==
                    if f == family then Fail(HistoryAt(families, f), at, o, retryAfter) else HistoryAt(families, f))
    && (forall u :: HistoryAt(scopes', u) ==
                    if u in units then Fail(HistoryAt(scopes, u), at, o, retryAfter) else HistoryAt(scopes, u))
  }

  /** What a failed run leaves: every history counted, and the item quarantined exactly when one of them is. */
  ghost predicate RunFailed(families: map<string, History>, families': map<string, History>,
                            scopes: map<string, History>,
                         scopes': map<string, History>, i: Item, at: int, o: Outcome, retryAfter: nat) {
    && FailedRun(families, families', scopes, scopes', i.family, Units(i), at, o, retryAfter)
    && (i.state == Quarantined <==> InQuarantine(families', scopes', i))
  }

  lemma RunFails(families: map<string, History>, known: map<string, History>, families': map<string, History>,
                 scopes: map<string, History>, knownScopes: map<string, History>, scopes': map<string, History>,
                 i: Item, done: Item, at: int, o: Outcome, retryAfter: nat)
    requires known == WithFamily(families, i.family) && knownScopes == WithUnits(scopes, Units(i))
    requires families' == FailFamily(known, i.family, at, o, retryAfter)
    requires scopes' == FailUnits(knownScopes, Units(i), at, o, retryAfter)
    requires done.family == i.family && done.scope == i.scope && done.lineages == i.lineages
    requires done.state == Quarantined <==> InQuarantine(families', scopes', i)
    ensures RunFailed(families, families', scopes, scopes', done, at, o, retryAfter)
  {
    SameUnits(i, done);
    UnitsFail(scopes, Units(i), at, o, retryAfter);
    hide Fail, Units, WithUnits, FailUnits, WithFamily, FailFamily, HistoryAt;
  }

  lemma UnitsFail(scopes: map<string, History>, units: set<string>, at: int, o: Outcome, retryAfter: nat)
    ensures forall u :: HistoryAt(FailUnits(WithUnits(scopes, units), units, at, o, retryAfter), u) ==
                        if u in units then Fail(HistoryAt(scopes, u), at, o, retryAfter) else HistoryAt(scopes, u)
  {
    hide Fail, FailUnits, WithUnits, HistoryAt;
  }

  lemma SameUnits(i: Item, j: Item)
    requires i.scope == j.scope && i.lineages == j.lineages
    ensures Units(i) == Units(j)
  {
  }

  /** No failure counted or forgotten, no quarantine set or cleared: at most the waiting times moved. */
  ghost predicate OnlyDelayed(before: map<string, History>, after: map<string, History>) {
    forall k ::
      && HistoryAt(after, k).quarantined == HistoryAt(before, k).quarantined
      && HistoryAt(after, k).failures == HistoryAt(before, k).failures
  }

  lemma KnownIsOnlyDelayed(families: map<string, History>, family: string, scopes: map<string, History>,
                           units: set<string>)
    ensures OnlyDelayed(families, WithFamily(families, family)) && OnlyDelayed(scopes, WithUnits(scopes, units))
  {
    hide HistoryAt, WithFamily, WithUnits;
  }

  lemma HeldIsOnlyDelayed(families: map<string, History>, known: map<string, History>, family: string,
                          scopes: map<string, History>, knownScopes: map<string, History>, units: set<string>,
                              until: int)
    requires OnlyDelayed(families, known) && OnlyDelayed(scopes, knownScopes)
    ensures OnlyDelayed(families, known[family := HistoryAt(known, family).(nextAt := Some(until))])
    ensures OnlyDelayed(scopes, DelayUnits(knownScopes, units, until))
  {
    hide DelayUnits;
  }

  /** The family's history goes only with its last unfinished item, wholly credited. */
  ghost predicate FamilyIsOver(items: seq<Item>, k: nat, credited: seq<Row>, before: map<string, History>,
                               after: map<string, History>)
    requires k < |items|
  {
    && after == before - {items[k].family} && (forall row <- items[k].scope :: RowCredited(credited, row))
    && forall j :: 0 <= j < |items| && j != k ==> !Sibling(items[k], items[j])
  }

  /** Something other than the given units keeps the item in quarantine. */
  predicate HeldOtherwise(families: map<string, History>, scopes: map<string, History>, i: Item, units: set<string>) {
    HistoryAt(families, i.family).quarantined || exists u <- Units(i) :: u !in units && HistoryAt(scopes, u).quarantined
  }

  /** After a completion a sibling is in quarantine exactly if something other than a completed unit held it there. */
  lemma SiblingsKeepQuarantine(items: seq<Item>, k: nat, credited: seq<Row>, before: map<string, History>,
                               after: map<string, History>,
                               scopes: map<string, History>)
    requires k < |items| && (after == before || FamilyIsOver(items, k, credited, before, after))
    ensures forall j :: 0 <= j < |items| && j != k && Sibling(items[k], items[j]) ==>
              (InQuarantine(after, scopes - CompletedUnits(items[k], credited), items[j]) <==>
               HeldOtherwise(before, scopes, items[j], CompletedUnits(items[k], credited)))
  {
    hide Units, CompletedUnits, Sibling;
    var completed := CompletedUnits(items[k], credited);
    forall j | 0 <= j < |items| && j != k && Sibling(items[k], items[j])
      ensures InQuarantine(after, scopes - completed, items[j]) <==> HeldOtherwise(before, scopes, items[j], completed)
    {
      assert after == before;
      assert forall u :: HistoryAt(scopes - completed, u).quarantined <==>
               u !in completed && HistoryAt(scopes, u).quarantined;
    }
  }

  /** A completion takes a sibling out of quarantine exactly when only units it completed held the sibling there. */
  lemma QuarantineClearsIff(items: seq<Item>, k: nat, j: nat, credited: seq<Row>, before: map<string, History>,
                            after: map<string, History>, scopes: map<string, History>)
    requires k < |items| && j < |items| && j != k && Sibling(items[k], items[j])
    requires after == before || FamilyIsOver(items, k, credited, before, after)
    ensures var completed := CompletedUnits(items[k], credited);
            (InQuarantine(before, scopes, items[j]) && !InQuarantine(after, scopes - completed, items[j])) <==>
            && InQuarantine(before, scopes, items[j]) && !HistoryAt(before, items[j].family).quarantined
            && forall u <- Units(items[j]) :: HistoryAt(scopes, u).quarantined ==> u in completed
  {
    SiblingsKeepQuarantine(items, k, credited, before, after, scopes);
    hide Units, CompletedUnits, Sibling, FamilyIsOver;
  }
}
