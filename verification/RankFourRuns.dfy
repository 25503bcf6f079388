/** Whole runs of the spare-capacity queue: what admissions, ownership and quarantine keep in every reachable state. */
module RankFourRuns {
  import opened Prelude
  import opened RankFour

  datatype Action = Enqueue(partition: Item)
                  | Admitted(k: nat, at: int, observation: Option<Observation>, ordinary: bool)
                  | Commit
                  | Launch(k: nat, run: string)
                  | Refuse(k: nat)
                  | Bind(k: nat, run: string)
                  | Raise(k: nat)
                  | Cancel(k: nat)
                  | Unconfirmed(k: nat)
                  | End(k: nat, at: int, outcome: Outcome, retryAfter: nat)
                  | Defer(k: nat, at: int, retrySeconds: nat, cooldown: Option<int>)
                  | Absent(k: nat, at: int, evidence: Absence)
                  | Harvest(k: nat, at: int, result: Harvested, maxFailures: nat)
                  | Publish(k: nat, credited: seq<Row>)
                  | Skip(k: nat)
                  | Satisfy(k: nat, at: int)
                  | Free(family: string)

  predicate Due(deadline: Option<int>, at: int) {
    deadline.None? || deadline.value <= at
  }

  /** May the item be admitted at this time? Neither its own waits nor any of its histories stand against it. */
  predicate Eligible(w: World, i: Item, at: int, cooldown: Option<int>) {
    && i.state == Pending && !IsOwner(i) && Due(i.notBefore, at) && Due(cooldown, at)
    && !InQuarantine(w.families, w.scopes, i) && Due(HistoryAt(w.families, i.family).nextAt, at)
    && forall u <- Units(i) :: Due(HistoryAt(w.scopes, u).nextAt, at)
  }

  /** One operation on the queue, under the conditions its callers establish. */
  ghost predicate Step(w: World, a: Action, w': World) {
    match a
    case Enqueue(partition) => partition.job.Some? && w' == EnqueueOf(w, partition)
    case Admitted(k, at, observation, ordinary) =>
      && k < |w.items| && w.admitting.None? && Gate(w.holds, at, observation, ordinary, Owners(w.items)) == Admit
      && w' == AdmitOf(w, k)
    case Commit => w' == w.(admitting := None)
    case Launch(k, run) =>
      k < |w.items| && IsOwner(w.items[k]) && w' == Put(w, k, w.items[k].(run := Some(run), state := Reviewing))
    case Refuse(k) => k < |w.items| && w.items[k].vendor == VendorUnknown &&
        w' == Put(w, k, w.items[k].(state := Blocked))
    case Bind(k, run) =>
      && k < |w.items| && (IsOwner(w.items[k]) || w.admitting == Some(k)) && Bindable(w, k, run)
      && w' == BindOf(w, k, run)
    case Raise(k) =>
      k < |w.items| && (IsOwner(w.items[k]) || w.admitting == Some(k)) && w' == Put(w, k, Unknown(w.items[k]))
    case Cancel(k) => k < |w.items| && w.items[k].run.None? && w' == CancelOf(w, k)
    case Unconfirmed(k) => k < |w.items| && w.items[k].run.Some? && w' == TerminalOf(w, k, 0, OtherFailure, false, 0)
    case End(k, at, outcome, retryAfter) => k < |w.items| && w' == TerminalOf(w, k, at, outcome, true, retryAfter)
    case Defer(k, at, retrySeconds, cooldown) =>
      && k < |w.items| && w.items[k].attemptId.Some? && w.items[k].attemptId.value in w.holds
      && w' == DeferOf(w, k, at, retrySeconds, cooldown)
    case Absent(k, at, evidence) => k < |w.items| && IsAbsent(w.items[k], evidence) && w' == AbsentOf(w, k, at)
    case Harvest(k, at, result, maxFailures) =>
      && k < |w.items| && w.items[k].kind == Coverage && w.items[k].state == Reviewing
      && w' == CoverageOf(w, k, at, result, maxFailures)
    case Publish(k, credited) =>
      k < |w.items| && w.items[k].state == PublicationPending && w' == PublishedOf(w, k, credited)
    case Skip(k) => k < |w.items| && !IsOwner(w.items[k]) && w' == Put(w, k, w.items[k].(state := Skipped))
    case Satisfy(k, at) =>
      k < |w.items| && Eligible(w, w.items[k], at, None) && w' == Put(w, k, w.items[k].(state := Done))
    case Free(family) =>
      Affected(w.items, family) != [] && (forall i <- Affected(w.items, family) :: !IsOwner(i)) &&
          w' == FreeOf(w, family)
  }

  /** The evidence on which an item may stop owning execution: over, never started, or absent at the vendor. */
  predicate EndsOwnership(a: Action, k: nat) {
    (a.Cancel? || a.End? || a.Defer? || a.Absent? || a.Harvest?) && a.k == k
  }

  lemma UnconfirmedFits(w: World, k: nat)
    requires Fits(w) && k < |w.items| && w.items[k].run.Some?
    ensures var w' := TerminalOf(w, k, 0, OtherFailure, false, 0); Fits(w') && AllKeep(w.items, w'.items)
  {
    hide Fits, AllKeep;
    PutFits(w, k, Unknown(w.items[k]), Put(w, k, Unknown(w.items[k])));
  }

  lemma EligibleIsFree(w: World, i: Item, at: int)
    requires Eligible(w, i, at, None)
    ensures !IsOwner(i)
  {
  }

  lemma FreeingKeepsItems(w: World, family: string)
    ensures FreeOf(w, family).items == w.items && FreeOf(w, family).admitting == w.admitting
  {
  }

  /** Whoever stops owning execution by the action does so on evidence about that very item. */
  ghost predicate EndsByEvidence(items: seq<Item>, a: Action, items': seq<Item>) {
    |items| <= |items'| && forall k: nat :: k < |items| && IsOwner(items[k]) && !IsOwner(items'[k]) ==>
        EndsOwnership(a, k)
  }

  lemma NobodyEnds(items: seq<Item>, a: Action, items': seq<Item>)
    ensures AllKeep(items, items') ==> EndsByEvidence(items, a, items')
    ensures items' == items ==> EndsByEvidence(items, a, items')
  {
    hide IsOwner;
  }

  lemma OnlyOneEnds(items: seq<Item>, a: Action, items': seq<Item>, k: nat)
    requires EndsOwnership(a, k)
    ensures OthersKeep(items, items', k) ==> EndsByEvidence(items, a, items')
  {
    hide IsOwner;
  }

  lemma StepKeeps(w: World, a: Action, w': World)
    requires Fits(w) && Step(w, a, w')
    ensures Fits(w') && EndsByEvidence(w.items, a, w'.items)
  {
    hide Gate, EnqueueOf, AdmitOf, BindOf, CancelOf, DeferOf, CoverageOf, PublishedOf, TerminalOf, AbsentOf, FreeOf,
        Bindable;
    hide Eligible, Unreflected, RunFailed, QuarantinesStay, Owners, BoundOnce, InQuarantine, Fits, AllKeep, OthersKeep;
    hide EndsByEvidence;
    NobodyEnds(w.items, a, w'.items);
    match a {
      case Enqueue(partition) => EnqueueKeeps(w, partition);
      case Admitted(k, at, observation, ordinary) => AdmitKeeps(w, k, at, observation, ordinary);
      case Commit => CommitFits(w);
      case Launch(k, run) => PutFits(w, k, w.items[k].(run := Some(run), state := Reviewing), w');
      case Refuse(k) => PutFits(w, k, w.items[k].(state := Blocked), w');
      case Bind(k, run) => BindKeeps(w, k, run);
      case Raise(k) => PutFits(w, k, Unknown(w.items[k]), w');
      case Cancel(k) =>
        CancelKeeps(w, k);
        OnlyOneEnds(w.items, a, w'.items, k);
      case Unconfirmed(k) => UnconfirmedFits(w, k);
      case End(k, at, outcome, retryAfter) =>
        EndedKeeps(w, k, at, outcome, retryAfter);
        OnlyOneEnds(w.items, a, w'.items, k);
      case Defer(k, at, retrySeconds, cooldown) =>
        DeferKeeps(w, k, at, retrySeconds, cooldown);
        OnlyOneEnds(w.items, a, w'.items, k);
      case Absent(k, at, evidence) =>
        AbsentKeeps(w, k, at);
        OnlyOneEnds(w.items, a, w'.items, k);
      case Harvest(k, at, result, maxFailures) =>
        CoverageKeeps(w, k, at, result, maxFailures);
        OnlyOneEnds(w.items, a, w'.items, k);
      case Publish(k, credited) => PublishedKeeps(w, k, credited);
      case Skip(k) => PutFits(w, k, w.items[k].(state := Skipped), w');
      case Satisfy(k, at) =>
        EligibleIsFree(w, w.items[k], at);
        PutFits(w, k, w.items[k].(state := Done), w');
      case Free(family) =>
        FreeingKeepsItems(w, family);
        SameItemsFit(w, w');
    }
  }

  lemma CommitFits(w: World)
    requires Fits(w)
    ensures Fits(w.(admitting := None))
  {
  }

  // ----- runs -------------------------------------------------------------------------------------------

  ghost predicate Run(ws: seq<World>, actions: seq<Action>) {
    |ws| == |actions| + 1 && forall n :: 0 <= n < |actions| ==> Step(ws[n], actions[n], ws[n + 1])
  }

  /** In every reachable state at most two rank-4 items own execution. */
  lemma {:induction false} RunFits(ws: seq<World>, actions: seq<Action>, n: nat)
    requires Run(ws, actions) && ws[0] == EMPTY && n < |ws|
    ensures Fits(ws[n]) && Owners(ws[n].items) <= 2
  {
    hide Step;
    if n > 0 {
      RunFits(ws, actions, n - 1);
      StepKeeps(ws[n - 1], actions[n - 1], ws[n]);
    }
  }

  lemma {:induction false} ItemsStay(ws: seq<World>, actions: seq<Action>, m: nat, n: nat)
    requires Run(ws, actions) && ws[0] == EMPTY && m <= n < |ws|
    ensures |ws[m].items| <= |ws[n].items|
  {
    hide Step, Fits;
    if m < n {
      ItemsStay(ws, actions, m, n - 1);
      RunFits(ws, actions, n - 1);
      StepKeeps(ws[n - 1], actions[n - 1], ws[n]);
    }
  }

  /** Ownership survives every run of operations that holds no evidence about the item. */
  lemma {:induction false} OwnershipEndsByEvidence(ws: seq<World>, actions: seq<Action>, m: nat, n: nat, k: nat)
    requires Run(ws, actions) && ws[0] == EMPTY && m <= n < |ws| && k < |ws[m].items| && IsOwner(ws[m].items[k])
    ensures |ws[m].items| <= |ws[n].items|
    ensures !IsOwner(ws[n].items[k]) ==> exists j :: m <= j < n && EndsOwnership(actions[j], k)
  {
    hide Step, Fits, IsOwner, EndsOwnership;
    ItemsStay(ws, actions, m, n);
    if m < n {
      OwnershipEndsByEvidence(ws, actions, m, n - 1, k);
      RunFits(ws, actions, n - 1);
      StepKeeps(ws[n - 1], actions[n - 1], ws[n]);
    }
  }

  // ----- the reserve ------------------------------------------------------------------------------------

  function Effective(w: World, o: Observation): int
    requires o.remaining.Some?
  {
    o.remaining.value - |Unreflected(w.holds, o.reflected)|
  }

  /** No hold is reserved that was not. */
  ghost predicate NoNewHold(holds: map<Attempt, Hold>, holds': map<Attempt, Hold>) {
    forall a :: a in holds' && holds'[a].quota == Reserved ==> a in holds && holds[a].quota == Reserved
  }

  lemma SameHolds(holds: map<Attempt, Hold>)
    ensures NoNewHold(holds, holds)
  {
  }

  lemma EndReserves(w: World, k: nat, at: int, outcome: Outcome, confirmed: bool, retryAfter: nat)
    requires k < |w.items|
    ensures NoNewHold(w.holds, TerminalOf(w, k, at, outcome, confirmed, retryAfter).holds)
    ensures NoNewHold(w.holds, HoldEnded(w.holds, w.items[k], at))
  {
    hide WithUnits, WithFamily, FailUnits, FailFamily, Units, InQuarantine, LatestDeadline;
  }

  lemma CancelReserves(w: World, k: nat)
    requires k < |w.items|
    ensures NoNewHold(w.holds, CancelOf(w, k).holds)
  {
  }

  lemma BindReserves(w: World, k: nat, run: string)
    requires k < |w.items| && Bindable(w, k, run)
    ensures NoNewHold(w.holds, BindOf(w, k, run).holds)
  {
  }

  lemma AbsentReserves(w: World, k: nat, at: int)
    requires k < |w.items|
    ensures NoNewHold(w.holds, AbsentOf(w, k, at).holds)
  {
    hide TerminalOf, HoldEnded;
    var cancelled := CancelOf(w, k);
    CancelReserves(w, k);
    EndReserves(cancelled, k, at, OtherFailure, true, 0);
  }

  lemma DeferReserves(w: World, k: nat, at: int, retrySeconds: nat, cooldown: Option<int>)
    requires k < |w.items|
    ensures DeferOf(w, k, at, retrySeconds, cooldown).holds == HoldEnded(w.holds, w.items[k], at)
  {
    hide WithUnits, WithFamily, DelayUnits, Units, WaitUntil, HoldEnded;
  }

  lemma StepReserves(w: World, a: Action, w': World)
    requires Step(w, a, w') && !a.Admitted?
    ensures NoNewHold(w.holds, w'.holds)
  {
    hide Gate, IsOwner, Eligible, InQuarantine, NoNewHold, Bindable, BindOf, TerminalOf, DeferOf, AbsentOf, CancelOf,
        HoldEnded;
    hide FailLegacy, ForgetLegacy, PublishedOf, EnqueueOf, FreeOf, EndedCoverage;
    SameHolds(w.holds);
    match a {
      case Enqueue(partition) => EnqueueReserves(w, partition);
      case Bind(k, run) => BindReserves(w, k, run);
      case Cancel(k) => CancelReserves(w, k);
      case Unconfirmed(k) => EndReserves(w, k, 0, OtherFailure, false, 0);
      case End(k, at, outcome, retryAfter) => EndReserves(w, k, at, outcome, true, retryAfter);
      case Defer(k, at, retrySeconds, cooldown) =>
        DeferReserves(w, k, at, retrySeconds, cooldown);
        EndReserves(w, k, at, OtherFailure, true, 0);
      case Absent(k, at, evidence) => AbsentReserves(w, k, at);
      case Harvest(k, at, result, maxFailures) => EndReserves(w, k, at, OtherFailure, true, 0);
      case Publish(k, credited) => PublishReserves(w, k, credited);
      case Free(family) => FreeReserves(w, family);
      case _ =>
    }
  }

  lemma EnqueueReserves(w: World, partition: Item)
    ensures EnqueueOf(w, partition).holds == w.holds
  {
    hide WithUnits, WithFamily, Units, InQuarantine, Standing;
  }

  lemma PublishReserves(w: World, k: nat, credited: seq<Row>)
    requires k < |w.items|
    ensures PublishedOf(w, k, credited).holds == w.holds
  {
    hide CompletedUnits, WhollyCredited, HasSibling;
  }

  lemma FreeReserves(w: World, family: string)
    ensures FreeOf(w, family).holds == w.holds
  {
    hide ClearUnits, Affected, AllUnits;
  }

  lemma FewerUnreflected(holds: map<Attempt, Hold>, holds': map<Attempt, Hold>, reflected: set<Attempt>)
    requires NoNewHold(holds, holds')
    ensures |Unreflected(holds', reflected)| <= |Unreflected(holds, reflected)|
  {
    SubsetIsSmaller(Unreflected(holds', reflected), Unreflected(holds, reflected));
  }

  /** After an admission the observation's remaining quota exceeds the holds it does not show by one at least. */
  lemma AdmissionLeavesReserve(w: World, a: Action, w': World)
    requires Step(w, a, w') && a.Admitted?
    ensures a.observation.Some? && a.observation.value.remaining.Some? && Effective(w', a.observation.value) >= 1
  {
    hide Unreflected, Owners;
    AdmitKeeps(w, a.k, a.at, a.observation, a.ordinary);
  }

  /** While one observation serves all admissions, the reserve left by the first is there in every later state. */
  lemma {:induction false} RunKeepsReserve(ws: seq<World>, actions: seq<Action>, o: Observation, m: nat, n: nat)
    requires Run(ws, actions) && m < n < |ws| && actions[m].Admitted?
    requires forall j :: m <= j < n && actions[j].Admitted? ==> actions[j].observation == Some(o)
    ensures o.remaining.Some? && Effective(ws[n], o) >= 1
  {
    hide Step, Unreflected;
    if actions[n - 1].Admitted? {
      AdmissionLeavesReserve(ws[n - 1], actions[n - 1], ws[n]);
    } else {
      RunKeepsReserve(ws, actions, o, m, n - 1);
      StepReserves(ws[n - 1], actions[n - 1], ws[n]);
      FewerUnreflected(ws[n - 1].holds, ws[n].holds, o.reflected);
    }
  }

  // ----- quarantine -------------------------------------------------------------------------------------

  lemma StayInQuarantine(families: map<string, History>, families': map<string, History>, scopes: map<string, History>,
                         scopes': map<string, History>, i: Item)
    requires QuarantinesStay(families, families') && QuarantinesStay(scopes, scopes')
    requires InQuarantine(families, scopes, i)
    ensures InQuarantine(families', scopes', i)
  {
    hide Units;
  }

  lemma SameQuarantines(histories: map<string, History>)
    ensures QuarantinesStay(histories, histories)
  {
  }

  lemma EndKeepsQuarantines(w: World, k: nat, at: int, outcome: Outcome, retryAfter: nat)
    requires k < |w.items|
    ensures var w' := TerminalOf(w, k, at, outcome, true, retryAfter);
            QuarantinesStay(w.families, w'.families) && QuarantinesStay(w.scopes, w'.scopes)
  {
    hide Units, WithUnits, WithFamily, FailUnits, FailFamily, HistoryAt, InQuarantine, LatestDeadline;
  }

  lemma DeferKeepsQuarantines(w: World, k: nat, at: int, retrySeconds: nat, cooldown: Option<int>)
    requires k < |w.items|
    ensures var w' := DeferOf(w, k, at, retrySeconds, cooldown);
            QuarantinesStay(w.families, w'.families) && QuarantinesStay(w.scopes, w'.scopes)
  {
    hide Units, WithUnits, WithFamily, DelayUnits, WaitUntil, HoldEnded;
  }

  lemma EnqueueKeepsQuarantines(w: World, partition: Item)
    ensures var w' := EnqueueOf(w, partition);
            QuarantinesStay(w.families, w'.families) && QuarantinesStay(w.scopes, w'.scopes)
  {
    hide Units, WithUnits, WithFamily, Standing, InQuarantine, HistoryAt;
  }

  /** Quarantine ends only with an acknowledged completion or an operator's release. */
  lemma QuarantineEndsOnlySo(w: World, a: Action, w': World, i: Item)
    requires Fits(w) && Step(w, a, w') && InQuarantine(w.families, w.scopes, i)
    requires !InQuarantine(w'.families, w'.scopes, i)
    ensures a.Publish? || a.Free?
  {
    if !a.Publish? && !a.Free? {
      StepKeepsQuarantines(w, a, w');
      StayInQuarantine(w.families, w'.families, w.scopes, w'.scopes, i);
    }
  }

  lemma StepKeepsQuarantines(w: World, a: Action, w': World)
    requires Fits(w) && Step(w, a, w') && !a.Publish? && !a.Free?
    ensures QuarantinesStay(w.families, w'.families) && QuarantinesStay(w.scopes, w'.scopes)
  {
    hide QuarantinesStay, EnqueueOf, DeferOf, CoverageOf, Gate, Owners, Eligible, InQuarantine, Fits, AllKeep,
        OthersKeep, FailOf;
    SameQuarantines(w.families);
    SameQuarantines(w.scopes);
    match a {
      case Enqueue(partition) => EnqueueKeepsQuarantines(w, partition);
      case End(k, at, outcome, retryAfter) => EndKeepsQuarantines(w, k, at, outcome, retryAfter);
      case Defer(k, at, retrySeconds, cooldown) => DeferKeepsQuarantines(w, k, at, retrySeconds, cooldown);
      case Absent(k, at, evidence) => EndKeepsQuarantines(CancelOf(w, k), k, at, OtherFailure, 0);
      case Harvest(k, at, result, maxFailures) => CoverageKeeps(w, k, at, result, maxFailures);
      case _ =>
    }
  }

  /**
   A completion takes a sibling out of quarantine exactly when only units it credited itself held the sibling there.
   */
  lemma PublishClearsIff(w: World, k: nat, credited: seq<Row>, w': World, j: nat)
    requires Step(w, Publish(k, credited), w') && j < |w.items| && j != k && Sibling(w.items[k], w.items[j])
    ensures (InQuarantine(w.families, w.scopes, w.items[j]) && !InQuarantine(w'.families, w'.scopes, w.items[j])) <==>
            (InQuarantine(w.families, w.scopes, w.items[j]) && !HistoryAt(w.families, w.items[j].family).quarantined
             && forall u <- Units(w.items[j]) ::
                  HistoryAt(w.scopes, u).quarantined ==> u in CompletedUnits(w.items[k], credited))
  {
    hide Units, CompletedUnits, RowCredited, InQuarantine, Sibling, HistoryAt;
    QuarantineClearsIff(w.items, k, j, credited, w.families, w'.families, w.scopes);
  }

  // ----- a sibling's completion -------------------------------------------------------------------------

  /** A job on one line of a path. */
  function OneLineJob(id: string, family: string, path: Path, blob: string, line: int, target: string): Item {
    Item(id, Backfill, Some(id), family, [Row(path, blob, {line})], map[], target, 0, Pending, NoVendor, None, 0, None,
         0, None)
  }

  /** A job of that kind whose run is bound. */
  function Running(i: Item): Item {
    i.(state := Reviewing, vendor := VendorLive, run := Some(i.id), attempt := 1, attemptId := Some(Attempt(i.id, 1)))
  }

  function PlentyOfQuota(at: int): Option<Observation> {
    Some(Observation(true, Some(at), Some(10), {}))
  }

  lemma RunSnoc(ws: seq<World>, actions: seq<Action>, a: Action, w: World)
    requires Run(ws, actions) && |ws| > 0 && Step(ws[|ws| - 1], a, w)
    ensures Run(ws + [w], actions + [a])
  {
    hide Step;
  }

  lemma RunConcat(ws: seq<World>, actions: seq<Action>, ws': seq<World>, actions': seq<Action>)
    requires Run(ws, actions) && Run(ws', actions') && |ws| > 0 && |ws'| > 0 && ws'[0] == ws[|ws| - 1]
    ensures Run(ws + ws'[1..], actions + actions') && |ws + ws'[1..]| > 0
    ensures (ws + ws'[1..])[0] == ws[0] && (ws + ws'[1..])[|ws + ws'[1..]| - 1] == ws'[|ws'| - 1]
  {
    hide Step;
  }

  /** Three jobs of two families on one path, as they stand in an empty queue. */
  function ThreeJobs(path: Path, blob: string, family: string, other: string, target: string): World {
    World([OneLineJob("a", family, path, blob, 1, target), OneLineJob("b", family, path, blob, 2, target),
           OneLineJob("c", other, path, blob, 3, target)],
          map[], map[family := NEW_HISTORY, other := NEW_HISTORY], map[path := NEW_HISTORY], None)
  }

  lemma OneUnit(i: Item, path: Path, blob: string, lines: set<int>)
    requires i.scope == [Row(path, blob, lines)] && i.lineages == map[]
    ensures Units(i) == {path}
  {
    assert i.scope[0] in i.scope;
  }

  lemma {:induction false} NotStanding(items: seq<Item>, i: Item, k: nat)
    requires k <= |items| && forall j <- items :: j.job != i.job && j.scope != i.scope
    ensures Standing(items, i, k).None?
    decreases |items| - k
  {
    if k < |items| {
      NotStanding(items, i, k + 1);
    }
  }

  /** Queueing a job of new scope whose histories are clean. */
  lemma QueueOne(w: World, i: Item, path: Path)
    requires i.job.Some? && i == JobOf(i) && Units(i) == {path}
    requires forall j <- w.items :: j.job != i.job && j.scope != i.scope
    requires HistoryAt(w.families, i.family) == NEW_HISTORY && HistoryAt(w.scopes, path) == NEW_HISTORY
    ensures Step(w, Enqueue(i), EnqueueOf(w, i))
    ensures EnqueueOf(w, i) == w.(items := w.items + [i], families := WithFamily(w.families, i.family),
                                  scopes := WithUnits(w.scopes, {path}))
  {
    hide Standing;
    NotStanding(w.items, i, 0);
    assert !InQuarantine(WithFamily(w.families, i.family), WithUnits(w.scopes, Units(i)), i);
  }

  function WithJob(w: World, i: Item, path: Path): World {
    w.(items := w.items + [i], families := w.families[i.family := HistoryAt(w.families, i.family)],
       scopes := w.scopes[path := HistoryAt(w.scopes, path)])
  }

  lemma QueueMore(ws: seq<World>, actions: seq<Action>, w: World, i: Item, path: Path)
    requires Run(ws, actions) && |ws| > 0 && w == ws[|ws| - 1]
    requires i.job.Some? && i == JobOf(i) && Units(i) == {path}
    requires forall j <- w.items :: j.job != i.job && j.scope != i.scope
    requires HistoryAt(w.families, i.family) == NEW_HISTORY && HistoryAt(w.scopes, path) == NEW_HISTORY
    ensures Run(ws + [WithJob(w, i, path)], actions + [Enqueue(i)])
  {
    hide Step, Run, Units, EnqueueOf;
    QueueOne(w, i, path);
    QueuedHistories(w, i, path);
    RunSnoc(ws, actions, Enqueue(i), WithJob(w, i, path));
  }

  lemma QueueThree(path: Path, blob: string, family: string, other: string, target: string)
    returns (ws: seq<World>, actions: seq<Action>)
    requires family != other
    ensures Run(ws, actions) && |ws| > 0 && ws[0] == EMPTY
    ensures ws[|ws| - 1] == ThreeJobs(path, blob, family, other, target)
  {
    var a, b, c := OneLineJob("a", family, path, blob, 1, target), OneLineJob("b", family, path, blob, 2, target),
                   OneLineJob("c", other, path, blob, 3, target);
    OneUnit(a, path, blob, {1});
    OneUnit(b, path, blob, {2});
    OneUnit(c, path, blob, {3});
    LinesDiffer(a, b);
    LinesDiffer(a, c);
    LinesDiffer(b, c);
    hide Units, Run;
    var w1 := WithJob(EMPTY, a, path);
    var w2 := WithJob(w1, b, path);
    NoSteps(EMPTY);
    ws, actions := [EMPTY], [];
    QueueMore(ws, actions, EMPTY, a, path);
    ws, actions := ws + [w1], actions + [Enqueue(a)];
    QueueMore(ws, actions, w1, b, path);
    ws, actions := ws + [w2], actions + [Enqueue(b)];
    QueueMore(ws, actions, w2, c, path);
    ws, actions := ws + [WithJob(w2, c, path)], actions + [Enqueue(c)];
  }

  lemma LinesDiffer(i: Item, j: Item)
    requires |i.scope| == |j.scope| == 1 && i.scope[0].lines != j.scope[0].lines
    ensures i.scope != j.scope
  {
  }

  lemma QueuedHistories(w: World, i: Item, path: Path)
    ensures WithUnits(w.scopes, {path}) == w.scopes[path := HistoryAt(w.scopes, path)]
    ensures WithFamily(w.families, i.family) == w.families[i.family := HistoryAt(w.families, i.family)]
  {
  }

  lemma NoSteps(w: World)
    ensures Run([w], [])
  {
  }

  lemma AdmitStep(w: World, k: nat, at: int)
    requires k < |w.items| && w.admitting.None? && Owners(w.items) < 2 && |w.holds| <= 1
    ensures Step(w, Admitted(k, at, PlentyOfQuota(at), false), AdmitOf(w, k))
  {
    hide Owners;
    SubsetIsSmaller(Unreflected(w.holds, {}), w.holds.Keys);
    assert |w.holds.Keys| == |w.holds|;
  }

  lemma LaunchStep(w: World, k: nat)
    requires k < |w.items| && IsOwner(w.items[k])
    ensures var i := w.items[k];
            Step(w, Launch(k, i.id), Put(w, k, i.(run := Some(i.id), state := Reviewing)))
  {
  }

  lemma BindStep(w: World, k: nat)
    requires k < |w.items| && IsOwner(w.items[k]) && Bindable(w, k, w.items[k].id)
    ensures Step(w, Bind(k, w.items[k].id), BindOf(w, k, w.items[k].id))
  {
  }

  lemma CommitStep(w: World)
    ensures Step(w, Commit, w.(admitting := None))
  {
  }

  /** Admission, launch and binding of a pending job while quota and a place in flight are free. */
  lemma StartOne(w: World, k: nat, at: int) returns (ws: seq<World>, actions: seq<Action>)
    requires k < |w.items| && w.admitting.None? && Owners(w.items) < 2 && |w.holds| <= 1
    requires w.items[k].job == Some(w.items[k].id) && w.items[k].attempt == 0
    ensures Run(ws, actions) && |ws| > 0 && ws[0] == w && ws[|ws| - 1] == Started(w, k)
  {
    hide Gate, Owners, Unreflected, Step, Run;
    var i := w.items[k];
    AdmitStep(w, k, at);
    var w1 := AdmitOf(w, k);
    LaunchStep(w1, k);
    var w2 := Put(w1, k, w1.items[k].(run := Some(i.id), state := Reviewing));
    BindStep(w2, k);
    var w3 := BindOf(w2, k, i.id);
    CommitStep(w3);
    var w4 := w3.(admitting := None);
    assert w3.items == w.items[k := Running(i)];
    var first := Admitted(k, at, PlentyOfQuota(at), false);
    NoSteps(w);
    RunSnoc([w], [], first, w1);
    RunSnoc([w] + [w1], [] + [first], Launch(k, i.id), w2);
    RunSnoc([w] + [w1] + [w2], [] + [first] + [Launch(k, i.id)], Bind(k, i.id), w3);
    RunSnoc([w] + [w1] + [w2] + [w3], [] + [first] + [Launch(k, i.id)] + [Bind(k, i.id)], Commit, w4);
    ws := [w] + [w1] + [w2] + [w3] + [w4];
    actions := [] + [first] + [Launch(k, i.id)] + [Bind(k, i.id)] + [Commit];
  }

  /** The state with the run of a pending job bound. */
  function Started(w: World, k: nat): World
    requires k < |w.items|
  {
    var i := w.items[k];
    Put(w, k, Running(i)).(holds := w.holds[Attempt(i.id, 1) := Hold(i.id, Reserved, Some(i.id), None)])
  }

  /** Two jobs of different families run on the path at once. */
  lemma TwoRunning(path: Path, blob: string, family: string, other: string, target: string, at: int)
    returns (ws: seq<World>, actions: seq<Action>)
    requires family != other
    ensures Run(ws, actions) && |ws| > 0 && ws[0] == EMPTY
    ensures ws[|ws| - 1] == Started(Started(ThreeJobs(path, blob, family, other, target), 0), 2)
  {
    var w0 := ThreeJobs(path, blob, family, other, target);
    OneOwner(w0.items);
    hide Run, Owners;
    ws, actions := QueueThree(path, blob, family, other, target);
    var ws1, actions1 := StartOne(w0, 0, at);
    var ws2, actions2 := StartOne(Started(w0, 0), 2, at);
    RunConcat(ws, actions, ws1, actions1);
    ws, actions := ws + ws1[1..], actions + actions1;
    RunConcat(ws, actions, ws2, actions2);
    ws, actions := ws + ws2[1..], actions + actions2;
  }

  /** The state before the completion is acknowledged: the third job failed on the shared path, the first completed. */
  lemma FailBeside(path: Path, blob: string, family: string, other: string, target: string, at: int)
    returns (ws: seq<World>, actions: seq<Action>)
    requires family != other
    ensures Run(ws, actions) && |ws| > 0 && ws[0] == EMPTY
    ensures var w := ws[|ws| - 1];
            && |w.items| == 3 && w.items[1] == ThreeJobs(path, blob, family, other, target).items[1]
            && w.items[0].(attempt := 0, attemptId := None, vendor := NoVendor, state := Pending) ==
               ThreeJobs(path, blob, family, other, target).items[0]
            && w.items[0].state == PublicationPending && w.items[2].family == other
            && !HistoryAt(w.families, family).quarantined && HistoryAt(w.families, family).nextAt.None?
            && HistoryAt(w.scopes, path).quarantined
  {
    var w0 := ThreeJobs(path, blob, family, other, target);
    OneUnit(w0.items[2], path, blob, {3});
    var w2 := Started(Started(w0, 0), 2);
    SameUnits(w0.items[2], w2.items[2]);
    hide Step, Units, TerminalOf, Run;
    ws, actions := TwoRunning(path, blob, family, other, target, at);
    var w3 := TerminalOf(w2, 2, at, Auth, true, 0);
    AuthQuarantines(w2, 2, at, path);
    EndSteps(ws, actions, 2, at, Auth);
    ws, actions := ws + [w3], actions + [End(2, at, Auth, 0)];
    EndSteps(ws, actions, 0, at, Completed);
    ws, actions := ws + [TerminalOf(w3, 0, at, Completed, true, 0)], actions + [End(0, at, Completed, 0)];
    CompletionIs(w3, 0, at);
  }

  lemma OneOwner(items: seq<Item>)
    requires |items| == 3 && forall i <- items :: !IsOwner(i)
    ensures Owners(items) == 0 && Owners(items[0 := Running(items[0])]) <= 1
  {
    assert items == [items[0], items[1], items[2]];
    assert items[..2] == [items[0], items[1]] && items[..2][..1] == [items[0]] && items[..2][..1][..0] == [];
    assert Owners(items[..2][..1]) == 0 && Owners(items[..2]) == 0;
    OwnersUpdate(items, 0, Running(items[0]));
  }

  lemma EndSteps(ws: seq<World>, actions: seq<Action>, k: nat, at: int, outcome: Outcome)
    requires Run(ws, actions) && |ws| > 0 && k < |ws[|ws| - 1].items|
    ensures Run(ws + [TerminalOf(ws[|ws| - 1], k, at, outcome, true, 0)], actions + [End(k, at, outcome, 0)])
  {
    hide TerminalOf;
    assert Step(ws[|ws| - 1], End(k, at, outcome, 0), TerminalOf(ws[|ws| - 1], k, at, outcome, true, 0));
    RunSnoc(ws, actions, End(k, at, outcome, 0), TerminalOf(ws[|ws| - 1], k, at, outcome, true, 0));
  }

  lemma AuthQuarantines(w: World, k: nat, at: int, path: Path)
    requires k < |w.items| && Units(w.items[k]) == {path}
    ensures var w' := TerminalOf(w, k, at, Auth, true, 0);
            && HistoryAt(w'.scopes, path).quarantined
            && (forall f :: f != w.items[k].family ==> HistoryAt(w'.families, f) == HistoryAt(w.families, f))
            && w'.items == w.items[k := w'.items[k]] && w'.items[k].family == w.items[k].family
  {
    hide InQuarantine, LatestDeadline, WithFamily, FailFamily, WithUnits, FailUnits, HoldEnded, HistoryAt;
    var i := w.items[k];
    var ended := i.(vendor := VendorTerminal, run := None, failures := i.failures + 1);
    SameUnits(i, ended);
    hide Units;
  }

  lemma CompletionIs(w: World, k: nat, at: int)
    requires k < |w.items|
    ensures var w' := TerminalOf(w, k, at, Completed, true, 0);
            && w'.items == w.items[k := w.items[k].(vendor := VendorTerminal, run := None, state := PublicationPending)]
            && w'.families == w.families && w'.scopes == w.scopes
  {
    hide HoldEnded;
  }

  /** A waiting job held by its one unit alone becomes eligible once that unit's history is gone. */
  lemma HeldWaits(before: World, after: World, held: Item, path: Path)
    requires Units(held) == {path} && HistoryAt(before.scopes, path).quarantined
    requires held.state == Pending && !IsOwner(held) && held.notBefore.None?
    requires HistoryAt(after.scopes, path) == NEW_HISTORY && !HistoryAt(after.families, held.family).quarantined
    requires HistoryAt(after.families, held.family).nextAt.None?
    ensures InQuarantine(before.families, before.scopes, held)
    ensures (forall t :: !Eligible(before, held, t, None)) && forall t :: Eligible(after, held, t, None)
  {
    hide Units, HistoryAt;
  }

  /**
   It happens: a job of another family fails on a path into quarantine while a job of this family is running there, and
   the acknowledged completion of that job makes its waiting sibling on the path eligible again.
   */
  lemma CompletionCanClearSibling(path: Path, blob: string, family: string, other: string, target: string, at: int)
    returns (ws: seq<World>, actions: seq<Action>)
    requires family != other
    ensures Run(ws, actions) && ws[0] == EMPTY && |ws| > 1
    ensures var before, after := ws[|ws| - 2], ws[|ws| - 1];
            && actions[|actions| - 1] == Publish(0, [Row(path, blob, {1})])
            && |before.items| == |after.items| == 3 && before.items[1] == after.items[1] &&
               before.items[2].family == other
            && Sibling(before.items[0], before.items[1])
            && InQuarantine(before.families, before.scopes, before.items[1])
            && (forall t :: !Eligible(before, before.items[1], t, None))
            && forall t :: Eligible(after, after.items[1], t, None)
  {
    var credited := [Row(path, blob, {1})];
    ws, actions := FailBeside(path, blob, family, other, target, at);
    var before := ws[|ws| - 1];
    var after := PublishedOf(before, 0, credited);
    var done, held := before.items[0], before.items[1];
    OneUnit(held, path, blob, {2});
    assert done.scope[0] == Row(path, blob, {1}) && done.scope[0] in done.scope;
    assert CreditAt(credited, path, blob) == {1};
    assert path in CompletedUnits(done, credited);
    assert HasSibling(before.items, 0, 3);
    hide Run, Units, CompletedUnits, HasSibling;
    assert Step(before, Publish(0, credited), after);
    HeldWaits(before, after, held, path);
    hide Eligible, InQuarantine, Step;
    RunSnoc(ws, actions, Publish(0, credited), after);
    ws, actions := ws + [after], actions + [Publish(0, credited)];
  }
}
