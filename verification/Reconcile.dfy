/**
 The checkpointed inventory of merged pull requests: a fold over forge pages that is saved after every page
 and may be cut short by crashes, failed saves, failed reads and budget stops.
 */
module Reconcile {
  import opened Prelude
  import opened Sorting

  const MAX_PAGE_RECORDS := 100
  const MAX_CURSOR_BYTES := 4096
  const MAX_INVENTORY := 5000
  const MAX_PAGES := 1000

  // ----- records and identities -------------------------------------------------------------------------

  /** A text by its place in lexicographic order (the empty text is 0); exact when it is a UTC timestamp. */
  datatype Stamp = NoText | Text(rank: nat, exact: bool)

  /** None where a field is missing or malformed (any integer is a number); the rest of the payload is opaque. */
  datatype Record =
    | Scalar(raw: string, canonical: bool)
    | Object(number: Option<int>, mergedAt: Stamp, oid: Option<string>, head: Option<string>, raw: string,
             canonical: bool)

  datatype Merge = Merge(sha: string, mergedAt: nat)

  datatype Entry =
    | Intent(pr: int, mergedAt: nat, sha: string, head: string)
    | NotAnObject
    | MalformedNumber
    | MalformedTime(pr: int)
    | MalformedMerge(pr: int, mergedAt: nat)
    | MalformedHead(pr: int, mergedAt: nat)
    | Conflict(pr: int, prior: Merge, observed: Merge)

  /** Ideal digest: what a record is deduplicated by. */
  datatype Key = Source(pr: int, sha: string) | Payload(record: Record)

  datatype Query = Query(repo: string, base: string, after: nat, before: nat, budget: nat)

  function Identity(r: Record): Entry {
    if r.Scalar? then NotAnObject
    else if r.number.None? || r.number.value <= 0 then MalformedNumber
    else if !(r.mergedAt.Text? && r.mergedAt.exact) then MalformedTime(r.number.value)
    else if r.oid.None? then MalformedMerge(r.number.value, r.mergedAt.rank)
    else if r.head.None? then MalformedHead(r.number.value, r.mergedAt.rank)
    else Intent(r.number.value, r.mergedAt.rank, r.oid.value, r.head.value)
  }

  predicate InWindow(q: Query, r: Record) {
    r.Object? && r.mergedAt.Text? && r.mergedAt.exact ==> q.after < r.mergedAt.rank <= q.before
  }

  function KeyOf(r: Record): Key {
    var e := Identity(r);
    if e.Intent? then Source(e.pr, e.sha) else Payload(r)
  }

  // ----- the orders pages and inventories are sorted by -------------------------------------------------

  datatype Rank = Rank(time: nat, number: int, reason: nat)

  predicate Le(a: Rank, b: Rank) {
    a.time < b.time || (a.time == b.time && (a.number < b.number || (a.number == b.number && a.reason <= b.reason)))
  }

  function RecordRank(r: Record): Rank {
    if r.Scalar? then Rank(0, 0, 0)
    else Rank(if r.mergedAt.Text? then r.mergedAt.rank else 0, if r.number.Some? then r.number.value else 0, 0)
  }

  /** The reasons in lexicographic order; an intent has none. */
  function EntryRank(e: Entry): Rank {
    match e
    case Intent(pr, at, _, _) => Rank(at, pr, 0)
    case Conflict(pr, _, _) => Rank(0, pr, 1)
    case MalformedNumber => Rank(0, 0, 2)
    case MalformedMerge(pr, at) => Rank(at, pr, 3)
    case MalformedTime(pr) => Rank(0, pr, 4)
    case NotAnObject => Rank(0, 0, 5)
    case MalformedHead(pr, at) => Rank(at, pr, 6)
  }

  predicate RecordLe(a: Record, b: Record) {
    Le(RecordRank(a), RecordRank(b))
  }

  predicate EntryLe(a: Entry, b: Entry) {
    Le(EntryRank(a), EntryRank(b))
  }

  // ----- the checkpoint ---------------------------------------------------------------------------------

  datatype Outcome = PageRead(records: nat) | TransportFailure | BudgetExhausted

  datatype Checkpoint = Checkpoint(
    query: Query, cursor: Option<string>, pagesRead: nat, seen: map<int, Merge>, inventory: seq<Entry>,
    keys: seq<Key>, history: seq<string>, duplicates: nat, outside: nat, recordsRead: nat, failures: nat,
    complete: bool, steps: seq<Outcome>, dryRun: bool)

  datatype Summary = Summary(
    pagesRead: nat, failures: nat, reason: Option<Outcome>, complete: bool, next: Option<string>, through: Option<nat>,
    represented: nat, intents: nat, duplicates: nat, outside: nat, recordsRead: nat)

  /** What is persisted: a state, its summary, and an ideal digest of both. */
  datatype Digest = Digest(state: Checkpoint, summary: Summary)
  datatype Snapshot = Snapshot(state: Checkpoint, summary: Summary, digest: Digest)

  datatype Refusal =
    | PageTooLarge | NotCanonical | InventoryCap | PageCap | IncompletePage | CursorCycled
    | WrongQuery | BadDigest | CapExceeded | BadProgress | BadEntry | BadRegistry | AlreadyComplete | BadQuery | Crashed

  function NewCheckpoint(q: Query): Checkpoint {
    Checkpoint(q, None, 0, map[], [], [], [], 0, 0, 0, 0, false, [], false)
  }

  function Intents(inventory: seq<Entry>): nat {
    if inventory == [] then 0
    else Intents(inventory[..|inventory| - 1]) + if inventory[|inventory| - 1].Intent? then 1 else 0
  }

  function Summarize(c: Checkpoint): Summary {
    var last := if c.steps == [] then None else Some(c.steps[|c.steps| - 1]);
    Summary(c.pagesRead, c.failures, if last.Some? && !last.value.PageRead? then last else None, c.complete, c.cursor,
            if c.complete then Some(c.query.before) else None,
            |c.inventory|, Intents(c.inventory), c.duplicates, c.outside, c.recordsRead)
  }

  function Seal(c: Checkpoint): Snapshot {
    Snapshot(c, Summarize(c), Digest(c, Summarize(c)))
  }

  predicate CursorOk(c: string) {
    0 < |c| <= MAX_CURSOR_BYTES
  }

  /** The registry a saved inventory implies: the last intent of each pull request. */
  function ExpectedSeen(inventory: seq<Entry>): map<int, Merge> {
    if inventory == [] then map[]
    else
      var e, before := inventory[|inventory| - 1], ExpectedSeen(inventory[..|inventory| - 1]);
      if e.Intent? then before[e.pr := Merge(e.sha, e.mergedAt)] else before
  }

  predicate EntryOk(q: Query, e: Entry) {
    e.Intent? ==> e.pr > 0 && q.after < e.mergedAt <= q.before
  }

  predicate ProgressOk(c: Checkpoint) {
    && |Elements(c.keys)| == |c.keys| == |c.inventory|
    && (forall h <- c.history :: CursorOk(h))
    && |Elements(c.history)| == |c.history| == c.pagesRead - (if c.complete then 1 else 0)
    && (c.complete || c.cursor == if c.history == [] then None else Some(c.history[|c.history| - 1]))
    && (c.complete ==> c.cursor.None? && c.pagesRead > 0)
    && c.recordsRead == |c.keys| + c.duplicates + c.outside
  }

  /** The checks a saved checkpoint must pass before it is resumed. */
  function Load(raw: Snapshot, q: Query, allowComplete: bool): Result<Checkpoint, Refusal> {
    var c := raw.state;
    if c.query != q then Err(WrongQuery)
    else if raw.digest != Digest(c, raw.summary) then Err(BadDigest)
    else if c.cursor.Some? && !CursorOk(c.cursor.value) then Err(BadProgress)
    else if |c.inventory| > MAX_INVENTORY || c.pagesRead > MAX_PAGES then Err(CapExceeded)
    else if !ProgressOk(c) then Err(BadProgress)
    else if exists e <- c.inventory :: !EntryOk(q, e) then Err(BadEntry)
    else if c.seen != ExpectedSeen(c.inventory) || raw.summary != Summarize(c) then Err(BadRegistry)
    else if c.complete && !allowComplete then Err(AlreadyComplete)
    else Ok(c)
  }

  // ----- folding a page ---------------------------------------------------------------------------------

  /** A key not met before: registered, and either a first intent or an entry saying why not. */
  function Represent(c: Checkpoint, r: Record): Checkpoint {
    var id := Identity(r);
    if id.Intent? && id.pr in c.seen && c.seen[id.pr].sha != id.sha then
      c.(keys := c.keys + [KeyOf(r)],
         inventory := c.inventory + [Conflict(id.pr, c.seen[id.pr], Merge(id.sha, id.mergedAt))])
    else
      c.(keys := c.keys + [KeyOf(r)],
         seen := if id.Intent? then c.seen[id.pr := Merge(id.sha, id.mergedAt)] else c.seen,
         inventory := c.inventory + [id])
  }

  function Take(c: Checkpoint, r: Record): Result<Checkpoint, Refusal> {
    var c := c.(recordsRead := c.recordsRead + 1);
    if !InWindow(c.query, r) then Ok(c.(outside := c.outside + 1))
    else if KeyOf(r).Payload? && !r.canonical then Err(NotCanonical)
    else if KeyOf(r) in c.keys then Ok(c.(duplicates := c.duplicates + 1))
    else if |c.inventory| >= MAX_INVENTORY then Err(InventoryCap)
    else Ok(Represent(c, r))
  }

  function TakeAll(c: Checkpoint, records: seq<Record>, n: nat): Result<Checkpoint, Refusal>
    requires n <= |records|
  {
    if n == 0 then Ok(c)
    else
      var before := TakeAll(c, records, n - 1);
      if before.Err? then before else Take(before.value, records[n - 1])
  }

  function FoldPage(c: Checkpoint, records: seq<Record>): Result<Checkpoint, Refusal> {
    if |records| > MAX_PAGE_RECORDS then Err(PageTooLarge)
    else
      var sorted := Sort(records, RecordLe);
      var end := TakeAll(c, sorted, |sorted|);
      if end.Err? then end
      else Ok(end.value.(inventory := Sort(end.value.inventory, EntryLe), pagesRead := end.value.pagesRead + 1))
  }

  /** The loop of the source: a set of known keys beside the list, updates on a copy. */
  method ReconcilePage(c: Checkpoint, records: seq<Record>) returns (r: Result<Checkpoint, Refusal>)
    ensures r == FoldPage(c, records)
    ensures forall past :: Folds(c, records, past, r)
  {
    forall past ensures Folds(c, records, past, FoldPage(c, records)) {
      FoldPageIs(c, records, past);
    }
    hide TakeAll, Take, Represent, Sort, Identity, InWindow, KeyOf, Folds;
    if |records| > MAX_PAGE_RECORDS {
      return Err(PageTooLarge);
    }
    NothingTaken(c, Sort(records, RecordLe));
    var updated, keys, sorted := c, Elements(c.keys), Sort(records, RecordLe);
    for i := 0 to |sorted|
      invariant TakeAll(c, sorted, i) == Ok(updated) && forall k :: k in keys <==> k in updated.keys
    {
      var record := sorted[i];
      ghost var was := updated;
      TakenStep(c, sorted, i);
      TakeIs(was, record);
      updated := updated.(recordsRead := updated.recordsRead + 1);
      if !InWindow(updated.query, record) {
        updated := updated.(outside := updated.outside + 1);
      } else {
        var identity, key := Identity(record), KeyOf(record);
        if key.Payload? && !record.canonical {
          ErrorSticks(c, sorted, i + 1, |sorted|);
          return Err(NotCanonical);
        } else if key in keys {
          updated := updated.(duplicates := updated.duplicates + 1);
        } else {
          keys, updated := keys + {key}, updated.(keys := updated.keys + [key]);
          if identity.Intent? {
            if identity.pr in updated.seen && updated.seen[identity.pr].sha != identity.sha {
              identity := Conflict(identity.pr, updated.seen[identity.pr], Merge(identity.sha, identity.mergedAt));
            } else {
              updated := updated.(seen := updated.seen[identity.pr := Merge(identity.sha, identity.mergedAt)]);
            }
          }
          if |updated.inventory| >= MAX_INVENTORY {
            ErrorSticks(c, sorted, i + 1, |sorted|);
            return Err(InventoryCap);
          }
          updated := updated.(inventory := updated.inventory + [identity]);
        }
      }
      assert Take(was, record) == Ok(updated);
    }
    updated := updated.(inventory := Sort(updated.inventory, EntryLe));
    r := Ok(updated.(pagesRead := updated.pagesRead + 1));
  }

  /** The four ways one record is taken. */
  lemma TakeIs(c: Checkpoint, r: Record)
    ensures var counted := c.(recordsRead := c.recordsRead + 1);
            Take(c, r) ==
            if !InWindow(c.query, r) then Ok(counted.(outside := c.outside + 1))
            else if KeyOf(r).Payload? && !r.canonical then Err(NotCanonical)
            else if KeyOf(r) in c.keys then Ok(counted.(duplicates := c.duplicates + 1))
            else if |c.inventory| >= MAX_INVENTORY then Err(InventoryCap)
            else
              var id, keyed := Identity(r), counted.(keys := c.keys + [KeyOf(r)]);
              if !id.Intent? then Ok(keyed.(inventory := c.inventory + [id]))
              else if id.pr in c.seen && c.seen[id.pr].sha != id.sha then
                Ok(keyed.(inventory := c.inventory + [Conflict(id.pr, c.seen[id.pr], Merge(id.sha, id.mergedAt))]))
              else
                Ok(keyed.(seen := c.seen[id.pr := Merge(id.sha, id.mergedAt)], inventory := c.inventory + [id]))
  {
    hide InWindow, KeyOf, Identity;
  }

  lemma NothingTaken(c: Checkpoint, records: seq<Record>)
    ensures TakeAll(c, records, 0) == Ok(c)
  {
  }

  lemma TakenStep(c: Checkpoint, records: seq<Record>, i: nat)
    requires i < |records| && TakeAll(c, records, i).Ok?
    ensures TakeAll(c, records, i + 1) == Take(TakeAll(c, records, i).value, records[i])
  {
  }

  lemma {:induction false} ErrorSticks(c: Checkpoint, records: seq<Record>, i: nat, n: nat)
    requires i <= n <= |records| && TakeAll(c, records, i).Err?
    ensures TakeAll(c, records, n) == TakeAll(c, records, i)
  {
    if i < n {
      ErrorSticks(c, records, i, n - 1);
    }
  }

  // ----- one read of the forge --------------------------------------------------------------------------

  /** A reply; flawed covers a missing field and an incomplete, truncated or errored result. */
  datatype Reply = Reply(flawed: bool, records: seq<Record>, hasNext: bool, next: Option<string>)

  type Forge = Option<string> -> Reply

  function CheckReply(reply: Reply, cursor: Option<string>, history: seq<string>): Option<Refusal> {
    if reply.flawed || (reply.next.Some? && !CursorOk(reply.next.value)) ||
        reply.hasNext != reply.next.Some? then Some(IncompletePage)
    else if reply.next.Some? && (reply.next == cursor || reply.next.value in history) then Some(CursorCycled)
    else None
  }

  /** One page folded in, the cursor moved, the history extended. */
  function Advance(c: Checkpoint, reply: Reply): Result<Checkpoint, Refusal> {
    if c.pagesRead >= MAX_PAGES then Err(PageCap)
    else
      var refused := CheckReply(reply, c.cursor, c.history);
      if refused.Some? then Err(refused.value)
      else
        var page := FoldPage(c, reply.records);
        if page.Err? then page
        else
          Ok(page.value.(cursor := reply.next, complete := reply.next.None?,
                         history := if reply.next.Some? then c.history + [reply.next.value] else c.history))
  }

  /** The inventory one uninterrupted reading of n pages makes. */
  function Uninterrupted(q: Query, forge: Forge, n: nat): Result<Checkpoint, Refusal> {
    if n == 0 then Ok(NewCheckpoint(q))
    else
      var before := Uninterrupted(q, forge, n - 1);
      if before.Err? || before.value.complete then before else Advance(before.value, forge(before.value.cursor))
  }

  /** A state without what depends on how its run was cut up. */
  function Core(c: Checkpoint): Checkpoint {
    c.(failures := 0, steps := [], dryRun := false)
  }

  // ----- what folding keeps -----------------------------------------------------------------------------

  ghost predicate OneIntentEach(inventory: seq<Entry>) {
    forall i, j :: 0 <= i < j < |inventory| && inventory[i].Intent? && inventory[j].Intent? ==>
        inventory[i].pr != inventory[j].pr
  }

  /** The registry holds exactly the intents of the inventory. */
  ghost predicate Registered(seen: map<int, Merge>, inventory: seq<Entry>) {
    && (forall e <- inventory :: e.Intent? ==> e.pr in seen && seen[e.pr] == Merge(e.sha, e.mergedAt))
    && (forall pr <- seen :: exists e <- inventory :: e.Intent? && e.pr == pr)
  }

  /** Each known key left its trace: an intent, the conflict that displaced it, or the reason it is unsupported. */
  ghost predicate Traced(k: Key, seen: map<int, Merge>, inventory: seq<Entry>) {
    match k
    case Source(pr, sha) =>
      && pr in seen
      && (if seen[pr].sha == sha then exists e <- inventory :: e.Intent? && e.pr == pr && e.sha == sha
          else exists e <- inventory :: e.Conflict? && e.pr == pr && e.observed.sha == sha)
    case Payload(r) => Identity(r) in inventory
  }

  ghost predicate AllTraced(keys: seq<Key>, seen: map<int, Merge>, inventory: seq<Entry>) {
    forall k <- keys :: Traced(k, seen, inventory)
  }

  ghost predicate IntentsKeyed(keys: seq<Key>, inventory: seq<Entry>) {
    forall e <- inventory :: e.Intent? ==> Source(e.pr, e.sha) in keys
  }

  ghost predicate EntriesOk(q: Query, inventory: seq<Entry>) {
    forall e <- inventory :: EntryOk(q, e)
  }

  ghost predicate Sound(c: Checkpoint) {
    && Distinct(c.keys) && |c.keys| == |c.inventory| <= MAX_INVENTORY
    && c.recordsRead == |c.keys| + c.duplicates + c.outside
    && EntriesOk(c.query, c.inventory) && IntentsKeyed(c.keys, c.inventory)
    && Registered(c.seen, c.inventory) && OneIntentEach(c.inventory) && AllTraced(c.keys, c.seen, c.inventory)
  }

  lemma RepresentRegisters(c: Checkpoint, r: Record)
    requires Registered(c.seen, c.inventory) && IntentsKeyed(c.keys, c.inventory) && KeyOf(r) !in c.keys
    ensures var d := Represent(c, r);
            Registered(d.seen, d.inventory) && IntentsKeyed(d.keys, d.inventory)
  {
    var d, id := Represent(c, r), Identity(r);
    var entry := d.inventory[|c.inventory|];
    assert entry in d.inventory;
    forall pr | pr in d.seen ensures exists e <- d.inventory :: e.Intent? && e.pr == pr {
      if pr in c.seen {
        var e :| e in c.inventory && e.Intent? && e.pr == pr;
        assert e in d.inventory;
      }
    }
    forall e | e in d.inventory && e.Intent?
      ensures e.pr in d.seen && d.seen[e.pr] == Merge(e.sha, e.mergedAt) && Source(e.pr, e.sha) in d.keys
    {
      if e in c.inventory {
        assert Source(e.pr, e.sha) in c.keys;
      } else {
        assert e == entry;
      }
    }
  }

  lemma RepresentIsOnce(c: Checkpoint, r: Record)
    requires Registered(c.seen, c.inventory) && IntentsKeyed(c.keys, c.inventory) && OneIntentEach(c.inventory)
    requires KeyOf(r) !in c.keys
    ensures OneIntentEach(Represent(c, r).inventory)
  {
    var id := Identity(r);
    if id.Intent? && id.pr in c.seen {
      var e :| e in c.inventory && e.Intent? && e.pr == id.pr;
      assert Source(e.pr, e.sha) in c.keys;
    }
  }

  lemma RepresentTraces(c: Checkpoint, r: Record)
    requires Registered(c.seen, c.inventory) && IntentsKeyed(c.keys, c.inventory) && KeyOf(r) !in c.keys
    requires AllTraced(c.keys, c.seen, c.inventory)
    ensures var d := Represent(c, r); AllTraced(d.keys, d.seen, d.inventory)
  {
    var d, id := Represent(c, r), Identity(r);
    var entry := d.inventory[|c.inventory|];
    assert entry in d.inventory;
    RepresentRegisters(c, r);
    forall k | k in d.keys ensures Traced(k, d.seen, d.inventory) {
      if k in c.keys {
        assert Traced(k, c.seen, c.inventory);
        assert forall e :: e in c.inventory ==> e in d.inventory;
      } else {
        assert k == KeyOf(r);
      }
    }
  }

  lemma RepresentCounts(c: Checkpoint, r: Record)
    requires Distinct(c.keys) && |c.keys| == |c.inventory| < MAX_INVENTORY && KeyOf(r) !in c.keys
    requires c.recordsRead == |c.keys| + c.duplicates + c.outside
    ensures var d := Represent(c, r);
            && Distinct(d.keys) && |d.keys| == |d.inventory| <= MAX_INVENTORY && d.query == c.query
            && c.recordsRead + 1 == |d.keys| + d.duplicates + d.outside
  {
  }

  lemma RepresentFits(c: Checkpoint, r: Record)
    requires EntriesOk(c.query, c.inventory) && Registered(c.seen, c.inventory) && InWindow(c.query, r)
    ensures EntriesOk(c.query, Represent(c, r).inventory)
  {
    hide Distinct;
    var d := Represent(c, r);
    forall e | e in d.inventory ensures EntryOk(c.query, e) {
      if e !in c.inventory {
        assert e == d.inventory[|c.inventory|];
        var id := Identity(r);
        if id.Intent? && id.pr in c.seen {
          var known :| known in c.inventory && known.Intent? && known.pr == id.pr;
          assert EntryOk(c.query, known);
        }
      }
    }
  }

  lemma RepresentKeeps(c: Checkpoint, r: Record)
    requires Sound(c) && InWindow(c.query, r) && KeyOf(r) !in c.keys && |c.inventory| < MAX_INVENTORY
    ensures Sound(Represent(c, r).(recordsRead := c.recordsRead + 1))
  {
    hide Registered, IntentsKeyed, OneIntentEach, AllTraced, EntriesOk, Distinct, Represent, InWindow;
    RepresentRegisters(c, r);
    RepresentIsOnce(c, r);
    RepresentTraces(c, r);
    RepresentFits(c, r);
    RepresentCounts(c, r);
  }

  lemma TakeKeeps(c: Checkpoint, r: Record)
    requires Sound(c) && Take(c, r).Ok?
    ensures Sound(Take(c, r).value) && SameProgress(c, Take(c, r).value)
  {
    hide Registered, IntentsKeyed, OneIntentEach, AllTraced, EntriesOk, Distinct;
    if InWindow(c.query, r) && KeyOf(r) !in c.keys {
      RepresentKeeps(c, r);
    }
  }

  ghost predicate SameProgress(c: Checkpoint, d: Checkpoint) {
    d.query == c.query && d.cursor == c.cursor && d.pagesRead == c.pagesRead && d.history == c.history &&
    d.failures == c.failures && d.complete == c.complete && d.steps == c.steps && d.dryRun == c.dryRun
  }

  lemma {:induction false} TakeAllKeeps(c: Checkpoint, records: seq<Record>, n: nat)
    requires n <= |records| && Sound(c) && TakeAll(c, records, n).Ok?
    ensures Sound(TakeAll(c, records, n).value) && SameProgress(c, TakeAll(c, records, n).value)
  {
    hide Sound, Take;
    if n > 0 {
      TakeAllKeeps(c, records, n - 1);
      TakeKeeps(TakeAll(c, records, n - 1).value, records[n - 1]);
    }
  }

  lemma SortIsOnce(inventory: seq<Entry>)
    requires OneIntentEach(inventory)
    ensures OneIntentEach(Sort(inventory, EntryLe))
  {
    SortKeepsApart(inventory, EntryLe, (a: Entry, b: Entry) => a.Intent? && b.Intent? && a.pr == b.pr);
  }

  /** Sorting the inventory keeps all that is said of it. */
  lemma SortIsSound(c: Checkpoint)
    requires Sound(c)
    ensures Sound(c.(inventory := Sort(c.inventory, EntryLe)))
  {
    hide OneIntentEach, Distinct;
    SortIsOnce(c.inventory);
    SortKeeps(c.inventory, EntryLe);
    SortRegisters(c.seen, c.inventory);
    forall k | k in c.keys ensures Traced(k, c.seen, Sort(c.inventory, EntryLe)) {
      assert Traced(k, c.seen, c.inventory);
    }
  }

  lemma SortRegisters(seen: map<int, Merge>, inventory: seq<Entry>)
    requires Registered(seen, inventory)
    ensures Registered(seen, Sort(inventory, EntryLe))
  {
    SortKeeps(inventory, EntryLe);
    forall pr | pr in seen ensures exists e <- Sort(inventory, EntryLe) :: e.Intent? && e.pr == pr {
      var e :| e in inventory && e.Intent? && e.pr == pr;
      assert e in Sort(inventory, EntryLe);
    }
  }

  /** The progress a checkpoint claims: one valid, distinct cursor for every page but a last one. */
  ghost predicate OnTrack(c: Checkpoint) {
    && c.pagesRead <= MAX_PAGES
    && (forall h <- c.history :: CursorOk(h)) && Distinct(c.history)
    && |c.history| == c.pagesRead - (if c.complete then 1 else 0)
    && (c.complete || c.cursor == if c.history == [] then None else Some(c.history[|c.history| - 1]))
    && (c.complete ==> c.cursor.None? && c.pagesRead > 0)
  }

  lemma AdvanceKeeps(c: Checkpoint, reply: Reply)
    requires Sound(c) && OnTrack(c) && !c.complete && Advance(c, reply).Ok?
    ensures var d := Advance(c, reply).value;
            Sound(d) && OnTrack(d) && d.query == c.query && d.pagesRead == c.pagesRead + 1 &&
            d.failures == c.failures && d.steps == c.steps && d.dryRun == c.dryRun
  {
    hide TakeAll, Sort, Registered, IntentsKeyed, OneIntentEach, AllTraced, EntriesOk;
    var sorted := Sort(reply.records, RecordLe);
    TakeAllKeeps(c, sorted, |sorted|);
    SortIsSound(TakeAll(c, sorted, |sorted|).value);
  }

  // ----- every saved state is accepted ------------------------------------------------------------------

  lemma {:induction false} ExpectedIsRegistry(inventory: seq<Entry>, seen: map<int, Merge>)
    requires forall e <- inventory :: e.Intent? ==> e.pr in seen && seen[e.pr] == Merge(e.sha, e.mergedAt)
    ensures forall pr :: pr in ExpectedSeen(inventory) ==> pr in seen && ExpectedSeen(inventory)[pr] == seen[pr]
    ensures forall e <- inventory :: e.Intent? ==> e.pr in ExpectedSeen(inventory)
  {
    if inventory != [] {
      var front, last := inventory[..|inventory| - 1], inventory[|inventory| - 1];
      assert last in inventory;
      ExpectedIsRegistry(front, seen);
      forall e | e in inventory && e.Intent? ensures e.pr in ExpectedSeen(inventory) {
        assert inventory == front + [last];
      }
    }
  }

  lemma RegistryIsExpected(seen: map<int, Merge>, inventory: seq<Entry>)
    requires Registered(seen, inventory)
    ensures seen == ExpectedSeen(inventory)
  {
    ExpectedIsRegistry(inventory, seen);
    var expected := ExpectedSeen(inventory);
    forall pr ensures (pr in seen <==> pr in expected) && (pr in seen ==> seen[pr] == expected[pr]) {
      if pr in seen {
        var e :| e in inventory && e.Intent? && e.pr == pr;
        assert e.pr in ExpectedSeen(inventory);
      }
    }
    assert seen == expected;
  }

  /** A sealed sound state passes every check of the loader, for the query it belongs to and for no other. */
  lemma SavedIsAccepted(c: Checkpoint, q: Query, allowComplete: bool)
    requires Sound(c) && OnTrack(c)
    ensures Load(Seal(c), q, allowComplete) ==
            if c.query != q then Err(WrongQuery) else if c.complete && !allowComplete then Err(AlreadyComplete)
            else Ok(c)
  {
    hide OneIntentEach, AllTraced, IntentsKeyed, Registered;
    CountElements(c.keys);
    CountElements(c.history);
    RegistryIsExpected(c.seen, c.inventory);
    assert Seal(c).summary == Summarize(c);
  }

  // ----- runs cut up anyhow -----------------------------------------------------------------------------

  /** The run-dependent part of a checkpoint does not steer the fold. */
  lemma TakeIgnoresRun(c: Checkpoint, r: Record)
    ensures Take(Core(c), r) == CoreOf(Take(c, r))
  {
  }

  function CoreOf(r: Result<Checkpoint, Refusal>): Result<Checkpoint, Refusal> {
    if r.Ok? then Ok(Core(r.value)) else r
  }

  lemma {:induction false} TakeAllIgnoresRun(c: Checkpoint, records: seq<Record>, n: nat)
    requires n <= |records|
    ensures TakeAll(Core(c), records, n) == CoreOf(TakeAll(c, records, n))
  {
    hide Take, Core;
    if n > 0 {
      TakeAllIgnoresRun(c, records, n - 1);
      if TakeAll(c, records, n - 1).Ok? {
        TakeIgnoresRun(TakeAll(c, records, n - 1).value, records[n - 1]);
      }
    }
  }

  lemma AdvanceIgnoresRun(c: Checkpoint, reply: Reply)
    ensures Advance(Core(c), reply) == CoreOf(Advance(c, reply))
  {
    hide TakeAll, Sort;
    var sorted := Sort(reply.records, RecordLe);
    TakeAllIgnoresRun(c, sorted, |sorted|);
  }

  /** Reading stays sound and on track for as long as it is not refused. */
  lemma {:induction false} UninterruptedKeeps(q: Query, forge: Forge, n: nat)
    requires Uninterrupted(q, forge, n).Ok?
    ensures var c := Uninterrupted(q, forge, n).value;
            && Sound(c) && OnTrack(c) && c.query == q && Core(c) == c
            && c.pagesRead <= n && (c.complete || c.pagesRead == n)
  {
    if n == 0 {
      var c := NewCheckpoint(q);
      assert Sound(c) && OnTrack(c);
    } else {
      UninterruptedKeeps(q, forge, n - 1);
      var c := Uninterrupted(q, forge, n - 1).value;
      hide Sound, OnTrack, Advance;
      if !c.complete {
        AdvanceKeeps(c, forge(c.cursor));
      }
    }
  }

  /** A state reached by any run: it differs from the uninterrupted fold only in what tells about its run. */
  ghost predicate Follows(q: Query, forge: Forge, c: Checkpoint) {
    Uninterrupted(q, forge, c.pagesRead) == Ok(Core(c))
  }

  lemma FollowersKeep(q: Query, forge: Forge, c: Checkpoint)
    requires Follows(q, forge, c)
    ensures Sound(c) && OnTrack(c) && c.query == q
  {
    UninterruptedKeeps(q, forge, c.pagesRead);
    SameCoreSound(c);
  }

  lemma SameCoreSound(c: Checkpoint)
    requires Sound(Core(c)) && OnTrack(Core(c))
    ensures Sound(c) && OnTrack(c)
  {
    hide Registered, IntentsKeyed, OneIntentEach, AllTraced, EntriesOk, Distinct;
  }

  lemma FollowerAdvances(q: Query, forge: Forge, c: Checkpoint)
    requires Follows(q, forge, c) && !c.complete
    ensures Uninterrupted(q, forge, c.pagesRead + 1) == CoreOf(Advance(c, forge(c.cursor)))
    ensures Advance(c, forge(c.cursor)).Ok? ==>
              Follows(q, forge, Advance(c, forge(c.cursor)).value) &&
                  Advance(c, forge(c.cursor)).value.pagesRead == c.pagesRead + 1
  {
    AdvanceIgnoresRun(c, forge(c.cursor));
    FollowersKeep(q, forge, c);
    hide Advance, Sound, OnTrack;
    if Advance(c, forge(c.cursor)).Ok? {
      AdvanceKeeps(c, forge(c.cursor));
    }
  }

  lemma {:induction false} CompleteIsFinal(q: Query, forge: Forge, n: nat, m: nat)
    requires n <= m && Uninterrupted(q, forge, n).Ok? && Uninterrupted(q, forge, n).value.complete
    ensures Uninterrupted(q, forge, m) == Uninterrupted(q, forge, n)
  {
    hide Advance;
    if n < m {
      CompleteIsFinal(q, forge, n, m - 1);
    }
  }

  /** Any two runs that complete, however they were cut up, end with the same inventory, registry and counts. */
  lemma CompletedRunsAgree(q: Query, forge: Forge, a: Checkpoint, b: Checkpoint)
    requires Follows(q, forge, a) && Follows(q, forge, b) && a.complete && b.complete
    ensures Core(a) == Core(b)
  {
    if a.pagesRead <= b.pagesRead {
      CompleteIsFinal(q, forge, a.pagesRead, b.pagesRead);
    } else {
      CompleteIsFinal(q, forge, b.pagesRead, a.pagesRead);
    }
  }

  /** What one read of the forge meets besides a reply. */
  datatype Weather = Fair | Transport | Exhausted

  predicate ValidQuery(q: Query) {
    q.after < q.before && 1 <= q.budget <= 200
  }

  ghost predicate Trustworthy(q: Query, forge: Forge, saved: Option<Snapshot>) {
    saved.Some? ==> saved.value == Seal(saved.value.state) && Follows(q, forge, saved.value.state)
  }

  function PagesSaved(saved: Option<Snapshot>): nat {
    if saved.Some? then saved.value.state.pagesRead else 0
  }

  function Saved(saved: Option<Snapshot>, q: Query): Checkpoint {
    if saved.Some? then saved.value.state else NewCheckpoint(q)
  }

  function Total(steps: seq<Outcome>): nat {
    if steps == [] then 0
    else
      var last := steps[|steps| - 1];
      Total(steps[..|steps| - 1]) + if last.PageRead? then last.records else 0
  }

  /** The log of an invocation: one entry a page, with the number of its records. */
  ghost predicate Logged(weather: nat -> Weather, start: Checkpoint, c: Checkpoint) {
    && c.pagesRead == start.pagesRead + |c.steps| && c.failures == start.failures
    && c.recordsRead == start.recordsRead + Total(c.steps)
    && forall i :: 0 <= i < |c.steps| ==> weather(i) == Fair && c.steps[i].PageRead?
  }

  /** The log of one that a read cut short: an outage counts as a failure, an exhausted allowance does not. */
  ghost predicate CutShort(weather: nat -> Weather, start: Checkpoint, c: Checkpoint) {
    c.steps != [] &&
    var n := |c.steps| - 1;
    && Logged(weather, start, c.(steps := c.steps[..n], failures := start.failures))
    && (|| (weather(n) == Transport && c.steps[n] == TransportFailure && c.failures == start.failures + 1)
        || (weather(n) == Exhausted && c.steps[n] == BudgetExhausted && c.failures == start.failures))
  }

  lemma AdvanceReads(c: Checkpoint, reply: Reply)
    requires Sound(c) && OnTrack(c) && !c.complete
    ensures Advance(c, reply).Ok? ==> Advance(c, reply).value.recordsRead == c.recordsRead + |reply.records|
    ensures Advance(c, reply).Err? ==>
              Advance(c, reply).error in {PageCap, IncompletePage, CursorCycled, PageTooLarge, NotCanonical,
                                          InventoryCap}
  {
    hide Sound, OnTrack, TakeAll, Sort, Keys, Outside;
    var sorted := Sort(reply.records, RecordLe);
    SortKeeps(reply.records, RecordLe);
    if TakeAll(c, sorted, |sorted|).Ok? {
      TakeAllKnows(c, sorted, |sorted|);
    } else {
      TakeAllRefuses(c, sorted, |sorted|);
    }
  }

  lemma LogsPage(weather: nat -> Weather, start: Checkpoint, c: Checkpoint, d: Checkpoint, records: nat)
    requires Logged(weather, start, c) && weather(|c.steps|) == Fair
    requires d.pagesRead == c.pagesRead + 1 && d.recordsRead == c.recordsRead + records
    requires d.failures == c.failures && d.steps == c.steps + [PageRead(records)]
    ensures Logged(weather, start, d)
  {
    assert d.steps[..|d.steps| - 1] == c.steps;
  }

  lemma LogsStop(weather: nat -> Weather, start: Checkpoint, c: Checkpoint, step: Outcome, failures: nat)
    requires Logged(weather, start, c)
    requires || (weather(|c.steps|) == Transport && step == TransportFailure && failures == c.failures + 1)
             || (weather(|c.steps|) == Exhausted && step == BudgetExhausted && failures == c.failures)
    ensures CutShort(weather, start, c.(steps := c.steps + [step], failures := failures))
  {
    var d := c.(steps := c.steps + [step], failures := failures);
    assert d.steps[..|c.steps|] == c.steps;
    assert d.(steps := c.steps, failures := start.failures) == c;
  }

  /** The saved checkpoint file. */
  class Store {
    var saved: Option<Snapshot>

    constructor ()
      ensures saved.None?
    {
      saved := None;
    }

    /** Saves the state, unless the run is dry or the process dies at this save. */
    method Persist(q: Query, forge: Forge, c: Checkpoint, dryRun: bool, endurance: nat, saves: nat)
        returns (alive: bool, after: nat)
      requires Follows(q, forge, c) && Trustworthy(q, forge, saved)
      modifies this
      ensures Trustworthy(q, forge, saved) && Seal(c).state == c
      ensures alive <==> dryRun || saves < endurance
      ensures saved == if dryRun || !alive then old(saved) else Some(Seal(c))
      ensures after == if dryRun || !alive then saves else saves + 1
    {
      SealHolds(c);
      if !dryRun {
        if saves >= endurance {
          return false, saves;
        }
        saved := Some(Seal(c));
        return true, saves + 1;
      }
      return true, saves;
    }

    /**
     One invocation: resume or start, then read up to the budget, saving after every page and every failed
     read. The process dies at the save numbered endurance, before it takes effect.
     */
    method Invoke(q: Query, forge: Forge, weather: nat -> Weather, endurance: nat, dryRun: bool)
        returns (r: Result<Snapshot, Refusal>)
      requires Trustworthy(q, forge, saved)
      modifies this
      ensures Trustworthy(q, forge, saved)
      ensures dryRun ==> saved == old(saved)
      ensures PagesSaved(old(saved)) <= PagesSaved(saved) <= PagesSaved(old(saved)) + q.budget
      ensures old(saved).Some? && old(saved).value.state.complete ==> r.Err? && saved == old(saved)
      ensures r.Ok? ==>
                && r.value == Seal(r.value.state) && Follows(q, forge, r.value.state)
                && (!dryRun ==> saved == Some(r.value))
                && (|| r.value.state.complete
                    || r.value.state.pagesRead == PagesSaved(old(saved)) + q.budget
                    || (r.value.state.pagesRead < MAX_PAGES && exists i :: 0 <= i < q.budget && weather(i) != Fair))
      ensures r.Ok? ==>
                && r.value.state.dryRun == dryRun
                && (|| Logged(weather, Saved(old(saved), q), r.value.state)
                    || (CutShort(weather, Saved(old(saved), q), r.value.state) && !r.value.state.complete))
      ensures r == Err(BadQuery) <==> !(q.after < q.before && 1 <= q.budget <= 200)
      ensures r.Err? ==>
                || r.error == BadQuery || r.error == AlreadyComplete || (r.error == Crashed && !dryRun)
                || exists n :: Uninterrupted(q, forge, n) == Err(r.error)
    {
      hide Advance, Seal, Follows, Uninterrupted, Logged, CutShort, Trustworthy;
      var begun := Start(q, forge);
      if begun.Err? {
        return Err(begun.error);
      }
      ghost var first := begun.value;
      var checkpoint := begun.value.(dryRun := dryRun, steps := []);
      BeginsLogged(q, forge, weather, first, checkpoint);
      var alive, saves := Persist(q, forge, checkpoint, dryRun, endurance, 0);
      if !alive {
        return Err(Crashed);
      }
      for i := 0 to q.budget
        invariant Follows(q, forge, checkpoint) && !checkpoint.complete && checkpoint.pagesRead == first.pagesRead + i
        invariant checkpoint.dryRun == dryRun && |checkpoint.steps| == i && Logged(weather, first, checkpoint)
        invariant if dryRun then saved == old(saved)
                  else saved == Some(Seal(checkpoint)) && Seal(checkpoint).state == checkpoint
        invariant Trustworthy(q, forge, saved)
      {
        if checkpoint.pagesRead >= MAX_PAGES {
          CapRefuses(q, forge, checkpoint);
          return Err(PageCap);
        }
        if weather(i) != Fair {
          var failures := checkpoint.failures + if weather(i).Transport? then 1 else 0;
          var step := if weather(i).Transport? then TransportFailure else BudgetExhausted;
          LogsStop(weather, first, checkpoint, step, failures);
          RelabelFollows(q, forge, checkpoint, dryRun, checkpoint.steps + [step], failures);
          checkpoint := checkpoint.(failures := failures, steps := checkpoint.steps + [step]);
          alive, saves := Persist(q, forge, checkpoint, dryRun, endurance, saves);
          if !alive {
            return Err(Crashed);
          }
          return Ok(Seal(checkpoint));
        }
        var reply := forge(checkpoint.cursor);
        ReadsOn(q, forge, weather, first, checkpoint);
        var read := Advance(checkpoint, reply);
        if read.Err? {
          return Err(read.error);
        }
        checkpoint := read.value.(steps := read.value.steps + [PageRead(|reply.records|)]);
        alive, saves := Persist(q, forge, checkpoint, dryRun, endurance, saves);
        if !alive {
          return Err(Crashed);
        }
        if checkpoint.complete {
          return Ok(Seal(checkpoint));
        }
      }
      SealHolds(checkpoint);
      r := Ok(Seal(checkpoint));
    }

    /** The saved state, when it passes every check, or a new one. */
    method Start(q: Query, forge: Forge) returns (r: Result<Checkpoint, Refusal>)
      requires Trustworthy(q, forge, saved)
      ensures r == Err(BadQuery) <==> !(q.after < q.before && 1 <= q.budget <= 200)
      ensures r.Err? ==> r.error == BadQuery || r.error == AlreadyComplete
      ensures saved.Some? && saved.value.state.complete ==> r.Err?
      ensures r.Ok? ==> r.value == Saved(saved, q) && r.value.pagesRead == PagesSaved(saved) && !r.value.complete
      ensures r.Ok? ==> Follows(q, forge, r.value)
    {
      hide Load, Sound, OnTrack, Follows, Uninterrupted, Seal;
      if !ValidQuery(q) {
        return Err(BadQuery);
      }
      if saved.None? {
        NewFollows(q, forge);
        return Ok(NewCheckpoint(q));
      }
      FollowersKeep(q, forge, saved.value.state);
      SavedIsAccepted(saved.value.state, q, false);
      r := Load(saved.value, q, false);
    }
  }

  lemma BeginsLogged(q: Query, forge: Forge, weather: nat -> Weather, first: Checkpoint, c: Checkpoint)
    requires Follows(q, forge, first) && c == first.(dryRun := c.dryRun, steps := [])
    ensures Follows(q, forge, c) && Logged(weather, first, c)
  {
    hide Uninterrupted;
    RelabelFollows(q, forge, first, c.dryRun, [], c.failures);
    LogsNothing(weather, first, c);
  }

  /** Reading one more page goes on following the forge and keeping the log, or meets the forge's own refusal. */
  lemma ReadsOn(q: Query, forge: Forge, weather: nat -> Weather, first: Checkpoint, c: Checkpoint)
    requires Follows(q, forge, c) && !c.complete && Logged(weather, first, c) && weather(|c.steps|) == Fair
    ensures var read := Advance(c, forge(c.cursor));
            && (read.Err? ==>
                && read.error !in {BadQuery, AlreadyComplete, Crashed}
                && Uninterrupted(q, forge, c.pagesRead + 1) == Err(read.error))
            && (read.Ok? ==>
                var d := read.value.(steps := read.value.steps + [PageRead(|forge(c.cursor).records|)]);
                && Follows(q, forge, d) && d.pagesRead == c.pagesRead + 1 && d.dryRun == c.dryRun
                && |d.steps| == |c.steps| + 1 && Logged(weather, first, d))
  {
    hide Advance, Follows, Uninterrupted, Sound, OnTrack, Logged;
    var reply := forge(c.cursor);
    FollowersKeep(q, forge, c);
    FollowerAdvances(q, forge, c);
    AdvanceReads(c, reply);
    var read := Advance(c, reply);
    if read.Ok? {
      AdvanceKeeps(c, reply);
      var d := read.value.(steps := read.value.steps + [PageRead(|reply.records|)]);
      RelabelFollows(q, forge, read.value, read.value.dryRun, d.steps, read.value.failures);
      LogsPage(weather, first, c, d, |reply.records|);
    }
  }

  lemma LogsNothing(weather: nat -> Weather, start: Checkpoint, c: Checkpoint)
    requires c == start.(dryRun := c.dryRun, steps := [])
    ensures Logged(weather, start, c)
  {
  }

  /** At the page cap the next page is refused before it is read. */
  lemma CapRefuses(q: Query, forge: Forge, c: Checkpoint)
    requires Follows(q, forge, c) && !c.complete && c.pagesRead >= MAX_PAGES
    ensures Uninterrupted(q, forge, c.pagesRead + 1) == Err(PageCap)
  {
    FollowerAdvances(q, forge, c);
  }

  lemma NewFollows(q: Query, forge: Forge)
    ensures Follows(q, forge, NewCheckpoint(q))
  {
  }

  lemma SealHolds(c: Checkpoint)
    ensures Seal(c).state == c
  {
  }

  lemma RelabelFollows(q: Query, forge: Forge, c: Checkpoint, dryRun: bool, steps: seq<Outcome>, failures: nat)
    requires Follows(q, forge, c)
    ensures Follows(q, forge, c.(dryRun := dryRun, steps := steps, failures := failures))
  {
  }

  /** Once a page is read the inventory stands in order of time, number and reason. */
  lemma {:induction false} InventoryIsOrdered(q: Query, forge: Forge, n: nat)
    requires Uninterrupted(q, forge, n).Ok? && n > 0
    ensures Ordered(Uninterrupted(q, forge, n).value.inventory, EntryLe)
    ensures forall i, j :: 0 <= i < j < |Uninterrupted(q, forge, n).value.inventory| ==>
              Precedes(Uninterrupted(q, forge, n).value.inventory[i], Uninterrupted(q, forge, n).value.inventory[j])
  {
    hide Advance, Precedes;
    var before := Uninterrupted(q, forge, n - 1);
    if before.value.complete {
      UninterruptedKeeps(q, forge, n - 1);
      InventoryIsOrdered(q, forge, n - 1);
    } else {
      AdvanceOrders(before.value, forge(before.value.cursor));
    }
    forall a, b | EntryLe(a, b) ensures Precedes(a, b) {
      RankIsOrder(a, b);
    }
  }

  lemma AdvanceOrders(c: Checkpoint, reply: Reply)
    requires Advance(c, reply).Ok?
    ensures Ordered(Advance(c, reply).value.inventory, EntryLe)
  {
    hide TakeAll, Sort;
    var sorted := Sort(reply.records, RecordLe);
    EntryOrderIsTotal();
    SortOrders(TakeAll(c, sorted, |sorted|).value.inventory, EntryLe);
  }

  lemma EntryOrderIsTotal()
    ensures TotalPreorder(EntryLe)
  {
    forall a, b, c | EntryLe(a, b) && EntryLe(b, c) ensures EntryLe(a, c) {
      RankOrder(EntryRank(a), EntryRank(b), EntryRank(c));
    }
  }

  lemma RankOrder(a: Rank, b: Rank, c: Rank)
    ensures Le(a, b) && Le(b, c) ==> Le(a, c)
  {
  }

  /** The texts the inventory is sorted by: the timestamp where an entry has one, its number, its reason. */
  function TimeOf(e: Entry): nat {
    if e.Intent? || e.MalformedMerge? || e.MalformedHead? then e.mergedAt else 0
  }

  function NumberOf(e: Entry): int {
    if e.NotAnObject? || e.MalformedNumber? then 0 else e.pr
  }

  function Reason(e: Entry): string {
    match e
    case Intent(_, _, _, _) => ""
    case NotAnObject => "page record is not an object"
    case MalformedNumber => "malformed PR number"
    case MalformedTime(_) => "missing or malformed mergedAt"
    case MalformedMerge(_, _) => "missing or malformed merge commit identity"
    case MalformedHead(_, _) => "source head gone or malformed"
    case Conflict(_, _, _) => "conflicting merge identity for one PR"
  }

  ghost predicate Precedes(a: Entry, b: Entry) {
    || TimeOf(a) < TimeOf(b)
    || (TimeOf(a) == TimeOf(b) && NumberOf(a) < NumberOf(b))
    || (TimeOf(a) == TimeOf(b) && NumberOf(a) == NumberOf(b) && !Less(Reason(b), Reason(a)))
  }

  lemma RankIsOrder(a: Entry, b: Entry)
    ensures EntryLe(a, b) ==> Precedes(a, b)
  {
    RankTells(a);
    RankTells(b);
    hide EntryRank, TimeOf, NumberOf, Reason, ReasonText, Less;
    if EntryRank(a).reason <= EntryRank(b).reason {
      ReasonsAscend(EntryRank(a).reason, EntryRank(b).reason);
    }
  }

  lemma RankTells(e: Entry)
    ensures EntryRank(e).time == TimeOf(e) && EntryRank(e).number == NumberOf(e) && EntryRank(e).reason <= 6
    ensures Reason(e) == ReasonText(EntryRank(e).reason)
  {
  }

  function ReasonText(n: nat): string {
    if n == 0 then ""
    else if n == 1 then "conflicting merge identity for one PR"
    else if n == 2 then "malformed PR number"
    else if n == 3 then "missing or malformed merge commit identity"
    else if n == 4 then "missing or malformed mergedAt"
    else if n == 5 then "page record is not an object"
    else "source head gone or malformed"
  }

  /** The first place two texts differ decides. */
  lemma {:induction false} LessAt(a: string, b: string, k: nat)
    requires k < |a| && k < |b| && a[..k] == b[..k] && a[k] < b[k]
    ensures Less(a, b)
  {
    if k > 0 {
      assert a[..k][0] == b[..k][0] && a[1..][..k - 1] == a[..k][1..] && b[1..][..k - 1] == b[..k][1..];
      LessAt(a[1..], b[1..], k - 1);
    }
  }

  lemma NextReason(n: nat)
    requires n < 6
    ensures Less(ReasonText(n), ReasonText(n + 1))
  {
    hide Less;
    if n == 0 {
      EmptyIsLeast(ReasonText(1));
    } else {
      LessAt(ReasonText(n), ReasonText(n + 1), if n == 2 then 1 else if n == 3 then 26 else 0);
    }
  }

  lemma EmptyIsLeast(s: string)
    requires s != ""
    ensures Less("", s)
  {
  }

  lemma {:induction false} ReasonsAscend(m: nat, n: nat)
    requires m <= n <= 6
    ensures !Less(ReasonText(n), ReasonText(m)) && (m < n ==> Less(ReasonText(m), ReasonText(n)))
  {
    hide Less, ReasonText;
    Irreflexive(ReasonText(m));
    if m < n {
      ReasonsAscend(m, n - 1);
      NextReason(n - 1);
      if m < n - 1 {
        LessIsTransitive(ReasonText(m), ReasonText(n - 1), ReasonText(n));
      }
      if Less(ReasonText(n), ReasonText(m)) {
        LessIsTransitive(ReasonText(n), ReasonText(m), ReasonText(n));
        Irreflexive(ReasonText(n));
      }
    }
  }

  // ----- nothing read is lost ---------------------------------------------------------------------------

  /** Merged, by an exact timestamp, at a time the query does not ask for. */
  ghost predicate Beyond(q: Query, r: Record) {
    r.Object? && r.mergedAt.Text? && r.mergedAt.exact && !(q.after < r.mergedAt.rank <= q.before)
  }

  /** Everything an intent needs is there, and the merge lies in the window. */
  ghost predicate Whole(q: Query, r: Record) {
    && r.Object? && r.number.Some? && r.number.value > 0 && r.oid.Some? && r.head.Some?
    && r.mergedAt.Text? && r.mergedAt.exact && q.after < r.mergedAt.rank <= q.before
  }

  ghost predicate Flawed(q: Query, r: Record) {
    !Beyond(q, r) && !Whole(q, r)
  }

  ghost predicate Numbered(r: Record, pr: int) {
    r.Object? && r.number == Some(pr) && pr > 0
  }

  /** The entry says what the fields of the record say, or the first thing that is wrong with them. */
  ghost predicate Says(q: Query, r: Record, e: Entry) {
    match e
    case Intent(pr, at, sha, head) =>
      && Numbered(r, pr) && r.mergedAt == Text(at, true) && q.after < at <= q.before
      && r.oid == Some(sha) && r.head == Some(head)
    case NotAnObject => r.Scalar?
    case MalformedNumber => r.Object? && (r.number.Some? ==> r.number.value <= 0) && !Beyond(q, r)
    case MalformedTime(pr) => Numbered(r, pr) && (r.mergedAt.Text? ==> !r.mergedAt.exact)
    case MalformedMerge(pr, at) =>
      Numbered(r, pr) && r.mergedAt == Text(at, true) && q.after < at <= q.before && r.oid.None?
    case MalformedHead(pr, at) =>
      Numbered(r, pr) && r.mergedAt == Text(at, true) && q.after < at <= q.before && r.oid.Some? && r.head.None?
    case Conflict(pr, _, observed) =>
      && Numbered(r, pr) && r.mergedAt == Text(observed.mergedAt, true) && q.after < observed.mergedAt <= q.before
      && r.oid == Some(observed.sha) && r.head.Some?
  }

  ghost predicate IntentOf(e: Entry, pr: int, merge: Merge) {
    e.Intent? && e.pr == pr && Merge(e.sha, e.mergedAt) == merge
  }

  /** Some record says it; and a conflict names the intent that stands and a merge commit other than its own. */
  ghost predicate Backed(q: Query, records: seq<Record>, inventory: seq<Entry>, e: Entry) {
    && (exists r <- records :: Says(q, r, e))
    && (e.Conflict? ==> e.prior.sha != e.observed.sha && exists i <- inventory :: IntentOf(i, e.pr, e.prior))
  }

  /** A whole record is an intent or in conflict with one; any other has an entry with its own reason. */
  ghost predicate Shown(q: Query, r: Record, inventory: seq<Entry>) {
    && (Whole(q, r) ==> exists e <- inventory ::
          || (e.Intent? && e.pr == r.number.value && e.sha == r.oid.value)
          || (e.Conflict? && e.pr == r.number.value && e.observed.sha == r.oid.value))
    && (Flawed(q, r) ==> exists e <- inventory :: !e.Intent? && !e.Conflict? && Says(q, r, e))
  }

  /** What counts as one: a pull request and its merge commit, or the payload of a flawed record. */
  ghost function Keys(q: Query, records: seq<Record>): set<Key> {
    (set r <- records | Whole(q, r) :: Source(r.number.value, r.oid.value)) +
    (set r <- records | Flawed(q, r) :: Payload(r))
  }

  ghost function Outside(q: Query, records: seq<Record>): nat {
    if records == [] then 0
    else Outside(q, records[..|records| - 1]) + if Beyond(q, records[|records| - 1]) then 1 else 0
  }

  /** The checkpoint accounts for these records: each shown, each entry backed, each counted once. */
  ghost predicate Accounts(c: Checkpoint, records: seq<Record>) {
    && Elements(c.keys) == Keys(c.query, records) && |c.inventory| == |Keys(c.query, records)|
    && c.recordsRead == |records| == |c.inventory| + c.duplicates + c.outside && c.outside == Outside(c.query, records)
    && (forall e <- c.inventory :: Backed(c.query, records, c.inventory, e))
    && (forall r <- records :: Shown(c.query, r, c.inventory))
    && OneIntentEach(c.inventory)
  }

  lemma WindowIs(q: Query, r: Record)
    ensures InWindow(q, r) <==> !Beyond(q, r)
  {
  }

  lemma IdentityIs(q: Query, r: Record)
    requires InWindow(q, r)
    ensures Says(q, r, Identity(r)) && !Identity(r).Conflict?
    ensures Whole(q, r) <==> Identity(r).Intent?
    ensures KeyOf(r) == if Whole(q, r) then Source(r.number.value, r.oid.value) else Payload(r)
  {
  }

  lemma KeysSnoc(q: Query, records: seq<Record>, r: Record)
    ensures Keys(q, records + [r]) == Keys(q, records) + if InWindow(q, r) then {KeyOf(r)} else {}
  {
    WindowIs(q, r);
    if InWindow(q, r) {
      IdentityIs(q, r);
    }
    hide InWindow, KeyOf, Identity, Whole, Beyond;
  }

  lemma KeysConcat(q: Query, a: seq<Record>, b: seq<Record>)
    ensures Keys(q, a + b) == Keys(q, a) + Keys(q, b)
  {
    hide Whole, Flawed;
  }

  lemma KeysSorted(q: Query, records: seq<Record>)
    ensures Keys(q, Sort(records, RecordLe)) == Keys(q, records)
  {
    hide Whole, Flawed, Sort;
    SortKeeps(records, RecordLe);
  }

  lemma {:induction false} OutsideCounts(q: Query, a: seq<Record>, b: seq<Record>)
    ensures Outside(q, a + b) == Outside(q, a) + Outside(q, b)
  {
    if b == [] {
      assert a + b == a;
    } else {
      assert (a + b)[..|a + b| - 1] == a + b[..|b| - 1];
      OutsideCounts(q, a, b[..|b| - 1]);
    }
  }

  lemma {:induction false} OutsideSorted(q: Query, records: seq<Record>)
    ensures Outside(q, Sort(records, RecordLe)) == Outside(q, records)
  {
    hide Beyond;
    if records != [] {
      OutsideSorted(q, records[..|records| - 1]);
      OutsideInserted(q, Sort(records[..|records| - 1], RecordLe), records[|records| - 1]);
    }
  }

  lemma {:induction false} OutsideInserted(q: Query, s: seq<Record>, x: Record)
    ensures Outside(q, Insert(s, x, RecordLe)) == Outside(q, s) + if Beyond(q, x) then 1 else 0
  {
    hide Beyond;
    if s == [] || RecordLe(s[|s| - 1], x) {
      assert (s + [x])[..|s + [x]| - 1] == s;
    } else {
      var front, last := s[..|s| - 1], s[|s| - 1];
      OutsideInserted(q, front, x);
      var inserted := Insert(front, x, RecordLe);
      assert (inserted + [last])[..|inserted + [last]| - 1] == inserted;
    }
  }

  // ----- one page, said of its records ------------------------------------------------------------------

  lemma TakeKnows(c: Checkpoint, r: Record)
    requires Take(c, r).Ok?
    ensures var d := Take(c, r).value;
            && d.query == c.query && d.recordsRead == c.recordsRead + 1
            && d.outside == c.outside + (if Beyond(c.query, r) then 1 else 0)
            && Elements(d.keys) == Elements(c.keys) + if InWindow(c.query, r) then {KeyOf(r)} else {}
  {
    hide KeyOf, Identity;
    WindowIs(c.query, r);
    assert Elements(c.keys + [KeyOf(r)]) == Elements(c.keys) + {KeyOf(r)};
  }

  lemma {:induction false} TakeAllKnows(c: Checkpoint, records: seq<Record>, n: nat)
    requires n <= |records| && TakeAll(c, records, n).Ok?
    ensures var d := TakeAll(c, records, n).value;
            && d.query == c.query && d.recordsRead == c.recordsRead + n
            && d.outside == c.outside + Outside(c.query, records[..n])
            && Elements(d.keys) == Elements(c.keys) + Keys(c.query, records[..n])
  {
    hide InWindow, KeyOf, Beyond, Keys, Take, Elements;
    if n == 0 {
      NoKeys(c.query);
    } else {
      TakeAllKnows(c, records, n - 1);
      var r := records[n - 1];
      assert records[..n] == records[..n - 1] + [r];
      assert records[..n][..n - 1] == records[..n - 1];
      TakeKnows(TakeAll(c, records, n - 1).value, r);
      KeysSnoc(c.query, records[..n - 1], r);
    }
  }

  lemma NoKeys(q: Query)
    ensures Keys(q, []) == {}
  {
  }

  ghost predicate AllBacked(q: Query, records: seq<Record>, inventory: seq<Entry>) {
    forall e <- inventory :: Backed(q, records, inventory, e)
  }

  /** What is backed stays backed as records and entries come in. */
  lemma BackedLater(q: Query, records: seq<Record>, more: seq<Record>, inventory: seq<Entry>, longer: seq<Entry>,
                    e: Entry)
    requires Backed(q, records, inventory, e)
    requires (forall r <- records :: r in more) && forall i <- inventory :: i in longer
    ensures Backed(q, more, longer, e)
  {
    hide Says;
    var r :| r in records && Says(q, r, e);
    assert r in more;
    if e.Conflict? {
      var i :| i in inventory && IntentOf(i, e.pr, e.prior);
      assert i in longer;
    }
  }

  lemma RepresentBacks(c: Checkpoint, r: Record, records: seq<Record>)
    requires InWindow(c.query, r) && r in records && Registered(c.seen, c.inventory)
    requires AllBacked(c.query, records, c.inventory)
    ensures AllBacked(c.query, records, Represent(c, r).inventory)
  {
    var d, id := Represent(c, r), Identity(r);
    IdentityIs(c.query, r);
    forall e | e in d.inventory ensures Backed(c.query, records, d.inventory, e) {
      if e in c.inventory {
        BackedLater(c.query, records, records, c.inventory, d.inventory, e);
      } else if id.Intent? && id.pr in c.seen && c.seen[id.pr].sha != id.sha {
        var i :| i in c.inventory && i.Intent? && i.pr == id.pr;
        assert i in d.inventory && IntentOf(i, id.pr, c.seen[id.pr]);
      }
    }
  }

  lemma {:induction false} TakeAllBacks(c: Checkpoint, records: seq<Record>, n: nat, all: seq<Record>)
    requires n <= |records| && Sound(c) && TakeAll(c, records, n).Ok? && AllBacked(c.query, all, c.inventory)
    requires forall r <- records :: r in all
    ensures AllBacked(c.query, all, TakeAll(c, records, n).value.inventory)
    ensures forall e <- c.inventory :: e in TakeAll(c, records, n).value.inventory
  {
    hide Sound, KeyOf, InWindow, AllBacked;
    if n > 0 {
      TakeAllBacks(c, records, n - 1, all);
      TakeAllKeeps(c, records, n - 1);
      var d, r := TakeAll(c, records, n - 1).value, records[n - 1];
      SoundRegisters(d);
      if InWindow(d.query, r) && KeyOf(r) !in d.keys {
        RepresentBacks(d, r, all);
      }
    }
  }

  lemma SoundRegisters(c: Checkpoint)
    requires Sound(c)
    ensures Registered(c.seen, c.inventory) && OneIntentEach(c.inventory) && IntentsKeyed(c.keys, c.inventory)
    ensures Distinct(c.keys) && |c.keys| == |c.inventory| <= MAX_INVENTORY
    ensures c.recordsRead == |c.keys| + c.duplicates + c.outside
  {
  }

  /** Everything known left its trace, so every record read is shown. */
  lemma TraceShows(c: Checkpoint, records: seq<Record>, r: Record)
    requires Sound(c) && Elements(c.keys) == Keys(c.query, records) && r in records
    ensures Shown(c.query, r, c.inventory)
  {
    hide OneIntentEach, Registered, IntentsKeyed, EntriesOk, Distinct, InWindow, KeyOf, Identity, Whole, Says;
    WindowIs(c.query, r);
    if InWindow(c.query, r) {
      IdentityIs(c.query, r);
      KeyIsKnown(c.query, records, r);
      assert KeyOf(r) in Elements(c.keys);
      assert Traced(KeyOf(r), c.seen, c.inventory);
    } else {
      BeyondIsNeither(c.query, r);
    }
  }

  lemma BeyondIsNeither(q: Query, r: Record)
    requires Beyond(q, r)
    ensures !Whole(q, r) && !Flawed(q, r)
  {
  }

  lemma KeyIsKnown(q: Query, records: seq<Record>, r: Record)
    requires InWindow(q, r) && r in records
    ensures KeyOf(r) in Keys(q, records)
  {
    WindowIs(q, r);
    IdentityIs(q, r);
    hide InWindow, KeyOf, Identity, Whole, Beyond;
  }

  /** A sound checkpoint that accounts for what was read before goes on to account for the page. */
  lemma FoldPageAccounts(c: Checkpoint, records: seq<Record>, past: seq<Record>)
    requires Sound(c) && Accounts(c, past) && FoldPage(c, records).Ok?
    ensures Sound(FoldPage(c, records).value) && Accounts(FoldPage(c, records).value, past + records)
    ensures forall e <- c.inventory :: e in FoldPage(c, records).value.inventory
  {
    hide TakeAll, Sort, Sound, Backed, Shown, Keys, OneIntentEach, Outside, Registered, Distinct;
    var sorted, all := Sort(records, RecordLe), past + records;
    SortKeeps(records, RecordLe);
    TakeAllKeeps(c, sorted, |sorted|);
    var d := TakeAll(c, sorted, |sorted|).value;
    forall e | e in c.inventory ensures Backed(c.query, all, c.inventory, e) {
      BackedLater(c.query, past, all, c.inventory, c.inventory, e);
    }
    TakeAllBacks(c, sorted, |sorted|, all);
    SortIsSound(d);
    SortKeeps(d.inventory, EntryLe);
    var last := FoldPage(c, records).value;
    forall e | e in last.inventory ensures Backed(c.query, all, last.inventory, e) {
      BackedLater(c.query, all, all, d.inventory, last.inventory, e);
    }
    SamePlace(d.(inventory := last.inventory), last);
    FoldPageCounts(c, records, past);
    forall r | r in all ensures Shown(c.query, r, last.inventory) {
      TraceShows(last, all, r);
    }
  }

  lemma SamePlace(c: Checkpoint, d: Checkpoint)
    requires Sound(c) && d == c.(pagesRead := d.pagesRead)
    ensures Sound(d)
  {
    hide OneIntentEach, Registered, IntentsKeyed, EntriesOk, Distinct, AllTraced;
  }

  lemma FoldPageCounts(c: Checkpoint, records: seq<Record>, past: seq<Record>)
    requires Accounts(c, past) && FoldPage(c, records).Ok? && Sound(FoldPage(c, records).value)
    ensures var d, all := FoldPage(c, records).value, past + records;
            && d.query == c.query && Elements(d.keys) == Keys(c.query, all) && |d.inventory| == |Keys(c.query, all)|
            && d.recordsRead == |all| == |d.inventory| + d.duplicates + d.outside && d.outside == Outside(c.query, all)
            && OneIntentEach(d.inventory)
  {
    hide TakeAll, Sort, Sound, Backed, Shown, Keys, OneIntentEach, Outside;
    var sorted := Sort(records, RecordLe);
    SortKeeps(records, RecordLe);
    TakeAllKnows(c, sorted, |sorted|);
    assert sorted[..|sorted|] == sorted;
    KeysSorted(c.query, records);
    KeysConcat(c.query, past, records);
    OutsideSorted(c.query, records);
    OutsideCounts(c.query, past, records);
    SoundRegisters(FoldPage(c, records).value);
    CountElements(FoldPage(c, records).value.keys);
  }

  /** A page is folded in when it is short enough, its flawed records have digests and the inventory holds it all. */
  ghost predicate Foldable(q: Query, past: seq<Record>, records: seq<Record>) {
    && |records| <= 100 && (forall r <- records :: Flawed(q, r) ==> r.canonical)
    && |Keys(q, past + records)| <= 5000
  }

  lemma TakeRefuses(c: Checkpoint, r: Record)
    requires Sound(c)
    ensures Take(c, r).Ok? && Flawed(c.query, r) ==> r.canonical
    ensures Take(c, r).Err? ==>
              || (Take(c, r).error == NotCanonical && Flawed(c.query, r) && !r.canonical)
              || (Take(c, r).error == InventoryCap && |Elements(c.keys) + {KeyOf(r)}| > MAX_INVENTORY &&
                  InWindow(c.query, r))
  {
    WindowIs(c.query, r);
    if InWindow(c.query, r) {
      IdentityIs(c.query, r);
      SoundRegisters(c);
      CountElements(c.keys);
    }
    hide Sound, InWindow, KeyOf, Identity, Represent;
  }

  lemma {:induction false} TakeAllRefuses(c: Checkpoint, records: seq<Record>, n: nat)
    requires n <= |records| && Sound(c)
    ensures TakeAll(c, records, n).Ok? ==> forall r <- records[..n] :: Flawed(c.query, r) ==> r.canonical
    ensures TakeAll(c, records, n).Err? ==>
              || (TakeAll(c, records, n).error == NotCanonical
                  && exists r <- records[..n] :: Flawed(c.query, r) && !r.canonical)
              || (TakeAll(c, records, n).error == InventoryCap
                  && |Elements(c.keys) + Keys(c.query, records[..n])| > MAX_INVENTORY)
  {
    hide Sound, KeyOf, InWindow, Take, Flawed, Keys;
    if n > 0 {
      TakeAllRefuses(c, records, n - 1);
      var r := records[n - 1];
      assert records[..n] == records[..n - 1] + [r];
      KeysSnoc(c.query, records[..n - 1], r);
      if TakeAll(c, records, n - 1).Ok? {
        TakeAllKeeps(c, records, n - 1);
        TakeAllKnows(c, records, n - 1);
        TakeRefuses(TakeAll(c, records, n - 1).value, r);
        SetSums(Elements(c.keys), Keys(c.query, records[..n - 1]), KeyOf(r));
      } else {
        SubsetIsSmaller(Elements(c.keys) + Keys(c.query, records[..n - 1]),
                        Elements(c.keys) + Keys(c.query, records[..n]));
      }
    }
  }

  lemma SetSums(a: set<Key>, b: set<Key>, k: Key)
    ensures a + b + {k} == a + (b + {k})
  {
  }

  /** Exactly which pages are refused, and which of the two refusals a short page can meet. */
  lemma FoldPageRefuses(c: Checkpoint, records: seq<Record>, past: seq<Record>)
    requires Sound(c) && Accounts(c, past)
    ensures FoldPage(c, records).Ok? <==> Foldable(c.query, past, records)
    ensures FoldPage(c, records) == Err(PageTooLarge) <==> |records| > 100
    ensures FoldPage(c, records) == Err(NotCanonical) ==> exists r <- records :: Flawed(c.query, r) && !r.canonical
    ensures FoldPage(c, records) == Err(InventoryCap) ==> |Keys(c.query, past + records)| > 5000
  {
    hide TakeAll, Sort, Sound, Backed, Shown, Keys, OneIntentEach, Outside, Flawed;
    if |records| <= MAX_PAGE_RECORDS {
      var sorted := Sort(records, RecordLe);
      SortKeeps(records, RecordLe);
      TakeAllRefuses(c, sorted, |sorted|);
      assert sorted[..|sorted|] == sorted;
      KeysSorted(c.query, records);
      KeysConcat(c.query, past, records);
      if TakeAll(c, sorted, |sorted|).Ok? {
        FoldPageAccounts(c, records, past);
        SoundRegisters(FoldPage(c, records).value);
        FoldPageCounts(c, records, past);
      }
    }
  }

  /** A pull request met for the first time is represented by its earliest merge on the page. */
  ghost predicate Earliest(seen: map<int, Merge>, q: Query, records: seq<Record>, inventory: seq<Entry>) {
    forall e <- inventory :: e.Intent? && e.pr !in seen ==> EarliestFor(q, records, e)
  }

  ghost predicate EarliestFor(q: Query, records: seq<Record>, e: Entry)
    requires e.Intent?
  {
    && (exists y <- records :: Says(q, y, e))
    && forall r <- records :: Whole(q, r) && r.number == Some(e.pr) ==> e.mergedAt <= r.mergedAt.rank
  }

  lemma EarliestStays(q: Query, front: seq<Record>, r: Record, e: Entry)
    requires e.Intent? && EarliestFor(q, front, e) && forall x <- front :: RecordLe(x, r)
    ensures EarliestFor(q, front + [r], e)
  {
    var y :| y in front && Says(q, y, e);
    assert y in front + [r] && RecordLe(y, r);
  }

  lemma TakeIsEarliest(c: Checkpoint, r: Record, seen: map<int, Merge>, front: seq<Record>)
    requires Take(c, r).Ok? && Registered(c.seen, c.inventory) && IntentsKeyed(c.keys, c.inventory)
    requires Earliest(seen, c.query, front, c.inventory) && forall x <- front :: RecordLe(x, r)
    requires forall x <- front :: Whole(c.query, x) ==> x.number.value in c.seen
    requires forall pr <- seen :: pr in c.seen
    ensures Earliest(seen, c.query, front + [r], Take(c, r).value.inventory)
  {
    forall e | e in Take(c, r).value.inventory && e.Intent? && e.pr !in seen
      ensures EarliestFor(c.query, front + [r], e)
    {
      if e in c.inventory {
        EarliestStays(c.query, front, r, e);
      } else {
        IdentityIs(c.query, r);
        assert r in front + [r] && Says(c.query, r, e);
        assert e == Identity(r) && e.pr !in c.seen;
      }
    }
  }

  lemma {:induction false} TakeAllIsEarliest(c: Checkpoint, records: seq<Record>, n: nat)
    requires n <= |records| && Sound(c) && TakeAll(c, records, n).Ok? && Ordered(records, RecordLe)
    ensures var d := TakeAll(c, records, n).value;
            && Earliest(c.seen, c.query, records[..n], d.inventory)
            && (forall x <- records[..n] :: Whole(c.query, x) ==> x.number.value in d.seen)
            && (forall pr <- c.seen :: pr in d.seen)
  {
    hide Sound, KeyOf, InWindow, Take, Says, Identity, Earliest;
    if n == 0 {
      OldAreSeen(c);
    } else {
      var d, r, front := TakeAll(c, records, n - 1).value, records[n - 1], records[..n - 1];
      assert records[..n] == front + [r];
      TakeAllIsEarliest(c, records, n - 1);
      TakeAllKeeps(c, records, n - 1);
      SoundRegisters(d);
      TakeIsEarliest(d, r, c.seen, front);
      TakeSees(d, r);
      forall x | x in records[..n] && Whole(c.query, x) ensures x.number.value in Take(d, r).value.seen {
        if x in front {
          assert x.number.value in d.seen;
        } else {
          assert x == r;
        }
      }
    }
  }

  lemma OldAreSeen(c: Checkpoint)
    requires Sound(c)
    ensures Earliest(c.seen, c.query, [], c.inventory)
  {
    assert forall e <- c.inventory :: e.Intent? ==> e.pr in c.seen;
  }

  lemma TakeSees(c: Checkpoint, r: Record)
    requires Sound(c) && Take(c, r).Ok?
    ensures Whole(c.query, r) ==> r.number.value in Take(c, r).value.seen
    ensures forall pr <- c.seen :: pr in Take(c, r).value.seen
  {
    if Whole(c.query, r) {
      WindowIs(c.query, r);
      IdentityIs(c.query, r);
      if KeyOf(r) in c.keys {
        assert Traced(KeyOf(r), c.seen, c.inventory);
      }
    }
  }

  lemma FoldPageIsEarliest(c: Checkpoint, records: seq<Record>)
    requires Sound(c) && FoldPage(c, records).Ok?
    ensures Earliest(c.seen, c.query, records, FoldPage(c, records).value.inventory)
  {
    hide TakeAll, Sort, Sound, Says, Whole;
    var sorted := Sort(records, RecordLe);
    SortKeeps(records, RecordLe);
    RecordOrderIsTotal();
    SortOrders(records, RecordLe);
    TakeAllIsEarliest(c, sorted, |sorted|);
    assert sorted[..|sorted|] == sorted;
    var d := TakeAll(c, sorted, |sorted|).value;
    SortKeeps(d.inventory, EntryLe);
    forall e | e in FoldPage(c, records).value.inventory && e.Intent? && e.pr !in c.seen
      ensures EarliestFor(c.query, records, e)
    {
      assert e in d.inventory && EarliestFor(c.query, sorted, e);
      var y :| y in sorted && Says(c.query, y, e);
      assert y in records;
    }
  }

  lemma RecordOrderIsTotal()
    ensures TotalPreorder(RecordLe)
  {
    forall a, b, c | RecordLe(a, b) && RecordLe(b, c) ensures RecordLe(a, c) {
      RankOrder(RecordRank(a), RecordRank(b), RecordRank(c));
    }
  }

  /** From a checkpoint that accounts for the past to one that accounts for the page as well, or a refusal. */
  ghost predicate Folds(c: Checkpoint, records: seq<Record>, past: seq<Record>, r: Result<Checkpoint, Refusal>) {
    Sound(c) && Accounts(c, past) ==>
      && (r.Ok? <==> Foldable(c.query, past, records))
      && (r.Ok? ==>
          && Sound(r.value) && Accounts(r.value, past + records)
          && Earliest(c.seen, c.query, records, r.value.inventory)
          && forall e <- c.inventory :: e in r.value.inventory)
      && (r.Err? ==>
          match r.error
          case PageTooLarge => |records| > 100
          case NotCanonical => exists r <- records :: Flawed(c.query, r) && !r.canonical
          case InventoryCap => |Keys(c.query, past + records)| > 5000
          case _ => false)
  }

  lemma FoldPageIs(c: Checkpoint, records: seq<Record>, past: seq<Record>)
    ensures Folds(c, records, past, FoldPage(c, records))
  {
    hide Sound, Accounts, Earliest, Foldable, FoldPage, Keys, Flawed;
    if Sound(c) && Accounts(c, past) {
      FoldPageRefuses(c, records, past);
      if FoldPage(c, records).Ok? {
        FoldPageAccounts(c, records, past);
        FoldPageIsEarliest(c, records);
      } else {
        FoldPageErrors(c, records);
      }
    }
  }

  lemma FoldPageErrors(c: Checkpoint, records: seq<Record>)
    requires Sound(c) && FoldPage(c, records).Err?
    ensures FoldPage(c, records).error in {PageTooLarge, NotCanonical, InventoryCap}
  {
    hide TakeAll, Sort, Sound;
    var sorted := Sort(records, RecordLe);
    TakeAllRefuses(c, sorted, |sorted|);
  }

  /** Exactly which replies move the checkpoint on, and where to. */
  lemma AdvanceIs(c: Checkpoint, reply: Reply, past: seq<Record>)
    requires Sound(c) && Accounts(c, past)
    ensures Advance(c, reply).Ok? <==>
              && c.pagesRead < 1000 && !reply.flawed && (reply.hasNext <==> reply.next.Some?)
              && (reply.next.Some? ==>
                  0 < |reply.next.value| <= 4096 && reply.next != c.cursor && reply.next.value !in c.history)
              && Foldable(c.query, past, reply.records)
    ensures Advance(c, reply).Ok? ==>
              var d := Advance(c, reply).value;
              && d.cursor == reply.next && (d.complete <==> reply.next.None?) && d.pagesRead == c.pagesRead + 1
              && d.history == c.history + (if reply.next.Some? then [reply.next.value] else [])
  {
    FoldPageIs(c, reply.records, past);
    hide Sound, Accounts, Earliest, Foldable, TakeAll, Sort;
    if FoldPage(c, reply.records).Ok? {
      var sorted := Sort(reply.records, RecordLe);
      TakeAllKeeps(c, sorted, |sorted|);
    }
  }

  // ----- every reachable state --------------------------------------------------------------------------

  /** The records of the first n pages, in the order they were read. */
  ghost function Consumed(q: Query, forge: Forge, n: nat): seq<Record> {
    if n == 0 then []
    else
      var before := Uninterrupted(q, forge, n - 1);
      Consumed(q, forge, n - 1) +
          if before.Err? || before.value.complete then [] else forge(before.value.cursor).records
  }

  lemma {:induction false} ReadingAccounts(q: Query, forge: Forge, n: nat)
    requires Uninterrupted(q, forge, n).Ok?
    ensures Accounts(Uninterrupted(q, forge, n).value, Consumed(q, forge, n))
  {
    hide FoldPage, Accounts, Sound;
    if n == 0 {
      NewAccounts(q);
    } else {
      ReadingAccounts(q, forge, n - 1);
      UninterruptedKeeps(q, forge, n - 1);
      var c := Uninterrupted(q, forge, n - 1).value;
      if !c.complete {
        FoldPageAccounts(c, forge(c.cursor).records, Consumed(q, forge, n - 1));
        SameAccount(FoldPage(c, forge(c.cursor).records).value, Uninterrupted(q, forge, n).value,
                    Consumed(q, forge, n));
      } else {
        assert Consumed(q, forge, n - 1) + [] == Consumed(q, forge, n - 1);
      }
    }
  }

  lemma NewAccounts(q: Query)
    ensures Accounts(NewCheckpoint(q), [])
  {
  }

  /** Only the registries, the inventory and the counts are accounted for. */
  lemma SameAccount(c: Checkpoint, d: Checkpoint, records: seq<Record>)
    requires Accounts(c, records)
    requires d.query == c.query && d.keys == c.keys && d.inventory == c.inventory
    requires d.recordsRead == c.recordsRead && d.duplicates == c.duplicates && d.outside == c.outside
    ensures Accounts(d, records)
  {
    hide Keys, Outside, Backed, Shown, OneIntentEach;
  }

  /**
   In every reachable state each record read is accounted for: outside the window, an intent with its own
   number, times and commits, in conflict with one, or flawed for its own reason; and nothing else is there.
   */
  lemma NothingReadIsLost(q: Query, forge: Forge, c: Checkpoint)
    requires Follows(q, forge, c)
    ensures c.query == q && Accounts(c, Consumed(q, forge, c.pagesRead))
  {
    ReadingAccounts(q, forge, c.pagesRead);
    FollowersKeep(q, forge, c);
    hide Uninterrupted, Accounts, Consumed;
    SameAccount(Core(c), c, Consumed(q, forge, c.pagesRead));
  }
}
