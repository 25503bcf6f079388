# Review queue verification

This project models the durable core of the review queue in `apps/crq-python` and proves what its
documentation and tests promise of it. Each file is one module.

- **Append-only ledger.** `Ledger` (events, the sequence validator, independent batches), `Publication` (causal
  ordering, batching, the push protocol of any number of publishers), `Checkpoint` (rollback protection under
  concurrent validators), `Canonical` and `Decimal` (canonical JSON, sections 3.2.2.2 and 3.2.3 of RFC 8785),
  `JsonReader` (a reader of RFC 8259 texts that undoes it).
- **Coverage accounting.** `Intervals`, `DiffParser`, `Lineage`, `Carry`, `FactCache`, `CoverageSnapshot`.
- **Merged pull-request discovery.** `Reconcile` (the checkpointed page fold), `RecentScan` (a keyset scan of a list
  that changes between requests), `Discovery` (intervals, partitions and the watermark), `Timestamps`.
- **Allocators and schedulers.** `Subjects` (recursive cutting), `RequiredGroups` and `Inventory` (ranking and
  packing), `RankFour` (admission, ownership, quarantine) and `RankFourRuns` (whole runs of it), `PushRange`
  (splitting a range) and `PushLane` (the queue of parts and the reviewed tip). `SubjectsLaws`, `InventoryLaws` and
  `RankFourLaws` say what their results are in terms of the data alone.
- **At-most-once state machines.** `RepairLadder`, `FindingDelivery`, `AuthorLease`.
- `Prelude` and `Sorting` hold shared vocabulary: options, results, facts about sequences, stable sorting.

How the model is built:

- What the source computes in a loop or updates in place is a method, with a loop or a class, proved equal to a
  specification function; what the source promises is proved about that function or as an invariant over every run,
  and what the function computes is stated once more without it, on the fields of its inputs and outputs.
- A crash is the loss of everything not saved. The choices of the environment (a crash, a report, a blackout) are
  parameters, so that each operation is determined by them and by the state; in `Publication`, `Checkpoint`,
  `CoverageSnapshot`, `RecentScan`, `Discovery` and `RankFourRuns` whole runs are traces of a transition relation.
- SHA-256 is collision-free: an identifier is a datatype constructor around the content it was computed from.
- Git is an ancestry order, trees of paths and blobs with truthful diffs, and a ref moved by compare-and-swap. The
  forge, the vendor, the clock and the models are parameters.
- Exact UTC timestamps are integers; `Timestamps` shows that comparing the texts is comparing the instants.
- `RecentScan` assumes of the forge, as the source's own description does, that between requests a row may vanish,
  change its update time in place or reappear at the top with a new one, and that untouched rows keep their order.
- Discovery keeps a fixed floor and a clock that never runs backwards.

Where a stated property turned out to fail, the model keeps the code and says exactly when it holds. The events of
one finding form a chain that the ledger accepts if and only if the finding was delivered at most once: a finding
confirmed and delivered again under an unchanged request spools a second event under the source key
`delivery:<finding>`, which the validator refuses as conflicting evidence. A completion can clear the quarantine of
a sibling job: it does so exactly when only path units it credited itself held the sibling there, as after a failure of
another family on a shared path while the completing job runs. A push range can be passed by the reviewed tip with
overflow that no part will review: exactly when its capture, itself over the size limit, finds a follow-up of an earlier
attempt pinned to another target, because an exception ended that attempt after the follow-up was enrolled and the
branch moved on in between. A finding whose local row was lost while events of it are retained may re-enter from another
review; the row then stands nowhere along its events.

## Model

| member | source | states |
|---|---|---|
| `Ledger.ValidateSequence` | apps/crq-python/review_ledger.py:263-292 | The validator as one loop: accepted exactly if every event is well formed, has its source key to itself and, at its first occurrence, meets its payload condition in the events before it; otherwise the first event that does not, with its reason. |
| `Ledger.ReplayConcat` | apps/crq-python/review_ledger.py:263-292 | Validation resumes: a sequence is accepted exactly when its front is and the rest is accepted from the state the front leaves. |
| `Ledger.ReplayKeeps` | apps/crq-python/review_ledger.py:263-292 | An accepted sequence registers exactly its own event ids, one source key each. |
| `Ledger.AcceptedIsCausal` | apps/crq-python/review_ledger.py:281-291 | In an accepted sequence a finding event follows its review and predecessor, and a credited or duplicate import follows the review it names. |
| `Ledger.AcceptedIsLawful` | apps/crq-python/review_ledger.py:263-292 | A sequence is accepted exactly if each event is lawful after those before it: a review lists distinct findings no earlier review lists, a finding event names the finding's review and its last event, an import names a review that is there. |
| `Ledger.AppendIsAccepted` | apps/crq-python/review_ledger.py:263-292 | After an accepted sequence one more event is accepted exactly if it is well formed, no other event has its source key, and it is there already or meets its payload condition. |
| `Ledger.ReplayNeutral` | apps/crq-python/review_ledger.py:28-52 | Imports that credit nothing and enrollments are accepted iff they fit the index as a set, so no order can matter. |
| `Ledger.IndependentIsNeutral` | apps/crq-python/review_ledger.py:28-52 | Whatever passes the batch test consists of such neutral events. |
| `Ledger.BatchOrderIrrelevant` | apps/crq-python/review_ledger.py:28-52 | Any two permutations of an independent batch are both accepted or both refused, and leave the same index. |
| `Publication.ReadyEvents` | apps/crq-python/review_ledger.py:537-546 | The events whose dependencies are all available; none left means the rest is stuck. |
| `Publication.MoveReady` | apps/crq-python/review_ledger.py:549-550 | Moving the ready events leaves exactly the other pending events. |
| `Publication.CausalOrder` | apps/crq-python/review_ledger.py:533-550 | Succeeds iff some causal order of the pending events exists, and then returns one. |
| `Publication.Place` | apps/crq-python/review_ledger.py:560-571 | One grouping step: groups stay within the limits, of one kind, independent of what came before, and lose nothing. |
| `Publication.Batches` | apps/crq-python/review_ledger.py:551-571 | The batches flatten to exactly the unpublished events in order, every batch of several passes the independence test against all earlier events, a new batch starts only where the kinds differ or the last one is full, and only ids already remote are acknowledged; an oversized record is refused. |
| `Publication.MakePlan` | apps/crq-python/review_ledger.py:533-571 | From the outbox and a fetched head the ordering and the batching together make a plan as the protocol requires it, refused exactly if no causal order exists or an unpublished record is too large. |
| `Publication.ReadingValidates` | apps/crq-python/review_ledger.py:428-489 | Re-sorting inside each commit, in any order, leaves the ledger valid with the same index. |
| `Publication.ReadingIsCausal` | apps/crq-python/review_ledger.py:485-489 | A reading in any per-commit order still has every dependency first. |
| `Publication.PushKeeps` | apps/crq-python/review_ledger.py:572-600 | Pushing a validated batch keeps the history readable, even when part of it is there already. |
| `Publication.NextKeeps` | apps/crq-python/review_ledger.py:526-603 | Every step of any publisher (spool, plan, acknowledge, push, lost reply, refetch, crash) keeps the protocol invariant, and the remote only grows. |
| `Publication.RunInvariant` | apps/crq-python/review_ledger.py:526-603 | So does every run of any number of publishers. |
| `Publication.PublishedLedgerIsSound` | apps/crq-python/review_ledger.py:428-603 | In every reachable world the rebuilt ledger is valid, holds each event once with its dependencies first, and contains every acknowledged event. |
| `Publication.UndisturbedPlanIsPublished` | apps/crq-python/review_ledger.py:526-603 | A plan that validates is carried out, batch by batch, as long as nobody else moves: the remote ends with exactly its batches appended and all of it is acknowledged. |
| `Checkpoint.NextKeeps` | apps/crq-python/review_ledger.py:491-524 | A step of any validator keeps the invariant and moves the shared checkpoint only to a descendant. |
| `Checkpoint.RunInvariant` | apps/crq-python/review_ledger.py:491-524 | The same over every interleaving. |
| `Checkpoint.FetchIsRollbackSafe` | apps/crq-python/review_ledger.py:491-524 | A returned head is an ancestor of the checkpoint in every later state, and a fetch that starts later returns nothing older. |
| `Checkpoint.StepIs` | apps/crq-python/review_ledger.py:491-524 | A validator raises exactly on a rollback, unreadable history, a lost or diverged checkpoint or the eighth refusal; the checkpoint moves only by its swap, from what it expected to its head. |
| `Checkpoint.UndisturbedFetchReturns` | apps/crq-python/review_ledger.py:491-524 | Left to itself a fetch of a readable descendant returns it and moves the checkpoint there. |
| `Checkpoint.RefusedFetchReturns` | apps/crq-python/review_ledger.py:508-523 | A refused swap ends too: at or behind the checkpoint it returns, ahead of it it moves it. |
| `Canonical.SortAscends` | apps/crq-python/review_ledger.py:74-76 | Members are written in strictly ascending UTF-16 order of their keys. |
| `Canonical.AscendingIsUnique` | apps/crq-python/review_ledger.py:74-76 | That order is determined by the set of keys. |
| `Canonical.EscapedIsUnique` | apps/crq-python/review_ledger.py:67-71 | An escaped string ends at its closing quote and determines its text. |
| `Canonical.EncodingIsUnique` | apps/crq-python/review_ledger.py:59-77 | A parser recovers the value from its bytes whatever delimiter follows: equal bytes before any delimiters come from equal values. |
| `Canonical.SameEncodesAlike` | apps/crq-python/review_ledger.py:59-77 | Equal values have equal bytes. |
| `Canonical.CanonicalIffSame` | apps/crq-python/review_ledger.py:59-81 | Bytes agree exactly when the values are equal. |
| `Canonical.InsertionOrderIsForgotten` | apps/crq-python/review_ledger.py:74-76 | The order in which members were inserted leaves no trace in the bytes. |
| `JsonReader.ReaderInvertsEncoder` | apps/crq-python/review_ledger.py:59-77 | A reader written from RFC 8259 alone makes of the bytes, whatever delimiter follows, the value they were made from. |
| `JsonReader.EscapeReads` | apps/crq-python/review_ledger.py:67-71 | Every escaped character is read back as itself. |
| `JsonReader.EscapeIsShortest` | apps/crq-python/review_ledger.py:67-71 | No shorter text is read as the same character, and controls use lower-case digits. |
| `JsonReader.KeysAreOrdered` | apps/crq-python/review_ledger.py:74-76 | Keys compare by their UTF-16 code units: supplementary characters below those from U+E000 on. |
| `Decimal.SameDigits` | apps/crq-python/review_ledger.py:63-66 | A number ends where its digits end: two digit runs before non-digits agree as wholes. |
| `Decimal.NumeralIsUnique` | apps/crq-python/review_ledger.py:63-66 | A decimal numeral determines its number. |
| `Intervals.Decode` | apps/crq-python/review_ledger.py:158-166 | Decodes rows in one pass and refuses exactly those that are not ascending, disjoint, positive and within the line bound. |
| `Intervals.Encode` | apps/crq-python/backfill_accounting.py:28-35 | Rows ascending with a gap between any two, covering exactly the given lines. |
| `Intervals.EncodedIsAcceptable` | apps/crq-python/backfill_accounting.py:28-35 | Encoded in-bounds lines decode again, to the lines they came from. |
| `Intervals.EncodingIsCanonical` | apps/crq-python/backfill_accounting.py:28-35 | Gapped rows are determined by their lines. |
| `Intervals.AcceptableIs` | apps/crq-python/review_ledger.py:158-166 | The accepted rows are those of positive lines up to a million, none reversed, every later row wholly above. |
| `Intervals.LinesAre` | apps/crq-python/review_ledger.py:158-166 | The decoded lines are those inside some row. |
| `DiffParser.ChangedIntervals` | apps/crq-python/backfill_accounting.py:267-313 | The parser loop over the lines of a patch, refusals included. |
| `DiffParser.HeaderReads` | apps/crq-python/backfill_accounting.py:302-310 | A printed hunk header reads back its counts and start, whatever heading follows. |
| `DiffParser.BodyRuns` | apps/crq-python/backfill_accounting.py:277-290 | A hunk body is consumed by its declared counts, whatever its lines look like, with or without no-newline markers. |
| `DiffParser.FileRuns` | apps/crq-python/backfill_accounting.py:267-313 | One file leaves its own lines credited to its own name and nothing else changed. |
| `DiffParser.ParserInvertsPrinter` | apps/crq-python/backfill_accounting.py:267-313 | Parsing what git prints returns exactly the head-side lines of every plainly named file, for any files, hunks and line contents. |
| `DiffParser.ShortBodyIsRefused` | apps/crq-python/backfill_accounting.py:277-313 | A body shorter than its declared counts is refused, at the next foreign line or at the end. |
| `DiffParser.ParserInvertsPatchText` | apps/crq-python/backfill_accounting.py:273-313 | The same inversion over the text of the patch. |
| `DiffParser.HeaderIs` | apps/crq-python/backfill_accounting.py:302-310 | Exactly the texts of the header form are read as hunk headers, with the counts and the start they spell. |
| `DiffParser.LineIs` | apps/crq-python/backfill_accounting.py:274-311 | What any line does by its text: inside a hunk it counts against its side or is refused, elsewhere it names a file, opens a hunk, is refused as a broken header, or is skipped. |
| `Lineage.StepThrough` | apps/crq-python/backfill_accounting.py:435-453 | One commit applied to a path: kept if no change takes it, followed over an exact rename of a blob held once on both sides, lost otherwise; the blob stays the same. |
| `Lineage.FindLineage` | apps/crq-python/backfill_accounting.py:403-454 | The walk along first-parent history ends at a path exactly if every commit on the way carries it, each holding the same blob. |
| `Lineage.StepIs` | apps/crq-python/backfill_accounting.py:435-453 | Under truthful diffs one commit carries a path to exactly itself, when no change deletes, copies or renames it, or to the destination of an exact rename whose blob has one name in each tree; the destination holds that blob. A deleted, copied, inexactly or ambiguously renamed path is carried nowhere. |
| `Lineage.LineageIs` | apps/crq-python/backfill_accounting.py:403-454 | The lineage of a path is where the commits of the first-parent history carry it, one after the other. |
| `Lineage.StepIsInjective` | apps/crq-python/backfill_accounting.py:435-453 | Under truthful diffs no two paths of a tree become one. |
| `Lineage.FollowLandsInTree` | apps/crq-python/backfill_accounting.py:428-454 | A followed path is in the tree it was followed to. |
| `Lineage.LineageIsInjective` | apps/crq-python/backfill_accounting.py:403-454 | Lineage is an injective partial map of paths. |
| `Lineage.LineageComposes` | apps/crq-python/backfill_accounting.py:403-454 | Old to middle to new is old to new, whether or not the path survives. |
| `Carry.Positions` | apps/crq-python/backfill_accounting.py:491-492 | The positions of exactly the blame signatures that occur once. |
| `Carry.MatchTable` | apps/crq-python/backfill_accounting.py:490-494 | The match table lists exactly the lines whose signature is unique on both sides and equal. |
| `Carry.SurvivalIsInjective` | apps/crq-python/backfill_accounting.py:477-513 | Survival is one-to-one. |
| `Carry.CarryLines` | apps/crq-python/backfill_accounting.py:505-513 | The lines a carry selects are those an exact match leads to, numbers from the end included; it fails exactly for a number before the first line. |
| `Carry.CarryDistributes` | apps/crq-python/backfill_accounting.py:477-513 | Carrying distributes over union, errors included. |
| `Carry.CarryIsInjective` | apps/crq-python/backfill_accounting.py:477-513 | Distinct positive lines land on distinct lines. |
| `Carry.CarriedCount` | apps/crq-python/backfill_accounting.py:477-513 | As many lines arrive as survive. |
| `Carry.AnchorVerifiedIff` | apps/crq-python/finding_delivery.py:50-52 | The anchor test of triage passes exactly when every line of the finding survives. |
| `FactCache.Evict` | apps/crq-python/backfill_accounting.py:121-130 | As few of the oldest facts as needed are dropped to make room. |
| `FactCache.Replace` | apps/crq-python/backfill_accounting.py:121-130 | A new fact enters, the byte counter stays exact and within the limit, and nothing else changes but evictions. |
| `FactCache.Cache.Memo` | apps/crq-python/backfill_accounting.py:115-119 | A remembered fact is the true one and becomes the most recent. |
| `FactCache.Cache.Remember` | apps/crq-python/backfill_accounting.py:121-130 | Facts larger than the table are not kept; every fact stays true and the bytes within the limit. |
| `FactCache.Cache.Clear` | apps/crq-python/backfill_accounting.py:92-101 | Starting an invocation forgets everything and keeps the table valid. |
| `FactCache.Cache.Read` | apps/crq-python/backfill_accounting.py:115-130 | Reading through the table gives the fact itself, whatever was remembered or evicted; a known fact moves to the end, a new one that fits enters there behind what of the old entries stays, one that does not fit leaves the table alone. |
| `FactCache.EvictTrees` | apps/crq-python/backfill_accounting.py:219-223 | As few of the oldest trees as needed are dropped to keep the number of trees and their bytes within bounds. |
| `FactCache.TreeCache.Read` | apps/crq-python/backfill_accounting.py:193-226 | Reading a tree gives the tree itself; the table of trees stays within both bounds and its counter exact. |
| `FactCache.FlushedCache.Read` | apps/crq-python/backfill_accounting.py:141-151 | Reading through a table that is emptied when full gives the fact itself; its counter is never below the bytes kept. |
| `FactCache.FlushedCache.Restart` | apps/crq-python/backfill_accounting.py:92-101 | A new invocation forgets the facts whether or not the counter is reset with them, and the table stays valid. |
| `CoverageSnapshot.Accounts.Fold` | apps/crq-python/backfill_accounting.py:536-551 | The fold over reviews with evidence checks that may fail part-way. |
| `CoverageSnapshot.FoldIsSandwiched` | apps/crq-python/backfill_accounting.py:536-551 | A fold holds all credit of the reviews it left no gap for and nothing beyond the credit of all. |
| `CoverageSnapshot.FoldIs` | apps/crq-python/backfill_accounting.py:536-551 | A line is covered after a fold exactly if it was before or the attempt at some creditable review gives it; the gaps are the reviews whose attempts fail. |
| `CoverageSnapshot.Store.RefreshOne` | apps/crq-python/backfill_coverage.py:134-166 | One refresh over any ledger and any failures: afterwards load answers and the snapshot speaks of the whole ledger; current comes only if it already did and no review with a gap was left; a gap whose retry is whole is gone. |
| `CoverageSnapshot.NextKeeps` | apps/crq-python/backfill_coverage.py:54-166 | Appends, refreshes over any seen prefix with any failures, and lost snapshots keep every stored snapshot truthful. |
| `CoverageSnapshot.RunInvariant` | apps/crq-python/backfill_coverage.py:54-166 | So does every schedule of them. |
| `CoverageSnapshot.LoadRefinesFullFold` | apps/crq-python/backfill_coverage.py:66-78 | Whatever load accepts lies in the sandwich, and an answer without gaps equals the fold of the whole ledger from nothing. |
| `CoverageSnapshot.UnchangedKeepsAnswer` | apps/crq-python/backfill_coverage.py:134-166 | A refresh that reports current or unchanged leaves the answer of load as it was. |
| `CoverageSnapshot.RefreshIs` | apps/crq-python/backfill_coverage.py:134-166 | The outcome of a refresh and the stored snapshot in terms of the ledger, the old snapshot and the attempts: which reviews are tried, what each adds, which gaps stay. |
| `CoverageSnapshot.LoadIs` | apps/crq-python/backfill_coverage.py:66-78 | A load answers exactly if the snapshot stands over a prefix of the ledger behind which no review is creditable, and then with its lines and gaps. |
| `Reconcile.ReconcilePage` | apps/crq-python/merged_reconcile.py:218-262 | The page loop, on a copy, with its set of known keys: every record is accounted for by its own fields, or the first refusal is the one returned. |
| `Reconcile.FoldPageIs` | apps/crq-python/merged_reconcile.py:218-262 | After a page every in-window record with number, time, merge commit and head has an intent with exactly these, or a conflict that observed its commit; every malformed one has its own reason; nothing else entered, and the counts add up. |
| `Reconcile.FoldPageRefuses` | apps/crq-python/merged_reconcile.py:218-262 | A page is refused exactly if it is too long, a malformed record is not canonical, or the inventory goes over its cap, each with its own error. |
| `Reconcile.FoldPageIsEarliest` | apps/crq-python/merged_reconcile.py:245-258 | Among records of one pull request and commit the one met first is kept. |
| `Reconcile.RepresentRegisters` | apps/crq-python/merged_reconcile.py:245-258 | Representing a record keeps the registry equal to the intents of the inventory. |
| `Reconcile.AdvanceKeeps` | apps/crq-python/merged_reconcile.py:218-281 | One page read keeps the checkpoint sound and its cursor history on track. |
| `Reconcile.AdvanceIs` | apps/crq-python/merged_reconcile.py:218-281 | One page read: the cursor, the counts and the end follow the reply, and it is refused exactly at the page cap, on an incomplete, repeated, oversized or refused page. |
| `Reconcile.RegistryIsExpected` | apps/crq-python/merged_reconcile.py:186-203 | The registry of a sound checkpoint is the one the loader rebuilds from the inventory. |
| `Reconcile.SavedIsAccepted` | apps/crq-python/merged_reconcile.py:153-207 | Every sealed sound checkpoint passes all checks of the loader for its own query, and is refused for any other; a complete one needs the flag. |
| `Reconcile.UninterruptedKeeps` | apps/crq-python/merged_reconcile.py:284-340 | One uninterrupted reading stays sound for as long as it is not refused. |
| `Reconcile.AdvanceIgnoresRun` | apps/crq-python/merged_reconcile.py:218-281 | Failures, steps and dry-run marks do not steer the fold. |
| `Reconcile.Store.Invoke` | apps/crq-python/merged_reconcile.py:284-340 | One invocation from any saved state, with page failures, budget stops, dry runs and death at any save: what is saved is always the uninterrupted fold of the pages read so far, never fewer than before, at most the budget more, at the page cap nothing more is read, and every attempt is logged with what it met. |
| `Reconcile.CompletedRunsAgree` | apps/crq-python/merged_reconcile.py:284-340 | Any two runs that complete, however cut up, end with the same inventory, registry and counts. |
| `Reconcile.InventoryIsOrdered` | apps/crq-python/merged_reconcile.py:260 | Once a page is read the inventory stands in order of time, number and reason text. |
| `Reconcile.NothingReadIsLost` | apps/crq-python/merged_reconcile.py:218-262 | In every reachable state every intent has a consumed record with its number, time, merge commit and head inside the window, every such record has an intent or a conflict that observed its commit, every malformed record its own reason; records = represented + duplicates + outside, and no pull request has two intents. |
| `RecentScan.WindowHoldsOffset` | apps/crq-python/crq.py:1394-1399 | The window contains the resume offset, starts on a page boundary and reaches as far as any allowed window. |
| `RecentScan.FindCut` | apps/crq-python/crq.py:1450-1464 | The anchor search finds the lowest surviving anchor on the page. |
| `RecentScan.TakeAbove` | apps/crq-python/crq.py:1474-1499 | The loop above the resume point. |
| `RecentScan.WalkDown` | apps/crq-python/crq.py:1500-1509 | The loop below it, with its look-ahead stop. |
| `RecentScan.RecentMergedPage` | apps/crq-python/crq.py:1402-1530 | A page as the source computes it, back-off and re-read included: the records are those of the merges it passes, with their number, merge time, merge commit and head; the next cursor, the anchors, the remembered ties and the end follow from the rows and the cursor. |
| `RecentScan.AcceptableReply` | apps/crq-python/crq.py:1350-1391 | Every cursor a page hands out is one the decoder accepts. |
| `RecentScan.ChurnKeeps` | apps/crq-python/crq.py:1402-1530 | Rows vanishing, changing or reappearing at the top keep untouched unread rows below the surviving anchors, and keep the remembered numbers of a second those of rows already reported. |
| `RecentScan.RequestKeeps` | apps/crq-python/crq.py:1402-1530 | So does every request, through back-off, anchor loss and re-reading from the top. |
| `RecentScan.RequestTells` | apps/crq-python/crq.py:1474-1530 | What a cursor remembers of a second it skips later was listed with that second, and any such row still listed that is a merge has its record among those handed out. |
| `RecentScan.PageReplies` | apps/crq-python/crq.py:1402-1530 | What a page answers in terms of the window's rows: which rows are new, what is reported of each, where it stops and what it remembers. |
| `RecentScan.RequestReports` | apps/crq-python/crq.py:1474-1530 | Every record a request adds is that of a listed row, not below the floor, merged into a discovery branch, with its number, merge time, merge commit and head. |
| `RecentScan.ScanInvariant` | apps/crq-python/crq.py:1350-1530 | In every reachable state the cursor decodes and every untouched unread row lies below the surviving anchors. |
| `RecentScan.PassSkipsNothing` | apps/crq-python/crq.py:1402-1530 | When a pass ends every row present at its start and unchanged lies below the floor, is no merge into a discovery branch, has its record among those handed out, or lies under the row at which the look-ahead stopped. |
| `RecentScan.OnlyMergesAreReported` | apps/crq-python/crq.py:1402-1530 | Over every run nothing is reported that was not, at some time, a listed merge into a discovery branch with exactly that number, time, commit and head. |
| `Discovery.QueueFile.Discover` | apps/crq-python/crq.py:1632-1711 | One attempt with its saves, dying before any of them, and the interval it completed. |
| `Discovery.AttemptIs` | apps/crq-python/crq.py:1632-1711 | The bounds, the record made durable first, and what a completed, incomplete, refused or over-full scan leaves of it, each in terms of the old record and the clock. |
| `Discovery.PartitionShrinks` | apps/crq-python/crq.py:1595-1609 | A partition is a strictly shorter non-empty interval that starts within what is covered and ends above the watermark. |
| `Discovery.PartitionFailsIff` | apps/crq-python/crq.py:1595-1609 | Exactly a single remaining second, or an interval wholly below the watermark, cannot be partitioned. |
| `Discovery.TickKeeps` | apps/crq-python/crq.py:1316-1336 | One tick keeps the no-gap invariant, never lowers the watermark, and completes only intervals already past. |
| `Discovery.DiscoveryLeavesNoGap` | apps/crq-python/crq.py:1316-1336 | In every reachable state each instant above the floor and up to the watermark lies in a completed interval. |
| `Discovery.RefusalIsResumed` | apps/crq-python/crq.py:1316-1336 | The next tick resumes exactly the interval a refusal left. |
| `Discovery.CapRefusalShrinks` | apps/crq-python/crq.py:1691-1706 | A cap refusal leaves a strictly shorter interval in progress that ends above the watermark. |
| `Discovery.PartitioningTerminates` | apps/crq-python/crq.py:1691-1706 | n partitions in a row need an interval wider than n seconds. |
| `Discovery.CompletionMovesWatermark` | apps/crq-python/crq.py:1677-1680 | Completing an interval that ends above the watermark moves the watermark to its end. |
| `Discovery.FreshBoundsAdvance` | apps/crq-python/crq.py:1316-1336 | Fresh bounds end above the watermark and in the past, and keep the five-minute overlap when no denser one is recorded. |
| `Timestamps.LexicographicIsChronological` | apps/crq-python/merged_reconcile.py:88-103 | On the exact timestamp format, comparing texts is comparing the instants they name. |
| `Timestamps.FormatIs` | apps/crq-python/merged_reconcile.py:88-103 | The text has twenty characters, every field in decimal digits at its place and its marks between them. |
| `Timestamps.YearsAre` | apps/crq-python/merged_reconcile.py:88-103 | The instants are those of the Gregorian calendar: leap days by fours, hundreds and four hundreds. |
| `Subjects.Construction.CutInto` | apps/crq-python/backfill_subjects.py:123-176 | The recursive cut, appending to the shared lists. |
| `Subjects.Construction.Build` | apps/crq-python/backfill_subjects.py:103-178 | The whole construction over the requested paths in order. |
| `Subjects.CutIsSound` | apps/crq-python/backfill_subjects.py:123-176 | Every partition is within the file, total and diff limits and shows exactly the requested lines its own diff shows; every debt is true; numbers are consecutive. |
| `Subjects.CutLosesNothing` | apps/crq-python/backfill_subjects.py:123-176 | Each requested line of each path is in some scope, or its path is in debt. |
| `Subjects.CutOncePerPass` | apps/crq-python/backfill_subjects.py:123-176 | Within one pass no path is put up for review twice. |
| `Subjects.ConstructionIsSound` | apps/crq-python/backfill_subjects.py:103-178 | All of this for every candidate, object table, limits and diff, and no two partitions share an identity. |
| `Subjects.FittingRequestsAreShown` | apps/crq-python/backfill_subjects.py:103-178 | When whole-file diffs show every requested line and the file fits alone, the line is shown. |
| `SubjectsLaws.NamesInOrder` | apps/crq-python/backfill_subjects.py:103-122 | The requested paths are taken up once each, in byte order. |
| `SubjectsLaws.CutIs` | apps/crq-python/backfill_subjects.py:123-176 | Which groups are cut and which partitions and debts each gives, in terms of what is requested. |
| `SubjectsLaws.ConstructIs` | apps/crq-python/backfill_subjects.py:103-178 | The partitions, shown lines and debts of the whole construction: one partition for every group that fits, debts for what cannot be shown. |
| `RequiredGroups.GroupRequired` | apps/crq-python/backfill_inventory.py:58-70 | The grouping loop: a repeated row and an empty, unknown or overlapping union are refused, in that order. |
| `RequiredGroups.GroupsPartitionPrs` | apps/crq-python/backfill_inventory.py:58-70 | Accepted groups hold every required pull request exactly once and nothing else, ordered by first row. |
| `RequiredGroups.GroupingIs` | apps/crq-python/backfill_inventory.py:58-70 | Refused exactly so; otherwise one group for every union and one for every pull request in none, its members ascending, at the least row any of them has, in the order of these rows. |
| `Inventory.Owned` | apps/crq-python/backfill_inventory.py:181-190 | The ownership table built by the loops. |
| `Inventory.OwnedIff` | apps/crq-python/backfill_inventory.py:181-190 | A line is owned exactly when a mapped claim or a live job holds it. |
| `Inventory.FreeIff` | apps/crq-python/backfill_inventory.py:203-209 | The lines a candidate may ask for are the uncovered lines nobody owns. |
| `Inventory.PackingIsExact` | apps/crq-python/backfill_inventory.py:223-238 | Packing puts every fitting path in exactly one group, in order, each within the file and byte limits. |
| `Inventory.Partitions` | apps/crq-python/backfill_inventory.py:214-254 | The nested packing loop and the candidates it makes. |
| `Inventory.NextGenerationIsNew` | apps/crq-python/backfill_inventory.py:245-246 | A candidate gets a generation no queued job of its subject had. |
| `Inventory.CandidatesAreOk` | apps/crq-python/backfill_inventory.py:214-254 | Candidates of one family: sound, disjoint, and holding exactly the fitting paths unless the family is held. |
| `Inventory.RankRequired` | apps/crq-python/backfill_inventory.py:256-278 | The loop over required groups, with what they claim. |
| `Inventory.RequiredPlaces` | apps/crq-python/backfill_inventory.py:256-278 | A path goes with the first group that names it, unless that family is held. |
| `Inventory.GatherClusters` | apps/crq-python/backfill_inventory.py:279-282 | The loop that clusters the remaining paths. |
| `Inventory.ClustersPlace` | apps/crq-python/backfill_inventory.py:279-285 | A loose path goes with its own directory and tier. |
| `Inventory.Rank` | apps/crq-python/backfill_inventory.py:193-289 | The ranking as a whole. |
| `Inventory.RankingIsSound` | apps/crq-python/backfill_inventory.py:193-289 | No path in two candidates; in one exactly when supported, free, fitting and not held; candidates within limits with exactly the free lines of their paths; nothing a required pull request names reaches a cluster, held or not. |
| `Inventory.RankingIsOrdered` | apps/crq-python/backfill_inventory.py:286 | Candidates stand in the order they will be taken. |
| `InventoryLaws.FitsIff` | apps/crq-python/backfill_inventory.py:224-232 | What makes a path fit, in terms of its row, its lines and the limits. |
| `InventoryLaws.MakeDescribes` | apps/crq-python/backfill_inventory.py:239-254 | What a candidate says of its paths: scope, tier, score, generation and retry mark. |
| `InventoryLaws.PackCloses` | apps/crq-python/backfill_inventory.py:223-238 | Packing takes every fitting path in order, and a group ends only at an eligible path it had no room for. |
| `InventoryLaws.CandidatesAre` | apps/crq-python/backfill_inventory.py:214-254 | The candidates of a family are its groups, numbered in order, unless the family is held. |
| `InventoryLaws.AvailableIs` | apps/crq-python/backfill_inventory.py:256-278 | A group asks for the paths its evidence names first, in order of tier and name. |
| `InventoryLaws.ClusterIs` | apps/crq-python/backfill_inventory.py:279-285 | A cluster holds the loose paths of one directory and tier, by falling score and then name. |
| `InventoryLaws.RankingIs` | apps/crq-python/backfill_inventory.py:193-289 | The ranking holds the candidates of every required group and every cluster and no other, in order of tier, retry mark, kind, row or falling score, and subject. |
| `RankFour.Queue.Enqueue` | apps/crq-python/backfill_jobs.py:42-62 | The item named is of the same job and scope or a live owner of the scope; only if there is none is the job queued, quarantined exactly if a history of it is; a job of other scope is refused. |
| `RankFour.Queue.CountOwners` | apps/crq-python/backfill_jobs.py:18-20 | Counts the rank-4 items that own execution. |
| `RankFour.Queue.Admission` | apps/crq-python/backfill_jobs.py:113-149 | Admitted exactly when the gate says so; afterwards at most two rank-4 owners and remaining minus unreflected holds is at least one. |
| `RankFour.Queue.Launched` | apps/crq-python/crq.py:1979-1985 | The launcher records the run before any child is spawned; nobody loses ownership. |
| `RankFour.Queue.LaunchRefused` | apps/crq-python/crq.py:1904-1941 | A launch refused before upload leaves the admitted item owned until its ownership is settled. |
| `RankFour.Queue.BindRun` | apps/crq-python/backfill_jobs.py:152-157 | Binds a vendor run to a hold once; a different identity is refused; ownership stays. |
| `RankFour.Queue.LaunchRaised` | apps/crq-python/backfill_runtime.py:276-280 | Anything raised before binding leaves the item owned. |
| `RankFour.Queue.CancelBeforeVendor` | apps/crq-python/backfill_jobs.py:160-167 | Allowed only without a recorded run; releases its hold and touches no other item. |
| `RankFour.Queue.Terminal` | apps/crq-python/backfill_jobs.py:186-211 | Only a vendor-terminal outcome ends ownership, of that item alone; any other makes the item an owner, and the bound stays exactly if it counted already or there was room; a failure is counted in its family and each of its units, and it is quarantined exactly when one of these is. |
| `RankFour.BackoffGrows` | apps/crq-python/backfill_jobs.py:203-206 | The delay doubles from an hour with each failure and stays within a day unless the vendor asks for more. |
| `RankFour.Queue.DeferQuota` | apps/crq-python/backfill_jobs.py:83-103 | A verified quota refusal ends the run, counts no failure and waits at least the given time. |
| `RankFour.Queue.ReconcileAbsent` | apps/crq-python/backfill_jobs.py:170-183 | Ownership ends only on operator, reason and the exact attempt confirmed not started, with no recorded run. |
| `RankFour.Queue.Published` | apps/crq-python/backfill_jobs.py:214-237 | A completion clears exactly its credited units, its family only with its last unfinished item, and leaves a sibling quarantined exactly if something other than a completed unit held it. |
| `RankFour.Queue.Release` | apps/crq-python/backfill_jobs.py:240-246 | Never releases an owner. |
| `RankFour.Queue.ReleaseQuarantine` | apps/crq-python/backfill_jobs.py:249-261 | Clears a family and its units only when none of its items may own a run. |
| `RankFour.SiblingsKeepQuarantine` | apps/crq-python/backfill_jobs.py:222-236 | After a completion a sibling is in quarantine exactly if its family or a unit the completion did not credit holds it there. |
| `RankFour.QuarantineClearsIff` | apps/crq-python/backfill_jobs.py:222-236 | A completion takes a sibling out of quarantine exactly when only units it credited held the sibling there. |
| `RankFour.Queue.HarvestCoverage` | apps/crq-python/crq.py:2484-2596 | The harvest of a coverage review ends its ownership alone, counts a failure in the legacy families of its paths, and lifts no quarantine. |
| `RankFour.ForgetLegacyStays` | apps/crq-python/coverage.py:96-104 | A counted coverage review forgets the legacy histories of its paths except where they came to quarantine. |
| `RankFour.ReservationCosts` | apps/crq-python/backfill_jobs.py:129-131 | A reservation lowers the effective remaining quota by at most one. |
| `RankFour.NoThreeOwners` | apps/crq-python/backfill_jobs.py:135-137 | Two owners at most: no three distinct items are in flight. |
| `RankFourLaws.EnqueueIs` | apps/crq-python/backfill_jobs.py:42-62 | What a request to queue changes: it joins what stands for it or is appended with the state its histories give it. |
| `RankFourLaws.GateIs` | apps/crq-python/backfill_jobs.py:113-149 | The gate admits exactly with room, a fresh successful observation, a reserve beyond the holds it does not show, and nothing ordinary eligible. |
| `RankFourLaws.OwnersAre` | apps/crq-python/backfill_jobs.py:18-20 | The count is that of the rank-4 items which own execution. |
| `RankFourLaws.AdmitIs` | apps/crq-python/backfill_jobs.py:141-149 | Admission reserves the next attempt of the item, and nothing else changes. |
| `RankFourLaws.BindIs` | apps/crq-python/backfill_jobs.py:152-157 | A run may be bound exactly to a held attempt without another run; the item becomes live. |
| `RankFourLaws.CancelIs` | apps/crq-python/backfill_jobs.py:160-167 | A cancelled attempt gives its reservation back, and nothing else changes. |
| `RankFourLaws.AbsentIs` | apps/crq-python/backfill_jobs.py:170-183 | An absent launch gives its reservation back; a coverage item waits again, any other counts a failure. |
| `RankFourLaws.TerminalIs` | apps/crq-python/backfill_jobs.py:186-211 | The end of a run: which records count a failure, how long each waits, what is quarantined or blocked. |
| `RankFourLaws.DeferIs` | apps/crq-python/backfill_jobs.py:83-103 | A deferred run waits for the latest of the given time, the cooldown and its records, and no record counts a failure. |
| `RankFourLaws.PublishedIs` | apps/crq-python/backfill_jobs.py:214-237 | A completion: covered rows, the state of the item, the units that start afresh and the family that does with its last open item. |
| `RankFourLaws.CoverageIs` | apps/crq-python/crq.py:2484-2596 | The harvest of a coverage review: the state of the item, and which legacy records fail, how often, or start afresh. |
| `RankFourLaws.ReleaseIs` | apps/crq-python/backfill_jobs.py:249-261 | Releasing a family starts its record and those of its units afresh and changes no other. |
| `RankFourRuns.StepKeeps` | apps/crq-python/backfill_jobs.py:18-261 | Every operation keeps the bound of two owners, and whoever stops owning does so by evidence about that very item. |
| `RankFourRuns.RunFits` | apps/crq-python/backfill_jobs.py:18-261 | In every reachable state at most two rank-4 items own execution. |
| `RankFourRuns.OwnershipEndsByEvidence` | apps/crq-python/backfill_jobs.py:18-261 | Over every run an owner stays one until a terminal, never-started or vendor-absence operation on that item. |
| `RankFourRuns.AdmissionLeavesReserve` | apps/crq-python/backfill_jobs.py:113-149 | Every admission leaves the observed remaining quota at least one above the holds it does not show. |
| `RankFourRuns.RunKeepsReserve` | apps/crq-python/backfill_jobs.py:113-149 | While one observation serves all admissions, that reserve is there in every later state. |
| `RankFourRuns.QuarantineEndsOnlySo` | apps/crq-python/backfill_jobs.py:186-261 | No operation takes an item out of quarantine but an acknowledged completion or the release of a family. |
| `RankFourRuns.PublishClearsIff` | apps/crq-python/backfill_jobs.py:214-236 | An acknowledged completion takes a sibling out of quarantine exactly when only units it credited itself held it there. |
| `RankFourRuns.CompletionCanClearSibling` | apps/crq-python/backfill_jobs.py:42-237 | A run from the empty queue: a job of another family fails on a path into quarantine while a job of this family runs there, and that job's completion makes its waiting sibling on the path, ineligible until then, eligible at every time. |
| `RepairLadder.Worker.Fix` | apps/crq-python/crq_repair.py:182-217 | One fixer attempt: what it dispatches, saves and leads to, for every behaviour of the environment; the log stays disciplined. |
| `RepairLadder.Worker.Ask` | apps/crq-python/crq_repair.py:219-253 | One judgement, asked only while none is on record: what it dispatches, saves and leads to. |
| `RepairLadder.Worker.Process` | apps/crq-python/crq_repair.py:134-277 | One run from whatever the files hold: the first free rung is dispatched, an unchanged tree is judged if required, a confirmed defect goes to the last rung, every failure to the next; the verdict is the one the last dispatch calls for, a job put off says what it waits for, an undisturbed run ends in a verdict; a terminal result never changes and an interrupted dispatch is followed by no other. |
| `RepairLadder.Worker.MarkStale` | apps/crq-python/crq_repair.py:295-302 | A job superseded before it started is closed without a dispatch. |
| `RepairLadder.FixerExtends` | apps/crq-python/crq_repair.py:192-198 | Dispatching the next rung repeats no slot but a rate-limited one. |
| `RepairLadder.JudgeExtends` | apps/crq-python/crq_repair.py:223-240 | So does dispatching the judge, and its opinion stays on record. |
| `RepairLadder.NeverConfirmed` | apps/crq-python/crq_repair.py:254-256 | Without an opinion on record no judge confirmed the defect. |
| `RepairLadder.AtMostFourPaidDispatches` | apps/crq-python/crq_repair.py:134-277 | Over all runs at most four dispatches end in anything but a rate limit, on strictly rising rungs. |
| `FindingDelivery.Inbox.Ingest` | apps/crq-python/finding_delivery.py:28-41 | A row for every finding; one of another review or content is refused; existing rows stay; it stops only at a clash or where it dies; the chains stay in order exactly if every row that enters where events are retained is the one they began from. |
| `FindingDelivery.Inbox.Triage` | apps/crq-python/finding_delivery.py:43-74 | A decision is refused exactly for its stated reasons; otherwise it extends the chain of its finding by exactly the event it asks for and writes the row; a confirmation whose lines do not all arrive becomes needs-human; a crash leaves the chain as it was or one longer, as the save it dies before says. |
| `FindingDelivery.Inbox.Ask` | apps/crq-python/finding_delivery.py:86-99 | One request per canonical finding, made of the row, the same at every call of the transport, and none once a receipt is saved. |
| `FindingDelivery.Inbox.Deliver` | apps/crq-python/finding_delivery.py:76-106 | Delivers exactly a finding that stands confirmed: the request saved, the transport asked unless a receipt is there, the receipt saved, the event spooled, the row written, up to the save it dies before; a delivered one returns its receipt. |
| `FindingDelivery.Inbox.Recover` | apps/crq-python/finding_delivery.py:108-141 | From any order of the retained events it ends with every row at the tip of its chain. |
| `FindingDelivery.Inbox.RecoverEvent` | apps/crq-python/finding_delivery.py:123-141 | What replaying one event does to the rows. |
| `FindingDelivery.DecisionIsRecovered` | apps/crq-python/finding_delivery.py:66-73 | What triage writes is what recovery makes of the event it spooled, for every action. |
| `FindingDelivery.DeliveryIsRecovered` | apps/crq-python/finding_delivery.py:101-105 | The same for delivery. |
| `FindingDelivery.SettledIsUnique` | apps/crq-python/finding_delivery.py:43-141 | Settled rows are determined by the chains: spool, crash, recover ends as spool, write. |
| `FindingDelivery.TipsDiffer` | apps/crq-python/finding_delivery.py:66-68 | Content addresses along a chain never repeat. |
| `FindingDelivery.StuckIsSettled` | apps/crq-python/finding_delivery.py:113-121 | When no event can be replayed the whole chain has been. |
| `FindingDelivery.ChainAcceptedIff` | apps/crq-python/review_ledger.py:263-286 | The ledger accepts the chain of a finding exactly when it was delivered at most once. |
| `FindingDelivery.RedeliveryIsRefused` | apps/crq-python/finding_delivery.py:101-103 | Confirmed, delivered, confirmed and delivered again is a proper chain the ledger refuses, since the second delivery reuses the source key of the first. |
| `AuthorLease.DecisionsAreReadable` | apps/crq-python/author_lease.py:30-52 | What either grant writes is read back, the queue before the deadline and the agent at or after it. |
| `AuthorLease.OneIssuerAtATime` | apps/crq-python/author_lease.py:55-118 | At no moment may both issuers take a request. |
| `AuthorLease.DecisionsArePermanent` | apps/crq-python/author_lease.py:55-69 | A decided lease never lets the queue issue again, whatever else happened to the item. |
| `AuthorLease.QueueMayIff` | apps/crq-python/author_lease.py:55-69 | The queue may issue exactly without a lease, or while an unstarted item waits under a lease that stands, between request and deadline. |
| `AuthorLease.FallbackMayIff` | apps/crq-python/author_lease.py:101-118 | The agent's side is answered exactly under an unblocked lease that stands; a waiting one only at or after its deadline, while the item is unstarted. |
| `AuthorLease.Request.Launch` | apps/crq-python/crq.py:1856-1985 | Check, scan, checkout, second check, save, spawn, dying anywhere: one launch exactly if nothing interferes, only under a saved queue grant made before the deadline. |
| `AuthorLease.Request.Fallback` | apps/crq-python/author_lease.py:101-118 | One dispatch permission exactly if the decision is saved at or after the deadline, and none when the queue launched. |
| `AuthorLease.Request.Disturb` | apps/crq-python/crq.py:3534-3543 | Requeueing or harvesting the item leaves the lease and its issuer as they were. |
| `PushRange.SplitScope` | apps/crq-python/push_current.py:267-290 | The split loop with its running total. |
| `PushRange.SplitIsSo` | apps/crq-python/push_current.py:267-290 | A candidate is kept exactly if it fits into what the kept ones before it leave of 2 MiB; both sides stay in order. |
| `PushRange.SplitIs` | apps/crq-python/push_current.py:284-290 | Every candidate is on one side, once, the kept ones within 2 MiB. |
| `PushRange.FollowUpTakesOverflow` | apps/crq-python/push_current.py:312-343 | A follow-up part selects exactly what its parent deferred, and is strictly smaller. |
| `PushRange.PartsCover` | apps/crq-python/push_current.py:293-349 | The chain of parts is finite, each part within the limit and not empty without need, no row in two parts. |
| `PushRange.SplittingIsExact` | apps/crq-python/push_current.py:245-349 | Every reviewable row of the range, and nothing else, is kept in exactly one part. |
| `PushLane.Lane.Discover` | apps/crq-python/push_current.py:162-242 | Sets the boundary at first sight or after rewritten history, and otherwise enrolls the range behind the tip unless a captured item pins the lane, skipping exactly whole ranges not yet captured. |
| `PushLane.Lane.Prepare` | apps/crq-python/push_current.py:293-372 | A capture is the cut of the range at its pinned target, with a follow-up for exactly what was deferred, pinned and dependent as its parent is; an exception after enrolling the follow-up leaves the follow-up alone. |
| `PushLane.Lane.SetBoundary` | apps/crq-python/push_current.py:176-205 | A boundary set without a review starts the reviewed history afresh. |
| `PushLane.FollowUpIs` | apps/crq-python/push_current.py:336-341 | Whatever stands under the identity of an item's follow-up is what a capture of it deferred at the target that follow-up is pinned to. |
| `PushLane.CaptureKeeps` | apps/crq-python/push_current.py:305-358 | A capture keeps every item in order; its overflow is lost exactly when its follow-up already stands pinned to another target. |
| `PushLane.Lane.Launch` | apps/crq-python/crq.py:1904-1941 | A review starts or is blocked before anything is uploaded. |
| `PushLane.Lane.Harvest` | apps/crq-python/crq.py:2425-2474 | What each outcome makes of the item; only a counted whole-range review moves the reviewed tip, from its own base or an unset tip, to its captured target. |
| `PushLane.ChainHolds` | apps/crq-python/push_current.py:305-358 | Every row a capture selected from is kept by it or further down its chain of follow-ups. |
| `PushLane.CapturedPart` | apps/crq-python/push_current.py:305-358 | What a captured item keeps is the part of that number of the exact split of its range. |
| `PushLane.PartsKeepApart` | apps/crq-python/push_current.py:305-358 | No two parts of a range captured at one target keep the same row. |
| `PushLane.BelowTheTipIsHeldIff` | apps/crq-python/crq.py:2436-2448 | Behind a counted stretch every reviewable row is kept by a counted part or waits in a live part pinned to its end, exactly if its capture lost no overflow. |
| `PushLane.Lane.TipIsTrue` | apps/crq-python/crq.py:2436-2448 | In every state the counted stretches join up from the boundary to the tip, and this holds of each; only a capture that was once broken off can lose overflow. |
| `PushLane.JoinedCovers` | apps/crq-python/crq.py:2436-2448 | Stretches that join up cover what lies between boundary and tip, and nothing beyond. |
| `PushLane.OverflowIff` | apps/crq-python/push_current.py:280-290 | A capture defers something exactly if what it selects from is over 2 MiB. |
| `PushLane.LoseOverflow` | apps/crq-python/push_current.py:311-358 | A run in which overflow is lost: a capture broken off after enrolling its follow-up is made again when the branch has moved on. |
| `Sorting.SortKeeps` | apps/crq-python/merged_reconcile.py:210-215 | A stable sort keeps exactly the elements it was given. |
| `Sorting.SortOrders` | apps/crq-python/backfill_inventory.py:286 | And puts them in order, for any total preorder. |
| `Sorting.SortIsStable` | apps/crq-python/backfill_inventory.py:286 | Whatever the order does not tell apart keeps the order it stood in. |

## Left out

- Intervals.Encode: takes positive line numbers only, because line sets in the repository are positive; the source would also encode others.
- Publication.ReadingValidates: proves its claim for every order within a commit, because the source sorts by digest; it does not model that particular order.
- RecentScan.PassSkipsNothing: speaks of rows present and unchanged since the pass started; completeness of the head pass and the order of equal update times rest on forge behaviour that the source only assumes.
- CoverageSnapshot.FoldIsSandwiched: with gaps the claim is a sandwich, because a review that fails part-way keeps the credit it already gave.
- Subjects.CutOncePerPass: speaks of one pass, because the residual pass asks for the full lines again and scopes of the two passes may overlap.
- Discovery.CompletionMovesWatermark: assumes the process lives through the watermark save; without it the interval is completed but the watermark waits for the next tick.
- RankFour.Queue.Published: family and unit histories only; the queue's event records are not modelled.
- RankFour.Queue.HarvestCoverage: which legacy origins a path has and whether this run was recorded before are given; coverage credit and repair jobs are not modelled.
- RankFour.Queue.DeferQuota: the checks by which a harvest verifies a refusal come before it and are not modelled.
- RankFour.Queue.Admission: the usage observation is given; how a probe expires old holds and accounts for ordinary starts is not modelled.
- RepairLadder.Worker.Process: the global pause marker and the drain loop over several jobs are not modelled, only one job under its lock.
- PushLane.Lane.TipIsTrue: commits are numbers in order of creation, a part's identity is its range and number rather than a text of shortened digests, and the repository's path configuration does not change.
- PushLane.Lane.Harvest: the receipt, the rate cooldown, the pause and the delivery of findings are not modelled.
- Git, the forge, subprocesses, files, locks, worktrees, signals and process liveness: parameters, atomic steps or serialization.
- The schema, scope and evidence checks of a single event are one boolean of the event; record serialization and the ledger tree layout are not modelled.
- Secret scanning, denylists, outcome classification, configuration validation and command lines: tables and single branches.
- Tier patterns, scores of construction, confirmed-finding counts and churn: inputs of the ranking.
- The progress report of required pull requests, status, health, issue and comment rendering: presentation.
- The limits file is taken as validated, so at least one file fits a candidate; the largest-part arithmetic of that validation is not modelled.
- Enrollment plans, numbered-page discovery and wrapper pruning: bookkeeping around the modelled fold.
- Streaming decoding of the admission history: its chunk independence holds only for integer numbers.
- The rate-limit pause file, blackout hours and quiet windows: clock arithmetic on one branch each.
- Manual recapture and release of a push range by an operator.
- The TypeScript packages and the experimental sandbox host: launchers and re-exports.
