/**
 The repair ladder: fixers A0, A1, A2 and one judge, dispatched by a worker that may die at any moment and
 remembers only two files. What the environment does (reports, blackouts, deaths) is a parameter of the run.
 */
module RepairLadder {
  import opened Prelude

  datatype Slot = Fixer(rung: nat) | Judge

  datatype Stop = Done | RateLimit | Configuration | Failed

  /** What a fixer reports; verified and clean say what the mechanical checks would find of its work. */
  datatype Report = Report(stop: Stop, changed: bool, truncated: bool, verified: bool, clean: bool)

  datatype Verdict = Valid | Invalid | Unsure
  datatype Opinion = Opinion(stop: Stop, verdict: Verdict)

  /** How a dispatch came out; Unknown when the worker died during it. */
  datatype Outcome = Unknown | Raised | Reported(report: Report) | Judged(opinion: Opinion)

  datatype Dispatch = Dispatch(slot: Slot, outcome: Outcome)

  datatype Final = FAILED | FIXED | NOT_FIXED | STALE

  datatype Record = Record(attempts: seq<nat>, nextRung: Option<nat>, dispatching: Option<Slot>, pendingJudge: bool,
                           judge: Option<Opinion>, retryAfter: Option<int>, verdict: Final)

  /** A saved file; the stamp stands for its modification time. */
  datatype Saved = Saved(record: Record, stamp: nat)

  datatype Flow = Died | Deferred | Finished | Escalated | Threw | NoChange

  /** What the environment does to one fixer attempt; saved says whether the worker lives through the closing save. */
  datatype Attempt = Blackout(until: int, saved: bool) | ResetFails | DiesBefore | SaveFails | Dies | Raises
                   | Returns(report: Report, until: int, saved: bool)

  /** What it does to the judgement. */
  datatype Judging = JudgeBlackout(until: int, saved: bool) | JudgeDiesBefore | JudgeSaveFails | JudgeDies | JudgeRaises
                   | Opines(opinion: Opinion, until: int, saved: bool)

  /** What it does at one rung: required says whether a judge must look at an unchanged tree. */
  datatype Turn = Turn(attempt: Attempt, required: bool, judging: Judging, moved: bool)

  /** What it does in one run: rung by rung, and at the final save. */
  datatype Run = Run(turns: nat -> Turn, saved: bool)

  const NEW_RECORD := Record([], None, None, false, None, None, FAILED)

  function AfterAttempts(attempts: seq<nat>): nat {
    if attempts == [] then 0
    else
      var before, last := AfterAttempts(attempts[..|attempts| - 1]), attempts[|attempts| - 1];
      if before < last + 1 then last + 1 else before
  }

  function StartRung(r: Record): nat {
    if r.nextRung.Some? then r.nextRung.value else AfterAttempts(r.attempts)
  }

  predicate ConfirmedBy(o: Opinion) {
    o.verdict == Valid && o.stop == Done
  }

  // ----- the log of dispatches --------------------------------------------------------------------------

  predicate RateLimited(d: Dispatch) {
    match d.outcome
    case Reported(report) => report.stop == RateLimit
    case Judged(opinion) => opinion.stop == RateLimit
    case _ => false
  }

  predicate Proposed(d: Dispatch) {
    d.slot.Fixer? && d.outcome.Reported? && d.outcome.report == Report(Done, true, false, true, d.outcome.report.clean)
  }

  predicate Unchanged(d: Dispatch) {
    d.slot.Fixer? && d.outcome.Reported? &&
        d.outcome.report == Report(Done, false, false, d.outcome.report.verified, true)
  }

  predicate Confirmed(d: Dispatch) {
    d.slot.Judge? && d.outcome.Judged? && ConfirmedBy(d.outcome.opinion)
  }

  /** Only a reported rate limit lets a slot be dispatched again. */
  ghost predicate AtMostOnce(log: seq<Dispatch>) {
    forall i, j :: 0 <= i < j < |log| && log[i].slot == log[j].slot ==> RateLimited(log[i])
  }

  ghost predicate Climbing(log: seq<Dispatch>) {
    forall i, j :: 0 <= i < j < |log| && log[i].slot.Fixer? && log[j].slot.Fixer? ==>
        log[i].slot.rung <= log[j].slot.rung
  }

  /** After a dispatch of unknown outcome nothing is dispatched any more. */
  ghost predicate NothingAfterUnknown(log: seq<Dispatch>) {
    forall i :: 0 <= i < |log| && log[i].outcome.Unknown? ==> i == |log| - 1
  }

  ghost predicate Disciplined(log: seq<Dispatch>) {
    && AtMostOnce(log) && Climbing(log) && NothingAfterUnknown(log)
    && forall d <- log :: d.slot.Fixer? ==> d.slot.rung < 3
  }

  /** What a live record knows of the log when the given rung is next; open allows this rung's fixer to be settled. */
  ghost predicate Knows(log: seq<Dispatch>, r: Record, rung: nat, open: bool) {
    && r.dispatching.None? && r.retryAfter.None? && r.verdict == FAILED
    && (forall d <- log :: !d.outcome.Unknown?)
    && (forall d <- log :: d.slot.Fixer? ==> d.slot.rung <= rung && (d.slot.rung == rung ==> RateLimited(d) || open))
    && (forall d <- log :: d.slot.Judge? && !RateLimited(d) ==> d.outcome.Judged? && r.judge == Some(d.outcome.opinion))
    && (r.judge.Some? ==> ConfirmedBy(r.judge.value) && rung >= 2 && exists d <- log :: Confirmed(d))
    && (forall d <- log :: !Proposed(d))
    && (r.pendingJudge ==>
        open && r.judge.None? && rung < 3 && r.nextRung == Some(rung) && exists d <- log :: Unchanged(d))
  }

  /** The verdict of a finished job is backed by a dispatch. */
  ghost predicate Justified(log: seq<Dispatch>, r: Record) {
    && (r.verdict == FIXED ==> exists d <- log :: Proposed(d))
    && (r.verdict == NOT_FIXED ==> (exists d <- log :: Unchanged(d)) && forall d <- log :: !Confirmed(d))
    && (r.verdict == STALE ==> log == [])
  }

  // ----- what a run adds to the log ---------------------------------------------------------------------

  /** The attempt dispatches nothing and the ladder goes on. */
  predicate NotStarted(a: Attempt) {
    a.ResetFails? || a.SaveFails?
  }

  /** Reported work that comes to nothing: the next rung is due. */
  predicate Failing(d: Dispatch) {
    d.slot.Fixer? && (d.outcome.Raised? || (d.outcome.Reported? &&
    var r := d.outcome.report;
    r.stop == Failed || (r.stop == Done && (r.truncated || (r.changed && !r.verified) || (!r.changed && !r.clean)))))
  }

  /** The dispatch came out as the environment has it at this rung. */
  predicate CameOut(run: Run, d: Dispatch, rung: nat) {
    match d.slot
    case Fixer(at) => at == rung && (match run.turns(rung).attempt
                                     case Dies => d.outcome == Unknown
                                     case Raises => d.outcome == Raised
                                     case Returns(report, _, _) => d.outcome == Reported(report)
                                     case _ => false)
    case Judge => match run.turns(rung).judging
                  case JudgeDies => d.outcome == Unknown
                  case JudgeRaises => d.outcome == Raised
                  case Opines(opinion, _, _) => d.outcome == Judged(opinion)
                  case _ => false
  }

  /** None of these rungs gets as far as a dispatch. */
  ghost predicate Skipped(run: Run, low: nat, high: nat) {
    forall j: nat :: low <= j < high ==> NotStarted(run.turns(j).attempt)
  }

  /** The first fixer from a rung on that can be dispatched. */
  ghost predicate FirstFixer(run: Run, low: nat, d: Dispatch) {
    d.slot.Fixer? && low <= d.slot.rung < 3 && CameOut(run, d, d.slot.rung) && Skipped(run, low, d.slot.rung)
  }

  /** The judge after an unchanged tree, the next rung after a failure, the last rung after a confirmed defect. */
  ghost predicate Follows(run: Run, c: Dispatch, d: Dispatch) {
    match c.slot
    case Fixer(rung) =>
      if Unchanged(c) then d.slot.Judge? && run.turns(rung).required && CameOut(run, d, rung)
      else Failing(c) && FirstFixer(run, rung + 1, d)
    case Judge => Confirmed(c) && FirstFixer(run, 2, d)
  }

  /** What a run dispatches, from the record it resumed. */
  ghost predicate Ladder(run: Run, r: Record, added: seq<Dispatch>) {
    && (added != [] ==>
          if r.pendingJudge then added[0].slot.Judge? && CameOut(run, added[0], StartRung(r))
          else FirstFixer(run, StartRung(r), added[0]))
    && forall k :: 0 <= k < |added| - 1 ==> Follows(run, added[k], added[k + 1])
  }

  /** The rung a closing judgement was about. */
  function JudgedRung(r: Record, added: seq<Dispatch>): nat {
    if |added| >= 2 && added[|added| - 2].slot.Fixer? then added[|added| - 2].slot.rung else StartRung(r)
  }

  /** The verdict a run comes to, from its last dispatch; log holds all dispatches of the job. */
  ghost predicate Decides(run: Run, r: Record, added: seq<Dispatch>, log: seq<Dispatch>, verdict: Final) {
    if added == [] then
      verdict == FAILED && if r.pendingJudge then run.turns(StartRung(r)).judging.JudgeSaveFails?
                           else Skipped(run, StartRung(r), 3)
    else
      var last := added[|added| - 1];
      match last.slot
      case Fixer(rung) =>
        if Proposed(last) then verdict == FIXED
        else if Unchanged(last) then
          if exists d <- log :: Confirmed(d) then verdict == FAILED
          else if run.turns(rung).required then verdict == FAILED && run.turns(rung).judging.JudgeSaveFails?
          else verdict == NOT_FIXED
        else
          && verdict == FAILED
          && ((last.outcome.Reported? && last.outcome.report.stop == Configuration)
              || (Failing(last) && Skipped(run, rung + 1, 3)))
      case Judge =>
        && (last.outcome.Raised? || (last.outcome.Judged? && last.outcome.opinion.stop != RateLimit))
        && (Confirmed(last) ==> verdict == FAILED && (JudgedRung(r, added) == 2 || Skipped(run, 2, 3)))
        && (!Confirmed(last) ==>
              verdict == if last.outcome == Judged(Opinion(Done, Invalid)) then NOT_FIXED else FAILED)
  }

  /** What a job put off waits for: the rung, and whether its fixer or its judge is due. */
  ghost predicate Waits(run: Run, r: Record) {
    && r.nextRung.Some? && r.nextRung.value < 3 && r.retryAfter.Some?
    && var turn := run.turns(r.nextRung.value);
       if r.pendingJudge then
         turn.judging == JudgeBlackout(r.retryAfter.value, true)
         || (turn.judging.Opines? && turn.judging.opinion.stop == RateLimit
             && turn.judging.until == r.retryAfter.value && turn.judging.saved)
       else
         turn.attempt == Blackout(r.retryAfter.value, true)
         || (turn.attempt.Returns? && turn.attempt.report.stop == RateLimit
             && turn.attempt.until == r.retryAfter.value && turn.attempt.saved)
  }

  /** Nothing puts the job off and the worker lives. */
  ghost predicate Smooth(run: Run) {
    && run.saved
    && forall i: nat :: i < 3 ==>
        var t := run.turns(i);
        && t.moved && !t.attempt.Blackout? && !t.attempt.DiesBefore? && !t.attempt.Dies?
        && (t.attempt.Returns? ==> t.attempt.report.stop != RateLimit)
        && !t.judging.JudgeBlackout? && !t.judging.JudgeDiesBefore? && !t.judging.JudgeDies?
        && (t.judging.Opines? ==> t.judging.opinion.stop != RateLimit && t.judging.saved)
  }

  /** Where the ladder stands between two turns: everything below the next rung has come to nothing. */
  ghost predicate Awaits(run: Run, r: Record, added: seq<Dispatch>, rung: nat, pending: bool) {
    if added == [] then
      pending == r.pendingJudge && StartRung(r) <= rung && (if pending then rung == StartRung(r)
                                                            else Skipped(run, StartRung(r), rung))
    else
      var last := added[|added| - 1];
      && !pending
      && match last.slot
         case Fixer(at) => Failing(last) && at < rung && Skipped(run, at + 1, rung)
         case Judge => Confirmed(last) && 2 <= rung && Skipped(run, 2, rung)
  }

  // ----- the worker -------------------------------------------------------------------------------------

  class Worker {
    var result: Option<Saved>
    var progress: Option<Saved>
    var writes: nat
    ghost var log: seq<Dispatch>

    constructor ()
      ensures result.None? && progress.None? && log == [] && Sound()
    {
      result, progress, writes, log := None, None, 0, [];
      new;
      assert Knows([], NEW_RECORD, 0, false);
    }

    predicate Terminal()
      reads this
    {
      result.Some? && result.value.record.retryAfter.None?
    }

    predicate ProgressIsNewer()
      reads this
    {
      progress.Some? && (result.None? || progress.value.stamp > result.value.stamp)
    }

    function Resumed(): Record
      reads this
    {
      if ProgressIsNewer() then progress.value.record
      else if result.Some? then result.value.record.(retryAfter := None)
      else NEW_RECORD
    }

    ghost predicate Stamped()
      reads this
    {
      && (result.Some? ==> result.value.stamp < writes)
      && (progress.Some? ==> progress.value.stamp < writes)
    }

    /** What holds between any two runs of the worker, and wherever it dies. */
    ghost predicate Sound()
      reads this
    {
      && Stamped() && Disciplined(log)
      && (if Terminal() then Justified(log, result.value.record)
          else Resumed().dispatching.Some? || Knows(log, Resumed(), StartRung(Resumed()), Resumed().pendingJudge))
    }

    /** What holds while a record is worked on in memory. */
    ghost predicate Working()
      reads this
    {
      Stamped() && Disciplined(log) && !Terminal()
    }

    method SaveProgress(r: Record)
      requires Stamped()
      modifies `progress, `writes
      ensures Stamped() && progress == Some(Saved(r, old(writes)))
      ensures ProgressIsNewer()
    {
      progress, writes := Some(Saved(r, writes)), writes + 1;
    }

    method SaveResult(r: Record)
      requires Stamped()
      modifies `result, `writes
      ensures Stamped() && result == Some(Saved(r, old(writes)))
      ensures !ProgressIsNewer()
    {
      result, writes := Some(Saved(r, writes)), writes + 1;
    }

    /** Put the job off until a later time: the result file carries it, the worker stops. */
    method Defer(r: Record, rung: nat, until: int, saved: bool) returns (flow: Flow)
      requires Working() && Sound() && Knows(log, r, rung, r.pendingJudge) && r.nextRung == Some(rung)
      modifies `result, `writes
      ensures Sound() && flow == if saved then Deferred else Died
      ensures if saved then result == Some(Saved(r.(retryAfter := Some(until)), old(writes)))
              else result == old(result)
    {
      if !saved {
        return Died;
      }
      SaveResult(r.(retryAfter := Some(until)));
      return Deferred;
    }

    /** One fixer attempt at a rung. */
    method Fix(r: Record, rung: nat, attempt: Attempt) returns (after: Record, flow: Flow)
      requires Working() && Sound() && rung < 3 && !r.pendingJudge && Knows(log, r, rung, false)
      modifies this
      ensures Stamped()
      ensures flow in {Died, Deferred} ==> Sound()
      ensures flow in {Finished, Threw, NoChange} ==> Working() && Sound() && !after.pendingJudge
      ensures flow == Finished ==> after.retryAfter.None? && Justified(log, after)
      ensures flow in {Threw, NoChange} ==> Knows(log, after, rung, true)
      ensures flow == NoChange ==> exists d <- log :: Unchanged(d)
      ensures flow == FixFlow(attempt)
      ensures log == old(log) + FixLog(attempt, rung)
      ensures flow !in {Died, Deferred} ==>
                after == r.(attempts := if attempt.Returns? then r.attempts + [rung] else r.attempts,
                            verdict := if flow == Finished && attempt.report.stop == Done then FIXED else FAILED)
      ensures if flow == Deferred then
                result.Some? && result.value.record == r.(nextRung := Some(rung), retryAfter := Some(attempt.until))
              else result == old(result)
      ensures if attempt.Blackout? || attempt.ResetFails? || attempt.DiesBefore? then progress == old(progress)
              else progress.Some? && progress.value.record == r.(dispatching := Some(Fixer(rung)))
    {
      hide Disciplined, Knows;
      after := r;
      LooserKnows(log, r, rung);
      Unsettled(log, r, rung);
      OtherAttempts(log, r, r.(nextRung := Some(rung)), rung, false);
      if attempt.Blackout? { // inside or near the blackout window
        after := r.(nextRung := Some(rung));
        flow := Defer(after, rung, attempt.until, attempt.saved);
        return;
      }
      if attempt.ResetFails? { // the worktree could not be reset
        return r, Threw;
      }
      var started := r.(dispatching := Some(Fixer(rung)));
      if attempt.DiesBefore? {
        return r, Died;
      }
      SaveProgress(started);
      if attempt.SaveFails? { // the save itself failed after taking effect; nothing is dispatched
        return r, Threw;
      }
      if attempt.Dies? {
        FixerExtends(log, r, rung, Unknown);
        log := log + [Dispatch(Fixer(rung), Unknown)];
        return r, Died;
      }
      if attempt.Raises? {
        FixerExtends(log, r, rung, Raised);
        log := log + [Dispatch(Fixer(rung), Raised)];
        return r, Threw;
      }
      var report := attempt.report;
      ghost var entry := Dispatch(Fixer(rung), Reported(report));
      FixerExtends(log, r, rung, entry.outcome);
      log := log + [entry];
      assert entry in log;
      if report.stop == RateLimit {
        after := r.(nextRung := Some(rung));
        flow := Defer(after, rung, attempt.until, attempt.saved);
        return;
      }
      after := r.(attempts := r.attempts + [rung]);
      if !Proposed(entry) {
        OtherAttempts(log, r, after, rung, true);
      }
      if report.stop == Configuration {
        return after, Finished;
      }
      if report.stop != Done || report.truncated {
        return after, Threw;
      }
      if report.changed {
        if !report.verified {
          return after, Threw;
        }
        assert Proposed(entry);
        return after.(verdict := FIXED), Finished;
      }
      if !report.clean {
        return after, Threw;
      }
      assert Unchanged(entry);
      return after, NoChange;
    }

    /** The one judgement, after a fixer changed nothing. */
    method Ask(r: Record, rung: nat, judging: Judging) returns (after: Record, flow: Flow)
      requires Working() && Sound() && rung < 3 && r.judge.None? && Knows(log, r, rung, true)
      requires exists d <- log :: Unchanged(d)
      modifies this
      ensures Stamped()
      ensures flow in {Died, Deferred} ==> Sound()
      ensures flow in {Finished, Threw, Escalated} ==> Working() && Sound() && after.retryAfter.None?
      ensures flow in {Finished, Threw} ==> Justified(log, after)
      ensures flow == Threw ==> after.verdict == FAILED && after.pendingJudge
      ensures flow == Escalated ==> rung < 2 && !after.pendingJudge && Knows(log, after, 2, false)
      ensures flow == AskFlow(judging, rung)
      ensures log == old(log) + AskLog(judging)
      ensures flow == Finished ==>
                && judging.Opines? && after.judge == Some(judging.opinion) && !after.pendingJudge
                && after.verdict == if judging.opinion == Opinion(Done, Invalid) then NOT_FIXED else FAILED
      ensures flow == Escalated ==> after.judge == Some(judging.opinion) && after.nextRung == Some(2)
      ensures if flow == Deferred then
                result.Some? && result.value.record == r.(pendingJudge := true, nextRung := Some(rung),
                                                          retryAfter := Some(judging.until))
              else result == old(result)
    {
      hide Disciplined, AtMostOnce, Climbing, NothingAfterUnknown;
      after := r.(pendingJudge := true, nextRung := Some(rung));
      if judging.JudgeBlackout? {
        flow := Defer(after, rung, judging.until, judging.saved);
        return;
      }
      var started := after.(dispatching := Some(Judge));
      if judging.JudgeDiesBefore? {
        return after, Died;
      }
      SaveProgress(started);
      if judging.JudgeSaveFails? {
        return after, Threw;
      }
      if judging.JudgeDies? {
        JudgeExtends(log, after, rung, Unknown);
        log := log + [Dispatch(Judge, Unknown)];
        return after, Died;
      }
      if judging.JudgeRaises? {
        JudgeExtends(log, after, rung, Raised);
        log := log + [Dispatch(Judge, Raised)];
        return after.(judge := Some(Opinion(Failed, Unsure))), Threw;
      }
      var opinion := judging.opinion;
      JudgeExtends(log, after, rung, Judged(opinion));
      log := log + [Dispatch(Judge, Judged(opinion))];
      if opinion.stop == RateLimit {
        flow := Defer(after, rung, judging.until, judging.saved);
        return;
      }
      after := after.(pendingJudge := false, judge := Some(opinion));
      if ConfirmedBy(opinion) {
        if rung == 2 {
          return after, Finished;
        }
        after := after.(nextRung := Some(2));
        if !judging.saved {
          return after, Died;
        }
        SaveProgress(after);
        return after, Escalated;
      }
      if opinion.verdict == Invalid && opinion.stop == Done {
        return after.(verdict := NOT_FIXED), Finished;
      }
      return after, Finished;
    }

    /** One turn of the loop: the fixer unless it is already settled, then the judge or the verdict without one. */
    method Climb(r: Record, rung: nat, turn: Turn) returns (after: Record, flow: Flow)
      requires Working() && Sound() && rung < 3 && Knows(log, r, rung, r.pendingJudge)
      modifies this
      ensures Stamped() && flow != NoChange
      ensures flow in {Died, Deferred} ==> Sound()
      ensures flow in {Finished, Threw, Escalated} ==> Working() && Sound() && after.retryAfter.None?
      ensures flow == Finished ==> Justified(log, after)
      ensures flow == Threw ==> if after.pendingJudge then after.verdict == FAILED else Knows(log, after, rung, true)
      ensures flow == Escalated ==> rung < 2 && !after.pendingJudge && Knows(log, after, 2, false)
      ensures Turned(turn, r, rung, old(log), log, after, flow)
      ensures if flow == Deferred then result.Some? && PutOff(turn, r, rung, result.value.record)
              else result == old(result)
    {
      hide Disciplined;
      after, flow := r, NoChange;
      if !r.pendingJudge {
        after, flow := Fix(r, rung, turn.attempt);
        if flow != NoChange {
          return;
        }
      }
      assert exists d <- log :: Unchanged(d);
      if (after.pendingJudge || turn.required) && after.judge.None? {
        after, flow := Ask(after, rung, turn.judging);
      } else {
        NeverConfirmed(log, after, rung);
        after := after.(verdict :=
            if after.judge.Some? && after.judge.value.verdict == Valid then FAILED else NOT_FIXED);
        flow := Finished;
      }
    }

    /** After an attempt that came to nothing: noted, and the next rung saved. */
    method MoveOn(r: Record, rung: nat, saved: bool) returns (after: Record, died: bool)
      requires Working() && Sound() && Knows(log, r, rung, true) && !r.pendingJudge
      modifies `progress, `writes
      ensures Sound() && (!died ==> Working() && !after.pendingJudge && Knows(log, after, rung + 1, false))
      ensures died <==> !saved
      ensures after == r.(nextRung := Some(rung + 1),
                          attempts := if r.attempts != [] && r.attempts[|r.attempts| - 1] == rung then r.attempts
                                      else r.attempts + [rung])
      ensures if saved then progress.Some? && progress.value.record == after else progress == old(progress)
    {
      var attempts := r.attempts;
      if attempts == [] || attempts[|attempts| - 1] != rung {
        attempts := attempts + [rung];
      }
      after := r.(attempts := attempts, nextRung := Some(rung + 1));
      NextKnows(log, after, rung);
      if !saved {
        return after, true;
      }
      SaveProgress(after);
      died := false;
    }

    method Finish(r: Record, saved: bool)
      requires Working() && Sound() && r.retryAfter.None? && Justified(log, r)
      modifies `result, `writes
      ensures Sound()
      ensures if saved then Terminal() && result.value.record == r else result == old(result)
    {
      if !saved {
        return;
      }
      SaveResult(r);
    }

    /** The job is not due again yet, or is finished. */
    predicate Resting(now: int)
      reads this
    {
      result.Some? && (result.value.record.retryAfter.None? || result.value.record.retryAfter.value > now)
    }

    /** The loop over the rungs; live when it ends in a verdict rather than a death or a deferral. */
    method Ascend(first: Record, run: Run) returns (record: Record, live: bool)
      requires Working() && Sound() && first == Resumed() && first.dispatching.None?
      modifies this
      ensures Sound() && old(log) <= log && Ladder(run, first, log[|old(log)|..])
      ensures live ==> Working() && record.retryAfter.None? && Justified(log, record) && result == old(result)
      ensures live ==> Decides(run, first, log[|old(log)|..], log, record.verdict)
      ensures !live ==> !Smooth(run) && !Terminal()
      ensures !live && result != old(result) ==> result.Some? && Waits(run, result.value.record)
    {
      hide Knows, Justified, Disciplined, Ladder, Awaits, Decides, Waits, Turned, PutOff, Smooth;
      record, live := first, true;
      var rung, finished := StartRung(record), false;
      ghost var start := log;
      ResumedKnows(log, record, rung);
      StartsAwaiting(run, first);
      assert log[|start|..] == [];
      while rung < 3 && !finished
        invariant Working() && Sound() && start <= log && result == old(result)
        invariant if finished then record.retryAfter.None? && Justified(log, record)
                  else Knows(log, record, rung, record.pendingJudge)
        invariant Ladder(run, first, log[|start|..])
        invariant if finished then Decides(run, first, log[|start|..], log, record.verdict)
                  else Awaits(run, first, log[|start|..], rung, record.pendingJudge)
        decreases if rung < 3 then 3 - rung else 0, !finished
      {
        var flow;
        ghost var was, before := log, record;
        LooserKnows(log, record, rung);
        JudgeIsOnRecord(log, record, rung);
        record, flow := Climb(record, rung, run.turns(rung));
        TurnClimbs(run, first, start, was, before, rung, log, record, flow);
        if flow in {Died, Deferred} {
          if flow == Deferred {
            PutOffWaits(run, before, rung, result.value.record);
          }
          live := false;
          return;
        }
        if flow == Finished {
          finished := true;
        } else if flow == Escalated {
          rung := 2;
        } else if record.pendingJudge {
          record, finished := record.(pendingJudge := false), true;
          FailedIsJustified(log, record);
        } else {
          SmoothMoves(run, rung);
          var died;
          record, died := MoveOn(record, rung, run.turns(rung).moved);
          if died {
            live := false;
            return;
          }
          rung := rung + 1;
        }
      }
      if !finished {
        OutOfRungs(log, record, rung);
        OutOfTurns(run, first, log[|start|..], log, rung);
      }
    }

    /** One run of the worker on its job, from whatever its files hold. */
    method Process(now: int, run: Run)
      requires Sound()
      modifies this
      ensures Sound() && old(log) <= log
      ensures old(Terminal()) ==> Terminal() && result == old(result) && log == old(log)
      ensures old(Resting(now)) ==> result == old(result) && progress == old(progress) && log == old(log)
      ensures old(!Resting(now) && Resumed().dispatching.Some?) ==>
                log == old(log) &&
                if run.saved then
                  Terminal() && result.value.record == old(Resumed()).(dispatching := None, retryAfter := None,
                                                                       verdict := FAILED)
                else result == old(result)
      ensures old(!Resting(now) && Resumed().dispatching.None?) ==>
                && Ladder(run, old(Resumed()), log[|old(log)|..])
                && (Terminal() ==> Decides(run, old(Resumed()), log[|old(log)|..], log, result.value.record.verdict))
                && (!Terminal() && result != old(result) ==> result.Some? && Waits(run, result.value.record))
                && (Smooth(run) ==> Terminal())
    {
      if Resting(now) {
        return;
      }
      hide Knows, Justified, Disciplined, Ladder, Decides, Waits, Smooth;
      var record := Resumed();
      if record.dispatching.Some? {
        FailedIsJustified(log, record.(dispatching := None, retryAfter := None, verdict := FAILED));
        Finish(record.(dispatching := None, retryAfter := None, verdict := FAILED), run.saved);
        return;
      }
      var live;
      record, live := Ascend(record, run);
      if live {
        SmoothFinishes(run);
        Finish(record, run.saved);
      }
    }

    /** A job superseded before it was started is closed without any dispatch. */
    method MarkStale()
      requires Sound() && result.None? && progress.None? && log == []
      modifies this
      ensures Sound() && Terminal() && log == []
      ensures result.value.record == Record([], None, None, false, None, None, STALE) && progress.None?
    {
      SaveResult(Record([], None, None, false, None, None, STALE));
    }
  }

  // ----- one turn ---------------------------------------------------------------------------------------

  function FixFlow(a: Attempt): Flow {
    match a
    case Blackout(_, saved) => if saved then Deferred else Died
    case ResetFails | SaveFails | Raises => Threw
    case DiesBefore | Dies => Died
    case Returns(report, _, saved) =>
      if report.stop == RateLimit then if saved then Deferred else Died
      else if report.stop == Configuration then Finished
      else if report.stop == Failed || report.truncated then Threw
      else if report.changed then if report.verified then Finished else Threw
      else if report.clean then NoChange else Threw
  }

  function FixLog(a: Attempt, rung: nat): seq<Dispatch> {
    match a
    case Dies => [Dispatch(Fixer(rung), Unknown)]
    case Raises => [Dispatch(Fixer(rung), Raised)]
    case Returns(report, _, _) => [Dispatch(Fixer(rung), Reported(report))]
    case _ => []
  }

  function AskFlow(j: Judging, rung: nat): Flow {
    match j
    case JudgeBlackout(_, saved) => if saved then Deferred else Died
    case JudgeDiesBefore | JudgeDies => Died
    case JudgeSaveFails | JudgeRaises => Threw
    case Opines(opinion, _, saved) =>
      if opinion.stop == RateLimit then if saved then Deferred else Died
      else if opinion == Opinion(Done, Valid) && rung != 2 then if saved then Escalated else Died
      else Finished
  }

  function AskLog(j: Judging): seq<Dispatch> {
    match j
    case JudgeDies => [Dispatch(Judge, Unknown)]
    case JudgeRaises => [Dispatch(Judge, Raised)]
    case Opines(opinion, _, _) => [Dispatch(Judge, Judged(opinion))]
    case _ => []
  }

  /** What one turn adds to the log and where it leads. */
  ghost predicate Turned(turn: Turn, r: Record, rung: nat, was: seq<Dispatch>, log: seq<Dispatch>, after: Record,
                         flow: Flow) {
    var fixed := if r.pendingJudge then [] else FixLog(turn.attempt, rung);
    if !r.pendingJudge && FixFlow(turn.attempt) != NoChange then
      && log == was + fixed && flow == FixFlow(turn.attempt)
      && (flow == Finished ==> after.verdict == if turn.attempt.report.stop == Done then FIXED else FAILED)
      && (flow == Threw ==> !after.pendingJudge)
    else if (r.pendingJudge || turn.required) && r.judge.None? then
      && log == was + fixed + AskLog(turn.judging) && flow == AskFlow(turn.judging, rung)
      && (flow == Finished ==>
            after.verdict == if turn.judging.opinion == Opinion(Done, Invalid) then NOT_FIXED else FAILED)
      && (flow == Threw ==> after.pendingJudge && after.verdict == FAILED)
    else
      log == was + fixed && flow == Finished && after.verdict == if r.judge.Some? then FAILED else NOT_FIXED
  }

  /** The record of a job put off in this turn. */
  ghost predicate PutOff(turn: Turn, r: Record, rung: nat, saved: Record) {
    if !r.pendingJudge && FixFlow(turn.attempt) != NoChange then
      && (turn.attempt.Blackout? || turn.attempt.Returns?)
      && FixFlow(turn.attempt) == Deferred && !saved.pendingJudge && saved.nextRung == Some(rung)
      && saved.retryAfter == Some(turn.attempt.until)
    else
      && (turn.judging.JudgeBlackout? || turn.judging.Opines?)
      && AskFlow(turn.judging, rung) == Deferred && saved.pendingJudge && saved.nextRung == Some(rung)
      && saved.retryAfter == Some(turn.judging.until)
  }

  lemma PutOffWaits(run: Run, r: Record, rung: nat, saved: Record)
    requires rung < 3 && PutOff(run.turns(rung), r, rung, saved)
    ensures Waits(run, saved) && saved.retryAfter.Some?
  {
  }

  lemma SmoothMoves(run: Run, rung: nat)
    requires rung < 3
    ensures Smooth(run) ==> run.turns(rung).moved
  {
  }

  lemma SmoothFinishes(run: Run)
    ensures Smooth(run) ==> run.saved
  {
  }

  lemma StartsAwaiting(run: Run, r: Record)
    ensures Ladder(run, r, []) && Awaits(run, r, [], StartRung(r), r.pendingJudge)
  {
  }

  lemma OutOfTurns(run: Run, r: Record, added: seq<Dispatch>, log: seq<Dispatch>, rung: nat)
    requires rung >= 3 && Awaits(run, r, added, rung, false)
    ensures Decides(run, r, added, log, FAILED)
  {
  }

  lemma LadderGrows(run: Run, r: Record, added: seq<Dispatch>, d: Dispatch)
    requires Ladder(run, r, added)
    requires added == [] ==> if r.pendingJudge then d.slot.Judge? && CameOut(run, d, StartRung(r))
                             else FirstFixer(run, StartRung(r), d)
    requires added != [] ==> Follows(run, added[|added| - 1], d)
    ensures Ladder(run, r, added + [d])
  {
    hide Follows, FirstFixer, CameOut;
    var more := added + [d];
    forall k | 0 <= k < |more| - 1 ensures Follows(run, more[k], more[k + 1]) {
      assert more[k] == added[k];
      if k < |added| - 1 {
        assert more[k + 1] == added[k + 1] && Follows(run, added[k], added[k + 1]);
      }
    }
  }

  /** The fixer due at a rung goes on where the ladder stands. */
  lemma FixerGoesOn(run: Run, r: Record, added: seq<Dispatch>, rung: nat)
    requires rung < 3 && Ladder(run, r, added) && Awaits(run, r, added, rung, false)
    requires FixLog(run.turns(rung).attempt, rung) != []
    ensures Ladder(run, r, added + FixLog(run.turns(rung).attempt, rung))
  {
    hide Ladder;
    LadderGrows(run, r, added, FixLog(run.turns(rung).attempt, rung)[0]);
  }

  /** So does the judge, after an unchanged tree or where it was pending. */
  lemma JudgeGoesOn(run: Run, r: Record, added: seq<Dispatch>, rung: nat)
    requires Ladder(run, r, added) && AskLog(run.turns(rung).judging) != []
    requires if added == [] then r.pendingJudge && rung == StartRung(r)
             else var last := added[|added| - 1];
                  Unchanged(last) && last.slot == Fixer(rung) && run.turns(rung).required
    ensures Ladder(run, r, added + AskLog(run.turns(rung).judging))
  {
    hide Ladder;
    LadderGrows(run, r, added, AskLog(run.turns(rung).judging)[0]);
  }

  /** What a turn without judgement leaves. */
  lemma FixTurn(run: Run, r: Record, added: seq<Dispatch>, rung: nat, log: seq<Dispatch>, verdict: Final)
    requires rung < 3 && Awaits(run, r, added, rung, false)
    ensures var a := run.turns(rung).attempt;
            var more := added + FixLog(a, rung);
            && (FixFlow(a) == Threw ==> Awaits(run, r, more, rung + 1, false))
            && (FixFlow(a) == Finished && verdict == (if a.report.stop == Done then FIXED else FAILED) ==>
                  Decides(run, r, more, log, verdict))
            && (FixFlow(a) in {Died, Deferred} ==> !Smooth(run))
            && (FixFlow(a) == NoChange ==> FixLog(a, rung) != [] && Unchanged(more[|more| - 1])
                                           && more[|more| - 1].slot == Fixer(rung))
  {
    var a := run.turns(rung).attempt;
    if FixLog(a, rung) == [] {
      assert added + FixLog(a, rung) == added;
    }
  }

  /** What a judgement leaves. */
  lemma AskTurn(run: Run, r: Record, added: seq<Dispatch>, rung: nat, log: seq<Dispatch>, verdict: Final)
    requires rung < 3 && |log| >= |AskLog(run.turns(rung).judging)|
    requires !(exists d <- log[..|log| - |AskLog(run.turns(rung).judging)|] :: Confirmed(d))
    requires if added == [] then r.pendingJudge && rung == StartRung(r)
             else var last := added[|added| - 1];
                  Unchanged(last) && last.slot == Fixer(rung) && run.turns(rung).required
    ensures var j := run.turns(rung).judging;
            var more := added + AskLog(j);
            && (AskFlow(j, rung) == Threw && verdict == FAILED ==> Decides(run, r, more, log, verdict))
            && (AskFlow(j, rung) == Finished
                && verdict == (if j.opinion == Opinion(Done, Invalid) then NOT_FIXED else FAILED) ==>
                  Decides(run, r, more, log, verdict))
            && (AskFlow(j, rung) in {Died, Deferred} ==> !Smooth(run))
            && (AskFlow(j, rung) == Escalated ==> Awaits(run, r, more, 2, false))
  {
    var j := run.turns(rung).judging;
    if AskLog(j) == [] {
      assert added + AskLog(j) == added;
      assert log[..|log| - |AskLog(j)|] == log;
    }
  }

  /** One turn goes on along the ladder; where it ends, the verdict is the one the last dispatch calls for. */
  lemma TurnClimbs(run: Run, first: Record, start: seq<Dispatch>, was: seq<Dispatch>, r: Record, rung: nat,
                   log: seq<Dispatch>, after: Record, flow: Flow)
    requires rung < 3 && start <= was && Ladder(run, first, was[|start|..])
    requires Awaits(run, first, was[|start|..], rung, r.pendingJudge)
    requires Turned(run.turns(rung), r, rung, was, log, after, flow)
    requires r.judge.Some? <==> exists d <- was :: Confirmed(d)
    requires r.pendingJudge ==> r.judge.None?
    ensures start <= log && Ladder(run, first, log[|start|..])
    ensures flow == Finished || (flow == Threw && after.pendingJudge) ==>
              Decides(run, first, log[|start|..], log, after.verdict)
    ensures flow == Threw && !after.pendingJudge ==> Awaits(run, first, log[|start|..], rung + 1, false)
    ensures flow == Escalated ==> Awaits(run, first, log[|start|..], 2, false)
    ensures flow in {Died, Deferred} ==> !Smooth(run)
  {
    hide Ladder, Awaits, Decides, Smooth, CameOut, FirstFixer, Follows, Skipped, NotStarted, Failing;
    var turn, added := run.turns(rung), was[|start|..];
    var fixed := if r.pendingJudge then [] else FixLog(turn.attempt, rung);
    if !r.pendingJudge {
      FixTurn(run, first, added, rung, log, after.verdict);
      if fixed != [] {
        FixerGoesOn(run, first, added, rung);
      }
    }
    assert (was + fixed)[|start|..] == added + fixed;
    if r.pendingJudge || FixFlow(turn.attempt) == NoChange {
      PendingIsFirst(run, first, added, rung);
      NoneConfirmed(was, fixed);
      if (r.pendingJudge || turn.required) && r.judge.None? {
        assert log[|start|..] == added + fixed + AskLog(turn.judging);
        assert log[..|log| - |AskLog(turn.judging)|] == was + fixed;
        AskTurn(run, first, added + fixed, rung, log, after.verdict);
        if AskLog(turn.judging) != [] {
          JudgeGoesOn(run, first, added + fixed, rung);
        }
      } else {
        UnjudgedDecides(run, first, added + fixed, was + fixed, rung, after.verdict);
      }
    }
    if fixed == [] {
      assert added + fixed == added;
    }
    if AskLog(turn.judging) == [] {
      assert added + fixed + AskLog(turn.judging) == added + fixed;
    }
  }

  lemma PendingIsFirst(run: Run, r: Record, added: seq<Dispatch>, rung: nat)
    ensures Awaits(run, r, added, rung, true) ==> added == [] && r.pendingJudge && rung == StartRung(r)
  {
  }

  /** A fixer confirms nothing. */
  lemma NoneConfirmed(was: seq<Dispatch>, fixed: seq<Dispatch>)
    requires forall d <- fixed :: d.slot.Fixer?
    ensures (exists d <- was :: Confirmed(d)) <==> exists d <- was + fixed :: Confirmed(d)
  {
    assert forall d :: d in was + fixed <==> d in was || d in fixed;
  }

  lemma UnjudgedDecides(run: Run, r: Record, added: seq<Dispatch>, log: seq<Dispatch>, rung: nat, verdict: Final)
    requires added != [] && Unchanged(added[|added| - 1]) && added[|added| - 1].slot == Fixer(rung)
    requires !run.turns(rung).required || exists d <- log :: Confirmed(d)
    requires verdict == if exists d <- log :: Confirmed(d) then FAILED else NOT_FIXED
    ensures Decides(run, r, added, log, verdict)
  {
  }

  /** The judgement on record is that a judge confirmed the defect. */
  lemma JudgeIsOnRecord(log: seq<Dispatch>, r: Record, rung: nat)
    requires Knows(log, r, rung, true)
    ensures (r.judge.Some? <==> exists d <- log :: Confirmed(d)) && (r.pendingJudge ==> r.judge.None?)
  {
  }

  lemma ResumedKnows(log: seq<Dispatch>, r: Record, rung: nat)
    requires Knows(log, r, rung, r.pendingJudge)
    ensures r.retryAfter.None?
  {
  }

  lemma FailedIsJustified(log: seq<Dispatch>, r: Record)
    requires r.verdict == FAILED
    ensures Justified(log, r)
  {
  }

  lemma OutOfRungs(log: seq<Dispatch>, r: Record, rung: nat)
    requires Knows(log, r, rung, r.pendingJudge)
    ensures r.retryAfter.None? && Justified(log, r) && (rung >= 3 ==> !r.pendingJudge && r.verdict == FAILED)
  {
  }

  // ----- one more dispatch ------------------------------------------------------------------------------

  lemma LooserKnows(log: seq<Dispatch>, r: Record, rung: nat)
    requires Knows(log, r, rung, r.pendingJudge)
    ensures Knows(log, r, rung, true)
  {
  }

  /** Which rungs were attempted and which is next makes no difference while no judge is pending. */
  lemma OtherAttempts(log: seq<Dispatch>, r: Record, other: Record, rung: nat, open: bool)
    requires Knows(log, r, rung, open) && !r.pendingJudge
    requires other == r.(attempts := other.attempts, nextRung := other.nextRung)
    ensures Knows(log, other, rung, open)
  {
  }

  lemma Unsettled(log: seq<Dispatch>, r: Record, rung: nat)
    requires Knows(log, r, rung, r.pendingJudge)
    ensures r.dispatching.None? && r.retryAfter.None? && r.verdict == FAILED
  {
  }

  /** Dispatching this rung's fixer keeps the log disciplined, whatever comes of it. */
  lemma FixerExtends(log: seq<Dispatch>, r: Record, rung: nat, o: Outcome)
    requires Disciplined(log) && rung < 3 && !r.pendingJudge && Knows(log, r, rung, false) && !o.Judged?
    ensures var more := log + [Dispatch(Fixer(rung), o)];
            && Disciplined(more)
            && (!o.Unknown? && !Proposed(Dispatch(Fixer(rung), o)) ==> Knows(more, r, rung, true))
            && (o.Reported? && o.report.stop == RateLimit ==> Knows(more, r.(nextRung := Some(rung)), rung, false))
  {
    assert forall i :: 0 <= i < |log| ==> log[i] in log;
  }

  lemma JudgeStaysDisciplined(log: seq<Dispatch>, o: Outcome)
    requires Disciplined(log) && (forall d <- log :: !d.outcome.Unknown?)
    requires forall d <- log :: d.slot.Judge? ==> RateLimited(d)
    ensures Disciplined(log + [Dispatch(Judge, o)])
  {
    assert forall i :: 0 <= i < |log| ==> log[i] in log;
  }

  lemma JudgeExtends(log: seq<Dispatch>, r: Record, rung: nat, o: Outcome)
    requires Disciplined(log) && rung < 3 && r.judge.None? && Knows(log, r, rung, true) && !o.Reported?
    requires exists d <- log :: Unchanged(d)
    ensures var more := log + [Dispatch(Judge, o)];
            && Disciplined(more) && (exists d <- more :: Unchanged(d))
            && (o.Judged? && o.opinion.stop == RateLimit ==> Knows(more, r, rung, true))
            && (o.Judged? && ConfirmedBy(o.opinion) && rung < 2 ==>
                  Knows(more, r.(pendingJudge := false, judge := Some(o.opinion), nextRung := Some(2)), 2, false))
            && (o.Judged? && !ConfirmedBy(o.opinion) ==> forall d <- more :: !Confirmed(d))
  {
    var more := log + [Dispatch(Judge, o)];
    JudgeStaysDisciplined(log, o);
    hide Disciplined, Unchanged;
    assert exists d <- more :: Unchanged(d) by {
      var d :| d in log && Unchanged(d);
      assert d in more;
    }
    assert forall d :: d in more <==> d in log || d == Dispatch(Judge, o);
  }

  lemma NextKnows(log: seq<Dispatch>, r: Record, rung: nat)
    requires Knows(log, r.(nextRung := None), rung, true) || Knows(log, r, rung, true)
    requires !r.pendingJudge && r.nextRung == Some(rung + 1)
    ensures Knows(log, r, rung + 1, false) && StartRung(r) == rung + 1
  {
  }

  /** Without an opinion on record no judge confirmed the defect; one that did is on record. */
  lemma NeverConfirmed(log: seq<Dispatch>, r: Record, rung: nat)
    requires Knows(log, r, rung, true)
    ensures r.judge.None? ==> forall d <- log :: !Confirmed(d)
    ensures r.judge.Some? ==> r.judge.value.verdict == Valid
  {
  }

  // ----- what it costs ----------------------------------------------------------------------------------

  /** The slots of the dispatches that did not end in a reported rate limit. */
  ghost function Paid(log: seq<Dispatch>): seq<Slot> {
    if log == [] then []
    else Paid(log[..|log| - 1]) + if RateLimited(log[|log| - 1]) then [] else [log[|log| - 1].slot]
  }

  lemma {:induction false} PaidOnce(log: seq<Dispatch>)
    requires AtMostOnce(log)
    ensures Distinct(Paid(log)) && forall s :: s in Paid(log) <==> exists d <- log :: d.slot == s && !RateLimited(d)
  {
    if log != [] {
      var front, last := log[..|log| - 1], log[|log| - 1];
      assert log == front + [last];
      PaidOnce(front);
      forall d | d in front && d.slot == last.slot ensures RateLimited(d) {
        var i :| 0 <= i < |front| && front[i] == d;
        assert log[i].slot == log[|log| - 1].slot;
      }
      assert !RateLimited(last) ==> last.slot !in Paid(front);
    }
  }

  /** Over all runs, crashes and deferrals a job pays for at most four dispatches, on strictly rising rungs. */
  lemma AtMostFourPaidDispatches(log: seq<Dispatch>)
    requires Disciplined(log)
    ensures |Paid(log)| <= 4
    ensures forall i, j :: 0 <= i < j < |log| && log[i].slot.Fixer? && log[j].slot.Fixer? && !RateLimited(log[i]) ==>
              log[i].slot.rung < log[j].slot.rung
  {
    PaidOnce(log);
    var slots := {Fixer(0), Fixer(1), Fixer(2), Judge};
    forall s | s in Paid(log) ensures s in slots {
      var d :| d in log && d.slot == s && !RateLimited(d);
    }
    CountElements(Paid(log));
    SubsetIsSmaller(Elements(Paid(log)), slots);
  }
}
