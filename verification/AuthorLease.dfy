/**
 The author lease: a review request is issued by the queue before its deadline or by an agent after it, never
 by both. Every operation runs under one lock; a process may die before any save, and clocks are arbitrary.
 */
module AuthorLease {
  import opened Prelude

  datatype Issuer = Waiting | QueueIssued | AgentIssued

  datatype Lease = Lease(issuer: Issuer, requestedAt: int, deadlineAt: int, timeoutMinutes: int, reviewer: string,
                         decidedAt: Option<int>, scanBlocked: bool)

  datatype State = Pending | Reviewing | Blocked | Skipped | Failed | Done

  datatype Item = Item(state: State, run: bool, attempts: bool, lease: Option<Lease>)

  datatype Refusal = BadTimeout | BadReviewer | DeadlineMismatch | BadDecisionTime | ScanBlocked | NotPending
                   | ClockBackwards | AlreadyAssigned | DeadlinePassed | BeforeDeadline | NoLease

  /** Answer to a fallback claim; dispatch is the permission to start the agent. */
  datatype Decision = Decision(issuer: Issuer, dispatch: bool)

  predicate ReviewerOk(reviewer: string) {
    0 < |reviewer| <= 256 && (exists c <- reviewer :: c != ' ') && forall c <- reviewer :: c as int >= 32
  }

  function NewLease(timeoutMinutes: int, reviewer: string, at: int): Result<Lease, Refusal> {
    if timeoutMinutes <= 0 then Err(BadTimeout)
    else if !ReviewerOk(reviewer) then Err(BadReviewer)
    else Ok(Lease(Waiting, at, at + 60 * timeoutMinutes, timeoutMinutes, reviewer, None, false))
  }

  /** The checks every use of a persisted lease starts with. */
  function Read(lease: Lease): Result<Lease, Refusal> {
    var expected := NewLease(lease.timeoutMinutes, lease.reviewer, lease.requestedAt);
    if expected.Err? then expected
    else if lease.deadlineAt != expected.value.deadlineAt then Err(DeadlineMismatch)
    else if !lease.issuer.Waiting? && (lease.decidedAt.None? || lease.decidedAt.value < lease.requestedAt
            || (lease.issuer.QueueIssued? && lease.decidedAt.value >= lease.deadlineAt)
            || (lease.issuer.AgentIssued? && lease.decidedAt.value < lease.deadlineAt))
    then Err(BadDecisionTime)
    else Ok(lease)
  }

  /** None when the queue may issue the request now; a request without a lease is not restricted. */
  function CheckQueue(item: Item, at: int): Option<Refusal> {
    if item.lease.None? then None
    else
      var lease := Read(item.lease.value);
      if lease.Err? then Some(lease.error)
      else if lease.value.scanBlocked then Some(ScanBlocked)
      else if item.state != Pending || item.run || item.attempts then Some(NotPending)
      else if at < lease.value.requestedAt then Some(ClockBackwards)
      else if !lease.value.issuer.Waiting? then Some(AlreadyAssigned)
      else if at >= lease.value.deadlineAt then Some(DeadlinePassed)
      else None
  }

  function CheckFallback(item: Item, at: int): Option<Refusal> {
    if item.lease.None? then Some(NoLease)
    else
      var lease := Read(item.lease.value);
      if lease.Err? then Some(lease.error)
      else if lease.value.scanBlocked then Some(ScanBlocked)
      else if !lease.value.issuer.Waiting? then None
      else if at < lease.value.deadlineAt then Some(BeforeDeadline)
      else if item.state != Pending || item.run || item.attempts then Some(NotPending)
      else None
  }

  function Decided(item: Item, issuer: Issuer, at: int): Item
    requires item.lease.Some?
  {
    item.(lease := Some(item.lease.value.(issuer := issuer, decidedAt := Some(at))))
  }

  // ----- what a lease is worth --------------------------------------------------------------------------

  /** Whatever either operation is allowed to write can be read back. */
  lemma DecisionsAreReadable(item: Item, at: int)
    requires item.lease.Some? && item.lease.value.issuer.Waiting?
    ensures CheckQueue(item, at).None? ==>
              Read(Decided(item, QueueIssued, at).lease.value).Ok? && at < item.lease.value.deadlineAt
    ensures CheckFallback(item, at).None? ==>
              Read(Decided(item, AgentIssued, at).lease.value).Ok? && at >= item.lease.value.deadlineAt
  {
    if CheckFallback(item, at).None? {
      assert item.lease.value.deadlineAt == item.lease.value.requestedAt + 60 * item.lease.value.timeoutMinutes;
    }
  }

  /** At any one moment at most one of the two issuers may take the request. */
  lemma OneIssuerAtATime(item: Item, at: int)
    requires item.lease.Some? && item.lease.value.issuer.Waiting?
    ensures !(CheckQueue(item, at).None? && CheckFallback(item, at).None?)
  {
  }

  /** Once decided, a lease never again lets the queue issue, and only repeats its answer to a claim. */
  lemma DecisionsArePermanent(item: Item, issuer: Issuer, at: int, later: int, state: State, run: bool, attempts: bool)
    requires item.lease.Some? && !issuer.Waiting?
    ensures CheckQueue(Decided(item, issuer, at).(state := state, run := run, attempts := attempts), later).Some?
  {
  }

  /** A lease as it may stand: its policy valid, its deadline that of the policy, its decision on the issuer's side. */
  ghost predicate Stands(l: Lease) {
    && l.timeoutMinutes >= 1 && l.deadlineAt == l.requestedAt + 60 * l.timeoutMinutes
    && 1 <= |l.reviewer| <= 256 && (exists c <- l.reviewer :: c != ' ') && (forall c <- l.reviewer :: ' ' <= c)
    && (l.issuer.QueueIssued? ==> l.decidedAt.Some? && l.requestedAt <= l.decidedAt.value < l.deadlineAt)
    && (l.issuer.AgentIssued? ==> l.decidedAt.Some? && l.deadlineAt <= l.decidedAt.value)
  }

  ghost predicate Unstarted(item: Item) {
    item.state.Pending? && !item.run && !item.attempts
  }

  lemma ReadIff(l: Lease)
    ensures Read(l).Ok? <==> Stands(l)
    ensures Read(l).Ok? ==> Read(l).value == l
  {
    assert forall c <- l.reviewer :: c as int >= 32 <==> ' ' <= c;
  }

  /** The queue may issue exactly an unstarted, undecided, unblocked request from its time on until the deadline. */
  lemma QueueMayIff(item: Item, at: int)
    ensures CheckQueue(item, at).None? <==>
              || item.lease.None?
              || (var l := item.lease.value;
                  Stands(l) && l.issuer.Waiting? && !l.scanBlocked && Unstarted(item) &&
                      l.requestedAt <= at < l.deadlineAt)
  {
    if item.lease.Some? {
      ReadIff(item.lease.value);
    }
    hide Read, Stands;
  }

  /** A claim is answered exactly if the lease stands, unblocked, and is decided or may be by the agent from now on. */
  lemma FallbackMayIff(item: Item, at: int)
    ensures CheckFallback(item, at).None? <==>
              && item.lease.Some?
              && var l := item.lease.value;
                 Stands(l) && !l.scanBlocked && (l.issuer.Waiting? ==> l.deadlineAt <= at && Unstarted(item))
  {
    if item.lease.Some? {
      ReadIff(item.lease.value);
    }
    hide Read, Stands;
  }

  /** What befalls a launch: nothing, a save that is lost, a failure after the grant, or a death once it is saved. */
  datatype Launching = Smooth | ScanUnsaved | FailsGranted(saved: bool) | LaunchUnsaved | DiesSaved

  /** What befalls a claim: nothing, its save lost, or its reply. */
  datatype Claiming = Answered | ClaimUnsaved | ReplyLost

  // ----- one request over its life ----------------------------------------------------------------------

  class Request {
    /** The request as last saved. */
    var item: Item
    /** Queue launches started and dispatch permissions handed out. */
    ghost var launches: nat
    ghost var permissions: nat

    constructor (timeoutMinutes: int, reviewer: string, at: int)
      requires NewLease(timeoutMinutes, reviewer, at).Ok?
      ensures Sound() && launches == 0 && permissions == 0
      ensures item.lease == Some(NewLease(timeoutMinutes, reviewer, at).value)
    {
      item := Item(Pending, false, false, Some(NewLease(timeoutMinutes, reviewer, at).value));
      launches, permissions := 0, 0;
    }

    /** The saved lease is readable, and its issuer is the only one that ever acted, at most once. */
    ghost predicate Sound()
      reads this
    {
      && item.lease.Some? && Read(item.lease.value).Ok?
      && launches <= (if item.lease.value.issuer.QueueIssued? then 1 else 0)
      && permissions <= (if item.lease.value.issuer.AgentIssued? then 1 else 0)
    }

    /** The policy of the lease is fixed, a decision is permanent and a scan block stays. */
    twostate predicate Advances()
      reads this
    {
      && old(item).lease.Some? && item.lease.Some?
      && var before, after := old(item).lease.value, item.lease.value;
         && after.requestedAt == before.requestedAt && after.deadlineAt == before.deadlineAt
         && after.timeoutMinutes == before.timeoutMinutes && after.reviewer == before.reviewer
         && (!before.issuer.Waiting? ==> after.issuer == before.issuer && after.decidedAt == before.decidedAt)
         && (before.scanBlocked ==> after.scanBlocked)
    }

    /**
     A tick tries to launch: the check, the secret scan and the checkout, the grant under a second clock
     reading, the save, and only then the spawn.
     */
    method Launch(checkedAt: int, grantedAt: int, scanned: bool, checkedOut: bool, spawned: bool, fate: Launching)
        returns (refused: Option<Refusal>)
      requires Sound()
      modifies this
      ensures Sound() && Advances() && permissions == old(permissions)
      ensures launches > old(launches) ==>
                && item.lease.value.issuer.QueueIssued? && item.lease.value.decidedAt == Some(grantedAt)
                && item.lease.value.requestedAt <= grantedAt < item.lease.value.deadlineAt && permissions == 0
                && item.state == Reviewing && item.run && scanned && checkedOut &&
                   CheckQueue(old(item), checkedAt).None?
      ensures !scanned && refused.None? ==> item == old(item) || (item.state == Blocked && item.lease.value.scanBlocked)
      ensures refused.Some? ==> item == old(item) && launches == old(launches)
      ensures refused.None? <==>
                && CheckQueue(old(item), checkedAt).None?
                && (!scanned || !checkedOut || CheckQueue(old(item), grantedAt).None?)
      ensures refused.None? && !scanned && !fate.ScanUnsaved? ==> item.state == Blocked && item.lease.value.scanBlocked
      ensures var started := refused.None? && scanned && checkedOut && (fate.Smooth? || fate.ScanUnsaved?);
              && launches == old(launches) + (if started && spawned then 1 else 0)
              && (started || (refused.None? && scanned && checkedOut && fate.DiesSaved?) ==>
                  && item.lease.value.issuer.QueueIssued? && item.lease.value.decidedAt == Some(grantedAt) && item.run
                  && item.state == if started && !spawned then Failed else Reviewing)
    {
      var working := item;
      refused := CheckQueue(working, checkedAt);
      if refused.Some? {
        return;
      }
      if !scanned {
        working := working.(state := Blocked, lease := Some(working.lease.value.(scanBlocked := true)));
        if fate.ScanUnsaved? {
          return;
        }
        item := working;
        return;
      }
      if !checkedOut {
        return;
      }
      refused := CheckQueue(working, grantedAt);
      if refused.Some? {
        return;
      }
      DecisionsAreReadable(working, grantedAt);
      working := Decided(working, QueueIssued, grantedAt);
      if fate.FailsGranted? { // a later save of the tick may keep the decision without a launch
        if fate.saved {
          item := working;
        }
        return;
      }
      working := working.(state := Reviewing, run := true);
      if fate.LaunchUnsaved? {
        return;
      }
      item := working;
      if fate.DiesSaved? {
        return;
      }
      if spawned {
        launches := launches + 1;
      } else {
        item := item.(state := Failed);
      }
    }

    /**
     An agent claims the fallback; the decision is saved before the permission is returned, and the reply may be
     lost.
     */
    method Fallback(at: int, fate: Claiming) returns (answer: Option<Decision>, refused: Option<Refusal>)
      requires Sound()
      modifies this
      ensures Sound() && Advances() && launches == old(launches)
      ensures permissions == old(permissions) + (if answer.Some? && answer.value.dispatch then 1 else 0)
      ensures answer.Some? ==> answer.value.issuer == item.lease.value.issuer && !answer.value.issuer.Waiting?
      ensures answer.Some? && answer.value.dispatch ==>
                && old(item).lease.value.issuer.Waiting? && item.lease.value.decidedAt == Some(at) &&
                   at >= item.lease.value.deadlineAt
                && launches == 0 && item.state == Skipped && CheckFallback(old(item), at).None?
      ensures refused.Some? ==> item == old(item) && answer.None?
      ensures refused == CheckFallback(old(item), at)
      ensures refused.None? && !old(item).lease.value.issuer.Waiting? ==>
                item == old(item) && answer == Some(Decision(old(item).lease.value.issuer, false))
      ensures refused.None? && old(item).lease.value.issuer.Waiting? ==>
                && answer == (if fate.Answered? then Some(Decision(AgentIssued, true)) else None)
                && item == if fate.ClaimUnsaved? then old(item)
                           else old(item).(state := Skipped, lease := Some(old(item).lease.value.(
                                             issuer := AgentIssued, decidedAt := Some(at))))
    {
      answer, refused := None, CheckFallback(item, at);
      if refused.Some? {
        return;
      }
      if !item.lease.value.issuer.Waiting? {
        answer := Some(Decision(item.lease.value.issuer, false));
        return;
      }
      DecisionsAreReadable(item, at);
      var working := Decided(item, AgentIssued, at).(state := Skipped);
      if fate.ClaimUnsaved? {
        return;
      }
      item := working;
      if fate.ReplyLost? {
        return;
      }
      permissions := permissions + 1;
      answer := Some(Decision(AgentIssued, true));
    }

    /** An operator requeues, or a harvest moves the item: everything but the lease may change. */
    method Disturb(state: State, run: bool, attempts: bool)
      requires Sound()
      modifies `item
      ensures Sound() && Advances() && launches == old(launches) && permissions == old(permissions)
      ensures item == old(item).(state := state, run := run, attempts := attempts)
    {
      item := item.(state := state, run := run, attempts := attempts);
    }
  }
}
