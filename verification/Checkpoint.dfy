/**
 Rollback protection of ledger readers: any number of concurrent validators share one checkpoint ref
 that only a compare-and-swap moves. Git is an ancestry order on commits; the remote may answer any
 head, including an older or diverged one.
 */
module Checkpoint {
  import opened Prelude

  type Commit = nat

  const ATTEMPTS := 8

  ghost predicate Ancestry(ancestor: (Commit, Commit) -> bool) {
    && (forall a :: ancestor(a, a))
    && (forall a, b, c {:trigger ancestor(a, b), ancestor(b, c)} :: ancestor(a, b) && ancestor(b, c) ==> ancestor(a, c))
  }

  /** Where one validator stands between two ref operations. known records, for the statements only,
      the heads that had been returned when it read the checkpoint. */
  datatype Validator =
    | Idle
    | Bound(previous: Option<Commit>, known: set<Commit>)
    | Swapping(head: Commit, expected: Option<Commit>, attempt: nat, known: set<Commit>)
    | Refused(head: Commit, attempt: nat, known: set<Commit>)
    | Returned(head: Commit, known: set<Commit>)
    | Raised

  datatype State = State(checkpoint: Option<Commit>, validators: seq<Validator>, returned: set<Commit>)

  datatype Step = ReadCheckpoint | Fetch(head: Commit, readable: bool) | Swap | Contend | Inspect | Restart

  ghost predicate Next(ancestor: (Commit, Commit) -> bool, s: State, s': State, who: nat, step: Step) {
    who < |s.validators| &&
    var v := s.validators[who];
    match step
    case ReadCheckpoint =>
      v.Idle? && s' == s.(validators := s.validators[who := Bound(s.checkpoint, s.returned)])
    case Fetch(head, readable) =>
      // The head must descend from the bound checkpoint, and its history must validate.
      v.Bound? &&
      s' == s.(validators := s.validators[who :=
                 if (v.previous.Some? && !ancestor(v.previous.value, head)) || !readable then Raised
                 else Swapping(head, v.previous, 0, v.known)])
    case Swap =>
      v.Swapping? && s.checkpoint == v.expected &&
      s' == State(Some(v.head), s.validators[who := Returned(v.head, v.known)], s.returned + {v.head})
    case Contend =>
      // The update is refused: the ref moved, or was locked for a moment.
      v.Swapping? && s' == s.(validators := s.validators[who := Refused(v.head, v.attempt, v.known)])
    case Inspect =>
      v.Refused? &&
      (if s.checkpoint.None? then s' == s.(validators := s.validators[who := Raised])
       else
         var latest := s.checkpoint.value;
         if ancestor(v.head, latest) then
           s' == s.(validators := s.validators[who := Returned(v.head, v.known)], returned := s.returned + {v.head})
         else if !ancestor(latest, v.head) || v.attempt + 1 == ATTEMPTS then
           s' == s.(validators := s.validators[who := Raised])
         else
           s' == s.(validators := s.validators[who := Swapping(v.head, Some(latest), v.attempt + 1, v.known)]))
    case Restart =>
      (v.Returned? || v.Raised?) && s' == s.(validators := s.validators[who := Idle])
  }

  ghost predicate Covers(ancestor: (Commit, Commit) -> bool, heads: set<Commit>, top: Option<Commit>) {
    heads == {} || (top.Some? && forall h <- heads :: ancestor(h, top.value))
  }

  ghost predicate Safe(ancestor: (Commit, Commit) -> bool, v: Validator, s: State) {
    match v
    case Bound(previous, known) =>
      Covers(ancestor, known, previous)
    case Swapping(head, expected, attempt, known) =>
      && (expected.Some? ==> ancestor(expected.value, head))
      && Covers(ancestor, known, Some(head))
      && attempt < ATTEMPTS
    case Refused(head, attempt, known) =>
      Covers(ancestor, known, Some(head)) && attempt < ATTEMPTS
    case Returned(head, known) =>
      head in s.returned && Covers(ancestor, known, Some(head))
    case _ => true
  }

  ghost predicate Invariant(ancestor: (Commit, Commit) -> bool, s: State) {
    && Covers(ancestor, s.returned, s.checkpoint)
    && forall i :: 0 <= i < |s.validators| ==> Safe(ancestor, s.validators[i], s)
  }

  ghost predicate Initial(s: State) {
    s.returned == {} && forall v <- s.validators :: v.Idle?
  }

  /** A checkpoint only ever moves to a descendant. */
  ghost predicate Forward(ancestor: (Commit, Commit) -> bool, before: Option<Commit>, after: Option<Commit>) {
    before.None? || (after.Some? && ancestor(before.value, after.value))
  }

  lemma CoversForward(ancestor: (Commit, Commit) -> bool, heads: set<Commit>, before: Option<Commit>,
                      after: Option<Commit>)
    requires Ancestry(ancestor) && Covers(ancestor, heads, before) && Forward(ancestor, before, after)
    ensures Covers(ancestor, heads, after)
  {
  }

  lemma NextKeeps(ancestor: (Commit, Commit) -> bool, s: State, s': State, who: nat, step: Step)
    requires Ancestry(ancestor) && Invariant(ancestor, s) && Next(ancestor, s, s', who, step)
    ensures Invariant(ancestor, s') && Forward(ancestor, s.checkpoint, s'.checkpoint) && s.returned <= s'.returned
  {
    var v := s.validators[who];
    assert Safe(ancestor, v, s);
    if step.Fetch? && s'.validators[who].Swapping? {
      CoversForward(ancestor, v.known, v.previous, Some(step.head));
    }
    if step.Swap? {
      CoversForward(ancestor, s.returned, s.checkpoint, s'.checkpoint);
    }
    assert Safe(ancestor, s'.validators[who], s');
    forall i | 0 <= i < |s'.validators| ensures Safe(ancestor, s'.validators[i], s') {
      if i != who {
        assert s'.validators[i] == s.validators[i];
      }
    }
  }

  ghost predicate Advances(ancestor: (Commit, Commit) -> bool, s: State, s': State) {
    exists who, step :: Next(ancestor, s, s', who, step)
  }

  ghost predicate Run(ancestor: (Commit, Commit) -> bool, trace: seq<State>) {
    trace != [] && Initial(trace[0]) &&
    forall i {:trigger trace[i]} :: 0 < i < |trace| ==> Advances(ancestor, trace[i - 1], trace[i])
  }

  lemma {:induction false} RunInvariant(ancestor: (Commit, Commit) -> bool, trace: seq<State>, i: nat)
    requires Ancestry(ancestor) && Run(ancestor, trace) && i < |trace|
    ensures Invariant(ancestor, trace[i])
    ensures i > 0 ==> Forward(ancestor, trace[i - 1].checkpoint,
                              trace[i].checkpoint) && trace[i - 1].returned <= trace[i].returned
  {
    if i == 0 {
      assert forall v <- trace[0].validators :: v.Idle?;
    } else {
      RunInvariant(ancestor, trace, i - 1);
      var who, step :| Next(ancestor, trace[i - 1], trace[i], who, step);
      NextKeeps(ancestor, trace[i - 1], trace[i], who, step);
    }
  }

  lemma {:induction false} Later(ancestor: (Commit, Commit) -> bool, trace: seq<State>, i: nat, j: nat)
    requires Ancestry(ancestor) && Run(ancestor, trace) && i <= j < |trace|
    ensures Forward(ancestor, trace[i].checkpoint, trace[j].checkpoint) && trace[i].returned <= trace[j].returned
    decreases j
  {
    if i < j {
      Later(ancestor, trace, i, j - 1);
      RunInvariant(ancestor, trace, j);
    }
  }

  /**
   Under any interleaving the checkpoint only moves to descendants; once a fetch has returned, its
   head is an ancestor of, or equal to, the checkpoint in every later state; and a fetch that starts
   later never returns anything older.
   */
  lemma FetchIsRollbackSafe(ancestor: (Commit, Commit) -> bool, trace: seq<State>, i: nat, j: nat, who: nat)
    requires Ancestry(ancestor) && Run(ancestor, trace) && i <= j < |trace| && who < |trace[i].validators|
    ensures Forward(ancestor, trace[i].checkpoint, trace[j].checkpoint)
    ensures trace[i].validators[who].Returned? ==>
              trace[j].checkpoint.Some? && ancestor(trace[i].validators[who].head, trace[j].checkpoint.value)
    ensures trace[i].validators[who].Returned? ==>
              forall older <- trace[i].validators[who].known :: ancestor(older, trace[i].validators[who].head)
  {
    Later(ancestor, trace, i, j);
    RunInvariant(ancestor, trace, i);
    RunInvariant(ancestor, trace, j);
    assert Safe(ancestor, trace[i].validators[who], trace[i]);
  }

  // ----- what one step does, and that a fetch comes to its end ------------------------------------------

  /** Nobody else moves, and a step of one validator leaves the shared state but for its swap and its return. */
  ghost predicate OnlyMoves(s: State, s': State, who: nat)
    requires who < |s.validators|
  {
    && |s'.validators| == |s.validators|
    && (forall i :: 0 <= i < |s.validators| && i != who ==> s'.validators[i] == s.validators[i])
    && (s'.checkpoint != s.checkpoint ==>
          && s.validators[who].Swapping? && s'.validators[who].Returned?
          && s.checkpoint == s.validators[who].expected && s'.checkpoint == Some(s.validators[who].head))
    && s'.returned == s.returned + (if s'.validators[who].Returned? then {s'.validators[who].head} else {})
  }

  /** What the validator itself comes to. */
  ghost predicate Moves(ancestor: (Commit, Commit) -> bool, s: State, v: Validator, v': Validator, step: Step) {
    match step
    case ReadCheckpoint => v.Idle? && v' == Bound(s.checkpoint, s.returned)
    case Fetch(head, readable) =>
      && v.Bound? && v'.Raised? == ((v.previous.Some? && !ancestor(v.previous.value, head)) || !readable)
      && (!v'.Raised? ==> v' == Swapping(head, v.previous, 0, v.known))
    case Swap => v.Swapping? && v' == Returned(v.head, v.known)
    case Contend => v.Swapping? && v' == Refused(v.head, v.attempt, v.known)
    case Inspect =>
      && v.Refused? && (v'.Returned? || v'.Raised? || v'.Swapping?)
      && (v'.Returned? <==> s.checkpoint.Some? && ancestor(v.head, s.checkpoint.value))
      && (v'.Returned? ==> v' == Returned(v.head, v.known))
      && (v'.Raised? <==> s.checkpoint.None? || (!ancestor(v.head, s.checkpoint.value) &&
                                                 (!ancestor(s.checkpoint.value, v.head) || v.attempt == 7)))
      && (v'.Swapping? ==> v' == Swapping(v.head, s.checkpoint, v.attempt + 1, v.known))
    case Restart => (v.Returned? || v.Raised?) && v'.Idle?
  }

  /** A validator raises only on a rollback, unreadable history, a lost or diverged checkpoint or eight refusals. */
  lemma StepIs(ancestor: (Commit, Commit) -> bool, s: State, s': State, who: nat, step: Step)
    requires Next(ancestor, s, s', who, step) && Invariant(ancestor, s)
    ensures OnlyMoves(s, s', who) && Moves(ancestor, s, s.validators[who], s'.validators[who], step)
  {
    assert Safe(ancestor, s.validators[who], s);
  }

  ghost predicate Acts(ancestor: (Commit, Commit) -> bool, s: State, s': State, who: nat) {
    exists step :: Next(ancestor, s, s', who, step)
  }

  /** A validator whose turns are not interrupted. */
  ghost predicate Alone(ancestor: (Commit, Commit) -> bool, trace: seq<State>, who: nat) {
    && trace != []
    && forall i {:trigger trace[i]} :: 0 < i < |trace| ==> Acts(ancestor, trace[i - 1], trace[i], who)
  }

  lemma Longer(ancestor: (Commit, Commit) -> bool, trace: seq<State>, s: State, who: nat, step: Step)
    requires Alone(ancestor, trace, who) && Next(ancestor, trace[|trace| - 1], s, who, step)
    ensures Alone(ancestor, trace + [s], who)
  {
    hide Next;
    var more := trace + [s];
    forall i {:trigger more[i]} | 0 < i < |more| ensures Acts(ancestor, more[i - 1], more[i], who) {
      if i < |trace| {
        assert more[i - 1] == trace[i - 1] && more[i] == trace[i];
      } else {
        assert Next(ancestor, more[i - 1], more[i], who, step);
      }
    }
  }

  /** Left to itself, a fetch of a readable head descending from the checkpoint returns it and moves the checkpoint. */
  lemma UndisturbedFetchReturns(ancestor: (Commit, Commit) -> bool, s: State, who: nat, head: Commit)
      returns (trace: seq<State>)
    requires Ancestry(ancestor) && who < |s.validators| && s.validators[who].Idle?
    requires s.checkpoint.None? || ancestor(s.checkpoint.value, head)
    ensures Alone(ancestor, trace, who) && trace[0] == s && |trace| == 4
    ensures trace[3] == State(Some(head), s.validators[who := Returned(head, s.returned)], s.returned + {head})
  {
    var a := s.(validators := s.validators[who := Bound(s.checkpoint, s.returned)]);
    var b := s.(validators := s.validators[who := Swapping(head, s.checkpoint, 0, s.returned)]);
    var c := State(Some(head), s.validators[who := Returned(head, s.returned)], s.returned + {head});
    assert a.validators[who := Swapping(head, s.checkpoint, 0, s.returned)] == b.validators;
    assert b.validators[who := Returned(head, s.returned)] == c.validators;
    assert Next(ancestor, s, a, who, ReadCheckpoint);
    assert Next(ancestor, a, b, who, Fetch(head, true));
    assert Next(ancestor, b, c, who, Swap);
    trace := [s];
    Longer(ancestor, trace, a, who, ReadCheckpoint);
    trace := trace + [a];
    Longer(ancestor, trace, b, who, Fetch(head, true));
    trace := trace + [b];
    Longer(ancestor, trace, c, who, Swap);
    trace := trace + [c];
  }

  /** A refused swap comes to its end too: behind or at the checkpoint it returns, ahead of it it moves it at last. */
  lemma RefusedFetchReturns(ancestor: (Commit, Commit) -> bool, s: State, who: nat) returns (trace: seq<State>)
    requires Ancestry(ancestor) && Invariant(ancestor, s) && who < |s.validators| && s.validators[who].Refused?
    requires s.checkpoint.Some?
    requires var v := s.validators[who];
             ancestor(v.head, s.checkpoint.value) || (ancestor(s.checkpoint.value, v.head) && v.attempt < 7)
    ensures Alone(ancestor, trace, who) && trace[0] == s
    ensures var v, last := s.validators[who], trace[|trace| - 1];
            && last.validators == s.validators[who := Returned(v.head, v.known)]
            && last.checkpoint == if ancestor(v.head, s.checkpoint.value) then s.checkpoint else Some(v.head)
  {
    var v := s.validators[who];
    trace := [s];
    if ancestor(v.head, s.checkpoint.value) {
      var c := s.(validators := s.validators[who := Returned(v.head, v.known)], returned := s.returned + {v.head});
      assert Next(ancestor, s, c, who, Inspect);
      Longer(ancestor, trace, c, who, Inspect);
      trace := trace + [c];
    } else {
      var b := s.(validators := s.validators[who := Swapping(v.head, s.checkpoint, v.attempt + 1, v.known)]);
      var c := State(Some(v.head), s.validators[who := Returned(v.head, v.known)], s.returned + {v.head});
      assert b.validators[who := Returned(v.head, v.known)] == c.validators;
      assert Next(ancestor, s, b, who, Inspect);
      assert Next(ancestor, b, c, who, Swap);
      Longer(ancestor, trace, b, who, Inspect);
      trace := trace + [b];
      Longer(ancestor, trace, c, who, Swap);
      trace := trace + [c];
    }
  }
}
