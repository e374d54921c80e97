/** How a purchase ends, told from the partners' answers alone: no store, rows or versions. The
    executor over its tables refines this. */
module Outcome {
  import opened Options
  import opened StateMachine
  import opened Store
  import opened Partners
  import opened Steps
  import opened Commits
  import opened ExecutorSpec
  import opened Invariants
  import opened RunTheorems

  datatype Tried =
    | Passed(fx: Effects, payload: Payload)
    | Ended(fx: Effects, state: State)
    | GaveUp(fx: Effects)

  /** Tries a step from a given attempt on; `accepted` says whether its success can be recorded. */
  function Try(o: Oracle, maxRetries: int, fx: Effects, payload: Payload, step: Step, accepted: bool,
               attempt: nat): Tried
    decreases maxRetries - attempt
  {
    if attempt > maxRetries then GaveUp(fx)
    else
      var ex := Execute(o, fx, payload, step);
      match ex.outcome
      case Success(_, merge) =>
        if accepted then Passed(ex.fx, payload + merge)
        else TryAgain(o, maxRetries, ex.fx, payload, step, accepted, attempt)
      case Parked(state, _) => Ended(ex.fx, state)
      case Error(nonRetriable) =>
        if nonRetriable then GaveUp(ex.fx)
        else TryAgain(o, maxRetries, ex.fx, payload, step, accepted, attempt)
  }

  function TryAgain(o: Oracle, maxRetries: int, fx: Effects, payload: Payload, step: Step, accepted: bool,
                    attempt: nat): Tried
    requires attempt <= maxRetries
    decreases maxRetries - attempt, 0
  {
    if o.givesUp(fx.clock) then GaveUp(fx.Tick())
    else Try(o, maxRetries, fx.Tick(), payload, step, accepted, attempt + 1)
  }

  /** The state a purchase resting before `step` ends in. The ledger step is only accepted once
      the poll after the broadcast has seen the transaction confirmed. */
  function FinalState(o: Oracle, maxRetries: int, fx: Effects, payload: Payload, step: Step, confirmed: bool): State
    decreases |STEP_ORDER| - Position(step)
  {
    match Try(o, maxRetries, fx, payload, step, step != Ledger || confirmed, 1)
    case Ended(_, state) => state
    case GaveUp(fx) => CascadeTarget(step == Policy || CompensatePayment(o, fx, payload).ok)
    case Passed(fx, payload) =>
      match StepAfter(step)
      case None => Completed
      case Some(next) =>
        if step != Broadcast then FinalState(o, maxRetries, fx, payload, next, false)
        else if TextOf(payload, TxHash) == "" then FinalState(o, maxRetries, fx, payload, next, false)
        else
          var p := Poll(o, fx, o.polls(fx.clock));
          FinalState(o, maxRetries, p.fx, payload, next, p.confirmed)
  }

  /** Whether the retry loop over the store does what Try says. */
  ghost predicate Matches(w: World, r: Ran, t: Tried, step: Step) {
    match t
    case Passed(fx, payload) =>
      && r.ok && r.world.fx == fx && r.world.tables.saga.payload == payload
      && r.world.tables.saga.state == (if step == Ledger then Completed else StateForStep(step))
    case Ended(fx, state) => r.ok && r.world.fx == fx && r.world.tables.saga.state == state && state.IsFailure()
    case GaveUp(fx) => !r.ok && r.world.fx == fx && SameShared(r.world.tables, w.tables)
  }

  lemma PassedSaga(sg: SagaRow, step: Step, outcome: StepOutcome)
    requires outcome.Success? ==> outcome.state == StateForStep(step)
    ensures var next := OutcomeSaga(sg, step, outcome);
            match outcome
            case Success(_, merge) =>
              && next.payload == sg.payload + merge
              && next.state == (if step == Ledger then Completed else StateForStep(step))
            case Parked(state, _) => next.state == state
            case Error(_) => true
  {
  }

  /** The first attempt of the store-free loop, unrolled. */
  lemma TryUnrolled(o: Oracle, maxRetries: int, fx: Effects, payload: Payload, step: Step, accepted: bool, attempt: nat)
    requires attempt <= maxRetries
    ensures var ex := Execute(o, fx, payload, step);
            Try(o, maxRetries, fx, payload, step, accepted, attempt) ==
            if ex.outcome.Parked? then Ended(ex.fx, ex.outcome.state)
            else if ex.outcome.Success? && accepted then Passed(ex.fx, payload + ex.outcome.merge)
            else if ex.outcome.Error? && ex.outcome.nonRetriable then GaveUp(ex.fx)
            else if o.givesUp(ex.fx.clock) then GaveUp(ex.fx.Tick())
            else Try(o, maxRetries, ex.fx.Tick(), payload, step, accepted, attempt + 1)
  {
  }

  /** The first attempt of the loop over the store, unrolled. */
  lemma RetryUnrolled(env: Env, w: World, snap: Snapshot, step: Step, attempt: nat)
    requires attempt <= env.maxRetries
    ensures var a := RunStepOnce(env, w, snap, step, attempt);
            var w' := a.world.(fx := a.world.fx.Tick());
            RunStepWithRetry(env, w, snap, step, attempt) ==
            if a.err == NoError then Ran(a.world, true)
            else if a.err == NonRetriable then Ran(a.world, false)
            else if env.o.givesUp(a.world.fx.clock) then Ran(w', false)
            else RunStepWithRetry(env, w', snap, step, attempt + 1)
  {
    hide RunStepOnce;
  }

  /** The retry loop over the store does what Try says. */
  lemma {:induction false} RetryMatches(env: Env, w: World, step: Step, attempt: nat)
    requires Core(env.tx, w.tables) && StepFrom(w.tables.saga.state) == Some(step)
    requires w.tables.saga.step == step && NothingDone(w.tables, attempt)
    ensures var r := RunStepWithRetry(env, w, Snapshot(w.tables.txn, w.tables.saga), step, attempt);
            var t := Try(env.o, env.maxRetries, w.fx, w.tables.saga.payload, step, w.tables.saga.state != Broadcasted,
              attempt);
            Matches(w, r, t, step)
    decreases env.maxRetries - attempt
  {
    if attempt <= env.maxRetries {
      hide Core, Committed, Execute, Fits, RunStepOnce, NothingDone, OutcomeSaga, StateForStep;
      var sg := w.tables.saga;
      AttemptMoves(env, w, step, attempt);
      ExecuteFits(env.o, w.fx, sg.payload, step);
      PassedSaga(sg, step, Execute(env.o, w.fx, sg.payload, step).outcome);
      TryUnrolled(env.o, env.maxRetries, w.fx, sg.payload, step, sg.state != Broadcasted, attempt);
      RetryUnrolled(env, w, Snapshot(w.tables.txn, sg), step, attempt);
      hide Try, RunStepWithRetry;
      var a := RunStepOnce(env, w, Snapshot(w.tables.txn, sg), step, attempt);
      if a.err == Retriable && !env.o.givesUp(a.world.fx.clock) {
        RetryMatches(env, a.world.(fx := a.world.fx.Tick()), step, attempt + 1);
      }
    }
  }

  /** A turn whose step passes early in the order. */
  lemma PassedRound(env: Env, w: World)
    requires Ready(env.tx, w.tables) && !w.tables.saga.state.Terminal()
    requires Position(w.tables.saga.step) < Position(Broadcast)
    requires Try(env.o, env.maxRetries, w.fx, w.tables.saga.payload, w.tables.saga.step, true, 1).Passed?
    ensures var t := Try(env.o, env.maxRetries, w.fx, w.tables.saga.payload, w.tables.saga.step, true, 1);
            var p := Round(env, w);
            && p.verdict == Running && Ready(env.tx, p.world.tables) && p.world.fx == t.fx
            && p.world.tables.saga.payload == t.payload && p.world.tables.saga.state == StateForStep(w.tables.saga.step)
            && StepAfter(w.tables.saga.step) == Some(p.world.tables.saga.step)
  {
    hide Core, NothingDone, RunStepWithRetry, Try, CompensateFrom;
    StepOfReady(env.tx, w.tables);
    RetryMatches(env, w, w.tables.saga.step, 1);
    RoundMoves(env, w);
    StepOfReady(env.tx, Round(env, w).world.tables);
  }

  lemma AdvanceMatches(env: Env, w: World)
    requires Ready(env.tx, w.tables) && w.tables.saga.state == Broadcasted
    ensures var w', sg := AdvanceToConfirmed(env, w), w.tables.saga;
            && w'.tables.saga.payload == sg.payload && w'.tables.saga.step == Ledger
            && (if TextOf(sg.payload, TxHash) == "" then w' == w
                else
                  var p := Poll(env.o, w.fx, env.o.polls(w.fx.clock));
                  w'.fx == p.fx && w'.tables.saga.state == if p.confirmed then Confirmed else Broadcasted)
  {
    CommitConfirmedExact(env.rollback, env.tx, w.tables, FreshId(env, w.tables));
  }

  /** One turn leaves the final state as it was foretold. */
  lemma RoundMatches(env: Env, w: World)
    requires Ready(env.tx, w.tables) && !w.tables.saga.state.Terminal()
    ensures var sg, p := w.tables.saga, Round(env, w);
            var sg' := p.world.tables.saga;
            FinalState(env.o, env.maxRetries, w.fx, sg.payload, sg.step, sg.state == Confirmed) ==
            if p.verdict == Running then
              FinalState(env.o, env.maxRetries, p.world.fx, sg'.payload, sg'.step, sg'.state == Confirmed)
            else sg'.state
  {
    hide Core, Committed, NothingDone, RunStepWithRetry, CompensateFrom, AdvanceToConfirmed, CommitCascade,
         CompensatePayment, Poll, Try;
    StepOfReady(env.tx, w.tables);
    var step := w.tables.saga.step;
    RetryMatches(env, w, step, 1);
    RetryMoves(env, w, step, 1);
    var r := RunStepWithRetry(env, w, Snapshot(w.tables.txn, w.tables.saga), step, 1);
    if !r.ok {
      CascadeMoves(env, r.world, step);
      CascadeCallsMade(env, r.world, r.world.tables.saga, Position(step));
    } else if r.world.tables.saga.state == Broadcasted {
      AdvanceMatches(env, r.world);
    } else if !r.world.tables.saga.state.Terminal() {
      StepOfReady(env.tx, r.world.tables);
    }
  }

  /** The executor ends every purchase in the state the partners' answers call for. */
  lemma {:induction false} RunRefinesFinalState(env: Env, w: World, n: nat)
    requires Ready(env.tx, w.tables) && !w.tables.saga.state.Terminal()
    requires n >= |STEP_ORDER| - Position(w.tables.saga.step)
    ensures var sg := w.tables.saga;
            Run(env, w, n).world.tables.saga.state ==
            FinalState(env.o, env.maxRetries, w.fx, sg.payload, sg.step, sg.state == Confirmed)
    decreases n
  {
    hide Core, Round, FinalState, NothingDone;
    RoundMatches(env, w);
    RoundMoves(env, w);
    var p := Round(env, w);
    if p.verdict == Running {
      RunRefinesFinalState(env, p.world, n - 1);
    }
  }

  /** Every step from `step` on succeeds within its retries, and the poll after the broadcast
      confirms. */
  predicate EveryStepPasses(o: Oracle, maxRetries: int, fx: Effects, payload: Payload, step: Step)
    decreases |STEP_ORDER| - Position(step)
  {
    match Try(o, maxRetries, fx, payload, step, true, 1)
    case Ended(_, _) => false
    case GaveUp(_) => false
    case Passed(fx, payload) =>
      match StepAfter(step)
      case None => true
      case Some(next) =>
        if step != Broadcast then EveryStepPasses(o, maxRetries, fx, payload, next)
        else
          var p := Poll(o, fx, o.polls(fx.clock));
          TextOf(payload, TxHash) != "" && p.confirmed && EveryStepPasses(o, maxRetries, p.fx, payload, next)
  }

  lemma ParkedFails(o: Oracle, fx: Effects, payload: Payload, step: Step)
    ensures var r := Execute(o, fx, payload, step).outcome; r.Parked? ==> r.state.IsFailure()
  {
  }

  /** Parking a step never completes a purchase, and a success that cannot be recorded never counts. */
  lemma {:induction false} TryEnds(o: Oracle, maxRetries: int, fx: Effects, payload: Payload, step: Step,
                                   accepted: bool, attempt: nat)
    ensures var t := Try(o, maxRetries, fx, payload, step, accepted, attempt);
            (t.Ended? ==> t.state.IsFailure()) && (!accepted ==> !t.Passed?)
    decreases maxRetries - attempt
  {
    if attempt <= maxRetries {
      var ex := Execute(o, fx, payload, step);
      ExecuteFits(o, fx, payload, step);
      TryUnrolled(o, maxRetries, fx, payload, step, accepted, attempt);
      hide Execute, Try, Fits;
      ParkedFails(o, fx, payload, step);
      if !ex.outcome.Parked? && !o.givesUp(ex.fx.clock) {
        TryEnds(o, maxRetries, ex.fx.Tick(), payload, step, accepted, attempt + 1);
      }
    }
  }

  lemma StepAfterClimbs(step: Step)
    ensures StepAfter(step).Some? ==> Position(StepAfter(step).value) == Position(step) + 1
    ensures StepAfter(step) == Some(Ledger) <==> step == Broadcast
  {
  }

  lemma {:induction false} CompletedIff(o: Oracle, maxRetries: int, fx: Effects, payload: Payload, step: Step,
                                        confirmed: bool)
    ensures FinalState(o, maxRetries, fx, payload, step, confirmed) == Completed
            <==> (step == Ledger ==> confirmed) && EveryStepPasses(o, maxRetries, fx, payload, step)
    decreases |STEP_ORDER| - Position(step)
  {
    hide Try, Poll, CompensatePayment;
    var accepted := step != Ledger || confirmed;
    TryEnds(o, maxRetries, fx, payload, step, accepted, 1);
    var t := Try(o, maxRetries, fx, payload, step, accepted, 1);
    if t.Passed? && StepAfter(step).Some? {
      var next := StepAfter(step).value;
      StepAfterClimbs(step);
      if step == Broadcast {
        var p := Poll(o, t.fx, o.polls(t.fx.clock));
        if TextOf(t.payload, TxHash) == "" {
          CompletedIff(o, maxRetries, t.fx, t.payload, next, false);
        } else {
          CompletedIff(o, maxRetries, p.fx, t.payload, next, p.confirmed);
        }
      } else {
        CompletedIff(o, maxRetries, t.fx, t.payload, next, false);
      }
    }
  }

  /** A purchase run from its creation to its end is COMPLETED if and only if every step succeeds
      within its retries and the poll confirms. */
  lemma RunCompletesIff(env: Env, w: World, n: nat)
    requires Ready(env.tx, w.tables) && w.tables.saga.state == Created && n >= |STEP_ORDER|
    ensures Run(env, w, n).world.tables.saga.state == Completed
            <==> EveryStepPasses(env.o, env.maxRetries, w.fx, w.tables.saga.payload, Policy)
  {
    hide Run, FinalState, EveryStepPasses;
    assert w.tables.saga.step == Policy && !w.tables.saga.state.Terminal() by { StepOfReady(env.tx, w.tables); }
    RunRefinesFinalState(env, w, n);
    CompletedIff(env.o, env.maxRetries, w.fx, w.tables.saga.payload, Policy, false);
  }
}
