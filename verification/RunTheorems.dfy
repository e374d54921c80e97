/** Whole runs of the executor with nobody else touching the transaction: what every run keeps,
    how long it takes, and how a cascade leaves the step rows. */
module RunTheorems {
  import opened Options
  import opened StateMachine
  import opened Dedup
  import opened Store
  import opened Partners
  import opened Steps
  import opened Commits
  import opened ExecutorSpec
  import opened Invariants

  /** The tables a run may start from: those every commit and every new transaction leaves. */
  ghost predicate Ready(tx: TxId, t: Tables) {
    Core(tx, t) && NothingDone(t, 1)
  }

  predicate Succeeded(t: Tables, step: Step, attempt: int) {
    RowKey(step, attempt) in t.rows && t.rows[RowKey(step, attempt)] == StepSucceeded
  }

  lemma NotSucceeded(t: Tables, step: Step, attempt: int)
    requires NothingDone(t, attempt) && !t.saga.state.Terminal() && t.saga.step == step
    ensures forall a :: attempt <= a ==> !Succeeded(t, step, a)
  {
  }

  lemma BeginOpens(t: Tables, step: Step, attempt: int)
    requires !Succeeded(t, step, attempt)
    ensures var w := BeginAttempt(t, step, attempt);
            w == Write(t.(rows := t.rows[RowKey(step, attempt) := StepRunning]), true)
  {
  }

  lemma CallsKeepRecords(o: Oracle, fx: Effects, payload: Payload)
    ensures var p, b := ExecutePayment(o, fx).fx, ExecuteBroadcast(o, fx, payload).fx;
            && p.executed == fx.executed && p.compensated == fx.compensated
            && b.executed == fx.executed && b.compensated == fx.compensated
  {
    hide BroadcastOutcome;
  }

  lemma ExecuteRecords(o: Oracle, fx: Effects, payload: Payload, step: Step)
    ensures var fx' := Execute(o, fx, payload, step).fx;
            fx'.executed == fx.executed + [step] && fx'.compensated == fx.compensated
  {
    CallsKeepRecords(o, fx.(executed := fx.executed + [step]), payload);
    hide ExecutePayment, ExecuteBroadcast, PolicyOutcome, KytOutcome, SignOutcome, LedgerOutcome;
  }

  /** Closing an attempt whatever way leaves nothing SUCCEEDED from the next attempt on. */
  lemma NothingDoneAfter(t: Tables, t': Tables, step: Step, attempt: int)
    requires NothingDone(t, attempt) && t.saga.step == step && t'.saga == t.saga
    requires forall k :: k in t'.rows && k != RowKey(step, attempt) ==> k in t.rows && t'.rows[k] == t.rows[k]
    ensures NothingDone(t', attempt + 1)
  {
  }

  /** Moving on to the next step leaves nothing SUCCEEDED there. */
  lemma NothingDoneNext(t: Tables, t': Tables, step: Step, attempt: int)
    requires NothingDone(t, attempt) && t.saga.step == step && !t.saga.state.Terminal()
    requires t'.saga.state.Terminal() || StepAfter(step) == Some(t'.saga.step)
    requires forall k :: k in t'.rows && k != RowKey(step, attempt) ==> k in t.rows && t'.rows[k] == t.rows[k]
    ensures NothingDone(t', 1)
  {
  }

  /** The saga row an attempt's outcome asks for. */
  function OutcomeSaga(sg: SagaRow, step: Step, outcome: StepOutcome): SagaRow {
    match outcome
    case Success(state, merge) => NextSaga(sg, step, state, merge)
    case Parked(state, merge) => ParkedSaga(sg, state, merge)
    case Error(_) => sg
  }

  /** Whether an outcome moves the saga: a parking does, and a success unless the saga is still
      waiting for confirmation. */
  predicate Moves(sg: SagaRow, outcome: StepOutcome) {
    outcome.Parked? || (outcome.Success? && sg.state != Broadcasted)
  }

  /** No row but `key` is different. */
  ghost predicate OnlyRow(a: Tables, b: Tables, key: RowKey) {
    forall k :: k != key ==> (k in b.rows <==> k in a.rows) && (k in a.rows ==> b.rows[k] == a.rows[k])
  }

  lemma CommittedFrom(tx: TxId, a: Tables, b: Tables)
    requires SameShared(a, b)
    ensures forall c :: Committed(tx, a, c) ==> Committed(tx, b, c)
  {
  }

  /** One attempt whose row has not SUCCEEDED yet moves the shared tables in one commit or not at
      all; it moves them exactly when the step parks the saga, or succeeds on a saga that is not
      waiting for confirmation. No row but its own is touched. */
  lemma AttemptActs(env: Env, w: World, step: Step, attempt: nat)
    requires Core(env.tx, w.tables) && StepFrom(w.tables.saga.state) == Some(step)
    requires w.tables.saga.step == step && !Succeeded(w.tables, step, attempt)
    ensures var sg := w.tables.saga;
            var a := RunStepOnce(env, w, Snapshot(w.tables.txn, sg), step, attempt);
            var ex := Execute(env.o, w.fx, sg.payload, step);
            && Core(env.tx, a.world.tables) && a.world.fx == ex.fx
            && OnlyRow(w.tables, a.world.tables, RowKey(step, attempt))
            && (a.err == NoError <==> Moves(sg, ex.outcome))
            && (a.err == NonRetriable <==> ex.outcome.Error? && ex.outcome.nonRetriable)
            && (a.err == NoError ==>
                  && Committed(env.tx, w.tables, a.world.tables)
                  && a.world.tables.saga == OutcomeSaga(sg, step, ex.outcome))
            && (a.err != NoError ==> SameShared(a.world.tables, w.tables))
  {
    hide Core, Committed, Execute, Fits, CommitSuccess, CommitParked, BeginAttempt, KeyTaken, NewEvent, Succeeded;
    var t := BeginAttempt(w.tables, step, attempt).tables;
    var ex := Execute(env.o, w.fx, w.tables.saga.payload, step);
    BeginOpens(w.tables, step, attempt);
    CoreIsShared(env.tx, w.tables, t);
    CommittedFrom(env.tx, t, w.tables);
    ExecuteFits(env.o, w.fx, w.tables.saga.payload, step);
    match ex.outcome
    case Success(state, merge) =>
      CommitSuccessExact(env.rollback, env.tx, t, step, attempt, merge, FreshId(env, t));
      var a := RunStepOnce(env, w, Snapshot(w.tables.txn, w.tables.saga), step, attempt);
      if w.tables.saga.state == Broadcasted {
        CoreIsShared(env.tx, w.tables, a.world.tables);
      }
    case Parked(state, merge) =>
      CommitParkedExact(env.rollback, env.tx, t, step, attempt, state, merge, FreshId(env, t));
    case Error(_) =>
      var a := RunStepOnce(env, w, Snapshot(w.tables.txn, w.tables.saga), step, attempt);
      CoreIsShared(env.tx, w.tables, a.world.tables);
  }

  lemma NextMovesOn(sg: SagaRow, step: Step, outcome: StepOutcome)
    requires StepFrom(sg.state) == Some(step) && Moves(sg, outcome)
    requires match outcome
             case Success(state, _) => state == StateForStep(step)
             case Parked(state, _) => state.IsFailure()
             case Error(_) => true
    ensures var next := OutcomeSaga(sg, step, outcome);
            next.state.Terminal() || StepAfter(step) == Some(next.step)
  {
  }

  /** What such an attempt leaves behind: nothing SUCCEEDED ahead, neither at the next attempt nor
      at the next step. */
  lemma AttemptMoves(env: Env, w: World, step: Step, attempt: nat)
    requires Core(env.tx, w.tables) && StepFrom(w.tables.saga.state) == Some(step)
    requires w.tables.saga.step == step && NothingDone(w.tables, attempt)
    ensures var sg := w.tables.saga;
            var a := RunStepOnce(env, w, Snapshot(w.tables.txn, sg), step, attempt);
            var ex := Execute(env.o, w.fx, sg.payload, step);
            && Core(env.tx, a.world.tables) && a.world.fx == ex.fx
            && (a.err == NoError <==> Moves(sg, ex.outcome))
            && (a.err == NonRetriable <==> ex.outcome.Error? && ex.outcome.nonRetriable)
            && (a.err == NoError ==>
                  && Committed(env.tx, w.tables, a.world.tables) && NothingDone(a.world.tables, 1)
                  && a.world.tables.saga == OutcomeSaga(sg, step, ex.outcome)
                  && (a.world.tables.saga.state.Terminal() || StepAfter(step) == Some(a.world.tables.saga.step)))
            && (a.err != NoError ==> SameShared(a.world.tables, w.tables) && NothingDone(a.world.tables, attempt + 1))
  {
    NotSucceeded(w.tables, step, attempt);
    AttemptActs(env, w, step, attempt);
    hide Core, Committed, Execute, Fits, RunStepOnce, NothingDone, Moves, OutcomeSaga, Succeeded;
    var sg := w.tables.saga;
    var a := RunStepOnce(env, w, Snapshot(w.tables.txn, sg), step, attempt);
    if a.err == NoError {
      ExecuteFits(env.o, w.fx, sg.payload, step);
      NextMovesOn(sg, step, Execute(env.o, w.fx, sg.payload, step).outcome);
      NothingDoneNext(w.tables, a.world.tables, step, attempt);
    } else {
      NothingDoneAfter(w.tables, a.world.tables, step, attempt);
    }
  }

  function AtLeastZero(n: int): nat {
    if n < 0 then 0 else n
  }

  /** The retry loop ends in at most the configured number of attempts, and its only effect on the
      shared tables is the commit of the attempt that ends it. */
  lemma {:induction false} RetryMoves(env: Env, w: World, step: Step, attempt: nat)
    requires Core(env.tx, w.tables) && StepFrom(w.tables.saga.state) == Some(step)
    requires w.tables.saga.step == step && NothingDone(w.tables, attempt)
    ensures var r := RunStepWithRetry(env, w, Snapshot(w.tables.txn, w.tables.saga), step, attempt);
            && Core(env.tx, r.world.tables)
            && (r.ok ==>
                  && Committed(env.tx, w.tables, r.world.tables) && NothingDone(r.world.tables, 1)
                  && (r.world.tables.saga.state.Terminal() || StepAfter(step) == Some(r.world.tables.saga.step)))
            && (!r.ok ==> SameShared(r.world.tables, w.tables))
            && r.world.fx.compensated == w.fx.compensated
            && |r.world.fx.executed| <= |w.fx.executed| + AtLeastZero(env.maxRetries + 1 - attempt)
    decreases env.maxRetries - attempt
  {
    if attempt <= env.maxRetries {
      hide Core, Committed, Execute, RunStepOnce, NothingDone, Moves, OutcomeSaga;
      var sg := w.tables.saga;
      var a := RunStepOnce(env, w, Snapshot(w.tables.txn, sg), step, attempt);
      AttemptMoves(env, w, step, attempt);
      ExecuteRecords(env.o, w.fx, sg.payload, step);
      if a.err == Retriable && !env.o.givesUp(a.world.fx.clock) {
        RetryMoves(env, a.world.(fx := a.world.fx.Tick()), step, attempt + 1);
        CommittedFrom(env.tx, a.world.tables, w.tables);
      }
    }
  }

  /** The steps at positions `from` down to `last`. */
  function Descending(from: int, last: nat): seq<Step>
    requires from < |STEP_ORDER|
    decreases from
  {
    if from < last then [] else [STEP_ORDER[from]] + Descending(from - 1, last)
  }

  /** The Compensate calls of one cascade from `failed`, which stops at the payment step or not. */
  function CascadeCalls(failed: Step, ok: bool): seq<Step> {
    Descending(Position(failed), if ok then 0 else Position(Payment))
  }

  /** At most one cascade's calls were added. */
  ghost predicate OneCascade(before: seq<Step>, after: seq<Step>) {
    after == before || exists failed, ok :: after == before + CascadeCalls(failed, ok)
  }

  /** The row a cascade from position `i` leaves for `k`. */
  function CascadedRow(k: RowKey, was: StepStatus, i: int, ok: bool): StepStatus {
    if k.attempt != 1 || Position(k.step) > i then was
    else if ok || Position(k.step) > Position(Payment) then StepCompensated
    else if k.step == Payment then StepFailed
    else was
  }

  lemma MarkTwice(t: Tables, step: Step, s: StepStatus)
    ensures var t' := MarkRow(MarkRow(t, step, StepCompensating), step, s);
            && SameShared(t', t) && t'.rows.Keys == t.rows.Keys
            && forall k :: k in t.rows ==> t'.rows[k] == if k == RowKey(step, 1) then s else t.rows[k]
  {
  }

  lemma CompensateRecords(o: Oracle, fx: Effects, payload: Payload, step: Step)
    ensures var u := Compensate(o, fx, payload, step);
            var undone := CompensatePayment(o, fx, payload);
            && u.ok == (step != Payment || undone.ok)
            && u.fx == (if step.Payment? then undone.fx else fx).(compensated := fx.compensated + [step])
  {
  }

  lemma CompensatePaymentIgnoresCalls(o: Oracle, fx: Effects, payload: Payload, calls: seq<Step>)
    ensures var u := CompensatePayment(o, fx, payload);
            && u.fx.compensated == fx.compensated && u.fx.executed == fx.executed
            && CompensatePayment(o, fx.(compensated := calls), payload) == u.(fx := u.fx.(compensated := calls))
  {
  }

  lemma DescendingNext(calls: seq<Step>, i: nat, last: nat)
    requires last <= i < |STEP_ORDER|
    ensures calls + [STEP_ORDER[i]] + Descending(i - 1, last) == calls + Descending(i, last)
  {
  }

  lemma DescendingOne(i: nat)
    requires i < |STEP_ORDER|
    ensures Descending(i, i) == [STEP_ORDER[i]]
  {
  }

  lemma DescendingNone(i: int)
    requires i < 0
    ensures Descending(i, 0) == []
  {
  }

  /** Which Compensate calls a cascade makes and what they do: the failed step and then every
      earlier one in reverse order, each once, stopping early only when the refund or the void of
      the payment step fails. */
  lemma {:induction false} CascadeCallsMade(env: Env, w: World, sg: SagaRow, i: int)
    requires i < |STEP_ORDER|
    ensures var r := CompensateFrom(env, w, sg, i);
            var undone := CompensatePayment(env.o, w.fx, sg.payload);
            && r.ok == (i < Position(Payment) || undone.ok)
            && r.world.fx == (if i < Position(Payment) then w.fx else undone.fx).(
                               compensated := w.fx.compensated + Descending(i, if r.ok then 0 else Position(Payment)))
    decreases i
  {
    if i >= 0 {
      hide MarkRow, Compensate, CompensatePayment, Descending;
      var step := STEP_ORDER[i];
      var u := Compensate(env.o, w.fx, sg.payload, step);
      var calls := w.fx.compensated + [step];
      CompensateRecords(env.o, w.fx, sg.payload, step);
      CompensatePaymentIgnoresCalls(env.o, w.fx, sg.payload, calls);
      if u.ok {
        var w' := World(MarkRow(MarkRow(w.tables, step, StepCompensating), step, StepCompensated), u.fx);
        CascadeCallsMade(env, w', sg, i - 1);
        DescendingNext(w.fx.compensated, i, if CompensateFrom(env, w, sg, i).ok then 0 else Position(Payment));
      } else {
        DescendingOne(i);
      }
    } else {
      DescendingNone(i);
    }
  }

  lemma CascadedRowStep(k: RowKey, was: StepStatus, i: nat, ok: bool)
    requires i < |STEP_ORDER|
    ensures !ok && i == Position(Payment) ==>
              CascadedRow(k, was, i, ok) == if k == RowKey(STEP_ORDER[i], 1) then StepFailed else was
    ensures (ok || i > Position(Payment)) ==>
              CascadedRow(k, was, i, ok) ==
              CascadedRow(k, if k == RowKey(STEP_ORDER[i], 1) then StepCompensated else was, i - 1, ok)
  {
  }

  /** The rows a cascade leaves: attempt-1 rows from the failed step down end COMPENSATED, or when
      the payment step fails its row ends FAILED and the policy row stays as it was. Rows of later
      steps and of other attempts never change, and neither do the saga, transaction or outbox. */
  lemma {:induction false} CascadeRows(env: Env, w: World, sg: SagaRow, i: int)
    requires i < |STEP_ORDER|
    ensures var r := CompensateFrom(env, w, sg, i);
            && SameShared(r.world.tables, w.tables)
            && r.world.tables.rows.Keys == w.tables.rows.Keys
            && forall k :: k in w.tables.rows ==> r.world.tables.rows[k] == CascadedRow(k, w.tables.rows[k], i, r.ok)
    decreases i
  {
    if i >= 0 {
      var step := STEP_ORDER[i];
      hide MarkRow, Compensate, CompensatePayment, Descending;
      CompensateRecords(env.o, w.fx, sg.payload, step);
      MarkTwice(w.tables, step, StepCompensated);
      MarkTwice(w.tables, step, StepFailed);
      var u := Compensate(env.o, w.fx, sg.payload, step);
      if u.ok {
        var w' := World(MarkRow(MarkRow(w.tables, step, StepCompensating), step, StepCompensated), u.fx);
        CascadeCallsMade(env, w', sg, i - 1);
        CascadeRows(env, w', sg, i - 1);
      }
      hide CompensateFrom, CascadedRow;
      var r := CompensateFrom(env, w, sg, i);
      forall k | k in w.tables.rows ensures r.world.tables.rows[k] == CascadedRow(k, w.tables.rows[k], i, r.ok) {
        CascadedRowStep(k, w.tables.rows[k], i, r.ok);
      }
    }
  }

  /** A cascade over a saga that is not terminal parks it in one commit. */
  lemma CascadeMoves(env: Env, w: World, step: Step)
    requires Core(env.tx, w.tables) && StepFrom(w.tables.saga.state) == Some(step)
    ensures var r := CompensateCascade(env, w, step);
            && Core(env.tx, r.world.tables) && Committed(env.tx, w.tables, r.world.tables)
            && r.world.tables.saga == CascadedSaga(w.tables.saga, CascadeTarget(r.ok))
            && r.world.fx.executed == w.fx.executed
            && r.world.fx.compensated ==
               w.fx.compensated + CascadeCalls(step, r.ok)
  {
    hide Core, Committed, CompensateFrom, Compensate;
    var sg := w.tables.saga;
    CascadeCallsMade(env, w, sg, Position(step));
    CascadeRows(env, w, sg, Position(step));
    var r := CompensateFrom(env, w, sg, Position(step));
    CoreIsShared(env.tx, w.tables, r.world.tables);
    CommittedFrom(env.tx, r.world.tables, w.tables);
    CommitCascadeExact(env.tx, r.world.tables, CascadeTarget(r.ok), FreshId(env, r.world.tables));
  }

  lemma {:induction false} PollOnlyAsks(o: Oracle, fx: Effects, left: nat)
    ensures var fx' := Poll(o, fx, left).fx; fx' == fx.(clock := fx'.clock, granted := fx'.granted)
    decreases left
  {
    if !o.confirmed(fx.clock) && left > 0 {
      PollOnlyAsks(o, AskStatus(fx, false), left - 1);
    }
  }

  lemma AdvanceMoves(env: Env, w: World)
    requires Ready(env.tx, w.tables) && w.tables.saga.state == Broadcasted
    ensures var w' := AdvanceToConfirmed(env, w);
            && Ready(env.tx, w'.tables)
            && w'.fx == w.fx.(clock := w'.fx.clock, granted := w'.fx.granted)
            && (w'.tables == w.tables
                || (Committed(env.tx, w.tables, w'.tables) && w'.tables.saga == ConfirmedSaga(w.tables.saga)))
  {
    if TextOf(w.tables.saga.payload, TxHash) != "" {
      PollOnlyAsks(env.o, w.fx, env.o.polls(w.fx.clock));
      CommitConfirmedExact(env.rollback, env.tx, w.tables, FreshId(env, w.tables));
    }
  }

  lemma StepOfReady(tx: TxId, t: Tables)
    requires Core(tx, t) && !t.saga.state.Terminal()
    ensures StepFrom(t.saga.state) == Some(t.saga.step)
  {
  }

  /** The step and its recorded entries, read off the shape of a saga at work. */
  lemma AtWork(tx: TxId, t: Tables)
    requires Core(tx, t) && !t.saga.state.Terminal()
    ensures Rank(t.saga.state) >= Position(t.saga.step)
    ensures t.saga.step == Broadcast ==> TextOf(t.saga.payload, TxHash) == ""
    ensures t.saga.step == Ledger ==> TextOf(t.saga.payload, LedgerJournalId) == ""
  {
    assert KeyRank(TxHash).value == 5 && KeyRank(LedgerJournalId).value == 8;
  }

  lemma NothingDoneTerminal(t: Tables)
    requires t.saga.state.Terminal()
    ensures NothingDone(t, 1)
  {
  }

  /** One turn of the loop either ends the run in a terminal state or passes to a later step. */
  lemma RoundMoves(env: Env, w: World)
    requires Ready(env.tx, w.tables) && !w.tables.saga.state.Terminal()
    ensures var p := Round(env, w);
            && Ready(env.tx, p.world.tables)
            && (p.verdict == Running <==> !p.world.tables.saga.state.Terminal())
            && (p.verdict == Running ==>
                  && Position(w.tables.saga.step) < Position(p.world.tables.saga.step)
                  && p.world.fx.compensated == w.fx.compensated)
            && (p.verdict == CompensationError ==> p.world.tables.saga.state == Failed)
            && |p.world.fx.executed| <= |w.fx.executed| + AtLeastZero(env.maxRetries)
            && OneCascade(w.fx.compensated, p.world.fx.compensated)
  {
    hide Core, Committed, NothingDone, RunStepWithRetry, CompensateCascade, AdvanceToConfirmed, CascadeCalls;
    StepOfReady(env.tx, w.tables);
    var step := w.tables.saga.step;
    RetryMoves(env, w, step, 1);
    var r := RunStepWithRetry(env, w, Snapshot(w.tables.txn, w.tables.saga), step, 1);
    if !r.ok {
      CascadeMoves(env, r.world, step);
      NothingDoneTerminal(CompensateCascade(env, r.world, step).world.tables);
    } else if r.world.tables.saga.state == Broadcasted {
      AdvanceMoves(env, r.world);
    }
  }

  lemma Monotone(a: nat, b: nat, m: nat)
    requires a <= b
    ensures a * m <= b * m && (b + 1) * m == b * m + m
  {
  }

  /** Termination with a bound: from any ready tables Run stops in a terminal state within one
      turn per remaining step, with at most MaxRetries calls of Execute a turn and at most one
      cascade, and leaves ready tables. */
  lemma {:induction false} RunHalts(env: Env, w: World, n: nat)
    requires Ready(env.tx, w.tables) && !w.tables.saga.state.Terminal()
    requires n >= |STEP_ORDER| - Position(w.tables.saga.step)
    ensures var p := Run(env, w, n);
            && p.verdict != Running
            && Ready(env.tx, p.world.tables) && p.world.tables.saga.state.Terminal()
            && (p.verdict == CompensationError ==> p.world.tables.saga.state == Failed)
            && |p.world.fx.executed| <= |w.fx.executed|
               + (|STEP_ORDER| - Position(w.tables.saga.step)) * AtLeastZero(env.maxRetries)
            && OneCascade(w.fx.compensated, p.world.fx.compensated)
    decreases n
  {
    hide Ready, Round;
    RoundMoves(env, w);
    var p := Round(env, w);
    var left, m := |STEP_ORDER| - Position(w.tables.saga.step), AtLeastZero(env.maxRetries);
    if p.verdict == Running {
      RunHalts(env, p.world, n - 1);
      Monotone(|STEP_ORDER| - Position(p.world.tables.saga.step), left - 1, m);
    } else {
      Monotone(1, left, m);
    }
  }

  /** Running a terminal saga changes nothing. */
  lemma TerminalRunIsNoop(env: Env, w: World, n: nat)
    requires w.tables.saga.state.Terminal() && n > 0
    ensures Run(env, w, n) == Progress(w, Finished)
  {
  }

  /** Lockstep after every turn, with or without rollback in the store. */
  lemma {:induction false} LockstepAlways(env: Env, w: World, n: nat)
    requires Ready(env.tx, w.tables)
    ensures Ready(env.tx, Run(env, w, n).world.tables)
    decreases n
  {
    hide Core, Round, NothingDone;
    if n > 0 && !w.tables.saga.state.Terminal() {
      RoundMoves(env, w);
      LockstepAlways(env, Round(env, w).world, n - 1);
    } else if n > 0 {
      TerminalRunIsNoop(env, w, n);
    }
  }

  lemma AttemptExecutes(env: Env, w: World, snap: Snapshot, step: Step, attempt: nat)
    ensures var k := RowKey(step, attempt);
            var a := RunStepOnce(env, w, snap, step, attempt);
            if k in w.tables.rows && w.tables.rows[k] == StepSucceeded then a == Attempt(w, NoError)
            else |a.world.fx.executed| == |w.fx.executed| + 1
  {
    ExecuteRecords(env.o, w.fx, snap.saga.payload, step);
  }

  lemma {:induction false} RetryExecutes(env: Env, w: World, snap: Snapshot, step: Step, attempt: nat)
    ensures var r := RunStepWithRetry(env, w, snap, step, attempt);
            |r.world.fx.executed| >= |w.fx.executed|
    decreases env.maxRetries - attempt
  {
    hide RunStepOnce;
    if attempt <= env.maxRetries {
      AttemptExecutes(env, w, snap, step, attempt);
      var a := RunStepOnce(env, w, snap, step, attempt);
      if a.err == Retriable && !env.o.givesUp(a.world.fx.clock) {
        RetryExecutes(env, a.world.(fx := a.world.fx.Tick()), snap, step, attempt + 1);
      }
    }
  }

  lemma RoundExecutes(env: Env, w: World)
    ensures |Round(env, w).world.fx.executed| >= |w.fx.executed|
  {
    hide RunStepWithRetry, CompensateFrom, Poll, CompensatePayment;
    if !w.tables.saga.state.Terminal() {
      var step := w.tables.saga.step;
      var snap := Snapshot(w.tables.txn, w.tables.saga);
      RetryExecutes(env, w, snap, step, 1);
      var r := RunStepWithRetry(env, w, snap, step, 1);
      CascadeCallsMade(env, r.world, r.world.tables.saga, Position(step));
      CompensatePaymentIgnoresCalls(env.o, r.world.fx, r.world.tables.saga.payload, []);
      PollOnlyAsks(env.o, r.world.fx, env.o.polls(r.world.fx.clock));
    }
  }

  lemma {:induction false} RunExecutes(env: Env, w: World, n: nat)
    ensures |Run(env, w, n).world.fx.executed| >= |w.fx.executed|
    decreases n
  {
    hide Round;
    if n > 0 {
      RoundExecutes(env, w);
      RunExecutes(env, Round(env, w).world, n - 1);
    }
  }

  lemma AdvanceKeepsRows(env: Env, w: World)
    requires Core(env.tx, w.tables) && w.tables.saga.state == Broadcasted
    ensures var w' := AdvanceToConfirmed(env, w);
            && Core(env.tx, w'.tables) && w'.fx.executed == w.fx.executed && w'.tables.rows == w.tables.rows
            && (w'.tables.saga == w.tables.saga || w'.tables.saga == ConfirmedSaga(w.tables.saga))
            && w.tables.saga.step == Ledger
  {
    PollOnlyAsks(env.o, w.fx, env.o.polls(w.fx.clock));
    CommitConfirmedExact(env.rollback, env.tx, w.tables, FreshId(env, w.tables));
  }

  /** One turn over a current step whose attempt-1 row SUCCEEDED: at most a confirmation commits,
      and the row still bars the saga's way. */
  lemma BarredRound(env: Env, w: World)
    requires Core(env.tx, w.tables) && !w.tables.saga.state.Terminal()
    requires env.maxRetries >= 1 && Succeeded(w.tables, w.tables.saga.step, 1)
    ensures var p := Round(env, w);
            && p.verdict == Running && p.world.fx.executed == w.fx.executed
            && Core(env.tx, p.world.tables) && !p.world.tables.saga.state.Terminal()
            && Succeeded(p.world.tables, p.world.tables.saga.step, 1)
  {
    hide Core, AdvanceToConfirmed, Committed;
    StepOfReady(env.tx, w.tables);
    var step := w.tables.saga.step;
    assert RunStepWithRetry(env, w, Snapshot(w.tables.txn, w.tables.saga), step, 1) == Ran(w, true);
    if w.tables.saga.state == Broadcasted {
      AdvanceKeepsRows(env, w);
    }
  }

  lemma FirstRoundExecutes(env: Env, w: World)
    requires !w.tables.saga.state.Terminal() && env.maxRetries >= 1
    requires !Succeeded(w.tables, w.tables.saga.step, 1)
    ensures |Round(env, w).world.fx.executed| > |w.fx.executed|
  {
    hide RunStepOnce, CompensateFrom, Poll, CompensatePayment;
    var step, snap := w.tables.saga.step, Snapshot(w.tables.txn, w.tables.saga);
    AttemptExecutes(env, w, snap, step, 1);
    var a := RunStepOnce(env, w, snap, step, 1);
    RetryExecutes(env, a.world.(fx := a.world.fx.Tick()), snap, step, 2);
    var r := RunStepWithRetry(env, w, snap, step, 1);
    assert |r.world.fx.executed| > |w.fx.executed|;
    CascadeCallsMade(env, r.world, r.world.tables.saga, Position(step));
    CompensatePaymentIgnoresCalls(env.o, r.world.fx, r.world.tables.saga.payload, []);
    PollOnlyAsks(env.o, r.world.fx, env.o.polls(r.world.fx.clock));
  }

  /** A run is barred when its current step's first attempt already SUCCEEDED: it never executes
      anything, whatever the partners would answer, and this is the only way not to. */
  lemma {:induction false} StuckIff(env: Env, w: World, n: nat)
    requires Core(env.tx, w.tables) && !w.tables.saga.state.Terminal()
    requires env.maxRetries >= 1 && n > 0
    ensures var p := Run(env, w, n);
            && (p.world.fx.executed == w.fx.executed <==> Succeeded(w.tables, w.tables.saga.step, 1))
            && (Succeeded(w.tables, w.tables.saga.step, 1) ==>
                  p.verdict == Running && !p.world.tables.saga.state.Terminal())
    decreases n
  {
    hide Core, Round;
    if Succeeded(w.tables, w.tables.saga.step, 1) {
      BarredRound(env, w);
      if n > 1 {
        StuckIff(env, Round(env, w).world, n - 1);
      } else {
        assert Run(env, Round(env, w).world, 0) == Progress(Round(env, w).world, Running);
      }
    } else {
      FirstRoundExecutes(env, w);
      RunExecutes(env, Round(env, w).world, n - 1);
    }
  }
}
