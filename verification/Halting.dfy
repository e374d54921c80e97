/** When a run is sure to end, whatever the partners answer: exactly, in terms of the stored rows. */
module Halting {
  import opened Options
  import opened StateMachine
  import opened Dedup
  import opened Store
  import opened Partners
  import opened Steps
  import opened Commits
  import opened ExecutorSpec
  import opened Invariants
  import opened RunTheorems
  import opened CrashMachine
  import opened CrashTheorems
  import opened Outcome
  import opened Simulation

  ghost predicate Halts(env: Env, w: World) {
    exists n: nat :: Run(env, w, n).verdict != Running
  }

  /** No attempt of the current step within the retry limit has SUCCEEDED. */
  predicate Clear(t: Tables, maxRetries: int) {
    forall a :: 1 <= a <= maxRetries ==> !Succeeded(t, t.saga.step, a)
  }

  /** No attempt of a later step has. */
  ghost predicate LaterClear(t: Tables) {
    forall step, a :: Position(t.saga.step) < Position(step) ==> !Succeeded(t, step, a)
  }

  /** A broadcast without a signed transaction fails for good at its first attempt. */
  predicate Unsigned(t: Tables) {
    t.saga.step == Broadcast && TextOf(t.saga.payload, SignedTxHex) == ""
  }

  /** Some attempt the loop can get to has SUCCEEDED although its saga stands still. */
  predicate CanStall(t: Tables, maxRetries: int) {
    exists a :: 1 <= a <= maxRetries && Succeeded(t, t.saga.step, a) && (a == 1 || !Unsigned(t))
  }

  /** Rows of other steps are the same. */
  ghost predicate SameElse(a: Tables, b: Tables, step: Step) {
    forall s, i :: s != step ==> (Succeeded(a, s, i) <==> Succeeded(b, s, i))
  }

  lemma OwnRowOnly(a: Tables, b: Tables, step: Step, attempt: int)
    requires OnlyRow(a, b, RowKey(step, attempt))
    ensures SameElse(a, b, step)
    ensures forall i :: i != attempt ==> (Succeeded(a, step, i) <==> Succeeded(b, step, i))
  {
  }

  lemma AttemptGoesOn(env: Env, w: World, step: Step, attempt: nat)
    requires Core(env.tx, w.tables) && StepFrom(w.tables.saga.state) == Some(step)
    requires w.tables.saga.step == step && !Succeeded(w.tables, step, attempt)
    ensures var a := RunStepOnce(env, w, Snapshot(w.tables.txn, w.tables.saga), step, attempt);
            && Core(env.tx, a.world.tables) && SameElse(w.tables, a.world.tables, step)
            && (forall i :: i != attempt ==> (Succeeded(w.tables, step, i) <==> Succeeded(a.world.tables, step, i)))
            && (a.err == NoError ==>
                  a.world.tables.saga.state.Terminal() || StepAfter(step) == Some(a.world.tables.saga.step))
            && (a.err != NoError ==> SameShared(a.world.tables, w.tables))
  {
    hide Core, Committed, Execute, Fits, RunStepOnce, Moves, OutcomeSaga, OnlyRow, Succeeded;
    var sg := w.tables.saga;
    var a := RunStepOnce(env, w, Snapshot(w.tables.txn, sg), step, attempt);
    AttemptActs(env, w, step, attempt);
    OwnRowOnly(w.tables, a.world.tables, step, attempt);
    if a.err == NoError {
      ExecuteFits(env.o, w.fx, sg.payload, step);
      NextMovesOn(sg, step, Execute(env.o, w.fx, sg.payload, step).outcome);
    }
  }

  /** The retry loop over a step none of whose attempts has SUCCEEDED. */
  lemma {:induction false} RetryClears(env: Env, w: World, step: Step, attempt: nat)
    requires Core(env.tx, w.tables) && StepFrom(w.tables.saga.state) == Some(step) && w.tables.saga.step == step
    requires forall a :: attempt <= a <= env.maxRetries ==> !Succeeded(w.tables, step, a)
    ensures var r := RunStepWithRetry(env, w, Snapshot(w.tables.txn, w.tables.saga), step, attempt);
            && Core(env.tx, r.world.tables) && SameElse(w.tables, r.world.tables, step)
            && (r.ok ==> r.world.tables.saga.state.Terminal() || StepAfter(step) == Some(r.world.tables.saga.step))
            && (!r.ok ==> SameShared(r.world.tables, w.tables))
    decreases env.maxRetries - attempt
  {
    if attempt <= env.maxRetries {
      var sg := w.tables.saga;
      var a := RunStepOnce(env, w, Snapshot(w.tables.txn, sg), step, attempt);
      hide Core, RunStepOnce, Succeeded;
      AttemptGoesOn(env, w, step, attempt);
      if a.err == Retriable && !env.o.givesUp(a.world.fx.clock) {
        RetryClears(env, a.world.(fx := a.world.fx.Tick()), step, attempt + 1);
      }
    }
  }

  lemma SameRows(a: Tables, b: Tables)
    requires a.rows == b.rows
    ensures forall s, i :: Succeeded(a, s, i) <==> Succeeded(b, s, i)
  {
  }

  /** One turn over clear rows ends the run or gets to a later step, whose rows are clear. */
  lemma RoundClears(env: Env, w: World)
    requires Core(env.tx, w.tables) && !w.tables.saga.state.Terminal()
    requires LaterClear(w.tables) && Clear(w.tables, env.maxRetries)
    ensures var p := Round(env, w);
            && Core(env.tx, p.world.tables)
            && (p.verdict == Running ==>
                  && !p.world.tables.saga.state.Terminal()
                  && Position(w.tables.saga.step) < Position(p.world.tables.saga.step)
                  && LaterClear(p.world.tables) && Clear(p.world.tables, env.maxRetries))
  {
    hide Core, Committed, RunStepWithRetry, CompensateCascade, AdvanceToConfirmed, CascadeCalls, Succeeded;
    StepOfReady(env.tx, w.tables);
    var step := w.tables.saga.step;
    RetryClears(env, w, step, 1);
    var r := RunStepWithRetry(env, w, Snapshot(w.tables.txn, w.tables.saga), step, 1);
    if !r.ok {
      CascadeMoves(env, r.world, step);
    } else if r.world.tables.saga.state == Broadcasted {
      AdvanceKeepsRows(env, r.world);
      SameRows(r.world.tables, Round(env, w).world.tables);
    }
  }

  lemma {:induction false} ClearHalts(env: Env, w: World, n: nat)
    requires Core(env.tx, w.tables) && !w.tables.saga.state.Terminal()
    requires LaterClear(w.tables) && Clear(w.tables, env.maxRetries)
    requires n >= |STEP_ORDER| - Position(w.tables.saga.step)
    ensures Run(env, w, n).verdict != Running
    decreases n
  {
    hide Core, Round, LaterClear, Clear;
    RoundClears(env, w);
    if Round(env, w).verdict == Running {
      ClearHalts(env, Round(env, w).world, n - 1);
    }
  }

  /** Without a signed transaction one attempt and one cascade end the run. */
  lemma UnsignedHalts(env: Env, w: World)
    requires Core(env.tx, w.tables) && !w.tables.saga.state.Terminal()
    requires Unsigned(w.tables) && env.maxRetries >= 1 && !Succeeded(w.tables, Broadcast, 1)
    ensures Run(env, w, 1).verdict != Running
  {
    StepOfReady(env.tx, w.tables);
    AtWork(env.tx, w.tables);
    AttemptActs(env, w, Broadcast, 1);
    hide Core, Succeeded, Committed, RunStepOnce, CompensateFrom, CommitCascade;
    var r := RunStepWithRetry(env, w, Snapshot(w.tables.txn, w.tables.saga), Broadcast, 1);
    assert !r.ok;
  }

  /** Every partner fails for the moment, nothing is ever confirmed and no wait is cut short. */
  function Stalling(): Oracle {
    Oracle(_ => Transient, _ => Transient, _ => Transient, _ => true, _ => true, _ => Transient, _ => Transient,
           _ => Transient, _ => false, _ => Transient, _ => false, _ => 0, _ => 0)
  }

  lemma StallingFails(fx: Effects, payload: Payload, step: Step)
    requires step == Broadcast ==> TextOf(payload, TxHash) == "" && TextOf(payload, SignedTxHex) != ""
    requires step == Ledger ==> TextOf(payload, LedgerJournalId) == ""
    ensures Execute(Stalling(), fx, payload, step).outcome == Error(false)
  {
  }

  lemma StallingWaits(clock: nat)
    ensures !Stalling().givesUp(clock)
  {
  }

  lemma StallingAttempt(env: Env, w: World, step: Step, attempt: nat)
    requires env.o == Stalling()
    requires Core(env.tx, w.tables) && StepFrom(w.tables.saga.state) == Some(step) && w.tables.saga.step == step
    requires !Succeeded(w.tables, step, attempt) && !Unsigned(w.tables)
    ensures var a := RunStepOnce(env, w, Snapshot(w.tables.txn, w.tables.saga), step, attempt);
            && a.err == Retriable && !env.o.givesUp(a.world.fx.clock)
            && Core(env.tx, a.world.tables) && SameShared(a.world.tables, w.tables)
            && forall i :: i != attempt ==> (Succeeded(w.tables, step, i) <==> Succeeded(a.world.tables, step, i))
  {
    hide Core, Committed, Execute, RunStepOnce, OnlyRow, Succeeded, OutcomeSaga, Stalling;
    AtWork(env.tx, w.tables);
    StallingFails(w.fx, w.tables.saga.payload, step);
    AttemptActs(env, w, step, attempt);
    AttemptGoesOn(env, w, step, attempt);
    StallingWaits(RunStepOnce(env, w, Snapshot(w.tables.txn, w.tables.saga), step, attempt).world.fx.clock);
  }

  lemma SkippedAttempt(env: Env, w: World, snap: Snapshot, step: Step, attempt: nat)
    requires Succeeded(w.tables, step, attempt)
    ensures RunStepOnce(env, w, snap, step, attempt) == Attempt(w, NoError)
  {
  }

  /** The loop gets to the attempt that SUCCEEDED and leaves the saga as it is. */
  lemma {:induction false} RetryStalls(env: Env, w: World, step: Step, attempt: nat, at: int)
    requires env.o == Stalling()
    requires Core(env.tx, w.tables) && StepFrom(w.tables.saga.state) == Some(step) && w.tables.saga.step == step
    requires 1 <= attempt <= at <= env.maxRetries && Succeeded(w.tables, step, at)
    requires at == attempt || !Unsigned(w.tables)
    ensures var r := RunStepWithRetry(env, w, Snapshot(w.tables.txn, w.tables.saga), step, attempt);
            && r.ok && Core(env.tx, r.world.tables) && SameShared(r.world.tables, w.tables)
               && Succeeded(r.world.tables, step, at)
    decreases env.maxRetries - attempt
  {
    hide Core, RunStepOnce, Succeeded, Stalling;
    if Succeeded(w.tables, step, attempt) {
      SkippedAttempt(env, w, Snapshot(w.tables.txn, w.tables.saga), step, attempt);
    } else {
      StallingAttempt(env, w, step, attempt);
      var a := RunStepOnce(env, w, Snapshot(w.tables.txn, w.tables.saga), step, attempt);
      RetryStalls(env, a.world.(fx := a.world.fx.Tick()), step, attempt + 1, at);
    }
  }

  lemma RoundStalls(env: Env, w: World, at: int)
    requires env.o == Stalling() && Core(env.tx, w.tables) && !w.tables.saga.state.Terminal()
    requires 1 <= at <= env.maxRetries && Succeeded(w.tables, w.tables.saga.step, at)
             && (at == 1 || !Unsigned(w.tables))
    ensures var p := Round(env, w);
            && p.verdict == Running && Core(env.tx, p.world.tables) && SameShared(p.world.tables, w.tables)
            && Succeeded(p.world.tables, w.tables.saga.step, at)
  {
    hide Core, RunStepWithRetry, Succeeded, CommitConfirmed;
    StepOfReady(env.tx, w.tables);
    RetryStalls(env, w, w.tables.saga.step, 1, at);
  }

  lemma {:induction false} RunStalls(env: Env, w: World, at: int, n: nat)
    requires env.o == Stalling() && Core(env.tx, w.tables) && !w.tables.saga.state.Terminal()
    requires 1 <= at <= env.maxRetries && Succeeded(w.tables, w.tables.saga.step, at)
             && (at == 1 || !Unsigned(w.tables))
    ensures Run(env, w, n).verdict == Running
    decreases n
  {
    hide Core, Round, Succeeded;
    if n > 0 {
      RoundStalls(env, w, at);
      RunStalls(env, Round(env, w).world, at, n - 1);
    }
  }

  /** A run over a saga at work ends whatever the partners answer if and only if no attempt of its
      current step that the retry loop can get to has SUCCEEDED; later steps having none. */
  lemma HaltsIff(tx: TxId, maxRetries: int, rollback: bool, w: World)
    requires Core(tx, w.tables) && !w.tables.saga.state.Terminal() && LaterClear(w.tables)
    ensures (forall o: Oracle :: Halts(Env(tx, maxRetries, rollback, o), w)) <==> !CanStall(w.tables, maxRetries)
  {
    hide Core, LaterClear, Succeeded, Run, Stalling;
    if CanStall(w.tables, maxRetries) {
      var at :| 1 <= at <= maxRetries && Succeeded(w.tables, w.tables.saga.step, at)
        && (at == 1 || !Unsigned(w.tables));
      var env := Env(tx, maxRetries, rollback, Stalling());
      forall n: nat ensures Run(env, w, n).verdict == Running {
        RunStalls(env, w, at, n);
      }
      assert !Halts(env, w);
    } else {
      forall o: Oracle ensures Halts(Env(tx, maxRetries, rollback, o), w) {
        var env := Env(tx, maxRetries, rollback, o);
        if Clear(w.tables, maxRetries) {
          ClearHalts(env, w, |STEP_ORDER|);
        } else {
          UnsignedHalts(env, w);
        }
      }
    }
  }

  lemma AheadClear(env: Env, t: Tables)
    requires NothingAhead(env, t) && !t.saga.state.Terminal()
    ensures LaterClear(t)
    ensures env.rollback || t.saga.step != Ledger ==> Clear(t, env.maxRetries)
  {
    if env.rollback || t.saga.step != Ledger {
      NotSucceeded(t, t.saga.step, 1);
    }
  }

  /** Recovery on any store, whatever was started and wherever it crashed: the saga found at work is
      sure to be driven to its end if and only if it is not at the ledger step with an attempt
      within the retry limit that SUCCEEDED. A store that rolls back never has such a row. */
  lemma RecoveryHaltsIff(env: Env, m: Machine, actions: seq<Action>)
    requires Fresh(env, m) && Ready(env.tx, m.world.tables)
    requires !Exec(env, m, actions).world.tables.saga.state.Terminal()
    ensures var w := Exec(env, m, actions).world;
            var barred := exists a :: 1 <= a <= env.maxRetries && Succeeded(w.tables, Ledger, a);
            && ((forall o: Oracle :: Halts(env.(o := o), w)) <==> !(w.tables.saga.step == Ledger && barred))
            && (w.tables.saga.step == Ledger && env.rollback ==> !barred)
  {
    FreshIsSound(env, m);
    ExecKeepsSound(env, m, actions);
    var w := Exec(env, m, actions).world;
    hide Exec, Halts, Counted, Fitting, LegalPath, Core, NothingDone, Succeeded;
    AheadClear(env, w.tables);
    hide NothingAhead, LaterClear;
    HaltsIff(env.tx, env.maxRetries, env.rollback, w);
    assert forall o: Oracle :: env.(o := o) == Env(env.tx, env.maxRetries, env.rollback, o);
  }

  lemma SoundCore(env: Env, m: Machine)
    requires Sound(env, m)
    ensures Core(env.tx, m.world.tables)
  {
  }

  lemma LedgerCalled(env: Env, m: Machine)
    requires Sound(env, m) && m.pc == Idle && m.world.tables.saga.state == Broadcasted
    requires env.maxRetries >= 1 && !Succeeded(m.world.tables, Ledger, 1) && forall i :: env.o.post(i).Ok?
    ensures var b := Act(env, Act(env, Act(env, m, StartRun), Go), Go);
            && Sound(env, b) && b.pc.AtCommit? && b.pc.step == Ledger && b.pc.attempt == 1 && b.pc.outcome.Success?
            && b.world.tables.saga == m.world.tables.saga
  {
    var t := m.world.tables;
    StepOfState(env.tx, t);
    AtWork(env.tx, t);
    BeginOpens(t, Ledger, 1);
    ExecThree(env, m, StartRun, Go, Go);
    ExecKeepsSound(env, m, [StartRun, Go, Go]);
    hide Core, Counted, NothingDone, LegalPath, Fits;
  }

  lemma LedgerRefused(env: Env, b: Machine)
    requires Sound(env, b) && b.pc.AtCommit? && b.pc.step == Ledger && b.pc.attempt == 1 && b.pc.outcome.Success?
    requires b.world.tables.saga.state == Broadcasted && !env.rollback
    ensures var c := Act(env, b, Go);
            && c.world.tables.saga == b.world.tables.saga && c.world.tables.saga.step == Ledger
            && Succeeded(c.world.tables, Ledger, 1)
  {
    StepOfState(env.tx, b.world.tables);
    hide Core, Counted, NothingDone, LegalPath, Fits, CommitSuccess;
    CommitSuccessExact(env.rollback, env.tx, b.world.tables, Ledger, 1, b.pc.outcome.merge,
      FreshId(env, b.world.tables));
  }

  lemma RefusedAndCrashed(env: Env, m: Machine)
    requires Sound(env, m) && m.pc == Idle && m.world.tables.saga.state == Broadcasted
    requires !env.rollback && env.maxRetries >= 1 && !Succeeded(m.world.tables, Ledger, 1)
    requires forall i :: env.o.post(i).Ok?
    ensures var m' := Act(env, Act(env, Act(env, Act(env, Act(env, m, StartRun), Go), Go), Go), Crash);
            m'.pc == Idle && m'.world.tables.saga == m.world.tables.saga && Succeeded(m'.world.tables, Ledger, 1)
            && Succeeded(m'.world.tables, m'.world.tables.saga.step, 1)
  {
    LedgerCalled(env, m);
    var b := Act(env, Act(env, Act(env, m, StartRun), Go), Go);
    LedgerRefused(env, b);
    hide GoNext, Sound;
  }

  lemma NoTurn(env: Env, w: World)
    ensures Run(env, w, 0) == Progress(w, Running)
  {
  }

  lemma FiveActions(env: Env, m: Machine, a: Action, b: Action, c: Action, d: Action, e: Action)
    ensures Exec(env, m, [a, b, c, d, e]) == Act(env, Act(env, Act(env, Act(env, Act(env, m, a), b), c), d), e)
  {
    hide Act;
    var m3 := Act(env, Act(env, Act(env, m, a), b), c);
    assert [a, b, c, d, e] == [a, b, c] + [d, e];
    ExecAppend(env, m, [a, b, c], [d, e]);
    ExecThree(env, m, a, b, c);
    assert [d, e][1..] == [e];
    assert Exec(env, Act(env, m3, d), [e]) == Exec(env, Act(env, Act(env, m3, d), e), []);
  }

  /** The run that gets there, on a store that does not roll back: a saga waiting for confirmation
      is run, the ledger takes the entry, the commit is refused, and the process crashes. The
      refused commit's row stays, and no later run ever executes another step. */
  lemma RefusedCommitBars(env: Env, m: Machine, env': Env, n: nat)
    requires Sound(env, m) && m.pc == Idle && m.world.tables.saga.state == Broadcasted
    requires !env.rollback && env.maxRetries >= 1 && !Succeeded(m.world.tables, Ledger, 1)
    requires forall i :: env.o.post(i).Ok?
    requires env'.tx == env.tx && env'.maxRetries >= 1
    ensures var m' := Exec(env, m, [StartRun, Go, Go, Go, Crash]);
            && m'.pc == Idle && m'.world.tables.saga == m.world.tables.saga && Succeeded(m'.world.tables, Ledger, 1)
            && Run(env', m'.world, n).verdict == Running
            && Run(env', m'.world, n).world.fx.executed == m'.world.fx.executed
  {
    hide Sound, Act, Run, Core;
    RefusedAndCrashed(env, m);
    FiveActions(env, m, StartRun, Go, Go, Go, Crash);
    ExecKeepsSound(env, m, [StartRun, Go, Go, Go, Crash]);
    var m' := Exec(env, m, [StartRun, Go, Go, Go, Crash]);
    SoundCore(env, m');
    hide Exec;
    if n > 0 {
      StuckIff(env', m'.world, n);
    } else {
      NoTurn(env', m'.world);
    }
  }

  /** Every partner goes along, but the chain never confirms. */
  function NeverConfirmed(): Oracle {
    Oracle(_ => Ok(PolicyAnswer(false, "")), _ => Ok("a"), _ => Ok("c"), _ => false, _ => false,
           _ => Ok(KytAnswer(KytClear, "")), _ => Ok("s"), _ => Ok(BroadcastAnswer("h", true, false)),
           _ => false, _ => Ok("j"), _ => false, _ => 0, i => i)
  }

  lemma NeverConfirmedPasses(maxRetries: int, fx: Effects, payload: Payload, step: Step)
    requires maxRetries >= 1 && step != Ledger
    requires step == Broadcast ==> TextOf(payload, TxHash) == "" && TextOf(payload, SignedTxHex) != ""
    ensures var t := Try(NeverConfirmed(), maxRetries, fx, payload, step, true, 1);
            t.Passed? && (step == MpcSign ==> TextOf(t.payload, SignedTxHex) == "s")
  {
  }

  /** A turn that broadcasts and is not confirmed. */
  lemma UnconfirmedRound(env: Env, w: World)
    requires Ready(env.tx, w.tables) && w.tables.saga.state == Signed && env.o == NeverConfirmed()
    requires Try(env.o, env.maxRetries, w.fx, w.tables.saga.payload, Broadcast, true, 1).Passed?
    ensures var p := Round(env, w);
            p.verdict == Running && Ready(env.tx, p.world.tables) && p.world.tables.saga.state == Broadcasted
  {
    hide Core, NothingDone, RunStepWithRetry, Try, CommitConfirmed, CompensateFrom;
    StepOfReady(env.tx, w.tables);
    RetryMatches(env, w, Broadcast, 1);
    RoundMoves(env, w);
  }

  lemma StepOfReadyTables(tx: TxId, t: Tables)
    requires Ready(tx, t) && !t.saga.state.Terminal()
    ensures StepFrom(t.saga.state) == Some(t.saga.step)
    ensures t.saga.step == Broadcast ==> TextOf(t.saga.payload, TxHash) == ""
  {
    AtWork(tx, t);
  }

  /** Five turns bring a new purchase to rest in BROADCASTED. */
  lemma GetsStranded(env: Env, w: World)
    requires Ready(env.tx, w.tables) && w.tables.saga.state == Created
    requires env.o == NeverConfirmed() && env.maxRetries >= 1
    ensures var p := Run(env, w, 5);
            && p.verdict == Running && Ready(env.tx, p.world.tables)
            && p.world.tables.saga.state == Broadcasted
  {
    hide Ready, Core, Round, Try, NeverConfirmed;
    assert w.tables.saga.step == Policy by { StepOfReadyTables(env.tx, w.tables); }
    NeverConfirmedPasses(env.maxRetries, w.fx, w.tables.saga.payload, Policy);
    PassedRound(env, w);
    var w1 := Round(env, w).world;
    NeverConfirmedPasses(env.maxRetries, w1.fx, w1.tables.saga.payload, Payment);
    PassedRound(env, w1);
    var w2 := Round(env, w1).world;
    NeverConfirmedPasses(env.maxRetries, w2.fx, w2.tables.saga.payload, Kyt);
    PassedRound(env, w2);
    var w3 := Round(env, w2).world;
    NeverConfirmedPasses(env.maxRetries, w3.fx, w3.tables.saga.payload, MpcSign);
    PassedRound(env, w3);
    var w4 := Round(env, w3).world;
    StepOfReadyTables(env.tx, w4.tables);
    NeverConfirmedPasses(env.maxRetries, w4.fx, w4.tables.saga.payload, Broadcast);
    UnconfirmedRound(env, w4);
    assert Run(env, w, 5) == Run(env, w1, 4) == Run(env, w2, 3) == Run(env, w3, 2) == Run(env, w4, 1);
    assert Run(env, w4, 1) == Run(env, Round(env, w4).world, 0);
  }

  /** The machine follows a run that has not ended yet, and is then killed. */
  lemma KilledAfter(env: Env, m: Machine, n: nat) returns (actions: seq<Action>)
    requires m.pc == Idle && Run(env, m.world, n).verdict == Running
    ensures var m' := Exec(env, m, actions);
            m'.pc == Idle && m'.world == Run(env, m.world, n).world
  {
    hide Run, GoNext;
    RunLeads(env, m.world, n);
    var s := Act(env, m, StartRun);
    var k: nat :| GoTimes(env, Next(Load(m.world), m.world), k) == AfterRound(Run(env, m.world, n));
    GoesExec(env, s, k);
    actions := [StartRun] + Goes(k) + [Crash];
    ExecAppend(env, m, [StartRun] + Goes(k), [Crash]);
    assert ([StartRun] + Goes(k))[1..] == Goes(k);
    var m1 := Exec(env, m, [StartRun] + Goes(k));
    assert Exec(env, m1, [Crash]) == Exec(env, Act(env, m1, Crash), []);
  }

  lemma StrandedIsOpen(tx: TxId, t: Tables)
    requires Ready(tx, t) && t.saga.state == Broadcasted
    ensures !Succeeded(t, Ledger, 1)
  {
    StepOfReadyTables(tx, t);
    NotSucceeded(t, Ledger, 1);
  }

  /** On a store that persists and does not roll back recovery does fail, from a new purchase: two
      crashes, and no run started afterwards ever ends, whatever the partners answer from then on. */
  lemma RecoveryCanFail(env: Env, m: Machine)
    requires Fresh(env, m) && Ready(env.tx, m.world.tables) && !env.rollback
    requires env.o == NeverConfirmed() && env.maxRetries >= 1
    ensures exists actions :: forall o: Oracle :: !Halts(env.(o := o), Exec(env, m, actions).world)
  {
    hide Ready, Run, Fitting, Counted, LegalPath, Exec, Act;
    GetsStranded(env, m.world);
    var first := KilledAfter(env, m, 5);
    var m1 := Exec(env, m, first);
    assert Sound(env, m1) by {
      FreshIsSound(env, m);
      ExecKeepsSound(env, m, first);
    }
    StrandedIsOpen(env.tx, m1.world.tables);
    var last := [StartRun, Go, Go, Go, Crash];
    ExecAppend(env, m, first, last);
    hide Sound;
    var m2 := Exec(env, m, first + last);
    forall o: Oracle ensures !Halts(env.(o := o), m2.world) {
      forall n: nat ensures Run(env.(o := o), m2.world, n).verdict == Running {
        RefusedCommitBars(env, m1, env.(o := o), n);
      }
    }
  }
}
