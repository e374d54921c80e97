/** The saga executor as functions: one run of one transaction over the tables and partners. */
module ExecutorSpec {
  import opened StateMachine
  import opened Dedup
  import opened Store
  import opened Partners
  import opened Steps
  import opened Commits

  /** What a run does not change: its transaction, the retry limit, whether the store rolls back,
      and the environment. */
  datatype Env = Env(tx: TxId, maxRetries: int, rollback: bool, o: Oracle)

  datatype World = World(tables: Tables, fx: Effects)

  datatype Err = NoError | Retriable | NonRetriable

  datatype Attempt = Attempt(world: World, err: Err)

  datatype Ran = Ran(world: World, ok: bool)

  function FreshId(env: Env, t: Tables): EventId {
    env.o.newEventId(|t.outbox|)
  }

  /** One attempt of a step: its row, the call, and the commit the outcome asks for. */
  function RunStepOnce(env: Env, w: World, snap: Snapshot, step: Step, attempt: nat): Attempt {
    var begun := BeginAttempt(w.tables, step, attempt);
    if !begun.ok then Attempt(w, NoError)
    else
      var t := begun.tables;
      var ex := Execute(env.o, w.fx, snap.saga.payload, step);
      match ex.outcome
      case Success(state, merge) =>
        var c := CommitSuccess(env.rollback, env.tx, t, snap, step, attempt, state, merge, FreshId(env, t));
        Attempt(World(c.tables, ex.fx), if c.ok then NoError else Retriable)
      case Parked(state, merge) =>
        var c := CommitParked(env.rollback, env.tx, t, snap, step, attempt, state, merge, FreshId(env, t));
        Attempt(World(c.tables, ex.fx), NoError)
      case Error(nonRetriable) =>
        Attempt(World(CommitFailed(t, step, attempt), ex.fx), if nonRetriable then NonRetriable else Retriable)
  }

  /** The retry loop from a given attempt on. A wait may be cut short after any failed attempt. */
  function RunStepWithRetry(env: Env, w: World, snap: Snapshot, step: Step, attempt: nat): Ran
    decreases env.maxRetries - attempt
  {
    if attempt > env.maxRetries then Ran(w, false)
    else
      var a := RunStepOnce(env, w, snap, step, attempt);
      match a.err
      case NoError => Ran(a.world, true)
      case NonRetriable => Ran(a.world, false)
      case Retriable =>
        var w' := a.world.(fx := a.world.fx.Tick());
        if env.o.givesUp(a.world.fx.clock) then Ran(w', false)
        else RunStepWithRetry(env, w', snap, step, attempt + 1)
  }

  /** The cascade's walk down the step order from position `i`, stopping at the first error. */
  function CompensateFrom(env: Env, w: World, sg: SagaRow, i: int): Ran
    requires i < |STEP_ORDER|
    decreases i
  {
    if i < 0 then Ran(w, true)
    else
      var step := STEP_ORDER[i];
      var t := MarkRow(w.tables, step, StepCompensating);
      var u := Compensate(env.o, w.fx, sg.payload, step);
      if !u.ok then Ran(World(MarkRow(t, step, StepFailed), u.fx), false)
      else CompensateFrom(env, World(MarkRow(t, step, StepCompensated), u.fx), sg, i - 1)
  }

  function CompensateCascade(env: Env, w: World, failedStep: Step): Ran {
    var sg, txn := w.tables.saga, w.tables.txn;
    var r := CompensateFrom(env, w, sg, Position(failedStep));
    var t := r.world.tables;
    Ran(World(CommitCascade(env.tx, t, sg, txn, CascadeTarget(r.ok), FreshId(env, t)), r.world.fx), r.ok)
  }

  datatype Polled = Polled(fx: Effects, confirmed: bool)

  /** Asks for the status, and again up to `left` more times until it is confirmed. */
  function Poll(o: Oracle, fx: Effects, left: nat): Polled
    decreases left
  {
    var fx' := AskStatus(fx, o.confirmed(fx.clock));
    if o.confirmed(fx.clock) then Polled(fx', true)
    else if left == 0 then Polled(fx', false)
    else Poll(o, fx', left - 1)
  }

  /** Polls a broadcast saga and commits CONFIRMED; any error leaves it where it is. */
  function AdvanceToConfirmed(env: Env, w: World): World {
    var sg := w.tables.saga;
    if TextOf(sg.payload, TxHash) == "" then w
    else
      var p := Poll(env.o, w.fx, env.o.polls(w.fx.clock));
      if !p.confirmed then World(w.tables, p.fx)
      else
        World(CommitConfirmed(env.rollback, env.tx, w.tables, sg, w.tables.txn, FreshId(env, w.tables)).tables, p.fx)
  }

  datatype Verdict = Running | Finished | CompensationError

  datatype Progress = Progress(world: World, verdict: Verdict)

  /** One turn of Run's loop with the lease granted. */
  function Round(env: Env, w: World): Progress {
    if w.tables.saga.state.Terminal() then Progress(w, Finished)
    else
      var step := w.tables.saga.step;
      var r := RunStepWithRetry(env, w, Snapshot(w.tables.txn, w.tables.saga), step, 1);
      if !r.ok then
        var c := CompensateCascade(env, r.world, step);
        Progress(c.world, if c.ok then Finished else CompensationError)
      else if r.world.tables.saga.state.Terminal() then Progress(r.world, Finished)
      else if r.world.tables.saga.state == Broadcasted then Progress(AdvanceToConfirmed(env, r.world), Running)
      else Progress(r.world, Running)
  }

  /** Run, cut off after `n` turns of its loop. */
  function Run(env: Env, w: World, n: nat): Progress
    decreases n
  {
    if n == 0 then Progress(w, Running)
    else
      var p := Round(env, w);
      if p.verdict != Running then p else Run(env, p.world, n - 1)
  }
}
