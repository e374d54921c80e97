/** Single-flight runs cut by crashes. Every store transaction and every partner call is one
    action; a crash may come between any two of them and loses everything but the tables and what
    the partners have done. Run and the manual compensation may then be started again. */
module CrashMachine {
  import opened StateMachine
  import opened Dedup
  import opened Store
  import opened Partners
  import opened Steps
  import opened Commits
  import opened ExecutorSpec
  import opened Invariants

  /** What the process is about to do, with the rows it holds. */
  datatype Pc =
    | Idle
    | AtBegin(step: Step, attempt: nat, snap: Snapshot)
    | AtCall(step: Step, attempt: nat, snap: Snapshot)
    | AtCapture(attempt: nat, snap: Snapshot, authId: string)
    | AtVoid(attempt: nat, snap: Snapshot, authId: string, nonRetriable: bool)
    | AtCommit(step: Step, attempt: nat, snap: Snapshot, outcome: StepOutcome)
    | AtWait(step: Step, attempt: nat, snap: Snapshot)
    | AtPoll(sg: SagaRow, left: nat)
    | AtConfirm(sg: SagaRow, txn: TxRow)
    | AtCascade(sg: SagaRow, txn: TxRow, i: nat)
    | AtUndo(sg: SagaRow, txn: TxRow, i: nat)
    | AtMark(sg: SagaRow, txn: TxRow, i: nat, ok: bool)
    | AtPark(sg: SagaRow, txn: TxRow, ok: bool)

  /** How many captures, broadcasts and refunds that went through a crash has cut off from the
      commit that would have recorded them. */
  datatype Tally = Tally(captures: nat, broadcasts: nat, refunds: nat)

  /** The process, the durable world, the committed saga rows so far, the crashes so far and what
      they lost. */
  datatype Machine = Machine(pc: Pc, world: World, history: seq<SagaRow>, crashes: nat, lost: Tally)

  datatype Action = StartRun | StartCompensation | Go | Crash

  /** The top of Run's loop. */
  function Load(w: World): Pc {
    var t := w.tables;
    if t.saga.state.Terminal() then Idle else AtBegin(t.saga.step, 1, Snapshot(t.txn, t.saga))
  }

  /** After a step that returned no error. */
  function Settle(env: Env, w: World): Pc {
    var sg := w.tables.saga;
    if sg.state == Broadcasted && TextOf(sg.payload, TxHash) != "" then AtPoll(sg, env.o.polls(w.fx.clock))
    else Load(w)
  }

  function StartCascade(w: World, step: Step): Pc {
    AtCascade(w.tables.saga, w.tables.txn, Position(step))
  }

  datatype Next = Next(pc: Pc, world: World)

  /** Payment's calls are separate actions; every other step makes at most one. */
  function GoCall(env: Env, w: World, step: Step, attempt: nat, snap: Snapshot): Next {
    if step.Payment? then
      var fx := w.fx.(executed := w.fx.executed + [step]);
      var auth := env.o.authorize(fx.clock);
      var w' := w.(fx := Authorize(fx, auth));
      match auth
      case Ok(authId) => Next(AtCapture(attempt, snap, authId), w')
      case Transient => Next(AtCommit(step, attempt, snap, Error(false)), w')
      case Hard => Next(AtCommit(step, attempt, snap, Error(true)), w')
    else
      var ex := Execute(env.o, w.fx, snap.saga.payload, step);
      Next(AtCommit(step, attempt, snap, ex.outcome), w.(fx := ex.fx))
  }

  function GoCapture(env: Env, w: World, attempt: nat, snap: Snapshot, authId: string): Next {
    var cap := env.o.capture(w.fx.clock);
    var w' := w.(fx := Capture(w.fx, authId, cap));
    match cap
    case Ok(captureId) =>
      var merge: Payload := map[AuthId := Text(authId), CaptureId := Text(captureId)];
      Next(AtCommit(Payment, attempt, snap, Success(PaymentCaptured, merge)), w')
    case Transient => Next(AtVoid(attempt, snap, authId, false), w')
    case Hard => Next(AtVoid(attempt, snap, authId, true), w')
  }

  function GoCommit(env: Env, w: World, step: Step, attempt: nat, snap: Snapshot, outcome: StepOutcome): Next {
    var t := w.tables;
    match outcome
    case Success(state, merge) =>
      var c := CommitSuccess(env.rollback, env.tx, t, snap, step, attempt, state, merge, FreshId(env, t));
      var w' := w.(tables := c.tables);
      Next(if c.ok then Settle(env, w') else AtWait(step, attempt, snap), w')
    case Parked(state, merge) =>
      var c := CommitParked(env.rollback, env.tx, t, snap, step, attempt, state, merge, FreshId(env, t));
      var w' := w.(tables := c.tables);
      Next(Settle(env, w'), w')
    case Error(nonRetriable) =>
      var w' := w.(tables := CommitFailed(t, step, attempt));
      Next(if nonRetriable then StartCascade(w', step) else AtWait(step, attempt, snap), w')
  }

  function GoBegin(env: Env, w: World, step: Step, attempt: nat, snap: Snapshot): Next {
    if attempt > env.maxRetries then Next(StartCascade(w, step), w)
    else
      var begun := BeginAttempt(w.tables, step, attempt);
      if begun.ok then Next(AtCall(step, attempt, snap), w.(tables := begun.tables)) else Next(Settle(env, w), w)
  }

  function GoWait(env: Env, w: World, step: Step, attempt: nat, snap: Snapshot): Next {
    var w' := w.(fx := w.fx.Tick());
    Next(if env.o.givesUp(w.fx.clock) then StartCascade(w', step) else AtBegin(step, attempt + 1, snap), w')
  }

  function GoPoll(env: Env, w: World, sg: SagaRow, left: nat): Next {
    var w' := w.(fx := AskStatus(w.fx, env.o.confirmed(w.fx.clock)));
    if env.o.confirmed(w.fx.clock) then Next(AtConfirm(sg, w.tables.txn), w')
    else if left == 0 then Next(Load(w'), w')
    else Next(AtPoll(sg, left - 1), w')
  }

  function GoMark(w: World, sg: SagaRow, txn: TxRow, i: nat, ok: bool): Next
    requires i < |STEP_ORDER|
  {
    var w' := w.(tables := MarkRow(w.tables, STEP_ORDER[i], if ok then StepCompensated else StepFailed));
    Next(if !ok || i == 0 then AtPark(sg, txn, ok) else AtCascade(sg, txn, i - 1), w')
  }

  /** The process's next action. Positions in a cascade are always in range; see `Fitting`. */
  function GoNext(env: Env, pc: Pc, w: World): Next {
    match pc
    case Idle => Next(Idle, w)
    case AtBegin(step, attempt, snap) => GoBegin(env, w, step, attempt, snap)
    case AtCall(step, attempt, snap) => GoCall(env, w, step, attempt, snap)
    case AtCapture(attempt, snap, authId) => GoCapture(env, w, attempt, snap, authId)
    case AtVoid(attempt, snap, authId, nonRetriable) =>
      Next(AtCommit(Payment, attempt, snap, Error(nonRetriable)),
           w.(fx := Void(w.fx, authId, env.o.voidFails(w.fx.clock))))
    case AtCommit(step, attempt, snap, outcome) => GoCommit(env, w, step, attempt, snap, outcome)
    case AtWait(step, attempt, snap) => GoWait(env, w, step, attempt, snap)
    case AtPoll(sg, left) => GoPoll(env, w, sg, left)
    case AtConfirm(sg, txn) =>
      var w' := w.(tables := CommitConfirmed(env.rollback, env.tx, w.tables, sg, txn, FreshId(env, w.tables)).tables);
      Next(Load(w'), w')
    case AtCascade(sg, txn, i) =>
      if i >= |STEP_ORDER| then Next(Idle, w)
      else Next(AtUndo(sg, txn, i), w.(tables := MarkRow(w.tables, STEP_ORDER[i], StepCompensating)))
    case AtUndo(sg, txn, i) =>
      if i >= |STEP_ORDER| then Next(Idle, w)
      else
        var u := Compensate(env.o, w.fx, sg.payload, STEP_ORDER[i]);
        Next(AtMark(sg, txn, i, u.ok), w.(fx := u.fx))
    case AtMark(sg, txn, i, ok) =>
      if i >= |STEP_ORDER| then Next(Idle, w) else GoMark(w, sg, txn, i, ok)
    case AtPark(sg, txn, ok) =>
      Next(Idle, w.(tables := CommitCascade(env.tx, w.tables, sg, txn, CascadeTarget(ok), FreshId(env, w.tables))))
  }

  function Extended(history: seq<SagaRow>, was: SagaRow, now: SagaRow): seq<SagaRow> {
    if now == was then history else history + [now]
  }

  function One(b: bool): nat {
    if b then 1 else 0
  }

  predicate AboutToRecord(pc: Pc, step: Step) {
    pc.AtCommit? && pc.step == step && pc.outcome.Success?
  }

  /** The cascade is past the payment step and its refund, if any, went through. */
  predicate PastRefund(pc: Pc) {
    match pc
    case AtCascade(_, _, i) => i < Position(Payment)
    case AtUndo(_, _, i) => i < Position(Payment)
    case AtMark(_, _, i, ok) => i < Position(Payment) || (i == Position(Payment) && ok)
    case AtPark(_, _, ok) => ok
    case _ => false
  }

  /** Whether the saga records a capture that a refund can give back. */
  predicate CanRefund(sg: SagaRow) {
    TextOf(sg.payload, CaptureId) != ""
  }

  /** Whether a crash now cuts a call that went through off from its commit. */
  function LostBy(pc: Pc, sg: SagaRow, lost: Tally): Tally {
    Tally(lost.captures + One(AboutToRecord(pc, Payment)),
         lost.broadcasts + One(AboutToRecord(pc, Broadcast)),
         lost.refunds + One(PastRefund(pc) && CanRefund(sg)))
  }

  function Act(env: Env, m: Machine, a: Action): Machine {
    match a
    case StartRun => if m.pc.Idle? then m.(pc := Load(m.world)) else m
    case StartCompensation =>
      if m.pc.Idle? && !m.world.tables.saga.state.Terminal() then
        m.(pc := StartCascade(m.world, m.world.tables.saga.step))
      else m
    case Crash => m.(pc := Idle, crashes := m.crashes + 1, lost := LostBy(m.pc, m.world.tables.saga, m.lost))
    case Go =>
      var n := GoNext(env, m.pc, m.world);
      Machine(n.pc, n.world, Extended(m.history, m.world.tables.saga, n.world.tables.saga), m.crashes, m.lost)
  }

  function Exec(env: Env, m: Machine, actions: seq<Action>): Machine
    decreases |actions|
  {
    if actions == [] then m else Exec(env, Act(env, m, actions[0]), actions[1..])
  }

  predicate Holds(t: Tables, snap: Snapshot) {
    snap == Snapshot(t.txn, t.saga) && !t.saga.state.Terminal()
  }

  ghost predicate OutcomeFits(step: Step, outcome: StepOutcome) {
    match outcome
    case Success(state, merge) => state == StateForStep(step) && Fits(step, merge)
    case Parked(state, merge) =>
      && ((step == Policy && state == FailedCompensated) || (step == Ledger && state == Failed))
      && CaptureId !in merge && TxHash !in merge && SignedTxHex !in merge
    case Error(_) => true
  }

  /** The rows the process holds are the committed ones, and an outcome it holds is one the
      current step can have. */
  ghost predicate Fitting(pc: Pc, t: Tables) {
    match pc
    case Idle => true
    case AtBegin(step, _, snap) => Holds(t, snap) && step == t.saga.step
    case AtCall(step, attempt, snap) => Holds(t, snap) && step == t.saga.step && RowKey(step, attempt) in t.rows
    case AtCapture(attempt, snap, _) =>
      Holds(t, snap) && t.saga.step == Payment && RowKey(Payment, attempt) in t.rows
    case AtVoid(attempt, snap, _, _) =>
      Holds(t, snap) && t.saga.step == Payment && RowKey(Payment, attempt) in t.rows
    case AtCommit(step, attempt, snap, outcome) =>
      && Holds(t, snap) && step == t.saga.step && RowKey(step, attempt) in t.rows
      && OutcomeFits(step, outcome)
    case AtWait(step, _, snap) => Holds(t, snap) && step == t.saga.step
    case AtPoll(sg, _) => sg == t.saga && sg.state == Broadcasted
    case AtConfirm(sg, txn) => sg == t.saga && txn == t.txn && sg.state == Broadcasted
    case AtCascade(sg, txn, i) => Holds(t, Snapshot(txn, sg)) && i <= Position(sg.step)
    case AtUndo(sg, txn, i) => Holds(t, Snapshot(txn, sg)) && i <= Position(sg.step)
    case AtMark(sg, txn, i, ok) =>
      Holds(t, Snapshot(txn, sg)) && i <= Position(sg.step) && (ok || i == Position(Payment))
    case AtPark(sg, txn, _) => Holds(t, Snapshot(txn, sg))
  }

  /** Every capture, broadcast and refund that went through is recorded, about to be, or lost. */
  predicate Counted(pc: Pc, w: World, lost: Tally) {
    var sg := w.tables.saga;
    && |w.fx.captures| == lost.captures + One(CaptureId in sg.payload) + One(AboutToRecord(pc, Payment))
    && |w.fx.broadcasts| == lost.broadcasts + One(TxHash in sg.payload) + One(AboutToRecord(pc, Broadcast))
    && |w.fx.refunds| == lost.refunds + One(CanRefund(sg) && (sg.state.FailedCompensated? || PastRefund(pc)))
  }

  /** Each committed row follows from the one before it by one legal hop, with the next version
      and every payload entry kept. */
  ghost predicate LegalPath(history: seq<SagaRow>) {
    forall i :: 0 < i < |history| ==>
      && CommittedHop(history[i - 1].state, history[i].state)
      && history[i].version == history[i - 1].version + 1
      && history[i - 1].payload.Keys <= history[i].payload.Keys
  }

  /** Nothing has SUCCEEDED at the current step or beyond, but for the refused commits of the
      ledger step on a store that does not roll back. */
  ghost predicate NothingAhead(env: Env, t: Tables) {
    env.rollback || t.saga.step != Ledger ==> NothingDone(t, 1)
  }

  ghost predicate Sound(env: Env, m: Machine) {
    && Core(env.tx, m.world.tables)
    && Fitting(m.pc, m.world.tables)
    && Counted(m.pc, m.world, m.lost)
    && m.lost.captures <= m.crashes && m.lost.broadcasts <= m.crashes && m.lost.refunds <= m.crashes
    && NothingAhead(env, m.world.tables)
    && |m.history| > 0 && m.history[|m.history| - 1] == m.world.tables.saga
    && LegalPath(m.history)
  }

  /** The tables moved by one commit or kept their shared part. */
  ghost predicate OneCommit(tx: TxId, a: Tables, b: Tables) {
    SameShared(a, b) || Committed(tx, a, b)
  }
}
