/** What every commit writes, value by value, and that the outbox tells the saga's history. */
module CommitRecords {
  import opened Options
  import opened StateMachine
  import opened Dedup
  import opened Store
  import opened Partners
  import opened Steps
  import opened Commits
  import opened ExecutorSpec
  import opened Invariants
  import opened RunTheorems
  import opened CrashMachine
  import opened CrashTheorems
  import opened Simulation
  import O = Outbox

  /** The step and event names as other services read them. */
  function SpelledStep(s: Step): string {
    match s
    case Policy => "POLICY"
    case Payment => "PAYMENT"
    case Kyt => "KYT"
    case MpcSign => "MPC_SIGN"
    case Broadcast => "BROADCAST"
    case Ledger => "LEDGER"
  }

  function SpelledEvent(e: EventType): string {
    match e
    case TxCreated => "transaction.created"
    case TxConfirmed => "transaction.confirmed"
    case StepDone(Policy) => "step.POLICY.succeeded"
    case StepDone(Payment) => "step.PAYMENT.succeeded"
    case StepDone(Kyt) => "step.KYT.succeeded"
    case StepDone(MpcSign) => "step.MPC_SIGN.succeeded"
    case StepDone(Broadcast) => "step.BROADCAST.succeeded"
    case StepDone(Ledger) => "step.LEDGER.succeeded"
    case TxEnded(Failed) => "transaction.FAILED"
    case TxEnded(FailedCompensated) => "transaction.FAILED_COMPENSATED"
    case TxEnded(_) => EventName(e)
  }

  lemma EarlyStepSpelled(step: Step)
    requires Position(step) < 3
    ensures EventName(StepDone(step)) == SpelledEvent(StepDone(step))
  {
    match step
    case Policy => assert "step." + "POLICY" + ".succeeded" == "step.POLICY.succeeded";
    case Payment => assert "step." + "PAYMENT" + ".succeeded" == "step.PAYMENT.succeeded";
    case Kyt => assert "step." + "KYT" + ".succeeded" == "step.KYT.succeeded";
  }

  lemma LateStepSpelled(step: Step)
    requires Position(step) >= 3
    ensures EventName(StepDone(step)) == SpelledEvent(StepDone(step))
  {
    match step
    case MpcSign => assert "step." + "MPC_SIGN" + ".succeeded" == "step.MPC_SIGN.succeeded";
    case Broadcast => assert "step." + "BROADCAST" + ".succeeded" == "step.BROADCAST.succeeded";
    case Ledger => assert "step." + "LEDGER" + ".succeeded" == "step.LEDGER.succeeded";
  }

  lemma StepSpelled(step: Step)
    ensures StepName(step) == SpelledStep(step) && EventName(StepDone(step)) == SpelledEvent(StepDone(step))
  {
    hide EventName, SpelledEvent;
    if Position(step) < 3 {
      EarlyStepSpelled(step);
    } else {
      LateStepSpelled(step);
    }
  }

  lemma NameSpelled(e: EventType)
    requires e.TxEnded? ==> e.state.IsFailure()
    ensures EventName(e) == SpelledEvent(e)
  {
    match e
    case StepDone(step) => StepSpelled(step);
    case TxEnded(Failed) => assert "transaction." + "FAILED" == "transaction.FAILED";
    case TxEnded(FailedCompensated) => assert "transaction." + "FAILED_COMPENSATED" == "transaction.FAILED_COMPENSATED";
    case _ =>
  }

  /** Attempt numbers are written in decimal. */
  lemma DecimalSpelled(n: nat, d: nat)
    requires d < 10
    ensures Decimal(d) == ["0123456789"[d]]
    ensures n > 0 ==> Decimal(10 * n + d) == Decimal(n) + ["0123456789"[d]]
  {
  }

  /** A stored event, told from the values its commit had in hand. */
  predicate Spells(e: OutboxEvent, id: EventId, tx: TxId, what: EventType, step: Option<Step>, attempt: nat) {
    && e.eventId == id && e.txId == tx && e.status == OutboxPending
    && e.eventType == what && e.step == step && e.attempt == attempt
    && var name := if step.Some? then SpelledStep(step.value) else "";
       e.dedupKey == tx + "|" + SpelledEvent(what) + "|" + name + "|" + Decimal(attempt)
  }

  lemma NewEventSpells(id: EventId, tx: TxId, what: EventType, step: Option<Step>, attempt: nat)
    requires what.TxEnded? ==> what.state.IsFailure()
    ensures Spells(NewEvent(id, tx, what, step, attempt), id, tx, what, step, attempt)
  {
    NameSpelled(what);
    if step.Some? {
      StepSpelled(step.value);
    }
    hide EventName, SpelledEvent, SpelledStep, StepName, Decimal;
  }

  lemma Appended(a: Tables, b: Tables, e: OutboxEvent)
    requires |b.outbox| == |a.outbox| + 1
    requires b.outbox == a.outbox || b.outbox == a.outbox + [e]
    ensures b.outbox == a.outbox + [e]
  {
  }

  lemma SuccessAppends(rollback: bool, tx: TxId, t: Tables, step: Step, attempt: nat, merge: Payload, id: EventId)
    ensures var snap, state := Snapshot(t.txn, t.saga), StateForStep(step);
            var w := CommitSuccess(rollback, tx, t, snap, step, attempt, state, merge, id);
            w.tables.outbox == t.outbox || w.tables.outbox == t.outbox + [StepDoneEvent(id, tx, step, attempt)]
  {
    hide KeyTaken, NewEvent, ValidPath, NextSaga;
  }

  /** What a success commit writes: the next step and state, the payload with the step's entries over
      it, the next versions, the attempt's row, and the step's own event. */
  lemma SuccessWrites(rollback: bool, tx: TxId, t: Tables, step: Step, attempt: nat, merge: Payload, id: EventId)
    requires Core(tx, t) && StepFrom(t.saga.state) == Some(step) && t.saga.state != Broadcasted
    requires RowKey(step, attempt) in t.rows && Fits(step, merge)
    ensures var snap, state := Snapshot(t.txn, t.saga), StateForStep(step);
            var w := CommitSuccess(rollback, tx, t, snap, step, attempt, state, merge, id);
            var now := if step == Ledger then Completed else state;
            var next := if step == Ledger then Ledger else STEP_ORDER[Position(step) + 1];
            && w.ok && w.tables.saga == SagaRow(next, now, t.saga.payload + merge, t.saga.version + 1)
            && w.tables.txn == TxRow(now, t.txn.version + 1)
            && w.tables.rows == t.rows[RowKey(step, attempt) := StepSucceeded]
            && |w.tables.outbox| == |t.outbox| + 1 && w.tables.outbox[..|t.outbox|] == t.outbox
            && Spells(w.tables.outbox[|t.outbox|], id, tx, StepDone(step), Some(step), attempt)
  {
    CommitSuccessExact(rollback, tx, t, step, attempt, merge, id);
    NewEventSpells(id, tx, StepDone(step), Some(step), attempt);
    SuccessAppends(rollback, tx, t, step, attempt, merge, id);
    var w := CommitSuccess(rollback, tx, t, Snapshot(t.txn, t.saga), step, attempt, StateForStep(step), merge, id);
    hide Core, CommitSuccess, Spells, NewEvent, Fits;
    Appended(t, w.tables, StepDoneEvent(id, tx, step, attempt));
  }

  lemma ParkedAppends(rollback: bool, tx: TxId, t: Tables, step: Step, attempt: nat, state: State, merge: Payload,
                      id: EventId)
    ensures var w := CommitParked(rollback, tx, t, Snapshot(t.txn, t.saga), step, attempt, state, merge, id);
            || w.tables.outbox == t.outbox
            || w.tables.outbox == t.outbox + [NewEvent(id, tx, TxEnded(state), Some(step), attempt)]
  {
    hide KeyTaken, NewEvent, Transition;
  }

  /** What a parking writes: the failure state over the same step, the payload with the step's entries,
      the next versions, the attempt's row FAILED, and an event that names the step and attempt. */
  lemma ParkedWrites(rollback: bool, tx: TxId, t: Tables, step: Step, attempt: nat, state: State, merge: Payload,
                     id: EventId)
    requires Core(tx, t) && !t.saga.state.Terminal() && state.IsFailure() && RowKey(step, attempt) in t.rows
    ensures var w := CommitParked(rollback, tx, t, Snapshot(t.txn, t.saga), step, attempt, state, merge, id);
            && w.ok && w.tables.saga == SagaRow(t.saga.step, state, t.saga.payload + merge, t.saga.version + 1)
            && w.tables.txn == TxRow(state, t.txn.version + 1)
            && w.tables.rows == t.rows[RowKey(step, attempt) := StepFailed]
            && |w.tables.outbox| == |t.outbox| + 1 && w.tables.outbox[..|t.outbox|] == t.outbox
            && Spells(w.tables.outbox[|t.outbox|], id, tx, TxEnded(state), Some(step), attempt)
  {
    CommitParkedExact(rollback, tx, t, step, attempt, state, merge, id);
    NewEventSpells(id, tx, TxEnded(state), Some(step), attempt);
    ParkedAppends(rollback, tx, t, step, attempt, state, merge, id);
    var w := CommitParked(rollback, tx, t, Snapshot(t.txn, t.saga), step, attempt, state, merge, id);
    hide Core, CommitParked, Spells, NewEvent;
    Appended(t, w.tables, NewEvent(id, tx, TxEnded(state), Some(step), attempt));
  }

  lemma ConfirmedAppends(rollback: bool, tx: TxId, t: Tables, id: EventId)
    ensures var w := CommitConfirmed(rollback, tx, t, t.saga, t.txn, id);
            w.tables.outbox == t.outbox || w.tables.outbox == t.outbox + [NewEvent(id, tx, TxConfirmed, None, 0)]
  {
    hide KeyTaken, NewEvent, Transition;
  }

  /** What a confirmation writes: CONFIRMED before the ledger step, nothing else of the saga, and its
      event. */
  lemma ConfirmedWrites(rollback: bool, tx: TxId, t: Tables, id: EventId)
    requires Core(tx, t) && t.saga.state == Broadcasted
    ensures var w := CommitConfirmed(rollback, tx, t, t.saga, t.txn, id);
            && w.ok && w.tables.saga == SagaRow(Ledger, Confirmed, t.saga.payload, t.saga.version + 1)
            && w.tables.txn == TxRow(Confirmed, t.txn.version + 1) && w.tables.rows == t.rows
            && |w.tables.outbox| == |t.outbox| + 1 && w.tables.outbox[..|t.outbox|] == t.outbox
            && Spells(w.tables.outbox[|t.outbox|], id, tx, TxConfirmed, None, 0)
  {
    CommitConfirmedExact(rollback, tx, t, id);
    NewEventSpells(id, tx, TxConfirmed, None, 0);
    ConfirmedAppends(rollback, tx, t, id);
    hide Core, CommitConfirmed, Spells, NewEvent;
    Appended(t, CommitConfirmed(rollback, tx, t, t.saga, t.txn, id).tables, NewEvent(id, tx, TxConfirmed, None, 0));
  }

  lemma CascadeAppends(tx: TxId, t: Tables, target: State, id: EventId)
    ensures var t' := CommitCascade(tx, t, t.saga, t.txn, target, id);
            t'.outbox == t.outbox || t'.outbox == t.outbox + [NewEvent(id, tx, TxEnded(target), None, 0)]
  {
    hide KeyTaken, NewEvent;
  }

  /** What the end of a cascade writes: its target over the same step and payload, and its event. */
  lemma CascadeWrites(tx: TxId, t: Tables, target: State, id: EventId)
    requires Core(tx, t) && !t.saga.state.Terminal() && target.IsFailure()
    ensures var t' := CommitCascade(tx, t, t.saga, t.txn, target, id);
            && t'.saga == SagaRow(t.saga.step, target, t.saga.payload, t.saga.version + 1)
            && t'.txn == TxRow(target, t.txn.version + 1) && t'.rows == t.rows
            && |t'.outbox| == |t.outbox| + 1 && t'.outbox[..|t.outbox|] == t.outbox
            && Spells(t'.outbox[|t.outbox|], id, tx, TxEnded(target), None, 0)
  {
    CommitCascadeExact(tx, t, target, id);
    NewEventSpells(id, tx, TxEnded(target), None, 0);
    CascadeAppends(tx, t, target, id);
    hide Core, CommitCascade, Spells, NewEvent;
    Appended(t, CommitCascade(tx, t, t.saga, t.txn, target, id), NewEvent(id, tx, TxEnded(target), None, 0));
  }

  /** The row of an attempt: RUNNING while its partner is asked, FAILED after an error. */
  lemma AttemptRows(t: Tables, step: Step, attempt: nat)
    requires !Succeeded(t, step, attempt)
    ensures BeginAttempt(t, step, attempt) == Write(t.(rows := t.rows[RowKey(step, attempt) := StepRunning]), true)
    ensures RowKey(step, attempt) in t.rows ==>
              CommitFailed(t, step, attempt) == t.(rows := t.rows[RowKey(step, attempt) := StepFailed])
  {
  }

  /** The event of one committed hop: a confirmation, a failure with or without the step and attempt
      that parked it, or the step that was done and at which attempt. */
  predicate Tells(e: OutboxEvent, id: EventId, tx: TxId, was: SagaRow, now: SagaRow, maxRetries: int) {
    if now.state == Confirmed then Spells(e, id, tx, TxConfirmed, None, 0)
    else if now.state.IsFailure() then
      || Spells(e, id, tx, TxEnded(now.state), None, 0)
      || (1 <= e.attempt <= maxRetries && Spells(e, id, tx, TxEnded(now.state), Some(was.step), e.attempt))
    else 1 <= e.attempt <= maxRetries && Spells(e, id, tx, StepDone(was.step), Some(was.step), e.attempt)
  }

  predicate AttemptFits(pc: Pc, maxRetries: int) {
    match pc
    case AtBegin(_, attempt, _) => 1 <= attempt
    case AtCall(_, attempt, _) => 1 <= attempt <= maxRetries
    case AtCapture(attempt, _, _) => 1 <= attempt <= maxRetries
    case AtVoid(attempt, _, _, _) => 1 <= attempt <= maxRetries
    case AtCommit(_, attempt, _, _) => 1 <= attempt <= maxRetries
    case AtWait(_, attempt, _) => 1 <= attempt <= maxRetries
    case _ => true
  }

  lemma GoAttempts(env: Env, pc: Pc, w: World)
    requires AttemptFits(pc, env.maxRetries)
    ensures AttemptFits(GoNext(env, pc, w).pc, env.maxRetries)
  {
    hide CommitSuccess, CommitParked, CommitConfirmed, CommitCascade, BeginAttempt, UpdateStep, Execute, Compensate;
  }

  /** One action appends the event of the hop it commits, or nothing. */
  predicate OneTold(env: Env, a: Tables, b: Tables) {
    if b.saga == a.saga then b.outbox == a.outbox
    else
      && |b.outbox| == |a.outbox| + 1 && b.outbox[..|a.outbox|] == a.outbox
      && Tells(b.outbox[|a.outbox|], FreshId(env, a), env.tx, a.saga, b.saga, env.maxRetries)
  }

  lemma SpelledAttempt(e: OutboxEvent, id: EventId, tx: TxId, what: EventType, step: Option<Step>, attempt: nat)
    requires Spells(e, id, tx, what, step, attempt)
    ensures e.attempt == attempt
  {
  }

  lemma StepDoneState(step: Step)
    ensures StateForStep(step) != Confirmed && !StateForStep(step).IsFailure()
  {
  }

  lemma CommitTells(env: Env, pc: Pc, w: World, lost: Tally)
    requires pc.AtCommit? && SoundAt(env, pc, w, lost) && AttemptFits(pc, env.maxRetries)
    ensures OneTold(env, w.tables, GoNext(env, pc, w).world.tables)
  {
    hide Core, Counted, NothingDone, Committed, CommitSuccess, CommitParked, Fits, Settle, Spells;
    var t, id := w.tables, FreshId(env, w.tables);
    StepOfState(env.tx, t);
    match pc.outcome
    case Success(_, merge) =>
      if t.saga.state == Broadcasted {
        CommitSuccessExact(env.rollback, env.tx, t, pc.step, pc.attempt, merge, id);
      } else {
        SuccessWrites(env.rollback, env.tx, t, pc.step, pc.attempt, merge, id);
        StepDoneState(pc.step);
        var w' := CommitSuccess(env.rollback, env.tx, t, pc.snap, pc.step, pc.attempt, StateForStep(pc.step), merge,
          id);
        SpelledAttempt(w'.tables.outbox[|t.outbox|], id, env.tx, StepDone(pc.step), Some(pc.step), pc.attempt);
      }
    case Parked(state, merge) =>
      ParkedWrites(env.rollback, env.tx, t, pc.step, pc.attempt, state, merge, id);
      var w' := CommitParked(env.rollback, env.tx, t, pc.snap, pc.step, pc.attempt, state, merge, id);
      SpelledAttempt(w'.tables.outbox[|t.outbox|], id, env.tx, TxEnded(state), Some(pc.step), pc.attempt);
    case Error(_) => FailedMarks(t, pc.step, pc.attempt);
  }

  lemma OtherTells(env: Env, pc: Pc, w: World, lost: Tally)
    requires (pc.AtConfirm? || pc.AtPark?) && SoundAt(env, pc, w, lost)
    ensures OneTold(env, w.tables, GoNext(env, pc, w).world.tables)
  {
    hide Core, Counted, NothingDone, Committed, CommitConfirmed, CommitCascade, Spells, Load;
    if pc.AtConfirm? {
      ConfirmedWrites(env.rollback, env.tx, w.tables, FreshId(env, w.tables));
    } else {
      CascadeWrites(env.tx, w.tables, CascadeTarget(pc.ok), FreshId(env, w.tables));
    }
  }

  lemma RestTells(env: Env, pc: Pc, w: World)
    requires !pc.AtCommit? && !pc.AtConfirm? && !pc.AtPark?
    ensures var t' := GoNext(env, pc, w).world.tables; t'.saga == w.tables.saga && t'.outbox == w.tables.outbox
  {
    hide Execute, Compensate;
  }

  lemma GoTells(env: Env, pc: Pc, w: World, lost: Tally)
    requires SoundAt(env, pc, w, lost) && AttemptFits(pc, env.maxRetries)
    ensures OneTold(env, w.tables, GoNext(env, pc, w).world.tables)
  {
    hide SoundAt, GoNext, Tells;
    if pc.AtCommit? {
      CommitTells(env, pc, w, lost);
    } else if pc.AtConfirm? || pc.AtPark? {
      OtherTells(env, pc, w, lost);
    } else {
      RestTells(env, pc, w);
    }
  }

  /** From position `base` on, the outbox tells the history: one event for every hop, in order. */
  ghost predicate Told(env: Env, outbox: seq<OutboxEvent>, history: seq<SagaRow>, base: nat) {
    && |history| > 0 && |outbox| == base + |history| - 1
    && forall i :: 0 < i < |history| ==>
         Tells(outbox[base + i - 1], env.o.newEventId(base + i - 1), env.tx, history[i - 1], history[i], env.maxRetries)
  }

  lemma ToldOn(env: Env, m: Machine, m': Machine, base: nat)
    requires Told(env, m.world.tables.outbox, m.history, base)
    requires m.history[|m.history| - 1] == m.world.tables.saga
    requires m'.history == Extended(m.history, m.world.tables.saga, m'.world.tables.saga)
    requires OneTold(env, m.world.tables, m'.world.tables)
    ensures Told(env, m'.world.tables.outbox, m'.history, base) && m.world.tables.outbox <= m'.world.tables.outbox
  {
    hide Tells;
    var a, b := m.world.tables.outbox, m'.world.tables.outbox;
    if m'.world.tables.saga != m.world.tables.saga {
      assert forall i :: 0 <= i < |a| ==> b[i] == b[..|a|][i];
    }
  }

  lemma ActTells(env: Env, m: Machine, a: Action, base: nat)
    requires Sound(env, m) && AttemptFits(m.pc, env.maxRetries)
    requires Told(env, m.world.tables.outbox, m.history, base)
    ensures var m' := Act(env, m, a);
            && AttemptFits(m'.pc, env.maxRetries) && Told(env, m'.world.tables.outbox, m'.history, base)
            && m.world.tables.outbox <= m'.world.tables.outbox
  {
    hide Core, Fitting, Counted, NothingDone, LegalPath, GoNext, Told, OneTold;
    if a == Go {
      GoAttempts(env, m.pc, m.world);
      GoTells(env, m.pc, m.world, m.lost);
      ToldOn(env, m, Act(env, m, Go), base);
    }
  }

  lemma {:induction false} ExecTells(env: Env, m: Machine, actions: seq<Action>, base: nat)
    requires Sound(env, m) && AttemptFits(m.pc, env.maxRetries)
    requires Told(env, m.world.tables.outbox, m.history, base)
    ensures var m' := Exec(env, m, actions);
            Told(env, m'.world.tables.outbox, m'.history, base) && m.world.tables.outbox <= m'.world.tables.outbox
    decreases |actions|
  {
    hide Sound, Act, Told, AttemptFits;
    if actions != [] {
      ActKeepsSound(env, m, actions[0]);
      ActTells(env, m, actions[0], base);
      ExecTells(env, Act(env, m, actions[0]), actions[1..], base);
    }
  }

  /** The outbox tells the saga's history. Over any runs, compensations and crashes of a new purchase
      the events appended are, one for every committed hop and in the same order, the event of that
      hop: the right type, the step and attempt that committed it, the fresh id, and the key written
      over them. */
  lemma OutboxTellsHistory(env: Env, m: Machine, actions: seq<Action>)
    requires Fresh(env, m) && Ready(env.tx, m.world.tables)
    ensures var m' := Exec(env, m, actions);
            && m.world.tables.outbox <= m'.world.tables.outbox
            && Told(env, m'.world.tables.outbox, m'.history, |m.world.tables.outbox|)
  {
    FreshIsSound(env, m);
    hide Sound;
    ExecTells(env, m, actions, |m.world.tables.outbox|);
  }

  ghost predicate FreshIds(o: Oracle) {
    forall i: nat, j: nat :: i < j ==> o.newEventId(i) != o.newEventId(j)
  }

  predicate Numbered(o: Oracle, outbox: seq<OutboxEvent>) {
    forall i :: 0 <= i < |outbox| ==> outbox[i].eventId == o.newEventId(i)
  }

  lemma ToldId(env: Env, outbox: seq<OutboxEvent>, history: seq<SagaRow>, base: nat, i: nat)
    requires Told(env, outbox, history, base) && base <= i < |outbox|
    ensures outbox[i].eventId == env.o.newEventId(i)
  {
    var k := i - base + 1;
    assert base + k - 1 == i;
    assert Tells(outbox[base + k - 1], env.o.newEventId(base + k - 1), env.tx, history[k - 1], history[k],
                 env.maxRetries);
  }

  lemma ToldNumbered(env: Env, outbox: seq<OutboxEvent>, history: seq<SagaRow>, base: nat)
    requires Told(env, outbox, history, base) && base <= |outbox| && Numbered(env.o, outbox[..base])
    ensures Numbered(env.o, outbox)
  {
    hide Told;
    forall i | 0 <= i < |outbox| ensures outbox[i].eventId == env.o.newEventId(i) {
      if i < base {
        assert outbox[i] == outbox[..base][i];
      } else {
        ToldId(env, outbox, history, base, i);
      }
    }
  }

  lemma NumberedDistinct(o: Oracle, outbox: seq<OutboxEvent>)
    requires FreshIds(o) && Numbered(o, outbox)
    ensures O.IdsDistinct(outbox)
  {
  }

  /** The ids of a run's events stay distinct if fresh ids are: what the relay relies on. */
  lemma IdsStayDistinct(env: Env, m: Machine, actions: seq<Action>)
    requires Fresh(env, m) && Ready(env.tx, m.world.tables)
    requires FreshIds(env.o) && Numbered(env.o, m.world.tables.outbox)
    ensures O.IdsDistinct(Exec(env, m, actions).world.tables.outbox)
  {
    hide Exec, Ready, Told, Numbered, FreshIds, O.IdsDistinct;
    OutboxTellsHistory(env, m, actions);
    var base, outbox := m.world.tables.outbox, Exec(env, m, actions).world.tables.outbox;
    assert outbox[..|base|] == base;
    ToldNumbered(env, outbox, Exec(env, m, actions).history, |base|);
    NumberedDistinct(env.o, outbox);
  }

  /** Drains publish an outbox from its first event on, batch by batch and in order. */
  predicate DrainsFromStart(outbox: seq<OutboxEvent>, limit: nat, times: nat) {
    var d, k := O.Drains(outbox, limit, times), O.Least(|outbox|, times * limit);
    && d.accepted == O.WithStatus(outbox[..k], OutboxInflight)
    && (O.FirstPending(d.outbox) == |d.outbox| <==> times * limit >= |outbox|)
  }

  predicate Untouched(outbox: seq<OutboxEvent>) {
    forall i :: 0 <= i < |outbox| ==> outbox[i].status.OutboxPending?
  }

  lemma UntouchedDrains(outbox: seq<OutboxEvent>, limit: nat, times: nat)
    requires O.IdsDistinct(outbox) && Untouched(outbox) && limit >= 1
    ensures DrainsFromStart(outbox, limit, times)
  {
    hide O.IdsDistinct, O.WithStatus, O.Drains;
    O.FirstPendingIs(outbox, 0);
    O.DrainsProgress(outbox, limit, times);
    var k := O.Least(|outbox|, times * limit);
    assert outbox[0..0 + k] == outbox[..k];
  }

  lemma ToldPending(env: Env, outbox: seq<OutboxEvent>, history: seq<SagaRow>, base: nat, i: nat)
    requires Told(env, outbox, history, base) && base <= i < |outbox|
    ensures outbox[i].status.OutboxPending?
  {
    var k := i - base + 1;
    assert base + k - 1 == i;
    assert Tells(outbox[base + k - 1], env.o.newEventId(base + k - 1), env.tx, history[k - 1], history[k],
                 env.maxRetries);
  }

  lemma AllPending(env: Env, outbox: seq<OutboxEvent>, history: seq<SagaRow>, base: nat)
    requires Told(env, outbox, history, base)
    requires base <= |outbox| && Untouched(outbox[..base])
    ensures Untouched(outbox)
  {
    hide Told;
    forall i | 0 <= i < |outbox| ensures outbox[i].status.OutboxPending? {
      if i < base {
        assert outbox[i] == outbox[..base][i];
      } else {
        ToldPending(env, outbox, history, base, i);
      }
    }
  }

  /** A run appends PENDING events only, so a relay that finds the outbox untouched finds it fit for
      its drains. */
  lemma RunFeedsRelay(env: Env, w: World, n: nat, limit: nat, times: nat)
    requires Ready(env.tx, w.tables) && w.tables.saga.state == Created && w.fx == NO_EFFECTS
    requires n >= |STEP_ORDER| && limit >= 1
    requires FreshIds(env.o) && Numbered(env.o, w.tables.outbox) && Untouched(w.tables.outbox)
    ensures var outbox := Run(env, w, n).world.tables.outbox;
            && w.tables.outbox <= outbox && Untouched(outbox) && O.IdsDistinct(outbox)
            && DrainsFromStart(outbox, limit, times)
  {
    hide Ready, Run, Exec, Told, DrainsFromStart, O.IdsDistinct, FreshIds, Numbered;
    var m := Machine(Idle, w, [w.tables.saga], 0, Tally(0, 0, 0));
    RunHalts(env, w, n);
    RunIsMachineRun(env, m, n);
    var k: nat :| var m' := Exec(env, m, [StartRun] + Goes(k));
                  m'.pc == Idle && m'.world == Run(env, m.world, n).world;
    var m' := Exec(env, m, [StartRun] + Goes(k));
    OutboxTellsHistory(env, m, [StartRun] + Goes(k));
    IdsStayDistinct(env, m, [StartRun] + Goes(k));
    AllPending(env, m'.world.tables.outbox, m'.history, |w.tables.outbox|);
    UntouchedDrains(m'.world.tables.outbox, limit, times);
  }
}
