/** What holds of a transaction's rows whenever no store transaction is open, and that every
    commit of the executor keeps it. */
module Invariants {
  import opened Options
  import opened StateMachine
  import opened Dedup
  import opened Store
  import opened Partners
  import opened Steps
  import opened Commits

  /** The rank of the state at which a payload entry is written. */
  function KeyRank(k: PayloadKey): Option<nat> {
    match k
    case PolicyReason => Some(1)
    case AuthId => Some(2)
    case CaptureId => Some(2)
    case KytReason => Some(3)
    case SignedTxHex => Some(4)
    case TxHash => Some(5)
    case LedgerJournalId => Some(8)
    case _ => None
  }

  /** The state decides the current step and exactly which payload entries are present. */
  predicate Shape(sg: SagaRow) {
    && sg.state != Ledgered
    && (!sg.state.Terminal() ==> StepFrom(sg.state) == Some(sg.step))
    && (sg.state == Completed ==> sg.step == Ledger)
    && (!sg.state.IsFailure() ==>
          forall k :: KeyRank(k).Some? ==> (k in sg.payload <==> KeyRank(k).value <= Rank(sg.state)))
  }

  /** Saga row, transaction row and outbox agree on the state and on how often it changed. */
  predicate Lockstep(tx: TxId, t: Tables) {
    && t.txn.status == t.saga.state
    && t.txn.version == t.saga.version == EventCount(t.outbox, tx)
  }

  /** The rank a saga has reached when an event is appended. */
  function EventRank(e: EventType): nat {
    match e
    case TxCreated => 0
    case TxConfirmed => Rank(Confirmed)
    case StepDone(step) => if step.Ledger? then Rank(Completed) else Rank(StateForStep(step))
    case TxEnded(state) => Rank(state)
  }

  predicate EventsBehind(tx: TxId, t: Tables) {
    forall e :: e in t.outbox && e.txId == tx ==> EventRank(e.eventType) <= Rank(t.saga.state)
  }

  predicate Faithful(e: OutboxEvent) {
    && PipeFree(e.txId)
    && e.dedupKey == DedupKey(e.txId, EventName(e.eventType), StepField(e.step), e.attempt)
  }

  predicate KeysFaithful(outbox: seq<OutboxEvent>) {
    forall e :: e in outbox ==> Faithful(e)
  }

  ghost predicate Core(tx: TxId, t: Tables) {
    && PipeFree(tx)
    && Shape(t.saga)
    && Lockstep(tx, t)
    && EventsBehind(tx, t)
    && KeysFaithful(t.outbox)
    && KeysDistinct(t.outbox)
  }

  predicate SameShared(a: Tables, b: Tables) {
    a.saga == b.saga && a.txn == b.txn && a.outbox == b.outbox
  }

  /** From attempt `a` of the current step on, and for every later step, nothing has SUCCEEDED. */
  ghost predicate NothingDone(t: Tables, a: int) {
    !t.saga.state.Terminal() ==>
      forall k :: k in t.rows &&
                  (Position(t.saga.step) < Position(k.step) || (k.step == t.saga.step && a <= k.attempt)) ==>
        t.rows[k] != StepSucceeded
  }

  /** The rows of a new transaction over a given outbox. */
  function CreatedTables(tx: TxId, outbox: seq<OutboxEvent>, id: EventId): Tables {
    Tables(TxRow(Created, 1), SagaRow(Policy, Created, map[], 1),
           map s: Step {:trigger RowKey(s, 1)} | true :: RowKey(s, 1) := StepPending,
           outbox + [NewEvent(id, tx, TxCreated, None, 0)])
  }

  /** The shape of every commit: one legal hop, one more version on both rows, one more event. */
  ghost predicate Committed(tx: TxId, a: Tables, b: Tables) {
    && CommittedHop(a.saga.state, b.saga.state)
    && b.saga.version == a.saga.version + 1
    && b.txn == TxRow(b.saga.state, a.txn.version + 1)
    && a.saga.payload.Keys <= b.saga.payload.Keys
    && |b.outbox| == |a.outbox| + 1
    && b.outbox[..|a.outbox|] == a.outbox
    && var e := b.outbox[|a.outbox|];
       e.txId == tx && Faithful(e) && EventRank(e.eventType) == Rank(b.saga.state) && e.status == OutboxPending
  }

  lemma CoreIsShared(tx: TxId, a: Tables, b: Tables)
    requires Core(tx, a) && SameShared(a, b)
    ensures Core(tx, b)
  {
  }

  lemma HopClimbs(a: State, b: State)
    requires CommittedHop(a, b)
    ensures !a.Terminal() && Rank(a) < Rank(b)
  {
  }

  /** An event of a rank the transaction has not reached yet cannot collide with a stored key,
      whatever transactions share the outbox. */
  lemma FreshEventAccepted(tx: TxId, t: Tables, e: OutboxEvent)
    requires Core(tx, t)
    requires e.txId == tx && Faithful(e)
    requires Rank(t.saga.state) < EventRank(e.eventType)
    ensures !KeyTaken(t.outbox, e.dedupKey)
  {
    forall ex | ex in t.outbox ensures ex.dedupKey != e.dedupKey {
      if ex.dedupKey == e.dedupKey {
        EventKeyInjective(ex.txId, ex.eventType, ex.step, ex.attempt, tx, e.eventType, e.step, e.attempt);
        assert false;
      }
    }
  }

  /** A commit of that shape carries the invariant over. */
  lemma CommittedKeepsCore(tx: TxId, a: Tables, b: Tables)
    requires Core(tx, a) && Committed(tx, a, b) && Shape(b.saga)
    ensures Core(tx, b)
  {
    HopClimbs(a.saga.state, b.saga.state);
    var e := b.outbox[|a.outbox|];
    assert b.outbox == a.outbox + [e];
    EventCountAppend(a.outbox, e, tx);
    FreshEventAccepted(tx, a, e);
    forall i, j | 0 <= i < j < |b.outbox| ensures b.outbox[i].dedupKey != b.outbox[j].dedupKey {
      if j == |a.outbox| {
        assert b.outbox[i] in a.outbox;
      }
    }
  }

  /** What a step's payload entries must be for its success commit to keep the shape. */
  ghost predicate Fits(step: Step, merge: Payload) {
    var r := if step.Ledger? then Rank(Completed) else Rank(StateForStep(step));
    forall k :: KeyRank(k).Some? ==> (k in merge <==> KeyRank(k).value == r)
  }

  lemma PaymentFits(o: Oracle, fx: Effects)
    ensures var out := ExecutePayment(o, fx).outcome;
            !out.Parked? && (out.Success? ==> out.state == PaymentCaptured && Fits(Payment, out.merge))
  {
  }

  lemma BroadcastFits(o: Oracle, fx: Effects, payload: Payload)
    ensures var out := ExecuteBroadcast(o, fx, payload).outcome;
            !out.Parked? && (out.Success? ==> out.state == Broadcasted && Fits(Broadcast, out.merge))
  {
  }

  lemma LedgerFits(o: Oracle, fx: Effects, payload: Payload)
    ensures match ExecuteLedger(o, fx, payload).outcome
            case Success(state, merge) => state == Ledgered && Fits(Ledger, merge)
            case Parked(state, merge) =>
              state == Failed && CaptureId !in merge && TxHash !in merge && SignedTxHex !in merge
            case Error(_) => true
  {
  }

  lemma ExecuteFits(o: Oracle, fx: Effects, payload: Payload, step: Step)
    ensures var out := Execute(o, fx, payload, step).outcome;
            match out
            case Success(state, merge) => state == StateForStep(step) && Fits(step, merge)
            case Parked(state, merge) =>
              && ((step == Policy && state == FailedCompensated) || (step == Ledger && state == Failed))
              && CaptureId !in merge && TxHash !in merge && SignedTxHex !in merge
            case Error(_) => true
  {
    var fx0 := fx.(executed := fx.executed + [step]);
    PaymentFits(o, fx0);
    BroadcastFits(o, fx0, payload);
    LedgerFits(o, fx0, payload);
    hide ExecutePayment, ExecuteBroadcast, ExecuteLedger;
  }

  lemma NextSagaShape(sg: SagaRow, step: Step, merge: Payload)
    requires Shape(sg) && StepFrom(sg.state) == Some(step) && sg.state != Broadcasted
    requires Fits(step, merge)
    ensures var next := NextSaga(sg, step, StateForStep(step), merge);
            && Shape(next) && CommittedHop(sg.state, next.state)
            && Rank(next.state) == EventRank(StepDone(step))
  {
  }

  lemma NextSagaPath(sg: SagaRow, step: Step, merge: Payload)
    requires StepFrom(sg.state) == Some(step)
    ensures ValidPath(sg.state, StateForStep(step), NextSaga(sg, step, StateForStep(step), merge).state)
            <==> sg.state != Broadcasted
  {
    SuccessPathRefusedIff(sg.state, step);
  }

  /** With current versions, a legal path and a fresh key the success commit writes all three
      tables. */
  lemma CommitSuccessWrites(rollback: bool, tx: TxId, t: Tables, step: Step, attempt: nat,
                            state: State, merge: Payload, id: EventId)
    requires RowKey(step, attempt) in t.rows
    requires !KeyTaken(t.outbox, StepDoneEvent(id, tx, step, attempt).dedupKey)
    ensures var w := CommitSuccess(rollback, tx, t, Snapshot(t.txn, t.saga), step, attempt, state, merge, id);
            var next := NextSaga(t.saga, step, state, merge);
            var rows := t.rows[RowKey(step, attempt) := StepSucceeded];
            if ValidPath(t.saga.state, state, next.state) then
              w == Write(Tables(TxRow(next.state, t.txn.version + 1), next, rows,
                                t.outbox + [StepDoneEvent(id, tx, step, attempt)]), true)
            else w == Write(if rollback then t else t.(rows := rows), false)
  {
  }

  /** The success commit of a single-flight run: refused exactly for the ledger step of a saga
      still waiting for confirmation, and then the three shared tables are untouched even when
      the store does not roll back; otherwise all of them move together. */
  lemma CommitSuccessExact(rollback: bool, tx: TxId, t: Tables, step: Step, attempt: nat, merge: Payload, id: EventId)
    requires Core(tx, t) && StepFrom(t.saga.state) == Some(step)
    requires RowKey(step, attempt) in t.rows && Fits(step, merge)
    ensures var w := CommitSuccess(rollback, tx, t, Snapshot(t.txn, t.saga), step, attempt, StateForStep(step), merge,
            id);
            && (w.ok <==> t.saga.state != Broadcasted)
            && (w.ok ==>
                  && Core(tx, w.tables) && Committed(tx, t, w.tables)
                  && w.tables.saga == NextSaga(t.saga, step, StateForStep(step), merge)
                  && w.tables.rows == t.rows[RowKey(step, attempt) := StepSucceeded])
            && (!w.ok ==>
                  && w.tables.saga == t.saga && w.tables.txn == t.txn && w.tables.outbox == t.outbox
                  && w.tables.rows == if rollback then t.rows else t.rows[RowKey(step, attempt) := StepSucceeded])
  {
    NextSagaPath(t.saga, step, merge);
    var e := StepDoneEvent(id, tx, step, attempt);
    assert EventRank(e.eventType) > Rank(t.saga.state);
    FreshEventAccepted(tx, t, e);
    CommitSuccessWrites(rollback, tx, t, step, attempt, StateForStep(step), merge, id);
    if t.saga.state != Broadcasted {
      NextSagaShape(t.saga, step, merge);
      var w := CommitSuccess(rollback, tx, t, Snapshot(t.txn, t.saga), step, attempt, StateForStep(step), merge, id);
      assert Committed(tx, t, w.tables);
      CommittedKeepsCore(tx, t, w.tables);
    }
  }

  /** With current versions, a legal move and a fresh key a parking writes all three tables. */
  lemma CommitParkedMoves(rollback: bool, tx: TxId, t: Tables, step: Step, attempt: nat,
                          state: State, merge: Payload, id: EventId)
    requires var e := NewEvent(id, tx, TxEnded(state), Some(step), attempt);
             Transition(t.saga.state, state) && !KeyTaken(t.outbox, e.dedupKey)
    ensures CommitParked(rollback, tx, t, Snapshot(t.txn, t.saga), step, attempt, state, merge, id)
            == Write(Tables(TxRow(state, t.txn.version + 1), ParkedSaga(t.saga, state, merge),
                            CommitFailed(t, step, attempt).rows,
                            t.outbox + [NewEvent(id, tx, TxEnded(state), Some(step), attempt)]), true)
  {
    hide NewEvent, KeyTaken, MergePayload, Transition;
  }

  lemma CommitParkedExact(rollback: bool, tx: TxId, t: Tables, step: Step, attempt: nat,
                          state: State, merge: Payload, id: EventId)
    requires Core(tx, t) && !t.saga.state.Terminal() && state.IsFailure()
    ensures var w := CommitParked(rollback, tx, t, Snapshot(t.txn, t.saga), step, attempt, state, merge, id);
            && w.ok && Core(tx, w.tables) && Committed(tx, t, w.tables)
            && w.tables.saga == ParkedSaga(t.saga, state, merge)
            && w.tables.rows == CommitFailed(t, step, attempt).rows
  {
    hide CommitParked, CommitFailed, KeyTaken, KeysFaithful, KeysDistinct, EventsBehind;
    var w := CommitParked(rollback, tx, t, Snapshot(t.txn, t.saga), step, attempt, state, merge, id);
    FreshEventAccepted(tx, t, NewEvent(id, tx, TxEnded(state), Some(step), attempt));
    CommitParkedMoves(rollback, tx, t, step, attempt, state, merge, id);
    CommittedKeepsCore(tx, t, w.tables);
  }

  lemma CommitConfirmedExact(rollback: bool, tx: TxId, t: Tables, id: EventId)
    requires Core(tx, t) && t.saga.state == Broadcasted
    ensures var w := CommitConfirmed(rollback, tx, t, t.saga, t.txn, id);
            && w.ok && Core(tx, w.tables) && Committed(tx, t, w.tables)
            && w.tables.saga == ConfirmedSaga(t.saga) && w.tables.rows == t.rows
  {
    var w := CommitConfirmed(rollback, tx, t, t.saga, t.txn, id);
    FreshEventAccepted(tx, t, NewEvent(id, tx, TxConfirmed, None, 0));
    CommittedKeepsCore(tx, t, w.tables);
  }

  /** The cascade never asks the state machine; its move is legal because it starts from a
      saga that is not terminal. */
  lemma CommitCascadeExact(tx: TxId, t: Tables, target: State, id: EventId)
    requires Core(tx, t) && !t.saga.state.Terminal() && target.IsFailure()
    ensures var t' := CommitCascade(tx, t, t.saga, t.txn, target, id);
            && Core(tx, t') && Committed(tx, t, t')
            && t'.saga == CascadedSaga(t.saga, target) && t'.rows == t.rows
  {
    var t' := CommitCascade(tx, t, t.saga, t.txn, target, id);
    FreshEventAccepted(tx, t, NewEvent(id, tx, TxEnded(target), None, 0));
    CommittedKeepsCore(tx, t, t');
  }

  lemma {:induction false} NoEvents(outbox: seq<OutboxEvent>, tx: TxId)
    requires forall e :: e in outbox ==> e.txId != tx
    ensures EventCount(outbox, tx) == 0
  {
    if outbox != [] {
      NoEvents(outbox[..|outbox| - 1], tx);
    }
  }

  /** A new transaction starts out with the invariant. */
  lemma CreatedCore(tx: TxId, outbox: seq<OutboxEvent>, id: EventId)
    requires PipeFree(tx) && KeysFaithful(outbox) && KeysDistinct(outbox)
    requires forall e :: e in outbox ==> e.txId != tx
    ensures Core(tx, CreatedTables(tx, outbox, id)) && NothingDone(CreatedTables(tx, outbox, id), 1)
  {
    var t := CreatedTables(tx, outbox, id);
    var e := NewEvent(id, tx, TxCreated, None, 0);
    NoEvents(outbox, tx);
    EventCountAppend(outbox, e, tx);
    forall i, j | 0 <= i < j < |t.outbox| ensures t.outbox[i].dedupKey != t.outbox[j].dedupKey {
      if j == |outbox| {
        var ex := t.outbox[i];
        assert ex in outbox;
        if ex.dedupKey == e.dedupKey {
          EventKeyInjective(ex.txId, ex.eventType, ex.step, ex.attempt, tx, e.eventType, e.step, e.attempt);
          assert false;
        }
      }
    }
  }
}
