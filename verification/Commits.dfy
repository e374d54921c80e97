/** The executor's store transactions, each as one atomic change of the tables. */
module Commits {
  import opened Options
  import opened StateMachine
  import opened Dedup
  import opened Store

  /** The rows a run holds while it works on one step. */
  datatype Snapshot = Snapshot(txn: TxRow, saga: SagaRow)

  /** Opens an attempt: nothing when its row already SUCCEEDED, else the row becomes RUNNING. */
  function BeginAttempt(t: Tables, step: Step, attempt: int): Write {
    var k := RowKey(step, attempt);
    if k in t.rows && t.rows[k] == StepSucceeded then Write(t, false)
    else if k in t.rows then UpdateStep(t, k, StepRunning)
    else InsertStep(t, k, StepRunning)
  }

  /** Later entries win; the result is a new map. */
  function MergePayload(base: Payload, merge: Payload): Payload {
    base + merge
  }

  /** The saga row a successful step commits. */
  function NextSaga(sg: SagaRow, step: Step, state: State, merge: Payload): SagaRow {
    var payload := MergePayload(sg.payload, merge);
    match StepAfter(step)
    case Some(next) => SagaRow(next, state, payload, sg.version + 1)
    case None => SagaRow(step, if state == Ledgered then Completed else state, payload, sg.version + 1)
  }

  function StepDoneEvent(id: EventId, tx: TxId, step: Step, attempt: nat): OutboxEvent {
    NewEvent(id, tx, StepDone(step), Some(step), attempt)
  }

  /** Moves the saga row, the transaction row and the outbox, stopping at the first error; only the
      append's error is ignored. */
  function StrictMove(t: Tables, next: SagaRow, txnVersion: int, e: OutboxEvent): Write {
    var w := SaveSagaState(t, next);
    if !w.ok then w
    else
      var w := UpdateTransactionStatus(w.tables, next.state, txnVersion);
      if !w.ok then w else Write(AppendOutbox(w.tables, e), true)
  }

  /** The same three writes with every error ignored. */
  function LooseMove(t: Tables, next: SagaRow, txnVersion: int, e: OutboxEvent): Tables {
    var t1 := SaveSagaState(t, next).tables;
    var t2 := UpdateTransactionStatus(t1, next.state, txnVersion).tables;
    AppendOutbox(t2, e)
  }

  /** The body of the success transaction: it stops at the first error. */
  function SuccessBody(tx: TxId, t: Tables, snap: Snapshot,
                       step: Step, attempt: nat, state: State, merge: Payload, id: EventId): Write {
    var w := UpdateStep(t, RowKey(step, attempt), StepSucceeded);
    if !w.ok then w
    else
      var next := NextSaga(snap.saga, step, state, merge);
      if !ValidPath(snap.saga.state, state, next.state) then w.(ok := false)
      else StrictMove(w.tables, next, snap.txn.version, StepDoneEvent(id, tx, step, attempt))
  }

  function CommitSuccess(rollback: bool, tx: TxId, t: Tables, snap: Snapshot,
                         step: Step, attempt: nat, state: State, merge: Payload, id: EventId): Write {
    EndTx(rollback, t, SuccessBody(tx, t, snap, step, attempt, state, merge, id))
  }

  /** The failed attempt's row; the store's error is ignored. */
  function CommitFailed(t: Tables, step: Step, attempt: int): Tables {
    UpdateStep(t, RowKey(step, attempt), StepFailed).tables
  }

  function ParkedSaga(sg: SagaRow, state: State, merge: Payload): SagaRow {
    sg.(payload := MergePayload(sg.payload, merge), state := state, version := sg.version + 1)
  }

  /** The body of the parking transaction: only an illegal transition stops it. */
  function ParkedBody(tx: TxId, t: Tables, snap: Snapshot,
                      step: Step, attempt: nat, state: State, merge: Payload, id: EventId): Write {
    var t1 := UpdateStep(t, RowKey(step, attempt), StepFailed).tables;
    if !Transition(snap.saga.state, state) then Write(t1, false)
    else
      Write(LooseMove(t1, ParkedSaga(snap.saga, state, merge), snap.txn.version,
                      NewEvent(id, tx, TxEnded(state), Some(step), attempt)), true)
  }

  function CommitParked(rollback: bool, tx: TxId, t: Tables, snap: Snapshot,
                        step: Step, attempt: nat, state: State, merge: Payload, id: EventId): Write {
    EndTx(rollback, t, ParkedBody(tx, t, snap, step, attempt, state, merge, id))
  }

  function ConfirmedSaga(sg: SagaRow): SagaRow {
    sg.(state := Confirmed, step := Ledger, version := sg.version + 1)
  }

  /** The commit of the inline poller and of the ConfirmPoller. */
  function CommitConfirmed(rollback: bool, tx: TxId, t: Tables, sg: SagaRow, txn: TxRow, id: EventId): Write {
    if !Transition(sg.state, Confirmed) then EndTx(rollback, t, Write(t, false))
    else EndTx(rollback, t, StrictMove(t, ConfirmedSaga(sg), txn.version, NewEvent(id, tx, TxConfirmed, None, 0)))
  }

  /** The attempt-1 row of a step, when there is one, during a cascade. */
  function MarkRow(t: Tables, step: Step, s: StepStatus): Tables {
    UpdateStep(t, RowKey(step, 1), s).tables
  }

  function CascadeTarget(ok: bool): State {
    if ok then FailedCompensated else Failed
  }

  function CascadedSaga(sg: SagaRow, target: State): SagaRow {
    sg.(state := target, version := sg.version + 1)
  }

  /** The end of a cascade: store errors are ignored and no transition is checked. */
  function CommitCascade(tx: TxId, t: Tables, sg: SagaRow, txn: TxRow, target: State, id: EventId): Tables {
    LooseMove(t, CascadedSaga(sg, target), txn.version, NewEvent(id, tx, TxEnded(target), None, 0))
  }
}
