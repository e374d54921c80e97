/** The store's tables as values: one transaction's rows together with the whole outbox, and
    what each table operation does to them. */
module Store {
  import opened Options
  import opened StateMachine
  import opened Dedup

  type EventId = nat

  datatype StepStatus =
    | StepPending
    | StepRunning
    | StepSucceeded
    | StepFailed
    | StepCompensating
    | StepCompensated

  datatype OutboxStatus = OutboxPending | OutboxInflight | OutboxPublished

  /** The keys the steps write into the saga payload. */
  datatype PayloadKey =
    | AuthId
    | CaptureId
    | PolicyReason
    | KytReason
    | SignedTxHex
    | TxHash
    | InMempool
    | AlreadyConfirmed
    | LedgerJournalId
    | LedgerReconcileRequired

  datatype PayloadValue = Text(text: string) | Flag(flag: bool)

  type Payload = map<PayloadKey, PayloadValue>

  /** A payload entry read as a string; empty when it is absent or not a string. */
  function TextOf(p: Payload, k: PayloadKey): string {
    if k in p && p[k].Text? then p[k].text else ""
  }

  datatype RowKey = RowKey(step: Step, attempt: int)

  datatype TxRow = TxRow(status: State, version: int)

  datatype SagaRow = SagaRow(step: Step, state: State, payload: Payload, version: int)

  datatype OutboxEvent = OutboxEvent(
    eventId: EventId,
    txId: TxId,
    eventType: EventType,
    step: Option<Step>,
    attempt: nat,
    status: OutboxStatus,
    dedupKey: string)

  function NewEvent(id: EventId, tx: TxId, e: EventType, step: Option<Step>, attempt: nat): OutboxEvent {
    OutboxEvent(id, tx, e, step, attempt, OutboxPending,
                DedupKey(tx, EventName(e), StepField(step), attempt))
  }

  /** What one transaction sees of the store. The outbox is shared by all transactions. */
  datatype Tables = Tables(
    txn: TxRow,
    saga: SagaRow,
    rows: map<RowKey, StepStatus>,
    outbox: seq<OutboxEvent>)

  /** The outcome of a store call: the tables it leaves and whether it returned no error. */
  datatype Write = Write(tables: Tables, ok: bool)

  function UpdateStep(t: Tables, k: RowKey, s: StepStatus): Write {
    if k in t.rows then Write(t.(rows := t.rows[k := s]), true) else Write(t, false)
  }

  function InsertStep(t: Tables, k: RowKey, s: StepStatus): Write {
    if k in t.rows then Write(t, false) else Write(t.(rows := t.rows[k := s]), true)
  }

  function SaveSagaState(t: Tables, saga: SagaRow): Write {
    if t.saga.version != saga.version - 1 then Write(t, false)
    else Write(t.(saga := saga.(version := t.saga.version + 1)), true)
  }

  function UpdateTransactionStatus(t: Tables, status: State, version: int): Write {
    if t.txn.version != version then Write(t, false)
    else Write(t.(txn := TxRow(status, version + 1)), true)
  }

  predicate KeyTaken(outbox: seq<OutboxEvent>, key: string) {
    exists e :: e in outbox && e.dedupKey == key
  }

  /** Appends a batch unless some event of it repeats the key of a stored event. */
  function AppendEvents(outbox: seq<OutboxEvent>, events: seq<OutboxEvent>): seq<OutboxEvent> {
    if exists e :: e in events && KeyTaken(outbox, e.dedupKey) then outbox else outbox + events
  }

  /** The executor's appends carry a single event and ignore the error. */
  function AppendOutbox(t: Tables, e: OutboxEvent): Tables {
    if KeyTaken(t.outbox, e.dedupKey) then t else t.(outbox := t.outbox + [e])
  }

  /** A transaction body ends: its effect stays, or on an error is undone by a store that rolls
      back. The in-memory store does not roll back. */
  function EndTx(rollback: bool, before: Tables, w: Write): Write {
    if w.ok || !rollback then w else Write(before, false)
  }

  predicate KeysDistinct(outbox: seq<OutboxEvent>) {
    forall i, j :: 0 <= i < j < |outbox| ==> outbox[i].dedupKey != outbox[j].dedupKey
  }

  /** Appending checks each event of the batch against the stored events only, so an accepted
      batch keeps the keys of the outbox distinct exactly when it repeats no key within itself. */
  lemma AppendKeepsKeysDistinctIff(outbox: seq<OutboxEvent>, events: seq<OutboxEvent>)
    requires KeysDistinct(outbox)
    requires !exists e :: e in events && KeyTaken(outbox, e.dedupKey)
    ensures KeysDistinct(AppendEvents(outbox, events)) <==> KeysDistinct(events)
  {
    var all := AppendEvents(outbox, events);
    assert all == outbox + events;
    if KeysDistinct(events) {
      forall i, j | 0 <= i < j < |all| ensures all[i].dedupKey != all[j].dedupKey {
        if i < |outbox| <= j {
          assert all[j] in events && all[i] in outbox;
        }
      }
    }
    if KeysDistinct(all) {
      forall i, j | 0 <= i < j < |events| ensures events[i].dedupKey != events[j].dedupKey {
        assert all[|outbox| + i] == events[i] && all[|outbox| + j] == events[j];
      }
    }
  }

  /** How many of the outbox's events belong to `tx`. */
  function EventCount(outbox: seq<OutboxEvent>, tx: TxId): nat {
    if outbox == [] then 0
    else EventCount(outbox[..|outbox| - 1], tx) + (if outbox[|outbox| - 1].txId == tx then 1 else 0)
  }

  lemma EventCountAppend(outbox: seq<OutboxEvent>, e: OutboxEvent, tx: TxId)
    ensures EventCount(outbox + [e], tx) == EventCount(outbox, tx) + (if e.txId == tx then 1 else 0)
  {
    assert (outbox + [e])[..|outbox|] == outbox;
  }
}
