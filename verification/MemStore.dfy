/** The in-memory store: three maps and the outbox, scanned and updated in place. What one
    transaction sees of it is the value `View`. */
module MemStores {
  import opened Options
  import opened StateMachine
  import opened Dedup
  import opened Store
  import opened Invariants
  import opened Outbox

  datatype StoreError = NoStoreError | NotFound | Conflict | Duplicate

  datatype StepRow = StepRow(key: RowKey, status: StepStatus)

  /** The rows of a transaction as a table; the first row with a key is the one found. */
  function RowTable(rows: seq<StepRow>): map<RowKey, StepStatus> {
    if rows == [] then map[] else RowTable(rows[1..])[rows[0].key := rows[0].status]
  }

  lemma {:induction false} RowTableFirst(rows: seq<StepRow>, i: nat)
    requires i < |rows| && forall j :: 0 <= j < i ==> rows[j].key != rows[i].key
    ensures rows[i].key in RowTable(rows) && RowTable(rows)[rows[i].key] == rows[i].status
    ensures forall s :: RowTable(rows[i := rows[i].(status := s)]) == RowTable(rows)[rows[i].key := s]
  {
    forall s ensures RowTable(rows[i := rows[i].(status := s)]) == RowTable(rows)[rows[i].key := s] {
      var rows' := rows[i := rows[i].(status := s)];
      if i == 0 {
        assert rows'[1..] == rows[1..];
      } else {
        assert rows[1..][i - 1] == rows[i];
        assert forall j :: 0 <= j < i - 1 ==> rows[1..][j] == rows[j + 1];
        RowTableFirst(rows[1..], i - 1);
        assert rows'[1..] == rows[1..][i - 1 := rows[i].(status := s)];
      }
    }
    if i > 0 {
      assert rows[1..][i - 1] == rows[i];
      assert forall j :: 0 <= j < i - 1 ==> rows[1..][j] == rows[j + 1];
      RowTableFirst(rows[1..], i - 1);
    }
  }

  lemma {:induction false} RowTableAbsent(rows: seq<StepRow>, k: RowKey)
    requires forall j :: 0 <= j < |rows| ==> rows[j].key != k
    ensures k !in RowTable(rows)
    ensures forall s :: RowTable(rows + [StepRow(k, s)]) == RowTable(rows)[k := s]
  {
    if rows == [] {
      forall s ensures RowTable(rows + [StepRow(k, s)]) == RowTable(rows)[k := s] {
        assert (rows + [StepRow(k, s)])[1..] == [];
      }
    } else {
      RowTableAbsent(rows[1..], k);
      forall s ensures RowTable(rows + [StepRow(k, s)]) == RowTable(rows)[k := s] {
        assert (rows + [StepRow(k, s)])[1..] == rows[1..] + [StepRow(k, s)];
      }
    }
  }

  /** Everything the store holds. */
  datatype Contents = Contents(
    txs: map<TxId, TxRow>,
    steps: map<TxId, seq<StepRow>>,
    sagas: map<TxId, SagaRow>,
    outbox: seq<OutboxEvent>)

  predicate HasRows(c: Contents, tx: TxId) {
    tx in c.txs && tx in c.sagas
  }

  function RowsOf(c: Contents, tx: TxId): seq<StepRow> {
    if tx in c.steps then c.steps[tx] else []
  }

  /** What the transaction `tx` sees of the store. */
  function ViewOf(c: Contents, tx: TxId): Tables
    requires HasRows(c, tx)
  {
    Tables(c.txs[tx], c.sagas[tx], RowTable(RowsOf(c, tx)), c.outbox)
  }

  ghost predicate SameElsewhere<V>(tx: TxId, a: map<TxId, V>, b: map<TxId, V>) {
    forall t :: t != tx ==> (t in a <==> t in b) && (t in a ==> a[t] == b[t])
  }

  /** Only the rows of `tx` changed, and the outbox at most grew by events of `tx`. */
  ghost predicate OnlyFor(tx: TxId, a: Contents, b: Contents) {
    && SameElsewhere(tx, a.txs, b.txs) && SameElsewhere(tx, a.steps, b.steps) && SameElsewhere(tx, a.sagas, b.sagas)
    && a.outbox <= b.outbox
    && forall i :: |a.outbox| <= i < |b.outbox| ==> b.outbox[i].txId == tx
  }

  lemma OnlyForTrans(tx: TxId, a: Contents, b: Contents, c: Contents)
    requires OnlyFor(tx, a, b) && OnlyFor(tx, b, c)
    ensures OnlyFor(tx, a, c)
  {
  }

  lemma OnlyForSame(tx: TxId, a: Contents)
    ensures OnlyFor(tx, a, a)
  {
  }

  class MemStore {
    /** Whether a failing transaction is undone: true of the interface, false of this type. */
    const rollbacks: bool
    var txs: map<TxId, TxRow>
    var steps: map<TxId, seq<StepRow>>
    var sagas: map<TxId, SagaRow>
    var outbox: seq<OutboxEvent>

    constructor (rollbacks: bool)
      ensures this.rollbacks == rollbacks
      ensures txs == map[] && steps == map[] && sagas == map[] && outbox == []
    {
      this.rollbacks := rollbacks;
      txs, steps, sagas, outbox := map[], map[], map[], [];
    }

    function All(): Contents
      reads this
    {
      Contents(txs, steps, sagas, outbox)
    }

    predicate Has(tx: TxId)
      reads this
    {
      HasRows(All(), tx)
    }

    function StepsOf(tx: TxId): seq<StepRow>
      reads this
    {
      RowsOf(All(), tx)
    }

    function View(tx: TxId): Tables
      requires Has(tx)
      reads this
    {
      ViewOf(All(), tx)
    }

    /** Ends a transaction that began with `saved`, undoing it on an error if this store does. */
    method EndTx(saved: Contents, ok: bool)
      modifies this
      ensures All() == if ok || !rollbacks then old(All()) else saved
    {
      if !ok && rollbacks {
        txs, steps, sagas, outbox := saved.txs, saved.steps, saved.sagas, saved.outbox;
      }
    }

    method LoadTx(tx: TxId) returns (r: Option<TxRow>)
      ensures r == if tx in txs then Some(txs[tx]) else None
      ensures Has(tx) ==> r == Some(View(tx).txn)
    {
      r := if tx in txs then Some(txs[tx]) else None;
    }

    method LoadSagaState(tx: TxId) returns (r: Option<SagaRow>)
      ensures r == if tx in sagas then Some(sagas[tx]) else None
      ensures Has(tx) ==> r == Some(View(tx).saga)
    {
      r := if tx in sagas then Some(sagas[tx]) else None;
    }

    /** The position of the first row with key `k`. */
    method FindStep(tx: TxId, k: RowKey) returns (i: nat)
      ensures i <= |StepsOf(tx)|
      ensures forall j :: 0 <= j < i ==> StepsOf(tx)[j].key != k
      ensures i < |StepsOf(tx)| ==> StepsOf(tx)[i].key == k
      ensures i < |StepsOf(tx)| <==> k in RowTable(StepsOf(tx))
    {
      var rows := StepsOf(tx);
      i := 0;
      while i < |rows| && rows[i].key != k
        invariant i <= |rows|
        invariant forall j :: 0 <= j < i ==> rows[j].key != k
      {
        i := i + 1;
      }
      if i < |rows| {
        RowTableFirst(rows, i);
      } else {
        RowTableAbsent(rows, k);
      }
    }

    method LoadStep(tx: TxId, k: RowKey) returns (r: Option<StepStatus>)
      ensures r.Some? <==> k in RowTable(StepsOf(tx))
      ensures r.Some? ==> r.value == RowTable(StepsOf(tx))[k]
    {
      var i := FindStep(tx, k);
      if i == |StepsOf(tx)| {
        return None;
      }
      RowTableFirst(StepsOf(tx), i);
      r := Some(StepsOf(tx)[i].status);
    }

    method InsertStep(tx: TxId, k: RowKey, s: StepStatus) returns (err: StoreError)
      modifies this`steps
      ensures err == if k in RowTable(old(StepsOf(tx))) then Duplicate else NoStoreError
      ensures RowTable(StepsOf(tx)) ==
              if err == Duplicate then RowTable(old(StepsOf(tx))) else RowTable(old(StepsOf(tx)))[k := s]
      ensures SameElsewhere(tx, old(steps), steps)
      ensures Has(tx) ==>
                && Write(View(tx), err == NoStoreError) == Store.InsertStep(old(View(tx)), k, s)
                && OnlyFor(tx, old(All()), All())
    {
      var i := FindStep(tx, k);
      if i < |StepsOf(tx)| {
        return Duplicate;
      }
      RowTableAbsent(StepsOf(tx), k);
      steps := steps[tx := StepsOf(tx) + [StepRow(k, s)]];
      err := NoStoreError;
    }

    method UpdateStep(tx: TxId, k: RowKey, s: StepStatus) returns (err: StoreError)
      modifies this`steps
      ensures err == if k in RowTable(old(StepsOf(tx))) then NoStoreError else NotFound
      ensures RowTable(StepsOf(tx)) ==
              if err == NotFound then RowTable(old(StepsOf(tx))) else RowTable(old(StepsOf(tx)))[k := s]
      ensures SameElsewhere(tx, old(steps), steps)
      ensures Has(tx) ==>
                && Write(View(tx), err == NoStoreError) == Store.UpdateStep(old(View(tx)), k, s)
                && OnlyFor(tx, old(All()), All())
    {
      var i := FindStep(tx, k);
      if i == |StepsOf(tx)| {
        return NotFound;
      }
      var rows := StepsOf(tx);
      RowTableFirst(rows, i);
      assert rows[i := rows[i].(status := s)] == rows[i := StepRow(k, s)];
      steps := steps[tx := rows[i := StepRow(k, s)]];
      err := NoStoreError;
    }

    method SaveSagaState(tx: TxId, saga: SagaRow) returns (err: StoreError)
      modifies this`sagas
      ensures tx !in old(sagas) ==> err == NotFound && sagas == old(sagas)
      ensures tx in old(sagas) ==>
                && sagas.Keys == old(sagas).Keys && SameElsewhere(tx, old(sagas), sagas)
                && (err == NoStoreError <==> old(sagas)[tx].version == saga.version - 1)
                && sagas[tx] == (if err == NoStoreError then saga else old(sagas)[tx])
      ensures old(Has(tx)) ==>
                && Has(tx) && Write(View(tx), err == NoStoreError) == Store.SaveSagaState(old(View(tx)), saga)
                && OnlyFor(tx, old(All()), All())
    {
      if tx !in sagas {
        return NotFound;
      }
      var cur := sagas[tx];
      if cur.version != saga.version - 1 {
        return Conflict;
      }
      sagas := sagas[tx := saga.(version := cur.version + 1)];
      err := NoStoreError;
    }

    method UpdateTransactionStatus(tx: TxId, status: State, version: int) returns (err: StoreError)
      modifies this`txs
      ensures tx !in old(txs) ==> err == NotFound && txs == old(txs)
      ensures tx in old(txs) ==>
                && txs.Keys == old(txs).Keys && SameElsewhere(tx, old(txs), txs)
                && (err == NoStoreError <==> old(txs)[tx].version == version)
                && txs[tx] == (if err == NoStoreError then TxRow(status, version + 1) else old(txs)[tx])
      ensures old(Has(tx)) ==>
                && Has(tx) && Write(View(tx), err == NoStoreError)
                   == Store.UpdateTransactionStatus(old(View(tx)), status, version)
                && OnlyFor(tx, old(All()), All())
    {
      if tx !in txs {
        return NotFound;
      }
      if txs[tx].version != version {
        return Conflict;
      }
      txs := txs[tx := TxRow(status, version + 1)];
      err := NoStoreError;
    }

    /** All events of the batch or none, by a scan of the stored events for each. */
    method AppendOutbox(events: seq<OutboxEvent>) returns (err: StoreError)
      modifies this`outbox
      ensures outbox == AppendEvents(old(outbox), events)
      ensures err == Duplicate <==> exists e :: e in events && KeyTaken(old(outbox), e.dedupKey)
      ensures err == Duplicate || err == NoStoreError
    {
      var i := 0;
      while i < |events|
        invariant i <= |events|
        invariant forall k :: 0 <= k < i ==> !KeyTaken(outbox, events[k].dedupKey)
        invariant outbox == old(outbox)
      {
        var j := 0;
        while j < |outbox|
          invariant j <= |outbox|
          invariant forall k :: 0 <= k < j ==> outbox[k].dedupKey != events[i].dedupKey
          invariant outbox == old(outbox)
        {
          if outbox[j].dedupKey == events[i].dedupKey {
            assert outbox[j] in outbox && events[i] in events;
            return Duplicate;
          }
          j := j + 1;
        }
        i := i + 1;
      }
      outbox := outbox + events;
      err := NoStoreError;
    }

    /** The executor's way of appending: one event of its own transaction, the error ignored. */
    method AppendEvent(tx: TxId, e: OutboxEvent)
      requires Has(tx) && e.txId == tx
      modifies this`outbox
      ensures Has(tx) && View(tx) == Store.AppendOutbox(old(View(tx)), e)
      ensures OnlyFor(tx, old(All()), All())
    {
      assert e in [e];
      var _ := AppendOutbox([e]);
    }

    /** Turns the next PENDING events INFLIGHT in place and returns them. */
    method ClaimOutboxPending(limit: int) returns (events: seq<OutboxEvent>)
      modifies this`outbox
      ensures Claimed(outbox, events) == Claim(old(outbox), limit)
    {
      hide Claim;
      events := [];
      var i := 0;
      ghost var done, rest := [], outbox;
      while i < |outbox|
        invariant i == |done| && outbox == done + rest
        invariant Claimed(done + Claim(rest, limit - |events|).outbox, events + Claim(rest, limit - |events|).events)
                  == Claimed([] + Claim(old(outbox), limit).outbox, [] + Claim(old(outbox), limit).events)
        decreases |rest|
      {
        var e := outbox[i];
        ClaimStep(done, events, rest, limit - |events|);
        if e.status == OutboxPending {
          e := e.(status := OutboxInflight);
          outbox := outbox[i := e];
          events := events + [e];
          if |events| >= limit {
            assert outbox == done + [e] + rest[1..];
            NothingBefore(Claim(old(outbox), limit));
            return;
          }
        }
        done, rest := done + [e], rest[1..];
        i := i + 1;
      }
      ClaimNothing(limit - |events|);
      NothingBefore(Claim(old(outbox), limit));
      assert done + [] == done && events + [] == events;
    }

    /** The position of the first event with the id. */
    method FindEvent(id: EventId) returns (i: nat)
      ensures i <= |outbox| && forall j :: 0 <= j < i ==> outbox[j].eventId != id
      ensures i < |outbox| ==> outbox[i].eventId == id
    {
      i := 0;
      while i < |outbox| && outbox[i].eventId != id
        invariant i <= |outbox|
        invariant forall j :: 0 <= j < i ==> outbox[j].eventId != id
      {
        i := i + 1;
      }
    }

    /** Publishes the first event with each of the ids, in place. */
    method MarkOutboxPublished(ids: seq<EventId>)
      modifies this`outbox
      ensures outbox == MarkAll(old(outbox), ids)
    {
      hide MarkOne;
      var n := 0;
      while n < |ids|
        invariant n <= |ids|
        invariant MarkAll(outbox, ids[n..]) == MarkAll(old(outbox), ids)
      {
        assert ids[n..][1..] == ids[n + 1..];
        var i := FindEvent(ids[n]);
        MarkOneFirst(outbox, ids[n], i);
        if i < |outbox| {
          outbox := outbox[i := outbox[i].(status := OutboxPublished)];
        }
        n := n + 1;
      }
    }

    /** A new transaction's rows; the events are appended without a key check. */
    method CreateTx(tx: TxId, txn: TxRow, rows: seq<StepRow>, saga: SagaRow, events: seq<OutboxEvent>)
                    returns (err: StoreError)
      modifies this
      ensures err == if tx in old(txs) then Duplicate else NoStoreError
      ensures err == Duplicate ==> All() == old(All())
      ensures err == NoStoreError ==>
                && txs == old(txs)[tx := txn] && steps == old(steps)[tx := rows]
                && sagas == old(sagas)[tx := saga] && outbox == old(outbox) + events
    {
      if tx in txs {
        return Duplicate;
      }
      txs, steps, sagas := txs[tx := txn], steps[tx := rows], sagas[tx := saga];
      outbox := outbox + events;
      err := NoStoreError;
    }

    /** The transactions whose saga is not terminal, each once, in no particular order. */
    method ListInflightSagaIds() returns (ids: seq<TxId>)
      ensures forall id :: id in ids <==> id in sagas && !sagas[id].state.Terminal()
      ensures forall i, j :: 0 <= i < j < |ids| ==> ids[i] != ids[j]
    {
      ids := [];
      var rest := sagas.Keys;
      while rest != {}
        invariant rest <= sagas.Keys
        invariant forall id :: id in ids <==> id in sagas && id !in rest && !sagas[id].state.Terminal()
        invariant forall i, j :: 0 <= i < j < |ids| ==> ids[i] != ids[j]
        decreases rest
      {
        var id :| id in rest;
        rest := rest - {id};
        if !sagas[id].state.Terminal() {
          ids := ids + [id];
        }
      }
    }
  }

  /** The rows the API creates for a new transaction. */
  function InitialRows(): seq<StepRow> {
    seq(|STEP_ORDER|, i requires 0 <= i < |STEP_ORDER| => StepRow(RowKey(STEP_ORDER[i], 1), StepPending))
  }

  lemma {:induction false} RowTableUniform(rows: seq<StepRow>, s: StepStatus, attempt: int)
    requires forall r :: r in rows ==> r.status == s && r.key.attempt == attempt
    ensures forall i :: 0 <= i < |rows| ==> rows[i].key in RowTable(rows)
    ensures forall k :: k in RowTable(rows) ==> k.attempt == attempt && RowTable(rows)[k] == s
  {
    if rows != [] {
      RowTableUniform(rows[1..], s, attempt);
      forall i | 0 <= i < |rows| ensures rows[i].key in RowTable(rows) {
        if i > 0 {
          assert rows[1..][i - 1] == rows[i];
        }
      }
    }
  }

  lemma InitialRowsTable()
    ensures forall s: Step :: RowKey(s, 1) in RowTable(InitialRows())
    ensures forall k :: k in RowTable(InitialRows()) ==> k.attempt == 1 && RowTable(InitialRows())[k] == StepPending
  {
    RowTableUniform(InitialRows(), StepPending, 1);
    forall s: Step ensures RowKey(s, 1) in RowTable(InitialRows()) {
      assert InitialRows()[Position(s)].key == RowKey(s, 1);
    }
  }

  lemma CreatedView(tx: TxId, t: Tables, outbox: seq<OutboxEvent>, id: EventId)
    requires Core(tx, CreatedTables(tx, outbox, id)) && SameShared(CreatedTables(tx, outbox, id), t)
    requires forall k :: k in t.rows ==> t.rows[k] == StepPending
    ensures Core(tx, t) && NothingDone(t, 1)
  {
    CoreIsShared(tx, CreatedTables(tx, outbox, id), t);
    hide Core, CreatedTables;
  }

  function WithTransaction(c: Contents, tx: TxId, id: EventId): Contents {
    Contents(c.txs[tx := TxRow(Created, 1)], c.steps[tx := InitialRows()],
             c.sagas[tx := SagaRow(Policy, Created, map[], 1)], c.outbox + [NewEvent(id, tx, TxCreated, None, 0)])
  }

  /** The rows of a new purchase, table by table: one PENDING row for each of the six steps at attempt 1
      and no other, the transaction and the saga CREATED at version 1, and one more event, the
      transaction's creation under the given id. */
  predicate NewPurchaseRows(c: Contents, tx: TxId, id: EventId, outbox: seq<OutboxEvent>) {
    && HasRows(c, tx) && c.txs[tx] == TxRow(Created, 1) && c.sagas[tx] == SagaRow(Policy, Created, map[], 1)
    && |RowsOf(c, tx)| == 6
    && (forall i :: 0 <= i < 6 ==> RowsOf(c, tx)[i] == StepRow(RowKey(STEP_ORDER[i], 1), StepPending))
    && c.outbox == outbox + [OutboxEvent(id, tx, TxCreated, None, 0, OutboxPending,
                                         DedupKey(tx, "transaction.created", "", 0))]
  }

  lemma NewRowsWritten(c: Contents, tx: TxId, id: EventId)
    ensures NewPurchaseRows(WithTransaction(c, tx, id), tx, id, c.outbox)
  {
    hide DedupKey;
  }

  /** What the six rows say as a table: every step is PENDING at attempt 1, and there is nothing else. */
  lemma NewRowsTable(c: Contents, tx: TxId, id: EventId, outbox: seq<OutboxEvent>)
    requires NewPurchaseRows(c, tx, id, outbox)
    ensures var rows := ViewOf(c, tx).rows;
            (forall k :: k in rows <==> k.attempt == 1) && forall k :: k in rows ==> rows[k] == StepPending
  {
    assert RowsOf(c, tx) == InitialRows();
    InitialRowsTable();
    hide InitialRows, RowTable, DedupKey;
    forall k: RowKey | k.attempt == 1 ensures k in ViewOf(c, tx).rows {
      assert k == RowKey(k.step, 1);
    }
  }

  lemma CreatedContents(c: Contents, tx: TxId, id: EventId)
    requires PipeFree(tx) && KeysFaithful(c.outbox) && KeysDistinct(c.outbox)
    requires forall e :: e in c.outbox ==> e.txId != tx
    ensures var c' := WithTransaction(c, tx, id);
            && HasRows(c', tx) && OnlyFor(tx, c, c')
            && Core(tx, ViewOf(c', tx)) && NothingDone(ViewOf(c', tx), 1)
            && ViewOf(c', tx).saga == SagaRow(Policy, Created, map[], 1)
  {
    hide Core, NothingDone, InitialRows, RowTable, KeysFaithful, KeysDistinct, DedupKey;
    InitialRowsTable();
    CreatedCore(tx, c.outbox, id);
    CreatedView(tx, ViewOf(WithTransaction(c, tx, id), tx), c.outbox, id);
  }

  /** What POST /transactions writes starts the saga engine off with its invariant, whatever other
      transactions share the outbox. */
  method CreateTransaction(store: MemStore, tx: TxId, id: EventId) returns (err: StoreError)
    requires PipeFree(tx) && KeysFaithful(store.outbox) && KeysDistinct(store.outbox)
    requires tx !in store.txs ==> forall e :: e in store.outbox ==> e.txId != tx
    modifies store
    ensures err == if tx in old(store.txs) then Duplicate else NoStoreError
    ensures err == Duplicate ==> store.All() == old(store.All())
    ensures err == NoStoreError ==>
              && store.Has(tx) && Core(tx, store.View(tx)) && NothingDone(store.View(tx), 1)
              && NewPurchaseRows(store.All(), tx, id, old(store.outbox))
              && OnlyFor(tx, old(store.All()), store.All())
  {
    hide NewPurchaseRows;
    hide Core, NothingDone, OnlyFor, InitialRows, RowTable, NewEvent, KeysFaithful, KeysDistinct, Faithful;
    ghost var c0 := store.All();
    var saga := SagaRow(Policy, Created, map[], 1);
    var event := NewEvent(id, tx, TxCreated, None, 0);
    err := store.CreateTx(tx, TxRow(Created, 1), InitialRows(), saga, [event]);
    if err == NoStoreError {
      CreatedContents(c0, tx, id);
      NewRowsWritten(c0, tx, id);
      assert store.All() == WithTransaction(c0, tx, id);
    } else {
      OnlyForSame(tx, c0);
    }
  }
}
