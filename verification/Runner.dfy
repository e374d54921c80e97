/** The executor as it runs: loops over the store's methods and the partner clients. Every method
    is proved to do what its function in ExecutorSpec says, and to leave all other transactions
    alone. */
module Runner {
  import opened Options
  import opened StateMachine
  import opened Dedup
  import opened Store
  import opened Steps
  import opened Commits
  import opened RunTheorems
  import opened MemStores
  import opened PartnerClients
  import S = ExecutorSpec

  /** The lease as the environment decides it: how often it is still refused. */
  class Lease {
    var refusals: nat

    constructor (refusals: nat)
      ensures this.refusals == refusals
    {
      this.refusals := refusals;
    }

    method Acquire() returns (granted: bool)
      modifies this
      ensures granted == (old(refusals) == 0)
      ensures refusals == if granted then 0 else old(refusals) - 1
    {
      granted := refusals == 0;
      refusals := if granted then 0 else refusals - 1;
    }
  }

  datatype RunResult = Done | NoSuchTransaction | CompensationFailed

  lemma EventOf(id: EventId, tx: TxId, step: Step, attempt: nat)
    ensures StepDoneEvent(id, tx, step, attempt).txId == tx
  {
  }

  lemma ClosedAttempt(t: Tables, step: Step, attempt: nat)
    ensures !Commits.BeginAttempt(t, step, attempt).ok ==> Commits.BeginAttempt(t, step, attempt).tables == t
  {
  }

  class Executor {
    const store: MemStore
    const clients: Clients
    const lease: Lease
    const maxRetries: int

    constructor (store: MemStore, clients: Clients, lease: Lease, maxRetries: int)
      ensures this.store == store && this.clients == clients && this.lease == lease && this.maxRetries == maxRetries
    {
      this.store, this.clients, this.lease, this.maxRetries := store, clients, lease, maxRetries;
    }

    function Env(tx: TxId): S.Env {
      S.Env(tx, maxRetries, store.rollbacks, clients.o)
    }

    function World(tx: TxId): S.World
      requires store.Has(tx)
      reads store, clients
    {
      S.World(store.View(tx), clients.fx)
    }

    method NewEventId(tx: TxId) returns (id: EventId)
      requires store.Has(tx)
      ensures id == S.FreshId(Env(tx), store.View(tx))
    {
      id := clients.o.newEventId(|store.outbox|);
    }

    /** The transaction that opens an attempt; false when it already succeeded. */
    method BeginAttempt(tx: TxId, step: Step, attempt: nat) returns (open: bool)
      requires store.Has(tx)
      modifies store
      ensures store.Has(tx) && OnlyFor(tx, old(store.All()), store.All())
      ensures Write(store.View(tx), open) == Commits.BeginAttempt(old(store.View(tx)), step, attempt)
    {
      var k := RowKey(step, attempt);
      var existing := store.LoadStep(tx, k);
      if existing == Some(StepSucceeded) {
        return false;
      }
      var err;
      if existing.Some? {
        err := store.UpdateStep(tx, k, StepRunning);
      } else {
        err := store.InsertStep(tx, k, StepRunning);
      }
      open := err == NoStoreError;
    }

    /** The three writes of a commit, stopping at the first error. */
    method MoveStrictly(tx: TxId, next: SagaRow, txnVersion: int, e: OutboxEvent) returns (ok: bool)
      requires store.Has(tx) && e.txId == tx
      modifies store
      ensures store.Has(tx) && OnlyFor(tx, old(store.All()), store.All())
      ensures Write(store.View(tx), ok) == StrictMove(old(store.View(tx)), next, txnVersion, e)
    {
      hide OnlyFor, ViewOf, HasRows, KeyTaken, Store.SaveSagaState, Store.UpdateTransactionStatus, Store.AppendOutbox;
      ghost var c0 := store.All();
      var err := store.SaveSagaState(tx, next);
      ghost var c1 := store.All();
      if err != NoStoreError {
        return false;
      }
      err := store.UpdateTransactionStatus(tx, next.state, txnVersion);
      ghost var c2 := store.All();
      OnlyForTrans(tx, c0, c1, c2);
      if err != NoStoreError {
        return false;
      }
      store.AppendEvent(tx, e);
      OnlyForTrans(tx, c0, c2, store.All());
      ok := true;
    }

    /** The three writes of a commit, ignoring every error. */
    method MoveLoosely(tx: TxId, next: SagaRow, txnVersion: int, e: OutboxEvent)
      requires store.Has(tx) && e.txId == tx
      modifies store
      ensures store.Has(tx) && OnlyFor(tx, old(store.All()), store.All())
      ensures store.View(tx) == LooseMove(old(store.View(tx)), next, txnVersion, e)
    {
      hide OnlyFor, ViewOf, HasRows, KeyTaken, Store.SaveSagaState, Store.UpdateTransactionStatus, Store.AppendOutbox;
      ghost var c0 := store.All();
      var _ := store.SaveSagaState(tx, next);
      ghost var c1 := store.All();
      var _ := store.UpdateTransactionStatus(tx, next.state, txnVersion);
      ghost var c2 := store.All();
      OnlyForTrans(tx, c0, c1, c2);
      store.AppendEvent(tx, e);
      OnlyForTrans(tx, c0, c2, store.All());
    }

    method SetStep(tx: TxId, k: RowKey, s: StepStatus) returns (ok: bool)
      requires store.Has(tx)
      modifies store
      ensures store.Has(tx) && OnlyFor(tx, old(store.All()), store.All())
      ensures Write(store.View(tx), ok) == Store.UpdateStep(old(store.View(tx)), k, s)
    {
      hide OnlyFor;
      var err := store.UpdateStep(tx, k, s);
      ok := err == NoStoreError;
    }

    /** The body of the success transaction, without its end. */
    method SuccessBody(tx: TxId, snap: Snapshot, step: Step, attempt: nat, state: State, merge: Payload, id: EventId)
      returns (ok: bool)
      requires store.Has(tx)
      modifies store
      ensures store.Has(tx) && OnlyFor(tx, old(store.All()), store.All())
      ensures Write(store.View(tx), ok) ==
              Commits.SuccessBody(tx, old(store.View(tx)), snap, step, attempt, state, merge, id)
    {
      hide StepDoneEvent, NextSaga, ValidPath, OnlyFor, ViewOf, HasRows, StrictMove, Store.UpdateStep;
      ghost var c0 := store.All();
      ok := SetStep(tx, RowKey(step, attempt), StepSucceeded);
      var next := NextSaga(snap.saga, step, state, merge);
      if ok && !ValidPath(snap.saga.state, state, next.state) {
        ok := false;
      } else if ok {
        ghost var c1 := store.All();
        var event := StepDoneEvent(id, tx, step, attempt);
        EventOf(id, tx, step, attempt);
        ok := MoveStrictly(tx, next, snap.txn.version, event);
        OnlyForTrans(tx, c0, c1, store.All());
      }
    }

    method CommitSuccess(tx: TxId, snap: Snapshot, step: Step, attempt: nat, state: State, merge: Payload)
      returns (ok: bool)
      requires store.Has(tx)
      modifies store
      ensures store.Has(tx) && OnlyFor(tx, old(store.All()), store.All())
      ensures Write(store.View(tx), ok) ==
              Commits.CommitSuccess(store.rollbacks, tx, old(store.View(tx)), snap, step, attempt, state, merge,
                                    S.FreshId(Env(tx), old(store.View(tx))))
    {
      hide Commits.SuccessBody, OnlyFor, ViewOf, HasRows;
      var saved := store.All();
      OnlyForSame(tx, saved);
      var id := NewEventId(tx);
      ok := SuccessBody(tx, snap, step, attempt, state, merge, id);
      store.EndTx(saved, ok);
    }

    method CommitFailed(tx: TxId, step: Step, attempt: nat)
      requires store.Has(tx)
      modifies store
      ensures store.Has(tx) && OnlyFor(tx, old(store.All()), store.All())
      ensures store.View(tx) == Commits.CommitFailed(old(store.View(tx)), step, attempt)
    {
      var c0 := store.All();
      var err := store.UpdateStep(tx, RowKey(step, attempt), StepFailed);
      store.EndTx(c0, err == NoStoreError);
    }

    /** The body of the parking transaction, without its end. */
    method ParkedBody(tx: TxId, snap: Snapshot, step: Step, attempt: nat, state: State, merge: Payload, id: EventId)
      returns (ok: bool)
      requires store.Has(tx)
      modifies store
      ensures store.Has(tx) && OnlyFor(tx, old(store.All()), store.All())
      ensures Write(store.View(tx), ok) ==
              Commits.ParkedBody(tx, old(store.View(tx)), snap, step, attempt, state, merge, id)
    {
      hide DedupKey, EventName, StepField, OnlyFor, ViewOf, HasRows, LooseMove;
      ghost var c0 := store.All();
      var _ := SetStep(tx, RowKey(step, attempt), StepFailed);
      ghost var c1 := store.All();
      if !Transition(snap.saga.state, state) {
        return false;
      }
      MoveLoosely(tx, ParkedSaga(snap.saga, state, merge), snap.txn.version,
                  NewEvent(id, tx, TxEnded(state), Some(step), attempt));
      OnlyForTrans(tx, c0, c1, store.All());
      ok := true;
    }

    /** Parks the saga. */
    method PersistTerminal(tx: TxId, snap: Snapshot, step: Step, attempt: nat, state: State, merge: Payload)
      requires store.Has(tx)
      modifies store
      ensures store.Has(tx) && OnlyFor(tx, old(store.All()), store.All())
      ensures store.View(tx) ==
              Commits.CommitParked(store.rollbacks, tx, old(store.View(tx)), snap, step, attempt, state, merge,
                                   S.FreshId(Env(tx), old(store.View(tx)))).tables
    {
      hide Commits.ParkedBody, OnlyFor, ViewOf, HasRows;
      var saved := store.All();
      OnlyForSame(tx, saved);
      var id := NewEventId(tx);
      var ok := ParkedBody(tx, snap, step, attempt, state, merge, id);
      store.EndTx(saved, ok);
    }

    method RunStepOnce(tx: TxId, snap: Snapshot, step: Step, attempt: nat) returns (err: S.Err)
      requires store.Has(tx)
      modifies store, clients
      ensures store.Has(tx) && OnlyFor(tx, old(store.All()), store.All())
      ensures S.Attempt(World(tx), err) == S.RunStepOnce(Env(tx), old(World(tx)), snap, step, attempt)
    {
      hide Commits.CommitSuccess, CommitParked, Commits.CommitFailed, Steps.Execute, Commits.BeginAttempt, OnlyFor,
           ViewOf, HasRows;
      ghost var c0 := store.All();
      var open := BeginAttempt(tx, step, attempt);
      if !open {
        ClosedAttempt(old(store.View(tx)), step, attempt);
        return S.NoError;
      }
      ghost var c1 := store.All();
      var out := clients.Execute(step, snap.saga.payload);
      match out {
      case Success(state, merge) =>
        var ok := CommitSuccess(tx, snap, step, attempt, state, merge);
        err := if ok then S.NoError else S.Retriable;
      case Parked(state, merge) =>
        PersistTerminal(tx, snap, step, attempt, state, merge);
        err := S.NoError;
      case Error(nonRetriable) =>
        CommitFailed(tx, step, attempt);
        err := if nonRetriable then S.NonRetriable else S.Retriable;
      }
      OnlyForTrans(tx, c0, c1, store.All());
    }

    method RunStepWithRetry(tx: TxId, snap: Snapshot, step: Step) returns (ok: bool)
      requires store.Has(tx)
      modifies store, clients
      ensures store.Has(tx) && OnlyFor(tx, old(store.All()), store.All())
      ensures S.Ran(World(tx), ok) == S.RunStepWithRetry(Env(tx), old(World(tx)), snap, step, 1)
    {
      hide S.RunStepOnce, OnlyFor, ViewOf, HasRows;
      ghost var c0 := store.All();
      OnlyForSame(tx, c0);
      var attempt := 1;
      while attempt <= maxRetries
        invariant attempt >= 1
        invariant store.Has(tx) && OnlyFor(tx, c0, store.All())
        invariant S.RunStepWithRetry(Env(tx), World(tx), snap, step, attempt) ==
                  S.RunStepWithRetry(Env(tx), old(World(tx)), snap, step, 1)
        decreases maxRetries - attempt
      {
        ghost var c1 := store.All();
        var err := RunStepOnce(tx, snap, step, attempt);
        OnlyForTrans(tx, c0, c1, store.All());
        if err == S.NoError {
          return true;
        }
        if err == S.NonRetriable {
          return false;
        }
        var cancelled := clients.Wait();
        if cancelled {
          return false;
        }
        attempt := attempt + 1;
      }
      ok := false;
    }

    method MarkRow(tx: TxId, step: Step, s: StepStatus)
      requires store.Has(tx)
      modifies store
      ensures store.Has(tx) && OnlyFor(tx, old(store.All()), store.All())
      ensures store.View(tx) == Commits.MarkRow(old(store.View(tx)), step, s)
    {
      var row := store.LoadStep(tx, RowKey(step, 1));
      if row.Some? {
        var _ := store.UpdateStep(tx, RowKey(step, 1), s);
      }
    }

    /** One step of a cascade. */
    method CompensateStep(tx: TxId, sg: SagaRow, step: Step) returns (ok: bool)
      requires store.Has(tx)
      modifies store, clients
      ensures store.Has(tx) && OnlyFor(tx, old(store.All()), store.All())
      ensures var u := Steps.Compensate(clients.o, old(clients.fx), sg.payload, step);
              && Undone(clients.fx, ok) == u
              && store.View(tx) == Commits.MarkRow(Commits.MarkRow(old(store.View(tx)), step, StepCompensating), step,
                                                   if ok then StepCompensated else StepFailed)
    {
      hide Commits.MarkRow, Steps.Compensate, OnlyFor, ViewOf, HasRows;
      ghost var c0 := store.All();
      MarkRow(tx, step, StepCompensating);
      ghost var c1 := store.All();
      ok := clients.Compensate(step, sg.payload);
      MarkRow(tx, step, if ok then StepCompensated else StepFailed);
      OnlyForTrans(tx, c0, c1, store.All());
    }

    /** The walk of a cascade from the failed step back to the first. */
    method CompensateSteps(tx: TxId, sg: SagaRow, failed: Step) returns (ok: bool)
      requires store.Has(tx)
      modifies store, clients
      ensures store.Has(tx) && OnlyFor(tx, old(store.All()), store.All())
      ensures S.Ran(World(tx), ok) == S.CompensateFrom(Env(tx), old(World(tx)), sg, Position(failed))
    {
      hide Commits.MarkRow, Steps.Compensate, OnlyFor, ViewOf, HasRows;
      ghost var c0 := store.All();
      OnlyForSame(tx, c0);
      var i: int := Position(failed);
      while i >= 0
        invariant -1 <= i < |STEP_ORDER|
        invariant store.Has(tx) && OnlyFor(tx, c0, store.All())
        invariant S.CompensateFrom(Env(tx), World(tx), sg, i) ==
                  S.CompensateFrom(Env(tx), old(World(tx)), sg, Position(failed))
      {
        ghost var c1 := store.All();
        var undone := CompensateStep(tx, sg, STEP_ORDER[i]);
        OnlyForTrans(tx, c0, c1, store.All());
        if !undone {
          return false;
        }
        i := i - 1;
      }
      ok := true;
    }

    method CompensateCascade(tx: TxId, failed: Step) returns (ok: bool)
      requires store.Has(tx)
      modifies store, clients
      ensures store.Has(tx) && OnlyFor(tx, old(store.All()), store.All())
      ensures S.Ran(World(tx), ok) == S.CompensateCascade(Env(tx), old(World(tx)), failed)
    {
      hide DedupKey, EventName, StepField, S.CompensateFrom, OnlyFor, ViewOf, HasRows, LooseMove;
      var saga := store.LoadSagaState(tx);
      var row := store.LoadTx(tx);
      var sg, txn := saga.value, row.value;
      ghost var c0 := store.All();
      ok := CompensateSteps(tx, sg, failed);
      ghost var c1 := store.All();
      var target := CascadeTarget(ok);
      var id := NewEventId(tx);
      MoveLoosely(tx, CascadedSaga(sg, target), txn.version, NewEvent(id, tx, TxEnded(target), None, 0));
      OnlyForTrans(tx, c0, c1, store.All());
    }

    /** The commit of a confirmation, from a saga row and a transaction row loaded before. */
    method PersistConfirmed(tx: TxId, sg: SagaRow, txn: TxRow)
      requires store.Has(tx)
      modifies store
      ensures store.Has(tx) && OnlyFor(tx, old(store.All()), store.All())
      ensures store.View(tx) ==
              CommitConfirmed(store.rollbacks, tx, old(store.View(tx)), sg, txn,
                              S.FreshId(Env(tx), old(store.View(tx)))).tables
    {
      hide DedupKey, EventName, StepField, OnlyFor, ViewOf, HasRows, StrictMove;
      var c0 := store.All();
      OnlyForSame(tx, c0);
      if !Transition(sg.state, Confirmed) {
        store.EndTx(c0, false);
        return;
      }
      var id := NewEventId(tx);
      var ok := MoveStrictly(tx, ConfirmedSaga(sg), txn.version, NewEvent(id, tx, TxConfirmed, None, 0));
      store.EndTx(c0, ok);
    }

    method AdvanceToConfirmed(tx: TxId)
      requires store.Has(tx)
      modifies store, clients
      ensures store.Has(tx) && OnlyFor(tx, old(store.All()), store.All())
      ensures World(tx) == S.AdvanceToConfirmed(Env(tx), old(World(tx)))
    {
      hide CommitConfirmed, OnlyFor, ViewOf, HasRows;
      OnlyForSame(tx, store.All());
      var saga := store.LoadSagaState(tx);
      var sg := saga.value;
      if TextOf(sg.payload, TxHash) == "" {
        return;
      }
      var left := clients.o.polls(clients.fx.clock);
      ghost var all := S.Poll(clients.o, clients.fx, left);
      while true
        invariant store.All() == old(store.All())
        invariant S.Poll(clients.o, clients.fx, left) == all
        decreases left
      {
        var confirmed := clients.Status();
        if confirmed {
          var txn := store.LoadTx(tx);
          PersistConfirmed(tx, sg, txn.value);
          return;
        }
        if left == 0 {
          return;
        }
        left := left - 1;
      }
    }

    /** One granted turn of Run's loop on a saga that is not terminal. */
    method Turn(tx: TxId, txn: TxRow, sg: SagaRow) returns (verdict: S.Verdict)
      requires store.Has(tx) && txn == store.View(tx).txn && sg == store.View(tx).saga && !sg.state.Terminal()
      modifies store, clients
      ensures store.Has(tx) && OnlyFor(tx, old(store.All()), store.All())
      ensures S.Progress(World(tx), verdict) == S.Round(Env(tx), old(World(tx)))
    {
      hide S.RunStepWithRetry, S.CompensateCascade, S.AdvanceToConfirmed, OnlyFor, ViewOf, HasRows;
      ghost var c0 := store.All();
      var ok := RunStepWithRetry(tx, Snapshot(txn, sg), sg.step);
      ghost var c1 := store.All();
      if !ok {
        var undone := CompensateCascade(tx, sg.step);
        OnlyForTrans(tx, c0, c1, store.All());
        return if undone then S.Finished else S.CompensationError;
      }
      var sg2 := store.LoadSagaState(tx);
      if sg2.value.state.Terminal() {
        return S.Finished;
      }
      if sg2.value.state == Broadcasted {
        AdvanceToConfirmed(tx);
        OnlyForTrans(tx, c0, c1, store.All());
      }
      verdict := S.Running;
    }

    /** Drives the saga of `tx` to a terminal state. The loop ends because every granted turn moves
        the saga to a later step and the lease is refused only so often. */
    method Run(tx: TxId) returns (r: RunResult)
      requires store.Has(tx) ==> Ready(tx, store.View(tx))
      modifies store, clients, lease
      ensures !old(store.Has(tx)) ==>
                r == NoSuchTransaction && store.All() == old(store.All()) && clients.fx == old(clients.fx)
      ensures OnlyFor(tx, old(store.All()), store.All())
      ensures old(store.Has(tx)) ==>
                && store.Has(tx) && Ready(tx, store.View(tx)) && store.View(tx).saga.state.Terminal()
                && S.Progress(World(tx), if r == CompensationFailed then S.CompensationError else S.Finished)
                   == S.Run(Env(tx), old(World(tx)), |STEP_ORDER|)
    {
      hide Ready, S.Round, OnlyFor, ViewOf;
      ghost var c0 := store.All();
      OnlyForSame(tx, c0);
      if tx !in store.txs || tx !in store.sagas {
        return NoSuchTransaction;
      }
      hide HasRows;
      ghost var n: nat := |STEP_ORDER|;
      while true
        invariant store.Has(tx) && OnlyFor(tx, c0, store.All())
        invariant Ready(tx, store.View(tx))
        invariant S.Run(Env(tx), World(tx), n) == S.Run(Env(tx), old(World(tx)), |STEP_ORDER|)
        invariant n > 0
        invariant !store.View(tx).saga.state.Terminal() ==> |STEP_ORDER| - Position(store.View(tx).saga.step) <= n
        decreases n, lease.refusals
      {
        var row := store.LoadTx(tx);
        var saga := store.LoadSagaState(tx);
        var txn, sg := row.value, saga.value;
        if sg.state.Terminal() {
          TerminalRunIsNoop(Env(tx), World(tx), n);
          return Done;
        }
        var granted := lease.Acquire();
        if granted {
          RoundMoves(Env(tx), World(tx));
          ghost var c1 := store.All();
          var verdict := Turn(tx, txn, sg);
          OnlyForTrans(tx, c0, c1, store.All());
          if verdict != S.Running {
            return if verdict == S.Finished then Done else CompensationFailed;
          }
          n := n - 1;
        }
      }
    }

    /** The manual compensation of an operator: refused on a terminal saga, a cascade otherwise. */
    method ManualCompensate(tx: TxId) returns (accepted: bool, ok: bool)
      requires store.Has(tx)
      modifies store, clients
      ensures store.Has(tx) && OnlyFor(tx, old(store.All()), store.All())
      ensures accepted <==> !old(store.View(tx)).saga.state.Terminal()
      ensures !accepted ==> World(tx) == old(World(tx)) && !ok
      ensures accepted ==>
                S.Ran(World(tx), ok) == S.CompensateCascade(Env(tx), old(World(tx)), old(store.View(tx)).saga.step)
    {
      var saga := store.LoadSagaState(tx);
      var sg := saga.value;
      if sg.state.Terminal() {
        return false, false;
      }
      ok := CompensateCascade(tx, sg.step);
      accepted := true;
    }
  }

  method CopyInto(target: Payload, source: Payload) returns (out: Payload)
    ensures out == target + source
  {
    out := target;
    var rest := source.Keys;
    while rest != {}
      invariant rest <= source.Keys
      invariant out == target + (source - rest)
      decreases rest
    {
      var k :| k in rest;
      out := out[k := source[k]];
      rest := rest - {k};
    }
    assert source - {} == source;
  }

  /** Copies both payloads into a fresh one, the step's entries over the saga's. */
  method FillPayload(base: Payload, merge: Payload) returns (out: Payload)
    ensures out == MergePayload(base, merge)
    ensures out.Keys == base.Keys + merge.Keys
    ensures forall k :: k in out ==> out[k] == if k in merge then merge[k] else base[k]
  {
    out := map[];
    out := CopyInto(out, base);
    out := CopyInto(out, merge);
    assert map[] + base == base;
  }
}
