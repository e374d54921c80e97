/** The stand-alone confirmation poller. */
module ConfirmPolling {
  import opened Options
  import opened StateMachine
  import opened Dedup
  import opened Store
  import opened Commits
  import opened MemStores
  import opened PartnerClients
  import opened Runner
  import S = ExecutorSpec

  datatype PollResult =
    | ConfirmedNow
    | ConfirmedBefore
    | DeadlineExceeded
    | NotBroadcasted
    | MissingHash
    | NoSuchSaga

  /** A confirmation with rows loaded just before always commits. */
  lemma ConfirmLands(rollback: bool, tx: TxId, t: Tables, id: EventId)
    requires t.saga.state == Broadcasted
    ensures CommitConfirmed(rollback, tx, t, t.saga, t.txn, id).ok
    ensures CommitConfirmed(rollback, tx, t, t.saga, t.txn, id).tables.saga == ConfirmedSaga(t.saga)
  {
    hide KeyTaken;
  }

  /** Unlike the inline poller it reloads the saga before every question. Both commit the same way. */
  class ConfirmPoller {
    const executor: Executor

    constructor (executor: Executor)
      ensures this.executor == executor
    {
      this.executor := executor;
    }

    /** On a saga waiting for confirmation it ends as the inline poller does, and says whether it
        committed; on any other saga it changes nothing and asks nobody. */
    method Run(tx: TxId) returns (r: PollResult)
      requires tx in executor.store.sagas ==> tx in executor.store.txs
      modifies executor.store, executor.clients
      ensures OnlyFor(tx, old(executor.store.All()), executor.store.All())
      ensures r == NoSuchSaga <==> tx !in old(executor.store.sagas)
      ensures r == NoSuchSaga ==>
                && executor.store.All() == old(executor.store.All())
                && executor.clients.fx == old(executor.clients.fx)
      ensures tx in old(executor.store.sagas) ==>
                && executor.store.Has(tx)
                && var sg := old(executor.store.View(tx)).saga;
                   && (sg.state.Broadcasted? ==>
                         executor.World(tx) == S.AdvanceToConfirmed(executor.Env(tx), old(executor.World(tx))))
                   && (!sg.state.Broadcasted? ==>
                         executor.World(tx) == old(executor.World(tx)))
                   && (r == ConfirmedBefore <==> sg.state in {Confirmed, Ledgered, Completed})
                   && (r == NotBroadcasted <==> sg.state !in {Broadcasted, Confirmed, Ledgered, Completed})
                   && (r == MissingHash <==> sg.state.Broadcasted? && TextOf(sg.payload, TxHash) == "")
                   && (r == ConfirmedNow <==>
                         sg.state.Broadcasted? && executor.store.View(tx).saga == ConfirmedSaga(sg))
    {
      hide OnlyFor, ViewOf, CommitConfirmed, KeyTaken;
      var store, clients := executor.store, executor.clients;
      OnlyForSame(tx, store.All());
      var left := clients.o.polls(clients.fx.clock);
      ghost var all := S.Poll(clients.o, clients.fx, left);
      ghost var waiting := store.Has(tx) && store.View(tx).saga.state.Broadcasted?
                           && TextOf(store.View(tx).saga.payload, TxHash) != "";
      while true
        invariant store.All() == old(store.All())
        invariant S.Poll(clients.o, clients.fx, left) == all
        invariant waiting || clients.fx == old(clients.fx)
        decreases left
      {
        var saga := store.LoadSagaState(tx);
        if saga.None? {
          return NoSuchSaga;
        }
        var sg := saga.value;
        if sg.state in {Confirmed, Ledgered, Completed} {
          return ConfirmedBefore;
        }
        if sg.state != Broadcasted {
          return NotBroadcasted;
        }
        if TextOf(sg.payload, TxHash) == "" {
          return MissingHash;
        }
        var confirmed := clients.Status();
        if confirmed {
          var txn := store.LoadTx(tx);
          ConfirmLands(store.rollbacks, tx, store.View(tx), S.FreshId(executor.Env(tx), store.View(tx)));
          executor.PersistConfirmed(tx, sg, txn.value);
          return ConfirmedNow;
        }
        if left == 0 {
          return DeadlineExceeded;
        }
        left := left - 1;
      }
    }
  }
}
