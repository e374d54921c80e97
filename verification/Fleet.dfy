/** Many transactions in one store: runs, creations and relays of others leave a transaction's
    invariant alone, and recovery drives every purchase to its end. */
module Fleet {
  import opened StateMachine
  import opened Dedup
  import opened Store
  import opened Invariants
  import opened RunTheorems
  import opened Outbox
  import opened RelayRaces
  import opened MemStores
  import opened Relay
  import opened Runner

  /** Every saga of the store is in a state its executor may start from. */
  ghost predicate Sane(c: Contents) {
    && c.sagas.Keys == c.txs.Keys
    && KeysFaithful(c.outbox) && KeysDistinct(c.outbox)
    && (forall e :: e in c.outbox ==> e.txId in c.txs)
    && forall tx :: HasRows(c, tx) ==> Ready(tx, ViewOf(c, tx))
  }

  lemma SharedKeys(tx: TxId, t: Tables)
    requires Ready(tx, t)
    ensures KeysFaithful(t.outbox) && KeysDistinct(t.outbox)
  {
  }

  lemma {:induction false} OthersCount(tx: TxId, a: seq<OutboxEvent>, b: seq<OutboxEvent>, other: TxId)
    requires a <= b && tx != other && forall i :: |a| <= i < |b| ==> b[i].txId == tx
    ensures EventCount(b, other) == EventCount(a, other)
    decreases |b|
  {
    if a == b {
    } else {
      OthersCount(tx, a, b[..|b| - 1], other);
    }
  }

  /** Events of one transaction do not touch the invariant of another. */
  lemma OtherStaysCore(tx: TxId, t: Tables, outbox: seq<OutboxEvent>, other: TxId)
    requires Core(other, t) && other != tx && t.outbox <= outbox
    requires forall i :: |t.outbox| <= i < |outbox| ==> outbox[i].txId == tx
    requires KeysFaithful(outbox) && KeysDistinct(outbox)
    ensures Core(other, t.(outbox := outbox))
  {
    OthersCount(tx, t.outbox, outbox, other);
    hide EventCount, KeysDistinct, KeysFaithful, Shape;
    forall e | e in outbox && e.txId == other ensures EventRank(e.eventType) <= Rank(t.saga.state) {
      var i :| 0 <= i < |outbox| && outbox[i] == e;
      assert e in t.outbox;
    }
  }

  /** What happens for one transaction does not touch the invariant of another. */
  lemma OtherStaysReady(tx: TxId, a: Contents, b: Contents, other: TxId)
    requires OnlyFor(tx, a, b) && other != tx && HasRows(a, other) && Ready(other, ViewOf(a, other))
    requires KeysFaithful(b.outbox) && KeysDistinct(b.outbox)
    ensures HasRows(b, other) && Ready(other, ViewOf(b, other))
    ensures b.sagas[other] == a.sagas[other]
  {
    hide Core, RowTable;
    OtherStaysCore(tx, ViewOf(a, other), b.outbox, other);
    assert ViewOf(b, other) == ViewOf(a, other).(outbox := b.outbox);
  }

  lemma ViewShares(c: Contents, tx: TxId)
    requires HasRows(c, tx)
    ensures ViewOf(c, tx).outbox == c.outbox && ViewOf(c, tx).saga == c.sagas[tx]
  {
  }

  lemma RunKeepsSane(tx: TxId, a: Contents, b: Contents)
    requires Sane(a) && OnlyFor(tx, a, b) && HasRows(b, tx) && Ready(tx, ViewOf(b, tx))
    ensures Sane(b)
    ensures forall other :: other != tx && other in a.sagas ==> other in b.sagas && b.sagas[other] == a.sagas[other]
    ensures b.sagas.Keys == a.sagas.Keys + {tx}
  {
    hide Ready, KeysFaithful, KeysDistinct, ViewOf;
    assert ViewOf(b, tx).outbox == b.outbox by { ViewShares(b, tx); }
    SharedKeys(tx, ViewOf(b, tx));
    forall other | HasRows(b, other) ensures Ready(other, ViewOf(b, other)) {
      if other != tx {
        OtherStaysReady(tx, a, b, other);
      }
    }
    forall e | e in b.outbox ensures e.txId in b.txs {
      var i :| 0 <= i < |b.outbox| && b.outbox[i] == e;
      if i < |a.outbox| {
        assert a.outbox[i] in a.outbox;
      }
    }
    forall other ensures other in b.sagas <==> other in a.sagas || other == tx {
    }
    forall other ensures other in b.txs <==> other in a.txs || other == tx {
    }
  }

  /** A new purchase joins the others without disturbing them. */
  lemma CreationKeepsSane(c: Contents, tx: TxId, id: EventId)
    requires Sane(c) && PipeFree(tx) && tx !in c.txs
    ensures Sane(WithTransaction(c, tx, id))
  {
    hide Core, NothingDone, ViewOf, KeysFaithful, KeysDistinct, WithTransaction, OnlyFor;
    CreatedContents(c, tx, id);
    RunKeepsSane(tx, c, WithTransaction(c, tx, id));
  }

  lemma {:induction false} BareCount(a: seq<OutboxEvent>, b: seq<OutboxEvent>, tx: TxId)
    requires |a| == |b| && forall i :: 0 <= i < |a| ==> b[i].txId == a[i].txId
    ensures EventCount(a, tx) == EventCount(b, tx)
    decreases |a|
  {
    if a != [] {
      BareCount(a[..|a| - 1], b[..|b| - 1], tx);
    }
  }

  lemma BareFacts(a: seq<OutboxEvent>, b: seq<OutboxEvent>)
    requires Bare(a) == Bare(b)
    ensures |a| == |b| && forall i :: 0 <= i < |a| ==> b[i] == a[i].(status := b[i].status)
  {
    assert |Bare(a)| == |Bare(b)|;
    forall i | 0 <= i < |a| ensures b[i] == a[i].(status := b[i].status) {
      assert Bare(a)[i] == Bare(b)[i];
    }
  }

  lemma StatusKeepsKeys(a: seq<OutboxEvent>, b: seq<OutboxEvent>)
    requires Bare(a) == Bare(b) && KeysFaithful(a) && KeysDistinct(a)
    ensures KeysFaithful(b) && KeysDistinct(b)
  {
    BareFacts(a, b);
    forall e | e in b ensures Faithful(e) {
      var i :| 0 <= i < |b| && b[i] == e;
      assert a[i] in a;
    }
  }

  /** Delivery statuses are no business of the executor. */
  lemma StatusKeepsCore(tx: TxId, t: Tables, outbox: seq<OutboxEvent>)
    requires Core(tx, t) && Bare(outbox) == Bare(t.outbox)
    ensures Core(tx, t.(outbox := outbox))
  {
    BareFacts(t.outbox, outbox);
    BareCount(t.outbox, outbox, tx);
    StatusKeepsKeys(t.outbox, outbox);
    hide EventCount, KeysFaithful, KeysDistinct, Shape;
    forall e | e in outbox && e.txId == tx ensures EventRank(e.eventType) <= Rank(t.saga.state) {
      var i :| 0 <= i < |outbox| && outbox[i] == e;
      assert t.outbox[i] in t.outbox;
    }
  }

  lemma BareHead(e: OutboxEvent, a: seq<OutboxEvent>, b: seq<OutboxEvent>)
    ensures Bare(a) == Bare(b) ==> forall s :: Bare([e.(status := s)] + b) == Bare([e] + a)
    ensures Bare(a) == Bare(b) ==> Bare([e] + b) == Bare([e] + a)
  {
    if Bare(a) == Bare(b) {
      BareFacts(a, b);
    }
  }

  lemma {:induction false} ClaimBare(outbox: seq<OutboxEvent>, limit: int)
    ensures Bare(Claim(outbox, limit).outbox) == Bare(outbox)
    decreases |outbox|
  {
    if outbox != [] {
      var e, rest := outbox[0], outbox[1..];
      BareHead(e, rest, Claim(rest, limit).outbox);
      BareHead(e, rest, Claim(rest, limit - 1).outbox);
      BareHead(e, rest, rest);
      ClaimBare(rest, limit);
      ClaimBare(rest, limit - 1);
      assert outbox == [e] + rest;
      hide Bare;
    }
  }

  lemma {:induction false} MarkOneBare(outbox: seq<OutboxEvent>, id: EventId)
    ensures Bare(MarkOne(outbox, id)) == Bare(outbox)
    decreases |outbox|
  {
    if outbox != [] {
      var e, rest := outbox[0], outbox[1..];
      MarkOneBare(rest, id);
      BareHead(e, rest, MarkOne(rest, id));
      BareHead(e, rest, rest);
      assert outbox == [e] + rest;
      hide Bare;
    }
  }

  lemma {:induction false} MarkBare(outbox: seq<OutboxEvent>, ids: seq<EventId>)
    ensures Bare(MarkAll(outbox, ids)) == Bare(outbox)
    decreases |ids|
  {
    if ids != [] {
      MarkOneBare(outbox, ids[0]);
      MarkBare(MarkOne(outbox, ids[0]), ids[1..]);
    }
  }

  /** A drain changes nothing the executor relies on, whatever the publisher accepts. */
  lemma DrainKeepsSane(c: Contents, limit: int, good: nat)
    requires Sane(c)
    ensures Sane(c.(outbox := Drain(c.outbox, limit, good).outbox))
  {
    var events := Claim(c.outbox, limit).events;
    var n := if good < |events| then good else |events|;
    ClaimBare(c.outbox, limit);
    MarkBare(Claim(c.outbox, limit).outbox, Ids(events[..n]));
    var outbox := Drain(c.outbox, limit, good).outbox;
    hide Drain, Core, KeysFaithful, KeysDistinct, Bare, RowTable, Claim;
    StatusKeepsKeys(c.outbox, outbox);
    var c' := c.(outbox := outbox);
    BareFacts(c.outbox, outbox);
    forall e | e in outbox ensures e.txId in c.txs {
      var i :| 0 <= i < |outbox| && outbox[i] == e;
      assert c.outbox[i] in c.outbox;
    }
    forall tx | HasRows(c', tx) ensures Ready(tx, ViewOf(c', tx)) {
      StatusKeepsCore(tx, ViewOf(c, tx), outbox);
    }
  }

  lemma SaneView(c: Contents, tx: TxId)
    requires Sane(c) && tx in c.sagas
    ensures HasRows(c, tx) && Ready(tx, ViewOf(c, tx))
  {
  }

  /** Recovery after a restart: the sagas still in flight are enqueued and run, whatever the
      partners answer. Every one of them ends, the others stay as they were, and the store is as
      fit for further runs as before. */
  method Recover(executor: Executor)
    requires Sane(executor.store.All())
    modifies executor.store, executor.clients, executor.lease
    ensures Sane(executor.store.All())
    ensures executor.store.sagas.Keys == old(executor.store.sagas.Keys)
    ensures forall tx :: tx in executor.store.sagas ==> executor.store.sagas[tx].state.Terminal()
    ensures forall tx :: tx in old(executor.store.sagas) && old(executor.store.sagas)[tx].state.Terminal() ==>
              executor.store.sagas[tx] == old(executor.store.sagas)[tx]
  {
    hide Sane, ViewOf, OnlyFor, Ready;
    var store := executor.store;
    var ids := store.ListInflightSagaIds();
    var i := 0;
    while i < |ids|
      invariant i <= |ids|
      invariant Sane(store.All())
      invariant store.sagas.Keys == old(store.sagas).Keys
      invariant forall j :: 0 <= j < i ==> store.sagas[ids[j]].state.Terminal()
      invariant forall tx :: tx in store.sagas && tx !in ids ==> store.sagas[tx] == old(store.sagas)[tx]
    {
      ghost var c := store.All();
      var tx := ids[i];
      assert tx in ids;
      SaneView(c, tx);
      var _ := executor.Run(tx);
      ViewShares(store.All(), tx);
      RunKeepsSane(tx, c, store.All());
      i := i + 1;
    }
  }
}
