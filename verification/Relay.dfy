/** The relay as it runs: claim a batch, publish it event by event, mark what was accepted. */
module Relay {
  import opened Store
  import opened Outbox
  import opened MemStores

  /** The in-memory publisher, which can be told to fail one call. */
  class InMemoryPublisher {
    var events: seq<OutboxEvent>
    var calls: nat
    const failOn: int

    constructor (failOn: int)
      ensures this.failOn == failOn && events == [] && calls == 0
    {
      this.failOn := failOn;
      events, calls := [], 0;
    }

    method Publish(e: OutboxEvent) returns (ok: bool)
      modifies this
      ensures calls == old(calls) + 1
      ensures ok <==> !(failOn > 0 && calls == failOn)
      ensures events == if ok then old(events) + [e] else old(events)
    {
      calls := calls + 1;
      if failOn > 0 && calls == failOn {
        return false;
      }
      events := events + [e];
      ok := true;
    }
  }

  /** How many of the next `n` publishes go through before the injected failure, if it is among
      them. */
  function GoodCalls(failOn: int, calls: nat, n: nat): nat {
    if calls < failOn <= calls + n then failOn - calls - 1 else n
  }

  class OutboxRelay {
    const store: MemStore
    const publisher: InMemoryPublisher
    const batchSize: int

    /** A batch size that is not positive becomes 100. */
    constructor (store: MemStore, publisher: InMemoryPublisher, batchSize: int)
      ensures this.store == store && this.publisher == publisher
      ensures this.batchSize == if batchSize <= 0 then 100 else batchSize
    {
      this.store, this.publisher := store, publisher;
      this.batchSize := if batchSize <= 0 then 100 else batchSize;
    }

    /** One drain. The publisher gets the claimed events in order up to the first failure, and
        exactly those it accepted are marked. */
    method DrainOnce()
      modifies store`outbox, publisher
      ensures var good := GoodCalls(publisher.failOn, old(publisher.calls),
              |Claim(old(store.outbox), batchSize).events|);
              var d := Drain(old(store.outbox), batchSize, good);
              store.outbox == d.outbox && publisher.events == old(publisher.events) + d.accepted
    {
      hide Claim;
      var events := store.ClaimOutboxPending(batchSize);
      ghost var good := GoodCalls(publisher.failOn, publisher.calls, |events|);
      var publishedIds := [];
      var i := 0;
      while i < |events|
        invariant i <= good <= |events|
        invariant publisher.calls == old(publisher.calls) + i
        invariant publisher.events == old(publisher.events) + events[..i]
        invariant publishedIds == Ids(events[..i])
        invariant Claimed(store.outbox, events) == Claim(old(store.outbox), batchSize)
      {
        var ok := publisher.Publish(events[i]);
        if !ok {
          break;
        }
        publishedIds := publishedIds + [events[i].eventId];
        assert events[..i + 1] == events[..i] + [events[i]];
        assert Ids(events[..i + 1]) == publishedIds;
        i := i + 1;
      }
      assert i == good;
      assert Ids(events[..good]) == publishedIds;
      if publishedIds != [] {
        store.MarkOutboxPublished(publishedIds);
      }
    }
  }
}
