/** The outbox as the relays see it: claiming a batch, marking it published, and any number of
    relays doing so while writers append. */
module Outbox {
  import opened Store

  datatype Claimed = Claimed(outbox: seq<OutboxEvent>, events: seq<OutboxEvent>)

  /** A scan that turns PENDING events INFLIGHT and stops once the batch has `limit` of them. */
  function Claim(outbox: seq<OutboxEvent>, limit: int): Claimed {
    if outbox == [] then Claimed([], [])
    else
      var e, rest := outbox[0], outbox[1..];
      if !e.status.OutboxPending? then
        var c := Claim(rest, limit);
        Claimed([e] + c.outbox, c.events)
      else
        var e' := e.(status := OutboxInflight);
        if 1 >= limit then Claimed([e'] + rest, [e'])
        else
          var c := Claim(rest, limit - 1);
          Claimed([e'] + c.outbox, [e'] + c.events)
  }

  /** The first event with the id becomes PUBLISHED. */
  function MarkOne(outbox: seq<OutboxEvent>, id: EventId): seq<OutboxEvent> {
    if outbox == [] then []
    else if outbox[0].eventId == id then [outbox[0].(status := OutboxPublished)] + outbox[1..]
    else [outbox[0]] + MarkOne(outbox[1..], id)
  }

  function MarkAll(outbox: seq<OutboxEvent>, ids: seq<EventId>): seq<OutboxEvent>
    decreases |ids|
  {
    if ids == [] then outbox else MarkAll(MarkOne(outbox, ids[0]), ids[1..])
  }

  /** One position of the scan, passed over or taken. */
  lemma ClaimStep(done: seq<OutboxEvent>, taken: seq<OutboxEvent>, rest: seq<OutboxEvent>, limit: int)
    requires rest != []
    ensures var e, e' := rest[0], rest[0].(status := OutboxInflight);
            var c := Claim(rest, limit);
            Claimed(done + c.outbox, taken + c.events) ==
            if !e.status.OutboxPending? then
              Claimed(done + [e] + Claim(rest[1..], limit).outbox, taken + Claim(rest[1..], limit).events)
            else if limit <= 1 then Claimed(done + [e'] + rest[1..], taken + [e'])
            else
              Claimed(done + [e'] + Claim(rest[1..], limit - 1).outbox,
                taken + [e'] + Claim(rest[1..], limit - 1).events)
  {
  }

  lemma NothingBefore(c: Claimed)
    ensures Claimed([] + c.outbox, [] + c.events) == c
  {
    assert [] + c.outbox == c.outbox && [] + c.events == c.events;
  }

  lemma ClaimNothing(limit: int)
    ensures Claim([], limit) == Claimed([], [])
  {
  }

  lemma {:induction false} MarkOneFirst(outbox: seq<OutboxEvent>, id: EventId, i: nat)
    requires i <= |outbox| && forall j :: 0 <= j < i ==> outbox[j].eventId != id
    requires i < |outbox| ==> outbox[i].eventId == id
    ensures MarkOne(outbox, id) == if i < |outbox| then outbox[i := outbox[i].(status := OutboxPublished)] else outbox
    decreases i
  {
    if i > 0 {
      var rest := outbox[1..];
      assert forall j :: 0 <= j < |rest| ==> rest[j] == outbox[j + 1];
      MarkOneFirst(rest, id, i - 1);
      assert outbox == [outbox[0]] + rest;
    }
  }

  function Ids(events: seq<OutboxEvent>): (ids: seq<EventId>)
    ensures |ids| == |events|
  {
    seq(|events|, i requires 0 <= i < |events| => events[i].eventId)
  }

  function WithStatus(events: seq<OutboxEvent>, s: OutboxStatus): seq<OutboxEvent> {
    seq(|events|, i requires 0 <= i < |events| => events[i].(status := s))
  }

  ghost predicate IdsDistinct(outbox: seq<OutboxEvent>) {
    forall i, j :: 0 <= i < j < |outbox| ==> outbox[i].eventId != outbox[j].eventId
  }

  /** How many events come before the first PENDING one. */
  function FirstPending(outbox: seq<OutboxEvent>): (p: nat)
    ensures p <= |outbox|
    ensures forall i :: 0 <= i < p ==> !outbox[i].status.OutboxPending?
    ensures p < |outbox| ==> outbox[p].status.OutboxPending?
  {
    if outbox == [] || outbox[0].status.OutboxPending? then 0 else 1 + FirstPending(outbox[1..])
  }

  /** PENDING events form a suffix: whatever was claimed was claimed in append order. */
  ghost predicate PendingSuffix(outbox: seq<OutboxEvent>) {
    forall i :: FirstPending(outbox) <= i < |outbox| ==> outbox[i].status.OutboxPending?
  }

  /** How many events a claim takes; a limit below one still takes one. */
  function BatchOf(pending: nat, limit: int): (k: nat)
    ensures k <= pending
  {
    if pending == 0 then 0 else if limit <= 1 then 1 else if limit <= pending then limit else pending
  }

  /** The events a claim takes: the next ones in append order. */
  function Batch(outbox: seq<OutboxEvent>, limit: int): seq<OutboxEvent> {
    var p := FirstPending(outbox);
    outbox[p..p + BatchOf(|outbox| - p, limit)]
  }

  /** The outbox with the `k` events from position `p` on turned INFLIGHT. */
  function InflightAt(outbox: seq<OutboxEvent>, p: nat, k: nat): seq<OutboxEvent>
    requires p + k <= |outbox|
  {
    outbox[..p] + WithStatus(outbox[p..p + k], OutboxInflight) + outbox[p + k..]
  }

  lemma InflightRest(outbox: seq<OutboxEvent>, p: nat, k: nat)
    requires outbox != [] && p + k <= |outbox| - 1
    ensures InflightAt(outbox, p + 1, k) == [outbox[0]] + InflightAt(outbox[1..], p, k)
    ensures outbox[1..][p..p + k] == outbox[p + 1..p + 1 + k]
  {
  }

  lemma InflightHead(outbox: seq<OutboxEvent>, k: nat)
    requires outbox != [] && k <= |outbox| - 1
    ensures InflightAt(outbox, 0, k + 1) == [outbox[0].(status := OutboxInflight)] + InflightAt(outbox[1..], 0, k)
    ensures WithStatus(outbox[0..k + 1], OutboxInflight) ==
            [outbox[0].(status := OutboxInflight)] + WithStatus(outbox[1..][0..k], OutboxInflight)
  {
  }

  lemma ClaimUnrolled(outbox: seq<OutboxEvent>, limit: int)
    requires outbox != []
    ensures var e, rest := outbox[0], outbox[1..];
            var e' := e.(status := OutboxInflight);
            Claim(outbox, limit) ==
            if FirstPending(outbox) > 0 then Claimed([e] + Claim(rest, limit).outbox, Claim(rest, limit).events)
            else if limit <= 1 then Claimed([e'] + rest, [e'])
            else Claimed([e'] + Claim(rest, limit - 1).outbox, [e'] + Claim(rest, limit - 1).events)
  {
  }

  lemma NoneInflight(outbox: seq<OutboxEvent>)
    ensures InflightAt(outbox, 0, 0) == outbox && WithStatus(outbox[0..0], OutboxInflight) == []
  {
  }

  lemma RestSuffix(outbox: seq<OutboxEvent>)
    requires outbox != [] && PendingSuffix(outbox)
    ensures PendingSuffix(outbox[1..])
    ensures FirstPending(outbox[1..]) == if FirstPending(outbox) > 0 then FirstPending(outbox) - 1 else 0
  {
    var p := FirstPending(outbox);
    if p == 0 && |outbox| > 1 {
      assert outbox[1].status.OutboxPending?;
      assert outbox[1..][0] == outbox[1];
    }
    forall i | FirstPending(outbox[1..]) <= i < |outbox| - 1 ensures outbox[1..][i].status.OutboxPending? {
      assert outbox[1..][i] == outbox[i + 1];
    }
  }

  /** With PENDING events at the end, a claim takes the next batch in append order and changes
      nothing else. */
  lemma {:induction false} ClaimTakesNextBatch(outbox: seq<OutboxEvent>, limit: int)
    requires PendingSuffix(outbox)
    ensures var p := FirstPending(outbox);
            var k := BatchOf(|outbox| - p, limit);
            && Claim(outbox, limit).events == WithStatus(outbox[p..p + k], OutboxInflight)
            && Claim(outbox, limit).outbox == InflightAt(outbox, p, k)
    decreases |outbox|
  {
    hide InflightAt, WithStatus, PendingSuffix, FirstPending;
    if outbox == [] {
      NoneInflight(outbox);
    } else {
      var rest := outbox[1..];
      var p := FirstPending(outbox);
      var k := BatchOf(|outbox| - p, limit);
      RestSuffix(outbox);
      ClaimUnrolled(outbox, limit);
      hide Claim;
      if p > 0 {
        ClaimTakesNextBatch(rest, limit);
        InflightRest(outbox, p - 1, k);
      } else if limit <= 1 {
        InflightHead(outbox, 0);
        NoneInflight(rest);
      } else {
        ClaimTakesNextBatch(rest, limit - 1);
        InflightHead(outbox, k - 1);
      }
    }
  }

  lemma {:induction false} MarkOneAt(outbox: seq<OutboxEvent>, id: EventId)
    requires IdsDistinct(outbox)
    ensures |MarkOne(outbox, id)| == |outbox|
    ensures forall i :: 0 <= i < |outbox| ==>
              MarkOne(outbox, id)[i] == if outbox[i].eventId == id then outbox[i].(status := OutboxPublished)
                else outbox[i]
    decreases |outbox|
  {
    if outbox != [] {
      assert forall i :: 0 <= i < |outbox| - 1 ==> outbox[1..][i] == outbox[i + 1];
      if outbox[0].eventId == id {
        assert forall i :: 1 <= i < |outbox| ==> outbox[i].eventId != id;
      } else {
        MarkOneAt(outbox[1..], id);
      }
    }
  }

  /** Marking publishes exactly the events with those ids, each in its place. */
  lemma {:induction false} MarkAllAt(outbox: seq<OutboxEvent>, ids: seq<EventId>)
    requires IdsDistinct(outbox)
    ensures |MarkAll(outbox, ids)| == |outbox|
    ensures forall i :: 0 <= i < |outbox| ==>
              MarkAll(outbox, ids)[i] ==
              if outbox[i].eventId in ids then outbox[i].(status := OutboxPublished) else outbox[i]
    decreases |ids|
  {
    if ids != [] {
      MarkOneAt(outbox, ids[0]);
      var next := MarkOne(outbox, ids[0]);
      MarkAllAt(next, ids[1..]);
      hide MarkOne;
      forall i | 0 <= i < |outbox| ensures MarkAll(outbox, ids)[i] ==
              if outbox[i].eventId in ids then outbox[i].(status := OutboxPublished) else outbox[i] {
        assert outbox[i].eventId in ids <==> outbox[i].eventId == ids[0] || outbox[i].eventId in ids[1..];
      }
    }
  }

  /** How a drain of one relay ends: the outbox, and what the publisher was handed and accepted. */
  datatype Drained = Drained(outbox: seq<OutboxEvent>, accepted: seq<OutboxEvent>)

  /** One drain in which the publisher accepts the first `good` events of the batch at most. */
  function Drain(outbox: seq<OutboxEvent>, limit: int, good: nat): Drained {
    var c := Claim(outbox, limit);
    var n := if good < |c.events| then good else |c.events|;
    Drained(MarkAll(c.outbox, Ids(c.events[..n])), c.events[..n])
  }

  lemma WithStatusPrefix(batch: seq<OutboxEvent>, n: nat, s: OutboxStatus)
    requires n <= |batch|
    ensures WithStatus(batch, s)[..n] == WithStatus(batch[..n], s) && |WithStatus(batch, s)| == |batch|
  {
  }

  /** The outbox with the batch at position `p` PUBLISHED up to its `n`-th event and INFLIGHT after. */
  function Mixed(outbox: seq<OutboxEvent>, p: nat, batch: seq<OutboxEvent>, n: nat): seq<OutboxEvent>
    requires p + |batch| <= |outbox| && n <= |batch|
  {
    outbox[..p] + WithStatus(batch[..n], OutboxPublished)
    + WithStatus(batch[n..], OutboxInflight) + outbox[p + |batch|..]
  }

  lemma MixedLength(outbox: seq<OutboxEvent>, p: nat, batch: seq<OutboxEvent>, n: nat)
    requires p + |batch| <= |outbox| && n <= |batch|
    ensures |Mixed(outbox, p, batch, n)| == |outbox|
  {
  }

  lemma MixedPoint(outbox: seq<OutboxEvent>, p: nat, batch: seq<OutboxEvent>, n: nat, i: nat)
    requires p + |batch| <= |outbox| && n <= |batch| && batch == outbox[p..p + |batch|] && i < |outbox|
    ensures i < |Mixed(outbox, p, batch, n)|
    ensures Mixed(outbox, p, batch, n)[i] ==
            if p <= i < p + n then outbox[i].(status := OutboxPublished)
            else if p + n <= i < p + |batch| then outbox[i].(status := OutboxInflight)
            else outbox[i]
  {
    var pub, fly := WithStatus(batch[..n], OutboxPublished), WithStatus(batch[n..], OutboxInflight);
    if p <= i < p + n {
      assert pub[i - p] == batch[i - p].(status := OutboxPublished);
    } else if p + n <= i < p + |batch| {
      assert fly[i - p - n] == batch[i - p].(status := OutboxInflight);
    }
  }

  lemma MixedAt(outbox: seq<OutboxEvent>, p: nat, batch: seq<OutboxEvent>, n: nat)
    requires p + |batch| <= |outbox| && n <= |batch| && batch == outbox[p..p + |batch|]
    ensures |Mixed(outbox, p, batch, n)| == |outbox|
    ensures forall i :: 0 <= i < |outbox| ==>
              Mixed(outbox, p, batch, n)[i] ==
              if p <= i < p + n then outbox[i].(status := OutboxPublished)
              else if p + n <= i < p + |batch| then outbox[i].(status := OutboxInflight)
              else outbox[i]
  {
    hide Mixed, WithStatus;
    MixedLength(outbox, p, batch, n);
    forall i | 0 <= i < |outbox| ensures Mixed(outbox, p, batch, n)[i] ==
              if p <= i < p + n then outbox[i].(status := OutboxPublished)
              else if p + n <= i < p + |batch| then outbox[i].(status := OutboxInflight)
              else outbox[i] {
      MixedPoint(outbox, p, batch, n, i);
    }
  }

  lemma ClaimedAt(outbox: seq<OutboxEvent>, p: nat, k: nat)
    requires p + k <= |outbox|
    ensures |InflightAt(outbox, p, k)| == |outbox|
    ensures forall i :: 0 <= i < |outbox| ==>
              InflightAt(outbox, p, k)[i] == if p <= i < p + k then outbox[i].(status := OutboxInflight) else outbox[i]
    ensures var events := WithStatus(outbox[p..p + k], OutboxInflight);
            |events| == k && forall j :: 0 <= j < k ==> events[j].eventId == outbox[p + j].eventId
  {
  }

  lemma MarkedExactly(outbox: seq<OutboxEvent>, p: nat, events: seq<OutboxEvent>, n: nat, i: nat)
    requires IdsDistinct(outbox) && i < |outbox| && p + |events| <= |outbox| && n <= |events|
    requires forall k :: 0 <= k < |events| ==> events[k].eventId == outbox[p + k].eventId
    ensures outbox[i].eventId in Ids(events[..n]) <==> p <= i < p + n
  {
    if p <= i < p + n {
      assert Ids(events[..n])[i - p] == outbox[i].eventId;
    }
    if outbox[i].eventId in Ids(events[..n]) {
      var k :| 0 <= k < n && Ids(events[..n])[k] == outbox[i].eventId;
      assert outbox[p + k].eventId == outbox[i].eventId;
    }
  }

  lemma MarkBatch(outbox: seq<OutboxEvent>, p: nat, k: nat, n: nat)
    requires IdsDistinct(outbox) && p + k <= |outbox| && n <= k
    ensures var batch := outbox[p..p + k];
            MarkAll(InflightAt(outbox, p, k), Ids(WithStatus(batch, OutboxInflight)[..n])) == Mixed(outbox, p, batch, n)
  {
    var batch := outbox[p..p + k];
    var claimed := InflightAt(outbox, p, k);
    var events := WithStatus(batch, OutboxInflight);
    ClaimedAt(outbox, p, k);
    MarkAllAt(claimed, Ids(events[..n]));
    var got := MarkAll(claimed, Ids(events[..n]));
    MixedAt(outbox, p, batch, n);
    hide MarkAll, IdsDistinct, Ids, WithStatus, InflightAt;
    forall i | 0 <= i < |outbox| ensures got[i] == Mixed(outbox, p, batch, n)[i] {
      MarkedExactly(outbox, p, events, n, i);
    }
  }

  /** When the j-th publish of a batch fails, exactly the j-1 events before it become PUBLISHED and
      the rest of the batch stay INFLIGHT; without a failure the whole batch is PUBLISHED. Either
      way the events reach the publisher in append order. */
  lemma DrainPublishesPrefix(outbox: seq<OutboxEvent>, limit: int, good: nat)
    requires IdsDistinct(outbox) && PendingSuffix(outbox)
    ensures var p, batch := FirstPending(outbox), Batch(outbox, limit);
            var n := if good < |batch| then good else |batch|;
            var d := Drain(outbox, limit, good);
            && d.accepted == WithStatus(batch[..n], OutboxInflight)
            && d.outbox == Mixed(outbox, p, batch, n)
  {
    hide Claim, FirstPending, BatchOf, IdsDistinct, PendingSuffix, MarkAll, Ids, InflightAt;
    ClaimTakesNextBatch(outbox, limit);
    var p, batch := FirstPending(outbox), Batch(outbox, limit);
    var n := if good < |batch| then good else |batch|;
    MarkBatch(outbox, p, |batch|, n);
    WithStatusPrefix(batch, n, OutboxInflight);
    hide WithStatus;
  }

  /** Drains without failures, one after another. */
  function Drains(outbox: seq<OutboxEvent>, limit: int, times: nat): Drained
    decreases times
  {
    if times == 0 then Drained(outbox, [])
    else
      var d := Drain(outbox, limit, |outbox|);
      var rest := Drains(d.outbox, limit, times - 1);
      Drained(rest.outbox, d.accepted + rest.accepted)
  }

  function Least(a: nat, b: nat): nat {
    if a < b then a else b
  }

  lemma FirstPendingIs(outbox: seq<OutboxEvent>, p: nat)
    requires p <= |outbox|
    requires forall i :: 0 <= i < p ==> !outbox[i].status.OutboxPending?
    requires p < |outbox| ==> outbox[p].status.OutboxPending?
    ensures FirstPending(outbox) == p
  {
  }

  /** The outbox with the `k` events from position `p` on turned PUBLISHED. */
  function PublishedAt(outbox: seq<OutboxEvent>, p: nat, k: nat): seq<OutboxEvent>
    requires p + k <= |outbox|
  {
    outbox[..p] + WithStatus(outbox[p..p + k], OutboxPublished) + outbox[p + k..]
  }

  lemma PublishedNone(outbox: seq<OutboxEvent>, p: nat)
    requires p <= |outbox|
    ensures PublishedAt(outbox, p, 0) == outbox && WithStatus(outbox[p..p + 0], OutboxInflight) == []
  {
  }

  lemma WithStatusSplit(outbox: seq<OutboxEvent>, p: nat, k: nat, rest: nat, s: OutboxStatus)
    requires p + k + rest <= |outbox|
    ensures WithStatus(outbox[p..p + k + rest], s) ==
            WithStatus(outbox[p..p + k], s) + WithStatus(outbox[p + k..p + k + rest], s)
  {
  }

  lemma PublishedTwice(outbox: seq<OutboxEvent>, p: nat, k: nat, rest: nat)
    requires p + k + rest <= |outbox|
    ensures |PublishedAt(outbox, p, k)| == |outbox|
    ensures PublishedAt(PublishedAt(outbox, p, k), p + k, rest) == PublishedAt(outbox, p, k + rest)
    ensures WithStatus(outbox[p..p + k], OutboxInflight)
            + WithStatus(PublishedAt(outbox, p, k)[p + k..p + k + rest], OutboxInflight)
            == WithStatus(outbox[p..p + (k + rest)], OutboxInflight)
  {
    var once := PublishedAt(outbox, p, k);
    assert once[..p + k] == outbox[..p] + WithStatus(outbox[p..p + k], OutboxPublished);
    assert once[p + k..p + k + rest] == outbox[p + k..p + k + rest];
    assert once[p + k + rest..] == outbox[p + k + rest..];
    WithStatusSplit(outbox, p, k, rest, OutboxPublished);
    WithStatusSplit(outbox, p, k, rest, OutboxInflight);
  }

  lemma WholeSlice(outbox: seq<OutboxEvent>, p: nat, k: nat)
    requires p + k <= |outbox|
    ensures var batch := outbox[p..p + k]; |batch| == k && batch[..k] == batch
  {
  }

  lemma WholeIsPublished(outbox: seq<OutboxEvent>, p: nat, k: nat)
    requires p + k <= |outbox|
    ensures Mixed(outbox, p, outbox[p..p + k], k) == PublishedAt(outbox, p, k)
  {
    var batch := outbox[p..p + k];
    assert batch[k..] == [] && batch[..k] == batch;
    assert WithStatus([], OutboxInflight) == [];
    hide WithStatus;
  }

  lemma WholeBatchSuffix(outbox: seq<OutboxEvent>, p: nat, k: nat, o1: seq<OutboxEvent>)
    requires IdsDistinct(outbox) && PendingSuffix(outbox) && p == FirstPending(outbox) && p + k <= |outbox|
    requires |o1| == |outbox|
    requires forall i :: 0 <= i < |outbox| ==>
               o1[i] == if p <= i < p + k then outbox[i].(status := OutboxPublished) else outbox[i]
    ensures IdsDistinct(o1) && PendingSuffix(o1) && FirstPending(o1) == p + k
  {
    assert forall i :: 0 <= i < |o1| ==> o1[i].eventId == outbox[i].eventId;
    assert forall i :: p + k <= i < |o1| ==> o1[i] == outbox[i];
    FirstPendingIs(o1, p + k);
  }

  lemma AfterWholeBatch(outbox: seq<OutboxEvent>, p: nat, k: nat)
    requires IdsDistinct(outbox) && PendingSuffix(outbox) && p == FirstPending(outbox) && p + k <= |outbox|
    ensures var o1 := Mixed(outbox, p, outbox[p..p + k], k);
            && |o1| == |outbox| && IdsDistinct(o1) && PendingSuffix(o1) && FirstPending(o1) == p + k
            && o1 == PublishedAt(outbox, p, k)
  {
    hide Mixed, FirstPending, PendingSuffix, IdsDistinct;
    var batch := outbox[p..p + k];
    MixedAt(outbox, p, batch, k);
    WholeBatchSuffix(outbox, p, k, Mixed(outbox, p, batch, k));
    WholeIsPublished(outbox, p, k);
  }

  lemma DrainWhole(outbox: seq<OutboxEvent>, limit: int)
    requires IdsDistinct(outbox) && PendingSuffix(outbox) && limit >= 1
    ensures var p := FirstPending(outbox);
            var k := BatchOf(|outbox| - p, limit);
            var d := Drain(outbox, limit, |outbox|);
            && p + k <= |outbox|
            && d.outbox == PublishedAt(outbox, p, k) && d.accepted == WithStatus(outbox[p..p + k], OutboxInflight)
            && |d.outbox| == |outbox| && IdsDistinct(d.outbox) && PendingSuffix(d.outbox)
               && FirstPending(d.outbox) == p + k
  {
    hide Drain, Claim, Mixed, PublishedAt, FirstPending, PendingSuffix, IdsDistinct, WithStatus;
    DrainPublishesPrefix(outbox, limit, |outbox|);
    var p := FirstPending(outbox);
    var k := BatchOf(|outbox| - p, limit);
    WholeSlice(outbox, p, k);
    AfterWholeBatch(outbox, p, k);
  }

  lemma TimesStep(n: nat, limit: nat, times: nat)
    requires limit >= 1 && times >= 1
    ensures var k := BatchOf(n, limit);
            && k == Least(n, limit) && k <= Least(n, times * limit)
            && Least(n - k, (times - 1) * limit) == Least(n, times * limit) - k
            && (times * limit >= n <==> (times - 1) * limit >= n - k)
  {
    assert times * limit == (times - 1) * limit + limit;
  }

  /** One relay, no failures, batch size B: after any number of drains exactly the next that many
      batches are PUBLISHED, in append order, and nothing is left INFLIGHT. With n events PENDING
      none is left exactly when the number of drains times B reaches n. */
  lemma {:induction false} DrainsProgress(outbox: seq<OutboxEvent>, limit: int, times: nat)
    requires IdsDistinct(outbox) && PendingSuffix(outbox) && limit >= 1
    ensures var p := FirstPending(outbox);
            var n := |outbox| - p;
            var done := Least(n, times * limit);
            var d := Drains(outbox, limit, times);
            && d.outbox == PublishedAt(outbox, p, done)
            && d.accepted == WithStatus(outbox[p..p + done], OutboxInflight)
            && (FirstPending(d.outbox) == |d.outbox| <==> times * limit >= n)
    decreases times
  {
    hide Drain, FirstPending, PendingSuffix, PublishedAt, WithStatus, BatchOf, IdsDistinct;
    var p := FirstPending(outbox);
    var n := |outbox| - p;
    if times > 0 {
      var k := BatchOf(n, limit);
      TimesStep(n, limit, times);
      DrainWhole(outbox, limit);
      DrainsProgress(PublishedAt(outbox, p, k), limit, times - 1);
      PublishedTwice(outbox, p, k, Least(n, times * limit) - k);
    } else {
      PublishedNone(outbox, p);
    }
  }
}
