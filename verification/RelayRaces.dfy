/** Any number of relays over one outbox, with writers appending and relays crashing. A claim, each
    publish and the mark are separate actions. */
module RelayRaces {
  import opened Store
  import opened Outbox

  datatype RelayState =
    | Resting
    | Publishing(batch: seq<EventId>, done: nat)
    | Marking(ids: seq<EventId>)

  datatype Action =
    | Append(event: OutboxEvent)
    | ClaimBatch(relay: nat, limit: int)
    | PublishNext(relay: nat, ok: bool)
    | MarkBatch(relay: nat)
    | Crash(relay: nat)

  /** The outbox, the relays, which relay claimed an event, and the ids handed to and accepted by
      the publisher. */
  datatype Relays = Relays(
    outbox: seq<OutboxEvent>,
    relays: map<nat, RelayState>,
    claimedBy: map<EventId, nat>,
    handed: seq<EventId>,
    accepted: set<EventId>)

  function StateOf(s: Relays, r: nat): RelayState {
    if r in s.relays then s.relays[r] else Resting
  }

  function Owned(claimedBy: map<EventId, nat>, ids: seq<EventId>, r: nat): map<EventId, nat> {
    claimedBy + (map id | id in ids :: r)
  }

  /** After some publishes of a batch: on to the next, or to marking those that were accepted. */
  function AfterPublish(batch: seq<EventId>, done: nat, ok: bool): RelayState
    requires done < |batch|
  {
    if ok && done + 1 < |batch| then Publishing(batch, done + 1)
    else if ok then Marking(batch)
    else if done == 0 then Resting
    else Marking(batch[..done])
  }

  /** New events are PENDING and bring a fresh id. */
  function Act(s: Relays, a: Action): Relays {
    match a
    case Append(e) =>
      if e.status.OutboxPending? && e.eventId !in Ids(s.outbox) then s.(outbox := s.outbox + [e]) else s
    case ClaimBatch(r, limit) =>
      if !StateOf(s, r).Resting? then s
      else
        var c := Claim(s.outbox, limit);
        if c.events == [] then s
        else
          s.(outbox := c.outbox, relays := s.relays[r := Publishing(Ids(c.events), 0)],
             claimedBy := Owned(s.claimedBy, Ids(c.events), r))
    case PublishNext(r, ok) =>
      var st := StateOf(s, r);
      if !st.Publishing? || st.done >= |st.batch| then s
      else
        var id := st.batch[st.done];
        s.(relays := s.relays[r := AfterPublish(st.batch, st.done, ok)], handed := s.handed + [id],
           accepted := if ok then s.accepted + {id} else s.accepted)
    case MarkBatch(r) =>
      if !StateOf(s, r).Marking? then s
      else s.(outbox := MarkAll(s.outbox, StateOf(s, r).ids), relays := s.relays[r := Resting])
    case Crash(r) => s.(relays := s.relays[r := Resting])
  }

  function Exec(s: Relays, actions: seq<Action>): Relays
    decreases |actions|
  {
    if actions == [] then s else Exec(Act(s, actions[0]), actions[1..])
  }

  /** What a relay holds is its own: claimed by it, and not handed over beyond where it stands. */
  ghost predicate Holds(s: Relays, r: nat, st: RelayState) {
    match st
    case Resting => true
    case Publishing(batch, done) =>
      && done < |batch|
      && (forall i, j :: 0 <= i < j < |batch| ==> batch[i] != batch[j])
      && (forall i :: 0 <= i < |batch| ==> batch[i] in s.claimedBy && s.claimedBy[batch[i]] == r)
      && (forall i :: done <= i < |batch| ==> batch[i] !in s.handed)
      && (forall i :: 0 <= i < done ==> batch[i] in s.accepted)
    case Marking(ids) => forall id :: id in ids ==> id in s.accepted
  }

  ghost predicate NoRepeats(ids: seq<EventId>) {
    forall i, j :: 0 <= i < j < |ids| ==> ids[i] != ids[j]
  }

  /** PENDING events are a suffix and exactly the unclaimed ones; every event is handed over at most
      once; PUBLISHED events were accepted. */
  ghost predicate Safe(s: Relays) {
    && IdsDistinct(s.outbox) && PendingSuffix(s.outbox)
    && (forall i :: 0 <= i < |s.outbox| ==>
          (s.outbox[i].status.OutboxPending? <==> s.outbox[i].eventId !in s.claimedBy))
    && (forall id :: id in s.claimedBy ==> id in Ids(s.outbox))
    && NoRepeats(s.handed)
    && (forall id :: id in s.handed ==> id in s.claimedBy)
    && (forall id :: id in s.accepted ==> id in s.handed)
    && (forall i :: 0 <= i < |s.outbox| && s.outbox[i].status.OutboxPublished? ==> s.outbox[i].eventId in s.accepted)
    && (forall r :: r in s.relays ==> Holds(s, r, s.relays[r]))
  }

  /** The events of an outbox without their delivery status. */
  function Bare(outbox: seq<OutboxEvent>): seq<OutboxEvent> {
    WithStatus(outbox, OutboxPending)
  }

  /** Nothing was dropped or reordered. */
  predicate Grows(a: seq<OutboxEvent>, b: seq<OutboxEvent>) {
    Bare(a) <= Bare(b)
  }

  lemma HoldsAnyOutbox(s: Relays, o: seq<OutboxEvent>)
    ensures forall r, st :: Holds(s, r, st) ==> Holds(s.(outbox := o), r, st)
  {
  }

  lemma AppendKeepsOutbox(outbox: seq<OutboxEvent>, e: OutboxEvent)
    requires PendingSuffix(outbox) && IdsDistinct(outbox) && e.status.OutboxPending? && e.eventId !in Ids(outbox)
    ensures var o := outbox + [e];
            PendingSuffix(o) && IdsDistinct(o) && Ids(o) == Ids(outbox) + [e.eventId] && Bare(outbox) <= Bare(o)
  {
    assert forall i :: 0 <= i < |outbox| ==> Ids(outbox)[i] == outbox[i].eventId;
    FirstPendingIs(outbox + [e], FirstPending(outbox));
  }

  lemma AppendSafe(s: Relays, e: OutboxEvent)
    requires Safe(s)
    ensures Safe(Act(s, Append(e))) && Grows(s.outbox, Act(s, Append(e)).outbox)
  {
    hide FirstPending, PendingSuffix, IdsDistinct, NoRepeats, Bare, Ids, Holds;
    if e.status.OutboxPending? && e.eventId !in Ids(s.outbox) {
      AppendKeepsOutbox(s.outbox, e);
      assert forall q :: q in s.relays ==> Holds(s, q, s.relays[q]);
      HoldsAnyOutbox(s, s.outbox + [e]);
    }
  }

  lemma InflightPointwise(outbox: seq<OutboxEvent>, p: nat, k: nat)
    requires PendingSuffix(outbox) && p == FirstPending(outbox) && p + k <= |outbox|
    ensures var o := InflightAt(outbox, p, k);
            && |o| == |outbox| && PendingSuffix(o) && FirstPending(o) == p + k
            && (forall i :: 0 <= i < |outbox| ==>
                  o[i] == if p <= i < p + k then outbox[i].(status := OutboxInflight) else outbox[i])
    ensures var events := WithStatus(outbox[p..p + k], OutboxInflight);
            |events| == k && forall j :: 0 <= j < k ==> events[j].eventId == outbox[p + j].eventId
  {
    var o := InflightAt(outbox, p, k);
    assert forall i :: p + k <= i < |outbox| ==> o[i] == outbox[i];
    FirstPendingIs(o, p + k);
  }

  /** What a claim does to single events, given that PENDING ones are a suffix. */
  lemma ClaimPointwise(outbox: seq<OutboxEvent>, limit: int)
    requires PendingSuffix(outbox)
    ensures var p := FirstPending(outbox);
            var k := BatchOf(|outbox| - p, limit);
            var c := Claim(outbox, limit);
            && |c.outbox| == |outbox| && |c.events| == k && PendingSuffix(c.outbox) && FirstPending(c.outbox) == p + k
            && (forall i :: 0 <= i < |outbox| ==>
                  c.outbox[i] == if p <= i < p + k then outbox[i].(status := OutboxInflight) else outbox[i])
            && (forall j :: 0 <= j < k ==> c.events[j].eventId == outbox[p + j].eventId)
  {
    hide Claim, InflightAt, WithStatus, PendingSuffix, FirstPending;
    ClaimTakesNextBatch(outbox, limit);
    InflightPointwise(outbox, FirstPending(outbox), BatchOf(|outbox| - FirstPending(outbox), limit));
  }

  lemma SameIds(a: seq<OutboxEvent>, b: seq<OutboxEvent>)
    requires |a| == |b| && forall i :: 0 <= i < |a| ==> a[i].(status := OutboxPending) == b[i].(status := OutboxPending)
    ensures Ids(a) == Ids(b) && Bare(a) == Bare(b)
    ensures IdsDistinct(a) ==> IdsDistinct(b)
  {
    assert forall i :: 0 <= i < |a| ==> a[i].eventId == a[i].(status := OutboxPending).eventId == b[i].eventId;
  }

  lemma SliceFacts(all: seq<EventId>, p: nat, k: nat)
    requires NoRepeats(all) && p + k <= |all|
    ensures var ids := all[p..p + k];
            && NoRepeats(ids)
            && (forall id :: id in ids ==> id in all)
            && (forall i :: 0 <= i < |all| ==> (all[i] in ids <==> p <= i < p + k))
  {
    var ids := all[p..p + k];
    forall i | 0 <= i < |all| ensures all[i] in ids <==> p <= i < p + k {
      if p <= i < p + k {
        assert ids[i - p] == all[i];
      }
    }
  }

  lemma IdsOf(outbox: seq<OutboxEvent>)
    requires IdsDistinct(outbox)
    ensures NoRepeats(Ids(outbox))
  {
  }

  lemma ClaimedSlice(outbox: seq<OutboxEvent>, limit: int)
    requires PendingSuffix(outbox)
    ensures var p, ids := FirstPending(outbox), Ids(Claim(outbox, limit).events);
            p + |ids| <= |outbox| && ids == Ids(outbox)[p..p + |ids|]
  {
    hide Claim, FirstPending, PendingSuffix;
    ClaimPointwise(outbox, limit);
  }

  lemma IdsAt(outbox: seq<OutboxEvent>)
    ensures |Ids(outbox)| == |outbox| && forall i :: 0 <= i < |outbox| ==> Ids(outbox)[i] == outbox[i].eventId
  {
  }

  lemma Unclaimed(s: Relays, p: nat, k: nat)
    requires p + k <= |s.outbox| && forall i :: p <= i < |s.outbox| ==> s.outbox[i].status.OutboxPending?
    requires forall i :: 0 <= i < |s.outbox| ==>
               (s.outbox[i].status.OutboxPending? <==> s.outbox[i].eventId !in s.claimedBy)
    ensures forall id :: id in Ids(s.outbox)[p..p + k] ==> id !in s.claimedBy
  {
    var ids := Ids(s.outbox)[p..p + k];
    forall id | id in ids ensures id !in s.claimedBy {
      var j :| 0 <= j < k && ids[j] == id;
      assert s.outbox[p + j].eventId == id;
    }
  }

  /** The ids a claim takes are distinct, unclaimed until now, and those of one stretch of the
      outbox. */
  lemma ClaimedIds(s: Relays, limit: int)
    requires Safe(s)
    ensures var p, ids := FirstPending(s.outbox), Ids(Claim(s.outbox, limit).events);
            && p + |ids| <= |s.outbox| && NoRepeats(ids)
            && (forall id :: id in ids ==> id !in s.claimedBy && id in Ids(s.outbox))
            && (forall i :: 0 <= i < |s.outbox| ==> (s.outbox[i].eventId in ids <==> p <= i < p + |ids|))
  {
    hide Claim, Holds, NoRepeats, Ids, FirstPending;
    var p, ids := FirstPending(s.outbox), Ids(Claim(s.outbox, limit).events);
    ClaimedSlice(s.outbox, limit);
    IdsOf(s.outbox);
    IdsAt(s.outbox);
    hide IdsDistinct;
    SliceFacts(Ids(s.outbox), p, |ids|);
    Unclaimed(s, p, |ids|);
  }

  /** A claim keeps the order and identity of the outbox and the PENDING suffix. */
  lemma ClaimKeepsOutbox(outbox: seq<OutboxEvent>, limit: int)
    requires PendingSuffix(outbox) && IdsDistinct(outbox)
    ensures var o := Claim(outbox, limit).outbox;
            PendingSuffix(o) && IdsDistinct(o) && Ids(o) == Ids(outbox) && Bare(o) == Bare(outbox)
  {
    hide Claim, FirstPending, BatchOf, Bare, Ids, PendingSuffix, IdsDistinct;
    ClaimPointwise(outbox, limit);
    SameIds(outbox, Claim(outbox, limit).outbox);
  }

  lemma ClaimKeepsHolds(s: Relays, s': Relays, r: nat, ids: seq<EventId>)
    requires s'.relays == s.relays[r := Publishing(ids, 0)] && s'.claimedBy == Owned(s.claimedBy, ids, r)
    requires s'.handed == s.handed && s'.accepted == s.accepted
    requires ids != [] && NoRepeats(ids) && forall id :: id in ids ==> id !in s.claimedBy
    requires forall id :: id in s.handed ==> id in s.claimedBy
    requires forall q :: q in s.relays ==> Holds(s, q, s.relays[q])
    ensures forall q :: q in s'.relays ==> Holds(s', q, s'.relays[q])
  {
    forall q | q in s'.relays ensures Holds(s', q, s'.relays[q]) {
      if q != r {
        assert Holds(s, q, s.relays[q]);
      }
    }
  }

  lemma ClaimStatuses(s: Relays, limit: int, r: nat)
    requires Safe(s)
    ensures var c := Claim(s.outbox, limit);
            var o, claimedBy := c.outbox, Owned(s.claimedBy, Ids(c.events), r);
            && (forall i :: 0 <= i < |o| ==> (o[i].status.OutboxPending? <==> o[i].eventId !in claimedBy))
            && (forall i :: 0 <= i < |o| && o[i].status.OutboxPublished? ==> o[i].eventId in s.accepted)
  {
    hide Claim, FirstPending, BatchOf, PendingSuffix, IdsDistinct, NoRepeats, Holds, Ids;
    ClaimPointwise(s.outbox, limit);
    ClaimedIds(s, limit);
  }

  lemma ClaimSafe(s: Relays, r: nat, limit: int)
    requires Safe(s) && StateOf(s, r).Resting?
    ensures Safe(Act(s, ClaimBatch(r, limit))) && Grows(s.outbox, Act(s, ClaimBatch(r, limit)).outbox)
  {
    hide Claim, FirstPending, BatchOf, Holds, Bare, Ids, PendingSuffix, IdsDistinct, NoRepeats;
    var c := Claim(s.outbox, limit);
    ClaimKeepsOutbox(s.outbox, limit);
    ClaimedIds(s, limit);
    if c.events != [] {
      ClaimKeepsHolds(s, Act(s, ClaimBatch(r, limit)), r, Ids(c.events));
      ClaimStatuses(s, limit, r);
    }
  }

  lemma PublishSafe(s: Relays, r: nat, ok: bool)
    requires Safe(s)
    ensures Safe(Act(s, PublishNext(r, ok))) && Act(s, PublishNext(r, ok)).outbox == s.outbox
  {
    hide FirstPending, PendingSuffix, IdsDistinct;
    var st := StateOf(s, r);
    if st.Publishing? && st.done < |st.batch| {
      assert Holds(s, r, st);
      var s' := Act(s, PublishNext(r, ok));
      var id := st.batch[st.done];
      forall q | q in s'.relays ensures Holds(s', q, s'.relays[q]) {
        if q != r {
          assert Holds(s, q, s.relays[q]);
        }
      }
      assert NoRepeats(s'.handed);
    }
  }

  lemma MarkKeepsOutbox(outbox: seq<OutboxEvent>, ids: seq<EventId>)
    requires PendingSuffix(outbox) && IdsDistinct(outbox)
    requires forall i :: 0 <= i < |outbox| && outbox[i].status.OutboxPending? ==> outbox[i].eventId !in ids
    ensures var o := MarkAll(outbox, ids);
            PendingSuffix(o) && IdsDistinct(o) && Ids(o) == Ids(outbox) && Bare(o) == Bare(outbox)
  {
    hide MarkAll, Bare, Ids;
    MarkAllAt(outbox, ids);
    var o := MarkAll(outbox, ids);
    SameIds(outbox, o);
    FirstPendingIs(o, FirstPending(outbox));
  }

  lemma MarkSafe(s: Relays, r: nat)
    requires Safe(s)
    ensures Safe(Act(s, MarkBatch(r))) && Grows(s.outbox, Act(s, MarkBatch(r)).outbox)
  {
    hide MarkAll, FirstPending, PendingSuffix, IdsDistinct, NoRepeats, Bare, Ids;
    var st := StateOf(s, r);
    if st.Marking? {
      MarkKeepsOutbox(s.outbox, st.ids);
      MarkAllAt(s.outbox, st.ids);
      assert Holds(s, r, st);
    }
  }

  lemma ActSafe(s: Relays, a: Action)
    requires Safe(s)
    ensures Safe(Act(s, a)) && Grows(s.outbox, Act(s, a).outbox)
  {
    match a
    case Append(e) => AppendSafe(s, e);
    case ClaimBatch(r, limit) =>
      if StateOf(s, r).Resting? {
        ClaimSafe(s, r, limit);
      }
    case PublishNext(r, ok) => PublishSafe(s, r, ok);
    case MarkBatch(r) => MarkSafe(s, r);
    case Crash(r) =>
      forall q | q in s.relays ensures Holds(s, q, s.relays[q]) {
      }
  }

  /** Relay safety over every interleaving: PENDING events stay a suffix of the outbox, no event is
      handed to the publisher twice, PUBLISHED means accepted, and the outbox only grows. */
  lemma {:induction false} RelaySafety(s: Relays, actions: seq<Action>)
    requires Safe(s)
    ensures var s' := Exec(s, actions);
            Safe(s') && Grows(s.outbox, s'.outbox)
    decreases |actions|
  {
    hide Safe, Act, Bare;
    if actions != [] {
      ActSafe(s, actions[0]);
      RelaySafety(Act(s, actions[0]), actions[1..]);
    }
  }

  /** An outbox that no relay has touched is a safe start. */
  lemma StartSafe(outbox: seq<OutboxEvent>)
    requires IdsDistinct(outbox) && forall e :: e in outbox ==> e.status.OutboxPending?
    ensures Safe(Relays(outbox, map[], map[], [], {}))
  {
    assert FirstPending(outbox) == 0;
  }

  /** The same from an outbox that no relay has touched yet. */
  lemma UntouchedOutboxSafe(outbox: seq<OutboxEvent>, actions: seq<Action>)
    requires IdsDistinct(outbox) && forall e :: e in outbox ==> e.status.OutboxPending?
    ensures var s' := Exec(Relays(outbox, map[], map[], [], {}), actions);
            Safe(s') && Grows(outbox, s'.outbox)
  {
    StartSafe(outbox);
    hide Safe, Exec;
    RelaySafety(Relays(outbox, map[], map[], [], {}), actions);
  }
}
