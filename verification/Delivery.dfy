/** Which outbox events can still be delivered, and which are lost for good. */
module Delivery {
  import opened Store
  import opened Outbox
  import opened RelayRaces

  predicate AheadAt(st: RelayState, j: int, id: EventId) {
    st.Publishing? && st.done <= j < |st.batch| && st.batch[j] == id
  }

  /** The event is ahead of some relay in the batch it is publishing. */
  ghost predicate Ahead(s: Relays, id: EventId) {
    exists r, j :: r in s.relays && AheadAt(s.relays[r], j, id)
  }

  /** Claimed, and no relay has it ahead: its fate is sealed. */
  ghost predicate Sealed(s: Relays, id: EventId) {
    id in s.claimedBy && !Ahead(s, id)
  }

  lemma ClaimSeals(s: Relays, r: nat, limit: int, id: EventId)
    requires Safe(s) && Sealed(s, id) && StateOf(s, r).Resting?
    ensures Sealed(Act(s, ClaimBatch(r, limit)), id)
  {
    ClaimedIds(s, limit);
    hide Safe, Claim, FirstPending, Ids;
    var ids, s' := Ids(Claim(s.outbox, limit).events), Act(s, ClaimBatch(r, limit));
    assert id !in ids;
    forall q, j | q in s'.relays ensures !AheadAt(s'.relays[q], j, id) {
      assert s'.relays[q] == Publishing(ids, 0) || (q in s.relays && s'.relays[q] == s.relays[q]);
    }
  }

  lemma PublishSeals(s: Relays, r: nat, ok: bool, id: EventId)
    requires Sealed(s, id)
    ensures var s' := Act(s, PublishNext(r, ok));
            Sealed(s', id) && (id in s'.handed <==> id in s.handed) && (id in s'.accepted <==> id in s.accepted)
  {
    var st, s' := StateOf(s, r), Act(s, PublishNext(r, ok));
    if st.Publishing? && st.done < |st.batch| {
      assert !AheadAt(st, st.done, id);
    }
    forall q, j | q in s'.relays ensures AheadAt(s'.relays[q], j, id) ==> q in s.relays && AheadAt(s.relays[q], j, id) {
    }
  }

  /** No action of any relay or writer reopens a sealed fate. */
  lemma ActSeals(s: Relays, a: Action, id: EventId)
    requires Safe(s) && Sealed(s, id)
    ensures var s' := Act(s, a);
            Sealed(s', id) && (id in s'.handed <==> id in s.handed) && (id in s'.accepted <==> id in s.accepted)
  {
    hide Safe;
    var s' := Act(s, a);
    match a
    case ClaimBatch(r, limit) =>
      if StateOf(s, r).Resting? {
        ClaimSeals(s, r, limit, id);
      }
    case PublishNext(r, ok) => PublishSeals(s, r, ok, id);
    case _ =>
      forall q, j | q in s'.relays
        ensures AheadAt(s'.relays[q], j, id) ==> q in s.relays && AheadAt(s.relays[q], j, id) {
      }
  }

  /** A claimed event that no relay has ahead is handed over and accepted exactly if it already
      was, whatever happens later. */
  lemma {:induction false} SealedForGood(s: Relays, actions: seq<Action>, id: EventId)
    requires Safe(s) && Sealed(s, id)
    ensures var s' := Exec(s, actions);
            (id in s'.handed <==> id in s.handed) && (id in s'.accepted <==> id in s.accepted)
    decreases |actions|
  {
    hide Safe, Sealed, Act;
    if actions != [] {
      ActSafe(s, actions[0]);
      ActSeals(s, actions[0], id);
      SealedForGood(Act(s, actions[0]), actions[1..], id);
    }
  }

  /** The relay publishes on until the event ahead has been accepted. */
  lemma {:induction false} AheadDelivers(s: Relays, r: nat, j: nat, id: EventId) returns (actions: seq<Action>)
    requires r in s.relays && AheadAt(s.relays[r], j, id)
    ensures id in Exec(s, actions).accepted && id in Exec(s, actions).handed
    decreases j - s.relays[r].done
  {
    var a := PublishNext(r, true);
    var s' := Act(s, a);
    if j == s.relays[r].done {
      actions := [a];
      assert Exec(s, actions) == Exec(s', []);
    } else {
      var rest := AheadDelivers(s', r, j, id);
      actions := [a] + rest;
      assert actions[1..] == rest;
    }
  }

  lemma PendingPosition(s: Relays, id: EventId) returns (i: nat)
    requires Safe(s) && id in Ids(s.outbox) && id !in s.claimedBy
    ensures FirstPending(s.outbox) <= i < |s.outbox| && Ids(s.outbox)[i] == id
  {
    IdsAt(s.outbox);
    i :| 0 <= i < |s.outbox| && Ids(s.outbox)[i] == id;
    assert s.outbox[i].status.OutboxPending?;
  }

  /** With a limit that high a claim takes all PENDING events. */
  lemma ClaimsAll(outbox: seq<OutboxEvent>, limit: nat)
    requires PendingSuffix(outbox) && limit > |outbox|
    ensures Ids(Claim(outbox, limit).events) == Ids(outbox)[FirstPending(outbox)..] && |Ids(outbox)| == |outbox|
  {
    hide Claim, FirstPending, PendingSuffix, InflightAt;
    ClaimTakesNextBatch(outbox, limit);
    ClaimedSlice(outbox, limit);
  }

  lemma FreshClaim(s: Relays, limit: nat)
    requires Claim(s.outbox, limit).events != []
    ensures var s2 := Act(Act(s, Crash(0)), ClaimBatch(0, limit));
            0 in s2.relays && s2.relays[0] == Publishing(Ids(Claim(s.outbox, limit).events), 0)
  {
    hide Claim, Ids;
  }

  lemma TwoActions(s: Relays, a: Action, b: Action)
    ensures Exec(s, [a, b]) == Act(Act(s, a), b)
  {
    hide Act;
    assert [a, b][1..] == [b];
    assert Exec(Act(s, a), [b]) == Exec(Act(Act(s, a), b), []);
  }

  /** Where a PENDING event is in such a claim. */
  lemma TakenAt(s: Relays, id: EventId) returns (j: nat)
    requires Safe(s) && id in Ids(s.outbox) && id !in s.claimedBy
    ensures var claim := Claim(s.outbox, |s.outbox| + 1);
            claim.events != [] && j < |Ids(claim.events)| && Ids(claim.events)[j] == id
  {
    var i := PendingPosition(s, id);
    ClaimsAll(s.outbox, |s.outbox| + 1);
    hide Safe, Claim, FirstPending;
    IdsAt(Claim(s.outbox, |s.outbox| + 1).events);
    j := i - FirstPending(s.outbox);
  }

  /** A relay that starts over claims everything PENDING. */
  lemma PendingGetsAhead(s: Relays, id: EventId)
    requires Safe(s) && id in Ids(s.outbox) && id !in s.claimedBy
    ensures Ahead(Exec(s, [Crash(0), ClaimBatch(0, |s.outbox| + 1)]), id)
  {
    hide Safe, Claim, FirstPending, Ids, Act, Exec;
    var limit := |s.outbox| + 1;
    var j := TakenAt(s, id);
    FreshClaim(s, limit);
    var s2 := Act(Act(s, Crash(0)), ClaimBatch(0, limit));
    assert AheadAt(s2.relays[0], j, id);
    TwoActions(s, Crash(0), ClaimBatch(0, limit));
  }

  lemma {:induction false} ExecAppend(s: Relays, a: seq<Action>, b: seq<Action>)
    ensures Exec(s, a + b) == Exec(Exec(s, a), b)
    decreases |a|
  {
    hide Act;
    if a == [] {
      assert a + b == b;
    } else {
      assert (a + b)[1..] == a[1..] + b;
      ExecAppend(Act(s, a[0]), a[1..], b);
    }
  }

  /** What can still be delivered: an event waiting to be claimed, or ahead of a relay. */
  lemma OpenDelivers(s: Relays, id: EventId) returns (actions: seq<Action>)
    requires Safe(s) && id in Ids(s.outbox) && (id !in s.claimedBy || Ahead(s, id))
    ensures id in Exec(s, actions).accepted && id in Exec(s, actions).handed
  {
    hide Safe, Act, Ids;
    var first := if Ahead(s, id) then [] else [Crash(0), ClaimBatch(0, |s.outbox| + 1)];
    if !Ahead(s, id) {
      PendingGetsAhead(s, id);
    }
    var s1 := Exec(s, first);
    var r, j :| r in s1.relays && AheadAt(s1.relays[r], j, id);
    var rest := AheadDelivers(s1, r, j, id);
    actions := first + rest;
    ExecAppend(s, first, rest);
  }

  /** Delivery is at most once, and exactly this much at least once: some continuation gets an
      event accepted if and only if it already was, is still waiting to be claimed, or is ahead
      of a relay in the batch it is publishing. */
  lemma DeliveryIff(s: Relays, id: EventId)
    requires Safe(s) && id in Ids(s.outbox)
    ensures (exists actions :: id in Exec(s, actions).accepted)
            <==> id in s.accepted || id !in s.claimedBy || Ahead(s, id)
  {
    hide Safe, Act, Ids;
    assert id in s.accepted ==> id in Exec(s, []).accepted;
    if id !in s.claimedBy || Ahead(s, id) {
      var actions := OpenDelivers(s, id);
    } else {
      forall actions ensures id in Exec(s, actions).accepted <==> id in s.accepted {
        SealedForGood(s, actions, id);
      }
    }
  }

  /** The same for handing it to the publisher at all. */
  lemma HandoverIff(s: Relays, id: EventId)
    requires Safe(s) && id in Ids(s.outbox)
    ensures (exists actions :: id in Exec(s, actions).handed)
            <==> id in s.handed || id !in s.claimedBy || Ahead(s, id)
  {
    hide Safe, Act, Ids;
    if id in s.handed {
      assert Exec(s, []).handed == s.handed;
    } else if id !in s.claimedBy || Ahead(s, id) {
      var actions := OpenDelivers(s, id);
    } else {
      forall actions ensures id !in Exec(s, actions).handed {
        SealedForGood(s, actions, id);
      }
    }
  }

  /** Only the relay that claimed an event has it ahead. */
  lemma NobodyElse(s: Relays, r: nat, id: EventId)
    requires Safe(s) && id in s.claimedBy && s.claimedBy[id] == r
    ensures forall q, i :: q in s.relays && AheadAt(s.relays[q], i, id) ==> q == r
    ensures id in s.accepted ==> id in s.handed
  {
    forall q, i | q in s.relays && AheadAt(s.relays[q], i, id) ensures q == r {
      assert Holds(s, q, s.relays[q]);
    }
  }

  /** A relay that crashes, or whose publisher fails, drops the rest of its batch for good: nothing
      from there on is ever accepted, and nothing after the failed event is ever handed over. */
  lemma AbandonedForGood(s: Relays, r: nat, a: Action, j: nat, actions: seq<Action>)
    requires Safe(s) && r in s.relays && s.relays[r].Publishing?
    requires a == Crash(r) || a == PublishNext(r, false)
    requires s.relays[r].done <= j < |s.relays[r].batch|
    ensures var id, s' := s.relays[r].batch[j], Exec(Act(s, a), actions);
            && id !in s'.accepted
            && (a == Crash(r) || j > s.relays[r].done ==> id !in s'.handed)
  {
    var st, s1 := s.relays[r], Act(s, a);
    var id := st.batch[j];
    assert Holds(s, r, st);
    ActSafe(s, a);
    NobodyElse(s, r, id);
    hide Safe;
    forall q, i | q in s1.relays ensures !AheadAt(s1.relays[q], i, id) {
      if q != r {
        assert s1.relays[q] == s.relays[q];
      }
    }
    SealedForGood(s1, actions, id);
  }

  lemma ClaimsFirst(s: Relays, r: nat, limit: int)
    requires Safe(s) && StateOf(s, r).Resting? && FirstPending(s.outbox) < |s.outbox|
    ensures var s1 := Act(s, ClaimBatch(r, limit));
            && r in s1.relays && s1.relays[r].Publishing? && s1.relays[r].done == 0 && |s1.relays[r].batch| > 0
            && s1.relays[r].batch[0] == s.outbox[FirstPending(s.outbox)].eventId
  {
    hide Claim, FirstPending, InflightAt, IdsDistinct, PendingSuffix;
    ClaimTakesNextBatch(s.outbox, limit);
  }

  /** The smallest run that loses an event: one relay claims the first PENDING event and crashes. */
  lemma CrashLosesEvent(s: Relays, r: nat, limit: int, actions: seq<Action>)
    requires Safe(s) && StateOf(s, r).Resting? && FirstPending(s.outbox) < |s.outbox|
    ensures var id, s' := s.outbox[FirstPending(s.outbox)].eventId,
            Exec(Exec(s, [ClaimBatch(r, limit), Crash(r)]), actions);
            id !in s'.handed && id !in s'.accepted
  {
    var a := ClaimBatch(r, limit);
    var s1 := Act(s, a);
    ClaimsFirst(s, r, limit);
    ActSafe(s, a);
    hide Safe, Act, FirstPending;
    AbandonedForGood(s1, r, Crash(r), 0, actions);
    TwoActions(s, a, Crash(r));
  }

  function Elements(ids: seq<EventId>): set<EventId> {
    set id | id in ids
  }

  lemma SliceGrows(batch: seq<EventId>, d: nat, k: nat)
    requires 0 < k && d + k <= |batch|
    ensures batch[d..d + k] == [batch[d]] + batch[d + 1..d + k]
    ensures Elements(batch[d..d + k]) == {batch[d]} + Elements(batch[d + 1..d + k])
    ensures k == 1 ==> batch[d + 1..d + k] == [] && Elements(batch[d + 1..d + k]) == {}
  {
  }

  /** The relay has come from where it stood in its batch to `to`, everything accepted. */
  predicate PublishedTo(s: Relays, s': Relays, r: nat, to: nat)
    requires r in s.relays && s.relays[r].Publishing? && s.relays[r].done <= to <= |s.relays[r].batch|
  {
    var st := s.relays[r];
    && s'.outbox == s.outbox
    && s'.relays == s.relays[r := if to < |st.batch| then Publishing(st.batch, to) else Marking(st.batch)]
    && s'.handed == s.handed + st.batch[st.done..to]
    && s'.accepted == s.accepted + Elements(st.batch[st.done..to])
  }

  lemma PublishesOne(s: Relays, r: nat)
    requires r in s.relays && s.relays[r].Publishing? && s.relays[r].done < |s.relays[r].batch|
    ensures PublishedTo(s, Act(s, PublishNext(r, true)), r, s.relays[r].done + 1)
  {
    SliceGrows(s.relays[r].batch, s.relays[r].done, 1);
  }

  lemma OneOn(s: Relays, s1: Relays, r: nat)
    requires r in s.relays && s.relays[r].Publishing? && s.relays[r].done + 1 < |s.relays[r].batch|
    requires PublishedTo(s, s1, r, s.relays[r].done + 1)
    ensures r in s1.relays && s1.relays[r] == Publishing(s.relays[r].batch, s.relays[r].done + 1)
  {
  }

  lemma Overwritten(m: map<nat, RelayState>, r: nat, a: RelayState, b: RelayState)
    ensures m[r := a][r := b] == m[r := b]
  {
  }

  lemma SlicesJoin(handed: seq<EventId>, accepted: set<EventId>, batch: seq<EventId>, d: nat, to: nat)
    requires d + 1 <= to <= |batch|
    ensures handed + batch[d..d + 1] + batch[d + 1..to] == handed + batch[d..to]
    ensures accepted + Elements(batch[d..d + 1]) + Elements(batch[d + 1..to]) == accepted + Elements(batch[d..to])
  {
    assert batch[d..to] == batch[d..d + 1] + batch[d + 1..to];
  }

  lemma PublishedMore(s: Relays, s1: Relays, s2: Relays, r: nat, to: nat)
    requires r in s.relays && s.relays[r].Publishing? && s.relays[r].done + 1 < to <= |s.relays[r].batch|
    requires PublishedTo(s, s1, r, s.relays[r].done + 1)
    requires r in s1.relays && s1.relays[r] == Publishing(s.relays[r].batch, s.relays[r].done + 1)
    requires PublishedTo(s1, s2, r, to)
    ensures PublishedTo(s, s2, r, to)
  {
    var st := s.relays[r];
    Overwritten(s.relays, r, s1.relays[r], s2.relays[r]);
    SlicesJoin(s.handed, s.accepted, st.batch, st.done, to);
    hide Elements;
  }

  /** One relay publishing on, all accepted. */
  lemma {:induction false} PublishesOn(s: Relays, r: nat, k: nat)
    requires r in s.relays && s.relays[r].Publishing? && 0 < k && s.relays[r].done + k <= |s.relays[r].batch|
    ensures PublishedTo(s, Exec(s, seq(k, _ => PublishNext(r, true))), r, s.relays[r].done + k)
    decreases k
  {
    hide Act, PublishedTo;
    var a, all, rest := PublishNext(r, true), seq(k, _ => PublishNext(r, true)), seq(k - 1, _ => PublishNext(r, true));
    var s1 := Act(s, a);
    PublishesOne(s, r);
    assert all[0] == a && all[1..] == rest;
    assert Exec(s, all) == Exec(s1, rest);
    if k > 1 {
      OneOn(s, s1, r);
      PublishesOn(s1, r, k - 1);
      PublishedMore(s, s1, Exec(s1, rest), r, s.relays[r].done + k);
    } else {
      assert rest == [] && Exec(s1, []) == s1;
    }
  }

  /** What one relay does in a drain whose publisher accepts the first `good` events of `n`. */
  function Pass(r: nat, limit: int, n: nat, good: nat): seq<Action> {
    var publish := if good < n then seq(good, _ => PublishNext(r, true)) + [PublishNext(r, false)]
                   else seq(n, _ => PublishNext(r, true));
    [ClaimBatch(r, limit)] + (publish + if good == 0 || n == 0 then [] else [MarkBatch(r)])
  }

  lemma PublishesBatch(s: Relays, r: nat, good: nat)
    requires r in s.relays && s.relays[r].Publishing? && s.relays[r].done == 0 && s.relays[r].batch != []
    ensures var ids := s.relays[r].batch;
            var n, k := |ids|, if good < |ids| then good else |ids|;
            var publish := if good < n then seq(good, _ => PublishNext(r, true)) + [PublishNext(r, false)]
                           else seq(n, _ => PublishNext(r, true));
            var s' := Exec(s, publish);
            && s'.outbox == s.outbox
            && s'.relays == s.relays[r := if k == 0 then Resting else Marking(ids[..k])]
            && s'.accepted == s.accepted + Elements(ids[..k])
            && s'.handed == s.handed + ids[..if good < n then good + 1 else n]
  {
    var ids := s.relays[r].batch;
    if good >= |ids| {
      PublishesOn(s, r, |ids|);
      assert ids[..|ids|] == ids && ids[0..|ids|] == ids;
    } else {
      var first := seq(good, _ => PublishNext(r, true));
      var s1 := Exec(s, first);
      if good > 0 {
        PublishesOn(s, r, good);
        assert ids[0..good] == ids[..good];
      } else {
        assert first == [];
      }
      ExecAppend(s, first, [PublishNext(r, false)]);
      assert Exec(s1, [PublishNext(r, false)]) == Exec(Act(s1, PublishNext(r, false)), []);
      assert ids[..good] + [ids[good]] == ids[..good + 1];
    }
  }

  lemma IdsPrefix(events: seq<OutboxEvent>, k: nat)
    requires k <= |events|
    ensures Ids(events)[..k] == Ids(events[..k]) && |Ids(events)| == |events|
  {
  }

  lemma NothingMarked(outbox: seq<OutboxEvent>, events: seq<OutboxEvent>)
    ensures MarkAll(outbox, Ids(events[..0])) == outbox
  {
    assert Ids(events[..0]) == [];
  }

  /** The machine's actions of one undisturbed relay amount to its drain: the same outbox, and the
      accepted events are the drain's. */
  lemma PassIsDrain(s: Relays, r: nat, limit: int, good: nat)
    requires StateOf(s, r).Resting? && Claim(s.outbox, limit).events != []
    ensures var events := Claim(s.outbox, limit).events;
            var n, d := |events|, Drain(s.outbox, limit, good);
            var s' := Exec(s, Pass(r, limit, n, good));
            && s'.outbox == d.outbox && StateOf(s', r).Resting?
            && s'.accepted == s.accepted + Elements(Ids(d.accepted))
            && s'.handed == s.handed + Ids(events)[..if good < n then good + 1 else n]
  {
    hide Claim, MarkAll, Ids;
    var c := Claim(s.outbox, limit);
    var n, k := |c.events|, if good < |c.events| then good else |c.events|;
    IdsPrefix(c.events, k);
    var claim := ClaimBatch(r, limit);
    var s1 := Act(s, claim);
    var publish := if good < n then seq(good, _ => PublishNext(r, true)) + [PublishNext(r, false)]
                   else seq(n, _ => PublishNext(r, true));
    var mark := if good == 0 || n == 0 then [] else [MarkBatch(r)];
    PublishesBatch(s1, r, good);
    var s2 := Exec(s1, publish);
    ExecAppend(s1, publish, mark);
    var all := Pass(r, limit, n, good);
    assert all[0] == claim && all[1..] == publish + mark;
    assert Exec(s, all) == Exec(s1, publish + mark);
    if mark == [] {
      assert Exec(s2, mark) == s2;
      NothingMarked(c.outbox, c.events);
    } else {
      assert Exec(s2, mark) == Exec(Act(s2, MarkBatch(r)), []);
    }
    hide Exec;
  }
}
