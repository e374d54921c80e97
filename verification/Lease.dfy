/** The in-memory lease: a map of held keys, and grants that are released once, in two steps. */
module LeaseMachine {
  import opened Dedup

  type Owner = string

  /** A grant is RELEASING from the moment its release wins the once-guard until the map is updated. */
  datatype Phase = Held | Releasing | Released

  datatype Grant = Grant(tx: TxId, owner: Owner, phase: Phase)

  /** The map of the lease, and every grant it ever made, in order. */
  datatype LeaseState = LeaseState(locks: map<string, Owner>, grants: seq<Grant>)

  datatype LeaseAct =
    | Acquire(tx: TxId, owner: Owner)
    | BeginRelease(g: nat)
    | EndRelease(g: nat)

  const NO_LEASES := LeaseState(map[], [])

  function LeaseKey(tx: TxId): string {
    "lease:" + tx
  }

  lemma LeaseKeyInjective(a: TxId, b: TxId)
    ensures LeaseKey(a) == LeaseKey(b) <==> a == b
    ensures |LeaseKey(a)| == 6 + |a| && LeaseKey(a)[..6] == "lease:" && LeaseKey(a)[6..] == a
  {
    assert LeaseKey(a)[|"lease:"|..] == a && LeaseKey(b)[|"lease:"|..] == b;
  }

  /** The map update of a release: the entry goes only if it still names the owner. */
  function Freed(locks: map<string, Owner>, key: string, owner: Owner): map<string, Owner> {
    if key in locks && locks[key] == owner then locks - {key} else locks
  }

  /** One critical section. Any number of calls may ask for the same release; only the first gets
      past the once-guard. */
  function LeaseStep(s: LeaseState, a: LeaseAct): LeaseState {
    match a
    case Acquire(tx, owner) =>
      if LeaseKey(tx) in s.locks then s
      else LeaseState(s.locks[LeaseKey(tx) := owner], s.grants + [Grant(tx, owner, Held)])
    case BeginRelease(g) =>
      if g < |s.grants| && s.grants[g].phase.Held? then s.(grants := s.grants[g := s.grants[g].(phase := Releasing)])
      else s
    case EndRelease(g) =>
      if g < |s.grants| && s.grants[g].phase.Releasing? then
        LeaseState(Freed(s.locks, LeaseKey(s.grants[g].tx), s.grants[g].owner),
                   s.grants[g := s.grants[g].(phase := Released)])
      else s
  }

  function LeaseExec(s: LeaseState, acts: seq<LeaseAct>): LeaseState
    decreases |acts|
  {
    if acts == [] then s else LeaseExec(LeaseStep(s, acts[0]), acts[1..])
  }

  predicate Outstanding(s: LeaseState, g: nat) {
    g < |s.grants| && !s.grants[g].phase.Released?
  }

  /** Outstanding grants and map entries are in bijection. */
  ghost predicate Mutex(s: LeaseState) {
    && (forall g: nat :: Outstanding(s, g) ==>
          LeaseKey(s.grants[g].tx) in s.locks && s.locks[LeaseKey(s.grants[g].tx)] == s.grants[g].owner)
    && (forall g: nat, h: nat :: Outstanding(s, g) && Outstanding(s, h) && s.grants[g].tx == s.grants[h].tx ==> g == h)
    && (forall k :: k in s.locks ==> exists g: nat :: Outstanding(s, g) && k == LeaseKey(s.grants[g].tx))
  }

  lemma GrantKeepsMutex(s: LeaseState, tx: TxId, owner: Owner)
    requires Mutex(s) && LeaseKey(tx) !in s.locks
    ensures Mutex(LeaseState(s.locks[LeaseKey(tx) := owner], s.grants + [Grant(tx, owner, Held)]))
  {
    hide LeaseKey;
    var s' := LeaseState(s.locks[LeaseKey(tx) := owner], s.grants + [Grant(tx, owner, Held)]);
    assert forall h: nat :: Outstanding(s', h) <==> Outstanding(s, h) || h == |s.grants|;
    assert forall h: nat :: Outstanding(s, h) ==> s'.grants[h] == s.grants[h];
    forall h: nat | Outstanding(s, h) ensures s.grants[h].tx != tx {
      assert LeaseKey(s.grants[h].tx) in s.locks;
    }
    forall k | k in s'.locks ensures exists h: nat :: Outstanding(s', h) && k == LeaseKey(s'.grants[h].tx) {
      if k == LeaseKey(tx) {
        assert Outstanding(s', |s.grants|);
      } else {
        var h: nat :| Outstanding(s, h) && k == LeaseKey(s.grants[h].tx);
        assert Outstanding(s', h);
      }
    }
  }

  lemma FreeingKeepsMutex(s: LeaseState, g: nat)
    requires Mutex(s) && Outstanding(s, g)
    ensures Mutex(LeaseState(s.locks - {LeaseKey(s.grants[g].tx)}, s.grants[g := s.grants[g].(phase := Released)]))
  {
    var key := LeaseKey(s.grants[g].tx);
    forall h: nat | Outstanding(s, h) && h != g ensures LeaseKey(s.grants[h].tx) != key {
      LeaseKeyInjective(s.grants[h].tx, s.grants[g].tx);
    }
    hide LeaseKey;
    var s' := LeaseState(s.locks - {key}, s.grants[g := s.grants[g].(phase := Released)]);
    assert forall h: nat :: Outstanding(s', h) <==> Outstanding(s, h) && h != g;
    assert forall h: nat :: Outstanding(s', h) ==> s'.grants[h] == s.grants[h];
    forall k | k in s'.locks ensures exists h: nat :: Outstanding(s', h) && k == LeaseKey(s'.grants[h].tx) {
      var h: nat :| Outstanding(s, h) && k == LeaseKey(s.grants[h].tx);
      assert Outstanding(s', h);
    }
  }

  /** A release in progress always finds its own entry, and takes that one only. */
  lemma EndKeepsMutex(s: LeaseState, g: nat)
    requires Mutex(s)
    ensures Mutex(LeaseStep(s, EndRelease(g)))
    ensures g < |s.grants| && s.grants[g].phase.Releasing? ==>
              LeaseStep(s, EndRelease(g)).locks == s.locks - {LeaseKey(s.grants[g].tx)}
  {
    hide LeaseKey;
    if g < |s.grants| && s.grants[g].phase.Releasing? {
      assert Outstanding(s, g);
      FreeingKeepsMutex(s, g);
    }
  }

  lemma StepKeepsMutex(s: LeaseState, a: LeaseAct)
    requires Mutex(s)
    ensures Mutex(LeaseStep(s, a))
  {
    hide LeaseKey, Freed;
    match a
    case Acquire(tx, owner) =>
      if LeaseKey(tx) !in s.locks {
        GrantKeepsMutex(s, tx, owner);
      }
    case BeginRelease(g) =>
      var s' := LeaseStep(s, a);
      assert forall h: nat :: Outstanding(s, h) <==> Outstanding(s', h);
    case EndRelease(g) =>
      EndKeepsMutex(s, g);
  }

  lemma {:induction false} ExecKeepsMutex(s: LeaseState, acts: seq<LeaseAct>)
    requires Mutex(s)
    ensures Mutex(LeaseExec(s, acts))
    decreases |acts|
  {
    hide Mutex, LeaseStep;
    if acts != [] {
      StepKeepsMutex(s, acts[0]);
      ExecKeepsMutex(LeaseStep(s, acts[0]), acts[1..]);
    }
  }

  /** In every interleaving of acquires and releases, repeated releases and shared owner names
      included, at most one grant of a transaction is outstanding and the map holds exactly the
      outstanding grants. */
  lemma LeaseIsMutex(acts: seq<LeaseAct>)
    ensures Mutex(LeaseExec(NO_LEASES, acts))
  {
    ExecKeepsMutex(NO_LEASES, acts);
  }

  /** An acquire is granted if and only if no grant of the transaction is outstanding. */
  lemma GrantedIff(acts: seq<LeaseAct>, tx: TxId, owner: Owner)
    ensures var s := LeaseExec(NO_LEASES, acts);
            |LeaseStep(s, Acquire(tx, owner)).grants| == |s.grants| + 1
            <==> forall g: nat :: Outstanding(s, g) ==> s.grants[g].tx != tx
  {
    var s := LeaseExec(NO_LEASES, acts);
    LeaseIsMutex(acts);
    if LeaseKey(tx) in s.locks {
      var g: nat :| Outstanding(s, g) && LeaseKey(tx) == LeaseKey(s.grants[g].tx);
      LeaseKeyInjective(s.grants[g].tx, tx);
    }
  }

  lemma EntryOf(s: LeaseState, g: nat)
    requires Mutex(s) && Outstanding(s, g)
    ensures LeaseKey(s.grants[g].tx) in s.locks && s.locks[LeaseKey(s.grants[g].tx)] == s.grants[g].owner
  {
  }

  lemma StepKeepsGrant(s: LeaseState, a: LeaseAct, g: nat)
    requires Mutex(s) && Outstanding(s, g) && a != EndRelease(g)
    ensures var s1 := LeaseStep(s, a);
            && Outstanding(s1, g) && s1.grants[g].tx == s.grants[g].tx && s1.grants[g].owner == s.grants[g].owner
            && |s1.grants| >= |s.grants|
            && (forall h :: 0 <= h < |s.grants| ==> s1.grants[h].tx == s.grants[h].tx)
            && forall h :: |s.grants| <= h < |s1.grants| ==> s1.grants[h].tx != s.grants[g].tx
  {
    hide LeaseKey, Freed;
    EntryOf(s, g);
    hide Mutex;
  }

  /** Until its own release ends, a grant keeps its entry and shuts out every other grant of the
      transaction, whatever else is acquired and released meanwhile. */
  lemma {:induction false} HeldUntilReleased(s: LeaseState, acts: seq<LeaseAct>, g: nat)
    requires Mutex(s) && Outstanding(s, g) && EndRelease(g) !in acts
    ensures var s', key := LeaseExec(s, acts), LeaseKey(s.grants[g].tx);
            && Outstanding(s', g) && s'.grants[g].tx == s.grants[g].tx && s'.grants[g].owner == s.grants[g].owner
            && key in s'.locks && s'.locks[key] == s.grants[g].owner
            && |s'.grants| >= |s.grants|
            && (forall h :: 0 <= h < |s.grants| ==> s'.grants[h].tx == s.grants[h].tx)
            && forall h :: |s.grants| <= h < |s'.grants| ==> s'.grants[h].tx != s.grants[g].tx
    decreases |acts|
  {
    hide Mutex, LeaseStep, LeaseKey;
    if acts == [] {
      EntryOf(s, g);
    } else {
      var s1 := LeaseStep(s, acts[0]);
      StepKeepsMutex(s, acts[0]);
      StepKeepsGrant(s, acts[0], g);
      HeldUntilReleased(s1, acts[1..], g);
      assert LeaseExec(s, acts) == LeaseExec(s1, acts[1..]);
    }
  }

  /** A release from start to end: what the first call does, and that a later one does nothing. */
  lemma ReleasedOnce(s: LeaseState, g: nat)
    requires Mutex(s) && g < |s.grants| && !s.grants[g].phase.Releasing?
    ensures var s' := LeaseStep(LeaseStep(s, BeginRelease(g)), EndRelease(g));
            && Mutex(s')
            && (if Outstanding(s, g) then
                  && s' == LeaseState(s.locks - {LeaseKey(s.grants[g].tx)},
                     s.grants[g := s.grants[g].(phase := Released)])
                  && LeaseKey(s.grants[g].tx) in s.locks && s.locks[LeaseKey(s.grants[g].tx)] == s.grants[g].owner
                else s' == s)
  {
    hide LeaseKey;
    if Outstanding(s, g) {
      EntryOf(s, g);
      FreeingKeepsMutex(s, g);
      hide Mutex;
      assert s.grants[g := s.grants[g].(phase := Releasing)][g := s.grants[g].(phase := Released)]
             == s.grants[g := s.grants[g].(phase := Released)];
    }
  }

  /** Why the once-guard is there: running the map update of a finished release again would free
      an entry exactly when some other grant of the transaction with the same owner is
      outstanding, which is the case whenever one process, with its one owner name, has the
      lease again. */
  lemma UnguardedReleaseFreesIff(acts: seq<LeaseAct>, g: nat)
    requires var s := LeaseExec(NO_LEASES, acts); g < |s.grants| && s.grants[g].phase.Released?
    ensures var s := LeaseExec(NO_LEASES, acts);
            Freed(s.locks, LeaseKey(s.grants[g].tx), s.grants[g].owner) != s.locks
            <==> exists h: nat ::
                   && Outstanding(s, h) && h != g
                   && s.grants[h].tx == s.grants[g].tx && s.grants[h].owner == s.grants[g].owner
  {
    var s := LeaseExec(NO_LEASES, acts);
    LeaseIsMutex(acts);
    var key := LeaseKey(s.grants[g].tx);
    if key in s.locks {
      assert key !in s.locks - {key};
      var h: nat :| Outstanding(s, h) && key == LeaseKey(s.grants[h].tx);
      LeaseKeyInjective(s.grants[h].tx, s.grants[g].tx);
    }
  }
}

/** The lease as an object whose map is updated in place. */
module InMemoryLeases {
  import opened Options
  import opened Dedup
  import opened LeaseMachine

  class InMemoryLease {
    var locks: map<string, Owner>
    ghost var grants: seq<Grant>
    ghost var handles: seq<Release>

    ghost function State(): LeaseState
      reads this
    {
      LeaseState(locks, grants)
    }

    /** Every grant has its release, and the release knows whether it was used. */
    ghost predicate Valid()
      reads this, set h | h in handles
    {
      && Mutex(State())
      && |handles| == |grants|
      && (forall g :: 0 <= g < |handles| ==>
            && handles[g].lease == this && handles[g].g == g && handles[g].done == grants[g].phase.Released?
               && !grants[g].phase.Releasing?
            && handles[g].key == LeaseKey(grants[g].tx) && handles[g].owner == grants[g].owner)
    }

    constructor ()
      ensures Valid() && State() == NO_LEASES && handles == []
    {
      locks, grants, handles := map[], [], [];
    }

    method Acquire(tx: TxId, owner: Owner) returns (release: Option<Release>)
      requires Valid()
      modifies this
      ensures Valid() && State() == LeaseStep(old(State()), LeaseAct.Acquire(tx, owner))
      ensures release.None? <==> LeaseKey(tx) in old(locks)
      ensures release.None? ==> handles == old(handles)
      ensures release.Some? ==> fresh(release.value) && handles == old(handles) + [release.value]
    {
      var key := LeaseKey(tx);
      StepKeepsMutex(State(), LeaseAct.Acquire(tx, owner));
      if key in locks {
        return None;
      }
      locks := locks[key := owner];
      var r := new Release(this, key, owner, |grants|);
      grants := grants + [Grant(tx, owner, Held)];
      handles := handles + [r];
      release := Some(r);
    }
  }

  /** The closure an acquire hands out. */
  class Release {
    const lease: InMemoryLease
    const key: string
    const owner: Owner
    ghost const g: nat
    var done: bool

    constructor (lease: InMemoryLease, key: string, owner: Owner, ghost g: nat)
      ensures this.lease == lease && this.key == key && this.owner == owner && this.g == g && !done
    {
      this.lease, this.key, this.owner, this.g := lease, key, owner, g;
      done := false;
    }

    /** The first call frees the entry of this grant and no other; later calls do nothing. */
    method Run()
      requires lease.Valid() && g < |lease.handles| && lease.handles[g] == this
      modifies this, lease
      ensures lease.Valid() && lease.handles == old(lease.handles) && done
      ensures lease.State() == LeaseStep(LeaseStep(old(lease.State()), BeginRelease(g)), EndRelease(g))
      ensures lease.locks == if old(done) then old(lease.locks) else old(lease.locks) - {key}
    {
      hide Mutex, LeaseKey;
      ghost var s := lease.State();
      ReleasedOnce(s, g);
      if done {
        return;
      }
      done := true;
      if key in lease.locks && lease.locks[key] == owner {
        lease.locks := lease.locks - {key};
      }
      lease.grants := lease.grants[g := lease.grants[g].(phase := Released)];
    }
  }
}
