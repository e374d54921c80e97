/** The service as a whole: a process with its dispatcher's workers, each driving the saga of the
    job it took one action at a time, over one outbox that all transactions and the relay share.
    The process may be killed at any moment and booted again. That each transaction has a single
    flight is not assumed here but follows from the dispatcher. */
module Service {
  import opened Options
  import opened StateMachine
  import opened Dedup
  import opened Store
  import opened Partners
  import opened ExecutorSpec
  import opened Invariants
  import opened RunTheorems
  import M = CrashMachine
  import T = CrashTheorems
  import Sim = Simulation
  import D = Dispatcher
  import opened Outbox
  import opened RelayRaces
  import opened Fleet

  /** What belongs to one transaction: its rows, what its partners have seen, and its history. */
  datatype Life = Life(txn: TxRow, saga: SagaRow, rows: map<RowKey, StepStatus>, fx: Effects,
                       history: seq<SagaRow>, crashes: nat, lost: M.Tally)

  /** The pool and what each worker is about to do are the process's; the lives and the outbox
      outlast it. */
  datatype State = State(pool: D.Pool, controls: map<nat, M.Pc>, lives: map<TxId, Life>, outbox: seq<OutboxEvent>)

  datatype Event =
    | Create(tx: TxId, id: EventId)
    | Boot
    | Submit(tx: TxId, dropped: bool)
    | Take(worker: nat)
    | Work(worker: nat)
    | Finish(worker: nat)
    | Quit(worker: nat)
    | Stop
    | Kill
    | RelayClaims(limit: int)
    | RelayMarks(ids: seq<EventId>)

  /** What does not change: the dispatcher's configuration and each transaction's environment. */
  datatype Setup = Setup(config: D.Config, envs: TxId -> Env)

  function Control(s: State, w: nat): M.Pc {
    if w in s.controls then s.controls[w] else M.Idle
  }

  function JobOf(pool: D.Pool, w: nat): Option<TxId> {
    if w < |pool.workers| && pool.workers[w].running.Some? then Some(pool.workers[w].running.value.tx) else None
  }

  /** What is being done for a transaction: what the worker of its partition is doing, if that
      worker has taken it. */
  function PcOf(u: Setup, s: State, tx: TxId): M.Pc {
    var w := u.config.PartitionOf(tx);
    if JobOf(s.pool, w) == Some(tx) then Control(s, w) else M.Idle
  }

  function TablesOf(s: State, tx: TxId): Tables
    requires tx in s.lives
  {
    Tables(s.lives[tx].txn, s.lives[tx].saga, s.lives[tx].rows, s.outbox)
  }

  /** The transaction's machine, with a given program counter. */
  function MachineAt(s: State, tx: TxId, pc: M.Pc): M.Machine
    requires tx in s.lives
  {
    var l := s.lives[tx];
    M.Machine(pc, World(TablesOf(s, tx), l.fx), l.history, l.crashes, l.lost)
  }

  function LifeOf(m: M.Machine): Life {
    Life(m.world.tables.txn, m.world.tables.saga, m.world.tables.rows, m.world.fx, m.history, m.crashes, m.lost)
  }

  function NewLife(tx: TxId): Life {
    var t := CreatedTables(tx, [], 0);
    Life(t.txn, t.saga, t.rows, NO_EFFECTS, [t.saga], 0, M.Tally(0, 0, 0))
  }

  /** A new transaction comes in. */
  function Opened(s: State, tx: TxId, id: EventId): State {
    s.(lives := s.lives[tx := NewLife(tx)], outbox := s.outbox + [NewEvent(id, tx, TxCreated, None, 0)])
  }

  /** An idle worker takes the next job of its partition and starts a run. */
  function Taken(u: Setup, s: State, w: nat): State
    requires |s.pool.queues| == u.config.Size()
  {
    var pool := D.PoolStep(u.config, s.pool, D.Take(w));
    var job := JobOf(pool, w);
    if JobOf(s.pool, w).Some? || job.None? then s
    else
      var pc := if job.value in s.lives then
                  M.Act(u.envs(job.value), MachineAt(s, job.value, M.Idle), M.StartRun).pc
                else M.Idle;
      s.(pool := pool, controls := s.controls[w := pc])
  }

  /** A busy worker does the next action of its run. */
  function Worked(u: Setup, s: State, w: nat): State {
    var job := JobOf(s.pool, w);
    if job.None? || job.value !in s.lives then s
    else
      var m := M.Act(u.envs(job.value), MachineAt(s, job.value, Control(s, w)), M.Go);
      s.(lives := s.lives[job.value := LifeOf(m)], controls := s.controls[w := m.pc], outbox := m.world.tables.outbox)
  }

  /** The process dies with its pool and everything its workers were about to do. */
  function Killed(u: Setup, s: State): State {
    State(D.NewPool(u.config), map[],
          map tx | tx in s.lives :: LifeOf(M.Act(u.envs(tx), MachineAt(s, tx, PcOf(u, s, tx)), M.Crash)), s.outbox)
  }

  function Step(u: Setup, s: State, e: Event): State
    requires |s.pool.queues| == u.config.Size()
  {
    match e
    case Create(tx, id) => if tx in s.lives || !PipeFree(tx) then s else Opened(s, tx, id)
    case Boot => if s.pool.workers == [] then s.(pool := D.PoolStep(u.config, s.pool, D.Start)) else s
    case Submit(tx, dropped) => s.(pool := D.PoolStep(u.config, s.pool, D.Submit(tx, dropped)))
    case Take(w) => Taken(u, s, w)
    case Work(w) => Worked(u, s, w)
    case Finish(w) =>
      if Control(s, w) != M.Idle then s else s.(pool := D.PoolStep(u.config, s.pool, D.Finish(w)))
    case Quit(w) => s.(pool := D.PoolStep(u.config, s.pool, D.Exit(w)))
    case Stop => s.(pool := D.PoolStep(u.config, s.pool, D.Stop))
    case Kill => Killed(u, s)
    case RelayClaims(limit) => s.(outbox := Claim(s.outbox, limit).outbox)
    case RelayMarks(ids) => s.(outbox := MarkAll(s.outbox, ids))
  }

  function Exec(u: Setup, events: seq<Event>): (s: State)
    ensures |s.pool.queues| == u.config.Size()
    decreases |events|
  {
    if events == [] then State(D.NewPool(u.config), map[], map[], [])
    else Step(u, Exec(u, events[..|events| - 1]), events[|events| - 1])
  }

  /** Each transaction's environment is its own. */
  ghost predicate Proper(u: Setup) {
    forall tx :: u.envs(tx).tx == tx
  }

  ghost predicate SoundFor(u: Setup, s: State, tx: TxId)
    requires tx in s.lives
  {
    M.Sound(u.envs(tx), MachineAt(s, tx, PcOf(u, s, tx)))
  }

  /** Every transaction of the service is in a sound state of its own machine, and no two workers
      are on the same one. */
  ghost predicate Healthy(u: Setup, s: State) {
    && D.Flow(u.config, s.pool)
    && KeysFaithful(s.outbox) && KeysDistinct(s.outbox)
    && (forall e :: e in s.outbox ==> e.txId in s.lives)
    && forall tx :: if tx in s.lives then SoundFor(u, s, tx) else PcOf(u, s, tx) == M.Idle
  }

  lemma PoolKeepsFlow(c: D.Config, pool: D.Pool, a: D.PoolAct)
    requires D.Flow(c, pool) && (a == D.Start ==> pool.workers == [])
    ensures D.Flow(c, D.PoolStep(c, pool, a))
  {
    hide D.PoolStep, D.FlowAt, D.OneEach;
    D.StepKeepsFlow(c, pool, a, 0);
    forall p: nat | p < c.Size() ensures D.FlowAt(c, D.PoolStep(c, pool, a), p) {
      D.StepKeepsFlow(c, pool, a, p);
    }
  }

  /** A worker's job belongs to its own partition, so no other worker has it. */
  lemma OwnPartition(u: Setup, s: State, w: nat)
    requires D.Flow(u.config, s.pool) && JobOf(s.pool, w).Some?
    ensures u.config.PartitionOf(JobOf(s.pool, w).value) == w
    ensures PcOf(u, s, JobOf(s.pool, w).value) == Control(s, w)
  {
    D.RunsItsPartition(u.config, s.pool, w);
  }

  /** Soundness looks at the outbox only through the invariant of the tables. */
  lemma SoundWithOutbox(env: Env, m: M.Machine, outbox: seq<OutboxEvent>)
    requires M.Sound(env, m) && Core(env.tx, m.world.tables.(outbox := outbox))
    ensures M.Sound(env, m.(world := m.world.(tables := m.world.tables.(outbox := outbox))))
  {
    hide Core, M.LegalPath;
  }

  lemma SoundHasCore(env: Env, m: M.Machine)
    requires M.Sound(env, m)
    ensures Core(env.tx, m.world.tables)
  {
  }

  /** Another transaction's action, seen from here: only the outbox has grown. */
  lemma OthersWork(u: Setup, s: State, s': State, tx: TxId, other: TxId)
    requires Proper(u) && other in s.lives && other in s'.lives && other != tx && SoundFor(u, s, other)
    requires s'.lives[other] == s.lives[other] && PcOf(u, s', other) == PcOf(u, s, other)
    requires s.outbox <= s'.outbox && forall i :: |s.outbox| <= i < |s'.outbox| ==> s'.outbox[i].txId == tx
    requires KeysFaithful(s'.outbox) && KeysDistinct(s'.outbox)
    ensures SoundFor(u, s', other)
  {
    hide M.Sound, Core, PcOf, KeysFaithful, KeysDistinct;
    var m := MachineAt(s, other, PcOf(u, s, other));
    SoundHasCore(u.envs(other), m);
    OtherStaysCore(tx, TablesOf(s, other), s'.outbox, other);
    SoundWithOutbox(u.envs(other), m, s'.outbox);
  }

  lemma EventsKnown(s: State, s': State, tx: TxId)
    requires forall e :: e in s.outbox ==> e.txId in s.lives
    requires s.outbox <= s'.outbox && forall i :: |s.outbox| <= i < |s'.outbox| ==> s'.outbox[i].txId == tx
    requires s'.lives.Keys == s.lives.Keys + {tx}
    ensures forall e :: e in s'.outbox ==> e.txId in s'.lives
  {
    forall e | e in s'.outbox ensures e.txId in s'.lives {
      var i :| 0 <= i < |s'.outbox| && s'.outbox[i] == e;
      if i < |s.outbox| {
        assert s.outbox[i] in s.outbox;
        assert e.txId in s.lives.Keys;
      } else {
        assert tx in s'.lives.Keys;
      }
    }
  }

  /** An action of one transaction, seen from the whole service. */
  lemma OneActsHealthy(u: Setup, s: State, s': State, tx: TxId)
    requires Proper(u) && Healthy(u, s) && D.Flow(u.config, s'.pool)
    requires s'.lives.Keys == s.lives.Keys + {tx} && SoundFor(u, s', tx)
    requires forall other :: other != tx ==> PcOf(u, s', other) == PcOf(u, s, other)
    requires forall other :: other != tx && other in s.lives ==> s'.lives[other] == s.lives[other]
    requires s.outbox <= s'.outbox && forall i :: |s.outbox| <= i < |s'.outbox| ==> s'.outbox[i].txId == tx
    requires KeysFaithful(s'.outbox) && KeysDistinct(s'.outbox)
    ensures Healthy(u, s')
  {
    hide D.Flow, SoundFor, PcOf, KeysFaithful, KeysDistinct;
    EventsKnown(s, s', tx);
    forall other ensures if other in s'.lives then SoundFor(u, s', other) else PcOf(u, s', other) == M.Idle {
      assert other in s'.lives <==> other in s.lives.Keys + {tx};
      if other != tx && other in s'.lives {
        OthersWork(u, s, s', tx, other);
      }
    }
  }

  lemma PoolOnlyPcs(u: Setup, s: State, pool: D.Pool)
    requires forall w: nat :: JobOf(pool, w) == JobOf(s.pool, w) || (JobOf(pool, w).None? && Control(s, w) == M.Idle)
    ensures forall tx :: PcOf(u, s.(pool := pool), tx) == PcOf(u, s, tx)
  {
    hide JobOf;
  }

  /** Pool events that take no job and end none leave every transaction where it is. */
  lemma PoolOnlyHealthy(u: Setup, s: State, pool: D.Pool)
    requires Proper(u) && Healthy(u, s) && D.Flow(u.config, pool)
    requires forall w: nat :: JobOf(pool, w) == JobOf(s.pool, w) || (JobOf(pool, w).None? && Control(s, w) == M.Idle)
    ensures Healthy(u, s.(pool := pool))
  {
    hide M.Sound, D.Flow, KeysFaithful, KeysDistinct, PcOf, JobOf, Control;
    PoolOnlyPcs(u, s, pool);
    var s' := s.(pool := pool);
    forall tx | tx in s'.lives ensures SoundFor(u, s', tx) {
      assert SoundFor(u, s, tx);
    }
  }

  lemma OthersKeepJobs(c: D.Config, pool: D.Pool, w: nat)
    requires |pool.queues| == c.Size()
    ensures forall v: nat :: v != w ==> JobOf(D.PoolStep(c, pool, D.Take(w)), v) == JobOf(pool, v)
  {
  }

  lemma StartMovesOnlyPc(env: Env, m: M.Machine)
    ensures M.Act(env, m, M.StartRun) == m.(pc := M.Act(env, m, M.StartRun).pc)
  {
  }

  /** Whatever a worker is about to do matters to the transaction it has taken only. */
  lemma ElsewhereSame(u: Setup, s: State, s': State, w: nat, tx: TxId)
    requires JobOf(s'.pool, w) == Some(tx) && (JobOf(s.pool, w).None? || JobOf(s.pool, w) == Some(tx))
    requires forall v: nat :: v != w ==> JobOf(s'.pool, v) == JobOf(s.pool, v) && Control(s', v) == Control(s, v)
    ensures forall other :: other != tx ==> PcOf(u, s', other) == PcOf(u, s, other)
  {
  }

  lemma TakenSound(u: Setup, s: State, s': State, tx: TxId)
    requires Proper(u) && tx in s.lives && SoundFor(u, s, tx) && PcOf(u, s, tx) == M.Idle
    requires s'.lives == s.lives && s'.outbox == s.outbox
    requires PcOf(u, s', tx) == M.Act(u.envs(tx), MachineAt(s, tx, M.Idle), M.StartRun).pc
    ensures SoundFor(u, s', tx)
  {
    hide M.Sound, PcOf;
    var m := MachineAt(s, tx, M.Idle);
    T.ActKeepsSound(u.envs(tx), m, M.StartRun);
    StartMovesOnlyPc(u.envs(tx), m);
    hide M.Act;
    assert MachineAt(s', tx, PcOf(u, s', tx)) == M.Act(u.envs(tx), m, M.StartRun);
  }

  lemma NobodyHealthy(u: Setup, s: State, s': State, tx: TxId)
    requires Proper(u) && Healthy(u, s) && D.Flow(u.config, s'.pool)
    requires s'.lives == s.lives && s'.outbox == s.outbox && tx !in s.lives && PcOf(u, s', tx) == M.Idle
    requires forall other :: other != tx ==> PcOf(u, s', other) == PcOf(u, s, other)
    ensures Healthy(u, s')
  {
    hide D.Flow, M.Sound, PcOf, KeysFaithful, KeysDistinct;
    forall other ensures if other in s'.lives then SoundFor(u, s', other) else PcOf(u, s', other) == M.Idle {
      assert if other in s.lives then SoundFor(u, s, other) else PcOf(u, s, other) == M.Idle;
    }
  }

  lemma TakenFacts(u: Setup, s: State, w: nat)
    requires D.Flow(u.config, s.pool)
    ensures var s' := Taken(u, s, w);
            && D.Flow(u.config, s'.pool) && s'.lives == s.lives && s'.outbox == s.outbox
            && (s' != s ==>
                  && JobOf(s.pool, w).None? && JobOf(s'.pool, w).Some?
                  && (forall v: nat :: v != w ==>
                        JobOf(s'.pool, v) == JobOf(s.pool, v) && Control(s', v) == Control(s, v))
                  && var tx := JobOf(s'.pool, w).value;
                     Control(s', w) == if tx in s.lives then M.Act(u.envs(tx), MachineAt(s, tx, M.Idle), M.StartRun).pc
                                       else M.Idle)
  {
    PoolKeepsFlow(u.config, s.pool, D.Take(w));
    OthersKeepJobs(u.config, s.pool, w);
    hide D.PoolStep, M.Act, D.OneEach, D.FlowAt;
  }

  lemma TakeHealthy(u: Setup, s: State, w: nat)
    requires Proper(u) && Healthy(u, s)
    ensures Healthy(u, Taken(u, s, w))
  {
    assert |s.pool.queues| == u.config.Size();
    hide D.Flow, Taken, SoundFor, M.Act, KeysFaithful, KeysDistinct, JobOf, Control;
    var s' := Taken(u, s, w);
    TakenFacts(u, s, w);
    if s' != s {
      var tx := JobOf(s'.pool, w).value;
      OwnPartition(u, s', w);
      ElsewhereSame(u, s, s', w, tx);
      assert PcOf(u, s, tx) == M.Idle;
      hide PcOf;
      if tx in s.lives {
        TakenSound(u, s, s', tx);
        assert s'.lives.Keys == s.lives.Keys + {tx};
        OneActsHealthy(u, s, s', tx);
      } else {
        NobodyHealthy(u, s, s', tx);
      }
    }
  }

  lemma OutboxGrows(tx: TxId, a: Tables, b: Tables)
    requires M.OneCommit(tx, a, b)
    ensures a.outbox <= b.outbox && forall i :: |a.outbox| <= i < |b.outbox| ==> b.outbox[i].txId == tx
  {
    hide CommittedHop, Faithful, EventRank;
  }

  lemma KeysOf(tx: TxId, t: Tables)
    requires Core(tx, t)
    ensures KeysFaithful(t.outbox) && KeysDistinct(t.outbox)
  {
  }

  lemma WorkHealthy(u: Setup, s: State, w: nat)
    requires Proper(u) && Healthy(u, s)
    ensures Healthy(u, Worked(u, s, w))
  {
    hide D.Flow, M.Sound, M.Act, M.OneCommit, Core, KeysFaithful, KeysDistinct;
    var job := JobOf(s.pool, w);
    if job.Some? && job.value in s.lives {
      var s', tx := Worked(u, s, w), job.value;
      var env, m := u.envs(tx), MachineAt(s, tx, Control(s, w));
      var m' := M.Act(env, m, M.Go);
      assert SoundFor(u, s, tx);
      OwnPartition(u, s, w);
      ElsewhereSame(u, s, s', w, tx);
      T.ActKeepsSound(env, m, M.Go);
      SoundHasCore(env, m');
      OutboxGrows(tx, m.world.tables, m'.world.tables);
      KeysOf(tx, m'.world.tables);
      assert MachineAt(s', tx, m'.pc) == m' && PcOf(u, s', tx) == m'.pc;
      assert s'.lives.Keys == s.lives.Keys + {tx};
      hide SoundFor, PcOf;
      OneActsHealthy(u, s, s', tx);
    }
  }

  lemma EmptyPool(c: D.Config)
    ensures D.PoolExec(c, []) == D.NewPool(c) && D.Starts([]) == 0
  {
  }

  lemma NewPoolFlows(c: D.Config)
    ensures D.Flow(c, D.NewPool(c)) && forall w: nat :: JobOf(D.NewPool(c), w).None?
  {
    hide D.PoolExec;
    D.ExecKeepsFlow(c, []);
    EmptyPool(c);
  }

  lemma KilledSound(u: Setup, s: State, tx: TxId)
    requires Proper(u) && tx in s.lives && SoundFor(u, s, tx)
    ensures SoundFor(u, Killed(u, s), tx) && PcOf(u, Killed(u, s), tx) == M.Idle
  {
    hide M.Sound;
    NewPoolFlows(u.config);
    var m := MachineAt(s, tx, PcOf(u, s, tx));
    T.ActKeepsSound(u.envs(tx), m, M.Crash);
    assert MachineAt(Killed(u, s), tx, M.Idle) == M.Act(u.envs(tx), m, M.Crash);
  }

  lemma KilledFacts(u: Setup, s: State)
    ensures var s' := Killed(u, s);
            && s'.lives.Keys == s.lives.Keys && s'.outbox == s.outbox && D.Flow(u.config, s'.pool)
            && (forall tx :: PcOf(u, s', tx) == M.Idle)
            && forall tx :: tx in s.lives ==> TablesOf(s', tx) == TablesOf(s, tx) && s'.lives[tx].fx == s.lives[tx].fx
  {
    NewPoolFlows(u.config);
    hide D.Flow, D.NewPool;
  }

  lemma KillHealthy(u: Setup, s: State)
    requires Proper(u) && Healthy(u, s)
    ensures Healthy(u, Killed(u, s))
  {
    hide D.Flow, SoundFor, KeysFaithful, KeysDistinct, PcOf, Killed;
    KilledFacts(u, s);
    var s' := Killed(u, s);
    assert forall tx :: tx in s'.lives <==> tx in s'.lives.Keys;
    forall tx | tx in s.lives ensures SoundFor(u, s', tx) {
      KilledSound(u, s, tx);
    }
  }

  lemma NewLifeSound(u: Setup, s': State, tx: TxId, outbox: seq<OutboxEvent>, id: EventId)
    requires Proper(u) && tx in s'.lives && s'.lives[tx] == NewLife(tx) && PcOf(u, s', tx) == M.Idle
    requires s'.outbox == outbox + [NewEvent(id, tx, TxCreated, None, 0)]
    requires Ready(tx, CreatedTables(tx, outbox, id))
    ensures SoundFor(u, s', tx)
  {
    assert TablesOf(s', tx) == CreatedTables(tx, outbox, id);
    hide Core, NothingDone;
    T.FreshIsSound(u.envs(tx), MachineAt(s', tx, M.Idle));
    hide M.Sound;
  }

  lemma CreatedOutbox(tx: TxId, outbox: seq<OutboxEvent>, id: EventId)
    ensures CreatedTables(tx, outbox, id).outbox == outbox + [NewEvent(id, tx, TxCreated, None, 0)]
    ensures NewEvent(id, tx, TxCreated, None, 0).txId == tx
  {
  }

  lemma CreateHealthy(u: Setup, s: State, tx: TxId, id: EventId)
    requires Proper(u) && Healthy(u, s) && tx !in s.lives && PipeFree(tx)
    ensures Healthy(u, Opened(s, tx, id))
  {
    hide D.Flow, M.Sound, Core, KeysFaithful, KeysDistinct, NewLife, NothingDone, NewEvent, CreatedTables;
    var s' := Opened(s, tx, id);
    forall other ensures PcOf(u, s', other) == PcOf(u, s, other) {
    }
    hide PcOf;
    CreatedCore(tx, s.outbox, id);
    CreatedOutbox(tx, s.outbox, id);
    KeysOf(tx, CreatedTables(tx, s.outbox, id));
    NewLifeSound(u, s', tx, s.outbox, id);
    assert s'.lives.Keys == s.lives.Keys + {tx};
    hide SoundFor;
    OneActsHealthy(u, s, s', tx);
  }

  lemma StatusSound(u: Setup, s: State, outbox: seq<OutboxEvent>, tx: TxId)
    requires Proper(u) && tx in s.lives && SoundFor(u, s, tx) && Bare(outbox) == Bare(s.outbox)
    ensures SoundFor(u, s.(outbox := outbox), tx) && PcOf(u, s.(outbox := outbox), tx) == PcOf(u, s, tx)
  {
    hide M.Sound, Core, Bare;
    assert PcOf(u, s.(outbox := outbox), tx) == PcOf(u, s, tx);
    hide PcOf;
    var m := MachineAt(s, tx, PcOf(u, s, tx));
    SoundHasCore(u.envs(tx), m);
    StatusKeepsCore(tx, TablesOf(s, tx), outbox);
    SoundWithOutbox(u.envs(tx), m, outbox);
  }

  lemma StatusKnown(s: State, outbox: seq<OutboxEvent>)
    requires Bare(outbox) == Bare(s.outbox) && forall e :: e in s.outbox ==> e.txId in s.lives
    ensures forall e :: e in outbox ==> e.txId in s.lives
  {
    BareFacts(s.outbox, outbox);
    forall e | e in outbox ensures e.txId in s.lives {
      var i :| 0 <= i < |outbox| && outbox[i] == e;
      assert s.outbox[i] in s.outbox;
    }
  }

  lemma SamePcs(u: Setup, s: State, outbox: seq<OutboxEvent>)
    ensures forall tx :: PcOf(u, s.(outbox := outbox), tx) == PcOf(u, s, tx)
  {
  }

  /** The relay's claims and marks change delivery statuses only. */
  lemma RelayHealthy(u: Setup, s: State, outbox: seq<OutboxEvent>)
    requires Proper(u) && Healthy(u, s) && Bare(outbox) == Bare(s.outbox)
    ensures Healthy(u, s.(outbox := outbox))
  {
    hide D.Flow, SoundFor, KeysFaithful, KeysDistinct, Bare, PcOf;
    StatusKeepsKeys(s.outbox, outbox);
    StatusKnown(s, outbox);
    SamePcs(u, s, outbox);
    forall tx | tx in s.lives ensures SoundFor(u, s.(outbox := outbox), tx) {
      StatusSound(u, s, outbox, tx);
    }
  }

  lemma PoolHealthy(u: Setup, s: State, a: D.PoolAct)
    requires Proper(u) && Healthy(u, s)
    requires a.Submit? || a.Exit? || a.Stop? || (a.Start? && s.pool.workers == [])
             || (a.Finish? && Control(s, a.w) == M.Idle)
    ensures Healthy(u, s.(pool := D.PoolStep(u.config, s.pool, a)))
  {
    PoolKeepsFlow(u.config, s.pool, a);
    var pool := D.PoolStep(u.config, s.pool, a);
    forall w: nat ensures JobOf(pool, w) == JobOf(s.pool, w) || (JobOf(pool, w).None? && Control(s, w) == M.Idle) {
    }
    PoolOnlyHealthy(u, s, pool);
  }

  lemma StepHealthy(u: Setup, s: State, e: Event)
    requires Proper(u) && Healthy(u, s) && |s.pool.queues| == u.config.Size()
    ensures Healthy(u, Step(u, s, e))
  {
    hide Healthy, D.PoolStep, Opened, Taken, Worked, Killed, Claim, MarkAll, Bare;
    match e
    case Create(tx, id) =>
      if tx !in s.lives && PipeFree(tx) {
        CreateHealthy(u, s, tx, id);
      }
    case Boot =>
      if s.pool.workers == [] {
        PoolHealthy(u, s, D.Start);
      }
    case Submit(tx, dropped) => PoolHealthy(u, s, D.Submit(tx, dropped));
    case Take(w) => TakeHealthy(u, s, w);
    case Work(w) => WorkHealthy(u, s, w);
    case Finish(w) =>
      if Control(s, w) == M.Idle {
        PoolHealthy(u, s, D.Finish(w));
      }
    case Quit(w) => PoolHealthy(u, s, D.Exit(w));
    case Stop => PoolHealthy(u, s, D.Stop);
    case Kill => KillHealthy(u, s);
    case RelayClaims(limit) =>
      ClaimBare(s.outbox, limit);
      RelayHealthy(u, s, Claim(s.outbox, limit).outbox);
    case RelayMarks(ids) =>
      MarkBare(s.outbox, ids);
      RelayHealthy(u, s, MarkAll(s.outbox, ids));
  }

  lemma {:induction false} ExecHealthy(u: Setup, events: seq<Event>)
    requires Proper(u)
    ensures Healthy(u, Exec(u, events))
    decreases |events|
  {
    if events == [] {
      NewPoolFlows(u.config);
      hide D.Flow, D.NewPool;
    } else {
      hide Healthy, Step;
      ExecHealthy(u, events[..|events| - 1]);
      StepHealthy(u, Exec(u, events[..|events| - 1]), events[|events| - 1]);
    }
  }

  lemma SoundMeans(env: Env, m: M.Machine)
    requires M.Sound(env, m)
    ensures Lockstep(env.tx, m.world.tables) && Shape(m.world.tables.saga)
    ensures M.LegalPath(m.history) && m.history != [] && m.history[|m.history| - 1] == m.world.tables.saga
    ensures M.Counted(m.pc, m.world, m.lost)
    ensures m.lost.broadcasts <= m.crashes && m.lost.captures <= m.crashes && m.lost.refunds <= m.crashes
  {
    hide Shape, Lockstep, M.Fitting, M.Counted, M.LegalPath, NothingDone, KeysFaithful, KeysDistinct, EventsBehind;
  }

  lemma FlowIsSerial(c: D.Config, pool: D.Pool)
    requires D.Flow(c, pool)
    ensures D.Serial(pool)
  {
    forall w: nat | w < |pool.workers| && pool.workers[w].running.Some?
      ensures c.PartitionOf(pool.workers[w].running.value.tx) == w {
      D.RunsItsPartition(c, pool, w);
    }
    hide D.Flow;
  }

  /** What holds of the service whatever happens in it: purchases being created, workers driving
      many of them side by side, the relay at work on the same outbox, and the process killed and
      booted again at any moment. No two workers are on one transaction; the dedup keys of the
      whole outbox are distinct; and each transaction keeps its tables in lockstep, its committed
      rows on a legal path, and its captures, broadcasts and refunds accounted for. */
  lemma ServiceSafety(u: Setup, events: seq<Event>, tx: TxId)
    requires Proper(u)
    ensures var s := Exec(u, events);
            && D.Serial(s.pool) && KeysDistinct(s.outbox)
            && (tx in s.lives ==>
                  var l := s.lives[tx];
                  && Lockstep(tx, TablesOf(s, tx)) && Shape(l.saga)
                  && M.LegalPath(l.history) && l.history != [] && l.history[|l.history| - 1] == l.saga
                  && M.Counted(PcOf(u, s, tx), World(TablesOf(s, tx), l.fx), l.lost)
                  && l.lost.broadcasts <= l.crashes && l.lost.captures <= l.crashes && l.lost.refunds <= l.crashes)
  {
    hide Exec, PcOf, M.Sound, M.Counted, M.LegalPath, D.Flow, D.Serial, KeysFaithful, Shape, Lockstep, KeysDistinct;
    var s := Exec(u, events);
    ExecHealthy(u, events);
    FlowIsSerial(u.config, s.pool);
    if tx in s.lives {
      assert SoundFor(u, s, tx);
      SoundMeans(u.envs(tx), MachineAt(s, tx, PcOf(u, s, tx)));
    }
  }

  /** A worker's next `k` actions. */
  function Works(u: Setup, s: State, w: nat, k: nat): State
    decreases k
  {
    if k == 0 then s else Works(u, Worked(u, s, w), w, k - 1)
  }

  lemma WorkGoes(u: Setup, s: State, w: nat, tx: TxId)
    requires JobOf(s.pool, w) == Some(tx) && tx in s.lives
    ensures var s', n := Worked(u, s, w), M.GoNext(u.envs(tx), Control(s, w), World(TablesOf(s, tx), s.lives[tx].fx));
            && s'.pool == s.pool && tx in s'.lives && Control(s', w) == n.pc
            && World(TablesOf(s', tx), s'.lives[tx].fx) == n.world
  {
    hide M.GoNext;
  }

  /** A worker at work does to its transaction what that transaction's machine does alone. */
  lemma {:induction false} WorksGo(u: Setup, s: State, w: nat, tx: TxId, k: nat)
    requires JobOf(s.pool, w) == Some(tx) && tx in s.lives
    ensures var s' := Works(u, s, w, k);
            && s'.pool == s.pool && tx in s'.lives
            && M.Next(Control(s', w), World(TablesOf(s', tx), s'.lives[tx].fx))
               == Sim.GoTimes(u.envs(tx), M.Next(Control(s, w), World(TablesOf(s, tx), s.lives[tx].fx)), k)
    decreases k
  {
    hide M.GoNext, Worked;
    if k > 0 {
      WorkGoes(u, s, w, tx);
      WorksGo(u, Worked(u, s, w), w, tx, k - 1);
    }
  }

  /** A submitted job gets the whole run: an idle worker takes the next job of its partition, works on
      it undisturbed, and leaves the transaction in exactly the world the executor's run leaves. */
  lemma WorkerDrives(u: Setup, s: State, w: nat, n: nat) returns (k: nat)
    requires |s.pool.queues| == u.config.Size() && w < |s.pool.workers|
    requires var v := s.pool.workers[w];
             !v.exited && v.running.None? && v.partition < |s.pool.queues| && s.pool.queues[v.partition] != []
    requires var tx := s.pool.queues[s.pool.workers[w].partition][0].tx;
             tx in s.lives && Run(u.envs(tx), World(TablesOf(s, tx), s.lives[tx].fx), n).verdict != Running
    ensures var p := s.pool.workers[w].partition;
            var tx := s.pool.queues[p][0].tx;
            var s' := Works(u, Taken(u, s, w), w, k);
            && JobOf(s'.pool, w) == Some(tx) && s'.pool.queues == s.pool.queues[p := s.pool.queues[p][1..]]
            && Control(s', w) == M.Idle && tx in s'.lives
            && World(TablesOf(s', tx), s'.lives[tx].fx) ==
               Run(u.envs(tx), World(TablesOf(s, tx), s.lives[tx].fx), n).world
  {
    hide Run, M.GoNext;
    var tx := s.pool.queues[s.pool.workers[w].partition][0].tx;
    var s1 := Taken(u, s, w);
    var world := World(TablesOf(s, tx), s.lives[tx].fx);
    assert JobOf(s1.pool, w) == Some(tx) && Control(s1, w) == M.Load(world);
    Sim.RunLeads(u.envs(tx), world, n);
    k :| Sim.GoTimes(u.envs(tx), M.Next(M.Load(world), world), k) == Sim.AfterRound(Run(u.envs(tx), world, n));
    WorksGo(u, s1, w, tx, k);
  }

  lemma ExecAppend(u: Setup, events: seq<Event>, e: Event)
    ensures Exec(u, events + [e]) == Step(u, Exec(u, events), e)
  {
    hide Step;
    assert (events + [e])[..|events|] == events;
  }

  /** A purchase that comes into an empty service, which is then started, and is submitted. */
  lemma ComesIn(u: Setup, tx: TxId, id: EventId)
    requires Proper(u) && PipeFree(tx)
    ensures var s, p := Exec(u, [Create(tx, id), Boot, Submit(tx, false)]), u.config.PartitionOf(tx);
            && |s.pool.queues| == u.config.Size() && p < |s.pool.workers|
            && s.pool.workers[p] == D.Worker(p, None, false)
            && |s.pool.queues[p]| == 1 && s.pool.queues[p][0].tx == tx
            && tx in s.lives && s.lives[tx].fx == NO_EFFECTS && TablesOf(s, tx) == CreatedTables(tx, [], id)
  {
    ExecAppend(u, [], Create(tx, id));
    ExecAppend(u, [Create(tx, id)], Boot);
    ExecAppend(u, [Create(tx, id), Boot], Submit(tx, false));
    assert [] + [Create(tx, id)] == [Create(tx, id)] && [Create(tx, id)] + [Boot] == [Create(tx, id), Boot];
    assert [Create(tx, id), Boot] + [Submit(tx, false)] == [Create(tx, id), Boot, Submit(tx, false)];
    assert Exec(u, []) == State(D.NewPool(u.config), map[], map[], []);
    hide Exec, NewEvent;
  }

  lemma CreatedIsReady(tx: TxId, id: EventId)
    requires PipeFree(tx)
    ensures var t := CreatedTables(tx, [], id); Ready(tx, t) && t.saga.state == Created && t.saga.step == Policy
  {
    CreatedCore(tx, [], id);
    hide Core, NothingDone;
  }

  /** From the request to the end: the purchase is taken by its worker and driven to a terminal state,
      the one the executor's run of the created rows ends in. */
  lemma PurchaseIsDriven(u: Setup, tx: TxId, id: EventId) returns (k: nat)
    requires Proper(u) && PipeFree(tx)
    ensures var s, p := Exec(u, [Create(tx, id), Boot, Submit(tx, false)]), u.config.PartitionOf(tx);
            var s' := Works(u, Taken(u, s, p), p, k);
            var w := Run(u.envs(tx), World(CreatedTables(tx, [], id), NO_EFFECTS), |STEP_ORDER|).world;
            && tx in s'.lives && Control(s', p) == M.Idle
            && World(TablesOf(s', tx), s'.lives[tx].fx) == w && w.tables.saga.state.Terminal()
  {
    hide Exec, Works, Taken, Run, CreatedTables;
    ComesIn(u, tx, id);
    CreatedIsReady(tx, id);
    RunHalts(u.envs(tx), World(CreatedTables(tx, [], id), NO_EFFECTS), |STEP_ORDER|);
    k := WorkerDrives(u, Exec(u, [Create(tx, id), Boot, Submit(tx, false)]), u.config.PartitionOf(tx), |STEP_ORDER|);
  }
}
