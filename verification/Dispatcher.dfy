/** The dispatcher: one bounded queue per partition, workers that take from one partition each, and
    submitters, taking turns in any order. */
module Dispatcher {
  import opened Options
  import opened Dedup

  type Sum32 = x: int | 0 <= x < 0x1_0000_0000

  /** The number of partitions, which is also each queue's capacity, and the hash of a transaction. */
  datatype Config = Config(concurrency: int, hash: TxId -> Sum32) {
    function Size(): (n: nat)
      ensures n > 0
    {
      if concurrency <= 0 then 32 else concurrency
    }

    function PartitionOf(tx: TxId): (p: nat)
      ensures p < Size()
    {
      hash(tx) % Size()
    }
  }

  /** One accepted submission. */
  datatype Job = Job(ticket: nat, tx: TxId)

  datatype Worker = Worker(partition: nat, running: Option<Job>, exited: bool)

  /** The pool, with the history of what was accepted, started and finished. */
  datatype Pool = Pool(queues: seq<seq<Job>>, workers: seq<Worker>, stopped: bool,
                       accepted: seq<Job>, started: seq<Job>, done: seq<Job>)

  /** `dropped` decides a submit that finds both room in the queue and the pool stopped. */
  datatype PoolAct =
    | Start
    | Submit(tx: TxId, dropped: bool)
    | Take(w: nat)
    | Finish(w: nat)
    | Exit(w: nat)
    | Stop

  function NewPool(c: Config): Pool {
    Pool(seq(c.Size(), _ => []), [], false, [], [], [])
  }

  /** One idle worker for each of `n` partitions. */
  function FreshWorkers(n: nat): seq<Worker> {
    seq(n, i requires 0 <= i => Worker(i, None, false))
  }

  /** One step. A submit that finds its queue full waits, and a worker with nothing to do waits:
      both are steps that change nothing. */
  function PoolStep(c: Config, s: Pool, a: PoolAct): Pool
    requires |s.queues| == c.Size()
  {
    match a
    case Start => s.(workers := s.workers + FreshWorkers(c.Size()))
    case Submit(tx, dropped) =>
      var p := c.PartitionOf(tx);
      if |s.queues[p]| >= c.Size() || (s.stopped && dropped) then s
      else
        var job := Job(|s.accepted|, tx);
        s.(queues := s.queues[p := s.queues[p] + [job]], accepted := s.accepted + [job])
    case Take(w) =>
      if w >= |s.workers| || s.workers[w].exited || s.workers[w].running.Some? then s
      else
        var p := s.workers[w].partition;
        if p >= |s.queues| || s.queues[p] == [] then s
        else
          var job := s.queues[p][0];
          s.(queues := s.queues[p := s.queues[p][1..]],
             workers := s.workers[w := s.workers[w].(running := Some(job))],
             started := s.started + [job])
    case Finish(w) =>
      if w >= |s.workers| || s.workers[w].running.None? then s
      else s.(workers := s.workers[w := s.workers[w].(running := None)], done := s.done + [s.workers[w].running.value])
    case Exit(w) =>
      if w >= |s.workers| || s.workers[w].running.Some? then s
      else s.(workers := s.workers[w := s.workers[w].(exited := true)])
    case Stop => s.(stopped := true)
  }

  function PoolExec(c: Config, acts: seq<PoolAct>): (s: Pool)
    ensures |s.queues| == c.Size()
    decreases |acts|
  {
    if acts == [] then NewPool(c)
    else PoolStep(c, PoolExec(c, acts[..|acts| - 1]), acts[|acts| - 1])
  }

  function Starts(acts: seq<PoolAct>): nat
    decreases |acts|
  {
    if acts == [] then 0
    else Starts(acts[..|acts| - 1]) + if acts[|acts| - 1] == Start then 1 else 0
  }

  /** The jobs of one partition, in order. */
  function Part(c: Config, jobs: seq<Job>, p: nat): seq<Job>
    decreases |jobs|
  {
    if jobs == [] then []
    else
      var last := jobs[|jobs| - 1];
      Part(c, jobs[..|jobs| - 1], p) + if c.PartitionOf(last.tx) == p then [last] else []
  }

  /** The jobs of one transaction, in order. */
  function OfTx(jobs: seq<Job>, tx: TxId): seq<Job>
    decreases |jobs|
  {
    if jobs == [] then []
    else
      var last := jobs[|jobs| - 1];
      OfTx(jobs[..|jobs| - 1], tx) + if last.tx == tx then [last] else []
  }

  function RunningJob(s: Pool, w: nat): seq<Job> {
    if w < |s.workers| && s.workers[w].running.Some? then [s.workers[w].running.value] else []
  }

  /** No two workers run the same transaction. */
  ghost predicate Serial(s: Pool) {
    forall v, w :: 0 <= v < w < |s.workers| && s.workers[v].running.Some? && s.workers[w].running.Some? ==>
      s.workers[v].running.value.tx != s.workers[w].running.value.tx
  }

  /** Worker i serves partition i alone. */
  ghost predicate OneEach(c: Config, s: Pool) {
    && |s.workers| <= c.Size()
    && forall w :: 0 <= w < |s.workers| ==> s.workers[w].partition == w
  }

  /** What came into a partition is what was done, then what runs, then what waits, in order. */
  ghost predicate FlowAt(c: Config, s: Pool, p: nat)
    requires p < |s.queues|
  {
    && Part(c, s.accepted, p) == Part(c, s.started, p) + s.queues[p]
    && Part(c, s.started, p) == Part(c, s.done, p) + RunningJob(s, p)
  }

  ghost predicate Flow(c: Config, s: Pool) {
    && |s.queues| == c.Size()
    && OneEach(c, s)
    && forall p :: 0 <= p < |s.queues| ==> FlowAt(c, s, p)
  }

  lemma PartAppend(c: Config, jobs: seq<Job>, j: Job, p: nat)
    ensures Part(c, jobs + [j], p) == Part(c, jobs, p) + if c.PartitionOf(j.tx) == p then [j] else []
  {
    assert (jobs + [j])[..|jobs|] == jobs;
  }

  lemma {:induction false} PartMember(c: Config, jobs: seq<Job>, p: nat, j: Job)
    requires j in Part(c, jobs, p)
    ensures c.PartitionOf(j.tx) == p
    decreases |jobs|
  {
    if jobs != [] && j in Part(c, jobs[..|jobs| - 1], p) {
      PartMember(c, jobs[..|jobs| - 1], p, j);
    }
  }

  lemma TakeSplits(started: seq<Job>, queue: seq<Job>)
    requires queue != []
    ensures started + queue == started + [queue[0]] + queue[1..]
  {
  }

  lemma HeadOfQueue(c: Config, s: Pool, w: nat)
    requires w < |s.queues| && s.queues[w] != [] && FlowAt(c, s, w)
    ensures c.PartitionOf(s.queues[w][0].tx) == w
  {
    var job := s.queues[w][0];
    assert Part(c, s.accepted, w)[|Part(c, s.started, w)|] == job;
    PartMember(c, s.accepted, w, job);
  }

  lemma TakeKeepsFlow(c: Config, s: Pool, w: nat, p: nat)
    requires |s.queues| == c.Size() && OneEach(c, s) && p < c.Size() && FlowAt(c, s, p)
    requires w < |s.workers| && !s.workers[w].exited && s.workers[w].running.None? && s.queues[w] != []
             && FlowAt(c, s, w)
    ensures FlowAt(c, PoolStep(c, s, Take(w)), p)
  {
    hide Part, Config.PartitionOf, Config.Size;
    var job := s.queues[w][0];
    HeadOfQueue(c, s, w);
    PartAppend(c, s.started, job, p);
    var s' := PoolStep(c, s, Take(w));
    hide PoolStep;
    assert s'.accepted == s.accepted && s'.done == s.done && s'.started == s.started + [job];
    if p == w {
      assert s'.queues[p] == s.queues[w][1..] && RunningJob(s', p) == [job] && RunningJob(s, p) == [];
      TakeSplits(Part(c, s.started, p), s.queues[w]);
    } else {
      assert s'.queues[p] == s.queues[p] && RunningJob(s', p) == RunningJob(s, p);
      assert Part(c, s'.started, p) == Part(c, s.started, p) + [];
    }
  }

  lemma RunsItsPartition(c: Config, s: Pool, w: nat)
    requires Flow(c, s) && w < |s.workers| && s.workers[w].running.Some?
    ensures c.PartitionOf(s.workers[w].running.value.tx) == w
  {
    assert FlowAt(c, s, w);
    assert Part(c, s.started, w)[|Part(c, s.done, w)|] == s.workers[w].running.value;
    PartMember(c, s.started, w, s.workers[w].running.value);
  }

  lemma StepKeepsFlow(c: Config, s: Pool, a: PoolAct, p: nat)
    requires Flow(c, s) && p < c.Size() && (a == Start ==> s.workers == [])
    ensures var s' := PoolStep(c, s, a); |s'.queues| == c.Size() && OneEach(c, s') && FlowAt(c, s', p)
  {
    hide Part;
    assert FlowAt(c, s, p);
    match a
    case Submit(tx, _) => PartAppend(c, s.accepted, Job(|s.accepted|, tx), p);
    case Take(w) =>
      if w < |s.workers| && !s.workers[w].exited && s.workers[w].running.None? && s.queues[w] != [] {
        assert FlowAt(c, s, w);
        TakeKeepsFlow(c, s, w, p);
      }
    case Finish(w) =>
      if w < |s.workers| && s.workers[w].running.Some? {
        RunsItsPartition(c, s, w);
        PartAppend(c, s.done, s.workers[w].running.value, p);
      }
    case _ =>
  }

  lemma {:induction false} ExecKeepsFlow(c: Config, acts: seq<PoolAct>)
    requires Starts(acts) <= 1
    ensures Flow(c, PoolExec(c, acts)) && (Starts(acts) == 0 ==> PoolExec(c, acts).workers == [])
    decreases |acts|
  {
    if acts != [] {
      var a, before := acts[|acts| - 1], PoolExec(c, acts[..|acts| - 1]);
      ExecKeepsFlow(c, acts[..|acts| - 1]);
      forall p: nat | p < c.Size() ensures FlowAt(c, PoolStep(c, before, a), p) {
        StepKeepsFlow(c, before, a, p);
      }
      StepKeepsFlow(c, before, a, 0);
    }
  }

  /** Started once, the pool never runs one transaction on two workers at the same time. */
  lemma StartedOnceIsSerial(c: Config, acts: seq<PoolAct>)
    requires Starts(acts) <= 1
    ensures Serial(PoolExec(c, acts))
  {
    hide Part;
    var s := PoolExec(c, acts);
    ExecKeepsFlow(c, acts);
    forall w: nat | w < |s.workers| && s.workers[w].running.Some?
      ensures c.PartitionOf(s.workers[w].running.value.tx) == w {
      RunsItsPartition(c, s, w);
    }
  }

  lemma {:induction false} OfTxConcat(a: seq<Job>, b: seq<Job>, tx: TxId)
    ensures OfTx(a + b, tx) == OfTx(a, tx) + OfTx(b, tx)
    decreases |b|
  {
    if b == [] {
      assert a + b == a;
    } else {
      assert (a + b)[..|a + b| - 1] == a + b[..|b| - 1];
      OfTxConcat(a, b[..|b| - 1], tx);
    }
  }

  lemma {:induction false} OfTxOfPart(c: Config, jobs: seq<Job>, tx: TxId)
    ensures OfTx(Part(c, jobs, c.PartitionOf(tx)), tx) == OfTx(jobs, tx)
    decreases |jobs|
  {
    if jobs != [] {
      var front, last := jobs[..|jobs| - 1], jobs[|jobs| - 1];
      var p := c.PartitionOf(tx);
      OfTxOfPart(c, front, tx);
      OfTxConcat(Part(c, front, p), if c.PartitionOf(last.tx) == p then [last] else [], tx);
      assert [last][..0] == [];
    }
  }

  /** Started once, the pool runs the submissions of each transaction one after the other in the
      order they were accepted: those started, and of these all but at most the last are done, are
      a prefix of those accepted, and the rest wait in the transaction's own queue. */
  lemma RunsInSubmitOrder(c: Config, acts: seq<PoolAct>, tx: TxId)
    requires Starts(acts) <= 1
    ensures var s, p := PoolExec(c, acts), c.PartitionOf(tx);
            && OfTx(s.accepted, tx) == OfTx(s.started, tx) + OfTx(s.queues[p], tx)
            && OfTx(s.started, tx) == OfTx(s.done, tx) + OfTx(RunningJob(s, p), tx)
  {
    var s, p := PoolExec(c, acts), c.PartitionOf(tx);
    ExecKeepsFlow(c, acts);
    hide PoolExec;
    assert FlowAt(c, s, p);
    OfTxOfPart(c, s.accepted, tx);
    OfTxOfPart(c, s.started, tx);
    OfTxOfPart(c, s.done, tx);
    hide Part;
    OfTxConcat(Part(c, s.started, p), s.queues[p], tx);
    OfTxConcat(Part(c, s.done, p), RunningJob(s, p), tx);
  }

  /** The jobs waiting in all queues. */
  function Waiting(queues: seq<seq<Job>>): nat
    decreases |queues|
  {
    if queues == [] then 0 else |queues[0]| + Waiting(queues[1..])
  }

  function Busy(workers: seq<Worker>): nat
    decreases |workers|
  {
    if workers == [] then 0 else (if workers[0].running.Some? then 1 else 0) + Busy(workers[1..])
  }

  lemma {:induction false} WaitingUpdate(queues: seq<seq<Job>>, p: nat, q: seq<Job>)
    requires p < |queues|
    ensures Waiting(queues[p := q]) == Waiting(queues) - |queues[p]| + |q|
    decreases |queues|
  {
    if p > 0 {
      assert queues[p := q][1..] == queues[1..][p - 1 := q];
      WaitingUpdate(queues[1..], p - 1, q);
    } else {
      assert queues[p := q][1..] == queues[1..];
    }
  }

  lemma {:induction false} BusyUpdate(workers: seq<Worker>, w: nat, x: Worker)
    requires w < |workers|
    ensures Busy(workers[w := x]) ==
            Busy(workers) - (if workers[w].running.Some? then 1 else 0) + if x.running.Some? then 1 else 0
    decreases |workers|
  {
    if w > 0 {
      assert workers[w := x][1..] == workers[1..][w - 1 := x];
      BusyUpdate(workers[1..], w - 1, x);
    } else {
      assert workers[w := x][1..] == workers[1..];
    }
  }

  lemma {:induction false} BusyJoined(workers: seq<Worker>, idle: seq<Worker>)
    requires forall i :: 0 <= i < |idle| ==> idle[i].running.None?
    ensures Busy(workers + idle) == Busy(workers)
    decreases |workers| + |idle|
  {
    if workers != [] {
      assert (workers + idle)[1..] == workers[1..] + idle;
      BusyJoined(workers[1..], idle);
    } else if idle != [] {
      assert workers + idle == idle && (workers + idle)[1..] == [] + idle[1..];
      BusyJoined([], idle[1..]);
    }
  }

  lemma {:induction false} NothingWaiting(n: nat)
    ensures Waiting(seq(n, _ => [])) == 0
  {
    if n > 0 {
      var queues: seq<seq<Job>> := seq(n, _ => []);
      assert queues[1..] == seq(n - 1, _ => []);
      NothingWaiting(n - 1);
    }
  }

  lemma NobodyBusy()
    ensures Busy([]) == 0
  {
  }

  /** No submission is lost or run twice, however often the pool was started: what was accepted is
      done, running or waiting. */
  lemma {:induction false} NothingLost(c: Config, acts: seq<PoolAct>)
    ensures var s := PoolExec(c, acts);
            && |s.accepted| == |s.done| + Busy(s.workers) + Waiting(s.queues)
            && |s.started| == |s.done| + Busy(s.workers)
    decreases |acts|
  {
    hide Busy, Waiting;
    if acts == [] {
      NothingWaiting(c.Size());
      BusyJoined([], []);
      assert [] + [] == NewPool(c).workers;
      NobodyBusy();
    } else {
      var a, s := acts[|acts| - 1], PoolExec(c, acts[..|acts| - 1]);
      NothingLost(c, acts[..|acts| - 1]);
      match a
      case Start => BusyJoined(s.workers, FreshWorkers(c.Size()));
      case Submit(tx, _) =>
        var p := c.PartitionOf(tx);
        WaitingUpdate(s.queues, p, s.queues[p] + [Job(|s.accepted|, tx)]);
      case Take(w) =>
        if w < |s.workers| && s.workers[w].partition < |s.queues| && s.queues[s.workers[w].partition] != [] {
          var p := s.workers[w].partition;
          WaitingUpdate(s.queues, p, s.queues[p][1..]);
          BusyUpdate(s.workers, w, s.workers[w].(running := Some(s.queues[p][0])));
        }
      case Finish(w) =>
        if w < |s.workers| {
          BusyUpdate(s.workers, w, s.workers[w].(running := None));
        }
      case Exit(w) =>
        if w < |s.workers| {
          BusyUpdate(s.workers, w, s.workers[w].(exited := true));
        }
      case Stop =>
    }
  }

  /** Two starts, and one transaction submitted twice: both submissions run at once. */
  function RunTogether(c: Config, tx: TxId): seq<PoolAct> {
    [Start, Start, Submit(tx, false), Take(c.PartitionOf(tx)), Submit(tx, false), Take(c.Size() + c.PartitionOf(tx))]
  }

  lemma StartKeepsOverlap(c: Config, s: Pool)
    requires |s.queues| == c.Size()
    ensures !Serial(s) ==> !Serial(PoolStep(c, s, Start))
  {
    if !Serial(s) {
      var v, w :| 0 <= v < w < |s.workers| && s.workers[v].running.Some? && s.workers[w].running.Some?
                  && s.workers[v].running.value.tx == s.workers[w].running.value.tx;
      var s' := PoolStep(c, s, Start);
      assert s'.workers[v] == s.workers[v] && s'.workers[w] == s.workers[w];
    }
  }

  /** The pool started again only gains workers. */
  lemma {:induction false} MoreStarts(c: Config, acts: seq<PoolAct>, more: nat)
    ensures var acts' := acts + seq(more, _ => Start);
            && Starts(acts') == Starts(acts) + more
            && (!Serial(PoolExec(c, acts)) ==> !Serial(PoolExec(c, acts')))
  {
    hide Serial;
    var acts' := acts + seq(more, _ => Start);
    if more == 0 {
      assert acts' == acts;
    } else {
      assert acts'[..|acts'| - 1] == acts + seq(more - 1, _ => Start);
      MoreStarts(c, acts, more - 1);
      StartKeepsOverlap(c, PoolExec(c, acts'[..|acts'| - 1]));
    }
  }

  lemma Overlap(s: Pool, v: nat, w: nat)
    requires v < w < |s.workers| && s.workers[v].running.Some? && s.workers[w].running.Some?
    requires s.workers[v].running.value.tx == s.workers[w].running.value.tx
    ensures !Serial(s)
  {
  }

  lemma ExecAppend(c: Config, acts: seq<PoolAct>, a: PoolAct)
    ensures PoolExec(c, acts + [a]) == PoolStep(c, PoolExec(c, acts), a)
    ensures Starts(acts + [a]) == Starts(acts) + if a == Start then 1 else 0
  {
    assert (acts + [a])[..|acts + [a]| - 1] == acts;
  }

  lemma TwoStarts(c: Config)
    ensures var s := PoolExec(c, [Start, Start]);
            && Starts([Start, Start]) == 2
            && s.workers == FreshWorkers(c.Size()) + FreshWorkers(c.Size())
            && !s.stopped && s.queues == NewPool(c).queues
  {
    ExecAppend(c, [], Start);
    ExecAppend(c, [Start], Start);
    assert [] + [Start] == [Start] && [Start] + [Start] == [Start, Start];
    assert PoolExec(c, []) == NewPool(c);
    hide PoolExec;
    assert [] + FreshWorkers(c.Size()) == FreshWorkers(c.Size());
  }

  /** A submission to an empty partition, taken at once by an idle worker of that partition. */
  lemma SubmitTaken(c: Config, acts: seq<PoolAct>, tx: TxId, w: nat)
    requires var s, p := PoolExec(c, acts), c.PartitionOf(tx);
             && !s.stopped && s.queues[p] == []
             && w < |s.workers| && s.workers[w] == Worker(p, None, false)
    ensures var acts' := acts + [Submit(tx, false), Take(w)];
            var s, p, s' := PoolExec(c, acts), c.PartitionOf(tx), PoolExec(c, acts');
            && Starts(acts') == Starts(acts)
            && !s'.stopped && s'.queues[p] == [] && |s'.workers| == |s.workers|
            && s'.workers[w].running.Some? && s'.workers[w].running.value.tx == tx
            && forall v :: 0 <= v < |s.workers| && v != w ==> s'.workers[v] == s.workers[v]
  {
    hide PoolExec, Starts;
    var p := c.PartitionOf(tx);
    var s := PoolExec(c, acts);
    ExecAppend(c, acts, Submit(tx, false));
    ExecAppend(c, acts + [Submit(tx, false)], Take(w));
    assert acts + [Submit(tx, false)] + [Take(w)] == acts + [Submit(tx, false), Take(w)];
    var s1 := PoolStep(c, s, Submit(tx, false));
    assert s1.queues[p] == [Job(|s.accepted|, tx)];
  }

  lemma OverlapAfterTwoStarts(c: Config, tx: TxId)
    ensures Starts(RunTogether(c, tx)) == 2 && !Serial(PoolExec(c, RunTogether(c, tx)))
  {
    hide PoolExec, PoolStep, Starts, Serial;
    var p, n := c.PartitionOf(tx), c.Size();
    var two := [Start, Start];
    TwoStarts(c);
    var s := PoolExec(c, two);
    SubmitTaken(c, two, tx, p);
    var more := two + [Submit(tx, false), Take(p)];
    SubmitTaken(c, more, tx, n + p);
    assert RunTogether(c, tx) == more + [Submit(tx, false), Take(n + p)];
    Overlap(PoolExec(c, RunTogether(c, tx)), p, n + p);
  }

  /** Although Start is called idempotent, a pool is sure to serialise each transaction if and only
      if it was started at most once. */
  lemma SerialIffStartedOnce(c: Config, starts: nat)
    ensures (forall acts :: Starts(acts) == starts ==> Serial(PoolExec(c, acts))) <==> starts <= 1
  {
    if starts <= 1 {
      forall acts | Starts(acts) == starts ensures Serial(PoolExec(c, acts)) {
        StartedOnceIsSerial(c, acts);
      }
    } else {
      OverlapAfterTwoStarts(c, "");
      MoreStarts(c, RunTogether(c, ""), starts - 2);
      hide Starts, Serial, PoolExec;
    }
  }

  function Submits(ids: seq<TxId>): seq<PoolAct> {
    seq(|ids|, i requires 0 <= i < |ids| => Submit(ids[i], false))
  }

  /** How many of the ids belong to the partition. */
  function CountIn(c: Config, ids: seq<TxId>, p: nat): nat
    decreases |ids|
  {
    if ids == [] then 0
    else CountIn(c, ids[..|ids| - 1], p) + if c.PartitionOf(ids[|ids| - 1]) == p then 1 else 0
  }

  /** No partition has more ids than its queue has room for. */
  ghost predicate Fits(c: Config, ids: seq<TxId>) {
    forall p: nat :: p < c.Size() ==> CountIn(c, ids, p) <= c.Size()
  }

  ghost predicate QueuesHold(c: Config, s: Pool, ids: seq<TxId>)
    requires |s.queues| == c.Size()
  {
    forall p: nat :: p < c.Size() ==>
      |s.queues[p]| == if CountIn(c, ids, p) <= c.Size() then CountIn(c, ids, p) else c.Size()
  }

  lemma FitsAppend(c: Config, ids: seq<TxId>)
    requires ids != []
    ensures var front, p := ids[..|ids| - 1], c.PartitionOf(ids[|ids| - 1]);
            Fits(c, ids) <==> Fits(c, front) && CountIn(c, front, p) < c.Size()
  {
    hide Config.Size, Config.PartitionOf;
    var front, p := ids[..|ids| - 1], c.PartitionOf(ids[|ids| - 1]);
    assert CountIn(c, ids, p) == CountIn(c, front, p) + 1;
    assert forall q: nat :: q != p ==> CountIn(c, ids, q) == CountIn(c, front, q);
    assert forall q: nat :: CountIn(c, front, q) <= CountIn(c, ids, q);
    hide CountIn;
  }

  lemma SubmitHolds(c: Config, s: Pool, ids: seq<TxId>)
    requires ids != [] && |s.queues| == c.Size() && !s.stopped && QueuesHold(c, s, ids[..|ids| - 1])
    ensures var front, last := ids[..|ids| - 1], ids[|ids| - 1];
            var s' := PoolStep(c, s, Submit(last, false));
            && |s'.queues| == c.Size() && !s'.stopped && QueuesHold(c, s', ids)
            && |s'.accepted| == |s.accepted| + if CountIn(c, front, c.PartitionOf(last)) < c.Size() then 1 else 0
  {
    hide Config.Size;
    var front, p := ids[..|ids| - 1], c.PartitionOf(ids[|ids| - 1]);
    assert CountIn(c, ids, p) == CountIn(c, front, p) + 1;
    assert forall q: nat :: q != p ==> CountIn(c, ids, q) == CountIn(c, front, q);
    hide CountIn, Config.PartitionOf;
  }

  /** The pool after a recovery scan before any worker runs. */
  lemma {:induction false} Recovered(c: Config, ids: seq<TxId>)
    ensures var s := PoolExec(c, Submits(ids));
            && !s.stopped && |s.accepted| <= |ids| && QueuesHold(c, s, ids)
            && (|s.accepted| == |ids| <==> Fits(c, ids))
    decreases |ids|
  {
    if ids != [] {
      var front, last := ids[..|ids| - 1], ids[|ids| - 1];
      Recovered(c, front);
      assert Submits(ids) == Submits(front) + [Submit(last, false)];
      ExecAppend(c, Submits(front), Submit(last, false));
      FitsAppend(c, ids);
      SubmitHolds(c, PoolExec(c, Submits(front)), ids);
      hide PoolExec, PoolStep, CountIn, QueuesHold, Fits;
    }
  }

  /** The service recovers before it starts its workers. The scan gets through if and only if no
      partition has more sagas in flight than its queue holds; otherwise it waits for a worker that
      is only started after it. */
  lemma RecoveryFitsIff(c: Config, ids: seq<TxId>)
    ensures |PoolExec(c, Submits(ids)).accepted| == |ids| <==> Fits(c, ids)
  {
    hide Fits, PoolExec, QueuesHold;
    Recovered(c, ids);
  }

  /** The ids of the first `n` partitions. */
  function CountUpTo(c: Config, ids: seq<TxId>, n: nat): nat
    decreases n
  {
    if n == 0 then 0 else CountUpTo(c, ids, n - 1) + CountIn(c, ids, n - 1)
  }

  lemma {:induction false} CountUpToAppend(c: Config, ids: seq<TxId>, n: nat)
    requires ids != []
    ensures var front, p := ids[..|ids| - 1], c.PartitionOf(ids[|ids| - 1]);
            CountUpTo(c, ids, n) == CountUpTo(c, front, n) + if p < n then 1 else 0
    decreases n
  {
    if n > 0 {
      CountUpToAppend(c, ids, n - 1);
    }
  }

  lemma {:induction false} NothingCounted(c: Config, n: nat)
    ensures CountUpTo(c, [], n) == 0
    decreases n
  {
    if n > 0 {
      NothingCounted(c, n - 1);
    }
  }

  lemma {:induction false} EveryIdCounted(c: Config, ids: seq<TxId>)
    ensures CountUpTo(c, ids, c.Size()) == |ids|
    decreases |ids|
  {
    if ids == [] {
      NothingCounted(c, c.Size());
    } else {
      EveryIdCounted(c, ids[..|ids| - 1]);
      CountUpToAppend(c, ids, c.Size());
    }
  }

  lemma {:induction false} FittingIsFew(c: Config, ids: seq<TxId>, n: nat)
    requires Fits(c, ids) && n <= c.Size()
    ensures CountUpTo(c, ids, n) <= n * c.Size()
    decreases n
  {
    if n > 0 {
      FittingIsFew(c, ids, n - 1);
      assert n * c.Size() == (n - 1) * c.Size() + c.Size();
    }
  }

  /** Whatever the hash: with more sagas in flight than all queues together hold, the scan never gets
      through and the service never starts its workers. At the dispatcher's own default that takes 1025. */
  lemma TooManyNeverRecover(c: Config, ids: seq<TxId>)
    requires |ids| > c.Size() * c.Size()
    ensures |PoolExec(c, Submits(ids)).accepted| < |ids|
    ensures c.concurrency == 0 ==> c.Size() * c.Size() == 1024
  {
    Recovered(c, ids);
    hide PoolExec, QueuesHold, Fits;
    if Fits(c, ids) {
      FittingIsFew(c, ids, c.Size());
      EveryIdCounted(c, ids);
      assert false;
    }
  }

  /** The pool is as large as configured, or 32 unless configured: a transaction's partition is its
      hash modulo that number, and so two transactions share a worker if and only if their hashes
      agree modulo it. */
  lemma SharesWorkerIff(c: Config, a: TxId, b: TxId)
    ensures var n := if c.concurrency > 0 then c.concurrency else 32;
            && c.Size() == n && c.PartitionOf(a) == c.hash(a) % n
            && (c.PartitionOf(a) == c.PartitionOf(b) <==> c.hash(a) % n == c.hash(b) % n)
  {
  }

  /** The partitions served, in the order the workers were started. */
  function Served(workers: seq<Worker>): (ps: seq<nat>)
    ensures |ps| == |workers|
  {
    seq(|workers|, w requires 0 <= w < |workers| => workers[w].partition)
  }

  /** Every partition once, in order, for each of `k` starts. */
  function Rounds(n: nat, k: nat): seq<nat> {
    if k == 0 then [] else Rounds(n, k - 1) + seq(n, i requires 0 <= i => i)
  }

  lemma WorkersUnmoved(c: Config, s: Pool, a: PoolAct)
    requires |s.queues| == c.Size() && a != Start
    ensures Served(PoolStep(c, s, a).workers) == Served(s.workers)
  {
  }

  lemma QueueAtMostFull(c: Config, s: Pool, a: PoolAct)
    requires |s.queues| == c.Size() && forall p :: 0 <= p < |s.queues| ==> |s.queues[p]| <= c.Size()
    ensures var s' := PoolStep(c, s, a);
            |s'.queues| == c.Size() && forall p :: 0 <= p < |s'.queues| ==> |s'.queues[p]| <= c.Size()
  {
  }

  lemma OneRound(n: nat)
    ensures |Rounds(n, 1)| == n
  {
    assert Rounds(n, 0) == [];
  }

  lemma StartServes(c: Config, s: Pool)
    requires |s.queues| == c.Size() && c.concurrency > 0
    ensures Served(PoolStep(c, s, Start).workers) == Served(s.workers) + seq(c.concurrency, i requires 0 <= i => i)
  {
  }

  /** What a configured pool is made of, whatever has happened in it: as many queues as configured,
      every partition served once more for every start, and no queue longer than that number. */
  lemma {:induction false} PoolAsConfigured(c: Config, acts: seq<PoolAct>)
    requires c.concurrency > 0
    ensures var s := PoolExec(c, acts);
            && |s.queues| == c.concurrency && Served(s.workers) == Rounds(c.concurrency, Starts(acts))
            && (Starts(acts) == 1 ==> |s.workers| == c.concurrency)
            && (forall p :: 0 <= p < |s.queues| ==> |s.queues[p]| <= c.concurrency)
    decreases |acts|
  {
    OneRound(c.concurrency);
    if acts != [] {
      var front, a := acts[..|acts| - 1], acts[|acts| - 1];
      PoolAsConfigured(c, front);
      var s := PoolExec(c, front);
      QueueAtMostFull(c, s, a);
      if a == Start {
        StartServes(c, s);
      } else {
        WorkersUnmoved(c, s, a);
      }
      hide PoolStep, Served;
    }
  }

  /** A pool that is not stopped accepts a submission if and only if fewer than the configured number
      wait for the transaction's worker, and puts it last in that worker's queue. */
  lemma AcceptedIff(c: Config, s: Pool, tx: TxId, dropped: bool)
    requires c.concurrency > 0 && |s.queues| == c.concurrency && !s.stopped
    ensures var s', p := PoolStep(c, s, Submit(tx, dropped)), c.hash(tx) % c.concurrency;
            if |s.queues[p]| < c.concurrency then
              && s'.accepted == s.accepted + [Job(|s.accepted|, tx)]
              && s'.queues == s.queues[p := s.queues[p] + [Job(|s.accepted|, tx)]]
            else s' == s
  {
  }

  /** A stopped pool may turn a submission away, and a worker that left takes no more jobs. */
  lemma StoppedTurnsAway(c: Config, s: Pool, tx: TxId, w: nat)
    requires |s.queues| == c.Size()
    ensures var s' := PoolStep(c, s, Stop);
            s'.stopped && s'.queues == s.queues && s'.workers == s.workers && PoolStep(c, s', Submit(tx, true)) == s'
    ensures w < |s.workers| && s.workers[w].running.None? ==>
              var s' := PoolStep(c, s, Exit(w)); s'.workers[w].exited && PoolStep(c, s', Take(w)) == s'
  {
  }

  /** An idle worker takes the job that has waited longest in its own queue. */
  lemma TakesOldest(c: Config, s: Pool, w: nat)
    requires |s.queues| == c.Size() && w < |s.workers| && !s.workers[w].exited && s.workers[w].running.None?
    requires s.workers[w].partition < |s.queues| && s.queues[s.workers[w].partition] != []
    ensures var p, s' := s.workers[w].partition, PoolStep(c, s, Take(w));
            && s'.workers[w].running == Some(s.queues[p][0]) && s'.queues == s.queues[p := s.queues[p][1..]]
            && PoolStep(c, s', Finish(w)).done == s.done + [s.queues[p][0]]
            && PoolStep(c, s', Finish(w)).workers[w].running.None?
  {
  }
}
