/** The executor's run as one sequence of the crash machine's actions without a crash, so that
    what holds of every machine run holds of Run. */
module Simulation {
  import opened StateMachine
  import opened Store
  import opened Partners
  import opened Steps
  import opened Commits
  import opened ExecutorSpec
  import opened Invariants
  import opened RunTheorems
  import opened CrashMachine
  import opened CrashTheorems

  function GoTimes(env: Env, n: Next, k: nat): Next
    decreases k
  {
    if k == 0 then n else GoTimes(env, GoNext(env, n.pc, n.world), k - 1)
  }

  /** Some number of actions leads from one machine position to another. */
  ghost predicate Leads(env: Env, a: Next, b: Next) {
    exists k: nat :: GoTimes(env, a, k) == b
  }

  lemma {:induction false} GoTimesAdd(env: Env, n: Next, j: nat, k: nat)
    ensures GoTimes(env, n, j + k) == GoTimes(env, GoTimes(env, n, j), k)
    decreases j
  {
    hide GoNext;
    if j > 0 {
      GoTimesAdd(env, GoNext(env, n.pc, n.world), j - 1, k);
    }
  }

  lemma LeadsOn(env: Env, a: Next, b: Next, c: Next)
    requires Leads(env, a, b) && Leads(env, b, c)
    ensures Leads(env, a, c)
  {
    var j: nat :| GoTimes(env, a, j) == b;
    var k: nat :| GoTimes(env, b, k) == c;
    GoTimesAdd(env, a, j, k);
  }

  lemma LeadsOne(env: Env, a: Next)
    ensures Leads(env, a, a) && Leads(env, a, GoNext(env, a.pc, a.world))
  {
    hide GoNext;
    assert GoTimes(env, a, 0) == a;
    assert GoTimes(env, GoNext(env, a.pc, a.world), 0) == GoNext(env, a.pc, a.world);
    assert GoTimes(env, a, 1) == GoNext(env, a.pc, a.world);
  }

  lemma LeadsFirst(env: Env, a: Next, b: Next)
    requires Leads(env, GoNext(env, a.pc, a.world), b)
    ensures Leads(env, a, b)
  {
    LeadsOne(env, a);
    LeadsOn(env, a, GoNext(env, a.pc, a.world), b);
  }

  /** The partner calls of one attempt. */
  lemma CallLeads(env: Env, w: World, step: Step, attempt: nat, snap: Snapshot)
    ensures var ex := Execute(env.o, w.fx, snap.saga.payload, step);
            Leads(env, Next(AtCall(step, attempt, snap), w),
                  Next(AtCommit(step, attempt, snap, ex.outcome), w.(fx := ex.fx)))
  {
    hide Leads, GoTimes;
    var a := Next(AtCall(step, attempt, snap), w);
    var ex := Execute(env.o, w.fx, snap.saga.payload, step);
    var b := Next(AtCommit(step, attempt, snap, ex.outcome), w.(fx := ex.fx));
    LeadsOne(env, a);
    if step.Payment? {
      var a1 := GoNext(env, a.pc, a.world);
      if a1.pc.AtCapture? {
        LeadsOne(env, a1);
        var a2 := GoNext(env, a1.pc, a1.world);
        if a2.pc.AtVoid? {
          LeadsOne(env, a2);
          assert GoNext(env, a2.pc, a2.world) == b;
          LeadsFirst(env, a1, b);
        }
        LeadsFirst(env, a, b);
      }
    }
  }

  function AfterAttempt(env: Env, a: Attempt, step: Step, attempt: nat, snap: Snapshot): Next {
    match a.err
    case NoError => Next(Settle(env, a.world), a.world)
    case NonRetriable => Next(StartCascade(a.world, step), a.world)
    case Retriable => Next(AtWait(step, attempt, snap), a.world)
  }

  lemma AttemptLeads(env: Env, w: World, snap: Snapshot, step: Step, attempt: nat)
    requires attempt <= env.maxRetries
    ensures Leads(env, Next(AtBegin(step, attempt, snap), w),
                  AfterAttempt(env, RunStepOnce(env, w, snap, step, attempt), step, attempt, snap))
  {
    hide Leads, GoTimes, Execute, BeginAttempt, CommitSuccess, CommitParked, CommitFailed, Settle, StartCascade;
    var a := Next(AtBegin(step, attempt, snap), w);
    var end := AfterAttempt(env, RunStepOnce(env, w, snap, step, attempt), step, attempt, snap);
    var begun := BeginAttempt(w.tables, step, attempt);
    LeadsOne(env, a);
    if begun.ok {
      var w1 := w.(tables := begun.tables);
      var ex := Execute(env.o, w.fx, snap.saga.payload, step);
      var b := Next(AtCall(step, attempt, snap), w1);
      var c := Next(AtCommit(step, attempt, snap, ex.outcome), w1.(fx := ex.fx));
      CallLeads(env, w1, step, attempt, snap);
      LeadsOn(env, a, b, c);
      LeadsOne(env, c);
      assert GoNext(env, c.pc, c.world) == end;
      LeadsOn(env, a, c, end);
    }
  }

  function AfterRetry(env: Env, r: Ran, step: Step): Next {
    Next(if r.ok then Settle(env, r.world) else StartCascade(r.world, step), r.world)
  }

  lemma {:induction false} RetryLeads(env: Env, w: World, snap: Snapshot, step: Step, attempt: nat)
    ensures Leads(env, Next(AtBegin(step, attempt, snap), w),
                  AfterRetry(env, RunStepWithRetry(env, w, snap, step, attempt), step))
    decreases env.maxRetries - attempt
  {
    hide Leads, GoTimes, RunStepOnce, Settle, StartCascade;
    var a := Next(AtBegin(step, attempt, snap), w);
    var end := AfterRetry(env, RunStepWithRetry(env, w, snap, step, attempt), step);
    LeadsOne(env, a);
    if attempt <= env.maxRetries {
      AttemptLeads(env, w, snap, step, attempt);
      var r := RunStepOnce(env, w, snap, step, attempt);
      if r.err == Retriable {
        var b := Next(AtWait(step, attempt, snap), r.world);
        var w' := r.world.(fx := r.world.fx.Tick());
        if !env.o.givesUp(r.world.fx.clock) {
          RetryLeads(env, w', snap, step, attempt + 1);
        } else {
          LeadsOne(env, end);
        }
        LeadsFirst(env, b, end);
        LeadsOn(env, a, b, end);
      }
    }
  }

  lemma {:induction false} CascadeLeads(env: Env, w: World, sg: SagaRow, txn: TxRow, i: nat)
    requires i < |STEP_ORDER|
    ensures var r := CompensateFrom(env, w, sg, i);
            Leads(env, Next(AtCascade(sg, txn, i), w), Next(AtPark(sg, txn, r.ok), r.world))
    decreases i
  {
    hide Leads, GoTimes, MarkRow, Compensate;
    var step := STEP_ORDER[i];
    var r := CompensateFrom(env, w, sg, i);
    var end := Next(AtPark(sg, txn, r.ok), r.world);
    var a := Next(AtCascade(sg, txn, i), w);
    var w1 := w.(tables := MarkRow(w.tables, step, StepCompensating));
    var b := Next(AtUndo(sg, txn, i), w1);
    var u := Compensate(env.o, w1.fx, sg.payload, step);
    var c := Next(AtMark(sg, txn, i, u.ok), w1.(fx := u.fx));
    var d := GoNext(env, c.pc, c.world);
    assert GoNext(env, a.pc, a.world) == b && GoNext(env, b.pc, b.world) == c;
    if u.ok && i > 0 {
      CascadeLeads(env, d.world, sg, txn, i - 1);
    } else {
      assert d == end;
      LeadsOne(env, d);
    }
    LeadsFirst(env, c, end);
    LeadsFirst(env, b, end);
    LeadsFirst(env, a, end);
  }

  lemma ParkLeads(env: Env, w: World, step: Step)
    ensures var c := CompensateCascade(env, w, step);
            Leads(env, Next(StartCascade(w, step), w), Next(Idle, c.world))
  {
    hide Leads, GoTimes, CompensateFrom, CommitCascade;
    var sg, txn := w.tables.saga, w.tables.txn;
    var r := CompensateFrom(env, w, sg, Position(step));
    CascadeLeads(env, w, sg, txn, Position(step));
    var b := Next(AtPark(sg, txn, r.ok), r.world);
    LeadsOne(env, b);
    LeadsOn(env, Next(StartCascade(w, step), w), b, GoNext(env, b.pc, b.world));
  }

  lemma {:induction false} PollLeads(env: Env, w: World, sg: SagaRow, left: nat)
    ensures var p := Poll(env.o, w.fx, left);
            var w' := w.(fx := p.fx);
            Leads(env, Next(AtPoll(sg, left), w),
                  Next(if p.confirmed then AtConfirm(sg, w.tables.txn) else Load(w'), w'))
    decreases left
  {
    hide Leads, GoTimes, Load;
    var a := Next(AtPoll(sg, left), w);
    LeadsOne(env, a);
    if !env.o.confirmed(w.fx.clock) && left > 0 {
      var w1 := w.(fx := AskStatus(w.fx, false));
      PollLeads(env, w1, sg, left - 1);
      var p := Poll(env.o, w.fx, left);
      var w' := w.(fx := p.fx);
      LeadsFirst(env, a, Next(if p.confirmed then AtConfirm(sg, w.tables.txn) else Load(w'), w'));
    }
  }

  lemma AdvanceLeads(env: Env, w: World)
    requires w.tables.saga.state == Broadcasted
    ensures var w' := AdvanceToConfirmed(env, w);
            Leads(env, Next(Settle(env, w), w), Next(Load(w'), w'))
  {
    hide Leads, GoTimes, Load, CommitConfirmed, Poll;
    var sg := w.tables.saga;
    var w' := AdvanceToConfirmed(env, w);
    if TextOf(sg.payload, TxHash) == "" {
      LeadsOne(env, Next(Load(w), w));
    } else {
      var left := env.o.polls(w.fx.clock);
      var p := Poll(env.o, w.fx, left);
      PollLeads(env, w, sg, left);
      if p.confirmed {
        var b := Next(AtConfirm(sg, w.tables.txn), w.(fx := p.fx));
        LeadsOne(env, b);
        LeadsOn(env, Next(Settle(env, w), w), b, Next(Load(w'), w'));
      }
    }
  }

  function AfterRound(p: Progress): Next {
    Next(if p.verdict == Running then Load(p.world) else Idle, p.world)
  }

  lemma RoundLeads(env: Env, w: World)
    ensures Leads(env, Next(Load(w), w), AfterRound(Round(env, w)))
  {
    hide Leads, GoTimes, RunStepWithRetry, CompensateCascade, AdvanceToConfirmed, StartCascade;
    var a := Next(Load(w), w);
    LeadsOne(env, a);
    if !w.tables.saga.state.Terminal() {
      var step, snap := w.tables.saga.step, Snapshot(w.tables.txn, w.tables.saga);
      var r := RunStepWithRetry(env, w, snap, step, 1);
      RetryLeads(env, w, snap, step, 1);
      if !r.ok {
        ParkLeads(env, r.world, step);
        LeadsOn(env, a, Next(StartCascade(r.world, step), r.world), AfterRound(Round(env, w)));
      } else if r.world.tables.saga.state == Broadcasted {
        AdvanceLeads(env, r.world);
        LeadsOn(env, a, Next(Settle(env, r.world), r.world), AfterRound(Round(env, w)));
      }
    }
  }

  lemma {:induction false} RunLeads(env: Env, w: World, n: nat)
    ensures Leads(env, Next(Load(w), w), AfterRound(Run(env, w, n)))
    decreases n
  {
    hide Leads, GoTimes, Round, Load;
    if n == 0 {
      LeadsOne(env, Next(Load(w), w));
    } else {
      RoundLeads(env, w);
      var p := Round(env, w);
      if p.verdict == Running {
        RunLeads(env, p.world, n - 1);
        LeadsOn(env, Next(Load(w), w), AfterRound(p), AfterRound(Run(env, w, n)));
      }
    }
  }

  function Goes(k: nat): (actions: seq<Action>)
    ensures |actions| == k && forall i :: 0 <= i < k ==> actions[i] == Go
  {
    seq(k, i => Go)
  }

  lemma {:induction false} GoesExec(env: Env, m: Machine, k: nat)
    ensures var m' := Exec(env, m, Goes(k));
            Next(m'.pc, m'.world) == GoTimes(env, Next(m.pc, m.world), k)
    decreases k
  {
    hide GoNext;
    if k > 0 {
      assert Goes(k)[1..] == Goes(k - 1);
      GoesExec(env, Act(env, m, Go), k - 1);
    }
  }

  /** Run is a crash-free run of the machine: started at rest, the machine reaches rest in exactly
      the world Run leaves. */
  lemma RunIsMachineRun(env: Env, m: Machine, n: nat)
    requires m.pc == Idle && Run(env, m.world, n).verdict != Running
    ensures exists k: nat ::
              var m' := Exec(env, m, [StartRun] + Goes(k));
              m'.pc == Idle && m'.world == Run(env, m.world, n).world
  {
    hide Run, GoNext;
    RunLeads(env, m.world, n);
    var s := Act(env, m, StartRun);
    var k: nat :| GoTimes(env, Next(Load(m.world), m.world), k) == AfterRound(Run(env, m.world, n));
    GoesExec(env, s, k);
    assert ([StartRun] + Goes(k))[1..] == Goes(k);
    assert Exec(env, m, [StartRun] + Goes(k)) == Exec(env, s, Goes(k));
  }

  /** The saga rows one whole run commits form a path of legal hops from the row it starts with to
      the row it leaves. */
  lemma RunCommitsLegalPath(env: Env, w: World, n: nat)
    requires Ready(env.tx, w.tables) && w.tables.saga.state == Created && w.fx == NO_EFFECTS
    requires n >= |STEP_ORDER|
    ensures exists history ::
              && LegalPath(history) && |history| > 0 && history[0] == w.tables.saga
              && history[|history| - 1] == Run(env, w, n).world.tables.saga
  {
    hide Core, NothingDone, Run, Exec;
    var m := Machine(Idle, w, [w.tables.saga], 0, Tally(0, 0, 0));
    StepOfReady(env.tx, w.tables);
    RunHalts(env, w, n);
    RunIsMachineRun(env, m, n);
    var k: nat :| Exec(env, m, [StartRun] + Goes(k)).world == Run(env, w, n).world;
    CrashSafety(env, m, [StartRun] + Goes(k));
  }
}
