/** What the partners' answers do: which put a step off and which refuse it, what a success writes,
    and that a refusal is final for the flight that hears it. */
module Answers {
  import opened Options
  import opened StateMachine
  import opened Dedup
  import opened Store
  import opened Partners
  import opened Steps
  import opened Commits
  import opened ExecutorSpec
  import opened Invariants
  import opened RunTheorems
  import opened CrashMachine
  import opened CrashTheorems

  /** The step's partner is not asked: its entry is recorded already, or there is nothing to send. */
  predicate Skipped(payload: Payload, step: Step) {
    || (step == Broadcast && TextOf(payload, TxHash) != "")
    || (step == Ledger && TextOf(payload, LedgerJournalId) != "")
  }

  predicate NothingToSend(payload: Payload, step: Step) {
    step == Broadcast && TextOf(payload, TxHash) == "" && TextOf(payload, SignedTxHex) == ""
  }

  /** The step's partner cannot say for the moment. Payment asks twice, for the authorization and for
      the capture. */
  predicate PutsOff(o: Oracle, clock: nat, step: Step) {
    match step
    case Policy => o.evaluate(clock).Transient?
    case Payment => o.authorize(clock).Transient? || (o.authorize(clock).Ok? && o.capture(clock + 1).Transient?)
    case Kyt => o.screen(clock).Transient?
    case MpcSign => o.sign(clock).Transient?
    case Broadcast => o.broadcast(clock).Transient?
    case Ledger => o.post(clock).Transient?
  }

  /** The step's partner refuses: a hard error, a denial by policy, or any screening decision that is
      not clear. */
  predicate Refuses(o: Oracle, clock: nat, step: Step) {
    match step
    case Policy => o.evaluate(clock).Hard? || (o.evaluate(clock).Ok? && o.evaluate(clock).value.deny)
    case Payment => o.authorize(clock).Hard? || (o.authorize(clock).Ok? && o.capture(clock + 1).Hard?)
    case Kyt => o.screen(clock).Hard? || (o.screen(clock).Ok? && o.screen(clock).value.decision != KytClear)
    case MpcSign => o.sign(clock).Hard?
    case Broadcast => o.broadcast(clock).Hard?
    case Ledger => o.post(clock).Hard?
  }

  /** How one call of Execute takes the answers of its partner. */
  predicate Classified(o: Oracle, fx: Effects, payload: Payload, step: Step, ex: Executed) {
    var unsigned := NothingToSend(payload, step);
    var putOff, refused := !unsigned && PutsOff(o, fx.clock, step), !unsigned && Refuses(o, fx.clock, step);
    && (ex.outcome == Error(false) <==> putOff)
    && (ex.outcome == Error(true) || ex.outcome.Parked? <==> refused || unsigned)
    && (ex.outcome.Parked? <==> refused && (step == Ledger || (step == Policy && o.evaluate(fx.clock).Ok?)))
    && (ex.outcome.Parked? ==> ex.outcome.state == if step == Ledger then Failed else FailedCompensated)
    && ex.fx.executed == fx.executed + [step]
    && ex.fx.heard.putOff == fx.heard.putOff + (if putOff then 1 else 0)
    && ex.fx.heard.refusals == fx.heard.refusals + (if refused then [|fx.executed| + 1] else [])
  }

  lemma PaymentOutcome(o: Oracle, fx: Effects, payload: Payload)
    ensures var out := Execute(o, fx, payload, Payment).outcome;
            && !out.Parked?
            && (out == Error(false) <==> PutsOff(o, fx.clock, Payment))
            && (out == Error(true) <==> Refuses(o, fx.clock, Payment))
  {
    assert Authorize(fx.(executed := fx.executed + [Payment]), o.authorize(fx.clock)).clock == fx.clock + 1;
    hide Authorize, Capture, Void;
  }

  lemma CallHeard(fx: Effects, authId: string, r: Reply<string>, fails: bool)
    ensures var a, c, v := Authorize(fx, r), Capture(fx, authId, r), Void(fx, authId, fails);
            && a.clock == c.clock == fx.clock + 1 && a.executed == c.executed == v.executed == fx.executed
            && a.heard.putOff == c.heard.putOff == fx.heard.putOff + (if r.Transient? then 1 else 0)
            && a.heard.refusals == c.heard.refusals == fx.heard.refusals + (if r.Hard? then [|fx.executed|] else [])
            && v.heard == fx.heard
  {
  }

  /** The calls of a payment attempt, one after the other. */
  lemma PaymentCalls(o: Oracle, fx: Effects)
    ensures var auth := o.authorize(fx.clock);
            var fx1 := Authorize(fx, auth);
            var cap := o.capture(fx1.clock);
            ExecutePayment(o, fx).fx ==
            if !auth.Ok? then fx1
            else
              var fx2 := Capture(fx1, auth.value, cap);
              if cap.Ok? then fx2 else Void(fx2, auth.value, o.voidFails(fx2.clock))
  {
    hide Authorize, Capture, Void;
  }

  lemma PaymentAsks(o: Oracle, clock: nat)
    ensures var auth, cap := o.authorize(clock), o.capture(clock + 1);
            && (PutsOff(o, clock, Payment) <==> auth.Transient? || (auth.Ok? && cap.Transient?))
            && (Refuses(o, clock, Payment) <==> auth.Hard? || (auth.Ok? && cap.Hard?))
  {
  }

  lemma PaymentExecutes(o: Oracle, fx: Effects, payload: Payload)
    ensures Execute(o, fx, payload, Payment) == ExecutePayment(o, fx.(executed := fx.executed + [Payment]))
  {
    hide ExecutePayment;
  }

  lemma PaymentHeard(o: Oracle, fx: Effects, payload: Payload)
    ensures var fx' := Execute(o, fx, payload, Payment).fx;
            && fx'.executed == fx.executed + [Payment]
            && fx'.heard.putOff == fx.heard.putOff + (if PutsOff(o, fx.clock, Payment) then 1 else 0)
            && fx'.heard.refusals ==
               fx.heard.refusals + (if Refuses(o, fx.clock, Payment) then [|fx.executed| + 1] else [])
  {
    hide Execute, ExecutePayment, Authorize, Capture, Void, PutsOff, Refuses;
    var fx0 := fx.(executed := fx.executed + [Payment]);
    var auth := o.authorize(fx.clock);
    var fx1 := Authorize(fx0, auth);
    var cap := o.capture(fx.clock + 1);
    PaymentCalls(o, fx0);
    CallHeard(fx0, "", auth, false);
    PaymentAsks(o, fx.clock);
    PaymentExecutes(o, fx, payload);
    if auth.Ok? {
      CallHeard(fx1, auth.value, cap, false);
      var fx2 := Capture(fx1, auth.value, cap);
      CallHeard(fx2, auth.value, cap, o.voidFails(fx2.clock));
    }
  }

  lemma PaymentClassified(o: Oracle, fx: Effects, payload: Payload)
    ensures Classified(o, fx, payload, Payment, Execute(o, fx, payload, Payment))
  {
    hide Execute, PutsOff, Refuses;
    PaymentOutcome(o, fx, payload);
    PaymentHeard(o, fx, payload);
  }

  lemma CallClassified(o: Oracle, fx: Effects, payload: Payload, step: Step)
    requires step == Broadcast || step == Ledger
    requires !Skipped(payload, step)
    ensures Classified(o, fx, payload, step, Execute(o, fx, payload, step))
  {
  }

  lemma AnswerOnlyClassified(o: Oracle, fx: Effects, payload: Payload, step: Step)
    requires step == Policy || step == Kyt || step == MpcSign
    ensures Classified(o, fx, payload, step, Execute(o, fx, payload, step))
  {
  }

  /** Every answer of every step's partner, classified: an error is retried exactly when the partner
      put the step off; it is final exactly when the partner refused or there is nothing to send; a
      denial parks the saga compensated, a refused entry parks it failed, and everything else goes
      to the cascade. */
  lemma AnswerClassified(o: Oracle, fx: Effects, payload: Payload, step: Step)
    requires !Skipped(payload, step)
    ensures Classified(o, fx, payload, step, Execute(o, fx, payload, step))
  {
    hide Classified, Execute, Skipped;
    match step
    case Payment => PaymentClassified(o, fx, payload);
    case Broadcast => CallClassified(o, fx, payload, step);
    case Ledger => CallClassified(o, fx, payload, step);
    case _ => AnswerOnlyClassified(o, fx, payload, step);
  }

  /** A step whose entry is recorded succeeds again with that entry and asks nobody. */
  lemma SkippedAsksNobody(o: Oracle, fx: Effects, payload: Payload, step: Step)
    requires Skipped(payload, step)
    ensures var ex := Execute(o, fx, payload, step);
            var key := if step == Broadcast then TxHash else LedgerJournalId;
            && ex.fx == fx.(executed := fx.executed + [step])
            && ex.outcome == Success(if step == Broadcast then Broadcasted else Ledgered, map[key := payload[key]])
  {
  }

  /** A broadcast without a signed transaction asks nobody. */
  lemma UnsignedAsksNobody(o: Oracle, fx: Effects, payload: Payload)
    requires NothingToSend(payload, Broadcast)
    ensures Execute(o, fx, payload, Broadcast).fx == fx.(executed := fx.executed + [Broadcast])
  {
  }

  function Flagged(p: Payload, k: PayloadKey): bool {
    k in p && p[k] == Flag(true)
  }

  /** What a step writes into the payload when it succeeds or parks the saga: the values its partner
      answered with, under their own keys, and nothing else. */
  lemma AnswerWritten(o: Oracle, fx: Effects, payload: Payload, step: Step)
    requires !Skipped(payload, step) && !Execute(o, fx, payload, step).outcome.Error?
    ensures var out, c := Execute(o, fx, payload, step).outcome, fx.clock;
            match step
            case Policy =>
              && out.merge.Keys == {PolicyReason}
              && TextOf(out.merge, PolicyReason) == o.evaluate(c).value.reason
            case Payment =>
              && out.merge.Keys == {AuthId, CaptureId}
              && TextOf(out.merge, AuthId) == o.authorize(c).value
              && TextOf(out.merge, CaptureId) == o.capture(c + 1).value
            case Kyt => out.merge.Keys == {KytReason} && TextOf(out.merge, KytReason) == o.screen(c).value.reason
            case MpcSign => out.merge.Keys == {SignedTxHex} && TextOf(out.merge, SignedTxHex) == o.sign(c).value
            case Broadcast =>
              var a := o.broadcast(c).value;
              && out.merge.Keys <= {TxHash, InMempool, AlreadyConfirmed} && TextOf(out.merge, TxHash) == a.hash
              && Flagged(out.merge, InMempool) == a.inMempool && (InMempool in out.merge <==> a.inMempool)
              && Flagged(out.merge, AlreadyConfirmed) == a.confirmed && (AlreadyConfirmed in out.merge <==> a.confirmed)
            case Ledger =>
              if out.Parked? then out.merge == map[LedgerReconcileRequired := Flag(true)]
              else out.merge.Keys == {LedgerJournalId} && TextOf(out.merge, LedgerJournalId) == o.post(c).value
  {
  }

  /** No refusal was heard between two moments, or one was, by the last Execute call made. */
  predicate Heeds(fx: Effects, fx': Effects, ended: bool) {
    || fx'.heard.refusals == fx.heard.refusals
    || (fx'.heard.refusals == fx.heard.refusals + [|fx'.executed|] && ended)
  }

  lemma SkippedOrNot(tx: TxId, t: Tables)
    requires Core(tx, t) && !t.saga.state.Terminal()
    ensures !Skipped(t.saga.payload, t.saga.step)
  {
    AtWork(tx, t);
  }

  lemma AttemptHeeds(env: Env, w: World, step: Step, attempt: nat)
    requires Core(env.tx, w.tables) && StepFrom(w.tables.saga.state) == Some(step)
    requires w.tables.saga.step == step && NothingDone(w.tables, attempt)
    ensures var a := RunStepOnce(env, w, Snapshot(w.tables.txn, w.tables.saga), step, attempt);
            && (a.err == Retriable ==> a.world.fx.heard.refusals == w.fx.heard.refusals)
            && Heeds(w.fx, a.world.fx, a.err == NonRetriable
                                       || (a.err == NoError && a.world.tables.saga.state.IsFailure()))
  {
    hide Core, Committed, Execute, Fits, RunStepOnce, NothingDone, Skipped, PutsOff, Refuses, NothingToSend;
    SkippedOrNot(env.tx, w.tables);
    AttemptMoves(env, w, step, attempt);
    AnswerClassified(env.o, w.fx, w.tables.saga.payload, step);
  }

  /** The retry loop stops at a refusal. */
  lemma {:induction false} RetryHeeds(env: Env, w: World, step: Step, attempt: nat)
    requires Core(env.tx, w.tables) && StepFrom(w.tables.saga.state) == Some(step)
    requires w.tables.saga.step == step && NothingDone(w.tables, attempt)
    ensures var r := RunStepWithRetry(env, w, Snapshot(w.tables.txn, w.tables.saga), step, attempt);
            Heeds(w.fx, r.world.fx, !r.ok || r.world.tables.saga.state.IsFailure())
    decreases env.maxRetries - attempt
  {
    if attempt <= env.maxRetries {
      hide Core, Committed, RunStepOnce, NothingDone, Moves, OutcomeSaga, Execute;
      var sg := w.tables.saga;
      var a := RunStepOnce(env, w, Snapshot(w.tables.txn, sg), step, attempt);
      AttemptMoves(env, w, step, attempt);
      AttemptHeeds(env, w, step, attempt);
      if a.err == Retriable && !env.o.givesUp(a.world.fx.clock) {
        RetryHeeds(env, a.world.(fx := a.world.fx.Tick()), step, attempt + 1);
      }
    }
  }

  lemma UndoHearsNothing(o: Oracle, fx: Effects, payload: Payload)
    ensures var fx' := CompensatePayment(o, fx, payload).fx; fx'.heard == fx.heard && fx'.executed == fx.executed
  {
  }

  /** A turn that hears a refusal is the last of its run and ends it in a failure state. */
  lemma RoundHeeds(env: Env, w: World)
    requires Ready(env.tx, w.tables) && !w.tables.saga.state.Terminal()
    ensures var p := Round(env, w);
            Heeds(w.fx, p.world.fx, p.verdict != Running && p.world.tables.saga.state.IsFailure())
  {
    hide Core, Committed, NothingDone, RunStepWithRetry, CompensateFrom, AdvanceToConfirmed, CommitCascade,
         CascadeCalls;
    hide CompensatePayment;
    StepOfReady(env.tx, w.tables);
    var step := w.tables.saga.step;
    RetryHeeds(env, w, step, 1);
    RetryMoves(env, w, step, 1);
    var r := RunStepWithRetry(env, w, Snapshot(w.tables.txn, w.tables.saga), step, 1);
    if !r.ok {
      CascadeMoves(env, r.world, step);
      CascadeCallsMade(env, r.world, r.world.tables.saga, Position(step));
      UndoHearsNothing(env.o, r.world.fx, r.world.tables.saga.payload);
    } else if r.world.tables.saga.state == Broadcasted {
      AdvanceMoves(env, r.world);
    }
  }

  /** A refusal is final. A run that hears one, a denial, a screening that is not clear or a hard
      error, makes no further Execute call, hears no second one, and ends in a failure state. */
  lemma {:induction false} RunHeeds(env: Env, w: World, n: nat)
    requires Ready(env.tx, w.tables) && !w.tables.saga.state.Terminal()
    ensures var p := Run(env, w, n);
            Heeds(w.fx, p.world.fx, p.verdict != Running && p.world.tables.saga.state.IsFailure())
    decreases n
  {
    hide Ready, Round;
    if n > 0 {
      RoundHeeds(env, w);
      RoundMoves(env, w);
      var p := Round(env, w);
      if p.verdict == Running {
        RunHeeds(env, p.world, n - 1);
      }
    }
  }

  /** The process is on its way from a refusal to the end of its run. */
  predicate Doomed(pc: Pc) {
    match pc
    case AtVoid(_, _, _, nonRetriable) => nonRetriable
    case AtCommit(_, _, _, outcome) => outcome.Parked? || outcome == Error(true)
    case AtCascade(_, _, _) => true
    case AtUndo(_, _, _) => true
    case AtMark(_, _, _, _) => true
    case AtPark(_, _, _) => true
    case Idle => true
    case _ => false
  }

  lemma CallDooms(env: Env, pc: Pc, w: World)
    requires pc.AtCall? && pc.step != Payment && !Skipped(pc.snap.saga.payload, pc.step)
    ensures var n := GoNext(env, pc, w); n.world.fx.heard.refusals != w.fx.heard.refusals ==> Doomed(n.pc)
  {
    AnswerClassified(env.o, w.fx, pc.snap.saga.payload, pc.step);
    hide Execute, Skipped, PutsOff, Refuses, NothingToSend;
  }

  lemma OthersHearNothing(env: Env, pc: Pc, w: World)
    requires !pc.AtCall? && !pc.AtCapture?
    ensures GoNext(env, pc, w).world.fx.heard == w.fx.heard
  {
    hide CommitSuccess, CommitParked, CommitConfirmed, CommitCascade, BeginAttempt, UpdateStep;
  }

  /** The action that hears a refusal dooms the process. */
  lemma RefusalDooms(env: Env, m: Machine)
    requires Sound(env, m)
    ensures var m' := Act(env, m, Go);
            m'.world.fx.heard.refusals != m.world.fx.heard.refusals ==> Doomed(m'.pc)
  {
    hide Core, Counted, NothingDone, LegalPath, Fits;
    var pc := m.pc;
    if pc.AtCall? {
      SkippedOrNot(env.tx, m.world.tables);
      if pc.step != Payment {
        CallDooms(env, pc, m.world);
        hide GoNext;
      }
    } else if !pc.AtCapture? {
      OthersHearNothing(env, pc, m.world);
      hide GoNext;
    }
  }

  lemma CompensateRecordsExecuted(o: Oracle, fx: Effects, payload: Payload, step: Step)
    ensures Compensate(o, fx, payload, step).fx.executed == fx.executed
  {
  }

  lemma DoomedGoesOn(env: Env, m: Machine)
    requires Sound(env, m) && Doomed(m.pc)
    ensures var m' := Act(env, m, Go);
            && Doomed(m'.pc) && m'.world.fx.executed == m.world.fx.executed
            && (m'.world.tables.saga.state == m.world.tables.saga.state || m'.world.tables.saga.state.IsFailure())
  {
    var pc, t := m.pc, m.world.tables;
    hide Core, Counted, NothingDone, LegalPath, Fits, CommitSuccess, CommitParked, CommitConfirmed, CommitCascade,
         Compensate;
    match pc
    case AtCommit(step, attempt, snap, Parked(state, merge)) =>
      CommitParkedExact(env.rollback, env.tx, t, step, attempt, state, merge, FreshId(env, t));
    case AtPark(_, _, ok) =>
      CommitCascadeExact(env.tx, t, CascadeTarget(ok), FreshId(env, t));
    case AtUndo(sg, _, i) =>
      CompensateRecordsExecuted(env.o, m.world.fx, sg.payload, STEP_ORDER[i]);
    case _ =>
  }

  lemma CrashDooms(env: Env, m: Machine)
    ensures var m' := Act(env, m, Crash); Doomed(m'.pc) && m'.world == m.world
  {
  }

  /** From a refusal on, wherever the process crashes: until something is started again nothing is
      executed any more, and the saga stays as it is or fails. */
  lemma {:induction false} DoomedForGood(env: Env, m: Machine, actions: seq<Action>)
    requires Sound(env, m) && Doomed(m.pc) && forall a :: a in actions ==> a == Go || a == Crash
    ensures var m' := Exec(env, m, actions);
            && m'.world.fx.executed == m.world.fx.executed
            && (m'.world.tables.saga.state == m.world.tables.saga.state || m'.world.tables.saga.state.IsFailure())
    decreases |actions|
  {
    hide Sound, Act, Doomed;
    if actions != [] {
      assert actions[0] in actions && forall a :: a in actions[1..] ==> a in actions;
      ActKeepsSound(env, m, actions[0]);
      if actions[0] == Go {
        DoomedGoesOn(env, m);
      } else {
        CrashDooms(env, m);
      }
      DoomedForGood(env, Act(env, m, actions[0]), actions[1..]);
    }
  }
}
