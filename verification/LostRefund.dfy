/** Runs that end as compensated and are not: the customer's money kept, and a hold left open. */
module LostRefund {
  import opened StateMachine
  import opened Dedup
  import opened Store
  import opened Partners
  import opened Steps
  import opened Commits
  import opened ExecutorSpec
  import opened Invariants
  import opened RunTheorems
  import opened Outcome

  /** Policy allows, the capture goes through under an empty id, and the screening rejects. */
  function EmptyCapture(): Oracle {
    Oracle(_ => Ok(PolicyAnswer(false, "")), _ => Ok("a"), _ => Ok(""), _ => false, _ => false,
           _ => Ok(KytAnswer(KytReject, "")), _ => Ok("s"), _ => Ok(BroadcastAnswer("h", true, true)),
           _ => true, _ => Ok("j"), _ => false, _ => 0, i => i)
  }

  /** A turn whose step is given up after the policy step. */
  lemma GivenUpRound(env: Env, w: World)
    requires Ready(env.tx, w.tables) && !w.tables.saga.state.Terminal()
    requires 0 < Position(w.tables.saga.step) < Position(Ledger)
    requires Try(env.o, env.maxRetries, w.fx, w.tables.saga.payload, w.tables.saga.step, true, 1).GaveUp?
    ensures var sg, p := w.tables.saga, Round(env, w);
            var t := Try(env.o, env.maxRetries, w.fx, sg.payload, sg.step, true, 1);
            var u := CompensatePayment(env.o, t.fx, sg.payload);
            && p.world.fx == u.fx.(compensated := p.world.fx.compensated)
            && p.world.tables.saga.state == CascadeTarget(u.ok) && (p.verdict == Finished <==> u.ok)
  {
    hide Core, Committed, NothingDone, RunStepWithRetry, Try, CompensateFrom, CommitCascade, CompensatePayment;
    StepOfReady(env.tx, w.tables);
    var step := w.tables.saga.step;
    RetryMatches(env, w, step, 1);
    RetryMoves(env, w, step, 1);
    var r := RunStepWithRetry(env, w, Snapshot(w.tables.txn, w.tables.saga), step, 1);
    CascadeMoves(env, r.world, step);
    CascadeCallsMade(env, r.world, r.world.tables.saga, Position(step));
  }

  lemma PolicyTried(maxRetries: int, fx: Effects, payload: Payload)
    requires maxRetries >= 1
    ensures var t := Try(EmptyCapture(), maxRetries, fx, payload, Policy, true, 1);
            && t.Passed? && t.fx.auths == fx.auths && t.fx.captures == fx.captures
            && t.fx.compensationVoids == fx.compensationVoids && t.fx.refunds == fx.refunds
  {
  }

  lemma PaymentTried(maxRetries: int, fx: Effects, payload: Payload)
    requires maxRetries >= 1
    ensures var t := Try(EmptyCapture(), maxRetries, fx, payload, Payment, true, 1);
            && t.Passed? && t.fx.auths == fx.auths + ["a"] && t.fx.captures == fx.captures + [""]
            && t.fx.compensationVoids == fx.compensationVoids && t.fx.refunds == fx.refunds
            && TextOf(t.payload, AuthId) == "a" && TextOf(t.payload, CaptureId) == ""
  {
  }

  lemma KytTried(maxRetries: int, fx: Effects, payload: Payload)
    requires maxRetries >= 1 && TextOf(payload, AuthId) == "a" && TextOf(payload, CaptureId) == ""
    ensures var t := Try(EmptyCapture(), maxRetries, fx, payload, Kyt, true, 1);
            && t.GaveUp?
            && var u := CompensatePayment(EmptyCapture(), t.fx, payload);
               && u.ok && u.fx.auths == fx.auths && u.fx.captures == fx.captures
               && u.fx.compensationVoids == fx.compensationVoids + ["a"] && u.fx.refunds == fx.refunds
  {
  }

  lemma CreatedStep(tx: TxId, t: Tables)
    requires Ready(tx, t) && t.saga.state == Created
    ensures t.saga.step == Policy
  {
  }

  lemma ThreeRounds(env: Env, w: World, n: nat)
    requires n >= 3 && Round(env, w).verdict == Running && Round(env, Round(env, w).world).verdict == Running
    requires Round(env, Round(env, Round(env, w).world).world).verdict != Running
    ensures Run(env, w, n) == Round(env, Round(env, Round(env, w).world).world)
  {
    hide Round;
    var w1 := Round(env, w).world;
    var w2 := Round(env, w1).world;
    assert Run(env, w, n) == Run(env, w1, n - 1);
    assert Run(env, w1, n - 1) == Run(env, w2, n - 2);
    assert Run(env, w2, n - 2) == Round(env, w2);
  }

  /** The money is captured and never refunded, yet the purchase ends as compensated: the
      compensation takes the empty id for no capture, and voids the captured authorization. */
  lemma EmptyCaptureKeepsTheMoney(env: Env, w: World, n: nat)
    requires Ready(env.tx, w.tables) && w.tables.saga.state == Created && w.fx == NO_EFFECTS
    requires env.o == EmptyCapture() && env.maxRetries >= 1 && n >= 3
    ensures var p := Run(env, w, n);
            && p.verdict == Finished && p.world.tables.saga.state == FailedCompensated
            && p.world.fx.auths == ["a"] && p.world.fx.captures == [""]
            && p.world.fx.refunds == [] && p.world.fx.compensationVoids == ["a"]
  {
    hide Ready, Round, Try, CompensatePayment, EmptyCapture;
    assert w.tables.saga.step == Policy by { CreatedStep(env.tx, w.tables); }
    PolicyTried(env.maxRetries, w.fx, w.tables.saga.payload);
    PassedRound(env, w);
    var w1 := Round(env, w).world;
    PaymentTried(env.maxRetries, w1.fx, w1.tables.saga.payload);
    PassedRound(env, w1);
    var w2 := Round(env, w1).world;
    KytTried(env.maxRetries, w2.fx, w2.tables.saga.payload);
    GivenUpRound(env, w2);
    ThreeRounds(env, w, n);
  }

  /** Policy allows, the capture is refused, and no void goes through. */
  function FailingVoid(): Oracle {
    EmptyCapture().(capture := _ => Hard, voidFails := _ => true)
  }

  lemma PolicyTriedFailing(maxRetries: int, fx: Effects, payload: Payload)
    requires maxRetries >= 1
    ensures var t := Try(FailingVoid(), maxRetries, fx, payload, Policy, true, 1);
            && t.Passed? && t.fx == fx.(clock := t.fx.clock, executed := t.fx.executed, granted := t.fx.granted,
               heard := t.fx.heard)
            && t.payload == payload + map[PolicyReason := Text("")]
  {
  }

  lemma PaymentGivenUp(maxRetries: int, fx: Effects, payload: Payload)
    requires maxRetries >= 1 && TextOf(payload, CaptureId) == "" && TextOf(payload, AuthId) == ""
    ensures var t := Try(FailingVoid(), maxRetries, fx, payload, Payment, true, 1);
            && t.GaveUp?
            && var u := CompensatePayment(FailingVoid(), t.fx, payload);
               && u.ok && u.fx == t.fx && t.fx.auths == fx.auths + ["a"] && t.fx.openHolds == fx.openHolds + ["a"]
               && t.fx.voids == fx.voids && t.fx.captures == fx.captures
  {
  }

  lemma NothingPaid(tx: TxId, t: Tables)
    requires Ready(tx, t) && t.saga.state == PolicyChecked
    ensures TextOf(t.saga.payload, CaptureId) == "" && TextOf(t.saga.payload, AuthId) == "" && t.saga.step == Payment
  {
    assert KeyRank(CaptureId).value == 2 && KeyRank(AuthId).value == 2;
  }

  lemma TwoRounds(env: Env, w: World, n: nat)
    requires n >= 2 && Round(env, w).verdict == Running && Round(env, Round(env, w).world).verdict != Running
    ensures Run(env, w, n) == Round(env, Round(env, w).world)
  {
    hide Round;
    var w1 := Round(env, w).world;
    assert Run(env, w, n) == Run(env, w1, n - 1);
    assert Run(env, w1, n - 1) == Round(env, w1);
  }

  /** A purchase that ends as compensated with an authorization neither captured nor voided. The
      step returns the authorization id with its error, the executor drops it, and so the
      compensation has nothing to void. */
  lemma FailedVoidLeavesHold(env: Env, w: World, n: nat)
    requires Ready(env.tx, w.tables) && w.tables.saga.state == Created && w.fx == NO_EFFECTS
    requires env.o == FailingVoid() && env.maxRetries >= 1 && n >= 2
    ensures var p := Run(env, w, n);
            && p.verdict == Finished && p.world.tables.saga.state == FailedCompensated
            && p.world.fx.auths == ["a"] && p.world.fx.openHolds == ["a"]
            && p.world.fx.voids == [] && p.world.fx.captures == []
  {
    hide Ready, Round, Try, CompensatePayment, FailingVoid;
    CreatedStep(env.tx, w.tables);
    PolicyTriedFailing(env.maxRetries, w.fx, w.tables.saga.payload);
    PassedRound(env, w);
    var w1 := Round(env, w).world;
    NothingPaid(env.tx, w1.tables);
    PaymentGivenUp(env.maxRetries, w1.fx, w1.tables.saga.payload);
    GivenUpRound(env, w1);
    TwoRounds(env, w, n);
  }
}
