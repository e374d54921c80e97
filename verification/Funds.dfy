/** Where the money is: what the partners have been asked to do, tied to the saga row, over whole
    runs without crashes. */
module Funds {
  import opened Options
  import opened StateMachine
  import opened Dedup
  import opened Store
  import opened Partners
  import opened Steps
  import opened Commits
  import opened ExecutorSpec
  import opened Invariants
  import opened RunTheorems

  function Kept(p: Payload, k: PayloadKey): seq<string> {
    if k in p then [TextOf(p, k)] else []
  }

  predicate Matched(auths: seq<string>, voids: seq<string>, open: seq<string>, captured: seq<string>) {
    multiset(auths) == multiset(voids) + multiset(open) + multiset(captured)
  }

  /** Every authorization was captured, voided after a failed capture, or left open when that void
      failed too. */
  predicate AuthsMatched(fx: Effects) {
    Matched(fx.auths, fx.voids, fx.openHolds, fx.capturedAuths)
  }

  lemma MatchedGrows(auths: seq<string>, voids: seq<string>, open: seq<string>, captured: seq<string>, id: string)
    requires Matched(auths, voids, open, captured)
    ensures Matched(auths + [id], voids + [id], open, captured)
    ensures Matched(auths + [id], voids, open + [id], captured)
    ensures Matched(auths + [id], voids, open, captured + [id])
  {
  }

  /** Every authorization was captured or voided. */
  predicate AuthsClosed(fx: Effects) {
    multiset(fx.auths) == multiset(fx.voids) + multiset(fx.capturedAuths)
  }

  lemma ClosedIff(fx: Effects)
    requires AuthsMatched(fx)
    ensures AuthsClosed(fx) <==> fx.openHolds == []
  {
    if fx.openHolds != [] {
      var id := fx.openHolds[0];
      assert id in multiset(fx.openHolds);
      assert multiset(fx.auths)[id] > (multiset(fx.voids) + multiset(fx.capturedAuths))[id];
    }
  }

  /** A saga that has not failed: the recorded capture, broadcast and journal entry are the only
      ones, and nothing was refunded. Posts that were turned down may exist while the saga waits
      for confirmation. */
  predicate OnTrack(sg: SagaRow, fx: Effects) {
    && fx.captures == Kept(sg.payload, CaptureId)
    && fx.capturedAuths == Kept(sg.payload, AuthId)
    && fx.broadcasts == Kept(sg.payload, TxHash)
    && (sg.state != Broadcasted ==> fx.posts == Kept(sg.payload, LedgerJournalId))
    && fx.refunds == []
    && AuthsMatched(fx)
    && !fx.ledgerRefused && !fx.compensationFailed
  }

  /** What a refund can give back: a capture whose id was recorded as a non-empty string. */
  function Refundable(captures: seq<string>): seq<string> {
    if captures == [""] then [] else captures
  }

  /** The accounts of a saga in each kind of state. */
  predicate Balanced(sg: SagaRow, fx: Effects) {
    match sg.state
    case FailedCompensated =>
      && |fx.captures| <= 1
      && fx.refunds == Refundable(fx.captures)
      && AuthsMatched(fx)
      && !fx.ledgerRefused && !fx.compensationFailed
    case Failed =>
      && |fx.captures| <= 1
      && fx.refunds == []
      && AuthsMatched(fx)
      && (fx.ledgerRefused || fx.compensationFailed)
      && (fx.ledgerRefused ==> |fx.captures| == |fx.broadcasts| == 1)
    case _ => OnTrack(sg, fx)
  }

  /** The entries a saga that has not failed carries, read off its shape. */
  lemma KeptByRank(sg: SagaRow)
    requires Shape(sg) && !sg.state.IsFailure()
    ensures |Kept(sg.payload, CaptureId)| == |Kept(sg.payload, AuthId)| == (if Rank(sg.state) >= 2 then 1 else 0)
    ensures |Kept(sg.payload, TxHash)| == if Rank(sg.state) >= 5 then 1 else 0
    ensures |Kept(sg.payload, LedgerJournalId)| == if Rank(sg.state) >= 8 then 1 else 0
  {
    assert KeyRank(CaptureId) == KeyRank(AuthId) == Some(2);
    assert KeyRank(TxHash) == Some(5) && KeyRank(LedgerJournalId) == Some(8);
  }

  /** The entries that money hangs on, in the row a step's outcome commits. */
  lemma KeptNext(sg: SagaRow, step: Step, state: State, merge: Payload)
    ensures var next := NextSaga(sg, step, state, merge);
            && next.state == (if step == Ledger && state == Ledgered then Completed else state)
            && forall k :: Kept(next.payload, k) == if k in merge then Kept(merge, k) else Kept(sg.payload, k)
    ensures forall k :: Kept(ParkedSaga(sg, state, merge).payload, k) == if k in merge then Kept(merge, k)
            else Kept(sg.payload, k)
  {
  }

  /** The accounts after an attempt, whatever the partners answered. */
  ghost predicate AttemptKeeps(sg: SagaRow, fx: Effects, ex: Executed, step: Step) {
    && (match ex.outcome
        case Success(state, merge) =>
          if sg.state == Broadcasted then OnTrack(sg, ex.fx)
          else !NextSaga(sg, step, state, merge).state.IsFailure() && OnTrack(NextSaga(sg, step, state, merge), ex.fx)
        case Parked(state, merge) => Balanced(ParkedSaga(sg, state, merge), ex.fx)
        case Error(_) => OnTrack(sg, ex.fx))
    && (step != Ledger ==> ex.fx.posts == fx.posts)
  }

  predicate SameElsewhere(fx: Effects, fx': Effects) {
    && fx'.broadcasts == fx.broadcasts && fx'.posts == fx.posts && fx'.refunds == fx.refunds
    && fx'.ledgerRefused == fx.ledgerRefused && fx'.compensationFailed == fx.compensationFailed
  }

  /** What the calls of a payment attempt leave alone, and what each adds. */
  lemma CallAdds(fx: Effects, authId: string, r: Reply<string>, fails: bool)
    ensures var a, c, v := Authorize(fx, r), Capture(fx, authId, r), Void(fx, authId, fails);
            && SameElsewhere(fx, a) && SameElsewhere(fx, c) && SameElsewhere(fx, v)
            && a.auths == (if r.Ok? then fx.auths + [r.value] else fx.auths) && a.captures == fx.captures
            && a.capturedAuths == fx.capturedAuths && a.voids == fx.voids && a.openHolds == fx.openHolds
            && c.captures == (if r.Ok? then fx.captures + [r.value] else fx.captures) && c.auths == fx.auths
            && c.capturedAuths == (if r.Ok? then fx.capturedAuths + [authId] else fx.capturedAuths)
            && c.voids == fx.voids && c.openHolds == fx.openHolds
            && v.auths == fx.auths && v.captures == fx.captures && v.capturedAuths == fx.capturedAuths
            && v.voids == (if fails then fx.voids else fx.voids + [authId])
            && v.openHolds == (if fails then fx.openHolds + [authId] else fx.openHolds)
  {
  }

  /** What a payment attempt adds: at most one authorization, which ends captured, voided or open. */
  lemma PaymentEffects(o: Oracle, fx: Effects, payload: Payload)
    ensures var ex := Execute(o, fx, payload, Payment);
            && SameElsewhere(fx, ex.fx)
            && !ex.outcome.Parked?
            && (AuthsMatched(fx) ==> AuthsMatched(ex.fx))
            && (match ex.outcome
                case Success(state, merge) =>
                  && state == PaymentCaptured && merge.Keys == {AuthId, CaptureId}
                  && ex.fx.captures == fx.captures + [TextOf(merge, CaptureId)]
                  && ex.fx.capturedAuths == fx.capturedAuths + [TextOf(merge, AuthId)]
                case _ => ex.fx.captures == fx.captures && ex.fx.capturedAuths == fx.capturedAuths)
  {
    hide Matched;
    var fx0 := fx.(executed := fx.executed + [Payment]);
    var auth := o.authorize(fx0.clock);
    CallAdds(fx0, "", auth, false);
    if auth.Ok? {
      var fx1 := Authorize(fx0, auth);
      var cap := o.capture(fx1.clock);
      CallAdds(fx1, auth.value, cap, false);
      var fx2 := Capture(fx1, auth.value, cap);
      CallAdds(fx2, auth.value, cap, o.voidFails(fx2.clock));
      if AuthsMatched(fx) {
        MatchedGrows(fx.auths, fx.voids, fx.openHolds, fx.capturedAuths, auth.value);
      }
    }
    hide Authorize, Capture, Void;
  }

  lemma PaymentKeeps(o: Oracle, sg: SagaRow, fx: Effects)
    requires Shape(sg) && sg.state == PolicyChecked && OnTrack(sg, fx)
    ensures AttemptKeeps(sg, fx, Execute(o, fx, sg.payload, Payment), Payment)
  {
    hide Shape, Execute, Matched, Balanced;
    KeptByRank(sg);
    PaymentEffects(o, fx, sg.payload);
    var ex := Execute(o, fx, sg.payload, Payment);
    if ex.outcome.Success? {
      KeptNext(sg, Payment, ex.outcome.state, ex.outcome.merge);
      hide NextSaga, Kept;
    }
  }

  lemma BroadcastEffects(o: Oracle, fx: Effects, payload: Payload)
    requires TextOf(payload, TxHash) == ""
    ensures var ex := Execute(o, fx, payload, Broadcast);
            && ex.fx == fx.(clock := ex.fx.clock, executed := ex.fx.executed, broadcasts := ex.fx.broadcasts,
                            heard := ex.fx.heard)
            && (match ex.outcome
                case Success(state, merge) =>
                  && state == Broadcasted && TxHash in merge && merge.Keys !! {CaptureId, AuthId, LedgerJournalId}
                  && ex.fx.broadcasts == fx.broadcasts + [TextOf(merge, TxHash)]
                case Parked(_, _) => false
                case Error(_) => ex.fx.broadcasts == fx.broadcasts)
  {
  }

  lemma LedgerEffects(o: Oracle, fx: Effects, payload: Payload)
    requires TextOf(payload, LedgerJournalId) == ""
    ensures var ex := Execute(o, fx, payload, Ledger);
            && ex.fx == fx.(clock := ex.fx.clock, executed := ex.fx.executed,
                            posts := ex.fx.posts, ledgerRefused := ex.fx.ledgerRefused, heard := ex.fx.heard)
            && (match ex.outcome
                case Success(state, merge) =>
                  && state == Ledgered && merge.Keys == {LedgerJournalId} && ex.fx.ledgerRefused == fx.ledgerRefused
                  && ex.fx.posts == fx.posts + [TextOf(merge, LedgerJournalId)]
                case Parked(state, merge) =>
                  && state == Failed && merge.Keys == {LedgerReconcileRequired}
                  && ex.fx.posts == fx.posts && ex.fx.ledgerRefused
                case Error(_) => ex.fx.posts == fx.posts && ex.fx.ledgerRefused == fx.ledgerRefused)
  {
  }

  lemma BroadcastKeeps(o: Oracle, sg: SagaRow, fx: Effects)
    requires Shape(sg) && sg.state == Signed && OnTrack(sg, fx)
    ensures AttemptKeeps(sg, fx, Execute(o, fx, sg.payload, Broadcast), Broadcast)
  {
    hide Shape, Matched, Execute, Balanced;
    KeptByRank(sg);
    BroadcastEffects(o, fx, sg.payload);
    var ex := Execute(o, fx, sg.payload, Broadcast);
    if ex.outcome.Success? {
      KeptNext(sg, Broadcast, ex.outcome.state, ex.outcome.merge);
      hide NextSaga, Kept;
    }
  }

  lemma RefusedBalanced(sg: SagaRow, fx: Effects, merge: Payload)
    requires Shape(sg) && (sg.state == Broadcasted || sg.state == Confirmed)
    requires OnTrack(sg, fx.(ledgerRefused := false)) && fx.ledgerRefused
    ensures Balanced(ParkedSaga(sg, Failed, merge), fx)
  {
    KeptByRank(sg);
    hide Shape, Matched, MergePayload;
  }

  lemma LedgerWaits(o: Oracle, sg: SagaRow, fx: Effects)
    requires Shape(sg) && sg.state == Broadcasted && OnTrack(sg, fx)
    ensures AttemptKeeps(sg, fx, Execute(o, fx, sg.payload, Ledger), Ledger)
  {
    hide Shape, Matched, Execute, Balanced, NextSaga;
    KeptByRank(sg);
    LedgerEffects(o, fx, sg.payload);
    var ex := Execute(o, fx, sg.payload, Ledger);
    if ex.outcome.Parked? {
      RefusedBalanced(sg, ex.fx, ex.outcome.merge);
    }
  }

  lemma LedgerPosts(o: Oracle, sg: SagaRow, fx: Effects)
    requires Shape(sg) && sg.state == Confirmed && OnTrack(sg, fx)
    ensures AttemptKeeps(sg, fx, Execute(o, fx, sg.payload, Ledger), Ledger)
  {
    hide Shape, Matched, Execute, Balanced, MergePayload;
    KeptByRank(sg);
    LedgerEffects(o, fx, sg.payload);
    var ex := Execute(o, fx, sg.payload, Ledger);
    if ex.outcome.Parked? {
      RefusedBalanced(sg, ex.fx, ex.outcome.merge);
    } else if ex.outcome.Success? {
      KeptNext(sg, Ledger, ex.outcome.state, ex.outcome.merge);
      hide NextSaga;
    }
  }

  lemma LedgerKeeps(o: Oracle, sg: SagaRow, fx: Effects)
    requires Shape(sg) && (sg.state == Broadcasted || sg.state == Confirmed) && OnTrack(sg, fx)
    ensures AttemptKeeps(sg, fx, Execute(o, fx, sg.payload, Ledger), Ledger)
  {
    hide AttemptKeeps, Execute, OnTrack, Shape;
    if sg.state == Broadcasted {
      LedgerWaits(o, sg, fx);
    } else {
      LedgerPosts(o, sg, fx);
    }
  }

  /** The steps that move no money. */
  lemma OtherEffects(o: Oracle, fx: Effects, payload: Payload, step: Step)
    requires step == Policy || step == Kyt || step == MpcSign
    ensures var ex := Execute(o, fx, payload, step);
            && ex.fx == fx.(clock := ex.fx.clock, executed := ex.fx.executed, granted := ex.fx.granted,
               heard := ex.fx.heard)
            && (!ex.outcome.Error? ==>
                  && ex.outcome.merge.Keys !! {CaptureId, AuthId, TxHash, LedgerJournalId}
                  && (ex.outcome.Success? ==> ex.outcome.state == StateForStep(step))
                  && (ex.outcome.Parked? ==> ex.outcome.state == FailedCompensated && step == Policy))
  {
  }

  lemma DeniedBalanced(sg: SagaRow, fx: Effects, merge: Payload)
    requires Shape(sg) && sg.state == Created && OnTrack(sg, fx)
    ensures Balanced(ParkedSaga(sg, FailedCompensated, merge), fx)
  {
    KeptByRank(sg);
    hide Shape, Matched, MergePayload;
  }

  lemma OtherKeeps(o: Oracle, sg: SagaRow, fx: Effects, step: Step)
    requires Shape(sg) && StepFrom(sg.state) == Some(step) && OnTrack(sg, fx)
    requires step == Policy || step == Kyt || step == MpcSign
    ensures AttemptKeeps(sg, fx, Execute(o, fx, sg.payload, step), step)
  {
    hide Shape, Matched, Execute, Balanced;
    OtherEffects(o, fx, sg.payload, step);
    var ex := Execute(o, fx, sg.payload, step);
    assert OnTrack(sg, ex.fx);
    if ex.outcome.Parked? {
      DeniedBalanced(sg, ex.fx, ex.outcome.merge);
    } else if ex.outcome.Success? {
      KeptNext(sg, step, ex.outcome.state, ex.outcome.merge);
      hide NextSaga, Kept;
    }
  }

  lemma SuccessBalanced(o: Oracle, sg: SagaRow, fx: Effects, step: Step)
    requires Shape(sg) && StepFrom(sg.state) == Some(step) && OnTrack(sg, fx)
    ensures AttemptKeeps(sg, fx, Execute(o, fx, sg.payload, step), step)
  {
    hide AttemptKeeps, Execute, OnTrack, Shape;
    match step
    case Payment => PaymentKeeps(o, sg, fx);
    case Broadcast => BroadcastKeeps(o, sg, fx);
    case Ledger => LedgerKeeps(o, sg, fx);
    case _ => OtherKeeps(o, sg, fx, step);
  }

  lemma ShapeOf(tx: TxId, t: Tables)
    requires Core(tx, t)
    ensures Shape(t.saga)
  {
  }

  lemma {:induction false} RetryBalanced(env: Env, w: World, step: Step, attempt: nat)
    requires Core(env.tx, w.tables) && StepFrom(w.tables.saga.state) == Some(step)
    requires w.tables.saga.step == step && NothingDone(w.tables, attempt)
    requires OnTrack(w.tables.saga, w.fx)
    ensures var r := RunStepWithRetry(env, w, Snapshot(w.tables.txn, w.tables.saga), step, attempt);
            && (if r.ok then Balanced(r.world.tables.saga, r.world.fx) else OnTrack(w.tables.saga, r.world.fx))
            && (step != Ledger ==> r.world.fx.posts == w.fx.posts)
    decreases env.maxRetries - attempt
  {
    if attempt <= env.maxRetries {
      var sg := w.tables.saga;
      AttemptMoves(env, w, step, attempt);
      ShapeOf(env.tx, w.tables);
      SuccessBalanced(env.o, sg, w.fx, step);
      hide Core, Committed, Execute, RunStepOnce, NothingDone, Balanced, NextSaga;
      var a := RunStepOnce(env, w, Snapshot(w.tables.txn, sg), step, attempt);
      if a.err == Retriable && !env.o.givesUp(a.world.fx.clock) {
        RetryBalanced(env, a.world.(fx := a.world.fx.Tick()), step, attempt + 1);
      }
    }
  }

  lemma NotPosted(tx: TxId, t: Tables, fx: Effects)
    requires Core(tx, t) && !t.saga.state.Terminal() && OnTrack(t.saga, fx)
    requires t.saga.state == Broadcasted ==> fx.posts == []
    ensures fx.posts == []
  {
  }

  /** Undoing the payment of a saga on track gives the captured money back or says it could not. */
  lemma UndoneBalanced(o: Oracle, sg: SagaRow, fx: Effects, paid: bool, calls: seq<Step>)
    requires OnTrack(sg, fx) && |fx.captures| == |fx.capturedAuths| <= 1
    requires !paid ==> fx.captures == []
    ensures var u := CompensatePayment(o, fx, sg.payload);
            var fx' := (if paid then u.fx else fx).(compensated := calls);
            var ok := !paid || u.ok;
            Balanced(CascadedSaga(sg, CascadeTarget(ok)), fx')
  {
    if fx.captures == [] {
      assert CaptureId !in sg.payload && AuthId !in sg.payload;
    } else {
      assert fx.captures == [TextOf(sg.payload, CaptureId)];
    }
  }

  lemma OnTrackCounts(sg: SagaRow, fx: Effects)
    requires Shape(sg) && !sg.state.IsFailure() && OnTrack(sg, fx)
    ensures |fx.captures| == |fx.capturedAuths| <= 1
    ensures sg.state == Created ==> fx.captures == []
  {
    KeptByRank(sg);
  }

  /** A cascade over a saga on track refunds its capture, or says that it could not. */
  lemma CascadeBalanced(env: Env, w: World, step: Step)
    requires Core(env.tx, w.tables) && StepFrom(w.tables.saga.state) == Some(step)
    requires OnTrack(w.tables.saga, w.fx)
    ensures var r := CompensateCascade(env, w, step);
            Balanced(r.world.tables.saga, r.world.fx)
  {
    hide Core, Committed, CompensateFrom, CompensatePayment, Balanced, CommitCascade, Shape, OnTrack;
    ShapeOf(env.tx, w.tables);
    var sg := w.tables.saga;
    OnTrackCounts(sg, w.fx);
    CascadeMoves(env, w, step);
    CascadeCallsMade(env, w, sg, Position(step));
    UndoneBalanced(env.o, sg, w.fx, step != Policy, CompensateCascade(env, w, step).world.fx.compensated);
  }

  lemma AdvanceBalanced(env: Env, w: World)
    requires Ready(env.tx, w.tables) && w.tables.saga.state == Broadcasted
    requires OnTrack(w.tables.saga, w.fx) && w.fx.posts == []
    ensures var w' := AdvanceToConfirmed(env, w);
            !w'.tables.saga.state.IsFailure() && OnTrack(w'.tables.saga, w'.fx) && w'.fx.posts == []
  {
    ShapeOf(env.tx, w.tables);
    KeptByRank(w.tables.saga);
    AdvanceMoves(env, w);
    hide AdvanceToConfirmed, Core, NothingDone, Committed;
  }

  lemma RoundBalanced(env: Env, w: World)
    requires Ready(env.tx, w.tables) && !w.tables.saga.state.Terminal()
    requires OnTrack(w.tables.saga, w.fx) && (w.tables.saga.state == Broadcasted ==> w.fx.posts == [])
    ensures var p := Round(env, w);
            && Balanced(p.world.tables.saga, p.world.fx)
            && (p.verdict == Running && p.world.tables.saga.state == Broadcasted ==> p.world.fx.posts == [])
  {
    hide Core, Committed, NothingDone, RunStepWithRetry, CompensateCascade, AdvanceToConfirmed;
    StepOfReady(env.tx, w.tables);
    var step := w.tables.saga.step;
    RetryBalanced(env, w, step, 1);
    RetryMoves(env, w, step, 1);
    var r := RunStepWithRetry(env, w, Snapshot(w.tables.txn, w.tables.saga), step, 1);
    if !r.ok {
      CascadeBalanced(env, r.world, step);
    } else if r.world.tables.saga.state == Broadcasted {
      NotPosted(env.tx, w.tables, w.fx);
      AdvanceBalanced(env, r.world);
    }
  }

  /** Whole runs: the accounts balance in whatever state the run stops. */
  lemma {:induction false} RunBalanced(env: Env, w: World, n: nat)
    requires Ready(env.tx, w.tables) && !w.tables.saga.state.Terminal()
    requires OnTrack(w.tables.saga, w.fx) && (w.tables.saga.state == Broadcasted ==> w.fx.posts == [])
    ensures var p := Run(env, w, n);
            Balanced(p.world.tables.saga, p.world.fx)
    decreases n
  {
    hide Core, Round, NothingDone, OnTrack;
    if n > 0 {
      RoundBalanced(env, w);
      RoundMoves(env, w);
      var p := Round(env, w);
      if p.verdict == Running {
        RunBalanced(env, p.world, n - 1);
      }
    }
  }

  lemma CompletedOnTrack(sg: SagaRow, fx: Effects)
    requires sg.state == Completed && OnTrack(sg, fx)
    ensures fx.captures == Kept(sg.payload, CaptureId) && fx.broadcasts == Kept(sg.payload, TxHash)
    ensures fx.posts == Kept(sg.payload, LedgerJournalId) && fx.refunds == []
    ensures AuthsMatched(fx) && !fx.ledgerRefused && !fx.compensationFailed
  {
  }

  lemma CreatedOnTrack(tx: TxId, w: World)
    requires Core(tx, w.tables) && w.tables.saga.state == Created && w.fx == NO_EFFECTS
    ensures OnTrack(w.tables.saga, w.fx) && w.tables.saga.step == Policy
  {
    KeptByRank(w.tables.saga);
  }

  lemma BalancedCloses(sg: SagaRow, fx: Effects)
    requires Balanced(sg, fx)
    ensures AuthsClosed(fx) <==> fx.openHolds == []
  {
    hide Matched, AuthsClosed;
    ClosedIff(fx);
  }

  /** A new purchase run to its end without a crash. COMPLETED: one capture, nothing refunded, one
      broadcast, one ledger post. FAILED_COMPENSATED: the captures and the refunds are the same
      list, exactly unless the capture came back with an empty id. FAILED: exactly when the ledger
      refused the entry or the compensation failed. Every authorization was voided or captured. */
  lemma PurchaseConserved(env: Env, w: World, n: nat)
    requires Ready(env.tx, w.tables) && w.tables.saga.state == Created && w.fx == NO_EFFECTS
    requires n >= |STEP_ORDER|
    ensures var p := Run(env, w, n);
            var sg, fx := p.world.tables.saga, p.world.fx;
            && sg.state.Terminal()
            && (sg.state == Completed ==>
                  |fx.captures| == 1 && fx.refunds == [] && |fx.broadcasts| == 1 && |fx.posts| == 1)
            && (sg.state == FailedCompensated ==> (fx.refunds == fx.captures <==> fx.captures != [""]))
            && (sg.state == Failed <==> fx.ledgerRefused || fx.compensationFailed)
            && (AuthsClosed(fx) <==> fx.openHolds == [])
  {
    hide Run, Core, NothingDone, Shape, OnTrack;
    CreatedOnTrack(env.tx, w);
    RunHalts(env, w, n);
    RunBalanced(env, w, n);
    var p := Run(env, w, n);
    BalancedCloses(p.world.tables.saga, p.world.fx);
    if p.world.tables.saga.state == Completed {
      ShapeOf(env.tx, p.world.tables);
      KeptByRank(p.world.tables.saga);
      CompletedOnTrack(p.world.tables.saga, p.world.fx);
    }
  }

  lemma NotRefused(sg: SagaRow, fx: Effects)
    requires OnTrack(sg, fx)
    ensures !fx.ledgerRefused && !fx.compensationFailed
  {
  }

  /** The manual compensation of a saga in any resting state conserves funds in the same way. */
  lemma ManualCompensationConserved(env: Env, w: World)
    requires Ready(env.tx, w.tables) && !w.tables.saga.state.Terminal() && OnTrack(w.tables.saga, w.fx)
    ensures var r := CompensateCascade(env, w, w.tables.saga.step);
            var fx := r.world.fx;
            && r.world.tables.saga.state == CascadeTarget(r.ok)
            && (r.ok ==> (fx.refunds == fx.captures <==> fx.captures != [""]))
            && (!r.ok ==> fx.refunds == [] && fx.compensationFailed)
  {
    hide Core, Committed, NothingDone, CompensateFrom, CommitCascade, CascadeCalls, OnTrack;
    StepOfReady(env.tx, w.tables);
    var step := w.tables.saga.step;
    CascadeMoves(env, w, step);
    CascadeBalanced(env, w, step);
    CascadeCallsMade(env, w, w.tables.saga, Position(step));
    NotRefused(w.tables.saga, w.fx);
    hide Descending;
  }
}
