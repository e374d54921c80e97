/** The six saga steps: what Execute and Compensate ask of the partners and return. */
module Steps {
  import opened StateMachine
  import opened Store
  import opened Partners

  /** How Execute ends: a new state and payload entries, the same with an error that parks the
      saga, or an error that is retried unless marked otherwise. */
  datatype StepOutcome =
    | Success(state: State, merge: Payload)
    | Parked(state: State, merge: Payload)
    | Error(nonRetriable: bool)

  datatype Executed = Executed(fx: Effects, outcome: StepOutcome)

  function PolicyOutcome(r: Reply<PolicyAnswer>): StepOutcome {
    match r
    case Transient => Error(false)
    case Hard => Error(true)
    case Ok(a) =>
      var merge: Payload := map[PolicyReason := Text(a.reason)];
      if a.deny then Parked(FailedCompensated, merge) else Success(PolicyChecked, merge)
  }

  function KytOutcome(r: Reply<KytAnswer>): StepOutcome {
    match r
    case Transient => Error(false)
    case Hard => Error(true)
    case Ok(a) =>
      if a.decision.KytClear? then Success(KytScreened, map[KytReason := Text(a.reason)]) else Error(true)
  }

  function SignOutcome(r: Reply<string>): StepOutcome {
    match r
    case Transient => Error(false)
    case Hard => Error(true)
    case Ok(hex) => Success(Signed, map[SignedTxHex := Text(hex)])
  }

  function BroadcastOutcome(r: Reply<BroadcastAnswer>): StepOutcome {
    match r
    case Transient => Error(false)
    case Hard => Error(true)
    case Ok(a) =>
      var merge: Payload := map[TxHash := Text(a.hash)];
      var merge := if a.inMempool then merge[InMempool := Flag(true)] else merge;
      var merge := if a.confirmed then merge[AlreadyConfirmed := Flag(true)] else merge;
      Success(Broadcasted, merge)
  }

  function LedgerOutcome(r: Reply<string>): StepOutcome {
    match r
    case Transient => Error(false)
    case Hard => Parked(Failed, map[LedgerReconcileRequired := Flag(true)])
    case Ok(id) => Success(Ledgered, map[LedgerJournalId := Text(id)])
  }

  /** Authorize, then capture; a failed capture voids the authorization at once. */
  function ExecutePayment(o: Oracle, fx: Effects): Executed {
    var auth := o.authorize(fx.clock);
    var fx1 := Authorize(fx, auth);
    match auth
    case Transient => Executed(fx1, Error(false))
    case Hard => Executed(fx1, Error(true))
    case Ok(authId) =>
      var cap := o.capture(fx1.clock);
      var fx2 := Capture(fx1, authId, cap);
      match cap
      case Ok(captureId) =>
        Executed(fx2, Success(PaymentCaptured, map[AuthId := Text(authId), CaptureId := Text(captureId)]))
      case Transient => Executed(Void(fx2, authId, o.voidFails(fx2.clock)), Error(false))
      case Hard => Executed(Void(fx2, authId, o.voidFails(fx2.clock)), Error(true))
  }

  /** Skips the call when a hash is already recorded; needs a signed transaction otherwise. */
  function ExecuteBroadcast(o: Oracle, fx: Effects, payload: Payload): Executed {
    if TextOf(payload, TxHash) != "" then
      Executed(fx, Success(Broadcasted, map[TxHash := Text(TextOf(payload, TxHash))]))
    else if TextOf(payload, SignedTxHex) == "" then Executed(fx, Error(true))
    else
      var r := o.broadcast(fx.clock);
      Executed(BroadcastTx(fx, TextOf(payload, SignedTxHex), r), BroadcastOutcome(r))
  }

  function ExecuteLedger(o: Oracle, fx: Effects, payload: Payload): Executed {
    if TextOf(payload, LedgerJournalId) != "" then
      Executed(fx, Success(Ledgered, map[LedgerJournalId := Text(TextOf(payload, LedgerJournalId))]))
    else
      var r := o.post(fx.clock);
      Executed(Post(fx, r), LedgerOutcome(r))
  }

  function Execute(o: Oracle, fx: Effects, payload: Payload, step: Step): Executed {
    var fx := fx.(executed := fx.executed + [step]);
    match step
    case Policy => Executed(Evaluate(fx, o.evaluate(fx.clock)), PolicyOutcome(o.evaluate(fx.clock)))
    case Payment => ExecutePayment(o, fx)
    case Kyt => Executed(Screen(fx, o.screen(fx.clock)), KytOutcome(o.screen(fx.clock)))
    case MpcSign => Executed(Sign(fx, o.sign(fx.clock)), SignOutcome(o.sign(fx.clock)))
    case Broadcast => ExecuteBroadcast(o, fx, payload)
    case Ledger => ExecuteLedger(o, fx, payload)
  }

  /** The outcome of Compensate: what it did and whether it returned no error. */
  datatype Undone = Undone(fx: Effects, ok: bool)

  /** Refunds a recorded capture, or else voids a recorded authorization. */
  function CompensatePayment(o: Oracle, fx: Effects, payload: Payload): Undone {
    var captureId, authId := TextOf(payload, CaptureId), TextOf(payload, AuthId);
    if captureId != "" then
      var fails := o.refundFails(fx.clock);
      Undone(Refund(fx, captureId, fails).(compensationFailed := fx.compensationFailed || fails), !fails)
    else if authId != "" then
      var fails := o.voidFails(fx.clock);
      Undone(VoidRecorded(fx, authId, fails).(compensationFailed := fx.compensationFailed || fails), !fails)
    else Undone(fx, true)
  }

  /** Only the payment step has anything to undo. */
  function Compensate(o: Oracle, fx: Effects, payload: Payload, step: Step): Undone {
    var fx := fx.(compensated := fx.compensated + [step]);
    if step.Payment? then CompensatePayment(o, fx, payload) else Undone(fx, true)
  }
}
