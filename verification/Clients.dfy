/** The partner clients as an object that every call changes, and the steps that call them. */
module PartnerClients {
  import opened StateMachine
  import opened Store
  import opened Partners
  import opened Steps

  class Clients {
    const o: Oracle
    var fx: Effects

    constructor (o: Oracle)
      ensures this.o == o && fx == NO_EFFECTS
    {
      this.o := o;
      fx := NO_EFFECTS;
    }

    method Authorize() returns (r: Reply<string>)
      modifies this
      ensures r == o.authorize(old(fx).clock) && fx == Partners.Authorize(old(fx), r)
    {
      r := o.authorize(fx.clock);
      fx := Partners.Authorize(fx, r);
    }

    method Capture(authId: string) returns (r: Reply<string>)
      modifies this
      ensures r == o.capture(old(fx).clock) && fx == Partners.Capture(old(fx), authId, r)
    {
      r := o.capture(fx.clock);
      fx := Partners.Capture(fx, authId, r);
    }

    method VoidAuthorization(authId: string) returns (fails: bool)
      modifies this
      ensures fails == o.voidFails(old(fx).clock) && fx == Void(old(fx), authId, fails)
    {
      fails := o.voidFails(fx.clock);
      fx := Void(fx, authId, fails);
    }

    method VoidRecorded(authId: string) returns (fails: bool)
      modifies this
      ensures fails == o.voidFails(old(fx).clock) && fx == Partners.VoidRecorded(old(fx), authId, fails)
    {
      fails := o.voidFails(fx.clock);
      fx := Partners.VoidRecorded(fx, authId, fails);
    }

    method Refund(captureId: string) returns (fails: bool)
      modifies this
      ensures fails == o.refundFails(old(fx).clock) && fx == Partners.Refund(old(fx), captureId, fails)
    {
      fails := o.refundFails(fx.clock);
      fx := Partners.Refund(fx, captureId, fails);
    }

    method Broadcast(hex: string) returns (r: Reply<BroadcastAnswer>)
      modifies this
      ensures r == o.broadcast(old(fx).clock) && fx == BroadcastTx(old(fx), hex, r)
    {
      r := o.broadcast(fx.clock);
      fx := BroadcastTx(fx, hex, r);
    }

    method Status() returns (confirmed: bool)
      modifies this
      ensures confirmed == o.confirmed(old(fx).clock) && fx == AskStatus(old(fx), confirmed)
    {
      confirmed := o.confirmed(fx.clock);
      fx := AskStatus(fx, confirmed);
    }

    /** Whether the wait after a failed attempt is cut short. */
    method Wait() returns (cancelled: bool)
      modifies this
      ensures cancelled == o.givesUp(old(fx).clock) && fx == old(fx).Tick()
    {
      cancelled := o.givesUp(fx.clock);
      fx := fx.Tick();
    }

    method NoteExecute(step: Step)
      modifies this
      ensures fx == old(fx).(executed := old(fx).executed + [step])
    {
      fx := fx.(executed := fx.executed + [step]);
    }

    method NoteCompensate(step: Step)
      modifies this
      ensures fx == old(fx).(compensated := old(fx).compensated + [step])
    {
      fx := fx.(compensated := fx.compensated + [step]);
    }

    method ExecutePaymentStep() returns (out: StepOutcome)
      modifies this
      ensures Executed(fx, out) == ExecutePayment(o, old(fx))
    {
      var auth := Authorize();
      if auth.Transient? {
        return Error(false);
      } else if auth.Hard? {
        return Error(true);
      }
      var cap := Capture(auth.value);
      if !cap.Ok? {
        var _ := VoidAuthorization(auth.value);
        return Error(cap.Hard?);
      }
      out := Success(PaymentCaptured, map[AuthId := Text(auth.value), CaptureId := Text(cap.value)]);
    }

    /** Fills the payload entries one by one. */
    method ExecuteBroadcastStep(payload: Payload) returns (out: StepOutcome)
      modifies this
      ensures Executed(fx, out) == ExecuteBroadcast(o, old(fx), payload)
    {
      var existing := TextOf(payload, TxHash);
      if existing != "" {
        return Success(Broadcasted, map[TxHash := Text(existing)]);
      }
      if TextOf(payload, SignedTxHex) == "" {
        return Error(true);
      }
      var r := Broadcast(TextOf(payload, SignedTxHex));
      if !r.Ok? {
        return Error(r.Hard?);
      }
      var merge: Payload := map[TxHash := Text(r.value.hash)];
      if r.value.inMempool {
        merge := merge[InMempool := Flag(true)];
      }
      if r.value.confirmed {
        merge := merge[AlreadyConfirmed := Flag(true)];
      }
      out := Success(Broadcasted, merge);
    }

    method ExecuteLedgerStep(payload: Payload) returns (out: StepOutcome)
      modifies this
      ensures Executed(fx, out) == ExecuteLedger(o, old(fx), payload)
    {
      var journal := TextOf(payload, LedgerJournalId);
      if journal != "" {
        return Success(Ledgered, map[LedgerJournalId := Text(journal)]);
      }
      var r := o.post(fx.clock);
      fx := Post(fx, r);
      out := LedgerOutcome(r);
    }

    method Execute(step: Step, payload: Payload) returns (out: StepOutcome)
      modifies this
      ensures Executed(fx, out) == Steps.Execute(o, old(fx), payload, step)
    {
      NoteExecute(step);
      match step
      case Policy =>
        var r := o.evaluate(fx.clock);
        fx := Evaluate(fx, r);
        out := PolicyOutcome(r);
      case Payment => out := ExecutePaymentStep();
      case Kyt =>
        var r := o.screen(fx.clock);
        fx := Screen(fx, r);
        out := KytOutcome(r);
      case MpcSign =>
        var r := o.sign(fx.clock);
        fx := Sign(fx, r);
        out := SignOutcome(r);
      case Broadcast => out := ExecuteBroadcastStep(payload);
      case Ledger => out := ExecuteLedgerStep(payload);
    }

    method CompensatePaymentStep(payload: Payload) returns (ok: bool)
      modifies this
      ensures Undone(fx, ok) == CompensatePayment(o, old(fx), payload)
    {
      var captureId, authId := TextOf(payload, CaptureId), TextOf(payload, AuthId);
      var fails := false;
      if captureId != "" {
        fails := Refund(captureId);
      } else if authId != "" {
        fails := VoidRecorded(authId);
      }
      fx := fx.(compensationFailed := fx.compensationFailed || fails);
      ok := !fails;
    }

    method Compensate(step: Step, payload: Payload) returns (ok: bool)
      modifies this
      ensures Undone(fx, ok) == Steps.Compensate(o, old(fx), payload, step)
    {
      NoteCompensate(step);
      ok := true;
      if step.Payment? {
        ok := CompensatePaymentStep(payload);
      }
    }
  }
}
