/** What is broadcast is what was signed: over any number of flights, whatever overlaps and crashes. */
module Sends {
  import opened Options
  import opened StateMachine
  import opened Store
  import opened Partners
  import opened Steps
  import opened Commits
  import opened ExecutorSpec
  import opened Invariants
  import opened Flights
  import M = CrashMachine
  import R = Races

  /** The signed transaction once recorded stays as it is. */
  predicate KeepsHex(a: SagaRow, b: SagaRow) {
    SignedTxHex in a.payload ==> SignedTxHex in b.payload && b.payload[SignedTxHex] == a.payload[SignedTxHex]
  }

  predicate HexChained(history: seq<SagaRow>) {
    forall i :: 0 < i < |history| ==> KeepsHex(history[i - 1], history[i])
  }

  /** A signature awaiting its commit is one the signer gave. */
  predicate HoldsSigned(fx: Effects, pc: M.Pc) {
    M.AboutToRecord(pc, MpcSign) ==> TextOf(pc.outcome.merge, SignedTxHex) in fx.heard.signatures
  }

  predicate SentSigned(sg: SagaRow, fx: Effects) {
    && (SignedTxHex in sg.payload ==> TextOf(sg.payload, SignedTxHex) in fx.heard.signatures)
    && forall hex :: hex in fx.heard.sent ==> hex == TextOf(sg.payload, SignedTxHex) && hex != ""
  }

  ghost predicate Honest(s: Sky) {
    && HexChained(s.history)
    && (forall f :: f in s.flights ==> HoldsSigned(s.world.fx, s.flights[f].pc))
    && SentSigned(s.world.tables.saga, s.world.fx)
  }

  lemma {:induction false} HexTo(history: seq<SagaRow>, i: nat, j: nat)
    requires HexChained(history) && i <= j < |history|
    ensures KeepsHex(history[i], history[j])
    decreases j
  {
    if i < j {
      HexTo(history, i, j - 1);
    }
  }

  lemma HeldHex(s: Sky, sg: SagaRow)
    requires Aloft(s) && HexChained(s.history) && From(s.history, sg)
    ensures KeepsHex(sg, s.world.tables.saga)
  {
    hide Chained, FlightFits, Accounted, RefundsOwn, KeepsHex;
    var i :| 0 <= i < |s.history| && s.history[i] == sg;
    HexTo(s.history, i, |s.history| - 1);
  }

  lemma UnsignedYet(sg: SagaRow)
    requires Shape(sg) && StepFrom(sg.state) == Some(MpcSign)
    ensures SignedTxHex !in sg.payload
  {
    assert KeyRank(SignedTxHex).value == 4;
  }

  lemma FitsHex(step: Step, merge: Payload)
    requires Fits(step, merge)
    ensures SignedTxHex in merge <==> step == MpcSign
  {
    assert KeyRank(SignedTxHex).value == 4;
  }

  /** A commit keeps the recorded signature, and records none but the one the flight holds. */
  lemma ProducedHex(env: Env, pc: M.Pc, w: World)
    requires PcFits(pc) && MoveOf(env, pc, w).Some? && Shape(Holds(pc).value)
    ensures var sg, next := Holds(pc).value, R.Produced(MoveOf(env, pc, w).value, Holds(pc).value);
            && KeepsHex(sg, next)
            && (SignedTxHex in next.payload && SignedTxHex !in sg.payload ==>
                  M.AboutToRecord(pc, MpcSign)
                  && TextOf(next.payload, SignedTxHex) == TextOf(pc.outcome.merge, SignedTxHex))
  {
    hide Shape, Fits, FreshId, CascadeTarget;
    match pc
    case AtCommit(step, _, snap, Success(_, merge)) =>
      FitsHex(step, merge);
      if step == MpcSign {
        UnsignedYet(snap.saga);
      }
    case AtCommit(_, _, _, Parked(_, merge)) =>
    case _ =>
  }

  lemma ExecuteSends(o: Oracle, fx: Effects, payload: Payload, step: Step)
    requires step != Payment
    ensures var ex, hex := Execute(o, fx, payload, step), TextOf(payload, SignedTxHex);
            && fx.heard.signatures <= ex.fx.heard.signatures
            && (step == MpcSign && ex.outcome.Success? ==>
                  TextOf(ex.outcome.merge, SignedTxHex) in ex.fx.heard.signatures)
            && (ex.fx.heard.sent == fx.heard.sent
                || (step == Broadcast && hex != "" && ex.fx.heard.sent == fx.heard.sent + [hex]))
  {
  }

  lemma CompensateSends(o: Oracle, fx: Effects, payload: Payload, step: Step)
    ensures Compensate(o, fx, payload, step).fx.heard == fx.heard
  {
  }

  lemma GoSends(env: Env, pc: M.Pc, w: World)
    ensures var n := M.GoNext(env, pc, w);
            && w.fx.heard.signatures <= n.world.fx.heard.signatures
            && HoldsSigned(n.world.fx, n.pc)
            && (n.world.fx.heard.sent == w.fx.heard.sent
                || (pc.AtCall? && TextOf(pc.snap.saga.payload, SignedTxHex) != ""
                    && n.world.fx.heard.sent == w.fx.heard.sent + [TextOf(pc.snap.saga.payload, SignedTxHex)]))
  {
    hide CommitSuccess, CommitParked, CommitConfirmed, CommitCascade, BeginAttempt, UpdateStep;
    match pc
    case AtCall(step, _, snap) =>
      if step != Payment {
        ExecuteSends(env.o, w.fx, snap.saga.payload, step);
        hide Execute;
      }
    case AtUndo(sg, _, i) =>
      if i < |STEP_ORDER| {
        CompensateSends(env.o, w.fx, sg.payload, STEP_ORDER[i]);
        hide Compensate;
      }
    case _ =>
  }

  lemma HexAppended(history: seq<SagaRow>, sg: SagaRow, next: SagaRow)
    requires |history| > 0 && history[|history| - 1] == sg && HexChained(history) && KeepsHex(sg, next)
    ensures HexChained(M.Extended(history, sg, next))
  {
    hide KeepsHex;
  }

  lemma SentKept(sg: SagaRow, fx: Effects, sg': SagaRow, fx': Effects)
    requires SentSigned(sg, fx) && KeepsHex(sg, sg') && fx.heard.signatures <= fx'.heard.signatures
    requires SignedTxHex in sg'.payload && SignedTxHex !in sg.payload
             ==> TextOf(sg'.payload, SignedTxHex) in fx.heard.signatures
    requires fx'.heard.sent == fx.heard.sent
             || (TextOf(sg.payload, SignedTxHex) != ""
                 && fx'.heard.sent == fx.heard.sent + [TextOf(sg.payload, SignedTxHex)])
    ensures SentSigned(sg', fx')
  {
  }

  lemma GoHonest(env: Env, s: Sky, f: nat)
    requires Aloft(s) && Honest(s) && f in s.flights
    ensures Honest(Gone(env, s, f))
  {
    hide Aloft, FlightFits, Shape, PcFits, From, Chained, M.GoNext, R.Produced, HexChained, M.Extended, KeepsIds, Add,
         MoveOf;
    var pc, s' := s.flights[f].pc, Gone(env, s, f);
    FlightOfAloft(s, f);
    if Holds(pc).Some? {
      HeldHex(s, Holds(pc).value);
    }
    GoSends(env, pc, s.world);
    GoSaves(env, pc, s.world);
    var sg, sg' := s.world.tables.saga, s'.world.tables.saga;
    if sg' != sg {
      ProducedHex(env, pc, s.world);
    }
    HexAppended(s.history, sg, sg');
    SentKept(sg, s.world.fx, sg', s'.world.fx);
    hide SentSigned, KeepsHex;
    forall g | g in s'.flights ensures HoldsSigned(s'.world.fx, s'.flights[g].pc) {
      if g != f {
        assert HoldsSigned(s.world.fx, s.flights[g].pc);
      }
    }
  }

  /** Positions a flight takes up outside an action of its own hold no signature it did not hold. */
  lemma TakenUpHolds(fx: Effects, w: World, step: Step, sg: SagaRow, left: nat)
    ensures HoldsSigned(fx, M.Idle) && HoldsSigned(fx, M.Load(w)) && HoldsSigned(fx, M.StartCascade(w, step))
            && HoldsSigned(fx, M.AtPoll(sg, left))
  {
  }

  lemma TornHolds(fx: Effects, pc: M.Pc, txn: TxRow)
    requires HoldsSigned(fx, pc)
    ensures HoldsSigned(fx, WithTxn(pc, txn))
  {
  }

  lemma TakeUpHolds(env: Env, s: Sky, a: Action)
    requires !a.Go? && forall f :: f in s.flights ==> HoldsSigned(s.world.fx, s.flights[f].pc)
    ensures var s' := Act(env, s, a);
            && s'.world == s.world && s'.history == s.history
            && forall f :: f in s'.flights ==> HoldsSigned(s.world.fx, s'.flights[f].pc)
  {
    var w, fl := s.world, FlightOf(s, a.flight);
    TakenUpHolds(w.fx, w, if fl.pending.Some? then fl.pending.value else Policy, w.tables.saga,
                 env.o.polls(w.fx.clock));
    TakenUpHolds(w.fx, w, w.tables.saga.step, w.tables.saga, 0);
    if a.Tear? && HoldsSigned(w.fx, fl.pc) {
      TornHolds(w.fx, fl.pc, a.txn);
    }
    hide HoldsSigned, M.Load, M.StartCascade, WithTxn, Add, TextOf;
  }

  lemma ActHonest(env: Env, s: Sky, a: Action)
    requires Aloft(s) && Honest(s)
    ensures Honest(Act(env, s, a))
  {
    hide Aloft, SentSigned, HexChained, HoldsSigned, Gone;
    if !a.Go? {
      TakeUpHolds(env, s, a);
      hide Act;
    } else if a.flight in s.flights {
      GoHonest(env, s, a.flight);
    } else {
      IdleGo(env, s, a.flight);
      TakenUpHolds(s.world.fx, s.world, Policy, s.world.tables.saga, 0);
    }
  }

  lemma {:induction false} ExecHonest(env: Env, s: Sky, actions: seq<Action>)
    requires Aloft(s) && Honest(s)
    ensures Honest(Exec(env, s, actions))
    decreases |actions|
  {
    hide Aloft, Honest, Act;
    if actions != [] {
      ActAloft(env, s, actions[0]);
      ActHonest(env, s, actions[0]);
      ExecHonest(env, Act(env, s, actions[0]), actions[1..]);
    }
  }

  /** Every transaction broadcast is the one the saga recorded as signed, which is an answer of the
      signer and not empty. */
  lemma SendsWhatWasSigned(env: Env, s: Sky, actions: seq<Action>)
    requires NewPurchase(s)
    ensures var s' := Exec(env, s, actions);
            var hex, heard := TextOf(s'.world.tables.saga.payload, SignedTxHex), s'.world.fx.heard;
            && (forall x :: x in heard.sent ==> x == hex && x != "" && x in heard.signatures)
            && (SignedTxHex in s'.world.tables.saga.payload ==> hex in heard.signatures)
  {
    NewIsAloft(s);
    assert SignedTxHex !in s.world.tables.saga.payload by { assert KeyRank(SignedTxHex).value == 4; }
    assert Honest(s);
    hide Exec, Shape, HexChained, Aloft;
    ExecHonest(env, s, actions);
    var s' := Exec(env, s, actions);
    assert SignedTxHex !in s'.world.tables.saga.payload ==> TextOf(s'.world.tables.saga.payload, SignedTxHex) == "";
  }
}
