/** The order the partners are bound to: money is not taken before policy allowed it, nothing is
    broadcast before the payment was captured, the screening was clear and the signer signed, and
    nothing completes before the chain confirmed it and the ledger took it. */
module Gates {
  import opened Options
  import opened StateMachine
  import opened Dedup
  import opened Store
  import opened Partners
  import opened Steps
  import opened Commits
  import opened ExecutorSpec
  import opened Invariants
  import opened RunTheorems
  import opened CrashMachine
  import opened CrashTheorems
  import opened Simulation

  /** What must have come back from the partners before a saga gets past a state of the rank: the
      answers and successful calls of this very run, as they were received. */
  predicate GatesTo(fx: Effects, rank: nat) {
    && (rank >= Rank(PolicyChecked) ==> PolicyAllowed in fx.granted)
    && (rank >= Rank(PaymentCaptured) ==> fx.captures != [])
    && (rank >= Rank(KytScreened) ==> ScreeningClear in fx.granted)
    && (rank >= Rank(Signed) ==> TransactionSigned in fx.granted)
    && (rank >= Rank(Broadcasted) ==> fx.broadcasts != [])
    && (rank >= Rank(Confirmed) ==> ChainConfirmed in fx.granted)
    && (rank >= Rank(Completed) ==> fx.posts != [])
  }

  predicate FxGated(fx: Effects) {
    && (fx.auths != [] || fx.captures != [] ==> GatesTo(fx, Rank(PolicyChecked)))
    && (fx.broadcasts != [] ==> GatesTo(fx, Rank(Signed)))
    && (fx.posts != [] ==> GatesTo(fx, Rank(Broadcasted)))
  }

  predicate SagaGated(fx: Effects, sg: SagaRow) {
    !sg.state.IsFailure() ==> GatesTo(fx, Rank(sg.state))
  }

  /** What the success of a step has brought back. */
  predicate Brought(fx: Effects, step: Step) {
    match step
    case Policy => PolicyAllowed in fx.granted
    case Payment => fx.captures != []
    case Kyt => ScreeningClear in fx.granted
    case MpcSign => TransactionSigned in fx.granted
    case Broadcast => fx.broadcasts != []
    case Ledger => fx.posts != []
  }

  predicate PcGated(fx: Effects, pc: Pc) {
    match pc
    case AtCommit(step, _, _, Success(_, _)) => Brought(fx, step)
    case AtConfirm(_, _) => ChainConfirmed in fx.granted
    case _ => true
  }

  predicate Gated(pc: Pc, w: World) {
    FxGated(w.fx) && SagaGated(w.fx, w.tables.saga) && PcGated(w.fx, pc)
  }

  /** Nothing received is forgotten. */
  predicate Remembers(fx: Effects, fx': Effects) {
    && fx.granted <= fx'.granted
    && (fx.captures != [] ==> fx'.captures != [])
    && (fx.broadcasts != [] ==> fx'.broadcasts != [])
    && (fx.posts != [] ==> fx'.posts != [])
  }

  /** A call outside the payment step: what it may add, and that its success brings back the very
      answer the step is for. */
  lemma CallBrings(o: Oracle, fx: Effects, payload: Payload, step: Step)
    requires step != Payment
    requires step == Broadcast ==> TextOf(payload, TxHash) == ""
    requires step == Ledger ==> TextOf(payload, LedgerJournalId) == ""
    ensures var ex := Execute(o, fx, payload, step);
            && Remembers(fx, ex.fx) && ex.fx.auths == fx.auths && ex.fx.captures == fx.captures
            && (step != Broadcast ==> ex.fx.broadcasts == fx.broadcasts)
            && (step != Ledger ==> ex.fx.posts == fx.posts)
            && (ex.outcome.Success? ==> Brought(ex.fx, step))
  {
  }

  /** What is newly called is called by a saga that is past the gates of that call. */
  lemma StillGated(fx: Effects, fx': Effects, sg: SagaRow, rank: nat)
    requires FxGated(fx) && SagaGated(fx, sg) && Remembers(fx, fx') && GatesTo(fx, rank)
    requires (fx'.auths == fx.auths && fx'.captures == fx.captures) || rank >= Rank(PolicyChecked)
    requires fx'.broadcasts == fx.broadcasts || rank >= Rank(Signed)
    requires fx'.posts == fx.posts || rank >= Rank(Broadcasted)
    ensures FxGated(fx') && SagaGated(fx', sg)
  {
  }

  lemma PastGates(tx: TxId, t: Tables, fx: Effects)
    requires Core(tx, t) && !t.saga.state.Terminal() && SagaGated(fx, t.saga)
    ensures GatesTo(fx, Position(t.saga.step))
  {
    AtWork(tx, t);
    hide Core;
  }

  lemma CallGated(env: Env, pc: Pc, w: World, lost: Tally)
    requires pc.AtCall? && SoundAt(env, pc, w, lost) && Gated(pc, w)
    ensures var n := GoNext(env, pc, w); Gated(n.pc, n.world)
  {
    hide Core, NothingDone, Counted, Execute, GatesTo, FxGated, SagaGated;
    AtWork(env.tx, w.tables);
    PastGates(env.tx, w.tables, w.fx);
    if pc.step != Payment {
      CallBrings(env.o, w.fx, w.tables.saga.payload, pc.step);
    }
    var n := GoNext(env, pc, w);
    StillGated(w.fx, n.world.fx, w.tables.saga, Position(pc.step));
  }

  lemma CaptureGated(env: Env, pc: Pc, w: World, lost: Tally)
    requires (pc.AtCapture? || pc.AtVoid?) && SoundAt(env, pc, w, lost) && Gated(pc, w)
    ensures var n := GoNext(env, pc, w); Gated(n.pc, n.world)
  {
    hide Core, NothingDone, Counted, GatesTo, FxGated, SagaGated;
    PastGates(env.tx, w.tables, w.fx);
    var n := GoNext(env, pc, w);
    StillGated(w.fx, n.world.fx, w.tables.saga, Position(Payment));
  }

  lemma NoGate(fx: Effects)
    ensures GatesTo(fx, 0)
  {
  }

  lemma WaitGated(env: Env, pc: Pc, w: World)
    requires (pc.AtWait? || pc.AtPoll?) && Gated(pc, w)
    ensures var n := GoNext(env, pc, w); Gated(n.pc, n.world)
  {
    hide GatesTo, FxGated, SagaGated;
    NoGate(w.fx);
    var n := GoNext(env, pc, w);
    StillGated(w.fx, n.world.fx, w.tables.saga, 0);
  }

  lemma NextGated(fx: Effects, sg: SagaRow, step: Step)
    requires SagaGated(fx, sg) && StepFrom(sg.state) == Some(step) && sg.state != Broadcasted && Brought(fx, step)
    ensures GatesTo(fx, if step == Ledger then 8 else Position(step) + 1)
  {
  }

  lemma ConfirmGated(fx: Effects, sg: SagaRow)
    requires SagaGated(fx, sg) && sg.state == Broadcasted && ChainConfirmed in fx.granted
    ensures GatesTo(fx, Rank(Confirmed))
  {
  }

  lemma NextRank(sg: SagaRow, step: Step, merge: Payload)
    requires StepFrom(sg.state) == Some(step) && sg.state != Broadcasted
    ensures var next := NextSaga(sg, step, StateForStep(step), merge).state;
            && !next.IsFailure()
            && Rank(next) == (if step == Ledger then 8 else Position(step) + 1)
            && Rank(sg.state) == (if step == Ledger then 6 else Position(step))
  {
  }

  lemma CommitGated(env: Env, pc: Pc, w: World, lost: Tally)
    requires (pc.AtCommit? || pc.AtConfirm?) && SoundAt(env, pc, w, lost) && Gated(pc, w)
    ensures var n := GoNext(env, pc, w); Gated(n.pc, n.world)
  {
    hide Core, NothingDone, Counted, Committed, FxGated, GatesTo, Brought, CommitSuccess, CommitParked,
         CommitConfirmed, Fits, NextSaga;
    var t, sg, id := w.tables, w.tables.saga, FreshId(env, w.tables);
    StepOfState(env.tx, t);
    if pc.AtConfirm? {
      CommitConfirmedExact(env.rollback, env.tx, t, id);
      ConfirmGated(w.fx, sg);
    } else if pc.outcome.Success? {
      CommitSuccessExact(env.rollback, env.tx, t, pc.step, pc.attempt, pc.outcome.merge, id);
      if sg.state != Broadcasted {
        NextRank(sg, pc.step, pc.outcome.merge);
        NextGated(w.fx, sg, pc.step);
      }
    } else if pc.outcome.Parked? {
      CommitParkedExact(env.rollback, env.tx, t, pc.step, pc.attempt, pc.outcome.state, pc.outcome.merge, id);
    }
  }

  lemma UndoOnlyUndoes(o: Oracle, fx: Effects, payload: Payload, step: Step)
    ensures var fx' := Compensate(o, fx, payload, step).fx;
            && fx'.granted == fx.granted && fx'.auths == fx.auths && fx'.captures == fx.captures
            && fx'.broadcasts == fx.broadcasts && fx'.posts == fx.posts
  {
  }

  lemma CascadeGated(env: Env, pc: Pc, w: World, lost: Tally)
    requires (pc.AtCascade? || pc.AtUndo? || pc.AtMark? || pc.AtPark?) && SoundAt(env, pc, w, lost) && Gated(pc, w)
    ensures var n := GoNext(env, pc, w); Gated(n.pc, n.world)
  {
    hide Core, NothingDone, Counted, Committed, CommitCascade, Compensate;
    if pc.AtPark? {
      CommitCascadeExact(env.tx, w.tables, CascadeTarget(pc.ok), FreshId(env, w.tables));
    } else if pc.AtUndo? {
      UndoOnlyUndoes(env.o, w.fx, pc.sg.payload, STEP_ORDER[pc.i]);
    }
  }

  lemma BeginGated(env: Env, pc: Pc, w: World)
    requires (pc.AtBegin? || pc.Idle?) && Gated(pc, w)
    ensures var n := GoNext(env, pc, w); Gated(n.pc, n.world)
  {
    hide GatesTo;
  }

  lemma GoGated(env: Env, pc: Pc, w: World, lost: Tally)
    requires SoundAt(env, pc, w, lost) && Gated(pc, w)
    ensures var n := GoNext(env, pc, w); Gated(n.pc, n.world)
  {
    hide SoundAt, Gated, GoNext;
    match pc
    case Idle => BeginGated(env, pc, w);
    case AtBegin(_, _, _) => BeginGated(env, pc, w);
    case AtCall(_, _, _) => CallGated(env, pc, w, lost);
    case AtCapture(_, _, _) => CaptureGated(env, pc, w, lost);
    case AtVoid(_, _, _, _) => CaptureGated(env, pc, w, lost);
    case AtCommit(_, _, _, _) => CommitGated(env, pc, w, lost);
    case AtConfirm(_, _) => CommitGated(env, pc, w, lost);
    case AtWait(_, _, _) => WaitGated(env, pc, w);
    case AtPoll(_, _) => WaitGated(env, pc, w);
    case AtCascade(_, _, _) => CascadeGated(env, pc, w, lost);
    case AtUndo(_, _, _) => CascadeGated(env, pc, w, lost);
    case AtMark(_, _, _, _) => CascadeGated(env, pc, w, lost);
    case AtPark(_, _, _) => CascadeGated(env, pc, w, lost);
  }

  lemma ActGated(env: Env, m: Machine, a: Action)
    requires Sound(env, m) && Gated(m.pc, m.world)
    ensures var m' := Act(env, m, a); Gated(m'.pc, m'.world)
  {
    hide Core, NothingDone, Fitting, Counted, GoNext, FxGated, SagaGated;
    if a == Go {
      GoGated(env, m.pc, m.world, m.lost);
    }
  }

  lemma {:induction false} ExecGated(env: Env, m: Machine, actions: seq<Action>)
    requires Sound(env, m) && Gated(m.pc, m.world)
    ensures var m' := Exec(env, m, actions); Gated(m'.pc, m'.world)
    decreases |actions|
  {
    hide Sound, Gated, Act;
    if actions != [] {
      ActKeepsSound(env, m, actions[0]);
      ActGated(env, m, actions[0]);
      ExecGated(env, Act(env, m, actions[0]), actions[1..]);
    }
  }

  /** Whatever is started and wherever it crashes: by the time an authorization or a capture went
      through policy has allowed the purchase; by the time a broadcast did, the capture, a clear
      screening and a signature came before; by the time an entry was posted the broadcast came
      before; and a COMPLETED purchase has been through all of these, a confirmation and a post. */
  lemma NothingBeforeItsGates(env: Env, m: Machine, actions: seq<Action>)
    requires Fresh(env, m) && Ready(env.tx, m.world.tables)
    ensures var w := Exec(env, m, actions).world;
            && FxGated(w.fx)
            && (w.tables.saga.state == Completed ==> GatesTo(w.fx, Rank(Completed)))
  {
    FreshIsSound(env, m);
    assert Gated(m.pc, m.world);
    hide Sound, FxGated, PcGated, Exec;
    ExecGated(env, m, actions);
  }

  /** The same of a whole run of the executor on a new purchase. */
  lemma RunKeepsGates(env: Env, w: World, n: nat)
    requires Ready(env.tx, w.tables) && w.tables.saga.state == Created && w.fx == NO_EFFECTS && n >= |STEP_ORDER|
    ensures var w' := Run(env, w, n).world;
            && FxGated(w'.fx)
            && (w'.tables.saga.state == Completed ==> GatesTo(w'.fx, Rank(Completed)))
  {
    hide Ready, Run, FxGated, GatesTo, Exec;
    var m := Machine(Idle, w, [w.tables.saga], 0, Tally(0, 0, 0));
    RunHalts(env, w, n);
    RunIsMachineRun(env, m, n);
    var k: nat :| var m' := Exec(env, m, [StartRun] + Goes(k));
                  m'.pc == Idle && m'.world == Run(env, m.world, n).world;
    NothingBeforeItsGates(env, m, [StartRun] + Goes(k));
  }
}
