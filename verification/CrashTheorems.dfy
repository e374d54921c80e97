/** What every sequence of starts, actions and crashes keeps. */
module CrashTheorems {
  import opened Options
  import opened StateMachine
  import opened Dedup
  import opened Store
  import opened Partners
  import opened Steps
  import opened Commits
  import opened ExecutorSpec
  import opened Invariants
  import opened RunTheorems
  import opened CrashMachine

  ghost predicate SoundAt(env: Env, pc: Pc, w: World, lost: Tally) {
    && Core(env.tx, w.tables)
    && Fitting(pc, w.tables)
    && Counted(pc, w, lost)
    && NothingAhead(env, w.tables)
  }

  /** Where one action leads: still sound, and by at most one commit. */
  ghost predicate Keeps(env: Env, w: World, lost: Tally, n: Next) {
    SoundAt(env, n.pc, n.world, lost) && OneCommit(env.tx, w.tables, n.world.tables)
  }

  /** Tables that differ in rows only, none of them newly SUCCEEDED. */
  predicate RowsMarked(a: Tables, b: Tables) {
    && SameShared(a, b)
    && forall k :: k in b.rows ==> b.rows[k] != StepSucceeded || (k in a.rows && a.rows[k] == b.rows[k])
  }

  lemma MarkedKeeps(env: Env, a: Tables, b: Tables)
    requires Core(env.tx, a) && RowsMarked(a, b)
    ensures Core(env.tx, b) && (NothingDone(a, 1) ==> NothingDone(b, 1)) && OneCommit(env.tx, a, b)
  {
  }

  lemma LoadFits(env: Env, w: World, lost: Tally)
    requires SoundAt(env, Idle, w, lost)
    ensures Fitting(Load(w), w.tables) && Fitting(Settle(env, w), w.tables)
    ensures Counted(Load(w), w, lost) && Counted(Settle(env, w), w, lost)
  {
  }

  lemma BeginMarks(t: Tables, step: Step, attempt: int)
    ensures var w := BeginAttempt(t, step, attempt);
            && RowsMarked(t, t) && RowsMarked(t, w.tables) && SameShared(t, w.tables)
            && (w.ok ==> RowKey(step, attempt) in w.tables.rows)
  {
  }

  lemma ShapeKeys(tx: TxId, t: Tables)
    requires Core(tx, t) && !t.saga.state.Terminal()
    ensures t.saga.step == Policy || t.saga.step == Payment ==> CaptureId !in t.saga.payload
    ensures t.saga.step == Broadcast ==> TxHash !in t.saga.payload
  {
    assert KeyRank(CaptureId) == Some(2) && KeyRank(TxHash) == Some(5);
  }

  lemma CascadeStartsAt(env: Env, w: World, step: Step, lost: Tally)
    requires Core(env.tx, w.tables) && w.tables.saga.step == step && !w.tables.saga.state.Terminal()
    requires Counted(Idle, w, lost)
    ensures Fitting(StartCascade(w, step), w.tables) && Counted(StartCascade(w, step), w, lost)
  {
    ShapeKeys(env.tx, w.tables);
  }

  lemma BeginKeeps(env: Env, pc: Pc, w: World, lost: Tally)
    requires pc.AtBegin? && SoundAt(env, pc, w, lost)
    ensures Keeps(env, w, lost, GoNext(env, pc, w))
  {
    hide Core, NothingDone, Committed, BeginAttempt, RowsMarked, Load, Settle;
    var n := GoNext(env, pc, w);
    BeginMarks(w.tables, pc.step, pc.attempt);
    MarkedKeeps(env, w.tables, n.world.tables);
    assert SoundAt(env, Idle, w, lost);
    LoadFits(env, w, lost);
    CascadeStartsAt(env, w, pc.step, lost);
  }

  /** A call outside the payment step captures and refunds nothing, and broadcasts only on the way
      to recording it. */
  lemma CallEffects(o: Oracle, fx: Effects, payload: Payload, step: Step)
    requires step != Payment
    ensures var ex := Execute(o, fx, payload, step);
            && ex.fx.captures == fx.captures && ex.fx.refunds == fx.refunds
            && (step != Broadcast ==> ex.fx.broadcasts == fx.broadcasts)
            && (step == Broadcast && TxHash !in payload ==>
                  |ex.fx.broadcasts| == |fx.broadcasts| + One(ex.outcome.Success?))
  {
  }

  lemma CallKeeps(env: Env, pc: Pc, w: World, lost: Tally)
    requires pc.AtCall? && SoundAt(env, pc, w, lost)
    ensures Keeps(env, w, lost, GoNext(env, pc, w))
  {
    hide Core, NothingDone, Committed, Fits, Execute;
    if pc.step != Payment {
      CallEffects(env.o, w.fx, pc.snap.saga.payload, pc.step);
    }
    StepOfReady(env.tx, w.tables);
    ShapeKeys(env.tx, w.tables);
    ExecuteFits(env.o, w.fx, pc.snap.saga.payload, pc.step);
  }

  lemma CaptureFits()
    ensures forall authId, captureId :: Fits(Payment, map[AuthId := Text(authId), CaptureId := Text(captureId)])
  {
  }

  lemma CaptureKeeps(env: Env, pc: Pc, w: World, lost: Tally)
    requires (pc.AtCapture? || pc.AtVoid?) && SoundAt(env, pc, w, lost)
    ensures Keeps(env, w, lost, GoNext(env, pc, w))
  {
    hide Core, NothingDone, Committed;
    ShapeKeys(env.tx, w.tables);
    CaptureFits();
  }

  lemma StepOfState(tx: TxId, t: Tables)
    requires Core(tx, t)
    ensures !t.saga.state.Terminal() ==> StepFrom(t.saga.state) == Some(t.saga.step)
  {
  }

  lemma ConfirmDone(a: Tables, b: Tables)
    requires a.saga.step == Ledger && b.saga == ConfirmedSaga(a.saga) && b.rows == a.rows && !a.saga.state.Terminal()
    ensures NothingDone(a, 1) ==> NothingDone(b, 1)
  {
  }

  lemma WaitKeeps(env: Env, pc: Pc, w: World, lost: Tally)
    requires (pc.AtWait? || pc.AtPoll? || pc.AtConfirm?) && SoundAt(env, pc, w, lost)
    ensures Keeps(env, w, lost, GoNext(env, pc, w))
  {
    hide Core, NothingDone, Committed, CommitConfirmed, Load, StartCascade;
    StepOfState(env.tx, w.tables);
    var n := GoNext(env, pc, w);
    if pc.AtConfirm? {
      CommitConfirmedExact(env.rollback, env.tx, w.tables, FreshId(env, w.tables));
      ConfirmDone(w.tables, n.world.tables);
      LoadFits(env, n.world, lost);
    } else if pc.AtPoll? {
      LoadFits(env, w.(fx := AskStatus(w.fx, env.o.confirmed(w.fx.clock))), lost);
    } else {
      CascadeStartsAt(env, w.(fx := w.fx.Tick()), pc.step, lost);
    }
  }

  lemma UndoEffects(o: Oracle, fx: Effects, payload: Payload, step: Step)
    ensures var u := Compensate(o, fx, payload, step);
            && u.fx.captures == fx.captures && u.fx.broadcasts == fx.broadcasts
            && |u.fx.refunds| == |fx.refunds| + One(step == Payment && u.ok && TextOf(payload, CaptureId) != "")
            && (step != Payment ==> u.ok)
  {
  }

  lemma UndoKeeps(env: Env, pc: Pc, w: World, lost: Tally)
    requires pc.AtUndo? && SoundAt(env, pc, w, lost)
    ensures Keeps(env, w, lost, GoNext(env, pc, w))
  {
    hide Core, NothingDone, Committed, Compensate;
    UndoEffects(env.o, w.fx, pc.sg.payload, STEP_ORDER[pc.i]);
  }

  lemma MarkRowMarks(t: Tables, step: Step, s: StepStatus)
    requires s != StepSucceeded
    ensures RowsMarked(t, MarkRow(t, step, s)) && SameShared(t, MarkRow(t, step, s))
  {
  }

  lemma MarkKeeps(env: Env, pc: Pc, w: World, lost: Tally)
    requires (pc.AtCascade? || pc.AtMark?) && SoundAt(env, pc, w, lost)
    ensures Keeps(env, w, lost, GoNext(env, pc, w))
  {
    hide Core, NothingDone, Committed, MarkRow, RowsMarked;
    var n := GoNext(env, pc, w);
    var s := if pc.AtCascade? then StepCompensating else if pc.ok then StepCompensated else StepFailed;
    assert n.world.tables == MarkRow(w.tables, STEP_ORDER[pc.i], s);
    MarkRowMarks(w.tables, STEP_ORDER[pc.i], s);
    MarkedKeeps(env, w.tables, n.world.tables);
  }

  lemma ParkKeeps(env: Env, pc: Pc, w: World, lost: Tally)
    requires pc.AtPark? && SoundAt(env, pc, w, lost)
    ensures Keeps(env, w, lost, GoNext(env, pc, w))
  {
    hide Core, NothingDone, Committed, CommitCascade;
    var n := GoNext(env, pc, w);
    CommitCascadeExact(env.tx, w.tables, CascadeTarget(pc.ok), FreshId(env, w.tables));
    NothingDoneTerminal(n.world.tables);
  }

  lemma NextStep(sg: SagaRow, step: Step, merge: Payload)
    requires StepFrom(sg.state) == Some(step)
    ensures var next := NextSaga(sg, step, StateForStep(step), merge);
            next.state.Terminal() || StepAfter(step) == Some(next.step)
  {
  }

  lemma DoneMovesOn(env: Env, t: Tables, t': Tables, step: Step, attempt: int)
    requires t.saga.step == step && !t.saga.state.Terminal()
    requires t'.saga.state.Terminal() || StepAfter(step) == Some(t'.saga.step)
    requires forall k :: k in t'.rows && k != RowKey(step, attempt) ==> k in t.rows && t'.rows[k] == t.rows[k]
    ensures NothingAhead(env, t) ==> NothingAhead(env, t')
  {
  }

  /** Recording a success turns what was about to be recorded into a recorded entry. */
  lemma RecordCounts(env: Env, w: World, next: SagaRow, step: Step, merge: Payload)
    requires Core(env.tx, w.tables) && w.tables.saga.step == step && Fits(step, merge)
    requires next == NextSaga(w.tables.saga, step, StateForStep(step), merge)
    requires !w.tables.saga.state.Terminal()
    ensures One(CaptureId in next.payload) == One(CaptureId in w.tables.saga.payload) + One(step == Payment)
    ensures One(TxHash in next.payload) == One(TxHash in w.tables.saga.payload) + One(step == Broadcast)
    ensures !next.state.IsFailure() && !w.tables.saga.state.IsFailure()
  {
    ShapeKeys(env.tx, w.tables);
    assert KeyRank(CaptureId) == Some(2) && KeyRank(TxHash) == Some(5);
  }

  lemma CommitSuccessKeeps(env: Env, pc: Pc, w: World, lost: Tally)
    requires pc.AtCommit? && pc.outcome.Success? && SoundAt(env, pc, w, lost)
    ensures Keeps(env, w, lost, GoNext(env, pc, w))
  {
    hide Core, NothingDone, Committed, CommitSuccess, CommitParked, Fits, NextSaga, Settle;
    StepOfState(env.tx, w.tables);
    var t, step, attempt := w.tables, pc.step, pc.attempt;
    var n := GoNext(env, pc, w);
    CommitSuccessExact(env.rollback, env.tx, t, step, attempt, pc.outcome.merge, FreshId(env, t));
    if t.saga.state != Broadcasted {
      NextStep(t.saga, step, pc.outcome.merge);
      DoneMovesOn(env, t, n.world.tables, step, attempt);
      RecordCounts(env, w, n.world.tables.saga, step, pc.outcome.merge);
      LoadFits(env, n.world, lost);
    } else {
      CoreIsShared(env.tx, t, n.world.tables);
      assert env.rollback ==> n.world.tables == t;
    }
  }

  lemma ParkedCounts(sg: SagaRow, state: State, merge: Payload)
    requires CaptureId !in merge && TxHash !in merge
    ensures var next := ParkedSaga(sg, state, merge);
            && (CaptureId in next.payload <==> CaptureId in sg.payload)
            && (TxHash in next.payload <==> TxHash in sg.payload)
            && CanRefund(next) == CanRefund(sg)
  {
  }

  lemma CommitParkedKeeps(env: Env, pc: Pc, w: World, lost: Tally)
    requires pc.AtCommit? && pc.outcome.Parked? && SoundAt(env, pc, w, lost)
    ensures Keeps(env, w, lost, GoNext(env, pc, w))
  {
    hide Core, NothingDone, Committed, CommitSuccess, CommitParked, Settle;
    var t, step, attempt := w.tables, pc.step, pc.attempt;
    var n := GoNext(env, pc, w);
    CommitParkedExact(env.rollback, env.tx, t, step, attempt, pc.outcome.state, pc.outcome.merge, FreshId(env, t));
    DoneMovesOn(env, t, n.world.tables, step, attempt);
    ShapeKeys(env.tx, t);
    ParkedCounts(t.saga, pc.outcome.state, pc.outcome.merge);
    LoadFits(env, n.world, lost);
  }

  lemma FailedMarks(t: Tables, step: Step, attempt: int)
    ensures RowsMarked(t, CommitFailed(t, step, attempt)) && SameShared(t, CommitFailed(t, step, attempt))
  {
  }

  lemma CommitErrorKeeps(env: Env, pc: Pc, w: World, lost: Tally)
    requires pc.AtCommit? && pc.outcome.Error? && SoundAt(env, pc, w, lost)
    ensures Keeps(env, w, lost, GoNext(env, pc, w))
  {
    hide Core, NothingDone, Committed, RowsMarked, CommitFailed, StartCascade;
    var n := GoNext(env, pc, w);
    FailedMarks(w.tables, pc.step, pc.attempt);
    MarkedKeeps(env, w.tables, n.world.tables);
    CascadeStartsAt(env, n.world, pc.step, lost);
  }

  lemma IdleKeeps(env: Env, w: World, lost: Tally)
    requires SoundAt(env, Idle, w, lost)
    ensures Keeps(env, w, lost, GoNext(env, Idle, w))
  {
  }

  /** No action leaves the sound states, and none makes more than one commit. */
  lemma GoKeeps(env: Env, pc: Pc, w: World, lost: Tally)
    requires SoundAt(env, pc, w, lost)
    ensures Keeps(env, w, lost, GoNext(env, pc, w))
  {
    hide SoundAt, GoNext, Keeps;
    match pc
    case Idle => IdleKeeps(env, w, lost);
    case AtBegin(_, _, _) => BeginKeeps(env, pc, w, lost);
    case AtCall(_, _, _) => CallKeeps(env, pc, w, lost);
    case AtCapture(_, _, _) => CaptureKeeps(env, pc, w, lost);
    case AtVoid(_, _, _, _) => CaptureKeeps(env, pc, w, lost);
    case AtCommit(_, _, _, Success(_, _)) => CommitSuccessKeeps(env, pc, w, lost);
    case AtCommit(_, _, _, Parked(_, _)) => CommitParkedKeeps(env, pc, w, lost);
    case AtCommit(_, _, _, Error(_)) => CommitErrorKeeps(env, pc, w, lost);
    case AtWait(_, _, _) => WaitKeeps(env, pc, w, lost);
    case AtPoll(_, _) => WaitKeeps(env, pc, w, lost);
    case AtConfirm(_, _) => WaitKeeps(env, pc, w, lost);
    case AtCascade(_, _, _) => MarkKeeps(env, pc, w, lost);
    case AtUndo(_, _, _) => UndoKeeps(env, pc, w, lost);
    case AtMark(_, _, _, _) => MarkKeeps(env, pc, w, lost);
    case AtPark(_, _, _) => ParkKeeps(env, pc, w, lost);
  }

  lemma CommittedRow(tx: TxId, a: Tables, b: Tables)
    requires Core(tx, a) && OneCommit(tx, a, b)
    ensures b.saga == a.saga || (CommittedHop(a.saga.state, b.saga.state)
                                 && b.saga.version == a.saga.version + 1
                                 && a.saga.payload.Keys <= b.saga.payload.Keys)
  {
  }

  lemma PathExtends(history: seq<SagaRow>, was: SagaRow, now: SagaRow)
    requires LegalPath(history) && |history| > 0 && history[|history| - 1] == was
    requires now == was || (CommittedHop(was.state, now.state) && now.version == was.version + 1
                            && was.payload.Keys <= now.payload.Keys)
    ensures LegalPath(Extended(history, was, now))
  {
  }

  lemma SharedIsOneCommit(tx: TxId, t: Tables)
    ensures OneCommit(tx, t, t)
  {
  }

  lemma CascadeStarts(env: Env, m: Machine)
    requires Core(env.tx, m.world.tables) && Counted(Idle, m.world, m.lost) && !m.world.tables.saga.state.Terminal()
    ensures var pc := StartCascade(m.world, m.world.tables.saga.step);
            Fitting(pc, m.world.tables) && Counted(pc, m.world, m.lost)
  {
  }

  /** A crash loses whatever was about to be recorded. */
  lemma CrashCounts(env: Env, pc: Pc, w: World, lost: Tally)
    requires SoundAt(env, pc, w, lost)
    ensures Counted(Idle, w, LostBy(pc, w.tables.saga, lost)) && Fitting(Idle, w.tables)
    ensures lost.captures <= LostBy(pc, w.tables.saga, lost).captures <= lost.captures + 1
    ensures lost.broadcasts <= LostBy(pc, w.tables.saga, lost).broadcasts <= lost.broadcasts + 1
    ensures lost.refunds <= LostBy(pc, w.tables.saga, lost).refunds <= lost.refunds + 1
  {
  }

  lemma ActKeepsSound(env: Env, m: Machine, a: Action)
    requires Sound(env, m)
    ensures Sound(env, Act(env, m, a))
    ensures OneCommit(env.tx, m.world.tables, Act(env, m, a).world.tables)
    ensures m.history <= Act(env, m, a).history && m.crashes <= Act(env, m, a).crashes
  {
    hide Core, GoNext, Committed, NothingDone, Fitting, Counted, LegalPath, OneCommit;
    SharedIsOneCommit(env.tx, m.world.tables);
    match a
    case Go =>
      var n := GoNext(env, m.pc, m.world);
      GoKeeps(env, m.pc, m.world, m.lost);
      CommittedRow(env.tx, m.world.tables, n.world.tables);
      PathExtends(m.history, m.world.tables.saga, n.world.tables.saga);
    case StartRun =>
      if m.pc.Idle? {
        LoadFits(env, m.world, m.lost);
      }
    case StartCompensation =>
      if m.pc.Idle? && !m.world.tables.saga.state.Terminal() {
        CascadeStarts(env, m);
      }
    case Crash => CrashCounts(env, m.pc, m.world, m.lost);
  }

  lemma {:induction false} ExecKeepsSound(env: Env, m: Machine, actions: seq<Action>)
    requires Sound(env, m)
    ensures Sound(env, Exec(env, m, actions)) && m.history <= Exec(env, m, actions).history
    decreases |actions|
  {
    hide Sound, Act;
    if actions != [] {
      ActKeepsSound(env, m, actions[0]);
      ExecKeepsSound(env, Act(env, m, actions[0]), actions[1..]);
    }
  }

  /** A transaction that has just been created, with no run started. */
  predicate Fresh(env: Env, m: Machine) {
    && m.pc == Idle && m.crashes == 0 && m.lost == Tally(0, 0, 0)
    && m.world.fx == NO_EFFECTS
    && m.world.tables.saga.state == Created
    && m.history == [m.world.tables.saga]
  }

  lemma FreshIsSound(env: Env, m: Machine)
    requires Fresh(env, m) && Ready(env.tx, m.world.tables)
    ensures Sound(env, m)
  {
  }

  /** Whatever is started and wherever it crashes, on a store that rolls back and on one that does
      not: the saga row, the transaction row and the outbox stay in lockstep, the committed rows
      form a path of legal hops, and every capture, broadcast and refund that went through is
      recorded, about to be recorded, or lost to a crash in between, of which there are at most
      as many as crashes. */
  lemma CrashSafety(env: Env, m: Machine, actions: seq<Action>)
    requires Fresh(env, m) && Ready(env.tx, m.world.tables)
    ensures var m' := Exec(env, m, actions);
            && Lockstep(env.tx, m'.world.tables) && Shape(m'.world.tables.saga)
            && KeysDistinct(m'.world.tables.outbox)
            && LegalPath(m'.history) && |m'.history| > 0 && m'.history[0] == m.world.tables.saga
            && m'.history[|m'.history| - 1] == m'.world.tables.saga
            && Counted(m'.pc, m'.world, m'.lost)
            && m'.lost.captures <= m'.crashes && m'.lost.broadcasts <= m'.crashes && m'.lost.refunds <= m'.crashes
  {
    FreshIsSound(env, m);
    ExecKeepsSound(env, m, actions);
    hide Exec;
  }

  lemma AtMostOne(env: Env, m: Machine)
    requires Sound(env, m)
    ensures AboutToRecord(m.pc, Payment) ==> CaptureId !in m.world.tables.saga.payload
    ensures AboutToRecord(m.pc, Broadcast) ==> TxHash !in m.world.tables.saga.payload
  {
    if m.pc.AtCommit? {
      ShapeKeys(env.tx, m.world.tables);
    }
  }

  /** When the partners see a call only once: a second capture or broadcast goes through if and
      only if some crash fell between a first one and its commit, and the call has been made again
      since. Crashes anywhere else cost nothing. */
  lemma OnceIff(env: Env, m: Machine, actions: seq<Action>)
    requires Fresh(env, m) && Ready(env.tx, m.world.tables)
    ensures var m' := Exec(env, m, actions);
            var fx, payload := m'.world.fx, m'.world.tables.saga.payload;
            && (|fx.broadcasts| <= 1 <==>
                  || m'.lost.broadcasts == 0
                  || (m'.lost.broadcasts == 1 && TxHash !in payload && !AboutToRecord(m'.pc, Broadcast)))
            && (|fx.captures| <= 1 <==>
                  || m'.lost.captures == 0
                  || (m'.lost.captures == 1 && CaptureId !in payload && !AboutToRecord(m'.pc, Payment)))
  {
    FreshIsSound(env, m);
    ExecKeepsSound(env, m, actions);
    var m' := Exec(env, m, actions);
    hide Exec;
    AtMostOne(env, m');
  }

  lemma GoRepeatsNothing(env: Env, pc: Pc, w: World, lost: Tally)
    requires SoundAt(env, pc, w, lost)
    ensures var fx := GoNext(env, pc, w).world.fx;
            && (TxHash in w.tables.saga.payload ==> fx.broadcasts == w.fx.broadcasts)
            && (CaptureId in w.tables.saga.payload ==> fx.captures == w.fx.captures)
  {
    hide Core, NothingDone, Execute, Compensate, Counted, OutcomeFits, CommitSuccess, CommitParked, CommitConfirmed,
         CommitCascade;
    if !w.tables.saga.state.Terminal() {
      ShapeKeys(env.tx, w.tables);
    }
    match pc
    case AtCall(step, _, snap) =>
      if step != Payment {
        CallEffects(env.o, w.fx, snap.saga.payload, step);
      }
    case AtUndo(sg, _, i) => UndoEffects(env.o, w.fx, sg.payload, STEP_ORDER[i]);
    case _ =>
  }

  lemma ActRepeatsNothing(env: Env, m: Machine, a: Action)
    requires Sound(env, m)
    ensures var m' := Act(env, m, a);
            && (TxHash in m.world.tables.saga.payload ==>
                  TxHash in m'.world.tables.saga.payload && m'.world.fx.broadcasts == m.world.fx.broadcasts)
            && (CaptureId in m.world.tables.saga.payload ==>
                  CaptureId in m'.world.tables.saga.payload && m'.world.fx.captures == m.world.fx.captures)
  {
    hide Core, NothingDone, Committed, GoNext, Counted, Fitting, LegalPath, OneCommit;
    ActKeepsSound(env, m, a);
    CommittedRow(env.tx, m.world.tables, Act(env, m, a).world.tables);
    GoRepeatsNothing(env, m.pc, m.world, m.lost);
  }

  /** Once the transaction hash is committed nothing that is started or restarted later calls
      Broadcast successfully again, and once the capture is committed nothing captures again. */
  lemma {:induction false} RecordedOnceForAll(env: Env, m: Machine, actions: seq<Action>)
    requires Sound(env, m)
    ensures var m' := Exec(env, m, actions);
            && (TxHash in m.world.tables.saga.payload ==>
                  TxHash in m'.world.tables.saga.payload && m'.world.fx.broadcasts == m.world.fx.broadcasts)
            && (CaptureId in m.world.tables.saga.payload ==>
                  CaptureId in m'.world.tables.saga.payload && m'.world.fx.captures == m.world.fx.captures)
    decreases |actions|
  {
    if actions != [] {
      hide Sound, Act;
      ActKeepsSound(env, m, actions[0]);
      ActRepeatsNothing(env, m, actions[0]);
      RecordedOnceForAll(env, Act(env, m, actions[0]), actions[1..]);
    }
  }

  /** A committed path only climbs: ranks are strictly increasing and payload entries once set are
      never dropped, so a terminal state is the last of its history. */
  lemma {:induction false} PathClimbs(history: seq<SagaRow>, i: nat, j: nat)
    requires LegalPath(history) && i < j < |history|
    ensures Rank(history[i].state) < Rank(history[j].state)
    ensures history[i].payload.Keys <= history[j].payload.Keys
    ensures !history[i].state.Terminal()
    decreases j
  {
    HopClimbs(history[j - 1].state, history[j].state);
    if i < j - 1 {
      PathClimbs(history, i, j - 1);
    }
  }

  /** Recovery: on a store that rolls back, whatever was started and wherever it crashed, a run
      started afterwards and left alone stops in a terminal state within six turns. */
  lemma RecoveryHalts(env: Env, m: Machine, actions: seq<Action>, n: nat)
    requires Fresh(env, m) && Ready(env.tx, m.world.tables) && env.rollback && n >= |STEP_ORDER|
    ensures var w := Exec(env, m, actions).world;
            Run(env, w, n).verdict != Running && Run(env, w, n).world.tables.saga.state.Terminal()
  {
    hide Exec, Run;
    FreshIsSound(env, m);
    ExecKeepsSound(env, m, actions);
    var w := Exec(env, m, actions).world;
    if w.tables.saga.state.Terminal() {
      TerminalRunIsNoop(env, w, n);
    } else {
      RunHalts(env, w, n);
    }
  }

  lemma {:induction false} ExecAppend(env: Env, m: Machine, a: seq<Action>, b: seq<Action>)
    ensures Exec(env, m, a + b) == Exec(env, Exec(env, m, a), b)
    decreases |a|
  {
    hide Act;
    if a == [] {
      assert a + b == b;
    } else {
      assert (a + b)[1..] == a[1..] + b;
      ExecAppend(env, Act(env, m, a[0]), a[1..], b);
    }
  }

  lemma ExecThree(env: Env, m: Machine, a: Action, b: Action, c: Action)
    ensures Exec(env, m, [a, b, c]) == Act(env, Act(env, Act(env, m, a), b), c)
  {
    hide Act;
    assert Exec(env, Act(env, Act(env, m, a), b), [c]) == Act(env, Act(env, Act(env, m, a), b), c);
    assert [a, b, c][1..] == [b, c] && [b, c][1..] == [c];
  }

  lemma BroadcastTurn(env: Env, m: Machine)
    requires Sound(env, m) && m.pc == Idle && env.maxRetries >= 1
    requires m.world.tables.saga.state == Signed && TextOf(m.world.tables.saga.payload, SignedTxHex) != ""
    requires forall i :: env.o.broadcast(i).Ok?
    ensures var m' := Act(env, Act(env, Act(env, m, StartRun), Go), Go);
            && m'.pc.AtCommit? && m'.crashes == m.crashes && m'.lost == m.lost && AboutToRecord(m'.pc, Broadcast)
            && |m'.world.fx.broadcasts| == |m.world.fx.broadcasts| + 1
            && m'.world.tables.saga == m.world.tables.saga
  {
    var t := m.world.tables;
    StepOfState(env.tx, t);
    ShapeKeys(env.tx, t);
    NotSucceeded(t, Broadcast, 1);
    BeginOpens(t, Broadcast, 1);
  }

  /** The bound on broadcasts is reached: from a signed saga at rest, with a gateway that accepts
      every transaction, one crash between the call and its commit and one restart broadcast the
      transaction twice. */
  lemma CrashBroadcastsTwice(env: Env, m: Machine)
    requires Sound(env, m) && m.pc == Idle && env.maxRetries >= 1
    requires m.world.tables.saga.state == Signed && TextOf(m.world.tables.saga.payload, SignedTxHex) != ""
    requires forall i :: env.o.broadcast(i).Ok?
    ensures var m' := Exec(env, m, [StartRun, Go, Go, Crash, StartRun, Go, Go]);
            m'.crashes == m.crashes + 1 && |m'.world.fx.broadcasts| == |m.world.fx.broadcasts| + 2
  {
    hide Core, Fitting, Counted, NothingDone, LegalPath, GoNext;
    var turn := [StartRun, Go, Go];
    var b := Exec(env, m, turn);
    var c := Act(env, b, Crash);
    ExecKeepsSound(env, m, turn);
    ActKeepsSound(env, b, Crash);
    ExecThree(env, m, StartRun, Go, Go);
    BroadcastTurn(env, m);
    ExecThree(env, c, StartRun, Go, Go);
    BroadcastTurn(env, c);
    assert [StartRun, Go, Go, Crash, StartRun, Go, Go] == turn + ([Crash] + turn);
    ExecAppend(env, m, turn, [Crash] + turn);
    assert ([Crash] + turn)[1..] == turn;
  }
}
