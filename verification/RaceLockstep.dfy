/** Lockstep over whole races on a store that rolls back, and races at the grain of single store
    calls on one that does not. */
module RaceLockstep {
  import opened Options
  import opened StateMachine
  import opened Dedup
  import opened Store
  import opened Commits
  import opened Invariants
  import opened Races

  /** A parking or a cascade commits from rows that are current, of a saga that is not terminal. */
  predicate Steady(r: Race, m: Move) {
    (m.Park? || m.EndCascade?) && Holding(r, m).Some? ==>
      var snap := Holding(r, m).value;
      && snap.saga.version == r.tables.saga.version && snap.txn.version == r.tables.txn.version
      && !r.tables.saga.state.Terminal()
  }

  ghost predicate SteadyRun(tx: TxId, r: Race, moves: seq<Move>)
    decreases |moves|
  {
    moves == []
    || (Plausible(r, moves[0]) && Steady(r, moves[0]) && SteadyRun(tx, Act(true, tx, r, moves[0]), moves[1..]))
  }

  /** A commit asks for the version of the transaction row it holds and nothing else of it. */
  lemma OnlyVersions(tx: TxId, t: Tables, snap: Snapshot, m: Move)
    requires snap.txn.version == t.txn.version && snap.saga == t.saga
    ensures m.Succeed? ==>
              CommitSuccess(true, tx, t, snap, m.step, m.attempt, m.state, m.merge, m.id)
              == CommitSuccess(true, tx, t, Snapshot(t.txn, t.saga), m.step, m.attempt, m.state, m.merge, m.id)
    ensures m.Park? ==>
              CommitParked(true, tx, t, snap, m.step, m.attempt, m.state, m.merge, m.id)
              == CommitParked(true, tx, t, Snapshot(t.txn, t.saga), m.step, m.attempt, m.state, m.merge, m.id)
    ensures m.Confirm? ==>
              CommitConfirmed(true, tx, t, snap.saga, snap.txn, m.id)
                == CommitConfirmed(true, tx, t, t.saga, t.txn, m.id)
    ensures m.EndCascade? ==>
              CommitCascade(tx, t, snap.saga, snap.txn, CascadeTarget(m.ok), m.id)
              == CommitCascade(tx, t, t.saga, t.txn, CascadeTarget(m.ok), m.id)
  {
    hide KeyTaken, NewEvent, ValidPath, Transition, NextSaga;
  }

  /** A store that rolls back is not changed at all by a success or a confirmation from stale rows. */
  lemma StaleUndone(tx: TxId, t: Tables, snap: Snapshot, m: Move)
    requires snap.saga.version != t.saga.version || snap.txn.version != t.txn.version
    ensures m.Succeed? ==> CommitSuccess(true, tx, t, snap, m.step, m.attempt, m.state, m.merge, m.id).tables == t
    ensures m.Confirm? ==> CommitConfirmed(true, tx, t, snap.saga, snap.txn, m.id).tables == t
  {
    hide KeyTaken, NewEvent, ValidPath, Transition;
    if m.Succeed? {
      NextVersion(snap.saga, m.step, m.state, m.merge);
      hide NextSaga;
    }
  }

  lemma UnreachedUndone(tx: TxId, t: Tables, snap: Snapshot, m: Move)
    ensures m.Succeed? && RowKey(m.step, m.attempt) !in t.rows ==>
              CommitSuccess(true, tx, t, snap, m.step, m.attempt, m.state, m.merge, m.id).tables == t
    ensures m.Confirm? && !Transition(snap.saga.state, Confirmed) ==>
              CommitConfirmed(true, tx, t, snap.saga, snap.txn, m.id).tables == t
    ensures m.Park? && !Transition(snap.saga.state, m.state) ==>
              CommitParked(true, tx, t, snap, m.step, m.attempt, m.state, m.merge, m.id).tables == t
  {
  }

  lemma CoreOrSame(rollback: bool, tx: TxId, t: Tables, m: Move)
    requires m.Succeed? && rollback
    ensures var w := CommitSuccess(rollback, tx, t, Snapshot(t.txn, t.saga), m.step, m.attempt, m.state, m.merge, m.id);
            !w.ok ==> w.tables == t
  {
    hide KeyTaken, NewEvent, ValidPath, NextSaga;
  }

  lemma SucceedKeepsCore(tx: TxId, t: Tables, snap: Snapshot, m: Move)
    requires Core(tx, t) && m.Succeed? && (snap.saga.version == t.saga.version ==> snap.saga == t.saga)
    requires StepFrom(snap.saga.state) == Some(m.step) && m.state == StateForStep(m.step) && Fits(m.step, m.merge)
    ensures Core(tx, CommitSuccess(true, tx, t, snap, m.step, m.attempt, m.state, m.merge, m.id).tables)
  {
    hide Core, Committed, CommitSuccess, Fits, NextSaga;
    if snap.saga.version != t.saga.version || snap.txn.version != t.txn.version {
      StaleUndone(tx, t, snap, m);
    } else if RowKey(m.step, m.attempt) !in t.rows {
      UnreachedUndone(tx, t, snap, m);
    } else {
      OnlyVersions(tx, t, snap, m);
      CommitSuccessExact(true, tx, t, m.step, m.attempt, m.merge, m.id);
      CoreOrSame(true, tx, t, m);
    }
  }

  lemma OthersKeepCore(tx: TxId, t: Tables, snap: Snapshot, m: Move)
    requires Core(tx, t) && (snap.saga.version == t.saga.version ==> snap.saga == t.saga)
    requires m.Park? || m.EndCascade? ==>
               snap.saga == t.saga && snap.txn.version == t.txn.version && !t.saga.state.Terminal()
    requires m.Park? ==> m.state.IsFailure()
    ensures m.Confirm? ==> Core(tx, CommitConfirmed(true, tx, t, snap.saga, snap.txn, m.id).tables)
    ensures m.Park? ==> Core(tx, CommitParked(true, tx, t, snap, m.step, m.attempt, m.state, m.merge, m.id).tables)
    ensures m.EndCascade? ==> Core(tx, CommitCascade(tx, t, snap.saga, snap.txn, CascadeTarget(m.ok), m.id))
  {
    hide Core, Committed, CommitConfirmed, CommitParked, CommitCascade;
    match m
    case Confirm(_, _) =>
      if snap.saga.version != t.saga.version || snap.txn.version != t.txn.version {
        StaleUndone(tx, t, snap, m);
      } else if !Transition(snap.saga.state, Confirmed) {
        UnreachedUndone(tx, t, snap, m);
      } else {
        OnlyVersions(tx, t, snap, m);
        CommitConfirmedExact(true, tx, t, m.id);
      }
    case Park(_, _, _, _, _, _) =>
      OnlyVersions(tx, t, snap, m);
      CommitParkedExact(true, tx, t, m.step, m.attempt, m.state, m.merge, m.id);
    case EndCascade(_, _, _) =>
      OnlyVersions(tx, t, snap, m);
      CommitCascadeExact(tx, t, CascadeTarget(m.ok), m.id);
    case _ =>
  }

  lemma ActKeepsCore(tx: TxId, r: Race, m: Move)
    requires Linked(r) && Core(tx, r.tables) && Plausible(r, m) && Steady(r, m)
    ensures Core(tx, Act(true, tx, r, m).tables)
  {
    hide Core, Chain, CommitSuccess, CommitParked, CommitConfirmed, CommitCascade, Fits;
    if Holding(r, m).Some? {
      var snap := Holding(r, m).value;
      assert FromHistory(r.history, snap.saga) by { assert r.held[m.agent].saga == Some(snap.saga); }
      if snap.saga.version == r.tables.saga.version {
        CurrentVersionIsCurrentRow(r, snap.saga);
      }
      if m.Succeed? {
        SucceedKeepsCore(tx, r.tables, snap, m);
      } else {
        OthersKeepCore(tx, r.tables, snap, m);
      }
    } else {
      CoreIsShared(tx, r.tables, Act(true, tx, r, m).tables);
    }
  }

  /** On a store that rolls back, a race can lose lockstep through parkings and cascades only: as long
      as those commit from current rows of a saga at work, the three tables stay in lockstep, however
      stale the rows of successes and confirmations are. */
  lemma {:induction false} RaceStaysInLockstep(tx: TxId, r: Race, moves: seq<Move>)
    requires Linked(r) && Core(tx, r.tables) && SteadyRun(tx, r, moves)
    ensures Core(tx, Exec(true, tx, r, moves).tables) && Lockstep(tx, Exec(true, tx, r, moves).tables)
    decreases |moves|
  {
    hide Linked, Act, Plausible, Steady;
    if moves != [] {
      ActLinked(true, tx, r, moves[0]);
      ActKeepsCore(tx, r, moves[0]);
      hide Core, Lockstep;
      RaceStaysInLockstep(tx, Act(true, tx, r, moves[0]), moves[1..]);
    }
  }

  /** A single store call: a load, the checked write of the saga row, or any call that does not touch
      it. The in-memory store interleaves these. */
  datatype Call = Load(agent: nat) | Save(agent: nat, move: Move) | Elsewhere(tables: Tables)

  /** What a commit checks of the row it holds before it writes. */
  predicate Checked(m: Move, sg: SagaRow) {
    match m
    case Succeed(_, step, _, state, merge, _) => ValidPath(sg.state, state, NextSaga(sg, step, state, merge).state)
    case Park(_, _, _, state, _, _) => Transition(sg.state, state)
    case Confirm(_, _) => Transition(sg.state, Confirmed)
    case EndCascade(_, _, _) => true
    case _ => false
  }

  function CallAct(r: Race, c: Call): Race {
    match c
    case Load(a) => r.(held := r.held[a := HeldBy(r, a).(saga := Some(r.tables.saga))])
    case Save(a, m) =>
      var sg := HeldBy(r, a).saga;
      if sg.None? || !Checked(m, sg.value) then r
      else Written(r, SaveSagaState(r.tables, Produced(m, sg.value)).tables, m)
    case Elsewhere(t) => if t.saga == r.tables.saga then r.(tables := t) else r
  }

  function CallExec(r: Race, calls: seq<Call>): Race
    decreases |calls|
  {
    if calls == [] then r else CallExec(CallAct(r, calls[0]), calls[1..])
  }

  /** What the steps can come up with, for the row a call holds. */
  ghost predicate PlausibleCall(r: Race, c: Call) {
    c.Save? && HeldBy(r, c.agent).saga.Some? ==>
      var sg, m := HeldBy(r, c.agent).saga.value, c.move;
      && (m.Succeed? ==> StepFrom(sg.state) == Some(m.step) && m.state == StateForStep(m.step) && Fits(m.step, m.merge))
      && (m.Park? ==> m.state.IsFailure())
  }

  ghost predicate PlausibleCalls(r: Race, calls: seq<Call>)
    decreases |calls|
  {
    calls == [] || (PlausibleCall(r, calls[0]) && PlausibleCalls(CallAct(r, calls[0]), calls[1..]))
  }

  lemma SaveSaves(t: Tables, sg: SagaRow, m: Move)
    requires Checked(m, sg)
    ensures SavesFrom(t, sg, m, SaveSagaState(t, Produced(m, sg)).tables)
  {
    if m.Succeed? {
      NextVersion(sg, m.step, m.state, m.merge);
      hide NextSaga;
    }
    hide ValidPath, Transition;
  }

  lemma CheckedLawful(sg: SagaRow, m: Move)
    requires Shape(sg) && Checked(m, sg) && (m.Park? ==> m.state.IsFailure())
    requires m.Succeed? ==>
               StepFrom(sg.state) == Some(m.step) && m.state == StateForStep(m.step) && Fits(m.step, m.merge)
    ensures Shape(Produced(m, sg)) && (sg.state.Terminal() ==> m.EndCascade?)
    ensures CommittedHop(sg.state, Produced(m, sg).state) <==> !sg.state.Terminal()
  {
    if m.Succeed? {
      NextSagaPath(sg, m.step, m.merge);
      NextSagaShape(sg, m.step, m.merge);
      hide NextSaga, Shape, Fits;
    }
  }

  lemma CallLawful(r: Race, c: Call)
    requires Linked(r) && Lawful(r) && PlausibleCall(r, c)
    ensures var r' := CallAct(r, c); Linked(r') && Lawful(r') && r.history <= r'.history
  {
    assert FromHistory(r.history, r.tables.saga);
    hide Chain, Shape, Fits, CommittedHop, Produced, Checked;
    if c.Save? && HeldBy(r, c.agent).saga.Some? && Checked(c.move, HeldBy(r, c.agent).saga.value) {
      var sg, m := HeldBy(r, c.agent).saga.value, c.move;
      assert FromHistory(r.history, sg) by { assert r.held[c.agent].saga == Some(sg); }
      SaveSaves(r.tables, sg, m);
      var t := SaveSagaState(r.tables, Produced(m, sg)).tables;
      WrittenLinked(r, sg, t, m);
      if t.saga != r.tables.saga {
        CurrentVersionIsCurrentRow(r, sg);
        CheckedLawful(sg, m);
        LawfulExtended(r, Written(r, t, m), m);
      }
    }
  }

  /** No lost update and no unlawful row at that grain either: however single store calls interleave,
      each committed saga row is what its move makes of the row it replaced, well shaped and one legal
      hop on, except the end of a cascade over a terminal row. */
  lemma {:induction false} CallsStayLawful(r: Race, calls: seq<Call>)
    requires Linked(r) && Lawful(r) && PlausibleCalls(r, calls)
    ensures var r' := CallExec(r, calls); Linked(r') && Lawful(r') && r.history <= r'.history
    decreases |calls|
  {
    hide Linked, Lawful, CallAct, PlausibleCall;
    if calls != [] {
      CallLawful(r, calls[0]);
      CallsStayLawful(CallAct(r, calls[0]), calls[1..]);
    }
  }

  /** From the rows of any transaction that keeps its invariant: the start of both theorems. */
  lemma FromStoredRows(tx: TxId, t: Tables, moves: seq<Move>, calls: seq<Call>)
    requires Core(tx, t)
    ensures var r := Race(t, map[], [t.saga], []);
            && (SteadyRun(tx, r, moves) ==> Lockstep(tx, Exec(true, tx, r, moves).tables))
            && (PlausibleCalls(r, calls) ==> Linked(CallExec(r, calls)) && Lawful(CallExec(r, calls)))
  {
    hide SteadyRun, PlausibleCalls, Exec, CallExec, Linked, Lawful, Lockstep;
    var r := Race(t, map[], [t.saga], []);
    StartLinked(t);
    StartLawful(t);
    if SteadyRun(tx, r, moves) {
      RaceStaysInLockstep(tx, r, moves);
    }
    if PlausibleCalls(r, calls) {
      CallsStayLawful(r, calls);
    }
  }
}
