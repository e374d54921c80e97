/** Any number of runners, confirmers and cascades racing on one transaction. Each holds rows it
    loaded at some moment and commits from them whenever it likes. */
module Races {
  import opened Options
  import opened StateMachine
  import opened Dedup
  import opened Store
  import opened Commits
  import opened Invariants

  datatype Held = Held(saga: Option<SagaRow>, txn: Option<TxRow>)

  datatype Move =
    | LoadSaga(agent: nat)
    | LoadTx(agent: nat)
    | Open(step: Step, attempt: nat)
    | Mark(step: Step, attempt: nat, status: StepStatus)
    | Succeed(agent: nat, step: Step, attempt: nat, state: State, merge: Payload, id: EventId)
    | Park(agent: nat, step: Step, attempt: nat, state: State, merge: Payload, id: EventId)
    | Confirm(agent: nat, id: EventId)
    | EndCascade(agent: nat, ok: bool, id: EventId)

  /** The committed rows so far, and for each but the first the move that committed it. */
  datatype Race = Race(tables: Tables, held: map<nat, Held>, history: seq<SagaRow>, commits: seq<Move>)

  function HeldBy(r: Race, agent: nat): Held {
    if agent in r.held then r.held[agent] else Held(None, None)
  }

  predicate HoldsBoth(r: Race, agent: nat) {
    HeldBy(r, agent).saga.Some? && HeldBy(r, agent).txn.Some?
  }

  /** The tables change; a changed saga row joins the history with the move that changed it. */
  function Written(r: Race, t: Tables, m: Move): Race {
    if t.saga == r.tables.saga then r.(tables := t)
    else r.(tables := t, history := r.history + [t.saga], commits := r.commits + [m])
  }

  function Act(rollback: bool, tx: TxId, r: Race, m: Move): Race {
    match m
    case LoadSaga(a) => r.(held := r.held[a := HeldBy(r, a).(saga := Some(r.tables.saga))])
    case LoadTx(a) => r.(held := r.held[a := HeldBy(r, a).(txn := Some(r.tables.txn))])
    case Open(step, attempt) => Written(r, BeginAttempt(r.tables, step, attempt).tables, m)
    case Mark(step, attempt, status) => Written(r, UpdateStep(r.tables, RowKey(step, attempt), status).tables, m)
    case Succeed(a, step, attempt, state, merge, id) =>
      if !HoldsBoth(r, a) then r
      else
        var h := HeldBy(r, a);
        Written(r, CommitSuccess(rollback, tx, r.tables, Snapshot(h.txn.value, h.saga.value),
                                 step, attempt, state, merge, id).tables, m)
    case Park(a, step, attempt, state, merge, id) =>
      if !HoldsBoth(r, a) then r
      else
        var h := HeldBy(r, a);
        Written(r, CommitParked(rollback, tx, r.tables, Snapshot(h.txn.value, h.saga.value),
                                step, attempt, state, merge, id).tables, m)
    case Confirm(a, id) =>
      if !HoldsBoth(r, a) then r
      else
        var h := HeldBy(r, a);
        Written(r, CommitConfirmed(rollback, tx, r.tables, h.saga.value, h.txn.value, id).tables, m)
    case EndCascade(a, ok, id) =>
      if !HoldsBoth(r, a) then r
      else
        var h := HeldBy(r, a);
        Written(r, CommitCascade(tx, r.tables, h.saga.value, h.txn.value, CascadeTarget(ok), id), m)
  }

  function Exec(rollback: bool, tx: TxId, r: Race, moves: seq<Move>): Race
    decreases |moves|
  {
    if moves == [] then r else Exec(rollback, tx, Act(rollback, tx, r, moves[0]), moves[1..])
  }

  /** The row a move commits in place of `was`, from exactly what the move was given. */
  function Produced(m: Move, was: SagaRow): SagaRow {
    match m
    case Succeed(_, step, _, state, merge, _) => NextSaga(was, step, state, merge)
    case Park(_, _, _, state, merge, _) => ParkedSaga(was, state, merge)
    case Confirm(_, _) => ConfirmedSaga(was)
    case EndCascade(_, ok, _) => CascadedSaga(was, CascadeTarget(ok))
    case _ => was
  }

  /** A held row is the history's entry at its version. */
  predicate FromHistory(history: seq<SagaRow>, sg: SagaRow) {
    exists i :: 0 <= i < |history| && history[i] == sg
  }

  /** Each row is what its move makes of the row before it, with the next version. */
  ghost predicate Chain(history: seq<SagaRow>, commits: seq<Move>) {
    && |history| == |commits| + 1
    && forall i :: 0 <= i < |commits| ==>
         history[i + 1] == Produced(commits[i], history[i]) && history[i + 1].version == history[i].version + 1
  }

  ghost predicate Linked(r: Race) {
    && Chain(r.history, r.commits)
    && r.history[|r.commits|] == r.tables.saga
    && forall a :: a in r.held && r.held[a].saga.Some? ==> FromHistory(r.history, r.held[a].saga.value)
  }

  lemma {:induction false} ChainVersions(history: seq<SagaRow>, commits: seq<Move>, i: nat, j: nat)
    requires Chain(history, commits) && i <= j < |history|
    ensures history[j].version == history[i].version + (j - i)
    decreases j
  {
    if i < j {
      ChainVersions(history, commits, i, j - 1);
      assert history[j - 1 + 1].version == history[j - 1].version + 1;
    }
  }

  /** A snapshot with the current version is the current row, all of it. */
  lemma CurrentVersionIsCurrentRow(r: Race, sg: SagaRow)
    requires Linked(r) && FromHistory(r.history, sg) && sg.version == r.tables.saga.version
    ensures sg == r.tables.saga
  {
    var i :| 0 <= i < |r.history| && r.history[i] == sg;
    ChainVersions(r.history, r.commits, i, |r.history| - 1);
  }

  /** What a commit from a held row does to the saga row: nothing, or what the move makes of a row
      with the current version. */
  ghost predicate SavesFrom(t: Tables, sg: SagaRow, m: Move, t': Tables) {
    || t'.saga == t.saga
    || (sg.version == t.saga.version && t'.saga.version == sg.version + 1 && t'.saga == Produced(m, sg))
  }

  lemma NextVersion(sg: SagaRow, step: Step, state: State, merge: Payload)
    ensures NextSaga(sg, step, state, merge).version == sg.version + 1
  {
  }

  lemma SuccessSavesFrom(rollback: bool, tx: TxId, t: Tables, snap: Snapshot, m: Move)
    requires m.Succeed?
    ensures SavesFrom(t, snap.saga, m,
                      CommitSuccess(rollback, tx, t, snap, m.step, m.attempt, m.state, m.merge, m.id).tables)
  {
    hide KeyTaken, NewEvent, ValidPath, NextSaga;
    NextVersion(snap.saga, m.step, m.state, m.merge);
  }

  lemma ParkSavesFrom(rollback: bool, tx: TxId, t: Tables, snap: Snapshot, m: Move)
    requires m.Park?
    ensures SavesFrom(t, snap.saga, m,
                      CommitParked(rollback, tx, t, snap, m.step, m.attempt, m.state, m.merge, m.id).tables)
  {
    hide KeyTaken, NewEvent, Transition, MergePayload;
  }

  lemma ConfirmSavesFrom(rollback: bool, tx: TxId, t: Tables, snap: Snapshot, m: Move)
    requires m.Confirm?
    ensures SavesFrom(t, snap.saga, m, CommitConfirmed(rollback, tx, t, snap.saga, snap.txn, m.id).tables)
  {
    hide KeyTaken, NewEvent, Transition;
  }

  lemma CascadeSavesFrom(tx: TxId, t: Tables, snap: Snapshot, m: Move)
    requires m.EndCascade?
    ensures SavesFrom(t, snap.saga, m, CommitCascade(tx, t, snap.saga, snap.txn, CascadeTarget(m.ok), m.id))
  {
    hide KeyTaken, NewEvent;
  }

  lemma WrittenLinked(r: Race, sg: SagaRow, t: Tables, m: Move)
    requires Linked(r) && FromHistory(r.history, sg) && SavesFrom(r.tables, sg, m, t)
    ensures Linked(Written(r, t, m))
  {
    var r' := Written(r, t, m);
    if t.saga != r.tables.saga {
      hide Produced;
      CurrentVersionIsCurrentRow(r, sg);
      forall a | a in r'.held && r'.held[a].saga.Some? ensures FromHistory(r'.history, r'.held[a].saga.value) {
        var i :| 0 <= i < |r.history| && r.history[i] == r.held[a].saga.value;
        assert r'.history[i] == r.history[i];
      }
    }
  }

  lemma RowsOnly(r: Race, t: Tables, m: Move)
    requires Linked(r) && t.saga == r.tables.saga
    ensures Linked(Written(r, t, m))
  {
  }

  /** The rows a committing move works from. */
  function Holding(r: Race, m: Move): Option<Snapshot> {
    if (m.Succeed? || m.Park? || m.Confirm? || m.EndCascade?) && HoldsBoth(r, m.agent) then
      Some(Snapshot(HeldBy(r, m.agent).txn.value, HeldBy(r, m.agent).saga.value))
    else None
  }

  lemma ActSavesFrom(rollback: bool, tx: TxId, r: Race, m: Move)
    requires Holding(r, m).Some?
    ensures var r' := Act(rollback, tx, r, m);
            r' == Written(r, r'.tables, m) && SavesFrom(r.tables, Holding(r, m).value.saga, m, r'.tables)
  {
    hide SavesFrom, CommitSuccess, CommitParked, CommitConfirmed, CommitCascade, Produced;
    var snap := Holding(r, m).value;
    match m
    case Succeed(_, _, _, _, _, _) => SuccessSavesFrom(rollback, tx, r.tables, snap, m);
    case Park(_, _, _, _, _, _) => ParkSavesFrom(rollback, tx, r.tables, snap, m);
    case Confirm(_, _) => ConfirmSavesFrom(rollback, tx, r.tables, snap, m);
    case EndCascade(_, _, _) => CascadeSavesFrom(tx, r.tables, snap, m);
  }

  lemma ActLinked(rollback: bool, tx: TxId, r: Race, m: Move)
    requires Linked(r)
    ensures var r' := Act(rollback, tx, r, m);
            && Linked(r') && r.history <= r'.history
            && (r'.commits == r.commits || r'.commits == r.commits + [m])
  {
    assert FromHistory(r.history, r.tables.saga);
    hide Chain, Produced, CommitSuccess, CommitParked, CommitConfirmed, CommitCascade;
    match m
    case LoadSaga(_) =>
    case LoadTx(_) =>
    case Open(_, _) => RowsOnly(r, Act(rollback, tx, r, m).tables, m);
    case Mark(_, _, _) => RowsOnly(r, Act(rollback, tx, r, m).tables, m);
    case _ =>
      if Holding(r, m).Some? {
        hide SavesFrom;
        ActSavesFrom(rollback, tx, r, m);
        WrittenLinked(r, Holding(r, m).value.saga, Act(rollback, tx, r, m).tables, m);
      }
  }

  /** No lost update: whatever races, every committed saga row has the version after the row it
      replaced and is exactly what its move makes of that row; the moves are those of the race. */
  lemma {:induction false} NoLostUpdate(rollback: bool, tx: TxId, r: Race, moves: seq<Move>)
    requires Linked(r)
    ensures var r' := Exec(rollback, tx, r, moves);
            && Linked(r') && r.history <= r'.history && r.commits <= r'.commits
            && forall i :: |r.commits| <= i < |r'.commits| ==> r'.commits[i] in moves
    decreases |moves|
  {
    hide Linked, Act;
    if moves != [] {
      ActLinked(rollback, tx, r, moves[0]);
      NoLostUpdate(rollback, tx, Act(rollback, tx, r, moves[0]), moves[1..]);
    }
  }

  lemma StartLinked(t: Tables)
    ensures Linked(Race(t, map[], [t.saga], []))
  {
  }

  /** What the steps can come up with: a success belongs to the step the held saga rests on and
      brings that step's state and payload entries, and parking ends in a failure state. */
  ghost predicate Plausible(r: Race, m: Move) {
    && (m.Succeed? && Holding(r, m).Some? ==>
          && StepFrom(Holding(r, m).value.saga.state) == Some(m.step)
          && m.state == StateForStep(m.step) && Fits(m.step, m.merge))
    && (m.Park? ==> m.state.IsFailure())
  }

  ghost predicate PlausibleRun(rollback: bool, tx: TxId, r: Race, moves: seq<Move>)
    decreases |moves|
  {
    moves == [] || (Plausible(r, moves[0]) && PlausibleRun(rollback, tx, Act(rollback, tx, r, moves[0]), moves[1..]))
  }

  /** Every row is well shaped, only a cascade ever replaces a terminal row, and everything else is
      a legal hop. */
  ghost predicate Lawful(r: Race)
    requires |r.history| == |r.commits| + 1
  {
    && (forall i :: 0 <= i < |r.history| ==> Shape(r.history[i]))
    && forall i :: 0 <= i < |r.commits| ==>
         && (r.history[i].state.Terminal() ==> r.commits[i].EndCascade?)
         && (CommittedHop(r.history[i].state, r.history[i + 1].state) <==> !r.history[i].state.Terminal())
  }

  lemma SuccessLawful(rollback: bool, tx: TxId, t: Tables, snap: Snapshot, m: Move)
    requires m.Succeed? && Shape(snap.saga) && StepFrom(snap.saga.state) == Some(m.step)
    requires m.state == StateForStep(m.step) && Fits(m.step, m.merge)
    ensures var sg := snap.saga;
            var t' := CommitSuccess(rollback, tx, t, snap, m.step, m.attempt, m.state, m.merge, m.id).tables;
            t'.saga != t.saga ==>
              Shape(Produced(m, sg)) && !sg.state.Terminal() && CommittedHop(sg.state, Produced(m, sg).state)
  {
    NextSagaPath(snap.saga, m.step, m.merge);
    if snap.saga.state != Broadcasted {
      NextSagaShape(snap.saga, m.step, m.merge);
    }
    hide Shape, Fits, NextSaga, ValidPath, KeyTaken, NewEvent;
  }

  lemma OtherLawful(rollback: bool, tx: TxId, t: Tables, snap: Snapshot, m: Move)
    requires Shape(snap.saga) && (m.Park? ==> m.state.IsFailure())
    ensures var sg := snap.saga;
            && (m.Park?
                && CommitParked(rollback, tx, t, snap, m.step, m.attempt, m.state, m.merge, m.id).tables.saga
                   != t.saga ==>
                  Shape(Produced(m, sg)) && !sg.state.Terminal() && CommittedHop(sg.state, Produced(m, sg).state))
            && (m.Confirm? && CommitConfirmed(rollback, tx, t, sg, snap.txn, m.id).tables.saga != t.saga ==>
                  Shape(Produced(m, sg)) && !sg.state.Terminal() && CommittedHop(sg.state, Produced(m, sg).state))
            && (m.EndCascade? ==>
                  Shape(Produced(m, sg)) && (CommittedHop(sg.state, Produced(m, sg).state) <==> !sg.state.Terminal()))
  {
    hide KeyTaken, NewEvent;
  }

  lemma HeldIsShaped(r: Race, m: Move)
    requires Linked(r) && Lawful(r) && Holding(r, m).Some?
    ensures FromHistory(r.history, Holding(r, m).value.saga) && Shape(Holding(r, m).value.saga)
  {
    hide Shape, CommittedHop, Chain;
    assert FromHistory(r.history, r.held[m.agent].saga.value);
  }

  lemma LawfulExtended(r: Race, r': Race, m: Move)
    requires Linked(r) && Linked(r') && Lawful(r)
    requires r'.history == r.history + [Produced(m, r.tables.saga)] && r'.commits == r.commits + [m]
    requires Shape(Produced(m, r.tables.saga))
    requires r.tables.saga.state.Terminal() ==> m.EndCascade?
    requires CommittedHop(r.tables.saga.state, Produced(m, r.tables.saga).state) <==> !r.tables.saga.state.Terminal()
    ensures Lawful(r')
  {
    hide Shape, CommittedHop, Produced, FromHistory;
    assert r.history[|r.commits|] == r.tables.saga;
  }

  lemma ActLawful(rollback: bool, tx: TxId, r: Race, m: Move)
    requires Linked(r) && Lawful(r) && Plausible(r, m)
    ensures Linked(Act(rollback, tx, r, m)) && Lawful(Act(rollback, tx, r, m))
  {
    ActLinked(rollback, tx, r, m);
    if Holding(r, m).Some? {
      HeldIsShaped(r, m);
      var snap := Holding(r, m).value;
      if m.Succeed? {
        SuccessLawful(rollback, tx, r.tables, snap, m);
      } else {
        OtherLawful(rollback, tx, r.tables, snap, m);
      }
      ActSavesFrom(rollback, tx, r, m);
      hide CommitSuccess, CommitParked, CommitConfirmed, CommitCascade, Produced, CommittedHop, Shape, Fits;
      var r' := Act(rollback, tx, r, m);
      if r'.tables.saga != r.tables.saga {
        CurrentVersionIsCurrentRow(r, snap.saga);
        LawfulExtended(r, r', m);
      }
    } else {
      hide CommitSuccess, CommitParked, CommitConfirmed, CommitCascade, Shape, CommittedHop, Produced, Linked,
           FromHistory;
    }
  }

  /** Version checks alone keep a race legal but for one kind of commit. Whatever plausible moves
      race, every committed row is well shaped and every hop is legal, except the end of a cascade
      over a row that was terminal already. */
  lemma {:induction false} RacesStayLawful(rollback: bool, tx: TxId, r: Race, moves: seq<Move>)
    requires Linked(r) && Lawful(r) && PlausibleRun(rollback, tx, r, moves)
    ensures var r' := Exec(rollback, tx, r, moves);
            Linked(r') && Lawful(r')
    decreases |moves|
  {
    hide Linked, Lawful, Act, Plausible;
    if moves != [] {
      ActLawful(rollback, tx, r, moves[0]);
      RacesStayLawful(rollback, tx, Act(rollback, tx, r, moves[0]), moves[1..]);
    }
  }

  lemma StartLawful(t: Tables)
    requires Shape(t.saga)
    ensures Linked(Race(t, map[], [t.saga], [])) && Lawful(Race(t, map[], [t.saga], []))
  {
  }

  lemma {:induction false} ExecAppend(rollback: bool, tx: TxId, r: Race, a: seq<Move>, b: seq<Move>)
    ensures Exec(rollback, tx, r, a + b) == Exec(rollback, tx, Exec(rollback, tx, r, a), b)
    decreases |a|
  {
    hide Act;
    if a == [] {
      assert a + b == b;
    } else {
      assert (a + b)[1..] == a[1..] + b;
      ExecAppend(rollback, tx, Act(rollback, tx, r, a[0]), a[1..], b);
    }
  }

  lemma ExecTwo(rollback: bool, tx: TxId, r: Race, a: Move, b: Move)
    ensures Exec(rollback, tx, r, [a, b]) == Act(rollback, tx, Act(rollback, tx, r, a), b)
  {
    hide Act;
    assert [a, b][1..] == [b];
    assert Exec(rollback, tx, Act(rollback, tx, r, a), [b]) == Act(rollback, tx, Act(rollback, tx, r, a), b);
  }

  lemma LoadsBoth(rollback: bool, tx: TxId, r: Race, a: nat)
    ensures Exec(rollback, tx, r, [LoadTx(a), LoadSaga(a)]) ==
            r.(held := r.held[a := Held(Some(r.tables.saga), Some(r.tables.txn))])
  {
    ExecTwo(rollback, tx, r, LoadTx(a), LoadSaga(a));
  }

  /** The exception does occur: a cascade that loads its rows after another run completed the
      purchase turns COMPLETED into FAILED_COMPENSATED. */
  lemma LateCascadeReopens(rollback: bool, tx: TxId, t: Tables, id: EventId)
    requires t.saga.state == Completed
    ensures var r' := Exec(rollback, tx, Race(t, map[], [t.saga], []),
            [LoadTx(1), LoadSaga(1), EndCascade(1, true, id)]);
            r'.history == [t.saga, CascadedSaga(t.saga, FailedCompensated)] && r'.tables.saga.state == FailedCompensated
  {
    var r0, m := Race(t, map[], [t.saga], []), EndCascade(1, true, id);
    assert [LoadTx(1), LoadSaga(1), m] == [LoadTx(1), LoadSaga(1)] + [m];
    ExecAppend(rollback, tx, r0, [LoadTx(1), LoadSaga(1)], [m]);
    LoadsBoth(rollback, tx, r0, 1);
    var r1 := Exec(rollback, tx, r0, [LoadTx(1), LoadSaga(1)]);
    assert Exec(rollback, tx, r1, [m]) == Act(rollback, tx, r1, m);
    hide Exec, KeyTaken;
  }

  /** Lockstep needs single flight. A parking commit ignores the store's errors, so from stale rows
      it keeps the three tables in lockstep exactly when all three writes go through or none does. */
  lemma ParkLockstepIff(rollback: bool, tx: TxId, t: Tables, snap: Snapshot, step: Step, attempt: nat,
                        state: State, merge: Payload, id: EventId)
    requires Lockstep(tx, t)
    ensures var t' := CommitParked(rollback, tx, t, snap, step, attempt, state, merge, id).tables;
            var saved, updated := snap.saga.version == t.saga.version, snap.txn.version == t.txn.version;
            var appended := !KeyTaken(t.outbox, NewEvent(id, tx, TxEnded(state), Some(step), attempt).dedupKey);
            Lockstep(tx, t') <==> (Transition(snap.saga.state, state) ==> saved == updated == appended)
  {
    var e := NewEvent(id, tx, TxEnded(state), Some(step), attempt);
    hide KeyTaken, DedupKey;
    EventCountAppend(t.outbox, e, tx);
  }

  lemma CascadeLockstepIff(tx: TxId, t: Tables, sg: SagaRow, txn: TxRow, target: State, id: EventId)
    requires Lockstep(tx, t)
    ensures var t' := CommitCascade(tx, t, sg, txn, target, id);
            var saved, updated := sg.version == t.saga.version, txn.version == t.txn.version;
            var appended := !KeyTaken(t.outbox, NewEvent(id, tx, TxEnded(target), None, 0).dedupKey);
            Lockstep(tx, t') <==> saved == updated == appended
  {
    var e := NewEvent(id, tx, TxEnded(target), None, 0);
    hide KeyTaken, DedupKey;
    EventCountAppend(t.outbox, e, tx);
  }

  /** A success commit stops at the first error. It breaks lockstep exactly when the saga row was
      saved and then either the transaction row was stale on a store that does not roll back, or
      the event was refused. */
  lemma SuccessLockstepIff(rollback: bool, tx: TxId, t: Tables, snap: Snapshot, step: Step, attempt: nat,
                           state: State, merge: Payload, id: EventId)
    requires Lockstep(tx, t)
    ensures var t' := CommitSuccess(rollback, tx, t, snap, step, attempt, state, merge, id).tables;
            var reached := RowKey(step, attempt) in t.rows
                           && ValidPath(snap.saga.state, state, NextSaga(snap.saga, step, state, merge).state);
            var saved, updated := snap.saga.version == t.saga.version, snap.txn.version == t.txn.version;
            var appended := !KeyTaken(t.outbox, StepDoneEvent(id, tx, step, attempt).dedupKey);
            Lockstep(tx, t') <==> (reached && saved ==> if updated then appended else rollback)
  {
    hide KeyTaken, DedupKey, ValidPath, NextSaga, EventName;
    NextVersion(snap.saga, step, state, merge);
    EventCountAppend(t.outbox, StepDoneEvent(id, tx, step, attempt), tx);
    hide EventCount;
  }

  lemma ConfirmLockstepIff(rollback: bool, tx: TxId, t: Tables, snap: Snapshot, id: EventId)
    requires Lockstep(tx, t)
    ensures var t' := CommitConfirmed(rollback, tx, t, snap.saga, snap.txn, id).tables;
            var saved, updated := snap.saga.version == t.saga.version, snap.txn.version == t.txn.version;
            var appended := !KeyTaken(t.outbox, NewEvent(id, tx, TxConfirmed, None, 0).dedupKey);
            Lockstep(tx, t') <==>
              (Transition(snap.saga.state, Confirmed) && saved ==> if updated then appended else rollback)
  {
    hide KeyTaken, DedupKey, EventName, Transition;
    EventCountAppend(t.outbox, NewEvent(id, tx, TxConfirmed, None, 0), tx);
    hide EventCount;
  }

  /** The first runner loads and commits the policy step; the second, which loaded the same rows
      before that, is then denied by policy. */
  function RacingMoves(id: EventId, id': EventId): seq<Move> {
    [LoadTx(1), LoadSaga(1)] + ([LoadTx(2), LoadSaga(2)]
    + [Succeed(1, Policy, 1, PolicyChecked, map[PolicyReason := Text("")], id),
       Park(2, Policy, 1, FailedCompensated, map[PolicyReason := Text("")], id')])
  }

  lemma HeldCommits(tx: TxId, r: Race, a: nat, snap: Snapshot, step: Step, attempt: nat, state: State, merge: Payload,
                    id: EventId)
    requires a in r.held && r.held[a] == Held(Some(snap.saga), Some(snap.txn))
    ensures var s := Act(true, tx, r, Succeed(a, step, attempt, state, merge, id));
            s.held == r.held
            && s.tables == CommitSuccess(true, tx, r.tables, snap, step, attempt, state, merge, id).tables
    ensures Act(true, tx, r, Park(a, step, attempt, state, merge, id)).tables
            == CommitParked(true, tx, r.tables, snap, step, attempt, state, merge, id).tables
  {
    hide CommitSuccess, CommitParked;
  }

  lemma PolicyCommits(tx: TxId, t: Tables, merge: Payload, id: EventId)
    requires Core(tx, t) && t.saga.state == Created && RowKey(Policy, 1) in t.rows
    requires merge == map[PolicyReason := Text("")]
    ensures var t1 := CommitSuccess(true, tx, t, Snapshot(t.txn, t.saga), Policy, 1, PolicyChecked, merge, id).tables;
            && PipeFree(tx) && Core(tx, t1) && Lockstep(tx, t1) && t1.saga.state == PolicyChecked
            && t1.saga.version == t.saga.version + 1 && t1.txn.version == t.txn.version + 1
  {
    assert t.saga.step == Policy;
    hide CommitSuccess;
    CommitSuccessExact(true, tx, t, Policy, 1, merge, id);
  }

  lemma StaleParkBreaksLockstep(tx: TxId, t: Tables, id: EventId, id': EventId)
    requires Core(tx, t) && t.saga.state == Created
    requires RowKey(Policy, 1) in t.rows
    ensures var merge: Payload := map[PolicyReason := Text("")];
            var snap := Snapshot(t.txn, t.saga);
            var t1 := CommitSuccess(true, tx, t, snap, Policy, 1, PolicyChecked, merge, id).tables;
            !Lockstep(tx, CommitParked(true, tx, t1, snap, Policy, 1, FailedCompensated, merge, id').tables)
  {
    hide CommitSuccess, CommitParked, Core, Lockstep, Fits, Shape, Committed, NextSaga, DedupKey, EventName;
    var merge: Payload := map[PolicyReason := Text("")];
    var snap := Snapshot(t.txn, t.saga);
    var t1 := CommitSuccess(true, tx, t, snap, Policy, 1, PolicyChecked, merge, id).tables;
    PolicyCommits(tx, t, merge, id);
    FreshEventAccepted(tx, t1, NewEvent(id', tx, TxEnded(FailedCompensated), Some(Policy), 1));
    ParkLockstepIff(true, tx, t1, snap, Policy, 1, FailedCompensated, merge, id');
  }

  /** Two runners racing on a new transaction do break lockstep: the refused saga's final event is
      appended although neither row changed. */
  lemma RacingRunnersBreakLockstep(tx: TxId, t: Tables, id: EventId, id': EventId)
    requires Core(tx, t) && t.saga.state == Created
    requires RowKey(Policy, 1) in t.rows
    ensures !Lockstep(tx, Exec(true, tx, Race(t, map[], [t.saga], []), RacingMoves(id, id')).tables)
  {
    hide Core, Lockstep, CommitSuccess, CommitParked, Exec, Act;
    var merge: Payload := map[PolicyReason := Text("")];
    var snap := Snapshot(t.txn, t.saga);
    var m1, m2 := Succeed(1, Policy, 1, PolicyChecked, merge, id), Park(2, Policy, 1, FailedCompensated, merge, id');
    var h := Held(Some(t.saga), Some(t.txn));
    var r0, r1, r2 := Race(t, map[], [t.saga], []), Race(t, map[1 := h], [t.saga], []),
      Race(t, map[1 := h, 2 := h], [t.saga], []);
    LoadsBoth(true, tx, r0, 1);
    LoadsBoth(true, tx, r1, 2);
    assert r0.held[1 := h] == r1.held && r1.held[2 := h] == r2.held;
    StaleParkBreaksLockstep(tx, t, id, id');
    HeldCommits(tx, r2, 1, snap, Policy, 1, PolicyChecked, merge, id);
    HeldCommits(tx, Act(true, tx, r2, m1), 2, snap, Policy, 1, FailedCompensated, merge, id');
    ExecAppend(true, tx, r0, [LoadTx(1), LoadSaga(1)], [LoadTx(2), LoadSaga(2)] + [m1, m2]);
    ExecAppend(true, tx, r1, [LoadTx(2), LoadSaga(2)], [m1, m2]);
    ExecTwo(true, tx, r2, m1, m2);
  }
}
