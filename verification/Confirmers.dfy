/** Any number of inline pollers and ConfirmPollers racing on one broadcast saga. Every store call
    is an action of its own, as it is under the in-memory store's lock, so confirmers interleave
    inside each other's commits. */
module Confirmers {
  import opened Options
  import opened StateMachine
  import opened Dedup
  import opened Store
  import opened Commits
  import opened Invariants

  /** How far a confirmer has come: it loads the saga first and the transaction row after, saves,
      updates, appends. */
  datatype Stage =
    | Starting
    | HasSaga(sg: SagaRow)
    | HasBoth(sg: SagaRow, txn: TxRow)
    | SagaSaved(txn: TxRow)
    | StatusUpdated
    | Done

  datatype Action =
    | LoadSaga(agent: nat)
    | LoadTx(agent: nat)
    | Save(agent: nat)
    | UpdateTx(agent: nat)
    | Append(agent: nat, id: EventId)
    | Quit(agent: nat)

  datatype Pollers = Pollers(tables: Tables, stages: map<nat, Stage>)

  function StageOf(p: Pollers, agent: nat): Stage {
    if agent in p.stages then p.stages[agent] else Starting
  }

  function To(p: Pollers, agent: nat, t: Tables, s: Stage): Pollers {
    Pollers(t, p.stages[agent := s])
  }

  /** A confirmer may reload the saga while it polls, and may give up while it holds no commit. */
  function Act(tx: TxId, p: Pollers, a: Action): Pollers {
    match a
    case LoadSaga(i) =>
      if StageOf(p, i).Starting? || StageOf(p, i).HasSaga? then To(p, i, p.tables, HasSaga(p.tables.saga)) else p
    case LoadTx(i) =>
      if StageOf(p, i).HasSaga? then To(p, i, p.tables, HasBoth(StageOf(p, i).sg, p.tables.txn)) else p
    case Save(i) =>
      if !StageOf(p, i).HasBoth? then p
      else
        var s := StageOf(p, i);
        if !Transition(s.sg.state, Confirmed) then To(p, i, p.tables, Done)
        else
          var w := SaveSagaState(p.tables, ConfirmedSaga(s.sg));
          To(p, i, w.tables, if w.ok then SagaSaved(s.txn) else Done)
    case UpdateTx(i) =>
      if !StageOf(p, i).SagaSaved? then p
      else
        var w := UpdateTransactionStatus(p.tables, Confirmed, StageOf(p, i).txn.version);
        To(p, i, w.tables, if w.ok then StatusUpdated else Done)
    case Append(i, id) =>
      if !StageOf(p, i).StatusUpdated? then p
      else To(p, i, AppendOutbox(p.tables, NewEvent(id, tx, TxConfirmed, None, 0)), Done)
    case Quit(i) =>
      if StageOf(p, i).SagaSaved? || StageOf(p, i).StatusUpdated? then p else To(p, i, p.tables, Done)
  }

  function Exec(tx: TxId, p: Pollers, actions: seq<Action>): Pollers
    decreases |actions|
  {
    if actions == [] then p else Exec(tx, Act(tx, p, actions[0]), actions[1..])
  }

  /** The tables after the first write, after the second, and after a whole commit. */
  function SavedTables(t0: Tables): Tables {
    t0.(saga := ConfirmedSaga(t0.saga))
  }

  function UpdatedTables(t0: Tables): Tables {
    SavedTables(t0).(txn := TxRow(Confirmed, t0.txn.version + 1))
  }

  function ConfirmedTables(tx: TxId, t0: Tables, id: EventId): Tables {
    UpdatedTables(t0).(outbox := t0.outbox + [NewEvent(id, tx, TxConfirmed, None, 0)])
  }

  /** How much of one commit the tables hold, and which confirmer is in the middle of it. */
  datatype Phase = Untouched | Half(agent: nat) | Nearly(agent: nat) | Complete(id: EventId)

  function TablesAt(tx: TxId, t0: Tables, phase: Phase): Tables {
    match phase
    case Untouched => t0
    case Half(_) => SavedTables(t0)
    case Nearly(_) => UpdatedTables(t0)
    case Complete(id) => ConfirmedTables(tx, t0, id)
  }

  /** The sandwich: a confirmer that holds the broadcast row while nothing is committed loaded its
      transaction row in between, so that row is the committed one too. */
  ghost predicate StageFits(t0: Tables, phase: Phase, agent: nat, s: Stage) {
    match s
    case Starting => true
    case Done => true
    case HasSaga(sg) => sg == t0.saga || (sg == ConfirmedSaga(t0.saga) && phase != Untouched)
    case HasBoth(sg, txn) =>
      && (sg == t0.saga || (sg == ConfirmedSaga(t0.saga) && phase != Untouched))
      && (phase == Untouched ==> txn == t0.txn)
    case SagaSaved(txn) => phase == Half(agent) && txn == t0.txn
    case StatusUpdated => phase == Nearly(agent)
  }

  ghost predicate Fits(tx: TxId, t0: Tables, p: Pollers, phase: Phase) {
    && p.tables == TablesAt(tx, t0, phase)
    && (phase.Half? ==> StageOf(p, phase.agent).SagaSaved?)
    && (phase.Nearly? ==> StageOf(p, phase.agent).StatusUpdated?)
    && forall a :: a in p.stages ==> StageFits(t0, phase, a, p.stages[a])
  }

  function NextPhase(t0: Tables, p: Pollers, phase: Phase, a: Action): Phase {
    match a
    case Save(i) =>
      if StageOf(p, i).HasBoth? && StageOf(p, i).sg == t0.saga && phase.Untouched? then Half(i) else phase
    case UpdateTx(i) => if StageOf(p, i).SagaSaved? then Nearly(i) else phase
    case Append(i, id) => if StageOf(p, i).StatusUpdated? then Complete(id) else phase
    case _ => phase
  }

  lemma AppendFits(tx: TxId, t0: Tables, p: Pollers, phase: Phase, i: nat, id: EventId)
    requires Core(tx, t0) && t0.saga.state == Broadcasted && Fits(tx, t0, p, phase)
    ensures Fits(tx, t0, Act(tx, p, Append(i, id)), NextPhase(t0, p, phase, Append(i, id)))
  {
    FreshEventAccepted(tx, t0, NewEvent(id, tx, TxConfirmed, None, 0));
    hide Core, NewEvent, KeyTaken;
  }

  lemma ActFits(tx: TxId, t0: Tables, p: Pollers, phase: Phase, a: Action)
    requires Core(tx, t0) && t0.saga.state == Broadcasted && Fits(tx, t0, p, phase)
    ensures Fits(tx, t0, Act(tx, p, a), NextPhase(t0, p, phase, a))
  {
    if a.Append? {
      AppendFits(tx, t0, p, phase, a.agent, a.id);
    } else {
      hide Core, NewEvent, KeyTaken;
      assert Fits(tx, t0, Act(tx, p, a), NextPhase(t0, p, phase, a));
    }
  }

  lemma {:induction false} ExecFits(tx: TxId, t0: Tables, p: Pollers, phase: Phase, actions: seq<Action>)
    returns (end: Phase)
    requires Core(tx, t0) && t0.saga.state == Broadcasted && Fits(tx, t0, p, phase)
    ensures Fits(tx, t0, Exec(tx, p, actions), end)
    decreases |actions|
  {
    hide Core, Fits, Act;
    end := phase;
    if actions != [] {
      ActFits(tx, t0, p, phase, actions[0]);
      end := ExecFits(tx, t0, Act(tx, p, actions[0]), NextPhase(t0, p, phase, actions[0]), actions[1..]);
    }
  }

  predicate AtRest(p: Pollers) {
    forall a :: a in p.stages ==> !p.stages[a].SagaSaved? && !p.stages[a].StatusUpdated?
  }

  function ConfirmedEvents(outbox: seq<OutboxEvent>, tx: TxId): nat {
    if outbox == [] then 0
    else
      var e := outbox[|outbox| - 1];
      ConfirmedEvents(outbox[..|outbox| - 1], tx) + (if e.txId == tx && e.eventType == TxConfirmed then 1 else 0)
  }

  lemma {:induction false} NoConfirmedYet(outbox: seq<OutboxEvent>, tx: TxId)
    requires forall e :: e in outbox && e.txId == tx ==> e.eventType != TxConfirmed
    ensures ConfirmedEvents(outbox, tx) == 0
  {
    if outbox != [] {
      NoConfirmedYet(outbox[..|outbox| - 1], tx);
    }
  }

  lemma NotYetConfirmed(tx: TxId, t0: Tables)
    requires Core(tx, t0) && t0.saga.state == Broadcasted
    ensures ConfirmedEvents(t0.outbox, tx) == 0
  {
    forall e | e in t0.outbox && e.txId == tx ensures e.eventType != TxConfirmed {
      assert EventRank(e.eventType) <= Rank(Broadcasted);
    }
    hide Core;
    NoConfirmedYet(t0.outbox, tx);
  }

  lemma WholeCommit(tx: TxId, t0: Tables, id: EventId)
    requires Core(tx, t0) && t0.saga.state == Broadcasted && ConfirmedEvents(t0.outbox, tx) == 0
    ensures Core(tx, ConfirmedTables(tx, t0, id))
    ensures ConfirmedEvents(ConfirmedTables(tx, t0, id).outbox, tx) == 1
  {
    CommitConfirmedExact(true, tx, t0, id);
    FreshEventAccepted(tx, t0, NewEvent(id, tx, TxConfirmed, None, 0));
    assert CommitConfirmed(true, tx, t0, t0.saga, t0.txn, id).tables == ConfirmedTables(tx, t0, id);
    var t := ConfirmedTables(tx, t0, id);
    assert t.outbox[..|t0.outbox|] == t0.outbox;
  }

  /** Confirmed at most once. However many confirmers race and however their store calls interleave,
      when none is inside a commit the tables are the initial ones or those with exactly one commit:
      the losers left no trace, the three tables are in lockstep and there is one confirmed event. */
  lemma ConfirmedAtMostOnce(tx: TxId, t0: Tables, actions: seq<Action>)
    requires Core(tx, t0) && t0.saga.state == Broadcasted
    requires AtRest(Exec(tx, Pollers(t0, map[]), actions))
    ensures var t := Exec(tx, Pollers(t0, map[]), actions).tables;
            && Core(tx, t)
            && (t == t0 || exists id :: t == ConfirmedTables(tx, t0, id))
            && ConfirmedEvents(t.outbox, tx) == (if t == t0 then 0 else 1)
  {
    hide Core, Exec, ConfirmedEvents;
    var phase := ExecFits(tx, t0, Pollers(t0, map[]), Untouched, actions);
    NotYetConfirmed(tx, t0);
    if phase.Complete? {
      WholeCommit(tx, t0, phase.id);
    }
  }
}
