/** Any number of flights of one saga at the same time: runs of several workers or processes,
    manual compensations and confirmation pollers, each with the rows it loaded, over one store.
    Every store transaction, load and partner call is an action; any flight may crash. */
module Flights {
  import opened Options
  import opened StateMachine
  import opened Store
  import opened Partners
  import opened Steps
  import opened Commits
  import opened ExecutorSpec
  import opened Invariants
  import M = CrashMachine
  import T = CrashTheorems
  import R = Races

  /** What a flight is about to do. Between giving up a step and loading the rows for its cascade it
      is pending; `refunded` says that its cascade has had a refund go through. */
  datatype Flight = Flight(pc: M.Pc, pending: Option<Step>, refunded: bool)

  const GROUNDED := Flight(M.Idle, None, false)

  /** The flights over the shared world, the committed saga rows, what crashes cut off from its
      commit, what a commit refused to record, and the refunds a commit did record. */
  datatype Sky = Sky(flights: map<nat, Flight>, world: World, history: seq<SagaRow>,
                     lost: M.Tally, refused: M.Tally, settled: nat)

  datatype Action =
    | StartRun(flight: nat)
    | StartPoll(flight: nat)
    | CheckCompensation(flight: nat)
    | StartCascade(flight: nat)
    | Tear(flight: nat, txn: TxRow)
    | Go(flight: nat)
    | Crash(flight: nat)

  function FlightOf(s: Sky, f: nat): Flight {
    if f in s.flights then s.flights[f] else GROUNDED
  }

  /** The same rows but another transaction row: two loads are no transaction, and anything may be
      committed in between. */
  function WithTxn(pc: M.Pc, txn: TxRow): M.Pc {
    match pc
    case Idle => pc
    case AtBegin(step, attempt, snap) => M.AtBegin(step, attempt, snap.(txn := txn))
    case AtCall(step, attempt, snap) => M.AtCall(step, attempt, snap.(txn := txn))
    case AtCapture(attempt, snap, id) => M.AtCapture(attempt, snap.(txn := txn), id)
    case AtVoid(attempt, snap, id, hard) => M.AtVoid(attempt, snap.(txn := txn), id, hard)
    case AtCommit(step, attempt, snap, outcome) => M.AtCommit(step, attempt, snap.(txn := txn), outcome)
    case AtWait(step, attempt, snap) => M.AtWait(step, attempt, snap.(txn := txn))
    case AtPoll(_, _) => pc
    case AtConfirm(sg, _) => M.AtConfirm(sg, txn)
    case AtCascade(sg, _, i) => M.AtCascade(sg, txn, i)
    case AtUndo(sg, _, i) => M.AtUndo(sg, txn, i)
    case AtMark(sg, _, i, ok) => M.AtMark(sg, txn, i, ok)
    case AtPark(sg, _, ok) => M.AtPark(sg, txn, ok)
  }

  /** A flight that is done with a step, or gives it up, looks at the store again in an action of
      its own; until then it holds nothing. */
  function Next(pc: M.Pc, n: M.Pc, refunded: bool): Flight {
    if n.AtCascade? && (pc.AtBegin? || pc.AtCommit? || pc.AtWait?) then Flight(M.Idle, Some(pc.step), false)
    else if (n.AtBegin? && !pc.AtWait?) || (n.AtPoll? && !pc.AtPoll?) then GROUNDED
    else Flight(n, None, refunded)
  }

  /** What a flight has brought about and not recorded, added to a tally. */
  function Add(t: M.Tally, fl: Flight, refunds: bool): M.Tally {
    M.Tally(t.captures + M.One(M.AboutToRecord(fl.pc, Payment)),
            t.broadcasts + M.One(M.AboutToRecord(fl.pc, Broadcast)),
            t.refunds + M.One(refunds && fl.refunded))
  }

  function Gone(env: Env, s: Sky, f: nat): Sky {
    var fl := FlightOf(s, f);
    var n := M.GoNext(env, fl.pc, s.world);
    var saved := n.world.tables.saga != s.world.tables.saga;
    var refunded := !fl.pc.AtPark? && (fl.refunded || |n.world.fx.refunds| > |s.world.fx.refunds|);
    Sky(s.flights[f := Next(fl.pc, n.pc, refunded)], n.world,
        M.Extended(s.history, s.world.tables.saga, n.world.tables.saga), s.lost,
        if saved then s.refused else Add(s.refused, fl, fl.pc.AtPark?),
        s.settled + M.One(saved && fl.pc.AtPark? && fl.refunded))
  }

  function Act(env: Env, s: Sky, a: Action): Sky {
    var fl := FlightOf(s, a.flight);
    var resting := fl.pc.Idle? && fl.pending.None?;
    match a
    case StartRun(f) => if resting then s.(flights := s.flights[f := Flight(M.Load(s.world), None, false)]) else s
    case StartPoll(f) =>
      var sg := s.world.tables.saga;
      if resting && TextOf(sg.payload, TxHash) != "" then
        s.(flights := s.flights[f := Flight(M.AtPoll(sg, env.o.polls(s.world.fx.clock)), None, false)])
      else s
    case CheckCompensation(f) =>
      if resting && !s.world.tables.saga.state.Terminal() then
        s.(flights := s.flights[f := Flight(M.Idle, Some(s.world.tables.saga.step), false)])
      else s
    case StartCascade(f) =>
      if fl.pc.Idle? && fl.pending.Some? then
        s.(flights := s.flights[f := Flight(M.StartCascade(s.world, fl.pending.value), None, false)])
      else s
    case Tear(f, txn) => s.(flights := s.flights[f := fl.(pc := WithTxn(fl.pc, txn))])
    case Go(f) => Gone(env, s, f)
    case Crash(f) => s.(flights := s.flights[f := GROUNDED], lost := Add(s.lost, fl, true))
  }

  function Exec(env: Env, s: Sky, actions: seq<Action>): Sky
    decreases |actions|
  {
    if actions == [] then s else Exec(env, Act(env, s, actions[0]), actions[1..])
  }

  /** What a flight can have in hand: a call that went through and awaits its commit. */
  datatype Duty = Capturing | Broadcasting | Refunding

  predicate On(duty: Duty, fl: Flight) {
    match duty
    case Capturing => M.AboutToRecord(fl.pc, Payment)
    case Broadcasting => M.AboutToRecord(fl.pc, Broadcast)
    case Refunding => fl.refunded
  }

  function OnDuty(flights: map<nat, Flight>, duty: Duty): set<nat> {
    set f | f in flights && On(duty, flights[f])
  }

  function InHand(flights: map<nat, Flight>, duty: Duty): nat {
    |OnDuty(flights, duty)|
  }

  lemma WithoutOne(a: set<nat>, f: nat)
    ensures |a| == |a - {f}| + M.One(f in a)
  {
    if f in a {
      assert a == (a - {f}) + {f};
    } else {
      assert a == a - {f};
    }
  }

  lemma InHandUpdate(flights: map<nat, Flight>, f: nat, fl: Flight, duty: Duty)
    ensures InHand(flights[f := fl], duty) + M.One(f in flights && On(duty, flights[f]))
            == InHand(flights, duty) + M.One(On(duty, fl))
  {
    hide On;
    var flights' := flights[f := fl];
    var before, after := OnDuty(flights, duty), OnDuty(flights', duty);
    forall g ensures g in before - {f} <==> g in after - {f} {
      assert g != f ==> (g in flights' <==> g in flights);
    }
    assert before - {f} == after - {f};
    WithoutOne(before, f);
    WithoutOne(after, f);
  }

  /** The capture and the hash once recorded stay as they are. */
  predicate KeepsIds(a: SagaRow, b: SagaRow) {
    && (CaptureId in a.payload ==> CaptureId in b.payload && b.payload[CaptureId] == a.payload[CaptureId])
    && (TxHash in a.payload ==> TxHash in b.payload && b.payload[TxHash] == a.payload[TxHash])
  }

  ghost predicate Chained(history: seq<SagaRow>) {
    && (forall i :: 0 <= i < |history| ==> Shape(history[i]))
    && forall i :: 0 < i < |history| ==>
         history[i].version == history[i - 1].version + 1 && KeepsIds(history[i - 1], history[i])
  }

  predicate From(history: seq<SagaRow>, sg: SagaRow) {
    exists i :: 0 <= i < |history| && history[i] == sg
  }

  /** The saga row a flight holds. */
  function Holds(pc: M.Pc): Option<SagaRow> {
    match pc
    case Idle => None
    case AtBegin(_, _, snap) => Some(snap.saga)
    case AtCall(_, _, snap) => Some(snap.saga)
    case AtCapture(_, snap, _) => Some(snap.saga)
    case AtVoid(_, snap, _, _) => Some(snap.saga)
    case AtCommit(_, _, snap, _) => Some(snap.saga)
    case AtWait(_, _, snap) => Some(snap.saga)
    case AtPoll(sg, _) => Some(sg)
    case AtConfirm(sg, _) => Some(sg)
    case AtCascade(sg, _, _) => Some(sg)
    case AtUndo(sg, _, _) => Some(sg)
    case AtMark(sg, _, _, _) => Some(sg)
    case AtPark(sg, _, _) => Some(sg)
  }

  /** A flight works on the step its rows rest on, whatever has been committed since, and an outcome
      it holds is one that step can have. */
  ghost predicate PcFits(pc: M.Pc) {
    match pc
    case AtBegin(step, _, snap) => StepFrom(snap.saga.state) == Some(step)
    case AtCall(step, _, snap) => StepFrom(snap.saga.state) == Some(step)
    case AtCapture(_, snap, _) => StepFrom(snap.saga.state) == Some(Payment)
    case AtVoid(_, snap, _, _) => StepFrom(snap.saga.state) == Some(Payment)
    case AtCommit(step, _, snap, outcome) => StepFrom(snap.saga.state) == Some(step) && M.OutcomeFits(step, outcome)
    case AtWait(step, _, snap) => StepFrom(snap.saga.state) == Some(step)
    case AtCascade(_, _, i) => i < |STEP_ORDER|
    case AtUndo(_, _, i) => i < |STEP_ORDER|
    case AtMark(_, _, i, ok) => i < |STEP_ORDER| && (ok || i == Position(Payment))
    case _ => true
  }

  ghost predicate FlightFits(history: seq<SagaRow>, captures: seq<string>, fl: Flight) {
    && PcFits(fl.pc)
    && (Holds(fl.pc).Some? ==> From(history, Holds(fl.pc).value))
    && (fl.refunded ==> M.PastRefund(fl.pc))
    && (M.AboutToRecord(fl.pc, Payment) ==> TextOf(fl.pc.outcome.merge, CaptureId) in captures)
  }

  /** Every capture, broadcast and refund that went through is recorded, in some flight's hand, lost
      to a crash, or refused by a commit from rows that were not current any more. */
  predicate Accounted(s: Sky) {
    var sg, fx := s.world.tables.saga, s.world.fx;
    && |fx.captures| ==
       M.One(CaptureId in sg.payload) + InHand(s.flights, Capturing) + s.lost.captures + s.refused.captures
    && |fx.broadcasts| ==
       M.One(TxHash in sg.payload) + InHand(s.flights, Broadcasting) + s.lost.broadcasts + s.refused.broadcasts
    && |fx.refunds| == s.settled + InHand(s.flights, Refunding) + s.lost.refunds + s.refused.refunds
  }

  /** Every refund is of the recorded capture, which is one of those that went through. */
  predicate RefundsOwn(s: Sky) {
    var sg, fx := s.world.tables.saga, s.world.fx;
    && (forall id :: id in fx.refunds ==> id == TextOf(sg.payload, CaptureId) && id != "")
    && (CaptureId in sg.payload ==> TextOf(sg.payload, CaptureId) in fx.captures)
  }

  ghost predicate Aloft(s: Sky) {
    && |s.history| > 0 && s.history[|s.history| - 1] == s.world.tables.saga
    && Chained(s.history)
    && (forall f :: f in s.flights ==> FlightFits(s.history, s.world.fx.captures, s.flights[f]))
    && Accounted(s) && RefundsOwn(s)
  }

  lemma {:induction false} ChainedTo(history: seq<SagaRow>, i: nat, j: nat)
    requires Chained(history) && i <= j < |history|
    ensures history[j].version == history[i].version + (j - i) && KeepsIds(history[i], history[j])
    decreases j
  {
    hide Shape;
    if i < j {
      ChainedTo(history, i, j - 1);
    }
  }

  /** What a held row still says of the current one: the same ids, and all of it if its version is
      still current. */
  lemma HeldRow(s: Sky, sg: SagaRow)
    requires Aloft(s) && From(s.history, sg)
    ensures Shape(sg) && KeepsIds(sg, s.world.tables.saga)
    ensures sg.version == s.world.tables.saga.version ==> sg == s.world.tables.saga
  {
    hide Shape, KeepsIds, FlightFits, Accounted, RefundsOwn;
    var i :| 0 <= i < |s.history| && s.history[i] == sg;
    ChainedTo(s.history, i, |s.history| - 1);
  }

  /** The commit a flight is about to make, as a move of the races. */
  function MoveOf(env: Env, pc: M.Pc, w: World): Option<R.Move> {
    var id := FreshId(env, w.tables);
    match pc
    case AtCommit(step, attempt, _, Success(state, merge)) => Some(R.Succeed(0, step, attempt, state, merge, id))
    case AtCommit(step, attempt, _, Parked(state, merge)) => Some(R.Park(0, step, attempt, state, merge, id))
    case AtConfirm(_, _) => Some(R.Confirm(0, id))
    case AtPark(_, _, ok) => Some(R.EndCascade(0, ok, id))
    case _ => None
  }

  lemma CommitSaves(env: Env, pc: M.Pc, w: World)
    requires PcFits(pc) && MoveOf(env, pc, w).Some? && Shape(Holds(pc).value)
    ensures var t, m := M.GoNext(env, pc, w).world.tables, MoveOf(env, pc, w).value;
            && R.SavesFrom(w.tables, Holds(pc).value, m, t)
            && (t.saga != w.tables.saga ==> Shape(R.Produced(m, Holds(pc).value)))
  {
    hide Shape, Fits, R.Produced, R.SavesFrom, CommitSuccess, CommitParked, CommitConfirmed, CommitCascade, M.Settle,
         M.Load;
    var m := MoveOf(env, pc, w).value;
    match pc
    case AtCommit(_, _, snap, Success(_, _)) =>
      R.SuccessSavesFrom(env.rollback, env.tx, w.tables, snap, m);
      R.SuccessLawful(env.rollback, env.tx, w.tables, snap, m);
    case AtCommit(_, _, snap, Parked(_, _)) =>
      R.ParkSavesFrom(env.rollback, env.tx, w.tables, snap, m);
      R.OtherLawful(env.rollback, env.tx, w.tables, snap, m);
    case AtConfirm(sg, txn) =>
      R.ConfirmSavesFrom(env.rollback, env.tx, w.tables, Snapshot(txn, sg), m);
      R.OtherLawful(env.rollback, env.tx, w.tables, Snapshot(txn, sg), m);
    case AtPark(sg, txn, _) =>
      R.CascadeSavesFrom(env.tx, w.tables, Snapshot(txn, sg), m);
      R.OtherLawful(env.rollback, env.tx, w.tables, Snapshot(txn, sg), m);
  }

  /** Only a commit changes the saga row, and only from the current row. */
  lemma GoSaves(env: Env, pc: M.Pc, w: World)
    requires PcFits(pc) && (Holds(pc).Some? ==> Shape(Holds(pc).value))
    ensures var w', m := M.GoNext(env, pc, w).world, MoveOf(env, pc, w);
            w'.tables.saga != w.tables.saga ==>
              && m.Some? && Holds(pc).Some? && Holds(pc).value.version == w.tables.saga.version
              && w'.tables.saga == R.Produced(m.value, Holds(pc).value)
              && w'.tables.saga.version == w.tables.saga.version + 1 && Shape(w'.tables.saga)
  {
    hide Shape, Fits, R.Produced, CommitSuccess, CommitParked, CommitConfirmed, CommitCascade, Execute, Compensate,
         M.Settle, M.Load;
    var m := MoveOf(env, pc, w);
    if m.Some? {
      CommitSaves(env, pc, w);
    }
  }

  /** A saga that rests before a step has not recorded what that step brings. */
  lemma Unrecorded(sg: SagaRow)
    requires Shape(sg)
    ensures StepFrom(sg.state) == Some(Policy) || StepFrom(sg.state) == Some(Payment) ==> CaptureId !in sg.payload
    ensures StepFrom(sg.state) == Some(Broadcast) ==> TxHash !in sg.payload
  {
    assert KeyRank(CaptureId).value == 2 && KeyRank(TxHash).value == 5;
  }

  lemma UndoRefunds(o: Oracle, fx: Effects, payload: Payload, step: Step)
    ensures var u := Compensate(o, fx, payload, step);
            u.fx.refunds == fx.refunds || (step == Payment && u.ok && TextOf(payload, CaptureId) != ""
                                           && u.fx.refunds == fx.refunds + [TextOf(payload, CaptureId)])
  {
  }

  /** What is counted of a call: the calls that went through before and after. */
  predicate SameCalls(fx: Effects, fx': Effects) {
    fx'.captures == fx.captures && fx'.broadcasts == fx.broadcasts && fx'.refunds == fx.refunds
  }

  lemma NoCall(env: Env, pc: M.Pc, w: World)
    requires !pc.AtCall? && !pc.AtCapture? && !pc.AtUndo?
    ensures var n := M.GoNext(env, pc, w);
            SameCalls(w.fx, n.world.fx) && !M.AboutToRecord(n.pc, Payment) && !M.AboutToRecord(n.pc, Broadcast)
  {
    hide CommitSuccess, CommitParked, CommitConfirmed, CommitCascade, BeginAttempt, UpdateStep;
  }

  lemma CallCalls(env: Env, pc: M.Pc, w: World)
    requires pc.AtCall? && PcFits(pc) && Shape(pc.snap.saga)
    ensures var n := M.GoNext(env, pc, w);
            && n.world.fx.captures == w.fx.captures && n.world.fx.refunds == w.fx.refunds
            && |n.world.fx.broadcasts| == |w.fx.broadcasts| + M.One(M.AboutToRecord(n.pc, Broadcast))
            && !M.AboutToRecord(n.pc, Payment)
  {
    Unrecorded(pc.snap.saga);
    if pc.step != Payment {
      T.CallEffects(env.o, w.fx, pc.snap.saga.payload, pc.step);
    }
    hide Execute, Shape;
  }

  /** The calls of one action: what it brings about it has in hand afterwards. */
  lemma GoCalls(env: Env, pc: M.Pc, w: World)
    requires PcFits(pc) && (Holds(pc).Some? ==> Shape(Holds(pc).value))
    ensures var n := M.GoNext(env, pc, w);
            && |n.world.fx.captures| == |w.fx.captures| + M.One(M.AboutToRecord(n.pc, Payment))
            && |n.world.fx.broadcasts| == |w.fx.broadcasts| + M.One(M.AboutToRecord(n.pc, Broadcast))
            && w.fx.captures <= n.world.fx.captures
            && (M.AboutToRecord(n.pc, Payment) ==> TextOf(n.pc.outcome.merge, CaptureId) in n.world.fx.captures)
            && (n.world.fx.refunds != w.fx.refunds ==>
                  && pc.AtUndo? && STEP_ORDER[pc.i] == Payment && TextOf(pc.sg.payload, CaptureId) != ""
                  && n.pc == M.AtMark(pc.sg, pc.txn, pc.i, true)
                  && n.world.fx.refunds == w.fx.refunds + [TextOf(pc.sg.payload, CaptureId)])
  {
    hide Shape, Execute, Compensate;
    if pc.AtCall? {
      CallCalls(env, pc, w);
      hide M.GoNext;
    } else if pc.AtUndo? {
      T.UndoEffects(env.o, w.fx, pc.sg.payload, STEP_ORDER[pc.i]);
      UndoRefunds(env.o, w.fx, pc.sg.payload, STEP_ORDER[pc.i]);
    } else if !pc.AtCapture? {
      NoCall(env, pc, w);
      hide M.GoNext;
    }
  }

  /** What a row has recorded after another: nothing is forgotten, and new is only what was brought. */
  predicate Records(sg: SagaRow, next: SagaRow, capture: bool, hash: bool) {
    && KeepsIds(sg, next)
    && (CaptureId in next.payload <==> CaptureId in sg.payload || capture) && (capture ==> CaptureId !in sg.payload)
    && (TxHash in next.payload <==> TxHash in sg.payload || hash) && (hash ==> TxHash !in sg.payload)
  }

  lemma SuccessRecords(sg: SagaRow, step: Step, state: State, merge: Payload)
    requires Shape(sg) && StepFrom(sg.state) == Some(step) && Fits(step, merge)
    ensures Records(sg, NextSaga(sg, step, state, merge), step == Payment, step == Broadcast)
    ensures step == Payment ==> TextOf(NextSaga(sg, step, state, merge).payload, CaptureId) == TextOf(merge, CaptureId)
  {
    assert KeyRank(CaptureId).value == 2 && KeyRank(TxHash).value == 5;
    assert CaptureId in merge <==> step == Payment;
    assert TxHash in merge <==> step == Broadcast;
    Unrecorded(sg);
    hide Shape, Fits;
  }

  lemma OthersRecord(sg: SagaRow, state: State, merge: Payload, ok: bool)
    ensures CaptureId !in merge && TxHash !in merge ==> Records(sg, ParkedSaga(sg, state, merge), false, false)
    ensures Records(sg, ConfirmedSaga(sg), false, false)
    ensures Records(sg, CascadedSaga(sg, CascadeTarget(ok)), false, false)
  {
  }

  /** A commit records the capture or the hash exactly if the flight had it in hand. */
  lemma ProducedIds(env: Env, pc: M.Pc, w: World)
    requires PcFits(pc) && MoveOf(env, pc, w).Some? && Shape(Holds(pc).value)
    ensures var sg, next := Holds(pc).value, R.Produced(MoveOf(env, pc, w).value, Holds(pc).value);
            && Records(sg, next, M.AboutToRecord(pc, Payment), M.AboutToRecord(pc, Broadcast))
            && (M.AboutToRecord(pc, Payment) ==> TextOf(next.payload, CaptureId) == TextOf(pc.outcome.merge, CaptureId))
  {
    hide Shape, Records, NextSaga, ParkedSaga, ConfirmedSaga, CascadedSaga, Fits, FreshId;
    match pc
    case AtCommit(step, _, snap, Success(state, merge)) => SuccessRecords(snap.saga, step, state, merge);
    case AtCommit(_, _, snap, Parked(state, merge)) => OthersRecord(snap.saga, state, merge, true);
    case AtConfirm(sg, _) => OthersRecord(sg, sg.state, map[], true);
    case AtPark(sg, _, ok) => OthersRecord(sg, sg.state, map[], ok);
  }

  lemma CallFits(o: Oracle, fx: Effects, payload: Payload, step: Step)
    ensures M.OutcomeFits(step, Execute(o, fx, payload, step).outcome)
  {
    ExecuteFits(o, fx, payload, step);
    hide Execute, Fits;
  }

  /** The flight goes on to `n` with the rows it held, or holds none. */
  ghost predicate Leads(pc: M.Pc, n: M.Pc, refunded: bool) {
    var fl := Next(pc, n, refunded);
    && PcFits(fl.pc) && (fl.pc.Idle? || Holds(fl.pc) == Holds(pc))
    && M.AboutToRecord(fl.pc, Payment) == M.AboutToRecord(n, Payment)
    && M.AboutToRecord(fl.pc, Broadcast) == M.AboutToRecord(n, Broadcast)
    && (fl.pc.Idle? || fl.pc == n)
  }

  lemma CallLeads(env: Env, pc: M.Pc, w: World, refunded: bool)
    requires PcFits(pc) && (pc.AtCall? || pc.AtCapture? || pc.AtVoid?)
    ensures Leads(pc, M.GoNext(env, pc, w).pc, refunded)
  {
    hide Fits, Execute;
    if pc.AtCall? {
      CallFits(env.o, w.fx, pc.snap.saga.payload, pc.step);
    } else {
      T.CaptureFits();
    }
  }

  lemma CommitLeads(env: Env, pc: M.Pc, w: World, refunded: bool)
    requires PcFits(pc) && (pc.AtBegin? || pc.AtCommit? || pc.AtWait?)
    ensures Leads(pc, M.GoNext(env, pc, w).pc, refunded)
  {
    hide CommitSuccess, CommitParked, BeginAttempt, UpdateStep, Fits, M.OutcomeFits;
  }

  /** Where one action leads a flight. */
  lemma GoFits(env: Env, pc: M.Pc, w: World, refunded: bool)
    requires PcFits(pc)
    ensures Leads(pc, M.GoNext(env, pc, w).pc, refunded)
  {
    hide CommitSuccess, CommitParked, CommitConfirmed, CommitCascade, BeginAttempt, UpdateStep, Fits, Compensate,
         Execute, M.OutcomeFits, M.GoCommit, M.GoCall, M.GoCapture;
    match pc
    case AtCall(_, _, _) => CallLeads(env, pc, w, refunded);
    case AtCapture(_, _, _) => CallLeads(env, pc, w, refunded);
    case AtVoid(_, _, _, _) => CallLeads(env, pc, w, refunded);
    case AtBegin(_, _, _) => CommitLeads(env, pc, w, refunded);
    case AtCommit(_, _, _, _) => CommitLeads(env, pc, w, refunded);
    case AtWait(_, _, _) => CommitLeads(env, pc, w, refunded);
    case AtUndo(sg, _, i) => T.UndoEffects(env.o, w.fx, sg.payload, STEP_ORDER[i]);
    case _ =>
  }

  /** A refund that went through stays in the flight's hand until its cascade ends. */
  lemma GoRefunds(env: Env, fl: Flight, w: World)
    requires PcFits(fl.pc) && (fl.refunded ==> M.PastRefund(fl.pc))
             && (Holds(fl.pc).Some? ==> Shape(Holds(fl.pc).value))
    ensures var n := M.GoNext(env, fl.pc, w);
            var grew := |n.world.fx.refunds| > |w.fx.refunds|;
            var refunded := !fl.pc.AtPark? && (fl.refunded || grew);
            && (refunded ==> M.PastRefund(Next(fl.pc, n.pc, refunded).pc) && Next(fl.pc, n.pc, refunded).refunded)
            && (!refunded ==> !Next(fl.pc, n.pc, refunded).refunded)
            && !(fl.refunded && grew) && (fl.pc.AtPark? ==> !grew)
            && |n.world.fx.refunds| == |w.fx.refunds| + M.One(grew)
  {
    GoCalls(env, fl.pc, w);
    if fl.refunded {
      if fl.pc.AtUndo? {
        T.UndoEffects(env.o, w.fx, fl.pc.sg.payload, STEP_ORDER[fl.pc.i]);
      }
      hide CommitCascade, Compensate, Shape;
    } else {
      hide M.GoNext, Shape;
    }
  }

  lemma FlightFitsOn(history: seq<SagaRow>, captures: seq<string>, history': seq<SagaRow>, captures': seq<string>,
                     fl: Flight)
    requires FlightFits(history, captures, fl) && history <= history' && captures <= captures'
    ensures FlightFits(history', captures', fl)
  {
    hide PcFits;
    if Holds(fl.pc).Some? {
      var i :| 0 <= i < |history| && history[i] == Holds(fl.pc).value;
      assert history'[i] == history[i];
    }
  }

  lemma RowAppended(history: seq<SagaRow>, sg: SagaRow, next: SagaRow)
    requires |history| > 0 && history[|history| - 1] == sg && Chained(history)
    requires next != sg ==> next.version == sg.version + 1 && KeepsIds(sg, next) && Shape(next)
    ensures var history' := M.Extended(history, sg, next);
            |history'| > 0 && history'[|history'| - 1] == next && Chained(history') && history <= history'
  {
    hide Shape, KeepsIds;
  }

  /** What the invariant says of one flight and of the history it rests on. */
  lemma FlightOfAloft(s: Sky, f: nat)
    requires Aloft(s) && f in s.flights
    ensures |s.history| > 0 && s.history[|s.history| - 1] == s.world.tables.saga && Chained(s.history)
    ensures var pc := s.flights[f].pc;
            && FlightFits(s.history, s.world.fx.captures, s.flights[f]) && PcFits(pc)
            && (Holds(pc).Some? ==>
                  && From(s.history, Holds(pc).value) && Shape(Holds(pc).value)
                  && KeepsIds(Holds(pc).value, s.world.tables.saga)
                  && (Holds(pc).value.version == s.world.tables.saga.version ==>
                        Holds(pc).value == s.world.tables.saga))
  {
    hide Shape, KeepsIds, Chained, Accounted, RefundsOwn, From;
    assert FlightFits(s.history, s.world.fx.captures, s.flights[f]);
    if Holds(s.flights[f].pc).Some? {
      HeldRow(s, Holds(s.flights[f].pc).value);
    }
  }

  /** How the saga row fares in one action of a flight: it stays, or what the flight holds is the
      current row and its commit follows it. */
  lemma GoRow(env: Env, s: Sky, f: nat)
    requires Aloft(s) && f in s.flights
    ensures var pc, s' := s.flights[f].pc, Gone(env, s, f);
            var sg, sg' := s.world.tables.saga, s'.world.tables.saga;
            && |s'.history| > 0 && s'.history[|s'.history| - 1] == sg' && Chained(s'.history) && s.history <= s'.history
            && Records(sg, sg', sg' != sg && M.AboutToRecord(pc, Payment), sg' != sg && M.AboutToRecord(pc, Broadcast))
            && (sg' != sg && M.AboutToRecord(pc, Payment) ==>
                  TextOf(sg'.payload, CaptureId) == TextOf(pc.outcome.merge, CaptureId))
  {
    hide Shape, PcFits, M.GoNext, R.Produced, Aloft, From, FlightFits, Chained, M.Extended, Next, Add, Holds, MoveOf;
    var pc := s.flights[f].pc;
    FlightOfAloft(s, f);
    GoSaves(env, pc, s.world);
    var next := M.GoNext(env, pc, s.world).world.tables.saga;
    if next != s.world.tables.saga {
      ProducedIds(env, pc, s.world);
    }
    RowAppended(s.history, s.world.tables.saga, next);
  }

  /** The calls of one flight's action and what it has in hand before and after. */
  lemma GoHands(env: Env, s: Sky, f: nat)
    requires Aloft(s) && f in s.flights
    ensures var fl, s' := s.flights[f], Gone(env, s, f);
            var fl', fx, fx' := s'.flights[f], s.world.fx, s'.world.fx;
            && |fx'.captures| == |fx.captures| + M.One(On(Capturing, fl'))
            && |fx'.broadcasts| == |fx.broadcasts| + M.One(On(Broadcasting, fl'))
            && |fx'.refunds| + M.One(On(Refunding, fl)) ==
               |fx.refunds| + M.One(On(Refunding, fl')) + M.One(fl.pc.AtPark? && fl.refunded)
  {
    hide Shape, PcFits, M.GoNext, M.PastRefund, Aloft, From, M.Extended, Chained, KeepsIds;
    var fl := s.flights[f];
    FlightOfAloft(s, f);
    var n := M.GoNext(env, fl.pc, s.world);
    GoCalls(env, fl.pc, s.world);
    GoRefunds(env, fl, s.world);
    GoFits(env, fl.pc, s.world, !fl.pc.AtPark? && (fl.refunded || |n.world.fx.refunds| > |s.world.fx.refunds|));
    hide Next, Holds;
  }

  /** Every action of a flight keeps the account. */
  lemma GoAccounted(env: Env, s: Sky, f: nat)
    requires Aloft(s) && f in s.flights
    ensures Accounted(Gone(env, s, f))
  {
    GoRow(env, s, f);
    GoHands(env, s, f);
    var s' := Gone(env, s, f);
    InHandUpdate(s.flights, f, s'.flights[f], Capturing);
    InHandUpdate(s.flights, f, s'.flights[f], Broadcasting);
    InHandUpdate(s.flights, f, s'.flights[f], Refunding);
    hide Shape, M.GoNext, InHand, Chained, FlightFits, RefundsOwn, KeepsIds, Next, M.Extended;
  }

  lemma IdsKept(fx: Effects, fx': Effects, sg: SagaRow, sg': SagaRow)
    requires KeepsIds(sg, sg') && fx.captures <= fx'.captures
    requires forall id :: id in fx.refunds ==> id == TextOf(sg.payload, CaptureId) && id != ""
    requires CaptureId in sg.payload ==> TextOf(sg.payload, CaptureId) in fx.captures
    requires CaptureId in sg'.payload && CaptureId !in sg.payload ==> TextOf(sg'.payload, CaptureId) in fx'.captures
    requires fx'.refunds == fx.refunds || (TextOf(sg'.payload, CaptureId) != ""
                                           && fx'.refunds == fx.refunds + [TextOf(sg'.payload, CaptureId)])
    ensures forall id :: id in fx'.refunds ==> id == TextOf(sg'.payload, CaptureId) && id != ""
    ensures CaptureId in sg'.payload ==> TextOf(sg'.payload, CaptureId) in fx'.captures
  {
  }

  lemma GoRefundsOwn(env: Env, s: Sky, f: nat)
    requires Aloft(s) && f in s.flights
    ensures RefundsOwn(Gone(env, s, f))
  {
    var fl := s.flights[f];
    assert FlightFits(s.history, s.world.fx.captures, fl);
    if Holds(fl.pc).Some? {
      HeldRow(s, Holds(fl.pc).value);
    }
    hide Shape, PcFits, M.GoNext, M.PastRefund, InHand, Chained, From, Accounted, Next, M.Extended;
    GoRow(env, s, f);
    GoCalls(env, fl.pc, s.world);
    hide FlightFits;
    IdsKept(s.world.fx, Gone(env, s, f).world.fx, s.world.tables.saga, Gone(env, s, f).world.tables.saga);
  }

  lemma FromGrows(history: seq<SagaRow>, history': seq<SagaRow>)
    requires history <= history'
    ensures forall sg :: From(history, sg) ==> From(history', sg)
  {
    forall sg | From(history, sg) ensures From(history', sg) {
      var i :| 0 <= i < |history| && history[i] == sg;
      assert history'[i] == sg;
    }
  }

  lemma GoFlightFits(env: Env, s: Sky, f: nat)
    requires Aloft(s) && f in s.flights
    ensures var s' := Gone(env, s, f); FlightFits(s'.history, s'.world.fx.captures, s'.flights[f])
  {
    var fl := s.flights[f];
    assert FlightFits(s.history, s.world.fx.captures, fl);
    if Holds(fl.pc).Some? {
      HeldRow(s, Holds(fl.pc).value);
    }
    hide Shape, PcFits, M.GoNext, M.PastRefund, InHand, Chained, Accounted, RefundsOwn, KeepsIds;
    GoRow(env, s, f);
    GoCalls(env, fl.pc, s.world);
    GoRefunds(env, fl, s.world);
    var n := M.GoNext(env, fl.pc, s.world);
    GoFits(env, fl.pc, s.world, !fl.pc.AtPark? && (fl.refunded || |n.world.fx.refunds| > |s.world.fx.refunds|));
    hide Next;
    FromGrows(s.history, Gone(env, s, f).history);
  }

  lemma OnlyOneMoves(env: Env, s: Sky, f: nat)
    ensures var s' := Gone(env, s, f);
            && s'.flights.Keys == s.flights.Keys + {f}
            && forall g :: g in s.flights && g != f ==> s'.flights[g] == s.flights[g]
  {
    hide Next, M.GoNext, Add;
  }

  lemma CapturesGrow(env: Env, s: Sky, f: nat)
    requires Aloft(s) && f in s.flights
    ensures s.world.fx.captures <= Gone(env, s, f).world.fx.captures
  {
    var fl := s.flights[f];
    assert FlightFits(s.history, s.world.fx.captures, fl);
    if Holds(fl.pc).Some? {
      HeldRow(s, Holds(fl.pc).value);
    }
    hide Aloft, Shape, M.GoNext, PcFits;
    GoCalls(env, fl.pc, s.world);
  }

  lemma GoAloft(env: Env, s: Sky, f: nat)
    requires Aloft(s) && f in s.flights
    ensures Aloft(Gone(env, s, f)) && s.history <= Gone(env, s, f).history
  {
    hide Gone, FlightFits, Chained, Accounted, RefundsOwn, Records;
    var s' := Gone(env, s, f);
    GoRow(env, s, f);
    GoAccounted(env, s, f);
    GoRefundsOwn(env, s, f);
    GoFlightFits(env, s, f);
    CapturesGrow(env, s, f);
    OnlyOneMoves(env, s, f);
    forall g | g in s'.flights ensures FlightFits(s'.history, s'.world.fx.captures, s'.flights[g]) {
      assert g in s.flights.Keys + {f};
      if g != f {
        FlightFitsOn(s.history, s.world.fx.captures, s'.history, s'.world.fx.captures, s.flights[g]);
      }
    }
  }

  lemma GroundedIdle()
    ensures !On(Capturing, GROUNDED) && !On(Broadcasting, GROUNDED) && !On(Refunding, GROUNDED)
  {
  }

  /** One flight is replaced; what it had in hand and has not any more is lost. */
  lemma SetAloft(s: Sky, f: nat, fl: Flight, lost: M.Tally)
    requires Aloft(s) && FlightFits(s.history, s.world.fx.captures, fl)
    requires lost.captures + M.One(On(Capturing, fl)) == s.lost.captures + M.One(On(Capturing, FlightOf(s, f)))
    requires lost.broadcasts + M.One(On(Broadcasting, fl)) ==
             s.lost.broadcasts + M.One(On(Broadcasting, FlightOf(s, f)))
    requires lost.refunds + M.One(On(Refunding, fl)) == s.lost.refunds + M.One(On(Refunding, FlightOf(s, f)))
    ensures Aloft(s.(flights := s.flights[f := fl], lost := lost))
  {
    InHandUpdate(s.flights, f, fl, Capturing);
    InHandUpdate(s.flights, f, fl, Broadcasting);
    InHandUpdate(s.flights, f, fl, Refunding);
    GroundedIdle();
    hide FlightFits, Chained, InHand, On;
    var s' := s.(flights := s.flights[f := fl], lost := lost);
    assert Accounted(s');
    forall g | g in s'.flights ensures FlightFits(s'.history, s'.world.fx.captures, s'.flights[g]) {
    }
  }

  lemma PlainFits(pc: M.Pc)
    requires pc.Idle? || pc.AtPoll? || (pc.AtCascade? && pc.i < |STEP_ORDER|)
    ensures PcFits(pc)
  {
  }

  lemma GroundedFits(s: Sky, f: nat)
    requires Aloft(s)
    ensures FlightFits(s.history, s.world.fx.captures, FlightOf(s, f))
  {
    hide PcFits, Chained, Accounted, RefundsOwn;
    if f !in s.flights {
      PlainFits(M.Idle);
    }
  }

  /** A flight that starts with the current rows, or with none. */
  lemma StartFits(s: Sky, fl: Flight)
    requires Aloft(s) && PcFits(fl.pc) && !fl.refunded && !M.AboutToRecord(fl.pc, Payment)
    requires Holds(fl.pc).Some? ==> Holds(fl.pc).value == s.world.tables.saga
    ensures FlightFits(s.history, s.world.fx.captures, fl)
  {
    hide PcFits, Chained, Accounted, RefundsOwn;
    assert From(s.history, s.world.tables.saga);
  }

  lemma LoadFits(s: Sky)
    requires Aloft(s)
    ensures var pc := M.Load(s.world);
            PcFits(pc) && !M.AboutToRecord(pc, Payment) && !M.AboutToRecord(pc, Broadcast)
            && (Holds(pc).Some? ==> Holds(pc).value == s.world.tables.saga)
  {
    hide FlightFits, Accounted, RefundsOwn;
    assert Shape(s.world.tables.saga);
  }

  lemma TornFits(history: seq<SagaRow>, captures: seq<string>, fl: Flight, txn: TxRow)
    requires FlightFits(history, captures, fl)
    ensures var fl' := fl.(pc := WithTxn(fl.pc, txn));
            FlightFits(history, captures, fl') && forall duty :: On(duty, fl') == On(duty, fl)
  {
    hide From, M.OutcomeFits;
  }

  lemma IdleGo(env: Env, s: Sky, f: nat)
    requires f !in s.flights
    ensures Gone(env, s, f) == s.(flights := s.flights[f := GROUNDED])
    ensures FlightFits(s.history, s.world.fx.captures, GROUNDED)
  {
    assert M.GoNext(env, M.Idle, s.world) == M.Next(M.Idle, s.world);
  }

  lemma ActAloft(env: Env, s: Sky, a: Action)
    requires Aloft(s)
    ensures Aloft(Act(env, s, a)) && s.history <= Act(env, s, a).history
  {
    var f, fl := a.flight, FlightOf(s, a.flight);
    GroundedFits(s, f);
    LoadFits(s);
    hide Aloft, PcFits, M.Load;
    match a
    case StartRun(_) =>
      if fl.pc.Idle? && fl.pending.None? {
        var fl' := Flight(M.Load(s.world), None, false);
        StartFits(s, fl');
        SetAloft(s, f, fl', s.lost);
      }
    case StartPoll(_) =>
      var sg := s.world.tables.saga;
      if fl.pc.Idle? && fl.pending.None? {
        var fl' := Flight(M.AtPoll(sg, env.o.polls(s.world.fx.clock)), None, false);
        PlainFits(fl'.pc);
        StartFits(s, fl');
        SetAloft(s, f, fl', s.lost);
      }
    case CheckCompensation(_) =>
      if fl.pc.Idle? && fl.pending.None? {
        var fl' := Flight(M.Idle, Some(s.world.tables.saga.step), false);
        PlainFits(fl'.pc);
        StartFits(s, fl');
        SetAloft(s, f, fl', s.lost);
      }
    case StartCascade(_) =>
      if fl.pc.Idle? && fl.pending.Some? {
        var fl' := Flight(M.StartCascade(s.world, fl.pending.value), None, false);
        PlainFits(fl'.pc);
        StartFits(s, fl');
        SetAloft(s, f, fl', s.lost);
      }
    case Tear(_, txn) =>
      TornFits(s.history, s.world.fx.captures, fl, txn);
      SetAloft(s, f, fl.(pc := WithTxn(fl.pc, txn)), s.lost);
    case Go(_) =>
      if f in s.flights {
        GoAloft(env, s, f);
      } else {
        IdleGo(env, s, f);
        SetAloft(s, f, GROUNDED, s.lost);
      }
    case Crash(_) =>
      PlainFits(M.Idle);
      StartFits(s, GROUNDED);
      SetAloft(s, f, GROUNDED, Add(s.lost, fl, true));
  }

  lemma {:induction false} ExecAloft(env: Env, s: Sky, actions: seq<Action>)
    requires Aloft(s)
    ensures Aloft(Exec(env, s, actions)) && s.history <= Exec(env, s, actions).history
    decreases |actions|
  {
    hide Aloft, Act;
    if actions != [] {
      ActAloft(env, s, actions[0]);
      ExecAloft(env, Act(env, s, actions[0]), actions[1..]);
    }
  }

  /** A new purchase, with no flight yet. */
  predicate NewPurchase(s: Sky) {
    && s.flights == map[] && s.world.fx == NO_EFFECTS && s.history == [s.world.tables.saga]
    && s.world.tables.saga.state == Created && Shape(s.world.tables.saga)
    && s.lost == s.refused == M.Tally(0, 0, 0) && s.settled == 0
  }

  lemma NewIsAloft(s: Sky)
    requires NewPurchase(s)
    ensures Aloft(s)
  {
    Unrecorded(s.world.tables.saga);
    assert KeyRank(TxHash).value == 5;
    assert forall duty :: OnDuty(s.flights, duty) == {};
  }
}
