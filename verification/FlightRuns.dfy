/** Two flights of one saga, without any crash: runs in which a broadcast or a refund happens twice. */
module FlightRuns {
  import opened Options
  import opened StateMachine
  import opened Store
  import opened Partners
  import opened Steps
  import opened Commits
  import opened ExecutorSpec
  import opened Invariants
  import opened RunTheorems
  import opened Flights
  import M = CrashMachine
  import T = CrashTheorems

  lemma {:induction false} ExecAppend(env: Env, s: Sky, a: seq<Action>, b: seq<Action>)
    ensures Exec(env, s, a + b) == Exec(env, Exec(env, s, a), b)
    decreases |a|
  {
    hide Act;
    if a == [] {
      assert a + b == b;
    } else {
      assert (a + b)[1..] == a[1..] + b;
      ExecAppend(env, Act(env, s, a[0]), a[1..], b);
    }
  }

  lemma ExecOne(env: Env, s: Sky, a: Action)
    ensures Exec(env, s, [a]) == Act(env, s, a)
  {
    hide Act;
    assert Exec(env, s, [a]) == Exec(env, Act(env, s, a), []);
  }

  lemma ExecThree(env: Env, s: Sky, a: Action, b: Action, c: Action)
    ensures Exec(env, s, [a, b, c]) == Act(env, Act(env, Act(env, s, a), b), c)
  {
    hide Act;
    assert [a, b, c] == [a] + ([b] + [c]);
    ExecAppend(env, s, [a], [b] + [c]);
    ExecAppend(env, Act(env, s, a), [b], [c]);
    ExecOne(env, s, a);
    ExecOne(env, Act(env, s, a), b);
    ExecOne(env, Act(env, Act(env, s, a), b), c);
  }

  /** Only the flight's own place has changed. */
  predicate Elsewhere(s: Sky, s': Sky, f: nat) {
    && f in s'.flights && s'.flights == s.flights[f := s'.flights[f]]
    && s'.lost == s.lost
  }

  ghost predicate Gentle(o: Oracle) {
    (forall k :: !o.refundFails(k)) && (forall k :: !o.voidFails(k))
  }

  lemma GentleUndo(o: Oracle, fx: Effects, payload: Payload, step: Step)
    requires Gentle(o)
    ensures var u, pays := Compensate(o, fx, payload, step), step == Payment && TextOf(payload, CaptureId) != "";
            && u.ok && u.fx.captures == fx.captures && u.fx.broadcasts == fx.broadcasts
            && u.fx.refunds == fx.refunds + if pays then [TextOf(payload, CaptureId)] else []
  {
  }

  /** The calls and the tables of one action of a cascade, and where it leads the flight. */
  predicate Leads(s: Sky, s': Sky, f: nat, fl: Flight, refunds: seq<string>) {
    && Elsewhere(s, s', f) && s'.flights[f] == fl
    && s'.refused == s.refused && s'.settled == s.settled && s'.history == s.history
    && s'.world.fx.captures == s.world.fx.captures && s'.world.fx.broadcasts == s.world.fx.broadcasts
    && s'.world.fx.refunds == s.world.fx.refunds + refunds
  }

  lemma MarksCompensating(env: Env, s: Sky, f: nat)
    requires f in s.flights && s.flights[f].pc.AtCascade? && s.flights[f].pc.i < |STEP_ORDER|
    requires s.flights[f].pending.None?
    ensures var pc, s' := s.flights[f].pc, Act(env, s, Go(f));
            && Leads(s, s', f, s.flights[f].(pc := M.AtUndo(pc.sg, pc.txn, pc.i)), [])
            && T.RowsMarked(s.world.tables, s'.world.tables)
  {
    var step := STEP_ORDER[s.flights[f].pc.i];
    T.MarkRowMarks(s.world.tables, step, StepCompensating);
    hide MarkRow, T.RowsMarked;
  }

  lemma Undoes(env: Env, s: Sky, f: nat)
    requires f in s.flights && s.flights[f].pc.AtUndo? && s.flights[f].pc.i < |STEP_ORDER|
    requires s.flights[f].pending.None? && Gentle(env.o)
    ensures var pc, s' := s.flights[f].pc, Act(env, s, Go(f));
            var pays := pc.i == Position(Payment) && TextOf(pc.sg.payload, CaptureId) != "";
            && Leads(s, s', f, Flight(M.AtMark(pc.sg, pc.txn, pc.i, true), None, s.flights[f].refunded || pays),
                     if pays then [TextOf(pc.sg.payload, CaptureId)] else [])
            && s'.world.tables == s.world.tables
  {
    var pc := s.flights[f].pc;
    GentleUndo(env.o, s.world.fx, pc.sg.payload, STEP_ORDER[pc.i]);
    hide Compensate, Gentle;
  }

  lemma MarksCompensated(env: Env, s: Sky, f: nat)
    requires f in s.flights && s.flights[f].pc.AtMark? && s.flights[f].pc.i < |STEP_ORDER| && s.flights[f].pc.ok
    requires s.flights[f].pending.None?
    ensures var pc, s' := s.flights[f].pc, Act(env, s, Go(f));
            var pc' := if pc.i == 0 then M.AtPark(pc.sg, pc.txn, true) else M.AtCascade(pc.sg, pc.txn, pc.i - 1);
            && Leads(s, s', f, s.flights[f].(pc := pc'), [])
            && T.RowsMarked(s.world.tables, s'.world.tables)
  {
    var step := STEP_ORDER[s.flights[f].pc.i];
    T.MarkRowMarks(s.world.tables, step, StepCompensated);
    hide MarkRow, T.RowsMarked;
  }

  lemma MarkedTwice(a: Tables, b: Tables, c: Tables)
    requires T.RowsMarked(a, b) && T.RowsMarked(b, c)
    ensures T.RowsMarked(a, c)
  {
  }

  /** One step of a cascade that meets no failure. */
  lemma CascadeStep(env: Env, s: Sky, f: nat)
    requires f in s.flights && s.flights[f].pc.AtCascade? && s.flights[f].pending.None? && Gentle(env.o)
    requires s.flights[f].pc.i < |STEP_ORDER|
    ensures var pc := s.flights[f].pc;
            var s' := Act(env, Act(env, Act(env, s, Go(f)), Go(f)), Go(f));
            var pays := pc.i == Position(Payment) && TextOf(pc.sg.payload, CaptureId) != "";
            var pc' := if pc.i == 0 then M.AtPark(pc.sg, pc.txn, true) else M.AtCascade(pc.sg, pc.txn, pc.i - 1);
            && Leads(s, s', f, Flight(pc', None, s.flights[f].refunded || pays),
                     if pays then [TextOf(pc.sg.payload, CaptureId)] else [])
            && T.RowsMarked(s.world.tables, s'.world.tables)
  {
    hide Act, Gentle, T.RowsMarked;
    MarksCompensating(env, s, f);
    var s1 := Act(env, s, Go(f));
    Undoes(env, s1, f);
    var s2 := Act(env, s1, Go(f));
    MarksCompensated(env, s2, f);
    MarkedTwice(s.world.tables, s1.world.tables, Act(env, s2, Go(f)).world.tables);
  }

  lemma LeadsOn(s: Sky, s1: Sky, s2: Sky, f: nat, fl: Flight, r1: seq<string>, fl': Flight, r2: seq<string>)
    requires Leads(s, s1, f, fl, r1) && Leads(s1, s2, f, fl', r2)
    ensures Leads(s, s2, f, fl', r1 + r2)
  {
  }

  lemma LeadsTo(s: Sky, s': Sky, f: nat, fl: Flight, refunds: seq<string>)
    requires Leads(s, s', f, fl, refunds)
    ensures f in s'.flights && s'.flights[f] == fl
  {
  }

  /** A whole cascade that meets no failure, up to its last commit. */
  lemma {:induction false} CascadeFlies(env: Env, s: Sky, f: nat) returns (actions: seq<Action>)
    requires f in s.flights && s.flights[f].pc.AtCascade? && s.flights[f].pending.None? && Gentle(env.o)
    requires s.flights[f].pc.i < |STEP_ORDER|
    ensures var pc, s' := s.flights[f].pc, Exec(env, s, actions);
            var pays := pc.i >= Position(Payment) && TextOf(pc.sg.payload, CaptureId) != "";
            && Leads(s, s', f, Flight(M.AtPark(pc.sg, pc.txn, true), None, s.flights[f].refunded || pays),
                     if pays then [TextOf(pc.sg.payload, CaptureId)] else [])
            && T.RowsMarked(s.world.tables, s'.world.tables)
    ensures forall a :: a in actions ==> a == Go(f)
    decreases s.flights[f].pc.i
  {
    hide Act, Leads, T.RowsMarked, Gentle;
    var fl, three := s.flights[f], [Go(f), Go(f), Go(f)];
    CascadeStep(env, s, f);
    ExecThree(env, s, Go(f), Go(f), Go(f));
    hide Exec;
    var s1 := Exec(env, s, three);
    var pays := fl.pc.i == Position(Payment) && TextOf(fl.pc.sg.payload, CaptureId) != "";
    var paid := if pays then [TextOf(fl.pc.sg.payload, CaptureId)] else [];
    if fl.pc.i == 0 {
      actions := three;
    } else {
      var fl1 := Flight(M.AtCascade(fl.pc.sg, fl.pc.txn, fl.pc.i - 1), None, fl.refunded || pays);
      LeadsTo(s, s1, f, fl1, paid);
      var rest := CascadeFlies(env, s1, f);
      actions := three + rest;
      ExecAppend(env, s, three, rest);
      var s2 := Exec(env, s1, rest);
      MarkedTwice(s.world.tables, s1.world.tables, s2.world.tables);
      var paysLater := fl.pc.i - 1 >= Position(Payment) && TextOf(fl.pc.sg.payload, CaptureId) != "";
      LeadsOn(s, s1, s2, f, fl1, paid, Flight(M.AtPark(fl.pc.sg, fl.pc.txn, true), None, fl1.refunded || paysLater),
              if paysLater then [TextOf(fl.pc.sg.payload, CaptureId)] else []);
      assert paid + [] == paid && [] + [TextOf(fl.pc.sg.payload, CaptureId)] == [TextOf(fl.pc.sg.payload, CaptureId)];
    }
  }

  /** The end of a cascade from current rows. */
  lemma Parks(env: Env, s: Sky, f: nat)
    requires f in s.flights && s.flights[f].pc.AtPark? && s.flights[f].pc.ok && s.flights[f].pending.None?
    requires s.flights[f].pc.sg == s.world.tables.saga
    ensures var s' := Act(env, s, Go(f));
            && Elsewhere(s, s', f) && s'.flights[f] == GROUNDED
            && s'.world.tables.saga == CascadedSaga(s.world.tables.saga, FailedCompensated)
            && s'.world.tables.rows == s.world.tables.rows && s'.world.fx == s.world.fx
            && s'.refused == s.refused && s'.settled == s.settled + M.One(s.flights[f].refunded)
  {
    hide KeyTaken, NewEvent;
  }

  /** A whole compensation by one flight, nobody else acting meanwhile. */
  lemma Compensates(env: Env, s: Sky, f: nat) returns (actions: seq<Action>)
    requires f in s.flights && s.flights[f].pc.Idle? && s.flights[f].pending.Some? && Gentle(env.o)
    ensures var s' := Exec(env, s, actions);
            var sg := s.world.tables.saga;
            var pays := Position(s.flights[f].pending.value) >= Position(Payment)
              && TextOf(sg.payload, CaptureId) != "";
            && Elsewhere(s, s', f) && s'.flights[f] == GROUNDED && s'.refused == s.refused
            && s'.settled == s.settled + M.One(pays)
            && s'.world.tables.saga == CascadedSaga(sg, FailedCompensated)
            && (forall k :: k in s'.world.tables.rows && s'.world.tables.rows[k] == StepSucceeded ==>
                  k in s.world.tables.rows && s.world.tables.rows[k] == StepSucceeded)
            && s'.world.fx.captures == s.world.fx.captures && s'.world.fx.broadcasts == s.world.fx.broadcasts
            && s'.world.fx.refunds == s.world.fx.refunds + if pays then [TextOf(sg.payload, CaptureId)] else []
    ensures forall a :: a in actions ==> !a.Crash?
  {
    var s1 := Act(env, s, StartCascade(f));
    var walk := CascadeFlies(env, s1, f);
    var s2 := Exec(env, s1, walk);
    Parks(env, s2, f);
    actions := [StartCascade(f)] + (walk + [Go(f)]);
    ExecAppend(env, s, [StartCascade(f)], walk + [Go(f)]);
    ExecAppend(env, s1, walk, [Go(f)]);
    ExecOne(env, s, StartCascade(f));
    ExecOne(env, s2, Go(f));
    hide Exec;
  }

  /** A run is started over a saga at work and opens its first attempt. */
  lemma Opens(env: Env, s: Sky, f: nat)
    requires FlightOf(s, f) == GROUNDED && !s.world.tables.saga.state.Terminal()
    requires env.maxRetries >= 1 && !Succeeded(s.world.tables, s.world.tables.saga.step, 1)
    ensures var t := s.world.tables;
            var s' := Act(env, Act(env, s, StartRun(f)), Go(f));
            && Elsewhere(s, s', f) && s'.refused == s.refused && s'.settled == s.settled
            && s'.flights[f] == Flight(M.AtCall(t.saga.step, 1, Snapshot(t.txn, t.saga)), None, false)
            && SameShared(s'.world.tables, t) && s'.world.fx == s.world.fx
            && OnlyRow(t, s'.world.tables, RowKey(t.saga.step, 1))
  {
    BeginOpens(s.world.tables, s.world.tables.saga.step, 1);
    hide BeginAttempt;
  }

  /** A broadcast goes through and awaits its commit. */
  lemma Broadcasts(env: Env, s: Sky, f: nat)
    requires f in s.flights && s.flights[f].pc.AtCall? && s.flights[f].pc.step == Broadcast
             && s.flights[f].pending.None?
    requires var p := s.flights[f].pc.snap.saga.payload; TextOf(p, TxHash) == "" && TextOf(p, SignedTxHex) != ""
    requires forall k :: env.o.broadcast(k).Ok?
    ensures var pc, s' := s.flights[f].pc, Act(env, s, Go(f));
            && Elsewhere(s, s', f) && s'.refused == s.refused && s'.settled == s.settled
            && s'.flights[f].pc.AtCommit? && s'.flights[f].pc.step == Broadcast && s'.flights[f].pc.outcome.Success?
            && s'.flights[f].pc.attempt == pc.attempt && s'.flights[f].pc.snap == pc.snap && s'.flights[f].pending.None?
            && s'.flights[f].refunded == s.flights[f].refunded
            && s'.world.tables == s.world.tables
            && |s'.world.fx.broadcasts| == |s.world.fx.broadcasts| + 1 && s'.world.fx.captures == s.world.fx.captures
  {
  }

  lemma StaleRefused(env: Env, t: Tables, snap: Snapshot, attempt: nat, state: State, merge: Payload)
    requires snap.saga.version != t.saga.version
    ensures var w := CommitSuccess(env.rollback, env.tx, t, snap, Broadcast, attempt, state, merge, FreshId(env, t));
            && !w.ok && w.tables.saga == t.saga
            && forall a :: a != attempt ==> (Succeeded(w.tables, Broadcast, a) <==> Succeeded(t, Broadcast, a))
  {
    hide KeyTaken, ValidPath;
  }

  /** A success from rows that are not current any more is refused. */
  lemma Refused(env: Env, s: Sky, f: nat)
    requires f in s.flights && s.flights[f].pc.AtCommit? && s.flights[f].pc.step == Broadcast
    requires s.flights[f].pc.outcome.Success? && s.flights[f].pending.None?
    requires s.flights[f].pc.snap.saga.version != s.world.tables.saga.version
    ensures var pc, s' := s.flights[f].pc, Act(env, s, Go(f));
            && Elsewhere(s, s', f) && s'.settled == s.settled
            && s'.refused == s.refused.(broadcasts := s.refused.broadcasts + 1)
            && s'.flights[f].pc == M.AtWait(Broadcast, pc.attempt, pc.snap) && s'.flights[f].pending.None?
            && s'.world.tables.saga == s.world.tables.saga && s'.world.fx == s.world.fx
            && (forall a :: a != pc.attempt ==>
                  (Succeeded(s'.world.tables, Broadcast, a) <==> Succeeded(s.world.tables, Broadcast, a)))
  {
    var pc := s.flights[f].pc;
    StaleRefused(env, s.world.tables, pc.snap, pc.attempt, pc.outcome.state, pc.outcome.merge);
    hide CommitSuccess, Succeeded;
  }

  lemma WaitsOn(env: Env, s: Sky, f: nat)
    requires f in s.flights && s.flights[f].pc.AtWait? && s.flights[f].pending.None?
    requires forall k :: !env.o.givesUp(k)
    ensures var pc, s' := s.flights[f].pc, Act(env, s, Go(f));
            && Elsewhere(s, s', f) && s'.settled == s.settled && s'.refused == s.refused
            && s'.flights[f] == s.flights[f].(pc := M.AtBegin(pc.step, pc.attempt + 1, pc.snap))
            && s'.world.tables == s.world.tables
            && s'.world.fx.broadcasts == s.world.fx.broadcasts && s'.world.fx.captures == s.world.fx.captures
  {
  }

  /** The refusal is retriable, and the wait is gone through. */
  lemma RefusedAndWaits(env: Env, s: Sky, f: nat)
    requires f in s.flights && s.flights[f].pc.AtCommit? && s.flights[f].pc.step == Broadcast
    requires s.flights[f].pc.outcome.Success? && s.flights[f].pending.None?
    requires s.flights[f].pc.snap.saga.version != s.world.tables.saga.version
    requires forall k :: !env.o.givesUp(k)
    ensures var pc, s' := s.flights[f].pc, Act(env, Act(env, s, Go(f)), Go(f));
            && Elsewhere(s, s', f) && s'.settled == s.settled
            && s'.refused == s.refused.(broadcasts := s.refused.broadcasts + 1)
            && s'.flights[f].pc == M.AtBegin(Broadcast, pc.attempt + 1, pc.snap) && s'.flights[f].pending.None?
            && s'.world.tables.saga == s.world.tables.saga
            && (forall a :: a != pc.attempt ==>
                  (Succeeded(s'.world.tables, Broadcast, a) <==> Succeeded(s.world.tables, Broadcast, a)))
            && s'.world.fx.broadcasts == s.world.fx.broadcasts && s'.world.fx.captures == s.world.fx.captures
  {
    hide Act, Succeeded;
    Refused(env, s, f);
    WaitsOn(env, Act(env, s, Go(f)), f);
  }

  lemma OpensAgain(env: Env, s: Sky, f: nat)
    requires f in s.flights && s.flights[f].pc.AtBegin? && s.flights[f].pc.attempt <= env.maxRetries
             && s.flights[f].pending.None?
    requires !Succeeded(s.world.tables, s.flights[f].pc.step, s.flights[f].pc.attempt)
    ensures var pc, s' := s.flights[f].pc, Act(env, s, Go(f));
            && Elsewhere(s, s', f) && s'.refused == s.refused && s'.settled == s.settled
            && s'.flights[f] == s.flights[f].(pc := M.AtCall(pc.step, pc.attempt, pc.snap))
            && s'.world.tables.saga == s.world.tables.saga && s'.world.fx == s.world.fx
  {
    BeginOpens(s.world.tables, s.flights[f].pc.step, s.flights[f].pc.attempt);
    hide BeginAttempt;
  }

  lemma ExecTwo(env: Env, s: Sky, a: Action, b: Action)
    ensures Exec(env, s, [a, b]) == Act(env, Act(env, s, a), b)
  {
    hide Act;
    assert [a, b] == [a] + [b];
    ExecAppend(env, s, [a], [b]);
    ExecOne(env, s, a);
    ExecOne(env, Act(env, s, a), b);
  }

  lemma RowsElsewhere(a: Tables, b: Tables, step: Step, attempt: int)
    requires OnlyRow(a, b, RowKey(step, attempt))
    ensures forall i :: i != attempt ==> (Succeeded(a, step, i) <==> Succeeded(b, step, i))
  {
  }

  lemma NotSucceededLater(a: Tables, b: Tables, step: Step, attempt: int)
    requires forall k :: k in b.rows && b.rows[k] == StepSucceeded ==> k in a.rows && a.rows[k] == StepSucceeded
    ensures !Succeeded(a, step, attempt) ==> !Succeeded(b, step, attempt)
  {
  }

  lemma Checks(env: Env, s: Sky, f: nat)
    requires FlightOf(s, f) == GROUNDED && !s.world.tables.saga.state.Terminal()
    ensures var s' := Act(env, s, CheckCompensation(f));
            && Elsewhere(s, s', f) && s'.flights[f] == Flight(M.Idle, Some(s.world.tables.saga.step), false)
            && s'.world == s.world && s'.refused == s.refused && s'.settled == s.settled
  {
  }

  /** While a worker's broadcast is on its way a manual compensation goes through. The worker's
      commit is refused, the refusal is retried, and the next attempt, from the same old rows,
      broadcasts again: twice, in one process and without a crash. */
  lemma CompensationRebroadcasts(env: Env, s: Sky) returns (actions: seq<Action>)
    requires FlightOf(s, 0) == FlightOf(s, 1) == GROUNDED
    requires var sg := s.world.tables.saga;
             && sg.state == Signed && sg.step == Broadcast
             && TextOf(sg.payload, TxHash) == "" && TextOf(sg.payload, SignedTxHex) != ""
    requires env.maxRetries >= 2 && !Succeeded(s.world.tables, Broadcast, 1) && !Succeeded(s.world.tables, Broadcast, 2)
    requires Gentle(env.o) && (forall k :: env.o.broadcast(k).Ok?) && (forall k :: !env.o.givesUp(k))
    ensures var s' := Exec(env, s, actions);
            && |s'.world.fx.broadcasts| == |s.world.fx.broadcasts| + 2
            && s'.lost == s.lost && s'.refused.broadcasts == s.refused.broadcasts + 1
            && s'.world.tables.saga.state == FailedCompensated
    ensures forall a :: a in actions ==> !a.Crash?
  {
    hide Exec, Act, Succeeded;
    Opens(env, s, 0);
    var s1 := Act(env, Act(env, s, StartRun(0)), Go(0));
    ExecTwo(env, s, StartRun(0), Go(0));
    RowsElsewhere(s.world.tables, s1.world.tables, Broadcast, 1);
    Broadcasts(env, s1, 0);
    var s2 := Act(env, s1, Go(0));
    ExecOne(env, s1, Go(0));
    Checks(env, s2, 1);
    var s3 := Act(env, s2, CheckCompensation(1));
    ExecOne(env, s2, CheckCompensation(1));
    var undo := Compensates(env, s3, 1);
    var s4 := Exec(env, s3, undo);
    NotSucceededLater(s3.world.tables, s4.world.tables, Broadcast, 2);
    RefusedAndWaits(env, s4, 0);
    var s5 := Act(env, Act(env, s4, Go(0)), Go(0));
    ExecTwo(env, s4, Go(0), Go(0));
    OpensAgain(env, s5, 0);
    var s6 := Act(env, s5, Go(0));
    ExecOne(env, s5, Go(0));
    Broadcasts(env, s6, 0);
    ExecOne(env, s6, Go(0));
    var tail := [Go(0), Go(0)] + ([Go(0)] + [Go(0)]);
    ExecAppend(env, s5, [Go(0)], [Go(0)]);
    ExecAppend(env, s4, [Go(0), Go(0)], [Go(0)] + [Go(0)]);
    ExecAppend(env, s3, undo, tail);
    ExecAppend(env, s2, [CheckCompensation(1)], undo + tail);
    ExecAppend(env, s1, [Go(0)], [CheckCompensation(1)] + (undo + tail));
    ExecAppend(env, s, [StartRun(0), Go(0)], [Go(0)] + ([CheckCompensation(1)] + (undo + tail)));
    actions := [StartRun(0), Go(0)] + ([Go(0)] + ([CheckCompensation(1)] + (undo + tail)));
  }

  /** The screening refuses for good and the executor gives the step up. */
  lemma GivesUp(env: Env, s: Sky, f: nat)
    requires f in s.flights && s.flights[f].pc.AtCall? && s.flights[f].pc.step == Kyt && s.flights[f].pending.None?
    requires forall k :: env.o.screen(k).Hard?
    ensures var pc, s' := s.flights[f].pc, Act(env, s, Go(f));
            && Elsewhere(s, s', f) && s'.refused == s.refused && s'.settled == s.settled
            && s'.flights[f].pc == M.AtCommit(Kyt, pc.attempt, pc.snap, Error(true)) && s'.flights[f].pending.None?
            && s'.world.tables == s.world.tables
            && s'.world.fx.refunds == s.world.fx.refunds && s'.world.fx.captures == s.world.fx.captures
  {
  }

  lemma Abandons(env: Env, s: Sky, f: nat)
    requires f in s.flights && s.flights[f].pc.AtCommit? && s.flights[f].pc.step == Kyt
    requires s.flights[f].pc.outcome == Error(true) && s.flights[f].pending.None?
    ensures var s' := Act(env, s, Go(f));
            && Elsewhere(s, s', f) && s'.refused == s.refused && s'.settled == s.settled
            && s'.flights[f] == Flight(M.Idle, Some(Kyt), false)
            && s'.world.tables.saga == s.world.tables.saga && s'.world.fx == s.world.fx
  {
    hide CommitFailed;
    T.FailedMarks(s.world.tables, Kyt, s.flights[f].pc.attempt);
  }

  /** While a worker's screening is on its way a manual compensation refunds the capture. The worker
      gives up and its own cascade, which does not ask whether the saga is terminal, refunds it a
      second time. */
  lemma CompensationRefundsTwice(env: Env, s: Sky) returns (actions: seq<Action>)
    requires FlightOf(s, 0) == FlightOf(s, 1) == GROUNDED
    requires var sg := s.world.tables.saga;
             sg.state == PaymentCaptured && sg.step == Kyt && TextOf(sg.payload, CaptureId) != ""
    requires env.maxRetries >= 1 && !Succeeded(s.world.tables, Kyt, 1)
    requires Gentle(env.o) && forall k :: env.o.screen(k).Hard?
    ensures var s' := Exec(env, s, actions);
            var id := TextOf(s.world.tables.saga.payload, CaptureId);
            && s'.world.fx.refunds == s.world.fx.refunds + [id, id] && s'.world.fx.captures == s.world.fx.captures
            && s'.world.tables.saga.state == FailedCompensated && s'.settled == s.settled + 2
            && s'.lost == s.lost && s'.refused == s.refused
    ensures forall a :: a in actions ==> !a.Crash?
  {
    hide Exec, Act, Succeeded;
    Opens(env, s, 0);
    var s1 := Act(env, Act(env, s, StartRun(0)), Go(0));
    ExecTwo(env, s, StartRun(0), Go(0));
    GivesUp(env, s1, 0);
    var s2 := Act(env, s1, Go(0));
    ExecOne(env, s1, Go(0));
    Checks(env, s2, 1);
    var s3 := Act(env, s2, CheckCompensation(1));
    ExecOne(env, s2, CheckCompensation(1));
    var undo := Compensates(env, s3, 1);
    var s4 := Exec(env, s3, undo);
    Abandons(env, s4, 0);
    var s5 := Act(env, s4, Go(0));
    ExecOne(env, s4, Go(0));
    var again := Compensates(env, s5, 0);
    ExecAppend(env, s4, [Go(0)], again);
    ExecAppend(env, s3, undo, [Go(0)] + again);
    ExecAppend(env, s2, [CheckCompensation(1)], undo + ([Go(0)] + again));
    ExecAppend(env, s1, [Go(0)], [CheckCompensation(1)] + (undo + ([Go(0)] + again)));
    actions := [StartRun(0), Go(0)] + ([Go(0)] + ([CheckCompensation(1)] + (undo + ([Go(0)] + again))));
    ExecAppend(env, s, [StartRun(0), Go(0)], [Go(0)] + ([CheckCompensation(1)] + (undo + ([Go(0)] + again))));
  }

  /** A flight has given up the policy step, from rows loaded when there was nothing to undo, while
      another flight captured the payment. Its cascade starts at the policy step, never gets to the
      payment, and ends the purchase as compensated with the money kept. */
  lemma EarlyCascadeKeepsTheMoney(env: Env, s: Sky) returns (actions: seq<Action>)
    requires 0 in s.flights && s.flights[0] == Flight(M.Idle, Some(Policy), false)
    requires s.world.tables.saga.state == PaymentCaptured && TextOf(s.world.tables.saga.payload, CaptureId) != ""
    requires Gentle(env.o)
    ensures var s' := Exec(env, s, actions);
            && s'.world.tables.saga.state == FailedCompensated
            && s'.world.fx.refunds == s.world.fx.refunds && s'.world.fx.captures == s.world.fx.captures
    ensures forall a :: a in actions ==> !a.Crash?
  {
    hide Exec;
    actions := Compensates(env, s, 0);
  }
}
