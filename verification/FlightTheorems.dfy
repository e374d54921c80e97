/** What holds of any number of flights of one saga: how often the partners see a call, and when the
    refunds match the captures. */
module FlightTheorems {
  import opened Options
  import opened StateMachine
  import opened Store
  import opened Partners
  import opened Steps
  import opened Commits
  import opened ExecutorSpec
  import opened Invariants
  import opened RunTheorems
  import opened Flights
  import M = CrashMachine

  /** Calls that went through and are not recorded: in a flight's hand, lost to a crash, or refused
      because the rows they were made from are not current any more. */
  function Unrecorded(s: Sky, duty: Duty): nat {
    InHand(s.flights, duty) +
    match duty
    case Capturing => s.lost.captures + s.refused.captures
    case Broadcasting => s.lost.broadcasts + s.refused.broadcasts
    case Refunding => s.lost.refunds + s.refused.refunds
  }

  /** The account of every call, whatever flights are started, overlap and crash: captures and
      broadcasts are the recorded one and the unrecorded ones, refunds those that a cascade settled
      and the unrecorded ones, and every refund is of the recorded capture. */
  lemma FlightsAccounted(env: Env, s: Sky, actions: seq<Action>)
    requires NewPurchase(s)
    ensures var s' := Exec(env, s, actions);
            var sg, fx := s'.world.tables.saga, s'.world.fx;
            && |fx.captures| == M.One(CaptureId in sg.payload) + Unrecorded(s', Capturing)
            && |fx.broadcasts| == M.One(TxHash in sg.payload) + Unrecorded(s', Broadcasting)
            && |fx.refunds| == s'.settled + Unrecorded(s', Refunding)
            && RefundsOwn(s') && Chained(s'.history)
  {
    NewIsAloft(s);
    ExecAloft(env, s, actions);
    hide Exec, Chained, RefundsOwn, InHand, FlightFits;
  }

  /** When the partners see a call only once, exactly: a purchase is broadcast at most once if and
      only if no accepted broadcast is unrecorded, or one is and none is recorded. The same holds
      of captures. */
  lemma AtMostOnceIff(env: Env, s: Sky, actions: seq<Action>)
    requires NewPurchase(s)
    ensures var s' := Exec(env, s, actions);
            var fx, payload := s'.world.fx, s'.world.tables.saga.payload;
            && (|fx.broadcasts| <= 1 <==>
                  || Unrecorded(s', Broadcasting) == 0
                  || (Unrecorded(s', Broadcasting) == 1 && TxHash !in payload))
            && (|fx.captures| <= 1 <==>
                  || Unrecorded(s', Capturing) == 0
                  || (Unrecorded(s', Capturing) == 1 && CaptureId !in payload))
  {
    FlightsAccounted(env, s, actions);
    hide Exec, Unrecorded, RefundsOwn, Chained;
  }

  lemma {:induction false} OneBag(a: seq<string>, id: string)
    requires forall x :: x in a ==> x == id
    ensures multiset(a) == multiset{}[id := |a|]
    decreases |a|
  {
    if a != [] {
      var front := a[..|a| - 1];
      assert a[|a| - 1] in a && forall x :: x in front ==> x in a;
      assert a == front + [id];
      OneBag(front, id);
    }
  }

  lemma ConstantBags(a: seq<string>, b: seq<string>, id: string)
    requires forall x :: x in a ==> x == id
    ensures multiset(a) == multiset(b) <==> |a| == |b| && forall x :: x in b ==> x == id
  {
    OneBag(a, id);
    if multiset(a) == multiset(b) {
      assert |a| == |multiset(a)| == |multiset(b)| == |b|;
      forall x | x in b ensures x == id {
        assert x in multiset(b);
        assert x in multiset(a);
      }
    }
    if |a| == |b| && forall x :: x in b ==> x == id {
      OneBag(b, id);
    }
  }

  lemma MatchIff(refunds: seq<string>, captures: seq<string>, id: string, recorded: bool, made: nat, unrecorded: nat)
    requires |captures| == M.One(recorded) + unrecorded && |refunds| == made
    requires forall x :: x in refunds ==> x == id && id != ""
    requires if recorded then id in captures else id == ""
    ensures multiset(refunds) == multiset(captures) <==>
              captures == [] || (id != "" && (forall x :: x in captures ==> x == id) && made == 1 + unrecorded)
    ensures unrecorded == 0 && captures != [] ==>
              (multiset(refunds) == multiset(captures) <==> id != "" && made == 1)
  {
    ConstantBags(refunds, captures, id);
    if refunds != [] {
      assert refunds[0] in refunds;
    }
    if captures != [] {
      assert captures[0] in captures;
    }
  }

  /** When refunds match captures, exactly, crashes and other flights included: with no call in any
      flight's hand, the refunds are the captures, id by id, if and only if nothing was captured, or
      every capture carries the recorded, non-empty id and one refund went through for each. Without
      unrecorded captures that is: exactly one refund went through, and the id is not empty. */
  lemma RefundsMatchIff(env: Env, s: Sky, actions: seq<Action>)
    requires NewPurchase(s)
    requires var s' := Exec(env, s, actions); InHand(s'.flights, Capturing) == InHand(s'.flights, Refunding) == 0
    ensures var s' := Exec(env, s, actions);
            var sg, fx := s'.world.tables.saga, s'.world.fx;
            var id := TextOf(sg.payload, CaptureId);
            var made := s'.settled + Unrecorded(s', Refunding);
            && (multiset(fx.refunds) == multiset(fx.captures) <==>
                  || fx.captures == []
                  || (id != "" && (forall x :: x in fx.captures ==> x == id) && made == 1 + Unrecorded(s', Capturing)))
            && (Unrecorded(s', Capturing) == 0 && fx.captures != [] ==>
                  (multiset(fx.refunds) == multiset(fx.captures) <==> id != "" && made == 1))
  {
    FlightsAccounted(env, s, actions);
    hide Unrecorded, Chained, Exec;
    var s' := Exec(env, s, actions);
    var sg, fx := s'.world.tables.saga, s'.world.fx;
    hide InHand;
    MatchIff(fx.refunds, fx.captures, TextOf(sg.payload, CaptureId), CaptureId in sg.payload,
             s'.settled + Unrecorded(s', Refunding), Unrecorded(s', Capturing));
  }

  /** A flight at the step whose call records an entry, whatever rows it holds. */
  predicate WorksOn(pc: M.Pc, step: Step) {
    match pc
    case AtBegin(st, _, _) => st == step
    case AtCall(st, _, _) => st == step
    case AtCapture(_, _, _) => step == Payment
    case AtVoid(_, _, _, _) => step == Payment
    case AtCommit(st, _, _, _) => st == step
    case AtWait(st, _, _) => st == step
    case _ => false
  }

  ghost predicate NobodyOn(s: Sky, step: Step) {
    forall f :: f in s.flights ==> !WorksOn(s.flights[f].pc, step)
  }

  lemma LoadsPast(s: Sky)
    requires Aloft(s)
    ensures TxHash in s.world.tables.saga.payload ==> !WorksOn(M.Load(s.world), Broadcast)
    ensures CaptureId in s.world.tables.saga.payload ==> !WorksOn(M.Load(s.world), Payment)
  {
    var sg := s.world.tables.saga;
    assert Shape(sg);
    Flights.Unrecorded(sg);
    hide FlightFits, Accounted, RefundsOwn, Chained;
  }

  /** A flight gets to a step by loading rows that rest on it, not by working on another. */
  lemma StaysOff(env: Env, pc: M.Pc, w: World, step: Step, refunded: bool)
    requires !WorksOn(pc, step) && (step == Payment || step == Broadcast)
    ensures !WorksOn(Next(pc, M.GoNext(env, pc, w).pc, refunded).pc, step)
  {
    hide Execute, Compensate, TextOf;
    hide CommitSuccess, CommitParked, CommitConfirmed, CommitCascade, BeginAttempt, UpdateStep;
  }

  lemma GoneOn(env: Env, s: Sky, f: nat, step: Step)
    requires Aloft(s) && f in s.flights && (step == Payment || step == Broadcast)
    requires !WorksOn(s.flights[f].pc, step)
    ensures var s' := Gone(env, s, f);
            && !WorksOn(s'.flights[f].pc, step)
            && (step == Broadcast ==> |s'.world.fx.broadcasts| == |s.world.fx.broadcasts|)
            && (step == Payment ==> |s'.world.fx.captures| == |s.world.fx.captures|)
  {
    var fl := s.flights[f];
    GoHands(env, s, f);
    hide Aloft, M.GoNext, Next;
    var n := M.GoNext(env, fl.pc, s.world);
    StaysOff(env, fl.pc, s.world, step, !fl.pc.AtPark? && (fl.refunded || |n.world.fx.refunds| > |s.world.fx.refunds|));
  }

  /** Starting a flight, tearing its rows or crashing it makes no call and gets nobody to a step that
      the saga is past. */
  lemma StartPast(env: Env, s: Sky, a: Action, step: Step)
    requires Aloft(s) && !a.Go? && NobodyOn(s, step) && !WorksOn(M.Load(s.world), step)
    ensures var s' := Act(env, s, a);
            s'.world == s.world && NobodyOn(s', step)
  {
    hide Aloft, M.Load, Add, TextOf;
  }

  lemma GroundedOff(step: Step)
    ensures !WorksOn(GROUNDED.pc, step)
  {
  }

  lemma GoPast(env: Env, s: Sky, f: nat, step: Step)
    requires Aloft(s) && NobodyOn(s, step) && (step == Payment || step == Broadcast)
    ensures var s' := Gone(env, s, f);
            && NobodyOn(s', step)
            && (step == Broadcast ==> |s'.world.fx.broadcasts| == |s.world.fx.broadcasts|)
            && (step == Payment ==> |s'.world.fx.captures| == |s.world.fx.captures|)
            && KeepsIds(s.world.tables.saga, s'.world.tables.saga)
  {
    if f in s.flights {
      GoRow(env, s, f);
      GoneOn(env, s, f, step);
      OnlyOneMoves(env, s, f);
    } else {
      IdleGo(env, s, f);
    }
    hide Aloft, Gone, WorksOn;
    assert f !in s.flights ==> !WorksOn(GROUNDED.pc, step) by { GroundedOff(step); }
  }

  lemma ActPast(env: Env, s: Sky, a: Action)
    requires Aloft(s)
    ensures var s' := Act(env, s, a);
            && (TxHash in s.world.tables.saga.payload && NobodyOn(s, Broadcast) ==>
                  && TxHash in s'.world.tables.saga.payload && NobodyOn(s', Broadcast)
                  && |s'.world.fx.broadcasts| == |s.world.fx.broadcasts|)
            && (CaptureId in s.world.tables.saga.payload && NobodyOn(s, Payment) ==>
                  && CaptureId in s'.world.tables.saga.payload && NobodyOn(s', Payment)
                  && |s'.world.fx.captures| == |s.world.fx.captures|)
  {
    LoadsPast(s);
    hide Aloft, M.Load, NobodyOn, WorksOn;
    var payload := s.world.tables.saga.payload;
    if TxHash in payload && NobodyOn(s, Broadcast) {
      if a.Go? {
        GoPast(env, s, a.flight, Broadcast);
      } else {
        StartPast(env, s, a, Broadcast);
      }
    }
    if CaptureId in payload && NobodyOn(s, Payment) {
      if a.Go? {
        GoPast(env, s, a.flight, Payment);
      } else {
        StartPast(env, s, a, Payment);
      }
    }
    hide Gone;
  }

  /** Once an entry is recorded and no flight holds rows from before, the call is never made again,
      whatever starts, overlaps and crashes later. */
  lemma {:induction false} NeverAgain(env: Env, s: Sky, actions: seq<Action>)
    requires Aloft(s)
    ensures TxHash in s.world.tables.saga.payload && NobodyOn(s, Broadcast) ==>
              |Exec(env, s, actions).world.fx.broadcasts| == |s.world.fx.broadcasts|
    ensures CaptureId in s.world.tables.saga.payload && NobodyOn(s, Payment) ==>
              |Exec(env, s, actions).world.fx.captures| == |s.world.fx.captures|
    decreases |actions|
  {
    hide Aloft, Act;
    if actions != [] {
      ActAloft(env, s, actions[0]);
      ActPast(env, s, actions[0]);
      NeverAgain(env, Act(env, s, actions[0]), actions[1..]);
    }
  }
}
