/** The legal lifecycle of a saga: states, steps and the transition table. */
module Options {
  datatype Option<+T> = None | Some(value: T)
}

module StateMachine {
  import opened Options

  datatype State =
    | Created
    | PolicyChecked
    | PaymentCaptured
    | KytScreened
    | Signed
    | Broadcasted
    | Confirmed
    | Ledgered
    | Completed
    | FailedCompensated
    | Failed
  {
    predicate Terminal() {
      Completed? || FailedCompensated? || Failed?
    }

    predicate IsFailure() {
      FailedCompensated? || Failed?
    }
  }

  datatype Step = Policy | Payment | Kyt | MpcSign | Broadcast | Ledger

  const STEP_ORDER: seq<Step> := [Policy, Payment, Kyt, MpcSign, Broadcast, Ledger]

  /** The step that follows `s`, by search in the canonical order from position `i`. */
  function StepAfterFrom(s: Step, i: nat): Option<Step>
    decreases |STEP_ORDER| - i
  {
    if i >= |STEP_ORDER| then None
    else if STEP_ORDER[i] == s && i + 1 < |STEP_ORDER| then Some(STEP_ORDER[i + 1])
    else StepAfterFrom(s, i + 1)
  }

  function StepAfter(s: Step): (next: Option<Step>)
    ensures next == match s
                    case Policy => Some(Payment)
                    case Payment => Some(Kyt)
                    case Kyt => Some(MpcSign)
                    case MpcSign => Some(Broadcast)
                    case Broadcast => Some(Ledger)
                    case Ledger => None
  {
    assert StepAfterFrom(s, 6) == None;
    assert StepAfterFrom(s, 5) == None;
    assert StepAfterFrom(s, 4) == if s.Broadcast? then Some(Ledger) else None;
    assert StepAfterFrom(s, 3) == if s.MpcSign? then Some(Broadcast) else StepAfterFrom(s, 4);
    assert StepAfterFrom(s, 2) == if s.Kyt? then Some(MpcSign) else StepAfterFrom(s, 3);
    assert StepAfterFrom(s, 1) == if s.Payment? then Some(Kyt) else StepAfterFrom(s, 2);
    StepAfterFrom(s, 0)
  }

  /** The position of a step in the canonical order. */
  function Position(s: Step): (i: nat)
    ensures i < |STEP_ORDER| && STEP_ORDER[i] == s
    ensures forall j :: 0 <= j < |STEP_ORDER| && STEP_ORDER[j] == s ==> j == i
  {
    match s
    case Policy => 0
    case Payment => 1
    case Kyt => 2
    case MpcSign => 3
    case Broadcast => 4
    case Ledger => 5
  }

  function StateForStep(s: Step): State {
    match s
    case Policy => PolicyChecked
    case Payment => PaymentCaptured
    case Kyt => KytScreened
    case MpcSign => Signed
    case Broadcast => Broadcasted
    case Ledger => Ledgered
  }

  /** The happy-path successor of a state, if it has one. */
  function ForwardTarget(s: State): Option<State> {
    match s
    case Created => Some(PolicyChecked)
    case PolicyChecked => Some(PaymentCaptured)
    case PaymentCaptured => Some(KytScreened)
    case KytScreened => Some(Signed)
    case Signed => Some(Broadcasted)
    case Broadcasted => Some(Confirmed)
    case Confirmed => Some(Ledgered)
    case Ledgered => Some(Completed)
    case _ => None
  }

  /** Whether the state machine accepts the move from `cur` to `nxt`. */
  predicate Transition(cur: State, nxt: State) {
    if cur.Terminal() then false
    else if nxt == FailedCompensated || nxt == Failed then true
    else ForwardTarget(cur) == Some(nxt)
  }

  /** The check of the success commit: a single hop, or two legal hops through `mid`. */
  predicate ValidPath(from: State, mid: State, to: State) {
    if from == to then true
    else if mid == to || mid == from then Transition(from, to)
    else Transition(from, mid) && Transition(mid, to)
  }

  /** How far along the lifecycle a state is; both failure states come last. */
  function Rank(s: State): nat {
    match s
    case Created => 0
    case PolicyChecked => 1
    case PaymentCaptured => 2
    case KytScreened => 3
    case Signed => 4
    case Broadcasted => 5
    case Confirmed => 6
    case Ledgered => 7
    case Completed => 8
    case FailedCompensated => 9
    case Failed => 9
  }

  /** The step a saga resting in `s` runs next; LEDGERED is never a resting state. */
  function StepFrom(s: State): Option<Step> {
    match s
    case Created => Some(Policy)
    case PolicyChecked => Some(Payment)
    case PaymentCaptured => Some(Kyt)
    case KytScreened => Some(MpcSign)
    case Signed => Some(Broadcast)
    case Broadcasted => Some(Ledger)
    case Confirmed => Some(Ledger)
    case _ => None
  }

  /** One committed move of a saga: a legal transition, or the ledger step's double hop. */
  predicate CommittedHop(from: State, to: State) {
    Transition(from, to) || (from == Confirmed && to == Completed)
  }

  /** Every legal move climbs in rank and none leaves a terminal state, so no path revisits a state. */
  lemma TransitionClimbs(cur: State, nxt: State)
    ensures Transition(cur, nxt) ==> !cur.Terminal() && Rank(cur) < Rank(nxt)
    ensures Transition(cur, nxt) <==>
            !cur.Terminal() && (nxt.IsFailure() || (!nxt.IsFailure() && Rank(nxt) == Rank(cur) + 1))
  {
  }

  /** The success commit of the step a saga is resting on is refused in exactly one
      situation: the ledger step while the saga is still waiting for confirmation. */
  lemma SuccessPathRefusedIff(s: State, step: Step)
    requires StepFrom(s) == Some(step)
    ensures var mid := StateForStep(step);
            var to := if step.Ledger? then Completed else mid;
            ValidPath(s, mid, to) <==> s != Broadcasted
  {
  }
}
