/** The six partner services as an arbitrary environment, and what the saga has done to them. */
module Partners {
  import opened StateMachine

  /** A partner's answer: a value, a recoverable error, or any other error. */
  datatype Reply<+T> = Ok(value: T) | Transient | Hard

  datatype PolicyAnswer = PolicyAnswer(deny: bool, reason: string)

  datatype KytDecision = KytClear | KytReview | KytReject | KytUnknown

  datatype KytAnswer = KytAnswer(decision: KytDecision, reason: string)

  datatype BroadcastAnswer = BroadcastAnswer(hash: string, inMempool: bool, confirmed: bool)

  /** Every choice the environment makes, as a function of how many it has made before:
      partner answers, whether a wait is cut short, how many polls fit before the deadline,
      and the ids handed to outbox events. */
  datatype Oracle = Oracle(
    evaluate: nat -> Reply<PolicyAnswer>,
    authorize: nat -> Reply<string>,
    capture: nat -> Reply<string>,
    voidFails: nat -> bool,
    refundFails: nat -> bool,
    screen: nat -> Reply<KytAnswer>,
    sign: nat -> Reply<string>,
    broadcast: nat -> Reply<BroadcastAnswer>,
    confirmed: nat -> bool,
    post: nat -> Reply<string>,
    givesUp: nat -> bool,
    polls: nat -> nat,
    newEventId: nat -> nat)

  /** The answers that let a purchase go on and leave no id behind. */
  datatype Grant = PolicyAllowed | ScreeningClear | TransactionSigned | ChainConfirmed

  /** What the answers said: how many put a step off for the moment, after how many Execute calls one
      refused it for good, the signatures received, and what was broadcast. */
  datatype Heard = Heard(putOff: nat, refusals: seq<nat>, signatures: seq<string>, sent: seq<string>)

  /** What has reached the partners: the ids of successful calls in order (for voids, of every
      call), the Execute and Compensate calls made, the grants received, the two errors that park a saga,
      and what was heard. */
  datatype Effects = Effects(
    clock: nat,
    executed: seq<Step>,
    compensated: seq<Step>,
    granted: set<Grant>,
    auths: seq<string>,
    capturedAuths: seq<string>,
    captures: seq<string>,
    voids: seq<string>,
    openHolds: seq<string>,
    compensationVoids: seq<string>,
    refunds: seq<string>,
    broadcasts: seq<string>,
    posts: seq<string>,
    ledgerRefused: bool,
    compensationFailed: bool,
    heard: Heard)
  {
    function Tick(): Effects {
      this.(clock := clock + 1)
    }
  }

  const NO_EFFECTS: Effects := Effects(0, [], [], {}, [], [], [], [], [], [], [], [], [], false, false,
    Heard(0, [], [], []))

  /** An answer is received; `yes` says whether it grants `g`. */
  function Received(fx: Effects, g: Grant, yes: bool): Effects {
    fx.Tick().(granted := if yes then fx.granted + {g} else fx.granted)
  }

  /** A transient answer puts the step off; `refused` says whether the answer is final against it. */
  function Noted<T>(fx: Effects, r: Reply<T>, refused: bool): Effects {
    fx.(heard := fx.heard.(putOff := fx.heard.putOff + if r.Transient? then 1 else 0,
                           refusals := if refused then fx.heard.refusals + [|fx.executed|] else fx.heard.refusals))
  }

  function Recorded(ids: seq<string>, r: Reply<string>): seq<string> {
    if r.Ok? then ids + [r.value] else ids
  }

  function Evaluate(fx: Effects, r: Reply<PolicyAnswer>): Effects {
    Received(Noted(fx, r, r.Hard? || (r.Ok? && r.value.deny)), PolicyAllowed, r.Ok? && !r.value.deny)
  }

  function Screen(fx: Effects, r: Reply<KytAnswer>): Effects {
    Received(Noted(fx, r, r.Hard? || (r.Ok? && !r.value.decision.KytClear?)),
             ScreeningClear, r.Ok? && r.value.decision.KytClear?)
  }

  function Sign(fx: Effects, r: Reply<string>): Effects {
    var fx' := Received(Noted(fx, r, r.Hard?), TransactionSigned, r.Ok?);
    fx'.(heard := fx'.heard.(signatures := Recorded(fx'.heard.signatures, r)))
  }

  function AskStatus(fx: Effects, confirmed: bool): Effects {
    Received(fx, ChainConfirmed, confirmed)
  }

  function Authorize(fx: Effects, r: Reply<string>): Effects {
    Noted(fx, r, r.Hard?).Tick().(auths := Recorded(fx.auths, r))
  }

  function Capture(fx: Effects, authId: string, r: Reply<string>): Effects {
    Noted(fx, r, r.Hard?).Tick().(
      captures := Recorded(fx.captures, r),
      capturedAuths := if r.Ok? then fx.capturedAuths + [authId] else fx.capturedAuths)
  }

  /** The void after a failed capture. When it fails the authorization is left open. */
  function Void(fx: Effects, authId: string, fails: bool): Effects {
    if fails then fx.Tick().(openHolds := fx.openHolds + [authId]) else fx.Tick().(voids := fx.voids + [authId])
  }

  /** The void of a compensation. */
  function VoidRecorded(fx: Effects, authId: string, fails: bool): Effects {
    fx.Tick().(compensationVoids := if fails then fx.compensationVoids else fx.compensationVoids + [authId])
  }

  function Refund(fx: Effects, captureId: string, fails: bool): Effects {
    fx.Tick().(refunds := if fails then fx.refunds else fx.refunds + [captureId])
  }

  /** A broadcast of a signed transaction. */
  function BroadcastTx(fx: Effects, hex: string, r: Reply<BroadcastAnswer>): Effects {
    var fx' := Noted(fx, r, r.Hard?).Tick();
    if !r.Ok? then fx'
    else fx'.(broadcasts := fx.broadcasts + [r.value.hash], heard := fx'.heard.(sent := fx'.heard.sent + [hex]))
  }

  function Post(fx: Effects, r: Reply<string>): Effects {
    Noted(fx, r, r.Hard?).Tick().(posts := Recorded(fx.posts, r), ledgerRefused := fx.ledgerRefused || r.Hard?)
  }
}
