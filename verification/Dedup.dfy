/** Outbox event names and dedup keys, as the strings the store compares. */
module Dedup {
  import opened Options
  import opened StateMachine

  type TxId = string

  datatype EventType =
    | TxCreated
    | TxConfirmed
    | StepDone(step: Step)
    | TxEnded(state: State)

  function StepName(s: Step): string {
    match s
    case Policy => "POLICY"
    case Payment => "PAYMENT"
    case Kyt => "KYT"
    case MpcSign => "MPC_SIGN"
    case Broadcast => "BROADCAST"
    case Ledger => "LEDGER"
  }

  function StateName(s: State): string {
    match s
    case Created => "CREATED"
    case PolicyChecked => "POLICY_CHECKED"
    case PaymentCaptured => "PAYMENT_CAPTURED"
    case KytScreened => "KYT_SCREENED"
    case Signed => "SIGNED"
    case Broadcasted => "BROADCASTED"
    case Confirmed => "CONFIRMED"
    case Ledgered => "LEDGERED"
    case Completed => "COMPLETED"
    case FailedCompensated => "FAILED_COMPENSATED"
    case Failed => "FAILED"
  }

  function EventName(e: EventType): string {
    match e
    case TxCreated => "transaction.created"
    case TxConfirmed => "transaction.confirmed"
    case StepDone(step) => "step." + StepName(step) + ".succeeded"
    case TxEnded(state) => "transaction." + StateName(state)
  }

  function StepField(s: Option<Step>): string {
    match s
    case None => ""
    case Some(step) => StepName(step)
  }

  function Digit(n: nat): char
    requires n < 10
  {
    '0' + n as char
  }

  /** Decimal rendering of an attempt number. */
  function Decimal(n: nat): (s: string)
    ensures |s| > 0
  {
    if n < 10 then [Digit(n)] else Decimal(n / 10) + [Digit(n % 10)]
  }

  function DedupKey(txId: TxId, eventName: string, step: string, attempt: nat): string {
    txId + "|" + eventName + "|" + step + "|" + Decimal(attempt)
  }

  predicate PipeFree(s: string) {
    '|' !in s
  }

  lemma {:induction false} DecimalInjective(a: nat, b: nat)
    requires Decimal(a) == Decimal(b)
    ensures a == b
    decreases a
  {
    if a < 10 && b < 10 {
      assert Decimal(a)[0] == Digit(a) && Decimal(b)[0] == Digit(b);
    } else if a >= 10 && b >= 10 {
      var x, y := Decimal(a / 10), Decimal(b / 10);
      assert (x + [Digit(a % 10)])[..|x|] == x;
      assert (y + [Digit(b % 10)])[..|y|] == y;
      assert Decimal(a)[|x|] == Digit(a % 10) && Decimal(b)[|y|] == Digit(b % 10);
      DecimalInjective(a / 10, b / 10);
    }
  }

  /** Cutting a joined string at its first separator gives back the two parts. */
  lemma {:induction false} CutAtPipe(a: string, b: string, rest: string, rest': string)
    requires PipeFree(a) && PipeFree(b)
    requires a + "|" + rest == b + "|" + rest'
    ensures a == b && rest == rest'
  {
    var l, r := a + "|" + rest, b + "|" + rest';
    assert l[|a|] == '|' && r[|b|] == '|';
    assert forall i :: 0 <= i < |a| ==> l[i] == a[i];
    assert forall i :: 0 <= i < |b| ==> r[i] == b[i];
    assert |a| == |b|;
    assert l[..|a|] == a && r[..|b|] == b;
    assert l[|a| + 1..] == rest && r[|b| + 1..] == rest';
  }

  /** The dedup key loses nothing: it is injective when its three text fields hold no
      separator. */
  lemma {:induction false} DedupKeyInjective(tx: TxId, name: string, step: string, attempt: nat,
                                             tx': TxId, name': string, step': string, attempt': nat)
    requires PipeFree(tx) && PipeFree(name) && PipeFree(step)
    requires PipeFree(tx') && PipeFree(name') && PipeFree(step')
    requires DedupKey(tx, name, step, attempt) == DedupKey(tx', name', step', attempt')
    ensures tx == tx' && name == name' && step == step' && attempt == attempt'
  {
    var d, d' := Decimal(attempt), Decimal(attempt');
    var s, s' := step + "|" + d, step' + "|" + d';
    var n, n' := name + "|" + s, name' + "|" + s';
    assert DedupKey(tx, name, step, attempt) == tx + "|" + n;
    assert DedupKey(tx', name', step', attempt') == tx' + "|" + n';
    CutAtPipe(tx, tx', n, n');
    CutAtPipe(name, name', s, s');
    CutAtPipe(step, step', d, d');
    DecimalInjective(attempt, attempt');
  }

  /** Without that hypothesis the key does collide: two different events share one key. */
  lemma DedupKeyCollides()
    ensures DedupKey("a|b", "c", "", 0) == DedupKey("a", "b|c", "", 0)
  {
    assert "a|b" + "|" + "c" == "a" + "|" + "b|c";
  }

  lemma StepNameInjective(a: Step, b: Step)
    requires StepName(a) == StepName(b)
    ensures a == b
  {
    assert |StepName(a)| == |StepName(b)| && StepName(a)[0] == StepName(b)[0];
  }

  lemma StateNameInjective(a: State, b: State)
    requires StateName(a) == StateName(b)
    ensures a == b
  {
    assert |StateName(a)| == |StateName(b)| && StateName(a)[0] == StateName(b)[0];
    assert StateName(a)[2] == StateName(b)[2];
  }

  lemma StepNamePipeFree(s: Step)
    ensures PipeFree(StepName(s))
  {
  }

  lemma StateNamePipeFree(s: State)
    ensures PipeFree(StateName(s))
  {
    match s
    case Created => assert PipeFree("CREATED");
    case PolicyChecked => assert PipeFree("POLICY_CHECKED");
    case PaymentCaptured => assert PipeFree("PAYMENT_CAPTURED");
    case KytScreened => assert PipeFree("KYT_SCREENED");
    case Signed => assert PipeFree("SIGNED");
    case Broadcasted => assert PipeFree("BROADCASTED");
    case Confirmed => assert PipeFree("CONFIRMED");
    case Ledgered => assert PipeFree("LEDGERED");
    case Completed => assert PipeFree("COMPLETED");
    case FailedCompensated => assert PipeFree("FAILED_COMPENSATED");
    case Failed => assert PipeFree("FAILED");
  }

  lemma NamesPipeFree(e: EventType, s: Option<Step>)
    ensures PipeFree(EventName(e)) && PipeFree(StepField(s))
  {
    assert PipeFree("step.") && PipeFree(".succeeded") && PipeFree("transaction.");
    assert PipeFree("transaction.created") && PipeFree("transaction.confirmed");
    match e {
      case StepDone(step) => StepNamePipeFree(step);
      case TxEnded(state) => StateNamePipeFree(state);
      case _ =>
    }
    match s {
      case None =>
      case Some(step) => StepNamePipeFree(step);
    }
  }

  lemma EventNameShape(e: EventType)
    ensures |EventName(e)| > 12
    ensures EventName(e)[0] == 's' <==> e.StepDone?
    ensures !e.StepDone? ==> (EventName(e)[12] == 'c' <==> !e.TxEnded?)
    ensures e.TxCreated? ==> |EventName(e)| == 19
    ensures e.TxConfirmed? ==> |EventName(e)| == 21
  {
    if e.TxEnded? {
      assert EventName(e)[12] == StateName(e.state)[0];
    }
  }

  lemma EventNameInjective(a: EventType, b: EventType)
    requires EventName(a) == EventName(b)
    ensures a == b
  {
    EventNameShape(a);
    EventNameShape(b);
    var x, y := EventName(a), EventName(b);
    if a.StepDone? {
      assert x[5..|x| - 10] == StepName(a.step);
      assert y[5..|y| - 10] == StepName(b.step);
      StepNameInjective(a.step, b.step);
    } else if a.TxEnded? {
      assert x[12..] == StateName(a.state);
      assert y[12..] == StateName(b.state);
      StateNameInjective(a.state, b.state);
    }
  }

  lemma StepFieldInjective(s: Option<Step>, s': Option<Step>)
    requires StepField(s) == StepField(s')
    ensures s == s'
  {
    if s.Some? && s'.Some? {
      StepNameInjective(s.value, s'.value);
    }
  }

  /** Two executor events of pipe-free transactions share a dedup key only when they are the
      same event of the same step, attempt and transaction. */
  lemma EventKeyInjective(tx: TxId, e: EventType, s: Option<Step>, n: nat,
                          tx': TxId, e': EventType, s': Option<Step>, n': nat)
    requires PipeFree(tx) && PipeFree(tx')
    requires DedupKey(tx, EventName(e), StepField(s), n) == DedupKey(tx', EventName(e'), StepField(s'), n')
    ensures tx == tx' && e == e' && s == s' && n == n'
  {
    NamesPipeFree(e, s);
    NamesPipeFree(e', s');
    DedupKeyInjective(tx, EventName(e), StepField(s), n, tx', EventName(e'), StepField(s'), n');
    EventNameInjective(e, e');
    StepFieldInjective(s, s');
  }
}
