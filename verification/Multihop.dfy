// The decisions of the multi-hop executor (src/wallet-engine/convert/multihop.ts) and the
// outcomes its legs can have (src/wallet-engine/convert/intent.ts).
module Multihop {
  import opened Options
  import opened Routes
  import opened PlanStore

  // ----- leg outcomes (intent.ts executors) ---------------------------------------------------

  datatype Status = Settled | StillPending | StillAwaitingFunding | Refunded | RefundPending | Failed

  datatype Outcome = Outcome(status: Status, txids: seq<string>, receivedSats: Option<int>, trackingId: Option<string>)

  // What the executor of each leg method may return.
  predicate MayReturn(m: Method, o: Outcome) {
    && (o.receivedSats.Some? ==> o.status == Settled)
    && match m
       case Swap => o.status == Settled && o.receivedSats.Some? && o.trackingId.None?
       case PegIn | ReceiveLightning | Receive => o.status == StillAwaitingFunding && o.txids == [] && o.trackingId.Some?
       case PegOut => (o.status == Settled || o.status == StillPending) && o.trackingId.Some?
       case PayLightningInvoice => o.status != StillAwaitingFunding && o.trackingId.Some?
       case ToStablecoin => o.status != StillAwaitingFunding && o.receivedSats.None? && o.trackingId.Some?
       case Send => o.status != StillAwaitingFunding && o.status != RefundPending && o.trackingId.Some?
  }

  // ----- what a leg draws ------------------------------------------------------------------------

  const LOCKUP_FIXED_ALLOWANCE_SATS: nat := 2000

  // The most a lockup for an invoice of this amount may ask for: five percent and a fixed
  // allowance above it, rounded up.
  function LockupCeiling(invoiceSats: nat): nat { (invoiceSats * 105 + 99) / 100 + LOCKUP_FIXED_ALLOWANCE_SATS }

  // What the outflow of a swap's transaction may exceed the quoted amount by.
  const SWAP_OUTFLOW_SLACK: nat := 5000

  // ... that is, the least whole amount from five percent above the invoice on, and the allowance.
  lemma LockupCeilingIsLeast(invoiceSats: nat)
    ensures 105 * invoiceSats <= 100 * (LockupCeiling(invoiceSats) - 2000) < 105 * invoiceSats + 100
  {
  }

  // What a leg's provider asks for, and what the transaction built for that pays out.
  datatype Order = Order(asked: int, spent: int)

  // The orders a leg accepts. A peg-out pays what it was handed. A swap takes any positive
  // quote, whatever it was handed, and any transaction that pays out no more than the slack
  // above it. A shift or a stablecoin lockup is paid as asked, up to what the leg was handed; a
  // lightning lockup is paid as asked, up to what its invoice allows, whatever it was handed.
  predicate Admits(m: Method, handed: int, params: Params, order: Order) {
    match m
    case PegOut => order == Order(handed, handed)
    case Swap => order.asked > 0 && 0 <= order.spent <= order.asked + SWAP_OUTFLOW_SLACK
    case Send | ToStablecoin => 0 < order.asked <= handed && order.spent == order.asked
    case PayLightningInvoice => HasInvoiceAmount(params) && 0 < order.asked <= Ceiling(params) && order.spent == order.asked
    case _ => false
  }

  predicate HasInvoiceAmount(params: Params) { params.invoice.Some? && params.invoice.value.sats.Some? }

  // The most a lightning payment with these parameters may lock up.
  function Ceiling(params: Params): nat
    requires HasInvoiceAmount(params)
  {
    LockupCeiling(params.invoice.value.sats.value)
  }

  // What the leg's spend is valued at when it is enforced and recorded.
  function Valued(m: Method, handed: int, order: Order): int { if m == Send then handed else order.asked }

  // No leg pays out more than it is valued at, but for a swap's slack; only a swap and a
  // lightning payment can pay out more than they were handed.
  lemma SpentIsCovered(m: Method, handed: int, params: Params, order: Order)
    requires Admits(m, handed, params, order) && handed > 0
    ensures 0 <= order.spent <= Valued(m, handed, order) + (if m == Swap then SWAP_OUTFLOW_SLACK else 0)
    ensures m != Swap && m != PayLightningInvoice ==> order.spent <= handed
  {
  }

  // The legs for which every order they accept pays out exactly what they were handed: a
  // peg-out, a shift or stablecoin lockup of one unit, and, since it accepts none, a lightning
  // payment whose invoice has no amount.
  predicate MustDrawItsInput(m: Method, handed: int, params: Params) {
    || m == PegOut
    || ((m == Send || m == ToStablecoin) && handed == 1)
    || (m == PayLightningInvoice && !HasInvoiceAmount(params))
  }

  // For every other leg, an accepted order that pays out something else.
  function OtherOrder(m: Method, handed: int): Order {
    if m == Swap then Order(handed, handed + SWAP_OUTFLOW_SLACK)
    else if m == PayLightningInvoice && handed == 1 then Order(2, 2)
    else Order(1, 1)
  }

  lemma MustDrawItsInputWhen(m: Method, handed: int, params: Params)
    requires !IsInflow(m) && handed > 0
    ensures (forall order :: Admits(m, handed, params, order) ==> order.spent == handed) <==> MustDrawItsInput(m, handed, params)
    ensures !MustDrawItsInput(m, handed, params) ==>
      Admits(m, handed, params, OtherOrder(m, handed)) && OtherOrder(m, handed).spent != handed
  {
  }

  // Some accepted order makes a leg pay out exactly what it was handed, for every leg but a
  // lightning payment, and for that one if and only if its invoice has an amount that allows a
  // lockup of that size.
  lemma CanDrawItsInputWhen(m: Method, handed: int, params: Params)
    requires !IsInflow(m) && handed > 0
    ensures (exists order :: Admits(m, handed, params, order) && order.spent == handed) <==>
      (m == PayLightningInvoice ==> HasInvoiceAmount(params) && handed <= Ceiling(params))
  {
    if m == PayLightningInvoice ==> HasInvoiceAmount(params) && handed <= Ceiling(params) {
      assert Admits(m, handed, params, Order(handed, handed));
    }
  }

  // What the plan's exit leg needs from the caller before any leg runs.
  predicate HasLegParams(legs: seq<Leg>, params: Params) {
    forall i :: 0 <= i < |legs| ==>
      match legs[i].call
      case PegOut | ToStablecoin | Send => params.address.Some?
      case PayLightningInvoice => params.invoice.Some?
      case _ => true
  }

  function LegResultFromOutcome(o: Outcome): LegResult {
    LegResult(
      if o.status == Settled then LegSettled else if o.status == StillAwaitingFunding then LegAwaitingFunding else LegPending,
      o.txids,
      if o.status == Settled then o.receivedSats else None,
      o.trackingId)
  }

  function PlanStateAfter(o: Outcome): PlanState {
    if o.status == StillAwaitingFunding then AwaitingFunding else if o.status == Settled then Executing else Pending
  }

  // ----- count-once gate ---------------------------------------------------------------------------

  // How many inflow legs a chain begins with: past them the wallet pays out.
  function FirstValueLegIndex(legs: seq<Leg>): nat {
    if legs == [] then 0
    else if !IsInflow(legs[0].call) then 0
    else 1 + FirstValueLegIndex(legs[1..])
  }

  predicate IsPlanContinuationAuthorized(plan: Option<Plan>) {
    plan.Some? && plan.value.currentLegIndex > FirstValueLegIndex(plan.value.route.legs)
  }

  // Legs whose value ceilings go through the wallet's convert hooks. The Boltz legs fund
  // their lockup through lockupLbtc, which calls the guardrails directly.
  predicate IsHookRouted(m: Method) { m == Swap || m == PegOut || m == Send }

  // On a route the first value leg is the first leg, or the second after an inflow.
  lemma FirstValueLegOfRoute(legs: seq<Leg>)
    requires HasRouteShape(legs) && |legs| >= 2
    ensures FirstValueLegIndex(legs) == (if IsInflow(legs[0].call) then 1 else 0)
    ensures forall i :: 0 <= i < |legs| ==> (IsInflow(legs[i].call) <==> i < FirstValueLegIndex(legs))
  {
    if IsInflow(legs[0].call) {
      assert legs[1..][0] == legs[1];
    }
  }

  // ----- recovery decisions ---------------------------------------------------------------------

  datatype Reason =
    | FinalLegSettled
    | NotDelivered(leg: nat)      // a leg came back refunded or failed
    | Concluded(leg: nat)         // the provider ended the leg without a delivery to chain
    | FirstLegThrew
    | Discarded                   // failed authentication

  datatype Decision =
    | Leave
    | Park
    | Close(why: Reason)
    | Drive(leg: nat, carry: int)
    | Probe

  function AmountOf(r: Option<LegResult>): Option<int> { if r.Some? then r.value.receivedSats else None }

  predicate IsPositive(amount: Option<int>) { amount.Some? && amount.value > 0 }

  // What to do after leg i is known settled with the given amount.
  function AfterSettled(legs: seq<Leg>, i: nat, amount: Option<int>): Decision
    requires i < |legs|
  {
    if i == |legs| - 1 then Close(FinalLegSettled)
    else if !IsPositive(amount) then Park
    else Drive(i + 1, amount.value)
  }

  // The branches of resumeOnePlan that need no provider.
  function ResumeDecision(plan: Plan): Decision {
    var i := plan.currentLegIndex;
    var legs := plan.route.legs;
    if plan.state == NeedsReview then Leave
    else if i >= |legs| then Park
    else match At(plan.legResults, i)
      case None =>
        var carry := if i == 0 then Some(plan.amountSats) else AmountOf(At(plan.legResults, i - 1));
        if !IsPositive(carry) then Park else Drive(i, carry.value)
      case Some(current) =>
        if current.state == LegSettled then AfterSettled(legs, i, current.receivedSats) else Probe
  }

  // ----- provider probes ----------------------------------------------------------------------------

  datatype BoltzState = AwaitingPayment | BoltzSettled | BoltzPaid | BoltzRefunded | BoltzFailed | BoltzWorking

  // A provider's answer to one probe.
  datatype Answer =
    | Shift(terminal: bool, delivered: bool, settleAmount: Option<int>)
    | Peg(done: bool)
    | BoltzSwap(swap: Option<BoltzState>)
    | NoBoltzProbe

  datatype LegProbe = ProbeSettled(receivedSats: Option<int>) | ProbePending | ProbeConcluded | ProbeUnknowable

  // Whether the probe of this leg is sent to the provider this answer comes from.
  predicate Answers(m: Method, a: Answer) {
    match m
    case Swap => true
    case Send | Receive => a.Shift?
    case PegIn | PegOut => a.Peg?
    case PayLightningInvoice | ToStablecoin | ReceiveLightning => a.BoltzSwap? || a.NoBoltzProbe?
  }

  function ProbeLeg(m: Method, result: LegResult, a: Answer): LegProbe
    requires Answers(m, a)
  {
    match m
    case Swap => ProbeUnknowable
    case Send | Receive =>
      if result.trackingId.None? then ProbeUnknowable
      else if !a.terminal then ProbePending
      else if a.delivered then ProbeSettled(a.settleAmount)
      else ProbeConcluded
    case PegOut =>
      if result.trackingId.None? then ProbeUnknowable
      else if a.done then ProbeSettled(None) else ProbePending
    case PegIn =>
      if result.trackingId.None? then ProbeUnknowable
      else if !a.done then ProbePending
      else ProbeUnknowable
    case PayLightningInvoice | ToStablecoin =>
      if result.trackingId.None? then ProbeUnknowable
      else if a.NoBoltzProbe? then ProbePending
      else if a.swap.None? then ProbeConcluded
      else if a.swap.value == BoltzSettled || a.swap.value == BoltzPaid then ProbeSettled(None)
      else if a.swap.value == BoltzRefunded || a.swap.value == BoltzFailed then ProbeConcluded
      else ProbePending
    case ReceiveLightning =>
      if result.trackingId.None? || a.NoBoltzProbe? then ProbePending
      else if a.swap == Some(AwaitingPayment) then ProbePending
      else ProbeUnknowable
  }
}
