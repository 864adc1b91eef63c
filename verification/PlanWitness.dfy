// A run that shows where promises of the plan executor fail, and that what the plan
// theorems assume does happen: a plan that sells DePix for L-BTC and pays a Lightning invoice
// for less than the sale brings.
module PlanWitness {
  import opened Options
  import opened Routes
  import opened Envelopes
  import opened PlanStore
  import opened Multihop
  import opened PlanMachine
  import opened PlanInvariant
  import opened PlanTheorems

  const PLAN_ID: PlanId := "plan"
  const INTENT_SATS: int := 10_000_000
  const SOLD_SATS: int := 100_000
  const INVOICE_SATS: nat := 50_000

  // The sale's quote asks for what the leg was handed, and its transaction pays out 5_000 more;
  // the lockup for an invoice of 50_000 asks for 50_250.
  const SALE: Order := Order(10_000_000, 10_005_000)
  const LOCKUP: Order := Order(50_250, 50_250)

  const LEGS: seq<Leg> := [MarketLeg(DEPIX, LBTC), PayLightningLeg()]
  const ROUTE: Route := Route("sell-and-pay", LEGS, 2, false)
  const PARAMS: Params := Params(None, Some(Invoice("lnbc", Some(INVOICE_SATS))), None)

  const SOLD: Outcome := Outcome(Settled, ["sale"], Some(SOLD_SATS), None)
  const PAYING: Outcome := Outcome(StillPending, ["lockup"], None, Some("swap"))

  // The driver's choices after the conversion was requested: both legs are claimed, ordered,
  // enforced, recorded and sent, and their outcomes stored.
  const CHOICES: seq<Choice> := [
    Goes, Orders(SALE), Goes, Goes, Returns(SOLD), Goes,
    Goes, Orders(LOCKUP), Goes, Goes, Returns(PAYING), Goes]

  function Stored(current: nat, results: seq<Option<LegResult>>, state: PlanState): Plan {
    Plan(PLAN_ID, INTENT_SATS, ROUTE, PARAMS, current, results, state, 1)
  }

  function Kept(plan: Plan, tally: seq<Tally>, owner: Option<DriverId>): Case {
    Case(Some(Sealed(plan)), plan, tally, owner, None, false)
  }

  function World(c: Case, at: Position): State { State(map[PLAN_ID := c], map[0 := Driver(PLAN_ID, at)], map[]) }

  const UNTOUCHED: Tally := Tally(0, 0, 0, 0, false, false, 0, 0)
  const CLAIMED_ONCE: Tally := Tally(1, 0, 0, 0, false, false, 0, 0)
  const RECORDED_ONCE: Tally := Tally(1, 0, 0, 0, false, false, 1, 0)

  function SentOnce(handed: int): Tally { Tally(1, 0, 1, handed, true, false, 1, 0) }

  const CREATED: Plan := Stored(0, [], Executing)
  const SELLING: Plan := Stored(0, [Some(CLAIMED)], Executing)
  const SETTLED: Plan := Stored(0, [Some(LegResultFromOutcome(SOLD))], Executing)
  const LOCKING: Plan := Stored(1, [Some(LegResultFromOutcome(SOLD)), Some(CLAIMED)], Executing)
  const WAITING: Plan := Stored(1, [Some(LegResultFromOutcome(SOLD)), Some(LegResultFromOutcome(PAYING))], Pending)

  // The plan and its driver after each of the choices.
  function CaseAt(k: nat): Case {
    var first := SentOnce(INTENT_SATS);
    if k == 0 then Kept(CREATED, [UNTOUCHED, UNTOUCHED], None)
    else if k <= 2 then Kept(SELLING, [CLAIMED_ONCE, UNTOUCHED], Some(0))
    else if k == 3 then Kept(SELLING, [RECORDED_ONCE, UNTOUCHED], Some(0))
    else if k <= 5 then Kept(SELLING, [first, UNTOUCHED], Some(0))
    else if k == 6 then Kept(SETTLED, [first, UNTOUCHED], None)
    else if k <= 8 then Kept(LOCKING, [first, CLAIMED_ONCE], Some(0))
    else if k == 9 then Kept(LOCKING, [first, RECORDED_ONCE], Some(0))
    else if k <= 11 then Kept(LOCKING, [first, SentOnce(SOLD_SATS)], Some(0))
    else Kept(WAITING, [first, SentOnce(SOLD_SATS)], None)
  }

  // Leg `leg` is handed `carry`, it accepts `order`, and it returns `o`: the positions of
  // its six steps.
  function LegPosition(leg: nat, carry: int, order: Order, o: Outcome, k: nat): Position {
    if k == 0 then WillClaim(leg, carry, false)
    else if k == 1 then Runs(leg, carry, false, Started)
    else if k == 2 then Runs(leg, carry, false, Enforced(true, order))
    else if k == 3 then Runs(leg, carry, false, Recorded(true, true, order))
    else if k == 4 then Runs(leg, carry, false, Sent)
    else Returned(leg, false, o)
  }

  function PositionAt(k: nat): Position {
    if k < 6 then LegPosition(0, INTENT_SATS, SALE, SOLD, k)
    else if k < 12 then LegPosition(1, SOLD_SATS, LOCKUP, PAYING, k - 6)
    else Done
  }

  lemma HasLegsAndParams()
    ensures HasRouteShape(LEGS) && HasLegParams(LEGS, PARAMS)
  {
  }

  // The route is one of those enumerated for selling DePix into a Lightning payment.
  lemma RouteIsCandidate()
    ensures IsCandidate(SHIPPED_RAILS, Selector(DEPIX, BTC, Some(Lightning), None), LEGS)
  {
    assert IsMarketLeg(LEGS[0]);
  }

  ghost predicate Follows(k: nat)
    requires k < 12
  {
    var c, c' := CaseAt(k), CaseAt(k + 1);
    && |c.tally| == |Legs(c)| && CanStep(c, PositionAt(k), CHOICES[k], map[])
    && Step(c, 0, PositionAt(k), CHOICES[k], map[]) == (c', PositionAt(k + 1))
  }

  lemma NothingIsSkipped(c: Case, leg: nat)
    requires Legs(c) == LEGS && (leg == 0 || leg == 1)
    ensures !SkipsCeilings(c, leg)
  {
  }

  lemma ClaimFirst()
    ensures Follows(0)
  {
    assert [UNTOUCHED, UNTOUCHED][0 := CLAIMED_ONCE] == [CLAIMED_ONCE, UNTOUCHED];
    assert WithClaim(CREATED, 0) == SELLING;
  }

  lemma ClaimSecond()
    ensures Follows(6)
  {
    var first := SentOnce(INTENT_SATS);
    assert [first, UNTOUCHED][1 := CLAIMED_ONCE] == [first, CLAIMED_ONCE];
    assert WithClaim(SETTLED, 1) == LOCKING;
  }

  lemma OrderFirst()
    ensures Follows(1)
  {
    assert [CLAIMED_ONCE, UNTOUCHED][0 := CLAIMED_ONCE] == [CLAIMED_ONCE, UNTOUCHED];
    NothingIsSkipped(CaseAt(1), 0);
  }

  lemma OrderSecond()
    ensures Follows(7)
  {
    var first := SentOnce(INTENT_SATS);
    assert [first, CLAIMED_ONCE][1 := CLAIMED_ONCE] == [first, CLAIMED_ONCE];
    NothingIsSkipped(CaseAt(7), 1);
  }

  lemma RecordFirst()
    ensures Follows(2)
  {
    assert [CLAIMED_ONCE, UNTOUCHED][0 := RECORDED_ONCE] == [RECORDED_ONCE, UNTOUCHED];
    NothingIsSkipped(CaseAt(2), 0);
  }

  lemma RecordSecond()
    ensures Follows(8)
  {
    var first := SentOnce(INTENT_SATS);
    assert [first, CLAIMED_ONCE][1 := RECORDED_ONCE] == [first, RECORDED_ONCE];
    NothingIsSkipped(CaseAt(8), 1);
  }

  lemma SendFirst()
    ensures Follows(3)
  {
    var first := SentOnce(INTENT_SATS);
    assert [RECORDED_ONCE, UNTOUCHED][0 := first] == [first, UNTOUCHED];
  }

  lemma SendSecond()
    ensures Follows(9)
  {
    var first := SentOnce(INTENT_SATS);
    assert [first, RECORDED_ONCE][1 := SentOnce(SOLD_SATS)] == [first, SentOnce(SOLD_SATS)];
  }

  lemma ReturnFirst()
    ensures Follows(4)
  {
  }

  lemma ReturnSecond()
    ensures Follows(10)
  {
  }

  lemma StoreFirst()
    ensures Follows(5)
  {
    assert WithResult(SELLING, 0, Some(LegResultFromOutcome(SOLD)), Executing) == SETTLED;
  }

  lemma StoreSecond()
    ensures Follows(11)
  {
    assert WithResult(LOCKING, 1, Some(LegResultFromOutcome(PAYING)), Pending) == WAITING;
  }

  // ----- the run -------------------------------------------------------------------------------------

  const CONVERT: Action := Convert(0, PLAN_ID, ROUTE, INTENT_SATS, PARAMS, 1)

  function SellAndPay(): Trace {
    Trace([INITIAL] + seq(13, k requires 0 <= k < 13 => World(CaseAt(k), PositionAt(k))),
          [CONVERT] + seq(12, k requires 0 <= k < 12 => Move(0, CHOICES[k])))
  }

  lemma Starts()
    ensures CanAct(INITIAL, CONVERT) && Act(INITIAL, CONVERT) == World(CaseAt(0), PositionAt(0))
  {
    HasLegsAndParams();
    assert NewCase(NewPlan(PLAN_ID, ROUTE, INTENT_SATS, PARAMS, 1), 1) == CaseAt(0) by {
      assert seq(2, _ => UNTOUCHED) == [UNTOUCHED, UNTOUCHED];
    }
  }

  lemma EveryChoiceFollows(k: nat)
    requires k < 12
    ensures Follows(k)
  {
    match k
    case 0 => ClaimFirst();
    case 1 => OrderFirst();
    case 2 => RecordFirst();
    case 3 => SendFirst();
    case 4 => ReturnFirst();
    case 5 => StoreFirst();
    case 6 => ClaimSecond();
    case 7 => OrderSecond();
    case 8 => RecordSecond();
    case 9 => SendSecond();
    case 10 => ReturnSecond();
    case 11 => StoreSecond();
  }

  lemma WorldMoves(c: Case, at: Position, choice: Choice)
    requires |c.tally| == |Legs(c)| && CanStep(c, at, choice, map[])
    ensures CanAct(World(c, at), Move(0, choice))
    ensures
      var (c', at') := Step(c, 0, at, choice, map[]);
      Act(World(c, at), Move(0, choice)) == World(c', at')
  {
  }

  lemma SellAndPayRuns()
    ensures IsTrace(SellAndPay())
  {
    var t := SellAndPay();
    forall i | 0 <= i < |t.actions| ensures CanAct(t.states[i], t.actions[i]) && t.states[i+1] == Act(t.states[i], t.actions[i]) {
      if i == 0 {
        Starts();
      } else {
        EveryChoiceFollows(i - 1);
        WorldMoves(CaseAt(i - 1), PositionAt(i - 1), CHOICES[i-1]);
      }
    }
  }

  // The sale is handed, asked for and valued at 10_000_000, and draws 10_005_000. It brings
  // 100_000 sats and the payment is handed them, but draws the 50_250 its lockup asks for.
  lemma DrawsDifferFromWhatWasHanded()
    ensures IsCandidate(SHIPPED_RAILS, Selector(DEPIX, BTC, Some(Lightning), None), LEGS)
    ensures
      var t := SellAndPay();
      && IsTrace(t)
      && Sends(t.states[4], t.actions[4], PLAN_ID, 0)
      && HandedTo(t.states[4], t.actions[4], PLAN_ID, 0) == ValuedAt(t.states[4], t.actions[4], PLAN_ID, 0) == 10_000_000
      && DrawnBy(t.states[4], t.actions[4], PLAN_ID, 0) == 10_005_000
      && Sends(t.states[10], t.actions[10], PLAN_ID, 1)
      && HandedTo(t.states[10], t.actions[10], PLAN_ID, 1) == 100_000
      && DrawnBy(t.states[10], t.actions[10], PLAN_ID, 1) == 50_250
  {
    RouteIsCandidate();
    SellAndPayRuns();
  }

  // The value of the intent is counted, and its spend recorded, at both legs.
  lemma CountsTwice()
    ensures IsCandidate(SHIPPED_RAILS, Selector(DEPIX, BTC, Some(Lightning), None), LEGS)
    ensures
      var t := SellAndPay();
      && IsTrace(t) && !t.states[13].cases[PLAN_ID].tampered
      && WasCounted(t, 13, PLAN_ID, 0) && WasCounted(t, 13, PLAN_ID, 1)
      && RecordCount(t, 13, PLAN_ID, 0) == 1 && RecordCount(t, 13, PLAN_ID, 1) == 1
  {
    RouteIsCandidate();
    SellAndPayRuns();
    var t := SellAndPay();
    assert t.states[13].cases[PLAN_ID] == CaseAt(12);
    CountedIsTallied(t, 13, PLAN_ID, 0);
    CountedIsTallied(t, 13, PLAN_ID, 1);
    SpendsAreTallied(t, 13, PLAN_ID, 0);
    SpendsAreTallied(t, 13, PLAN_ID, 1);
  }
}
