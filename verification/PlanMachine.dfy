// The multi-hop plan executor as a state machine. Any number of drivers run in one process:
// direct convert() calls and recovery passes, each with a snapshot of its plan that may be
// stale. Every step is the code between two awaits, so steps of different drivers interleave
// freely; a driver may stop and the process may crash between any two steps.
module PlanMachine {
  import opened Options
  import opened Routes
  import opened Envelopes
  import opened PlanStore
  import opened Multihop

  type DriverId = nat

  // How SideShift ended a shift. A terminal answer does not change.
  datatype ShiftEnd = ShiftEnd(delivered: bool, settleAmount: Option<int>)
  type Shifts = map<string, ShiftEnd>

  // How far one execution of a leg got. Enforced and Recorded say whether the value ceilings
  // were really enforced and the spend really recorded, or skipped for a continuation leg, and
  // the order it accepted; after Sent the leg's money may have moved.
  datatype Phase = Started | Enforced(full: bool, order: Order) | Recorded(enforced: bool, recorded: bool, order: Order) | Sent

  // What a driver does next.
  datatype Position =
    | HasSnapshot(record: Plan)
    | WillProbe(record: Plan)
    | WillSettle(record: Plan, amount: Option<int>)
    | WillClaim(leg: nat, carry: int, resumed: bool)
    | Runs(leg: nat, carry: int, resumed: bool, phase: Phase)
    | Threw(leg: nat, resumed: bool, retrySafe: bool)
    | Returned(leg: nat, resumed: bool, outcome: Outcome)
    | WillRemove(why: Reason)
    | WillPark
    | Done

  // History of one leg: successful claims, resets to never-started, executions that may have
  // moved money with the amount the last one was handed, whether that one was counted against
  // the value ceilings in full, whether any execution skipped them, recorded spends, and
  // executions that recorded a spend and then failed before sending anything.
  datatype Tally = Tally(
    claims: nat, resets: nat, moves: nat, handed: int, counted: bool, skipped: bool, records: nat, wasted: nat)

  // Everything about one plan: what the file holds under its id, the last record ever sealed
  // under it, the history of its legs, the driver executing a leg of it, why its record was
  // removed, and whether its record was ever tampered with.
  datatype Case = Case(
    slot: Slot<Plan>, truth: Plan, tally: seq<Tally>, owner: Option<DriverId>, closed: Option<Reason>, tampered: bool)

  function Legs(c: Case): seq<Leg> { c.truth.route.legs }

  // ----- one step of one driver ----------------------------------------------------------------

  datatype Choice = Goes | Orders(order: Order) | Answered(answer: Answer) | Throws(retrySafe: bool) | Returns(outcome: Outcome)

  // A SideShift answer agrees with how the shift ended.
  predicate Truthful(shifts: Shifts, m: Method, result: LegResult, a: Answer)
    requires Answers(m, a)
  {
    (m == Send || m == Receive) && result.trackingId.Some? && a.terminal ==>
      result.trackingId.value in shifts && shifts[result.trackingId.value] == ShiftEnd(a.delivered, a.settleAmount)
  }

  predicate CanStep(c: Case, at: Position, choice: Choice, shifts: Shifts) {
    match at
    case Done => false
    case WillProbe(record) =>
      && choice.Answered?
      && record.currentLegIndex < |record.route.legs| && At(record.legResults, record.currentLegIndex).Some?
      && var m := record.route.legs[record.currentLegIndex].call;
      && Answers(m, choice.answer)
      && Truthful(shifts, m, At(record.legResults, record.currentLegIndex).value, choice.answer)
    case Runs(leg, carry, _, phase) =>
      && leg < |Legs(c)|
      && var m := Legs(c)[leg].call;
         (match choice
          case Orders(order) => !IsInflow(m) && phase == Started && Admits(m, carry, c.truth.params, order)
          case Goes => !IsInflow(m) && phase != Started && phase != Sent
          case Throws(retrySafe) => retrySafe ==> phase != Sent && (phase.Recorded? ==> !IsHookRouted(m))
          case Returns(o) => MayReturn(m, o) && phase == (if IsInflow(m) then Started else Sent)
          case Answered(_) => false)
    case _ => choice.Goes?
  }

  function Follow(decision: Decision, record: Plan, resumed: bool): Position {
    match decision
    case Leave => Done
    case Park => WillPark
    case Close(why) => WillRemove(why)
    case Drive(leg, carry) => WillClaim(leg, carry, resumed)
    case Probe => WillProbe(record)
  }

  // A patch of the stored record; nothing happens to an absent or tampered one.
  function Rewrite(c: Case, plan: Plan): Case {
    if IsSealed(c.slot) then c.(slot := Some(Sealed(plan)), truth := plan) else c
  }

  function WithResult(plan: Plan, leg: nat, result: Option<LegResult>, state: PlanState): Plan {
    plan.(legResults := SetAt(plan.legResults, leg, result), state := state)
  }

  function SettledBy(result: LegResult, amount: Option<int>): LegResult {
    result.(state := LegSettled, receivedSats := amount)
  }

  function Closed(c: Case, why: Reason): Case {
    if c.slot.Some? then c.(slot := None, closed := Some(why)) else c
  }

  // Whether a guardrail hook called by leg `leg` of this plan skips the value ceilings: the
  // leg runs in the continuation context and the stored plan authorizes it.
  predicate SkipsCeilings(c: Case, leg: nat)
    requires leg < |Legs(c)|
  {
    && IsHookRouted(Legs(c)[leg].call)
    && leg > FirstValueLegIndex(Legs(c))
    && IsPlanContinuationAuthorized(if IsSealed(c.slot) then Some(c.slot.value.record) else None)
  }

  function Note(c: Case, leg: nat, t: Tally): Case
    requires leg < |c.tally|
  {
    c.(tally := c.tally[leg := t])
  }

  // resumeOnePlan after a probe found leg i settled: store it, then go on.
  function StepSettle(c: Case, record: Plan, amount: Option<int>): (Case, Position) {
    var i := record.currentLegIndex;
    if c.slot == Some(Tampered) || i >= |record.route.legs| || At(record.legResults, i).None? then (c, Done)
    else
      var settled := SettledBy(At(record.legResults, i).value, amount);
      (Rewrite(c, if IsSealed(c.slot) then WithResult(c.slot.value.record, i, Some(settled), c.slot.value.record.state) else c.truth),
       Follow(AfterSettled(record.route.legs, i, amount), record, true))
  }

  // The head of drivePlan's loop: claim the leg on the store's fresh state, or give up.
  function StepClaim(c: Case, d: DriverId, leg: nat, carry: int, resumed: bool): (Case, Position)
    requires |c.tally| == |Legs(c)|
  {
    if leg >= |Legs(c)| || ClaimOutcome(c.slot, leg) != Claimed then (c, Done)
    else
      var t := c.tally[leg];
      (Note(Rewrite(c, WithClaim(c.slot.value.record, leg)), leg, t.(claims := t.claims + 1)).(owner := Some(d)),
       Runs(leg, carry, resumed, Started))
  }

  // The provider's order with the transaction built for it, and the guardrail's enforcement.
  // Some legs enforce first, some last, and a swap between its quote and its transaction.
  function StepOrder(c: Case, leg: nat, carry: int, resumed: bool, order: Order): (Case, Position)
    requires leg < |c.tally| == |Legs(c)|
  {
    var full := !SkipsCeilings(c, leg);
    (Note(c, leg, c.tally[leg].(skipped := c.tally[leg].skipped || !full)), Runs(leg, carry, resumed, Enforced(full, order)))
  }

  // One later stage of executing a leg that moves this wallet's funds.
  function StepStage(c: Case, leg: nat, carry: int, resumed: bool, phase: Phase): (Case, Position)
    requires leg < |c.tally| == |Legs(c)|
  {
    var t := c.tally[leg];
    match phase
    case Enforced(full, order) =>
      var records := !SkipsCeilings(c, leg);
      (Note(c, leg, t.(records := t.records + (if records then 1 else 0))), Runs(leg, carry, resumed, Recorded(full, records, order)))
    case Recorded(enforced, recorded, _) =>
      (Note(c, leg, t.(moves := t.moves + 1, handed := carry, counted := enforced && recorded)),
       Runs(leg, carry, resumed, Sent))
    case _ => (c, Runs(leg, carry, resumed, phase))
  }

  // An execution fails; one that recorded its spend and provably sent nothing has wasted it.
  function StepFails(c: Case, leg: nat, resumed: bool, phase: Phase, retrySafe: bool): (Case, Position)
    requires leg < |c.tally|
  {
    var t := c.tally[leg];
    (if retrySafe && phase.Recorded? && phase.recorded then Note(c, leg, t.(wasted := t.wasted + 1)) else c,
     Threw(leg, resumed, retrySafe))
  }

  function Parked(c: Case): Case {
    Rewrite(c, if IsSealed(c.slot) then c.slot.value.record.(state := NeedsReview) else c.truth)
  }

  // drivePlan's catch block.
  function StepThrew(c: Case, leg: nat, resumed: bool, retrySafe: bool): Case
    requires |c.tally| == |Legs(c)|
  {
    if leg == 0 && !resumed then Closed(c, FirstLegThrew).(owner := None)
    else if !retrySafe || leg >= |c.tally| then Parked(c).(owner := None)
    else if IsSealed(c.slot) then
      var t := c.tally[leg];
      Note(Rewrite(c, WithResult(c.slot.value.record, leg, None, Pending)), leg, t.(resets := t.resets + 1)).(owner := None)
    else c.(owner := None)
  }

  // drivePlan after the leg returned: store the result, then branch on its status.
  function StepReturned(c: Case, leg: nat, resumed: bool, o: Outcome): (Case, Position) {
    if c.slot == Some(Tampered) || leg >= |Legs(c)| then (c.(owner := None), Done)
    else
      var plan := if IsSealed(c.slot) then WithResult(c.slot.value.record, leg, Some(LegResultFromOutcome(o)), PlanStateAfter(o)) else c.truth;
      var c' := Rewrite(c, plan).(owner := None);
      match o.status
      case StillAwaitingFunding | StillPending | RefundPending => (c', Done)
      case Refunded | Failed => (c', WillRemove(NotDelivered(leg)))
      case Settled => (c', Follow(AfterSettled(Legs(c), leg, o.receivedSats), c.truth, resumed))
  }

  function StepProbe(record: Plan, answer: Answer): Position
    requires record.currentLegIndex < |record.route.legs| && At(record.legResults, record.currentLegIndex).Some?
    requires Answers(record.route.legs[record.currentLegIndex].call, answer)
  {
    var i := record.currentLegIndex;
    match ProbeLeg(record.route.legs[i].call, At(record.legResults, i).value, answer)
    case ProbePending => Done
    case ProbeConcluded => WillRemove(Concluded(i))
    case ProbeUnknowable => WillPark
    case ProbeSettled(amount) => WillSettle(record, amount)
  }

  function Step(c: Case, d: DriverId, at: Position, choice: Choice, shifts: Shifts): (Case, Position)
    requires CanStep(c, at, choice, shifts)
    requires |c.tally| == |Legs(c)|
  {
    match at
    case HasSnapshot(record) => (c, Follow(ResumeDecision(record), record, true))
    case WillProbe(record) => (c, StepProbe(record, choice.answer))
    case WillSettle(record, amount) => StepSettle(c, record, amount)
    case WillClaim(leg, carry, resumed) => StepClaim(c, d, leg, carry, resumed)
    case Runs(leg, carry, resumed, phase) =>
      (match choice
       case Throws(retrySafe) => StepFails(c, leg, resumed, phase, retrySafe)
       case Orders(order) => StepOrder(c, leg, carry, resumed, order)
       case Returns(o) => (c, Returned(leg, resumed, o))
       case Goes => StepStage(c, leg, carry, resumed, phase)
       case Answered(_) => (c, at))
    case Threw(leg, resumed, retrySafe) => (StepThrew(c, leg, resumed, retrySafe), Done)
    case Returned(leg, resumed, o) => StepReturned(c, leg, resumed, o)
    case WillRemove(why) => (Closed(c, why), Done)
    case WillPark => (Parked(c), Done)
    case Done => (c, Done)
  }

  // What every step does to the file is one operation of the store, on the record's state at
  // that moment and never on the driver's snapshot.
  lemma StepsAreStoreOperations(c: Case, d: DriverId, at: Position, choice: Choice, shifts: Shifts)
    requires CanStep(c, at, choice, shifts) && |c.tally| == |Legs(c)|
    ensures
      var slot := Step(c, d, at, choice, shifts).0.slot;
      match at
      case WillClaim(leg, _, _) => leg < |Legs(c)| ==> slot == Claim(c.slot, leg)
      case WillSettle(record, amount) =>
        var i := record.currentLegIndex;
        i < |record.route.legs| && At(record.legResults, i).Some? ==>
          slot == Patch(c.slot, (p: Plan) => WithResult(p, i, Some(SettledBy(At(record.legResults, i).value, amount)), p.state))
      case Threw(leg, resumed, retrySafe) =>
        if leg == 0 && !resumed then slot == None
        else leg < |Legs(c)| ==>
          slot == Patch(c.slot, (p: Plan) => if retrySafe then WithResult(p, leg, None, Pending) else p.(state := NeedsReview))
      case Returned(leg, _, o) =>
        leg < |Legs(c)| ==>
          slot == Patch(c.slot, (p: Plan) => WithResult(p, leg, Some(LegResultFromOutcome(o)), PlanStateAfter(o)))
      case WillRemove(_) => slot == None
      case WillPark => slot == Patch(c.slot, (p: Plan) => p.(state := NeedsReview))
      case _ => slot == c.slot
  {
  }

  // ----- the whole process --------------------------------------------------------------------------

  datatype Driver = Driver(plan: PlanId, at: Position)

  datatype State = State(cases: map<PlanId, Case>, drivers: map<DriverId, Driver>, shifts: Shifts)

  datatype Action =
    | Convert(d: DriverId, id: PlanId, route: Route, amountSats: int, params: Params, now: int)
    | ReadPlan(d: DriverId, id: PlanId)            // a recovery pass reads its snapshot of one plan
    | Move(d: DriverId, choice: Choice)
    | Stop(d: DriverId)                            // an error ends the driver
    | Crash
    | Tamper(id: PlanId)
    | DiscardTampered(id: PlanId)                  // a recovery pass removes a record that failed authentication
    | EndShift(shift: string, end: ShiftEnd)

  const INITIAL: State := State(map[], map[], map[])

  predicate CanAct(s: State, a: Action) {
    match a
    case Convert(d, id, route, amountSats, params, _) =>
      HasLegParams(route.legs, params) && d !in s.drivers && id !in s.cases && HasRouteShape(route.legs) && |route.legs| >= 2 && amountSats > 0
    case ReadPlan(d, id) => d !in s.drivers && id in s.cases && IsSealed(s.cases[id].slot)
    case Move(d, choice) =>
      && d in s.drivers && s.drivers[d].plan in s.cases
      && |s.cases[s.drivers[d].plan].tally| == |Legs(s.cases[s.drivers[d].plan])|
      && CanStep(s.cases[s.drivers[d].plan], s.drivers[d].at, choice, s.shifts)
    case Stop(d) => d in s.drivers && s.drivers[d].plan in s.cases
    case Crash => true
    case Tamper(id) => id in s.cases && s.cases[id].slot.Some?
    case DiscardTampered(id) => id in s.cases && s.cases[id].slot == Some(Tampered)
    case EndShift(shift, _) => shift !in s.shifts
  }

  function NewPlan(id: PlanId, route: Route, amountSats: int, params: Params, now: int): Plan {
    Plan(id, amountSats, route, params, 0, [], Executing, now)
  }

  function NewCase(plan: Plan, now: int): Case {
    Case(Put(plan, now), Put(plan, now).value.record, seq(|plan.route.legs|, _ => Tally(0, 0, 0, 0, false, false, 0, 0)), None, None, false)
  }

  function Release(c: Case, d: DriverId): Case { if c.owner == Some(d) then c.(owner := None) else c }

  function Act(s: State, a: Action): State
    requires CanAct(s, a)
  {
    match a
    case Convert(d, id, route, amountSats, params, now) =>
      s.(cases := s.cases[id := NewCase(NewPlan(id, route, amountSats, params, now), now)],
         drivers := s.drivers[d := Driver(id, WillClaim(0, amountSats, false))])
    case ReadPlan(d, id) =>
      s.(drivers := s.drivers[d := Driver(id, HasSnapshot(s.cases[id].slot.value.record))])
    case Move(d, choice) =>
      var id := s.drivers[d].plan;
      var (c, at) := Step(s.cases[id], d, s.drivers[d].at, choice, s.shifts);
      s.(cases := s.cases[id := c], drivers := s.drivers[d := Driver(id, at)])
    case Stop(d) =>
      var id := s.drivers[d].plan;
      s.(cases := s.cases[id := Release(s.cases[id], d)], drivers := s.drivers - {d})
    case Crash => s.(cases := map id | id in s.cases :: s.cases[id].(owner := None), drivers := map[])
    case Tamper(id) => s.(cases := s.cases[id := s.cases[id].(slot := Some(Tampered), tampered := true)])
    case DiscardTampered(id) => s.(cases := s.cases[id := Closed(s.cases[id], Discarded)])
    case EndShift(shift, end) => s.(shifts := s.shifts[shift := end])
  }

  // A run of the process: the states it passes through and the actions between them.
  datatype Trace = Trace(states: seq<State>, actions: seq<Action>)

  ghost predicate IsTrace(t: Trace) {
    && |t.states| == |t.actions| + 1
    && t.states[0] == INITIAL
    && forall i :: 0 <= i < |t.actions| ==> CanAct(t.states[i], t.actions[i]) && t.states[i+1] == Act(t.states[i], t.actions[i])
  }

  // ----- what can be observed of a run -----------------------------------------------------------

  // The action is a step of a driver of plan `id` standing at some position of leg `j`.
  predicate Claims(s: State, a: Action, id: PlanId, j: nat) {
    && a.Move? && CanAct(s, a) && s.drivers[a.d].plan == id && s.drivers[a.d].at.WillClaim? && s.drivers[a.d].at.leg == j
    && j < |Legs(s.cases[id])| && ClaimOutcome(s.cases[id].slot, j) == Claimed
  }

  // The leg's money may move with this action.
  predicate Sends(s: State, a: Action, id: PlanId, j: nat) {
    && a.Move? && CanAct(s, a) && s.drivers[a.d].plan == id && a.choice.Goes?
    && s.drivers[a.d].at.Runs? && s.drivers[a.d].at.leg == j && s.drivers[a.d].at.phase.Recorded?
  }

  // The leg is set back to never-started.
  predicate Resets(s: State, a: Action, id: PlanId, j: nat) {
    && a.Move? && CanAct(s, a) && s.drivers[a.d].plan == id && IsSealed(s.cases[id].slot)
    && s.drivers[a.d].at.Threw? && s.drivers[a.d].at.leg == j && s.drivers[a.d].at.retrySafe
    && (j > 0 || s.drivers[a.d].at.resumed)
  }

  // A guardrail hook of the leg skips the value ceilings.
  predicate Skips(s: State, a: Action, id: PlanId, j: nat) {
    && a.Move? && CanAct(s, a) && s.drivers[a.d].plan == id
    && s.drivers[a.d].at.Runs? && s.drivers[a.d].at.leg == j
    && (a.choice.Orders? || (a.choice.Goes? && s.drivers[a.d].at.phase.Enforced?))
    && j < |Legs(s.cases[id])| && SkipsCeilings(s.cases[id], j)
  }

  // The leg's spend is recorded.
  predicate Records(s: State, a: Action, id: PlanId, j: nat) {
    && a.Move? && CanAct(s, a) && s.drivers[a.d].plan == id && a.choice.Goes?
    && s.drivers[a.d].at.Runs? && s.drivers[a.d].at.leg == j && s.drivers[a.d].at.phase.Enforced?
    && j < |Legs(s.cases[id])| && !SkipsCeilings(s.cases[id], j)
  }

  // An execution whose spend is recorded fails before it sends anything.
  predicate Wastes(s: State, a: Action, id: PlanId, j: nat) {
    && a.Move? && CanAct(s, a) && s.drivers[a.d].plan == id && a.choice == Throws(true)
    && s.drivers[a.d].at.Runs? && s.drivers[a.d].at.leg == j
    && s.drivers[a.d].at.phase.Recorded? && s.drivers[a.d].at.phase.recorded
  }

  // An execution that was enforced against the value ceilings and recorded as spent.
  predicate SendsCounted(s: State, a: Action, id: PlanId, j: nat) {
    && Sends(s, a, id, j)
    && s.drivers[a.d].at.phase.enforced && s.drivers[a.d].at.phase.recorded
  }

  // What a leg was handed, what it draws, and what its spend was valued at.
  function HandedTo(s: State, a: Action, id: PlanId, j: nat): int
    requires Sends(s, a, id, j)
  {
    s.drivers[a.d].at.carry
  }

  function DrawnBy(s: State, a: Action, id: PlanId, j: nat): int
    requires Sends(s, a, id, j)
  {
    s.drivers[a.d].at.phase.order.spent
  }

  function ValuedAt(s: State, a: Action, id: PlanId, j: nat): int
    requires Sends(s, a, id, j)
  {
    Valued(Legs(s.cases[id])[j].call, s.drivers[a.d].at.carry, s.drivers[a.d].at.phase.order)
  }
}
