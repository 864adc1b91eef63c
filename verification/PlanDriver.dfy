// drivePlan and resumeOnePlan (src/wallet-engine/convert/multihop.ts) as they act on the
// store, each store operation being one step of the plan machine. Here a driver runs without
// interruption; the machine is what its steps may be interleaved in.
module PlanDriver {
  import opened Options
  import opened Routes
  import opened Envelopes
  import opened PlanStore
  import opened Multihop
  import opened PlanMachine

  // ----- reaching a case by steps of one driver -------------------------------------------------

  predicate CanSteps(c: Case, d: DriverId, at: Position, choices: seq<Choice>, shifts: Shifts)
    decreases |choices|
  {
    choices == [] || (
      |c.tally| == |Legs(c)| && CanStep(c, at, choices[0], shifts)
      && var (c', at') := Step(c, d, at, choices[0], shifts);
         CanSteps(c', d, at', choices[1..], shifts))
  }

  function Steps(c: Case, d: DriverId, at: Position, choices: seq<Choice>, shifts: Shifts): (Case, Position)
    requires CanSteps(c, d, at, choices, shifts)
    decreases |choices|
  {
    if choices == [] then (c, at)
    else var (c', at') := Step(c, d, at, choices[0], shifts); Steps(c', d, at', choices[1..], shifts)
  }

  ghost predicate Reaches(c: Case, d: DriverId, at: Position, c': Case, at': Position, shifts: Shifts) {
    exists choices :: CanSteps(c, d, at, choices, shifts) && Steps(c, d, at, choices, shifts) == (c', at')
  }

  lemma {:induction false} StepsThenOne(c: Case, d: DriverId, at: Position, choices: seq<Choice>, choice: Choice, shifts: Shifts)
    requires CanSteps(c, d, at, choices, shifts)
    requires
      var (c', at') := Steps(c, d, at, choices, shifts);
      |c'.tally| == |Legs(c')| && CanStep(c', at', choice, shifts)
    ensures CanSteps(c, d, at, choices + [choice], shifts)
    ensures
      var (c', at') := Steps(c, d, at, choices, shifts);
      Steps(c, d, at, choices + [choice], shifts) == Step(c', d, at', choice, shifts)
    decreases |choices|
  {
    if choices == [] {
      assert [choice][1..] == [];
      assert choices + [choice] == [choice];
    } else {
      var (c1, at1) := Step(c, d, at, choices[0], shifts);
      StepsThenOne(c1, d, at1, choices[1..], choice, shifts);
      assert (choices + [choice])[1..] == choices[1..] + [choice];
    }
  }

  lemma ReachesMore(c: Case, d: DriverId, at: Position, c': Case, at': Position, choice: Choice, shifts: Shifts)
    requires Reaches(c, d, at, c', at', shifts) && |c'.tally| == |Legs(c')| && CanStep(c', at', choice, shifts)
    ensures Reaches(c, d, at, Step(c', d, at', choice, shifts).0, Step(c', d, at', choice, shifts).1, shifts)
  {
    var choices :| CanSteps(c, d, at, choices, shifts) && Steps(c, d, at, choices, shifts) == (c', at');
    StepsThenOne(c, d, at, choices, choice, shifts);
  }

  lemma ReachesItself(c: Case, d: DriverId, at: Position, shifts: Shifts)
    ensures Reaches(c, d, at, c, at, shifts)
  {
    assert CanSteps(c, d, at, [], shifts) && Steps(c, d, at, [], shifts) == (c, at);
  }

  // The last record sealed is the one in the file, if the file holds one that authenticates.
  predicate IsCoherent(c: Case) {
    |c.tally| == |Legs(c)| && (IsSealed(c.slot) ==> c.slot.value.record == c.truth)
  }

  // A driver that started at (c0, at0) is now at (c, at).
  ghost predicate Follows(c0: Case, d: DriverId, at0: Position, c: Case, at: Position, shifts: Shifts) {
    IsCoherent(c) && c.truth.route == c0.truth.route && c.truth.params == c0.truth.params && Reaches(c0, d, at0, c, at, shifts)
  }

  lemma StepIsCoherent(c: Case, d: DriverId, at: Position, choice: Choice, shifts: Shifts)
    requires IsCoherent(c) && CanStep(c, at, choice, shifts)
    ensures
      var c' := Step(c, d, at, choice, shifts).0;
      IsCoherent(c') && c'.truth.route == c.truth.route && c'.truth.params == c.truth.params
  {
  }

  lemma FollowsMore(c0: Case, d: DriverId, at0: Position, c: Case, at: Position, choice: Choice, shifts: Shifts, c': Case, at': Position)
    requires Follows(c0, d, at0, c, at, shifts) && CanStep(c, at, choice, shifts)
    requires Step(c, d, at, choice, shifts) == (c', at')
    ensures Follows(c0, d, at0, c', at', shifts)
  {
    StepIsCoherent(c, d, at, choice, shifts);
    ReachesMore(c0, d, at0, c, at, choice, shifts);
  }

  // ----- executing one claimed leg ----------------------------------------------------------------

  // How the executor of a leg ends.
  datatype Execution = LegThrows(retrySafe: bool) | LegReturns(outcome: Outcome)

  // What an executor may return: a lightning payment returns only for an invoice with an amount.
  predicate IsPlausible(m: Method, params: Params, e: Execution) {
    e.LegReturns? ==> MayReturn(m, e.outcome) && (m == PayLightningInvoice ==> HasInvoiceAmount(params))
  }

  predicate Plausible(legs: seq<Leg>, params: Params, world: nat -> Execution) {
    forall i: nat :: i < |legs| ==> IsPlausible(legs[i].call, params, world(i))
  }

  // The stage after this one.
  predicate NextPhase(phase: Phase, next: Phase) {
    match phase
    case Started => next.Enforced?
    case Enforced(_, _) => next.Recorded?
    case _ => next.Sent?
  }

  lemma OrderFollows(c0: Case, d: DriverId, at0: Position, c: Case, leg: nat, carry: int, resumed: bool, shifts: Shifts)
    returns (c': Case, next: Phase)
    requires Follows(c0, d, at0, c, Runs(leg, carry, resumed, Started), shifts) && carry > 0
    requires leg < |Legs(c0)| && !IsInflow(Legs(c0)[leg].call)
    requires Legs(c0)[leg].call == PayLightningInvoice ==> HasInvoiceAmount(c0.truth.params)
    ensures Follows(c0, d, at0, c', Runs(leg, carry, resumed, next), shifts) && NextPhase(Started, next)
    ensures c'.slot == c.slot
  {
    var order := if Legs(c0)[leg].call == PayLightningInvoice then Order(1, 1) else Order(carry, carry);
    var (c1, at1) := StepOrder(c, leg, carry, resumed, order);
    FollowsMore(c0, d, at0, c, Runs(leg, carry, resumed, Started), Orders(order), shifts, c1, at1);
    c', next := c1, at1.phase;
  }

  lemma StageFollows(c0: Case, d: DriverId, at0: Position, c: Case, leg: nat, carry: int, resumed: bool, phase: Phase, shifts: Shifts)
    returns (c': Case, next: Phase)
    requires Follows(c0, d, at0, c, Runs(leg, carry, resumed, phase), shifts)
    requires leg < |Legs(c0)| && !IsInflow(Legs(c0)[leg].call) && phase != Started && phase != Sent
    ensures Follows(c0, d, at0, c', Runs(leg, carry, resumed, next), shifts) && NextPhase(phase, next)
    ensures c'.slot == c.slot
  {
    var (c1, at1) := StepStage(c, leg, carry, resumed, phase);
    FollowsMore(c0, d, at0, c, Runs(leg, carry, resumed, phase), Goes, shifts, c1, at1);
    c', next := c1, at1.phase;
  }

  function AfterExecution(leg: nat, resumed: bool, e: Execution): Position {
    match e
    case LegThrows(retrySafe) => Threw(leg, resumed, retrySafe)
    case LegReturns(o) => Returned(leg, resumed, o)
  }

  // The machine's way from a claimed leg to its outcome leaves the record as it is.
  lemma ExecutionFollows(c0: Case, d: DriverId, at0: Position, c: Case, leg: nat, carry: int, resumed: bool, e: Execution, shifts: Shifts)
    returns (c': Case)
    requires Follows(c0, d, at0, c, Runs(leg, carry, resumed, Started), shifts)
    requires leg < |Legs(c0)| && carry > 0 && IsPlausible(Legs(c0)[leg].call, c0.truth.params, e)
    ensures Follows(c0, d, at0, c', AfterExecution(leg, resumed, e), shifts) && c'.slot == c.slot
  {
    c' := c;
    var phase := Started;
    if e.LegReturns? && !IsInflow(Legs(c0)[leg].call) {
      c', phase := OrderFollows(c0, d, at0, c', leg, carry, resumed, shifts);
      c', phase := StageFollows(c0, d, at0, c', leg, carry, resumed, phase, shifts);
      c', phase := StageFollows(c0, d, at0, c', leg, carry, resumed, phase, shifts);
    }
    var choice := match e case LegThrows(retrySafe) => Throws(retrySafe) case LegReturns(o) => Returns(o);
    FollowsMore(c0, d, at0, c', Runs(leg, carry, resumed, phase), choice, shifts, c', AfterExecution(leg, resumed, e));
  }

  // ----- one store operation, one step --------------------------------------------------------------

  lemma ClaimFollows(c0: Case, d: DriverId, at0: Position, c: Case, leg: nat, carry: int, resumed: bool, shifts: Shifts)
    returns (c': Case)
    requires Follows(c0, d, at0, c, WillClaim(leg, carry, resumed), shifts) && leg < |Legs(c0)|
    ensures c'.slot == Claim(c.slot, leg)
    ensures Follows(c0, d, at0, c', if ClaimOutcome(c.slot, leg) == Claimed then Runs(leg, carry, resumed, Started) else Done, shifts)
  {
    var (c1, at1) := StepClaim(c, d, leg, carry, resumed);
    FollowsMore(c0, d, at0, c, WillClaim(leg, carry, resumed), Goes, shifts, c1, at1);
    c' := c1;
  }

  lemma ThrewFollows(c0: Case, d: DriverId, at0: Position, c: Case, leg: nat, resumed: bool, retrySafe: bool, shifts: Shifts)
    returns (c': Case)
    requires Follows(c0, d, at0, c, Threw(leg, resumed, retrySafe), shifts) && leg < |Legs(c0)|
    ensures Follows(c0, d, at0, c', Done, shifts)
    ensures c'.slot == (
      if leg == 0 && !resumed then None
      else Patch(c.slot, (p: Plan) => if retrySafe then WithResult(p, leg, None, Pending) else p.(state := NeedsReview)))
  {
    c' := StepThrew(c, leg, resumed, retrySafe);
    FollowsMore(c0, d, at0, c, Threw(leg, resumed, retrySafe), Goes, shifts, c', Done);
    StepsAreStoreOperations(c, d, Threw(leg, resumed, retrySafe), Goes, shifts);
  }

  // What a driver does after its leg returned, if its result could be stored.
  function AfterReturned(legs: seq<Leg>, leg: nat, resumed: bool, o: Outcome): Position
    requires leg < |legs|
  {
    match o.status
    case Settled =>
      if leg == |legs| - 1 then WillRemove(FinalLegSettled)
      else if IsPositive(o.receivedSats) then WillClaim(leg + 1, o.receivedSats.value, resumed)
      else WillPark
    case Refunded | Failed => WillRemove(NotDelivered(leg))
    case _ => Done
  }

  lemma ReturnedIs(c: Case, leg: nat, resumed: bool, o: Outcome)
    requires leg < |Legs(c)|
    ensures StepReturned(c, leg, resumed, o).1 == if IsTampered(c.slot) then Done else AfterReturned(Legs(c), leg, resumed, o)
    ensures StepReturned(c, leg, resumed, o).0.slot
         == Patch(c.slot, (p: Plan) => WithResult(p, leg, Some(LegResultFromOutcome(o)), PlanStateAfter(o)))
  {
  }

  lemma ReturnedFollows(c0: Case, d: DriverId, at0: Position, c: Case, leg: nat, resumed: bool, o: Outcome, shifts: Shifts)
    returns (c': Case)
    requires Follows(c0, d, at0, c, Returned(leg, resumed, o), shifts) && leg < |Legs(c0)|
    ensures c'.slot == Patch(c.slot, (p: Plan) => WithResult(p, leg, Some(LegResultFromOutcome(o)), PlanStateAfter(o)))
    ensures Follows(c0, d, at0, c', if IsTampered(c.slot) then Done else AfterReturned(Legs(c0), leg, resumed, o), shifts)
  {
    ReturnedIs(c, leg, resumed, o);
    var (c1, at1) := StepReturned(c, leg, resumed, o);
    FollowsMore(c0, d, at0, c, Returned(leg, resumed, o), Goes, shifts, c1, at1);
    c' := c1;
  }

  lemma RemoveFollows(c0: Case, d: DriverId, at0: Position, c: Case, why: Reason, shifts: Shifts)
    returns (c': Case)
    requires Follows(c0, d, at0, c, WillRemove(why), shifts)
    ensures Follows(c0, d, at0, c', Done, shifts) && c'.slot == None
  {
    c' := Closed(c, why);
    FollowsMore(c0, d, at0, c, WillRemove(why), Goes, shifts, c', Done);
  }

  lemma ParkFollows(c0: Case, d: DriverId, at0: Position, c: Case, shifts: Shifts)
    returns (c': Case)
    requires Follows(c0, d, at0, c, WillPark, shifts)
    ensures Follows(c0, d, at0, c', Done, shifts)
    ensures c'.slot == Patch(c.slot, (p: Plan) => p.(state := NeedsReview))
  {
    c' := Parked(c);
    FollowsMore(c0, d, at0, c, WillPark, Goes, shifts, c', Done);
  }

  // ----- drivePlan ---------------------------------------------------------------------------------------

  datatype Driven =
    | NotDriven(claim: ClaimResult)        // another pass owns the leg, or the record is gone
    | Rethrown                             // the first leg failed on the direct path: plan dropped
    | KeptForRetry                         // a leg failed before moving anything
    | KeptForReview                        // ... or ambiguously, or settled without an amount
    | StoreFailed                          // the record could not be rewritten
    | InFlight(status: Status)
    | Ended(status: Status)

  // One execution of a leg and what it was given.
  datatype Ran = Ran(leg: nat, amount: int)

  // The legs that were executed with what they were given: consecutive legs, each given what
  // the one before it really settled.
  ghost predicate IsChain(ran: seq<Ran>, start: nat, carry: int, world: nat -> Execution) {
    && (ran != [] ==> ran[0] == Ran(start, carry))
    && forall m, n :: 0 <= m < |ran| && 0 <= n < |ran| && n == m + 1 ==> HandsOver(ran[m], ran[n], world)
  }

  ghost predicate HandsOver(before: Ran, after: Ran, world: nat -> Execution) {
    && after.leg == before.leg + 1
    && world(before.leg).LegReturns? && world(before.leg).outcome.status == Settled
    && world(before.leg).outcome.receivedSats == Some(after.amount) && after.amount > 0
  }

  // The result tells how the last execution ended.
  ghost predicate Reports(result: Driven, legs: seq<Leg>, leg: nat, resumed: bool, e: Execution) {
    match e
    case LegThrows(retrySafe) =>
      result == (if leg == 0 && !resumed then Rethrown else if retrySafe then KeptForRetry else KeptForReview)
    case LegReturns(o) =>
      || result == StoreFailed
      || (match o.status
          case StillPending | StillAwaitingFunding | RefundPending => result == InFlight(o.status)
          case Refunded | Failed => result == Ended(o.status)
          case Settled =>
            if leg == |legs| - 1 then result == Ended(Settled)
            else (o.receivedSats.None? || o.receivedSats.value <= 0) && result == KeptForReview)
  }

  // What an executor returned is what is stored of its leg.
  ghost predicate HoldsOutcome(slot: Slot<Plan>, leg: nat, o: Outcome) {
    && IsSealed(slot)
    && var stored := At(slot.value.record.legResults, leg);
       && stored.Some?
       && stored.value.trackingId == o.trackingId && stored.value.txids == o.txids
       && stored.value.receivedSats == (if o.status == Settled then o.receivedSats else None)
       && (stored.value.state == LegSettled <==> o.status == Settled)
       && (stored.value.state == LegAwaitingFunding <==> o.status == StillAwaitingFunding)
       && stored.value.state != LegInFlight
  }

  // The record is as it was but for what is stored of this leg, and its state.
  ghost predicate OnlyLegDiffers(was: Slot<Plan>, now: Slot<Plan>, leg: nat) {
    IsSealed(was) && IsSealed(now) ==>
      && SamePlan(was.value.record, now.value.record) && now.value.record.currentLegIndex == was.value.record.currentLegIndex
      && forall j: nat :: j != leg ==> At(now.value.record.legResults, j) == At(was.value.record.legResults, j)
  }

  // The state of the stored plan, if it authenticates.
  predicate HasState(slot: Slot<Plan>, state: PlanState) { IsSealed(slot) && slot.value.record.state == state }

  // drivePlan's catch block.
  method AfterThrow(
      store: ConversionPlanStore, id: PlanId, leg: nat, resumed: bool, retrySafe: bool,
      ghost c0: Case, ghost d: DriverId, ghost at0: Position, ghost from: Case, ghost shifts: Shifts)
    returns (result: Driven, ghost c: Case)
    requires store.file.Valid() && store.file.Holds(id) == from.slot
    requires Follows(c0, d, at0, from, Threw(leg, resumed, retrySafe), shifts) && leg < |Legs(c0)|
    modifies store.file
    ensures store.file.Valid() && store.file.Holds(id) == c.slot && Follows(c0, d, at0, c, Done, shifts)
    ensures forall other :: other != id ==> store.file.Holds(other) == old(store.file.Holds(other))
    ensures Reports(result, Legs(c0), leg, resumed, LegThrows(retrySafe))
    // The first leg of a direct call takes the plan with it. After a safe failure the leg is as
    // if never started; after any other the plan waits for a human with the leg as it is.
    ensures leg == 0 && !resumed ==> c.slot == None
    ensures !(leg == 0 && !resumed) && !IsSealed(from.slot) ==> c.slot == from.slot
    ensures !(leg == 0 && !resumed) && IsSealed(from.slot) ==>
      && OnlyLegDiffers(from.slot, c.slot, leg)
      && (if retrySafe then HasState(c.slot, Pending) && At(c.slot.value.record.legResults, leg) == None
          else HasState(c.slot, NeedsReview) && At(c.slot.value.record.legResults, leg) == At(from.slot.value.record.legResults, leg))
  {
    c := ThrewFollows(c0, d, at0, from, leg, resumed, retrySafe, shifts);
    if leg == 0 && !resumed {
      store.file.RemoveRecord(id);
      return Rethrown, c;
    }
    if retrySafe {
      var _ := store.file.PatchRecord(id, (p: Plan) => WithResult(p, leg, None, Pending));
      return KeptForRetry, c;
    }
    var _ := store.file.PatchRecord(id, (p: Plan) => p.(state := NeedsReview));
    return KeptForReview, c;
  }

  // drivePlan after its leg returned: a final answer, or None to go on with the next leg.
  method AfterReturn(
      store: ConversionPlanStore, id: PlanId, legs: seq<Leg>, leg: nat, resumed: bool, o: Outcome,
      ghost c0: Case, ghost d: DriverId, ghost at0: Position, ghost from: Case, ghost shifts: Shifts)
    returns (result: Option<Driven>, ghost c: Case)
    requires store.file.Valid() && store.file.Holds(id) == from.slot
    requires Follows(c0, d, at0, from, Returned(leg, resumed, o), shifts) && leg < |Legs(c0)| && legs == Legs(c0)
    modifies store.file
    ensures store.file.Valid() && store.file.Holds(id) == c.slot
    ensures forall other :: other != id ==> store.file.Holds(other) == old(store.file.Holds(other))
    ensures result.Some? ==> Follows(c0, d, at0, c, Done, shifts) && Reports(result.value, legs, leg, resumed, LegReturns(o))
    ensures result == Some(StoreFailed) <==> IsTampered(from.slot)
    ensures IsSealed(from.slot) && (result.None? || !result.value.Ended?) ==>
      HoldsOutcome(c.slot, leg, o) && OnlyLegDiffers(from.slot, c.slot, leg)
    ensures IsSealed(from.slot) && result.Some? && !result.value.Ended? ==>
      HasState(c.slot, if result.value == KeptForReview then NeedsReview else if o.status == StillAwaitingFunding then AwaitingFunding else Pending)
    ensures result.Some? && result.value.Ended? ==> c.slot == None
    ensures result.None? ==>
      && c.slot == Patch(from.slot, (p: Plan) => WithResult(p, leg, Some(LegResultFromOutcome(o)), PlanStateAfter(o)))
      && leg + 1 < |legs| && o.status == Settled && IsPositive(o.receivedSats)
      && Follows(c0, d, at0, c, WillClaim(leg + 1, o.receivedSats.value, resumed), shifts)
  {
    c := ReturnedFollows(c0, d, at0, from, leg, resumed, o, shifts);
    var authentic := store.file.PatchRecord(id, (p: Plan) => WithResult(p, leg, Some(LegResultFromOutcome(o)), PlanStateAfter(o)));
    if !authentic { return Some(StoreFailed), c; }
    if o.status == StillAwaitingFunding || o.status == StillPending || o.status == RefundPending {
      return Some(InFlight(o.status)), c;
    }
    if o.status == Refunded || o.status == Failed || leg == |legs| - 1 {
      c := RemoveFollows(c0, d, at0, c, AfterReturned(legs, leg, resumed, o).why, shifts);
      store.file.RemoveRecord(id);
      return Some(Ended(o.status)), c;
    }
    if o.receivedSats.None? || o.receivedSats.value <= 0 {
      c := ParkFollows(c0, d, at0, c, shifts);
      var _ := store.file.PatchRecord(id, (p: Plan) => p.(state := NeedsReview));
      return Some(KeptForReview), c;
    }
    return None, c;
  }

  // The record is of the same plan, and says the same of every leg but this one.
  ghost predicate AgreesBut(was: Slot<Plan>, now: Slot<Plan>, leg: nat)
    requires IsSealed(was) && IsSealed(now)
  {
    && SamePlan(was.value.record, now.value.record)
    && forall j: nat :: j != leg ==> At(now.value.record.legResults, j) == At(was.value.record.legResults, j)
  }

  // The stored plan authenticates and has not started this leg.
  ghost predicate CanStart(slot: Slot<Plan>, leg: nat) { IsSealed(slot) && At(slot.value.record.legResults, leg) == None }

  // An unstarted leg was executed, and what it returned is stored if the record was kept.
  ghost predicate LegRan(was: Slot<Plan>, now: Slot<Plan>, leg: nat, e: Execution) {
    && CanStart(was, leg)
    && (IsSealed(now) ==> AgreesBut(was, now, leg) && (e.LegReturns? ==> HoldsOutcome(now, leg, e.outcome)))
  }

  // Every leg that was executed and returned is stored as it returned.
  ghost predicate StoresWhatRan(slot: Slot<Plan>, ran: seq<Ran>, world: nat -> Execution) {
    IsSealed(slot) ==>
      forall n :: 0 <= n < |ran| && world(ran[n].leg).LegReturns? ==> HoldsOutcome(slot, ran[n].leg, world(ran[n].leg).outcome)
  }

  // An authentic record with no leg started from `leg` on.
  ghost predicate IsReady(slot: Slot<Plan>, leg: nat) {
    IsSealed(slot) && forall j: nat :: leg <= j ==> At(slot.value.record.legResults, j).None?
  }

  lemma StaysReady(slot: Slot<Plan>, leg: nat, o: Outcome)
    ensures IsReady(slot, leg) ==>
      IsReady(Patch(Claim(slot, leg), (p: Plan) => WithResult(p, leg, Some(LegResultFromOutcome(o)), PlanStateAfter(o))), leg + 1)
  {
  }

  // Every leg from `start` on settles, with an amount to go on with.
  ghost predicate AllSettle(legs: seq<Leg>, start: nat, world: nat -> Execution) {
    forall j: nat :: start <= j < |legs| ==>
      && world(j).LegReturns? && world(j).outcome.status == Settled
      && (j < |legs| - 1 ==> IsPositive(world(j).outcome.receivedSats))
  }

  // One turn of drivePlan's loop: claim the leg, execute it, deal with how it ended.
  method DriveLeg(
      store: ConversionPlanStore, id: PlanId, legs: seq<Leg>, leg: nat, amount: int, resumed: bool, execution: Execution,
      ghost c0: Case, ghost d: DriverId, ghost at0: Position, ghost from: Case, ghost shifts: Shifts)
    returns (claim: ClaimResult, result: Option<Driven>, ghost c: Case)
    requires store.file.Valid() && store.file.Holds(id) == from.slot
    requires Follows(c0, d, at0, from, WillClaim(leg, amount, resumed), shifts) && leg < |legs| && legs == Legs(c0)
    requires amount > 0 && IsPlausible(legs[leg].call, c0.truth.params, execution)
    modifies store.file
    ensures store.file.Valid() && store.file.Holds(id) == c.slot
    ensures forall other :: other != id ==> store.file.Holds(other) == old(store.file.Holds(other))
    ensures claim == ClaimOutcome(from.slot, leg)
    ensures claim != Claimed ==> result == Some(NotDriven(claim))
    ensures claim == Claimed && result.Some? ==> result.value != StoreFailed && (result.value.Ended? ==> c.slot == None)
    ensures result.None? && IsReady(from.slot, leg) ==> IsReady(c.slot, leg + 1)
    ensures if claim == Claimed then LegRan(from.slot, c.slot, leg, execution) else !CanStart(from.slot, leg) && c.slot == from.slot
    ensures result.None? ==> IsSealed(c.slot)
    ensures result.Some? && result.value.InFlight? ==>
      HasState(c.slot, if result.value.status == StillAwaitingFunding then AwaitingFunding else Pending)
    ensures result.Some? ==>
      Follows(c0, d, at0, c, Done, shifts) && (claim == Claimed ==> Reports(result.value, legs, leg, resumed, execution))
    ensures result.None? ==>
      && leg + 1 < |legs| && execution.LegReturns? && execution.outcome.status == Settled && IsPositive(execution.outcome.receivedSats)
      && Follows(c0, d, at0, c, WillClaim(leg + 1, execution.outcome.receivedSats.value, resumed), shifts)
  {
    claim := store.ClaimLeg(id, leg);
    c := ClaimFollows(c0, d, at0, from, leg, amount, resumed, shifts);
    if claim != Claimed { return claim, Some(NotDriven(claim)), c; }
    c := ExecutionFollows(c0, d, at0, c, leg, amount, resumed, execution, shifts);
    if execution.LegThrows? {
      var thrown;
      thrown, c := AfterThrow(store, id, leg, resumed, execution.retrySafe, c0, d, at0, c, shifts);
      return claim, Some(thrown), c;
    }
    ghost var claimed := c;
    result, c := AfterReturn(store, id, legs, leg, resumed, execution.outcome, c0, d, at0, c, shifts);
    if result.None? { StaysReady(from.slot, leg, execution.outcome); }
  }

  lemma ChainGrows(ran: seq<Ran>, next: Ran, start: nat, carry: int, world: nat -> Execution)
    requires ran != [] && IsChain(ran, start, carry, world) && HandsOver(ran[|ran|-1], next, world)
    ensures IsChain(ran + [next], start, carry, world)
  {
    var more := ran + [next];
    forall m, n | 0 <= m < |more| && 0 <= n < |more| && n == m + 1 ensures HandsOver(more[m], more[n], world) {
      if n < |ran| { assert HandsOver(ran[m], ran[n], world); }
    }
  }

  lemma StoresOneMore(was: Slot<Plan>, now: Slot<Plan>, ran: seq<Ran>, next: Ran, world: nat -> Execution)
    requires StoresWhatRan(was, ran, world) && LegRan(was, now, next.leg, world(next.leg))
    requires forall n :: 0 <= n < |ran| ==> ran[n].leg != next.leg
    ensures StoresWhatRan(now, ran + [next], world)
  {
    if IsSealed(now) {
      forall n | 0 <= n < |ran + [next]| && world((ran + [next])[n].leg).LegReturns?
        ensures HoldsOutcome(now, (ran + [next])[n].leg, world((ran + [next])[n].leg).outcome)
      {
        if n < |ran| { assert HoldsOutcome(was, ran[n].leg, world(ran[n].leg).outcome); }
      }
    }
  }

  // The legs from `start` up to the next one were executed, and what they returned is stored.
  ghost predicate DrivenUpTo(was: Slot<Plan>, now: Slot<Plan>, ran: seq<Ran>, start: nat, carry: int, next: Ran, world: nat -> Execution) {
    && IsChain(ran, start, carry, world) && |ran| == next.leg - start
    && (forall n :: 0 <= n < |ran| ==> ran[n].leg == start + n)
    && (if ran == [] then next == Ran(start, carry) && now == was else HandsOver(ran[|ran|-1], next, world) && CanStart(was, start))
    && StoresWhatRan(now, ran, world)
    && (IsReady(was, start) ==> IsReady(now, next.leg))
  }

  // The next leg was executed too.
  lemma RanOneMore(was: Slot<Plan>, before: Slot<Plan>, now: Slot<Plan>, ran: seq<Ran>, start: nat, carry: int, next: Ran, world: nat -> Execution)
    requires DrivenUpTo(was, before, ran, start, carry, next, world) && LegRan(before, now, next.leg, world(next.leg))
    ensures IsChain(ran + [next], start, carry, world) && CanStart(was, start)
    ensures StoresWhatRan(now, ran + [next], world)
    ensures forall n :: 0 <= n < |ran + [next]| ==> (ran + [next])[n].leg == start + n
  {
    if ran != [] { ChainGrows(ran, next, start, carry, world); }
    StoresOneMore(before, now, ran, next, world);
  }

  lemma DrivenOneMore(
      was: Slot<Plan>, before: Slot<Plan>, now: Slot<Plan>, ran: seq<Ran>, start: nat, carry: int, next: Ran, later: Ran, world: nat -> Execution)
    requires DrivenUpTo(was, before, ran, start, carry, next, world) && LegRan(before, now, next.leg, world(next.leg))
    requires HandsOver(next, later, world) && (IsReady(before, next.leg) ==> IsReady(now, later.leg))
    ensures DrivenUpTo(was, now, ran + [next], start, carry, later, world)
  {
    RanOneMore(was, before, now, ran, start, carry, next, world);
  }

  // Where every leg settles, a turn that ends the drive was the last leg's.
  lemma EndsSettled(legs: seq<Leg>, start: nat, leg: nat, resumed: bool, world: nat -> Execution, result: Driven)
    requires start <= leg < |legs| && AllSettle(legs, start, world)
    requires Reports(result, legs, leg, resumed, world(leg)) && result != StoreFailed
    ensures result == Ended(Settled) && leg == |legs| - 1
  {
  }

  // How a drive from `start` may end, with the record as it was before and as it is after.
  ghost predicate DroveAs(
      was: Slot<Plan>, now: Slot<Plan>, result: Driven, ran: seq<Ran>, legs: seq<Leg>, start: nat, carry: int, resumed: bool,
      world: nat -> Execution)
  {
    && IsChain(ran, start, carry, world)
    && (result.NotDriven? || (ran != [] && Reports(result, legs, ran[|ran|-1].leg, resumed, world(ran[|ran|-1].leg))))
    // The first leg runs exactly when its stored plan authenticates and has not started it.
    && (ran != [] <==> CanStart(was, start))
    && result != StoreFailed && (ran == [] ==> result.NotDriven? && now == was)
    // As long as the record is kept it holds what every executed leg returned.
    && StoresWhatRan(now, ran, world)
    && (result.InFlight? ==> HasState(now, if result.status == StillAwaitingFunding then AwaitingFunding else Pending))
    // When nothing goes wrong the plan is driven to its end and its record removed.
    && (IsReady(was, start) && AllSettle(legs, start, world) ==>
          result == Ended(Settled) && |ran| == |legs| - start && now == None)
  }

  // The next leg could not be claimed.
  lemma EndsUnclaimed(
      was: Slot<Plan>, now: Slot<Plan>, claim: ClaimResult, ran: seq<Ran>, legs: seq<Leg>, start: nat, carry: int, resumed: bool,
      next: Ran, world: nat -> Execution)
    requires DrivenUpTo(was, now, ran, start, carry, next, world) && start <= next.leg && !CanStart(now, next.leg)
    ensures DroveAs(was, now, NotDriven(claim), ran, legs, start, carry, resumed, world)
  {
  }

  // The next leg was the last to run.
  lemma EndsHere(
      was: Slot<Plan>, before: Slot<Plan>, now: Slot<Plan>, result: Driven, ran: seq<Ran>, legs: seq<Leg>, start: nat, carry: int,
      resumed: bool, next: Ran, world: nat -> Execution)
    requires DrivenUpTo(was, before, ran, start, carry, next, world) && LegRan(before, now, next.leg, world(next.leg))
    requires start <= next.leg < |legs| && result != StoreFailed && Reports(result, legs, next.leg, resumed, world(next.leg))
    requires result.InFlight? ==> HasState(now, if result.status == StillAwaitingFunding then AwaitingFunding else Pending)
    requires result.Ended? ==> now == None
    ensures DroveAs(was, now, result, ran + [next], legs, start, carry, resumed, world)
  {
    RanOneMore(was, before, now, ran, start, carry, next, world);
    if AllSettle(legs, start, world) { EndsSettled(legs, start, next.leg, resumed, world, result); }
  }

  // A turn of the loop as seen from where the drive began.
  lemma TurnTaken(
      was: Slot<Plan>, before: Slot<Plan>, now: Slot<Plan>, claim: ClaimResult, answer: Option<Driven>, ran: seq<Ran>, legs: seq<Leg>,
      start: nat, carry: int, resumed: bool, next: Ran, world: nat -> Execution)
    requires DrivenUpTo(was, before, ran, start, carry, next, world) && start <= next.leg < |legs|
    requires if claim == Claimed then LegRan(before, now, next.leg, world(next.leg)) else !CanStart(before, next.leg) && now == before
    requires claim != Claimed ==> answer == Some(NotDriven(claim))
    requires claim == Claimed && answer.Some? ==>
      && answer.value != StoreFailed && (answer.value.Ended? ==> now == None)
      && Reports(answer.value, legs, next.leg, resumed, world(next.leg))
      && (answer.value.InFlight? ==> HasState(now, if answer.value.status == StillAwaitingFunding then AwaitingFunding else Pending))
    requires answer.None? ==>
      && world(next.leg).LegReturns? && world(next.leg).outcome.status == Settled && IsPositive(world(next.leg).outcome.receivedSats)
      && (IsReady(before, next.leg) ==> IsReady(now, next.leg + 1))
    ensures answer.Some? ==>
      DroveAs(was, now, answer.value, if claim == Claimed then ran + [next] else ran, legs, start, carry, resumed, world)
    ensures answer.None? ==>
      DrivenUpTo(was, now, ran + [next], start, carry, Ran(next.leg + 1, world(next.leg).outcome.receivedSats.value), world)
  {
    if claim != Claimed {
      EndsUnclaimed(was, now, claim, ran, legs, start, carry, resumed, next, world);
    } else if answer.Some? {
      EndsHere(was, before, now, answer.value, ran, legs, start, carry, resumed, next, world);
    } else {
      DrivenOneMore(was, before, now, ran, start, carry, next, Ran(next.leg + 1, world(next.leg).outcome.receivedSats.value), world);
    }
  }

  // One turn of a drive that began at leg `start` with the record as it was.
  method DriveTurn(
      store: ConversionPlanStore, id: PlanId, legs: seq<Leg>, ran: seq<Ran>, leg: nat, amount: int, resumed: bool, world: nat -> Execution,
      ghost start: nat, ghost carry: int, ghost was: Slot<Plan>,
      ghost c0: Case, ghost d: DriverId, ghost at0: Position, ghost from: Case, ghost shifts: Shifts)
    returns (answer: Option<Driven>, ran': seq<Ran>, amount': int, ghost c: Case)
    requires store.file.Valid() && store.file.Holds(id) == from.slot
    requires Follows(c0, d, at0, from, WillClaim(leg, amount, resumed), shifts) && start <= leg < |legs| && legs == Legs(c0)
    requires amount > 0 && IsPlausible(legs[leg].call, c0.truth.params, world(leg))
    requires DrivenUpTo(was, from.slot, ran, start, carry, Ran(leg, amount), world)
    modifies store.file
    ensures store.file.Valid() && store.file.Holds(id) == c.slot
    ensures forall other :: other != id ==> store.file.Holds(other) == old(store.file.Holds(other))
    ensures answer.Some? ==>
      Follows(c0, d, at0, c, Done, shifts) && DroveAs(was, c.slot, answer.value, ran', legs, start, carry, resumed, world)
    ensures answer.None? ==>
      && leg + 1 < |legs| && amount' > 0 && Follows(c0, d, at0, c, WillClaim(leg + 1, amount', resumed), shifts)
      && DrivenUpTo(was, c.slot, ran', start, carry, Ran(leg + 1, amount'), world)
  {
    var claim;
    claim, answer, c := DriveLeg(store, id, legs, leg, amount, resumed, world(leg), c0, d, at0, from, shifts);
    TurnTaken(was, from.slot, c.slot, claim, answer, ran, legs, start, carry, resumed, Ran(leg, amount), world);
    ran' := if claim == Claimed then ran + [Ran(leg, amount)] else ran;
    amount' := if answer.None? then world(leg).outcome.receivedSats.value else amount;
  }

  // Drives the plan's legs in sequence from `start`, which is given `carry`. The file ends up
  // as after a run of the machine's driver to its end.
  method DrivePlan(
      store: ConversionPlanStore, plan: Plan, start: nat, carry: int, resumed: bool, world: nat -> Execution,
      ghost c0: Case, ghost d: DriverId, ghost at0: Position, ghost from: Case, ghost shifts: Shifts)
    returns (result: Driven, ran: seq<Ran>, ghost c: Case)
    requires store.file.Valid() && store.file.Holds(plan.planId) == from.slot
    requires Follows(c0, d, at0, from, WillClaim(start, carry, resumed), shifts) && plan.route == c0.truth.route
    requires carry > 0 && start < |plan.route.legs| && Plausible(plan.route.legs, c0.truth.params, world)
    modifies store.file
    ensures store.file.Valid() && store.file.Holds(plan.planId) == c.slot
    ensures forall id :: id != plan.planId ==> store.file.Holds(id) == old(store.file.Holds(id))
    ensures Follows(c0, d, at0, c, Done, shifts)
    ensures DroveAs(from.slot, c.slot, result, ran, plan.route.legs, start, carry, resumed, world)
  {
    var id, legs := plan.planId, plan.route.legs;
    var i, amount := start, carry;
    ran, c := [], from;
    while true
      invariant store.file.Valid() && store.file.Holds(id) == c.slot
      invariant forall other :: other != id ==> store.file.Holds(other) == old(store.file.Holds(other))
      invariant amount > 0 && start <= i < |legs| && Follows(c0, d, at0, c, WillClaim(i, amount, resumed), shifts)
      invariant DrivenUpTo(from.slot, c.slot, ran, start, carry, Ran(i, amount), world)
      decreases |legs| - i
    {
      var answer;
      answer, ran, amount, c :=
        DriveTurn(store, id, legs, ran, i, amount, resumed, world, start, carry, from.slot, c0, d, at0, c, shifts);
      if answer.Some? { return answer.value, ran, c; }
      i := i + 1;
    }
  }

  // ----- resumeOnePlan ------------------------------------------------------------------------------------

  datatype Resumed =
    | LeftParked                 // already waits for a human
    | NowParked
    | NowClosed(why: Reason)
    | AtProvider                 // nothing to do this pass
    | StoreRefused               // what the probe found could not be stored
    | Drove(driven: Driven)

  // What a recovery pass makes of its snapshot, given what the provider answers if it is asked.
  function PositionAfterProbe(record: Plan, answer: Answer): Position
    requires ResumeDecision(record) == Probe ==>
      Answers(record.route.legs[record.currentLegIndex].call, answer)
  {
    if ResumeDecision(record) == Probe then StepProbe(record, answer) else Follow(ResumeDecision(record), record, true)
  }

  lemma SnapshotFollows(c0: Case, d: DriverId, record: Plan, answer: Answer, shifts: Shifts)
    requires IsCoherent(c0) && record.route == c0.truth.route
    requires ResumeDecision(record) == Probe ==>
      CanStep(c0, WillProbe(record), Answered(answer), shifts)
    ensures Follows(c0, d, HasSnapshot(record), c0, PositionAfterProbe(record, answer), shifts)
  {
    ReachesItself(c0, d, HasSnapshot(record), shifts);
    FollowsMore(c0, d, HasSnapshot(record), c0, HasSnapshot(record), Goes, shifts, c0, Follow(ResumeDecision(record), record, true));
    if ResumeDecision(record) == Probe {
      FollowsMore(c0, d, HasSnapshot(record), c0, WillProbe(record), Answered(answer), shifts, c0, StepProbe(record, answer));
    }
  }

  lemma SettleFollows(c0: Case, d: DriverId, at0: Position, c: Case, record: Plan, amount: Option<int>, shifts: Shifts)
    returns (c': Case)
    requires Follows(c0, d, at0, c, WillSettle(record, amount), shifts)
    requires record.currentLegIndex < |record.route.legs| && At(record.legResults, record.currentLegIndex).Some?
    ensures
      var i := record.currentLegIndex;
      && c'.slot == Patch(c.slot, (p: Plan) => WithResult(p, i, Some(SettledBy(At(record.legResults, i).value, amount)), p.state))
      && Follows(c0, d, at0, c', if IsTampered(c.slot) then Done else Follow(AfterSettled(record.route.legs, i, amount), record, true), shifts)
  {
    var (c1, at1) := StepSettle(c, record, amount);
    FollowsMore(c0, d, at0, c, WillSettle(record, amount), Goes, shifts, c1, at1);
    StepsAreStoreOperations(c, d, WillSettle(record, amount), Goes, shifts);
    c' := c1;
  }

  // The pass left the plan where it was, at its provider.
  ghost predicate Waits(result: Resumed, ran: seq<Ran>, was: Slot<Plan>, now: Slot<Plan>) {
    result == AtProvider && ran == [] && now == was
  }

  // It left the plan to a human; of the plan's legs only `leg` may have been rewritten.
  ghost predicate Parks(result: Resumed, ran: seq<Ran>, was: Slot<Plan>, now: Slot<Plan>, leg: nat) {
    && result == NowParked && ran == []
    && (if IsSealed(was) then HasState(now, NeedsReview) && OnlyLegDiffers(was, now, leg) else now == was)
  }

  // It removed the plan's record.
  ghost predicate Closes(result: Resumed, ran: seq<Ran>, now: Slot<Plan>, why: Reason) {
    result == NowClosed(why) && ran == [] && now == None
  }

  // It drove the plan on from this leg, handing it this amount; the leg ran exactly when the
  // stored plan authenticated and had not started it.
  ghost predicate DrivesOn(result: Resumed, ran: seq<Ran>, was: Slot<Plan>, leg: nat, amount: int) {
    && result.Drove? && (ran != [] <==> CanStart(was, leg))
    && (if ran == [] then result.driven.NotDriven? else ran[0] == Ran(leg, amount))
  }

  // It went on from a leg that settled with this amount: closed the plan after its last leg,
  // drove the next leg with a positive amount, and left the plan to a human otherwise.
  ghost predicate GoesOn(plan: Plan, amount: Option<int>, result: Resumed, ran: seq<Ran>, was: Slot<Plan>, now: Slot<Plan>) {
    var i := plan.currentLegIndex;
    if i + 1 == |plan.route.legs| then Closes(result, ran, now, FinalLegSettled)
    else if amount.Some? && amount.value > 0 then DrivesOn(result, ran, was, i + 1, amount.value)
    else Parks(result, ran, was, now, i)
  }

  // It found the leg settled at its provider, unless that could not be stored.
  ghost predicate TakesAsSettled(plan: Plan, amount: Option<int>, result: Resumed, ran: seq<Ran>, was: Slot<Plan>, now: Slot<Plan>) {
    if IsTampered(was) then result == StoreRefused && ran == [] && now == was else GoesOn(plan, amount, result, ran, was, now)
  }

  // What a pass does where its snapshot alone decides: not a parked plan, and no leg at a
  // provider.
  ghost predicate DecidesBySnapshot(plan: Plan, result: Resumed, ran: seq<Ran>, was: Slot<Plan>, now: Slot<Plan>) {
    var i := plan.currentLegIndex;
    && (plan.state == NeedsReview ==> result == LeftParked && ran == [] && now == was)
    && (plan.state != NeedsReview && i >= |plan.route.legs| ==> Parks(result, ran, was, now, i))
    && (plan.state != NeedsReview && i < |plan.route.legs| && At(plan.legResults, i) == None ==>
          var before := if i == 0 then None else At(plan.legResults, i - 1);
          var amount := if i == 0 then Some(plan.amountSats) else if before.Some? then before.value.receivedSats else None;
          if amount.Some? && amount.value > 0 then DrivesOn(result, ran, was, i, amount.value) else Parks(result, ran, was, now, i))
    && (plan.state != NeedsReview && i < |plan.route.legs| && At(plan.legResults, i).Some?
        && At(plan.legResults, i).value.state == LegSettled ==>
          GoesOn(plan, At(plan.legResults, i).value.receivedSats, result, ran, was, now))
  }

  // The snapshot has a leg started and not settled, so its provider is asked.
  predicate AsksProvider(plan: Plan) {
    && plan.state != NeedsReview && plan.currentLegIndex < |plan.route.legs|
    && At(plan.legResults, plan.currentLegIndex).Some? && At(plan.legResults, plan.currentLegIndex).value.state != LegSettled
  }

  // What a pass makes of the provider's answer, provider by provider.
  ghost predicate FollowsProvider(plan: Plan, answer: Answer, result: Resumed, ran: seq<Ran>, was: Slot<Plan>, now: Slot<Plan>)
    requires AsksProvider(plan) && Answers(plan.route.legs[plan.currentLegIndex].call, answer)
  {
    var i := plan.currentLegIndex;
    var tracked := At(plan.legResults, i).value.trackingId.Some?;
    match plan.route.legs[i].call
    // A swap cannot be asked about.
    case Swap => Parks(result, ran, was, now, i)
    case Send | Receive =>
      && (!tracked ==> Parks(result, ran, was, now, i))
      && (tracked && !answer.terminal ==> Waits(result, ran, was, now))
      && (tracked && answer.terminal && answer.delivered ==> TakesAsSettled(plan, answer.settleAmount, result, ran, was, now))
      && (tracked && answer.terminal && !answer.delivered ==> Closes(result, ran, now, Concluded(i)))
    // A peg does not tell what it delivered.
    case PegOut =>
      && (!tracked ==> Parks(result, ran, was, now, i))
      && (tracked && !answer.done ==> Waits(result, ran, was, now))
      && (tracked && answer.done ==> TakesAsSettled(plan, None, result, ran, was, now))
    case PegIn =>
      && (tracked && !answer.done ==> Waits(result, ran, was, now))
      && (!tracked || answer.done ==> Parks(result, ran, was, now, i))
    // A swap whose record is gone was refunded or claimed long ago.
    case PayLightningInvoice | ToStablecoin =>
      && (!tracked ==> Parks(result, ran, was, now, i))
      && (tracked && (answer.NoBoltzProbe? || answer.swap == Some(AwaitingPayment) || answer.swap == Some(BoltzWorking)) ==>
            Waits(result, ran, was, now))
      && (tracked && answer.BoltzSwap? && (answer.swap == Some(BoltzSettled) || answer.swap == Some(BoltzPaid)) ==>
            TakesAsSettled(plan, None, result, ran, was, now))
      && (tracked && answer.BoltzSwap? && (answer.swap == Some(BoltzRefunded) || answer.swap == Some(BoltzFailed) || answer.swap == None) ==>
            Closes(result, ran, now, Concluded(i)))
    case ReceiveLightning =>
      && (!tracked || answer.NoBoltzProbe? || answer.swap == Some(AwaitingPayment) ==> Waits(result, ran, was, now))
      && (tracked && answer.BoltzSwap? && answer.swap != Some(AwaitingPayment) ==> Parks(result, ran, was, now, i))
  }

  // The pass did what was decided.
  ghost predicate ActsOn(decision: Decision, leg: nat, result: Resumed, ran: seq<Ran>, was: Slot<Plan>, now: Slot<Plan>) {
    match decision
    case Leave => result == LeftParked && ran == [] && now == was
    case Park => Parks(result, ran, was, now, leg)
    case Close(why) => Closes(result, ran, now, why)
    case Drive(leg, carry) => DrivesOn(result, ran, was, leg, carry)
    case Probe => false
  }

  lemma SnapshotDecides(plan: Plan, result: Resumed, ran: seq<Ran>, was: Slot<Plan>, now: Slot<Plan>)
    requires ResumeDecision(plan) != Probe ==> ActsOn(ResumeDecision(plan), plan.currentLegIndex, result, ran, was, now)
    ensures AsksProvider(plan) <==> ResumeDecision(plan) == Probe
    ensures DecidesBySnapshot(plan, result, ran, was, now)
  {
  }

  // Carries out a decision: park, close, drive on, or nothing.
  method CarryOut(
      store: ConversionPlanStore, plan: Plan, decision: Decision, world: nat -> Execution,
      ghost c0: Case, ghost d: DriverId, ghost at0: Position, ghost from: Case, ghost shifts: Shifts)
    returns (result: Resumed, ran: seq<Ran>, ghost c: Case)
    requires store.file.Valid() && store.file.Holds(plan.planId) == from.slot
    requires Follows(c0, d, at0, from, Follow(decision, plan, true), shifts) && plan.route == c0.truth.route && decision != Probe
    requires decision.Drive? ==>
      decision.carry > 0 && decision.leg < |plan.route.legs| && Plausible(plan.route.legs, c0.truth.params, world)
    modifies store.file
    ensures store.file.Valid() && store.file.Holds(plan.planId) == c.slot && Follows(c0, d, at0, c, Done, shifts)
    ensures forall id :: id != plan.planId ==> store.file.Holds(id) == old(store.file.Holds(id))
    ensures ActsOn(decision, plan.currentLegIndex, result, ran, from.slot, c.slot)
    ensures decision.Drive? ==>
      && result.Drove? && DroveAs(from.slot, c.slot, result.driven, ran, plan.route.legs, decision.leg, decision.carry, true, world)
      && forall n :: 0 <= n < |ran| ==> ran[n].leg == decision.leg + n
    ensures decision.Leave? ==> c == from
  {
    ran, c := [], from;
    match decision
    case Leave => result := LeftParked;
    case Park =>
      c := ParkFollows(c0, d, at0, from, shifts);
      var _ := store.file.PatchRecord(plan.planId, (p: Plan) => p.(state := NeedsReview));
      result := NowParked;
    case Close(why) =>
      c := RemoveFollows(c0, d, at0, from, why, shifts);
      store.file.RemoveRecord(plan.planId);
      result := NowClosed(why);
    case Drive(leg, carry) =>
      var driven;
      driven, ran, c := DrivePlan(store, plan, leg, carry, true, world, c0, d, at0, from, shifts);
      ChainClimbs(ran, leg, carry, world);
      result := Drove(driven);
  }

  // Stores a leg settled with what the provider reported, if its record authenticates.
  method StoreSettled(
      store: ConversionPlanStore, plan: Plan, amount: Option<int>,
      ghost c0: Case, ghost d: DriverId, ghost at0: Position, ghost shifts: Shifts)
    returns (authentic: bool, ghost c: Case)
    requires store.file.Valid() && store.file.Holds(plan.planId) == c0.slot
    requires Follows(c0, d, at0, c0, WillSettle(plan, amount), shifts)
    requires plan.currentLegIndex < |plan.route.legs| && At(plan.legResults, plan.currentLegIndex).Some?
    modifies store.file
    ensures store.file.Valid() && store.file.Holds(plan.planId) == c.slot
    ensures forall id :: id != plan.planId ==> store.file.Holds(id) == old(store.file.Holds(id))
    ensures authentic == !IsTampered(c0.slot)
    ensures if IsSealed(c0.slot) then IsSealed(c.slot) && OnlyLegDiffers(c0.slot, c.slot, plan.currentLegIndex) else c.slot == c0.slot
    ensures IsSealed(c0.slot) ==>
      var was, now := At(plan.legResults, plan.currentLegIndex), At(c.slot.value.record.legResults, plan.currentLegIndex);
      && c.slot.value.record.state == c0.slot.value.record.state
      && now == Some(LegResult(LegSettled, was.value.txids, amount, was.value.trackingId))
    ensures Follows(c0, d, at0, c,
                    if authentic then Follow(AfterSettled(plan.route.legs, plan.currentLegIndex, amount), plan, true) else Done, shifts)
  {
    var i := plan.currentLegIndex;
    var settled := SettledBy(At(plan.legResults, i).value, amount);
    c := SettleFollows(c0, d, at0, c0, plan, amount, shifts);
    authentic := store.file.PatchRecord(plan.planId, (p: Plan) => WithResult(p, i, Some(settled), p.state));
  }

  // What the answer leaves to do: the pass is over, or this is still to be carried out on the
  // record as it is now.
  ghost predicate Consulted(
      plan: Plan, answer: Answer, ended: Option<Resumed>, decision: Decision, was: Slot<Plan>, now: Slot<Plan>)
    requires AsksProvider(plan) && Answers(plan.route.legs[plan.currentLegIndex].call, answer)
  {
    var i := plan.currentLegIndex;
    var probe := ProbeLeg(plan.route.legs[i].call, At(plan.legResults, i).value, answer);
    && (if IsSealed(was) then IsSealed(now) && OnlyLegDiffers(was, now, i) else now == was)
    && match probe
       case ProbePending => ended == Some(AtProvider) && now == was
       case ProbeConcluded => ended == None && decision == Close(Concluded(i))
       case ProbeUnknowable => ended == None && decision == Park
       case ProbeSettled(amount) =>
         if IsTampered(was) then ended == Some(StoreRefused)
         else ended == None && decision == AfterSettled(plan.route.legs, i, amount)
  }

  lemma ConsultedAndActed(
      plan: Plan, answer: Answer, ended: Option<Resumed>, decision: Decision, result: Resumed, ran: seq<Ran>,
      was: Slot<Plan>, between: Slot<Plan>, now: Slot<Plan>)
    requires AsksProvider(plan) && Answers(plan.route.legs[plan.currentLegIndex].call, answer)
    requires Consulted(plan, answer, ended, decision, was, between)
    requires if ended.Some? then result == ended.value && ran == [] && now == between
             else ActsOn(decision, plan.currentLegIndex, result, ran, between, now)
    ensures FollowsProvider(plan, answer, result, ran, was, now)
  {
  }

  // Acts on the answer as far as the record goes.
  method Consult(store: ConversionPlanStore, plan: Plan, answer: Answer, ghost c0: Case, ghost d: DriverId, ghost shifts: Shifts)
    returns (ended: Option<Resumed>, decision: Decision, ghost c: Case)
    requires store.file.Valid() && store.file.Holds(plan.planId) == c0.slot
    requires IsCoherent(c0) && plan.route == c0.truth.route && AsksProvider(plan)
    requires Answers(plan.route.legs[plan.currentLegIndex].call, answer) && CanStep(c0, WillProbe(plan), Answered(answer), shifts)
    modifies store.file
    ensures store.file.Valid() && store.file.Holds(plan.planId) == c.slot
    ensures forall id :: id != plan.planId ==> store.file.Holds(id) == old(store.file.Holds(id))
    ensures Consulted(plan, answer, ended, decision, c0.slot, c.slot)
    ensures Follows(c0, d, HasSnapshot(plan), c, if ended.Some? then Done else Follow(decision, plan, true), shifts)
  {
    SnapshotFollows(c0, d, plan, answer, shifts);
    var i := plan.currentLegIndex;
    ended, decision, c := None, Park, c0;
    match ProbeLeg(plan.route.legs[i].call, At(plan.legResults, i).value, answer)
    case ProbePending => ended := Some(AtProvider);
    case ProbeConcluded => decision := Close(Concluded(i));
    case ProbeUnknowable =>
    case ProbeSettled(amount) =>
      var authentic;
      authentic, c := StoreSettled(store, plan, amount, c0, d, HasSnapshot(plan), shifts);
      if !authentic { return Some(StoreRefused), Park, c; }
      decision := AfterSettled(plan.route.legs, i, amount);
  }

  // One recovery pass over one plan, from the snapshot the pass read: what is stored ends up
  // as after a run of the machine's driver, and a leg the snapshot has started is never driven.
  method ResumeOnePlan(
      store: ConversionPlanStore, plan: Plan, answer: Answer, world: nat -> Execution,
      ghost c0: Case, ghost d: DriverId, ghost shifts: Shifts)
    returns (result: Resumed, ran: seq<Ran>, ghost c: Case)
    requires store.file.Valid() && store.file.Holds(plan.planId) == c0.slot
    requires IsCoherent(c0) && plan.route == c0.truth.route && Plausible(plan.route.legs, c0.truth.params, world)
    requires AsksProvider(plan) ==>
      Answers(plan.route.legs[plan.currentLegIndex].call, answer) && CanStep(c0, WillProbe(plan), Answered(answer), shifts)
    modifies store.file
    ensures store.file.Valid() && store.file.Holds(plan.planId) == c.slot
    ensures forall id :: id != plan.planId ==> store.file.Holds(id) == old(store.file.Holds(id))
    ensures Follows(c0, d, HasSnapshot(plan), c, Done, shifts)
    ensures forall n :: 0 <= n < |ran| ==> ran[n].leg >= plan.currentLegIndex
    ensures ran != [] && At(plan.legResults, plan.currentLegIndex).Some? ==> ran[0].leg == plan.currentLegIndex + 1
    ensures DecidesBySnapshot(plan, result, ran, c0.slot, c.slot)
    ensures AsksProvider(plan) ==> FollowsProvider(plan, answer, result, ran, c0.slot, c.slot)
  {
    SnapshotFollows(c0, d, plan, answer, shifts);
    c := c0;
    var decision, ended := ResumeDecision(plan), None;
    if decision == Probe { ended, decision, c := Consult(store, plan, answer, c0, d, shifts); }
    ghost var between := c.slot;
    if ended.Some? {
      result, ran := ended.value, [];
    } else {
      result, ran, c := CarryOut(store, plan, decision, world, c0, d, HasSnapshot(plan), c, shifts);
    }
    if AsksProvider(plan) { ConsultedAndActed(plan, answer, ended, decision, result, ran, c0.slot, between, c.slot); }
    SnapshotDecides(plan, result, ran, c0.slot, c.slot);
  }

  lemma ChainClimbs(ran: seq<Ran>, start: nat, carry: int, world: nat -> Execution)
    requires IsChain(ran, start, carry, world)
    ensures forall n :: 0 <= n < |ran| ==> ran[n].leg == start + n
  {
    var n := 0;
    while n < |ran|
      invariant 0 <= n <= |ran| && forall m :: 0 <= m < n ==> ran[m].leg == start + m
    {
      if n > 0 { assert HandsOver(ran[n-1], ran[n], world); }
      n := n + 1;
    }
  }
}
