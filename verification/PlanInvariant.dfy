// What every step of the plan machine keeps.
module PlanInvariant {
  import opened Options
  import opened Routes
  import opened Envelopes
  import opened PlanStore
  import opened Multihop
  import opened PlanMachine

  predicate IsResolved(r: Option<LegResult>) { r.Some? && r.value.state != LegInFlight }

  predicate IsSettled(r: Option<LegResult>) { r.Some? && r.value.state == LegSettled }

  predicate SettledPositive(r: Option<LegResult>) { IsSettled(r) && IsPositive(r.value.receivedSats) }

  // The amount an execution of leg j must be handed: the intent's for the first leg, the
  // stored settled output of the previous leg for every other.
  function InputOf(plan: Plan, j: nat): int {
    if j == 0 then plan.amountSats
    else if SettledPositive(At(plan.legResults, j - 1)) then At(plan.legResults, j - 1).value.receivedSats.value
    else 0
  }

  // All legs before the current one are settled with a positive amount, none after it started.
  ghost predicate WellFormed(plan: Plan) {
    && HasRouteShape(plan.route.legs) && |plan.route.legs| >= 2
    && plan.amountSats > 0
    && plan.currentLegIndex < |plan.route.legs|
    && (forall j: nat :: j < plan.currentLegIndex ==> SettledPositive(At(plan.legResults, j)))
    && (forall j: nat :: j > plan.currentLegIndex ==> At(plan.legResults, j) == None)
  }

  // An amount a probe of this unsettled leg result could report.
  ghost predicate Reportable(m: Method, r: LegResult, amount: Option<int>, shifts: Shifts) {
    && r.state != LegInFlight && r.state != LegSettled && r.trackingId.Some?
    && match m
       case Send | Receive =>
         r.trackingId.value in shifts && shifts[r.trackingId.value] == ShiftEnd(true, amount)
       case PegOut | PayLightningInvoice | ToStablecoin => amount.None?
       case _ => false
  }

  // How the result of one leg may have changed since it was read: a settled leg not at all,
  // a leg at its provider at most to what the provider reports.
  ghost predicate LaterResult(m: Method, was: Option<LegResult>, now: Option<LegResult>, shifts: Shifts) {
    IsResolved(was) ==>
      || now == was
      || (now.Some? && Reportable(m, was.value, now.value.receivedSats, shifts) && now.value == SettledBy(was.value, now.value.receivedSats))
  }

  // `now` may be what a plan read as `was` has become.
  ghost predicate Later(was: Plan, now: Plan, shifts: Shifts) {
    && now.route == was.route && now.amountSats == was.amountSats && now.planId == was.planId && now.params == was.params
    && was.currentLegIndex <= now.currentLegIndex
    && (forall j: nat :: j < |was.route.legs| ==>
          LaterResult(was.route.legs[j].call, At(was.legResults, j), At(now.legResults, j), shifts))
  }

  // The spends recorded for a leg: one for an execution that was counted, none for one that
  // skipped the ceilings, and one more for each that failed after recording.
  ghost predicate SpendOk(m: Method, r: Option<LegResult>, t: Tally, tampered: bool) {
    && t.records <= t.wasted + 1
    && (r.None? ==> t.records == t.wasted)
    && (t.moves == 1 && t.counted ==> t.records == t.wasted + 1)
    && (t.moves == 1 && !t.counted && !tampered ==> t.records == t.wasted)
    && (IsHookRouted(m) ==> t.wasted == 0)
    && (IsInflow(m) ==> t.records == 0 && t.wasted == 0)
  }

  // The history of leg j agrees with its stored result r; `input` is what it must be handed.
  // `m` is the leg's method, `first` the index of the plan's first value leg.
  ghost predicate LegOk(
    m: Method, first: nat, j: nat, r: Option<LegResult>, t: Tally, input: int, current: nat, tampered: bool, shifts: Shifts)
  {
    && t.claims == t.resets + (if r.Some? then 1 else 0)
    && t.moves <= 1
    && (r.None? ==> t.moves == 0)
    && (r.Some? && r.value.state == LegInFlight ==> r.value == CLAIMED)
    && (IsResolved(r) ==> t.moves == (if IsInflow(m) then 0 else 1))
    && (IsInflow(m) ==> t.moves == 0 && !t.skipped)
    && (IsResolved(r) && m == Swap ==> IsSettled(r))
    && (IsSettled(r) && IsInflow(m) ==>
          m == Receive && r.value.trackingId.Some? && r.value.trackingId.value in shifts
          && shifts[r.value.trackingId.value] == ShiftEnd(true, r.value.receivedSats))
    && (t.moves == 1 ==> t.handed == input)
    && SpendOk(m, r, t, tampered)
    && (t.skipped ==> first < j <= current && IsHookRouted(m))
    && (t.moves == 1 && !t.counted ==> t.skipped)
    && (t.moves == 1 && !tampered ==> (t.counted <==> j == first || !IsHookRouted(m)))
  }

  ghost predicate LegTallied(plan: Plan, tally: seq<Tally>, j: nat, tampered: bool, shifts: Shifts)
    requires j < |tally| == |plan.route.legs|
  {
    LegOk(plan.route.legs[j].call, FirstValueLegIndex(plan.route.legs), j, At(plan.legResults, j), tally[j],
          InputOf(plan, j), plan.currentLegIndex, tampered, shifts)
  }

  ghost predicate TallyOk(plan: Plan, tally: seq<Tally>, tampered: bool, shifts: Shifts) {
    |tally| == |plan.route.legs| && forall j: nat :: j < |tally| ==> LegTallied(plan, tally, j, tampered, shifts)
  }

  // Why a record may be removed.
  ghost predicate ReasonOk(plan: Plan, why: Reason, shifts: Shifts, tampered: bool) {
    var last := |plan.route.legs| - 1;
    match why
    case FinalLegSettled => last >= 0 && IsSettled(At(plan.legResults, last))
    case NotDelivered(k) => k == last && IsResolved(At(plan.legResults, k))
    case Concluded(k) =>
      && IsResolved(At(plan.legResults, k))
      && (k == last || (
            && k == 0 && last > 0 && plan.route.legs[0].call == Receive
            && var tracking := At(plan.legResults, 0).value.trackingId;
               tracking.Some? && tracking.value in shifts && !shifts[tracking.value].delivered))
    case FirstLegThrew => plan.currentLegIndex == 0 && At(plan.legResults, 0) == Some(CLAIMED)
    case Discarded => tampered
  }

  ghost predicate SlotOk(c: Case, shifts: Shifts) {
    && (IsSealed(c.slot) ==> c.slot.value.record == c.truth)
    && (c.slot == Some(Tampered) ==> c.tampered)
    && (c.slot.None? <==> c.closed.Some?)
    && (c.closed.Some? ==> ReasonOk(c.truth, c.closed.value, shifts, c.tampered))
    && (c.owner.Some? ==> At(c.truth.legResults, c.truth.currentLegIndex) == Some(CLAIMED))
    && (c.owner.Some? && !c.tampered ==> IsSealed(c.slot))
  }

  ghost predicate CaseOk(c: Case, shifts: Shifts) {
    WellFormed(c.truth) && TallyOk(c.truth, c.tally, c.tampered, shifts) && SlotOk(c, shifts)
  }

  // A driver between its claim of a leg and the patch that stores what came of it.
  predicate Owns(at: Position) { at.Runs? || at.Threw? || at.Returned? }

  ghost predicate SnapshotOk(record: Plan, c: Case, shifts: Shifts) {
    && WellFormed(record) && Later(record, c.truth, shifts)
    && (forall j: nat :: j < |record.route.legs| && At(record.legResults, j).Some? && At(record.legResults, j).value.state == LegInFlight
          ==> At(record.legResults, j) == Some(CLAIMED))
  }

  ghost predicate PhaseOk(c: Case, leg: nat, phase: Phase)
    requires leg < |Legs(c)| == |c.tally|
  {
    var m := Legs(c)[leg].call;
    var t := c.tally[leg];
    var first := FirstValueLegIndex(Legs(c));
    && (IsInflow(m) ==> phase == Started)
    && t.moves == (if phase == Sent then 1 else 0)
    && match phase
       case Sent => true
       case Started => t.records == t.wasted
       case Enforced(full, _) =>
         && t.records == t.wasted
         && (!full ==> t.skipped)
         && (full ==> leg == first || !IsHookRouted(m) || !IsSealed(c.slot))
       case Recorded(enforced, recorded, _) =>
         && t.records == t.wasted + (if recorded then 1 else 0)
         && (!enforced ==> t.skipped)
         && (enforced ==> recorded)
         && (leg == first || !IsHookRouted(m) ==> enforced)
         && (recorded ==> leg == first || !IsHookRouted(m) || c.tampered)
  }

  // The order is one the leg accepts.
  ghost predicate OrderOk(c: Case, leg: nat, carry: int, phase: Phase)
    requires leg < |Legs(c)|
  {
    phase.Enforced? || phase.Recorded? ==> Admits(Legs(c)[leg].call, carry, c.truth.params, phase.order)
  }

  ghost predicate PositionOk(c: Case, d: DriverId, at: Position, shifts: Shifts)
    requires |Legs(c)| == |c.tally|
  {
    && (Owns(at) <==> c.owner == Some(d))
    && match at
       case HasSnapshot(record) => SnapshotOk(record, c, shifts)
       case WillProbe(record) => SnapshotOk(record, c, shifts) && ResumeDecision(record) == Probe
       case WillSettle(record, amount) =>
         && SnapshotOk(record, c, shifts) && ResumeDecision(record) == Probe
         && var i := record.currentLegIndex;
            Reportable(record.route.legs[i].call, At(record.legResults, i).value, amount, shifts)
       case WillClaim(leg, carry, _) =>
         IsSealed(c.slot) ==>
           && leg < |Legs(c)| && carry == InputOf(c.truth, leg) && carry > 0
           && (forall j: nat :: j < leg ==> SettledPositive(At(c.truth.legResults, j)))
       case Runs(leg, carry, _, phase) =>
         && leg == c.truth.currentLegIndex < |Legs(c)| && carry == InputOf(c.truth, leg)
         && PhaseOk(c, leg, phase) && OrderOk(c, leg, carry, phase)
       case Threw(leg, _, retrySafe) =>
         && leg == c.truth.currentLegIndex < |Legs(c)|
         && (retrySafe ==> c.tally[leg].moves == 0 && c.tally[leg].records == c.tally[leg].wasted)
       case Returned(leg, _, o) =>
         && leg == c.truth.currentLegIndex < |Legs(c)| && MayReturn(Legs(c)[leg].call, o)
         && c.tally[leg].moves == (if IsInflow(Legs(c)[leg].call) then 0 else 1)
       case WillRemove(why) =>
         why != FirstLegThrew && why != Discarded && (c.slot.Some? ==> ReasonOk(c.truth, why, shifts, c.tampered))
       case WillPark | Done => true
  }

  // ----- one step keeps its own case and position ---------------------------------------------------

  lemma {:induction false} LaterIsReflexive(plan: Plan, shifts: Shifts)
    ensures Later(plan, plan, shifts)
  {
  }

  lemma LaterIsTransitive(p: Plan, q: Plan, r: Plan, shifts: Shifts)
    requires Later(p, q, shifts) && Later(q, r, shifts)
    ensures Later(p, r, shifts)
  {
    forall j: nat | j < |p.route.legs|
      ensures LaterResult(p.route.legs[j].call, At(p.legResults, j), At(r.legResults, j), shifts)
    {
      assert LaterResult(p.route.legs[j].call, At(p.legResults, j), At(q.legResults, j), shifts);
      assert LaterResult(q.route.legs[j].call, At(q.legResults, j), At(r.legResults, j), shifts);
    }
  }

  // Storing an owner's result, or a probe's, changes one leg and moves the plan forward.
  lemma ChangeOneLeg(was: Plan, now: Plan, leg: nat, shifts: Shifts)
    requires leg < |was.route.legs|
    requires now.route == was.route && now.amountSats == was.amountSats && now.planId == was.planId && now.params == was.params
    requires was.currentLegIndex <= now.currentLegIndex
    requires forall j: nat :: j != leg ==> At(now.legResults, j) == At(was.legResults, j)
    requires LaterResult(was.route.legs[leg].call, At(was.legResults, leg), At(now.legResults, leg), shifts)
    ensures Later(was, now, shifts)
  {
  }

  // What a step of driver d does to a case, as seen by the other drivers of the same plan.
  ghost predicate SeenByOthers(c: Case, c': Case, d: DriverId, shifts: Shifts) {
    && Later(c.truth, c'.truth, shifts)
    && (IsSealed(c'.slot) ==> IsSealed(c.slot))
    && (c'.slot.Some? ==> c.slot.Some?)
    && (c.tampered ==> c'.tampered)
    && (c.owner.Some? && c.owner != Some(d) ==>
          && c'.owner == c.owner && c'.tally == c.tally
          && c'.truth.currentLegIndex == c.truth.currentLegIndex
          && (forall j: nat :: At(c'.truth.legResults, j) == At(c.truth.legResults, j)))
    && (c.owner.None? ==> c'.owner.None? || c'.owner == Some(d))
    && (c.owner == Some(d) ==> c'.owner.None? || c'.owner == Some(d))
  }

  lemma OtherInput(
      m: Method, first: nat, j: nat, r: Option<LegResult>, t: Tally, input: int, current: nat,
      input': int, current': nat, tampered: bool, shifts: Shifts)
    requires LegOk(m, first, j, r, t, input, current, tampered, shifts)
    requires (r.None? || input' == input) && current <= current'
    ensures LegOk(m, first, j, r, t, input', current', tampered, shifts)
  {
  }

  // A leg's input depends only on the leg before it.
  lemma InputStaysUnless(was: Plan, now: Plan, leg: nat, j: nat)
    requires now.amountSats == was.amountSats
    requires forall k: nat :: k != leg ==> At(now.legResults, k) == At(was.legResults, k)
    requires j != leg + 1 || At(was.legResults, leg) == At(now.legResults, leg)
    ensures InputOf(now, j) == InputOf(was, j)
  {
  }

  lemma OtherLegTallied(was: Plan, now: Plan, tally: seq<Tally>, tally': seq<Tally>, leg: nat, j: nat, tampered: bool, shifts: Shifts)
    requires j < |tally| == |tally'| == |was.route.legs| && j != leg && LegTallied(was, tally, j, tampered, shifts)
    requires now.route == was.route && now.amountSats == was.amountSats && was.currentLegIndex <= now.currentLegIndex
    requires forall k: nat :: k != leg ==> At(now.legResults, k) == At(was.legResults, k)
    requires tally'[j] == tally[j]
    requires At(was.legResults, leg + 1) == None || At(was.legResults, leg) == At(now.legResults, leg)
    ensures LegTallied(now, tally', j, tampered, shifts)
  {
    if j != leg + 1 || At(was.legResults, leg) == At(now.legResults, leg) { InputStaysUnless(was, now, leg, j); }
    OtherInput(was.route.legs[j].call, FirstValueLegIndex(was.route.legs), j, At(was.legResults, j), tally[j],
               InputOf(was, j), was.currentLegIndex, InputOf(now, j), now.currentLegIndex, tampered, shifts);
  }

  // Changing one leg's result and history keeps the rest.
  lemma TallyOneLeg(was: Plan, now: Plan, tally: seq<Tally>, tally': seq<Tally>, leg: nat, tampered: bool, shifts: Shifts)
    requires TallyOk(was, tally, tampered, shifts) && leg < |tally| == |tally'|
    requires now.route == was.route && now.amountSats == was.amountSats && was.currentLegIndex <= now.currentLegIndex
    requires forall j: nat :: j != leg ==> At(now.legResults, j) == At(was.legResults, j)
    requires forall j: nat :: j < |tally| && j != leg ==> tally'[j] == tally[j]
    requires At(was.legResults, leg + 1) == None || At(was.legResults, leg) == At(now.legResults, leg)
    requires LegOk(now.route.legs[leg].call, FirstValueLegIndex(now.route.legs), leg, At(now.legResults, leg), tally'[leg],
                   InputOf(was, leg), now.currentLegIndex, tampered, shifts)
    ensures TallyOk(now, tally', tampered, shifts)
  {
    InputStaysUnless(was, now, leg, leg);
    forall j: nat | j < |tally| ensures LegTallied(now, tally', j, tampered, shifts) {
      if j != leg { OtherLegTallied(was, now, tally, tally', leg, j, tampered, shifts); }
    }
  }

  ghost predicate StepKeeps(c: Case, d: DriverId, at: Position, choice: Choice, shifts: Shifts)
    requires CaseOk(c, shifts) && CanStep(c, at, choice, shifts)
  {
    var (c', at') := Step(c, d, at, choice, shifts);
    CaseOk(c', shifts) && PositionOk(c', d, at', shifts) && SeenByOthers(c, c', d, shifts)
  }

  lemma NothingSeen(c: Case, d: DriverId, shifts: Shifts)
    ensures SeenByOthers(c, c, d, shifts)
  {
  }

  // A settled leg of a snapshot is still settled, with the same amount; a leg at its
  // provider still has the same tracking id.
  lemma SnapshotLeg(record: Plan, c: Case, j: nat, shifts: Shifts)
    requires SnapshotOk(record, c, shifts) && j < |record.route.legs|
    ensures
      var was, now := At(record.legResults, j), At(c.truth.legResults, j);
      && (IsSettled(was) ==> now == was)
      && (IsResolved(was) ==> IsResolved(now) && now.value.trackingId == was.value.trackingId)
  {
    assert LaterResult(record.route.legs[j].call, At(record.legResults, j), At(c.truth.legResults, j), shifts);
  }

  lemma SnapshotPrefix(record: Plan, c: Case, shifts: Shifts)
    requires SnapshotOk(record, c, shifts)
    ensures forall j: nat :: j < record.currentLegIndex ==>
      SettledPositive(At(c.truth.legResults, j)) && At(c.truth.legResults, j) == At(record.legResults, j)
  {
    forall j: nat | j < record.currentLegIndex
      ensures SettledPositive(At(c.truth.legResults, j)) && At(c.truth.legResults, j) == At(record.legResults, j)
    {
      SnapshotLeg(record, c, j, shifts);
    }
  }

  // Where a driver goes once leg i is stored settled.
  lemma AfterSettledOk(c: Case, d: DriverId, i: nat, amount: Option<int>, record: Plan, resumed: bool, shifts: Shifts)
    requires |Legs(c)| == |c.tally| && i < |Legs(c)| && c.owner != Some(d)
    requires IsSealed(c.slot) ==> IsSettled(At(c.truth.legResults, i)) && At(c.truth.legResults, i).value.receivedSats == amount
    requires IsSealed(c.slot) ==> forall j: nat :: j < i ==> SettledPositive(At(c.truth.legResults, j))
    requires c.slot != Some(Tampered)
    ensures PositionOk(c, d, Follow(AfterSettled(Legs(c), i, amount), record, resumed), shifts)
  {
  }

  // Where the pure part of recovery sends a driver whose snapshot has the current leg unstarted.
  lemma UnstartedInput(record: Plan, c: Case, shifts: Shifts)
    requires SnapshotOk(record, c, shifts) && At(record.legResults, record.currentLegIndex).None?
    ensures
      var i := record.currentLegIndex;
      var carry := if i == 0 then Some(record.amountSats) else AmountOf(At(record.legResults, i - 1));
      IsPositive(carry) && carry.value == InputOf(c.truth, i)
  {
    SnapshotPrefix(record, c, shifts);
    var i := record.currentLegIndex;
    assert i > 0 ==> SettledPositive(At(record.legResults, i - 1)) && At(c.truth.legResults, i - 1) == At(record.legResults, i - 1);
  }

  lemma UnstartedOk(c: Case, d: DriverId, record: Plan, shifts: Shifts)
    requires |Legs(c)| == |c.tally| && SnapshotOk(record, c, shifts) && c.owner != Some(d)
    requires At(record.legResults, record.currentLegIndex).None?
    ensures PositionOk(c, d, Follow(ResumeDecision(record), record, true), shifts)
  {
    SnapshotPrefix(record, c, shifts);
    UnstartedInput(record, c, shifts);
  }

  // ... and one whose snapshot has it started.
  lemma StartedOk(c: Case, d: DriverId, record: Plan, shifts: Shifts)
    requires |Legs(c)| == |c.tally| && SnapshotOk(record, c, shifts) && c.owner != Some(d)
    requires At(record.legResults, record.currentLegIndex).Some?
    ensures PositionOk(c, d, Follow(ResumeDecision(record), record, true), shifts)
  {
    var i := record.currentLegIndex;
    SnapshotLeg(record, c, i, shifts);
    SnapshotPrefix(record, c, shifts);
    if record.state != NeedsReview && At(record.legResults, i).value.state == LegSettled && c.slot != Some(Tampered) {
      AfterSettledOk(c, d, i, At(record.legResults, i).value.receivedSats, record, true, shifts);
    }
  }

  lemma DecisionOk(c: Case, d: DriverId, record: Plan, shifts: Shifts)
    requires |Legs(c)| == |c.tally| && SnapshotOk(record, c, shifts) && c.owner != Some(d)
    ensures PositionOk(c, d, Follow(ResumeDecision(record), record, true), shifts)
  {
    if At(record.legResults, record.currentLegIndex).None? {
      UnstartedOk(c, d, record, shifts);
    } else {
      StartedOk(c, d, record, shifts);
    }
  }

  lemma SnapshotStepKeeps(c: Case, d: DriverId, record: Plan, shifts: Shifts)
    requires CaseOk(c, shifts) && PositionOk(c, d, HasSnapshot(record), shifts)
    ensures StepKeeps(c, d, HasSnapshot(record), Goes, shifts)
  {
    DecisionOk(c, d, record, shifts);
    NothingSeen(c, d, shifts);
  }

  lemma ProbeOk(c: Case, d: DriverId, record: Plan, answer: Answer, shifts: Shifts)
    requires |Legs(c)| == |c.tally| && PositionOk(c, d, WillProbe(record), shifts)
    requires CanStep(c, WillProbe(record), Answered(answer), shifts)
    ensures PositionOk(c, d, StepProbe(record, answer), shifts)
  {
    var i := record.currentLegIndex;
    SnapshotLeg(record, c, i, shifts);
    var result := At(record.legResults, i).value;
    assert result.state == LegInFlight ==> result == CLAIMED;
    assert result.state != LegSettled;
    var m := record.route.legs[i].call;
    match ProbeLeg(m, result, answer) {
      case ProbeConcluded =>
        assert IsInflow(m) ==> i == 0 && m == Receive;
        assert !IsInflow(m) ==> i == |Legs(c)| - 1;
      case ProbeSettled(amount) => assert Reportable(m, result, amount, shifts);
      case _ =>
    }
  }

  lemma ProbeStepKeeps(c: Case, d: DriverId, record: Plan, choice: Choice, shifts: Shifts)
    requires CaseOk(c, shifts) && PositionOk(c, d, WillProbe(record), shifts) && CanStep(c, WillProbe(record), choice, shifts)
    ensures StepKeeps(c, d, WillProbe(record), choice, shifts)
  {
    ProbeOk(c, d, record, choice.answer, shifts);
    NothingSeen(c, d, shifts);
  }

  // ----- storing what a probe found ------------------------------------------------------------------

  // The stored leg is either as the snapshot has it or already holds what is being stored.
  lemma SettleIsExpected(record: Plan, c: Case, amount: Option<int>, shifts: Shifts)
    requires SnapshotOk(record, c, shifts) && record.currentLegIndex < |record.route.legs|
    requires At(record.legResults, record.currentLegIndex).Some?
    requires Reportable(record.route.legs[record.currentLegIndex].call, At(record.legResults, record.currentLegIndex).value, amount, shifts)
    ensures
      var was, now := At(record.legResults, record.currentLegIndex), At(c.truth.legResults, record.currentLegIndex);
      now == was || now == Some(SettledBy(was.value, amount))
  {
    var i := record.currentLegIndex;
    assert LaterResult(record.route.legs[i].call, At(record.legResults, i), At(c.truth.legResults, i), shifts);
  }

  // A patch by a driver that does not own a leg of the plan.
  lemma PatchKeeps(c: Case, d: DriverId, now: Plan, shifts: Shifts)
    requires CaseOk(c, shifts) && IsSealed(c.slot) && c.owner != Some(d)
    requires WellFormed(now) && TallyOk(now, c.tally, c.tampered, shifts) && Later(c.truth, now, shifts)
    requires now.currentLegIndex == c.truth.currentLegIndex
    requires c.owner.Some? ==> forall j: nat :: At(now.legResults, j) == At(c.truth.legResults, j)
    ensures CaseOk(Rewrite(c, now), shifts) && SeenByOthers(c, Rewrite(c, now), d, shifts)
  {
  }

  lemma SettleSealedKeeps(c: Case, d: DriverId, record: Plan, amount: Option<int>, shifts: Shifts)
    requires CaseOk(c, shifts) && PositionOk(c, d, WillSettle(record, amount), shifts) && IsSealed(c.slot)
    ensures StepKeeps(c, d, WillSettle(record, amount), Goes, shifts)
  {
    var i := record.currentLegIndex;
    var now := WithResult(c.truth, i, Some(SettledBy(At(record.legResults, i).value, amount)), c.truth.state);
    SettleTruth(record, c, amount, now, shifts);
    PatchKeeps(c, d, now, shifts);
    SettledPosition(record, c, d, amount, now, shifts);
    assert StepSettle(c, record, amount) == (Rewrite(c, now), Follow(AfterSettled(record.route.legs, i, amount), record, true));
  }

  lemma SettleUnsealedKeeps(c: Case, d: DriverId, record: Plan, amount: Option<int>, shifts: Shifts)
    requires CaseOk(c, shifts) && PositionOk(c, d, WillSettle(record, amount), shifts) && !IsSealed(c.slot)
    ensures StepKeeps(c, d, WillSettle(record, amount), Goes, shifts)
  {
    var i := record.currentLegIndex;
    NothingSeen(c, d, shifts);
    if c.slot.None? {
      AfterSettledOk(c, d, i, amount, record, true, shifts);
      assert StepSettle(c, record, amount) == (c, Follow(AfterSettled(Legs(c), i, amount), record, true));
    } else {
      assert StepSettle(c, record, amount) == (c, Done);
    }
  }

  lemma SettleStepKeeps(c: Case, d: DriverId, record: Plan, amount: Option<int>, shifts: Shifts)
    requires CaseOk(c, shifts) && PositionOk(c, d, WillSettle(record, amount), shifts)
    ensures StepKeeps(c, d, WillSettle(record, amount), Goes, shifts)
  {
    if IsSealed(c.slot) {
      SettleSealedKeeps(c, d, record, amount, shifts);
    } else {
      SettleUnsealedKeeps(c, d, record, amount, shifts);
    }
  }

  lemma SettledPosition(record: Plan, c: Case, d: DriverId, amount: Option<int>, now: Plan, shifts: Shifts)
    requires |c.tally| == |Legs(c)| && SnapshotOk(record, c, shifts) && record.currentLegIndex < |record.route.legs|
    requires At(record.legResults, record.currentLegIndex).Some? && IsSealed(c.slot) && c.owner != Some(d)
    requires now == WithResult(c.truth, record.currentLegIndex,
                               Some(SettledBy(At(record.legResults, record.currentLegIndex).value, amount)), c.truth.state)
    ensures PositionOk(Rewrite(c, now), d, Follow(AfterSettled(record.route.legs, record.currentLegIndex, amount), record, true), shifts)
  {
    SnapshotPrefix(record, c, shifts);
    AfterSettledOk(Rewrite(c, now), d, record.currentLegIndex, amount, record, true, shifts);
  }

  lemma SettleTruth(record: Plan, c: Case, amount: Option<int>, now: Plan, shifts: Shifts)
    requires CaseOk(c, shifts) && SnapshotOk(record, c, shifts) && record.currentLegIndex < |record.route.legs|
    requires At(record.legResults, record.currentLegIndex).Some?
    requires Reportable(record.route.legs[record.currentLegIndex].call, At(record.legResults, record.currentLegIndex).value, amount, shifts)
    requires now == WithResult(c.truth, record.currentLegIndex,
                               Some(SettledBy(At(record.legResults, record.currentLegIndex).value, amount)), c.truth.state)
    ensures WellFormed(now) && TallyOk(now, c.tally, c.tampered, shifts) && Later(c.truth, now, shifts)
    ensures c.closed.Some? ==> ReasonOk(c.truth, c.closed.value, shifts, c.tampered)
    ensures c.owner.Some? ==> forall j: nat :: At(now.legResults, j) == At(c.truth.legResults, j)
  {
    var i := record.currentLegIndex;
    SettleIsExpected(record, c, amount, shifts);
    SnapshotPrefix(record, c, shifts);
    TallyLeg(c.truth, c.tally, i, c.tampered, shifts);
    SettledLegOk(Legs(c)[i].call, FirstValueLegIndex(Legs(c)), i, At(record.legResults, i).value, amount, At(c.truth.legResults, i),
                 c.tally[i], InputOf(c.truth, i), c.truth.currentLegIndex, c.tampered, shifts);
    TallyOneLeg(c.truth, now, c.tally, c.tally, i, c.tampered, shifts);
    ChangeOneLeg(c.truth, now, i, shifts);
  }

  lemma SettledLegOk(
      m: Method, first: nat, j: nat, was: LegResult, amount: Option<int>, stored: Option<LegResult>, t: Tally, input: int,
      current: nat, tampered: bool, shifts: Shifts)
    requires LegOk(m, first, j, stored, t, input, current, tampered, shifts)
    requires stored == Some(was) || stored == Some(SettledBy(was, amount))
    requires Reportable(m, was, amount, shifts)
    ensures LegOk(m, first, j, Some(SettledBy(was, amount)), t, input, current, tampered, shifts)
  {
  }

  // ----- parking, removing ----------------------------------------------------------------------------

  lemma TallyLeg(plan: Plan, tally: seq<Tally>, j: nat, tampered: bool, shifts: Shifts)
    requires TallyOk(plan, tally, tampered, shifts) && j < |tally|
    ensures LegOk(plan.route.legs[j].call, FirstValueLegIndex(plan.route.legs), j, At(plan.legResults, j), tally[j],
                  InputOf(plan, j), plan.currentLegIndex, tampered, shifts)
  {
    assert LegTallied(plan, tally, j, tampered, shifts);
  }

  lemma ParkedTally(plan: Plan, tally: seq<Tally>, tampered: bool, shifts: Shifts)
    requires TallyOk(plan, tally, tampered, shifts)
    ensures TallyOk(plan.(state := NeedsReview), tally, tampered, shifts)
  {
    forall j: nat | j < |tally| ensures LegTallied(plan.(state := NeedsReview), tally, j, tampered, shifts) {
      assert LegTallied(plan, tally, j, tampered, shifts);
    }
  }

  lemma ParkStepKeeps(c: Case, d: DriverId, shifts: Shifts)
    requires CaseOk(c, shifts) && PositionOk(c, d, WillPark, shifts)
    ensures StepKeeps(c, d, WillPark, Goes, shifts)
  {
    if IsSealed(c.slot) {
      var now := c.truth.(state := NeedsReview);
      LaterIsReflexive(c.truth, shifts);
      ParkedTally(c.truth, c.tally, c.tampered, shifts);
      PatchKeeps(c, d, now, shifts);
      StepKeepsBy(c, d, WillPark, Goes, shifts, Rewrite(c, now), Done);
    } else {
      NothingSeen(c, d, shifts);
    }
  }

  // A record with a reason to be removed has no leg in execution.
  lemma NoOwnerWhenRemovable(c: Case, why: Reason, shifts: Shifts)
    requires WellFormed(c.truth) && TallyOk(c.truth, c.tally, c.tampered, shifts) && ReasonOk(c.truth, why, shifts, c.tampered)
    requires why != FirstLegThrew && why != Discarded
    ensures At(c.truth.legResults, c.truth.currentLegIndex) != Some(CLAIMED)
  {
    TallyLeg(c.truth, c.tally, 0, c.tampered, shifts);
  }

  lemma RemoveStepKeeps(c: Case, d: DriverId, why: Reason, shifts: Shifts)
    requires CaseOk(c, shifts) && PositionOk(c, d, WillRemove(why), shifts)
    ensures StepKeeps(c, d, WillRemove(why), Goes, shifts)
  {
    LaterIsReflexive(c.truth, shifts);
    if c.slot.Some? { NoOwnerWhenRemovable(c, why, shifts); }
  }

  // ----- claiming a leg ------------------------------------------------------------------------------

  // A claim that succeeds takes the current leg again after a reset, or the next one.
  lemma ClaimTruth(was: Plan, leg: nat, shifts: Shifts)
    requires WellFormed(was) && leg < |was.route.legs| && At(was.legResults, leg) == None
    requires forall j: nat :: j < leg ==> SettledPositive(At(was.legResults, j))
    ensures leg == was.currentLegIndex || (leg == was.currentLegIndex + 1 && SettledPositive(At(was.legResults, leg - 1)))
    ensures WellFormed(WithClaim(was, leg)) && Later(was, WithClaim(was, leg), shifts)
    ensures InputOf(WithClaim(was, leg), leg) == InputOf(was, leg)
  {
    if leg > was.currentLegIndex {
      assert SettledPositive(At(was.legResults, leg - 1));
    }
    ChangeOneLeg(was, WithClaim(was, leg), leg, shifts);
  }

  lemma ClaimTally(was: Plan, tally: seq<Tally>, leg: nat, tampered: bool, shifts: Shifts)
    requires WellFormed(was) && TallyOk(was, tally, tampered, shifts) && leg < |tally| && At(was.legResults, leg) == None
    requires forall j: nat :: j < leg ==> SettledPositive(At(was.legResults, j))
    ensures TallyOk(WithClaim(was, leg), tally[leg := tally[leg].(claims := tally[leg].claims + 1)], tampered, shifts)
    ensures tally[leg].moves == 0 && tally[leg].records == tally[leg].wasted
  {
    ClaimTruth(was, leg, shifts);
    TallyLeg(was, tally, leg, tampered, shifts);
    TallyOneLeg(was, WithClaim(was, leg), tally, tally[leg := tally[leg].(claims := tally[leg].claims + 1)], leg, tampered, shifts);
  }

  function ClaimedCase(c: Case, d: DriverId, leg: nat): Case
    requires leg < |c.tally|
  {
    var t := c.tally[leg];
    c.(slot := Some(Sealed(WithClaim(c.truth, leg))), truth := WithClaim(c.truth, leg),
       tally := c.tally[leg := t.(claims := t.claims + 1)], owner := Some(d))
  }

  // A leg that can be claimed is not being executed.
  lemma ClaimableIsIdle(c: Case, leg: nat, shifts: Shifts)
    requires WellFormed(c.truth) && SlotOk(c, shifts) && At(c.truth.legResults, leg) == None
    requires forall j: nat :: j < leg ==> SettledPositive(At(c.truth.legResults, j))
    ensures c.owner.None?
  {
  }

  lemma ClaimedTruthOk(c: Case, d: DriverId, leg: nat, shifts: Shifts)
    requires WellFormed(c.truth) && TallyOk(c.truth, c.tally, c.tampered, shifts) && leg < |c.tally| && At(c.truth.legResults, leg) == None
    requires forall j: nat :: j < leg ==> SettledPositive(At(c.truth.legResults, j))
    ensures
      var c' := ClaimedCase(c, d, leg);
      WellFormed(c'.truth) && TallyOk(c'.truth, c'.tally, c'.tampered, shifts)
  {
    ClaimTruth(c.truth, leg, shifts);
    ClaimTally(c.truth, c.tally, leg, c.tampered, shifts);
  }

  lemma ClaimKeepsCase(c: Case, d: DriverId, leg: nat, shifts: Shifts)
    requires CaseOk(c, shifts) && IsSealed(c.slot) && leg < |c.tally| && At(c.truth.legResults, leg) == None
    requires forall j: nat :: j < leg ==> SettledPositive(At(c.truth.legResults, j))
    ensures CaseOk(ClaimedCase(c, d, leg), shifts) && c.owner.None?
  {
    ClaimedTruthOk(c, d, leg, shifts);
    ClaimableIsIdle(c, leg, shifts);
    ClaimedSlotOk(c, d, leg, shifts);
  }

  lemma ClaimedSlotOk(c: Case, d: DriverId, leg: nat, shifts: Shifts)
    requires SlotOk(c, shifts) && IsSealed(c.slot) && leg < |c.tally|
    ensures SlotOk(ClaimedCase(c, d, leg), shifts)
  {
  }

  lemma ClaimSeen(c: Case, d: DriverId, leg: nat, shifts: Shifts)
    requires WellFormed(c.truth) && c.owner.None? && IsSealed(c.slot) && leg < |c.tally| == |Legs(c)| && At(c.truth.legResults, leg) == None
    requires forall j: nat :: j < leg ==> SettledPositive(At(c.truth.legResults, j))
    ensures SeenByOthers(c, ClaimedCase(c, d, leg), d, shifts)
  {
    ClaimTruth(c.truth, leg, shifts);
  }

  lemma ClaimPosition(c: Case, d: DriverId, leg: nat, carry: int, resumed: bool, shifts: Shifts)
    requires CaseOk(c, shifts) && IsSealed(c.slot) && leg < |c.tally| && At(c.truth.legResults, leg) == None
    requires forall j: nat :: j < leg ==> SettledPositive(At(c.truth.legResults, j))
    requires carry == InputOf(c.truth, leg)
    ensures PositionOk(ClaimedCase(c, d, leg), d, Runs(leg, carry, resumed, Started), shifts)
  {
    ClaimTruth(c.truth, leg, shifts);
    ClaimTally(c.truth, c.tally, leg, c.tampered, shifts);
  }

  lemma ClaimStepKeeps(c: Case, d: DriverId, leg: nat, carry: int, resumed: bool, shifts: Shifts)
    requires CaseOk(c, shifts) && PositionOk(c, d, WillClaim(leg, carry, resumed), shifts)
    ensures StepKeeps(c, d, WillClaim(leg, carry, resumed), Goes, shifts)
  {
    if leg < |Legs(c)| && ClaimOutcome(c.slot, leg) == Claimed {
      ClaimKeepsCase(c, d, leg, shifts);
      ClaimSeen(c, d, leg, shifts);
      ClaimPosition(c, d, leg, carry, resumed, shifts);
      assert StepClaim(c, d, leg, carry, resumed) == (ClaimedCase(c, d, leg), Runs(leg, carry, resumed, Started));
    } else {
      NothingSeen(c, d, shifts);
    }
  }

  // ----- executing a leg ------------------------------------------------------------------------------

  // Recording a stage of leg `leg`: only its history changes.
  lemma NoteKeeps(c: Case, d: DriverId, leg: nat, t: Tally, shifts: Shifts)
    requires CaseOk(c, shifts) && leg < |c.tally| && c.owner == Some(d)
    requires LegOk(Legs(c)[leg].call, FirstValueLegIndex(Legs(c)), leg, At(c.truth.legResults, leg), t,
                   InputOf(c.truth, leg), c.truth.currentLegIndex, c.tampered, shifts)
    ensures CaseOk(Note(c, leg, t), shifts) && SeenByOthers(c, Note(c, leg, t), d, shifts)
  {
    LaterIsReflexive(c.truth, shifts);
    TallyOneLeg(c.truth, c.truth, c.tally, c.tally[leg := t], leg, c.tampered, shifts);
  }

  // A hook skips the ceilings only past the first value leg of an authentic stored plan.
  lemma SkipMeans(c: Case, leg: nat, shifts: Shifts)
    requires CaseOk(c, shifts) && leg == c.truth.currentLegIndex
    ensures SkipsCeilings(c, leg) <==>
      IsHookRouted(Legs(c)[leg].call) && leg > FirstValueLegIndex(Legs(c)) && IsSealed(c.slot)
  {
  }

  // The history of leg j once its ceilings were, or were not, enforced.
  lemma SkipLegOk(m: Method, first: nat, j: nat, r: Option<LegResult>, t: Tally, input: int, current: nat, tampered: bool, shifts: Shifts)
    requires LegOk(m, first, j, r, t, input, current, tampered, shifts) && t.moves == 0
    requires first < j <= current && IsHookRouted(m)
    ensures LegOk(m, first, j, r, t.(skipped := true), input, current, tampered, shifts)
  {
  }

  lemma StartedTally(c: Case, leg: nat, shifts: Shifts)
    requires CaseOk(c, shifts) && leg == c.truth.currentLegIndex && leg < |c.tally| && c.tally[leg].moves == 0
    ensures
      var t := c.tally[leg].(skipped := c.tally[leg].skipped || SkipsCeilings(c, leg));
      LegOk(Legs(c)[leg].call, FirstValueLegIndex(Legs(c)), leg, At(c.truth.legResults, leg), t,
            InputOf(c.truth, leg), c.truth.currentLegIndex, c.tampered, shifts)
  {
    TallyLeg(c.truth, c.tally, leg, c.tampered, shifts);
    SkipMeans(c, leg, shifts);
    if SkipsCeilings(c, leg) {
      SkipLegOk(Legs(c)[leg].call, FirstValueLegIndex(Legs(c)), leg, At(c.truth.legResults, leg), c.tally[leg],
                InputOf(c.truth, leg), c.truth.currentLegIndex, c.tampered, shifts);
    }
  }

  lemma StartedPhase(c: Case, leg: nat, order: Order, shifts: Shifts)
    requires CaseOk(c, shifts) && leg == c.truth.currentLegIndex && leg < |c.tally| && c.tally[leg].moves == 0
    requires c.tally[leg].records == c.tally[leg].wasted && !IsInflow(Legs(c)[leg].call)
    ensures PhaseOk(Note(c, leg, c.tally[leg].(skipped := c.tally[leg].skipped || SkipsCeilings(c, leg))), leg,
                    Enforced(!SkipsCeilings(c, leg), order))
  {
    FirstValueLegOfRoute(Legs(c));
    SkipMeans(c, leg, shifts);
  }

  lemma OrderKeeps(c: Case, d: DriverId, leg: nat, carry: int, resumed: bool, order: Order, shifts: Shifts)
    requires CaseOk(c, shifts) && PositionOk(c, d, Runs(leg, carry, resumed, Started), shifts)
    requires CanStep(c, Runs(leg, carry, resumed, Started), Orders(order), shifts)
    ensures StepKeeps(c, d, Runs(leg, carry, resumed, Started), Orders(order), shifts)
  {
    var t := c.tally[leg].(skipped := c.tally[leg].skipped || SkipsCeilings(c, leg));
    StartedTally(c, leg, shifts);
    StartedPhase(c, leg, order, shifts);
    NoteKeeps(c, d, leg, t, shifts);
    StepKeepsBy(c, d, Runs(leg, carry, resumed, Started), Orders(order), shifts,
                Note(c, leg, t), Runs(leg, carry, resumed, Enforced(!SkipsCeilings(c, leg), order)));
  }

  // One more recorded spend of the leg in execution.
  lemma RecordsLegOk(m: Method, first: nat, j: nat, t: Tally, input: int, current: nat, tampered: bool, shifts: Shifts)
    requires LegOk(m, first, j, Some(CLAIMED), t, input, current, tampered, shifts)
    requires t.moves == 0 && t.records == t.wasted && !IsInflow(m)
    ensures LegOk(m, first, j, Some(CLAIMED), t.(records := t.records + 1), input, current, tampered, shifts)
  {
  }

  lemma EnforcedTally(c: Case, leg: nat, records: bool, shifts: Shifts)
    requires CaseOk(c, shifts) && leg == c.truth.currentLegIndex && leg < |c.tally| && At(c.truth.legResults, leg) == Some(CLAIMED)
    requires c.tally[leg].moves == 0 && c.tally[leg].records == c.tally[leg].wasted && !IsInflow(Legs(c)[leg].call)
    ensures LegOk(Legs(c)[leg].call, FirstValueLegIndex(Legs(c)), leg, At(c.truth.legResults, leg),
                  c.tally[leg].(records := c.tally[leg].records + (if records then 1 else 0)),
                  InputOf(c.truth, leg), c.truth.currentLegIndex, c.tampered, shifts)
  {
    TallyLeg(c.truth, c.tally, leg, c.tampered, shifts);
    if records {
      RecordsLegOk(Legs(c)[leg].call, FirstValueLegIndex(Legs(c)), leg, c.tally[leg], InputOf(c.truth, leg),
                   c.truth.currentLegIndex, c.tampered, shifts);
    }
  }

  lemma EnforcedPhase(c: Case, leg: nat, full: bool, order: Order, shifts: Shifts)
    requires CaseOk(c, shifts) && c.owner.Some? && leg == c.truth.currentLegIndex && leg < |c.tally| && !IsInflow(Legs(c)[leg].call)
    requires PhaseOk(c, leg, Enforced(full, order))
    ensures
      var records := !SkipsCeilings(c, leg);
      PhaseOk(RecordedCase(c, leg, records), leg, Recorded(full, records, order))
  {
    FirstValueLegOfRoute(Legs(c));
    TallyLeg(c.truth, c.tally, leg, c.tampered, shifts);
    SkipMeans(c, leg, shifts);
  }

  // The case once leg `leg` has recorded its spend, or not.
  function RecordedCase(c: Case, leg: nat, records: bool): Case
    requires leg < |c.tally|
  {
    Note(c, leg, c.tally[leg].(records := c.tally[leg].records + (if records then 1 else 0)))
  }

  lemma EnforcedStep(c: Case, d: DriverId, leg: nat, carry: int, resumed: bool, full: bool, order: Order, shifts: Shifts)
    requires leg < |c.tally| == |Legs(c)|
    requires CanStep(c, Runs(leg, carry, resumed, Enforced(full, order)), Goes, shifts)
    ensures
      var records := !SkipsCeilings(c, leg);
      Step(c, d, Runs(leg, carry, resumed, Enforced(full, order)), Goes, shifts)
      == (RecordedCase(c, leg, records), Runs(leg, carry, resumed, Recorded(full, records, order)))
  {
  }

  lemma EnforcedCase(c: Case, d: DriverId, leg: nat, records: bool, shifts: Shifts)
    requires CaseOk(c, shifts) && leg == c.truth.currentLegIndex && leg < |c.tally| && c.owner == Some(d)
    requires c.tally[leg].moves == 0 && c.tally[leg].records == c.tally[leg].wasted && !IsInflow(Legs(c)[leg].call)
    ensures CaseOk(RecordedCase(c, leg, records), shifts) && SeenByOthers(c, RecordedCase(c, leg, records), d, shifts)
  {
    EnforcedTally(c, leg, records, shifts);
    NoteKeeps(c, d, leg, c.tally[leg].(records := c.tally[leg].records + (if records then 1 else 0)), shifts);
  }

  lemma EnforcedKeeps(c: Case, d: DriverId, leg: nat, carry: int, resumed: bool, full: bool, order: Order, shifts: Shifts)
    requires CaseOk(c, shifts) && PositionOk(c, d, Runs(leg, carry, resumed, Enforced(full, order)), shifts)
    ensures StepKeeps(c, d, Runs(leg, carry, resumed, Enforced(full, order)), Goes, shifts)
  {
    var records := !SkipsCeilings(c, leg);
    EnforcedStep(c, d, leg, carry, resumed, full, order, shifts);
    EnforcedCase(c, d, leg, records, shifts);
    EnforcedPhase(c, leg, full, order, shifts);
    StepKeepsBy(c, d, Runs(leg, carry, resumed, Enforced(full, order)), Goes, shifts,
                RecordedCase(c, leg, records), Runs(leg, carry, resumed, Recorded(full, records, order)));
  }

  lemma MovedLegOk(m: Method, first: nat, j: nat, t: Tally, carry: int, current: nat, tampered: bool, shifts: Shifts, counted: bool)
    requires LegOk(m, first, j, Some(CLAIMED), t, carry, current, tampered, shifts) && t.moves == 0 && !IsInflow(m)
    requires !counted ==> t.skipped
    requires !tampered ==> (counted <==> j == first || !IsHookRouted(m))
    requires counted ==> t.records == t.wasted + 1
    requires !counted && !tampered ==> t.records == t.wasted
    ensures LegOk(m, first, j, Some(CLAIMED), t.(moves := 1, handed := carry, counted := counted), carry, current, tampered, shifts)
  {
  }

  lemma RecordedTally(c: Case, leg: nat, enforced: bool, recorded: bool, order: Order, shifts: Shifts)
    requires CaseOk(c, shifts) && leg == c.truth.currentLegIndex && leg < |c.tally|
    requires PhaseOk(c, leg, Recorded(enforced, recorded, order)) && At(c.truth.legResults, leg) == Some(CLAIMED)
    ensures
      var t := c.tally[leg];
      LegOk(Legs(c)[leg].call, FirstValueLegIndex(Legs(c)), leg, At(c.truth.legResults, leg),
            t.(moves := 1, handed := InputOf(c.truth, leg), counted := enforced && recorded),
            InputOf(c.truth, leg), c.truth.currentLegIndex, c.tampered, shifts)
  {
    TallyLeg(c.truth, c.tally, leg, c.tampered, shifts);
    MovedLegOk(Legs(c)[leg].call, FirstValueLegIndex(Legs(c)), leg, c.tally[leg], InputOf(c.truth, leg),
               c.truth.currentLegIndex, c.tampered, shifts, enforced && recorded);
  }

  lemma RecordedKeeps(
      c: Case, d: DriverId, leg: nat, carry: int, resumed: bool, enforced: bool, recorded: bool, order: Order, shifts: Shifts)
    requires CaseOk(c, shifts) && PositionOk(c, d, Runs(leg, carry, resumed, Recorded(enforced, recorded, order)), shifts)
    ensures StepKeeps(c, d, Runs(leg, carry, resumed, Recorded(enforced, recorded, order)), Goes, shifts)
  {
    var t := c.tally[leg].(moves := 1, handed := carry, counted := enforced && recorded);
    RecordedTally(c, leg, enforced, recorded, order, shifts);
    NoteKeeps(c, d, leg, t, shifts);
    StepKeepsBy(c, d, Runs(leg, carry, resumed, Recorded(enforced, recorded, order)), Goes, shifts,
                Note(c, leg, t), Runs(leg, carry, resumed, Sent));
  }

  lemma WastedLegOk(m: Method, first: nat, j: nat, t: Tally, input: int, current: nat, tampered: bool, shifts: Shifts)
    requires LegOk(m, first, j, Some(CLAIMED), t, input, current, tampered, shifts)
    requires t.moves == 0 && !IsHookRouted(m) && !IsInflow(m)
    ensures LegOk(m, first, j, Some(CLAIMED), t.(wasted := t.wasted + 1), input, current, tampered, shifts)
  {
  }

  lemma WasteTally(c: Case, leg: nat, shifts: Shifts)
    requires CaseOk(c, shifts) && leg == c.truth.currentLegIndex && leg < |c.tally| && At(c.truth.legResults, leg) == Some(CLAIMED)
    requires c.tally[leg].moves == 0 && !IsHookRouted(Legs(c)[leg].call) && !IsInflow(Legs(c)[leg].call)
    ensures LegOk(Legs(c)[leg].call, FirstValueLegIndex(Legs(c)), leg, At(c.truth.legResults, leg),
                  c.tally[leg].(wasted := c.tally[leg].wasted + 1),
                  InputOf(c.truth, leg), c.truth.currentLegIndex, c.tampered, shifts)
  {
    TallyLeg(c.truth, c.tally, leg, c.tampered, shifts);
    WastedLegOk(Legs(c)[leg].call, FirstValueLegIndex(Legs(c)), leg, c.tally[leg], InputOf(c.truth, leg),
                c.truth.currentLegIndex, c.tampered, shifts);
  }

  // A failed execution that wasted a recorded spend, and one that did not.
  lemma WasteStep(c: Case, d: DriverId, leg: nat, carry: int, resumed: bool, phase: Phase, shifts: Shifts)
    requires leg < |c.tally| == |Legs(c)| && phase.Recorded? && phase.recorded
    requires CanStep(c, Runs(leg, carry, resumed, phase), Throws(true), shifts)
    ensures Step(c, d, Runs(leg, carry, resumed, phase), Throws(true), shifts)
         == (Note(c, leg, c.tally[leg].(wasted := c.tally[leg].wasted + 1)), Threw(leg, resumed, true))
    ensures !IsHookRouted(Legs(c)[leg].call)
  {
  }

  lemma WasteKeeps(c: Case, d: DriverId, leg: nat, carry: int, resumed: bool, phase: Phase, shifts: Shifts)
    requires CaseOk(c, shifts) && PositionOk(c, d, Runs(leg, carry, resumed, phase), shifts)
    requires CanStep(c, Runs(leg, carry, resumed, phase), Throws(true), shifts) && phase.Recorded? && phase.recorded
    ensures StepKeeps(c, d, Runs(leg, carry, resumed, phase), Throws(true), shifts)
  {
    var t := c.tally[leg].(wasted := c.tally[leg].wasted + 1);
    WasteStep(c, d, leg, carry, resumed, phase, shifts);
    WasteTally(c, leg, shifts);
    NoteKeeps(c, d, leg, t, shifts);
    StepKeepsBy(c, d, Runs(leg, carry, resumed, phase), Throws(true), shifts, Note(c, leg, t), Threw(leg, resumed, true));
  }

  lemma FailsStep(c: Case, d: DriverId, leg: nat, carry: int, resumed: bool, phase: Phase, retrySafe: bool, shifts: Shifts)
    requires leg < |c.tally| == |Legs(c)| && !(retrySafe && phase.Recorded? && phase.recorded)
    requires CanStep(c, Runs(leg, carry, resumed, phase), Throws(retrySafe), shifts)
    ensures Step(c, d, Runs(leg, carry, resumed, phase), Throws(retrySafe), shifts) == (c, Threw(leg, resumed, retrySafe))
    ensures retrySafe ==> phase != Sent
  {
  }

  lemma FailsKeeps(c: Case, d: DriverId, leg: nat, carry: int, resumed: bool, phase: Phase, retrySafe: bool, shifts: Shifts)
    requires CaseOk(c, shifts) && PositionOk(c, d, Runs(leg, carry, resumed, phase), shifts)
    requires CanStep(c, Runs(leg, carry, resumed, phase), Throws(retrySafe), shifts)
    ensures StepKeeps(c, d, Runs(leg, carry, resumed, phase), Throws(retrySafe), shifts)
  {
    if retrySafe && phase.Recorded? && phase.recorded {
      WasteKeeps(c, d, leg, carry, resumed, phase, shifts);
    } else {
      FailsStep(c, d, leg, carry, resumed, phase, retrySafe, shifts);
      NothingSeen(c, d, shifts);
      StepKeepsBy(c, d, Runs(leg, carry, resumed, phase), Throws(retrySafe), shifts, c, Threw(leg, resumed, retrySafe));
    }
  }

  lemma RunsStepKeeps(c: Case, d: DriverId, leg: nat, carry: int, resumed: bool, phase: Phase, choice: Choice, shifts: Shifts)
    requires CaseOk(c, shifts) && PositionOk(c, d, Runs(leg, carry, resumed, phase), shifts)
    requires CanStep(c, Runs(leg, carry, resumed, phase), choice, shifts)
    ensures StepKeeps(c, d, Runs(leg, carry, resumed, phase), choice, shifts)
  {
    match choice
    case Goes =>
      if phase.Enforced? {
        EnforcedKeeps(c, d, leg, carry, resumed, phase.full, phase.order, shifts);
      } else {
        RecordedKeeps(c, d, leg, carry, resumed, phase.enforced, phase.recorded, phase.order, shifts);
      }
    case Orders(order) => OrderKeeps(c, d, leg, carry, resumed, order, shifts);
    case Throws(retrySafe) => FailsKeeps(c, d, leg, carry, resumed, phase, retrySafe, shifts);
    case Returns(o) => NothingSeen(c, d, shifts);
  }

  // ----- after the leg -----------------------------------------------------------------------------------

  // The owner's patch: the leg's result replaced, the leg given up.
  lemma OwnerPatchKeeps(c: Case, d: DriverId, leg: nat, now: Plan, t: Tally, shifts: Shifts)
    requires CaseOk(c, shifts) && IsSealed(c.slot) && c.owner == Some(d)
    requires leg == c.truth.currentLegIndex && OnlyLegChanged(c.truth, now, leg)
    requires LegOk(Legs(c)[leg].call, FirstValueLegIndex(Legs(c)), leg, At(now.legResults, leg), t,
                   InputOf(c.truth, leg), leg, c.tampered, shifts)
    ensures CaseOk(Patched(c, leg, now, t), shifts) && SeenByOthers(c, Patched(c, leg, now, t), d, shifts)
  {
    TallyOneLeg(c.truth, now, c.tally, c.tally[leg := t], leg, c.tampered, shifts);
    ChangeOneLeg(c.truth, now, leg, shifts);
  }

  lemma ReleaseKeeps(c: Case, d: DriverId, shifts: Shifts)
    requires CaseOk(c, shifts) && c.owner == Some(d)
    ensures CaseOk(c.(owner := None), shifts) && SeenByOthers(c, c.(owner := None), d, shifts)
  {
    LaterIsReflexive(c.truth, shifts);
  }

  lemma ResetLegOk(m: Method, first: nat, j: nat, t: Tally, input: int, current: nat, tampered: bool, shifts: Shifts)
    requires LegOk(m, first, j, Some(CLAIMED), t, input, current, tampered, shifts) && t.moves == 0 && t.records == t.wasted
    ensures LegOk(m, first, j, None, t.(resets := t.resets + 1), input, current, tampered, shifts)
  {
  }

  // `now` is the plan with the leg the owner gives up replaced.
  ghost predicate OnlyLegChanged(was: Plan, now: Plan, leg: nat) {
    && now.route == was.route && now.amountSats == was.amountSats && now.planId == was.planId && now.params == was.params
    && now.currentLegIndex == was.currentLegIndex
    && forall j: nat :: j != leg ==> At(now.legResults, j) == At(was.legResults, j)
  }

  // The owner's patch as one rewrite of the case.
  function Patched(c: Case, leg: nat, now: Plan, t: Tally): Case
    requires leg < |c.tally|
  {
    c.(slot := Some(Sealed(now)), truth := now, tally := c.tally[leg := t], owner := None)
  }

  lemma StepKeepsBy(c: Case, d: DriverId, at: Position, choice: Choice, shifts: Shifts, c': Case, at': Position)
    requires CaseOk(c, shifts) && CanStep(c, at, choice, shifts)
    requires Step(c, d, at, choice, shifts) == (c', at')
    requires CaseOk(c', shifts) && PositionOk(c', d, at', shifts) && SeenByOthers(c, c', d, shifts)
    ensures StepKeeps(c, d, at, choice, shifts)
  {
  }

  lemma ResetTally(c: Case, leg: nat, shifts: Shifts)
    requires CaseOk(c, shifts) && leg == c.truth.currentLegIndex && leg < |c.tally| && c.tally[leg].moves == 0
    requires c.tally[leg].records == c.tally[leg].wasted && At(c.truth.legResults, leg) == Some(CLAIMED)
    ensures LegOk(Legs(c)[leg].call, FirstValueLegIndex(Legs(c)), leg, None, c.tally[leg].(resets := c.tally[leg].resets + 1),
                  InputOf(c.truth, leg), leg, c.tampered, shifts)
  {
    TallyLeg(c.truth, c.tally, leg, c.tampered, shifts);
    ResetLegOk(Legs(c)[leg].call, FirstValueLegIndex(Legs(c)), leg, c.tally[leg], InputOf(c.truth, leg), leg, c.tampered, shifts);
  }

  lemma ResetPatch(c: Case, d: DriverId, leg: nat, now: Plan, shifts: Shifts)
    requires CaseOk(c, shifts) && IsSealed(c.slot) && c.owner == Some(d)
    requires leg == c.truth.currentLegIndex && leg < |c.tally| && c.tally[leg].moves == 0
    requires c.tally[leg].records == c.tally[leg].wasted && At(c.truth.legResults, leg) == Some(CLAIMED)
    requires OnlyLegChanged(c.truth, now, leg) && At(now.legResults, leg) == None
    ensures
      var c' := Patched(c, leg, now, c.tally[leg].(resets := c.tally[leg].resets + 1));
      CaseOk(c', shifts) && SeenByOthers(c, c', d, shifts)
  {
    ResetTally(c, leg, shifts);
    OwnerPatchKeeps(c, d, leg, now, c.tally[leg].(resets := c.tally[leg].resets + 1), shifts);
  }

  lemma ResetStep(c: Case, d: DriverId, leg: nat, resumed: bool, shifts: Shifts)
    requires IsSealed(c.slot) && c.slot.value.record == c.truth && leg < |c.tally| == |Legs(c)| && (leg > 0 || resumed)
    requires CanStep(c, Threw(leg, resumed, true), Goes, shifts)
    ensures Step(c, d, Threw(leg, resumed, true), Goes, shifts)
         == (Patched(c, leg, WithResult(c.truth, leg, None, Pending), c.tally[leg].(resets := c.tally[leg].resets + 1)), Done)
    ensures OnlyLegChanged(c.truth, WithResult(c.truth, leg, None, Pending), leg)
  {
  }

  lemma ResetKeeps(c: Case, d: DriverId, leg: nat, resumed: bool, shifts: Shifts)
    requires CaseOk(c, shifts) && PositionOk(c, d, Threw(leg, resumed, true), shifts) && IsSealed(c.slot)
    requires leg > 0 || resumed
    ensures StepKeeps(c, d, Threw(leg, resumed, true), Goes, shifts)
  {
    var now := WithResult(c.truth, leg, None, Pending);
    ResetStep(c, d, leg, resumed, shifts);
    ResetPatch(c, d, leg, now, shifts);
    StepKeepsBy(c, d, Threw(leg, resumed, true), Goes, shifts,
                Patched(c, leg, now, c.tally[leg].(resets := c.tally[leg].resets + 1)), Done);
  }

  lemma AmbiguousStep(c: Case, d: DriverId, leg: nat, resumed: bool, shifts: Shifts)
    requires IsSealed(c.slot) && c.slot.value.record == c.truth && leg < |c.tally| == |Legs(c)| && (leg > 0 || resumed)
    requires CanStep(c, Threw(leg, resumed, false), Goes, shifts)
    ensures Step(c, d, Threw(leg, resumed, false), Goes, shifts)
         == (Patched(c, leg, c.truth.(state := NeedsReview), c.tally[leg]), Done)
  {
    assert c.tally[leg := c.tally[leg]] == c.tally;
  }

  lemma AmbiguousKeeps(c: Case, d: DriverId, leg: nat, resumed: bool, shifts: Shifts)
    requires CaseOk(c, shifts) && PositionOk(c, d, Threw(leg, resumed, false), shifts)
    requires leg > 0 || resumed
    ensures StepKeeps(c, d, Threw(leg, resumed, false), Goes, shifts)
  {
    if IsSealed(c.slot) {
      var now := c.truth.(state := NeedsReview);
      TallyLeg(c.truth, c.tally, leg, c.tampered, shifts);
      AmbiguousStep(c, d, leg, resumed, shifts);
      OwnerPatchKeeps(c, d, leg, now, c.tally[leg], shifts);
      StepKeepsBy(c, d, Threw(leg, resumed, false), Goes, shifts, Patched(c, leg, now, c.tally[leg]), Done);
    } else {
      ReleaseKeeps(c, d, shifts);
    }
  }

  lemma FirstLegThrewKeeps(c: Case, d: DriverId, retrySafe: bool, shifts: Shifts)
    requires CaseOk(c, shifts) && PositionOk(c, d, Threw(0, false, retrySafe), shifts)
    ensures StepKeeps(c, d, Threw(0, false, retrySafe), Goes, shifts)
  {
    LaterIsReflexive(c.truth, shifts);
  }

  lemma ThrewStepKeeps(c: Case, d: DriverId, leg: nat, resumed: bool, retrySafe: bool, shifts: Shifts)
    requires CaseOk(c, shifts) && PositionOk(c, d, Threw(leg, resumed, retrySafe), shifts)
    ensures StepKeeps(c, d, Threw(leg, resumed, retrySafe), Goes, shifts)
  {
    if leg == 0 && !resumed {
      FirstLegThrewKeeps(c, d, retrySafe, shifts);
    } else if !retrySafe {
      AmbiguousKeeps(c, d, leg, resumed, shifts);
    } else if IsSealed(c.slot) {
      ResetKeeps(c, d, leg, resumed, shifts);
    } else {
      ReleaseKeeps(c, d, shifts);
    }
  }

  lemma ReturnedResultOk(c: Case, leg: nat, o: Outcome, shifts: Shifts)
    requires WellFormed(c.truth) && leg == c.truth.currentLegIndex && leg < |c.tally| && MayReturn(Legs(c)[leg].call, o)
    requires c.tally[leg].moves == (if IsInflow(Legs(c)[leg].call) then 0 else 1)
    requires At(c.truth.legResults, leg) == Some(CLAIMED)
    requires LegOk(Legs(c)[leg].call, FirstValueLegIndex(Legs(c)), leg, At(c.truth.legResults, leg), c.tally[leg],
                   InputOf(c.truth, leg), leg, c.tampered, shifts)
    ensures LegOk(Legs(c)[leg].call, FirstValueLegIndex(Legs(c)), leg, Some(LegResultFromOutcome(o)), c.tally[leg],
                  InputOf(c.truth, leg), leg, c.tampered, shifts)
  {
  }

  function StoredOutcome(c: Case, leg: nat, o: Outcome): Case {
    var now := WithResult(c.truth, leg, Some(LegResultFromOutcome(o)), PlanStateAfter(o));
    c.(slot := Some(Sealed(now)), truth := now, owner := None)
  }

  lemma StoredOutcomeKeeps(c: Case, d: DriverId, leg: nat, o: Outcome, shifts: Shifts)
    requires CaseOk(c, shifts) && IsSealed(c.slot) && c.owner == Some(d)
    requires leg == c.truth.currentLegIndex && MayReturn(Legs(c)[leg].call, o)
    requires c.tally[leg].moves == (if IsInflow(Legs(c)[leg].call) then 0 else 1)
    ensures CaseOk(StoredOutcome(c, leg, o), shifts) && SeenByOthers(c, StoredOutcome(c, leg, o), d, shifts)
  {
    var t := c.tally[leg];
    var now := WithResult(c.truth, leg, Some(LegResultFromOutcome(o)), PlanStateAfter(o));
    TallyLeg(c.truth, c.tally, leg, c.tampered, shifts);
    ReturnedResultOk(c, leg, o, shifts);
    OwnerPatchKeeps(c, d, leg, now, t, shifts);
    PatchedIsStored(c, leg, o);
  }

  lemma PatchedIsStored(c: Case, leg: nat, o: Outcome)
    requires leg < |c.tally|
    ensures Patched(c, leg, WithResult(c.truth, leg, Some(LegResultFromOutcome(o)), PlanStateAfter(o)), c.tally[leg])
         == StoredOutcome(c, leg, o)
  {
    assert c.tally[leg := c.tally[leg]] == c.tally;
  }

  // Where the driver goes after storing what its leg returned.
  function OutcomePosition(c: Case, leg: nat, resumed: bool, o: Outcome): Position
    requires leg < |Legs(c)|
  {
    match o.status
    case Settled => Follow(AfterSettled(Legs(c), leg, o.receivedSats), StoredOutcome(c, leg, o).truth, resumed)
    case Refunded | Failed => WillRemove(NotDelivered(leg))
    case _ => Done
  }

  lemma OutcomePositionOk(c: Case, d: DriverId, leg: nat, resumed: bool, o: Outcome, shifts: Shifts)
    requires CaseOk(c, shifts) && PositionOk(c, d, Returned(leg, resumed, o), shifts) && IsSealed(c.slot)
    ensures PositionOk(StoredOutcome(c, leg, o), d, OutcomePosition(c, leg, resumed, o), shifts)
  {
    if o.status.Settled? {
      AfterSettledOk(StoredOutcome(c, leg, o), d, leg, o.receivedSats, StoredOutcome(c, leg, o).truth, resumed, shifts);
    }
  }

  lemma ReturnedStep(c: Case, d: DriverId, leg: nat, resumed: bool, o: Outcome, shifts: Shifts)
    requires IsSealed(c.slot) && c.slot.value.record == c.truth && leg < |c.tally| == |Legs(c)|
    requires CanStep(c, Returned(leg, resumed, o), Goes, shifts)
    ensures Step(c, d, Returned(leg, resumed, o), Goes, shifts) == (StoredOutcome(c, leg, o), OutcomePosition(c, leg, resumed, o))
  {
  }

  lemma ReturnedSealedKeeps(c: Case, d: DriverId, leg: nat, resumed: bool, o: Outcome, shifts: Shifts)
    requires CaseOk(c, shifts) && PositionOk(c, d, Returned(leg, resumed, o), shifts) && IsSealed(c.slot)
    ensures StepKeeps(c, d, Returned(leg, resumed, o), Goes, shifts)
  {
    ReturnedStep(c, d, leg, resumed, o, shifts);
    StoredOutcomeKeeps(c, d, leg, o, shifts);
    OutcomePositionOk(c, d, leg, resumed, o, shifts);
    StepKeepsBy(c, d, Returned(leg, resumed, o), Goes, shifts, StoredOutcome(c, leg, o), OutcomePosition(c, leg, resumed, o));
  }

  // The record is gone: nothing is stored, and whatever the driver does next finds nothing.
  lemma ReturnedAbsentPosition(c: Case, d: DriverId, leg: nat, resumed: bool, o: Outcome, shifts: Shifts)
    requires |Legs(c)| == |c.tally| && leg < |Legs(c)| && c.owner == Some(d) && c.slot.None?
    ensures StepReturned(c, leg, resumed, o).0 == c.(owner := None)
    ensures PositionOk(c.(owner := None), d, StepReturned(c, leg, resumed, o).1, shifts)
  {
    var c' := c.(owner := None);
    if o.status == Settled {
      AfterSettledOk(c', d, leg, o.receivedSats, c.truth, resumed, shifts);
      assert StepReturned(c, leg, resumed, o) == (c', Follow(AfterSettled(Legs(c), leg, o.receivedSats), c.truth, resumed));
    } else if o.status == Refunded || o.status == Failed {
      assert StepReturned(c, leg, resumed, o) == (c', WillRemove(NotDelivered(leg)));
    } else {
      assert StepReturned(c, leg, resumed, o) == (c', Done);
    }
  }

  lemma ReturnedUnsealedKeeps(c: Case, d: DriverId, leg: nat, resumed: bool, o: Outcome, shifts: Shifts)
    requires CaseOk(c, shifts) && PositionOk(c, d, Returned(leg, resumed, o), shifts) && !IsSealed(c.slot)
    ensures StepKeeps(c, d, Returned(leg, resumed, o), Goes, shifts)
  {
    ReleaseKeeps(c, d, shifts);
    if c.slot.None? {
      ReturnedAbsentPosition(c, d, leg, resumed, o, shifts);
    } else {
      assert StepReturned(c, leg, resumed, o) == (c.(owner := None), Done);
    }
  }

  lemma ReturnedStepKeeps(c: Case, d: DriverId, leg: nat, resumed: bool, o: Outcome, shifts: Shifts)
    requires CaseOk(c, shifts) && PositionOk(c, d, Returned(leg, resumed, o), shifts)
    ensures StepKeeps(c, d, Returned(leg, resumed, o), Goes, shifts)
  {
    if IsSealed(c.slot) {
      ReturnedSealedKeeps(c, d, leg, resumed, o, shifts);
    } else {
      ReturnedUnsealedKeeps(c, d, leg, resumed, o, shifts);
    }
  }

  // Every step of a driver keeps its plan's invariant and its own.
  lemma EveryStepKeeps(c: Case, d: DriverId, at: Position, choice: Choice, shifts: Shifts)
    requires CaseOk(c, shifts) && PositionOk(c, d, at, shifts) && CanStep(c, at, choice, shifts)
    ensures StepKeeps(c, d, at, choice, shifts)
  {
    match at
    case HasSnapshot(record) => SnapshotStepKeeps(c, d, record, shifts);
    case WillProbe(record) => ProbeStepKeeps(c, d, record, choice, shifts);
    case WillSettle(record, amount) => SettleStepKeeps(c, d, record, amount, shifts);
    case WillClaim(leg, carry, resumed) => ClaimStepKeeps(c, d, leg, carry, resumed, shifts);
    case Runs(leg, carry, resumed, phase) => RunsStepKeeps(c, d, leg, carry, resumed, phase, choice, shifts);
    case Threw(leg, resumed, retrySafe) => ThrewStepKeeps(c, d, leg, resumed, retrySafe, shifts);
    case Returned(leg, resumed, o) => ReturnedStepKeeps(c, d, leg, resumed, o, shifts);
    case WillRemove(why) => RemoveStepKeeps(c, d, why, shifts);
    case WillPark => ParkStepKeeps(c, d, shifts);
  }

  // ----- the other drivers of the same plan -------------------------------------------------------------

  lemma SettledStays(c: Case, c': Case, d: DriverId, shifts: Shifts)
    requires SeenByOthers(c, c', d, shifts)
    ensures forall j: nat :: j < |Legs(c)| && IsSettled(At(c.truth.legResults, j)) ==> At(c'.truth.legResults, j) == At(c.truth.legResults, j)
  {
    forall j: nat | j < |Legs(c)| && IsSettled(At(c.truth.legResults, j))
      ensures At(c'.truth.legResults, j) == At(c.truth.legResults, j)
    {
      assert LaterResult(Legs(c)[j].call, At(c.truth.legResults, j), At(c'.truth.legResults, j), shifts);
    }
  }

  lemma SnapshotStays(c: Case, c': Case, d: DriverId, record: Plan, shifts: Shifts)
    requires SnapshotOk(record, c, shifts) && SeenByOthers(c, c', d, shifts)
    ensures SnapshotOk(record, c', shifts)
  {
    LaterIsTransitive(record, c.truth, c'.truth, shifts);
  }

  lemma ClaimStays(c: Case, c': Case, d: DriverId, leg: nat, shifts: Shifts)
    requires SeenByOthers(c, c', d, shifts) && leg < |Legs(c)|
    requires forall j: nat :: j < leg ==> SettledPositive(At(c.truth.legResults, j))
    ensures forall j: nat :: j < leg ==> SettledPositive(At(c'.truth.legResults, j))
    ensures InputOf(c'.truth, leg) == InputOf(c.truth, leg)
  {
    SettledStays(c, c', d, shifts);
    assert leg > 0 ==> SettledPositive(At(c.truth.legResults, leg - 1));
  }

  // A stored outcome stays an outcome, with the same tracking id.
  lemma ResolvedStays(c: Case, c': Case, d: DriverId, j: nat, shifts: Shifts)
    requires SeenByOthers(c, c', d, shifts) && j < |Legs(c)| && IsResolved(At(c.truth.legResults, j))
    ensures
      var was, now := At(c.truth.legResults, j), At(c'.truth.legResults, j);
      IsResolved(now) && now.value.trackingId == was.value.trackingId && (IsSettled(was) ==> now == was)
  {
    assert LaterResult(Legs(c)[j].call, At(c.truth.legResults, j), At(c'.truth.legResults, j), shifts);
  }

  lemma ReasonStays(c: Case, c': Case, d: DriverId, why: Reason, shifts: Shifts)
    requires SeenByOthers(c, c', d, shifts) && ReasonOk(c.truth, why, shifts, c.tampered)
    requires why != FirstLegThrew && why != Discarded
    requires WellFormed(c.truth)
    ensures ReasonOk(c'.truth, why, shifts, c'.tampered)
  {
    var k := match why case NotDelivered(k) => k case Concluded(k) => k case _ => |Legs(c)| - 1;
    ResolvedStays(c, c', d, k, shifts);
  }

  lemma OwnerStays(c: Case, c': Case, d: DriverId, e: DriverId, at: Position, shifts: Shifts)
    requires CaseOk(c, shifts) && CaseOk(c', shifts) && SeenByOthers(c, c', d, shifts) && e != d
    requires Owns(at) && PositionOk(c, e, at, shifts)
    ensures PositionOk(c', e, at, shifts)
  {
    var i := c.truth.currentLegIndex;
    assert InputOf(c'.truth, i) == InputOf(c.truth, i);
  }

  lemma OthersStay(c: Case, c': Case, d: DriverId, e: DriverId, at: Position, shifts: Shifts)
    requires CaseOk(c, shifts) && CaseOk(c', shifts) && SeenByOthers(c, c', d, shifts) && e != d
    requires PositionOk(c, e, at, shifts)
    ensures PositionOk(c', e, at, shifts)
  {
    match at
    case HasSnapshot(record) => SnapshotStays(c, c', d, record, shifts);
    case WillProbe(record) => SnapshotStays(c, c', d, record, shifts);
    case WillSettle(record, _) => SnapshotStays(c, c', d, record, shifts);
    case WillClaim(leg, _, _) => if IsSealed(c.slot) { ClaimStays(c, c', d, leg, shifts); }
    case WillRemove(why) => if c.slot.Some? { ReasonStays(c, c', d, why, shifts); }
    case WillPark =>
    case Done =>
    case _ => OwnerStays(c, c', d, e, at, shifts);
  }
}
