// What holds of every conversion plan in every run of the process.
module PlanTheorems {
  import opened Options
  import opened Routes
  import opened Envelopes
  import opened PlanStore
  import opened Multihop
  import opened PlanMachine
  import opened PlanInvariant
  import opened PlanSafety

  // ----- how a case evolves -----------------------------------------------------------------------

  ghost predicate Grows(c: Case, c': Case) {
    && c'.truth.route == c.truth.route && c'.truth.amountSats == c.truth.amountSats && c'.truth.params == c.truth.params && |c'.tally| == |c.tally|
    && (forall j: nat :: j < |Legs(c)| && IsSettled(At(c.truth.legResults, j)) ==> At(c'.truth.legResults, j) == At(c.truth.legResults, j))
    && (forall j: nat :: j < |c.tally| ==> c.tally[j].moves <= c'.tally[j].moves)
    && (c.slot.None? ==> c'.slot.None? && c'.closed == c.closed)
    && (c.tampered ==> c'.tampered)
  }

  // What one step does to the history of leg j.
  lemma StepTally(c: Case, d: DriverId, at: Position, choice: Choice, shifts: Shifts, j: nat)
    requires CanStep(c, at, choice, shifts) && j < |c.tally| == |Legs(c)|
    ensures
      var c' := Step(c, d, at, choice, shifts).0;
      var sends := at.Runs? && choice.Goes? && at.leg == j && at.phase.Recorded?;
      && |c'.tally| == |c.tally|
      && c'.tally[j].moves == c.tally[j].moves + (if sends then 1 else 0)
      && c'.tally[j].counted == (if sends then at.phase.enforced && at.phase.recorded else c.tally[j].counted)
  {
  }

  lemma StepSlot(c: Case, d: DriverId, at: Position, choice: Choice, shifts: Shifts)
    requires CanStep(c, at, choice, shifts) && |c.tally| == |Legs(c)| && c.slot.None?
    ensures Step(c, d, at, choice, shifts).0.slot.None? && Step(c, d, at, choice, shifts).0.closed == c.closed
  {
  }

  // A started leg becomes unstarted only by a reset.
  lemma StepResets(c: Case, d: DriverId, at: Position, choice: Choice, shifts: Shifts, j: nat)
    requires CanStep(c, at, choice, shifts) && |c.tally| == |Legs(c)| && At(c.truth.legResults, j).Some?
    requires IsSealed(c.slot) ==> c.slot.value.record == c.truth
    requires At(Step(c, d, at, choice, shifts).0.truth.legResults, j).None?
    ensures IsSealed(c.slot) && at.Threw? && at.leg == j && at.retrySafe && (j > 0 || at.resumed)
  {
  }

  lemma MoveGrows(s: State, a: Action)
    requires a.Move? && CanAct(s, a) && DriverOk(s, a.d)
    ensures Grows(s.cases[s.drivers[a.d].plan], Act(s, a).cases[s.drivers[a.d].plan])
  {
    var d, id := a.d, s.drivers[a.d].plan;
    var c, c' := s.cases[id], Act(s, a).cases[id];
    MoveIsStep(s, a);
    MoveFrame(s, a);
    SettledStays(c, c', d, s.shifts);
    forall j: nat | j < |c.tally| ensures c.tally[j].moves <= c'.tally[j].moves {
      StepTally(c, d, s.drivers[d].at, a.choice, s.shifts, j);
    }
    if c.slot.None? { StepSlot(c, d, s.drivers[d].at, a.choice, s.shifts); }
  }

  lemma OtherActionsGrow(s: State, a: Action, id: PlanId)
    requires !a.Move? && CanAct(s, a) && id in s.cases
    ensures id in Act(s, a).cases && Grows(s.cases[id], Act(s, a).cases[id])
  {
  }

  lemma ActGrows(s: State, a: Action, id: PlanId)
    requires Inv(s) && CanAct(s, a) && id in s.cases
    ensures id in Act(s, a).cases && Grows(s.cases[id], Act(s, a).cases[id])
  {
    if a.Move? {
      assert DriverOk(s, a.d);
      MoveFrame(s, a);
      if s.drivers[a.d].plan == id { MoveGrows(s, a); }
    } else {
      OtherActionsGrow(s, a, id);
    }
  }

  ghost predicate Grown(s: State, s': State, id: PlanId) {
    id in s.cases && id in s'.cases && Grows(s.cases[id], s'.cases[id])
  }

  lemma TraceGrows(t: Trace, k: nat, id: PlanId)
    requires IsTrace(t) && k < |t.actions| && id in t.states[k].cases
    ensures Grown(t.states[k], t.states[k+1], id)
  {
    TraceStep(t, k);
    ActGrows(t.states[k], t.actions[k], id);
  }

  lemma GrownIsTransitive(s: State, s': State, s'': State, id: PlanId)
    requires Grown(s, s', id) && Grown(s', s'', id)
    ensures Grown(s, s'', id)
  {
    GrowsIsTransitive(s.cases[id], s'.cases[id], s''.cases[id]);
  }

  lemma GrownItself(s: State, id: PlanId)
    requires id in s.cases
    ensures Grown(s, s, id)
  {
  }

  lemma {:induction false} GrownAlong(states: seq<State>, i: nat, k: nat, id: PlanId)
    requires i <= k < |states| && id in states[i].cases
    requires forall m :: i <= m < k && id in states[m].cases ==> Grown(states[m], states[m+1], id)
    ensures Grown(states[i], states[k], id)
    decreases k - i
  {
    if i == k {
      GrownItself(states[i], id);
    } else {
      GrownAlong(states, i, k - 1, id);
      GrownIsTransitive(states[i], states[k-1], states[k], id);
    }
  }

  lemma RunGrows(t: Trace, i: nat, k: nat, id: PlanId)
    requires IsTrace(t) && i <= k < |t.states| && id in t.states[i].cases
    ensures id in t.states[k].cases && Grows(t.states[i].cases[id], t.states[k].cases[id])
  {
    forall m | i <= m < k && id in t.states[m].cases ensures Grown(t.states[m], t.states[m+1], id) {
      TraceGrows(t, m, id);
    }
    GrownAlong(t.states, i, k, id);
  }

  lemma GrowsIsTransitive(p: Case, q: Case, r: Case)
    requires Grows(p, q) && Grows(q, r)
    ensures Grows(p, r)
  {
    forall j: nat | j < |p.tally| ensures p.tally[j].moves <= r.tally[j].moves {
      assert p.tally[j].moves <= q.tally[j].moves;
    }
  }

  lemma TraceStep(t: Trace, k: nat)
    requires IsTrace(t) && k < |t.actions|
    ensures Inv(t.states[k]) && CanAct(t.states[k], t.actions[k]) && t.states[k+1] == Act(t.states[k], t.actions[k])
  {
    EveryStateIsInvariant(t, k);
  }

  // ----- one execution per leg ---------------------------------------------------------------------

  lemma SendPosition(s: State, a: Action, id: PlanId, j: nat)
    requires Sends(s, a, id, j) && DriverOk(s, a.d)
    ensures id in s.cases && j < |s.cases[id].tally| == |Legs(s.cases[id])| && s.cases[id].tally[j].moves == 0
  {
  }

  lemma SendMoves(s: State, a: Action, id: PlanId, j: nat)
    requires Inv(s) && Sends(s, a, id, j)
    ensures id in s.cases && j < |s.cases[id].tally| && s.cases[id].tally[j].moves == 0
    ensures id in Act(s, a).cases && j < |Act(s, a).cases[id].tally| && Act(s, a).cases[id].tally[j].moves == 1
    ensures Act(s, a).cases[id].tally[j].counted == SendsCounted(s, a, id, j)
  {
    assert DriverOk(s, a.d);
    SendPosition(s, a, id, j);
    SendTally(s, a, id, j);
  }

  lemma SendTally(s: State, a: Action, id: PlanId, j: nat)
    requires Sends(s, a, id, j) && id in s.cases && j < |s.cases[id].tally| == |Legs(s.cases[id])|
    ensures id in Act(s, a).cases
    ensures
      var c, c' := s.cases[id], Act(s, a).cases[id];
      && |c'.tally| == |c.tally| && c'.tally[j].moves == c.tally[j].moves + 1
      && c'.tally[j].counted == SendsCounted(s, a, id, j)
  {
    MoveFrame(s, a);
    StepTally(s.cases[id], a.d, s.drivers[a.d].at, a.choice, s.shifts, j);
  }

  lemma ClaimState(c: Case, shifts: Shifts, j: nat)
    requires CaseOk(c, shifts) && j < |Legs(c)| && ClaimOutcome(c.slot, j) == Claimed
    ensures IsSealed(c.slot) && At(c.truth.legResults, j) == None && j < |c.tally| && c.tally[j].moves == 0
  {
    TallyLeg(c.truth, c.tally, j, c.tampered, shifts);
  }

  lemma ClaimEffect(c: Case, d: DriverId, j: nat, carry: int, resumed: bool)
    requires |c.tally| == |Legs(c)| && j < |Legs(c)| && ClaimOutcome(c.slot, j) == Claimed
    ensures At(StepClaim(c, d, j, carry, resumed).0.truth.legResults, j) == Some(CLAIMED)
  {
  }

  lemma ClaimMeans(s: State, a: Action, id: PlanId, j: nat)
    requires Inv(s) && Claims(s, a, id, j)
    ensures id in s.cases && IsSealed(s.cases[id].slot) && At(s.cases[id].truth.legResults, j) == None
    ensures j < |s.cases[id].tally| && s.cases[id].tally[j].moves == 0
    ensures id in Act(s, a).cases && At(Act(s, a).cases[id].truth.legResults, j) == Some(CLAIMED)
  {
    var at := s.drivers[a.d].at;
    ClaimState(s.cases[id], s.shifts, j);
    ClaimEffect(s.cases[id], a.d, j, at.carry, at.resumed);
    MoveFrame(s, a);
  }

  // Each leg of a plan has at most one execution that may have moved money, and once it has
  // had one the leg is never claimed again.
  lemma OneExecutionPerLeg(t: Trace, i: nat, k: nat, id: PlanId, j: nat)
    requires IsTrace(t) && i < |t.actions| && k < |t.actions|
    requires Sends(t.states[i], t.actions[i], id, j)
    ensures Sends(t.states[k], t.actions[k], id, j) ==> k == i
    ensures i < k ==> !Claims(t.states[k], t.actions[k], id, j)
  {
    EveryStateIsInvariant(t, i);
    EveryStateIsInvariant(t, k);
    SendMoves(t.states[i], t.actions[i], id, j);
    if i < k {
      RunGrows(t, i + 1, k, id);
      assert t.states[k].cases[id].tally[j].moves >= 1;
      if Claims(t.states[k], t.actions[k], id, j) { ClaimMeans(t.states[k], t.actions[k], id, j); assert false; }
    }
    if Sends(t.states[k], t.actions[k], id, j) {
      SendMoves(t.states[k], t.actions[k], id, j);
      if k < i { RunGrows(t, k + 1, i, id); assert false; }
    }
  }

  lemma ResetPosition(s: State, a: Action, id: PlanId, j: nat)
    requires Resets(s, a, id, j) && DriverOk(s, a.d)
    ensures id in s.cases && j < |s.cases[id].tally| && s.cases[id].tally[j].moves == 0
  {
  }

  lemma ResetMeans(s: State, a: Action, id: PlanId, j: nat)
    requires Inv(s) && Resets(s, a, id, j)
    ensures id in s.cases && j < |s.cases[id].tally| && s.cases[id].tally[j].moves == 0
  {
    assert DriverOk(s, a.d);
    ResetPosition(s, a, id, j);
  }

  lemma ActResets(s: State, a: Action, id: PlanId, j: nat)
    requires Inv(s) && CanAct(s, a) && IsStarted(s, id, j) && !IsStarted(Act(s, a), id, j)
    ensures Resets(s, a, id, j)
  {
    if a.Move? {
      assert DriverOk(s, a.d);
      MoveFrame(s, a);
      if s.drivers[a.d].plan == id {
        StepResets(s.cases[id], a.d, s.drivers[a.d].at, a.choice, s.shifts, j);
      }
    }
  }

  predicate IsStarted(s: State, id: PlanId, j: nat) { id in s.cases && At(s.cases[id].truth.legResults, j).Some? }

  // Where a started leg became unstarted again.
  lemma {:induction false} FindReset(t: Trace, i: nat, k: nat, id: PlanId, j: nat) returns (m: nat)
    requires IsTrace(t) && i <= k < |t.states| && IsStarted(t.states[i], id, j) && !IsStarted(t.states[k], id, j)
    ensures i <= m < k && Resets(t.states[m], t.actions[m], id, j)
    decreases k - i
  {
    TraceStep(t, i);
    if !IsStarted(t.states[i+1], id, j) {
      ActResets(t.states[i], t.actions[i], id, j);
      m := i;
    } else {
      m := FindReset(t, i + 1, k, id, j);
    }
  }

  // A leg is claimed again only after a reset, and a reset only follows a failure before
  // anything of that leg was sent.
  lemma ClaimedAgainOnlyAfterReset(t: Trace, i: nat, k: nat, id: PlanId, j: nat)
    requires IsTrace(t) && i < k < |t.actions|
    requires Claims(t.states[i], t.actions[i], id, j) && Claims(t.states[k], t.actions[k], id, j)
    ensures exists m :: i < m < k && Resets(t.states[m], t.actions[m], id, j)
    ensures forall m, n :: 0 <= n <= m < |t.actions| && Resets(t.states[m], t.actions[m], id, j) ==> !Sends(t.states[n], t.actions[n], id, j)
  {
    EveryStateIsInvariant(t, i);
    EveryStateIsInvariant(t, k);
    ClaimMeans(t.states[i], t.actions[i], id, j);
    ClaimMeans(t.states[k], t.actions[k], id, j);
    var found := FindReset(t, i + 1, k, id, j);
    forall m, n | 0 <= n <= m < |t.actions| && Resets(t.states[m], t.actions[m], id, j)
      ensures !Sends(t.states[n], t.actions[n], id, j)
    {
      NoSendBeforeReset(t, n, m, id, j);
    }
  }

  lemma NoSendBeforeReset(t: Trace, n: nat, m: nat, id: PlanId, j: nat)
    requires IsTrace(t) && n <= m < |t.actions| && Resets(t.states[m], t.actions[m], id, j)
    ensures !Sends(t.states[n], t.actions[n], id, j)
  {
    EveryStateIsInvariant(t, n);
    EveryStateIsInvariant(t, m);
    ResetMeans(t.states[m], t.actions[m], id, j);
    if n < m && Sends(t.states[n], t.actions[n], id, j) {
      SendMoves(t.states[n], t.actions[n], id, j);
      RunGrows(t, n + 1, m, id);
      assert false;
    }
  }

  // ----- what an execution is handed and what it draws -----------------------------------------------

  // In every reachable state the stored plan has every leg before its current one settled
  // with a positive amount, no leg after it started, and the amount of the settled legs
  // never changes again.
  lemma SettledPrefix(t: Trace, i: nat, k: nat, id: PlanId)
    requires IsTrace(t) && i <= k < |t.states| && id in t.states[i].cases && IsSealed(t.states[i].cases[id].slot)
    ensures id in t.states[k].cases
    ensures
      var plan, later := t.states[i].cases[id].slot.value.record, t.states[k].cases[id].truth;
      && plan.currentLegIndex < |plan.route.legs|
      && (forall j: nat :: j < plan.currentLegIndex ==>
            SettledPositive(At(plan.legResults, j)) && At(later.legResults, j) == At(plan.legResults, j))
      && (forall j: nat :: j > plan.currentLegIndex ==> At(plan.legResults, j) == None)
      && (IsSealed(t.states[k].cases[id].slot) ==> t.states[k].cases[id].slot.value.record == later)
  {
    EveryStateIsInvariant(t, i);
    EveryStateIsInvariant(t, k);
    RunGrows(t, i, k, id);
    assert CaseOk(t.states[i].cases[id], t.states[i].shifts);
    assert CaseOk(t.states[k].cases[id], t.states[k].shifts);
  }

  lemma SendInput(s: State, a: Action, id: PlanId, j: nat)
    requires Sends(s, a, id, j) && DriverOk(s, a.d)
    ensures id in s.cases && j == s.cases[id].truth.currentLegIndex
    ensures s.drivers[a.d].at.carry == InputOf(s.cases[id].truth, j)
  {
  }

  // The first leg is handed the intent amount; every other leg is handed exactly what is
  // stored, then and ever after, as the settled output of the leg before it.
  lemma HandedPreviousOutput(t: Trace, i: nat, k: nat, id: PlanId, j: nat)
    requires IsTrace(t) && i < |t.actions| && Sends(t.states[i], t.actions[i], id, j) && i <= k < |t.states|
    ensures HandedTo(t.states[i], t.actions[i], id, j) > 0 && id in t.states[k].cases
    ensures
      var handed, plan := HandedTo(t.states[i], t.actions[i], id, j), t.states[k].cases[id].truth;
      && (j == 0 ==> handed == plan.amountSats)
      && (j > 0 ==> IsSettled(At(plan.legResults, j - 1)) && At(plan.legResults, j - 1).value.receivedSats == Some(handed))
  {
    TraceStep(t, i);
    assert DriverOk(t.states[i], t.actions[i].d);
    SendInput(t.states[i], t.actions[i], id, j);
    InputStays(t, i, k, id, j);
  }

  lemma SendOrder(s: State, a: Action, id: PlanId, j: nat)
    requires Sends(s, a, id, j) && DriverOk(s, a.d)
    ensures id in s.cases && j < |Legs(s.cases[id])| && !IsInflow(Legs(s.cases[id])[j].call)
    ensures Admits(Legs(s.cases[id])[j].call, HandedTo(s, a, id, j), s.cases[id].truth.params, s.drivers[a.d].at.phase.order)
  {
  }

  // What a leg draws, network fees apart, over every run. A peg-out draws what it was handed; a
  // shift and a stablecoin lockup never draw more; a lightning payment draws within its
  // invoice's ceiling. What a leg is valued at when it is enforced and recorded covers what it
  // draws, but for the slack of a swap.
  lemma DrawsWithinItsValue(t: Trace, i: nat, id: PlanId, j: nat)
    requires IsTrace(t) && i < |t.actions| && Sends(t.states[i], t.actions[i], id, j)
    ensures id in t.states[i].cases && j < |Legs(t.states[i].cases[id])|
    ensures
      var m, params := Legs(t.states[i].cases[id])[j].call, t.states[i].cases[id].truth.params;
      var handed, drawn := HandedTo(t.states[i], t.actions[i], id, j), DrawnBy(t.states[i], t.actions[i], id, j);
      && (m == PegOut ==> drawn == handed)
      && (m == PegOut || m == Send ==> ValuedAt(t.states[i], t.actions[i], id, j) == handed)
      && (m == Send || m == ToStablecoin ==> 0 < drawn <= handed)
      && (m == PayLightningInvoice ==> HasInvoiceAmount(params) && 0 < drawn <= Ceiling(params))
      && 0 <= drawn <= ValuedAt(t.states[i], t.actions[i], id, j) + (if m == Swap then SWAP_OUTFLOW_SLACK else 0)
  {
    TraceStep(t, i);
    var s, a := t.states[i], t.actions[i];
    assert DriverOk(s, a.d);
    SendOrder(s, a, id, j);
    HandedPreviousOutput(t, i, i, id, j);
    SpentIsCovered(Legs(s.cases[id])[j].call, HandedTo(s, a, id, j), s.cases[id].truth.params, s.drivers[a.d].at.phase.order);
  }

  // A run that is the same as t up to state k.
  ghost predicate Continues(t': Trace, t: Trace, k: nat) {
    && IsTrace(t') && k < |t.states| && k < |t'.states|
    && t'.states[..k+1] == t.states[..k+1]
  }

  // However the run goes on from state k, leg j draws what it was handed; or nothing beyond
  // what it was valued at.
  ghost predicate AlwaysDrawsItsInput(t: Trace, k: nat, id: PlanId, j: nat) {
    forall t': Trace, i: nat ::
      Continues(t', t, k) && k <= i < |t'.actions| && Sends(t'.states[i], t'.actions[i], id, j) ==>
        DrawnBy(t'.states[i], t'.actions[i], id, j) == HandedTo(t'.states[i], t'.actions[i], id, j)
  }

  ghost predicate AlwaysCovered(t: Trace, k: nat, id: PlanId, j: nat) {
    forall t': Trace, i: nat ::
      Continues(t', t, k) && k <= i < |t'.actions| && Sends(t'.states[i], t'.actions[i], id, j) ==>
        DrawnBy(t'.states[i], t'.actions[i], id, j) <= ValuedAt(t'.states[i], t'.actions[i], id, j)
  }

  // Driver d has claimed a leg of plan id that spends, and is about to execute it.
  predicate IsAboutToSpend(s: State, d: DriverId, id: PlanId, j: nat) {
    && d in s.drivers && s.drivers[d].plan == id && id in s.cases && j < |Legs(s.cases[id])| == |s.cases[id].tally|
    && s.drivers[d].at.Runs? && s.drivers[d].at.leg == j && s.drivers[d].at.phase == Started
    && !IsInflow(Legs(s.cases[id])[j].call)
  }

  // The stages of one execution with an order its leg accepts.
  lemma OrderSteps(c: Case, d: DriverId, leg: nat, carry: int, resumed: bool, order: Order, shifts: Shifts)
    requires leg < |Legs(c)| == |c.tally| && !IsInflow(Legs(c)[leg].call) && Admits(Legs(c)[leg].call, carry, c.truth.params, order)
    ensures CanStep(c, Runs(leg, carry, resumed, Started), Orders(order), shifts)
    ensures
      var (c', at') := Step(c, d, Runs(leg, carry, resumed, Started), Orders(order), shifts);
      && c'.truth == c.truth && |c'.tally| == |c.tally|
      && at'.Runs? && at'.leg == leg && at'.carry == carry && at'.phase.Enforced? && at'.phase.order == order
  {
  }

  lemma EnforcedSteps(c: Case, d: DriverId, leg: nat, carry: int, resumed: bool, full: bool, order: Order, shifts: Shifts)
    requires leg < |Legs(c)| == |c.tally| && !IsInflow(Legs(c)[leg].call)
    ensures CanStep(c, Runs(leg, carry, resumed, Enforced(full, order)), Goes, shifts)
    ensures
      var (c', at') := Step(c, d, Runs(leg, carry, resumed, Enforced(full, order)), Goes, shifts);
      && c'.truth == c.truth && |c'.tally| == |c.tally|
      && at'.Runs? && at'.leg == leg && at'.carry == carry && at'.phase.Recorded? && at'.phase.order == order
  {
  }

  lemma Extend(t: Trace, a: Action) returns (t': Trace)
    requires IsTrace(t) && CanAct(t.states[|t.actions|], a)
    ensures IsTrace(t') && t' == Trace(t.states + [Act(t.states[|t.actions|], a)], t.actions + [a])
  {
    t' := Trace(t.states + [Act(t.states[|t.actions|], a)], t.actions + [a]);
  }

  lemma Cut(t: Trace, k: nat) returns (t': Trace)
    requires IsTrace(t) && k < |t.states|
    ensures Continues(t', t, k) && |t'.actions| == k
  {
    t' := Trace(t.states[..k+1], t.actions[..k]);
  }

  // Three actions that can follow state k.
  lemma ExtendThrice(t: Trace, k: nat, a0: Action, s1: State, a1: Action, s2: State, a2: Action) returns (t': Trace)
    requires IsTrace(t) && k < |t.states|
    requires CanAct(t.states[k], a0) && s1 == Act(t.states[k], a0)
    requires CanAct(s1, a1) && s2 == Act(s1, a1) && CanAct(s2, a2)
    ensures Continues(t', t, k) && |t'.actions| == k + 3 && t'.states[k+2] == s2 && t'.actions[k+2] == a2
  {
    var t0 := Cut(t, k);
    assert t0.states[k] == t0.states[..k+1][k] == t.states[..k+1][k];
    var t1 := Extend(t0, a0);
    var t2 := Extend(t1, a1);
    t' := Extend(t2, a2);
  }

  // An execution that accepts this order, up to its sending.
  lemma SpendSteps(s: State, d: DriverId, id: PlanId, j: nat, order: Order) returns (s1: State, s2: State)
    requires IsAboutToSpend(s, d, id, j)
    requires Admits(Legs(s.cases[id])[j].call, s.drivers[d].at.carry, s.cases[id].truth.params, order)
    ensures CanAct(s, Move(d, Orders(order))) && s1 == Act(s, Move(d, Orders(order)))
    ensures CanAct(s1, Move(d, Goes)) && s2 == Act(s1, Move(d, Goes)) && CanAct(s2, Move(d, Goes))
    ensures Sends(s2, Move(d, Goes), id, j)
    ensures DrawnBy(s2, Move(d, Goes), id, j) == order.spent
    ensures HandedTo(s2, Move(d, Goes), id, j) == s.drivers[d].at.carry
    ensures ValuedAt(s2, Move(d, Goes), id, j) == Valued(Legs(s.cases[id])[j].call, s.drivers[d].at.carry, order)
  {
    var at := s.drivers[d].at;
    OrderSteps(s.cases[id], d, j, at.carry, at.resumed, order, s.shifts);
    s1 := MoveOnly(s, d, id, Orders(order));
    var at1 := s1.drivers[d].at;
    EnforcedSteps(s1.cases[id], d, j, at1.carry, at1.resumed, at1.phase.full, order, s1.shifts);
    s2 := MoveOnly(s1, d, id, Goes);
  }

  // The execution may go on to send with any order its leg accepts.
  lemma MaySend(t: Trace, k: nat, d: DriverId, id: PlanId, j: nat, order: Order) returns (t': Trace)
    requires IsTrace(t) && k < |t.states| && IsAboutToSpend(t.states[k], d, id, j)
    requires
      var s := t.states[k];
      Admits(Legs(s.cases[id])[j].call, s.drivers[d].at.carry, s.cases[id].truth.params, order)
    ensures Continues(t', t, k) && |t'.actions| == k + 3
    ensures Sends(t'.states[k+2], t'.actions[k+2], id, j)
    ensures DrawnBy(t'.states[k+2], t'.actions[k+2], id, j) == order.spent
    ensures HandedTo(t'.states[k+2], t'.actions[k+2], id, j) == t.states[k].drivers[d].at.carry
    ensures ValuedAt(t'.states[k+2], t'.actions[k+2], id, j)
         == Valued(Legs(t.states[k].cases[id])[j].call, t.states[k].drivers[d].at.carry, order)
  {
    var s1, s2 := SpendSteps(t.states[k], d, id, j, order);
    t' := ExtendThrice(t, k, Move(d, Orders(order)), s1, Move(d, Goes), s2, Move(d, Goes));
  }

  lemma MustDraw(t: Trace, k: nat, d: DriverId, id: PlanId, j: nat, t': Trace, i: nat)
    requires IsTrace(t) && k < |t.states| && IsAboutToSpend(t.states[k], d, id, j) && Continues(t', t, k)
    requires k <= i < |t'.actions| && Sends(t'.states[i], t'.actions[i], id, j)
    requires MustDrawItsInput(Legs(t.states[k].cases[id])[j].call, t.states[k].drivers[d].at.carry, t.states[k].cases[id].truth.params)
    ensures DrawnBy(t'.states[i], t'.actions[i], id, j) == HandedTo(t'.states[i], t'.actions[i], id, j)
  {
    assert t'.states[k] == t'.states[..k+1][k] == t.states[..k+1][k];
    TraceStep(t', i);
    var s, a := t'.states[i], t'.actions[i];
    assert DriverOk(s, a.d);
    SendOrder(s, a, id, j);
    SendInput(s, a, id, j);
    RunnerInput(t', k, d, id, j);
    InputStays(t', k, i, id, j);
    RunGrows(t', k, i, id);
    MustDrawItsInputWhen(Legs(s.cases[id])[j].call, HandedTo(s, a, id, j), s.cases[id].truth.params);
  }

  lemma RunnerInput(t: Trace, k: nat, d: DriverId, id: PlanId, j: nat)
    requires IsTrace(t) && k < |t.states| && IsAboutToSpend(t.states[k], d, id, j)
    ensures
      var s := t.states[k];
      j == s.cases[id].truth.currentLegIndex && s.drivers[d].at.carry == InputOf(s.cases[id].truth, j) > 0
  {
    EveryStateIsInvariant(t, k);
    assert DriverOk(t.states[k], d);
    InputStays(t, k, k, id, t.states[k].cases[id].truth.currentLegIndex);
  }

  // However a run goes on, a leg about to be executed draws exactly what it was handed, if and
  // only if it is a peg-out, a shift or stablecoin lockup of a single unit, or a lightning
  // payment that cannot be sent at all. A swap draws what its accepted transaction pays out and
  // a lightning payment what its lockup asks for, whatever they were handed.
  lemma DrawsWhatItWasHandedWhen(t: Trace, k: nat, d: DriverId, id: PlanId, j: nat)
    requires IsTrace(t) && k < |t.states| && IsAboutToSpend(t.states[k], d, id, j)
    ensures
      var s := t.states[k];
      AlwaysDrawsItsInput(t, k, id, j) <==>
        MustDrawItsInput(Legs(s.cases[id])[j].call, s.drivers[d].at.carry, s.cases[id].truth.params)
  {
    var s := t.states[k];
    var m, handed, params := Legs(s.cases[id])[j].call, s.drivers[d].at.carry, s.cases[id].truth.params;
    if MustDrawItsInput(m, handed, params) {
      forall t': Trace, i: nat | Continues(t', t, k) && k <= i < |t'.actions| && Sends(t'.states[i], t'.actions[i], id, j)
        ensures DrawnBy(t'.states[i], t'.actions[i], id, j) == HandedTo(t'.states[i], t'.actions[i], id, j)
      {
        MustDraw(t, k, d, id, j, t', i);
      }
    } else {
      RunnerInput(t, k, d, id, j);
      MustDrawItsInputWhen(m, handed, params);
      var t' := MaySend(t, k, d, id, j, OtherOrder(m, handed));
      assert Continues(t', t, k) && Sends(t'.states[k+2], t'.actions[k+2], id, j);
    }
  }

  // However a run goes on, what a leg about to be executed draws is covered by the value it is
  // enforced and recorded at, if and only if it is not a swap.
  lemma DrawsNoMoreThanValuedWhen(t: Trace, k: nat, d: DriverId, id: PlanId, j: nat)
    requires IsTrace(t) && k < |t.states| && IsAboutToSpend(t.states[k], d, id, j)
    ensures AlwaysCovered(t, k, id, j) <==> Legs(t.states[k].cases[id])[j].call != Swap
  {
    var s := t.states[k];
    if Legs(s.cases[id])[j].call != Swap {
      forall t': Trace, i: nat | Continues(t', t, k) && k <= i < |t'.actions| && Sends(t'.states[i], t'.actions[i], id, j)
        ensures DrawnBy(t'.states[i], t'.actions[i], id, j) <= ValuedAt(t'.states[i], t'.actions[i], id, j)
      {
        assert t'.states[k] == t'.states[..k+1][k] == t.states[..k+1][k];
        RunGrows(t', k, i, id);
        DrawsWithinItsValue(t', i, id, j);
      }
    } else {
      var t' := MaySend(t, k, d, id, j, Order(1, 1 + SWAP_OUTFLOW_SLACK));
      assert Continues(t', t, k) && Sends(t'.states[k+2], t'.actions[k+2], id, j);
    }
  }

  lemma InputStays(t: Trace, i: nat, k: nat, id: PlanId, j: nat)
    requires IsTrace(t) && i <= k < |t.states| && id in t.states[i].cases && j == t.states[i].cases[id].truth.currentLegIndex
    ensures id in t.states[k].cases
    ensures
      var carry, plan := InputOf(t.states[i].cases[id].truth, j), t.states[k].cases[id].truth;
      && carry > 0
      && (j == 0 ==> carry == plan.amountSats)
      && (j > 0 ==> IsSettled(At(plan.legResults, j - 1)) && At(plan.legResults, j - 1).value.receivedSats == Some(carry))
  {
    EveryStateIsInvariant(t, i);
    CurrentInput(t.states[i].cases[id], t.states[i].shifts);
    RunGrows(t, i, k, id);
  }

  lemma CurrentInput(c: Case, shifts: Shifts)
    requires CaseOk(c, shifts)
    ensures
      var j := c.truth.currentLegIndex;
      && j < |Legs(c)| && InputOf(c.truth, j) > 0
      && (if j == 0 then InputOf(c.truth, j) == c.truth.amountSats
          else IsSettled(At(c.truth.legResults, j - 1)) && At(c.truth.legResults, j - 1).value.receivedSats == Some(InputOf(c.truth, j)))
  {
    var j := c.truth.currentLegIndex;
    if j > 0 { assert SettledPositive(At(c.truth.legResults, j - 1)); }
  }

  // The route, the amount and the parameters are the intent's.
  lemma PlanIsTheIntent(t: Trace, m: nat, k: nat, id: PlanId)
    requires IsTrace(t) && m < k < |t.states| && t.actions[m].Convert? && t.actions[m].id == id
    ensures id in t.states[k].cases
    ensures
      var plan, intent := t.states[k].cases[id].truth, t.actions[m];
      plan.route == intent.route && plan.amountSats == intent.amountSats && plan.params == intent.params
  {
    RunGrows(t, m + 1, k, id);
  }

  // ----- the value is counted -------------------------------------------------------------------------

  lemma MoveLeavesOthers(s: State, a: Action, id: PlanId)
    requires a.Move? && CanAct(s, a) && id in Act(s, a).cases && id != s.drivers[a.d].plan
    ensures id in s.cases && Act(s, a).cases[id] == s.cases[id]
  {
    MoveFrame(s, a);
  }

  lemma UnsentTally(s: State, a: Action, id: PlanId, j: nat)
    requires a.Move? && CanAct(s, a) && id == s.drivers[a.d].plan && j < |s.cases[id].tally|
    requires !Sends(s, a, id, j)
    ensures id in Act(s, a).cases && |Act(s, a).cases[id].tally| == |s.cases[id].tally|
    ensures Act(s, a).cases[id].tally[j].moves == s.cases[id].tally[j].moves
    ensures Act(s, a).cases[id].tally[j].counted == s.cases[id].tally[j].counted
  {
    MoveFrame(s, a);
    StepTally(s.cases[id], a.d, s.drivers[a.d].at, a.choice, s.shifts, j);
  }

  lemma TallyLength(s: State, a: Action, id: PlanId)
    requires a.Move? && CanAct(s, a) && id == s.drivers[a.d].plan
    ensures id in Act(s, a).cases && |Act(s, a).cases[id].tally| == |s.cases[id].tally|
  {
    MoveFrame(s, a);
    if |s.cases[id].tally| > 0 { StepTally(s.cases[id], a.d, s.drivers[a.d].at, a.choice, s.shifts, 0); }
  }

  lemma OtherActionsTally(s: State, a: Action, id: PlanId, j: nat)
    requires !a.Move? && CanAct(s, a) && id in Act(s, a).cases && j < |Act(s, a).cases[id].tally|
    requires Act(s, a).cases[id].tally[j].moves > 0
    ensures id in s.cases && s.cases[id].tally == Act(s, a).cases[id].tally
  {
  }

  lemma NotCreatedMoved(s: State, a: Action, id: PlanId, j: nat)
    requires CanAct(s, a) && id in Act(s, a).cases && j < |Act(s, a).cases[id].tally|
    requires Act(s, a).cases[id].tally[j].moves > 0 && !Sends(s, a, id, j)
    ensures id in s.cases && |s.cases[id].tally| == |Act(s, a).cases[id].tally|
    ensures s.cases[id].tally[j].moves > 0 && s.cases[id].tally[j].counted == Act(s, a).cases[id].tally[j].counted
  {
    if !a.Move? {
      OtherActionsTally(s, a, id, j);
    } else if s.drivers[a.d].plan == id {
      TallyLength(s, a, id);
      UnsentTally(s, a, id, j);
    } else {
      MoveLeavesOthers(s, a, id);
    }
  }

  lemma SentOrMovedBefore(s: State, a: Action, s': State, id: PlanId, j: nat)
    requires Inv(s) && CanAct(s, a) && s' == Act(s, a) && id in s'.cases && j < |s'.cases[id].tally|
    requires s'.cases[id].tally[j].moves > 0
    ensures Sends(s, a, id, j) ==> s'.cases[id].tally[j].counted == SendsCounted(s, a, id, j)
    ensures !Sends(s, a, id, j) ==>
      && id in s.cases && |s.cases[id].tally| == |s'.cases[id].tally|
      && s.cases[id].tally[j].moves > 0 && s.cases[id].tally[j].counted == s'.cases[id].tally[j].counted
  {
    if Sends(s, a, id, j) { SendMoves(s, a, id, j); } else { NotCreatedMoved(s, a, id, j); }
  }

  predicate Moved(s: State, id: PlanId, j: nat, counted: bool) {
    id in s.cases && j < |s.cases[id].tally| && s.cases[id].tally[j].moves > 0 && s.cases[id].tally[j].counted == counted
  }

  // The execution behind a leg's history.
  lemma {:induction false} MovedWasSent(t: Trace, k: nat, id: PlanId, j: nat, counted: bool) returns (m: nat)
    requires IsTrace(t) && k < |t.states| && Moved(t.states[k], id, j, counted)
    ensures m < k && Sends(t.states[m], t.actions[m], id, j) && counted == SendsCounted(t.states[m], t.actions[m], id, j)
  {
    assert !Moved(INITIAL, id, j, counted);
    var n: nat := k - 1;
    TraceStep(t, n);
    SentOrMovedBefore(t.states[n], t.actions[n], t.states[k], id, j);
    if Sends(t.states[n], t.actions[n], id, j) {
      m := n;
    } else {
      m := MovedWasSent(t, n, id, j, counted);
    }
  }

  lemma SkipMeansHere(s: State, a: Action, id: PlanId, j: nat)
    requires Inv(s) && Skips(s, a, id, j)
    ensures id in s.cases && j < |Legs(s.cases[id])| && IsSealed(s.cases[id].slot) && IsHookRouted(Legs(s.cases[id])[j].call)
    ensures FirstValueLegIndex(Legs(s.cases[id])) < j == s.cases[id].truth.currentLegIndex
    ensures CaseOk(s.cases[id], s.shifts)
  {
    assert DriverOk(s, a.d);
    SkipMeans(s.cases[id], j, s.shifts);
  }

  lemma FirstLegCounted(c: Case, shifts: Shifts)
    requires CaseOk(c, shifts) && FirstValueLegIndex(Legs(c)) < c.truth.currentLegIndex
    ensures
      var first := FirstValueLegIndex(Legs(c));
      first < |c.tally| && SettledPositive(At(c.truth.legResults, first)) && c.tally[first].moves == 1 && c.tally[first].counted
  {
    var first := FirstValueLegIndex(Legs(c));
    FirstValueLegOfRoute(Legs(c));
    TallyLeg(c.truth, c.tally, first, c.tampered, shifts);
  }

  // The value ceilings are skipped only for a hook-routed leg strictly past the first value
  // leg of an authentic stored plan, and only after that first value leg was enforced against
  // the ceilings, recorded, sent and stored settled: no plan is counted zero times.
  lemma SkippedOnlyAfterCounted(t: Trace, i: nat, id: PlanId, j: nat)
    requires IsTrace(t) && i < |t.actions| && Skips(t.states[i], t.actions[i], id, j)
    ensures id in t.states[i].cases && IsSealed(t.states[i].cases[id].slot)
    ensures
      var plan := t.states[i].cases[id].slot.value.record;
      var first := FirstValueLegIndex(plan.route.legs);
      && first < j < |plan.route.legs|
      && (plan.route.legs[j].call == Swap || plan.route.legs[j].call == PegOut || plan.route.legs[j].call == Send)
      && SettledPositive(At(plan.legResults, first))
      && exists m :: 0 <= m < i && SendsCounted(t.states[m], t.actions[m], id, first)
  {
    EveryStateIsInvariant(t, i);
    SkipMeansHere(t.states[i], t.actions[i], id, j);
    var c := t.states[i].cases[id];
    FirstLegCounted(c, t.states[i].shifts);
    var m := MovedWasSent(t, i, id, FirstValueLegIndex(Legs(c)), true);
    assert SendsCounted(t.states[m], t.actions[m], id, FirstValueLegIndex(Legs(c)));
  }

  // Whether leg j of a plan was ever sent and counted in full.
  ghost predicate WasCounted(t: Trace, k: nat, id: PlanId, j: nat)
    requires IsTrace(t) && k < |t.states|
  {
    exists m :: 0 <= m < k && SendsCounted(t.states[m], t.actions[m], id, j)
  }

  lemma CountedIsTallied(t: Trace, k: nat, id: PlanId, j: nat)
    requires IsTrace(t) && k < |t.states| && id in t.states[k].cases && j < |t.states[k].cases[id].tally|
    ensures WasCounted(t, k, id, j) <==> t.states[k].cases[id].tally[j].moves == 1 && t.states[k].cases[id].tally[j].counted
  {
    EveryStateIsInvariant(t, k);
    var c := t.states[k].cases[id];
    TallyLeg(c.truth, c.tally, j, c.tampered, t.states[k].shifts);
    if c.tally[j].moves == 1 {
      var m := MovedWasSent(t, k, id, j, c.tally[j].counted);
      forall n | 0 <= n < k && SendsCounted(t.states[n], t.actions[n], id, j) ensures n == m {
        OneExecutionPerLeg(t, n, m, id, j);
      }
    } else {
      forall n | 0 <= n < k ensures !SendsCounted(t.states[n], t.actions[n], id, j) {
        if Sends(t.states[n], t.actions[n], id, j) {
          EveryStateIsInvariant(t, n);
          SendMoves(t.states[n], t.actions[n], id, j);
          RunGrows(t, n + 1, k, id);
          assert false;
        }
      }
    }
  }

  // Which legs of a plan that ran to its last leg were counted.
  lemma CountedLegs(t: Trace, k: nat, id: PlanId, j: nat)
    requires IsTrace(t) && k < |t.states| && id in t.states[k].cases && !t.states[k].cases[id].tampered
    requires var plan := t.states[k].cases[id].truth;
             j < |plan.route.legs| == plan.currentLegIndex + 1 && IsResolved(At(plan.legResults, plan.currentLegIndex))
    ensures
      var legs := Legs(t.states[k].cases[id]);
      var first := FirstValueLegIndex(legs);
      WasCounted(t, k, id, j) <==> (j >= first && (j == first || !IsHookRouted(legs[j].call)))
  {
    EveryStateIsInvariant(t, k);
    var c := t.states[k].cases[id];
    assert CaseOk(c, t.states[k].shifts);
    CountedIsTallied(t, k, id, j);
    CountedTally(c, j, t.states[k].shifts);
  }

  lemma CountedTally(c: Case, j: nat, shifts: Shifts)
    requires CaseOk(c, shifts) && !c.tampered
    requires j < |Legs(c)| == c.truth.currentLegIndex + 1 && IsResolved(At(c.truth.legResults, c.truth.currentLegIndex))
    ensures
      var first := FirstValueLegIndex(Legs(c));
      j < |c.tally| &&
      (c.tally[j].moves == 1 && c.tally[j].counted <==> (j >= first && (j == first || !IsHookRouted(Legs(c)[j].call))))
  {
    FirstValueLegOfRoute(Legs(c));
    TallyLeg(c.truth, c.tally, j, c.tampered, shifts);
    assert j < c.truth.currentLegIndex ==> SettledPositive(At(c.truth.legResults, j));
  }

  lemma MiddleLegsAreHookRouted(legs: seq<Leg>)
    requires HasRouteShape(legs) && |legs| >= 2
    ensures FirstValueLegIndex(legs) < |legs|
    ensures forall j :: FirstValueLegIndex(legs) <= j < |legs| - 1 ==> IsHookRouted(legs[j].call)
  {
    FirstValueLegOfRoute(legs);
  }

  // ----- recorded spends ---------------------------------------------------------------------------------

  // How often, in the first k actions, leg j's spend was recorded, and how often an execution
  // of it failed with its spend recorded and nothing sent.
  ghost function RecordCount(t: Trace, k: nat, id: PlanId, j: nat): nat
    requires IsTrace(t) && k < |t.states|
  {
    if k == 0 then 0 else RecordCount(t, k - 1, id, j) + (if Records(t.states[k-1], t.actions[k-1], id, j) then 1 else 0)
  }

  ghost function WasteCount(t: Trace, k: nat, id: PlanId, j: nat): nat
    requires IsTrace(t) && k < |t.states|
  {
    if k == 0 then 0 else WasteCount(t, k - 1, id, j) + (if Wastes(t.states[k-1], t.actions[k-1], id, j) then 1 else 0)
  }

  lemma {:induction false} NeverWasted(t: Trace, k: nat, id: PlanId, j: nat)
    requires IsTrace(t) && k < |t.states|
    ensures WasteCount(t, k, id, j) == 0 <==> forall m :: 0 <= m < k ==> !Wastes(t.states[m], t.actions[m], id, j)
  {
    if k > 0 { NeverWasted(t, k - 1, id, j); }
  }

  function RecordsOf(s: State, id: PlanId, j: nat): nat {
    if id in s.cases && j < |s.cases[id].tally| then s.cases[id].tally[j].records else 0
  }

  function WastedOf(s: State, id: PlanId, j: nat): nat {
    if id in s.cases && j < |s.cases[id].tally| then s.cases[id].tally[j].wasted else 0
  }

  lemma StepSpends(c: Case, d: DriverId, at: Position, choice: Choice, shifts: Shifts, j: nat)
    requires CanStep(c, at, choice, shifts) && j < |c.tally| == |Legs(c)|
    ensures
      var c' := Step(c, d, at, choice, shifts).0;
      var runs := at.Runs? && at.leg == j;
      && |c'.tally| == |c.tally|
      && c'.tally[j].records
           == c.tally[j].records + (if runs && choice.Goes? && at.phase.Enforced? && !SkipsCeilings(c, j) then 1 else 0)
      && c'.tally[j].wasted
           == c.tally[j].wasted + (if runs && choice == Throws(true) && at.phase.Recorded? && at.phase.recorded then 1 else 0)
  {
  }

  lemma MoveSpends(s: State, a: Action, id: PlanId, j: nat)
    requires a.Move? && CanAct(s, a) && id == s.drivers[a.d].plan
    ensures RecordsOf(Act(s, a), id, j) == RecordsOf(s, id, j) + (if Records(s, a, id, j) then 1 else 0)
    ensures WastedOf(Act(s, a), id, j) == WastedOf(s, id, j) + (if Wastes(s, a, id, j) then 1 else 0)
  {
    MoveFrame(s, a);
    TallyLength(s, a, id);
    if j < |s.cases[id].tally| { StepSpends(s.cases[id], a.d, s.drivers[a.d].at, a.choice, s.shifts, j); }
  }

  lemma OtherSpends(s: State, a: Action, id: PlanId, j: nat)
    requires CanAct(s, a) && !(a.Move? && s.drivers[a.d].plan == id)
    ensures RecordsOf(Act(s, a), id, j) == RecordsOf(s, id, j) && WastedOf(Act(s, a), id, j) == WastedOf(s, id, j)
    ensures !Records(s, a, id, j) && !Wastes(s, a, id, j)
  {
    if a.Move? { MoveFrame(s, a); }
  }

  lemma ActSpends(s: State, a: Action, s': State, id: PlanId, j: nat)
    requires CanAct(s, a) && s' == Act(s, a)
    ensures RecordsOf(s', id, j) == RecordsOf(s, id, j) + (if Records(s, a, id, j) then 1 else 0)
    ensures WastedOf(s', id, j) == WastedOf(s, id, j) + (if Wastes(s, a, id, j) then 1 else 0)
  {
    if a.Move? && s.drivers[a.d].plan == id { MoveSpends(s, a, id, j); } else { OtherSpends(s, a, id, j); }
  }

  // The histories kept of the legs agree with the run.
  lemma {:induction false} SpendsAreTallied(t: Trace, k: nat, id: PlanId, j: nat)
    requires IsTrace(t) && k < |t.states|
    ensures RecordsOf(t.states[k], id, j) == RecordCount(t, k, id, j)
    ensures WastedOf(t.states[k], id, j) == WasteCount(t, k, id, j)
  {
    if k > 0 {
      SpendsAreTallied(t, k - 1, id, j);
      TraceStep(t, k - 1);
      ActSpends(t.states[k-1], t.actions[k-1], t.states[k], id, j);
    }
  }

  lemma CountedSpends(c: Case, j: nat, shifts: Shifts)
    requires CaseOk(c, shifts) && j < |c.tally| && c.tally[j].moves == 1 && c.tally[j].counted
    ensures j < |Legs(c)| && c.tally[j].records == c.tally[j].wasted + 1
    ensures Legs(c)[j].call != PayLightningInvoice && Legs(c)[j].call != ToStablecoin ==> c.tally[j].wasted == 0
  {
    TallyLeg(c.truth, c.tally, j, c.tampered, shifts);
  }

  // A counted leg has its spend recorded exactly once if and only if no execution of it failed
  // between recording and sending; a hook-routed leg never more than once.
  lemma RecordedOnceWhen(t: Trace, k: nat, id: PlanId, j: nat)
    requires IsTrace(t) && k < |t.states| && id in t.states[k].cases && WasCounted(t, k, id, j)
    ensures j < |Legs(t.states[k].cases[id])| && RecordCount(t, k, id, j) == 1 + WasteCount(t, k, id, j)
    ensures RecordCount(t, k, id, j) == 1 <==> forall m :: 0 <= m < k ==> !Wastes(t.states[m], t.actions[m], id, j)
    ensures
      var m := Legs(t.states[k].cases[id])[j].call;
      m != PayLightningInvoice && m != ToStablecoin ==> RecordCount(t, k, id, j) == 1
  {
    EveryStateIsInvariant(t, k);
    var c := t.states[k].cases[id];
    CountedLegExists(t, k, id, j);
    CountedIsTallied(t, k, id, j);
    CountedSpends(c, j, t.states[k].shifts);
    SpendsAreTallied(t, k, id, j);
    NeverWasted(t, k, id, j);
  }

  lemma CountedLegExists(t: Trace, k: nat, id: PlanId, j: nat)
    requires IsTrace(t) && k < |t.states| && id in t.states[k].cases && WasCounted(t, k, id, j)
    ensures j < |t.states[k].cases[id].tally|
  {
    var m :| 0 <= m < k && SendsCounted(t.states[m], t.actions[m], id, j);
    EveryStateIsInvariant(t, m);
    SendMoves(t.states[m], t.actions[m], id, j);
    RunGrows(t, m, k, id);
  }

  // The spends recorded for each leg of a plan that ran to its last leg.
  lemma SpendTally(c: Case, j: nat, shifts: Shifts)
    requires CaseOk(c, shifts) && !c.tampered
    requires j < |Legs(c)| == c.truth.currentLegIndex + 1 && IsResolved(At(c.truth.legResults, c.truth.currentLegIndex))
    ensures
      var first := FirstValueLegIndex(Legs(c));
      && j < |c.tally|
      && c.tally[j].records == c.tally[j].wasted + (if j >= first && (j == first || !IsHookRouted(Legs(c)[j].call)) then 1 else 0)
      && (j < first || IsHookRouted(Legs(c)[j].call) ==> c.tally[j].wasted == 0)
  {
    CountedTally(c, j, shifts);
    FirstValueLegOfRoute(Legs(c));
    TallyLeg(c.truth, c.tally, j, c.tampered, shifts);
    assert j < c.truth.currentLegIndex ==> SettledPositive(At(c.truth.legResults, j));
  }

  lemma RecordedLegs(t: Trace, k: nat, id: PlanId, j: nat)
    requires IsTrace(t) && k < |t.states| && id in t.states[k].cases && !t.states[k].cases[id].tampered
    requires var plan := t.states[k].cases[id].truth;
             j < |plan.route.legs| == plan.currentLegIndex + 1 && IsResolved(At(plan.legResults, plan.currentLegIndex))
    ensures
      var legs := Legs(t.states[k].cases[id]);
      var first := FirstValueLegIndex(legs);
      && RecordCount(t, k, id, j)
           == WasteCount(t, k, id, j) + (if j >= first && (j == first || !IsHookRouted(legs[j].call)) then 1 else 0)
      && (j < first || IsHookRouted(legs[j].call) ==> WasteCount(t, k, id, j) == 0)
  {
    EveryStateIsInvariant(t, k);
    assert CaseOk(t.states[k].cases[id], t.states[k].shifts);
    SpendTally(t.states[k].cases[id], j, t.states[k].shifts);
    SpendsAreTallied(t, k, id, j);
  }

  // Once every leg of an untampered plan has run, its value was recorded once, at its first
  // value leg, and nowhere else, if and only if its last leg is not a Boltz exit, or is that
  // first value leg and no execution of it failed between recording and sending. A Boltz exit
  // after a market swap is counted again.
  lemma CountedExactlyOnceWhen(t: Trace, k: nat, id: PlanId)
    requires IsTrace(t) && k < |t.states| && id in t.states[k].cases && !t.states[k].cases[id].tampered
    requires var plan := t.states[k].cases[id].truth;
             |plan.route.legs| == plan.currentLegIndex + 1 && IsResolved(At(plan.legResults, plan.currentLegIndex))
    ensures
      var legs := Legs(t.states[k].cases[id]);
      var first, last := FirstValueLegIndex(legs), |legs| - 1;
      var boltz := legs[last].call == PayLightningInvoice || legs[last].call == ToStablecoin;
      && first <= last && WasCounted(t, k, id, first)
      && ((forall j: nat :: j < |legs| && WasCounted(t, k, id, j) ==> j == first) <==> (!boltz || first == last))
      && (OnlyFirstRecorded(t, k, id, legs)
          <==> (!boltz || (first == last && forall m :: 0 <= m < k ==> !Wastes(t.states[m], t.actions[m], id, last))))
  {
    RouteOf(t, k, id);
    var legs := Legs(t.states[k].cases[id]);
    MiddleLegsAreHookRouted(legs);
    forall j: nat | j < |legs|
      ensures WasCounted(t, k, id, j) <==>
        (j >= FirstValueLegIndex(legs) && (j == FirstValueLegIndex(legs) || !IsHookRouted(legs[j].call)))
    {
      CountedLegs(t, k, id, j);
    }
    RecordedExactlyOnceWhen(t, k, id);
  }

  ghost predicate OnlyFirstRecorded(t: Trace, k: nat, id: PlanId, legs: seq<Leg>)
    requires IsTrace(t) && k < |t.states|
  {
    forall j: nat :: j < |legs| ==> RecordCount(t, k, id, j) == (if j == FirstValueLegIndex(legs) then 1 else 0)
  }

  lemma RecordedOnceIf(t: Trace, k: nat, id: PlanId, j: nat)
    requires IsTrace(t) && k < |t.states| && id in t.states[k].cases && !t.states[k].cases[id].tampered
    requires var plan := t.states[k].cases[id].truth;
             j < |plan.route.legs| == plan.currentLegIndex + 1 && IsResolved(At(plan.legResults, plan.currentLegIndex))
    requires
      var legs := Legs(t.states[k].cases[id]);
      var last := |legs| - 1;
      IsHookRouted(legs[last].call) || (FirstValueLegIndex(legs) == last && WasteCount(t, k, id, last) == 0)
    ensures RecordCount(t, k, id, j) == (if j == FirstValueLegIndex(Legs(t.states[k].cases[id])) then 1 else 0)
  {
    RouteOf(t, k, id);
    MiddleLegsAreHookRouted(Legs(t.states[k].cases[id]));
    RecordedLegs(t, k, id, j);
  }

  lemma RecordedExactlyOnceWhen(t: Trace, k: nat, id: PlanId)
    requires IsTrace(t) && k < |t.states| && id in t.states[k].cases && !t.states[k].cases[id].tampered
    requires var plan := t.states[k].cases[id].truth;
             |plan.route.legs| == plan.currentLegIndex + 1 && IsResolved(At(plan.legResults, plan.currentLegIndex))
    ensures
      var legs := Legs(t.states[k].cases[id]);
      var first, last := FirstValueLegIndex(legs), |legs| - 1;
      && first <= last
      && (OnlyFirstRecorded(t, k, id, legs)
          <==> (IsHookRouted(legs[last].call)
                || (first == last && forall m :: 0 <= m < k ==> !Wastes(t.states[m], t.actions[m], id, last))))
  {
    RouteOf(t, k, id);
    var legs := Legs(t.states[k].cases[id]);
    var first, last := FirstValueLegIndex(legs), |legs| - 1;
    MiddleLegsAreHookRouted(legs);
    NeverWasted(t, k, id, last);
    RecordedLegs(t, k, id, last);
    if IsHookRouted(legs[last].call) || (first == last && WasteCount(t, k, id, last) == 0) {
      forall j: nat | j < |legs| ensures RecordCount(t, k, id, j) == (if j == first then 1 else 0) {
        RecordedOnceIf(t, k, id, j);
      }
    } else {
      assert RecordCount(t, k, id, last) != (if last == first then 1 else 0);
    }
  }

  lemma RouteOf(t: Trace, k: nat, id: PlanId)
    requires IsTrace(t) && k < |t.states| && id in t.states[k].cases
    ensures HasRouteShape(Legs(t.states[k].cases[id])) && |Legs(t.states[k].cases[id])| >= 2
  {
    EveryStateIsInvariant(t, k);
    assert CaseOk(t.states[k].cases[id], t.states[k].shifts);
  }

  // ----- the record is kept ------------------------------------------------------------------------------

  // The record is in the store, unaltered unless it was tampered with; or it was discarded for
  // failing authentication; or the final leg was executed, its outcome stored, and it settled,
  // came back undelivered or was concluded by its provider.
  ghost predicate KeptOrFinished(c: Case) {
    var last := |Legs(c)| - 1;
    if c.slot.Some? then !c.tampered ==> c.slot == Some(Sealed(c.truth))
    else
      && c.closed.Some? && last >= 0 && |c.tally| == |Legs(c)|
      && match c.closed.value
         case Discarded => c.tampered
         case FirstLegThrew => false
         case FinalLegSettled => IsSettled(At(c.truth.legResults, last)) && c.tally[last].moves == 1
         case NotDelivered(leg) => leg == last && IsResolved(At(c.truth.legResults, last)) && c.tally[last].moves == 1
         case Concluded(leg) => leg == last && IsResolved(At(c.truth.legResults, last)) && c.tally[last].moves == 1
  }

  // From the moment a non-final leg is stored settled, the record stays in the store through
  // every crash, throw, park and resume. It leaves only once the final leg settled, came back
  // undelivered or was concluded by its provider - in each case after the final leg was
  // started and its outcome stored - or after it failed authentication.
  lemma RecordIsKept(t: Trace, i: nat, k: nat, id: PlanId, j: nat)
    requires IsTrace(t) && i <= k < |t.states| && id in t.states[i].cases && IsSealed(t.states[i].cases[id].slot)
    requires
      var plan := t.states[i].cases[id].slot.value.record;
      j < |plan.route.legs| - 1 && IsSettled(At(plan.legResults, j))
    ensures id in t.states[k].cases
    ensures KeptOrFinished(t.states[k].cases[id]) && IsSettled(At(t.states[k].cases[id].truth.legResults, j))
  {
    EveryStateIsInvariant(t, i);
    EveryStateIsInvariant(t, k);
    RunGrows(t, i, k, id);
    assert CaseOk(t.states[i].cases[id], t.states[i].shifts);
    KeptCase(t.states[k].cases[id], j, t.states[k].shifts);
  }

  lemma KeptCase(c: Case, j: nat, shifts: Shifts)
    requires CaseOk(c, shifts) && j < |Legs(c)| - 1 && IsSettled(At(c.truth.legResults, j))
    ensures KeptOrFinished(c)
  {
    TallyLeg(c.truth, c.tally, 0, c.tampered, shifts);
    TallyLeg(c.truth, c.tally, j, c.tampered, shifts);
    TallyLeg(c.truth, c.tally, |Legs(c)| - 1, c.tampered, shifts);
  }

  // A record is never removed while a leg of its plan executes, except by the first leg's own
  // failure on the direct path or because it failed authentication.
  lemma NotRemovedWhileExecuting(t: Trace, i: nat, id: PlanId)
    requires IsTrace(t) && i < |t.actions| && id in t.states[i].cases && id in t.states[i+1].cases
    requires t.states[i].cases[id].slot.Some? && t.states[i+1].cases[id].slot.None?
    ensures
      var c, why := t.states[i].cases[id], t.states[i+1].cases[id].closed;
      why.Some? && (c.owner.None? || why.value == FirstLegThrew || why.value == Discarded)
  {
    EveryStateIsInvariant(t, i);
    EveryStateIsInvariant(t, i + 1);
    var c, c' := t.states[i].cases[id], t.states[i+1].cases[id];
    assert CaseOk(c, t.states[i].shifts) && CaseOk(c', t.states[i+1].shifts);
    if c.owner.Some? && c'.closed.value != FirstLegThrew && c'.closed.value != Discarded {
      RemovalLeavesTruth(t.states[i], t.actions[i], id);
      assert At(c.truth.legResults, c.truth.currentLegIndex) == Some(CLAIMED);
      NoOwnerWhenRemovable(c', c'.closed.value, t.states[i+1].shifts);
      assert false;
    }
  }

  lemma OtherRemovalLeavesTruth(s: State, a: Action, id: PlanId)
    requires !a.Move? && CanAct(s, a) && id in s.cases && s.cases[id].slot.Some?
    requires id in Act(s, a).cases && Act(s, a).cases[id].slot.None?
    ensures Act(s, a).cases[id].truth == s.cases[id].truth
  {
  }

  lemma RemovalLeavesTruth(s: State, a: Action, id: PlanId)
    requires Inv(s) && CanAct(s, a) && id in s.cases && s.cases[id].slot.Some?
    requires id in Act(s, a).cases && Act(s, a).cases[id].slot.None?
    ensures Act(s, a).cases[id].truth == s.cases[id].truth
  {
    if !a.Move? {
      OtherRemovalLeavesTruth(s, a, id);
    } else {
      MoveFrame(s, a);
      if s.drivers[a.d].plan == id {
        StepRemoval(s.cases[id], a.d, s.drivers[a.d].at, a.choice, s.shifts);
      }
    }
  }

  lemma StepRemoval(c: Case, d: DriverId, at: Position, choice: Choice, shifts: Shifts)
    requires CanStep(c, at, choice, shifts) && |c.tally| == |Legs(c)| && c.slot.Some?
    requires Step(c, d, at, choice, shifts).0.slot.None?
    ensures Step(c, d, at, choice, shifts).0.truth == c.truth
  {
  }

  // ----- a crashed plan resumes --------------------------------------------------------------------------

  // A plan waiting between two legs, or before its first: not parked, its current leg unstarted,
  // or settled with the amount the next leg needs.
  predicate IsBetweenLegs(plan: Plan) {
    && plan.state != NeedsReview && plan.currentLegIndex < |plan.route.legs|
    && var current := At(plan.legResults, plan.currentLegIndex);
       current.None? || (plan.currentLegIndex < |plan.route.legs| - 1 && SettledPositive(current))
  }

  // The leg it waits for.
  function NextLeg(plan: Plan): nat {
    if At(plan.legResults, plan.currentLegIndex).None? then plan.currentLegIndex else plan.currentLegIndex + 1
  }

  // Three actions of one recovery pass: read the snapshot, decide, claim.
  ghost predicate ResumesIn(s: State, d: DriverId, id: PlanId, s': State) {
    && CanAct(s, ReadPlan(d, id))
    && var s1 := Act(s, ReadPlan(d, id));
       CanAct(s1, Move(d, Goes))
       && var s2 := Act(s1, Move(d, Goes));
          CanAct(s2, Move(d, Goes)) && s' == Act(s2, Move(d, Goes))
  }

  lemma BetweenLegsDecision(plan: Plan)
    requires WellFormed(plan) && IsBetweenLegs(plan)
    ensures NextLeg(plan) < |plan.route.legs| && InputOf(plan, NextLeg(plan)) > 0
    ensures ResumeDecision(plan) == Drive(NextLeg(plan), InputOf(plan, NextLeg(plan)))
    ensures At(plan.legResults, NextLeg(plan)).None?
  {
    var i := plan.currentLegIndex;
    assert i > 0 ==> SettledPositive(At(plan.legResults, i - 1));
  }

  lemma BetweenLegsSteps(c: Case, d: DriverId, shifts: Shifts)
    requires IsSealed(c.slot) && c.slot.value.record == c.truth && |c.tally| == |Legs(c)|
    requires WellFormed(c.truth) && IsBetweenLegs(c.truth)
    ensures
      var leg := NextLeg(c.truth);
      var carry := InputOf(c.truth, leg);
      && Step(c, d, HasSnapshot(c.truth), Goes, shifts) == (c, WillClaim(leg, carry, true))
      && Step(c, d, WillClaim(leg, carry, true), Goes, shifts).1 == Runs(leg, carry, true, Started)
      && Step(c, d, WillClaim(leg, carry, true), Goes, shifts).0.owner == Some(d)
  {
    BetweenLegsDecision(c.truth);
  }

  lemma ReadOnly(s: State, d: DriverId, id: PlanId) returns (s': State)
    requires d !in s.drivers && id in s.cases && IsSealed(s.cases[id].slot)
    ensures CanAct(s, ReadPlan(d, id)) && s' == Act(s, ReadPlan(d, id))
    ensures s'.cases == s.cases && s'.shifts == s.shifts
    ensures d in s'.drivers && s'.drivers[d] == Driver(id, HasSnapshot(s.cases[id].slot.value.record))
  {
    s' := Act(s, ReadPlan(d, id));
  }

  lemma MoveOnly(s: State, d: DriverId, id: PlanId, choice: Choice) returns (s': State)
    requires d in s.drivers && s.drivers[d].plan == id && id in s.cases && |s.cases[id].tally| == |Legs(s.cases[id])|
    requires CanStep(s.cases[id], s.drivers[d].at, choice, s.shifts)
    ensures CanAct(s, Move(d, choice)) && s' == Act(s, Move(d, choice)) && s'.shifts == s.shifts
    ensures id in s'.cases && d in s'.drivers && s'.drivers[d].plan == id
    ensures (s'.cases[id], s'.drivers[d].at) == Step(s.cases[id], d, s.drivers[d].at, choice, s.shifts)
  {
    s' := Act(s, Move(d, choice));
    MoveFrame(s, Move(d, choice));
  }

  // From any reachable state, after any crash, a single recovery pass that is left alone takes
  // up a plan that waits between legs: it executes the next leg, with the stored output of the
  // one before as its input. No such plan is stuck.
  lemma PlanResumes(t: Trace, k: nat, d: DriverId, id: PlanId) returns (s': State)
    requires IsTrace(t) && k < |t.states| && d !in t.states[k].drivers && id in t.states[k].cases
    requires IsSealed(t.states[k].cases[id].slot) && IsBetweenLegs(t.states[k].cases[id].slot.value.record)
    ensures ResumesIn(t.states[k], d, id, s')
    ensures
      var plan := t.states[k].cases[id].slot.value.record;
      && d in s'.drivers && s'.drivers[d] == Driver(id, Runs(NextLeg(plan), InputOf(plan, NextLeg(plan)), true, Started))
      && InputOf(plan, NextLeg(plan)) > 0 && id in s'.cases && s'.cases[id].owner == Some(d)
  {
    EveryStateIsInvariant(t, k);
    var s := t.states[k];
    var c := s.cases[id];
    assert CaseOk(c, s.shifts);
    BetweenLegsDecision(c.truth);
    BetweenLegsSteps(c, d, s.shifts);
    var s1 := ReadOnly(s, d, id);
    var s2 := MoveOnly(s1, d, id, Goes);
    s' := MoveOnly(s2, d, id, Goes);
  }
}
