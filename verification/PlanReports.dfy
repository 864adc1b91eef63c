// Where everything the store says about a leg comes from: no leg is stored, settled or given up
// on without an executor that returned so or a provider that answered so.
module PlanReports {
  import opened Options
  import opened Routes
  import opened Envelopes
  import opened PlanStore
  import opened Multihop
  import opened PlanMachine
  import opened PlanInvariant
  import opened PlanSafety
  import opened PlanTheorems

  // ----- what executors and providers say ------------------------------------------------------------

  // The executor of leg j of the plan returns this.
  predicate ReturnsOutcome(s: State, a: Action, id: PlanId, j: nat, o: Outcome) {
    && a.Move? && CanAct(s, a) && s.drivers[a.d].plan == id && a.choice == Returns(o)
    && s.drivers[a.d].at.Runs? && s.drivers[a.d].at.leg == j
  }

  // A recovery pass asks the provider about leg j of the plan and gets this answer.
  predicate AnswersAbout(s: State, a: Action, id: PlanId, j: nat, answer: Answer) {
    && a.Move? && CanAct(s, a) && s.drivers[a.d].plan == id && a.choice == Answered(answer)
    && s.drivers[a.d].at.WillProbe? && s.drivers[a.d].at.record.currentLegIndex == j
  }

  // The provider delivered, with this amount if it tells.
  predicate SaysDelivered(answer: Answer, amount: Option<int>) {
    match answer
    case Shift(terminal, delivered, settleAmount) => terminal && delivered && amount == settleAmount
    case Peg(done) => done && amount.None?
    case BoltzSwap(swap) => (swap == Some(BoltzSettled) || swap == Some(BoltzPaid)) && amount.None?
    case NoBoltzProbe => false
  }

  // The provider ended its side without delivering.
  predicate SaysUndelivered(answer: Answer) {
    match answer
    case Shift(terminal, delivered, _) => terminal && !delivered
    case Peg(_) => false
    case BoltzSwap(swap) => swap == None || swap == Some(BoltzRefunded) || swap == Some(BoltzFailed)
    case NoBoltzProbe => false
  }

  // What the two kinds of probe findings rest on.
  lemma ProbeFinds(m: Method, result: LegResult, answer: Answer)
    requires Answers(m, answer)
    ensures
      var probe := ProbeLeg(m, result, answer);
      && (probe.ProbeSettled? ==> SaysDelivered(answer, probe.receivedSats))
      && (probe.ProbeConcluded? ==> SaysUndelivered(answer))
  {
  }

  // ----- where a driver's position comes from ----------------------------------------------------------

  predicate StandsAt(s: State, d: DriverId, id: PlanId, at: Position) {
    d in s.drivers && s.drivers[d] == Driver(id, at)
  }

  lemma StandsBefore(s: State, a: Action, d: DriverId, id: PlanId, at: Position)
    requires CanAct(s, a) && StandsAt(Act(s, a), d, id, at) && !(a.Move? && a.d == d)
    requires !at.WillClaim? && !at.HasSnapshot?
    ensures StandsAt(s, d, id, at)
  {
  }

  lemma ReturnedStep(c: Case, d: DriverId, at: Position, choice: Choice, shifts: Shifts)
    requires CanStep(c, at, choice, shifts) && |c.tally| == |Legs(c)|
    requires Step(c, d, at, choice, shifts).1.Returned?
    ensures
      var at' := Step(c, d, at, choice, shifts).1;
      at.Runs? && at.leg == at'.leg && choice == Returns(at'.outcome)
  {
  }

  // A driver with an outcome in hand got it from the executor.
  lemma {:induction false} OutcomeCameFrom(t: Trace, k: nat, d: DriverId, id: PlanId, leg: nat, resumed: bool, o: Outcome) returns (m: nat)
    requires IsTrace(t) && k < |t.states| && StandsAt(t.states[k], d, id, Returned(leg, resumed, o))
    ensures m < k && ReturnsOutcome(t.states[m], t.actions[m], id, leg, o)
  {
    assert k > 0;
    var n: nat := k - 1;
    var s, a := t.states[n], t.actions[n];
    TraceStep(t, n);
    if a.Move? && a.d == d {
      MoveIsStep(s, a);
      ReturnedStep(s.cases[s.drivers[d].plan], d, s.drivers[d].at, a.choice, s.shifts);
      m := n;
    } else {
      StandsBefore(s, a, d, id, Returned(leg, resumed, o));
      m := OutcomeCameFrom(t, n, d, id, leg, resumed, o);
    }
  }

  lemma SettleStep(c: Case, d: DriverId, at: Position, choice: Choice, shifts: Shifts)
    requires CanStep(c, at, choice, shifts) && |c.tally| == |Legs(c)|
    requires Step(c, d, at, choice, shifts).1.WillSettle?
    ensures
      var at' := Step(c, d, at, choice, shifts).1;
      at.WillProbe? && at.record == at'.record && choice.Answered? && SaysDelivered(choice.answer, at'.amount)
  {
    if at.WillProbe? {
      var i := at.record.currentLegIndex;
      ProbeFinds(at.record.route.legs[i].call, At(at.record.legResults, i).value, choice.answer);
    }
  }

  // A driver about to store a leg settled was told so.
  lemma {:induction false} SettlementCameFrom(t: Trace, k: nat, d: DriverId, id: PlanId, record: Plan, amount: Option<int>)
    returns (m: nat, answer: Answer)
    requires IsTrace(t) && k < |t.states| && StandsAt(t.states[k], d, id, WillSettle(record, amount))
    ensures m < k && AnswersAbout(t.states[m], t.actions[m], id, record.currentLegIndex, answer) && SaysDelivered(answer, amount)
  {
    assert k > 0;
    var n: nat := k - 1;
    var s, a := t.states[n], t.actions[n];
    TraceStep(t, n);
    if a.Move? && a.d == d {
      MoveIsStep(s, a);
      SettleStep(s.cases[s.drivers[d].plan], d, s.drivers[d].at, a.choice, s.shifts);
      m, answer := n, a.choice.answer;
    } else {
      StandsBefore(s, a, d, id, WillSettle(record, amount));
      m, answer := SettlementCameFrom(t, n, d, id, record, amount);
    }
  }

  // ----- what is stored of a leg -----------------------------------------------------------------------

  lemma OtherTruth(s: State, a: Action, id: PlanId)
    requires CanAct(s, a) && id in Act(s, a).cases && !(a.Move? && s.drivers[a.d].plan == id)
    ensures id in s.cases ==> Act(s, a).cases[id].truth == s.cases[id].truth
    ensures id !in s.cases ==> forall j: nat :: At(Act(s, a).cases[id].truth.legResults, j) == None
  {
    if a.Move? { MoveFrame(s, a); }
  }

  // A step stores an outcome of a leg for the first time only with what its executor returned.
  lemma StepStores(c: Case, d: DriverId, at: Position, choice: Choice, shifts: Shifts, j: nat)
    requires CaseOk(c, shifts) && PositionOk(c, d, at, shifts) && CanStep(c, at, choice, shifts) && j < |Legs(c)|
    requires !IsResolved(At(c.truth.legResults, j)) && IsResolved(At(Step(c, d, at, choice, shifts).0.truth.legResults, j))
    ensures at.Returned? && at.leg == j
    ensures
      var stored := At(Step(c, d, at, choice, shifts).0.truth.legResults, j).value;
      && stored.trackingId == at.outcome.trackingId && stored.txids == at.outcome.txids
      && (stored.state == LegSettled <==> at.outcome.status == Settled)
      && (stored.state == LegSettled ==> stored.receivedSats == at.outcome.receivedSats)
  {
    if at.WillSettle? { SettleIsExpected(at.record, c, at.amount, shifts); }
  }

  predicate HasResolved(s: State, id: PlanId, j: nat) {
    id in s.cases && j < |Legs(s.cases[id])| && IsResolved(At(s.cases[id].truth.legResults, j))
  }

  function StoredOf(s: State, id: PlanId, j: nat): LegResult
    requires HasResolved(s, id, j)
  {
    At(s.cases[id].truth.legResults, j).value
  }

  lemma ResolvedKeepsItsId(c: Case, c': Case, d: DriverId, j: nat, shifts: Shifts)
    requires SeenByOthers(c, c', d, shifts) && j < |Legs(c)| && IsResolved(At(c.truth.legResults, j))
    ensures
      var was, now := At(c.truth.legResults, j), At(c'.truth.legResults, j);
      IsResolved(now) && now.value.trackingId == was.value.trackingId && now.value.txids == was.value.txids
  {
    assert LaterResult(Legs(c)[j].call, At(c.truth.legResults, j), At(c'.truth.legResults, j), shifts);
  }

  lemma MoveStores(s: State, a: Action, id: PlanId, j: nat)
    requires Inv(s) && a.Move? && CanAct(s, a) && s.drivers[a.d].plan == id && HasResolved(Act(s, a), id, j)
    ensures !HasResolved(s, id, j) ==>
      && s.drivers[a.d].at.Returned? && s.drivers[a.d].at.leg == j
      && var o, stored := s.drivers[a.d].at.outcome, StoredOf(Act(s, a), id, j);
         && stored.trackingId == o.trackingId && stored.txids == o.txids
         && (stored.state == LegSettled <==> o.status == Settled)
         && (stored.state == LegSettled ==> stored.receivedSats == o.receivedSats)
    ensures HasResolved(s, id, j) ==>
      && StoredOf(Act(s, a), id, j).trackingId == StoredOf(s, id, j).trackingId
      && StoredOf(Act(s, a), id, j).txids == StoredOf(s, id, j).txids
  {
    assert DriverOk(s, a.d);
    MoveFrame(s, a);
    MoveIsStep(s, a);
    if HasResolved(s, id, j) {
      ResolvedKeepsItsId(s.cases[id], Act(s, a).cases[id], a.d, j, s.shifts);
    } else {
      StepStores(s.cases[id], a.d, s.drivers[a.d].at, a.choice, s.shifts, j);
    }
  }

  // In every reachable state, whatever is stored of a leg that is not in execution carries the
  // provider's id and the transactions of an earlier outcome of that leg's executor.
  lemma {:induction false} StoredWasReturned(t: Trace, k: nat, id: PlanId, j: nat) returns (m: nat, o: Outcome)
    requires IsTrace(t) && k < |t.states| && HasResolved(t.states[k], id, j)
    ensures m < k && ReturnsOutcome(t.states[m], t.actions[m], id, j, o)
    ensures StoredOf(t.states[k], id, j).trackingId == o.trackingId && StoredOf(t.states[k], id, j).txids == o.txids
  {
    assert k > 0;
    var n: nat := k - 1;
    var s, a := t.states[n], t.actions[n];
    TraceStep(t, n);
    if a.Move? && s.drivers[a.d].plan == id {
      MoveStores(s, a, id, j);
      if HasResolved(s, id, j) {
        m, o := StoredWasReturned(t, n, id, j);
      } else {
        var at := s.drivers[a.d].at;
        o := at.outcome;
        m := OutcomeCameFrom(t, n, a.d, id, j, at.resumed, o);
      }
    } else {
      OtherTruth(s, a, id);
      m, o := StoredWasReturned(t, n, id, j);
    }
  }

  // ----- what settles a leg ----------------------------------------------------------------------------

  // The leg settled with this amount: its executor returned so, or its provider answered so.
  predicate ReportsSettled(s: State, a: Action, id: PlanId, j: nat, amount: Option<int>) {
    && a.Move?
    && match a.choice
       case Returns(o) => ReturnsOutcome(s, a, id, j, o) && o.status == Settled && o.receivedSats == amount
       case Answered(answer) => AnswersAbout(s, a, id, j, answer) && SaysDelivered(answer, amount)
       case _ => false
  }

  predicate HasSettled(s: State, id: PlanId, j: nat, amount: Option<int>) {
    HasResolved(s, id, j) && StoredOf(s, id, j).state == LegSettled && StoredOf(s, id, j).receivedSats == amount
  }

  lemma StepSettles(c: Case, d: DriverId, at: Position, choice: Choice, shifts: Shifts, j: nat)
    requires CaseOk(c, shifts) && PositionOk(c, d, at, shifts) && CanStep(c, at, choice, shifts) && j < |Legs(c)|
    requires !IsSettled(At(c.truth.legResults, j)) && IsSettled(At(Step(c, d, at, choice, shifts).0.truth.legResults, j))
    ensures
      var amount := At(Step(c, d, at, choice, shifts).0.truth.legResults, j).value.receivedSats;
      || (at.Returned? && at.leg == j && at.outcome.status == Settled && at.outcome.receivedSats == amount)
      || (at.WillSettle? && at.record.currentLegIndex == j && at.amount == amount)
  {
  }

  lemma MoveSettles(s: State, a: Action, id: PlanId, j: nat, amount: Option<int>)
    requires Inv(s) && a.Move? && CanAct(s, a) && s.drivers[a.d].plan == id && HasSettled(Act(s, a), id, j, amount)
    requires !HasSettled(s, id, j, amount)
    ensures
      var at := s.drivers[a.d].at;
      || (at.Returned? && at.leg == j && at.outcome.status == Settled && at.outcome.receivedSats == amount)
      || (at.WillSettle? && at.record.currentLegIndex == j && at.amount == amount)
  {
    assert DriverOk(s, a.d);
    MoveFrame(s, a);
    MoveIsStep(s, a);
    var c, c' := s.cases[id], Act(s, a).cases[id];
    if IsSettled(At(c.truth.legResults, j)) { SettledStays(c, c', a.d, s.shifts); }
    StepSettles(c, a.d, s.drivers[a.d].at, a.choice, s.shifts, j);
  }

  // In every reachable state a leg is stored settled with an amount only if its executor had
  // returned settled with that amount or its provider had answered that it delivered it.
  lemma {:induction false} SettledWasReported(t: Trace, k: nat, id: PlanId, j: nat, amount: Option<int>) returns (m: nat)
    requires IsTrace(t) && k < |t.states| && HasSettled(t.states[k], id, j, amount)
    ensures m < k && ReportsSettled(t.states[m], t.actions[m], id, j, amount)
  {
    assert k > 0;
    var n: nat := k - 1;
    var s, a := t.states[n], t.actions[n];
    TraceStep(t, n);
    if a.Move? && s.drivers[a.d].plan == id {
      if HasSettled(s, id, j, amount) {
        m := SettledWasReported(t, n, id, j, amount);
      } else {
        MoveSettles(s, a, id, j, amount);
        var at := s.drivers[a.d].at;
        if at.Returned? {
          m := OutcomeCameFrom(t, n, a.d, id, j, at.resumed, at.outcome);
        } else {
          var answer;
          m, answer := SettlementCameFrom(t, n, a.d, id, at.record, amount);
        }
      }
    } else {
      OtherTruth(s, a, id);
      m := SettledWasReported(t, n, id, j, amount);
    }
  }

  // ----- what closes a plan ----------------------------------------------------------------------------

  // Why a plan is given up on: its leg's executor returned undelivered, or its provider
  // answered that it ended without delivering.
  predicate ReportsEnd(s: State, a: Action, id: PlanId, why: Reason) {
    && a.Move?
    && match why
       case NotDelivered(j) =>
         a.choice.Returns? && ReturnsOutcome(s, a, id, j, a.choice.outcome)
         && (a.choice.outcome.status == Refunded || a.choice.outcome.status == Failed)
       case Concluded(j) => a.choice.Answered? && AnswersAbout(s, a, id, j, a.choice.answer) && SaysUndelivered(a.choice.answer)
       case _ => false
  }

  lemma RemovalStep(c: Case, d: DriverId, at: Position, choice: Choice, shifts: Shifts)
    requires CanStep(c, at, choice, shifts) && |c.tally| == |Legs(c)|
    requires Step(c, d, at, choice, shifts).1.WillRemove?
    ensures
      match Step(c, d, at, choice, shifts).1.why
      case NotDelivered(j) => at.Returned? && at.leg == j && (at.outcome.status == Refunded || at.outcome.status == Failed)
      case Concluded(j) => at.WillProbe? && at.record.currentLegIndex == j && choice.Answered? && SaysUndelivered(choice.answer)
      case _ => true
  {
    if at.WillProbe? {
      var i := at.record.currentLegIndex;
      ProbeFinds(at.record.route.legs[i].call, At(at.record.legResults, i).value, choice.answer);
    }
  }

  lemma {:induction false} RemovalCameFrom(t: Trace, k: nat, d: DriverId, id: PlanId, why: Reason) returns (m: nat)
    requires IsTrace(t) && k < |t.states| && StandsAt(t.states[k], d, id, WillRemove(why)) && (why.NotDelivered? || why.Concluded?)
    ensures m < k && ReportsEnd(t.states[m], t.actions[m], id, why)
  {
    assert k > 0;
    var n: nat := k - 1;
    var s, a := t.states[n], t.actions[n];
    TraceStep(t, n);
    if a.Move? && a.d == d {
      assert DriverOk(s, d);
      MoveFrame(s, a);
      var at := s.drivers[d].at;
      RemovalStep(s.cases[id], d, at, a.choice, s.shifts);
      if why.NotDelivered? {
        m := OutcomeCameFrom(t, n, d, id, at.leg, at.resumed, at.outcome);
      } else {
        m := n;
      }
    } else {
      StandsBefore(s, a, d, id, WillRemove(why));
      m := RemovalCameFrom(t, n, d, id, why);
    }
  }

  predicate HasClosed(s: State, id: PlanId, why: Reason) { id in s.cases && s.cases[id].closed == Some(why) }

  lemma StepCloses(c: Case, d: DriverId, at: Position, choice: Choice, shifts: Shifts, why: Reason)
    requires CanStep(c, at, choice, shifts) && |c.tally| == |Legs(c)| && (why.NotDelivered? || why.Concluded?)
    requires c.closed != Some(why) && Step(c, d, at, choice, shifts).0.closed == Some(why)
    ensures at == WillRemove(why)
  {
  }

  lemma OthersClose(s: State, a: Action, id: PlanId, why: Reason)
    requires CanAct(s, a) && HasClosed(Act(s, a), id, why) && (why.NotDelivered? || why.Concluded?)
    requires !(a.Move? && s.drivers[a.d].plan == id)
    ensures HasClosed(s, id, why)
  {
    if a.Move? { MoveFrame(s, a); }
  }

  // A record that was removed because its leg was not delivered, or concluded by its provider,
  // had an executor that returned refunded or failed, or a provider that answered so.
  lemma {:induction false} ClosedWasReported(t: Trace, k: nat, id: PlanId, why: Reason) returns (m: nat)
    requires IsTrace(t) && k < |t.states| && HasClosed(t.states[k], id, why) && (why.NotDelivered? || why.Concluded?)
    ensures m < k && ReportsEnd(t.states[m], t.actions[m], id, why)
  {
    assert k > 0;
    var n: nat := k - 1;
    var s, a := t.states[n], t.actions[n];
    TraceStep(t, n);
    if HasClosed(s, id, why) {
      m := ClosedWasReported(t, n, id, why);
    } else if a.Move? && s.drivers[a.d].plan == id {
      MoveFrame(s, a);
      StepCloses(s.cases[id], a.d, s.drivers[a.d].at, a.choice, s.shifts, why);
      m := RemovalCameFrom(t, n, a.d, id, why);
    } else {
      OthersClose(s, a, id, why);
    }
  }

  lemma FinishedIsSettled(c: Case, shifts: Shifts)
    requires CaseOk(c, shifts) && c.closed == Some(FinalLegSettled)
    ensures |Legs(c)| >= 2 && IsSettled(At(c.truth.legResults, |Legs(c)| - 1))
  {
  }

  // A record that was removed as finished had its last leg settle: its executor had returned
  // so or its provider had answered so.
  lemma FinishedWasReported(t: Trace, k: nat, id: PlanId) returns (m: nat, amount: Option<int>)
    requires IsTrace(t) && k < |t.states| && HasClosed(t.states[k], id, FinalLegSettled)
    ensures |Legs(t.states[k].cases[id])| >= 2
    ensures m < k && ReportsSettled(t.states[m], t.actions[m], id, |Legs(t.states[k].cases[id])| - 1, amount)
  {
    EveryStateIsInvariant(t, k);
    var c := t.states[k].cases[id];
    FinishedIsSettled(c, t.states[k].shifts);
    var last: nat := |Legs(c)| - 1;
    amount := At(c.truth.legResults, last).value.receivedSats;
    m := SettledWasReported(t, k, id, last, amount);
  }
}
