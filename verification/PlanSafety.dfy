// Safety of conversion plans over every run: any interleaving of drivers, with stops and
// crashes between any two steps.
module PlanSafety {
  import opened Options
  import opened Routes
  import opened Envelopes
  import opened PlanStore
  import opened Multihop
  import opened PlanMachine
  import opened PlanInvariant

  ghost predicate CasesOk(s: State) { forall id :: id in s.cases ==> CaseOk(s.cases[id], s.shifts) }

  ghost predicate DriverOk(s: State, d: DriverId)
    requires d in s.drivers
  {
    && s.drivers[d].plan in s.cases
    && CaseOk(s.cases[s.drivers[d].plan], s.shifts)
    && PositionOk(s.cases[s.drivers[d].plan], d, s.drivers[d].at, s.shifts)
  }

  ghost predicate DriversOk(s: State) { forall d :: d in s.drivers ==> DriverOk(s, d) }

  ghost predicate OwnersOk(s: State) {
    forall id :: id in s.cases && s.cases[id].owner.Some? ==>
      s.cases[id].owner.value in s.drivers && s.drivers[s.cases[id].owner.value].plan == id
  }

  ghost predicate Inv(s: State) { CasesOk(s) && DriversOk(s) && OwnersOk(s) }

  // ----- shifts end while plans run ------------------------------------------------------------

  lemma MoreShiftsLater(was: Plan, now: Plan, shifts: Shifts, more: Shifts)
    requires Later(was, now, shifts) && forall k :: k in shifts ==> k in more && more[k] == shifts[k]
    ensures Later(was, now, more)
  {
    forall j: nat | j < |was.route.legs|
      ensures LaterResult(was.route.legs[j].call, At(was.legResults, j), At(now.legResults, j), more)
    {
      assert LaterResult(was.route.legs[j].call, At(was.legResults, j), At(now.legResults, j), shifts);
    }
  }

  lemma MoreShiftsTally(plan: Plan, tally: seq<Tally>, tampered: bool, shifts: Shifts, more: Shifts)
    requires TallyOk(plan, tally, tampered, shifts) && forall k :: k in shifts ==> k in more && more[k] == shifts[k]
    ensures TallyOk(plan, tally, tampered, more)
  {
    forall j: nat | j < |tally| ensures LegTallied(plan, tally, j, tampered, more) {
      TallyLeg(plan, tally, j, tampered, shifts);
    }
  }

  lemma MoreShiftsCase(c: Case, shifts: Shifts, more: Shifts)
    requires CaseOk(c, shifts) && forall k :: k in shifts ==> k in more && more[k] == shifts[k]
    ensures CaseOk(c, more)
  {
    MoreShiftsTally(c.truth, c.tally, c.tampered, shifts, more);
  }

  lemma MoreShiftsPosition(c: Case, d: DriverId, at: Position, shifts: Shifts, more: Shifts)
    requires CaseOk(c, shifts) && PositionOk(c, d, at, shifts)
    requires forall k :: k in shifts ==> k in more && more[k] == shifts[k]
    ensures PositionOk(c, d, at, more)
  {
    match at
    case HasSnapshot(record) => MoreShiftsLater(record, c.truth, shifts, more);
    case WillProbe(record) => MoreShiftsLater(record, c.truth, shifts, more);
    case WillSettle(record, _) => MoreShiftsLater(record, c.truth, shifts, more);
    case _ =>
  }

  // ----- every action keeps the invariant ---------------------------------------------------------

  // An action that rewrites one plan's case and at most driver d of that plan.
  ghost predicate OnlyOnePlan(s: State, s': State, id: PlanId, d: DriverId) {
    && id in s.cases && s'.shifts == s.shifts
    && s'.cases.Keys == s.cases.Keys && (forall k :: k in s.cases && k != id ==> s'.cases[k] == s.cases[k])
    && (forall e :: e in s'.drivers && e != d ==> e in s.drivers && s'.drivers[e] == s.drivers[e])
    && (forall e :: e in s.drivers && e != d ==> e in s'.drivers)
    && (d in s.drivers ==> s.drivers[d].plan == id)
    && (d in s'.drivers ==> s'.drivers[d].plan == id)
  }

  lemma OtherDriver(s: State, s': State, id: PlanId, d: DriverId, e: DriverId)
    requires OnlyOnePlan(s, s', id, d) && e in s.drivers && e != d && DriverOk(s, e)
    requires CaseOk(s.cases[id], s.shifts) && CaseOk(s'.cases[id], s.shifts)
    requires SeenByOthers(s.cases[id], s'.cases[id], d, s.shifts)
    ensures DriverOk(s', e)
  {
    if s.drivers[e].plan == id {
      OthersStay(s.cases[id], s'.cases[id], d, e, s.drivers[e].at, s.shifts);
    }
  }

  lemma OwnersStayDrivers(s: State, s': State, id: PlanId, d: DriverId)
    requires OnlyOnePlan(s, s', id, d) && OwnersOk(s)
    requires SeenByOthers(s.cases[id], s'.cases[id], d, s.shifts)
    requires s'.cases[id].owner == Some(d) ==> d in s'.drivers
    ensures OwnersOk(s')
  {
    forall k | k in s'.cases && s'.cases[k].owner.Some?
      ensures s'.cases[k].owner.value in s'.drivers && s'.drivers[s'.cases[k].owner.value].plan == k
    {
      var e := s'.cases[k].owner.value;
      if e != d { assert s.cases[k].owner == Some(e); }
    }
  }

  lemma OneCaseChanges(s: State, s': State, id: PlanId, d: DriverId)
    requires Inv(s) && OnlyOnePlan(s, s', id, d)
    requires CaseOk(s'.cases[id], s.shifts) && SeenByOthers(s.cases[id], s'.cases[id], d, s.shifts)
    requires d in s'.drivers ==> PositionOk(s'.cases[id], d, s'.drivers[d].at, s.shifts)
    requires d !in s'.drivers ==> s'.cases[id].owner != Some(d)
    ensures Inv(s')
  {
    OwnersStayDrivers(s, s', id, d);
    forall e | e in s'.drivers ensures DriverOk(s', e) {
      if e != d { OtherDriver(s, s', id, d, e); }
    }
  }

  // A move as its plan's case and its driver see it.
  lemma MoveIsStep(s: State, a: Action)
    requires a.Move? && CanAct(s, a) && DriverOk(s, a.d)
    ensures
      var d, id, s' := a.d, s.drivers[a.d].plan, Act(s, a);
      && OnlyOnePlan(s, s', id, d) && d in s'.drivers
      && CaseOk(s'.cases[id], s.shifts) && PositionOk(s'.cases[id], d, s'.drivers[d].at, s.shifts)
      && SeenByOthers(s.cases[id], s'.cases[id], d, s.shifts)
  {
    var d := a.d;
    var c, at := s.cases[s.drivers[d].plan], s.drivers[d].at;
    EveryStepKeeps(c, d, at, a.choice, s.shifts);
    MoveFrame(s, a);
  }

  lemma MoveFrame(s: State, a: Action)
    requires a.Move? && CanAct(s, a)
    ensures
      var d, id, s' := a.d, s.drivers[a.d].plan, Act(s, a);
      && OnlyOnePlan(s, s', id, d) && d in s'.drivers
      && Step(s.cases[id], d, s.drivers[d].at, a.choice, s.shifts) == (s'.cases[id], s'.drivers[d].at)
  {
  }

  lemma MoveKeeps(s: State, a: Action)
    requires Inv(s) && a.Move? && CanAct(s, a)
    ensures Inv(Act(s, a))
  {
    MoveIsStep(s, a);
    OneCaseChanges(s, Act(s, a), s.drivers[a.d].plan, a.d);
  }

  lemma StopReleases(c: Case, d: DriverId, shifts: Shifts)
    requires CaseOk(c, shifts)
    ensures CaseOk(Release(c, d), shifts) && SeenByOthers(c, Release(c, d), d, shifts) && Release(c, d).owner != Some(d)
  {
    if c.owner == Some(d) { ReleaseKeeps(c, d, shifts); } else { NothingSeen(c, d, shifts); }
  }

  lemma StopFrame(s: State, d: DriverId)
    requires CanAct(s, Stop(d))
    ensures
      var id, s' := s.drivers[d].plan, Act(s, Stop(d));
      OnlyOnePlan(s, s', id, d) && d !in s'.drivers && s'.cases[id] == Release(s.cases[id], d)
  {
  }

  lemma StopKeeps(s: State, d: DriverId)
    requires Inv(s) && CanAct(s, Stop(d))
    ensures Inv(Act(s, Stop(d)))
  {
    StopReleases(s.cases[s.drivers[d].plan], d, s.shifts);
    StopFrame(s, d);
    OneCaseChanges(s, Act(s, Stop(d)), s.drivers[d].plan, d);
  }

  lemma FreshDriver(s: State) returns (d: DriverId)
    ensures d !in s.drivers
  {
    d := 0;
    var left := s.drivers.Keys;
    while d in s.drivers
      invariant left <= s.drivers.Keys && forall e :: e in s.drivers && e >= d ==> e in left
      decreases left
    {
      left := left - {d};
      d := d + 1;
    }
  }

  lemma TamperKeepsCase(c: Case, shifts: Shifts)
    requires CaseOk(c, shifts) && c.slot.Some?
    ensures CaseOk(TamperedCase(c), shifts)
  {
    forall j: nat | j < |c.tally| ensures LegTallied(c.truth, c.tally, j, true, shifts) {
      TallyLeg(c.truth, c.tally, j, c.tampered, shifts);
    }
  }

  function TamperedCase(c: Case): Case { c.(slot := Some(Tampered), tampered := true) }

  lemma TamperSeen(c: Case, d: DriverId, shifts: Shifts)
    requires c.slot.Some?
    ensures SeenByOthers(c, TamperedCase(c), d, shifts)
  {
    LaterIsReflexive(c.truth, shifts);
  }

  // An action of no driver that rewrites one case and leaves its owner.
  lemma RewrittenKeeps(s: State, id: PlanId, c': Case, d: DriverId)
    requires Inv(s) && id in s.cases && d !in s.drivers
    requires CaseOk(c', s.shifts) && SeenByOthers(s.cases[id], c', d, s.shifts) && c'.owner == s.cases[id].owner
    ensures Inv(s.(cases := s.cases[id := c']))
  {
    assert s.cases[id].owner != Some(d);
    OneCaseChanges(s, s.(cases := s.cases[id := c']), id, d);
  }

  lemma TamperKeeps(s: State, id: PlanId)
    requires Inv(s) && CanAct(s, Tamper(id))
    ensures Inv(Act(s, Tamper(id)))
  {
    var d := FreshDriver(s);
    TamperKeepsCase(s.cases[id], s.shifts);
    TamperSeen(s.cases[id], d, s.shifts);
    RewrittenKeeps(s, id, TamperedCase(s.cases[id]), d);
    TamperIs(s, id);
  }

  lemma TamperIs(s: State, id: PlanId)
    requires CanAct(s, Tamper(id))
    ensures Act(s, Tamper(id)) == s.(cases := s.cases[id := TamperedCase(s.cases[id])])
  {
  }

  lemma DiscardKeepsCase(c: Case, d: DriverId, shifts: Shifts)
    requires CaseOk(c, shifts) && c.slot == Some(Tampered) && c.owner != Some(d)
    ensures CaseOk(Closed(c, Discarded), shifts) && SeenByOthers(c, Closed(c, Discarded), d, shifts)
    ensures Closed(c, Discarded).owner == c.owner
  {
    LaterIsReflexive(c.truth, shifts);
  }

  lemma DiscardKeeps(s: State, id: PlanId)
    requires Inv(s) && CanAct(s, DiscardTampered(id))
    ensures Inv(Act(s, DiscardTampered(id)))
  {
    var d := FreshDriver(s);
    assert s.cases[id].owner != Some(d);
    DiscardKeepsCase(s.cases[id], d, s.shifts);
    RewrittenKeeps(s, id, Closed(s.cases[id], Discarded), d);
    DiscardIs(s, id);
  }

  lemma DiscardIs(s: State, id: PlanId)
    requires CanAct(s, DiscardTampered(id))
    ensures Act(s, DiscardTampered(id)) == s.(cases := s.cases[id := Closed(s.cases[id], Discarded)])
  {
  }

  lemma ReadIs(s: State, d: DriverId, id: PlanId)
    requires CanAct(s, ReadPlan(d, id)) && CaseOk(s.cases[id], s.shifts)
    ensures
      var s' := Act(s, ReadPlan(d, id));
      s'.cases == s.cases && OnlyOnePlan(s, s', id, d) && s'.drivers[d] == Driver(id, HasSnapshot(s.cases[id].truth))
  {
  }

  lemma ReadKeeps(s: State, d: DriverId, id: PlanId)
    requires Inv(s) && CanAct(s, ReadPlan(d, id))
    ensures Inv(Act(s, ReadPlan(d, id)))
  {
    var c := s.cases[id];
    NothingSeen(c, d, s.shifts);
    SnapshotOfTruth(c, s.shifts);
    ReadIs(s, d, id);
    assert c.owner != Some(d);
    OneCaseChanges(s, Act(s, ReadPlan(d, id)), id, d);
  }

  lemma SnapshotOfTruth(c: Case, shifts: Shifts)
    requires CaseOk(c, shifts)
    ensures SnapshotOk(c.truth, c, shifts)
  {
    LaterIsReflexive(c.truth, shifts);
    forall j: nat | j < |Legs(c)| && At(c.truth.legResults, j).Some? && At(c.truth.legResults, j).value.state == LegInFlight
      ensures At(c.truth.legResults, j) == Some(CLAIMED)
    {
      TallyLeg(c.truth, c.tally, j, c.tampered, shifts);
    }
  }

  lemma NewCaseOk(plan: Plan, now: int, shifts: Shifts)
    requires HasRouteShape(plan.route.legs) && |plan.route.legs| >= 2 && plan.amountSats > 0
    requires plan.currentLegIndex == 0 && plan.legResults == []
    ensures CaseOk(NewCase(plan, now), shifts)
  {
  }

  lemma ConvertKeeps(s: State, a: Action)
    requires Inv(s) && a.Convert? && CanAct(s, a)
    ensures Inv(Act(s, a))
  {
    var c := NewCase(NewPlan(a.id, a.route, a.amountSats, a.params, a.now), a.now);
    NewCaseOk(NewPlan(a.id, a.route, a.amountSats, a.params, a.now), a.now, s.shifts);
    var s' := Act(s, a);
    assert s'.cases == s.cases[a.id := c];
    assert PositionOk(c, a.d, WillClaim(0, a.amountSats, false), s.shifts);
    forall e | e in s'.drivers ensures DriverOk(s', e) {
      if e != a.d { assert DriverOk(s, e); }
    }
    OwnersAfterConvert(s, a);
  }

  lemma OwnersAfterConvert(s: State, a: Action)
    requires OwnersOk(s) && a.Convert? && CanAct(s, a)
    ensures OwnersOk(Act(s, a))
  {
  }

  lemma CrashKeeps(s: State)
    requires Inv(s)
    ensures Inv(Act(s, Crash))
  {
    forall id | id in s.cases ensures CaseOk(s.cases[id].(owner := None), s.shifts) {
      assert CaseOk(s.cases[id], s.shifts);
    }
  }

  lemma EndShiftDriver(s: State, s': State, e: DriverId)
    requires e in s.drivers && DriverOk(s, e) && s' == s.(shifts := s'.shifts)
    requires forall k :: k in s.shifts ==> k in s'.shifts && s'.shifts[k] == s.shifts[k]
    ensures DriverOk(s', e)
  {
    MoreShiftsCase(s.cases[s.drivers[e].plan], s.shifts, s'.shifts);
    MoreShiftsPosition(s.cases[s.drivers[e].plan], e, s.drivers[e].at, s.shifts, s'.shifts);
  }

  lemma EndShiftKeeps(s: State, a: Action)
    requires Inv(s) && a.EndShift? && CanAct(s, a)
    ensures Inv(Act(s, a))
  {
    var s' := Act(s, a);
    assert s' == s.(shifts := s'.shifts);
    forall id | id in s'.cases ensures CaseOk(s'.cases[id], s'.shifts) {
      MoreShiftsCase(s.cases[id], s.shifts, s'.shifts);
    }
    forall e | e in s'.drivers ensures DriverOk(s', e) {
      EndShiftDriver(s, s', e);
    }
  }

  lemma ActKeeps(s: State, a: Action)
    requires Inv(s) && CanAct(s, a)
    ensures Inv(Act(s, a))
  {
    match a
    case Convert(_, _, _, _, _, _) => ConvertKeeps(s, a);
    case ReadPlan(d, id) => ReadKeeps(s, d, id);
    case Move(_, _) => MoveKeeps(s, a);
    case Stop(d) => StopKeeps(s, d);
    case Crash => CrashKeeps(s);
    case Tamper(id) => TamperKeeps(s, id);
    case DiscardTampered(id) => DiscardKeeps(s, id);
    case EndShift(_, _) => EndShiftKeeps(s, a);
  }

  lemma {:induction false} EveryStateIsInvariant(t: Trace, k: nat)
    requires IsTrace(t) && k < |t.states|
    ensures Inv(t.states[k])
  {
    if k > 0 {
      EveryStateIsInvariant(t, k - 1);
      ActKeeps(t.states[k-1], t.actions[k-1]);
    }
  }
}
