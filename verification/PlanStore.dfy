// The durable store of conversion plans (src/wallet-engine/convert/plan-store.ts).
module PlanStore {
  import opened Options
  import opened Routes
  import opened Envelopes

  type PlanId = string

  datatype LegState = LegInFlight | LegAwaitingFunding | LegPending | LegSettled

  datatype LegResult = LegResult(
    state: LegState, txids: seq<string>, receivedSats: Option<int>, trackingId: Option<string>)

  // What claimLeg stamps on a leg before it runs.
  const CLAIMED: LegResult := LegResult(LegInFlight, [], None, None)

  datatype PlanState = Executing | AwaitingFunding | Pending | NeedsReview

  // A lightning invoice with the amount written into it, if any.
  datatype Invoice = Invoice(bolt11: string, sats: Option<nat>)

  // What the exit leg needs: where it delivers, which invoice it pays, where refunds go.
  datatype Params = Params(address: Option<string>, invoice: Option<Invoice>, refundAddress: Option<string>)

  datatype Plan = Plan(
    planId: PlanId, amountSats: int, route: Route, params: Params,
    currentLegIndex: nat, legResults: seq<Option<LegResult>>, state: PlanState, createdAt: int)

  // Entry k of the sparse result list: absent and null both mean never started.
  function At(results: seq<Option<LegResult>>, k: nat): Option<LegResult> {
    if k < |results| then results[k] else None
  }

  // Assignment to entry k, which extends the list with unset entries where needed.
  function SetAt(results: seq<Option<LegResult>>, k: nat, value: Option<LegResult>): (r: seq<Option<LegResult>>)
    ensures forall j: nat :: At(r, j) == if j == k then value else At(results, j)
  {
    if k < |results| then results[k := value]
    else results + seq(k - |results|, _ => None) + [value]
  }

  // ----- one record of the file ------------------------------------------------------------

  datatype ClaimResult = Claimed | AlreadyActive | NotFound | AuthFailed

  function Put(plan: Plan, now: int): Slot<Plan> {
    Some(Sealed(plan.(createdAt := if plan.createdAt != 0 then plan.createdAt else now)))
  }

  function ClaimOutcome(slot: Slot<Plan>, leg: nat): ClaimResult {
    if slot.None? then NotFound
    else if slot.value.Tampered? then AuthFailed
    else if At(slot.value.record.legResults, leg).Some? then AlreadyActive
    else Claimed
  }

  function WithClaim(plan: Plan, leg: nat): Plan {
    plan.(currentLegIndex := leg, legResults := SetAt(plan.legResults, leg, Some(CLAIMED)), state := Executing)
  }

  function Claim(slot: Slot<Plan>, leg: nat): Slot<Plan> {
    if ClaimOutcome(slot, leg) == Claimed then Some(Sealed(WithClaim(slot.value.record, leg))) else slot
  }

  // `now` is `was` with the leg stamped as started and nothing else of its legs changed.
  ghost predicate IsClaimOf(was: Plan, now: Plan, leg: nat) {
    && SamePlan(was, now) && now.currentLegIndex == leg && now.state == Executing
    && At(now.legResults, leg) == Some(LegResult(LegInFlight, [], None, None))
    && forall j: nat :: j != leg ==> At(now.legResults, j) == At(was.legResults, j)
  }

  // The parts of a plan that no operation on its legs changes.
  predicate SamePlan(was: Plan, now: Plan) {
    && now.planId == was.planId && now.amountSats == was.amountSats && now.route == was.route
    && now.params == was.params && now.createdAt == was.createdAt
  }

  // ----- the store -------------------------------------------------------------------------------

  class ConversionPlanStore {
    const file: EnvelopeFile<Plan>

    constructor ()
      ensures fresh(file) && file.Valid() && forall id :: file.Holds(id) == None
    {
      file := new EnvelopeFile();
    }

    method PutPlan(plan: Plan, now: int)
      requires file.Valid()
      modifies file
      ensures file.Valid()
      ensures file.Holds(plan.planId) == Put(plan, now)
      ensures file.Holds(plan.planId) == Some(Sealed(plan.(createdAt := if plan.createdAt == 0 then now else plan.createdAt)))
      ensures forall id :: id != plan.planId ==> file.Holds(id) == old(file.Holds(id))
    {
      file.PutRecord(plan.planId, plan.(createdAt := if plan.createdAt != 0 then plan.createdAt else now));
    }

    // Claims an unstarted leg on the record's fresh state.
    method ClaimLeg(id: PlanId, leg: nat) returns (result: ClaimResult)
      requires file.Valid()
      modifies file
      ensures file.Valid()
      ensures result == ClaimOutcome(old(file.Holds(id)), leg)
      ensures file.Holds(id) == Claim(old(file.Holds(id)), leg)
      // The four answers, and the stamp of a successful claim.
      ensures result == NotFound <==> old(file.Holds(id)) == None
      ensures result == AuthFailed <==> old(file.Holds(id)) == Some(Tampered)
      ensures result == Claimed <==>
        IsSealed(old(file.Holds(id))) && At(old(file.Holds(id)).value.record.legResults, leg) == None
      ensures result != Claimed ==> file.Holds(id) == old(file.Holds(id))
      ensures result == Claimed ==> IsSealed(file.Holds(id)) && IsClaimOf(old(file.Holds(id)).value.record, file.Holds(id).value.record, leg)
      ensures forall other :: other != id ==> file.Holds(other) == old(file.Holds(other))
    {
      var at := file.Find(id);
      if at == -1 { return NotFound; }
      if file.envelopes[at].Tampered? { return AuthFailed; }
      var record := file.envelopes[at].record;
      if At(record.legResults, leg) != None { return AlreadyActive; }
      file.Replace(at, Sealed(record.(
        currentLegIndex := leg, legResults := SetAt(record.legResults, leg, Some(CLAIMED)), state := Executing)));
      result := Claimed;
    }
  }
}
