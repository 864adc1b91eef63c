# Crash-safe money movement, verified

A Dafny 4.11 model of how the wallet engine moves money and survives crashes, with proofs about
every run of it.

The centre is the multi-hop conversion plan: a durable record of a chain of legs, driven leg by
leg by any number of drivers in one process (direct `convert` calls and recovery passes), each
with its own, possibly stale, snapshot. `PlanMachine` is that as a transition system whose steps
are the code between two awaits; drivers interleave freely, may stop, the process may crash and
records may be tampered with between any two steps. `PlanInvariant` proves what every step keeps,
`PlanSafety` lifts it to every action of the process, `PlanTheorems` states the results over whole
runs, `PlanReports` says where everything stored of a leg comes from, `PlanWitness` is a concrete
run, and `PlanDriver` gives `drivePlan` and `resumeOnePlan` as loops over the store and proves
that what they leave in the file is what a run of the machine's driver leaves.

Around it: the routing table whose shape theorem the plan executor relies on (`Routes`, `RouteIds`,
`Enumeration`), the record files (`Envelopes`, `PlanStore`), withdrawals as a state machine and as
code over their store (`Withdrawals`, `WithdrawalDriver`), the spending choke point (`Guardrails`) and the promise-chain mutex under it (`PromiseMutex`), the
sliding-window limiter (`Throttle`), coin selection (`Coins`), two retry loops (`ApiRetry`,
`GatewayRetry`), the checkout wait loop (`WaitLoop`), the integer encoding of plan records
(`BigintJson`) and fresh receive indexes (`ReceiveIndex`).

## Where the code and its documentation disagree

- What a leg draws. The header of `multihop.ts` (lines 7-10) says the next leg consumes what the
  leg before it really settled. Each leg is handed exactly that
  (`PlanTheorems.HandedPreviousOutput`), but what it then draws is up to its provider.
  `executePayLightning` (`intent.ts` lines 804-811) never reads the amount it is handed: the payment
  draws what its invoice's lockup asks for, as the hint at `intent.ts` lines 694-696 says too. A
  swap executes the next quote of its stream (`intent.ts` lines 726-727), whose send amount is
  never compared with the requested one: `sideswap.ts` line 897 stores that and nothing reads it.
  A shift and a stablecoin lockup may ask for less than they were handed.
  `PlanTheorems.DrawsWhatItWasHandedWhen` says for which legs the promise holds however a run goes
  on, `Multihop.CanDrawItsInputWhen` for which it can hold at all.
- A swap's value. A swap is enforced and recorded at the quote's send amount (`sideswap.ts` line
  718), and the comment at `sideswap.ts` lines 244-247 takes the outflow of any asset but L-BTC to
  be exactly that. The check at lines 370-371 lets the transaction pay out up to 5,000 units more
  of whichever asset is sent. `PlanTheorems.DrawsNoMoreThanValuedWhen` shows that swaps are the only
  legs that can draw more than they are valued at, `PlanTheorems.DrawsWithinItsValue` bounds by how
  much.
- `PlanWitness.DrawsDifferFromWhatWasHanded` has both: a sale that is handed, asked for and valued at
  10,000,000 units and draws 10,005,000, and a lightning payment that is handed 100,000 sats and
  draws 50,250.
- Count-once. The header of `multihop.ts` (lines 29-35) says the value of an intent is counted
  exactly once. A Boltz exit leg funds its lockup through `lockupLbtc`, which always enforces and
  records, so a plan that runs a market swap and then a Boltz exit is counted twice
  (`PlanWitness.CountsTwice`). The model follows the code; `PlanTheorems.CountedExactlyOnceWhen`
  gives the exact condition. A lockup that fails between recording and sending may be run again
  and is then recorded once more (`PlanTheorems.RecordedOnceWhen`). No plan is ever counted zero
  times (`PlanTheorems.SkippedOnlyAfterCounted`).
- Renewal and retries. The comment at `apiClient.ts` lines 206-208 promises that renewing an
  expired session leaves the budget for transient failures alone. It costs one retry unless the
  401 comes on the last attempt: `GatewayRetry.RenewalKeepsBudgetWhen`, with the input
  `GatewayRetry.RenewalCostsARetry`.
- The throw after that loop is reached exactly when `maxAttempts` is below 1
  (`GatewayRetry.CallIsBounded`).

## Assumptions

- One process per data directory; file writes are atomic and durable. Within the conversion and
  withdrawal records an envelope either authenticates, and then holds what was last sealed under
  its id, or does not. The guardrail state file may in addition be deleted or rolled back.
- Plan ids and idempotency keys are fresh. A shift's terminal answer does not change. An error
  that is marked as safe to retry means that nothing was sent.
- The networks SideShift serves are pairwise distinct and do not include Liquid, and Boltz has no
  stablecoin variant on Liquid (`Routes.ShippedRailsAreValid` for the shipped tables).
- What a leg draws is in the asset it sends and leaves network fees out, except that a swap of
  L-BTC pays its own fee from what its transaction pays out. The ceiling of a lightning lockup is
  exact arithmetic here and a rounded double in the code.
- At most one driver acts on a withdrawal record at a time.
- Clocks do not run backwards and a sleep lasts at least as long as asked; the polling interval
  of the wait loop is positive; coin amounts and the daily limit are not negative.

## Model

| member | source | states |
|---|---|---|
| Routes.ShippedRailsAreValid | src/wallet-engine/convert/routes.ts:101-104 | the shipped provider tables meet what the routing table needs of them |
| Routes.CandidatesHaveRouteShape | src/wallet-engine/convert/multihop.ts:303-320 | every candidate chain has one to three legs, inflow legs only first, exit legs only last, and every joint is a Liquid holding of this wallet: what the executor's removal and skip rules rely on |
| RouteIds.LegIdIsInjective | src/wallet-engine/convert/routes.ts:110-112 | two offered legs with the same id are the same leg |
| RouteIds.RouteIdIsInjective | src/wallet-engine/convert/routes.ts:114-122 | two chains with the same route id are the same chain |
| RouteIds.SideSwapIdsAsPublished | src/wallet-engine/convert/routes.ts:110-112 | the ids of the SideSwap legs, part by part |
| RouteIds.BoltzIdsAsPublished | src/wallet-engine/convert/routes.ts:110-112 | the ids of the Boltz legs, part by part |
| RouteIds.SideShiftIdsAsPublished | src/wallet-engine/convert/routes.ts:110-112 | the ids of the SideShift legs, part by part |
| RouteIds.RouteIdJoins | src/wallet-engine/convert/routes.ts:114-116 | the id of a chain is the ids of its parts with a plus sign between |
| RouteIds.StringLessIsTotal | src/wallet-engine/convert/routes.ts:299-304 | the string order compares any two different ids one way and not the other |
| RouteIds.StringLessIsPrecedes | src/wallet-engine/convert/routes.ts:299-304 | one string is less than another exactly when it has the smaller character, or has ended, where they first differ |
| RouteIds.RouteLessIsTotal | src/wallet-engine/convert/routes.ts:299-304 | the (hops, custodial, id) order compares any two routes with different ids |
| RouteIds.RouteLessIsTransitive | src/wallet-engine/convert/routes.ts:299-304 | the (hops, custodial, id) order is transitive |
| RouteIds.SortedListingIsUnique | src/wallet-engine/convert/routes.ts:299-304 | a set of routes has at most one sorted listing |
| Enumeration.EntryLegs | src/wallet-engine/convert/routes.ts:216-230 | returns exactly the entry legs the rails offer from this asset and origin, each once |
| Enumeration.ExitLegs | src/wallet-engine/convert/routes.ts:233-243 | returns exactly the exit legs the rails offer to this asset and network, each once |
| Enumeration.ReachPivot | src/wallet-engine/convert/routes.ts:245-262 | returns exactly the chains that bring the intent's asset to the pivot on Liquid, each once |
| Enumeration.SortRoutes | src/wallet-engine/convert/routes.ts:299-304 | returns the same routes in strictly increasing order |
| Enumeration.EnumerateRoutes | src/wallet-engine/convert/routes.ts:264-305 | the listing holds exactly the candidate chains of the intent (entry? market? exit?, joined in asset and network, from the effective origin to the destination, no roundtrips), each from and to what was asked for, with its number of legs as hops and custodial exactly if SideShift takes part; fewer hops first, then without a custodian, then by id |
| Enumeration.EnumerationIsUnique | src/wallet-engine/convert/routes.ts:264-305 | the output sequence is determined by the intent |
| Enumeration.CandidateIdsAreDistinct | src/wallet-engine/convert/routes.ts:110-122 | no two different candidates of one intent share an id |
| Enumeration.RouteByIdIsUnambiguous | src/wallet-engine/convert/intent.ts:621-636 | with an id, a route is chosen if and only if it is the candidate that carries the id |
| Enumeration.UnaskedRouteIsUnambiguous | src/wallet-engine/convert/intent.ts:637-671 | without an id, a route is chosen if and only if it is the only single-hop candidate or the only candidate |
| Enumeration.RefusalsSayWhy | src/wallet-engine/convert/intent.ts:621-671 | no route exactly when there is no candidate; not found exactly when no candidate has the id; several exactly when no id was given and there is neither an only single-hop candidate nor an only candidate |
| Envelopes.EnvelopeFile.PutRecord | src/wallet-engine/convert/plan-store.ts:203-210 | the id holds the record, no other id changes |
| Envelopes.EnvelopeFile.PatchRecord | src/wallet-engine/convert/plan-store.ts:213-223 | rewrites an authentic record, does nothing for an absent one, fails for a tampered one, no other id changes |
| Envelopes.EnvelopeFile.RemoveRecord | src/wallet-engine/convert/plan-store.ts:269-275 | the id holds nothing, no other id changes |
| Envelopes.EnvelopeFile.Get | src/wallet-engine/convert/plan-store.ts:278-291 | returns what is held if it authenticates, nothing if absent, an error if tampered |
| Envelopes.EnvelopeFile.ReadAll | src/wallet-engine/convert/plan-store.ts:294-306 | returns the authentic records in file order and the ids of the others |
| Envelopes.ReadersSeeTheFile | src/wallet-engine/convert/plan-store.ts:294-306 | every record read is held under an id, and an id is reported tampered exactly when it holds a tampered record |
| PlanStore.ConversionPlanStore.PutPlan | src/wallet-engine/convert/plan-store.ts:203-210 | stores the plan with its creation time under its id, no other id changes |
| PlanStore.ConversionPlanStore.ClaimLeg | src/wallet-engine/convert/plan-store.ts:253-267 | claims exactly an unstarted leg of an authentic record: the leg is stamped in flight with nothing else, becomes the current one, and the plan executes; an absent, a tampered and a started one are told apart and left alone |
| PlanStore.SetAt | src/wallet-engine/convert/plan-store.ts:260-262 | assigning one slot of the sparse result list changes that slot only |
| Multihop.FirstValueLegOfRoute | src/wallet-engine/convert/multihop.ts:68-71 | the first value leg is the first leg, or the second after an inflow, and only inflow legs precede it |
| Multihop.LockupCeilingIsLeast | src/wallet-engine/convert/boltz/lightning.ts:96-115 | the ceiling of a lightning lockup is the least whole amount from five percent above the invoice on, and 2,000 sats |
| Multihop.MustDrawItsInputWhen | src/wallet-engine/convert/sideshift.ts:536-546 | every order a leg accepts pays out exactly what the leg was handed if and only if it is a peg-out, a shift or stablecoin lockup of one unit, or a lightning payment whose invoice has no amount; for any other leg an accepted order that pays out something else |
| Multihop.CanDrawItsInputWhen | src/wallet-engine/convert/intent.ts:804-811 | some order a leg accepts pays out exactly what the leg was handed if and only if it is not a lightning payment, or its invoice has an amount whose lockup ceiling reaches what it is handed |
| PlanInvariant.EveryStepKeeps | src/wallet-engine/convert/multihop.ts:235-448 | every step of a driver keeps its plan's invariant and its own, and changes nothing another driver of the plan relies on |
| PlanInvariant.OthersStay | src/wallet-engine/convert/multihop.ts:244-278 | what any other driver of the plan knows from its stale snapshot still holds after the step |
| PlanInvariant.ProbeOk | src/wallet-engine/convert/multihop.ts:486-558 | where a provider's answer sends a recovery pass is justified by the stored leg: a conclusion closes the plan only at its last leg or at an undelivered inbound shift |
| PlanInvariant.ClaimTruth | src/wallet-engine/convert/multihop.ts:265-287 | a claim that succeeds takes the current leg again or the next one, with the same input |
| PlanSafety.ActKeeps | src/wallet-engine/convert/multihop.ts:189-232 | every action of the process, crashes and tampering included, keeps the invariant of every plan and driver |
| PlanSafety.EveryStateIsInvariant | src/wallet-engine/convert/multihop.ts:567-602 | every state of every run satisfies it |
| PlanTheorems.OneExecutionPerLeg | src/wallet-engine/convert/multihop.ts:244-302 | over any run, each leg of a plan has at most one execution that may have moved money, and once it had one the leg is never claimed again |
| PlanTheorems.ClaimedAgainOnlyAfterReset | src/wallet-engine/convert/multihop.ts:322-339 | between two claims of a leg there is a reset, and no send of the leg ever precedes a reset of it |
| PlanTheorems.SettledPrefix | src/wallet-engine/convert/multihop.ts:356-366 | in every reachable store state the legs before the current one are settled with a positive amount, none after it is started, and the settled results never change again |
| PlanTheorems.HandedPreviousOutput | src/wallet-engine/convert/multihop.ts:279-302 | the first leg is handed the intent amount, every other leg exactly what is stored, then and ever after, as the previous leg's settled output |
| PlanTheorems.DrawsWithinItsValue | src/wallet-engine/convert/sideswap.ts:365-376 | in every run a peg-out draws what it was handed, a shift and a stablecoin lockup no more than that, a lightning payment no more than its invoice's ceiling, and every leg no more than it was valued at, plus the slack for a swap |
| PlanTheorems.DrawsWhatItWasHandedWhen | src/wallet-engine/convert/boltz/convert.ts:435-440 | from any reachable state about to execute a leg, every way the run goes on has the leg draw exactly what it was handed if and only if it is a peg-out, a shift or stablecoin lockup of one unit, or a lightning payment whose invoice has no amount |
| PlanTheorems.DrawsNoMoreThanValuedWhen | src/wallet-engine/convert/sideswap.ts:716-731 | from any such state, every way the run goes on has the leg draw no more than it was valued at if and only if it is not a swap |
| PlanTheorems.PlanIsTheIntent | src/wallet-engine/convert/multihop.ts:189-226 | a plan's route, amount and parameters are those of the conversion that created it, in every later state |
| PlanTheorems.MovedWasSent | src/wallet-engine/convert/multihop.ts:299-302 | the history kept of a leg is that of an actual earlier step of the run |
| PlanTheorems.SkippedOnlyAfterCounted | src/wallet-engine/wallet.ts:921-935 | ceilings are skipped only for a swap, peg-out or shift strictly past the first value leg of an authentic stored plan, after that first leg was enforced, recorded, sent and stored settled |
| PlanTheorems.RecordedOnceWhen | src/wallet-engine/wallet.ts:2007-2021 | the spend of a counted leg is recorded once, and once more for each execution that failed between recording and sending; for a leg other than a Boltz exit exactly once |
| PlanTheorems.CountedExactlyOnceWhen | src/wallet-engine/wallet.ts:1948-2010 | a plan that ran to its last leg was counted at its first value leg, and nowhere else if and only if its last leg is not a Boltz exit or is that first leg; its spend was recorded there once and nowhere else if and only if its last leg is not a Boltz exit, or is that first leg and never failed between recording and sending |
| PlanWitness.DrawsDifferFromWhatWasHanded | src/wallet-engine/convert/intent.ts:711-727 | a run over an enumerated route in which a sale is handed and valued at 10,000,000 units and draws 10,005,000, and a lightning payment is handed 100,000 sats and draws 50,250 |
| PlanWitness.CountsTwice | src/wallet-engine/wallet.ts:1948-2010 | in that run, with nothing tampered with, the intent is counted and recorded at both legs |
| PlanTheorems.RecordIsKept | src/wallet-engine/convert/multihop.ts:398-442 | once a non-final leg is stored settled the record stays, unaltered unless tampered with, until the final leg was executed and settled, came back undelivered or was concluded, or the record failed authentication |
| PlanTheorems.NotRemovedWhileExecuting | src/wallet-engine/convert/multihop.ts:303-320 | no record is removed while a leg of its plan executes, except by the first leg's own failure on the direct path or for failing authentication |
| PlanTheorems.PlanResumes | src/wallet-engine/convert/multihop.ts:16-29 | from any reachable state, crashed or not, one recovery pass that is left alone executes the next leg of a plan that waits between legs, with the stored output of the leg before as its input |
| PlanReports.StoredWasReturned | src/wallet-engine/convert/multihop.ts:144-156 | in every reachable state what is stored of a leg that is not in flight carries the provider's id and the transactions of an earlier outcome of that leg's executor |
| PlanReports.SettledWasReported | src/wallet-engine/convert/multihop.ts:486-558 | a leg is stored settled with an amount only after its executor returned settled with that amount, or its provider answered that it delivered it |
| PlanReports.FinishedWasReported | src/wallet-engine/convert/multihop.ts:702-716 | a plan is closed as finished only after its last leg's executor returned settled or its provider answered that it delivered |
| PlanReports.ClosedWasReported | src/wallet-engine/convert/multihop.ts:398-403 | a plan is given up on only after a leg's executor returned refunded or failed, or its provider answered that it ended without delivering |
| PlanDriver.DrivePlan | src/wallet-engine/convert/multihop.ts:235-448 | starts exactly if the stored plan authenticates and has not started the leg; drives consecutive legs, each given what the one before really settled; as long as the record is kept it holds the provider's id, the transactions, the amount and the status every executed leg returned; reports how the last one ended, completes and removes the plan when every leg settles, and leaves in the file what a run of the machine's driver leaves |
| PlanDriver.DriveLeg | src/wallet-engine/convert/multihop.ts:244-444 | one turn of that loop: no execution without a successful claim, and the next leg is driven only after a settlement with a positive amount |
| PlanDriver.AfterReturn | src/wallet-engine/convert/multihop.ts:356-444 | stores the outcome with the executor's provider id and transactions and nothing else of the legs, then stops, removes, parks or goes on as the outcome's status demands, with the plan state of each |
| PlanDriver.AfterThrow | src/wallet-engine/convert/multihop.ts:303-354 | drops the plan for a first leg on the direct path; after a safe failure the leg is as if never started; otherwise the leg stays as it is and the plan waits for a human |
| PlanDriver.ResumeOnePlan | src/wallet-engine/convert/multihop.ts:604-728 | what a pass does in every case of the snapshot, and for every provider and answer whether it waits, takes the leg as settled with which amount, closes the plan or leaves it to a human; it never drives a leg its snapshot has started, and acts on the file as the machine's driver does |
| PlanDriver.StoreSettled | src/wallet-engine/convert/multihop.ts:702-707 | a leg found settled is stored with the reported amount under the provider id and transactions it had |
| PlanDriver.CarryOut | src/wallet-engine/convert/multihop.ts:637-680 | parks, closes or drives on as decided, each with its effect on the file |
| PlanDriver.StepsThenOne | src/wallet-engine/convert/multihop.ts:235-448 | a run of a driver followed by one more step is a run of that driver |
| PlanDriver.ChainClimbs | src/wallet-engine/convert/multihop.ts:244 | the legs a driver executes are consecutive from where it started |
| Withdrawals.PendingWithdrawals.PutRequested | src/wallet-engine/pending.ts:170-189 | the key holds the request as a `requested` record with nothing signed, and the mode and the fingerprint of the API key it was opened under; no other key changes |
| Withdrawals.PendingWithdrawals.MarkSigned | src/wallet-engine/pending.ts:211-221 | an authentic record becomes `signed` with these bytes, an absent one stays absent, a tampered one fails, no other key changes |
| Withdrawals.ActKeeps | src/wallet-engine/wallet.ts:2556-2734 | every action on a withdrawal, crashes and tampering included, keeps its invariant |
| Withdrawals.BroadcastsAreTheStoredBytes | src/wallet-engine/wallet.ts:2661-2734 | all broadcasts under one idempotency key are the same bytes; before the first one, in this order, the amount of the provider's answer was enforced, the bytes signed, that amount recorded and the bytes durably stored under the answer's id; nothing is signed after it |
| Withdrawals.StoredStateTellsBroadcasts | src/wallet-engine/wallet.ts:2200-2208 | a stored `requested` record has never been broadcast; a stored `signed` record holds the bytes of every broadcast so far |
| Withdrawals.SignedLeavesOnlyAfterBroadcast | src/wallet-engine/wallet.ts:2598-2603 | an authentic `signed` record leaves the store only after a broadcast of its bytes was accepted |
| Withdrawals.SignedIsRebroadcast | src/wallet-engine/wallet.ts:2200-2208 | a resume pass over a `signed` record broadcasts exactly the stored bytes under whichever key is active; the record always has them |
| Withdrawals.PostsReplayTheRequest | src/wallet-engine/wallet.ts:2209-2241 | every POST over all retries, crashes and resume passes carries the body the caller asked to withdraw, under a key with the fingerprint of the caller's key |
| Withdrawals.OlderRecordsReplayByMode | src/wallet-engine/wallet.ts:2217-2225 | a record from before fingerprints is replayed with its body, and only under a key of the mode it names, if it names one |
| Withdrawals.RequestedIsReposted | src/wallet-engine/wallet.ts:2209-2239 | a resume pass POSTs a `requested` record again under a key with the caller's fingerprint, and does nothing under any other or none |
| WithdrawalDriver.Pay | src/wallet-engine/wallet.ts:2078-2147 | the request is stored before the first POST, every POST carries it under the caller's key, a transient failure leaves it for a replay with the key's fingerprint, and what is stored is what a run of the machine leaves |
| WithdrawalDriver.PostAndProcess | src/wallet-engine/wallet.ts:2127-2146 | a transient failure keeps the record, a permanent rejection drops an unsigned one, an answer is processed |
| WithdrawalDriver.ProcessWithdrawResponse | src/wallet-engine/wallet.ts:2556-2621 | with everything in order the withdrawal is paid and its record gone; a refusal before signing leaves nothing to resume; a failed broadcast leaves exactly the signed record |
| WithdrawalDriver.BuildSignPersist | src/wallet-engine/wallet.ts:2661-2734 | bytes come back for broadcasting exactly when every stage passed and the record authenticated, and they are then the stored ones |
| WithdrawalDriver.BroadcastAndRemove | src/wallet-engine/wallet.ts:2597-2603 | the record goes only after the broadcast was accepted |
| WithdrawalDriver.DiscardIfUnsigned | src/wallet-engine/wallet.ts:2642-2653 | drops a `requested` record and leaves a signed or tampered one |
| WithdrawalDriver.ResumeRecord | src/wallet-engine/wallet.ts:2195-2260 | a signed record is re-broadcast and dropped once accepted; a requested one is POSTed under a key that may replay it, and left alone under any other |
| Guardrails.KeptTotal | src/wallet-engine/guardrails/guardrails.ts:297-306 | what enforcement reads as used is the sum recorded in the window that ends now |
| Guardrails.LaterWindowHoldsLess | src/wallet-engine/guardrails/guardrails.ts:370-375 | a window that ends later, with nothing recorded in between, holds no more |
| Guardrails.AppendWithinLimits | src/wallet-engine/guardrails/guardrails.ts:216-226 | a spend that fits the window ending now fits every rolling window |
| Guardrails.ActKeeps | src/wallet-engine/guardrails/guardrails.ts:248-283 | every step of every operation, crash and file attack keeps the limits, the file's agreement with the history and the log's order |
| Guardrails.SpendStaysWithinLimits | src/wallet-engine/wallet.ts:1599-1660 | over any interleaving of sends, lockups and withdrawals, what was recorded in any rolling 24 hours is within the daily limit; the history is exactly what the operations recorded, each at most once; each broadcasts at most once, after it was enforced and recorded as an entry of that history |
| Guardrails.SectionsExclude | src/wallet-engine/wallet.ts:1592-1599 | at most one operation is past its admission to the choke point |
| Guardrails.OnlyTheNewestFileIsBelieved | src/wallet-engine/guardrails/guardrails.ts:308-375 | in every reachable state enforcement admits exactly the amounts that the limits leave room for in the true history, and once anything was recorded only while the newest file is in place |
| Guardrails.SpendGoesThrough | src/wallet-engine/wallet.ts:1599-1660 | from every reachable state with the mutex free an admitted spend is enforced, recorded and broadcast |
| Guardrails.FirstSpendGoesThrough | src/wallet-engine/guardrails/guardrails.ts:318-328 | the first spend of a fresh wallet that fits the limits goes through |
| PromiseMutex.ChainRefinesLock | src/wallet-engine/mutex.ts:16-33 | every action of the event loop on the chain is a step of a first-in-first-out lock or leaves it as it is |
| PromiseMutex.SectionsAreExclusive | src/wallet-engine/mutex.ts:16-33 | sections start in call order, each once, two never run at once, and a caller's promise settles exactly with its own section's outcome |
| PromiseMutex.QueueNeverWedges | src/wallet-engine/mutex.ts:25-31 | a section that ended, also by rejecting, never blocks the next |
| Throttle.FreshIsRecentEnd | src/wallet-engine/api/throttle.ts:69 | the filtered timestamps are the recent end of the list, and what is dropped has aged out |
| Throttle.AcquireKeepsSpacing | src/wallet-engine/api/throttle.ts:70-74 | taking a slot while fewer than the limit are fresh keeps any limit + 1 consecutive acquisitions at least a window apart |
| Throttle.AgesOut | src/wallet-engine/api/throttle.ts:76-78 | after the computed wait a slot is free, whenever the caller comes back |
| Throttle.Throttle.Attempt | src/wallet-engine/api/throttle.ts:66-80 | one turn between two awaits keeps the spacing of every bucket's whole history, takes a slot exactly when one is free, touches no other bucket, and otherwise returns a wait that suffices |
| Throttle.Throttle.Acquire | src/wallet-engine/api/throttle.ts:66-80 | an uncontended caller sleeps at most once |
| Coins.SelectCoinsGreedy | src/wallet-engine/wallet.ts:681-699 | takes a sub-multiset whose total covers the target if and only if the whole list does, and no proper prefix of it covers |
| Coins.OrderCoins | src/wallet-engine/wallet.ts:685-690 | confirmed first, then largest first among the confirmed and among the others, the same coins |
| Coins.LargestDominate | src/wallet-engine/wallet.ts:685-690 | of all ways to take k of some coins the k largest sum highest |
| Coins.GreedyIsFewestConfirmed | src/wallet-engine/wallet.ts:681-699 | if some confirmed coins cover the target the selection holds confirmed coins only, and no more of them than any confirmed choice that covers |
| ApiRetry.Request | src/wallet-engine/api/client.ts:443-529 | every request of a call carries the same key, idempotency key and body; the call stops at the first answer that is final or out of budget, returns that answer, and waits as prescribed after every other |
| ApiRetry.Weigh | src/wallet-engine/api/client.ts:474-527 | one answer ends the call exactly when the budget of its kind is used up, and otherwise costs one retry of its kind |
| ApiRetry.AnswersAreWeighed | src/wallet-engine/api/client.ts:474-527 | network failures and server errors are retried three times after one, two and four seconds, rate limits twice after the asked-for wait or half a minute, requests in flight three times after the asked-for wait or five seconds, nothing else |
| ApiRetry.AtMostNineSends | src/wallet-engine/api/client.ts:443-529 | whatever the provider answers, a call ends within nine requests |
| ApiRetry.NineSendsHappen | src/wallet-engine/api/client.ts:45-47 | nine requests do happen |
| GatewayRetry.Request | src/apiClient.ts:171-300 | the loop is the recursive definition of a call that the results below are about |
| GatewayRetry.AttemptsShape | src/apiClient.ts:205-297 | requests are sleeps plus renewals plus one; no sleep exceeds the limit; at most one renewal, answering a 401; the renewed token is used from then on |
| GatewayRetry.SleepsAreWaits | src/apiClient.ts:284-317 | every sleep is exactly what the answer before it asks for: the Retry-After in milliseconds, which fits the limit, or the backoff of that attempt |
| GatewayRetry.BackoffDoubles | src/apiClient.ts:302-304 | the backoff starts at a second and doubles with every attempt up to the limit |
| GatewayRetry.CallGoesOnExactlyWhen | src/apiClient.ts:205-297 | the call goes on after a request exactly if it was answered by the first 401 of a renewable session, or, for a request safe to retry with attempts left, by a network failure or an error marked for automatic retry whose wait fits; and it ends as its last answer says |
| GatewayRetry.EndsWithItsAnswer | src/apiClient.ts:210-296 | the call returns data exactly when its last answer was good, and no earlier one was |
| GatewayRetry.CallIsBounded | src/apiClient.ts:205-299 | at most maxAttempts + 1 requests, that many only with a renewal, and the throw after the loop exactly when maxAttempts is below 1 |
| GatewayRetry.UnsafeSentOnce | src/apiClient.ts:199-203 | a request that is not safe to retry is sent twice if and only if its first answer was a 401 followed by a renewal |
| GatewayRetry.RenewalKeepsBudgetWhen | src/apiClient.ts:206-210 | a call that gives up has used its whole transient budget if and only if its session cannot be renewed or none of its first maxAttempts - 1 requests is answered with a 401 |
| GatewayRetry.RenewalCostsARetry | src/apiClient.ts:206-210 | an input on which a renewal costs a retry |
| WaitLoop.RunWaitLoop | src/tools/wait.ts:65-137 | at most ceil(timeout / interval) polls if and only if the budget is positive or the client was gone at once, and never more than one otherwise; ends by the deadline but for what the last round took; terminal exactly if the last poll is; a timed-out result carries the last observed, non-empty, non-terminal status; nothing terminal or fatal is passed over; progress exactly at status changes |
| WaitLoop.StatusesMean | src/tools/wait.ts:18-25 | which statuses end the wait, and the stage each is reported as |
| WaitLoop.Turn | src/tools/wait.ts:93-136 | one turn either ends with a result its polls justify or advances the clock by an interval with the deadline still ahead |
| BigintJson.RoundTrip | src/wallet-engine/convert/plan-store.ts:33-42 | reviving an encoded value gives back the value, unset entries normalised, if and only if no record in it has a text under `__bigint` |
| BigintJson.BigIsMarked | src/wallet-engine/convert/plan-store.ts:33-35 | a big integer is written as its decimal notation under `__bigint` |
| BigintJson.DecimalRoundTrip | src/wallet-engine/convert/plan-store.ts:33-42 | reading back the decimal notation of any integer, negative ones included, gives the integer |
| ReceiveIndex.IndexAllocator.Allocate | src/wallet-engine/wallet.ts:1349-1364 | an index is handed out only above every earlier one and below the persisted counter, whatever step fails; it is the counter's unless the chain has used it, so none is passed over |
| ReceiveIndex.IndexAllocator.Reopen | src/wallet-engine/wallet.ts:2943-2947 | a restart keeps every handed-out index below the counter |

## Left out

- Cross-process races: the directory lock excludes them; its file is not part of this model.
- PlanTheorems.DrawsWithinItsValue: a leg's order, the transaction built for it and its enforcement, whose order differs between legs, are one step.
- PlanDriver.DrivePlan: runs without interruption; interleaving, stops and crashes are in `PlanMachine`, whose steps it takes.
- PlanDriver.ResumeOnePlan: takes the provider's answer as a parameter, and a failed removal, which the code swallows, is the machine's `Stop` before the removal.
- WithdrawalDriver.ProcessWithdrawResponse: runs without interruption; crashes and tampering between its steps are in `Withdrawals`.
- Withdrawals.BroadcastsAreTheStoredBytes: drivers of one record do not overlap; the code serialises only the sign section.
- Guardrails.SpendStaysWithinLimits: spends of hook-routed conversion legs that skip the ceilings are not sections of this machine; `PlanTheorems.SkippedOnlyAfterCounted` is about them.
- GatewayRetry.Request: an abort during a sleep, and the key and origin checks before the first request.
- WaitLoop.RunWaitLoop: time passes only during polls, notifications and sleeps.
- BigintJson.RoundTrip: works on value trees; printing and parsing JSON text, and number formats, are the runtime's.
- ReceiveIndex.IndexAllocator.Allocate: the scan hint and calls with an explicit index.
- Throttle.Throttle.Acquire: with other callers on the bucket a caller may have to come back any number of times; only the spacing is claimed then.
- Cryptography (AES-GCM, Argon2id, Ed25519, HMAC, SHA-256): an envelope authenticates or does not.
- Transaction building, signing, sync, and the transports of Boltz, SideSwap, SideShift and Esplora: nondeterministic outcomes; what the leg executors may return is `Multihop.MayReturn`.
- Liveness of recovery: some parked and probed plans wait for a human or a provider by design.
- Operator notes, next-step texts, logs, transaction-id lists in results, the recovery summaries' counters and the queue of recovery passes.
- The destination allowlist, `planSendMany` and BRL valuation: checks on one call's own arguments.
- The MCP surface: tool registration, schemas, response normalisers, error texts, login pages.
