# Verified model of the Mandaria delivery backend

Mandaria prices, dispatches and settles local deliveries for integrated clients. This project models
its four connected state machines and its one pure engine in Dafny 4.11 and proves what they keep over
every run. `dafny verify dfyconfig.toml` checks it all.

| module | what it models |
|---|---|
| `ConsumptionPolicy`, `PermitLedger` | permits to use routing: four limits at once, sliding windows, bounded lazy recovery |
| `CanonicalJson`, `PrequoteConditions`, `PrequoteStore` | the text behind a fingerprint; canonical request form; leased, fenced, bounded execution of a priced offer |
| `PrequoteWorld`, `PrequotesService` | every `create` of every backend at once around the routing call; and one call as it is written |
| `Webhooks` | the leased at-least-once delivery worker, its backoff and the rescue of exhausted rows |
| `CreditLedger` | append-only credit accounts: idempotent movements, awards and refunds |
| `DispatchPolicy`, `DispatchEconomy` | who may win a dispatch, and what winning, losing and delivering it does to the accounts |
| `RefundLimit`, `AwardedCosts` | a reversal that the maximum balance refuses; policies and economics in one run |
| `Fleet`, `FleetServices` | delivery assignments, driver-vehicle pairings, completion, outbox and public status |
| `CreditPolicyEngine`, `CreditPolicies` | validation and cost of a policy; gap-free versions and frozen snapshots |
| `Conversion`, `ConversionServices` | single-use conversion, attested acceptance, and the older quote and accept routes |

How it is built:

- A transaction that holds its row or advisory locks is one atomic step, a function from tables to
  tables and an answer. `Run` applies any sequence of steps: that is any interleaving, with crashes,
  lost processes and the clock moving on between them. `Sound` is the invariant every step keeps, with
  one lemma for each kind of step, and the main results hold after every run.
- Services that update rows in place are classes. Each of their methods promises exactly the new tables
  and the answer of its step, so what is proved of the steps is proved of the methods.
- One database clock never goes back. The hash has no collisions, so what is hashed stands for its
  hash; that the hashed text tells requests apart is proved. Fresh identifiers come from a counter, or
  are given and refused when taken.
- Outside answers are parameters: routing and pricing outcomes, authorisation, eligibility, documents,
  HTTP replies, feature switches.

Results that came out different from the documentation or from what one would expect:

- The comment on the rescue (src/b2b-webhooks/webhook-operations.service.ts:233-237) says it buys one
  more attempt. The code does so exactly when at least four attempts were made; a row that a receiver
  refused outright gets up to the remaining retries. `Webhooks.RescueBuysOneIff` states both directions.
- A driver of a fleet may also be approved to work alone, and a take reads no pairing
  (src/independent-drivers/independent-dispatches.service.ts:540-586). So a row in progress can
  contradict an open pairing; it does exactly when the taken vehicle or the driver is paired otherwise
  (`Fleet.TakeKeepsAgreementIff`), and nothing else ever makes one (`Fleet.RunsAgreeIff`). Fleet rows
  never do.
- A refund can be refused: returning credits to an account near the maximum balance fails the whole
  release or cancellation (src/credits/service-refund.ts:126-131). It does exactly when something is owed
  and the balance with it exceeds the maximum (`DispatchEconomy.RefundIsRefusedIff`, `ReleaseIsRefusedIff`,
  `GiveBackIsRefusedIff`); a cancellation, exactly when all it returns to some account does
  (`CancelIsRefusedIff`). `RefundLimit.AReleaseCanBeRefused` reaches such a state.

## Model

| member | source | states |
|---|---|---|
| `ConsumptionPolicy.ValidateConsumptionLimits` | src/delivery-prequotes/consumption-policy.ts:14-27 | the table-driven check accepts exactly the limits inside all seven bounds |
| `ConsumptionPolicy.ProtectionCoversSchedule` | src/delivery-prequotes/consumption-policy.ts:11-13 | for every retry count the closed formula equals the summed timeout-and-backoff schedule plus 15 s |
| `ConsumptionPolicy.FirstAdmissibleSplits` | src/delivery-prequotes/consumption-policy.ts:44-87 | the least admissible instant splits the future: all four limits admit at t exactly from that instant on |
| `ConsumptionPolicy.AvailableAt` | src/delivery-prequotes/consumption-policy.ts:29-42 | sorting the entries in place and draining them answers the least instant that leaves room, or never exactly when the need alone exceeds the limit; the entries are only permuted |
| `ConsumptionPolicy.QuotaAvailableAt` | src/delivery-prequotes/consumption-policy.ts:59-79 | for one quota, the least instant from now on at which it has room on these rows |
| `ConsumptionPolicy.ConsumptionRetryAt` | src/delivery-prequotes/consumption-policy.ts:44-87 | absent exactly when all four limits admit now, otherwise the least later instant at which all four would, always finite |
| `PermitLedger.ProjectionIsExact` | src/delivery-prequotes/durable-prequote-consumption.ts:74-107 | the decision and the retry instant computed from the filtered rows after a recovery capped at any batch equal those of the whole unrecovered ledger |
| `PermitLedger.AdmissionIsExact` | src/delivery-prequotes/durable-prequote-consumption.ts:70-133 | on every reachable ledger an admission is granted exactly when all four limits have room on the whole ledger, else the least instant is named |
| `PermitLedger.WindowSafety` | src/delivery-prequotes/durable-prequote-consumption.ts:67-245 | after any run, at every instant, starts per minute and per day, protected slots and everybody's weighted units stay within the pinned limits |
| `PermitLedger.AdmitFreesNothing` | src/delivery-prequotes/durable-prequote-consumption.ts:76-92 | admission and its recovery leave every consumption, past or present, as it was |
| `PermitLedger.FinishFreesOnlyAReservation` | src/delivery-prequotes/durable-prequote-consumption.ts:210-245 | finishing a started permit frees nothing; cancelling a reservation frees its own hold and no more |
| `PermitLedger.StartConsumesOnce` | src/delivery-prequotes/durable-prequote-consumption.ts:156-186 | a start adds exactly its own share, and at once the same permit cannot start again |
| `PermitLedger.StartedNeverRestarts` | src/delivery-prequotes/durable-prequote-consumption.ts:156-186 | after any later run, no start of a started permit succeeds, by anyone and at any time |
| `PermitLedger.DurablePrequoteConsumption.Admit` | src/delivery-prequotes/durable-prequote-consumption.ts:67-155 | new ledger and answer are those of the admission step |
| `PermitLedger.DurablePrequoteConsumption.RecoverLapsed` | src/delivery-prequotes/durable-prequote-consumption.ts:76-92 | the loop relabels the first hundred lapsed rows in id order, RESERVED to EXPIRED and STARTED to ABANDONED |
| `PermitLedger.DurablePrequoteConsumption.StartPermit` | src/delivery-prequotes/durable-prequote-consumption.ts:156-186 | starts only a live reservation of the caller under the same limits, stamping grace and protection |
| `PermitLedger.ReadyIsExact` | src/delivery-prequotes/durable-prequote-consumption.ts:187-209 | readiness holds exactly when some row is that permit, of that owner, started, with its start window open, on a backend enabled and configured as the ledger |
| `PermitLedger.DurablePrequoteConsumption.FinishPermit` | src/delivery-prequotes/durable-prequote-consumption.ts:210-245 | closes a reservation as CANCELLED and a start as FINISHED with its report, and repeats quietly |
| `PrequoteConditions.NormalizeKeepsPackages` | src/delivery-prequotes/prequote-conditions.ts:35-117 | the canonical form keeps the multiset of packages sent, with defaults filled in |
| `PrequoteConditions.NormalizeIsIdempotent` | src/delivery-prequotes/prequote-conditions.ts:35-117 | normalising a canonical form gives it back |
| `PrequoteConditions.NormalizeIsCanonical` | src/delivery-prequotes/prequote-conditions.ts:35-117 | two accepted inputs normalise equally if and only if they have the same two stops and the same multiset of packages |
| `PrequoteConditions.PackagesDiffer` | src/delivery-prequotes/prequote-conditions.ts:104-110 | packages that validation lets through have the same canonical JSON only if they are the same, so the order by it is the only one |
| `PrequoteConditions.FingerprintsMatchIff` | src/idempotency/idempotency.service.ts:25-28 | two accepted requests hash the same text if and only if they are for the same operation, the same two stops and the same packages, in whatever order they came |
| `CanonicalJson.CanonicalJsonIsInjective` | src/idempotency/idempotency.service.ts:14-24 | two JSON values have the same canonical text if and only if they are the same value, the order of object keys apart |
| `CanonicalJson.FingerprintsTellRequestsApart` | src/idempotency/idempotency.service.ts:25-28 | the hashed text is the same if and only if operation and payload are |
| `PrequoteStore.OneOfferPerKey` | src/delivery-prequotes/prequote-persistence.service.ts:110-340 | over any interleaving a (client, key) has at most one offer, and one exactly when its execution SUCCEEDED; attempts never exceed the stored bound |
| `PrequoteStore.RunMovesForward` | src/delivery-prequotes/prequote-persistence.service.ts:110-340 | versions only grow; a terminal execution and its offer never change |
| `PrequoteStore.SupersededCannotWrite` | src/delivery-prequotes/prequote-persistence.service.ts:221-340 | after any run, a holder of an older version can neither fail nor publish the record, nor pass the fence |
| `PrequoteStore.AcquisitionFences` | src/delivery-prequotes/prequote-persistence.service.ts:128-218 | a lease just acquired is the only one that passes the fence and is newer than every earlier one |
| `PrequoteStore.InspectPredictsReserve` | src/delivery-prequotes/prequote-persistence.service.ts:55-96 | for a valid key and policy on one state and clock, available is seen exactly when reserve acquires, and every other answer agrees |
| `PrequoteStore.BudgetOutlastsOthers` | src/delivery-prequotes/prequote-persistence.service.ts:98-108 | whatever everybody else does in the meantime, a granted budget keeps its holder passing the fence at every instant of the time it asked for |
| `PrequoteStore.PrequotePersistenceService.Inspect` | src/delivery-prequotes/prequote-persistence.service.ts:55-96 | reads only, and foretells what a reservation under any valid policy would answer now |
| `PrequoteStore.PrequotePersistenceService.RequireRoutingBudget` | src/delivery-prequotes/prequote-persistence.service.ts:98-108 | holds exactly when the holder passes the fence at every instant of the time asked for |
| `PrequoteStore.PrequotePersistenceService.Reserve` | src/delivery-prequotes/prequote-persistence.service.ts:110-218 | insert-or-find, then acquire, replay, refuse or exhaust, with the whole new state |
| `PrequoteStore.PrequotePersistenceService.Fail` | src/delivery-prequotes/prequote-persistence.service.ts:242-263 | only the fenced holder fails its record, retryably only while attempts remain |
| `PrequoteStore.PrequotePersistenceService.Publish` | src/delivery-prequotes/prequote-persistence.service.ts:265-340 | the fence is checked on entry, after pricing and after the insert; offer and SUCCEEDED are written together or not at all |
| `PrequoteWorld.RoutingStaysWithinSlots` | src/delivery-prequotes/prequotes.service.ts:129-305 | whatever the interleaving, crashes and number of backends, routing calls of one integration in flight never exceed the concurrent limit |
| `PrequoteWorld.LeaseOutlivesRouting` | src/delivery-prequotes/prequotes.service.ts:192-218 | when routing returns, the call still owns its lease |
| `PrequoteWorld.RouteEndsInTime` | src/delivery-prequotes/consumption-policy.ts:11-13 | a route begun within 10 s of readiness ends before both its permit's protection and its lease |
| `PrequoteWorld.CallsPerKeyAreBounded` | src/delivery-prequotes/prequotes.service.ts:142-218 | a key routes at most maxAttempts times over its life, each time on a distinct started permit |
| `PrequoteWorld.LostPublicationIsFound` | src/delivery-prequotes/prequotes.service.ts:276-291 | when the answer to a publication is lost, then whatever happens next no failure can be recorded, and every later look finds the very offer that was written |
| `PrequotesService.PrequotesService.Create` | src/delivery-prequotes/prequotes.service.ts:129-305 | one call, step by step: nothing of it stays in progress, it routes at most once, success is only answered with the offer stored for the key, and an offer it published is answered also when the answer to the commit was lost |
| `PrequotesService.PrequotesService.Attempt` | src/delivery-prequotes/prequotes.service.ts:155-288 | from admission to the point where only the permit is left to finish, with the flags it will report |
| `PrequotesService.PrequotesService.Work` | src/delivery-prequotes/prequotes.service.ts:171-254 | pricing, permit, budget, readiness, one route, publication; a failure anywhere leaves the call to be abandoned |
| `PrequotesService.PrequotesService.Abandon` | src/delivery-prequotes/prequotes.service.ts:255-289 | records the failure; where an offer was stored after all, no failure is recorded and that offer is answered, if still authorized |
| `PrequotesService.ServiceStaysWithinLimits` | src/delivery-prequotes/prequotes.service.ts:129-305 | every history of the service is a run of the composed protocol, so its routing stays within slots and attempts |
| `Webhooks.NoTwoLiveHolders` | src/b2b-webhooks/b2b-webhooks.service.ts:219-288 | whatever crashes, no handover has two live holders |
| `Webhooks.AttemptsAreNumbered` | src/b2b-webhooks/b2b-webhooks.service.ts:338-396 | tracked attempts of a handover are exactly 1..attemptCount, in order |
| `Webhooks.RowsAreWellFormed` | src/b2b-webhooks/b2b-webhooks.service.ts:338-396 | PENDING exactly when a next attempt is set; DELIVERED has a stamp, no exhausted stamp and a successful attempt in its history |
| `Webhooks.NothingIsLost` | src/b2b-webhooks/b2b-webhooks.service.ts:219-274 | after any run, an eligible event is terminal or can be leased from some instant on |
| `Webhooks.LeaseTakesOne` | src/b2b-webhooks/b2b-webhooks.service.ts:226-273 | one pickup removes one candidate and no other |
| `Webhooks.DrainReachesEverything` | src/b2b-webhooks/b2b-webhooks.service.ts:193-202 | repeated pickups lease every candidate exactly once and leave none |
| `Webhooks.FiveAttemptsAtMost` | src/b2b-webhooks/webhook-retry-policy.ts:11-78 | without a rescue a handover makes at most five attempts and is terminal after the fifth |
| `Webhooks.RescueBuysFew` | src/b2b-webhooks/webhook-operations.service.ts:241-262 | a rescue at n attempts buys at most max(1, 5 - n) more, and exactly one when the retries had run out |
| `Webhooks.RescueBuysOneIff` | src/b2b-webhooks/webhook-operations.service.ts:233-237 | the documented "one more attempt" is what the code does if and only if at least four attempts were made |
| `Webhooks.RescueMayBuyMore` | src/b2b-webhooks/webhook-operations.service.ts:233-237 | a reachable handover with one attempt made, to which the documented claim does not apply |
| `Webhooks.OnlySuccessDelivers` | src/b2b-webhooks/webhook-retry-policy.ts:39-78 | an attempt delivers exactly when it succeeded, whatever the status or failure |
| `Webhooks.B2bWebhooksService.FindDue` | src/b2b-webhooks/b2b-webhooks.service.ts:227-239 | the longest-due tracked row nobody holds, if any |
| `Webhooks.B2bWebhooksService.FindFresh` | src/b2b-webhooks/b2b-webhooks.service.ts:247-260 | the oldest eligible event with no transport state, if any |
| `Webhooks.B2bWebhooksService.Lease` | src/b2b-webhooks/b2b-webhooks.service.ts:219-274 | tracked work first, else a new event; the row takes the lease, or nothing was a candidate |
| `Webhooks.B2bWebhooksService.Record` | src/b2b-webhooks/b2b-webhooks.service.ts:338-396 | attempt and transport state are written together |
| `Webhooks.B2bWebhooksService.Push` | src/b2b-webhooks/b2b-webhooks.service.ts:460-486 | what a manual push may do and the lease it takes |
| `Webhooks.B2bWebhooksService.Rescue` | src/b2b-webhooks/webhook-operations.service.ts:241-262 | EXHAUSTED becomes PENDING and due now, every other row is left alone and said so |
| `Webhooks.B2bWebhooksService.Drain` | src/b2b-webhooks/b2b-webhooks.service.ts:193-202 | the tables are those of handing over the picks in order; stopping early means no candidate was left |
| `Webhooks.B2bWebhooksService.Tick` | src/b2b-webhooks/b2b-webhooks.service.ts:185-191 | a stopped service does nothing; a running one stamps the poll and drains |
| `CreditLedger.LedgerIsAChain` | src/credits/credit-accounts.service.ts:188-289 | after any mix of movements, awards and refunds every account chains without a gap from 0 to its balance, inside every limit, and balances add up to entries |
| `CreditLedger.KeysMoveOnce` | src/credits/credit-accounts.service.ts:188-333 | for any interleaving each (account, key) has at most one entry, each success holds that entry for its own request, and at most one was not a replay |
| `CreditLedger.OnlyTheFirstMoves` | src/credits/credit-accounts.service.ts:213-254 | a committing call writes one entry when it answers first and nothing otherwise; its sum stays in 32 bits; its key then replays |
| `CreditLedger.NoSumOverflows` | src/credits/credit-policy.ts:4-10 | no sum that an award or a refund computes leaves 32 bits, also when it is then refused |
| `CreditLedger.UsedKeyIsSettled` | src/credits/credit-accounts.service.ts:307-333 | once a key is used, whatever runs later, the same request gets its entry and any other is refused at both looks |
| `CreditLedger.ServiceEntriesAreAnAwardAndItsRefund` | src/credits/service-refund.ts:70-181 | one account's entries for one dispatch are none, one award, or one award and its exact opposite |
| `CreditLedger.CreditAccountsService.Move` | src/credits/credit-accounts.service.ts:188-289 | the unlocked look, then the locked one, with the whole new ledger |
| `CreditLedger.CreditAccountsService.ChargeDispatchAward` | src/credits/service-award.ts:64-156 | debits the frozen cost of the winner's account or refuses with the ledger unchanged |
| `CreditLedger.CreditAccountsService.RefundDispatchAward` | src/credits/service-refund.ts:70-181 | returns the award actually charged, once, to the account that paid, or says why nothing is owed |
| `DispatchPolicy.OnlyOpenIsWon` | src/dispatch/dispatch-policy.ts:76-110 | only an OPEN dispatch inside its window can be won, and not by whoever gave it back |
| `DispatchEconomy.NetIsTheHoldersFrozenCost` | src/credits/service-award.ts:64-156 | over any run, an account's net for a dispatch is minus the frozen cost exactly for the enforced holder or deliverer, and 0 for all others |
| `DispatchEconomy.RefundsMirrorAwards` | src/credits/service-refund.ts:87-153 | every refund is the opposite of the earlier award it points at, on the same account and dispatch |
| `DispatchEconomy.RefundReturnsWhatIsOwed` | src/credits/service-refund.ts:87-153 | a reversal writes one entry of exactly what is owed, or nothing when nothing is; it never meets a missing charge |
| `DispatchEconomy.RefundIsRefusedIff` | src/credits/service-refund.ts:126-132 | returning a holder's credits is refused exactly when something is owed and balance and debt together exceed the maximum balance, and for no other reason |
| `DispatchEconomy.ReleaseIsRefusedIff` | src/dispatch/dispatch.service.ts:296-366 | a holding provider's release with no delivery under way is refused exactly when its refund would overfill its account, and then nothing changes |
| `DispatchEconomy.GiveBackIsRefusedIff` | src/independent-drivers/independent-dispatches.service.ts:315-395 | a holding driver's release is refused exactly when its refund would overfill its account, and then nothing changes |
| `DispatchEconomy.CancelIsRefusedIff` | src/dispatch/dispatch-policy.ts:219-288 | an official cancellation of a request's rows is refused exactly when what it returns to some account, all rows together, would overfill it, and then nothing changes |
| `RefundLimit.AReleaseCanBeRefused` | src/credits/service-refund.ts:126-132 | a run of a claim and a thousand recharges reaches a holder whose release is refused |
| `DispatchEconomy.ChargeTakesTheFrozenCost` | src/credits/service-award.ts:70-127 | an actor that never won the dispatch is charged its frozen cost; the one-award index never fires |
| `DispatchEconomy.NewWinnersAreNotExempt` | src/credits/award-boundary.ts:19-43 | a new award is enforced on a monetised dispatch even where an older one was exempt |
| `DispatchEconomy.ClaimIsSound` | src/dispatch/dispatch.service.ts:204-260 | a claim keeps every account settled and never meets the award index |
| `DispatchEconomy.TakeIsSound` | src/independent-drivers/independent-dispatches.service.ts:197-275 | a take keeps every account settled and never meets the award index |
| `DispatchEconomy.ReleaseIsSound` | src/dispatch/dispatch.service.ts:296-366 | a provider's release keeps every account settled and never finds a missing charge |
| `DispatchEconomy.GiveBackIsSound` | src/independent-drivers/independent-dispatches.service.ts:315-395 | a driver's release keeps every account settled and never finds a missing charge |
| `DispatchEconomy.CancelIsSound` | src/dispatch/dispatch-policy.ts:219-288 | an official cancellation of any number of rows keeps every account settled, or is refused and rolls back whole |
| `DispatchEconomy.DeliverIsSound` | src/deliveries/delivery-completion.ts:87-99 | a delivery keeps every account settled and moves no credit |
| `DispatchEconomy.FrozenCostsStay` | src/credits/service-award.ts:53-56 | what was frozen at the opening never changes and a delivered dispatch is final |
| `DispatchEconomy.CancelledRequestsAreNotOperational` | src/dispatch/dispatch-policy.ts:213-218 | no run leaves a cancelled request with an operational dispatch |
| `DispatchEconomy.WinningCosts` | src/dispatch/dispatch.service.ts:204-260 | under enforcement a claim or a take debits exactly the frozen cost from the winner, and one that cannot be paid changes nothing |
| `AwardedCosts.HoldersPayTheVersionInForce` | src/credits/service-award.ts:53-127 | over any run of openings, new policy versions, wins, reversals and deliveries, the enforced holder or deliverer has netted minus what the version ACTIVE just before the opening charges, everybody else 0 |
| `Fleet.NobodyIsInTwoPlaces` | src/delivery-assignments/delivery-assignments.service.ts:60-191 | over any run at most one ACTIVE row per dispatch, driver and vehicle, its dispatch claimed by its owner, fleet rows agreeing with open pairings, independent claims never without a row |
| `Fleet.PairingsAreOneToOne` | src/assignments/assignments.service.ts:60-152 | at most one open pairing per driver and per vehicle |
| `Fleet.TakeKeepsAgreementIff` | src/independent-drivers/independent-dispatches.service.ts:540-586 | a take, which reads no pairing, keeps every row in agreement with the pairings if and only if driver and vehicle conflict with none |
| `Fleet.StepKeepsAgreementIff` | src/delivery-assignments/delivery-assignments.service.ts:404-460 | of all the steps only a take whose driver or vehicle is paired otherwise ever breaks the agreement of rows and pairings |
| `Fleet.RunsAgreeIff` | src/assignments/assignments.service.ts:29-117 | rows and pairings agree throughout a run if and only if no successful take of it met such a pairing |
| `Fleet.IndependentWorkMayContradictAPairing` | src/independent-drivers/independent-dispatches.service.ts:540-586 | a reachable take by a paired driver that contradicts its pairing |
| `Fleet.ClosedRowsNeverChange` | src/delivery-assignments/delivery-assignments.service.ts:99-191 | closed rows, closed pairings and events read the same forever; open ones keep who, what and when |
| `Fleet.DeliveredMeansOneRowAndOneEvent` | src/deliveries/delivery-completion.ts:100-160 | a dispatch is DELIVERED exactly when it has one COMPLETED row and one outbox event, all with one timestamp |
| `Fleet.CompletingAgainWritesNothing` | src/deliveries/delivery-completion.ts:110-118 | after a completion and anything else, completing again writes nothing, and only the holder is told it was done |
| `Fleet.DeliveredForever` | src/deliveries/delivery-status.ts:139-189 | once delivered the public view reads DELIVERED in every later state and at every time, and equals the payload the event froze |
| `Fleet.CancelledRequestsRest` | src/dispatch/dispatch-policy.ts:219-288 | a cancelled request has no operational dispatch and no active row |
| `Fleet.CompleteIsSound` | src/b2b-events/b2b-outbox.ts:65-93 | completion keeps rows, dispatch and event consistent in one transaction |
| `FleetServices.CancelActiveAssignments` | src/delivery-assignments/delivery-assignments.service.ts:511-540 | the loop ends exactly the active rows of the given dispatches |
| `FleetServices.DeliveryAssignmentsService.LockEligibleResources` | src/delivery-assignments/delivery-assignments.service.ts:404-460 | none exactly when driver and vehicle are in order with the provider, no other active row has either, and every open pairing has both or neither; else the first reason in check order |
| `FleetServices.DeliveryAssignmentsService.Create` | src/delivery-assignments/delivery-assignments.service.ts:60-90 | one new row, or the refusal with the tables unchanged |
| `FleetServices.DeliveryAssignmentsService.Reassign` | src/delivery-assignments/delivery-assignments.service.ts:99-161 | the old row closes and the new one opens together, after the new resources were checked |
| `FleetServices.DeliveryAssignmentsService.Cancel` | src/delivery-assignments/delivery-assignments.service.ts:164-191 | the active row ends and nothing else changes |
| `FleetServices.AssignmentsService.AssertNoDeliveryAssignment` | src/assignments/assignments.service.ts:29-46 | the scan answers free exactly when no active row names the driver or the given vehicle |
| `FleetServices.AssignmentsService.Assign` | src/assignments/assignments.service.ts:60-117 | opens a pairing only between free, eligible resources, reporting the driver's conflict first |
| `FleetServices.AssignmentsService.Unassign` | src/assignments/assignments.service.ts:120-152 | closes the driver's open pairing, never before it was opened |
| `FleetServices.CompleteDelivery` | src/deliveries/delivery-completion.ts:100-160 | three ordered writes, or none |
| `FleetServices.RecordDeliveryCompleted` | src/b2b-events/b2b-outbox.ts:65-93 | appends one event; for a dispatch just delivered its payload reads DELIVERED at the event's own time and is what the public view answers from then on at any time |
| `CreditPolicyEngine.AcceptedIffPartition` | src/credit-policies/credit-policy-engine.ts:120-178 | ranges in any order are accepted exactly when there are 1 to 50, each well formed, and every distance lies in exactly one |
| `CreditPolicyEngine.FindRangeIsTotal` | src/credit-policies/credit-policy-engine.ts:209-220 | accepted ranges answer for every distance with the one range that contains it |
| `CreditPolicyEngine.OrderDoesNotMatter` | src/credit-policies/credit-policy-engine.ts:81-178 | the same ranges in another order are accepted alike and answer alike |
| `CreditPolicyEngine.CostNeverFindsCorruption` | src/credit-policies/credit-policy-engine.ts:230-301 | under an accepted configuration the only refusals are a non-distance and a product above the limit; the cost is whole and in range, 0 only for PER_KM with minimum 0 at 0 m |
| `CreditPolicyEngine.CostMeans` | src/credit-policies/credit-policy-engine.ts:230-301 | the cost is per started kilometre and never under the minimum, the flat price, or the price of the range the distance lies in |
| `CreditPolicyEngine.PerKmIsMonotone` | src/credit-policies/credit-policy-engine.ts:262-277 | a longer service never costs less, and one that can be priced prices every shorter one |
| `CreditPolicyEngine.BillableKilometers` | src/credit-policies/credit-policy-engine.ts:181-184 | the exact ceiling of metres over a thousand |
| `CreditPolicyEngine.ValidateRanges` | src/credit-policies/credit-policy-engine.ts:120-178 | pushes every error of every range in order and returns the ranges sorted and numbered |
| `CreditPolicyEngine.ValidatePolicyConfig` | src/credit-policies/credit-policy-engine.ts:81-118 | valid exactly when no error was pushed; only fields of the own type are allowed |
| `CreditPolicies.OneVersionGoverns` | src/credit-policies/credit-policies.service.ts:162-263 | versions of a line are 1..n with exactly the last ACTIVE, and every instant since version 1 has exactly one in force |
| `CreditPolicies.ActiveIsTheNewestVersion` | src/credit-policies/credit-policies.service.ts:65-81 | resolving finds the newest version and fails exactly when there is none |
| `CreditPolicies.SnapshotsFreezeTheActiveVersion` | src/credit-policies/dispatch-credit-snapshots.ts:70-127 | every opened dispatch holds one snapshot per actor that may win it, 1 to 1,000,000 credits, what the version that was ACTIVE on the registry it was opened on charges |
| `CreditPolicies.OpeningsFreezeTheActiveVersion` | src/credit-policies/dispatch-credit-snapshots.ts:70-127 | what a dispatch of any run froze is the cost under the version that was ACTIVE just before its opening, also when another was written at that instant |
| `CreditPolicies.FrozenCostsStay` | src/credit-policies/dispatch-credit-snapshots.ts:130-135 | no later version changes a snapshot; a closed version is final |
| `CreditPolicies.StoredPoliciesAlwaysPrice` | src/credit-policies/dispatch-credit-snapshots.ts:76-94 | costing under a stored version never finds it corrupt |
| `CreditPolicies.StaleBaseIsRefused` | src/credit-policies/credit-policies.service.ts:190-232 | the second of two versions on one base is refused and writes nothing |
| `CreditPolicies.CreditPoliciesService.CreateInitial` | src/credit-policies/credit-policies.service.ts:162-188 | version 1 of a line that never had one, or the refusal |
| `CreditPolicies.CreditPoliciesService.CreateVersion` | src/credit-policies/credit-policies.service.ts:198-263 | the base closes and version max + 1 opens at one instant |
| `CreditPolicies.CreditPoliciesService.CreateDispatchCreditSnapshots` | src/credit-policies/dispatch-credit-snapshots.ts:70-127 | one snapshot per actor in order; the first failure abandons them all |
| `Conversion.OnePathPerPrequote` | src/delivery-prequotes/prequote-conversion.service.ts:112-225 | over any run a prequote has at most one conversion, request, quote, authorised acceptance and dispatch |
| `Conversion.AcceptedTermsArePublished` | src/delivery-quotes/authorized-acceptance.service.ts:73-191 | accepted amount, currency, route and expiry are those published, with the clock before the original expiry at conversion and acceptance |
| `Conversion.DispatchesNeedTheirAcceptance` | src/dispatch/dispatch-policy.ts:153-168 | a converted request has a dispatch only with the acceptance that names it |
| `Conversion.OneOpenQuoteAndOneDispatch` | src/delivery-quotes/delivery-quotes.service.ts:129-161 | any request has at most one OFFERED or ACCEPTED quote and at most one dispatch |
| `Conversion.OlderRoutesNeverTouchAConversion` | src/delivery-quotes/delivery-quotes.service.ts:296-320 | whatever happens later, the older quote and accept routes refuse a converted request and write nothing |
| `Conversion.ConversionHappensOnce` | src/delivery-prequotes/prequote-conversion.service.ts:112-225 | after any later run, repeating with the key gives the same answer and writes nothing; with any other key it is refused |
| `Conversion.ReplaysLeadHome` | src/delivery-prequotes/prequote-conversion.service.ts:112-225 | what a key answers is a conversion of that very prequote for that client |
| `ConversionServices.PrequoteConversionService.Convert` | src/delivery-prequotes/prequote-conversion.service.ts:112-225 | the checks in order, then conversion, request, quote and record together |
| `ConversionServices.DeliveryQuotesService.Quote` | src/delivery-quotes/delivery-quotes.service.ts:129-220 | reuses, expires or prices, with the whole new state |
| `ConversionServices.DeliveryQuotesService.Accept` | src/delivery-quotes/delivery-quotes.service.ts:296-350 | accepts with its dispatch, repeats quietly, or expires what lapsed |
| `ConversionServices.AuthorizedAcceptanceService.Accept` | src/delivery-quotes/authorized-acceptance.service.ts:36-205 | the checks in order, then evidence, quote and dispatch together |

## Left out

- Controllers, body decorators, guards, seeds, listing, paging, log lines, audit views and money formatting: plumbing, or easy members only.
- HTTP, DNS, encryption, signatures, passwords and tokens: foreign calls, given as outcomes; the address policy of webhook targets is not part of this model.
- PostgreSQL triggers and CHECK constraints: not modelled, except the partial unique index of one award per account and dispatch and the clock a conversion or an acceptance is stamped with, each an error branch; where the application takes a lock, the proofs rest on the lock.
- Manual redelivery of rows already DELIVERED or EXHAUSTED, and a worker that records after its lease expired: they rely on guards outside the application code.
- Waiting for a pass in progress on shutdown, the poll timer and the nudge: timing of one process, which no durable step depends on.
- Coordinates of negative zero, NaN and the infinities: numbers are reals.
- JSON numbers of more than six decimals or in exponent notation, and the order of keys outside the basic multilingual plane: the fingerprint of a prequote has none of them.
- The sort built into the platform: stands as a stable insertion sort, used by the in-place and the copying sorts alike.
- Display names in the public status and the search fields added to it: mutable presentation data frozen by a trigger.
- Zone lookup, rate plans and the price formula: pricing is an answer given to publication and quoting.
- Approval, suspension and capacity of providers, drivers and vehicles: their rows may change at any time to anything.
- Several backends inside `PrequotesService`: its methods run one call at a time, and `PrequoteWorld` interleaves them.
- The identifier of an independent driver's profile: a profile and its driver are one to one, so the driver stands for both.
- PermitLedger.WindowSafety: assumes each event carries a clock reading no earlier than the one before, which is what the advisory lock and one database clock give.
- PrequoteWorld.RoutingStaysWithinSlots: assumes routing begins within 10 s of the last readiness check and keeps to its timeout-and-backoff schedule, as the routing provider documents.
- Webhooks.NoTwoLiveHolders: assumes a holder records before its lease expires, or never.
- DispatchEconomy.NetIsTheHoldersFrozenCost: awards made before charging existed enter as steps that record their exemption, as the migration recorded them.
- Webhooks.B2bWebhooksService.Push: answers a redelivery of DELIVERED and EXHAUSTED rows as out of scope, because such a push takes no lease and what it may record afterwards is decided by guards in the database.
- `Fleet` takes the outcome of charging an award as given; `DispatchEconomy` and `AwardedCosts` model the charge.
