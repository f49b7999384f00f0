# Grey: verified models of its protocols

Dafny models of the parts of Grey that carry state across failures and concurrency, with proofs of what
they keep. Each module follows one component. A concurrent protocol is a state machine whose steps are the
code between two awaits, interleaved freely, with every remote answer chosen by the outside; code that works
on fields, tables or buffers is a class whose methods are proved against the functions the state machine and
the lemmas use.

| Files | Component |
|---|---|
| `AcpClaims`, `AcpProtocol`, `AcpHandlers`, `AcpDedup`, `AcpSafety`, `AcpAccept`, `AcpLimits` | accepting and delivering a job in the ACP adapter |
| `X402Verify`, `X402Gate`, `X402Charges`, `X402Hook` | the x402 payment gate over an EIP-3009 ledger |
| `Reputation`, `ReputationRuns`, `ReputationSweep` | buyer strikes, tracked jobs, reconciliation |
| `MechRegistration`, `MechRestarts`, `MechAdapter`, `MechPoll` | registering as a mech, restarts of the registration script, and the poll loop |
| `Upsert`, `UpsertTables`, `UpsertRuns` | the whitepaper upsert over three related tables |
| `Costs`, `Scores` | token accounting of a run, and claim score aggregation |
| `RenderLock` | the headless browser's lock, rate limit and page counter |
| `Sweeper`, `SweeperRuns` | the treasury sweeper and the log its instances share |
| `Consent` | the 256-bit encoder behind the AgentWalletSet consent |
| `Options`, `Jobs` | missing values and errors, and job keys |

`dafny verify dfyconfig.toml` checks everything.

## What the models assume

- Sockets, RPC nodes, databases, clocks and the network are parameters or chosen freely at each step, and may
  fail. Clocks do not run backwards.
- `AcpSafety` names what single delivery needs of the remote side in the predicate `Reliable`: a fetch
  succeeds and tells the truth, a delivered job is not put back to funded, a failed `submit` had no effect and
  the SLA expiry can be printed. What holds without these is in `AcpProtocol`, `AcpAccept` and `AcpLimits`.
- Finders return each row once.
- The EIP-3009 ledger consumes an authorization at most once, and every broadcast has its own hash.
- In the sweeper, the database's clock is not behind the process's when a row is written.
- A registry call is simulated on the chain's current state, and a deploy's simulated multisig is the mined one.
- A service has the one agent slot it is created with; the registry and the marketplace follow the lifecycle
  their interfaces state.
- Block logs do not change once the head passed them, and a log query returns all of its range.
- Signature recovery, keccak, violation keywords and version tokens are functions of their inputs.
- Costs and scores are exact: `real` stands for the numbers, and rounding is written out where the code rounds.

## Where the code and its comments part

- `adapters/x402-middleware/src/preHandler.ts:17` says that after a 502 the payment is not consumed. The request's
  own transaction consumes it, or still can, exactly when it succeeded or is pending on an unused authorization
  (`AnsweredIsChargedIff`), and there is such a transaction exactly when the broadcast got out
  (`FailedRequestsOwnNothingIff`); `FailedSettlementMayCharge` builds such a run for every acceptable payment.
  Otherwise it is consumed exactly when another transaction with the same payer and nonce succeeded
  (`ConsumedIff`), as for a request that shares its payment with a served one (`SharedPaymentIsConsumedOnce`).
- `adapters/x402-middleware/src/settle.ts:40-43` takes an error that blames the authorization for proof that
  nothing was broadcast. Where a node sends such an error and the transaction got out all the same, a 402 can be
  charged; `RefusedRequestsOwnNothingIff` and `RefusedPaymentMayCharge` give the condition and a run.
- `adapters/acp-adapter/src/acpAdapter.ts:446-451` says nothing after a submit can fail the delivery. An expiry
  outside the range of dates throws while it is printed, inside the block whose handler submits the fallback:
  `ResubmitsIffUnrenderable` gives the exact condition and `UnrenderableExpiryResubmits` the run.
- `adapters/mech-adapter/src/mechAdapter.ts:421-422` calls the one-shot runner right for a dry run; as the
  file's own header says (lines 81-89), a dry run of an existing service gets through only when one call is
  left. `DryRunNeedsDeployed` proves the condition both ways.
- `packages/grey-sweeper/src/trigger.ts:8` promises a weekly cadence. It is kept only from sweeps logged as
  successful: a row that could not be written is lost silently (`UnwrittenRowForgetsTheSweep`), and a sweep
  whose receipt did not come is logged as failed even if it lands (`LateLandingForgetsTheSweep`).
- Strike statuses may move down when one stiff of a buyer is computed before, and written after, two others:
  `WriteLowersStatusIff` says exactly when, `OverlappingStiffsLowerStatus` is such a run.
- `adapters/mech-adapter/src/registrationResume.ts:1-13` means to end duplicate services. The count it goes by
  does that when it is read truly and no create is still out (`RestartsCreateAtMostOne`). In any case a service
  is added exactly when zero is read and the create is sent (`EventAddsComingIff`), so there are two ways to a
  second one: `CreateStillOutDuplicates` and `LaggingCountDuplicates`.

## Model

| member | source | states |
|---|---|---|
| `AcpClaims.AcpAdapter.ClaimDispatch` | adapters/acp-adapter/src/acpAdapter.ts:184-199 | a dispatch is claimed iff its job id and event are not in the dedup map and, for a funded event, the chain's job is not in flight; a refused dispatch changes nothing, a claimed one stamps the event, takes the flight claim for funded only, and may sweep |
| `AcpClaims.AcpAdapter.Sweep` | adapters/acp-adapter/src/acpAdapter.ts:192-197 | the deleting loop leaves exactly the entries not older than the dedup window, with their stamps |
| `AcpClaims.AcpAdapter.ClaimAccept` | adapters/acp-adapter/src/acpAdapter.ts:205-210 | at most one caller gets the accept slot of a chain's job |
| `AcpClaims.AcpAdapter.HandleEntry` | adapters/acp-adapter/src/acpAdapter.ts:215-251 | the synchronous front of the entry handler, as the state machine's entry step: which claims it takes and which path it starts |
| `AcpHandlers.AcpRun.HandleEntry` | adapters/acp-adapter/src/acpAdapter.ts:215-252 | an entry through the claiming methods is the protocol's entry step, up to the first await of the handler it starts |
| `AcpDedup.RepetitionsAreIgnored` | adapters/acp-adapter/src/acpAdapter.ts:184-199 | in every run, once an entry had any effect, a later entry of the same job id and event within five minutes starts no handler and changes no claim, whatever sweeps ran |
| `AcpDedup.NewEventsAreLetIn` | adapters/acp-adapter/src/acpAdapter.ts:215-251 | in every run an event of which there was no earlier entry is stamped and starts its handler, unless it is a funding of a job in flight - which has no effect - or an accept of a job decided or being decided |
| `AcpDedup.SweepForgetsTheOld` | adapters/acp-adapter/src/acpAdapter.ts:190-197 | an entry let in with a hundred keys or more in the map leaves exactly those stamped in the last five minutes; with fewer none is dropped |
| `AcpProtocol.EntryClaims` | adapters/acp-adapter/src/acpAdapter.ts:184-252 | an entry takes at most one of the two claims, for its own job, and only if it was free |
| `AcpProtocol.DeliveryStepKeepsExclusive` | adapters/acp-adapter/src/acpAdapter.ts:364-444 | every await-to-await step of a delivery, on every path out of it, keeps claims and live handlers in agreement |
| `AcpProtocol.AcceptStepKeepsExclusive` | adapters/acp-adapter/src/acpAdapter.ts:272-360 | likewise for the steps of an accept attempt |
| `AcpProtocol.StepKeepsExclusive` | adapters/acp-adapter/src/acpAdapter.ts:184-268 | in every interleaving the two claim sets are exactly the jobs with a live handler of their kind and no job has two, even after the sweep dropped its dedup key |
| `AcpSafety.RunIsExclusive` | adapters/acp-adapter/src/acpAdapter.ts:215-268 | so in every state of every run, whatever the remote side answers |
| `AcpSafety.LandingKeepsDeliverySafe` | adapters/acp-adapter/src/acpAdapter.ts:412-414 | when a submit lands, no other live delivery of that job can be on its way to submit |
| `AcpSafety.StepKeepsDeliverySafe` | adapters/acp-adapter/src/acpAdapter.ts:364-444 | no step of either path lets a delivered job head for another submit |
| `AcpSafety.ReliableRunSubmitsOnce` | adapters/acp-adapter/src/acpAdapter.ts:364-444 | over every run with a reliable remote side, each chain's job is submitted successfully at most once and no submit of it is called after that |
| `AcpAccept.EntryKeepsAcceptSafe` | adapters/acp-adapter/src/acpAdapter.ts:228-249 | an accept attempt can begin on a decided job only when the decision is older than the dedup window |
| `AcpAccept.DecisionKeepsAcceptSafe` | adapters/acp-adapter/src/acpAdapter.ts:341-348 | between a decision going through and its mark being set, no other attempt on the job can decide |
| `AcpAccept.StepKeepsAcceptSafe` | adapters/acp-adapter/src/acpAdapter.ts:272-360 | every step keeps decisions on one job further apart than the dedup window |
| `AcpAccept.DecisionsStayApart` | adapters/acp-adapter/src/acpAdapter.ts:205-213 | in every run two successful deciding calls on one job are more than the dedup window apart; if the sweep never fires there is at most one ever |
| `AcpHandlers.FundedIsAnswered` | adapters/acp-adapter/src/acpAdapter.ts:409-440 | a funded job not known to have moved on always gets a submit; one lands iff the deliverable's or the fallback's went through |
| `AcpHandlers.FreshJobDecides` | adapters/acp-adapter/src/acpAdapter.ts:373-396 | nothing is signed iff the job as fetched, or as cached when the fetch failed, is missing, has another status than funded or has no handler |
| `AcpHandlers.LandedDeliverableStands` | adapters/acp-adapter/src/acpAdapter.ts:411-485 | a landed deliverable is the only submit iff its expiry is no later than the last date that can be printed: the agreed expiry in seconds if it is positive, else the time of the reply and the SLA in milliseconds |
| `AcpHandlers.AcpRun.Recheck` | adapters/acp-adapter/src/acpAdapter.ts:373-407 | a delivery goes on iff the fetched or else the cached job has a handler and no status other than funded; otherwise it ends with nothing signed |
| `AcpHandlers.AcpRun.SubmitDeliverable` | adapters/acp-adapter/src/acpAdapter.ts:411-424 | delivered iff the submit landed and the expiry could be printed; otherwise the fallback follows, even after a landed submit |
| `AcpHandlers.AcpRun.HandleJobFunded` | adapters/acp-adapter/src/acpAdapter.ts:364-444 | the handler with its nested try blocks is a run of the protocol's steps, signs exactly the stated submits and releases the flight claim on every path |
| `AcpHandlers.DecidesAtMostOnce` | adapters/acp-adapter/src/acpAdapter.ts:314-359 | an attempt decides iff a call it comes to goes through, once, and calls nothing after that |
| `AcpHandlers.AttemptCalls` | adapters/acp-adapter/src/acpAdapter.ts:284-359 | a budget is proposed iff the job can be served and the gate does not turn it down, or its rejection fails; a rejection is tried iff the job is named and cannot be served, is turned down, or gets no budget; a job not fetched or not named gets neither |
| `AcpHandlers.AcpRun.Assess` | adapters/acp-adapter/src/acpAdapter.ts:284-339 | which call is due first, if any, from offering, subject and gate; a gate that throws accepts |
| `AcpHandlers.AcpRun.Sign` | adapters/acp-adapter/src/acpAdapter.ts:329-359 | a call that goes through marks the job and ends the attempt; a failed gate reject leads to the budget, a failed budget to a reject |
| `AcpHandlers.AcpRun.HandleJobCreated` | adapters/acp-adapter/src/acpAdapter.ts:272-360 | the accept handler is a run of the protocol's steps, signs exactly the attempt's calls, releases the accept claim on every path and marks the job iff one of its calls went through |
| `AcpLimits.SigningNeedsTheClaim` | adapters/acp-adapter/src/acpAdapter.ts:296-444 | with any remote side, a submit is called only under the job's flight claim, a budget or reject only under its accept claim and only by accept steps - the funded path never rejects |
| `AcpLimits.ObserveOnlySignsNothing` | adapters/acp-adapter/src/acpAdapter.ts:277-282 | in observe-only mode no run contains a submit, budget or reject |
| `AcpLimits.ResubmitsIffUnrenderable` | adapters/acp-adapter/src/acpAdapter.ts:411-432 | after a successful submit the handler submits again iff the SLA expiry cannot be printed as a date |
| `AcpLimits.UnrenderableExpiryResubmits` | adapters/acp-adapter/src/acpAdapter.ts:469-485 | for every such job a concrete run in which everything else is reliable and the delivered job is submitted again |
| `AcpLimits.UndecidedAttemptCanBeRetried` | adapters/acp-adapter/src/acpAdapter.ts:238-247 | an attempt that ends without a decision leaves the job open: the next admitted accept event starts another |
| `X402Verify.VerifyPayment` | adapters/x402-middleware/src/verify.ts:48-113 | accepts iff network, receiver, amount, time window, signer and unused nonce are all right, and then hands on, field by field and with its window, the authorization that was signed: to the gate's address, for at least the price, and in force now |
| `X402Verify.RefusalNamesTheFirstFault` | adapters/x402-middleware/src/verify.ts:48-113 | a payment is refused for a reason iff that fault is there and no fault that is checked earlier |
| `X402Gate.PaidAfterUpdate` | adapters/x402-middleware/src/settle.ts:46-58 | a mined transaction changes the total paid by its own amount once, wherever it is in the chain |
| `X402Gate.StepKeepsLedger` | adapters/x402-middleware/src/settle.ts:34-58 | in every interleaving no authorization is consumed twice and the receiver's credit is the sum of those consumed |
| `X402Gate.StepKeepsRequest` | adapters/x402-middleware/src/preHandler.ts:101-137 | a request keeps an authorization that covers its price at every stage, and is served only on its own successful transaction |
| `X402Gate.StepKeepsOrigin` | adapters/x402-middleware/src/settle.ts:44-58 | every transaction a request broadcast, also one whose call threw, covers that request's price and finds it waiting for that transaction, served with it, or answered as the end of the broadcast call decided |
| `X402Gate.StepKeepsOneEach` | adapters/x402-middleware/src/settle.ts:40-52 | no request ever has two transactions |
| `X402Gate.ReachedIsSound` | adapters/x402-middleware/src/preHandler.ts:83-137 | along any steps the ledger and the requests stay sound |
| `X402Gate.RunIsSound` | adapters/x402-middleware/src/preHandler.ts:83-137 | so they are in every state of every run, with shared payment headers, stale reads and foreign broadcasts |
| `X402Gate.ServedRequestsHaveTheirOwnPayments` | adapters/x402-middleware/src/preHandler.ts:113-137 | the map from served requests to consumed authorizations is injective, and each paid the gate's address at least that request's price |
| `X402Charges.BroadcastsAreRecorded` | adapters/x402-middleware/src/settle.ts:44-52 | in every run a request has a transaction from a broadcast exactly when that broadcast call was made and the transaction got out, whether the call returned or threw |
| `X402Charges.RequestsKeepTheirPayment` | adapters/x402-middleware/src/preHandler.ts:94-113 | in every run a request keeps the price and the payment it arrived with |
| `X402Charges.BroadcastersAreAccountedFor` | adapters/x402-middleware/src/settle.ts:44-58 | in every run a request with a transaction has only that one, carrying exactly the authorization its payment signed, and is waiting for it, was served with it or was told the settlement failed - or was told to pay, exactly when it got out although the error blamed the authorization |
| `X402Charges.RefusedRequestsOwnNothingIff` | adapters/x402-middleware/src/settle.ts:40-52 | in every run a request answered 402 has a transaction of its own iff its broadcast got out although the error blamed the authorization |
| `X402Charges.FailedRequestsOwnNothingIff` | adapters/x402-middleware/src/preHandler.ts:114-127 | in every run a request answered 502 has one iff its broadcast returned, or threw another error after getting out |
| `X402Charges.AnsweredIsChargedIff` | adapters/x402-middleware/src/preHandler.ts:113-133 | a request answered 402 or 502 is charged, by then or by anything that can still happen, iff its own transaction succeeded or is pending on an authorization not yet used |
| `X402Charges.UnsentIsNeverCharged` | adapters/x402-middleware/src/preHandler.ts:113-133 | in every run an answered request none of whose broadcasts got out is never charged by them |
| `X402Charges.ChargeIsItsOwnPayment` | adapters/x402-middleware/src/settle.ts:44-58 | a request is charged by the mining of its own transaction and nothing else, which carries exactly what its payment signed and credits the gate's address with at least its price |
| `X402Charges.ConsumedIff` | adapters/x402-middleware/src/settle.ts:44-58 | in every run the authorization of a request's transaction is consumed iff that transaction succeeded, and the request is charged, or another with the same payer and nonce did, and the request never is |
| `X402Gate.PrefixCoversPrices` | adapters/x402-middleware/src/settle.ts:46-58 | however far the chain is read, what was paid covers the prices of the requests served up to there |
| `X402Gate.CreditCoversPricesServed` | adapters/x402-middleware/src/preHandler.ts:113-137 | in every run the receiver was credited at least the sum of the prices of all requests served |
| `X402Charges.FailedSettlementMayCharge` | adapters/x402-middleware/src/preHandler.ts:114-127 | for every acceptable payment there is a run that answers 502 although the authorization was consumed and credited |
| `X402Charges.RefusedPaymentMayCharge` | adapters/x402-middleware/src/settle.ts:45-50 | for every acceptable payment there is a run that answers 402 although the authorization is consumed and credited afterwards |
| `X402Charges.SharedPaymentIsConsumedOnce` | adapters/x402-middleware/src/preHandler.ts:113-137 | for every acceptable payment a run in which two requests present it: one is served, the other answered 502 with the authorization consumed, by the first, and can never be charged |
| `X402Hook.X402Gateway.BroadcastAndWait` | adapters/x402-middleware/src/settle.ts:44-58 | succeeds iff the authorization was unused and valid when mined and the receipt shows it; a wait that ends earlier leaves the transaction pending, and a receipt that does not show leaves the credit taken |
| `X402Hook.X402Gateway.Settle` | adapters/x402-middleware/src/settle.ts:16-59 | the three-way outcome with the exact condition of each, the exact change of credit and consumed authorizations, and exactly when a transaction that took or can still take the authorization is left behind, as a run of the gate's steps |
| `X402Hook.X402Gateway.PreHandler` | adapters/x402-middleware/src/preHandler.ts:83-137 | with nothing in between, the route handler runs iff the payment verifies, is consumed and its receipt shows; 402 iff it does not verify or settlement is rejected; and after a 402 or 502 the payer is or may still be charged iff a transaction got out on an unused authorization and was not mined too late |
| `Reputation.StiffClimbsOne` | adapters/acp-adapter/src/reputation/buyerReputationGate.ts:195-237 | a stiff adds one strike, moves the status up by one until blocked, and keeps rank equal to min(strikes, 4) and a timeout set exactly in the two timeout states |
| `Reputation.RejectsByStrikes` | adapters/acp-adapter/src/reputation/buyerReputationGate.ts:80-146 | an enforcing gate rejects exactly buyers with four strikes or more, and with two or three while the timeout runs; a shadow gate and a failed lookup reject nobody |
| `Reputation.ExpiryShutsOut` | adapters/acp-adapter/src/reputation/buyerReputationGate.ts:178-237 | an enforcing gate asked at time t after an expired job turns its buyer away iff the buyer had one strike and the short timeout from the expiry is not over, two and the long one is not, or three or more; nobody else is answered differently and the row is expired |
| `Reputation.OnlyExpiryStiffs` | adapters/acp-adapter/src/reputation/buyerReputationGate.ts:178-192 | a job completed or rejected changes its own row and no buyer, and one already resolved changes nothing |
| `Reputation.UnknownStatusStartsOver` | adapters/acp-adapter/src/reputation/buyerReputationGate.ts:195-237 | a status outside the ladder is accepted, and its next stiff is that of a buyer without a record |
| `Reputation.ReputationStore.TrackSubmitted` | adapters/acp-adapter/src/reputation/reputationDb.ts:139-142 | a job already tracked is left as it is, a new one starts as submitted, and no other row changes |
| `Reputation.ReputationStore.ResolveIfSubmitted` | adapters/acp-adapter/src/reputation/reputationDb.ts:144-146 | only a submitted row is resolved, and only that call learns the buyer |
| `Reputation.ReputationStore.InsertStubIfAbsent` | adapters/acp-adapter/src/reputation/reputationDb.ts:123-124 | an existing record is left as it is, a new one is clean with no strikes, and no other row changes |
| `Reputation.ReputationStore.WriteStiff` | adapters/acp-adapter/src/reputation/reputationDb.ts:126-130 | replaces the four ladder columns of one row and keeps its tallies and every other row |
| `Reputation.ReputationStore.WriteCrossProvider` | adapters/acp-adapter/src/reputation/reputationDb.ts:132-137 | replaces completes, creates and their time in one row and keeps its ladder columns and every other row |
| `Reputation.ReputationStore.OnJobTerminal` | adapters/acp-adapter/src/reputation/buyerReputationGate.ts:178-192 | undisturbed, it stiffs the buyer exactly when it resolved the row and the job expired |
| `Reputation.BuyerReputationGate.EvaluateAcceptance` | adapters/acp-adapter/src/reputation/buyerReputationGate.ts:80-157 | decides as the gate does; only a buyer never seen gets a record, with no strikes, and with the tallies of the history iff one was fetched; a failed lookup writes nothing |
| `Reputation.BuyerReputationGate.OnJobSubmitted` | adapters/acp-adapter/src/reputation/buyerReputationGate.ts:160-176 | the first report of a job is stored as submitted, a later one changes nothing |
| `ReputationRuns.StepKeepsStiffsBacked` | adapters/acp-adapter/src/reputation/buyerReputationGate.ts:178-192 | however many observers race, each written or owed stiff has an expired tracked job of that buyer to itself |
| `ReputationRuns.WriteKeepsStrikesBacked` | adapters/acp-adapter/src/reputation/buyerReputationGate.ts:195-237 | a stiff computed from an outdated record cannot push strikes past the stiffs written |
| `ReputationRuns.StrikesNeverExceedExpiredJobs` | adapters/acp-adapter/src/reputation/buyerReputationGate.ts:178-237 | in every run, under any interleaving or loss of the two halves of a stiff, all records are on the ladder and no buyer has more strikes than tracked jobs resolved expired |
| `ReputationRuns.ResolvedOnceStiffedOnce` | adapters/acp-adapter/src/reputation/reputationDb.ts:144-146 | a resolved row never changes again and no job is stiffed a second time |
| `ReputationRuns.TerminatedIsItsSteps` | adapters/acp-adapter/src/reputation/buyerReputationGate.ts:178-237 | handling a terminal event in one go is its resolve, read and write steps with nothing in between |
| `ReputationRuns.StepKeepsAccounted` | adapters/acp-adapter/src/reputation/buyerReputationGate.ts:178-237 | while a buyer has one stiff under way at most and none is lost, no step of anybody breaks the account: strikes plus the stiff under way are the expired jobs, a held record agrees with the stored one, and the status does not drop |
| `ReputationRuns.SerialStiffsStayInStep` | adapters/acp-adapter/src/reputation/buyerReputationGate.ts:178-237 | in every run in which one buyer's stiffs are applied one at a time without failures, other buyers interleaving freely, strikes equal that buyer's expired jobs whenever no stiff is under way |
| `ReputationRuns.SerialStatusNeverDrops` | adapters/acp-adapter/src/reputation/buyerReputationGate.ts:205-235 | in such a run the buyer's status never moves down |
| `ReputationRuns.SerialBlockedIsFinal` | adapters/acp-adapter/src/reputation/buyerReputationGate.ts:226-228 | in such a run a blocked buyer stays blocked |
| `ReputationRuns.WriteLowersStatusIff` | adapters/acp-adapter/src/reputation/buyerReputationGate.ts:197-235 | an interleaved stiff lowers the stored status iff its record was at least two strikes behind and had fewer than three |
| `ReputationRuns.OverlappingStiffsLowerStatus` | adapters/acp-adapter/src/reputation/buyerReputationGate.ts:197-235 | for every buyer a run in which a stored status drops, from the one-hour timeout to warned: one stiff reads, two others are read and written, the first writes |
| `ReputationRuns.OtherStatementsKeepInStep` | adapters/acp-adapter/src/reputation/reputationDb.ts:123-142 | tracking, stubs and tallies keep strikes equal to expired jobs |
| `ReputationSweep.Reconciler.Sweep` | adapters/acp-adapter/src/reputation/reputationReconciler.ts:83-101 | the loop with its skips and failing rows does what the rows do one by one |
| `ReputationSweep.SweptTracked` | adapters/acp-adapter/src/reputation/reputationReconciler.ts:74-102 | each listed row ends in its own authoritative terminal status or unchanged, whatever its neighbours did |
| `ReputationSweep.RowsSayWhatWasRead` | adapters/acp-adapter/src/reputation/reputationReconciler.ts:45-101 | each listed row ends completed, rejected or expired iff that is what its status read said and nothing failed before it was resolved |
| `ReputationSweep.SweptStrikes` | adapters/acp-adapter/src/reputation/buyerReputationGate.ts:178-192 | a sweep adds to a buyer's strikes exactly the number of its expired rows of that buyer whose stiff lands |
| `ReputationSweep.SweepResolvesExactly` | adapters/acp-adapter/src/reputation/reputationReconciler.ts:74-102 | a sweep over the first `limit` past-SLA rows resolves exactly those that read terminal, each to that status, leaves all other rows alone and adds one strike per landed expiry, none for completed or rejected |
| `MechRegistration.StepAdvances` | adapters/mech-adapter/src/mechAdapter.ts:427-465 | a successful step other than the last leaves fewer steps to go |
| `MechRegistration.CreatedIsSeen` | adapters/mech-adapter/src/mechAdapter.ts:655-667 | a create is reported as done iff it is sent, its receipt is waited for and a read within the bound shows the service before any read fails; the service named is then there |
| `MechRegistration.RegisteredIsDeployed` | adapters/mech-adapter/src/mechAdapter.ts:356-417 | a registration reported is of a service that is deployed, the one asked for if any, with the multisig the chain gives it, and unless it only observed the last mech made is the service's |
| `MechRegistration.OneShotIsStepwise` | adapters/mech-adapter/src/mechAdapter.ts:356-465 | from a new service or any state of an existing one, the one-shot runner and the iterated one-step runner make the same calls with the same values, reach the same chain and report the same, whichever calls are lost |
| `MechRegistration.DryRunNeedsDeployed` | adapters/mech-adapter/src/mechAdapter.ts:81-89 | without faults, a one-shot dry run of an existing service gets through iff the service is deployed |
| `MechRegistration.LaggingReadIsHarmless` | adapters/mech-adapter/src/mechAdapter.ts:427-465 | a step chosen from a read that may lag goes through iff the read was current and nothing stops the call; one that fails changes no service and no mech, and leaves a call out only if it was due |
| `MechRegistration.LaggingOneShotIsHarmless` | adapters/mech-adapter/src/mechAdapter.ts:374-417 | the one-shot runner on an outdated read stops at its first call with nothing changed and nothing left out |
| `MechRegistration.MiningKeepsInOrder` | adapters/mech-adapter/src/serviceRegistryClient.ts:161-237 | whichever call is mined next, repeated or long out, it takes effect only where the lifecycle has a place for it |
| `MechRegistration.ActsLandInOrder` | adapters/mech-adapter/src/mechAdapter.ts:356-465 | through any acts, with lagging reads, lost calls and calls that threw at their receipt and land after all, also beside their repetition, what landed on a service is its lifecycle up to its state, in order and each once, then only mechs on a deployed service |
| `MechRegistration.NoBondTakenTwice` | adapters/mech-adapter/src/mechAdapter.ts:670-709 | in all these cases the value landed on a service is one bond once activated and two from then on |
| `MechRegistration.Resolve` | adapters/mech-adapter/src/registrationResume.ts:86-132 | creates iff there is no flag and no default and the owner has nothing or forces it; aborts iff the flagged service does not exist, or the owner has services and forces nothing; otherwise resumes the flagged one before the default |
| `MechRestarts.StartCreatesIff` | adapters/mech-adapter/src/registrationResume.ts:106-131 | a start with no default, flag or force tries to create a service iff the count it read is zero, before any other call; otherwise it makes no call |
| `MechRestarts.EventAddsComingIff` | adapters/mech-adapter/src/registrationResume.ts:112-131 | the services there are or may still come grow, by one, iff a start reads zero and its create is sent, whatever the true count is and whatever is still out |
| `MechRestarts.StartsAddUp` | adapters/mech-adapter/src/registrationResume.ts:112-131 | so over any starts and landings they are those at first and one for each such start |
| `MechRestarts.RestartsCreateAtMostOne` | adapters/mech-adapter/src/registrationResume.ts:106-131 | with every count read truly and no create still out when the script starts, at most one service comes of any number of starts and landings, and none where there is one at first |
| `MechRestarts.CreateStillOutDuplicates` | adapters/mech-adapter/src/serviceRegistryClient.ts:146-164 | with true counts a run ends in two services: a create throws at its receipt, the script is started again, and the first create lands too |
| `MechRestarts.LaggingCountDuplicates` | adapters/mech-adapter/src/registrationResume.ts:114-116 | a run in which a count of zero is read beside a service ends in two services |
| `MechAdapter.Adapter.WaitForServiceVisible` | adapters/mech-adapter/src/mechAdapter.ts:743-764 | succeeds iff one of the allowed reads shows the service and every read before it answered that there is none |
| `MechAdapter.Adapter.Run` | adapters/mech-adapter/src/serviceRegistryClient.ts:146-237 | a call is simulated, then sent and waited for; one whose wait throws is left out and reported as failed, one overtaken by a call still out is mined after it |
| `MechAdapter.Adapter.RunCreateStep` | adapters/mech-adapter/src/mechAdapter.ts:636-668 | fails when the new service does not show up in time, although the call landed |
| `MechAdapter.Adapter.RegisterAsMech` | adapters/mech-adapter/src/mechAdapter.ts:356-417 | the runner with its three flags, computed from one read, makes the calls still needed in lifecycle order and stops at the first that fails |
| `MechAdapter.Adapter.RegisterAsMechStep` | adapters/mech-adapter/src/mechAdapter.ts:427-465 | makes exactly the one call the state calls for |
| `MechAdapter.Adapter.RegisterStepByStep` | adapters/mech-adapter/src/mechAdapter.ts:419-465 | the operator's loop over single steps ends in the one-shot runner's chain and outcome |
| `MechPoll.OwnConcat` | adapters/mech-adapter/src/taskIntake.ts:52-82 | the requests of two adjoining block ranges together are those of the whole range, in order |
| `MechPoll.PollForOwnRequests` | adapters/mech-adapter/src/taskIntake.ts:52-82 | the entries are, one for one and in order of block, log and place, the requests of the logs to the mech in the range that decode, each with its own id, its own data if there is any, its requester and its block, and no others |
| `MechPoll.OwnDetects` | adapters/mech-adapter/src/taskIntake.ts:67-80 | so says the specification of the poll too, position by position |
| `MechPoll.EachRequestOnce` | adapters/mech-adapter/src/mechAdapter.ts:520-551 | each detected request is in exactly one of routed and failed, once, with its own answer, both lists in log order |
| `MechPoll.TickCatchesUp` | adapters/mech-adapter/src/main.ts:100-120 | a tick that goes through puts the cursor right behind its head with one more completed range; any other changes nothing |
| `MechPoll.TicksCoverTheChain` | adapters/mech-adapter/src/main.ts:100-127 | with failing ticks and lagging heads the completed ticks partition the blocks from start to cursor and hold every request to the mech there exactly once |
| `MechPoll.TicksSplitTheirOwn` | adapters/mech-adapter/src/main.ts:104-117 | what became of the requests in a completed range was decided by the answers of the tick that read the head it ends at |
| `MechPoll.RangesAreDisjoint` | adapters/mech-adapter/src/main.ts:105-116 | two completed ticks share no block and follow each other in order |
| `MechPoll.PollLoop.PollAndRespond` | adapters/mech-adapter/src/mechAdapter.ts:505-563 | detects the requests of the range, splits them by their answers, delivers iff anything was routed, and then ids and hashes are the routed list, index-aligned |
| `MechPoll.PollLoop.Respond` | adapters/mech-adapter/src/mechAdapter.ts:520-563 | the routing loop makes the split in log order, and the batch, if any, is the routed list index-aligned |
| `MechPoll.PollLoop.Turn` | adapters/mech-adapter/src/main.ts:101-120 | the cursor moves right behind the head iff the head is not behind it and the whole tick went through |
| `MechPoll.PollLoop.RunPollLoop` | adapters/mech-adapter/src/main.ts:90-127 | any stretch of the loop partitions the blocks it passed, detects all their requests to the mech and delivers index-aligned batches |
| `Upsert.StoredAddressIsFound` | packages/grey-pipeline/src/persistence/repositories.ts:31-75 | an address as it is stored is found again by the address it was stored for |
| `Upsert.StoredForm` | packages/grey-pipeline/src/persistence/repositories.ts:31-35 | an address starting with 0x is stored without capitals, in one form for all its spellings, any other as it is |
| `Upsert.CandidatesMatch` | packages/grey-pipeline/src/pipeline.ts:373-387 | the candidates are exactly the rows that match by name, or by address within the requested version family |
| `Upsert.CandidatesByText` | packages/grey-pipeline/src/pipeline.ts:373-387 | in terms of the texts: a row is a candidate iff its name is the requested one up to capitals, or its version token is and its address is - up to capitals only for addresses starting with 0x |
| `Upsert.MergedInOrder` | packages/grey-pipeline/src/pipeline.ts:380-387 | merging keeps name matches first and yields no row twice |
| `Upsert.FirstWithClaims` | packages/grey-pipeline/src/pipeline.ts:303-311 | the first candidate with claims, before which none has any; none iff no candidate has claims |
| `Upsert.SafePrefixKeepsIntegrity` | packages/grey-pipeline/src/pipeline.ts:402-443 | a list of safe statements cut short anywhere leaves no claim or verification without its paper and no paper with two verifications |
| `Upsert.DropOpsEffect` | packages/grey-pipeline/src/pipeline.ts:405-411 | dropping candidates removes exactly them with their claims and verifications, each statement safe where it runs |
| `Upsert.CreateOpsEffect` | packages/grey-pipeline/src/pipeline.ts:402-443 | replacing leaves exactly the undropped papers and the new one with all its claims |
| `UpsertTables.WhitepaperTables.Merge` | packages/grey-pipeline/src/pipeline.ts:373-387 | the merging loop yields the candidates, the name matches as a prefix and no row twice, even when the address finder repeats one |
| `UpsertTables.WhitepaperTables.DropRows` | packages/grey-pipeline/src/pipeline.ts:405-411 | the deletes are issued claims first, paper last, row by row |
| `UpsertTables.WhitepaperTables.UpsertWhitepaperWithClaims` | packages/grey-pipeline/src/pipeline.ts:344-446 | the upsert with its loops issues exactly the planned statements in order and hands back the planned row |
| `UpsertRuns.PlanEffect` | packages/grey-pipeline/src/pipeline.ts:373-446 | an upsert leaves the tables alone, or replaces exactly the rows it decided to drop |
| `UpsertRuns.CrashingRunsKeepIntegrity` | packages/grey-pipeline/src/pipeline.ts:508-525 | through any sequence of runs, each cut short after any statement, no claim or verification refers to a missing paper and no paper gains a second verification |
| `UpsertRuns.RunOpsSafe` | packages/grey-pipeline/src/pipeline.ts:708-734 | every statement of a full run, verification included, is safe at the moment it runs |
| `UpsertRuns.RunKeepsOneVerification` | packages/grey-pipeline/src/pipeline.ts:708-716 | a run that keeps a verification leaves exactly one on the row it handed back; the others, and an unsaved record, leave the verifications as the upsert left them |
| `UpsertRuns.ViolatingNamesWriteNothing` | packages/grey-pipeline/src/pipeline.ts:362-367 | a name with violation keywords writes nothing to the three tables, neither in the upsert nor as a verification |
| `UpsertRuns.ReturnedRowIsRichest` | packages/grey-pipeline/src/pipeline.ts:303-315 | the row handed back has at least the claims of the request and of the first candidate with any; a deleted row matched by name or is of the requested version family |
| `UpsertRuns.ClaimlessRowsAreCleared` | packages/grey-pipeline/src/pipeline.ts:303-315 | when no matching row has claims, the one row created, under the requested name and address with all the claims, is the only match afterwards, and rows that did not match stay as they were |
| `UpsertRuns.FirstWithClaimsDecides` | packages/grey-pipeline/src/pipeline.ts:397-443 | when some have, the first of them is handed back with nothing changed if it has claims enough, and otherwise exactly it is replaced, by a row that keeps its name; the matching rows are then the old ones without it, and the new one |
| `UpsertRuns.NewRowMatches` | packages/grey-pipeline/src/pipeline.ts:402-424 | the row a create stores, with the replaced row's name, matches the same request again |
| `UpsertRuns.CreateLowersPotential` | packages/grey-pipeline/src/pipeline.ts:303-315 | every create lowers by one the number of matching rows with some but too few claims - or uses up the one create there is when none has claims |
| `UpsertRuns.CreatesAreBounded` | packages/grey-pipeline/src/pipeline.ts:303-315 | repeating a request with claims creates as many rows as the potential has dropped, and a try that creates none changes nothing |
| `UpsertRuns.RepeatsSettle` | packages/grey-pipeline/src/pipeline.ts:373-446 | with finders that answer by the tables alone, repeating it settles on reuse with the tables unchanged, after at most the first tables' potential |
| `Costs.CostTracker.End` | packages/grey-pipeline/src/telemetry/costTracker.ts:53-64 | the tokens of an ended stage go to that stage and to the totals, and its time counts once |
| `Costs.StageTimeCountsOnce` | packages/grey-pipeline/src/telemetry/costTracker.ts:48-60 | a second end of a stage adds its tokens but no time, and other stages stay as they are |
| `Costs.CostTracker.TimeStage` | packages/grey-pipeline/src/telemetry/costTracker.ts:48-64 | a stage from start to end adds its duration to that stage and its tokens to stages and totals alike |
| `Costs.CostTracker.ClearStages` | packages/grey-pipeline/src/telemetry/costTracker.ts:94-98 | the loop empties the three stages and keeps the totals |
| `Costs.CostTracker.Clear` | packages/grey-pipeline/src/telemetry/costTracker.ts:118-122 | nothing is left of earlier use |
| `Costs.TotalsAreStagedAndUnstaged` | packages/grey-pipeline/src/telemetry/costTracker.ts:48-122 | after any sequence of calls the totals are all usage since the last reset, and the sum of the three stages, of usage recorded outside a stage and of stages ended before they were last emptied |
| `Costs.EventsAccountFor` | packages/grey-pipeline/src/pipeline.ts:737-760 | the cost events of the two stages sum to the cost and the tokens of both although a stage without usage has none |
| `Costs.EventsNameTheirStages` | packages/grey-pipeline/src/pipeline.ts:737-760 | a stage has an event iff it used anything, with that stage's own usage and its cost |
| `Costs.StageDelta` | packages/grey-pipeline/src/pipeline.ts:649-657 | the difference of totals around a stage is what its calls used, whatever was counted before |
| `Costs.SumCostsTheBill` | packages/grey-pipeline/src/telemetry/costTracker.ts:112-116 | the cost of usage taken together is the sum of the calls, input and output each at its own price |
| `Costs.RunCosts` | packages/grey-pipeline/src/pipeline.ts:629-760 | the L2 and L3 deltas are those stages' usage, priced call by call, and sum to the totals, their costs to the persisted total, and the events of a persisted run, each under its own stage, to the same figure; an unsaved run has no events |
| `Scores.Aggregate` | packages/grey-pipeline/src/synthesis/scoreAggregator.ts:16-35 | the report of the loops and reductions is the specified one, with the insufficient-data case for fewer than three claims |
| `Scores.ComputeFocusAreaScores` | packages/grey-pipeline/src/synthesis/scoreAggregator.ts:37-61 | a focus score is the rounded mean of that category's claims, and null when it has none |
| `Scores.ScoresStayWithin` | packages/grey-pipeline/src/synthesis/scoreAggregator.ts:63-80 | scores within integer bounds give a rounded confidence and focus scores within them |
| `Scores.FocusIsOfItsCategory` | packages/grey-pipeline/src/synthesis/scoreAggregator.ts:37-61 | a category has a focus score iff a claim is of it, and the score is within the bounds of the claims of that category alone |
| `Scores.VerdictByTotal` | packages/grey-pipeline/src/synthesis/scoreAggregator.ts:63-80 | with three claims or more the verdict passes iff the scores total 69.5 a claim or more and fails iff less than 39.5 a claim; with fewer there is none |
| `Scores.OrderDoesNotMatter` | packages/grey-pipeline/src/synthesis/scoreAggregator.ts:16-80 | any order of the same claims gives the same report |
| `Scores.RisingScoresNeverHurt` | packages/grey-pipeline/src/synthesis/scoreAggregator.ts:63-75 | when scores rise, neither the confidence nor the verdict drops |
| `Scores.ConfidenceIsNearWeightedMean` | packages/grey-pipeline/src/synthesis/scoreAggregator.ts:37-69 | the confidence is within one of the claim-count-weighted mean of the non-null focus scores |
| `RenderLock.HeadlessBrowserResolver.IsRateLimited` | packages/grey-pipeline/src/discovery/HeadlessBrowserResolver.ts:575-582 | drops exactly the entries an hour old or older, and answers whether thirty are left |
| `RenderLock.HeadlessBrowserResolver.EnsureBrowser` | packages/grey-pipeline/src/discovery/HeadlessBrowserResolver.ts:545-573 | a browser with fewer than twenty pages is kept with its count, another is replaced and the count starts again; a failed launch leaves no browser |
| `RenderLock.HeadlessBrowserResolver.Close` | packages/grey-pipeline/src/discovery/HeadlessBrowserResolver.ts:588-598 | only an open browser is closed, and with it the page counter |
| `RenderLock.HeadlessBrowserResolver.ResolveImpl` | packages/grey-pipeline/src/discovery/HeadlessBrowserResolver.ts:85-135 | a render is recorded iff the limit leaves room, a browser is there and the text suffices; then at most thirty records are kept and every page loaded is counted once |
| `RenderLock.StepKeepsLocked` | packages/grey-pipeline/src/discovery/HeadlessBrowserResolver.ts:60-74 | each caller waits for the promise of the ticket before its own, the stored promise is the latest ticket's, the released tickets stay a prefix, and a ticket is released once, by leaving or by an abort found after the wait |
| `RenderLock.RunIsLocked` | packages/grey-pipeline/src/discovery/HeadlessBrowserResolver.ts:60-153 | in every run at most one caller of either kind is inside, callers enter in arrival order, and the released tickets form a prefix |
| `RenderLock.NewerIsSuffix` | packages/grey-pipeline/src/discovery/HeadlessBrowserResolver.ts:575-582 | for a clock that does not run backwards, pruning keeps the end of the history and drops only what is old |
| `RenderLock.StepKeepsRate` | packages/grey-pipeline/src/discovery/HeadlessBrowserResolver.ts:85-115 | because check and record share one lock tenure, the room found by the check is still there when the render is recorded |
| `RenderLock.AtMostThirtyAnHour` | packages/grey-pipeline/src/discovery/HeadlessBrowserResolver.ts:575-586 | in every run, renders recorded within less than an hour number at most thirty |
| `RenderLock.TurnedAwayIff` | packages/grey-pipeline/src/discovery/HeadlessBrowserResolver.ts:575-582 | in every run a caller is turned away at the check iff the last thirty renders ever recorded were recorded within the hour |
| `RenderLock.PageCountIsBounded` | packages/grey-pipeline/src/discovery/HeadlessBrowserResolver.ts:363-365 | the page counter never exceeds 19 + 5 + 1 |
| `Sweeper.LastSweepIsLatest` | packages/grey-sweeper/src/log.ts:47-61 | null iff the chain has no successful sweep logged, else the time of one that none is later than |
| `Sweeper.SweepLog.AppendSweepLog` | packages/grey-sweeper/src/log.ts:31-45 | appends the row at the end, or leaves the log as it was |
| `Sweeper.Sweeper.ExecuteSweep` | packages/grey-sweeper/src/sweep.ts:44-69 | for any destination but the chain's literal wallet nothing is sent and nothing moves |
| `Sweeper.Sweeper.RunTick` | packages/grey-sweeper/src/index.ts:79-235 | one tick with its reads, refuel, decision, transfer, log row and pages, as the step the runs are made of |
| `SweeperRuns.StepConserves` | packages/grey-sweeper/src/sweep.ts:44-69 | no tick, late landing, deposit or restart loses USDC or sends any elsewhere |
| `SweeperRuns.SweepStaysPaced` | packages/grey-sweeper/src/trigger.ts:14-23 | a tick sweeps less than the threshold only a week after every sweep logged for its chain |
| `SweeperRuns.TickCounts` | packages/grey-sweeper/src/index.ts:100-127 | the counter is the length of the trailing run of failed reads; each failed read pages once, critical exactly from the third (always, without a counter), and recovery is paged exactly after three or more |
| `SweeperRuns.SweepsWhenDue` | packages/grey-sweeper/src/trigger.ts:14-23 | after a good read a sweep is tried iff the balance reached 200 USDC, or is not zero and a week passed; a confirmed one puts the whole balance in the pool wallet |
| `SweeperRuns.SweepEmptiesTheWallet` | packages/grey-sweeper/src/index.ts:133-213 | on true reads a sweep is tried iff what the refuel left is due, and a confirmed one leaves the agent nothing; after a failed refuel that spent USDC none can be confirmed |
| `SweeperRuns.RowTellsTheTick` | packages/grey-sweeper/src/index.ts:156-224 | the row of a tick names chain and wallet, is a success iff the sweep was confirmed, with the sum that reached the pool wallet, and has no sum iff nothing could be read |
| `SweeperRuns.SweepIsPaged` | packages/grey-sweeper/src/index.ts:190-234 | a sweep tried is paged once, as swept or as failing, critical unless the error can pass by itself; what left is recorded with its sum and time |
| `SweeperRuns.SentToTheLiteralWallet` | packages/grey-sweeper/src/config.ts:13-58 | what leaves on one of the three chains leaves for that chain's literal wallet |
| `SweeperRuns.TickThrowsIff` | packages/grey-sweeper/src/config.ts:50-58 | a tick throws iff its chain has no listed wallet, then changing nothing; exactly the three chains a sweeper can be configured for have one |
| `SweeperRuns.SweeperIsSound` | packages/grey-sweeper/src/index.ts:79-235 | over any run: USDC is conserved, every swept unit went to the literal wallet, small sweeps keep a week from logged ones, counter and pages follow the reads |
| `SweeperRuns.LastSweepReadsOwnRows` | packages/grey-sweeper/src/log.ts:47-61 | the last sweep of a chain does not depend on rows of other chains |
| `SweeperRuns.ChainsDoNotMeet` | packages/grey-sweeper/src/log.ts:47-61 | in any interleaving of several chains' sweepers on one log, each ends as if it had run alone on its own events and rows |
| `SweeperRuns.SharedLogIsSound` | packages/grey-sweeper/src/index.ts:79-235 | so each is sound whatever the other chains do and log |
| `SweeperRuns.UnwrittenRowForgetsTheSweep` | packages/grey-sweeper/src/index.ts:241-247 | a run in which a sweep's row is not written and a small balance is swept again within the week |
| `SweeperRuns.LateLandingForgetsTheSweep` | packages/grey-sweeper/src/index.ts:214-224 | a run in which a sweep without a receipt is logged as failed, lands afterwards, and a small balance is swept again within the week |
| `Consent.HexDenotes` | packages/grey-ceremony/src/commands/sign-consent.ts:159-160 | the hexadecimal digits written for a number denote it |
| `Consent.HexIsShort` | packages/grey-ceremony/src/commands/sign-consent.ts:159-160 | and number at most k iff the number is below 16 to the k |
| `Consent.HexReadsBack` | packages/grey-ceremony/src/commands/sign-consent.ts:159-161 | the digits, padded to an even count, read back as bytes that denote the number, at most k of them iff it is below 256 to the k |
| `Consent.Buffer.CopyFrom` | packages/grey-ceremony/src/commands/sign-consent.ts:162-164 | overwrites exactly the bytes from the offset on, and fails on a negative offset without writing |
| `Consent.PadIsBigEndianIff` | packages/grey-ceremony/src/commands/sign-consent.ts:158-165 | the 32 bytes decode to the value iff it is between 0 and 2^256 - 1; a larger one fails, a negative one is written as zeros |
| `Consent.HexDenotesItsBytes` | packages/grey-ceremony/src/commands/sign-consent.ts:161-168 | an even count of digits reads as half as many bytes, denoting the same number |
| `Consent.WritePad32` | packages/grey-ceremony/src/commands/sign-consent.ts:158-165 | the buffer filled in place holds that word |
| `Consent.AddressWord` | packages/grey-ceremony/src/commands/sign-consent.ts:167-172 | forty digits in any case become the 32-byte word of the address as a number |
| `Consent.WordIsEncoding` | packages/grey-ceremony/src/commands/sign-consent.ts:158-172 | a 32-byte word is the EIP-712 encoding, digit by digit, of the number it denotes, so no other word decodes to that number |
| `Consent.PreimageIsEncodeData` | packages/grey-ceremony/src/commands/sign-consent.ts:125-135 | the hashed buffer is encodeData of the message as in "Definition of encodeData" of EIP-712, and has 160 bytes |
| `Consent.PreimageIsInjective` | packages/grey-ceremony/src/commands/sign-consent.ts:125-135 | two valid messages have one preimage iff they agree in id, deadline and both accounts |

## Left out

- The poll backstop's early filter and its log-once map: a polled job is an entry at any time, which allows more runs than the filter does.
- Liveness of dispatch per chain: the dedup map is keyed by job id alone, so a job of the same id on another chain is shut out for a while.
- A restart of the ACP adapter, which forgets the three claim structures.
- A socket entry whose handler throws outside its own try: the claim is released in both, the rejection itself is not modelled.
- The bodies of x402 replies, the price table, slugs, and the header-presence check before validation. The hook as written (`X402Hook`) runs with nothing in between; interleaved, it is the state machine of `X402Gate`.
- `AcpHandlers.AcpRun.HandleJobFunded`: with nothing in between; interleaved, it is the state machine of `AcpProtocol`.
- `AcpHandlers.AcpRun.HandleJobCreated`: likewise.
- Malformed addresses and signatures that fail to parse in the x402 gate, which end a request before anything is sent.
- The hosted facilitator and the trust-rung variant of the gate, and its hand-off to the route handler.
- Cross-provider history fetches, beyond the columns they write.
- `ReputationSweep.SweepResolvesExactly`: is about a sweep with nothing else in between; what survives interleaving is in `ReputationRuns`.
- A registry call whose simulation answers from an old block: such a call can be mined and reverted and yet be reported as done, since the receipt's status is not read. Lagging reads of a service's state or of the owner's count, and calls overtaken by earlier ones, are modelled.
- A mech tick whose delivery was sent and then threw: its range is polled again, and what it sent is not in the record of deliveries.
- Building and signing the Safe transaction, response pinning, tool lookup and delivery rates of the mech.
- Columns of the three tables that play no part in matching or counting, the requests table, and the discovery metadata.
- Two pipeline runs at the same time on the same rows: runs follow each other, each possibly cut short.
- Case folding is that of ASCII letters; in the encoder a character is a digit in either case, or another one.
- `Costs.RunCosts`: exact arithmetic; the floating-point sums of the code may differ in the last digits.
- `Scores.ConfidenceIsNearWeightedMean`: claims of the four listed categories only, as their schema has no other.
- `X402Charges.AnsweredIsChargedIff`: there is no clock on the ledger, so a pending transaction whose time window has closed still counts as one that can charge.
- Closing the browser is one step, where the code awaits between the test and the assignments.
- Memory guards, rendering, link scoring and timeouts of the headless browser; a render that fails is one that leaves early.
- The inside of a refuel, of which the sweeper sees the outcome and what it spent; the text of pages and log rows.
- `Consent.PreimageIsInjective`: about the buffer; that its keccak hash tells messages apart is an assumption outside this model, as are the typed-data signature and the domain separator.
- Configuration, ABIs, listings, bridge scripts and prompts.
