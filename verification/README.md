# GlassEQServer billing and activation: a verified model

GlassEQServer sells perpetual and monthly licenses through Stripe Payment Links and activates them on at most two
Macs. Its hard part is keeping local rows right while webhooks, a repair loop and a daily scan process duplicated,
reordered and half-finished Stripe events at the same time. This project models that protocol, the arithmetic of
monthly terms that it feeds, and the activation service that consumes them, and proves what they promise.

## What is modelled

**The billing protocol of one order** (`BillingRows`, `BillingProtocol`, `BillingInvariant`, `BillingRun`,
`BillingSteps`, `BillingSerial`, `BillingTransitions`, `BillingEvidence`, `BillingTheorems`, `PurchaseEffects`,
`AdjustmentEffects`). `BillingRows` holds the rows that one order lock protects and says, as functions, what each
order-locked transaction makes of them; `PurchaseEffects` and `AdjustmentEffects` say when each of them goes through
and exactly what it leaves, case by case. `BillingProtocol` is a state machine in which any number of attempts, each
with a program counter and a private snapshot, run beside Stripe, an operator and each other. Every order-locked
transaction is one step; reads from Stripe, the intent, the cancellation call, its late or lost delivery, the
confirming read, the commit and crashes are separate steps. Stripe keeps a history with one entry per tick, so
"current when it was read" is a fact about the history. The invariant (`BillingRun.Inv`) covers the tables, every
snapshot in flight, every cancellation on its way and the log of committed transactions. The ordinary perpetual commit
compares no revision, as in the code, and is a different kind of step.

**The database side, statement by statement** (`OrderStore`, `Repair`). A class with the order's tables as fields and
a method for each transaction. Each method is proved to leave exactly the rows that `BillingRows` gives, and to roll
back to the rows it found on failure. `Repair` runs the repair loop on the tables of all orders, with every call to
Stripe free to fail, and shows that it repairs everything while Stripe answers.

**All orders together** (`BillingSystem`): many orders, with fresh license identifiers.

**Terms** (`Subscription`, `Entitlement`, `Restoration`, `EntitlementReads`, `StaleReads`): the projection of a Stripe
subscription into a stored row, the terms a row grants at an instant, and the claims the issuer signs. Instants are
integers in microseconds and `Unix()` is floor division. Activation reads a license in one statement that locks only
the license row, so the subscription beside it may be older; `EntitlementReads` is about such pairs of rows.

**Activation** (`ActivationSlots`, `ActivationEffects`, `Idempotency`, `LicenseKeys`): slots and revisions at
statement level, because `DeactivateManaged` does not take the license lock that `Activate` holds, and what whole
requests do; replay records as a machine of lookups, locks, stores and cleanup; keys, sessions and recovery tokens as
a class.

**The daily scan** (`Reconciliation`): the nested loops of `Reconciler.Run` over any lister and any database answers.

## What is assumed of the environment

- A canceled or incomplete-expired subscription never bills again, and a paid invoice stays paid with its line period
  unchanged (`BillingProtocol.Evolves`).
- A refund or dispute keeps its kind, charge, amount and creation time; only its status moves.
- The association of a Stripe object with a Session, and of a Session with one payment intent or subscription, is
  stable (`Binding`), so an event belongs to its order for good. `ReferencesClashOnlyInStripe` states
  what uniqueness takes from this.
- A value that Stripe returns was current at some tick since the attempt began reading. Its parts may be of different
  ticks.
- Random license identifiers, keys and tokens are fresh; hashes are injective; sealing and opening are inverse.
- An operator only revokes licenses.
- The type of an event goes with the prefix of its object, as decoding checks.
- The clock that replay records are compared with is shared and does not run backwards. Times that a request read
  before it took a lock need not follow the order of the transactions.

## Where the code and its documentation differ

- `Docs/Billing.md` says an adjustment cannot extend a lapsed deadline. `AdjustmentExtendsIff` says exactly when a commit
  extends a stored one. Without a newly paid invoice it does in one case: a dispute that was won or withdrawn, about a
  fully paid charge of an order that nothing blocks, whose license is active, whose subscription still renews, and
  whose row had lost its recovery window. `LapsedDeadlineCanMove` is such an order. Lifting a restriction never does it
  (`EndedRestorationNeverExtends`), because billing has then ended.
- A transaction is meant to apply only what was read after the previous commit on its order. An adjustment with nothing
  to cancel applies what it read before it committed its own intent. `CommitOrderIsObservationOrder` proves that this is
  the only exception, and `OutcomeMayPredateItsIntent` is a run in which it occurs.
- A monthly license that billing restricts is meant to have its terminal time, and in every committed state it has. A
  read that waits for the license's lock across the restriction still fails for want of it, because it meets the new
  license state with the old subscription row. `PairedReadFailsIff` proves that this is the only failure and exactly
  when it occurs; `TerminalTimeCanBeMissing` is a run. The older row can also grant more than is stored
  (`OlderRowOutlastsIff`, `AccessCanOutlastTheStoredRow`), though never more than 21 days past what was paid for.
- State, paid period and deadline after two histories of the same payments agree when the histories end in the same
  active, past-due or customer-canceled observation. After exhausted retries they need not: that observation keeps the
  deadline it finds. `HistoriesConvergeIff` gives the exact condition, `UnpaidHistoriesDiffer` two histories.
- The documented recovery deadline of a failed renewal is "at least" 14 days after the paid period; in every reachable
  row it is exactly that.
- The guard that leaves a blocked monthly order alone while its subscription can bill is never taken
  (`BlockedCommitHasEndedBilling`), and neither is the report of pending work without a retryable event
  (`RepairObject`).

## Model

| member | source | states |
|---|---|---|
| `BillingSerial.CommitOrderIsObservationOrder` | internal/billing/monthly_event.go:212-228 | in every run, of any two commits on the order a revision-checked later one applies only what was read after the earlier, except exactly that an attempt's outcome may apply what was read before its own intent, when the rows it finds call for no cancellation; an attempt's two commits are adjacent, so the run is serial |
| `BillingSerial.OutcomesFollowTheirIntent` | internal/billing/adjustment_event.go:79-105 | in every run each adjustment outcome comes right after its own committed intent, and applies a reading made after it exactly when the order is monthly and a cancellation is called for |
| `BillingSerial.OutcomeMayPredateItsIntent` | internal/billing/adjustment_event.go:75-105 | a run in which an outcome applies what was read before its intent |
| `BillingSerial.CommitKeepsTwoPhase` | internal/billing/adjustment_event.go:231-237 | a commit lands right after its own intent or belongs to an attempt that had committed nothing |
| `BillingSerial.RunIsTwoPhase` | internal/billing/adjustment_event.go:79-105 | every reachable log is made of single commits and adjacent pairs of intent and outcome |
| `BillingTheorems.MonthlyCommitIsFresh` | internal/billing/monthly_event.go:119-228 | a monthly commit that goes through applies values read since its revision was read, to rows nobody but a revoking operator has touched since |
| `BillingTheorems.AdjustmentCommitIsFresh` | internal/billing/adjustment_event.go:231-256 | the same for an adjustment commit, counted from its last read of Stripe |
| `BillingTheorems.MonthlyCommitNeverPanics` | internal/billing/monthly_event.go:283-295 | the first invoice, fetched only for orders without a license, is there whenever the commit dereferences it, and no row it reads is missing |
| `BillingTheorems.SettledRestrictionsAreInForce` | internal/billing/adjustment_event.go:221-331 | whenever no adjustment of the order is unfinished, a blocking row means the order has no license or a restricted or revoked one, and a blocking refund means a refunded or revoked one |
| `BillingTheorems.RestrictedCannotBill` | internal/billing/adjustment_event.go:88-104 | a monthly license that billing restricted always has a subscription that can no longer bill |
| `BillingTheorems.BlockedCommitHasEndedBilling` | internal/billing/adjustment_event.go:295-300 | a commit that finds a blocking row on a monthly order always holds a snapshot in which billing has ended: the guard is dead |
| `BillingTheorems.CancellationIsCalledFor` | internal/billing/adjustment_event.go:83-93 | every call to cancel, and every cancellation on its way, was preceded by a committed row that calls for it, and such a row is still there as long as there is anything to cancel, across crashes and lost replies |
| `BillingTheorems.CancellationIsNotLost` | internal/billing/adjustment_event.go:86-93 | a cancellation that was sent is on its way until billing has ended, over every continuation, and billing does not begin again |
| `BillingTheorems.IntentLeadsToCancel` | internal/billing/adjustment_event.go:83-104 | a worker that stored a blocking intent on a monthly order and was not overtaken goes on to cancel, unless it saw billing ended, and then reads again |
| `BillingTheorems.NoOrdinaryWriteBeforeConfirmation` | internal/billing/adjustment_event.go:79-105 | between a stored intent to cancel and a commit whose snapshot showed billing ended, no ordinary write commits, in any run |
| `BillingTheorems.FlagsOrConfirms` | internal/billing/adjustment_event.go:246-250 | the step of that argument: an intent is still stored, or a confirming commit is in the log |
| `BillingTheorems.StepClears` | internal/billing/adjustment_event.go:246-250 | only a commit whose snapshot showed billing ended clears the last intent to cancel |
| `BillingTheorems.ProcessedEventIsInert` | internal/billing/event.go:245-260 | once an event is processed, no attempt at it changes a row, an event or the log, whatever the interleaving |
| `BillingTheorems.OutcomesAreFinal` | internal/billing/event.go:137-147 | over every run, a processed event keeps its outcome: duplicates are applied once |
| `BillingTheorems.FulfilledOrdersHaveOneLicense` | internal/billing/event.go:197-213 | in every run an order has exactly one license if it is fulfilled and none if it is not; a monthly one has its subscription row |
| `BillingTheorems.NothingIsUndone` | internal/billing/adjustment_event.go:285-372 | over any stretch of a run fulfilment is final, a refunded license is only ever refunded or revoked, and a revoked one stays revoked |
| `BillingTheorems.RevocationIsFinal` | internal/billing/adjustment_event.go:283-285 | a license that an operator revokes stays revoked in every continuation, whatever billing does afterwards |
| `BillingTheorems.IssuedOnlyUnblocked` | internal/billing/adjustment_event.go:352-357 | a license appears only on an order that had none, and while nothing blocks it, on all three issuing paths |
| `BillingTheorems.LiftedOnlyUnblocked` | internal/billing/adjustment_event.go:333-371 | a chargeback becomes active only through an adjustment commit with nothing blocking the order, whose attempt saw, at ticks of its own reading, the dispute decided for the seller and the charge paid and not refunded; a monthly license is then eligible at that instant with its access ending with the paid period |
| `BillingTheorems.RestrictedOnlyForCause` | internal/billing/adjustment_event.go:303-331 | a license is restricted only through an adjustment commit that leaves a blocking row of that kind, of whose object Stripe has said, at some tick, that the refund succeeded in full or the dispute is open or lost |
| `BillingEvidence.StoredStatesWereSeen` | internal/billing/adjustment_event.go:172-205 | in every reachable world each stored row is blocking or resolved because Stripe has given its object such a status at some tick |
| `BillingEvidence.ViewIsEvidence` | internal/billing/adjustment.go:57-132 | what an attempt holds of a refund or dispute and its charge is what Stripe said while it was reading |
| `BillingTheorems.RestrictionNeverExtendsAccess` | internal/billing/adjustment_event.go:319-330 | as long as a license is restricted its access ends no later than before, and its paid terms do not change |
| `BillingTheorems.ReachableTermsArePaidForAndSigned` | internal/activation/service.go:512-548 | for every monthly license of a single committed state and every instant: the period is the line of a paid invoice, the deadline is that period or 14 days more, terms are computed without error, the issuer accepts them, and they expire within 21 days of the paid period |
| `BillingTheorems.EveryLicenseHasTerms` | internal/activation/service.go:498-548 | in every single committed state neither stored-state error can occur, and terms are granted exactly while the stored access lasts |
| `EntitlementReads.PairedReadFailsIff` | internal/activation/service.go:436-455 | of a license read as its lock finds it and a subscription row as the statement found it before: the terms fail exactly when a restriction came in between, with the missing terminal time, and are otherwise granted exactly while that pair says |
| `EntitlementReads.PairedTermsArePaidForAndSigned` | internal/activation/lifecycle.go:220-238 | what such a read grants passes the issuer, rests on a paid invoice, and expires within 21 days of the period paid for then and of the one paid for now |
| `EntitlementReads.OlderRowOutlastsIff` | internal/activation/lifecycle.go:220-238 | an active license read with an older row has access beyond the stored one exactly when the recovery window was lost since and less than a window was newly paid for, and by at most 14 days |
| `EntitlementReads.PaidPeriodNeverMovesBack` | internal/billing/subscription.go:161-166 | over any stretch of a run the stored paid period never moves back |
| `EntitlementReads.RestorationNeverMovesBack` | internal/billing/adjustment_event.go:374-407 | nor does a restoration move it back |
| `StaleReads.TerminalTimeCanBeMissing` | internal/activation/service.go:518-526 | a run and a read of a license across its chargeback that fails at every instant |
| `StaleReads.AccessCanOutlastTheStoredRow` | internal/activation/service.go:512-547 | a run and a read of a license across its cancellation that grants 14 days more than is stored |
| `BillingTheorems.UnfinishedWorkIsRetryable` | internal/billing/adjustment_event.go:112-134 | a cancellation still to make is pending, and pending work has an unprocessed refund or dispute event for its object |
| `BillingSystem.LicensesAreFulfilledOrders` | internal/activation/purchase.go:24-77 | over all orders, licenses and fulfilled orders are in bijection |
| `BillingSystem.ReferencesClashOnlyInStripe` | migrations/00004_checkout_billing.sql:9-28 | stored payment and subscription references of two orders are equal exactly when Stripe ties both their Sessions to the same one, and every stored last invoice is a paid one of its own order |
| `BillingSystem.SystemRunKeepsInv` | internal/billing/event.go:288-304 | every order keeps the protocol invariant, and no license is shared, in every run of all orders |
| `BillingSteps.RunKeepsInv` | internal/billing/adjustment_event.go:28-106 | every reachable world satisfies the protocol invariant |
| `BillingSteps.StepKeepsInv` | internal/billing/adjustment_event.go:28-106 | every step of every actor keeps it |
| `BillingSteps.PrepareKeepsInv` | internal/billing/adjustment_event.go:150-219 | storing an intent keeps it and gives the attempt what it relies on afterwards |
| `BillingSteps.ReadIntentKeepsInv` | internal/billing/adjustment_event.go:84-93 | an attempt that reads the intents cancels only where one calls for it, and commits without a second read only where none is needed |
| `BillingSteps.CallCancelKeepsInv` | internal/billing/adjustment_event.go:88-93 | sending the cancellation keeps it, whether or not a reply comes |
| `BillingSteps.DeliverKeepsInv` | internal/billing/adjustment_event.go:94-95 | so does a cancellation that takes effect long after its caller gave up |
| `BillingSteps.ConfirmKeepsInv` | internal/billing/adjustment_event.go:96-103 | the confirming read gives a snapshot in which billing has ended |
| `BillingSteps.FinishAdjustmentKeepsInv` | internal/billing/adjustment_event.go:221-263 | committing an adjustment keeps the invariant for itself and every other attempt |
| `BillingSteps.FinishMonthlyKeepsInv` | internal/billing/monthly_event.go:199-237 | so does a monthly commit |
| `BillingSteps.FinishCheckoutKeepsInv` | internal/billing/event.go:172-242 | and a perpetual one, which checks no revision |
| `BillingSteps.RevokeKeepsInv` | internal/billing/adjustment_event.go:285-287 | and an operator's revocation at any moment |
| `BillingRun.OthersUnaffected` | internal/billing/monthly_event.go:212-218 | what an attempt in flight relies on survives every step of another |
| `BillingRun.LogExtended` | internal/billing/adjustment_event.go:235-256 | a commit extends the log without overlapping anyone's observations |
| `BillingRun.SeenIsFaithful` | internal/billing/adjustment.go:178-261 | whatever a snapshot says of paid invoices, ended billing and the identity of an adjustment is still so when it is applied |
| `BillingTransitions.StepMoves` | internal/billing/adjustment_event.go:265-372 | no step of anyone moves a license other than by the allowed moves, lifts one improperly, or extends a restricted one |
| `BillingTransitions.OrdinaryMoves` | internal/billing/monthly_event.go:239-341 | ordinary commits move a license only by being its first issue, and leave restricted ones and their terms alone |
| `BillingTransitions.AdjustmentMoves` | internal/billing/adjustment_event.go:265-372 | adjustment commits make only the allowed moves |
| `BillingTransitions.RestrictionStartsAtEarliest` | internal/billing/adjustment_event.go:319-330 | the terminal time is the earliest of its old value, every blocking effective time and the deadline |
| `BillingTransitions.PaidCheckoutIsSettled` | internal/billing/event.go:172-213 | a paid perpetual Session is processed exactly when nothing is unfinished and its charge is not refunded or the order is blocked, and is then fulfilled or blocked |
| `BillingTransitions.MonthlyIsSettledIff` | internal/billing/reconciliation.go:130-141 | exactly when a processed monthly Session is fulfilled or blocked |
| `BillingInvariant.CheckoutKeepsRows` | internal/billing/event.go:181-238 | a perpetual commit keeps every constraint on the rows |
| `BillingInvariant.MonthlyKeepsRows` | internal/billing/monthly_event.go:239-341 | a monthly reconciliation keeps them, never meets a missing row, and never dereferences a missing invoice |
| `BillingInvariant.ReconcilingKeepsRows` | internal/billing/monthly_event.go:248-282 | reconciling a licensed order keeps the stored period tied to a paid invoice |
| `BillingInvariant.IssuingReconciledKeepsRows` | internal/billing/monthly_event.go:283-323 | issuing a monthly license stores terms that were paid for |
| `BillingInvariant.ReconciledIsPaidFor` | internal/billing/subscription.go:125-207 | a reconciled projection satisfies the documented table and its period is the line of a paid invoice |
| `BillingInvariant.PrepareKeepsRows` | internal/billing/adjustment_event.go:150-219 | storing an intent keeps the constraints; a cancellation is always pending; the stored identity of an object never mismatches |
| `BillingInvariant.PrepareKeepsEvents` | internal/billing/adjustment_event.go:173-218 | storing an intent leaves every pending object an event to retry |
| `BillingInvariant.SettledRows` | internal/billing/adjustment_event.go:238-250 | what the three updates of a commit make of each adjustment row, and that billing has ended if any still blocks |
| `BillingInvariant.SettlingKeepsEvents` | internal/billing/adjustment_event.go:238-261 | completing an event strands no other pending object |
| `BillingInvariant.RestrictKeepsRows` | internal/billing/adjustment_event.go:301-331 | restricting puts every blocking row in force and sets a terminal time no later than the deadline |
| `BillingInvariant.RestoreKeepsRows` | internal/billing/adjustment_event.go:333-371 | restoring or late issuing keeps the constraints |
| `BillingInvariant.RestoredIsPaidFor` | internal/billing/adjustment_event.go:374-407 | a restored projection is valid and paid for, grants access now if it goes ahead, and no recovery window once billing has ended |
| `BillingInvariant.CommitKeepsRows` | internal/billing/adjustment_event.go:221-263 | an adjustment commit keeps the rows and the events, and never meets a missing row |
| `BillingRows.RefundsBlockOnlyInFull` | internal/billing/adjustment.go:71-88 | a refund blocks exactly when it succeeded and is full, is never resolved, and its own charge no longer counts as paid |
| `BillingRows.StatusMeans` | internal/billing/adjustment.go:57-132 | for every refund, dispute and charge: when it is accepted; blocking exactly when the refund succeeded in full or the dispute needs a response, is under review or lost; resolved exactly when the dispute is won, prevented or closed as a warning; otherwise neither |
| `BillingRows.EarliestBlocking` | internal/billing/adjustment_event.go:269-272 | the earliest effective time of the blocking rows exists and is a lower bound that is attained |
| `PurchaseEffects.CheckoutGivesWay` | internal/billing/adjustment_event.go:16-26 | before unfinished work a perpetual commit fails and is retried; before a restriction it completes the event and changes nothing |
| `PurchaseEffects.PaidCheckoutCommitsIff` | internal/billing/event.go:172-213 | with nothing in its way a paid Session commits exactly when its charge is not refunded; the order is then fulfilled, with exactly the new license active if it had none and as it was otherwise |
| `PurchaseEffects.UnpaidCheckoutCommitsIff` | internal/billing/event.go:214-242 | an unpaid Session fails exactly when the order is unfulfilled and the Session has expired, and marks the order failed exactly on a payment-failed event of an unfulfilled order |
| `PurchaseEffects.MonthlyGivesWay` | internal/billing/monthly_event.go:212-237 | at another revision or before unfinished work a monthly commit fails; before a restriction it completes the event and changes nothing |
| `PurchaseEffects.ReconcilesExactly` | internal/billing/subscription.go:161-207 | reconciling succeeds exactly in the states billing knows; period and last invoice are the latest paid line if it is later and not the last one, and state and deadline are those of the table |
| `PurchaseEffects.RenewalIsStored` | internal/billing/monthly_event.go:239-282 | an active, unblocked license at its revision: the commit succeeds exactly if the subscription is accepted, and stores the period of its paid latest invoice, with the state and deadline that follow, and nothing else |
| `PurchaseEffects.OtherLicensedCommits` | internal/billing/monthly_event.go:248-262 | a restricted or revoked license is left as it is; a licensed order with an incomplete Session is refused |
| `PurchaseEffects.MonthlyPurchaseIsFulfilledIff` | internal/billing/monthly_event.go:283-323 | an unlicensed order is fulfilled exactly when its first invoice is paid and the subscription is active or was canceled by the customer with paid time left, with exactly the new license and its reconciled row |
| `PurchaseEffects.UnpaidMonthlyIsRecorded` | internal/billing/monthly_event.go:324-341 | otherwise the order is failed exactly on an expired Session, a failed payment or an ended or unpaid subscription, and its subscription is recorded |
| `PurchaseEffects.MonthlyWriteCoversItsInvoice` | internal/billing/monthly_event.go:265-282 | in every reachable world, after a monthly write on an active unblocked license the stored period is at least the line end of the paid latest invoice it read |
| `PurchaseEffects.PaidRenewalIsNeverLost` | internal/billing/monthly_event.go:265-282 | and stays so in every continuation of the run |
| `AdjustmentEffects.PreparesIff` | internal/billing/adjustment_event.go:150-195 | an intent fails exactly when the order has moved on, or the object is stored as something else and there is something to store |
| `AdjustmentEffects.IntentIsStored` | internal/billing/adjustment_event.go:172-219 | an intent that goes through either finds nothing to do and completes the event, or leaves exactly its row pending in the decided state, calling for a cancellation exactly if it did or blocks a monthly order |
| `AdjustmentEffects.ReadyIsCommittable` | internal/billing/adjustment_event.go:221-237 | in every reachable world an up-to-date attempt at an unprocessed event meets the conditions of the following outcomes |
| `AdjustmentEffects.CommitSettles` | internal/billing/adjustment_event.go:231-263 | a commit at its revision settles its own object in the state Stripe gave, drops cancellations exactly when billing has ended, and leaves every other row and event |
| `AdjustmentEffects.PerpetualLicenseAfter` | internal/billing/adjustment_event.go:265-371 | a perpetual commit always goes through; a charged-back license comes back exactly when the view is resolved, the charge paid and not refunded, and nothing blocks; a blocking row refunds or charges back; every other license stays |
| `AdjustmentEffects.PerpetualOrderAfter` | internal/billing/adjustment_event.go:301-357 | without a license the same condition issues exactly the new one and fulfils the order, and a blocking row fails it |
| `AdjustmentEffects.MonthlyIsRestricted` | internal/billing/adjustment_event.go:295-331 | a blocking row refunds or charges back a monthly license that is not revoked, and keeps its paid terms |
| `AdjustmentEffects.UnlicensedMonthlyFails` | internal/billing/adjustment_event.go:303-311 | and fails an order without a license |
| `AdjustmentEffects.MonthlyIsLeftAlone` | internal/billing/adjustment_event.go:276-371 | a revoked license is left alone, and so are a refunded one and every order with nothing to restore when nothing blocks |
| `AdjustmentEffects.MonthlyIsRestoredIff` | internal/billing/adjustment_event.go:333-371 | with everything to restore the commit fails exactly for an unexplained cancellation; a charged-back monthly license becomes active, with exactly the restored projection, exactly when the access the snapshot shows as paid for is not over |
| `AdjustmentEffects.UnlicensedMonthlyIsIssuedIff` | internal/billing/adjustment_event.go:343-365 | and an order without a license gets the new one under the same condition |
| `AdjustmentEffects.ProjectionRestores` | internal/billing/adjustment_event.go:374-407 | the restored projection in full: when it fails, when it changes nothing, its period, state and deadline, and whether it is eligible |
| `Restoration.AdjustmentExtendsIff` | Docs/Billing.md:54 | an adjustment commit moves a stored deadline later exactly when it resolves a dispute about a fully paid charge, nothing blocks the order, the license may be restored, and something was newly paid past the old deadline or a renewing subscription had lost its window |
| `Restoration.RestorationExtendsIff` | internal/billing/adjustment_event.go:374-407 | the same of the projection, and when it is eligible after billing has ended |
| `Restoration.AdvancedPeriod` | internal/billing/adjustment_event.go:383-392 | the loop over the invoices ends at the latest newly paid period |
| `Restoration.LapsedDeadlineCanMove` | Docs/Billing.md:54 | valid rows and a current snapshot, with nothing newly paid, on which a commit moves a lapsed deadline 14 days later |
| `Restoration.EndedRestorationNeverExtends` | internal/billing/adjustment_event.go:401-406 | once billing has ended, a restoration without a newly paid invoice extends nothing |
| `OrderStore.Store.constructor` | internal/billing/event.go:288-293 | the rows of a new payment link order |
| `OrderStore.Store.MatchingBillingEvent` | internal/billing/event.go:245-260 | reports a recorded event as processed or not, and refuses an identifier reused for something else |
| `OrderStore.Store.RecordEvent` | internal/billing/event.go:138-147 | records an event once however often it is delivered |
| `OrderStore.Store.ProcessCheckout` | internal/billing/event.go:172-242 | leaves exactly the rows of the perpetual specification, whose outcomes PaidCheckoutCommitsIff and UnpaidCheckoutCommitsIff give; a failure changes nothing |
| `OrderStore.Store.CommitMonthlyEvent` | internal/billing/monthly_event.go:199-237 | leaves exactly the rows of the monthly specification, whose outcomes RenewalIsStored and MonthlyPurchaseIsFulfilledIff give, only at the revision that was read; a failure changes nothing |
| `OrderStore.Store.ApplyMonthly` | internal/billing/monthly_event.go:239-341 | the same for its body: restriction, reconciliation, issue, or record of an unpaid order |
| `OrderStore.Store.Reconcile` | internal/billing/monthly_event.go:248-282 | the same for a licensed order, whose outcomes RenewalIsStored and OtherLicensedCommits give |
| `OrderStore.Store.IssueMonthly` | internal/billing/monthly_event.go:286-323 | the same for issuing |
| `OrderStore.Store.FulfilMonthlyOrder` | internal/billing/adjustment_event.go:423-441 | the license, its subscription row and the fulfilled order |
| `OrderStore.Store.Prepare` | internal/billing/adjustment_event.go:150-219 | leaves exactly the specified intent, event and revision; an event of no order is only completed; a failure changes nothing |
| `OrderStore.Store.Commit` | internal/billing/adjustment_event.go:221-263 | leaves exactly the specified rows, whose outcomes PerpetualLicenseAfter and MonthlyIsRestoredIff give, only at the revision that was read; a failure changes nothing |
| `OrderStore.Store.Settle` | internal/billing/adjustment_event.go:238-250 | the three updates amount to the specified rows |
| `OrderStore.Store.Apply` | internal/billing/adjustment_event.go:265-372 | restricts, restores or leaves alone exactly as specified |
| `OrderStore.Store.EarliestEffective` | internal/billing/adjustment_event.go:269-272 | a scan finds the earliest effective time of the blocking rows |
| `OrderStore.Store.RestrictOrder` | internal/billing/adjustment_event.go:301-331 | exactly the specified restriction |
| `OrderStore.Store.RestoreOrder` | internal/billing/adjustment_event.go:333-371 | exactly the specified restoration, whose outcomes PerpetualLicenseAfter and MonthlyIsRestoredIff give |
| `OrderStore.RestoreProjection` | internal/billing/adjustment_event.go:374-407 | the loop over the three invoices computes the fold of their paid periods |
| `Repair.ProcessAdjustment` | internal/billing/adjustment_event.go:28-106 | run alone, changes no row for an object of another order, and settles at most its own object; success leaves it not pending, a failure anywhere leaves its pending mark; and it succeeds whenever Stripe answers consistently and a cancellation it asked for took effect |
| `Repair.ConsistentIntentIsStored` | internal/billing/adjustment_event.go:172-195 | the intent of a reading that agrees with the stored row is always stored |
| `Repair.ExplainedCommits` | internal/billing/adjustment_event.go:221-263 | the outcome of a reading whose subscription is in a known state is always committed |
| `Repair.OldestPending` | internal/billing/adjustment_event.go:116-125 | finds a pending adjustment that has waited longest, if any is pending |
| `Repair.EarliestEvent` | internal/billing/adjustment_event.go:119-123 | finds an earliest unprocessed event of the object, if there is one |
| `Repair.RepairPendingAdjustment` | internal/billing/adjustment_event.go:112-148 | over all orders, takes up an adjustment that has waited longest; success takes exactly that one off the pending ones of all orders, failure none, there is nothing to do exactly when none is pending, and it does not fail while Stripe answers |
| `Repair.RepairIn` | internal/billing/adjustment_event.go:132-147 | the repair of one order's adjustment leaves every other order as it was |
| `Repair.RepairObject` | internal/billing/adjustment_event.go:132-147 | never lacks an event to retry and never leaves what it processed pending; success takes exactly this object off the pending ones of its order, failure none |
| `Repair.OldestOfAll` | internal/billing/adjustment_event.go:116-125 | finds an adjustment of any order that has waited longest, if any is pending |
| `Repair.RepairAll` | cmd/glasseqserver/main.go:206-226 | the loop comes to rest; repairs done plus what is left over all orders is what was pending, without a failure nothing is left, and there is no failure as long as Stripe answers |
| `Subscription.ReconcileKeepsTable` | internal/billing/subscription.go:161-207 | every reconciled row fits the documented table of states and deadlines |
| `Subscription.OnlyANewPaidInvoiceExtends` | internal/billing/subscription.go:125-166 | the period moves only forward, only to the line end of a paid invoice other than the last one |
| `Subscription.PeriodEndIsMaximumPaid` | internal/billing/subscription.go:161-166 | after any history the period end is the greatest paid line end seen |
| `Subscription.ReorderingKeepsPeriodEnd` | internal/billing/subscription.go:161-166 | no reordering or repetition changes it |
| `Subscription.DecidingObservation` | internal/billing/subscription.go:167-206 | the state and deadline after an active, past-due or customer-canceled observation depend on the paid period alone |
| `Subscription.HistoriesConverge` | internal/billing/subscription.go:161-207 | two histories of the same payments that end in the same such observation agree on state, period and deadline |
| `Subscription.HistoriesConvergeIff` | internal/billing/subscription.go:185-198 | for any accepted last observation: exactly when they agree |
| `Subscription.KeptDeadlinesAgreeIff` | internal/billing/subscription.go:185-198 | the case of an observation that keeps the deadline it finds |
| `Subscription.UnpaidHistoriesDiffer` | internal/billing/subscription.go:178-186 | two such histories that do not agree |
| `Entitlement.IssuerAcceptsEligibleTerms` | internal/activation/service.go:512-548 | for every stored row and sub-second instant, terms are computed without error, are eligible exactly until access ends, and pass the issuer's checks after rounding to seconds |
| `Entitlement.ActiveTermsAcceptedIff` | internal/entitlement/issuer.go:216-238 | the issuer accepts the terms of an active license exactly when the stored period does not outlast the deadline, to the second |
| `Entitlement.EntitlementNeverOutrunsPayment` | internal/activation/service.go:532-547 | no entitlement expires later than 21 days after the paid period |
| `Entitlement.GrantsExactly` | internal/activation/service.go:498-548 | for every stored license and instant: which are errors, until when terms are granted, and their state, seconds, expiry and refresh |
| `Entitlement.ClaimsAcceptedIff` | internal/entitlement/issuer.go:216-238 | the issuer signs monthly claims exactly when their state is named, their times are in order and expiry is seven days after recovery |
| `ActivationSlots.AtMostTwoActive` | internal/activation/service.go:169-250 | no interleaving of statements gives a license more than two active activations or breaks the constraints of their table |
| `ActivationSlots.RevisionsStrictlyIncrease` | internal/activation/lifecycle.go:82-106 | revisions returned for an activation strictly increase over concurrent activations and refreshes |
| `ActivationSlots.ReactivationRetires` | internal/activation/service.go:236-243 | activating an installation again retires the token it had |
| `ActivationSlots.ReplacedTokenCannotRefresh` | internal/activation/lifecycle.go:42-74 | a retired token never refreshes again in any continuation |
| `ActivationSlots.ReleaseKeepsRoom` | internal/activation/management.go:160-170 | a release without the license lock frees exactly its slot and makes room, whatever an activation has counted |
| `ActivationSlots.ReleaseKeepsInv` | internal/activation/management.go:143-178 | leaves the row not active and keeps what every open transaction relies on |
| `ActivationEffects.ManagedReleaseFrees` | internal/activation/management.go:160-170 | releasing an active row that nobody has locked gives it up at that time with its installation, token and revision, changes no other row, frees exactly its slot, and lets whoever was looking for one go on |
| `ActivationEffects.ManagedReleaseIsIdempotent` | internal/activation/management.go:160-170 | a second release, or one of a row that is not active, changes nothing |
| `ActivationEffects.OwnReleaseFrees` | internal/activation/lifecycle.go:158-172 | a Mac that writes its own release has given up exactly its row when the transaction commits, whatever other statements ran in between |
| `ActivationEffects.WrittenStays` | internal/activation/lifecycle.go:144-167 | until it ends, nobody changes what a transaction has written or the row it wrote over |
| `ActivationEffects.ActivatesIff` | internal/activation/service.go:177-259 | the statements of an activation go through exactly when the Mac is active already or fewer than two are, and its revision is not exhausted; then exactly its row is active, with the new token at the next revision |
| `ActivationEffects.ByTokenIff` | internal/activation/lifecycle.go:42-112 | a refresh goes through exactly on an active row with a revision left and only advances it; a release always does, and gives up an active row and leaves any other |
| `ActivationSlots.CommitKeepsInv` | internal/activation/service.go:236-259 | committing a counted or re-activated row keeps the cap, the constraints and the order of revisions |
| `ActivationSlots.StatementKeepsInv` | internal/activation/lifecycle.go:57-106 | every statement keeps the invariant |
| `Idempotency.OneEffectPerLifetime` | internal/activation/service.go:590-625 | for one key, a second state change commits no earlier than 24 hours after the first was begun |
| `Idempotency.LiveRecordStands` | internal/activation/service.go:602-608 | a record that has not expired is never overwritten or removed |
| `Idempotency.ReplaysAreStoredAnswers` | internal/activation/service.go:348-371 | what is replayed is the stored answer of a state change for the same key and request, looked up within its lifetime |
| `Idempotency.StoringNeverFails` | internal/activation/service.go:614-620 | the report that a replay changed under the lock is unreachable |
| `Idempotency.LiveAnswerDecides` | internal/activation/service.go:348-371 | in every reachable state, within the lifetime of a stored answer the same request gets that answer, another under its key the conflict, and neither goes further |
| `Idempotency.WaitingRequestIsTold` | internal/activation/service.go:150-162 | so does one that was waiting for the lock while the answer was stored |
| `Idempotency.FreshRequestCommits` | internal/activation/service.go:119-259 | a request under a key without a live answer, whose credential nobody has locked, goes all the way and leaves exactly its record and its effect |
| `Idempotency.ClearedRequestStores` | internal/activation/service.go:145-167 | a request that found nothing under its lock still finds nothing in its way when it stores |
| `Idempotency.RunKeepsInv` | internal/activation/service.go:119-259 | every reachable state of requests, locks, records and replays satisfies the invariant |
| `LicenseKeys.WaitingIsEnough` | internal/activation/rotation.go:137-149 | waiting the returned number of seconds is always enough, and one second less never is |
| `LicenseKeys.LastRotationIsLatest` | internal/activation/rotation.go:139-142 | the greatest revocation time is the time of the latest rotation |
| `LicenseKeys.RotationKeepsKeys` | internal/activation/rotation.go:93-115 | after a rotation there is one active key and one revoked key, the latest |
| `LicenseKeys.RotationKeepsTokens` | internal/activation/rotation.go:116-128 | rotations stay a day apart and each consumes a session of its own |
| `LicenseKeys.ExchangingKeepsTokens` | internal/activation/recovery.go:87-112 | a recovery token is exchanged at most once |
| `LicenseKeys.LicenseCredentials.constructor` | internal/activation/purchase.go:65-70 | a license starts with one active key |
| `LicenseKeys.LicenseCredentials.CreateManagementSession` | internal/activation/management.go:51-70 | opens a session exactly for the hash of an active key |
| `LicenseKeys.LicenseCredentials.LastRotation` | internal/activation/rotation.go:137-149 | finds the greatest revocation time |
| `LicenseKeys.LicenseCredentials.RotateLicenseKey` | internal/activation/rotation.go:56-134 | answers unauthorized, rate limited or done exactly by session and cooldown; done replaces the key and consumes the session, anything else changes nothing |
| `LicenseKeys.LicenseCredentials.ExchangeRecoveryToken` | internal/activation/recovery.go:54-113 | succeeds exactly for an unexpired, unconsumed token of an active license, consumes it and opens one session |
| `LicenseKeys.LicenseCredentials.CleanUp` | internal/activation/retention.go:62-76 | removes one batch of expired tokens that are not locked, those that expired first, and all of them if they fit |
| `Reconciliation.Run` | internal/billing/reconciliation.go:57-120 | ends for every lister, whatever it answers to each call, after at most 20002 calls and 40000 queries; unless a list, a page or a check stops it, it asked about every paid session that either link lists, and with no error it saw each of them settled: a monthly one only after processing it, unless restricted; every error it reports has its cause in the answers |
| `Reconciliation.ScanLink` | internal/billing/reconciliation.go:61-118 | makes at most 10001 calls and 20000 queries, stopped or not, and unless stopped looks at the whole listing page after page; it stops only for a page it cannot go on from, an unanswered check, or a listing that is too long |
| `Reconciliation.ScanPage` | internal/billing/reconciliation.go:76-108 | asks about every paid session of the page, passes over one that fails, keeps the first failure, and stops only for an invalid session or an unanswered check |
| `Reconciliation.ScanSession` | internal/billing/reconciliation.go:84-107 | one paid session: skipped exactly when restricted, or perpetual and fulfilled; otherwise processed and asked about again, counted as recovered or recorded as a failure accordingly |
| `Reconciliation.ReconcileSession` | internal/billing/reconciliation.go:122-143 | succeeds exactly if its event was processed and the session is then fulfilled or blocked |

## Left out

- ProcessCheckout: assumes the Session was validated; a paid Session of a refunded charge and an expired Session are the refusals that remain.
- RepairPendingAdjustment: ties between equally old adjustments or events may be broken either way; the code breaks them by identifier.
- OneEffectPerLifetime: measures from the time the first request read to the time the second commits, since a record may be cleaned up while a request that began before its expiry is still running.
- ActivatesIff: eligibility, credentials, signing and rate limits are not part of the statements; each only ever turns a request away. The same of ByTokenIff.
- AtMostTwoActive: activation, refresh and deactivation are modelled on values, statement by statement, because their interleaving is the point; eligibility, signing and rate limits only ever turn a statement into an abort there.
- RotateLicenseKey: a retry that races with a rotation may be refused instead of replayed; what is proved is that the rotation takes effect at most once. The busy answer of a lock that is taken is not part of the class.
- RepairAll: other workers stand still while the loop runs; what their steps keep is proved of the protocol.
- Reconciliation.Run: the deadline of a scan is not modelled; a scan that is cut short reports an error.
- The field-by-field validation of Sessions, Subscriptions, Invoices and charges; a snapshot is taken to be valid and bound to its order.
- How monthly and adjustment hydration choose among invoices: any invoices that were seen may be in a snapshot, a superset of what the code picks.
- Checkout, subscription and invoice events that belong to no order, which only complete the event.
- How an order is found through Stripe when its row is missing: a lookup fails or tells whether the object is the order's. An order found under two references.
- A key that is revoked while an activation waits for the license: the activation goes on with the key as its statement found it.
- The link between the email of a purchase and its license; email delivery, outboxes and cleanup in batches.
- HTTP, decoding, signatures, encryption, configuration, logging and rate-limit counters.
- Times outside what the database can store; the 64-bit check of the issuer is modelled, and assumed only for stored times.
