/** Runs in which a paired read of a license goes wrong: a monthly purchase is fulfilled, and while a read of its
    license waits, either a chargeback restricts it or the customer's cancellation takes its recovery window. */
module StaleReads {
  import opened Basics
  import opened Subscription
  import opened Entitlement
  import opened BillingRows
  import opened BillingProtocol
  import opened BillingRun
  import opened BillingSteps
  import opened BillingSerial
  import opened EntitlementReads

  // ----- the purchase, the dispute, and Stripe before and after -----

  const PAID := Invoice("in_1", InvoicePaid, 40 * DAY)

  const CHARGE := Charge(true, false, 1, 0)

  const SESSION := Session(SessionComplete, true, false)

  const RENEWING := StripeSubscription(StripeActive, false, None)

  const ENDING := StripeSubscription(StripeActive, true, None)

  const ENDED := StripeSubscription(StripeCanceled, false, Some(CancellationRequested))

  const CHARGEBACK := AdjustmentView("du_1", Dispute, Some(Blocking), "ch_1", 20 * DAY, CHARGE)

  function StripeWith(subscription: StripeSubscription): Stripe {
    Stripe(SESSION, subscription, map["in_1" := PAID],
           map["du_1" := DisputeObject(NeedsResponse, 1, "ch_1", 20 * 24 * 3600)], map["ch_1" := CHARGE])
  }

  function DisputeSnapshot(): AdjustmentSnapshot {
    AdjustmentSnapshot(CHARGEBACK, Some(ENDED), Some(PAID), None, None)
  }

  function PurchaseSnapshot(subscription: StripeSubscription, licensed: bool): MonthlySnapshot {
    MonthlySnapshot(SESSION, Some(subscription), if licensed then None else Some(PAID), Some(PAID))
  }

  /** Since a tick Stripe has stayed as it is. */
  ghost predicate Since(w: World, from: nat, stripe: Stripe) {
    from < |w.history| && forall t :: from <= t < |w.history| ==> w.history[t] == stripe
  }

  lemma DisputeIsSeen(w: World, from: nat)
    requires Since(w, from, StripeWith(ENDED))
    ensures SawSnapshot(w.history, from, DisputeSnapshot()) && Hydrated(Monthly, DisputeSnapshot())
  {
    assert w.history[from] == StripeWith(ENDED);
    assert ReadAt(w.history[from], w.history[from], CHARGEBACK);
  }

  lemma PurchaseIsSeen(w: World, from: nat, subscription: StripeSubscription, licensed: bool)
    requires Since(w, from, StripeWith(subscription))
    ensures SawMonthly(w.history, from, PurchaseSnapshot(subscription, licensed))
    ensures HydratedMonthly(licensed, PurchaseSnapshot(subscription, licensed))
  {
    assert w.history[from] == StripeWith(subscription);
  }

  // ----- fulfilment -----

  /** The order as fulfilled, its license in force for the paid period and the recovery window. */
  ghost predicate Issued(rows: Rows) {
    && rows.order.plan == Monthly && rows.order.licenseId == Some("lic_1")
    && rows.licenses == map["lic_1" := LicenseActive]
    && rows.subscriptions == map["lic_1" := SubscriptionRow(Projection(BillingActive, 40 * DAY, 54 * DAY, "in_1"),
                                                            None)]
  }

  /** Attempt k works on an event of this type that nobody has processed, and is up to date. */
  ghost predicate WorksOn(w: World, k: AttemptId, event: EventId, eventType: EventType) {
    && w.attempts.Keys == {k} && w.attempts[k].ctx.event == event && event in w.events
    && w.events[event].eventType == eventType && !w.events[event].Processed()
    && UpToDate(w, w.attempts[k]) && w.attempts[k].ctx.now == 30 * DAY
  }

  ghost predicate PurchaseRead(w: World) {
    && |w.history| == 4 && Since(w, 0, StripeWith(RENEWING)) && w.rows == EmptyRows(Monthly)
    && w.events.Keys == {"evt_1"} && WorksOn(w, 2, "evt_1", CheckoutCompleted)
    && w.attempts[2].MonthlyReady? && w.attempts[2].monthly == PurchaseSnapshot(RENEWING, false)
  }

  /** The order is fulfilled, and nobody is at work. */
  ghost predicate Idle(w: World) {
    && |w.history| == 5 && Since(w, 4, StripeWith(RENEWING)) && Issued(w.rows) && w.rows.adjustments == map[]
    && w.events.Keys == {"evt_1"} && w.attempts == map[]
  }

  lemma IdleIsIssued(w: World)
    requires Idle(w)
    ensures Issued(w.rows)
  {
  }

  lemma PurchaseIsRead() returns (run: seq<World>)
    ensures Run(run) && run != [] && PurchaseRead(run[|run| - 1])
  {
    var stripe := StripeWith(RENEWING);
    run := [World(Binding("pi_1", "sub_1"), EmptyRows(Monthly), map[], [stripe], map[], {}, [])];
    assert Run(run);
    hide Run;
    run := Extended(run, RecordEvent("evt_1", CheckoutCompleted, "cs_1", 30 * DAY));
    run := Extended(run, StartMonthly("evt_1", 30 * DAY));
    PurchaseIsSeen(run[2], 2, RENEWING, false);
    run := Extended(run, HydrateMonthly(2, PurchaseSnapshot(RENEWING, false)));
  }

  lemma PurchaseIsFulfilled(w: World)
    requires PurchaseRead(w)
    ensures WellFormed(w) && Enabled(w, FinishMonthly(2, "lic_1")) && Idle(Next(w, FinishMonthly(2, "lic_1")))
  {
    hide Evolves, ValidStripe, SawSnapshot, SawMonthly;
  }

  lemma OrderIsFulfilled() returns (run: seq<World>)
    ensures Run(run) && run != [] && Idle(run[|run| - 1])
  {
    run := PurchaseIsRead();
    hide Run, Idle, PurchaseRead, WellFormed, Enabled, Next;
    PurchaseIsFulfilled(run[|run| - 1]);
    run := Extended(run, FinishMonthly(2, "lic_1"));
  }

  /** The order is fulfilled, Stripe has moved on, and an event says so. */
  ghost predicate Noticed(w: World, subscription: StripeSubscription, eventType: EventType, id: ObjectId) {
    && |w.history| == 7 && Since(w, 5, StripeWith(subscription)) && Issued(w.rows) && w.rows.adjustments == map[]
    && w.events.Keys == {"evt_1", "evt_2"} && w.events["evt_2"] == Event(eventType, id, 30 * DAY, None)
    && w.attempts == map[]
  }

  lemma ChangeIsNoticed(run: seq<World>, subscription: StripeSubscription, eventType: EventType, id: ObjectId)
    returns (longer: seq<World>)
    requires Run(run) && run != [] && Idle(run[|run| - 1])
    ensures Run(longer) && |run| < |longer| && longer[..|run|] == run
    ensures Noticed(longer[|longer| - 1], subscription, eventType, id)
  {
    hide Run, Issued;
    longer := Extended(run, StripeMoves(StripeWith(subscription)));
    longer := Extended(longer, RecordEvent("evt_2", eventType, id, 30 * DAY));
  }

  // ----- a chargeback while a read waits -----

  /** Attempt 7 works on the dispute, with billing ended since tick 5. */
  ghost predicate OnChargeback(w: World) {
    && 7 < |w.history| && Since(w, 5, StripeWith(ENDED)) && Issued(w.rows)
    && WorksOn(w, 7, "evt_2", RefundOrDispute) && w.events["evt_2"].objectId == "du_1"
    && 7 <= w.attempts[7].ctx.observedFrom < |w.history|
    && (HasView(w.attempts[7]) ==> w.attempts[7].view == DisputeSnapshot())
  }

  ghost predicate IntentIsStored(w: World) {
    && OnChargeback(w) && w.rows.adjustments.Keys == {"du_1"}
    && var row := w.rows.adjustments["du_1"];
       row.state == Blocking && row.kind == Dispute && row.cancelRequired && row.effectiveAt == 20 * DAY
  }

  lemma ChargebackIsRead(run: seq<World>) returns (longer: seq<World>)
    requires Run(run) && run != [] && Noticed(run[|run| - 1], ENDED, RefundOrDispute, "du_1")
    ensures Run(longer) && |run| < |longer| && longer[..|run|] == run
    ensures var w := longer[|longer| - 1];
            OnChargeback(w) && w.attempts[7].AdjustmentViewed? && w.rows.adjustments == map[]
  {
    hide Run, Issued, Evolves, ValidStripe;
    longer := Extended(run, StartAdjustment("evt_2", 30 * DAY));
    DisputeIsSeen(longer[|longer| - 1], 7);
    hide SawSnapshot, Hydrated;
    longer := Extended(longer, HydrateAdjustment(7, DisputeSnapshot()));
  }

  lemma IntentIsPrepared(w: World)
    requires OnChargeback(w) && w.attempts[7].AdjustmentViewed? && w.rows.adjustments == map[]
    ensures WellFormed(w) && Enabled(w, Action.Prepare(7))
    ensures var after := Next(w, Action.Prepare(7)); IntentIsStored(after) && after.attempts[7].AdjustmentPrepared?
  {
    hide Evolves, ValidStripe, SawSnapshot, SawMonthly;
  }

  lemma CancellationIsFoundDone(w: World)
    requires IntentIsStored(w) && w.attempts[7].AdjustmentPrepared?
    ensures WellFormed(w) && Enabled(w, ReadIntent(7))
    ensures var after := Next(w, ReadIntent(7)); IntentIsStored(after) && after.attempts[7].AdjustmentConfirming?
  {
    hide Evolves, ValidStripe, SawSnapshot, SawMonthly;
    assert "du_1" in w.rows.adjustments && w.rows.adjustments["du_1"].cancelRequired;
  }

  lemma EndIsConfirmed(w: World)
    requires IntentIsStored(w) && w.attempts[7].AdjustmentConfirming?
    ensures WellFormed(w) && Enabled(w, Confirm(7, DisputeSnapshot()))
    ensures var after := Next(w, Confirm(7, DisputeSnapshot()));
            IntentIsStored(after) && after.attempts[7].AdjustmentReady?
  {
    assert Since(w, w.attempts[7].ctx.observedFrom, StripeWith(ENDED));
    DisputeIsSeen(w, w.attempts[7].ctx.observedFrom);
    hide Evolves, ValidStripe, SawSnapshot, SawMonthly;
  }

  lemma ChargebackRestricts(w: World)
    requires IntentIsStored(w) && Hydrated(Monthly, DisputeSnapshot())
    ensures var settled := w.rows.(adjustments := SettledAdjustments(w.rows, DisputeSnapshot(), 30 * DAY));
            var r := ApplyAdjustments(settled, w.binding, DisputeSnapshot(), "", 30 * DAY);
            r.Success? && r.value.rows.licenses == map["lic_1" := LicenseChargedBack]
  {
    var settled := SettledAdjustments(w.rows, DisputeSnapshot(), 30 * DAY);
    assert settled.Keys == {"du_1"} && settled["du_1"].state == Blocking && settled["du_1"].kind == Dispute;
    assert !AnyBlockingRefund(settled);
    hide SettledAdjustments, Restore, EarliestBlocking, Since;
  }

  lemma ChargebackIsCommitted(w: World)
    requires IntentIsStored(w) && w.attempts[7].AdjustmentReady?
    ensures WellFormed(w) && Enabled(w, FinishAdjustment(7, ""))
    ensures Next(w, FinishAdjustment(7, "")).rows.licenses == map["lic_1" := LicenseChargedBack]
  {
    ChargebackRestricts(w);
    hide Evolves, ValidStripe, SawSnapshot, SawMonthly, ApplyAdjustments, SettledAdjustments, Since;
  }

  /** A read of the license that began while it was in force and got its lock after the chargeback fails, at every
      instant. */
  lemma TerminalTimeCanBeMissing() returns (run: seq<World>, i: nat, j: nat)
    ensures Run(run) && i < j < |run|
    ensures "lic_1" in run[i].rows.subscriptions && "lic_1" in run[j].rows.licenses
    ensures forall now ::
              EntitlementTerms(PairedRecord(run[i].rows, run[j].rows, "lic_1"), now) == Failure(NoTerminalTime)
  {
    var issued := OrderIsFulfilled();
    hide Run, Idle, Noticed, OnChargeback, IntentIsStored, WellFormed, Enabled, Next;
    assert Issued(issued[|issued| - 1].rows) by { IdleIsIssued(issued[|issued| - 1]); }
    run := ChangeIsNoticed(issued, ENDED, RefundOrDispute, "du_1");
    run := ChargebackIsRead(run);
    IntentIsPrepared(run[|run| - 1]);
    run := Extended(run, Action.Prepare(7));
    CancellationIsFoundDone(run[|run| - 1]);
    run := Extended(run, ReadIntent(7));
    EndIsConfirmed(run[|run| - 1]);
    run := Extended(run, Confirm(7, DisputeSnapshot()));
    ChargebackIsCommitted(run[|run| - 1]);
    run := Extended(run, FinishAdjustment(7, ""));
    i, j := |issued| - 1, |run| - 1;
    assert run[i] == issued[i];
    PairedReadFailsIff(run, i, j, "lic_1", 0);
  }

  // ----- a cancellation while a read waits -----

  ghost predicate CancellationRead(w: World) {
    && Issued(w.rows) && w.rows.adjustments == map[] && w.history != []
    && WorksOn(w, 7, "evt_2", SubscriptionOrInvoice)
    && w.attempts[7].MonthlyReady? && w.attempts[7].monthly == PurchaseSnapshot(ENDING, true)
  }

  lemma CancellationIsRead(run: seq<World>) returns (longer: seq<World>)
    requires Run(run) && run != [] && Noticed(run[|run| - 1], ENDING, SubscriptionOrInvoice, "sub_1")
    ensures Run(longer) && |run| < |longer| && longer[..|run|] == run && CancellationRead(longer[|longer| - 1])
  {
    hide Run, Evolves, ValidStripe;
    longer := Extended(run, StartMonthly("evt_2", 30 * DAY));
    PurchaseIsSeen(longer[|longer| - 1], 7, ENDING, true);
    hide SawMonthly, HydratedMonthly;
    longer := Extended(longer, HydrateMonthly(7, PurchaseSnapshot(ENDING, true)));
  }

  lemma CancellationIsReconciled(w: World)
    requires CancellationRead(w)
    ensures WellFormed(w) && Enabled(w, FinishMonthly(7, "lic_2"))
    ensures var after := Next(w, FinishMonthly(7, "lic_2")).rows;
            && after.licenses == map["lic_1" := LicenseActive]
            && after.subscriptions == map["lic_1" := SubscriptionRow(Projection(BillingEnding, 40 * DAY, 40 * DAY,
                                                                                "in_1"), None)]
  {
    hide Evolves, ValidStripe, SawSnapshot, SawMonthly;
  }

  /** A read of the license that began before its cancellation was reconciled and got its lock afterwards grants
      access for the whole recovery window more than is stored. */
  lemma AccessCanOutlastTheStoredRow() returns (run: seq<World>, i: nat, j: nat)
    ensures Run(run) && i < j < |run|
    ensures "lic_1" in run[i].rows.subscriptions && "lic_1" in run[j].rows.subscriptions
    ensures "lic_1" in run[j].rows.licenses && run[j].rows.licenses["lic_1"] == LicenseActive
    ensures AccessEnds(LicenseActive, run[i].rows.subscriptions["lic_1"])
            == AccessEnds(LicenseActive, run[j].rows.subscriptions["lic_1"]) + RECOVERY_WINDOW
  {
    var issued := OrderIsFulfilled();
    run := ChangeIsNoticed(issued, ENDING, SubscriptionOrInvoice, "sub_1");
    run := CancellationIsRead(run);
    hide Run, Noticed, CancellationRead, WellFormed, Enabled, Next;
    CancellationIsReconciled(run[|run| - 1]);
    run := Extended(run, FinishMonthly(7, "lic_2"));
    i, j := |issued| - 1, |run| - 1;
    assert run[i] == issued[i];
  }
}
