/** Whether settling a dispute may extend a stored monthly deadline. The billing documentation says an adjustment
    cannot extend a lapsed one; here is exactly when a commit does, and an order on which it does with nothing
    newly paid. */
module Restoration {
  import opened Basics
  import opened Subscription
  import opened Entitlement
  import opened BillingRows
  import opened BillingProtocol
  import opened BillingInvariant

  /** An invoice that advances the paid period of a stored row. */
  predicate NewlyPaid(previous: Projection, invoice: Invoice) {
    PaidPeriodEnd(invoice) > previous.periodEnd && invoice.id != previous.lastPaidInvoice
  }

  /** Stripe still means to renew the subscription. */
  predicate Renews(subscription: StripeSubscription) {
    subscription.status in {StripeActive, StripePastDue} && !subscription.cancelAtPeriodEnd
  }

  function Invoices(view: AdjustmentSnapshot): seq<Invoice>
    requires view.initial.Some? && view.invoice.Some? && view.latest.Some?
  {
    [view.initial.value, view.invoice.value, view.latest.value]
  }

  predicate AnyNewlyPaid(previous: Projection, invoices: seq<Invoice>, after: Time) {
    exists i :: 0 <= i < |invoices| && NewlyPaid(previous, invoices[i]) && invoices[i].lineEnd > after
  }

  /** A newly paid invoice extends the deadline, wherever a recovery window follows its period, or its period
      outlasts the old deadline. With none, only a renewing subscription does, by a window the row had lost. */
  predicate ExtendsDeadline(previous: Projection, view: AdjustmentSnapshot)
    requires Hydrated(Monthly, view) && view.adjustment.state == Some(Resolved)
  {
    var subscription := view.subscription.value;
    && view.initial.value.status == InvoicePaid
    && if Renews(subscription) then
         previous.recoveryUntil == previous.periodEnd || AnyNewlyPaid(previous, Invoices(view), previous.periodEnd)
       else if subscription.status == StripeUnpaid then AnyNewlyPaid(previous, Invoices(view), previous.periodEnd)
       else
         && subscription.status in {StripeActive, StripePastDue, StripeCanceled}
         && AnyNewlyPaid(previous, Invoices(view), previous.recoveryUntil)
  }

  // ----- the projection -----

  /** Folding the three invoices ends at the latest newly paid period, if there is one. */
  lemma AdvancedPeriod(previous: Projection, view: AdjustmentSnapshot, stripe: Stripe)
    requires Hydrated(Monthly, view) && view.adjustment.state == Some(Resolved) && Faithful(view, stripe)
    requires previous == ZERO_PROJECTION || (previous.periodEnd > 0 && PaidFor(previous, stripe))
    ensures var advanced := AdvanceAll(previous, Invoices(view));
            && advanced.periodEnd >= previous.periodEnd
            && (forall t :: t >= previous.periodEnd ==>
                  (AnyNewlyPaid(previous, Invoices(view), t) <==> advanced.periodEnd > t))
            && (if advanced.periodEnd == previous.periodEnd then advanced == previous
                else advanced.recoveryUntil == advanced.periodEnd + RECOVERY_WINDOW)
            && AdvancePaidPeriod(advanced, view.latest.value.id, PaidPeriodEnd(view.latest.value)) == advanced
  {
    var a, b, c := view.initial.value, view.invoice.value, view.latest.value;
    AdvanceThree(previous, a, b, c);
    hide AdvanceAll;
    assert Invoices(view)[0] == a && Invoices(view)[1] == b && Invoices(view)[2] == c;
    hide Hydrated;
    forall t | t >= previous.periodEnd
      ensures AnyNewlyPaid(previous, Invoices(view), t) <==> AdvanceAll(previous, Invoices(view)).periodEnd > t
    {
      assert AnyNewlyPaid(previous, Invoices(view), t)
             <==> || (NewlyPaid(previous, a) && a.lineEnd > t) || (NewlyPaid(previous, b) && b.lineEnd > t)
                  || (NewlyPaid(previous, c) && c.lineEnd > t);
    }
  }

  lemma RestorationExtendsIff(view: AdjustmentSnapshot, previous: Projection, now: Time, stripe: Stripe)
    requires Hydrated(Monthly, view) && view.adjustment.state == Some(Resolved) && Faithful(view, stripe)
    requires ValidProjection(previous) && PaidFor(previous, stripe)
    ensures var r := RestorationProjection(view, previous, now);
            r.Success? ==>
              && (r.value.0.recoveryUntil > previous.recoveryUntil <==> ExtendsDeadline(previous, view))
              && (ExtendsDeadline(previous, view) && !CanBill(view.subscription.value) ==>
                    (r.value.1 <==> AnyNewlyPaid(previous, Invoices(view),
                                                 Max(previous.recoveryUntil, now - GRACE_PERIOD))))
  {
    AdvancedPeriod(previous, view, stripe);
    hide AdvanceAll, AnyNewlyPaid, Faithful;
  }

  /** What is restored after billing ended extends nothing unless something was newly paid. */
  lemma EndedRestorationNeverExtends(view: AdjustmentSnapshot, previous: Projection, now: Time, stripe: Stripe)
    requires Hydrated(Monthly, view) && view.adjustment.state == Some(Resolved) && Faithful(view, stripe)
    requires ValidProjection(previous) && PaidFor(previous, stripe) && !CanBill(view.subscription.value)
    requires !AnyNewlyPaid(previous, Invoices(view), previous.periodEnd)
    ensures var r := RestorationProjection(view, previous, now);
            r.Success? ==> r.value.0.recoveryUntil <= previous.recoveryUntil
                           && (r.value.1 ==> r.value.0.recoveryUntil == previous.periodEnd)
  {
    AdvancedPeriod(previous, view, stripe);
    hide AdvanceAll, AnyNewlyPaid, Faithful;
  }

  // ----- the stored row -----

  /** The license of a commit that goes on to restore: in force, or charged back with paid access left. */
  predicate MayRestore(license: LicenseState, previous: Projection, view: AdjustmentSnapshot, now: Time)
    requires Hydrated(Monthly, view) && view.adjustment.state == Some(Resolved)
  {
    || license == LicenseActive
    || (license == LicenseChargedBack
        && AnyNewlyPaid(previous, Invoices(view), Max(previous.recoveryUntil, now - GRACE_PERIOD)))
  }

  /** An adjustment's commit moves a stored deadline later exactly when it resolves a dispute about a fully paid
      charge, nothing blocks the order any more, the license may be restored, and the invoices and subscription
      of its snapshot extend the deadline. */
  lemma AdjustmentExtendsIff(rows: Rows, events: map<EventId, Event>, event: EventId, binding: Binding, stripe: Stripe,
                             view: AdjustmentSnapshot, revision: nat, newLicense: LicenseId, now: Time)
    requires event in events && RowsInv(rows, binding, stripe)
    requires rows.order.plan == Monthly && rows.order.licenseId.Some?
    requires Hydrated(Monthly, view) && Faithful(view, stripe) && Confirmed(rows, view)
    ensures rows.order.licenseId.value in rows.licenses && rows.order.licenseId.value in rows.subscriptions
    ensures var r := CommitAdjustment(rows, events, binding, event, view, revision, newLicense, now);
            var id := rows.order.licenseId.value;
            var previous := rows.subscriptions[id].projection;
            r.Success? ==>
              && id in r.value.rows.subscriptions
              && (r.value.rows.subscriptions[id].projection.recoveryUntil > previous.recoveryUntil
                  <==> && !events[event].Processed()
                       && view.adjustment.state == Some(Resolved) && FullyPaid(view.adjustment.charge)
                       && !AnyBlocking(SettledAdjustments(rows, view, now))
                       && MayRestore(rows.licenses[id], previous, view, now) && ExtendsDeadline(previous, view))
  {
    var id := rows.order.licenseId.value;
    var previous := rows.subscriptions[id].projection;
    if view.adjustment.state == Some(Resolved) {
      RestorationExtendsIff(view, previous, now, stripe);
    }
    RestrictedHasEnded(rows, view);
    hide RowsInv, RestorationProjection, ExtendsDeadline, AnyNewlyPaid, SettledAdjustments, Confirmed, Faithful,
         EarliestBlocking, FullyPaid, ValidProjection;
  }

  lemma RestrictedHasEnded(rows: Rows, view: AdjustmentSnapshot)
    requires rows.order.plan == Monthly && Confirmed(rows, view)
    ensures LicenseOf(rows) == Some(LicenseChargedBack) ==> view.subscription.Some? && !CanBill(view.subscription.value)
  {
  }

  // ----- the exception occurs -----

  const LAPSED := Projection(BillingLapsed, 40 * DAY, 40 * DAY, "in_1")

  const RESUMED := StripeSubscription(StripePastDue, false, None)

  const PAID := Invoice("in_1", InvoicePaid, 40 * DAY)

  const OPEN := Invoice("in_2", InvoiceOpen, 70 * DAY)

  const CHARGE := Charge(true, false, 1, 0)

  const WON := AdjustmentSnapshot(AdjustmentView("du_1", Dispute, Some(Resolved), "ch_1", 20 * DAY, CHARGE),
                                  Some(RESUMED), Some(PAID), Some(PAID), Some(OPEN))

  const STRIPE := Stripe(Session(SessionComplete, true, false), RESUMED, map["in_1" := PAID, "in_2" := OPEN],
                         map["du_1" := DisputeObject(Won, 1, "ch_1", 20 * 24 * 3600)], map["ch_1" := CHARGE])

  const LAPSED_ROWS := Rows(
    Order(Monthly, OrderFulfilled, Some("lic_1"), Some(10 * DAY), None, Some("sub_1"), 3),
    map["du_1" := Adjustment(Dispute, "ch_1", Resolved, true, false, 20 * DAY, 41 * DAY)],
    map["lic_1" := LicenseActive], map["lic_1" := SubscriptionRow(LAPSED, None)])

  const WON_EVENT := Event(RefundOrDispute, "du_1", 20 * DAY, None)

  /** A lapsed row of a fulfilled monthly order, a past-due subscription whose scheduled cancellation was
      withdrawn, and a dispute about it that was won: with nothing newly paid, the commit moves the stored deadline
      14 days later. */
  lemma LapsedDeadlineCanMove()
    returns (rows: Rows, events: map<EventId, Event>, binding: Binding, stripe: Stripe, view: AdjustmentSnapshot,
             now: Time)
    ensures RowsInv(rows, binding, stripe) && EventsInv(rows, events) && "evt_1" in events
    ensures Hydrated(rows.order.plan, view) && Faithful(view, stripe) && Confirmed(rows, view)
    ensures ReadAt(stripe, stripe, view.adjustment) && view.adjustment.state == Some(Resolved)
    ensures "lic_1" in rows.subscriptions && rows.subscriptions["lic_1"].projection == LAPSED
    ensures Hydrated(Monthly, view) && !AnyNewlyPaid(LAPSED, Invoices(view), LAPSED.periodEnd)
    ensures var r := CommitAdjustment(rows, events, binding, "evt_1", view, rows.order.revision, "lic_2", now);
            && r.Success? && "lic_1" in r.value.rows.subscriptions
            && r.value.rows.subscriptions["lic_1"].projection.recoveryUntil == LAPSED.recoveryUntil + RECOVERY_WINDOW
  {
    rows, events, binding, stripe := LAPSED_ROWS, map["evt_1" := WON_EVENT], Binding("pi_1", "sub_1"), STRIPE;
    view, now := WON, 41 * DAY;
    LapsedRowsAreValid(binding);
    WonSnapshotIsCurrent();
    WonEventIsRetryable(events);
    LapsedDeadlineMoves(events, binding);
    hide *;
  }

  lemma WonSnapshotIsCurrent()
    ensures Hydrated(Monthly, WON) && Faithful(WON, STRIPE) && Confirmed(LAPSED_ROWS, WON)
    ensures ReadAt(STRIPE, STRIPE, WON.adjustment) && !AnyNewlyPaid(LAPSED, Invoices(WON), LAPSED.periodEnd)
  {
  }

  lemma WonEventIsRetryable(events: map<EventId, Event>)
    requires "evt_1" in events && events["evt_1"] == WON_EVENT
    ensures EventsInv(LAPSED_ROWS, events)
  {
    assert events["evt_1"].objectId == "du_1" && !events["evt_1"].Processed();
  }

  lemma LapsedRowsAreValid(binding: Binding)
    requires binding.subscriptionId == "sub_1"
    ensures RowsInv(LAPSED_ROWS, binding, STRIPE)
  {
  }

  lemma LapsedDeadlineMoves(events: map<EventId, Event>, binding: Binding)
    requires "evt_1" in events && events["evt_1"] == WON_EVENT
    ensures Hydrated(Monthly, WON)
    ensures var r := CommitAdjustment(LAPSED_ROWS, events, binding, "evt_1", WON, 3, "lic_2", 41 * DAY);
            && r.Success? && "lic_1" in r.value.rows.subscriptions
            && r.value.rows.subscriptions["lic_1"].projection.recoveryUntil == LAPSED.recoveryUntil + RECOVERY_WINDOW
  {
    AdvanceThree(LAPSED, PAID, PAID, OPEN);
    assert RestorationProjection(WON, LAPSED, 41 * DAY)
           == Success((LAPSED.(state := BillingRecovering, recoveryUntil := 54 * DAY), true));
    hide RestorationProjection, EarliestBlocking;
  }
}
