/** What the two ordinary transactions do, case by case: when they commit, and what they leave. */
module PurchaseEffects {
  import opened Basics
  import opened Subscription
  import opened Entitlement
  import opened BillingRows
  import opened BillingProtocol
  import opened BillingInvariant
  import opened BillingRun
  import opened BillingSteps
  import opened BillingTheorems
  import opened EntitlementReads

  /** Nothing stands in the way of an ordinary writer. */
  predicate Unhindered(rows: Rows) {
    forall a :: a in rows.adjustments ==>
      !rows.adjustments[a].pending && !rows.adjustments[a].cancelRequired && rows.adjustments[a].state == Resolved
  }

  predicate AllSettled(rows: Rows) {
    forall a :: a in rows.adjustments ==> !rows.adjustments[a].pending && !rows.adjustments[a].cancelRequired
  }

  /** A committed transaction advances the revision and completes its own event, with this outcome. */
  predicate Completes(rows: Rows, events: map<EventId, Event>, event: EventId, c: Committed, outcome: Outcome)
    requires event in events
  {
    && c.rows.order.revision == rows.order.revision + 1
    && c.outcome == Some(outcome)
    && c.events == events[event := events[event].(outcome := Some(outcome))]
    && c.rows.adjustments == rows.adjustments
  }

  /** Nothing but the revision changes. */
  predicate OnlyAdvances(rows: Rows, after: Rows) {
    after == rows.(order := rows.order.(revision := rows.order.revision + 1))
  }

  // ----- perpetual Checkout -----

  /** Unfinished work makes the transaction fail, to be retried; a restriction completes the event and does nothing
      else. */
  lemma CheckoutGivesWay(rows: Rows, events: map<EventId, Event>, binding: Binding, event: EventId, session: Session,
                         newLicense: LicenseId, now: Time)
    requires event in events && !events[event].Processed() && !Unhindered(rows)
    ensures var r := CommitCheckout(rows, events, binding, event, session, newLicense, now);
            if !AllSettled(rows) then r == Failure(SnapshotChanged)
            else r.Success? && Completes(rows, events, event, r.value, NoChange) && OnlyAdvances(rows, r.value.rows)
  {
    if AllSettled(rows) {
      assert !AnyUnfinished(rows.adjustments);
      var a :| a in rows.adjustments && rows.adjustments[a].state != Resolved;
      assert rows.adjustments[a].state == Blocking;
      assert AnyBlocking(rows.adjustments);
    }
  }

  /** A paid Session commits exactly when its charge is not refunded. Then the order is fulfilled: with the license
      it had, or with exactly the new one, in force. */
  lemma PaidCheckoutCommitsIff(rows: Rows, events: map<EventId, Event>, binding: Binding, stripe: Stripe,
                               event: EventId, session: Session, newLicense: LicenseId, now: Time)
    requires event in events && !events[event].Processed() && Unhindered(rows)
    requires RowsInv(rows, binding, stripe) && rows.order.plan == PerpetualV1 && session.paid
    ensures var r := CommitCheckout(rows, events, binding, event, session, newLicense, now);
            && (r.Success? <==> !session.chargeRefunded)
            && (r.Failure? ==> r.error == InvalidPurchase)
            && (r.Success? ==>
                  var after := r.value.rows;
                  && after.order.state == OrderFulfilled
                  && if rows.order.licenseId.Some? then
                       Completes(rows, events, event, r.value, NoChange) && OnlyAdvances(rows, after)
                     else
                       && Completes(rows, events, event, r.value, FulfilledOrder)
                       && after.licenses == map[newLicense := LicenseActive] && after.subscriptions == map[]
                       && after.order.licenseId == Some(newLicense) && after.order.fulfilledAt == Some(now)
                       && after.order.paymentId == Some(binding.paymentId) && after.order.subscriptionId.None?)
  {
    hide AdjustmentInv;
    NothingHinders(rows);
  }

  /** An unpaid Session fails exactly when the order is unfulfilled and the Session has expired; otherwise it marks
      an unfulfilled order failed exactly on a payment-failed event, and changes nothing else. */
  lemma UnpaidCheckoutCommitsIff(rows: Rows, events: map<EventId, Event>, binding: Binding, stripe: Stripe,
                                 event: EventId, session: Session, newLicense: LicenseId, now: Time)
    requires event in events && !events[event].Processed() && Unhindered(rows)
    requires RowsInv(rows, binding, stripe) && rows.order.plan == PerpetualV1 && !session.paid
    ensures var r := CommitCheckout(rows, events, binding, event, session, newLicense, now);
            var fails := rows.order.state != OrderFulfilled && events[event].eventType == CheckoutPaymentFailed;
            && (r.Failure? <==> rows.order.state != OrderFulfilled && session.status == SessionExpired)
            && (r.Failure? ==> r.error == InvalidPurchase)
            && (r.Success? ==>
                  && Completes(rows, events, event, r.value, if fails then MarkedFailed else NoChange)
                  && OnlyAdvances(if fails then rows.(order := rows.order.(state := OrderFailed)) else rows,
                                  r.value.rows))
  {
    hide AdjustmentInv;
    NothingHinders(rows);
  }

  lemma NothingHinders(rows: Rows)
    requires Unhindered(rows)
    ensures BillingRestriction(rows.adjustments) == Success(false)
    ensures !AnyBlocking(rows.adjustments)
  {
  }

  // ----- monthly reconciliation -----

  /** A commit at another revision, or beside unfinished work, fails; a restriction completes the event and does
      nothing else. */
  lemma MonthlyGivesWay(rows: Rows, events: map<EventId, Event>, binding: Binding, event: EventId,
                        view: MonthlySnapshot, revision: nat, newLicense: LicenseId, now: Time)
    requires event in events && !events[event].Processed() && (revision != rows.order.revision || !Unhindered(rows))
    ensures var r := CommitMonthly(rows, events, binding, event, view, revision, newLicense, now);
            if revision != rows.order.revision || !AllSettled(rows) then r == Failure(SnapshotChanged)
            else r.Success? && Completes(rows, events, event, r.value, NoChange) && OnlyAdvances(rows, r.value.rows)
  {
    if revision == rows.order.revision && AllSettled(rows) {
      assert !AnyUnfinished(rows.adjustments);
      var a :| a in rows.adjustments && rows.adjustments[a].state != Resolved;
      assert rows.adjustments[a].state == Blocking;
      assert AnyBlocking(rows.adjustments);
    }
  }

  /** The invoice describes a paid period beyond the stored one. */
  predicate Extends(previous: Projection, invoice: Invoice) {
    invoice.status == InvoicePaid && invoice.lineEnd > previous.periodEnd && invoice.id != previous.lastPaidInvoice
  }

  /** The state of a subscription whose paid period ends at `end`. */
  function StateAt(subscription: StripeSubscription, end: Time, now: Time): BillingState {
    if subscription.status in {StripeCanceled, StripeUnpaid} then BillingLapsed
    else if subscription.cancelAtPeriodEnd then (if now < end then BillingEnding else BillingLapsed)
    else if subscription.status == StripeActive && now < end then BillingActive
    else BillingRecovering
  }

  /** The deadline that goes with it; `kept` is what stands while Stripe neither renews nor was told to stop. */
  function DeadlineAt(subscription: StripeSubscription, end: Time, kept: Time): Time {
    if subscription.status == StripeCanceled then
      (if subscription.cancellation == Some(CancellationRequested) then end else kept)
    else if subscription.status == StripeUnpaid then kept
    else if subscription.cancelAtPeriodEnd then end
    else end + RECOVERY_WINDOW
  }

  /** The row that reconciling leaves: the paid period with its invoice, and the state and deadline of the table. */
  predicate Reconciled(previous: Projection, next: Projection, subscription: StripeSubscription, latest: Invoice,
                       now: Time) {
    && (if Extends(previous, latest) then next.periodEnd == latest.lineEnd && next.lastPaidInvoice == latest.id
        else next.periodEnd == previous.periodEnd && next.lastPaidInvoice == previous.lastPaidInvoice)
    && next.state == StateAt(subscription, next.periodEnd, now)
    && next.recoveryUntil == DeadlineAt(subscription, next.periodEnd,
                                        if Extends(previous, latest) then latest.lineEnd + RECOVERY_WINDOW
                                        else previous.recoveryUntil)
  }

  lemma ReconcilesExactly(previous: Projection, subscription: StripeSubscription, latest: Invoice, now: Time)
    requires HasPaidPeriod(previous) && ValidInvoice(latest)
    ensures var r := ReconcileSubscription(previous, subscription, latest.id, PaidPeriodEnd(latest), now);
            && (r.Success? <==> Accepted(subscription))
            && (r.Success? ==> Reconciled(previous, r.value, subscription, latest, now))
  {
  }

  /** An active license's commit succeeds exactly when the subscription is in a state billing knows, and stores the
      period of the latest invoice if that extends it. */
  lemma RenewalIsStored(rows: Rows, events: map<EventId, Event>, binding: Binding, stripe: Stripe, event: EventId,
                        view: MonthlySnapshot, newLicense: LicenseId, now: Time)
    requires event in events && !events[event].Processed() && Unhindered(rows)
    requires RowsInv(rows, binding, stripe) && rows.order.plan == Monthly && LicenseOf(rows) == Some(LicenseActive)
    requires HydratedMonthly(true, view) && view.subscription.Some?
    ensures rows.order.licenseId.value in rows.subscriptions
    ensures var r := CommitMonthly(rows, events, binding, event, view, rows.order.revision, newLicense, now);
            var id := rows.order.licenseId.value;
            var previous := rows.subscriptions[id].projection;
            && (r.Success? <==> Accepted(view.subscription.value))
            && (r.Failure? ==> r.error == InvalidPurchase)
            && (r.Success? ==>
                  && id in r.value.rows.subscriptions
                  && var next := r.value.rows.subscriptions[id].projection;
                     && Reconciled(previous, next, view.subscription.value, view.latest.value, now)
                     && Completes(rows, events, event, r.value,
                                  if next == previous then NoChange else Projected(next.state))
                     && OnlyAdvances(rows.(subscriptions := map[id := SubscriptionRow(next, None)]), r.value.rows))
  {
    var id := rows.order.licenseId.value;
    NothingHinders(rows);
    ReconcilesExactly(rows.subscriptions[id].projection, view.subscription.value, view.latest.value, now);
    assert rows.subscriptions.Keys == {id};
    hide AdjustmentInv, ReconcileSubscription, Reconciled, PaidFor, Accepted;
  }

  /** A restricted or revoked license is left alone; a licensed order whose Session is incomplete is refused. */
  lemma OtherLicensedCommits(rows: Rows, events: map<EventId, Event>, binding: Binding, stripe: Stripe, event: EventId,
                             view: MonthlySnapshot, newLicense: LicenseId, now: Time)
    requires event in events && !events[event].Processed() && Unhindered(rows)
    requires RowsInv(rows, binding, stripe) && rows.order.plan == Monthly && rows.order.licenseId.Some?
    requires view.subscription.None? || LicenseOf(rows) != Some(LicenseActive)
    ensures var r := CommitMonthly(rows, events, binding, event, view, rows.order.revision, newLicense, now);
            if view.subscription.None? then r == Failure(InvalidPurchase)
            else r.Success? && Completes(rows, events, event, r.value, NoChange) && OnlyAdvances(rows, r.value.rows)
  {
    NothingHinders(rows);
    hide AdjustmentInv, ReconcileSubscription;
  }

  /** The first invoice is paid, and the subscription is active or was canceled by the customer with paid time left. */
  predicate PurchaseIsPaid(view: MonthlySnapshot, now: Time)
    requires view.initial.Some? ==> view.subscription.Some?
  {
    && view.initial.Some? && view.initial.value.status == InvoicePaid
    && var subscription := view.subscription.value;
       subscription.status == StripeActive
       || (subscription.status == StripeCanceled && subscription.cancellation == Some(CancellationRequested)
           && now < view.initial.value.lineEnd)
  }

  /** An unlicensed order is fulfilled exactly when its first invoice is paid and its subscription is active, or was
      canceled by the customer with paid time left; with exactly the new license, and the row that reconciling its
      first paid period gives. */
  lemma MonthlyPurchaseIsFulfilledIff(rows: Rows, events: map<EventId, Event>, binding: Binding, stripe: Stripe,
                                      event: EventId, view: MonthlySnapshot, newLicense: LicenseId, now: Time)
    requires event in events && !events[event].Processed() && Unhindered(rows)
    requires RowsInv(rows, binding, stripe) && rows.order.plan == Monthly && rows.order.licenseId.None?
    requires HydratedMonthly(false, view)
    ensures var r := CommitMonthly(rows, events, binding, event, view, rows.order.revision, newLicense, now);
            && r.Success?
            && (r.value.rows.order.state == OrderFulfilled <==> PurchaseIsPaid(view, now))
            && (if PurchaseIsPaid(view, now) then
                  var initial := view.initial.value;
                  var first := Projection(BillingUnset, initial.lineEnd, initial.lineEnd + RECOVERY_WINDOW, initial.id);
                  var after := r.value.rows;
                  && Completes(rows, events, event, r.value, FulfilledOrder)
                  && after.licenses == map[newLicense := LicenseActive]
                  && after.subscriptions.Keys == {newLicense} && after.subscriptions[newLicense].terminalAt.None?
                  && Reconciled(first, after.subscriptions[newLicense].projection, view.subscription.value,
                                view.latest.value, now)
                  && after.order.licenseId == Some(newLicense) && after.order.fulfilledAt == Some(now)
                  && after.order.subscriptionId == Some(binding.subscriptionId) && after.order.paymentId.None?
                else r.value.rows.licenses == map[] && r.value.rows.subscriptions == map[])
  {
    NothingHinders(rows);
    assert rows.licenses == map[] && rows.subscriptions == map[];
    if view.initial.Some? && view.initial.value.status == InvoicePaid {
      var initial := view.initial.value;
      var first := Projection(BillingUnset, initial.lineEnd, initial.lineEnd + RECOVERY_WINDOW, initial.id);
      ReconcilesExactly(first, view.subscription.value, view.latest.value, now);
    }
    hide AdjustmentInv, ReconcileSubscription, Reconciled;
  }

  /** A purchase that is not fulfilled is marked failed exactly when its Session expired, its payment failed, or its
      subscription ended or went unpaid; its subscription is recorded. A cancellation that came after the paid
      period leaves the order as it is. */
  lemma UnpaidMonthlyIsRecorded(rows: Rows, events: map<EventId, Event>, binding: Binding, stripe: Stripe,
                                event: EventId, view: MonthlySnapshot, newLicense: LicenseId, now: Time)
    requires event in events && !events[event].Processed() && Unhindered(rows)
    requires RowsInv(rows, binding, stripe) && rows.order.plan == Monthly && rows.order.licenseId.None?
    requires HydratedMonthly(false, view)
    requires !PurchaseIsPaid(view, now)
    ensures var r := CommitMonthly(rows, events, binding, event, view, rows.order.revision, newLicense, now);
            var late := view.initial.Some? && view.initial.value.status == InvoicePaid
                        && view.subscription.value.status == StripeCanceled
                        && view.subscription.value.cancellation == Some(CancellationRequested);
            var failed := view.session.status == SessionExpired || events[event].eventType == CheckoutPaymentFailed
                          || (view.subscription.Some?
                              && view.subscription.value.status
                                 in {StripeCanceled, StripeIncompleteExpired, StripeUnpaid});
            var order := rows.order.(
              state := if failed then OrderFailed else rows.order.state,
              subscriptionId := if view.subscription.Some? then Some(binding.subscriptionId) else None);
            && r.Success?
            && Completes(rows, events, event, r.value, if !late && failed then MarkedFailed else NoChange)
            && OnlyAdvances(if late then rows else rows.(order := order), r.value.rows)
  {
    NothingHinders(rows);
    hide AdjustmentInv, ReconcileSubscription;
  }

  // ----- over runs -----

  /** A monthly write on a license in force covers the paid latest invoice that it read. */
  lemma MonthlyWriteCoversItsInvoice(w: World, k: AttemptId, newLicense: LicenseId)
    requires Inv(w) && WellFormed(w) && Enabled(w, FinishMonthly(k, newLicense))
    requires |Next(w, FinishMonthly(k, newLicense)).log| > |w.log|
    requires LicenseOf(w.rows) == Some(LicenseActive) && !AnyBlocking(w.rows.adjustments)
    requires w.attempts[k].monthly.latest.Some? && w.attempts[k].monthly.latest.value.status == InvoicePaid
    ensures var after := Next(w, FinishMonthly(k, newLicense)).rows.subscriptions;
            && w.rows.order.licenseId.value in after
            && after[w.rows.order.licenseId.value].projection.periodEnd >= w.attempts[k].monthly.latest.value.lineEnd
  {
    assert AttemptInv(w, k);
    var ctx, view := w.attempts[k].ctx, w.attempts[k].monthly;
    SeenStaysPaid(w.history, ctx.observedFrom, view.latest);
    hide HistoryInv, EventsInv, LogInv, AttemptInv, SawMonthly;
    UnfinishedFirst(w, k, newLicense);
    ReadingCoversInvoice(w.rows, w.events, w.binding, Current(w), ctx, view, newLicense);
    hide RowsInv, CommitMonthly;
  }

  lemma UnfinishedFirst(w: World, k: AttemptId, newLicense: LicenseId)
    requires WellFormed(w) && Enabled(w, FinishMonthly(k, newLicense))
    requires |Next(w, FinishMonthly(k, newLicense)).log| > |w.log|
    ensures !AnyUnfinished(w.rows.adjustments) && UpToDate(w, w.attempts[k])
    ensures !w.events[w.attempts[k].ctx.event].Processed()
  {
    if AnyUnfinished(w.rows.adjustments) {
      UnfinishedStopsOrdinaryWriters(w, k, newLicense);
    }
    hide ApplyMonthlyPurchase, AnyUnfinished, SawMonthly, HydratedMonthly, Hydrated;
  }

  lemma ReadingCoversInvoice(rows: Rows, events: map<EventId, Event>, binding: Binding, stripe: Stripe, ctx: Context,
                             view: MonthlySnapshot, newLicense: LicenseId)
    requires ctx.event in events && !events[ctx.event].Processed() && ctx.revision == rows.order.revision
    requires RowsInv(rows, binding, stripe) && rows.order.plan == Monthly && LicenseOf(rows) == Some(LicenseActive)
    requires !AnyUnfinished(rows.adjustments) && !AnyBlocking(rows.adjustments)
    requires HydratedMonthly(true, view) && view.latest.Some? && view.latest.value.status == InvoicePaid
    requires StillPaid(view.latest, stripe)
    ensures var r := CommitMonthly(rows, events, binding, ctx.event, view, ctx.revision, newLicense, ctx.now);
            r.Success? ==>
              && rows.order.licenseId.value in r.value.rows.subscriptions
              && r.value.rows.subscriptions[rows.order.licenseId.value].projection.periodEnd
                 >= view.latest.value.lineEnd
  {
    forall a | a in rows.adjustments
      ensures !rows.adjustments[a].pending && !rows.adjustments[a].cancelRequired
              && rows.adjustments[a].state == Resolved
    {
      assert rows.adjustments[a].state.Blocking? || rows.adjustments[a].state.Resolved?;
    }
    RenewalIsStored(rows, events, binding, stripe, ctx.event, view, newLicense, ctx.now);
    hide CommitMonthly, AdjustmentInv;
  }

  /** And what was covered stays covered in every continuation. */
  lemma PaidRenewalIsNeverLost(run: seq<World>, n: nat, j: nat, k: AttemptId, newLicense: LicenseId)
    requires Run(run) && n < j < |run| && WellFormed(run[n]) && Enabled(run[n], FinishMonthly(k, newLicense))
    requires run[n + 1] == Next(run[n], FinishMonthly(k, newLicense)) && |run[n + 1].log| > |run[n].log|
    requires LicenseOf(run[n].rows) == Some(LicenseActive) && !AnyBlocking(run[n].rows.adjustments)
    requires run[n].attempts[k].monthly.latest.Some? && run[n].attempts[k].monthly.latest.value.status == InvoicePaid
    ensures run[n].rows.order.licenseId.value in run[j].rows.subscriptions
    ensures run[j].rows.subscriptions[run[n].rows.order.licenseId.value].projection.periodEnd
            >= run[n].attempts[k].monthly.latest.value.lineEnd
  {
    RunKeepsInv(run, n);
    MonthlyWriteCoversItsInvoice(run[n], k, newLicense);
    PaidPeriodNeverMovesBack(run, n + 1, j, run[n].rows.order.licenseId.value);
    hide Inv, Next, Enabled, WellFormed, Run;
  }
}
