/** The database side of billing, statement by statement: an order's tables and the transactions that
    EventProcessor runs on them under the order lock. Each method is proved to leave exactly the rows its
    specification in BillingRows gives, and to roll back to the rows it found when it fails. */
module OrderStore {
  import opened Basics
  import opened Subscription
  import opened Entitlement
  import opened BillingRows

  datatype BillingEvent = BillingEvent(id: EventId, eventType: EventType, objectId: ObjectId, createdAt: Time)

  class Store {
    const binding: Binding
    var order: Order
    var adjustments: map<ObjectId, Adjustment>
    var licenses: map<LicenseId, LicenseState>
    var subscriptions: map<LicenseId, SubscriptionRow>
    var events: map<EventId, Event>

    function Snapshot(): Rows
      reads this
    {
      Rows(order, adjustments, licenses, subscriptions)
    }

    /** The order row as a payment link purchase creates it. */
    constructor (plan: Plan, binding: Binding)
      ensures Snapshot() == Rows(Order(plan, OrderPending, None, None, None, None, 0), map[], map[], map[])
      ensures events == map[] && this.binding == binding
    {
      this.binding := binding;
      order := Order(plan, OrderPending, None, None, None, None, 0);
      adjustments, licenses, subscriptions, events := map[], map[], map[], map[];
    }

    method Rollback(before: Rows)
      modifies this`order, this`adjustments, this`licenses, this`subscriptions
      ensures Snapshot() == before
    {
      order, adjustments, licenses, subscriptions := before.order, before.adjustments, before.licenses,
        before.subscriptions;
    }

    predicate Matches(event: BillingEvent)
      reads this
    {
      event.id in events && events[event.id].eventType == event.eventType
      && events[event.id].objectId == event.objectId && events[event.id].createdAt == event.createdAt
    }

    /** Whether the recorded event is processed; an event ID reused for something else is refused. */
    method MatchingBillingEvent(event: BillingEvent) returns (r: Result<bool, BillingError>)
      ensures r == if event.id !in events then Failure(MissingRow)
                   else if !Matches(event) then Failure(InvalidEvent)
                   else Success(events[event.id].Processed())
    {
      if event.id !in events {
        return Failure(MissingRow);
      }
      var row := events[event.id];
      if row.eventType != event.eventType || row.objectId != event.objectId || row.createdAt != event.createdAt {
        return Failure(InvalidEvent);
      }
      r := Success(row.outcome.Some?);
    }

    /** Records an event once, however often it is delivered. */
    method RecordEvent(event: BillingEvent) returns (r: Result<bool, BillingError>)
      modifies this`events
      ensures events == if event.id in old(events) then old(events)
                        else old(events)[event.id := Event(event.eventType, event.objectId, event.createdAt, None)]
      ensures r == if !Matches(event) then Failure(InvalidEvent) else Success(events[event.id].Processed())
    {
      if event.id !in events {
        events := events[event.id := Event(event.eventType, event.objectId, event.createdAt, None)];
      }
      r := MatchingBillingEvent(event);
    }

    method CompleteEvent(id: EventId, outcome: Outcome)
      modifies this`events
      ensures events == Complete(old(events), id, outcome)
    {
      if id in events {
        events := events[id := events[id].(outcome := Some(outcome))];
      }
    }

    method IssuePurchasedLicense(newLicense: LicenseId)
      modifies this`licenses
      ensures licenses == old(licenses)[newLicense := LicenseActive]
    {
      licenses := licenses[newLicense := LicenseActive];
    }

    /** Completes an ordinary writer's transaction. */
    method FinishOrdinary(event: EventId, outcome: Outcome)
      modifies this`order, this`events
      ensures order == Bumped(old(order)) && events == Complete(old(events), event, outcome)
    {
      order := order.(revision := order.revision + 1);
      CompleteEvent(event, outcome);
    }

    // ----- event.go: perpetual Checkout -----

    method ProcessCheckout(event: BillingEvent, session: Session, newLicense: LicenseId, now: Time)
      returns (r: Result<Option<Outcome>, BillingError>)
      modifies this
      ensures !old(Matches(event)) ==> r.Failure? && Snapshot() == old(Snapshot()) && events == old(events)
      ensures old(Matches(event)) && old(order).plan == PerpetualV1 ==>
                match CommitCheckout(old(Snapshot()), old(events), binding, event.id, session, newLicense, now)
                case Failure(e) => r == Failure(e) && Snapshot() == old(Snapshot()) && events == old(events)
                case Success(c) => r == Success(c.outcome) && Snapshot() == c.rows && events == c.events
      ensures old(order).plan == Monthly ==> Snapshot().(order := old(order)) == old(Snapshot())
    {
      var processed := MatchingBillingEvent(event);
      if processed.Failure? {
        return Failure(processed.error);
      } else if processed.value {
        return Success(None);
      }
      var restriction := BillingRestriction(adjustments);
      if restriction.Failure? {
        return Failure(restriction.error);
      }
      var blocked, outcome := restriction.value, NoChange;
      if !blocked {
        if order.plan != PerpetualV1 || (session.paid && session.chargeRefunded) {
          return Failure(InvalidPurchase);
        }
        if order.state != OrderFulfilled {
          if session.paid {
            IssuePurchasedLicense(newLicense);
            order := order.(state := OrderFulfilled, licenseId := Some(newLicense), fulfilledAt := Some(now),
                            paymentId := Some(binding.paymentId));
            outcome := FulfilledOrder;
          } else {
            match session.status {
              case SessionExpired => return Failure(InvalidPurchase);
              case _ =>
                if event.eventType == CheckoutPaymentFailed {
                  outcome := MarkedFailed;
                }
            }
            if outcome == MarkedFailed && order.state != OrderPaid {
              order := order.(state := OrderFailed);
            }
          }
        }
      }
      FinishOrdinary(event.id, outcome);
      r := Success(Some(outcome));
    }

    // ----- monthly_event.go -----

    method CommitMonthlyEvent(event: BillingEvent, revision: nat, view: MonthlySnapshot, newLicense: LicenseId,
                              now: Time)
      returns (r: Result<Option<Outcome>, BillingError>)
      modifies this
      ensures !old(Matches(event)) ==> r.Failure? && Snapshot() == old(Snapshot()) && events == old(events)
      ensures old(Matches(event)) && old(order).plan == Monthly ==>
                match CommitMonthly(old(Snapshot()), old(events), binding, event.id, view, revision, newLicense, now)
                case Failure(e) => r == Failure(e) && Snapshot() == old(Snapshot()) && events == old(events)
                case Success(c) => r == Success(c.outcome) && Snapshot() == c.rows && events == c.events
      ensures old(order).plan == PerpetualV1 ==> Snapshot() == old(Snapshot())
    {
      var processed := MatchingBillingEvent(event);
      if processed.Failure? {
        return Failure(processed.error);
      } else if processed.value {
        return Success(None);
      }
      if order.revision != revision {
        return Failure(SnapshotChanged);
      } else if order.plan != Monthly {
        return Failure(InvalidPurchase);
      }
      var before := Snapshot();
      var applied := ApplyMonthly(event.eventType, view, newLicense, now);
      if applied.Failure? {
        Rollback(before);
        return Failure(applied.error);
      }
      FinishOrdinary(event.id, applied.value);
      r := Success(Some(applied.value));
    }

    method ApplyMonthly(eventType: EventType, view: MonthlySnapshot, newLicense: LicenseId, now: Time)
      returns (r: Result<Outcome, BillingError>)
      requires order.plan == Monthly
      modifies this`order, this`licenses, this`subscriptions
      ensures match ApplyMonthlyPurchase(old(Snapshot()), binding, eventType, view, newLicense, now)
              case Failure(e) => r == Failure(e)
              case Success(a) => r == Success(a.outcome) && Snapshot() == a.rows
    {
      var restriction := BillingRestriction(adjustments);
      if restriction.Failure? {
        return Failure(restriction.error);
      } else if restriction.value {
        return Success(NoChange);
      }
      if order.licenseId.Some? {
        r := Reconcile(view, now);
        return;
      }
      if view.subscription.Some? {
        var subscription := view.subscription.value;
        if view.initial.None? {
          return Failure(NilDereference);
        }
        var canceledAfterPayment := subscription.status == StripeCanceled
          && subscription.cancellation == Some(CancellationRequested);
        if view.initial.value.status == InvoicePaid && (subscription.status == StripeActive || canceledAfterPayment) {
          r := IssueMonthly(view, subscription, view.initial.value, canceledAfterPayment, newLicense, now);
          return;
        }
      }
      var failed := view.session.status == SessionExpired || eventType == CheckoutPaymentFailed;
      var subscriptionId := None;
      if view.subscription.Some? {
        failed := failed || view.subscription.value.status in {StripeCanceled, StripeIncompleteExpired, StripeUnpaid};
        subscriptionId := Some(binding.subscriptionId);
      }
      var state, outcome := order.state, NoChange;
      if failed {
        state, outcome := OrderFailed, MarkedFailed;
      }
      order := order.(state := state, subscriptionId := subscriptionId);
      r := Success(outcome);
    }

    method Reconcile(view: MonthlySnapshot, now: Time) returns (r: Result<Outcome, BillingError>)
      requires order.licenseId.Some?
      modifies this`subscriptions
      ensures match ReconcileLicensed(old(Snapshot()), view, now)
              case Failure(e) => r == Failure(e)
              case Success(a) => r == Success(a.outcome) && Snapshot() == a.rows
    {
      var id := order.licenseId.value;
      if id !in licenses {
        return Failure(MissingRow);
      }
      if view.subscription.None? {
        return Failure(InvalidPurchase);
      }
      if licenses[id] != LicenseActive {
        return Success(NoChange);
      }
      if id !in subscriptions {
        return Failure(MissingRow);
      }
      var previous := subscriptions[id].projection;
      if view.latest.None? {
        return Failure(InvalidPurchase);
      }
      var paidEnd := PaidPeriodEnd(view.latest.value);
      var next := ReconcileSubscription(previous, view.subscription.value, view.latest.value.id, paidEnd, now);
      if next.Failure? {
        return Failure(InvalidPurchase);
      }
      subscriptions := subscriptions[id := subscriptions[id].(projection := next.value)];
      r := Success(if next.value == previous then NoChange else Projected(next.value.state));
    }

    method IssueMonthly(view: MonthlySnapshot, subscription: StripeSubscription, initial: Invoice,
                        canceledAfterPayment: bool, newLicense: LicenseId, now: Time)
      returns (r: Result<Outcome, BillingError>)
      requires order.plan == Monthly && FulfilsMonthly(view)
      requires view.subscription == Some(subscription) && view.initial == Some(initial)
      requires canceledAfterPayment == PaidCancellation(subscription)
      modifies this`order, this`licenses, this`subscriptions
      ensures match IssueReconciled(old(Snapshot()), binding, view, newLicense, now)
              case Failure(e) => r == Failure(e)
              case Success(a) => r == Success(a.outcome) && Snapshot() == a.rows
    {
      if view.latest.None? {
        return Failure(InvalidPurchase);
      }
      var paidEnd, initialPaidEnd := PaidPeriodEnd(view.latest.value), PaidPeriodEnd(initial);
      if canceledAfterPayment && now >= initialPaidEnd {
        return Success(NoChange);
      }
      var previous := Projection(BillingUnset, initialPaidEnd, initialPaidEnd + RECOVERY_WINDOW, initial.id);
      var next := ReconcileSubscription(previous, subscription, view.latest.value.id, paidEnd, now);
      if next.Failure? {
        return Failure(InvalidPurchase);
      }
      FulfilMonthlyOrder(next.value, newLicense, now);
      r := Success(FulfilledOrder);
    }

    method FulfilMonthlyOrder(next: Projection, newLicense: LicenseId, now: Time)
      requires order.plan == Monthly
      modifies this`order, this`licenses, this`subscriptions
      ensures Snapshot() == FulfilMonthly(old(Snapshot()), binding, newLicense, next, now)
    {
      IssuePurchasedLicense(newLicense);
      subscriptions := subscriptions[newLicense := SubscriptionRow(next, None)];
      order := order.(state := OrderFulfilled, licenseId := Some(newLicense), fulfilledAt := Some(now),
                      subscriptionId := Some(binding.subscriptionId));
    }

    // ----- adjustment_event.go -----

    /** First phase: the intent is durable before Stripe is called. Returns the advanced revision, and whether
        the event is done with. Without an adjustment of an order, the event is only completed as unowned. */
    method Prepare(event: BillingEvent, adjustment: Option<AdjustmentView>, revision: nat, now: Time)
      returns (r: Result<(nat, bool), BillingError>)
      modifies this
      ensures !old(Matches(event)) ==> r.Failure? && Snapshot() == old(Snapshot()) && events == old(events)
      ensures old(Matches(event)) && adjustment.None? ==>
                && r == Success((order.revision, true)) && Snapshot() == old(Snapshot())
                && events == if old(events)[event.id].Processed() then old(events)
                             else Complete(old(events), event.id, IgnoredUnowned)
      ensures old(Matches(event)) && adjustment.Some? ==>
                match PrepareAdjustment(old(Snapshot()), old(events), event.id, adjustment.value, revision, now)
                case Failure(e) => r == Failure(e) && Snapshot() == old(Snapshot()) && events == old(events)
                case Success(p) =>
                  r == Success((p.rows.order.revision, p.done)) && Snapshot() == p.rows
                  && events == p.events
    {
      var processed := MatchingBillingEvent(event);
      if processed.Failure? {
        return Failure(processed.error);
      } else if processed.value {
        return Success((order.revision, true));
      }
      if adjustment.None? {
        CompleteEvent(event.id, IgnoredUnowned);
        return Success((order.revision, true));
      }
      if order.revision != revision {
        return Failure(SnapshotChanged);
      }
      var before, a := Snapshot(), adjustment.value;
      var state := a.state;
      if state.None? && a.id in adjustments && (adjustments[a.id].pending || adjustments[a.id].cancelRequired) {
        state := Some(adjustments[a.id].state);
      }
      if state.Some? {
        var cancel := state.value == Blocking && order.plan == Monthly;
        if a.id !in adjustments {
          var inserted := Adjustment(a.kind, a.chargeId, state.value, true, cancel, a.effectiveAt, now);
          adjustments := adjustments[a.id := inserted];
        }
        var stored := adjustments[a.id];
        if stored.kind != a.kind || stored.chargeId != a.chargeId || stored.effectiveAt != a.effectiveAt {
          Rollback(before);
          return Failure(InvalidAdjustment);
        }
        if stored.state == state.value && !stored.pending && !stored.cancelRequired {
          state := None;
        } else {
          cancel := stored.cancelRequired || cancel;
          stored := stored.(state := state.value, pending := true, cancelRequired := cancel, updatedAt := now);
          adjustments := adjustments[a.id := stored];
        }
      }
      order := order.(revision := order.revision + 1);
      if state.Some? {
        return Success((order.revision, false));
      }
      CompleteEvent(event.id, NoChange);
      r := Success((order.revision, true));
    }

    method Commit(event: BillingEvent, view: AdjustmentSnapshot, revision: nat, newLicense: LicenseId, now: Time)
      returns (r: Result<Option<Outcome>, BillingError>)
      requires Hydrated(order.plan, view)
      modifies this
      ensures !old(Matches(event)) ==> r.Failure? && Snapshot() == old(Snapshot()) && events == old(events)
      ensures old(Matches(event)) ==>
                match CommitAdjustment(old(Snapshot()), old(events), binding, event.id, view, revision, newLicense, now)
                case Failure(e) => r == Failure(e) && Snapshot() == old(Snapshot()) && events == old(events)
                case Success(c) => r == Success(c.outcome) && Snapshot() == c.rows && events == c.events
    {
      var processed := MatchingBillingEvent(event);
      if processed.Failure? {
        return Failure(processed.error);
      } else if processed.value {
        return Success(None);
      }
      if order.revision != revision {
        return Failure(SnapshotChanged);
      }
      var before := Snapshot();
      Settle(view, now);
      var applied := Apply(view, newLicense, now);
      if applied.Failure? {
        Rollback(before);
        return Failure(applied.error);
      }
      FinishOrdinary(event.id, applied.value);
      r := Success(Some(applied.value));
    }

    /** The three updates of the adjustment rows. */
    method Settle(view: AdjustmentSnapshot, now: Time)
      requires Hydrated(order.plan, view)
      modifies this`adjustments
      ensures adjustments == SettledAdjustments(old(Snapshot()), view, now)
    {
      var a := view.adjustment;
      if a.id in adjustments {
        adjustments := adjustments[a.id := adjustments[a.id].(pending := false, updatedAt := now)];
      }
      if a.state.Some? && a.id in adjustments {
        adjustments := adjustments[a.id := adjustments[a.id].(state := a.state.value)];
      }
      if order.plan == Monthly && !CanBill(view.subscription.value) {
        adjustments := map id | id in adjustments :: adjustments[id].(cancelRequired := false);
      }
    }

    method Apply(view: AdjustmentSnapshot, newLicense: LicenseId, now: Time) returns (r: Result<Outcome, BillingError>)
      requires Hydrated(order.plan, view)
      modifies this`order, this`licenses, this`subscriptions
      ensures match ApplyAdjustments(old(Snapshot()), binding, view, newLicense, now)
              case Failure(e) => r == Failure(e)
              case Success(a) => r == Success(a.outcome) && Snapshot() == a.rows
    {
      if order.licenseId.Some? {
        if order.licenseId.value !in licenses {
          return Failure(MissingRow);
        }
        if licenses[order.licenseId.value] == LicenseRevoked {
          return Success(NoChange);
        }
        if order.plan == Monthly && order.licenseId.value !in subscriptions {
          return Failure(MissingRow);
        }
      }
      if AnyBlocking(adjustments) {
        // Another event's cancellation is left to confirm itself.
        if order.plan == Monthly && CanBill(view.subscription.value) {
          return Success(NoChange);
        }
        var outcome := RestrictOrder(now);
        r := Success(outcome);
      } else {
        r := RestoreOrder(view, newLicense, now);
      }
    }

    /** `min(effective_at)` over the blocking rows. */
    method EarliestEffective() returns (earliest: Time)
      requires AnyBlocking(adjustments)
      ensures IsEarliestBlocking(earliest, adjustments)
    {
      var blocking := set id | id in adjustments && adjustments[id].state == Blocking;
      var first :| first in adjustments && adjustments[first].state == Blocking;
      earliest := adjustments[first].effectiveAt;
      var rest := blocking;
      while rest != {}
        invariant rest <= blocking
        invariant exists id ::
                    id in adjustments && adjustments[id].state == Blocking && adjustments[id].effectiveAt == earliest
        invariant forall id :: id in blocking - rest ==> earliest <= adjustments[id].effectiveAt
        decreases rest
      {
        var id :| id in rest;
        if adjustments[id].effectiveAt < earliest {
          earliest := adjustments[id].effectiveAt;
        }
        rest := rest - {id};
      }
      assert forall id :: id in adjustments && adjustments[id].state == Blocking ==> id in blocking - rest;
    }

    method RestrictOrder(now: Time) returns (outcome: Outcome)
      requires AnyBlocking(adjustments)
      requires order.licenseId.Some? ==> order.licenseId.value in licenses
      requires order.licenseId.Some? && order.plan == Monthly ==> order.licenseId.value in subscriptions
      modifies this`order, this`licenses, this`subscriptions
      ensures Restrict(old(Snapshot()), binding, now) == Applied(Snapshot(), outcome)
    {
      var state := LicenseChargedBack;
      if AnyBlockingRefund(adjustments) {
        state := LicenseRefunded;
      }
      if order.licenseId.None? {
        var paymentId, subscriptionId: Option<string> := None, None;
        if order.plan == Monthly {
          subscriptionId := Some(binding.subscriptionId);
        } else {
          paymentId := Some(binding.paymentId);
        }
        order := order.(state := OrderFailed, paymentId := paymentId, subscriptionId := subscriptionId);
        return Restricted(state);
      }
      var id := order.licenseId.value;
      if licenses[id] == LicenseRefunded && state != LicenseRefunded {
        return NoChange;
      }
      licenses := licenses[id := state];
      if order.plan == Monthly {
        var effectiveAt := EarliestEffective();
        var row := subscriptions[id];
        var terminalAt := if row.terminalAt.Some? then row.terminalAt.value else effectiveAt;
        terminalAt := Min(Min(terminalAt, effectiveAt), row.projection.recoveryUntil);
        subscriptions := subscriptions[id := row.(terminalAt := Some(terminalAt))];
      }
      outcome := Restricted(state);
    }

    method RestoreOrder(view: AdjustmentSnapshot, newLicense: LicenseId, now: Time)
      returns (r: Result<Outcome, BillingError>)
      requires Hydrated(order.plan, view)
      requires order.licenseId.Some? ==> order.licenseId.value in licenses
      requires order.licenseId.Some? && order.plan == Monthly ==> order.licenseId.value in subscriptions
      modifies this`order, this`licenses, this`subscriptions
      ensures match Restore(old(Snapshot()), binding, view, newLicense, now)
              case Failure(e) => r == Failure(e)
              case Success(a) => r == Success(a.outcome) && Snapshot() == a.rows
    {
      var state: Option<LicenseState> := None;
      var previous := ZERO_PROJECTION;
      if order.licenseId.Some? {
        state := Some(licenses[order.licenseId.value]);
        if order.plan == Monthly {
          previous := subscriptions[order.licenseId.value].projection;
        }
      }
      if view.adjustment.state != Some(Resolved) || state == Some(LicenseRefunded)
         || (state == Some(LicenseActive) && order.plan == PerpetualV1) {
        return Success(NoChange);
      }
      var charge := view.adjustment.charge;
      if !charge.paid || charge.refunded || charge.amountRefunded >= charge.amount {
        return Success(NoChange);
      }
      var next := previous;
      if order.plan == Monthly {
        var projected := RestoreProjection(view, previous, now);
        if projected.Failure? {
          return Failure(projected.error);
        }
        var eligible := projected.value.1;
        next := projected.value.0;
        if !eligible && state != Some(LicenseActive) {
          return Success(NoChange);
        }
      }
      if order.licenseId.None? {
        if order.plan == PerpetualV1 {
          IssuePurchasedLicense(newLicense);
          order := order.(state := OrderFulfilled, licenseId := Some(newLicense), fulfilledAt := Some(now),
                          paymentId := Some(binding.paymentId));
        } else {
          FulfilMonthlyOrder(next, newLicense, now);
        }
        return Success(FulfilledOrder);
      }
      if state != Some(LicenseChargedBack) && state != Some(LicenseActive) {
        assert state.value.LicenseRevoked?;
        return Success(NoChange);
      }
      licenses := licenses[order.licenseId.value := LicenseActive];
      if order.plan == Monthly {
        subscriptions := subscriptions[order.licenseId.value := SubscriptionRow(next, None)];
      }
      r := Success(Restored);
    }
  }

  /** restorationProjection: each invoice in turn may advance the paid period before the status is applied. */
  method RestoreProjection(view: AdjustmentSnapshot, previous: Projection, now: Time)
    returns (r: Result<(Projection, bool), BillingError>)
    requires view.subscription.Some?
    ensures r == RestorationProjection(view, previous, now)
  {
    var subscription := view.subscription.value;
    if view.initial.None? || view.initial.value.status != InvoicePaid {
      return Success((previous, false));
    }
    if subscription.status !in {StripeActive, StripePastDue, StripeUnpaid, StripeCanceled} {
      return Success((previous, false));
    }
    if view.invoice.None? || view.latest.None? {
      return Failure(InvalidPurchase);
    }
    var invoices := [view.initial.value, view.invoice.value, view.latest.value];
    var advanced := previous;
    for i := 0 to |invoices|
      invariant advanced == AdvanceAll(previous, invoices[..i])
    {
      assert invoices[..i + 1][..i] == invoices[..i];
      var invoice := invoices[i];
      var end := PaidPeriodEnd(invoice);
      if end > advanced.periodEnd && invoice.id != advanced.lastPaidInvoice {
        advanced := advanced.(periodEnd := end, lastPaidInvoice := invoice.id, recoveryUntil := end + RECOVERY_WINDOW);
      }
    }
    assert invoices[..|invoices|] == invoices;
    var latest := view.latest.value;
    var next := ReconcileSubscription(advanced, subscription, latest.id, PaidPeriodEnd(latest), now);
    if next.Failure? {
      return Failure(InvalidPurchase);
    }
    var projection := next.value;
    if subscription.status == StripeCanceled {
      projection := projection.(recoveryUntil := projection.periodEnd);
    }
    r := Success((projection, now < projection.recoveryUntil + GRACE_PERIOD));
  }
}
