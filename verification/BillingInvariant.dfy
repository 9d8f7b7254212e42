/** What every order-locked transaction keeps: the constraints of the migrations, the meaning of restrictions,
    and the tie between stored terms and paid invoices. */
module BillingInvariant {
  import opened Basics
  import opened Subscription
  import opened Entitlement
  import opened BillingRows
  import opened BillingProtocol

  // ----- the invariant of the rows -----

  /** The CHECK constraints on `checkout_orders`, and what its references may be. No billing writer stores
      the state `paid`. */
  predicate OrderConstraints(order: Order, binding: Binding) {
    && order.state != OrderPaid
    && (order.state == OrderFulfilled <==> order.licenseId.Some?)
    && (order.state == OrderFulfilled <==> order.fulfilledAt.Some?)
    && (order.plan == PerpetualV1 ==> order.subscriptionId.None?)
    && (order.plan == Monthly ==> order.paymentId.None?)
    && (order.state in {OrderPaid, OrderFulfilled} ==>
          if order.plan == PerpetualV1 then order.paymentId.Some? else order.subscriptionId.Some?)
    && (order.paymentId.Some? ==> order.paymentId.value == binding.paymentId)
    && (order.subscriptionId.Some? ==> order.subscriptionId.value == binding.subscriptionId)
  }

  function LicenseOf(rows: Rows): Option<LicenseState> {
    if rows.order.licenseId.Some? && rows.order.licenseId.value in rows.licenses
    then Some(rows.licenses[rows.order.licenseId.value]) else None
  }

  /** A settled blocking adjustment is in force: there is nothing to restrict, or it is restricted accordingly. */
  predicate InForce(kind: AdjustmentKind, license: Option<LicenseState>) {
    license.None? || license.value in {LicenseRefunded, LicenseRevoked}
      || (kind == Dispute && license.value == LicenseChargedBack)
  }

  predicate Describes(row: Adjustment, source: StripeObject) {
    (row.kind == Refund <==> source.RefundObject?) && row.chargeId == source.chargeId
      && row.effectiveAt == source.created * SECOND
  }

  predicate AdjustmentInv(row: Adjustment, id: ObjectId, plan: Plan, license: Option<LicenseState>, stripe: Stripe) {
    && (row.kind == Refund ==> row.state == Blocking)
    && row.effectiveAt > 0
    && id in stripe.objects && Describes(row, stripe.objects[id])
    && (row.cancelRequired ==> row.pending && plan == Monthly)
    && (plan == Monthly && row.state == Blocking && !row.cancelRequired ==> !CanBill(stripe.subscription))
    && (row.state == Blocking && !row.pending ==> InForce(row.kind, license))
  }

  /** The stored period is the line of an invoice that Stripe holds as paid. */
  predicate PaidFor(p: Projection, stripe: Stripe) {
    && p.lastPaidInvoice in stripe.invoices
    && stripe.invoices[p.lastPaidInvoice].status == InvoicePaid
    && stripe.invoices[p.lastPaidInvoice].lineEnd == p.periodEnd
  }

  function IssuedTo(order: Order): set<LicenseId> {
    if order.licenseId.Some? then {order.licenseId.value} else {}
  }

  ghost predicate LicensesInv(rows: Rows, stripe: Stripe) {
    && rows.licenses.Keys == IssuedTo(rows.order)
    && rows.subscriptions.Keys == (if rows.order.plan == Monthly then rows.licenses.Keys else {})
    && (forall l :: l in rows.subscriptions ==>
          ValidRow(rows.licenses[l], rows.subscriptions[l]) && PaidFor(rows.subscriptions[l].projection, stripe))
    && (forall l :: l in rows.licenses && rows.licenses[l] in {LicenseRefunded, LicenseChargedBack} ==>
          rows.order.plan == Monthly ==> !CanBill(stripe.subscription))
  }

  ghost predicate RowsInv(rows: Rows, binding: Binding, stripe: Stripe) {
    && OrderConstraints(rows.order, binding)
    && LicensesInv(rows, stripe)
    && (forall a :: a in rows.adjustments ==>
          AdjustmentInv(rows.adjustments[a], a, rows.order.plan, LicenseOf(rows), stripe))
  }

  /** Unfinished work on an object is always backed by an event the repair loop can take up. */
  ghost predicate EventsInv(rows: Rows, events: map<EventId, Event>) {
    forall a :: a in rows.adjustments && rows.adjustments[a].pending ==> Retryable(events, a)
  }

  ghost predicate Retryable(events: map<EventId, Event>, a: ObjectId) {
    exists e :: e in events && events[e].eventType == RefundOrDispute && events[e].objectId == a
      && !events[e].Processed()
  }

  // ----- Stripe moves on -----

  lemma EvolvesTransitive(a: Stripe, b: Stripe, c: Stripe)
    requires Evolves(a, b) && Evolves(b, c)
    ensures Evolves(a, c)
  {
  }

  lemma StripeMayMove(rows: Rows, binding: Binding, a: Stripe, b: Stripe)
    requires RowsInv(rows, binding, a) && Evolves(a, b)
    ensures RowsInv(rows, binding, b)
  {
  }

  // ----- what a snapshot guarantees when it is applied -----

  /** A paid invoice in the snapshot is a paid invoice now. */
  predicate StillPaid(invoice: Option<Invoice>, stripe: Stripe) {
    invoice.Some? && invoice.value.status == InvoicePaid ==>
      && invoice.value.id in stripe.invoices && stripe.invoices[invoice.value.id].status == InvoicePaid
      && stripe.invoices[invoice.value.id].lineEnd == invoice.value.lineEnd
  }

  predicate FaithfulAdjustment(a: AdjustmentView, stripe: Stripe) {
    && a.id in stripe.objects
    && (a.kind == Refund <==> stripe.objects[a.id].RefundObject?)
    && a.chargeId == stripe.objects[a.id].chargeId && a.effectiveAt == stripe.objects[a.id].created * SECOND
  }

  predicate Faithful(view: AdjustmentSnapshot, stripe: Stripe) {
    && FaithfulAdjustment(view.adjustment, stripe)
    && (view.subscription.Some? && !CanBill(view.subscription.value) ==> !CanBill(stripe.subscription))
    && StillPaid(view.invoice, stripe) && StillPaid(view.initial, stripe) && StillPaid(view.latest, stripe)
  }

  predicate LicenseRestricted(rows: Rows) {
    LicenseOf(rows) in {Some(LicenseRefunded), Some(LicenseChargedBack)}
  }

  /** A monthly order that is restricted, or has anything blocking or to cancel, is only committed with a
      snapshot in which billing has ended. */
  ghost predicate Confirmed(rows: Rows, view: AdjustmentSnapshot) {
    rows.order.plan == Monthly
    && (|| AnyBlocking(rows.adjustments) || AnyCancelRequired(rows.adjustments)
        || view.adjustment.state == Some(Blocking) || LicenseRestricted(rows)) ==>
      view.subscription.Some? && !CanBill(view.subscription.value)
  }

  // ----- ordinary writers -----

  lemma IssuingKeepsRows(rows: Rows, binding: Binding, stripe: Stripe, newLicense: LicenseId, now: Time)
    requires RowsInv(rows, binding, stripe) && rows.order.plan == PerpetualV1
    requires rows.order.licenseId.None? && !AnyBlocking(rows.adjustments)
    ensures RowsInv(Fulfil(rows, binding, newLicense, now), binding, stripe)
  {
  }

  lemma IssuingMonthlyKeepsRows(rows: Rows, binding: Binding, stripe: Stripe, newLicense: LicenseId, next: Projection,
                                now: Time)
    requires RowsInv(rows, binding, stripe) && rows.order.plan == Monthly
    requires rows.order.licenseId.None? && !AnyBlocking(rows.adjustments)
    requires ValidProjection(next) && PaidFor(next, stripe)
    ensures RowsInv(FulfilMonthly(rows, binding, newLicense, next, now), binding, stripe)
  {
  }

  lemma CheckoutKeepsRows(rows: Rows, binding: Binding, stripe: Stripe, eventType: EventType, session: Session,
                          newLicense: LicenseId, now: Time)
    requires RowsInv(rows, binding, stripe) && rows.order.plan == PerpetualV1
    ensures var r := ApplyCheckout(rows, binding, eventType, session, newLicense, now);
            r.Success? ==> RowsInv(r.value.rows, binding, stripe)
  {
  }

  lemma AdvancedIsPaidFor(previous: Projection, invoice: Invoice, stripe: Stripe)
    requires ValidInvoice(invoice) && StillPaid(Some(invoice), stripe)
    requires previous == ZERO_PROJECTION || (HasPaidPeriod(previous) && PaidFor(previous, stripe))
    ensures var p := AdvancePaidPeriod(previous, invoice.id, PaidPeriodEnd(invoice));
            && (p == ZERO_PROJECTION || (HasPaidPeriod(p) && PaidFor(p, stripe)))
            && (previous != ZERO_PROJECTION || invoice.status == InvoicePaid ==> p != ZERO_PROJECTION)
  {
  }

  lemma ReconciledIsPaidFor(previous: Projection, subscription: StripeSubscription, invoice: Invoice, now: Time,
                            stripe: Stripe)
    requires HasPaidPeriod(previous) && PaidFor(previous, stripe)
    requires ValidInvoice(invoice) && StillPaid(Some(invoice), stripe)
    ensures var r := ReconcileSubscription(previous, subscription, invoice.id, PaidPeriodEnd(invoice), now);
            r.Success? ==> ValidProjection(r.value) && PaidFor(r.value, stripe)
  {
  }

  lemma MonthlyKeepsRows(rows: Rows, binding: Binding, stripe: Stripe, eventType: EventType, view: MonthlySnapshot,
                         newLicense: LicenseId, now: Time)
    requires RowsInv(rows, binding, stripe) && rows.order.plan == Monthly
    requires HydratedMonthly(rows.order.licenseId.Some?, view)
    requires StillPaid(view.initial, stripe) && StillPaid(view.latest, stripe)
    ensures var r := ApplyMonthlyPurchase(rows, binding, eventType, view, newLicense, now);
            (r.Success? ==> RowsInv(r.value.rows, binding, stripe)) && r != Failure(NilDereference)
              && r != Failure(MissingRow)
  {
    hide ReconcileLicensed, IssueReconciled, StillPaid, LicensesInv, AdjustmentInv;
    if BillingRestriction(rows.adjustments) == Success(false) {
      if rows.order.licenseId.Some? {
        ReconcilingKeepsRows(rows, binding, stripe, view, now);
      } else if FulfilsMonthly(view) {
        IssuingReconciledKeepsRows(rows, binding, stripe, view, newLicense, now);
      } else {
        RecordingKeepsRows(rows, binding, stripe, eventType, view);
      }
    }
  }

  lemma RecordingKeepsRows(rows: Rows, binding: Binding, stripe: Stripe, eventType: EventType, view: MonthlySnapshot)
    requires RowsInv(rows, binding, stripe) && rows.order.plan == Monthly && rows.order.licenseId.None?
    ensures RowsInv(RecordUnpaid(rows, binding, eventType, view).rows, binding, stripe)
  {
  }

  lemma IssuingReconciledKeepsRows(rows: Rows, binding: Binding, stripe: Stripe, view: MonthlySnapshot,
                                   newLicense: LicenseId, now: Time)
    requires RowsInv(rows, binding, stripe) && rows.order.plan == Monthly
    requires rows.order.licenseId.None? && !AnyBlocking(rows.adjustments)
    requires HydratedMonthly(false, view) && FulfilsMonthly(view)
    requires StillPaid(view.initial, stripe) && StillPaid(view.latest, stripe)
    ensures var r := IssueReconciled(rows, binding, view, newLicense, now);
            (r.Success? ==> RowsInv(r.value.rows, binding, stripe)) && r != Failure(NilDereference)
              && r != Failure(MissingRow)
  {
    var initial := view.initial.value;
    var previous := Projection(BillingUnset, initial.lineEnd, initial.lineEnd + RECOVERY_WINDOW, initial.id);
    ReconciledIsPaidFor(previous, view.subscription.value, view.latest.value, now, stripe);
    hide RowsInv, FulfilMonthly, ValidProjection, PaidFor;
    var r := ReconcileSubscription(previous, view.subscription.value, view.latest.value.id,
                                   PaidPeriodEnd(view.latest.value), now);
    if r.Success? {
      IssuingMonthlyKeepsRows(rows, binding, stripe, newLicense, r.value, now);
    }
  }

  lemma ReconcilingKeepsRows(rows: Rows, binding: Binding, stripe: Stripe, view: MonthlySnapshot, now: Time)
    requires RowsInv(rows, binding, stripe) && rows.order.plan == Monthly && rows.order.licenseId.Some?
    requires HydratedMonthly(true, view) && StillPaid(view.latest, stripe)
    ensures var r := ReconcileLicensed(rows, view, now);
            (r.Success? ==> RowsInv(r.value.rows, binding, stripe)) && r != Failure(NilDereference)
              && r != Failure(MissingRow)
  {
    var id := rows.order.licenseId.value;
    if view.subscription.Some? && rows.licenses[id] == LicenseActive {
      ReconciledIsPaidFor(rows.subscriptions[id].projection, view.subscription.value, view.latest.value, now, stripe);
    }
  }

  // ----- the two phases of an adjustment -----

  lemma PrepareKeepsRows(rows: Rows, events: map<EventId, Event>, event: EventId, binding: Binding, stripe: Stripe,
                         view: AdjustmentSnapshot, revision: nat, now: Time)
    requires event in events && RowsInv(rows, binding, stripe)
    requires Hydrated(rows.order.plan, view) && Faithful(view, stripe)
    ensures var r := PrepareAdjustment(rows, events, event, view.adjustment, revision, now);
            (r.Success? ==> RowsInv(r.value.rows, binding, stripe)) && r != Failure(InvalidAdjustment)
  {
    hide ValidRow, PaidFor, OrderConstraints, CanBill, InForce, StillPaid;
    var a := view.adjustment;
    var r := PrepareAdjustment(rows, events, event, a, revision, now);
    BumpKeepsRows(rows, binding, stripe);
    if a.id in rows.adjustments {
      assert AdjustmentInv(rows.adjustments[a.id], a.id, rows.order.plan, LicenseOf(rows), stripe);
    }
    if r.Success? && !r.value.done {
      var intent := r.value.rows.adjustments[a.id];
      assert r.value.rows == rows.(order := Bumped(rows.order), adjustments := rows.adjustments[a.id := intent]);
      assert AdjustmentInv(intent, a.id, rows.order.plan, LicenseOf(rows), stripe);
    }
  }

  lemma PrepareKeepsEvents(rows: Rows, events: map<EventId, Event>, event: EventId, a: AdjustmentView, revision: nat,
                           now: Time)
    requires event in events && events[event].eventType == RefundOrDispute && events[event].objectId == a.id
    requires EventsInv(rows, events)
    ensures var r := PrepareAdjustment(rows, events, event, a, revision, now);
            r.Success? ==> EventsInv(r.value.rows, r.value.events)
  {
    var r := PrepareAdjustment(rows, events, event, a, revision, now);
    if r.Success? {
      forall b | b in r.value.rows.adjustments && r.value.rows.adjustments[b].pending
        ensures Retryable(r.value.events, b)
      {
        if b == a.id && !r.value.done {
          assert r.value.events == events && !events[event].Processed();
        } else {
          assert rows.adjustments[b].pending;
          var e :| e in events && events[e].eventType == RefundOrDispute && events[e].objectId == b
            && !events[e].Processed();
          assert e in r.value.events && r.value.events[e] == events[e];
        }
      }
    }
  }

  /** Row by row, what settling changes before the license is looked at. */
  lemma SettledRows(rows: Rows, binding: Binding, stripe: Stripe, view: AdjustmentSnapshot, now: Time)
    requires RowsInv(rows, binding, stripe)
    requires Hydrated(rows.order.plan, view) && Faithful(view, stripe) && Confirmed(rows, view)
    ensures var settled := SettledAdjustments(rows, view, now);
            && settled.Keys == rows.adjustments.Keys
            && (forall a :: a in settled ==> settled[a].kind == rows.adjustments[a].kind && settled[a].effectiveAt > 0)
            && (forall a :: a in settled ==>
                  AdjustmentInv(settled[a], a, rows.order.plan, if settled[a].pending then None else
                                if a == view.adjustment.id then None else LicenseOf(rows), stripe))
            && (rows.order.plan == Monthly && AnyBlocking(settled) ==> !CanBill(view.subscription.value))
  {
    var settled := SettledAdjustments(rows, view, now);
    assert rows.order.plan == Monthly && AnyBlocking(settled) ==> !CanBill(view.subscription.value) by {
      if AnyBlocking(settled) && view.adjustment.state != Some(Blocking) {
        var a :| a in settled && settled[a].state == Blocking;
        assert rows.adjustments[a].state == Blocking;
      }
    }
    forall a | a in settled
      ensures AdjustmentInv(settled[a], a, rows.order.plan, if settled[a].pending then None else
                            if a == view.adjustment.id then None else LicenseOf(rows), stripe)
    {
      assert AdjustmentInv(rows.adjustments[a], a, rows.order.plan, LicenseOf(rows), stripe);
      if rows.adjustments[a].cancelRequired {
        assert AnyCancelRequired(rows.adjustments);
      }
      if settled[a].state == Blocking {
        assert AnyBlocking(settled);
      }
    }
  }

  lemma RestrictKeepsRows(rows: Rows, settled: Rows, binding: Binding, stripe: Stripe, now: Time)
    requires RowsInv(rows, binding, stripe)
    requires settled == rows.(adjustments := settled.adjustments) && AnyBlocking(settled.adjustments)
    requires forall a :: a in settled.adjustments ==> exists license ::
               AdjustmentInv(settled.adjustments[a], a, rows.order.plan, license, stripe)
    requires rows.order.plan == Monthly ==> !CanBill(stripe.subscription)
    requires LicenseOf(rows) != Some(LicenseRevoked)
    ensures var r := Restrict(settled, binding, now);
            RowsInv(r.rows, binding, stripe)
  {
    hide PaidFor, CanBill, Describes;
    var r := Restrict(settled, binding, now);
    if rows.order.licenseId.Some? {
      var id := rows.order.licenseId.value;
      if rows.order.plan == Monthly {
        assert id in rows.subscriptions;
      }
      forall a | a in settled.adjustments && settled.adjustments[a].state == Blocking
        ensures InForce(settled.adjustments[a].kind, LicenseOf(r.rows))
      {
      }
    }
  }

  lemma RestoreKeepsRows(rows: Rows, settled: Rows, binding: Binding, stripe: Stripe, view: AdjustmentSnapshot,
                         newLicense: LicenseId, now: Time)
    requires RowsInv(rows, binding, stripe)
    requires settled == rows.(adjustments := settled.adjustments) && !AnyBlocking(settled.adjustments)
    requires forall a :: a in settled.adjustments ==> exists license ::
               AdjustmentInv(settled.adjustments[a], a, rows.order.plan, license, stripe)
    requires Hydrated(rows.order.plan, view) && Faithful(view, stripe)
    ensures var r := Restore(settled, binding, view, newLicense, now);
            r.Success? ==> RowsInv(r.value.rows, binding, stripe)
  {
    hide AdvanceAll, RestorationProjection, Faithful, Describes, PaidCancellation, Fulfil, FulfilMonthly;
    assert RowsInv(settled, binding, stripe);
    if rows.order.plan == PerpetualV1 {
      if rows.order.licenseId.None? {
        IssuingKeepsRows(settled, binding, stripe, newLicense, now);
      }
    } else {
      RestoreMonthlyKeepsRows(settled, binding, stripe, view, newLicense, now);
    }
  }

  lemma RestoreMonthlyKeepsRows(rows: Rows, binding: Binding, stripe: Stripe, view: AdjustmentSnapshot,
                                newLicense: LicenseId, now: Time)
    requires RowsInv(rows, binding, stripe) && rows.order.plan == Monthly && !AnyBlocking(rows.adjustments)
    requires Hydrated(Monthly, view) && Faithful(view, stripe)
    ensures var r := Restore(rows, binding, view, newLicense, now);
            r.Success? ==> RowsInv(r.value.rows, binding, stripe)
  {
    hide AdvanceAll, RestorationProjection, Faithful, Describes, PaidCancellation, Fulfil, FulfilMonthly,
         OrderConstraints, InForce;
    var r := Restore(rows, binding, view, newLicense, now);
    if r.Success? && r.value.outcome in {FulfilledOrder, Restored} {
      var previous := if rows.order.licenseId.Some? then rows.subscriptions[rows.order.licenseId.value].projection
        else ZERO_PROJECTION;
      RestoredIsPaidFor(view, previous, now, stripe);
      if r.value.outcome == FulfilledOrder {
        IssuingMonthlyKeepsRows(rows, binding, stripe, newLicense,
                                RestorationProjection(view, previous, now).value.0, now);
      }
    }
  }

  /** A restoration that goes ahead, or any on a stored row, is again a valid paid projection. */
  lemma RestoredIsPaidFor(view: AdjustmentSnapshot, previous: Projection, now: Time, stripe: Stripe)
    requires Hydrated(Monthly, view) && view.adjustment.state == Some(Resolved) && Faithful(view, stripe)
    requires previous == ZERO_PROJECTION || (ValidProjection(previous) && PaidFor(previous, stripe))
    ensures var r := RestorationProjection(view, previous, now);
            r.Success? && (r.value.1 || previous != ZERO_PROJECTION) ==>
              && ValidProjection(r.value.0) && PaidFor(r.value.0, stripe)
              && (r.value.1 ==> now < r.value.0.recoveryUntil + GRACE_PERIOD)
              && (r.value.1 && !CanBill(view.subscription.value) ==> r.value.0.recoveryUntil == r.value.0.periodEnd)
  {
    var r := RestorationProjection(view, previous, now);
    if r.Success? && view.initial.value.status == InvoicePaid
       && view.subscription.value.status in {StripeActive, StripePastDue, StripeUnpaid, StripeCanceled} {
      var initial, invoice, latest := view.initial.value, view.invoice.value, view.latest.value;
      var one := AdvancePaidPeriod(previous, initial.id, PaidPeriodEnd(initial));
      var two := AdvancePaidPeriod(one, invoice.id, PaidPeriodEnd(invoice));
      var three := AdvancePaidPeriod(two, latest.id, PaidPeriodEnd(latest));
      AdvancedIsPaidFor(previous, initial, stripe);
      AdvancedIsPaidFor(one, invoice, stripe);
      AdvancedIsPaidFor(two, latest, stripe);
      AdvanceThree(previous, initial, invoice, latest);
      ReconciledIsPaidFor(three, view.subscription.value, latest, now, stripe);
    }
  }

  lemma AdvanceThree(previous: Projection, a: Invoice, b: Invoice, c: Invoice)
    ensures AdvanceAll(previous, [a, b, c]) ==
            (var one := AdvancePaidPeriod(previous, a.id, PaidPeriodEnd(a));
             var two := AdvancePaidPeriod(one, b.id, PaidPeriodEnd(b));
             AdvancePaidPeriod(two, c.id, PaidPeriodEnd(c)))
  {
    assert [a, b, c][..2] == [a, b] && [a, b][..1] == [a] && [a][..0] == [];
    assert AdvanceAll(previous, [a]) == AdvancePaidPeriod(previous, a.id, PaidPeriodEnd(a));
    assert AdvanceAll(previous, [a, b]) == AdvancePaidPeriod(AdvanceAll(previous, [a]), b.id, PaidPeriodEnd(b));
  }

  lemma BumpKeepsRows(rows: Rows, binding: Binding, stripe: Stripe)
    requires RowsInv(rows, binding, stripe)
    ensures RowsInv(rows.(order := Bumped(rows.order)), binding, stripe)
  {
  }

  lemma ApplyKeepsRows(rows: Rows, binding: Binding, stripe: Stripe, view: AdjustmentSnapshot, newLicense: LicenseId,
                       now: Time)
    requires RowsInv(rows, binding, stripe)
    requires Hydrated(rows.order.plan, view) && Faithful(view, stripe) && Confirmed(rows, view)
    ensures var settled := rows.(adjustments := SettledAdjustments(rows, view, now));
            var r := ApplyAdjustments(settled, binding, view, newLicense, now);
            && (r.Success? ==>
                  RowsInv(r.value.rows, binding, stripe)
                  && r.value.rows.adjustments == settled.adjustments)
            && r != Failure(MissingRow)
  {
    hide Restrict, Restore, OrderConstraints, FaithfulAdjustment, Confirmed, EarliestBlocking, SettledAdjustments,
         StillPaid, ValidRow, PaidFor, AdjustmentInv;
    var settled := rows.(adjustments := SettledAdjustments(rows, view, now));
    SettledRows(rows, binding, stripe, view, now);
    ApplyFrame(settled, binding, stripe, view, newLicense, now);
    if LicenseOf(rows) != Some(LicenseRevoked) {
      if AnyBlocking(settled.adjustments) {
        RestrictKeepsRows(rows, settled, binding, stripe, now);
      } else {
        RestoreKeepsRows(rows, settled, binding, stripe, view, newLicense, now);
      }
    } else {
      RevokedKeepsRows(rows, settled, binding, stripe);
    }
  }

  lemma RevokedKeepsRows(rows: Rows, settled: Rows, binding: Binding, stripe: Stripe)
    requires RowsInv(rows, binding, stripe) && LicenseOf(rows) == Some(LicenseRevoked)
    requires settled == rows.(adjustments := settled.adjustments)
    requires forall a :: a in settled.adjustments ==> exists license ::
               AdjustmentInv(settled.adjustments[a], a, rows.order.plan, license, stripe)
    ensures RowsInv(settled, binding, stripe)
  {
  }

  lemma ApplyFrame(rows: Rows, binding: Binding, stripe: Stripe, view: AdjustmentSnapshot, newLicense: LicenseId,
                   now: Time)
    requires Hydrated(rows.order.plan, view)
    ensures var r := ApplyAdjustments(rows, binding, view, newLicense, now);
            && (r.Success? ==>
                  r.value.rows.adjustments == rows.adjustments
                  && r.value.rows.order.plan == rows.order.plan)
            && (LicensesInv(rows, stripe) ==> r != Failure(MissingRow))
  {
    hide AdvanceAll, ReconcileSubscription, ValidRow, PaidFor;
  }

  lemma CommitKeepsRows(rows: Rows, events: map<EventId, Event>, event: EventId, binding: Binding, stripe: Stripe,
                        view: AdjustmentSnapshot, revision: nat, newLicense: LicenseId, now: Time)
    requires event in events && events[event].eventType == RefundOrDispute
             && events[event].objectId == view.adjustment.id
    requires RowsInv(rows, binding, stripe) && EventsInv(rows, events)
    requires Hydrated(rows.order.plan, view) && Faithful(view, stripe) && Confirmed(rows, view)
    ensures var r := CommitAdjustment(rows, events, binding, event, view, revision, newLicense, now);
            (r.Success? ==> RowsInv(r.value.rows, binding, stripe) && EventsInv(r.value.rows, r.value.events))
            && r != Failure(MissingRow)
  {
    if !events[event].Processed() && rows.order.revision == revision {
      ApplyKeepsRows(rows, binding, stripe, view, newLicense, now);
      var applied := ApplyAdjustments(rows.(adjustments := SettledAdjustments(rows, view, now)), binding, view,
                                      newLicense, now);
      if applied.Success? {
        BumpKeepsRows(applied.value.rows, binding, stripe);
        SettlingKeepsEvents(rows, events, event, view, now);
      }
    }
  }

  lemma SettlingKeepsEvents(rows: Rows, events: map<EventId, Event>, event: EventId, view: AdjustmentSnapshot,
                            now: Time)
    requires event in events && events[event].objectId == view.adjustment.id
    requires EventsInv(rows, events) && Hydrated(rows.order.plan, view)
    ensures forall outcome, a :: a in rows.adjustments && SettledAdjustments(rows, view, now)[a].pending ==>
              Retryable(Complete(events, event, outcome), a)
  {
    forall outcome, a | a in rows.adjustments && SettledAdjustments(rows, view, now)[a].pending
      ensures Retryable(Complete(events, event, outcome), a)
    {
      var e :| e in events && events[e].eventType == RefundOrDispute && events[e].objectId == a
        && !events[e].Processed();
      assert e in Complete(events, event, outcome) && Complete(events, event, outcome)[e] == events[e];
    }
  }
}
