/** How one transaction may change a license: the two-state facts behind "never changed back", "exactly once"
    and "a restriction never extends access". */
module BillingTransitions {
  import opened Basics
  import opened Subscription
  import opened Entitlement
  import opened BillingRows
  import opened BillingProtocol
  import opened BillingInvariant
  import opened BillingRun

  /** The only moves of a license: an operator may revoke it, a refund is final, a chargeback may become a
      refund or be lifted. */
  predicate LicenseMove(before: LicenseState, after: LicenseState) {
    match before
    case LicenseActive => true
    case LicenseChargedBack => true
    case LicenseRefunded => after in {LicenseRefunded, LicenseRevoked}
    case LicenseRevoked => after == LicenseRevoked
  }

  predicate IsRestricted(state: LicenseState) {
    state in {LicenseRefunded, LicenseChargedBack}
  }

  /** A lifted chargeback: nothing blocks the order any more, and a monthly license comes back with exactly the
      access that was paid for, enough of it to be eligible now. */
  ghost predicate LiftedProperly(after: Rows, l: LicenseId, now: Time) {
    && !AnyBlocking(after.adjustments)
    && (after.order.plan == Monthly ==>
          && l in after.subscriptions
          && after.subscriptions[l].terminalAt.None?
          && after.subscriptions[l].projection.recoveryUntil == after.subscriptions[l].projection.periodEnd
          && MonthlyEntitlementTerms(LicenseActive, after.subscriptions[l], now).Success?
          && MonthlyEntitlementTerms(LicenseActive, after.subscriptions[l], now).value.Some?)
  }

  /** A restriction or its tightening only brings the end of access forward, and leaves the paid terms alone. */
  ghost predicate NeverExtends(before: Rows, after: Rows, l: LicenseId)
    requires l in before.licenses && l in after.licenses
  {
    l in before.subscriptions && l in after.subscriptions && IsRestricted(after.licenses[l]) ==>
      && after.subscriptions[l].projection == before.subscriptions[l].projection
      && AccessEnds(after.licenses[l], after.subscriptions[l])
         <= AccessEnds(before.licenses[l], before.subscriptions[l])
  }

  ghost predicate RowsMove(before: Rows, after: Rows, now: Time) {
    && after.order.plan == before.order.plan
    && (before.order.licenseId.Some? ==>
          after.order.licenseId == before.order.licenseId && after.order.fulfilledAt == before.order.fulfilledAt)
    && before.licenses.Keys <= after.licenses.Keys
    && (after.licenses.Keys != before.licenses.Keys ==> before.order.licenseId.None? && !AnyBlocking(after.adjustments))
    && (forall l :: l in before.licenses ==>
          && LicenseMove(before.licenses[l], after.licenses[l])
          && (before.licenses[l] == LicenseChargedBack && after.licenses[l] == LicenseActive ==>
                LiftedProperly(after, l, now))
          && NeverExtends(before, after, l))
  }

  lemma OrdinaryMoves(rows: Rows, binding: Binding, stripe: Stripe, eventType: EventType, session: Session,
                      monthly: MonthlySnapshot, newLicense: LicenseId, now: Time)
    requires RowsInv(rows, binding, stripe)
    ensures var r := ApplyCheckout(rows, binding, eventType, session, newLicense, now);
            rows.order.plan == PerpetualV1 && r.Success? ==> RowsMove(rows, r.value.rows, now)
    ensures var r := ApplyMonthlyPurchase(rows, binding, eventType, monthly, newLicense, now);
            rows.order.plan == Monthly && r.Success? ==> RowsMove(rows, r.value.rows, now)
  {
    hide PaidFor, ValidProjection, ReconcileSubscription;
  }

  lemma AdjustmentMoves(rows: Rows, binding: Binding, stripe: Stripe, view: AdjustmentSnapshot, newLicense: LicenseId,
                        now: Time)
    requires RowsInv(rows, binding, stripe)
    requires Hydrated(rows.order.plan, view) && Faithful(view, stripe) && Confirmed(rows, view)
    ensures var settled := rows.(adjustments := SettledAdjustments(rows, view, now));
            var r := ApplyAdjustments(settled, binding, view, newLicense, now);
            r.Success? ==> RowsMove(rows, r.value.rows, now)
  {
    var settled := rows.(adjustments := SettledAdjustments(rows, view, now));
    if !AnyBlocking(settled.adjustments) {
      RestoreMoves(rows, settled, binding, stripe, view, newLicense, now);
    } else {
      RestrictMoves(rows, settled, binding, stripe, view, newLicense, now);
    }
  }

  lemma RestrictMoves(rows: Rows, settled: Rows, binding: Binding, stripe: Stripe, view: AdjustmentSnapshot,
                      newLicense: LicenseId, now: Time)
    requires RowsInv(rows, binding, stripe) && Hydrated(rows.order.plan, view)
    requires settled == rows.(adjustments := settled.adjustments) && AnyBlocking(settled.adjustments)
    ensures var r := ApplyAdjustments(settled, binding, view, newLicense, now);
            r.Success? ==> RowsMove(rows, r.value.rows, now)
  {
    hide PaidFor, ValidProjection;
  }

  lemma RestoreMoves(rows: Rows, settled: Rows, binding: Binding, stripe: Stripe, view: AdjustmentSnapshot,
                     newLicense: LicenseId, now: Time)
    requires RowsInv(rows, binding, stripe) && Hydrated(rows.order.plan, view) && Faithful(view, stripe)
             && Confirmed(rows, view)
    requires settled == rows.(adjustments := settled.adjustments) && !AnyBlocking(settled.adjustments)
    ensures var r := ApplyAdjustments(settled, binding, view, newLicense, now);
            r.Success? ==> RowsMove(rows, r.value.rows, now)
  {
    hide PaidFor, RestorationProjection, Faithful, AdjustmentInv, OrderConstraints, ValidProjection, AnyBlockingRefund,
         AnyCancelRequired, EarliestBlocking, Restrict, CanBill;
    if rows.order.plan == Monthly && view.adjustment.state == Some(Resolved)
      && LicenseOf(rows) == Some(LicenseChargedBack) {
      var previous := rows.subscriptions[rows.order.licenseId.value].projection;
      RestoredIsPaidFor(view, previous, now, stripe);
    }
  }

  /** A restriction's terminal time is the earliest of what it was, the blocking rows' effective times and the
      deadline: no later than any of them, and one of them. */
  lemma RestrictionStartsAtEarliest(rows: Rows, binding: Binding, now: Time)
    requires AnyBlocking(rows.adjustments) && rows.order.plan == Monthly && rows.order.licenseId.Some?
    requires rows.order.licenseId.value in rows.licenses && rows.order.licenseId.value in rows.subscriptions
    ensures var r := Restrict(rows, binding, now);
            var before, after := rows.subscriptions[rows.order.licenseId.value],
              r.rows.subscriptions[rows.order.licenseId.value];
            r.outcome.Restricted? ==>
              && after.projection == before.projection && after.terminalAt.Some?
              && after.terminalAt.value <= before.projection.recoveryUntil
              && (before.terminalAt.Some? ==> after.terminalAt.value <= before.terminalAt.value)
              && (forall a :: a in rows.adjustments && rows.adjustments[a].state == Blocking ==>
                    after.terminalAt.value <= rows.adjustments[a].effectiveAt)
              && (|| after.terminalAt == before.terminalAt || after.terminalAt.value == before.projection.recoveryUntil
                  || exists a :: a in rows.adjustments && rows.adjustments[a].state == Blocking
                                 && after.terminalAt.value == rows.adjustments[a].effectiveAt)
  {
    var earliest := EarliestBlocking(rows.adjustments);
    assert IsEarliestBlocking(earliest, rows.adjustments);
  }

  // ----- what a processed purchase leaves -----

  /** A paid perpetual purchase is processed exactly when no adjustment is unfinished and its charge is not refunded,
      unless something blocks the order anyway; then it is fulfilled or blocked, so that the check that
      reconciliation makes afterwards cannot fail. */
  lemma PaidCheckoutIsSettled(rows: Rows, events: map<EventId, Event>, binding: Binding, event: EventId,
                              session: Session, newLicense: LicenseId, now: Time)
    requires event in events && !events[event].Processed() && session.paid
    ensures var r := CommitCheckout(rows, events, binding, event, session, newLicense, now);
            && (r.Success? <==> && !AnyUnfinished(rows.adjustments)
                                && (AnyBlocking(rows.adjustments) || !session.chargeRefunded))
            && (r.Success? ==> r.value.rows.order.state == OrderFulfilled || AnyBlocking(r.value.rows.adjustments))
  {
  }

  /** A monthly purchase that is processed passes that check exactly if it had a license or was blocked before,
      or its first invoice is paid and the subscription is active or was canceled with paid time left. */
  lemma MonthlyIsSettledIff(rows: Rows, events: map<EventId, Event>, binding: Binding, stripe: Stripe, event: EventId,
                            view: MonthlySnapshot, revision: nat, newLicense: LicenseId, now: Time)
    requires RowsInv(rows, binding, stripe) && rows.order.plan == Monthly
    requires event in events && !events[event].Processed() && HydratedMonthly(rows.order.licenseId.Some?, view)
    ensures var r := CommitMonthly(rows, events, binding, event, view, revision, newLicense, now);
            r.Success? ==>
              (r.value.rows.order.state == OrderFulfilled || AnyBlocking(r.value.rows.adjustments)
               <==> rows.order.licenseId.Some? || AnyBlocking(rows.adjustments)
                    || (FulfilsMonthly(view) && (CanBill(view.subscription.value) || now < view.initial.value.lineEnd)))
  {
    hide LicensesInv, AdjustmentInv, ReconcileSubscription;
  }

  // ----- every step -----

  ghost function ActingTime(w: World, a: Action): Time
    requires WellFormed(w) && Enabled(w, a)
  {
    match a
    case FinishMonthly(k, _) => w.attempts[k].ctx.now
    case FinishCheckout(k, _) => w.attempts[k].ctx.now
    case FinishAdjustment(k, _) => w.attempts[k].ctx.now
    case _ => 0
  }

  lemma SameRowsMove(rows: Rows, now: Time)
    ensures RowsMove(rows, rows, now)
  {
  }

  lemma RevokeMoves(w: World, license: LicenseId)
    requires Inv(w) && license in w.rows.licenses
    ensures RowsMove(w.rows, RevokeStep(w, license).rows, 0)
  {
  }

  lemma FinishMoves(w: World, k: AttemptId, newLicense: LicenseId)
    requires Inv(w) && k in w.attempts && Typed(w, w.attempts[k])
    ensures w.attempts[k].MonthlyReady? ==>
              RowsMove(w.rows, FinishMonthlyStep(w, k, newLicense).rows, w.attempts[k].ctx.now)
    ensures w.attempts[k].CheckoutReady? ==>
              RowsMove(w.rows, FinishCheckoutStep(w, k, newLicense).rows, w.attempts[k].ctx.now)
    ensures w.attempts[k].AdjustmentReady? ==>
              RowsMove(w.rows, FinishAdjustmentStep(w, k, newLicense).rows, w.attempts[k].ctx.now)
  {
    hide RowsInv, EventsInv, HistoryInv, LogInv, SawSnapshot, SawMonthly, ApplyAdjustments, ApplyMonthlyPurchase,
         ApplyCheckout, SettledAdjustments, LiftedProperly, NeverExtends, HydratedMonthly, Faithful;
    assert AttemptInv(w, k);
    var ctx := w.attempts[k].ctx;
    SameRowsMove(w.rows, ctx.now);
    match w.attempts[k] {
      case MonthlyReady(_, view) =>
        OrdinaryMoves(w.rows, w.binding, Current(w), w.events[ctx.event].eventType,
                      Session(SessionOpen, false, false), view, newLicense, ctx.now);
        var r := ApplyMonthlyPurchase(w.rows, w.binding, w.events[ctx.event].eventType, view, newLicense, ctx.now);
        if r.Success? { BumpedMove(w.rows, r.value.rows, ctx.now); }
      case CheckoutReady(_, session) =>
        OrdinaryMoves(w.rows, w.binding, Current(w), w.events[ctx.event].eventType, session,
                      MonthlySnapshot(session, None, None, None), newLicense, ctx.now);
        var r := ApplyCheckout(w.rows, w.binding, w.events[ctx.event].eventType, session, newLicense, ctx.now);
        if r.Success? { BumpedMove(w.rows, r.value.rows, ctx.now); }
      case AdjustmentReady(_, view) =>
        if UpToDate(w, w.attempts[k]) {
          SeenIsFaithful(w.history, ctx.observedFrom, view);
          AdjustmentMoves(w.rows, w.binding, Current(w), view, newLicense, ctx.now);
          var r := ApplyAdjustments(w.rows.(adjustments := SettledAdjustments(w.rows, view, ctx.now)), w.binding,
                                    view, newLicense, ctx.now);
          if r.Success? { BumpedMove(w.rows, r.value.rows, ctx.now); }
        }
      case _ =>
    }
  }

  lemma BumpedMove(before: Rows, after: Rows, now: Time)
    requires RowsMove(before, after, now)
    ensures RowsMove(before, after.(order := Bumped(after.order)), now)
  {
  }

  lemma PrepareMoves(w: World, k: AttemptId)
    requires Inv(w) && k in w.attempts && w.attempts[k].AdjustmentViewed? && Typed(w, w.attempts[k])
    ensures RowsMove(w.rows, PrepareStep(w, k).rows, 0)
  {
    hide RowsInv, EventsInv, HistoryInv, LogInv, SawSnapshot;
    SameRowsMove(w.rows, 0);
  }

  /** No step of anyone moves a license in any other way. */
  lemma StepMoves(w: World, a: Action)
    requires Inv(w) && WellFormed(w) && Enabled(w, a)
    ensures RowsMove(w.rows, Next(w, a).rows, ActingTime(w, a))
  {
    hide Inv, PrepareStep, FinishMonthlyStep, FinishCheckoutStep, FinishAdjustmentStep, RowsMove, RevokeStep,
         SawSnapshot, SawMonthly, Hydrated, HydratedMonthly, Evolves;
    SameRowsMove(w.rows, 0);
    match a
    case FinishMonthly(k, newLicense) => FinishMoves(w, k, newLicense);
    case FinishCheckout(k, newLicense) => FinishMoves(w, k, newLicense);
    case FinishAdjustment(k, newLicense) => FinishMoves(w, k, newLicense);
    case Prepare(k) => PrepareMoves(w, k);
    case Revoke(license) => RevokeMoves(w, license);
    case _ =>
  }
}
