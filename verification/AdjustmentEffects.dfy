/** What the two transactions of an adjustment do, case by case: when they go through, and what they leave. */
module AdjustmentEffects {
  import opened Basics
  import opened Subscription
  import opened Entitlement
  import opened BillingRows
  import opened BillingProtocol
  import opened BillingInvariant
  import opened BillingRun
  import opened BillingEvidence
  import opened PurchaseEffects
  import opened Restoration

  // ----- the intent -----

  /** The state an intent is to store: what Stripe says, or what unfinished work on the object was about. */
  predicate Decides(rows: Rows, a: AdjustmentView, state: AdjustmentState) {
    a.state == Some(state)
    || (a.state.None? && a.id in rows.adjustments && rows.adjustments[a.id].state == state
        && (rows.adjustments[a.id].pending || rows.adjustments[a.id].cancelRequired))
  }

  predicate SameIdentity(row: Adjustment, a: AdjustmentView) {
    row.kind == a.kind && row.chargeId == a.chargeId && row.effectiveAt == a.effectiveAt
  }

  /** An intent fails exactly when the order has moved on or the object is stored as something else. */
  lemma PreparesIff(rows: Rows, events: map<EventId, Event>, event: EventId, a: AdjustmentView, revision: nat,
                    now: Time)
    requires event in events && !events[event].Processed()
    ensures var r := PrepareAdjustment(rows, events, event, a, revision, now);
            && (r == Failure(SnapshotChanged) <==> revision != rows.order.revision)
            && (r.Failure? <==>
                  || revision != rows.order.revision
                  || (a.id in rows.adjustments && !SameIdentity(rows.adjustments[a.id], a)
                      && exists state :: Decides(rows, a, state)))
  {
    if a.id in rows.adjustments {
      assert rows.adjustments[a.id].state == Blocking ==> a.state.None? ==>
               (Decides(rows, a, Blocking)
                <==> rows.adjustments[a.id].pending || rows.adjustments[a.id].cancelRequired);
    }
    assert forall state :: a.state == Some(state) ==> Decides(rows, a, state);
    assert PreparedState(rows.adjustments, a).Some? ==> Decides(rows, a, PreparedState(rows.adjustments, a).value);
  }

  /** Once it goes through, either there is nothing to do, the event is complete and no row changes, or the object's
      row is pending in the decided state; it calls for a cancellation if it did, or if it blocks a monthly order.
      Nothing else changes but the revision. */
  lemma IntentIsStored(rows: Rows, events: map<EventId, Event>, event: EventId, a: AdjustmentView, revision: nat,
                       now: Time)
    requires event in events && !events[event].Processed()
    ensures var r := PrepareAdjustment(rows, events, event, a, revision, now);
            r.Success? ==>
              && r.value.rows.order == rows.order.(revision := rows.order.revision + 1)
              && r.value.rows.licenses == rows.licenses && r.value.rows.subscriptions == rows.subscriptions
              && (r.value.done <==> forall state | Decides(rows, a, state) ::
                                      && a.id in rows.adjustments && rows.adjustments[a.id].state == state
                                      && !rows.adjustments[a.id].pending && !rows.adjustments[a.id].cancelRequired)
              && (if r.value.done then
                    && r.value.rows.adjustments == rows.adjustments
                    && r.value.events == events[event := events[event].(outcome := Some(NoChange))]
                  else
                    && r.value.events == events && a.id in r.value.rows.adjustments
                    && var row := r.value.rows.adjustments[a.id];
                       && r.value.rows.adjustments == rows.adjustments[a.id := row]
                       && SameIdentity(row, a) && row.pending && row.updatedAt == now && Decides(rows, a, row.state)
                       && (row.cancelRequired <==>
                             || (a.id in rows.adjustments && rows.adjustments[a.id].cancelRequired)
                             || (row.state == Blocking && rows.order.plan == Monthly)))
  {
    assert PreparedState(rows.adjustments, a).Some? ==> Decides(rows, a, PreparedState(rows.adjustments, a).value);
    assert forall state :: Decides(rows, a, state) ==> PreparedState(rows.adjustments, a) == Some(state);
  }

  // ----- the outcome -----

  /** The commit can take place, and is not a second one. */
  ghost predicate Committable(rows: Rows, events: map<EventId, Event>, event: EventId, binding: Binding,
                              stripe: Stripe, view: AdjustmentSnapshot)
  {
    && event in events && !events[event].Processed() && RowsInv(rows, binding, stripe)
    && Hydrated(rows.order.plan, view) && Faithful(view, stripe) && Confirmed(rows, view)
  }

  /** In every reachable world an up-to-date attempt that is ready to commit can. */
  lemma ReadyIsCommittable(w: World, k: AttemptId)
    requires Inv(w) && k in w.attempts && w.attempts[k].AdjustmentReady? && UpToDate(w, w.attempts[k])
    requires w.attempts[k].ctx.event in w.events && !w.events[w.attempts[k].ctx.event].Processed()
    ensures Committable(w.rows, w.events, w.attempts[k].ctx.event, w.binding, Current(w), w.attempts[k].view)
  {
    assert AttemptInv(w, k);
    SeenIsFaithful(w.history, w.attempts[k].ctx.observedFrom, w.attempts[k].view);
    hide RowsInv, Confirmed, SawSnapshot, Faithful, LogInv, EventsInv;
  }

  /** What every commit does to the adjustments, the event and the revision: its own object is settled in the state
      Stripe gave, and cancellations are done with exactly when billing has ended. */
  lemma CommitSettles(rows: Rows, events: map<EventId, Event>, event: EventId, binding: Binding, stripe: Stripe,
                      view: AdjustmentSnapshot, revision: nat, newLicense: LicenseId, now: Time)
    requires Committable(rows, events, event, binding, stripe, view)
    ensures var r := CommitAdjustment(rows, events, binding, event, view, revision, newLicense, now);
            && (r == Failure(SnapshotChanged) <==> revision != rows.order.revision)
            && (r.Success? ==>
                  var before, after := rows.adjustments, r.value.rows.adjustments;
                  && r.value.rows.order.revision == rows.order.revision + 1 && r.value.outcome.Some?
                  && r.value.events == events[event := events[event].(outcome := r.value.outcome)]
                  && after.Keys == before.Keys
                  && forall a :: a in before ==>
                       var own, ended := a == view.adjustment.id, rows.order.plan == Monthly && EndedBilling(view);
                       && after[a].kind == before[a].kind && after[a].chargeId == before[a].chargeId
                       && after[a].effectiveAt == before[a].effectiveAt
                       && after[a].state
                          == (if own && view.adjustment.state.Some? then view.adjustment.state.value
                              else before[a].state)
                       && after[a].pending == (before[a].pending && !own)
                       && after[a].cancelRequired == (before[a].cancelRequired && !ended)
                       && after[a].updatedAt == (if own then now else before[a].updatedAt))
  {
    var settled := rows.(adjustments := SettledAdjustments(rows, view, now));
    ApplyFrame(settled, binding, stripe, view, newLicense, now);
    ApplyKeepsRevision(settled, binding, view, newLicense, now);
    hide ApplyAdjustments, RowsInv, Faithful, Confirmed;
  }

  lemma ApplyKeepsRevision(rows: Rows, binding: Binding, view: AdjustmentSnapshot, newLicense: LicenseId, now: Time)
    requires Hydrated(rows.order.plan, view)
    ensures var r := ApplyAdjustments(rows, binding, view, newLicense, now);
            && (r.Success? ==> r.value.rows.order.revision == rows.order.revision)
            && r != Failure(SnapshotChanged)
  {
    hide AdvanceAll, ReconcileSubscription, EarliestBlocking;
  }

  /** The snapshot lifts what it can: its dispute is resolved and the charge is paid, with money left. */
  predicate Lifts(view: AdjustmentSnapshot) {
    view.adjustment.state == Some(Resolved) && Standing(view.adjustment.charge)
  }

  /** The restriction that blocking rows call for. */
  predicate RestrictsTo(adjustments: map<ObjectId, Adjustment>, state: LicenseState) {
    && (exists a :: a in adjustments && adjustments[a].state == Blocking)
    && state == if exists a :: a in adjustments && adjustments[a].state == Blocking && adjustments[a].kind == Refund
                then LicenseRefunded else LicenseChargedBack
  }

  predicate Blocks(adjustments: map<ObjectId, Adjustment>) {
    exists a :: a in adjustments && adjustments[a].state == Blocking
  }

  /** A perpetual commit at the current revision always goes through. A charged-back license comes back into force
      exactly when the snapshot lifts and nothing blocks; with a blocking row a license is refunded or charged back
      accordingly; a revoked license and any other stay as they are. */
  lemma PerpetualLicenseAfter(rows: Rows, events: map<EventId, Event>, event: EventId, binding: Binding,
                              stripe: Stripe, view: AdjustmentSnapshot, newLicense: LicenseId, now: Time)
    requires Committable(rows, events, event, binding, stripe, view)
    requires rows.order.plan == PerpetualV1 && rows.order.licenseId.Some?
    ensures rows.order.licenseId.value in rows.licenses
    ensures var r := CommitAdjustment(rows, events, binding, event, view, rows.order.revision, newLicense, now);
            var l := rows.order.licenseId.value;
            var before := rows.licenses[l];
            && r.Success? && l in r.value.rows.licenses
            && var after, adjustments := r.value.rows.licenses[l], r.value.rows.adjustments;
               && r.value.rows.licenses.Keys == {l}
               && r.value.rows.order == rows.order.(revision := rows.order.revision + 1)
               && (before == LicenseRevoked ==> after == LicenseRevoked && r.value.outcome == Some(NoChange))
               && (before == LicenseChargedBack ==>
                     && (after == LicenseActive <==> Lifts(view) && !Blocks(adjustments))
                     && (after == LicenseActive <==> r.value.outcome == Some(Restored)))
               && (before != LicenseRevoked && Blocks(adjustments) ==>
                     && (before != LicenseRefunded ==> RestrictsTo(adjustments, after))
                     && (before == LicenseRefunded ==> after == LicenseRefunded)
                     && (RestrictsTo(adjustments, after) ==> r.value.outcome == Some(Restricted(after))))
               && (before != LicenseRevoked && !Blocks(adjustments) ==> after in {before, LicenseActive})
               && (before in {LicenseActive, LicenseRefunded} && !Blocks(adjustments) ==>
                     after == before && r.value.outcome == Some(NoChange))
  {
    var settled := rows.(adjustments := SettledAdjustments(rows, view, now));
    ApplyFrame(settled, binding, stripe, view, newLicense, now);
    hide AdjustmentInv, SettledAdjustments, EarliestBlocking, Faithful, Confirmed, PaidFor, ValidRow;
  }

  /** Without a license the same snapshot issues the new one; a blocking row fails the order instead. */
  lemma PerpetualOrderAfter(rows: Rows, events: map<EventId, Event>, event: EventId, binding: Binding, stripe: Stripe,
                            view: AdjustmentSnapshot, newLicense: LicenseId, now: Time)
    requires Committable(rows, events, event, binding, stripe, view)
    requires rows.order.plan == PerpetualV1 && rows.order.licenseId.None?
    ensures var r := CommitAdjustment(rows, events, binding, event, view, rows.order.revision, newLicense, now);
            && r.Success?
            && var order, adjustments := r.value.rows.order, r.value.rows.adjustments;
               && r.value.rows.licenses
                  == (if Lifts(view) && !Blocks(adjustments) then map[newLicense := LicenseActive] else map[])
               && (if Blocks(adjustments) then
                     && order.state == OrderFailed && order.paymentId == Some(binding.paymentId)
                     && exists state :: RestrictsTo(adjustments, state) && r.value.outcome == Some(Restricted(state))
                   else if Lifts(view) then
                     && order.state == OrderFulfilled && order.licenseId == Some(newLicense)
                     && order.fulfilledAt == Some(now) && order.paymentId == Some(binding.paymentId)
                     && r.value.outcome == Some(FulfilledOrder)
                   else order == rows.order.(revision := rows.order.revision + 1) && r.value.outcome == Some(NoChange))
  {
    var settled := rows.(adjustments := SettledAdjustments(rows, view, now));
    ApplyFrame(settled, binding, stripe, view, newLicense, now);
    assert rows.licenses == map[];
    hide AdjustmentInv, SettledAdjustments, EarliestBlocking, Faithful, Confirmed, PaidFor, ValidRow;
    var state := if AnyBlockingRefund(settled.adjustments) then LicenseRefunded else LicenseChargedBack;
    assert AnyBlocking(settled.adjustments) ==> RestrictsTo(settled.adjustments, state);
  }

  // ----- monthly -----

  /** A row will block once the snapshot's own object is settled. */
  predicate WillBlock(rows: Rows, view: AdjustmentSnapshot) {
    exists a :: a in rows.adjustments
      && Blocking == if a == view.adjustment.id && view.adjustment.state.Some? then view.adjustment.state.value
                     else rows.adjustments[a].state
  }

  lemma WillBlockIff(rows: Rows, view: AdjustmentSnapshot, now: Time)
    requires rows.order.plan == Monthly ==> view.subscription.Some?
    ensures WillBlock(rows, view) <==> AnyBlocking(SettledAdjustments(rows, view, now))
    ensures WillBlock(rows, view) <==> Blocks(SettledAdjustments(rows, view, now))
  {
    var settled := SettledAdjustments(rows, view, now);
    forall a | a in rows.adjustments
      ensures settled[a].state == if a == view.adjustment.id && view.adjustment.state.Some? then
                view.adjustment.state.value
              else rows.adjustments[a].state
    {
    }
    if WillBlock(rows, view) {
      var a :| a in rows.adjustments
               && Blocking == if a == view.adjustment.id && view.adjustment.state.Some? then view.adjustment.state.value
                              else rows.adjustments[a].state;
      assert a in settled && settled[a].state == Blocking;
    }
  }

  ghost predicate CommittableMonthly(rows: Rows, events: map<EventId, Event>, event: EventId, binding: Binding,
                                     stripe: Stripe, view: AdjustmentSnapshot)
  {
    Committable(rows, events, event, binding, stripe, view) && rows.order.plan == Monthly
  }

  /** Nothing changes but what every commit settles. */
  predicate OnlySettled(rows: Rows, after: Rows) {
    && after.order == rows.order.(revision := rows.order.revision + 1)
    && after.licenses == rows.licenses && after.subscriptions == rows.subscriptions
  }

  lemma BlockedCommitRestricts(rows: Rows, events: map<EventId, Event>, event: EventId, binding: Binding,
                               stripe: Stripe, view: AdjustmentSnapshot, newLicense: LicenseId, now: Time)
    requires CommittableMonthly(rows, events, event, binding, stripe, view) && WillBlock(rows, view)
    requires LicenseOf(rows) != Some(LicenseRevoked)
    ensures var settled := rows.(adjustments := SettledAdjustments(rows, view, now));
            && AnyBlocking(settled.adjustments)
            && CommitAdjustment(rows, events, binding, event, view, rows.order.revision, newLicense, now)
               == CommitApplied(Success(Restrict(settled, binding, now)), events, event)
  {
    WillBlockIff(rows, view, now);
    SettledRows(rows, binding, stripe, view, now);
    hide AdjustmentInv, SettledAdjustments, Faithful, Confirmed, PaidFor, ValidRow, Restrict, Restore, WillBlock,
         CanBill, Blocks, CommitApplied;
  }

  /** With a blocking row a monthly license that is not revoked is refunded or charged back accordingly, its paid
      terms unchanged. */
  lemma MonthlyIsRestricted(rows: Rows, events: map<EventId, Event>, event: EventId, binding: Binding, stripe: Stripe,
                            view: AdjustmentSnapshot, newLicense: LicenseId, now: Time)
    requires CommittableMonthly(rows, events, event, binding, stripe, view) && WillBlock(rows, view)
    requires LicenseOf(rows) in {Some(LicenseActive), Some(LicenseChargedBack), Some(LicenseRefunded)}
    ensures rows.order.licenseId.value in rows.licenses && rows.order.licenseId.value in rows.subscriptions
    ensures var r := CommitAdjustment(rows, events, binding, event, view, rows.order.revision, newLicense, now);
            var l := rows.order.licenseId.value;
            && r.Success?
            && var after := r.value.rows;
               && after.order == rows.order.(revision := rows.order.revision + 1)
               && after.licenses.Keys == {l} && after.subscriptions.Keys == {l}
               && after.subscriptions[l].projection == rows.subscriptions[l].projection
               && (rows.licenses[l] != LicenseRefunded ==>
                     && RestrictsTo(after.adjustments, after.licenses[l])
                     && r.value.outcome == Some(Restricted(after.licenses[l])))
               && (rows.licenses[l] == LicenseRefunded ==> after.licenses[l] == LicenseRefunded)
  {
    var settled := rows.(adjustments := SettledAdjustments(rows, view, now));
    WillBlockIff(rows, view, now);
    BlockedCommitRestricts(rows, events, event, binding, stripe, view, newLicense, now);
    RestrictsExactly(settled, binding, stripe, now);
    hide AdjustmentInv, SettledAdjustments, Faithful, Confirmed, PaidFor, ValidRow, Restrict, CommitAdjustment,
         WillBlock, RestrictsTo, Blocks;
  }

  lemma RestrictsExactly(rows: Rows, binding: Binding, stripe: Stripe, now: Time)
    requires rows.order.plan == Monthly && LicensesInv(rows, stripe) && AnyBlocking(rows.adjustments)
    requires LicenseOf(rows) != Some(LicenseRevoked)
    ensures var after := Restrict(rows, binding, now);
            && after.rows.adjustments == rows.adjustments
            && match rows.order.licenseId
               case None =>
                 && after.rows == rows.(order := rows.order.(state := OrderFailed, paymentId := None,
                                                             subscriptionId := Some(binding.subscriptionId)))
                 && exists state :: RestrictsTo(rows.adjustments, state) && after.outcome == Restricted(state)
               case Some(l) =>
                 && after.rows.order == rows.order && after.rows.licenses.Keys == {l}
                 && after.rows.subscriptions.Keys == {l}
                 && after.rows.subscriptions[l].projection == rows.subscriptions[l].projection
                 && (rows.licenses[l] != LicenseRefunded ==>
                       && RestrictsTo(rows.adjustments, after.rows.licenses[l])
                       && after.outcome == Restricted(after.rows.licenses[l]))
                 && (rows.licenses[l] == LicenseRefunded ==> after.rows.licenses[l] == LicenseRefunded)
  {
    hide ValidRow, PaidFor;
    var state := if AnyBlockingRefund(rows.adjustments) then LicenseRefunded else LicenseChargedBack;
    assert RestrictsTo(rows.adjustments, state);
    hide RestrictsTo, AnyBlocking, AnyBlockingRefund, EarliestBlocking;
  }

  /** An order without a license is failed by a blocking row. */
  lemma UnlicensedMonthlyFails(rows: Rows, events: map<EventId, Event>, event: EventId, binding: Binding,
                               stripe: Stripe, view: AdjustmentSnapshot, newLicense: LicenseId, now: Time)
    requires CommittableMonthly(rows, events, event, binding, stripe, view) && WillBlock(rows, view)
    requires rows.order.licenseId.None?
    ensures var r := CommitAdjustment(rows, events, binding, event, view, rows.order.revision, newLicense, now);
            && r.Success?
            && var after := r.value.rows;
               && after.order == rows.order.(revision := rows.order.revision + 1, state := OrderFailed,
                                             subscriptionId := Some(binding.subscriptionId))
               && after.licenses == map[] && after.subscriptions == map[]
               && exists state :: RestrictsTo(after.adjustments, state) && r.value.outcome == Some(Restricted(state))
  {
    var settled := rows.(adjustments := SettledAdjustments(rows, view, now));
    WillBlockIff(rows, view, now);
    BlockedCommitRestricts(rows, events, event, binding, stripe, view, newLicense, now);
    RestrictsExactly(settled, binding, stripe, now);
    hide AdjustmentInv, SettledAdjustments, Faithful, Confirmed, PaidFor, ValidRow, Restrict, CommitAdjustment,
         WillBlock, RestrictsTo, Blocks;
  }

  /** The first invoice was paid, and the subscription is in one of the states that billing restores from. */
  predicate Restorable(view: AdjustmentSnapshot) {
    && view.initial.Some? && view.initial.value.status == InvoicePaid
    && view.subscription.Some?
    && view.subscription.value.status in {StripeActive, StripePastDue, StripeUnpaid, StripeCanceled}
  }

  /** What may be lifted is lifted: the snapshot lifts, nothing blocks, and there are terms to restore. */
  predicate Restores(rows: Rows, view: AdjustmentSnapshot) {
    Lifts(view) && !WillBlock(rows, view) && Restorable(view)
  }

  /** The recovery window that follows a paid period, as far as the subscription has one. */
  function WindowOf(subscription: StripeSubscription): Time {
    if subscription.status == StripeCanceled then 0
    else if subscription.status != StripeUnpaid && subscription.cancelAtPeriodEnd then 0
    else RECOVERY_WINDOW
  }

  /** The projection that restoring leaves: the latest period that the snapshot shows as paid, and the state and
      deadline of the table, with no recovery window on a subscription that has ended. */
  ghost predicate RestoredTo(previous: Projection, next: Projection, view: AdjustmentSnapshot, now: Time)
    requires Hydrated(Monthly, view) && view.adjustment.state == Some(Resolved)
  {
    var subscription := view.subscription.value;
    && next.periodEnd >= previous.periodEnd
    && (forall t :: t >= previous.periodEnd ==>
          (AnyNewlyPaid(previous, Invoices(view), t) <==> next.periodEnd > t))
    && next.state == StateAt(subscription, next.periodEnd, now)
    && next.recoveryUntil ==
       if subscription.status == StripeUnpaid && next.periodEnd == previous.periodEnd then previous.recoveryUntil
       else next.periodEnd + WindowOf(subscription)
  }

  lemma ProjectionRestores(view: AdjustmentSnapshot, previous: Projection, now: Time, stripe: Stripe)
    requires Hydrated(Monthly, view) && Faithful(view, stripe) && Lifts(view)
    requires previous == ZERO_PROJECTION || (ValidProjection(previous) && PaidFor(previous, stripe))
    ensures var r := RestorationProjection(view, previous, now);
            && (r.Failure? <==> Restorable(view) && !Accepted(view.subscription.value))
            && (r.Failure? ==> r.error == InvalidPurchase)
            && (r.Success? && !Restorable(view) ==> r.value == (previous, false))
            && (r.Success? && Restorable(view) ==>
                  && RestoredTo(previous, r.value.0, view, now)
                  && (r.value.1 <==> now < r.value.0.recoveryUntil + GRACE_PERIOD))
  {
    AdvancedPeriod(previous, view, stripe);
    var advanced := AdvanceAll(previous, Invoices(view));
    assert Accepted(view.subscription.value) <==> ApplyStatus(advanced, view.subscription.value, now).Success?;
    hide AdvanceAll, AnyNewlyPaid, Faithful, AdvancePaidPeriod;
  }

  /** A revoked license is left alone, whatever the snapshot says; and with nothing blocking so is a refunded one, and
      every order that the snapshot does not restore. */
  lemma MonthlyIsLeftAlone(rows: Rows, events: map<EventId, Event>, event: EventId, binding: Binding, stripe: Stripe,
                           view: AdjustmentSnapshot, newLicense: LicenseId, now: Time)
    requires CommittableMonthly(rows, events, event, binding, stripe, view)
    requires || LicenseOf(rows) == Some(LicenseRevoked)
             || (!WillBlock(rows, view) && (LicenseOf(rows) == Some(LicenseRefunded) || !Restores(rows, view)))
    ensures var r := CommitAdjustment(rows, events, binding, event, view, rows.order.revision, newLicense, now);
            && r.Success? && OnlySettled(rows, r.value.rows)
            && (LicenseOf(rows) != Some(LicenseActive) ==> r.value.outcome == Some(NoChange))
  {
    var settled := rows.(adjustments := SettledAdjustments(rows, view, now));
    ApplyFrame(settled, binding, stripe, view, newLicense, now);
    WillBlockIff(rows, view, now);
    if Lifts(view) && !WillBlock(rows, view) {
      var previous := if rows.order.licenseId.Some? then rows.subscriptions[rows.order.licenseId.value].projection
        else ZERO_PROJECTION;
      ProjectionRestores(view, previous, now, stripe);
    }
    hide AdjustmentInv, SettledAdjustments, EarliestBlocking, Faithful, Confirmed, PaidFor, ValidProjection,
         RestorationProjection, WillBlock, Restrict, Restorable;
  }

  /** The access that a snapshot shows as paid for is not over yet, grace included. */
  ghost predicate HasPaidAccess(previous: Projection, view: AdjustmentSnapshot, now: Time)
    requires Hydrated(Monthly, view) && view.adjustment.state == Some(Resolved)
  {
    var over := now - GRACE_PERIOD - WindowOf(view.subscription.value);
    previous.periodEnd > over || AnyNewlyPaid(previous, Invoices(view), Max(previous.periodEnd, over))
  }

  lemma AccessIff(previous: Projection, next: Projection, view: AdjustmentSnapshot, now: Time)
    requires Hydrated(Monthly, view) && Lifts(view) && Restorable(view)
    requires RestoredTo(previous, next, view, now)
    requires view.subscription.value.status != StripeUnpaid || previous == ZERO_PROJECTION
    ensures now < next.recoveryUntil + GRACE_PERIOD <==> HasPaidAccess(previous, view, now)
  {
    var over := now - GRACE_PERIOD - WindowOf(view.subscription.value);
    if previous == ZERO_PROJECTION {
      assert NewlyPaid(previous, Invoices(view)[0]);
      assert AnyNewlyPaid(previous, Invoices(view), previous.periodEnd);
      assert next.periodEnd > previous.periodEnd;
    }
    hide AnyNewlyPaid;
    assert AnyNewlyPaid(previous, Invoices(view), Max(previous.periodEnd, over))
           <==> next.periodEnd > Max(previous.periodEnd, over);
  }

  /** A snapshot that restores fails exactly when the subscription was canceled for no reason billing knows. Otherwise
      a license in force gets the restored projection; a charged-back one comes back into force with it exactly when
      the access that was paid for is not over, and else stays as it is. */
  lemma MonthlyIsRestoredIff(rows: Rows, events: map<EventId, Event>, event: EventId, binding: Binding, stripe: Stripe,
                             view: AdjustmentSnapshot, newLicense: LicenseId, now: Time)
    requires CommittableMonthly(rows, events, event, binding, stripe, view) && Restores(rows, view)
    requires LicenseOf(rows) in {Some(LicenseActive), Some(LicenseChargedBack)}
    ensures rows.order.licenseId.value in rows.licenses && rows.order.licenseId.value in rows.subscriptions
    ensures var r := CommitAdjustment(rows, events, binding, event, view, rows.order.revision, newLicense, now);
            var l := rows.order.licenseId.value;
            var previous := rows.subscriptions[l].projection;
            && (r.Success? <==> Accepted(view.subscription.value))
            && (r.Failure? ==> r.error == InvalidPurchase)
            && (r.Success? ==>
                  if rows.licenses[l] == LicenseActive || HasPaidAccess(previous, view, now) then
                    && r.value.rows.licenses == map[l := LicenseActive] && r.value.rows.subscriptions.Keys == {l}
                    && r.value.rows.subscriptions[l].terminalAt.None?
                    && RestoredTo(previous, r.value.rows.subscriptions[l].projection, view, now)
                    && r.value.rows.order == rows.order.(revision := rows.order.revision + 1)
                    && r.value.outcome == Some(Restored)
                  else OnlySettled(rows, r.value.rows) && r.value.outcome == Some(NoChange))
  {
    var settled := rows.(adjustments := SettledAdjustments(rows, view, now));
    WillBlockIff(rows, view, now);
    RestrictedHasEnded(rows, view);
    RestoresExactly(settled, binding, stripe, view, newLicense, now);
    hide AdjustmentInv, SettledAdjustments, Faithful, Confirmed, PaidFor, ValidRow, Restrict, Restore, WillBlock,
         Restorable, RestoredTo, HasPaidAccess, CanBill, Accepted;
  }

  lemma RestoresExactly(rows: Rows, binding: Binding, stripe: Stripe, view: AdjustmentSnapshot, newLicense: LicenseId,
                        now: Time)
    requires rows.order.plan == Monthly && LicensesInv(rows, stripe)
    requires Hydrated(Monthly, view) && Faithful(view, stripe) && Lifts(view) && Restorable(view)
    requires LicenseOf(rows) in {Some(LicenseActive), Some(LicenseChargedBack)}
    requires LicenseOf(rows) == Some(LicenseChargedBack) ==> !CanBill(view.subscription.value)
    ensures var r := Restore(rows, binding, view, newLicense, now);
            var l := rows.order.licenseId.value;
            var previous := rows.subscriptions[l].projection;
            && (r.Success? <==> Accepted(view.subscription.value))
            && (r.Failure? ==> r.error == InvalidPurchase)
            && (r.Success? ==>
                  if rows.licenses[l] == LicenseActive || HasPaidAccess(previous, view, now) then
                    && r.value.rows.licenses == map[l := LicenseActive] && r.value.rows.subscriptions.Keys == {l}
                    && r.value.rows.subscriptions[l].terminalAt.None?
                    && RestoredTo(previous, r.value.rows.subscriptions[l].projection, view, now)
                    && r.value.rows.order == rows.order && r.value.outcome == Restored
                  else r.value == Applied(rows, NoChange))
  {
    var l := rows.order.licenseId.value;
    var previous := rows.subscriptions[l].projection;
    ProjectionRestores(view, previous, now, stripe);
    var r := RestorationProjection(view, previous, now);
    if r.Success? && rows.licenses[l] == LicenseChargedBack {
      AccessIff(previous, r.value.0, view, now);
    }
    hide RestorationProjection, RestoredTo, HasPaidAccess, Accepted, PaidFor, ValidRow, Faithful, Restorable;
  }

  /** Without a license the same snapshot issues the new one, with the projection restored from nothing, exactly when
      the access that was paid for is not over. */
  lemma UnlicensedMonthlyIsIssuedIff(rows: Rows, events: map<EventId, Event>, event: EventId, binding: Binding,
                                     stripe: Stripe, view: AdjustmentSnapshot, newLicense: LicenseId, now: Time)
    requires CommittableMonthly(rows, events, event, binding, stripe, view) && Restores(rows, view)
    requires rows.order.licenseId.None?
    ensures var r := CommitAdjustment(rows, events, binding, event, view, rows.order.revision, newLicense, now);
            && (r.Success? <==> Accepted(view.subscription.value))
            && (r.Failure? ==> r.error == InvalidPurchase)
            && (r.Success? ==>
                  if HasPaidAccess(ZERO_PROJECTION, view, now) then
                    var after := r.value.rows;
                    && after.licenses == map[newLicense := LicenseActive] && after.subscriptions.Keys == {newLicense}
                    && after.subscriptions[newLicense].terminalAt.None?
                    && RestoredTo(ZERO_PROJECTION, after.subscriptions[newLicense].projection, view, now)
                    && after.order.state == OrderFulfilled && after.order.licenseId == Some(newLicense)
                    && after.order.fulfilledAt == Some(now)
                    && after.order.subscriptionId == Some(binding.subscriptionId)
                    && r.value.outcome == Some(FulfilledOrder)
                  else OnlySettled(rows, r.value.rows) && r.value.outcome == Some(NoChange))
  {
    var settled := rows.(adjustments := SettledAdjustments(rows, view, now));
    WillBlockIff(rows, view, now);
    ProjectionRestores(view, ZERO_PROJECTION, now, stripe);
    var r := RestorationProjection(view, ZERO_PROJECTION, now);
    if r.Success? {
      AccessIff(ZERO_PROJECTION, r.value.0, view, now);
    }
    assert rows.licenses == map[] && rows.subscriptions == map[];
    hide AdjustmentInv, SettledAdjustments, Faithful, Confirmed, PaidFor, ValidRow, Restrict, WillBlock, Restorable,
         RestoredTo, HasPaidAccess, CanBill, Accepted, RestorationProjection;
  }
}
