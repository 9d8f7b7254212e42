/** Every step keeps the protocol invariant, so every reachable world satisfies it. */
module BillingSteps {
  import opened Basics
  import opened Subscription
  import opened Entitlement
  import opened BillingRows
  import opened BillingProtocol
  import opened BillingInvariant
  import opened BillingRun

  /** Attempt k acts; everyone else is left as they were. */
  lemma Assemble(w: World, w': World, k: AttemptId)
    requires Inv(w) && Quiet(w, w')
    requires RowsInv(w'.rows, w'.binding, Current(w')) && EventsInv(w'.rows, w'.events) && LogInv(w')
    requires forall j :: j in w'.attempts && j != k ==> j in w.attempts && w'.attempts[j] == w.attempts[j]
    requires k in w'.attempts ==> AttemptInv(w', k)
    requires w'.cancels != {} ==> CancelJustified(w')
    ensures Inv(w')
  {
    forall j | j in w'.attempts ensures AttemptInv(w', j) {
      if j != k {
        OthersUnaffected(w, w', j);
      }
    }
  }

  lemma AttemptBounds(w: World)
    requires Inv(w)
    ensures forall j :: j in w.attempts ==>
              j <= w.attempts[j].ctx.observedFrom < Now(w) && w.attempts[j].ctx.revision <= w.rows.order.revision
    ensures Now(w) !in w.attempts
  {
  }

  lemma TickIsQuiet(w: World, w': World)
    requires Inv(w) && w'.history == w.history + [Current(w)]
    requires w'.rows == w.rows && EventsKept(w.events, w'.events)
    ensures Quiet(w, w') && Current(w') == Current(w)
  {
  }

  /** Steps that touch no row: only the acting attempt's private state moves on. */
  lemma PrivateStep(w: World, w': World, k: AttemptId)
    requires Inv(w) && w'.history == w.history + [Current(w)]
    requires w'.rows == w.rows && w'.events == w.events && w'.binding == w.binding && w'.log == w.log
    requires forall j :: j in w'.attempts && j != k ==> j in w.attempts && w'.attempts[j] == w.attempts[j]
    requires k in w'.attempts ==>
               && AttemptInv(w', k)
               && (w'.attempts[k].ctx.observedFrom == Now(w) ||
                   (k in w.attempts && w'.attempts[k].ctx.revision == w.attempts[k].ctx.revision
                    && w'.attempts[k].ctx.observedFrom == w.attempts[k].ctx.observedFrom))
    requires w'.cancels != {} ==> CancelJustified(w)
    ensures Inv(w')
  {
    TickIsQuiet(w, w');
    LogUnaffected(w, w');
    Assemble(w, w', k);
  }

  lemma CrashKeepsInv(w: World, k: AttemptId)
    requires Inv(w)
    ensures Inv(Without(w, k))
  {
    hide RowsInv, EventsInv, AttemptInv, LogInv, Evolves, ValidStripe;
    PrivateStep(w, Without(w, k), k);
  }

  lemma StripeStepKeepsInv(w: World, next: Stripe, cancels: set<AttemptId>)
    requires Inv(w) && ValidStripe(next) && Evolves(Current(w), next) && cancels <= w.cancels
    ensures Inv(w.(history := w.history + [next], cancels := cancels))
  {
    var w' := w.(history := w.history + [next], cancels := cancels);
    HistoryGrows(w.history, next);
    StripeMayMove(w.rows, w.binding, Current(w), next);
    LogUnaffected(w, w');
    Assemble(w, w', Now(w));
  }

  lemma RecordKeepsInv(w: World, event: EventId, row: Event)
    requires Inv(w) && event !in w.events && row.outcome.None?
    ensures Inv(Tick(w.(events := w.events[event := row])))
  {
    var w' := Tick(w.(events := w.events[event := row]));
    TickIsQuiet(w, w');
    LogUnaffected(w, w');
    forall a | a in w.rows.adjustments && w.rows.adjustments[a].pending ensures Retryable(w'.events, a) {
      var e :| e in w.events && w.events[e].eventType == RefundOrDispute && w.events[e].objectId == a
        && !w.events[e].Processed();
      assert e in w'.events && w'.events[e] == w.events[e];
    }
    Assemble(w, w', Now(w));
  }

  lemma StartKeepsInv(w: World, attempt: Attempt)
    requires Inv(w)
    requires attempt.MonthlyReading? || attempt.CheckoutReady? || attempt.AdjustmentReading?
    requires attempt.ctx == Started(w, attempt.ctx.event, attempt.ctx.now) && attempt.ctx.event in w.events
    requires (w.events[attempt.ctx.event].eventType == RefundOrDispute) == attempt.AdjustmentReading?
    requires (attempt.MonthlyReading? ==> w.rows.order.plan == Monthly)
             && (attempt.CheckoutReady? ==> w.rows.order.plan == PerpetualV1)
    ensures Inv(With(w, Now(w), attempt))
  {
    hide Evolves, ValidStripe, Serial;
    var w' := With(w, Now(w), attempt);
    InvGivesEndedBefore(w.rows, w.binding, Current(w));
    assert AttemptInv(w', Now(w));
    PrivateStep(w, w', Now(w));
  }

  lemma InvGivesEndedBefore(rows: Rows, binding: Binding, stripe: Stripe)
    requires RowsInv(rows, binding, stripe)
    ensures EndedBefore(rows, stripe)
  {
  }

  lemma HydrateMonthlyKeepsInv(w: World, k: AttemptId, monthly: MonthlySnapshot)
    requires Inv(w) && k in w.attempts && w.attempts[k].MonthlyReading?
    requires SawMonthly(w.history, w.attempts[k].ctx.observedFrom, monthly)
    requires HydratedMonthly(w.attempts[k].ctx.base.order.licenseId.Some?, monthly)
    ensures Inv(With(w, k, MonthlyReady(w.attempts[k].ctx, monthly)))
  {
    hide RowsInv, EventsInv, Evolves, Serial, SawMonthly, HydratedMonthly;
    var ctx := w.attempts[k].ctx;
    var w' := With(w, k, MonthlyReady(ctx, monthly));
    SawMonthlyLater(w.history, ctx.observedFrom, monthly, Current(w));
    assert AttemptInv(w, k);
    assert AttemptInv(w', k);
    PrivateStep(w, w', k);
  }

  lemma HydrateAdjustmentKeepsInv(w: World, k: AttemptId, view: AdjustmentSnapshot)
    requires Inv(w) && k in w.attempts && w.attempts[k].AdjustmentReading? && w.attempts[k].ctx.event in w.events
    requires Returned(w, w.attempts[k].ctx, view)
    ensures Inv(With(w, k, AdjustmentViewed(w.attempts[k].ctx, view)))
  {
    hide RowsInv, EventsInv, Evolves, Serial, SawSnapshot, Hydrated;
    var ctx := w.attempts[k].ctx;
    var w' := With(w, k, AdjustmentViewed(ctx, view));
    SawSnapshotLater(w.history, ctx.observedFrom, view, Current(w));
    assert AttemptInv(w, k);
    assert AttemptInv(w', k);
    PrivateStep(w, w', k);
  }

  lemma ConfirmKeepsInv(w: World, k: AttemptId, view: AdjustmentSnapshot)
    requires Inv(w) && k in w.attempts && w.attempts[k].AdjustmentConfirming? && w.attempts[k].ctx.event in w.events
    requires Returned(w, w.attempts[k].ctx, view) && view.subscription.Some? && !CanBill(view.subscription.value)
    ensures Inv(With(w, k, AdjustmentReady(w.attempts[k].ctx, view)))
  {
    hide RowsInv, EventsInv, Evolves, Serial, SawSnapshot, Hydrated;
    var ctx := w.attempts[k].ctx;
    var w' := With(w, k, AdjustmentReady(ctx, view));
    SawSnapshotLater(w.history, ctx.observedFrom, view, Current(w));
    assert AttemptInv(w, k);
    assert AttemptInv(w', k);
    PrivateStep(w, w', k);
  }

  lemma ReadIntentKeepsInv(w: World, k: AttemptId)
    requires Inv(w) && k in w.attempts && w.attempts[k].AdjustmentPrepared? && Typed(w, w.attempts[k])
    ensures Inv(ReadIntentStep(w, k))
  {
    hide RowsInv, EventsInv, Evolves, Serial, SawSnapshot, IntentStored, EndedBefore;
    var w' := ReadIntentStep(w, k);
    var attempt := w.attempts[k];
    SawSnapshotLater(w.history, attempt.ctx.observedFrom, attempt.view, Current(w));
    assert AttemptInv(w, k);
    if w'.attempts[k].AdjustmentReady? && UpToDate(w, attempt) {
      UnflaggedIsConfirmed(w.rows, w.history, attempt.ctx.observedFrom, attempt.view);
    }
    assert AttemptInv(w', k);
    PrivateStep(w, w', k);
  }

  /** With no cancellation called for, whatever blocks this monthly order rests on billing that had ended
      before the snapshot was read. */
  lemma UnflaggedIsConfirmed(rows: Rows, history: seq<Stripe>, from: nat, view: AdjustmentSnapshot)
    requires HistoryInv(history) && from < |history| && SawSnapshot(history, from, view)
             && Hydrated(rows.order.plan, view)
    requires EndedBefore(rows, history[from]) && IntentStored(rows, view.adjustment)
    requires !AnyCancelRequired(rows.adjustments) || rows.order.plan != Monthly
    ensures Confirmed(rows, view)
  {
  }

  lemma CallCancelKeepsInv(w: World, k: AttemptId)
    requires Inv(w) && k in w.attempts && w.attempts[k].AdjustmentCanceling?
    ensures Inv(CallCancelStep(w, k))
  {
    hide RowsInv, EventsInv, Evolves, Serial;
    assert AttemptInv(w, k);
    assert AttemptInv(CallCancelStep(w, k), k);
    PrivateStep(w, CallCancelStep(w, k), k);
  }

  lemma RevokeKeepsInv(w: World, license: LicenseId)
    requires Inv(w) && license in w.rows.licenses
    ensures Inv(RevokeStep(w, license))
  {
    hide EventsInv, Evolves, Serial, ValidStripe, AttemptInv, RowsInv;
    AttemptBounds(w);
    var w' := RevokeStep(w, license);
    HistoryGrows(w.history, Current(w));
    RevokeKeepsRows(w.rows, w.binding, Current(w), license);
    LogUnaffected(w, w');
    assert EventsInv(w'.rows, w'.events) by { PendingKeepsEvents(w.rows, w'.rows, w.events); }
    Assemble(w, w', Now(w));
  }

  lemma RevokeKeepsRows(rows: Rows, binding: Binding, stripe: Stripe, license: LicenseId)
    requires RowsInv(rows, binding, stripe) && license in rows.licenses
    ensures RowsInv(rows.(licenses := rows.licenses[license := LicenseRevoked]), binding, stripe)
  {
  }

  lemma PendingKeepsEvents(rows: Rows, rows': Rows, events: map<EventId, Event>)
    requires EventsInv(rows, events) && rows'.adjustments == rows.adjustments
    ensures EventsInv(rows', events)
  {
  }

  /** A transaction commits. Clearing the last cancellation needs billing to have ended. */
  lemma CommitKeepsInv(w: World, k: AttemptId, kind: WriteKind, ended: bool, result: Result<Committed, BillingError>)
    requires Inv(w) && k in w.attempts && result.Success? && result.value.outcome.Some?
    requires RowsInv(result.value.rows, w.binding, Current(w)) && EventsInv(result.value.rows, result.value.events)
    requires EventsKept(w.events, result.value.events)
    requires result.value.rows.order.plan == w.rows.order.plan
    requires result.value.rows.order.revision == w.rows.order.revision + 1
    requires Checked(kind) ==> UpToDate(w, w.attempts[k])
    requires w.rows.order.plan == Monthly && AnyCancelRequired(w.rows.adjustments) ==>
               AnyCancelRequired(result.value.rows.adjustments) || !CanBill(Current(w).subscription)
    ensures Inv(Finish(w, k, result, kind, ended))
  {
    hide RowsInv, EventsInv, AttemptInv, Evolves, ValidStripe, Serial, AnyCancelRequired;
    AttemptBounds(w);
    var w' := Finish(w, k, result, kind, ended);
    HistoryGrows(w.history, Current(w));
    assert Quiet(w, w');
    LogExtended(w, w', w'.log[|w.log|]);
    Assemble(w, w', k);
  }

  lemma FinishCheckoutKeepsInv(w: World, k: AttemptId, newLicense: LicenseId)
    requires Inv(w) && k in w.attempts && w.attempts[k].CheckoutReady? && Typed(w, w.attempts[k])
    ensures Inv(FinishCheckoutStep(w, k, newLicense))
  {
    hide RowsInv, EventsInv, HistoryInv, LogInv, Fulfil, OnlyRevoked, CancelJustified;
    var ctx, session := w.attempts[k].ctx, w.attempts[k].session;
    var applied := ApplyCheckout(w.rows, w.binding, w.events[ctx.event].eventType, session, newLicense, ctx.now);
    var result := CommitCheckout(w.rows, w.events, w.binding, ctx.event, session, newLicense, ctx.now);
    if result.Failure? || result.value.outcome.None? {
      CrashKeepsInv(w, k);
    } else {
      assert AttemptInv(w, k);
      CheckoutKeepsRows(w.rows, w.binding, Current(w), w.events[ctx.event].eventType, session, newLicense, ctx.now);
      ApplyCheckoutFrame(w.rows, w.binding, w.events[ctx.event].eventType, session, newLicense, ctx.now);
      BumpKeepsRows(applied.value.rows, w.binding, Current(w));
      OrdinaryKeepsEvents(w.rows, w.events, ctx.event, applied.value);
      CommitKeepsInv(w, k, CheckoutWrite, false, result);
    }
  }

  lemma ApplyCheckoutFrame(rows: Rows, binding: Binding, eventType: EventType, session: Session, newLicense: LicenseId,
                           now: Time)
    ensures var r := ApplyCheckout(rows, binding, eventType, session, newLicense, now);
            r.Success? ==> && r.value.rows.adjustments == rows.adjustments && r.value.rows.order.plan == rows.order.plan
                           && r.value.rows.order.revision == rows.order.revision
  {
  }

  lemma ApplyMonthlyFrame(rows: Rows, binding: Binding, eventType: EventType, view: MonthlySnapshot,
                          newLicense: LicenseId, now: Time)
    ensures var r := ApplyMonthlyPurchase(rows, binding, eventType, view, newLicense, now);
            r.Success? ==> && r.value.rows.adjustments == rows.adjustments && r.value.rows.order.plan == rows.order.plan
                           && r.value.rows.order.revision == rows.order.revision
  {
  }

  lemma OrdinaryKeepsEvents(rows: Rows, events: map<EventId, Event>, event: EventId, applied: Applied)
    requires event in events && events[event].eventType != RefundOrDispute && EventsInv(rows, events)
    requires applied.rows.adjustments == rows.adjustments
    ensures EventsInv(applied.rows.(order := Bumped(applied.rows.order)), Complete(events, event, applied.outcome))
  {
    var after := Complete(events, event, applied.outcome);
    forall a | a in rows.adjustments && rows.adjustments[a].pending ensures Retryable(after, a) {
      var e :| e in events && events[e].eventType == RefundOrDispute && events[e].objectId == a
        && !events[e].Processed();
      assert e in after && after[e] == events[e];
    }
  }

  lemma FinishMonthlyKeepsInv(w: World, k: AttemptId, newLicense: LicenseId)
    requires Inv(w) && k in w.attempts && w.attempts[k].MonthlyReady? && Typed(w, w.attempts[k])
    ensures Inv(FinishMonthlyStep(w, k, newLicense))
  {
    hide RowsInv, EventsInv, HistoryInv, LogInv, CancelJustified, ApplyMonthlyPurchase, StillPaid, SawSession;
    var ctx, view := w.attempts[k].ctx, w.attempts[k].monthly;
    var applied := ApplyMonthlyPurchase(w.rows, w.binding, w.events[ctx.event].eventType, view, newLicense, ctx.now);
    var result := CommitMonthly(w.rows, w.events, w.binding, ctx.event, view, ctx.revision, newLicense, ctx.now);
    if result.Failure? || result.value.outcome.None? {
      CrashKeepsInv(w, k);
    } else {
      assert AttemptInv(w, k);
      SeenStaysPaid(w.history, ctx.observedFrom, view.initial);
      SeenStaysPaid(w.history, ctx.observedFrom, view.latest);
      MonthlyKeepsRows(w.rows, w.binding, Current(w), w.events[ctx.event].eventType, view, newLicense, ctx.now);
      ApplyMonthlyFrame(w.rows, w.binding, w.events[ctx.event].eventType, view, newLicense, ctx.now);
      BumpKeepsRows(applied.value.rows, w.binding, Current(w));
      OrdinaryKeepsEvents(w.rows, w.events, ctx.event, applied.value);
      CommitKeepsInv(w, k, MonthlyWrite, false, result);
    }
  }

  /** A commit that clears cancellations held a subscription that could no longer bill. */
  lemma CommitAdjustmentFrame(rows: Rows, events: map<EventId, Event>, binding: Binding, event: EventId,
                              view: AdjustmentSnapshot, revision: nat, newLicense: LicenseId, now: Time)
    requires event in events && Hydrated(rows.order.plan, view)
    requires rows.order.plan == Monthly && AnyCancelRequired(rows.adjustments) ==> !CanBill(view.subscription.value)
    ensures var r := CommitAdjustment(rows, events, binding, event, view, revision, newLicense, now);
            r.Success? && r.value.outcome.Some? ==>
              && rows.order.revision == revision && EventsKept(events, r.value.events)
              && r.value.rows.order.plan == rows.order.plan && r.value.rows.order.revision == revision + 1
  {
  }

  lemma FinishAdjustmentKeepsInv(w: World, k: AttemptId, newLicense: LicenseId)
    requires Inv(w) && k in w.attempts && w.attempts[k].AdjustmentReady? && Typed(w, w.attempts[k])
    ensures Inv(FinishAdjustmentStep(w, k, newLicense))
  {
    hide RowsInv, EventsInv, HistoryInv, LogInv, ApplyAdjustments, SawSnapshot, SettledAdjustments;
    var ctx, view := w.attempts[k].ctx, w.attempts[k].view;
    var result := CommitAdjustment(w.rows, w.events, w.binding, ctx.event, view, ctx.revision, newLicense, ctx.now);
    assert AttemptInv(w, k);
    if result.Failure? || result.value.outcome.None? {
      CrashKeepsInv(w, k);
    } else {
      SeenIsFaithful(w.history, ctx.observedFrom, view);
      CommitKeepsRows(w.rows, w.events, ctx.event, w.binding, Current(w), view, ctx.revision, newLicense, ctx.now);
      CommitAdjustmentFrame(w.rows, w.events, w.binding, ctx.event, view, ctx.revision, newLicense, ctx.now);
      CommitKeepsInv(w, k, AdjustmentWrite, EndedBilling(view), result);
    }
  }

  lemma PrepareKeepsInv(w: World, k: AttemptId)
    requires Inv(w) && k in w.attempts && w.attempts[k].AdjustmentViewed? && Typed(w, w.attempts[k])
    ensures Inv(PrepareStep(w, k))
  {
    hide RowsInv, EventsInv, HistoryInv, LogInv, SawSnapshot, PrepareAdjustment, IntentStored, Hydrated, Faithful,
         Serial, EndedBefore;
    var ctx, view := w.attempts[k].ctx, w.attempts[k].view;
    var result := PrepareAdjustment(w.rows, w.events, ctx.event, view.adjustment, ctx.revision, ctx.now);
    assert AttemptInv(w, k);
    if result.Failure? || w.events[ctx.event].Processed() {
      CrashKeepsInv(w, k);
    } else {
      SeenIsFaithful(w.history, ctx.observedFrom, view);
      PrepareKeepsRows(w.rows, w.events, ctx.event, w.binding, Current(w), view, ctx.revision, ctx.now);
      PrepareKeepsEvents(w.rows, w.events, ctx.event, view.adjustment, ctx.revision, ctx.now);
      PrepareFrame(w.rows, w.events, ctx.event, view.adjustment, ctx.revision, ctx.now, w.history[ctx.observedFrom]);
      IntentKeepsInv(w, k, result.value);
    }
  }

  lemma IntentKeepsInv(w: World, k: AttemptId, prepared: Prepared)
    requires Inv(w) && k in w.attempts && w.attempts[k].AdjustmentViewed? && Typed(w, w.attempts[k])
    requires var ctx, view := w.attempts[k].ctx, w.attempts[k].view;
             Success(prepared) == PrepareAdjustment(w.rows, w.events, ctx.event, view.adjustment, ctx.revision, ctx.now)
    requires !w.events[w.attempts[k].ctx.event].Processed()
    requires RowsInv(prepared.rows, w.binding, Current(w)) && EventsInv(prepared.rows, prepared.events)
    requires IntentFrame(w.rows, w.events, prepared, w.attempts[k].view.adjustment, w.attempts[k].ctx.revision,
                         w.history[w.attempts[k].ctx.observedFrom])
    ensures Inv(PrepareStep(w, k))
  {
    hide RowsInv, EventsInv, SawSnapshot, PrepareAdjustment, IntentStored, Hydrated, Serial, EndedBefore, Evolves,
         ValidStripe;
    var w' := PrepareStep(w, k);
    var ctx, view := w.attempts[k].ctx, w.attempts[k].view;
    AttemptBounds(w);
    assert AttemptInv(w, k);
    HistoryGrows(w.history, Current(w));
    assert Quiet(w, w');
    LogExtended(w, w', w'.log[|w.log|]);
    if !prepared.done {
      SawSnapshotLater(w.history, ctx.observedFrom, view, Current(w));
      assert w'.history[ctx.observedFrom] == w.history[ctx.observedFrom];
      assert AttemptInv(w', k);
    }
    Assemble(w, w', k);
  }

  ghost predicate IntentFrame(rows: Rows, events: map<EventId, Event>, prepared: Prepared, a: AdjustmentView,
                              revision: nat, stripe: Stripe) {
    && rows.order.revision == revision && EventsKept(events, prepared.events)
    && prepared.rows.order == Bumped(rows.order)
    && (AnyCancelRequired(rows.adjustments) ==> AnyCancelRequired(prepared.rows.adjustments))
    && (EndedBefore(rows, stripe) ==> EndedBefore(prepared.rows, stripe))
    && (!prepared.done ==> IntentStored(prepared.rows, a))
  }

  /** Preparing only adds cancellations, and leaves every other row as it was. */
  lemma PrepareFrame(rows: Rows, events: map<EventId, Event>, event: EventId, a: AdjustmentView, revision: nat,
                     now: Time, stripe: Stripe)
    requires event in events && !events[event].Processed()
    ensures var r := PrepareAdjustment(rows, events, event, a, revision, now);
            r.Success? ==> IntentFrame(rows, events, r.value, a, revision, stripe)
  {
    var r := PrepareAdjustment(rows, events, event, a, revision, now);
    if r.Success? && AnyCancelRequired(rows.adjustments) {
      var c :| c in rows.adjustments && rows.adjustments[c].cancelRequired;
      assert r.value.rows.adjustments[c].cancelRequired;
    }
  }

  /** One step of anyone: a worker, Stripe, a crash or the operator. */
  ghost predicate Step(w: World, w': World) {
    WellFormed(w) && exists a :: Enabled(w, a) && w' == Next(w, a)
  }

  lemma StepKeepsInv(w: World, w': World)
    requires Inv(w) && Step(w, w')
    ensures Inv(w')
  {
    hide Inv, Enabled, Next;
    var a :| Enabled(w, a) && w' == Next(w, a);
    if a.FinishMonthly? || a.FinishCheckout? || a.FinishAdjustment? || a.Prepare? || a.Revoke? {
      WriteKeepsInv(w, a);
    } else if a.StartMonthly? || a.StartCheckout? || a.StartAdjustment? || a.HydrateMonthly? || a.HydrateAdjustment?
      || a.Confirm? {
      ReadKeepsInv(w, a);
    } else {
      OtherKeepsInv(w, a);
    }
  }

  lemma WriteKeepsInv(w: World, a: Action)
    requires Inv(w) && WellFormed(w) && Enabled(w, a)
    requires a.FinishMonthly? || a.FinishCheckout? || a.FinishAdjustment? || a.Prepare? || a.Revoke?
    ensures Inv(Next(w, a))
  {
    hide Inv, With, Without, Tick, PrepareStep, FinishMonthlyStep, FinishCheckoutStep, FinishAdjustmentStep,
         CallCancelStep, RevokeStep, ReadIntentStep, DeliverCancelStep, HydratedMonthly, SawSnapshot, SawMonthly,
         Evolves, ValidStripe;
    match a
    case FinishMonthly(k, newLicense) => FinishMonthlyKeepsInv(w, k, newLicense);
    case FinishCheckout(k, newLicense) => FinishCheckoutKeepsInv(w, k, newLicense);
    case FinishAdjustment(k, newLicense) => FinishAdjustmentKeepsInv(w, k, newLicense);
    case Prepare(k) => PrepareKeepsInv(w, k);
    case Revoke(license) => RevokeKeepsInv(w, license);
  }

  lemma ReadKeepsInv(w: World, a: Action)
    requires Inv(w) && WellFormed(w) && Enabled(w, a)
    requires a.StartMonthly? || a.StartCheckout? || a.StartAdjustment? || a.HydrateMonthly? || a.HydrateAdjustment?
             || a.Confirm?
    ensures Inv(Next(w, a))
  {
    hide Inv, With, Without, Tick, PrepareStep, FinishMonthlyStep, FinishCheckoutStep, FinishAdjustmentStep,
         CallCancelStep, RevokeStep, ReadIntentStep, DeliverCancelStep, HydratedMonthly, SawSnapshot, SawMonthly,
         Evolves, ValidStripe;
    match a
    case StartMonthly(event, now) => StartKeepsInv(w, MonthlyReading(Started(w, event, now)));
    case StartCheckout(event, now) => StartKeepsInv(w, CheckoutReady(Started(w, event, now), Current(w).session));
    case StartAdjustment(event, now) => StartKeepsInv(w, AdjustmentReading(Started(w, event, now)));
    case HydrateMonthly(k, monthly) => HydrateMonthlyKeepsInv(w, k, monthly);
    case HydrateAdjustment(k, view) => HydrateAdjustmentKeepsInv(w, k, view);
    case Confirm(k, view) => ConfirmKeepsInv(w, k, view);
  }

  lemma OtherKeepsInv(w: World, a: Action)
    requires Inv(w) && WellFormed(w) && Enabled(w, a)
    requires a.StripeMoves? || a.RecordEvent? || a.ReadIntent? || a.CallCancel? || a.DeliverCancel? || a.Crash?
    ensures Inv(Next(w, a))
  {
    hide Inv, With, Without, Tick, PrepareStep, FinishMonthlyStep, FinishCheckoutStep, FinishAdjustmentStep,
         CallCancelStep, RevokeStep, ReadIntentStep, DeliverCancelStep, HydratedMonthly, SawSnapshot, SawMonthly,
         Evolves, ValidStripe;
    match a
    case StripeMoves(next) => StripeMovesKeepsInv(w, next);
    case RecordEvent(event, eventType, objectId, createdAt) =>
      if event in w.events { IdleKeepsInv(w); }
      else { RecordKeepsInv(w, event, Event(eventType, objectId, createdAt, None)); }
    case ReadIntent(k) => ReadIntentKeepsInv(w, k);
    case CallCancel(k) => CallCancelKeepsInv(w, k);
    case DeliverCancel(k, subscription) => DeliverKeepsInv(w, k, subscription);
    case Crash(k) => CrashKeepsInv(w, k);
  }

  lemma StripeMovesKeepsInv(w: World, next: Stripe)
    requires Inv(w) && ValidStripe(next) && Evolves(Current(w), next)
    ensures Inv(w.(history := w.history + [next]))
  {
    StripeStepKeepsInv(w, next, w.cancels);
  }

  lemma IdleKeepsInv(w: World)
    requires Inv(w)
    ensures Inv(Tick(w))
  {
    PrivateStep(w, Tick(w), Now(w));
  }

  lemma DeliverKeepsInv(w: World, k: AttemptId, subscription: StripeSubscription)
    requires Inv(w) && !CanBill(subscription)
    ensures Inv(DeliverCancelStep(w, k, subscription))
  {
    var next := if CanBill(Current(w).subscription) then Current(w).(subscription := subscription) else Current(w);
    StripeStepKeepsInv(w, next, w.cancels - {k});
  }

  // ----- runs -----

  ghost predicate Run(run: seq<World>) {
    run != [] && Init(run[0]) && forall i :: 0 <= i < |run| - 1 ==> Step(run[i], run[i + 1])
  }

  lemma {:induction false} RunKeepsInv(run: seq<World>, i: nat)
    requires Run(run) && i < |run|
    ensures Inv(run[i])
    decreases i
  {
    if i == 0 {
      InitInv(run[0]);
    } else {
      RunKeepsInv(run, i - 1);
      StepKeepsInv(run[i - 1], run[i]);
    }
  }
}
