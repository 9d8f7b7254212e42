/** The invariant of the whole protocol, and its preservation by every step. */
module BillingRun {
  import opened Basics
  import opened Subscription
  import opened Entitlement
  import opened BillingRows
  import opened BillingProtocol
  import opened BillingInvariant

  // ----- Stripe's history -----

  ghost predicate HistoryInv(history: seq<Stripe>) {
    && history != []
    && (forall t :: 0 <= t < |history| ==> ValidStripe(history[t]))
    && (forall t, u :: 0 <= t <= u < |history| ==> Evolves(history[t], history[u]))
  }

  lemma HistoryGrows(history: seq<Stripe>, next: Stripe)
    requires HistoryInv(history) && ValidStripe(next) && Evolves(history[|history| - 1], next)
    ensures HistoryInv(history + [next])
  {
    var longer := history + [next];
    forall t, u | 0 <= t <= u < |longer| ensures Evolves(longer[t], longer[u]) {
      if u == |history| && t < u {
        EvolvesTransitive(history[t], history[u - 1], next);
      }
    }
  }

  lemma SawInvoiceLater(history: seq<Stripe>, from: nat, invoice: Invoice, next: Stripe)
    requires SawInvoice(history, from, invoice)
    ensures SawInvoice(history + [next], from, invoice)
  {
    var t :| from <= t < |history| && invoice.id in history[t].invoices && history[t].invoices[invoice.id] == invoice;
    assert (history + [next])[t] == history[t];
  }

  lemma SawSubscriptionLater(history: seq<Stripe>, from: nat, subscription: StripeSubscription, next: Stripe)
    requires SawSubscription(history, from, subscription)
    ensures SawSubscription(history + [next], from, subscription)
  {
    var t :| from <= t < |history| && history[t].subscription == subscription;
    assert (history + [next])[t] == history[t];
  }

  /** Reading is monotone: what was seen by now will have been seen later. */
  lemma SawSnapshotLater(history: seq<Stripe>, from: nat, view: AdjustmentSnapshot, next: Stripe)
    requires SawSnapshot(history, from, view)
    ensures SawSnapshot(history + [next], from, view)
  {
    var longer := history + [next];
    var t, u :| from <= t < |history| && from <= u < |history| && ReadAt(history[t], history[u], view.adjustment);
    assert longer[t] == history[t] && longer[u] == history[u];
    if view.subscription.Some? { SawSubscriptionLater(history, from, view.subscription.value, next); }
    if view.invoice.Some? { SawInvoiceLater(history, from, view.invoice.value, next); }
    if view.initial.Some? { SawInvoiceLater(history, from, view.initial.value, next); }
    if view.latest.Some? { SawInvoiceLater(history, from, view.latest.value, next); }
  }

  lemma SawMonthlyLater(history: seq<Stripe>, from: nat, view: MonthlySnapshot, next: Stripe)
    requires SawMonthly(history, from, view)
    ensures SawMonthly(history + [next], from, view)
  {
    var t :| from <= t < |history| && history[t].session == view.session;
    assert (history + [next])[t] == history[t];
    if view.subscription.Some? { SawSubscriptionLater(history, from, view.subscription.value, next); }
    if view.initial.Some? { SawInvoiceLater(history, from, view.initial.value, next); }
    if view.latest.Some? { SawInvoiceLater(history, from, view.latest.value, next); }
  }

  lemma SeenStaysPaid(history: seq<Stripe>, from: nat, invoice: Option<Invoice>)
    requires HistoryInv(history) && (invoice.Some? ==> SawInvoice(history, from, invoice.value))
    ensures StillPaid(invoice, history[|history| - 1])
  {
  }

  lemma SeenIsFaithful(history: seq<Stripe>, from: nat, view: AdjustmentSnapshot)
    requires HistoryInv(history) && SawSnapshot(history, from, view)
    ensures Faithful(view, history[|history| - 1])
  {
  }

  // ----- attempts in flight -----

  /** Nobody has committed to the order since this attempt read its revision. */
  predicate UpToDate(w: World, attempt: Attempt) {
    attempt.ctx.revision == w.rows.order.revision
  }

  /** The rows an attempt decided on and the rows it finds: only an operator may have revoked the license. */
  ghost predicate OnlyRevoked(before: Rows, after: Rows) {
    && after.order == before.order && after.adjustments == before.adjustments
       && after.subscriptions == before.subscriptions
    && after.licenses.Keys == before.licenses.Keys
    && forall l :: l in before.licenses ==>
         after.licenses[l] == before.licenses[l] || after.licenses[l] == LicenseRevoked
  }

  ghost predicate AnyUnflaggedBlocking(adjustments: map<ObjectId, Adjustment>) {
    exists a :: a in adjustments && adjustments[a].state == Blocking && !adjustments[a].cancelRequired
  }

  /** A restriction in force without a cancellation to come rests on billing that had ended. */
  ghost predicate EndedBefore(rows: Rows, stripe: Stripe) {
    rows.order.plan == Monthly && (AnyUnflaggedBlocking(rows.adjustments) || LicenseRestricted(rows)) ==>
      !CanBill(stripe.subscription)
  }

  /** The attempt's own intent, as it committed it. */
  ghost predicate IntentStored(rows: Rows, a: AdjustmentView) {
    && a.id in rows.adjustments && rows.adjustments[a.id].pending
    && (a.state.Some? ==> rows.adjustments[a.id].state == a.state.value)
    && (a.state == Some(Blocking) && rows.order.plan == Monthly ==> rows.adjustments[a.id].cancelRequired)
  }

  /** A cancellation is called for, or there is nothing left to cancel. */
  ghost predicate CancelJustified(w: World)
    requires w.history != []
  {
    (w.rows.order.plan == Monthly && AnyCancelRequired(w.rows.adjustments)) || !CanBill(Current(w).subscription)
  }

  ghost predicate AttemptInv(w: World, k: AttemptId)
    requires w.history != [] && k in w.attempts
  {
    var attempt := w.attempts[k];
    var ctx := attempt.ctx;
    && k <= ctx.observedFrom < Now(w)
    && ctx.event in w.events
    && ctx.revision <= w.rows.order.revision
    && Typed(w, attempt)
    && (UpToDate(w, attempt) ==> OnlyRevoked(ctx.base, w.rows))
    && match attempt
       case MonthlyReading(_) => w.rows.order.plan == Monthly && w.events[ctx.event].eventType != RefundOrDispute
       case MonthlyReady(_, monthly) =>
         && w.rows.order.plan == Monthly && w.events[ctx.event].eventType != RefundOrDispute
         && SawMonthly(w.history, ctx.observedFrom, monthly) && HydratedMonthly(ctx.base.order.licenseId.Some?, monthly)
       case CheckoutReady(_, _) => w.rows.order.plan == PerpetualV1 && w.events[ctx.event].eventType != RefundOrDispute
       case AdjustmentReading(_) =>
         && w.events[ctx.event].eventType == RefundOrDispute
         && (UpToDate(w, attempt) ==> EndedBefore(w.rows, w.history[ctx.observedFrom]))
       case AdjustmentViewed(_, view) =>
         && w.events[ctx.event].eventType == RefundOrDispute && Returned(w, ctx, view)
         && (UpToDate(w, attempt) ==> EndedBefore(w.rows, w.history[ctx.observedFrom]))
       case AdjustmentPrepared(_, view) =>
         && w.events[ctx.event].eventType == RefundOrDispute && Returned(w, ctx, view)
         && (UpToDate(w, attempt) ==>
               EndedBefore(w.rows, w.history[ctx.observedFrom])
               && IntentStored(w.rows, view.adjustment))
       case AdjustmentCanceling(_, _) =>
         w.events[ctx.event].eventType == RefundOrDispute && w.rows.order.plan == Monthly && CancelJustified(w)
       case AdjustmentConfirming(_, _) =>
         w.events[ctx.event].eventType == RefundOrDispute && w.rows.order.plan == Monthly
       case AdjustmentReady(_, view) =>
         && w.events[ctx.event].eventType == RefundOrDispute && Returned(w, ctx, view)
         && (UpToDate(w, attempt) ==> Confirmed(w.rows, view))
  }

  // ----- the log of committed transactions -----

  predicate Checked(kind: WriteKind) {
    kind != CheckoutWrite
  }

  /** Observation intervals of different attempts never overlap a commit: whatever a revision-checked
      transaction applies was read after every earlier commit of another attempt. */
  ghost predicate Serial(log: seq<Write>) {
    forall i, j :: 0 <= i < j < |log| && Checked(log[j].kind) && log[i].attempt != log[j].attempt ==>
        log[i].at < log[j].observedFrom
  }

  ghost predicate LogInv(w: World) {
    && (forall i :: 0 <= i < |w.log| ==> w.log[i].attempt <= w.log[i].observedFrom < w.log[i].at < Now(w))
    && (forall i, j :: 0 <= i < j < |w.log| ==> w.log[i].at < w.log[j].at)
    && Serial(w.log)
    && (forall i, k :: 0 <= i < |w.log| && k in w.attempts && UpToDate(w, w.attempts[k]) && w.log[i].attempt != k ==>
          w.log[i].at < w.attempts[k].ctx.observedFrom)
  }

  ghost predicate Inv(w: World) {
    && HistoryInv(w.history)
    && RowsInv(w.rows, w.binding, Current(w))
    && EventsInv(w.rows, w.events)
    && (forall k :: k in w.attempts ==> AttemptInv(w, k))
    && (w.cancels != {} ==> CancelJustified(w))
    && LogInv(w)
  }

  lemma InitInv(w: World)
    requires Init(w)
    ensures Inv(w)
  {
  }

  // ----- one step, seen from the attempts that do not take it -----

  ghost predicate EventsKept(before: map<EventId, Event>, after: map<EventId, Event>) {
    forall e :: e in before ==>
        e in after && after[e].eventType == before[e].eventType
        && after[e].objectId == before[e].objectId
  }

  /** How a step may change what other attempts rely on. */
  ghost predicate Quiet(w: World, w': World) {
    && w.history != [] && |w'.history| == |w.history| + 1 && w'.history[..|w.history|] == w.history
    && HistoryInv(w'.history)
    && EventsKept(w.events, w'.events)
    && w'.rows.order.plan == w.rows.order.plan
    && (w'.rows.order.revision > w.rows.order.revision || OnlyRevoked(w.rows, w'.rows))
    && (CancelJustified(w) ==> CancelJustified(w'))
  }

  lemma RelianceKept(base: Rows, rows: Rows, rows': Rows)
    requires OnlyRevoked(base, rows) && OnlyRevoked(rows, rows')
    ensures OnlyRevoked(base, rows')
    ensures LicenseRestricted(rows') ==> LicenseRestricted(rows)
    ensures forall a :: IntentStored(rows, a) ==> IntentStored(rows', a)
  {
  }

  lemma OthersUnaffected(w: World, w': World, k: AttemptId)
    requires w.history != [] && Quiet(w, w')
    requires k in w.attempts && k in w'.attempts && w'.attempts[k] == w.attempts[k] && AttemptInv(w, k)
    ensures AttemptInv(w', k)
  {
    hide HistoryInv, SawSnapshot, SawMonthly, Hydrated, HydratedMonthly, IntentStored, CancelJustified,
         AnyUnflaggedBlocking, AnyBlocking, AnyCancelRequired, CanBill;
    var attempt := w.attempts[k];
    var next := w'.history[|w.history|];
    assert w'.history == w.history + [next];
    assert w'.history[attempt.ctx.observedFrom] == w.history[attempt.ctx.observedFrom];
    if UpToDate(w', attempt) {
      RelianceKept(attempt.ctx.base, w.rows, w'.rows);
    }
    if attempt.MonthlyReady? {
      SawMonthlyLater(w.history, attempt.ctx.observedFrom, attempt.monthly, next);
    }
    if attempt.AdjustmentViewed? || attempt.AdjustmentPrepared? || attempt.AdjustmentReady? {
      SawSnapshotLater(w.history, attempt.ctx.observedFrom, attempt.view, next);
    }
  }

  /** A step that commits nothing keeps the log's part of the invariant; attempts it starts or moves on have
      begun reading no earlier than before. */
  lemma LogUnaffected(w: World, w': World)
    requires LogInv(w) && w'.log == w.log && Now(w') == Now(w) + 1
    requires w'.rows.order.revision == w.rows.order.revision
    requires forall k :: k in w'.attempts ==>
               || w'.attempts[k].ctx.observedFrom == Now(w)
               || (k in w.attempts && w'.attempts[k].ctx.revision == w.attempts[k].ctx.revision
                   && w'.attempts[k].ctx.observedFrom == w.attempts[k].ctx.observedFrom)
    ensures LogInv(w')
  {
  }

  /** A committed transaction of an attempt is appended; everyone else's revision is out of date. */
  lemma LogExtended(w: World, w': World, write: Write)
    requires LogInv(w) && write.attempt in w.attempts
             && write.observedFrom == w.attempts[write.attempt].ctx.observedFrom
    requires write.attempt <= write.observedFrom < write.at == Now(w) && Now(w') == Now(w) + 1
    requires w'.log == w.log + [write] && w'.rows.order.revision > w.rows.order.revision
    requires Checked(write.kind) ==> UpToDate(w, w.attempts[write.attempt])
    requires forall j :: j in w'.attempts && j != write.attempt ==>
               j in w.attempts && w'.attempts[j] == w.attempts[j] && w.attempts[j].ctx.revision <= w.rows.order.revision
    requires write.attempt in w'.attempts ==>
               UpToDate(w, w.attempts[write.attempt])
                 && w'.attempts[write.attempt].ctx.observedFrom == write.observedFrom
    ensures LogInv(w')
  {
    SerialExtended(w.log, write);
    hide Serial, Checked;
    forall i, j | 0 <= i < |w'.log| && j in w'.attempts && UpToDate(w', w'.attempts[j]) && w'.log[i].attempt != j
      ensures w'.log[i].at < w'.attempts[j].ctx.observedFrom
    {
      assert j == write.attempt && w'.log[i] == w.log[i];
    }
  }

  lemma SerialExtended(log: seq<Write>, write: Write)
    requires Serial(log)
    requires Checked(write.kind) ==> forall i :: 0 <= i < |log| && log[i].attempt != write.attempt ==>
               log[i].at < write.observedFrom
    ensures Serial(log + [write])
  {
  }
}
