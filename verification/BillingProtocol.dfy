/** The billing workers of one order as a state machine: attempts to process events run beside Stripe, the
    operator and each other, and each order-locked transaction is one step. Every step takes one tick; the
    history keeps Stripe as it was at each tick, so a value was current when it was read if it is in the
    history at some tick since reading began. */
module BillingProtocol {
  import opened Basics
  import opened Subscription
  import opened Entitlement
  import opened BillingRows

  // ----- Stripe -----

  datatype Stripe = Stripe(
    session: Session, subscription: StripeSubscription, invoices: map<InvoiceId, Invoice>,
    objects: map<ObjectId, StripeObject>, charges: map<ChargeId, Charge>)

  ghost predicate ValidStripe(s: Stripe) {
    forall i :: i in s.invoices ==> s.invoices[i].id == i && ValidInvoice(s.invoices[i])
  }

  /** A refund or dispute keeps its kind, charge, amount and creation time; only its status moves. */
  predicate SameObject(a: StripeObject, b: StripeObject) {
    a.RefundObject? == b.RefundObject? && a.amount == b.amount && a.chargeId == b.chargeId && a.created == b.created
  }

  /** What the environment may do: an ended subscription stays ended, and a paid invoice stays paid with
      its line period fixed. Sessions, charges and the statuses of refunds and disputes move freely. */
  ghost predicate Evolves(a: Stripe, b: Stripe) {
    && (!CanBill(a.subscription) ==> !CanBill(b.subscription))
    && (forall i :: i in a.invoices && a.invoices[i].status == InvoicePaid ==>
          i in b.invoices && b.invoices[i].status == InvoicePaid && b.invoices[i].lineEnd == a.invoices[i].lineEnd)
    && (forall o :: o in a.objects ==> o in b.objects && SameObject(a.objects[o], b.objects[o]))
  }

  // ----- reads, each current at some tick since `from` -----

  ghost predicate SawSession(history: seq<Stripe>, from: nat, session: Session) {
    exists t :: from <= t < |history| && history[t].session == session
  }

  ghost predicate SawSubscription(history: seq<Stripe>, from: nat, subscription: StripeSubscription) {
    exists t :: from <= t < |history| && history[t].subscription == subscription
  }

  ghost predicate SawInvoice(history: seq<Stripe>, from: nat, invoice: Invoice) {
    exists t :: from <= t < |history| && invoice.id in history[t].invoices && history[t].invoices[invoice.id] == invoice
  }

  /** The object and its charge are two reads. */
  ghost predicate SawAdjustment(history: seq<Stripe>, from: nat, a: AdjustmentView) {
    exists t, u :: from <= t < |history| && from <= u < |history| && ReadAt(history[t], history[u], a)
  }

  ghost predicate ReadAt(first: Stripe, second: Stripe, a: AdjustmentView) {
    && a.id in first.objects && first.objects[a.id].chargeId in second.charges
    && RetrieveAdjustment(a.id, first.objects[a.id], second.charges[first.objects[a.id].chargeId]) == Success(a)
  }

  ghost predicate SawSnapshot(history: seq<Stripe>, from: nat, view: AdjustmentSnapshot) {
    && SawAdjustment(history, from, view.adjustment)
    && (view.subscription.Some? ==> SawSubscription(history, from, view.subscription.value))
    && (view.invoice.Some? ==> SawInvoice(history, from, view.invoice.value))
    && (view.initial.Some? ==> SawInvoice(history, from, view.initial.value))
    && (view.latest.Some? ==> SawInvoice(history, from, view.latest.value))
  }

  ghost predicate SawMonthly(history: seq<Stripe>, from: nat, view: MonthlySnapshot) {
    && SawSession(history, from, view.session)
    && (view.subscription.Some? ==> SawSubscription(history, from, view.subscription.value))
    && (view.initial.Some? ==> SawInvoice(history, from, view.initial.value))
    && (view.latest.Some? ==> SawInvoice(history, from, view.latest.value))
  }

  // ----- attempts -----

  /** One attempt at one event. `base` is the order's rows when `revision` was read, and again after this
      attempt's own intent was committed; `observedFrom` is the tick before which nothing in its snapshot
      was read. */
  datatype Context = Context(event: EventId, now: Time, revision: nat, observedFrom: nat, base: Rows)

  datatype Attempt =
    | MonthlyReading(ctx: Context)
    | MonthlyReady(ctx: Context, monthly: MonthlySnapshot)
    | CheckoutReady(ctx: Context, session: Session)
    | AdjustmentReading(ctx: Context)
    | AdjustmentViewed(ctx: Context, view: AdjustmentSnapshot)
    | AdjustmentPrepared(ctx: Context, view: AdjustmentSnapshot)
    | AdjustmentCanceling(ctx: Context, view: AdjustmentSnapshot)
    | AdjustmentConfirming(ctx: Context, view: AdjustmentSnapshot)
    | AdjustmentReady(ctx: Context, view: AdjustmentSnapshot)

  type AttemptId = nat

  datatype WriteKind = CheckoutWrite | MonthlyWrite | IntentWrite | AdjustmentWrite

  /** A committed order transaction: who made it, since when its observations were made, and when; the rows it
      found, and whether the snapshot it applied shows that billing has ended. */
  datatype Write = Write(attempt: AttemptId, kind: WriteKind, observedFrom: nat, at: nat, found: Rows, ended: bool)

  datatype World = World(
    binding: Binding, rows: Rows, events: map<EventId, Event>, history: seq<Stripe>,
    attempts: map<AttemptId, Attempt>, cancels: set<AttemptId>, log: seq<Write>)

  function Now(w: World): nat {
    |w.history|
  }

  function Current(w: World): Stripe
    requires w.history != []
  {
    w.history[|w.history| - 1]
  }

  function EmptyRows(plan: Plan): Rows {
    Rows(Order(plan, OrderPending, None, None, None, None, 0), map[], map[], map[])
  }

  /** The order as ensurePaymentLinkOrder inserts it. */
  ghost predicate Init(w: World) {
    && (exists plan :: w.rows == EmptyRows(plan))
    && w.events == map[] && |w.history| == 1 && ValidStripe(w.history[0])
    && w.attempts == map[] && w.cancels == {} && w.log == []
  }

  /** The event an attempt works on is recorded, and its snapshot passed the hydration checks. */
  ghost predicate Typed(w: World, attempt: Attempt) {
    && attempt.ctx.event in w.events
    && (HasView(attempt) ==> Hydrated(w.rows.order.plan, attempt.view))
  }

  predicate HasView(attempt: Attempt) {
    attempt.AdjustmentViewed? || attempt.AdjustmentPrepared? || attempt.AdjustmentCanceling?
    || attempt.AdjustmentConfirming? || attempt.AdjustmentReady?
  }

  ghost predicate WellFormed(w: World) {
    w.history != [] && forall k :: k in w.attempts ==> Typed(w, w.attempts[k])
  }

  // ----- steps -----

  datatype Action =
    | StripeMoves(next: Stripe)
    | RecordEvent(event: EventId, eventType: EventType, objectId: ObjectId, createdAt: Time)
    | StartMonthly(event: EventId, now: Time)
    | HydrateMonthly(k: AttemptId, monthly: MonthlySnapshot)
    | FinishMonthly(k: AttemptId, newLicense: LicenseId)
    | StartCheckout(event: EventId, now: Time)
    | FinishCheckout(k: AttemptId, newLicense: LicenseId)
    | StartAdjustment(event: EventId, now: Time)
    | HydrateAdjustment(k: AttemptId, view: AdjustmentSnapshot)
    | Prepare(k: AttemptId)
    | ReadIntent(k: AttemptId)
    | CallCancel(k: AttemptId)
    | DeliverCancel(k: AttemptId, subscription: StripeSubscription)
    | Confirm(k: AttemptId, view: AdjustmentSnapshot)
    | FinishAdjustment(k: AttemptId, newLicense: LicenseId)
    | Crash(k: AttemptId)
    | Revoke(license: LicenseId)

  ghost predicate Startable(w: World, event: EventId) {
    event in w.events && !w.events[event].Processed()
  }

  /** A snapshot that hydrateAdjustment could return now, had it begun reading at `from`. */
  ghost predicate Returned(w: World, ctx: Context, view: AdjustmentSnapshot)
    requires ctx.event in w.events
  {
    && SawSnapshot(w.history, ctx.observedFrom, view) && Hydrated(w.rows.order.plan, view)
    && view.adjustment.id == w.events[ctx.event].objectId
  }

  ghost predicate Enabled(w: World, a: Action)
    requires WellFormed(w)
  {
    match a
    case StripeMoves(next) => ValidStripe(next) && Evolves(Current(w), next)
    case RecordEvent(_, _, _, _) => true
    case StartMonthly(event, _) =>
      Startable(w, event) && w.events[event].eventType != RefundOrDispute && w.rows.order.plan == Monthly
    case HydrateMonthly(k, monthly) =>
      && k in w.attempts && w.attempts[k].MonthlyReading?
      && SawMonthly(w.history, w.attempts[k].ctx.observedFrom, monthly)
      && HydratedMonthly(w.attempts[k].ctx.base.order.licenseId.Some?, monthly)
    case FinishMonthly(k, newLicense) =>
      k in w.attempts && w.attempts[k].MonthlyReady? && newLicense !in w.rows.licenses
    case StartCheckout(event, _) =>
      && Startable(w, event) && w.events[event].eventType in {CheckoutCompleted, CheckoutPaymentFailed}
      && w.rows.order.plan == PerpetualV1
    case FinishCheckout(k, newLicense) =>
      k in w.attempts && w.attempts[k].CheckoutReady? && newLicense !in w.rows.licenses
    case StartAdjustment(event, _) => Startable(w, event) && w.events[event].eventType == RefundOrDispute
    case HydrateAdjustment(k, view) =>
      k in w.attempts && w.attempts[k].AdjustmentReading? && Returned(w, w.attempts[k].ctx, view)
    case Prepare(k) => k in w.attempts && w.attempts[k].AdjustmentViewed?
    case ReadIntent(k) => k in w.attempts && w.attempts[k].AdjustmentPrepared?
    case CallCancel(k) => k in w.attempts && w.attempts[k].AdjustmentCanceling?
    case DeliverCancel(k, subscription) => k in w.cancels && !CanBill(subscription)
    case Confirm(k, view) =>
      && k in w.attempts && w.attempts[k].AdjustmentConfirming? && Returned(w, w.attempts[k].ctx, view)
      && w.rows.order.plan == Monthly && !CanBill(view.subscription.value)
    case FinishAdjustment(k, newLicense) =>
      k in w.attempts && w.attempts[k].AdjustmentReady? && newLicense !in w.rows.licenses
    case Crash(k) => k in w.attempts
    case Revoke(license) => license in w.rows.licenses
  }

  function Tick(w: World): World
    requires w.history != []
  {
    w.(history := w.history + [Current(w)])
  }

  ghost function Started(w: World, event: EventId, now: Time): Context {
    Context(event, now, w.rows.order.revision, Now(w), w.rows)
  }

  ghost function With(w: World, k: AttemptId, attempt: Attempt): World
    requires w.history != []
  {
    Tick(w.(attempts := w.attempts[k := attempt]))
  }

  ghost function Without(w: World, k: AttemptId): World
    requires w.history != []
  {
    Tick(w.(attempts := w.attempts - {k}))
  }

  /** An attempt ends with its transaction: committed, or rolled back and left to a retry. */
  ghost function Finish(w: World, k: AttemptId, result: Result<Committed, BillingError>, kind: WriteKind, ended: bool)
    : World
    requires w.history != [] && k in w.attempts
  {
    if result.Failure? || result.value.outcome.None? then Without(w, k)
    else
      var write := Write(k, kind, w.attempts[k].ctx.observedFrom, Now(w), w.rows, ended);
      Without(w, k).(rows := result.value.rows, events := result.value.events, log := w.log + [write])
  }

  ghost function PrepareStep(w: World, k: AttemptId): World
    requires w.history != [] && k in w.attempts && w.attempts[k].AdjustmentViewed? && Typed(w, w.attempts[k])
  {
    var ctx, view := w.attempts[k].ctx, w.attempts[k].view;
    match PrepareAdjustment(w.rows, w.events, ctx.event, view.adjustment, ctx.revision, ctx.now)
    case Failure(_) => Without(w, k)
    case Success(prepared) =>
      if w.events[ctx.event].Processed() then Without(w, k)
      else
        var logged := w.(rows := prepared.rows, events := prepared.events,
                         log := w.log + [Write(k, IntentWrite, ctx.observedFrom, Now(w), w.rows, false)]);
        if prepared.done then Without(logged, k)
        else With(logged, k, AdjustmentPrepared(ctx.(revision := prepared.rows.order.revision,
                                                     base := prepared.rows), view))
  }

  ghost function ReadIntentStep(w: World, k: AttemptId): World
    requires w.history != [] && k in w.attempts && w.attempts[k].AdjustmentPrepared? && Typed(w, w.attempts[k])
  {
    var ctx, view := w.attempts[k].ctx, w.attempts[k].view;
    if !AnyCancelRequired(w.rows.adjustments) || w.rows.order.plan != Monthly then
      With(w, k, AdjustmentReady(ctx, view))
    else if CanBill(view.subscription.value) then With(w, k, AdjustmentCanceling(ctx, view))
    else With(w, k, AdjustmentConfirming(ctx.(observedFrom := Now(w)), view))
  }

  predicate EndedBilling(view: AdjustmentSnapshot) {
    view.subscription.Some? && !CanBill(view.subscription.value)
  }

  ghost function FinishMonthlyStep(w: World, k: AttemptId, newLicense: LicenseId): World
    requires w.history != [] && k in w.attempts && w.attempts[k].MonthlyReady? && Typed(w, w.attempts[k])
  {
    var ctx, view := w.attempts[k].ctx, w.attempts[k].monthly;
    Finish(w, k, CommitMonthly(w.rows, w.events, w.binding, ctx.event, view, ctx.revision, newLicense, ctx.now),
           MonthlyWrite, false)
  }

  ghost function FinishCheckoutStep(w: World, k: AttemptId, newLicense: LicenseId): World
    requires w.history != [] && k in w.attempts && w.attempts[k].CheckoutReady? && Typed(w, w.attempts[k])
  {
    var ctx, session := w.attempts[k].ctx, w.attempts[k].session;
    Finish(w, k, CommitCheckout(w.rows, w.events, w.binding, ctx.event, session, newLicense, ctx.now), CheckoutWrite,
           false)
  }

  ghost function FinishAdjustmentStep(w: World, k: AttemptId, newLicense: LicenseId): World
    requires w.history != [] && k in w.attempts && w.attempts[k].AdjustmentReady? && Typed(w, w.attempts[k])
  {
    var ctx, view := w.attempts[k].ctx, w.attempts[k].view;
    Finish(w, k, CommitAdjustment(w.rows, w.events, w.binding, ctx.event, view, ctx.revision, newLicense, ctx.now),
           AdjustmentWrite,
           EndedBilling(view))
  }

  ghost function CallCancelStep(w: World, k: AttemptId): World
    requires w.history != [] && k in w.attempts && w.attempts[k].AdjustmentCanceling?
  {
    var ctx := w.attempts[k].ctx;
    With(w, k, AdjustmentConfirming(ctx.(observedFrom := Now(w)), w.attempts[k].view)).(cancels := w.cancels + {k})
  }

  /** A cancellation takes effect when it arrives, perhaps long after its caller gave up. */
  ghost function DeliverCancelStep(w: World, k: AttemptId, subscription: StripeSubscription): World
    requires w.history != []
  {
    var next := if CanBill(Current(w).subscription) then Current(w).(subscription := subscription) else Current(w);
    w.(history := w.history + [next], cancels := w.cancels - {k})
  }

  ghost function RevokeStep(w: World, license: LicenseId): World
    requires w.history != [] && license in w.rows.licenses
  {
    Tick(w.(rows := w.rows.(licenses := w.rows.licenses[license := LicenseRevoked])))
  }

  ghost function Next(w: World, a: Action): World
    requires WellFormed(w)
    requires Enabled(w, a)
  {
    match a
    case StripeMoves(next) => w.(history := w.history + [next])
    case RecordEvent(event, eventType, objectId, createdAt) =>
      if event in w.events then Tick(w)
      else Tick(w.(events := w.events[event := Event(eventType, objectId, createdAt, None)]))
    case StartMonthly(event, now) => With(w, Now(w), MonthlyReading(Started(w, event, now)))
    case HydrateMonthly(k, monthly) => With(w, k, MonthlyReady(w.attempts[k].ctx, monthly))
    case FinishMonthly(k, newLicense) => FinishMonthlyStep(w, k, newLicense)
    case StartCheckout(event, now) => With(w, Now(w), CheckoutReady(Started(w, event, now), Current(w).session))
    case FinishCheckout(k, newLicense) => FinishCheckoutStep(w, k, newLicense)
    case StartAdjustment(event, now) => With(w, Now(w), AdjustmentReading(Started(w, event, now)))
    case HydrateAdjustment(k, view) => With(w, k, AdjustmentViewed(w.attempts[k].ctx, view))
    case Prepare(k) => PrepareStep(w, k)
    case ReadIntent(k) => ReadIntentStep(w, k)
    case CallCancel(k) => CallCancelStep(w, k)
    case DeliverCancel(k, subscription) => DeliverCancelStep(w, k, subscription)
    case Confirm(k, view) => With(w, k, AdjustmentReady(w.attempts[k].ctx, view))
    case FinishAdjustment(k, newLicense) => FinishAdjustmentStep(w, k, newLicense)
    case Crash(k) => Without(w, k)
    case Revoke(license) => RevokeStep(w, license)
  }
}
