/** The rows one order lock protects, and what each order-locked billing transaction makes of them.
    These functions are the specification the methods of OrderStore are proved against. */
module BillingRows {
  import opened Basics
  import opened Subscription
  import opened Entitlement

  type LicenseId = string
  type ObjectId = string
  type ChargeId = string
  type EventId = string

  // ----- rows -----

  datatype OrderState = OrderPending | OrderPaid | OrderFailed | OrderFulfilled

  datatype Order = Order(
    plan: Plan, state: OrderState, licenseId: Option<LicenseId>, fulfilledAt: Option<Time>,
    paymentId: Option<string>, subscriptionId: Option<string>, revision: nat)

  datatype AdjustmentKind = Refund | Dispute

  datatype AdjustmentState = Blocking | Resolved

  datatype Adjustment = Adjustment(
    kind: AdjustmentKind, chargeId: ChargeId, state: AdjustmentState,
    pending: bool, cancelRequired: bool, effectiveAt: Time, updatedAt: Time)

  /** The order's own row and the rows that refer to it: `billing_adjustments` by Stripe object, `licenses`
      issued for it, and `subscriptions` by license. */
  datatype Rows = Rows(
    order: Order, adjustments: map<ObjectId, Adjustment>,
    licenses: map<LicenseId, LicenseState>, subscriptions: map<LicenseId, SubscriptionRow>)

  datatype EventType = RefundOrDispute | CheckoutCompleted | CheckoutPaymentFailed | SubscriptionOrInvoice

  datatype Outcome =
    | IgnoredUnowned | NoChange | MarkedFailed | FulfilledOrder | Restricted(license: LicenseState) | Restored
    | Projected(billing: BillingState)

  /** A row of `stripe_events`; it is processed once it has an outcome. */
  datatype Event = Event(eventType: EventType, objectId: ObjectId, createdAt: Time, outcome: Option<Outcome>) {
    predicate Processed() { outcome.Some? }
  }

  /** The Stripe references a Checkout Session binds to its order, fixed for the life of the order. */
  datatype Binding = Binding(paymentId: string, subscriptionId: string)

  datatype BillingError =
    | InvalidEvent | SnapshotChanged | InvalidAdjustment | InvalidPurchase | MissingRow | NilDereference

  // ----- what a worker read from Stripe -----

  datatype SessionStatus = SessionOpen | SessionComplete | SessionExpired

  datatype Session = Session(status: SessionStatus, paid: bool, chargeRefunded: bool)

  datatype Charge = Charge(paid: bool, refunded: bool, amount: int, amountRefunded: int)

  datatype AdjustmentView = AdjustmentView(
    id: ObjectId, kind: AdjustmentKind, state: Option<AdjustmentState>, chargeId: ChargeId, effectiveAt: Time,
    charge: Charge)

  datatype AdjustmentSnapshot = AdjustmentSnapshot(
    adjustment: AdjustmentView, subscription: Option<StripeSubscription>,
    invoice: Option<Invoice>, initial: Option<Invoice>, latest: Option<Invoice>)

  datatype MonthlySnapshot = MonthlySnapshot(
    session: Session, subscription: Option<StripeSubscription>, initial: Option<Invoice>, latest: Option<Invoice>)

  /** What hydrateAdjustment has checked before a snapshot leaves it. */
  predicate Hydrated(plan: Plan, view: AdjustmentSnapshot) {
    && view.adjustment.effectiveAt > 0
    && (view.adjustment.kind == Refund ==> view.adjustment.state != Some(Resolved))
    && (plan == Monthly ==> view.subscription.Some? && view.invoice.Some? && ValidInvoice(view.invoice.value))
    && (plan == Monthly && view.adjustment.state == Some(Resolved) ==>
          view.initial.Some? && ValidInvoice(view.initial.value) && view.latest.Some?
            && ValidInvoice(view.latest.value))
  }

  /** What processMonthlyEvent has checked: a complete Session comes with its Subscription and latest Invoice,
      and with its first Invoice when the order had no license. */
  predicate HydratedMonthly(licensed: bool, view: MonthlySnapshot) {
    && (view.subscription.Some? <==> view.session.status == SessionComplete)
    && (view.latest.Some? <==> view.subscription.Some?)
    && (view.latest.Some? ==> ValidInvoice(view.latest.value))
    && (view.initial.Some? <==> view.subscription.Some? && !licensed)
    && (view.initial.Some? ==> ValidInvoice(view.initial.value))
  }

  // ----- refund and dispute status -----

  datatype RefundStatus = RefundSucceeded | RefundPending | RefundRequiresAction | RefundFailed | RefundCanceled

  datatype DisputeStatus =
    | NeedsResponse | UnderReview | Lost | Won | WarningClosed | Prevented | WarningNeedsResponse | WarningUnderReview

  datatype StripeObject =
    | RefundObject(refundStatus: RefundStatus, amount: int, chargeId: ChargeId, created: int)
    | DisputeObject(disputeStatus: DisputeStatus, amount: int, chargeId: ChargeId, created: int)

  function RetrieveAdjustment(id: ObjectId, source: StripeObject, charge: Charge)
    : Result<AdjustmentView, BillingError> {
    if source.amount <= 0 || source.created <= 0 || charge.amount <= 0 then Failure(InvalidAdjustment)
    else match source
      case RefundObject(status, amount, chargeId, created) =>
        var full := amount >= charge.amount;
        var state := if status == RefundSucceeded && full then Some(Blocking) else None;
        if amount > charge.amount then Failure(InvalidAdjustment)
        else if state == Some(Blocking) && (!charge.refunded || charge.amountRefunded < amount) then
          Failure(InvalidAdjustment)
        else Success(AdjustmentView(id, Refund, state, chargeId, created * SECOND, charge))
      case DisputeObject(status, _, chargeId, created) =>
        var state :=
          if status in {NeedsResponse, UnderReview, Lost} then Some(Blocking)
          else if status in {Won, WarningClosed, Prevented} then Some(Resolved)
          else None;
        Success(AdjustmentView(id, Dispute, state, chargeId, created * SECOND, charge))
  }

  /** Only a full refund that itself succeeded blocks, and never while its charge still counts as fully paid; a
      refund is never resolved, so nothing it blocked comes back. */
  lemma RefundsBlockOnlyInFull(id: ObjectId, source: StripeObject, charge: Charge)
    requires source.RefundObject?
    ensures var r := RetrieveAdjustment(id, source, charge);
            r.Success? ==>
              && r.value.effectiveAt > 0 && r.value.state in {None, Some(Blocking)}
              && (r.value.state == Some(Blocking)
                  <==> source.refundStatus == RefundSucceeded && source.amount == charge.amount)
              && (r.value.state == Some(Blocking) ==> !FullyPaid(r.value.charge))
  {
  }

  /** The dispute went the seller's way. */
  predicate WonBySeller(source: StripeObject) {
    source.DisputeObject? && source.disputeStatus in {Won, WarningClosed, Prevented}
  }

  /** The dispute is open or lost, or the refund succeeded. */
  predicate AgainstSeller(source: StripeObject, charge: Charge) {
    match source
    case DisputeObject(status, _, _, _) => status in {NeedsResponse, UnderReview, Lost}
    case RefundObject(status, amount, _, _) => status == RefundSucceeded && amount == charge.amount
  }

  /** An object is accepted exactly when its amount, time and charge make sense and a full refund shows on its
      charge. It blocks exactly when it goes against the seller, is resolved exactly when it is a dispute that did
      not, and else says nothing; its identity is Stripe's. */
  lemma StatusMeans(id: ObjectId, source: StripeObject, charge: Charge)
    ensures var r := RetrieveAdjustment(id, source, charge);
            && (r.Success? <==>
                  && source.amount > 0 && source.created > 0 && charge.amount > 0
                  && (source.RefundObject? ==>
                        && source.amount <= charge.amount
                        && (AgainstSeller(source, charge) ==>
                              charge.refunded && charge.amountRefunded >= source.amount)))
            && (r.Success? ==>
                  && (r.value.state == Some(Blocking) <==> AgainstSeller(source, charge))
                  && (r.value.state == Some(Resolved) <==> WonBySeller(source))
                  && (r.value.kind == Refund <==> source.RefundObject?)
                  && r.value.id == id && r.value.chargeId == source.chargeId && r.value.charge == charge
                  && UnixSeconds(r.value.effectiveAt) == source.created && r.value.effectiveAt % SECOND == 0)
  {
  }

  // ----- restrictions -----

  predicate AnyUnfinished(adjustments: map<ObjectId, Adjustment>) {
    exists a :: a in adjustments && (adjustments[a].pending || adjustments[a].cancelRequired)
  }

  predicate AnyCancelRequired(adjustments: map<ObjectId, Adjustment>) {
    exists a :: a in adjustments && adjustments[a].cancelRequired
  }

  predicate AnyBlocking(adjustments: map<ObjectId, Adjustment>) {
    exists a :: a in adjustments && adjustments[a].state == Blocking
  }

  predicate AnyBlockingRefund(adjustments: map<ObjectId, Adjustment>) {
    exists a :: a in adjustments && adjustments[a].state == Blocking && adjustments[a].kind == Refund
  }

  /** `min(effective_at)` over the blocking rows. */
  ghost predicate IsEarliestBlocking(t: Time, adjustments: map<ObjectId, Adjustment>) {
    && (exists a :: a in adjustments && adjustments[a].state == Blocking && adjustments[a].effectiveAt == t)
    && (forall a :: a in adjustments && adjustments[a].state == Blocking ==> t <= adjustments[a].effectiveAt)
  }

  ghost function EarliestBlocking(adjustments: map<ObjectId, Adjustment>): (t: Time)
    requires AnyBlocking(adjustments)
    ensures IsEarliestBlocking(t, adjustments)
  {
    var blocking := set a | a in adjustments && adjustments[a].state == Blocking;
    assert blocking != {} by {
      var a :| a in adjustments && adjustments[a].state == Blocking;
      assert a in blocking;
    }
    EarliestExists(adjustments, blocking);
    var a :| a in blocking && forall b :: b in blocking ==> adjustments[a].effectiveAt <= adjustments[b].effectiveAt;
    assert IsEarliestBlocking(adjustments[a].effectiveAt, adjustments);
    var t :| IsEarliestBlocking(t, adjustments);
    t
  }

  lemma {:induction false} EarliestExists(adjustments: map<ObjectId, Adjustment>, blocking: set<ObjectId>)
    requires blocking <= adjustments.Keys && blocking != {}
    requires forall a :: a in blocking ==> adjustments[a].state == Blocking
    ensures exists a :: a in blocking && forall b :: b in blocking ==>
              adjustments[a].effectiveAt <= adjustments[b].effectiveAt
  {
    var a :| a in blocking;
    var rest := blocking - {a};
    if rest == {} {
      assert blocking == {a} + rest;
    } else {
      EarliestExists(adjustments, rest);
      var c :| c in rest && forall b :: b in rest ==> adjustments[c].effectiveAt <= adjustments[b].effectiveAt;
      var least := if adjustments[a].effectiveAt <= adjustments[c].effectiveAt then a else c;
      assert forall b :: b in blocking ==> b == a || b in rest;
      assert least in blocking && forall b :: b in blocking ==>
               adjustments[least].effectiveAt <= adjustments[b].effectiveAt;
    }
  }

  /** Prepared work must finish first; an applied restriction prevents late fulfilment. */
  function BillingRestriction(adjustments: map<ObjectId, Adjustment>): Result<bool, BillingError> {
    if AnyUnfinished(adjustments) then Failure(SnapshotChanged) else Success(AnyBlocking(adjustments))
  }

  // ----- writes -----

  function Bumped(order: Order): Order {
    order.(revision := order.revision + 1)
  }

  function Fulfil(rows: Rows, binding: Binding, licenseId: LicenseId, now: Time): Rows {
    var order := if rows.order.plan == PerpetualV1 then rows.order.(paymentId := Some(binding.paymentId))
                 else rows.order.(subscriptionId := Some(binding.subscriptionId));
    rows.(order := order.(state := OrderFulfilled, licenseId := Some(licenseId), fulfilledAt := Some(now)),
          licenses := rows.licenses[licenseId := LicenseActive])
  }

  function FulfilMonthly(rows: Rows, binding: Binding, licenseId: LicenseId, next: Projection, now: Time): Rows {
    var fulfilled := Fulfil(rows, binding, licenseId, now);
    fulfilled.(subscriptions := rows.subscriptions[licenseId := SubscriptionRow(next, None)])
  }

  datatype Applied = Applied(rows: Rows, outcome: Outcome)

  datatype Committed = Committed(rows: Rows, events: map<EventId, Event>, outcome: Option<Outcome>)

  function Complete(events: map<EventId, Event>, id: EventId, outcome: Outcome): map<EventId, Event> {
    if id in events then events[id := events[id].(outcome := Some(outcome))] else events
  }

  /** An ordinary writer's transaction: its event is completed and the order revision advanced with the writes. */
  function CommitApplied(applied: Result<Applied, BillingError>, events: map<EventId, Event>, event: EventId)
    : Result<Committed, BillingError>
  {
    match applied
    case Failure(e) => Failure(e)
    case Success(a) =>
      Success(Committed(a.rows.(order := Bumped(a.rows.order)), Complete(events, event, a.outcome), Some(a.outcome)))
  }

  // ----- perpetual Checkout (event.go) -----

  /** The ordinary perpetual commit relies on row state under the lock; it compares no revision. */
  ghost function CommitCheckout(rows: Rows, events: map<EventId, Event>, binding: Binding, event: EventId,
                                session: Session, newLicense: LicenseId, now: Time): Result<Committed, BillingError>
    requires event in events
  {
    if events[event].Processed() then Success(Committed(rows, events, None))
    else CommitApplied(ApplyCheckout(rows, binding, events[event].eventType, session, newLicense, now), events, event)
  }

  ghost function ApplyCheckout(rows: Rows, binding: Binding, eventType: EventType, session: Session,
                               newLicense: LicenseId, now: Time): Result<Applied, BillingError>
  {
    match BillingRestriction(rows.adjustments)
    case Failure(e) => Failure(e)
    case Success(true) => Success(Applied(rows, NoChange))
    case Success(false) =>
      if session.paid && session.chargeRefunded then Failure(InvalidPurchase)
      else if rows.order.state == OrderFulfilled then Success(Applied(rows, NoChange))
      else if session.paid then Success(Applied(Fulfil(rows, binding, newLicense, now), FulfilledOrder))
      else if session.status == SessionExpired then Failure(InvalidPurchase)
      else if eventType != CheckoutPaymentFailed then Success(Applied(rows, NoChange))
      else if rows.order.state == OrderPaid then Success(Applied(rows, MarkedFailed))
      else Success(Applied(rows.(order := rows.order.(state := OrderFailed)), MarkedFailed))
  }

  // ----- monthly reconciliation (monthly_event.go) -----

  ghost function CommitMonthly(rows: Rows, events: map<EventId, Event>, binding: Binding, event: EventId,
                               view: MonthlySnapshot, revision: nat, newLicense: LicenseId, now: Time)
    : Result<Committed, BillingError>
    requires event in events
  {
    if events[event].Processed() then Success(Committed(rows, events, None))
    else if rows.order.revision != revision then Failure(SnapshotChanged)
    else CommitApplied(ApplyMonthlyPurchase(rows, binding, events[event].eventType, view, newLicense, now), events,
                       event)
  }

  ghost function ApplyMonthlyPurchase(rows: Rows, binding: Binding, eventType: EventType, view: MonthlySnapshot,
                                      newLicense: LicenseId, now: Time): Result<Applied, BillingError>
  {
    match BillingRestriction(rows.adjustments)
    case Failure(e) => Failure(e)
    case Success(true) => Success(Applied(rows, NoChange))
    case Success(false) =>
      if rows.order.licenseId.Some? then ReconcileLicensed(rows, view, now)
      else if view.subscription.Some? && view.initial.None? then Failure(NilDereference)
      else if FulfilsMonthly(view) then IssueReconciled(rows, binding, view, newLicense, now)
      else Success(RecordUnpaid(rows, binding, eventType, view))
  }

  ghost function ReconcileLicensed(rows: Rows, view: MonthlySnapshot, now: Time): Result<Applied, BillingError>
    requires rows.order.licenseId.Some?
  {
    var id := rows.order.licenseId.value;
    if id !in rows.licenses then Failure(MissingRow)
    else if view.subscription.None? then Failure(InvalidPurchase)
    else if rows.licenses[id] != LicenseActive then Success(Applied(rows, NoChange))
    else if id !in rows.subscriptions then Failure(MissingRow)
    else if view.latest.None? then Failure(InvalidPurchase)
    else
      var previous := rows.subscriptions[id].projection;
      match ReconcileSubscription(previous, view.subscription.value, view.latest.value.id,
                                  PaidPeriodEnd(view.latest.value), now)
      case Failure(_) => Failure(InvalidPurchase)
      case Success(next) =>
        var outcome := if next == previous then NoChange else Projected(next.state);
        var row := rows.subscriptions[id].(projection := next);
        Success(Applied(rows.(subscriptions := rows.subscriptions[id := row]), outcome))
  }

  predicate PaidCancellation(subscription: StripeSubscription) {
    subscription.status == StripeCanceled && subscription.cancellation == Some(CancellationRequested)
  }

  predicate FulfilsMonthly(view: MonthlySnapshot) {
    && view.subscription.Some? && view.initial.Some?
    && view.initial.value.status == InvoicePaid
    && (view.subscription.value.status == StripeActive || PaidCancellation(view.subscription.value))
  }

  ghost function IssueReconciled(rows: Rows, binding: Binding, view: MonthlySnapshot, newLicense: LicenseId, now: Time)
    : Result<Applied, BillingError>
    requires FulfilsMonthly(view)
  {
    var initialEnd := PaidPeriodEnd(view.initial.value);
    if view.latest.None? then Failure(InvalidPurchase)
    else if PaidCancellation(view.subscription.value) && now >= initialEnd then Success(Applied(rows, NoChange))
    else
      var previous := Projection(BillingUnset, initialEnd, initialEnd + RECOVERY_WINDOW, view.initial.value.id);
      match ReconcileSubscription(previous, view.subscription.value, view.latest.value.id,
                                  PaidPeriodEnd(view.latest.value), now)
      case Failure(_) => Failure(InvalidPurchase)
      case Success(next) => Success(Applied(FulfilMonthly(rows, binding, newLicense, next, now), FulfilledOrder))
  }

  ghost function RecordUnpaid(rows: Rows, binding: Binding, eventType: EventType, view: MonthlySnapshot): Applied {
    var failed :=
      || view.session.status == SessionExpired || eventType == CheckoutPaymentFailed
      || (view.subscription.Some? && view.subscription.value.status
          in {StripeCanceled, StripeIncompleteExpired, StripeUnpaid});
    var order := rows.order.(
      state := if failed then OrderFailed else rows.order.state,
      subscriptionId := if view.subscription.Some? then Some(binding.subscriptionId) else None);
    Applied(rows.(order := order), if failed then MarkedFailed else NoChange)
  }

  // ----- adjustments (adjustment_event.go) -----

  datatype Prepared = Prepared(rows: Rows, events: map<EventId, Event>, done: bool)

  /** The state an adjustment is prepared with: Stripe's, or the stored one of unfinished work. */
  function PreparedState(adjustments: map<ObjectId, Adjustment>, a: AdjustmentView): Option<AdjustmentState> {
    if a.state.Some? then a.state
    else if a.id in adjustments && (adjustments[a.id].pending || adjustments[a.id].cancelRequired) then
      Some(adjustments[a.id].state)
    else None
  }

  /** The row that the insert-or-keep leaves. */
  function StoredAdjustment(rows: Rows, a: AdjustmentView, state: AdjustmentState, now: Time): Adjustment {
    if a.id in rows.adjustments then rows.adjustments[a.id]
    else
      var cancel := state == Blocking && rows.order.plan == Monthly;
      Adjustment(a.kind, a.chargeId, state, true, cancel, a.effectiveAt, now)
  }

  ghost function PrepareAdjustment(rows: Rows, events: map<EventId, Event>, event: EventId, a: AdjustmentView,
                                   revision: nat, now: Time): Result<Prepared, BillingError>
    requires event in events
  {
    if events[event].Processed() then Success(Prepared(rows, events, true))
    else if rows.order.revision != revision then Failure(SnapshotChanged)
    else
      var state := PreparedState(rows.adjustments, a);
      var bumped := rows.(order := Bumped(rows.order));
      if state.None? then Success(Prepared(bumped, Complete(events, event, NoChange), true))
      else
        var stored := StoredAdjustment(rows, a, state.value, now);
        if stored.kind != a.kind || stored.chargeId != a.chargeId || stored.effectiveAt != a.effectiveAt then
          Failure(InvalidAdjustment)
        else if stored.state == state.value && !stored.pending && !stored.cancelRequired then
          Success(Prepared(bumped, Complete(events, event, NoChange), true))
        else
          var cancel := stored.cancelRequired || (state.value == Blocking && rows.order.plan == Monthly);
          var intent := stored.(state := state.value, pending := true, cancelRequired := cancel, updatedAt := now);
          Success(Prepared(bumped.(adjustments := rows.adjustments[a.id := intent]), events, false))
  }

  /** The adjustment rows as commitAdjustment leaves them. */
  ghost function SettledAdjustments(rows: Rows, view: AdjustmentSnapshot, now: Time): map<ObjectId, Adjustment>
    requires rows.order.plan == Monthly ==> view.subscription.Some?
  {
    var a := view.adjustment;
    var ended := rows.order.plan == Monthly && !CanBill(view.subscription.value);
    map id | id in rows.adjustments ::
      var row := rows.adjustments[id];
      var own := if id != a.id then row
                 else row.(pending := false, updatedAt := now, state := a.state.UnwrapOr(row.state));
      if ended then own.(cancelRequired := false) else own
  }

  ghost function CommitAdjustment(rows: Rows, events: map<EventId, Event>, binding: Binding, event: EventId,
                                  view: AdjustmentSnapshot, revision: nat, newLicense: LicenseId, now: Time)
    : Result<Committed, BillingError>
    requires event in events
    requires Hydrated(rows.order.plan, view)
  {
    if events[event].Processed() then Success(Committed(rows, events, None))
    else if rows.order.revision != revision then Failure(SnapshotChanged)
    else
      var settled := rows.(adjustments := SettledAdjustments(rows, view, now));
      CommitApplied(ApplyAdjustments(settled, binding, view, newLicense, now), events, event)
  }

  ghost function ApplyAdjustments(rows: Rows, binding: Binding, view: AdjustmentSnapshot, newLicense: LicenseId,
                                  now: Time)
    : Result<Applied, BillingError>
    requires Hydrated(rows.order.plan, view)
  {
    var id := rows.order.licenseId;
    if id.Some? && id.value !in rows.licenses then Failure(MissingRow)
    else if id.Some? && rows.licenses[id.value] == LicenseRevoked then Success(Applied(rows, NoChange))
    else if id.Some? && rows.order.plan == Monthly && id.value !in rows.subscriptions then Failure(MissingRow)
    else if AnyBlocking(rows.adjustments) then
      if rows.order.plan == Monthly && CanBill(view.subscription.value) then Success(Applied(rows, NoChange))
      else Success(Restrict(rows, binding, now))
    else Restore(rows, binding, view, newLicense, now)
  }

  ghost function Restrict(rows: Rows, binding: Binding, now: Time): Applied
    requires AnyBlocking(rows.adjustments)
    requires rows.order.licenseId.Some? ==> rows.order.licenseId.value in rows.licenses
    requires rows.order.licenseId.Some? && rows.order.plan == Monthly ==>
               rows.order.licenseId.value in rows.subscriptions
  {
    var state := if AnyBlockingRefund(rows.adjustments) then LicenseRefunded else LicenseChargedBack;
    if rows.order.licenseId.None? then
      var order := if rows.order.plan == Monthly
                   then rows.order.(paymentId := None, subscriptionId := Some(binding.subscriptionId))
                   else rows.order.(paymentId := Some(binding.paymentId), subscriptionId := None);
      Applied(rows.(order := order.(state := OrderFailed)), Restricted(state))
    else
      var id := rows.order.licenseId.value;
      if rows.licenses[id] == LicenseRefunded && state != LicenseRefunded then Applied(rows, NoChange)
      else
        var restricted := rows.(licenses := rows.licenses[id := state]);
        if rows.order.plan == PerpetualV1 then Applied(restricted, Restricted(state))
        else
          var row := rows.subscriptions[id];
          var effectiveAt := EarliestBlocking(rows.adjustments);
          var terminalAt := Min(Min(row.terminalAt.UnwrapOr(effectiveAt), effectiveAt), row.projection.recoveryUntil);
          Applied(restricted.(subscriptions := rows.subscriptions[id := row.(terminalAt := Some(terminalAt))]),
                  Restricted(state))
  }

  predicate FullyPaid(charge: Charge) {
    charge.paid && !charge.refunded && charge.amountRefunded < charge.amount
  }

  ghost function Restore(rows: Rows, binding: Binding, view: AdjustmentSnapshot, newLicense: LicenseId, now: Time)
    : Result<Applied, BillingError>
    requires Hydrated(rows.order.plan, view)
    requires rows.order.licenseId.Some? ==> rows.order.licenseId.value in rows.licenses
    requires rows.order.licenseId.Some? && rows.order.plan == Monthly ==>
               rows.order.licenseId.value in rows.subscriptions
  {
    var id := rows.order.licenseId;
    var state := if id.Some? then Some(rows.licenses[id.value]) else None;
    if view.adjustment.state != Some(Resolved) || state == Some(LicenseRefunded)
       || (state == Some(LicenseActive) && rows.order.plan == PerpetualV1) || !FullyPaid(view.adjustment.charge) then
      Success(Applied(rows, NoChange))
    else if rows.order.plan == PerpetualV1 then
      if id.None? then Success(Applied(Fulfil(rows, binding, newLicense, now), FulfilledOrder))
      else if state == Some(LicenseRevoked) then Success(Applied(rows, NoChange))
      else Success(Applied(rows.(licenses := rows.licenses[id.value := LicenseActive]), Restored))
    else
      var previous := if id.Some? then rows.subscriptions[id.value].projection else ZERO_PROJECTION;
      match RestorationProjection(view, previous, now)
      case Failure(e) => Failure(e)
      case Success((next, eligible)) =>
        if !eligible && state != Some(LicenseActive) then Success(Applied(rows, NoChange))
        else if id.None? then Success(Applied(FulfilMonthly(rows, binding, newLicense, next, now), FulfilledOrder))
        else if state.value !in {LicenseChargedBack, LicenseActive} then Success(Applied(rows, NoChange))
        else
          Success(Applied(rows.(licenses := rows.licenses[id.value := LicenseActive],
                                subscriptions := rows.subscriptions[id.value := SubscriptionRow(next, None)]),
                          Restored))
  }

  /** Each of a snapshot's invoices may advance the paid period. */
  function AdvanceAll(previous: Projection, invoices: seq<Invoice>): Projection {
    if invoices == [] then previous
    else
      var before, last := AdvanceAll(previous, invoices[..|invoices| - 1]), invoices[|invoices| - 1];
      AdvancePaidPeriod(before, last.id, PaidPeriodEnd(last))
  }

  /** The restored projection, and whether it grants access at all. */
  function RestorationProjection(view: AdjustmentSnapshot, previous: Projection, now: Time)
    : Result<(Projection, bool), BillingError>
    requires view.subscription.Some?
  {
    var subscription := view.subscription.value;
    if view.initial.None? || view.initial.value.status != InvoicePaid then Success((previous, false))
    else if subscription.status !in {StripeActive, StripePastDue, StripeUnpaid, StripeCanceled} then
      Success((previous, false))
    else if view.invoice.None? || view.latest.None? then Failure(InvalidPurchase)
    else
      var latest := view.latest.value;
      var advanced := AdvanceAll(previous, [view.initial.value, view.invoice.value, latest]);
      match ReconcileSubscription(advanced, subscription, latest.id, PaidPeriodEnd(latest), now)
      case Failure(_) => Failure(InvalidPurchase)
      case Success(next) =>
        var capped := if subscription.status == StripeCanceled then next.(recoveryUntil := next.periodEnd) else next;
        Success((capped, now < capped.recoveryUntil + GRACE_PERIOD))
  }
}
