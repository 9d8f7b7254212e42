/** internal/billing/subscription.go: the projection of Stripe's subscription into stored monthly terms,
    and what folding it over any history of observations guarantees. */
module Subscription {
  import opened Basics

  type InvoiceId = string

  datatype StripeStatus =
    | StripeActive | StripePastDue | StripeUnpaid | StripeCanceled
    | StripeIncomplete | StripeIncompleteExpired | StripeTrialing | StripePaused

  datatype CancelReason = CancellationRequested | PaymentFailed | PaymentDisputed | OtherReason

  datatype StripeSubscription = StripeSubscription(
    status: StripeStatus,
    cancelAtPeriodEnd: bool,
    cancellation: Option<CancelReason>)

  datatype InvoiceStatus = InvoicePaid | InvoiceDraft | InvoiceOpen | InvoiceVoid | InvoiceUncollectible

  /** An invoice that passed the field checks: one line of service, ending at `lineEnd`. */
  datatype Invoice = Invoice(id: InvoiceId, status: InvoiceStatus, lineEnd: Time)

  /** Validated invoices have a Stripe ID and a line that ends after a positive start. */
  predicate ValidInvoice(invoice: Invoice) {
    invoice.id != "" && invoice.lineEnd > 0
  }

  /** Billing states of a stored row and of a signed entitlement; `BillingUnset` is Go's empty string. */
  datatype BillingState =
    | BillingUnset | BillingActive | BillingRecovering | BillingEnding | BillingLapsed
    | BillingRefunded | BillingChargedBack

  datatype Projection = Projection(
    state: BillingState, periodEnd: Time, recoveryUntil: Time, lastPaidInvoice: InvoiceId)

  const ZERO_PROJECTION := Projection(BillingUnset, ZERO_TIME, ZERO_TIME, "")

  datatype SubscriptionError = InvalidSubscription

  predicate CanBill(subscription: StripeSubscription) {
    subscription.status != StripeCanceled && subscription.status != StripeIncompleteExpired
  }

  /** Only a paid invoice describes service that was paid for. */
  function PaidPeriodEnd(invoice: Invoice): Time {
    if invoice.status == InvoicePaid then invoice.lineEnd else ZERO_TIME
  }

  function AdvancePaidPeriod(previous: Projection, invoiceId: InvoiceId, paidEnd: Time): Projection {
    if paidEnd > previous.periodEnd && invoiceId != previous.lastPaidInvoice then
      previous.(periodEnd := paidEnd, lastPaidInvoice := invoiceId, recoveryUntil := paidEnd + RECOVERY_WINDOW)
    else previous
  }

  function ApplyStatus(next: Projection, subscription: StripeSubscription, now: Time)
    : Result<Projection, SubscriptionError>
  {
    var window := next.periodEnd + RECOVERY_WINDOW;
    match subscription.status
    case StripeActive =>
      if subscription.cancelAtPeriodEnd then
        Success(next.(state := BillingEnding, recoveryUntil := next.periodEnd))
      else if now < next.periodEnd then
        Success(next.(state := BillingActive, recoveryUntil := window))
      else
        Success(next.(state := BillingRecovering, recoveryUntil := Max(next.recoveryUntil, window)))
    case StripePastDue =>
      if subscription.cancelAtPeriodEnd then
        Success(next.(state := BillingEnding, recoveryUntil := next.periodEnd))
      else
        Success(next.(state := BillingRecovering, recoveryUntil := Max(next.recoveryUntil, window)))
    case StripeUnpaid => Success(next.(state := BillingLapsed))
    case StripeCanceled =>
      (match subscription.cancellation
       case None => Failure(InvalidSubscription)
       case Some(CancellationRequested) =>
         Success(next.(state := BillingLapsed, recoveryUntil := next.periodEnd))
       case Some(PaymentFailed) => Success(next.(state := BillingLapsed))
       case Some(PaymentDisputed) => Success(next.(state := BillingLapsed))
       case Some(OtherReason) => Failure(InvalidSubscription))
    case _ => Failure(InvalidSubscription)
  }

  function ReconcileSubscription(previous: Projection, subscription: StripeSubscription, invoiceId: InvoiceId,
                                 paidEnd: Time, now: Time)
    : Result<Projection, SubscriptionError>
  {
    match ApplyStatus(AdvancePaidPeriod(previous, invoiceId, paidEnd), subscription, now)
    case Failure(e) => Failure(e)
    case Success(next) =>
      if next.state == BillingEnding && now >= next.periodEnd then Success(next.(state := BillingLapsed))
      else Success(next)
  }

  // ----- what every stored row satisfies -----

  /** The table of states and deadlines the billing documentation gives for a stored row. */
  predicate ValidProjection(p: Projection) {
    && p.state in {BillingActive, BillingRecovering, BillingEnding, BillingLapsed}
    && p.periodEnd > 0
    && p.lastPaidInvoice != ""
    && (p.recoveryUntil == p.periodEnd || p.recoveryUntil == p.periodEnd + RECOVERY_WINDOW)
    && (p.state in {BillingActive, BillingRecovering} ==> p.recoveryUntil == p.periodEnd + RECOVERY_WINDOW)
    && (p.state == BillingEnding ==> p.recoveryUntil == p.periodEnd)
  }

  /** A row being built: it has a paid period, but no state yet. */
  predicate HasPaidPeriod(p: Projection) {
    && p.periodEnd > 0
    && p.lastPaidInvoice != ""
    && (p.recoveryUntil == p.periodEnd || p.recoveryUntil == p.periodEnd + RECOVERY_WINDOW)
  }

  /** Reconciling keeps the documented table, whatever Stripe answers and whenever it is asked. */
  lemma ReconcileKeepsTable(previous: Projection, subscription: StripeSubscription, invoice: Invoice, now: Time)
    requires HasPaidPeriod(previous) && ValidInvoice(invoice)
    ensures var r := ReconcileSubscription(previous, subscription, invoice.id, PaidPeriodEnd(invoice), now);
            r.Success? ==>
              && ValidProjection(r.value)
              && r.value.periodEnd >= previous.periodEnd
              && r.value.recoveryUntil <= r.value.periodEnd + RECOVERY_WINDOW
              && (r.value.state == BillingActive ==> now < r.value.periodEnd)
              && (r.value.state == BillingEnding ==> now < r.value.periodEnd)
              && (CanBill(subscription) && subscription.cancelAtPeriodEnd && subscription.status != StripeUnpaid ==>
                    r.value.recoveryUntil == r.value.periodEnd)
  {
  }

  /** An unpaid observation never extends the paid period; nor does a replay of the last paid invoice,
      even one whose line changed. */
  lemma OnlyANewPaidInvoiceExtends(previous: Projection, subscription: StripeSubscription, invoice: Invoice, now: Time)
    requires HasPaidPeriod(previous)
    ensures var r := ReconcileSubscription(previous, subscription, invoice.id, PaidPeriodEnd(invoice), now);
            r.Success? && r.value.periodEnd != previous.periodEnd ==>
              && invoice.status == InvoicePaid
              && invoice.id != previous.lastPaidInvoice
              && r.value.periodEnd == invoice.lineEnd > previous.periodEnd
              && r.value.lastPaidInvoice == invoice.id
  {
  }

  // ----- convergence over histories of observations -----

  datatype Observation = Observation(subscription: StripeSubscription, invoice: Invoice, now: Time)

  /** The statuses a reconciliation accepts; any other rolls its transaction back. */
  predicate Accepted(subscription: StripeSubscription) {
    || subscription.status in {StripeActive, StripePastDue, StripeUnpaid}
    || (subscription.status == StripeCanceled && subscription.cancellation.Some?
        && subscription.cancellation.value != OtherReason)
  }

  function Observe(row: Projection, o: Observation): Projection {
    match ReconcileSubscription(row, o.subscription, o.invoice.id, PaidPeriodEnd(o.invoice), o.now)
    case Success(next) => next
    case Failure(_) => row
  }

  function ObserveAll(row: Projection, history: seq<Observation>): Projection {
    if history == [] then row
    else Observe(ObserveAll(row, history[..|history| - 1]), history[|history| - 1])
  }

  /** The ends of the service periods a history shows as paid and could act on. */
  ghost function PaidEnds(history: seq<Observation>): set<Time> {
    set o | o in history && Accepted(o.subscription) && o.invoice.status == InvoicePaid :: o.invoice.lineEnd
  }

  /** A paid invoice's line period is fixed: `ends` gives it. */
  ghost predicate FixedPeriods(ends: InvoiceId -> Time, row: Projection, history: seq<Observation>) {
    && HasPaidPeriod(row) && ends(row.lastPaidInvoice) == row.periodEnd
    && forall o | o in history ::
         ValidInvoice(o.invoice) && (o.invoice.status == InvoicePaid ==> o.invoice.lineEnd == ends(o.invoice.id))
  }

  ghost predicate IsMaximum(t: Time, row: Projection, paid: set<Time>) {
    && (t == row.periodEnd || t in paid)
    && t >= row.periodEnd
    && forall u | u in paid :: u <= t
  }

  /** After any history the stored period end is the greatest paid line end seen: no more and no less. */
  lemma {:induction false} PeriodEndIsMaximumPaid(ends: InvoiceId -> Time, row: Projection, history: seq<Observation>)
    requires FixedPeriods(ends, row, history)
    ensures var last := ObserveAll(row, history);
            && HasPaidPeriod(last)
            && ends(last.lastPaidInvoice) == last.periodEnd
            && IsMaximum(last.periodEnd, row, PaidEnds(history))
    decreases |history|
  {
    if history != [] {
      var before, o := history[..|history| - 1], history[|history| - 1];
      PeriodEndIsMaximumPaid(ends, row, before);
      ObservedEnd(ends, ObserveAll(row, before), o);
      assert history == before + [o];
      PaidEndsSplit(before, o);
    }
  }

  function PaidEndOf(o: Observation): set<Time> {
    if Accepted(o.subscription) && o.invoice.status == InvoicePaid then {o.invoice.lineEnd} else {}
  }

  lemma PaidEndsSplit(before: seq<Observation>, o: Observation)
    ensures PaidEnds(before + [o]) == PaidEnds(before) + PaidEndOf(o)
  {
  }

  lemma ObservedEnd(ends: InvoiceId -> Time, row: Projection, o: Observation)
    requires HasPaidPeriod(row) && ends(row.lastPaidInvoice) == row.periodEnd && ValidInvoice(o.invoice)
    requires o.invoice.status == InvoicePaid ==> o.invoice.lineEnd == ends(o.invoice.id)
    ensures var next := Observe(row, o);
            HasPaidPeriod(next) && ends(next.lastPaidInvoice) == next.periodEnd
              && IsMaximum(next.periodEnd, row, PaidEndOf(o))
  {
  }

  /** Reordering or repeating observations of the same paid invoices cannot change the paid period. */
  lemma ReorderingKeepsPeriodEnd(ends: InvoiceId -> Time, row: Projection, xs: seq<Observation>, ys: seq<Observation>)
    requires FixedPeriods(ends, row, xs) && FixedPeriods(ends, row, ys)
    requires PaidEnds(xs) == PaidEnds(ys)
    ensures ObserveAll(row, xs).periodEnd == ObserveAll(row, ys).periodEnd
  {
    PeriodEndIsMaximumPaid(ends, row, xs);
    PeriodEndIsMaximumPaid(ends, row, ys);
  }

  /** Observations that fix the recovery deadline themselves, whatever was stored before. */
  predicate Deciding(subscription: StripeSubscription) {
    || subscription.status in {StripeActive, StripePastDue}
    || (subscription.status == StripeCanceled && subscription.cancellation == Some(CancellationRequested))
  }

  /** Two histories of the same paid invoices that end in the same deciding observation agree on the
      state, the paid period and the recovery deadline. */
  lemma HistoriesConverge(ends: InvoiceId -> Time, row: Projection, xs: seq<Observation>, ys: seq<Observation>,
                          last: Observation)
    requires FixedPeriods(ends, row, xs + [last]) && FixedPeriods(ends, row, ys + [last])
    requires PaidEnds(xs + [last]) == PaidEnds(ys + [last])
    requires Deciding(last.subscription)
    ensures var a, b := ObserveAll(row, xs + [last]), ObserveAll(row, ys + [last]);
            a.state == b.state && a.periodEnd == b.periodEnd && a.recoveryUntil == b.recoveryUntil
  {
    ReorderingKeepsPeriodEnd(ends, row, xs + [last], ys + [last]);
    DecidingObservation(ends, row, xs, last);
    DecidingObservation(ends, row, ys, last);
  }

  /** The state and deadline a deciding observation leaves, as a function of the paid period alone. */
  lemma DecidingObservation(ends: InvoiceId -> Time, row: Projection, xs: seq<Observation>, last: Observation)
    requires FixedPeriods(ends, row, xs + [last]) && Deciding(last.subscription)
    ensures var r := ObserveAll(row, xs + [last]);
            var ending := last.subscription.status == StripeCanceled || last.subscription.cancelAtPeriodEnd;
            && r.recoveryUntil == (if ending then r.periodEnd else r.periodEnd + RECOVERY_WINDOW)
            && r.state ==
               (if last.subscription.status == StripeCanceled then BillingLapsed
                else if ending then (if last.now < r.periodEnd then BillingEnding else BillingLapsed)
                else if last.subscription.status == StripeActive && last.now < r.periodEnd then BillingActive
                else BillingRecovering)
  {
    assert (xs + [last])[..|xs|] == xs;
    assert forall o | o in xs :: o in xs + [last];
    PeriodEndIsMaximumPaid(ends, row, xs);
  }

  /** Exhausted retries keep the deadline that was there. So two histories of the same payments that end in the
      same observation agree on state, paid period and deadline exactly when that observation decides the
      deadline itself, or they agreed before, or it shows a newly paid period. */
  lemma HistoriesConvergeIff(ends: InvoiceId -> Time, row: Projection, xs: seq<Observation>, ys: seq<Observation>,
                             last: Observation)
    requires FixedPeriods(ends, row, xs + [last]) && FixedPeriods(ends, row, ys + [last])
    requires PaidEnds(xs) == PaidEnds(ys) && Accepted(last.subscription)
    ensures var before, before' := ObserveAll(row, xs), ObserveAll(row, ys);
            var a, b := ObserveAll(row, xs + [last]), ObserveAll(row, ys + [last]);
            (a.state == b.state && a.periodEnd == b.periodEnd && a.recoveryUntil == b.recoveryUntil)
            <==> Deciding(last.subscription) || before.recoveryUntil == before'.recoveryUntil
                 || PaidPeriodEnd(last.invoice) > before.periodEnd
  {
    assert forall o | o in xs :: o in xs + [last];
    assert forall o | o in ys :: o in ys + [last];
    assert last in xs + [last];
    ReorderingKeepsPeriodEnd(ends, row, xs, ys);
    PeriodEndIsMaximumPaid(ends, row, xs);
    PeriodEndIsMaximumPaid(ends, row, ys);
    assert (xs + [last])[..|xs|] == xs && (ys + [last])[..|ys|] == ys;
    assert ObserveAll(row, xs + [last]) == Observe(ObserveAll(row, xs), last);
    assert ObserveAll(row, ys + [last]) == Observe(ObserveAll(row, ys), last);
    hide ObserveAll;
    if Deciding(last.subscription) {
      PaidEndsSplit(xs, last);
      PaidEndsSplit(ys, last);
      HistoriesConverge(ends, row, xs, ys, last);
    } else {
      KeptDeadlinesAgreeIff(ends, ObserveAll(row, xs), ObserveAll(row, ys), last);
    }
  }

  lemma KeptDeadlinesAgreeIff(ends: InvoiceId -> Time, p: Projection, q: Projection, o: Observation)
    requires HasPaidPeriod(p) && HasPaidPeriod(q) && p.periodEnd == q.periodEnd
    requires ends(p.lastPaidInvoice) == p.periodEnd && ends(q.lastPaidInvoice) == q.periodEnd
    requires ValidInvoice(o.invoice) && (o.invoice.status == InvoicePaid ==> o.invoice.lineEnd == ends(o.invoice.id))
    requires Accepted(o.subscription) && !Deciding(o.subscription)
    ensures Observe(p, o).recoveryUntil == Observe(q, o).recoveryUntil
            <==> p.recoveryUntil == q.recoveryUntil || PaidPeriodEnd(o.invoice) > p.periodEnd
    ensures Observe(p, o).state == Observe(q, o).state && Observe(p, o).periodEnd == Observe(q, o).periodEnd
  {
  }

  /** Such histories exist: the same two past-due observations in either order, then exhausted retries. */
  lemma UnpaidHistoriesDiffer() returns (row: Projection, xs: seq<Observation>, ys: seq<Observation>)
    ensures FixedPeriods(_ => 40 * DAY, row, xs) && FixedPeriods(_ => 40 * DAY, row, ys)
    ensures |xs| == |ys| == 3 && multiset(xs) == multiset(ys) && xs[2] == ys[2]
    ensures PaidEnds(xs) == PaidEnds(ys)
    ensures ObserveAll(row, xs).recoveryUntil != ObserveAll(row, ys).recoveryUntil
  {
    row := Projection(BillingActive, 40 * DAY, 54 * DAY, "in_1");
    var invoice := Invoice("in_1", InvoicePaid, 40 * DAY);
    var late := Observation(StripeSubscription(StripePastDue, false, None), invoice, 41 * DAY);
    var ending := Observation(StripeSubscription(StripePastDue, true, None), invoice, 41 * DAY);
    var last := Observation(StripeSubscription(StripeUnpaid, false, None), invoice, 42 * DAY);
    xs, ys := [late, ending, last], [ending, late, last];
    ObserveThree(row, late, ending, last);
    ObserveThree(row, ending, late, last);
    hide ObserveAll, ReconcileSubscription;
    assert PaidEnds(xs) == PaidEnds(ys) by {
      assert forall o :: o in xs <==> o in ys;
    }
  }

  lemma ObserveThree(row: Projection, a: Observation, b: Observation, c: Observation)
    ensures ObserveAll(row, [a, b, c]) == Observe(Observe(Observe(row, a), b), c)
  {
    assert [a, b, c][..2] == [a, b] && [a, b][..1] == [a] && [a][..0] == [];
    assert ObserveAll(row, [a]) == Observe(row, a);
    assert ObserveAll(row, [a, b]) == Observe(ObserveAll(row, [a]), b);
  }
}
