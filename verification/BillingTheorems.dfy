/** The promises of the billing protocol, over every run of every interleaving. */
module BillingTheorems {
  import opened Basics
  import opened Subscription
  import opened Entitlement
  import opened BillingRows
  import opened BillingProtocol
  import opened BillingInvariant
  import opened BillingRun
  import opened BillingSteps
  import opened BillingSerial
  import opened BillingTransitions
  import opened BillingEvidence

  // ----- no stale overwrite -----

  /** What a monthly transaction applies when it commits: values current since its first read, and rows in
      which nothing but an operator's revocation has happened since. */
  lemma MonthlyCommitIsFresh(w: World, k: AttemptId, newLicense: LicenseId)
    requires Inv(w) && WellFormed(w) && Enabled(w, FinishMonthly(k, newLicense))
    requires |Next(w, FinishMonthly(k, newLicense)).log| > |w.log|
    ensures SawMonthly(w.history, w.attempts[k].ctx.observedFrom, w.attempts[k].monthly)
    ensures OnlyRevoked(w.attempts[k].ctx.base, w.rows)
    ensures forall i :: 0 <= i < |w.log| && w.log[i].attempt != k ==> w.log[i].at < w.attempts[k].ctx.observedFrom
  {
    hide RowsInv, EventsInv, HistoryInv, ApplyMonthlyPurchase;
    assert AttemptInv(w, k) && UpToDate(w, w.attempts[k]);
  }

  lemma AdjustmentCommitIsFresh(w: World, k: AttemptId, newLicense: LicenseId)
    requires Inv(w) && WellFormed(w) && Enabled(w, FinishAdjustment(k, newLicense))
    requires |Next(w, FinishAdjustment(k, newLicense)).log| > |w.log|
    ensures SawSnapshot(w.history, w.attempts[k].ctx.observedFrom, w.attempts[k].view)
    ensures OnlyRevoked(w.attempts[k].ctx.base, w.rows)
    ensures forall i :: 0 <= i < |w.log| && w.log[i].attempt != k ==> w.log[i].at < w.attempts[k].ctx.observedFrom
  {
    hide RowsInv, EventsInv, HistoryInv, ApplyAdjustments, SettledAdjustments;
    assert AttemptInv(w, k) && UpToDate(w, w.attempts[k]);
  }

  /** The revision check leaves no nil invoice to dereference and no missing row. */
  lemma MonthlyCommitNeverPanics(w: World, k: AttemptId, newLicense: LicenseId)
    requires Inv(w) && k in w.attempts && w.attempts[k].MonthlyReady? && Typed(w, w.attempts[k])
    ensures var ctx := w.attempts[k].ctx;
            var r := CommitMonthly(w.rows, w.events, w.binding, ctx.event, w.attempts[k].monthly, ctx.revision,
                                   newLicense, ctx.now);
            r != Failure(NilDereference) && r != Failure(MissingRow)
  {
    hide RowsInv, EventsInv, HistoryInv, ApplyMonthlyPurchase;
    assert AttemptInv(w, k);
    var ctx, view := w.attempts[k].ctx, w.attempts[k].monthly;
    if UpToDate(w, w.attempts[k]) {
      SeenStaysPaid(w.history, ctx.observedFrom, view.initial);
      SeenStaysPaid(w.history, ctx.observedFrom, view.latest);
      MonthlyKeepsRows(w.rows, w.binding, Current(w), w.events[ctx.event].eventType, view, newLicense, ctx.now);
    }
  }

  // ----- restrictions -----

  /** Quiescent consistency: once no adjustment of the order is unfinished, every blocking row is in force.
      Indeed each row is, from the moment it is itself settled. */
  lemma SettledRestrictionsAreInForce(run: seq<World>, n: nat, a: ObjectId)
    requires Run(run) && n < |run|
    requires a in run[n].rows.adjustments && run[n].rows.adjustments[a].state == Blocking
    requires !AnyUnfinished(run[n].rows.adjustments) || !run[n].rows.adjustments[a].pending
    ensures var license := LicenseOf(run[n].rows);
            && license in {None, Some(LicenseRefunded), Some(LicenseChargedBack), Some(LicenseRevoked)}
            && (run[n].rows.adjustments[a].kind == Refund ==>
                  license in {None, Some(LicenseRefunded), Some(LicenseRevoked)})
  {
    RunKeepsInv(run, n);
    assert AdjustmentInv(run[n].rows.adjustments[a], a, run[n].rows.order.plan, LicenseOf(run[n].rows),
                         Current(run[n]));
  }

  /** A monthly license restricted by billing has a subscription that can no longer bill. */
  lemma RestrictedCannotBill(run: seq<World>, n: nat, l: LicenseId)
    requires Run(run) && n < |run| && run[n].rows.order.plan == Monthly
    requires l in run[n].rows.licenses && IsRestricted(run[n].rows.licenses[l])
    ensures run[n].history != [] && !CanBill(Current(run[n]).subscription)
  {
    RunKeepsInv(run, n);
  }

  /** The guard that leaves a blocked monthly order alone while it can bill is never taken: a transaction that
      finds a blocking row always holds a snapshot in which billing has ended. */
  lemma BlockedCommitHasEndedBilling(w: World, k: AttemptId)
    requires Inv(w) && k in w.attempts && w.attempts[k].AdjustmentReady? && Typed(w, w.attempts[k])
    requires w.rows.order.plan == Monthly && UpToDate(w, w.attempts[k])
    requires AnyBlocking(SettledAdjustments(w.rows, w.attempts[k].view, w.attempts[k].ctx.now))
    ensures !CanBill(w.attempts[k].view.subscription.value)
  {
    hide EventsInv, LogInv, HistoryInv, RowsInv, SawSnapshot, Faithful, AdjustmentInv, CanBill, Confirmed;
    assert AttemptInv(w, k);
    SeenIsFaithful(w.history, w.attempts[k].ctx.observedFrom, w.attempts[k].view);
    SettledRows(w.rows, w.binding, Current(w), w.attempts[k].view, w.attempts[k].ctx.now);
  }

  // ----- intent before effect -----

  /** Every call to cancel, and every cancellation on its way, was preceded by a committed row that calls for it;
      and as long as there is anything to cancel such a row is still there, even when the worker that asked for
      the cancellation is long gone. */
  lemma CancellationIsCalledFor(run: seq<World>, n: nat, k: AttemptId)
    requires Run(run) && n < |run|
    requires k in run[n].cancels || (k in run[n].attempts && run[n].attempts[k].AdjustmentCanceling?)
    ensures exists m :: 0 <= m < n && CallsForCancel(run[m].rows)
    ensures run[n].history != [] && (CanBill(Current(run[n]).subscription) ==> CallsForCancel(run[n].rows))
  {
    RunKeepsInv(run, n);
    if k !in run[n].cancels {
      assert AttemptInv(run[n], k);
    }
    IntentComesFirst(run, n, k);
  }

  predicate Cancels(w: World, k: AttemptId) {
    k in w.cancels || (k in w.attempts && w.attempts[k].AdjustmentCanceling?)
  }

  lemma {:induction false} IntentComesFirst(run: seq<World>, n: nat, k: AttemptId)
    requires Run(run) && n < |run| && Cancels(run[n], k)
    ensures exists m :: 0 <= m < n && CallsForCancel(run[m].rows)
    decreases n
  {
    hide Step, Cancels, CallsForCancel;
    NoneCancelsAtFirst(run[0], k);
    if n > 0 {
      if Cancels(run[n - 1], k) {
        IntentComesFirst(run, n - 1, k);
      } else {
        NewCancellation(run[n - 1], run[n], k);
      }
    }
  }

  lemma NoneCancelsAtFirst(w: World, k: AttemptId)
    requires Init(w)
    ensures !Cancels(w, k)
  {
  }

  lemma NewCancellation(w: World, w': World, k: AttemptId)
    requires Step(w, w') && !Cancels(w, k) && Cancels(w', k)
    ensures CallsForCancel(w.rows)
  {
    hide Enabled, Next, Cancels, CallsForCancel, WellFormed;
    var a :| Enabled(w, a) && w' == Next(w, a);
    CancelsOnlyByReading(w, a, k);
  }

  lemma CancelsOnlyByReading(w: World, a: Action, k: AttemptId)
    requires WellFormed(w) && Enabled(w, a) && !Cancels(w, k) && Cancels(Next(w, a), k)
    ensures CallsForCancel(w.rows)
  {
    hide PrepareStep, FinishMonthlyStep, FinishCheckoutStep, FinishAdjustmentStep, Hydrated, Returned, Startable,
         SawMonthly, HydratedMonthly, Evolves, ValidStripe, AnyCancelRequired, Started, EmptyRows;
    if Commits(a) {
      CommitsCancelNothing(w, a);
    }
  }

  lemma CommitsCancelNothing(w: World, a: Action)
    requires WellFormed(w) && Enabled(w, a) && Commits(a)
    ensures Next(w, a).cancels == w.cancels
    ensures forall k :: k in Next(w, a).attempts ==>
              k in w.attempts && (Next(w, a).attempts[k] == w.attempts[k] || Next(w, a).attempts[k].AdjustmentPrepared?)
  {
    hide PrepareAdjustment, CommitMonthly, CommitCheckout, CommitAdjustment, Hydrated, HydratedMonthly;
  }

  predicate Commits(a: Action) {
    a.FinishMonthly? || a.FinishCheckout? || a.FinishAdjustment? || a.Prepare?
  }

  /** A worker that has stored a blocking intent about a monthly order, and has not been overtaken since, goes on to
      confirm that billing has ended, and sends a cancellation before unless it saw it ended already. */
  lemma IntentLeadsToCancel(w: World, k: AttemptId)
    requires Inv(w) && k in w.attempts && w.attempts[k].AdjustmentPrepared? && UpToDate(w, w.attempts[k])
    requires w.rows.order.plan == Monthly && w.attempts[k].view.adjustment.state == Some(Blocking)
    ensures WellFormed(w) && Enabled(w, ReadIntent(k)) && WellFormed(Next(w, ReadIntent(k)))
    ensures var read := Next(w, ReadIntent(k));
            if EndedBilling(w.attempts[k].view) then
              k in read.attempts && read.attempts[k].AdjustmentConfirming? && read.cancels == w.cancels
            else
              && Enabled(read, CallCancel(k))
              && var called := Next(read, CallCancel(k));
                 && k in called.cancels && called.rows == w.rows && called.events == w.events
                 && k in called.attempts && called.attempts[k].AdjustmentConfirming?
                 && called.attempts[k].ctx.observedFrom == Now(read)
  {
    IntentIsFlagged(w, k);
    InvIsTyped(w);
    hide Inv, Next, Enabled, WellFormed, AnyCancelRequired;
    FlagsAreRead(w, k);
    var read := Next(w, ReadIntent(k));
    StepKeepsInv(w, read);
    InvIsTyped(read);
    if read.attempts[k].AdjustmentCanceling? {
      CallIsMade(read, k);
    }
  }

  lemma FlagsAreRead(w: World, k: AttemptId)
    requires WellFormed(w) && k in w.attempts && w.attempts[k].AdjustmentPrepared? && w.rows.order.plan == Monthly
    requires AnyCancelRequired(w.rows.adjustments)
    ensures Enabled(w, ReadIntent(k)) && Step(w, Next(w, ReadIntent(k)))
    ensures var read := Next(w, ReadIntent(k));
            && k in read.attempts && read.cancels == w.cancels && read.rows == w.rows && read.events == w.events
            && (if EndedBilling(w.attempts[k].view) then read.attempts[k].AdjustmentConfirming?
                else read.attempts[k].AdjustmentCanceling?)
  {
    assert Typed(w, w.attempts[k]);
  }

  lemma CallIsMade(w: World, k: AttemptId)
    requires WellFormed(w) && k in w.attempts && w.attempts[k].AdjustmentCanceling?
    ensures Enabled(w, CallCancel(k))
    ensures var called := Next(w, CallCancel(k));
            && k in called.cancels && called.rows == w.rows && called.events == w.events
            && k in called.attempts && called.attempts[k].AdjustmentConfirming?
            && called.attempts[k].ctx.observedFrom == Now(w)
  {
  }

  lemma IntentIsFlagged(w: World, k: AttemptId)
    requires Inv(w) && k in w.attempts && w.attempts[k].AdjustmentPrepared? && UpToDate(w, w.attempts[k])
    requires w.rows.order.plan == Monthly && w.attempts[k].view.adjustment.state == Some(Blocking)
    ensures AnyCancelRequired(w.rows.adjustments)
  {
    assert AttemptInv(w, k);
    var a := w.attempts[k].view.adjustment.id;
    assert a in w.rows.adjustments && w.rows.adjustments[a].cancelRequired;
  }

  lemma InvIsTyped(w: World)
    requires Inv(w)
    ensures WellFormed(w)
  {
    hide AttemptInv, Typed, RowsInv, EventsInv, LogInv;
    forall k | k in w.attempts ensures Typed(w, w.attempts[k]) {
      AttemptIsTyped(w, k);
    }
  }

  lemma AttemptIsTyped(w: World, k: AttemptId)
    requires w.history != [] && k in w.attempts && AttemptInv(w, k)
    ensures Typed(w, w.attempts[k])
  {
  }

  /** A cancellation that was sent is on its way until billing has ended, and billing does not begin again. */
  lemma {:induction false} CancellationIsNotLost(run: seq<World>, i: nat, j: nat, k: AttemptId)
    requires Run(run) && i < j < |run| && WellFormed(run[i]) && Enabled(run[i], CallCancel(k))
    requires run[i + 1] == Next(run[i], CallCancel(k))
    ensures SentOrEnded(run[j], k)
    decreases j
  {
    hide Inv, Enabled, Next, SentOrEnded, WellFormed;
    if j == i + 1 {
      CallingSends(run[i], k);
    } else {
      CancellationIsNotLost(run, i, j - 1, k);
      RunKeepsInv(run, j - 1);
      assert Step(run[j - 1], run[j]);
      var a :| Enabled(run[j - 1], a) && run[j] == Next(run[j - 1], a);
      SentStays(run[j - 1], a, k);
    }
  }

  predicate SentOrEnded(w: World, k: AttemptId) {
    w.history != [] && (k in w.cancels || !CanBill(Current(w).subscription))
  }

  lemma CallingSends(w: World, k: AttemptId)
    requires WellFormed(w) && Enabled(w, CallCancel(k))
    ensures SentOrEnded(Next(w, CallCancel(k)), k)
  {
  }

  lemma SentStays(w: World, a: Action, k: AttemptId)
    requires Inv(w) && WellFormed(w) && Enabled(w, a) && SentOrEnded(w, k)
    ensures SentOrEnded(Next(w, a), k)
  {
    hide Inv, PrepareStep, FinishMonthlyStep, FinishCheckoutStep, FinishAdjustmentStep, Hydrated, Returned, Startable,
         SawMonthly, HydratedMonthly, ValidStripe, AnyCancelRequired, Started, EmptyRows;
    if Commits(a) {
      CommitsCancelNothing(w, a);
      CommitsTick(w, a);
    }
  }

  lemma CommitsTick(w: World, a: Action)
    requires WellFormed(w) && Enabled(w, a) && Commits(a)
    ensures Next(w, a).history == w.history + [Current(w)]
  {
    hide PrepareAdjustment, CommitMonthly, CommitCheckout, CommitAdjustment, Hydrated, HydratedMonthly;
  }

  predicate IsOrdinary(kind: WriteKind) {
    kind == CheckoutWrite || kind == MonthlyWrite
  }

  /** The log entries from `from` on hold no ordinary write before an adjustment was committed with billing
      confirmed as ended. */
  ghost predicate ConfirmedFirst(w: World, from: nat) {
    forall n :: from <= n < |w.log| && IsOrdinary(w.log[n].kind) ==>
      exists m :: from <= m < n && ConfirmsEnd(w, m)
  }

  /** The snapshot that the transaction applied showed billing ended, and Stripe could not bill when it committed. */
  ghost predicate ConfirmsEnd(w: World, m: nat)
    requires m < |w.log|
  {
    && w.log[m].kind == AdjustmentWrite && w.log[m].ended
    && w.log[m].at < |w.history| && !CanBill(w.history[w.log[m].at].subscription)
  }

  ghost predicate FlaggedOrConfirmed(w: World, from: nat) {
    && from <= |w.log| && ConfirmedFirst(w, from)
    && (AnyCancelRequired(w.rows.adjustments) || exists m :: from <= m < |w.log| && ConfirmsEnd(w, m))
  }

  /** No ordinary billing write commits between a stored intent to cancel and a commit that confirmed the
      end of billing, whatever crashes and lost replies come between. */
  lemma {:induction false} NoOrdinaryWriteBeforeConfirmation(run: seq<World>, i: nat, j: nat)
    requires Run(run) && i <= j < |run|
    requires run[i].rows.order.plan == Monthly && AnyCancelRequired(run[i].rows.adjustments)
    ensures run[j].rows.order.plan == Monthly && FlaggedOrConfirmed(run[j], |run[i].log|)
    decreases j
  {
    hide Inv, Init, Enabled, Next, LogGrows;
    if i < j {
      NoOrdinaryWriteBeforeConfirmation(run, i, j - 1);
      RunKeepsInv(run, j - 1);
      assert Step(run[j - 1], run[j]);
      var a :| Enabled(run[j - 1], a) && run[j] == Next(run[j - 1], a);
      StepMoves(run[j - 1], a);
      StepLogs(run[j - 1], a);
      StepClears(run[j - 1], a);
      FlagsOrConfirms(run[j - 1], run[j], |run[i].log|);
    }
  }

  ghost predicate LogGrows(w: World, w': World) {
    && |w.history| < |w'.history| && w'.history[..|w.history|] == w.history
    && (w'.log == w.log || (|w'.log| == |w.log| + 1 && w'.log[..|w.log|] == w.log && w'.log[|w.log|].at < |w'.history|))
    && (w'.log != w.log && IsOrdinary(w'.log[|w.log|].kind) ==> !AnyUnfinished(w.rows.adjustments))
    && (forall m :: 0 <= m < |w.log| ==> w.log[m].at < |w.history|)
  }

  lemma FlagsOrConfirms(w: World, w': World, from: nat)
    requires FlaggedOrConfirmed(w, from) && LogGrows(w, w')
    requires AnyCancelRequired(w.rows.adjustments) && !AnyCancelRequired(w'.rows.adjustments) ==>
               |w'.log| > |w.log| && ConfirmsEnd(w', |w.log|)
    ensures FlaggedOrConfirmed(w', from)
  {
    forall m | from <= m < |w.log| && ConfirmsEnd(w, m) ensures ConfirmsEnd(w', m) {
      assert w'.log[m] == w.log[m] && w'.history[w.log[m].at] == w.history[w.log[m].at];
    }
    assert AnyCancelRequired(w.rows.adjustments) ==> AnyUnfinished(w.rows.adjustments);
    forall n | from <= n < |w'.log| && IsOrdinary(w'.log[n].kind)
      ensures exists m :: from <= m < n && ConfirmsEnd(w', m)
    {
      if n < |w.log| {
        assert w'.log[n] == w.log[n];
        var m :| from <= m < n && ConfirmsEnd(w, m);
        assert ConfirmsEnd(w', m);
      } else {
        var m :| from <= m < |w.log| && ConfirmsEnd(w, m);
        assert ConfirmsEnd(w', m);
      }
    }
    if exists m :: from <= m < |w.log| && ConfirmsEnd(w, m) {
      var m :| from <= m < |w.log| && ConfirmsEnd(w, m);
      assert ConfirmsEnd(w', m);
    }
  }

  lemma StepLogs(w: World, a: Action)
    requires Inv(w) && WellFormed(w) && Enabled(w, a)
    ensures LogGrows(w, Next(w, a))
  {
    hide RowsInv, EventsInv, HistoryInv, AttemptInv, Serial, SawSnapshot, SawMonthly, Hydrated, HydratedMonthly,
         Evolves, ValidStripe, FinishMonthlyStep, FinishCheckoutStep, FinishAdjustmentStep, PrepareStep;
    if Commits(a) {
      CommitLogs(w, a);
    }
  }

  lemma CommitLogs(w: World, a: Action)
    requires Inv(w) && WellFormed(w) && Enabled(w, a) && Commits(a)
    ensures LogGrows(w, Next(w, a))
  {
    hide Inv, Finish, LogGrows, Hydrated, HydratedMonthly, CommitMonthly, CommitCheckout, CommitAdjustment, PrepareStep;
    var ctx := w.attempts[a.k].ctx;
    match a
    case FinishMonthly(k, newLicense) =>
      var result := CommitMonthly(w.rows, w.events, w.binding, ctx.event, w.attempts[k].monthly, ctx.revision,
                                  newLicense, ctx.now);
      if AnyUnfinished(w.rows.adjustments) {
        UnfinishedStopsOrdinaryWriters(w, k, newLicense);
      }
      FinishLogs(w, k, result, MonthlyWrite, false);
    case FinishCheckout(k, newLicense) =>
      var result := CommitCheckout(w.rows, w.events, w.binding, ctx.event, w.attempts[k].session, newLicense, ctx.now);
      if AnyUnfinished(w.rows.adjustments) {
        UnfinishedStopsOrdinaryWriters(w, k, newLicense);
      }
      FinishLogs(w, k, result, CheckoutWrite, false);
    case FinishAdjustment(k, newLicense) =>
      var view := w.attempts[k].view;
      var result := CommitAdjustment(w.rows, w.events, w.binding, ctx.event, view, ctx.revision, newLicense, ctx.now);
      FinishLogs(w, k, result, AdjustmentWrite, EndedBilling(view));
    case Prepare(k) => PrepareLogs(w, k);
  }

  lemma FinishLogs(w: World, k: AttemptId, result: Result<Committed, BillingError>, kind: WriteKind, ended: bool)
    requires Inv(w) && k in w.attempts
    requires IsOrdinary(kind) && result.Success? && result.value.outcome.Some? ==> !AnyUnfinished(w.rows.adjustments)
    ensures LogGrows(w, Finish(w, k, result, kind, ended))
  {
    hide RowsInv, EventsInv, AttemptInv, Serial, Evolves, ValidStripe, AnyUnfinished;
  }

  lemma PrepareLogs(w: World, k: AttemptId)
    requires Inv(w) && k in w.attempts && w.attempts[k].AdjustmentViewed? && Typed(w, w.attempts[k])
    ensures LogGrows(w, PrepareStep(w, k))
  {
    hide RowsInv, EventsInv, AttemptInv, Serial, Evolves, ValidStripe, AnyUnfinished, PrepareAdjustment, Hydrated;
  }

  /** Unfinished work stops every ordinary writer: its transaction is rolled back or was done before, and either way
      nothing is written. */
  lemma UnfinishedStopsOrdinaryWriters(w: World, k: AttemptId, newLicense: LicenseId)
    requires w.history != [] && k in w.attempts && Typed(w, w.attempts[k]) && AnyUnfinished(w.rows.adjustments)
    ensures w.attempts[k].MonthlyReady? ==>
              var ctx, view := w.attempts[k].ctx, w.attempts[k].monthly;
              var r := CommitMonthly(w.rows, w.events, w.binding, ctx.event, view, ctx.revision, newLicense, ctx.now);
              && (r.Failure? || r.value.outcome.None?)
              && FinishMonthlyStep(w, k, newLicense).rows == w.rows && FinishMonthlyStep(w, k, newLicense).log == w.log
    ensures w.attempts[k].CheckoutReady? ==>
              var ctx, session := w.attempts[k].ctx, w.attempts[k].session;
              var r := CommitCheckout(w.rows, w.events, w.binding, ctx.event, session, newLicense, ctx.now);
              && (r.Failure? || r.value.outcome.None?)
              && FinishCheckoutStep(w, k, newLicense).rows == w.rows
                 && FinishCheckoutStep(w, k, newLicense).log == w.log
  {
    hide Hydrated;
  }

  /** Only a commit with billing confirmed as ended clears the last cancellation. */
  lemma StepClears(w: World, a: Action)
    requires Inv(w) && WellFormed(w) && Enabled(w, a)
    ensures var w' := Next(w, a);
            w.rows.order.plan == Monthly && AnyCancelRequired(w.rows.adjustments)
              && !AnyCancelRequired(w'.rows.adjustments) ==>
              |w'.log| > |w.log| && ConfirmsEnd(w', |w.log|)
  {
    hide RowsInv, EventsInv, AttemptInv, LogInv, SawMonthly, Hydrated, HydratedMonthly, SawSnapshot, PrepareAdjustment,
         SettledAdjustments, ApplyAdjustments, ApplyMonthlyPurchase, ApplyCheckout, AnyCancelRequired, Evolves,
         ValidStripe, HistoryInv;
    match a
    case FinishAdjustment(k, newLicense) => CommitClears(w, k, newLicense);
    case FinishMonthly(k, newLicense) =>
      ApplyMonthlyFrame(w.rows, w.binding, w.events[w.attempts[k].ctx.event].eventType, w.attempts[k].monthly,
                        newLicense, w.attempts[k].ctx.now);
    case FinishCheckout(k, newLicense) =>
      ApplyCheckoutFrame(w.rows, w.binding, w.events[w.attempts[k].ctx.event].eventType, w.attempts[k].session,
                         newLicense, w.attempts[k].ctx.now);
    case Prepare(k) =>
      var ctx := w.attempts[k].ctx;
      if !w.events[ctx.event].Processed() {
        PrepareFrame(w.rows, w.events, ctx.event, w.attempts[k].view.adjustment, ctx.revision, ctx.now, Current(w));
      }
    case _ =>
  }

  lemma CommitClears(w: World, k: AttemptId, newLicense: LicenseId)
    requires Inv(w) && k in w.attempts && w.attempts[k].AdjustmentReady? && Typed(w, w.attempts[k])
    ensures var w' := FinishAdjustmentStep(w, k, newLicense);
            w.rows.order.plan == Monthly && AnyCancelRequired(w.rows.adjustments)
              && !AnyCancelRequired(w'.rows.adjustments) ==>
              |w'.log| > |w.log| && ConfirmsEnd(w', |w.log|)
  {
    hide RowsInv, EventsInv, LogInv, HistoryInv, ApplyAdjustments, SettledAdjustments;
    assert AttemptInv(w, k);
    SeenIsFaithful(w.history, w.attempts[k].ctx.observedFrom, w.attempts[k].view);
  }

  // ----- exactly once -----

  /** However often an event is delivered and attempted, it is applied once: after it has been processed no
      attempt at it changes a row, and its recorded outcome never changes. */
  lemma ProcessedEventIsInert(w: World, a: Action, e: EventId)
    requires WellFormed(w) && Enabled(w, a) && e in w.events && w.events[e].Processed()
    ensures e in Next(w, a).events && Next(w, a).events[e] == w.events[e]
    ensures Commits(a) && w.attempts[a.k].ctx.event == e ==>
              Next(w, a).rows == w.rows && Next(w, a).events == w.events && Next(w, a).log == w.log
  {
    hide FinishMonthlyStep, FinishCheckoutStep, FinishAdjustmentStep, PrepareStep, Hydrated, SawSnapshot, SawMonthly,
         Evolves, ValidStripe, HydratedMonthly;
    if Commits(a) {
      CommitKeepsOutcome(w, a, e);
    }
  }

  lemma CommitKeepsOutcome(w: World, a: Action, e: EventId)
    requires WellFormed(w) && Enabled(w, a) && Commits(a) && e in w.events && w.events[e].Processed()
    ensures e in Next(w, a).events && Next(w, a).events[e] == w.events[e]
    ensures w.attempts[a.k].ctx.event == e ==>
              Next(w, a).rows == w.rows && Next(w, a).events == w.events && Next(w, a).log == w.log
  {
    hide ApplyMonthlyPurchase, ApplyCheckout, ApplyAdjustments, SettledAdjustments, Hydrated, PreparedState,
         StoredAdjustment, AnyCancelRequired, CanBill;
  }

  lemma {:induction false} OutcomesAreFinal(run: seq<World>, i: nat, j: nat, e: EventId)
    requires Run(run) && i <= j < |run| && e in run[i].events && run[i].events[e].Processed()
    ensures e in run[j].events && run[j].events[e] == run[i].events[e]
    decreases j
  {
    hide Init, Step;
    if i < j {
      OutcomesAreFinal(run, i, j - 1, e);
      StepKeepsOutcome(run[j - 1], run[j], e);
    }
  }

  lemma StepKeepsOutcome(w: World, w': World, e: EventId)
    requires Step(w, w') && e in w.events && w.events[e].Processed()
    ensures e in w'.events && w'.events[e] == w.events[e]
  {
    hide Enabled, Next, WellFormed;
    var a :| Enabled(w, a) && w' == Next(w, a);
    ProcessedEventIsInert(w, a, e);
  }

  /** The order has a license exactly when it is fulfilled, and then just that one. */
  lemma FulfilledOrdersHaveOneLicense(run: seq<World>, n: nat)
    requires Run(run) && n < |run|
    ensures var rows := run[n].rows;
            && (rows.order.state == OrderFulfilled <==> |rows.licenses| == 1)
            && (rows.order.state != OrderFulfilled <==> rows.licenses == map[])
            && (rows.order.state == OrderFulfilled ==>
                  rows.order.licenseId.Some? && rows.licenses.Keys == {rows.order.licenseId.value})
            && (rows.order.plan == Monthly ==> rows.subscriptions.Keys == rows.licenses.Keys)
  {
    RunKeepsInv(run, n);
    var rows := run[n].rows;
    assert |rows.licenses| == |rows.licenses.Keys|;
  }

  /** Over a whole run: a fulfilled order keeps its one license; a refunded license is never anything but
      refunded or revoked again, and a revoked one stays revoked. */
  ghost predicate Kept(before: Rows, after: Rows) {
    && (before.order.licenseId.Some? ==>
          after.order.licenseId == before.order.licenseId && after.order.fulfilledAt == before.order.fulfilledAt)
    && before.licenses.Keys <= after.licenses.Keys
    && (forall l :: l in before.licenses && before.licenses[l] in {LicenseRefunded, LicenseRevoked} ==>
          LicenseMove(before.licenses[l], after.licenses[l]))
  }

  lemma {:induction false} NothingIsUndone(run: seq<World>, i: nat, j: nat)
    requires Run(run) && i <= j < |run|
    ensures Kept(run[i].rows, run[j].rows)
    decreases j
  {
    hide Init, Step, Kept;
    if i == j {
      KeptReflexive(run[i].rows);
    } else {
      NothingIsUndone(run, i, j - 1);
      StepKeeps(run, j - 1);
      KeptTransitive(run[i].rows, run[j - 1].rows, run[j].rows);
    }
  }

  /** What an operator revokes stays revoked, whatever Stripe reports afterwards. */
  lemma RevocationIsFinal(run: seq<World>, i: nat, j: nat, l: LicenseId)
    requires Run(run) && i < j < |run| && WellFormed(run[i]) && Enabled(run[i], Revoke(l))
    requires run[i + 1] == Next(run[i], Revoke(l))
    ensures l in run[j].rows.licenses && run[j].rows.licenses[l] == LicenseRevoked
  {
    RevokedNow(run[i], l);
    hide Enabled, Next, WellFormed;
    NothingIsUndone(run, i + 1, j);
  }

  lemma RevokedNow(w: World, l: LicenseId)
    requires WellFormed(w) && Enabled(w, Revoke(l))
    ensures var after := Next(w, Revoke(l)).rows.licenses;
            l in after && after[l] == LicenseRevoked
  {
  }

  lemma StepKeeps(run: seq<World>, n: nat)
    requires Run(run) && n + 1 < |run|
    ensures Kept(run[n].rows, run[n + 1].rows)
  {
    hide Inv, Enabled, Next, LiftedProperly, NeverExtends;
    RunKeepsInv(run, n);
    assert Step(run[n], run[n + 1]);
    var a :| Enabled(run[n], a) && run[n + 1] == Next(run[n], a);
    StepMoves(run[n], a);
  }

  lemma KeptReflexive(rows: Rows)
    ensures Kept(rows, rows)
  {
  }

  lemma KeptTransitive(a: Rows, b: Rows, c: Rows)
    requires Kept(a, b) && Kept(b, c)
    ensures Kept(a, c)
  {
  }

  /** A license is issued only to an order without one, while nothing blocks it. */
  lemma IssuedOnlyUnblocked(run: seq<World>, n: nat, l: LicenseId)
    requires Run(run) && n + 1 < |run| && l in run[n + 1].rows.licenses && l !in run[n].rows.licenses
    ensures run[n].rows.licenses == map[] && !AnyBlocking(run[n + 1].rows.adjustments)
  {
    RunKeepsInv(run, n);
    var a :| Enabled(run[n], a) && run[n + 1] == Next(run[n], a);
    StepMoves(run[n], a);
  }

  /** A chargeback is lifted only when nothing blocks the order, and by an attempt in whose reading Stripe had decided
      its dispute for the seller and the charge still stood; what comes back is what was paid for, and it is eligible
      at the time that attempt worked with. */
  lemma LiftedOnlyUnblocked(run: seq<World>, n: nat, l: LicenseId)
    requires Run(run) && n + 1 < |run| && l in run[n].rows.licenses && l in run[n + 1].rows.licenses
    requires run[n].rows.licenses[l] == LicenseChargedBack && run[n + 1].rows.licenses[l] == LicenseActive
    ensures exists k :: k in run[n].attempts && run[n].attempts[k].AdjustmentReady?
                        && LiftedProperly(run[n + 1].rows, l, run[n].attempts[k].ctx.now)
                        && var from, a := run[n].attempts[k].ctx.observedFrom, run[n].attempts[k].view.adjustment;
                           SeenWon(run[n].history, from, a.id) && SeenStanding(run[n].history, from, a.chargeId)
  {
    hide Inv, LiftedProperly, NeverExtends, SeenWon, SeenStanding, AttemptInv;
    RunKeepsInv(run, n);
    var a :| Enabled(run[n], a) && run[n + 1] == Next(run[n], a);
    StepMoves(run[n], a);
    MovedByAdjustment(run[n], a, l);
    LiftingIsSupported(run[n], a.k, a.newLicense, l);
    assert a.k in run[n].attempts;
  }

  lemma LiftingIsSupported(w: World, k: AttemptId, newLicense: LicenseId, l: LicenseId)
    requires Inv(w) && k in w.attempts && w.attempts[k].AdjustmentReady? && Typed(w, w.attempts[k])
    requires l in w.rows.licenses && w.rows.licenses[l] == LicenseChargedBack && newLicense != l
    requires var after := FinishAdjustmentStep(w, k, newLicense).rows.licenses;
             l in after && after[l] == LicenseActive
    ensures var from, a := w.attempts[k].ctx.observedFrom, w.attempts[k].view.adjustment;
            SeenWon(w.history, from, a.id) && SeenStanding(w.history, from, a.chargeId)
  {
    assert AttemptInv(w, k);
    LiftingNeedsBoth(w, k, newLicense, l);
    hide Inv, AttemptInv, Hydrated, FinishAdjustmentStep;
    ViewIsEvidence(w.history, w.attempts[k].ctx.observedFrom, w.attempts[k].view.adjustment);
  }

  lemma LiftingNeedsBoth(w: World, k: AttemptId, newLicense: LicenseId, l: LicenseId)
    requires w.history != [] && k in w.attempts && w.attempts[k].AdjustmentReady? && Typed(w, w.attempts[k])
    requires l in w.rows.licenses && w.rows.licenses[l] == LicenseChargedBack && newLicense != l
    requires var after := FinishAdjustmentStep(w, k, newLicense).rows.licenses;
             l in after && after[l] == LicenseActive
    ensures w.attempts[k].view.adjustment.state == Some(Resolved) && Standing(w.attempts[k].view.adjustment.charge)
  {
    hide Hydrated, SettledAdjustments, RestorationProjection, EarliestBlocking;
  }

  /** A blocking row that gives a license this state. */
  predicate IsCause(row: Adjustment, license: LicenseState) {
    row.state == Blocking && license == if row.kind == Refund then LicenseRefunded else LicenseChargedBack
  }

  /** Stripe has said of a stored refund or dispute what gives the license its state. */
  ghost predicate HasCause(w: World, l: LicenseId) {
    l in w.rows.licenses
    && exists a :: a in w.rows.adjustments && IsCause(w.rows.adjustments[a], w.rows.licenses[l])
                   && SeenAgainst(w.history, 0, a)
  }

  /** A license is restricted only by an adjustment commit that leaves a blocking row of that kind, and Stripe has
      said of its object what the row says. */
  lemma RestrictedOnlyForCause(run: seq<World>, n: nat, l: LicenseId)
    requires Run(run) && n + 1 < |run| && l in run[n].rows.licenses && l in run[n + 1].rows.licenses
    requires run[n].rows.licenses[l] != run[n + 1].rows.licenses[l] && IsRestricted(run[n + 1].rows.licenses[l])
    ensures exists k :: k in run[n].attempts && run[n].attempts[k].AdjustmentReady?
    ensures HasCause(run[n + 1], l)
  {
    hide Inv, SeenAgainst, AttemptInv, IsCause, FinishAdjustmentStep;
    var w, after := run[n], run[n + 1];
    assert Step(w, after);
    var act :| Enabled(w, act) && after == Next(w, act);
    MovedByAdjustment(w, act, l);
    assert act.k in w.attempts;
    hide Next, Enabled;
    RestrictingHasCause(w, act.k, act.newLicense, l);
    StoredStatesWereSeen(run, n + 1);
    hide Run;
    var a :| a in after.rows.adjustments && IsCause(after.rows.adjustments[a], after.rows.licenses[l]);
    CauseIsBlocking(after.rows.adjustments[a], after.rows.licenses[l]);
    assert SeenAs(after.history, a, after.rows.adjustments[a].state);
  }

  lemma CauseIsBlocking(row: Adjustment, license: LicenseState)
    requires IsCause(row, license)
    ensures row.state == Blocking
  {
  }

  lemma RestrictingHasCause(w: World, k: AttemptId, newLicense: LicenseId, l: LicenseId)
    requires w.history != [] && k in w.attempts && w.attempts[k].AdjustmentReady? && Typed(w, w.attempts[k])
    requires l in w.rows.licenses && newLicense != l
    requires var after := FinishAdjustmentStep(w, k, newLicense).rows.licenses;
             l in after && after[l] != w.rows.licenses[l] && IsRestricted(after[l])
    ensures var after := FinishAdjustmentStep(w, k, newLicense).rows;
            exists a :: a in after.adjustments && IsCause(after.adjustments[a], after.licenses[l])
  {
    var after := FinishAdjustmentStep(w, k, newLicense).rows;
    var view, now := w.attempts[k].view, w.attempts[k].ctx.now;
    var settled := w.rows.(adjustments := SettledAdjustments(w.rows, view, now));
    ApplyFrame(settled, w.binding, Current(w), view, newLicense, now);
    hide Hydrated, SettledAdjustments, RestorationProjection, EarliestBlocking;
    if AnyBlockingRefund(settled.adjustments) {
      var a :| a in settled.adjustments && settled.adjustments[a].state == Blocking
               && settled.adjustments[a].kind == Refund;
      assert a in after.adjustments && IsCause(after.adjustments[a], after.licenses[l]);
    } else {
      var a :| a in settled.adjustments && settled.adjustments[a].state == Blocking;
      assert a in after.adjustments && IsCause(after.adjustments[a], after.licenses[l]);
    }
  }

  /** Only an adjustment commit moves a license other than to revoked. */
  lemma MovedByAdjustment(w: World, a: Action, l: LicenseId)
    requires WellFormed(w) && Enabled(w, a) && l in w.rows.licenses && l in Next(w, a).rows.licenses
    requires Next(w, a).rows.licenses[l] !in {w.rows.licenses[l], LicenseRevoked}
    ensures a.FinishAdjustment? && a.newLicense != l && Next(w, a) == FinishAdjustmentStep(w, a.k, a.newLicense)
  {
    hide FinishMonthlyStep, FinishCheckoutStep, FinishAdjustmentStep, PrepareStep, Hydrated, SawSnapshot, SawMonthly,
         Evolves, ValidStripe, HydratedMonthly;
    match a
    case FinishMonthly(k, newLicense) => OrdinaryStepsKeepLicenses(w, k, newLicense, l);
    case FinishCheckout(k, newLicense) => OrdinaryStepsKeepLicenses(w, k, newLicense, l);
    case Prepare(k) => PrepareKeepsLicenses(w, k);
    case _ =>
  }

  lemma PrepareKeepsLicenses(w: World, k: AttemptId)
    requires w.history != [] && k in w.attempts && w.attempts[k].AdjustmentViewed? && Typed(w, w.attempts[k])
    ensures PrepareStep(w, k).rows.licenses == w.rows.licenses
  {
    hide Hydrated;
  }

  lemma OrdinaryStepsKeepLicenses(w: World, k: AttemptId, newLicense: LicenseId, l: LicenseId)
    requires w.history != [] && k in w.attempts && Typed(w, w.attempts[k]) && l in w.rows.licenses && newLicense != l
    ensures w.attempts[k].MonthlyReady? ==>
              var after := FinishMonthlyStep(w, k, newLicense).rows.licenses;
              l in after && after[l] == w.rows.licenses[l]
    ensures w.attempts[k].CheckoutReady? ==>
              var after := FinishCheckoutStep(w, k, newLicense).rows.licenses;
              l in after && after[l] == w.rows.licenses[l]
  {
    hide Hydrated, BillingRestriction, ReconcileSubscription;
  }

  // ----- access and payment -----

  /** While a license stays restricted its access only ends earlier, and never later than before it was. */
  lemma {:induction false} RestrictionNeverExtendsAccess(run: seq<World>, i: nat, j: nat, l: LicenseId)
    requires Run(run) && i <= j < |run| && l in run[i].rows.subscriptions
    requires forall n :: i < n <= j ==> l in run[n].rows.licenses && IsRestricted(run[n].rows.licenses[l])
    ensures l in run[j].rows.subscriptions && l in run[i].rows.licenses && l in run[j].rows.licenses
    ensures AccessEnds(run[j].rows.licenses[l], run[j].rows.subscriptions[l])
            <= AccessEnds(run[i].rows.licenses[l], run[i].rows.subscriptions[l])
    ensures run[j].rows.subscriptions[l].projection == run[i].rows.subscriptions[l].projection
    decreases j
  {
    hide Inv, Init, Enabled, Next, LiftedProperly, AccessEnds, IsRestricted, LicenseMove;
    RunKeepsInv(run, i);
    SubscriptionsOfLicenses(run[i]);
    if i < j {
      RestrictionNeverExtendsAccess(run, i, j - 1, l);
      RunKeepsInv(run, j - 1);
      RunKeepsInv(run, j);
      SubscriptionsOfLicenses(run[j - 1]);
      SubscriptionsOfLicenses(run[j]);
      assert Step(run[j - 1], run[j]);
      var a :| Enabled(run[j - 1], a) && run[j] == Next(run[j - 1], a);
      StepMoves(run[j - 1], a);
    }
  }

  lemma SubscriptionsOfLicenses(w: World)
    requires Inv(w)
    ensures w.rows.subscriptions.Keys == if w.rows.order.plan == Monthly then w.rows.licenses.Keys else {}
    ensures forall l :: l in w.rows.subscriptions ==> ValidRow(w.rows.licenses[l], w.rows.subscriptions[l])
  {
    hide HistoryInv, EventsInv, AttemptInv, LogInv, AdjustmentInv, OrderConstraints, PaidFor, ValidProjection;
  }

  /** Access never outruns payment, and the issuer never refuses: for every monthly license of a single reachable
      world and every instant, terms are computed without error, eligible ones pass the issuer's checks to the
      second, and they expire at most 21 days after the end of a paid invoice's period. */
  lemma ReachableTermsArePaidForAndSigned(run: seq<World>, n: nat, l: LicenseId, now: Time)
    requires Run(run) && n < |run| && l in run[n].rows.subscriptions
    requires now >= 0 && run[n].rows.subscriptions[l].projection.recoveryUntil <= LAST_TIMESTAMP
    ensures l in run[n].rows.licenses && run[n].history != []
    ensures var row := run[n].rows.subscriptions[l];
            var terms := MonthlyEntitlementTerms(run[n].rows.licenses[l], row, now);
            && PaidFor(row.projection, Current(run[n]))
            && row.projection.recoveryUntil in {row.projection.periodEnd, row.projection.periodEnd + RECOVERY_WINDOW}
            && terms.Success?
            && (terms.value.Some? ==>
                  && ValidateMonthlyClaims(UnixSeconds(now), terms.value.value).None?
                  && terms.value.value.expiresAt <= UnixSeconds(row.projection.periodEnd) + 21 * 24 * 3600)
  {
    RunKeepsInv(run, n);
    IssuerAcceptsEligibleTerms(run[n].rows.licenses[l], run[n].rows.subscriptions[l], now);
    EntitlementNeverOutrunsPayment(run[n].rows.licenses[l], run[n].rows.subscriptions[l], now);
  }

  function Record(rows: Rows, l: LicenseId): LicenseRecord
    requires l in rows.licenses
  {
    var subscription := if l in rows.subscriptions then Some(rows.subscriptions[l]) else None;
    LicenseRecord(rows.order.plan, rows.licenses[l], subscription)
  }

  /** In every single reachable world every license has terms at every instant: no monthly one lacks its
      subscription or its terminal time, and access is granted exactly while it lasts. A read that pairs rows of two
      worlds is another matter: see EntitlementReads. */
  lemma EveryLicenseHasTerms(run: seq<World>, n: nat, l: LicenseId, now: Time)
    requires Run(run) && n < |run| && l in run[n].rows.licenses
    ensures var rows := run[n].rows;
            var terms := EntitlementTerms(Record(rows, l), now);
            && terms.Success?
            && (rows.order.plan == PerpetualV1 ==> (terms.value.Some? <==> rows.licenses[l] == LicenseActive))
            && (rows.order.plan == Monthly ==>
                  && l in rows.subscriptions
                  && (terms.value.Some? <==>
                        rows.licenses[l] != LicenseRevoked
                        && now < AccessEnds(rows.licenses[l], rows.subscriptions[l])))
  {
    hide Inv, Init, Step;
    RunKeepsInv(run, n);
    SubscriptionsOfLicenses(run[n]);
  }

  // ----- repair -----

  /** A cancellation still to make is pending, and pending work has an event the repair loop can retry. */
  lemma UnfinishedWorkIsRetryable(run: seq<World>, n: nat, a: ObjectId)
    requires Run(run) && n < |run| && a in run[n].rows.adjustments
    requires run[n].rows.adjustments[a].pending || run[n].rows.adjustments[a].cancelRequired
    ensures run[n].rows.adjustments[a].pending && Retryable(run[n].events, a)
  {
    RunKeepsInv(run, n);
    assert AdjustmentInv(run[n].rows.adjustments[a], a, run[n].rows.order.plan, LicenseOf(run[n].rows),
                         Current(run[n]));
  }
}
