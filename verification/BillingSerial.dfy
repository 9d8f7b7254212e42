/** Whole runs are serial: what each transaction applies was read after every commit before it, with one exact
    exception. An adjustment commits twice, first its intent and then its outcome. */
module BillingSerial {
  import opened Basics
  import opened Subscription
  import opened Entitlement
  import opened BillingRows
  import opened BillingProtocol
  import opened BillingInvariant
  import opened BillingRun
  import opened BillingSteps

  predicate CallsForCancel(rows: Rows) {
    rows.order.plan == Monthly && AnyCancelRequired(rows.adjustments)
  }

  predicate PastIntent(attempt: Attempt) {
    attempt.AdjustmentPrepared? || attempt.AdjustmentCanceling? || attempt.AdjustmentConfirming?
      || attempt.AdjustmentReady?
  }

  /** Entry i is the intent of attempt k, and where the attempt stands since. */
  ghost predicate FollowsIntent(w: World, k: AttemptId, i: nat)
    requires k in w.attempts && i < |w.log|
  {
    var attempt := w.attempts[k];
    && w.log[i].kind == IntentWrite
    && (UpToDate(w, attempt) ==> i == |w.log| - 1)
    && match attempt
       case AdjustmentPrepared(ctx, _) => ctx.observedFrom < w.log[i].at
       case AdjustmentCanceling(_, _) => UpToDate(w, attempt) ==> CallsForCancel(w.rows)
       case AdjustmentConfirming(ctx, _) =>
         w.log[i].at < ctx.observedFrom && (UpToDate(w, attempt) ==> CallsForCancel(w.rows))
       case AdjustmentReady(ctx, _) =>
         UpToDate(w, attempt) ==> (w.log[i].at < ctx.observedFrom <==> CallsForCancel(w.rows))
       case _ => false
  }

  ghost predicate OwnEntries(w: World, k: AttemptId)
    requires k in w.attempts
  {
    && (forall i :: 0 <= i < |w.log| && w.log[i].attempt == k ==> FollowsIntent(w, k, i))
    && (PastIntent(w.attempts[k]) ==> exists i :: 0 <= i < |w.log| && w.log[i].attempt == k)
  }

  /** Entry j is the outcome of the intent right before it; it applies what was read after that intent exactly
      when the rows it finds call for a cancellation. */
  predicate CompletesIntent(log: seq<Write>, j: nat)
    requires 0 < j < |log|
  {
    && log[j - 1].attempt == log[j].attempt
    && log[j - 1].kind == IntentWrite && log[j].kind == AdjustmentWrite
    && (log[j - 1].at < log[j].observedFrom <==> CallsForCancel(log[j].found))
  }

  ghost predicate TwoPhase(log: seq<Write>) {
    && (forall i, j :: 0 <= i < j < |log| && log[i].attempt == log[j].attempt ==> i == j - 1 && CompletesIntent(log, j))
    && (forall j :: 0 <= j < |log| && log[j].kind == AdjustmentWrite ==> 0 < j && CompletesIntent(log, j))
  }

  ghost predicate TwoPhaseInv(w: World) {
    TwoPhase(w.log) && forall k :: k in w.attempts ==> OwnEntries(w, k)
  }

  // ----- every step keeps it -----

  /** Attempt k moves on, or is gone; nothing is committed. */
  lemma QuietKeepsTwoPhase(w: World, w': World, k: AttemptId)
    requires TwoPhaseInv(w) && w'.log == w.log
    requires w'.rows.order == w.rows.order && w'.rows.adjustments == w.rows.adjustments
    requires forall j :: j in w'.attempts && j != k ==> j in w.attempts && w'.attempts[j] == w.attempts[j]
    requires k in w'.attempts ==> OwnEntries(w', k)
    ensures TwoPhaseInv(w')
  {
    hide TwoPhase;
    forall j | j in w'.attempts && j != k ensures OwnEntries(w', j) {
      assert OwnEntries(w, j);
      assert forall i :: 0 <= i < |w.log| && w.log[i].attempt == j ==> FollowsIntent(w, j, i);
    }
  }

  /** An attempt that has committed nothing yet owns no entry. */
  lemma NewcomersOwnNothing(w: World, w': World, k: AttemptId)
    requires TwoPhaseInv(w) && w'.log == w.log && k in w'.attempts && !PastIntent(w'.attempts[k])
    requires if k in w.attempts then !PastIntent(w.attempts[k]) else LogInv(w) && k == Now(w)
    ensures OwnEntries(w', k)
  {
    if k in w.attempts {
      assert OwnEntries(w, k);
    }
  }

  lemma ReadIntentKeepsTwoPhase(w: World, k: AttemptId)
    requires Inv(w) && TwoPhaseInv(w) && k in w.attempts && w.attempts[k].AdjustmentPrepared? && Typed(w, w.attempts[k])
    ensures TwoPhaseInv(ReadIntentStep(w, k))
  {
    hide RowsInv, EventsInv, HistoryInv, AttemptInv, TwoPhase, AnyCancelRequired, Hydrated;
    var w' := ReadIntentStep(w, k);
    assert OwnEntries(w, k);
    forall i | 0 <= i < |w.log| && w.log[i].attempt == k ensures FollowsIntent(w', k, i) {
      assert FollowsIntent(w, k, i);
    }
    QuietKeepsTwoPhase(w, w', k);
  }

  lemma CallCancelKeepsTwoPhase(w: World, k: AttemptId)
    requires Inv(w) && TwoPhaseInv(w) && k in w.attempts && w.attempts[k].AdjustmentCanceling?
    ensures TwoPhaseInv(CallCancelStep(w, k))
  {
    hide RowsInv, EventsInv, HistoryInv, AttemptInv, TwoPhase, AnyCancelRequired;
    var w' := CallCancelStep(w, k);
    assert OwnEntries(w, k);
    forall i | 0 <= i < |w.log| && w.log[i].attempt == k ensures FollowsIntent(w', k, i) {
      assert FollowsIntent(w, k, i);
    }
    QuietKeepsTwoPhase(w, w', k);
  }

  lemma ConfirmKeepsTwoPhase(w: World, k: AttemptId, view: AdjustmentSnapshot)
    requires TwoPhaseInv(w) && w.history != [] && k in w.attempts && w.attempts[k].AdjustmentConfirming?
    ensures TwoPhaseInv(With(w, k, AdjustmentReady(w.attempts[k].ctx, view)))
  {
    hide TwoPhase, AnyCancelRequired;
    var w' := With(w, k, AdjustmentReady(w.attempts[k].ctx, view));
    assert OwnEntries(w, k);
    forall i | 0 <= i < |w.log| && w.log[i].attempt == k ensures FollowsIntent(w', k, i) {
      assert FollowsIntent(w, k, i);
    }
    QuietKeepsTwoPhase(w, w', k);
  }

  /** A commit puts everyone else out of date, so it lands right after its own intent, or starts afresh. */
  lemma CommitKeepsTwoPhase(w: World, w': World, k: AttemptId)
    requires TwoPhaseInv(w) && k in w.attempts
    requires |w'.log| == |w.log| + 1 && w'.log[..|w.log|] == w.log && w'.log[|w.log|].attempt == k
    requires w'.rows.order.revision > w.rows.order.revision
    requires forall j :: j in w'.attempts && j != k ==>
               j in w.attempts && w'.attempts[j] == w.attempts[j] && w.attempts[j].ctx.revision <= w.rows.order.revision
    requires var write := w'.log[|w.log|];
             if PastIntent(w.attempts[k]) then
               && write.kind == AdjustmentWrite && w.attempts[k].AdjustmentReady? && UpToDate(w, w.attempts[k])
               && write.observedFrom == w.attempts[k].ctx.observedFrom && write.found == w.rows && k !in w'.attempts
             else
               && write.kind != AdjustmentWrite
               && (k in w'.attempts ==> && write.kind == IntentWrite && w'.attempts[k].AdjustmentPrepared?
                                        && w'.attempts[k].ctx.observedFrom < write.at)
    ensures TwoPhaseInv(w')
  {
    assert OwnEntries(w, k);
    CommitKeepsPairs(w, w', k);
    hide TwoPhase, AnyCancelRequired;
    forall j | j in w'.attempts ensures OwnEntries(w', j) {
      if j != k {
        OutOfDateKeepsEntries(w, w', j);
      } else {
        assert w'.log[|w.log|].attempt == k;
      }
    }
  }

  lemma CommitKeepsPairs(w: World, w': World, k: AttemptId)
    requires TwoPhase(w.log) && k in w.attempts && OwnEntries(w, k)
    requires |w'.log| == |w.log| + 1 && w'.log[..|w.log|] == w.log && w'.log[|w.log|].attempt == k
    requires var write := w'.log[|w.log|];
             if PastIntent(w.attempts[k]) then
               && write.kind == AdjustmentWrite && w.attempts[k].AdjustmentReady? && UpToDate(w, w.attempts[k])
               && write.observedFrom == w.attempts[k].ctx.observedFrom && write.found == w.rows
             else write.kind != AdjustmentWrite
    ensures TwoPhase(w'.log)
  {
    hide AnyCancelRequired;
    var n := |w.log|;
    forall i | 0 <= i < n ensures w'.log[i] == w.log[i] {
      assert w'.log[..n][i] == w'.log[i];
    }
    if PastIntent(w.attempts[k]) {
      var own :| 0 <= own < n && w.log[own].attempt == k;
      assert FollowsIntent(w, k, own);
      assert CompletesIntent(w'.log, n);
    }
    forall i | 0 <= i < n && w'.log[i].attempt == k ensures i == n - 1 && PastIntent(w.attempts[k]) {
      assert FollowsIntent(w, k, i);
    }
    forall j | 0 < j < n && CompletesIntent(w.log, j) ensures CompletesIntent(w'.log, j) {
    }
  }

  lemma OutOfDateKeepsEntries(w: World, w': World, j: AttemptId)
    requires j in w.attempts && j in w'.attempts && w'.attempts[j] == w.attempts[j] && OwnEntries(w, j)
    requires w.attempts[j].ctx.revision <= w.rows.order.revision < w'.rows.order.revision
    requires |w'.log| == |w.log| + 1 && w'.log[..|w.log|] == w.log && w'.log[|w.log|].attempt != j
    ensures OwnEntries(w', j)
  {
    hide AnyCancelRequired;
    var n := |w.log|;
    forall i | 0 <= i < n ensures w'.log[i] == w.log[i] {
      assert w'.log[..n][i] == w'.log[i];
    }
    forall i | 0 <= i < |w'.log| && w'.log[i].attempt == j ensures FollowsIntent(w', j, i) {
      assert FollowsIntent(w, j, i);
    }
    if PastIntent(w.attempts[j]) {
      var own :| 0 <= own < n && w.log[own].attempt == j;
      assert w'.log[own].attempt == j;
    }
  }

  lemma FinishKeepsTwoPhase(w: World, k: AttemptId, result: Result<Committed, BillingError>, kind: WriteKind,
                            ended: bool)
    requires Inv(w) && TwoPhaseInv(w) && k in w.attempts
    requires result.Success? && result.value.outcome.Some? ==> result.value.rows.order.revision > w.rows.order.revision
    requires if kind == AdjustmentWrite then
               && w.attempts[k].AdjustmentReady?
               && (result.Success? && result.value.outcome.Some? ==> UpToDate(w, w.attempts[k]))
             else !PastIntent(w.attempts[k])
    ensures TwoPhaseInv(Finish(w, k, result, kind, ended))
  {
    hide RowsInv, EventsInv, AttemptInv, TwoPhaseInv, UpToDate, LogInv, Evolves, ValidStripe;
    var w' := Finish(w, k, result, kind, ended);
    AttemptBounds(w);
    if result.Failure? || result.value.outcome.None? {
      QuietKeepsTwoPhase(w, w', k);
    } else {
      CommitKeepsTwoPhase(w, w', k);
    }
  }

  lemma FinishMonthlyKeepsTwoPhase(w: World, k: AttemptId, newLicense: LicenseId)
    requires Inv(w) && TwoPhaseInv(w) && k in w.attempts && w.attempts[k].MonthlyReady? && Typed(w, w.attempts[k])
    ensures TwoPhaseInv(FinishMonthlyStep(w, k, newLicense))
  {
    hide Inv, TwoPhaseInv, Finish, ApplyMonthlyPurchase;
    var ctx, view := w.attempts[k].ctx, w.attempts[k].monthly;
    ApplyMonthlyFrame(w.rows, w.binding, w.events[ctx.event].eventType, view, newLicense, ctx.now);
    var result := CommitMonthly(w.rows, w.events, w.binding, ctx.event, view, ctx.revision, newLicense, ctx.now);
    FinishKeepsTwoPhase(w, k, result, MonthlyWrite, false);
  }

  lemma FinishCheckoutKeepsTwoPhase(w: World, k: AttemptId, newLicense: LicenseId)
    requires Inv(w) && TwoPhaseInv(w) && k in w.attempts && w.attempts[k].CheckoutReady? && Typed(w, w.attempts[k])
    ensures TwoPhaseInv(FinishCheckoutStep(w, k, newLicense))
  {
    hide Inv, TwoPhaseInv, Finish, ApplyCheckout;
    var ctx, session := w.attempts[k].ctx, w.attempts[k].session;
    ApplyCheckoutFrame(w.rows, w.binding, w.events[ctx.event].eventType, session, newLicense, ctx.now);
    var result := CommitCheckout(w.rows, w.events, w.binding, ctx.event, session, newLicense, ctx.now);
    FinishKeepsTwoPhase(w, k, result, CheckoutWrite, false);
  }

  lemma FinishAdjustmentKeepsTwoPhase(w: World, k: AttemptId, newLicense: LicenseId)
    requires Inv(w) && TwoPhaseInv(w) && k in w.attempts && w.attempts[k].AdjustmentReady? && Typed(w, w.attempts[k])
    ensures TwoPhaseInv(FinishAdjustmentStep(w, k, newLicense))
  {
    hide TwoPhaseInv, Finish, ApplyAdjustments, SettledAdjustments, RowsInv, EventsInv, HistoryInv, LogInv;
    var ctx, view := w.attempts[k].ctx, w.attempts[k].view;
    assert AttemptInv(w, k);
    CommitAdjustmentRevision(w.rows, w.events, w.binding, ctx.event, view, ctx.revision, newLicense, ctx.now);
    var result := CommitAdjustment(w.rows, w.events, w.binding, ctx.event, view, ctx.revision, newLicense, ctx.now);
    FinishKeepsTwoPhase(w, k, result, AdjustmentWrite, EndedBilling(view));
  }

  lemma CommitAdjustmentRevision(rows: Rows, events: map<EventId, Event>, binding: Binding, event: EventId,
                                 view: AdjustmentSnapshot, revision: nat, newLicense: LicenseId, now: Time)
    requires event in events && Hydrated(rows.order.plan, view)
    ensures var r := CommitAdjustment(rows, events, binding, event, view, revision, newLicense, now);
            r.Success? && r.value.outcome.Some? ==>
              rows.order.revision == revision && r.value.rows.order.revision == revision + 1
  {
  }

  lemma PrepareKeepsTwoPhase(w: World, k: AttemptId)
    requires Inv(w) && TwoPhaseInv(w) && k in w.attempts && w.attempts[k].AdjustmentViewed? && Typed(w, w.attempts[k])
    ensures TwoPhaseInv(PrepareStep(w, k))
  {
    hide RowsInv, EventsInv, LogInv, AttemptInv, TwoPhaseInv, PrepareAdjustment, Hydrated, Evolves, ValidStripe;
    var ctx, view := w.attempts[k].ctx, w.attempts[k].view;
    var w' := PrepareStep(w, k);
    AttemptBounds(w);
    if w'.log == w.log {
      QuietKeepsTwoPhase(w, w', k);
    } else {
      PrepareFrame(w.rows, w.events, ctx.event, view.adjustment, ctx.revision, ctx.now, Current(w));
      CommitKeepsTwoPhase(w, w', k);
    }
  }

  lemma StepKeepsTwoPhase(w: World, w': World)
    requires Inv(w) && TwoPhaseInv(w) && Step(w, w')
    ensures TwoPhaseInv(w')
  {
    hide Inv, TwoPhaseInv, With, Without, Tick, PrepareStep, FinishMonthlyStep, FinishCheckoutStep,
         FinishAdjustmentStep, CallCancelStep, RevokeStep, ReadIntentStep, DeliverCancelStep, HydratedMonthly,
         SawSnapshot, SawMonthly, Evolves, ValidStripe;
    var a :| Enabled(w, a) && w' == Next(w, a);
    match a
    case FinishMonthly(k, newLicense) => FinishMonthlyKeepsTwoPhase(w, k, newLicense);
    case FinishCheckout(k, newLicense) => FinishCheckoutKeepsTwoPhase(w, k, newLicense);
    case FinishAdjustment(k, newLicense) => FinishAdjustmentKeepsTwoPhase(w, k, newLicense);
    case Prepare(k) => PrepareKeepsTwoPhase(w, k);
    case ReadIntent(k) => ReadIntentKeepsTwoPhase(w, k);
    case CallCancel(k) => CallCancelKeepsTwoPhase(w, k);
    case Confirm(k, view) => ConfirmKeepsTwoPhase(w, k, view);
    case _ => ReadingKeepsTwoPhase(w, a);
  }

  /** Steps before an attempt's intent, and those of Stripe, the operator and the crash. */
  lemma ReadingKeepsTwoPhase(w: World, a: Action)
    requires Inv(w) && TwoPhaseInv(w) && WellFormed(w) && Enabled(w, a)
    requires a.StripeMoves? || a.RecordEvent? || a.StartMonthly? || a.HydrateMonthly? || a.StartCheckout?
             || a.StartAdjustment?
             || a.HydrateAdjustment? || a.DeliverCancel? || a.Crash? || a.Revoke?
    ensures TwoPhaseInv(Next(w, a))
  {
    hide RowsInv, EventsInv, HistoryInv, LogInv, AttemptInv, TwoPhaseInv, OwnEntries, HydratedMonthly, SawSnapshot,
         SawMonthly, Evolves, ValidStripe, Hydrated;
    var w' := Next(w, a);
    AttemptBounds(w);
    var k := if a.HydrateMonthly? || a.HydrateAdjustment? || a.Crash? then a.k else Now(w);
    if k in w'.attempts {
      NewcomersOwnNothing(w, w', k);
    }
    QuietKeepsTwoPhase(w, w', k);
  }

  lemma {:induction false} RunIsTwoPhase(run: seq<World>, n: nat)
    requires Run(run) && n < |run|
    ensures TwoPhaseInv(run[n])
    decreases n
  {
    hide TwoPhaseInv, Step;
    if n == 0 {
      InitIsTwoPhase(run[0]);
    } else {
      RunIsTwoPhase(run, n - 1);
      RunKeepsInv(run, n - 1);
      StepKeepsTwoPhase(run[n - 1], run[n]);
    }
  }

  lemma InitIsTwoPhase(w: World)
    requires Init(w)
    ensures TwoPhaseInv(w)
  {
  }

  // ----- no stale overwrite -----

  /** Commit order is observation order: of any two commits on the order, the later one applies only what was read
      after the earlier. The one exception, stated exactly, is an attempt's outcome against its own intent, when
      the rows it finds call for no cancellation: then it applies what it read before that intent. An attempt's
      two commits are adjacent, so no commit of another attempt ever lies between what an attempt read and what
      it did with it, and the run is a serial one. */
  lemma CommitOrderIsObservationOrder(run: seq<World>, n: nat, i: nat, j: nat)
    requires Run(run) && n < |run| && i < j < |run[n].log|
    requires Checked(run[n].log[j].kind)
    ensures run[n].log[i].at < run[n].log[j].at && run[n].log[j].observedFrom < run[n].log[j].at
    ensures var earlier, later := run[n].log[i], run[n].log[j];
            && (earlier.at < later.observedFrom <==> earlier.attempt != later.attempt || CallsForCancel(later.found))
            && (earlier.attempt == later.attempt ==>
                  i == j - 1 && earlier.kind == IntentWrite && later.kind == AdjustmentWrite)
  {
    hide RowsInv, EventsInv, HistoryInv, AttemptInv, OwnEntries, AnyCancelRequired;
    RunKeepsInv(run, n);
    RunIsTwoPhase(run, n);
  }

  /** Every outcome of an adjustment follows directly on its own committed intent. */
  lemma OutcomesFollowTheirIntent(run: seq<World>, n: nat, j: nat)
    requires Run(run) && n < |run| && j < |run[n].log| && run[n].log[j].kind == AdjustmentWrite
    ensures 0 < j && CompletesIntent(run[n].log, j)
  {
    RunIsTwoPhase(run, n);
  }

  /** The exception occurs: a dispute about a perpetual purchase is read, its intent committed, and its outcome
      committed from the same reading. */
  lemma OutcomeMayPredateItsIntent() returns (run: seq<World>)
    ensures Run(run) && run != []
    ensures var log := run[|run| - 1].log;
            && |log| == 2 && log[0].attempt == log[1].attempt && Checked(log[1].kind)
            && log[1].observedFrom < log[0].at
  {
    run := DisputeRead();
    hide Run, WellFormed, Enabled, Next, HasReadDispute;
    DisputeIsPrepared(run[|run| - 1]);
    run := Extended(run, Action.Prepare(2));
    IntentIsRead(run[|run| - 1]);
    run := Extended(run, ReadIntent(2));
    OutcomeIsCommitted(run[|run| - 1]);
    run := Extended(run, FinishAdjustment(2, ""));
  }

  const DISPUTED_CHARGE := Charge(true, false, 1, 0)

  const DISPUTE := AdjustmentView("du_1", Dispute, Some(Blocking), "ch_1", SECOND, DISPUTED_CHARGE)

  /** One attempt has read a dispute about a perpetual order on which nothing has been committed. */
  ghost predicate HasReadDispute(w: World) {
    && w.history != [] && |w.history| > 3 && w.log == [] && w.rows == EmptyRows(PerpetualV1)
    && w.attempts.Keys == {2} && w.attempts[2].AdjustmentViewed?
    && w.attempts[2].view == AdjustmentSnapshot(DISPUTE, None, None, None, None)
    && w.attempts[2].ctx.revision == 0 && w.attempts[2].ctx.observedFrom == 2
    && w.attempts[2].ctx.event in w.events && !w.events[w.attempts[2].ctx.event].Processed()
  }

  lemma DisputeRead() returns (run: seq<World>)
    ensures Run(run) && run != [] && HasReadDispute(run[|run| - 1])
  {
    var stripe := Stripe(Session(SessionComplete, true, false), StripeSubscription(StripeActive, false, None), map[],
                         map["du_1" := DisputeObject(NeedsResponse, 1, "ch_1", 1)], map["ch_1" := DISPUTED_CHARGE]);
    var view := AdjustmentSnapshot(DISPUTE, None, None, None, None);
    run := [World(Binding("pi_1", "sub_1"), EmptyRows(PerpetualV1), map[], [stripe], map[], {}, [])];
    assert Run(run);
    hide Run;
    run := Extended(run, RecordEvent("evt_1", RefundOrDispute, "du_1", SECOND));
    run := Extended(run, StartAdjustment("evt_1", SECOND));
    assert ReadAt(run[2].history[2], run[2].history[2], DISPUTE);
    run := Extended(run, HydrateAdjustment(2, view));
  }

  /** It has committed its intent, and holds what it read before. */
  ghost predicate HasCommittedIntent(w: World) {
    && w.history != [] && |w.log| == 1 && w.log[0].attempt == 2 && 2 < w.log[0].at
    && w.rows.order.plan == PerpetualV1 && w.rows.order.licenseId.None? && w.rows.licenses == map[]
    && w.attempts.Keys == {2} && UpToDate(w, w.attempts[2]) && w.attempts[2].ctx.observedFrom == 2
    && (w.attempts[2].AdjustmentPrepared? || w.attempts[2].AdjustmentReady?)
    && w.attempts[2].view == AdjustmentSnapshot(DISPUTE, None, None, None, None)
    && w.attempts[2].ctx.event in w.events && !w.events[w.attempts[2].ctx.event].Processed()
  }

  lemma DisputeIsPrepared(w: World)
    requires HasReadDispute(w)
    ensures WellFormed(w) && Enabled(w, Action.Prepare(2))
    ensures var after := Next(w, Action.Prepare(2)); HasCommittedIntent(after) && after.attempts[2].AdjustmentPrepared?
  {
    hide Evolves, ValidStripe, SawSnapshot, SawMonthly, HydratedMonthly;
  }

  lemma IntentIsRead(w: World)
    requires HasCommittedIntent(w) && w.attempts[2].AdjustmentPrepared?
    ensures WellFormed(w) && Enabled(w, ReadIntent(2))
    ensures var after := Next(w, ReadIntent(2)); HasCommittedIntent(after) && after.attempts[2].AdjustmentReady?
  {
    hide Evolves, ValidStripe, SawSnapshot, SawMonthly, HydratedMonthly, AnyCancelRequired;
  }

  lemma OutcomeIsCommitted(w: World)
    requires HasCommittedIntent(w) && w.attempts[2].AdjustmentReady?
    ensures WellFormed(w) && Enabled(w, FinishAdjustment(2, ""))
    ensures var log := Next(w, FinishAdjustment(2, "")).log;
            |log| == 2 && log[0] == w.log[0] && log[1].attempt == 2 && log[1].kind == AdjustmentWrite
              && log[1].observedFrom == 2
  {
    hide Evolves, ValidStripe, SawSnapshot, SawMonthly, HydratedMonthly, AnyBlocking, EarliestBlocking;
  }

  lemma Extended(run: seq<World>, a: Action) returns (longer: seq<World>)
    requires Run(run) && WellFormed(run[|run| - 1]) && Enabled(run[|run| - 1], a)
    ensures longer == run + [Next(run[|run| - 1], a)] && Run(longer)
  {
    var last := run[|run| - 1];
    longer := run + [Next(last, a)];
    hide Enabled, Next, Init, WellFormed;
    assert Step(last, Next(last, a));
    forall i | 0 <= i < |longer| - 1 ensures Step(longer[i], longer[i + 1]) {
      if i < |run| - 1 {
        assert Step(run[i], run[i + 1]);
      }
    }
  }
}
