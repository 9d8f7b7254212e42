/** The terms of a license as activation reads them. findLicense and findLicenseByID join `licenses` with
    `subscriptions` in one statement that locks only the license row. When the statement has to wait for that lock,
    it goes on with the license as it is then, beside the subscription as it was when the statement began: a
    license of world j with a subscription row of an earlier world i. */
module EntitlementReads {
  import opened Basics
  import opened Subscription
  import opened Entitlement
  import opened BillingRows
  import opened BillingProtocol
  import opened BillingInvariant
  import opened BillingRun
  import opened BillingSteps
  import opened BillingTransitions
  import opened BillingTheorems

  /** A license as of `after` joined with its subscription as of `before`. */
  function PairedRecord(before: Rows, after: Rows, l: LicenseId): LicenseRecord
    requires l in after.licenses
  {
    var subscription := if l in before.subscriptions then Some(before.subscriptions[l]) else None;
    LicenseRecord(after.order.plan, after.licenses[l], subscription)
  }

  // ----- when it fails, and what it grants -----

  /** A paired read fails exactly when a restriction came between its two parts: the license is restricted, its
      subscription row does not have the terminal time yet. Otherwise it grants access exactly as long as that
      license state and that row say. */
  lemma PairedReadFailsIff(run: seq<World>, i: nat, j: nat, l: LicenseId, now: Time)
    requires Run(run) && i <= j < |run| && l in run[i].rows.licenses
    ensures l in run[j].rows.licenses && run[j].rows.order.plan == run[i].rows.order.plan
    ensures run[i].rows.order.plan == Monthly ==> l in run[i].rows.subscriptions && l in run[j].rows.subscriptions
    ensures var license, plan := run[j].rows.licenses[l], run[j].rows.order.plan;
            var terms := EntitlementTerms(PairedRecord(run[i].rows, run[j].rows, l), now);
            && (terms.Failure? <==>
                  plan == Monthly && run[i].rows.licenses[l] == LicenseActive && IsRestricted(license))
            && (terms.Failure? ==> terms.error == NoTerminalTime)
            && (terms.Success? ==>
                  (terms.value.Some? <==>
                     if plan == PerpetualV1 then license == LicenseActive
                     else license != LicenseRevoked && now < AccessEnds(license, run[i].rows.subscriptions[l])))
  {
    RunKeepsInv(run, i);
    RunKeepsInv(run, j);
    SubscriptionsOfLicenses(run[i]);
    SubscriptionsOfLicenses(run[j]);
    NothingIsUndone(run, i, j);
    PlanIsFixed(run, i, j);
    hide Inv, Init, Step, Run, EntitlementTerms, PairedRecord, AccessEnds, ValidRow;
    PairedOutcome(run[i].rows, run[j].rows, l, now);
  }

  lemma PairedOutcome(before: Rows, after: Rows, l: LicenseId, now: Time)
    requires l in before.licenses && l in after.licenses && after.order.plan == before.order.plan
    requires before.licenses[l] == LicenseRevoked ==> after.licenses[l] == LicenseRevoked
    requires before.order.plan == Monthly ==>
               l in before.subscriptions && ValidRow(before.licenses[l], before.subscriptions[l])
    ensures var license, plan := after.licenses[l], after.order.plan;
            var terms := EntitlementTerms(PairedRecord(before, after, l), now);
            && (terms.Failure? <==>
                  plan == Monthly && before.licenses[l] == LicenseActive && IsRestricted(license))
            && (terms.Failure? ==> terms.error == NoTerminalTime)
            && (terms.Success? ==>
                  (terms.value.Some? <==>
                     if plan == PerpetualV1 then license == LicenseActive
                     else license != LicenseRevoked && now < AccessEnds(license, before.subscriptions[l])))
  {
    hide ValidProjection;
  }

  lemma {:induction false} PlanIsFixed(run: seq<World>, i: nat, j: nat)
    requires Run(run) && i <= j < |run|
    ensures run[j].rows.order.plan == run[i].rows.order.plan
    decreases j
  {
    hide Inv, Init, Enabled, Next, LiftedProperly, NeverExtends;
    if i < j {
      PlanIsFixed(run, i, j - 1);
      RunKeepsInv(run, j - 1);
      assert Step(run[j - 1], run[j]);
      var a :| Enabled(run[j - 1], a) && run[j] == Next(run[j - 1], a);
      StepMoves(run[j - 1], a);
    }
  }

  /** Even so nothing outruns payment, and the issuer never refuses: what a paired read grants passes the issuer's
      checks, rests on a paid invoice, and expires within 21 days of the period that was paid for then, and so of
      the one that is paid for now. */
  lemma PairedTermsArePaidForAndSigned(run: seq<World>, i: nat, j: nat, l: LicenseId, now: Time)
    requires Run(run) && i <= j < |run| && l in run[i].rows.subscriptions
    requires now >= 0 && run[i].rows.subscriptions[l].projection.recoveryUntil <= LAST_TIMESTAMP
    ensures run[i].history != [] && l in run[j].rows.licenses && l in run[j].rows.subscriptions
    ensures var row, current := run[i].rows.subscriptions[l].projection, run[j].rows.subscriptions[l].projection;
            var terms := EntitlementTerms(PairedRecord(run[i].rows, run[j].rows, l), now);
            && PaidFor(row, Current(run[i]))
            && row.periodEnd <= current.periodEnd
            && (terms.Success? && terms.value.Some? ==>
                  && ValidateMonthlyClaims(UnixSeconds(now), terms.value.value).None?
                  && terms.value.value.expiresAt <= UnixSeconds(row.periodEnd) + 21 * 24 * 3600
                  && terms.value.value.expiresAt <= UnixSeconds(current.periodEnd) + 21 * 24 * 3600)
  {
    RunKeepsInv(run, i);
    SubscriptionsOfLicenses(run[i]);
    PaidRows(run[i]);
    PairedReadFailsIff(run, i, j, l, now);
    PaidPeriodNeverMovesBack(run, i, j, l);
    hide Inv, Init, Step, Run;
    var license, row := run[j].rows.licenses[l], run[i].rows.subscriptions[l];
    if license in {LicenseActive, LicenseRevoked} {
      ActiveTermsAreSigned(license, row, now);
    } else if row.terminalAt.Some? {
      IssuerAcceptsEligibleTerms(license, row, now);
      EntitlementNeverOutrunsPayment(license, row, now);
    }
  }

  lemma PaidRows(w: World)
    requires Inv(w)
    ensures w.history != []
    ensures forall l :: l in w.rows.subscriptions ==> PaidFor(w.rows.subscriptions[l].projection, Current(w))
  {
    hide EventsInv, AttemptInv, LogInv, AdjustmentInv, OrderConstraints;
  }

  /** An active license's terms do not look at the terminal time. */
  lemma ActiveTermsAreSigned(license: LicenseState, row: SubscriptionRow, now: Time)
    requires license in {LicenseActive, LicenseRevoked} && ValidProjection(row.projection)
    requires now >= 0 && row.projection.recoveryUntil <= LAST_TIMESTAMP
    ensures var terms := MonthlyEntitlementTerms(license, row, now);
            terms.Success? && terms.value.Some? ==>
              && ValidateMonthlyClaims(UnixSeconds(now), terms.value.value).None?
              && terms.value.value.expiresAt <= UnixSeconds(row.projection.periodEnd) + 21 * 24 * 3600
  {
    IssuerAcceptsEligibleTerms(license, row.(terminalAt := None), now);
    EntitlementNeverOutrunsPayment(license, row.(terminalAt := None), now);
  }

  // ----- the paid period -----

  predicate PeriodsKept(before: Rows, after: Rows) {
    forall l :: l in before.subscriptions ==>
      l in after.subscriptions
      && before.subscriptions[l].projection.periodEnd <= after.subscriptions[l].projection.periodEnd
  }

  lemma {:induction false} AdvancingNeverMovesBack(previous: Projection, invoices: seq<Invoice>)
    ensures AdvanceAll(previous, invoices).periodEnd >= previous.periodEnd
    decreases |invoices|
  {
    if invoices != [] {
      AdvancingNeverMovesBack(previous, invoices[..|invoices| - 1]);
    }
  }

  lemma RestorationNeverMovesBack(view: AdjustmentSnapshot, previous: Projection, now: Time)
    requires view.subscription.Some?
    ensures var r := RestorationProjection(view, previous, now);
            r.Success? ==> r.value.0.periodEnd >= previous.periodEnd
  {
    if view.initial.Some? && view.invoice.Some? && view.latest.Some? {
      AdvancingNeverMovesBack(previous, [view.initial.value, view.invoice.value, view.latest.value]);
    }
    hide AdvanceAll;
  }

  lemma MonthlyKeepsPeriods(rows: Rows, binding: Binding, eventType: EventType, view: MonthlySnapshot,
                            newLicense: LicenseId, now: Time)
    requires newLicense !in rows.subscriptions
    ensures var r := ApplyMonthlyPurchase(rows, binding, eventType, view, newLicense, now);
            r.Success? ==> PeriodsKept(rows, r.value.rows)
  {
  }

  lemma AdjustmentKeepsPeriods(rows: Rows, binding: Binding, view: AdjustmentSnapshot, newLicense: LicenseId, now: Time)
    requires Hydrated(rows.order.plan, view) && newLicense !in rows.subscriptions
    ensures var r := ApplyAdjustments(rows, binding, view, newLicense, now);
            r.Success? ==> PeriodsKept(rows, r.value.rows)
  {
    var id := rows.order.licenseId;
    if rows.order.plan == Monthly && id.Some? && id.value in rows.subscriptions {
      RestorationNeverMovesBack(view, rows.subscriptions[id.value].projection, now);
    }
    hide RestorationProjection, EarliestBlocking;
  }

  lemma FinishMonthlyKeepsPeriods(w: World, k: AttemptId, newLicense: LicenseId)
    requires k in w.attempts && w.attempts[k].MonthlyReady? && Typed(w, w.attempts[k]) && w.history != []
    requires newLicense !in w.rows.subscriptions
    ensures PeriodsKept(w.rows, FinishMonthlyStep(w, k, newLicense).rows)
  {
    var ctx, view := w.attempts[k].ctx, w.attempts[k].monthly;
    MonthlyKeepsPeriods(w.rows, w.binding, w.events[ctx.event].eventType, view, newLicense, ctx.now);
    hide ApplyMonthlyPurchase;
  }

  lemma FinishAdjustmentKeepsPeriods(w: World, k: AttemptId, newLicense: LicenseId)
    requires k in w.attempts && w.attempts[k].AdjustmentReady? && Typed(w, w.attempts[k]) && w.history != []
    requires newLicense !in w.rows.subscriptions
    ensures PeriodsKept(w.rows, FinishAdjustmentStep(w, k, newLicense).rows)
  {
    var ctx, view := w.attempts[k].ctx, w.attempts[k].view;
    var settled := w.rows.(adjustments := SettledAdjustments(w.rows, view, ctx.now));
    AdjustmentKeepsPeriods(settled, w.binding, view, newLicense, ctx.now);
    hide ApplyAdjustments, SettledAdjustments;
  }

  lemma OthersKeepSubscriptions(w: World, a: Action)
    requires WellFormed(w) && Enabled(w, a) && !a.FinishMonthly? && !a.FinishAdjustment?
    ensures Next(w, a).rows.subscriptions == w.rows.subscriptions
  {
    hide SawSnapshot, SawMonthly, Hydrated, HydratedMonthly, Evolves, ValidStripe, PrepareStep, FinishCheckoutStep;
    match a
    case Prepare(k) => PrepareKeepsSubscriptions(w, k);
    case FinishCheckout(k, newLicense) => CheckoutKeepsSubscriptions(w, k, newLicense);
    case _ =>
  }

  lemma PrepareKeepsSubscriptions(w: World, k: AttemptId)
    requires w.history != [] && k in w.attempts && w.attempts[k].AdjustmentViewed? && Typed(w, w.attempts[k])
    ensures PrepareStep(w, k).rows.subscriptions == w.rows.subscriptions
  {
    hide Hydrated, PreparedState, StoredAdjustment;
  }

  lemma CheckoutKeepsSubscriptions(w: World, k: AttemptId, newLicense: LicenseId)
    requires w.history != [] && k in w.attempts && w.attempts[k].CheckoutReady? && Typed(w, w.attempts[k])
    ensures FinishCheckoutStep(w, k, newLicense).rows.subscriptions == w.rows.subscriptions
  {
    hide Hydrated, BillingRestriction;
  }

  lemma StepKeepsPeriods(w: World, a: Action)
    requires Inv(w) && WellFormed(w) && Enabled(w, a)
    ensures PeriodsKept(w.rows, Next(w, a).rows)
  {
    SubscriptionsOfLicenses(w);
    hide Inv, Hydrated, Next, FinishMonthlyStep, FinishAdjustmentStep, SawMonthly, Returned, Evolves, ValidStripe;
    if a.FinishMonthly? {
      FinishMonthlyKeepsPeriods(w, a.k, a.newLicense);
      FinishingSteps(w, a);
    } else if a.FinishAdjustment? {
      FinishAdjustmentKeepsPeriods(w, a.k, a.newLicense);
      FinishingSteps(w, a);
    } else {
      OthersKeepSubscriptions(w, a);
    }
  }

  lemma FinishingSteps(w: World, a: Action)
    requires WellFormed(w) && Enabled(w, a)
    ensures a.FinishMonthly? ==> Next(w, a) == FinishMonthlyStep(w, a.k, a.newLicense)
    ensures a.FinishAdjustment? ==> Next(w, a) == FinishAdjustmentStep(w, a.k, a.newLicense)
  {
  }

  /** Over any stretch of a run the paid period of a license never moves back. */
  lemma {:induction false} PaidPeriodNeverMovesBack(run: seq<World>, i: nat, j: nat, l: LicenseId)
    requires Run(run) && i <= j < |run| && l in run[i].rows.subscriptions
    ensures l in run[j].rows.subscriptions
    ensures run[i].rows.subscriptions[l].projection.periodEnd <= run[j].rows.subscriptions[l].projection.periodEnd
    decreases j
  {
    hide Inv, Init, Enabled, Next;
    if i < j {
      PaidPeriodNeverMovesBack(run, i, j - 1, l);
      RunKeepsInv(run, j - 1);
      assert Step(run[j - 1], run[j]);
      var a :| Enabled(run[j - 1], a) && run[j] == Next(run[j - 1], a);
      StepKeepsPeriods(run[j - 1], a);
    }
  }

  // ----- when an older row outlasts the stored access -----

  predicate HasWindow(p: Projection) {
    p.recoveryUntil == p.periodEnd + RECOVERY_WINDOW
  }

  /** An active license read with an older row has access longer than its own row gives exactly when it has lost
      the recovery window since, and less than that window has been paid for since; and then by no more than the
      window. */
  lemma OlderRowOutlastsIff(run: seq<World>, i: nat, j: nat, l: LicenseId)
    requires Run(run) && i <= j < |run| && l in run[i].rows.subscriptions
    ensures l in run[j].rows.subscriptions
    ensures var older, current := run[i].rows.subscriptions[l], run[j].rows.subscriptions[l];
            var extra := AccessEnds(LicenseActive, older) - AccessEnds(LicenseActive, current);
            && (extra > 0 <==>
                  && HasWindow(older.projection) && !HasWindow(current.projection)
                  && current.projection.periodEnd < older.projection.periodEnd + RECOVERY_WINDOW)
            && extra <= RECOVERY_WINDOW
  {
    PaidPeriodNeverMovesBack(run, i, j, l);
    RunKeepsInv(run, i);
    RunKeepsInv(run, j);
    SubscriptionsOfLicenses(run[i]);
    SubscriptionsOfLicenses(run[j]);
    hide Inv, Init, Step, Run;
  }
}
