/** Why an order is restricted or restored: what Stripe had said, and when, about the refunds and disputes that the
    stored rows stand for. */
module BillingEvidence {
  import opened Basics
  import opened BillingRows
  import opened BillingProtocol
  import opened BillingInvariant
  import opened BillingRun
  import opened BillingSteps

  /** Since `from`, Stripe has given the object a status that goes against the seller. */
  ghost predicate SeenAgainst(history: seq<Stripe>, from: nat, a: ObjectId) {
    exists t, u :: from <= t < |history| && from <= u < |history| && AgainstAt(history[t], history[u], a)
  }

  ghost predicate AgainstAt(first: Stripe, second: Stripe, a: ObjectId) {
    && a in first.objects && first.objects[a].chargeId in second.charges
    && AgainstSeller(first.objects[a], second.charges[first.objects[a].chargeId])
  }

  /** Since `from`, the dispute has been won, closed as a warning or prevented. */
  ghost predicate SeenWon(history: seq<Stripe>, from: nat, a: ObjectId) {
    exists t :: from <= t < |history| && a in history[t].objects && WonBySeller(history[t].objects[a])
  }

  /** Since `from`, the charge has been paid, with money left that was not refunded. */
  ghost predicate SeenStanding(history: seq<Stripe>, from: nat, c: ChargeId) {
    exists u :: from <= u < |history| && c in history[u].charges && Standing(history[u].charges[c])
  }

  predicate Standing(charge: Charge) {
    charge.paid && !charge.refunded && charge.amountRefunded < charge.amount
  }

  /** What an attempt holds is what Stripe said while it was reading. */
  lemma ViewIsEvidence(history: seq<Stripe>, from: nat, a: AdjustmentView)
    requires SawAdjustment(history, from, a)
    ensures a.state == Some(Blocking) ==> SeenAgainst(history, from, a.id)
    ensures a.state == Some(Resolved) ==> SeenWon(history, from, a.id)
    ensures Standing(a.charge) ==> SeenStanding(history, from, a.chargeId)
  {
    var t, u :| from <= t < |history| && from <= u < |history| && ReadAt(history[t], history[u], a);
    var source := history[t].objects[a.id];
    StatusMeans(a.id, source, history[u].charges[source.chargeId]);
    hide RetrieveAdjustment;
    assert a.state == Some(Blocking) ==> AgainstAt(history[t], history[u], a.id);
  }

  ghost predicate SeenAs(history: seq<Stripe>, a: ObjectId, state: AdjustmentState) {
    if state == Blocking then SeenAgainst(history, 0, a) else SeenWon(history, 0, a)
  }

  ghost predicate StatesSeen(w: World) {
    forall a :: a in w.rows.adjustments ==> SeenAs(w.history, a, w.rows.adjustments[a].state)
  }

  lemma SeenLater(history: seq<Stripe>, next: Stripe, a: ObjectId, state: AdjustmentState)
    requires SeenAs(history, a, state)
    ensures SeenAs(history + [next], a, state)
  {
    var longer := history + [next];
    if state == Blocking {
      var t, u :| 0 <= t < |history| && 0 <= u < |history| && AgainstAt(history[t], history[u], a);
      assert longer[t] == history[t] && longer[u] == history[u];
    } else {
      var t :| 0 <= t < |history| && a in history[t].objects && WonBySeller(history[t].objects[a]);
      assert longer[t] == history[t];
    }
  }

  /** The attempt has read this state of the object. */
  ghost predicate HeldBy(attempt: Attempt, a: ObjectId, state: AdjustmentState) {
    HasView(attempt) && attempt.view.adjustment.id == a && attempt.view.adjustment.state == Some(state)
  }

  /** Each stored state is the old one, or what the acting attempt had read. */
  ghost predicate StatesFrom(before: Rows, after: Rows, attempt: Attempt) {
    forall a :: a in after.adjustments ==>
      || (a in before.adjustments && after.adjustments[a].state == before.adjustments[a].state)
      || HeldBy(attempt, a, after.adjustments[a].state)
  }

  lemma PrepareStates(w: World, k: AttemptId)
    requires w.history != [] && k in w.attempts && w.attempts[k].AdjustmentViewed? && Typed(w, w.attempts[k])
    ensures StatesFrom(w.rows, PrepareStep(w, k).rows, w.attempts[k])
  {
    hide Hydrated;
  }

  lemma FinishStates(w: World, k: AttemptId, newLicense: LicenseId)
    requires w.history != [] && k in w.attempts && w.attempts[k].AdjustmentReady? && Typed(w, w.attempts[k])
    ensures StatesFrom(w.rows, FinishAdjustmentStep(w, k, newLicense).rows, w.attempts[k])
  {
    var ctx, view := w.attempts[k].ctx, w.attempts[k].view;
    var settled := w.rows.(adjustments := SettledAdjustments(w.rows, view, ctx.now));
    ApplyFrame(settled, w.binding, Current(w), view, newLicense, ctx.now);
    hide ApplyAdjustments, Hydrated;
  }

  /** Every other step leaves the adjustments alone. */
  lemma OthersKeepAdjustments(w: World, a: Action)
    requires WellFormed(w) && Enabled(w, a) && !a.Prepare? && !a.FinishAdjustment?
    ensures Next(w, a).rows.adjustments == w.rows.adjustments
  {
    hide SawSnapshot, SawMonthly, Hydrated, HydratedMonthly, Evolves, ValidStripe, ApplyCheckout, ApplyMonthlyPurchase;
    match a
    case FinishCheckout(k, newLicense) =>
      var ctx, session := w.attempts[k].ctx, w.attempts[k].session;
      ApplyCheckoutFrame(w.rows, w.binding, w.events[ctx.event].eventType, session, newLicense, ctx.now);
    case FinishMonthly(k, newLicense) =>
      var ctx, view := w.attempts[k].ctx, w.attempts[k].monthly;
      ApplyMonthlyFrame(w.rows, w.binding, w.events[ctx.event].eventType, view, newLicense, ctx.now);
    case _ =>
  }

  lemma HeldWasSeen(w: World, k: AttemptId)
    requires w.history != [] && k in w.attempts && AttemptInv(w, k)
    requires w.attempts[k].AdjustmentViewed? || w.attempts[k].AdjustmentReady?
    ensures SawAdjustment(w.history, 0, w.attempts[k].view.adjustment)
  {
    hide Hydrated, OnlyRevoked, EndedBefore, Confirmed, ReadAt;
    var from, a := w.attempts[k].ctx.observedFrom, w.attempts[k].view.adjustment;
    var t, u :| from <= t < |w.history| && from <= u < |w.history| && ReadAt(w.history[t], w.history[u], a);
  }

  lemma StepStates(w: World, a: Action)
    requires Inv(w) && WellFormed(w) && Enabled(w, a) && (a.Prepare? || a.FinishAdjustment?)
    ensures a.k in w.attempts && HasView(w.attempts[a.k])
            && SawAdjustment(w.history, 0, w.attempts[a.k].view.adjustment)
    ensures StatesFrom(w.rows, Next(w, a).rows, w.attempts[a.k])
  {
    assert AttemptInv(w, a.k);
    hide Inv, AttemptInv, Hydrated, StatesFrom, PrepareStep, FinishAdjustmentStep, SawAdjustment;
    HeldWasSeen(w, a.k);
    match a
    case Prepare(k) => PrepareStates(w, k);
    case FinishAdjustment(k, newLicense) => FinishStates(w, k, newLicense);
  }

  lemma StepHistory(w: World, a: Action)
    requires WellFormed(w) && Enabled(w, a)
    ensures exists next :: Next(w, a).history == w.history + [next]
  {
    hide SawSnapshot, SawMonthly, Hydrated, HydratedMonthly, Evolves, ValidStripe, CommitAdjustment, CommitMonthly,
         CommitCheckout, PrepareAdjustment;
    var after := Next(w, a).history;
    assert after == w.history + [after[|w.history|]];
  }

  /** In every reachable world each stored state is one that Stripe has given its object. */
  lemma {:induction false} StoredStatesWereSeen(run: seq<World>, n: nat)
    requires Run(run) && n < |run|
    ensures StatesSeen(run[n])
    decreases n
  {
    if n > 0 {
      StoredStatesWereSeen(run, n - 1);
      RunKeepsInv(run, n - 1);
      assert Step(run[n - 1], run[n]);
      hide Inv, Enabled, Next, SeenAs, StatesFrom;
      var w := run[n - 1];
      var a :| Enabled(w, a) && run[n] == Next(w, a);
      StepKeepsSeen(w, a);
    }
  }

  lemma StepKeepsSeen(w: World, act: Action)
    requires Inv(w) && WellFormed(w) && Enabled(w, act) && StatesSeen(w)
    ensures StatesSeen(Next(w, act))
  {
    hide Inv, Enabled, Next, SawAdjustment, SeenAs, AttemptInv;
    StepHistory(w, act);
    var next :| Next(w, act).history == w.history + [next];
    var after := Next(w, act).rows;
    if act.Prepare? || act.FinishAdjustment? {
      StepStates(w, act);
      var view := w.attempts[act.k].view.adjustment;
      HeldIsSeen(w.history, view);
      forall a | a in after.adjustments ensures SeenAs(Next(w, act).history, a, after.adjustments[a].state) {
        assert SeenAs(w.history, a, after.adjustments[a].state);
        SeenLater(w.history, next, a, after.adjustments[a].state);
      }
    } else {
      OthersKeepAdjustments(w, act);
      forall a | a in after.adjustments ensures SeenAs(Next(w, act).history, a, after.adjustments[a].state) {
        SeenLater(w.history, next, a, after.adjustments[a].state);
      }
    }
  }

  lemma HeldIsSeen(history: seq<Stripe>, a: AdjustmentView)
    requires SawAdjustment(history, 0, a)
    ensures a.state.Some? ==> SeenAs(history, a.id, a.state.value)
  {
    ViewIsEvidence(history, 0, a);
  }
}
