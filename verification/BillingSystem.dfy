/** All orders together: each is its own protocol, and licenses are drawn from fresh identifiers. */
module BillingSystem {
  import opened Basics
  import opened BillingRows
  import opened BillingProtocol
  import opened BillingInvariant
  import opened BillingRun
  import opened BillingSteps

  type OrderId = string

  /** The orders by Checkout Session, each with the worlds of its workers. */
  type System = map<OrderId, World>

  function LicensesOf(s: System): set<LicenseId> {
    set o, l | o in s && l in s[o].rows.licenses :: l
  }

  ghost predicate Fulfilled(s: System, o: OrderId) {
    o in s && s[o].rows.order.state == OrderFulfilled
  }

  /** A step creates an order that was not there (a Session seen again changes nothing), or is a step of one
      order in which any new license gets an identifier no order has used. */
  ghost predicate SystemStep(s: System, s': System, bindings: OrderId -> Binding) {
    || s' == s
    || (exists o, w :: o !in s && Init(w) && w.binding == bindings(o) && s' == s[o := w])
    || (exists o, w :: o in s && Step(s[o], w) && s' == s[o := w]
                       && (forall l :: l in w.rows.licenses && l !in s[o].rows.licenses ==> l !in LicensesOf(s)))
  }

  ghost predicate SystemRun(run: seq<System>, bindings: OrderId -> Binding) {
    && run != [] && run[0] == map[]
    && forall i :: 0 <= i < |run| - 1 ==> SystemStep(run[i], run[i + 1], bindings)
  }

  ghost predicate SystemInv(s: System, bindings: OrderId -> Binding) {
    && (forall o :: o in s ==> Inv(s[o]) && s[o].binding == bindings(o))
    && (forall o, p, l :: o in s && p in s && l in s[o].rows.licenses && l in s[p].rows.licenses ==> o == p)
  }

  lemma BindingKept(w: World, w': World)
    requires Step(w, w')
    ensures w'.binding == w.binding
  {
    hide Enabled;
    var a :| Enabled(w, a) && w' == Next(w, a);
  }

  lemma NewOrderKeepsInv(s: System, o: OrderId, w: World, bindings: OrderId -> Binding)
    requires SystemInv(s, bindings) && o !in s && Init(w) && w.binding == bindings(o)
    ensures SystemInv(s[o := w], bindings)
  {
    InitInv(w);
    hide Inv;
    assert w.rows.licenses == map[];
  }

  lemma OrderStepKeepsInv(s: System, o: OrderId, w: World, bindings: OrderId -> Binding)
    requires SystemInv(s, bindings) && o in s && Step(s[o], w)
    requires forall l :: l in w.rows.licenses && l !in s[o].rows.licenses ==> l !in LicensesOf(s)
    ensures SystemInv(s[o := w], bindings)
  {
    hide Inv, Step;
    StepKeepsInv(s[o], w);
    BindingKept(s[o], w);
    forall p, l | p in s && p != o && l in s[p].rows.licenses ensures l !in w.rows.licenses {
      assert l in LicensesOf(s);
    }
  }

  lemma SystemStepKeepsInv(s: System, s': System, bindings: OrderId -> Binding)
    requires SystemInv(s, bindings) && SystemStep(s, s', bindings)
    ensures SystemInv(s', bindings)
  {
    hide Inv, Step, Init, SystemInv;
    if s' != s {
      if o, w :| o !in s && Init(w) && w.binding == bindings(o) && s' == s[o := w] {
        NewOrderKeepsInv(s, o, w, bindings);
      } else {
        var o, w :| o in s && Step(s[o], w) && s' == s[o := w]
                    && (forall l :: l in w.rows.licenses && l !in s[o].rows.licenses ==> l !in LicensesOf(s));
        OrderStepKeepsInv(s, o, w, bindings);
      }
    }
  }

  lemma {:induction false} SystemRunKeepsInv(run: seq<System>, i: nat, bindings: OrderId -> Binding)
    requires SystemRun(run, bindings) && i < |run|
    ensures SystemInv(run[i], bindings)
    decreases i
  {
    if i > 0 {
      SystemRunKeepsInv(run, i - 1, bindings);
      SystemStepKeepsInv(run[i - 1], run[i], bindings);
    }
  }

  /** Over all orders and all three ways of issuing, licenses and fulfilled orders are in bijection: every
      fulfilled order has exactly one license, every license belongs to exactly one order, and that order is
      fulfilled. */
  lemma LicensesAreFulfilledOrders(run: seq<System>, i: nat, bindings: OrderId -> Binding)
    requires SystemRun(run, bindings) && i < |run|
    ensures forall o :: Fulfilled(run[i], o) ==>
              run[i][o].rows.order.licenseId.Some?
                && run[i][o].rows.licenses.Keys == {run[i][o].rows.order.licenseId.value}
    ensures forall l :: l in LicensesOf(run[i]) ==>
              exists o :: Fulfilled(run[i], o) && run[i][o].rows.order.licenseId == Some(l)
    ensures forall o, p | Fulfilled(run[i], o) && Fulfilled(run[i], p) && o != p ::
              run[i][o].rows.order.licenseId != run[i][p].rows.order.licenseId
  {
    SystemRunKeepsInv(run, i, bindings);
    var s := run[i];
    forall o | o in s
      ensures s[o].rows.licenses.Keys == IssuedTo(s[o].rows.order)
      ensures s[o].rows.order.state == OrderFulfilled <==> s[o].rows.order.licenseId.Some?
    {
      assert Inv(s[o]);
    }
    hide Inv;
    forall l | l in LicensesOf(s) ensures exists o :: Fulfilled(s, o) && s[o].rows.order.licenseId == Some(l) {
      var o :| o in s && l in s[o].rows.licenses;
      assert Fulfilled(s, o) && s[o].rows.order.licenseId == Some(l);
    }
  }

  /** The references that orders store are those of their own Sessions: where both are stored they are equal exactly
      when Stripe ties the two Sessions to the same payment intent or subscription. And every stored last invoice is
      a paid invoice of its own order's. So the UNIQUE constraints are violated only if Stripe shares one of these
      between Sessions. */
  lemma ReferencesClashOnlyInStripe(run: seq<System>, i: nat, bindings: OrderId -> Binding, o: OrderId, p: OrderId)
    requires SystemRun(run, bindings) && i < |run| && o in run[i] && p in run[i]
    ensures var a, b := run[i][o].rows.order, run[i][p].rows.order;
            && (a.paymentId.Some? && b.paymentId.Some? ==>
                  (a.paymentId == b.paymentId <==> bindings(o).paymentId == bindings(p).paymentId))
            && (a.subscriptionId.Some? && b.subscriptionId.Some? ==>
                  (a.subscriptionId == b.subscriptionId <==> bindings(o).subscriptionId == bindings(p).subscriptionId))
    ensures run[i][o].history != []
    ensures forall l :: l in run[i][o].rows.subscriptions ==>
              PaidFor(run[i][o].rows.subscriptions[l].projection, Current(run[i][o]))
  {
    SystemRunKeepsInv(run, i, bindings);
  }
}
