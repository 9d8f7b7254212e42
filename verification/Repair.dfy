/** The repair loop: processAdjustment run to completion on one pending adjustment after another, over the tables
    of all orders, with every call to Stripe free to fail. */
module Repair {
  import opened Basics
  import opened Subscription
  import opened Entitlement
  import opened BillingRows
  import opened BillingProtocol
  import opened BillingInvariant
  import opened OrderStore

  datatype RepairError = StripeFailed | Billing(error: BillingError) | NoRetryableEvent | RemainsPending

  /** What a worker meets outside the database: whether an object belongs to this order, which does not change,
      and whether finding that out fails; by object and call, a hydrated snapshot or a failure; and whether a
      cancellation's reply arrives. */
  datatype StripeAnswers = StripeAnswers(
    owns: ObjectId -> bool,
    lookup: (ObjectId, nat) -> bool,
    hydrate: (ObjectId, nat) -> Option<AdjustmentSnapshot>,
    cancel: nat -> bool)

  ghost predicate Answers(stripe: StripeAnswers, plan: Plan) {
    forall id, n :: stripe.hydrate(id, n).Some? ==>
      Hydrated(plan, stripe.hydrate(id, n).value) && stripe.hydrate(id, n).value.adjustment.id == id
  }

  /** Stored adjustments belong to the order they are stored for. */
  ghost predicate Owned(stripe: StripeAnswers, adjustments: map<ObjectId, Adjustment>) {
    forall a :: a in adjustments ==> stripe.owns(a)
  }

  function PendingObjects(adjustments: map<ObjectId, Adjustment>): set<ObjectId> {
    set a | a in adjustments && adjustments[a].pending
  }

  /** Events about one object agree on whether it is a refund or dispute: decoding ties the type of an event
      to the prefix of its object. */
  ghost predicate TypedEvents(events: map<EventId, Event>) {
    forall e, f :: e in events && f in events && events[e].objectId == events[f].objectId ==>
      (events[e].eventType == RefundOrDispute <==> events[f].eventType == RefundOrDispute)
  }

  ghost predicate Repairable(rows: Rows, events: map<EventId, Event>) {
    EventsInv(rows, events) && TypedEvents(events)
  }

  /** What an attempt at object `a` may do to the adjustments: nothing to any other row's pending mark. */
  ghost predicate OnlySettles(before: map<ObjectId, Adjustment>, after: map<ObjectId, Adjustment>, a: ObjectId) {
    && before.Keys + {a} == after.Keys + {a} && before.Keys <= after.Keys
    && forall b :: b in before && b != a ==> after[b].pending == before[b].pending
  }

  predicate Done(adjustments: map<ObjectId, Adjustment>, a: ObjectId) {
    a in adjustments ==> !adjustments[a].pending
  }

  lemma PrepareOnlySettles(rows: Rows, events: map<EventId, Event>, event: EventId, a: AdjustmentView, revision: nat,
                           now: Time)
    requires event in events && events[event].objectId == a.id && events[event].eventType == RefundOrDispute
    requires Repairable(rows, events)
    ensures var r := PrepareAdjustment(rows, events, event, a, revision, now);
            r.Success? ==> && OnlySettles(rows.adjustments, r.value.rows.adjustments, a.id)
                           && Repairable(r.value.rows, r.value.events)
                           && r.value.rows.order.plan == rows.order.plan
                           && (a.id in rows.adjustments && rows.adjustments[a.id].pending ==>
                                 r.value.rows.adjustments[a.id].pending)
                           && (if r.value.done then events[event].Processed() || Done(r.value.rows.adjustments, a.id)
                               else r.value.events == events)
  {
    PrepareKeepsEvents(rows, events, event, a, revision, now);
  }

  lemma CommitOnlySettles(rows: Rows, events: map<EventId, Event>, binding: Binding, event: EventId,
                          view: AdjustmentSnapshot, revision: nat, newLicense: LicenseId, now: Time, stripe: Stripe)
    requires event in events && events[event].objectId == view.adjustment.id && Hydrated(rows.order.plan, view)
    requires Repairable(rows, events)
    ensures var r := CommitAdjustment(rows, events, binding, event, view, revision, newLicense, now);
            r.Success? ==> && OnlySettles(rows.adjustments, r.value.rows.adjustments, view.adjustment.id)
                           && (events[event].Processed() || Done(r.value.rows.adjustments, view.adjustment.id))
                           && Repairable(r.value.rows, r.value.events)
                           && r.value.rows.order.plan == rows.order.plan
  {
    hide ApplyAdjustments;
    ApplyFrame(rows.(adjustments := SettledAdjustments(rows, view, now)), binding, stripe, view, newLicense, now);
    SettlingKeepsEvents(rows, events, event, view, now);
  }

  /** An event about an object with no row backs no pending work. */
  lemma UnownedKeepsEvents(rows: Rows, events: map<EventId, Event>, event: EventId)
    requires Repairable(rows, events) && event in events && events[event].objectId !in rows.adjustments
    ensures Repairable(rows, Complete(events, event, IgnoredUnowned))
  {
    var after := Complete(events, event, IgnoredUnowned);
    forall a | a in rows.adjustments && rows.adjustments[a].pending ensures Retryable(after, a) {
      var e :| e in events && events[e].eventType == RefundOrDispute && events[e].objectId == a
        && !events[e].Processed();
      assert e in after && after[e] == events[e];
    }
  }

  // ----- what it takes to succeed -----

  /** A Stripe with nothing in it, for facts that do not depend on what Stripe holds. */
  const ANY_STRIPE := Stripe(Session(SessionOpen, false, false), StripeSubscription(StripeActive, false, None), map[],
                             map[], map[])

  /** An object is the same refund or dispute at every reading, and the one its row was stored for. */
  ghost predicate Consistent(stripe: StripeAnswers, adjustments: map<ObjectId, Adjustment>) {
    forall a, m, n :: stripe.hydrate(a, m).Some? && stripe.hydrate(a, n).Some? ==>
      var first, second := stripe.hydrate(a, m).value.adjustment, stripe.hydrate(a, n).value.adjustment;
      && first.kind == second.kind && first.chargeId == second.chargeId && first.effectiveAt == second.effectiveAt
      && (a in adjustments ==>
            && adjustments[a].kind == first.kind && adjustments[a].chargeId == first.chargeId
            && adjustments[a].effectiveAt == first.effectiveAt)
  }

  /** The license an order names has its rows. */
  predicate Intact(rows: Rows) {
    rows.order.licenseId.Some? ==>
      && rows.order.licenseId.value in rows.licenses
      && (rows.order.plan == Monthly ==> rows.order.licenseId.value in rows.subscriptions)
  }

  ghost predicate Sound(store: Store, stripe: StripeAnswers)
    reads store
  {
    Consistent(stripe, store.adjustments) && Intact(store.Snapshot())
  }

  /** A canceled subscription comes with a reason billing knows. */
  predicate Explained(view: AdjustmentSnapshot) {
    view.subscription.Some? && view.subscription.value.status == StripeCanceled ==> Accepted(view.subscription.value)
  }

  /** Stripe answers everything about the object from this call on: the order is found, the first reading and the
      cancellation succeed, and the reading that follows a cancellation shows it. */
  ghost predicate Obliging(stripe: StripeAnswers, a: ObjectId, call: nat) {
    && stripe.lookup(a, call) && stripe.cancel(call)
    && stripe.hydrate(a, call).Some? && Explained(stripe.hydrate(a, call).value)
    && stripe.hydrate(a, call + 1).Some? && Explained(stripe.hydrate(a, call + 1).value)
    && var confirmed := stripe.hydrate(a, call + 1).value.subscription;
       confirmed.Some? ==> !CanBill(confirmed.value)
  }

  lemma ReadingsAgree(stripe: StripeAnswers, adjustments: map<ObjectId, Adjustment>, a: ObjectId, call: nat)
    requires Consistent(stripe, adjustments) && stripe.hydrate(a, call).Some? && stripe.hydrate(a, call + 1).Some?
    ensures stripe.hydrate(a, call).value.adjustment.chargeId == stripe.hydrate(a, call + 1).value.adjustment.chargeId
  {
  }

  /** The intent of a consistent reading is always stored. */
  lemma ConsistentIntentIsStored(rows: Rows, events: map<EventId, Event>, event: EventId, stripe: StripeAnswers,
                                 a: ObjectId, call: nat, now: Time)
    requires event in events && Consistent(stripe, rows.adjustments)
    requires stripe.hydrate(a, call).Some? && stripe.hydrate(a, call).value.adjustment.id == a
    ensures var r := PrepareAdjustment(rows, events, event, stripe.hydrate(a, call).value.adjustment,
                                       rows.order.revision, now);
            && r.Success? && Consistent(stripe, r.value.rows.adjustments)
            && r.value.rows == rows.(order := r.value.rows.order, adjustments := r.value.rows.adjustments)
            && r.value.rows.order == rows.order.(revision := r.value.rows.order.revision)
            && event in r.value.events && (Intact(rows) ==> Intact(r.value.rows))
  {
    var view := stripe.hydrate(a, call).value.adjustment;
    if a in rows.adjustments {
      assert rows.adjustments[a].kind == view.kind && rows.adjustments[a].chargeId == view.chargeId
             && rows.adjustments[a].effectiveAt == view.effectiveAt;
    }
    var r := PrepareAdjustment(rows, events, event, view, rows.order.revision, now);
    var after := r.value.rows.adjustments;
    hide PrepareAdjustment;
    forall b | b in after
      ensures || (b == a && after[b].kind == view.kind && after[b].chargeId == view.chargeId
                  && after[b].effectiveAt == view.effectiveAt)
              || (b in rows.adjustments && after[b] == rows.adjustments[b])
    {
      PreparedRow(rows, events, event, view, rows.order.revision, now, b);
    }
  }

  lemma PreparedRow(rows: Rows, events: map<EventId, Event>, event: EventId, a: AdjustmentView, revision: nat,
                    now: Time, b: ObjectId)
    requires event in events
    ensures var r := PrepareAdjustment(rows, events, event, a, revision, now);
            r.Success? && b in r.value.rows.adjustments ==>
              var row := r.value.rows.adjustments[b];
              || (b == a.id && row.kind == a.kind && row.chargeId == a.chargeId && row.effectiveAt == a.effectiveAt)
              || (b in rows.adjustments && row == rows.adjustments[b])
  {
  }

  /** The outcome of an explained reading is always committed, and any that is committed leaves the license's rows in
      place. */
  lemma ExplainedCommits(rows: Rows, events: map<EventId, Event>, binding: Binding, event: EventId,
                         view: AdjustmentSnapshot, newLicense: LicenseId, now: Time)
    requires event in events && Hydrated(rows.order.plan, view) && Intact(rows)
    ensures var r := CommitAdjustment(rows, events, binding, event, view, rows.order.revision, newLicense, now);
            (Explained(view) ==> r.Success?) && (r.Success? ==> Intact(r.value.rows))
  {
    hide AdvanceAll, EarliestBlocking, SettledAdjustments, AnyBlocking, AnyBlockingRefund;
  }

  lemma SettledStaysConsistent(rows: Rows, events: map<EventId, Event>, binding: Binding, event: EventId,
                               view: AdjustmentSnapshot, revision: nat, newLicense: LicenseId, now: Time,
                               stripe: StripeAnswers)
    requires event in events && Hydrated(rows.order.plan, view) && Consistent(stripe, rows.adjustments)
    ensures var r := CommitAdjustment(rows, events, binding, event, view, revision, newLicense, now);
            r.Success? ==> Consistent(stripe, r.value.rows.adjustments)
  {
    var settled := rows.(adjustments := SettledAdjustments(rows, view, now));
    ApplyFrame(settled, binding, ANY_STRIPE, view, newLicense, now);
    hide ApplyAdjustments;
  }

  /** processAdjustment: find the order, hydrate, store the intent, cancel and read again where that is called
      for, commit. An object of no order is only recorded as such. */
  method ProcessAdjustment(store: Store, event: BillingEvent, stripe: StripeAnswers, call: nat, newLicense: LicenseId,
                           now: Time)
    returns (r: Result<(), RepairError>)
    requires store.Matches(event) && event.eventType == RefundOrDispute
    requires Answers(stripe, store.order.plan) && Repairable(store.Snapshot(), store.events)
    requires Owned(stripe, store.adjustments)
    modifies store
    ensures Owned(stripe, store.adjustments)
    ensures !stripe.owns(event.objectId) ==> store.Snapshot() == old(store.Snapshot())
    ensures OnlySettles(old(store.adjustments), store.adjustments, event.objectId)
    ensures Repairable(store.Snapshot(), store.events) && store.order.plan == old(store.order.plan)
    ensures r.Failure? ==> r.error.StripeFailed? || r.error.Billing?
    ensures r.Success? ==> old(store.events)[event.id].Processed() || Done(store.adjustments, event.objectId)
    ensures r.Failure? && event.objectId in old(store.adjustments) && old(store.adjustments)[event.objectId].pending ==>
              store.adjustments[event.objectId].pending
    ensures old(Sound(store, stripe)) ==>
              Sound(store, stripe) && (Obliging(stripe, event.objectId, call) ==> r.Success?)
  {
    hide PrepareAdjustment, CommitAdjustment, Hydrated, EventsInv, TypedEvents, Consistent, Intact, Explained, CanBill,
         AnyCancelRequired, Repairable;
    ghost var sound := Sound(store, stripe);
    if !stripe.lookup(event.objectId, call) {
      return Failure(StripeFailed);
    }
    if !stripe.owns(event.objectId) {
      UnownedKeepsEvents(store.Snapshot(), store.events, event.id);
      var ignored := store.Prepare(event, None, store.order.revision, now);
      return Success(());
    }
    var revision := store.order.revision;
    var answer := stripe.hydrate(event.objectId, call);
    if answer.None? {
      return Failure(StripeFailed);
    }
    var view := answer.value;
    if sound {
      ConsistentIntentIsStored(store.Snapshot(), store.events, event.id, stripe, event.objectId, call, now);
    }
    PrepareOnlySettles(store.Snapshot(), store.events, event.id, view.adjustment, revision, now);
    var prepared := store.Prepare(event, Some(view.adjustment), revision, now);
    if prepared.Failure? {
      return Failure(Billing(prepared.error));
    }
    if prepared.value.1 {
      return Success(());
    }
    revision := prepared.value.0;
    if AnyCancelRequired(store.adjustments) && store.order.plan == Monthly {
      assert view.subscription.Some? by { HydratedMonthlyHasSubscription(view); }
      if CanBill(view.subscription.value) && !stripe.cancel(call) {
        return Failure(StripeFailed);
      }
      var current := stripe.hydrate(event.objectId, call + 1);
      if current.None? {
        return Failure(StripeFailed);
      }
      assert current.value.subscription.Some? by { HydratedMonthlyHasSubscription(current.value); }
      if sound {
        ReadingsAgree(stripe, store.adjustments, event.objectId, call);
      }
      if current.value.adjustment.chargeId != view.adjustment.chargeId || CanBill(current.value.subscription.value) {
        return Failure(Billing(SnapshotChanged));
      }
      view := current.value;
    }
    assert Repairable(store.Snapshot(), store.events);
    if store.Matches(event) {
      if sound {
        SettledStaysConsistent(store.Snapshot(), store.events, store.binding, event.id, view, revision, newLicense, now,
                               stripe);
        ExplainedCommits(store.Snapshot(), store.events, store.binding, event.id, view, newLicense, now);
      }
      CommitOnlySettles(store.Snapshot(), store.events, store.binding, event.id, view, revision, newLicense, now,
                        ANY_STRIPE);
    }
    var committed := store.Commit(event, view, revision, newLicense, now);
    if committed.Failure? {
      return Failure(Billing(committed.error));
    }
    r := Success(());
  }

  lemma HydratedMonthlyHasSubscription(view: AdjustmentSnapshot)
    requires Hydrated(Monthly, view)
    ensures view.subscription.Some?
  {
  }

  /** The pending adjustment that has waited longest. */
  method OldestPending(adjustments: map<ObjectId, Adjustment>) returns (oldest: Option<ObjectId>)
    ensures oldest.None? <==> PendingObjects(adjustments) == {}
    ensures oldest.Some? ==> oldest.value in PendingObjects(adjustments)
                             && forall a :: a in PendingObjects(adjustments) ==>
                                  adjustments[oldest.value].updatedAt <= adjustments[a].updatedAt
  {
    oldest := None;
    var rest := PendingObjects(adjustments);
    while rest != {}
      invariant rest <= PendingObjects(adjustments)
      invariant oldest.None? ==> rest == PendingObjects(adjustments)
      invariant oldest.Some? ==> oldest.value in PendingObjects(adjustments)
      invariant oldest.Some? ==> forall a :: a in PendingObjects(adjustments) - rest ==>
                  adjustments[oldest.value].updatedAt <= adjustments[a].updatedAt
      decreases rest
    {
      var a :| a in rest;
      if oldest.None? || adjustments[a].updatedAt < adjustments[oldest.value].updatedAt {
        oldest := Some(a);
      }
      rest := rest - {a};
    }
  }

  function Unprocessed(events: map<EventId, Event>, a: ObjectId): set<EventId> {
    set e | e in events && events[e].objectId == a && !events[e].Processed()
  }

  /** The earliest unprocessed event about an object. */
  method EarliestEvent(events: map<EventId, Event>, a: ObjectId) returns (earliest: Option<EventId>)
    ensures earliest.None? <==> Unprocessed(events, a) == {}
    ensures earliest.Some? ==> earliest.value in Unprocessed(events, a)
                               && forall e :: e in Unprocessed(events, a) ==>
                                    events[earliest.value].createdAt <= events[e].createdAt
  {
    earliest := None;
    var rest := Unprocessed(events, a);
    while rest != {}
      invariant rest <= Unprocessed(events, a)
      invariant earliest.None? ==> rest == Unprocessed(events, a)
      invariant earliest.Some? ==> earliest.value in Unprocessed(events, a)
      invariant earliest.Some? ==> forall e :: e in Unprocessed(events, a) - rest ==>
                  events[earliest.value].createdAt <= events[e].createdAt
      decreases rest
    {
      var e :| e in rest;
      if earliest.None? || events[e].createdAt < events[earliest.value].createdAt {
        earliest := Some(e);
      }
      rest := rest - {e};
    }
  }

  /** A store whose pending work can be retried, and what is outside of it. */
  ghost predicate Ready(store: Store, stripe: StripeAnswers)
    reads store
  {
    && Answers(stripe, store.order.plan) && Owned(stripe, store.adjustments)
    && Repairable(store.Snapshot(), store.events)
  }

  /** The repair of one pending adjustment. It never lacks an event to retry, and never leaves what it processed
      pending; success takes exactly this adjustment off the pending ones of its order, failure none. */
  method RepairObject(store: Store, a: ObjectId, stripe: StripeAnswers, call: nat, newLicense: LicenseId, now: Time)
    returns (r: Result<(), RepairError>)
    requires Ready(store, stripe) && a in PendingObjects(store.adjustments)
    modifies store
    ensures Ready(store, stripe)
    ensures r.Failure? ==> r.error.StripeFailed? || r.error.Billing?
    ensures PendingObjects(store.adjustments) == if r.Success? then PendingObjects(old(store.adjustments)) - {a}
                                                 else PendingObjects(old(store.adjustments))
    ensures old(Sound(store, stripe)) ==>
              Sound(store, stripe) && (Obliging(stripe, a, call) ==> r.Success?)
  {
    hide Sound, Obliging;
    ghost var retryable :| retryable in store.events && store.events[retryable].eventType == RefundOrDispute
                           && store.events[retryable].objectId == a && !store.events[retryable].Processed();
    assert retryable in Unprocessed(store.events, a);
    var next := EarliestEvent(store.events, a);
    if next.None? {
      return Failure(NoRetryableEvent);
    }
    var row := store.events[next.value];
    ghost var before := store.adjustments;
    var processed := ProcessAdjustment(store, BillingEvent(next.value, row.eventType, a, row.createdAt), stripe,
                                       call, newLicense, now);
    assert forall b :: b in PendingObjects(before) - {a} <==> b in PendingObjects(store.adjustments) - {a};
    if processed.Failure? {
      return Failure(processed.error);
    }
    if store.adjustments[a].pending {
      return Failure(RemainsPending);
    }
    assert PendingObjects(store.adjustments) == PendingObjects(before) - {a};
    r := Success(());
  }

  // ----- all orders -----

  type OrderId = string

  /** The tables of all orders: `billing_adjustments` is their union, and no two orders share a row. */
  ghost predicate AllReady(stores: map<OrderId, Store>, stripe: OrderId -> StripeAnswers)
    reads stores.Values
  {
    && (forall o, p :: o in stores && p in stores && o != p ==> stores[o] != stores[p])
    && (forall o :: o in stores ==> Ready(stores[o], stripe(o)))
  }

  ghost predicate AllSound(stores: map<OrderId, Store>, stripe: OrderId -> StripeAnswers)
    reads stores.Values
  {
    forall o :: o in stores ==> Sound(stores[o], stripe(o))
  }

  /** At this call Stripe answers everything about every order. */
  ghost predicate AllObliging(stripe: OrderId -> StripeAnswers, call: nat) {
    forall o, a :: Obliging(stripe(o), a, call)
  }

  /** Stripe answers at every repair: each takes up to two calls. */
  ghost predicate AlwaysObliging(stripe: OrderId -> StripeAnswers) {
    forall n :: n % 2 == 0 ==> AllObliging(stripe, n)
  }

  lemma ObligingAt(stripe: OrderId -> StripeAnswers, repair: nat)
    ensures AlwaysObliging(stripe) ==> AllObliging(stripe, 2 * repair)
  {
  }

  function AllPending(stores: map<OrderId, Store>): set<(OrderId, ObjectId)>
    reads stores.Values
  {
    set o, a | o in stores && a in stores[o].adjustments && stores[o].adjustments[a].pending :: (o, a)
  }

  ghost predicate WaitedLongest(stores: map<OrderId, Store>, o: OrderId, a: ObjectId)
    reads stores.Values
  {
    && (o, a) in AllPending(stores)
    && forall p, b :: (p, b) in AllPending(stores) ==>
         stores[o].adjustments[a].updatedAt <= stores[p].adjustments[b].updatedAt
  }

  /** The pending adjustment of any order that has waited longest. */
  method OldestOfAll(stores: map<OrderId, Store>) returns (oldest: Option<(OrderId, ObjectId)>)
    ensures oldest.None? <==> AllPending(stores) == {}
    ensures oldest.Some? ==>
              WaitedLongest(stores, oldest.value.0, oldest.value.1)
  {
    oldest := None;
    var rest := stores.Keys;
    while rest != {}
      invariant rest <= stores.Keys
      invariant oldest.Some? ==> oldest.value in AllPending(stores)
      invariant forall o, a :: (o, a) in AllPending(stores) && o !in rest ==>
                  && oldest.Some?
                  && stores[oldest.value.0].adjustments[oldest.value.1].updatedAt <= stores[o].adjustments[a].updatedAt
      decreases rest
    {
      var o :| o in rest;
      var own := OldestPending(stores[o].adjustments);
      assert forall a :: (o, a) in AllPending(stores) <==> a in PendingObjects(stores[o].adjustments);
      if own.Some? {
        var row := stores[o].adjustments[own.value];
        if oldest.None? || row.updatedAt < stores[oldest.value.0].adjustments[oldest.value.1].updatedAt {
          oldest := Some((o, own.value));
        }
      }
      rest := rest - {o};
    }
  }

  /** The repair of one pending adjustment, seen from all orders. */
  method RepairIn(stores: map<OrderId, Store>, o: OrderId, a: ObjectId, stripe: OrderId -> StripeAnswers, call: nat,
                  newLicense: LicenseId, now: Time)
    returns (r: Result<(), RepairError>)
    requires AllReady(stores, stripe) && (o, a) in AllPending(stores)
    modifies stores.Values
    ensures AllReady(stores, stripe)
    ensures AllPending(stores) == if r.Success? then old(AllPending(stores)) - {(o, a)} else old(AllPending(stores))
    ensures r.Failure? ==> r.error.StripeFailed? || r.error.Billing?
    ensures old(AllSound(stores, stripe)) ==>
              AllSound(stores, stripe) && (Obliging(stripe(o), a, call) ==> r.Success?)
  {
    hide Sound, Obliging, Answers, Owned, Repairable;
    assert stores[o] in stores.Values;
    r := RepairObject(stores[o], a, stripe(o), call, newLicense, now);
    assert forall p :: p in stores && p != o ==> stores[p].adjustments == old(stores[p].adjustments);
    ghost var own := PendingObjects(stores[o].adjustments);
    assert forall b :: (o, b) in AllPending(stores) <==> b in own;
    assert forall b :: (o, b) in old(AllPending(stores)) <==> b in PendingObjects(old(stores[o].adjustments));
  }

  /** One repair, of the adjustment that has waited longest over all orders. When it reports work done, exactly that
      adjustment is no longer pending; when it fails, what is pending is what was; and with nothing pending it
      reports that there was nothing to do. It does not fail while Stripe answers. */
  method RepairPendingAdjustment(stores: map<OrderId, Store>, stripe: OrderId -> StripeAnswers, call: nat,
                                 newLicense: LicenseId, now: Time)
    returns (r: Result<bool, RepairError>)
    requires AllReady(stores, stripe)
    modifies stores.Values
    ensures AllReady(stores, stripe)
    ensures r == Success(false) <==> old(AllPending(stores)) == {}
    ensures r == Success(true) ==>
              exists o, a :: old(WaitedLongest(stores, o, a))
                && AllPending(stores) == old(AllPending(stores)) - {(o, a)}
    ensures r != Success(true) ==> AllPending(stores) == old(AllPending(stores))
    ensures r.Failure? ==> r.error.StripeFailed? || r.error.Billing?
    ensures old(AllSound(stores, stripe)) ==>
              AllSound(stores, stripe) && (AllObliging(stripe, call) ==> r.Success?)
  {
    hide AllReady, AllSound, AllPending, Obliging;
    var oldest := OldestOfAll(stores);
    if oldest.None? {
      return Success(false);
    }
    var repaired := RepairIn(stores, oldest.value.0, oldest.value.1, stripe, call, newLicense, now);
    if repaired.Failure? {
      return Failure(repaired.error);
    }
    r := Success(true);
  }

  /** The loop of the repair worker: as long as repairs succeed it goes on, and it always comes to rest, with
      nothing pending in any order unless a repair failed; and none fails while Stripe answers. */
  method RepairAll(stores: map<OrderId, Store>, stripe: OrderId -> StripeAnswers, newLicenses: nat -> LicenseId,
                   now: Time)
    returns (repaired: nat, failure: Option<RepairError>)
    requires AllReady(stores, stripe)
    modifies stores.Values
    ensures AllReady(stores, stripe)
    ensures repaired + |AllPending(stores)| == |old(AllPending(stores))|
    ensures failure.None? ==> AllPending(stores) == {}
    ensures failure.Some? ==> failure.value.StripeFailed? || failure.value.Billing?
    ensures old(AllSound(stores, stripe)) && AlwaysObliging(stripe) ==> failure.None?
  {
    hide AllReady, AllPending, AllSound, AllObliging, AlwaysObliging;
    repaired, failure := 0, None;
    var working := true;
    while working
      invariant AllReady(stores, stripe)
      invariant repaired + |AllPending(stores)| == |old(AllPending(stores))|
      invariant !working && failure.None? ==> AllPending(stores) == {}
      invariant failure.Some? ==> failure.value.StripeFailed? || failure.value.Billing?
      invariant old(AllSound(stores, stripe)) ==> AllSound(stores, stripe)
      invariant old(AllSound(stores, stripe)) && AlwaysObliging(stripe) ==> failure.None?
      decreases working, |AllPending(stores)|
    {
      ghost var before := AllPending(stores);
      ObligingAt(stripe, repaired);
      var r := RepairPendingAdjustment(stores, stripe, 2 * repaired, newLicenses(repaired), now);
      match r {
        case Success(true) =>
          ghost var o, a :| (o, a) in before && AllPending(stores) == before - {(o, a)};
          assert before == AllPending(stores) + {(o, a)};
          repaired := repaired + 1;
        case Success(false) =>
          working := false;
        case Failure(error) =>
          working, failure := false, Some(error);
      }
    }
  }
}
