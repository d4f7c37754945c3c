/**
 * The delivery controller: assigning a delivery partner to an order, updating a delivery's
 * status and mirroring it onto the order, and the customer's tracking view.
 */
module Deliveries {
  import opened Types
  import opened Store
  import opened OrderLifecycle

  /** The default estimated delivery time: 30 minutes after the assignment, in milliseconds. */
  const DefaultEtaMillis := 30 * 60000
  const MillisPerMinute := 60000

  // ---------------------------------------------------------------------------
  // Assignment
  // ---------------------------------------------------------------------------

  /** The estimated delivery time: the one given, or 30 minutes from now. */
  function EstimatedArrival(eta: Option<int>, now: int): (r: int)
    ensures eta.Some? ==> r == eta.value
    ensures eta.None? ==> r == now + DefaultEtaMillis
  {
    if eta.Some? then eta.value else now + DefaultEtaMillis
  }

  /**
   * The delivery created for an order: status `assigned` (the schema default), the order's
   * delivery address, a location carrying only the creation time, and an empty timeline.
   */
  function NewDelivery(orderId: OrderId, partner: UserId, o: Order, eta: Option<int>, now: int): (d: Delivery)
    ensures d.orderId == orderId && d.partner == partner && d.customerAddress == o.deliveryAddress
    ensures d.status == Assigned && d.estimatedDeliveryTime == EstimatedArrival(eta, now)
    ensures d.actualDeliveryTime.None? && d.currentLocation == CurrentLocation(None, now) && d.timeline == []
  {
    Delivery(orderId, partner, o.deliveryAddress, Assigned, EstimatedArrival(eta, now), None, CurrentLocation(None, now), [])
  }

  /** The order once a partner is assigned: `assigned_delivery`, with one history entry that names no actor. */
  function AssignedOrder(o: Order, now: int): (r: Order)
    ensures r.orderStatus == AssignedDelivery
    ensures r.statusHistory == o.statusHistory + [HistoryEntry(AssignedDelivery, now, None, "Assigned to delivery partner")]
    ensures r.(orderStatus := o.orderStatus, statusHistory := o.statusHistory) == o
  {
    o.(orderStatus := AssignedDelivery,
       statusHistory := o.statusHistory + [HistoryEntry(AssignedDelivery, now, None, "Assigned to delivery partner")])
  }

  /** Only an order in `ready_for_pickup` can be assigned. */
  function AssignDecision(orders: map<OrderId, Order>, orderId: OrderId): (r: Code)
    ensures r == NotFound <==> orderId !in orders
    ensures r == Ok <==> orderId in orders && orders[orderId].orderStatus == ReadyForPickup
    ensures r in {Ok, NotFound, NotReady}
  {
    if orderId !in orders then NotFound
    else if orders[orderId].orderStatus != ReadyForPickup then NotReady
    else Ok
  }

  /**
   * assignDelivery: NotFound or NotReady with nothing changed; otherwise a new delivery is
   * saved under a fresh identifier and the order moves to `assigned_delivery`.
   */
  method AssignDelivery(db: Database, orderId: OrderId, partner: UserId, eta: Option<int>, now: int)
    returns (code: Code, id: Option<DeliveryId>)
    requires db.Valid()
    modifies db
    ensures db.Valid()
    ensures db.inventory == old(db.inventory)
    ensures code == AssignDecision(old(db.orders), orderId)
    ensures code != Ok ==> id.None? && unchanged(db)
    ensures code == Ok ==>
      var o := old(db.orders[orderId]);
      && id == Some(old(db.nextId)) && old(db.nextId) !in old(db.deliveries)
      && db.deliveries == old(db.deliveries)[old(db.nextId) := NewDelivery(orderId, partner, o, eta, now)]
      && db.nextId == old(db.nextId) + 1
      && db.orders == old(db.orders)[orderId := AssignedOrder(o, now)]
  {
    if orderId !in db.orders {
      return NotFound, None;
    }
    var o := db.orders[orderId];
    if o.orderStatus != ReadyForPickup {
      return NotReady, None;
    }
    var d := NewDelivery(orderId, partner, o, eta, now);
    id := Some(db.nextId);
    db.deliveries := db.deliveries[db.nextId := d];
    db.nextId := db.nextId + 1;
    db.orders := db.orders[orderId := AssignedOrder(o, now)];
    code := Ok;
  }

  // ---------------------------------------------------------------------------
  // Status updates
  // ---------------------------------------------------------------------------

  /** The order status a delivery status is mirrored as: `on_the_way` becomes `on_delivery`, anything else is copied. */
  function OrderStatusFor(status: string): (r: string)
    ensures status == OnTheWay ==> r == OnDelivery
    ensures status != OnTheWay ==> r == status
  {
    if status == OnTheWay then OnDelivery else status
  }

  /**
   * The delivery after a status update: the status is set with no transition check, the
   * location replaced only when one is given, one timeline entry appended, and the delivery
   * time stamped when the status is `delivered`.
   */
  function Updated(d: Delivery, status: string, location: Option<Coordinates>, note: Option<string>, now: int): (r: Delivery)
    ensures r.status == status
    ensures r.timeline == d.timeline + [TimelineEntry(status, now, location, OrElse(note, ""))]
    ensures location.Some? ==> r.currentLocation == CurrentLocation(location, now)
    ensures location.None? ==> r.currentLocation == d.currentLocation
    ensures r.actualDeliveryTime == if status == Delivered then Some(now) else d.actualDeliveryTime
    ensures r.(status := d.status, timeline := d.timeline, currentLocation := d.currentLocation,
               actualDeliveryTime := d.actualDeliveryTime) == d
  {
    d.(status := status,
       currentLocation := if location.Some? then CurrentLocation(location, now) else d.currentLocation,
       timeline := d.timeline + [TimelineEntry(status, now, location, OrElse(note, ""))],
       actualDeliveryTime := if status == Delivered then Some(now) else d.actualDeliveryTime)
  }

  /** One call of the status update, as the partner's request gives it. */
  datatype StatusUpdate = StatusUpdate(status: string, location: Option<Coordinates>, note: Option<string>, at: int)

  /** A delivery after a series of status updates, oldest first. */
  function Replay(d: Delivery, us: seq<StatusUpdate>): Delivery
  {
    if us == [] then d
    else
      var u := us[|us| - 1];
      Updated(Replay(d, us[..|us| - 1]), u.status, u.location, u.note, u.at)
  }

  /**
   * The timeline is an append-only log: a series of updates keeps the old entries and adds
   * one entry per update, in order, with that update's status and time; the delivery ends in
   * the last status asked for, and a delivery time once stamped is never cleared.
   */
  lemma {:induction false} ReplayTimeline(d: Delivery, us: seq<StatusUpdate>)
    ensures var r := Replay(d, us);
      && |r.timeline| == |d.timeline| + |us|
      && r.timeline[..|d.timeline|] == d.timeline
      && (forall i :: 0 <= i < |us| ==>
            r.timeline[|d.timeline| + i].status == us[i].status && r.timeline[|d.timeline| + i].timestamp == us[i].at)
      && (us != [] ==> r.status == us[|us| - 1].status)
      && (d.actualDeliveryTime.Some? ==> r.actualDeliveryTime.Some?)
      && r.orderId == d.orderId && r.partner == d.partner && r.estimatedDeliveryTime == d.estimatedDeliveryTime
  {
    if us != [] {
      var p := us[..|us| - 1];
      ReplayTimeline(d, p);
      var q := Replay(d, p);
      var r := Replay(d, us);
      assert r.timeline == q.timeline + [TimelineEntry(us[|us| - 1].status, us[|us| - 1].at, us[|us| - 1].location,
                                                       OrElse(us[|us| - 1].note, ""))];
      assert forall i :: 0 <= i < |p| ==> us[i] == p[i];
    }
  }

  /**
   * The parent order after a delivery status update: its status mirrors the delivery's, one
   * history entry is appended, and its delivery time is stamped when the status is `delivered`.
   */
  function Mirrored(o: Order, status: string, note: Option<string>, now: int): (r: Order)
    ensures r.orderStatus == OrderStatusFor(status)
    ensures r.statusHistory
            == o.statusHistory + [HistoryEntry(OrderStatusFor(status), now, None, OrElse(note, "Delivery " + status))]
    ensures r.actualDeliveryTime == if status == Delivered then Some(now) else o.actualDeliveryTime
    ensures r.(orderStatus := o.orderStatus, statusHistory := o.statusHistory, actualDeliveryTime := o.actualDeliveryTime) == o
  {
    var s := OrderStatusFor(status);
    o.(orderStatus := s,
       statusHistory := o.statusHistory + [HistoryEntry(s, now, None, OrElse(note, "Delivery " + status))],
       actualDeliveryTime := if status == Delivered then Some(now) else o.actualDeliveryTime)
  }

  /**
   * updateDeliveryStatus: NotFound with nothing changed for a missing delivery; otherwise the
   * delivery is updated and, when its order exists, the order mirrors the new status. A
   * missing order does not make the call fail.
   */
  method UpdateDeliveryStatus(db: Database, deliveryId: DeliveryId, status: string,
                              location: Option<Coordinates>, note: Option<string>, now: int)
    returns (code: Code)
    requires db.Valid()
    modifies db
    ensures db.Valid()
    ensures db.inventory == old(db.inventory) && db.nextId == old(db.nextId)
    ensures deliveryId !in old(db.deliveries) ==> code == NotFound && unchanged(db)
    ensures deliveryId in old(db.deliveries) ==>
      var d := old(db.deliveries[deliveryId]);
      && code == Ok
      && db.deliveries == old(db.deliveries)[deliveryId := Updated(d, status, location, note, now)]
      && db.orders == if d.orderId in old(db.orders)
                      then old(db.orders)[d.orderId := Mirrored(old(db.orders[d.orderId]), status, note, now)]
                      else old(db.orders)
  {
    if deliveryId !in db.deliveries {
      return NotFound;
    }
    var d := db.deliveries[deliveryId];
    db.deliveries := db.deliveries[deliveryId := Updated(d, status, location, note, now)];
    if d.orderId in db.orders {
      var o := db.orders[d.orderId];
      db.orders := db.orders[d.orderId := Mirrored(o, status, note, now)];
    }
    code := Ok;
  }

  // ---------------------------------------------------------------------------
  // Tracking
  // ---------------------------------------------------------------------------

  /** Whole minutes until the estimated delivery time, never negative (`floor` of a millisecond difference). */
  function RemainingMinutes(eta: int, now: int): (r: nat)
    ensures eta <= now ==> r == 0
    ensures eta > now ==> r * MillisPerMinute <= eta - now < (r + 1) * MillisPerMinute
  {
    var m := (eta - now) / MillisPerMinute;
    if m < 0 then 0 else m
  }

  /** What a customer sees of a delivery: no timeline. */
  datatype TrackingView = TrackingView(
    status: string,
    estimatedDeliveryTime: int,
    estimatedTimeRemaining: nat,
    currentLocation: CurrentLocation,
    partner: UserId)

  function View(d: Delivery, now: int): (v: TrackingView)
    ensures v.status == d.status && v.estimatedDeliveryTime == d.estimatedDeliveryTime
    ensures v.estimatedTimeRemaining == RemainingMinutes(d.estimatedDeliveryTime, now)
    ensures v.currentLocation == d.currentLocation && v.partner == d.partner
  {
    TrackingView(d.status, d.estimatedDeliveryTime, RemainingMinutes(d.estimatedDeliveryTime, now),
                 d.currentLocation, d.partner)
  }

  /** The first delivery for an order, in the order deliveries were created. */
  method FindDelivery(db: Database, orderId: OrderId) returns (found: Option<DeliveryId>)
    requires db.Valid()
    ensures found.Some? ==>
      && found.value in db.deliveries && db.deliveries[found.value].orderId == orderId
      && forall k :: k in db.deliveries && k < found.value ==> db.deliveries[k].orderId != orderId
    ensures found.None? ==> forall k :: k in db.deliveries ==> db.deliveries[k].orderId != orderId
  {
    var k := 0;
    while k < db.nextId
      invariant 0 <= k <= db.nextId
      invariant forall j :: j in db.deliveries && j < k ==> db.deliveries[j].orderId != orderId
    {
      if k in db.deliveries && db.deliveries[k].orderId == orderId {
        return Some(k);
      }
      k := k + 1;
    }
    found := None;
  }

  /** trackDelivery: NotFound when the order has no delivery; otherwise the view of its first delivery. */
  method TrackDelivery(db: Database, orderId: OrderId, now: int) returns (code: Code, view: Option<TrackingView>)
    requires db.Valid()
    ensures code == NotFound <==> forall k :: k in db.deliveries ==> db.deliveries[k].orderId != orderId
    ensures code in {Ok, NotFound}
    ensures view.Some? <==> code == Ok
    ensures code == Ok ==> exists k :: k in db.deliveries && db.deliveries[k].orderId == orderId
                                       && (forall j :: j in db.deliveries && j < k ==> db.deliveries[j].orderId != orderId)
                                       && view == Some(View(db.deliveries[k], now))
  {
    var found := FindDelivery(db, orderId);
    if found.None? {
      return NotFound, None;
    }
    code, view := Ok, Some(View(db.deliveries[found.value], now));
  }

  // ---------------------------------------------------------------------------
  // How deliveries meet the order state machine
  // ---------------------------------------------------------------------------

  /**
   * No move of the state machine leads to `ready_for_pickup`; besides being created in it, an
   * order reaches it only when a delivery update asks for that status and it is copied verbatim.
   */
  lemma {:induction false} ReadyForPickupOnlyByMirror(o: Order, user: UserId, target: string,
                                                      supplierNotes: Option<string>, expectedDate: Option<int>,
                                                      status: string, note: Option<string>, now: int)
    ensures StatusDecision(o, user, target) == Ok ==>
      Transitioned(o, user, target, supplierNotes, expectedDate, now).orderStatus != ReadyForPickup
    ensures Mirrored(o, status, note, now).orderStatus == ReadyForPickup <==> status == ReadyForPickup
  {
    if StatusDecision(o, user, target) == Ok {
      assert target in Transitions(o.orderStatus).value;
      assert ReadyForPickup !in OrderStates;
    }
  }

  /**
   * Once assigned, an order's status has no entry in the transition table, so its supplier's
   * next status update fails with ServerError until a delivery update changes the status.
   */
  lemma {:induction false} AssignedLeavesTable(o: Order, now: int, target: string)
    ensures StatusDecision(AssignedOrder(o, now), o.supplier, target) == ServerError
  {
    assert AssignedDelivery !in OrderStates;
  }

  /** A delivery update to `delivered` makes the order's payment confirmable by its supplier. */
  lemma {:induction false} DeliveredEnablesPayment(o: Order, note: Option<string>, now: int)
    ensures PaymentDecision(Mirrored(o, Delivered, note, now), o.supplier) == Ok
  {
  }

  /**
   * Of the seven delivery statuses, only `delivered` and `cancelled` mirror onto an order
   * status the transition table has an entry for; after any other delivery update the
   * supplier's status updates fail with ServerError.
   */
  lemma {:induction false} MirrorLeavesTable(s: string)
    requires s in DeliveryStates
    ensures OrderStatusFor(s) in OrderStates <==> s == Delivered || s == Cancelled
  {
  }

  /** Copying unmapped statuses verbatim: a failed or cancelled delivery overwrites the order's status. */
  lemma {:induction false} UnmappedCopied(o: Order, note: Option<string>, now: int)
    ensures Mirrored(o, Failed, note, now).orderStatus == Failed
    ensures Mirrored(o, Cancelled, note, now).orderStatus == Cancelled
    ensures Mirrored(o, PartnerConfirmed, note, now).orderStatus == PartnerConfirmed
  {
  }
}
