/**
 * The documents the controllers load and save, and the in-memory database that holds them.
 * Status values are open strings: the delivery controller writes order statuses that the
 * order schema's enumeration does not list.
 */
module Store {
  import opened Types

  // Order states (order.model.js).
  const Placed := "placed"
  const Pending := "pending"
  const Confirmed := "confirmed"
  const Processing := "processing"
  const Ready := "ready"
  const Delivered := "delivered"
  const Cancelled := "cancelled"
  const Rejected := "rejected"
  const OrderStates: seq<string> :=
    [Placed, Pending, Confirmed, Processing, Ready, Delivered, Cancelled, Rejected]

  // Order statuses written by the delivery controller, outside that enumeration.
  const ReadyForPickup := "ready_for_pickup"
  const AssignedDelivery := "assigned_delivery"
  const OnDelivery := "on_delivery"

  // Payment states.
  const PaymentPending := "pending"
  const Paid := "paid"
  const CashOnDelivery := "cash_on_delivery"

  // Delivery states (delivery.model.js); a new delivery starts in `assigned`.
  const Assigned := "assigned"
  const PartnerConfirmed := "partner_confirmed"
  const PickedUp := "picked_up"
  const OnTheWay := "on_the_way"
  const Failed := "failed"
  const DeliveryStates: seq<string> :=
    [Assigned, PartnerConfirmed, PickedUp, OnTheWay, Delivered, Failed, Cancelled]

  /** An inventory listing: the fields the order workflow reads and writes. */
  datatype Item = Item(name: string, supplier: UserId, price: real, quantityAvailable: int, outOfStock: bool)

  /** A frozen copy of a cart line, taken when the order is placed. */
  datatype OrderLine = OrderLine(item: ItemId, name: string, quantity: int, unitPrice: real, totalPrice: real)

  /** One entry of an order's append-only status history; `updatedBy` is absent on entries the delivery controller writes. */
  datatype HistoryEntry = HistoryEntry(status: string, timestamp: int, updatedBy: Option<UserId>, note: string)

  datatype Order = Order(
    vendor: UserId,
    supplier: UserId,
    items: seq<OrderLine>,
    orderType: string,
    deliveryAddress: Option<string>,
    vendorNotes: Option<string>,
    supplierNotes: Option<string>,
    expectedDate: Option<int>,
    actualCompletionDate: Option<int>,
    actualDeliveryTime: Option<int>,
    subtotal: real,
    cgst: real,
    sgst: real,
    totalAmount: real,
    orderStatus: string,
    paymentStatus: string,
    statusHistory: seq<HistoryEntry>)

  datatype Coordinates = Coordinates(latitude: real, longitude: real)

  /** The live position of a delivery; a new delivery has only the timestamp, from the schema default. */
  datatype CurrentLocation = CurrentLocation(coordinates: Option<Coordinates>, lastUpdated: int)

  datatype TimelineEntry = TimelineEntry(status: string, timestamp: int, location: Option<Coordinates>, note: string)

  datatype Delivery = Delivery(
    orderId: OrderId,
    partner: UserId,
    customerAddress: Option<string>,
    status: string,
    estimatedDeliveryTime: int,
    actualDeliveryTime: Option<int>,
    currentLocation: CurrentLocation,
    timeline: seq<TimelineEntry>)

  /** Total quantity the lines ask for of one item. */
  function QtyOf(ls: seq<OrderLine>, x: ItemId): int
  {
    if ls == [] then 0
    else QtyOf(ls[..|ls| - 1], x) + (if ls[|ls| - 1].item == x then ls[|ls| - 1].quantity else 0)
  }

  lemma {:induction false} QtyOfConcat(a: seq<OrderLine>, b: seq<OrderLine>, x: ItemId)
    ensures QtyOf(a + b, x) == QtyOf(a, x) + QtyOf(b, x)
    decreases |b|
  {
    if b == [] {
      assert a + b == a;
    } else {
      assert (a + b)[..|a + b| - 1] == a + b[..|b| - 1];
      QtyOfConcat(a, b[..|b| - 1], x);
    }
  }

  /** Every stock counter is non-negative. */
  predicate NonNegative(inv: map<ItemId, Item>)
  {
    forall x :: x in inv ==> inv[x].quantityAvailable >= 0
  }

  /** The collections of the marketplace database; `nextId` stands for ObjectId generation. */
  class Database {
    var inventory: map<ItemId, Item>
    var orders: map<OrderId, Order>
    var deliveries: map<DeliveryId, Delivery>
    var nextId: nat

    /** Every stored order and delivery has an identifier below `nextId`, so new identifiers are fresh. */
    ghost predicate Valid()
      reads this
    {
      && (forall k :: k in orders ==> k < nextId)
      && (forall k :: k in deliveries ==> k < nextId)
    }

    constructor (inventory: map<ItemId, Item>)
      ensures Valid()
      ensures this.inventory == inventory && orders == map[] && deliveries == map[] && nextId == 0
    {
      this.inventory := inventory;
      orders := map[];
      deliveries := map[];
      nextId := 0;
    }
  }
}
