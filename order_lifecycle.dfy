/**
 * The order status state machine (updateOrderStatus) and payment confirmation
 * (confirmPayment) of order.controller.js.
 */
module OrderLifecycle {
  import opened Types
  import opened Store
  import opened Checkout

  // ---------------------------------------------------------------------------
  // The transition table
  // ---------------------------------------------------------------------------

  /**
   * The states a supplier may move an order to from `status`; `None` for a status the
   * table has no entry for (the lookup then throws, and the call fails with ServerError).
   */
  function Transitions(status: string): (r: Option<seq<string>>)
    ensures r.Some? <==> status in OrderStates
    ensures r == Some([]) <==> status in [Delivered, Cancelled, Rejected]
    ensures r.Some? ==> forall t :: t in r.value ==> t in OrderStates && t !in [Placed, Pending, Cancelled]
  {
    if status == Placed || status == Pending then Some([Confirmed, Rejected])
    else if status == Confirmed then Some([Processing])
    else if status == Processing then Some([Ready])
    else if status == Ready then Some([Delivered])
    else if status == Delivered || status == Cancelled || status == Rejected then Some([])
    else None
  }

  /**
   * The guards of a status update, in the order the controller checks them: only the
   * supplier may move an order, except towards `cancelled`; the current status must have a
   * table entry; the target must be listed there.
   */
  function StatusDecision(o: Order, user: UserId, target: string): (r: Code)
    ensures r in {Ok, Forbidden, ServerError, IllegalTransition}
    ensures r == Forbidden <==> o.supplier != user && target != Cancelled
    ensures r == Ok <==>
      && (o.supplier == user || target == Cancelled)
      && Transitions(o.orderStatus).Some? && target in Transitions(o.orderStatus).value
    ensures r == ServerError <==> (o.supplier == user || target == Cancelled) && Transitions(o.orderStatus).None?
    ensures r == IllegalTransition <==>
      && (o.supplier == user || target == Cancelled)
      && Transitions(o.orderStatus).Some? && target !in Transitions(o.orderStatus).value
  {
    if o.supplier != user && target != Cancelled then Forbidden
    else
      match Transitions(o.orderStatus)
      case None => ServerError
      case Some(next) => if target in next then Ok else IllegalTransition
  }

  /**
   * Cancelling passes the authorization check, but no state lists `cancelled`: a move to
   * `cancelled` is never accepted, whoever asks.
   */
  lemma {:induction false} CancelNeverAccepted(o: Order, user: UserId)
    ensures StatusDecision(o, user, Cancelled) != Ok
    ensures StatusDecision(o, user, Cancelled) != Forbidden
  {
  }

  /** Anyone but the supplier asking for anything but `cancelled` is refused, whatever the order's state. */
  lemma {:induction false} OnlySupplierMoves(o: Order, user: UserId, target: string)
    requires StatusDecision(o, user, target) == Ok
    ensures user == o.supplier
  {
    CancelNeverAccepted(o, user);
  }

  /** An order in a terminal state accepts no move. */
  lemma {:induction false} TerminalRefuses(o: Order, user: UserId, target: string)
    requires o.orderStatus in [Delivered, Cancelled, Rejected]
    ensures StatusDecision(o, user, target) != Ok
  {
  }

  /** An order the delivery controller has moved to a status outside the table fails with ServerError for its supplier. */
  lemma {:induction false} OffTableStatus(o: Order, target: string)
    requires o.orderStatus !in OrderStates
    ensures StatusDecision(o, o.supplier, target) == ServerError
  {
  }

  // ---------------------------------------------------------------------------
  // An accepted move
  // ---------------------------------------------------------------------------

  /**
   * The order after an accepted move to `target` by `user`; `now` is the clock reading. The
   * move sets the status, appends exactly one history entry naming the actor, stamps the
   * completion date exactly when the target is `delivered`, and touches nothing else of the
   * order but the notes and the expected date it was given.
   */
  function Transitioned(o: Order, user: UserId, target: string, supplierNotes: Option<string>,
                        expectedDate: Option<int>, now: int): (r: Order)
    ensures r.orderStatus == target
    ensures |r.statusHistory| == |o.statusHistory| + 1 && r.statusHistory[..|o.statusHistory|] == o.statusHistory
    ensures var e := r.statusHistory[|o.statusHistory|];
      && e.status == target && e.updatedBy == Some(user) && e.timestamp == now
      && e.note == (if Truthy(supplierNotes) then supplierNotes.value else "Status updated to " + target)
    ensures r.supplierNotes == if Truthy(supplierNotes) then supplierNotes else o.supplierNotes
    ensures r.expectedDate == if expectedDate.Some? then expectedDate else o.expectedDate
    ensures r.actualCompletionDate == if target == Delivered then Some(now) else o.actualCompletionDate
    ensures r.(orderStatus := o.orderStatus, supplierNotes := o.supplierNotes, expectedDate := o.expectedDate,
               actualCompletionDate := o.actualCompletionDate, statusHistory := o.statusHistory) == o
  {
    o.(orderStatus := target,
       supplierNotes := if Truthy(supplierNotes) then supplierNotes else o.supplierNotes,
       expectedDate := if expectedDate.Some? then expectedDate else o.expectedDate,
       actualCompletionDate := if target == Delivered then Some(now) else o.actualCompletionDate,
       statusHistory := o.statusHistory + [HistoryEntry(target, now, Some(user),
                                                        OrElse(supplierNotes, "Status updated to " + target))])
  }

  /**
   * A rejected order is terminal, so a repeated rejection (or any later move) is refused
   * before any stock is released again.
   */
  lemma {:induction false} NoDoubleRelease(o: Order, user: UserId, supplierNotes: Option<string>, expectedDate: Option<int>,
                                           now: int, user': UserId, target': string)
    ensures StatusDecision(Transitioned(o, user, Rejected, supplierNotes, expectedDate, now), user', target') != Ok
  {
  }

  // ---------------------------------------------------------------------------
  // Releasing stock
  // ---------------------------------------------------------------------------

  /** Put one line's quantity back and clear `outOfStock`; a missing item throws. */
  function ReleaseLine(inv: map<ItemId, Item>, l: OrderLine): Reservation
  {
    if l.item !in inv then Stopped(ServerError, inv)
    else
      var it := inv[l.item];
      Reserved(inv[l.item := it.(quantityAvailable := it.quantityAvailable + l.quantity, outOfStock := false)])
  }

  /** Release the lines one by one, stopping at the first missing item. */
  function ReleaseLines(inv: map<ItemId, Item>, ls: seq<OrderLine>): Reservation
  {
    if ls == [] then Reserved(inv)
    else
      match ReleaseLines(inv, ls[..|ls| - 1])
      case Stopped(c, i) => Stopped(c, i)
      case Reserved(i) => ReleaseLine(i, ls[|ls| - 1])
  }

  /** Every line names an item of the inventory. */
  predicate AllKnown(inv: map<ItemId, Item>, ls: seq<OrderLine>)
  {
    forall j :: 0 <= j < |ls| ==> ls[j].item in inv
  }

  /**
   * Release completes exactly when every line's item exists, keeps the inventory's items,
   * and touches only the items the lines name.
   */
  lemma {:induction false} ReleaseLinesFrame(inv: map<ItemId, Item>, ls: seq<OrderLine>)
    ensures var r := ReleaseLines(inv, ls);
      && r.inv.Keys == inv.Keys
      && (r.Reserved? <==> AllKnown(inv, ls))
      && (r.Stopped? ==> r.code == ServerError)
      && (forall x :: x in inv && !Mentions(ls, x) ==> r.inv[x] == inv[x])
  {
    if ls != [] {
      var p := ls[..|ls| - 1];
      var l := ls[|ls| - 1];
      assert ls == p + [l];
      ReleaseLinesFrame(inv, p);
      forall x ensures Mentions(ls, x) <==> Mentions(p, x) || l.item == x {
        MentionsSnoc(p, l, x);
      }
      assert AllKnown(inv, ls) <==> AllKnown(inv, p) && l.item in inv by {
        if AllKnown(inv, p) && l.item in inv {
          forall j | 0 <= j < |ls| ensures ls[j].item in inv {
            if j < |p| {
              assert ls[j] == p[j];
            }
          }
        }
        if AllKnown(inv, ls) {
          assert ls[|p|] == l;
          forall j | 0 <= j < |p| ensures p[j].item in inv {
            assert p[j] == ls[j];
          }
        }
      }
    }
  }

  /**
   * A completed release adds each line's quantity back to its item and clears `outOfStock`
   * on every item it names.
   */
  lemma {:induction false} ReleaseLinesReturned(inv: map<ItemId, Item>, ls: seq<OrderLine>)
    requires ReleaseLines(inv, ls).Reserved?
    ensures var r := ReleaseLines(inv, ls);
      forall x :: x in inv ==>
        && x in r.inv
        && r.inv[x].quantityAvailable == inv[x].quantityAvailable + QtyOf(ls, x)
        && (Mentions(ls, x) ==> !r.inv[x].outOfStock)
  {
    if ls != [] {
      var p := ls[..|ls| - 1];
      var l := ls[|ls| - 1];
      assert ls == p + [l];
      ReleaseLinesReturned(inv, p);
      forall x ensures Mentions(ls, x) <==> Mentions(p, x) || l.item == x {
        MentionsSnoc(p, l, x);
      }
    }
  }

  /**
   * Reserving lines and then releasing the same lines gives every item its original stock
   * back; only `outOfStock` differs, cleared on the items the lines name.
   */
  lemma {:induction false} ReserveThenRelease(inv: map<ItemId, Item>, ls: seq<OrderLine>)
    requires ReserveLines(inv, ls).Reserved?
    ensures ReleaseLines(ReserveLines(inv, ls).inv, ls).Reserved?
    ensures var r := ReleaseLines(ReserveLines(inv, ls).inv, ls).inv;
      && r.Keys == inv.Keys
      && forall x :: x in inv ==>
           && r[x].quantityAvailable == inv[x].quantityAvailable
           && r[x].outOfStock == (inv[x].outOfStock && !Mentions(ls, x))
  {
    var mid := ReserveLines(inv, ls).inv;
    ReserveLinesFrame(inv, ls);
    ReserveLinesTaken(inv, ls);
    assert AllKnown(mid, ls) by {
      forall j | 0 <= j < |ls| ensures ls[j].item in mid {
        ReserveNamesKnown(inv, ls, j);
      }
    }
    ReleaseLinesFrame(mid, ls);
    ReleaseLinesReturned(mid, ls);
  }

  /** A completed reservation only named items of the inventory. */
  lemma {:induction false} ReserveNamesKnown(inv: map<ItemId, Item>, ls: seq<OrderLine>, j: nat)
    requires ReserveLines(inv, ls).Reserved? && j < |ls|
    ensures ls[j].item in inv
  {
    var p := ls[..|ls| - 1];
    ReserveLinesFrame(inv, p);
    if j < |p| {
      ReserveNamesKnown(inv, p, j);
      assert p[j] == ls[j];
    }
  }

  // ---------------------------------------------------------------------------
  // Payment
  // ---------------------------------------------------------------------------

  /** The guards of a payment confirmation: the supplier check comes before the delivered check. */
  function PaymentDecision(o: Order, user: UserId): (r: Code)
    ensures r == Ok <==> o.supplier == user && o.orderStatus == Delivered
    ensures r == Forbidden <==> o.supplier != user
    ensures r == NotDelivered <==> o.supplier == user && o.orderStatus != Delivered
  {
    if o.supplier != user then Forbidden
    else if o.orderStatus != Delivered then NotDelivered
    else Ok
  }

  /**
   * The order once its payment is confirmed: marked paid, with one `payment_confirmed` entry
   * appended and its status unchanged; `paymentMethod` defaults to cash on delivery only when absent.
   */
  function PaymentConfirmed(o: Order, user: UserId, paymentMethod: Option<string>, now: int): (r: Order)
    ensures r.paymentStatus == Paid && r.orderStatus == o.orderStatus
    ensures |r.statusHistory| == |o.statusHistory| + 1 && r.statusHistory[..|o.statusHistory|] == o.statusHistory
    ensures var e := r.statusHistory[|o.statusHistory|];
      && e.status == "payment_confirmed" && e.updatedBy == Some(user) && e.timestamp == now
      && (paymentMethod.None? ==> e.note == "Payment confirmed via cash_on_delivery")
      && (paymentMethod.Some? ==> e.note == "Payment confirmed via " + paymentMethod.value)
    ensures r.(paymentStatus := o.paymentStatus, statusHistory := o.statusHistory) == o
  {
    var via := if paymentMethod.Some? then paymentMethod.value else CashOnDelivery;
    o.(paymentStatus := Paid,
       statusHistory := o.statusHistory + [HistoryEntry("payment_confirmed", now, Some(user), "Payment confirmed via " + via)])
  }

  /** Nothing stops a second confirmation: a confirmed order is still accepted for confirmation. */
  lemma {:induction false} PaymentRepeatable(o: Order, user: UserId, paymentMethod: Option<string>, now: int)
    requires PaymentDecision(o, user) == Ok
    ensures PaymentDecision(PaymentConfirmed(o, user, paymentMethod, now), user) == Ok
  {
  }

  // ---------------------------------------------------------------------------
  // The controller operations
  // ---------------------------------------------------------------------------

  /**
   * The release loop: add each line's quantity back to its item and clear `outOfStock`,
   * stopping at the first line whose item does not exist; lines released before it stay released.
   */
  method ReleaseItems(db: Database, items: seq<OrderLine>) returns (failure: Option<Code>)
    modifies db
    ensures db.orders == old(db.orders) && db.deliveries == old(db.deliveries) && db.nextId == old(db.nextId)
    ensures ReleaseLines(old(db.inventory), items)
            == if failure.None? then Reserved(db.inventory) else Stopped(failure.value, db.inventory)
  {
    var j := 0;
    while j < |items|
      invariant 0 <= j <= |items|
      invariant ReleaseLines(old(db.inventory), items[..j]) == Reserved(db.inventory)
      invariant db.orders == old(db.orders) && db.deliveries == old(db.deliveries) && db.nextId == old(db.nextId)
    {
      var line := items[j];
      assert items[..j + 1][..j] == items[..j];
      if line.item !in db.inventory {
        ReleaseStoppedPrefix(old(db.inventory), items, j + 1);
        return Some(ServerError);
      }
      var it := db.inventory[line.item];
      db.inventory := db.inventory[line.item := it.(quantityAvailable := it.quantityAvailable + line.quantity,
                                                  outOfStock := false)];
      j := j + 1;
    }
    assert items[..j] == items;
    failure := None;
  }

  /** A release that stopped on a prefix stops there for the whole sequence. */
  lemma {:induction false} ReleaseStoppedPrefix(inv: map<ItemId, Item>, ls: seq<OrderLine>, j: nat)
    requires j <= |ls|
    requires ReleaseLines(inv, ls[..j]).Stopped?
    ensures ReleaseLines(inv, ls) == ReleaseLines(inv, ls[..j])
    decreases |ls| - j
  {
    if j < |ls| {
      assert ls[..j + 1][..j] == ls[..j];
      ReleaseStoppedPrefix(inv, ls, j + 1);
    } else {
      assert ls[..j] == ls;
    }
  }

  /**
   * updateOrderStatus: a missing order is NotFound; a refused move changes nothing; an
   * accepted move saves the updated order and then, for `rejected` or `cancelled`, releases
   * the order's lines, failing with ServerError (after the order was saved and the earlier
   * lines released) at a line whose item no longer exists.
   */
  method UpdateOrderStatus(db: Database, orderId: OrderId, user: UserId, target: string,
                           supplierNotes: Option<string>, expectedDate: Option<int>, now: int)
    returns (code: Code)
    requires db.Valid()
    modifies db
    ensures db.Valid()
    ensures db.deliveries == old(db.deliveries) && db.nextId == old(db.nextId)
    ensures orderId !in old(db.orders) ==> code == NotFound && unchanged(db)
    ensures orderId in old(db.orders) && StatusDecision(old(db.orders[orderId]), user, target) != Ok ==>
      code == StatusDecision(old(db.orders[orderId]), user, target) && unchanged(db)
    ensures orderId in old(db.orders) && StatusDecision(old(db.orders[orderId]), user, target) == Ok ==>
      var o := old(db.orders[orderId]);
      && db.orders == old(db.orders)[orderId := Transitioned(o, user, target, supplierNotes, expectedDate, now)]
      && (target == Rejected || target == Cancelled ==>
            var r := ReleaseLines(old(db.inventory), o.items);
            db.inventory == r.inv && code == (if r.Reserved? then Ok else ServerError))
      && (target != Rejected && target != Cancelled ==> db.inventory == old(db.inventory) && code == Ok)
  {
    if orderId !in db.orders {
      return NotFound;
    }
    var o := db.orders[orderId];
    var decision := StatusDecision(o, user, target);
    if decision != Ok {
      return decision;
    }
    db.orders := db.orders[orderId := Transitioned(o, user, target, supplierNotes, expectedDate, now)];
    code := Ok;
    if target == Rejected || target == Cancelled {
      var failure := ReleaseItems(db, o.items);
      if failure.Some? {
        code := failure.value;
        ReleaseLinesFrame(old(db.inventory), o.items);
      }
    }
  }

  /**
   * confirmPayment: NotFound, then Forbidden for anyone but the supplier, then NotDelivered;
   * on success the order is marked paid with one history entry.
   */
  method ConfirmPayment(db: Database, orderId: OrderId, user: UserId, paymentMethod: Option<string>, now: int)
    returns (code: Code)
    requires db.Valid()
    modifies db
    ensures db.Valid()
    ensures db.inventory == old(db.inventory) && db.deliveries == old(db.deliveries) && db.nextId == old(db.nextId)
    ensures orderId !in old(db.orders) ==> code == NotFound && db.orders == old(db.orders)
    ensures orderId in old(db.orders) ==>
      var o := old(db.orders[orderId]);
      && code == PaymentDecision(o, user)
      && db.orders == if code == Ok then old(db.orders)[orderId := PaymentConfirmed(o, user, paymentMethod, now)]
                      else old(db.orders)
  {
    if orderId !in db.orders {
      return NotFound;
    }
    var o := db.orders[orderId];
    if o.supplier != user {
      return Forbidden;
    }
    if o.orderStatus != Delivered {
      return NotDelivered;
    }
    db.orders := db.orders[orderId := PaymentConfirmed(o, user, paymentMethod, now)];
    code := Ok;
  }
}
