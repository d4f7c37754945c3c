/**
 * The read-only order endpoints of order.controller.js that carry logic of their own: the
 * party check of getOrderDetails and the pagination arithmetic of the two history listings.
 */
module OrderQueries {
  import opened Types
  import opened Store

  /** What getOrderDetails answers: a code, and the order when the caller may see it. */
  datatype Details = Details(code: Code, order: Option<Order>)

  /**
   * getOrderDetails as written. The vendor and supplier are populated before the party check,
   * so the check compares each party's whole user document, in its `toString()` form (an
   * inspection of the document, never a bare identifier), with the caller's id: the
   * comparison never matches. `users` are the registered users; a party with no user
   * document is populated as `null`, and calling `toString()` on it throws. The vendor's
   * comparison is always unequal, so the supplier's is always evaluated too.
   */
  function OrderDetailsAsWritten(orders: map<OrderId, Order>, users: set<UserId>, orderId: OrderId, user: UserId)
    : (r: Details)
    ensures r.code == NotFound <==> orderId !in orders
    ensures r.code == ServerError <==>
      orderId in orders && (orders[orderId].vendor !in users || orders[orderId].supplier !in users)
    ensures r.code in {NotFound, ServerError, Forbidden}
    ensures r.order.None?
  {
    if orderId !in orders then Details(NotFound, None)
    else
      var o := orders[orderId];
      if o.vendor !in users || o.supplier !in users then Details(ServerError, None)
      else Details(Forbidden, None)
  }

  /**
   * As written, an existing order whose parties are registered is refused to its own vendor
   * and its own supplier, who are exactly the callers the intended check admits.
   */
  lemma {:induction false} PartiesRefused(orders: map<OrderId, Order>, users: set<UserId>, orderId: OrderId)
    requires orderId in orders
    requires orders[orderId].vendor in users && orders[orderId].supplier in users
    ensures OrderDetailsAsWritten(orders, users, orderId, orders[orderId].vendor).code == Forbidden
    ensures OrderDetailsAsWritten(orders, users, orderId, orders[orderId].supplier).code == Forbidden
    ensures OrderDetails(orders, orderId, orders[orderId].vendor).code == Ok
    ensures OrderDetails(orders, orderId, orders[orderId].supplier).code == Ok
  {
  }

  /** The intended party check: only the order's vendor and its supplier may read it. */
  function OrderDetails(orders: map<OrderId, Order>, orderId: OrderId, user: UserId): (r: Details)
    ensures r.code == NotFound <==> orderId !in orders
    ensures r.code == Ok <==> orderId in orders && (orders[orderId].vendor == user || orders[orderId].supplier == user)
    ensures r.code in {Ok, NotFound, Forbidden}
    ensures r.order.Some? <==> r.code == Ok
    ensures r.order.Some? ==> r.order.value == orders[orderId]
  {
    if orderId !in orders then Details(NotFound, None)
    else
      var o := orders[orderId];
      if o.vendor != user && o.supplier != user then Details(Forbidden, None)
      else Details(Ok, Some(o))
  }

  /** The pagination block of a listing, for a page number, a page size and the number of matching orders. */
  datatype Pagination = Pagination(skip: int, currentPage: int, totalPages: int, totalOrders: nat,
                                   hasNextPage: bool, hasPrevPage: bool)

  /** The listings' defaults for an absent `page` and `limit`. */
  const DefaultPage := 1
  const DefaultLimit := 10

  function Paginate(page: int, limit: int, total: nat): Pagination
    requires limit > 0
  {
    var pages := (total + limit - 1) / limit;
    Pagination((page - 1) * limit, page, pages, total, page < pages, page > 1)
  }

  /** A positive number of positive page sizes is at least one page size. */
  lemma {:induction false} MulPos(a: int, l: int)
    requires a > 0 && l > 0
    ensures a * l >= l
    decreases a
  {
    if a > 1 {
      MulPos(a - 1, l);
      assert a * l == (a - 1) * l + l;
    }
  }

  /** For a positive page size, `a < b` exactly when `a * l < b * l`. */
  lemma {:induction false} ScaleLess(a: int, b: int, l: int)
    requires l > 0
    ensures a < b <==> a * l < b * l
  {
    if a < b {
      MulPos(b - a, l);
      assert b * l - a * l == (b - a) * l;
    } else if a > b {
      MulPos(a - b, l);
      assert a * l - b * l == (a - b) * l;
    }
  }

  /** `(n + l - 1) / l` is the ceiling of `n / l`. */
  lemma {:induction false} CeilDiv(n: nat, l: int)
    requires l > 0
    ensures var q := (n + l - 1) / l;
      q >= 0 && q * l >= n && (q - 1) * l < n
  {
    var q := (n + l - 1) / l;
    var m := (n + l - 1) % l;
    assert n + l - 1 == q * l + m && 0 <= m < l;
    assert (q - 1) * l == q * l - l;
  }

  /** The page count is zero exactly when there are no orders. */
  lemma {:induction false} NoPages(limit: int, total: nat)
    requires limit > 0
    ensures (total + limit - 1) / limit == 0 <==> total == 0
  {
    var q := (total + limit - 1) / limit;
    CeilDiv(total, limit);
    if total == 0 && q > 0 {
      MulPos(q, limit);
      assert false;
    }
  }

  /** There is a next page exactly when the orders do not all fit on the pages up to this one. */
  lemma {:induction false} NextPage(page: int, limit: int, total: nat)
    requires limit > 0
    ensures page < (total + limit - 1) / limit <==> page * limit < total
  {
    var q := (total + limit - 1) / limit;
    CeilDiv(total, limit);
    ScaleLess(page, q, limit);
    ScaleLess(q - 1, page, limit);
  }

  /** A page from 1 up to the page count starts inside the list of orders. */
  lemma {:induction false} SkipInside(page: int, limit: int, total: nat)
    requires limit > 0
    ensures page >= 1 ==> (page - 1) * limit >= 0
    ensures 1 <= page <= (total + limit - 1) / limit ==> (page - 1) * limit < total
  {
    var q := (total + limit - 1) / limit;
    if page > 1 {
      MulPos(page - 1, limit);
    } else if page == 1 {
      assert (page - 1) * limit == 0;
    }
    if 1 <= page <= q {
      CeilDiv(total, limit);
      ScaleLess(q - 1, page - 1, limit);
    }
  }

  /**
   * The page count is the least number of pages that holds every order, and is zero exactly
   * when there are none; there is a next page exactly when the orders do not all fit on the
   * pages up to this one; a previous page exactly from page 2 on; and a page between 1 and
   * the page count skips fewer orders than there are.
   */
  lemma {:induction false} PaginateSpec(page: int, limit: int, total: nat)
    requires limit > 0
    ensures var p := Paginate(page, limit, total);
      && p.totalPages >= 0
      && p.totalPages * limit >= total && (p.totalPages - 1) * limit < total
      && (p.totalPages == 0 <==> total == 0)
      && (p.hasNextPage <==> page * limit < total)
      && (p.hasPrevPage <==> page >= 2)
      && (page >= 1 ==> p.skip >= 0)
      && (1 <= page <= p.totalPages ==> p.skip < total)
  {
    CeilDiv(total, limit);
    NoPages(limit, total);
    NextPage(page, limit, total);
    SkipInside(page, limit, total);
  }

  /**
   * The pagination block of a listing request, with the defaults for an absent `page` or
   * `limit`: with no page the listing starts at the first order and has no previous page;
   * with no limit the pages hold 10 orders each.
   */
  function ListingPage(page: Option<int>, limit: Option<int>, total: nat): (p: Pagination)
    requires limit.None? || limit.value > 0
    ensures p.currentPage == (if page.Some? then page.value else DefaultPage)
    ensures page.None? ==> p.skip == 0 && !p.hasPrevPage
    ensures limit.None? ==> p.totalPages * DefaultLimit >= total && (p.totalPages - 1) * DefaultLimit < total
    ensures page.None? && limit.None? ==> (p.hasNextPage <==> total > DefaultLimit)
  {
    var pg := if page.Some? then page.value else DefaultPage;
    var lim := if limit.Some? then limit.value else DefaultLimit;
    PaginateSpec(pg, lim, total);
    Paginate(pg, lim, total)
  }
}
