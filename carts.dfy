/** The vendor's cart: keyed replace-or-append of a line, and removal by item. */
module Carts {
  import opened Types

  datatype CartLine = CartLine(item: ItemId, quantity: int)

  /** A vendor's cart document; `items` is reassigned by the controllers. */
  class Cart {
    var vendor: UserId
    var items: seq<CartLine>

    constructor (vendor: UserId)
      ensures this.vendor == vendor && items == []
    {
      this.vendor := vendor;
      items := [];
    }
  }

  /** At most one line per inventory item. */
  predicate UniqueItems(items: seq<CartLine>)
  {
    forall i, j :: 0 <= i < j < |items| ==> items[i].item != items[j].item
  }

  predicate HasItem(items: seq<CartLine>, id: ItemId)
  {
    exists i :: 0 <= i < |items| && items[i].item == id
  }

  /** Index of the first line for `id`, or -1 (JavaScript's `findIndex`). */
  function FirstIndex(items: seq<CartLine>, id: ItemId): (r: int)
    ensures -1 <= r < |items|
    ensures r == -1 <==> !HasItem(items, id)
    ensures r >= 0 ==> items[r].item == id && forall i :: 0 <= i < r ==> items[i].item != id
  {
    if items == [] then -1
    else if items[0].item == id then 0
    else
      var k := FirstIndex(items[1..], id);
      assert forall i :: 0 < i < |items| ==> items[i] == items[1..][i - 1];
      if k == -1 then -1 else k + 1
  }

  /** The cart after adding `q` of `id`: the first line for `id` gets quantity `q`, or a line is appended. */
  function Upsert(items: seq<CartLine>, id: ItemId, q: int): seq<CartLine>
  {
    var k := FirstIndex(items, id);
    if k >= 0 then items[k := CartLine(items[k].item, q)] else items + [CartLine(id, q)]
  }

  /** The lines whose item is not `id`, in their original order. */
  function Without(items: seq<CartLine>, id: ItemId): seq<CartLine>
  {
    if items == [] then []
    else if items[0].item == id then Without(items[1..], id)
    else [items[0]] + Without(items[1..], id)
  }

  /** Number of lines for `id`. */
  function Count(items: seq<CartLine>, id: ItemId): nat
  {
    if items == [] then 0 else (if items[0].item == id then 1 else 0) + Count(items[1..], id)
  }

  /** Membership in a non-empty cart: the first line, or one of the rest. */
  lemma HasItemCons(items: seq<CartLine>, id: ItemId)
    requires items != []
    ensures HasItem(items, id) <==> items[0].item == id || HasItem(items[1..], id)
  {
    if HasItem(items[1..], id) {
      var i :| 0 <= i < |items[1..]| && items[1..][i].item == id;
      assert items[i + 1].item == id;
    }
    if HasItem(items, id) && items[0].item != id {
      var i :| 0 <= i < |items| && items[i].item == id;
      assert items[1..][i - 1].item == id;
    }
  }

  lemma {:induction false} CountZero(items: seq<CartLine>, id: ItemId)
    ensures Count(items, id) == 0 <==> !HasItem(items, id)
  {
    if items != [] {
      CountZero(items[1..], id);
      HasItemCons(items, id);
    }
  }

  /** Re-adding an item replaces its line's quantity: same length, same positions, other lines untouched. */
  lemma UpsertExisting(items: seq<CartLine>, id: ItemId, q: int)
    requires HasItem(items, id)
    ensures var r := Upsert(items, id, q);
      && |r| == |items|
      && r[FirstIndex(items, id)] == CartLine(id, q)
      && forall i :: 0 <= i < |items| && i != FirstIndex(items, id) ==> r[i] == items[i]
  {
  }

  /** Adding a new item appends one line and keeps every earlier line. */
  lemma UpsertNew(items: seq<CartLine>, id: ItemId, q: int)
    requires !HasItem(items, id)
    ensures Upsert(items, id, q) == items + [CartLine(id, q)]
  {
  }

  /** Adding preserves "at most one line per item", and leaves exactly one line for the item added. */
  lemma UpsertKeepsUnique(items: seq<CartLine>, id: ItemId, q: int)
    requires UniqueItems(items)
    ensures UniqueItems(Upsert(items, id, q))
    ensures Count(Upsert(items, id, q), id) == 1
  {
    var r := Upsert(items, id, q);
    var k := FirstIndex(items, id);
    if k >= 0 {
      assert forall i :: 0 <= i < |r| ==> r[i].item == items[i].item;
      assert r[k].item == id;
    } else {
      assert forall i :: 0 <= i < |items| ==> r[i] == items[i];
      assert r[|items|].item == id;
    }
    UniqueCount(r, id);
  }

  /** In a cart with unique items, an item that occurs at all occurs once. */
  lemma {:induction false} UniqueCount(items: seq<CartLine>, id: ItemId)
    requires UniqueItems(items)
    requires HasItem(items, id)
    ensures Count(items, id) == 1
  {
    assert UniqueItems(items[1..]) by {
      forall i, j | 0 <= i < j < |items[1..]| ensures items[1..][i].item != items[1..][j].item {
        assert items[1..][i] == items[i + 1] && items[1..][j] == items[j + 1];
      }
    }
    HasItemCons(items, id);
    if items[0].item == id {
      assert forall i :: 0 <= i < |items[1..]| ==> items[1..][i] == items[i + 1];
      CountZero(items[1..], id);
    } else {
      UniqueCount(items[1..], id);
    }
  }

  /** Removing by item id deletes every line for it and keeps every other line, in order. */
  lemma {:induction false} WithoutSpec(items: seq<CartLine>, id: ItemId)
    ensures !HasItem(Without(items, id), id)
    ensures |Without(items, id)| == |items| - Count(items, id)
    ensures forall l: CartLine :: l.item != id ==> multiset(Without(items, id))[l] == multiset(items)[l]
  {
    if items != [] {
      WithoutSpec(items[1..], id);
      assert items == [items[0]] + items[1..];
      if items[0].item != id {
        var w := Without(items[1..], id);
        HasItemCons([items[0]] + w, id);
        assert ([items[0]] + w)[1..] == w;
      }
    }
  }

  /**
   * Removal is a filter: it distributes over concatenation, so the kept lines stay in their
   * original order, and a single line is kept exactly when it is for another item.
   */
  lemma {:induction false} WithoutConcat(a: seq<CartLine>, b: seq<CartLine>, id: ItemId)
    ensures Without(a + b, id) == Without(a, id) + Without(b, id)
    ensures forall l: CartLine :: Without([l], id) == if l.item == id then [] else [l]
  {
    if a != [] {
      assert (a + b)[1..] == a[1..] + b;
      WithoutConcat(a[1..], b, id);
    } else {
      assert a + b == b;
    }
    forall l: CartLine ensures Without([l], id) == if l.item == id then [] else [l] {
      assert [l][1..] == [];
    }
  }

  /** Removing an item that has no line changes nothing. */
  lemma {:induction false} WithoutAbsent(items: seq<CartLine>, id: ItemId)
    requires !HasItem(items, id)
    ensures Without(items, id) == items
  {
    if items != [] {
      HasItemCons(items, id);
      WithoutAbsent(items[1..], id);
      assert items == [items[0]] + items[1..];
    }
  }

  /** Removal is idempotent. */
  lemma WithoutIdempotent(items: seq<CartLine>, id: ItemId)
    ensures Without(Without(items, id), id) == Without(items, id)
  {
    WithoutSpec(items, id);
    WithoutAbsent(Without(items, id), id);
  }

  /** Adding then removing an item leaves the other lines exactly as they were. */
  lemma {:induction false} WithoutUpsert(items: seq<CartLine>, id: ItemId, q: int)
    ensures Without(Upsert(items, id, q), id) == Without(items, id)
  {
    if items == [] {
      assert Upsert(items, id, q) == [CartLine(id, q)];
      assert [CartLine(id, q)][1..] == [];
    } else if items[0].item == id {
      var r := Upsert(items, id, q);
      assert r[0].item == id && r[1..] == items[1..];
    } else {
      var r := Upsert(items, id, q);
      var k := FirstIndex(items[1..], id);
      assert FirstIndex(items, id) == if k == -1 then -1 else k + 1;
      assert r[0] == items[0];
      assert r[1..] == Upsert(items[1..], id, q);
      WithoutUpsert(items[1..], id, q);
    }
  }

  /**
   * Index of the first line for `id`, or -1: the `findIndex` loop of the add operation.
   */
  method FindLine(items: seq<CartLine>, id: ItemId) returns (k: int)
    ensures k == FirstIndex(items, id)
  {
    k := 0;
    while k < |items|
      invariant 0 <= k <= |items|
      invariant forall i :: 0 <= i < k ==> items[i].item != id
    {
      if items[k].item == id {
        return;
      }
      k := k + 1;
    }
    k := -1;
  }

  /**
   * Add `quantity` of `itemId` to the vendor's cart, creating the cart if it does not exist.
   * `None` stands for a missing field; "" and 0 are falsy and refused too.
   */
  method AddToCart(cart: Cart?, vendor: UserId, itemId: Option<ItemId>, quantity: Option<int>)
    returns (code: Code, result: Cart?)
    modifies cart
    ensures cart != null ==> cart.vendor == old(cart.vendor)
    ensures itemId.None? || itemId.value == "" || quantity.None? || quantity.value == 0 ==>
      && code == Validation && result == cart
      && (cart != null ==> cart.items == old(cart.items))
    ensures itemId.Some? && itemId.value != "" && quantity.Some? && quantity.value != 0 ==>
      && code == Ok && result != null
      && (cart != null ==> result == cart && cart.items == Upsert(old(cart.items), itemId.value, quantity.value))
      && (cart == null ==> fresh(result) && result.vendor == vendor
                           && result.items == [CartLine(itemId.value, quantity.value)])
  {
    if itemId.None? || itemId.value == "" || quantity.None? || quantity.value == 0 {
      return Validation, cart;
    }
    var id, q := itemId.value, quantity.value;
    result := cart;
    if result == null {
      result := new Cart(vendor);
    }
    var k := FindLine(result.items, id);
    if k > -1 {
      result.items := result.items[k := CartLine(result.items[k].item, q)];
    } else {
      result.items := result.items + [CartLine(id, q)];
    }
    code := Ok;
  }

  /** Remove every line for `itemId` from the vendor's cart. */
  method RemoveFromCart(cart: Cart?, itemId: ItemId) returns (code: Code)
    modifies cart
    ensures cart == null ==> code == NotFound
    ensures cart != null ==> code == Ok && cart.items == Without(old(cart.items), itemId)
    ensures cart != null ==> cart.vendor == old(cart.vendor)
  {
    if cart == null {
      return NotFound;
    }
    cart.items := Without(cart.items, itemId);
    code := Ok;
  }
}
