/**
 * Checkout: the cart is split into one order per supplier, every line's stock is reserved,
 * the orders are saved and the cart is emptied (createOrder in order.controller.js).
 * Nothing is rolled back: a line that cannot be reserved stops the checkout, and the
 * reservations and orders saved before it remain.
 */
module Checkout {
  import opened Types
  import opened Store
  import opened Carts

  /** Each of the two tax components (cgst and sgst), in percent of the subtotal. */
  const TaxPercent: real := 9.0

  // ---------------------------------------------------------------------------
  // Splitting the cart by supplier
  // ---------------------------------------------------------------------------

  /** Every cart line names an item that exists (otherwise reading its supplier throws). */
  predicate Resolved(inv: map<ItemId, Item>, lines: seq<CartLine>)
  {
    forall l :: l in lines ==> l.item in inv
  }

  /**
   * Every cart line names an item that exists and whose supplier has a user document. The
   * cart is loaded with each item's supplier populated; a supplier with no document is
   * populated as `null`, and reading its `_id` throws.
   */
  predicate Populated(inv: map<ItemId, Item>, users: set<UserId>, lines: seq<CartLine>)
  {
    Resolved(inv, lines) && forall l :: l in lines ==> inv[l.item].supplier in users
  }

  /** A cart line resolved against the inventory: its item's supplier and its frozen order line. */
  datatype Entry = Entry(supplier: UserId, line: OrderLine)

  /** The order line copied from a cart line and the item's current name and price. */
  function Freeze(inv: map<ItemId, Item>, l: CartLine): OrderLine
    requires l.item in inv
  {
    var it := inv[l.item];
    OrderLine(l.item, it.name, l.quantity, it.price, it.price * (l.quantity as real))
  }

  function Resolve(inv: map<ItemId, Item>, lines: seq<CartLine>): seq<Entry>
    requires Resolved(inv, lines)
  {
    if lines == [] then []
    else
      var l := lines[|lines| - 1];
      Resolve(inv, lines[..|lines| - 1]) + [Entry(inv[l.item].supplier, Freeze(inv, l))]
  }

  /** Sum of price times quantity over the cart. */
  function CartValue(inv: map<ItemId, Item>, lines: seq<CartLine>): real
    requires Resolved(inv, lines)
  {
    if lines == [] then 0.0
    else
      var l := lines[|lines| - 1];
      CartValue(inv, lines[..|lines| - 1]) + inv[l.item].price * (l.quantity as real)
  }

  /** Total quantity the cart asks for of one item. */
  function CartQty(lines: seq<CartLine>, x: ItemId): int
  {
    if lines == [] then 0
    else CartQty(lines[..|lines| - 1], x) + (if lines[|lines| - 1].item == x then lines[|lines| - 1].quantity else 0)
  }

  function LinesOf(es: seq<Entry>): seq<OrderLine>
  {
    if es == [] then [] else LinesOf(es[..|es| - 1]) + [es[|es| - 1].line]
  }

  /** The distinct suppliers, in order of first appearance (the key order of `ordersBySupplier`). */
  function Suppliers(es: seq<Entry>): seq<UserId>
  {
    if es == [] then []
    else
      var p := Suppliers(es[..|es| - 1]);
      var s := es[|es| - 1].supplier;
      if s in p then p else p + [s]
  }

  /** The lines of supplier `s`, in cart order. */
  function LinesFor(es: seq<Entry>, s: UserId): seq<OrderLine>
  {
    if es == [] then []
    else
      var e := es[|es| - 1];
      LinesFor(es[..|es| - 1], s) + (if e.supplier == s then [e.line] else [])
  }

  function Subtotal(ls: seq<OrderLine>): real
  {
    if ls == [] then 0.0 else Subtotal(ls[..|ls| - 1]) + ls[|ls| - 1].totalPrice
  }

  /** One entry of `ordersBySupplier`. */
  datatype Group = Group(supplier: UserId, items: seq<OrderLine>, subtotal: real)

  function GroupFor(es: seq<Entry>, s: UserId): Group
  {
    Group(s, LinesFor(es, s), Subtotal(LinesFor(es, s)))
  }

  function GroupsFor(es: seq<Entry>, ss: seq<UserId>): seq<Group>
  {
    if ss == [] then [] else GroupsFor(es, ss[..|ss| - 1]) + [GroupFor(es, ss[|ss| - 1])]
  }

  /** The supplier groups of a resolved cart, in order of the suppliers' first appearance. */
  function Split(es: seq<Entry>): seq<Group>
  {
    GroupsFor(es, Suppliers(es))
  }

  /** All order lines of a sequence of groups, group after group. */
  function Flat(gs: seq<Group>): seq<OrderLine>
  {
    if gs == [] then [] else Flat(gs[..|gs| - 1]) + gs[|gs| - 1].items
  }

  function SumSubtotals(gs: seq<Group>): real
  {
    if gs == [] then 0.0 else SumSubtotals(gs[..|gs| - 1]) + gs[|gs| - 1].subtotal
  }

  predicate Distinct(ss: seq<UserId>)
  {
    forall a, b :: 0 <= a < b < |ss| ==> ss[a] != ss[b]
  }

  predicate Covers(es: seq<Entry>, ss: seq<UserId>)
  {
    forall e :: e in es ==> e.supplier in ss
  }

  lemma {:induction false} SubtotalConcat(a: seq<OrderLine>, b: seq<OrderLine>)
    ensures Subtotal(a + b) == Subtotal(a) + Subtotal(b)
    decreases |b|
  {
    if b == [] {
      assert a + b == a;
    } else {
      assert (a + b)[..|a + b| - 1] == a + b[..|b| - 1];
      SubtotalConcat(a, b[..|b| - 1]);
    }
  }

  lemma {:induction false} ResolveSnoc(inv: map<ItemId, Item>, lines: seq<CartLine>, l: CartLine)
    requires Resolved(inv, lines + [l])
    ensures Resolved(inv, lines)
    ensures Resolve(inv, lines + [l]) == Resolve(inv, lines) + [Entry(inv[l.item].supplier, Freeze(inv, l))]
    ensures CartValue(inv, lines + [l]) == CartValue(inv, lines) + Freeze(inv, l).totalPrice
  {
    assert forall m :: m in lines ==> m in lines + [l];
    assert (lines + [l])[..|lines|] == lines;
  }

  /** Resolving keeps the cart's lines one for one: the i-th entry freezes the i-th line. */
  lemma {:induction false} ResolveAt(inv: map<ItemId, Item>, lines: seq<CartLine>)
    requires Resolved(inv, lines)
    ensures var es := Resolve(inv, lines);
      && |es| == |lines|
      && forall i :: 0 <= i < |lines| ==> es[i] == Entry(inv[lines[i].item].supplier, Freeze(inv, lines[i]))
  {
    if lines != [] {
      var p := lines[..|lines| - 1];
      var l := lines[|lines| - 1];
      assert lines == p + [l];
      ResolveSnoc(inv, p, l);
      ResolveAt(inv, p);
      var es := Resolve(inv, lines);
      forall i | 0 <= i < |lines| ensures es[i] == Entry(inv[lines[i].item].supplier, Freeze(inv, lines[i])) {
        if i < |p| {
          assert es[i] == Resolve(inv, p)[i] && lines[i] == p[i];
        }
      }
    }
  }

  /** The i-th frozen line is the i-th entry's line. */
  lemma {:induction false} LinesOfAt(es: seq<Entry>)
    ensures |LinesOf(es)| == |es|
    ensures forall i :: 0 <= i < |es| ==> LinesOf(es)[i] == es[i].line
  {
    if es != [] {
      var p := es[..|es| - 1];
      LinesOfAt(p);
      var ls := LinesOf(es);
      forall i | 0 <= i < |es| ensures ls[i] == es[i].line {
        if i < |p| {
          assert ls[i] == LinesOf(p)[i] && es[i] == p[i];
        }
      }
    }
  }

  /** The frozen lines add up to the cart's value. */
  lemma {:induction false} ResolveValue(inv: map<ItemId, Item>, lines: seq<CartLine>)
    requires Resolved(inv, lines)
    ensures Subtotal(LinesOf(Resolve(inv, lines))) == CartValue(inv, lines)
  {
    if lines != [] {
      var p := lines[..|lines| - 1];
      var l := lines[|lines| - 1];
      assert lines == p + [l];
      ResolveSnoc(inv, p, l);
      ResolveValue(inv, p);
      var es := Resolve(inv, lines);
      assert es[..|es| - 1] == Resolve(inv, p);
    }
  }

  /** The frozen lines ask for what the cart asks for. */
  lemma {:induction false} ResolveQty(inv: map<ItemId, Item>, lines: seq<CartLine>, x: ItemId)
    requires Resolved(inv, lines)
    ensures QtyOf(LinesOf(Resolve(inv, lines)), x) == CartQty(lines, x)
  {
    if lines != [] {
      var p := lines[..|lines| - 1];
      var l := lines[|lines| - 1];
      assert lines == p + [l];
      ResolveSnoc(inv, p, l);
      ResolveQty(inv, p, x);
      var es := Resolve(inv, lines);
      assert es[..|es| - 1] == Resolve(inv, p);
    }
  }

  /**
   * Resolving keeps the cart's lines one for one: the i-th entry freezes the i-th line, and
   * the frozen lines add up to the cart's value and ask for what the cart asks for.
   */
  lemma {:induction false} ResolveSpec(inv: map<ItemId, Item>, lines: seq<CartLine>)
    requires Resolved(inv, lines)
    ensures var es := Resolve(inv, lines);
      && |es| == |lines| && |LinesOf(es)| == |lines|
      && (forall i :: 0 <= i < |lines| ==>
            es[i] == Entry(inv[lines[i].item].supplier, Freeze(inv, lines[i])) && LinesOf(es)[i] == es[i].line)
      && Subtotal(LinesOf(es)) == CartValue(inv, lines)
      && forall x :: QtyOf(LinesOf(es), x) == CartQty(lines, x)
  {
    ResolveAt(inv, lines);
    LinesOfAt(Resolve(inv, lines));
    ResolveValue(inv, lines);
    forall x ensures QtyOf(LinesOf(Resolve(inv, lines)), x) == CartQty(lines, x) {
      ResolveQty(inv, lines, x);
    }
  }

  lemma {:induction false} GroupsForAt(es: seq<Entry>, ss: seq<UserId>)
    ensures |GroupsFor(es, ss)| == |ss|
    ensures forall k :: 0 <= k < |ss| ==> GroupsFor(es, ss)[k] == GroupFor(es, ss[k])
  {
    if ss != [] {
      var p := ss[..|ss| - 1];
      GroupsForAt(es, p);
      var gs := GroupsFor(es, ss);
      assert gs == GroupsFor(es, p) + [GroupFor(es, ss[|ss| - 1])];
      forall k | 0 <= k < |ss| ensures gs[k] == GroupFor(es, ss[k]) {
        if k < |p| {
          assert ss[k] == p[k] && gs[k] == GroupsFor(es, p)[k];
        }
      }
    }
  }

  /** A supplier with no line in the cart has an empty group. */
  lemma {:induction false} LinesForAbsent(es: seq<Entry>, s: UserId)
    requires s !in Suppliers(es)
    ensures LinesFor(es, s) == []
  {
    if es != [] {
      LinesForAbsent(es[..|es| - 1], s);
    }
  }

  lemma {:induction false} LinesForSnoc(es: seq<Entry>, e: Entry, s: UserId)
    ensures LinesFor(es + [e], s) == LinesFor(es, s) + (if e.supplier == s then [e.line] else [])
  {
    assert (es + [e])[..|es|] == es;
  }

  lemma {:induction false} SuppliersSnoc(es: seq<Entry>, e: Entry)
    ensures Suppliers(es + [e]) == if e.supplier in Suppliers(es) then Suppliers(es) else Suppliers(es) + [e.supplier]
  {
    assert (es + [e])[..|es|] == es;
  }

  lemma {:induction false} LinesOfSnoc(es: seq<Entry>, e: Entry)
    ensures LinesOf(es + [e]) == LinesOf(es) + [e.line]
  {
    assert (es + [e])[..|es|] == es;
  }

  /** Suppliers lists each supplier of the cart once, and only suppliers with at least one line. */
  lemma {:induction false} SuppliersSpec(es: seq<Entry>)
    ensures Distinct(Suppliers(es))
    ensures Covers(es, Suppliers(es))
    ensures forall s :: s in Suppliers(es) ==> LinesFor(es, s) != []
  {
    if es != [] {
      var p := es[..|es| - 1];
      var e := es[|es| - 1];
      assert es == p + [e];
      SuppliersSpec(p);
      SuppliersSnoc(p, e);
      LinesForSnoc(p, e, e.supplier);
      forall s | s in Suppliers(es) ensures LinesFor(es, s) != [] {
        LinesForSnoc(p, e, s);
      }
    }
  }

  lemma {:induction false} FlatSnoc(gs: seq<Group>, g: Group)
    ensures Flat(gs + [g]) == Flat(gs) + g.items
  {
    assert (gs + [g])[..|gs|] == gs;
  }

  /** The lines of the listed suppliers, supplier after supplier. */
  function Concat(es: seq<Entry>, ss: seq<UserId>): seq<OrderLine>
  {
    if ss == [] then [] else Concat(es, ss[..|ss| - 1]) + LinesFor(es, ss[|ss| - 1])
  }

  lemma {:induction false} FlatGroupsFor(es: seq<Entry>, ss: seq<UserId>)
    ensures Flat(GroupsFor(es, ss)) == Concat(es, ss)
  {
    if ss != [] {
      FlatGroupsFor(es, ss[..|ss| - 1]);
      FlatSnoc(GroupsFor(es, ss[..|ss| - 1]), GroupFor(es, ss[|ss| - 1]));
    }
  }

  lemma {:induction false} ConcatEmptyCart(ss: seq<UserId>)
    ensures Concat([], ss) == []
  {
    if ss != [] {
      ConcatEmptyCart(ss[..|ss| - 1]);
    }
  }

  lemma {:induction false} DistinctPrefix(ss: seq<UserId>)
    requires Distinct(ss) && ss != []
    ensures Distinct(ss[..|ss| - 1])
    ensures ss[|ss| - 1] !in ss[..|ss| - 1]
  {
    var p := ss[..|ss| - 1];
    forall a, b | 0 <= a < b < |p| ensures p[a] != p[b] {
      assert p[a] == ss[a] && p[b] == ss[b];
    }
  }

  /** A line of a supplier that is not listed leaves the listed suppliers' lines as they were. */
  lemma {:induction false} SplitStepOther(es: seq<Entry>, e: Entry, ss: seq<UserId>)
    requires e.supplier !in ss
    ensures Concat(es + [e], ss) == Concat(es, ss)
  {
    if ss != [] {
      var ss' := ss[..|ss| - 1];
      var s := ss[|ss| - 1];
      assert ss == ss' + [s];
      SplitStepOther(es, e, ss');
      LinesForSnoc(es, e, s);
      assert LinesFor(es + [e], s) == LinesFor(es, s) + [];
    }
  }

  /**
   * A line of a listed supplier is inserted among that supplier's lines and every other line
   * stays where it was.
   */
  lemma {:induction false} SplitStepOwn(es: seq<Entry>, e: Entry, ss: seq<UserId>)
    returns (front: seq<OrderLine>, back: seq<OrderLine>)
    requires Distinct(ss)
    requires e.supplier in ss
    ensures Concat(es, ss) == front + back
    ensures Concat(es + [e], ss) == front + [e.line] + back
  {
    var ss' := ss[..|ss| - 1];
    var s := ss[|ss| - 1];
    assert ss == ss' + [s];
    DistinctPrefix(ss);
    var A, B := Concat(es, ss'), Concat(es + [e], ss');
    var L0, L1 := LinesFor(es, s), LinesFor(es + [e], s);
    assert L1 == L0 + (if e.supplier == s then [e.line] else []) by { LinesForSnoc(es, e, s); }
    if e.supplier == s {
      SplitStepOther(es, e, ss');
      front, back := A + L0, [];
    } else {
      var f', b' := SplitStepOwn(es, e, ss');
      front, back := f', b' + L0;
      assert B + L1 == (f' + [e.line] + b') + L0;
    }
  }

  /** Two line sequences that hold the same lines, and so the same value and quantities. */
  ghost predicate SameLines(a: seq<OrderLine>, b: seq<OrderLine>)
  {
    && multiset(a) == multiset(b)
    && Subtotal(a) == Subtotal(b)
    && forall x :: QtyOf(a, x) == QtyOf(b, x)
  }

  /** Inserting a line anywhere in one and appending it to the other keeps them the same lines. */
  lemma {:induction false} InsertLine(front: seq<OrderLine>, back: seq<OrderLine>, l: OrderLine, b: seq<OrderLine>)
    requires SameLines(front + back, b)
    ensures SameLines(front + [l] + back, b + [l])
  {
    assert multiset(front + [l] + back) == multiset(front + back) + multiset{l};
    assert Subtotal(front + [l] + back) == Subtotal(b + [l]) by {
      SubtotalConcat(front, back);
      SubtotalConcat(front + [l], back);
      SubtotalConcat(front, [l]);
      SubtotalConcat(b, [l]);
    }
    forall x ensures QtyOf(front + [l] + back, x) == QtyOf(b + [l], x) {
      QtyOfConcat(front, back, x);
      QtyOfConcat(front + [l], back, x);
      QtyOfConcat(front, [l], x);
      QtyOfConcat(b, [l], x);
    }
  }

  /** Over a distinct list of suppliers that covers the lines, the groups hold exactly those lines. */
  lemma {:induction false} SplitAll(es: seq<Entry>, ss: seq<UserId>)
    requires Distinct(ss)
    requires Covers(es, ss)
    ensures SameLines(Concat(es, ss), LinesOf(es))
  {
    if es == [] {
      ConcatEmptyCart(ss);
    } else {
      var p := es[..|es| - 1];
      var e := es[|es| - 1];
      assert es == p + [e];
      assert Covers(p, ss) by {
        assert forall d :: d in p ==> d in es;
      }
      assert e.supplier in ss by {
        assert e in es;
      }
      SplitAll(p, ss);
      var front, back := SplitStepOwn(p, e, ss);
      LinesOfSnoc(p, e);
      InsertLine(front, back, e.line, LinesOf(p));
    }
  }

  /** The groups' subtotals add up to the sum of their lines. */
  lemma {:induction false} SumSubtotalsFlat(gs: seq<Group>)
    requires forall g :: g in gs ==> g.subtotal == Subtotal(g.items)
    ensures SumSubtotals(gs) == Subtotal(Flat(gs))
  {
    if gs != [] {
      var p := gs[..|gs| - 1];
      assert forall g :: g in p ==> g in gs;
      SumSubtotalsFlat(p);
      SubtotalConcat(Flat(p), gs[|gs| - 1].items);
    }
  }

  /** One group per distinct supplier, none empty, each with that supplier's lines in order and their subtotal. */
  lemma {:induction false} SplitShape(es: seq<Entry>)
    ensures var gs := Split(es); var ss := Suppliers(es);
      && |gs| == |ss| && Distinct(ss) && Covers(es, ss)
      && forall k :: 0 <= k < |gs| ==>
           && gs[k].supplier == ss[k] && gs[k].items == LinesFor(es, ss[k]) && gs[k].items != []
           && gs[k].subtotal == Subtotal(gs[k].items)
  {
    SuppliersSpec(es);
    GroupsForAt(es, Suppliers(es));
  }

  /** Together the groups hold every line exactly once, and so the same value and quantities. */
  lemma {:induction false} SplitContents(es: seq<Entry>)
    ensures multiset(Flat(Split(es))) == multiset(LinesOf(es))
    ensures |Flat(Split(es))| == |LinesOf(es)|
    ensures SumSubtotals(Split(es)) == Subtotal(LinesOf(es))
    ensures forall x :: QtyOf(Flat(Split(es)), x) == QtyOf(LinesOf(es), x)
  {
    var gs := Split(es);
    SplitShape(es);
    SplitAll(es, Suppliers(es));
    FlatGroupsFor(es, Suppliers(es));
    assert |multiset(Flat(gs))| == |Flat(gs)|;
    assert |multiset(LinesOf(es))| == |LinesOf(es)|;
    assert forall g :: g in gs ==> g.subtotal == Subtotal(g.items);
    SumSubtotalsFlat(gs);
  }

  /**
   * Splitting partitions the cart: one group per distinct supplier, none empty, each holding
   * that supplier's lines in cart order with its subtotal; together the groups hold every
   * cart line exactly once, their subtotals add up to the cart's value (the sum of price
   * times quantity) and they ask for exactly the quantities the cart asks for.
   */
  lemma {:induction false} SplitPartition(inv: map<ItemId, Item>, lines: seq<CartLine>)
    requires Resolved(inv, lines)
    ensures var es := Resolve(inv, lines); var gs := Split(es); var ss := Suppliers(es);
      && |gs| == |ss| && Distinct(ss)
      && forall k :: 0 <= k < |gs| ==>
           && gs[k].supplier == ss[k] && gs[k].items == LinesFor(es, ss[k]) && gs[k].items != []
           && gs[k].subtotal == Subtotal(gs[k].items)
    ensures forall l :: l in lines ==> inv[l.item].supplier in Suppliers(Resolve(inv, lines))
    ensures multiset(Flat(Split(Resolve(inv, lines)))) == multiset(LinesOf(Resolve(inv, lines)))
    ensures |Flat(Split(Resolve(inv, lines)))| == |lines|
    ensures SumSubtotals(Split(Resolve(inv, lines))) == CartValue(inv, lines)
    ensures forall x :: QtyOf(Flat(Split(Resolve(inv, lines))), x) == CartQty(lines, x)
  {
    var es := Resolve(inv, lines);
    ResolveSpec(inv, lines);
    SplitShape(es);
    SplitContents(es);
    forall l | l in lines ensures inv[l.item].supplier in Suppliers(es) {
      var i :| 0 <= i < |lines| && lines[i] == l;
      assert es[i] in es;
    }
  }

  /** The running grouping of checkout's first loop describes the lines seen so far. */
  ghost predicate Grouped(es: seq<Entry>, m: map<UserId, Group>, keys: seq<UserId>)
  {
    && keys == Suppliers(es)
    && (forall t :: t in m <==> t in keys)
    && (forall t :: t in m ==> m[t] == GroupFor(es, t))
  }

  /** Appending a line opens its supplier's group when the supplier is new. */
  lemma {:induction false} GroupedKeys(es: seq<Entry>, e: Entry, m: map<UserId, Group>, keys: seq<UserId>)
    requires Grouped(es, m, keys)
    ensures Suppliers(es + [e]) == if e.supplier in m then keys else keys + [e.supplier]
  {
    SuppliersSnoc(es, e);
  }

  /** Appending a line extends its supplier's group by that line and its price. */
  lemma {:induction false} GroupedOwn(es: seq<Entry>, e: Entry)
    ensures GroupFor(es + [e], e.supplier)
            == Group(e.supplier, LinesFor(es, e.supplier) + [e.line], Subtotal(LinesFor(es, e.supplier)) + e.line.totalPrice)
  {
    LinesForSnoc(es, e, e.supplier);
    SubtotalConcat(LinesFor(es, e.supplier), [e.line]);
  }

  /** Appending a line leaves the other suppliers' groups alone. */
  lemma {:induction false} GroupedOther(es: seq<Entry>, e: Entry, t: UserId)
    requires t != e.supplier
    ensures GroupFor(es + [e], t) == GroupFor(es, t)
  {
    LinesForSnoc(es, e, t);
    assert LinesFor(es + [e], t) == LinesFor(es, t) + [];
  }

  /** The group `m` holds for `s`, or a new empty one. */
  function OpenGroup(m: map<UserId, Group>, s: UserId): Group
  {
    if s in m then m[s] else Group(s, [], 0.0)
  }

  /** The grouping after appending the entry's line to its supplier's group, opened if needed. */
  function Extend(m: map<UserId, Group>, e: Entry): map<UserId, Group>
  {
    var g := OpenGroup(m, e.supplier);
    m[e.supplier := Group(e.supplier, g.items + [e.line], g.subtotal + e.line.totalPrice)]
  }

  /** The supplier order after seeing supplier `s`. */
  function ExtendKeys(keys: seq<UserId>, m: map<UserId, Group>, s: UserId): seq<UserId>
  {
    if s in m then keys else keys + [s]
  }

  /** After one step, the map holds a group for exactly the suppliers listed. */
  lemma {:induction false} ExtendDomain(m: map<UserId, Group>, keys: seq<UserId>, e: Entry)
    requires forall t :: t in m <==> t in keys
    ensures forall t :: t in Extend(m, e) <==> t in ExtendKeys(keys, m, e.supplier)
  {
  }

  /** After one step, the entry's supplier's group holds its lines so far. */
  lemma {:induction false} ExtendOwn(es: seq<Entry>, e: Entry, m: map<UserId, Group>)
    requires OpenGroup(m, e.supplier) == GroupFor(es, e.supplier)
    ensures Extend(m, e)[e.supplier] == GroupFor(es + [e], e.supplier)
  {
    GroupedOwn(es, e);
  }

  /** After one step, the other suppliers' groups are as they were, and still hold their lines. */
  lemma {:induction false} ExtendOthers(es: seq<Entry>, e: Entry, m: map<UserId, Group>)
    requires forall t :: t in m ==> m[t] == GroupFor(es, t)
    ensures forall t :: t in m && t != e.supplier ==> Extend(m, e)[t] == GroupFor(es + [e], t)
  {
    forall t | t in m && t != e.supplier ensures Extend(m, e)[t] == GroupFor(es + [e], t) {
      assert Extend(m, e)[t] == m[t];
      GroupedOther(es, e, t);
    }
  }

  /** After one step, every supplier's group holds that supplier's lines so far. */
  lemma {:induction false} ExtendGroups(es: seq<Entry>, e: Entry, m: map<UserId, Group>, keys: seq<UserId>)
    requires Grouped(es, m, keys)
    ensures forall t :: t in Extend(m, e) ==> Extend(m, e)[t] == GroupFor(es + [e], t)
  {
    assert OpenGroup(m, e.supplier) == GroupFor(es, e.supplier) by {
      if e.supplier !in m {
        LinesForAbsent(es, e.supplier);
      }
    }
    ExtendOwn(es, e, m);
    ExtendOthers(es, e, m);
  }

  /** One step of that loop keeps the grouping in step with the entries seen. */
  lemma {:induction false} GroupedStep(es: seq<Entry>, e: Entry, m: map<UserId, Group>, keys: seq<UserId>)
    requires Grouped(es, m, keys)
    ensures Grouped(es + [e], Extend(m, e), ExtendKeys(keys, m, e.supplier))
  {
    GroupedKeys(es, e, m, keys);
    ExtendDomain(m, keys, e);
    ExtendGroups(es, e, m, keys);
  }

  /** The groups in key order (`Object.values` of the grouping). */
  method Values(m: map<UserId, Group>, keys: seq<UserId>) returns (groups: seq<Group>)
    requires forall t :: t in keys ==> t in m
    ensures |groups| == |keys| && forall k :: 0 <= k < |keys| ==> groups[k] == m[keys[k]]
  {
    groups := [];
    var k := 0;
    while k < |keys|
      invariant 0 <= k <= |keys|
      invariant |groups| == k && forall j :: 0 <= j < k ==> groups[j] == m[keys[j]]
    {
      groups := groups + [m[keys[k]]];
      k := k + 1;
    }
  }

  /** The state of checkout's first loop: the grouping so far, or `ok == false` once a line could not be resolved. */
  datatype Grouping = Grouping(ok: bool, bySupplier: map<UserId, Group>, keys: seq<UserId>, total: real)

  /** One iteration of that loop: append the frozen line to its supplier's group and add its price. */
  function AddLine(gr: Grouping, inv: map<ItemId, Item>, users: set<UserId>, line: CartLine): Grouping
  {
    if !gr.ok then gr
    else if line.item !in inv || inv[line.item].supplier !in users then gr.(ok := false)
    else
      var e := Entry(inv[line.item].supplier, Freeze(inv, line));
      Grouping(true, Extend(gr.bySupplier, e), ExtendKeys(gr.keys, gr.bySupplier, e.supplier),
               gr.total + e.line.totalPrice)
  }

  /** The grouping after the loop has seen `lines`. */
  function Scan(inv: map<ItemId, Item>, users: set<UserId>, lines: seq<CartLine>): Grouping
  {
    if lines == [] then Grouping(true, map[], [], 0.0)
    else AddLine(Scan(inv, users, lines[..|lines| - 1]), inv, users, lines[|lines| - 1])
  }

  /** Appending a line whose item and supplier exist extends the grouping of a populated prefix. */
  lemma {:induction false} ScanStep(inv: map<ItemId, Item>, users: set<UserId>, p: seq<CartLine>, line: CartLine)
    requires Populated(inv, users, p) && line.item in inv && inv[line.item].supplier in users
    requires Scan(inv, users, p).ok && Grouped(Resolve(inv, p), Scan(inv, users, p).bySupplier, Scan(inv, users, p).keys)
    ensures Populated(inv, users, p + [line])
    ensures Scan(inv, users, p + [line]).ok
    ensures Grouped(Resolve(inv, p + [line]), Scan(inv, users, p + [line]).bySupplier, Scan(inv, users, p + [line]).keys)
  {
    var gr := Scan(inv, users, p);
    assert (p + [line])[..|p|] == p;
    ResolveSnoc(inv, p, line);
    GroupedStep(Resolve(inv, p), Entry(inv[line.item].supplier, Freeze(inv, line)), gr.bySupplier, gr.keys);
  }

  /** The running total of a populated prefix, one line further. */
  lemma {:induction false} ScanTotalStep(inv: map<ItemId, Item>, users: set<UserId>, p: seq<CartLine>, line: CartLine)
    requires Populated(inv, users, p) && line.item in inv && inv[line.item].supplier in users
    requires Scan(inv, users, p).ok && Scan(inv, users, p).total == CartValue(inv, p)
    ensures Populated(inv, users, p + [line])
    ensures Scan(inv, users, p + [line]).total == CartValue(inv, p + [line])
  {
    assert (p + [line])[..|p|] == p;
    ResolveSnoc(inv, p, line);
  }

  /**
   * The loop succeeds exactly when every line's item exists and every such item's supplier
   * has a user document, and then it has grouped the resolved cart by supplier and added up
   * its value.
   */
  lemma {:induction false} ScanSpec(inv: map<ItemId, Item>, users: set<UserId>, lines: seq<CartLine>)
    ensures Scan(inv, users, lines).ok == Populated(inv, users, lines)
    ensures Populated(inv, users, lines) ==>
      && Grouped(Resolve(inv, lines), Scan(inv, users, lines).bySupplier, Scan(inv, users, lines).keys)
      && Scan(inv, users, lines).total == CartValue(inv, lines)
  {
    if lines != [] {
      var p := lines[..|lines| - 1];
      var line := lines[|lines| - 1];
      assert lines == p + [line];
      ScanSpec(inv, users, p);
      if !Populated(inv, users, p) {
        assert !Populated(inv, users, lines) by {
          var l :| l in p && (l.item !in inv || inv[l.item].supplier !in users);
          assert l in lines;
        }
      } else if line.item !in inv || inv[line.item].supplier !in users {
        assert line in lines;
      } else {
        ScanStep(inv, users, p, line);
        ScanTotalStep(inv, users, p, line);
      }
    }
  }

  /** Once a line could not be resolved, the loop has failed for good. */
  lemma {:induction false} ScanFailedPrefix(inv: map<ItemId, Item>, users: set<UserId>, lines: seq<CartLine>, j: nat)
    requires j <= |lines|
    requires !Scan(inv, users, lines[..j]).ok
    ensures !Scan(inv, users, lines).ok
    decreases |lines| - j
  {
    if j < |lines| {
      assert lines[..j + 1][..j] == lines[..j];
      ScanFailedPrefix(inv, users, lines, j + 1);
    } else {
      assert lines[..j] == lines;
    }
  }

  /** Listing a grouping's map in key order gives the supplier split of the entries. */
  lemma {:induction false} GroupedSplit(es: seq<Entry>, m: map<UserId, Group>, keys: seq<UserId>, groups: seq<Group>)
    requires Grouped(es, m, keys)
    requires |groups| == |keys|
    requires forall k :: 0 <= k < |keys| ==> keys[k] in m && groups[k] == m[keys[k]]
    ensures groups == Split(es)
  {
    GroupsForAt(es, keys);
    forall k | 0 <= k < |keys| ensures groups[k] == GroupsFor(es, keys)[k] {
      assert m[keys[k]] == GroupFor(es, keys[k]);
    }
  }

  /** Listing a successful scan's map in key order gives the supplier split of the cart. */
  lemma {:induction false} ScanSplit(inv: map<ItemId, Item>, users: set<UserId>, lines: seq<CartLine>, m: map<UserId, Group>, keys: seq<UserId>,
                  total: real, groups: seq<Group>)
    requires Scan(inv, users, lines) == Grouping(true, m, keys, total)
    requires |groups| == |keys|
    requires forall k :: 0 <= k < |keys| ==> keys[k] in m && groups[k] == m[keys[k]]
    ensures Populated(inv, users, lines)
    ensures groups == Split(Resolve(inv, lines)) && total == CartValue(inv, lines)
  {
    ScanSpec(inv, users, lines);
    GroupedSplit(Resolve(inv, lines), m, keys, groups);
  }

  /**
   * The grouping loop of checkout: for each cart line, stop if its item does not exist or
   * the item's supplier has no user document; otherwise freeze the line and append it to its supplier's group, opening the group
   * the first time the supplier appears, and add its price to the running total.
   */
  method GroupLines(inv: map<ItemId, Item>, users: set<UserId>, lines: seq<CartLine>)
    returns (ok: bool, bySupplier: map<UserId, Group>, keys: seq<UserId>, total: real)
    ensures ok == Scan(inv, users, lines).ok
    ensures ok ==> Scan(inv, users, lines) == Grouping(true, bySupplier, keys, total)
  {
    bySupplier, keys, total := map[], [], 0.0;
    var i := 0;
    while i < |lines|
      invariant 0 <= i <= |lines|
      invariant Scan(inv, users, lines[..i]) == Grouping(true, bySupplier, keys, total)
    {
      var line := lines[i];
      assert lines[..i + 1][..i] == lines[..i];
      if line.item !in inv || inv[line.item].supplier !in users {
        ScanFailedPrefix(inv, users, lines, i + 1);
        return false, bySupplier, keys, total;
      }
      var s := inv[line.item].supplier;
      var frozen := Freeze(inv, line);
      var g := Group(s, [], 0.0);
      if s in bySupplier {
        g := bySupplier[s];
      } else {
        keys := keys + [s];
      }
      bySupplier := bySupplier[s := Group(s, g.items + [frozen], g.subtotal + frozen.totalPrice)];
      total := total + frozen.totalPrice;
      i := i + 1;
    }
    assert lines[..i] == lines;
    ok := true;
  }

  /**
   * The first phase of checkout: group the cart by supplier and list the groups in the order
   * their suppliers first appear. `ok` is false when a line's item does not exist or its
   * supplier has no user document (`users` holds the identifiers that have one).
   */
  method GroupBySupplier(inv: map<ItemId, Item>, users: set<UserId>, lines: seq<CartLine>)
    returns (ok: bool, groups: seq<Group>, total: real)
    ensures ok == Populated(inv, users, lines)
    ensures ok ==> groups == Split(Resolve(inv, lines)) && total == CartValue(inv, lines)
  {
    var bySupplier, keys;
    ok, bySupplier, keys, total := GroupLines(inv, users, lines);
    ScanSpec(inv, users, lines);
    if !ok {
      return false, [], 0.0;
    }
    groups := Values(bySupplier, keys);
    ScanSplit(inv, users, lines, bySupplier, keys, total, groups);
  }

  // ---------------------------------------------------------------------------
  // Reserving stock and placing the orders
  // ---------------------------------------------------------------------------

  /** The inventory after reserving lines one by one, or where reservation stopped and why. */
  datatype Reservation = Reserved(inv: map<ItemId, Item>) | Stopped(code: Code, inv: map<ItemId, Item>)

  /** Reserve one line: refused when it asks for more than is available; `outOfStock` is set when the stock reaches 0. */
  function ReserveLine(inv: map<ItemId, Item>, l: OrderLine): Reservation
  {
    if l.item !in inv then Stopped(ServerError, inv)
    else
      var it := inv[l.item];
      if l.quantity > it.quantityAvailable then
        Stopped(InsufficientStock(it.name, it.quantityAvailable, l.quantity), inv)
      else
        var left := it.quantityAvailable - l.quantity;
        Reserved(inv[l.item := it.(quantityAvailable := left, outOfStock := it.outOfStock || left == 0)])
  }

  function ReserveLines(inv: map<ItemId, Item>, ls: seq<OrderLine>): Reservation
  {
    if ls == [] then Reserved(inv)
    else
      match ReserveLines(inv, ls[..|ls| - 1])
      case Stopped(c, i) => Stopped(c, i)
      case Reserved(i) => ReserveLine(i, ls[|ls| - 1])
  }

  predicate Mentions(ls: seq<OrderLine>, x: ItemId)
  {
    exists j :: 0 <= j < |ls| && ls[j].item == x
  }

  lemma {:induction false} MentionsSnoc(p: seq<OrderLine>, l: OrderLine, x: ItemId)
    ensures Mentions(p + [l], x) <==> Mentions(p, x) || l.item == x
  {
    if Mentions(p, x) {
      var j :| 0 <= j < |p| && p[j].item == x;
      assert (p + [l])[j] == p[j];
    }
    if Mentions(p + [l], x) && l.item != x {
      var j :| 0 <= j < |p + [l]| && (p + [l])[j].item == x;
      assert j < |p| && p[j] == (p + [l])[j];
    }
    if l.item == x {
      assert (p + [l])[|p|] == l;
    }
  }

  /**
   * Whether or not it completes, reservation keeps every counter non-negative, never clears
   * `outOfStock`, and touches only the items the lines name.
   */
  lemma {:induction false} ReserveLinesFrame(inv: map<ItemId, Item>, ls: seq<OrderLine>)
    ensures var r := ReserveLines(inv, ls);
      && r.inv.Keys == inv.Keys
      && (NonNegative(inv) ==> NonNegative(r.inv))
      && (forall x :: x in inv && inv[x].outOfStock ==> r.inv[x].outOfStock)
      && (forall x :: x in inv && !Mentions(ls, x) ==> r.inv[x] == inv[x])
  {
    if ls != [] {
      var p := ls[..|ls| - 1];
      var l := ls[|ls| - 1];
      assert ls == p + [l];
      ReserveLinesFrame(inv, p);
      forall x ensures Mentions(ls, x) <==> Mentions(p, x) || l.item == x {
        MentionsSnoc(p, l, x);
      }
    }
  }

  /**
   * A completed reservation takes exactly the requested quantity off each item and leaves
   * `outOfStock` set on every named item whose stock ended at 0.
   */
  lemma {:induction false} ReserveLinesTaken(inv: map<ItemId, Item>, ls: seq<OrderLine>)
    requires ReserveLines(inv, ls).Reserved?
    ensures var r := ReserveLines(inv, ls);
      forall x :: x in inv ==>
        && x in r.inv
        && r.inv[x].quantityAvailable == inv[x].quantityAvailable - QtyOf(ls, x)
        && (Mentions(ls, x) && r.inv[x].quantityAvailable == 0 ==> r.inv[x].outOfStock)
  {
    if ls != [] {
      var p := ls[..|ls| - 1];
      var l := ls[|ls| - 1];
      assert ls == p + [l];
      ReserveLinesTaken(inv, p);
      forall x ensures Mentions(ls, x) <==> Mentions(p, x) || l.item == x {
        MentionsSnoc(p, l, x);
      }
    }
  }

  /**
   * The converse for `outOfStock`: after a completed reservation of non-negative quantities,
   * an item is flagged only if it was flagged before or its stock ended at 0. (The cart
   * accepts negative quantities; a negative line after one that emptied the stock raises the
   * stock again and leaves the flag set, so the requirement on quantities is needed.)
   */
  lemma {:induction false} ReserveLinesFlagged(inv: map<ItemId, Item>, ls: seq<OrderLine>)
    requires ReserveLines(inv, ls).Reserved?
    requires forall j :: 0 <= j < |ls| ==> ls[j].quantity >= 0
    ensures ReserveLines(inv, ls).inv.Keys == inv.Keys
    ensures forall x :: x in inv && ReserveLines(inv, ls).inv[x].outOfStock ==>
              inv[x].outOfStock || ReserveLines(inv, ls).inv[x].quantityAvailable == 0
  {
    ReserveLinesFrame(inv, ls);
    if ls != [] {
      var p := ls[..|ls| - 1];
      assert forall j :: 0 <= j < |p| ==> p[j] == ls[j];
      ReserveLinesFlagged(inv, p);
      ReserveLinesFrame(inv, p);
    }
  }

  /** Why a reservation may stop: a missing item, or a line asking for more than is available. */
  predicate Refusal(c: Code)
  {
    c == ServerError || (c.InsufficientStock? && c.requested > c.available)
  }

  /** Reservation stops only for a missing item or a line asking for more than is available. */
  lemma {:induction false} ReserveLinesRefusal(inv: map<ItemId, Item>, ls: seq<OrderLine>)
    requires ReserveLines(inv, ls).Stopped?
    ensures Refusal(ReserveLines(inv, ls).code)
  {
    var p := ls[..|ls| - 1];
    if ReserveLines(inv, p).Stopped? {
      ReserveLinesRefusal(inv, p);
    }
  }

  /** A stopped reservation stopped at one line: every earlier line was applied, the failing one changed nothing. */
  lemma {:induction false} ReserveStopsAtFirstFailure(inv: map<ItemId, Item>, ls: seq<OrderLine>)
    requires ReserveLines(inv, ls).Stopped?
    ensures var r := ReserveLines(inv, ls);
      exists j :: 0 <= j < |ls| && ReserveLines(inv, ls[..j]) == Reserved(r.inv)
                  && ReserveLine(r.inv, ls[j]) == Stopped(r.code, r.inv)
  {
    var p := ls[..|ls| - 1];
    var r := ReserveLines(inv, ls);
    if ReserveLines(inv, p).Stopped? {
      ReserveStopsAtFirstFailure(inv, p);
      var j :| 0 <= j < |p| && ReserveLines(inv, p[..j]) == Reserved(r.inv)
               && ReserveLine(r.inv, p[j]) == Stopped(r.code, r.inv);
      assert p[..j] == ls[..j] && p[j] == ls[j];
    } else {
      assert ls[..|ls| - 1] == p;
    }
  }

  /** A reservation that stopped on a prefix stops there for the whole sequence. */
  lemma {:induction false} StoppedPrefix(inv: map<ItemId, Item>, ls: seq<OrderLine>, j: nat)
    requires j <= |ls|
    requires ReserveLines(inv, ls[..j]).Stopped?
    ensures ReserveLines(inv, ls) == ReserveLines(inv, ls[..j])
    decreases |ls| - j
  {
    if j < |ls| {
      assert ls[..j + 1][..j] == ls[..j];
      StoppedPrefix(inv, ls, j + 1);
    } else {
      assert ls[..j] == ls;
    }
  }

  /** The fields of checkout's request body, after defaults; `now` is the clock reading. */
  datatype OrderRequest = OrderRequest(
    vendor: UserId,
    orderType: Option<string>,
    deliveryAddress: Option<string>,
    paymentMethod: Option<string>,
    vendorNotes: Option<string>,
    now: int)

  function Tax(subtotal: real): real
  {
    subtotal * TaxPercent / 100.0
  }

  /** The order saved for one supplier group. */
  function NewOrder(req: OrderRequest, g: Group): Order
  {
    var orderType := if req.orderType.Some? then req.orderType.value else "pickup";
    var paymentMethod := if req.paymentMethod.Some? then req.paymentMethod.value else CashOnDelivery;
    var cgst := Tax(g.subtotal);
    var sgst := Tax(g.subtotal);
    Order(
      vendor := req.vendor,
      supplier := g.supplier,
      items := g.items,
      orderType := orderType,
      deliveryAddress := if orderType == "delivery" then req.deliveryAddress else None,
      vendorNotes := req.vendorNotes,
      supplierNotes := None,
      expectedDate := None,
      actualCompletionDate := None,
      actualDeliveryTime := None,
      subtotal := g.subtotal,
      cgst := cgst,
      sgst := sgst,
      totalAmount := g.subtotal + cgst + sgst,
      orderStatus := Placed,
      paymentStatus := if paymentMethod == CashOnDelivery then CashOnDelivery else PaymentPending,
      statusHistory := [HistoryEntry(Placed, req.now, Some(req.vendor), "Order placed by vendor")])
  }

  /** A new order is `placed`, carries two equal 9% taxes and a total of 118% of its subtotal, and one history entry by the vendor. */
  lemma {:induction false} NewOrderAmounts(req: OrderRequest, g: Group)
    ensures var o := NewOrder(req, g);
      && o.supplier == g.supplier && o.items == g.items && o.vendor == req.vendor
      && o.cgst == o.sgst == g.subtotal * 9.0 / 100.0
      && o.totalAmount == o.subtotal + o.cgst + o.sgst == g.subtotal * 118.0 / 100.0
      && o.orderStatus == Placed
      && o.statusHistory == [HistoryEntry(Placed, req.now, Some(req.vendor), "Order placed by vendor")]
  {
  }

  /** The database state while checkout places orders; `failure` is set once a reservation stops. */
  datatype Placement = Placement(
    inv: map<ItemId, Item>,
    orders: map<OrderId, Order>,
    nextId: nat,
    created: seq<OrderId>,
    failure: Option<Code>)

  /** Reserve one group's lines and save its order, unless an earlier group failed. */
  function PlaceGroup(p: Placement, req: OrderRequest, g: Group): Placement
  {
    if p.failure.Some? then p
    else
      match ReserveLines(p.inv, g.items)
      case Stopped(c, i) => p.(inv := i, failure := Some(c))
      case Reserved(i) =>
        p.(inv := i, orders := p.orders[p.nextId := NewOrder(req, g)],
           nextId := p.nextId + 1, created := p.created + [p.nextId])
  }

  function PlaceGroups(start: Placement, req: OrderRequest, gs: seq<Group>): Placement
  {
    if gs == [] then start else PlaceGroup(PlaceGroups(start, req, gs[..|gs| - 1]), req, gs[|gs| - 1])
  }

  predicate Fresh(p: Placement)
  {
    forall k :: k in p.orders ==> k < p.nextId
  }

  /**
   * One group: after a failure nothing changes; otherwise either its order is saved under the
   * next identifier, or the reservation stops without saving anything.
   */
  lemma {:induction false} PlaceGroupStep(q: Placement, req: OrderRequest, g: Group)
    requires Fresh(q)
    ensures var p := PlaceGroup(q, req, g);
      && Fresh(p)
      && (q.failure.Some? ==> p == q)
      && (q.failure.None? && p.failure.None? ==>
            p.orders == q.orders[q.nextId := NewOrder(req, g)] && p.nextId == q.nextId + 1
            && p.created == q.created + [q.nextId])
      && (q.failure.None? && p.failure.Some? ==>
            p.orders == q.orders && p.nextId == q.nextId && p.created == q.created && Refusal(p.failure.value))
  {
    if ReserveLines(q.inv, g.items).Stopped? {
      ReserveLinesRefusal(q.inv, g.items);
    }
  }

  /**
   * Placing orders allocates one fresh identifier per saved order and saves one order per
   * group unless a reservation stopped, for one of the two reasons a reservation can stop.
   */
  lemma {:induction false} PlaceGroupsCount(start: Placement, req: OrderRequest, gs: seq<Group>)
    requires start.failure.None? && start.created == [] && Fresh(start)
    ensures var p := PlaceGroups(start, req, gs);
      && Fresh(p)
      && p.nextId == start.nextId + |p.created|
      && |p.created| <= |gs|
      && (p.failure.None? ==> |p.created| == |gs|)
      && (p.failure.Some? ==> Refusal(p.failure.value))
  {
    if gs != [] {
      var gs' := gs[..|gs| - 1];
      PlaceGroupsCount(start, req, gs');
      PlaceGroupStep(PlaceGroups(start, req, gs'), req, gs[|gs| - 1]);
    }
  }

  /** Placing orders never touches an order that already existed. */
  lemma {:induction false} PlaceGroupsKeeps(start: Placement, req: OrderRequest, gs: seq<Group>)
    requires start.failure.None? && start.created == [] && Fresh(start)
    ensures var p := PlaceGroups(start, req, gs);
      forall k :: k in start.orders ==> k in p.orders && p.orders[k] == start.orders[k]
  {
    if gs != [] {
      var gs' := gs[..|gs| - 1];
      PlaceGroupsKeeps(start, req, gs');
      PlaceGroupsCount(start, req, gs');
      PlaceGroupStep(PlaceGroups(start, req, gs'), req, gs[|gs| - 1]);
    }
  }

  /** Every order present after placing is an old one or one of the orders created. */
  lemma {:induction false} PlaceGroupsOnlyNew(start: Placement, req: OrderRequest, gs: seq<Group>)
    requires start.failure.None? && start.created == [] && Fresh(start)
    ensures var p := PlaceGroups(start, req, gs);
      forall k :: k in p.orders ==> k in start.orders || k in p.created
  {
    if gs != [] {
      var gs' := gs[..|gs| - 1];
      var q := PlaceGroups(start, req, gs');
      var p := PlaceGroup(q, req, gs[|gs| - 1]);
      PlaceGroupsOnlyNew(start, req, gs');
      PlaceGroupsCount(start, req, gs');
      PlaceGroupStep(q, req, gs[|gs| - 1]);
      if q.failure.None? && p.failure.None? {
        forall k | k in p.orders ensures k in start.orders || k in p.created {
          if k in q.orders {
            assert k in start.orders || k in q.created;
          } else {
            assert p.created[|q.created|] == k;
          }
        }
      }
    }
  }

  /** Orders `created` were saved, in turn, for the first groups of `gs` under consecutive identifiers from `first`. */
  predicate CreatedFor(p: Placement, req: OrderRequest, gs: seq<Group>, first: nat)
  {
    && |p.created| <= |gs|
    && forall k :: 0 <= k < |p.created| ==>
         p.created[k] == first + k && p.created[k] in p.orders && p.orders[p.created[k]] == NewOrder(req, gs[k])
  }

  /** Placing one more group keeps the created orders in step with the groups. */
  lemma {:induction false} CreatedStep(req: OrderRequest, gs: seq<Group>, g: Group, q: Placement, first: nat)
    requires CreatedFor(q, req, gs, first)
    requires q.nextId == first + |q.created|
    requires q.failure.None? ==> |q.created| == |gs|
    ensures CreatedFor(PlaceGroup(q, req, g), req, gs + [g], first)
  {
    var p := PlaceGroup(q, req, g);
    if q.failure.None? && ReserveLines(q.inv, g.items).Reserved? {
      assert p.created == q.created + [q.nextId];
      assert p.orders == q.orders[q.nextId := NewOrder(req, g)];
      forall k | 0 <= k < |p.created|
        ensures p.created[k] == first + k && p.created[k] in p.orders && p.orders[p.created[k]] == NewOrder(req, (gs + [g])[k])
      {
        if k < |q.created| {
          assert p.created[k] == q.created[k] && (gs + [g])[k] == gs[k];
        } else {
          assert (gs + [g])[k] == g;
        }
      }
    } else {
      assert p.created == q.created && p.orders == q.orders;
      assert forall k :: 0 <= k < |q.created| ==> (gs + [g])[k] == gs[k];
    }
  }

  /** The k-th order created is the k-th group's order, saved under the k-th fresh identifier. */
  lemma {:induction false} PlaceGroupsCreated(start: Placement, req: OrderRequest, gs: seq<Group>)
    requires start.failure.None? && start.created == [] && Fresh(start)
    ensures CreatedFor(PlaceGroups(start, req, gs), req, gs, start.nextId)
  {
    if gs != [] {
      var gs' := gs[..|gs| - 1];
      PlaceGroupsCreated(start, req, gs');
      PlaceGroupsCount(start, req, gs');
      CreatedStep(req, gs', gs[|gs| - 1], PlaceGroups(start, req, gs'), start.nextId);
      assert gs' + [gs[|gs| - 1]] == gs;
    }
  }

  /**
   * Placing orders never touches an existing order, and saves the k-th group's order under
   * the k-th fresh identifier; nothing else is saved.
   */
  lemma {:induction false} PlaceGroupsOrders(start: Placement, req: OrderRequest, gs: seq<Group>)
    requires start.failure.None? && start.created == [] && Fresh(start)
    ensures var p := PlaceGroups(start, req, gs);
      && |p.created| <= |gs|
      && (forall k :: k in start.orders ==> k in p.orders && p.orders[k] == start.orders[k])
      && (forall k :: k in p.orders ==> k in start.orders || k in p.created)
      && (forall k :: 0 <= k < |p.created| ==>
            p.created[k] == start.nextId + k && p.created[k] in p.orders && p.orders[p.created[k]] == NewOrder(req, gs[k]))
  {
    PlaceGroupsKeeps(start, req, gs);
    PlaceGroupsOnlyNew(start, req, gs);
    PlaceGroupsCreated(start, req, gs);
  }

  /** Placing orders keeps the inventory's items, keeps every counter non-negative and never clears `outOfStock`. */
  lemma {:induction false} PlaceGroupsFrame(start: Placement, req: OrderRequest, gs: seq<Group>)
    ensures var p := PlaceGroups(start, req, gs);
      && p.inv.Keys == start.inv.Keys
      && (NonNegative(start.inv) ==> NonNegative(p.inv))
      && (forall x :: x in start.inv && start.inv[x].outOfStock ==> p.inv[x].outOfStock)
  {
    if gs != [] {
      var q := PlaceGroups(start, req, gs[..|gs| - 1]);
      PlaceGroupsFrame(start, req, gs[..|gs| - 1]);
      ReserveLinesFrame(q.inv, gs[|gs| - 1].items);
    }
  }

  /** When every group was placed, each item's stock fell by exactly the quantity the groups asked for. */
  lemma {:induction false} PlaceGroupsTaken(start: Placement, req: OrderRequest, gs: seq<Group>)
    requires start.failure.None? && PlaceGroups(start, req, gs).failure.None?
    ensures var p := PlaceGroups(start, req, gs);
      forall x :: x in start.inv ==>
        x in p.inv && p.inv[x].quantityAvailable == start.inv[x].quantityAvailable - QtyOf(Flat(gs), x)
  {
    if gs != [] {
      var gs' := gs[..|gs| - 1];
      var q := PlaceGroups(start, req, gs');
      var g := gs[|gs| - 1];
      assert q.failure.None?;
      PlaceGroupsTaken(start, req, gs');
      assert ReserveLines(q.inv, g.items).Reserved?;
      ReserveLinesTaken(q.inv, g.items);
      assert gs == gs' + [g];
      FlatSnoc(gs', g);
      forall x | x in start.inv
        ensures QtyOf(Flat(gs), x) == QtyOf(Flat(gs'), x) + QtyOf(g.items, x)
      {
        QtyOfConcat(Flat(gs'), g.items, x);
      }
    }
  }

  /**
   * Placing orders keeps every stock counter non-negative and never clears `outOfStock`; when
   * every group was placed, each item's stock fell by exactly the quantity the groups asked for.
   */
  lemma {:induction false} PlaceGroupsStock(start: Placement, req: OrderRequest, gs: seq<Group>)
    ensures var p := PlaceGroups(start, req, gs);
      && p.inv.Keys == start.inv.Keys
      && (NonNegative(start.inv) ==> NonNegative(p.inv))
      && (forall x :: x in start.inv && start.inv[x].outOfStock ==> p.inv[x].outOfStock)
      && (start.failure.None? && p.failure.None? ==> forall x :: x in start.inv ==>
            p.inv[x].quantityAvailable == start.inv[x].quantityAvailable - QtyOf(Flat(gs), x))
  {
    PlaceGroupsFrame(start, req, gs);
    if start.failure.None? && PlaceGroups(start, req, gs).failure.None? {
      PlaceGroupsTaken(start, req, gs);
    }
  }

  /** The effect of placing the k-th group, given how its reservation ends. */
  lemma {:induction false} PlaceGroupsNext(start: Placement, req: OrderRequest, gs: seq<Group>, k: nat, r: Reservation)
    requires k < |gs|
    requires PlaceGroups(start, req, gs[..k]).failure.None?
    requires r == ReserveLines(PlaceGroups(start, req, gs[..k]).inv, gs[k].items)
    ensures var q := PlaceGroups(start, req, gs[..k]);
      PlaceGroups(start, req, gs[..k + 1])
      == if r.Reserved? then
           q.(inv := r.inv, orders := q.orders[q.nextId := NewOrder(req, gs[k])],
              nextId := q.nextId + 1, created := q.created + [q.nextId])
         else q.(inv := r.inv, failure := Some(r.code))
  {
    assert gs[..k + 1][..k] == gs[..k];
  }

  lemma {:induction false} PlaceGroupsAll(start: Placement, req: OrderRequest, gs: seq<Group>)
    ensures PlaceGroups(start, req, gs[..|gs|]) == PlaceGroups(start, req, gs)
  {
    assert gs[..|gs|] == gs;
  }

  /** Once a group has failed, later groups change nothing. */
  lemma {:induction false} PlaceGroupsFailedPrefix(start: Placement, req: OrderRequest, gs: seq<Group>, k: nat)
    requires k <= |gs|
    requires PlaceGroups(start, req, gs[..k]).failure.Some?
    ensures PlaceGroups(start, req, gs) == PlaceGroups(start, req, gs[..k])
    decreases |gs| - k
  {
    if k < |gs| {
      assert gs[..k + 1][..k] == gs[..k];
      PlaceGroupsFailedPrefix(start, req, gs, k + 1);
    } else {
      assert gs[..k] == gs;
    }
  }

  /**
   * The inner loop of checkout: reserve each line of one group in turn, stopping at the first
   * line that cannot be reserved; what was reserved before it stays reserved.
   */
  method ReserveItems(db: Database, items: seq<OrderLine>) returns (failure: Option<Code>)
    modifies db
    ensures db.orders == old(db.orders) && db.deliveries == old(db.deliveries) && db.nextId == old(db.nextId)
    ensures ReserveLines(old(db.inventory), items)
            == if failure.None? then Reserved(db.inventory) else Stopped(failure.value, db.inventory)
  {
    var j := 0;
    while j < |items|
      invariant 0 <= j <= |items|
      invariant ReserveLines(old(db.inventory), items[..j]) == Reserved(db.inventory)
      invariant db.orders == old(db.orders) && db.deliveries == old(db.deliveries) && db.nextId == old(db.nextId)
    {
      var line := items[j];
      assert items[..j + 1][..j] == items[..j];
      if line.item !in db.inventory {
        StoppedPrefix(old(db.inventory), items, j + 1);
        return Some(ServerError);
      }
      var it := db.inventory[line.item];
      if line.quantity > it.quantityAvailable {
        StoppedPrefix(old(db.inventory), items, j + 1);
        return Some(InsufficientStock(it.name, it.quantityAvailable, line.quantity));
      }
      var updated := it.(quantityAvailable := it.quantityAvailable - line.quantity);
      if updated.quantityAvailable == 0 {
        updated := updated.(outOfStock := true);
      }
      db.inventory := db.inventory[line.item := updated];
      j := j + 1;
    }
    assert items[..j] == items;
    failure := None;
  }

  /**
   * The second loop of checkout: for each group in turn, reserve its lines and save its order;
   * stop at the first group whose reservation stops, keeping what was already reserved and saved.
   */
  method PlaceOrders(db: Database, req: OrderRequest, groups: seq<Group>)
    returns (failure: Option<Code>, created: seq<OrderId>)
    requires db.Valid()
    modifies db
    ensures db.Valid() && db.deliveries == old(db.deliveries)
    ensures var p := PlaceGroups(Placement(old(db.inventory), old(db.orders), old(db.nextId), [], None), req, groups);
      && db.inventory == p.inv && db.orders == p.orders && db.nextId == p.nextId
      && failure == p.failure && created == p.created
  {
    ghost var start := Placement(db.inventory, db.orders, db.nextId, [], None);
    created := [];
    var k := 0;
    while k < |groups|
      invariant 0 <= k <= |groups|
      invariant PlaceGroups(start, req, groups[..k]) == Placement(db.inventory, db.orders, db.nextId, created, None)
      invariant db.Valid() && db.deliveries == old(db.deliveries)
    {
      var g := groups[k];
      ghost var before := db.inventory;
      failure := ReserveItems(db, g.items);
      PlaceGroupsNext(start, req, groups, k, ReserveLines(before, g.items));
      if failure.Some? {
        PlaceGroupsFailedPrefix(start, req, groups, k + 1);
        return;
      }
      db.orders := db.orders[db.nextId := NewOrder(req, g)];
      created := created + [db.nextId];
      db.nextId := db.nextId + 1;
      k := k + 1;
    }
    PlaceGroupsAll(start, req, groups);
    failure := None;
  }

  /**
   * Checkout (createOrder). A missing or empty cart is refused with nothing changed. Otherwise
   * the cart is split by supplier and, group by group, each line's stock is reserved and the
   * group's order is saved; the first line that cannot be reserved ends the call with its code,
   * keeping what was already reserved and saved. Only a complete checkout empties the cart.
   * `users` holds the identifiers that have a user document; a line whose item or whose
   * item's supplier is missing makes the grouping throw, before anything is written.
   */
  method CreateOrder(db: Database, users: set<UserId>, cart: Cart?, req: OrderRequest)
    returns (code: Code, created: seq<OrderId>, totalValue: real)
    requires db.Valid()
    modifies db, cart
    ensures db.Valid()
    ensures db.deliveries == old(db.deliveries)
    ensures cart != null ==> cart.vendor == old(cart.vendor)
    ensures cart == null || old(cart.items) == [] ==>
      code == EmptyCart && unchanged(db) && (cart != null ==> cart.items == old(cart.items))
    ensures cart != null && old(cart.items) != [] && !Populated(old(db.inventory), users, old(cart.items)) ==>
      code == ServerError && unchanged(db) && cart.items == old(cart.items)
    ensures cart != null && old(cart.items) != [] && Populated(old(db.inventory), users, old(cart.items)) ==>
      var p := PlaceGroups(Placement(old(db.inventory), old(db.orders), old(db.nextId), [], None), req,
                           Split(Resolve(old(db.inventory), old(cart.items))));
      && db.inventory == p.inv && db.orders == p.orders && db.nextId == p.nextId
      && (p.failure.None? ==> code == Ok && created == p.created
                              && totalValue == CartValue(old(db.inventory), old(cart.items)) && cart.items == [])
      && (p.failure.Some? ==> code == p.failure.value && created == [] && cart.items == old(cart.items))
  {
    if cart == null || |cart.items| == 0 {
      return EmptyCart, [], 0.0;
    }
    var ok, groups, total := GroupBySupplier(db.inventory, users, cart.items);
    if !ok {
      return ServerError, [], 0.0;
    }
    var failure;
    failure, created := PlaceOrders(db, req, groups);
    if failure.Some? {
      return failure.value, [], 0.0;
    }
    cart.items := [];
    code, totalValue := Ok, total;
  }
}
