/** A shopping session put together from the pieces above: the shopper's
    clicks on the listing page and in the checkout view, applied in order
    to the store, the page's quantity selector and the view's confirmation
    flag. */
module Session {
  import opened CartStore
  import opened Checkout
  import opened Collections

  /** One click. Products are named by their position in the catalog. */
  datatype Event =
    | Minus(product: nat)
    | Plus(product: nat)
    | Add(product: nat)
    | ShowCart
    | CloseCart
    | Remove(id: int)
    | PlaceOrder

  datatype State = State(store: Store, quantities: Quantities, checkoutComplete: bool)

  function Start(): (s: State)
    ensures s.store.cart == [] && !s.store.isCheckoutOpen && !s.checkoutComplete
    ensures s.quantities == map[]
  {
    State(InitialStore(), InitialQuantities(), false)
  }

  /** What the session keeps true: one line per product, every line and
      every selector count at least 1. */
  predicate Good(s: State) {
    && UniqueIds(s.store.cart)
    && PositiveQuantities(s.store.cart)
    && NonNegativeLines(s.store.cart)
    && ValidQuantities(s.quantities)
  }

  /** Apply one click. A product position outside the catalog changes
      nothing, since the page only shows buttons for catalog entries. An
      Add that opens a closed checkout view mounts it afresh, so the
      confirmation flag is cleared, as it is by showing or closing it. */
  function Step(s: State, e: Event): (r: State)
    ensures e.Add? && e.product < |Catalog()| ==> r.store.isCheckoutOpen
    ensures e.Add? && e.product < |Catalog()| && !s.store.isCheckoutOpen ==> !r.checkoutComplete
    ensures e.Remove? ==> !HasId(r.store.cart, e.id)
    ensures e.PlaceOrder? ==> r.store.cart == [] && r.checkoutComplete
  {
    match e
    case Minus(k) =>
      if k < |Catalog()| then s.(quantities := Decrement(s.quantities, Catalog()[k].id)) else s
    case Plus(k) =>
      if k < |Catalog()| then s.(quantities := Increment(s.quantities, Catalog()[k].id)) else s
    case Add(k) =>
      if k < |Catalog()| then
        s.(store := AddFromCatalog(s.store, s.quantities, Catalog()[k]),
           checkoutComplete := s.checkoutComplete && s.store.isCheckoutOpen)
      else s
    case ShowCart => s.(store := SetCheckoutOpen(s.store, true), checkoutComplete := false)
    case CloseCart => s.(store := SetCheckoutOpen(s.store, false), checkoutComplete := false)
    case Remove(id) =>
      var v := RemoveLine(CheckoutView(s.store, s.checkoutComplete), id);
      s.(store := v.store)
    case PlaceOrder =>
      var v := HandleCheckout(CheckoutView(s.store, s.checkoutComplete));
      State(v.store, s.quantities, v.checkoutComplete)
  }

  /** Apply a whole run of clicks, first to last. */
  function Run(s: State, es: seq<Event>): State
    decreases |es|
  {
    if es == [] then s else Run(Step(s, es[0]), es[1..])
  }

  /** Adding a catalog product keeps prices non-negative: a merge keeps the
      line's price and an append brings a positive catalog price. */
  lemma AddKeepsPrices(c: Cart, it: Item)
    requires NonNegativeLines(c) && PositiveQuantities(c)
    requires it.price >= 0.0 && it.quantity >= 1
    ensures NonNegativeLines(AddLine(c, it)) && PositiveQuantities(AddLine(c, it))
  {
    var r := AddLine(c, it);
    if !HasId(c, it.id) {
      forall i | 0 <= i < |c| ensures r[i] == c[i] {
        assert r[..|c|][i] == r[i];
      }
    }
  }

  /** Removing lines keeps every surviving line's price and quantity. */
  lemma RemoveKeepsPrices(c: Cart, id: int)
    requires NonNegativeLines(c) && PositiveQuantities(c)
    ensures NonNegativeLines(RemoveLines(c, id)) && PositiveQuantities(RemoveLines(c, id))
  {
    var r := RemoveLines(c, id);
    RemoveLinesMembers(c, id);
    forall i | 0 <= i < |r| ensures r[i].price >= 0.0 && r[i].quantity >= 1 {
      assert r[i] in c;
    }
  }

  /** Every click keeps a well-formed session well-formed. */
  lemma StepKeepsGood(s: State, e: Event)
    requires Good(s)
    ensures Good(Step(s, e))
  {
    match e
    case Add(k) =>
      if k < |Catalog()| {
        var it := ItemFor(Catalog()[k], s.quantities);
        AddKeepsUnique(s.store.cart, it);
        AddKeepsPrices(s.store.cart, it);
      }
    case Remove(id) =>
      RemoveKeepsUnique(s.store.cart, id);
      RemoveKeepsPrices(s.store.cart, id);
    case _ =>
  }

  lemma {:induction false} RunKeepsGood(s: State, es: seq<Event>)
    requires Good(s)
    ensures Good(Run(s, es))
    decreases |es|
  {
    if es != [] {
      StepKeepsGood(s, es[0]);
      RunKeepsGood(Step(s, es[0]), es[1..]);
    }
  }

  /** Every session that starts fresh stays well-formed, so the cart never
      holds two lines for one product nor a line with fewer than one unit,
      and its subtotal is never negative. */
  lemma SessionInvariant(es: seq<Event>)
    ensures Good(Run(Start(), es))
    ensures Subtotal(Run(Start(), es).store.cart) >= 0.0
  {
    RunKeepsGood(Start(), es);
    SubtotalNonNegative(Run(Start(), es).store.cart);
  }

  // ---------------------------------------------------------------------
  // A worked example on the real catalog
  // ---------------------------------------------------------------------

  /** The carts of a short visit: the shopper raises the tee's selector to
      2 and adds it, lowers it back to 1 and adds it again, adds the hoodie
      untouched, then removes the tee in the checkout view. */
  lemma ExampleCarts()
    ensures
      var hoodie, tee := Catalog()[0], Catalog()[1];
      var q1 := Increment(InitialQuantities(), tee.id);
      var q2 := Decrement(q1, tee.id);
      var s1 := AddFromCatalog(InitialStore(), q1, tee);
      var s2 := AddFromCatalog(s1, q2, tee);
      var s3 := AddFromCatalog(s2, q2, hoodie);
      var t := ItemFor(tee, q1);
      var h := ItemFor(hoodie, q2);
      && t.quantity == 2 && t.price == 49.99
      && h.quantity == 1 && h.price == 89.99
      && s1.cart == [t]
      && s2.cart == [t.(quantity := 3)]
      && s3.cart == [t.(quantity := 3), h]
      && RemoveFromCart(s3, tee.id).cart == [h]
  {
    var hoodie, tee := Catalog()[0], Catalog()[1];
    var q1 := Increment(InitialQuantities(), tee.id);
    var q2 := Decrement(q1, tee.id);
    ExampleSelector();
    VisitCarts(ItemFor(tee, q1), ItemFor(tee, q2), ItemFor(hoodie, q2));
  }

  /** The selector readings along the visit: 2 for the tee, then 1, and 1
      for the untouched hoodie. */
  lemma ExampleSelector()
    ensures
      var hoodie, tee := Catalog()[0], Catalog()[1];
      var q1 := Increment(InitialQuantities(), tee.id);
      var q2 := Decrement(q1, tee.id);
      && Selected(q1, tee.id) == 2
      && Selected(q2, tee.id) == 1
      && Selected(q2, hoodie.id) == 1
  {
  }

  /** The visit's carts for any two products with distinct ids. */
  lemma VisitCarts(t: Item, t': Item, h: Item)
    requires t'.id == t.id && h.id != t.id && t'.quantity == 1
    ensures
      var s1 := AddToCart(InitialStore(), t);
      var s2 := AddToCart(s1, t');
      var s3 := AddToCart(s2, h);
      && s1.cart == [t]
      && s2.cart == [t.(quantity := t.quantity + 1)]
      && s3.cart == [t.(quantity := t.quantity + 1), h]
      && RemoveFromCart(s3, t.id).cart == [h]
  {
    var t2 := t.(quantity := t.quantity + 1);
    var c1 := AddLine([], t);
    assert !HasId([], t.id);
    assert c1 == [t];
    var c2 := AddLine(c1, t');
    assert HasId(c1, t.id) by { assert c1[0].id == t.id; }
    assert |c2| == 1 && c2[0] == t2;
    assert c2 == [t2];
    var c3 := AddLine(c2, h);
    assert !HasId(c2, h.id);
    assert c3 == [t2, h];
    RemovePresent(c3, 0);
    assert c3[1..] == [h];
  }

  /** The order summary along the same visit: subtotals 99.98, 149.97,
      239.96 (tax 23.996, total 273.946) and 89.99, and 9.99 once the cart
      is cleared. */
  lemma PricingExample()
    ensures
      var hoodie, tee := Catalog()[0], Catalog()[1];
      var q1 := Increment(InitialQuantities(), tee.id);
      var q2 := Decrement(q1, tee.id);
      var s1 := AddFromCatalog(InitialStore(), q1, tee);
      var s2 := AddFromCatalog(s1, q2, tee);
      var s3 := AddFromCatalog(s2, q2, hoodie);
      var s4 := RemoveFromCart(s3, tee.id);
      && Subtotal(s1.cart) == 99.98
      && Subtotal(s2.cart) == 149.97
      && ComputeTotals(s3.cart) == Totals(239.96, 9.99, 23.996, 273.946)
      && Subtotal(s4.cart) == 89.99
      && ComputeTotals(ClearCart(s4).cart).total == 9.99
  {
    var hoodie, tee := Catalog()[0], Catalog()[1];
    var q1 := Increment(InitialQuantities(), tee.id);
    var q2 := Decrement(q1, tee.id);
    var t := ItemFor(tee, q1);
    var h := ItemFor(hoodie, q2);
    var t3 := t.(quantity := 3);
    ExampleCarts();
    SingleLineSubtotal(t);
    SingleLineSubtotal(t3);
    SingleLineSubtotal(h);
    SubtotalSnoc([t3], h);
    assert [t3] + [h] == [t3, h];
  }
}
