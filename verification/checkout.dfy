/** The checkout view: the pricing figures it derives from the cart
    (subtotal, flat shipping, 10% tax, total), the remove button on each
    line, and the simulated checkout that empties the cart and shows the
    confirmation. Amounts are exact `real`s: neither the floating-point
    arithmetic nor the `toFixed(2)` formatting is modelled. */
module Checkout {
  import opened CartStore

  /** The flat shipping fee, whatever the cart holds. */
  const Shipping: real := 9.99

  /** The tax rate applied to the subtotal. */
  const TaxRate: real := 0.1

  /** The amount charged for `quantity` units at `price` each. */
  function Charge(price: real, quantity: int): real {
    price * (quantity as real)
  }

  /** What one line contributes: unit price times quantity. */
  function LineTotal(item: Item): real {
    Charge(item.price, item.quantity)
  }

  /** Charging for two batches at one price is charging for their sum. */
  lemma ChargeAdd(price: real, a: int, b: int)
    ensures Charge(price, a + b) == Charge(price, a) + Charge(price, b)
  {
  }

  lemma ChargeNonNegative(price: real, quantity: int)
    requires price >= 0.0 && quantity >= 0
    ensures Charge(price, quantity) >= 0.0
  {
  }

  /** Every line has a non-negative price and quantity. */
  predicate NonNegativeLines(c: Cart) {
    forall i :: 0 <= i < |c| ==> c[i].price >= 0.0 && c[i].quantity >= 0
  }

  /** The `reduce` over the cart, accumulated from the first line to the
      last starting at 0. */
  function Subtotal(c: Cart): (r: real)
    ensures c == [] ==> r == 0.0
  {
    if c == [] then 0.0 else Subtotal(c[..|c| - 1]) + LineTotal(c[|c| - 1])
  }

  /** With no negative price or quantity, the subtotal is not negative. */
  lemma {:induction false} SubtotalNonNegative(c: Cart)
    ensures NonNegativeLines(c) ==> Subtotal(c) >= 0.0
  {
    if c != [] && NonNegativeLines(c) {
      var last := c[|c| - 1];
      ChargeNonNegative(last.price, last.quantity);
      SubtotalNonNegative(c[..|c| - 1]);
    }
  }

  /** The four figures of the order summary. */
  datatype Totals = Totals(subtotal: real, shipping: real, tax: real, total: real)

  /** The order summary of a cart. */
  function ComputeTotals(c: Cart): (t: Totals)
    ensures t.subtotal == Subtotal(c)
    ensures t.shipping == 9.99
    ensures t.tax * 10.0 == t.subtotal
    ensures t.total * 10.0 == t.subtotal * 11.0 + 99.9
    ensures c == [] ==> t.subtotal == 0.0 && t.tax == 0.0 && t.total == 9.99
    ensures NonNegativeLines(c) ==>
      t.subtotal >= 0.0 && t.tax >= 0.0 && t.total >= t.shipping
  {
    var subtotal := Subtotal(c);
    var tax := subtotal * TaxRate;
    SubtotalNonNegative(c);
    Totals(subtotal, Shipping, tax, subtotal + Shipping + tax)
  }

  // ---------------------------------------------------------------------
  // The view's state and its actions
  // ---------------------------------------------------------------------

  /** The store the view reads plus its own `checkoutComplete` flag. */
  datatype CheckoutView = CheckoutView(store: Store, checkoutComplete: bool)

  /** Mounting the view: `checkoutComplete` starts false. */
  function OpenView(s: Store): (v: CheckoutView)
    ensures v.store == s && !v.checkoutComplete
  {
    CheckoutView(s, false)
  }

  /** The Remove button of a line. */
  function RemoveLine(v: CheckoutView, id: int): (r: CheckoutView)
    ensures !HasId(r.store.cart, id)
    ensures r.checkoutComplete == v.checkoutComplete
    ensures r.store.isCheckoutOpen == v.store.isCheckoutOpen
  {
    CheckoutView(RemoveFromCart(v.store, id), v.checkoutComplete)
  }

  /** The effect of `handleCheckout` once its timer fires: the cart is
      cleared and the confirmation is shown. */
  function HandleCheckout(v: CheckoutView): (r: CheckoutView)
    ensures r.store.cart == [] && r.checkoutComplete
    ensures r.store.isCheckoutOpen == v.store.isCheckoutOpen
    ensures ComputeTotals(r.store.cart).total == Shipping
  {
    CheckoutView(ClearCart(v.store), true)
  }

  // ---------------------------------------------------------------------
  // Lemmas: the subtotal is additive over the lines
  // ---------------------------------------------------------------------

  /** The subtotal of a concatenation is the sum of the subtotals. */
  lemma {:induction false} SubtotalAppend(a: Cart, b: Cart)
    ensures Subtotal(a + b) == Subtotal(a) + Subtotal(b)
  {
    if b == [] {
      assert a + b == a;
    } else {
      var ab := a + b;
      assert ab[..|ab| - 1] == a + b[..|b| - 1];
      assert ab[|ab| - 1] == b[|b| - 1];
      SubtotalAppend(a, b[..|b| - 1]);
    }
  }

  /** Appending one line adds exactly that line's price times quantity. */
  lemma SubtotalSnoc(c: Cart, x: Item)
    ensures Subtotal(c + [x]) == Subtotal(c) + LineTotal(x)
  {
    assert (c + [x])[..|c|] == c;
  }

  lemma SubtotalCons(x: Item, c: Cart)
    ensures Subtotal([x] + c) == LineTotal(x) + Subtotal(c)
  {
    SubtotalAppend([x], c);
    assert [x][..0] == [];
  }

  /** Merging into the line at index `i` raises the subtotal by that line's
      own unit price times the added quantity: the price the product was
      added with again is ignored. */
  lemma {:induction false} MergeSubtotal(c: Cart, p: Item, i: nat)
    requires UniqueIds(c) && i < |c| && c[i].id == p.id
    ensures Subtotal(Merge(c, p)) == Subtotal(c) + Charge(c[i].price, p.quantity)
  {
    TailUnique(c);
    var rest := Merge(c[1..], p);
    assert Merge(c, p) == [Bump(c[0], p)] + rest;
    SubtotalCons(Bump(c[0], p), rest);
    SubtotalCons(c[0], c[1..]);
    assert [c[0]] + c[1..] == c;
    if i == 0 {
      MergeAbsent(c[1..], p);
      MergeHead(c[0], p);
    } else {
      assert c[1..][i - 1] == c[i];
      MergeSubtotal(c[1..], p, i - 1);
    }
  }

  lemma MergeHead(x: Item, p: Item)
    requires x.id == p.id
    ensures LineTotal(Bump(x, p)) == LineTotal(x) + Charge(x.price, p.quantity)
  {
    ChargeAdd(x.price, x.quantity, p.quantity);
  }

  /** The unit price the cart charges for `p` after adding it: that of the
      line already holding its id, or its own when it is new. */
  function ChargedPrice(c: Cart, p: Item): real {
    match Find(c, p.id)
    case Some(existing) => existing.price
    case None => p.price
  }

  /** Every add raises the subtotal of a well-formed cart by the charged
      unit price times the added quantity. */
  lemma AddLineSubtotal(c: Cart, p: Item)
    requires UniqueIds(c)
    ensures Subtotal(AddLine(c, p)) == Subtotal(c) + Charge(ChargedPrice(c, p), p.quantity)
  {
    match FindIndex(c, p.id)
    case None =>
      SubtotalSnoc(c, p);
    case Some(k) =>
      MergeSubtotal(c, p, k);
  }

  /** Removing the line with a present id lowers the subtotal by exactly that
      line's price times quantity. */
  lemma RemoveSubtotal(c: Cart, i: nat)
    requires UniqueIds(c) && i < |c|
    ensures Subtotal(RemoveLines(c, c[i].id)) == Subtotal(c) - LineTotal(c[i])
  {
    RemovePresent(c, i);
    SubtotalCut(c, i);
  }

  /** Cutting the line at position `i` out of a cart lowers the subtotal by
      that line's price times quantity. */
  lemma SubtotalCut(c: Cart, i: nat)
    requires i < |c|
    ensures Subtotal(c[..i] + c[i + 1..]) == Subtotal(c) - LineTotal(c[i])
  {
    var pre, x, post := c[..i], c[i], c[i + 1..];
    assert c[i..] == [x] + post;
    assert c == pre + c[i..];
    SubtotalSplice(pre, x, post);
  }

  lemma SubtotalSplice(pre: Cart, x: Item, post: Cart)
    ensures Subtotal(pre + ([x] + post)) == Subtotal(pre) + LineTotal(x) + Subtotal(post)
    ensures Subtotal(pre + post) == Subtotal(pre) + Subtotal(post)
  {
    SubtotalAppend(pre, [x] + post);
    SubtotalCons(x, post);
    SubtotalAppend(pre, post);
  }

  /** Removing an absent id leaves the subtotal as it was. */
  lemma RemoveAbsentSubtotal(c: Cart, id: int)
    requires !HasId(c, id)
    ensures Subtotal(RemoveLines(c, id)) == Subtotal(c)
  {
  }

  /** The summary after a checkout shows only the shipping fee. */
  lemma CheckoutTotals(v: CheckoutView)
    ensures ComputeTotals(HandleCheckout(v).store.cart) == Totals(0.0, Shipping, 0.0, Shipping)
  {
  }

  /** A one-line cart's subtotal is that line's price times quantity. */
  lemma SingleLineSubtotal(x: Item)
    ensures Subtotal([x]) == LineTotal(x)
  {
    SubtotalSnoc([], x);
    assert [] + [x] == [x];
  }
}
