/** The cart store of the shop front-end: an ordered list of cart lines keyed
    by product id, with an upsert-by-id `addToCart`, a filtering
    `removeFromCart`, `clearCart`, and the "open checkout" flag that every
    add raises. The React state hooks are replaced by pure functions from
    the old state to the new one. */
module CartStore {

  /** One line of the cart. Prices are exact `real` amounts; quantities are
      unbounded integers, because the store itself never checks them. */
  datatype Item = Item(
    id: int,
    name: string,
    price: real,
    image: string,
    description: string,
    quantity: int)

  /** The cart, in insertion order. */
  type Cart = seq<Item>

  datatype Option<T> = None | Some(value: T)

  /** The two pieces of state the store provider holds. */
  datatype Store = Store(cart: Cart, isCheckoutOpen: bool)

  // ---------------------------------------------------------------------
  // Vocabulary
  // ---------------------------------------------------------------------

  predicate HasId(c: Cart, id: int) {
    exists i :: 0 <= i < |c| && c[i].id == id
  }

  /** At most one line per product id: the invariant the store keeps. */
  predicate UniqueIds(c: Cart) {
    forall i, j :: 0 <= i < j < |c| ==> c[i].id != c[j].id
  }

  /** Sum of the quantities over the cart (the number of units in it). */
  function TotalQuantity(c: Cart): int {
    if c == [] then 0 else c[0].quantity + TotalQuantity(c[1..])
  }

  predicate PositiveQuantities(c: Cart) {
    forall i :: 0 <= i < |c| ==> c[i].quantity >= 1
  }

  // ---------------------------------------------------------------------
  // Lookup
  // ---------------------------------------------------------------------

  /** Position of the first line carrying `id`, if any. */
  function FindIndex(c: Cart, id: int): (r: Option<nat>)
    ensures r.None? <==> !HasId(c, id)
    ensures r.Some? ==> r.value < |c| && c[r.value].id == id && !HasId(c[..r.value], id)
  {
    if c == [] then None
    else if c[0].id == id then Some(0)
    else match FindIndex(c[1..], id)
      case None => None
      case Some(k) =>
        assert c[..k + 1] == [c[0]] + c[1..][..k];
        Some(k + 1)
  }

  /** The lookup `addToCart` starts with: the first line with that id. */
  function Find(c: Cart, id: int): (r: Option<Item>)
    ensures r.None? <==> !HasId(c, id)
    ensures r.Some? ==> r.value in c && r.value.id == id
  {
    match FindIndex(c, id)
    case None => None
    case Some(k) => Some(c[k])
  }

  // ---------------------------------------------------------------------
  // addToCart
  // ---------------------------------------------------------------------

  /** The per-line step of the merge: a line with the product's id gets the
      product's quantity added, keeping every other field it had. */
  function Bump(item: Item, p: Item): (r: Item)
    ensures r.(quantity := item.quantity) == item
    ensures item.id == p.id ==> r.quantity == item.quantity + p.quantity
    ensures item.id != p.id ==> r == item
  {
    if item.id == p.id then item.(quantity := item.quantity + p.quantity) else item
  }

  /** The merge branch of `addToCart`, applied to every line in turn. */
  function Merge(c: Cart, p: Item): (r: Cart)
    ensures |r| == |c|
    ensures forall i :: 0 <= i < |c| ==> r[i] == Bump(c[i], p)
  {
    if c == [] then [] else [Bump(c[0], p)] + Merge(c[1..], p)
  }

  /** `addToCart` on the cart alone: merge into the existing line with the
      same id, otherwise append the product as the new last line. */
  function AddLine(c: Cart, p: Item): (r: Cart)
    ensures HasId(c, p.id) ==>
      && |r| == |c|
      && (forall i :: 0 <= i < |c| && c[i].id == p.id ==>
            r[i] == c[i].(quantity := c[i].quantity + p.quantity))
      && (forall i :: 0 <= i < |c| && c[i].id != p.id ==> r[i] == c[i])
    ensures !HasId(c, p.id) ==> |r| == |c| + 1 && r[..|c|] == c && r[|c|] == p
    ensures HasId(r, p.id)
  {
    if Find(c, p.id).Some? then Merge(c, p) else c + [p]
  }

  /** Adding never creates a duplicate id: a merge keeps every id where it
      was, and an append only happens for an id not yet present. */
  lemma AddKeepsUnique(c: Cart, p: Item)
    ensures UniqueIds(c) ==> UniqueIds(AddLine(c, p))
  {
    var r := AddLine(c, p);
    if HasId(c, p.id) {
      forall i | 0 <= i < |c| ensures r[i].id == c[i].id {
      }
    } else {
      forall i | 0 <= i < |c| ensures r[i] == c[i] && c[i].id != p.id {
        assert r[..|c|][i] == r[i];
      }
    }
  }

  // ---------------------------------------------------------------------
  // removeFromCart
  // ---------------------------------------------------------------------

  /** `removeFromCart` on the cart alone: keep, in order, every line whose
      id differs from `id`. */
  function RemoveLines(c: Cart, id: int): (r: Cart)
    ensures !HasId(r, id)
    ensures |r| <= |c|
    ensures !HasId(c, id) ==> r == c
  {
    if c == [] then []
    else if c[0].id == id then RemoveLines(c[1..], id)
    else [c[0]] + RemoveLines(c[1..], id)
  }

  /** The lines that survive a removal are exactly the lines of the cart
      with another id. */
  lemma {:induction false} RemoveLinesMembers(c: Cart, id: int)
    ensures forall x :: x in RemoveLines(c, id) <==> x in c && x.id != id
  {
    if c != [] {
      RemoveLinesMembers(c[1..], id);
      assert forall x :: x in c <==> x == c[0] || x in c[1..];
    }
  }

  // ---------------------------------------------------------------------
  // The store: the cart plus the checkout flag
  // ---------------------------------------------------------------------

  /** The provider's initial state: `useState([])` and `useState(false)`. */
  function InitialStore(): (s: Store)
    ensures s.cart == [] && !s.isCheckoutOpen
    ensures UniqueIds(s.cart) && TotalQuantity(s.cart) == 0
  {
    Store([], false)
  }

  /** `addToCart`: update the cart and open the checkout view. */
  function AddToCart(s: Store, p: Item): (r: Store)
    ensures r.isCheckoutOpen
    ensures HasId(r.cart, p.id)
    ensures UniqueIds(s.cart) ==> UniqueIds(r.cart)
  {
    AddKeepsUnique(s.cart, p);
    Store(AddLine(s.cart, p), true)
  }

  /** `removeFromCart`: the flag is untouched. */
  function RemoveFromCart(s: Store, id: int): (r: Store)
    ensures !HasId(r.cart, id)
    ensures r.isCheckoutOpen == s.isCheckoutOpen
    ensures UniqueIds(s.cart) ==> UniqueIds(r.cart)
  {
    RemoveKeepsUnique(s.cart, id);
    Store(RemoveLines(s.cart, id), s.isCheckoutOpen)
  }

  /** `clearCart`: empty the cart whatever it held. */
  function ClearCart(s: Store): (r: Store)
    ensures |r.cart| == 0 && UniqueIds(r.cart) && TotalQuantity(r.cart) == 0
    ensures r.isCheckoutOpen == s.isCheckoutOpen
  {
    Store([], s.isCheckoutOpen)
  }

  /** `setIsCheckoutOpen`, which the provider hands out alongside the cart
      operations. */
  function SetCheckoutOpen(s: Store, open: bool): (r: Store)
    ensures r.cart == s.cart && r.isCheckoutOpen == open
  {
    Store(s.cart, open)
  }

  // ---------------------------------------------------------------------
  // Lemmas about the cart operations
  // ---------------------------------------------------------------------

  lemma {:induction false} TotalQuantityAppend(a: Cart, b: Cart)
    ensures TotalQuantity(a + b) == TotalQuantity(a) + TotalQuantity(b)
  {
    if a == [] {
      assert a + b == b;
    } else {
      assert (a + b)[1..] == a[1..] + b;
      TotalQuantityAppend(a[1..], b);
    }
  }

  /** Merging a product whose id is absent changes nothing. */
  lemma {:induction false} MergeAbsent(c: Cart, p: Item)
    requires !HasId(c, p.id)
    ensures Merge(c, p) == c
  {
    if c != [] {
      assert !HasId(c[1..], p.id) by {
        forall i | 0 <= i < |c[1..]| ensures c[1..][i].id != p.id {
          assert c[1..][i] == c[i + 1];
        }
      }
      MergeAbsent(c[1..], p);
    }
  }

  /** In a cart with unique ids, merging raises the unit count by exactly the
      product's quantity. */
  lemma {:induction false} MergeTotalQuantity(c: Cart, p: Item)
    requires UniqueIds(c) && HasId(c, p.id)
    ensures TotalQuantity(Merge(c, p)) == TotalQuantity(c) + p.quantity
  {
    var r := Merge(c, p);
    assert r[1..] == Merge(c[1..], p);
    if c[0].id == p.id {
      assert !HasId(c[1..], p.id) by {
        forall i | 0 <= i < |c[1..]| ensures c[1..][i].id != p.id {
          assert c[1..][i] == c[i + 1];
        }
      }
      MergeAbsent(c[1..], p);
    } else {
      assert HasId(c[1..], p.id) by {
        var i :| 0 <= i < |c| && c[i].id == p.id;
        assert c[1..][i - 1] == c[i];
      }
      assert UniqueIds(c[1..]) by {
        forall i, j | 0 <= i < j < |c[1..]| ensures c[1..][i].id != c[1..][j].id {
          assert c[1..][i] == c[i + 1] && c[1..][j] == c[j + 1];
        }
      }
      MergeTotalQuantity(c[1..], p);
    }
  }

  /** Every add, whether it merges or appends, raises the number of units
      in a well-formed cart by exactly the product's quantity. */
  lemma AddLineTotalQuantity(c: Cart, p: Item)
    requires UniqueIds(c)
    ensures TotalQuantity(AddLine(c, p)) == TotalQuantity(c) + p.quantity
  {
    if HasId(c, p.id) {
      MergeTotalQuantity(c, p);
    } else {
      TotalQuantityAppend(c, [p]);
    }
  }

  /** Filtering distributes over concatenation. */
  lemma {:induction false} RemoveLinesAppend(a: Cart, b: Cart, id: int)
    ensures RemoveLines(a + b, id) == RemoveLines(a, id) + RemoveLines(b, id)
  {
    if a == [] {
      assert a + b == b;
    } else {
      assert (a + b)[1..] == a[1..] + b;
      RemoveLinesAppend(a[1..], b, id);
    }
  }

  /** Dropping the first line of a well-formed cart keeps it well-formed. */
  lemma TailUnique(c: Cart)
    requires UniqueIds(c) && c != []
    ensures UniqueIds(c[1..])
    ensures !HasId(c[1..], c[0].id)
  {
    forall i, j | 0 <= i < j < |c[1..]| ensures c[1..][i].id != c[1..][j].id {
      assert c[1..][i] == c[i + 1] && c[1..][j] == c[j + 1];
    }
    forall i | 0 <= i < |c[1..]| ensures c[1..][i].id != c[0].id {
      assert c[1..][i] == c[i + 1];
    }
  }

  /** Removing never introduces a duplicate id. */
  lemma {:induction false} RemoveKeepsUnique(c: Cart, id: int)
    ensures UniqueIds(c) ==> UniqueIds(RemoveLines(c, id))
  {
    if c != [] && UniqueIds(c) {
      TailUnique(c);
      RemoveKeepsUnique(c[1..], id);
      if c[0].id != id {
        var rest := RemoveLines(c[1..], id);
        var r := [c[0]] + rest;
        RemoveLinesMembers(c[1..], id);
        forall j | 0 <= j < |rest| ensures rest[j].id != c[0].id {
          assert rest[j] in c[1..];
        }
        forall i, j | 0 <= i < j < |r| ensures r[i].id != r[j].id {
          assert r[j] == rest[j - 1];
          if i > 0 {
            assert r[i] == rest[i - 1];
          }
        }
      }
    }
  }

  /** Removing an id that is present in a well-formed cart deletes exactly
      its line and keeps the others in their order. */
  lemma RemovePresent(c: Cart, i: nat)
    requires UniqueIds(c) && i < |c|
    ensures RemoveLines(c, c[i].id) == c[..i] + c[i + 1..]
  {
    var x := c[i];
    var pre, post := c[..i], c[i + 1..];
    assert !HasId(pre, x.id) by {
      forall k | 0 <= k < |pre| ensures pre[k].id != x.id {
        assert pre[k] == c[k];
      }
    }
    assert !HasId(post, x.id) by {
      forall k | 0 <= k < |post| ensures post[k].id != x.id {
        assert post[k] == c[i + 1 + k];
      }
    }
    SplitAt(c, i);
    RemoveLinesAppend(pre, [x] + post, x.id);
    RemoveLinesAppend([x], post, x.id);
    RemoveOnly(x);
    assert [] + post == post;
  }

  lemma SplitAt(c: Cart, i: nat)
    requires i < |c|
    ensures c == c[..i] + ([c[i]] + c[i + 1..])
  {
    assert c[i..] == [c[i]] + c[i + 1..];
    assert c == c[..i] + c[i..];
  }

  lemma RemoveOnly(x: Item)
    ensures RemoveLines([x], x.id) == []
  {
    assert [x][1..] == [];
  }

  /** Removing twice is removing once. */
  lemma RemoveIdempotent(c: Cart, id: int)
    ensures RemoveLines(RemoveLines(c, id), id) == RemoveLines(c, id)
  {
    var r := RemoveLines(c, id);
    assert !HasId(r, id);
  }

  /** Adding a product whose id is absent and then removing that id gives
      back the original cart exactly. */
  lemma AddThenRemove(c: Cart, p: Item)
    requires !HasId(c, p.id)
    ensures RemoveLines(AddLine(c, p), p.id) == c
  {
    assert AddLine(c, p) == c + [p];
    RemoveLinesAppend(c, [p], p.id);
    assert RemoveLines([p], p.id) == [];
  }

  /** The store-level round trip: the checkout flag is left open. */
  lemma StoreAddThenRemove(s: Store, p: Item)
    requires !HasId(s.cart, p.id)
    ensures RemoveFromCart(AddToCart(s, p), p.id) == Store(s.cart, true)
  {
    AddThenRemove(s.cart, p);
  }

  /** Two adds of the same new id leave one line carrying the metadata of
      the first add and the summed quantity. */
  lemma AddSameIdTwice(c: Cart, p: Item, q: Item)
    requires !HasId(c, p.id) && q.id == p.id
    ensures AddLine(AddLine(c, p), q) == c + [p.(quantity := p.quantity + q.quantity)]
  {
    assert AddLine(c, p) == c + [p];
    MergeIntoLast(c, p, q);
  }

  /** Adding to a cart whose last line is the only one with the id bumps
      that last line and nothing else. */
  lemma MergeIntoLast(c: Cart, p: Item, q: Item)
    requires !HasId(c, p.id) && q.id == p.id
    ensures AddLine(c + [p], q) == c + [p.(quantity := p.quantity + q.quantity)]
  {
    var c1 := c + [p];
    assert c1[|c|].id == q.id;
    assert AddLine(c1, q) == Merge(c1, q);
    MergeAppend(c, [p], q);
    MergeAbsent(c, q);
    MergeOne(p, q);
  }

  /** Merging into a one-line cart with the same id bumps that line. */
  lemma MergeOne(p: Item, q: Item)
    requires q.id == p.id
    ensures Merge([p], q) == [p.(quantity := p.quantity + q.quantity)]
  {
    assert [p][1..] == [];
  }

  /** `addToCart` called once per product of `ps`, first to last. */
  function AddItems(c: Cart, ps: seq<Item>): Cart
    decreases |ps|
  {
    if ps == [] then c else AddItems(AddLine(c, ps[0]), ps[1..])
  }

  /** Any number of further adds of an id that only the last line has just
      bump that line: its quantity grows by the sum of theirs, and its name,
      price, image and description stay those of the first add, whatever
      the later products carry. */
  lemma AddSameIdMany(c: Cart, x: Item, ps: seq<Item>)
    requires !HasId(c, x.id)
    requires forall i :: 0 <= i < |ps| ==> ps[i].id == x.id
    ensures AddItems(c + [x], ps) == c + [x.(quantity := x.quantity + TotalQuantity(ps))]
  {
    var t := x.quantity + TotalQuantity(ps);
    var last := x.(quantity := t);
    AddItemsIntoLast(c, x, ps, t);
    assert last == x.(quantity := x.quantity + TotalQuantity(ps));
  }

  /** The same, with the expected final quantity `t` passed down. */
  lemma {:induction false} AddItemsIntoLast(c: Cart, x: Item, ps: seq<Item>, t: int)
    requires !HasId(c, x.id)
    requires forall i :: 0 <= i < |ps| ==> ps[i].id == x.id
    requires t == x.quantity + TotalQuantity(ps)
    ensures AddItems(c + [x], ps) == c + [x.(quantity := t)]
    decreases |ps|
  {
    if ps == [] {
      assert x.(quantity := t) == x;
    } else {
      var q := ps[0];
      var rest := ps[1..];
      var y := x.(quantity := x.quantity + q.quantity);
      assert q.id == x.id;
      AddItemsStep(c, x, q, rest, y);
      forall i | 0 <= i < |rest| ensures rest[i].id == y.id {
        assert rest[i] == ps[i + 1];
      }
      assert TotalQuantity(ps) == q.quantity + TotalQuantity(rest);
      AddItemsIntoLast(c, y, rest, t);
      assert y.(quantity := t) == x.(quantity := t);
    }
  }

  /** One add of the id the last line holds merges into that line. */
  lemma AddItemsStep(c: Cart, x: Item, q: Item, rest: seq<Item>, y: Item)
    requires !HasId(c, x.id) && q.id == x.id
    requires y == x.(quantity := x.quantity + q.quantity)
    ensures AddItems(c + [x], [q] + rest) == AddItems(c + [y], rest)
  {
    var d := c + [x];
    var ps := [q] + rest;
    assert ps[0] == q && ps[1..] == rest;
    assert AddItems(d, ps) == AddItems(AddLine(d, q), rest);
    MergeIntoLast(c, x, q);
  }

  lemma {:induction false} MergeAppend(a: Cart, b: Cart, p: Item)
    ensures Merge(a + b, p) == Merge(a, p) + Merge(b, p)
  {
    if a == [] {
      assert a + b == b;
    } else {
      assert (a + b)[1..] == a[1..] + b;
      MergeAppend(a[1..], b, p);
    }
  }
}
