/** The product listing page: the hardcoded catalog, the per-product
    quantity selector (a map from product id to the chosen count, clamped
    to at least 1, read with a default of 1), and the item it hands to
    `addToCart`. */
module Collections {
  import opened CartStore

  /** A catalog entry. */
  datatype Product = Product(id: int, name: string, price: real, image: string, description: string)

  /** The page's `quantities` state: product id to chosen count. Products
      the shopper has not touched have no entry. */
  type Quantities = map<int, int>

  /** The four products the page lists. */
  function Catalog(): (r: seq<Product>)
    ensures |r| == 4
    ensures forall i, j :: 0 <= i < j < |r| ==> r[i].id != r[j].id
    ensures forall i :: 0 <= i < |r| ==> r[i].price > 0.0
  {
    [ Product(1, "Premium Black Hoodie", 89.99,
        "https://images.unsplash.com/photo-1620799140408-edc6dcb6d633",
        "Heavyweight cotton with custom embroidery"),
      Product(2, "Graphic Signature Tee", 49.99,
        "https://images.unsplash.com/photo-1576566588028-4147f3842f27",
        "Limited edition screen print"),
      Product(3, "Oversized Denim Jacket", 129.99,
        "https://images.unsplash.com/photo-1591047139829-d91aecb6caea",
        "Vintage wash with custom hardware"),
      Product(4, "Minimalist Sweatpants", 69.99,
        "https://images.unsplash.com/photo-1527719327859-c6ce80353573",
        "Premium french terry fabric") ]
  }

  /** Every stored count is at least 1. */
  predicate ValidQuantities(q: Quantities) {
    forall k :: k in q ==> q[k] >= 1
  }

  /** The page's initial state: no entries. */
  function InitialQuantities(): (q: Quantities)
    ensures q == map[] && ValidQuantities(q)
    ensures forall id :: Selected(q, id) == 1
  {
    map[]
  }

  /** The count the selector shows and the Add button uses: the stored
      count, or 1 when there is none. The page falls back with a logical
      or, so a stored 0 would also read as 1. */
  function Selected(q: Quantities, id: int): (n: int)
    ensures id !in q ==> n == 1
    ensures ValidQuantities(q) ==> n >= 1 && (id in q ==> n == q[id])
  {
    if id in q && q[id] != 0 then q[id] else 1
  }

  function Max(a: int, b: int): int {
    if a >= b then a else b
  }

  /** `handleQuantityChange(id, value)`: store `Math.max(1, value)` for
      `id`, keeping every other entry. */
  function HandleQuantityChange(q: Quantities, id: int, value: int): (r: Quantities)
    ensures id in r && r[id] >= 1 && r[id] >= value
    ensures value >= 1 ==> r[id] == value
    ensures value < 1 ==> r[id] == 1
    ensures r.Keys == q.Keys + {id}
    ensures forall k :: k in q && k != id ==> r[k] == q[k]
    ensures ValidQuantities(q) ==> ValidQuantities(r)
  {
    q[id := Max(1, value)]
  }

  /** The minus button. */
  function Decrement(q: Quantities, id: int): (r: Quantities)
    ensures Selected(r, id) >= 1
    ensures Selected(q, id) <= 1 ==> Selected(r, id) == 1
    ensures Selected(q, id) > 1 ==> Selected(r, id) == Selected(q, id) - 1
    ensures forall k :: k != id ==> Selected(r, k) == Selected(q, k)
  {
    HandleQuantityChange(q, id, Selected(q, id) - 1)
  }

  /** The plus button. */
  function Increment(q: Quantities, id: int): (r: Quantities)
    ensures Selected(r, id) >= 1
    ensures ValidQuantities(q) ==> Selected(r, id) == Selected(q, id) + 1
    ensures forall k :: k != id ==> Selected(r, k) == Selected(q, k)
  {
    HandleQuantityChange(q, id, Selected(q, id) + 1)
  }

  /** The line the Add button hands to `addToCart`: every field of the
      catalog product plus the selected quantity. */
  function ItemFor(product: Product, q: Quantities): (it: Item)
    ensures it.id == product.id && it.name == product.name && it.price == product.price
    ensures it.image == product.image && it.description == product.description
    ensures it.quantity == Selected(q, product.id)
    ensures product.id !in q ==> it.quantity == 1
    ensures ValidQuantities(q) ==> it.quantity >= 1
  {
    Item(product.id, product.name, product.price, product.image,
         product.description, Selected(q, product.id))
  }

  /** The Add button: add the selected quantity of `product` to the store. */
  function AddFromCatalog(s: Store, q: Quantities, product: Product): (r: Store)
    ensures r.isCheckoutOpen
    ensures HasId(r.cart, product.id)
    ensures UniqueIds(s.cart) ==> UniqueIds(r.cart)
    ensures ValidQuantities(q) && PositiveQuantities(s.cart) ==> PositiveQuantities(r.cart)
  {
    AddToCart(s, ItemFor(product, q))
  }

  /** The Add button raises the number of units in a well-formed cart by
      exactly the count shown on the selector. */
  lemma AddFromCatalogTotalQuantity(s: Store, q: Quantities, product: Product)
    requires UniqueIds(s.cart)
    ensures TotalQuantity(AddFromCatalog(s, q, product).cart)
            == TotalQuantity(s.cart) + Selected(q, product.id)
  {
    AddLineTotalQuantity(s.cart, ItemFor(product, q));
  }
}
