/**
 * The shop store: the product catalogue, the cart (one item per product id,
 * merged on add) and the orders, newest first. Checkout prices the cart with a
 * 10% promo discount, free shipping over 50, and 8% tax, then empties the
 * cart. Money is exact `real` arithmetic; the mock network delays are not
 * modelled, and the promo check is a parameter of the store.
 */
module ShopStore {
  import opened Common
  import opened Text
  import opened Seqs

  datatype Product = Product(id: string, name: string, description: string, price: real,
                             category: string, inStock: bool)

  datatype CartItem = CartItem(product: Product, quantity: int)

  datatype OrderItem = OrderItem(productId: string, quantity: int, price: real)

  datatype OrderStatus = Pending | Processing | Shipped | Delivered | Confirmed

  datatype Order = Order(id: string, items: seq<OrderItem>, subtotal: real, discount: Option<real>,
                         shipping: real, tax: real, total: real, promoCodeUsed: Option<string>,
                         status: OrderStatus, createdAt: string)

  const MockProducts: seq<Product> := [
    Product("1", "Nite Putter Pro", "Professional LED golf putter with customizable colors and effects",
            299.99, "Putters", true),
    Product("2", "Glow Ball Set (12 pack)", "Premium LED golf balls that sync with your putter",
            89.99, "Balls", true),
    Product("3", "Nite Cup Markers", "Smart cup markers with customizable LED effects",
            149.99, "Accessories", true)
  ]

  const FreeShippingOver: real := 50.0
  const ShippingFee: real := 9.99
  const PromoRate: real := 0.10
  const TaxRate: real := 0.08

  function ProductIds(cart: seq<CartItem>): (r: seq<string>)
    ensures |r| == |cart| && forall i :: 0 <= i < |cart| ==> r[i] == cart[i].product.id
  {
    seq(|cart|, i requires 0 <= i < |cart| => cart[i].product.id)
  }

  /** How many items of the cart are for the product `id`. */
  function Occurrences(cart: seq<CartItem>, id: string): nat
    decreases |cart|
  {
    if cart == [] then 0
    else Occurrences(cart[..|cart| - 1], id) + (if cart[|cart| - 1].product.id == id then 1 else 0)
  }

  // ------------------------------------------------------------------ the cart

  function HasProduct(id: string): CartItem -> bool {
    (item: CartItem) => item.product.id == id
  }

  /** `item.quantity + quantity` on the items for the product `id`. */
  function AddQuantity(cart: seq<CartItem>, id: string, quantity: int): (r: seq<CartItem>)
    ensures |r| == |cart|
    ensures forall i :: 0 <= i < |cart| ==>
      r[i] == if cart[i].product.id == id then cart[i].(quantity := cart[i].quantity + quantity) else cart[i]
  {
    MapWhere(cart, HasProduct(id), (item: CartItem) => item.(quantity := item.quantity + quantity))
  }

  /** `addToCart`: merge into the item for the same product, or append a new item. */
  function CartAfterAdd(cart: seq<CartItem>, product: Product, quantity: int): (r: seq<CartItem>)
    ensures product.id in ProductIds(cart) ==> r == AddQuantity(cart, product.id, quantity)
    ensures product.id !in ProductIds(cart) ==> r == cart + [CartItem(product, quantity)]
    ensures NoDup(ProductIds(cart)) ==> NoDup(ProductIds(r))
  {
    var existing := Find(cart, HasProduct(product.id));
    assert existing.Some? <==> product.id in ProductIds(cart) by {
      if product.id in ProductIds(cart) {
        var k :| 0 <= k < |cart| && ProductIds(cart)[k] == product.id;
        assert HasProduct(product.id)(cart[k]);
      }
    }
    if existing.Some? then
      var r := AddQuantity(cart, product.id, quantity);
      assert ProductIds(r) == ProductIds(cart);
      r
    else
      var r := cart + [CartItem(product, quantity)];
      assert ProductIds(r) == ProductIds(cart) + [product.id];
      if NoDup(ProductIds(cart)) then
        NoDupSnoc(ProductIds(cart), product.id);
        r
      else r
  }

  /** `removeFromCart`: every item for the product goes, the rest stay in order. */
  function CartAfterRemove(cart: seq<CartItem>, id: string): (r: seq<CartItem>)
    ensures forall i :: 0 <= i < |r| ==> r[i].product.id != id && r[i] in cart
    ensures forall i :: 0 <= i < |cart| && cart[i].product.id != id ==> cart[i] in r
    ensures IsSubsequence(r, cart)
    ensures id !in ProductIds(cart) ==> r == cart
  {
    var p := (item: CartItem) => item.product.id != id;
    if id !in ProductIds(cart) then
      FilterKeepsAll(cart, p);
      Filter(cart, p)
    else Filter(cart, p)
  }

  /** `updateCartQuantity`: a quantity of zero or less removes the product; otherwise it is set. */
  function CartAfterUpdate(cart: seq<CartItem>, id: string, quantity: int): (r: seq<CartItem>)
    ensures quantity <= 0 ==> r == CartAfterRemove(cart, id)
    ensures quantity > 0 ==> |r| == |cart| && ProductIds(r) == ProductIds(cart)
    ensures quantity > 0 ==> forall i :: 0 <= i < |cart| ==>
      r[i] == if cart[i].product.id == id then cart[i].(quantity := quantity) else cart[i]
    ensures quantity > 0 && id !in ProductIds(cart) ==> r == cart
  {
    if quantity <= 0 then CartAfterRemove(cart, id)
    else
      var r := MapWhere(cart, HasProduct(id), (item: CartItem) => item.(quantity := quantity));
      assert ProductIds(r) == ProductIds(cart);
      r
  }

  /** Subsequences of a cart with distinct product ids have distinct product ids. */
  lemma {:induction false} SubsequenceNoDupIds(r: seq<CartItem>, cart: seq<CartItem>)
    requires IsSubsequence(r, cart) && NoDup(ProductIds(cart))
    ensures NoDup(ProductIds(r))
    decreases |cart|
  {
    if r != [] && cart != [] {
      NoDupTail(ProductIds(cart));
      assert ProductIds(cart)[1..] == ProductIds(cart[1..]);
      if r[0] == cart[0] {
        SubsequenceNoDupIds(r[1..], cart[1..]);
        assert ProductIds(r) == [r[0].product.id] + ProductIds(r[1..]);
        SubsequenceMembers(r[1..], cart[1..]);
        NoDupCons(r[0].product.id, ProductIds(r[1..]));
      } else {
        SubsequenceNoDupIds(r, cart[1..]);
      }
    }
  }

  lemma {:induction false} SubsequenceMembers(r: seq<CartItem>, cart: seq<CartItem>)
    requires IsSubsequence(r, cart)
    ensures forall i :: 0 <= i < |r| ==> r[i].product.id in ProductIds(cart)
    decreases |cart|
  {
    if r != [] && cart != [] {
      if r[0] == cart[0] {
        SubsequenceMembers(r[1..], cart[1..]);
        forall i | 0 <= i < |r| ensures r[i].product.id in ProductIds(cart) {
          if i == 0 {
            assert ProductIds(cart)[0] == r[0].product.id;
          } else {
            assert r[i] == r[1..][i - 1];
            assert ProductIds(cart[1..]) == ProductIds(cart)[1..];
          }
        }
      } else {
        SubsequenceMembers(r, cart[1..]);
        assert ProductIds(cart[1..]) == ProductIds(cart)[1..];
      }
    }
  }

  // ------------------------------------------------------------ cart counting

  /** `cart.reduce((sum, item) => sum + item.quantity, 0)`. */
  function CartCount(cart: seq<CartItem>): int
    decreases |cart|
  {
    if cart == [] then 0 else CartCount(cart[..|cart| - 1]) + cart[|cart| - 1].quantity
  }

  /** Adding `quantity` to the items for `id` adds it once for each such item. */
  lemma {:induction false} CountAddQuantity(cart: seq<CartItem>, id: string, quantity: int)
    ensures CartCount(AddQuantity(cart, id, quantity)) == CartCount(cart) + quantity * Occurrences(cart, id)
    decreases |cart|
  {
    if cart != [] {
      var n := |cart| - 1;
      assert AddQuantity(cart, id, quantity)[..n] == AddQuantity(cart[..n], id, quantity);
      CountAddQuantity(cart[..n], id, quantity);
    }
  }

  /** In a cart with distinct product ids, a present product has exactly one item. */
  lemma {:induction false} SingleOccurrence(cart: seq<CartItem>, id: string)
    requires NoDup(ProductIds(cart))
    ensures Occurrences(cart, id) == if id in ProductIds(cart) then 1 else 0
    decreases |cart|
  {
    if cart != [] {
      var n := |cart| - 1;
      var init := cart[..n];
      assert ProductIds(init) == ProductIds(cart)[..n];
      assert NoDup(ProductIds(init));
      SingleOccurrence(init, id);
      assert ProductIds(cart) == ProductIds(init) + [cart[n].product.id];
      if cart[n].product.id == id {
        assert id !in ProductIds(init) by {
          forall k | 0 <= k < n ensures ProductIds(init)[k] != id {
            assert ProductIds(cart)[k] != ProductIds(cart)[n];
          }
        }
      }
    }
  }

  lemma CountAppend(cart: seq<CartItem>, item: CartItem)
    ensures CartCount(cart + [item]) == CartCount(cart) + item.quantity
  {
    assert (cart + [item])[..|cart|] == cart;
  }

  /** Adding `quantity` of a product to a cart raises the item count by exactly `quantity`. */
  lemma AddToCartCount(cart: seq<CartItem>, product: Product, quantity: int)
    requires NoDup(ProductIds(cart))
    ensures CartCount(CartAfterAdd(cart, product, quantity)) == CartCount(cart) + quantity
  {
    if product.id in ProductIds(cart) {
      CountAddQuantity(cart, product.id, quantity);
      SingleOccurrence(cart, product.id);
    } else {
      CountAppend(cart, CartItem(product, quantity));
    }
  }

  // ------------------------------------------------------------------ pricing

  /** `item.product.price * item.quantity`. */
  function LineTotal(item: CartItem): real {
    item.product.price * item.quantity as real
  }

  /** `cart.reduce((sum, item) => sum + item.product.price * item.quantity, 0)`. */
  function Subtotal(cart: seq<CartItem>): real
    decreases |cart|
  {
    if cart == [] then 0.0 else Subtotal(cart[..|cart| - 1]) + LineTotal(cart[|cart| - 1])
  }

  lemma {:induction false} SubtotalAppend(a: seq<CartItem>, b: seq<CartItem>)
    ensures Subtotal(a + b) == Subtotal(a) + Subtotal(b)
    decreases |b|
  {
    if b == [] {
      assert a + b == a;
    } else {
      var n := |b| - 1;
      assert (a + b)[..|a + b| - 1] == a + b[..n];
      SubtotalAppend(a, b[..n]);
    }
  }

  /** No item has a negative price or quantity. */
  predicate NonNegative(cart: seq<CartItem>) {
    forall i :: 0 <= i < |cart| ==> cart[i].product.price >= 0.0 && cart[i].quantity >= 0
  }

  lemma {:induction false} SubtotalNonNegative(cart: seq<CartItem>)
    requires NonNegative(cart)
    ensures Subtotal(cart) >= 0.0
    decreases |cart|
  {
    if cart != [] {
      var n := |cart| - 1;
      assert NonNegative(cart[..n]);
      SubtotalNonNegative(cart[..n]);
      assert LineTotal(cart[n]) >= 0.0;
    }
  }

  /** A promo applies only when a non-empty code is given and passes the check. */
  predicate PromoApplies(promoCode: Option<string>, isValidPromo: string -> bool) {
    promoCode.Some? && promoCode.value != [] && isValidPromo(promoCode.value)
  }

  datatype Pricing = Pricing(subtotal: real, discount: real, discounted: real,
                             shipping: real, tax: real, total: real)

  /** The checkout arithmetic. */
  function Price(cart: seq<CartItem>, promoApplies: bool): (p: Pricing)
    ensures p.subtotal == Subtotal(cart)
    ensures p.discount == if promoApplies then Subtotal(cart) * PromoRate else 0.0
    ensures p.discounted >= 0.0 && p.discounted >= p.subtotal - p.discount
    ensures p.discounted == 0.0 || p.discounted == p.subtotal - p.discount
    ensures p.shipping == 0.0 <==> p.discounted > FreeShippingOver
    ensures p.shipping == 0.0 || p.shipping == ShippingFee
    ensures p.tax == p.discounted * TaxRate
    ensures p.total == p.discounted + p.shipping + p.tax
  {
    var subtotal := Subtotal(cart);
    var discount := if promoApplies then subtotal * PromoRate else 0.0;
    var discounted := MaxR(0.0, subtotal - discount);
    var shipping := if discounted > FreeShippingOver then 0.0 else ShippingFee;
    var tax := discounted * TaxRate;
    Pricing(subtotal, discount, discounted, shipping, tax, discounted + shipping + tax)
  }

  /** For a cart of non-negative lines the floor at zero never bites: a promo takes exactly 10% off. */
  lemma PromoTakesTenPercent(cart: seq<CartItem>)
    requires NonNegative(cart)
    ensures Price(cart, true).discounted == Subtotal(cart) * 0.9
    ensures Price(cart, false).discounted == Subtotal(cart)
    ensures Price(cart, true).total >= 0.0 && Price(cart, false).total >= 0.0
  {
    SubtotalNonNegative(cart);
  }

  /**
   * When the promo does not move the subtotal across the free-shipping line,
   * it lowers the total; it can raise it otherwise (`PromoCanRaiseTotal`).
   */
  lemma PromoSavesWithSameShipping(cart: seq<CartItem>)
    requires NonNegative(cart)
    requires Price(cart, true).shipping == Price(cart, false).shipping
    ensures Price(cart, true).total <= Price(cart, false).total
  {
    SubtotalNonNegative(cart);
  }

  /** A 55.00 cart costs more with the promo: 49.50 no longer ships free. */
  lemma PromoCanRaiseTotal(cart: seq<CartItem>)
    requires Subtotal(cart) == 55.0
    ensures Price(cart, true).total > Price(cart, false).total
  {
    assert Price(cart, true).discounted == 49.5;
    assert Price(cart, false).discounted == 55.0;
  }

  /** The order built from the cart: its items mirror the cart; discount and promo code only with a promo. */
  function MakeOrder(cart: seq<CartItem>, promoCode: Option<string>, isValidPromo: string -> bool,
                     id: string, createdAt: string): (o: Order)
    ensures |o.items| == |cart|
    ensures forall i :: 0 <= i < |cart| ==>
      o.items[i] == OrderItem(cart[i].product.id, cart[i].quantity, cart[i].product.price)
    ensures o.status == Pending && o.id == id && o.createdAt == createdAt
    ensures var p := Price(cart, PromoApplies(promoCode, isValidPromo));
            o.subtotal == p.subtotal && o.shipping == p.shipping && o.tax == p.tax && o.total == p.total
    ensures o.discount.Some? <==> PromoApplies(promoCode, isValidPromo)
    ensures o.discount.Some? ==> o.discount.value == Subtotal(cart) * PromoRate
    ensures o.promoCodeUsed.Some? <==> PromoApplies(promoCode, isValidPromo)
    ensures o.promoCodeUsed.Some? ==> o.promoCodeUsed.value == ToUpper(Trim(promoCode.value))
  {
    var valid := PromoApplies(promoCode, isValidPromo);
    var p := Price(cart, valid);
    var items := seq(|cart|, i requires 0 <= i < |cart| =>
                       OrderItem(cart[i].product.id, cart[i].quantity, cart[i].product.price));
    Order(id, items, p.subtotal, if valid then Some(p.discount) else None, p.shipping, p.tax, p.total,
          if valid then Some(ToUpper(Trim(promoCode.value))) else None, Pending, createdAt)
  }

  /** What `partialize` persists: the cart and the orders. */
  datatype PersistedShop = PersistedShop(cart: seq<CartItem>, orders: seq<Order>)

  class Store {
    const isValidPromo: string -> bool
    var products: seq<Product>
    var cart: seq<CartItem>
    var orders: seq<Order>
    var isLoading: bool
    var error: Option<string>
    var selectedProduct: Option<Product>

    /** The cart holds at most one item per product. */
    predicate Valid()
      reads this
    {
      NoDup(ProductIds(cart))
    }

    /** `partialize`: the products, the flags, the error and the selected product are not persisted. */
    function Partialize(): PersistedShop
      reads this
    {
      PersistedShop(cart, orders)
    }

    constructor (isValidPromo: string -> bool)
      ensures Valid() && this.isValidPromo == isValidPromo
      ensures products == [] && cart == [] && orders == [] && !isLoading && error == None
      ensures selectedProduct == None
    {
      this.isValidPromo := isValidPromo;
      products, cart, orders := [], [], [];
      isLoading, error, selectedProduct := false, None, None;
    }

    method FetchProducts()
      modifies this`products, this`isLoading, this`error
      ensures products == MockProducts && !isLoading && error == None
      ensures Partialize() == old(Partialize())
    {
      isLoading, error := true, None;
      products, isLoading, error := MockProducts, false, None;
    }

    /** `addToCart(product, quantity = 1)`. */
    method AddToCart(product: Product, quantity: int := 1)
      requires Valid()
      modifies this`cart
      ensures Valid() && cart == CartAfterAdd(old(cart), product, quantity)
      ensures CartCount(cart) == CartCount(old(cart)) + quantity
    {
      AddToCartCount(cart, product, quantity);
      cart := CartAfterAdd(cart, product, quantity);
    }

    method RemoveFromCart(id: string)
      requires Valid()
      modifies this`cart
      ensures Valid() && cart == CartAfterRemove(old(cart), id)
    {
      var r := CartAfterRemove(cart, id);
      SubsequenceNoDupIds(r, cart);
      cart := r;
    }

    method UpdateCartQuantity(id: string, quantity: int)
      requires Valid()
      modifies this`cart
      ensures Valid() && cart == CartAfterUpdate(old(cart), id, quantity)
    {
      if quantity <= 0 {
        RemoveFromCart(id);
        return;
      }
      cart := CartAfterUpdate(cart, id, quantity);
    }

    method ClearCart()
      modifies this`cart
      ensures Valid() && cart == []
    {
      cart := [];
    }

    /**
     * `checkout`: the new order is put in front of the others and the cart is
     * emptied. Its id is `Date.now().toString()` and its timestamp the ISO
     * string of the same clock, both passed in.
     */
    method Checkout(promoCode: Option<string>, now: nat, createdAt: string)
      modifies this`cart, this`orders, this`isLoading, this`error
      ensures orders == [MakeOrder(old(cart), promoCode, isValidPromo, DecimalString(now), createdAt)] + old(orders)
      ensures Valid() && cart == [] && !isLoading && error == None
    {
      var snapshot := cart;
      isLoading, error := true, None;
      var order := MakeOrder(snapshot, promoCode, isValidPromo, DecimalString(now), createdAt);
      orders := [order] + orders;
      cart, isLoading, error := [], false, None;
    }

    method FetchOrders()
      modifies this`isLoading, this`error
      ensures !isLoading && error == None
      ensures Partialize() == old(Partialize())
    {
      isLoading, error := true, None;
      isLoading, error := false, None;
    }

    method SetSelectedProduct(product: Option<Product>)
      modifies this`selectedProduct
      ensures selectedProduct == product
      ensures Partialize() == old(Partialize())
    {
      selectedProduct := product;
    }

    method ClearError()
      modifies this`error
      ensures error == None
      ensures Partialize() == old(Partialize())
    {
      error := None;
    }
  }
}
