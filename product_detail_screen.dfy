/**
 * The product page: the quantity stepper, the price shown on the button,
 * the add-to-cart handler and the image index taken from the gallery's
 * scroll offset. The window width is a positive constant of the screen.
 */
module ProductDetailScreen {
  import opened Common
  import opened ShopStore

  /** The `-` button: one less, but never below 1. */
  function StepDown(quantity: int): (q: int)
    ensures q >= 1
    ensures quantity > 1 ==> q == quantity - 1
    ensures quantity <= 1 ==> q == 1
  {
    if quantity - 1 >= 1 then quantity - 1 else 1
  }

  /** Stepping down after stepping up returns to any quantity the stepper can show. */
  lemma StepDownUndoesUp(quantity: int)
    requires quantity >= 1
    ensures StepDown(quantity + 1) == quantity
  {
  }

  /** The price on the button: unit price times quantity. */
  function TotalPrice(price: real, quantity: int): (t: real)
    ensures quantity >= 1 && price >= 0.0 ==> t >= price
    ensures quantity == 1 ==> t == price
  {
    if quantity >= 1 && price >= 0.0 then
      AtLeastPrice(price, quantity);
      price * quantity as real
    else price * quantity as real
  }

  lemma AtLeastPrice(price: real, quantity: int)
    requires quantity >= 1 && price >= 0.0
    ensures price * quantity as real >= price
  {
    assert price * quantity as real == price + price * (quantity - 1) as real;
  }

  /** Each `+` adds the unit price once to the total. */
  lemma TotalStep(price: real, quantity: int)
    ensures TotalPrice(price, quantity + 1) == TotalPrice(price, quantity) + price
  {
    assert price * (quantity + 1) as real == price * quantity as real + price;
  }

  /** `Math.round(offsetX / width)`: the page the gallery came to rest on. */
  function ImageIndex(offsetX: real, width: real): (i: int)
    requires width > 0.0
    ensures offsetX >= 0.0 ==> i >= 0
  {
    DivSign(offsetX, width);
    Round(offsetX / width)
  }

  /** An offset no further than page `k` gives an index of at most `k`. */
  lemma ImageIndexAtMost(offsetX: real, width: real, k: int)
    requires width > 0.0 && offsetX <= k as real * width
    ensures ImageIndex(offsetX, width) <= k
  {
    AtMostQuotient(offsetX, width, k as real);
    RoundMonotone(offsetX / width, k as real);
    RoundOfInt(k);
  }

  /** Resting exactly on page `k` gives index `k`. */
  lemma PageIndex(k: int, width: real)
    requires width > 0.0
    ensures ImageIndex(k as real * width, width) == k
  {
    assert k as real * width / width == k as real;
    RoundOfInt(k);
  }

  class Screen {
    const store: Store
    const windowWidth: real
    var quantity: int
    var selectedImageIndex: int
    var wentBack: bool

    predicate Valid()
      reads this
    {
      quantity >= 1 && windowWidth > 0.0
    }

    constructor (store: Store, windowWidth: real)
      requires windowWidth > 0.0
      ensures Valid() && this.store == store && this.windowWidth == windowWidth
      ensures quantity == 1 && selectedImageIndex == 0 && !wentBack
    {
      this.store, this.windowWidth := store, windowWidth;
      quantity, selectedImageIndex, wentBack := 1, 0, false;
    }

    method Decrement()
      requires Valid()
      modifies this`quantity
      ensures Valid() && quantity == StepDown(old(quantity))
    {
      quantity := if quantity - 1 >= 1 then quantity - 1 else 1;
    }

    method Increment()
      requires Valid()
      modifies this`quantity
      ensures Valid() && quantity == old(quantity) + 1
    {
      quantity := quantity + 1;
    }

    method ScrollEnded(offsetX: real)
      requires Valid()
      modifies this`selectedImageIndex
      ensures selectedImageIndex == ImageIndex(offsetX, windowWidth)
    {
      selectedImageIndex := Round(offsetX / windowWidth);
    }

    /** `handleAddToCart`: with a product selected, add it in the chosen quantity and go back. */
    method HandleAddToCart()
      requires Valid() && store.Valid()
      modifies store`cart, this`wentBack
      ensures store.Valid()
      ensures old(store.selectedProduct).None? ==> store.cart == old(store.cart) && wentBack == old(wentBack)
      ensures old(store.selectedProduct).Some? ==>
        store.cart == CartAfterAdd(old(store.cart), old(store.selectedProduct).value, quantity)
        && CartCount(store.cart) == CartCount(old(store.cart)) + quantity && wentBack
    {
      if store.selectedProduct.Some? {
        store.AddToCart(store.selectedProduct.value, quantity);
        wentBack := true;
      }
    }
  }
}
