/** The order summary screen: the cart total and the checkout dialog, which
    rejects an empty cart and otherwise asks for confirmation before clearing
    the cart. */
module Checkout {
  import opened Types
  import HomePage
  import CartPage

  /** Amount to pay: the sum of the line subtotals. It is 0 for the empty
      cart and no line's subtotal exceeds it. */
  function Total(cart: Cart): (r: nat)
    ensures cart == [] ==> r == 0
    ensures forall i :: 0 <= i < |cart| ==> CartPage.LineSubtotal(cart[i]) <= r
  {
    SumOverBoundsTerms(cart, CartPage.LineSubtotal);
    SumOver(cart, CartPage.LineSubtotal)
  }

  /** Adding `q` units of a product already on line `k` raises the total by
      `q` times that line's unit price. */
  lemma AddTotalExisting(cart: Cart, product: Product, q: nat, k: nat)
    requires UniqueIds(cart)
    requires k < |cart| && cart[k].id == product.id
    ensures Total(HomePage.AddToCart(cart, product, q)) == Total(cart) + cart[k].price * q
  {
    var line := cart[k].(quantity := cart[k].quantity + q);
    var added := HomePage.AddToCart(cart, product, q);
    assert added == cart[k := line] by {
      HomePage.AddExisting(cart, product, q, k);
    }
    var before, after := CartPage.LineSubtotal(cart[k]), CartPage.LineSubtotal(line);
    assert after == before + cart[k].price * q by {
      BumpedSubtotal(cart[k], q);
    }
    assert Total(added) + before == Total(cart) + after by {
      SumOverReplace(cart, k, line, CartPage.LineSubtotal);
    }
  }

  /** Raising a line's quantity by `q` raises its subtotal by `q` times its
      unit price. */
  lemma BumpedSubtotal(item: Product, q: nat)
    ensures CartPage.LineSubtotal(item.(quantity := item.quantity + q))
         == CartPage.LineSubtotal(item) + item.price * q
  {
  }

  /** Adding `q` units of a product not yet in the cart raises the total by
      `q` times the product's price. */
  lemma AddTotalAbsent(cart: Cart, product: Product, q: nat)
    requires !HasId(cart, product.id)
    ensures Total(HomePage.AddToCart(cart, product, q)) == Total(cart) + product.price * q
  {
    var line := product.(quantity := q);
    SumOverAppend(cart, [line], CartPage.LineSubtotal);
    assert [line][..0] == [];
  }

  /** A confirmed removal of line `k` lowers the total by that line's
      subtotal and the item count by its quantity. */
  lemma RemoveTotals(cart: Cart, k: nat)
    requires UniqueIds(cart)
    requires k < |cart|
    ensures Total(CartPage.RemoveLine(cart, cart[k].id)) + CartPage.LineSubtotal(cart[k]) == Total(cart)
    ensures HomePage.ItemCount(CartPage.RemoveLine(cart, cart[k].id)) + cart[k].quantity
         == HomePage.ItemCount(cart)
  {
    CartPage.RemoveLineAt(cart, cart[k].id, k);
    SumOverDelete(cart, k, CartPage.LineSubtotal);
    SumOverDelete(cart, k, HomePage.Quantity);
  }

  /** The screen tests `cart.length === 0`; under the quantity invariant that
      is the same as an item count of 0. */
  lemma EmptyTestMatchesItemCount(cart: Cart)
    requires PositiveQuantities(cart)
    ensures |cart| == 0 <==> HomePage.ItemCount(cart) == 0
  {
  }

  /** Adding two of the first catalog product to an empty cart gives one line
      of quantity 2 and a total of 70. */
  lemma FirstProductTwice()
    ensures HomePage.AddToCart([], HomePage.Catalog[0], 2) == [HomePage.Catalog[0].(quantity := 2)]
    ensures Total(HomePage.AddToCart([], HomePage.Catalog[0], 2)) == 70
  {
    var line := HomePage.Catalog[0].(quantity := 2);
    assert !HasId([], HomePage.Catalog[0].id);
    assert [line][..0] == [];
    assert line.price == 35 && line.quantity == 2;
    assert SumOver([line], CartPage.LineSubtotal) == SumOver([], CartPage.LineSubtotal) + CartPage.LineSubtotal(line);
  }

  /** Where the checkout dialog stands. */
  datatype Phase = Idle | ConfirmPending | Completed | Cancelled

  /** The checkout screen over the shared cart. */
  class CheckoutFlow {
    var cart: Cart
    var phase: Phase

    constructor (cart: Cart)
      ensures this.cart == cart && phase == Idle
    {
      this.cart := cart;
      phase := Idle;
    }

    /** The total shown on the screen. */
    function TotalAmount(): (r: nat)
      reads this
      ensures cart == [] ==> r == 0
    {
      Total(cart)
    }

    /** The "Checkout" button: an empty cart is turned away and the flow
        returns to idle; otherwise the confirmation is asked for. The cart is not
        touched either way. */
    method RequestCheckout() returns (accepted: bool)
      modifies this
      ensures accepted <==> cart != []
      ensures phase == if accepted then ConfirmPending else Idle
      ensures cart == old(cart)
    {
      if |cart| == 0 {
        phase := Idle;
        return false;
      }
      phase := ConfirmPending;
      accepted := true;
    }

    /** "Yes": the cart is cleared, so the total and the item count are 0. */
    method Confirm()
      requires phase == ConfirmPending
      modifies this
      ensures phase == Completed
      ensures cart == []
      ensures TotalAmount() == 0 && HomePage.ItemCount(cart) == 0
    {
      cart := [];
      phase := Completed;
    }

    /** "Cancel": the cart is left as it is. */
    method Cancel()
      requires phase == ConfirmPending
      modifies this
      ensures phase == Cancelled
      ensures cart == old(cart)
    {
      phase := Cancelled;
    }
  }
}
