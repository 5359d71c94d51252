/** The product list screen: the catalog, the quantity picker that stages an
    add, the add-or-increment update of the cart, and the item count shown on
    the cart button. */
module HomePage {
  import opened Types

  /** The three products on offer, each listed with a default quantity of 1. */
  const Catalog: seq<Product> := [
    Product("1", "C2 RED", 35, "../assets/c2red.webp", 1),
    Product("2", "C2 GREEN", 500, "../assets/c2green.webp", 1),
    Product("3", "C2 YELLOW", 500, "../assets/c2yellow.webp", 1)
  ]

  /** The catalog has one entry per id and lists each at quantity 1, so as a
      cart it would already satisfy the invariant. */
  lemma CatalogListing()
    ensures |Catalog| == 3 && WellFormed(Catalog)
    ensures forall i :: 0 <= i < |Catalog| ==> Catalog[i].quantity == 1
    ensures Catalog[0].price == 35 && Catalog[1].price == 500 && Catalog[2].price == 500
  {
  }

  function Quantity(p: Product): nat { p.quantity }

  /** Number of items in the cart: the sum of the line quantities. It is 0
      for the empty cart; under the quantity invariant it is 0 only for the
      empty cart and never smaller than the number of lines. */
  function ItemCount(cart: Cart): (r: nat)
    ensures cart == [] ==> r == 0
    ensures PositiveQuantities(cart) ==> r >= |cart| && (r == 0 <==> cart == [])
  {
    if PositiveQuantities(cart) then
      SumOverPositive(cart, Quantity);
      SumOver(cart, Quantity)
    else
      SumOver(cart, Quantity)
  }

  /** The `map` branch of the add: every line carrying `id` gains `q`. */
  function IncrementLines(cart: Cart, id: string, q: nat): (r: Cart)
    ensures |r| == |cart|
    ensures forall i :: 0 <= i < |cart| ==>
      r[i] == if cart[i].id == id then cart[i].(quantity := cart[i].quantity + q) else cart[i]
  {
    if cart == [] then []
    else
      var head := if cart[0].id == id then cart[0].(quantity := cart[0].quantity + q) else cart[0];
      [head] + IncrementLines(cart[1..], id, q)
  }

  /** Adds `q` units of `product`: an existing line with the same id grows by
      `q`, otherwise the product is appended as a new line holding `q`. */
  function AddToCart(cart: Cart, product: Product, q: nat): (r: Cart)
    ensures HasId(cart, product.id) ==> |r| == |cart| && forall i :: 0 <= i < |cart| ==>
      r[i] == if cart[i].id == product.id then cart[i].(quantity := cart[i].quantity + q) else cart[i]
    ensures !HasId(cart, product.id) ==> r == cart + [product.(quantity := q)]
  {
    if HasId(cart, product.id) then IncrementLines(cart, product.id, q)
    else cart + [product.(quantity := q)]
  }

  /** With one line per id, adding an id already present changes that one
      line by exactly `q` and nothing else: same length, same other lines. */
  lemma AddExisting(cart: Cart, product: Product, q: nat, k: nat)
    requires UniqueIds(cart)
    requires k < |cart| && cart[k].id == product.id
    ensures AddToCart(cart, product, q) == cart[k := cart[k].(quantity := cart[k].quantity + q)]
  {
    var r := AddToCart(cart, product, q);
    assert HasId(cart, product.id);
    forall i | 0 <= i < |cart| && i != k
      ensures r[i] == cart[i]
    {
      assert cart[i].id != product.id;
    }
  }

  /** Adding keeps the invariant: one line per id and every quantity at least
      1, as long as the picker's quantity is at least 1. */
  lemma AddPreservesWellFormed(cart: Cart, product: Product, q: nat)
    requires WellFormed(cart) && q >= 1
    ensures WellFormed(AddToCart(cart, product, q))
  {
    var r := AddToCart(cart, product, q);
    if !HasId(cart, product.id) {
      forall i, j | 0 <= i < j < |r|
        ensures r[i].id != r[j].id
      {
        if j == |cart| {
          assert r[i] == cart[i];
        }
      }
    }
  }

  /** The item count grows by exactly the quantity added. */
  lemma AddItemCount(cart: Cart, product: Product, q: nat)
    requires UniqueIds(cart)
    ensures ItemCount(AddToCart(cart, product, q)) == ItemCount(cart) + q
  {
    if HasId(cart, product.id) {
      var k :| 0 <= k < |cart| && cart[k].id == product.id;
      AddExisting(cart, product, q, k);
      SumOverReplace(cart, k, cart[k].(quantity := cart[k].quantity + q), Quantity);
    } else {
      SumOverAppend(cart, [product.(quantity := q)], Quantity);
      assert [product.(quantity := q)][..0] == [];
    }
  }

  /** A run of adds of one product with the picked quantities `qs`, in order. */
  function AddRepeatedly(cart: Cart, product: Product, qs: seq<nat>): Cart
  {
    if qs == [] then cart
    else AddToCart(AddRepeatedly(cart, product, qs[..|qs| - 1]), product, qs[|qs| - 1])
  }

  function Sum(qs: seq<nat>): nat
  {
    if qs == [] then 0 else Sum(qs[..|qs| - 1]) + qs[|qs| - 1]
  }

  /** Starting from a cart without the product, one or more adds of it leave
      the earlier lines untouched and exactly one new line for it, at the end,
      whose quantity is the sum of the picked quantities. */
  lemma {:induction false} RepeatedAdds(cart: Cart, product: Product, qs: seq<nat>)
    requires UniqueIds(cart) && !HasId(cart, product.id) && |qs| > 0
    ensures var r := AddRepeatedly(cart, product, qs);
      && UniqueIds(r)
      && |r| == |cart| + 1
      && r[..|cart|] == cart
      && r[|cart|] == product.(quantity := Sum(qs))
      && (forall i :: 0 <= i < |r| && r[i].id == product.id ==> i == |cart|)
  {
    var init := qs[..|qs| - 1];
    var q := qs[|qs| - 1];
    if init == [] {
      assert AddRepeatedly(cart, product, init) == cart;
      assert Sum(qs) == Sum(init) + q;
      var r := AddRepeatedly(cart, product, qs);
      assert r == cart + [product.(quantity := q)];
      forall i, j | 0 <= i < j < |r|
        ensures r[i].id != r[j].id
      {
        if j == |cart| {
          assert r[i] == cart[i];
        }
      }
      assert r[..|cart|] == cart;
    } else {
      RepeatedAdds(cart, product, init);
      var prev := AddRepeatedly(cart, product, init);
      assert prev[|cart|].id == product.id;
      AddExisting(prev, product, q, |cart|);
      var r := AddRepeatedly(cart, product, qs);
      assert r == prev[|cart| := prev[|cart|].(quantity := prev[|cart|].quantity + q)];
      assert r[..|cart|] == prev[..|cart|];
    }
  }

  /** The staging dialog of the product list: which product was picked, the
      quantity chosen for it, and whether the dialog is showing. */
  class Picker {
    var selected: Option<Product>
    var quantity: nat
    var modalVisible: bool

    /** The chosen quantity never drops below 1. */
    ghost predicate Valid()
      reads this
    {
      quantity >= 1
    }

    /** Nothing picked, quantity 1, dialog hidden. */
    constructor ()
      ensures Valid()
      ensures selected == None && quantity == 1 && !modalVisible
    {
      selected := None;
      quantity := 1;
      modalVisible := false;
    }

    /** Opening the dialog on a product picks it and resets the quantity to 1. */
    method Open(product: Product)
      modifies this
      ensures Valid()
      ensures selected == Some(product) && quantity == 1 && modalVisible
    {
      selected := Some(product);
      quantity := 1;
      modalVisible := true;
    }

    /** The "-" control: one less, but never below 1. */
    method Decrement()
      modifies this
      ensures Valid()
      ensures quantity == AtLeastOne(old(quantity) - 1)
      ensures old(quantity) > 1 ==> quantity == old(quantity) - 1
      ensures old(quantity) <= 1 ==> quantity == 1
      ensures selected == old(selected) && modalVisible == old(modalVisible)
    {
      quantity := AtLeastOne(quantity - 1);
    }

    /** The "+" control: one more, without an upper bound. */
    method Increment()
      modifies this
      ensures Valid()
      ensures quantity == old(quantity) + 1
      ensures selected == old(selected) && modalVisible == old(modalVisible)
    {
      quantity := quantity + 1;
    }

    /** "Confirm": with nothing picked the cart and the dialog stay as they
        are; otherwise the picked quantity is added to the cart and the dialog
        closes. The pick and its quantity are kept. */
    method Confirm(cart: Cart) returns (newCart: Cart)
      requires Valid()
      modifies this
      ensures Valid()
      ensures selected == old(selected) && quantity == old(quantity)
      ensures selected.None? ==> newCart == cart && modalVisible == old(modalVisible)
      ensures selected.Some? ==> newCart == AddToCart(cart, selected.value, quantity) && !modalVisible
      ensures WellFormed(cart) ==> WellFormed(newCart)
    {
      if selected.None? {
        return cart;
      }
      newCart := AddToCart(cart, selected.value, quantity);
      if WellFormed(cart) {
        AddPreservesWellFormed(cart, selected.value, quantity);
      }
      modalVisible := false;
    }

    /** "Cancel": the dialog closes and nothing else changes. */
    method Cancel()
      requires Valid()
      modifies this
      ensures Valid()
      ensures !modalVisible
      ensures selected == old(selected) && quantity == old(quantity)
    {
      modalVisible := false;
    }
  }
}
