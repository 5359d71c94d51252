/** The product record shared by every screen, the cart it forms, the cart's
    invariant, and the `reduce` fold that all aggregates of the cart use. */
module Types {

  datatype Option<T> = None | Some(value: T)

  /** A catalog entry or a cart line (types.ts `Product`). Catalog prices are
      whole pesos, so prices and quantities are naturals. */
  datatype Product = Product(id: string, name: string, price: nat, image: string, quantity: nat)

  /** The cart is the session-wide array of lines, in the order first added. */
  type Cart = seq<Product>

  predicate HasId(cart: Cart, id: string)
  {
    exists i :: 0 <= i < |cart| && cart[i].id == id
  }

  /** At most one line per product id. */
  predicate UniqueIds(cart: Cart)
  {
    forall i, j :: 0 <= i < j < |cart| ==> cart[i].id != cart[j].id
  }

  /** No line is ever kept with a quantity below 1. */
  predicate PositiveQuantities(cart: Cart)
  {
    forall i :: 0 <= i < |cart| ==> cart[i].quantity >= 1
  }

  predicate WellFormed(cart: Cart)
  {
    UniqueIds(cart) && PositiveQuantities(cart)
  }

  /** `Math.max(1, n)`: the clamp both quantity controls apply. */
  function AtLeastOne(n: int): (r: nat)
    ensures r >= 1 && r >= n
    ensures r == n || r == 1
  {
    if n < 1 then 1 else n
  }

  /** `cart.reduce((acc, item) => acc + f(item), 0)`: a left fold, the last
      line added last. */
  function SumOver(cart: Cart, f: Product -> nat): (r: nat)
    ensures cart == [] ==> r == 0
  {
    if cart == [] then 0 else SumOver(cart[..|cart| - 1], f) + f(cart[|cart| - 1])
  }

  /** No single term of the fold exceeds the whole. */
  lemma {:induction false} SumOverBoundsTerms(cart: Cart, f: Product -> nat)
    ensures forall i :: 0 <= i < |cart| ==> f(cart[i]) <= SumOver(cart, f)
  {
    if cart != [] {
      var init := cart[..|cart| - 1];
      SumOverBoundsTerms(init, f);
      assert forall i :: 0 <= i < |init| ==> init[i] == cart[i];
    }
  }

  /** The fold is additive over concatenation. */
  lemma {:induction false} SumOverAppend(s: Cart, t: Cart, f: Product -> nat)
    ensures SumOver(s + t, f) == SumOver(s, f) + SumOver(t, f)
  {
    if t == [] {
      assert s + t == s;
    } else {
      assert (s + t)[..|s + t| - 1] == s + t[..|t| - 1];
      SumOverAppend(s, t[..|t| - 1], f);
    }
  }

  /** The fold of a single line is that line's term. */
  lemma SumOverSingle(x: Product, f: Product -> nat)
    ensures SumOver([x], f) == f(x)
  {
    assert [x][..0] == [];
  }

  /** Splitting a cart around line `k`: the fold is the fold before it, its
      own term, and the fold after it. */
  lemma SumOverAround(s: Cart, k: nat, f: Product -> nat)
    requires k < |s|
    ensures SumOver(s, f) == SumOver(s[..k], f) + f(s[k]) + SumOver(s[k + 1..], f)
  {
    var before, after := s[..k], s[k + 1..];
    assert s == before + ([s[k]] + after);
    SumOverAppend(before, [s[k]] + after, f);
    SumOverAppend([s[k]], after, f);
    SumOverSingle(s[k], f);
  }

  /** Replacing one line changes the fold by exactly the difference of that
      line's contributions. */
  lemma SumOverReplace(s: Cart, k: nat, x: Product, f: Product -> nat)
    requires k < |s|
    ensures SumOver(s[k := x], f) + f(s[k]) == SumOver(s, f) + f(x)
  {
    var t := s[k := x];
    SumOverAround(s, k, f);
    SumOverAround(t, k, f);
    assert t[..k] == s[..k] && t[k + 1..] == s[k + 1..];
  }

  /** Dropping one line lowers the fold by exactly that line's contribution. */
  lemma SumOverDelete(s: Cart, k: nat, f: Product -> nat)
    requires k < |s|
    ensures SumOver(s[..k] + s[k + 1..], f) + f(s[k]) == SumOver(s, f)
  {
    SumOverAround(s, k, f);
    SumOverAppend(s[..k], s[k + 1..], f);
  }

  /** A fold of strictly positive terms is zero exactly on the empty cart and
      is at least the number of lines. */
  lemma {:induction false} SumOverPositive(cart: Cart, f: Product -> nat)
    requires forall i :: 0 <= i < |cart| ==> f(cart[i]) >= 1
    ensures SumOver(cart, f) >= |cart|
    ensures SumOver(cart, f) == 0 <==> cart == []
  {
    if cart != [] {
      SumOverPositive(cart[..|cart| - 1], f);
    }
  }
}
