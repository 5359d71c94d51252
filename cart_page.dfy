/** The cart screen: the per-line quantity step with its two-step removal
    safeguard, the confirmed removal of a line, and the line subtotal. */
module CartPage {
  import opened Types
  import HomePage

  /** What a quantity step returns: the new cart, and whether the user must be
      asked to confirm removing a line. */
  datatype StepOutcome = StepOutcome(cart: Cart, removalRequested: bool)

  /** Stepping a line at quantity 1 down by one asks for removal instead. */
  predicate AsksRemoval(item: Product, id: string, change: int)
  {
    item.id == id && item.quantity == 1 && change == -1
  }

  /** What the step does to one line: other ids and a removal request keep the
      line as it is; anything else moves the quantity, clamped at 1. */
  function StepLine(item: Product, id: string, change: int): (r: Product)
    ensures r.id == item.id && r.name == item.name && r.price == item.price && r.image == item.image
    ensures item.id != id || AsksRemoval(item, id, change) ==> r == item
    ensures item.id == id && !AsksRemoval(item, id, change) ==> r.quantity == AtLeastOne(item.quantity + change)
    ensures item.quantity >= 1 ==> r.quantity >= 1
  {
    if item.id != id || AsksRemoval(item, id, change) then item
    else item.(quantity := AtLeastOne(item.quantity + change))
  }

  /** Steps the quantity of the line(s) carrying `id` by `change`, line by
      line as a `map`: the cart keeps its length and its order, every line is
      stepped on its own, and a removal request is raised exactly when some
      such line sits at quantity 1 and the step is -1. */
  function UpdateQuantity(cart: Cart, id: string, change: int): (r: StepOutcome)
    ensures |r.cart| == |cart|
    ensures forall i :: 0 <= i < |cart| ==> r.cart[i] == StepLine(cart[i], id, change)
    ensures r.removalRequested <==> exists i :: 0 <= i < |cart| && AsksRemoval(cart[i], id, change)
  {
    if cart == [] then StepOutcome([], false)
    else
      var rest := UpdateQuantity(cart[1..], id, change);
      assert forall i :: 1 <= i < |cart| ==> cart[i] == cart[1..][i - 1];
      StepOutcome([StepLine(cart[0], id, change)] + rest.cart,
                  AsksRemoval(cart[0], id, change) || rest.removalRequested)
  }

  /** A step on an id that is not in the cart changes nothing and asks nothing. */
  lemma UpdateAbsent(cart: Cart, id: string, change: int)
    requires !HasId(cart, id)
    ensures UpdateQuantity(cart, id, change) == StepOutcome(cart, false)
  {
    var r := UpdateQuantity(cart, id, change);
    assert r.cart == cart;
  }

  /** A step keeps the invariant: ids are untouched and no quantity falls
      below 1. */
  lemma UpdatePreservesWellFormed(cart: Cart, id: string, change: int)
    requires WellFormed(cart)
    ensures WellFormed(UpdateQuantity(cart, id, change).cart)
  {
    var r := UpdateQuantity(cart, id, change).cart;
    assert forall i :: 0 <= i < |cart| ==> r[i].id == cart[i].id;
  }

  /** With one line per id, a step that asks for removal leaves the cart
      exactly as it was: only the confirmation can remove the line. */
  lemma RemovalRequestKeepsCart(cart: Cart, id: string, change: int)
    requires UniqueIds(cart)
    requires UpdateQuantity(cart, id, change).removalRequested
    ensures UpdateQuantity(cart, id, change).cart == cart
  {
    var r := UpdateQuantity(cart, id, change);
    var k :| 0 <= k < |cart| && AsksRemoval(cart[k], id, change);
    forall i | 0 <= i < |cart|
      ensures r.cart[i] == cart[i]
    {
      if i != k {
        assert cart[i].id != id;
      }
    }
  }

  /** With one line per id, a step on line `k` that does not ask for removal
      replaces that line's quantity by `max(1, q + change)` and nothing else. */
  lemma UpdateExisting(cart: Cart, id: string, change: int, k: nat)
    requires UniqueIds(cart)
    requires k < |cart| && cart[k].id == id
    requires !AsksRemoval(cart[k], id, change)
    ensures UpdateQuantity(cart, id, change)
      == StepOutcome(cart[k := cart[k].(quantity := AtLeastOne(cart[k].quantity + change))], false)
  {
    var r := UpdateQuantity(cart, id, change);
    forall i | 0 <= i < |cart| && i != k
      ensures r.cart[i] == cart[i] && !AsksRemoval(cart[i], id, change)
    {
      assert cart[i].id != id;
    }
  }

  /** The item count moves by exactly the change in the stepped line. */
  lemma UpdateItemCount(cart: Cart, id: string, change: int, k: nat)
    requires UniqueIds(cart)
    requires k < |cart| && cart[k].id == id
    requires !AsksRemoval(cart[k], id, change)
    ensures HomePage.ItemCount(UpdateQuantity(cart, id, change).cart) + cart[k].quantity
         == HomePage.ItemCount(cart) + AtLeastOne(cart[k].quantity + change)
  {
    UpdateExisting(cart, id, change, k);
    SumOverReplace(cart, k, cart[k].(quantity := AtLeastOne(cart[k].quantity + change)), HomePage.Quantity);
  }

  /** The confirmed removal: `filter` keeps, in order, every line of the
      snapshot whose id differs from `id`. */
  function RemoveLine(snapshot: Cart, id: string): (r: Cart)
    ensures |r| <= |snapshot|
  {
    if snapshot == [] then []
    else (if snapshot[0].id != id then [snapshot[0]] else []) + RemoveLine(snapshot[1..], id)
  }

  /** The filtered cart holds exactly the snapshot's lines of other ids, so
      none for `id`. */
  lemma {:induction false} RemoveLineMembers(snapshot: Cart, id: string)
    ensures forall p :: p in RemoveLine(snapshot, id) <==> p in snapshot && p.id != id
    ensures !HasId(RemoveLine(snapshot, id), id)
  {
    if snapshot != [] {
      RemoveLineMembers(snapshot[1..], id);
      assert forall p :: p in snapshot <==> p == snapshot[0] || p in snapshot[1..];
    }
  }

  /** Removal works line by line, so it keeps the relative order of what it
      keeps: filtering a concatenation filters each part. */
  lemma {:induction false} RemoveLineAppend(s: Cart, t: Cart, id: string)
    ensures RemoveLine(s + t, id) == RemoveLine(s, id) + RemoveLine(t, id)
  {
    if s == [] {
      assert s + t == t;
    } else {
      assert (s + t)[1..] == s[1..] + t;
      RemoveLineAppend(s[1..], t, id);
    }
  }

  /** Removing an id that is not there is a no-op. */
  lemma {:induction false} RemoveLineAbsent(snapshot: Cart, id: string)
    requires !HasId(snapshot, id)
    ensures RemoveLine(snapshot, id) == snapshot
  {
    if snapshot != [] {
      assert !HasId(snapshot[1..], id) by {
        forall i | 0 <= i < |snapshot[1..]|
          ensures snapshot[1..][i].id != id
        {
          assert snapshot[1..][i] == snapshot[i + 1];
        }
      }
      RemoveLineAbsent(snapshot[1..], id);
    }
  }

  /** Confirming the same removal twice is the same as confirming it once. */
  lemma RemoveLineIdempotent(snapshot: Cart, id: string)
    ensures RemoveLine(RemoveLine(snapshot, id), id) == RemoveLine(snapshot, id)
  {
    RemoveLineMembers(snapshot, id);
    RemoveLineAbsent(RemoveLine(snapshot, id), id);
  }

  /** A slice whose lines all differ from `id` has no line for it. */
  lemma SliceWithoutId(s: Cart, id: string, lo: nat, hi: nat)
    requires lo <= hi <= |s|
    requires forall i :: lo <= i < hi ==> s[i].id != id
    ensures !HasId(s[lo..hi], id)
  {
    forall i | 0 <= i < hi - lo
      ensures s[lo..hi][i].id != id
    {
      assert s[lo..hi][i] == s[lo + i];
    }
  }

  /** Removing the id of a line that is the only one carrying it drops just
      that line. */
  lemma RemoveLineSplit(before: Cart, line: Product, after: Cart)
    requires !HasId(before, line.id) && !HasId(after, line.id)
    ensures RemoveLine(before + [line] + after, line.id) == before + after
  {
    var id := line.id;
    var rest := [line] + after;
    assert RemoveLine(rest, id) == after by {
      assert rest[0] == line && rest[1..] == after;
      RemoveLineAbsent(after, id);
    }
    assert RemoveLine(before, id) == before by {
      RemoveLineAbsent(before, id);
    }
    assert before + [line] + after == before + rest;
    RemoveLineAppend(before, rest, id);
  }

  /** With one line per id, removing the id of line `k` drops exactly that
      line and keeps all the others in their order. */
  lemma RemoveLineAt(snapshot: Cart, id: string, k: nat)
    requires UniqueIds(snapshot)
    requires k < |snapshot| && snapshot[k].id == id
    ensures RemoveLine(snapshot, id) == snapshot[..k] + snapshot[k + 1..]
  {
    SliceWithoutId(snapshot, id, 0, k);
    assert snapshot[0..k] == snapshot[..k];
    SliceWithoutId(snapshot, id, k + 1, |snapshot|);
    assert snapshot[k + 1..|snapshot|] == snapshot[k + 1..];
    assert snapshot == snapshot[..k] + [snapshot[k]] + snapshot[k + 1..];
    RemoveLineSplit(snapshot[..k], snapshot[k], snapshot[k + 1..]);
  }

  /** Removal keeps the invariant. */
  lemma {:induction false} RemovePreservesWellFormed(snapshot: Cart, id: string)
    requires WellFormed(snapshot)
    ensures WellFormed(RemoveLine(snapshot, id))
  {
    if snapshot != [] {
      var tail := snapshot[1..];
      assert WellFormed(tail) by {
        forall i, j | 0 <= i < j < |tail|
          ensures tail[i].id != tail[j].id
        {
          assert tail[i] == snapshot[i + 1] && tail[j] == snapshot[j + 1];
        }
      }
      RemovePreservesWellFormed(tail, id);
      var rest := RemoveLine(tail, id);
      var r := RemoveLine(snapshot, id);
      RemoveLineMembers(tail, id);
      if snapshot[0].id != id {
        assert r == [snapshot[0]] + rest;
        forall j | 0 < j < |r|
          ensures r[j].id != snapshot[0].id
        {
          assert r[j] == rest[j - 1];
          assert rest[j - 1] in tail;
          var m :| 0 <= m < |tail| && tail[m] == rest[j - 1];
          assert tail[m] == snapshot[m + 1];
        }
      }
    }
  }

  /** The removal decision: confirming filters `id` out of the snapshot of
      the cart taken when the request was raised; cancelling keeps the
      current cart. */
  function ResolveRemoval(current: Cart, snapshot: Cart, id: string, confirmed: bool): (r: Cart)
    ensures confirmed ==> r == RemoveLine(snapshot, id)
    ensures confirmed ==> forall p :: p in r <==> p in snapshot && p.id != id
    ensures confirmed ==> !HasId(r, id)
    ensures !confirmed ==> r == current
  {
    if confirmed then
      RemoveLineMembers(snapshot, id);
      RemoveLine(snapshot, id)
    else current
  }

  /** The whole safeguard on a well-formed cart: stepping line `k` down from
      1 leaves the cart unchanged and asks; cancelling keeps it; confirming
      drops exactly that line and keeps the rest in order. */
  lemma RemovalFlow(cart: Cart, k: nat)
    requires WellFormed(cart)
    requires k < |cart| && cart[k].quantity == 1
    ensures var r := UpdateQuantity(cart, cart[k].id, -1);
      && r.removalRequested
      && r.cart == cart
      && ResolveRemoval(r.cart, cart, cart[k].id, false) == cart
      && ResolveRemoval(r.cart, cart, cart[k].id, true) == cart[..k] + cart[k + 1..]
  {
    var id := cart[k].id;
    assert AsksRemoval(cart[k], id, -1);
    RemovalRequestKeepsCart(cart, id, -1);
    RemoveLineAt(cart, id, k);
  }

  /** The amount shown for one line: unit price times quantity. */
  function LineSubtotal(item: Product): (r: nat)
    ensures item.quantity >= 1 ==> r >= item.price
    ensures r == 0 <==> item.price == 0 || item.quantity == 0
  {
    item.price * item.quantity
  }
}
