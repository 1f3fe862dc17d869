/**
 * The money rules shared by the bag and checkout pages: the subtotal `reduce` and the 8% tax.
 * Amounts are exact reals; the pages' floating-point display is not modelled.
 */
module Pricing {
  import opened Util
  import opened Types
  import opened Store

  /** The sales-tax rate, 8%. */
  const TaxRate: real := 0.08

  function LineTotal(item: CartItem): real {
    item.product.price * item.quantity as real
  }

  predicate NonNegativePrices(cart: seq<CartItem>) {
    forall i :: 0 <= i < |cart| ==> cart[i].product.price >= 0.0
  }

  /** `cart.reduce((acc, item) => acc + item.price * item.quantity, 0)`. */
  function Subtotal(cart: seq<CartItem>): (s: real)
    ensures cart == [] ==> s == 0.0
    ensures NonNegativePrices(cart) && PositiveQuantities(cart) ==> s >= 0.0
    decreases |cart|
  {
    if cart == [] then 0.0
    else
      var rest := Subtotal(cart[1..]);
      assert cart[0].quantity >= 1 && cart[0].product.price >= 0.0 ==> LineTotal(cart[0]) >= 0.0 by {
        if cart[0].quantity >= 1 && cart[0].product.price >= 0.0 {
          MulNonNegative(cart[0].product.price, cart[0].quantity as real);
        }
      }
      LineTotal(cart[0]) + rest
  }

  lemma MulNonNegative(a: real, b: real)
    requires a >= 0.0 && b >= 0.0
    ensures a * b >= 0.0
  {
  }

  lemma {:induction false} SubtotalAppend(a: seq<CartItem>, b: seq<CartItem>)
    ensures Subtotal(a + b) == Subtotal(a) + Subtotal(b)
    decreases |a|
  {
    if a != [] {
      assert (a + b)[1..] == a[1..] + b;
      SubtotalAppend(a[1..], b);
    } else {
      assert a + b == b;
    }
  }

  lemma {:induction false} SubtotalUpdateAt(cart: seq<CartItem>, k: int, x: CartItem)
    requires 0 <= k < |cart|
    ensures Subtotal(cart[k := x]) == Subtotal(cart) - LineTotal(cart[k]) + LineTotal(x)
    decreases |cart|
  {
    if k > 0 {
      assert cart[k := x][1..] == cart[1..][k - 1 := x];
      SubtotalUpdateAt(cart[1..], k - 1, x);
    } else {
      assert cart[k := x][1..] == cart[1..];
    }
  }

  /** In a valid cart, adding a product already present bumps exactly its one line. */
  lemma AddIsUpdateAt(cart: seq<CartItem>, p: Product, k: int)
    requires CartValid(cart) && 0 <= k < |cart| && cart[k].product.id == p.id
    ensures CartAfterAdd(cart, p) == cart[k := CartItem(cart[k].product, cart[k].quantity + 1)]
  {
    assert CartIds(cart)[k] == p.id;
    var r := CartAfterAdd(cart, p);
    forall j | 0 <= j < |cart| && j != k
      ensures r[j] == cart[j]
    {
      assert CartIds(cart)[j] != CartIds(cart)[k];
    }
  }

  lemma LineTotalSucc(item: CartItem, x: CartItem)
    requires x == CartItem(item.product, item.quantity + 1)
    ensures LineTotal(x) == LineTotal(item) + item.product.price
  {
    var pr, q := item.product.price, item.quantity as real;
    assert x.quantity as real == q + 1.0;
    calc {
      LineTotal(x);
      pr * (q + 1.0);
      pr * q + pr * 1.0;
    }
  }

  lemma SubtotalAfterAddAt(cart: seq<CartItem>, p: Product, k: int)
    requires CartValid(cart) && 0 <= k < |cart| && cart[k].product.id == p.id
    ensures Subtotal(CartAfterAdd(cart, p)) == Subtotal(cart) + cart[k].product.price
  {
    var x := CartItem(cart[k].product, cart[k].quantity + 1);
    AddIsUpdateAt(cart, p, k);
    SubtotalUpdateAt(cart, k, x);
    LineTotalSucc(cart[k], x);
  }

  /**
   * Adding a product raises the subtotal by one unit price: the new product's price for a new
   * line, and the price stored on the existing line otherwise.
   */
  lemma SubtotalAfterAdd(cart: seq<CartItem>, p: Product)
    requires CartValid(cart)
    ensures p.id !in CartIds(cart) ==> Subtotal(CartAfterAdd(cart, p)) == Subtotal(cart) + p.price
    ensures forall k :: 0 <= k < |cart| && cart[k].product.id == p.id ==>
      Subtotal(CartAfterAdd(cart, p)) == Subtotal(cart) + cart[k].product.price
  {
    forall k | 0 <= k < |cart| && cart[k].product.id == p.id
      ensures Subtotal(CartAfterAdd(cart, p)) == Subtotal(cart) + cart[k].product.price
    {
      SubtotalAfterAddAt(cart, p, k);
    }
    if p.id !in CartIds(cart) {
      SubtotalAppend(cart, [CartItem(p, 1)]);
      assert Subtotal([CartItem(p, 1)]) == p.price;
    }
  }

  /** The tax on a subtotal. */
  function Tax(subtotal: real): (t: real)
    ensures subtotal >= 0.0 ==> 0.0 <= t <= subtotal
  {
    subtotal * TaxRate
  }

  /** Tax is linear: taxing two parts separately gives the tax on the whole. */
  lemma TaxAdditive(a: real, b: real)
    ensures Tax(a + b) == Tax(a) + Tax(b)
  {
  }
}
