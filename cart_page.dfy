/** The shopping-bag page (pages/CartPage.tsx): its order summary, empty state and line controls. */
module CartPage {
  import opened Util
  import opened Types
  import opened Store
  import opened Pricing

  /** The bag's shipping rule: free above 100 and for an empty subtotal, 15 otherwise. */
  function Shipping(subtotal: real): (r: real)
    ensures r == 0.0 || r == 15.0
    ensures r == 0.0 <==> subtotal > 100.0 || subtotal == 0.0
  {
    if subtotal > 100.0 || subtotal == 0.0 then 0.0 else 15.0
  }

  /** The four figures of the order-summary card. */
  datatype Summary = Summary(subtotal: real, shipping: real, tax: real, total: real)

  function Summarize(cart: seq<CartItem>): (s: Summary)
    ensures s.subtotal == Subtotal(cart) && s.shipping == Shipping(s.subtotal) && s.tax == Tax(s.subtotal)
    ensures s.total == s.subtotal * 1.08 + s.shipping
  {
    var sub := Subtotal(cart);
    Summary(sub, Shipping(sub), Tax(sub), sub + Shipping(sub) + Tax(sub))
  }

  /** With non-negative prices the total is at least the subtotal and at most 8% plus 15 above it. */
  lemma TotalBounds(cart: seq<CartItem>)
    requires NonNegativePrices(cart) && PositiveQuantities(cart)
    ensures var s := Summarize(cart);
      s.subtotal <= s.total <= s.subtotal * 1.08 + 15.0
  {
  }

  /** A subtotal of exactly 100 still pays shipping; anything above it ships free. */
  lemma ShippingThreshold()
    ensures Shipping(100.0) == 15.0
    ensures forall s :: s > 100.0 ==> Shipping(s) == 0.0
  {
  }

  /** What the page renders: the empty-bag message, or the lines with their summary. */
  datatype CartView = EmptyBag | Bag(lines: seq<CartItem>, summary: Summary)

  function View(cart: seq<CartItem>): (v: CartView)
    ensures v.EmptyBag? <==> cart == []
    ensures v.Bag? ==> v.lines == cart && v.summary == Summarize(cart)
  {
    if |cart| == 0 then EmptyBag else Bag(cart, Summarize(cart))
  }

  /** The three controls on a line. */
  datatype Control = Minus | Plus | Trash

  /**
   * The request a control hands to the store for the line it sits on; what each request does
   * to the cart is stated by `ControlEffects` below.
   */
  function Request(item: CartItem, c: Control): (op: CartOp)
    ensures c == Minus ==> op == Update(item.product.id, -1)
    ensures c == Plus ==> op == Update(item.product.id, 1)
    ensures c == Trash ==> op == Remove(item.product.id)
  {
    match c
    case Minus => Update(item.product.id, -1)
    case Plus => Update(item.product.id, 1)
    case Trash => Remove(item.product.id)
  }

  /**
   * On a valid cart, '+' adds one unit to that line, '-' removes one but never goes below 1,
   * and the bin removes the line; the other lines keep their quantities.
   */
  lemma ControlEffects(cart: seq<CartItem>, i: int, c: Control)
    requires CartValid(cart) && 0 <= i < |cart|
    ensures var r := ApplyCartOp(cart, Request(cart[i], c));
      && CartValid(r)
      && (c == Plus ==> |r| == |cart| && r[i].quantity == cart[i].quantity + 1)
      && (c == Minus ==> |r| == |cart| && r[i].quantity == Max(1, cart[i].quantity - 1))
      && (c != Trash ==> forall j :: 0 <= j < |cart| && j != i ==> r[j] == cart[j])
      && (c == Trash ==> |r| == |cart| - 1 && cart[i].product.id !in CartIds(r))
  {
    var id := cart[i].product.id;
    assert CartIds(cart)[i] == id;
    if c == Trash {
      CartAfterRemoveValid(cart, id);
      CartAfterRemoveDropsId(cart, id);
    } else {
      var r := ApplyCartOp(cart, Request(cart[i], c));
      forall j | 0 <= j < |cart| && j != i
        ensures r[j] == cart[j]
      {
        assert CartIds(cart)[j] != CartIds(cart)[i];
      }
    }
  }
}
