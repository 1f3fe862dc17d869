/**
 * The order-history page (pages/OrdersPage.tsx): the orders of the signed-in customer, the
 * status badge colours and the four-step tracker (Placed, Processing, Shipped, Delivered).
 */
module Orders {
  import opened Util
  import opened Types
  import Catalog

  /** The customer whose orders the page lists; the page does not look at the signed-in user. */
  const Customer: string := "Sarah Wilson"

  /** The orders placed by `Customer`. */
  function UserOrders(orders: seq<Order>): (r: seq<Order>)
    ensures forall o :: o in r <==> o in orders && o.customerName == Customer
    ensures forall o :: multiset(r)[o] == if o.customerName == Customer then multiset(orders)[o] else 0
    ensures |r| <= |orders|
    decreases |orders|
  {
    if orders == [] then []
    else
      var rest := UserOrders(orders[1..]);
      assert forall o :: o in orders <==> o == orders[0] || o in orders[1..];
      assert orders == [orders[0]] + orders[1..];
      assert multiset(orders) == multiset{orders[0]} + multiset(orders[1..]);
      if orders[0].customerName == Customer then [orders[0]] + rest else rest
  }

  /** The listed orders keep the order they have in the order list. */
  lemma {:induction false} UserOrdersKeepOrder(orders: seq<Order>)
    ensures IsSubsequence(UserOrders(orders), orders)
    decreases |orders|
  {
    if orders != [] {
      UserOrdersKeepOrder(orders[1..]);
      assert orders == [orders[0]] + orders[1..];
      if orders[0].customerName == Customer {
        SubsequenceKeep(orders[0], UserOrders(orders[1..]), orders[1..]);
      } else {
        SubsequenceSkip(orders[0], UserOrders(orders[1..]), orders[1..]);
      }
    }
  }

  /** With the fixture orders, the page lists the one order there is. */
  lemma FixtureOrdersListed()
    ensures UserOrders(Catalog.MockOrders) == Catalog.MockOrders
  {
    assert Catalog.MockOrders[1..] == [];
  }

  // ------------------------------------------------------------------ status badge

  const DeliveredColor: string := "bg-green-100 text-green-600"
  const ShippedColor: string := "bg-blue-100 text-blue-600"
  const ProcessingColor: string := "bg-amber-100 text-amber-600"
  const CancelledColor: string := "bg-rose-100 text-rose-600"
  const DefaultColor: string := "bg-slate-100 text-slate-600"

  /** The badge classes for a status; a pending order falls through to the slate default. */
  function StatusColor(status: OrderStatus): (c: string)
    ensures c in {DeliveredColor, ShippedColor, ProcessingColor, CancelledColor, DefaultColor}
    ensures c == DefaultColor <==> status == Pending
  {
    match status
    case Delivered => DeliveredColor
    case Shipped => ShippedColor
    case Processing => ProcessingColor
    case Cancelled => CancelledColor
    case Pending => DefaultColor
  }

  /** Each status has a badge colour of its own. */
  lemma StatusColorInjective(a: OrderStatus, b: OrderStatus)
    ensures StatusColor(a) == StatusColor(b) <==> a == b
  {
    if a != b {
      assert StatusColor(a)[3] != StatusColor(b)[3] || StatusColor(a)[4] != StatusColor(b)[4];
    }
  }

  // ------------------------------------------------------------------ the tracker

  /** The tracker's steps, in display order. */
  const Steps: seq<string> := ["Placed", "Processing", "Shipped", "Delivered"]

  /** Whether the step at `idx` is lit for an order in `status`. */
  predicate Highlighted(status: OrderStatus, idx: int) {
    status == Delivered || (status == Shipped && idx <= 2) || (status == Processing && idx <= 1) || idx == 0
  }

  /** How many tracker steps an order in `status` has reached. */
  function StepsReached(status: OrderStatus): (n: int)
    ensures 1 <= n <= |Steps|
  {
    match status
    case Delivered => 4
    case Shipped => 3
    case Processing => 2
    case _ => 1
  }

  /** The lit steps are exactly the first `StepsReached(status)` ones, never none. */
  lemma HighlightIsPrefix(status: OrderStatus, idx: int)
    requires 0 <= idx < |Steps|
    ensures Highlighted(status, idx) <==> idx < StepsReached(status)
    ensures Highlighted(status, 0)
  {
  }

  /** The classes of a step's dot and of its label. */
  function DotClass(status: OrderStatus, idx: int): string {
    if Highlighted(status, idx) then "bg-indigo-600 scale-125" else "bg-slate-200"
  }

  function LabelClass(status: OrderStatus, idx: int): string {
    if Highlighted(status, idx) then "text-indigo-600" else "text-slate-300"
  }

  /** A step's label is lit exactly when its dot is. */
  lemma LabelFollowsDot(status: OrderStatus, idx: int)
    ensures DotClass(status, idx) == "bg-indigo-600 scale-125" <==> LabelClass(status, idx) == "text-indigo-600"
  {
    if !Highlighted(status, idx) {
      assert DotClass(status, idx)[3] != "bg-indigo-600 scale-125"[3];
      assert LabelClass(status, idx)[5] != "text-indigo-600"[5];
    }
  }

  /** The lit fraction of the progress bar: `w-full`, `w-2/3`, `w-1/3` or `w-0`. */
  function ProgressWidth(status: OrderStatus): (w: real)
    ensures 0.0 <= w <= 1.0
    ensures w == 1.0 <==> status == Delivered
    ensures w == 0.0 <==> status == Pending || status == Cancelled
  {
    match status
    case Delivered => 1.0
    case Shipped => 2.0 / 3.0
    case Processing => 1.0 / 3.0
    case _ => 0.0
  }

  /** The bar reaches the last lit dot: it covers one third per step beyond the first. */
  lemma ProgressMatchesSteps(status: OrderStatus)
    ensures ProgressWidth(status) == (StepsReached(status) - 1) as real / 3.0
  {
    match status
    case Delivered => assert StepsReached(status) - 1 == 3;
    case Shipped => assert StepsReached(status) - 1 == 2;
    case Processing => assert StepsReached(status) - 1 == 1;
    case _ => assert StepsReached(status) - 1 == 0;
  }
}
