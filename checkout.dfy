/**
 * The checkout page (pages/CheckoutPage.tsx): a three-step flow (shipping, payment, review)
 * with its own shipping rule, and the confirm action that empties the cart and moves on to
 * the orders page.
 */
module Checkout {
  import opened Util
  import opened Types
  import opened Store
  import opened Pricing
  import CartPage

  /** Checkout's shipping rule: free above 100, 15 otherwise (an empty subtotal included). */
  function Shipping(subtotal: real): (r: real)
    ensures r == 0.0 || r == 15.0
    ensures r == 0.0 <==> subtotal > 100.0
  {
    if subtotal > 100.0 then 0.0 else 15.0
  }

  /** The two pages charge the same shipping on every subtotal except zero. */
  lemma ShippingRulesDifferOnlyAtZero(subtotal: real)
    ensures Shipping(subtotal) != CartPage.Shipping(subtotal) <==> subtotal == 0.0
  {
  }

  /** `subtotal + tax + shipping`: 108% of the subtotal, plus 15 up to a subtotal of 100. */
  function Total(cart: seq<CartItem>): (t: real)
    ensures Subtotal(cart) > 100.0 ==> t == Subtotal(cart) * 1.08
    ensures Subtotal(cart) <= 100.0 ==> t == Subtotal(cart) * 1.08 + 15.0
  {
    var sub := Subtotal(cart);
    sub + Tax(sub) + Shipping(sub)
  }

  /** For a non-empty subtotal the checkout total equals the bag page's total. */
  lemma TotalsAgree(cart: seq<CartItem>)
    requires Subtotal(cart) != 0.0
    ensures Total(cart) == CartPage.Summarize(cart).total
  {
    ShippingRulesDifferOnlyAtZero(Subtotal(cart));
  }

  /** What the page renders: the empty-bag message, or the step flow. */
  datatype CheckoutView = EmptyBag | Flow(step: int)

  function View(cart: seq<CartItem>, step: int): (v: CheckoutView)
    ensures v.EmptyBag? <==> cart == []
    ensures v.Flow? ==> v.step == step
  {
    if |cart| == 0 then EmptyBag else Flow(step)
  }

  // --------------------------------------------------------------- the step machine

  /** The step buttons: 'Go Back', and 'Continue', which is only offered before the last step. */
  datatype StepAction = Back | Continue

  function StepAfter(step: int, a: StepAction): int {
    match a
    case Back => Max(1, step - 1)
    case Continue => if step < 3 then step + 1 else step
  }

  function StepAfterAll(step: int, actions: seq<StepAction>): int
    decreases |actions|
  {
    if actions == [] then step else StepAfterAll(StepAfter(step, actions[0]), actions[1..])
  }

  /** From any step in 1..3, every sequence of button presses stays in 1..3. */
  lemma {:induction false} StepsStayInRange(step: int, actions: seq<StepAction>)
    requires 1 <= step <= 3
    ensures 1 <= StepAfterAll(step, actions) <= 3
    decreases |actions|
  {
    if actions != [] {
      StepsStayInRange(StepAfter(step, actions[0]), actions[1..]);
    }
  }

  /** Each press moves at most one step, and the review step is two 'Continue's from the start. */
  lemma StepMoves(step: int, a: StepAction)
    requires 1 <= step <= 3
    ensures a == Back ==> StepAfter(step, a) == (if step == 1 then 1 else step - 1)
    ensures a == Continue && step < 3 ==> StepAfter(step, a) == step + 1
    ensures StepAfterAll(1, [Continue, Continue]) == 3
  {
  }

  class CheckoutPage {
    var step: int
    var isProcessing: bool
    /** The route the page navigated to, once the order completes. */
    var navigatedTo: Option<string>

    ghost predicate Valid()
      reads this
    {
      1 <= step <= 3
    }

    constructor ()
      ensures step == 1 && !isProcessing && navigatedTo == None && Valid()
    {
      step := 1;
      isProcessing := false;
      navigatedTo := None;
    }

    /** 'Go Back'. */
    method GoBack()
      requires Valid()
      modifies this`step
      ensures step == StepAfter(old(step), Back) && Valid()
    {
      step := Max(1, step - 1);
    }

    /** 'Continue to Payment' / 'Continue to Review', shown only before the last step. */
    method ContinueStep()
      requires Valid() && step < 3
      modifies this`step
      ensures step == old(step) + 1 && step == StepAfter(old(step), Continue) && Valid()
    {
      step := step + 1;
    }

    /** 'Confirm & Pay', shown on the last step and disabled while the order is processing. */
    method Confirm()
      requires Valid() && step >= 3 && !isProcessing
      modifies this`isProcessing
      ensures isProcessing
    {
      isProcessing := true;
    }

    /** The end of the processing delay: the cart is cleared and the orders page opens. */
    method Complete(app: AppState)
      requires Valid() && isProcessing && app.Valid()
      modifies this`navigatedTo, app`cart, app`toast
      ensures app.cart == [] && app.Valid()
      ensures app.toast == Some(Toast("Order confirmed!", Success))
      ensures navigatedTo == Some("/orders") && step == old(step) && isProcessing
    {
      app.ClearCart();
      navigatedTo := Some("/orders");
    }
  }
}
