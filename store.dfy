/**
 * The application-root state of the storefront (App.tsx): the cart, the wishlist and the
 * signed-in user, each replaced by a new value computed from the previous one.
 */
module Store {
  import opened Util
  import opened Types

  // ---------------------------------------------------------------- cart

  /** The product ids of the cart lines, in cart order. */
  function CartIds(cart: seq<CartItem>): (ids: seq<string>)
    ensures |ids| == |cart|
    ensures forall i :: 0 <= i < |cart| ==> ids[i] == cart[i].product.id
  {
    seq(|cart|, i requires 0 <= i < |cart| => cart[i].product.id)
  }

  predicate PositiveQuantities(cart: seq<CartItem>) {
    forall i :: 0 <= i < |cart| ==> cart[i].quantity >= 1
  }

  /** The cart invariant: one line per product id, and every quantity at least 1. */
  predicate CartValid(cart: seq<CartItem>) {
    NoDuplicates(CartIds(cart)) && PositiveQuantities(cart)
  }

  /**
   * addToCart: a product already in the cart gets one more unit on its existing line
   * (the line keeps the product it was created with); otherwise a new line with quantity 1
   * is appended.
   */
  function CartAfterAdd(cart: seq<CartItem>, p: Product): (r: seq<CartItem>)
    ensures p.id in CartIds(cart) ==>
      && |r| == |cart|
      && CartIds(r) == CartIds(cart)
      && forall i :: 0 <= i < |cart| ==>
           && r[i].product == cart[i].product
           && r[i].quantity == (if cart[i].product.id == p.id then cart[i].quantity + 1 else cart[i].quantity)
    ensures p.id !in CartIds(cart) ==> r == cart + [CartItem(p, 1)]
    ensures CartValid(cart) ==> CartValid(r)
  {
    if p.id in CartIds(cart) then
      var r := seq(|cart|, i requires 0 <= i < |cart| =>
        if cart[i].product.id == p.id then cart[i].(quantity := cart[i].quantity + 1) else cart[i]);
      assert CartIds(r) == CartIds(cart);
      r
    else
      var r := cart + [CartItem(p, 1)];
      assert CartIds(r) == CartIds(cart) + [p.id];
      r
  }

  /**
   * updateQuantity: every line with this id gets max(1, quantity + delta); the other lines
   * and the order are untouched, and an absent id changes nothing.
   */
  function CartAfterUpdate(cart: seq<CartItem>, id: string, delta: int): (r: seq<CartItem>)
    ensures |r| == |cart| && CartIds(r) == CartIds(cart)
    ensures forall i :: 0 <= i < |cart| ==>
      && r[i].product == cart[i].product
      && r[i].quantity == (if cart[i].product.id == id then Max(1, cart[i].quantity + delta) else cart[i].quantity)
    ensures forall i :: 0 <= i < |r| && r[i].product.id == id ==> r[i].quantity >= 1
    ensures id !in CartIds(cart) ==> r == cart
    ensures CartValid(cart) ==> CartValid(r)
  {
    var r := seq(|cart|, i requires 0 <= i < |cart| =>
      if cart[i].product.id == id then cart[i].(quantity := Max(1, cart[i].quantity + delta)) else cart[i]);
    assert CartIds(r) == CartIds(cart);
    r
  }

  /** removeFromCart: `cart.filter(item => item.id !== id)`. */
  function CartAfterRemove(cart: seq<CartItem>, id: string): (r: seq<CartItem>)
    ensures |r| <= |cart|
    decreases |cart|
  {
    if cart == [] then []
    else
      var rest := CartAfterRemove(cart[1..], id);
      if cart[0].product.id != id then [cart[0]] + rest else rest
  }

  /** Removal keeps exactly the lines with another id. */
  lemma {:induction false} CartAfterRemoveMembers(cart: seq<CartItem>, id: string)
    ensures forall x :: x in CartAfterRemove(cart, id) <==> x in cart && x.product.id != id
    decreases |cart|
  {
    if cart != [] {
      CartAfterRemoveMembers(cart[1..], id);
      assert cart == [cart[0]] + cart[1..];
    }
  }

  /** Removing an id no line carries changes nothing. */
  lemma {:induction false} CartAfterRemoveAbsent(cart: seq<CartItem>, id: string)
    requires id !in CartIds(cart)
    ensures CartAfterRemove(cart, id) == cart
    decreases |cart|
  {
    if cart != [] {
      assert CartIds(cart)[0] == cart[0].product.id;
      assert CartIds(cart[1..]) == CartIds(cart)[1..];
      CartAfterRemoveAbsent(cart[1..], id);
      assert cart == [cart[0]] + cart[1..];
    }
  }

  /** The filter keeps the surviving lines in their original order. */
  lemma {:induction false} CartAfterRemoveKeepsOrder(cart: seq<CartItem>, id: string)
    ensures IsSubsequence(CartAfterRemove(cart, id), cart)
    decreases |cart|
  {
    if cart != [] {
      CartAfterRemoveKeepsOrder(cart[1..], id);
      assert cart == [cart[0]] + cart[1..];
      if cart[0].product.id != id {
        SubsequenceKeep(cart[0], CartAfterRemove(cart[1..], id), cart[1..]);
      } else {
        SubsequenceSkip(cart[0], CartAfterRemove(cart[1..], id), cart[1..]);
      }
    }
  }

  /** After removal no line carries the id. */
  lemma CartAfterRemoveDropsId(cart: seq<CartItem>, id: string)
    ensures id !in CartIds(CartAfterRemove(cart, id))
  {
    var r := CartAfterRemove(cart, id);
    CartAfterRemoveMembers(cart, id);
    forall k | 0 <= k < |r|
      ensures CartIds(r)[k] != id
    {
      assert r[k] in r;
    }
  }

  lemma IdOfMember(s: seq<CartItem>, x: CartItem)
    requires x in s
    ensures x.product.id in CartIds(s)
  {
    var k :| 0 <= k < |s| && s[k] == x;
    assert CartIds(s)[k] == x.product.id;
  }

  lemma CartIdsTail(cart: seq<CartItem>)
    requires cart != []
    ensures CartIds(cart) == [cart[0].product.id] + CartIds(cart[1..])
  {
  }

  /** Removing a line keeps the cart invariant; with the id present exactly one line goes. */
  lemma {:induction false} CartAfterRemoveValid(cart: seq<CartItem>, id: string)
    requires CartValid(cart)
    ensures CartValid(CartAfterRemove(cart, id))
    ensures id in CartIds(cart) ==> |CartAfterRemove(cart, id)| == |cart| - 1
    decreases |cart|
  {
    if cart != [] {
      var h := cart[0].product.id;
      var rest := CartAfterRemove(cart[1..], id);
      CartIdsTail(cart);
      NoDuplicatesHead(CartIds(cart));
      CartAfterRemoveValid(cart[1..], id);
      CartAfterRemoveMembers(cart[1..], id);
      if h != id {
        forall k | 0 <= k < |rest|
          ensures CartIds(rest)[k] != h
        {
          IdOfMember(cart[1..], rest[k]);
        }
        CartIdsTail([cart[0]] + rest);
        assert ([cart[0]] + rest)[1..] == rest;
        NoDuplicatesCons(h, CartIds(rest));
      } else {
        CartAfterRemoveAbsent(cart[1..], id);
      }
    }
  }

  /** The header's item count: the sum of all line quantities (`cart.reduce`). */
  function TotalItems(cart: seq<CartItem>): (n: int)
    ensures PositiveQuantities(cart) ==> n >= |cart|
    decreases |cart|
  {
    if cart == [] then 0 else cart[0].quantity + TotalItems(cart[1..])
  }

  lemma {:induction false} TotalItemsAppend(a: seq<CartItem>, b: seq<CartItem>)
    ensures TotalItems(a + b) == TotalItems(a) + TotalItems(b)
    decreases |a|
  {
    if a != [] {
      assert (a + b)[1..] == a[1..] + b;
      TotalItemsAppend(a[1..], b);
    } else {
      assert a + b == b;
    }
  }

  lemma {:induction false} TotalItemsUpdateAt(cart: seq<CartItem>, k: int, x: CartItem)
    requires 0 <= k < |cart|
    ensures TotalItems(cart[k := x]) == TotalItems(cart) - cart[k].quantity + x.quantity
    decreases |cart|
  {
    if k > 0 {
      assert cart[k := x][1..] == cart[1..][k - 1 := x];
      TotalItemsUpdateAt(cart[1..], k - 1, x);
    } else {
      assert cart[k := x][1..] == cart[1..];
    }
  }

  /** Adding a product to a valid cart raises the header count by exactly one. */
  lemma CartAfterAddCountsOne(cart: seq<CartItem>, p: Product)
    requires CartValid(cart)
    ensures TotalItems(CartAfterAdd(cart, p)) == TotalItems(cart) + 1
  {
    var r := CartAfterAdd(cart, p);
    if p.id in CartIds(cart) {
      var k :| 0 <= k < |cart| && CartIds(cart)[k] == p.id;
      assert r == cart[k := r[k]];
      TotalItemsUpdateAt(cart, k, r[k]);
    } else {
      TotalItemsAppend(cart, [CartItem(p, 1)]);
    }
  }

  /** A product added twice to a cart that lacked it ends up on one line with quantity 2. */
  lemma AddTwiceMerges(cart: seq<CartItem>, p: Product)
    requires p.id !in CartIds(cart)
    ensures CartAfterAdd(CartAfterAdd(cart, p), p) == cart + [CartItem(p, 2)]
  {
    var once := CartAfterAdd(cart, p);
    assert CartIds(once) == CartIds(cart) + [p.id];
    var twice := CartAfterAdd(once, p);
    assert |twice| == |cart| + 1;
    forall i | 0 <= i < |twice|
      ensures twice[i] == (cart + [CartItem(p, 2)])[i]
    {
      if i < |cart| {
        assert CartIds(cart)[i] != p.id;
      }
    }
  }

  // ------------------------------------------------------------ wishlist

  /**
   * The wishlist ids handed to the catalog cards (`wishlistIds`); how they change under removal
   * and toggling is stated by `WishlistWithoutIds`, `WishlistAfterToggle` and `ToggleTwiceRestores`.
   */
  function WishlistIds(wishlist: seq<Product>): (ids: set<string>)
    ensures forall p :: p in wishlist ==> p.id in ids
    ensures forall id :: id in ids ==> exists i :: 0 <= i < |wishlist| && wishlist[i].id == id
  {
    set p | p in wishlist :: p.id
  }

  predicate WishlistValid(wishlist: seq<Product>) {
    NoDuplicates(ProductIds(wishlist))
  }

  /** `wishlist.filter(p => p.id !== id)`: the products with another id, in order. */
  function WishlistWithout(wishlist: seq<Product>, id: string): (r: seq<Product>)
    ensures |r| <= |wishlist|
    decreases |wishlist|
  {
    if wishlist == [] then []
    else
      var rest := WishlistWithout(wishlist[1..], id);
      if wishlist[0].id != id then [wishlist[0]] + rest else rest
  }

  /** The filter keeps exactly the products with another id. */
  lemma {:induction false} WishlistWithoutMembers(wishlist: seq<Product>, id: string)
    ensures forall p :: p in WishlistWithout(wishlist, id) <==> p in wishlist && p.id != id
    decreases |wishlist|
  {
    if wishlist != [] {
      WishlistWithoutMembers(wishlist[1..], id);
      assert wishlist == [wishlist[0]] + wishlist[1..];
    }
  }

  /** Removing an id from the wishlist removes exactly that id from the saved id set. */
  lemma WishlistWithoutIds(wishlist: seq<Product>, id: string)
    ensures WishlistIds(WishlistWithout(wishlist, id)) == WishlistIds(wishlist) - {id}
  {
    var r := WishlistWithout(wishlist, id);
    WishlistWithoutMembers(wishlist, id);
    forall x | x in WishlistIds(wishlist) - {id}
      ensures x in WishlistIds(r)
    {
      var i :| 0 <= i < |wishlist| && wishlist[i].id == x;
      assert wishlist[i] in r;
    }
  }

  lemma {:induction false} WithoutNoMatch(wishlist: seq<Product>, id: string)
    requires forall i :: 0 <= i < |wishlist| ==> wishlist[i].id != id
    ensures WishlistWithout(wishlist, id) == wishlist
    decreases |wishlist|
  {
    if wishlist != [] {
      assert forall i :: 0 <= i < |wishlist[1..]| ==> wishlist[1..][i] == wishlist[i + 1];
      WithoutNoMatch(wishlist[1..], id);
      assert wishlist == [wishlist[0]] + wishlist[1..];
    }
  }

  /** Filtering out an id that is not saved changes nothing. */
  lemma WishlistWithoutAbsent(wishlist: seq<Product>, id: string)
    requires id !in WishlistIds(wishlist)
    ensures WishlistWithout(wishlist, id) == wishlist
  {
    forall i | 0 <= i < |wishlist|
      ensures wishlist[i].id != id
    {
      assert wishlist[i] in wishlist;
    }
    WithoutNoMatch(wishlist, id);
  }

  /** The filter keeps the surviving products in their original order. */
  lemma {:induction false} WishlistWithoutKeepsOrder(wishlist: seq<Product>, id: string)
    ensures IsSubsequence(WishlistWithout(wishlist, id), wishlist)
    decreases |wishlist|
  {
    if wishlist != [] {
      WishlistWithoutKeepsOrder(wishlist[1..], id);
      assert wishlist == [wishlist[0]] + wishlist[1..];
      if wishlist[0].id != id {
        SubsequenceKeep(wishlist[0], WishlistWithout(wishlist[1..], id), wishlist[1..]);
      } else {
        SubsequenceSkip(wishlist[0], WishlistWithout(wishlist[1..], id), wishlist[1..]);
      }
    }
  }

  lemma ProductIdOfMember(s: seq<Product>, x: Product)
    requires x in s
    ensures x.id in ProductIds(s)
  {
    var k :| 0 <= k < |s| && s[k] == x;
    assert ProductIds(s)[k] == x.id;
  }

  lemma {:induction false} WishlistWithoutValid(wishlist: seq<Product>, id: string)
    ensures WishlistValid(wishlist) ==> WishlistValid(WishlistWithout(wishlist, id))
    decreases |wishlist|
  {
    if wishlist != [] && WishlistValid(wishlist) {
      var h := wishlist[0].id;
      var rest := WishlistWithout(wishlist[1..], id);
      ProductIdsCons(wishlist);
      NoDuplicatesHead(ProductIds(wishlist));
      WishlistWithoutValid(wishlist[1..], id);
      WishlistWithoutMembers(wishlist[1..], id);
      if h != id {
        forall k | 0 <= k < |rest|
          ensures ProductIds(rest)[k] != h
        {
          ProductIdOfMember(wishlist[1..], rest[k]);
        }
        ProductIdsCons([wishlist[0]] + rest);
        assert ([wishlist[0]] + rest)[1..] == rest;
        NoDuplicatesCons(h, ProductIds(rest));
      }
    }
  }

  /**
   * toggleWishlist: a product whose id is saved is removed, any other is appended, so the
   * saved id set gains or loses exactly that id.
   */
  function WishlistAfterToggle(wishlist: seq<Product>, p: Product): (r: seq<Product>)
    ensures WishlistIds(r) ==
      if p.id in WishlistIds(wishlist) then WishlistIds(wishlist) - {p.id} else WishlistIds(wishlist) + {p.id}
    ensures p.id !in WishlistIds(wishlist) ==> r == wishlist + [p]
    ensures p.id in WishlistIds(wishlist) ==> IsSubsequence(r, wishlist)
    ensures WishlistValid(wishlist) ==> WishlistValid(r)
  {
    if p.id in WishlistIds(wishlist) then
      WishlistWithoutValid(wishlist, p.id);
      WishlistWithoutIds(wishlist, p.id);
      WishlistWithoutKeepsOrder(wishlist, p.id);
      WishlistWithout(wishlist, p.id)
    else
      var r := wishlist + [p];
      assert ProductIds(r) == ProductIds(wishlist) + [p.id];
      assert WishlistIds(r) == WishlistIds(wishlist) + {p.id};
      r
  }

  /** Toggling the same product twice restores the saved ids; from "not saved" it restores the list. */
  lemma ToggleTwiceRestores(wishlist: seq<Product>, p: Product)
    ensures WishlistIds(WishlistAfterToggle(WishlistAfterToggle(wishlist, p), p)) == WishlistIds(wishlist)
    ensures p.id !in WishlistIds(wishlist) ==>
      WishlistAfterToggle(WishlistAfterToggle(wishlist, p), p) == wishlist
  {
    if p.id !in WishlistIds(wishlist) {
      WithoutAppended(wishlist, p);
    }
  }

  /** The wishlist filter distributes over concatenation. */
  lemma WithoutCons(x: Product, rest: seq<Product>, id: string)
    ensures WishlistWithout([x] + rest, id)
      == if x.id != id then [x] + WishlistWithout(rest, id) else WishlistWithout(rest, id)
  {
    assert ([x] + rest)[1..] == rest;
  }

  lemma {:induction false} WithoutConcat(a: seq<Product>, b: seq<Product>, id: string)
    ensures WishlistWithout(a + b, id) == WishlistWithout(a, id) + WishlistWithout(b, id)
    decreases |a|
  {
    if a == [] {
      assert a + b == b;
    } else {
      var x, rest := a[0], a[1..];
      assert a == [x] + rest;
      assert a + b == [x] + (rest + b);
      WithoutConcat(rest, b, id);
      WithoutCons(x, rest + b, id);
      WithoutCons(x, rest, id);
      var l, r := WishlistWithout(rest, id), WishlistWithout(b, id);
      if x.id != id {
        calc {
          WishlistWithout(a + b, id);
          [x] + (l + r);
          ([x] + l) + r;
          WishlistWithout(a, id) + r;
        }
      }
    }
  }

  lemma WithoutAppended(wishlist: seq<Product>, p: Product)
    requires p.id !in WishlistIds(wishlist)
    ensures WishlistWithout(wishlist + [p], p.id) == wishlist
  {
    WithoutConcat(wishlist, [p], p.id);
    WishlistWithoutAbsent(wishlist, p.id);
    assert WishlistWithout([p], p.id) == [];
  }

  // --------------------------------------------------------------- routes

  datatype Route = Render | Redirect(to: string)

  /** `/orders` renders for any signed-in user and otherwise redirects to the login page. */
  function OrdersRoute(user: Option<User>): (r: Route)
    ensures r == Render <==> user.Some?
    ensures r != Render ==> r == Redirect("/login")
  {
    if user.Some? then Render else Redirect("/login")
  }

  /** `/admin` renders only for a user whose role is ADMIN and otherwise redirects home. */
  function AdminRoute(user: Option<User>): (r: Route)
    ensures r == Render <==> user.Some? && user.value.role == ADMIN
    ensures r != Render ==> r == Redirect("/")
  {
    if user.Some? && user.value.role == ADMIN then Render else Redirect("/")
  }

  // ---------------------------------------------------- operation sequences

  /** The cart operations the pages can request. */
  datatype CartOp = Add(p: Product) | Update(id: string, delta: int) | Remove(id: string) | Clear

  function ApplyCartOp(cart: seq<CartItem>, op: CartOp): seq<CartItem> {
    match op
    case Add(p) => CartAfterAdd(cart, p)
    case Update(id, delta) => CartAfterUpdate(cart, id, delta)
    case Remove(id) => CartAfterRemove(cart, id)
    case Clear => []
  }

  function ApplyCartOps(cart: seq<CartItem>, ops: seq<CartOp>): seq<CartItem>
    decreases |ops|
  {
    if ops == [] then cart else ApplyCartOps(ApplyCartOp(cart, ops[0]), ops[1..])
  }

  /** Whatever add/update/remove/clear sequence runs, ids stay unique and quantities stay >= 1. */
  lemma {:induction false} CartOpsKeepValid(cart: seq<CartItem>, ops: seq<CartOp>)
    requires CartValid(cart)
    ensures CartValid(ApplyCartOps(cart, ops))
    decreases |ops|
  {
    if ops != [] {
      if ops[0].Remove? {
        CartAfterRemoveValid(cart, ops[0].id);
      }
      CartOpsKeepValid(ApplyCartOp(cart, ops[0]), ops[1..]);
    }
  }

  lemma FromEmptyCartValid(ops: seq<CartOp>)
    ensures CartValid(ApplyCartOps([], ops))
  {
    CartOpsKeepValid([], ops);
  }

  // --------------------------------------------------------- the app root

  datatype ToastKind = Success | Info

  /** The transient notification; the timer that clears it after 3 s is not modelled. */
  datatype Toast = Toast(message: string, kind: ToastKind)

  class AppState {
    var cart: seq<CartItem>
    var wishlist: seq<Product>
    var currentUser: Option<User>
    var toast: Option<Toast>

    ghost predicate Valid()
      reads this
    {
      CartValid(cart) && WishlistValid(wishlist)
    }

    constructor ()
      ensures Valid()
      ensures cart == [] && wishlist == [] && currentUser == None && toast == None
    {
      cart, wishlist, currentUser, toast := [], [], None, None;
    }

    method AddToCart(p: Product)
      requires Valid()
      modifies this
      ensures Valid()
      ensures cart == CartAfterAdd(old(cart), p)
      ensures TotalItems(cart) == TotalItems(old(cart)) + 1
      ensures wishlist == old(wishlist) && currentUser == old(currentUser)
      ensures toast == Some(Toast("Added " + p.name + " to cart.", Success))
    {
      CartAfterAddCountsOne(cart, p);
      cart := CartAfterAdd(cart, p);
      toast := Some(Toast("Added " + p.name + " to cart.", Success));
    }

    method ToggleWishlist(p: Product)
      requires Valid()
      modifies this
      ensures Valid()
      ensures wishlist == WishlistAfterToggle(old(wishlist), p)
      ensures toast == if p.id in WishlistIds(old(wishlist))
        then Some(Toast("Removed from wishlist.", Info))
        else Some(Toast("Saved to wishlist.", Success))
      ensures cart == old(cart) && currentUser == old(currentUser)
    {
      if p.id in WishlistIds(wishlist) {
        toast := Some(Toast("Removed from wishlist.", Info));
      } else {
        toast := Some(Toast("Saved to wishlist.", Success));
      }
      wishlist := WishlistAfterToggle(wishlist, p);
    }

    /** The wishlist page's remove button (an inline filter in App.tsx). */
    method RemoveFromWishlist(id: string)
      requires Valid()
      modifies this`wishlist
      ensures Valid()
      ensures wishlist == WishlistWithout(old(wishlist), id)
      ensures WishlistIds(wishlist) == WishlistIds(old(wishlist)) - {id}
    {
      WishlistWithoutValid(wishlist, id);
      WishlistWithoutIds(wishlist, id);
      wishlist := WishlistWithout(wishlist, id);
    }

    method UpdateQuantity(id: string, delta: int)
      requires Valid()
      modifies this`cart
      ensures Valid()
      ensures cart == CartAfterUpdate(old(cart), id, delta)
    {
      cart := CartAfterUpdate(cart, id, delta);
    }

    method RemoveFromCart(id: string)
      requires Valid()
      modifies this`cart
      ensures Valid()
      ensures cart == CartAfterRemove(old(cart), id)
    {
      CartAfterRemoveValid(cart, id);
      cart := CartAfterRemove(cart, id);
    }

    method ClearCart()
      requires Valid()
      modifies this`cart, this`toast
      ensures Valid()
      ensures cart == [] && TotalItems(cart) == 0
      ensures toast == Some(Toast("Order confirmed!", Success))
    {
      cart := [];
      toast := Some(Toast("Order confirmed!", Success));
    }

    method HandleLogin(user: User)
      modifies this`currentUser, this`toast
      ensures currentUser == Some(user)
      ensures OrdersRoute(currentUser) == Render
      ensures toast == Some(Toast("Welcome, " + user.name + "!", Success))
    {
      currentUser := Some(user);
      toast := Some(Toast("Welcome, " + user.name + "!", Success));
    }

    method HandleLogout()
      modifies this`currentUser, this`toast
      ensures currentUser == None
      ensures OrdersRoute(currentUser) == Redirect("/login") && AdminRoute(currentUser) == Redirect("/")
      ensures toast == Some(Toast("Logged out.", Info))
    {
      currentUser := None;
      toast := Some(Toast("Logged out.", Info));
    }
  }
}
