/**
 * The product page (pages/ProductDetailPage.tsx): the catalog lookup by route id, the image
 * gallery, the discount badge, the local quantity selector and the add-to-bag buttons.
 */
module ProductDetail {
  import opened Util
  import opened Types
  import opened Store
  import Catalog

  /** `find`: the first product whose id equals the route id, if any. */
  function FindProduct(ps: seq<Product>, id: string): (r: Option<Product>)
    ensures r.None? <==> forall i :: 0 <= i < |ps| ==> ps[i].id != id
    ensures r.Some? ==> r.value.id == id && r.value in ps
    decreases |ps|
  {
    if ps == [] then None
    else if ps[0].id == id then Some(ps[0])
    else
      var r := FindProduct(ps[1..], id);
      assert forall i :: 1 <= i < |ps| ==> ps[i] == ps[1..][i - 1];
      r
  }

  /** The product found is the one at the first index carrying the id. */
  lemma {:induction false} FindProductIsFirst(ps: seq<Product>, id: string, k: int)
    requires 0 <= k < |ps| && ps[k].id == id
    requires forall j :: 0 <= j < k ==> ps[j].id != id
    ensures FindProduct(ps, id) == Some(ps[k])
    decreases |ps|
  {
    if k > 0 {
      FindProductIsFirst(ps[1..], id, k - 1);
    }
  }

  /** The gallery: the product's own image list when it has a nonempty one, else its main image. */
  function Gallery(p: Product): (g: seq<string>)
    ensures |g| > 0
    ensures p.images.Some? && |p.images.value| > 0 ==> g == p.images.value
    ensures p.images.None? || |p.images.value| == 0 ==> g == [p.image]
  {
    if p.images.Some? && |p.images.value| > 0 then p.images.value else [p.image]
  }

  /** The strike-through price and discount badge appear when `oldPrice` is set and not zero. */
  function ShowsDiscount(p: Product): (b: bool)
    ensures b <==> p.oldPrice.Some? && p.oldPrice.value != 0.0
  {
    match p.oldPrice
    case None => false
    case Some(was) => was != 0.0
  }

  /** What the page renders: nothing for an unknown id, else the product with its gallery. */
  datatype DetailView = Nothing | Detail(product: Product, gallery: seq<string>)

  function View(ps: seq<Product>, id: string): (v: DetailView)
    ensures v.Nothing? <==> forall i :: 0 <= i < |ps| ==> ps[i].id != id
    ensures v.Detail? ==> v.product.id == id && v.product in ps && v.gallery == Gallery(v.product)
  {
    match FindProduct(ps, id)
    case None => Nothing
    case Some(p) => Detail(p, Gallery(p))
  }

  /** In the catalog fixture, id "4" opens the serum, and ids are looked up exactly. */
  lemma LookupFixture()
    ensures View(Catalog.MockProducts, "4") == Detail(Catalog.Serum, [Catalog.Serum.image])
    ensures View(Catalog.MockProducts, "3").Nothing?
  {
    FindProductIsFirst(Catalog.MockProducts, "4", 2);
  }

  // ---------------------------------------------------------- the quantity selector

  /** The two buttons of the quantity selector. */
  datatype Stepper = Minus | Plus

  function QuantityAfter(q: int, s: Stepper): int {
    match s
    case Minus => Max(1, q - 1)
    case Plus => q + 1
  }

  function QuantityAfterAll(q: int, presses: seq<Stepper>): int
    decreases |presses|
  {
    if presses == [] then q else QuantityAfterAll(QuantityAfter(q, presses[0]), presses[1..])
  }

  /**
   * From the initial quantity (or any positive one) no sequence of presses takes the
   * quantity below 1, and each '+' press counts.
   */
  lemma {:induction false} QuantityStaysPositive(q: int, presses: seq<Stepper>)
    requires q >= 1
    ensures QuantityAfterAll(q, presses) >= 1
    ensures (forall i :: 0 <= i < |presses| ==> presses[i] == Plus) ==>
      QuantityAfterAll(q, presses) == q + |presses|
    decreases |presses|
  {
    if presses != [] {
      QuantityStaysPositive(QuantityAfter(q, presses[0]), presses[1..]);
      if forall i :: 0 <= i < |presses| ==> presses[i] == Plus {
        assert presses[0] == Plus;
        assert forall i :: 0 <= i < |presses[1..]| ==> presses[1..][i] == presses[i + 1];
      }
    }
  }

  class DetailPage {
    /** The product the route id resolved to. */
    var product: Option<Product>
    var quantity: int
    var activeImage: string

    ghost predicate Valid()
      reads this
    {
      quantity >= 1
    }

    /** The page after mounting: quantity 1 and, for a known product, its main image shown. */
    constructor (ps: seq<Product>, id: string)
      ensures product == FindProduct(ps, id) && quantity == 1 && Valid()
      ensures activeImage == if product.Some? then product.value.image else ""
    {
      var found := FindProduct(ps, id);
      product := found;
      quantity := 1;
      activeImage := if found.Some? then found.value.image else "";
    }

    method Decrement()
      requires Valid()
      modifies this`quantity
      ensures quantity == QuantityAfter(old(quantity), Minus) && Valid()
      ensures old(quantity) > 1 ==> quantity == old(quantity) - 1
      ensures old(quantity) == 1 ==> quantity == 1
    {
      quantity := Max(1, quantity - 1);
    }

    method Increment()
      requires Valid()
      modifies this`quantity
      ensures quantity == QuantityAfter(old(quantity), Plus) && quantity == old(quantity) + 1 && Valid()
    {
      quantity := quantity + 1;
    }

    /** Clicking the i-th thumbnail shows that image. */
    method SelectThumbnail(i: int)
      requires product.Some? && 0 <= i < |Gallery(product.value)|
      modifies this`activeImage
      ensures activeImage == Gallery(product.value)[i] && activeImage in Gallery(product.value)
    {
      activeImage := Gallery(product.value)[i];
    }

    /**
     * Either add-to-bag button: the product alone is handed to the store, so the bag gains
     * exactly one unit whatever quantity the selector shows.
     */
    method AddToBag(app: AppState)
      requires product.Some? && app.Valid()
      modifies app
      ensures app.Valid()
      ensures app.cart == CartAfterAdd(old(app.cart), product.value)
      ensures TotalItems(app.cart) == TotalItems(old(app.cart)) + 1
      ensures app.wishlist == old(app.wishlist) && app.currentUser == old(app.currentUser)
      ensures app.toast == Some(Toast("Added " + product.value.name + " to cart.", Success))
      ensures quantity == old(quantity)
    {
      app.AddToCart(product.value);
    }
  }
}
