# NovaMart storefront: a verified model

NovaMart is a client-side storefront demo. It has a product catalog with search, category
filtering and sorting, a cart and a wishlist held at the application root, a three-step
checkout, an order-history page, a product page, a mock sign-in and an admin dashboard with an
add-product wizard. Every record lives in memory; the fixtures in `constants.tsx` are the whole
catalog.

This Dafny project models the logic of those pages and proves what each one promises.

| module | file | what it models |
|---|---|---|
| `Util` | `util.dfy` | `Option`, `Max`, duplicate-freedom and the sub-sequence relation |
| `Strings` | `strings.dfy` | `toLowerCase` on ASCII letters and `includes` |
| `Types` | `types.dfy` | `Product`, `CartItem`, `Category`, `User`, `Order` from `types.ts` |
| `Catalog` | `catalog.dfy` | the fixtures: products, category tree, orders |
| `Store` | `store.dfy` | the root state in `App.tsx`: cart, wishlist, user, toast, route guards |
| `ProductSort` | `product_sort.dfy` | the catalog's `result.sort(cmp)`: an in-place, stable insertion sort on an array |
| `Home` | `home.dfy` | the catalog page: filter, sort, category tree, breadcrumbs, grid, countdown |
| `Pricing` | `pricing.dfy` | the subtotal `reduce` and the 8% tax that both money pages use |
| `CartPage` | `cart_page.dfy` | the bag page: summary, empty state, line controls |
| `Checkout` | `checkout.dfy` | the checkout page: step machine, totals, confirm and completion |
| `ProductDetail` | `product_detail.dfy` | the product page: lookup, gallery, discount badge, quantity selector, add to bag |
| `Orders` | `orders.dfy` | the order-history page: customer filter, status colours, tracker |
| `Admin` | `admin.dfy` | the admin product table's stock dot and the add-product wizard |
| `Login` | `login.dfy` | the mock sign-in |

How the model is built:

- **Application root.** The root component replaces its state with values computed from the
  previous state. Each of those computations is a pure function, for example
  `Store.CartAfterAdd`. The class `Store.AppState` holds the state as fields, and its methods
  assign the result of those functions.
- **Pages.** Pages that keep local state are classes with fields and `modifies` clauses:
  `Home.HomePage`, `Checkout.CheckoutPage`, `ProductDetail.DetailPage` and
  `Admin.AdminDashboard`. A page that passes a request up to the root takes the
  `Store.AppState` object and calls its method.
- **Sorting.** The sort runs in place on an `array<Product>`. It is proved equal to the pure
  stable insertion sort `ProductSort.StableSort`. Separate lemmas prove that this sort gives a
  permutation, that the result is ordered, and that it is stable.

Inputs that come from outside the program are parameters:

- the route id and the `search` URL parameter;
- the clock value used as a new product's id;
- the text returned by the AI description service;
- the elapsing of timers, modelled as method calls: `Home.HomePage.OnTick` and
  `Checkout.CheckoutPage.Complete`.

## Model

| member | source | states |
|---|---|---|
| `Store.CartAfterAdd` | App.tsx:27-36 | A product already in the cart gets exactly one more unit on its own line. Length, ids, line order, stored products and every other quantity are unchanged. A new product is appended with quantity 1. Keeps one line per id and every quantity at least 1. |
| `Store.CartAfterAddCountsOne` | App.tsx:27-36 | Adding a product raises the header's item count by exactly one. |
| `Store.AddTwiceMerges` | App.tsx:27-36 | Adding an absent product twice gives one new line with quantity 2 at the end. |
| `Store.CartAfterUpdate` | App.tsx:53-63 | The line with the id gets `max(1, quantity + delta)`. Every other line, the ids and the order are unchanged. An absent id changes nothing. The quantity never drops below 1, and the cart invariant is kept. |
| `Store.CartAfterRemove` | App.tsx:65-67 | The filtered cart is never longer than the cart. |
| `Store.CartAfterRemoveMembers` | App.tsx:66 | The lines kept are exactly the lines whose id differs from the removed one. |
| `Store.CartAfterRemoveAbsent` | App.tsx:66 | Removing an id that no line carries returns the cart unchanged. |
| `Store.CartAfterRemoveKeepsOrder` | App.tsx:66 | The kept lines are a sub-sequence of the cart, in their original order. |
| `Store.CartAfterRemoveDropsId` | App.tsx:66 | No remaining line carries the removed id. |
| `Store.CartAfterRemoveValid` | App.tsx:65-67 | Removal keeps the cart invariant. When the id was present, exactly one line goes. |
| `Store.TotalItems` | App.tsx:84 | The item count is at least the number of lines when every quantity is positive. |
| `Store.TotalItemsAppend` | App.tsx:84 | The item count is additive over concatenated carts. |
| `Store.WishlistIds` | App.tsx:85 | The id set holds the id of every saved product and nothing else. |
| `Store.WishlistWithout` | App.tsx:116 | The filtered wishlist is never longer than the wishlist. |
| `Store.WishlistWithoutMembers` | App.tsx:116 | The products kept are exactly the saved products with another id. |
| `Store.WishlistWithoutAbsent` | App.tsx:116 | Filtering out an id that is not saved changes nothing. |
| `Store.WishlistWithoutIds` | App.tsx:116 | The saved id set loses exactly the removed id. |
| `Store.WishlistWithoutKeepsOrder` | App.tsx:116 | The kept products stay in their saved order. |
| `Store.WishlistWithoutValid` | App.tsx:45 | Filtering keeps the saved ids free of duplicates. |
| `Store.WithoutConcat` | App.tsx:45 | The wishlist filter distributes over concatenation. |
| `Store.WithoutAppended` | App.tsx:45-48 | Removing a product that was just appended restores the wishlist. |
| `Store.WishlistAfterToggle` | App.tsx:40-51 | A saved id is removed, keeping the order of the rest. Any other product is appended. The id set gains or loses exactly that id, and duplicate-freedom is kept. |
| `Store.ToggleTwiceRestores` | App.tsx:40-51 | Toggling twice restores the saved id set. Starting from "not saved", it restores the list itself. |
| `Store.OrdersRoute` | App.tsx:120 | `/orders` renders exactly when a user is signed in; otherwise it redirects to `/login`. |
| `Store.AdminRoute` | App.tsx:121 | `/admin` renders exactly for a signed-in ADMIN; otherwise it redirects to `/`. |
| `Store.CartOpsKeepValid` | App.tsx:27-72 | Any sequence of add, update, remove and clear keeps one line per id and every quantity at least 1. |
| `Store.FromEmptyCartValid` | App.tsx:17 | From the initial empty cart, every operation sequence yields a valid cart. |
| `Store.AppState.constructor` | App.tsx:17-20 | The state starts with an empty cart and wishlist, no user and no toast. |
| `Store.AppState.AddToCart` | App.tsx:27-38 | The cart becomes `CartAfterAdd` and its item count rises by one. Wishlist and user are unchanged, and the toast says "Added <name> to cart.". |
| `Store.AppState.ToggleWishlist` | App.tsx:40-51 | The wishlist becomes `WishlistAfterToggle`. The toast says "Removed from wishlist." (info) or "Saved to wishlist." (success). The cart and user are unchanged. |
| `Store.AppState.RemoveFromWishlist` | App.tsx:116 | The wishlist is filtered, and the saved id set loses exactly that id. |
| `Store.AppState.UpdateQuantity` | App.tsx:53-63 | The cart becomes `CartAfterUpdate` and stays valid. |
| `Store.AppState.RemoveFromCart` | App.tsx:65-67 | The cart becomes `CartAfterRemove` and stays valid. |
| `Store.AppState.ClearCart` | App.tsx:69-72 | The cart is emptied and the toast says "Order confirmed!". |
| `Store.AppState.HandleLogin` | App.tsx:74-77 | The user is stored, `/orders` opens, and the toast welcomes the user by name. |
| `Store.AppState.HandleLogout` | App.tsx:79-82 | The user is cleared, both guarded routes redirect, and the toast says "Logged out.". |
| `Strings.Lower` | pages/HomePage.tsx:38 | Lower-casing keeps the length, leaves no upper-case letter and changes no other character. |
| `Strings.LowerIdempotent` | pages/HomePage.tsx:22 | Lower-casing twice is lower-casing once. |
| `Strings.Contains` | pages/HomePage.tsx:38 | `includes` holds exactly when the needle occurs at some index. |
| `Catalog.FixtureTreeWellFormed` | constants.tsx:64-99 | Every top-level category is at level 1 with no parent. Every child names its parent and sits one level below it. |
| `ProductSort.ParseSortKey` | pages/HomePage.tsx:49-51 | Each of the three sort labels selects its comparator. Every other label, 'Featured' included, sorts nothing. |
| `ProductSort.InOrderTotal` | pages/HomePage.tsx:49-51 | Each comparator orders any two products one way or the other. |
| `ProductSort.InOrderTransitive` | pages/HomePage.tsx:49-51 | Each comparator is transitive. |
| `ProductSort.InsertPermutes` | pages/HomePage.tsx:49-51 | One insertion adds exactly the inserted product. |
| `ProductSort.InsertSorted` | pages/HomePage.tsx:49-51 | Insertion keeps a sorted sequence sorted. |
| `ProductSort.StableSortSorts` | pages/HomePage.tsx:49-51 | The sort result is a permutation of its input and is ordered by the key's comparator. |
| `ProductSort.InsertKeepsEqualKeyOrder` | pages/HomePage.tsx:49-51 | Insertion places the product after all products with an equal sort value. |
| `ProductSort.StableSortIsStable` | pages/HomePage.tsx:49-51 | Products with equal sort values keep their relative order. |
| `ProductSort.FeaturedKeepsOrder` | pages/HomePage.tsx:49-53 | Under 'Featured' the sequence is unchanged. |
| `ProductSort.InsertAt` | pages/HomePage.tsx:49-51 | One pass of in-place insertion: the prefix up to `i` becomes `Insert` of the old prefix and `a[i]`, and the rest of the array is untouched. |
| `ProductSort.SortInPlace` | pages/HomePage.tsx:49-51 | After the in-place sort, the array holds `StableSort` of its old contents. |
| `Home.SearchQuery` | pages/HomePage.tsx:22 | A missing parameter is the empty query. Otherwise the query is the parameter lower-cased: same length, no upper-case letters, every other character kept. |
| `Home.FilterCatalog` | pages/HomePage.tsx:37-47 | The result holds exactly the products whose lower-cased name or description includes the query and that pass the category test (no selection, or category or subcategory equal to the selection's name). Each kept product occurs as often as in the catalog, and every other product not at all. |
| `Home.FilterKeepsOrder` | pages/HomePage.tsx:37-47 | The filter keeps catalog order. |
| `Home.EmptyQueryKeepsAll` | pages/HomePage.tsx:37-41 | With the empty query and no selection, the whole catalog is listed. |
| `Home.SearchIgnoresCase` | pages/HomePage.tsx:22 | A query that differs only in letter case is the same query. |
| `Home.FilteredProducts` | pages/HomePage.tsx:36-54 | The listing equals `StableSort` under the parsed key of the filtered catalog. The array is sorted in place for the three sort labels and left alone otherwise. |
| `Home.ListingProperties` | pages/HomePage.tsx:36-54 | For every label, the listing is a permutation of the filtered catalog and holds exactly the matching products, each as often as in the catalog. It is ordered by the label's comparator and keeps equal-key products in catalog order. Under 'Featured' it is the filtered catalog in catalog order. |
| `Home.AudioSelection` | pages/HomePage.tsx:41-46 | Selecting the 'Audio' subcategory of the fixture tree lists only the headphones. |
| `Home.SkinFindsSerum` | pages/HomePage.tsx:38 | The search "SKIN" matches the serum through its description. |
| `Home.ReversedByPrice` | pages/HomePage.tsx:49 | Three products with strictly descending prices come out reversed under 'Price: Low to High'. |
| `Home.PriceAscendingFixture` | pages/HomePage.tsx:49 | The fixture catalog sorted by ascending price is serum (34), tee (45), headphones (299). |
| `Home.ToggleExpand` | pages/HomePage.tsx:56-61 | The toggled id flips membership, and every other id keeps its membership. |
| `Home.ToggleExpandTwice` | pages/HomePage.tsx:56-61 | Toggling the same id twice restores the set. |
| `Home.Breadcrumbs` | pages/HomePage.tsx:63-69 | The trail is 'Home', plus a second crumb with the selected category's name exactly when there is a selection. The last crumb restores the current selection. |
| `Home.SubCategoryGrid` | pages/HomePage.tsx:71-76 | The grid renders only with no search and a nonempty tile list. It shows the selection's children, or the top-level categories when nothing is selected. |
| `Home.GridOffersChildren` | pages/HomePage.tsx:71-83 | Under a fixture selection, every tile names the selection as parent and sits one level deeper. |
| `Home.Tick` | pages/HomePage.tsx:26-31 | On a valid clock, one tick keeps the clock valid and lowers the remaining seconds by one, stopping at zero. A clock at zero stays put. |
| `Home.TickNCountsDown` | pages/HomePage.tsx:24-32 | After `n` ticks the clock shows `max(0, start - n)` seconds and is still valid. |
| `Home.InitialClockRunsOut` | pages/HomePage.tsx:20 | The 0h 45m 30s countdown reaches 0:00:00 after 2730 ticks and stays there. |
| `Home.HomePage.constructor` | pages/HomePage.tsx:16-20 | The page opens with no selection, 'Featured', nodes c1 and c2 expanded and 0h 45m 30s on the clock. |
| `Home.HomePage.Select` | pages/HomePage.tsx:83 | A tile, tree node or breadcrumb click sets the selection. |
| `Home.HomePage.SetSortBy` | pages/HomePage.tsx:231 | The sort select stores the chosen label. |
| `Home.HomePage.Toggle` | pages/HomePage.tsx:56-61 | The expanded set becomes `ToggleExpand` of the old one. |
| `Home.HomePage.OnTick` | pages/HomePage.tsx:25-31 | The clock becomes `Tick` of the old clock and stays valid. |
| `Home.HomePage.Listing` | pages/HomePage.tsx:36-54 | The listing for the page state is the sorted, filtered catalog. |
| `Pricing.Subtotal` | pages/CartPage.tsx:13 | The empty cart's subtotal is 0. With non-negative prices and positive quantities the subtotal is non-negative. |
| `Pricing.SubtotalAppend` | pages/CartPage.tsx:13 | The subtotal is additive over concatenated carts. |
| `Pricing.AddIsUpdateAt` | App.tsx:29-33 | In a valid cart, adding a present product changes exactly its own line, by one unit. |
| `Pricing.SubtotalAfterAdd` | pages/CheckoutPage.tsx:16 | Adding a product raises the subtotal by one unit price. That is the new product's price for a new line, or the price stored on the existing line. |
| `Pricing.Tax` | pages/CartPage.tsx:15 | For a non-negative subtotal the tax lies between 0 and the subtotal. |
| `Pricing.TaxAdditive` | pages/CartPage.tsx:15 | The tax is linear in the subtotal. |
| `CartPage.Shipping` | pages/CartPage.tsx:14 | Shipping is 0 or 15. It is 0 exactly for a subtotal above 100 or equal to 0. |
| `CartPage.Summarize` | pages/CartPage.tsx:13-16 | The summary shows the cart's subtotal, that subtotal's shipping and tax, and a total of 108% of the subtotal plus shipping. |
| `CartPage.TotalBounds` | pages/CartPage.tsx:13-16 | With non-negative prices, the total lies between the subtotal and the subtotal plus 8% plus 15. |
| `CartPage.ShippingThreshold` | pages/CartPage.tsx:14 | A subtotal of exactly 100 still pays 15. Any subtotal above 100 ships free. |
| `CartPage.View` | pages/CartPage.tsx:18-33 | An empty cart shows the empty-bag message. Otherwise the page shows the lines and their summary. |
| `CartPage.Request` | pages/CartPage.tsx:59-77 | '-' requests an update by -1, '+' an update by +1, and the bin a removal, all for the line's own id. |
| `CartPage.ControlEffects` | pages/CartPage.tsx:59-77 | On a valid cart, '+' adds one unit to the line and '-' gives `max(1, q - 1)`; neither touches the other lines. The bin removes just that line. The cart stays valid. |
| `Checkout.Shipping` | pages/CheckoutPage.tsx:18 | Shipping is 0 or 15, and 0 exactly for a subtotal above 100. |
| `Checkout.ShippingRulesDifferOnlyAtZero` | pages/CheckoutPage.tsx:18 | Checkout and the bag page charge the same shipping on every subtotal except 0. |
| `Checkout.Total` | pages/CheckoutPage.tsx:16-19 | The total is 108% of the subtotal, plus 15 up to a subtotal of 100. |
| `Checkout.TotalsAgree` | pages/CheckoutPage.tsx:16-19 | For a nonzero subtotal, the checkout total equals the bag page's total. |
| `Checkout.View` | pages/CheckoutPage.tsx:29 | An empty cart shows the empty-bag message instead of the step flow. |
| `Checkout.StepsStayInRange` | pages/CheckoutPage.tsx:144-151 | Every sequence of Back/Continue presses keeps the step within 1..3. |
| `Checkout.StepMoves` | pages/CheckoutPage.tsx:144-151 | Back goes to `max(1, step - 1)`. Continue before step 3 goes one step forward. Two Continues lead from step 1 to review. |
| `Checkout.CheckoutPage.constructor` | pages/CheckoutPage.tsx:12-13 | The flow starts at step 1, not processing, with no navigation. |
| `Checkout.CheckoutPage.GoBack` | pages/CheckoutPage.tsx:144 | The step becomes `max(1, step - 1)`. |
| `Checkout.CheckoutPage.ContinueStep` | pages/CheckoutPage.tsx:149-151 | Offered only before step 3; it moves one step forward. |
| `Checkout.CheckoutPage.Confirm` | pages/CheckoutPage.tsx:157-159 | Offered only at step 3 and while not processing; it sets processing. |
| `Checkout.CheckoutPage.Complete` | pages/CheckoutPage.tsx:21-27 | When the delay ends, the cart is cleared, "Order confirmed!" is shown and the page navigates to `/orders`. |
| `ProductDetail.FindProduct` | pages/ProductDetailPage.tsx:14 | Nothing is found exactly when no product has the id. A product found has that id and is in the catalog. |
| `ProductDetail.FindProductIsFirst` | pages/ProductDetailPage.tsx:14 | The product found is the first one carrying the id. |
| `ProductDetail.Gallery` | pages/ProductDetailPage.tsx:35 | The gallery is the product's image list when that list is nonempty, and otherwise the main image alone; it is never empty. |
| `ProductDetail.ShowsDiscount` | pages/ProductDetailPage.tsx:90 | The discount badge shows exactly when `oldPrice` is present and nonzero. |
| `ProductDetail.View` | pages/ProductDetailPage.tsx:33-35 | An unknown id renders nothing. Otherwise the page shows the product with that id and its gallery. |
| `ProductDetail.LookupFixture` | pages/ProductDetailPage.tsx:14 | In the fixture catalog, id "4" opens the serum with a one-image gallery, and id "3" renders nothing. |
| `ProductDetail.QuantityStaysPositive` | pages/ProductDetailPage.tsx:123-125 | From any quantity of at least 1, no sequence of -/+ presses goes below 1, and `n` '+' presses add exactly `n`. |
| `ProductDetail.DetailPage.constructor` | pages/ProductDetailPage.tsx:14-31 | The page resolves the route id, starts at quantity 1 and shows the product's main image. |
| `ProductDetail.DetailPage.Decrement` | pages/ProductDetailPage.tsx:123 | '-' lowers the quantity by one but never below 1. |
| `ProductDetail.DetailPage.Increment` | pages/ProductDetailPage.tsx:125 | '+' raises the quantity by one. |
| `ProductDetail.DetailPage.SelectThumbnail` | pages/ProductDetailPage.tsx:58-61 | A thumbnail click shows that gallery image. |
| `ProductDetail.DetailPage.AddToBag` | pages/ProductDetailPage.tsx:128 | Both add buttons hand over only the product. The bag gains exactly one unit whatever the selector shows. The wishlist and user are unchanged, the toast says "Added <name> to cart.", and the selector is untouched. |
| `Orders.UserOrders` | pages/OrdersPage.tsx:7 | The listed orders are exactly those whose customer is 'Sarah Wilson', each as often as in the order list. |
| `Orders.UserOrdersKeepOrder` | pages/OrdersPage.tsx:7 | The listed orders keep the fixture order. |
| `Orders.FixtureOrdersListed` | pages/OrdersPage.tsx:7 | With the fixture orders, the one order is listed. |
| `Orders.StatusColor` | pages/OrdersPage.tsx:9-17 | Each status maps to one of the five badge classes, and exactly Pending falls to the slate default. |
| `Orders.StatusColorInjective` | pages/OrdersPage.tsx:9-17 | Different statuses get different badge classes. |
| `Orders.StepsReached` | pages/OrdersPage.tsx:69-78 | An order reaches between one and four tracker steps. |
| `Orders.HighlightIsPrefix` | pages/OrdersPage.tsx:72 | The lit steps are exactly the first 4, 3, 2 or 1 steps for Delivered, Shipped, Processing and the rest; 'Placed' is always lit. |
| `Orders.LabelFollowsDot` | pages/OrdersPage.tsx:71-77 | A step's label is lit exactly when its dot is. |
| `Orders.ProgressWidth` | pages/OrdersPage.tsx:83-86 | The bar lies between 0 and 1. It is full exactly for Delivered and empty exactly for Pending and Cancelled. |
| `Orders.ProgressMatchesSteps` | pages/OrdersPage.tsx:83-86 | The bar covers one third per lit step beyond the first: 1, 2/3, 1/3 or 0. |
| `Admin.StockDotClass` | pages/AdminDashboard.tsx:157 | The stock dot is green exactly above 10 units, and amber otherwise. |
| `Admin.LaunchedProduct` | pages/AdminDashboard.tsx:43 | The saved product carries every form field, the supplied id, rating 5 and 0 reviews. Fields the form lacks stay unset. |
| `Admin.CatalogAfterSave` | pages/AdminDashboard.tsx:44 | The new product comes first, followed by the previous list unchanged and in order. |
| `Admin.SaveKeepsIds` | pages/AdminDashboard.tsx:44 | After a save, the id list is the new id followed by the old ids. |
| `Admin.WizardAfter` | pages/AdminDashboard.tsx:514-522 | 'Go Live' is available exactly on step 2 of the open modal, and it closes the modal at step 1. |
| `Admin.WizardStepsInRange` | pages/AdminDashboard.tsx:488-525 | No sequence of wizard controls leaves steps 1 and 2. |
| `Admin.GoLivePath` | pages/AdminDashboard.tsx:514-522 | 'Go Live' is unavailable on step 1. 'New Product' followed by 'Review & Launch' reaches it. |
| `Admin.AdminDashboard.constructor` | pages/AdminDashboard.tsx:16-28 | The dashboard starts on the fixture products with the modal closed, step 1, not generating, and the form defaults: category 'Electronics', price 0, stock 0, status Draft. |
| `Admin.AdminDashboard.OpenAddProduct` | pages/AdminDashboard.tsx:128 | 'New Product' opens the modal on the step it was left at. |
| `Admin.AdminDashboard.CloseAddProduct` | pages/AdminDashboard.tsx:490-494 | The backdrop and close button hide the modal and keep the step. |
| `Admin.AdminDashboard.ReviewAndLaunchStep` | pages/AdminDashboard.tsx:514 | 'Review & Launch' moves from step 1 to step 2. |
| `Admin.AdminDashboard.EditMoreStep` | pages/AdminDashboard.tsx:521 | 'Edit More' moves from step 2 back to step 1. |
| `Admin.AdminDashboard.EditName` | pages/AdminDashboard.tsx:502 | The name input replaces only the name. |
| `Admin.AdminDashboard.EditDescription` | pages/AdminDashboard.tsx:513 | The text area replaces only the description. |
| `Admin.AdminDashboard.SaveProduct` | pages/AdminDashboard.tsx:42-47 | 'Go Live' puts the launched product first, closes the modal, returns to step 1 and keeps the form contents. |
| `Admin.AdminDashboard.BeginAIService` | pages/AdminDashboard.tsx:30-31 | With no name entered, the request raises "Enter product name first" and does not start. Otherwise generation is switched on, which disables the "Generate Copy" button, and the form is untouched. |
| `Admin.AdminDashboard.FinishAIService` | pages/AdminDashboard.tsx:32-38 | When the reply arrives it is merged into the form as it is at that moment. A description request replaces only the description, so other edits made meanwhile survive. A SEO request changes nothing. Generation ends switched off. |
| `Admin.AdminDashboard.HandleAIService` | pages/AdminDashboard.tsx:30-40 | For a request answered before any further edit: with no name entered it only raises the alert, leaving the generating flag and the form as they were. Otherwise a description request stores the service's text, and generation ends switched off either way. |
| `Login.MockUser` | pages/LoginPage.tsx:17-22 | The user is always "U1" / "John Doe" and carries the email as entered. The role is ADMIN exactly when the email contains "admin", and USER otherwise. |
| `Login.SignedInRoutes` | pages/LoginPage.tsx:21 | After sign-in `/orders` opens for everybody, and `/admin` opens exactly for emails containing "admin". |
| `Login.AdminEmailFixture` | pages/LoginPage.tsx:21 | "admin@nova.com" signs in as ADMIN. The test is case-sensitive, so "ADMIN@NOVA.COM" signs in as USER. |
| `Login.HandleSubmit` | pages/LoginPage.tsx:14-25 | Submitting stores the mock user once, welcomes "John Doe" and navigates to `/`. The password is never read. |

## Left out

- Rendering, styling, charts, `window.scrollTo` and react-router navigation are not modelled. A navigation is a returned or stored route string. This also covers the display-only components (ProductCard, BottomNav, the wishlist page's markup).
- Timers are not modelled. The toast's 3-second clear, the checkout's 2-second processing delay and the countdown's 1-second interval become explicit events. `Checkout.CheckoutPage.Complete` is the delayed completion and `Home.HomePage.OnTick` is one interval tick. The timer that clears a toast is not modelled, so the last toast stays in `toast`.
- The search-suggestion pipeline in the header is not part of this model. It consists of a 400 ms debounce, a request started once the trimmed query has at least 3 characters, and an external text service. It depends on timers and asynchronous races.
- The AI services are not called. `Admin.AdminDashboard.FinishAIService` takes the text the service returned, whether the generated text or the service's own fallback "Failed to generate description. Please enter manually.". The SEO request changes nothing in the form. The product page's AI tip (`getProductAnalysis`) and its loading flag are not modelled.
- `Admin.AdminDashboard.HandleAIService`: this member covers only a request whose reply arrives before any further edit. An edit made while the request is pending is covered by calling `Admin.AdminDashboard.BeginAIService`, then the edit, then `Admin.AdminDashboard.FinishAIService`. Concurrent requests and a reply that arrives after the modal is closed are not ordered by the model beyond that.
- `Date.now()` as the new product's id is a parameter of `Admin.AdminDashboard.SaveProduct`.
- Money is an exact `real`. JavaScript's floating-point sums, `toFixed(2)` display and the discount percentage `Math.round(...)` are not modelled. `Pricing.Subtotal` sums from the front; with exact reals the order of summation does not matter.
- The price field's `parseFloat` input is not modelled, and neither are the SKU, brand and image inputs (no input exists for them on the form).
- `toLowerCase` is modelled on ASCII letters only; other characters are left as they are.
- A category without `children` and one with an empty list are the same in the model (an empty sequence). The source treats both alike.
- `User` keeps only id, name, email and role. `joinDate`, `status` and `department` are not read by any modelled rule.
- A cart line is `CartItem(product, quantity)`. In the source, `CartItem` extends `Product` with a `quantity` field. The two carry the same information.
- The product page's tabs (Description, Specs, Delivery) and the admin dashboard's other tabs, collapse and mobile menu are pure view state and are not modelled.
- The registration page is not part of this model.
- `toggleWishlist` shows its toast from inside the state updater. The model issues the toast once per call; a second run of the updater (as under React's strict mode) is not modelled.
- `Home.SkinFindsSerum`: search fixtures are stated only for a match. Non-matches over the long fixture descriptions are not proved.
- `Store.CartAfterRemove`: the function's own contract states only the length bound. Its meaning is proved in `Store.CartAfterRemoveMembers`, `Store.CartAfterRemoveAbsent`, `Store.CartAfterRemoveKeepsOrder` and `Store.CartAfterRemoveDropsId`.
- `Store.WishlistWithout`: the function's own contract states only the length bound. Its meaning is proved in `Store.WishlistWithoutMembers`, `Store.WishlistWithoutAbsent`, `Store.WishlistWithoutIds` and `Store.WishlistWithoutKeepsOrder`.
- The countdown's two-digit padded display is not modelled; the clock is three integers.
