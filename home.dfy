/**
 * The catalog page (pages/HomePage.tsx): search and category filtering, the sort selector,
 * the expandable category tree, breadcrumbs, the subcategory grid and the sale countdown.
 */
module Home {
  import opened Util
  import opened Types
  import opened Strings
  import opened ProductSort
  import Catalog

  // --------------------------------------------------------------- search and category filter

  /** The `search` URL parameter, lower-cased; a missing parameter is the empty query. */
  function SearchQuery(param: Option<string>): (q: string)
    ensures param.None? ==> q == ""
    ensures param.Some? ==> |q| == |param.value|
    ensures forall i :: 0 <= i < |q| ==> !IsUpper(q[i])
    ensures param.Some? ==> forall i :: 0 <= i < |q| && !IsUpper(param.value[i]) ==> q[i] == param.value[i]
  {
    match param
    case None => ""
    case Some(s) => Lower(s)
  }

  /** The search test: the lower-cased name or description includes the query. */
  predicate MatchesSearch(p: Product, query: string) {
    Contains(Lower(p.name), query) || Contains(Lower(p.description), query)
  }

  /** The category test: nothing selected, or the selection's name is the category or subcategory. */
  predicate MatchesCategory(p: Product, selected: Option<Category>) {
    selected.None? || p.category == selected.value.name || p.subCategory == Some(selected.value.name)
  }

  predicate Keep(p: Product, query: string, selected: Option<Category>) {
    MatchesSearch(p, query) && MatchesCategory(p, selected)
  }

  /** The `MOCK_PRODUCTS.filter(...)` step: exactly the products passing both tests. */
  function FilterCatalog(ps: seq<Product>, query: string, selected: Option<Category>): (r: seq<Product>)
    ensures forall p :: p in r <==> p in ps && Keep(p, query, selected)
    ensures forall p :: multiset(r)[p] == if Keep(p, query, selected) then multiset(ps)[p] else 0
    ensures |r| <= |ps|
    decreases |ps|
  {
    if ps == [] then []
    else
      var rest := FilterCatalog(ps[1..], query, selected);
      assert ps == [ps[0]] + ps[1..];
      assert multiset(ps) == multiset{ps[0]} + multiset(ps[1..]);
      if Keep(ps[0], query, selected) then [ps[0]] + rest else rest
  }

  /** The filter keeps catalog order. */
  lemma {:induction false} FilterKeepsOrder(ps: seq<Product>, query: string, selected: Option<Category>)
    ensures IsSubsequence(FilterCatalog(ps, query, selected), ps)
    decreases |ps|
  {
    if ps != [] {
      FilterKeepsOrder(ps[1..], query, selected);
      assert ps == [ps[0]] + ps[1..];
      if Keep(ps[0], query, selected) {
        SubsequenceKeep(ps[0], FilterCatalog(ps[1..], query, selected), ps[1..]);
      } else {
        SubsequenceSkip(ps[0], FilterCatalog(ps[1..], query, selected), ps[1..]);
      }
    }
  }

  lemma IncludesEmpty(hay: string)
    ensures Contains(hay, "")
  {
    assert OccursAt("", hay, 0);
  }

  /** With the empty query and no category, the whole catalog is listed. */
  lemma {:induction false} EmptyQueryKeepsAll(ps: seq<Product>)
    ensures FilterCatalog(ps, "", None) == ps
    decreases |ps|
  {
    if ps != [] {
      IncludesEmpty(Lower(ps[0].name));
      EmptyQueryKeepsAll(ps[1..]);
      assert ps == [ps[0]] + ps[1..];
    }
  }

  /** Searching is case-insensitive: a query that differs only in letter case lists the same products. */
  lemma SearchIgnoresCase(param: string)
    ensures SearchQuery(Some(param)) == SearchQuery(Some(Lower(param)))
  {
    LowerIdempotent(param);
  }

  // --------------------------------------------------------------- filter then sort

  /**
   * `filteredProducts`: the filtered catalog, sorted in place for the three sort labels and left
   * in catalog order for 'Featured' and any other label.
   */
  method FilteredProducts(ps: seq<Product>, query: string, selected: Option<Category>, sortBy: string)
    returns (r: seq<Product>)
    ensures r == StableSort(ParseSortKey(sortBy), FilterCatalog(ps, query, selected))
  {
    var f := FilterCatalog(ps, query, selected);
    var a := new Product[|f|](i requires 0 <= i < |f| => f[i]);
    assert a[..] == f;
    var k := ParseSortKey(sortBy);
    if k != Featured {
      SortInPlace(a, k);
    } else {
      FeaturedKeepsOrder(f);
    }
    r := a[..];
  }

  /**
   * What the listing promises for every sort label: exactly the matching products, ordered by the
   * label's key, equal keys in catalog order; 'Featured' keeps catalog order outright.
   */
  lemma ListingProperties(ps: seq<Product>, query: string, selected: Option<Category>, k: SortKey, v: real)
    ensures var f := FilterCatalog(ps, query, selected);
      var r := StableSort(k, f);
      multiset(r) == multiset(f) &&
      (forall p :: p in r <==> p in ps && Keep(p, query, selected)) &&
      (forall p :: multiset(r)[p] == if Keep(p, query, selected) then multiset(ps)[p] else 0) &&
      SortedBy(k, r) &&
      EqualKey(k, r, v) == EqualKey(k, f, v) &&
      (k == Featured ==> r == f && IsSubsequence(r, ps))
  {
    var f := FilterCatalog(ps, query, selected);
    StableSortSorts(k, f);
    StableSortIsStable(k, f, v);
    FilterKeepsOrder(ps, query, selected);
    FeaturedKeepsOrder(f);
    forall p
      ensures p in StableSort(k, f) <==> p in f
    {
      assert p in StableSort(k, f) <==> p in multiset(StableSort(k, f));
      assert p in f <==> p in multiset(f);
    }
  }

  // --------------------------------------------------------------- fixture listings

  /** Selecting the 'Audio' subcategory lists only the headphones. */
  lemma AudioSelection()
    ensures FilterCatalog(Catalog.MockProducts, "", Some(Catalog.Audio)) == [Catalog.Headphones]
  {
    var ps := Catalog.MockProducts;
    var sel := Some(Catalog.Audio);
    IncludesEmpty(Lower(Catalog.Headphones.name));
    assert Keep(Catalog.Headphones, "", sel);
    assert !Keep(Catalog.Tee, "", sel);
    assert !Keep(Catalog.Serum, "", sel);
    assert ps[1..] == [Catalog.Tee, Catalog.Serum] && ps[1..][1..] == [Catalog.Serum];
    assert FilterCatalog([Catalog.Serum], "", sel) == [];
    assert FilterCatalog(ps[1..], "", sel) == [];
  }

  /** The search 'SKIN' matches the serum through its description, whatever the letter case. */
  lemma SkinFindsSerum()
    ensures Keep(Catalog.Serum, SearchQuery(Some("SKIN")), None)
  {
    assert SearchQuery(Some("SKIN")) == "skin";
    assert Lower(Catalog.Serum.description)[50..54] == "skin";
    assert OccursAt("skin", Lower(Catalog.Serum.description), 50);
  }

  /** Three products priced in descending order come out reversed under 'Price: Low to High'. */
  lemma ReversedByPrice(a: Product, b: Product, c: Product)
    requires a.price > b.price > c.price
    ensures StableSort(PriceLowToHigh, [a, b, c]) == [c, b, a]
  {
    var k := PriceLowToHigh;
    var ps := [a, b, c];
    assert ps[..1] == [a] && ps[..2] == [a, b] && ps[..2][..1] == [a] && [a][..0] == [];
    assert StableSort(k, [a]) == [a];
    assert [a][..0] == [] && [b, a][..1] == [b] && [b][..0] == [];
    assert Insert(k, [a], b) == [b, a];
    assert StableSort(k, [a, b]) == [b, a];
    assert Insert(k, [b], c) == [c, b];
    assert Insert(k, [b, a], c) == [c, b, a];
  }

  /** The fixture catalog sorted by price: serum 34, tee 45, headphones 299. */
  lemma PriceAscendingFixture()
    ensures StableSort(PriceLowToHigh, Catalog.MockProducts) == [Catalog.Serum, Catalog.Tee, Catalog.Headphones]
  {
    ReversedByPrice(Catalog.Headphones, Catalog.Tee, Catalog.Serum);
  }

  // --------------------------------------------------------------- category tree

  /** The category ids whose children are shown when the page opens. */
  const InitialExpanded: set<string> := {"c1", "c2"}

  /** `toggleExpand`: a copy of the set with `id` removed if present and added otherwise. */
  function ToggleExpand(expanded: set<string>, id: string): (r: set<string>)
    ensures id in r <==> id !in expanded
    ensures forall other :: other != id ==> (other in r <==> other in expanded)
  {
    if id in expanded then expanded - {id} else expanded + {id}
  }

  lemma ToggleExpandTwice(expanded: set<string>, id: string)
    ensures ToggleExpand(ToggleExpand(expanded, id), id) == expanded
  {
  }

  /** One breadcrumb: its label and the selection a click on it restores. */
  datatype Crumb = Crumb(name: string, target: Option<Category>)

  /** `getBreadcrumbs`: 'Home', then the selected category when there is one. */
  function Breadcrumbs(selected: Option<Category>): (r: seq<Crumb>)
    ensures 1 <= |r| <= 2 && r[0] == Crumb("Home", None)
    ensures |r| == 2 <==> selected.Some?
    ensures selected.Some? ==> r[1].name == selected.value.name
    ensures r[|r| - 1].target == selected
  {
    if selected.None? then [Crumb("Home", None)]
    else [Crumb("Home", None), Crumb(selected.value.name, selected)]
  }

  /** The categories the grid offers: the selection's children, or the top level. */
  function VisibleSubcategories(selected: Option<Category>, roots: seq<Category>): seq<Category> {
    if selected.Some? then selected.value.children else roots
  }

  /**
   * `SubCategoryGrid`, rendered only while no search is active; `None` stands for "nothing
   * rendered".
   */
  function SubCategoryGrid(query: string, selected: Option<Category>, roots: seq<Category>): (r: Option<seq<Category>>)
    ensures r.Some? <==> query == "" && VisibleSubcategories(selected, roots) != []
    ensures r.Some? && selected.None? ==> r.value == roots
    ensures r.Some? && selected.Some? ==> r.value == selected.value.children
  {
    if query != "" then None
    else
      var visible := VisibleSubcategories(selected, roots);
      if visible == [] then None else Some(visible)
  }

  /**
   * In the fixture tree, every tile the grid offers under a selection is a direct child of it:
   * it names the selection as parent and sits one level deeper.
   */
  lemma GridOffersChildren(selected: Category, i: int)
    requires selected in Catalog.HierarchicalCategories || selected == Catalog.Audio
    requires 0 <= i < |selected.children|
    ensures var g := SubCategoryGrid("", Some(selected), Catalog.HierarchicalCategories);
      g.Some? && g.value[i].parentId == Some(selected.id) && g.value[i].level == selected.level + 1
  {
    Catalog.FixtureTreeWellFormed();
    if selected == Catalog.Audio {
      assert Catalog.Linked(Catalog.Electronics.children[2]);
    } else {
      var k :| 0 <= k < |Catalog.HierarchicalCategories| && Catalog.HierarchicalCategories[k] == selected;
    }
  }

  // --------------------------------------------------------------- sale countdown

  datatype Clock = Clock(hours: int, mins: int, secs: int)

  predicate ClockValid(c: Clock) {
    c.hours >= 0 && 0 <= c.mins <= 59 && 0 <= c.secs <= 59
  }

  function Seconds(c: Clock): int {
    c.hours * 3600 + c.mins * 60 + c.secs
  }

  /** The countdown when the page opens: 0h 45m 30s. */
  const InitialClock := Clock(0, 45, 30)

  /** The once-a-second updater: borrow from minutes, then hours; stop at zero. */
  function Tick(c: Clock): (r: Clock)
    ensures ClockValid(c) ==> ClockValid(r) && Seconds(r) == Max(0, Seconds(c) - 1)
    ensures c.hours <= 0 && c.mins <= 0 && c.secs <= 0 ==> r == c
  {
    if c.secs > 0 then c.(secs := c.secs - 1)
    else if c.mins > 0 then c.(mins := c.mins - 1, secs := 59)
    else if c.hours > 0 then c.(hours := c.hours - 1, mins := 59, secs := 59)
    else c
  }

  function TickN(c: Clock, n: nat): Clock
    decreases n
  {
    if n == 0 then c else TickN(Tick(c), n - 1)
  }

  /** After `n` seconds the countdown shows `max(0, start - n)` seconds and stays a valid clock. */
  lemma {:induction false} TickNCountsDown(c: Clock, n: nat)
    requires ClockValid(c)
    ensures ClockValid(TickN(c, n))
    ensures Seconds(TickN(c, n)) == Max(0, Seconds(c) - n)
    decreases n
  {
    if n > 0 {
      TickNCountsDown(Tick(c), n - 1);
    }
  }

  /** The sale countdown reaches 0:00:00 after 2730 ticks and stays there. */
  lemma InitialClockRunsOut(n: nat)
    requires n >= 2730
    ensures TickN(InitialClock, n) == Clock(0, 0, 0)
  {
    TickNCountsDown(InitialClock, n);
  }

  // --------------------------------------------------------------- page state

  /** The page's own state: selection, sort label, expanded tree nodes and the countdown. */
  class HomePage {
    var selected: Option<Category>
    var sortBy: string
    var expanded: set<string>
    var timeLeft: Clock

    ghost predicate Valid()
      reads this
    {
      ClockValid(timeLeft)
    }

    constructor ()
      ensures selected == None && sortBy == "Featured" && expanded == InitialExpanded
      ensures timeLeft == InitialClock && Valid()
    {
      selected := None;
      sortBy := "Featured";
      expanded := InitialExpanded;
      timeLeft := InitialClock;
    }

    /** A click on a tree node, a grid tile or a breadcrumb; `None` is 'All Marketplace'. */
    method Select(c: Option<Category>)
      modifies this`selected
      ensures selected == c
    {
      selected := c;
    }

    method SetSortBy(option: string)
      modifies this`sortBy
      ensures sortBy == option
    {
      sortBy := option;
    }

    method Toggle(id: string)
      modifies this`expanded
      ensures expanded == ToggleExpand(old(expanded), id)
    {
      var next := expanded;
      if id in next {
        next := next - {id};
      } else {
        next := next + {id};
      }
      expanded := next;
    }

    method OnTick()
      requires Valid()
      modifies this`timeLeft
      ensures timeLeft == Tick(old(timeLeft)) && Valid()
    {
      timeLeft := Tick(timeLeft);
    }

    /** The listing for the current state and a given `search` parameter. */
    method Listing(ps: seq<Product>, param: Option<string>) returns (r: seq<Product>)
      ensures r == StableSort(ParseSortKey(sortBy), FilterCatalog(ps, SearchQuery(param), selected))
    {
      r := FilteredProducts(ps, SearchQuery(param), selected, sortBy);
    }
  }
}
