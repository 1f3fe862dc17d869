/** The in-memory fixtures the storefront starts from (constants.tsx). */
module Catalog {
  import opened Util
  import opened Types

  const Headphones := Product(
    "1", "ZEN-AUDIO-001", "Zenith Pro Wireless Headphones", "Zenith",
    "High-fidelity audio with active noise cancellation and 40-hour battery life.",
    299.0, Some(349.0), "Electronics", Some("Audio"),
    "https://images.unsplash.com/photo-1505740420928-5e560c06d30e?w=800&q=80", None,
    4.8, 1240, 15, true, Published)

  const Tee := Product(
    "2", "LUXE-TEE-099", "Luxe Cotton Minimalist Tee", "NovaBasics",
    "100% organic cotton, breathable, and perfect for every season.",
    45.0, Some(55.0), "Fashion", Some("Menswear"),
    "https://images.unsplash.com/photo-1521572267360-ee0c2909d518?w=800&q=80", None,
    4.5, 850, 100, false, Published)

  const Serum := Product(
    "4", "GLOW-SERUM-01", "Vitamin C Radiance Serum", "GlowLabs",
    "Advanced antioxidant formula for brighter, firmer skin.",
    34.0, Some(42.0), "Beauty", Some("Skincare"),
    "https://images.unsplash.com/photo-1620916566398-39f1143ab7be?w=800&q=80", None,
    4.7, 4200, 85, true, Published)

  /** MOCK_PRODUCTS */
  const MockProducts: seq<Product> := [Headphones, Tee, Serum]

  function Leaf(id: string, name: string, slug: string, parent: string, level: int): Category {
    Category(id, name, slug, Some(parent), level, [])
  }

  function Root(id: string, name: string, slug: string, children: seq<Category>): Category {
    Category(id, name, slug, None, 1, children)
  }

  const Audio := Category("c1-3", "Audio", "audio", Some("c1"), 2, [
    Leaf("c1-3-1", "Headphones", "headphones", "c1-3", 3),
    Leaf("c1-3-2", "Speakers", "speakers", "c1-3", 3)])

  const Electronics := Root("c1", "Electronics", "electronics", [
    Leaf("c1-1", "Mobiles", "mobiles", "c1", 2),
    Leaf("c1-2", "Laptops", "laptops", "c1", 2),
    Audio])

  const Fashion := Root("c2", "Fashion", "fashion", [
    Leaf("c2-1", "Menswear", "menswear", "c2", 2),
    Leaf("c2-2", "Womenswear", "womenswear", "c2", 2)])

  const Beauty := Root("c3", "Beauty", "beauty", [
    Leaf("c3-1", "Skincare", "skincare", "c3", 2),
    Leaf("c3-2", "Makeup", "makeup", "c3", 2)])

  const HomeKitchen := Root("c4", "Home & Kitchen", "home-kitchen", [])

  /** HIERARCHICAL_CATEGORIES: the top-level categories in display order. */
  const HierarchicalCategories: seq<Category> := [
    Electronics, Fashion, Beauty, HomeKitchen,
    Root("c5", "Health", "health", []),
    Root("c6", "Groceries", "groceries", []),
    Root("c7", "Toys & Baby", "toys-baby", []),
    Root("c8", "Sports", "sports", []),
    Root("c9", "Books", "books", []),
    Root("c10", "Automotive", "automotive", [])]

  /** MOCK_ORDERS */
  const MockOrders: seq<Order> := [
    Order("ORD-001", "Sarah Wilson", "sarah@example.com", "Zenith Pro Headphones", 299.0, Delivered, "2024-10-14")]

  /** Every child names its parent in `parentId` and sits one level below it. */
  predicate Linked(c: Category)
    decreases c
  {
    forall i :: 0 <= i < |c.children| ==>
      c.children[i].parentId == Some(c.id) && c.children[i].level == c.level + 1 && Linked(c.children[i])
  }

  /** A forest of top-level categories: level 1, no parent, and linked below. */
  predicate WellFormedForest(roots: seq<Category>) {
    forall i :: 0 <= i < |roots| ==> roots[i].level == 1 && roots[i].parentId.None? && Linked(roots[i])
  }

  lemma FixtureTreeWellFormed()
    ensures WellFormedForest(HierarchicalCategories)
  {
    assert Linked(Audio) by {
      assert Linked(Audio.children[0]) && Linked(Audio.children[1]);
    }
    assert Linked(Electronics) by {
      assert Linked(Electronics.children[0]) && Linked(Electronics.children[1]);
    }
    assert Linked(Fashion) by {
      assert Linked(Fashion.children[0]) && Linked(Fashion.children[1]);
    }
    assert Linked(Beauty) by {
      assert Linked(Beauty.children[0]) && Linked(Beauty.children[1]);
    }
  }
}
