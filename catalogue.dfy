/** The catalogue filter of the products page (app/products/page.tsx). */
module Catalogue {
  import Seqs
  import Text

  /** A catalogue entry; prices are whole cents. */
  datatype Product = Product(id: int, name: string, category: string, price: int, inStock: bool, featured: bool)

  /** The category button that selects every product. */
  const AllProducts: string := "All Products"

  /** The category buttons, in display order. */
  const Categories: seq<string> := [
    AllProducts, "Fashion & Beauty", "Agriculture & Food", "Technology",
    "Trade & Logistics", "Business Consulting"]

  /** The products the page lists; prices in cents. */
  const Products: seq<Product> := [
    Product(1, "Designer Leather Bag", "Fashion & Beauty", 29999, true, true),
    Product(2, "Premium Organic Coffee", "Agriculture & Food", 2499, true, true),
    Product(3, "Cloud Hosting Package", "Technology", 9999, true, false),
    Product(4, "Luxury Skincare Set", "Fashion & Beauty", 14999, true, true),
    Product(5, "Fresh Produce Box", "Agriculture & Food", 3999, true, false),
    Product(6, "Business Consulting Package", "Business Consulting", 49999, true, true)]

  /** `selectedCategory === 'All Products' || product.category === selectedCategory`. */
  function MatchesCategory(p: Product, selected: string): (r: bool)
    ensures selected == AllProducts ==> r
    ensures selected != AllProducts ==> (r <==> p.category == selected)
  {
    selected == AllProducts || p.category == selected
  }

  /** `product.name.toLowerCase().includes(searchQuery.toLowerCase())`. */
  function MatchesSearch(p: Product, query: string): (r: bool)
    ensures r <==> exists i :: Text.OccursAt(Text.Lower(p.name), Text.Lower(query), i)
    ensures query == "" ==> r
  {
    Text.IncludesIffOccurs(Text.Lower(p.name), Text.Lower(query));
    Text.Includes(Text.Lower(p.name), Text.Lower(query))
  }

  /**
   * `filteredProducts`: the products passing both the category and the search test,
   * in catalogue order.
   */
  function FilterProducts(products: seq<Product>, selected: string, query: string): (r: seq<Product>)
    ensures Seqs.IsSubseq(r, products)
    ensures forall p :: p in r <==> p in products && MatchesCategory(p, selected) && MatchesSearch(p, query)
    ensures forall p ::
      multiset(r)[p] == (if MatchesCategory(p, selected) && MatchesSearch(p, query) then multiset(products)[p] else 0)
  {
    var keep := (p: Product) => MatchesCategory(p, selected) && MatchesSearch(p, query);
    Seqs.FilterMembership(keep, products);
    Seqs.Filter(keep, products)
  }

  /** The initial view (all categories, empty search) lists the whole catalogue. */
  lemma UnfilteredCatalogue(products: seq<Product>)
    ensures FilterProducts(products, AllProducts, "") == products
  {
    var keep := (p: Product) => MatchesCategory(p, AllProducts) && MatchesSearch(p, "");
    forall i | 0 <= i < |products| ensures keep(products[i]) {
      Text.IncludesEmpty(Text.Lower(products[i].name));
    }
    Seqs.FilterKeepsAll(keep, products);
  }

  /**
   * The search is a substring test on the lowered name, whatever the case of either
   * side: it holds exactly when the lowered query occurs in the lowered name.
   */
  lemma SearchIsCaseInsensitiveSubstring(p: Product, query: string)
    ensures MatchesSearch(p, query) <==> exists i :: Text.OccursAt(Text.Lower(p.name), Text.Lower(query), i)
    ensures MatchesSearch(p, query) <==> MatchesSearch(p.(name := Text.Lower(p.name)), Text.Lower(query))
  {
    Text.IncludesIffOccurs(Text.Lower(p.name), Text.Lower(query));
    Text.LowerIdempotent(p.name);
    Text.LowerIdempotent(query);
  }

  /** `Trade & Logistics` is offered as a category, but no listed product carries it, whatever the search. */
  lemma TradeListsNothing(query: string)
    ensures "Trade & Logistics" in Categories
    ensures FilterProducts(Products, "Trade & Logistics", query) == []
  {
    assert Categories[4] == "Trade & Logistics";
    var keep := (p: Product) => MatchesCategory(p, "Trade & Logistics") && MatchesSearch(p, query);
    forall i | 0 <= i < |Products| ensures !keep(Products[i]) {
    }
    Seqs.FilterDropsAll(keep, Products);
  }
}
