/** The "Browse Products" page: a search box and a category selector narrow
    the product list; the visible list is recomputed whenever either changes. */
module Catalog {
  import opened Wrappers
  import opened Types
  import opened Seqs
  import opened Text

  /** The category selector: "all" or one tag. */
  datatype CategoryFilter = AllCategories | Only(category: Category)

  /** Case-insensitive substring match of the query against title or description. */
  predicate TextMatches(product: Product, query: string)
  {
    Contains(ToLower(product.title), ToLower(query))
    || Contains(ToLower(product.description), ToLower(query))
  }

  function MatchesQuery(query: string): Product -> bool
  {
    (product: Product) => TextMatches(product, query)
  }

  function InCategory(category: Category): Product -> bool
  {
    (product: Product) => product.category == category
  }

  /** The filter effect: narrow by the query when it is non-empty (a
      whitespace-only query is non-empty), then by the category unless it is "all". */
  function FilterProducts(products: seq<Product>, searchQuery: string, selectedCategory: CategoryFilter): seq<Product>
  {
    var byQuery := if searchQuery != "" then Filter(products, MatchesQuery(searchQuery)) else products;
    if selectedCategory != AllCategories then Filter(byQuery, InCategory(selectedCategory.category)) else byQuery
  }

  /** The selection rule stated once: the query test (skipped for the empty
      query) AND the category test (skipped for "all"). */
  predicate Selected(product: Product, searchQuery: string, selectedCategory: CategoryFilter)
  {
    (searchQuery == "" || TextMatches(product, searchQuery))
    && (selectedCategory == AllCategories || product.category == selectedCategory.category)
  }

  function SelectedBy(searchQuery: string, selectedCategory: CategoryFilter): Product -> bool
  {
    (product: Product) => Selected(product, searchQuery, selectedCategory)
  }

  /** The two-step filter is one stable filter by the selection rule. */
  lemma FilterIsSingleSelection(products: seq<Product>, searchQuery: string, selectedCategory: CategoryFilter)
    ensures FilterProducts(products, searchQuery, selectedCategory)
            == Filter(products, SelectedBy(searchQuery, selectedCategory))
  {
    var sel := SelectedBy(searchQuery, selectedCategory);
    if searchQuery != "" {
      if selectedCategory != AllCategories {
        FilterThenFilter(products, MatchesQuery(searchQuery), InCategory(selectedCategory.category), sel);
      } else {
        FilterCongruent(products, MatchesQuery(searchQuery), sel);
      }
    } else {
      if selectedCategory != AllCategories {
        FilterCongruent(products, InCategory(selectedCategory.category), sel);
      } else {
        FilterKeepsAll(products, sel);
      }
    }
  }

  /** What the visible list is: an order-preserving subsequence of the
      products, holding exactly the products the selection rule accepts;
      with a category chosen, every product shown has that category. */
  lemma FilterSelectsExactly(products: seq<Product>, searchQuery: string, selectedCategory: CategoryFilter)
    ensures Subsequence(FilterProducts(products, searchQuery, selectedCategory), products)
    ensures forall x :: x in FilterProducts(products, searchQuery, selectedCategory)
              <==> x in products && Selected(x, searchQuery, selectedCategory)
    ensures selectedCategory != AllCategories ==>
              forall x :: x in FilterProducts(products, searchQuery, selectedCategory) ==>
                x.category == selectedCategory.category
  {
    FilterIsSingleSelection(products, searchQuery, selectedCategory);
    var r := FilterProducts(products, searchQuery, selectedCategory);
    forall x ensures x in r <==> x in products && Selected(x, searchQuery, selectedCategory) {
      if x in products && Selected(x, searchQuery, selectedCategory) {
        var i :| 0 <= i < |products| && products[i] == x;
        assert SelectedBy(searchQuery, selectedCategory)(products[i]);
      }
      if x in r {
        var i :| 0 <= i < |r| && r[i] == x;
        assert SelectedBy(searchQuery, selectedCategory)(r[i]);
      }
    }
  }

  /** With no query and category "all" every product is shown, in order. */
  lemma NoCriteriaShowsAll(products: seq<Product>)
    ensures FilterProducts(products, "", AllCategories) == products
  {
  }

  /** The query is matched case-insensitively: upper-casing it changes nothing. */
  lemma QueryCaseIgnored(products: seq<Product>, searchQuery: string, selectedCategory: CategoryFilter)
    ensures FilterProducts(products, ToUpper(searchQuery), selectedCategory)
            == FilterProducts(products, searchQuery, selectedCategory)
  {
    LowerIgnoresCase(searchQuery);
    if searchQuery != "" {
      assert ToUpper(searchQuery) != "" by { assert |ToUpper(searchQuery)| == |searchQuery|; }
      FilterCongruent(products, MatchesQuery(ToUpper(searchQuery)), MatchesQuery(searchQuery));
    } else {
      assert ToUpper(searchQuery) == "";
    }
  }

  /** A single space is a real query: it keeps exactly the products whose
      title or description contains a space, instead of matching everything. */
  lemma SpaceQueryIsLiteral(product: Product)
    ensures FilterProducts([product], " ", AllCategories) == [product]
            <==> ' ' in product.title || ' ' in product.description
    ensures FilterProducts([product], " ", AllCategories) == []
            <==> ' ' !in product.title && ' ' !in product.description
  {
    SpaceOccurs(product.title);
    SpaceOccurs(product.description);
    assert ToLower(" ") == " ";
  }

  /** A space occurs in the lower-cased string iff it occurs in the string. */
  lemma SpaceOccurs(s: string)
    ensures Contains(ToLower(s), " ") <==> ' ' in s
  {
    var low := ToLower(s);
    if ' ' in s {
      var i :| 0 <= i < |s| && s[i] == ' ';
      assert low[i..i + 1] == " ";
      assert OccursAt(low, " ", i);
    }
    if Contains(low, " ") {
      var i: nat :| OccursAt(low, " ", i);
      assert low[i] == " "[0];
      assert s[i] == ' ';
    }
  }

  /** A needle with a character the haystack lacks does not occur in it. */
  lemma MissingCharRulesOut(hay: string, needle: string, c: char)
    requires c in needle && c !in hay
    ensures !Contains(hay, needle)
  {
    var k :| 0 <= k < |needle| && needle[k] == c;
    forall i: nat ensures !OccursAt(hay, needle, i) {
      if i + |needle| <= |hay| {
        assert hay[i..i + |needle|][k] == hay[i + k] != c;
      }
    }
  }

  /** Lower-casing cannot produce a small letter unless the string holds it in either case. */
  lemma LowerLacks(s: string, small: char, capital: char)
    requires 'a' <= small <= 'z' && capital as int == small as int - 32
    requires small !in s && capital !in s
    ensures small !in ToLower(s)
  {
    forall i | 0 <= i < |s| ensures ToLower(s)[i] != small {
      assert s[i] != small && s[i] != capital;
    }
  }

  // The titles and descriptions of the first and third seed products.
  const BackpackTitle: string := "Vintage " + "Leather " + "Backpack"
  const BackpackDescription: string :=
    "Beautiful " + "handcrafted " + "leather " + "backpack " + "in " + "excellent " + "condition"
  const ToteBagsTitle: string := "Organic " + "Cotton " + "Tote " + "Bags " + "(Set of 5)"
  const ToteBagsDescription: string :=
    "Reusable " + "organic " + "cotton " + "bags, " + "perfect " + "for " + "shopping"

  const Backpack: Product := Product(
    "1", "user1", BackpackTitle, BackpackDescription,
    Clothing, 4500, ["/api/placeholder/400/400"], LikeNew, Some("San Francisco, CA"), 0, 0, false)

  const BambooSet: Product := Product(
    "2", "user2", "Bamboo" + " Kitchen Set", "Eco-friendly bamboo kitchen utensils, never used",
    HomeGarden, 2850, ["/api/placeholder/400/400"], New, Some("Portland, OR"), 0, 0, false)

  const ToteBags: Product := Product(
    "3", "user3", ToteBagsTitle, ToteBagsDescription,
    Handmade, 1500, ["/api/placeholder/400/400"], New, Some("Austin, TX"), 0, 0, false)

  /** The products the page starts with. */
  const SeedProducts: seq<Product> := [Backpack, BambooSet, ToteBags]

  /** A product whose title and description lack the letter m in either case does not match "bamboo". */
  lemma NoBambooWithoutM(product: Product)
    requires 'm' !in product.title && 'M' !in product.title
    requires 'm' !in product.description && 'M' !in product.description
    ensures !TextMatches(product, "bamboo")
  {
    assert ToLower("bamboo") == "bamboo";
    LowerLacks(product.title, 'm', 'M');
    LowerLacks(product.description, 'm', 'M');
    MissingCharRulesOut(ToLower(product.title), "bamboo", 'm');
    MissingCharRulesOut(ToLower(product.description), "bamboo", 'm');
  }

  /** Which seed products match the query "bamboo". */
  lemma SeedBambooMatches()
    ensures !TextMatches(Backpack, "bamboo")
    ensures TextMatches(BambooSet, "bamboo")
    ensures !TextMatches(ToteBags, "bamboo")
  {
    SeedTextsLackM();
    NoBambooWithoutM(Backpack);
    NoBambooWithoutM(ToteBags);
    BambooTitleMatches();
  }

  lemma BambooTitleMatches()
    ensures Contains(ToLower(BambooSet.title), ToLower("bamboo"))
  {
    LowerAppend("Bamboo", " Kitchen Set");
    BambooLower();
    PrefixOccurs("bamboo", ToLower(" Kitchen Set"));
  }

  lemma BambooLower()
    ensures ToLower("Bamboo") == "bamboo" && ToLower("bamboo") == "bamboo"
  {
  }

  /** A string occurs at the start of any extension of it. */
  lemma PrefixOccurs(a: string, b: string)
    ensures Contains(a + b, a)
  {
    assert OccursAt(a + b, a, 0);
  }

  /** The letter m, in either case, occurs in no text of the two other seed products. */
  lemma SeedTextsLackM()
    ensures 'm' !in Backpack.title && 'M' !in Backpack.title
    ensures 'm' !in Backpack.description && 'M' !in Backpack.description
    ensures 'm' !in ToteBags.title && 'M' !in ToteBags.title
    ensures 'm' !in ToteBags.description && 'M' !in ToteBags.description
  {
    BackpackTitleLacksM();
    BackpackDescriptionLacksM();
    ToteBagsTitleLacksM();
    ToteBagsDescriptionLacksM();
  }

  lemma BackpackTitleLacksM()
    ensures 'm' !in BackpackTitle && 'M' !in BackpackTitle
  {
  }

  lemma BackpackDescriptionLacksM()
    ensures 'm' !in BackpackDescription && 'M' !in BackpackDescription
  {
  }

  lemma ToteBagsTitleLacksM()
    ensures 'm' !in ToteBagsTitle && 'M' !in ToteBagsTitle
  {
  }

  lemma ToteBagsDescriptionLacksM()
    ensures 'm' !in ToteBagsDescription && 'M' !in ToteBagsDescription
  {
  }

  /** Searching the seed products for "bamboo" in all categories finds only the kitchen set. */
  lemma BambooSearch()
    ensures FilterProducts(SeedProducts, "bamboo", AllCategories) == [BambooSet]
  {
    SeedBambooMatches();
    FilterMiddleOfThree(Backpack, BambooSet, ToteBags, MatchesQuery("bamboo"));
  }

  /** Filtering three elements of which only the middle one passes keeps just that one. */
  lemma FilterMiddleOfThree<T>(a: T, b: T, c: T, p: T -> bool)
    requires !p(a) && p(b) && !p(c)
    ensures Filter([a, b, c], p) == [b]
  {
    assert [a, b, c][1..] == [b, c];
    assert [b, c][1..] == [c];
    assert [c][1..] == [];
  }

  /** The page's state. `products` has a setter that nothing calls. */
  class ProductsPage {
    var products: seq<Product>
    var filteredProducts: seq<Product>
    var searchQuery: string
    var selectedCategory: CategoryFilter

    /** The effect has run: the visible list matches the current criteria. */
    ghost predicate Valid()
      reads this
    {
      filteredProducts == FilterProducts(products, searchQuery, selectedCategory)
    }

    constructor ()
      ensures Valid()
      ensures products == SeedProducts && filteredProducts == SeedProducts
      ensures searchQuery == "" && selectedCategory == AllCategories
    {
      products := SeedProducts;
      filteredProducts := SeedProducts;
      searchQuery := "";
      selectedCategory := AllCategories;
      NoCriteriaShowsAll(SeedProducts);
    }

    /** The filter effect, re-run after each change of its dependencies. */
    method RefreshFiltered()
      modifies this
      ensures Valid()
      ensures products == old(products) && searchQuery == old(searchQuery)
      ensures selectedCategory == old(selectedCategory)
    {
      filteredProducts := FilterProducts(products, searchQuery, selectedCategory);
    }

    /** The `search` URL parameter (absent, empty or a string): a non-empty
        one replaces the query; otherwise the query is kept. */
    method ApplySearchParam(search: Option<string>)
      modifies this
      ensures Valid()
      ensures searchQuery == if search.Some? && search.value != "" then search.value else old(searchQuery)
      ensures products == old(products) && selectedCategory == old(selectedCategory)
    {
      var param := if search.Some? then search.value else "";
      if param != "" {
        searchQuery := param;
      }
      RefreshFiltered();
    }

    /** Typing in the search box. */
    method SetSearchQuery(query: string)
      modifies this
      ensures Valid()
      ensures searchQuery == query
      ensures products == old(products) && selectedCategory == old(selectedCategory)
    {
      searchQuery := query;
      RefreshFiltered();
    }

    /** Choosing an entry of the category selector. */
    method SelectCategory(category: CategoryFilter)
      modifies this
      ensures Valid()
      ensures selectedCategory == category
      ensures products == old(products) && searchQuery == old(searchQuery)
    {
      selectedCategory := category;
      RefreshFiltered();
    }

    /** "Clear Filters": empty query and category "all", so every product shows again. */
    method ClearFilters()
      modifies this
      ensures Valid()
      ensures searchQuery == "" && selectedCategory == AllCategories
      ensures products == old(products) && filteredProducts == products
    {
      searchQuery := "";
      selectedCategory := AllCategories;
      RefreshFiltered();
      NoCriteriaShowsAll(products);
    }
  }
}
