/** The marketplace's record types and its fixed category table. Prices are
    integer cents (45.00 is 4500); dates are opaque timestamps, since no code
    of the modelled pages ever computes with them. */
module Types {
  import opened Wrappers

  /** The closed set of category tags, in declaration order. */
  datatype Category =
    | Electronics
    | Clothing
    | HomeGarden
    | Books
    | ToysGames
    | Sports
    | Beauty
    | Furniture
    | Handmade
    | Other

  datatype Condition = New | LikeNew | Good | Fair

  datatype PurchaseStatus = Pending | Completed | Cancelled

  /** A listing. Only `location` is optional; every other field is required. */
  datatype Product = Product(
    id: string,
    userId: string,
    title: string,
    description: string,
    category: Category,
    price: int,
    images: seq<string>,
    condition: Condition,
    location: Option<string>,
    createdAt: int,
    updatedAt: int,
    isSold: bool)

  /** A cart line: a quantity of a product, with a snapshot of the product. */
  datatype CartItem = CartItem(
    id: string,
    productId: string,
    product: Product,
    quantity: int,
    addedAt: int)

  datatype Purchase = Purchase(
    id: string,
    userId: string,
    products: seq<Product>,
    totalAmount: int,
    purchaseDate: int,
    status: PurchaseStatus)

  /** One entry of the category table: a tag and its display label. */
  datatype CategoryOption = CategoryOption(value: Category, displayLabel: string)

  /** The wire tag of a category, as the string-literal union spells it. */
  function Tag(c: Category): string
  {
    match c
    case Electronics => "electronics"
    case Clothing => "clothing"
    case HomeGarden => "home-garden"
    case Books => "books"
    case ToysGames => "toys-games"
    case Sports => "sports"
    case Beauty => "beauty"
    case Furniture => "furniture"
    case Handmade => "handmade"
    case Other => "other"
  }

  /** Membership in the string-literal union: which tag, if any, a string is. */
  function ParseCategory(s: string): (r: Option<Category>)
    ensures r.Some? ==> Tag(r.value) == s
  {
    if s == "electronics" then Some(Electronics)
    else if s == "clothing" then Some(Clothing)
    else if s == "home-garden" then Some(HomeGarden)
    else if s == "books" then Some(Books)
    else if s == "toys-games" then Some(ToysGames)
    else if s == "sports" then Some(Sports)
    else if s == "beauty" then Some(Beauty)
    else if s == "furniture" then Some(Furniture)
    else if s == "handmade" then Some(Handmade)
    else if s == "other" then Some(Other)
    else None
  }

  /** Position of a tag in the declaration of the union type. */
  function Ordinal(c: Category): nat
  {
    match c
    case Electronics => 0
    case Clothing => 1
    case HomeGarden => 2
    case Books => 3
    case ToysGames => 4
    case Sports => 5
    case Beauty => 6
    case Furniture => 7
    case Handmade => 8
    case Other => 9
  }

  /** The number of category tags. */
  const CategoryCount: nat := 10

  /** The category table the selector and the badges use. */
  const CATEGORIES: seq<CategoryOption> := [
    CategoryOption(Electronics, "Electronics"),
    CategoryOption(Clothing, "Clothing & Accessories"),
    CategoryOption(HomeGarden, "Home & Garden"),
    CategoryOption(Books, "Books & Media"),
    CategoryOption(ToysGames, "Toys & Games"),
    CategoryOption(Sports, "Sports & Outdoors"),
    CategoryOption(Beauty, "Beauty & Health"),
    CategoryOption(Furniture, "Furniture"),
    CategoryOption(Handmade, "Handmade & Crafts"),
    CategoryOption(Other, "Other")
  ]

  /** The lookup the table supports: the label of the first entry whose value is `c`, if any. */
  function FindLabel(table: seq<CategoryOption>, c: Category): (r: Option<string>)
    ensures r.None? <==> forall i :: 0 <= i < |table| ==> table[i].value != c
    ensures r.Some? ==> exists i :: 0 <= i < |table| && table[i].value == c && table[i].displayLabel == r.value
                          && forall j :: 0 <= j < i ==> table[j].value != c
    decreases |table|
  {
    if table == [] then None
    else if table[0].value == c then Some(table[0].displayLabel)
    else
      var r := FindLabel(table[1..], c);
      if r.Some? then
        ghost var k :| 0 <= k < |table| - 1 && table[1..][k].value == c && table[1..][k].displayLabel == r.value
                       && forall j :: 0 <= j < k ==> table[1..][j].value != c;
        assert table[k + 1].value == c && table[k + 1].displayLabel == r.value;
        r
      else r
  }

  /** Every tag has a label in the table. */
  function LabelOf(c: Category): (displayLabel: string)
    ensures exists i :: 0 <= i < |CATEGORIES| && CATEGORIES[i] == CategoryOption(c, displayLabel)
  {
    CategoriesListEachTagOnce();
    FindLabel(CATEGORIES, c).value
  }

  /** The table lists the tags in declaration order: entry i holds the tag
      declared i-th, and it has exactly `CategoryCount` entries. */
  lemma CategoriesInDeclarationOrder()
    ensures |CATEGORIES| == CategoryCount
    ensures forall i :: 0 <= i < |CATEGORIES| ==> Ordinal(CATEGORIES[i].value) == i
  {
  }

  /** Every tag occurs in the table (at the position of its declaration), and
      distinct entries carry distinct tags; so each tag occurs exactly once. */
  lemma CategoriesListEachTagOnce()
    ensures forall c: Category :: Ordinal(c) < |CATEGORIES| && CATEGORIES[Ordinal(c)].value == c
    ensures forall i, j :: 0 <= i < |CATEGORIES| && 0 <= j < |CATEGORIES| && i != j ==>
              CATEGORIES[i].value != CATEGORIES[j].value
  {
    CategoriesInDeclarationOrder();
    forall c: Category ensures Ordinal(c) < |CATEGORIES| && CATEGORIES[Ordinal(c)].value == c {
      match c
      case Electronics =>
      case Clothing =>
      case HomeGarden =>
      case Books =>
      case ToysGames =>
      case Sports =>
      case Beauty =>
      case Furniture =>
      case Handmade =>
      case Other =>
    }
  }

  /** Tags name categories one-to-one, and parsing a tag recovers its category. */
  lemma TagRoundTrip(c: Category)
    ensures ParseCategory(Tag(c)) == Some(c)
    ensures forall d: Category :: Tag(d) == Tag(c) ==> d == c
  {
    forall d: Category | Tag(d) == Tag(c) ensures d == c {
      match d
      case Electronics => assert ParseCategory(Tag(d)) == Some(d);
      case Clothing => assert ParseCategory(Tag(d)) == Some(d);
      case HomeGarden => assert ParseCategory(Tag(d)) == Some(d);
      case Books => assert ParseCategory(Tag(d)) == Some(d);
      case ToysGames => assert ParseCategory(Tag(d)) == Some(d);
      case Sports => assert ParseCategory(Tag(d)) == Some(d);
      case Beauty => assert ParseCategory(Tag(d)) == Some(d);
      case Furniture => assert ParseCategory(Tag(d)) == Some(d);
      case Handmade => assert ParseCategory(Tag(d)) == Some(d);
      case Other => assert ParseCategory(Tag(d)) == Some(d);
    }
  }

  /** The lookup returns the label of the first entry carrying the tag. */
  lemma FindLabelFirst(table: seq<CategoryOption>, c: Category, i: int)
    requires 0 <= i < |table| && table[i].value == c
    requires forall j :: 0 <= j < i ==> table[j].value != c
    ensures FindLabel(table, c) == Some(table[i].displayLabel)
  {
    var r := FindLabel(table, c);
    var k :| 0 <= k < |table| && table[k].value == c && table[k].displayLabel == r.value
             && forall j :: 0 <= j < k ==> table[j].value != c;
    assert k == i;
  }

  /** Two sample lookups in the table. */
  lemma LabelExamples()
    ensures LabelOf(HomeGarden) == "Home & Garden"
    ensures LabelOf(Other) == "Other"
  {
    CategoriesInDeclarationOrder();
    FindLabelFirst(CATEGORIES, HomeGarden, 2);
    FindLabelFirst(CATEGORIES, Other, 9);
  }
}
