/** The purchase-history page: a fixed list of past orders, and the rules
    that decide what each order card shows. */
module Purchases {
  import opened Wrappers
  import opened Types

  /** The badge styles a status can be drawn with. */
  datatype BadgeVariant = Default | Secondary | Destructive | Outline

  /** `getStatusColor`. Every status has its own variant, so the fallback
      "outline" is never chosen. */
  function StatusColor(status: PurchaseStatus): (r: BadgeVariant)
    ensures r != Outline
    ensures r == Default <==> status == Completed
    ensures r == Secondary <==> status == Pending
    ensures r == Destructive <==> status == Cancelled
  {
    match status
    case Completed => Default
    case Pending => Secondary
    case Cancelled => Destructive
  }

  /** Distinct statuses are drawn differently. */
  lemma StatusColorInjective(s: PurchaseStatus, t: PurchaseStatus)
    ensures StatusColor(s) == StatusColor(t) ==> s == t
  {
  }

  /** The character for a digit 0..9. */
  function DigitChar(d: nat): char
    requires d < 10
  {
    ('0' as int + d) as char
  }

  /** The value of a digit character. */
  function DigitValue(c: char): nat
    requires '0' <= c <= '9'
  {
    c as int - '0' as int
  }

  /** Whether every character is a decimal digit. */
  predicate AllDigits(s: string)
  {
    forall i :: 0 <= i < |s| ==> '0' <= s[i] <= '9'
  }

  /** The number a string of decimal digits denotes, most significant first. */
  function DecimalValue(s: string): nat
    requires AllDigits(s)
    decreases |s|
  {
    if s == [] then 0 else DecimalValue(s[..|s| - 1]) * 10 + DigitValue(s[|s| - 1])
  }

  /** How JSX writes a count: its decimal digits, without leading zeros. */
  function NatToString(n: nat): (s: string)
    ensures |s| >= 1 && AllDigits(s)
    ensures |s| > 1 ==> s[0] != '0'
    decreases n
  {
    if n < 10 then [DigitChar(n)] else NatToString(n / 10) + [DigitChar(n % 10)]
  }

  /** Reading back the written count gives the count. */
  lemma {:induction false} NatToStringRoundTrip(n: nat)
    ensures DecimalValue(NatToString(n)) == n
    decreases n
  {
    if n >= 10 {
      NatToStringRoundTrip(n / 10);
      var s := NatToString(n);
      assert s[..|s| - 1] == NatToString(n / 10);
    }
  }

  /** `{n} item{n > 1 ? "s" : ""}`. */
  function ItemCountLabel(n: nat): (text: string)
    ensures |text| >= 1
  {
    NatToString(n) + " item" + (if n > 1 then "s" else "")
  }

  /** The label is the count, then " item", then an "s" exactly when the count exceeds one. */
  lemma ItemCountLabelParts(n: nat)
    ensures var text := ItemCountLabel(n);
            var digits := NatToString(n);
            |text| == |digits| + 5 + (if n > 1 then 1 else 0)
            && text[..|digits|] == digits
            && DecimalValue(text[..|digits|]) == n
            && text[|digits|..|digits| + 5] == " item"
            && (text[|text| - 1] == 's' <==> n > 1)
  {
    NatToStringRoundTrip(n);
    var digits := NatToString(n);
    var text := ItemCountLabel(n);
    assert text[..|digits|] == digits;
    assert text[|digits|..|digits| + 5] == " item";
  }

  /** Zero, one and two products. */
  lemma ItemCountExamples()
    ensures ItemCountLabel(0) == "0 item"
    ensures ItemCountLabel(1) == "1 item"
    ensures ItemCountLabel(2) == "2 items"
    ensures ItemCountLabel(12) == "12 items"
  {
    assert NatToString(12) == NatToString(1) + [DigitChar(2)];
  }

  /** The "Leave Review" button appears only on completed orders. */
  function ShowsLeaveReview(purchase: Purchase): bool
  {
    purchase.status == Completed
  }

  /** The Leave Review button appears exactly on the orders drawn with the default badge. */
  lemma LeaveReviewMatchesBadge(purchase: Purchase)
    ensures ShowsLeaveReview(purchase) <==> StatusColor(purchase.status) == Default
  {
  }

  /** `purchases.length > 0 ? list : empty state`. */
  function ShowsEmptyState(purchases: seq<Purchase>): bool
  {
    !(|purchases| > 0)
  }

  /** A product row shows its picture when the first image URL is present
      and non-empty, and a placeholder icon otherwise. */
  function ShowsImage(product: Product): bool
  {
    if |product.images| == 0 then false else product.images[0] != ""
  }

  const Notebooks: Product := Product(
    "p1", "seller1", "Recycled Paper Notebooks Set", "Set of 5 eco-friendly notebooks",
    Books, 2500, ["/api/placeholder/100/100"], New, Some("Boston, MA"), 0, 0, true)

  const TShirt: Product := Product(
    "p2", "seller2", "Organic Cotton T-Shirt", "100% organic cotton t-shirt",
    Clothing, 1800, ["/api/placeholder/100/100"], New, Some("Denver, CO"), 0, 0, true)

  const Cutlery: Product := Product(
    "p3", "seller3", "Bamboo Cutlery Set", "Reusable bamboo cutlery",
    HomeGarden, 1500, ["/api/placeholder/100/100"], New, Some("Portland, OR"), 0, 0, true)

  /** The orders the page shows; it binds no setter, so this list is all it ever shows. */
  const SeedPurchases: seq<Purchase> := [
    Purchase("1", "currentUser", [Notebooks, TShirt], 4300, 20240120, Completed),
    Purchase("2", "currentUser", [Cutlery], 1500, 20240115, Completed)
  ]

  /** The seed page: the list is shown, both orders offer a review, every
      product row shows its picture, and the item counts read "2 items" and "1 item". */
  lemma SeedPurchasesView()
    ensures !ShowsEmptyState(SeedPurchases)
    ensures forall i :: 0 <= i < |SeedPurchases| ==> ShowsLeaveReview(SeedPurchases[i])
    ensures forall i, j :: 0 <= i < |SeedPurchases| && 0 <= j < |SeedPurchases[i].products| ==>
              ShowsImage(SeedPurchases[i].products[j])
    ensures ItemCountLabel(|SeedPurchases[0].products|) == "2 items"
    ensures ItemCountLabel(|SeedPurchases[1].products|) == "1 item"
  {
  }
}
