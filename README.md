# EcoFinds page logic in Dafny

EcoFinds is a second-hand marketplace front end with no back end. Its logic
lives in the page components. Each page keeps a few pieces of React state
and replaces them in its handlers with new values computed by `map`,
`filter`, `find` and `reduce`. This project models that logic and proves
what the pages promise:

- `types.dfy` (module `Types`): the record types `Product`, `CartItem` and
  `Purchase`. It also holds the closed enumerations and the `CATEGORIES`
  table with its lookup.
- `cart.dfy` (module `Cart`): the shopping cart. It covers the quantity
  buttons clamped at one, removal by id, the grand total and the empty-cart
  view. The class `CartPage` holds `cartItems`, and its methods replace it.
- `listings.dfy` (module `Listings`): the seller's listings. It covers
  delete by id, the sold/unsold toggle with its toast title and button
  caption, and the `deleteId` confirmation dialog (class `MyListingsPage`).
- `catalog.dfy` (module `Catalog`): the product browser. It covers the
  stable two-step filter (case-insensitive text match, then category), the
  `search` URL parameter and "Clear Filters". The class `ProductsPage`
  keeps `filteredProducts` equal to the filter of its inputs, because the
  effect re-runs after every change.
- `profile.dfy` (module `Profile`): the profile card. It covers the
  committed profile, the draft, the `isEditing` switch, per-field edits,
  save and cancel (class `ProfilePage`), and `getInitials`.
- `purchases.dfy` (module `Purchases`): the purchase history. It covers
  the status badge, the "N item(s)" label, and when "Leave Review", the
  product image and the empty state appear.
- `seqs.dfy` (module `Seqs`): the generic stable `Filter` and `Map` the
  pages use, with their laws.
- `text.dfy` (module `Text`): ASCII `toLowerCase`/`toUpperCase`,
  `includes`, and `split(" ")`/`join(" ")`.
- `wrappers.dfy` (module `Wrappers`): an `Option` type.

Prices are integer cents (45.00 is 4500). Timestamps are opaque integers,
because no modelled code computes with them. The `label` field of a
category table entry is called `displayLabel`, because `label` is a Dafny
keyword.

In these places the code does something a reader might not expect, and the
model follows the code:

- The cart has no add-or-merge operation. Adding to the cart only shows a
  toast (`src/pages/Products.tsx:91-96`).
- The sold toggle leaves `updatedAt` alone (`src/pages/MyListings.tsx:76-78`).
- A whitespace-only query is not empty. It filters for the literal
  whitespace (`src/pages/Products.tsx:76`, lemma `Catalog.SpaceQueryIsLiteral`).
- The seed cart totals 45.00 × 1 + 28.50 × 2 = 102.00
  (`src/pages/Cart.tsx:12-53`, lemma `Cart.SeedCartTotal`).
- The confirmation dialog is open while `deleteId` is truthy (`!!deleteId`,
  `src/pages/MyListings.tsx:187`). So an empty id keeps it closed, and
  confirming it deletes nothing (`src/pages/MyListings.tsx:198`).

## Model

| member | source | states |
|---|---|---|
| Types.ParseCategory | src/types/index.ts:45-55 | a string that parses as a category is exactly that category's tag |
| Types.TagRoundTrip | src/types/index.ts:45-55 | parsing a tag gives back its category, and distinct categories have distinct tags |
| Types.CategoriesInDeclarationOrder | src/types/index.ts:45-68 | the table has exactly 10 entries, and entry i holds the i-th declared tag |
| Types.CategoriesListEachTagOnce | src/types/index.ts:57-68 | every tag appears in the table, and no tag appears twice |
| Types.FindLabel | src/types/index.ts:57-68 | a lookup returns nothing exactly when no entry has the tag; otherwise it returns the label of the first entry with that tag |
| Types.FindLabelFirst | src/types/index.ts:57-68 | when an entry carries the tag and no earlier one does, the lookup returns that entry's label |
| Types.LabelOf | src/types/index.ts:57-68 | every tag has a label, taken from a table entry that pairs that tag with it |
| Types.LabelExamples | src/types/index.ts:57-68 | home-garden is labelled "Home & Garden", and other is labelled "Other" |
| Cart.UpdatedQuantities | src/pages/Cart.tsx:60-69 | same length and order; a line with the id gets quantity max(1, old + change) and keeps its other fields; every other line is unchanged; an unknown id changes nothing |
| Cart.UpdateKeepsQuantitiesPositive | src/pages/Cart.tsx:64 | for any change, however negative, every quantity stays at least 1 |
| Cart.WithoutItem | src/pages/Cart.tsx:72-73 | the result holds no line with the id, keeps every other line as many times as it occurs, is an order-preserving subsequence of the cart, and is shorter by exactly the number of lines with the id |
| Cart.RemoveKeepsQuantitiesPositive | src/pages/Cart.tsx:73 | removing a line keeps every remaining quantity at least 1 |
| Cart.RemoveIdempotent | src/pages/Cart.tsx:73 | removing an id twice leaves the same cart as removing it once |
| Cart.RemoveUnknownIsNoOp | src/pages/Cart.tsx:73 | removing an id no line has leaves the cart unchanged |
| Cart.TotalAppend | src/pages/Cart.tsx:80-82 | the total of two carts joined together is the sum of their totals |
| Cart.TotalSplitsOnRemove | src/pages/Cart.tsx:72-82 | the total is the total after removal plus the line totals of the removed lines |
| Cart.TotalAfterIncrease | src/pages/Cart.tsx:60-82 | raising the quantity by change >= 0 raises the total by change times the unit prices of the lines with that id |
| Cart.LineAfterIncrease | src/pages/Cart.tsx:63-65 | one line's total grows by change times its price when its id matches, and is otherwise unchanged |
| Cart.TotalNonNegative | src/pages/Cart.tsx:80-82 | with non-negative prices and quantities of at least 1, the total is never negative |
| Cart.UpdateKeepsEmptiness | src/pages/Cart.tsx:60-96 | the quantity buttons never change whether the empty-cart view is shown |
| Cart.RemoveEmptiesCart | src/pages/Cart.tsx:72-96 | removing an id brings up the empty-cart view exactly when every line carried that id |
| Cart.EmptyCartTotalsZero | src/pages/Cart.tsx:80-96 | whenever the empty-cart view is shown, the total is 0 |
| Cart.SeedCartTotal | src/pages/Cart.tsx:12-53 | the seed cart totals 10200 cents, the second line totals 5700, an empty cart totals 0, and the seed cart is not shown as empty |
| Cart.CartPage.constructor | src/pages/Cart.tsx:58 | the page starts with the seed cart, and every quantity is at least 1 |
| Cart.CartPage.UpdateQuantity | src/pages/Cart.tsx:60-69 | the new cart is UpdatedQuantities of the old cart, and quantities stay at least 1 |
| Cart.CartPage.RemoveItem | src/pages/Cart.tsx:72-73 | the new cart is WithoutItem of the old cart, and quantities stay at least 1 |
| Cart.CartPage.CalculateTotal | src/pages/Cart.tsx:80-82 | the left-to-right reduce returns the cart's Total |
| Listings.DeleteListing | src/pages/MyListings.tsx:67 | the result holds no listing with the id, keeps every other listing as many times as it occurs, is an order-preserving subsequence, and is shorter by exactly the number of listings with the id |
| Listings.DeleteIdempotent | src/pages/MyListings.tsx:67 | deleting an id twice leaves the same listings as deleting it once |
| Listings.ToggleSold | src/pages/MyListings.tsx:76-78 | same length and order; a listing with the id has isSold negated and every other field kept (updatedAt too); other listings are unchanged |
| Listings.ToggleSoldInvolution | src/pages/MyListings.tsx:76-78 | toggling an id twice restores the original listings exactly |
| Listings.ToggleUnknownIsNoOp | src/pages/MyListings.tsx:76-81 | toggling an id no listing has changes nothing, and the toast reads "Marked as Sold" |
| Listings.FindListing | src/pages/MyListings.tsx:79 | the lookup finds nothing exactly when no listing has the id; otherwise it finds the first listing with that id |
| Listings.ToastMatchesButton | src/pages/MyListings.tsx:79-81 | the toast reads "Marked as Available" exactly when the clicked listing's button read "Unmark Sold", i.e. the listing was sold before the toggle; the toggle flips the button caption |
| Listings.DeleteSoldSeedListing | src/pages/MyListings.tsx:21-50 | deleting the sold seed listing "2" leaves one listing, and it is unsold |
| Listings.MyListingsPage.constructor | src/pages/MyListings.tsx:55-56 | the page starts with the seed listings and no pending delete |
| Listings.MyListingsPage.AskToDelete | src/pages/MyListings.tsx:161 | the trash button records the id, and the dialog (open while deleteId is truthy) opens exactly when the id is non-empty; the listings are unchanged |
| Listings.MyListingsPage.HandleDelete | src/pages/MyListings.tsx:66-73 | the listings become DeleteListing of the old ones, and deleteId is cleared, which closes the dialog |
| Listings.MyListingsPage.MarkAsSold | src/pages/MyListings.tsx:75-84 | the listings become ToggleSold of the old ones; the toast title is read from the listings before the toggle; deleteId is unchanged |
| Listings.MyListingsPage.DismissDialog | src/pages/MyListings.tsx:187 | any close clears deleteId and leaves the listings unchanged |
| Listings.MyListingsPage.ConfirmDelete | src/pages/MyListings.tsx:198 | with the dialog open, deletes the pending id and clears it; otherwise changes nothing |
| Catalog.FilterIsSingleSelection | src/pages/Products.tsx:72-89 | the query filter followed by the category filter is one stable filter by the combined selection rule |
| Catalog.FilterSelectsExactly | src/pages/Products.tsx:73-88 | the result is an order-preserving subsequence of the products; a product is in it exactly when it is in the products and passes both tests; with a category chosen, every product shown has that category |
| Catalog.NoCriteriaShowsAll | src/pages/Products.tsx:76-86 | an empty query with category "all" shows every product, in order |
| Catalog.QueryCaseIgnored | src/pages/Products.tsx:78-79 | upper-casing the query never changes the result |
| Catalog.SpaceQueryIsLiteral | src/pages/Products.tsx:76-80 | the query " " keeps a product exactly when its title or description contains a space, and drops it otherwise |
| Catalog.SeedBambooMatches | src/pages/Products.tsx:12-55 | of the seed products, only the bamboo kitchen set matches "bamboo" |
| Catalog.BambooSearch | src/pages/Products.tsx:12-55 | searching the seed products for "bamboo" in all categories gives exactly the product with id "2" |
| Catalog.ProductsPage.constructor | src/pages/Products.tsx:58-61 | the page starts with the seed products, all shown, with an empty query and category "all" |
| Catalog.ProductsPage.RefreshFiltered | src/pages/Products.tsx:72-89 | the effect sets the visible list to the filter of the current products, query and category, and changes nothing else |
| Catalog.ProductsPage.ApplySearchParam | src/pages/Products.tsx:65-70 | a non-empty search parameter replaces the query; a missing or empty one keeps it; the products and category are untouched |
| Catalog.ProductsPage.SetSearchQuery | src/pages/Products.tsx:113 | typing sets the query and re-filters; the products are untouched |
| Catalog.ProductsPage.SelectCategory | src/pages/Products.tsx:121 | choosing a category sets it and re-filters; the products are untouched |
| Catalog.ProductsPage.ClearFilters | src/pages/Products.tsx:162-165 | the query becomes "" and the category "all", so every product is shown; the products are untouched |
| Text.ToLower | src/pages/Products.tsx:78-79 | lower-casing keeps the length and maps every ASCII capital to its small letter |
| Text.ToUpper | src/pages/Profile.tsx:48 | upper-casing keeps the length and maps every ASCII small letter to its capital |
| Text.LowerIgnoresCase | src/pages/Products.tsx:78-79 | lower-casing gives the same result for a string, its upper-cased form and its lower-cased form |
| Text.Contains | src/pages/Products.tsx:78-79 | includes is true exactly when the needle occurs at some position of the haystack |
| Text.SplitJoinRoundTrip | src/pages/Profile.tsx:45 | joining the split pieces with spaces gives back the string, and no piece contains a space |
| Text.JoinSplitRoundTrip | src/pages/Profile.tsx:45 | splitting space-free pieces joined by spaces gives back the pieces |
| Profile.WithField | src/pages/Profile.tsx:140-216 | an input's edit sets exactly its own field, and keeps every other field and the avatar |
| Profile.RewriteSameValue | src/pages/Profile.tsx:140-142 | writing a field's current value back changes nothing |
| Profile.EditsCompose | src/pages/Profile.tsx:140-156 | the later of two edits to one field wins, and edits to different fields commute |
| Profile.FirstLettersOfWords | src/pages/Profile.tsx:46-47 | the collected letters are the first characters of the non-empty pieces, in order; empty pieces contribute nothing |
| Profile.InitialsAreFirstLetters | src/pages/Profile.tsx:43-49 | the initials are the upper-cased first characters of the non-empty pieces, so there are no more of them than pieces |
| Profile.InitialsOfWords | src/pages/Profile.tsx:43-49 | a name of non-empty words separated by single spaces has the upper-cased first letter of each word as its initials |
| Profile.JohnDoeInitials | src/pages/Profile.tsx:43-49 | "John Doe" gives "JD" |
| Profile.ProfilePage.constructor | src/pages/Profile.tsx:15-27 | the page starts outside edit mode, with the draft equal to the seed profile |
| Profile.ProfilePage.StartEditing | src/pages/Profile.tsx:76 | "Edit Profile" only sets isEditing; both profiles are kept |
| Profile.ProfilePage.EditField | src/pages/Profile.tsx:140-143 | while editing, an edit changes one field of the draft and never the committed profile |
| Profile.ProfilePage.Save | src/pages/Profile.tsx:29-31 | the draft is committed and edit mode ends; outside edit mode the draft equals the profile |
| Profile.ProfilePage.Cancel | src/pages/Profile.tsx:38-41 | the draft is reset to the unchanged profile and edit mode ends |
| Profile.ProfilePage.DisplayedValue | src/pages/Profile.tsx:139-213 | an input shows the draft while editing and the committed profile otherwise; by the invariant, it always shows the draft |
| Profile.ProfilePage.AvatarInitials | src/pages/Profile.tsx:108 | the avatar fallback has at most as many letters as the full name has pieces |
| Purchases.StatusColor | src/pages/Purcases.tsx:77-88 | completed is drawn "default", pending "secondary" and cancelled "destructive"; the fallback "outline" is never chosen |
| Purchases.StatusColorInjective | src/pages/Purcases.tsx:77-84 | distinct statuses get distinct badges |
| Purchases.NatToString | src/pages/Purcases.tsx:112 | a count is written as at least one decimal digit, with no leading zero |
| Purchases.NatToStringRoundTrip | src/pages/Purcases.tsx:112 | reading the written digits back gives the count |
| Purchases.ItemCountLabelParts | src/pages/Purcases.tsx:112 | the label is the count's digits, then " item", then an "s" exactly when the count exceeds one |
| Purchases.ItemCountExamples | src/pages/Purcases.tsx:112 | 0 gives "0 item", 1 gives "1 item", 2 gives "2 items" and 12 gives "12 items" |
| Purchases.LeaveReviewMatchesBadge | src/pages/Purcases.tsx:184 | "Leave Review" appears exactly on the orders with the default badge |
| Purchases.SeedPurchasesView | src/pages/Purcases.tsx:10-71 | the seed page shows its list rather than the empty state, every order offers a review, every product row shows its picture, and the counts read "2 items" and "1 item" |

## Left out

- JSX rendering, layout, icons and styling. They carry no behaviour to state.
- Toast notifications and navigation (`useToast`, `useNavigate`, links). They are effects handed to libraries. Only the toast title chosen by the sold toggle is modelled.
- `src/components/header.tsx`, `src/pages/NewProduct.tsx`, `src/pages/ProductDetail.tsx` and `src/pages/index.tsx` are not part of this model. They hold navigation, an asynchronous form without data changes, an add-to-cart that only shows a toast, and static markup.
- The profile's account and preferences tabs (`src/pages/Profile.tsx:225-293`). Their inputs are unbound.
- Floating point and `toFixed(2)`. Prices are exact integer cents.
- `Date` values and `toLocaleDateString`. Timestamps are opaque integers, and no modelled code changes them.
- Text.ToLower: maps only ASCII letters, not the full Unicode case mapping of `toLowerCase`.
- Text.ToUpper: maps only ASCII letters, not the full Unicode case mapping of `toUpperCase`.
- Catalog.QueryCaseIgnored: holds for the ASCII case mapping only. Under full Unicode mapping `"ß".toUpperCase()` is `"SS"`, so the upper-cased query `"ß"` searches for `"ss"` instead.
- Profile.InitialsAreFirstLetters: holds for the ASCII case mapping only. `getInitials("ß")` is `"SS"` in JavaScript, two letters from one piece, which breaks the bound.
- Profile.ProfilePage.AvatarInitials: the length bound holds for the ASCII case mapping only, for the same `"ß"` reason.
- Profile.FirstLettersOfWords: `Head` takes one whole character. `n[0]` takes one UTF-16 code unit, which is half of a character outside the Basic Multilingual Plane.
- The `User` interface (`src/types/index.ts:1-11`). No modelled page uses it.
- Purchases: `totalAmount` is fixture data that no code computes (`src/pages/Purcases.tsx:44,67`). No sum over the products is claimed for it.
- The `purchases` list has no setter (`src/pages/Purcases.tsx:75`). So it is a constant, and no state class is modelled for that page.
- The `setProducts` setter of the product browser is never called, so no method changes `products`.
