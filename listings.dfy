/** The seller's "My Listings" page: the seller's products, the sold/unsold
    toggle, and delete behind a confirmation dialog keyed by `deleteId`. */
module Listings {
  import opened Wrappers
  import opened Types
  import opened Seqs

  function HasId(id: string): Product -> bool
  {
    (listing: Product) => listing.id == id
  }

  function HasOtherId(id: string): Product -> bool
  {
    (listing: Product) => listing.id != id
  }

  /** The per-listing step of `handleMarkAsSold`: flip `isSold` on a listing
      with the given id and nothing else (`updatedAt` included). */
  function FlipIfId(id: string): Product -> Product
  {
    (listing: Product) => if listing.id == id then listing.(isSold := !listing.isSold) else listing
  }

  /** The listings after `handleDelete(id)`: those with other ids, in their original order. */
  function DeleteListing(listings: seq<Product>, id: string): (r: seq<Product>)
    ensures forall i :: 0 <= i < |r| ==> r[i].id != id
    ensures forall i :: 0 <= i < |listings| && listings[i].id != id ==> listings[i] in r
    ensures forall i :: 0 <= i < |r| ==> r[i] in listings
    ensures Subsequence(r, listings)
    ensures forall x :: multiset(r)[x] == if x.id != id then multiset(listings)[x] else 0
    ensures |r| + |Filter(listings, HasId(id))| == |listings|
  {
    FilterMultiplicity(listings, HasOtherId(id));
    FilterComplement(listings, HasOtherId(id), HasId(id));
    Filter(listings, HasOtherId(id))
  }

  /** The listings after `handleMarkAsSold(id)`: same length and order; a
      listing with that id has `isSold` negated and every other field kept;
      every other listing is unchanged. */
  function ToggleSold(listings: seq<Product>, id: string): (r: seq<Product>)
    ensures |r| == |listings|
    ensures forall i :: 0 <= i < |listings| && listings[i].id == id ==>
              r[i].isSold == !listings[i].isSold && r[i].(isSold := listings[i].isSold) == listings[i]
    ensures forall i :: 0 <= i < |listings| && listings[i].id != id ==> r[i] == listings[i]
  {
    Map(listings, FlipIfId(id))
  }

  /** `listings.find(l => l.id === id)`: the first listing with that id. */
  function FindListing(listings: seq<Product>, id: string): (r: Option<Product>)
    ensures r.None? <==> forall i :: 0 <= i < |listings| ==> listings[i].id != id
    ensures r.Some? ==> exists i :: 0 <= i < |listings| && listings[i] == r.value && r.value.id == id
                          && forall j :: 0 <= j < i ==> listings[j].id != id
    decreases |listings|
  {
    if listings == [] then None
    else if listings[0].id == id then Some(listings[0])
    else
      var r := FindListing(listings[1..], id);
      if r.Some? then
        ghost var k :| 0 <= k < |listings| - 1 && listings[1..][k] == r.value && r.value.id == id
                       && forall j :: 0 <= j < k ==> listings[1..][j].id != id;
        assert listings[k + 1] == r.value;
        r
      else r
  }

  /** The toast title of `handleMarkAsSold`, read from the listings as they
      were before the toggle; an unknown id reads as "not sold". */
  function ToastTitle(listings: seq<Product>, id: string): string
  {
    var listing := FindListing(listings, id);
    if listing.Some? && listing.value.isSold then "Marked as Available" else "Marked as Sold"
  }

  /** The caption of a listing's toggle button. */
  function ToggleButtonLabel(listing: Product): string
  {
    if listing.isSold then "Unmark Sold" else "Mark Sold"
  }

  /** Deleting the same id twice leaves the same listings as deleting it once. */
  lemma {:induction false} DeleteIdempotent(listings: seq<Product>, id: string)
    ensures DeleteListing(DeleteListing(listings, id), id) == DeleteListing(listings, id)
  {
    FilterIdempotent(listings, HasOtherId(id));
  }

  /** Toggling the same id twice restores the original listings exactly. */
  lemma {:induction false} ToggleSoldInvolution(listings: seq<Product>, id: string)
    ensures ToggleSold(ToggleSold(listings, id), id) == listings
  {
    MapInvolution(listings, FlipIfId(id));
  }

  /** The toast says "Marked as Available" exactly when the clicked listing's
      button read "Unmark Sold", i.e. when it was sold before the click (for
      the first listing carrying that id, the one `find` returns). */
  lemma {:induction false} ToastMatchesButton(listings: seq<Product>, i: int)
    requires 0 <= i < |listings|
    requires forall j :: 0 <= j < i ==> listings[j].id != listings[i].id
    ensures ToastTitle(listings, listings[i].id) == "Marked as Available"
            <==> ToggleButtonLabel(listings[i]) == "Unmark Sold"
    ensures ToggleButtonLabel(ToggleSold(listings, listings[i].id)[i]) != ToggleButtonLabel(listings[i])
  {
    var found := FindListing(listings, listings[i].id);
    var k :| 0 <= k < |listings| && listings[k] == found.value && found.value.id == listings[i].id
             && forall j :: 0 <= j < k ==> listings[j].id != listings[i].id;
    assert k == i;
  }

  /** Toggling an id no listing carries changes nothing, and the toast then reads "Marked as Sold". */
  lemma ToggleUnknownIsNoOp(listings: seq<Product>, id: string)
    requires forall i :: 0 <= i < |listings| ==> listings[i].id != id
    ensures ToggleSold(listings, id) == listings
    ensures ToastTitle(listings, id) == "Marked as Sold"
  {
  }

  const MugsSet: Product := Product(
    "1", "currentUser", "Handmade Ceramic Mugs Set", "Set of 4 beautiful handmade ceramic mugs",
    Handmade, 3500, ["/api/placeholder/300/300"], New, Some("Seattle, WA"), 20240110, 20240110, false)

  const WoodenDesk: Product := Product(
    "2", "currentUser", "Vintage Wooden Desk", "Solid oak desk from the 1960s",
    Furniture, 15000, ["/api/placeholder/300/300"], Good, Some("Seattle, WA"), 20240108, 20240108, true)

  /** The listings the page starts with; the second one is sold. */
  const SeedListings: seq<Product> := [MugsSet, WoodenDesk]

  /** Deleting the sold seed listing leaves exactly one listing, and it is unsold. */
  lemma DeleteSoldSeedListing()
    ensures |DeleteListing(SeedListings, "2")| == 1
    ensures !DeleteListing(SeedListings, "2")[0].isSold
  {
    assert SeedListings[1..][1..] == [];
    assert DeleteListing(SeedListings, "2") == [MugsSet];
  }

  /** The page's state: the listings and the id awaiting delete confirmation. */
  class MyListingsPage {
    var listings: seq<Product>
    var deleteId: Option<string>

    constructor ()
      ensures listings == SeedListings && deleteId == None
    {
      listings := SeedListings;
      deleteId := None;
    }

    /** The confirmation dialog is open while `deleteId` is truthy: set and non-empty. */
    function DialogOpen(): bool
      reads this
    {
      match deleteId
      case None => false
      case Some(id) => id != ""
    }

    /** A listing's trash button: `setDeleteId(listing.id)`. */
    method AskToDelete(id: string)
      modifies this
      ensures deleteId == Some(id) && listings == old(listings)
      ensures DialogOpen() <==> id != ""
    {
      deleteId := Some(id);
    }

    /** `handleDelete(id)`: drop the listings with that id and clear `deleteId`. */
    method HandleDelete(id: string)
      modifies this
      ensures listings == DeleteListing(old(listings), id)
      ensures deleteId == None && !DialogOpen()
    {
      listings := DeleteListing(listings, id);
      deleteId := None;
    }

    /** `handleMarkAsSold(id)`: toggle the listing and return the toast title,
        chosen from the listings as they were before the toggle. */
    method MarkAsSold(id: string) returns (title: string)
      modifies this
      ensures listings == ToggleSold(old(listings), id)
      ensures title == ToastTitle(old(listings), id)
      ensures deleteId == old(deleteId)
    {
      var before := listings;
      listings := ToggleSold(listings, id);
      title := ToastTitle(before, id);
    }

    /** The dialog's `onOpenChange`: any close (Cancel, Escape, the action) clears `deleteId`. */
    method DismissDialog()
      modifies this
      ensures deleteId == None && !DialogOpen() && listings == old(listings)
    {
      deleteId := None;
    }

    /** The dialog's Delete action: `deleteId && handleDelete(deleteId)`;
        a falsy `deleteId` deletes nothing. */
    method ConfirmDelete()
      modifies this
      ensures old(DialogOpen()) ==> listings == DeleteListing(old(listings), old(deleteId).value) && deleteId == None
      ensures !old(DialogOpen()) ==> listings == old(listings) && deleteId == old(deleteId)
    {
      if DialogOpen() {
        HandleDelete(deleteId.value);
      }
    }
  }
}
