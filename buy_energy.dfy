/**
 * The BuyEnergy screen: it scans the listings once when the contract becomes
 * available, shows the active ones, lets the user pick one and buys from it.
 */
module BuyEnergy {
  import opened Wrappers
  import opened Ledger
  import Seqs

  predicate IsActive(e: Entry) {
    e.listing.active
  }

  /**
   * What `fetchListings` stores when every read succeeds: the active listings
   * among ids `0..nextListingId-1`, each tagged with its id; `None` when the
   * count or any listing read fails.
   */
  function ActiveListings(c: Chain): Option<seq<Entry>> {
    match c.nextListingId
    case None => None
    case Some(n) =>
      match ReadAll(c, n)
      case None => None
      case Some(ls) => Some(Seqs.Filter(Entries(ls), IsActive))
  }

  /**
   * The scan fails exactly when the count or one of the listing reads fails;
   * otherwise it holds every active listing and nothing else, in ascending id
   * order, each under the id it was read at.
   */
  lemma ActiveListingsSpec(c: Chain)
    ensures ActiveListings(c).None? <==>
      c.nextListingId.None? || exists i :: 0 <= i < c.nextListingId.value && ReadListing(c, i).None?
    ensures ActiveListings(c).Some? ==>
      var r, n := ActiveListings(c).value, c.nextListingId.value;
      && |r| <= n
      && IdsAscending(r)
      && (forall e :: e in r ==> e.id < n && ReadListing(c, e.id) == Some(e.listing) && e.listing.active)
      && (forall i :: 0 <= i < n && i in c.listings && c.listings[i].active ==> Entry(i, c.listings[i]) in r)
  {
    if ActiveListings(c).Some? {
      var n := c.nextListingId.value;
      var ls := ReadAll(c, n).value;
      FilteredEntries(ls, IsActive);
      forall i | 0 <= i < n && i in c.listings && c.listings[i].active
        ensures Entry(i, c.listings[i]) in ActiveListings(c).value
      {
        assert Entries(ls)[i] == Entry(i, c.listings[i]);
      }
    }
  }

  /** The loop of `fetchListings`: read ids in order, keep the active ones. */
  method FetchActiveListings(c: Chain) returns (r: Option<seq<Entry>>)
    ensures r == ActiveListings(c)
  {
    if c.nextListingId.None? {
      return None;
    }
    var count := c.nextListingId.value;
    var fetched: seq<Entry> := [];
    ghost var read: seq<Listing> := [];
    for i := 0 to count
      invariant ReadAll(c, i) == Some(read)
      invariant fetched == Seqs.Filter(Entries(read), IsActive)
    {
      var listing := ReadListing(c, i);
      if listing.None? {
        return None;
      }
      if listing.value.active {
        fetched := fetched + [Entry(i, listing.value)];
      }
      EntriesAppend(read, listing.value);
      Seqs.FilterAppend(Entries(read), Entry(i, listing.value), IsActive);
      read := read + [listing.value];
    }
    return Some(fetched);
  }

  /** An item of the list is highlighted when its id is the selected listing's id. */
  predicate Highlighted(selected: Option<Entry>, e: Entry) {
    selected.Some? && selected.value.id == e.id
  }

  /** In a list with distinct ids, at most one item is highlighted. */
  lemma AtMostOneHighlighted(listings: seq<Entry>, selected: Option<Entry>, j: nat, k: nat)
    requires IdsAscending(listings)
    requires j < |listings| && k < |listings|
    requires Highlighted(selected, listings[j]) && Highlighted(selected, listings[k])
    ensures j == k
  {
  }

  /** The `purchaseEnergy(listingId, amount)` transaction `handlePurchase` sends. */
  datatype PurchaseCall = PurchaseCall(listingId: nat, amount: Wei)

  const PurchasedAlert := "Energy purchased successfully!"
  const PurchaseErrorAlert := "Error purchasing energy. Check console for details."

  class Component {
    var listings: seq<Entry>
    var selectedListing: Option<Entry>
    var purchaseAmount: string

    constructor ()
      ensures listings == [] && selectedListing == None && purchaseAmount == ""
    {
      listings := [];
      selectedListing := None;
      purchaseAmount := "";
    }

    /**
     * `fetchListings`: nothing without a contract; on success the active
     * listings replace the list, on any failure the list is kept.
     */
    method FetchListings(contract: Option<Chain>)
      modifies this
      ensures contract.None? ==> listings == old(listings)
      ensures contract.Some? ==> listings == ActiveListings(contract.value).GetOr(old(listings))
      ensures selectedListing == old(selectedListing) && purchaseAmount == old(purchaseAmount)
    {
      if contract.None? {
        return;
      }
      var fetched := FetchActiveListings(contract.value);
      if fetched.Some? {
        listings := fetched.value;
      }
    }

    /** Clicking an item selects it; afterwards exactly the items with its id are highlighted. */
    method SelectListing(e: Entry)
      modifies this
      ensures selectedListing == Some(e)
      ensures forall x :: Highlighted(selectedListing, x) <==> x.id == e.id
      ensures listings == old(listings) && purchaseAmount == old(purchaseAmount)
    {
      selectedListing := Some(e);
    }

    /** The amount input's `onChange`. */
    method SetPurchaseAmount(value: string)
      modifies this
      ensures purchaseAmount == value
      ensures listings == old(listings) && selectedListing == old(selectedListing)
    {
      purchaseAmount := value;
    }

    /**
     * `handlePurchase`: without a contract or a selection nothing happens;
     * otherwise the amount is parsed (`parseEther`, which may throw), the
     * purchase is sent and confirmed or fails, and one alert is shown. The
     * component's state does not change.
     */
    method HandlePurchase(hasContract: bool, parseEther: string -> Option<Wei>, confirmed: bool)
      returns (call: Option<PurchaseCall>, alert: Option<string>)
      ensures !hasContract || selectedListing.None? ==> call.None? && alert.None?
      ensures hasContract && selectedListing.Some? ==>
        && call == (match parseEther(purchaseAmount)
                    case Some(amount) => Some(PurchaseCall(selectedListing.value.id, amount))
                    case None => None)
        && alert == Some(if call.Some? && confirmed then PurchasedAlert else PurchaseErrorAlert)
    {
      if !hasContract || selectedListing.None? {
        return None, None;
      }
      var amount := parseEther(purchaseAmount);
      if amount.None? {
        return None, Some(PurchaseErrorAlert);
      }
      call := Some(PurchaseCall(selectedListing.value.id, amount.value));
      if confirmed {
        alert := Some(PurchasedAlert);
      } else {
        alert := Some(PurchaseErrorAlert);
      }
    }
  }
}
