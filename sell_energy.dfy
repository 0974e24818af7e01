/**
 * The SellEnergy screen: a four-field listing form with preview and
 * confirmation, and the list of the signer's own listings with a cancel
 * button on the active ones.
 */
module SellEnergy {
  import opened Wrappers
  import opened Ledger
  import Seqs

  /** The keep-test of `fetchUserListings`: the listing's seller is `owner`. */
  function OwnedBy(owner: Address): Entry -> bool {
    (e: Entry) => e.listing.seller == owner
  }

  /**
   * What `fetchUserListings` stores when every read succeeds: the listings
   * among ids `0..nextListingId-1` whose seller is the signer's address,
   * active or not. The signer's address is read once per id, so it is read
   * (and can fail) only when there is at least one id.
   */
  function OwnedListings(c: Chain, signer: Option<Address>): Option<seq<Entry>> {
    match c.nextListingId
    case None => None
    case Some(n) =>
      match ReadAll(c, n)
      case None => None
      case Some(ls) =>
        if n > 0 && signer.None? then None
        else Some(Seqs.Filter(Entries(ls), OwnedBy(signer.GetOr(""))))
  }

  /**
   * The scan fails exactly when a read fails; otherwise it holds every listing
   * of the signer (inactive ones too) and nothing else, in ascending id order,
   * each under the id it was read at.
   */
  lemma OwnedListingsSpec(c: Chain, signer: Option<Address>)
    ensures OwnedListings(c, signer).None? <==>
      || c.nextListingId.None?
      || (exists i :: 0 <= i < c.nextListingId.value && ReadListing(c, i).None?)
      || (c.nextListingId.value > 0 && signer.None?)
    ensures OwnedListings(c, signer).Some? && signer.Some? ==>
      var r, n, me := OwnedListings(c, signer).value, c.nextListingId.value, signer.value;
      && |r| <= n
      && IdsAscending(r)
      && (forall e :: e in r ==> e.id < n && ReadListing(c, e.id) == Some(e.listing) && e.listing.seller == me)
      && (forall i :: 0 <= i < n && i in c.listings && c.listings[i].seller == me ==> Entry(i, c.listings[i]) in r)
  {
    if OwnedListings(c, signer).Some? && signer.Some? {
      var n := c.nextListingId.value;
      var ls := ReadAll(c, n).value;
      FilteredEntries(ls, OwnedBy(signer.value));
      forall i | 0 <= i < n && i in c.listings && c.listings[i].seller == signer.value
        ensures Entry(i, c.listings[i]) in OwnedListings(c, signer).value
      {
        assert Entries(ls)[i] == Entry(i, c.listings[i]);
      }
    }
  }

  /** The loop of `fetchUserListings`: read each id, then the signer, keep the signer's listings. */
  method FetchOwnedListings(c: Chain, signer: Option<Address>) returns (r: Option<seq<Entry>>)
    ensures r == OwnedListings(c, signer)
  {
    if c.nextListingId.None? {
      return None;
    }
    var count := c.nextListingId.value;
    var listings: seq<Entry> := [];
    ghost var read: seq<Listing> := [];
    for i := 0 to count
      invariant ReadAll(c, i) == Some(read)
      invariant i > 0 ==> signer.Some?
      invariant listings == Seqs.Filter(Entries(read), OwnedBy(signer.GetOr("")))
    {
      var listing := ReadListing(c, i);
      if listing.None? {
        return None;
      }
      if signer.None? {
        return None;
      }
      if listing.value.seller == signer.value {
        listings := listings + [Entry(i, listing.value)];
      }
      EntriesAppend(read, listing.value);
      Seqs.FilterAppend(Entries(read), Entry(i, listing.value), OwnedBy(signer.value));
      read := read + [listing.value];
    }
    return Some(listings);
  }

  /** The cancel button is rendered for an own listing exactly when it is active. */
  predicate ShowsCancel(e: Entry) {
    e.listing.active
  }

  /**
   * The list keeps the signer's cancelled and sold-out listings too; they are
   * shown without a cancel button.
   */
  lemma InactiveOwnListingShownWithoutCancel(c: Chain, me: Address, i: nat)
    requires c.nextListingId.Some? && i < c.nextListingId.value
    requires OwnedListings(c, Some(me)).Some?
    requires i in c.listings && c.listings[i].seller == me && !c.listings[i].active
    ensures Entry(i, c.listings[i]) in OwnedListings(c, Some(me)).value
    ensures !ShowsCancel(Entry(i, c.listings[i]))
  {
    OwnedListingsSpec(c, Some(me));
  }

  /** The listing form; every field holds the text typed into its input. */
  datatype Form = Form(amount: string, pricePerUnit: string, duration: string, minimumPurchase: string)

  /** The `name` attribute of each input of the form. */
  datatype Field = Amount | PricePerUnit | Duration | MinimumPurchase

  const EmptyForm := Form("", "", "", "")

  function Get(f: Form, field: Field): string {
    match field
    case Amount => f.amount
    case PricePerUnit => f.pricePerUnit
    case Duration => f.duration
    case MinimumPurchase => f.minimumPurchase
  }

  /** `handleInputChange`: `{ ...formData, [name]: value }`. */
  function WithField(f: Form, field: Field, value: string): (r: Form)
    ensures Get(r, field) == value
    ensures forall other :: other != field ==> Get(r, other) == Get(f, other)
  {
    match field
    case Amount => f.(amount := value)
    case PricePerUnit => f.(pricePerUnit := value)
    case Duration => f.(duration := value)
    case MinimumPurchase => f.(minimumPurchase := value)
  }

  /** The write `handleCancelListing` sends: `contract.cancelListing(listingId)`. */
  datatype CancelCall = CancelListing(listingId: nat)

  /** How the `listEnergy` transaction of a submit ends. */
  datatype SubmitOutcome =
    | Rejected(message: string)  // the call itself threw (bad input, no contract, user refusal)
    | Reverted(message: string)  // sent, but `tx.wait()` threw
    | Confirmed

  /** `error.message || "Error listing energy"`. */
  function SubmitError(message: string): (r: string)
    ensures r != ""
    ensures message != "" ==> r == message
  {
    if message != "" then message else "Error listing energy"
  }

  const ListedMessage := "Energy listed successfully!"
  const CancelledMessage := "Listing cancelled successfully"
  const CancelErrorMessage := "Error cancelling listing"

  class Component {
    var formData: Form
    var userListings: seq<Entry>
    var showPreview: bool
    var showConfirmation: bool
    var loading: bool
    var error: string
    var success: string

    constructor ()
      ensures formData == EmptyForm && userListings == []
      ensures !showPreview && !showConfirmation && !loading && error == "" && success == ""
    {
      formData := EmptyForm;
      userListings := [];
      showPreview, showConfirmation, loading := false, false, false;
      error, success := "", "";
    }

    /** `fetchUserListings`: nothing without a contract; a failed scan keeps the list. */
    method FetchUserListings(contract: Option<Chain>, signer: Option<Address>)
      modifies this
      ensures contract.None? ==> userListings == old(userListings)
      ensures contract.Some? ==> userListings == OwnedListings(contract.value, signer).GetOr(old(userListings))
      ensures formData == old(formData) && showPreview == old(showPreview)
      ensures showConfirmation == old(showConfirmation) && loading == old(loading)
      ensures error == old(error) && success == old(success)
    {
      if contract.None? {
        return;
      }
      var fetched := FetchOwnedListings(contract.value, signer);
      if fetched.Some? {
        userListings := fetched.value;
      }
    }

    /** `handleInputChange`: only the named field changes. */
    method HandleInputChange(field: Field, value: string)
      modifies this
      ensures formData == WithField(old(formData), field, value)
      ensures userListings == old(userListings) && showPreview == old(showPreview)
      ensures showConfirmation == old(showConfirmation) && loading == old(loading)
      ensures error == old(error) && success == old(success)
    {
      formData := WithField(formData, field, value);
    }

    /** `handlePreview`. */
    method HandlePreview()
      modifies this
      ensures showPreview
      ensures formData == old(formData) && userListings == old(userListings)
      ensures showConfirmation == old(showConfirmation) && loading == old(loading)
      ensures error == old(error) && success == old(success)
    {
      showPreview := true;
    }

    /**
     * `handleSubmit`: the error is cleared, the listing is sent; once sent the
     * confirmation is shown; once confirmed the success message is set, the
     * signer's listings are fetched again (from the post-transaction snapshot
     * `after`) and the form is emptied. A failure keeps the form and the
     * listings and sets the error. Loading and preview end false either way.
     */
    method HandleSubmit(outcome: SubmitOutcome, after: Chain, signer: Option<Address>)
      modifies this
      ensures !loading && !showPreview
      ensures showConfirmation == (old(showConfirmation) || !outcome.Rejected?)
      ensures outcome.Confirmed? ==>
        && formData == EmptyForm
        && success == ListedMessage
        && error == ""
        && userListings == OwnedListings(after, signer).GetOr(old(userListings))
      ensures !outcome.Confirmed? ==>
        && formData == old(formData)
        && success == old(success)
        && error == SubmitError(outcome.message)
        && userListings == old(userListings)
    {
      loading := true;
      error := "";
      if outcome.Rejected? {
        error := SubmitError(outcome.message);
      } else {
        showConfirmation := true;
        if outcome.Reverted? {
          error := SubmitError(outcome.message);
        } else {
          success := ListedMessage;
          FetchUserListings(Some(after), signer);
          formData := EmptyForm;
        }
      }
      loading := false;
      showPreview := false;
    }

    /**
     * `handleCancelListing`: once the cancellation is confirmed the listings
     * are fetched again and only then the success message is set; a failure
     * sets the error. Nothing else changes.
     */
    method HandleCancelListing(listingId: nat, confirmed: bool, after: Chain, signer: Option<Address>)
      returns (call: CancelCall)
      modifies this
      ensures call == CancelListing(listingId)
      ensures confirmed ==>
        && userListings == OwnedListings(after, signer).GetOr(old(userListings))
        && success == CancelledMessage && error == old(error)
      ensures !confirmed ==>
        && userListings == old(userListings)
        && success == old(success) && error == CancelErrorMessage
      ensures formData == old(formData) && showPreview == old(showPreview)
      ensures showConfirmation == old(showConfirmation) && loading == old(loading)
    {
      call := CancelListing(listingId);
      if confirmed {
        FetchUserListings(Some(after), signer);
        success := CancelledMessage;
      } else {
        error := CancelErrorMessage;
      }
    }
  }
}
