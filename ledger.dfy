/**
 * The energy-trading token contract as the components see it: a read-only
 * snapshot of its listings and user profiles. The contract itself is not part
 * of this model; a read that throws (a revert, a dropped connection) is a
 * listing id or an address missing from the snapshot.
 */
module Ledger {
  import opened Wrappers
  import Seqs

  type Address = string

  /** An amount of tokens in wei (the contract's 18-decimal fixed-point integers). */
  type Wei = int

  /** `energyListings(id)` / `getListingDetails(id)`. */
  datatype Listing = Listing(
    seller: Address,
    amount: Wei,
    pricePerUnit: Wei,
    minimumPurchase: Wei,
    expirationTime: int,
    creationTime: int,
    active: bool,
    energySource: string)

  /** `getUserProfile(address)`. */
  datatype Profile = Profile(
    isVerified: bool,
    totalEnergyTraded: Wei,
    reputationScore: int,
    lastActivityTime: int,
    certificationIPFSHash: string,
    certificationTimestamp: int,
    certificationType: string,
    certificationValid: bool)

  /** What the contract answers: `nextListingId()`, the listings and the profiles. */
  datatype Chain = Chain(
    nextListingId: Option<nat>,
    listings: map<nat, Listing>,
    profiles: map<Address, Profile>)

  /** The record a scan stores for listing `id`: `{ id: i, ...listing }`. */
  datatype Entry = Entry(id: nat, listing: Listing)

  function ReadListing(c: Chain, id: nat): Option<Listing> {
    if id in c.listings then Some(c.listings[id]) else None
  }

  function ReadProfile(c: Chain, a: Address): Option<Profile> {
    if a in c.profiles then Some(c.profiles[a]) else None
  }

  /** Reading ids `0..n-1` one after the other; one failed read fails the whole scan. */
  function ReadAll(c: Chain, n: nat): (r: Option<seq<Listing>>)
    ensures r.Some? <==> forall i :: 0 <= i < n ==> ReadListing(c, i).Some?
    ensures r.Some? ==> |r.value| == n && forall i :: 0 <= i < n ==> ReadListing(c, i) == Some(r.value[i])
  {
    if n == 0 then Some([])
    else match (ReadAll(c, n - 1), ReadListing(c, n - 1))
      case (Some(ls), Some(l)) => Some(ls + [l])
      case _ => None
  }

  /** Each listing tagged with the id it was read at. */
  function Entries(ls: seq<Listing>): (r: seq<Entry>)
    ensures |r| == |ls|
    ensures forall i :: 0 <= i < |ls| ==> r[i] == Entry(i, ls[i])
  {
    seq(|ls|, i requires 0 <= i < |ls| => Entry(i, ls[i]))
  }

  /**
   * The tags are exactly the ids 0 to |ls| - 1, in ascending order, and each
   * tags the listing read at that id.
   */
  lemma EntriesSpec(ls: seq<Listing>)
    ensures IdsAscending(Entries(ls))
    ensures forall e :: e in Entries(ls) <==> e.id < |ls| && e.listing == ls[e.id]
  {
    forall e: Entry | e.id < |ls| && e.listing == ls[e.id]
      ensures e in Entries(ls)
    {
      assert Entries(ls)[e.id] == e;
    }
  }

  lemma EntriesAppend(ls: seq<Listing>, l: Listing)
    ensures Entries(ls + [l]) == Entries(ls) + [Entry(|ls|, l)]
  {
  }

  /** Ids strictly increase along the sequence. */
  predicate IdsAscending(es: seq<Entry>) {
    forall j, k :: 0 <= j < k < |es| ==> es[j].id < es[k].id
  }

  /**
   * Any filter of the tagged listings is in ascending id order, and each kept
   * entry carries the id it was read at.
   */
  lemma {:induction false} FilteredEntries(ls: seq<Listing>, p: Entry -> bool)
    ensures IdsAscending(Seqs.Filter(Entries(ls), p))
    ensures forall e :: e in Seqs.Filter(Entries(ls), p) ==> e.id < |ls| && e.listing == ls[e.id]
  {
    if ls != [] {
      var init := ls[..|ls| - 1];
      var last := ls[|ls| - 1];
      FilteredEntries(init, p);
      assert Entries(ls) == Entries(init) + [Entry(|init|, last)];
      Seqs.FilterAppend(Entries(init), Entry(|init|, last), p);
      forall e | e in Seqs.Filter(Entries(init), p)
        ensures e.id < |init|
      {
      }
    }
  }
}
