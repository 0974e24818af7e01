/**
 * The CarbonAnalytics screen: it reads every listing, fetches the profile of
 * each seller once, ranks the sellers by energy traded and shows a few counts.
 * The hourly and daily charts and the floating-point total are not modelled.
 */
module CarbonAnalytics {
  import opened Wrappers
  import opened Ledger
  import Seqs
  import BuyEnergy

  /** The profile record kept per seller (`userProfilesMap.set(seller, {...})`). */
  datatype ProducerRow = ProducerRow(
    address: Address,
    isVerified: bool,
    totalEnergyTraded: Wei,
    reputationScore: int,
    lastActivityTime: int,
    certificationValid: bool)

  function ToRow(a: Address, p: Profile): ProducerRow {
    ProducerRow(a, p.isVerified, p.totalEnergyTraded, p.reputationScore, p.lastActivityTime, p.certificationValid)
  }

  /** The seller of every listing, in id order. */
  function Sellers(ls: seq<Listing>): (r: seq<Address>)
    ensures |r| == |ls| && forall i :: 0 <= i < |ls| ==> r[i] == ls[i].seller
  {
    seq(|ls|, i requires 0 <= i < |ls| => ls[i].seller)
  }

  /** The position of the first occurrence of `a` in `s`. */
  function FirstIndex(s: seq<Address>, a: Address): (k: nat)
    requires a in s
    ensures k < |s| && s[k] == a && a !in s[..k]
  {
    if s[0] == a then 0 else 1 + FirstIndex(s[1..], a)
  }

  /**
   * The keys of a JavaScript `Map` after `if (!m.has(x)) m.set(x, ...)` for
   * every `x` of `s` in turn: each address once, in insertion order.
   */
  function Distinct(s: seq<Address>): (r: seq<Address>)
    ensures Seqs.NoDuplicates(r)
    ensures forall a :: a in r <==> a in s
  {
    if s == [] then []
    else
      var d := Distinct(s[..|s| - 1]);
      assert s == s[..|s| - 1] + [s[|s| - 1]];
      if s[|s| - 1] in d then d else d + [s[|s| - 1]]
  }

  lemma DistinctAppend(s: seq<Address>, x: Address)
    ensures Distinct(s + [x]) == if x in s then Distinct(s) else Distinct(s) + [x]
  {
    assert (s + [x])[..|s|] == s;
  }

  /** The keys of `userProfilesMap`: each seller once, added when it is first met. */
  function DistinctSellers(ls: seq<Listing>): seq<Address> {
    Distinct(Sellers(ls))
  }

  /** A listing whose seller was already met leaves the sellers unchanged; a new seller goes last. */
  lemma DistinctSellersAppend(ls: seq<Listing>, l: Listing)
    ensures DistinctSellers(ls + [l]) ==
      if l.seller in DistinctSellers(ls) then DistinctSellers(ls) else DistinctSellers(ls) + [l.seller]
  {
    assert Sellers(ls + [l]) == Sellers(ls) + [l.seller];
    DistinctAppend(Sellers(ls), l.seller);
  }

  lemma {:induction false} FirstIndexAppend(s: seq<Address>, x: Address, a: Address)
    requires a in s
    ensures FirstIndex(s + [x], a) == FirstIndex(s, a)
  {
    if s[0] != a {
      assert (s + [x])[1..] == s[1..] + [x];
      FirstIndexAppend(s[1..], x, a);
    }
  }

  /** Addresses listed in order of their first occurrence in `s`. */
  predicate InFirstOccurrenceOrder(d: seq<Address>, s: seq<Address>)
    requires forall a :: a in d ==> a in s
  {
    forall j, k :: 0 <= j < k < |d| ==> FirstIndex(s, d[j]) < FirstIndex(s, d[k])
  }

  /** Meeting an address again keeps the order. */
  lemma OrderKeptByRepeat(d: seq<Address>, s: seq<Address>, x: Address)
    requires forall a :: a in d ==> a in s
    requires InFirstOccurrenceOrder(d, s)
    ensures InFirstOccurrenceOrder(d, s + [x])
  {
    forall a | a in d
      ensures FirstIndex(s + [x], a) == FirstIndex(s, a)
    {
      FirstIndexAppend(s, x, a);
    }
  }

  /** Meeting a new address puts it last. */
  lemma OrderKeptByNew(d: seq<Address>, s: seq<Address>, x: Address)
    requires forall a :: a in d ==> a in s
    requires InFirstOccurrenceOrder(d, s)
    requires x !in s
    ensures InFirstOccurrenceOrder(d + [x], s + [x])
  {
    OrderKeptByRepeat(d, s, x);
    assert (s + [x])[..|s|] == s;
    assert FirstIndex(s + [x], x) == |s|;
    forall j, k | 0 <= j < k < |d + [x]|
      ensures FirstIndex(s + [x], (d + [x])[j]) < FirstIndex(s + [x], (d + [x])[k])
    {
      assert (d + [x])[j] == d[j];
      if k < |d| {
        assert (d + [x])[k] == d[k];
      } else {
        assert FirstIndex(s + [x], d[j]) == FirstIndex(s, d[j]) < |s| by {
          FirstIndexAppend(s, x, d[j]);
        }
      }
    }
  }

  /** `Distinct` lists the addresses in the order of their first occurrence. */
  lemma {:induction false} DistinctOrder(s: seq<Address>)
    ensures InFirstOccurrenceOrder(Distinct(s), s)
  {
    if s != [] {
      var init, x := s[..|s| - 1], s[|s| - 1];
      assert s == init + [x];
      DistinctOrder(init);
      if x in Distinct(init) {
        OrderKeptByRepeat(Distinct(init), init, x);
      } else {
        OrderKeptByNew(Distinct(init), init, x);
      }
    }
  }

  /** Fetching the profile of each address in turn; one failed read fails all. */
  function ReadProfiles(c: Chain, addrs: seq<Address>): (r: Option<seq<ProducerRow>>)
    ensures r.Some? <==> forall k :: 0 <= k < |addrs| ==> addrs[k] in c.profiles
    ensures r.Some? ==>
      && |r.value| == |addrs|
      && forall k :: 0 <= k < |addrs| ==> r.value[k] == ToRow(addrs[k], c.profiles[addrs[k]])
  {
    if addrs == [] then Some([])
    else
      var init, last := addrs[..|addrs| - 1], addrs[|addrs| - 1];
      match (ReadProfiles(c, init), ReadProfile(c, last))
      case (Some(rows), Some(p)) => Some(rows + [ToRow(last, p)])
      case _ => None
  }

  /** A seller whose profile cannot be read makes the whole scan fail. */
  lemma UnreadableSellerFailsScan(c: Chain, i: nat, l: Listing)
    requires c.nextListingId.Some? && i < c.nextListingId.value
    requires ReadListing(c, i) == Some(l) && l.seller !in c.profiles
    ensures AnalyticsScan(c).None?
  {
    var n := c.nextListingId.value;
    if ReadAll(c, n).Some? {
      var ls := ReadAll(c, n).value;
      assert ls[i] == l;
      assert l.seller in Sellers(ls);
      assert l.seller in DistinctSellers(ls);
    }
  }

  /** A listing that cannot be read makes the whole scan fail. */
  lemma UnreadableListingFailsScan(c: Chain, i: nat)
    requires c.nextListingId.Some? && i < c.nextListingId.value
    requires ReadListing(c, i).None?
    ensures AnalyticsScan(c).None?
  {
  }

  /** A scan whose listings and profiles were all read succeeds with them. */
  lemma ScanSucceeds(c: Chain, ls: seq<Listing>, rows: seq<ProducerRow>)
    requires c.nextListingId.Some? && ReadAll(c, c.nextListingId.value) == Some(ls)
    requires ReadProfiles(c, DistinctSellers(ls)) == Some(rows)
    ensures AnalyticsScan(c) == Some(Scan(Entries(ls), rows))
  {
  }

  /** The values of the profile map, in key order, are the profiles read for those keys. */
  lemma MapValuesAreProfiles(c: Chain, keys: seq<Address>, m: map<Address, ProducerRow>, rows: seq<ProducerRow>)
    requires forall a :: a in m <==> a in keys
    requires forall a :: a in m ==> a in c.profiles && m[a] == ToRow(a, c.profiles[a])
    requires |rows| == |keys| && forall k :: 0 <= k < |keys| ==> rows[k] == m[keys[k]]
    ensures ReadProfiles(c, keys) == Some(rows)
  {
    assert forall k :: 0 <= k < |keys| ==> keys[k] in m;
    var r := ReadProfiles(c, keys);
    assert r.Some?;
    assert |r.value| == |rows|;
    forall k | 0 <= k < |keys|
      ensures r.value[k] == rows[k]
    {
      assert keys[k] in m;
    }
    assert r.value == rows;
    assert r == Some(r.value);
  }

  /** What one successful pass of `fetchAnalytics` collects before ranking. */
  datatype Scan = Scan(listings: seq<Entry>, profiles: seq<ProducerRow>)

  /**
   * The listings `0..nextListingId-1`, active and inactive, and the profile of
   * each distinct seller in order of first appearance; `None` when any read fails.
   */
  function AnalyticsScan(c: Chain): Option<Scan> {
    match c.nextListingId
    case None => None
    case Some(n) =>
      match ReadAll(c, n)
      case None => None
      case Some(ls) =>
        match ReadProfiles(c, DistinctSellers(ls))
        case None => None
        case Some(rows) => Some(Scan(Entries(ls), rows))
  }

  /**
   * The loop of `fetchAnalytics`. `profileCalls` lists the addresses passed to
   * `getUserProfile`, in call order: no address is asked for twice, and when
   * the scan succeeds they are exactly the distinct sellers.
   */
  method FetchScan(c: Chain) returns (r: Option<Scan>, profileCalls: seq<Address>)
    ensures r == AnalyticsScan(c)
    ensures Seqs.NoDuplicates(profileCalls)
    ensures r.Some? ==> profileCalls == DistinctSellers(ReadAll(c, c.nextListingId.value).value)
  {
    profileCalls := [];
    if c.nextListingId.None? {
      return None, profileCalls;
    }
    var count := c.nextListingId.value;
    var listings: seq<Entry> := [];
    var profileMap: map<Address, ProducerRow> := map[];
    ghost var read: seq<Listing> := [];
    for i := 0 to count
      invariant ReadAll(c, i) == Some(read)
      invariant listings == Entries(read)
      invariant profileCalls == DistinctSellers(read)
      invariant forall a :: a in profileMap <==> a in profileCalls
      invariant forall a :: a in profileMap ==> a in c.profiles && profileMap[a] == ToRow(a, c.profiles[a])
    {
      var listing := ReadListing(c, i);
      if listing.None? {
        UnreadableListingFailsScan(c, i);
        return None, profileCalls;
      }
      var l := listing.value;
      DistinctSellersAppend(read, l);
      EntriesAppend(read, l);
      listings := listings + [Entry(i, l)];
      if l.seller !in profileMap {
        profileCalls := profileCalls + [l.seller];
        var profile := ReadProfile(c, l.seller);
        if profile.None? {
          UnreadableSellerFailsScan(c, i, l);
          return None, profileCalls;
        }
        profileMap := profileMap[l.seller := ToRow(l.seller, profile.value)];
      }
      read := read + [l];
    }
    var rows := seq(|profileCalls|, k requires 0 <= k < |profileCalls| => profileMap[profileCalls[k]]);
    MapValuesAreProfiles(c, profileCalls, profileMap, rows);
    ScanSucceeds(c, read, rows);
    return Some(Scan(listings, rows)), profileCalls;
  }

  /** Highest `totalEnergyTraded` first. */
  predicate SortedDescending(s: seq<ProducerRow>) {
    forall p, q :: 0 <= p < q < |s| ==> s[p].totalEnergyTraded >= s[q].totalEnergyTraded
  }

  /** The test for rows with exactly `t` energy traded. */
  function WithEnergy(t: Wei): ProducerRow -> bool {
    (r: ProducerRow) => r.totalEnergyTraded == t
  }

  /**
   * `u` lists the rows of every energy total in the same order as `s`: a
   * reordering that keeps tied rows in place relative to each other.
   */
  ghost predicate SameTies(s: seq<ProducerRow>, u: seq<ProducerRow>) {
    forall t: Wei :: Seqs.Filter(s, WithEnergy(t)) == Seqs.Filter(u, WithEnergy(t))
  }

  /** A row moved in front of rows with less energy traded passes none of its ties. */
  lemma MoveKeepsTie(pre: seq<ProducerRow>, x: ProducerRow, mid: seq<ProducerRow>, post: seq<ProducerRow>, t: Wei)
    requires forall q :: 0 <= q < |mid| ==> mid[q].totalEnergyTraded < x.totalEnergyTraded
    ensures Seqs.Filter(pre + [x] + mid + post, WithEnergy(t)) == Seqs.Filter(pre + mid + [x] + post, WithEnergy(t))
  {
    var p := WithEnergy(t);
    BlockKeepsTie(x, mid, t);
    assert pre + [x] + mid + post == pre + ([x] + mid) + post;
    assert pre + mid + [x] + post == pre + (mid + [x]) + post;
    Seqs.FilterConcat(pre + ([x] + mid), post, p);
    Seqs.FilterConcat(pre, [x] + mid, p);
    Seqs.FilterConcat(pre + (mid + [x]), post, p);
    Seqs.FilterConcat(pre, mid + [x], p);
  }

  /** The same, for the moved row and the rows it passes alone. */
  lemma BlockKeepsTie(x: ProducerRow, mid: seq<ProducerRow>, t: Wei)
    requires forall q :: 0 <= q < |mid| ==> mid[q].totalEnergyTraded < x.totalEnergyTraded
    ensures Seqs.Filter([x] + mid, WithEnergy(t)) == Seqs.Filter(mid + [x], WithEnergy(t))
  {
    var p := WithEnergy(t);
    Seqs.FilterConcat([x], mid, p);
    Seqs.FilterConcat(mid, [x], p);
    if p(x) {
      Seqs.FilterNone(mid, p);
    } else {
      assert Seqs.Filter([x], p) == [] by {
        assert [x][1..] == [];
      }
    }
  }

  /**
   * `a` is `s` with the row at `i` moved to position `j`, past rows that all
   * have less energy traded: the shape one step of the sort leaves behind.
   */
  ghost predicate MovedLeft(a: array<ProducerRow>, s: seq<ProducerRow>, j: nat, i: nat)
    reads a
  {
    && j <= i < |s| == a.Length
    && (forall q :: j <= q < i ==> s[q].totalEnergyTraded < s[i].totalEnergyTraded)
    && (forall k :: 0 <= k < j ==> a[k] == s[k])
    && a[j] == s[i]
    && (forall k :: j < k <= i ==> a[k] == s[k - 1])
    && (forall k :: i < k < a.Length ==> a[k] == s[k])
  }

  /** The moved row's new place splits `a` and `s` into the same four pieces. */
  lemma MovedLeftPieces(a: array<ProducerRow>, s: seq<ProducerRow>, j: nat, i: nat)
    requires MovedLeft(a, s, j, i)
    ensures s == s[..j] + s[j..i] + [s[i]] + s[i + 1..]
    ensures a[..] == s[..j] + [s[i]] + s[j..i] + s[i + 1..]
  {
  }

  /** Such a move keeps every row: `a` is a permutation of `s`. */
  lemma MovedLeftPermutes(a: array<ProducerRow>, s: seq<ProducerRow>, j: nat, i: nat)
    requires MovedLeft(a, s, j, i)
    ensures multiset(a[..]) == multiset(s)
  {
    MovedLeftPieces(a, s, j, i);
  }

  /** Such a move keeps the order of every tie. */
  lemma MovedLeftKeepsTies(a: array<ProducerRow>, s: seq<ProducerRow>, j: nat, i: nat)
    requires MovedLeft(a, s, j, i)
    ensures SameTies(a[..], s)
  {
    var pre, mid, post := s[..j], s[j..i], s[i + 1..];
    MovedLeftPieces(a, s, j, i);
    forall t: Wei
      ensures Seqs.Filter(a[..], WithEnergy(t)) == Seqs.Filter(s, WithEnergy(t))
    {
      MoveKeepsTie(pre, s[i], mid, post, t);
    }
  }

  /**
   * When the first `i` rows were sorted and the move stopped in front of a
   * row with at least as much energy traded, the first `i + 1` rows are sorted.
   */
  lemma MovedLeftSorts(a: array<ProducerRow>, s: seq<ProducerRow>, j: nat, i: nat)
    requires MovedLeft(a, s, j, i)
    requires SortedDescending(s[..i])
    requires j > 0 ==> s[j - 1].totalEnergyTraded >= s[i].totalEnergyTraded
    ensures SortedDescending(a[..i + 1])
  {
    forall p, q | 0 <= p < q <= i
      ensures a[p].totalEnergyTraded >= a[q].totalEnergyTraded
    {
      if q < j {
        assert s[..i][p] == s[p] && s[..i][q] == s[q];
      } else if q == j {
        assert s[..i][p] == s[p] && s[..i][j - 1] == s[j - 1];
      } else if p < j {
        assert s[..i][p] == s[p] && s[..i][q - 1] == s[q - 1];
      } else if p > j {
        assert s[..i][p - 1] == s[p - 1] && s[..i][q - 1] == s[q - 1];
      }
    }
  }

  /**
   * One step of the sort: the row at `i` moves left past the rows with less
   * energy traded, so that the first `i + 1` rows are sorted; it never passes
   * a row with the same total.
   */
  method InsertDescending(a: array<ProducerRow>, i: nat)
    requires i < a.Length
    requires SortedDescending(a[..i])
    modifies a
    ensures SortedDescending(a[..i + 1])
    ensures forall k :: i < k < a.Length ==> a[k] == old(a[k])
    ensures multiset(a[..]) == multiset(old(a[..]))
    ensures SameTies(a[..], old(a[..]))
  {
    ghost var s := a[..];
    var j: nat := i;
    while j > 0 && a[j - 1].totalEnergyTraded < a[j].totalEnergyTraded
      invariant MovedLeft(a, s, j, i)
    {
      Swap(a, j);
      j := j - 1;
    }
    MovedLeftSorts(a, s, j, i);
    MovedLeftPermutes(a, s, j, i);
    MovedLeftKeepsTies(a, s, j, i);
  }

  /** Exchanges the rows at `j - 1` and `j`. */
  method Swap(a: array<ProducerRow>, j: nat)
    requires 0 < j < a.Length
    modifies a
    ensures a[j - 1] == old(a[j]) && a[j] == old(a[j - 1])
    ensures forall k :: 0 <= k < a.Length && k != j - 1 && k != j ==> a[k] == old(a[k])
    ensures multiset(a[..]) == multiset(old(a[..]))
  {
    a[j - 1], a[j] := a[j], a[j - 1];
  }

  /**
   * `userProfiles.sort((a, b) => b.totalEnergyTraded - a.totalEnergyTraded)`:
   * the array is reordered in place into non-increasing order.
   */
  method SortByEnergyTraded(a: array<ProducerRow>)
    modifies a
    ensures SortedDescending(a[..])
    ensures multiset(a[..]) == multiset(old(a[..]))
    ensures SameTies(a[..], old(a[..]))
  {
    var i := 0;
    while i < a.Length
      invariant 0 <= i <= a.Length
      invariant SortedDescending(a[..i])
      invariant multiset(a[..]) == multiset(old(a[..]))
      invariant SameTies(a[..], old(a[..]))
    {
      InsertDescending(a, i);
      i := i + 1;
    }
    assert a[..a.Length] == a[..];
  }

  /** `processTopProducers`: sort the profiles in place, then take the first five. */
  method ProcessTopProducers(a: array<ProducerRow>) returns (top: seq<ProducerRow>)
    modifies a
    ensures SortedDescending(a[..])
    ensures multiset(a[..]) == multiset(old(a[..]))
    ensures SameTies(a[..], old(a[..]))
    ensures top == a[..if a.Length < 5 then a.Length else 5]
  {
    SortByEnergyTraded(a);
    top := a[..if a.Length < 5 then a.Length else 5];
  }

  /** The top-five list is sorted, as long as it can be, and drawn from the profiles. */
  lemma TopProducersSpec(sorted: seq<ProducerRow>, top: seq<ProducerRow>)
    requires SortedDescending(sorted)
    requires top == sorted[..if |sorted| < 5 then |sorted| else 5]
    ensures |top| == if |sorted| < 5 then |sorted| else 5
    ensures SortedDescending(top)
    ensures multiset(top) <= multiset(sorted)
    ensures forall p, q :: 0 <= p < |top| <= q < |sorted| ==>
      top[p].totalEnergyTraded >= sorted[q].totalEnergyTraded
  {
    assert sorted == top + sorted[|top|..];
  }

  /** The Active Listings figure. */
  function ActiveListingsFigure(listingsData: seq<Entry>): nat {
    Seqs.Count(listingsData, BuyEnergy.IsActive)
  }

  /** The Verified Users figure. */
  function VerifiedUsersFigure(userProfiles: seq<ProducerRow>): nat {
    Seqs.Count(userProfiles, (r: ProducerRow) => r.isVerified)
  }

  /**
   * The Active Listings figure of a successful scan is the number of active
   * listings, the same number of entries the BuyEnergy screen lists.
   */
  lemma ActiveFigureMatchesMarketplace(c: Chain)
    requires AnalyticsScan(c).Some?
    ensures BuyEnergy.ActiveListings(c).Some?
    ensures ActiveListingsFigure(AnalyticsScan(c).value.listings) == |BuyEnergy.ActiveListings(c).value|
  {
  }

  /** Ranking reorders the profiles but does not change the Verified Users figure. */
  lemma VerifiedFigureIgnoresRanking(before: seq<ProducerRow>, after: seq<ProducerRow>)
    requires multiset(after) == multiset(before)
    ensures VerifiedUsersFigure(after) == VerifiedUsersFigure(before)
  {
    Seqs.CountPermutation(after, before, (r: ProducerRow) => r.isVerified);
  }

  /** What the screen stores (`analyticsData`), less the chart series. */
  datatype AnalyticsData = AnalyticsData(
    topProducers: seq<ProducerRow>,
    userProfiles: seq<ProducerRow>,
    listingsData: seq<Entry>)

  const FetchErrorMessage := "Failed to fetch analytics data. Please try again later."

  class Component {
    var analyticsData: AnalyticsData
    var loading: bool
    var error: Option<string>

    constructor ()
      ensures analyticsData == AnalyticsData([], [], []) && loading && error.None?
    {
      analyticsData := AnalyticsData([], [], []);
      loading := true;
      error := None;
    }

    /**
     * `fetchAnalytics`. Without a contract it returns before its `finally`, so
     * `loading` stays as it was. Otherwise `loading` ends false; a failed read
     * sets the error and keeps `analyticsData`; a successful scan stores the
     * listings, the profiles ranked in place (the same array the top five are
     * cut from) and the top five, and clears the error.
     */
    method FetchAnalytics(contract: Option<Chain>)
      modifies this
      ensures contract.None? ==>
        analyticsData == old(analyticsData) && loading == old(loading) && error == old(error)
      ensures contract.Some? ==> !loading
      ensures contract.Some? && AnalyticsScan(contract.value).None? ==>
        analyticsData == old(analyticsData) && error == Some(FetchErrorMessage)
      ensures contract.Some? && AnalyticsScan(contract.value).Some? ==>
        var scan, d := AnalyticsScan(contract.value).value, analyticsData;
        && error.None?
        && d.listingsData == scan.listings
        && multiset(d.userProfiles) == multiset(scan.profiles)
        && SortedDescending(d.userProfiles)
        && SameTies(d.userProfiles, scan.profiles)
        && d.topProducers == d.userProfiles[..if |d.userProfiles| < 5 then |d.userProfiles| else 5]
    {
      if contract.None? {
        return;
      }
      var scan, _ := FetchScan(contract.value);
      if scan.None? {
        error := Some(FetchErrorMessage);
      } else {
        var profiles := scan.value.profiles;
        var userProfiles := new ProducerRow[|profiles|](k requires 0 <= k < |profiles| => profiles[k]);
        assert userProfiles[..] == profiles;
        var top := ProcessTopProducers(userProfiles);
        analyticsData := AnalyticsData(top, userProfiles[..], scan.value.listings);
        error := None;
      }
      loading := false;
    }
  }
}
