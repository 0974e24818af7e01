/**
 * The TransactionHistory screen: the signer's purchases and listings read from
 * the contract's events, a filter over them, and a CSV export of what the
 * filter keeps.
 */
module TransactionHistory {
  import opened Wrappers
  import opened Ledger
  import Seqs
  import Text

  /** The `type` of a row: `'purchase'` or `'sale'`. */
  datatype TxType = Purchase | Sale {
    function Name(): string {
      match this
      case Purchase => "purchase"
      case Sale => "sale"
    }
  }

  /** One row of the history; amounts and prices are already `formatEther` strings. */
  datatype Transaction = Transaction(
    txType: TxType,
    id: string,
    amount: string,
    price: string,
    date: int,
    source: string)

  /** An `EnergyPurchased` event of the signer, with its block's timestamp. */
  datatype PurchaseEvent = PurchaseEvent(listingId: nat, amount: Wei, totalPrice: Wei, timestamp: int)

  /** An `EnergyListed` event of the signer, with its block's timestamp. */
  datatype ListedEvent = ListedEvent(listingId: nat, amount: Wei, pricePerUnit: Wei, timestamp: int)

  /** A purchase row; the energy source comes from reading the listing, which may fail. */
  function FormatPurchase(e: PurchaseEvent, c: Chain, formatEther: Wei -> string): (r: Option<Transaction>)
    ensures r.Some? <==> e.listingId in c.listings
    ensures r.Some? ==>
      && r.value.txType == Purchase && r.value.date == e.timestamp
      && r.value.id == Text.NatToString(e.listingId)
      && r.value.amount == formatEther(e.amount) && r.value.price == formatEther(e.totalPrice)
      && r.value.source == c.listings[e.listingId].energySource
  {
    match ReadListing(c, e.listingId)
    case None => None
    case Some(l) =>
      Some(Transaction(Purchase, Text.NatToString(e.listingId), formatEther(e.amount),
                       formatEther(e.totalPrice), e.timestamp, l.energySource))
  }

  /** A sale row; the price shown is the listing's price per unit. */
  function FormatSale(e: ListedEvent, c: Chain, formatEther: Wei -> string): (r: Option<Transaction>)
    ensures r.Some? <==> e.listingId in c.listings
    ensures r.Some? ==>
      && r.value.txType == Sale && r.value.date == e.timestamp
      && r.value.id == Text.NatToString(e.listingId)
      && r.value.amount == formatEther(e.amount) && r.value.price == formatEther(e.pricePerUnit)
      && r.value.source == c.listings[e.listingId].energySource
  {
    match ReadListing(c, e.listingId)
    case None => None
    case Some(l) =>
      Some(Transaction(Sale, Text.NatToString(e.listingId), formatEther(e.amount),
                       formatEther(e.pricePerUnit), e.timestamp, l.energySource))
  }

  /** `Promise.all(purchaseEvents.map(...))`: all rows, or `None` if one read fails. */
  function FormatPurchases(es: seq<PurchaseEvent>, c: Chain, formatEther: Wei -> string): (r: Option<seq<Transaction>>)
    ensures r.Some? <==> forall k :: 0 <= k < |es| ==> FormatPurchase(es[k], c, formatEther).Some?
    ensures r.Some? ==> |r.value| == |es|
    ensures r.Some? ==> forall k :: 0 <= k < |es| ==> Some(r.value[k]) == FormatPurchase(es[k], c, formatEther)
    ensures r.Some? ==> forall k :: 0 <= k < |es| ==>
      r.value[k].txType == Purchase && r.value[k].date == es[k].timestamp
      && r.value[k].id == Text.NatToString(es[k].listingId)
  {
    if es == [] then Some([])
    else
      match (FormatPurchase(es[0], c, formatEther), FormatPurchases(es[1..], c, formatEther))
      case (Some(t), Some(ts)) => Some([t] + ts)
      case _ => None
  }

  /** `Promise.all(saleEvents.map(...))`: all rows, or `None` if one read fails. */
  function FormatSales(es: seq<ListedEvent>, c: Chain, formatEther: Wei -> string): (r: Option<seq<Transaction>>)
    ensures r.Some? <==> forall k :: 0 <= k < |es| ==> FormatSale(es[k], c, formatEther).Some?
    ensures r.Some? ==> |r.value| == |es|
    ensures r.Some? ==> forall k :: 0 <= k < |es| ==> Some(r.value[k]) == FormatSale(es[k], c, formatEther)
    ensures r.Some? ==> forall k :: 0 <= k < |es| ==>
      r.value[k].txType == Sale && r.value[k].date == es[k].timestamp
      && r.value[k].id == Text.NatToString(es[k].listingId)
  {
    if es == [] then Some([])
    else
      match (FormatSale(es[0], c, formatEther), FormatSales(es[1..], c, formatEther))
      case (Some(t), Some(ts)) => Some([t] + ts)
      case _ => None
  }

  /**
   * `fetchTransactionHistory`: with a contract, the signer's address and both
   * event queries, the purchases followed by the sales replace the history;
   * without a contract, or when any read fails, the history is kept.
   */
  function FetchTransactionHistory(
    transactions: seq<Transaction>,
    contract: Option<Chain>,
    signer: Option<Address>,
    purchaseEvents: Option<seq<PurchaseEvent>>,
    saleEvents: Option<seq<ListedEvent>>,
    formatEther: Wei -> string): seq<Transaction>
  {
    if contract.None? || signer.None? || purchaseEvents.None? || saleEvents.None? then transactions
    else
      var c := contract.value;
      match (FormatPurchases(purchaseEvents.value, c, formatEther), FormatSales(saleEvents.value, c, formatEther))
      case (Some(ps), Some(ss)) => ps + ss
      case _ => transactions
  }

  /**
   * A successful fetch stores one row per purchase event, in event order, then
   * one row per sale event, in event order; nothing is sorted by date.
   */
  lemma HistoryIsPurchasesThenSales(
    transactions: seq<Transaction>, c: Chain, signer: Address,
    ps: seq<PurchaseEvent>, ss: seq<ListedEvent>, formatEther: Wei -> string)
    requires FormatPurchases(ps, c, formatEther).Some? && FormatSales(ss, c, formatEther).Some?
    ensures FetchTransactionHistory(transactions, Some(c), Some(signer), Some(ps), Some(ss), formatEther) ==
      FormatPurchases(ps, c, formatEther).value + FormatSales(ss, c, formatEther).value
    ensures var h := FetchTransactionHistory(transactions, Some(c), Some(signer), Some(ps), Some(ss), formatEther);
      && |h| == |ps| + |ss|
      && (forall k :: 0 <= k < |ps| ==>
            h[k].txType == Purchase && h[k].date == ps[k].timestamp
            && h[k].id == Text.NatToString(ps[k].listingId)
            && h[k].amount == formatEther(ps[k].amount) && h[k].price == formatEther(ps[k].totalPrice))
      && (forall k :: |ps| <= k < |h| ==>
            h[k].txType == Sale && h[k].date == ss[k - |ps|].timestamp
            && h[k].id == Text.NatToString(ss[k - |ps|].listingId)
            && h[k].amount == formatEther(ss[k - |ps|].amount) && h[k].price == formatEther(ss[k - |ps|].pricePerUnit))
  {
    var fp := FormatPurchases(ps, c, formatEther).value;
    var fs := FormatSales(ss, c, formatEther).value;
    assert FetchTransactionHistory(transactions, Some(c), Some(signer), Some(ps), Some(ss), formatEther) == fp + fs;
  }

  /** A listing read that fails, for a purchase or for a sale, leaves the stored history as it was. */
  lemma FailedFetchKeepsHistory(
    transactions: seq<Transaction>, c: Chain, signer: Address,
    ps: seq<PurchaseEvent>, ss: seq<ListedEvent>, formatEther: Wei -> string, k: nat)
    requires (k < |ps| && ps[k].listingId !in c.listings) || (k < |ss| && ss[k].listingId !in c.listings)
    ensures FetchTransactionHistory(transactions, Some(c), Some(signer), Some(ps), Some(ss), formatEther) == transactions
  {
    if k < |ps| && ps[k].listingId !in c.listings {
      assert FormatPurchase(ps[k], c, formatEther).None?;
    } else {
      assert FormatSale(ss[k], c, formatEther).None?;
    }
  }

  /**
   * The filter panel. `None` stands for the select value `'all'` and for an
   * empty date field; a date bound is the date's start in seconds.
   */
  datatype Filters = Filters(txType: Option<TxType>, source: Option<string>, startDate: Option<int>, endDate: Option<int>)

  /** `{ type: 'all', source: 'all', startDate: '', endDate: '' }`. */
  const DefaultFilters := Filters(None, None, None, None)

  /** The test of `filteredTransactions`. */
  predicate Matches(f: Filters, tx: Transaction) {
    && (f.txType.None? || tx.txType == f.txType.value)
    && (f.source.None? || tx.source == f.source.value)
    && (f.startDate.None? || tx.date >= f.startDate.value)
    && (f.endDate.None? || tx.date <= f.endDate.value)
  }

  function MatchesFilters(f: Filters): Transaction -> bool {
    tx => Matches(f, tx)
  }

  /** `filteredTransactions`. */
  function FilteredTransactions(transactions: seq<Transaction>, f: Filters): seq<Transaction> {
    Seqs.Filter(transactions, MatchesFilters(f))
  }

  /**
   * The filtered list keeps the order of the history, and a row is in it
   * exactly when it is in the history and passes the type, source and date tests.
   */
  lemma FilteredSpec(transactions: seq<Transaction>, f: Filters)
    ensures Seqs.IsSubsequence(FilteredTransactions(transactions, f), transactions)
    ensures forall tx :: tx in FilteredTransactions(transactions, f) <==>
      && tx in transactions
      && (f.txType.None? || tx.txType == f.txType.value)
      && (f.source.None? || tx.source == f.source.value)
      && (f.startDate.None? || f.startDate.value <= tx.date)
      && (f.endDate.None? || tx.date <= f.endDate.value)
  {
    Seqs.FilterIsSubsequence(transactions, MatchesFilters(f));
  }

  /** The default filters keep the whole history. */
  lemma DefaultFiltersKeepAll(transactions: seq<Transaction>)
    ensures FilteredTransactions(transactions, DefaultFilters) == transactions
  {
    Seqs.FilterAll(transactions, MatchesFilters(DefaultFilters));
  }

  /** Filtering by type and source at once is filtering by type, then by source. */
  lemma FiltersCompose(transactions: seq<Transaction>, t: TxType, s: string)
    ensures FilteredTransactions(transactions, Filters(Some(t), Some(s), None, None)) ==
      FilteredTransactions(FilteredTransactions(transactions, Filters(Some(t), None, None, None)), Filters(None, Some(s), None, None))
  {
    Seqs.FilterFilter(transactions, MatchesFilters(Filters(Some(t), None, None, None)),
      MatchesFilters(Filters(None, Some(s), None, None)), MatchesFilters(Filters(Some(t), Some(s), None, None)));
  }

  /** The date range is one filter on the start and one on the end. */
  lemma DateBoundsCompose(transactions: seq<Transaction>, start: int, end: int)
    ensures FilteredTransactions(transactions, Filters(None, None, Some(start), Some(end))) ==
      FilteredTransactions(FilteredTransactions(transactions, Filters(None, None, Some(start), None)),
                           Filters(None, None, None, Some(end)))
  {
    Seqs.FilterFilter(transactions, MatchesFilters(Filters(None, None, Some(start), None)),
      MatchesFilters(Filters(None, None, None, Some(end))), MatchesFilters(Filters(None, None, Some(start), Some(end))));
  }

  /** The first line of the export. */
  const Header: seq<string> := ["Type", "ID", "Amount", "Price", "Date", "Source"]

  /** The fields of one exported row; the date goes through `formatDate`. */
  function Fields(tx: Transaction, formatDate: int -> string): seq<string> {
    [tx.txType.Name(), tx.id, tx.amount, tx.price, formatDate(tx.date), tx.source]
  }

  /** Each row's fields joined with commas; nothing is quoted or escaped. */
  function RowLines(txs: seq<Transaction>, formatDate: int -> string): (r: seq<string>)
    ensures |r| == |txs|
    ensures forall k :: 0 <= k < |txs| ==> r[k] == Text.Join(Fields(txs[k], formatDate), ',')
  {
    if txs == [] then [] else [Text.Join(Fields(txs[0], formatDate), ',')] + RowLines(txs[1..], formatDate)
  }

  /** The header line, then one line per row. */
  function Lines(txs: seq<Transaction>, formatDate: int -> string): (r: seq<string>)
    ensures |r| == |txs| + 1
  {
    [Text.Join(Header, ',')] + RowLines(txs, formatDate)
  }

  /** The text `exportHistory` downloads: the lines of the filtered rows joined with newlines. */
  function ExportHistory(transactions: seq<Transaction>, f: Filters, formatDate: int -> string): string {
    Text.Join(Lines(FilteredTransactions(transactions, f), formatDate), '\n')
  }

  /** No field of the row holds `c`. */
  predicate FieldsAvoid(tx: Transaction, formatDate: int -> string, c: char) {
    forall k :: 0 <= k < 6 ==> c !in Fields(tx, formatDate)[k]
  }

  /** The header line. */
  lemma HeaderLine()
    ensures Text.Join(Header, ',') == "Type,ID,Amount,Price,Date,Source"
  {
  }

  /** A row whose fields hold no `c` other than the comma gives a line without `c`. */
  lemma RowAvoids(tx: Transaction, formatDate: int -> string, c: char)
    requires c != ',' && FieldsAvoid(tx, formatDate, c)
    ensures c !in Text.Join(Fields(tx, formatDate), ',')
  {
    Text.JoinAvoids(Fields(tx, formatDate), ',', c);
  }

  lemma HeaderAvoidsNewline()
    ensures '\n' !in Text.Join(Header, ',')
  {
    Text.JoinAvoids(Header, ',', '\n');
  }

  /** Lines of rows whose fields hold no newline hold no newline. */
  lemma LinesAvoidNewline(rows: seq<Transaction>, formatDate: int -> string)
    requires forall tx :: tx in rows ==> FieldsAvoid(tx, formatDate, '\n')
    ensures forall k :: 0 <= k < |rows| + 1 ==> '\n' !in Lines(rows, formatDate)[k]
  {
    var body := RowLines(rows, formatDate);
    forall k | 0 <= k < |rows|
      ensures '\n' !in body[k]
    {
      assert rows[k] in rows;
      RowAvoids(rows[k], formatDate, '\n');
    }
    HeaderAvoidsNewline();
    assert Lines(rows, formatDate) == [Text.Join(Header, ',')] + body;
  }

  /**
   * When no field holds a newline, splitting the export on newlines gives the
   * header line `Type,ID,Amount,Price,Date,Source` and then exactly one line
   * per filtered row, in order.
   */
  lemma ExportLines(transactions: seq<Transaction>, f: Filters, formatDate: int -> string)
    requires forall tx :: tx in transactions ==> FieldsAvoid(tx, formatDate, '\n')
    ensures var rows := FilteredTransactions(transactions, f);
      var lines := Text.Split(ExportHistory(transactions, f, formatDate), '\n');
      && |lines| == 1 + |rows|
      && lines[0] == "Type,ID,Amount,Price,Date,Source"
      && forall k :: 0 <= k < |rows| ==> lines[k + 1] == Text.Join(Fields(rows[k], formatDate), ',')
  {
    var rows := FilteredTransactions(transactions, f);
    LinesAvoidNewline(rows, formatDate);
    Text.SplitJoin(Lines(rows, formatDate), '\n');
    HeaderLine();
  }

  /** When no field holds a comma, splitting an exported row on commas gives back its six fields. */
  lemma RowRoundTrip(tx: Transaction, formatDate: int -> string)
    requires FieldsAvoid(tx, formatDate, ',')
    ensures Text.Split(Text.Join(Fields(tx, formatDate), ','), ',') == Fields(tx, formatDate)
  {
    Text.SplitJoin(Fields(tx, formatDate), ',');
  }

  /** The history is not re-sorted: a purchase is listed before an earlier sale. */
  lemma NotSortedByDate(c: Chain, formatEther: Wei -> string, l: Listing)
    requires 7 in c.listings && c.listings[7] == l
    ensures var h := FetchTransactionHistory([], Some(c), Some("0xabc"),
        Some([PurchaseEvent(7, 1, 1, 200)]), Some([ListedEvent(7, 1, 1, 100)]), formatEther);
      |h| == 2 && h[0].date == 200 && h[1].date == 100
  {
  }
}
