# EnerXchange front end: a Dafny model

EnerXchange is a peer-to-peer energy marketplace. Its React front end talks to
one smart contract. This project models the logic of the front end's pages and
components:

- the marketplace (`BuyEnergy`): which listings are shown and what a purchase sends;
- the seller's page (`SellEnergy`): the signer's own listings, the listing form, creating and cancelling a listing;
- the carbon analytics page (`CarbonAnalytics`): the scan of every listing and each seller's profile, and the top-producers ranking;
- the transaction history (`TransactionHistory`): how events become rows, the filters, and the CSV export;
- the help page (`HelpDocumentation`): the case-insensitive FAQ search and the expanded-question map;
- the admin dashboard (`AdminDashboard`): every admin action, including the comma-separated admin mint;
- the user profile (`UserProfile`): reading the profile and adding a certification;
- the login card (`LoginComponent`): session checks, the signed login message, logout and its toast;
- the navigation bar's mobile menu (`MobileMenu`) and wallet button (`WalletButton`).

How the model represents the outside world:

- **The contract's state** is an immutable `Ledger.Chain` snapshot. It holds `nextListingId` (`None` when that read fails), the listings by id and the profiles by address. A read that throws is a missing key.
- **Contract writes** do not change a `Chain`. Whether a transaction is confirmed is a `bool` parameter. The state read back afterwards is a second `Chain`.
- **Library functions** are function-typed parameters of the members that use them: `ethers.utils.formatEther`, `parseEther` (`None` where it throws), `getAddress` and the locale date formatting.
- **Strings** are `seq<char>`. A missing account or address (`undefined`) is the empty string.
- **Components with state** are classes. Their `useState` variables are fields, and each handler is a method that `modifies this`.
- **Pure parts** are functions with lemmas about them. This covers the filters, the formatting, the parsing and the label and route computations.
- **Loops** of the source are methods with loop invariants, proved equal to the function that specifies them: `FetchActiveListings`, `FetchOwnedListings`, `FetchScan` and the in-place sort `SortByEnergyTraded`.

Shared helpers:

- `Text` models the JavaScript string operations used by the pages (`toLowerCase`, `includes`, `split`, `join`, `trim`, `replace` with a one-character pattern, `slice`, number-to-string).
- `Seqs` models `Array.prototype.filter` and counting.

The code does not do the following, and the model follows the code:

- The marketplace scan reads every id from 0 to `nextListingId - 1` and gives up on the first failed read. It does not skip unreadable ids.
- The transaction history is the purchases followed by the sales, in event order. It is not sorted by timestamp (`NotSortedByDate`).
- The top-producers ranking compares energy traded only and adds no tie-break of its own. `Array.prototype.sort` is stable, so rows with equal energy traded keep the order in which their sellers were first seen (`SameTies`), and that order decides which of them make the top five.

## Model

Some functions compute what a source function computes and have no row of their own, because the rows of the lemmas and methods about them state their behaviour:

- `BuyEnergy.ActiveListings`: `ActiveListingsSpec`, `FetchActiveListings`.
- `SellEnergy.OwnedListings`: `OwnedListingsSpec`, `FetchOwnedListings`.
- `CarbonAnalytics.AnalyticsScan`: `ScanSucceeds`, `UnreadableListingFailsScan`, `UnreadableSellerFailsScan`, `FetchScan`.
- `TransactionHistory.FetchTransactionHistory`: `HistoryIsPurchasesThenSales`, `FailedFetchKeepsHistory`.
- `TransactionHistory.FilteredTransactions`: `FilteredSpec`, `DefaultFiltersKeepAll`, `FiltersCompose`, `DateBoundsCompose`.
- `TransactionHistory.ExportHistory`: `ExportLines`, `Lines`, `HeaderLine`, `RowRoundTrip`.
- `HelpDocumentation.FilterFaqs`: `FilterFaqsSpec`, `EmptySearchShowsAll`, `SearchIgnoresCase`, `LowerCaseSearchIsSame`.
- `HelpDocumentation.Toggle`: `ToggleSpec`, `ToggleTwice`.
- `AdminDashboard.ParseRecipients`: `RecipientsSpec`.
- `AdminDashboard.MintCall`: `MintListsSplitIndependently`, `UnparsedAmountMeansNoMint`, `Dashboard.HandleAdminMint`.
- `AdminDashboard.View`: `Dashboard.HandleGetUserProfile`.
- `WalletButton.Label`: `NoAccountLabel`, `LongAccountLabel`, `ShortAccountLabel`.
- `LoginComponent.ShortAddress`: `ShortAddressIsWalletLabel`.

| member | source | states |
|---|---|---|
| `Ledger.ReadAll` | src/components/BuyEnergy.jsx:13-16 | reading ids 0..n-1 succeeds exactly when every single read succeeds, and then yields n listings, the i-th being the listing stored under id i |
| `Ledger.EntriesSpec` | src/components/BuyEnergy.jsx:18 | the ids the listings are tagged with are exactly 0 to n-1, in ascending order, and each tags the listing read at that id |
| `Ledger.FilteredEntries` | src/components/BuyEnergy.jsx:15-20 | whatever test is applied, the kept listings are in strictly ascending id order and each is the listing stored under its id |
| `BuyEnergy.ActiveListingsSpec` | src/components/BuyEnergy.jsx:13-24 | the marketplace fetch fails exactly when the count or some listing cannot be read; otherwise it shows at most `nextListingId` listings, in ascending id order, each an active listing under its own id, and no active listing is missing |
| `BuyEnergy.FetchActiveListings` | src/components/BuyEnergy.jsx:13-21 | the read loop returns exactly the active-listing scan, stopping at the first failed read |
| `BuyEnergy.AtMostOneHighlighted` | src/components/BuyEnergy.jsx:56-57 | since ids are distinct, at most one card of the marketplace is highlighted as selected |
| `BuyEnergy.Component.constructor` | src/components/BuyEnergy.jsx:5-7 | no listings, no selection, empty amount |
| `BuyEnergy.Component.FetchListings` | src/components/BuyEnergy.jsx:9-28 | without a contract nothing changes; with one the listings become the active-listing scan, or are kept when it fails; selection and amount untouched |
| `BuyEnergy.Component.SelectListing` | src/components/BuyEnergy.jsx:56-59 | the clicked listing becomes the selection and exactly the cards with its id are highlighted |
| `BuyEnergy.Component.SetPurchaseAmount` | src/components/BuyEnergy.jsx:79 | the amount box holds the typed text; listings and selection unchanged |
| `BuyEnergy.Component.HandlePurchase` | src/components/BuyEnergy.jsx:30-44 | without a contract or a selection nothing is sent and nothing alerted; otherwise the purchase of the selected id for the parsed amount is sent, and a single alert reports success, or failure when the amount does not parse or the purchase fails |
| `SellEnergy.OwnedListingsSpec` | src/components/SellEnergy.jsx:62-77 | the fetch fails exactly when the count, a listing or (with listings to check) the signer cannot be read; otherwise it holds at most `nextListingId` listings, in ascending id order, all sold by the signer, and every listing of the signer |
| `SellEnergy.FetchOwnedListings` | src/components/SellEnergy.jsx:65-73 | the read loop returns exactly the owned-listing scan |
| `SellEnergy.InactiveOwnListingShownWithoutCancel` | src/components/SellEnergy.jsx:239-246 | the signer's inactive listings are still listed, and are shown without a cancel button |
| `SellEnergy.WithField` | src/components/SellEnergy.jsx:79-84 | the named field takes the typed value and every other field keeps its value |
| `SellEnergy.SubmitError` | src/components/SellEnergy.jsx:116 | the error shown after a failed submission is never empty, and is the exception's message when that is not empty |
| `SellEnergy.Component.constructor` | src/components/SellEnergy.jsx:44-56 | empty form, no listings, no dialogs, not loading, no messages |
| `SellEnergy.Component.FetchUserListings` | src/components/SellEnergy.jsx:62-77 | without a contract nothing changes; with one the list becomes the owned-listing scan or is kept when it fails; nothing else changes |
| `SellEnergy.Component.HandleInputChange` | src/components/SellEnergy.jsx:79-84 | only the edited field of the form changes |
| `SellEnergy.Component.HandlePreview` | src/components/SellEnergy.jsx:86-89 | the preview is shown; nothing else changes |
| `SellEnergy.Component.HandleSubmit` | src/components/SellEnergy.jsx:91-121 | the confirmation dialog opens once the listing is sent, that is unless the wallet rejects; on confirmation the success message is set, the form emptied and the list re-read; otherwise the error is set and the form kept; loading and preview end false |
| `SellEnergy.Component.HandleCancelListing` | src/components/SellEnergy.jsx:123-132 | the `cancelListing` call is sent for the clicked listing's id; a confirmed cancellation sets the success message and re-reads the list; a failed one sets the error |
| `CarbonAnalytics.Distinct` | src/components/CarbonAnalytics.jsx:60 | the sellers whose profile is fetched (the `userProfilesMap.has` test) have no repeats and the same members as the input |
| `CarbonAnalytics.DistinctOrder` | src/components/CarbonAnalytics.jsx:60-62 | the de-duplicated sellers keep the order of their first occurrence |
| `CarbonAnalytics.ReadProfiles` | src/components/CarbonAnalytics.jsx:60-70 | reading the profiles succeeds exactly when every address has one, and then yields one row per address, in order, built from its profile |
| `CarbonAnalytics.UnreadableSellerFailsScan` | src/components/CarbonAnalytics.jsx:60-71 | one seller whose profile cannot be read makes the whole analytics fetch fail |
| `CarbonAnalytics.UnreadableListingFailsScan` | src/components/CarbonAnalytics.jsx:43-57 | one unreadable listing makes the whole analytics fetch fail |
| `CarbonAnalytics.ScanSucceeds` | src/components/CarbonAnalytics.jsx:43-73 | when every listing and every distinct seller's profile can be read, the fetch yields those listings and those rows |
| `CarbonAnalytics.MapValuesAreProfiles` | src/components/CarbonAnalytics.jsx:60-73 | the values of the seller-to-profile map, taken in key order, are the rows read for those keys |
| `CarbonAnalytics.FetchScan` | src/components/CarbonAnalytics.jsx:43-73 | the loop returns exactly the analytics scan, and asks for each seller's profile once, in first-occurrence order |
| `CarbonAnalytics.InsertDescending` | src/components/CarbonAnalytics.jsx:116-118 | one insertion step extends the descending prefix by one, permutes the array, leaves the rows after the step in place, and keeps rows with equal energy traded in their original order |
| `CarbonAnalytics.MovedLeftSorts` | src/components/CarbonAnalytics.jsx:116-118 | moving a row left past the rows with less energy traded, and stopping before one with at least as much, extends a descending prefix by one |
| `CarbonAnalytics.MovedLeftPermutes` | src/components/CarbonAnalytics.jsx:116-118 | such a move keeps every row, as a permutation |
| `CarbonAnalytics.MovedLeftKeepsTies` | src/components/CarbonAnalytics.jsx:116-118 | such a move keeps the relative order of the rows of every energy total |
| `CarbonAnalytics.SortByEnergyTraded` | src/components/CarbonAnalytics.jsx:116-118 | the rows end sorted by energy traded, largest first, as a permutation of the input, with rows of equal energy traded in their original order (a stable sort) |
| `CarbonAnalytics.ProcessTopProducers` | src/components/CarbonAnalytics.jsx:116-120 | sorts in place, stably, and returns the first five rows (all, if fewer) |
| `CarbonAnalytics.TopProducersSpec` | src/components/CarbonAnalytics.jsx:117-119 | the top list has min(5, n) rows, is descending, is drawn from the sorted rows, and no row left out traded more than a row kept |
| `CarbonAnalytics.ActiveFigureMatchesMarketplace` | src/components/CarbonAnalytics.jsx:161 | the "Active Listings" figure equals the number of listings the marketplace shows for the same state |
| `CarbonAnalytics.VerifiedFigureIgnoresRanking` | src/components/CarbonAnalytics.jsx:168 | the "Verified Users" figure does not depend on the order of the rows |
| `CarbonAnalytics.Component.constructor` | src/components/CarbonAnalytics.jsx:29-37 | empty data, loading, no error |
| `CarbonAnalytics.Component.FetchAnalytics` | src/components/CarbonAnalytics.jsx:39-96 | without a contract nothing changes; with one loading ends, a failed scan sets the error and keeps the data, a successful one clears the error and stores the listings, the profile rows sorted in place (tied rows keeping the order of the seller-to-profile map) and the first five of them |
| `TransactionHistory.FormatPurchase` | src/components/TransactionHistory.jsx:43-53 | a purchase event becomes a row exactly when its listing can be read; the row is a purchase with the event's listing id (as decimal text), date and amount, the event's total price as its price, and the listing's energy source |
| `TransactionHistory.FormatSale` | src/components/TransactionHistory.jsx:55-64 | a listing event becomes a row exactly when its listing can be read; the row is a sale with the event's listing id (as decimal text), date and amount, the event's price per unit as its price, and the listing's energy source |
| `TransactionHistory.FormatPurchases` | src/components/TransactionHistory.jsx:43-53 | all purchases become rows, one per event in order, exactly when every one can |
| `TransactionHistory.FormatSales` | src/components/TransactionHistory.jsx:55-64 | all sales become rows, one per event in order, exactly when every one can |
| `TransactionHistory.HistoryIsPurchasesThenSales` | src/components/TransactionHistory.jsx:66 | a successful fetch replaces the history with exactly the purchase rows followed by the sale rows, so purchases show their total price and sales their price per unit |
| `TransactionHistory.FailedFetchKeepsHistory` | src/components/TransactionHistory.jsx:67-69 | one unreadable listing, behind a purchase or a sale, makes the fetch keep the previous history |
| `TransactionHistory.NotSortedByDate` | src/components/TransactionHistory.jsx:66 | a later purchase is listed before an earlier sale: the history is not in date order |
| `TransactionHistory.FilteredSpec` | src/components/TransactionHistory.jsx:72-78 | the filtered rows keep their order, and a row is kept exactly when it matches the type, the source and both date bounds that are set |
| `TransactionHistory.DefaultFiltersKeepAll` | src/components/TransactionHistory.jsx:72-78 | with the initial filters every row is shown |
| `TransactionHistory.FiltersCompose` | src/components/TransactionHistory.jsx:73-74 | filtering by type and source at once equals filtering by type, then by source |
| `TransactionHistory.DateBoundsCompose` | src/components/TransactionHistory.jsx:75-76 | filtering by both date bounds equals applying one bound after the other |
| `TransactionHistory.RowLines` | src/components/TransactionHistory.jsx:83-90 | one CSV line per row, each the row's six fields joined by commas |
| `TransactionHistory.Lines` | src/components/TransactionHistory.jsx:81-91 | the export has one line more than it has rows |
| `TransactionHistory.HeaderLine` | src/components/TransactionHistory.jsx:82 | the header line is `Type,ID,Amount,Price,Date,Source` |
| `TransactionHistory.LinesAvoidNewline` | src/components/TransactionHistory.jsx:81-91 | when no field holds a newline, no line of the export does |
| `TransactionHistory.ExportLines` | src/components/TransactionHistory.jsx:80-91 | splitting the exported text at newlines gives back the header and exactly one line per filtered row |
| `TransactionHistory.RowRoundTrip` | src/components/TransactionHistory.jsx:83-91 | when no field holds a comma, splitting a CSV line at commas gives back its fields |
| `HelpDocumentation.FilterFaqsSpec` | src/components/HelpDocumentation.jsx:116-128 | the shown sections keep their order, and a section is shown exactly when a question, prose answer or step in it contains the search, ignoring case |
| `HelpDocumentation.EmptySearchShowsAll` | src/components/HelpDocumentation.jsx:116-128 | an empty search shows every section that has a question |
| `HelpDocumentation.SearchIgnoresCase` | src/components/HelpDocumentation.jsx:119-124 | searches equal up to letter case show the same sections |
| `HelpDocumentation.LowerCaseSearchIsSame` | src/components/HelpDocumentation.jsx:119 | searching for the lower-cased term shows what the term shows |
| `HelpDocumentation.FaqKeyInjective` | src/components/HelpDocumentation.jsx:112 | two questions share an `openFAQs` key only if they have the same section and index |
| `HelpDocumentation.ToggleSpec` | src/components/HelpDocumentation.jsx:109-114 | toggling flips the question's open state and leaves every other question as it was |
| `HelpDocumentation.ToggleTwice` | src/components/HelpDocumentation.jsx:109-114 | toggling a question twice restores every question's state |
| `HelpDocumentation.Page.constructor` | src/components/HelpDocumentation.jsx:57-58 | empty search, no question open |
| `HelpDocumentation.Page.SetSearchTerm` | src/components/HelpDocumentation.jsx:145 | the search takes the typed text; the open questions are kept |
| `HelpDocumentation.Page.ToggleFaq` | src/components/HelpDocumentation.jsx:109-114 | the open map becomes the toggled map; the search is kept |
| `AdminDashboard.RecipientsSpec` | src/components/AdminDashboard.jsx:216 | there is one recipient per comma plus one, each the trimmed piece between commas |
| `AdminDashboard.ParseAmounts` | src/components/AdminDashboard.jsx:217 | the amounts parse exactly when every trimmed piece parses, and then one amount per piece, in order |
| `AdminDashboard.MintListsSplitIndependently` | src/components/AdminDashboard.jsx:216-218 | the mint sends one recipient per comma of the recipients and one amount per comma of the amounts; the two lists are not required to match |
| `AdminDashboard.UnparsedAmountMeansNoMint` | src/components/AdminDashboard.jsx:217 | one amount that does not parse means no mint is sent |
| `AdminDashboard.PauseCall` | src/components/AdminDashboard.jsx:202 | the toggle unpauses exactly when the platform is paused, and pauses exactly when it is not |
| `AdminDashboard.Dashboard.constructor` | src/components/AdminDashboard.jsx:47-66 | empty inputs, not paused, not loading, no messages, no profile shown |
| `AdminDashboard.Dashboard.SetInputs` | src/components/AdminDashboard.jsx:313-535 | typing into any input replaces the inputs and changes nothing else |
| `AdminDashboard.Dashboard.FetchPlatformState` | src/components/AdminDashboard.jsx:75-86 | a successful read shows the fee (as decimal text), the fee collector and the pause state; a failed one sets the error and keeps them |
| `AdminDashboard.Dashboard.HandleUpdateFee` | src/components/AdminDashboard.jsx:103-115 | sends the typed fee; on confirmation sets the success message and re-reads the platform state; otherwise sets the error |
| `AdminDashboard.Dashboard.HandleUpdateFeeCollector` | src/components/AdminDashboard.jsx:117-127 | always ends with the fee-collector error, since the contract has no setter; nothing else changes |
| `AdminDashboard.Dashboard.HandleVerifyUser` | src/components/AdminDashboard.jsx:129-141 | sends the typed address; on confirmation clears that input and sets the success message; otherwise sets the error |
| `AdminDashboard.Dashboard.HandleInvalidateCertification` | src/components/AdminDashboard.jsx:143-155 | sends the typed address; on confirmation clears that input and sets the success message; otherwise sets the error |
| `AdminDashboard.Dashboard.HandleCancelListing` | src/components/AdminDashboard.jsx:157-169 | sends the typed listing id; on confirmation clears that input and sets the success message; otherwise sets the error |
| `AdminDashboard.Dashboard.HandleTransferFrom` | src/components/AdminDashboard.jsx:171-183 | sends the transfer only when the amount parses; on confirmation clears the three inputs; otherwise sets the error |
| `AdminDashboard.Dashboard.HandleTransferOwnership` | src/components/AdminDashboard.jsx:185-197 | sends the typed owner; on confirmation clears that input and sets the success message; otherwise sets the error |
| `AdminDashboard.Dashboard.HandleTogglePause` | src/components/AdminDashboard.jsx:199-211 | sends pause or unpause by the current state; on confirmation the state flips and the matching message is shown; otherwise the matching error |
| `AdminDashboard.Dashboard.HandleAdminMint` | src/components/AdminDashboard.jsx:213-227 | sends the parsed mint when both lists parse; on confirmation clears both inputs; otherwise sets the error |
| `AdminDashboard.Dashboard.HandleGetUserProfile` | src/components/AdminDashboard.jsx:229-248 | a readable profile is shown formatted and the error is kept; an unreadable one sets the error and keeps the shown profile |
| `UserProfile.AddDisabledMatchesGuard` | src/components/UserProfile.jsx:372 | when no add is running, the Add button is disabled exactly when the handler's guard would refuse |
| `UserProfile.MergeCertification` | src/components/UserProfile.jsx:126-132 | the merged profile takes the four certification fields from the re-read profile and keeps the other four |
| `UserProfile.MergeIdempotent` | src/components/UserProfile.jsx:126-132 | merging the same re-read twice equals merging it once, and merging a profile into itself changes nothing |
| `UserProfile.Page.constructor` | src/components/UserProfile.jsx:36-52 | default profile, no address, loading, no error, empty form, dialog closed |
| `UserProfile.Page.FetchUserProfile` | src/components/UserProfile.jsx:76-107 | loading always ends; without a contract nothing else changes; the signer's address is stored, then its profile shown, or the error set when either read fails |
| `UserProfile.Page.SetNewCertification` | src/components/UserProfile.jsx:338-355 | the dialog's form takes the typed values; nothing else changes |
| `UserProfile.Page.SetShowAddCert` | src/components/UserProfile.jsx:254 | the dialog opens or closes; nothing else changes |
| `UserProfile.Page.HandleAddCertification` | src/components/UserProfile.jsx:112-142 | an empty field stops it before anything is sent; otherwise the update is sent, and on confirmation with a readable profile the certification fields are merged, the form emptied and the dialog closed; any failure sets the error and keeps the rest |
| `LoginComponent.Mode` | src/components/LoginComponent.jsx:119-163 | the connect button shows exactly without an address, the sign button exactly with an address and no session, the logout button exactly with both |
| `LoginComponent.Banner` | src/components/LoginComponent.jsx:126-153 | no status line on the connect panel; otherwise "Wallet connected: " or "Authenticated as " and the shortened checksummed address |
| `LoginComponent.ShortAddressIsWalletLabel` | src/components/LoginComponent.jsx:129-130 | the card shortens an address exactly as the navigation bar's wallet button does |
| `LoginComponent.Login.constructor` | src/components/LoginComponent.jsx:20-27 | not authenticated, no token, no toast |
| `LoginComponent.Login.CheckSession` | src/components/LoginComponent.jsx:50-58 | authenticated exactly when the contract says the session is valid; a failed check means not authenticated |
| `LoginComponent.Login.ChangeAddress` | src/components/LoginComponent.jsx:42-48 | losing the address drops the session and shows the connect panel; a new address triggers the session check |
| `LoginComponent.Login.ShowNotification` | src/components/LoginComponent.jsx:60-64 | the toast shows the given title, message and kind |
| `LoginComponent.Login.DismissToast` | src/components/LoginComponent.jsx:63 | the toast is hidden and its contents kept |
| `LoginComponent.Login.HandleLogin` | src/components/LoginComponent.jsx:66-88 | the new token is stored first; the message is signed exactly on Mainnet or Sepolia and always says chain 1; `authenticate` is called exactly when it was signed; the panel does not change |
| `LoginComponent.Login.HandleLogout` | src/components/LoginComponent.jsx:90-104 | the wallet disconnect is asked for exactly when the session was revoked; only when both succeed are the session and token cleared, with the success toast; otherwise the state is kept and the failure toast shows the message |
| `MobileMenu.LinkPath` | src/components/Navbar/MobileMenu.jsx:18 | a link path is one character longer than its item |
| `MobileMenu.LinkPathSpec` | src/components/Navbar/MobileMenu.jsx:18 | the path is a slash and the lower-cased item, with its first space (only) turned into a dash |
| `MobileMenu.OnlyFirstSpaceReplaced` | src/components/Navbar/MobileMenu.jsx:18 | an item with two spaces keeps its second space |
| `MobileMenu.MenuRoutes` | src/components/Navbar/MobileMenu.jsx:5-18 | the six items link to /marketplace, /sell-energy, /profile, /carbon-credits, /transactions and /help |
| `MobileMenu.Menu.constructor` | src/components/Navbar/MobileMenu.jsx:4 | the menu starts as open or closed as its parent says |
| `MobileMenu.Menu.ClickItem` | src/components/Navbar/MobileMenu.jsx:16-20 | a click closes the menu and navigates to the item's path |
| `WalletButton.NoAccountLabel` | src/components/Navbar/WalletButton.jsx:11 | without an account the button shows "Not Connected" |
| `WalletButton.LongAccountLabel` | src/components/Navbar/WalletButton.jsx:11 | a full-length account shows as its first six characters, three dots and its last four |
| `WalletButton.ShortAccountLabel` | src/components/Navbar/WalletButton.jsx:11 | an account shorter than four characters shows twice around the dots |
| `WalletButton.LabelLength` | src/components/Navbar/WalletButton.jsx:11 | the label has min(6, n) + 3 + min(4, n) characters |
| `WalletButton.LabelOfAccountIsNotPlaceholder` | src/components/Navbar/WalletButton.jsx:11 | a connected account never shows as "Not Connected" |
| `Text.Lower` | src/components/HelpDocumentation.jsx:119 | lower-casing keeps the length, leaves no capital letter, and returns a string without capitals unchanged |
| `Text.LowerIdempotent` | src/components/HelpDocumentation.jsx:119 | lower-casing twice equals lower-casing once |
| `Text.Split` | src/components/AdminDashboard.jsx:216 | splitting gives one piece per separator plus one, and no piece holds the separator |
| `Text.JoinSplit` | src/components/AdminDashboard.jsx:216 | joining the pieces of a split with the separator gives back the string |
| `Text.SplitJoin` | src/components/TransactionHistory.jsx:91 | splitting pieces joined by a separator none of them holds gives back the pieces |
| `Text.Trim` | src/components/AdminDashboard.jsx:216 | the trimmed string is no longer than the input and neither starts nor ends with white space |
| `Text.TrimSpec` | src/components/AdminDashboard.jsx:216 | the trimmed string occurs in the input with only white space before and after it |
| `Text.TrimUnchanged` | src/components/AdminDashboard.jsx:216 | a string without white space at either end is left as it is |
| `Text.ReplaceFirstSpec` | src/components/Navbar/MobileMenu.jsx:18 | replacing a character changes only its first occurrence, and nothing when there is none |
| `Text.SliceFront` | src/components/Navbar/WalletButton.jsx:11 | `slice(0, n)` is the prefix of length min(n, length) |
| `Text.SliceBack` | src/components/Navbar/WalletButton.jsx:11 | `slice(-n)` is the suffix of length min(n, length) |
| `Text.NatToString` | src/components/HelpDocumentation.jsx:112 | the decimal text of a number is non-empty and all digits |
| `Text.NatToStringValue` | src/components/HelpDocumentation.jsx:112 | reading the decimal text back gives the number |
| `Text.NatToStringInjective` | src/components/HelpDocumentation.jsx:112 | different numbers have different decimal texts |
| `Seqs.Filter` | src/components/TransactionHistory.jsx:72 | the filtered list is no longer than the input and holds exactly the input's elements that pass |
| `Seqs.FilterIsSubsequence` | src/components/TransactionHistory.jsx:72 | filtering keeps the elements in their original order |
| `Seqs.FilterFilter` | src/components/TransactionHistory.jsx:73-74 | filtering twice equals filtering once by both tests |
| `Seqs.CountPermutation` | src/components/CarbonAnalytics.jsx:168 | the number of elements that pass a test does not depend on their order |

## Left out

- Contract, wallet and network I/O are not executed. Reads come from a `Chain` snapshot, and write outcomes (confirmed, rejected, failed) are parameters.
- Concurrency is not modelled. This covers `Promise.all`, interleaved effects and the un-awaited `fetchPlatformState` after a fee update: every sequence of awaits is modelled in program order, and a re-render between awaits is not.
- `CarbonAnalytics.Component.FetchAnalytics`: the chart step between the scan and the store (CarbonAnalytics.jsx:75-76) is not modelled. `processVolumeData` calls `new Date(...).toISOString()`, which throws a RangeError on a date it cannot parse; that exception sets the error and skips storing the data. The model's successful scan always stores the data.
- `CarbonAnalytics.SortByEnergyTraded`: the source compares `parseFloat` of the formatted energy traded; the model compares the unformatted integer amounts, so floating-point rounding of very large amounts is not modelled.
- The charts are not modelled: the volume and solar-production series (`processVolumeData`, `processSolarProduction`) and the total-volume sum. They are floating-point presentation data.
- Dates are not modelled. `formatDate`, `toLocaleDateString` and `new Date` are function parameters or omitted. The history's date filter compares timestamps in seconds with the bounds taken as seconds.
- `TransactionHistory.FetchTransactionHistory`: each event carries the timestamp of its block as a field, so the `getBlock()` reads (TransactionHistory.jsx:49,60) are not separate reads. A failed `getBlock()` is expressed only as the whole event list being unreadable (`None`), which makes the fetch fail and keep the history, as the source does.
- `fetchMetrics` in the admin dashboard is not modelled. Its result is only displayed.
- The user profile's certification history array and its rendering are not modelled.
- Toast timers are not modelled. Only the dismissal that ends them is (`LoginComponent.Login.DismissToast`).
- `BigNumber.toNumber` overflow is not modelled. Integers are unbounded and every amount, price and timestamp is a `nat`.
- `JSON.stringify`, `crypto.randomUUID` and message signing are opaque. The token, the clock and the wallet's signature are parameters.
- `getAddress` throwing on an invalid address is not modelled. It is a total function parameter.
- `toLowerCase` and `trim` are modelled for ASCII letters and ASCII white space only.
- `undefined` accounts, addresses and answers are the empty string or `None`.
- The user profile's numeric fields are kept as integers. Their `toString` display is not modelled.
- The FAQ contents (`faqData`) are a parameter of the search, not a constant.
- The wallet connection-status banner of the login card is not modelled.
- JSX layout, styling and animations are not modelled.
