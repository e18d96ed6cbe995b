# buku-saku core, modelled in Dafny

buku-saku ("pocket book") is a small bookkeeping and point-of-sale web app for
one shop. It has a cashier screen with a cart, barcode lookup and checkout; a
58 mm text receipt; a ledger of income and expense transactions; a dashboard
of totals and a per-day chart; a stock list; a notes page; a single-passphrase
sign-in kept in local storage; and a connection-quality dot in the header.

This project models that core as Dafny values, functions and classes, and
proves what the app promises about it:

- The cart keeps one line per product. While its snapshots are the catalog's entries, no line exceeds its product's stock.
- The total is the sum of the line subtotals.
- A checkout's item rows add up to the ledger amount.
- Its stock writes are never negative.
- The receipt text has a fixed layout, and the on-screen receipt agrees with it.
- The dashboard's per-day series add up to the headline figures.
- Each page's confirm dialog issues exactly the store writes its action calls for.
- The sign-in flag survives a page reload.

Modules, one per file:

| file | module | models |
|---|---|---|
| records.dfy | Records | the shared records (product, transaction, note), toasts, the confirm-dialog state and the store requests it issues, the expand toggle |
| text.dfy | Text | lower/upper case, substring search, trimming, number-to-text |
| catalog.dfy | Catalog | the product search filter and the exact SKU lookup |
| cart.dfy | Cart | the cart updaters, totals, and the checkout payloads |
| cashier.dfy | Cashier | the cashier screen as a class `Register` |
| receipt.dfy | Receipt | the receipt text generator and the on-screen receipt |
| ledger.dfy | Dashboard | the dashboard statistics, the recent list and the per-day grouping |
| transactions.dfy | TransactionsPage | the ledger page as a class `Page` |
| inventory.dfy | InventoryPage | the stock page as a class `Page` |
| notes.dfy | NotesPage | the notes page as a class `Page` |
| auth.dfy | Auth | the sign-in context as a class `Session` |
| network.dfy | Network | the connection indicator |

Four pages are classes: `Cashier.Register`, `TransactionsPage.Page`,
`InventoryPage.Page` and `NotesPage.Page`. Their fields are the page's
`useState` variables, and each event handler is a method. The Dashboard has
no event handler: its one fetch on mount is modelled as functions of the rows
read (`Dashboard.ComputeStats`, `Dashboard.Recent`, `Dashboard.DayKeys` and
`Dashboard.Series`) and the `Dashboard.GroupByDay` loop, with no class for
its page state. Each page method states the page's
complete new state as `State() == old(State()).(…)`. The database is not
modelled. What Supabase answers (rows read, or an error for a write) is a
parameter of the method. What the page asks the database to do is the
method's returned list of requests. React functional updates
(`setCart(prev => …)`) become pure functions on the old value. The date and
currency formatters (`date-fns` `format`, `formatCurrency`) and
`new Date().toISOString()` are parameters: `fmt`, `formatDate`, `dayOf`,
`toIso`, `now`.

## Model

| member | source | states |
|---|---|---|
| Records.CategoryName | src/pages/Transactions.tsx:92-100 | the stored category value is one of the four names the app writes |
| Records.Dismissed | src/pages/Transactions.tsx:220 | definition of the dialog's cancel (`isOpen` cleared); its properties are stated by Records.DismissKeepsWrite |
| Records.DismissKeepsWrite | src/pages/Transactions.tsx:220 | dismissing twice is dismissing once, and a dismissed prompt still carries the write it would have issued |
| Records.ConfirmedWrite | src/pages/Transactions.tsx:184-200 | definition of the write a confirmed prompt issues; what it means is stated by Records.ConfirmOutcome |
| Records.ConfirmedRequests | src/pages/Transactions.tsx:184-221 | definition of the requests of a confirmation; what it means is stated by Records.ConfirmOutcome |
| Records.ConfirmOutcome | src/pages/Transactions.tsx:184-221 | a reload is requested exactly when the store reported no error and never before the write; the write is an update exactly for a save while a row is edited, an insert exactly for a save with nothing edited, a delete exactly for a delete prompt |
| Records.Toggle | src/pages/Transactions.tsx:83-90 | definition of the expand toggle; its behaviour over two clicks is stated by Records.ToggleTwice and Records.ToggleTwiceFromOther |
| Records.ToggleTwice | src/pages/Inventory.tsx:91-93 | clicking the same row twice returns to where it started, when nothing else was open |
| Records.ToggleTwiceFromOther | src/pages/Notes.tsx:94-96 | when another row was open, two clicks on a row leave nothing open |
| Text.Lower | src/pages/Cashier.tsx:223-226 | `toLowerCase` maps every character and keeps the length |
| Text.Upper | src/components/ui/ReceiptModal.tsx:46 | `toUpperCase` maps every character and keeps the length |
| Text.ContainsMeansOccurs | src/pages/Cashier.tsx:223-226 | `includes` holds exactly when the term occurs at some offset |
| Text.ContainsThenOccurs | src/pages/Cashier.tsx:223-226 | a string that includes the term has an offset where the term begins |
| Text.OccursThenContains | src/pages/Cashier.tsx:223-226 | a term beginning at any offset is included |
| Text.ContainsEmpty | src/pages/Cashier.tsx:223-226 | the empty term is contained in every string |
| Text.Contains | src/pages/Cashier.tsx:223-226 | definition of `includes`; its meaning is stated by Text.ContainsMeansOccurs and Text.ContainsEmpty |
| Text.TrimStart | src/pages/Notes.tsx:47 | definition of the leading-space trim: what is left does not start with white space; the rest is stated by Text.TrimStartSplits |
| Text.TrimStartSplits | src/pages/Notes.tsx:47 | what `TrimStart` keeps is a suffix of the text and everything it dropped is white space |
| Text.TrimEndSplits | src/pages/Notes.tsx:47 | what `TrimEnd` keeps is a prefix of the text and everything it dropped is white space |
| Text.Trim | src/pages/Notes.tsx:47 | `trim()` is no longer than the text and leaves white space at neither end |
| Text.TrimStartEmpty | src/pages/Notes.tsx:47 | trimming the front leaves nothing exactly when the text is all white space |
| Text.TrimEndEmpty | src/pages/Notes.tsx:47 | trimming the back leaves nothing exactly when the text is all white space |
| Text.TrimEmptyIffBlank | src/pages/Notes.tsx:47 | `trim()` is empty exactly for blank text |
| Text.NatToString | src/pages/Cashier.tsx:171 | decimal digits, at least one, no leading zero, and the digits denote the number (Text.NumeralValue) |
| Text.NatToStringInjective | src/pages/Cashier.tsx:171 | two numbers get the same numeral exactly when they are equal |
| Text.IntToString | src/pages/Cashier.tsx:171 | a minus sign exactly for negative numbers, digits after it, and the rendering denotes the number (Text.SignedValue) |
| Catalog.Filter | src/pages/Cashier.tsx:223-226 | keeps exactly the products whose name or SKU contains the term, case-insensitively, and never adds any |
| Catalog.Matches | src/pages/Cashier.tsx:223-226 | definition of the search test (name or non-empty SKU contains the term, lower-cased); used by Catalog.Filter |
| Catalog.FilterIsSubsequence | src/pages/Cashier.tsx:223-226 | the filtered list keeps the catalog order |
| Catalog.FilterEmptyTermKeepsAll | src/pages/Cashier.tsx:223-226 | an empty search shows the whole catalog |
| Catalog.FilterIdempotent | src/pages/Inventory.tsx:95-98 | filtering twice by the same term changes nothing |
| Catalog.FindBySku | src/pages/Cashier.tsx:104 | finds the first product whose SKU equals the value, ignoring case, and reports none exactly when no SKU matches |
| Catalog.SkuIs | src/pages/Cashier.tsx:104 | definition of the barcode test; Catalog.SkuMatchIsShown relates it to the search test |
| Catalog.SkuMatchIsShown | src/pages/Cashier.tsx:104 | a product found by its SKU also passes the search filter |
| Cart.FindLine | src/pages/Cashier.tsx:121 | the first line for the product, or none exactly when the cart has no such line |
| Cart.Increment | src/pages/Cashier.tsx:127 | definition of the `+1` map over the cart; that it changes exactly one line is stated by Cart.IncrementIsUpdate and Cart.AddExisting |
| Cart.AddToCart | src/pages/Cashier.tsx:114-131 | definition of the add updater; its cases are stated by Cart.AddOutOfStock, Cart.AddExisting and Cart.AddNew, its invariants by Cart.AddKeepsWellFormed and Cart.AddKeepsWithinStock |
| Cart.AddOutOfStock | src/pages/Cashier.tsx:115-118 | a product without stock is refused with "Stok … habis!" and the cart stays |
| Cart.LineOfUnique | src/pages/Cashier.tsx:121 | in a cart with one line per product, the lookup finds that line and no other line matches |
| Cart.AddExisting | src/pages/Cashier.tsx:121-127 | a product already in the cart either is refused with "Stok tidak mencukupi", leaving the cart unchanged, or gains one unit on its line alone |
| Cart.AddNew | src/pages/Cashier.tsx:129 | a new product is appended with quantity 1 |
| Cart.AddKeepsWellFormed | src/pages/Cashier.tsx:114-131 | adding keeps one line per product and every quantity at least 1 |
| Cart.AddKeepsWithinStock | src/pages/Cashier.tsx:114-131 | adding keeps every line within its stock, provided the product's stock is no greater than its snapshot in the cart |
| Cart.AddChecksFreshStock | src/pages/Cashier.tsx:122-127 | the check uses the product's current stock, while the line keeps its older snapshot: a restocked product can push a line past the snapshot it was added with |
| Cart.UpdateQtyEffect | src/pages/Cashier.tsx:133-145 | only the matching line changes; it stays as it is past its stock, otherwise it takes max(1, qty + delta); no line is added or removed |
| Cart.UpdateQtyKeepsInvariants | src/pages/Cashier.tsx:133-145 | the +/- buttons keep one line per product, quantities at least 1, and every line within stock |
| Cart.RemoveLine | src/pages/Cashier.tsx:147-150 | keeps exactly the lines of other products |
| Cart.RemoveExact | src/pages/Cashier.tsx:148 | with one line per product, removal splices out exactly that line |
| Cart.RemoveAbsent | src/pages/Cashier.tsx:148 | removing a product that is not in the cart changes nothing |
| Cart.RemoveKeepsInvariants | src/pages/Cashier.tsx:147-150 | removing keeps the cart well formed and within stock |
| Cart.TotalAppend | src/pages/Cashier.tsx:152-154 | the total and the badge count add over concatenation |
| Cart.TotalReplace | src/pages/Cashier.tsx:152-154 | replacing a line changes the total by the subtotal difference, and the count by the quantity difference |
| Cart.IncrementIsUpdate | src/pages/Cashier.tsx:127 | with one line per product, incrementing updates exactly one line |
| Cart.OneMoreUnit | src/pages/Cashier.tsx:153 | one more unit adds one sell price to the subtotal |
| Cart.TotalOneMore | src/pages/Cashier.tsx:152-154 | one more unit on any line raises the total by its sell price and the count by one |
| Cart.AddExistingRaisesTotal | src/pages/Cashier.tsx:121-127 | an accepted add of a product already in the cart raises the total by its price and the badge by one |
| Cart.AddNewRaisesTotal | src/pages/Cashier.tsx:129 | adding a new product raises the total by its price and the badge by one |
| Cart.MinusLowersCount | src/pages/Cashier.tsx:259 | the minus button lowers the badge count by one (down to removing the line) and never warns |
| Cart.AddFromCatalogKeepsWithinStock | src/pages/Cashier.tsx:114-131 | while the cart's snapshots are catalog entries, adding a catalog product keeps every line within stock |
| Cart.AddTimesCapsAtStock | src/pages/Cashier.tsx:114-131 | adding a product n times to an empty cart leaves one line of min(n, stock) units |
| Cart.AddToSingleLine | src/pages/Cashier.tsx:121-127 | one more add on a single line moves it up by one unit, capped at the stock |
| Cart.AddBeyondStockRefused | src/pages/Cashier.tsx:122-125 | a line already at its stock refuses one more unit with "Stok tidak mencukupi" |
| Cart.UpdateQty | src/pages/Cashier.tsx:133-145 | definition of the +/- updater; stated by Cart.UpdateQtyEffect and Cart.UpdateQtyKeepsInvariants |
| Cart.PressMinus | src/pages/Cashier.tsx:259 | definition of the minus button (one unit less, or removal at 1); stated by Cart.MinusLowersCount |
| Cart.Total | src/pages/Cashier.tsx:152-154 | definition of `calculateTotal`; stated by Cart.TotalAppend, Cart.TotalReplace and Cart.ItemsPayloadSumsToTotal |
| Cart.ItemCount | src/pages/Cashier.tsx:240 | definition of the badge count; stated by Cart.TotalAppend and Cart.MinusLowersCount |
| Cart.RemoveLowersTotal | src/pages/Cashier.tsx:147-154 | removing a line lowers the total by its subtotal and the badge by its quantity |
| Cart.ItemsPayload | src/pages/Cashier.tsx:180-187 | one item row per cart line |
| Cart.ItemsPayloadAt | src/pages/Cashier.tsx:180-187 | each row carries the new transaction id, the product, its quantity, price and qty × price |
| Cart.ItemsPayloadSumsToTotal | src/pages/Cashier.tsx:161-187 | the item rows' subtotals add up to the ledger amount |
| Cart.StockWrites | src/pages/Cashier.tsx:196-203 | one stock write per cart line |
| Cart.StockWritesAt | src/pages/Cashier.tsx:196-203 | each write sets the product's stock to its snapshot's stock less the quantity |
| Cart.StockWritesNonNegative | src/pages/Cashier.tsx:196-203 | a cart within its stock never writes a negative stock |
| Cart.SalePayload | src/pages/Cashier.tsx:165-173 | sales income, dated now, for the cart total; that the item rows add up to this amount is stated by Cart.ItemsPayloadSumsToTotal |
| Cart.SaleDescriptionCounts | src/pages/Cashier.tsx:171 | the description is "Penjualan Kasir: ", a numeral denoting the number of cart lines, then " item"; two carts share it exactly when they have as many lines |
| Cart.SaleReceipt | src/pages/Cashier.tsx:205-210 | the receipt carries the new id, the checkout time and the cart total, one item per line, no TUNAI/KEMBALI lines, and printed line subtotals that add up to the TOTAL |
| Cart.ReceiptItemsAddUp | src/pages/Cashier.tsx:205-210 | the printed subtotals of the cart's receipt items add up to the cart total |
| Cashier.StockRequests | src/pages/Cashier.tsx:196-203 | one stock update request per write |
| Cashier.StockRequestsAt | src/pages/Cashier.tsx:196-203 | the i-th request is the i-th write |
| Cashier.SaleRequests | src/pages/Cashier.tsx:156-214 | definition of what a saved checkout requests; its layout is stated by Cashier.SaleRequestsLayout |
| Cashier.SaleRequestsLayout | src/pages/Cashier.tsx:156-214 | a checkout asks for the ledger insert, then the item rows, then one stock write per line in cart order, then a catalog reload |
| Cashier.StockLog | src/pages/Cashier.tsx:202 | at most one error log per line |
| Cashier.StockLogEmptyWhenAllSaved | src/pages/Cashier.tsx:202 | nothing is logged when every stock write succeeds |
| Cashier.IssueStockWrites | src/pages/Cashier.tsx:196-203 | the loop issues the stock requests of the cart and logs each failed one |
| Cashier.CheckoutStockNonNegative | src/pages/Cashier.tsx:196-203 | the stock writes of a checkout of a cart within stock are all non-negative |
| Cashier.Register.constructor | src/pages/Cashier.tsx:31-41 | the screen starts empty, with the cart invariants holding |
| Cashier.Register.Visible | src/pages/Cashier.tsx:223-226 | definition of the products on screen, `Catalog.Filter` of the catalog by the search term |
| Cashier.Register.FetchProducts | src/pages/Cashier.tsx:96-99 | the catalog is replaced when the read returned rows, and otherwise stays |
| Cashier.Register.AddToCart | src/pages/Cashier.tsx:114-131 | the cart becomes the updater's result, with its notice shown; the cart stays well formed, and within stock when the product comes from the catalog |
| Cashier.Register.UpdateQty | src/pages/Cashier.tsx:133-145 | the cart becomes the +/- updater's result; the invariants are kept |
| Cashier.Register.RemoveFromCart | src/pages/Cashier.tsx:147-150 | the line goes; the mobile cart closes when the old cart had at most one line |
| Cashier.Register.PressMinus | src/pages/Cashier.tsx:259 | a line above 1 unit loses one unit; a line of 1 is removed |
| Cashier.Register.HandleSearch | src/pages/Cashier.tsx:101-112 | the term is stored; an exact SKU match is added to the cart, the box is cleared and "… ditambahkan" is shown |
| Cashier.Register.ToggleScanner | src/pages/Cashier.tsx:332 | the scan button flips the camera panel |
| Cashier.Register.OnScan | src/pages/Cashier.tsx:64-72 | a decoded code goes through the search box, then the panel closes and "Barcode terdeteksi: …" is shown |
| Cashier.Register.CloseReceipt | src/pages/Cashier.tsx:481 | the receipt is hidden and nothing else changes |
| Cashier.Register.Checkout | src/pages/Cashier.tsx:156-221 | an empty cart does nothing; a failed ledger insert shows "Gagal Checkout: …" and keeps the cart; a successful one asks for the item rows, the stock writes and a reload, empties the cart and shows the sale receipt |
| Cashier.Register.CompleteSale | src/pages/Cashier.tsx:179-214 | everything after the ledger insert: the remaining requests and logs, the receipt, the emptied cart |
| Receipt.ShortNumber | src/components/ui/ReceiptModal.tsx:46 | the first eight characters of the id, upper-cased |
| Receipt.ItemLines | src/components/ui/ReceiptModal.tsx:49-52 | two lines per item |
| Receipt.NameIndex | src/components/ui/ReceiptModal.tsx:50 | item k's first line is its name |
| Receipt.QtyIndex | src/components/ui/ReceiptModal.tsx:51 | item k's second line is "qty x price = subtotal" |
| Receipt.UnlinesSnoc | src/components/ui/ReceiptModal.tsx:42-74 | appending a line appends its text and a newline |
| Receipt.GenerateText | src/components/ui/ReceiptModal.tsx:40-76 | the text built step by step is the receipt's lines, each ended by a newline |
| Receipt.EmitHeader | src/components/ui/ReceiptModal.tsx:42-47 | the header: store name, title, rule, date, number, rule |
| Receipt.EmitItems | src/components/ui/ReceiptModal.tsx:49-52 | the item loop appends the two lines of each item, in order |
| Receipt.ItemLinesStep | src/components/ui/ReceiptModal.tsx:49-52 | one more item appends its name line and its quantity line |
| Receipt.EmitTotals | src/components/ui/ReceiptModal.tsx:54-59 | the TOTAL line, then TUNAI and KEMBALI only when both amounts are present |
| Receipt.EmitFooter | src/components/ui/ReceiptModal.tsx:60-73 | the fixed closing, service list and address lines |
| Receipt.LinesLayout | src/components/ui/ReceiptModal.tsx:42-74 | where the header, each item, the TOTAL and the 15 footer lines fall, and the line count for n items |
| Receipt.NameLineAt | src/components/ui/ReceiptModal.tsx:50 | line 6 + 2k is item k's name |
| Receipt.QtyLineAt | src/components/ui/ReceiptModal.tsx:51 | line 7 + 2k is item k's quantity line |
| Receipt.PaymentLinesIff | src/components/ui/ReceiptModal.tsx:56-59 | the two cash lines are printed exactly when both amounts are present, right after TOTAL |
| Receipt.TotalLineIgnoresItems | src/components/ui/ReceiptModal.tsx:55 | the TOTAL line prints the stored total, whatever the items |
| Receipt.Lines | src/components/ui/ReceiptModal.tsx:42-74 | definition of the receipt's lines; their layout is stated by Receipt.LinesLayout and Receipt.GenerateText |
| Receipt.View | src/components/ui/ReceiptModal.tsx:160-194 | definition of the on-screen receipt; that it agrees with the shared text is stated by Receipt.ViewAgreesWithText |
| Receipt.ViewAgreesWithText | src/components/ui/ReceiptModal.tsx:46-171 | the screen and the shared text show the same number and the same item lines |
| Dashboard.Select | src/pages/Dashboard.tsx:38-48 | a filter never adds rows |
| Dashboard.SelectExact | src/pages/Dashboard.tsx:38-48 | keeps exactly the rows that count for the figure |
| Dashboard.Figure | src/pages/Dashboard.tsx:38-48 | definition of a card's figure; stated by Dashboard.FigureSnoc, Dashboard.Partition and Dashboard.SeriesSumsToFigure |
| Dashboard.ComputeStats | src/pages/Dashboard.tsx:38-55 | profit is income less expense; income, expense and injected capital account for the whole ledger once; the capital card is injected capital plus capital withdrawals |
| Dashboard.AmountSumAppend | src/pages/Dashboard.tsx:40 | the sum adds over concatenation |
| Dashboard.FigureSnoc | src/pages/Dashboard.tsx:38-48 | one more row raises a figure by its amount exactly when it counts |
| Dashboard.Partition | src/pages/Dashboard.tsx:38-48 | non-capital income, expense and capital income split the grand total |
| Dashboard.CapitalSplit | src/pages/Dashboard.tsx:46-48 | the capital figure is capital income plus capital-category expense |
| Dashboard.Reverse | src/pages/Dashboard.tsx:57 | reversing keeps the length |
| Dashboard.ReverseAt | src/pages/Dashboard.tsx:57 | entry i of the reversal is entry n-1-i |
| Dashboard.Recent | src/pages/Dashboard.tsx:57 | definition of the recent list; stated by Dashboard.RecentNewestFirst |
| Dashboard.RecentNewestFirst | src/pages/Dashboard.tsx:57 | the recent list holds min(5, n) entries, newest first |
| Dashboard.DayKeys | src/pages/Dashboard.tsx:59-71 | definition of the chart's day list; stated by Dashboard.DayKeysExact and Dashboard.DayKeysSnoc |
| Dashboard.DayKeysExact | src/pages/Dashboard.tsx:59-71 | the chart's days are distinct, and are exactly the days that have a transaction |
| Dashboard.Series | src/pages/Dashboard.tsx:72-73 | one value per day |
| Dashboard.SeriesAt | src/pages/Dashboard.tsx:72-73 | the value of day i is that day's sum |
| Dashboard.SeriesSnoc | src/pages/Dashboard.tsx:59-69 | one more transaction raises a series' sum by its amount when its day is listed and it counts |
| Dashboard.SeriesSumsToFigure | src/pages/Dashboard.tsx:38-73 | the daily income bars add up to the income card, and likewise for expense |
| Dashboard.SeriesStep | src/pages/Dashboard.tsx:59-73 | one more transaction raises a series' sum by its amount exactly when it counts |
| Dashboard.DayKeysSnoc | src/pages/Dashboard.tsx:61 | a new day is appended after the ones already seen |
| Dashboard.SeriesNewKey | src/pages/Dashboard.tsx:72 | one more day appends that day's sum |
| Dashboard.DaySumSnoc | src/pages/Dashboard.tsx:63-67 | one more transaction raises its own day's sum by its amount when it counts |
| Dashboard.DaySumNewDay | src/pages/Dashboard.tsx:62 | a day with no transactions sums to 0 |
| Dashboard.GroupByDay | src/pages/Dashboard.tsx:59-73 | the reduce loop gives the days in first-seen order, and each day's income and expense sums |
| Dashboard.Fold | src/pages/Dashboard.tsx:59-69 | one turn of the reduce keeps the table's keys equal to the days seen so far, and every row equal to its day's sums |
| Dashboard.Accumulate | src/pages/Dashboard.tsx:60-68 | the reduce callback: the day's entry is created at zero when missing, gains the amount in the right column, and no other day changes |
| Dashboard.SameKeysStep | src/pages/Dashboard.tsx:62 | the key list and the map's keys stay the same set |
| Dashboard.TallyStep | src/pages/Dashboard.tsx:59-69 | after one more step every map entry is still that day's sums |
| Dashboard.FoldStep | src/pages/Dashboard.tsx:61-62 | the day list of one more transaction |
| Dashboard.DaySumStep | src/pages/Dashboard.tsx:63-67 | a day's sum over one more transaction |
| Dashboard.ReadSeries | src/pages/Dashboard.tsx:72-73 | reading the map along the day list gives the series |
| TransactionsPage.CategoryLabel | src/pages/Transactions.tsx:92-100 | definition of `getCategoryLabel`; its properties are stated by TransactionsPage.CategoryLabelsDistinct and TransactionsPage.CategoryLabelNotInjective |
| TransactionsPage.CategoryLabelsDistinct | src/pages/Transactions.tsx:92-100 | the four categories have four distinct labels, none of them a raw category value |
| TransactionsPage.CategoryLabelNotInjective | src/pages/Transactions.tsx:96-98 | an unknown category named "Modal" shows the same label as capital |
| TransactionsPage.ItemsToPrint | src/pages/Transactions.tsx:105-118 | definition of the items a receipt is printed from; TransactionsPage.LoadedItemsAgree states that the shortcut prints what a fresh read would |
| TransactionsPage.LoadedItemsAgree | src/pages/Transactions.tsx:105-118 | printing an open row from its loaded items gives the items a fresh read returning them would give |
| TransactionsPage.FormatItems | src/pages/Transactions.tsx:121-125 | definition of the item-to-receipt-line map; used by TransactionsPage.BuildReceipt |
| TransactionsPage.BuildReceipt | src/pages/Transactions.tsx:121-143 | the receipt carries the transaction's id, date, amount and cash fields and at least one line: its items, or one fallback line whose subtotal is the TOTAL |
| TransactionsPage.FallbackAddsUp | src/pages/Transactions.tsx:128-134 | the fallback item's subtotal equals the transaction's amount |
| TransactionsPage.Validate | src/pages/Transactions.tsx:166-179 | definition of `onPreSubmit`'s check and payload; TransactionsPage.EditRoundTrip states what saving an unchanged edit writes |
| TransactionsPage.EditRoundTrip | src/pages/Transactions.tsx:153-179 | an unchanged edit is accepted exactly when the amount is positive, and then writes back the entry's type, category, amount and description, and its date when the picked day maps back to it |
| TransactionsPage.Page.constructor | src/pages/Transactions.tsx:25-40 | the page starts empty, with no form open |
| TransactionsPage.Page.FetchTransactions | src/pages/Transactions.tsx:49-61 | the list is replaced when the read returned rows |
| TransactionsPage.Page.ToggleExpand | src/pages/Transactions.tsx:63-90 | collapses the open row, or opens a row and loads its items |
| TransactionsPage.Page.OpenReceipt | src/pages/Transactions.tsx:102-151 | shows the receipt built from the transaction and its items |
| TransactionsPage.Page.CloseReceipt | src/pages/Transactions.tsx:573 | the receipt is hidden and nothing else changes |
| TransactionsPage.Page.Edit | src/pages/Transactions.tsx:153-164 | the form opens on the transaction's values (TransactionsPage.EditForm) |
| TransactionsPage.Page.PreSubmit | src/pages/Transactions.tsx:166-182 | an invalid amount shows "Mohon masukkan jumlah yang valid"; otherwise the save prompt opens with the payload |
| TransactionsPage.Page.SetForm | src/pages/Transactions.tsx:274-330 | typing changes only the form |
| TransactionsPage.Page.Submit | src/pages/Transactions.tsx:271-307 | an empty amount is stopped by its `required` rule and changes nothing; otherwise `onPreSubmit` runs on the form's own values |
| TransactionsPage.Page.Cancel | src/pages/Transactions.tsx:223-227 | the form closes and empties |
| TransactionsPage.Page.HeaderButton | src/pages/Transactions.tsx:238-245 | closes a blank open form, and otherwise opens a blank one |
| TransactionsPage.Page.RequestDelete | src/pages/Transactions.tsx:415 | the delete prompt opens for that row |
| TransactionsPage.Page.DismissConfirm | src/pages/Transactions.tsx:565 | the prompt closes and nothing else changes |
| TransactionsPage.Page.Confirm | src/pages/Transactions.tsx:184-221 | issues the write and, on success, a reload; a save that succeeds resets the form, with "Transaksi diperbarui" or "Transaksi berhasil disimpan"; every outcome has its own notice; the prompt closes |
| InventoryPage.PayloadOf | src/pages/Inventory.tsx:49-55 | definition of `onPreSubmit`'s conversion of a complete form; stated by InventoryPage.EditRoundTrip |
| InventoryPage.EditRoundTrip | src/pages/Inventory.tsx:38-55 | an unchanged edit passes the `required` rules exactly when the product has a name, and then writes back the product's own name, prices, stock and SKU |
| InventoryPage.BlankIncomplete | src/pages/Inventory.tsx:140-175 | a blank form never passes the `required` rules |
| InventoryPage.StockOf | src/pages/Inventory.tsx:264 | the stock figure shows the units, in red exactly below five |
| InventoryPage.CardOf | src/pages/Inventory.tsx:211-305 | a card shows the name and the SKU or "NO SKU"; its compact row only while nothing is expanded; its panel only when it is the expanded one, with the profit equal to sell price less buy price |
| InventoryPage.Page.Cards | src/pages/Inventory.tsx:211-305 | one card per listed product in order; only the expanded product's card has a panel; while a product is expanded no card shows its compact row |
| InventoryPage.Page.Visible | src/pages/Inventory.tsx:95-98 | definition of the listed products, `Catalog.Filter` of the catalog by the search term |
| InventoryPage.Page.constructor | src/pages/Inventory.tsx:14-24 | the page starts empty |
| InventoryPage.Page.FetchProducts | src/pages/Inventory.tsx:33-36 | the list is replaced when the read returned rows |
| InventoryPage.Page.SetSearchTerm | src/pages/Inventory.tsx:204 | only the search term changes |
| InventoryPage.Page.Edit | src/pages/Inventory.tsx:38-47 | the form opens on the product's values (InventoryPage.FormOf) |
| InventoryPage.Page.PreSubmit | src/pages/Inventory.tsx:49-57 | the save prompt opens with the converted values |
| InventoryPage.Page.SetForm | src/pages/Inventory.tsx:142-183 | typing changes only the form |
| InventoryPage.Page.Submit | src/pages/Inventory.tsx:140-183 | a form that breaks a `required` rule changes nothing; a complete one opens the save prompt with its own converted values |
| InventoryPage.Page.Confirm | src/pages/Inventory.tsx:59-89 | issues the write and, on success, a reload; a save that succeeds closes and resets the form, with "Produk berhasil diperbarui" or "Produk berhasil ditambahkan", and every outcome has its own notice |
| InventoryPage.Page.ToggleExpand | src/pages/Inventory.tsx:91-93 | the expand toggle |
| InventoryPage.Page.HeaderButton | src/pages/Inventory.tsx:108-117 | only closes a blank open form, and otherwise opens a blank one |
| InventoryPage.Page.CloseForm | src/pages/Inventory.tsx:189 | Batal only closes the form, keeping the product being edited |
| InventoryPage.Page.RequestDelete | src/pages/Inventory.tsx:247 | the delete prompt opens for that product |
| InventoryPage.Page.DismissConfirm | src/pages/Inventory.tsx:322 | the prompt closes and nothing else changes |
| NotesPage.TitleMissing | src/pages/Notes.tsx:47 | definition of the blank-title test; stated by NotesPage.TitleMissingIffBlank |
| NotesPage.TitleMissingIffBlank | src/pages/Notes.tsx:47 | a title is refused exactly when it is all white space |
| NotesPage.Page.constructor | src/pages/Notes.tsx:15-26 | the page starts empty, with no form open |
| NotesPage.Page.FetchNotes | src/pages/Notes.tsx:34-37 | the list is replaced when the read returned rows |
| NotesPage.Page.SetTitle | src/pages/Notes.tsx:140 | only the title field changes |
| NotesPage.Page.SetContent | src/pages/Notes.tsx:147 | only the content field changes |
| NotesPage.Page.Edit | src/pages/Notes.tsx:39-44 | the form opens on the note |
| NotesPage.Page.Save | src/pages/Notes.tsx:46-52 | a blank title shows "Judul catatan tidak boleh kosong" and changes nothing else; otherwise the save prompt opens with the form |
| NotesPage.Page.Cancel | src/pages/Notes.tsx:54-58 | the form closes and empties |
| NotesPage.Page.Confirm | src/pages/Notes.tsx:60-92 | issues the write and, on success, a reload; a save that succeeds resets the form, with "Catatan berhasil diperbarui" or "Catatan berhasil dibuat", and every outcome has its own notice |
| NotesPage.Page.ToggleExpand | src/pages/Notes.tsx:94-96 | the expand toggle |
| NotesPage.Page.HeaderButton | src/pages/Notes.tsx:107-114 | closes a blank open form, and otherwise opens a blank one; a note is only edited in an open form |
| NotesPage.Page.RequestDelete | src/pages/Notes.tsx:185 | the delete prompt opens for that note |
| NotesPage.Page.DismissConfirm | src/pages/Notes.tsx:241 | the prompt closes and nothing else changes |
| Auth.Session.constructor | src/context/AuthContext.tsx:11-21 | a page load is signed in exactly when the stored flag is "true", and loading has ended |
| Auth.Session.Login | src/context/AuthContext.tsx:23-30 | succeeds exactly for the passphrase, which signs in and stores the flag; anything else changes nothing |
| Auth.Session.Logout | src/context/AuthContext.tsx:32-35 | signs out and removes the flag |
| Auth.ReloadAfter | src/context/AuthContext.tsx:15-35 | a reload is signed in exactly when the passphrase was given and no logout followed |
| Auth.LogoutIdempotent | src/context/AuthContext.tsx:32-35 | logging out twice is the same as logging out once |
| Network.Classify | src/components/NetworkIndicator.tsx:10-37 | offline exactly when the browser is offline; weak exactly when online with a slow-2g, 2g or 3g connection |
| Network.OfflineWhateverConnection | src/components/NetworkIndicator.tsx:11-15 | offline wins over any connection report |
| Network.ReadingsOnline | src/components/NetworkIndicator.tsx:20-35 | the label for each reported quality when online |
| Network.LabelDeterminesStatus | src/components/NetworkIndicator.tsx:10-37 | no label is used for two statuses |
| Network.Color | src/components/NetworkIndicator.tsx:60-66 | every status has a colour class |
| Network.ColorInjective | src/components/NetworkIndicator.tsx:60-66 | the three statuses have three different colours |

## Left out

- Supabase is not modelled: its replies are method parameters, and the writes are returned as requests.
- Network I/O, its timing and its ordering are not modelled. Each handler runs to completion in one step.
- The camera scanner (`html5-qrcode`) is not modelled. Only the decoded text it hands over is.
- Printing (`window.print`) and sharing (`navigator.share`, the clipboard fallback) are not modelled: they are browser calls.
- Date formatting, currency formatting and the clock are parameters. The model does not check their output.
- Amounts are unbounded integers. JavaScript `Number` floating point, and `NaN` from `Number(...)` on bad input, are not modelled. A number field holds an already parsed integer, or None while it is empty.
- Of react-hook-form's rules only `required` is modelled, and only on the fields that can be empty: the amount of a transaction; the name, prices and stock of a product. The `select` fields always hold one of their options. Typing is one `SetForm` call with the new field values; keystrokes are not modelled.
- `reset()` of react-hook-form is modelled as a blank form. The default date it puts back is left to the form library.
- `payment_amount` is an Option. The difference between `null` and `undefined` in the `!== undefined` test is not modelled. This matters on a reprint from the ledger: a cashier sale writes no payment columns (`Cart.SalePayload`), so the store gives `null` for them, and the source's `!== undefined` test (src/components/ui/ReceiptModal.tsx:56) then prints TUNAI and KEMBALI lines with `formatCurrency(null)`. The model reads `null` as None and prints neither line (`Receipt.PaymentLinesIff`, `TransactionsPage.BuildReceipt`).
- The Dashboard's page state (`stats`, `transactions`, `loading`, `chartData`, src/pages/Dashboard.tsx:13-21) is not a class, and its failed-read path is not modelled: on an error the source throws, logs it on the console, leaves the cards as they were and clears `loading` (src/pages/Dashboard.tsx:35 and 76-80). The model covers only what a successful read displays.
- `Object.keys` order for keys that look like integers is not modelled. Day labels are assumed not to look like integers.
- The `throw` paths end in a toast and are not modelled: "Terjadi kesalahan sistem" and "Gagal memuat data struk".
- Text.Lower and Text.Upper map ASCII letters only: JavaScript's full Unicode case mapping is not modelled. Text.Trim uses the full ECMAScript white space and line terminator set.
- The mobile drawer's open/close setters are not modelled, except where a handler changes them. `window.scrollTo`, the loading screen and React re-rendering are not modelled either.
- src/pages/Login.tsx is not part of this model; only the context it calls is.
- The console error logs of a checkout are modelled as log entries, not as output.
- Cart.AddKeepsWithinStock assumes that the product's current stock is at most its cart snapshot. Cart.AddChecksFreshStock shows why this is needed: a restock between two adds can push a line past its snapshot.
