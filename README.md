# Billing rules of the trading-company front end

A model, in Dafny, of the business rules inside a React front end for a small
electronics trader: the sales and purchase invoice forms, the sales and
purchases listings, the vendor and customer master forms, the profit list and
the item list. The rendering, the REST calls and the PDF and spreadsheet
libraries are not modelled; the arithmetic and the list handling around them are.

- `Gst`: the jurisdiction rule. A counterparty whose GSTIN starts with the
  seller's state code "23" is intra-state: the tax is split into equal CGST and
  SGST halves. Any other counterparty, including one with an empty or missing
  GSTIN, is inter-state: all tax is IGST. This is the rule of sections 7 and 8
  of the Integrated Goods and Services Tax Act, 2017, reduced to a prefix test.
  Freight is taxed at a fixed 18%.
- `SalesInvoice`: the sales form.
  - The subtotal takes discounts into account, and `CalculateGst` accumulates
    the three tax heads in a loop, as `calculateGST` does.
  - The form also shows the grand total, and builds the spreadsheet totals, the
    date format and the invoice number.
  - Its line items are edited by guarded updates: a quantity above the row's
    stock is refused.
  - The form offers the catalogue names not already used on another row.
  - The form itself is a class whose methods are the event handlers.
- `PurchaseInvoice`: the purchase form.
  - Every item is taxed at 18% whatever its own rate.
  - The form has the add-item guard and the case-insensitive catalogue lookup.
  - Submitting is refused unless invoice number, date, vendor and at least one item are present.
- `AmountWords`: `convertNumberToWords` with its recursive `numToWords`, which
  spell an amount with the Indian grouping (Hundred, Thousand, Lakh, Crore).
  - The text is related to a list of words.
  - A reader `ParseAmount` is proved to invert the conversion.
- `Listing`, `SalesPage`, `PurchasesPage`: the list pages.
  - They search by invoice number and, for sales, filter by status.
  - They sort by date, ascending or descending.
  - They update one sale's status.
  - They compute the row total and the totals in the items dialog.
  - They check the report-download dates and build its URL.
- `Gstin`, `PartyForms`: the GSTIN format and the vendor and customer forms.
  - The format is written both as a per-position predicate and as the regular
    expression's atoms run by a small matcher; the two are proved equal.
  - The forms cover opening, editing and validating, and the truncated address column.
- `ProfitList`, `ItemList`: the profit total, the top item, the commission
  check, and the item name search; `ItemList.LowStock` is the red-stock test
  `stock < 10`.
- Shared modules:
  - `Wrappers`: `Option` and `Result`.
  - `Seqs`: sums as left folds, filters and index removal.
  - `Text`: lower-casing, substring search, trimming, splitting and joining, and decimal digits.
  - `Sorting`: an insertion sort by a string key, proved to permute and to sort.
  - `Catalogue`: the item record of `/api/items`.

Money is `real`, so the tax identities hold exactly. Quantities and stock are
`int`, because `parseInt` can give negative numbers and nothing clamps them.
A JavaScript `x || d` on a number becomes an explicit case for a missing (NaN)
or zero value. A parsed input is given as its two possible readings, by
`parseInt` and by `parseFloat`, each `None` when it is NaN. Dates are ISO
strings, compared in lexicographic order. The purchase form keeps its freight
field as the input's text and converts it with `Number` wherever it is used; the
model keeps that number (0 for a cleared field) as a `real`.

Three behaviours of the code are modelled as written:
- the purchase form taxes every item at a fixed 18%, not at the item's own rate;
- the sales list's row total ignores discounts;
- the Customers form drops the gstin error flag when it opens.

## Model

| member | source | states |
|---|---|---|
| Gst.StateCode | src/components/sales/SalesForm.js:146 | the code is the first two characters of the GSTIN (fewer when it is shorter), and there is no code without a GSTIN |
| Gst.IntraStateIff | src/components/sales/SalesForm.js:149-160 | a counterparty is intra-state exactly when its GSTIN exists and begins with "2", "3"; an empty or missing GSTIN is inter-state |
| SalesInvoice.CalculateGst | src/components/sales/SalesForm.js:148-180 | the loop's heads: intra-state gives IGST 0 and CGST = SGST = half of item tax plus freight tax; inter-state gives CGST = SGST = 0 and IGST = the whole tax |
| SalesInvoice.CalculateTotal | src/components/sales/SalesForm.js:182-185 | the total is subtotal plus the three heads plus freight, equal to the grand total on either tax path, so it does not depend on the GSTIN |
| SalesInvoice.LineBoundaries | src/components/sales/SalesForm.js:141-158 | a row with quantity 0, price 0 or discount 100 adds nothing to subtotal or tax; a row with discount 0 adds quantity times price |
| SalesInvoice.WorkedExample | src/components/sales/SalesForm.js:148-185 | 2 x 100 at 18% with freight 50: subtotal 200, item tax 36, freight tax 9, grand total 295 |
| SalesInvoice.ExcelTotalsAgree | src/components/sales/SalesForm.js:276-302 | the sheet's subtotal and total GST equal the form's, its row totals add up to them, and its grand total is the form's minus 18% of the freight |
| SalesInvoice.ExcelGrandTotalOmitsFreightTax | src/components/sales/SalesForm.js:301-302 | with no items and freight 100 the sheet says 100 where the form says 118 |
| SalesInvoice.ExcelGrandTotalCorrected | src/components/sales/SalesForm.js:293-302 | the corrected sheet total equals the form's grand total |
| SalesInvoice.FormatDateSwapsFields | src/components/sales/SalesForm.js:129-133 | "Y-M-D" with dash-free fields becomes "D-M-Y", and formatting twice gives the date back |
| SalesInvoice.InvoiceNumberSpec | src/components/sales/SalesForm.js:50-53 | the number is "NLTE/2024-25/" then the decimal digits of count + 1, left-padded with zeros to at least three, reading back as count + 1 |
| SalesInvoice.InvoiceNumberInjective | src/components/sales/SalesForm.js:50-53 | different sales counts give different invoice numbers |
| SalesInvoice.FindByName | src/components/sales/SalesForm.js:103 | none exactly when no option has the name; otherwise the first option that has it |
| SalesInvoice.NameChoice | src/components/sales/SalesForm.js:102-113 | choosing a name sets the rate to 18 and takes id, HSN code, selling price and stock from the catalogue item, or "" and 0 without one; the name is the item's or the typed value |
| SalesInvoice.QuantityGuard | src/components/sales/SalesForm.js:114-121 | a quantity (NaN read as 0) is refused exactly when it exceeds the row's stock; otherwise only the quantity changes |
| SalesInvoice.ItemsAfterChange | src/components/sales/SalesForm.js:99-127 | a refused change gives none; otherwise the list keeps its length, row idx is the changed row and every other row is unchanged |
| SalesInvoice.NamesInUseIff | src/components/sales/SalesForm.js:87-89 | a name is in use exactly when some row other than the current one carries it |
| SalesInvoice.AvailableOptionsSpec | src/components/sales/SalesForm.js:86-91 | the options offered keep the catalogue order and leave out exactly those whose name is used on another row |
| SalesInvoice.FindCustomer | src/components/sales/SalesForm.js:94 | the first customer in the list with the given name, or none exactly when no customer has it |
| SalesInvoice.FreeTypedCustomerIsInterState | src/components/sales/SalesForm.js:93-96 | a value that names no listed customer keeps that name, gets GSTIN "" and is taxed on the IGST path |
| SalesInvoice.SalesForm.constructor | src/components/sales/SalesForm.js:36-54 | the initial state: one blank row, freight 0, empty customer, today's dates, the next invoice number |
| SalesInvoice.SalesForm.HandleCustomerChange | src/components/sales/SalesForm.js:93-96 | the customer becomes the first listed one with that name and its GSTIN, or the value itself with GSTIN ""; no other field changes |
| SalesInvoice.SalesForm.HandleItemChange | src/components/sales/SalesForm.js:99-127 | the list becomes ItemsAfterChange when that accepts, and stays as it was when the quantity is refused; no other field changes |
| SalesInvoice.SalesForm.HandleAddItem | src/components/sales/SalesForm.js:136 | one blank row is appended; no other field changes |
| SalesInvoice.SalesForm.HandleRemoveItem | src/components/sales/SalesForm.js:137-139 | exactly row idx is dropped and the rest keep their order; an index out of range changes nothing; no other field changes |
| SalesInvoice.SalesForm.SetFreight | src/components/sales/SalesForm.js:470 | the freight becomes the parsed number, or NaN (none); no other field changes |
| SalesInvoice.SalesForm.SavePayload | src/components/sales/SalesForm.js:190-208 | the posted record has the form's invoice number and date, customer name, GSTIN, items, freight and PO number and date, the subtotal, heads that follow the jurisdiction rule, the grand total and status "under-process" |
| Seqs.RemoveAtSpec | src/components/sales/SalesForm.js:138 | filtering out position k leaves the elements before and after k in order; an index out of range removes nothing |
| AmountWords.NumToWordsEnds | src/components/sales/SalesForm.js:65-72 | for n >= 1 the text is non-empty and neither starts nor ends with a space, so the recursive pieces join with single spaces |
| AmountWords.WordsJoin | src/components/sales/SalesForm.js:65-72 | the text of n >= 1 is its list of words joined by single spaces |
| AmountWords.WordsAreWords | src/components/sales/SalesForm.js:65-72 | the list of words is non-empty exactly when n >= 1, and no word is empty or holds a space |
| AmountWords.WordsAvoid | src/components/sales/SalesForm.js:65-72 | below a hundred neither "Hundred" nor "and" appears, below a thousand no "Thousand", below a lakh no "Lakh", below a crore no "Crore"; Rupees, Zero, Paise and Only never appear |
| AmountWords.DecodeWords | src/components/sales/SalesForm.js:65-72 | reading the words of n back gives n |
| AmountWords.ConvertNumberToWords | src/components/sales/SalesForm.js:77-83 | the text starts with "Rupees " and ends with " Only" |
| AmountWords.AmountShape | src/components/sales/SalesForm.js:77-83 | split at spaces, the text is "Rupees" first and "Only" last; its rupees read "Zero" exactly when there are none, and "Paise" comes before "Only" exactly when there are paise |
| AmountWords.AmountRoundTrip | src/components/sales/SalesForm.js:74-83 | reading the converted text back gives the rupees and the paise, for paise up to 100 |
| PurchaseInvoice.ItemTaxIsFixedRate | src/components/purchases/PurchaseForm.js:83-86 | the item tax is 18% of the subtotal |
| PurchaseInvoice.ItemTaxIgnoresRate | src/components/purchases/PurchaseForm.js:84 | changing every item's own rate leaves the item tax unchanged |
| PurchaseInvoice.CalculateGst | src/components/purchases/PurchaseForm.js:76-108 | intra-state gives IGST 0 and CGST = SGST = half of item tax plus freight tax; otherwise CGST = SGST = 0 and IGST is the whole tax |
| PurchaseInvoice.CalculateTotals | src/components/purchases/PurchaseForm.js:110-115 | the subtotal has no discount and the total is subtotal plus heads plus freight, which is 1.18 times items plus freight on either path |
| PurchaseInvoice.VendorGstin | src/components/purchases/PurchaseForm.js:47 | the GSTIN shown is the vendor's when it has a non-empty one, "" otherwise |
| PurchaseInvoice.NoGstinIsInterState | src/components/purchases/PurchaseForm.js:45-48 | without a vendor GSTIN the purchase is taxed on the IGST path |
| PurchaseInvoice.LineToAdd | src/components/purchases/PurchaseForm.js:50-59 | none exactly when the name is empty, the quantity at most 0 or the price at most 0; otherwise the entered line with rate 18 |
| PurchaseInvoice.AddedLineWellFormed | src/components/purchases/PurchaseForm.js:51 | a line the guard lets through has a positive quantity and price |
| PurchaseInvoice.WellFormedSubtotal | src/components/purchases/PurchaseForm.js:111 | a list of such lines has a subtotal that is never negative, and positive when the list is not empty |
| PurchaseInvoice.FindIgnoringCase | src/components/purchases/PurchaseForm.js:197 | none exactly when no catalogue name equals the typed name ignoring case; otherwise the first that does |
| PurchaseInvoice.DraftAfterName | src/components/purchases/PurchaseForm.js:195-204 | a match fills the HSN code and the buying price, keeping the current price when the buying price is 0; no match changes nothing |
| PurchaseInvoice.QuantityInput | src/components/purchases/PurchaseForm.js:226 | a number that is not NaN or 0 is taken as is; otherwise the quantity becomes 1 |
| PurchaseInvoice.PriceInput | src/components/purchases/PurchaseForm.js:237 | a number is taken as is; NaN becomes 0 |
| PurchaseInvoice.PurchaseForm.constructor | src/components/purchases/PurchaseForm.js:13-27 | the initial state: no vendor, empty fields, no items, the blank entry, freight 0 |
| PurchaseInvoice.PurchaseForm.HandleVendorChange | src/components/purchases/PurchaseForm.js:45-48 | the vendor and its shown GSTIN change and nothing else |
| PurchaseInvoice.PurchaseForm.HandleAddItem | src/components/purchases/PurchaseForm.js:50-70 | a refused entry changes nothing; otherwise exactly one line is appended and the entry is reset to name "" and the blank item |
| PurchaseInvoice.PurchaseForm.HandleRemoveItem | src/components/purchases/PurchaseForm.js:72-74 | exactly that line is removed and the others keep their order |
| PurchaseInvoice.PurchaseForm.OnItemNameInput | src/components/purchases/PurchaseForm.js:195-204 | the typed name is kept and the entry is auto-filled as DraftAfterName says |
| PurchaseInvoice.PurchaseForm.OnHsnInput | src/components/purchases/PurchaseForm.js:216 | only the entry's HSN code changes; every other field, the vendor list included, is kept |
| PurchaseInvoice.PurchaseForm.OnQuantityInput | src/components/purchases/PurchaseForm.js:225-227 | only the entry's quantity changes, as QuantityInput reads it; every other field, the vendor list included, is kept |
| PurchaseInvoice.PurchaseForm.OnPriceInput | src/components/purchases/PurchaseForm.js:236-238 | only the entry's price changes, as PriceInput reads it; every other field, the vendor list included, is kept |
| PurchaseInvoice.PurchaseForm.Submit | src/components/purchases/PurchaseForm.js:119-137 | refused, with "Fill all required fields", exactly when a field, the vendor or every item is missing; otherwise the payload carries the form's fields and the totals CalculateTotals gives, and on a form whose items all passed the add guard its subtotal is positive |
| PurchaseInvoice.PurchaseForm.ResetAfterSave | src/components/purchases/PurchaseForm.js:141-147 | after a save the invoice fields, vendor, GSTIN, items and freight are cleared and the entry is kept |
| Listing.StoredFreight | src/pages/Sales.js:188 | a record without freight counts as freight 0 |
| Listing.DialogMatchesRow | src/pages/Sales.js:273-290 | the dialog's grand total equals the row total; its subtotal is items plus freight and its GST is item tax plus 18% of freight |
| Listing.EmptySearchMatches | src/pages/Sales.js:62 | an empty search matches exactly the records that have an invoice number |
| Listing.DownloadRequest | src/pages/Sales.js:370-379 | refused, with the dates message, exactly when not all is wanted and a date is empty; the URL starts with the endpoint and is the endpoint alone when all is wanted |
| Listing.DownloadRange | src/pages/Sales.js:376-379 | reading the URL back gives the two dates, or no range when all is wanted |
| Sorting.SortByPermutes | src/pages/Sales.js:65-69 | the sort returns the same records, each as often |
| Sorting.SortBySorted | src/pages/Sales.js:65-69 | the result is ordered by date, ascending or descending as asked |
| SalesPage.FilteredSalesSpec | src/pages/Sales.js:60-69 | the list holds exactly the sales that match search and status, as often as before, ordered by date as sortOrder says |
| SalesPage.UnnumberedSaleHidden | src/pages/Sales.js:62 | a sale without an invoice number is never listed |
| SalesPage.EmptySearchListsAll | src/pages/Sales.js:60-64 | with an empty search and status "all" every numbered sale is listed |
| SalesPage.ShownStatus | src/pages/Sales.js:221 | the status control shows the sale's status, or "under-process" when it has none |
| SalesPage.WithStatus | src/pages/Sales.js:47-49 | same length and order; sales with the id get the new status; every other field and every other sale is unchanged |
| SalesPage.WithStatusIdempotent | src/pages/Sales.js:47-49 | choosing the same status twice is the same as once |
| SalesPage.ChosenStatusShown | src/pages/Sales.js:221-222 | after the change the control shows the status chosen |
| SalesPage.DialogMatchesRow | src/pages/Sales.js:273-290 | the dialog and the row show the same total for a sale |
| SalesPage.RowTotalWithoutDiscount | src/pages/Sales.js:188-192 | without discounts the row total is the invoice's grand total |
| SalesPage.RowTotalIgnoresDiscount | src/pages/Sales.js:189-190 | a row of 1 x 100 at 18% with a 10% discount totals 118, where the invoice says 106.2 |
| SalesPage.CorrectedRowTotal | src/pages/Sales.js:188-192 | the corrected row total equals the invoice's grand total |
| SalesPage.CorrectedAgreesWithoutDiscount | src/pages/Sales.js:188-192 | without discounts the corrected and the original row totals agree |
| SalesPage.SalesList.constructor | src/pages/Sales.js:12-22 | the initial state: the loaded sales, empty search, ascending order, status "all", no dates |
| SalesPage.SalesList.HandleStatusChange | src/pages/Sales.js:44-54 | the list becomes WithStatus of the old one; nothing else changes |
| SalesPage.SalesList.ToggleSortOrder | src/pages/Sales.js:124 | "asc" becomes "desc" and anything else becomes "asc" |
| SalesPage.SalesList.CloseDownloadDialog | src/pages/Sales.js:323-328 | closing the dialog clears the all-flag and the two dates |
| SalesPage.SalesList.RequestDownload | src/pages/Sales.js:369-379 | the dates message exactly when a range is asked for without both dates; otherwise a URL that starts with /api/sales/download-report, is exactly that endpoint for the whole report, and reads back the range asked for |
| PurchasesPage.FilteredPurchasesSpec | src/pages/Purchases.js:56-64 | exactly the purchases whose invoice number contains the search ignoring case, as often as before, ordered by date |
| PurchasesPage.EmptySearchListsAll | src/pages/Purchases.js:56-59 | an empty search lists every purchase |
| PurchasesPage.DialogMatchesRow | src/pages/Purchases.js:206-222 | the dialog and the row show the same total for a purchase |
| PurchasesPage.RowTotalMatchesSaved | src/pages/Purchases.js:147-151 | for a purchase saved by the form the row total is 1.18 times items plus freight, the total the form posted |
| PurchasesPage.PurchasesList.constructor | src/pages/Purchases.js:20-30 | the initial state: the loaded purchases, empty search, ascending order, no dates |
| PurchasesPage.PurchasesList.ToggleSortOrder | src/pages/Purchases.js:105 | "asc" becomes "desc" and anything else becomes "asc" |
| PurchasesPage.PurchasesList.CloseDownloadDialog | src/pages/Purchases.js:256-259 | closing the dialog clears the all-flag and the two dates |
| PurchasesPage.PurchasesList.RequestDownload | src/pages/Purchases.js:298-308 | the dates message exactly when a range is asked for without both dates; otherwise a URL that starts with /api/purchases/download-report, is exactly that endpoint for the whole report, and reads back the range asked for |
| Gstin.PatternIff | src/pages/Vendors.js:18 | the pattern accepts exactly the 15-character strings of 2 digits, 5 letters, 4 digits, a letter, a digit 1-9 or letter, "Z", and a digit or letter |
| Gstin.AcceptedStateCode | src/pages/Vendors.js:18 | an accepted GSTIN begins with its two-digit state code, and is intra-state exactly when that code is "23" |
| Gstin.CompanyGstinValid | src/components/sales/SalesForm.js:21 | the seller's own GSTIN is well formed and carries the state code "23" |
| PartyForms.RecordForm | src/pages/Vendors.js:71-76 | the form holds the record's name, GSTIN, contact and address under the four keys |
| PartyForms.OpenErrors | src/pages/Customers.js:80 | all flags are false; the gstin flag is there on the Vendors page and missing on the Customers page |
| PartyForms.Validation | src/pages/Vendors.js:104-112 | name and contact are flagged exactly when blank after trimming and gstin exactly when the pattern rejects it; no flag is set exactly when all three pass (Customers.js:92-100 is the same) |
| PartyForms.ClearError | src/pages/Vendors.js:98-101 | the same flags, with the changed field's flag cleared and every other flag as it was |
| PartyForms.ClearErrorKeepsClean | src/pages/Vendors.js:94-102 | editing a form without errors leaves it without errors |
| PartyForms.AddressCell | src/pages/Vendors.js:208 | an address longer than 20 shows as its first 20 characters and "..."; a shorter one unchanged; none as none (Customers.js:181 is the same) |
| PartyForms.PartyForm.constructor | src/pages/Vendors.js:30-40 | the initial state: the blank form and all three flags false |
| PartyForms.PartyForm.OpenForm | src/pages/Vendors.js:68-92 | editing copies the record and its id, a new form is blank with no id; the flags are reset as the page does it and the modal opens |
| PartyForms.PartyForm.HandleChange | src/pages/Vendors.js:94-102 | only the named field changes, and only its flag is cleared |
| PartyForms.PartyForm.ValidateForm | src/pages/Vendors.js:104-112 | the flags become Validation's, and the answer is true exactly when name and contact are not blank and the GSTIN is well formed |
| ProfitList.TotalProfit | src/pages/ProfitList.js:81 | the total of an empty list is 0 |
| ProfitList.TotalOfMissing | src/pages/ProfitList.js:81 | rows without a profit add nothing |
| ProfitList.TotalBoundsEachRow | src/pages/ProfitList.js:81 | when no profit is negative, no row's profit exceeds the total |
| ProfitList.TopItemSeed | src/pages/ProfitList.js:82-83 | the fold yields its empty seed exactly when no profit is positive; otherwise a row with a positive profit; no row's profit exceeds the one kept |
| ProfitList.ChartWithoutTopItem | src/pages/ProfitList.js:178 | a list whose only row lost 5 shows the chart while the top item is the empty seed |
| ProfitList.TopIndex | src/pages/ProfitList.js:82-83 | the first row with the largest profit |
| ProfitList.CorrectedTopItem | src/pages/ProfitList.js:82-83 | none exactly for the empty list; otherwise a row, no row's profit exceeds it, and it is the first row with the largest profit |
| ProfitList.TopItemAgrees | src/pages/ProfitList.js:82-83 | when some row made a profit the fold as written and the corrected one pick the same row, the earliest on ties |
| ProfitList.CommissionUpdate | src/pages/ProfitList.js:34-40 | refused with "Invalid commission" exactly when the commission is NaN or negative; otherwise it is sent with isPercent false unless the row says true |
| ItemList.FilteredItemsSpec | src/components/items/ItemList.js:29-31 | a subsequence of the items in their order, holding exactly those whose lower-case name contains the lower-case term; an empty term keeps them all |
| ItemList.SearchIgnoresCase | src/components/items/ItemList.js:29-31 | lower-casing the term changes nothing |

## Left out

- Network I/O is not modelled: the axios and fetch calls, loading on mount, the blob
  download and its alerts. A record list is given as loaded.
- SalesPage.SalesList.HandleStatusChange: models the success of the PUT request; when it
  fails the source leaves the list unchanged and alerts, which is not modelled.
- The PDF export is not modelled, and neither are the building of the spreadsheet's rows
  and its workbook: these are library calls. Only the spreadsheet's totals are modelled
  (`ExcelSummary`).
- The `amountInWords` stub is not modelled; it returns a constant.
- Money is exact `real`. Floating-point rounding, `toFixed(2)` and NaN propagation
  through arithmetic are not modelled.
- AmountWords.AmountRoundTrip: takes whole rupees and paise (at most 100) as given; the
  `Math.floor` and `Math.round` that split a fractional amount are not modelled, nor
  `numToWords` on a number that is not a whole number.
- `parseInt` and `parseFloat` themselves are not modelled: a parsed value is given, with
  NaN as none.
- A cleared Autocomplete delivers `null`: the sales form's customer then gets name `null`
  and GSTIN "", and an item row gets name `null`. The model's values are strings, so
  `null` is not modelled.
- `new Date` parsing in the sort comparators is not modelled: dates are ISO strings
  ordered lexicographically, which orders well-formed dates as their values do.
- SalesPage.FilteredSalesSpec: says nothing about the order of sales with the same date;
  the stability of `Array.prototype.sort` is not proved for the model's insertion sort.
  PurchasesPage.FilteredPurchasesSpec is weaker in the same way.
- Text: `toLowerCase` is modelled on ASCII letters only and `trim` on a fixed set of
  whitespace characters; Unicode case mapping is not modelled.
- The regular-expression engine is not modelled: the GSTIN pattern is given as its
  atoms, run by an anchored matcher.
- SalesInvoice.SalesForm.HandleItemChange: the source's shallow copy of the list
  mutates the old row object when it sets a quantity; the model updates rows as values,
  so this aliasing is not captured.
- Records with missing fields are not modelled (a stored line without a quantity, say),
  beyond those the code handles explicitly: a missing invoice number, freight, status,
  profit, address or GSTIN.
- ItemList.LowStock is only the predicate; the styling it drives is rendering.
- Rendering, routing, the login flag, the sidebar, the top bar, the dashboard, the Items
  and Profit pages and the item form are not modelled: they have no business rules.

## Findings

| source | as written | input that shows it | evidently intended | confidence | as-written member | corrected member |
|---|---|---|---|---|---|---|
| src/components/sales/SalesForm.js:301-302 | the spreadsheet's grand total adds the item GST and the freight but not the 18% tax on the freight | no items, freight 100: the sheet shows 100, the form's total is 118 | the same grand total as the form | not executed | SalesInvoice.ExcelGrandTotalOmitsFreightTax | SalesInvoice.ExcelGrandTotalCorrected |
| src/pages/Sales.js:189-190 | the row total of a sale taxes quantity x price and ignores the discount the invoice was saved with | one line of 1 x 100 at 18% with a 10% discount, no freight: the row says 118, the invoice 106.2 | the invoice's own grand total | not executed | SalesPage.RowTotalIgnoresDiscount | SalesPage.CorrectedRowTotal |
| src/pages/ProfitList.js:82-83, 178 | `topItem` is seeded with `{}`, so when every profit is zero or negative it stays `{}`, which is truthy, and the chart is drawn for an item with no name | one row with profit -5: the chart is shown and the top item is the seed | the row with the largest profit | not executed | ProfitList.ChartWithoutTopItem | ProfitList.CorrectedTopItem |
