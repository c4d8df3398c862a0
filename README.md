# Liquor-store admin front end: client-side rules

A Dafny model of the rules the React front end of a liquor-store
administration app applies on its own, before or around its calls to the
server. It covers:

- the point-of-sale cart (`src/pages/POS.jsx`): pricing and totals, add,
  quantity and remove steps under a stock ceiling, the barcode lookup, the
  checkout checks and payload, and the cart snapshot kept in browser storage;
- the duplicate-scan guard and camera-error messages of the embedded
  barcode scanner (`src/components/pos/BarcodeScannerEmbed.jsx`);
- restocking an existing product (`QuickStockDialog.jsx`, and the merge in
  `src/pages/Products.jsx`), plus the product list's stock badge, card
  paging, filter resets and barcode check;
- the product, customer and user forms: resets, field rules, ordered
  submit checks and empty-to-null cleaning;
- the price-list PDF builder (`src/pages/PriceList.jsx`): rows, headers and
  column styles that must line up, the empty-data guard, the page-break
  cursor and the configuration panel;
- the display helpers of the sales, customer and user lists.

Money is integer cents and quantities are integers. JavaScript values the
code inspects are a `JsValue` datatype with JavaScript truthiness, so `||`,
`!== undefined`, template rendering, `trim` and object spread can be
written out exactly (`Js`). Each awaited service call becomes a parameter
that holds its answer. Each event handler becomes one atomic step: a
method on a class where the component keeps state, and a function where
the code only computes a value.

Modules:

- `Common` and `Js`: shared definitions.
- `FormRules`: react-hook-form's `required`, `min`, `minLength` and the
  e-mail pattern, plus the `||`-fill and null-cleaning idioms.
- `PosCart` and `Pos`: the POS rules as functions, and the
  `PosController` class.
- `ScannerEmbed`, `QuickStock`, `ProductsPage`, `ProductDialog`,
  `CustomerDialog`, `UserDialog`, `PriceList`, `SalesPage`,
  `CustomersPage`, `UsersPage`: one module per source component.
- `Display`: the name and `'-'` idioms shared by the customer and user
  lists.

## Model

| member | source | states |
|---|---|---|
| PosCart.Subtotal | src/pages/POS.jsx:110-115 | the left fold of price × quantity over the cart, the price being the wholesale price for a wholesale sale when the line has a non-zero one, else the retail price; `TotalIsSumOfItemTotals` and `TotalOfAppend` state its properties |
| PosCart.DiscountTotal | src/pages/POS.jsx:117 | the left fold of the line discounts; `TotalIsSumOfItemTotals` states its relation to the shown amounts |
| PosCart.ComputeTotals | src/pages/POS.jsx:109-121 | subtotal, discount and total = subtotal − discount; `TotalIsSumOfItemTotals`, `TotalOfAppend`, `TotalOfReplace` and `RetailPricing` state its properties |
| PosCart.ItemTotal | src/pages/POS.jsx:378-381 | the amount shown beside a line: price × quantity minus its discount; `TotalIsSumOfItemTotals` proves the total is their sum |
| PosCart.TotalIsSumOfItemTotals | src/pages/POS.jsx:110-122 | the total under the cart (subtotal minus discounts) equals the sum of the per-line amounts the list shows |
| PosCart.ItemTotalsOfAppend | src/pages/POS.jsx:378-381 | appending a line adds exactly that line's shown amount to the sum of shown amounts |
| PosCart.TotalOfAppend | src/pages/POS.jsx:110-122 | appending a line raises the total by that line's amount |
| PosCart.TotalOfReplace | src/pages/POS.jsx:110-122 | replacing one line changes the total by the difference of the old and new line amounts |
| PosCart.RetailPricing | src/pages/POS.jsx:112-114 | outside wholesale sales, or when no line has a non-zero wholesale price, the totals equal the retail totals |
| PosCart.FindLine | src/pages/POS.jsx:151 | the index of the first line holding the product id, or -1 when no line does |
| PosCart.AddToCart | src/pages/POS.jsx:150-178 | a new product in stock is appended as one line of quantity 1 and discount 0; an existing line gains 1 exactly when that stays within the product's stock, and is refused with the cart unchanged exactly when it would pass it; a new product with no stock is refused exactly then, with nothing changed |
| PosCart.AddPreservesWellFormed | src/pages/POS.jsx:150-178 | adding keeps one line per product id and every quantity at least 1 |
| PosCart.AddPreservesWithinStock | src/pages/POS.jsx:155-160 | adding keeps every quantity within the stock its line records, when the product passed in records no more stock than its line does |
| PosCart.RepeatedAddsCapAtStock | src/pages/POS.jsx:150-178 | adding a new product n times yields one line of quantity min(n, stock) |
| PosCart.RemoveAt | src/pages/POS.jsx:200-204 | removing line i keeps every other line in order; an index outside the cart changes nothing |
| PosCart.RemovePreservesWellFormed | src/pages/POS.jsx:200-204 | removing keeps one line per product id and quantities at least 1 |
| PosCart.UpdateQuantity | src/pages/POS.jsx:181-197 | quantity plus change at or below 0 removes the line; above the line's stock changes nothing; otherwise only that line's quantity changes |
| PosCart.UpdatePreservesWellFormed | src/pages/POS.jsx:181-197 | quantity changes keep one line per product and quantities at least 1 |
| PosCart.UpdatePreservesWithinStock | src/pages/POS.jsx:187-190 | quantity changes keep every line within the stock it records |
| PosCart.FindByBarcode | src/pages/POS.jsx:130 | the first listed product whose barcode equals the code exactly, or none when no barcode equals it |
| PosCart.ScanBarcode | src/pages/POS.jsx:127-147 | a scan changes the cart only by adding an active product whose barcode equals the code |
| PosCart.ScanAddsOnlyExactActiveMatch | src/pages/POS.jsx:129-142 | with a listed reply, the scan adds exactly when an exact match exists and is active; otherwise the cart is unchanged |
| PosCart.SaleItems | src/pages/POS.jsx:266-270 | the payload lists one item per cart line, in cart order, with product id, quantity and discount |
| PosCart.PrepareCheckout | src/pages/POS.jsx:248-275 | an empty cart is rejected; a paid amount (tendered if non-zero, else the total) below the total is rejected; otherwise the request carries the items, customer id or null, notes or null, and status 'paid' |
| PosCart.PaidAmount | src/pages/POS.jsx:254 | `parseFloat(paidAmount) \|\| total`: the tendered amount when one is given and non-zero, else the total; `ExactPaymentWhenBlank` and `PrepareCheckout` state its use |
| PosCart.ExactPaymentWhenBlank | src/pages/POS.jsx:254 | with no amount tendered, any non-empty cart passes the payment check with no change |
| PosCart.ConfirmDisabled | src/pages/POS.jsx:649 | the confirm button is disabled while loading, or for cash with no amount or one below the total; `CashConfirmMatchesCheckout` and `StaleAmountRejectsCard` relate it to the checkout check |
| PosCart.ChangeShown | src/pages/POS.jsx:622-628 | the change preview appears only for cash with an amount at least the total, and shows amount − total; `CashConfirmMatchesCheckout` proves it equals the change reported |
| PosCart.CashConfirmMatchesCheckout | src/pages/POS.jsx:622-649 | a cash sale that the confirm button allows passes the payment check, and the reported change equals the change the dialog previewed |
| PosCart.StaleAmountRejectsCard | src/pages/POS.jsx:649 | for card payments the button ignores the amount field, yet a low amount left in it still rejects the sale at line 256 |
| PosCart.SnapshotOf | src/pages/POS.jsx:100-107 | the entry the save effect writes: cart, customer, sale type and notes; `SaveRestoreRoundTrip` proves restoring it gives them back |
| PosCart.Restore | src/pages/POS.jsx:84-97 | for a parsed entry, each field on its own: the stored cart or [], the stored customer or null, the stored sale type unless absent or '' (then 'retail'), the stored notes or ''; with no entry, or one that does not parse, the empty defaults remain |
| PosCart.SaveRestoreRoundTrip | src/pages/POS.jsx:84-107 | restoring what the save effect wrote gives back the cart, customer, non-empty sale type and notes |
| Pos.PosController.constructor | src/pages/POS.jsx:84-107 | mounting restores the stored state, then the stored entry mirrors it; payment is cash with no amount |
| Pos.PosController.Persist | src/pages/POS.jsx:100-107 | the save effect leaves the stored entry mirroring cart, customer, sale type and notes |
| Pos.PosController.AddToCart | src/pages/POS.jsx:150-178 | the new cart and message are those of `PosCart.AddToCart`; a refused add leaves the stored entry untouched |
| Pos.PosController.UpdateQuantity | src/pages/POS.jsx:181-197 | the new cart and message are those of `PosCart.UpdateQuantity`; a refused change leaves the stored entry untouched |
| Pos.PosController.RemoveFromCart | src/pages/POS.jsx:200-204 | the cart loses line i, and the stored entry follows |
| Pos.PosController.ClearCart | src/pages/POS.jsx:207-214 | cart, customer, notes and amount are emptied; sale type and payment method stay; the entry is removed and then written again by the save effect |
| Pos.PosController.SelectCustomer | src/pages/POS.jsx:563-567 | the customer is set (or cleared, as the chip's delete at line 316 does) and the stored entry follows |
| Pos.PosController.SetNotes | src/pages/POS.jsx:636 | the notes are set and the stored entry follows |
| Pos.PosController.SetPaymentMethod | src/pages/POS.jsx:600 | the payment method is set |
| Pos.PosController.SetPaidAmount | src/pages/POS.jsx:616 | the tendered amount is set |
| Pos.PosController.HandleBarcodeScan | src/pages/POS.jsx:127-147 | the new cart and message are those of `PosCart.ScanBarcode` on the search reply |
| Pos.PosController.ProcessSale | src/pages/POS.jsx:248-295 | a rejected checkout sends nothing; otherwise the request is sent; on success the change is paid minus total (never negative) and the cart is cleared; any other outcome leaves the state untouched |
| ScannerEmbed.CameraErrorMessage | src/components/pos/BarcodeScannerEmbed.jsx:23-47 | permission errors, missing cameras and busy cameras get their fixed messages; a missing media API gets the unsupported-browser message; any other error gets its own message or the generic one |
| ScannerEmbed.MessageFor | src/components/pos/BarcodeScannerEmbed.jsx:36-46 | the `catch` branch's choice by error name; `CameraErrorMessage` states each case |
| ScannerEmbed.StartErrorMessage | src/components/pos/BarcodeScannerEmbed.jsx:101 | the error shown is the thrown message, or the generic start message when that is empty |
| ScannerEmbed.CameraFailureShownAsClassified | src/components/pos/BarcodeScannerEmbed.jsx:99-105 | a failed camera check (awaited at line 57) is shown with its classified message, never the start fallback |
| ScannerEmbed.ScannerGuard.constructor | src/components/pos/BarcodeScannerEmbed.jsx:13-21 | mounting marks the component mounted and starts scanning with the guard reset (lines 50-54) |
| ScannerEmbed.ScannerGuard.CheckDone | src/components/pos/BarcodeScannerEmbed.jsx:56-62 | after the camera check (line 57) a failure is reported with its classified message and scanning stays off; an unmount in between ends the start quietly (line 59); otherwise the decoder is created and its start awaited |
| ScannerEmbed.ScannerGuard.StartDone | src/components/pos/BarcodeScannerEmbed.jsx:72-105 | after the decoder's start (line 72) a failure is reported even when unmounted; a success turns scanning on only while mounted (line 96), and a decoder the cleanup already dropped is left running |
| ScannerEmbed.ScannerGuard.OnDecode | src/components/pos/BarcodeScannerEmbed.jsx:75-85 | a decode is accepted exactly when mounted, not processing and different from the last code; it then marks processing and remembers the code; the last-code test only ever rejects "" |
| ScannerEmbed.ScannerGuard.Stop | src/components/pos/BarcodeScannerEmbed.jsx:108-121 | after a stop the decoder is gone, scanning is off and the guard is reset, even when the decoder's stop threw |
| ScannerEmbed.ScannerGuard.CompleteDecodeStop | src/components/pos/BarcodeScannerEmbed.jsx:85-89 | after the stop that follows an accepted code, `onScan` gets that code once if still mounted, else nothing |
| ScannerEmbed.ScannerGuard.Unmount | src/components/pos/BarcodeScannerEmbed.jsx:17-20 | unmounting clears the mounted flag before stopping, so a pending code is never emitted |
| QuickStock.ResetFor | src/components/products/QuickStockDialog.jsx:39-48 | opening with a product sets the quantity to 0, and each of the purchase, retail and wholesale prices to the product's value when truthy and to '' otherwise |
| QuickStock.ResetKeepsPricesThroughSubmit | src/components/products/QuickStockDialog.jsx:39-58 | opening on a product with positive prices and submitting sends back its purchase and retail prices, and its wholesale price or null when that is 0 or absent |
| QuickStock.ZeroPurchasePriceBlocksRestock | src/components/products/QuickStockDialog.jsx:39-48 | a purchase price of 0 resets to '', which the required rule of the price field refuses |
| QuickStock.OnOpen | src/components/products/QuickStockDialog.jsx:39-48 | the form resets only when open with a product; otherwise it is kept |
| QuickStock.Renders | src/components/products/QuickStockDialog.jsx:72 | the dialog draws nothing without a product |
| QuickStock.Submittable | src/components/products/QuickStockDialog.jsx:120-168 | the field rules: quantity required and at least 1, both prices required and at least 0; `ResetFormNeedsQuantity`, `ZeroPurchasePriceBlocksRestock` and `SubmittedStockRaisesAndMatchesPreview` state their consequences |
| QuickStock.Payload | src/components/products/QuickStockDialog.jsx:53-58 | the update holds the parsed prices, null wholesale price for an empty field, and `currentStock + parseInt(quantity)` under JavaScript's `+`: a number exactly when the stock is a number, null or boolean and the quantity parses, text when the stock is text |
| QuickStock.PreviewStock | src/components/products/QuickStockDialog.jsx:209 | the preview counts an unparsable quantity as 0 |
| QuickStock.SubmittedStockRaisesAndMatchesPreview | src/components/products/QuickStockDialog.jsx:120-123 | a quantity passing its rules (required, at least 1) makes the submitted stock (line 57) exceed the current stock and equal the preview (line 209) |
| QuickStock.SubmittedPricesAreNumbers | src/components/products/QuickStockDialog.jsx:143-169 | prices that pass their rules (required, at least 0) reach the update as numbers not below 0 |
| QuickStock.ResetFormNeedsQuantity | src/components/products/QuickStockDialog.jsx:39-48 | the form as reset on opening, and the defaults of lines 30-36, fail the quantity rule of lines 120-123 until a quantity is entered |
| ProductsPage.QuickStockMerge | src/pages/Products.jsx:217-233 | the request holds the 14 copied fields and the update's keys; the update wins on every key it has, and the product supplies the rest |
| ProductsPage.RestockRecord | src/pages/Products.jsx:217-233 | a restock request keeps the product's identity fields and carries the dialog's prices and new stock |
| ProductsPage.BadgeColor | src/pages/Products.jsx:286-289 | the badge is 'error' exactly when stock is at or below the minimum, else 'success' (the card view repeats this at line 531) |
| ProductsPage.PageCount | src/pages/Products.jsx:568 | the page count is the ceiling of total over page size |
| ProductsPage.NavigationStaysInRange | src/pages/Products.jsx:562-573 | 'next' is enabled exactly when a later page holds items; 'previous' never leads below page 0 |
| ProductsPage.PrevDisabled | src/pages/Products.jsx:562 | 'previous' is disabled on the first page; `NavigationStaysInRange` states its meaning |
| ProductsPage.NextDisabled | src/pages/Products.jsx:572 | 'next' is disabled from the last page of `ceil(total / size)` on; `NavigationStaysInRange` proves it is enabled exactly when a later page starts inside the total |
| ProductsPage.ProductsPage.constructor | src/pages/Products.jsx:45-56 | the page starts at 0 with 25 per page, no search, no filters and no dialog |
| ProductsPage.ProductsPage.LoadQuery | src/pages/Products.jsx:70-75 | the request asks for the 0-based page plus 1, with the page size, search and filters |
| ProductsPage.ProductsPage.SetCategoryFilter | src/pages/Products.jsx:411-414 | the category filter changes, the page goes back to 0, and the rest of the query is unchanged |
| ProductsPage.ProductsPage.SetBrandFilter | src/pages/Products.jsx:432-435 | the brand filter changes, the page goes back to 0, and the rest of the query is unchanged |
| ProductsPage.ProductsPage.SetProductTypeFilter | src/pages/Products.jsx:453-456 | the type filter changes, the page goes back to 0, and the rest of the query is unchanged |
| ProductsPage.ProductsPage.SetSearch | src/pages/Products.jsx:374 | typing sets only the search text |
| ProductsPage.ProductsPage.Loaded | src/pages/Products.jsx:78-85 | a load's reply sets the total it reports; a failed load keeps the old total |
| ProductsPage.ProductsPage.HandleSearch | src/pages/Products.jsx:114-129 | searching or clearing goes back to page 0 and clearing empties the search; the loads sent are the handler's own, with the old page and search, and the effect's, with the new state, only when the page was not 0; clearing on page 0 therefore reloads with the old search |
| ProductsPage.ProductsPage.NextPage | src/pages/Products.jsx:570-573 | an enabled 'next' moves to a page that still starts inside the total |
| ProductsPage.ProductsPage.PrevPage | src/pages/Products.jsx:560-563 | an enabled 'previous' moves back one page, never below 0 |
| ProductsPage.ProductsPage.HandleBarcodeCheck | src/pages/Products.jsx:165-194 | an empty barcode looks nothing up; a found product closes the product dialog and opens restocking with it; an error forgets the existing product |
| ProductsPage.ProductsPage.QuickStockUpdate | src/pages/Products.jsx:214-243 | the request is the merge of the existing product and the update; a successful save closes the dialog and forgets the product |
| ProductsPage.ProductsPage.CloseQuickStock | src/pages/Products.jsx:635-643 | closing restocking forgets the product |
| ProductDialog.NewResetIsInitial | src/components/products/ProductDialog.jsx:119-138 | the reset for a new product equals the form's initial values (lines 39-58) |
| ProductDialog.EditReset | src/components/products/ProductDialog.jsx:96-117 | each field is the product's value or its default (thresholds 12, 0, 5, 100, 10; strings ''); isActive is kept unless undefined |
| ProductDialog.ResetOnOpen | src/components/products/ProductDialog.jsx:96-140 | without a product the form holds its initial values; either way it has the same fields |
| ProductDialog.EditResetOfDefaults | src/components/products/ProductDialog.jsx:96-117 | editing a product that holds the initial values resets to those values |
| ProductDialog.ZeroThresholdBecomesDefault | src/components/products/ProductDialog.jsx:108-115 | a stored 0 in a stock threshold is replaced by that field's non-zero default |
| ProductDialog.CleanData | src/components/products/ProductDialog.jsx:170-184 | the eight optional fields become null when falsy; every other field passes through unchanged |
| ProductDialog.Submittable | src/components/products/ProductDialog.jsx:211-417 | the field rules: barcode and name required, both prices required and at least 0; `CleanKeepsRequiredBarcode` states a consequence |
| ProductDialog.CleanKeepsRequiredBarcode | src/components/products/ProductDialog.jsx:174-184 | a barcode that passed its required rule (line 211) is sent as typed, never null |
| ProductDialog.BlurChecks | src/components/products/ProductDialog.jsx:155-168 | leaving the barcode field checks it exactly when a checker is given, no product is edited, and the code is non-empty |
| ProductDialog.ScanFill | src/components/products/ProductDialog.jsx:142-153 | a scan writes the code into the form, keeps the other values, and checks it exactly when a checker is given and no product is edited |
| CustomerDialog.NewResetIsInitial | src/components/customers/CustomerDialog.jsx:84-101 | the reset for a new customer equals the form's initial values (lines 30-47) |
| CustomerDialog.EditReset | src/components/customers/CustomerDialog.jsx:62-83 | each field is the customer's value or ''; the type defaults to 'individual'; isActive is kept unless undefined |
| CustomerDialog.ResetOnOpen | src/components/customers/CustomerDialog.jsx:62-103 | without a customer the form holds its initial values; either way it has the same fields |
| CustomerDialog.EditResetOfDefaults | src/components/customers/CustomerDialog.jsx:62-83 | editing a customer holding the initial values resets to them |
| CustomerDialog.Submit | src/components/customers/CustomerDialog.jsx:105-135 | a business without a company name, or an individual without either name, is rejected; otherwise the 11 optional fields are nulled when empty and the rest pass through |
| CustomerDialog.FormRulesOk | src/components/customers/CustomerDialog.jsx:183-261 | the mounted rules: first name for an individual or company name for a business, and the e-mail pattern; `FormRulesImplyAccepted` proves such a form is accepted |
| CustomerDialog.FormRulesImplyAccepted | src/components/customers/CustomerDialog.jsx:105-135 | a form passing its field rules (the required names at lines 183 and 215, the e-mail pattern at 256-258) is accepted, and a non-empty e-mail in it is well formed |
| UserDialog.NewResetIsInitial | src/components/users/UserDialog.jsx:66-76 | the reset for a new user equals the form's initial values (lines 33-42) |
| UserDialog.EditReset | src/components/users/UserDialog.jsx:56-65 | the password is always blank; role defaults to 'cashier'; isActive is kept unless undefined; other fields are the user's or '' |
| UserDialog.ResetOnOpen | src/components/users/UserDialog.jsx:55-77 | without a user the form holds its initial values; the password is blank in both cases |
| UserDialog.Submit | src/components/users/UserDialog.jsx:79-107 | checks username, then e-mail, then (creating only) password; an edit without a password sends no password key; other accepted forms are sent as they are |
| UserDialog.FormRulesOk | src/components/users/UserDialog.jsx:141-217 | username and e-mail required, the e-mail pattern, and a password of at least 6 characters when given; `FormRulesPassFirstChecks` and `ShortPasswordRejected` state their consequences |
| UserDialog.ShortPasswordRejected | src/components/users/UserDialog.jsx:212-217 | a non-empty password under 6 characters fails the field rule |
| UserDialog.EditWithoutPasswordSendsNone | src/components/users/UserDialog.jsx:104-107 | opening a user for editing (reset at lines 56-65) and saving untouched never sends a password |
| UserDialog.FormRulesPassFirstChecks | src/components/users/UserDialog.jsx:83-94 | a form passing its field rules (lines 141 and 159-165) clears the username and e-mail checks, with a well-formed e-mail |
| FormRules.RequiredOk | src/components/products/ProductDialog.jsx:211 | react-hook-form's `required`: the value is not undefined, null or empty text; `CleanKeepsRequiredBarcode` and `ZeroPurchasePriceBlocksRestock` use it |
| FormRules.MinOk | src/components/products/QuickStockDialog.jsx:120-123 | `min`: a blank or non-numeric value passes, a number must be at least the minimum; `ResetFormNeedsQuantity` and `SubmittedPricesAreNumbers` use it |
| FormRules.MinLengthOk | src/components/users/UserDialog.jsx:212-217 | `minLength`: only non-empty text shorter than the bound fails; `ShortPasswordRejected` states it |
| FormRules.EmailRuleOk | src/components/customers/CustomerDialog.jsx:256-261 | `pattern`: an empty value passes, any other text must match the e-mail pattern; `IsEmailMatchesPattern` proves the positional test equals the regular expression |
| FormRules.IsEmailMatchesPattern | src/components/customers/CustomerDialog.jsx:258 | the executable e-mail test accepts exactly the strings `^[^\s@]+@[^\s@]+\.[^\s@]+$` matches |
| FormRules.EmailAccepted | src/components/users/UserDialog.jsx:162 | a plain address such as ana@tienda.mx passes the e-mail rule |
| FormRules.EmailRejectsTwoAts | src/components/users/UserDialog.jsx:162 | an address with two '@' fails the rule |
| FormRules.EmailRejectsSpace | src/components/users/UserDialog.jsx:162 | an address holding white space fails the rule |
| FormRules.EmailRejectsEmptyLocalPart | src/components/users/UserDialog.jsx:162 | an address with nothing before the '@' fails the rule |
| FormRules.EmailRejectsDomainWithoutDot | src/components/users/UserDialog.jsx:162 | a domain with no '.', or ending in '.', fails the rule |
| FormRules.Fill | src/components/users/UserDialog.jsx:57-63 | the `value || default` reset: truthy values kept, others replaced by the default, on exactly the default keys |
| FormRules.FillFromDefaults | src/components/customers/CustomerDialog.jsx:65-82 | filling the defaults from themselves gives the defaults |
| FormRules.NullFalsy | src/components/customers/CustomerDialog.jsx:122-135 | the listed fields become null when falsy; others pass through; every truthy result came from the data |
| FormRules.NullFalsyIdempotent | src/components/products/ProductDialog.jsx:174-184 | cleaning an already cleaned form changes nothing |
| PriceList.NoProducts | src/pages/PriceList.jsx:76-77 | no products, an empty array, or an object without keys; `GeneratePdf` warns exactly then |
| PriceList.PriceText | src/pages/PriceList.jsx:125 | `$` followed by the parsed price in two-decimal form, or `$NaN` |
| PriceList.VolumeCell | src/pages/PriceList.jsx:124 | the volume followed by ' ml' when truthy, else '-' |
| PriceList.CentsText | src/pages/PriceList.jsx:125 | a price in cents prints with two decimals |
| PriceList.WholesaleCells | src/pages/PriceList.jsx:128-136 | without a wholesale price the two cells are '-','-'; otherwise the price and "<min or 12> pzs" |
| PriceList.Row | src/pages/PriceList.jsx:203-227 | a product's row: code or '-', name, category and brand (flat list only), volume, price, then the wholesale cells and stock when switched on (lines 120-143 for groups); `WidthsAgree` and `ColumnsAlign` state its shape |
| PriceList.Headers | src/pages/PriceList.jsx:230-246 | the column titles for the same switches (lines 146-160 for groups); `ColumnsAlign` proves each stands over its cell |
| PriceList.Widths | src/pages/PriceList.jsx:248-263 | the column widths in header order (lines 162-178 for groups); `WidthsAgree` and `ColumnStyles` state its properties |
| PriceList.Rows | src/pages/PriceList.jsx:120-143 | one row per product, in order (the flat table at lines 203-228 likewise) |
| PriceList.WidthsAgree | src/pages/PriceList.jsx:120-266 | row, headers and styles all have 4 (grouped) or 6 (flat) entries, plus 2 with wholesale, plus 1 with stock |
| PriceList.ColumnsAlign | src/pages/PriceList.jsx:121-246 | under each header stands its own cell: barcode or '-', price, the wholesale pair, stock or 0 |
| PriceList.ColumnStyles | src/pages/PriceList.jsx:162-178 | the style map gives each column index its width, and covers exactly the headers' indices (the flat table at lines 248-266 likewise) |
| PriceList.TitleY | src/pages/PriceList.jsx:106-117 | a group's title goes at the cursor, or at 20 on a new page when the cursor is past 250, so never below 250 |
| PriceList.Breaks | src/pages/PriceList.jsx:108-111 | counts the groups that start a new page |
| PriceList.GeneratePdf | src/pages/PriceList.jsx:70-283 | missing or empty products give a warning only; grouped data gives one table per group at the computed positions; flat data gives one table of all rows; a shape mismatch fails |
| PriceList.PriceListPage.constructor | src/pages/PriceList.jsx:34-43 | the configuration starts at its initial values |
| PriceList.PriceListPage.ChangeConfig | src/pages/PriceList.jsx:66-68 | one field changes and the others stay |
| PriceList.PriceListPage.ResetConfig | src/pages/PriceList.jsx:464-473 | the reset restores the initial configuration |
| SalesPage.StatusColor | src/pages/Sales.jsx:160-167 | the three known statuses get their colours, any other 'default' |
| SalesPage.StatusLabel | src/pages/Sales.jsx:169-176 | the three known statuses get Spanish labels, any other is shown as it is |
| SalesPage.SaleTypeLabel | src/pages/Sales.jsx:178-185 | retail, wholesale and credit get Spanish labels, any other is shown as it is |
| SalesPage.CancelOffered | src/pages/Sales.jsx:432 | only a 'paid' sale offers the cancel button (also line 247); `RecordedSaleShownRawButCancellable` states its consequence |
| SalesPage.RecordedSaleShownRawButCancellable | src/pages/Sales.jsx:432 | a sale the POS records (POS.jsx line 272) has status 'paid': it is shown raw in 'default' and is the only status offering cancel |
| SalesPage.CustomerText | src/pages/Sales.jsx:400-403 | a sale with a customer shows both names as the template renders them, else 'Cliente General' (also lines 212 and 518-521) |
| SalesPage.CustomerTextMatchesJoinedName | src/pages/Sales.jsx:400-403 | for two plain names this is the joined name the customer list shows |
| SalesPage.MissingNamesRenderedLiterally | src/pages/Sales.jsx:400-403 | missing names show as "undefined undefined" or "null null", where the customer list shows nothing |
| SalesPage.SalesPage.constructor | src/pages/Sales.jsx:56-77 | the list starts on page 0 with 10 rows and no cancel in progress |
| SalesPage.SalesPage.Query | src/pages/Sales.jsx:90-93 | the list asks for the 0-based page plus 1 and the page size |
| SalesPage.SalesPage.ChangePage | src/pages/Sales.jsx:358 | the page is set |
| SalesPage.SalesPage.ChangeRowsPerPage | src/pages/Sales.jsx:458-461 | a new page size goes back to the first page (the card view repeats this at lines 360-363) |
| SalesPage.SalesPage.OpenCancel | src/pages/Sales.jsx:436-439 | the row's sale becomes the one to cancel and the dialog opens |
| SalesPage.SalesPage.SetCancelReason | src/pages/Sales.jsx:616 | the reason is set |
| SalesPage.SalesPage.ConfirmDisabled | src/pages/Sales.jsx:635 | confirm is disabled exactly when the reason is only white space |
| SalesPage.SalesPage.CloseCancel | src/pages/Sales.jsx:622-628 | closing, by this button or from outside (lines 597-601), forgets the sale and the reason |
| SalesPage.SalesPage.HandleCancelSale | src/pages/Sales.jsx:123-140 | a blank reason sends nothing; otherwise the sale and reason are sent, a success clears the dialog, and a failure leaves it as it was |
| Js.ParseNumber | src/components/products/QuickStockDialog.jsx:54-57 | `parseFloat` yields a number exactly for numeric input, else NaN |
| Js.Add | src/components/products/QuickStockDialog.jsx:57 | `+` joins the renderings when either side is text or an object; otherwise it adds the numeric values (null 0, booleans 0 or 1) and gives NaN when either has none |
| Js.AddCoercions | src/components/products/QuickStockDialog.jsx:57 | `null + 5` is 5, `true + 5` is 6, `'10' + 5` is '105' and `undefined + 5` is NaN |
| Js.LookupOr | src/pages/Users.jsx:117 | `table[key] \|\| fallback`: the entry for a key with a non-empty entry, the fallback for any key not in the table |
| Js.TrimEmptyIff | src/pages/Sales.jsx:124 | a string trims to empty exactly when it is all white space |
| Js.TrimJoin | src/pages/Users.jsx:144 | trimming two unpadded parts joined by a space gives both, or the one that is non-empty |
| Display.Dash | src/pages/Customers.jsx:138 | a truthy value is shown, anything else as '-' |
| Display.JoinedName | src/pages/Users.jsx:144 | `${first \|\| ''} ${last \|\| ''}`.trim(); `JoinedNameEmptyIff` and `JoinedNameOfTrimmedParts` state its properties |
| Display.JoinedNameEmptyIff | src/pages/Customers.jsx:119 | the joined name is empty exactly when both parts are missing or white space |
| Display.JoinedNameOfTrimmedParts | src/pages/Users.jsx:144 | with unpadded parts, the joined name is "first last", or the one part present |
| Display.NameCell | src/pages/Users.jsx:143-146 | the name is shown, or '-' when it is empty; the cell is never empty |
| Display.ActiveChip | src/pages/Users.jsx:170-173 | 'Activo' in 'success' exactly when isActive is truthy |
| CustomersPage.NameColumn | src/pages/Customers.jsx:115-120 | a business shows its company name or '-'; others the joined name or '-' |
| CustomersPage.IndividualWithoutNameShowsDash | src/pages/Customers.jsx:119 | an individual shows '-' exactly when both names are missing or white space (or the name is '-') |
| CustomersPage.TypeChip | src/pages/Customers.jsx:127-131 | 'Empresa' in 'primary' exactly for a business |
| CustomersPage.ContactCells | src/pages/Customers.jsx:134-163 | phone, e-mail, RFC, municipality and state show their value or '-' |
| CustomersPage.DeletePromptName | src/pages/Customers.jsx:270-273 | the prompt names the company whenever one is set, whatever the type, else the joined name |
| CustomersPage.PromptUsesCompanyForIndividual | src/pages/Customers.jsx:270-273 | unlike the name column (lines 116-119), an individual with a company name is listed by person but asked about by company |
| UsersPage.RoleLabel | src/pages/Users.jsx:109-118 | the five roles get Spanish names; any other role is shown as it is |
| UsersPage.RoleColor | src/pages/Users.jsx:120-129 | the five roles get colours; any other 'default' |
| UsersPage.RoleTablesAgree | src/pages/Users.jsx:109-129 | a role has a colour other than 'default' exactly when it has a translated label |
| UsersPage.FullName | src/pages/Users.jsx:143-146 | the joined name, or '-' when empty |
| UsersPage.FullNameOfNamedUser | src/pages/Users.jsx:143-146 | a user with two unpadded names shows "first last" |
| UsersPage.AccountCells | src/pages/Users.jsx:132-153 | username and e-mail show their value or '-' |

## Left out

- Network services: every `await` on a service is replaced by a parameter that holds its answer; the order of concurrent requests and the `loading` flags are not modelled.
- Notifications (notistack) and console logging: the model returns an outcome value instead.
- The camera and the decoder (getUserMedia, Html5Qrcode `start`, `stop`, `clear`): their results are parameters.
- ScannerEmbed.ScannerGuard.Stop: the await on the decoder's `stop` inside `stopScanning` is one step, so no event can come between the stop's start and its resets.
- The POS page mounts the common `BarcodeScanner` (POS.jsx:51), which has no duplicate guard. The guard is modelled as the embedded scanner writes it. `src/components/common/BarcodeScanner.jsx` is not part of this model.
- PDF drawing: the PDF library's table height (`lastAutoTable.finalY`) is a parameter, and fonts, colours and saving are left out.
- Floating point: money is integer cents, so `toFixed(2)` rounding and currency and date formatting are not modelled.
- Js.ParseNumber: reads only numbers and number-input text, so a number string the server returns ("150.00") parses to NaN where `parseFloat` gives 150; this affects `QuickStock.Payload` for prices the form kept from the product and `PriceList.PriceText` for any price in the PDF that arrives as a string.
- JSON encoding of the POS snapshot: the stored entry is the parsed object, or unreadable.
- Object keys inherited from the JavaScript prototype (`labels['constructor']`) are not modelled in the lookup tables.
- `minLength` counts characters, not UTF-16 code units.
- The order of `Object.values` over integer-like keys: groups are taken in the order the server sends them.
- The product search during a scan asks for one result (POS.jsx:129); the model takes whatever list the reply holds.
- The sale type is only ever set by restoring a snapshot (POS.jsx:91); the page offers no control for it, so none is modelled.
- Rules of fields react-hook-form does not mount (the business fields of an individual customer) are not modelled.
- Product create, edit and delete handlers in `src/pages/Products.jsx` only forward to the server and are not modelled.

## Behaviours worth knowing

Each of these is a behaviour of the code as written that a lemma states; none is claimed as a defect:

- Sales recorded by the POS have status 'paid', which the sales list has no label or colour for (`SalesPage.RecordedSaleShownRawButCancellable`).
- Clearing the product search on the first page reloads the list with the search just cleared, since the delayed load belongs to the earlier render and the page effect does not run again (`ProductsPage.ProductsPage.HandleSearch`).
- Unmounting the embedded scanner while the decoder's start is pending drops the decoder before it starts, so a successful start leaves it running (`ScannerEmbed.ScannerGuard.StartDone`).
- A product whose purchase price is 0 opens the restock form with that field empty, and it cannot be submitted until a price is typed (`QuickStock.ZeroPurchasePriceBlocksRestock`).
- The last-code test of the embedded scanner only ever rejects the empty code, because the code is forgotten whenever processing ends (`ScannerEmbed.ScannerGuard.OnDecode`).
- An amount typed under cash and left when switching to card can reject a card sale whose confirm button was enabled (`PosCart.StaleAmountRejectsCard`).
