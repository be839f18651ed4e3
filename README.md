# SaleFlex.PyPOS core, modelled in Dafny

This project models the core of SaleFlex.PyPOS, a point-of-sale application. It states and proves what that core promises. The core covers:

- **Sales.** Department, PLU-code and barcode sales are parsed from button names and the numpad. They are checked against the product cache and recorded into the open document: a head, product and department lines, and the totals.
- **Payments.**
  - The payment service: amount parsing, the clamp, payment and change lines, the completion test and the closure totals.
  - The payment events: tenders, change, and the ordered completion of a document with the receipt-number increment.
- **Documents.** The document manager creates an empty draft, resumes the newest incomplete one, loads the stored lines, completes a document by copying it to the permanent tables with id remapping, and suspends or resumes it.
- **Closures.** The closure manager opens a closure with per-day numbering, resumes the latest open one, and closes it, storing its summaries.
- **Services.** The VAT service (currency places and half-up rounding) and the sale service (VAT-rate lookups, line construction, document totals).
- **Status and caches.**
  - The current-status form history.
  - The POS and product caches, with per-model fallback and in-place updates.
  - The general events: login matching, logout, back navigation, and field conversion when saving a panel.
- **Models and settings.**
  - The country-specific closure data with its templates, and the country/region template file name.
  - The CRUD base model (id assignment, soft and hard delete, pagination).
  - The virtual-keyboard settings cache, the design-file interpreter and the application settings singleton.
- **User-interface logic.** The dynamic renderer (colour parsing, window settings, design list, toolbar, startup form), the numpad text buffer, the payment list and the dialog's value collection.

Database tables are sequences of records. The temporary and permanent tiers are fields of the classes that own them. `uuid4()` is modelled by `Documents.UuidSource`, a source of fresh ids given as an input. `datetime.now()` and dates are parameters. A write whose failure changes the outcome is a parameter saying whether it succeeds: the payment core gathers them in `PaymentEvent.Writes`, and the sale events take `saveOk` for the line's save. Other writes are taken to succeed. Money is `real`, an exact decimal.

Modules follow the program's files:

| module | source file |
|---|---|
| `PaymentService` | pos/service/payment_service.py |
| `Vat` | pos/service/vat_service.py |
| `SaleService` | pos/service/sale_service.py |
| `DocumentManager` | pos/manager/document_manager.py |
| `Closures` | pos/manager/closure_manager.py |
| `PaymentEvent` | pos/manager/event/payment.py |
| `SaleEvent` | pos/manager/event/sale.py |
| `CurrentStatus` | pos/manager/current_status.py |
| `CacheManager` | pos/manager/cache_manager.py |
| `GeneralEvent` | pos/manager/event/general.py |
| `ClosureCountry` | data_layer/model/definition/closure_country_specific.py |
| `CountryRegion` | data_layer/model/definition/country_region.py |
| `CrudModel` | data_layer/model/crud_model.py |
| `DynamicRenderer` | user_interface/render/dynamic_renderer.py |
| `NumPadControl` | user_interface/control/numpad/numpad.py |
| `PaymentListControl` | user_interface/control/payment_list/payment_list.py |
| `DynamicDialog` | user_interface/window/dynamic_dialog.py |
| `KeyboardSettings` | user_interface/control/virtual_keyboard/keyboard_settings_loader.py |
| `DesignInterpreter` | user_interface/design_file/interpreter.py |
| `AppSettings` | settings/settings.py |

Shared modules:

- `Documents` holds the document records and the `DocumentData` class, which stands for the document dictionary.
- `Catalog` holds the cached product and POS records.
- `Tables` holds generic table operations.
- `Text` holds Python's string functions on ASCII: `strip`, `lower`, `upper`, `split` and zero padding, and `int()`, `Decimal()` and `float()` on plain decimal notation only (see "Left out").
- `Wrappers` holds `Option` and `Result`.

## Model

| member | source | states |
|---|---|---|
| PaymentService.SafeDecimal | pos/service/payment_service.py:67-90 | None, blank text, "none" and "null" (any case) and unparseable text give 0; numbers keep their value; parseable text gives its decimal |
| PaymentService.SafeDecimalOfNumberText | pos/service/payment_service.py:79-86 | text that parses as a decimal is read as that decimal |
| PaymentService.SafeDecimalOfIntText | pos/service/payment_service.py:79-86 | an integer written as text is read back as that integer |
| PaymentService.ClassifyButton | pos/service/payment_service.py:117-131 | an upper-cased name starting with PAYMENT pays the balance, one starting with CASH pays the text after four characters, any other name pays the balance |
| PaymentService.PaymentAmount | pos/service/payment_service.py:93-139 | balance buttons pay the remaining balance; CASH&lt;n&gt; pays n/100 and fails when int() rejects n; credit, prepaid, charge-sale and other payments pay the smaller of that amount and the balance |
| PaymentService.CashButtonName | pos/service/payment_service.py:125-127 | "CASH" followed by text is classified as a cash button for that text |
| PaymentService.CashIsNotClamped | pos/service/payment_service.py:133-137 | cash is not in the clamped payment types |
| PaymentService.CashButtonPays | pos/service/payment_service.py:125-137 | a CASH&lt;n&gt; button pays exactly n/100 in cash whatever the balance, so cash may overpay |
| PaymentService.UnreadableCashButtonFails | pos/service/payment_service.py:127-131 | a CASH button whose amount int() rejects is refused with an invalid-amount error |
| PaymentService.ClampedNeverOverpays | pos/service/payment_service.py:133-137 | a clamped payment type never pays more than the remaining balance |
| PaymentService.PaymentStep | pos/service/payment_service.py:155-216 | refused when nothing remains or the amount is not positive; otherwise the line is numbered after the existing ones, carries the head id, the type, the amount, the currency or GBP, rate 1 and status approved |
| PaymentService.ProcessPayment | pos/service/payment_service.py:142-222 | with no document nothing happens; when the step succeeds and the line is created, exactly that line is appended, the head's payment total grows by its amount and one id is drawn; on refusal, or when `create()` raises (a storage error), the lines, the head and the ids are unchanged; nothing but the head and the payments can change |
| PaymentService.AddPayment | pos/service/payment_service.py:181-222 | the append-and-add step of a payment on an open document, stated against `PaymentStep`, failing with a storage error and no change when the line's `create()` raises |
| PaymentService.ClampedPaymentsStayWithinTotal | pos/service/payment_service.py:133-137 | a successful clamped payment keeps the payment total at most the document total |
| PaymentService.CalculateChange | pos/service/payment_service.py:225-244 | payment total minus total, negative while underpaid; 0 without a document |
| PaymentService.ChangeStep | pos/service/payment_service.py:264-299 | a change line for the positive change, numbered after the existing ones, in the head's currency or GBP; otherwise "no change due" |
| PaymentService.RecordChange | pos/service/payment_service.py:247-302 | with change due and the line created, one change line is appended and the head's change total is set (not added) to the change; with no change due, or when `create()` raises (a storage error), nothing changes; nothing but the head and the change lines can change |
| PaymentService.RecordedChangeCompletes | pos/service/payment_service.py:305-345 | recording the change of an overpaid document makes it complete |
| PaymentService.RecordChangeRepeats | pos/service/payment_service.py:264-288 | recording twice gives two lines for the same change, because the change is recomputed from unchanged totals |
| PaymentService.CompletionCases | pos/service/payment_service.py:324-331 | an exact payment with no change is complete; an over- or underpayment of a hundredth or more is not |
| PaymentService.IsDocumentComplete | pos/service/payment_service.py:305-341 | complete exactly when the payments less the change lie within a hundredth of the total, on either side |
| PaymentService.MarkDocumentComplete | pos/service/payment_service.py:348-375 | the head becomes completed and closed in memory; the result is whether its save succeeded; without a document nothing happens; nothing but the head can change |
| PaymentService.CashTotalBounds | pos/service/payment_service.py:424-430 | with no negative payments the cash total is non-negative and at most the sum of all payments |
| PaymentService.AfterCompletion | pos/service/payment_service.py:400-434 | the closure's counts rise by one; its sales, net, tax, discount, tip, cash and paid-in totals rise by the document's amounts; its paid-in count rises by the number of payments |
| PaymentService.CompletionKeepsClosureBalanced | pos/service/payment_service.py:416-434 | gross stays net plus tax, and cash and paid-in grow by what the document took |
| PaymentService.UpdateClosureForCompletion | pos/service/payment_service.py:378-442 | without a closure or a document nothing happens and the result is false; otherwise the open closure becomes `AfterCompletion` of it in memory, and it is merged into the closure table exactly when its `save()` succeeds, which is the result; the closure ids stay unique |
| PaymentService.RehomePayments | pos/service/payment_service.py:474-485 | copies keep every column, take the new head id and the k-th drawn id |
| PaymentService.RehomeKeepsTotals | pos/service/payment_service.py:474-485 | copied payments keep their total and their cash part |
| PaymentService.RehomeChanges | pos/service/payment_service.py:488-498 | change copies keep every column, take the new head id and the k-th drawn id |
| PaymentService.CopiedTablesUpTo | pos/service/payment_service.py:465-504 | no row created leaves the tables; otherwise the new head is appended, then as many payments and after them change lines as the remaining rows allow, and every row created gives `CopiedTables` |
| PaymentService.CopyTempToPermanent | pos/service/payment_service.py:445-504 | the tables become `CopiedTablesUpTo` of the document for the number of rows created before a `create()` raises: the head under a new id, then its payments and change lines, each with a new id pointing at the new head, and nothing else; true exactly when every row is created; without a document nothing happens |
| PaymentService.CopyPayments | pos/service/payment_service.py:475-485 | one fresh id is drawn per payment, in order |
| PaymentService.CopyChanges | pos/service/payment_service.py:488-498 | one fresh id is drawn per change line, in order |
| Vat.FindCurrency | pos/service/vat_service.py:72-85 | the index of the first live currency with the sign, or none when there is none |
| Vat.CurrencyDecimalPlaces | pos/service/vat_service.py:52-93 | 2 for a missing or empty sign; otherwise the places are those of a live currency with that sign, the first cached one winning when it has places, or the default 2 when no live currency carries the sign |
| Vat.Scale | pos/service/vat_service.py:117-124 | 10 to the places, a negative number of places counting as 0; at least 1 |
| Vat.UnitsOfWhole | pos/service/vat_service.py:126-138 | a whole number of units is kept |
| Vat.UnitsHalfUp | pos/service/vat_service.py:130-135 | on a non-negative shifted value the units are floor(s + 1/2) |
| Vat.UnitsNegative | pos/service/vat_service.py:130-138 | on a negative shifted value the units are truncated toward zero |
| Vat.RoundNegativePlaces | pos/service/vat_service.py:117-118 | a negative number of places rounds like zero places |
| Vat.RoundByCurrency | pos/service/vat_service.py:96-142 | the result is a whole multiple of 10^-places |
| Vat.RoundOfGridValue | pos/service/vat_service.py:96-142 | a value already on the grid is returned unchanged |
| Vat.RoundIdempotent | pos/service/vat_service.py:96-142 | rounding twice is rounding once |
| Vat.RoundHalfUpNonNegative | pos/service/vat_service.py:126-142 | for a non-negative value the result is floor(v·10^p + 1/2)/10^p |
| Vat.RoundErrorBound | pos/service/vat_service.py:96-142 | a non-negative value is rounded to within half a unit of the last kept place |
| Vat.RoundNegativeTruncates | pos/service/vat_service.py:129-138 | a negative value is truncated toward zero, since its fractional part is never at least 0.5 |
| Vat.RoundNonNegative | pos/service/vat_service.py:96-142 | a non-negative value never rounds to a negative result |
| Vat.RoundMonotoneToGrid | pos/service/vat_service.py:96-142 | a value at most a grid point never rounds above it |
| Vat.RoundExamples | pos/service/vat_service.py:104-108 | the four documented two-place examples, and a tie rounds up |
| Vat.CalculateVat | pos/service/vat_service.py:145-185 | a non-positive rate gives 0, and the VAT is always a whole multiple of the currency's last place |
| Vat.CalculateVatWithDecimalPlaces | pos/service/vat_service.py:188-222 | a non-positive rate gives 0; the VAT is a whole multiple of the given last place, and not negative for a non-negative price |
| Vat.CalculateVatAgrees | pos/service/vat_service.py:145-222 | the two VAT entry points agree when the explicit places are the currency's |
| Vat.VatShareBounds | pos/service/vat_service.py:176-180 | the share price·rate/(100+rate) of a non-negative price lies in [0, price) |
| Vat.CalculateVatProperties | pos/service/vat_service.py:145-185 | a non-positive rate gives 0; otherwise the VAT is on the currency's grid, within half a unit of the exact share, non-negative and never above a non-negative price |
| SaleService.GroupVatRate | pos/service/sale_service.py:62-69 | the rate of the VAT row the main group points at, 0 when there is none |
| SaleService.VatRateForProduct | pos/service/sale_service.py:44-73 | product, then main group, then VAT row; 0 when any link is missing |
| SaleService.VatRateForProductListed | pos/service/sale_service.py:44-73 | the rate is 0 or the rate of some VAT row |
| SaleService.LeadingDigit | pos/service/sale_service.py:100-110 | the one-character code `str(n)[0]` of a department number above 99 |
| SaleService.ResolveMainGroup | pos/service/sale_service.py:76-131 | a main group is itself; a subgroup goes through its main-group id, then (above 99) the main group coded with the leading digit |
| SaleService.VatRateForDepartment | pos/service/sale_service.py:76-131 | the resolved main group and its VAT rate, or (0, none) |
| SaleService.CalculatePluSale | pos/service/sale_service.py:134-170 | total = quantity × unit price; VAT is that total's share rounded to the currency's places |
| SaleService.PluSaleVatWithinTotal | pos/service/sale_service.py:134-170 | the VAT of a non-negative PLU total lies between 0 and the total |
| SaleService.CalculateDepartmentSale | pos/service/sale_service.py:173-221 | like a PLU sale with the department's rate and main group; the subgroup is reported exactly when the department is one |
| SaleService.DisplayName | pos/service/sale_service.py:245-247 | the short name when there is one, else the name |
| SaleService.CreateProductLine | pos/service/sale_service.py:224-267 | the line snapshots the product and the prices; the barcode key is set only when a barcode is given |
| SaleService.DepartmentSubGroupId | pos/service/sale_service.py:290-300 | the given subgroup, else for numbers above 99 the subgroup coded with the number |
| SaleService.CreateDepartmentLine | pos/service/sale_service.py:270-314 | the department line's columns, from the main group, subgroup, quantity and prices |
| SaleService.ProductTotalsSplit | pos/service/sale_service.py:317-349 | the product sums split over any division of the lines |
| SaleService.DepartmentTotalsSplit | pos/service/sale_service.py:317-349 | the department sums split over any division of the lines |
| SaleService.VatWithinTotal | pos/service/sale_service.py:317-349 | lines whose VAT never exceeds their price give a document whose VAT never exceeds its total |
| SaleService.CalculateDocumentTotals | pos/service/sale_service.py:317-349 | the loops return the sums of amount and VAT over the product lines and then the department lines |
| Documents.StampedNumberDecodes | pos/manager/document_manager.py:191 | a `YYYYMMDD-nnnnnn` id splits on '-' into the day stamp and a number that parses back |
| Documents.DocumentTypeName | pos/manager/document_manager.py:93-104 | the enum member name stored in `document_type`, never empty |
| Documents.CurrencyOrGbp | pos/service/payment_service.py:190 | the head's currency, or "GBP" when it is empty |
| Documents.DocumentData.Empty | pos/manager/document_manager.py:212-228 | a new document holds the head, fourteen empty lists and no fiscal line |
| Documents.DocumentData.Loaded | pos/manager/document_manager.py:380-424 | a document rebuilt from stored lines holds exactly those lines |
| Catalog.FindMainGroup | pos/service/sale_service.py:62-66 | the index of the first main group with the id, or none |
| Catalog.FindMainGroupByCode | pos/service/sale_service.py:104-110 | the index of the first main group with the code, or none |
| Catalog.FindSubGroupByCode | pos/service/sale_service.py:292-299 | the index of the first subgroup with the code, or none |
| Catalog.FindVat | pos/service/sale_service.py:66-69 | the index of the first VAT row with the id, or none |
| Catalog.SequenceValue | pos/manager/document_manager.py:185-189 | the value of the first sequence with the name, 1 when there is none |
| Catalog.FindSequence | pos/manager/event/payment.py:518-522 | the index of the first sequence with the name, or none |
| DocumentManager.DefaultCustomer | pos/manager/document_manager.py:145-181 | the first live walk-in customer, else the first live customer, else none (a default must be created) |
| DocumentManager.TransactionTypeFor | pos/manager/document_manager.py:108-114 | RETURN for a return slip, SALE for every other document type |
| DocumentManager.NewHead | pos/manager/document_manager.py:183-220 | the draft head's columns: receipt number, unique id, store, customer, types, DRAFT status, zero totals |
| DocumentManager.NewHeadUniqueIdDecodes | pos/manager/document_manager.py:183-196 | the draft's unique id reads back as its day and its receipt number |
| DocumentManager.LatestIncomplete | pos/manager/document_manager.py:295-309 | the incomplete, live head with the latest time (the earliest row on a tie), or none |
| DocumentManager.Closing | pos/manager/document_manager.py:524-540 | the head after the status step: cancelled or completed, and closed |
| DocumentManager.FiscalRows | pos/manager/document_manager.py:700-715 | the fiscal line as a table of at most one row |
| DocumentManager.CopyCount | pos/manager/document_manager.py:545-790 | the ids a copy draws: one per row plus the head |
| DocumentManager.CopyPointsAtHead | pos/manager/document_manager.py:545-790 | every copied line points at the copied head |
| DocumentManager.RelocatedProductTotals | pos/manager/document_manager.py:556-572 | copied product lines carry the same amounts as the originals |
| DocumentManager.RelocatedDepartmentTotals | pos/manager/document_manager.py:592-608 | copied department lines carry the same amounts as the originals |
| DocumentManager.CopyKeepsTotals | pos/manager/document_manager.py:545-608 | the permanent sale lines add up to the same totals as the document's |
| DocumentManager.DiscountFollowsProduct | pos/manager/document_manager.py:610-630 | a discount on the k-th product line refers, once copied, to the copy of that line |
| DocumentManager.DiscountFollowsDepartment | pos/manager/document_manager.py:610-630 | a discount on the k-th department line refers to its copy |
| DocumentManager.TipFollowsPayment | pos/manager/document_manager.py:760-780 | a tip on the k-th payment line refers to its copy |
| DocumentManager.CopyRows | pos/manager/document_manager.py:610-790 | copies rows in order with one fresh id each, pointing at the new head |
| DocumentManager.CopyKeyedRows | pos/manager/document_manager.py:556-608 | copies rows like `CopyRows` and records temporary id to new id |
| DocumentManager.Manager.FindOrCreateCustomer | pos/manager/document_manager.py:145-181 | an existing default customer, or a new default one appended to the customers |
| DocumentManager.Manager.CreateEmptyDocument | pos/manager/document_manager.py:71-243 | nothing is created without POS settings or a store; otherwise the document holds a new draft head and empty collections |
| DocumentManager.Manager.OpenDocument | pos/manager/document_manager.py:222-228 | the new empty document with head `h` becomes the open one |
| DocumentManager.Manager.LoadDocumentData | pos/manager/document_manager.py:363-426 | the document becomes the stored head with its live lines (no change lines); nothing happens when no head has the id |
| DocumentManager.Manager.LoadDocumentDataDict | pos/manager/document_manager.py:428-497 | the same lines, change lines included, as a new document that is not installed; null when no head has the id |
| DocumentManager.Manager.LoadIncompleteDocument | pos/manager/document_manager.py:277-322 | resumes `LatestIncomplete`; with none, reports false and keeps the current document |
| DocumentManager.Manager.CopyToPermanent | pos/manager/document_manager.py:545-790 | the head under a fresh id, then every line table with fresh ids, the new head id and translated references |
| DocumentManager.Manager.CopyKeyedLines | pos/manager/document_manager.py:545-608 | the head, product, payment and department copies, and the three id maps |
| DocumentManager.Manager.CopyProducts | pos/manager/document_manager.py:556-572 | the product copies, filling `product_id_map` |
| DocumentManager.Manager.CopyPayments | pos/manager/document_manager.py:574-590 | the payment copies, filling `payment_id_map` |
| DocumentManager.Manager.CopyDepartments | pos/manager/document_manager.py:592-608 | the department copies, filling `total_id_map` |
| DocumentManager.Manager.CopyLinesA | pos/manager/document_manager.py:610-665 | discounts, deliveries and kitchen orders copied with translated references |
| DocumentManager.Manager.CopyLinesB | pos/manager/document_manager.py:667-715 | loyalty lines, notes and the fiscal line copied |
| DocumentManager.Manager.CopyLinesC | pos/manager/document_manager.py:717-790 | refunds, surcharges, taxes and tips copied with translated references |
| DocumentManager.Manager.CompleteDocument | pos/manager/document_manager.py:499-808 | without a document nothing happens; otherwise the head is closed and saved, and the document is copied (its change lines are not); every create is taken to succeed |
| DocumentManager.Manager.SetDocumentPending | pos/manager/document_manager.py:810-849 | the open document's head becomes PENDING or ACTIVE and is saved |
| DocumentManager.PendingLeavesResumption | pos/manager/document_manager.py:295-309 | a suspended document is no longer resumed; a resumed one is again a candidate unless closed, cancelled or deleted |
| DocumentManager.ClosedIsNotResumed | pos/manager/document_manager.py:295-309 | a completed or cancelled head is never resumed |
| Closures.SummariesOf | pos/manager/closure_manager.py:117-153 | the live summaries of one kind belonging to the closure |
| Closures.ListsOf | pos/manager/closure_manager.py:104-153 | the eight lists `_load_closure_data` builds for a closure id |
| Closures.FindClosure | pos/manager/closure_manager.py:102-103 | the index of the first closure with the id, or none |
| Closures.LatestOpen | pos/manager/closure_manager.py:67-75 | the open closure with the latest start time (the first on a tie), or none |
| Closures.MaxNumberOn | pos/manager/closure_manager.py:232-238 | the highest closure number used on the day, if any |
| Closures.NextClosureNumberFresh | pos/manager/closure_manager.py:240-242 | the next number is 1 on a fresh day, else one past the day's highest, so it is unused that day |
| Closures.ClosureUniqueIdDecodes | pos/manager/closure_manager.py:245 | the unique id names its day and its number |
| Closures.FindClosureUnique | pos/manager/closure_manager.py:102-103 | with unique keys, looking up a stored row's id finds that row |
| Closures.InsertClosure | pos/manager/closure_manager.py:264 | an insert fails, leaving the table unchanged, when the key is taken |
| Closures.MergeClosure | pos/manager/closure_manager.py:318 | a merge replaces the row with the key or adds the row |
| Closures.WritesKeepKeysUnique | pos/manager/closure_manager.py:264-353 | both writes keep keys unique and the key then finds the row written |
| Closures.ClosureCashier | pos/manager/closure_manager.py:213-226 | the logged-in cashier, else the first cached one |
| Closures.ClosureCurrency | pos/manager/closure_manager.py:200-211 | the configured currency, else the first cached currency |
| Closures.NewClosure | pos/manager/closure_manager.py:185-259 | the open closure record, or none when settings, a store, a currency or a cashier is missing |
| Closures.NewClosureNumbering | pos/manager/closure_manager.py:232-251 | a new closure is numbered after every closure of its day, and its unique id carries that day and number |
| Closures.FindSummary | pos/manager/closure_manager.py:327-338 | the first stored summary with the id |
| Closures.PutSummary | pos/manager/closure_manager.py:327-338 | a new summary is inserted (skipped on a taken key); a stored one is merged |
| Closures.ListKindsDistinct | pos/manager/closure_manager.py:321-325 | the eight summary kinds are different |
| Closures.Closed | pos/manager/closure_manager.py:305-314 | end time and closing cashier set; with a counted amount, the closing cash and its difference; with a description, that description |
| Closures.ClosureManager.LoadClosureData | pos/manager/closure_manager.py:92-161 | the stored record and its live summaries, or no change |
| Closures.ClosureManager.CreateEmptyClosure | pos/manager/closure_manager.py:163-271 | inserts and loads `NewClosure`, or does nothing when something is missing |
| Closures.ClosureManager.LoadOpenClosure | pos/manager/closure_manager.py:54-90 | resumes `LatestOpen`, else opens a new closure |
| Closures.ClosureManager.CloseClosure | pos/manager/closure_manager.py:273-361 | nothing without a cashier or closure; otherwise the record is `Closed` and merged into the table, every list and then the country-specific row are stored with the new summaries stamped with the closure id (the summary rows become `StoredRows`), and the next closure is opened under the first id drawn after the summaries' ids; when it cannot be opened the merged table stays |
| Closures.ClosureManager.StoreAllSummaries | pos/manager/closure_manager.py:320-353 | every list in order, then the country-specific row, which is kept; every new summary is stamped with the closure id; the summary rows become `StoredRows`; one id is drawn per summary that had none |
| Closures.ClosureManager.CloseAndStore | pos/manager/closure_manager.py:298-353 | the record is `Closed` and merged into the table, then every summary is stored as `StoreAllSummaries` states |
| Closures.ClosureManager.StoreLists | pos/manager/closure_manager.py:320-338 | the eight lists in their fixed order: each new summary stamped, the summary rows become `PutLists`, one id drawn per summary without one |
| Closures.ClosureManager.StoreKind | pos/manager/closure_manager.py:325-338 | one kind's list stored; only that kind's list is replaced |
| Closures.ClosureManager.StoreSummaries | pos/manager/closure_manager.py:327-338 | one list stored in order: each summary stamped with the closure id, the summary rows become `PutSummaries`, one id drawn per summary without one |
| Closures.ClosureManager.StoreOne | pos/manager/closure_manager.py:328-338 | a summary without an id is tied to the closure, given a fresh id and inserted; one with an id is merged |
| PaymentEvent.CompletionOrder | pos/manager/event/payment.py:443-468 | completion starts with the mark; the receipt number rises only after a saved mark and the copy; the next document is opened last |
| PaymentEvent.ExactPaymentCompletes | pos/manager/event/payment.py:353-358 | paying exactly the total with no change starts completion with the mark, and the receipt number rises exactly when the mark is saved |
| PaymentEvent.PartialPaymentWaits | pos/manager/event/payment.py:353-358 | a payment leaving a hundredth or more completes nothing |
| PaymentEvent.OverpaymentNeedsChange | pos/manager/event/payment.py:359-373 | an overpayment completes exactly when the change is confirmed without a change button and its line is created |
| PaymentEvent.Incremented | pos/manager/event/payment.py:510-533 | the sequences keep their length, ids and names |
| PaymentEvent.SequenceValueAtFirst | pos/manager/event/payment.py:518-526 | raising the first sequence with a name raises what the name reads by the same amount |
| PaymentEvent.SequenceValueElsewhere | pos/manager/event/payment.py:518-526 | changing another sequence leaves what the name reads |
| PaymentEvent.IncrementedRaisesReceipt | pos/manager/event/payment.py:513-530 | the receipt number reads one more exactly when a ReceiptNumber sequence exists, and the same otherwise |
| PaymentEvent.IncrementedKeepsOthers | pos/manager/event/payment.py:513-530 | every other sequence name reads as before |
| PaymentEvent.Checkout.IncrementReceiptNumber | pos/manager/event/payment.py:510-533 | the sequences become `Incremented` of the old ones |
| PaymentEvent.Checkout.FinishCompletion | pos/manager/event/payment.py:446-468 | the state is `CompletedFrom` the document: the open closure becomes `AfterCompletion` and is merged into the closure table when its save succeeds, the permanent tables become `CopiedTablesUpTo` of the document for the rows created (the copy's result is ignored), the receipt number is raised and the next document, present exactly with settings and a store, is empty and takes it; the trace records the steps in order |
| PaymentEvent.Checkout.FeedAndCopy | pos/manager/event/payment.py:446-452 | the open closure becomes `AfterCompletion` and is merged into the closure table when its save succeeds; the permanent tables become `CopiedTablesUpTo` of the document for the rows created |
| PaymentEvent.Checkout.OpenNext | pos/manager/event/payment.py:455-468 | the receipt number is raised, the document dropped, and the next one (present exactly with settings and a store) takes the raised number |
| PaymentEvent.Checkout.ReplaceDocument | pos/manager/event/payment.py:458-468 | the document is dropped and a fresh empty one opened, present exactly with settings and a store |
| PaymentEvent.Checkout.CheckAndCompleteDocument | pos/manager/event/payment.py:427-478 | succeeds exactly when the document is complete and the mark is saved; the trace records the steps in order; the state is `CheckedFrom` the old document: unpaid, it is kept as it was; paid but the mark unsaved, it is kept with the head marked; otherwise the old document holds the marked head and the state is `CompletedFrom` it; no id is drawn on failure |
| PaymentEvent.Checkout.RecordChangeAndComplete | pos/manager/event/payment.py:296-307 | change is recorded exactly when payment exceeds total and the change line is created; the state is then `CheckedFrom` the document with that change line appended and the change total set, and otherwise the document and the tables are kept as they were |
| PaymentEvent.Checkout.ChangePaymentEvent | pos/manager/event/payment.py:270-311 | refused when logged out or without a document, with nothing changed; otherwise succeeds exactly when change is due and its line is created, and the state is then `CheckedFrom` the document with that change line appended and the change total set |
| PaymentEvent.Checkout.ShowChangeInfoAndRecord | pos/manager/event/payment.py:573-634 | only a confirmed message with change due and the line created records the change, and the state is then `CheckedFrom` the document with that line; otherwise the document and the tables are kept |
| PaymentEvent.Checkout.SettlePayment | pos/manager/event/payment.py:353-373 | given the document's head and payments before the payment line was recorded, and that line, the steps run are `SettleSteps` of the paid head (`PaidHead`), and the state is `SettledFrom` them: the completion check without change due; the document kept while a change button waits, the change is not confirmed or its line cannot be created; else the change line added and the completion check on that |
| PaymentEvent.Checkout.ProcessPayment | pos/manager/event/payment.py:313-377 | refused without a document, when the service refuses or when the payment line cannot be created, with the document, the trace and the ids unchanged; otherwise the state is `SettledFrom` the old document and the new payment line: the line appended, the payment total raised by it, and the settlement that follows |
| PaymentEvent.Checkout.TenderEvent | pos/manager/event/payment.py:97-268 | refused when logged out with nothing changed; otherwise, as `ProcessPayment`, it succeeds exactly when the payment step does and its line is created, and the state is then `SettledFrom` the document with that payment line appended and the payment total raised |
| SaleEvent.UpperOfPrefix | pos/manager/event/sale.py:365 | upper-casing commutes with taking a prefix |
| SaleEvent.DepartmentNumber | pos/manager/event/sale.py:364-381 | the department number is int() of what follows ten characters, after an upper-case DEPARTMENT prefix |
| SaleEvent.DepartmentNumberRoundTrip | pos/manager/event/sale.py:364-381 | any casing of DEPARTMENT followed by a number gives back that number |
| SaleEvent.PluCode | pos/manager/event/sale.py:668-679 | the code after three characters of a PLU name, which must not be empty |
| SaleEvent.PluCodeRoundTrip | pos/manager/event/sale.py:668-679 | any casing of PLU followed by a code gives back that code |
| SaleEvent.PricingCurrency | pos/manager/event/sale.py:438-444 | the current currency, else GBP |
| SaleEvent.PricePlaces | pos/manager/event/sale.py:446-470 | the places of the first live cached currency with the sign when set, else 2 |
| SaleEvent.NumpadPrice | pos/manager/event/sale.py:473-474 | the numpad value divided by 10^places |
| SaleEvent.PluQuantity | pos/manager/event/sale.py:738-752 | the number typed when it reads as one and is positive, else 1 |
| SaleEvent.PluQuantityOfCount | pos/manager/event/sale.py:745-748 | typing a positive whole number sells that many |
| SaleEvent.PluQuantityOfNonPositive | pos/manager/event/sale.py:749-750 | typing zero or a negative number sells one |
| SaleEvent.SelectDepartment | pos/manager/event/sale.py:484-517 | 1-99 selects the first live main group with the code, above 99 the first live subgroup, nothing otherwise |
| SaleEvent.DepartmentDecision | pos/manager/event/sale.py:355-543 | the checks of a department sale in the source's order; a sale that goes ahead always had numpad text |
| SaleEvent.DepartmentDecisionSpec | pos/manager/event/sale.py:355-543 | a department sale goes ahead exactly when the name, the numpad, the amount, the department and the maximum price all pass |
| SaleEvent.BlankAmountParsesNot | pos/manager/event/sale.py:404-427 | blank numpad text is never an amount |
| SaleEvent.PluCodeDecisionSpec | pos/manager/event/sale.py:682-700 | a PLU sale goes ahead exactly when a live product has the code, selling the first at its price |
| SaleEvent.PluCodeDecision | pos/manager/event/sale.py:668-703 | a PLU-code sale never carries a barcode |
| SaleEvent.PluBarcodeDecisionSpec | pos/manager/event/sale.py:846-875 | the product of the first live barcode record, at the barcode's price unless zero; refused without such a record or product |
| SaleEvent.PluBarcodeDecision | pos/manager/event/sale.py:830-875 | a barcode sale always carries its barcode |
| SaleEvent.LineNumber | pos/manager/event/sale.py:135-137 | one after all product and department lines when no number is given |
| SaleEvent.LineVat | pos/manager/event/sale.py:141-166 | 0 for a non-positive rate, else the share total·rate/(100+rate), which lies between 0 and a non-negative total |
| SaleEvent.LineForSpec | pos/manager/event/sale.py:140-200 | a PLU sale yields a line exactly when the product is known: quantity × price, the product's rate and the unrounded VAT share |
| SaleEvent.LineForIdIndependent | pos/manager/event/sale.py:140-262 | whether a line is made does not depend on its id |
| SaleEvent.ProductLineMatchesService | pos/manager/event/sale.py:140-182 | the line agrees with `calculate_plu_sale` on total and rate; its VAT is the service's before rounding |
| SaleEvent.DepartmentLineMatchesService | pos/manager/event/sale.py:203-262 | the line agrees with `calculate_department_sale` on total, rate and main group |
| SaleEvent.WithTotalsChangesOnlyTotals | pos/manager/event/sale.py:290-306 | the totals become the sums over the lines and no other head column changes |
| SaleEvent.SaleAddsLine | pos/manager/event/sale.py:290-306 | adding a line adds exactly its total and VAT to the sums |
| SaleEvent.Touched | pos/manager/event/sale.py:78-133 | the head keeps its id; only the customer, sale time, DRAFT status, closure number, currency and order source and channel are stamped |
| SaleEvent.TouchedChangesOnlyStamps | pos/manager/event/sale.py:78-133 | the stamps touch no other column |
| SaleEvent.TouchedIdempotent | pos/manager/event/sale.py:78-133 | a second sale under the same closure and currency stamps nothing new |
| SaleEvent.OpenClosureNumber | pos/manager/event/sale.py:121-125 | the open closure's number when it is set and non-zero |
| SaleEvent.RecordLineEffect | pos/manager/event/sale.py:263-306 | a line is added exactly when the sale yields one; it is appended, the other list kept, and the totals rise by its total and VAT |
| SaleEvent.RecordPluSale | pos/manager/event/sale.py:144-200 | a PLU sale of a known product adds one product line with the given number, quantity, price, their product and the rate |
| SaleEvent.RecordDepartmentSale | pos/manager/event/sale.py:203-262 | a department sale with a main group adds one department line under it |
| SaleEvent.Register.StampHead | pos/manager/event/sale.py:78-133 | the customer is found or created when the head has none, then the `Touched` stamps |
| SaleEvent.Register.AddLine | pos/manager/event/sale.py:263-312 | the line is appended, saved unless the save fails, and the totals recomputed |
| SaleEvent.Register.UpdateDocumentDataForSale | pos/manager/event/sale.py:43-318 | without a document nothing happens; otherwise the head is stamped and the line recorded |
| SaleEvent.Register.AddSaleLine | pos/manager/event/sale.py:135-312 | the line is built under the next id and recorded, or the sale fails with nothing more changed |
| SaleEvent.Register.EnsureDocument | pos/manager/event/sale.py:348-353 | an empty document is opened when there is none |
| SaleEvent.Register.RecordDepartment | pos/manager/event/sale.py:578-588 | with a document, one department line at quantity 1 under the main group |
| SaleEvent.Register.SaleDepartment | pos/manager/event/sale.py:322-603 | logged out, nothing is sold; otherwise a document is opened if needed, and the sale succeeds exactly when the decision passes and the sale list accepts; on success the product lines are kept, and exactly one department line is appended after the earlier ones, under the main group the department (main or subgroup) resolves to, at the price and line number given; none is added when no main group resolves |
| SaleEvent.Register.SellDepartment | pos/manager/event/sale.py:355-603 | with a document open, the sale succeeds exactly when the decision passes and the sale list accepts; then the numpad is cleared, the product lines are kept and exactly one department line is appended under the resolved main group, or none when no main group resolves; otherwise the numpad is untouched |
| SaleEvent.Register.TakeQuantity | pos/manager/event/sale.py:728-756 | the quantity from non-blank numpad text, after which the numpad is cleared |
| SaleEvent.Register.RecordPlu | pos/manager/event/sale.py:773-782 | with a document, one product line for the product, quantity and price |
| SaleEvent.Register.SellPlu | pos/manager/event/sale.py:728-791 | the quantity is the numpad's number or 1 and the numpad is cleared; when the sale list accepts, a line with that quantity, price, product and barcode is appended |
| SaleEvent.Register.SalePluCode | pos/manager/event/sale.py:631-797 | a document is opened when there is none, then the product the code selects is sold; it succeeds exactly when the code selects one and a sale list exists and accepts it; without a sale list the numpad keeps its text |
| SaleEvent.Register.SalePluBarcode | pos/manager/event/sale.py:799-971 | the barcode's product is sold when a sale list exists and accepts it; without a document the sale is reported yet nothing is recorded |
| SaleEvent.Register.SalePluBarcodeOpeningDocument | pos/manager/event/sale.py:652-657 | the barcode sale with a document opened first: an accepted sale is recorded with its barcode |
| SaleEvent.BarcodeSaleAccepted | pos/manager/event/sale.py:846-875 | a PLU button with a live barcode sells that barcode's product |
| SaleEvent.BarcodeSaleNotRecorded | pos/manager/event/sale.py:943-962 | with no document, an accepted barcode sale reports success and no document holds it |
| CurrentStatus.PushedKeepsValid | pos/manager/current_status.py:155-163 | leaving a form keeps the history valid (at most 30 entries, no LOGIN, LOGIN_EXT or NONE) |
| CurrentStatus.PushedTop | pos/manager/current_status.py:155-163 | an ordinary form left becomes the top; the oldest entry goes only when the history is full |
| CurrentStatus.PushedSkipsExcluded | pos/manager/current_status.py:155 | LOGIN, LOGIN_EXT and NONE are never recorded |
| CurrentStatus.Status.constructor | pos/manager/current_status.py:50-84 | logged out on LOGIN, nothing before it, no history |
| CurrentStatus.Status.LoadStartupForm | pos/manager/current_status.py:86-102 | the startup form found becomes the startup and current form id; a failed lookup clears both |
| CurrentStatus.Status.SetCurrentForm | pos/manager/current_status.py:135-174 | the form left is recorded, the new form becomes current with the old one as previous |
| CurrentStatus.Status.SetCurrentFormWithoutHistory | pos/manager/event/general.py:486-497 | the form becomes current, the previous is the old one, the history is untouched |
| CurrentStatus.Status.ClearFormHistory | pos/manager/current_status.py:307-313 | the history becomes empty |
| CurrentStatus.Status.PopFormHistory | pos/manager/current_status.py:315-324 | the most recent entry, removed; none when empty |
| CacheManager.IndexOfId | pos/manager/cache_manager.py:272-275 | the position of the first row with the id, or none |
| CacheManager.DeleteRemovesId | pos/manager/cache_manager.py:262-270 | a soft delete removes exactly the rows with that id |
| CacheManager.UpdateReplacesInPlace | pos/manager/cache_manager.py:272-280 | a known id is replaced in place: same length, same position, nothing else touched |
| CacheManager.UpdateAppendsNew | pos/manager/cache_manager.py:282-283 | a new id is appended at the end |
| CacheManager.LookupAfterUpdate | pos/manager/cache_manager.py:262-283 | after an update a lookup finds the instance; after a delete it finds nothing |
| CacheManager.FindIndex | pos/manager/cache_manager.py:272-275 | the loop returns the first index holding the id |
| CacheManager.LoadAll | pos/manager/cache_manager.py:141-164 | every model listed is cached, a failed one as an empty list, and nothing else changes |
| CacheManager.SettingsAfterLoad | pos/manager/cache_manager.py:152-157 | the first PosSettings row is cached when that model loads with rows |
| CacheManager.PosModelsHoldSettings | pos/manager/cache_manager.py:115-139 | PosSettings is among the models loaded at start-up |
| CacheManager.Cache.PopulatePosData | pos/manager/cache_manager.py:77-166 | every model is loaded in turn, a failed one cached as an empty list |
| CacheManager.Cache.LoadPosModels | pos/manager/cache_manager.py:141-164 | the loop over the models given, with the same per-model fallback |
| CacheManager.Cache.PopulateProductData | pos/manager/cache_manager.py:168-239 | the same per-model fallback for the product caches |
| CacheManager.Cache.UpdatePosDataCache | pos/manager/cache_manager.py:241-289 | nothing for a missing instance or uncached model; else the list is updated, and PosSettings is refreshed after an update |
| CacheManager.Cache.UpdateProductDataCache | pos/manager/cache_manager.py:319-362 | the same rules for the product caches |
| CacheManager.Cache.RefreshPosDataModel | pos/manager/cache_manager.py:291-317 | the model's list is reloaded; a failed load keeps the old list |
| CacheManager.Cache.RefreshProductDataModel | pos/manager/cache_manager.py:364-385 | the same for a product model |
| GeneralEvent.PanelNameToModelClass | pos/manager/event/general.py:701-717 | the class name has no underscore and keeps every other character of the panel name |
| GeneralEvent.FirstMatch | pos/manager/event/general.py:227-236 | the first cached cashier with the lower-cased name and the password, or none |
| GeneralEvent.FirstAdmin | pos/manager/event/general.py:143-147 | the first live cashier named admin, or none |
| GeneralEvent.ComboUserNameOfEntry | pos/manager/event/general.py:174-179 | an entry shown as "username (full name)" logs in as the stripped user name |
| GeneralEvent.LoginDecision | pos/manager/event/general.py:135-240 | admin rights are granted only with the password "admin", and a cashier is logged in only as a live cached cashier whose password was typed |
| GeneralEvent.TextboxLogin | pos/manager/event/general.py:184-240 | typed credentials log in exactly when a live cashier has the lower-cased name and the password (admin/admin aside) |
| GeneralEvent.ComboLogin | pos/manager/event/general.py:172-240 | a selected entry logs in exactly when a live cashier has its user name and the password |
| GeneralEvent.SupervisorNeedsAdminPassword | pos/manager/event/general.py:139-171 | SUPERVISOR is accepted with the password "admin" and nothing else |
| GeneralEvent.EmptyUserNameRejected | pos/manager/event/general.py:180-194 | without a user name nobody logs in |
| GeneralEvent.LogoutTarget | pos/manager/event/general.py:330-380 | LOGIN_EXT for a form needing authorisation, LOGIN for one needing login, else the startup form or LOGIN |
| GeneralEvent.Session.NavigateAfterLogin | pos/manager/event/general.py:254-302 | the history is emptied and the start form set; on SALE an incomplete document is resumed or, failing that, an empty one opened, unless one is already open |
| GeneralEvent.Session.ResumeOrCreateDocument | pos/manager/event/general.py:243-249 | an open document is kept; else the latest incomplete document is loaded; else an empty document is created exactly when there are POS settings and a store |
| GeneralEvent.Session.LoginEvent | pos/manager/event/general.py:62-252 | nothing happens when logged in; a rejected login changes nothing; an accepted one sets the cashier and the flag; a cashier login then resumes or opens a document; it navigates as `NavigateAfterLogin` states |
| GeneralEvent.Session.LogoutEvent | pos/manager/event/general.py:316-383 | logged out, no cashier, no document, the target form; the history holds the form left |
| GeneralEvent.Session.LogoutClearingHistory | pos/manager/event/general.py:352-357 | the logout with the history left empty |
| GeneralEvent.Session.BackEvent | pos/manager/event/general.py:427-484 | logged-out users go through the logout as written, ending on the logout form with the form left in the history; otherwise one entry is popped and, when that form exists, becomes current without being recorded |
| GeneralEvent.LogoutKeepsLeftForm | pos/manager/event/general.py:357-362 | logging out from SALE leaves SALE in the history |
| GeneralEvent.ConvertField | pos/manager/event/general.py:652-667 | blank text gives None; a field is skipped only when its old value is a number (bool included) and int() rejects the text |
| GeneralEvent.ConvertFieldBoolFirst | pos/manager/event/general.py:662-664 | a boolean attribute with non-blank text always gets a boolean |
| GeneralEvent.BoolFieldIgnoresTrue | pos/manager/event/general.py:656-664 | "true" in a boolean field is skipped as written, and sets it with the boolean test first |
| GeneralEvent.BoolFieldSaved | pos/manager/event/general.py:662-672 | with the boolean test first, "true" sets a false boolean attribute and lists it as updated |
| GeneralEvent.BoolFieldSkipped | pos/manager/event/general.py:643-672 | as written, "true" typed for a false boolean attribute leaves the model unchanged and nothing updated |
| GeneralEvent.ApplyValuesFrame | pos/manager/event/general.py:644-672 | only attributes the model has and the panel names are touched |
| GeneralEvent.ApplyValuesRecorded | pos/manager/event/general.py:669-672 | every changed attribute is listed as updated, and every listed one is in the model |
| GeneralEvent.NothingUpdatedNothingChanged | pos/manager/event/general.py:669-681 | with nothing updated the model is unchanged |
| GeneralEvent.SavePanelValues | pos/manager/event/general.py:643-681 | the attributes become `ApplyValues` of the texts, with the conversion as written or with the boolean test first, and the model is saved exactly when something changed |
| ClosureCountry.GetOr | data_layer/model/definition/closure_country_specific.py:192-195 | the field's value, else the default |
| ClosureCountry.SetThenGet | data_layer/model/definition/closure_country_specific.py:192-203 | after a set, the field reads the value set and every other field reads as before |
| ClosureCountry.UpdateOverrides | data_layer/model/definition/closure_country_specific.py:186-190 | the keyword values override and every other key is kept |
| ClosureCountry.Merge | data_layer/model/definition/closure_country_specific.py:333-337 | existing keys win, the template fills the rest |
| ClosureCountry.TurkeyData | data_layer/model/definition/closure_country_specific.py:210-235 | exactly nine keys: five counts as integers and four amounts as floats |
| ClosureCountry.TemplatePath | data_layer/model/definition/closure_country_specific.py:249-279 | the state file when a state code is given and it exists, then the country file, then the default file, else none |
| ClosureCountry.TemplatePathPriority | data_layer/model/definition/closure_country_specific.py:249-279 | a more specific template always wins |
| ClosureCountry.RegionFileIsStateTemplate | data_layer/model/definition/country_region.py:91-101 | the file a region names is the one the lookup tries first for its state |
| ClosureCountry.TemplatePathIgnoresCase | data_layer/model/definition/closure_country_specific.py:249-279 | the case of the country code does not matter |
| ClosureCountry.LoadTemplate | data_layer/model/definition/closure_country_specific.py:282-305 | the template's object, or {} when there is no file or it cannot be read |
| ClosureCountry.LoadTemplateIgnoresCase | data_layer/model/definition/closure_country_specific.py:282-317 | the case of the country code does not change the template loaded |
| ClosureCountry.ClosureCountrySpecific.constructor | data_layer/model/definition/closure_country_specific.py:37-165 | a new row holds no data |
| ClosureCountry.ClosureCountrySpecific.GetCountryData | data_layer/model/definition/closure_country_specific.py:171-178 | {} for empty or invalid JSON, else the stored object |
| ClosureCountry.ClosureCountrySpecific.SetCountryData | data_layer/model/definition/closure_country_specific.py:180-184 | anything but an object is refused with nothing stored |
| ClosureCountry.ClosureCountrySpecific.UpdateCountryData | data_layer/model/definition/closure_country_specific.py:186-190 | the data becomes the old data updated with the keywords |
| ClosureCountry.ClosureCountrySpecific.GetField | data_layer/model/definition/closure_country_specific.py:192-195 | the field stored in the country data, else the default; a row without data always gives the default |
| ClosureCountry.ClosureCountrySpecific.SetField | data_layer/model/definition/closure_country_specific.py:197-203 | the data gains the field with the value |
| ClosureCountry.ClosureCountrySpecific.GetTurkeyData | data_layer/model/definition/closure_country_specific.py:204-208 | {} unless the country is TR |
| ClosureCountry.ClosureCountrySpecific.SetTurkeyData | data_layer/model/definition/closure_country_specific.py:210-235 | the row becomes TR and holds exactly the nine totals |
| ClosureCountry.ClosureCountrySpecific.InitializeFromTemplate | data_layer/model/definition/closure_country_specific.py:319-344 | nothing changes without a non-empty template; otherwise existing keys win over the template's |
| ClosureCountry.CreateForTurkey | data_layer/model/definition/closure_country_specific.py:238-246 | a TR row holding the nine totals |
| ClosureCountry.CreateFromTemplate | data_layer/model/definition/closure_country_specific.py:347-363 | the code is stored upper-cased and the data is the template, if any |
| CountryRegion.TemplateFilename | data_layer/model/definition/country_region.py:91-101 | the file name is lower-case throughout, as long as both codes plus the separator and ".json", and ends in ".json" |
| CountryRegion.TemplateFilenameIgnoresCase | data_layer/model/definition/country_region.py:91-101 | the case of either code makes no difference |
| CrudModel.Without | data_layer/model/crud_model.py:277-281 | the rows without the id: what a hard delete leaves |
| CrudModel.Save | data_layer/model/crud_model.py:56-75 | a record without an id gets a fresh one, then the row is merged; a database error leaves the table |
| CrudModel.SavedIsStored | data_layer/model/crud_model.py:56-75 | a saved record is in the table under its id |
| CrudModel.SaveTwiceKeepsLength | data_layer/model/crud_model.py:56-75 | saving twice stores no second row |
| CrudModel.Create | data_layer/model/crud_model.py:77-96 | like save, but an id already present is a database error leaving the table |
| CrudModel.GetAll | data_layer/model/crud_model.py:111-127 | rows with the flag when the column exists, every row otherwise; nothing on an error |
| CrudModel.GetAllPartitions | data_layer/model/crud_model.py:111-127 | the live and deleted rows split the table |
| CrudModel.FromDict | data_layer/model/crud_model.py:339-347 | "id" is dropped from the caller's dictionary, and the record has no id |
| CrudModel.Delete | data_layer/model/crud_model.py:265-288 | a soft delete marks and merges the record; otherwise the row is removed |
| CrudModel.Skip | data_layer/model/crud_model.py:205-208 | the rows after the offset; a negative offset counts as 0 |
| CrudModel.Limit | data_layer/model/crud_model.py:205-208 | at most n rows from the front, all of them when there are fewer; a negative n sets no limit |
| CrudModel.Paginate | data_layer/model/crud_model.py:187-219 | the rows from (page-1)·per_page, at most per_page of them, the total and the page count; a database error gives the empty page; a page size of 0 raises the division error, which is not caught; a negative size reads every row from page 1 on |
| CrudModel.FloorDiv | data_layer/model/crud_model.py:213 | Python's `//`: the quotient rounded towards minus infinity, for either sign of divisor |
| CrudModel.PagesIsCeiling | data_layer/model/crud_model.py:210-212 | the page count is the total over the page size rounded up: the pages hold every row and the last is not empty |
| CrudModel.PageOffset | data_layer/model/crud_model.py:205-208 | row k lies k % per_page after the offset of page k / per_page + 1 |
| CrudModel.RowOnPage | data_layer/model/crud_model.py:187-219 | row k is on page k / per_page + 1 at position k % per_page, and that page is counted |
| CrudModel.PageCounted | data_layer/model/crud_model.py:210-212 | the page of any row is at most the page count |
| CrudModel.PastLastPageEmpty | data_layer/model/crud_model.py:187-219 | a page past the last is empty |
| DynamicRenderer.ParseColor | user_interface/render/dynamic_renderer.py:72-85 | a falsy column gives the default; "#..", "0x.." and other text read in base 16; an integer is kept; unreadable text gives the default |
| DynamicRenderer.NatToHex | user_interface/render/dynamic_renderer.py:72-85 | the base-16 digits of n, reading back as n |
| DynamicRenderer.ParseColorForms | user_interface/render/dynamic_renderer.py:76-82 | "#d", "0xd" and "d" name the same colour |
| DynamicRenderer.ColorRoundTrip | user_interface/render/dynamic_renderer.py:79-80 | "#" and a colour's hex digits read back as the colour |
| DynamicRenderer.MalformedColorIsDefault | user_interface/render/dynamic_renderer.py:83-85 | text that is not a hex number gives the default |
| DynamicRenderer.OrText | user_interface/render/dynamic_renderer.py:86-97 | Python's `text or default` |
| DynamicRenderer.OrInt | user_interface/render/dynamic_renderer.py:86-97 | Python's `number or default` |
| DynamicRenderer.Settings | user_interface/render/dynamic_renderer.py:61-97 | the defaults without a form; otherwise its columns, each falling back to the default |
| DynamicRenderer.SettingsAlwaysNamed | user_interface/render/dynamic_renderer.py:61-97 | a window always has a name and a non-zero size |
| DynamicRenderer.LoadForm | user_interface/render/dynamic_renderer.py:33-50 | by id when one is given, else the first live form with the name |
| DynamicRenderer.LoadControls | user_interface/render/dynamic_renderer.py:51-58 | the form's live, visible controls, in order |
| DynamicRenderer.NavigateFunction | user_interface/render/dynamic_renderer.py:215-221 | the function of a button that opens the target form |
| DynamicRenderer.ConvertControl | user_interface/render/dynamic_renderer.py:166-247 | the design entry of a control: its common properties and those of its type |
| DynamicRenderer.ComboboxItemsRejoin | user_interface/render/dynamic_renderer.py:222-224 | a combobox's items joined with "," give back its stored list |
| DynamicRenderer.TextboxSettingsLowered | user_interface/render/dynamic_renderer.py:205-210 | a textbox's input type and alignment are lower case |
| DynamicRenderer.FindControlById | user_interface/render/dynamic_renderer.py:249-262 | the first control with the id, or none |
| DynamicRenderer.DesignOmitsBars | user_interface/render/dynamic_renderer.py:137-164 | no entry is a toolbar or status bar, and the list is never longer than the controls |
| DynamicRenderer.ShownWithoutBars | user_interface/render/dynamic_renderer.py:149-158 | with no bars every control is shown |
| DynamicRenderer.DesignWithoutBars | user_interface/render/dynamic_renderer.py:137-164 | with no bars every control is designed, in order |
| DynamicRenderer.FormRenderer.constructor | user_interface/render/dynamic_renderer.py:33-58 | the form by id or name, and its live, visible controls |
| DynamicRenderer.FormRenderer.Design | user_interface/render/dynamic_renderer.py:137-164 | no form gives no designs; otherwise the shown controls converted, in order |
| DynamicRenderer.BackOfSpec | user_interface/render/dynamic_renderer.py:125-132 | a back button exactly when the toolbar has a back child, made from the last such child, with a non-empty caption |
| DynamicRenderer.ToolbarSettings | user_interface/render/dynamic_renderer.py:100-134 | only a form marked `show_in_taskbar` with a toolbar control has toolbar settings |
| DynamicRenderer.FirstById | user_interface/render/dynamic_renderer.py:284-304 | the first form with the smallest id text, as a stable sort by `str(id)` puts first |
| DynamicRenderer.GetStartupForm | user_interface/render/dynamic_renderer.py:284-304 | the live startup form with the smallest id text, else the first live LOGIN form, else none |
| DynamicDialog.Clamp | user_interface/window/dynamic_dialog.py:152-163 | the value clamped into 0..0xFFFFFF |
| DynamicDialog.Channels | user_interface/window/dynamic_dialog.py:152-163 | the three bytes of the colour, each in 0..255 |
| DynamicDialog.PackChannels | user_interface/window/dynamic_dialog.py:152-163 | splitting an in-range colour and packing it gives it back |
| DynamicDialog.ChannelsPack | user_interface/window/dynamic_dialog.py:152-163 | packing three channels and splitting gives them back |
| DynamicDialog.IntToColor | user_interface/window/dynamic_dialog.py:152-163 | what int() makes of the input, clamped and split; none when int() raises |
| DynamicDialog.NavigateTarget | user_interface/window/dynamic_dialog.py:280-287 | the second and third pieces of the function split on ':', when there are at least three |
| DynamicDialog.NavigateRoundTrip | user_interface/window/dynamic_dialog.py:280-287 | the function written for a target decodes back to it when neither piece holds ':' |
| DynamicDialog.NavigationButtonBinds | user_interface/window/dynamic_dialog.py:274-291 | a navigation button binds the navigation whenever a handler exists |
| DynamicDialog.ButtonBinding | user_interface/window/dynamic_dialog.py:271-291 | the click binding for sale and payment events, navigation, close and others |
| DynamicDialog.PanelValuesSpec | user_interface/window/dynamic_dialog.py:185-243 | the keys are the lowered keys of the boxes that have one, each holding the text of the last box under it |
| DynamicDialog.PanelValuesKeys | user_interface/window/dynamic_dialog.py:185-243 | a key is present exactly when some box reports under it |
| DynamicDialog.PanelValuesLast | user_interface/window/dynamic_dialog.py:185-243 | a present key holds the text of the last box under it |
| DynamicDialog.TextboxValuesKeys | user_interface/window/dynamic_dialog.py:172-183 | every box's object name is a key, and no other key appears |
| DynamicDialog.Dialog.CreatePanel | user_interface/window/dynamic_dialog.py:656-684 | a named panel is registered under its name |
| DynamicDialog.Dialog.GetTextboxValues | user_interface/window/dynamic_dialog.py:172-183 | the loop builds the map of every textbox's name to its text |
| DynamicDialog.Dialog.GetPanelTextboxValues | user_interface/window/dynamic_dialog.py:185-243 | nothing for an unknown panel or one without content; otherwise the panel's values |
| PaymentListControl.TotalAppend | user_interface/control/payment_list/payment_list.py:465-486 | adding a record adds its converted amount to the total |
| PaymentListControl.Converted | user_interface/control/payment_list/payment_list.py:398-405 | the amount and rate when both convert, else 0.0 and 1.0 |
| PaymentListControl.Lighten | user_interface/control/payment_list/payment_list.py:164-166 | min(0xFF, channel + 0x40) |
| PaymentListControl.SelectedBackground | user_interface/control/payment_list/payment_list.py:162-167 | each channel lightened by 0x40 and capped at 0xFF |
| PaymentListControl.WhiteStaysWhite | user_interface/control/payment_list/payment_list.py:162-167 | a white background stays white when selected |
| PaymentListControl.PaymentList.constructor | user_interface/control/payment_list/payment_list.py:75-196 | no records and no selection |
| PaymentListControl.PaymentList.AddPayment | user_interface/control/payment_list/payment_list.py:376-439 | one record numbered after the last is appended and selected; the amount times the rate is returned |
| PaymentListControl.PaymentList.ClearPayments | user_interface/control/payment_list/payment_list.py:441-463 | every record is popped and the selection reset |
| PaymentListControl.PaymentList.GetTotalAmount | user_interface/control/payment_list/payment_list.py:465-486 | the loop returns the sum of the records' amounts times rates |
| PaymentListControl.PaymentList.GetPaymentData | user_interface/control/payment_list/payment_list.py:488-504 | the record at the index, or none out of range |
| PaymentListControl.PaymentList.GetPaymentCount | user_interface/control/payment_list/payment_list.py:506-513 | the number of records |
| PaymentListControl.PaymentList.NavigateUp | user_interface/control/payment_list/payment_list.py:349-360 | one row up unless at the top; the selection stays in range |
| PaymentListControl.PaymentList.NavigateDown | user_interface/control/payment_list/payment_list.py:362-374 | one row down unless at the bottom; the selection stays in range |
| PaymentListControl.PaymentList.SetSelectedIndex | user_interface/control/payment_list/payment_list.py:285-290 | a value outside the rows is ignored |
| PaymentListControl.PaymentList.OnItemClicked | user_interface/control/payment_list/payment_list.py:332-347 | with an event function the clicked row becomes the selection |
| NumPadControl.Pressed | user_interface/control/numpad/numpad.py:526-544 | Clear empties the buffer, Backspace drops the last character, Enter keeps it, any other key is appended |
| NumPadControl.TypingAppends | user_interface/control/numpad/numpad.py:541-544 | typing plain keys appends them in order |
| NumPadControl.BackspaceUndoesKey | user_interface/control/numpad/numpad.py:531-533 | Backspace takes back a one-character key |
| NumPadControl.ClearForgets | user_interface/control/numpad/numpad.py:528-530 | Clear forgets everything typed before |
| NumPadControl.Forwarded | user_interface/control/numpad/numpad.py:534-553 | the callback and signal get the buffer for Enter and the key otherwise |
| NumPadControl.KeyToButton | user_interface/control/numpad/numpad.py:285-377 | digit text is typed as itself; Return and Enter press Enter, Backspace and Escape their buttons |
| NumPadControl.DigitKeyTyped | user_interface/control/numpad/numpad.py:285-377 | a digit key always lands in the buffer |
| NumPadControl.NumPad.constructor | user_interface/control/numpad/numpad.py:35-146 | an empty buffer and no callback |
| NumPadControl.NumPad.SetEvent | user_interface/control/numpad/numpad.py:555-563 | the callback is set |
| NumPadControl.NumPad.OnButtonClicked | user_interface/control/numpad/numpad.py:526-553 | the buffer becomes `Pressed` of the old one, and the forwarded values are `Forwarded` |
| NumPadControl.NumPad.GetText | user_interface/control/numpad/numpad.py:565-573 | the buffer |
| NumPadControl.NumPad.SetText | user_interface/control/numpad/numpad.py:575-584 | the buffer becomes the text |
| NumPadControl.SetThenGet | user_interface/control/numpad/numpad.py:565-584 | reading after setting gives back the text |
| KeyboardSettings.FirstLive | user_interface/control/virtual_keyboard/keyboard_settings_loader.py:62-70 | the first active, non-deleted row; none exactly when no row is live |
| KeyboardSettings.Lookup | user_interface/control/virtual_keyboard/keyboard_settings_loader.py:48-81 | the answer is always an active setting |
| KeyboardSettings.Loader.constructor | user_interface/control/virtual_keyboard/keyboard_settings_loader.py:29-34 | no engine and nothing cached |
| KeyboardSettings.Loader.Initialize | user_interface/control/virtual_keyboard/keyboard_settings_loader.py:36-45 | the engine is stored and the cache emptied |
| KeyboardSettings.Loader.GetActiveSettings | user_interface/control/virtual_keyboard/keyboard_settings_loader.py:48-81 | a cached row is returned as is; otherwise the lookup, caching only a live row from the database |
| KeyboardSettings.Loader.ReloadSettings | user_interface/control/virtual_keyboard/keyboard_settings_loader.py:96-99 | the cache is emptied and the lookup repeated |
| KeyboardSettings.Loader.IsKeyboardEnabled | user_interface/control/virtual_keyboard/keyboard_settings_loader.py:84-93 | always enabled |
| KeyboardSettings.StaleUntilReload | user_interface/control/virtual_keyboard/keyboard_settings_loader.py:48-99 | once a row is cached, a change to the table is not seen until a reload |
| DesignInterpreter.KeyOf | user_interface/design_file/interpreter.py:83-122 | the key is the lower-case display-type name, never empty or "default" |
| DesignInterpreter.KeysDistinct | user_interface/design_file/interpreter.py:83-122 | distinct display types have distinct keys |
| DesignInterpreter.TomlFileName | user_interface/design_file/interpreter.py:80-126 | "design_files/" and the file named under the key when present, else the default file |
| DesignInterpreter.LoadDesign | user_interface/design_file/interpreter.py:36-53 | the chosen file when it exists, else the default file, else no data; an undecodable default raises |
| DesignInterpreter.WindowSettings | user_interface/design_file/interpreter.py:56-68 | the file's settings when non-empty, else the built-in SaleFlex 1280×640 ones |
| DesignInterpreter.Interpreter.constructor | user_interface/design_file/interpreter.py:30-34 | a new instance for the display type, with no data |
| DesignInterpreter.Interpreter.Init | user_interface/design_file/interpreter.py:36-53 | succeeds exactly when loading does, leaving the file name and data of that load |
| DesignInterpreter.Interpreter.Settings | user_interface/design_file/interpreter.py:56-68 | the loaded file's settings section when it is truthy; otherwise, and whenever no file was loaded, the built-in window; never falsy |
| DesignInterpreter.Interpreter.Section | user_interface/design_file/interpreter.py:71-78 | the toolbar or design section, none exactly when absent |
| DesignInterpreter.Registry.Construct | user_interface/design_file/interpreter.py:30-53 | the kept instance for the same display type, a new one otherwise; initialised in either case |
| DesignInterpreter.SameThenOther | user_interface/design_file/interpreter.py:30-34 | the same display type twice gives one object; another gives a new one |
| DesignInterpreter.NoFilesBuiltIn | user_interface/design_file/interpreter.py:36-68 | with no files the window gets the built-in settings |
| DesignInterpreter.ListedFileRead | user_interface/design_file/interpreter.py:80-126 | a display type listed in the settings reads its own file |
| AppSettings.PyStr | settings/settings.py:102-131 | Python's str() of a scalar |
| AppSettings.Get | settings/settings.py:111-114 | the `isinstance(..., dict)`-guarded get: a table's entry, or none; a section that is not a table gives none |
| AppSettings.SectionGet | settings/settings.py:48-81 | the unguarded `.get`: a table's entry or none; anything that is not a table raises AttributeError |
| AppSettings.TopGet | settings/settings.py:38-45 | the file's section, or none |
| AppSettings.PathJoin | settings/settings.py:140-150 | an absolute second part replaces the first; otherwise one '/' joins them |
| AppSettings.Settings.constructor | settings/settings.py:38-45 | the sections are those of the file |
| AppSettings.Settings.Init | settings/settings.py:38-45 | the sections are those of the file loaded again |
| AppSettings.Settings.DbEngine | settings/settings.py:48-51 | none without a truthy database section; a table's engine or none; AttributeError on a truthy section that is not a table |
| AppSettings.Settings.DbName | settings/settings.py:54-57 | none without a truthy database section; a table's database name or none; AttributeError on a truthy section that is not a table |
| AppSettings.Settings.DisplaySize | settings/settings.py:60-81 | 1280 wide and 640 high without a truthy section; a table's width or height or none; AttributeError on a truthy section that is not a table |
| AppSettings.ScalarSectionRaises | settings/settings.py:48-81 | a database or display section written as text, a number or an array makes every getter raise |
| AppSettings.Settings.DisplayData | settings/settings.py:84-93 | the design-files entry when truthy, else none; a missing section or key raises |
| AppSettings.Settings.AppVersion | settings/settings.py:102-131 | app.version, then application.version, then the top-level version or app_version, the first truthy as text, else "" |
| AppSettings.Settings.AppIcon | settings/settings.py:134-152 | app.icon joined to the project folder; without one the bundled icon; "" when not text |
| AppSettings.DefaultIcon | settings/settings.py:146-150 | `<project>/design_files/images/saleflex.ico`, with one slash after the folder unless it is empty or already ends in one |
| AppSettings.JoinRelative | settings/settings.py:140-150 | joining a relative name puts one '/' between the parts |
| AppSettings.AbsoluteIconKept | settings/settings.py:140-144 | an absolute icon path is used as is, whatever the project folder |
| AppSettings.AppVersionFirst | settings/settings.py:111-116 | a version under [app] wins over every other place |
| AppSettings.Registry.Construct | settings/settings.py:33-45 | the first construction makes the instance; every one returns it, loaded with the file |
| AppSettings.ConstructTwice | settings/settings.py:33-36 | two constructions give the same object, holding the second file |

## Left out
- `Text`: `strip`, `lower`, `upper` and `isdigit` work on ASCII only. Python's `isdigit` is true of every Unicode decimal digit (`"٣".isdigit()`), which the numpad's digit test relies on. Python strips every Unicode whitespace character (U+00A0 among them) and maps case over all of Unicode (`"ı".upper() == "I"`); the model leaves non-ASCII characters as they are. This touches the login names, the sale and payment button names and the numpad text.

- User interface: Qt drawing, layout, styles, focus handling and timers, message boxes and the sale-list and amount-table widgets. Where an event depends on one (the sale list accepting a line, a confirmed message, a change button on the form, a numpad or window being present), the outcome is a parameter.
- Logging, `print`, and exceptions caught only to be logged are left out. Exceptions that change the result are error results or boolean parameters.
- Persistence: SQLAlchemy sessions, queries and commits. Tables are sequences of records. The `AutoSave` wrappers are modelled as explicit saves. Where a failing write changes the outcome of the payment core, whether it succeeds is a parameter: the payment and change lines' `create()`, the head's and the closure's `save()` on completion, and the number of rows the permanent copy creates before one raises (`PaymentEvent.Writes`), and the sale line's save in the sale events (`saveOk`). Elsewhere every write is taken to succeed; `DocumentManager.Manager.CompleteDocument` is listed below.
- `uuid4()` and `datetime.now()`: ids come from `Documents.UuidSource`, and dates and times are parameters.
- Floating point: `float()` conversions and float arithmetic are exact `real` arithmetic. Rounding is modelled only where the source rounds a `Decimal`.
- TOML and JSON reading, and file existence: these are maps and predicates given as inputs.
- The event dispatch table and the event handlers that only print and return false.
- `_payment_event`, `_payment_detail_event`, `_suspend_payment_event` and `_back_payment_event` only navigate or redraw forms. `_update_payment_ui` and `_clear_sale_screen_controls` only refresh widgets.
- `_has_change_payment_button` searches the form's widgets. Its answer is the parameter `hasChangeButton`.
- `load_pending_documents` and `_update_statusbar` are not part of this model.
- `_navigate_to_form`, the form events of general.py, `_get_model_instance` and `_update_model_cache` are form navigation and cache plumbing. They are not modelled beyond `_panel_name_to_model_class` and the field loop of `_save_changes_event`.
- `NumPad` layout, resizing, painting and focus. `_calculate_dynamic_dimensions` and the button styles are not modelled.
- `SaleEvent.LineVat`: the VAT on a sale line is the exact share price·rate/(100+rate). The source computes it in float and stores it through `Decimal(str(...))`, so its printed rounding is not modelled.
- `SaleEvent.NumpadPrice`: `float(n) / 10**places` is exact division here.
- `PaymentEvent.Checkout.ShowChangeInfoAndRecord`: the message box is a parameter `confirmed`. The missing-window case is folded into "not confirmed".
- `DocumentManager.Manager.CompleteDocument`: every create is taken to succeed. A create that raises, which makes the source return False with the rows before it already written and the document kept, is not modelled.
- `GeneralEvent.Session.LoginEvent`: the combo box and text boxes are read from the form as parameters. The default-admin creation writes through the cache as an appended cashier.
- `GeneralEvent.LogoutTarget`: the startup form's `FormName` (LOGIN when its name matches none) is a parameter `startForm`.
- `CrudModel.Paginate`: the query's filter is applied by the caller. Only the offset, limit and page arithmetic are modelled. SQLite's reading of a negative offset and limit is assumed.
- `DynamicRenderer.ConvertControl`: fonts and sizes are copied as they are. Only the fields listed in the record are modelled.
- `AppSettings`: `image_absolute_folder` and the TOML loading are not modelled. Floats and dates in the file are not represented.
- `AppSettings.PyStr`: a table or an array prints as a fixed placeholder, not as Python's text of the container.
- `PaymentService.SafeDecimal`: `Decimal()` is read on plain decimal notation only. Exponents, "Infinity", "NaN", underscores between digits and non-ASCII digits, which Python accepts, count as unparseable and give 0.
- `SaleEvent.PluQuantity`: `float()` is read on plain decimal notation only. Exponents, "inf", "nan", underscores and non-ASCII digits count as invalid and give quantity 1.
- `GeneralEvent.ConvertField`: `int()` is read on ASCII digits with an optional sign only. Underscores between digits and non-ASCII digits count as rejected, so such a field is skipped.
- `PaymentService.PaymentAmount`: `int()` of the cash button's amount accepts ASCII digits with an optional sign only. Underscores and non-ASCII digits make it an invalid cash button.
- `SaleEvent.DepartmentNumber`: `int()` of the department number accepts ASCII digits with an optional sign only. Underscores and non-ASCII digits make the number invalid.
- `DynamicRenderer.ParseColor`: `int(s, 16)` is read on ASCII hexadecimal digits with optional surrounding ASCII whitespace, sign and 0x prefix only. Text with underscores (`"ff_ff"`, `"0x_ff"`), Unicode whitespace or non-ASCII digits, which Python accepts, gives the default colour here.
- The login guards of `PaymentEvent.Checkout.TenderEvent`, `PaymentEvent.Checkout.ChangePaymentEvent`, `SaleEvent.Register.SaleDepartment`, `SaleEvent.Register.SalePluCode`, `SaleEvent.Register.SalePluBarcode` and `SaleEvent.Register.SalePluBarcodeOpeningDocument` call `self._logout()` before refusing. That method is not defined in any file of this model; only `_logout_event` is, and the event table maps LOGOUT to `self._logout` (pos/manager/event_handler.py:136). So the refusal is modelled as returning false with nothing changed, and the logout it would trigger is not modelled.

## Findings

| source | as written | input that shows it | evidently intended | confidence | as-written member | corrected member |
|---|---|---|---|---|---|---|
| pos/manager/event/sale.py:799-971 | `_sale_plu_barcode` never opens a document, unlike `_sale_plu_code` (sale.py:652-657) and `_sale_department`; `_update_document_data_for_sale` then returns False and its result is ignored, so the event reports success | logged in, no open document, a button "PLU" + a live barcode, a sale list that accepts the product | open an empty document first, as the other sale events do, so the sale is recorded | not executed | SaleEvent.BarcodeSaleNotRecorded | SaleEvent.Register.SalePluBarcodeOpeningDocument |
| pos/manager/event/general.py:656-664 | the integer test `isinstance(old_value, int)` comes before the boolean test, and Python's bool is an int, so a boolean attribute goes through `int()`; "true" or "yes" raises and the field is skipped | a panel textbox holding "true" for an attribute whose value is False | the boolean branch at lines 662-664 applies to boolean attributes | not executed | GeneralEvent.BoolFieldSkipped | GeneralEvent.BoolFieldSaved |
| pos/manager/event/general.py:355-362 | `_logout_event` clears the form history and then sets `current_form_type`, whose setter records the form being left, so the history is not empty after logout | log out while on the SALE form | the history is empty after logout | not executed | GeneralEvent.LogoutKeepsLeftForm | GeneralEvent.Session.LogoutClearingHistory |
