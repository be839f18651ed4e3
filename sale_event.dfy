/**
 * The sale events of the sale screen.  A department button named
 * `DEPARTMENT<n>` sells department n at the price typed on the numpad; a
 * PLU button named `PLU<code>` sells the product with that code, or the
 * product behind that barcode, in the quantity typed on the numpad.  Each
 * accepted sale is recorded in the open document by
 * `_update_document_data_for_sale`, which stamps the head, appends one
 * product or department line and recomputes the head's totals.
 */
module SaleEvent {
  import opened Wrappers
  import Text
  import opened Documents
  import opened Catalog
  import opened Tables
  import Vat
  import SaleService
  import DocumentManager
  import CurrentStatus
  import Closures
  import NumPadControl

  // ------------------------------------------------------------ button names

  const DepartmentPrefix := "DEPARTMENT"
  const PluPrefix := "PLU"

  /** `name.upper().startswith(prefix)` for an upper-case prefix. */
  predicate HasPrefixIgnoringCase(name: string, prefix: string)
  {
    |prefix| <= |name| && Text.Upper(name)[..|prefix|] == prefix
  }

  /** Upper-casing works character by character, so it commutes with a prefix. */
  lemma UpperOfPrefix(a: string, b: string)
    ensures Text.Upper(a + b)[..|a|] == Text.Upper(a)
  {
    assert forall i :: 0 <= i < |a| ==> Text.Upper(a + b)[i] == Text.UpperChar(a[i]) == Text.Upper(a)[i];
  }

  /** The department number of a `DEPARTMENT<n>` button: int() of what
      follows the first ten characters. */
  function DepartmentNumber(name: string): (r: Option<int>)
    ensures r.Some? ==> HasPrefixIgnoringCase(name, DepartmentPrefix) && |name| > |DepartmentPrefix|
  {
    if !HasPrefixIgnoringCase(name, DepartmentPrefix) then None
    else if |name| == |DepartmentPrefix| then None
    else Text.ParseInt(name[|DepartmentPrefix|..])
  }

  /** A department button written with any casing of the prefix gives back
      the number written after it. */
  lemma DepartmentNumberRoundTrip(prefix: string, n: int)
    requires |prefix| == |DepartmentPrefix| && Text.Upper(prefix) == DepartmentPrefix
    ensures DepartmentNumber(prefix + Text.IntToString(n)) == Some(n)
  {
    var s := Text.IntToString(n);
    var name := prefix + s;
    UpperOfPrefix(prefix, s);
    assert name[|DepartmentPrefix|..] == s;
    Text.IntToStringRoundTrip(n);
  }

  /** The code or barcode of a `PLU<code>` button: everything after the
      first three characters, which must not be empty. */
  function PluCode(name: string): (r: Option<string>)
    ensures r.Some? ==> HasPrefixIgnoringCase(name, PluPrefix) && r.value != "" && name == name[..|PluPrefix|] + r.value
    ensures HasPrefixIgnoringCase(name, PluPrefix) && |name| > |PluPrefix| ==> r.Some?
  {
    if !HasPrefixIgnoringCase(name, PluPrefix) || |name| == |PluPrefix| then None
    else Some(name[|PluPrefix|..])
  }

  /** A PLU button written with any casing of the prefix gives back its code. */
  lemma PluCodeRoundTrip(prefix: string, code: string)
    requires |prefix| == |PluPrefix| && Text.Upper(prefix) == PluPrefix && code != ""
    ensures PluCode(prefix + code) == Some(code)
  {
    UpperOfPrefix(prefix, code);
    assert (prefix + code)[|PluPrefix|..] == code;
  }

  // ------------------------------------------------------------ prices and quantities

  /** The currency a department price is typed in: the current one, else GBP. */
  function PricingCurrency(current: Option<string>): (r: string)
    ensures r != ""
    ensures current.Some? && current.value != "" ==> r == current.value
  {
    if current.Some? && current.value != "" then current.value else "GBP"
  }

  /** The decimal places of that currency in the cached currencies: those of
      its first live entry when they are set, else 2.  This is the lookup
      the VAT service makes when the database has nothing more to add. */
  function PricePlaces(current: Option<string>, currencies: seq<Vat.Currency>): (r: int)
    ensures r == Vat.CurrencyDecimalPlaces(Some(PricingCurrency(current)), currencies, [])
  {
    match Vat.PlacesOf(currencies, PricingCurrency(current))
    case None => 2
    case Some(d) => d
  }

  /** `float(n) / 10 ** places`: the numpad holds the price in minor units.
      A negative number of places multiplies instead. */
  function NumpadPrice(n: int, places: int): (r: real)
    ensures places >= 0 ==> r * (Text.Pow10(places) as real) == n as real
    ensures places < 0 ==> r == n as real * (Text.Pow10(-places) as real)
  {
    if places >= 0 then n as real / (Text.Pow10(places) as real)
    else n as real * (Text.Pow10(-places) as real)
  }

  /** The quantity a PLU sale takes from non-blank numpad text: the number
      typed when it reads as one and is positive, else 1. */
  function PluQuantity(text: string): (r: real)
    ensures r > 0.0
    ensures Text.ParseDecimal(text).Some? && Text.ParseDecimal(text).value > 0.0 ==> r == Text.ParseDecimal(text).value
    ensures Text.ParseDecimal(text).None? ==> r == 1.0
  {
    match Text.ParseDecimal(text)
    case Some(q) => if q > 0.0 then q else 1.0
    case None => 1.0
  }

  /** Typing a positive whole number sells that many. */
  lemma PluQuantityOfCount(n: int)
    requires n > 0
    ensures PluQuantity(Text.IntToString(n)) == n as real
  {
    Text.ParseDecimalOfInt(n);
  }

  /** Typing zero or a negative number sells one. */
  lemma PluQuantityOfNonPositive(n: int)
    requires n <= 0
    ensures PluQuantity(Text.IntToString(n)) == 1.0
  {
    Text.ParseDecimalOfInt(n);
  }

  /** A department's maximum price is inclusive. */
  predicate PriceAllowed(price: real, d: Department)
  {
    d.MaxPrice().None? || price <= d.MaxPrice().value
  }

  // ------------------------------------------------------------ lookups

  function LiveMainCoded(code: string): MainGroup -> bool
  {
    (g: MainGroup) => g.code == code && !g.isDeleted
  }

  function LiveSubCoded(code: string): SubGroup -> bool
  {
    (g: SubGroup) => g.code == code && !g.isDeleted
  }

  function LiveProductCoded(code: string): Product -> bool
  {
    (p: Product) => p.code == code && !p.isDeleted
  }

  function LiveBarcode(code: string): ProductBarcode -> bool
  {
    (b: ProductBarcode) => b.barcode == code && !b.isDeleted
  }

  function ProductWithId(id: Id): Product -> bool
  {
    (p: Product) => p.id == id
  }

  /** The department a number selects: the first live main group coded with
      it for 1–99, the first live subgroup coded with it above 99, and
      nothing for 0 or a negative number. */
  function SelectDepartment(n: int, pd: ProductData): (r: Option<Department>)
    ensures n < 1 ==> r.None?
    ensures 1 <= n <= 99 ==>
      (r.Some? ==> r.value.Main? && r.value.main in pd.mainGroups && LiveMainCoded(Text.IntToString(n))(r.value.main)) &&
      (r.None? <==> forall k :: 0 <= k < |pd.mainGroups| ==> !LiveMainCoded(Text.IntToString(n))(pd.mainGroups[k]))
    ensures n > 99 ==>
      (r.Some? ==> r.value.Sub? && r.value.sub in pd.subGroups && LiveSubCoded(Text.IntToString(n))(r.value.sub)) &&
      (r.None? <==> forall k :: 0 <= k < |pd.subGroups| ==> !LiveSubCoded(Text.IntToString(n))(pd.subGroups[k]))
  {
    if 1 <= n <= 99 then
      match FindFirst(pd.mainGroups, LiveMainCoded(Text.IntToString(n)))
      case None => None
      case Some(k) => Some(Main(pd.mainGroups[k]))
    else if n > 99 then
      match FindFirst(pd.subGroups, LiveSubCoded(Text.IntToString(n)))
      case None => None
      case Some(k) => Some(Sub(pd.subGroups[k]))
    else None
  }

  // ------------------------------------------------------------ decisions

  /** Why a sale button press sells nothing. */
  datatype Rejection =
    | NotADepartmentButton | NoNumpad | NoAmount | BadAmount | UnknownDepartment | OverMaxPrice
    | NotAPluButton | UnknownProduct | UnknownBarcode

  datatype DepartmentChoice = DepartmentChoice(department: Department, number: int, price: real)

  /** The checks `_sale_department` makes before it touches the sale list,
      in its order: the button name, the numpad, the amount typed, the
      department the number selects and its maximum price. */
  function DepartmentDecision(name: Option<string>, numpadText: Option<string>, current: Option<string>,
                              currencies: seq<Vat.Currency>, pd: ProductData): (r: Result<DepartmentChoice, Rejection>)
    ensures r.Success? ==> numpadText.Some?
  {
    if name.None? || DepartmentNumber(name.value).None? then Failure(NotADepartmentButton)
    else if numpadText.None? then Failure(NoNumpad)
    else if Text.Strip(numpadText.value) == "" then Failure(NoAmount)
    else if Text.ParseInt(numpadText.value).None? then Failure(BadAmount)
    else
      var no := DepartmentNumber(name.value).value;
      var price := NumpadPrice(Text.ParseInt(numpadText.value).value, PricePlaces(current, currencies));
      match SelectDepartment(no, pd)
      case None => Failure(UnknownDepartment)
      case Some(d) =>
        if PriceAllowed(price, d) then Success(DepartmentChoice(d, no, price)) else Failure(OverMaxPrice)
  }

  /** A department sale goes ahead exactly when the button names a
      department number, the numpad holds a whole number, the number selects
      a department and the price in minor units is within its maximum. */
  lemma DepartmentDecisionSpec(name: Option<string>, numpadText: Option<string>, current: Option<string>,
                                currencies: seq<Vat.Currency>, pd: ProductData)
    ensures var r := DepartmentDecision(name, numpadText, current, currencies, pd);
      r.Success? ==>
      && name.Some? && DepartmentNumber(name.value) == Some(r.value.number)
      && numpadText.Some? && Text.ParseInt(numpadText.value).Some?
      && r.value.price == NumpadPrice(Text.ParseInt(numpadText.value).value, PricePlaces(current, currencies))
      && SelectDepartment(r.value.number, pd) == Some(r.value.department)
      && PriceAllowed(r.value.price, r.value.department)
    ensures var r := DepartmentDecision(name, numpadText, current, currencies, pd);
      name.Some? && DepartmentNumber(name.value).Some? && numpadText.Some? && Text.ParseInt(numpadText.value).Some? ==>
      var price := NumpadPrice(Text.ParseInt(numpadText.value).value, PricePlaces(current, currencies));
      var d := SelectDepartment(DepartmentNumber(name.value).value, pd);
      (r.Success? <==> d.Some? && PriceAllowed(price, d.value))
  {
  }

  /** Blank numpad text is never an amount. */
  lemma BlankAmountParsesNot(t: string)
    requires Text.Strip(t) == ""
    ensures Text.ParseInt(t).None?
  {
  }

  datatype PluChoice = PluChoice(product: Product, barcode: Option<ProductBarcode>, price: real)

  /** `_sale_plu_code`: the first live product with the button's code, at
      its sale price. */
  function PluCodeDecision(name: Option<string>, pd: ProductData): (r: Result<PluChoice, Rejection>)
    ensures r.Success? ==> r.value.barcode.None?
  {
    if name.None? || PluCode(name.value).None? then Failure(NotAPluButton)
    else
      match FindFirst(pd.products, LiveProductCoded(PluCode(name.value).value))
      case None => Failure(UnknownProduct)
      case Some(k) => Success(PluChoice(pd.products[k], None, pd.products[k].salePrice))
  }

  /** A PLU code sale goes ahead exactly when a live product has the code;
      it sells the first such product at its own price. */
  lemma PluCodeDecisionSpec(name: Option<string>, pd: ProductData)
    ensures var r := PluCodeDecision(name, pd);
      r.Success? ==>
      && name.Some? && PluCode(name.value).Some?
      && r.value.product in pd.products && LiveProductCoded(PluCode(name.value).value)(r.value.product)
      && r.value.barcode.None? && r.value.price == r.value.product.salePrice
    ensures var r := PluCodeDecision(name, pd);
      name.Some? && PluCode(name.value).Some? ==>
      (r.Failure? <==> forall k :: 0 <= k < |pd.products| ==> !LiveProductCoded(PluCode(name.value).value)(pd.products[k]))
  {
  }

  /** `_sale_plu_barcode`: the first live barcode record with the button's
      code, and the product it points at (deleted or not); the barcode's own
      price when it has one, else the product's. */
  function PluBarcodeDecision(name: Option<string>, pd: ProductData): (r: Result<PluChoice, Rejection>)
    ensures r.Success? ==> r.value.barcode.Some?
  {
    if name.None? || PluCode(name.value).None? then Failure(NotAPluButton)
    else
      match FindFirst(pd.barcodes, LiveBarcode(PluCode(name.value).value))
      case None => Failure(UnknownBarcode)
      case Some(j) =>
        var b := pd.barcodes[j];
        match FindFirst(pd.products, ProductWithId(b.productId))
        case None => Failure(UnknownProduct)
        case Some(k) =>
          var p := pd.products[k];
          Success(PluChoice(p, Some(b), if b.salePrice != 0.0 then b.salePrice else p.salePrice))
  }

  /** A barcode sale sells the product a live barcode record points at,
      at the barcode's price unless that is zero; without a live record
      for the barcode it is refused. */
  lemma PluBarcodeDecisionSpec(name: Option<string>, pd: ProductData)
    ensures var r := PluBarcodeDecision(name, pd);
      r.Success? ==>
      && name.Some? && PluCode(name.value).Some?
      && r.value.barcode.Some? && r.value.barcode.value in pd.barcodes
      && LiveBarcode(PluCode(name.value).value)(r.value.barcode.value)
      && r.value.product in pd.products && r.value.product.id == r.value.barcode.value.productId
      && r.value.price == (if r.value.barcode.value.salePrice != 0.0 then r.value.barcode.value.salePrice
                           else r.value.product.salePrice)
    ensures var r := PluBarcodeDecision(name, pd);
      name.Some? && PluCode(name.value).Some? &&
            (forall k :: 0 <= k < |pd.barcodes| ==> !LiveBarcode(PluCode(name.value).value)(pd.barcodes[k])) ==>
      r == Failure(UnknownBarcode)
  {
  }

  // ------------------------------------------------------------ the document update

  /** What is being sold: a product found by code or by barcode, or a
      department (with the number on its button). */
  datatype Sale =
    | PluCodeSale(product: Option<Product>)
    | PluBarcodeSale(product: Option<Product>, barcode: Option<ProductBarcode>)
    | DepartmentSale(department: Option<Department>, departmentNo: Option<int>)

  datatype SaleLine = ProductSaleLine(p: ProductLine) | DepartmentSaleLine(d: DepartmentLine)

  /** The VAT a sale line carries: the VAT share of its VAT-inclusive total,
      unrounded, and nothing unless the rate is positive. */
  function LineVat(total: real, rate: real): (r: real)
    ensures rate <= 0.0 ==> r == 0.0
    ensures rate > 0.0 ==> r == Vat.VatShare(total, rate)
    ensures rate > 0.0 && total >= 0.0 ==> 0.0 <= r <= total
  {
    if rate > 0.0 && total >= 0.0 then
      Vat.VatShareBounds(total, rate);
      Vat.VatShare(total, rate)
    else if rate > 0.0 then Vat.VatShare(total, rate)
    else 0.0
  }

  /** The line number used when the caller gives none: one after all the
      product and department lines. */
  function LineNumber(lineNo: Option<int>, products: nat, departments: nat): (r: int)
    ensures lineNo.Some? ==> r == lineNo.value
    ensures lineNo.None? ==> r == products + departments + 1
  {
    lineNo.GetOr(products + departments + 1)
  }

  /** The line a sale adds, or none when the product is missing, the
      department is missing or no main group can be found for it. */
  function LineFor(sale: Sale, id: Id, headId: Id, lineNo: int, quantity: real, unitPrice: real,
                   pd: ProductData): Option<SaleLine>
  {
    var total := quantity * unitPrice;
    match sale
    case PluCodeSale(product) =>
      if product.None? then None
      else
        var rate := SaleService.VatRateForProduct(product, pd);
        Some(ProductSaleLine(SaleService.CreateProductLine(id, headId, lineNo, product.value, quantity, unitPrice,
                                                           total, rate, LineVat(total, rate), None)))
    case PluBarcodeSale(product, barcode) =>
      if product.None? then None
      else
        var rate := SaleService.VatRateForProduct(product, pd);
        Some(ProductSaleLine(SaleService.CreateProductLine(id, headId, lineNo, product.value, quantity, unitPrice,
                                                           total, rate, LineVat(total, rate), barcode)))
    case DepartmentSale(department, departmentNo) =>
      if department.None? then None
      else
        match SaleService.ResolveMainGroup(department.value, departmentNo, pd.mainGroups)
        case None => None
        case Some(main) =>
          var rate := SaleService.GroupVatRate(main, pd.vats);
          Some(DepartmentSaleLine(SaleService.CreateDepartmentLine(id, headId, lineNo, main,
            if department.value.Sub? then Some(department.value.sub) else None,
            total, rate, LineVat(total, rate), departmentNo, pd.subGroups)))
  }
  /** A PLU sale yields a line exactly when its product is known: a
      product line for that product, total quantity × unit price, the
      product's VAT rate and the unrounded VAT share, with the barcode only
      for a barcode sale.  A department sale yields a line exactly when a
      main group can be found for the department: a department line under
      that group with the group's VAT rate. */
  lemma LineForSpec(sale: Sale, id: Id, headId: Id, lineNo: int, quantity: real, unitPrice: real, pd: ProductData)
    ensures var r := LineFor(sale, id, headId, lineNo, quantity, unitPrice, pd);
      (sale.PluCodeSale? || sale.PluBarcodeSale?) ==>
      (r.Some? <==> sale.product.Some?) &&
      (r.Some? ==>
        var rate := SaleService.VatRateForProduct(sale.product, pd);
        var total := quantity * unitPrice;
        r.value == ProductSaleLine(SaleService.CreateProductLine(id, headId, lineNo, sale.product.value, quantity, unitPrice,
          total, rate, LineVat(total, rate), if sale.PluBarcodeSale? then sale.barcode else None)))
    ensures var r := LineFor(sale, id, headId, lineNo, quantity, unitPrice, pd);
      sale.DepartmentSale? ==>
      var main := if sale.department.None? then None
                  else SaleService.ResolveMainGroup(sale.department.value, sale.departmentNo, pd.mainGroups);
      (r.Some? <==> main.Some?) &&
      (r.Some? ==>
        var rate := SaleService.GroupVatRate(main.value, pd.vats);
        var total := quantity * unitPrice;
        r.value == DepartmentSaleLine(SaleService.CreateDepartmentLine(id, headId, lineNo, main.value,
          if sale.department.value.Sub? then Some(sale.department.value.sub) else None,
          total, rate, LineVat(total, rate), sale.departmentNo, pd.subGroups)))
  {
  }


  /** Whether a sale adds a line does not depend on the id the line gets. */
  lemma LineForIdIndependent(sale: Sale, id1: Id, id2: Id, headId: Id, lineNo: int, quantity: real, unitPrice: real,
                             pd: ProductData)
    ensures LineFor(sale, id1, headId, lineNo, quantity, unitPrice, pd).Some? ==
            LineFor(sale, id2, headId, lineNo, quantity, unitPrice, pd).Some?
  {
  }

  /** A PLU line agrees with `calculate_plu_sale` on the total and the rate;
      its VAT is the service's VAT before rounding to the currency. */
  lemma ProductLineMatchesService(p: Product, id: Id, headId: Id, lineNo: int, quantity: real, unitPrice: real,
                                  pd: ProductData, sign: Option<string>, cached: seq<Vat.Currency>, db: seq<Vat.Currency>)
    ensures var line := LineFor(PluCodeSale(Some(p)), id, headId, lineNo, quantity, unitPrice, pd).value.p;
      var s := SaleService.CalculatePluSale(quantity, unitPrice, Some(p), pd, sign, cached, db);
      && line.totalPrice == s.totalPrice && line.vatRate == s.vatRate
      && s.totalVat == (if s.vatRate > 0.0 then Vat.RoundByCurrency(line.totalVat, Vat.CurrencyDecimalPlaces(sign, cached, db))
                        else line.totalVat)
  {
    LineForSpec(PluCodeSale(Some(p)), id, headId, lineNo, quantity, unitPrice, pd);
  }

  /** A department line agrees with `calculate_department_sale` on the
      total, the rate and the main group; its VAT is the service's VAT
      before rounding. */
  lemma DepartmentLineMatchesService(d: Department, no: Option<int>, id: Id, headId: Id, lineNo: int, quantity: real,
                                     unitPrice: real, pd: ProductData, sign: Option<string>,
                                     cached: seq<Vat.Currency>, db: seq<Vat.Currency>)
    requires SaleService.ResolveMainGroup(d, no, pd.mainGroups).Some?
    ensures var line := LineFor(DepartmentSale(Some(d), no), id, headId, lineNo, quantity, unitPrice, pd).value.d;
      var s := SaleService.CalculateDepartmentSale(quantity, unitPrice, d, no, pd, sign, cached, db);
      && line.totalDepartment == s.totalDepartment && line.vatRate == s.vatRate
      && Some(line.mainGroupId) == (if s.mainGroup.Some? then Some(s.mainGroup.value.id) else None)
      && s.totalDepartmentVat == (if s.vatRate > 0.0
                                  then Vat.RoundByCurrency(line.totalDepartmentVat, Vat.CurrencyDecimalPlaces(sign, cached, db))
                                  else line.totalDepartmentVat)
  {
    LineForSpec(DepartmentSale(Some(d), no), id, headId, lineNo, quantity, unitPrice, pd);
  }

  function ProductsOf(line: SaleLine): seq<ProductLine>
  {
    if line.ProductSaleLine? then [line.p] else []
  }

  function DepartmentsOf(line: SaleLine): seq<DepartmentLine>
  {
    if line.DepartmentSaleLine? then [line.d] else []
  }

  function LineTotal(line: SaleLine): real
  {
    match line
    case ProductSaleLine(p) => p.totalPrice
    case DepartmentSaleLine(d) => d.totalDepartment
  }

  function LineTax(line: SaleLine): real
  {
    match line
    case ProductSaleLine(p) => p.totalVat
    case DepartmentSaleLine(d) => d.totalDepartmentVat
  }

  /** The gross and VAT totals of the document's lines. */
  function Gross(ps: seq<ProductLine>, ds: seq<DepartmentLine>): real
  {
    SaleService.ProductTotal(ps) + SaleService.DepartmentTotal(ds)
  }

  function Tax(ps: seq<ProductLine>, ds: seq<DepartmentLine>): real
  {
    SaleService.ProductVat(ps) + SaleService.DepartmentVat(ds)
  }

  /** The head with its totals recomputed from the lines. */
  function WithTotals(h: Head, ps: seq<ProductLine>, ds: seq<DepartmentLine>): Head
  {
    h.(totalAmount := Gross(ps, ds), totalVatAmount := Tax(ps, ds))
  }

  /** Recomputing the totals sets the gross and VAT totals to the sums over
      the lines and leaves every other column of the head alone. */
  lemma WithTotalsChangesOnlyTotals(h: Head, ps: seq<ProductLine>, ds: seq<DepartmentLine>)
    ensures var r := WithTotals(h, ps, ds);
      && r.totalAmount == SaleService.ProductTotal(ps) + SaleService.DepartmentTotal(ds)
      && r.totalVatAmount == SaleService.ProductVat(ps) + SaleService.DepartmentVat(ds)
      && r.(totalAmount := h.totalAmount, totalVatAmount := h.totalVatAmount) == h
  {
  }

  /** Adding a line adds exactly its total and its VAT to the document's sums. */
  lemma SaleAddsLine(ps: seq<ProductLine>, ds: seq<DepartmentLine>, line: SaleLine)
    ensures Gross(ps + ProductsOf(line), ds + DepartmentsOf(line)) == Gross(ps, ds) + LineTotal(line)
    ensures Tax(ps + ProductsOf(line), ds + DepartmentsOf(line)) == Tax(ps, ds) + LineTax(line)
  {
    SaleService.ProductTotalsSplit(ps, ProductsOf(line));
    SaleService.DepartmentTotalsSplit(ds, DepartmentsOf(line));
    assert ps + [] == ps;
    assert ds + [] == ds;
  }

  /** The head stamps made on every sale: the customer when there is none,
      the sale time when there is none, DRAFT becomes ACTIVE, the open
      closure's number when it is non-zero, the current currency when there
      is one, and the in-store cashier channel. */
  function Touched(h: Head, customerId: Id, now: int, closureNumber: Option<int>, currency: Option<string>): (r: Head)
    ensures r.status != Draft && (h.status != Draft ==> r.status == h.status)
    ensures r.customerId.Some? && (h.customerId.Some? ==> r.customerId == h.customerId)
    ensures r.dateTime.Some? && (h.dateTime.Some? ==> r.dateTime == h.dateTime)
    ensures r.orderSource == Some("in_store") && r.orderChannel == Some("cashier")
    ensures r.id == h.id
  {
    var customer := if h.customerId.Some? then h.customerId else Some(customerId);
    var stamp := if h.dateTime.Some? then h.dateTime else Some(now);
    var status := if h.status == Draft then Active else h.status;
    var closure := if closureNumber.Some? && closureNumber.value != 0 then closureNumber.value else h.closureNumber;
    var base := if currency.Some? && currency.value != "" then currency.value else h.baseCurrency;
    h.(customerId := customer, dateTime := stamp, status := status, closureNumber := closure, baseCurrency := base,
       orderSource := Some("in_store"), orderChannel := Some("cashier"))
  }

  /** The stamps touch only the customer, the sale time, the status, the
      closure number, the currency and the order source and channel. */
  lemma TouchedChangesOnlyStamps(h: Head, customerId: Id, now: int, closureNumber: Option<int>, currency: Option<string>)
    ensures var r := Touched(h, customerId, now, closureNumber, currency);
      r.(status := h.status, customerId := h.customerId, dateTime := h.dateTime, closureNumber := h.closureNumber,
         baseCurrency := h.baseCurrency, orderSource := h.orderSource, orderChannel := h.orderChannel) == h
  {
  }

  /** A second sale under the same closure and currency stamps nothing new:
      only the totals move after the first sale. */
  lemma TouchedIdempotent(h: Head, c1: Id, c2: Id, now1: int, now2: int, closureNumber: Option<int>,
                          currency: Option<string>)
    ensures var once := Touched(h, c1, now1, closureNumber, currency);
      Touched(once, c2, now2, closureNumber, currency) == once
  {
  }

  /** The number of the open closure, when there is one and it is non-zero. */
  function OpenClosureNumber(m: Closures.ClosureManager): (r: Option<int>)
    reads m, m.closure
    ensures r.Some? ==> r.value != 0 && m.closure != null && r.value == m.closure.closure.number
    ensures r.None? ==> m.closure == null || m.closure.closure.number == 0
  {
    if m.closure != null && m.closure.closure.number != 0 then Some(m.closure.closure.number) else None
  }

  /** The temporary tables after a line is saved. */
  function Stored(t: DocumentManager.TempTables, line: SaleLine): (r: DocumentManager.TempTables)
  {
    match line
    case ProductSaleLine(p) => t.(products := Upsert(t.products, p, DocumentManager.ProductId))
    case DepartmentSaleLine(d) => t.(departments := Upsert(t.departments, d, DocumentManager.DepartmentId))
  }

  /** How many ids the customer lookup draws for a head: one when the head
      has no customer and no live customer exists to default to. */
  function CustomerDraws(h: Head, cs: seq<Customer>): nat
  {
    if h.customerId.None? && DocumentManager.DefaultCustomer(cs).None? then 1 else 0
  }

  /** The customer a sale charges: the head's own, else the default one,
      else the one created with the next id. */
  function SaleCustomer(h: Head, cs: seq<Customer>, newId: Id): Id
  {
    if h.customerId.Some? then h.customerId.value
    else if DocumentManager.DefaultCustomer(cs).Some? then DocumentManager.DefaultCustomer(cs).value
    else newId
  }

  /** What adding a sale's line leaves behind: whether a line was added,
      the head, the lines and the temporary tables. */
  datatype Recorded = Recorded(ok: bool, head: Head, products: seq<ProductLine>, departments: seq<DepartmentLine>,
                               temp: DocumentManager.TempTables)

  /** The second half of `_update_document_data_for_sale`, on a head
      already stamped: nothing when the sale yields no line; otherwise the
      line is appended to its list, saved unless the save fails, and the
      totals are recomputed over all lines. */
  function RecordLine(line: Option<SaleLine>, saveOk: bool, stamped: Head, ps: seq<ProductLine>,
                      ds: seq<DepartmentLine>, temp: DocumentManager.TempTables): Recorded
  {
    match line
    case None => Recorded(false, stamped, ps, ds, temp)
    case Some(l) =>
      var ps' := ps + ProductsOf(l);
      var ds' := ds + DepartmentsOf(l);
      Recorded(true, WithTotals(stamped, ps', ds'), ps', ds', if saveOk then Stored(temp, l) else temp)
  }

  /** A line is added exactly when the sale yields one; it is appended and
      the other list is kept, and the head's totals rise by exactly the
      line's total and VAT while its other columns stay as stamped.
      Without a line nothing but the stamps changes. */
  lemma RecordLineEffect(line: Option<SaleLine>, saveOk: bool, stamped: Head, ps: seq<ProductLine>,
                         ds: seq<DepartmentLine>, temp: DocumentManager.TempTables)
    ensures var r := RecordLine(line, saveOk, stamped, ps, ds, temp);
      && (r.ok <==> line.Some?)
      && |r.products| + |r.departments| == |ps| + |ds| + (if r.ok then 1 else 0)
      && r.head.(totalAmount := stamped.totalAmount, totalVatAmount := stamped.totalVatAmount) == stamped
      && (!r.ok ==> r.head == stamped && r.products == ps && r.departments == ds && r.temp == temp)
      && (r.ok ==>
            && r.products == ps + ProductsOf(line.value) && r.departments == ds + DepartmentsOf(line.value)
            && r.temp == (if saveOk then Stored(temp, line.value) else temp)
            && r.head.totalAmount == Gross(ps, ds) + LineTotal(line.value)
            && r.head.totalVatAmount == Tax(ps, ds) + LineTax(line.value))
  {
    if line.Some? {
      SaleAddsLine(ps, ds, line.value);
    }
  }

  /** A PLU sale of a known product always adds one product line, at the
      line number given, with the quantity, the unit price, their product,
      the product's VAT rate and the barcode it was sold by. */
  lemma RecordPluSale(sale: Sale, id: Id, headId: Id, lineNo: int, quantity: real, unitPrice: real, pd: ProductData,
                      saveOk: bool, stamped: Head, ps: seq<ProductLine>, ds: seq<DepartmentLine>,
                      temp: DocumentManager.TempTables)
    requires sale.PluCodeSale? || sale.PluBarcodeSale?
    requires sale.product.Some?
    ensures var r := RecordLine(LineFor(sale, id, headId, lineNo, quantity, unitPrice, pd), saveOk, stamped, ps, ds, temp);
      && r.ok && |r.products| == |ps| + 1 && r.products[..|ps|] == ps && r.departments == ds
      && r.head.status == stamped.status
      && var last := r.products[|ps|];
      && last.productId == sale.product.value.id && last.quantity == quantity && last.unitPrice == unitPrice
      && last.totalPrice == quantity * unitPrice && last.lineNo == lineNo
      && last.vatRate == SaleService.VatRateForProduct(sale.product, pd)
      && last.barcodeId == (if sale.PluBarcodeSale? && sale.barcode.Some? then Some(sale.barcode.value.id) else None)
  {
    var line := LineFor(sale, id, headId, lineNo, quantity, unitPrice, pd);
    LineForSpec(sale, id, headId, lineNo, quantity, unitPrice, pd);
    RecordLineEffect(line, saveOk, stamped, ps, ds, temp);
    var r := RecordLine(line, saveOk, stamped, ps, ds, temp);
    assert r.products[..|ps|] == ps;
    assert ds + [] == ds;
  }

  /** A department sale whose main group can be found always adds one
      department line, at the line number given, under that main group
      with the quantity times the price as its total; one whose main group
      cannot be found adds nothing. */
  lemma RecordDepartmentSale(sale: Sale, id: Id, headId: Id, lineNo: int, quantity: real, unitPrice: real,
                             pd: ProductData, saveOk: bool, stamped: Head, ps: seq<ProductLine>, ds: seq<DepartmentLine>,
                             temp: DocumentManager.TempTables)
    requires sale.DepartmentSale? && sale.department.Some?
    ensures var r := RecordLine(LineFor(sale, id, headId, lineNo, quantity, unitPrice, pd), saveOk, stamped, ps, ds, temp);
      var main := SaleService.ResolveMainGroup(sale.department.value, sale.departmentNo, pd.mainGroups);
      && r.products == ps && r.head.status == stamped.status
      && (r.ok <==> main.Some?)
      && (main.None? ==> r.departments == ds)
      && (main.Some? ==>
            && |r.departments| == |ds| + 1 && r.departments[..|ds|] == ds
            && var last := r.departments[|ds|];
            && last.mainGroupId == main.value.id && last.totalDepartment == quantity * unitPrice && last.lineNo == lineNo)
  {
    var line := LineFor(sale, id, headId, lineNo, quantity, unitPrice, pd);
    LineForSpec(sale, id, headId, lineNo, quantity, unitPrice, pd);
    RecordLineEffect(line, saveOk, stamped, ps, ds, temp);
    var r := RecordLine(line, saveOk, stamped, ps, ds, temp);
    if line.Some? {
      assert r.departments[..|ds|] == ds;
      assert ps + [] == ps;
    }
  }

  /** The state of the sale screen's event handler that the sale events use. */
  /** A numpad that may be missing, as a set for framing. */
  function Pad(pad: NumPadControl.NumPad?): set<NumPadControl.NumPad>
  {
    if pad == null then {} else {pad}
  }

  class Register {
    const status: CurrentStatus.Status
    const docs: DocumentManager.Manager
    const closures: Closures.ClosureManager
    const productData: ProductData
    const currencies: seq<Vat.Currency>

    constructor (s: CurrentStatus.Status, m: DocumentManager.Manager, c: Closures.ClosureManager,
                 pd: ProductData, cs: seq<Vat.Currency>)
      ensures status == s && docs == m && closures == c && productData == pd && currencies == cs
    {
      status, docs, closures, productData, currencies := s, m, c, pd, cs;
    }

    /** The open document, as a set for framing. */
    function Open(): set<DocumentData>
      reads docs
    {
      if docs.document == null then {} else {docs.document}
    }

    /** The stamping at the start of `_update_document_data_for_sale`: the
        customer (found or created when the head has none), then the
        stamps of `Touched`. */
    method StampHead(now: int, uuid: UuidSource) returns (h: Head)
      requires docs.document != null
      modifies docs`customers, uuid, Open()`head
      ensures var h0 := old(docs.document.head);
        && h == Touched(h0, SaleCustomer(h0, old(docs.customers), uuid.values(old(uuid.count))), now,
                        old(OpenClosureNumber(closures)), old(status.currentCurrency))
        && docs.document.head == h
        && uuid.count == old(uuid.count) + CustomerDraws(h0, old(docs.customers))
        && docs.customers == old(docs.customers) +
             (if CustomerDraws(h0, old(docs.customers)) == 1
              then [DocumentManager.DefaultCustomerRow(uuid.values(old(uuid.count)))] else [])
    {
      var d := docs.document;
      var customer: Id;
      if d.head.customerId.Some? {
        customer := d.head.customerId.value;
      } else {
        customer := docs.FindOrCreateCustomer(uuid);
      }
      h := Touched(d.head, customer, now, OpenClosureNumber(closures), status.currentCurrency);
      d.head := h;
    }

    /** The end of `_update_document_data_for_sale` once the line exists:
        it is appended to its list, saved to the temporary tier unless the
        save fails, and the head's totals are recomputed from all lines. */
    method AddLine(line: SaleLine, saveOk: bool)
      requires docs.document != null
      modifies docs`temp, Open()`head, Open()`products, Open()`departments
      ensures docs.document.products == old(docs.document.products) + ProductsOf(line)
      ensures docs.document.departments == old(docs.document.departments) + DepartmentsOf(line)
      ensures docs.document.head == WithTotals(old(docs.document.head), docs.document.products, docs.document.departments)
      ensures docs.temp == if saveOk then Stored(old(docs.temp), line) else old(docs.temp)
    {
      var d := docs.document;
      match line {
        case ProductSaleLine(p) =>
          assert d.departments + DepartmentsOf(line) == d.departments;
          d.products := d.products + [p];
        case DepartmentSaleLine(dl) =>
          assert d.products + ProductsOf(line) == d.products;
          d.departments := d.departments + [dl];
      }
      if saveOk {
        docs.temp := Stored(docs.temp, line);
      }
      d.head := WithTotals(d.head, d.products, d.departments);
    }

    /** `_update_document_data_for_sale`.  Without a document nothing
        happens.  Otherwise the head is stamped first (and stays stamped
        even when the sale then fails); the sale fails when there is no
        product, no department or no main group; else one line is added
        under the next id, saved to the temporary tier unless the save
        fails (which is ignored), and the head's totals become the sums
        over all product and department lines. */
    method UpdateDocumentDataForSale(sale: Sale, quantity: real, unitPrice: real, lineNo: Option<int>, now: int,
                                     saveOk: bool, uuid: UuidSource) returns (ok: bool)
      modifies docs`customers, docs`temp, uuid, Open()`head, Open()`products, Open()`departments
      ensures old(docs.document) == null ==>
        !ok && docs.customers == old(docs.customers) && docs.temp == old(docs.temp) && uuid.count == old(uuid.count)
      ensures old(docs.document) != null ==>
        var h0, ps0, ds0, cs0 := old(docs.document.head), old(docs.document.products), old(docs.document.departments),
                                 old(docs.customers);
        var drawn := CustomerDraws(h0, cs0);
        var stamped := Touched(h0, SaleCustomer(h0, cs0, uuid.values(old(uuid.count))), now,
                               old(OpenClosureNumber(closures)), old(status.currentCurrency));
        var line := LineFor(sale, uuid.values(old(uuid.count) + drawn), h0.id, LineNumber(lineNo, |ps0|, |ds0|),
                            quantity, unitPrice, productData);
        var r := RecordLine(line, saveOk, stamped, ps0, ds0, old(docs.temp));
        && ok == r.ok && docs.document.head == r.head
        && docs.document.products == r.products && docs.document.departments == r.departments && docs.temp == r.temp
        && docs.customers == cs0 + (if drawn == 1 then [DocumentManager.DefaultCustomerRow(uuid.values(old(uuid.count)))] else [])
        && uuid.count == old(uuid.count) + drawn + (if ok then 1 else 0)
    {
      var d := docs.document;
      if d == null {
        return false;
      }
      var h := StampHead(now, uuid);
      ok := AddSaleLine(sale, quantity, unitPrice, LineNumber(lineNo, |d.products|, |d.departments|), saveOk, uuid);
    }

    /** The part of `_update_document_data_for_sale` after the stamps: the
        line is built under the next id and recorded, or the sale fails
        and nothing more changes. */
    method AddSaleLine(sale: Sale, quantity: real, unitPrice: real, lineNo: int, saveOk: bool, uuid: UuidSource)
      returns (ok: bool)
      requires docs.document != null
      modifies docs`temp, uuid, Open()`head, Open()`products, Open()`departments
      ensures var h0 := old(docs.document.head);
        var line := LineFor(sale, uuid.values(old(uuid.count)), h0.id, lineNo, quantity, unitPrice, productData);
        var r := RecordLine(line, saveOk, h0, old(docs.document.products), old(docs.document.departments),
                            old(docs.temp));
        && ok == r.ok && docs.document.head == r.head
        && docs.document.products == r.products && docs.document.departments == r.departments && docs.temp == r.temp
        && uuid.count == old(uuid.count) + (if ok then 1 else 0)
    {
      var line := LineFor(sale, uuid.values(uuid.count), docs.document.head.id, lineNo, quantity, unitPrice, productData);
      if line.None? {
        return false;
      }
      var id := uuid.Next();
      AddLine(line.value, saveOk);
      ok := true;
    }

    /** The first step of the department and PLU-code events: an empty
        document is opened when there is none. */
    method EnsureDocument(today: Date, now: int, uuid: UuidSource) returns (ok: bool)
      modifies docs`document, docs`customers, uuid
      ensures old(docs.document) != null ==>
        ok && docs.document == old(docs.document) && docs.customers == old(docs.customers) && uuid.count == old(uuid.count)
      ensures old(docs.document) == null ==> (ok <==> docs.posSettings.Some? && |docs.storeIds| > 0)
      ensures old(docs.document) == null && ok ==> fresh(docs.document) && DocumentManager.IsEmptyDocument(docs.document)
      ensures old(docs.document) == null && !ok ==> docs.document == null && uuid.count == old(uuid.count)
      ensures ok ==> docs.document != null
    {
      if docs.document != null {
        return true;
      }
      ok := docs.CreateEmptyDocument(status.documentType, today, now, uuid);
    }

    /** A department sale recorded in the document at quantity 1: with a
        document, the head is stamped, and one department line is added
        under the main group the department resolves to, at the price and
        the line number the sale list gave it; when no main group can be
        found, no line is added. */
    method RecordDepartment(d: Department, no: int, price: real, listRows: nat, now: int, saveOk: bool,
                            uuid: UuidSource)
      modifies docs`customers, docs`temp, uuid, Open()`head, Open()`products, Open()`departments
      ensures docs.document == null ==> uuid.count == old(uuid.count) && docs.customers == old(docs.customers)
      ensures docs.document != null ==> docs.document.head.status != Draft
      ensures docs.document != null ==> docs.document.products == old(docs.document.products)
      ensures var main := SaleService.ResolveMainGroup(d, Some(no), productData.mainGroups);
        docs.document != null && main.None? ==> docs.document.departments == old(docs.document.departments)
      ensures var main := SaleService.ResolveMainGroup(d, Some(no), productData.mainGroups);
        docs.document != null && main.Some? ==>
        && |docs.document.departments| == |old(docs.document.departments)| + 1
        && docs.document.departments[..|old(docs.document.departments)|] == old(docs.document.departments)
        && var last := docs.document.departments[|docs.document.departments| - 1];
        && last.mainGroupId == main.value.id && last.totalDepartment == price && last.lineNo == listRows
    {
      var _ := UpdateDocumentDataForSale(DepartmentSale(Some(d), Some(no)), 1.0, price, Some(listRows), now, saveOk, uuid);
      if docs.document != null {
        ghost var h0, cs0 := old(docs.document.head), old(docs.customers);
        RecordDepartmentSale(DepartmentSale(Some(d), Some(no)), uuid.values(old(uuid.count) + CustomerDraws(h0, cs0)),
                             h0.id, LineNumber(Some(listRows), |old(docs.document.products)|,
                                               |old(docs.document.departments)|),
                             1.0, price, productData, saveOk,
                             Touched(h0, SaleCustomer(h0, cs0, uuid.values(old(uuid.count))), now,
                                     old(OpenClosureNumber(closures)), old(status.currentCurrency)),
                             old(docs.document.products), old(docs.document.departments), old(docs.temp));
      }
    }

    /** `_sale_department`.  Logged out, nothing is sold.  Otherwise a
        document is opened if needed; the button, numpad, amount,
        department and maximum price are checked; the sale list must take
        the row.  Then the sale is recorded in the document (its own
        outcome is ignored) at quantity 1 and the numpad is cleared. */
    method SaleDepartment(name: Option<string>, pad: NumPadControl.NumPad?, listAdded: bool, listRows: nat,
                          today: Date, now: int, saveOk: bool, uuid: UuidSource) returns (ok: bool)
      modifies docs`document, docs`customers, docs`temp, uuid, Open()`head, Open()`products, Open()`departments
      modifies Pad(pad)`currentText
      ensures !status.loginSucceed ==>
        !ok && docs.document == old(docs.document) && uuid.count == old(uuid.count) && unchanged(Pad(pad))
      ensures status.loginSucceed && old(docs.document) == null && !(docs.posSettings.Some? && |docs.storeIds| > 0) ==>
        !ok && docs.document == null && unchanged(Pad(pad))
      ensures status.loginSucceed && (old(docs.document) != null || (docs.posSettings.Some? && |docs.storeIds| > 0)) ==>
        var decision := DepartmentDecision(name, if pad == null then None else Some(old(pad.currentText)),
                                           status.currentCurrency, currencies, productData);
        && (ok <==> decision.Success? && listAdded)
        && (ok ==> pad != null && pad.currentText == "" && docs.document != null && docs.document.head.status != Draft)
        && (!ok ==> unchanged(Pad(pad)))
        && (ok && decision.value.department.Main? ==>
              |docs.document.departments| > 0 &&
              var last := docs.document.departments[|docs.document.departments| - 1];
              last.totalDepartment == decision.value.price && last.mainGroupId == decision.value.department.main.id &&
              last.lineNo == listRows)
        && (ok ==>
              var main := SaleService.ResolveMainGroup(decision.value.department, Some(decision.value.number),
                                                       productData.mainGroups);
              var products := if old(docs.document) == null then [] else old(docs.document.products);
              var departments := if old(docs.document) == null then [] else old(docs.document.departments);
              && docs.document.products == products
              && (main.None? ==> docs.document.departments == departments)
              && (main.Some? ==>
                    && |docs.document.departments| == |departments| + 1
                    && docs.document.departments[..|departments|] == departments
                    && var last := docs.document.departments[|departments|];
                    && last.mainGroupId == main.value.id && last.totalDepartment == decision.value.price
                    && last.lineNo == listRows))
    {
      if !status.loginSucceed {
        return false;
      }
      var ready := EnsureDocument(today, now, uuid);
      if !ready {
        return false;
      }
      assert docs.document.products == (if old(docs.document) == null then [] else old(docs.document.products));
      assert docs.document.departments == (if old(docs.document) == null then [] else old(docs.document.departments));
      ok := SellDepartment(name, pad, listAdded, listRows, now, saveOk, uuid);
    }

    /** The part of `_sale_department` that follows once a document is open:
        the checks, the sale list, the recorded sale and the cleared numpad. */
    method SellDepartment(name: Option<string>, pad: NumPadControl.NumPad?, listAdded: bool, listRows: nat,
                          now: int, saveOk: bool, uuid: UuidSource) returns (ok: bool)
      requires docs.document != null
      modifies docs`customers, docs`temp, uuid, Open()`head, Open()`products, Open()`departments
      modifies Pad(pad)`currentText
      ensures docs.document == old(docs.document)
      ensures var decision := DepartmentDecision(name, if pad == null then None else Some(old(pad.currentText)),
                                                 status.currentCurrency, currencies, productData);
        && (ok <==> decision.Success? && listAdded)
        && (ok ==> pad != null && pad.currentText == "" && docs.document.head.status != Draft)
        && (!ok ==> unchanged(Pad(pad)))
        && (ok ==>
              var main := SaleService.ResolveMainGroup(decision.value.department, Some(decision.value.number),
                                                       productData.mainGroups);
              && docs.document.products == old(docs.document.products)
              && (main.None? ==> docs.document.departments == old(docs.document.departments))
              && (main.Some? ==>
                    && |docs.document.departments| == |old(docs.document.departments)| + 1
                    && docs.document.departments[..|old(docs.document.departments)|] == old(docs.document.departments)
                    && var last := docs.document.departments[|old(docs.document.departments)|];
                    && last.mainGroupId == main.value.id && last.totalDepartment == decision.value.price
                    && last.lineNo == listRows))
    {
      var text := if pad == null then None else Some(pad.currentText);
      var decision := DepartmentDecision(name, text, status.currentCurrency, currencies, productData);
      if decision.Failure? || !listAdded {
        return false;
      }
      var choice := decision.value;
      RecordDepartment(choice.department, choice.number, choice.price, listRows, now, saveOk, uuid);
      pad.SetText("");
      ok := true;
    }

    /** The quantity of a PLU sale: the numpad's text, when there is a
        numpad and its text is not blank, read as a quantity, after which
        the numpad is cleared; 1 otherwise. */
    method TakeQuantity(pad: NumPadControl.NumPad?) returns (quantity: real)
      modifies Pad(pad)`currentText
      ensures quantity > 0.0
      ensures quantity == (if pad != null && Text.Strip(old(pad.currentText)) != "" then PluQuantity(old(pad.currentText)) else 1.0)
      ensures pad != null && Text.Strip(old(pad.currentText)) != "" ==> pad.currentText == ""
      ensures pad == null || Text.Strip(old(pad.currentText)) == "" ==> unchanged(Pad(pad))
    {
      quantity := 1.0;
      if pad != null {
        var text := pad.GetText();
        if Text.Strip(text) != "" {
          quantity := PluQuantity(text);
          pad.SetText("");
        }
      }
    }

    /** A PLU sale recorded in the document: with a document, one product
        line is added for the product, the quantity and the price, under
        the line number the sale list gave it. */
    method RecordPlu(sale: Sale, quantity: real, price: real, listRows: nat, now: int, saveOk: bool, uuid: UuidSource)
      requires sale.PluCodeSale? || sale.PluBarcodeSale?
      requires sale.product.Some?
      modifies docs`customers, docs`temp, uuid, Open()`head, Open()`products, Open()`departments
      ensures docs.document == null ==> uuid.count == old(uuid.count) && docs.customers == old(docs.customers)
      ensures docs.document != null ==>
        && |docs.document.products| == |old(docs.document.products)| + 1
        && docs.document.products[..|old(docs.document.products)|] == old(docs.document.products)
        && docs.document.departments == old(docs.document.departments)
        && docs.document.head.status != Draft
        && var last := docs.document.products[|docs.document.products| - 1];
        && last.productId == sale.product.value.id && last.quantity == quantity && last.unitPrice == price
        && last.totalPrice == quantity * price && last.lineNo == listRows
        && last.barcodeId == (if sale.PluBarcodeSale? && sale.barcode.Some? then Some(sale.barcode.value.id) else None)
    {
      var _ := UpdateDocumentDataForSale(sale, quantity, price, Some(listRows), now, saveOk, uuid);
      if docs.document != null {
        ghost var h0, cs0 := old(docs.document.head), old(docs.customers);
        RecordPluSale(sale, uuid.values(old(uuid.count) + CustomerDraws(h0, cs0)), h0.id,
                      LineNumber(Some(listRows), |old(docs.document.products)|, |old(docs.document.departments)|),
                      quantity, price, productData, saveOk,
                      Touched(h0, SaleCustomer(h0, cs0, uuid.values(old(uuid.count))), now,
                              old(OpenClosureNumber(closures)), old(status.currentCurrency)),
                      old(docs.document.products), old(docs.document.departments), old(docs.temp));
      }
    }


    /** The part of the PLU events once the product and the window's sale
        list are found: the numpad's text, when there is a numpad and the
        text is not blank, becomes the quantity and the numpad is cleared
        (whatever the sale list then does); the sale list must take the
        row; then the sale is recorded. */
    method SellPlu(sale: Sale, price: real, pad: NumPadControl.NumPad?, listAdded: bool, listRows: nat, now: int,
                   saveOk: bool, uuid: UuidSource) returns (ok: bool, quantity: real)
      requires sale.PluCodeSale? || sale.PluBarcodeSale?
      requires sale.product.Some?
      modifies docs`customers, docs`temp, uuid, Open()`head, Open()`products, Open()`departments
      modifies Pad(pad)`currentText
      ensures quantity == (if pad != null && Text.Strip(old(pad.currentText)) != "" then PluQuantity(old(pad.currentText)) else 1.0)
      ensures pad != null && Text.Strip(old(pad.currentText)) != "" ==> pad.currentText == ""
      ensures pad == null || Text.Strip(old(pad.currentText)) == "" ==> unchanged(Pad(pad))
      ensures ok == listAdded
      ensures !ok ==> unchanged(Open()) && docs.customers == old(docs.customers) && uuid.count == old(uuid.count)
      ensures docs.document == null ==> uuid.count == old(uuid.count)
      ensures ok && docs.document != null ==>
        |docs.document.products| == |old(docs.document.products)| + 1 &&
        var last := docs.document.products[|docs.document.products| - 1];
        last.productId == sale.product.value.id && last.quantity == quantity && last.unitPrice == price &&
        last.totalPrice == quantity * price && last.lineNo == listRows &&
        last.barcodeId == (if sale.PluBarcodeSale? && sale.barcode.Some? then Some(sale.barcode.value.id) else None) &&
        docs.document.head.status != Draft
    {
      quantity := TakeQuantity(pad);
      if !listAdded {
        return false, quantity;
      }
      RecordPlu(sale, quantity, price, listRows, now, saveOk, uuid);
      ok := true;
    }

    /** `_sale_plu_code`: opens a document when there is none, then sells
        the product the button's code selects. */
    method SalePluCode(name: Option<string>, pad: NumPadControl.NumPad?, hasList: bool, listAdded: bool, listRows: nat,
                       today: Date, now: int, saveOk: bool, uuid: UuidSource) returns (ok: bool)
      modifies docs`document, docs`customers, docs`temp, uuid, Open()`head, Open()`products, Open()`departments
      modifies Pad(pad)`currentText
      ensures !status.loginSucceed ==>
        !ok && docs.document == old(docs.document) && uuid.count == old(uuid.count) && unchanged(Pad(pad))
      ensures status.loginSucceed && old(docs.document) == null && !(docs.posSettings.Some? && |docs.storeIds| > 0) ==>
        !ok && docs.document == null && unchanged(Pad(pad))
      ensures status.loginSucceed && (old(docs.document) != null || (docs.posSettings.Some? && |docs.storeIds| > 0)) ==>
        var decision := PluCodeDecision(name, productData);
        && (ok <==> decision.Success? && hasList && listAdded)
        && (decision.Failure? || !hasList ==> unchanged(Pad(pad)))
        && (ok ==> docs.document != null && docs.document.head.status != Draft &&
                   |docs.document.products| > 0 &&
                   var last := docs.document.products[|docs.document.products| - 1];
                   last.productId == decision.value.product.id && last.unitPrice == decision.value.price &&
                   last.barcodeId.None?)
    {
      if !status.loginSucceed {
        return false;
      }
      var ready := EnsureDocument(today, now, uuid);
      if !ready {
        return false;
      }
      var decision := PluCodeDecision(name, productData);
      if decision.Failure? {
        return false;
      }
      if !hasList {
        return false;
      }
      var choice := decision.value;
      var q;
      ok, q := SellPlu(PluCodeSale(Some(choice.product)), choice.price, pad, listAdded, listRows, now, saveOk, uuid);
    }

    /** `_sale_plu_barcode`: sells the product behind the button's barcode.
        Unlike the other sale events it does not open a document first, so
        without one the sale is accepted and recorded nowhere. */
    method SalePluBarcode(name: Option<string>, pad: NumPadControl.NumPad?, hasList: bool, listAdded: bool, listRows: nat,
                          now: int, saveOk: bool, uuid: UuidSource) returns (ok: bool)
      modifies docs`customers, docs`temp, uuid, Open()`head, Open()`products, Open()`departments
      modifies Pad(pad)`currentText
      ensures !status.loginSucceed ==> !ok && uuid.count == old(uuid.count) && unchanged(Pad(pad))
      ensures status.loginSucceed ==>
        var decision := PluBarcodeDecision(name, productData);
        && (ok <==> decision.Success? && hasList && listAdded)
        && (decision.Failure? || !hasList ==> unchanged(Pad(pad)))
        && (ok && old(docs.document) == null ==> docs.document == null && uuid.count == old(uuid.count))
        && (ok && old(docs.document) != null ==>
              docs.document.head.status != Draft &&
              |docs.document.products| == |old(docs.document.products)| + 1 &&
              var last := docs.document.products[|docs.document.products| - 1];
              last.productId == decision.value.product.id && last.unitPrice == decision.value.price &&
              last.barcodeId == Some(decision.value.barcode.value.id))
    {
      if !status.loginSucceed {
        return false;
      }
      var decision := PluBarcodeDecision(name, productData);
      if decision.Failure? {
        return false;
      }
      if !hasList {
        return false;
      }
      var choice := decision.value;
      var q;
      ok, q := SellPlu(PluBarcodeSale(Some(choice.product), choice.barcode), choice.price, pad, listAdded, listRows,
                       now, saveOk, uuid);
    }

    /** The barcode sale as `_sale_plu_code` shows it was meant to be:
        a document is opened first when there is none, so an accepted sale
        is always recorded in the document. */
    method SalePluBarcodeOpeningDocument(name: Option<string>, pad: NumPadControl.NumPad?, hasList: bool, listAdded: bool,
                                         listRows: nat, today: Date, now: int, saveOk: bool, uuid: UuidSource)
      returns (ok: bool)
      modifies docs`document, docs`customers, docs`temp, uuid, Open()`head, Open()`products, Open()`departments
      modifies Pad(pad)`currentText
      ensures !status.loginSucceed ==>
        !ok && docs.document == old(docs.document) && uuid.count == old(uuid.count) && unchanged(Pad(pad))
      ensures status.loginSucceed && old(docs.document) == null && !(docs.posSettings.Some? && |docs.storeIds| > 0) ==>
        !ok && docs.document == null && unchanged(Pad(pad))
      ensures status.loginSucceed && (old(docs.document) != null || (docs.posSettings.Some? && |docs.storeIds| > 0)) ==>
        var decision := PluBarcodeDecision(name, productData);
        && (ok <==> decision.Success? && hasList && listAdded)
        && (decision.Failure? || !hasList ==> unchanged(Pad(pad)))
        && (ok ==> docs.document != null && docs.document.head.status != Draft &&
                   |docs.document.products| > 0 &&
                   var last := docs.document.products[|docs.document.products| - 1];
                   last.productId == decision.value.product.id && last.unitPrice == decision.value.price &&
                   last.barcodeId == Some(decision.value.barcode.value.id))
    {
      if !status.loginSucceed {
        return false;
      }
      var ready := EnsureDocument(today, now, uuid);
      if !ready {
        return false;
      }
      var decision := PluBarcodeDecision(name, productData);
      if decision.Failure? {
        return false;
      }
      if !hasList {
        return false;
      }
      var choice := decision.value;
      var q;
      ok, q := SellPlu(PluBarcodeSale(Some(choice.product), choice.barcode), choice.price, pad, listAdded, listRows,
                       now, saveOk, uuid);
    }
  }

  /** A button named PLU followed by a live barcode sells that barcode's
      product. */
  lemma BarcodeSaleAccepted(code: string, b: ProductBarcode, p: Product, pd: ProductData)
    requires code != "" && b.barcode == code && !b.isDeleted && p.id == b.productId
    requires pd.barcodes == [b] && pd.products == [p]
    ensures PluBarcodeDecision(Some(PluPrefix + code), pd) ==
      Success(PluChoice(p, Some(b), if b.salePrice != 0.0 then b.salePrice else p.salePrice))
  {
    PluCodeRoundTrip(PluPrefix, code);
  }

  /** With no document open, a logged-in barcode sale the sale list took
      is reported as done, yet no document holds it. */
  method BarcodeSaleNotRecorded(code: string, b: ProductBarcode, p: Product, t: DocumentManager.TempTables)
    returns (ok: bool, recorded: bool)
    requires code != "" && b.barcode == code && !b.isDeleted && p.id == b.productId
    ensures ok && !recorded
  {
    var status := new CurrentStatus.Status();
    status.loginSucceed := true;
    var archive := new Archive();
    var docs := new DocumentManager.Manager(archive, None, [], [], [], t);
    var closures := new Closures.ClosureManager([], []);
    var pd := ProductData([p], [b], [], [], []);
    var register := new Register(status, docs, closures, pd, []);
    var uuid := new UuidSource((n: nat) => n);
    BarcodeSaleAccepted(code, b, p, pd);
    ok := register.SalePluBarcode(Some(PluPrefix + code), null, true, true, 1, 0, true, uuid);
    recorded := docs.document != null;
  }
}
