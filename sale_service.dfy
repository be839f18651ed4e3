/**
 * Sale-line pricing: VAT rates found through the department chain, line
 * totals and their VAT, the product and department lines built from them,
 * and the document totals summed over the lines.
 */
module SaleService {
  import opened Wrappers
  import Text
  import opened Documents
  import opened Catalog
  import Vat

  // ------------------------------------------------------------ VAT rates

  /** The rate of the VAT row a main group points at, 0 when there is none. */
  function GroupVatRate(g: MainGroup, vats: seq<VatRate>): (r: real)
    ensures g.vatId.None? ==> r == 0.0
    ensures g.vatId.Some? && FindVat(vats, g.vatId.value).None? ==> r == 0.0
    ensures g.vatId.Some? && FindVat(vats, g.vatId.value).Some? ==>
      r == vats[FindVat(vats, g.vatId.value).value].rate as real
  {
    if g.vatId.None? then 0.0
    else match FindVat(vats, g.vatId.value)
      case None => 0.0
      case Some(k) => vats[k].rate as real
  }

  /** Some VAT row carries this rate. */
  ghost predicate IsListedRate(r: real, vats: seq<VatRate>)
  {
    exists k :: 0 <= k < |vats| && vats[k].rate as real == r
  }

  /** `get_vat_rate_for_product`: product → its main group → that group's
      VAT row; 0 when there is no product or any link is missing. */
  function VatRateForProduct(product: Option<Product>, pd: ProductData): (r: real)
    ensures product.None? || product.value.mainGroupId.None? ==> r == 0.0
    ensures product.Some? && product.value.mainGroupId.Some? ==>
      match FindMainGroup(pd.mainGroups, product.value.mainGroupId.value)
      case None => r == 0.0
      case Some(i) => r == GroupVatRate(pd.mainGroups[i], pd.vats)
  {
    if product.None? || product.value.mainGroupId.None? then 0.0
    else match FindMainGroup(pd.mainGroups, product.value.mainGroupId.value)
      case None => 0.0
      case Some(i) => GroupVatRate(pd.mainGroups[i], pd.vats)
  }

  /** A product's rate is 0 or the rate of some VAT row. */
  lemma VatRateForProductListed(product: Option<Product>, pd: ProductData)
    ensures VatRateForProduct(product, pd) == 0.0 || IsListedRate(VatRateForProduct(product, pd), pd.vats)
  {
    var r := VatRateForProduct(product, pd);
    if r != 0.0 {
      var i := FindMainGroup(pd.mainGroups, product.value.mainGroupId.value).value;
      var k := FindVat(pd.vats, pd.mainGroups[i].vatId.value).value;
      assert pd.vats[k].rate as real == r;
    }
  }

  /** The one-character code `str(n)[0]` of a department number above 99. */
  function LeadingDigit(n: int): (r: string)
    requires n > 99
    ensures |r| == 1 && Text.IsDigit(r[0])
  {
    var s := Text.NatToString(n);
    [s[0]]
  }

  /** The main group a department resolves to: a main group is itself; a
      subgroup goes through its main-group id, then (for numbers above 99)
      the main group coded with the leading digit, then the first main group. */
  function ResolveMainGroup(department: Department, departmentNo: Option<int>, groups: seq<MainGroup>): (r: Option<MainGroup>)
    ensures department.Main? ==> r == Some(department.main)
    ensures department.Sub? && department.sub.mainGroupId.Some? &&
            FindMainGroup(groups, department.sub.mainGroupId.value).Some? ==>
      r == Some(groups[FindMainGroup(groups, department.sub.mainGroupId.value).value])
    ensures department.Sub? && r.Some? ==> r.value in groups
    ensures r.None? ==> department.Sub? && (departmentNo.None? || departmentNo.value == 0 || |groups| == 0)
  {
    match department
    case Main(m) => Some(m)
    case Sub(s) =>
      var byId :=
        if s.mainGroupId.Some? then
          match FindMainGroup(groups, s.mainGroupId.value)
          case None => None
          case Some(i) => Some(groups[i])
        else None;
      if byId.Some? || departmentNo.None? || departmentNo.value == 0 then byId
      else
        var byCode :=
          if departmentNo.value > 99 then
            match FindMainGroupByCode(groups, LeadingDigit(departmentNo.value))
            case None => None
            case Some(i) => Some(groups[i])
          else None;
        if byCode.Some? then byCode
        else if |groups| > 0 then Some(groups[0])
        else None
  }

  /** `get_vat_rate_for_department`: the resolved main group and its rate,
      or (0, None). */
  function VatRateForDepartment(department: Department, departmentNo: Option<int>, pd: ProductData): (r: (real, Option<MainGroup>))
    ensures r.1 == ResolveMainGroup(department, departmentNo, pd.mainGroups)
    ensures r.1.None? ==> r.0 == 0.0
    ensures r.1.Some? ==> r.0 == GroupVatRate(r.1.value, pd.vats)
  {
    match ResolveMainGroup(department, departmentNo, pd.mainGroups)
    case None => (0.0, None)
    case Some(g) => (GroupVatRate(g, pd.vats), Some(g))
  }

  // ------------------------------------------------------------ line totals

  /** What `calculate_plu_sale` reports. */
  datatype PluSale = PluSale(totalPrice: real, vatRate: real, totalVat: real,
                             mainGroupId: Option<Id>, subGroupId: Option<Id>)

  /** `calculate_plu_sale`: quantity × unit price, with the VAT share of
      that total rounded to the currency's places. */
  function CalculatePluSale(quantity: real, unitPrice: real, product: Option<Product>, pd: ProductData,
                            sign: Option<string>, cached: seq<Vat.Currency>, db: seq<Vat.Currency>): (r: PluSale)
    ensures r.totalPrice == quantity * unitPrice
    ensures r.vatRate == VatRateForProduct(product, pd)
    ensures r.totalVat == Vat.CalculateVat(r.totalPrice, r.vatRate, sign, cached, db)
    ensures product.None? ==> r.mainGroupId.None? && r.subGroupId.None? && r.totalVat == 0.0
    ensures product.Some? ==> r.mainGroupId == product.value.mainGroupId && r.subGroupId == product.value.subGroupId
  {
    var total := quantity * unitPrice;
    var rate := VatRateForProduct(product, pd);
    PluSale(total, rate, Vat.CalculateVat(total, rate, sign, cached, db),
            if product.Some? then product.value.mainGroupId else None,
            if product.Some? then product.value.subGroupId else None)
  }

  /** The VAT of a PLU sale whose total is a non-negative amount of the
      currency lies between 0 and that total, so the line can feed
      `VatWithinTotal`. */
  lemma PluSaleVatWithinTotal(quantity: real, unitPrice: real, product: Option<Product>, pd: ProductData,
                              sign: Option<string>, cached: seq<Vat.Currency>, db: seq<Vat.Currency>)
    requires quantity * unitPrice >= 0.0
    requires Vat.OnGrid(quantity * unitPrice, Vat.CurrencyDecimalPlaces(sign, cached, db))
    ensures var s := CalculatePluSale(quantity, unitPrice, product, pd, sign, cached, db);
      0.0 <= s.totalVat <= s.totalPrice
  {
    var s := CalculatePluSale(quantity, unitPrice, product, pd, sign, cached, db);
    Vat.CalculateVatProperties(s.totalPrice, s.vatRate, sign, cached, db);
  }

  /** What `calculate_department_sale` reports. */
  datatype DepartmentSale = DepartmentSale(totalDepartment: real, vatRate: real, totalDepartmentVat: real,
                                           mainGroup: Option<MainGroup>, subGroup: Option<SubGroup>)

  /** `calculate_department_sale`: as for a PLU sale, with the rate and
      main group found through the department; the subgroup is reported
      exactly when the department is one. */
  function CalculateDepartmentSale(quantity: real, unitPrice: real, department: Department, departmentNo: Option<int>,
                                   pd: ProductData, sign: Option<string>,
                                   cached: seq<Vat.Currency>, db: seq<Vat.Currency>): (r: DepartmentSale)
    ensures r.totalDepartment == quantity * unitPrice
    ensures (r.vatRate, r.mainGroup) == VatRateForDepartment(department, departmentNo, pd)
    ensures r.totalDepartmentVat == Vat.CalculateVat(r.totalDepartment, r.vatRate, sign, cached, db)
    ensures r.subGroup.Some? <==> department.Sub?
    ensures department.Sub? ==> r.subGroup == Some(department.sub)
  {
    var total := quantity * unitPrice;
    var (rate, main) := VatRateForDepartment(department, departmentNo, pd);
    DepartmentSale(total, rate, Vat.CalculateVat(total, rate, sign, cached, db), main,
                   if department.Sub? then Some(department.sub) else None)
  }

  // ------------------------------------------------------------ line records

  /** The name a product line shows: the short name when there is one. */
  function DisplayName(p: Product): (r: string)
    ensures p.shortName != "" ==> r == p.shortName
    ensures p.shortName == "" ==> r == p.name
  {
    if p.shortName != "" then p.shortName else p.name
  }

  /** `create_transaction_product_temp`: a snapshot of the product and the
      prices; the barcode key only when a barcode is given. */
  function CreateProductLine(id: Id, headId: Id, lineNo: int, product: Product, quantity: real, unitPrice: real,
                             totalPrice: real, vatRate: real, totalVat: real, barcode: Option<ProductBarcode>): (r: ProductLine)
    ensures r.id == id && r.headId == headId && r.lineNo == lineNo && !r.isDeleted
    ensures r.productId == product.id && r.productCode == product.code && r.productName == DisplayName(product)
    ensures r.productDescription == product.description
    ensures r.mainGroupId == product.mainGroupId && r.subGroupId == product.subGroupId
    ensures r.unitPrice == unitPrice && r.quantity == quantity && r.totalPrice == totalPrice
    ensures r.vatRate == vatRate && r.totalVat == totalVat
    ensures r.barcodeId.Some? <==> barcode.Some?
    ensures barcode.Some? ==> r.barcodeId == Some(barcode.value.id)
  {
    ProductLine(id, headId, lineNo, product.mainGroupId, product.subGroupId, product.id, product.code,
                DisplayName(product), product.description, vatRate, unitPrice, quantity, totalPrice, totalVat,
                if barcode.Some? then Some(barcode.value.id) else None, false)
  }

  /** The subgroup key of a department line: the given subgroup, else for
      numbers above 99 the subgroup whose code is the number. */
  function DepartmentSubGroupId(subGroup: Option<SubGroup>, departmentNo: Option<int>, subGroups: seq<SubGroup>): (r: Option<Id>)
    ensures subGroup.Some? ==> r == Some(subGroup.value.id)
    ensures subGroup.None? && (departmentNo.None? || departmentNo.value <= 99) ==> r.None?
    ensures subGroup.None? && departmentNo.Some? && departmentNo.value > 99 ==>
      match FindSubGroupByCode(subGroups, Text.IntToString(departmentNo.value))
      case None => r.None?
      case Some(k) => r == Some(subGroups[k].id)
  {
    if subGroup.Some? then Some(subGroup.value.id)
    else if departmentNo.Some? && departmentNo.value > 99 then
      match FindSubGroupByCode(subGroups, Text.IntToString(departmentNo.value))
      case None => None
      case Some(k) => Some(subGroups[k].id)
    else None
  }

  /** `create_transaction_department_temp`. */
  function CreateDepartmentLine(id: Id, headId: Id, lineNo: int, main: MainGroup, subGroup: Option<SubGroup>,
                                totalDepartment: real, vatRate: real, totalDepartmentVat: real,
                                departmentNo: Option<int>, subGroups: seq<SubGroup>): (r: DepartmentLine)
    ensures r.id == id && r.headId == headId && r.lineNo == lineNo && !r.isDeleted
    ensures r.mainGroupId == main.id
    ensures r.subGroupId == DepartmentSubGroupId(subGroup, departmentNo, subGroups)
    ensures r.vatRate == vatRate && r.totalDepartment == totalDepartment && r.totalDepartmentVat == totalDepartmentVat
  {
    DepartmentLine(id, headId, lineNo, main.id, DepartmentSubGroupId(subGroup, departmentNo, subGroups),
                   vatRate, totalDepartment, totalDepartmentVat, false)
  }

  // ------------------------------------------------------------ document totals

  /** Σ total_price over product lines (deleted lines included). */
  function ProductTotal(ps: seq<ProductLine>): real
  {
    if |ps| == 0 then 0.0 else ProductTotal(ps[..|ps| - 1]) + ps[|ps| - 1].totalPrice
  }

  function ProductVat(ps: seq<ProductLine>): real
  {
    if |ps| == 0 then 0.0 else ProductVat(ps[..|ps| - 1]) + ps[|ps| - 1].totalVat
  }

  function DepartmentTotal(ds: seq<DepartmentLine>): real
  {
    if |ds| == 0 then 0.0 else DepartmentTotal(ds[..|ds| - 1]) + ds[|ds| - 1].totalDepartment
  }

  function DepartmentVat(ds: seq<DepartmentLine>): real
  {
    if |ds| == 0 then 0.0 else DepartmentVat(ds[..|ds| - 1]) + ds[|ds| - 1].totalDepartmentVat
  }

  /** Totals split over any division of the lines. */
  lemma {:induction false} ProductTotalsSplit(a: seq<ProductLine>, b: seq<ProductLine>)
    ensures ProductTotal(a + b) == ProductTotal(a) + ProductTotal(b)
    ensures ProductVat(a + b) == ProductVat(a) + ProductVat(b)
  {
    if |b| > 0 {
      assert (a + b)[..|a + b| - 1] == a + b[..|b| - 1];
      ProductTotalsSplit(a, b[..|b| - 1]);
    } else {
      assert a + b == a;
    }
  }

  lemma {:induction false} DepartmentTotalsSplit(a: seq<DepartmentLine>, b: seq<DepartmentLine>)
    ensures DepartmentTotal(a + b) == DepartmentTotal(a) + DepartmentTotal(b)
    ensures DepartmentVat(a + b) == DepartmentVat(a) + DepartmentVat(b)
  {
    if |b| > 0 {
      assert (a + b)[..|a + b| - 1] == a + b[..|b| - 1];
      DepartmentTotalsSplit(a, b[..|b| - 1]);
    } else {
      assert a + b == a;
    }
  }

  /** Lines whose VAT never exceeds their price give a document whose VAT
      never exceeds its total. */
  lemma {:induction false} VatWithinTotal(ps: seq<ProductLine>, ds: seq<DepartmentLine>)
    requires forall j :: 0 <= j < |ps| ==> ps[j].totalVat <= ps[j].totalPrice
    requires forall j :: 0 <= j < |ds| ==> ds[j].totalDepartmentVat <= ds[j].totalDepartment
    ensures ProductVat(ps) + DepartmentVat(ds) <= ProductTotal(ps) + DepartmentTotal(ds)
    decreases |ps| + |ds|
  {
    if |ps| > 0 {
      VatWithinTotal(ps[..|ps| - 1], []);
    }
    if |ds| > 0 {
      VatWithinTotal([], ds[..|ds| - 1]);
    }
  }

  /** `calculate_document_totals`: the amount and the VAT summed over the
      product lines and then the department lines. */
  method CalculateDocumentTotals(doc: DocumentData) returns (totalAmount: real, totalVat: real)
    ensures totalAmount == ProductTotal(doc.products) + DepartmentTotal(doc.departments)
    ensures totalVat == ProductVat(doc.products) + DepartmentVat(doc.departments)
  {
    totalAmount, totalVat := 0.0, 0.0;
    var i := 0;
    while i < |doc.products|
      invariant 0 <= i <= |doc.products|
      invariant totalAmount == ProductTotal(doc.products[..i]) && totalVat == ProductVat(doc.products[..i])
    {
      assert doc.products[..i + 1][..i] == doc.products[..i];
      totalAmount := totalAmount + doc.products[i].totalPrice;
      totalVat := totalVat + doc.products[i].totalVat;
      i := i + 1;
    }
    assert doc.products[..i] == doc.products;
    var j := 0;
    while j < |doc.departments|
      invariant 0 <= j <= |doc.departments|
      invariant totalAmount == ProductTotal(doc.products) + DepartmentTotal(doc.departments[..j])
      invariant totalVat == ProductVat(doc.products) + DepartmentVat(doc.departments[..j])
    {
      assert doc.departments[..j + 1][..j] == doc.departments[..j];
      totalAmount := totalAmount + doc.departments[j].totalDepartment;
      totalVat := totalVat + doc.departments[j].totalDepartmentVat;
      j := j + 1;
    }
    assert doc.departments[..j] == doc.departments;
  }
}
