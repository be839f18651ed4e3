/**
 * Reference records the sale core reads from its caches: cashiers, the POS
 * settings row, customers, number sequences and the product catalogue
 * (products, barcodes, department groups and VAT rates).
 */
module Catalog {
  import opened Wrappers
  import opened Documents
  import Tables

  datatype Cashier = Cashier(id: Id, userName: string, password: string, isDeleted: bool)

  /** The POS settings row; `posNoInStore` is `None` when the attribute is absent. */
  datatype PosSettings = PosSettings(id: Id, posNoInStore: Option<int>, currentCurrencyId: Option<Id>)

  datatype Customer = Customer(id: Id, name: string, lastName: string, isDeleted: bool)

  /** A named counter such as "ReceiptNumber" or "ClosureNumber". */
  datatype TransactionSequence = TransactionSequence(id: Id, name: string, value: int)

  /** `shortName` and `description` hold "" where the column is NULL. */
  datatype Product = Product(
    id: Id,
    code: string,
    name: string,
    shortName: string,
    description: string,
    salePrice: real,
    mainGroupId: Option<Id>,
    subGroupId: Option<Id>,
    isDeleted: bool)

  /** A barcode; a `salePrice` of zero (or NULL) means "use the product's price". */
  datatype ProductBarcode = ProductBarcode(id: Id, productId: Id, barcode: string, salePrice: real, isDeleted: bool)

  datatype MainGroup = MainGroup(id: Id, code: string, name: string, vatId: Option<Id>, maxPrice: Option<real>, isDeleted: bool)

  datatype SubGroup = SubGroup(id: Id, code: string, name: string, mainGroupId: Option<Id>, maxPrice: Option<real>, isDeleted: bool)

  datatype VatRate = VatRate(id: Id, rate: int)

  /** A department button selects either kind of group. */
  datatype Department = Main(main: MainGroup) | Sub(sub: SubGroup)
  {
    function Id(): Id { match this case Main(m) => m.id case Sub(s) => s.id }
    function Name(): string { match this case Main(m) => m.name case Sub(s) => s.name }
    function MaxPrice(): Option<real> { match this case Main(m) => m.maxPrice case Sub(s) => s.maxPrice }
  }

  /** The product-data cache the sale core looks groups and rates up in. */
  datatype ProductData = ProductData(
    products: seq<Product>,
    barcodes: seq<ProductBarcode>,
    mainGroups: seq<MainGroup>,
    subGroups: seq<SubGroup>,
    vats: seq<VatRate>)

  /** `next(x for x in xs if x.id == id)`: the index of the first main group with that id. */
  function FindMainGroup(gs: seq<MainGroup>, id: Id): (r: Option<nat>)
    ensures r.Some? ==> r.value < |gs| && gs[r.value].id == id
    ensures r.Some? ==> forall j :: 0 <= j < r.value ==> gs[j].id != id
    ensures r.None? ==> forall j :: 0 <= j < |gs| ==> gs[j].id != id
  {
    Tables.FindFirst(gs, (x: MainGroup) => x.id == id)
  }

  /** The first main group with that code. */
  function FindMainGroupByCode(gs: seq<MainGroup>, code: string): (r: Option<nat>)
    ensures r.Some? ==> r.value < |gs| && gs[r.value].code == code
    ensures r.Some? ==> forall j :: 0 <= j < r.value ==> gs[j].code != code
    ensures r.None? ==> forall j :: 0 <= j < |gs| ==> gs[j].code != code
  {
    Tables.FindFirst(gs, (x: MainGroup) => x.code == code)
  }

  /** The first subgroup with that code. */
  function FindSubGroupByCode(gs: seq<SubGroup>, code: string): (r: Option<nat>)
    ensures r.Some? ==> r.value < |gs| && gs[r.value].code == code
    ensures r.Some? ==> forall j :: 0 <= j < r.value ==> gs[j].code != code
    ensures r.None? ==> forall j :: 0 <= j < |gs| ==> gs[j].code != code
  {
    Tables.FindFirst(gs, (x: SubGroup) => x.code == code)
  }

  /** The first VAT row with that id. */
  function FindVat(vs: seq<VatRate>, id: Id): (r: Option<nat>)
    ensures r.Some? ==> r.value < |vs| && vs[r.value].id == id
    ensures r.Some? ==> forall j :: 0 <= j < r.value ==> vs[j].id != id
    ensures r.None? ==> forall j :: 0 <= j < |vs| ==> vs[j].id != id
  {
    Tables.FindFirst(vs, (x: VatRate) => x.id == id)
  }

  /** The value of the first sequence with that name, or 1 when there is none. */
  function SequenceValue(seqs: seq<TransactionSequence>, name: string): (r: int)
    ensures (forall j :: 0 <= j < |seqs| ==> seqs[j].name != name) ==> r == 1
    ensures (exists j :: 0 <= j < |seqs| && seqs[j].name == name) ==>
      exists j :: 0 <= j < |seqs| && seqs[j].name == name && r == seqs[j].value &&
        forall k :: 0 <= k < j ==> seqs[k].name != name
  {
    if |seqs| == 0 then 1
    else if seqs[0].name == name then seqs[0].value
    else
      var r := SequenceValue(seqs[1..], name);
      assert forall j :: 1 <= j < |seqs| ==> seqs[j] == seqs[1..][j - 1];
      r
  }

  /** The index of the first sequence with that name. */
  function FindSequence(seqs: seq<TransactionSequence>, name: string): (r: Option<nat>)
    ensures r.Some? ==> (r.value < |seqs| && seqs[r.value].name == name &&
      forall k :: 0 <= k < r.value ==> seqs[k].name != name)
    ensures r.None? ==> forall j :: 0 <= j < |seqs| ==> seqs[j].name != name
  {
    Tables.FindFirst(seqs, (x: TransactionSequence) => x.name == name)
  }
}
