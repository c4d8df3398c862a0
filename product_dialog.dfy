/**
 * The product form (src/components/products/ProductDialog.jsx): its
 * resets, the cleaning of optional fields before saving, when it asks the
 * page to look a barcode up, and its field rules.
 */
module ProductDialog {

  import opened Common
  import opened Js
  import opened FormRules

  /** `useForm`'s default values. */
  const InitialDefaults: Record := map[
    "barcode" := Str(""), "name" := Str(""), "description" := Str(""),
    "categoryId" := Str(""), "brandId" := Str(""), "productTypeId" := Str(""),
    "unitTypeId" := Str(""), "alcoholPercentage" := Str(""), "volumeMl" := Str(""),
    "purchasePrice" := Str(""), "retailPrice" := Str(""), "wholesalePrice" := Str(""),
    "wholesaleMinQuantity" := Num(12), "currentStock" := Num(0), "minStock" := Num(5),
    "maxStock" := Num(100), "reorderPoint" := Num(10), "isActive" := Bool(true)]

  /** The values the reset for a new product writes, spelled out a second time in the component. */
  const NewProductReset: Record := map[
    "barcode" := Str(""), "name" := Str(""), "description" := Str(""),
    "categoryId" := Str(""), "brandId" := Str(""), "productTypeId" := Str(""),
    "unitTypeId" := Str(""), "alcoholPercentage" := Str(""), "volumeMl" := Str(""),
    "purchasePrice" := Str(""), "retailPrice" := Str(""), "wholesalePrice" := Str(""),
    "wholesaleMinQuantity" := Num(12), "currentStock" := Num(0), "minStock" := Num(5),
    "maxStock" := Num(100), "reorderPoint" := Num(10), "isActive" := Bool(true)]

  /** A new product's form starts from exactly the initial defaults. */
  lemma NewResetIsInitial()
    ensures NewProductReset == InitialDefaults
  {
  }

  /**
   * The reset for an existing product: each field is the product's value
   * or, when falsy, the same default the form starts with (so a stored 0
   * stock threshold becomes 5, 100 or 10); `isActive` is kept unless
   * undefined.
   */
  function EditReset(product: Record): (r: Record)
    ensures r.Keys == InitialDefaults.Keys
    ensures forall k :: k in InitialDefaults && k != "isActive" ==>
      r[k] == (if Truthy(Get(product, k)) then product[k] else InitialDefaults[k])
    ensures r["isActive"] == (if "isActive" in product && !product["isActive"].Undefined? then product["isActive"] else Bool(true))
  {
    Fill(product, InitialDefaults)["isActive" := DefinedOr(Get(product, "isActive"), Bool(true))]
  }

  /** The effect on `[product, open]`: edit reset with a product, new-product reset without. */
  function ResetOnOpen(product: Option<Record>): (r: Record)
    ensures product.None? ==> r == InitialDefaults
    ensures product.Some? ==> r == EditReset(product.value)
    ensures r.Keys == InitialDefaults.Keys
  {
    if product.Some? then EditReset(product.value) else NewProductReset
  }

  /** Reopening the untouched form of a new product as an edit changes nothing. */
  lemma EditResetOfDefaults()
    ensures EditReset(InitialDefaults) == InitialDefaults
  {
    FillFromDefaults(InitialDefaults);
  }

  /** A stored 0 in a threshold field is replaced by the form's default. */
  lemma ZeroThresholdBecomesDefault(product: Record, k: string)
    requires k in {"wholesaleMinQuantity", "minStock", "maxStock", "reorderPoint"}
    requires Get(product, k) == Num(0)
    ensures EditReset(product)[k] == InitialDefaults[k] != Num(0)
  {
  }

  const NullableFields: set<string> := {
    "categoryId", "brandId", "productTypeId", "unitTypeId", "barcode",
    "alcoholPercentage", "volumeMl", "wholesalePrice"}

  /** `cleanData` in `onSubmit`: the eight optional fields become null when falsy, the rest pass through. */
  function CleanData(data: Record): (r: Record)
    ensures r.Keys == data.Keys + NullableFields
    ensures forall k :: k in NullableFields ==> r[k] == (if Truthy(Get(data, k)) then data[k] else Null)
    ensures forall k :: k in data && !(k in NullableFields) ==> r[k] == data[k]
  {
    NullFalsy(data, NullableFields)
  }

  /** The field rules: barcode and name present, both prices present and not negative. */
  predicate Submittable(data: Record) {
    && RequiredOk(Get(data, "barcode")) && RequiredOk(Get(data, "name"))
    && RequiredOk(Get(data, "purchasePrice")) && MinOk(Get(data, "purchasePrice"), 0)
    && RequiredOk(Get(data, "retailPrice")) && MinOk(Get(data, "retailPrice"), 0)
  }

  /** A submittable form, whose barcode is text, saves its barcode as typed rather than null. */
  lemma CleanKeepsRequiredBarcode(data: Record)
    requires Submittable(data) && Get(data, "barcode").Str?
    ensures CleanData(data)["barcode"] == data["barcode"] != Null
  {
  }

  /**
   * `handleBarcodeBlur`: the check runs with a checker, when not editing,
   * on a non-empty code (the truthiness and the length test agree on text).
   */
  function BlurChecks(hasChecker: bool, editing: bool, barcode: string): (fires: bool)
    ensures fires <==> hasChecker && !editing && barcode != ""
  {
    hasChecker && !editing && Truthy(Str(barcode)) && |barcode| >= 1
  }

  /** `handleBarcodeScan`: the scanned code goes into the form and is checked when not editing, empty or not. */
  function ScanFill(values: Record, barcode: string, hasChecker: bool, editing: bool): (r: (Record, bool))
    ensures r.0.Keys == values.Keys + {"barcode"} && r.0["barcode"] == Str(barcode)
    ensures forall k :: k in values && k != "barcode" ==> r.0[k] == values[k]
    ensures r.1 <==> hasChecker && !editing
  {
    (values["barcode" := Str(barcode)], hasChecker && !editing)
  }
}
