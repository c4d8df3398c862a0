/**
 * The quick restock dialog (src/components/products/QuickStockDialog.jsx):
 * the form it resets to when opened on a product, its field rules, the
 * stock preview and the update it hands to its `onSave`.
 */
module QuickStock {

  import opened Common
  import opened Js
  import opened FormRules

  /** The form's four fields, as react-hook-form holds them. */
  datatype StockForm = StockForm(stockToAdd: JsValue, purchasePrice: JsValue, retailPrice: JsValue, wholesalePrice: JsValue)

  /** `useForm`'s default values, which a bare `reset()` also restores. */
  const DefaultForm: StockForm := StockForm(Num(0), Str(""), Str(""), Str(""))

  /** The values a number input can hold: a number, or its typed text, or nothing. */
  predicate NumberInput(v: JsValue) {
    v.Num? || v.NumText? || v == Str("")
  }

  /** The reset on opening with a product: nothing to add yet, each price from the product or ''. */
  function ResetFor(product: Record): (f: StockForm)
    ensures f.stockToAdd == Num(0)
    ensures Truthy(Get(product, "purchasePrice")) ==> f.purchasePrice == Get(product, "purchasePrice")
    ensures !Truthy(Get(product, "purchasePrice")) ==> f.purchasePrice == Str("")
    ensures Truthy(Get(product, "retailPrice")) ==> f.retailPrice == Get(product, "retailPrice")
    ensures !Truthy(Get(product, "retailPrice")) ==> f.retailPrice == Str("")
    ensures Truthy(Get(product, "wholesalePrice")) ==> f.wholesalePrice == Get(product, "wholesalePrice")
    ensures !Truthy(Get(product, "wholesalePrice")) ==> f.wholesalePrice == Str("")
    ensures Truthy(f.purchasePrice) == Truthy(Get(product, "purchasePrice"))
  {
    StockForm(
      Num(0),
      Or(Get(product, "purchasePrice"), Str("")),
      Or(Get(product, "retailPrice"), Str("")),
      Or(Get(product, "wholesalePrice"), Str("")))
  }

  /**
   * The effect on `[product, open]`: it resets only when a product is given
   * and the dialog is open; otherwise the form keeps its values.
   */
  function OnOpen(product: Option<Record>, open: bool, current: StockForm): (f: StockForm)
    ensures product.Some? && open ==> f == ResetFor(product.value)
    ensures product.None? || !open ==> f == current
  {
    if product.Some? && open then ResetFor(product.value) else current
  }

  /** The dialog renders only with a product. */
  predicate Renders(product: Option<Record>) {
    product.Some?
  }

  /**
   * The field rules: at least one unit to add, and both prices present and
   * not negative; the wholesale price has no rule.
   */
  predicate Submittable(f: StockForm) {
    && RequiredOk(f.stockToAdd) && MinOk(f.stockToAdd, 1)
    && RequiredOk(f.purchasePrice) && MinOk(f.purchasePrice, 0)
    && RequiredOk(f.retailPrice) && MinOk(f.retailPrice, 0)
  }

  const UpdateKeys: set<string> := {"purchasePrice", "retailPrice", "wholesalePrice", "currentStock"}

  /**
   * `updateData`: the prices as parsed, the wholesale price or null when
   * its field is empty, and the stock raised by the quantity to add.
   */
  function Payload(product: Record, f: StockForm): (u: Record)
    ensures u.Keys == UpdateKeys
    ensures u["purchasePrice"] == ParseNumber(f.purchasePrice) && u["retailPrice"] == ParseNumber(f.retailPrice)
    ensures u["wholesalePrice"] == Null <==> !Truthy(f.wholesalePrice)
    ensures Truthy(f.wholesalePrice) ==> u["wholesalePrice"] == ParseNumber(f.wholesalePrice)
    ensures var stock := Get(product, "currentStock");
      && (u["currentStock"].Num? <==> NumericValue(stock).Some? && NumberOf(f.stockToAdd).Some?)
      && (u["currentStock"].Num? ==> u["currentStock"].n == NumericValue(stock).value + NumberOf(f.stockToAdd).value)
      && (Concatenates(stock) ==> u["currentStock"] == Str(Render(stock) + Render(ParseNumber(f.stockToAdd))))
  {
    map[
      "purchasePrice" := ParseNumber(f.purchasePrice),
      "retailPrice" := ParseNumber(f.retailPrice),
      "wholesalePrice" := if Truthy(f.wholesalePrice) then ParseNumber(f.wholesalePrice) else Null,
      "currentStock" := Add(Get(product, "currentStock"), ParseNumber(f.stockToAdd))]
  }

  /** The "new stock" preview: an unparsable quantity counts as 0. */
  function PreviewStock(currentStock: int, stockToAdd: JsValue): (r: int)
    ensures NumberOf(stockToAdd).None? ==> r == currentStock
  {
    currentStock + NumberOf(stockToAdd).GetOr(0)
  }

  /**
   * A submittable form, whose quantity field holds a number, sends a
   * stock strictly above the current one, equal to the preview.
   */
  lemma SubmittedStockRaisesAndMatchesPreview(product: Record, f: StockForm)
    requires Get(product, "currentStock").Num?
    requires Submittable(f) && NumberInput(f.stockToAdd)
    ensures Payload(product, f)["currentStock"] == Num(PreviewStock(Get(product, "currentStock").n, f.stockToAdd))
    ensures Payload(product, f)["currentStock"].n > Get(product, "currentStock").n
  {
  }

  /** Submittable prices reach the update as numbers, not below zero. */
  lemma SubmittedPricesAreNumbers(product: Record, f: StockForm)
    requires Submittable(f) && NumberInput(f.purchasePrice) && NumberInput(f.retailPrice)
    ensures Payload(product, f)["purchasePrice"].Num? && Payload(product, f)["purchasePrice"].n >= 0
    ensures Payload(product, f)["retailPrice"].Num? && Payload(product, f)["retailPrice"].n >= 0
  {
  }

  /**
   * Opening on a product with positive prices and submitting after entering
   * a quantity sends back the product's own prices; a wholesale price of 0
   * or none becomes null.
   */
  lemma ResetKeepsPricesThroughSubmit(product: Record, quantity: JsValue)
    requires Get(product, "purchasePrice").Num? && Get(product, "purchasePrice").n > 0
    requires Get(product, "retailPrice").Num? && Get(product, "retailPrice").n > 0
    requires Get(product, "wholesalePrice").Num? || !Truthy(Get(product, "wholesalePrice"))
    ensures var u := Payload(product, ResetFor(product).(stockToAdd := quantity));
      && u["purchasePrice"] == Get(product, "purchasePrice")
      && u["retailPrice"] == Get(product, "retailPrice")
      && u["wholesalePrice"] == (if Truthy(Get(product, "wholesalePrice")) then Get(product, "wholesalePrice") else Null)
  {
  }

  /**
   * A purchase price of 0 is falsy, so the reset leaves its field empty and
   * the form cannot be submitted until a price is typed again.
   */
  lemma ZeroPurchasePriceBlocksRestock(product: Record, quantity: JsValue)
    requires Get(product, "purchasePrice") == Num(0)
    ensures !Submittable(ResetFor(product).(stockToAdd := quantity))
  {
  }

  /**
   * The form as reset on opening cannot be submitted: the quantity to add
   * starts at 0, below the rule's minimum of 1.
   */
  lemma ResetFormNeedsQuantity(product: Record)
    ensures !Submittable(ResetFor(product))
    ensures !Submittable(DefaultForm)
  {
  }
}
