/**
 * The products page (src/pages/Products.jsx): the full record it sends for
 * a quick restock, the stock badge, the card pagination, the filter and
 * search resets and the barcode check that opens the restock dialog.
 */
module ProductsPage {

  import opened Common
  import opened Js
  import QuickStock

  /** The fields `handleQuickStockUpdate` copies from the product before the dialog's update. */
  const CopiedFields: seq<string> := [
    "barcode", "name", "description", "categoryId", "brandId", "productTypeId",
    "unitTypeId", "alcoholPercentage", "volumeMl", "wholesaleMinQuantity",
    "minStock", "maxStock", "reorderPoint", "isActive"]

  /**
   * `{ barcode: existing.barcode, …, ...update }`: every key of the update
   * wins; each copied field it does not set comes from the product
   * (`undefined` when the product lacks it), and nothing else is sent.
   */
  function QuickStockMerge(existing: Record, update: Record): (r: Record)
    ensures r.Keys == (set k | k in CopiedFields) + update.Keys
    ensures forall k :: k in update ==> r[k] == update[k]
    ensures forall k :: k in CopiedFields && !(k in update) ==> r[k] == Get(existing, k)
  {
    (map k | k in CopiedFields :: Get(existing, k)) + update
  }

  /**
   * The record sent for a restock: the dialog's prices and raised stock,
   * and every other copied field of the product unchanged.
   */
  lemma RestockRecord(existing: Record, f: QuickStock.StockForm)
    ensures var r := QuickStockMerge(existing, QuickStock.Payload(existing, f));
      && r.Keys == (set k | k in CopiedFields) + QuickStock.UpdateKeys
      && r["currentStock"] == QuickStock.Payload(existing, f)["currentStock"]
      && r["retailPrice"] == ParseNumber(f.retailPrice)
      && (forall k :: k in CopiedFields ==> r[k] == Get(existing, k))
  {
    var u := QuickStock.Payload(existing, f);
    forall k | k in CopiedFields
      ensures !(k in u)
    {
    }
  }

  /** The stock chip's colour. */
  function BadgeColor(stock: int, minStock: int): (c: string)
    ensures c == "error" <==> stock <= minStock
    ensures c == "success" <==> stock > minStock
  {
    if stock <= minStock then "error" else "success"
  }

  /** `Math.ceil(total / pageSize)` */
  function PageCount(total: nat, pageSize: nat): (n: nat)
    requires pageSize > 0
    ensures n * pageSize >= total
    ensures n == 0 || (n - 1) * pageSize < total
  {
    (total + pageSize - 1) / pageSize
  }

  predicate PrevDisabled(page: int) {
    page == 0
  }

  predicate NextDisabled(page: int, total: nat, pageSize: nat)
    requires pageSize > 0
  {
    page >= PageCount(total, pageSize) - 1
  }

  /**
   * The card buttons keep the page inside the result: "next" is enabled
   * exactly when a later page holds products, and "previous" when the page
   * is not the first.
   */
  lemma {:induction false} NavigationStaysInRange(page: int, total: nat, pageSize: nat)
    requires pageSize > 0 && 0 <= page
    ensures !NextDisabled(page, total, pageSize) <==> (page + 1) * pageSize < total
    ensures !PrevDisabled(page) ==> page - 1 >= 0
  {
    var n := PageCount(total, pageSize);
    if page + 1 < n {
      calc {
        (page + 1) * pageSize;
      <= { MulMonotone(page + 1, n - 1, pageSize); }
        (n - 1) * pageSize;
      <  total;
      }
    } else {
      MulMonotone(n, page + 1, pageSize);
    }
  }

  lemma {:induction false} MulMonotone(a: nat, b: nat, c: nat)
    requires a <= b
    ensures a * c <= b * c
  {
    if a < b {
      MulMonotone(a, b - 1, c);
      assert b * c == (b - 1) * c + c;
    }
  }

  /** The query `loadProducts` sends: the server counts pages from 1. */
  datatype Query = Query(page: int, limit: int, search: string, categoryId: string, brandId: string, productTypeId: string)

  /** What the barcode lookup answered: a product, no product, or an error. */
  datatype BarcodeReply = ProductFound(product: Record) | NoProduct | LookupError

  class ProductsPage {
    var page: int
    var pageSize: int
    var total: nat
    var search: string
    var categoryId: string
    var brandId: string
    var productTypeId: string
    var dialogOpen: bool
    var quickStockOpen: bool
    var existingProduct: Option<Record>

    constructor ()
      ensures page == 0 && pageSize == 25 && total == 0 && search == ""
      ensures categoryId == "" && brandId == "" && productTypeId == ""
      ensures !dialogOpen && !quickStockOpen && existingProduct == None
    {
      page, pageSize, total, search := 0, 25, 0, "";
      categoryId, brandId, productTypeId := "", "", "";
      dialogOpen, quickStockOpen, existingProduct := false, false, None;
    }

    /** The parameters of `loadProducts`. */
    function LoadQuery(): (q: Query)
      reads this
      ensures q.page == page + 1
    {
      Query(page + 1, pageSize, search, categoryId, brandId, productTypeId)
    }

    method SetCategoryFilter(v: string)
      modifies this`categoryId, this`page
      ensures categoryId == v && page == 0
      ensures LoadQuery() == old(LoadQuery()).(page := 1, categoryId := v)
    {
      categoryId := v;
      page := 0;
    }

    method SetBrandFilter(v: string)
      modifies this`brandId, this`page
      ensures brandId == v && page == 0
      ensures LoadQuery() == old(LoadQuery()).(page := 1, brandId := v)
    {
      brandId := v;
      page := 0;
    }

    method SetProductTypeFilter(v: string)
      modifies this`productTypeId, this`page
      ensures productTypeId == v && page == 0
      ensures LoadQuery() == old(LoadQuery()).(page := 1, productTypeId := v)
    {
      productTypeId := v;
      page := 0;
    }

    /** Typing in the search box: only the text changes, nothing is loaded. */
    method SetSearch(text: string)
      modifies this`search
      ensures search == text
    {
      search := text;
    }

    /**
     * A reply to `loadProducts`: the total it reports replaces the old one;
     * a failed load (None) leaves it.
     */
    method Loaded(reply: Option<nat>)
      modifies this`total
      ensures reply.Some? ==> total == reply.value
      ensures reply.None? ==> total == old(total)
    {
      if reply.Some? {
        total := reply.value;
      }
    }

    /**
     * `handleSearch` (clear false) and `handleClearSearch` (clear true):
     * back to page 0, the search emptied by the latter, and the queries
     * sent, in order. Each handler calls the `loadProducts` of the render
     * it belongs to, which still holds the old page and search; the effect
     * on the page reloads with the new state only when the page was not
     * already 0. So clearing on the first page reloads with the old search.
     */
    method HandleSearch(clear: bool) returns (loads: seq<Query>)
      modifies this`search, this`page
      ensures page == 0 && search == (if clear then "" else old(search))
      ensures var effect := if old(page) != 0 then [LoadQuery()] else [];
        loads == if clear then effect + [old(LoadQuery())] else [old(LoadQuery())] + effect
      ensures clear && old(page) == 0 ==> |loads| == 1 && loads[0].search == old(search)
      ensures clear && old(page) != 0 ==> loads[0].search == "" && loads[|loads| - 1].search == old(search)
    {
      var stale := LoadQuery();
      if clear {
        search := "";
      }
      var moved := page != 0;
      page := 0;
      var effect := if moved then [LoadQuery()] else [];
      loads := if clear then effect + [stale] else [stale] + effect;
    }

    /** The card view's "next" button, which is enabled only when a later page exists. */
    method NextPage()
      requires pageSize > 0 && 0 <= page && !NextDisabled(page, total, pageSize)
      modifies this`page
      ensures page == old(page) + 1 && page * pageSize < total
    {
      NavigationStaysInRange(page, total, pageSize);
      page := page + 1;
    }

    /** The card view's "previous" button. */
    method PrevPage()
      requires 0 <= page && !PrevDisabled(page)
      modifies this`page
      ensures page == old(page) - 1 && page >= 0
    {
      page := page - 1;
    }

    /**
     * `handleBarcodeCheck(barcode)` once the lookup has answered `reply`:
     * an empty code asks nothing; a found product replaces the product
     * dialog with the restock dialog.
     */
    method HandleBarcodeCheck(barcode: string, reply: BarcodeReply) returns (lookedUp: bool)
      modifies this`existingProduct, this`dialogOpen, this`quickStockOpen
      ensures lookedUp <==> barcode != ""
      ensures lookedUp && reply.ProductFound? ==>
        existingProduct == Some(reply.product) && !dialogOpen && quickStockOpen
      ensures lookedUp && reply.LookupError? ==>
        existingProduct == None && dialogOpen == old(dialogOpen) && quickStockOpen == old(quickStockOpen)
      ensures !lookedUp || reply.NoProduct? ==> unchanged(this`existingProduct, this`dialogOpen, this`quickStockOpen)
    {
      if |barcode| < 1 {
        return false;
      }
      lookedUp := true;
      match reply {
        case ProductFound(p) =>
          existingProduct := Some(p);
          dialogOpen := false;
          quickStockOpen := true;
        case NoProduct =>
        case LookupError =>
          existingProduct := None;
      }
    }

    /**
     * `handleQuickStockUpdate(update)`: `sent` is the record handed to the
     * update service and `saved` whether it succeeded; only then does the
     * dialog close and forget the product.
     */
    method QuickStockUpdate(update: Record, saved: bool) returns (sent: Record)
      requires existingProduct.Some?
      modifies this`quickStockOpen, this`existingProduct
      ensures sent == QuickStockMerge(old(existingProduct).value, update)
      ensures saved ==> !quickStockOpen && existingProduct == None
      ensures !saved ==> unchanged(this`quickStockOpen, this`existingProduct)
    {
      sent := QuickStockMerge(existingProduct.value, update);
      if saved {
        quickStockOpen := false;
        existingProduct := None;
      }
    }

    /** The restock dialog's `onClose`. */
    method CloseQuickStock()
      modifies this`quickStockOpen, this`existingProduct
      ensures !quickStockOpen && existingProduct == None
    {
      quickStockOpen := false;
      existingProduct := None;
    }
  }

  /**
   * A run of events: once a load reports 30 products, "next" is enabled
   * on the first page of 25 and disabled on the second; clearing the
   * search there reloads twice, the stale request last.
   */
  method PagingScenario()
  {
    var pg := new ProductsPage();
    pg.Loaded(Some(30));
    NavigationStaysInRange(0, 30, 25);
    pg.NextPage();
    assert pg.page == 1;
    NavigationStaysInRange(1, 30, 25);
    assert NextDisabled(pg.page, pg.total, pg.pageSize);
    pg.SetSearch("ron");
    var loads := pg.HandleSearch(true);
    assert |loads| == 2 && loads[0].search == "" && loads[1].search == "ron" && loads[1].page == 2;
  }
}
