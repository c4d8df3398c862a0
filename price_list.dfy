/**
 * The price list page (src/pages/PriceList.jsx): its configuration, and
 * the tables `generatePDF` lays out, grouped by category or brand or as
 * one flat table. The PDF library is not modelled: a table is its title,
 * position, header, body and column widths, and where each table ends on
 * the page is a parameter.
 */
module PriceList {

  import opened Common
  import opened Js

  /** The fields of a listed product the tables read; `category` and `brand` hold the related object's `name`, if any. */
  datatype PriceProduct = PriceProduct(
    barcode: JsValue,
    name: JsValue,
    volumeMl: JsValue,
    retailPrice: JsValue,
    wholesalePrice: JsValue,
    wholesaleMinQuantity: JsValue,
    currentStock: JsValue,
    category: Option<JsValue>,
    brand: Option<JsValue>)

  datatype Group = Group(groupName: string, products: seq<PriceProduct>)

  /** `data.products`: missing, an array, or an object whose values (in order) are groups. */
  datatype Products = Absent | ProductList(items: seq<PriceProduct>) | GroupMap(groups: seq<Group>)

  datatype PriceData = PriceData(grouped: bool, products: Products)

  /** A column's `cellWidth`. */
  datatype Width = Fixed(mm: int) | Auto

  datatype Table = Table(title: string, titleY: int, startY: int, head: seq<string>, body: seq<seq<JsValue>>, styles: map<int, Width>)

  datatype PdfOutcome =
    | NoProductsWarning
    | Failed
    | GroupedDoc(tables: seq<Table>, pagesAdded: nat)
    | FlatDoc(table: Table)

  // ---------------------------------------------------------------- cells

  /** Decimal text of an amount in cents with two decimals, as `toFixed(2)` shows it. */
  function CentsText(c: int): (r: string)
    ensures |r| >= 4 && r[|r| - 3] == '.'
  {
    var a := if c < 0 then -c else c;
    (if c < 0 then "-" else "") + Digits(a / 100) + "." + [DigitChar(a % 100 / 10), DigitChar(a % 10)]
  }

  /** `$${parseFloat(v).toFixed(2)}` */
  function PriceText(v: JsValue): string {
    var p := ParseNumber(v);
    "$" + (if p.Num? then CentsText(p.n) else "NaN")
  }

  /** The cells every layout starts with, after the category and brand in the flat one. */
  function VolumeCell(p: PriceProduct): JsValue {
    if Truthy(p.volumeMl) then Str(Render(p.volumeMl) + " ml") else Str("-")
  }

  /** The wholesale price and minimum quantity, or two dashes when no wholesale price is set. */
  function WholesaleCells(p: PriceProduct): (r: seq<JsValue>)
    ensures |r| == 2
    ensures !Truthy(p.wholesalePrice) <==> r == [Str("-"), Str("-")]
    ensures Truthy(p.wholesalePrice) ==>
      r == [Str(PriceText(p.wholesalePrice)), Str(Render(Or(p.wholesaleMinQuantity, Num(12))) + " pzs")]
  {
    if Truthy(p.wholesalePrice) then
      [Str(PriceText(p.wholesalePrice)), Str(Render(Or(p.wholesaleMinQuantity, Num(12))) + " pzs")]
    else
      [Str("-"), Str("-")]
  }

  function NameOr(related: Option<JsValue>): JsValue {
    if related.Some? then Or(related.value, Str("-")) else Str("-")
  }

  /** A product's row. */
  function Row(grouped: bool, w: bool, s: bool, p: PriceProduct): seq<JsValue> {
    (if grouped then
       [Or(p.barcode, Str("-")), p.name, VolumeCell(p), Str(PriceText(p.retailPrice))]
     else
       [Or(p.barcode, Str("-")), p.name, NameOr(p.category), NameOr(p.brand), VolumeCell(p), Str(PriceText(p.retailPrice))])
    + (if w then WholesaleCells(p) else [])
    + (if s then [Or(p.currentStock, Num(0))] else [])
  }

  function Rows(grouped: bool, w: bool, s: bool, ps: seq<PriceProduct>): (r: seq<seq<JsValue>>)
    ensures |r| == |ps|
    ensures forall j :: 0 <= j < |ps| ==> r[j] == Row(grouped, w, s, ps[j])
  {
    seq(|ps|, j requires 0 <= j < |ps| => Row(grouped, w, s, ps[j]))
  }

  /** The header texts. */
  function Headers(grouped: bool, w: bool, s: bool): seq<string> {
    (if grouped then ["Código", "Producto", "Contenido", "Precio"]
     else ["Código", "Producto", "Categoría", "Marca", "Contenido", "Precio"])
    + (if w then ["Mayoreo", "Mín."] else [])
    + (if s then ["Stock"] else [])
  }

  /** The column widths in order; `ColumnStyles` builds them into a map keyed by column. */
  function Widths(grouped: bool, w: bool, s: bool): seq<Width> {
    if grouped then
      [Fixed(25), Auto, Fixed(20), Fixed(20)]
      + (if w then [Fixed(20), Fixed(15)] else []) + (if s then [Fixed(15)] else [])
    else
      [Fixed(20), Auto, Fixed(25), Fixed(25), Fixed(18), Fixed(18)]
      + (if w then [Fixed(18), Fixed(12)] else []) + (if s then [Fixed(12)] else [])
  }

  function Count(b: bool): nat {
    if b then 1 else 0
  }

  /**
   * The row, the header and the widths have the same number of columns:
   * 4 grouped or 6 flat, plus 2 for wholesale and 1 for stock.
   */
  lemma WidthsAgree(grouped: bool, w: bool, s: bool, p: PriceProduct)
    ensures var n := (if grouped then 4 else 6) + 2 * Count(w) + Count(s);
      |Row(grouped, w, s, p)| == n && |Headers(grouped, w, s)| == n && |Widths(grouped, w, s)| == n
  {
  }

  /**
   * Each cell sits under its header: the code, the retail price, the
   * wholesale pair and the stock are where their headers are.
   */
  lemma ColumnsAlign(grouped: bool, w: bool, s: bool, p: PriceProduct, i: int)
    requires 0 <= i < |Headers(grouped, w, s)|
    ensures Headers(grouped, w, s)[i] == "Código" ==> Row(grouped, w, s, p)[i] == Or(p.barcode, Str("-"))
    ensures Headers(grouped, w, s)[i] == "Precio" ==> Row(grouped, w, s, p)[i] == Str(PriceText(p.retailPrice))
    ensures Headers(grouped, w, s)[i] == "Mayoreo" ==> Row(grouped, w, s, p)[i] == WholesaleCells(p)[0]
    ensures Headers(grouped, w, s)[i] == "Mín." ==> Row(grouped, w, s, p)[i] == WholesaleCells(p)[1]
    ensures Headers(grouped, w, s)[i] == "Stock" ==> Row(grouped, w, s, p)[i] == Or(p.currentStock, Num(0))
  {
    var base := if grouped then 4 else 6;
    WidthsAgree(grouped, w, s, p);
    var h := Headers(grouped, w, s);
    var r := Row(grouped, w, s, p);
    if i < base {
    } else if w && i < base + 2 {
      assert r[i] == WholesaleCells(p)[i - base];
    } else {
      assert s && i == base + 2 * Count(w);
      assert h[i] == "Stock";
    }
  }

  /** `columnStyles`, filled with a running `colIndex` as the component does. */
  method ColumnStyles(grouped: bool, w: bool, s: bool) returns (styles: map<int, Width>)
    ensures styles == map i | 0 <= i < |Widths(grouped, w, s)| :: Widths(grouped, w, s)[i]
    ensures forall i :: i in styles <==> 0 <= i < |Headers(grouped, w, s)|
  {
    var colIndex := 0;
    if grouped {
      styles := map[colIndex := Fixed(25)];
      colIndex := colIndex + 1;
      styles := styles[colIndex := Auto];
      colIndex := colIndex + 1;
      styles := styles[colIndex := Fixed(20)];
      colIndex := colIndex + 1;
      styles := styles[colIndex := Fixed(20)];
      colIndex := colIndex + 1;
    } else {
      styles := map[colIndex := Fixed(20)];
      colIndex := colIndex + 1;
      styles := styles[colIndex := Auto];
      colIndex := colIndex + 1;
      styles := styles[colIndex := Fixed(25)];
      colIndex := colIndex + 1;
      styles := styles[colIndex := Fixed(25)];
      colIndex := colIndex + 1;
      styles := styles[colIndex := Fixed(18)];
      colIndex := colIndex + 1;
      styles := styles[colIndex := Fixed(18)];
      colIndex := colIndex + 1;
    }
    if w {
      styles := styles[colIndex := if grouped then Fixed(20) else Fixed(18)];
      colIndex := colIndex + 1;
      styles := styles[colIndex := if grouped then Fixed(15) else Fixed(12)];
      colIndex := colIndex + 1;
    }
    if s {
      styles := styles[colIndex := if grouped then Fixed(15) else Fixed(12)];
      colIndex := colIndex + 1;
    }
    assert |Headers(grouped, w, s)| == |Widths(grouped, w, s)| == colIndex;
  }

  // ---------------------------------------------------------------- layout

  /** The cursor when group `i` is reached: 30 for the first, 10 below the previous table after that. */
  function CursorBefore(ends: seq<int>, i: nat): int
    requires i <= |ends|
  {
    if i == 0 then 30 else ends[i - 1] + 10
  }

  /** Where group `i`'s title goes: a cursor past 250 starts a new page at 20. */
  function TitleY(ends: seq<int>, i: nat): (y: int)
    requires i <= |ends|
    ensures y <= 250
    ensures y == 20 <==> CursorBefore(ends, i) > 250 || CursorBefore(ends, i) == 20
    ensures CursorBefore(ends, i) <= 250 ==> y == CursorBefore(ends, i)
    ensures CursorBefore(ends, i) > 250 ==> y == 20
  {
    if CursorBefore(ends, i) > 250 then 20 else CursorBefore(ends, i)
  }

  /** How many of the first `n` groups start a new page. */
  function Breaks(ends: seq<int>, n: nat): (b: nat)
    requires n <= |ends|
    ensures b <= n
  {
    if n == 0 then 0 else Breaks(ends, n - 1) + Count(CursorBefore(ends, n - 1) > 250)
  }

  function GroupTable(groups: seq<Group>, ends: seq<int>, w: bool, s: bool, i: nat): Table
    requires i < |groups| && |ends| == |groups|
  {
    Table(groups[i].groupName, TitleY(ends, i), TitleY(ends, i) + 8,
      Headers(true, w, s), Rows(true, w, s, groups[i].products),
      map c | 0 <= c < |Widths(true, w, s)| :: Widths(true, w, s)[c])
  }

  /** The empty-data guard: no products, an empty array, or an object without keys. */
  predicate NoProducts(p: Products) {
    p.Absent? || (p.ProductList? && |p.items| == 0) || (p.GroupMap? && |p.groups| == 0)
  }

  /**
   * `generatePDF` once the server has answered `data`; `ends[i]` is where
   * the PDF library reports that group `i`'s table ends. A grouped answer
   * holding an array, or a flat answer holding groups, throws inside the
   * `try` and ends as a failure.
   */
  method GeneratePdf(data: PriceData, config: Record, ends: seq<int>) returns (out: PdfOutcome)
    requires data.grouped && data.products.GroupMap? ==> |ends| == |data.products.groups|
    ensures out.NoProductsWarning? <==> NoProducts(data.products)
    ensures out.Failed? <==>
      !NoProducts(data.products) && (data.grouped != data.products.GroupMap?)
    ensures out.GroupedDoc? ==> (
      && data.grouped && data.products.GroupMap?
      && var groups := data.products.groups;
         var w, s := Truthy(Get(config, "includeWholesale")), Truthy(Get(config, "includeStock"));
         && |out.tables| == |groups|
         && (forall i :: 0 <= i < |groups| ==> out.tables[i] == GroupTable(groups, ends, w, s, i))
         && out.pagesAdded == Breaks(ends, |groups|))
    ensures out.FlatDoc? ==> (
      && !data.grouped && data.products.ProductList?
      && var w, s := Truthy(Get(config, "includeWholesale")), Truthy(Get(config, "includeStock"));
         && out.table.head == Headers(false, w, s)
         && out.table.body == Rows(false, w, s, data.products.items)
         && out.table.styles == (map c | 0 <= c < |Widths(false, w, s)| :: Widths(false, w, s)[c])
         && out.table.startY == 30)
  {
    if NoProducts(data.products) {
      return NoProductsWarning;
    }
    var w, s := Truthy(Get(config, "includeWholesale")), Truthy(Get(config, "includeStock"));
    var yPosition := 30;
    if data.grouped {
      if !data.products.GroupMap? {
        return Failed;
      }
      var groups := data.products.groups;
      var tables: seq<Table> := [];
      var pagesAdded: nat := 0;
      var i := 0;
      while i < |groups|
        invariant 0 <= i <= |groups|
        invariant yPosition == CursorBefore(ends, i)
        invariant pagesAdded == Breaks(ends, i)
        invariant |tables| == i
        invariant forall t :: 0 <= t < i ==> tables[t] == GroupTable(groups, ends, w, s, t)
      {
        if yPosition > 250 {
          pagesAdded := pagesAdded + 1;
          yPosition := 20;
        }
        var titleY := yPosition;
        yPosition := yPosition + 8;
        var styles := ColumnStyles(true, w, s);
        tables := tables + [Table(groups[i].groupName, titleY, yPosition,
          Headers(true, w, s), Rows(true, w, s, groups[i].products), styles)];
        yPosition := ends[i] + 10;
        i := i + 1;
      }
      return GroupedDoc(tables, pagesAdded);
    }
    if !data.products.ProductList? {
      return Failed;
    }
    var styles := ColumnStyles(false, w, s);
    out := FlatDoc(Table("", 0, yPosition, Headers(false, w, s), Rows(false, w, s, data.products.items), styles));
  }

  // ---------------------------------------------------------------- configuration

  const InitialConfig: Record := map[
    "groupBy" := Str("category"), "sortBy" := Str("name"), "sortOrder" := Str("ASC"),
    "categoryId" := Str(""), "brandId" := Str(""), "productTypeId" := Str(""),
    "includeStock" := Bool(false), "includeWholesale" := Bool(true)]

  class PriceListPage {
    var config: Record

    constructor ()
      ensures config == InitialConfig
    {
      config := InitialConfig;
    }

    /** `handleConfigChange(field, value)` */
    method ChangeConfig(field: string, value: JsValue)
      modifies this
      ensures config.Keys == old(config).Keys + {field} && config[field] == value
      ensures forall k :: k in old(config) && k != field ==> config[k] == old(config)[k]
    {
      config := config[field := value];
    }

    /** The "Limpiar" button. */
    method ResetConfig()
      modifies this
      ensures config == InitialConfig
    {
      config := InitialConfig;
    }
  }
}
