/**
 * The rules of the point-of-sale cart (src/pages/POS.jsx) as functions of
 * the cart and the controller state: pricing and totals, the add, quantity
 * and remove steps, the barcode lookup, the checkout checks and payload, and
 * the saved snapshot. Money is in integer cents.
 */
module PosCart {

  import opened Common

  /** The product fields a cart line keeps from the search result. */
  datatype Product = Product(
    id: int,
    name: string,
    barcode: string,
    retailPrice: int,
    wholesalePrice: Option<int>,
    currentStock: int,
    isActive: bool)

  datatype Line = Line(product: Product, quantity: int, discount: int)

  datatype Customer = Customer(id: int, name: string)

  const Retail: string := "retail"
  const Wholesale: string := "wholesale"

  // ---------------------------------------------------------------- pricing

  /** The wholesale price counts as set only when present and non-zero. */
  predicate HasWholesalePrice(p: Product) {
    p.wholesalePrice.Some? && p.wholesalePrice.value != 0
  }

  function UnitPrice(p: Product, saleType: string): int {
    if saleType == Wholesale && HasWholesalePrice(p) then p.wholesalePrice.value else p.retailPrice
  }

  function LineAmount(l: Line, saleType: string): int {
    UnitPrice(l.product, saleType) * l.quantity
  }

  /** The amount the cart list shows beside each line. */
  function ItemTotal(l: Line, saleType: string): int {
    LineAmount(l, saleType) - l.discount
  }

  function Subtotal(lines: seq<Line>, saleType: string): int {
    if lines == [] then 0 else Subtotal(lines[..|lines| - 1], saleType) + LineAmount(lines[|lines| - 1], saleType)
  }

  function DiscountTotal(lines: seq<Line>): int {
    if lines == [] then 0 else DiscountTotal(lines[..|lines| - 1]) + lines[|lines| - 1].discount
  }

  function SumItemTotals(lines: seq<Line>, saleType: string): int {
    if lines == [] then 0 else ItemTotal(lines[0], saleType) + SumItemTotals(lines[1..], saleType)
  }

  datatype Totals = Totals(subtotal: int, discount: int, total: int)

  /** `calculateTotals`: two left folds over the cart and their difference. */
  function ComputeTotals(lines: seq<Line>, saleType: string): Totals {
    var subtotal := Subtotal(lines, saleType);
    var discount := DiscountTotal(lines);
    Totals(subtotal, discount, subtotal - discount)
  }

  lemma {:induction false} ItemTotalsOfAppend(lines: seq<Line>, l: Line, saleType: string)
    ensures SumItemTotals(lines + [l], saleType) == SumItemTotals(lines, saleType) + ItemTotal(l, saleType)
  {
    if lines != [] {
      assert (lines + [l])[1..] == lines[1..] + [l];
      ItemTotalsOfAppend(lines[1..], l, saleType);
    }
  }

  /** The total under the list equals the sum of the amounts shown on its lines. */
  lemma {:induction false} TotalIsSumOfItemTotals(lines: seq<Line>, saleType: string)
    ensures ComputeTotals(lines, saleType).total == SumItemTotals(lines, saleType)
  {
    if lines != [] {
      var init := lines[..|lines| - 1];
      TotalIsSumOfItemTotals(init, saleType);
      ItemTotalsOfAppend(init, lines[|lines| - 1], saleType);
      assert init + [lines[|lines| - 1]] == lines;
    }
  }

  /** Appending a line adds its shown amount to the total. */
  lemma TotalOfAppend(lines: seq<Line>, l: Line, saleType: string)
    ensures ComputeTotals(lines + [l], saleType).total == ComputeTotals(lines, saleType).total + ItemTotal(l, saleType)
  {
    assert (lines + [l])[..|lines|] == lines;
  }

  /** Replacing one line changes the total by the difference of the two lines' amounts. */
  lemma {:induction false} TotalOfReplace(lines: seq<Line>, i: int, l: Line, saleType: string)
    requires 0 <= i < |lines|
    ensures ComputeTotals(lines[i := l], saleType).total
         == ComputeTotals(lines, saleType).total - ItemTotal(lines[i], saleType) + ItemTotal(l, saleType)
  {
    var n := |lines|;
    var init := lines[..n - 1];
    if i == n - 1 {
      assert lines[i := l][..n - 1] == init;
    } else {
      TotalOfReplace(init, i, l, saleType);
      assert lines[i := l][..n - 1] == init[i := l];
    }
  }

  /** Outside wholesale sales, or when no line has a wholesale price, every line is priced at retail. */
  lemma {:induction false} RetailPricing(lines: seq<Line>, saleType: string)
    requires saleType != Wholesale || forall k :: 0 <= k < |lines| ==> !HasWholesalePrice(lines[k].product)
    ensures ComputeTotals(lines, saleType) == ComputeTotals(lines, Retail)
  {
    if lines != [] {
      RetailPricing(lines[..|lines| - 1], saleType);
    }
  }

  // ---------------------------------------------------------------- cart lines

  /** `cart.findIndex(item => item.product.id === id)` */
  function FindLine(lines: seq<Line>, id: int): (i: int)
    ensures -1 <= i < |lines|
    ensures 0 <= i ==> lines[i].product.id == id
    ensures forall k :: 0 <= k < |lines| && (i < 0 || k < i) ==> lines[k].product.id != id
  {
    if lines == [] then -1
    else if lines[0].product.id == id then 0
    else
      var j := FindLine(lines[1..], id);
      if j < 0 then -1 else j + 1
  }

  /** At most one line per product id. */
  predicate UniqueIds(lines: seq<Line>) {
    forall j, k :: 0 <= j < k < |lines| ==> lines[j].product.id != lines[k].product.id
  }

  /** The cart invariant the steps keep: one line per product, every quantity at least 1. */
  predicate WellFormed(lines: seq<Line>) {
    UniqueIds(lines) && forall k :: 0 <= k < |lines| ==> lines[k].quantity >= 1
  }

  /** Each line's quantity within the stock its product snapshot records. */
  predicate WithinStock(lines: seq<Line>) {
    forall k :: 0 <= k < |lines| ==> lines[k].quantity <= lines[k].product.currentStock
  }

  /** A cart step: the cart afterwards and what the user is told. */
  datatype Step<O> = Step(cart: seq<Line>, outcome: O)

  datatype AddOutcome = Added | Incremented | StockInsufficient(available: int) | OutOfStock

  /** `addToCart(product)` */
  function AddToCart(lines: seq<Line>, p: Product): (r: Step<AddOutcome>)
    ensures r.outcome.Added? <==> FindLine(lines, p.id) < 0 && p.currentStock > 0
    ensures r.outcome.Added? ==> r.cart == lines + [Line(p, 1, 0)]
    ensures r.outcome.Incremented? ==>
      var i := FindLine(lines, p.id);
      0 <= i && r.cart == lines[i := lines[i].(quantity := lines[i].quantity + 1)]
      && r.cart[i].quantity <= p.currentStock
    ensures r.outcome.StockInsufficient? ==>
      0 <= FindLine(lines, p.id) && lines[FindLine(lines, p.id)].quantity + 1 > p.currentStock
    ensures r.outcome.StockInsufficient? || r.outcome.OutOfStock? ==> r.cart == lines
    ensures r.outcome.Incremented? <==>
      0 <= FindLine(lines, p.id) && lines[FindLine(lines, p.id)].quantity + 1 <= p.currentStock
    ensures r.outcome.StockInsufficient? <==>
      0 <= FindLine(lines, p.id) && lines[FindLine(lines, p.id)].quantity + 1 > p.currentStock
    ensures r.outcome.OutOfStock? <==> FindLine(lines, p.id) < 0 && p.currentStock <= 0
  {
    var i := FindLine(lines, p.id);
    if i >= 0 then
      var newQuantity := lines[i].quantity + 1;
      if newQuantity > p.currentStock then Step(lines, StockInsufficient(p.currentStock))
      else Step(lines[i := lines[i].(quantity := newQuantity)], Incremented)
    else if p.currentStock <= 0 then Step(lines, OutOfStock)
    else Step(lines + [Line(p, 1, 0)], Added)
  }

  /** Adding never creates a second line for a product and never leaves a line below 1. */
  lemma AddPreservesWellFormed(lines: seq<Line>, p: Product)
    requires WellFormed(lines)
    ensures WellFormed(AddToCart(lines, p).cart)
  {
    var r := AddToCart(lines, p);
    if r.outcome.Added? {
      forall j, k | 0 <= j < k < |r.cart| ensures r.cart[j].product.id != r.cart[k].product.id {
        if k == |lines| {
          assert r.cart[j] == lines[j];
        }
      }
    }
  }

  /** The stock ceiling holds after adding, when the snapshot in the cart records no less stock than the one passed in. */
  lemma AddPreservesWithinStock(lines: seq<Line>, p: Product)
    requires WithinStock(lines)
    requires forall k :: 0 <= k < |lines| && lines[k].product.id == p.id ==> p.currentStock <= lines[k].product.currentStock
    ensures WithinStock(AddToCart(lines, p).cart)
  {
  }

  /** `n` successive adds of `p` to `lines`. */
  function AddTimes(lines: seq<Line>, p: Product, n: nat): seq<Line> {
    if n == 0 then lines else AddToCart(AddTimes(lines, p, n - 1), p).cart
  }

  /**
   * Adding the same product `n` times to a cart that lacks it leaves one
   * line for it at the end, whose quantity is `n` capped at the stock.
   */
  lemma {:induction false} RepeatedAddsCapAtStock(lines: seq<Line>, p: Product, n: nat)
    requires FindLine(lines, p.id) < 0
    requires n >= 1 && p.currentStock >= 1
    ensures AddTimes(lines, p, n) == lines + [Line(p, Min(n, p.currentStock), 0)]
  {
    if n > 1 {
      RepeatedAddsCapAtStock(lines, p, n - 1);
      var prev := lines + [Line(p, Min(n - 1, p.currentStock), 0)];
      assert FindLine(prev, p.id) == |lines| by {
        assert prev[|lines|].product.id == p.id;
        assert forall k :: 0 <= k < |lines| ==> prev[k] == lines[k];
      }
    }
  }

  /** `cart.filter((_, i) => i !== index)` */
  function RemoveAt(lines: seq<Line>, index: int): (r: seq<Line>)
    ensures 0 <= index < |lines| ==>
      (|r| == |lines| - 1
       && (forall k :: 0 <= k < index ==> r[k] == lines[k])
       && (forall k :: index <= k < |r| ==> r[k] == lines[k + 1]))
    ensures !(0 <= index < |lines|) ==> r == lines
  {
    if 0 <= index < |lines| then lines[..index] + lines[index + 1..] else lines
  }

  lemma RemovePreservesWellFormed(lines: seq<Line>, index: int)
    requires WellFormed(lines)
    ensures WellFormed(RemoveAt(lines, index))
  {
    var r := RemoveAt(lines, index);
    if 0 <= index < |lines| {
      forall j, k | 0 <= j < k < |r| ensures r[j].product.id != r[k].product.id {
        var j', k' := if j < index then j else j + 1, if k < index then k else k + 1;
        assert r[j] == lines[j'] && r[k] == lines[k'];
      }
    }
  }

  datatype QuantityOutcome = Removed | Updated | StockExceeded

  /** `updateQuantity(index, change)` */
  function UpdateQuantity(lines: seq<Line>, index: int, change: int): (r: Step<QuantityOutcome>)
    requires 0 <= index < |lines|
    ensures r.outcome.Removed? <==> lines[index].quantity + change <= 0
    ensures r.outcome.Removed? ==> r.cart == RemoveAt(lines, index)
    ensures r.outcome.StockExceeded? <==>
      0 < lines[index].quantity + change && lines[index].quantity + change > lines[index].product.currentStock
    ensures r.outcome.StockExceeded? ==> r.cart == lines
    ensures r.outcome.Updated? ==>
      |r.cart| == |lines|
      && (forall k :: 0 <= k < |lines| && k != index ==> r.cart[k] == lines[k])
      && r.cart[index] == lines[index].(quantity := lines[index].quantity + change)
      && 1 <= r.cart[index].quantity <= lines[index].product.currentStock
  {
    var newQuantity := lines[index].quantity + change;
    if newQuantity <= 0 then Step(RemoveAt(lines, index), Removed)
    else if newQuantity > lines[index].product.currentStock then Step(lines, StockExceeded)
    else Step(lines[index := lines[index].(quantity := newQuantity)], Updated)
  }

  lemma UpdatePreservesWellFormed(lines: seq<Line>, index: int, change: int)
    requires 0 <= index < |lines| && WellFormed(lines)
    ensures WellFormed(UpdateQuantity(lines, index, change).cart)
  {
    if lines[index].quantity + change <= 0 {
      RemovePreservesWellFormed(lines, index);
    }
  }

  /** Quantity changes keep every line within the stock its snapshot records. */
  lemma UpdatePreservesWithinStock(lines: seq<Line>, index: int, change: int)
    requires 0 <= index < |lines| && WithinStock(lines)
    ensures WithinStock(UpdateQuantity(lines, index, change).cart)
  {
  }

  // ---------------------------------------------------------------- barcode scan

  /** `products.find(p => p.barcode === code)` */
  function FindByBarcode(products: seq<Product>, code: string): (r: Option<Product>)
    ensures r.None? <==> forall k :: 0 <= k < |products| ==> products[k].barcode != code
    ensures r.Some? ==>
      exists i :: (0 <= i < |products| && products[i] == r.value && r.value.barcode == code
                   && forall k :: 0 <= k < i ==> products[k].barcode != code)
  {
    if products == [] then None
    else if products[0].barcode == code then Some(products[0])
    else
      var r := FindByBarcode(products[1..], code);
      if r.Some? then
        ghost var i :| 0 <= i < |products[1..]| && products[1..][i] == r.value && r.value.barcode == code
          && forall k :: 0 <= k < i ==> products[1..][k].barcode != code;
        assert products[i + 1] == r.value;
        r
      else r
  }

  /** The product search's answer: its `products` list, which may be missing, or a failure. */
  datatype LookupReply = Listed(products: Option<seq<Product>>) | LookupFailed

  datatype ScanOutcome = NotFound(code: string) | Inactive(name: string) | ScanAdded(add: AddOutcome) | SearchError

  /** The decision part of `handleBarcodeScan(code)`, given the search's reply. */
  function ScanBarcode(lines: seq<Line>, code: string, reply: LookupReply): (r: Step<ScanOutcome>)
    ensures r.cart != lines ==>
      reply.Listed? && reply.products.Some? && FindByBarcode(reply.products.value, code).Some?
      && var p := FindByBarcode(reply.products.value, code).value;
      p.barcode == code && p.isActive && r.cart == AddToCart(lines, p).cart
  {
    match reply
    case LookupFailed => Step(lines, SearchError)
    case Listed(products) =>
      var found := if products.Some? then FindByBarcode(products.value, code) else None;
      if found.None? then Step(lines, NotFound(code))
      else if !found.value.isActive then Step(lines, Inactive(found.value.name))
      else
        var added := AddToCart(lines, found.value);
        Step(added.cart, ScanAdded(added.outcome))
  }

  /** A scan adds the first listed product whose barcode equals the code, and only when it is active. */
  lemma ScanAddsOnlyExactActiveMatch(lines: seq<Line>, code: string, products: seq<Product>)
    ensures var r := ScanBarcode(lines, code, Listed(Some(products)));
      (forall k :: 0 <= k < |products| ==> products[k].barcode != code) ==> r == Step(lines, NotFound(code))
    ensures var r := ScanBarcode(lines, code, Listed(Some(products)));
      forall i ::
        (0 <= i < |products| && products[i].barcode == code
         && (forall k :: 0 <= k < i ==> products[k].barcode != code)) ==>
        if products[i].isActive then r.cart == AddToCart(lines, products[i]).cart
        else r == Step(lines, Inactive(products[i].name))
  {
    var found := FindByBarcode(products, code);
    if found.Some? {
      ghost var j :| 0 <= j < |products| && products[j] == found.value && found.value.barcode == code
        && forall k :: 0 <= k < j ==> products[k].barcode != code;
      forall i | 0 <= i < |products| && products[i].barcode == code
        && (forall k :: 0 <= k < i ==> products[k].barcode != code)
        ensures i == j
      {
        assert !(i < j) && !(j < i);
      }
    }
  }

  // ---------------------------------------------------------------- checkout

  /** `parseFloat(paidAmount) || total`: a blank, unparsable or zero entry means exact payment. */
  function PaidAmount(tendered: Option<int>, total: int): int {
    if tendered.Some? && tendered.value != 0 then tendered.value else total
  }

  datatype SaleItem = SaleItem(productId: int, quantity: int, discountAmount: int)

  datatype SaleRequest = SaleRequest(
    customerId: Option<int>,
    saleType: string,
    items: seq<SaleItem>,
    paymentMethod: string,
    paymentStatus: string,
    paidAmount: int,
    notes: Option<string>)

  /** `cart.map(item => ({productId, quantity, discountAmount}))` */
  function SaleItems(lines: seq<Line>): (items: seq<SaleItem>)
    ensures |items| == |lines|
    ensures forall k :: 0 <= k < |lines| ==>
      items[k] == SaleItem(lines[k].product.id, lines[k].quantity, lines[k].discount)
  {
    if lines == [] then []
    else [SaleItem(lines[0].product.id, lines[0].quantity, lines[0].discount)] + SaleItems(lines[1..])
  }

  /** `customer?.id || null` */
  function CustomerId(customer: Option<Customer>): Option<int> {
    if customer.Some? && customer.value.id != 0 then Some(customer.value.id) else None
  }

  /** `notes || null` */
  function NotesOrNull(notes: string): Option<string> {
    if notes != "" then Some(notes) else None
  }

  datatype CheckoutError = EmptyCart | InsufficientPayment

  /** What `processSale` decides before any request: a rejection, or the request to send. */
  datatype Checkout = Rejected(error: CheckoutError) | Ready(request: SaleRequest, paid: int, total: int)

  function PrepareCheckout(
    lines: seq<Line>, customer: Option<Customer>, saleType: string,
    paymentMethod: string, tendered: Option<int>, notes: string): (c: Checkout)
    ensures c == Rejected(EmptyCart) <==> lines == []
    ensures c == Rejected(InsufficientPayment) <==>
      lines != [] && PaidAmount(tendered, ComputeTotals(lines, saleType).total) < ComputeTotals(lines, saleType).total
    ensures c.Ready? ==>
      && c.total == ComputeTotals(lines, saleType).total
      && c.paid == PaidAmount(tendered, c.total) >= c.total
      && c.request.paidAmount == c.paid
      && c.request.items == SaleItems(lines)
      && c.request.customerId == CustomerId(customer)
      && c.request.notes == NotesOrNull(notes)
      && c.request.saleType == saleType && c.request.paymentMethod == paymentMethod
      && c.request.paymentStatus == "paid"
  {
    if lines == [] then Rejected(EmptyCart)
    else
      var total := ComputeTotals(lines, saleType).total;
      var paid := PaidAmount(tendered, total);
      if paid < total then Rejected(InsufficientPayment)
      else Ready(SaleRequest(CustomerId(customer), saleType, SaleItems(lines), paymentMethod, "paid", paid, NotesOrNull(notes)), paid, total)
  }

  /** Without a tendered amount the sale is taken as paid exactly, so any non-empty cart passes the payment check with no change. */
  lemma ExactPaymentWhenBlank(lines: seq<Line>, customer: Option<Customer>, saleType: string, paymentMethod: string, notes: string)
    requires lines != []
    ensures var c := PrepareCheckout(lines, customer, saleType, paymentMethod, None, notes);
      c.Ready? && c.paid == c.total
  {
  }

  /**
   * The payment dialog's confirm button: disabled while a request runs,
   * and for cash while the received amount is blank or below the total.
   * Other methods ignore the amount.
   */
  function ConfirmDisabled(loading: bool, paymentMethod: string, tendered: Option<int>, total: int): bool {
    loading || (paymentMethod == "cash" && (tendered.None? || tendered.value < total))
  }

  /** The change the dialog previews under the received amount, shown only for cash once it covers the total. */
  function ChangeShown(paymentMethod: string, tendered: Option<int>, total: int): Option<int> {
    if paymentMethod == "cash" && tendered.Some? && tendered.value >= total then Some(tendered.value - total)
    else None
  }

  /**
   * A cash sale the button lets through passes `processSale`'s payment
   * check, and the change the sale reports is the change the dialog showed.
   */
  lemma CashConfirmMatchesCheckout(lines: seq<Line>, customer: Option<Customer>, saleType: string, tendered: Option<int>, notes: string)
    requires lines != [] && ComputeTotals(lines, saleType).total >= 0
    requires !ConfirmDisabled(false, "cash", tendered, ComputeTotals(lines, saleType).total)
    ensures var c := PrepareCheckout(lines, customer, saleType, "cash", tendered, notes);
      c.Ready? && ChangeShown("cash", tendered, c.total) == Some(c.paid - c.total)
  {
    var total := ComputeTotals(lines, saleType).total;
    assert tendered.Some? && tendered.value >= total;
    if tendered.value == 0 {
      assert total == 0 && PaidAmount(tendered, total) == 0;
    }
  }

  /**
   * For any method but cash the button ignores the received amount, but
   * `processSale` does not: an amount typed under cash and left in place
   * when switching to card still rejects the sale.
   */
  lemma StaleAmountRejectsCard(lines: seq<Line>, saleType: string)
    requires lines != [] && ComputeTotals(lines, saleType).total > 1
    ensures !ConfirmDisabled(false, "card", Some(1), ComputeTotals(lines, saleType).total)
    ensures PrepareCheckout(lines, None, saleType, "card", Some(1), "") == Rejected(InsufficientPayment)
  {
  }

  // ---------------------------------------------------------------- saved snapshot

  /** The object stored under `pos_current_sale`; a field absent or null in it is None. */
  datatype Saved = Saved(cart: Option<seq<Line>>, customer: Option<Customer>, saleType: Option<string>, notes: Option<string>)

  /** A stored entry that `JSON.parse` rejects, or the parsed object. */
  datatype StoredEntry = Unreadable | Entry(saved: Saved)

  const StorageKey: string := "pos_current_sale"

  /** What the save effect writes. */
  function SnapshotOf(lines: seq<Line>, customer: Option<Customer>, saleType: string, notes: string): Saved {
    Saved(Some(lines), customer, Some(saleType), Some(notes))
  }

  datatype Restored = Restored(cart: seq<Line>, customer: Option<Customer>, saleType: string, notes: string)

  /** The load effect: `cart || []`, `customer || null`, `saleType || 'retail'`, `notes || ''`, defaults kept when nothing parses. */
  function Restore(stored: Option<StoredEntry>): (r: Restored)
    ensures r.saleType != ""
    ensures stored.None? || stored == Some(Unreadable) ==> r == Restored([], None, Retail, "")
    ensures stored.Some? && stored.value.Entry? ==>
      var s := stored.value.saved;
      && (s.cart.Some? ==> r.cart == s.cart.value)
      && (s.cart.None? ==> r.cart == [])
      && r.customer == s.customer
      && (s.saleType.Some? && s.saleType.value != "" ==> r.saleType == s.saleType.value)
      && (s.saleType.None? || s.saleType == Some("") ==> r.saleType == Retail)
      && (s.notes.Some? ==> r.notes == s.notes.value)
      && (s.notes.None? ==> r.notes == "")
  {
    match stored
    case Some(Entry(Saved(cart, customer, saleType, notes))) =>
      Restored(
        cart.GetOr([]),
        customer,
        if saleType.Some? && saleType.value != "" then saleType.value else Retail,
        notes.GetOr(""))
    case _ => Restored([], None, Retail, "")
  }

  /** Saving and then restoring gives back the cart, customer, sale type and notes. */
  lemma SaveRestoreRoundTrip(lines: seq<Line>, customer: Option<Customer>, saleType: string, notes: string)
    requires saleType != ""
    ensures Restore(Some(Entry(SnapshotOf(lines, customer, saleType, notes)))) == Restored(lines, customer, saleType, notes)
  {
  }
}
