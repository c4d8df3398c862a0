/**
 * The point-of-sale screen's state (src/pages/POS.jsx) as an object: the
 * cart, customer, sale type, notes, payment method, tendered amount and the
 * stored `pos_current_sale` entry. Each handler is one atomic step; the
 * services it awaits are parameters holding their reply.
 */
module Pos {

  import opened Common
  import opened PosCart

  /** What the sale service answers: the new sale's number, or its error text ("" when it gives none). */
  datatype SaleReply = SaleCreated(saleNumber: string) | SaleFailed(error: string)

  datatype SaleOutcome =
    | NotSent(reason: CheckoutError)
    | Completed(saleNumber: string, change: int)
    | Failed(message: string)

  const SaleFailedDefault: string := "Error al procesar la venta"

  class PosController {
    var cart: seq<Line>
    var customer: Option<Customer>
    var saleType: string
    var paymentMethod: string
    var notes: string
    /** The tendered-amount field as `parseFloat` reads it: None when blank or unparsable. */
    var paidAmount: Option<int>
    /** The browser-storage entry under `pos_current_sale`; None when the key is absent. */
    var stored: Option<StoredEntry>

    /** The stored entry mirrors the cart, customer, sale type and notes. */
    ghost predicate Mirrored()
      reads this
    {
      stored == Some(Entry(SnapshotOf(cart, customer, saleType, notes)))
    }

    ghost predicate Valid()
      reads this
    {
      saleType != "" && Mirrored()
    }

    /** Mounting: the state starts empty, the load effect restores what `stored` holds, the save effect mirrors it. */
    constructor (entry: Option<StoredEntry>)
      ensures Valid()
      ensures Restored(cart, customer, saleType, notes) == Restore(entry)
      ensures paymentMethod == "cash" && paidAmount == None
    {
      var r := Restore(entry);
      cart, customer, saleType, notes := r.cart, r.customer, r.saleType, r.notes;
      paymentMethod, paidAmount := "cash", None;
      stored := Some(Entry(SnapshotOf(r.cart, r.customer, r.saleType, r.notes)));
    }

    /** `calculateTotals()` on the current state. */
    function Totals(): PosCart.Totals
      reads this
    {
      ComputeTotals(cart, saleType)
    }

    /** The save effect. */
    method Persist()
      modifies this`stored
      ensures Mirrored()
    {
      stored := Some(Entry(SnapshotOf(cart, customer, saleType, notes)));
    }

    method AddToCart(product: Product) returns (outcome: AddOutcome)
      requires Valid()
      modifies this`cart, this`stored
      ensures Valid()
      ensures Step(cart, outcome) == PosCart.AddToCart(old(cart), product)
      ensures outcome.StockInsufficient? || outcome.OutOfStock? ==> stored == old(stored)
    {
      var existingIndex := FindLine(cart, product.id);
      if existingIndex >= 0 {
        var newQuantity := cart[existingIndex].quantity + 1;
        if newQuantity > product.currentStock {
          return StockInsufficient(product.currentStock);
        }
        cart := cart[existingIndex := cart[existingIndex].(quantity := newQuantity)];
        outcome := Incremented;
      } else {
        if product.currentStock <= 0 {
          return OutOfStock;
        }
        cart := cart + [Line(product, 1, 0)];
        outcome := Added;
      }
      Persist();
    }

    method UpdateQuantity(index: int, change: int) returns (outcome: QuantityOutcome)
      requires Valid() && 0 <= index < |cart|
      modifies this`cart, this`stored
      ensures Valid()
      ensures Step(cart, outcome) == PosCart.UpdateQuantity(old(cart), index, change)
      ensures outcome.StockExceeded? ==> stored == old(stored)
    {
      var newQuantity := cart[index].quantity + change;
      if newQuantity <= 0 {
        RemoveFromCart(index);
        return Removed;
      }
      if newQuantity > cart[index].product.currentStock {
        return StockExceeded;
      }
      cart := cart[index := cart[index].(quantity := newQuantity)];
      Persist();
      outcome := Updated;
    }

    method RemoveFromCart(index: int)
      requires Valid()
      modifies this`cart, this`stored
      ensures Valid()
      ensures cart == RemoveAt(old(cart), index)
    {
      cart := RemoveAt(cart, index);
      Persist();
    }

    /** Empties cart, customer, notes and tendered amount; sale type and payment method stay. */
    method ClearCart()
      requires Valid()
      modifies this`cart, this`customer, this`notes, this`paidAmount, this`stored
      ensures Valid()
      ensures cart == [] && customer == None && notes == "" && paidAmount == None
    {
      cart, customer, notes, paidAmount := [], None, "", None;
      stored := None;
      Persist();
    }

    method SelectCustomer(c: Option<Customer>)
      requires Valid()
      modifies this`customer, this`stored
      ensures Valid() && customer == c
    {
      customer := c;
      Persist();
    }

    method SetNotes(text: string)
      requires Valid()
      modifies this`notes, this`stored
      ensures Valid() && notes == text
    {
      notes := text;
      Persist();
    }

    method SetPaymentMethod(m: string)
      modifies this`paymentMethod
      ensures paymentMethod == m
    {
      paymentMethod := m;
    }

    method SetPaidAmount(tendered: Option<int>)
      modifies this`paidAmount
      ensures paidAmount == tendered
    {
      paidAmount := tendered;
    }

    /** `handleBarcodeScan(code)` once the product search has answered `reply`. */
    method HandleBarcodeScan(code: string, reply: LookupReply) returns (outcome: ScanOutcome)
      requires Valid()
      modifies this`cart, this`stored
      ensures Valid()
      ensures Step(cart, outcome) == ScanBarcode(old(cart), code, reply)
    {
      match reply {
        case LookupFailed =>
          return SearchError;
        case Listed(products) =>
          var found := if products.Some? then FindByBarcode(products.value, code) else None;
          if found.None? {
            return NotFound(code);
          }
          if !found.value.isActive {
            return Inactive(found.value.name);
          }
          var added := AddToCart(found.value);
          outcome := ScanAdded(added);
      }
    }

    /**
     * `processSale()`. `sent` is the request handed to the sale service, if
     * any; `reply` is what the service answers to it.
     */
    method ProcessSale(reply: SaleReply) returns (outcome: SaleOutcome, sent: Option<SaleRequest>)
      requires Valid()
      modifies this`cart, this`customer, this`notes, this`paidAmount, this`stored
      ensures Valid()
      ensures saleType == old(saleType) && paymentMethod == old(paymentMethod)
      ensures var c := PrepareCheckout(old(cart), old(customer), saleType, paymentMethod, old(paidAmount), old(notes));
        && (c.Rejected? <==> sent.None?)
        && (c.Rejected? ==> outcome == NotSent(c.error))
        && (c.Ready? ==> sent == Some(c.request))
        && (c.Ready? && reply.SaleCreated? ==> outcome == Completed(reply.saleNumber, c.paid - c.total))
        && (c.Ready? && reply.SaleFailed? ==>
              outcome == Failed(if reply.error != "" then reply.error else SaleFailedDefault))
      ensures outcome.Completed? ==> outcome.change >= 0 && cart == [] && customer == None && notes == "" && paidAmount == None
      ensures !outcome.Completed? ==>
        cart == old(cart) && customer == old(customer) && notes == old(notes)
        && paidAmount == old(paidAmount) && stored == old(stored)
    {
      if |cart| == 0 {
        return NotSent(EmptyCart), None;
      }
      var totals := ComputeTotals(cart, saleType);
      var paid := PaidAmount(paidAmount, totals.total);
      if paid < totals.total {
        return NotSent(InsufficientPayment), None;
      }
      var request := SaleRequest(CustomerId(customer), saleType, SaleItems(cart), paymentMethod, "paid", paid, NotesOrNull(notes));
      sent := Some(request);
      match reply {
        case SaleCreated(saleNumber) =>
          outcome := Completed(saleNumber, paid - totals.total);
          ClearCart();
          paidAmount := None;
        case SaleFailed(error) =>
          outcome := Failed(if error != "" then error else SaleFailedDefault);
      }
    }
  }

  /**
   * A client of the controller: a product with five bottles in stock is
   * scanned six times; the sixth scan is refused, and paying 60.00 for the
   * 50.00 cart completes the sale with 10.00 change and an empty cart.
   */
  method StockCeilingScenario()
  {
    var p := Product(1, "Tequila", "750100", 1000, Some(800), 5, true);
    var pos := new PosController(None);
    var o := pos.AddToCart(p);
    assert o == Added && pos.cart == [Line(p, 1, 0)];
    var i := 1;
    while i < 5
      invariant pos.Valid() && 1 <= i <= 5 && pos.cart == [Line(p, i, 0)]
      invariant pos.saleType == Retail && pos.paidAmount == None
      modifies pos
    {
      o := pos.AddToCart(p);
      i := i + 1;
    }
    o := pos.AddToCart(p);
    assert o == StockInsufficient(5) && pos.cart == [Line(p, 5, 0)];
    var full := pos.cart;
    assert full[..|full| - 1] == [] && full[|full| - 1] == Line(p, 5, 0);
    assert Subtotal(full[..|full| - 1], Retail) == 0 && DiscountTotal(full[..|full| - 1]) == 0;
    assert LineAmount(full[|full| - 1], Retail) == 5000;
    assert Subtotal(full, Retail) == 5000;
    assert DiscountTotal(full) == 0;
    pos.SetPaidAmount(Some(6000));
    var result, sent := pos.ProcessSale(SaleCreated("S-1001"));
    assert result == Completed("S-1001", 1000) && pos.cart == [];
  }
}
