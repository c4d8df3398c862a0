/**
 * The sales history (src/pages/Sales.jsx): the status and sale-type
 * labels, the customer column, which sales offer a cancel button, the
 * paging of the list and the cancel dialog with its required reason.
 */
module SalesPage {

  import opened Common
  import opened Js
  import opened Display
  import PosCart

  const StatusColors: map<string, string> := map["completed" := "success", "cancelled" := "error", "pending" := "warning"]
  const StatusLabels: map<string, string> := map["completed" := "Completada", "cancelled" := "Cancelada", "pending" := "Pendiente"]
  const SaleTypeLabels: map<string, string> := map["retail" := "Menudeo", "wholesale" := "Mayoreo", "credit" := "Crédito"]

  /** `getStatusColor`: one of three known statuses, else 'default'. */
  function StatusColor(status: string): (r: string)
    ensures r != "default" <==> status in StatusColors
    ensures status in StatusColors ==> r == StatusColors[status]
  {
    LookupOr(StatusColors, status, "default")
  }

  /** `getStatusLabel`: the Spanish name of a known status, any other status as it is. */
  function StatusLabel(status: string): (r: string)
    ensures status in StatusLabels ==> r == StatusLabels[status] && r != status
    ensures !(status in StatusLabels) ==> r == status
  {
    LookupOr(StatusLabels, status, status)
  }

  /** `getSaleTypeLabel`: the Spanish name of a known sale type, any other type as it is. */
  function SaleTypeLabel(saleType: string): (r: string)
    ensures saleType in SaleTypeLabels ==> r == SaleTypeLabels[saleType] && r != saleType
    ensures !(saleType in SaleTypeLabels) ==> r == saleType
  {
    LookupOr(SaleTypeLabels, saleType, saleType)
  }

  /** Only a sale whose payment status is 'paid' gets a cancel button. */
  predicate CancelOffered(status: string) {
    status == "paid"
  }

  /**
   * Every sale the point of sale records carries the status 'paid': the
   * list shows it under its raw key in the default colour, and it is the
   * one status that offers cancelling. The statuses the tables translate
   * never do.
   */
  lemma RecordedSaleShownRawButCancellable(
    lines: seq<PosCart.Line>, customer: Option<PosCart.Customer>, saleType: string,
    paymentMethod: string, tendered: Option<int>, notes: string)
    requires PosCart.PrepareCheckout(lines, customer, saleType, paymentMethod, tendered, notes).Ready?
    ensures var status := PosCart.PrepareCheckout(lines, customer, saleType, paymentMethod, tendered, notes).request.paymentStatus;
      StatusLabel(status) == status && StatusColor(status) == "default" && CancelOffered(status)
    ensures forall s :: s in StatusLabels ==> !CancelOffered(s)
  {
  }

  /** The customer column: the two names as the template renders them, or 'Cliente General'. */
  function CustomerText(customer: Option<Record>): (r: string)
    ensures customer.None? ==> r == "Cliente General"
    ensures customer.Some? ==>
      r == Render(Get(customer.value, "firstName")) + " " + Render(Get(customer.value, "lastName"))
  {
    match customer
    case None => "Cliente General"
    case Some(c) => Render(Get(c, "firstName")) + " " + Render(Get(c, "lastName"))
  }

  /**
   * For a customer with both names, neither blank nor padded, the column
   * is the same joined name the customer and user tables show.
   */
  lemma CustomerTextMatchesJoinedName(c: Record)
    requires Get(c, "firstName").Str? && Get(c, "lastName").Str?
    requires Get(c, "firstName").s != "" && Get(c, "lastName").s != ""
    requires Trimmed(Get(c, "firstName").s) && Trimmed(Get(c, "lastName").s)
    ensures CustomerText(Some(c)) == JoinedName(Get(c, "firstName"), Get(c, "lastName"))
  {
    JoinedNameOfTrimmedParts(Get(c, "firstName"), Get(c, "lastName"));
  }

  /**
   * Unlike those tables, a customer without names is shown as
   * "undefined undefined" or "null null", not left blank.
   */
  lemma MissingNamesRenderedLiterally()
    ensures CustomerText(Some(map[])) == "undefined undefined"
    ensures CustomerText(Some(map["firstName" := Null, "lastName" := Null])) == "null null"
    ensures JoinedName(Undefined, Undefined) == "" && JoinedName(Null, Null) == ""
  {
    JoinedNameEmptyIff(Undefined, Undefined);
    JoinedNameEmptyIff(Null, Null);
  }

  /** What the cancel button sends: the sale's id (null when none is chosen) and the reason. */
  datatype CancelRequest = CancelRequest(saleId: Option<int>, reason: string)

  class SalesPage {
    var page: int
    var rowsPerPage: int
    var cancelDialog: bool
    var cancelReason: string
    var cancelingSaleId: Option<int>

    ghost predicate Valid()
      reads this
    {
      page >= 0 && rowsPerPage > 0
    }

    constructor()
      ensures Valid()
      ensures page == 0 && rowsPerPage == 10
      ensures !cancelDialog && cancelReason == "" && cancelingSaleId.None?
    {
      page, rowsPerPage := 0, 10;
      cancelDialog, cancelReason, cancelingSaleId := false, "", None;
    }

    /** The page and page size `loadSales` asks for: pages are counted from one there. */
    function Query(): (r: (int, int))
      reads this
      requires Valid()
      ensures r.0 >= 1 && r.1 >= 1
      ensures r.0 - 1 == page && r.1 == rowsPerPage
    {
      (page + 1, rowsPerPage)
    }

    method ChangePage(newPage: int)
      requires Valid() && newPage >= 0
      modifies this`page
      ensures Valid() && page == newPage
    {
      page := newPage;
    }

    /** A new page size always goes back to the first page. */
    method ChangeRowsPerPage(size: int)
      requires Valid() && size > 0
      modifies this`page, this`rowsPerPage
      ensures Valid() && rowsPerPage == size && page == 0
      ensures Query() == (1, size)
    {
      rowsPerPage := size;
      page := 0;
    }

    /** The cancel button of a row. */
    method OpenCancel(saleId: int)
      modifies this`cancelingSaleId, this`cancelDialog
      ensures cancelingSaleId == Some(saleId) && cancelDialog
    {
      cancelingSaleId := Some(saleId);
      cancelDialog := true;
    }

    method SetCancelReason(text: string)
      modifies this`cancelReason
      ensures cancelReason == text
    {
      cancelReason := text;
    }

    /** `!cancelReason.trim()`: the confirm button is disabled exactly when the reason is only white space. */
    function ConfirmDisabled(): (r: bool)
      reads this
      ensures r <==> AllSpace(cancelReason)
    {
      TrimEmptyIff(cancelReason);
      Trim(cancelReason) == []
    }

    /** Closing the dialog, by its button or from outside, forgets the sale and the reason. */
    method CloseCancel()
      modifies this`cancelDialog, this`cancelReason, this`cancelingSaleId
      ensures !cancelDialog && cancelReason == "" && cancelingSaleId.None?
      ensures ConfirmDisabled()
    {
      cancelDialog, cancelReason, cancelingSaleId := false, "", None;
    }

    /**
     * `handleCancelSale`. A blank reason sends nothing; otherwise the
     * request carries the chosen sale and the reason as typed, and the
     * server's answer `cancelled` decides whether the dialog closes and
     * forgets both or stays as it was.
     */
    method HandleCancelSale(cancelled: bool) returns (sent: Option<CancelRequest>)
      modifies this`cancelDialog, this`cancelReason, this`cancelingSaleId
      ensures sent.None? <==> AllSpace(old(cancelReason))
      ensures sent.Some? ==> sent.value == CancelRequest(old(cancelingSaleId), old(cancelReason))
      ensures sent.Some? && cancelled ==> !cancelDialog && cancelReason == "" && cancelingSaleId.None?
      ensures sent.None? || !cancelled ==>
        cancelDialog == old(cancelDialog) && cancelReason == old(cancelReason) && cancelingSaleId == old(cancelingSaleId)
    {
      if ConfirmDisabled() {
        return None;
      }
      sent := Some(CancelRequest(cancelingSaleId, cancelReason));
      if cancelled {
        CloseCancel();
      }
    }
  }
}
