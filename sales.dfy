/** The sales history page: the ticket search with its status filter, and
    the cancel and refund dialogs, which ask for a reason. The list of
    sales is fixed for the life of the page. */
module SalesHistory {
  import opened Wrappers
  import opened Types
  import opened Text
  import opened Seqs

  /** A status as the filter menu spells it. */
  function StatusName(s: SaleStatus): string {
    match s
    case Completed => "completed"
    case Cancelled => "cancelled"
    case Refunded => "refunded"
  }

  /** The filter value "all" names no status, and different statuses have
      different spellings. */
  lemma StatusNamesDistinct(a: SaleStatus, b: SaleStatus)
    ensures StatusName(a) != "all"
    ensures StatusName(a) == StatusName(b) <==> a == b
  {
  }

  // ---------------------------------------------------------------------
  // Search

  /** The ticket number contains the query, ignoring case, and the status
      is the one chosen, or every status is allowed. */
  predicate SaleShown(sale: Sale, query: string, statusFilter: string) {
    Contains(Lower(sale.ticketNumber), Lower(query))
    && (statusFilter == "all" || StatusName(sale.status) == statusFilter)
  }

  function Shown(query: string, statusFilter: string): Sale -> bool {
    (sale: Sale) => SaleShown(sale, query, statusFilter)
  }

  function FilteredSales(sales: seq<Sale>, query: string, statusFilter: string): (r: seq<Sale>)
    ensures |r| <= |sales|
    ensures forall s :: s in r <==> s in sales && SaleShown(s, query, statusFilter)
  {
    Filter(sales, Shown(query, statusFilter))
  }

  /** Every text contains the empty text. */
  lemma ContainsEmpty(s: string)
    ensures Contains(s, "")
  {
    assert IsPrefix("", s);
  }

  /** With no query and every status allowed the whole list is shown. */
  lemma NoFilterShowsAll(sales: seq<Sale>)
    ensures FilteredSales(sales, "", "all") == sales
  {
    forall s | s in sales ensures Shown("", "all")(s) {
      ContainsEmpty(Lower(s.ticketNumber));
    }
    FilterKeepsAll(sales, Shown("", "all"));
  }

  /** For a fixed query, the three status choices split what "all" shows:
      each sale appears under exactly one of them. */
  lemma {:induction false} StatusFiltersPartition(sales: seq<Sale>, query: string)
    ensures |FilteredSales(sales, query, "completed")| + |FilteredSales(sales, query, "cancelled")|
      + |FilteredSales(sales, query, "refunded")| == |FilteredSales(sales, query, "all")|
  {
    if sales != [] {
      StatusFiltersPartition(sales[1..], query);
    }
  }

  // ---------------------------------------------------------------------
  // Cancel and refund

  /** The row menu offers "Cancelar venta" and "Registrar devolución" only
      for completed sales. */
  predicate OffersReturnActions(sale: Sale) {
    sale.status == Completed
  }

  /** The sales offering the two actions are exactly those the
      "completed" filter shows with an empty query. */
  lemma ReturnActionsOnCompletedFilter(sale: Sale)
    ensures OffersReturnActions(sale) <==> SaleShown(sale, "", "completed")
  {
    ContainsEmpty(Lower(sale.ticketNumber));
  }

  class SalesPage {
    const sales: seq<Sale>
    var showCancelDialog: bool
    var showRefundDialog: bool
    var selectedSale: Option<Sale>
    var reason: string

    constructor (initial: seq<Sale>)
      ensures sales == initial
      ensures !showCancelDialog && !showRefundDialog && selectedSale == None && reason == ""
    {
      sales := initial;
      showCancelDialog, showRefundDialog, selectedSale, reason := false, false, None, "";
    }

    /** "Cancelar venta" on a row: select the sale, clear the reason and
        open the cancel dialog. */
    method HandleCancel(sale: Sale)
      requires OffersReturnActions(sale)
      modifies this`selectedSale, this`reason, this`showCancelDialog
      ensures selectedSale == Some(sale) && reason == "" && showCancelDialog
    {
      selectedSale, reason, showCancelDialog := Some(sale), "", true;
    }

    /** "Registrar devolución" on a row: the same for the refund dialog. */
    method HandleRefund(sale: Sale)
      requires OffersReturnActions(sale)
      modifies this`selectedSale, this`reason, this`showRefundDialog
      ensures selectedSale == Some(sale) && reason == "" && showRefundDialog
    {
      selectedSale, reason, showRefundDialog := Some(sale), "", true;
    }

    /** Typing in the reason box. */
    method EnterReason(text: string)
      modifies this`reason
      ensures reason == text
    {
      reason := text;
    }

    /** Confirming a cancellation: a blank reason changes nothing; otherwise
        the dialog closes and the selection and reason are cleared. The
        list of sales is not touched either way. */
    method ConfirmCancel()
      modifies this`showCancelDialog, this`selectedSale, this`reason
      ensures IsBlank(old(reason)) ==>
        (showCancelDialog == old(showCancelDialog) && selectedSale == old(selectedSale) && reason == old(reason))
      ensures !IsBlank(old(reason)) ==> !showCancelDialog && selectedSale == None && reason == ""
    {
      if IsBlank(reason) {
        return;
      }
      showCancelDialog, selectedSale, reason := false, None, "";
    }

    /** Confirming a refund, with the same guard. */
    method ConfirmRefund()
      modifies this`showRefundDialog, this`selectedSale, this`reason
      ensures IsBlank(old(reason)) ==>
        (showRefundDialog == old(showRefundDialog) && selectedSale == old(selectedSale) && reason == old(reason))
      ensures !IsBlank(old(reason)) ==> !showRefundDialog && selectedSale == None && reason == ""
    {
      if IsBlank(reason) {
        return;
      }
      showRefundDialog, selectedSale, reason := false, None, "";
    }
  }
}
