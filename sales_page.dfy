/** The Sales list page: the stored invoices, searched by invoice number,
    filtered by status and sorted by date; each row's total; the items dialog;
    the status drop-down; and the report download. */
module SalesPage {
  import opened Wrappers
  import opened Seqs
  import opened Sorting
  import Listing
  import Text
  import SalesInvoice
  import Gst

  /** A sale as `/api/sales` serves it. Older records may lack an invoice
      number, a freight or a status. */
  datatype Sale = Sale(
    id: int,
    invoiceNo: Option<string>,
    invoiceDate: string,
    customerName: string,
    gstin: Option<string>,
    items: seq<SalesInvoice.SaleLine>,
    freight: Option<real>,
    status: Option<string>)

  const SalesReport: string := "/api/sales/download-report"
  const AllStatuses: string := "all"
  const DefaultStatus: string := "under-process"

  /** The filter of the list: the invoice number contains the search text, ignoring
      case, and the status is the one selected unless "all" is. */
  predicate Matches(s: Sale, searchText: string, statusFilter: string)
  {
    Listing.MatchesSearch(s.invoiceNo, searchText)
    && (statusFilter == AllStatuses || s.status == Some(statusFilter))
  }

  function InvoiceDate(s: Sale): string
  {
    s.invoiceDate
  }

  /** `filteredSales`: the matching sales sorted by date, ascending when the
      sort order is "asc" and descending otherwise. */
  function FilteredSales(sales: seq<Sale>, searchText: string, statusFilter: string, sortOrder: string): seq<Sale>
  {
    SortBy(Filter(sales, (s: Sale) => Matches(s, searchText, statusFilter)), InvoiceDate, sortOrder == "asc")
  }

  /** The list shows each matching sale as often as it is stored, nothing else,
      in date order. */
  lemma FilteredSalesSpec(sales: seq<Sale>, searchText: string, statusFilter: string, sortOrder: string)
    ensures var r := FilteredSales(sales, searchText, statusFilter, sortOrder);
      multiset(r) == multiset(Filter(sales, (s: Sale) => Matches(s, searchText, statusFilter)))
      && (forall x :: x in r <==> x in sales && Matches(x, searchText, statusFilter))
      && (sortOrder == "asc" ==> forall i, j :: 0 <= i < j < |r| ==> LexLe(r[i].invoiceDate, r[j].invoiceDate))
      && (sortOrder != "asc" ==> forall i, j :: 0 <= i < j < |r| ==> LexLe(r[j].invoiceDate, r[i].invoiceDate))
  {
    var p := (s: Sale) => Matches(s, searchText, statusFilter);
    var kept := Filter(sales, p);
    var r := FilteredSales(sales, searchText, statusFilter, sortOrder);
    SortByPermutes(kept, InvoiceDate, sortOrder == "asc");
    SortBySorted(kept, InvoiceDate, sortOrder == "asc");
    forall x
      ensures x in r <==> x in sales && Matches(x, searchText, statusFilter)
    {
      calc {
        x in r;
        x in multiset(r);
        x in multiset(kept);
        x in kept;
      }
      if x in sales && p(x) {
        var i :| 0 <= i < |sales| && sales[i] == x;
        assert x in kept;
      }
      if x in kept {
        var i :| 0 <= i < |kept| && kept[i] == x;
        assert x in sales && p(x);
      }
    }
  }

  /** A sale without an invoice number is never listed. */
  lemma UnnumberedSaleHidden(sales: seq<Sale>, searchText: string, statusFilter: string, sortOrder: string, s: Sale)
    requires s.invoiceNo.None?
    ensures s !in FilteredSales(sales, searchText, statusFilter, sortOrder)
  {
    FilteredSalesSpec(sales, searchText, statusFilter, sortOrder);
  }

  /** With an empty search and status "all" every numbered sale is listed. */
  lemma EmptySearchListsAll(sales: seq<Sale>, sortOrder: string, s: Sale)
    requires s in sales && s.invoiceNo.Some?
    ensures s in FilteredSales(sales, "", AllStatuses, sortOrder)
  {
    Listing.EmptySearchMatches(s.invoiceNo);
    FilteredSalesSpec(sales, "", AllStatuses, sortOrder);
  }

  // ---------------------------------------------------------------------------
  // Status

  /** `sale.status || 'under-process'`: the status the drop-down shows. */
  function ShownStatus(status: Option<string>): (r: string)
    ensures r != ""
    ensures status.Some? && status.value != "" ==> r == status.value
    ensures status.None? || status.value == "" ==> r == DefaultStatus
  {
    if status.Some? && status.value != "" then status.value else DefaultStatus
  }

  /** `handleStatusChange`: every sale with this id gets the new status. The
      list keeps its length and order, nothing but the status changes, and it
      changes exactly on the sales with that id. */
  function WithStatus(sales: seq<Sale>, id: int, newStatus: string): (r: seq<Sale>)
    ensures |r| == |sales|
    ensures forall i :: 0 <= i < |sales| ==> r[i].(status := sales[i].status) == sales[i]
    ensures forall i :: 0 <= i < |sales| && sales[i].id == id ==> r[i].status == Some(newStatus)
    ensures forall i :: 0 <= i < |sales| && sales[i].id != id ==> r[i] == sales[i]
  {
    seq(|sales|, i requires 0 <= i < |sales| =>
      if sales[i].id == id then sales[i].(status := Some(newStatus)) else sales[i])
  }

  /** Choosing the same status twice is choosing it once. */
  lemma WithStatusIdempotent(sales: seq<Sale>, id: int, newStatus: string)
    ensures WithStatus(WithStatus(sales, id, newStatus), id, newStatus) == WithStatus(sales, id, newStatus)
  {
  }

  /** A changed status shows as that status, whatever was stored before. */
  lemma ChosenStatusShown(sales: seq<Sale>, id: int, newStatus: string, i: int)
    requires newStatus != "" && 0 <= i < |sales| && sales[i].id == id
    ensures ShownStatus(WithStatus(sales, id, newStatus)[i].status) == newStatus
  {
  }

  // ---------------------------------------------------------------------------
  // Totals

  function PricedOf(l: SalesInvoice.SaleLine): Listing.Priced
  {
    Listing.Priced(l.quantity, l.price, l.gstRate)
  }

  /** The "Total" cell of a sale's row. */
  function RowTotal(s: Sale): real
  {
    Listing.RowTotal(Map(s.items, PricedOf), s.freight)
  }

  /** The totals under the dialog opened from a sale's row. */
  function DialogTotals(s: Sale): Listing.DialogTotals
  {
    Listing.Dialog(Map(s.items, PricedOf), s.freight)
  }

  /** The dialog and the row of one sale show the same total. */
  lemma DialogMatchesRow(s: Sale)
    ensures DialogTotals(s).total == RowTotal(s)
  {
    Listing.DialogMatchesRow(Map(s.items, PricedOf), s.freight);
  }

  function UndiscountedWithGst(l: SalesInvoice.SaleLine): real
  {
    Listing.LineWithGst(PricedOf(l))
  }

  /** The row total prices every item at its list price: where the invoice form
      gave no discount it is the invoice's own grand total. */
  lemma RowTotalWithoutDiscount(s: Sale)
    requires forall i :: 0 <= i < |s.items| ==> s.items[i].discount == 0.0
    ensures RowTotal(s) == SalesInvoice.GrandTotal(s.items, s.freight)
  {
    SumMap(s.items, PricedOf, UndiscountedWithGst, Listing.LineWithGst);
    forall i | 0 <= i < |s.items|
      ensures UndiscountedWithGst(s.items[i]) == SalesInvoice.Taxable(s.items[i]) + SalesInvoice.LineTax(s.items[i])
    {
      var l := s.items[i];
      assert SalesInvoice.Taxable(l) == l.quantity as real * l.price;
    }
    SumOfSums(s.items, UndiscountedWithGst, SalesInvoice.Taxable, SalesInvoice.LineTax);
  }

  /** One sale of 100 at 18% with a 10% discount and no freight: the invoice
      totals 106.2, the list's row shows 118. */
  lemma RowTotalIgnoresDiscount()
    ensures var s := Sale(1, Some("ANS/25-26/0001"), "2025-04-01", "A", None,
      [SalesInvoice.SaleLine("i1", "TV", "8528", 1, 100.0, 18.0, 5, 10.0)], None, None);
      RowTotal(s) == 118.0 && SalesInvoice.GrandTotal(s.items, s.freight) == 106.2
  {
    var items := [SalesInvoice.SaleLine("i1", "TV", "8528", 1, 100.0, 18.0, 5, 10.0)];
    var lines := Map(items, PricedOf);
    assert items[..0] == [];
    assert lines == [Listing.Priced(1, 100.0, 18.0)];
    assert lines[..0] == [];
    assert Sum(lines, Listing.LineWithGst) == 118.0;
    assert Listing.RowTotal(lines, None) == 118.0;
    assert SalesInvoice.Subtotal(items) == 90.0;
    assert SalesInvoice.ItemTax(items) == 16.2;
  }

  /** The discounted amount of an item with its tax. */
  function DiscountedWithGst(l: SalesInvoice.SaleLine): real
  {
    var taxable := l.quantity as real * l.price * (1.0 - l.discount / 100.0);
    taxable + (taxable * l.gstRate) / 100.0
  }

  /** The row total with each item's discount applied: it is the invoice's grand
      total, and it agrees with the list's row wherever no discount was given. */
  function CorrectedRowTotal(s: Sale): (r: real)
    ensures r == SalesInvoice.GrandTotal(s.items, s.freight)
  {
    var f := Listing.StoredFreight(s.freight);
    var itemTotal := Sum(s.items, DiscountedWithGst);
    assert itemTotal == SalesInvoice.Subtotal(s.items) + SalesInvoice.ItemTax(s.items) by {
      SumOfSums(s.items, DiscountedWithGst, SalesInvoice.Taxable, SalesInvoice.LineTax);
    }
    itemTotal + f + Gst.FreightTax(f)
  }

  lemma CorrectedAgreesWithoutDiscount(s: Sale)
    requires forall i :: 0 <= i < |s.items| ==> s.items[i].discount == 0.0
    ensures CorrectedRowTotal(s) == RowTotal(s)
  {
    RowTotalWithoutDiscount(s);
  }

  // ---------------------------------------------------------------------------
  // The page

  /** The state of the page: the loaded sales and the controls above the list
      and in the download dialog. */
  class SalesList {
    var sales: seq<Sale>
    var searchText: string
    var sortOrder: string
    var statusFilter: string
    var downloadAll: bool
    var fromDate: string
    var toDate: string

    constructor (loaded: seq<Sale>)
      ensures sales == loaded && searchText == "" && sortOrder == "asc" && statusFilter == AllStatuses
      ensures !downloadAll && fromDate == "" && toDate == ""
    {
      sales := loaded;
      searchText := "";
      sortOrder := "asc";
      statusFilter := AllStatuses;
      downloadAll := false;
      fromDate := "";
      toDate := "";
    }

    /** The rows on screen. */
    function Shown(): seq<Sale>
      reads this
    {
      FilteredSales(sales, searchText, statusFilter, sortOrder)
    }

    method HandleStatusChange(id: int, newStatus: string)
      modifies this
      ensures sales == WithStatus(old(sales), id, newStatus)
      ensures searchText == old(searchText) && sortOrder == old(sortOrder) && statusFilter == old(statusFilter)
      ensures downloadAll == old(downloadAll) && fromDate == old(fromDate) && toDate == old(toDate)
    {
      sales := WithStatus(sales, id, newStatus);
    }

    /** The sort button flips between ascending and descending. */
    method ToggleSortOrder()
      modifies this
      ensures sortOrder == if old(sortOrder) == "asc" then "desc" else "asc"
      ensures sales == old(sales) && searchText == old(searchText) && statusFilter == old(statusFilter)
      ensures downloadAll == old(downloadAll) && fromDate == old(fromDate) && toDate == old(toDate)
    {
      sortOrder := if sortOrder == "asc" then "desc" else "asc";
    }

    /** Closing the download dialog clears its controls. */
    method CloseDownloadDialog()
      modifies this
      ensures !downloadAll && fromDate == "" && toDate == ""
      ensures sales == old(sales) && searchText == old(searchText)
      ensures sortOrder == old(sortOrder) && statusFilter == old(statusFilter)
    {
      downloadAll := false;
      fromDate := "";
      toDate := "";
    }

    /** The "Download" button: the report URL to fetch, or the alert. */
    method RequestDownload() returns (r: Result<string>)
      ensures r.Failure? <==> !downloadAll && (fromDate == "" || toDate == "")
      ensures r.Failure? ==> r.message == Listing.MissingDates
      ensures r.Success? ==> Text.IsPrefix(SalesReport, r.value) && (downloadAll ==> r.value == SalesReport)
      ensures r.Success? && Listing.NoAmpersand(fromDate) && Listing.NoAmpersand(toDate) ==>
        Listing.ReportRange(SalesReport, r.value) == (if downloadAll then None else Some((fromDate, toDate)))
    {
      r := Listing.DownloadRequest(SalesReport, downloadAll, fromDate, toDate);
      if r.Success? && Listing.NoAmpersand(fromDate) && Listing.NoAmpersand(toDate) {
        Listing.DownloadRange(SalesReport, downloadAll, fromDate, toDate);
      }
    }
  }
}
