/** The Purchases list page: the stored purchase invoices, searched by invoice
    number and sorted by date; each row's total; the items dialog; and the
    report download. */
module PurchasesPage {
  import opened Wrappers
  import opened Seqs
  import opened Sorting
  import Listing
  import Text
  import PurchaseInvoice

  /** A purchase as `/api/purchases` serves it. Every purchase was saved with an
      invoice number; older records may lack a freight. */
  datatype Purchase = Purchase(
    invoiceNo: string,
    invoiceDate: string,
    vendorName: string,
    gstin: Option<string>,
    items: seq<PurchaseInvoice.PurchaseLine>,
    freight: Option<real>)

  const PurchasesReport: string := "/api/purchases/download-report"

  /** The filter of the list: the invoice number contains the search text, ignoring case. */
  predicate Matches(p: Purchase, searchText: string)
  {
    Listing.MatchesSearch(Some(p.invoiceNo), searchText)
  }

  function InvoiceDate(p: Purchase): string
  {
    p.invoiceDate
  }

  /** `filteredPurchases`: the matching purchases sorted by date, ascending when
      the sort order is "asc" and descending otherwise. */
  function FilteredPurchases(purchases: seq<Purchase>, searchText: string, sortOrder: string): seq<Purchase>
  {
    SortBy(Filter(purchases, (p: Purchase) => Matches(p, searchText)), InvoiceDate, sortOrder == "asc")
  }

  /** The list shows each matching purchase as often as it is stored, nothing
      else, in date order. */
  lemma FilteredPurchasesSpec(purchases: seq<Purchase>, searchText: string, sortOrder: string)
    ensures var r := FilteredPurchases(purchases, searchText, sortOrder);
      multiset(r) == multiset(Filter(purchases, (p: Purchase) => Matches(p, searchText)))
      && (forall x :: x in r <==> x in purchases && Matches(x, searchText))
      && (sortOrder == "asc" ==> forall i, j :: 0 <= i < j < |r| ==> LexLe(r[i].invoiceDate, r[j].invoiceDate))
      && (sortOrder != "asc" ==> forall i, j :: 0 <= i < j < |r| ==> LexLe(r[j].invoiceDate, r[i].invoiceDate))
  {
    var m := (p: Purchase) => Matches(p, searchText);
    var kept := Filter(purchases, m);
    var r := FilteredPurchases(purchases, searchText, sortOrder);
    SortByPermutes(kept, InvoiceDate, sortOrder == "asc");
    SortBySorted(kept, InvoiceDate, sortOrder == "asc");
    forall x
      ensures x in r <==> x in purchases && Matches(x, searchText)
    {
      calc {
        x in r;
        x in multiset(r);
        x in multiset(kept);
        x in kept;
      }
      if x in purchases && m(x) {
        var i :| 0 <= i < |purchases| && purchases[i] == x;
        assert x in kept;
      }
      if x in kept {
        var i :| 0 <= i < |kept| && kept[i] == x;
        assert x in purchases && m(x);
      }
    }
  }

  /** An empty search lists every purchase. */
  lemma EmptySearchListsAll(purchases: seq<Purchase>, sortOrder: string, p: Purchase)
    requires p in purchases
    ensures p in FilteredPurchases(purchases, "", sortOrder)
  {
    Listing.EmptySearchMatches(Some(p.invoiceNo));
    FilteredPurchasesSpec(purchases, "", sortOrder);
  }

  // ---------------------------------------------------------------------------
  // Totals

  function PricedOf(l: PurchaseInvoice.PurchaseLine): Listing.Priced
  {
    Listing.Priced(l.quantity, l.price, l.gstRate)
  }

  /** The "Total" cell of a purchase's row. */
  function RowTotal(p: Purchase): real
  {
    Listing.RowTotal(Map(p.items, PricedOf), p.freight)
  }

  /** The totals under the dialog opened from a purchase's row. */
  function DialogTotals(p: Purchase): Listing.DialogTotals
  {
    Listing.Dialog(Map(p.items, PricedOf), p.freight)
  }

  /** The dialog and the row of one purchase show the same total. */
  lemma DialogMatchesRow(p: Purchase)
    ensures DialogTotals(p).total == RowTotal(p)
  {
    Listing.DialogMatchesRow(Map(p.items, PricedOf), p.freight);
  }

  function RowLine(l: PurchaseInvoice.PurchaseLine): real
  {
    Listing.LineWithGst(PricedOf(l))
  }

  /** The row recomputes the total from each item's own rate; for items the
      purchase form added, whose rate is the fixed 18%, it is the total the form
      saved: 118% of the subtotal and the freight. */
  lemma RowTotalMatchesSaved(p: Purchase, freight: real)
    requires p.freight == Some(freight)
    requires forall i :: 0 <= i < |p.items| ==> PurchaseInvoice.WellFormedLine(p.items[i])
    ensures RowTotal(p) == (1.0 + PurchaseInvoice.PurchaseRate / 100.0) * (PurchaseInvoice.Subtotal(p.items) + freight)
  {
    SumMap(p.items, PricedOf, RowLine, Listing.LineWithGst);
    forall i | 0 <= i < |p.items|
      ensures RowLine(p.items[i]) == PurchaseInvoice.Amount(p.items[i]) + PurchaseInvoice.LineTax(p.items[i])
    {
      assert p.items[i].gstRate == 18.0;
    }
    SumOfSums(p.items, RowLine, PurchaseInvoice.Amount, PurchaseInvoice.LineTax);
    PurchaseInvoice.ItemTaxIsFixedRate(p.items);
  }

  // ---------------------------------------------------------------------------
  // The page

  /** The state of the page: the loaded purchases and the controls above the
      list and in the download dialog. */
  class PurchasesList {
    var purchases: seq<Purchase>
    var searchText: string
    var sortOrder: string
    var downloadAll: bool
    var fromDate: string
    var toDate: string

    constructor (loaded: seq<Purchase>)
      ensures purchases == loaded && searchText == "" && sortOrder == "asc"
      ensures !downloadAll && fromDate == "" && toDate == ""
    {
      purchases := loaded;
      searchText := "";
      sortOrder := "asc";
      downloadAll := false;
      fromDate := "";
      toDate := "";
    }

    /** The rows on screen. */
    function Shown(): seq<Purchase>
      reads this
    {
      FilteredPurchases(purchases, searchText, sortOrder)
    }

    /** The sort button flips between ascending and descending. */
    method ToggleSortOrder()
      modifies this
      ensures sortOrder == if old(sortOrder) == "asc" then "desc" else "asc"
      ensures purchases == old(purchases) && searchText == old(searchText)
      ensures downloadAll == old(downloadAll) && fromDate == old(fromDate) && toDate == old(toDate)
    {
      sortOrder := if sortOrder == "asc" then "desc" else "asc";
    }

    /** Closing the download dialog clears its controls. */
    method CloseDownloadDialog()
      modifies this
      ensures !downloadAll && fromDate == "" && toDate == ""
      ensures purchases == old(purchases) && searchText == old(searchText) && sortOrder == old(sortOrder)
    {
      downloadAll := false;
      fromDate := "";
      toDate := "";
    }

    /** The "Download" button: the report URL to fetch, or the alert. */
    method RequestDownload() returns (r: Result<string>)
      ensures r.Failure? <==> !downloadAll && (fromDate == "" || toDate == "")
      ensures r.Failure? ==> r.message == Listing.MissingDates
      ensures r.Success? ==> Text.IsPrefix(PurchasesReport, r.value) && (downloadAll ==> r.value == PurchasesReport)
      ensures r.Success? && Listing.NoAmpersand(fromDate) && Listing.NoAmpersand(toDate) ==>
        Listing.ReportRange(PurchasesReport, r.value) == (if downloadAll then None else Some((fromDate, toDate)))
    {
      r := Listing.DownloadRequest(PurchasesReport, downloadAll, fromDate, toDate);
      if r.Success? && Listing.NoAmpersand(fromDate) && Listing.NoAmpersand(toDate) {
        Listing.DownloadRange(PurchasesReport, downloadAll, fromDate, toDate);
      }
    }
  }
}
