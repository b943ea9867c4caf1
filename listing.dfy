/** What the Sales and Purchases list pages share: the total shown in a record's
    row, the totals under the items dialog, the invoice-number search and the
    URL of the report download. */
module Listing {
  import opened Wrappers
  import opened Seqs
  import opened Text
  import Gst

  /** The three fields of a stored item that the list pages price it by. */
  datatype Priced = Priced(quantity: int, price: real, gstRate: real)

  /** `quantity * price`. */
  function Amount(l: Priced): real
  {
    l.quantity as real * l.price
  }

  /** `(quantity * price * gstRate) / 100`. */
  function LineGst(l: Priced): real
  {
    (l.quantity as real * l.price * l.gstRate) / 100.0
  }

  /** One step of the row total's `reduce`: the amount and its tax together. */
  function LineWithGst(l: Priced): real
  {
    (l.quantity as real * l.price) + ((l.quantity as real * l.price * l.gstRate) / 100.0)
  }

  /** `Number(record.freight || 0)` and `Number(viewFreight) || 0`: a record
      without a freight has none. */
  function StoredFreight(freight: Option<real>): (r: real)
    ensures freight.None? ==> r == 0.0
    ensures freight.Some? ==> r == freight.value
  {
    freight.GetOr(0.0)
  }

  /** The "Total" cell of a record's row. */
  function RowTotal(lines: seq<Priced>, freight: Option<real>): real
  {
    var f := StoredFreight(freight);
    Sum(lines, LineWithGst) + f + Gst.FreightTax(f)
  }

  /** The totals shown under the items dialog. */
  datatype DialogTotals = DialogTotals(freight: real, subtotal: real, gst: real, total: real)

  function Dialog(lines: seq<Priced>, freight: Option<real>): DialogTotals
  {
    var f := StoredFreight(freight);
    var itemTotal := Sum(lines, Amount);
    var subtotal := itemTotal + f;
    var gst := Sum(lines, LineGst) + Gst.FreightTax(f);
    DialogTotals(f, subtotal, gst, subtotal + gst)
  }

  /** The dialog and the row, computed separately, show the same total, and the
      dialog's subtotal and GST split it into the freight-inclusive amount and
      18% of the freight plus each item's tax. */
  lemma DialogMatchesRow(lines: seq<Priced>, freight: Option<real>)
    ensures Dialog(lines, freight).total == RowTotal(lines, freight)
    ensures Dialog(lines, freight).subtotal == Sum(lines, Amount) + StoredFreight(freight)
    ensures Dialog(lines, freight).gst == Sum(lines, LineGst) + 0.18 * StoredFreight(freight)
  {
    SumOfSums(lines, LineWithGst, Amount, LineGst);
  }

  /** `record.invoiceNo?.toLowerCase().includes(searchText.toLowerCase())`: a
      record without an invoice number never matches. */
  predicate MatchesSearch(invoiceNo: Option<string>, searchText: string)
  {
    invoiceNo.Some? && Contains(ToLower(invoiceNo.value), ToLower(searchText))
  }

  /** An empty search matches every record that has an invoice number. */
  lemma EmptySearchMatches(invoiceNo: Option<string>)
    ensures MatchesSearch(invoiceNo, "") <==> invoiceNo.Some?
  {
    if invoiceNo.Some? {
      assert OccursAt(ToLower(invoiceNo.value), ToLower(""), 0);
      ContainsIff(ToLower(invoiceNo.value), ToLower(""));
    }
  }

  // ---------------------------------------------------------------------------
  // The report download

  const MissingDates: string := "Please select both From and To dates."

  /** The URL the "Download" button fetches, or the alert it shows instead:
      unless every record is wanted, both dates must be filled in. */
  function DownloadRequest(base: string, downloadAll: bool, fromDate: string, toDate: string): (r: Result<string>)
    ensures r.Failure? <==> !downloadAll && (fromDate == "" || toDate == "")
    ensures r.Failure? ==> r.message == MissingDates
    ensures r.Success? ==> IsPrefix(base, r.value)
    ensures r.Success? && downloadAll ==> r.value == base
  {
    if !downloadAll && (fromDate == "" || toDate == "") then Failure(MissingDates)
    else if downloadAll then Success(base)
    else Success(base + "?from=" + fromDate + "&to=" + toDate)
  }

  /** The date range a report URL asks for: none for the whole report. */
  function ReportRange(base: string, url: string): Option<(string, string)>
  {
    if !IsPrefix(base, url) then None
    else
      var query := url[|base|..];
      if !IsPrefix("?from=", query) then None
      else
        var parts := Split(query[6..], '&');
        if |parts| == 2 && IsPrefix("to=", parts[1]) then Some((parts[0], parts[1][3..]))
        else None
  }

  predicate NoAmpersand(s: string)
  {
    forall i :: 0 <= i < |s| ==> s[i] != '&'
  }

  /** The URL carries exactly the range asked for: reading it back gives the two
      dates, or no range when the whole report is wanted. */
  lemma DownloadRange(base: string, downloadAll: bool, fromDate: string, toDate: string)
    requires NoAmpersand(fromDate) && NoAmpersand(toDate)
    requires DownloadRequest(base, downloadAll, fromDate, toDate).Success?
    ensures ReportRange(base, DownloadRequest(base, downloadAll, fromDate, toDate).value)
      == if downloadAll then None else Some((fromDate, toDate))
  {
    var url := DownloadRequest(base, downloadAll, fromDate, toDate).value;
    if downloadAll {
      assert url[|base|..] == "";
    } else {
      var rest := "to=" + toDate;
      assert url == base + ("?from=" + (fromDate + ['&'] + rest));
      assert url[|base|..] == "?from=" + (fromDate + ['&'] + rest);
      assert url[|base|..][6..] == fromDate + ['&'] + rest;
      SplitPiece(fromDate, '&', rest);
      assert NoAmpersand(rest);
      SplitPiece(rest, '&', "");
      assert Split(url[|base|..][6..], '&') == [fromDate, rest];
      assert rest[3..] == toDate;
    }
  }
}
