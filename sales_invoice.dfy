/** The sales invoice form (`SalesForm`): its line items, the tax calculator,
    the grand total, the Excel totals, the date and invoice-number formats,
    and the handlers that edit the item list. */
module SalesInvoice {
  import opened Wrappers
  import opened Seqs
  import opened Text
  import Gst
  import Catalogue

  /** One row of the invoice being written. `itemId` is "" until a catalogue
      item is chosen. */
  datatype SaleLine = SaleLine(
    itemId: string,
    name: string,
    hsnCode: string,
    quantity: int,
    price: real,
    gstRate: real,
    stock: int,
    discount: real)

  /** The row every new invoice and every "add item" starts with. */
  const InitialLine: SaleLine := SaleLine("", "", "", 1, 0.0, 18.0, 0, 0.0)

  /** A customer record as `/api/customers` serves it; its GSTIN may be absent. */
  datatype CustomerRecord = CustomerRecord(name: string, gstin: Option<string>)

  /** The customer the invoice is addressed to. */
  datatype Party = Party(name: string, gstin: Option<string>)

  // ---------------------------------------------------------------------------
  // The tax calculator

  /** `quantity * (price * (1 - discount / 100))`. */
  function Taxable(l: SaleLine): real
  {
    l.quantity as real * (l.price * (1.0 - l.discount / 100.0))
  }

  /** `(gstRate / 100) * taxableAmount`. */
  function LineTax(l: SaleLine): real
  {
    (l.gstRate / 100.0) * Taxable(l)
  }

  /** `calculateSubtotal`. */
  function Subtotal(items: seq<SaleLine>): real
  {
    Sum(items, Taxable)
  }

  /** The tax on all items together, before it is split between the heads. */
  function ItemTax(items: seq<SaleLine>): real
  {
    Sum(items, LineTax)
  }

  /** `Number(freight) || 0` and `Number(freight || 0)`: a freight that is not a
      number counts as zero. */
  function FreightAmount(freight: Option<real>): real
  {
    freight.GetOr(0.0)
  }

  /** The grand total the invoice states: items after discount, their tax,
      the freight and 18% tax on the freight. */
  function GrandTotal(items: seq<SaleLine>, freight: Option<real>): real
  {
    Subtotal(items) + ItemTax(items) + FreightAmount(freight) + Gst.FreightTax(FreightAmount(freight))
  }

  /** `calculateGST`: the item tax and the freight tax go half to CGST and half to
      SGST for a customer in the seller's state, wholly to IGST otherwise. */
  method CalculateGst(items: seq<SaleLine>, gstin: Option<string>, freight: Option<real>)
    returns (gst: Gst.Breakdown)
    ensures Gst.IsIntraState(gstin) ==>
      gst.igst == 0.0 &&
      gst.cgst == gst.sgst == (ItemTax(items) + Gst.FreightTax(FreightAmount(freight))) / 2.0
    ensures !Gst.IsIntraState(gstin) ==>
      gst.cgst == 0.0 && gst.sgst == 0.0 &&
      gst.igst == ItemTax(items) + Gst.FreightTax(FreightAmount(freight))
  {
    var intra := Gst.StateCode(gstin) == Some(Gst.CompanyStateCode);
    var cgst, sgst, igst := 0.0, 0.0, 0.0;
    var k := 0;
    while k < |items|
      invariant 0 <= k <= |items|
      invariant intra ==> cgst == sgst == ItemTax(items[..k]) / 2.0 && igst == 0.0
      invariant !intra ==> cgst == 0.0 && sgst == 0.0 && igst == ItemTax(items[..k])
    {
      var i := items[k];
      var discountedPrice := i.price * (1.0 - i.discount / 100.0);
      var taxableAmount := i.quantity as real * discountedPrice;
      var gstAmount := (i.gstRate / 100.0) * taxableAmount;
      if intra {
        cgst := cgst + gstAmount / 2.0;
        sgst := sgst + gstAmount / 2.0;
      } else {
        igst := igst + gstAmount;
      }
      assert items[..k + 1][..k] == items[..k];
      k := k + 1;
    }
    assert items[..k] == items;
    var freightAmount := match freight case Some(f) => f case None => 0.0;
    var freightGst := (18.0 / 100.0) * freightAmount;
    if intra {
      cgst := cgst + freightGst / 2.0;
      sgst := sgst + freightGst / 2.0;
    } else {
      igst := igst + freightGst;
    }
    gst := Gst.Breakdown(cgst, sgst, igst);
  }

  /** `calculateTotal`: subtotal, the three tax heads and the freight. Whichever
      path the tax took, the total is the same: it does not depend on the GSTIN. */
  method CalculateTotal(items: seq<SaleLine>, gstin: Option<string>, freight: Option<real>)
    returns (total: real)
    ensures total == GrandTotal(items, freight)
  {
    var gst := CalculateGst(items, gstin, freight);
    total := Subtotal(items) + gst.cgst + gst.sgst + gst.igst + FreightAmount(freight);
  }

  /** A row with quantity 0, price 0 or discount 100 adds nothing to the subtotal
      or to the tax; a row with discount 0 adds quantity times price. */
  lemma LineBoundaries(items: seq<SaleLine>, l: SaleLine)
    ensures l.quantity == 0 || l.price == 0.0 || l.discount == 100.0 ==>
      Subtotal(items + [l]) == Subtotal(items) && ItemTax(items + [l]) == ItemTax(items)
    ensures l.discount == 0.0 ==> Subtotal(items + [l]) == Subtotal(items) + l.quantity as real * l.price
  {
    assert (items + [l])[..|items + [l]| - 1] == items;
    if l.quantity == 0 || l.price == 0.0 || l.discount == 100.0 {
      ZeroLine(l);
    }
    if l.discount == 0.0 {
      assert l.price * (1.0 - l.discount / 100.0) == l.price;
    }
  }

  lemma ZeroLine(l: SaleLine)
    requires l.quantity == 0 || l.price == 0.0 || l.discount == 100.0
    ensures Taxable(l) == 0.0 && LineTax(l) == 0.0
  {
    var unit := l.price * (1.0 - l.discount / 100.0);
    if l.discount == 100.0 {
      assert 1.0 - l.discount / 100.0 == 0.0;
    }
    assert l.quantity == 0 || unit == 0.0;
    assert Taxable(l) == l.quantity as real * unit;
  }

  /** The worked example: 2 x 100 at 18% with freight 50 comes to 295 whether the
      customer is in the seller's state (CGST = SGST = 22.5) or not (IGST = 45). */
  lemma WorkedExample()
    ensures var items := [SaleLine("", "TV", "", 2, 100.0, 18.0, 5, 0.0)];
      Subtotal(items) == 200.0 && ItemTax(items) == 36.0 &&
      Gst.FreightTax(FreightAmount(Some(50.0))) == 9.0 &&
      GrandTotal(items, Some(50.0)) == 295.0
  {
    var items := [SaleLine("", "TV", "", 2, 100.0, 18.0, 5, 0.0)];
    assert items[..0] == [];
  }

  // ---------------------------------------------------------------------------
  // The Excel export's totals

  /** The totals block of the exported sheet. */
  datatype ExcelTotals = ExcelTotals(freight: real, subtotal: real, totalGst: real, grandTotal: real)

  function ExcelTaxable(l: SaleLine): real
  {
    l.quantity as real * l.price * (1.0 - l.discount / 100.0)
  }

  function ExcelTax(l: SaleLine): real
  {
    l.quantity as real * l.price * (1.0 - l.discount / 100.0) * (l.gstRate / 100.0)
  }

  /** The "Total" cell of one exported row. */
  function ExcelRowTotal(l: SaleLine): real
  {
    l.quantity as real * (l.price * (1.0 - l.discount / 100.0)) * (1.0 + l.gstRate / 100.0)
  }

  /** The totals as the export computes them: its grand total adds the item tax
      and the freight, but not the tax on the freight. */
  function ExcelSummary(items: seq<SaleLine>, freight: Option<real>): ExcelTotals
  {
    var subtotal := Sum(items, ExcelTaxable);
    var totalGst := Sum(items, ExcelTax);
    var freightAmount := FreightAmount(freight);
    ExcelTotals(freightAmount, subtotal, totalGst, subtotal + totalGst + freightAmount)
  }

  /** The sheet's subtotal and tax agree with the form's, its rows add up to them,
      and its grand total is the form's grand total less the 18% freight tax. */
  lemma ExcelTotalsAgree(items: seq<SaleLine>, freight: Option<real>)
    ensures ExcelSummary(items, freight).subtotal == Subtotal(items)
    ensures ExcelSummary(items, freight).totalGst == ItemTax(items)
    ensures Sum(items, ExcelRowTotal) == Subtotal(items) + ItemTax(items)
    ensures ExcelSummary(items, freight).grandTotal
      == GrandTotal(items, freight) - Gst.FreightTax(FreightAmount(freight))
  {
    SumCongruent(items, ExcelTaxable, Taxable);
    SumCongruent(items, ExcelTax, LineTax);
    SumOfSums(items, ExcelRowTotal, Taxable, LineTax);
  }

  /** With freight 100 and no items the sheet's grand total is 100, where the
      form shows 118. */
  lemma ExcelGrandTotalOmitsFreightTax()
    ensures ExcelSummary([], Some(100.0)).grandTotal == 100.0
    ensures GrandTotal([], Some(100.0)) == 118.0
  {
  }

  /** The grand total the sheet is evidently meant to show: the form's. */
  function ExcelGrandTotalCorrected(items: seq<SaleLine>, freight: Option<real>): (r: real)
    ensures r == GrandTotal(items, freight)
  {
    var t := ExcelSummary(items, freight);
    ExcelTotalsAgree(items, freight);
    t.subtotal + t.totalGst + t.freight + Gst.FreightTax(t.freight)
  }

  // ---------------------------------------------------------------------------
  // Dates and invoice numbers

  /** A missing piece of `split('-')` reads as "undefined" inside a template string. */
  function Piece(parts: seq<string>, k: nat): string
  {
    if k < |parts| then parts[k] else "undefined"
  }

  /** `formatDate`: "YYYY-MM-DD" becomes "DD-MM-YYYY"; the empty string stays empty. */
  function FormatDate(iso: string): string
  {
    if iso == "" then ""
    else
      var parts := Split(iso, '-');
      Piece(parts, 2) + "-" + Piece(parts, 1) + "-" + Piece(parts, 0)
  }

  predicate NoDash(s: string)
  {
    forall i :: 0 <= i < |s| ==> s[i] != '-'
  }

  /** The three dash-free fields of a date are put in reverse order; doing it
      twice gives the original back. */
  lemma {:induction false} FormatDateSwapsFields(y: string, m: string, d: string)
    requires NoDash(y) && NoDash(m) && NoDash(d)
    ensures FormatDate(y + "-" + m + "-" + d) == d + "-" + m + "-" + y
    ensures FormatDate(FormatDate(y + "-" + m + "-" + d)) == y + "-" + m + "-" + d
  {
    ThreeParts(y, m, d);
    ThreeParts(d, m, y);
  }

  lemma {:induction false} ThreeParts(y: string, m: string, d: string)
    requires NoDash(y) && NoDash(m) && NoDash(d)
    ensures FormatDate(y + "-" + m + "-" + d) == d + "-" + m + "-" + y
  {
    var s := y + "-" + m + "-" + d;
    assert s == y + ['-'] + (m + ['-'] + d);
    SplitPiece(y, '-', m + ['-'] + d);
    SplitPiece(m, '-', d);
    SplitPiece(d, '-', "");
    assert Split(s, '-') == [y, m, d];
  }

  const InvoicePrefix: string := "NLTE/2024-25/"

  /** `NLTE/2024-25/` followed by `(count + 1).toString().padStart(3, '0')`. */
  function InvoiceNumber(salesCount: nat): string
  {
    InvoicePrefix + PadStart(NatToString(salesCount + 1), 3, '0')
  }

  /** The number after the prefix has at least three digits, exactly as many as
      `count + 1` needs when that is more, and denotes `count + 1`. */
  lemma InvoiceNumberSpec(salesCount: nat)
    ensures var n := InvoiceNumber(salesCount);
      |n| >= |InvoicePrefix| + 3 && n[..|InvoicePrefix|] == InvoicePrefix &&
      var suffix := n[|InvoicePrefix|..];
      |suffix| == (if |NatToString(salesCount + 1)| >= 3 then |NatToString(salesCount + 1)| else 3) &&
      (forall i :: 0 <= i < |suffix| ==> IsDigit(suffix[i])) &&
      DigitsValue(suffix) == salesCount + 1
  {
    var digits := NatToString(salesCount + 1);
    NatToStringValue(salesCount + 1);
    var n := InvoiceNumber(salesCount);
    assert n[|InvoicePrefix|..] == PadStart(digits, 3, '0');
    if |digits| < 3 {
      LeadingZerosValue(3 - |digits|, digits);
    }
  }

  /** Different sales counts give different invoice numbers. */
  lemma InvoiceNumberInjective(a: nat, b: nat)
    requires InvoiceNumber(a) == InvoiceNumber(b)
    ensures a == b
  {
    InvoiceNumberSpec(a);
    InvoiceNumberSpec(b);
  }

  // ---------------------------------------------------------------------------
  // Editing the item list

  /** `k` is the first index of `options` that carries `name`. */
  predicate FirstNamed(options: seq<Catalogue.Item>, name: string, k: int)
  {
    0 <= k < |options| && options[k].name == name &&
    forall j :: 0 <= j < k ==> options[j].name != name
  }

  /** `options.find(i => i.name === name)`. */
  function FindByName(options: seq<Catalogue.Item>, name: string): (r: Option<Catalogue.Item>)
    ensures r.None? <==> forall j :: 0 <= j < |options| ==> options[j].name != name
    ensures r.Some? ==> exists k :: FirstNamed(options, name, k) && options[k] == r.value
    decreases |options|
  {
    if |options| == 0 then None
    else if options[0].name == name then
      assert FirstNamed(options, name, 0);
      Some(options[0])
    else
      var r := FindByName(options[1..], name);
      if r.Some? then
        var k :| FirstNamed(options[1..], name, k) && options[1..][k] == r.value;
        assert FirstNamed(options, name, k + 1);
        r
      else r
  }

  /** The row after `handleItemChange(idx, key, value)` edits it, or `None` when
      the new quantity exceeds the row's stock and the change is refused. */
  function ChangedLine(line: SaleLine, options: seq<Catalogue.Item>, key: string, value: Input)
    : Option<SaleLine>
  {
    if key == "name" then
      match FindByName(options, value.text)
      case Some(it) =>
        Some(line.(itemId := it.id, name := if it.name != "" then it.name else value.text,
                   hsnCode := it.hsnCode, price := it.sellingPrice, gstRate := 18.0, stock := it.stock))
      case None =>
        Some(line.(itemId := "", name := value.text, hsnCode := "", price := 0.0, gstRate := 18.0, stock := 0))
    else if key == "quantity" then
      var quantity := value.asInt.GetOr(0);
      if quantity > line.stock then None else Some(line.(quantity := quantity))
    else if key == "price" then Some(line.(price := value.asReal.GetOr(0.0)))
    else if key == "gstRate" then Some(line.(gstRate := value.asReal.GetOr(0.0)))
    else if key == "discount" then Some(line.(discount := value.asReal.GetOr(0.0)))
    else Some(line)
  }

  /** Choosing a name forces an 18% rate and takes the HSN code, selling price and
      stock of the first catalogue item of that name, or "" / 0 when there is none;
      quantity and discount are kept. */
  lemma NameChoice(line: SaleLine, options: seq<Catalogue.Item>, value: Input)
    ensures var r := ChangedLine(line, options, "name", value);
      r.Some? && r.value.name == value.text && r.value.gstRate == 18.0 &&
      r.value.quantity == line.quantity && r.value.discount == line.discount &&
      match FindByName(options, value.text)
      case Some(it) =>
        r.value.itemId == it.id && r.value.hsnCode == it.hsnCode &&
        r.value.price == it.sellingPrice && r.value.stock == it.stock
      case None =>
        r.value.itemId == "" && r.value.hsnCode == "" && r.value.price == 0.0 && r.value.stock == 0
  {
  }

  /** A quantity is refused exactly when it exceeds the row's stock; otherwise only
      the quantity changes, a value that is not a number counting as 0. */
  lemma QuantityGuard(line: SaleLine, options: seq<Catalogue.Item>, value: Input)
    ensures var q := value.asInt.GetOr(0);
      (ChangedLine(line, options, "quantity", value).None? <==> q > line.stock) &&
      (q <= line.stock ==> ChangedLine(line, options, "quantity", value) == Some(line.(quantity := q)))
  {
  }

  /** `handleItemChange` on the whole list: `None` leaves the list as it was. */
  function ItemsAfterChange(items: seq<SaleLine>, options: seq<Catalogue.Item>, idx: nat, key: string, value: Input)
    : (r: Option<seq<SaleLine>>)
    requires idx < |items|
    ensures r.None? <==> ChangedLine(items[idx], options, key, value).None?
    ensures r.Some? ==> |r.value| == |items|
    ensures r.Some? ==> r.value[idx] == ChangedLine(items[idx], options, key, value).value
    ensures r.Some? ==> forall j :: 0 <= j < |items| && j != idx ==> r.value[j] == items[j]
  {
    match ChangedLine(items[idx], options, key, value)
    case None => None
    case Some(l) => Some(items[idx := l])
  }

  /** The names in use on rows other than `currentIdx`. */
  function NamesInUse(items: seq<SaleLine>, currentIdx: int): seq<string>
  {
    var others := RemoveAt(items, currentIdx);
    seq(|others|, k requires 0 <= k < |others| => others[k].name)
  }

  /** No row other than `currentIdx` uses `name`. */
  predicate NameFree(items: seq<SaleLine>, currentIdx: int, name: string)
  {
    forall j :: 0 <= j < |items| && j != currentIdx ==> items[j].name != name
  }

  lemma NamesInUseIff(items: seq<SaleLine>, currentIdx: int, name: string)
    ensures name in NamesInUse(items, currentIdx) <==> !NameFree(items, currentIdx, name)
  {
    var others := RemoveAt(items, currentIdx);
    var names := NamesInUse(items, currentIdx);
    RemoveAtSpec(items, currentIdx);
    if 0 <= currentIdx < |items| {
      RemoveAtIndex(items, currentIdx);
      if !NameFree(items, currentIdx, name) {
        var j :| 0 <= j < |items| && j != currentIdx && items[j].name == name;
        if j < currentIdx {
          assert names[j] == name;
        } else {
          assert names[j - 1] == name;
        }
      }
      if name in names {
        var k :| 0 <= k < |names| && names[k] == name;
        if k < currentIdx {
          assert items[k].name == name;
        } else {
          assert items[k + 1].name == name;
        }
      }
    } else {
      if !NameFree(items, currentIdx, name) {
        var j :| 0 <= j < |items| && j != currentIdx && items[j].name == name;
        assert names[j] == name;
      }
    }
  }

  /** `getAvailableItemOptions(currentIdx)`. */
  function AvailableOptions(items: seq<SaleLine>, options: seq<Catalogue.Item>, currentIdx: int)
    : seq<Catalogue.Item>
  {
    var names := NamesInUse(items, currentIdx);
    Filter(options, (o: Catalogue.Item) => o.name !in names)
  }

  /** The options offered to a row keep the catalogue's order and leave out exactly
      the items whose name another row already uses. */
  lemma AvailableOptionsSpec(items: seq<SaleLine>, options: seq<Catalogue.Item>, currentIdx: int)
    ensures IsSubsequence(AvailableOptions(items, options, currentIdx), options)
    ensures forall k :: 0 <= k < |AvailableOptions(items, options, currentIdx)| ==>
      NameFree(items, currentIdx, AvailableOptions(items, options, currentIdx)[k].name)
    ensures forall k :: 0 <= k < |options| && NameFree(items, currentIdx, options[k].name) ==>
      options[k] in AvailableOptions(items, options, currentIdx)
  {
    var names := NamesInUse(items, currentIdx);
    var p := (o: Catalogue.Item) => o.name !in names;
    FilterIsSubsequence(options, p);
    var r := Filter(options, p);
    forall k | 0 <= k < |r| ensures NameFree(items, currentIdx, r[k].name) {
      NamesInUseIff(items, currentIdx, r[k].name);
    }
    forall k | 0 <= k < |options| && NameFree(items, currentIdx, options[k].name)
      ensures options[k] in r
    {
      NamesInUseIff(items, currentIdx, options[k].name);
    }
  }

  /** `k` is the position of the first customer called `name`. */
  predicate FirstCustomer(customers: seq<CustomerRecord>, name: string, k: int)
  {
    0 <= k < |customers| && customers[k].name == name &&
    forall j :: 0 <= j < k ==> customers[j].name != name
  }

  /** `customers.find(c => c.name === value)`. */
  function FindCustomer(customers: seq<CustomerRecord>, name: string): (r: Option<CustomerRecord>)
    ensures r.None? <==> forall j :: 0 <= j < |customers| ==> customers[j].name != name
    ensures r.Some? ==> exists k :: FirstCustomer(customers, name, k) && customers[k] == r.value
    decreases |customers|
  {
    if |customers| == 0 then None
    else if customers[0].name == name then
      assert FirstCustomer(customers, name, 0);
      Some(customers[0])
    else
      var r := FindCustomer(customers[1..], name);
      if r.Some? then
        var k :| FirstCustomer(customers[1..], name, k) && customers[1..][k] == r.value;
        assert FirstCustomer(customers, name, k + 1);
        r
      else r
  }

  /** `handleCustomerChange`: a listed customer brings its GSTIN; any other value
      keeps the name and gets the empty GSTIN. */
  function CustomerFor(customers: seq<CustomerRecord>, value: string): Party
  {
    match FindCustomer(customers, value)
    case Some(c) => Party(c.name, c.gstin)
    case None => Party(value, Some(""))
  }

  /** A value that names no listed customer is taxed on the IGST path. */
  lemma FreeTypedCustomerIsInterState(customers: seq<CustomerRecord>, value: string)
    requires forall j :: 0 <= j < |customers| ==> customers[j].name != value
    ensures CustomerFor(customers, value) == Party(value, Some(""))
    ensures !Gst.IsIntraState(CustomerFor(customers, value).gstin)
  {
  }

  /** The record `handleSave` posts. */
  datatype SalePayload = SalePayload(
    invoiceNo: string,
    invoiceDate: string,
    customerName: string,
    gstin: Option<string>,
    items: seq<SaleLine>,
    subtotal: real,
    cgst: real,
    sgst: real,
    igst: real,
    freight: Option<real>,
    total: real,
    poNo: string,
    poDate: string,
    status: string)

  /** The state of the form. The item catalogue and the customer list are what
      the form loaded when it opened. */
  class SalesForm {
    var invoiceNo: string
    var invoiceDate: string
    var customer: Party
    var customers: seq<CustomerRecord>
    var items: seq<SaleLine>
    var itemOptions: seq<Catalogue.Item>
    var freight: Option<real>
    var poNo: string
    var poDate: string

    /** A new form for `today`, with `salesCount` invoices already on record. */
    constructor (today: string, salesCount: nat, customers: seq<CustomerRecord>, itemOptions: seq<Catalogue.Item>)
      ensures invoiceNo == InvoiceNumber(salesCount) && invoiceDate == today && poDate == today && poNo == ""
      ensures customer == Party("", Some("")) && items == [InitialLine] && freight == Some(0.0)
      ensures this.customers == customers && this.itemOptions == itemOptions
    {
      invoiceNo := InvoiceNumber(salesCount);
      invoiceDate := today;
      customer := Party("", Some(""));
      this.customers := customers;
      items := [InitialLine];
      this.itemOptions := itemOptions;
      freight := Some(0.0);
      poNo := "";
      poDate := today;
    }

    /** `handleCustomerChange`. */
    method HandleCustomerChange(value: string)
      modifies this
      ensures customer == CustomerFor(customers, value)
      ensures items == old(items) && freight == old(freight) && customers == old(customers)
      ensures itemOptions == old(itemOptions) && invoiceNo == old(invoiceNo)
      ensures invoiceDate == old(invoiceDate) && poNo == old(poNo) && poDate == old(poDate)
    {
      var selected := FindCustomer(customers, value);
      customer := if selected.Some? then Party(selected.value.name, selected.value.gstin)
                  else Party(value, Some(""));
    }

    /** `handleItemChange`: a refused quantity leaves the list unchanged; any other
      change rewrites row `idx` alone. */
    method HandleItemChange(idx: nat, key: string, value: Input) returns (accepted: bool)
      requires idx < |items|
      modifies this
      ensures ItemsAfterChange(old(items), itemOptions, idx, key, value).Some? <==> accepted
      ensures accepted ==> items == ItemsAfterChange(old(items), itemOptions, idx, key, value).value
      ensures !accepted ==> items == old(items)
      ensures customer == old(customer) && freight == old(freight) && customers == old(customers)
      ensures itemOptions == old(itemOptions) && invoiceNo == old(invoiceNo)
      ensures invoiceDate == old(invoiceDate) && poNo == old(poNo) && poDate == old(poDate)
    {
      var updated := items;
      if key == "name" {
        var selectedItem := FindByName(itemOptions, value.text);
        var row := updated[idx];
        if selectedItem.Some? {
          var it := selectedItem.value;
          updated := updated[idx := row.(itemId := it.id, name := if it.name != "" then it.name else value.text,
                                         hsnCode := it.hsnCode, price := it.sellingPrice,
                                         gstRate := 18.0, stock := it.stock)];
        } else {
          updated := updated[idx := row.(itemId := "", name := value.text, hsnCode := "",
                                         price := 0.0, gstRate := 18.0, stock := 0)];
        }
      } else if key == "quantity" {
        var quantity := if value.asInt.Some? then value.asInt.value else 0;
        var availableStock := updated[idx].stock;
        if quantity > availableStock {
          return false;
        }
        updated := updated[idx := updated[idx].(quantity := quantity)];
      } else if key in ["price", "gstRate", "discount"] {
        var v := if value.asReal.Some? then value.asReal.value else 0.0;
        if key == "price" {
          updated := updated[idx := updated[idx].(price := v)];
        } else if key == "gstRate" {
          updated := updated[idx := updated[idx].(gstRate := v)];
        } else {
          updated := updated[idx := updated[idx].(discount := v)];
        }
      }
      items := updated;
      accepted := true;
    }

    /** `handleAddItem`. */
    method HandleAddItem()
      modifies this
      ensures items == old(items) + [InitialLine]
      ensures customer == old(customer) && freight == old(freight) && itemOptions == old(itemOptions)
      ensures customers == old(customers) && invoiceNo == old(invoiceNo)
      ensures invoiceDate == old(invoiceDate) && poNo == old(poNo) && poDate == old(poDate)
    {
      items := items + [InitialLine];
    }

    /** `handleRemoveItem`: drops row `idx` and keeps the others in order. */
    method HandleRemoveItem(idx: int)
      modifies this
      ensures items == RemoveAt(old(items), idx)
      ensures 0 <= idx < |old(items)| ==> items == old(items)[..idx] + old(items)[idx + 1..]
      ensures customer == old(customer) && freight == old(freight) && itemOptions == old(itemOptions)
      ensures customers == old(customers) && invoiceNo == old(invoiceNo)
      ensures invoiceDate == old(invoiceDate) && poNo == old(poNo) && poDate == old(poDate)
    {
      RemoveAtSpec(items, idx);
      items := RemoveAt(items, idx);
    }

    /** The freight field: `setFreight(parseFloat(value))`. */
    method SetFreight(value: Input)
      modifies this
      ensures freight == value.asReal
      ensures items == old(items) && customer == old(customer) && itemOptions == old(itemOptions)
      ensures customers == old(customers) && invoiceNo == old(invoiceNo)
      ensures invoiceDate == old(invoiceDate) && poNo == old(poNo) && poDate == old(poDate)
    {
      freight := value.asReal;
    }

    /** `handleSave`'s payload: the totals the summary panel shows, with the
      status every new sale starts in. */
    method SavePayload() returns (p: SalePayload)
      ensures p.invoiceNo == invoiceNo && p.invoiceDate == invoiceDate && p.customerName == customer.name
      ensures p.poNo == poNo && p.poDate == poDate
      ensures p.items == items && p.gstin == customer.gstin && p.freight == freight
      ensures p.subtotal == Subtotal(items)
      ensures p.total == GrandTotal(items, freight) == p.subtotal + p.cgst + p.sgst + p.igst + FreightAmount(freight)
      ensures Gst.IsIntraState(customer.gstin) ==> p.igst == 0.0 && p.cgst == p.sgst
      ensures !Gst.IsIntraState(customer.gstin) ==> p.cgst == 0.0 && p.sgst == 0.0
      ensures p.status == "under-process"
    {
      var gstValues := CalculateGst(items, customer.gstin, freight);
      var total := CalculateTotal(items, customer.gstin, freight);
      p := SalePayload(invoiceNo, invoiceDate, customer.name, customer.gstin, items, Subtotal(items),
                       gstValues.cgst, gstValues.sgst, gstValues.igst, freight, total,
                       poNo, poDate, "under-process");
    }
  }
}
