/** The purchase invoice form (`PurchaseForm`): the vendor choice, the item
    being entered, the list of purchased items, the tax calculator and the
    totals, and the submit guard. */
module PurchaseInvoice {
  import opened Wrappers
  import opened Seqs
  import opened Text
  import Gst
  import Catalogue

  /** One purchased item as it is added to the list. */
  datatype PurchaseLine = PurchaseLine(name: string, hsnCode: string, quantity: int, gstRate: real, price: real)

  /** The item being entered, before "Add". */
  datatype Draft = Draft(hsnCode: string, quantity: int, price: real, gstRate: real)

  /** The item entry the form starts with and returns to after every add. */
  const InitialDraft: Draft := Draft("", 1, 0.0, 18.0)

  /** The rate every purchased item is added with and taxed at. */
  const PurchaseRate: real := 18.0

  /** A vendor record as `/api/vendors` serves it; its GSTIN may be absent. */
  datatype VendorRecord = VendorRecord(name: string, gstin: Option<string>)

  /** What the form posts to `/api/purchases`; `gstin` is the vendor's own field. */
  datatype PurchasePayload = PurchasePayload(
    invoiceNo: string,
    invoiceDate: string,
    vendorName: string,
    gstin: Option<string>,
    items: seq<PurchaseLine>,
    freight: real,
    subtotal: real,
    total: real,
    cgst: real,
    sgst: real,
    igst: real)

  const MissingFields: string := "Fill all required fields"

  // ---------------------------------------------------------------------------
  // The tax calculator and the totals

  /** `item.quantity * item.price`: no discount on purchases. */
  function Amount(l: PurchaseLine): real
  {
    l.quantity as real * l.price
  }

  /** The tax on one item: 18% of its amount, whatever its own `gstRate`. */
  function LineTax(l: PurchaseLine): real
  {
    (PurchaseRate / 100.0) * Amount(l)
  }

  function Subtotal(items: seq<PurchaseLine>): real
  {
    Sum(items, Amount)
  }

  function ItemTax(items: seq<PurchaseLine>): real
  {
    Sum(items, LineTax)
  }

  /** The item tax is 18% of the subtotal: an item's own rate plays no part. */
  lemma ItemTaxIsFixedRate(items: seq<PurchaseLine>)
    ensures ItemTax(items) == (PurchaseRate / 100.0) * Subtotal(items)
  {
    SumScaled(items, LineTax, PurchaseRate / 100.0, Amount);
  }

  /** Changing the items' recorded rates does not change the tax. */
  lemma ItemTaxIgnoresRate(items: seq<PurchaseLine>, rates: seq<real>)
    requires |rates| == |items|
    ensures ItemTax(seq(|items|, i requires 0 <= i < |items| => items[i].(gstRate := rates[i]))) == ItemTax(items)
  {
    var changed := seq(|items|, i requires 0 <= i < |items| => items[i].(gstRate := rates[i]));
    ItemTaxIsFixedRate(items);
    ItemTaxIsFixedRate(changed);
    assert Subtotal(changed) == Subtotal(items) by {
      SameAmountsSameSubtotal(items, changed);
    }
  }

  /** Two lists whose items have the same amounts have the same subtotal. */
  lemma {:induction false} SameAmountsSameSubtotal(a: seq<PurchaseLine>, b: seq<PurchaseLine>)
    requires |a| == |b|
    requires forall i :: 0 <= i < |a| ==> Amount(a[i]) == Amount(b[i])
    ensures Subtotal(a) == Subtotal(b)
    decreases |a|
  {
    if |a| > 0 {
      SameAmountsSameSubtotal(a[..|a| - 1], b[..|b| - 1]);
    }
  }

  /** `calculateGST`: 18% of every item's amount and 18% of the freight, split
      into CGST and SGST halves for a vendor in the buyer's state, wholly IGST
      otherwise. */
  method CalculateGst(items: seq<PurchaseLine>, gstin: string, freight: real) returns (gst: Gst.Breakdown)
    ensures Gst.IsIntraState(Some(gstin)) ==>
      gst.igst == 0.0 &&
      gst.cgst == gst.sgst == (ItemTax(items) + Gst.FreightTax(freight)) / 2.0
    ensures !Gst.IsIntraState(Some(gstin)) ==>
      gst.cgst == 0.0 && gst.sgst == 0.0 &&
      gst.igst == ItemTax(items) + Gst.FreightTax(freight)
  {
    var intra := Gst.StateCode(Some(gstin)) == Some(Gst.CompanyStateCode);
    var cgst, sgst, igst := 0.0, 0.0, 0.0;
    var k := 0;
    while k < |items|
      invariant 0 <= k <= |items|
      invariant intra ==> cgst == sgst == ItemTax(items[..k]) / 2.0 && igst == 0.0
      invariant !intra ==> cgst == 0.0 && sgst == 0.0 && igst == ItemTax(items[..k])
    {
      var item := items[k];
      var gstRate := 18.0;
      var amount := item.quantity as real * item.price;
      var gstAmount := (gstRate / 100.0) * amount;
      if intra {
        cgst := cgst + gstAmount / 2.0;
        sgst := sgst + gstAmount / 2.0;
      } else {
        igst := igst + gstAmount;
      }
      assert items[..k + 1][..k] == items[..k];
      k := k + 1;
    }
    assert items[..k] == items;
    var freightGst := (18.0 / 100.0) * freight;
    if intra {
      cgst := cgst + freightGst / 2.0;
      sgst := sgst + freightGst / 2.0;
    } else {
      igst := igst + freightGst;
    }
    gst := Gst.Breakdown(cgst, sgst, igst);
  }

  /** `calculateTotals`: the subtotal without discounts, the tax heads, and a
      total that comes to 118% of items plus freight on either tax path. */
  method CalculateTotals(items: seq<PurchaseLine>, gstin: string, freight: real)
    returns (subtotal: real, gst: Gst.Breakdown, total: real)
    ensures subtotal == Subtotal(items)
    ensures total == subtotal + gst.cgst + gst.sgst + gst.igst + freight
    ensures total == (1.0 + PurchaseRate / 100.0) * (Subtotal(items) + freight)
    ensures Gst.IsIntraState(Some(gstin)) ==> gst.igst == 0.0 && gst.cgst == gst.sgst
    ensures !Gst.IsIntraState(Some(gstin)) ==> gst.cgst == 0.0 && gst.sgst == 0.0
  {
    subtotal := Subtotal(items);
    gst := CalculateGst(items, gstin, freight);
    total := subtotal + gst.cgst + gst.sgst + gst.igst + freight;
    ItemTaxIsFixedRate(items);
  }

  // ---------------------------------------------------------------------------
  // Lookups and inputs

  /** `items.find(i => i.name.toLowerCase() === val.toLowerCase())` found its
      hit at `k`. */
  predicate FirstMatch(catalogue: seq<Catalogue.Item>, name: string, k: int)
  {
    0 <= k < |catalogue| && ToLower(catalogue[k].name) == ToLower(name) &&
    forall j :: 0 <= j < k ==> ToLower(catalogue[j].name) != ToLower(name)
  }

  /** The first catalogue item whose name equals `name` ignoring case. */
  function FindIgnoringCase(catalogue: seq<Catalogue.Item>, name: string): (r: Option<Catalogue.Item>)
    ensures r.None? <==> forall j :: 0 <= j < |catalogue| ==> ToLower(catalogue[j].name) != ToLower(name)
    ensures r.Some? ==> exists k :: FirstMatch(catalogue, name, k) && catalogue[k] == r.value
    decreases |catalogue|
  {
    if |catalogue| == 0 then None
    else if ToLower(catalogue[0].name) == ToLower(name) then
      assert FirstMatch(catalogue, name, 0);
      Some(catalogue[0])
    else
      var r := FindIgnoringCase(catalogue[1..], name);
      if r.Some? then
        var k :| FirstMatch(catalogue[1..], name, k) && catalogue[1..][k] == r.value;
        MatchShift(catalogue, name, k);
        r
      else
        NoMatchShift(catalogue, name);
        r
  }

  lemma MatchShift(catalogue: seq<Catalogue.Item>, name: string, k: int)
    requires |catalogue| > 0 && ToLower(catalogue[0].name) != ToLower(name)
    requires FirstMatch(catalogue[1..], name, k)
    ensures FirstMatch(catalogue, name, k + 1) && catalogue[k + 1] == catalogue[1..][k]
  {
    var rest := catalogue[1..];
    forall j | 0 <= j < k + 1
      ensures ToLower(catalogue[j].name) != ToLower(name)
    {
      if j > 0 {
        assert catalogue[j] == rest[j - 1];
      }
    }
  }

  lemma NoMatchShift(catalogue: seq<Catalogue.Item>, name: string)
    requires |catalogue| > 0 && ToLower(catalogue[0].name) != ToLower(name)
    requires forall j :: 0 <= j < |catalogue| - 1 ==> ToLower(catalogue[1..][j].name) != ToLower(name)
    ensures forall j :: 0 <= j < |catalogue| ==> ToLower(catalogue[j].name) != ToLower(name)
  {
    var rest := catalogue[1..];
    forall j | 0 <= j < |catalogue|
      ensures ToLower(catalogue[j].name) != ToLower(name)
    {
      if j > 0 {
        assert catalogue[j] == rest[j - 1];
      }
    }
  }

  /** The item entry after typing `name`: a match fills the HSN code and the
      buying price, keeping the current price when the buying price is zero. */
  function DraftAfterName(d: Draft, catalogue: seq<Catalogue.Item>, name: string): (r: Draft)
    ensures r.quantity == d.quantity && r.gstRate == d.gstRate
    ensures FindIgnoringCase(catalogue, name).None? ==> r == d
    ensures FindIgnoringCase(catalogue, name).Some? ==>
      var it := FindIgnoringCase(catalogue, name).value;
      r.hsnCode == it.hsnCode && (r.price == if it.buyingPrice != 0.0 then it.buyingPrice else d.price)
  {
    match FindIgnoringCase(catalogue, name)
    case None => d
    case Some(found) => d.(hsnCode := found.hsnCode, price := if found.buyingPrice != 0.0 then found.buyingPrice else d.price)
  }

  /** `parseInt(value) || 1`: a quantity that is not a number, or zero, becomes 1. */
  function QuantityInput(value: Input): (q: int)
    ensures value.asInt.Some? && value.asInt.value != 0 ==> q == value.asInt.value
    ensures value.asInt.None? || value.asInt.value == 0 ==> q == 1
    ensures q != 0
  {
    match value.asInt
    case Some(n) => if n != 0 then n else 1
    case None => 1
  }

  /** `parseFloat(value) || 0`: a price that is not a number becomes 0. */
  function PriceInput(value: Input): (p: real)
    ensures value.asReal.Some? ==> p == value.asReal.value
    ensures value.asReal.None? ==> p == 0.0
  {
    value.asReal.GetOr(0.0)
  }

  /** `vendor?.gstin || ''`: no vendor, no GSTIN and an empty GSTIN all show as "". */
  function VendorGstin(vendor: Option<VendorRecord>): (g: string)
    ensures g != "" <==> vendor.Some? && vendor.value.gstin.Some? && vendor.value.gstin.value != ""
    ensures g != "" ==> g == vendor.value.gstin.value
  {
    match vendor
    case None => ""
    case Some(v) => v.gstin.GetOr("")
  }

  /** Without a vendor GSTIN the purchase is inter-state: all tax is IGST. */
  lemma NoGstinIsInterState(vendor: Option<VendorRecord>)
    requires VendorGstin(vendor) == ""
    ensures !Gst.IsIntraState(Some(VendorGstin(vendor)))
  {
    Gst.IntraStateIff(Some(VendorGstin(vendor)));
  }

  /** The line `handleAddItem` appends, or None when its guard refuses: an
      empty name, a quantity of zero or less, or a price of zero or less. */
  function LineToAdd(name: string, d: Draft): (r: Option<PurchaseLine>)
    ensures r.None? <==> name == "" || d.quantity <= 0 || d.price <= 0.0
    ensures r.Some? ==> r.value == PurchaseLine(name, d.hsnCode, d.quantity, PurchaseRate, d.price)
  {
    if name == "" || d.quantity <= 0 || d.price <= 0.0 then None
    else Some(PurchaseLine(name, d.hsnCode, d.quantity, PurchaseRate, d.price))
  }

  /** Every line in the list passed the add guard and carries the fixed rate. */
  predicate WellFormedLine(l: PurchaseLine)
  {
    l.name != "" && l.quantity > 0 && l.price > 0.0 && l.gstRate == PurchaseRate
  }

  /** A line the guard lets through is well formed. */
  lemma AddedLineWellFormed(name: string, d: Draft)
    requires LineToAdd(name, d).Some?
    ensures WellFormedLine(LineToAdd(name, d).value)
  {
  }

  /** Well-formed lines have a positive amount, so the subtotal of a
      non-empty list is positive. */
  lemma {:induction false} WellFormedSubtotal(items: seq<PurchaseLine>)
    requires forall i :: 0 <= i < |items| ==> WellFormedLine(items[i])
    ensures |items| > 0 ==> Subtotal(items) > 0.0
    ensures Subtotal(items) >= 0.0
    decreases |items|
  {
    if |items| > 0 {
      var l := items[|items| - 1];
      assert WellFormedLine(l);
      WellFormedSubtotal(items[..|items| - 1]);
      assert Amount(l) > 0.0 by {
        assert l.quantity as real >= 1.0;
        assert l.quantity as real * l.price >= l.price;
      }
    }
  }

  /** The submit guard: refused unless the invoice number and date are filled
      in, a vendor is chosen and at least one item is listed. */
  predicate CanSubmit(invoiceNo: string, invoiceDate: string, vendor: Option<VendorRecord>, items: seq<PurchaseLine>)
  {
    invoiceNo != "" && invoiceDate != "" && vendor.Some? && |items| != 0
  }

  // ---------------------------------------------------------------------------
  // The form

  class PurchaseForm {
    var vendors: seq<VendorRecord>
    var catalogue: seq<Catalogue.Item>
    var selectedVendor: Option<VendorRecord>
    var gstin: string
    var invoiceNo: string
    var invoiceDate: string
    var selectedItems: seq<PurchaseLine>
    var currentItemName: string
    var currentItem: Draft
    var freight: real

    /** The form's invariant: every listed item passed the add guard. */
    predicate Valid()
      reads this
    {
      forall i :: 0 <= i < |selectedItems| ==> WellFormedLine(selectedItems[i])
    }

    /** A blank form over the vendors and items fetched at start-up. */
    constructor (vendors: seq<VendorRecord>, catalogue: seq<Catalogue.Item>)
      ensures Valid()
      ensures this.vendors == vendors && this.catalogue == catalogue
      ensures selectedVendor == None && gstin == "" && invoiceNo == "" && invoiceDate == ""
      ensures selectedItems == [] && currentItemName == "" && currentItem == InitialDraft && freight == 0.0
    {
      this.vendors := vendors;
      this.catalogue := catalogue;
      selectedVendor := None;
      gstin := "";
      invoiceNo := "";
      invoiceDate := "";
      selectedItems := [];
      currentItemName := "";
      currentItem := InitialDraft;
      freight := 0.0;
    }

    /** `handleVendorChange`. */
    method HandleVendorChange(vendor: Option<VendorRecord>)
      modifies this
      ensures selectedVendor == vendor && gstin == VendorGstin(vendor)
      ensures selectedItems == old(selectedItems) && currentItem == old(currentItem)
      ensures currentItemName == old(currentItemName) && freight == old(freight)
      ensures invoiceNo == old(invoiceNo) && invoiceDate == old(invoiceDate)
      ensures catalogue == old(catalogue) && vendors == old(vendors)
    {
      selectedVendor := vendor;
      gstin := match vendor case Some(v) => (match v.gstin case Some(g) => g case None => "") case None => "";
    }

    /** `handleAddItem`: a refused entry changes nothing; an accepted one is
      appended with the fixed rate and the entry is reset. */
    method HandleAddItem()
      requires Valid()
      modifies this
      ensures Valid()
      ensures LineToAdd(old(currentItemName), old(currentItem)).None? ==>
        selectedItems == old(selectedItems) && currentItemName == old(currentItemName) &&
        currentItem == old(currentItem)
      ensures LineToAdd(old(currentItemName), old(currentItem)).Some? ==>
        selectedItems == old(selectedItems) + [LineToAdd(old(currentItemName), old(currentItem)).value] &&
        currentItemName == "" && currentItem == InitialDraft
      ensures gstin == old(gstin) && selectedVendor == old(selectedVendor) && freight == old(freight)
      ensures invoiceNo == old(invoiceNo) && invoiceDate == old(invoiceDate)
      ensures catalogue == old(catalogue) && vendors == old(vendors)
    {
      if currentItemName == "" || currentItem.quantity <= 0 || currentItem.price <= 0.0 {
        return;
      }
      var itemToAdd := PurchaseLine(currentItemName, currentItem.hsnCode, currentItem.quantity, 18.0, currentItem.price);
      selectedItems := selectedItems + [itemToAdd];
      currentItemName := "";
      currentItem := Draft("", 1, 0.0, 18.0);
    }

    /** `handleRemoveItem`: drops the item at `index`, keeping the others in order. */
    method HandleRemoveItem(index: int)
      requires Valid()
      modifies this
      ensures Valid()
      ensures selectedItems == RemoveAt(old(selectedItems), index)
      ensures 0 <= index < |old(selectedItems)| ==>
        selectedItems == old(selectedItems)[..index] + old(selectedItems)[index + 1..]
      ensures !(0 <= index < |old(selectedItems)|) ==> selectedItems == old(selectedItems)
      ensures gstin == old(gstin) && selectedVendor == old(selectedVendor) && freight == old(freight)
      ensures currentItemName == old(currentItemName) && currentItem == old(currentItem)
      ensures invoiceNo == old(invoiceNo) && invoiceDate == old(invoiceDate)
      ensures catalogue == old(catalogue) && vendors == old(vendors)
    {
      var before := selectedItems;
      RemoveAtSpec(before, index);
      selectedItems := RemoveAt(before, index);
      if 0 <= index < |before| {
        RemoveAtIndex(before, index);
        forall i | 0 <= i < |selectedItems|
          ensures WellFormedLine(selectedItems[i])
        {
          if i < index {
            assert selectedItems[i] == before[i];
          } else {
            assert selectedItems[i] == before[i + 1];
          }
        }
      }
    }

    /** The item-name field: record the text and fill in from a matching item. */
    method OnItemNameInput(name: string)
      modifies this
      ensures currentItemName == name && currentItem == DraftAfterName(old(currentItem), catalogue, name)
      ensures selectedItems == old(selectedItems) && gstin == old(gstin) && freight == old(freight)
      ensures selectedVendor == old(selectedVendor) && catalogue == old(catalogue) && vendors == old(vendors)
      ensures invoiceNo == old(invoiceNo) && invoiceDate == old(invoiceDate)
    {
      currentItemName := name;
      var found := FindIgnoringCase(catalogue, name);
      if found.Some? {
        var it := found.value;
        currentItem := currentItem.(hsnCode := it.hsnCode,
                                    price := if it.buyingPrice != 0.0 then it.buyingPrice else currentItem.price);
      }
    }

    /** The HSN field. */
    method OnHsnInput(hsnCode: string)
      modifies this
      ensures currentItem == old(currentItem).(hsnCode := hsnCode)
      ensures currentItemName == old(currentItemName) && selectedItems == old(selectedItems)
      ensures gstin == old(gstin) && freight == old(freight) && selectedVendor == old(selectedVendor)
      ensures catalogue == old(catalogue) && invoiceNo == old(invoiceNo) && invoiceDate == old(invoiceDate)
      ensures vendors == old(vendors)
    {
      currentItem := currentItem.(hsnCode := hsnCode);
    }

    /** The quantity field. */
    method OnQuantityInput(value: Input)
      modifies this
      ensures currentItem == old(currentItem).(quantity := QuantityInput(value))
      ensures currentItemName == old(currentItemName) && selectedItems == old(selectedItems)
      ensures gstin == old(gstin) && freight == old(freight) && selectedVendor == old(selectedVendor)
      ensures catalogue == old(catalogue) && invoiceNo == old(invoiceNo) && invoiceDate == old(invoiceDate)
      ensures vendors == old(vendors)
    {
      var q := if value.asInt.Some? && value.asInt.value != 0 then value.asInt.value else 1;
      currentItem := currentItem.(quantity := q);
    }

    /** The price field. */
    method OnPriceInput(value: Input)
      modifies this
      ensures currentItem == old(currentItem).(price := PriceInput(value))
      ensures currentItemName == old(currentItemName) && selectedItems == old(selectedItems)
      ensures gstin == old(gstin) && freight == old(freight) && selectedVendor == old(selectedVendor)
      ensures catalogue == old(catalogue) && invoiceNo == old(invoiceNo) && invoiceDate == old(invoiceDate)
      ensures vendors == old(vendors)
    {
      var p := if value.asReal.Some? then value.asReal.value else 0.0;
      currentItem := currentItem.(price := p);
    }

    /** `handleSubmit` up to the request: the guard's message, or the payload
      with the totals the summary panel shows. Every listed item passed the add
      guard, so a submitted subtotal is positive. */
    method Submit() returns (r: Result<PurchasePayload>)
      requires Valid()
      ensures r.Failure? <==> !CanSubmit(invoiceNo, invoiceDate, selectedVendor, selectedItems)
      ensures r.Failure? ==> r.message == MissingFields
      ensures r.Success? ==>
        var p := r.value;
        p.invoiceNo == invoiceNo && p.invoiceDate == invoiceDate &&
        p.vendorName == selectedVendor.value.name && p.gstin == selectedVendor.value.gstin &&
        p.items == selectedItems && p.freight == freight && p.subtotal == Subtotal(selectedItems) &&
        p.total == (1.0 + PurchaseRate / 100.0) * (Subtotal(selectedItems) + freight) &&
        p.total == p.subtotal + p.cgst + p.sgst + p.igst + freight &&
        (Gst.IsIntraState(Some(gstin)) ==> p.igst == 0.0 && p.cgst == p.sgst) &&
        (!Gst.IsIntraState(Some(gstin)) ==> p.cgst == 0.0 && p.sgst == 0.0)
      ensures r.Success? ==> r.value.subtotal > 0.0
    {
      if invoiceNo == "" || invoiceDate == "" || selectedVendor.None? || |selectedItems| == 0 {
        return Failure("Fill all required fields");
      }
      WellFormedSubtotal(selectedItems);
      var subtotal, gst, total := CalculateTotals(selectedItems, gstin, freight);
      r := Success(PurchasePayload(invoiceNo, invoiceDate, selectedVendor.value.name, selectedVendor.value.gstin,
                                   selectedItems, freight, subtotal, total, gst.cgst, gst.sgst, gst.igst));
    }

    /** After the purchase is saved: the invoice fields, the vendor, the items and
      the freight start over; the item entry is kept. */
    method ResetAfterSave()
      modifies this
      ensures Valid()
      ensures invoiceNo == "" && invoiceDate == "" && selectedVendor == None && gstin == ""
      ensures selectedItems == [] && freight == 0.0
      ensures currentItemName == old(currentItemName) && currentItem == old(currentItem)
      ensures catalogue == old(catalogue) && vendors == old(vendors)
    {
      invoiceNo := "";
      invoiceDate := "";
      selectedVendor := None;
      gstin := "";
      selectedItems := [];
      freight := 0.0;
    }
  }
}
