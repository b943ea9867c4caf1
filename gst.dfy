/** The GST jurisdiction rule shared by the sales and purchase invoice forms:
    the seller is registered in state "23" (Madhya Pradesh); a counterparty whose
    GSTIN starts with the same state code is intra-state (tax split into CGST and
    SGST halves), any other counterparty is inter-state (tax wholly IGST), as in
    sections 7 and 8 of the Integrated Goods and Services Tax Act, 2017. */
module Gst {
  import opened Wrappers

  /** The seller's own state code, the first two characters of its GSTIN. */
  const CompanyStateCode: string := "23"

  /** The rate applied to freight whatever the items' own rates. */
  const FreightRate: real := 18.0

  /** The three tax heads an invoice shows. */
  datatype Breakdown = Breakdown(cgst: real, sgst: real, igst: real)
  {
    function Total(): real { cgst + sgst + igst }
  }

  /** `gstin?.substring(0, 2)`: the first two characters, or fewer when the
      GSTIN is shorter; no code at all when there is no GSTIN. */
  function StateCode(gstin: Option<string>): (r: Option<string>)
    ensures r.None? <==> gstin.None?
    ensures r.Some? ==> |r.value| <= 2 && |r.value| <= |gstin.value|
    ensures r.Some? ==> r.value == gstin.value[..|r.value|]
    ensures r.Some? && |gstin.value| >= 2 ==> |r.value| == 2
  {
    match gstin
    case None => None
    case Some(g) => Some(if |g| <= 2 then g else g[..2])
  }

  /** `customerStateCode === companyStateCode`. */
  predicate IsIntraState(gstin: Option<string>)
  {
    StateCode(gstin) == Some(CompanyStateCode)
  }

  /** A counterparty is intra-state exactly when it has a GSTIN beginning with "23";
      in particular the empty GSTIN and a missing GSTIN are inter-state. */
  lemma IntraStateIff(gstin: Option<string>)
    ensures IsIntraState(gstin) <==>
      gstin.Some? && |gstin.value| >= 2 && gstin.value[0] == '2' && gstin.value[1] == '3'
  {
    if gstin.Some? && |gstin.value| >= 2 && gstin.value[0] == '2' && gstin.value[1] == '3' {
      assert gstin.value[..2] == CompanyStateCode;
    }
  }

  /** `(18 / 100) * freightAmount`. */
  function FreightTax(freight: real): real
  {
    (FreightRate / 100.0) * freight
  }
}
