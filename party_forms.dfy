/** The add/edit form of the Vendors and Customers master pages. Both pages hold
    the fields as an object keyed by the input's name and a second object of
    error flags; they differ only in the flags `openForm` resets. The address
    column of both tables is shortened the same way. */
module PartyForms {
  import opened Wrappers
  import opened Text
  import Gstin

  /** The master page the form belongs to. */
  datatype Page = VendorsPage | CustomersPage

  /** A vendor or customer as the API serves it. */
  datatype PartyRecord = PartyRecord(id: int, name: string, gstin: string, contact: string, address: string)

  const BlankForm: map<string, string> := map["name" := "", "gstin" := "", "contact" := "", "address" := ""]

  /** The fields `openForm` copies from the record being edited. */
  function RecordForm(r: PartyRecord): (form: map<string, string>)
    ensures form.Keys == BlankForm.Keys
    ensures form["name"] == r.name && form["gstin"] == r.gstin
    ensures form["contact"] == r.contact && form["address"] == r.address
  {
    map["name" := r.name, "gstin" := r.gstin, "contact" := r.contact, "address" := r.address]
  }

  /** Every field the form reads is present. */
  predicate HasFields(form: map<string, string>)
  {
    "name" in form && "gstin" in form && "contact" in form && "address" in form
  }

  /** The flags both pages start with. */
  const InitialErrors: map<string, bool> := map["name" := false, "gstin" := false, "contact" := false]

  /** The flags `openForm` resets to: all three checked fields on the Vendors
      page; on the Customers page only name and contact, so the gstin flag
      disappears until the next validation. */
  function OpenErrors(page: Page): (r: map<string, bool>)
    ensures forall k :: k in r ==> !r[k]
    ensures "name" in r && "contact" in r
    ensures "gstin" in r <==> page == VendorsPage
    ensures r.Keys <= InitialErrors.Keys
  {
    match page
    case VendorsPage => InitialErrors
    case CustomersPage => map["name" := false, "contact" := false]
  }

  /** `Object.values(errors).some(Boolean)` is false. */
  predicate NoErrors(errors: map<string, bool>)
  {
    forall k :: k in errors ==> !errors[k]
  }

  /** `validateForm`'s flags: name and contact are flagged when they are blank
      after trimming, gstin when it does not match the GSTIN pattern. */
  function Validation(form: map<string, string>): (r: map<string, bool>)
    requires "name" in form && "gstin" in form && "contact" in form
    ensures r.Keys == InitialErrors.Keys
    ensures r["name"] <==> forall i :: 0 <= i < |form["name"]| ==> IsWhitespace(form["name"][i])
    ensures r["contact"] <==> forall i :: 0 <= i < |form["contact"]| ==> IsWhitespace(form["contact"][i])
    ensures r["gstin"] <==> !Gstin.Matches(form["gstin"], Gstin.GstinPattern)
    ensures NoErrors(r) <==> !IsBlank(form["name"]) && !IsBlank(form["contact"]) && Gstin.IsGstin(form["gstin"])
  {
    BlankIff(form["name"]);
    BlankIff(form["contact"]);
    Gstin.PatternIff(form["gstin"]);
    var r := map["name" := IsBlank(form["name"]), "gstin" := !Gstin.IsGstin(form["gstin"]), "contact" := IsBlank(form["contact"])];
    r
  }

  /** `handleChange`'s update of the flags: the changed field's flag is cleared
      if it was set; no other flag changes and no flag is added. */
  function ClearError(errors: map<string, bool>, name: string): (r: map<string, bool>)
    ensures r.Keys == errors.Keys
    ensures forall k :: k in r ==> (r[k] <==> errors[k] && k != name)
  {
    if name in errors && errors[name] then errors[name := false] else errors
  }

  /** A newly opened form shows no errors, and editing it keeps it so until it
      is validated. */
  lemma ClearErrorKeepsClean(errors: map<string, bool>, name: string)
    requires NoErrors(errors)
    ensures ClearError(errors, name) == errors
  {
  }

  /** The address cell: the first 20 characters and "..." when the address is
      longer, the address itself otherwise, nothing when there is none. */
  function AddressCell(address: Option<string>): (r: Option<string>)
    ensures r.None? <==> address.None?
    ensures r.Some? && |address.value| <= 20 ==> r.value == address.value
    ensures r.Some? && |address.value| > 20 ==>
      |r.value| == 23 && r.value[..20] == address.value[..20] && r.value[20..] == "..."
  {
    match address
    case None => None
    case Some(a) => Some(Truncate(a, 20))
  }

  /** The form's state. */
  class PartyForm {
    const page: Page
    var formData: map<string, string>
    var errors: map<string, bool>
    var editingId: Option<int>
    var isOpen: bool

    predicate Valid()
      reads this
    {
      HasFields(formData) && errors.Keys <= InitialErrors.Keys
    }

    constructor (page: Page)
      ensures Valid()
      ensures this.page == page && formData == BlankForm && errors == InitialErrors
      ensures editingId == None && !isOpen
    {
      this.page := page;
      formData := BlankForm;
      errors := InitialErrors;
      editingId := None;
      isOpen := false;
    }

    /** `openForm(record)` edits a copy of the record; `openForm()` starts a new one. */
    method OpenForm(record: Option<PartyRecord>)
      modifies this
      ensures Valid()
      ensures record.Some? ==> formData == RecordForm(record.value) && editingId == Some(record.value.id)
      ensures record.None? ==> formData == BlankForm && editingId == None
      ensures errors == OpenErrors(page) && isOpen
    {
      match record {
        case Some(r) =>
          editingId := Some(r.id);
          formData := RecordForm(r);
        case None =>
          editingId := None;
          formData := BlankForm;
      }
      errors := OpenErrors(page);
      isOpen := true;
    }

    /** `handleChange`: one field changes and its flag, if set, is cleared. */
    method HandleChange(name: string, value: string)
      requires Valid()
      modifies this
      ensures Valid()
      ensures formData == old(formData)[name := value]
      ensures errors == ClearError(old(errors), name)
      ensures editingId == old(editingId) && isOpen == old(isOpen)
    {
      formData := formData[name := value];
      errors := ClearError(errors, name);
    }

    /** `validateForm`: sets every flag and answers whether none is set. */
    method ValidateForm() returns (ok: bool)
      requires Valid()
      modifies this
      ensures Valid()
      ensures errors == Validation(formData)
      ensures ok <==> !IsBlank(formData["name"]) && !IsBlank(formData["contact"]) && Gstin.IsGstin(formData["gstin"])
      ensures formData == old(formData) && editingId == old(editingId) && isOpen == old(isOpen)
    {
      errors := Validation(formData);
      ok := forall k | k in errors :: !errors[k];
    }
  }
}
