/** The wizard's second step: street address, city, state and ZIP code. */
module AddressInfoForm {

  import opened Rules
  import opened Callbacks
  import opened Patterns

  datatype AddressValues = AddressValues(streetAddress: string, city: string, state: string, zipCode: string)

  const Fields: set<string> := {"streetAddress", "city", "state", "zipCode"}

  /** The step's schema: four required fields, and a ZIP code that is five
      digits optionally followed by a hyphen and four digits. */
  function Errors(v: AddressValues): (errs: FieldErrors)
    ensures errs.Keys <= Fields
    ensures "streetAddress" in errs <==> v.streetAddress == ""
    ensures "city" in errs <==> v.city == ""
    ensures "state" in errs <==> v.state == ""
    ensures "zipCode" in errs <==> !IsZipPlus4(v.zipCode)
    ensures "zipCode" in errs ==> errs["zipCode"] == (if v.zipCode == "" then "Zip Code is required" else "Zip Code is invalid")
  {
    ZipPlus4Correct(v.zipCode);
    Report("streetAddress", Required(v.streetAddress, "Street Address is required"))
    + Report("city", Required(v.city, "City is required"))
    + Report("state", Required(v.state, "State is required"))
    + Report("zipCode", FirstOf(
        Required(v.zipCode, "Zip Code is required"),
        Test(MatchesZipPlus4(v.zipCode), "Zip Code is invalid")))
  }

  function Entered(v: AddressValues): (m: map<string, string>)
    ensures m.Keys == Fields
  {
    map["streetAddress" := v.streetAddress, "city" := v.city, "state" := v.state, "zipCode" := v.zipCode]
  }

  function Defaults(data: map<string, string>): AddressValues
  {
    AddressValues(Lookup(data, "streetAddress"), Lookup(data, "city"), Lookup(data, "state"), Lookup(data, "zipCode"))
  }

  /** Submitting the form: `onChange` then `onNext` when the schema passes, nothing otherwise. */
  function HandleSubmit(data: map<string, string>, v: AddressValues): (calls: seq<Callback>)
    ensures calls != [] <==> Errors(v) == map[]
    ensures calls != [] ==> |calls| == 2 && calls[0].OnChange? && calls[1] == OnNext
    ensures calls != [] ==> forall f :: f in Fields ==> Lookup(calls[0].newData, f) == Lookup(Entered(v), f)
  {
    if Errors(v) == map[] then [OnChange(Merge(data, Entered(v))), OnNext] else []
  }

  /** The Previous button is not a submit button: it calls `onPrev` without
      validating or passing on what was entered. */
  function Previous(): seq<Callback>
  {
    [OnPrev]
  }

  lemma DefaultsOfEntered(data: map<string, string>, v: AddressValues)
    ensures Defaults(data + Entered(v)) == v
  {
  }
}
