/** The wizard's first step: full name, e-mail address and date of birth. */
module PersonalInfoForm {

  import opened Rules
  import opened Callbacks

  datatype PersonalValues = PersonalValues(fullName: string, email: string, dateOfBirth: string)

  const Fields: set<string> := {"fullName", "email", "dateOfBirth"}

  /** The step's schema. The e-mail test skips the empty string, so an empty
      address is reported as missing; `isEmail` stands for the library's
      e-mail syntax check. The date of birth is only a required string: no
      bound against today's date is applied here. */
  function Errors(v: PersonalValues, isEmail: string -> bool): (errs: FieldErrors)
    ensures errs.Keys <= Fields
    ensures "fullName" in errs <==> v.fullName == ""
    ensures "email" in errs <==> v.email == "" || !isEmail(v.email)
    ensures "dateOfBirth" in errs <==> v.dateOfBirth == ""
    ensures "fullName" in errs ==> errs["fullName"] == "Full Name is required"
    ensures "email" in errs ==> errs["email"] == (if v.email == "" then "Email is required" else "Email is invalid")
    ensures "dateOfBirth" in errs ==> errs["dateOfBirth"] == "Date of Birth is required"
  {
    Report("fullName", Required(v.fullName, "Full Name is required"))
    + Report("email", FirstOf(
        Test(v.email == "" || isEmail(v.email), "Email is invalid"),
        Required(v.email, "Email is required")))
    + Report("dateOfBirth", Required(v.dateOfBirth, "Date of Birth is required"))
  }

  /** The fields this form registers, as entered. */
  function Entered(v: PersonalValues): (m: map<string, string>)
    ensures m.Keys == Fields
  {
    map["fullName" := v.fullName, "email" := v.email, "dateOfBirth" := v.dateOfBirth]
  }

  /** The values the form starts from: the wizard's whole record. */
  function Defaults(data: map<string, string>): PersonalValues
  {
    PersonalValues(Lookup(data, "fullName"), Lookup(data, "email"), Lookup(data, "dateOfBirth"))
  }

  /** Submitting the form: nothing is called while the schema reports an error;
      otherwise `onChange` receives the values and then `onNext` is called. */
  function HandleSubmit(data: map<string, string>, v: PersonalValues, isEmail: string -> bool): (calls: seq<Callback>)
    ensures calls != [] <==> Errors(v, isEmail) == map[]
    ensures calls != [] ==> |calls| == 2 && calls[0].OnChange? && calls[1] == OnNext
    ensures calls != [] ==> forall f :: f in Fields ==> Lookup(calls[0].newData, f) == Lookup(Entered(v), f)
  {
    if Errors(v, isEmail) == map[] then [OnChange(Merge(data, Entered(v))), OnNext] else []
  }

  /** Reading back what the form entered gives the values that were entered. */
  lemma DefaultsOfEntered(data: map<string, string>, v: PersonalValues)
    ensures Defaults(data + Entered(v)) == v
  {
  }
}
