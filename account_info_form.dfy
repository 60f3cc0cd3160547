/** The wizard's last step: username and password. */
module AccountInfoForm {

  import opened Rules
  import opened Callbacks
  import opened Patterns

  datatype AccountValues = AccountValues(username: string, password: string)

  const Fields: set<string> := {"username", "password"}

  /** The password's rules in declared order: required, at least eight
      characters, then the password pattern. */
  function PasswordRule(p: string): (r: Option<string>)
    ensures r.None? <==> Utf16Length(p) >= 8 && IsStrongPassword(p)
    ensures p == "" ==> r == Some("Password is required")
    ensures 0 < Utf16Length(p) < 8 ==> r == Some("Password must be at least 8 characters")
    ensures Utf16Length(p) >= 8 && !IsStrongPassword(p) ==> r == Some(PatternMessage)
  {
    PasswordCorrect(p);
    FirstOf(
      Required(p, "Password is required"),
      FirstOf(
        MinLength(p, 8, "Password must be at least 8 characters"),
        Test(MatchesPassword(p), PatternMessage)))
  }

  const PatternMessage := "Password must contain one uppercase, one lowercase, one number, and one special character"

  /** The step's schema: a required username with no minimum length, and a
      password that passes its rules. */
  function Errors(v: AccountValues): (errs: FieldErrors)
    ensures errs.Keys <= Fields
    ensures "username" in errs <==> v.username == ""
    ensures "password" in errs <==> !(Utf16Length(v.password) >= 8 && IsStrongPassword(v.password))
    ensures "password" in errs ==> Some(errs["password"]) == PasswordRule(v.password)
  {
    Report("username", Required(v.username, "Username is required"))
    + Report("password", PasswordRule(v.password))
  }

  function Entered(v: AccountValues): (m: map<string, string>)
    ensures m.Keys == Fields
  {
    map["username" := v.username, "password" := v.password]
  }

  function Defaults(data: map<string, string>): AccountValues
  {
    AccountValues(Lookup(data, "username"), Lookup(data, "password"))
  }

  /** Submitting the last step hands the values to `onChange` and never calls
      `onNext`: the wizard stays on this step (the completion alert is not modelled). */
  function HandleSubmit(data: map<string, string>, v: AccountValues): (calls: seq<Callback>)
    ensures calls != [] <==> Errors(v) == map[]
    ensures calls != [] ==> |calls| == 1 && calls[0].OnChange?
    ensures calls != [] ==> forall f :: f in Fields ==> Lookup(calls[0].newData, f) == Lookup(Entered(v), f)
    ensures OnNext !in calls
  {
    if Errors(v) == map[] then [OnChange(Merge(data, Entered(v)))] else []
  }

  function Previous(): seq<Callback>
  {
    [OnPrev]
  }

  lemma DefaultsOfEntered(data: map<string, string>, v: AccountValues)
    ensures Defaults(data + Entered(v)) == v
  {
  }

  /** An empty username and a short password are both reported; a good pair passes. */
  lemma SchemaExamples()
    ensures Errors(AccountValues("", "Ab1!")).Keys == {"username", "password"}
    ensures Errors(AccountValues("", "Ab1!"))["password"] == "Password must be at least 8 characters"
    ensures Errors(AccountValues("bob", "Abcdef1!")) == map[]
  {
    StrongPasswordExample();
  }
}
