/** The registration page's schema: one form carrying personal, address and
    account fields.

    Dates are instants on a line of integers. The browser's date input yields
    either nothing or a well-formed date, so a date of birth is `None` or
    `Some(instant)`. The schema is built once, when its module is loaded, and
    its upper bound on the date of birth is the clock reading taken at that
    moment (`schemaBuiltAt`), not the moment of submission. Empty strings
    reach the schema as missing values and fail the required rules.
 */
module Register {

  import opened Rules
  import opened Patterns

  datatype AddressValues = AddressValues(street: string, city: string, state: string, zipCode: string)

  datatype RegisterValues = RegisterValues(
    fullName: string,
    email: string,
    dateOfBirth: Option<int>,
    address: AddressValues,
    username: string,
    password: string)

  const Fields: set<string> := {
    "fullName", "email", "dateOfBirth", "address.street", "address.city",
    "address.state", "address.zipCode", "username", "password"}

  function DateOfBirthRule(dob: Option<int>, schemaBuiltAt: int): (r: Option<string>)
    ensures r.None? <==> dob.Some? && dob.value <= schemaBuiltAt
  {
    match dob
    case None => Some("Date of birth is required")
    case Some(d) => Test(d <= schemaBuiltAt, "Date of birth cannot be in the future")
  }

  function ZipRule(zip: string): (r: Option<string>)
    ensures r.None? <==> IsZip5(zip)
  {
    Zip5Correct(zip);
    FirstOf(Required(zip, "Zip code is required"), Test(MatchesZip5(zip), "Zip code must be 5 digits"))
  }

  function UsernameRule(username: string): (r: Option<string>)
    ensures r.None? <==> Utf16Length(username) >= 4
    ensures username == "" ==> r == Some("Username is required")
  {
    FirstOf(Required(username, "Username is required"), MinLength(username, 4, "Username must be at least 4 characters"))
  }

  function PasswordRule(password: string): (r: Option<string>)
    ensures r.None? <==> Utf16Length(password) >= 8 && IsStrongPassword(password)
  {
    PasswordCorrect(password);
    FirstOf(
      Required(password, "Password is required"),
      FirstOf(
        MinLength(password, 8, "Password must be at least 8 characters"),
        Test(MatchesPassword(password), "Password must contain uppercase, lowercase, number, and special character")))
  }

  /** The personal fields: all required, a syntactically valid e-mail address
      (`isEmail` stands for the library's check) and a date of birth not after
      `schemaBuiltAt`. */
  function PersonalErrors(v: RegisterValues, schemaBuiltAt: int, isEmail: string -> bool): (errs: FieldErrors)
    ensures errs.Keys <= {"fullName", "email", "dateOfBirth"}
    ensures "fullName" in errs <==> v.fullName == ""
    ensures "email" in errs <==> v.email == "" || !isEmail(v.email)
    ensures "dateOfBirth" in errs <==> !(v.dateOfBirth.Some? && v.dateOfBirth.value <= schemaBuiltAt)
    ensures "dateOfBirth" in errs ==> Some(errs["dateOfBirth"]) == DateOfBirthRule(v.dateOfBirth, schemaBuiltAt)
  {
    Report("fullName", Required(v.fullName, "Full name is required"))
    + Report("email", FirstOf(Test(v.email == "" || isEmail(v.email), "Invalid email"), Required(v.email, "Email is required")))
    + Report("dateOfBirth", DateOfBirthRule(v.dateOfBirth, schemaBuiltAt))
  }

  /** The nested address object: street, city and state required, a five-digit ZIP code. */
  function AddressErrors(a: AddressValues): (errs: FieldErrors)
    ensures errs.Keys <= {"address.street", "address.city", "address.state", "address.zipCode"}
    ensures "address.street" in errs <==> a.street == ""
    ensures "address.city" in errs <==> a.city == ""
    ensures "address.state" in errs <==> a.state == ""
    ensures "address.zipCode" in errs <==> !IsZip5(a.zipCode)
  {
    Report("address.street", Required(a.street, "Street is required"))
    + Report("address.city", Required(a.city, "City is required"))
    + Report("address.state", Required(a.state, "State is required"))
    + Report("address.zipCode", ZipRule(a.zipCode))
  }

  /** The account fields: a username of at least four characters, a password of
      at least eight that satisfies the password pattern. */
  function AccountErrors(v: RegisterValues): (errs: FieldErrors)
    ensures errs.Keys <= {"username", "password"}
    ensures "username" in errs <==> Utf16Length(v.username) < 4
    ensures "username" in errs ==> Some(errs["username"]) == UsernameRule(v.username)
    ensures "password" in errs <==> !(Utf16Length(v.password) >= 8 && IsStrongPassword(v.password))
  {
    Report("username", UsernameRule(v.username))
    + Report("password", PasswordRule(v.password))
  }

  /** The whole schema; every failing field is reported, with its group's message. */
  function Errors(v: RegisterValues, schemaBuiltAt: int, isEmail: string -> bool): (errs: FieldErrors)
    ensures errs.Keys == PersonalErrors(v, schemaBuiltAt, isEmail).Keys + AddressErrors(v.address).Keys + AccountErrors(v).Keys
    ensures errs == map[] <==>
      PersonalErrors(v, schemaBuiltAt, isEmail) == map[] && AddressErrors(v.address) == map[] && AccountErrors(v) == map[]
    ensures forall k :: k in errs ==>
      errs[k] == if k in AccountErrors(v) then AccountErrors(v)[k]
                 else if k in AddressErrors(v.address) then AddressErrors(v.address)[k]
                 else PersonalErrors(v, schemaBuiltAt, isEmail)[k]
  {
    Combine(PersonalErrors(v, schemaBuiltAt, isEmail), AddressErrors(v.address), AccountErrors(v))
  }

  /** The registration form is accepted exactly when every rule holds. */
  lemma AcceptedIff(v: RegisterValues, schemaBuiltAt: int, isEmail: string -> bool)
    ensures Errors(v, schemaBuiltAt, isEmail) == map[] <==>
      && v.fullName != ""
      && v.email != "" && isEmail(v.email)
      && v.dateOfBirth.Some? && v.dateOfBirth.value <= schemaBuiltAt
      && v.address.street != "" && v.address.city != "" && v.address.state != ""
      && IsZip5(v.address.zipCode)
      && Utf16Length(v.username) >= 4
      && Utf16Length(v.password) >= 8 && IsStrongPassword(v.password)
  {
    var pe, ae, ce := PersonalErrors(v, schemaBuiltAt, isEmail), AddressErrors(v.address), AccountErrors(v);
    if pe != map[] { var k :| k in pe; }
    if ae != map[] { var k :| k in ae; }
    if ce != map[] { var k :| k in ce; }
  }

  /** The bound is the instant the schema was built: a date after that instant is
      rejected even when it is already in the past at submission time. */
  lemma StaleUpperBound(v: RegisterValues, schemaBuiltAt: int, submittedAt: int, isEmail: string -> bool)
    requires v.dateOfBirth.Some? && schemaBuiltAt < v.dateOfBirth.value <= submittedAt
    ensures "dateOfBirth" in Errors(v, schemaBuiltAt, isEmail)
    ensures PersonalErrors(v, schemaBuiltAt, isEmail)["dateOfBirth"] == "Date of birth cannot be in the future"
  {
  }

  /** Unlike the wizard's address step, this page rejects a ZIP+4 code. */
  lemma ZipPlus4Rejected(v: RegisterValues, schemaBuiltAt: int, isEmail: string -> bool)
    requires v.address.zipCode == "12345-6789"
    ensures "address.zipCode" in Errors(v, schemaBuiltAt, isEmail)
    ensures MatchesZipPlus4(v.address.zipCode)
  {
    ZipExamples();
    Zip5Correct(v.address.zipCode);
    assert "address.zipCode" in AddressErrors(v.address);
  }

  /** A three-character username is too short here, while the wizard's account
      step accepts any non-empty username. */
  lemma ShortUsernameRejected(v: RegisterValues, schemaBuiltAt: int, isEmail: string -> bool)
    requires v.username == "bob"
    ensures "username" in Errors(v, schemaBuiltAt, isEmail)
    ensures AccountErrors(v)["username"] == "Username must be at least 4 characters"
  {
    Utf16LengthOfBmp(v.username);
    assert UsernameRule(v.username) == Some("Username must be at least 4 characters");
    assert "username" in AccountErrors(v);
  }

  /** Lengths are counted as JavaScript counts them: two letters and an emoji
      make four code units, enough for the username rule. */
  lemma AstralUsernameAccepted(v: RegisterValues, schemaBuiltAt: int, isEmail: string -> bool)
    requires v.username == "ab\U{1F600}"
    ensures |v.username| == 3
    ensures "username" !in Errors(v, schemaBuiltAt, isEmail)
  {
    AstralLength(v.username);
    assert UsernameRule(v.username).None?;
    assert "username" !in AccountErrors(v);
  }

  lemma AstralLength(u: string)
    requires u == "ab\U{1F600}"
    ensures Utf16Length(u) == 4
  {
    assert u[1..] == "b\U{1F600}" && u[1..][1..] == "\U{1F600}" && u[1..][1..][1..] == "";
    assert '\U{1F600}' as int > 0xFFFF;
    assert Utf16Length(u[1..][1..]) == 2;
    assert Utf16Length(u[1..]) == 3;
  }
}
