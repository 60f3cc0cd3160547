/** The login page: a schema with two required fields, then a decision made
    on the client. The page fetches the whole user list, takes the first user
    whose username equals the input exactly, and checks the password against
    that user's stored hash. The hash comparison is a foreign primitive,
    represented by the parameter `verify(plain, hash)`.
 */
module Login {

  import opened Rules

  /** A user record as the backend lists it; only the fields the page reads. */
  datatype User = User(username: string, password: string, token: string)

  datatype LoginValues = LoginValues(username: string, password: string)

  /** The outcome of the users request: a parsed array, a parsed value that is
      not an array (so `find` is not a function and throws), or a failure of
      the request or of parsing. The page does not look at the HTTP status. */
  datatype UsersResponse = UserList(users: seq<User>) | NotAnArray | Threw

  const UsernameNotFoundMessage := "Username not found"
  const IncorrectPasswordMessage := "Incorrect password"
  const UnexpectedMessage := "An unexpected error occurred. Please try again."

  /** The schema: both fields required. The submit handler runs only when it reports nothing. */
  function SchemaErrors(v: LoginValues): (errs: FieldErrors)
    ensures errs.Keys <= {"username", "password"}
    ensures "username" in errs <==> v.username == ""
    ensures "password" in errs <==> v.password == ""
  {
    Report("username", Required(v.username, "Username is required"))
    + Report("password", Required(v.password, "Password is required"))
  }

  /** `i` is the position of the first user whose username equals `name` (case-sensitive). */
  predicate IsFirstMatch(users: seq<User>, name: string, i: int) {
    0 <= i < |users| && users[i].username == name && forall j :: 0 <= j < i ==> users[j].username != name
  }

  /** `users.find(u => u.username === name)`, as the position found. */
  function FindUser(users: seq<User>, name: string): (r: Option<nat>)
    ensures r.Some? ==> IsFirstMatch(users, name, r.value)
    ensures r.None? <==> forall j :: 0 <= j < |users| ==> users[j].username != name
  {
    if users == [] then None
    else if users[0].username == name then Some(0)
    else
      match FindUser(users[1..], name)
      case None => None
      case Some(i) => Some(i + 1)
  }

  datatype Decision = UsernameNotFound | IncorrectPassword | Authenticated(user: User)

  /** The decision of the submit handler once the user list is in hand. */
  function Decide(users: seq<User>, v: LoginValues, verify: (string, string) -> bool): (d: Decision)
    ensures d.UsernameNotFound? <==> forall j :: 0 <= j < |users| ==> users[j].username != v.username
    ensures d.IncorrectPassword? <==>
      exists i :: IsFirstMatch(users, v.username, i) && !verify(v.password, users[i].password)
    ensures d.Authenticated? <==>
      exists i :: IsFirstMatch(users, v.username, i) && verify(v.password, users[i].password) && d.user == users[i]
  {
    match FindUser(users, v.username)
    case None => UsernameNotFound
    case Some(i) =>
      FirstMatchUnique(users, v.username, i);
      if verify(v.password, users[i].password) then Authenticated(users[i]) else IncorrectPassword
  }

  lemma FirstMatchUnique(users: seq<User>, name: string, i: int)
    requires IsFirstMatch(users, name, i)
    ensures forall k :: IsFirstMatch(users, name, k) ==> k == i
  {
  }

  /** Only the first user with the name is tried: a later namesake whose hash
      would accept the password does not help. */
  lemma OnlyFirstNamesakeIsTried(users: seq<User>, v: LoginValues, verify: (string, string) -> bool, i: int, k: int)
    requires IsFirstMatch(users, v.username, i) && !verify(v.password, users[i].password)
    requires i < k < |users| && users[k].username == v.username && verify(v.password, users[k].password)
    ensures Decide(users, v, verify) == IncorrectPassword
  {
  }

  // ---------------------------------------------------------------------
  // The stored token

  /** The token value the page writes, as written: `users.token` is read on the
      parsed array, which has no such property, so it is `undefined`, and the
      storage API stores that as the string "undefined", whoever logged in. */
  const ArrayTokenAsWritten := "undefined"

  /** A concrete run: alice logs in with a token of her own, and the value
      written differs from the one the page evidently means to store. */
  lemma AsWrittenCounterexample()
    ensures var users := [User("alice", "hash-a", "token-a")];
      && Decide(users, LoginValues("alice", "secret"), (plain, hash) => true) == Authenticated(users[0])
      && TokenToStore(users, LoginValues("alice", "secret"), (plain, hash) => true) == Some("token-a")
      && Some(ArrayTokenAsWritten) != TokenToStore(users, LoginValues("alice", "secret"), (plain, hash) => true)
  {
    var users := [User("alice", "hash-a", "token-a")];
    assert IsFirstMatch(users, "alice", 0);
  }

  /** The token the page evidently means to store: the authenticated user's own. */
  function TokenToStore(users: seq<User>, v: LoginValues, verify: (string, string) -> bool): (t: Option<string>)
    ensures t.Some? <==> Decide(users, v, verify).Authenticated?
    ensures t.Some? ==> exists i :: IsFirstMatch(users, v.username, i) && t.value == users[i].token
  {
    match Decide(users, v, verify)
    case Authenticated(u) => Some(u.token)
    case _ => None
  }

  // ---------------------------------------------------------------------
  // The page

  class LoginPage {
    var errorMessage: Option<string>
    /** The durable `authToken` entry of the browser's storage. */
    var authToken: Option<string>
    /** The route the page navigated to, if it did. */
    var navigatedTo: Option<string>

    constructor (storedToken: Option<string>)
      ensures errorMessage == None && authToken == storedToken && navigatedTo == None
    {
      errorMessage := None;
      authToken := storedToken;
      navigatedTo := None;
    }

    /** The submit handler: on success a token is written and the page goes
        to the category screen; otherwise only the message changes. A previous
        message is left in place on success. The value written is the one the
        code writes, `ArrayTokenAsWritten`, not the user's token. */
    method HandleSubmit(v: LoginValues, response: UsersResponse, verify: (string, string) -> bool)
      modifies this
      ensures response.UserList? && Decide(response.users, v, verify).Authenticated? ==>
        && authToken == Some(ArrayTokenAsWritten)
        && navigatedTo == Some("/category")
        && errorMessage == old(errorMessage)
      ensures response.UserList? && Decide(response.users, v, verify).UsernameNotFound? ==>
        errorMessage == Some(UsernameNotFoundMessage) && authToken == old(authToken) && navigatedTo == old(navigatedTo)
      ensures response.UserList? && Decide(response.users, v, verify).IncorrectPassword? ==>
        errorMessage == Some(IncorrectPasswordMessage) && authToken == old(authToken) && navigatedTo == old(navigatedTo)
      ensures !response.UserList? ==>
        errorMessage == Some(UnexpectedMessage) && authToken == old(authToken) && navigatedTo == old(navigatedTo)
    {
      match response
      case UserList(users) =>
        var d := Decide(users, v, verify);
        if d.UsernameNotFound? {
          errorMessage := Some(UsernameNotFoundMessage);
        } else if d.IncorrectPassword? {
          errorMessage := Some(IncorrectPasswordMessage);
        } else {
          authToken := Some(ArrayTokenAsWritten);
          navigatedTo := Some("/category");
        }
      case _ =>
        errorMessage := Some(UnexpectedMessage);
    }

    /** Pressing Login: the form library runs the schema first and calls the
        handler only when it reports nothing. */
    method Submit(v: LoginValues, response: UsersResponse, verify: (string, string) -> bool)
      modifies this
      ensures SchemaErrors(v) != map[] ==>
        errorMessage == old(errorMessage) && authToken == old(authToken) && navigatedTo == old(navigatedTo)
      ensures SchemaErrors(v) == map[] && response.UserList? && Decide(response.users, v, verify).Authenticated? ==>
        authToken == Some(ArrayTokenAsWritten) && navigatedTo == Some("/category")
      ensures authToken != old(authToken) ==>
        v.username != "" && v.password != "" && response.UserList? &&
        exists i :: IsFirstMatch(response.users, v.username, i) && verify(v.password, response.users[i].password)
    {
      if SchemaErrors(v) == map[] {
        HandleSubmit(v, response, verify);
      }
    }
  }

  /** The page as written, on alice's successful login: "undefined" is stored
      where her own token "token-a" was meant. */
  method AsWrittenLogin() returns (stored: Option<string>, intended: Option<string>)
    ensures stored == Some("undefined")
    ensures intended == Some("token-a")
  {
    var users := [User("alice", "hash-a", "token-a")];
    var v := LoginValues("alice", "secret");
    var verify := (plain: string, hash: string) => true;
    AsWrittenCounterexample();
    var page := new LoginPage(None);
    page.Submit(v, UserList(users), verify);
    stored := page.authToken;
    intended := TokenToStore(users, v, verify);
  }
}
