/** Field rules shared by the validation schemas of both front-ends.

    A schema declares, per field, an ordered list of rules (required, a
    minimum length, a regular expression, ...). A rule yields `None` when the
    value passes and `Some(message)` when it fails. A field is reported when
    one of its rules fails, and every failing field of one submission is
    reported together (the schemas validate without stopping at the first
    field). Each reported field carries the message of its first declared
    failing rule.
 */
module Rules {

  datatype Option<+T> = None | Some(value: T)

  /** Field name to error message, as the form libraries hand it back. */
  type FieldErrors = map<string, string>

  /** A string value is present when it is not empty. */
  function Required(s: string, message: string): (r: Option<string>)
    ensures r.None? <==> s != ""
    ensures r.Some? ==> r.value == message
  {
    if s == "" then Some(message) else None
  }

  /** A string's length as JavaScript counts it: UTF-16 code units, so a
      character beyond the Basic Multilingual Plane counts twice. */
  function Utf16Length(s: string): (n: nat)
    ensures |s| <= n <= 2 * |s|
    ensures n == 0 <==> s == ""
  {
    if s == [] then 0 else (if s[0] as int > 0xFFFF then 2 else 1) + Utf16Length(s[1..])
  }

  /** Within the Basic Multilingual Plane the two lengths agree. */
  lemma {:induction false} Utf16LengthOfBmp(s: string)
    requires forall i :: 0 <= i < |s| ==> s[i] as int <= 0xFFFF
    ensures Utf16Length(s) == |s|
  {
    if s != [] {
      assert forall i :: 0 <= i < |s[1..]| ==> s[1..][i] == s[i + 1];
      Utf16LengthOfBmp(s[1..]);
    }
  }

  /** A string must have at least `n` characters, counted as UTF-16 code units. */
  function MinLength(s: string, n: nat, message: string): (r: Option<string>)
    ensures r.None? <==> Utf16Length(s) >= n
    ensures r.Some? ==> r.value == message
  {
    if Utf16Length(s) < n then Some(message) else None
  }

  /** A test whose outcome has been computed elsewhere (a regular expression, a date bound). */
  function Test(passes: bool, message: string): (r: Option<string>)
    ensures r.None? <==> passes
    ensures r.Some? ==> r.value == message
  {
    if passes then None else Some(message)
  }

  /** Two rules of one field in declared order: the first one's failure wins. */
  function FirstOf(first: Option<string>, next: Option<string>): (r: Option<string>)
    ensures r.None? <==> first.None? && next.None?
    ensures first.Some? ==> r == first
    ensures first.None? ==> r == next
  {
    if first.Some? then first else next
  }

  /** The error entry for one field: empty when the field passes. */
  function Report(field: string, outcome: Option<string>): (errs: FieldErrors)
    ensures field in errs <==> outcome.Some?
    ensures errs.Keys <= {field}
    ensures outcome.Some? ==> errs[field] == outcome.value
  {
    if outcome.Some? then map[field := outcome.value] else map[]
  }

  /** The errors of three groups of fields put together. A later group's entry
      wins a shared key, as in a map union; the groups of one schema name
      different fields, so each field keeps its own group's message. */
  function Combine(a: FieldErrors, b: FieldErrors, c: FieldErrors): (errs: FieldErrors)
    ensures errs.Keys == a.Keys + b.Keys + c.Keys
    ensures errs == map[] <==> a == map[] && b == map[] && c == map[]
    ensures forall k :: k in errs ==> errs[k] == if k in c then c[k] else if k in b then b[k] else a[k]
  {
    NoErrorsInUnion(a, b);
    NoErrorsInUnion(a + b, c);
    a + b + c
  }

  /** Error entries put together report nothing exactly when each reports nothing. */
  lemma NoErrorsInUnion(a: FieldErrors, b: FieldErrors)
    ensures a + b == map[] <==> a == map[] && b == map[]
  {
    if a != map[] {
      var k :| k in a;
      assert k in a + b;
    }
  }
}
