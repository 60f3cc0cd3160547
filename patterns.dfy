/** The regular expressions of the validation schemas.

    Each pattern is given twice: once as a matcher that follows the
    expression token by token, the way a backtracking regular-expression
    engine reads it, and once as a plain description of the strings it
    accepts. Lemmas prove the two agree on every string.

    - `/^\d{5}$/`                 five-digit ZIP (registration page)
    - `/^\d{5}(-\d{4})?$/`        ZIP or ZIP+4 (wizard address step)
    - `/^(?=.*[a-z])(?=.*[A-Z])(?=.*\d)(?=.*[@$!%*?&#])[A-Za-z\d@$!%*?&#]+$/`
                                  password rule (both front-ends)

    None of the patterns carries the `u` flag, so `\d` is the ASCII class
    `[0-9]`, and `.` matches any character except a line terminator.
 */
module Patterns {

  import opened Rules

  // ---------------------------------------------------------------------
  // Character classes

  predicate IsDigit(c: char) { '0' <= c <= '9' }
  predicate IsLower(c: char) { 'a' <= c <= 'z' }
  predicate IsUpper(c: char) { 'A' <= c <= 'Z' }
  predicate IsSpecial(c: char) {
    c == '@' || c == '$' || c == '!' || c == '%' || c == '*' || c == '?' || c == '&' || c == '#'
  }

  /** The characters `.` does not match. */
  predicate IsLineTerminator(c: char) {
    c == '\n' || c == '\r' || c == '\U{2028}' || c == '\U{2029}'
  }

  /** The classes the password pattern names. */
  datatype CharClass = Lower | Upper | Digit | Special | PasswordChar

  predicate InClass(c: char, k: CharClass) {
    match k
    case Lower => IsLower(c)
    case Upper => IsUpper(c)
    case Digit => IsDigit(c)
    case Special => IsSpecial(c)
    case PasswordChar => IsLower(c) || IsUpper(c) || IsDigit(c) || IsSpecial(c)
  }

  predicate AllDigits(s: string) {
    forall i :: 0 <= i < |s| ==> IsDigit(s[i])
  }

  // ---------------------------------------------------------------------
  // ZIP codes

  /** `\d{n}` at the front of `s`: the rest of the input after `n` digits, if there are `n` digits. */
  function MatchDigits(s: string, n: nat): Option<string>
  {
    if n == 0 then Some(s)
    else if s == [] || !IsDigit(s[0]) then None
    else MatchDigits(s[1..], n - 1)
  }

  /** `/^\d{5}$/` read token by token. */
  predicate MatchesZip5(s: string) {
    MatchDigits(s, 5) == Some("")
  }

  /** `/^\d{5}(-\d{4})?$/` read token by token: five digits, then either the end of
      input or the optional group followed by the end of input. */
  predicate MatchesZipPlus4(s: string) {
    match MatchDigits(s, 5)
    case None => false
    case Some(rest) =>
      rest == "" || (rest != "" && rest[0] == '-' && MatchDigits(rest[1..], 4) == Some(""))
  }

  /** A five-digit ZIP code. */
  predicate IsZip5(s: string) {
    |s| == 5 && AllDigits(s)
  }

  /** A five-digit ZIP code, or five digits, a hyphen and four digits. */
  predicate IsZipPlus4(s: string) {
    IsZip5(s) || (|s| == 10 && AllDigits(s[..5]) && s[5] == '-' && AllDigits(s[6..]))
  }

  lemma {:induction false} MatchDigitsMeaning(s: string, n: nat)
    ensures MatchDigits(s, n).Some? <==> n <= |s| && AllDigits(s[..n])
    ensures MatchDigits(s, n).Some? ==> MatchDigits(s, n).value == s[n..]
  {
    if n > 0 && s != [] {
      MatchDigitsMeaning(s[1..], n - 1);
      if n - 1 <= |s[1..]| {
        assert s[1..][..n - 1] == s[1..n];
        assert s[1..][n - 1..] == s[n..];
        if IsDigit(s[0]) && AllDigits(s[1..n]) {
          forall i | 0 <= i < n ensures IsDigit(s[..n][i]) {
            if i > 0 { assert s[..n][i] == s[1..n][i - 1]; }
          }
        }
        if AllDigits(s[..n]) {
          assert IsDigit(s[..n][0]);
          forall i | 0 <= i < n - 1 ensures IsDigit(s[1..n][i]) {
            assert s[1..n][i] == s[..n][i + 1];
          }
        }
      }
    }
  }

  /** The five-digit pattern accepts exactly the five-digit strings. */
  lemma Zip5Correct(s: string)
    ensures MatchesZip5(s) <==> IsZip5(s)
  {
    MatchDigitsMeaning(s, 5);
    if |s| >= 5 { assert s[..5] == s ==> |s| == 5; }
    if |s| == 5 { assert s[..5] == s; }
  }

  /** The ZIP+4 pattern accepts exactly the five-digit strings and the ten-character
      strings `ddddd-dddd`. */
  lemma ZipPlus4Correct(s: string)
    ensures MatchesZipPlus4(s) <==> IsZipPlus4(s)
  {
    MatchDigitsMeaning(s, 5);
    Zip5Correct(s);
    if |s| >= 5 && AllDigits(s[..5]) {
      var rest := s[5..];
      if rest != "" {
        MatchDigitsMeaning(rest[1..], 4);
        assert rest[1..] == s[6..];
        if |s| == 10 { assert s[6..][..4] == s[6..]; }
        if |rest[1..]| >= 4 && rest[1..][4..] == "" { assert |s| == 10; assert s[6..][..4] == s[6..]; }
      } else {
        assert s[..5] == s;
      }
    }
  }

  /** Every string the registration page accepts, the wizard's address step accepts too. */
  lemma Zip5AlsoZipPlus4(s: string)
    ensures MatchesZip5(s) ==> MatchesZipPlus4(s)
  {
    Zip5Correct(s);
    ZipPlus4Correct(s);
  }

  lemma ZipExamples()
    ensures MatchesZip5("12345") && MatchesZipPlus4("12345")
    ensures !MatchesZip5("1234") && !MatchesZipPlus4("1234")
    ensures !MatchesZip5("12345-6789") && MatchesZipPlus4("12345-6789")
    ensures !MatchesZip5("12345-678") && !MatchesZipPlus4("12345-678")
  {
    Zip5Correct("12345");
    ZipPlus4Correct("12345");
    Zip5Correct("1234");
    ZipPlus4Correct("1234");
    Zip5Correct("12345-6789");
    ZipPlus4Correct("12345-6789");
    assert AllDigits("12345-6789"[..5]) && AllDigits("12345-6789"[6..]);
    Zip5Correct("12345-678");
    ZipPlus4Correct("12345-678");
  }

  // ---------------------------------------------------------------------
  // Password

  /** `.*[k]` at the front of `s`: some character of class `k` can be reached
      by stepping over characters that `.` matches. */
  predicate DotStarThen(s: string, k: CharClass) {
    s != [] && (InClass(s[0], k) || (!IsLineTerminator(s[0]) && DotStarThen(s[1..], k)))
  }

  /** `[A-Za-z\d@$!%*?&#]+$`: one or more password characters up to the end of input. */
  predicate PasswordCharsPlus(s: string) {
    s != [] && InClass(s[0], PasswordChar) && (|s| == 1 || PasswordCharsPlus(s[1..]))
  }

  /** The password pattern read token by token: four lookaheads at the start,
      then the character-class body up to the end. */
  predicate MatchesPassword(s: string) {
    && DotStarThen(s, Lower)
    && DotStarThen(s, Upper)
    && DotStarThen(s, Digit)
    && DotStarThen(s, Special)
    && PasswordCharsPlus(s)
  }

  predicate Contains(s: string, k: CharClass) {
    exists i :: 0 <= i < |s| && InClass(s[i], k)
  }

  /** A strong password: not empty, made only of letters, digits and `@$!%*?&#`,
      with at least one lower-case letter, one upper-case letter, one digit and
      one of the special characters. */
  predicate IsStrongPassword(s: string) {
    && s != []
    && (forall i :: 0 <= i < |s| ==> InClass(s[i], PasswordChar))
    && Contains(s, Lower) && Contains(s, Upper) && Contains(s, Digit) && Contains(s, Special)
  }

  /** A strong password holds only ASCII characters, so its JavaScript length
      is its number of characters: a length bound in code units accepts the
      same strong passwords as one in characters. */
  lemma StrongPasswordLength(s: string)
    requires IsStrongPassword(s)
    ensures Utf16Length(s) == |s|
  {
    Utf16LengthOfBmp(s);
  }

  lemma {:induction false} PasswordCharsPlusMeaning(s: string)
    ensures PasswordCharsPlus(s) <==> s != [] && forall i :: 0 <= i < |s| ==> InClass(s[i], PasswordChar)
  {
    if |s| > 1 {
      PasswordCharsPlusMeaning(s[1..]);
      if forall i :: 0 <= i < |s| ==> InClass(s[i], PasswordChar) {
        forall i | 0 <= i < |s[1..]| ensures InClass(s[1..][i], PasswordChar) {
          assert s[1..][i] == s[i + 1];
        }
      }
      if PasswordCharsPlus(s) {
        forall i | 0 <= i < |s| ensures InClass(s[i], PasswordChar) {
          if i > 0 { assert s[i] == s[1..][i - 1]; }
        }
      }
    }
  }

  /** Over a string of password characters, which holds no line terminator,
      the lookahead `.*[k]` holds exactly when the string contains a `k` character. */
  lemma {:induction false} DotStarThenMeaning(s: string, k: CharClass)
    requires forall i :: 0 <= i < |s| ==> InClass(s[i], PasswordChar)
    ensures DotStarThen(s, k) <==> Contains(s, k)
  {
    if s != [] {
      assert forall i :: 0 <= i < |s[1..]| ==> s[1..][i] == s[i + 1];
      DotStarThenMeaning(s[1..], k);
      if Contains(s, k) && !InClass(s[0], k) {
        var i :| 0 <= i < |s| && InClass(s[i], k);
        assert InClass(s[1..][i - 1], k);
      }
      if Contains(s[1..], k) {
        var i :| 0 <= i < |s[1..]| && InClass(s[1..][i], k);
        assert InClass(s[i + 1], k);
      }
    }
  }

  /** The password pattern accepts exactly the strong passwords. */
  lemma PasswordCorrect(s: string)
    ensures MatchesPassword(s) <==> IsStrongPassword(s)
  {
    PasswordCharsPlusMeaning(s);
    if forall i :: 0 <= i < |s| ==> InClass(s[i], PasswordChar) {
      DotStarThenMeaning(s, Lower);
      DotStarThenMeaning(s, Upper);
      DotStarThenMeaning(s, Digit);
      DotStarThenMeaning(s, Special);
    }
  }

  lemma StrongPasswordExample()
    ensures MatchesPassword("Abcdef1!")
  {
    var p := "Abcdef1!";
    PasswordCorrect(p);
    assert InClass(p[1], Lower) && InClass(p[0], Upper) && InClass(p[6], Digit) && InClass(p[7], Special);
  }

  lemma SpaceInPasswordRejected()
    ensures !MatchesPassword("Abcdef1 ")
  {
    var p := "Abcdef1 ";
    PasswordCorrect(p);
    assert !InClass(p[7], PasswordChar);
  }
}
