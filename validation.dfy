/** The request-body validators run before the account handlers
    (backend/middleware/validation.js). Each runs its checks in order and
    answers 400 with the first failure; `next` is called only when every
    check passes. */
module Validation {
  import opened Common
  import opened Text

  datatype Check = Pass | Fail(error: string)

  const NameError := "Full name must be at least 2 characters long"
  const EmailError := "Please provide a valid email address"
  const PasswordError := "Password must be at least 6 characters long"

  /** One `[^\s@]+` run of the email pattern: non-empty, no white space,
      no '@'. */
  predicate Plain(s: string) {
    |s| > 0 && forall i :: 0 <= i < |s| ==> !IsSpace(s[i]) && s[i] != '@'
  }

  /** `/^[^\s@]+@[^\s@]+\.[^\s@]+$/.test(s)`, read as the pattern says:
      a plain run, '@', a plain run, '.', a plain run. */
  predicate MatchesEmailPattern(s: string) {
    exists i, j :: 0 <= i < j < |s| && s[i] == '@' && s[j] == '.'
      && Plain(s[..i]) && Plain(s[i + 1..j]) && Plain(s[j + 1..])
  }

  function IndexOf(s: string, c: char): (k: nat)
    requires c in s
    ensures k < |s| && s[k] == c && c !in s[..k]
  {
    if s[0] == c then 0 else 1 + IndexOf(s[1..], c)
  }

  predicate NoSpace(s: string) {
    forall i :: 0 <= i < |s| ==> !IsSpace(s[i])
  }

  /** The email shape the validators accept, as a direct test: no white
      space, exactly one '@', something before it, and after it a '.' that
      is neither the first nor the last character. */
  predicate EmailShape(s: string) {
    && NoSpace(s)
    && '@' in s
    && var at := IndexOf(s, '@');
       && '@' !in s[at + 1..]
       && at > 0
       && var domain := s[at + 1..];
          |domain| >= 3 && '.' in domain[1..|domain| - 1]
  }

  /** The direct test accepts exactly the strings the pattern matches. */
  lemma EmailShapeIff(s: string)
    ensures EmailShape(s) <==> MatchesEmailPattern(s)
  {
    if EmailShape(s) {
      ShapeMatches(s);
    }
    if MatchesEmailPattern(s) {
      var i, j :| 0 <= i < j < |s| && s[i] == '@' && s[j] == '.'
        && Plain(s[..i]) && Plain(s[i + 1..j]) && Plain(s[j + 1..]);
      MatchHasShape(s, i, j);
    }
  }

  lemma ShapeMatches(s: string)
    requires EmailShape(s)
    ensures MatchesEmailPattern(s)
  {
    var at := IndexOf(s, '@');
    var domain := s[at + 1..];
    var inner := domain[1..|domain| - 1];
    var k :| 0 <= k < |inner| && inner[k] == '.';
    var j := at + 2 + k;
    assert s[j] == '.';
    assert '@' !in s[..at];
    forall m | 0 <= m < |s| && m != at ensures s[m] != '@' {
      if m > at {
        assert s[m] == s[at + 1..][m - at - 1];
      } else {
        assert s[m] == s[..at][m];
      }
    }
    assert Plain(s[..at]);
    assert Plain(s[at + 1..j]);
    assert Plain(s[j + 1..]);
  }

  lemma MatchHasShape(s: string, i: int, j: int)
    requires 0 <= i < j < |s| && s[i] == '@' && s[j] == '.'
    requires Plain(s[..i]) && Plain(s[i + 1..j]) && Plain(s[j + 1..])
    ensures EmailShape(s)
  {
    forall m | 0 <= m < |s| ensures !IsSpace(s[m]) && (s[m] == '@' <==> m == i) {
      if m < i {
        assert s[m] == s[..i][m];
      } else if i < m < j {
        assert s[m] == s[i + 1..j][m - i - 1];
      } else if m > j {
        assert s[m] == s[j + 1..][m - j - 1];
      }
    }
    var at := IndexOf(s, '@');
    assert at == i;
    var domain := s[at + 1..];
    assert domain[1..|domain| - 1][j - i - 2] == '.';
  }

  /** `fullName && fullName.trim().length >= 2` */
  predicate NameOk(fullName: Option<string>) {
    fullName.Some? && |Trim(fullName.value)| >= 2
  }

  /** `email && emailRegex.test(email)` */
  predicate EmailOk(email: Option<string>) {
    email.Some? && MatchesEmailPattern(email.value)
  }

  /** `password && password.length >= 6` */
  predicate PasswordOk(password: Option<string>) {
    password.Some? && |password.value| >= 6
  }

  /** `validateRegister`: name, then email, then password; the first
      failing check is the answer, and only a body passing all three
      reaches the handler. */
  function ValidateRegister(fullName: Option<string>, email: Option<string>, password: Option<string>): (r: Check)
    ensures r == Pass <==> NameOk(fullName) && EmailOk(email) && PasswordOk(password)
    ensures r == Fail(NameError) <==> !NameOk(fullName)
    ensures r == Fail(EmailError) <==> NameOk(fullName) && !EmailOk(email)
    ensures r == Fail(PasswordError) <==> NameOk(fullName) && EmailOk(email) && !PasswordOk(password)
  {
    if !Truthy(fullName) || |Trim(fullName.value)| < 2 then Fail(NameError)
    else if !Truthy(email) || !EmailShape(email.value) then
      EmailShapeIff(if email.Some? then email.value else "");
      Fail(EmailError)
    else if !Truthy(password) || |password.value| < 6 then
      EmailShapeIff(email.value);
      Fail(PasswordError)
    else
      EmailShapeIff(email.value);
      Pass
  }

  /** A name made only of white space is refused, however long it is. */
  lemma BlankNameRefused(name: string, email: Option<string>, password: Option<string>)
    requires AllSpace(name)
    ensures ValidateRegister(Some(name), email, password) == Fail(NameError)
  {
    TrimEmptyIff(name);
  }

  /** `validateLogin`: a missing email is reported before the password is
      looked at. */
  function ValidateLogin(email: Option<string>, password: Option<string>): (r: Check)
    ensures r == Pass <==> Truthy(email) && Truthy(password)
    ensures !Truthy(email) ==> r == Fail("Email is required")
    ensures Truthy(email) && !Truthy(password) ==> r == Fail("Password is required")
  {
    if !Truthy(email) then Fail("Email is required")
    else if !Truthy(password) then Fail("Password is required")
    else Pass
  }

  /** `validateProfileUpdate`: each field is checked only when it is
      given (and not empty); a field left out always passes. */
  function ValidateProfileUpdate(fullName: Option<string>, email: Option<string>): (r: Check)
    ensures r == Pass <==>
      (Truthy(fullName) ==> NameOk(fullName)) && (Truthy(email) ==> EmailOk(email))
    ensures Truthy(fullName) && !NameOk(fullName) ==> r == Fail(NameError)
    ensures r == Fail(EmailError) <==>
      (Truthy(fullName) ==> NameOk(fullName)) && Truthy(email) && !EmailOk(email)
  {
    if Truthy(fullName) && |Trim(fullName.value)| < 2 then Fail(NameError)
    else if Truthy(email) && !EmailShape(email.value) then
      EmailShapeIff(email.value);
      Fail(EmailError)
    else
      EmailShapeIff(if email.Some? then email.value else "");
      Pass
  }

  /** An update body that names neither field passes, and any body the
      register validator accepts also passes the update validator. */
  lemma ProfileUpdateWeakerThanRegister(fullName: Option<string>, email: Option<string>, password: Option<string>)
    ensures ValidateProfileUpdate(None, None) == Pass
    ensures ValidateRegister(fullName, email, password) == Pass ==> ValidateProfileUpdate(fullName, email) == Pass
  {
  }
}
