/** The Sign In screen: the email shape test and the prioritised checks that
    decide what pressing "Sign In" does. */
module SignIn {
  import opened Seqs
  import opened Dishes

  /** The characters of the regular-expression class `\s` of ECMAScript:
      white space (tab, vertical tab, form feed, space, no-break space, the
      byte order mark and the space separators) and the line terminators. */
  predicate IsWhitespace(c: char)
  {
    c == '\t' || c == '\n' || c == '\U{B}' || c == '\U{C}' || c == '\r' || c == ' ' ||
    c == '\U{A0}' || c == '\U{1680}' || ('\U{2000}' <= c <= '\U{200A}') ||
    c == '\U{2028}' || c == '\U{2029}' || c == '\U{202F}' || c == '\U{205F}' ||
    c == '\U{3000}' || c == '\U{FEFF}'
  }

  /** A character of the class `[^\s@]`. */
  predicate IsLabelChar(c: char)
  {
    !IsWhitespace(c) && c != '@'
  }

  /** A string matching `[^\s@]+`. */
  predicate IsLabel(t: string)
  {
    |t| > 0 && forall k :: 0 <= k < |t| ==> IsLabelChar(t[k])
  }

  predicate IsAt(c: char)
  {
    c == '@'
  }

  predicate IsDot(c: char)
  {
    c == '.'
  }

  /** The strings `^[^\s@]+@[^\s@]+\.[^\s@]+$` matches, stated as the pattern reads. */
  ghost predicate EmailShape(s: string)
  {
    exists a, b, c :: IsLabel(a) && IsLabel(b) && IsLabel(c) && s == a + "@" + b + "." + c
  }

  /** Decides the email pattern: a non-empty label up to the first '@', then a
      rest with no whitespace and no '@' holding a '.' that is neither its first
      nor its last character. */
  function ValidateEmail(email: string): (valid: bool)
  {
    var at := FindIndex(email, IsAt);
    0 < at < |email| && IsLabel(email[..at]) &&
    var rest := email[at + 1..];
    |rest| >= 3 && IsLabel(rest) && FindIndex(rest[1..|rest| - 1], IsDot) < |rest| - 2
  }

  /** Every string `ValidateEmail` accepts has the pattern's shape. */
  lemma ValidateEmailSound(s: string)
    requires ValidateEmail(s)
    ensures EmailShape(s)
  {
    var at := FindIndex(s, IsAt);
    var rest := s[at + 1..];
    var j := FindIndex(rest[1..|rest| - 1], IsDot) + 1;
    assert rest[j] == '.';
    var a, b, c := s[..at], rest[..j], rest[j + 1..];
    assert IsLabel(b) && IsLabel(c);
    assert s == a + "@" + b + "." + c by {
      assert s == s[..at] + [s[at]] + rest;
      assert rest == b + [rest[j]] + c;
    }
  }

  /** `ValidateEmail` accepts every string of the pattern's shape. */
  lemma ValidateEmailComplete(a: string, b: string, c: string)
    requires IsLabel(a) && IsLabel(b) && IsLabel(c)
    ensures ValidateEmail(a + "@" + b + "." + c)
  {
    var s := a + "@" + b + "." + c;
    assert s[|a|] == '@';
    var at := FindIndex(s, IsAt);
    assert at == |a| by {
      assert forall k :: 0 <= k < |a| ==> s[k] == a[k];
    }
    assert s[..at] == a;
    var rest := s[at + 1..];
    assert rest == b + "." + c;
    assert IsLabel(rest) by {
      forall k | 0 <= k < |rest| ensures IsLabelChar(rest[k]) {
        if k < |b| {
          assert rest[k] == b[k];
        } else if k > |b| {
          assert rest[k] == c[k - |b| - 1];
        }
      }
    }
    assert rest[1..|rest| - 1][|b| - 1] == '.';
  }

  /** `ValidateEmail` accepts exactly the strings the pattern matches. */
  lemma ValidateEmailIff(s: string)
    ensures ValidateEmail(s) <==> EmailShape(s)
  {
    if ValidateEmail(s) {
      ValidateEmailSound(s);
    }
    if EmailShape(s) {
      var a, b, c :| IsLabel(a) && IsLabel(b) && IsLabel(c) && s == a + "@" + b + "." + c;
      ValidateEmailComplete(a, b, c);
    }
  }

  /** A valid email holds exactly one '@' and no whitespace. */
  lemma ValidEmailShape(s: string)
    requires ValidateEmail(s)
    ensures multiset(s)['@'] == 1
    ensures forall k :: 0 <= k < |s| ==> !IsWhitespace(s[k])
  {
    var at := FindIndex(s, IsAt);
    var local, rest := s[..at], s[at + 1..];
    assert s == local + [s[at]] + rest;
    assert '@' !in local && '@' !in rest;
    assert multiset(s) == multiset(local) + multiset([s[at]]) + multiset(rest);
    forall k | 0 <= k < |s| ensures !IsWhitespace(s[k]) {
      if k < at {
        assert s[k] == local[k];
      } else if k > at {
        assert s[k] == rest[k - at - 1];
      }
    }
  }

  /** What pressing "Sign In" leads to. */
  datatype SignInOutcome =
    | MissingFields                 // alert: an input is empty
    | InvalidEmail                  // alert: the email does not have the expected shape
    | InvalidPassword               // alert: the password is too short
    | Success(params: Checkout)     // navigation to Description with these parameters

  /** The decision of `handleSignIn`: the checks in their order of priority. */
  function HandleSignIn(email: string, password: string): (r: SignInOutcome)
    ensures r == MissingFields <==> email == "" || password == ""
    ensures r == InvalidEmail <==> email != "" && password != "" && !ValidateEmail(email)
    ensures r == InvalidPassword <==> ValidateEmail(email) && 0 < |password| < 6
    ensures r.Success? <==> ValidateEmail(email) && |password| >= 6
    ensures r.Success? ==> r.params == Checkout([], 0)
  {
    if email == "" || password == "" then MissingFields
    else if !ValidateEmail(email) then InvalidEmail
    else if |password| < 6 then InvalidPassword
    else Success(Checkout([], 0))
  }

  /** Sign-in succeeds exactly for an email of the pattern's shape and a
      password of at least six characters; the email then has one '@' and no
      whitespace. */
  lemma SignInSucceedsIff(email: string, password: string)
    ensures HandleSignIn(email, password).Success? <==> EmailShape(email) && |password| >= 6
    ensures HandleSignIn(email, password).Success? ==>
              multiset(email)['@'] == 1 && forall k :: 0 <= k < |email| ==> !IsWhitespace(email[k])
  {
    ValidateEmailIff(email);
    if ValidateEmail(email) {
      ValidEmailShape(email);
    }
  }

  /** The password boundary: six characters are accepted, five are not. */
  lemma PasswordBoundary(email: string)
    requires ValidateEmail(email)
    ensures HandleSignIn(email, "secret").Success?
    ensures HandleSignIn(email, "short") == InvalidPassword
  {
  }
}
