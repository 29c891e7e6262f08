/**
 * The sign-up page's password strength meter and the client-side check before the
 * `register` call: a password shorter than 8 characters is refused unless it is strong.
 * Lengths are JavaScript lengths, counted in UTF-16 code units (`Utf16Length`).
 */
module RegisterPage {
  import opened Common
  import opened Text
  import Routes

  /** `/[A-Z]/`, `/[a-z]/`, `/\d/` and `/[^A-Za-z0-9]/` matched against the password. */
  predicate HasUpper(s: string) { exists i :: 0 <= i < |s| && IsUpperAscii(s[i]) }
  predicate HasLower(s: string) { exists i :: 0 <= i < |s| && IsLowerAscii(s[i]) }
  predicate HasDigit(s: string) { exists i :: 0 <= i < |s| && IsDigit(s[i]) }
  predicate HasSymbol(s: string) {
    exists i :: 0 <= i < |s| && !IsUpperAscii(s[i]) && !IsLowerAscii(s[i]) && !IsDigit(s[i])
  }

  function Point(b: bool): int { if b then 1 else 0 }

  /** `getStrength`: one point each for length ≥ 8, mixed case, a digit and a symbol. */
  function GetStrength(pass: string): (score: int)
    ensures 0 <= score <= 4
    ensures score == 4 <==> Utf16Length(pass) >= 8 && HasUpper(pass) && HasLower(pass) && HasDigit(pass) && HasSymbol(pass)
    ensures score == 0 <==> Utf16Length(pass) < 8 && !(HasUpper(pass) && HasLower(pass)) && !HasDigit(pass) && !HasSymbol(pass)
  {
    Point(Utf16Length(pass) >= 8) + Point(HasUpper(pass) && HasLower(pass)) + Point(HasDigit(pass)) + Point(HasSymbol(pass))
  }

  /** Typing more characters never lowers the score. */
  lemma StrengthNeverDrops(a: string, b: string)
    ensures GetStrength(a + b) >= GetStrength(a)
  {
    var s := a + b;
    Utf16LengthAppend(a, b);
    if HasUpper(a) {
      var i :| 0 <= i < |a| && IsUpperAscii(a[i]);
      assert s[i] == a[i];
    }
    if HasLower(a) {
      var i :| 0 <= i < |a| && IsLowerAscii(a[i]);
      assert s[i] == a[i];
    }
    if HasDigit(a) {
      var i :| 0 <= i < |a| && IsDigit(a[i]);
      assert s[i] == a[i];
    }
    if HasSymbol(a) {
      var i :| 0 <= i < |a| && !IsUpperAscii(a[i]) && !IsLowerAscii(a[i]) && !IsDigit(a[i]);
      assert s[i] == a[i];
    }
  }

  /** `getStrengthLabel`: every integer score gets a label, so the empty fallback is never used. */
  function StrengthLabel(score: int): (name: string)
    ensures name != ""
    ensures name == "Weak" <==> score <= 1
    ensures name == "Strong" <==> score >= 3
    ensures name == "Medium" <==> score == 2
  {
    if score <= 1 then "Weak"
    else if score == 2 then "Medium"
    else if score >= 3 then "Strong"
    else ""
  }

  const TooShort := "Password must be at least 8 characters long."
  const RegisteredMessage := "Account created successfully. Please log in."

  /** The client check: an error only for a password that is both shorter than 8 and not strong. */
  function PasswordError(password: string): (r: Option<string>)
    ensures r.Some? <==> Utf16Length(password) < 8 && GetStrength(password) < 3
    ensures r.Some? ==> r.value == TooShort
    ensures Utf16Length(password) >= 8 ==> r.None?
    ensures Utf16Length(password) < 8 ==> (r.None? <==> HasUpper(password) && HasLower(password) && HasDigit(password) && HasSymbol(password))
  {
    if GetStrength(password) < 3 && Utf16Length(password) < 8 then Some(TooShort) else None
  }

  /** "Aa1!" scores 3 and passes the client check despite its length. */
  lemma ShortStrongPasswordPasses()
    ensures GetStrength("Aa1!") == 3
    ensures PasswordError("Aa1!").None?
  {
    var p := "Aa1!";
    assert IsUpperAscii(p[0]) && IsLowerAscii(p[1]) && IsDigit(p[2]);
    assert !IsUpperAscii(p[3]) && !IsLowerAscii(p[3]) && !IsDigit(p[3]);
  }

  /**
   * Four emoji are 8 code units long: the password counts as long enough and passes the
   * client check although it has four characters and scores only 2.
   */
  lemma FourEmojiPasswordPasses()
    ensures var p := "\U{1F600}\U{1F600}\U{1F600}\U{1F600}";
      |p| == 4 && Utf16Length(p) == 8 && GetStrength(p) == 2 && PasswordError(p).None?
  {
    var p := "\U{1F600}\U{1F600}\U{1F600}\U{1F600}";
    assert Utf16Length(p[..1]) == 2 by { assert p[..1][..0] == []; }
    assert Utf16Length(p[..2]) == 4 by { assert p[..2][..1] == p[..1]; }
    assert Utf16Length(p[..3]) == 6 by { assert p[..3][..2] == p[..2]; }
    assert p[..4] == p;
    assert !IsUpperAscii(p[0]) && !IsLowerAscii(p[0]) && !IsDigit(p[0]);
    assert forall i :: 0 <= i < |p| ==> p[i] == p[0];
  }

  datatype SubmitOutcome =
    | ShowError(message: string)
    | GoToLogin(to: string, message: string)

  /**
   * `handleSubmit`, with `failure` for the register call's outcome: `None` when it succeeds,
   * `Some(e)` when it fails with the server's `error` field `e` (absent or empty when the
   * reply carries none). A refused password is not sent.
   */
  function HandleSubmit(password: string, failure: Option<Option<string>>): (r: (bool, SubmitOutcome))
    ensures r.0 <==> PasswordError(password).None?
    ensures !r.0 ==> r.1 == ShowError(TooShort)
    ensures r.0 && failure.None? ==> r.1 == GoToLogin(Routes.Login, RegisteredMessage)
    ensures r.0 && failure.Some? ==> r.1.ShowError? && r.1.message != ""
    ensures r.0 && failure.Some? && TruthyString(failure.value) ==> r.1 == ShowError(failure.value.value)
    ensures r.0 && failure.Some? && !TruthyString(failure.value) ==> r.1 == ShowError("Registration failed")
  {
    match PasswordError(password)
    case Some(e) => (false, ShowError(e))
    case None =>
      match failure
      case None => (true, GoToLogin(Routes.Login, RegisteredMessage))
      case Some(e) => (true, ShowError(if TruthyString(e) then e.value else "Registration failed"))
  }
}
