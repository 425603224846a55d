/** The sign-up page: the password-strength meter and the submit handler's
    checks before it hands over to the auth store. */
module SignupPage {
  import opened Optional
  import Text
  import AuthContext

  /** `/[a-z]/.test(p) && /[A-Z]/.test(p)` */
  predicate HasMixedCase(p: string)
  {
    (exists i :: 0 <= i < |p| && Text.IsLower(p[i])) && (exists i :: 0 <= i < |p| && Text.IsUpper(p[i]))
  }

  /** `/\d/.test(p)` */
  predicate HasDigit(p: string) { exists i :: 0 <= i < |p| && Text.IsDigit(p[i]) }

  /** `/[^a-zA-Z0-9]/.test(p)` */
  predicate HasSymbol(p: string) { exists i :: 0 <= i < |p| && !Text.IsAlnum(p[i]) }

  function Point(b: bool): nat { if b then 1 else 0 }

  /** The five criteria, one point each; the length is JavaScript's, in UTF-16
      code units. */
  function CriteriaMet(p: string): (n: nat)
    ensures n <= 5
  {
    Point(Text.Utf16Length(p) >= 6) + Point(Text.Utf16Length(p) >= 10) + Point(HasMixedCase(p)) + Point(HasDigit(p)) + Point(HasSymbol(p))
  }

  datatype Strength = Strength(score: nat, caption: string, color: string)

  /** getPasswordStrength */
  function PasswordStrength(p: string): (s: Strength)
    ensures p == "" ==> s == Strength(0, "", "")
    ensures p != "" ==> s.score == CriteriaMet(p)
    ensures s.score <= 5
    ensures p != "" ==>
      s.caption == (if s.score <= 1 then "Weak" else if s.score <= 3 then "Fair" else if s.score <= 4 then "Good" else "Strong")
    ensures p != "" && s.score <= 1 ==> s.color == "bg-red-500"
    ensures p != "" && 2 <= s.score <= 3 ==> s.color == "bg-yellow-500"
    ensures p != "" && s.score == 4 ==> s.color == "bg-blue-500"
    ensures p != "" && s.score == 5 ==> s.color == "bg-green-500"
  {
    if p == "" then Strength(0, "", "")
    else
      var score := CriteriaMet(p);
      if score <= 1 then Strength(score, "Weak", "bg-red-500")
      else if score <= 3 then Strength(score, "Fair", "bg-yellow-500")
      else if score <= 4 then Strength(score, "Good", "bg-blue-500")
      else Strength(score, "Strong", "bg-green-500")
  }

  /** Appending characters never lowers the score: every criterion met by a
      password is met by any extension of it. */
  lemma StrengthMonotone(p: string, ext: string)
    requires p != ""
    ensures PasswordStrength(p + ext).score >= PasswordStrength(p).score
  {
    var q := p + ext;
    Text.Utf16LengthAppend(p, ext);
    assert forall i :: 0 <= i < |p| ==> q[i] == p[i];
    if HasMixedCase(p) {
      var i :| 0 <= i < |p| && Text.IsLower(p[i]);
      var j :| 0 <= j < |p| && Text.IsUpper(p[j]);
      assert Text.IsLower(q[i]) && Text.IsUpper(q[j]);
    }
    if HasDigit(p) {
      var i :| 0 <= i < |p| && Text.IsDigit(p[i]);
      assert Text.IsDigit(q[i]);
    }
    if HasSymbol(p) {
      var i :| 0 <= i < |p| && !Text.IsAlnum(p[i]);
      assert !Text.IsAlnum(q[i]);
    }
  }

  /** A password of ten or more characters with both cases, a digit and a
      symbol is Strong. */
  lemma StrongExample()
    ensures PasswordStrength("Abcdefgh1!").caption == "Strong"
  {
    var p := "Abcdefgh1!";
    assert Text.IsUpper(p[0]) && Text.IsLower(p[1]) && Text.IsDigit(p[8]) && !Text.IsAlnum(p[9]);
  }

  /** The meter: bar i (1 to 5), at index i - 1, is filled iff i <= score. */
  function Bars(score: nat): (bars: seq<bool>)
    ensures |bars| == 5
    ensures forall k :: 0 <= k < 5 ==> bars[k] == (k + 1 <= score)
  {
    seq(5, k requires 0 <= k < 5 => k + 1 <= score)
  }

  function CountFilled(bars: seq<bool>): nat
  {
    if bars == [] then 0 else CountFilled(bars[..|bars| - 1]) + Point(bars[|bars| - 1])
  }

  /** Exactly `score` bars are filled, for every score the meter can show. */
  lemma {:induction false} FilledBars(score: nat)
    requires score <= 5
    ensures CountFilled(Bars(score)) == score
  {
    var b := Bars(score);
    assert b[..4][..3] == b[..3] && b[..3][..2] == b[..2] && b[..2][..1] == b[..1] && b[..1][..0] == [];
    assert CountFilled(b[..1]) == Point(b[0]);
    assert CountFilled(b[..2]) == Point(b[0]) + Point(b[1]);
    assert CountFilled(b[..3]) == Point(b[0]) + Point(b[1]) + Point(b[2]);
    assert CountFilled(b[..4]) == Point(b[0]) + Point(b[1]) + Point(b[2]) + Point(b[3]);
  }

  /** The submit handler's own check: the first failing message, if any. */
  function SubmitError(password: string, confirmPassword: string): (e: Option<string>)
    ensures password != confirmPassword ==> e == Some("Passwords do not match")
    ensures password == confirmPassword && Text.Utf16Length(password) < 6 ==> e == Some("Password must be at least 6 characters")
    ensures e.None? <==> password == confirmPassword && Text.Utf16Length(password) >= 6
  {
    if password != confirmPassword then Some("Passwords do not match")
    else if Text.Utf16Length(password) < 6 then Some("Password must be at least 6 characters")
    else None
  }

  /** The page's state: the error line, the loading flag, and whether it has
      navigated to the dashboard. */
  class SignupForm {
    var error: string
    var isLoading: bool
    var navigated: bool

    constructor ()
      ensures error == "" && !isLoading && !navigated
    {
      error, isLoading, navigated := "", false, false;
    }

    /** handleSubmit: check the confirmation and the length, then call signup;
        on failure show its message (or "Sign up failed") and stop loading. */
    method HandleSubmit(auth: AuthContext.AuthStore, name: string, email: string,
                        password: string, confirmPassword: string, newId: string)
      modifies this, auth
      ensures SubmitError(password, confirmPassword).Some? ==>
        error == SubmitError(password, confirmPassword).value && isLoading == old(isLoading)
        && navigated == old(navigated)
        && auth.user == old(auth.user) && auth.storage == old(auth.storage)
      ensures SubmitError(password, confirmPassword).None? ==>
        var e := AuthContext.SignupError(name, email, password);
        (e.Some? ==> error == e.value && !isLoading && navigated == old(navigated)
                     && auth.user == old(auth.user) && auth.storage == old(auth.storage)) &&
        (e.None? && AuthContext.ExistingUsers(old(auth.storage), email).None? ==>
           error == "An account with this email already exists" && !isLoading && navigated == old(navigated)) &&
        (e.None? && AuthContext.ExistingUsers(old(auth.storage), email).Some? ==>
           error == "" && isLoading && navigated && auth.IsAuthenticated())
      ensures auth.isLoading == old(auth.isLoading)
    {
      error := "";
      var check := SubmitError(password, confirmPassword);
      if check.Some? {
        error := check.value;
        return;
      }
      isLoading := true;
      var result := auth.Signup(name, email, password, newId);
      if result.Success? {
        navigated := true;
      } else {
        error := if result.error != "" then result.error else "Sign up failed";
        isLoading := false;
      }
    }
  }
}
