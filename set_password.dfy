/**
 * The set-password page's checks: the four password rules, the
 * confirmation match and the guard on submitting.
 */
module SetPassword {
  /** The characters the special-character rule accepts. */
  const Specials := "!@#$%^&*()_+-=[]{};':\"\\|,.<>/?"

  /** The minimum length. */
  const MinLength := 8

  predicate IsUpper(c: char) { 'A' <= c <= 'Z' }
  predicate IsDigit(c: char) { '0' <= c <= '9' }
  predicate IsSpecial(c: char) { c in Specials }

  /** /[A-Z]/.test(s): scans for an ASCII upper-case letter. */
  function HasUpper(s: string): (b: bool)
    ensures b <==> exists i | 0 <= i < |s| :: IsUpper(s[i])
  {
    if s == [] then false
    else IsUpper(s[0]) || (assert forall i | 1 <= i < |s| :: s[1..][i - 1] == s[i]; HasUpper(s[1..]))
  }

  /** /[0-9]/.test(s) */
  function HasNumber(s: string): (b: bool)
    ensures b <==> exists i | 0 <= i < |s| :: IsDigit(s[i])
  {
    if s == [] then false
    else IsDigit(s[0]) || (assert forall i | 1 <= i < |s| :: s[1..][i - 1] == s[i]; HasNumber(s[1..]))
  }

  /** The special-character class test. */
  function HasSpecial(s: string): (b: bool)
    ensures b <==> exists i | 0 <= i < |s| :: IsSpecial(s[i])
  {
    if s == [] then false
    else IsSpecial(s[0]) || (assert forall i | 1 <= i < |s| :: s[1..][i - 1] == s[i]; HasSpecial(s[1..]))
  }

  datatype Validation = Validation(hasUpper: bool, hasNumber: bool, hasSpecial: bool, hasLength: bool)

  /** The memoised validation: one flag per rule, each stated on the password's characters. */
  function Validate(password: string): (v: Validation)
    ensures v.hasUpper <==> exists i | 0 <= i < |password| :: IsUpper(password[i])
    ensures v.hasNumber <==> exists i | 0 <= i < |password| :: IsDigit(password[i])
    ensures v.hasSpecial <==> exists i | 0 <= i < |password| :: IsSpecial(password[i])
    ensures v.hasLength <==> |password| >= MinLength
  {
    Validation(HasUpper(password), HasNumber(password), HasSpecial(password), |password| >= MinLength)
  }

  /** isPasswordValid: every flag of the validation holds. */
  predicate IsPasswordValid(password: string)
  {
    var v := Validate(password);
    v.hasUpper && v.hasNumber && v.hasSpecial && v.hasLength
  }

  /** doPasswordsMatch: a non-empty password equal to its confirmation. */
  predicate DoPasswordsMatch(password: string, confirm: string)
  {
    password != "" && password == confirm
  }

  predicate CanSubmit(password: string, confirm: string, loading: bool)
  {
    IsPasswordValid(password) && DoPasswordsMatch(password, confirm) && !loading
  }

  /** The rules, stated on characters: the valid passwords are exactly these. */
  lemma ValidIff(password: string)
    ensures IsPasswordValid(password) <==>
      |password| >= MinLength &&
      (exists i | 0 <= i < |password| :: IsUpper(password[i])) &&
      (exists i | 0 <= i < |password| :: IsDigit(password[i])) &&
      (exists i | 0 <= i < |password| :: IsSpecial(password[i]))
  {
  }

  /** Typing more characters never makes a valid password invalid. */
  lemma {:induction false} ValidExtends(password: string, more: string)
    requires IsPasswordValid(password)
    ensures IsPasswordValid(password + more)
  {
    var s := password + more;
    var i :| 0 <= i < |password| && IsUpper(password[i]);
    assert IsUpper(s[i]);
    var j :| 0 <= j < |password| && IsDigit(password[j]);
    assert IsDigit(s[j]);
    var k :| 0 <= k < |password| && IsSpecial(password[k]);
    assert IsSpecial(s[k]);
  }

  /** A submittable form has a confirmed password of at least eight characters. */
  lemma SubmittableShape(password: string, confirm: string, loading: bool)
    requires CanSubmit(password, confirm, loading)
    ensures confirm == password && |password| >= MinLength && !loading
  {
  }

  /** The page state that submitting touches. */
  datatype Form = Form(password: string, confirm: string, loading: bool, error: bool)

  /** handleSubmit up to the network call: a no-op unless submittable, else loading with the error cleared. */
  function Submit(f: Form): (g: Form)
    ensures !CanSubmit(f.password, f.confirm, f.loading) <==> g == f
    ensures g != f ==> g.loading && !g.error && g.password == f.password && g.confirm == f.confirm
  {
    if !CanSubmit(f.password, f.confirm, f.loading) then f
    else Form(f.password, f.confirm, true, false)
  }

  /** A second submit while the first is running does nothing. */
  lemma SubmitOnce(f: Form)
    ensures Submit(Submit(f)) == Submit(f)
  {
  }
}
