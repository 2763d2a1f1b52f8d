/**
 * The client-side checks of the sign-up form, in the order `handleSubmit`
 * runs them; the first failing check's message is shown and no request is made.
 */
module Register {
  import AuthValidator

  const AllFieldsRequired: string := "All fields are required"
  const PasswordsDoNotMatch: string := "Passwords do not match"
  const PasswordTooShort: string := "Password must be at least 6 characters"

  /** Either the error shown, or the sign-up request sent (the confirmation is not sent). */
  datatype RegisterResult = Rejected(message: string) | Submit(name: string, email: string, password: string)

  function CheckRegistration(name: string, email: string, password: string, confirmPassword: string): (r: RegisterResult)
    ensures r.Submit? ==> r.name != "" && r.email != "" && r.password == confirmPassword && |r.password| >= 6
    ensures r.Rejected? ==> r.message in {AllFieldsRequired, PasswordsDoNotMatch, PasswordTooShort}
  {
    if name == "" || email == "" || password == "" || confirmPassword == "" then Rejected(AllFieldsRequired)
    else if password != confirmPassword then Rejected(PasswordsDoNotMatch)
    else if |password| < 6 then Rejected(PasswordTooShort)
    else Submit(name, email, password)
  }

  /** An empty field is reported first, whatever else is wrong. */
  lemma EmptyFieldFirst(name: string, email: string, password: string, confirmPassword: string)
    requires name == "" || email == "" || password == "" || confirmPassword == ""
    ensures CheckRegistration(name, email, password, confirmPassword) == Rejected(AllFieldsRequired)
  {
  }

  /** With every field filled, a differing confirmation is reported, whatever the length. */
  lemma MismatchSecond(name: string, email: string, password: string, confirmPassword: string)
    requires name != "" && email != "" && password != "" && confirmPassword != ""
    requires password != confirmPassword
    ensures CheckRegistration(name, email, password, confirmPassword) == Rejected(PasswordsDoNotMatch)
  {
  }

  /** The length check comes last. */
  lemma ShortLast(name: string, email: string, password: string)
    requires name != "" && email != "" && password != ""
    requires |password| < 6
    ensures CheckRegistration(name, email, password, password) == Rejected(PasswordTooShort)
  {
  }

  /** A request is made exactly when all three checks pass, and it carries the form's name, e-mail and password. */
  lemma SubmitIff(name: string, email: string, password: string, confirmPassword: string)
    ensures CheckRegistration(name, email, password, confirmPassword).Submit? <==>
      name != "" && email != "" && password == confirmPassword && |password| >= 6
    ensures CheckRegistration(name, email, password, confirmPassword).Submit? ==>
      CheckRegistration(name, email, password, confirmPassword) == Submit(name, email, password)
  {
  }

  /**
   * A matching 6- or 7-character password passes every client check, yet
   * the sign-up schema rejects it twice over (too short, and too short for the rule).
   */
  lemma ClientLaxerThanSignUpSchema(name: string, email: string, password: string)
    requires name != "" && email != ""
    requires 6 <= |password| < 8
    ensures CheckRegistration(name, email, password, password).Submit?
    ensures !AuthValidator.PasswordRule(password)
    ensures AuthValidator.SignUpPasswordFailures(password)
            == [AuthValidator.PasswordTooShort, AuthValidator.PasswordTooWeak]
  {
  }

  /** The converse does hold: a password the sign-up schema's rule accepts always passes the client's checks. */
  lemma SignUpRuleImpliesClient(name: string, email: string, password: string)
    requires name != "" && email != ""
    requires AuthValidator.PasswordRule(password)
    ensures CheckRegistration(name, email, password, password) == Submit(name, email, password)
  {
    AuthValidator.RuleImpliesMinLength(password);
  }
}
