/**
 * The registration form's submit handler: the error is cleared, then the two
 * passwords must match, then the password must be at least six UTF-16 code
 * units long; only then is the account registered, and the user is sent home
 * on success or shown the server's message on failure.
 */
module RegisterForm {
  import opened Wrappers
  import opened Js

  /** What the registration call answers. */
  datatype RegisterResult = RegisterResult(success: bool, message: string)

  /** The outcome of a submission: the error shown, whether the account call was made, and whether the user was sent home. */
  datatype SubmitOutcome = SubmitOutcome(error: string, registerCalled: bool, navigatedHome: bool)

  const PasswordMismatch := "Passwords do not match"
  const PasswordTooShort := "Password must be at least 6 characters"
  const MinPasswordLength := 6

  /** The form checks, in order, without the call: the message of the first one that fails. */
  function Validate(password: string, confirmPassword: string): (r: Option<string>)
    ensures r == None <==> password == confirmPassword && Utf16Length(password) >= MinPasswordLength
    ensures password != confirmPassword ==> r == Some(PasswordMismatch)
    ensures password == confirmPassword && Utf16Length(password) < MinPasswordLength ==> r == Some(PasswordTooShort)
  {
    if password != confirmPassword then Some(PasswordMismatch)
    else if Utf16Length(password) < MinPasswordLength then Some(PasswordTooShort)
    else None
  }

  /**
   * The submit handler. `register` stands for the account call; it is used
   * only when both checks pass. The error shown before the submission plays
   * no part: it is cleared first.
   */
  function HandleSubmit(name: string, email: string, password: string, confirmPassword: string,
                        register: (string, string, string) -> RegisterResult): (r: SubmitOutcome)
    ensures r.registerCalled <==> Validate(password, confirmPassword) == None
    ensures !r.registerCalled ==> r.error == Validate(password, confirmPassword).value && !r.navigatedHome
    ensures r.registerCalled ==> r.navigatedHome == register(name, email, password).success
    ensures r.registerCalled && register(name, email, password).success ==> r.error == ""
    ensures r.registerCalled && !register(name, email, password).success ==> r.error == register(name, email, password).message
  {
    match Validate(password, confirmPassword)
    case Some(message) => SubmitOutcome(message, false, false)
    case None =>
      var result := register(name, email, password);
      if result.success then SubmitOutcome("", true, true)
      else SubmitOutcome(result.message, true, false)
  }

  /** When a check fails, the outcome does not depend on what the account call would have answered. */
  lemma RejectedWithoutCall(name: string, email: string, password: string, confirmPassword: string,
                            register1: (string, string, string) -> RegisterResult,
                            register2: (string, string, string) -> RegisterResult)
    requires Validate(password, confirmPassword).Some?
    ensures HandleSubmit(name, email, password, confirmPassword, register1)
         == HandleSubmit(name, email, password, confirmPassword, register2)
  {
  }

  /**
   * Mismatched passwords are reported as a mismatch whatever their length,
   * and the account call is not made.
   */
  lemma MismatchCheckedFirst(name: string, email: string, password: string, confirmPassword: string,
                             register: (string, string, string) -> RegisterResult)
    requires password != confirmPassword
    ensures HandleSubmit(name, email, password, confirmPassword, register) == SubmitOutcome(PasswordMismatch, false, false)
  {
  }

  /** Three emoji count as six code units, so the length check passes although the password has three characters. */
  lemma AstralPasswordLongEnough()
    ensures Validate("\U{1F600}\U{1F600}\U{1F600}", "\U{1F600}\U{1F600}\U{1F600}") == None
  {
    var s := "\U{1F600}\U{1F600}\U{1F600}";
    assert s[1..][1..][1..] == [];
  }
}
