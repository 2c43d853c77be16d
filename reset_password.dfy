/** The set-new-password page: a session check, a two-rule form
    validator, and a `reset -> success` step driven by the outcome of the
    identity provider's password update. */
module ResetPassword {

  datatype Step = Reset | Success

  /** The outcome of `auth.updateUser({ password })`. */
  datatype UpdateOutcome = NoError | ReturnedError(message: string) | Threw

  /** What the page renders. */
  datatype View = VerifyingLink | Nothing | ResetForm | SuccessMessage

  const MinPasswordLength := 8

  /** `passwordValid`. */
  predicate PasswordValid(password: string) {
    |password| >= MinPasswordLength
  }

  /** `passwordsMatch`. */
  predicate PasswordsMatch(password: string, confirm: string) {
    password == confirm && |confirm| > 0
  }

  /** The two rules together accept exactly the equal pairs of at least 8
      characters: the non-empty-confirmation part of the match rule is
      implied by the length rule. */
  lemma SubmitRuleIff(password: string, confirm: string)
    ensures PasswordsMatch(password, confirm) && PasswordValid(password)
            <==> password == confirm && |password| >= 8
  {
  }

  class ResetPasswordPage {
    var step: Step
    var password: string
    var confirmPassword: string
    var showPassword: bool
    var showConfirmPassword: bool
    var isLoading: bool
    var isValidSession: bool
    var checkingSession: bool
    /** Whether the page has navigated away to the forgot-password page. */
    var redirectedToForgotPassword: bool

    constructor ()
      ensures step == Reset && password == "" && confirmPassword == ""
      ensures !showPassword && !showConfirmPassword && !isLoading
      ensures !isValidSession && checkingSession && !redirectedToForgotPassword
    {
      step := Reset;
      password := "";
      confirmPassword := "";
      showPassword := false;
      showConfirmPassword := false;
      isLoading := false;
      isValidSession := false;
      checkingSession := true;
      redirectedToForgotPassword := false;
    }

    /** The page shown for the current state. */
    function Render(): (v: View)
      reads this
      ensures v == ResetForm ==> !checkingSession && isValidSession && step == Reset
      ensures v == SuccessMessage ==> !checkingSession && isValidSession && step == Success
      ensures checkingSession <==> v == VerifyingLink
      ensures v == Nothing <==> !checkingSession && !isValidSession
    {
      if checkingSession then VerifyingLink
      else if !isValidSession then Nothing
      else if step.Reset? then ResetForm
      else SuccessMessage
    }

    /** The submit button's `disabled`. */
    function SubmitDisabled(): (disabled: bool)
      reads this
      ensures !disabled <==> !isLoading && password == confirmPassword && |password| >= 8
    {
      SubmitRuleIff(password, confirmPassword);
      isLoading || !PasswordsMatch(password, confirmPassword) || !PasswordValid(password)
    }

    /** The session check run when the page opens; `hasSession` is whether
        the identity provider reports any session at all (a recovery session
        or an ordinary sign-in both count). */
    method CheckSession(hasSession: bool)
      modifies this`isValidSession, this`checkingSession, this`redirectedToForgotPassword
      ensures isValidSession == (old(isValidSession) || hasSession)
      ensures redirectedToForgotPassword == (old(redirectedToForgotPassword) || !hasSession)
      ensures !checkingSession
    {
      if hasSession {
        isValidSession := true;
      } else {
        redirectedToForgotPassword := true;
      }
      checkingSession := false;
    }

    method SetPassword(v: string)
      modifies this`password
      ensures password == v
    {
      password := v;
    }

    method SetConfirmPassword(v: string)
      modifies this`confirmPassword
      ensures confirmPassword == v
    {
      confirmPassword := v;
    }

    method ToggleShowPassword()
      modifies this`showPassword
      ensures showPassword == !old(showPassword)
    {
      showPassword := !showPassword;
    }

    method ToggleShowConfirmPassword()
      modifies this`showConfirmPassword
      ensures showConfirmPassword == !old(showConfirmPassword)
    {
      showConfirmPassword := !showConfirmPassword;
    }

    /** `handleResetSubmit`; `outcome` is what the password update reports.
        `requested` is whether the update was requested at all. */
    method HandleResetSubmit(outcome: UpdateOutcome) returns (requested: bool)
      modifies this`isLoading, this`step
      ensures requested <==> PasswordsMatch(password, confirmPassword) && PasswordValid(password)
      ensures !requested ==> step == old(step) && isLoading == old(isLoading)
      ensures requested ==> !isLoading
      ensures requested ==> step == if outcome == NoError then Success else old(step)
    {
      if !PasswordsMatch(password, confirmPassword) || !PasswordValid(password) {
        return false;
      }
      isLoading := true;
      if outcome == NoError {
        step := Success;
      }
      isLoading := false;
      return true;
    }
  }
}
