/** `app/signup/page.tsx`: the sign-up form's submit handler. */
module SignupPage {
  import opened Text

  const MsgRequired := "All fields are required"
  const MsgMismatch := "Passwords do not match"
  const MsgTooShort := "Password must be at least 8 characters"
  const MinPasswordLength := 8

  /** The three checks of `handleSubmit`, in order; the first failure's message wins.
      `confirmPassword` takes part only in the match check. */
  function Validate(email: string, name: string, password: string, confirmPassword: string): (err: Option<string>)
    ensures (email == "" || name == "" || password == "") ==> err == Some(MsgRequired)
    ensures email != "" && name != "" && password != "" && password != confirmPassword ==> err == Some(MsgMismatch)
    ensures email != "" && name != "" && password != "" && password == confirmPassword && |password| < MinPasswordLength ==>
      err == Some(MsgTooShort)
    ensures err.None? <==>
      email != "" && name != "" && password == confirmPassword && |password| >= MinPasswordLength
  {
    if email == "" || name == "" || password == "" then Some(MsgRequired)
    else if password != confirmPassword then Some(MsgMismatch)
    else if |password| < MinPasswordLength then Some(MsgTooShort)
    else None
  }

  /** A blank confirmation is not a missing field: with the other three filled in, it
      fails the match check instead. */
  lemma BlankConfirmationIsMismatch(email: string, name: string, password: string)
    requires email != "" && name != "" && password != ""
    ensures Validate(email, name, password, "") == Some(MsgMismatch)
  {
  }

  /** A mismatch is reported even when the password is also too short. */
  lemma MismatchBeforeLength(email: string, name: string, password: string, confirmPassword: string)
    requires email != "" && name != "" && password != ""
    requires password != confirmPassword && |password| < MinPasswordLength
    ensures Validate(email, name, password, confirmPassword) == Some(MsgMismatch)
  {
  }

  /** The form's state; `error` is "" when no error is shown. */
  class SignupForm {
    var email: string
    var name: string
    var password: string
    var confirmPassword: string
    var isSubmitting: bool
    var isSuccess: bool
    var error: string

    constructor ()
      ensures email == "" && name == "" && password == "" && confirmPassword == ""
      ensures !isSubmitting && !isSuccess && error == ""
    {
      email, name, password, confirmPassword := "", "", "", "";
      isSubmitting, isSuccess := false, false;
      error := "";
    }

    /** The inputs' change handlers. */
    method Type(email: string, name: string, password: string, confirmPassword: string)
      modifies this
      ensures this.email == email && this.name == name
      ensures this.password == password && this.confirmPassword == confirmPassword
      ensures isSubmitting == old(isSubmitting) && isSuccess == old(isSuccess) && error == old(error)
    {
      this.email, this.name, this.password, this.confirmPassword := email, name, password, confirmPassword;
    }

    /** `handleSubmit` up to its delay: the error is cleared, then the checks run; a
        failure shows its message and changes nothing else, a pass starts submitting. */
    method Submit() returns (submitted: bool)
      modifies this
      ensures var v := Validate(email, name, password, confirmPassword);
        && submitted == v.None?
        && (v.Some? ==> error == v.value && isSubmitting == old(isSubmitting))
        && (v.None? ==> error == "" && isSubmitting)
      ensures isSuccess == old(isSuccess)
      ensures email == old(email) && name == old(name)
      ensures password == old(password) && confirmPassword == old(confirmPassword)
    {
      error := "";
      var v := Validate(email, name, password, confirmPassword);
      if v.Some? {
        error := v.value;
        return false;
      }
      isSubmitting := true;
      submitted := true;
    }

    /** The simulated call resolves: success is shown and the `finally` lowers the flag. */
    method Settle()
      modifies this
      ensures isSuccess && !isSubmitting
      ensures error == old(error)
      ensures email == old(email) && name == old(name)
      ensures password == old(password) && confirmPassword == old(confirmPassword)
    {
      isSuccess := true;
      isSubmitting := false;
    }
  }
}
