/** `app/login/page.tsx`: the log-in form's submit handler. */
module LoginPage {
  import opened Text

  const MsgRequired := "Email and password are required"

  /** The only check: both fields are filled in. */
  function Validate(email: string, password: string): (err: Option<string>)
    ensures err.None? <==> email != "" && password != ""
    ensures err.Some? ==> err.value == MsgRequired
  {
    if email == "" || password == "" then Some(MsgRequired) else None
  }

  /** Any non-empty password passes, however short: log-in has no length rule. */
  lemma AnyFilledFormPasses(email: string, c: char)
    requires email != ""
    ensures Validate(email, [c]).None?
  {
  }

  /** The form's state; `error` is "" when no error is shown. */
  class LoginForm {
    var email: string
    var password: string
    var isSubmitting: bool
    var error: string

    constructor ()
      ensures email == "" && password == "" && !isSubmitting && error == ""
    {
      email, password := "", "";
      isSubmitting := false;
      error := "";
    }

    /** The inputs' change handlers. */
    method Type(email: string, password: string)
      modifies this
      ensures this.email == email && this.password == password
      ensures isSubmitting == old(isSubmitting) && error == old(error)
    {
      this.email, this.password := email, password;
    }

    /** `handleSubmit` up to its delay. */
    method Submit() returns (submitted: bool)
      modifies this
      ensures submitted <==> email != "" && password != ""
      ensures submitted ==> error == "" && isSubmitting
      ensures !submitted ==> error == MsgRequired && isSubmitting == old(isSubmitting)
      ensures email == old(email) && password == old(password)
    {
      error := "";
      var v := Validate(email, password);
      if v.Some? {
        error := v.value;
        return false;
      }
      isSubmitting := true;
      submitted := true;
    }

    /** The simulated call resolves: the redirect happens (reported by `redirect`) and
        the `finally` lowers the flag. */
    method Settle() returns (redirect: string)
      modifies this
      ensures redirect == "/" && !isSubmitting
      ensures error == old(error) && email == old(email) && password == old(password)
    {
      redirect := "/";
      isSubmitting := false;
    }
  }
}
