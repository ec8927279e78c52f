/** The log-in page: the two-field form, the checks run before calling `login`, and what
    each outcome shows. The log-in dialog shares the form and the checks. */
module Login {
  import opened Common
  import opened Records
  import opened Email
  import opened AuthContext

  datatype LoginForm = LoginForm(email: string, password: string)

  const EmptyForm := LoginForm("", "")

  /** `setForm(prev => ({ ...prev, [name]: value }))`: only the named field changes. */
  function Change(form: LoginForm, name: string, value: string): (r: LoginForm)
    ensures name == "email" ==> r == form.(email := value)
    ensures name == "password" ==> r == form.(password := value)
    ensures name != "email" && name != "password" ==> r == form
  {
    if name == "email" then form.(email := value)
    else if name == "password" then form.(password := value)
    else form
  }

  datatype Check = Passed | InvalidEmail | PasswordRequired

  /** The e-mail shape is checked first, then that a password was typed. */
  function CheckForm(form: LoginForm): (c: Check)
    ensures c == Passed <==> MatchesPattern(form.email) && form.password != ""
    ensures c == InvalidEmail <==> !MatchesPattern(form.email)
    ensures c == PasswordRequired <==> MatchesPattern(form.email) && form.password == ""
  {
    if !MatchesPattern(form.email) then InvalidEmail
    else if form.password == "" then PasswordRequired
    else Passed
  }

  function CheckToast(c: Check): Toast
  {
    match c
    case InvalidEmail => Toast("Invalid email", "Please enter a valid email address.")
    case PasswordRequired => Toast("Password required", "Please enter your password.")
    case Passed => Toast("", "")
  }

  /** An empty form is refused for its e-mail, before the password is looked at. */
  lemma EmptyFormRefused()
    ensures CheckForm(EmptyForm) == InvalidEmail
  {
    assert !PlainRun(EmptyForm.email);
  }

  /** What a settled `login` shows: a welcome, or the failure message with a fallback. */
  function OutcomeToast(result: LoginResult): (t: Toast)
    ensures result.LoginSucceeded? ==> t == Toast("Login successful", "Welcome back!")
    ensures result.LoginFailed? ==> t.title == "Login failed" && t.description != ""
    ensures result.LoginFailed? && result.message != "" ==> t.description == result.message
  {
    match result
    case LoginSucceeded(_) => Toast("Login successful", "Welcome back!")
    case LoginFailed(message) => Toast("Login failed", Or(message, "Please try again."))
  }

  class Page {
    var form: LoginForm

    constructor ()
      ensures form == EmptyForm
    {
      form := EmptyForm;
    }

    method HandleChange(name: string, value: string)
      modifies this
      ensures form == Change(old(form), name, value)
    {
      form := Change(form, name, value);
    }

    /** `handleSubmit`. A failed check shows its notice and never calls `login`.
      Otherwise the credentials go to `login`; a success goes to "/dashboard" (after a
      delay), a failure shows the message and stays. */
    method HandleSubmit(provider: AuthProvider, reply: LoginReply)
      returns (sent: Option<LoginForm>, notice: Notice, navigate: Option<string>)
      requires provider.Valid()
      modifies provider
      ensures provider.Valid() && form == old(form)
      ensures CheckForm(form) != Passed ==>
                sent.None? && navigate.None? && notice == Toasted(CheckToast(CheckForm(form)))
                && provider.auth == old(provider.auth) && provider.storage == old(provider.storage)
      ensures CheckForm(form) == Passed ==> sent == Some(form)
      ensures CheckForm(form) == Passed && reply.Authenticated? ==>
                provider.auth == Some(reply.user) && navigate == Some("/dashboard")
                && notice == Toasted(Toast("Login successful", "Welcome back!"))
      ensures CheckForm(form) == Passed && reply.LoginError? ==>
                provider.auth == old(provider.auth) && provider.storage == old(provider.storage)
                && navigate.None?
                && notice == Toasted(OutcomeToast(LoginFailed(Or(OrBlank(reply.serverMessage), reply.message))))
    {
      var check := CheckForm(form);
      if check != Passed {
        return None, Toasted(CheckToast(check)), None;
      }
      sent := Some(form);
      var result := provider.Login(reply);
      notice := Toasted(OutcomeToast(result));
      navigate := if result.LoginSucceeded? then Some("/dashboard") else None;
    }
  }
}
