/** The log-in dialog: the log-in page's form and checks, closing on success and going
    to the dashboard home of the role the server returned. */
module LoginModal {
  import opened Common
  import opened Records
  import opened AuthContext
  import opened ProtectedRoute
  import Login

  /** The destination as the dialog writes it: the admin and subcontractor homes, and
      "/dashboard/resident" for every other role. */
  function DestinationAsWritten(roleCode: int): (path: string)
    ensures roleCode != 3 && roleCode != 2 ==> path == "/dashboard/resident"
    ensures roleCode == 3 || roleCode == 2 ==> path == Landing(roleCode)
  {
    if roleCode == 3 then "/dashboard/admin"
    else if roleCode == 2 then "/dashboard/subs"
    else "/dashboard/resident"
  }

  /** The route table has no "/dashboard/resident": a resident who logs in through the
      dialog lands on the catch-all page instead of the resident dashboard. */
  lemma ResidentLandsOnNotFound(s: Session)
    requires s.roleCode == 1
    ensures Visit(Some(s), DestinationAsWritten(s.roleCode)) == NotFound
    ensures Visit(Some(s), Landing(s.roleCode)) == Shown
  {
    LandingShown(s, 1);
  }

  class Modal {
    var open: bool
    var form: Login.LoginForm

    constructor (isOpen: bool)
      ensures open == isOpen && form == Login.EmptyForm
    {
      open := isOpen;
      form := Login.EmptyForm;
    }

    method HandleChange(name: string, value: string)
      modifies this
      ensures form == Login.Change(old(form), name, value) && open == old(open)
    {
      form := Login.Change(form, name, value);
    }

    /** `handleSubmit`. The checks are the log-in page's. On success the dialog closes
      and goes (after a delay) to the home of the role the server returned, using the
      route table's path for residents; on failure it stays open with the message. */
    method HandleSubmit(provider: AuthProvider, reply: LoginReply)
      returns (sent: Option<Login.LoginForm>, notice: Notice, navigate: Option<string>)
      requires provider.Valid()
      modifies this, provider
      ensures provider.Valid() && form == old(form)
      ensures Login.CheckForm(form) != Login.Passed ==>
                sent.None? && navigate.None? && open == old(open)
                && notice == Toasted(Login.CheckToast(Login.CheckForm(form)))
                && provider.auth == old(provider.auth) && provider.storage == old(provider.storage)
      ensures Login.CheckForm(form) == Login.Passed ==> sent == Some(form)
      ensures Login.CheckForm(form) == Login.Passed && reply.Authenticated? ==>
                provider.auth == Some(reply.user) && !open
                && navigate == Some(Landing(reply.user.roleCode))
                && notice == Toasted(Toast("Login successful", "Welcome back!"))
      ensures Login.CheckForm(form) == Login.Passed && reply.LoginError? ==>
                provider.auth == old(provider.auth) && provider.storage == old(provider.storage)
                && navigate.None? && open == old(open)
                && notice == Toasted(Login.OutcomeToast(LoginFailed(Or(OrBlank(reply.serverMessage), reply.message))))
    {
      var check := Login.CheckForm(form);
      if check != Login.Passed {
        return None, Toasted(Login.CheckToast(check)), None;
      }
      sent := Some(form);
      var result := provider.Login(reply);
      notice := Toasted(Login.OutcomeToast(result));
      if result.LoginSucceeded? {
        open := false;
        navigate := Some(Landing(result.user.roleCode));
      } else {
        navigate := None;
      }
    }
  }

  /** A signed-in user whose role the dashboard admits reaches the page the dialog
      sends them to. */
  lemma DestinationShown(s: Session)
    requires s.roleCode in DashboardRoles
    ensures Visit(Some(s), Landing(s.roleCode)) == Shown
  {
    LandingShown(s, s.roleCode);
  }
}
