/**
 * The login page's mock rule: the administrator credentials give an admin
 * session, any other filled-in pair a user session.
 */
module Login {
  import opened Wrappers
  import opened UserTypes
  import opened Navigation

  /** What the page writes to the `user` key: only a role and the entered email. */
  datatype MockSession = MockSession(role: Role, email: string)

  datatype LoginResult = LoginResult(session: Option<MockSession>, nav: Option<Route>)

  function MockLogin(email: string, password: string): (r: LoginResult)
    ensures email == AdminEmail && password == AdminPassword ==>
      r == LoginResult(Some(MockSession(Admin, email)), Some(ToAdmin))
    ensures !(email == AdminEmail && password == AdminPassword) && CredentialsGiven(email, password) ==>
      r == LoginResult(Some(MockSession(User, email)), Some(ToDashboard))
    ensures !CredentialsGiven(email, password) ==> r == LoginResult(None, None)
    ensures r.session.Some? ==> r.session.value.email == email
  {
    if email == AdminEmail && password == AdminPassword then LoginResult(Some(MockSession(Admin, email)), Some(ToAdmin))
    else if email != "" && password != "" then LoginResult(Some(MockSession(User, email)), Some(ToDashboard))
    else LoginResult(None, None)
  }

  /** The admin email with a wrong, non-empty password still logs in, as a user. */
  lemma AdminEmailWrongPassword(password: string)
    requires password != "" && password != AdminPassword
    ensures MockLogin(AdminEmail, password) == LoginResult(Some(MockSession(User, AdminEmail)), Some(ToDashboard))
  {
  }

  class LoginPage {
    var email: string
    var password: string
    var isLoading: bool
    /** The `user` key as this page writes it. */
    var stored: Option<MockSession>

    constructor (initial: Option<MockSession>)
      ensures email == "" && password == "" && !isLoading && stored == initial
    {
      email, password := "", "";
      isLoading := false;
      stored := initial;
    }

    /** `handleLogin`, with the delayed callback taken as run. */
    method HandleLogin() returns (nav: Option<Route>)
      modifies this
      ensures var r := MockLogin(old(email), old(password));
              && nav == r.nav
              && stored == (if r.session.Some? then r.session else old(stored))
      ensures !isLoading && email == old(email) && password == old(password)
    {
      isLoading := true;
      var r := MockLogin(email, password);
      if r.session.Some? {
        stored := r.session;
      }
      nav := r.nav;
      isLoading := false;
    }
  }
}
