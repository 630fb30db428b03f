/**
 * The authentication provider: it loads the session from the current-user
 * slot, logs in against the account table (the administrator credentials
 * first), and logs out.
 */
module AuthContext {
  import opened Wrappers
  import opened UserTypes
  import opened Navigation
  import opened Seqs
  import DatabaseService

  /** The record made for the administrator; `today` stands for the ISO date. */
  function AdminRecord(email: string, today: string): (u: UserAccount)
    ensures u.id == "admin" && u.email == email && u.role == Admin && u.balance == 0
    ensures u.status == Active && u.createdAt == today && u.transactions == Some([])
    ensures u.password.None? && u.accountNumber.None?
  {
    UserAccount("admin", email, None, None, 0, Active, Admin, today, Some([]))
  }

  /** `const { password: _, ...userWithoutPassword } = foundUser` */
  function WithoutPassword(u: UserAccount): (r: UserAccount)
    ensures r.password.None? && r.(password := u.password) == u
  {
    u.(password := None)
  }

  /** `u.email === email && u.password === password`: an account without a password never matches. */
  function Matches(email: string, password: string): (p: UserAccount -> bool)
    ensures forall u :: p(u) <==> u.email == email && u.password.Some? && u.password.value == password
  {
    (u: UserAccount) => u.email == email && u.password == Some(password)
  }

  /** The session `login` produces, or `None` when it returns false. */
  function Authenticate(users: seq<UserAccount>, email: string, password: string, today: string): (r: Option<UserAccount>)
    ensures email == AdminEmail && password == AdminPassword ==> r == Some(AdminRecord(email, today))
    ensures !(email == AdminEmail && password == AdminPassword) ==>
      (r.Some? <==> exists k :: 0 <= k < |users| && users[k].email == email && users[k].password == Some(password))
    ensures !(email == AdminEmail && password == AdminPassword) && r.Some? ==>
      exists k :: 0 <= k < |users| && r.value == WithoutPassword(users[k])
                  && users[k].email == email && users[k].password == Some(password)
                  && forall j :: 0 <= j < k ==> !(users[j].email == email && users[j].password == Some(password))
    ensures r.Some? ==> r.value.password.None? && r.value.email == email
  {
    if email == AdminEmail && password == AdminPassword then Some(AdminRecord(email, today))
    else match FindIndex(users, Matches(email, password))
      case None => None
      case Some(k) => Some(WithoutPassword(users[k]))
  }

  /** The administrator credentials win even over a stored account with the same email and password. */
  lemma AdminFirst(users: seq<UserAccount>, today: string)
    ensures Authenticate(users, AdminEmail, AdminPassword, today).value.id == "admin"
  {
  }

  class AuthProvider {
    var user: Option<UserAccount>
    var isLoading: bool

    constructor ()
      ensures user.None? && isLoading
    {
      user := None;
      isLoading := true;
    }

    /** `isAuthenticated: !!user` */
    function IsAuthenticated(): (b: bool)
      reads this
      ensures b <==> user.Some?
    {
      user.Some?
    }

    /** The mount effect: the session is whatever the current-user slot holds. */
    method LoadUser(store: DatabaseService.Store)
      modifies this
      ensures user == store.current && !isLoading
    {
      user := store.GetCurrentUser();
      isLoading := false;
    }

    /** `login`; `today` stands for the ISO date. */
    method Login(store: DatabaseService.Store, email: string, password: string, today: string) returns (ok: bool)
      modifies this, store
      ensures var r := Authenticate(old(store.users), email, password, today);
              && ok == r.Some?
              && (ok ==> user == r && store.current == r && IsAuthenticated())
              && (!ok ==> user == old(user) && store.current == old(store.current))
      ensures store.users == old(store.users) && !isLoading
    {
      isLoading := true;
      var users := store.GetUsers();
      var r := Authenticate(users, email, password, today);
      if r.Some? {
        user := r;
        store.SaveCurrentUser(r);
        ok := true;
      } else {
        ok := false;
      }
      isLoading := false;
    }

    /** `logout`: clears the session and the current-user slot, then goes to the login page. */
    method Logout(store: DatabaseService.Store) returns (nav: Route)
      modifies this, store
      ensures !IsAuthenticated() && store.current.None? && nav == ToLogin
      ensures store.users == old(store.users) && isLoading == old(isLoading)
    {
      store.SaveCurrentUser(None);
      user := None;
      nav := ToLogin;
    }
  }
}
