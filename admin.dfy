/**
 * The admin page: its access check, and the three edits it makes to its own
 * in-memory table of accounts (status toggle, add balance, create account).
 * This table is the page's mock data, separate from the account store.
 */
module Admin {
  import opened Wrappers
  import opened UserTypes
  import opened Navigation
  import DatabaseService

  /**
   * An id as `Number(u.id)` reads it. Every id the page holds is either the
   * decimal text of a natural number or the text "-Infinity" that
   * `(Math.max() + 1).toString()` produces for an empty table.
   */
  datatype AdminId = Numeric(n: nat) | MinusInfinity

  /** The page's own account shape: no account number, password or history. */
  datatype AdminUser = AdminUser(
    id: AdminId,
    email: string,
    balance: int,
    status: AccountStatus,
    role: Role,
    createdAt: string)

  /** The three accounts the page loads; balances in cents. */
  const MockUsers: seq<AdminUser> := [
    AdminUser(Numeric(1), "johndoe@example.com", 524050, Active, User, "2023-01-15"),
    AdminUser(Numeric(2), "janedoe@example.com", 1275075, Active, User, "2023-02-20"),
    AdminUser(Numeric(3), "mike@example.com", 84025, Frozen, User, "2023-03-10")
  ]

  /** The access check of the load effect; `sessionRole` is the role in the `user` key, `None` without one. */
  function AdminAccess(sessionRole: Option<Role>): (r: Option<Route>)
    ensures r == Some(ToLogin) <==> sessionRole.None?
    ensures r == Some(ToDashboard) <==> sessionRole == Some(Role.User)
    ensures r.None? <==> sessionRole == Some(Role.Admin)
  {
    match sessionRole
    case None => Some(ToLogin)
    case Some(role) => if role != Role.Admin then assert role == Role.User; Some(ToDashboard) else None
  }

  /** The other status: with two statuses, differing from `s` determines it. */
  function Toggled(s: AccountStatus): (r: AccountStatus)
    ensures r != s
  {
    if s == Active then Frozen else Active
  }

  /** The table `handleToggleAccountStatus` sets. */
  function ToggleStatus(users: seq<AdminUser>, id: AdminId): (r: seq<AdminUser>)
    ensures |r| == |users|
    ensures forall k :: 0 <= k < |users| && users[k].id == id ==>
      r[k] == users[k].(status := Toggled(users[k].status)) && r[k].status != users[k].status
    ensures forall k :: 0 <= k < |users| && users[k].id != id ==> r[k] == users[k]
  {
    seq(|users|, k requires 0 <= k < |users| =>
      if users[k].id == id then users[k].(status := Toggled(users[k].status)) else users[k])
  }

  /** Toggling the same account twice restores the table. */
  lemma ToggleTwice(users: seq<AdminUser>, id: AdminId)
    ensures ToggleStatus(ToggleStatus(users, id), id) == users
  {
    var r := ToggleStatus(ToggleStatus(users, id), id);
    assert forall k :: 0 <= k < |users| ==> r[k] == users[k];
  }

  /**
   * The amount check of `handleAddBalance`: `raw` is the field's text and
   * `parsed` is `Number(raw)` in cents, `None` for NaN.
   */
  predicate ValidAmount(raw: string, parsed: Option<int>): (b: bool)
    ensures b ==> |raw| > 0 && parsed.Some? && parsed.value >= 1
    ensures raw == "" || parsed.None? || parsed.value <= 0 ==> !b
  {
    raw != "" && parsed.Some? && parsed.value > 0
  }

  /** The table a valid `handleAddBalance` sets. */
  function AddBalance(users: seq<AdminUser>, id: AdminId, amount: int): (r: seq<AdminUser>)
    ensures |r| == |users|
    ensures forall k :: 0 <= k < |users| && users[k].id == id ==>
      r[k].balance == users[k].balance + amount && r[k].(balance := users[k].balance) == users[k]
    ensures forall k :: 0 <= k < |users| && users[k].id != id ==> r[k] == users[k]
  {
    seq(|users|, k requires 0 <= k < |users| =>
      if users[k].id == id then users[k].(balance := users[k].balance + amount) else users[k])
  }

  function AdminTotal(users: seq<AdminUser>): int
  {
    if users == [] then 0 else users[0].balance + AdminTotal(users[1..])
  }

  function AdminCount(users: seq<AdminUser>, id: AdminId): nat
  {
    if users == [] then 0 else (if users[0].id == id then 1 else 0) + AdminCount(users[1..], id)
  }

  /** Adding balance raises the page's total by the amount for each account with that id. */
  lemma {:induction false} AddBalanceTotal(users: seq<AdminUser>, id: AdminId, amount: int)
    ensures AdminTotal(AddBalance(users, id, amount)) == AdminTotal(users) + amount * AdminCount(users, id)
  {
    if users != [] {
      var r := AddBalance(users, id, amount);
      assert r[1..] == AddBalance(users[1..], id, amount);
      AddBalanceTotal(users[1..], id, amount);
      var c := AdminCount(users[1..], id);
      assert amount * (c + 1) == amount * c + amount;
    }
  }

  /** `Math.max` of two ids, where minus infinity is below every number. */
  function MaxOf(a: AdminId, b: AdminId): AdminId
  {
    match (a, b)
    case (MinusInfinity, _) => b
    case (_, MinusInfinity) => a
    case (Numeric(x), Numeric(y)) => if x >= y then a else b
  }

  /** `Math.max(...users.map(u => Number(u.id)))`; minus infinity for an empty table. */
  function MaxId(users: seq<AdminUser>): (m: AdminId)
    ensures m.Numeric? <==> exists k :: 0 <= k < |users| && users[k].id.Numeric?
    ensures m.Numeric? ==> exists k :: 0 <= k < |users| && users[k].id == m
  {
    if users == [] then MinusInfinity else MaxOf(users[0].id, MaxId(users[1..]))
  }

  /** `(max + 1)`: minus infinity plus one is still minus infinity. */
  function Succ(a: AdminId): AdminId
  {
    match a
    case MinusInfinity => MinusInfinity
    case Numeric(n) => Numeric(n + 1)
  }

  /** The id `handleCreateUser` gives the new account. */
  function NewId(users: seq<AdminUser>): (r: AdminId)
    ensures r.Numeric? <==> MaxId(users).Numeric?
    ensures r.Numeric? ==> r.n == MaxId(users).n + 1
  {
    Succ(MaxId(users))
  }

  lemma {:induction false} MaxIdBounds(users: seq<AdminUser>)
    ensures forall k :: 0 <= k < |users| && users[k].id.Numeric? ==>
      MaxId(users).Numeric? && users[k].id.n <= MaxId(users).n
  {
    if users != [] {
      MaxIdBounds(users[1..]);
      assert forall k :: 1 <= k < |users| ==> users[k] == users[1..][k - 1];
    }
  }

  /** When some id is a number, the new id is a number larger than every numeric id, and so unused. */
  lemma NewIdFresh(users: seq<AdminUser>)
    requires exists k :: 0 <= k < |users| && users[k].id.Numeric?
    ensures NewId(users).Numeric?
    ensures forall k :: 0 <= k < |users| ==> users[k].id != NewId(users)
    ensures forall k :: 0 <= k < |users| && users[k].id.Numeric? ==> users[k].id.n < NewId(users).n
  {
    MaxIdBounds(users);
  }

  /** The mock table's next id is 4. */
  lemma MockUsersNextId()
    ensures NewId(MockUsers) == Numeric(4)
  {
  }

  /** On an empty table the id is the text "-Infinity", and it stays so for every later account. */
  lemma NoNumericIdNoNumber(users: seq<AdminUser>)
    requires forall k :: 0 <= k < |users| ==> users[k].id == MinusInfinity
    ensures NewId(users) == MinusInfinity
    ensures NewId(users + [AdminUser(NewId(users), "", 0, Active, User, "")]) == MinusInfinity
  {
    var next := users + [AdminUser(NewId(users), "", 0, Active, User, "")];
    assert forall k :: 0 <= k < |next| ==> next[k].id == MinusInfinity;
  }

  /** The account `handleCreateUser` appends: balance 0, active, role user, created `today`. */
  function NewAccount(users: seq<AdminUser>, email: string, today: string): (u: AdminUser)
    ensures u.id == NewId(users) && u.email == email && u.balance == 0
    ensures u.status == Active && u.role == User && u.createdAt == today
  {
    AdminUser(NewId(users), email, 0, Active, User, today)
  }

  class AdminPage {
    var users: seq<AdminUser>
    var isLoading: bool
    var showCreateForm: bool
    /** The id whose add-balance form is open, if any. */
    var showAddBalanceForm: Option<AdminId>
    var newUserEmail: string
    var newUserPassword: string
    var balanceToAdd: string

    constructor ()
      ensures users == [] && isLoading && !showCreateForm && showAddBalanceForm.None?
      ensures newUserEmail == "" && newUserPassword == "" && balanceToAdd == ""
    {
      users := [];
      isLoading := true;
      showCreateForm := false;
      showAddBalanceForm := None;
      newUserEmail, newUserPassword, balanceToAdd := "", "", "";
    }

    /** The load effect, with the delayed mock fetch taken as done. */
    method Load(sessionRole: Option<Role>) returns (nav: Option<Route>)
      modifies this
      ensures nav == AdminAccess(sessionRole)
      ensures nav.Some? ==> users == old(users) && isLoading == old(isLoading)
      ensures nav.None? ==> users == MockUsers && !isLoading
      ensures showCreateForm == old(showCreateForm) && showAddBalanceForm == old(showAddBalanceForm)
      ensures newUserEmail == old(newUserEmail) && newUserPassword == old(newUserPassword)
      ensures balanceToAdd == old(balanceToAdd)
    {
      nav := AdminAccess(sessionRole);
      if nav.None? {
        users := MockUsers;
        isLoading := false;
      }
    }

    /** `handleLogout`: removes the `user` key and goes to the login page. */
    method Logout(store: DatabaseService.Store) returns (nav: Route)
      modifies store
      ensures store.current.None? && store.users == old(store.users) && nav == ToLogin
    {
      store.SaveCurrentUser(None);
      nav := ToLogin;
    }

    method ToggleAccountStatus(userId: AdminId)
      modifies this
      ensures users == ToggleStatus(old(users), userId)
      ensures isLoading == old(isLoading) && showCreateForm == old(showCreateForm)
      ensures showAddBalanceForm == old(showAddBalanceForm) && balanceToAdd == old(balanceToAdd)
      ensures newUserEmail == old(newUserEmail) && newUserPassword == old(newUserPassword)
    {
      users := ToggleStatus(users, userId);
    }

    /** `handleAddBalance`; `parsed` is `Number(balanceToAdd)` in cents, `None` for NaN. */
    method HandleAddBalance(userId: AdminId, parsed: Option<int>) returns (accepted: bool)
      modifies this
      ensures accepted <==> ValidAmount(old(balanceToAdd), parsed)
      ensures !accepted ==> users == old(users) && showAddBalanceForm == old(showAddBalanceForm)
                            && balanceToAdd == old(balanceToAdd)
      ensures accepted ==> users == AddBalance(old(users), userId, parsed.value)
                           && showAddBalanceForm.None? && balanceToAdd == ""
      ensures isLoading == old(isLoading) && showCreateForm == old(showCreateForm)
      ensures newUserEmail == old(newUserEmail) && newUserPassword == old(newUserPassword)
    {
      if !ValidAmount(balanceToAdd, parsed) {
        return false;
      }
      users := AddBalance(users, userId, parsed.value);
      showAddBalanceForm := None;
      balanceToAdd := "";
      accepted := true;
    }

    /** `handleCreateUser`; `today` stands for the ISO date. */
    method HandleCreateUser(today: string) returns (accepted: bool)
      modifies this
      ensures accepted <==> CredentialsGiven(old(newUserEmail), old(newUserPassword))
      ensures !accepted ==> users == old(users) && newUserEmail == old(newUserEmail)
                            && newUserPassword == old(newUserPassword) && showCreateForm == old(showCreateForm)
      ensures accepted ==> users == old(users) + [NewAccount(old(users), old(newUserEmail), today)]
                           && newUserEmail == "" && newUserPassword == "" && !showCreateForm
      ensures isLoading == old(isLoading) && showAddBalanceForm == old(showAddBalanceForm)
      ensures balanceToAdd == old(balanceToAdd)
    {
      if !CredentialsGiven(newUserEmail, newUserPassword) {
        return false;
      }
      users := users + [NewAccount(users, newUserEmail, today)];
      newUserEmail, newUserPassword := "", "";
      showCreateForm := false;
      accepted := true;
    }
  }
}
