/**
 * The dashboard page: its load step makes sure the session's account is in
 * the table and has an account number, and `UpdateUserData` is the setter
 * the withdrawal and transfer forms call with a refreshed record.
 */
module Dashboard {
  import opened Wrappers
  import opened UserTypes
  import opened Navigation
  import JsText
  import DatabaseService

  /**
   * The `user` key as the dashboard reads it. Its writers store different
   * shapes (a mock session holds only an email and a role), so every other
   * field may be absent.
   */
  datatype SessionRecord = SessionRecord(
    id: Option<string>,
    email: string,
    accountNumber: Option<string>,
    password: Option<string>,
    balance: Option<int>,
    status: Option<AccountStatus>,
    role: Role,
    createdAt: Option<string>,
    transactions: Option<seq<Transaction>>)

  /** A generated account number, for `random` a value of `Math.random()`: "ACC" and nine digits. */
  function AccountNumberFor(random: real): (r: string)
    requires 0.0 <= random < 1.0
    ensures |r| == 12 && r[..3] == "ACC" && JsText.AllDigits(r[3..])
    ensures 100000000 <= JsText.DecimalValue(r[3..]) <= 999999999
  {
    var n: nat := (100000000.0 + random * 900000000.0).Floor;
    assert JsText.Pow10(8) == 100000000 && JsText.Pow10(9) == 1000000000;
    JsText.DecimalLength(n, 9);
    JsText.DecimalRoundTrip(n);
    assert ("ACC" + JsText.Decimal(n))[3..] == JsText.Decimal(n);
    "ACC" + JsText.Decimal(n)
  }

  /** `!currentUser.accountNumber`: absent or empty. */
  predicate NeedsAccountNumber(u: UserAccount): (b: bool)
    ensures b <==> !(u.accountNumber.Some? && |u.accountNumber.value| > 0)
  {
    u.accountNumber.None? || u.accountNumber.value == ""
  }

  /** The table the load step writes back: every record with that email becomes `u`. */
  function ReplaceByEmail(users: seq<UserAccount>, u: UserAccount): (r: seq<UserAccount>)
    ensures |r| == |users|
    ensures forall k :: 0 <= k < |users| && users[k].email == u.email ==> r[k] == u
    ensures forall k :: 0 <= k < |users| && users[k].email != u.email ==> r[k] == users[k]
  {
    seq(|users|, k requires 0 <= k < |users| => if users[k].email == u.email then u else users[k])
  }

  /** The record made for a session the table does not know, with the defaults of the load step. */
  function FromSession(s: SessionRecord, accountNumber: string): (u: UserAccount)
    ensures u.email == s.email && u.password == s.password && u.role == s.role
    ensures u.accountNumber == Some(accountNumber)
    ensures s.id.Some? ==> u.id == s.id.value
    ensures s.createdAt.Some? ==> u.createdAt == s.createdAt.value
    ensures u.balance == (if s.balance.Some? then s.balance.value else 0)
    ensures u.status == (if s.status.Some? then s.status.value else Active)
    ensures u.transactions.Some? && History(u) == (if s.transactions.Some? then s.transactions.value else [])
  {
    UserAccount(s.id.GetOr(""), s.email, Some(accountNumber), s.password, s.balance.GetOr(0),
                s.status.GetOr(Active), s.role, s.createdAt.GetOr(""), Some(s.transactions.GetOr([])))
  }

  /** The account shown, the table after the load step, and whether both keys were written. */
  datatype LoadResult = LoadResult(user: UserAccount, users: seq<UserAccount>, stores: bool)

  function Loaded(users: seq<UserAccount>, session: SessionRecord, random: real): (r: LoadResult)
    requires 0.0 <= random < 1.0
    ensures r.user.email == session.email && !NeedsAccountNumber(r.user)
    ensures r.user in r.users
    ensures !r.stores ==> r.users == users
  {
    match DatabaseService.UserByEmail(users, session.email)
    case Some(u) =>
      if NeedsAccountNumber(u) then
        var filled := u.(accountNumber := Some(AccountNumberFor(random)));
        LoadResult(filled, ReplaceByEmail(users, filled), true)
      else
        LoadResult(u, users, false)
    case None =>
      var created := FromSession(session, AccountNumberFor(random));
      LoadResult(created, users + [created], true)
  }

  /** A known account that already has a number is shown as it is, and nothing is written. */
  lemma LoadKeepsNumberedAccount(users: seq<UserAccount>, session: SessionRecord, random: real)
    requires 0.0 <= random < 1.0
    requires DatabaseService.UserByEmail(users, session.email).Some?
    requires !NeedsAccountNumber(DatabaseService.UserByEmail(users, session.email).value)
    ensures Loaded(users, session, random)
         == LoadResult(DatabaseService.UserByEmail(users, session.email).value, users, false)
  {
  }

  /** A known account without a number gets one; only the records with its email change. */
  lemma LoadFillsAccountNumber(users: seq<UserAccount>, session: SessionRecord, random: real)
    requires 0.0 <= random < 1.0
    requires DatabaseService.UserByEmail(users, session.email).Some?
    requires NeedsAccountNumber(DatabaseService.UserByEmail(users, session.email).value)
    ensures var u := DatabaseService.UserByEmail(users, session.email).value;
            var r := Loaded(users, session, random);
            && r.stores
            && r.user == u.(accountNumber := Some(AccountNumberFor(random)))
            && |r.users| == |users|
            && (forall k :: 0 <= k < |users| && users[k].email != session.email ==> r.users[k] == users[k])
            && (forall k :: 0 <= k < |users| && users[k].email == session.email ==> r.users[k] == r.user)
  {
  }

  /** An unknown session account is appended, with balance, status and history defaulted. */
  lemma LoadAppendsNewAccount(users: seq<UserAccount>, session: SessionRecord, random: real)
    requires 0.0 <= random < 1.0
    requires DatabaseService.UserByEmail(users, session.email).None?
    ensures var r := Loaded(users, session, random);
            && r.stores
            && r.users == users + [r.user]
            && r.user.accountNumber == Some(AccountNumberFor(random))
            && r.user.balance == session.balance.GetOr(0)
            && r.user.status == session.status.GetOr(Active)
            && r.user.role == session.role
            && r.user.transactions == Some(session.transactions.GetOr([]))
            && r.user.password == session.password
  {
  }

  class DashboardPage {
    var userData: Option<UserAccount>
    var isLoading: bool

    constructor ()
      ensures userData.None? && isLoading
    {
      userData := None;
      isLoading := true;
    }

    /** The load effect; `session` is the parsed `user` key, `random` a value of `Math.random()`. */
    method Load(store: DatabaseService.Store, session: Option<SessionRecord>, random: real)
      returns (nav: Option<Route>)
      requires 0.0 <= random < 1.0
      modifies this, store
      ensures session.None? ==> nav == Some(ToLogin) && userData == old(userData)
                                && isLoading == old(isLoading)
                                && store.users == old(store.users) && store.current == old(store.current)
      ensures session.Some? ==>
                var r := Loaded(old(store.users), session.value, random);
                && nav.None? && !isLoading && userData == Some(r.user) && store.users == r.users
                && store.current == (if r.stores then Some(r.user) else old(store.current))
    {
      if session.None? {
        return Some(ToLogin);
      }
      var users := store.GetUsers();
      var r := Loaded(users, session.value, random);
      if r.stores {
        store.SaveUsers(r.users);
        store.SaveCurrentUser(Some(r.user));
      }
      userData := Some(r.user);
      isLoading := false;
      nav := None;
    }

    /** `updateUserData`: shows the record, replaces it by id in the table, and makes it the session user. */
    method UpdateUserData(store: DatabaseService.Store, updated: UserAccount)
      modifies this, store
      ensures userData == Some(updated) && isLoading == old(isLoading)
      ensures store.users == DatabaseService.ReplaceById(old(store.users), updated)
      ensures store.current == Some(updated)
    {
      userData := Some(updated);
      var users := store.GetUsers();
      store.SaveUsers(DatabaseService.ReplaceById(users, updated));
      store.SaveCurrentUser(Some(updated));
    }
  }
}
