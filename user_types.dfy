/**
 * The record shapes of the account table: an account and the transactions
 * in its history. Money is held in integer cents.
 */
module UserTypes {
  import opened Wrappers

  /** The two account states; the stored JSON spells them "active" and "frozen". */
  datatype AccountStatus = Active | Frozen

  /** The two roles; stored as "user" and "admin". */
  datatype Role = User | Admin

  /** The three transaction kinds; stored as "deposit", "withdrawal" and "transfer". */
  datatype TransactionType = Deposit | Withdrawal | Transfer

  /** One history entry. `recipientAccount` and `description` are optional. */
  datatype Transaction = Transaction(
    id: string,
    kind: TransactionType,
    amount: int,
    recipientAccount: Option<string>,
    date: string,
    description: Option<string>)

  /** One account. `accountNumber`, `password` and `transactions` are optional. */
  datatype UserAccount = UserAccount(
    id: string,
    email: string,
    accountNumber: Option<string>,
    password: Option<string>,
    balance: int,
    status: AccountStatus,
    role: Role,
    createdAt: string,
    transactions: Option<seq<Transaction>>)

  /** The history of an account, an absent list read as empty (`user.transactions || []`). */
  function History(u: UserAccount): (h: seq<Transaction>)
    ensures u.transactions.Some? ==> h == u.transactions.value
    ensures u.transactions.None? ==> h == []
  {
    u.transactions.GetOr([])
  }

  /** `email && password`: both credential fields filled in, as the login and create-user forms require. */
  predicate CredentialsGiven(email: string, password: string)
  {
    email != "" && password != ""
  }

  /** The demo's hard-coded administrator credentials, checked before any stored account. */
  const AdminEmail: string := "admin@bank.com"
  const AdminPassword: string := "admin123"
}
