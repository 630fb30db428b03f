/**
 * The account store: the `users` table and the current-user slot, both kept
 * in browser storage, with lookup, create, replace, delete, add-transaction
 * and transfer. The pure functions give each operation's new table; the
 * class `Store` holds the two storage keys and its methods update them the
 * way the service's static methods do.
 */
module DatabaseService {
  import opened Wrappers
  import opened UserTypes
  import opened Seqs
  import JsText

  // ----- lookups -----

  function IdIs(id: string): UserAccount -> bool
  {
    (u: UserAccount) => u.id == id
  }

  function EmailIs(email: string): UserAccount -> bool
  {
    (u: UserAccount) => u.email == email
  }

  /** `u.accountNumber === n`: an absent account number matches nothing. */
  function AccountNumberIs(n: string): UserAccount -> bool
  {
    (u: UserAccount) => u.accountNumber == Some(n)
  }

  /** Position of the first record with this id. */
  function IndexById(users: seq<UserAccount>, id: string): (r: Option<nat>)
    ensures r.Some? ==> r.value < |users| && users[r.value].id == id
    ensures r.Some? ==> forall j :: 0 <= j < r.value ==> users[j].id != id
    ensures r.None? <==> forall j :: 0 <= j < |users| ==> users[j].id != id
  {
    FindIndex(users, IdIs(id))
  }

  /** Position of the first record with this account number. */
  function IndexByAccountNumber(users: seq<UserAccount>, n: string): (r: Option<nat>)
    ensures r.Some? ==> r.value < |users| && users[r.value].accountNumber == Some(n)
    ensures r.Some? ==> forall j :: 0 <= j < r.value ==> users[j].accountNumber != Some(n)
    ensures r.None? <==> forall j :: 0 <= j < |users| ==> users[j].accountNumber != Some(n)
  {
    FindIndex(users, AccountNumberIs(n))
  }

  /** `getUserById`: the first record whose id matches, or `None`. */
  function UserById(users: seq<UserAccount>, id: string): (r: Option<UserAccount>)
    ensures r.None? <==> forall j :: 0 <= j < |users| ==> users[j].id != id
    ensures r.Some? ==> r.value.id == id && r.value == users[IndexById(users, id).value]
  {
    match IndexById(users, id)
    case None => None
    case Some(i) => Some(users[i])
  }

  /** `getUserByEmail`: the first record whose email matches, or `None`. */
  function UserByEmail(users: seq<UserAccount>, email: string): (r: Option<UserAccount>)
    ensures r.None? <==> forall j :: 0 <= j < |users| ==> users[j].email != email
    ensures r.Some? ==> r.value.email == email
    ensures r.Some? ==> exists i :: 0 <= i < |users| && users[i] == r.value
                                    && forall j :: 0 <= j < i ==> users[j].email != email
  {
    match FindIndex(users, EmailIs(email))
    case None => None
    case Some(i) => Some(users[i])
  }

  // ----- replace and delete -----

  /** The table `updateUser` writes: every record with the updated id becomes the update. */
  function ReplaceById(users: seq<UserAccount>, updated: UserAccount): (r: seq<UserAccount>)
    ensures |r| == |users|
    ensures forall k :: 0 <= k < |users| && users[k].id == updated.id ==> r[k] == updated
    ensures forall k :: 0 <= k < |users| && users[k].id != updated.id ==> r[k] == users[k]
  {
    seq(|users|, k requires 0 <= k < |users| => if users[k].id == updated.id then updated else users[k])
  }

  /** The current-user slot after an update: replaced only when it holds the same id. */
  function Refreshed(current: Option<UserAccount>, updated: UserAccount): (r: Option<UserAccount>)
    ensures r.Some? <==> current.Some?
    ensures current.Some? && current.value.id == updated.id ==> r == Some(updated)
    ensures current.None? || current.value.id != updated.id ==> r == current
  {
    if current.Some? && current.value.id == updated.id then Some(updated) else current
  }

  /** After an update, looking up its id finds the update, if any record had that id. */
  lemma LookupAfterReplace(users: seq<UserAccount>, updated: UserAccount)
    ensures UserById(users, updated.id).Some? ==> UserById(ReplaceById(users, updated), updated.id) == Some(updated)
    ensures UserById(users, updated.id).None? ==> ReplaceById(users, updated) == users
  {
    var r := ReplaceById(users, updated);
    FindIndexSamePattern(users, r, IdIs(updated.id));
  }

  /** An update leaves every lookup of another id where it was. */
  lemma LookupOtherAfterReplace(users: seq<UserAccount>, updated: UserAccount, id: string)
    requires id != updated.id
    ensures UserById(ReplaceById(users, updated), id) == UserById(users, id)
  {
    FindIndexSamePattern(users, ReplaceById(users, updated), IdIs(id));
  }

  /** Writing the same update twice is writing it once. */
  lemma ReplaceByIdIdempotent(users: seq<UserAccount>, updated: UserAccount)
    ensures ReplaceById(ReplaceById(users, updated), updated) == ReplaceById(users, updated)
  {
  }

  lemma {:induction false} FindIndexSamePattern<T>(s: seq<T>, t: seq<T>, p: T -> bool)
    requires |s| == |t|
    requires forall k :: 0 <= k < |s| ==> p(s[k]) == p(t[k])
    ensures FindIndex(s, p) == FindIndex(t, p)
  {
    if s != [] && !p(s[0]) {
      FindIndexSamePattern(s[1..], t[1..], p);
    }
  }

  /** How many records carry this id. */
  function CountId(users: seq<UserAccount>, id: string): nat
  {
    if users == [] then 0 else (if users[0].id == id then 1 else 0) + CountId(users[1..], id)
  }

  /** The table `deleteUser` writes: `users.filter(user => user.id !== userId)`. */
  function WithoutId(users: seq<UserAccount>, id: string): (r: seq<UserAccount>)
    ensures forall u :: u in r <==> u in users && u.id != id
  {
    if users == [] then []
    else (if users[0].id == id then [] else [users[0]]) + WithoutId(users[1..], id)
  }

  /** Deleting removes exactly the records with that id. */
  lemma {:induction false} WithoutIdLength(users: seq<UserAccount>, id: string)
    ensures |WithoutId(users, id)| == |users| - CountId(users, id)
  {
    if users != [] {
      WithoutIdLength(users[1..], id);
    }
  }

  lemma {:induction false} CountIdZero(users: seq<UserAccount>, id: string)
    ensures CountId(users, id) == 0 <==> forall j :: 0 <= j < |users| ==> users[j].id != id
  {
    if users != [] {
      CountIdZero(users[1..], id);
      assert forall j :: 1 <= j < |users| ==> users[j] == users[1..][j - 1];
    }
  }

  /** `deleteUser` reports a removal exactly when some record had the id. */
  lemma DeleteReportsRemoval(users: seq<UserAccount>, id: string)
    ensures |WithoutId(users, id)| != |users| <==> exists j :: 0 <= j < |users| && users[j].id == id
  {
    WithoutIdLength(users, id);
    CountIdZero(users, id);
  }

  /** Deleting keeps the survivors in their order: it distributes over concatenation. */
  lemma {:induction false} WithoutIdConcat(a: seq<UserAccount>, b: seq<UserAccount>, id: string)
    ensures WithoutId(a + b, id) == WithoutId(a, id) + WithoutId(b, id)
  {
    if a != [] {
      assert (a + b)[1..] == a[1..] + b;
      WithoutIdConcat(a[1..], b, id);
    } else {
      assert a + b == b;
    }
  }

  /** Deleting an id no record has changes nothing. */
  lemma {:induction false} WithoutAbsentId(users: seq<UserAccount>, id: string)
    requires forall j :: 0 <= j < |users| ==> users[j].id != id
    ensures WithoutId(users, id) == users
  {
    if users != [] {
      WithoutAbsentId(users[1..], id);
    }
  }

  // ----- transactions -----

  /** The signed effect of a transaction on a balance: plus for a deposit, minus otherwise. */
  function SignedAmount(tx: Transaction): (d: int)
    ensures tx.kind == Deposit ==> d == tx.amount
    ensures tx.kind != Deposit ==> d == -tx.amount
  {
    if tx.kind == Deposit then tx.amount else -tx.amount
  }

  /** The record `addTransaction` writes: history extended, balance moved by the type. */
  function WithTransaction(u: UserAccount, tx: Transaction): (r: UserAccount)
    ensures tx.kind == Deposit ==> r.balance == u.balance + tx.amount
    ensures tx.kind != Deposit ==> r.balance == u.balance - tx.amount
    ensures History(r) == History(u) + [tx]
    ensures r.(balance := u.balance, transactions := u.transactions) == u
    ensures r.balance == u.balance + SignedAmount(tx)
  {
    u.(transactions := Some(History(u) + [tx]),
       balance := if tx.kind == Deposit then u.balance + tx.amount else u.balance - tx.amount)
  }

  /** The sum of the signed amounts of a history. */
  function Net(h: seq<Transaction>): int
  {
    if h == [] then 0 else Net(h[..|h| - 1]) + SignedAmount(h[|h| - 1])
  }

  /** A balance that agrees with its history, from some opening amount. */
  predicate Consistent(u: UserAccount, opening: int)
  {
    u.balance == opening + Net(History(u))
  }

  /** `addTransaction` keeps a balance in agreement with its history. */
  lemma WithTransactionConsistent(u: UserAccount, tx: Transaction, opening: int)
    requires Consistent(u, opening)
    ensures Consistent(WithTransaction(u, tx), opening)
  {
    var h := History(u) + [tx];
    assert h[..|h| - 1] == History(u);
  }

  // ----- transfer -----

  /** `sender.accountNumber || 'Unknown'` */
  function SenderLabel(sender: UserAccount): (s: string)
    ensures s != ""
    ensures sender.accountNumber.Some? && sender.accountNumber.value != "" ==> s == sender.accountNumber.value
    ensures sender.accountNumber.None? || sender.accountNumber.value == "" ==> s == "Unknown"
  {
    if sender.accountNumber.None? || sender.accountNumber.value == "" then "Unknown"
    else sender.accountNumber.value
  }

  /**
   * The four clock readings `transferFunds` takes: `Date.now()` and the ISO
   * date for the sender's entry, then both again for the recipient's.
   */
  datatype Clock = Clock(senderNow: nat, senderDate: string, recipientNow: nat, recipientDate: string)

  /** The `transfer` entry appended to the sender; an empty description gets the default text. */
  function SenderTransaction(recipientAccount: string, amount: int, description: string,
                             clock: Clock): (tx: Transaction)
    ensures tx.id == JsText.Decimal(clock.senderNow) && tx.kind == Transfer && tx.amount == amount
    ensures tx.recipientAccount == Some(recipientAccount) && tx.date == clock.senderDate
    ensures description == "" ==> tx.description == Some("Transfer to account " + recipientAccount)
    ensures description != "" ==> tx.description == Some(description)
  {
    Transaction(JsText.Decimal(clock.senderNow), Transfer, amount, Some(recipientAccount), clock.senderDate,
                Some(if description == "" then "Transfer to account " + recipientAccount else description))
  }

  /** The `deposit` entry appended to the recipient, one millisecond after its own clock reading. */
  function RecipientTransaction(sender: UserAccount, amount: int, clock: Clock): (tx: Transaction)
    ensures tx.id == JsText.Decimal(clock.recipientNow + 1) && tx.kind == Deposit && tx.amount == amount
    ensures tx.recipientAccount.None? && tx.date == clock.recipientDate
    ensures tx.description == Some("Transfer from account " + SenderLabel(sender))
  {
    Transaction(JsText.Decimal(clock.recipientNow + 1), Deposit, amount, None, clock.recipientDate,
                Some("Transfer from account " + SenderLabel(sender)))
  }

  /** With a clock that does not run backwards, the two entries of one transfer never share an id. */
  lemma TransferTransactionIdsDiffer(sender: UserAccount, recipientAccount: string, amount: int,
                                     description: string, clock: Clock)
    requires clock.senderNow <= clock.recipientNow
    ensures SenderTransaction(recipientAccount, amount, description, clock).id
         != RecipientTransaction(sender, amount, clock).id
  {
    var a, b := JsText.Decimal(clock.senderNow), JsText.Decimal(clock.recipientNow + 1);
    JsText.DecimalRoundTrip(clock.senderNow);
    JsText.DecimalRoundTrip(clock.recipientNow + 1);
    assert JsText.DecimalValue(a) != JsText.DecimalValue(b);
    assert SenderTransaction(recipientAccount, amount, description, clock).id == a;
    assert RecipientTransaction(sender, amount, clock).id == b;
  }

  /** A clock that steps back by one millisecond between the two readings gives both entries the same id. */
  lemma ClockStepBackSharesId(sender: UserAccount, recipientAccount: string, amount: int,
                              description: string, clock: Clock)
    requires clock.senderNow == clock.recipientNow + 1
    ensures SenderTransaction(recipientAccount, amount, description, clock).id
         == RecipientTransaction(sender, amount, clock).id
  {
  }

  /** `updatedSender`: the balance lowered by the amount, the entry appended, every other field kept. */
  function Debited(u: UserAccount, amount: int, tx: Transaction): (r: UserAccount)
    ensures r.balance == u.balance - amount && History(r) == History(u) + [tx]
    ensures r.(balance := u.balance, transactions := u.transactions) == u
  {
    u.(balance := u.balance - amount, transactions := Some(History(u) + [tx]))
  }

  /** `updatedRecipient`: the balance raised by the amount, the entry appended, every other field kept. */
  function Credited(u: UserAccount, amount: int, tx: Transaction): (r: UserAccount)
    ensures r.balance == u.balance + amount && History(r) == History(u) + [tx]
    ensures r.(balance := u.balance, transactions := u.transactions) == u
  {
    u.(balance := u.balance + amount, transactions := Some(History(u) + [tx]))
  }

  /** One record of the transfer's `map`: the sender test comes first. */
  function TransferPick(u: UserAccount, senderId: string, recipientId: string,
                        updatedSender: UserAccount, updatedRecipient: UserAccount): (r: UserAccount)
    ensures u.id == senderId ==> r == updatedSender
    ensures u.id != senderId && u.id == recipientId ==> r == updatedRecipient
    ensures u.id != senderId && u.id != recipientId ==> r == u
  {
    if u.id == senderId then updatedSender
    else if u.id == recipientId then updatedRecipient
    else u
  }

  /** The table the transfer writes. */
  function ApplyTransfer(users: seq<UserAccount>, senderId: string, recipientId: string,
                         updatedSender: UserAccount, updatedRecipient: UserAccount): (r: seq<UserAccount>)
    ensures |r| == |users|
    ensures forall k :: 0 <= k < |users| ==>
      r[k] == TransferPick(users[k], senderId, recipientId, updatedSender, updatedRecipient)
  {
    if users == [] then []
    else [TransferPick(users[0], senderId, recipientId, updatedSender, updatedRecipient)]
         + ApplyTransfer(users[1..], senderId, recipientId, updatedSender, updatedRecipient)
  }

  /** A successful transfer: the updated sender (also written to the current-user slot) and the new table. */
  datatype TransferPlan = TransferPlan(sender: UserAccount, users: seq<UserAccount>)

  /** What `transferFunds` writes, or `None` when it returns false and writes nothing. */
  function PlanTransfer(users: seq<UserAccount>, senderId: string, recipientAccount: string,
                        amount: int, description: string, clock: Clock): (r: Option<TransferPlan>)
    ensures r.None? <==> IndexById(users, senderId).None? || IndexByAccountNumber(users, recipientAccount).None?
  {
    match IndexById(users, senderId)
    case None => None
    case Some(si) =>
      match IndexByAccountNumber(users, recipientAccount)
      case None => None
      case Some(ri) =>
        var sender := users[si];
        var recipient := users[ri];
        var us := Debited(sender, amount, SenderTransaction(recipientAccount, amount, description, clock));
        var ur := Credited(recipient, amount, RecipientTransaction(sender, amount, clock));
        Some(TransferPlan(us, ApplyTransfer(users, sender.id, recipient.id, us, ur)))
  }

  /** A debit by a non-deposit entry's amount is that entry's `addTransaction` record. */
  lemma DebitIsTransaction(u: UserAccount, tx: Transaction)
    requires tx.kind != Deposit
    ensures Debited(u, tx.amount, tx) == WithTransaction(u, tx)
  {
  }

  /** A credit by a deposit's amount is that deposit's `addTransaction` record. */
  lemma CreditIsTransaction(u: UserAccount, tx: Transaction)
    requires tx.kind == Deposit
    ensures Credited(u, tx.amount, tx) == WithTransaction(u, tx)
  {
  }

  /**
   * The sender's side of a transfer is the record `addTransaction` would
   * write for its entry, so a transfer keeps the sender's balance in
   * agreement with its history (the recipient's side is `CreditIsTransaction`).
   */
  lemma TransferKeepsSenderConsistent(users: seq<UserAccount>, senderId: string, recipientAccount: string,
                                      amount: int, description: string, clock: Clock, opening: int)
    requires PlanTransfer(users, senderId, recipientAccount, amount, description, clock).Some?
    requires Consistent(users[IndexById(users, senderId).value], opening)
    ensures Consistent(PlanTransfer(users, senderId, recipientAccount, amount, description, clock).value.sender, opening)
  {
    var sender := users[IndexById(users, senderId).value];
    var tx := SenderTransaction(recipientAccount, amount, description, clock);
    DebitIsTransaction(sender, tx);
    WithTransactionConsistent(sender, tx, opening);
  }

  /** The sender loses `amount` and gains one `transfer` entry naming the recipient account. */
  lemma TransferDebitsSender(users: seq<UserAccount>, senderId: string, recipientAccount: string,
                             amount: int, description: string, clock: Clock)
    requires PlanTransfer(users, senderId, recipientAccount, amount, description, clock).Some?
    ensures var plan := PlanTransfer(users, senderId, recipientAccount, amount, description, clock).value;
            var sender := users[IndexById(users, senderId).value];
            && plan.sender.id == senderId
            && plan.sender.balance == sender.balance - amount
            && |History(plan.sender)| == |History(sender)| + 1
            && History(plan.sender)[..|History(sender)|] == History(sender)
            && var tx := History(plan.sender)[|History(sender)|];
               tx.kind == Transfer && tx.amount == amount && tx.recipientAccount == Some(recipientAccount)
    ensures var plan := PlanTransfer(users, senderId, recipientAccount, amount, description, clock).value;
            forall k :: 0 <= k < |users| && users[k].id == senderId ==> plan.users[k] == plan.sender
  {
  }

  /** The recipient record gains `amount` and one `deposit` entry, unless it is the sender. */
  lemma TransferCreditsRecipient(users: seq<UserAccount>, senderId: string, recipientAccount: string,
                                 amount: int, description: string, clock: Clock, k: nat)
    requires PlanTransfer(users, senderId, recipientAccount, amount, description, clock).Some?
    requires k < |users|
    requires users[k].id == users[IndexByAccountNumber(users, recipientAccount).value].id != senderId
    ensures var plan := PlanTransfer(users, senderId, recipientAccount, amount, description, clock).value;
            var recipient := users[IndexByAccountNumber(users, recipientAccount).value];
            && plan.users[k].id == recipient.id
            && plan.users[k].balance == recipient.balance + amount
            && History(plan.users[k]) == History(recipient) + [RecipientTransaction(users[IndexById(users, senderId).value], amount, clock)]
            && History(plan.users[k])[|History(recipient)|].kind == Deposit
  {
  }

  /** Records that are neither the sender nor the recipient are written back unchanged. */
  lemma TransferLeavesOthers(users: seq<UserAccount>, senderId: string, recipientAccount: string,
                             amount: int, description: string, clock: Clock, k: nat)
    requires PlanTransfer(users, senderId, recipientAccount, amount, description, clock).Some?
    requires k < |users| && users[k].id != senderId
    requires users[k].id != users[IndexByAccountNumber(users, recipientAccount).value].id
    ensures PlanTransfer(users, senderId, recipientAccount, amount, description, clock).value.users[k] == users[k]
  {
  }

  /** Transferring to one's own record stores only the sender update. */
  lemma SelfTransferStoresSenderOnly(users: seq<UserAccount>, senderId: string, recipientAccount: string,
                                     amount: int, description: string, clock: Clock)
    requires PlanTransfer(users, senderId, recipientAccount, amount, description, clock).Some?
    requires users[IndexByAccountNumber(users, recipientAccount).value].id == senderId
    ensures var plan := PlanTransfer(users, senderId, recipientAccount, amount, description, clock).value;
            plan.users == ReplaceById(users, plan.sender)
  {
  }

  // ----- balance totals -----

  function TotalBalance(users: seq<UserAccount>): int
  {
    if users == [] then 0 else users[0].balance + TotalBalance(users[1..])
  }

  predicate UniqueIds(users: seq<UserAccount>)
  {
    forall a, b :: 0 <= a < b < |users| ==> users[a].id != users[b].id
  }

  lemma {:induction false} CountUniqueId(users: seq<UserAccount>, i: nat)
    requires UniqueIds(users) && i < |users|
    ensures CountId(users, users[i].id) == 1
  {
    var tail := users[1..];
    if i == 0 {
      assert forall j :: 0 <= j < |tail| ==> tail[j].id != users[0].id by {
        forall j | 0 <= j < |tail| ensures tail[j].id != users[0].id {
          assert tail[j] == users[j + 1];
        }
      }
      CountIdZero(tail, users[0].id);
    } else {
      assert users[i] == tail[i - 1];
      CountUniqueId(tail, i - 1);
    }
  }

  /**
   * How the transfer's `map` moves the total: each record with the sender id
   * loses `amount`, each record with a distinct recipient id gains it.
   */
  lemma {:induction false} TotalAfterTransfer(users: seq<UserAccount>, senderId: string, recipientId: string,
                                              us: UserAccount, ur: UserAccount, amount: int)
    requires forall k :: 0 <= k < |users| && users[k].id == senderId ==> us.balance == users[k].balance - amount
    requires recipientId != senderId ==>
      forall k :: 0 <= k < |users| && users[k].id == recipientId ==> ur.balance == users[k].balance + amount
    ensures TotalBalance(ApplyTransfer(users, senderId, recipientId, us, ur))
         == TotalBalance(users) - amount * CountId(users, senderId)
            + (if recipientId == senderId then 0 else amount * CountId(users, recipientId))
  {
    if users != [] {
      var tail := users[1..];
      assert forall k :: 0 <= k < |tail| ==> tail[k] == users[k + 1];
      TotalAfterTransfer(tail, senderId, recipientId, us, ur, amount);
      var r := ApplyTransfer(users, senderId, recipientId, us, ur);
      assert r[1..] == ApplyTransfer(tail, senderId, recipientId, us, ur);
      var cs, cr := CountId(tail, senderId), CountId(tail, recipientId);
      assert amount * (cs + 1) == amount * cs + amount;
      assert amount * (cr + 1) == amount * cr + amount;
    }
  }

  /** Between two different records, with unique ids, a transfer conserves the total balance. */
  lemma TransferConservesTotal(users: seq<UserAccount>, senderId: string, recipientAccount: string,
                               amount: int, description: string, clock: Clock)
    requires UniqueIds(users)
    requires PlanTransfer(users, senderId, recipientAccount, amount, description, clock).Some?
    requires users[IndexByAccountNumber(users, recipientAccount).value].id != senderId
    ensures TotalBalance(PlanTransfer(users, senderId, recipientAccount, amount, description, clock).value.users)
         == TotalBalance(users)
  {
    var si, ri := IndexById(users, senderId).value, IndexByAccountNumber(users, recipientAccount).value;
    var plan := PlanTransfer(users, senderId, recipientAccount, amount, description, clock).value;
    var ur := Credited(users[ri], amount, RecipientTransaction(users[si], amount, clock));
    TotalAfterTransfer(users, senderId, users[ri].id, plan.sender, ur, amount);
    CountUniqueId(users, si);
    CountUniqueId(users, ri);
  }

  /** With unique ids, a transfer to one's own record destroys `amount`: the credit is never stored. */
  lemma SelfTransferLosesAmount(users: seq<UserAccount>, senderId: string, recipientAccount: string,
                                amount: int, description: string, clock: Clock)
    requires UniqueIds(users)
    requires PlanTransfer(users, senderId, recipientAccount, amount, description, clock).Some?
    requires users[IndexByAccountNumber(users, recipientAccount).value].id == senderId
    ensures TotalBalance(PlanTransfer(users, senderId, recipientAccount, amount, description, clock).value.users)
         == TotalBalance(users) - amount
  {
    var si, ri := IndexById(users, senderId).value, IndexByAccountNumber(users, recipientAccount).value;
    var plan := PlanTransfer(users, senderId, recipientAccount, amount, description, clock).value;
    var ur := Credited(users[ri], amount, RecipientTransaction(users[si], amount, clock));
    TotalAfterTransfer(users, senderId, senderId, plan.sender, ur, amount);
    CountUniqueId(users, si);
  }

  /** An account with the given id, account number and balance, and an empty history. */
  function Holder(id: string, accountNumber: string, balance: int): (u: UserAccount)
    ensures u.id == id && u.accountNumber == Some(accountNumber) && u.balance == balance && History(u) == []
  {
    UserAccount(id, accountNumber + "@bank.test", Some(accountNumber), None, balance, Active, User, "", None)
  }

  /**
   * Nothing keeps ids unique: `createUser` does not check them, and the
   * dashboard gives an account made from a session without an id the empty
   * id. With two such accounts, a transfer from the second debits the first
   * and writes the first over both, so 10 sent raises the total by 40.
   */
  lemma SharedIdTransferRaisesTotal(clock: Clock)
    ensures var users := [Holder("", "ACC1", 100), Holder("", "ACC2", 50), Holder("3", "ACC3", 0)];
            var plan := PlanTransfer(users, "", "ACC3", 10, "", clock);
            && !UniqueIds(users)
            && plan.Some?
            && plan.value.sender.accountNumber == Some("ACC1")
            && plan.value.users[0] == plan.value.users[1] == plan.value.sender
            && TotalBalance(plan.value.users) == TotalBalance(users) + 40
  {
    var users := [Holder("", "ACC1", 100), Holder("", "ACC2", 50), Holder("3", "ACC3", 0)];
    assert IndexById(users, "") == Some(0);
    assert users[0].accountNumber != Some("ACC3") && users[1].accountNumber != Some("ACC3");
    assert IndexByAccountNumber(users, "ACC3") == Some(2);
    var plan := PlanTransfer(users, "", "ACC3", 10, "", clock).value;
    assert plan.users[2].balance == 10;
    TotalOfThree(plan.users);
    TotalOfThree(users);
  }

  lemma TotalOfThree(t: seq<UserAccount>)
    requires |t| == 3
    ensures TotalBalance(t) == t[0].balance + t[1].balance + t[2].balance
  {
    assert t[1..][1..] == t[2..] && t[2..][1..] == [];
    assert TotalBalance(t[2..]) == t[2].balance;
    assert TotalBalance(t[1..]) == t[1].balance + TotalBalance(t[2..]);
  }

  /** After a transfer, looking up the sender finds the updated sender. */
  lemma LookupSenderAfterTransfer(users: seq<UserAccount>, senderId: string, recipientAccount: string,
                                  amount: int, description: string, clock: Clock)
    requires PlanTransfer(users, senderId, recipientAccount, amount, description, clock).Some?
    ensures var plan := PlanTransfer(users, senderId, recipientAccount, amount, description, clock).value;
            UserById(plan.users, senderId) == Some(plan.sender)
            && ReplaceById(plan.users, plan.sender) == plan.users
  {
    var plan := PlanTransfer(users, senderId, recipientAccount, amount, description, clock).value;
    FindIndexSamePattern(users, plan.users, IdIs(senderId));
  }

  /** Both storage keys: the `users` table and the current-user slot (`user`). */
  class Store {
    var users: seq<UserAccount>
    var current: Option<UserAccount>

    constructor (initialUsers: seq<UserAccount>, initialCurrent: Option<UserAccount>)
      ensures users == initialUsers && current == initialCurrent
    {
      users := initialUsers;
      current := initialCurrent;
    }

    /** `getUsers`: the stored table. */
    method GetUsers() returns (r: seq<UserAccount>)
      ensures r == users
    {
      r := users;
    }

    method SaveUsers(newUsers: seq<UserAccount>)
      modifies this
      ensures users == newUsers && current == old(current)
    {
      users := newUsers;
    }

    method GetCurrentUser() returns (r: Option<UserAccount>)
      ensures r == current
    {
      r := current;
    }

    /** `saveCurrentUser`: stores the record, or removes the key for `null`. */
    method SaveCurrentUser(u: Option<UserAccount>)
      modifies this
      ensures current == u && users == old(users)
    {
      current := u;
    }

    method GetUserByEmail(email: string) returns (r: Option<UserAccount>)
      ensures r.None? <==> forall j :: 0 <= j < |users| ==> users[j].email != email
      ensures r == UserByEmail(users, email)
    {
      var all := GetUsers();
      r := UserByEmail(all, email);
    }

    method GetUserById(id: string) returns (r: Option<UserAccount>)
      ensures r.None? <==> forall j :: 0 <= j < |users| ==> users[j].id != id
      ensures r == UserById(users, id)
    {
      var all := GetUsers();
      r := UserById(all, id);
    }

    /** `createUser`: appends the record, with no check for a duplicate id or email. */
    method CreateUser(u: UserAccount) returns (r: UserAccount)
      modifies this
      ensures users == old(users) + [u] && current == old(current) && r == u
    {
      var all := GetUsers();
      SaveUsers(all + [u]);
      r := u;
    }

    method UpdateUser(updated: UserAccount) returns (r: UserAccount)
      modifies this
      ensures users == ReplaceById(old(users), updated)
      ensures current == Refreshed(old(current), updated)
      ensures r == updated
    {
      var all := GetUsers();
      SaveUsers(ReplaceById(all, updated));
      var cur := GetCurrentUser();
      if cur.Some? && cur.value.id == updated.id {
        SaveCurrentUser(Some(updated));
      }
      r := updated;
    }

    method DeleteUser(id: string) returns (removed: bool)
      modifies this
      ensures users == WithoutId(old(users), id) && current == old(current)
      ensures removed <==> exists j :: 0 <= j < |old(users)| && old(users)[j].id == id
    {
      var all := GetUsers();
      var kept := WithoutId(all, id);
      SaveUsers(kept);
      DeleteReportsRemoval(all, id);
      removed := |all| != |kept|;
    }

    method AddTransaction(userId: string, tx: Transaction) returns (ok: bool)
      modifies this
      ensures ok <==> UserById(old(users), userId).Some?
      ensures !ok ==> users == old(users) && current == old(current)
      ensures ok ==> var updated := WithTransaction(UserById(old(users), userId).value, tx);
                     users == ReplaceById(old(users), updated) && current == Refreshed(old(current), updated)
    {
      var user := GetUserById(userId);
      if user.None? {
        return false;
      }
      var updated := WithTransaction(user.value, tx);
      var _ := UpdateUser(updated);
      // `!!this.updateUser(...)`: the returned record is always truthy
      ok := true;
    }

    method TransferFunds(senderId: string, recipientAccountNumber: string, amount: int,
                         description: string, clock: Clock) returns (ok: bool)
      modifies this
      ensures var plan := PlanTransfer(old(users), senderId, recipientAccountNumber, amount, description, clock);
              && ok == plan.Some?
              && (plan.None? ==> users == old(users) && current == old(current))
              && (plan.Some? ==> users == plan.value.users && current == Refreshed(old(current), plan.value.sender))
    {
      var sender := GetUserById(senderId);
      if sender.None? {
        return false;
      }
      var all := GetUsers();
      var recipient := Find(all, AccountNumberIs(recipientAccountNumber));
      if recipient.None? {
        return false;
      }
      var s, r := sender.value, recipient.value;
      var senderTx := SenderTransaction(recipientAccountNumber, amount, description, clock);
      var recipientTx := RecipientTransaction(s, amount, clock);
      var updatedSender := Debited(s, amount, senderTx);
      var updatedRecipient := Credited(r, amount, recipientTx);
      SaveUsers(ApplyTransfer(all, s.id, r.id, updatedSender, updatedRecipient));
      var cur := GetCurrentUser();
      if cur.Some? && cur.value.id == s.id {
        SaveCurrentUser(Some(updatedSender));
      }
      ok := true;
    }
  }
}
