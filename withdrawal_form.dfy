/**
 * The withdrawal form: two checks, then one `withdrawal` transaction
 * recorded through the store and the refreshed account handed to the
 * dashboard.
 */
module WithdrawalForm {
  import opened Wrappers
  import opened UserTypes
  import JsText
  import DatabaseService
  import Dashboard

  datatype WithdrawalCheck = InvalidAmount | InsufficientFunds | Proceed(amount: int)

  /** The checks of `handleWithdrawal`, the amount test first; `amount` is in cents, `None` for NaN. */
  function CheckWithdrawal(amount: Option<int>, userData: UserAccount): (r: WithdrawalCheck)
    ensures r == InvalidAmount <==> amount.None? || amount.value <= 0
    ensures r == InsufficientFunds <==> amount.Some? && 0 < amount.value && amount.value > userData.balance
    ensures r.Proceed? ==> r.amount == amount.value && 0 < r.amount <= userData.balance
  {
    if amount.None? || amount.value <= 0 then InvalidAmount
    else if amount.value > userData.balance then InsufficientFunds
    else Proceed(amount.value)
  }

  /** The entry the form records; `now` stands for `Date.now()` and `today` for the ISO date. */
  function WithdrawalTransaction(amount: int, now: nat, today: string): (tx: Transaction)
    ensures tx.id == JsText.Decimal(now)
    ensures tx.kind == Withdrawal && tx.amount == amount && tx.description == Some("Withdrawal")
    ensures tx.recipientAccount.None? && tx.date == today
  {
    Transaction(JsText.Decimal(now), Withdrawal, amount, None, today, Some("Withdrawal"))
  }

  /** Recording a withdrawal lowers the stored balance by exactly the amount. */
  lemma WithdrawalLowersBalance(u: UserAccount, amount: int, now: nat, today: string)
    ensures DatabaseService.WithTransaction(u, WithdrawalTransaction(amount, now, today)).balance == u.balance - amount
  {
  }

  /** With a positive amount no larger than the balance, the stored balance stays non-negative. */
  lemma WithdrawalKeepsBalanceNonNegative(u: UserAccount, amount: Option<int>, now: nat, today: string)
    requires CheckWithdrawal(amount, u).Proceed?
    ensures DatabaseService.WithTransaction(u, WithdrawalTransaction(amount.value, now, today)).balance >= 0
  {
  }

  datatype WithdrawalOutcome = NoUserData | Rejected(reason: WithdrawalCheck) | Withdrawn | Failed(message: string)

  /** The message shown for `Failed`, whatever the error was. */
  const WithdrawalFailure: string := "An error occurred processing your withdrawal"

  class WithdrawalForm {
    var withdrawalAmount: string
    var isProcessing: bool
    /** The parent's flag for showing this form; `onClose` clears it. */
    var isOpen: bool

    constructor ()
      ensures withdrawalAmount == "" && !isProcessing && isOpen
    {
      withdrawalAmount := "";
      isProcessing := false;
      isOpen := true;
    }

    /** `handleWithdrawal`; `parsedAmount` is `parseFloat(withdrawalAmount)` in cents. */
    method HandleWithdrawal(page: Dashboard.DashboardPage, store: DatabaseService.Store,
                            parsedAmount: Option<int>, now: nat, today: string)
      returns (outcome: WithdrawalOutcome)
      modifies this, page, store
      ensures page.isLoading == old(page.isLoading)
      ensures old(page.userData).None? ==> outcome == NoUserData
      ensures old(page.userData).Some? && !CheckWithdrawal(parsedAmount, old(page.userData).value).Proceed? ==>
                outcome == Rejected(CheckWithdrawal(parsedAmount, old(page.userData).value))
      ensures outcome.NoUserData? || outcome.Rejected? || outcome.Failed? ==>
                page.userData == old(page.userData) && store.users == old(store.users)
                && store.current == old(store.current)
                && withdrawalAmount == old(withdrawalAmount) && isOpen == old(isOpen)
      ensures old(page.userData).Some? && CheckWithdrawal(parsedAmount, old(page.userData).value).Proceed? ==>
                var id := old(page.userData).value.id;
                var tx := WithdrawalTransaction(parsedAmount.value, now, today);
                var stored := DatabaseService.UserById(old(store.users), id);
                && (stored.None? ==> outcome == Failed(WithdrawalFailure))
                && (stored.Some? ==>
                      var updated := DatabaseService.WithTransaction(stored.value, tx);
                      && outcome == Withdrawn
                      && page.userData == Some(updated)
                      && store.users == DatabaseService.ReplaceById(old(store.users), updated)
                      && store.current == Some(updated)
                      && withdrawalAmount == "" && !isOpen)
      ensures outcome.NoUserData? || outcome.Rejected? ==> isProcessing == old(isProcessing)
      ensures outcome.Withdrawn? || outcome.Failed? ==> !isProcessing
    {
      if page.userData.None? {
        return NoUserData;
      }
      var userData := page.userData.value;
      var check := CheckWithdrawal(parsedAmount, userData);
      if !check.Proceed? {
        return Rejected(check);
      }
      isProcessing := true;
      var tx := WithdrawalTransaction(check.amount, now, today);
      ghost var stored := DatabaseService.UserById(store.users, userData.id);
      if stored.Some? {
        DatabaseService.LookupAfterReplace(store.users, DatabaseService.WithTransaction(stored.value, tx));
      }
      var success := store.AddTransaction(userData.id, tx);
      if success {
        var updated := store.GetUserById(userData.id);
        if updated.Some? {
          page.UpdateUserData(store, updated.value);
          withdrawalAmount := "";
          isOpen := false;
          outcome := Withdrawn;
        } else {
          outcome := Failed(WithdrawalFailure);
        }
      } else {
        outcome := Failed(WithdrawalFailure);
      }
      isProcessing := false;
    }
  }
}
