/**
 * The transfer form: its four checks, in order, the call into the store,
 * the refetch into the dashboard, and the failure message it reports.
 */
module TransferForm {
  import opened Wrappers
  import opened UserTypes
  import JsText
  import DatabaseService
  import Dashboard

  /** Why a transfer is refused before the store is called, or the amount it goes ahead with. */
  datatype TransferCheck = InvalidAmount | MissingRecipient | OwnAccount | InsufficientFunds | Proceed(amount: int)

  /**
   * The checks of `handleTransfer`, first failure wins. `amount` is the
   * parsed amount in cents, `None` for NaN; `userData` is the account the
   * dashboard shows.
   */
  function CheckTransfer(amount: Option<int>, recipient: string, userData: UserAccount): (r: TransferCheck)
    ensures r == InvalidAmount <==> amount.None? || amount.value <= 0
    ensures r == MissingRecipient <==> amount.Some? && amount.value > 0 && JsText.IsBlank(recipient)
    ensures r == OwnAccount <==> amount.Some? && amount.value > 0 && !JsText.IsBlank(recipient)
                                 && userData.accountNumber == Some(recipient)
    ensures r == InsufficientFunds <==> amount.Some? && amount.value > 0 && !JsText.IsBlank(recipient)
                                        && userData.accountNumber != Some(recipient) && amount.value > userData.balance
    ensures r.Proceed? ==> r.amount == amount.value && 0 < r.amount <= userData.balance
  {
    JsText.TrimEmptyIffBlank(recipient);
    if amount.None? || amount.value <= 0 then InvalidAmount
    else if JsText.Trim(recipient) == "" then MissingRecipient
    else if userData.accountNumber == Some(recipient) then OwnAccount
    else if amount.value > userData.balance then InsufficientFunds
    else Proceed(amount.value)
  }

  /** Sending the whole balance is allowed. */
  lemma WholeBalanceAllowed(recipient: string, userData: UserAccount)
    requires userData.balance > 0 && !JsText.IsBlank(recipient) && userData.accountNumber != Some(recipient)
    ensures CheckTransfer(Some(userData.balance), recipient, userData) == Proceed(userData.balance)
  {
  }

  /** The own-account test compares the untrimmed text: a trailing space gets past it. */
  lemma OwnAccountWithTrailingSpace(amount: int, userData: UserAccount)
    requires 0 < amount <= userData.balance
    requires userData.accountNumber.Some? && !JsText.IsBlank(userData.accountNumber.value)
    ensures CheckTransfer(Some(amount), userData.accountNumber.value + " ", userData) == Proceed(amount)
  {
    var padded := userData.accountNumber.value + " ";
    var k :| 0 <= k < |userData.accountNumber.value| && !JsText.IsSpace(userData.accountNumber.value[k]);
    assert padded[k] == userData.accountNumber.value[k];
  }

  /** `description || \`Transfer to account ${recipient}\`` */
  function DescriptionOrDefault(description: string, recipient: string): (r: string)
    ensures r != ""
    ensures description != "" ==> r == description
    ensures description == "" ==> r == "Transfer to account " + recipient
  {
    if description == "" then "Transfer to account " + recipient else description
  }

  /** The form's default description is the one the store would have filled in itself. */
  lemma DefaultDescriptionAgrees(description: string, recipient: string, amount: int, clock: DatabaseService.Clock)
    ensures DatabaseService.SenderTransaction(recipient, amount, DescriptionOrDefault(description, recipient), clock)
         == DatabaseService.SenderTransaction(recipient, amount, description, clock)
  {
  }

  const RecipientNotFound: string := "Recipient account not found"
  const GenericFailure: string := "An error occurred processing your transfer"
  const ProcessFailed: string := "Failed to process transfer"
  const RefetchFailed: string := "Failed to get updated user data"

  /** The message reported for a caught error with message `msg`. */
  function ErrorMessage(msg: string): (r: string)
    ensures r == RecipientNotFound <==> JsText.Includes(msg, "recipient") || JsText.Includes(msg, "account not found")
    ensures r == RecipientNotFound || r == GenericFailure
  {
    if JsText.Includes(msg, "recipient") || JsText.Includes(msg, "account not found") then RecipientNotFound
    else GenericFailure
  }

  lemma ProcessFailedLacksRecipient()
    ensures !JsText.Includes(ProcessFailed, "recipient")
  {
    var s := ProcessFailed;
    assert s == "Failed to pro" + ['c'] + "ess transfer";
    assert s[12] == 'o';
    forall i: nat | i <= |s|
      ensures !JsText.OccursAt(s, "recipient", i)
    {
      JsText.OccurrenceChar(s, "recipient", i, 1);
      JsText.OccurrenceChar(s, "recipient", i, 2);
      JsText.SoleOccurrence("Failed to pro", 'c', "ess transfer", i + 2);
    }
  }

  lemma ProcessFailedIsGeneric()
    ensures ErrorMessage(ProcessFailed) == GenericFailure
  {
    ProcessFailedLacksRecipient();
    JsText.IncludedCharPresent(ProcessFailed, "account not found", 4);
  }

  lemma RefetchFailedIsGeneric()
    ensures ErrorMessage(RefetchFailed) == GenericFailure
  {
    JsText.IncludedCharPresent(RefetchFailed, "recipient", 2);
    JsText.IncludedCharPresent(RefetchFailed, "account not found", 1);
  }

  /** What a press of the transfer button ends in. */
  datatype TransferOutcome = NoUserData | Rejected(reason: TransferCheck) | Transferred | Failed(message: string)

  class TransferForm {
    var recipient: string
    var amount: string
    var description: string
    var isProcessing: bool
    /** The parent's flag for showing this form; `onClose` clears it. */
    var isOpen: bool

    constructor ()
      ensures recipient == "" && amount == "" && description == "" && !isProcessing && isOpen
    {
      recipient, amount, description := "", "", "";
      isProcessing := false;
      isOpen := true;
    }

    /**
     * `handleTransfer`. `parsedAmount` is `parseFloat(amount)` in cents,
     * `clock` holds the store's four clock readings.
     */
    method HandleTransfer(page: Dashboard.DashboardPage, store: DatabaseService.Store,
                          parsedAmount: Option<int>, clock: DatabaseService.Clock)
      returns (outcome: TransferOutcome)
      modifies this, page, store
      ensures page.isLoading == old(page.isLoading)
      ensures old(page.userData).None? ==>
                outcome == NoUserData && page.userData == old(page.userData)
                && store.users == old(store.users) && store.current == old(store.current)
      ensures old(page.userData).Some? && !CheckTransfer(parsedAmount, old(recipient), old(page.userData).value).Proceed? ==>
                outcome == Rejected(CheckTransfer(parsedAmount, old(recipient), old(page.userData).value))
                && page.userData == old(page.userData)
                && store.users == old(store.users) && store.current == old(store.current)
      ensures old(page.userData).Some? && CheckTransfer(parsedAmount, old(recipient), old(page.userData).value).Proceed? ==>
                Submitted(old(store.users), old(store.current), old(page.userData), old(recipient), old(description),
                          CheckTransfer(parsedAmount, old(recipient), old(page.userData).value).amount, clock,
                          outcome, store.users, store.current, page.userData)
      ensures outcome != Transferred ==>
                recipient == old(recipient) && amount == old(amount) && description == old(description)
                && isOpen == old(isOpen)
      ensures outcome == Transferred ==> recipient == "" && amount == "" && description == "" && !isOpen
      ensures outcome.NoUserData? || outcome.Rejected? ==> isProcessing == old(isProcessing)
      ensures outcome.Transferred? || outcome.Failed? ==> !isProcessing
    {
      if page.userData.None? {
        return NoUserData;
      }
      var check := CheckTransfer(parsedAmount, recipient, page.userData.value);
      if !check.Proceed? {
        return Rejected(check);
      }
      outcome := Submit(page, store, check.amount, clock);
    }

    /** The part of `handleTransfer` after the checks: the processing flag, the store call, the refetch and the reset. */
    method Submit(page: Dashboard.DashboardPage, store: DatabaseService.Store, transferAmount: int, clock: DatabaseService.Clock)
      returns (outcome: TransferOutcome)
      requires page.userData.Some?
      modifies this, page, store
      ensures page.isLoading == old(page.isLoading)
      ensures Submitted(old(store.users), old(store.current), old(page.userData), old(recipient), old(description),
                        transferAmount, clock, outcome, store.users, store.current, page.userData)
      ensures outcome.Transferred? || outcome.Failed?
      ensures outcome != Transferred ==>
                recipient == old(recipient) && amount == old(amount) && description == old(description)
                && isOpen == old(isOpen)
      ensures outcome == Transferred ==> recipient == "" && amount == "" && description == "" && !isOpen
      ensures !isProcessing
    {
      isProcessing := true;
      outcome := Commit(page, store, recipient, description, transferAmount, clock);
      if outcome == Transferred {
        recipient, amount, description := "", "", "";
        isOpen := false;
      }
      isProcessing := false;
    }

    /** The store call and the refetch, which leave the form's own fields alone. */
    method Commit(page: Dashboard.DashboardPage, store: DatabaseService.Store, recipient: string, description: string,
                  transferAmount: int, clock: DatabaseService.Clock)
      returns (outcome: TransferOutcome)
      requires page.userData.Some?
      modifies page, store
      ensures page.isLoading == old(page.isLoading)
      ensures Submitted(old(store.users), old(store.current), old(page.userData), recipient, description,
                        transferAmount, clock, outcome, store.users, store.current, page.userData)
    {
      var id := page.userData.value.id;
      var text := DescriptionOrDefault(description, recipient);
      ghost var plan := DatabaseService.PlanTransfer(store.users, id, recipient, transferAmount, text, clock);
      if plan.Some? {
        DatabaseService.LookupSenderAfterTransfer(store.users, id, recipient, transferAmount, text, clock);
      }
      var success := store.TransferFunds(id, recipient, transferAmount, text, clock);
      if !success {
        outcome := Failed(ErrorMessage(ProcessFailed));
        return;
      }
      assert plan.Some? && store.users == plan.value.users;
      var refreshed := Refetch(page, store, id);
      if !refreshed {
        assert false;
        outcome := Failed(ErrorMessage(RefetchFailed));
        return;
      }
      outcome := Transferred;
    }

    /** The refetch after a successful transfer: the stored account is shown and written back. */
    method Refetch(page: Dashboard.DashboardPage, store: DatabaseService.Store, id: string) returns (ok: bool)
      modifies page, store
      ensures page.isLoading == old(page.isLoading)
      ensures var found := DatabaseService.UserById(old(store.users), id);
              && ok == found.Some?
              && (found.None? ==> page.userData == old(page.userData)
                                  && store.users == old(store.users) && store.current == old(store.current))
              && (found.Some? ==> page.userData == found && store.current == found
                                  && store.users == DatabaseService.ReplaceById(old(store.users), found.value))
    {
      var updated := store.GetUserById(id);
      if updated.None? {
        return false;
      }
      page.UpdateUserData(store, updated.value);
      ok := true;
    }
  }

  /**
   * The effect of a submitted transfer on the table, the current-user slot
   * and the dashboard's account: on success all three hold the store's
   * result and the sender's new record; on failure nothing changes.
   */
  ghost predicate Submitted(users0: seq<UserAccount>, current0: Option<UserAccount>, userData0: Option<UserAccount>,
                            recipient: string, description: string, transferAmount: int, clock: DatabaseService.Clock,
                            outcome: TransferOutcome, users: seq<UserAccount>, current: Option<UserAccount>,
                            userData: Option<UserAccount>)
    requires userData0.Some?
  {
    var plan := DatabaseService.PlanTransfer(users0, userData0.value.id, recipient, transferAmount,
                                             DescriptionOrDefault(description, recipient), clock);
    && (plan.None? ==> outcome == Failed(ErrorMessage(ProcessFailed))
                       && userData == userData0 && users == users0 && current == current0)
    && (plan.Some? ==> outcome == Transferred
                       && userData == Some(plan.value.sender) && users == plan.value.users
                       && current == Some(plan.value.sender))
  }

  /** The form never shows "Recipient account not found": its own two errors both get the generic message. */
  lemma FailuresReportGenericMessage()
    ensures ErrorMessage(ProcessFailed) == GenericFailure && ErrorMessage(RefetchFailed) == GenericFailure
  {
    ProcessFailedIsGeneric();
    RefetchFailedIsGeneric();
  }
}
