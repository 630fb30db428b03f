# Hello Banking Space — a Dafny model of the account core

This project models the logic of a small demo banking web app. The app
keeps a table of accounts and a current-user slot in browser
storage. Around that store sit the form rules, page decisions and small
view state machines that read and change it.

- **Account store** (`DatabaseService`, a class `Store` with the fields
  `users` and `current`). It supports lookup by id and by email, create,
  replace-by-id, delete, add-transaction and transfer. Each table update is
  a pure function of the old table. The methods write it to the fields, as
  the service of the same name does. The lemmas state:
  - which records change, by how much, and what is appended to their
    histories;
  - that a transfer conserves the total balance when sender and recipient
    differ, and loses the amount when they are the same record;
  - that both sides of a transfer are the records `addTransaction` would
    write, so a balance that agrees with its history keeps agreeing.
- **Forms.** The transfer and withdrawal checks come in the order the forms
  apply them. The forms call into the store and refresh the dashboard. The
  transfer form's error-message classification is modelled too, and so are
  the admin page's status toggle, add-balance and create-account, and the
  two admin user forms.
- **Authentication and routing.** This covers the store-backed login (the
  hard-coded administrator first, then an email-and-password match, with
  the session copy stripped of its password), logout, the login page's mock
  rule, the route guard's redirect and render decisions, and the
  dashboard's load step. The load step makes sure the session's account is
  in the table and has an account number.
- **View state.** The testimonial carousel is an index moved forward, back
  or directly. The transactions panel shows the last five entries, newest
  first, with a label and a sign for each.

Money is integer cents. Navigation is a returned `Route` value. Clock
readings are parameters: `now` for `Date.now()` and `today` for the ISO
date, and for a transfer a `Clock` value holding its four separate readings.
`Math.random()` (`random` in [0, 1)) and parsed amounts (`Option<int>`,
`None` for NaN) are parameters as well.

The transfer form has two error messages of its own: "Failed to process
transfer" and "Failed to get updated user data". Neither contains
"recipient" or "account not found". So the "Recipient account not found"
message is never shown, even when the recipient account does not exist
(`TransferForm.FailuresReportGenericMessage`). The refetch failure itself
cannot happen after a successful transfer (`TransferForm.TransferForm.Commit`
never ends in it when the store call succeeds, by
`DatabaseService.LookupSenderAfterTransfer`).

Nothing in the app keeps account ids unique. `createUser` appends without a
check, and the dashboard gives an account built from a session without an
id the empty id. Conservation of the total balance
(`DatabaseService.TransferConservesTotal`) is therefore proved under the
hypothesis `UniqueIds`. `DatabaseService.SharedIdTransferRaisesTotal` shows
what happens without it: one transfer writes the first account over the
second, and the total grows.

## Model

| member | source | states |
|---|---|---|
| UserTypes.History | src/services/databaseService.ts:95 | an absent history reads as the empty list, a present one as itself |
| JsText.Decimal | src/services/databaseService.ts:122 | `toString` of a clock value is a non-empty string of digits without a leading zero, ending in the last digit |
| JsText.DecimalRoundTrip | src/services/databaseService.ts:122 | reading the digits of `toString` back gives the number |
| JsText.DecimalInjective | src/services/databaseService.ts:122 | different clock values give different transaction ids |
| JsText.DecimalLength | src/pages/Dashboard.tsx:32 | a number with k digits prints as exactly k characters |
| JsText.TrimStart | src/components/dashboard/TransferForm.tsx:34 | leading white space is dropped: a suffix remains that is empty or starts with a non-space |
| JsText.TrimEnd | src/components/dashboard/TransferForm.tsx:34 | trailing white space is dropped: a prefix remains that is empty or ends with a non-space |
| JsText.TrimEmptyIffBlank | src/components/dashboard/TransferForm.tsx:34 | a string trims to "" exactly when it is all white space |
| JsText.Trim | src/components/dashboard/TransferForm.tsx:34 | `trim` never lengthens the string, and a non-empty result neither starts nor ends with white space |
| JsText.Includes | src/components/dashboard/TransferForm.tsx:99-100 | `includes` can hold only when the searched text is at least as long as the sought one |
| JsText.IncludesEmpty | src/components/dashboard/TransferForm.tsx:99-100 | every string includes the empty string |
| Seqs.FindIndex | src/services/databaseService.ts:55 | `find` stops at the first element satisfying the test, and finds none only when no element does |
| Seqs.Find | src/services/databaseService.ts:50-55 | `find` with its null fallback gives null exactly when no element satisfies the test, and otherwise the first element that does |
| Seqs.Reverse | src/components/dashboard/TransactionsList.tsx:17 | `reverse` on the `slice()` copy keeps the length and the multiset of entries |
| Seqs.ReverseAt | src/components/dashboard/TransactionsList.tsx:17 | position k of the reversed list holds the k-th element from the end |
| DatabaseService.IndexById | src/services/databaseService.ts:53-56 | the position found holds the id and no earlier record does; none only when no record has the id |
| DatabaseService.IndexByAccountNumber | src/services/databaseService.ts:117 | the first record whose account number equals the text; an absent account number never matches |
| DatabaseService.UserById | src/services/databaseService.ts:53-56 | `getUserById` returns the first record with the id, and null exactly when none has it |
| DatabaseService.UserByEmail | src/services/databaseService.ts:48-51 | `getUserByEmail` returns the first record with the email, and null exactly when none has it |
| DatabaseService.ReplaceById | src/services/databaseService.ts:65-70 | every record with the updated id becomes the update, every other record is unchanged, and the length is kept |
| DatabaseService.LookupAfterReplace | src/services/databaseService.ts:65-70 | after an update, the id finds the update; an id no record had leaves the table unchanged |
| DatabaseService.LookupOtherAfterReplace | src/services/databaseService.ts:65-70 | an update does not change the lookup of any other id |
| DatabaseService.ReplaceByIdIdempotent | src/services/databaseService.ts:67-69 | writing the same update twice is writing it once |
| DatabaseService.Refreshed | src/services/databaseService.ts:72-76 | the current-user slot becomes the update exactly when it holds a record with the same id; an empty slot stays empty |
| DatabaseService.WithoutId | src/services/databaseService.ts:83 | the records left are exactly those whose id differs |
| DatabaseService.WithoutIdLength | src/services/databaseService.ts:81-86 | delete removes exactly as many records as carry the id |
| DatabaseService.DeleteReportsRemoval | src/services/databaseService.ts:85 | `deleteUser` returns true exactly when some record had the id |
| DatabaseService.WithoutIdConcat | src/services/databaseService.ts:83 | delete distributes over concatenation, so the survivors keep their order |
| DatabaseService.WithoutAbsentId | src/services/databaseService.ts:83 | deleting an id no record has changes nothing |
| DatabaseService.SignedAmount | src/services/databaseService.ts:96-98 | a deposit counts its amount positively, a withdrawal or a transfer negatively |
| DatabaseService.WithTransaction | src/services/databaseService.ts:93-99 | a deposit raises the balance by its amount, any other type lowers it, the history gains the entry at its end, and no other field changes |
| DatabaseService.SenderLabel | src/services/databaseService.ts:135 | `sender.accountNumber \|\| 'Unknown'`: the account number when it is present and non-empty, "Unknown" otherwise, never empty |
| DatabaseService.SenderTransaction | src/services/databaseService.ts:121-128 | the sender's entry: id from the first clock reading, type transfer, the amount, the recipient account, the first date, and the given description or "Transfer to account " and the account number when it is empty |
| DatabaseService.RecipientTransaction | src/services/databaseService.ts:130-136 | the recipient's entry: id from the second clock reading plus one, type deposit, the amount, no recipient, the second date, and "Transfer from account " with the sender's label |
| DatabaseService.Debited | src/services/databaseService.ts:139-143 | the updated sender: balance lowered by the amount, the entry appended to the history, every other field kept |
| DatabaseService.Credited | src/services/databaseService.ts:146-150 | the updated recipient: balance raised by the amount, the entry appended to the history, every other field kept |
| DatabaseService.TransferPick | src/services/databaseService.ts:153-157 | a record with the sender id becomes the updated sender, even when it also has the recipient id; else the recipient id gives the updated recipient; any other record is kept |
| DatabaseService.WithTransactionConsistent | src/services/databaseService.ts:89-102 | a balance that equals an opening amount plus the signed sum of its history still does after `addTransaction` |
| DatabaseService.TransferTransactionIdsDiffer | src/services/databaseService.ts:121-136 | while the clock does not run backwards between its two `Date.now()` readings, the sender's and the recipient's entries of one transfer never share an id |
| DatabaseService.ClockStepBackSharesId | src/services/databaseService.ts:122-131 | if the second clock reading is one millisecond behind the first, both entries get the same id |
| DatabaseService.ApplyTransfer | src/services/databaseService.ts:153-157 | the transfer's `map`: the sender test comes first, then the recipient test; the length is kept |
| DatabaseService.PlanTransfer | src/services/databaseService.ts:112-118 | the transfer fails exactly when the sender id is unknown or no record has the recipient account number |
| DatabaseService.DebitIsTransaction | src/services/databaseService.ts:139-143 | the sender update is the record `addTransaction` writes for a non-deposit entry of that amount |
| DatabaseService.CreditIsTransaction | src/services/databaseService.ts:146-150 | the recipient update is the record `addTransaction` writes for a deposit of that amount |
| DatabaseService.TransferKeepsSenderConsistent | src/services/databaseService.ts:139-143 | a sender whose balance agreed with its history still does after the transfer |
| DatabaseService.TransferDebitsSender | src/services/databaseService.ts:121-143 | the sender loses the amount and gains one `transfer` entry with the amount and the recipient account, and every record with the sender id is written as the updated sender |
| DatabaseService.TransferCreditsRecipient | src/services/databaseService.ts:130-150 | a recipient that is not the sender gains the amount and one `deposit` entry |
| DatabaseService.TransferLeavesOthers | src/services/databaseService.ts:153-157 | every record that is neither sender nor recipient is written back unchanged |
| DatabaseService.SelfTransferStoresSenderOnly | src/services/databaseService.ts:153-157 | when the recipient is the sender, only the sender update is stored |
| DatabaseService.TotalAfterTransfer | src/services/databaseService.ts:153-157 | when every record with the sender id holds the looked-up sender's balance and every record with a distinct recipient id holds the looked-up recipient's balance, the total falls by the amount for each sender record and rises by it for each recipient record |
| DatabaseService.TransferConservesTotal | src/services/databaseService.ts:139-159 | with unique ids and two different records, the sum of all balances is unchanged |
| DatabaseService.SelfTransferLosesAmount | src/services/databaseService.ts:153-159 | with unique ids, a transfer to one's own record lowers the total by the amount |
| DatabaseService.LookupSenderAfterTransfer | src/services/databaseService.ts:153-157 | after a transfer, the sender id finds the updated sender, and replacing it again changes nothing |
| DatabaseService.SharedIdTransferRaisesTotal | src/services/databaseService.ts:153-157 | with two accounts sharing the empty id, a transfer of 10 from that id debits the first account, writes it over the second too, and raises the total by 40 |
| DatabaseService.Store.constructor | src/services/databaseService.ts:6 | the store starts with the given table and current-user slot |
| DatabaseService.Store.GetUsers | src/services/databaseService.ts:8-16 | returns the stored table |
| DatabaseService.Store.SaveUsers | src/services/databaseService.ts:18-24 | overwrites the table and leaves the current-user slot alone |
| DatabaseService.Store.GetCurrentUser | src/services/databaseService.ts:26-34 | returns the current-user slot |
| DatabaseService.Store.SaveCurrentUser | src/services/databaseService.ts:36-46 | stores the record or clears the slot for null, and leaves the table alone |
| DatabaseService.Store.GetUserByEmail | src/services/databaseService.ts:48-51 | null exactly when no stored record has the email, else the first that does |
| DatabaseService.Store.GetUserById | src/services/databaseService.ts:53-56 | null exactly when no stored record has the id, else the first that does |
| DatabaseService.Store.CreateUser | src/services/databaseService.ts:58-63 | appends the record at the end with no duplicate check, and returns it |
| DatabaseService.Store.UpdateUser | src/services/databaseService.ts:65-79 | the table becomes the replace-by-id table; the current user becomes the update only if it has the same id |
| DatabaseService.Store.DeleteUser | src/services/databaseService.ts:81-86 | the table loses exactly the records with the id, and the result is true exactly when one was removed |
| DatabaseService.Store.AddTransaction | src/services/databaseService.ts:89-102 | for an unknown id it returns false and writes nothing; otherwise the account's record gets the entry and the balance move, in the table and in a matching current-user slot |
| DatabaseService.Store.TransferFunds | src/services/databaseService.ts:105-168 | returns false and writes nothing when the lookups fail; otherwise it writes the planned table and puts the updated sender in a matching current-user slot |
| Dashboard.AccountNumberFor | src/pages/Dashboard.tsx:32 | a generated account number is "ACC" followed by nine digits denoting a number in [100000000, 999999999] |
| Dashboard.NeedsAccountNumber | src/pages/Dashboard.tsx:31 | an account number is missing exactly when it is absent or empty, the two values JavaScript treats as false |
| Dashboard.FromSession | src/pages/Dashboard.tsx:48-54 | the new account copies email, password, role, id and creation date from the session, takes the generated number, and defaults balance to 0, status to active and the history to empty |
| Dashboard.ReplaceByEmail | src/pages/Dashboard.tsx:35-37 | every record with the email becomes the filled-in account, and the rest are unchanged |
| Dashboard.Loaded | src/pages/Dashboard.tsx:26-62 | the account shown has the session's email and an account number, it is in the table written back, and the table is unchanged when nothing is written |
| Dashboard.LoadKeepsNumberedAccount | src/pages/Dashboard.tsx:29-43 | a known account that already has a number is shown unchanged and nothing is written |
| Dashboard.LoadFillsAccountNumber | src/pages/Dashboard.tsx:31-43 | a known account without a number gets a generated one, and only records with its email change |
| Dashboard.LoadAppendsNewAccount | src/pages/Dashboard.tsx:44-62 | an unknown session account is appended with a generated number and defaults of balance 0, status active and an empty history |
| Dashboard.DashboardPage.constructor | src/pages/Dashboard.tsx:11-12 | the page starts with no account and loading |
| Dashboard.DashboardPage.Load | src/pages/Dashboard.tsx:15-65 | without a session it goes to login and changes nothing; otherwise it shows the loaded account, writes the table and, when something changed, the current-user slot |
| Dashboard.DashboardPage.UpdateUserData | src/pages/Dashboard.tsx:68-79 | shows the record, replaces it by id in the table, and makes it the current user |
| TransferForm.CheckTransfer | src/components/dashboard/TransferForm.tsx:24-59 | a NaN or non-positive amount fails first, then a blank recipient, then the own account number (untrimmed), then an amount above the balance; only then does it go ahead |
| TransferForm.WholeBalanceAllowed | src/components/dashboard/TransferForm.tsx:52-59 | transferring exactly the balance is allowed |
| TransferForm.OwnAccountWithTrailingSpace | src/components/dashboard/TransferForm.tsx:43-50 | the own account number with a trailing space passes every check |
| TransferForm.DescriptionOrDefault | src/components/dashboard/TransferForm.tsx:69 | a given description is kept and an empty one becomes "Transfer to account " and the recipient, so the description passed is never empty |
| TransferForm.DefaultDescriptionAgrees | src/components/dashboard/TransferForm.tsx:69 | the form's default gives the same sender entry as the store's own default for an empty description |
| TransferForm.ErrorMessage | src/components/dashboard/TransferForm.tsx:96-102 | "Recipient account not found" exactly for a message containing "recipient" or "account not found", the generic message otherwise |
| TransferForm.ProcessFailedIsGeneric | src/components/dashboard/TransferForm.tsx:92 | the "Failed to process transfer" error gets the generic message |
| TransferForm.RefetchFailedIsGeneric | src/components/dashboard/TransferForm.tsx:89 | the "Failed to get updated user data" error gets the generic message |
| TransferForm.FailuresReportGenericMessage | src/components/dashboard/TransferForm.tsx:89-102 | both errors the handler raises are reported with the generic message |
| TransferForm.TransferForm.constructor | src/components/dashboard/TransferForm.tsx:15-18 | the fields start empty, not processing |
| TransferForm.TransferForm.HandleTransfer | src/components/dashboard/TransferForm.tsx:21-112 | a failed check changes nothing; after the checks, the store's transfer result reaches the table, the current user and the dashboard; the fields are cleared and the form closed only after success; processing ends false; the dashboard's loading flag is kept |
| TransferForm.TransferForm.Submit | src/components/dashboard/TransferForm.tsx:61-111 | a successful store call always ends in `Transferred` with the sender's new record shown and stored; a failed one reports the generic message and changes nothing; the fields are cleared and the form closed only after success; processing ends false; the dashboard's loading flag is kept |
| TransferForm.TransferForm.Commit | src/components/dashboard/TransferForm.tsx:65-92 | the store's transfer result and the refetched sender reach the table, the current-user slot and the dashboard, the refetch never failing after a successful transfer; a failed transfer reports the generic message and changes nothing; the dashboard's loading flag is kept |
| TransferForm.TransferForm.Refetch | src/components/dashboard/TransferForm.tsx:72-87 | for a known id the account found is shown, replaced by id in the table and made the current user; an unknown id changes nothing; the dashboard's loading flag is kept |
| WithdrawalForm.CheckWithdrawal | src/components/dashboard/WithdrawalForm.tsx:22-39 | a NaN or non-positive amount fails first, then an amount above the balance; the whole balance is allowed |
| WithdrawalForm.WithdrawalTransaction | src/components/dashboard/WithdrawalForm.tsx:45-51 | the entry's id is the clock value in decimal, and it has type withdrawal, the amount, no recipient, today's date and description "Withdrawal" |
| WithdrawalForm.WithdrawalLowersBalance | src/components/dashboard/WithdrawalForm.tsx:54 | recording the withdrawal lowers the stored balance by exactly the amount |
| WithdrawalForm.WithdrawalKeepsBalanceNonNegative | src/components/dashboard/WithdrawalForm.tsx:32-39 | an accepted withdrawal cannot take the balance it was checked against below zero |
| WithdrawalForm.WithdrawalForm.constructor | src/components/dashboard/WithdrawalForm.tsx:15-16 | the amount field starts empty, not processing |
| WithdrawalForm.WithdrawalForm.HandleWithdrawal | src/components/dashboard/WithdrawalForm.tsx:19-86 | a failed check makes no store call and changes nothing; otherwise the stored account gets the withdrawal, the dashboard shows it, and the field is cleared and the form closed; an unknown id reports the generic failure; the dashboard's loading flag is kept |
| Admin.AdminAccess | src/pages/Admin.tsx:57-72 | no session goes to login, a non-admin role goes to the dashboard, and only an admin stays |
| Admin.Toggled | src/pages/Admin.tsx:93 | the status flips: the result differs from the old status, and there are just two |
| Admin.ToggleStatus | src/pages/Admin.tsx:90-107 | the matching account's status flips between active and frozen, and the rest are unchanged |
| Admin.ToggleTwice | src/pages/Admin.tsx:90-107 | toggling the same account twice restores the table |
| Admin.ValidAmount | src/pages/Admin.tsx:110-117 | an empty field, NaN, zero or a negative amount is refused; an accepted amount is at least one cent |
| Admin.AddBalance | src/pages/Admin.tsx:119-135 | only the matching account's balance rises, by exactly the amount |
| Admin.AddBalanceTotal | src/pages/Admin.tsx:119-135 | the page's total rises by the amount once per matching account |
| Admin.MaxId | src/pages/Admin.tsx:151 | `Math.max` of the ids is a number exactly when some id is one, and it is then one of the ids |
| Admin.NewId | src/pages/Admin.tsx:151 | the new id is a number exactly when the maximum is one, and is then the maximum plus one |
| Admin.NewIdFresh | src/pages/Admin.tsx:151 | with a numeric id present, the new id is one more than the largest and so differs from every existing id |
| Admin.MockUsersNextId | src/pages/Admin.tsx:18-43 | the next id after the three mock accounts is 4 |
| Admin.NoNumericIdNoNumber | src/pages/Admin.tsx:151 | on an empty table the new id is "-Infinity", and the next one is too |
| Admin.NewAccount | src/pages/Admin.tsx:153-160 | the new account has the fresh id, the entered email, balance 0, status active, role user and today's date |
| Admin.AdminPage.constructor | src/pages/Admin.tsx:46-51 | the page starts with an empty table, loading, with no form open |
| Admin.AdminPage.Load | src/pages/Admin.tsx:55-79 | it navigates as the access check says; only an admin gets the mock accounts |
| Admin.AdminPage.Logout | src/pages/Admin.tsx:81-88 | clears the current-user slot and goes to login |
| Admin.AdminPage.ToggleAccountStatus | src/pages/Admin.tsx:90-107 | the table becomes the toggled table and nothing else changes |
| Admin.AdminPage.HandleAddBalance | src/pages/Admin.tsx:109-139 | an empty, NaN or non-positive amount is rejected with no change; a valid one raises only the matching balance, then closes and clears the form |
| Admin.AdminPage.HandleCreateUser | src/pages/Admin.tsx:141-171 | an empty email or password is rejected with no change; otherwise the new account is appended, the fields are cleared and the form closed |
| AuthContext.AdminRecord | src/contexts/AuthContext.tsx:48-56 | the admin session has id "admin", role admin, balance 0, status active, an empty history and no password |
| AuthContext.WithoutPassword | src/contexts/AuthContext.tsx:78 | the session copy has no password and every other field of the stored record |
| AuthContext.Matches | src/contexts/AuthContext.tsx:71-76 | a stored account matches exactly when its email and its password equal the entered ones; an account without a password never matches |
| AuthContext.Authenticate | src/contexts/AuthContext.tsx:46-90 | the admin credentials always give the admin session; otherwise login succeeds exactly when a stored record matches both email and password, and then gives the first such record without its password |
| AuthContext.AdminFirst | src/contexts/AuthContext.tsx:47-68 | the admin credentials win over any stored record |
| AuthContext.AuthProvider.constructor | src/contexts/AuthContext.tsx:18-19 | no session, loading |
| AuthContext.AuthProvider.IsAuthenticated | src/contexts/AuthContext.tsx:133 | authenticated exactly when there is a session |
| AuthContext.AuthProvider.LoadUser | src/contexts/AuthContext.tsx:24-40 | the session is the current-user slot, and loading ends |
| AuthContext.AuthProvider.Login | src/contexts/AuthContext.tsx:42-112 | success stores the authenticated session in the provider and the slot; failure returns false and changes neither; loading ends |
| AuthContext.AuthProvider.Logout | src/contexts/AuthContext.tsx:114-124 | clears the session and the slot, so the provider is not authenticated, and goes to login |
| ProtectedRoute.Redirect | src/components/auth/ProtectedRoute.tsx:18-32 | unauthenticated goes to login; a role not allowed goes to the admin page for an admin and to the dashboard for a user; otherwise it stays |
| ProtectedRoute.Render | src/components/auth/ProtectedRoute.tsx:34-44 | the children are shown exactly when not loading and authenticated, whatever the role |
| ProtectedRoute.DefaultRolesAdmitEveryone | src/components/auth/ProtectedRoute.tsx:13 | with the default roles every authenticated user stays |
| ProtectedRoute.WrongRoleStillRendered | src/components/auth/ProtectedRoute.tsx:21-44 | a user whose role is not allowed is redirected and still sees the children |
| Login.MockLogin | src/pages/Login.tsx:20-40 | the admin credentials give an admin session and the admin page; any other filled-in pair a user session and the dashboard; an empty field nothing; the session email is the one entered |
| Login.AdminEmailWrongPassword | src/pages/Login.tsx:20-33 | the admin email with a wrong non-empty password logs in as a user |
| Login.LoginPage.constructor | src/pages/Login.tsx:8-10 | empty fields, not loading |
| Login.LoginPage.HandleLogin | src/pages/Login.tsx:14-43 | the session is stored only when the rule gives one, the navigation is the rule's, and loading is reset in every branch |
| TransactionsList.Recent | src/components/dashboard/TransactionsList.tsx:15-17 | a missing or empty list shows the placeholder; otherwise at most five entries, the k-th being the k-th from the end |
| TransactionsList.RecentIsLastFive | src/components/dashboard/TransactionsList.tsx:17 | put back in list order, the shown entries are the list's final stretch |
| TransactionsList.Label | src/components/dashboard/TransactionsList.tsx:34-36 | "Deposit", "Withdrawal", or "Transfer to" and the recipient account ("undefined" when absent) |
| TransactionsList.LabelsDistinguishTypes | src/components/dashboard/TransactionsList.tsx:34-36 | equal labels mean equal types |
| TransactionsList.Sign | src/components/dashboard/TransactionsList.tsx:44 | "+" exactly for a deposit, "-" for every other type |
| TransactionsList.SignMatchesBalanceEffect | src/components/dashboard/TransactionsList.tsx:44 | for a positive amount, the sign shown agrees with the way the entry moved the balance |
| TestimonialSection.Next | src/components/TestimonialSection.tsx:50-52 | the index stays below n, steps up by one, and wraps from n - 1 to 0 |
| TestimonialSection.Prev | src/components/TestimonialSection.tsx:54-58 | a valid index stays below n, steps down by one, and wraps from 0 to n - 1 |
| TestimonialSection.PrevUndoesNext | src/components/TestimonialSection.tsx:50-58 | going back after going forward returns to the index |
| TestimonialSection.NextUndoesPrev | src/components/TestimonialSection.tsx:50-58 | going forward after going back returns to the index |
| TestimonialSection.NextTimesWraps | src/components/TestimonialSection.tsx:51 | up to n steps forward count up and wrap once past the end |
| TestimonialSection.FullCycle | src/components/TestimonialSection.tsx:51 | n steps forward return to the starting index |
| TestimonialSection.Carousel.constructor | src/components/TestimonialSection.tsx:28 | the carousel starts at index 0 |
| TestimonialSection.Carousel.NextTestimonial | src/components/TestimonialSection.tsx:50-52 | the index moves forward and stays valid |
| TestimonialSection.Carousel.PrevTestimonial | src/components/TestimonialSection.tsx:54-58 | the index moves back and stays valid |
| TestimonialSection.Carousel.Select | src/components/TestimonialSection.tsx:117-120 | pressing dot k sets the index to exactly k |
| AdminForms.CreateUserForm.constructor | src/components/admin/CreateUserForm.tsx:13 | the fields start empty |
| AdminForms.CreateUserForm.HandleSubmit | src/components/admin/CreateUserForm.tsx:16-28 | the callback gets the entered email and password exactly when both are filled in; the fields are reset only then |
| AdminForms.EditUserForm.constructor | src/components/admin/EditUserForm.tsx:15 | the fields start empty |
| AdminForms.EditUserForm.Prefill | src/components/admin/EditUserForm.tsx:18-26 | the email comes from the account with the id and the password starts empty; no match changes nothing |
| AdminForms.EditUserForm.HandleSubmit | src/components/admin/EditUserForm.tsx:28-39 | the callback gets the id, email and password unchanged exactly when the email is filled in; an empty password is passed through |
| AdminForms.PrefillUnknownId | src/components/admin/EditUserForm.tsx:15-26 | a new form prefilled for an unknown id keeps both fields empty |

## Left out

- Browser storage and JSON are not modelled. The two keys are the fields of `Store`. A missing or unreadable key reading as empty or null is not modelled, and neither are the `catch` blocks that log storage errors.
- One key, three readers. The login page, the authentication provider and the dashboard load step all read the `user` key, and they write or read records of different shapes. The login page's record is `Login.LoginPage.stored`. The dashboard takes the parsed key as a parameter. The provider reads `Store.current`. The model does not join these three views of one key.
- Money is not floating point. Balances and amounts are integer cents, and `toFixed(2)` display is not modelled.
- `parseFloat` and `Number` parsing become parameters (`Option<int>`). The model does not tie them to the text in the field.
- The clock, `Math.random()`, the `setTimeout` delays and async/await are not modelled. Clock values and random values are parameters. Delayed callbacks are taken as having run, and service calls are synchronous.
- Toasts, JSX and CSS are not modelled. Navigation is a returned `Route`. `console` logging is not modelled.
- Dashboard.FromSession: a session without an id or a creation date gets "" for that field. The source leaves the field undefined.
- Dashboard.Loaded: the source fills in the account number by mutating the found record in place, inside the table it just read. The model rebuilds the record as a value. The table written back is the same either way.
- AuthContext.AuthProvider.Login: the `catch` branch is not modelled, because no step of the model can throw.
- Admin.AdminId: an id that `Number` cannot read (NaN) is not modelled. Every id the page holds is a number or "-Infinity".
- The admin page's table is its own mock data. It is not connected to the account store, and neither is the source's.
- The forms' `isOpen` field stands for the flag of the parent component that shows the form. `onClose` clears it.
- The transactions panel leaves the input list unchanged. Lists are values in the model, so this holds by construction and is not stated as a lemma.
- Frozen accounts are not enforced: the source only disables buttons. Also left out: the testimonial section's visibility observer, and the presentation-only components (marketing sections, headers, the account overview and actions, the user table).
- Crash consistency of the two-record transfer is not modelled.
- DatabaseService.TransferTransactionIdsDiffer: the ids differ only while the clock does not run backwards between its two `Date.now()` readings. A real clock can be set back, and `DatabaseService.ClockStepBackSharesId` shows the collision that follows.
- DatabaseService.TotalAfterTransfer: the per-record formula assumes that every record sharing the sender id (or a distinct recipient id) holds the balance of the record the lookup found. With shared ids that fails, and `DatabaseService.SharedIdTransferRaisesTotal` shows a table whose total ends at 190 rather than the formula's 140.
- DatabaseService.TransferConservesTotal: holds only under `UniqueIds`, and so does `DatabaseService.SelfTransferLosesAmount`. The app does not maintain that hypothesis, and `DatabaseService.SharedIdTransferRaisesTotal` shows a transfer that raises the total.
