# PlanIT ledger: a verified model

PlanIT's backend is a personal ledger. Application services change rows inside one database transaction, under row locks
and optimistic versions, and trigger functions in the migrations state what every committed state has to satisfy. This
project models both sides and proves that they fit: what every service step keeps, what holds in every state that any
sequence of calls can reach, and what the acceptance of the triggers means whoever wrote the rows.

Amounts are integers in units of 0.0001, times are microseconds, and the position of a row in its table stands for its
UUID. Every service is a pure function from the tables to the new tables or the first error in the order of the source;
methods on `class Database`, and on the classes of the other tables, work as the source does, field by field and loop by
loop, and are proved equal to those functions. The lemmas speak about the functions: what a step writes, field by field,
what it keeps, when exactly it is accepted, and what follows over any run.

| module | what it covers |
|---|---|
| `Common`, `Numbers`, `Sums` | results and error codes; small arithmetic; finite sums over sequences and maps |
| `Ledger`, `History` | the tables, balances over time, the rules of the movement table and its history guard |
| `Transactions` | drafts, posting, reversing |
| `Rounding` | half-even rounding in SQL and in Python's decimal contexts, exchange rates |
| `Positions`, `Transfers` | fingerprints, transfers between own accounts and their trigger |
| `ReallocationGroup`, `Reallocation` | what the session trigger means; preview and commit of a reallocation |
| `Reconciliations`, `Groups` | reconciliations; groups stay accepted whatever happens later |
| `Debts`, `Sharing`, `StrandedShares` | debts, shared expenses, refunds, and shares whose debt was cancelled behind them |
| `Accounts` | opening and editing accounts |
| `Acceptance` | exactly which calls are accepted |
| `Runs`, `Links`, `Freshness`, `Safety` | any sequence of calls: invariants, links, versions, balances that may not be negative |
| `Witnesses` | runs from the empty ledger that break what one would expect |
| `Idempotency`, `JsonContract` | the idempotency coordinator over all interleavings; the canonical text of a request |
| `RefreshSessions`, `Throttles` | rotation chains of refresh tokens; the login throttle |
| `Calendar`, `Analytics`, `CashFlow`, `Spending`, `NetPosition` | dates and buckets; the dashboard against declared sums and against the ledger |
| `Catalog`, `Planning`, `Purchases` | the category hierarchy; recurring rules and occurrences; itemised purchases |
| `PortableText`, `Backup` | the portable backup as a document |

## Promises that do not hold as stated

- Balances that may not go negative are checked at one moment. Movements may be dated up to five minutes ahead, and an
  outflow dated now is not checked against one dated ahead: `Safety.DatedAheadOverdraws` ends at -50.
  `Safety.GuardProtectsIffNoDip` gives the exact condition and `Safety.OnTimeRunsAreSafe` the promise under it.
- Adjusting a cancelled share is refused by no guard, only by the constraint that ties the status and the time of a
  cancellation (`Witnesses.GuardsAloneRevive`, `Sharing.UpdateShareOutcome`).
- The debt service cancels the debt of an active share. The expense is then locked until that share is cancelled, and for
  good if anything was paid on it (`Sharing.CancelStrands`, `Witnesses.PaidSharesCanBeStranded`,
  `StrandedShares.ExpenseIsLocked`).
- Lending, borrowing and repaying keep the net position only when movement and debt are counted on the same side of the
  bound, because a debt counts from the moment it was recorded and a movement from its own date
  (`NetPosition.CashDebtsKeepNetWorth`, `NetPosition.RepaymentsKeepNetWorth`); runs that break it are
  `Witnesses.BackdatedLoansShowAsLosses` and `Witnesses.BackdatedRepaymentsShowAsGains`.
- Money multiplication rounds twice when a product has more than 28 digits; `Rounding.MultiplyAgreesIff` says for every
  amount and factor when that matters. It can give another amount (`Rounding.MultiplyDisagrees`) or refuse one
  (`Rounding.MultiplyRefusesTheTop`). Exchange rates are computed in 64 digits and are not affected (`Rounding.FxAgrees`).
- Advancing a due date without an anchor day can leave it behind for good (`Calendar.DriftsIffAMonthIsShort`); every
  stored rule has one.
- The writer of a portable backup has no limit on rows, the reader has (`Backup.BackupRoundTrip`).

## Model

| member | source | states |
|---|---|---|
| History.StandingBalance | backend/app/domain/ledger/balance.py:31-53 | Once every movement is dated, a balance is the opening amount plus the movements that were neither reversed nor are reversals: each reversed pair cancels. |
| History.PostedRowsAreFrozen | backend/alembic/versions/20260825_0004_core_ledger.py:188-231 | Over any number of updates that the history trigger accepts, a posted row keeps all its financial fields and never returns to draft, and a reversed or voided row keeps its status. |
| History.AppendSound | backend/alembic/versions/20260825_0004_core_ledger.py:188-231 | Adding drafts and plain posted rows keeps every rule of the movement table: currency and opening date of the account, direction by kind, one-to-one pairing of reversals, and cancelling pairs. |
| History.PostedRowsSound | backend/app/application/ledger_posting.py:11-41 | Posting specialised rows at one date moves exactly their accounts from that date on, bumps exactly those accounts once, and keeps the rules of the table. |
| History.ReverseSound | backend/app/application/transactions.py:506-534 | Marking a posted row reversed together with the row that undoes it keeps the pairing of reversals and the cancelling of pairs. |
| Transactions.CreateDraftInTransaction | backend/app/application/transactions.py:105-181 | Inserts exactly one draft with the supplied fields and the direction of its kind, or fails with the first failing guard and changes nothing. |
| Transactions.UpdateDraftInTransaction | backend/app/application/transactions.py:231-358 | Replaces exactly the supplied fields of one draft and steps its version, or changes nothing. |
| Transactions.PostDraft | backend/app/application/transactions.py:360-427 | Posts one draft and steps the versions of the row and of its account, in the order of the guards of the source, or changes nothing. |
| Transactions.ReverseMovement | backend/app/application/transactions.py:468-547 | Inserts the opposite row as a draft, marks the original, posts the opposite row and steps the versions; or changes nothing. |
| Transactions.DraftsAreInvisible | backend/app/application/transactions.py:105-181 | Creating a draft moves no balance at any time and keeps every rule of the ledger. |
| Transactions.DraftEditsAreInvisible | backend/app/application/transactions.py:231-358 | Editing a draft moves no balance at any time and keeps every rule of the ledger. |
| Transactions.PostShifts | backend/app/application/transactions.py:360-427 | Posting a draft moves its own account by the signed amount from its own date on, and no other account; what is spent was covered at the moment of the check. |
| Transactions.ReverseShifts | backend/app/application/transactions.py:484-547 | A reversal takes the original amount back out of the same account from the date of the reversal on; that the reversal is not before the opening of the account follows from the rule on its original. |
| Transactions.PostThenReverse | backend/app/application/transactions.py:360-547 | Posting and then reversing restores every balance from the date of the reversal on, and before the date of the original. |
| Transactions.ReversedOnlyOnce | backend/app/domain/ledger/transactions.py:67-87 | In whatever guarded state the ledger is later, a reversed movement cannot be reversed again. |
| Transactions.DraftIsCreated | backend/app/application/transactions.py:105-181 | A new draft is the only row added to any table and holds the account, kind, amount, currency, date and category that were supplied, in the direction that its kind demands. |
| Transactions.DraftIsEdited | backend/app/application/transactions.py:231-358 | An accepted edit takes effect: the row holds exactly the supplied fields, its old links and the next version, and no other row of any table changes. |
| Transactions.DraftIsPosted | backend/app/application/transactions.py:404-423 | Posting changes of all rows only the status and version of the draft and the version of an account. |
| Transactions.ReversalIsRecorded | backend/app/application/transactions.py:506-534 | The reversal carries account, amount, currency and category of its original, the opposite direction and both links; of the original only status and version change. |
| Transactions.DraftedThenPosted | backend/app/application/transactions.py:105-427 | Drafting and then posting moves exactly the account that was named by exactly the amount that was entered, in the direction of the kind, from the entered date on. |
| Transactions.EditedThenPosted | backend/app/application/transactions.py:231-427 | The same for an edited draft: what it held before the edit leaves no trace in any balance. |
| Rounding.HalfEvenMeetsReference | backend/alembic/versions/20260825_0005_transfers_and_corrections.py:254-275 | Floor, fraction and parity give a nearest value, and the even one on a tie, for every rational including negative ones. |
| Rounding.HalfEvenUnique | backend/alembic/versions/20260825_0005_transfers_and_corrections.py:254-275 | No other value is nearest and, on a tie, even: the reference definition determines the result. |
| Rounding.HalfEvenOdd | backend/alembic/versions/20260825_0005_transfers_and_corrections.py:254-275 | The database rounding of the negated value is the negated rounding. |
| Rounding.HalfEvenMonotone | backend/alembic/versions/20260825_0005_transfers_and_corrections.py:254-275 | The database rounding is monotone. |
| Rounding.HalfEvenIdempotent | backend/alembic/versions/20260825_0005_transfers_and_corrections.py:254-275 | Rounding a rounded value changes nothing. |
| Rounding.SumOfRounded | backend/app/domain/money.py:56-61 | A sum of n rounded amounts is within n/2 units of the exact sum. |
| Rounding.RoundDigitsIsHalfEven | backend/app/domain/money.py:56-61 | Quantising sign and magnitude half-even, as Python does, is the floor-and-parity rounding of the database on every value. |
| Rounding.DoubleRounding | backend/app/domain/money.py:101-110 | Rounding to the context precision first and to the scale of money second equals rounding once exactly when the first rounding does not land on the wrong side of a tie. |
| Rounding.MultiplyAgreesIff | backend/app/domain/money.py:101-110 | For every amount and factor, refusals included: money multiplication agrees with exact half-even rounding if and only if the context is too short for either to be an amount, or that condition holds for the product, or the tie lies outside the storage range. |
| Rounding.MultiplyRefusesTheTop | backend/app/domain/money.py:101-110 | A concrete product just below half a unit above the largest amount, which Python refuses and exact rounding accepts. |
| Rounding.MultiplyDisagrees | backend/app/domain/money.py:101-110 | A concrete product of more than 28 digits on which Python gives 0.0000 and exact rounding gives 0.0001. |
| Rounding.FxAgrees | backend/alembic/versions/20260825_0005_transfers_and_corrections.py:321-331 | For every storable amount and exchange rate the destination amount of the service is the one that the transfer trigger demands. |
| Positions.BumpVersions | backend/app/application/transfers.py:184-191 | Walking the set of affected accounts in any order steps the version of each exactly once and of no other. |
| Transfers.CommitTransferInTransaction | backend/app/application/transfers.py:78-216 | Commits the movement pair, the optional fee, the transfer row and the version steps, or fails and changes nothing; a fingerprint that does not match is stale. |
| Transfers.TransferShifts | backend/app/application/transfers.py:78-216 | A committed transfer moves source, destination and fee account from its date on and no other account, keeps the rules of the ledger, and every payer was covered. |
| Transfers.TransferConserves | backend/app/domain/ledger/transfers.py:61-180 | Within one currency and without fee the two balances keep their sum at every time, and the source loses the amount from the date on. |
| Transfers.TransferAccepted | backend/alembic/versions/20260825_0005_transfers_and_corrections.py:279-376 | The deferred transfer trigger accepts every transfer that the service commits, with exchange rate and with fee. |
| Transfers.TransferMoves | backend/app/application/transfers.py:78-216 | After a committed transfer, from its date on: the source has given the entered amount, the destination has received the same or what the exchange rate makes of it, the fee has left the account that pays it, and no other account has moved. |
| Transfers.TransferIsRecorded | backend/app/application/transfers.py:103-200 | The rows of the group in the order in which the transfer refers to them, with the fields of the command; no other table changes. |
| ReallocationGroup.LinesAndTransfersCorrespond | backend/alembic/versions/20260825_0005_transfers_and_corrections.py:467-535 | For any rows that the triggers accept, whoever wrote them, exactly-one match for each changed line and equal counts make a bijection between changed lines and transfers. |
| ReallocationGroup.AcceptedSessionReachesTargets | backend/alembic/versions/20260825_0005_transfers_and_corrections.py:467-535 | Whoever wrote the rows: applying the transfers of an accepted session to the before balances gives every account, the balancing one included, exactly its requested balance. |
| ReallocationGroup.AcceptedSessionTouchesOnlyLines | backend/alembic/versions/20260825_0005_transfers_and_corrections.py:467-535 | An accepted session leaves every account without a line alone. |
| Reallocation.ComputeReallocation | backend/app/domain/ledger/reallocation.py:48-137 | The loops over totals, targets and lines give the specified preview, error for error. |
| Reallocation.PreviewMeans | backend/app/domain/ledger/reallocation.py:48-137 | An accepted preview has one line for each selected account with its balance, honours every requested balance, keeps the others, and both its totals are the fixed total. |
| Reallocation.RecordPairs | backend/app/application/corrections.py:253-322 | The loop over the changed lines: after every turn each processed account has moved by its change and the balancing account has absorbed the opposite of the sum of changes; the set of involved accounts and the transfers are exactly those of the processed lines. |
| Reallocation.CommitReallocationInTransaction | backend/app/application/corrections.py:202-330 | Commits session, lines, movement pairs, transfers and version steps, or fails and changes nothing. |
| Reallocation.ReallocationShifts | backend/app/application/corrections.py:202-330 | A committed reallocation moves accounts only by its movement pairs, from its date on, keeps the rules of the ledger, and no account that may not be negative was taken below zero at the moment of the check. |
| Reallocation.ReallocationReachesTargets | backend/app/application/corrections.py:220-330 | After a committed call every selected account, the balancing one included, holds exactly the target of its line: the requested balance, the balance it had, or what is left of the fixed total. |
| Reallocation.ReallocationTouchesOnlySelected | backend/app/application/corrections.py:220-330 | No account without a line moves through a committed call, at any time. |
| Reallocation.FixedTotalIsConserved | backend/app/application/corrections.py:220-330 | The selected accounts together hold the fixed total before a committed call and after it. |
| Reallocation.LinesAreForTheSelection | backend/app/application/corrections.py:202-330 | A committed call names every account once and has a line for exactly the accounts that it names. |
| Reallocation.SessionIsRecorded | backend/app/application/corrections.py:220-252 | A committed call adds one session with the total, currency, balancing account and fingerprint of the command and the lines that were shown. |
| Reallocation.CommittedGroupAccepted | backend/alembic/versions/20260825_0005_transfers_and_corrections.py:467-535 | The session trigger and the transfer trigger accept the session and every transfer of a committed call. |
| Reconciliations.CommitReconciliationInTransaction | backend/app/application/corrections.py:108-187 | Commits the adjustment, the reconciliation row and the version step, or fails and changes nothing. |
| Reconciliations.ReconciliationShifts | backend/app/application/corrections.py:126-167 | The adjustment brings exactly the difference from its effective time on and was covered when it was checked. |
| Reconciliations.ReconciledBalances | backend/app/application/corrections.py:126-167 | At the effective time the balance is exactly the entered one; later balances of the account move by the same difference; earlier ones and other accounts not at all; a negative entry needs an account that allows it. |
| Reconciliations.ReconciliationAccepted | backend/alembic/versions/20260825_0005_transfers_and_corrections.py:388-412 | The trigger accepts the stored row for corrections of either sign. |
| Reconciliations.AcceptedReconciliationPostsDelta | backend/alembic/versions/20260825_0005_transfers_and_corrections.py:388-412 | Whoever wrote the rows: an accepted reconciliation posts exactly actual minus calculated, from its effective time on. |
| Reconciliations.ReconciliationIsRecorded | backend/app/application/corrections.py:126-167 | The stored row says what was entered, what was calculated and when, and points at the adjustment; no other table changes. |
| Groups.SessionStaysBalanced | backend/alembic/versions/20260825_0005_transfers_and_corrections.py:467-535 | Later transfers change neither the counts nor the matches of an earlier session. |
| Debts.CreateDebtInTransaction | backend/app/application/debts.py:208-316 | Creates the debt, and for cash origins the principal movement and the version step, or changes nothing; a shared-expense debt without its expense fails on the origin constraint. |
| Debts.RepayInTransaction | backend/app/application/debts.py:340-436 | Records payment, movement, status and versions, or changes nothing. |
| Debts.CancelDebtInTransaction | backend/app/application/debts.py:438-479 | Cancels a debt that is not settled, given a reason that is not blank, or changes nothing; it does not look at shares. |
| Debts.CreateDebtKeepsDebts | backend/alembic/versions/20260829_0006_debts_and_sharing.py:240-263 | A created debt passes its constraints and its trigger, and so does every other debt. |
| Debts.RepayKeepsDebts | backend/alembic/versions/20260829_0006_debts_and_sharing.py:240-263 | After a repayment the paid sum has grown by the amount and does not exceed the debt, the status is the one that the payments imply, and every debt passes its trigger. |
| Debts.CancelDebtKeepsDebts | backend/alembic/versions/20260829_0006_debts_and_sharing.py:240-263 | Cancelling keeps every debt acceptable to its trigger and its constraints, and only a debt with something left to pay, or an already cancelled one, is cancelled. |
| Debts.CreateDebtShifts | backend/app/application/debts.py:234-279 | Lending or borrowing cash moves one account by the principal from its date on and was covered; recording an existing debt moves nothing. |
| Debts.RepayShifts | backend/app/application/debts.py:371-416 | A repayment moves one account in the direction of the debt from its date on and was covered. |
| Debts.DebtIsRecorded | backend/app/application/debts.py:248-303 | A created debt has the person, direction, origin, amount and currency that were asked for, is open and created now, and is the only debt added; cash origins point at their posted movement. |
| Debts.RepaymentIsRecorded | backend/app/application/debts.py:371-416 | A repayment adds exactly one payment with its movement, and changes of the debt only status and version. |
| Debts.DebtIsCancelled | backend/app/application/debts.py:464-467 | Cancelling changes of all rows only the status, the time of cancellation and the version of one debt. |
| Debts.RepaidIff | backend/app/application/debts.py:340-372 | A payment is accepted if and only if the debt was not cancelled, the currency fits, the amount is at most what remains, and the account can post it; the debt is settled exactly by the payment of all that remains. |
| Sharing.CreateShareInTransaction | backend/app/application/sharing.py:70-149 | Creates debt and share, or changes nothing, the deferred trigger included. |
| Sharing.UpdateShareInTransaction | backend/app/application/sharing.py:167-284 | Adjusts or cancels share and debt together, or changes nothing, the cancellation constraint and the deferred trigger included. |
| Sharing.RefundInTransaction | backend/app/application/sharing.py:286-402 | Posts the refund with the category of its expense and steps the version of the account, or changes nothing. |
| Sharing.AcceptedIffNoneStranded | backend/alembic/versions/20260829_0006_debts_and_sharing.py:274-304 | In a state that keeps the recovery invariant the trigger accepts an expense exactly when none of its active shares has a cancelled debt. |
| Sharing.SharedIsSound | backend/app/application/sharing.py:89-100 | The guards of a new share keep refunds plus active shares within the expense and every share equal to the amount of its own debt. |
| Sharing.UpdatedIsSound | backend/app/application/sharing.py:207-264 | Guards and cancellation constraint together keep the same when a share is adjusted or cancelled. |
| Sharing.RefundedIsSound | backend/app/application/sharing.py:299-334 | The guards of a refund keep the same, and keep every refund in the currency of its expense and not before it. |
| Sharing.CreateShareOutcome | backend/alembic/versions/20260829_0006_debts_and_sharing.py:274-304 | A share that passes the guards commits if and only if no active share of the expense has a cancelled debt. |
| Sharing.UpdateShareOutcome | backend/alembic/versions/20260829_0006_debts_and_sharing.py:95-98 | An adjustment that passes the guards commits if and only if its debt was never cancelled and no other share of the expense is stranded; a cancellation needs only the latter. |
| Sharing.RefundOutcome | backend/alembic/versions/20260829_0006_debts_and_sharing.py:274-304 | A refund that passes the guards commits if and only if no active share of the expense has a cancelled debt. |
| Sharing.CancelStrands | backend/app/application/debts.py:438-479 | The debt service cancels the debt of an active share, nothing rejects it, and the recovery trigger would no longer accept the expense. |
| Sharing.StrandedWithPaymentsIsFinal | backend/app/application/sharing.py:212-224 | A stranded share on which something was paid can neither be adjusted nor cancelled. |
| Sharing.RefundShifts | backend/app/application/sharing.py:357-382 | A refund moves one account up by its amount from its date on. |
| Sharing.ShareIsRecorded | backend/app/application/sharing.py:110-135 | A share and its debt are recorded for the person and the amount that were asked for, and the amount counts against exactly that expense. |
| Sharing.ShareIsUpdated | backend/app/application/sharing.py:211-264 | An adjusted share and its debt have the new amount, a cancelled share and its debt are cancelled and keep theirs; nothing else of both rows changes but versions and the status of the debt. |
| Sharing.RefundIsRecorded | backend/app/application/sharing.py:335-382 | A refund is posted as it was asked for, points at its expense, has the category of the expense, and counts against exactly that expense. |
| Sharing.SharedIff | backend/app/application/sharing.py:70-149 | A share is accepted if and only if the expense is posted and has no stranded share, the currency fits, the person is known and has no share yet, and the amount is at most what is neither refunded nor shared. |
| Sharing.RefundedIff | backend/app/application/sharing.py:286-356 | A refund is accepted if and only if the expense is posted and has no stranded share, the date is not before it, the amount is at most what is neither refunded nor shared, and the account can post it. |
| Sharing.AdjustedIff | backend/app/application/sharing.py:207-264 | An adjustment is accepted if and only if the share is active and current and the amount lies between what was paid on it and what the expense has left for it. |
| Sharing.ShareCancelledIff | backend/app/application/sharing.py:211-229 | A share is cancelled if and only if nothing was paid on it, a reason is given, and no other share of its expense is stranded. |
| StrandedShares.RunsKeepStranded | backend/app/application/debts.py:438-479 | Over any run of all services such a share stays as it is. |
| StrandedShares.ExpenseIsLocked | backend/alembic/versions/20260829_0006_debts_and_sharing.py:274-304 | From then on, whatever else is called, that expense takes no further share, no refund and no change of any of its shares. |
| Witnesses.GuardsAloneRevive | backend/app/application/sharing.py:240-264 | After a run from the empty ledger, for any shared part above one half: the guards and even the recovery trigger would let a cancelled share be adjusted, so that more is owed than was spent; only the cancellation constraint refuses it. |
| Witnesses.PaidSharesCanBeStranded | backend/app/application/debts.py:438-479 | A run from the empty ledger, all of whose calls succeed, after which an active share with a payment on it has a cancelled debt. |
| Accounts.OpenAccountInTransaction | backend/app/application/accounts.py:50-118 | Opens the account with the given terms, or changes nothing. |
| Accounts.EditAccountInTransaction | backend/app/application/accounts.py:166-297 | Applies the requested values field by field and steps the version once, or changes nothing. |
| Accounts.OpeningIsFrozen | backend/app/application/accounts.py:259-263 | Once anything is posted, no edit changes opening balance, currency or opening date. |
| Accounts.EditIsSound | backend/app/application/accounts.py:216-297 | Edits keep every movement in the currency of its account and not before its opening. |
| Accounts.EditBalances | backend/app/application/accounts.py:265-291 | An edit moves no balance once anything is posted, and an account that may not be negative after the edit is not negative at that moment. |
| Accounts.ReadOnlyAccounts | backend/app/domain/accounts/policies.py:30-54 | An archived or closed account changes in its status only: back to active, or from archived to closed. |
| Accounts.AccountIsOpened | backend/app/application/accounts.py:50-118 | A new account has the terms that were asked for and its opening balance at every time; no other row changes. |
| Accounts.AccountIsEdited | backend/app/application/accounts.py:216-297 | An accepted edit takes effect field by field; what it does not name stays, the version steps unless nothing was to change, and no other account is touched. |
| Acceptance.DraftedIff | backend/app/application/transactions.py:105-181 | A draft is accepted if and only if it is an expense or income of a positive amount in the currency of an account that was open by then; the account need not be active and its balance is not looked at. |
| Acceptance.PostedIff | backend/app/application/transactions.py:360-427 | In a sound ledger a draft is posted if and only if the call names its version and its account can post it: active, open by then, at most five minutes ahead, and covered where it may not be negative. |
| Acceptance.ReversedIff | backend/app/application/transactions.py:468-505 | In a sound ledger a posted expense or income is reversed if and only if the call names its version and a date not before it and its account can post the opposite. |
| Acceptance.WholeBalanceCanBePosted | backend/app/application/transactions.py:763-791 | An account that may not be negative can pay out every amount up to its whole balance at the moment of the check, and a larger one is refused for that reason. |
| Acceptance.CashDebtIff | backend/app/application/debts.py:208-279 | Cash is lent or borrowed if and only if direction and origin agree, all fields of the movement are given, and the account can post the principal. |
| Acceptance.CancelledIff | backend/app/application/debts.py:449-463 | A debt is cancelled, for a reason of at most a thousand characters, if and only if the call names its version, it is not settled, and the reason is not all blank. |
| Acceptance.EditedIff | backend/app/application/accounts.py:240-297 | A change of an active account is accepted if and only if its opening terms stay or nothing is posted, the account would not be below zero now against its policy, and its movements stay in its currency. |
| Acceptance.LifecycleIff | backend/app/domain/accounts/policies.py:30-54 | An inactive account accepts a change if and only if it is of the status alone, to active, or from archived to closed. |
| Acceptance.ReconciledIff | backend/app/application/corrections.py:108-187 | Every entered balance other than the calculated one is accepted if and only if the account is active and open, the currency fits, and an account that may not be negative is not below zero at the effective time nor now. |
| Acceptance.TransferredIff | backend/app/domain/ledger/transfers.py:61-180 | A transfer is previewed, and with that preview committed, if and only if its accounts differ, its amounts are positive and fit currencies and rate, and each of its accounts can bear it. |
| Acceptance.ReallocatedIff | backend/app/domain/ledger/reallocation.py:48-137 | Where no selected account is in debt and the balancing account may not be, a reallocation is previewed if and only if what the other accounts are to hold fits into the fixed total. |
| Acceptance.StalePreviewsAreTold | backend/app/application/transfers.py:91-96 | A command that could be carried out but was shown another preview is refused as stale, for transfers, reallocations and reconciliations. |
| Acceptance.ObjectionsStopTheCall | backend/app/application/transactions.py:105-427 | What the catalogue objects to stops a draft, an edit and a posting that would otherwise succeed, with that objection. |
| Runs.StepPosts | backend/app/application/ledger_posting.py:11-41 | Every service step but an account edit posts its own rows under the balance policy, moves nothing else, and bumps exactly the accounts that it posts to. |
| Runs.PostingsAreAllowed | backend/app/domain/ledger/transactions.py:30-37 | No service posts to an account that is archived or closed, before its opening, or with a date more than five minutes ahead; for a reversal the opening follows from the rule on its original. |
| Runs.StepKeepsGroups | backend/alembic/versions/20260825_0005_transfers_and_corrections.py:279-535 | Every step of every service keeps all transfers, sessions and reconciliations acceptable to their triggers. |
| Runs.RunsKeepTheInvariant | backend/alembic/versions/20260825_0005_transfers_and_corrections.py:279-535 | Whatever services are called in whatever order, every reachable state satisfies the rules of movements, debts, recoveries, transfers, sessions and reconciliations. |
| Runs.RunsGuardHistory | backend/alembic/versions/20260825_0004_core_ledger.py:188-231 | Over any run posted movements keep their fields, their status moves only forward, and specialised movements do not change at all. |
| Runs.RunsKeepGroupRows | backend/alembic/versions/20260825_0005_transfers_and_corrections.py:650-668 | No service changes or removes a transfer, a session with its lines, a reconciliation or a payment. |
| Runs.EverySessionReachedItsTargets | backend/alembic/versions/20260825_0005_transfers_and_corrections.py:467-535 | In every state reachable from the empty ledger every session ever committed brought each of its accounts from the balance shown to the balance asked for. |
| Links.RunsPassTheLinkTrigger | backend/alembic/versions/20260829_0006_debts_and_sharing.py:317-330 | In every state reachable from the empty ledger the link trigger accepts every movement row: it is referred to by the row that it was posted for, the rows of a transfer have one status, an adjustment fits its reconciliation, and a refund has its expense. |
| Freshness.PostingBumps | backend/app/application/transfers.py:184-191 | Every step that posts to an account increases that account's version. |
| Freshness.RunsAreFresh | backend/app/application/corrections.py:166-167 | Over any run versions never go back, and an account whose version is unchanged has the same row and the same balance at every time. |
| Freshness.TransferActsOnPreview | backend/app/application/transfers.py:91-96 | A transfer that commits after any run of other operations acts on accounts whose rows and ledgers are exactly those that were previewed. |
| Freshness.ReallocationActsOnPreview | backend/app/application/corrections.py:214-219 | The same for a reallocation. |
| Freshness.ReconciliationActsOnPreview | backend/app/application/corrections.py:120-125 | The same for a reconciliation, for the same account and the same effective time. |
| Freshness.TransferCommitsIffUnmoved | backend/app/application/transfers.py:78-96 | Whatever was called since the preview, the transfer that was shown commits if and only if the versions of its accounts stand still and nothing that was dated ahead has come due on them. |
| Freshness.ReallocationCommitsIffUnmoved | backend/app/application/corrections.py:202-219 | The same for a reallocation that was shown to change something. |
| Freshness.ReversedOnceInAnyRun | backend/app/application/transactions.py:468-547 | Over any run a movement that was reversed once is never reversed again. |
| Freshness.NoLostUpdates | backend/app/application/transactions.py:825-832 | A row was read, then any services were called, then a call names the version that had been read: if it succeeds, nobody has changed the row in between, nor the ledger of the account or the payments of the debt. |
| Safety.GuardProtectsIffNoDip | backend/app/application/transactions.py:763-791 | The check before an outflow protects an account from then on if and only if no later-dated movement takes it below its balance at the moment of the check (or it lets nothing through at all). |
| Safety.StepIsSafe | backend/app/application/debts.py:502-528 | A step that takes money only from accounts without a later dip leaves every account that may not be negative at or above zero from now on. |
| Safety.RunsAreSafe | backend/app/application/corrections.py:384-420 | The same over whole runs of all services, account edits included. |
| Safety.OnTimeRunsAreSafe | backend/app/application/accounts.py:265-291 | As long as nothing is dated ahead of the clock, no account that may not be negative is ever below zero, after any sequence of postings, reversals, transfers, reallocations, backdated reconciliations, loans, repayments, refunds and edits. |
| Safety.DatedAheadOverdraws | backend/app/application/transactions.py:763-791 | Without that condition the promise fails: two accepted postings of 50 from a balance of 50, the first dated four minutes ahead, end at -50. |
| Idempotency.RunsKeepInvariant | backend/app/application/idempotency.py:99-147 | Every interleaving of any number of clients that retry, fail and crash keeps the invariant of locks, records, executions and replies, also when two keys share an advisory lock id. |
| Idempotency.ExactlyOnce | backend/app/application/idempotency.py:99-147 | Two committed executions of one key have disjoint lifetimes: none starts before the record of the other has expired. |
| Idempotency.AnswersAgree | backend/app/application/idempotency.py:121-133 | Every successful reply while a record lives has the status and body of its execution, and its request had the same canonical text. |
| Idempotency.ConflictsAreReal | backend/app/application/idempotency.py:121-126 | A conflict is reported only to a request that differs from the live one. |
| Idempotency.CommitsSucceed | backend/app/application/idempotency.py:135-147 | The unique constraint never refuses a client that has executed; its commit publishes exactly its own execution and record. |
| Idempotency.UncommittedLeavesNothing | backend/app/application/idempotency.py:99-147 | Over any run in which a client never commits, whatever the others do and wherever it fails or crashes, no execution, no record and no fresh reply of that client appears. |
| Idempotency.Store.ExecuteIdempotent | backend/app/application/idempotency.py:74-164 | The coordinator as written: read, delete an expired record, run, insert; a failing operation leaves the table as it was. |
| Idempotency.SoloIsSequential | backend/app/application/idempotency.py:74-164 | The protocol taken by one client without interruption is the coordinator as written. |
| JsonContract.CanonicalDeterminesRequest | backend/app/application/json_contract.py:26-34 | Two requests have the same canonical text if and only if they are equal as JSON values, in whatever order their dictionaries were filled. |
| JsonContract.Readable | backend/app/application/json_contract.py:26-34 | Wherever a canonical text starts inside a longer text, it determines where it ends and what it stands for. |
| RefreshSessions.SessionTable.RevokeReplacementChain | backend/app/infrastructure/repositories/identity.py:59-77 | The walk with its visited set terminates and revokes exactly the sessions from the given one to the end of its chain, keeping earlier revocation times. |
| RefreshSessions.SessionTable.RefreshToken | backend/app/application/auth.py:198-270 | Rotates, detects reuse, or refuses, with the table changes that are committed even when the call fails. |
| RefreshSessions.SessionTable.LogoutToken | backend/app/application/auth.py:272-295 | Revokes the chain from the given session on. |
| RefreshSessions.SessionTable.AuthenticateAccess | backend/app/application/auth.py:297-321 | Accepts only a live session of the named active user, and such a session is the end of its chain. |
| RefreshSessions.PathIsAChain | backend/app/infrastructure/repositories/identity.py:59-77 | A chain is acyclic, each member is replaced by the next and revoked, and the end has no replacement. |
| RefreshSessions.OneLiveSession | backend/app/application/auth.py:242-253 | In every chain at most one session is not revoked, and it is the end. |
| RefreshSessions.EverySessionHasALogin | backend/app/application/auth.py:323-343 | Every session belongs to the chain of some login. |
| RefreshSessions.ChainsAreDisjoint | backend/app/application/auth.py:323-343 | The chains of different logins share no session. |
| RefreshSessions.RunsAge | backend/app/application/auth.py:198-295 | Over any run the chains keep their shape and no revocation, its time or a replacement is ever undone. |
| RefreshSessions.ReuseKillsTheChain | backend/app/application/auth.py:216-239 | Presenting a token that was replaced fails, and from then on, over any run, no session of its chain is live, before or after it. |
| RefreshSessions.SignOutEndsTheChain | backend/app/application/auth.py:272-295 | Signing out with any token of a chain, even a replaced one, ends the whole chain for good. |
| RefreshSessions.AcceptedOnlyAtTheEnd | backend/app/application/auth.py:297-321 | An access token is accepted if and only if its session is the live end of a chain of its active user. |
| RefreshSessions.ExchangedOnlyAtTheEnd | backend/app/application/auth.py:209-265 | A refresh token is exchanged if and only if its session is the live end of a chain of an active user. |
| RefreshSessions.ExchangeMovesTheEnd | backend/app/application/auth.py:242-265 | A successful exchange was made with the live end, and moves the end to the one new session, which belongs to the same user and expires as asked; no other session changes. |
| RefreshSessions.PathHasOneUser | backend/app/application/auth.py:245-249 | Where every replacement has the user of what it replaced, all sessions of a chain have the user of its first one. |
| RefreshSessions.AcceptedOnlyForItsLogin | backend/app/application/auth.py:297-343 | After any run from the empty table an access token is accepted only for the user who signed in at the head of the chain of its session. |
| RefreshSessions.ReuseMarksExactlyTheRest | backend/app/application/auth.py:216-239 | Reuse marks the presented session and all that replaced it as compromised and revoked, keeps earlier revocation times, and touches no session off that path. |
| RefreshSessions.SigningOutRevokesExactlyTheRest | backend/app/application/auth.py:272-295 | Signing out revokes the same sessions, marks none as compromised, and touches no other. |
| RefreshSessions.RefusedTokensAreRevoked | backend/app/application/auth.py:227-241 | A token that is refused without having been replaced is revoked by the refusal, and nothing else changes. |
| RefreshSessions.OtherLoginsAreUntouched | backend/app/application/auth.py:198-295 | Whatever one login presents, every session of every other login stays as it is. |
| Throttles.ThrottleTable.FailedLogin | backend/app/application/auth.py:366-405 | Turned away while blocked; otherwise counted in the current or a new window, and blocked once the limit is reached. |
| Throttles.ThrottleTable.RightPassword | backend/app/application/auth.py:152-171 | The right password is turned away while blocked like any other, and otherwise clears the row. |
| Throttles.BlockedForALockout | backend/app/application/auth.py:366-405 | A failure that reaches the limit blocks exactly until a lockout later; a failure after the window starts a new one, and one inside it is added. |
| Throttles.WindowsAreBounded | backend/app/application/auth.py:366-405 | Whenever attempts come, no window records more than login_max_attempts + ceil(window / lockout) - 1 failures. |
| Throttles.BoundIsReached | backend/app/application/auth.py:366-405 | The bound is exact: some sequence of attempts reaches it. |
| Analytics.Pass | backend/app/application/analytics.py:240-311 | The single pass yields, for every figure, every trend bucket and every row by category, merchant, branch and account, the sum over exactly the transactions that belong there, for any transactions, reversals, shares and missing rates; and the set of currencies without rate. |
| Analytics.BuildDashboard | backend/app/application/analytics.py:196-311 | The dashboard of a period is that pass over the transactions of the period; it fails only with the error of a transaction that has no original or no bucket. |
| Analytics.TallyAdd | backend/app/application/analytics.py:296-302 | Adding a contribution to its row keeps every row and the sum of all rows equal to the declared sums. |
| Analytics.DroppingZeroesKeepsTotals | backend/app/application/analytics.py:644-661 | Leaving out rows that are zero keeps the total. |
| Analytics.FiguresAddUp | backend/app/application/analytics.py:240-311 | Personal spending is the sum of the category rows shown, of the merchant rows, of the branch rows and of the trend; cash in and out are the sums of the account rows and of the trend. |
| Analytics.ReversalCancels | backend/app/application/analytics.py:578-595 | An expense or income and its reversal at unchanged value cancel in gross, personal spending and income, and fall into the same rows. |
| Analytics.PeriodHasBuckets | backend/app/application/analytics.py:626-641 | With the buckets of the period no transaction whose local day lies in it is without its bucket. |
| CashFlow.AccountRowsExplainBalances | backend/app/application/analytics.py:281-294 | Inflow less outflow of an account row, corrected by reconciliations, is exactly the change of that account's ledger balance over the period. |
| CashFlow.EarnedLessSpentIsCash | backend/app/domain/ledger/classification.py:45-101 | For expenses, incomes, fees and refunds income less gross spending is the cash they moved; every other kind counts as neither. |
| CashFlow.ReversedEarningsAreCash | backend/app/domain/ledger/classification.py:114-122 | The same for reversals. |
| Spending.RowSpends | backend/app/application/analytics.py:240-302 | In a sound ledger, whatever kind a row of the period has: gross is what it spends, personal is that less what other people owe for it, and it falls into the category and the shop of its original. |
| Spending.ExpenseIsPersonal | backend/app/application/analytics.py:450-470 | An expense counts for its amount less the active shares recorded by the bound, which is never less than nothing nor more than was spent. |
| Spending.RefundIsPersonal | backend/app/application/analytics.py:578-590 | A refund counts for minus its amount, in the category and the shop of its expense. |
| Spending.ReversalIsPersonal | backend/app/application/analytics.py:591-595 | The reversal of an expense takes back exactly what its owner bore of it, from the same category and shop. |
| Spending.PersonalSpendingIsWhatIsBorne | backend/app/application/analytics.py:240-302 | Over any period gross spending is what its rows spent, and it exceeds personal spending by what other people owe: each active share once for an expense of the period, less once for an expense undone in it. |
| Spending.DashboardNeverFails | backend/app/application/analytics.py:578-595 | In every sound ledger the pass succeeds over any period: no refund and no reversal lacks its original, no row lacks its bucket. |
| Spending.NothingIsLeftOutSilently | backend/app/application/analytics.py:240-264 | When an expense or its reversal reports no missing rate, its amount and what is owed for it have both been converted at its own date. |
| NetPosition.ComputeMoneyInAccounts | backend/app/application/analytics.py:405-428 | The loops compute the sum, over accounts included and open by then, of their ledger balance just before the bound, converted. |
| NetPosition.ComputeNetReceivables | backend/app/application/analytics.py:431-447 | The loops compute the signed sum of what remains of every debt that is recorded by then and not cancelled. |
| NetPosition.CashDebtsKeepNetWorth | backend/app/application/debts.py:248-316 | Lending or borrowing cash leaves the net position unchanged if and only if the date of the movement and the moment of recording lie on the same side of the bound. |
| NetPosition.RepaymentsKeepNetWorth | backend/app/application/debts.py:371-416 | A repayment leaves the net position unchanged if and only if it is dated after the bound or its debt was recorded before it. |
| NetPosition.RecordedDebtsCount | backend/app/application/analytics.py:431-447 | Recording a debt of any origin changes the net receivables by its amount, in the direction that was asked for, once the bound lies after the recording. |
| NetPosition.ExistingDebtsChangeNetWorth | backend/app/application/debts.py:248-303 | A debt that existed before moves no money, so the net position changes by all of it, with the sign of the direction asked for. |
| NetPosition.CancellationWritesOff | backend/app/application/debts.py:464-467 | Cancelling a debt changes the net position by exactly what remained of it, unless it had been cancelled before or was recorded later than the bound. |
| NetPosition.OpenedAccountsCount | backend/app/application/analytics.py:405-428 | A new account adds its opening balance to the money in accounts if and only if it is included and open by the bound. |
| Witnesses.BackdatedLoansShowAsLosses | backend/app/application/debts.py:248-316 | After a run from the empty ledger cash lent before the bound and recorded after it changes the net position. |
| Witnesses.BackdatedRepaymentsShowAsGains | backend/app/application/debts.py:371-416 | After a run from the empty ledger a repayment dated before the bound, of a debt recorded after it, changes the net position. |
| NetPosition.TransfersKeepNetWorth | backend/app/application/transfers.py:78-216 | A transfer without fee between two counted accounts of the base currency never changes the net position. |
| Calendar.BucketDates | backend/app/application/analytics.py:626-641 | The bucket loop terminates and yields a strictly increasing list without gaps that starts at the first bucket and ends with the last one not after the bound. |
| Calendar.TwentyEighthPlusFour | backend/app/application/analytics.py:635-636 | The 28th plus four days lies in the next month for every month of every year, leap years included. |
| Calendar.BucketOfDay | backend/app/domain/analytics/policies.py:90-101 | A day belongs to a bucket if and only if it lies from its start to before the start of the next. |
| Calendar.EveryDayHasABucket | backend/app/domain/analytics/policies.py:90-101 | Every day from the first bucket up to the bound has its bucket in the list. |
| Calendar.BeforeIsOrdinal | backend/app/domain/analytics/policies.py:90-101 | Comparing dates field by field is comparing proleptic Gregorian day numbers. |
| Calendar.AnchoredDatesDoNotDrift | backend/app/domain/planning/policies.py:42-64 | With its anchor day the n-th monthly, quarterly or yearly due date lies exactly n periods later on the anchor day or the last day of a shorter month. |
| Calendar.AnchoredDatesFall | backend/app/domain/planning/policies.py:42-64 | In plain months and years: monthly n months on, quarterly three times as many, yearly in the same month n years on, always on the anchor day or the last day of a shorter month. |
| Calendar.WeeklyDates | backend/app/domain/planning/policies.py:42-64 | Weekly rules advance by seven days each time. |
| Calendar.DueDatesGrow | backend/app/domain/planning/policies.py:42-64 | Every advance is strictly later. |
| Calendar.DriftsIffAMonthIsShort | backend/app/domain/planning/policies.py:42-64 | Without an anchor day, which the function allows, a rule never drifts if and only if no month on its way is shorter than the day it starts on. |
| Calendar.MonthlyRulesDriftAfterThe28th | backend/app/domain/planning/policies.py:42-64 | A monthly rule without anchor never drifts if and only if it starts on one of the days 1 to 28. |
| Calendar.YearlyRulesDriftOnLeapDays | backend/app/domain/planning/policies.py:42-64 | A yearly rule without anchor drifts if and only if it starts on 29 February. |
| Catalog.ValidateParent | backend/app/application/catalog.py:290-338 | The ancestor walk terminates by the categories not yet visited, never reports a cycle where there is none, and refuses a parent exactly when it is the category itself, missing, archived, of the wrong kind, or below the category. |
| Catalog.CategoryTable.Create | backend/app/application/catalog.py:74-112 | Creates the category or changes nothing, and keeps the hierarchy sound. |
| Catalog.CategoryTable.Update | backend/app/application/catalog.py:126-199 | Updates the category field by field or changes nothing, and keeps the hierarchy sound: a forest in which every active child has an active parent that accepts its kind. |
| Catalog.MovedForest | backend/app/application/catalog.py:290-338 | Moving a category, with all below it, under one that is not below it keeps the forest. |
| Catalog.UpdateIsSound | backend/app/application/catalog.py:144-183 | Every accepted update, of kind, parent or archive state, keeps the hierarchy sound. |
| Catalog.CyclesAreRefusedExactly | backend/app/application/catalog.py:315-338 | A new parent keeps the forest if and only if it is not below the category. |
| Catalog.CategoryIsCreated | backend/app/application/catalog.py:74-112 | A new category has the kind and the parent that were asked for, and is the only row added. |
| Catalog.CategoryIsUpdated | backend/app/application/catalog.py:126-199 | An accepted update takes effect field by field, leaves what it does not name, and changes no other category. |
| Catalog.UpdatedIff | backend/app/application/catalog.py:126-199 | An update at the current version is accepted if and only if a new kind has neither active children nor history against it, no active children are left under an archived category, and the parent is none, or an active other one that accepts the kind and is not below it. |
| Planning.Planner.ProcessDue | backend/app/application/planning.py:234-285 | Processes the due rules one by one, or changes nothing, and keeps the plan sound. |
| Planning.Planner.Record | backend/app/application/planning.py:287-328 | Creates the draft of a due occurrence, is a no-op on one that has its draft, or changes nothing. |
| Planning.Planner.Skip | backend/app/application/planning.py:330-358 | Skips a due occurrence, or changes nothing. |
| Planning.Planner.PostTransaction | backend/app/application/transactions.py:424-453 | Posting a draft records the one occurrence that waits for it. |
| Planning.ProcessedRule | backend/app/application/planning.py:246-283 | One due rule gets its occurrence, as draft or as reminder by its mode, is advanced once, gets no second occurrence for the same time, and nothing else changes. |
| Planning.EveryDueRuleIsProcessed | backend/app/application/planning.py:246-283 | After processing every rule that was due has an occurrence for the time it was due and has been advanced exactly once. |
| Planning.RunsKeepPlan | backend/alembic/versions/20260830_0008_planning.py:151-177 | Over any run of planning and ledger services, rule edits backwards included: at most one occurrence for each rule and time, each transaction linked at most once, a draft exactly while the occurrence says so, posted once recorded. |
| Planning.RunsAge | backend/app/application/planning.py:287-358 | Over any run an occurrence that was recorded or skipped stays as it is, a draft can only be recorded, and no occurrence changes its rule, its time or its transaction. |
| Planning.NoDateIsLeftOut | backend/app/application/planning.py:246-283 | Over any run in which a rule is not edited, with an advance that is always later: its occurrences have grown by exactly its successive due dates, in order, none twice and none left out, and the rule stands at the next one. |
| Planning.NewRulesHaveAllTheirDates | backend/app/application/planning.py:246-283 | In particular the occurrences of an added rule are its due dates from the first one on. |
| Planning.ProcessedDraft | backend/app/application/planning.py:246-262 | The occurrence that a due rule gets, and for automatic drafts its movement: account, kind, amount, currency and category of that rule, dated as scheduled; nothing else changes in the ledger. |
| Planning.RecordedDraft | backend/app/application/planning.py:303-313 | The draft that a reminder gets when it is recorded holds the terms of its own rule and its own date. |
| Planning.ProcessingMakesDrafts | backend/app/application/planning.py:246-283 | Whatever rules are processed together: each new draft holds the terms of the rule of its own occurrence and the date of that occurrence, and each new movement is such a draft. |
| Planning.EveryDraftHeldItsRule | backend/app/application/planning.py:545-573 | Over any run every occurrence that has come to a transaction was given it by one call, and what that call drafted had the terms that the rule had at the time and the date that the occurrence is scheduled for. |
| Planning.RuleIsAdded | backend/app/application/planning.py:108-154 | A new rule has the terms and the first date that were asked for, and is active. |
| Planning.RuleIsEdited | backend/app/application/planning.py:156-222 | An accepted edit changes everything that it names except the kind, only on its own rule, and no occurrence. |
| Planning.RecordedIff | backend/app/application/planning.py:287-328 | A reminder is recorded if and only if it is due and its rule describes a draft that its account could take; one that has its draft is left as it is. |
| Planning.ProcessedIff | backend/app/application/planning.py:246-283 | A due rule is processed if and only if it has its occurrence already, only reminds, or describes a draft that its account could take. |
| Planning.LinkedDrafts | backend/app/application/transactions.py:428-440 | Read from the transaction: a linked one is a draft if and only if its occurrence is DRAFT_CREATED, was posted if and only if it is RECORDED, and has no second occurrence. |
| Purchases.RequireItems | backend/app/application/transactions.py:682-716 | The loop over the lines with its running total and its set of seen ids gives the specified verdict, error for error. |
| Purchases.LinesAgree | backend/app/domain/purchases/policies.py:12-20 | A line is the same in 28-digit decimals and in the exact constraint, or too large for any purchase in both. |
| Purchases.ServiceAndDatabaseAgree | backend/alembic/versions/20260829_0007_purchase_intelligence.py:364-388 | For every purchase that the request schema admits the service accepts the lines if and only if the checks on the lines and the total trigger do. |
| Purchases.HalfUpDiffersOnEvenTies | backend/alembic/versions/20260829_0007_purchase_intelligence.py:256-261 | The first form of the line constraint, rounding ties away from zero, differs from half-even rounding exactly on ties with an even lower neighbour. |
| Purchases.FirstConstraintRefusesTies | backend/alembic/versions/20260901_0009_consistent_decimal_rounding.py:16-28 | Half a unit at 0.0001 is such a line; the replaced constraint accepts it. |
| PortableText.UuidReadsBack | backend/app/application/privacy.py:504-512 | The 36-character text of an identifier is read back as the identifier. |
| PortableText.MomentReadsBack | backend/app/application/privacy.py:504-512 | The ISO text of a moment, with or without fraction, is read back to the microsecond. |
| PortableText.DateReadsBack | backend/app/application/privacy.py:504-512 | The ISO text of a date is read back as the date. |
| PortableText.NumberReadsBack | backend/app/application/privacy.py:504-512 | The plain text of a decimal of any sign and scale is read back with its trailing zeroes. |
| Backup.PortableBackup | backend/app/application/privacy.py:174-223 | The loops over tables and rows write the specified document. |
| Backup.ValidatePortableBackup | backend/app/application/privacy.py:348-425 | The loops over sections and rows with the running count give the specified verdict, error for error. |
| Backup.CanonicalReadersReadBack | backend/app/application/privacy.py:458-488 | Readers of the canonical texts understand whatever the writer writes. |
| Backup.BackupRoundTrip | backend/app/application/privacy.py:174-223 | Validating what was written returns the same typed rows if and only if rows and media together stay within 100000; the writer does not look at that limit, and a larger document is refused as too large. |
| Backup.ProfileReadsBack | backend/app/application/privacy.py:174-223 | The profile that validation hands on is the one that was written, field by field. |
| Backup.DocumentIsLabelled | backend/app/application/privacy.py:174-223 | The document carries its format, version, time and media as they were given. |
| Backup.OldBackupGetsDefaults | backend/app/application/privacy.py:428-456 | A version 1 document, the same rows without the later columns, validates to the day of the due date in the zone of the rule and to empty package sizes. |

## Left out

- Owners: every table is that of one owner; ownership columns and the checks on them are not modelled, so neither is a foreign account.
- Identifiers: a row's position stands for its UUID; collisions of client-supplied identifiers and their error codes are not modelled.
- Row locks and isolation: ledger, session and planning services run one after the other; only the idempotency coordinator is modelled step by step under interleaving.
- Text, notes, names, tags, counterparties and audit events do not influence any modelled rule and are left out, and so are merchants and products beyond their ids.
- History.PostedRowsAreFrozen: the columns for notes, counterparties, owner and client operation, and the ban on deletion, are not in the row; no modelled service deletes a movement.
- Transactions.CreateDraftInTransaction: the checks on category, tags, shop and purchase lines are one parameter, the error they raise, if any. Itemised lines are modelled in `Purchases` on their own.
- Transactions.UpdateDraftInTransaction: all fields are supplied at once, and the checks on the catalogue are one parameter.
- Transactions.PostDraft: the checks on the catalogue are one parameter.
- Transfers.CommitTransferInTransaction: the guards on duplicate identifiers of the movements, the fee among them, are not modelled.
- Debts.CreateDebtInTransaction: whether the person exists and whether an identifier was supplied for the movement are flags in the command.
- Sharing.CreateShareInTransaction: whether the person exists is a flag in the command.
- Sharing.RefundInTransaction: the tags and the counterparty that are copied from the expense are not modelled.
- Accounts.OpenAccountInTransaction: the checks on the name, the sort order and the identifier are not modelled.
- Accounts.EditAccountInTransaction: name, type and sort order are one flag.
- SHA-256, UUIDv5, password hashing and token signing are opaque; fingerprints are modelled as the data that is hashed, request hashes as the canonical text.
- Calendar.AnchoredDatesDoNotDrift: speaks about local dates; the time of day of a due date and its shifts with daylight saving time are not modelled, because time-zone tables are opaque.
- Calendar.WeeklyDates: local dates only, like the row above.
- Calendar.DueDatesGrow: local dates only.
- Calendar.DriftsIffAMonthIsShort: local dates only.
- Catalog.CategoryTable.Update: whether posted history forbids the new kind is a flag in the command.
- Planning.Planner.Record: the catalogue checks on the draft are a parameter.
- Planning.NoDateIsLeftOut: takes the advance of a rule as any function that is strictly later; that the local dates of the source are is `Calendar.DueDatesGrow`.
- Acceptance.ReallocatedIff: is stated for accounts that hold nothing below zero; elsewhere the running totals of the preview can leave the storage range in between, and what an accepted preview guarantees is `Reallocation.PreviewMeans`.
- Purchases.RequireItems: the checks on a line's description and product are flags on the line.
- Backup.ValidatePortableBackup: the columns of the tables and the readers of texts are parameters.
- Throttles.WindowsAreBounded: takes the attempts in the order of their times. `login` reads the clock before it takes the advisory lock (backend/app/application/auth.py:147-152), so this is an assumption on the clock and on the order of arrival.
- Planning.Planner.ProcessDue: the rows that the query for due rules returns, with its limit, its order and its skipping of locked rows, are a parameter, and so are the catalogue checks on the drafts.
- Analytics.BuildDashboard: takes the conversion of currencies as an arbitrary partial function and the local date of a moment as an arbitrary function; the choice of the latest rate and the division by an inverse rate are not modelled.
- Display rounding, sorting and truncation of dashboard rows, source ids, spending insights, products and package prices, and tag rows, which count a transaction once for each tag.
- Money values outside the storage range are one error code, and so is a value that Python cannot quantise within the digits of its context; inputs that are not finite or have more than four decimals are refused before the model begins.
- Runs.RunsKeepTheInvariant: the clauses of the session trigger on the policy and the currency of the accounts are proved when a session commits (`Reallocation.CommittedGroupAccepted`), not in later states, because an account may be edited later.
- Backdated reversals and refunds: nothing is claimed about how a reversal of an expense accounts for its earlier refunds.
- Backup.BackupRoundTrip: is about the document; replaying a restored document into the database is not modelled. Besides the spelling that the writer uses Python reads others: the round trip holds for all readers that understand what the writer writes, and the canonical readers are one instance.
- JSON: floats, non-string keys and other unsupported values are refused by type before the canonical text is built.
- Registration, savings goals, CSV export, media, merchants and products services, banking and OCR stubs, HTTP routing, and the mobile and web clients.
