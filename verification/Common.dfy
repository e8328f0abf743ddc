/** Option, Result and the error codes that the application services raise. */
module Common {

  datatype Option<+T> = None | Some(value: T)

  /** The outcome of a service call; an error means that the database transaction rolls back. */
  datatype Result<+T> = Ok(value: T) | Err(error: Error) {
    predicate IsFailure() { Err? }

    function PropagateFailure<U>(): Result<U>
      requires Err?
    {
      Err(error)
    }

    function Extract(): T
      requires Ok?
    {
      value
    }
  }

  function OrElse<T>(o: Option<T>, otherwise: T): T { if o.Some? then o.value else otherwise }

  datatype Unit = Unit

  /** Checks one guard: `var _ :- Need(condition, error);` */
  function Need(condition: bool, error: Error): Result<Unit> {
    if condition then Ok(Unit) else Err(error)
  }

  datatype Error =
    | AccountNotFound
    | AccountReadOnly
    | AccountClosed
    | AccountHasActivity
    | AmountOutOfRange
    | BalancingAccountIsDerived
    | BalancingAccountRequired
    | CancellationReasonRequired
    | CurrencyMismatch
    | DebtDirectionMismatch
    | DebtAlreadySettled
    | DebtNotFound
    | DebtNotOpen
    | DebtOverpayment
    | DuplicateAccount
    | DuplicateItemId
    | ExpenseNotFound
    | ExpenseNotPosted
    | FinancialIntegrityConflict
    | FxAmountMismatch
    | IntegrityError
    | InvalidDebtOrigin
    | InvalidFxRate
    | InvalidItemQuantity
    | InvalidLineTotal
    | InvalidOpenedAt
    | InvalidTransactionText
    | NegativeBalanceNotAllowed
    | NonPositiveAmount
    | NoReallocationChanges
    | NoReconciliationNeeded
    | PersonNotFound
    | ReallocationRequiresMultipleAccounts
    | RefundBeforeExpense
    | RefundConflictsWithShares
    | RefundExceedsRemaining
    | ReversalBeforeOriginal
    | SameTransferAccount
    | ShareAlreadyExists
    | ShareAmountRequired
    | ShareBelowPaidAmount
    | SharedExpenseCapExceeded
    | ShareHasPayments
    | ShareNotFound
    | SpecializedReversalRequired
    | StaleBalance
    | TooManyItems
    | TransactionAlreadyReversed
    | TransactionBeforeAccountOpened
    | TransactionDetails
    | TransactionInFuture
    | TransactionNotDraft
    | TransactionNotFound
    | TransactionNotPosted
    | UnauthorizedEntity
    | UnsupportedTransactionType
    | VersionConflict
    | CategoryNotFound
    | CategoryParentInvalid
    | CategoryKindMismatch
    | CategoryHasActiveChildren
    | CategoryInUse
    | CatalogIdConflict
    | OccurrenceNotFound
    | OccurrenceNotRecordable
    | OccurrenceNotSkippable
    | RecurringRuleNotFound
    | BackupInvalid
    | BackupFormatUnsupported
    | BackupTooLarge
    | InvalidRefreshToken
    | TokenReuseDetected
    | InvalidCredentials
    | AuthRateLimited
    | OriginalMissing
    | BucketMissing
    | ArithmeticOverflow
}
