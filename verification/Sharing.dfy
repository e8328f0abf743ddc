/** Shared expenses and refunds: how much of an expense can be recovered, and from whom. */
module Sharing {
  import opened Common
  import opened Sums
  import opened Ledger
  import opened History
  import opened Debts

  // ---- The database rule for one expense ----

  function RefundOn(e: nat): Movement -> int {
    (m: Movement) => if m.kind == Refund && m.parent == Some(e) && AffectsBalance(m.status) then m.amount else 0
  }

  function RefundTotal(s: State, e: nat): int { SumOf(s.movements, RefundOn(e)) }

  function ActiveShareOn(e: nat): Share -> int {
    (share: Share) => if share.active && share.transaction == e then share.amount else 0
  }

  function ShareTotal(s: State, e: nat): int { SumOf(s.shares, ActiveShareOn(e)) }

  predicate Recoverable(m: Movement) { m.kind == Expense && AffectsBalance(m.status) }

  predicate RefundCoherent(expense: Movement, refund: Movement) {
    refund.currency == expense.currency && refund.effect == Inflow && AffectsBalance(refund.status)
  }

  /** The debt behind a share is the receivable that the share says it is. */
  predicate ShareCoherent(s: State, expense: Movement, share: Share) {
    && share.debt < |s.debts|
    && var debt := s.debts[share.debt];
    && debt.origin == SharedExpense && debt.direction == Receivable
    && debt.person == share.person && debt.originTransaction == Some(share.transaction)
    && debt.amount == share.amount && debt.currency == expense.currency
  }

  /** An active share whose debt was cancelled behind its back. */
  predicate Stranded(s: State, share: Share) {
    share.active && share.debt < |s.debts| && s.debts[share.debt].status == Cancelled
  }

  predicate NoneStranded(s: State, e: nat) {
    forall i :: 0 <= i < |s.shares| && s.shares[i].transaction == e ==> !Stranded(s, s.shares[i])
  }

  /** `planit_validate_expense_recovery` for one expense. */
  predicate AcceptsExpense(s: State, e: nat) {
    && e < |s.movements|
    && Recoverable(s.movements[e])
    && RefundTotal(s, e) <= s.movements[e].amount
    && ShareTotal(s, e) <= s.movements[e].amount - RefundTotal(s, e)
    && (forall i :: 0 <= i < |s.movements| && s.movements[i].kind == Refund && s.movements[i].parent == Some(e) ==>
         RefundCoherent(s.movements[e], s.movements[i]))
    && (forall i :: 0 <= i < |s.shares| && s.shares[i].transaction == e ==>
         ShareCoherent(s, s.movements[e], s.shares[i]))
    && NoneStranded(s, e)
  }

  // ---- Guards ----

  function RequireExpense(s: State, e: nat): Result<Unit> {
    var _ :- Need(e < |s.movements| && s.movements[e].kind == Expense, ExpenseNotFound);
    Need(s.movements[e].status == Posted, ExpenseNotPosted)
  }

  predicate HasShare(s: State, e: nat, person: nat) {
    exists i :: 0 <= i < |s.shares| && s.shares[i].transaction == e && s.shares[i].person == person
  }

  // ---- Create a share ----

  datatype CreateShareCommand = CreateShareCommand(person: nat, personKnown: bool, amount: int, currency: Currency)

  function CheckCreateShare(s: State, e: nat, c: CreateShareCommand): Result<Unit> {
    var _ :- Need(c.amount > 0, NonPositiveAmount);
    var _ :- RequireExpense(s, e);
    var expense := s.movements[e];
    var _ :- Need(c.currency == expense.currency, CurrencyMismatch);
    var _ :- Need(c.personKnown, PersonNotFound);
    var available := expense.amount - RefundTotal(s, e) - ShareTotal(s, e);
    var _ :- Need(c.amount <= available, SharedExpenseCapExceeded);
    Need(!HasShare(s, e, c.person), ShareAlreadyExists)
  }

  function ShareDebt(e: nat, c: CreateShareCommand, now: Time): Debt {
    Debt(c.person, Receivable, SharedExpense, Some(e), c.amount, c.currency, Open, None, 1, now)
  }

  function NewShare(s: State, e: nat, c: CreateShareCommand): Share {
    Share(e, c.person, c.amount, |s.debts|, true, 1)
  }

  function Shared(s: State, now: Time, e: nat, c: CreateShareCommand): State {
    s.(debts := s.debts + [ShareDebt(e, c, now)], shares := s.shares + [NewShare(s, e, c)])
  }

  /** The service's guards, then the deferred trigger when the transaction commits. */
  function CreateShare(s: State, now: Time, e: nat, c: CreateShareCommand): Result<State> {
    var _ :- CheckCreateShare(s, e, c);
    var _ :- Need(AcceptsExpense(Shared(s, now, e, c), e), FinancialIntegrityConflict);
    Ok(Shared(s, now, e, c))
  }

  method CreateShareInTransaction(db: Database, now: Time, e: nat, c: CreateShareCommand) returns (r: Result<Unit>)
    modifies db
    ensures Committed(old(db.Tables()), db.Tables(), CreateShare(old(db.Tables()), now, e, c), r)
  {
    r := CheckCreateShare(db.Tables(), e, c);
    if r.Err? {
      return;
    }
    var debts, shares := db.debts, db.shares;
    var debt := ShareDebt(e, c, now);
    db.shares := db.shares + [Share(e, c.person, c.amount, |db.debts|, true, 1)];
    db.debts := db.debts + [debt];
    if !AcceptsExpense(db.Tables(), e) {
      db.debts, db.shares := debts, shares;
      r := Err(FinancialIntegrityConflict);
    }
  }

  // ---- Adjust or cancel a share ----

  datatype UpdateShareCommand = UpdateShareCommand(
    version: nat,
    amount: Option<(int, Currency)>,
    cancel: bool,
    reason: Option<string>)

  function CheckAdjust(s: State, share: Share, paid: int, c: UpdateShareCommand): Result<Unit>
    requires share.transaction < |s.movements|
  {
    var expense := s.movements[share.transaction];
    var _ :- Need(c.amount.Some?, ShareAmountRequired);
    var (amount, currency) := c.amount.value;
    var _ :- Need(amount > 0, NonPositiveAmount);
    var _ :- Need(currency == expense.currency, CurrencyMismatch);
    var _ :- Need(amount >= paid, ShareBelowPaidAmount);
    var others := ShareTotal(s, share.transaction) - share.amount;
    Need(amount <= expense.amount - RefundTotal(s, share.transaction) - others, SharedExpenseCapExceeded)
  }

  function CheckUpdateShare(s: State, i: nat, c: UpdateShareCommand): Result<Unit> {
    var _ :- Need(i < |s.shares|, ShareNotFound);
    var share := s.shares[i];
    var _ :- RequireExpense(s, share.transaction);
    var _ :- Need(share.version == c.version, VersionConflict);
    var _ :- Need(share.debt < |s.debts|, DebtNotFound);
    var paid := Paid(s.payments, share.debt);
    if c.cancel then
      var _ :- Need(paid <= 0, ShareHasPayments);
      RequireReason(c.reason)
    else
      CheckAdjust(s, share, paid, c)
  }

  function UpdatedShare(share: Share, c: UpdateShareCommand): Share {
    if c.cancel || c.amount.None? then share.(active := share.active && !c.cancel, version := share.version + 1)
    else share.(amount := c.amount.value.0, version := share.version + 1)
  }

  function UpdatedDebt(debt: Debt, now: Time, paid: int, c: UpdateShareCommand): Debt {
    if c.cancel || c.amount.None? then debt.(status := Cancelled, cancelledAt := Some(now), version := debt.version + 1)
    else
      var amount := c.amount.value.0;
      debt.(amount := amount,
            status := if paid == amount then Settled else if paid > 0 then PartiallyPaid else Open,
            version := debt.version + 1)
  }

  function Updated(s: State, now: Time, i: nat, c: UpdateShareCommand): State
    requires i < |s.shares| && s.shares[i].debt < |s.debts|
  {
    var share := s.shares[i];
    s.(shares := s.shares[i := UpdatedShare(share, c)],
       debts := s.debts[share.debt := UpdatedDebt(s.debts[share.debt], now, Paid(s.payments, share.debt), c)])
  }

  /** The guards, then the check constraints when the rows are written, then the deferred trigger. */
  function UpdateShare(s: State, now: Time, i: nat, c: UpdateShareCommand): Result<State> {
    var _ :- CheckUpdateShare(s, i, c);
    var s' := Updated(s, now, i, c);
    var _ :- Need(DebtChecks(s'.debts[s.shares[i].debt]), IntegrityError);
    var _ :- Need(AcceptsExpense(s', s.shares[i].transaction), FinancialIntegrityConflict);
    Ok(s')
  }

  method UpdateShareInTransaction(db: Database, now: Time, i: nat, c: UpdateShareCommand) returns (r: Result<Unit>)
    modifies db
    ensures Committed(old(db.Tables()), db.Tables(), UpdateShare(old(db.Tables()), now, i, c), r)
  {
    r := CheckUpdateShare(db.Tables(), i, c);
    if r.Err? {
      return;
    }
    var debts, shares := db.debts, db.shares;
    var share := db.shares[i];
    var debt := db.debts[share.debt];
    var paid := Paid(db.payments, share.debt);
    if c.cancel {
      share := share.(active := false);
      debt := debt.(status := Cancelled, cancelledAt := Some(now));
    } else {
      share := share.(amount := c.amount.value.0);
      debt := debt.(amount := c.amount.value.0);
      debt := debt.(status := if paid == debt.amount then Settled else if paid > 0 then PartiallyPaid else Open);
    }
    share := share.(version := share.version + 1);
    debt := debt.(version := debt.version + 1);
    db.shares := db.shares[i := share];
    db.debts := db.debts[share.debt := debt];
    if !DebtChecks(debt) {
      r := Err(IntegrityError);
    } else if !AcceptsExpense(db.Tables(), share.transaction) {
      r := Err(FinancialIntegrityConflict);
    }
    if r.Err? {
      db.debts, db.shares := debts, shares;
    }
  }

  // ---- Refund ----

  datatype RefundCommand = RefundCommand(account: nat, amount: int, currency: Currency, at: Time)

  function CheckRefund(s: State, now: Time, e: nat, c: RefundCommand): Result<Unit> {
    var _ :- Need(c.amount > 0, NonPositiveAmount);
    var _ :- RequireNotFuture(c.at, now);
    var _ :- RequireExpense(s, e);
    var expense := s.movements[e];
    var _ :- Need(expense.occurredAt <= c.at, RefundBeforeExpense);
    var _ :- Need(c.currency == expense.currency, CurrencyMismatch);
    var refundable := expense.amount - RefundTotal(s, e);
    var _ :- Need(c.amount <= refundable, RefundExceedsRemaining);
    var _ :- Need(ShareTotal(s, e) <= refundable - c.amount, RefundConflictsWithShares);
    var _ :- RequirePostingAccount(s, c.account, c.currency);
    Need(s.accounts[c.account].openedAt <= c.at, TransactionBeforeAccountOpened)
  }

  function RefundRow(s: State, e: nat, c: RefundCommand): Movement
    requires e < |s.movements|
  {
    BuildPostedMovement(c.account, Refund, Inflow, c.amount, c.currency, c.at)
      .(parent := Some(e), category := s.movements[e].category)
  }

  function Refunded(s: State, e: nat, c: RefundCommand): State
    requires e < |s.movements| && c.account < |s.accounts|
  {
    s.(movements := s.movements + [RefundRow(s, e, c)], accounts := Bumped(s.accounts, c.account))
  }

  function RefundExpense(s: State, now: Time, e: nat, c: RefundCommand): Result<State> {
    var _ :- CheckRefund(s, now, e, c);
    var _ :- Need(AcceptsExpense(Refunded(s, e, c), e), FinancialIntegrityConflict);
    Ok(Refunded(s, e, c))
  }

  method RefundInTransaction(db: Database, now: Time, e: nat, c: RefundCommand) returns (r: Result<Unit>)
    modifies db
    ensures Committed(old(db.Tables()), db.Tables(), RefundExpense(old(db.Tables()), now, e, c), r)
  {
    r := CheckRefund(db.Tables(), now, e, c);
    if r.Err? {
      return;
    }
    var movements, accounts := db.movements, db.accounts;
    var refund := BuildPostedMovement(c.account, Refund, Inflow, c.amount, c.currency, c.at);
    refund := refund.(parent := Some(e));
    refund := refund.(category := db.movements[e].category);
    db.movements := db.movements + [refund];
    db.BumpVersion(c.account);
    if !AcceptsExpense(db.Tables(), e) {
      db.movements, db.accounts := movements, accounts;
      r := Err(FinancialIntegrityConflict);
    }
  }

  // ---- The invariant ----

  /** What holds of every share row: its expense was posted, its debt is the receivable it names, and once it is
      cancelled so is its debt, with nothing ever paid on it. */
  ghost predicate ShareFits(s: State, share: Share) {
    && share.amount > 0
    && share.transaction < |s.movements| && Recoverable(s.movements[share.transaction])
    && ShareCoherent(s, s.movements[share.transaction], share)
    && (!share.active ==> s.debts[share.debt].status == Cancelled && Paid(s.payments, share.debt) == 0)
  }

  ghost predicate RefundFits(s: State, m: Movement) {
    && m.parent.Some? && m.parent.value < |s.movements|
    && Recoverable(s.movements[m.parent.value])
    && RefundCoherent(s.movements[m.parent.value], m)
    && s.movements[m.parent.value].occurredAt <= m.occurredAt
  }

  function Cap(m: Movement): int { if Recoverable(m) then m.amount else 0 }

  predicate SharesDistinct(shares: seq<Share>) {
    forall i, j :: 0 <= i < j < |shares| ==>
      && shares[i].debt != shares[j].debt
      && !(shares[i].transaction == shares[j].transaction && shares[i].person == shares[j].person)
  }

  /** Refunds and active shares together never exceed the expense, and every share is backed by its own debt. */
  ghost predicate RecoverySound(s: State) {
    && (forall i :: 0 <= i < |s.shares| ==> ShareFits(s, s.shares[i]))
    && SharesDistinct(s.shares)
    && (forall i :: 0 <= i < |s.movements| && s.movements[i].kind == Refund ==> RefundFits(s, s.movements[i]))
    && (forall e: nat :: e < |s.movements| ==> RefundTotal(s, e) + ShareTotal(s, e) <= Cap(s.movements[e]))
  }

  /** In a sound state the trigger accepts an expense exactly when none of its active shares is stranded. */
  lemma AcceptedIffNoneStranded(s: State, e: nat)
    requires RecoverySound(s) && e < |s.movements| && Recoverable(s.movements[e])
    ensures AcceptsExpense(s, e) <==> NoneStranded(s, e)
  {
    forall i | 0 <= i < |s.shares| ensures ActiveShareOn(e)(s.shares[i]) >= 0 {
      assert ShareFits(s, s.shares[i]);
    }
    SumNonNegative(s.shares, ActiveShareOn(e));
    forall i | 0 <= i < |s.shares| && s.shares[i].transaction == e
      ensures ShareCoherent(s, s.movements[e], s.shares[i])
    {
      assert ShareFits(s, s.shares[i]);
    }
    forall i | 0 <= i < |s.movements| && s.movements[i].kind == Refund && s.movements[i].parent == Some(e)
      ensures RefundCoherent(s.movements[e], s.movements[i])
    {
      assert RefundFits(s, s.movements[i]);
    }
  }

  // ---- Steps of the other services ----

  predicate NoRefundRows(ms: seq<Movement>) { forall i :: 0 <= i < |ms| ==> ms[i].kind != Refund }

  /** Specialised rows are kept, and no row that was added is a refund: the refunds of every expense are the same. */
  lemma RefundsUnchanged(before: seq<Movement>, after: seq<Movement>, e: nat)
    requires SpecialisedRowsKept(before, after) && NoRefundRows(after[|before|..])
    ensures SumOf(after, RefundOn(e)) == SumOf(before, RefundOn(e))
  {
    SumConcat(after[..|before|], after[|before|..], RefundOn(e));
    assert after == after[..|before|] + after[|before|..];
    forall i | 0 <= i < |before| ensures RefundOn(e)(before[i]) == RefundOn(e)(after[..|before|][i]) {
      assert KeptOrCore(before[i], after[i]);
    }
    SumAgree(before, after[..|before|], RefundOn(e), RefundOn(e));
    SumZero(after[|before|..], RefundOn(e));
  }

  lemma ExpenseStaysRecoverable(before: seq<Movement>, after: seq<Movement>, e: nat)
    requires SpecialisedRowsKept(before, after) && e < |before| && Recoverable(before[e])
    ensures Recoverable(after[e]) && after[e].amount == before[e].amount && after[e].currency == before[e].currency
    ensures after[e].occurredAt == before[e].occurredAt
  {
  }

  lemma NewRefundsFit(s: State, s': State)
    requires forall i :: 0 <= i < |s.movements| && s.movements[i].kind == Refund ==> RefundFits(s, s.movements[i])
    requires SpecialisedRowsKept(s.movements, s'.movements)
    ensures forall i :: 0 <= i < |s.movements| && s'.movements[i].kind == Refund ==> RefundFits(s', s'.movements[i])
  {
  }

  lemma ShareStillFits(s: State, s': State, share: Share)
    requires ShareFits(s, share) && SpecialisedRowsKept(s.movements, s'.movements)
    requires share.debt < |s'.debts| && SameTermsOfDebt(s.debts[share.debt], s'.debts[share.debt])
    requires s.debts[share.debt].status == Cancelled ==>
      s'.debts[share.debt].status == Cancelled && Paid(s'.payments, share.debt) == Paid(s.payments, share.debt)
    ensures ShareFits(s', share)
  {
  }

  predicate SameTermsOfDebt(d: Debt, d': Debt) {
    && d'.person == d.person && d'.direction == d.direction && d'.origin == d.origin
    && d'.originTransaction == d.originTransaction && d'.amount == d.amount && d'.currency == d.currency
  }

  /** A cancelled debt stays cancelled and receives nothing more. */
  ghost predicate DebtsKept(s: State, s': State) {
    |s.debts| <= |s'.debts| && forall d: nat :: d < |s.debts| ==> DebtKept(s, s', d)
  }

  ghost predicate DebtKept(s: State, s': State, d: nat)
    requires d < |s.debts| && d < |s'.debts|
  {
    && SameTermsOfDebt(s.debts[d], s'.debts[d])
    && (s.debts[d].status == Cancelled ==>
         s'.debts[d].status == Cancelled && Paid(s'.payments, d) == Paid(s.payments, d))
  }

  ghost predicate PositiveAmounts(ms: seq<Movement>) { forall i :: 0 <= i < |ms| ==> ms[i].amount > 0 }

  lemma CapsGrow(before: seq<Movement>, after: seq<Movement>, e: nat)
    requires SpecialisedRowsKept(before, after) && PositiveAmounts(after) && e < |before|
    ensures Cap(before[e]) <= Cap(after[e])
  {
  }

  /** Nothing refers to a row that is not there yet. */
  lemma NothingOnNewRows(s: State, e: nat)
    requires RecoverySound(s) && |s.movements| <= e
    ensures RefundTotal(s, e) == 0 && ShareTotal(s, e) == 0
  {
    forall i | 0 <= i < |s.movements| ensures RefundOn(e)(s.movements[i]) == 0 {
      assert s.movements[i].kind == Refund ==> RefundFits(s, s.movements[i]);
    }
    SumZero(s.movements, RefundOn(e));
    forall i | 0 <= i < |s.shares| ensures ActiveShareOn(e)(s.shares[i]) == 0 {
      assert ShareFits(s, s.shares[i]);
    }
    SumZero(s.shares, ActiveShareOn(e));
  }

  /** Steps that neither touch a share nor post a refund, and keep the terms of every debt. */
  lemma RecoveryStaysSound(s: State, s': State)
    requires RecoverySound(s) && SpecialisedRowsKept(s.movements, s'.movements) && PositiveAmounts(s'.movements)
    requires NoRefundRows(s'.movements[|s.movements|..])
    requires s'.shares == s.shares && DebtsKept(s, s')
    ensures RecoverySound(s')
  {
    forall i | 0 <= i < |s'.shares| ensures ShareFits(s', s'.shares[i]) {
      assert ShareFits(s, s.shares[i]) && DebtKept(s, s', s.shares[i].debt);
      ShareStillFits(s, s', s.shares[i]);
    }
    NewRefundsFit(s, s');
    forall i | |s.movements| <= i < |s'.movements| ensures s'.movements[i].kind != Refund {
      assert s'.movements[i] == s'.movements[|s.movements|..][i - |s.movements|];
    }
    forall e: nat | e < |s'.movements| ensures RefundTotal(s', e) + ShareTotal(s', e) <= Cap(s'.movements[e]) {
      RefundsUnchanged(s.movements, s'.movements, e);
      if e < |s.movements| {
        CapsGrow(s.movements, s'.movements, e);
      } else {
        NothingOnNewRows(s, e);
        assert s'.movements[e].amount > 0;
      }
    }
  }

  // ---- Sharing, adjusting, cancelling and refunding ----

  lemma NothingPaidOnNewDebt(s: State)
    requires DebtsSound(s)
    ensures Paid(s.payments, |s.debts|) == 0
  {
    forall i | 0 <= i < |s.payments| ensures PaidOn(|s.debts|)(s.payments[i]) == 0 {
      assert PaymentRow(s, s.payments[i]);
    }
    SumZero(s.payments, PaidOn(|s.debts|));
  }

  lemma RowsAreKept(ms: seq<Movement>)
    ensures SpecialisedRowsKept(ms, ms)
  {
  }

  /** The guards alone keep the invariant. */
  lemma SharedIsSound(s: State, now: Time, e: nat, c: CreateShareCommand)
    requires RecoverySound(s) && DebtsSound(s) && CheckCreateShare(s, e, c).Ok?
    ensures RecoverySound(Shared(s, now, e, c)) && DebtsSound(Shared(s, now, e, c))
  {
    var s', share := Shared(s, now, e, c), NewShare(s, e, c);
    RowsAreKept(s.movements);
    NewDebtSound(s, s', ShareDebt(e, c, now));
    NothingPaidOnNewDebt(s);
    forall i | 0 <= i < |s'.shares| ensures ShareFits(s', s'.shares[i]) {
      if i < |s.shares| {
        assert ShareFits(s, s.shares[i]);
        ShareStillFits(s, s', s.shares[i]);
      }
    }
    forall i | 0 <= i < |s.shares| ensures s.shares[i].debt != |s.debts| {
      assert ShareFits(s, s.shares[i]);
    }
    SameRefundsFit(s, s');
    forall x: nat | x < |s'.movements| ensures RefundTotal(s', x) + ShareTotal(s', x) <= Cap(s'.movements[x]) {
      SumAppend(s.shares, share, ActiveShareOn(x));
    }
  }

  lemma StrandedAfterSharing(s: State, now: Time, e: nat, c: CreateShareCommand)
    requires RecoverySound(s)
    ensures NoneStranded(Shared(s, now, e, c), e) <==> NoneStranded(s, e)
  {
    var s' := Shared(s, now, e, c);
    forall i | 0 <= i < |s.shares| ensures Stranded(s', s'.shares[i]) <==> Stranded(s, s.shares[i]) {
      assert ShareFits(s, s.shares[i]);
      assert s'.shares[i] == s.shares[i];
    }
  }

  /** A share that passes the guards is committed exactly when no active share of the expense is stranded. */
  lemma CreateShareOutcome(s: State, now: Time, e: nat, c: CreateShareCommand)
    requires RecoverySound(s) && DebtsSound(s) && CheckCreateShare(s, e, c).Ok?
    ensures CreateShare(s, now, e, c)
         == if NoneStranded(s, e) then Ok(Shared(s, now, e, c)) else Err(FinancialIntegrityConflict)
  {
    SharedIsSound(s, now, e, c);
    AcceptedIffNoneStranded(Shared(s, now, e, c), e);
    StrandedAfterSharing(s, now, e, c);
  }

  /** The debt of an adjusted or cancelled share stays sound, once the cancellation constraint has passed. */
  lemma UpdatedDebtIsSound(s: State, now: Time, i: nat, c: UpdateShareCommand)
    requires RecoverySound(s) && DebtsSound(s) && CheckUpdateShare(s, i, c).Ok?
    requires DebtChecks(Updated(s, now, i, c).debts[s.shares[i].debt])
    ensures DebtsSound(Updated(s, now, i, c))
    ensures c.cancel ==> Paid(s.payments, s.shares[i].debt) == 0
    ensures !c.cancel ==> s.debts[s.shares[i].debt].status != Cancelled
  {
    var s', d := Updated(s, now, i, c), s.shares[i].debt;
    RowsAreKept(s.movements);
    PaidIsNonNegative(s, d);
    assert ShareFits(s, s.shares[i]) && AcceptsDebt(s, d) && DebtChecks(s.debts[d]);
    ChangedDebtSound(s, s', d, s'.debts[d]);
  }

  lemma UpdatedShareFits(s: State, now: Time, i: nat, c: UpdateShareCommand)
    requires RecoverySound(s) && DebtsSound(s) && CheckUpdateShare(s, i, c).Ok?
    requires DebtChecks(Updated(s, now, i, c).debts[s.shares[i].debt])
    ensures ShareFits(Updated(s, now, i, c), UpdatedShare(s.shares[i], c))
  {
    UpdatedDebtIsSound(s, now, i, c);
    assert ShareFits(s, s.shares[i]);
  }

  lemma OtherShareFits(s: State, now: Time, i: nat, c: UpdateShareCommand, j: nat)
    requires RecoverySound(s) && i < |s.shares| && j < |s.shares| && i != j && s.shares[i].debt < |s.debts|
    ensures ShareFits(Updated(s, now, i, c), s.shares[j])
    ensures Stranded(Updated(s, now, i, c), s.shares[j]) <==> Stranded(s, s.shares[j])
  {
  }

  /** The new amount of the share still leaves the expense its cap. */
  lemma UpdatedTotalsFit(s: State, now: Time, i: nat, c: UpdateShareCommand, e: nat)
    requires RecoverySound(s) && DebtsSound(s) && CheckUpdateShare(s, i, c).Ok? && e < |s.movements|
    requires DebtChecks(Updated(s, now, i, c).debts[s.shares[i].debt])
    ensures RefundTotal(Updated(s, now, i, c), e) + ShareTotal(Updated(s, now, i, c), e) <= Cap(s.movements[e])
  {
    UpdatedDebtIsSound(s, now, i, c);
    assert ShareFits(s, s.shares[i]);
    SumUpdate(s.shares, i, UpdatedShare(s.shares[i], c), ActiveShareOn(e));
  }

  /** Guards and cancellation constraint together keep the invariant; the guards alone do not, because the cap check of
      a cancelled share leaves out an amount that was never counted. */
  lemma UpdatedIsSound(s: State, now: Time, i: nat, c: UpdateShareCommand)
    requires RecoverySound(s) && DebtsSound(s) && CheckUpdateShare(s, i, c).Ok?
    requires DebtChecks(Updated(s, now, i, c).debts[s.shares[i].debt])
    ensures RecoverySound(Updated(s, now, i, c)) && DebtsSound(Updated(s, now, i, c))
  {
    var s' := Updated(s, now, i, c);
    UpdatedDebtIsSound(s, now, i, c);
    UpdatedShareFits(s, now, i, c);
    forall j: nat | j < |s'.shares| ensures ShareFits(s', s'.shares[j]) {
      if j != i {
        OtherShareFits(s, now, i, c, j);
      }
    }
    SameRefundsFit(s, s');
    forall e: nat | e < |s'.movements| ensures RefundTotal(s', e) + ShareTotal(s', e) <= Cap(s'.movements[e]) {
      UpdatedTotalsFit(s, now, i, c, e);
    }
  }

  /** What the database makes of an update that passed the guards. */
  predicate UpdateCommits(s: State, i: nat, c: UpdateShareCommand)
    requires i < |s.shares| && s.shares[i].debt < |s.debts|
  {
    && (!c.cancel ==> s.debts[s.shares[i].debt].status != Cancelled)
    && forall j :: 0 <= j < |s.shares| && j != i && s.shares[j].transaction == s.shares[i].transaction ==>
         !Stranded(s, s.shares[j])
  }

  /** An adjustment that passes the guards is committed exactly when the debt was never cancelled, whether through the
      share or behind its back, and no other share of the expense is stranded. A cancellation needs only the latter. */
  lemma UpdateShareOutcome(s: State, now: Time, i: nat, c: UpdateShareCommand)
    requires RecoverySound(s) && DebtsSound(s) && CheckUpdateShare(s, i, c).Ok?
    ensures UpdateShare(s, now, i, c).Ok? <==> UpdateCommits(s, i, c)
  {
    var s', share := Updated(s, now, i, c), s.shares[i];
    assert ShareFits(s, share) && DebtChecks(s.debts[share.debt]);
    if DebtChecks(s'.debts[share.debt]) {
      UpdatedIsSound(s, now, i, c);
      AcceptedIffNoneStranded(s', share.transaction);
      UpdatedDebtIsSound(s, now, i, c);
      forall j | 0 <= j < |s.shares| && j != i ensures Stranded(s', s'.shares[j]) <==> Stranded(s, s.shares[j]) {
        assert ShareFits(s, s.shares[j]) && s.shares[j].debt != share.debt;
      }
      assert !Stranded(s', s'.shares[i]);
    } else {
      PaidIsNonNegative(s, share.debt);
    }
  }

  lemma RefundedIsSound(s: State, now: Time, e: nat, c: RefundCommand)
    requires RecoverySound(s) && DebtsSound(s) && CheckRefund(s, now, e, c).Ok?
    ensures RecoverySound(Refunded(s, e, c)) && DebtsSound(Refunded(s, e, c))
    ensures SpecialisedRowsKept(s.movements, Refunded(s, e, c).movements)
  {
    var s', refund := Refunded(s, e, c), RefundRow(s, e, c);
    DebtsStaySound(s, s');
    forall i | 0 <= i < |s'.shares| ensures ShareFits(s', s'.shares[i]) {
      assert ShareFits(s, s.shares[i]);
      ShareStillFits(s, s', s.shares[i]);
    }
    NewRefundsFit(s, s');
    assert RefundFits(s', refund);
    forall x: nat | x < |s'.movements| ensures RefundTotal(s', x) + ShareTotal(s', x) <= Cap(s'.movements[x]) {
      RefundedTotalsFit(s, now, e, c, x);
    }
  }

  lemma RefundedTotalsFit(s: State, now: Time, e: nat, c: RefundCommand, x: nat)
    requires RecoverySound(s) && CheckRefund(s, now, e, c).Ok? && x <= |s.movements|
    ensures var s' := Refunded(s, e, c); RefundTotal(s', x) + ShareTotal(s', x) <= Cap(s'.movements[x])
  {
    SumAppend(s.movements, RefundRow(s, e, c), RefundOn(x));
    if x == |s.movements| {
      NothingOnNewRows(s, x);
    }
  }

  lemma SameRefundsFit(s: State, s': State)
    requires RecoverySound(s) && s'.movements == s.movements
    ensures forall i :: 0 <= i < |s'.movements| && s'.movements[i].kind == Refund ==> RefundFits(s', s'.movements[i])
  {
    forall i | 0 <= i < |s.movements| && s.movements[i].kind == Refund ensures RefundFits(s', s.movements[i]) {
      assert RefundFits(s, s.movements[i]);
    }
  }

  /** A refund that passes the guards is committed exactly when no active share of the expense is stranded. */
  lemma RefundOutcome(s: State, now: Time, e: nat, c: RefundCommand)
    requires RecoverySound(s) && DebtsSound(s) && CheckRefund(s, now, e, c).Ok?
    ensures RefundExpense(s, now, e, c)
         == if NoneStranded(s, e) then Ok(Refunded(s, e, c)) else Err(FinancialIntegrityConflict)
  {
    var s' := Refunded(s, e, c);
    RefundedIsSound(s, now, e, c);
    ExpenseStaysRecoverable(s.movements, s'.movements, e);
    AcceptedIffNoneStranded(s', e);
    assert s'.movements[e] == s.movements[e] && s'.shares == s.shares && s'.debts == s.debts;
  }

  lemma RefundShifts(s: State, now: Time, e: nat, c: RefundCommand)
    requires Sound(s) && RefundExpense(s, now, e, c).Ok?
    ensures e < |s.movements|
    ensures var s', m := RefundExpense(s, now, e, c).value, RefundRow(s, e, c);
            && Posts(s, s', c.at, [m]) && Covered(s, now, c.at, [m]) && PlainPosted(s.accounts, m)
            && s'.movements == s.movements + [m]
            && Sound(s') && Guarded(s.movements, s'.movements)
  {
    var s', m := RefundExpense(s, now, e, c).value, RefundRow(s, e, c);
    assert [m][0] == m;
    PostedRowsSound(s, s', c.at, [m]);
    CoveredSingle(s, now, c.at, m);
  }

  // ---- What the steps write ----

  /** A share is recorded for the person and the amount that were asked for, backed by a debt of the same, and takes
      exactly that amount of the expense. */
  lemma ShareIsRecorded(s: State, now: Time, e: nat, c: CreateShareCommand, x: nat)
    requires CreateShare(s, now, e, c).Ok?
    ensures var s', i, d := CreateShare(s, now, e, c).value, |s.shares|, |s.debts|;
      && s' == s.(shares := s'.shares, debts := s'.debts)
      && OthersKept(s.shares, s'.shares, i) && |s'.shares| == i + 1
      && OthersKept(s.debts, s'.debts, d) && |s'.debts| == d + 1
      && s'.shares[i] == Share(e, c.person, c.amount, d, true, 1)
      && s'.debts[d].person == c.person && s'.debts[d].amount == c.amount && s'.debts[d].currency == c.currency
      && s'.debts[d].direction == Receivable && s'.debts[d].originTransaction == Some(e)
      && s'.debts[d].status == Open && s'.debts[d].createdAt == now && s'.debts[d].version == 1
      && ShareTotal(s', x) == ShareTotal(s, x) + if x == e then c.amount else 0
  {
    SumAppend(s.shares, NewShare(s, e, c), ActiveShareOn(x));
  }

  /** An adjusted share and its debt have the new amount, a cancelled share and its debt are cancelled and keep theirs;
      of both rows nothing else changes but the version, and the status of the debt. */
  lemma ShareIsUpdated(s: State, now: Time, i: nat, c: UpdateShareCommand, x: nat)
    requires RecoverySound(s) && UpdateShare(s, now, i, c).Ok?
    ensures i < |s.shares| && s.shares[i].debt < |s.debts|
    ensures var s', share, d := UpdateShare(s, now, i, c).value, s.shares[i], s.shares[i].debt;
      && s' == s.(shares := s'.shares, debts := s'.debts)
      && OthersKept(s.shares, s'.shares, i) && |s'.shares| == |s.shares|
      && OthersKept(s.debts, s'.debts, d) && |s'.debts| == |s.debts|
      && share.version == c.version && s'.shares[i].version == c.version + 1
      && s'.debts[d].version == s.debts[d].version + 1
      && s'.shares[i].(amount := share.amount, active := share.active, version := c.version) == share
      && s'.debts[d].createdAt == s.debts[d].createdAt
      && (if c.cancel then
            && !s'.shares[i].active && s'.shares[i].amount == share.amount
            && s'.debts[d].status == Cancelled && s'.debts[d].cancelledAt == Some(now)
            && SameTermsOfDebt(s.debts[d], s'.debts[d])
            && ShareTotal(s', x) == ShareTotal(s, x)
               - if x == share.transaction && share.active then share.amount else 0
          else
            && c.amount.Some? && s'.shares[i].active == share.active && s'.shares[i].amount == c.amount.value.0
            && SameTermsOfDebt(s.debts[d].(amount := c.amount.value.0), s'.debts[d])
            && s'.debts[d].cancelledAt == s.debts[d].cancelledAt
            && ShareTotal(s', x) == ShareTotal(s, x)
               + if x == share.transaction && share.active then c.amount.value.0 - share.amount else 0)
  {
    SumUpdate(s.shares, i, UpdatedShare(s.shares[i], c), ActiveShareOn(x));
  }

  /** A refund is posted as it was asked for, points at its expense, falls into the category of the expense, and is
      counted against it. */
  lemma RefundIsRecorded(s: State, now: Time, e: nat, c: RefundCommand, x: nat)
    requires RefundExpense(s, now, e, c).Ok?
    ensures var s', n := RefundExpense(s, now, e, c).value, |s.movements|;
      && e < n && s' == s.(movements := s'.movements, accounts := s'.accounts)
      && s.movements <= s'.movements && |s'.movements| == n + 1
      && var m := s'.movements[n];
      && m.account == c.account && m.kind == Refund && m.effect == Inflow && m.amount == c.amount
      && m.currency == c.currency && m.occurredAt == c.at && m.status == Posted
      && m.parent == Some(e) && m.category == s.movements[e].category && m.reversalOf == None
      && RefundTotal(s', x) == RefundTotal(s, x) + if x == e then c.amount else 0
  {
    SumAppend(s.movements, RefundRow(s, e, c), RefundOn(x));
  }

  predicate PostedExpense(s: State, e: nat) {
    e < |s.movements| && s.movements[e].kind == Expense && s.movements[e].status == Posted
  }

  /** What of an expense is neither refunded nor owed by somebody. */
  function Left(s: State, e: nat): int
    requires e < |s.movements|
  {
    s.movements[e].amount - RefundTotal(s, e) - ShareTotal(s, e)
  }

  /** A share is accepted exactly of a posted expense without stranded shares, in its currency, for a known person who
      has no share of it yet, up to what is left of it. */
  lemma SharedIff(s: State, now: Time, e: nat, c: CreateShareCommand)
    requires RecoverySound(s) && DebtsSound(s)
    ensures CreateShare(s, now, e, c).Ok? <==>
      && PostedExpense(s, e) && NoneStranded(s, e)
      && c.currency == s.movements[e].currency && c.personKnown && !HasShare(s, e, c.person)
      && 0 < c.amount <= Left(s, e)
    ensures PostedExpense(s, e) && c.currency == s.movements[e].currency && c.personKnown
      ==> (c.amount > 0 && c.amount > Left(s, e) ==> CreateShare(s, now, e, c) == Err(SharedExpenseCapExceeded))
  {
    if CheckCreateShare(s, e, c).Ok? {
      CreateShareOutcome(s, now, e, c);
    }
  }

  /** A refund is accepted exactly of a posted expense without stranded shares, in its currency and not before it, up
      to what is left of it, to an account that can take it. */
  lemma RefundedIff(s: State, now: Time, e: nat, c: RefundCommand)
    requires RecoverySound(s) && DebtsSound(s)
    ensures RefundExpense(s, now, e, c).Ok? <==>
      && PostedExpense(s, e) && NoneStranded(s, e)
      && c.currency == s.movements[e].currency && s.movements[e].occurredAt <= c.at
      && 0 < c.amount <= Left(s, e)
      && CanPost(s, now, c.account, c.currency, c.amount, Inflow, c.at)
  {
    SharesAreNotNegative(s, e);
    if CheckRefund(s, now, e, c).Ok? {
      RefundOutcome(s, now, e, c);
    }
  }

  lemma SharesAreNotNegative(s: State, e: nat)
    requires RecoverySound(s)
    ensures ShareTotal(s, e) >= 0
  {
    forall i | 0 <= i < |s.shares| ensures ActiveShareOn(e)(s.shares[i]) >= 0 {
      assert ShareFits(s, s.shares[i]);
    }
    SumNonNegative(s.shares, ActiveShareOn(e));
  }

  /** Too large a refund is told whether it exceeds the expense or what others owe for it. */
  lemma TooLargeRefundsAreTold(s: State, now: Time, e: nat, c: RefundCommand)
    requires RecoverySound(s) && PostedExpense(s, e) && c.currency == s.movements[e].currency
    requires c.amount > Left(s, e) && c.amount > 0 && s.movements[e].occurredAt <= c.at <= now + FIVE_MINUTES
    ensures RefundExpense(s, now, e, c)
         == Err(if c.amount > s.movements[e].amount - RefundTotal(s, e) then RefundExceedsRemaining
                else RefundConflictsWithShares)
  {
    SharesAreNotNegative(s, e);
  }

  /** The amount of an active share can be set to anything between what was paid on it and what the expense has left
      for it, and to nothing else; a cancelled share cannot be set at all. */
  lemma AdjustedIff(s: State, now: Time, i: nat, c: UpdateShareCommand)
    requires RecoverySound(s) && DebtsSound(s) && !c.cancel
    ensures UpdateShare(s, now, i, c).Ok? <==>
      && i < |s.shares| && PostedExpense(s, s.shares[i].transaction) && NoneStranded(s, s.shares[i].transaction)
      && s.shares[i].active && c.version == s.shares[i].version
      && c.amount.Some? && c.amount.value.1 == s.movements[s.shares[i].transaction].currency
      && 0 < c.amount.value.0 && Paid(s.payments, s.shares[i].debt) <= c.amount.value.0
      && c.amount.value.0 <= Left(s, s.shares[i].transaction) + s.shares[i].amount
  {
    if i < |s.shares| {
      assert ShareFits(s, s.shares[i]);
    }
    if CheckUpdateShare(s, i, c).Ok? {
      UpdateShareOutcome(s, now, i, c);
      if s.debts[s.shares[i].debt].status != Cancelled {
        StrandedWithoutSelf(s, i);
      }
    }
  }

  /** A share whose debt stands is active, and not what an expense is stranded by. */
  lemma StrandedWithoutSelf(s: State, i: nat)
    requires RecoverySound(s) && i < |s.shares|
    requires s.shares[i].debt < |s.debts| && s.debts[s.shares[i].debt].status != Cancelled
    ensures s.shares[i].active
    ensures NoneStranded(s, s.shares[i].transaction) <==>
      forall j :: 0 <= j < |s.shares| && j != i && s.shares[j].transaction == s.shares[i].transaction ==>
        !Stranded(s, s.shares[j])
  {
    assert ShareFits(s, s.shares[i]);
  }

  /** A share is cancelled exactly while nothing was paid on it, for a reason, and no other share of its expense is
      stranded. */
  lemma ShareCancelledIff(s: State, now: Time, i: nat, c: UpdateShareCommand)
    requires RecoverySound(s) && DebtsSound(s) && c.cancel
    ensures UpdateShare(s, now, i, c).Ok? <==>
      && i < |s.shares| && PostedExpense(s, s.shares[i].transaction) && c.version == s.shares[i].version
      && Paid(s.payments, s.shares[i].debt) == 0 && RequireReason(c.reason).Ok?
      && forall j :: 0 <= j < |s.shares| && j != i && s.shares[j].transaction == s.shares[i].transaction ==>
           !Stranded(s, s.shares[j])
  {
    if i < |s.shares| {
      assert ShareFits(s, s.shares[i]);
      PaidIsNonNegative(s, s.shares[i].debt);
    }
    if CheckUpdateShare(s, i, c).Ok? {
      UpdateShareOutcome(s, now, i, c);
    }
  }

  // ---- A debt that is cancelled behind its share ----

  /** The debt service cancels the debt of an active share without looking at the share, and nothing rejects it. */
  lemma CancelStrands(s: State, now: Time, i: nat, version: nat, reason: string)
    requires RecoverySound(s) && DebtsSound(s) && i < |s.shares| && s.shares[i].active
    requires CancelDebt(s, now, s.shares[i].debt, version, reason).Ok?
    ensures var s' := CancelDebt(s, now, s.shares[i].debt, version, reason).value;
            && Stranded(s', s'.shares[i]) && DebtsSound(s') && RecoverySound(s')
            && !AcceptsExpense(s', s.shares[i].transaction)
  {
    var d := s.shares[i].debt;
    var s' := CancelDebt(s, now, d, version, reason).value;
    assert ShareFits(s, s.shares[i]);
    CancelDebtKeepsDebts(s, now, d, version, reason);
    CancelKeepsRecovery(s, now, d, version, reason);
    AcceptedIffNoneStranded(s', s.shares[i].transaction);
    assert Stranded(s', s'.shares[i]);
  }

  lemma CancelKeepsRecovery(s: State, now: Time, d: nat, version: nat, reason: string)
    requires RecoverySound(s) && CancelDebt(s, now, d, version, reason).Ok?
    ensures RecoverySound(CancelDebt(s, now, d, version, reason).value)
  {
  }

  /** A stranded share on which something was paid cannot be adjusted or cancelled any more. */
  lemma StrandedWithPaymentsIsFinal(s: State, now: Time, i: nat, c: UpdateShareCommand)
    requires RecoverySound(s) && DebtsSound(s) && i < |s.shares|
    requires Stranded(s, s.shares[i]) && Paid(s.payments, s.shares[i].debt) > 0
    ensures UpdateShare(s, now, i, c).Err?
  {
  }
}
