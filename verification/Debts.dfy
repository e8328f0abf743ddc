/** Debts: creating, repaying and cancelling, and the database rules for a debt with its payments. */
module Debts {
  import opened Common
  import opened Sums
  import opened Ledger
  import opened History

  // ---- The database rules ----

  /** Check constraints of one debt row. */
  predicate DebtChecks(debt: Debt) {
    && debt.amount > 0
    && (debt.origin == Existing <==> debt.originTransaction.None?)
    && (debt.origin == LendNow ==> debt.direction == Receivable)
    && (debt.origin == BorrowNow ==> debt.direction == Payable)
    && (debt.origin == SharedExpense ==> debt.direction == Receivable)
    && (debt.status == Cancelled <==> debt.cancelledAt.Some?)
  }

  function PaidOn(d: nat): Payment -> int {
    (p: Payment) => if p.debt == d then p.amount else 0
  }

  function Paid(payments: seq<Payment>, d: nat): int { SumOf(payments, PaidOn(d)) }

  function ImpliedStatus(paid: int, amount: int): DebtStatus {
    if paid == 0 then Open else if paid == amount then Settled else PartiallyPaid
  }

  predicate CashOrigin(origin: Origin) { origin == LendNow || origin == BorrowNow }

  predicate OriginCoherent(ms: seq<Movement>, debt: Debt) {
    CashOrigin(debt.origin) ==>
      && debt.originTransaction.Some? && debt.originTransaction.value < |ms|
      && var m := ms[debt.originTransaction.value];
      && m.amount == debt.amount && m.currency == debt.currency && AffectsBalance(m.status)
      && (debt.origin == LendNow ==> m.kind == LoanPrincipalOut && m.effect == Outflow)
      && (debt.origin == BorrowNow ==> m.kind == LoanPrincipalIn && m.effect == Inflow)
  }

  function RepaymentKind(direction: Direction): Kind {
    if direction == Receivable then DebtRepaymentIn else DebtRepaymentOut
  }

  function RepaymentEffect(direction: Direction): Effect { if direction == Receivable then Inflow else Outflow }

  predicate PaymentCoherent(ms: seq<Movement>, debt: Debt, p: Payment) {
    && p.transaction < |ms|
    && var m := ms[p.transaction];
    && m.amount == p.amount && m.currency == debt.currency && m.occurredAt == p.paidAt && AffectsBalance(m.status)
    && m.kind == RepaymentKind(debt.direction) && m.effect == RepaymentEffect(debt.direction)
  }

  /** `planit_validate_debt_group` for one debt. */
  predicate AcceptsDebt(s: State, d: nat)
    requires d < |s.debts|
  {
    var debt, paid := s.debts[d], Paid(s.payments, d);
    && paid <= debt.amount
    && (debt.status != Cancelled ==> debt.status == ImpliedStatus(paid, debt.amount))
    && OriginCoherent(s.movements, debt)
    && (forall i :: 0 <= i < |s.payments| && s.payments[i].debt == d ==>
         PaymentCoherent(s.movements, debt, s.payments[i]))
  }

  predicate PaymentRow(s: State, p: Payment) { p.amount > 0 && p.debt < |s.debts| }

  /** Every debt passes its constraints and its trigger, and every payment belongs to a debt. */
  ghost predicate DebtsSound(s: State) {
    && (forall d: nat :: d < |s.debts| ==> DebtChecks(s.debts[d]) && AcceptsDebt(s, d))
    && (forall i :: 0 <= i < |s.payments| ==> PaymentRow(s, s.payments[i]))
  }

  // ---- Create ----

  datatype CreateDebtCommand = CreateDebtCommand(
    person: nat,
    personKnown: bool,
    direction: Direction,
    origin: Origin,
    amount: int,
    currency: Currency,
    account: Option<nat>,
    movementId: bool,
    at: Option<Time>)

  function RequireOriginDirection(origin: Origin, direction: Direction): Result<Unit> {
    match origin
    case LendNow | SharedExpense => Need(direction == Receivable, DebtDirectionMismatch)
    case BorrowNow => Need(direction == Payable, DebtDirectionMismatch)
    case Existing => Ok(Unit)
  }

  function CheckCash(s: State, now: Time, c: CreateDebtCommand, account: nat, at: Time): Result<Unit> {
    var _ :- RequireNotFuture(at, now);
    var _ :- RequirePostingAccount(s, account, c.currency);
    var _ :- Need(s.accounts[account].openedAt <= at, TransactionBeforeAccountOpened);
    RequireProjectedBalance(s, now, account, c.amount, PrincipalEffect(c.origin), at)
  }

  /** The service's guards; a shared-expense debt has no expense here and fails the origin constraint of the table. */
  function CheckCreateDebt(s: State, now: Time, c: CreateDebtCommand): Result<Unit> {
    var _ :- Need(c.amount > 0, NonPositiveAmount);
    var _ :- RequireOriginDirection(c.origin, c.direction);
    var _ :- Need(c.personKnown, PersonNotFound);
    var _ :- Need(CashOrigin(c.origin) == (c.account.Some? && c.movementId && c.at.Some?), InvalidDebtOrigin);
    if CashOrigin(c.origin) then CheckCash(s, now, c, c.account.value, c.at.value)
    else Need(c.origin == Existing, IntegrityError)
  }

  function PrincipalEffect(origin: Origin): Effect { if origin == LendNow then Outflow else Inflow }

  function PrincipalRow(c: CreateDebtCommand): Movement
    requires c.account.Some? && c.at.Some?
  {
    BuildPostedMovement(c.account.value, if c.origin == LendNow then LoanPrincipalOut else LoanPrincipalIn,
                        PrincipalEffect(c.origin), c.amount, c.currency, c.at.value)
  }

  function NewDebt(c: CreateDebtCommand, origin: Option<nat>, now: Time): Debt {
    Debt(c.person, c.direction, c.origin, origin, c.amount, c.currency, Open, None, 1, now)
  }

  function CreateDebt(s: State, now: Time, c: CreateDebtCommand): Result<State> {
    var _ :- CheckCreateDebt(s, now, c);
    if CashOrigin(c.origin) then
      Ok(s.(movements := s.movements + [PrincipalRow(c)],
            debts := s.debts + [NewDebt(c, Some(|s.movements|), now)],
            accounts := Bumped(s.accounts, c.account.value)))
    else
      Ok(s.(debts := s.debts + [NewDebt(c, None, now)]))
  }

  method CreateDebtInTransaction(db: Database, now: Time, c: CreateDebtCommand) returns (r: Result<Unit>)
    modifies db
    ensures Committed(old(db.Tables()), db.Tables(), CreateDebt(old(db.Tables()), now, c), r)
  {
    r := CheckCreateDebt(db.Tables(), now, c);
    if r.Err? {
      return;
    }
    var origin: Option<nat> := None;
    if CashOrigin(c.origin) {
      origin := Some(|db.movements|);
      db.movements := db.movements + [PrincipalRow(c)];
      db.BumpVersion(c.account.value);
    }
    db.debts := db.debts + [NewDebt(c, origin, now)];
  }

  // ---- Repay ----

  datatype RepayCommand = RepayCommand(account: nat, amount: int, currency: Currency, paidAt: Time)

  function CheckRepay(s: State, now: Time, d: nat, c: RepayCommand): Result<Unit> {
    var _ :- Need(c.amount > 0, NonPositiveAmount);
    var _ :- RequireNotFuture(c.paidAt, now);
    var _ :- Need(d < |s.debts|, DebtNotFound);
    var debt := s.debts[d];
    var _ :- Need(debt.status == Open || debt.status == PartiallyPaid, DebtNotOpen);
    var _ :- Need(c.currency == debt.currency, CurrencyMismatch);
    var _ :- Need(c.amount <= debt.amount - Paid(s.payments, d), DebtOverpayment);
    var _ :- RequirePostingAccount(s, c.account, c.currency);
    var _ :- Need(s.accounts[c.account].openedAt <= c.paidAt, TransactionBeforeAccountOpened);
    RequireProjectedBalance(s, now, c.account, c.amount, RepaymentEffect(debt.direction), c.paidAt)
  }

  /** The status after a payment: settled when nothing remains, partially paid when something was paid. */
  function StatusFor(amount: int, paid: int): DebtStatus {
    if amount - paid == 0 then Settled else if paid > 0 then PartiallyPaid else Open
  }

  function RepaymentRow(debt: Debt, c: RepayCommand): Movement {
    BuildPostedMovement(
      c.account, RepaymentKind(debt.direction), RepaymentEffect(debt.direction), c.amount, c.currency, c.paidAt)
  }

  function Repaid(debt: Debt, paid: int): Debt {
    debt.(status := StatusFor(debt.amount, paid), version := debt.version + 1)
  }

  function Repay(s: State, now: Time, d: nat, c: RepayCommand): Result<State> {
    var _ :- CheckRepay(s, now, d, c);
    Ok(s.(movements := s.movements + [RepaymentRow(s.debts[d], c)],
          payments := s.payments + [Payment(d, |s.movements|, c.amount, c.paidAt)],
          debts := s.debts[d := Repaid(s.debts[d], Paid(s.payments, d) + c.amount)],
          accounts := Bumped(s.accounts, c.account)))
  }

  method RepayInTransaction(db: Database, now: Time, d: nat, c: RepayCommand) returns (r: Result<Unit>)
    modifies db
    ensures Committed(old(db.Tables()), db.Tables(), Repay(old(db.Tables()), now, d, c), r)
  {
    r := CheckRepay(db.Tables(), now, d, c);
    if r.Err? {
      return;
    }
    var debt := db.debts[d];
    var paid := Paid(db.payments, d);
    var payment := Payment(d, |db.movements|, c.amount, c.paidAt);
    db.movements := db.movements + [RepaymentRow(debt, c)];
    db.payments := db.payments + [payment];
    debt := debt.(status := StatusFor(debt.amount, paid + c.amount));
    debt := debt.(version := debt.version + 1);
    db.debts := db.debts[d := debt];
    db.BumpVersion(c.account);
  }

  // ---- Cancel ----

  const MAX_REASON := 1000

  /** The characters that `str.strip` removes. */
  predicate IsSpace(ch: char) {
    || '\U{9}' <= ch <= '\U{D}' || '\U{1C}' <= ch <= '\U{20}' || ch in "\U{85}\U{A0}\U{1680}"
    || '\U{2000}' <= ch <= '\U{200A}' || ch in "\U{2028}\U{2029}\U{202F}\U{205F}\U{3000}"
  }

  function Strip(text: string): string {
    if text == "" then ""
    else if IsSpace(text[0]) then Strip(text[1..])
    else if IsSpace(text[|text| - 1]) then Strip(text[..|text| - 1])
    else text
  }

  /** A cancellation must be explained by something other than blanks. */
  function RequireReason(reason: Option<string>): Result<Unit> {
    var text := Strip(OrElse(reason, ""));
    var _ :- Need(|text| <= MAX_REASON, InvalidTransactionText);
    Need(text != "", CancellationReasonRequired)
  }

  function CheckCancelDebt(s: State, d: nat, version: nat, reason: string): Result<Unit> {
    var _ :- Need(d < |s.debts|, DebtNotFound);
    var _ :- Need(s.debts[d].version == version, VersionConflict);
    var _ :- Need(s.debts[d].status != Settled, DebtAlreadySettled);
    RequireReason(Some(reason))
  }

  function CancelledDebt(debt: Debt, now: Time): Debt {
    debt.(status := Cancelled, cancelledAt := Some(now), version := debt.version + 1)
  }

  function CancelDebt(s: State, now: Time, d: nat, version: nat, reason: string): Result<State> {
    var _ :- CheckCancelDebt(s, d, version, reason);
    Ok(s.(debts := s.debts[d := CancelledDebt(s.debts[d], now)]))
  }

  method CancelDebtInTransaction(
      db: Database, now: Time, d: nat, version: nat, reason: string)
    returns (r: Result<Unit>)
    modifies db
    ensures Committed(old(db.Tables()), db.Tables(), CancelDebt(old(db.Tables()), now, d, version, reason), r)
  {
    r := CheckCancelDebt(db.Tables(), d, version, reason);
    if r.Err? {
      return;
    }
    var debt := db.debts[d];
    debt := debt.(status := Cancelled);
    debt := debt.(cancelledAt := Some(now));
    debt := debt.(version := debt.version + 1);
    db.debts := db.debts[d := debt];
  }

  // ---- What the steps write ----

  /** No table but those that are named has changed. */
  predicate OnlyDebts(s: State, s': State) {
    s' == s.(debts := s'.debts, payments := s'.payments, movements := s'.movements, accounts := s'.accounts)
  }

  predicate OthersKept<T(==)>(rows: seq<T>, rows': seq<T>, k: nat) {
    |rows| <= |rows'| && forall i :: 0 <= i < |rows| && i != k ==> rows'[i] == rows[i]
  }

  /** A recorded debt is the one that was asked for: open, created now, and for cash with the movement it was
      paid by. */
  lemma DebtIsRecorded(s: State, now: Time, c: CreateDebtCommand)
    requires CreateDebt(s, now, c).Ok?
    ensures var s', k, n := CreateDebt(s, now, c).value, |s.debts|, |s.movements|;
      && OnlyDebts(s, s') && s'.payments == s.payments
      && OthersKept(s.debts, s'.debts, k) && |s'.debts| == k + 1
      && s'.debts[k].person == c.person && s'.debts[k].direction == c.direction && s'.debts[k].origin == c.origin
      && s'.debts[k].amount == c.amount && s'.debts[k].currency == c.currency
      && s'.debts[k].status == Open && s'.debts[k].cancelledAt == None
      && s'.debts[k].createdAt == now && s'.debts[k].version == 1
      && s.movements <= s'.movements
      && (if c.origin == LendNow || c.origin == BorrowNow then
            && |s'.movements| == n + 1 && s'.debts[k].originTransaction == Some(n)
            && c.account == Some(s'.movements[n].account) && c.at == Some(s'.movements[n].occurredAt)
            && s'.movements[n].amount == c.amount && s'.movements[n].currency == c.currency
            && s'.movements[n].status == Posted
            && s'.movements[n].effect == (if c.origin == LendNow then Outflow else Inflow)
          else
            s'.debts[k].originTransaction == None && s'.movements == s.movements && s'.accounts == s.accounts)
  {
  }

  /** A repayment adds one payment with its movement, and of the debt changes the status and the version only. */
  lemma RepaymentIsRecorded(s: State, now: Time, d: nat, c: RepayCommand)
    requires Repay(s, now, d, c).Ok?
    ensures var s', n := Repay(s, now, d, c).value, |s.movements|;
      && d < |s.debts| && OnlyDebts(s, s') && OthersKept(s.debts, s'.debts, d) && |s'.debts| == |s.debts|
      && s'.debts[d] == s.debts[d].(status := s'.debts[d].status, version := s.debts[d].version + 1)
      && s'.payments == s.payments + [Payment(d, n, c.amount, c.paidAt)]
      && s.movements <= s'.movements && |s'.movements| == n + 1
      && s'.movements[n].account == c.account && s'.movements[n].amount == c.amount
      && s'.movements[n].currency == c.currency && s'.movements[n].occurredAt == c.paidAt
      && s'.movements[n].status == Posted
      && s'.movements[n].effect == if s.debts[d].direction == Receivable then Inflow else Outflow
  {
  }

  /** Cancelling changes the status of one debt, remembers when, and steps its version. */
  lemma DebtIsCancelled(s: State, now: Time, d: nat, version: nat, reason: string)
    requires CancelDebt(s, now, d, version, reason).Ok?
    ensures var s' := CancelDebt(s, now, d, version, reason).value;
      && d < |s.debts| && s' == s.(debts := s'.debts)
      && OthersKept(s.debts, s'.debts, d) && |s'.debts| == |s.debts|
      && s.debts[d].version == version && s'.debts[d].version == version + 1
      && s'.debts[d].status == Cancelled && s'.debts[d].cancelledAt == Some(now)
      && s'.debts[d].(status := s.debts[d].status, cancelledAt := s.debts[d].cancelledAt, version := version)
         == s.debts[d]
  {
  }

  /** A payment is accepted exactly on a debt that was not cancelled, in its currency, up to what remains of it, from
      or to an account that can post it; the debt is settled exactly by the payment of all that remains. */
  lemma RepaidIff(s: State, now: Time, d: nat, c: RepayCommand)
    requires DebtsSound(s)
    ensures Repay(s, now, d, c).Ok? <==>
      && d < |s.debts| && s.debts[d].status != Cancelled && c.currency == s.debts[d].currency
      && 0 < c.amount <= s.debts[d].amount - Paid(s.payments, d)
      && CanPost(s, now, c.account, c.currency, c.amount,
                 if s.debts[d].direction == Receivable then Inflow else Outflow, c.paidAt)
    ensures Repay(s, now, d, c).Ok? ==>
      (Repay(s, now, d, c).value.debts[d].status == Settled <==> c.amount == s.debts[d].amount - Paid(s.payments, d))
  {
    if d < |s.debts| {
      PaidIsNonNegative(s, d);
      assert AcceptsDebt(s, d) && DebtChecks(s.debts[d]);
    }
  }

  /** Too large a payment, and any payment on a debt with nothing left to pay, is told so. */
  lemma OverpaymentsAreTold(s: State, now: Time, d: nat, c: RepayCommand)
    requires DebtsSound(s) && d < |s.debts| && c.amount > 0 && c.paidAt <= now + FIVE_MINUTES
    requires c.currency == s.debts[d].currency && s.debts[d].status != Cancelled
    ensures c.amount > s.debts[d].amount - Paid(s.payments, d) > 0 ==> Repay(s, now, d, c) == Err(DebtOverpayment)
    ensures s.debts[d].amount == Paid(s.payments, d) ==> Repay(s, now, d, c) == Err(DebtNotOpen)
  {
    PaidIsNonNegative(s, d);
    assert AcceptsDebt(s, d) && DebtChecks(s.debts[d]);
  }

  // ---- Every debt stays sound ----

  /** No payment is larger than what remains, so none can make the paid sum negative or too large. */
  lemma PaidIsNonNegative(s: State, d: nat)
    requires DebtsSound(s)
    ensures Paid(s.payments, d) >= 0
  {
    forall i | 0 <= i < |s.payments| ensures PaidOn(d)(s.payments[i]) >= 0 {
      assert PaymentRow(s, s.payments[i]);
    }
    SumNonNegative(s.payments, PaidOn(d));
  }

  /** A debt row keeps passing its trigger whatever happens to the expense and income rows. */
  lemma DebtStaysAccepted(s: State, s': State, d: nat)
    requires d < |s.debts| && d < |s'.debts| && s'.debts[d] == s.debts[d] && AcceptsDebt(s, d)
    requires SpecialisedRowsKept(s.movements, s'.movements)
    requires Paid(s'.payments, d) == Paid(s.payments, d)
    requires |s.payments| <= |s'.payments| && s'.payments[..|s.payments|] == s.payments
    requires forall i :: |s.payments| <= i < |s'.payments| ==> s'.payments[i].debt != d
    ensures AcceptsDebt(s', d)
  {
  }

  /** Steps that leave debts and payments alone. */
  lemma DebtsStaySound(s: State, s': State)
    requires DebtsSound(s) && SpecialisedRowsKept(s.movements, s'.movements)
    requires s'.debts == s.debts && s'.payments == s.payments
    ensures DebtsSound(s')
  {
  }

  /** Appending a debt that has no payments yet. */
  lemma NewDebtSound(s: State, s': State, debt: Debt)
    requires DebtsSound(s) && SpecialisedRowsKept(s.movements, s'.movements)
    requires s'.debts == s.debts + [debt] && s'.payments == s.payments
    requires DebtChecks(debt) && debt.status == Open && OriginCoherent(s'.movements, debt)
    ensures DebtsSound(s')
  {
    var n := |s.debts|;
    assert s'.payments[..|s.payments|] == s.payments;
    forall i | 0 <= i < |s'.payments| ensures PaymentRow(s', s'.payments[i]) && s'.payments[i].debt != n {
      assert PaymentRow(s, s.payments[i]);
    }
    SumZero(s'.payments, PaidOn(n));
    forall d: nat | d < |s'.debts| ensures DebtChecks(s'.debts[d]) && AcceptsDebt(s', d) {
      if d < n {
        DebtStaysAccepted(s, s', d);
      }
    }
  }

  /** Changing one debt row in a way that fits its payments; terms that payments depend on stay. */
  lemma ChangedDebtSound(s: State, s': State, d: nat, debt: Debt)
    requires DebtsSound(s) && SpecialisedRowsKept(s.movements, s'.movements)
    requires d < |s.debts| && s'.debts == s.debts[d := debt] && s'.payments == s.payments
    requires DebtChecks(debt) && OriginCoherent(s'.movements, debt)
    requires debt.direction == s.debts[d].direction && debt.currency == s.debts[d].currency
    requires Paid(s.payments, d) <= debt.amount
    requires debt.status != Cancelled ==> debt.status == ImpliedStatus(Paid(s.payments, d), debt.amount)
    ensures DebtsSound(s')
  {
    assert s'.payments[..|s.payments|] == s.payments;
    forall i | 0 <= i < |s'.payments| ensures PaymentRow(s', s'.payments[i]) {
      assert PaymentRow(s, s.payments[i]);
    }
    forall i | 0 <= i < |s'.payments| && s'.payments[i].debt == d
      ensures PaymentCoherent(s'.movements, debt, s'.payments[i])
    {
      assert PaymentCoherent(s.movements, s.debts[d], s.payments[i]);
      assert KeptOrCore(s.movements[s.payments[i].transaction], s'.movements[s.payments[i].transaction]);
    }
    forall e: nat | e < |s'.debts| ensures DebtChecks(s'.debts[e]) && AcceptsDebt(s', e) {
      if e != d {
        DebtStaysAccepted(s, s', e);
      }
    }
  }

  lemma CreateDebtKeepsDebts(s: State, now: Time, c: CreateDebtCommand)
    requires DebtsSound(s) && CreateDebt(s, now, c).Ok?
    ensures var s' := CreateDebt(s, now, c).value;
            DebtsSound(s') && SpecialisedRowsKept(s.movements, s'.movements)
  {
    var s' := CreateDebt(s, now, c).value;
    var origin := if CashOrigin(c.origin) then Some(|s.movements|) else None;
    NewDebtSound(s, s', NewDebt(c, origin, now));
  }

  /** A repayment never exceeds what remains, and the status it leaves is the one that the payments imply. */
  lemma RepayKeepsDebts(s: State, now: Time, d: nat, c: RepayCommand)
    requires DebtsSound(s) && Repay(s, now, d, c).Ok?
    ensures var s' := Repay(s, now, d, c).value;
            && DebtsSound(s') && SpecialisedRowsKept(s.movements, s'.movements)
            && Paid(s'.payments, d) == Paid(s.payments, d) + c.amount <= s'.debts[d].amount
  {
    var s' := Repay(s, now, d, c).value;
    var p := Payment(d, |s.movements|, c.amount, c.paidAt);
    PaidIsNonNegative(s, d);
    assert AcceptsDebt(s, d) && DebtChecks(s.debts[d]);
    forall e ensures Paid(s'.payments, e) == Paid(s.payments, e) + if e == d then c.amount else 0 {
      SumAppend(s.payments, p, PaidOn(e));
    }
    forall i | 0 <= i < |s'.payments| ensures PaymentRow(s', s'.payments[i]) {
      assert i < |s.payments| ==> PaymentRow(s, s.payments[i]);
    }
    forall e: nat | e < |s'.debts| ensures DebtChecks(s'.debts[e]) && AcceptsDebt(s', e) {
      if e != d {
        DebtStaysAccepted(s, s', e);
      } else {
        RepaidDebtAccepted(s, s', now, d, c);
      }
    }
  }

  lemma RepaidDebtAccepted(s: State, s': State, now: Time, d: nat, c: RepayCommand)
    requires DebtsSound(s) && Repay(s, now, d, c) == Ok(s')
    requires Paid(s.payments, d) >= 0 && Paid(s'.payments, d) == Paid(s.payments, d) + c.amount
    ensures AcceptsDebt(s', d)
  {
  }

  lemma CancelDebtKeepsDebts(s: State, now: Time, d: nat, version: nat, reason: string)
    requires DebtsSound(s) && CancelDebt(s, now, d, version, reason).Ok?
    ensures DebtsSound(CancelDebt(s, now, d, version, reason).value)
    ensures s.debts[d].status != Cancelled ==> Paid(s.payments, d) < s.debts[d].amount
  {
  }

  // ---- What the cash steps do to the ledger ----

  /** The rows that creating a debt posts. */
  function RowsOfDebt(c: CreateDebtCommand): seq<Movement> {
    if CashOrigin(c.origin) && c.account.Some? && c.at.Some? then [PrincipalRow(c)] else []
  }

  function DateOfDebt(c: CreateDebtCommand): Time { if RowsOfDebt(c) == [] then 0 else c.at.value }

  lemma CreateDebtShifts(s: State, now: Time, c: CreateDebtCommand)
    requires Sound(s) && CreateDebt(s, now, c).Ok?
    ensures var s', news, at := CreateDebt(s, now, c).value, RowsOfDebt(c), DateOfDebt(c);
            && Posts(s, s', at, news) && Covered(s, now, at, news)
            && s'.movements == s.movements + news
            && (forall i :: 0 <= i < |news| ==> PlainPosted(s.accounts, news[i]))
            && Sound(s') && Guarded(s.movements, s'.movements)
  {
    var s', news := CreateDebt(s, now, c).value, RowsOfDebt(c);
    if CashOrigin(c.origin) {
      assert news[0] == PrincipalRow(c);
      PostedRowsSound(s, s', c.at.value, news);
      CoveredSingle(s, now, c.at.value, PrincipalRow(c));
    } else {
      PostedRowsSound(s, s', 0, news);
    }
  }

  lemma RepayShifts(s: State, now: Time, d: nat, c: RepayCommand)
    requires Sound(s) && Repay(s, now, d, c).Ok?
    ensures d < |s.debts|
    ensures var s', m := Repay(s, now, d, c).value, RepaymentRow(s.debts[d], c);
            && Posts(s, s', c.paidAt, [m]) && Covered(s, now, c.paidAt, [m]) && PlainPosted(s.accounts, m)
            && s'.movements == s.movements + [m]
            && Sound(s') && Guarded(s.movements, s'.movements)
  {
    var s', m := Repay(s, now, d, c).value, RepaymentRow(s.debts[d], c);
    assert [m][0] == m;
    PostedRowsSound(s, s', c.paidAt, [m]);
    CoveredSingle(s, now, c.paidAt, m);
  }
}
