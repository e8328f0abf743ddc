/** Money in accounts plus net receivables, and which services leave their sum alone. */
module NetPosition {
  import opened Common
  import opened Sums
  import opened Ledger
  import opened History
  import opened Debts
  import Transfers
  import Accounts
  import Positions

  /** The conversion to the base currency at the valuation time; no result where no rate is known. */
  type Valuation = (int, Currency) -> Option<int>

  function Worth(value: Valuation, amount: int, currency: Currency): int {
    match value(amount, currency)
    case Some(x) => x
    case None => 0
  }

  ghost predicate IsBase(value: Valuation, base: Currency) { forall x :: value(x, base) == Some(x) }

  /** An account counts with its balance just before `through`, if it is included in the total and was open by then. */
  function AccountWorth(s: State, value: Valuation, through: Time): nat -> int {
    (a: nat) =>
      if a < |s.accounts| && s.accounts[a].includeInTotal && s.accounts[a].openedAt < through
      then Worth(value, Balance(s, a, through - 1), s.accounts[a].currency) else 0
  }

  function MoneyInAccounts(s: State, value: Valuation, through: Time): int {
    SumOf(Upto(|s.accounts|), AccountWorth(s, value, through))
  }

  function PaidBefore(d: nat, through: Time): Payment -> int {
    (p: Payment) => if p.debt == d && p.paidAt < through then p.amount else 0
  }

  function Remaining(s: State, d: nat, through: Time): int
    requires d < |s.debts|
  {
    Max(0, s.debts[d].amount - SumOf(s.payments, PaidBefore(d, through)))
  }

  /** A debt counts with what remains of it, if it was recorded by then and is not cancelled. */
  function DebtWorth(s: State, value: Valuation, through: Time): nat -> int {
    (d: nat) =>
      if d < |s.debts| && s.debts[d].createdAt < through && s.debts[d].status != Cancelled
      then Sign(s.debts[d].direction) * Worth(value, Remaining(s, d, through), s.debts[d].currency) else 0
  }

  function Sign(direction: Direction): int { if direction == Receivable then 1 else -1 }

  function NetReceivables(s: State, value: Valuation, through: Time): int {
    SumOf(Upto(|s.debts|), DebtWorth(s, value, through))
  }

  function NetWorth(s: State, value: Valuation, through: Time): int {
    MoneyInAccounts(s, value, through) + NetReceivables(s, value, through)
  }

  // ---- The loops ----

  /** The balance that the source selects per account: opening plus every posted or reversed movement before
      `through`. */
  method ComputeBalance(s: State, a: nat, through: Time) returns (native: int)
    requires a < |s.accounts|
    ensures native == Balance(s, a, through - 1)
  {
    native := s.accounts[a].opening;
    for j := 0 to |s.movements|
      invariant native == s.accounts[a].opening + Total(s.movements[..j], a, through - 1)
    {
      var m := s.movements[j];
      assert s.movements[..j + 1] == s.movements[..j] + [m];
      SumAppend(s.movements[..j], m, Entry(a, through - 1));
      if m.account == a && AffectsBalance(m.status) && m.occurredAt < through {
        native := native + if m.effect == Inflow then m.amount else -m.amount;
      }
    }
    assert s.movements[..|s.movements|] == s.movements;
  }

  method ComputeMoneyInAccounts(s: State, value: Valuation, through: Time) returns (total: int)
    ensures total == MoneyInAccounts(s, value, through)
  {
    total := 0;
    for a := 0 to |s.accounts|
      invariant total == SumOf(Upto(a), AccountWorth(s, value, through))
    {
      SumAppend<nat>(Upto(a), a, AccountWorth(s, value, through));
      var account := s.accounts[a];
      if account.includeInTotal && account.openedAt < through {
        var native := ComputeBalance(s, a, through);
        var converted := value(native, account.currency);
        if converted.Some? {
          total := total + converted.value;
        }
      }
    }
  }

  method ComputePaid(payments: seq<Payment>, through: Time) returns (paid: map<nat, int>)
    ensures forall d: nat :: (if d in paid then paid[d] else 0) == SumOf(payments, PaidBefore(d, through))
  {
    paid := map[];
    for j := 0 to |payments|
      invariant forall d: nat :: (if d in paid then paid[d] else 0) == SumOf(payments[..j], PaidBefore(d, through))
    {
      var p := payments[j];
      assert payments[..j + 1] == payments[..j] + [p];
      forall d: nat ensures SumOf(payments[..j + 1], PaidBefore(d, through))
                         == SumOf(payments[..j], PaidBefore(d, through)) + PaidBefore(d, through)(p) {
        SumAppend(payments[..j], p, PaidBefore(d, through));
      }
      if p.paidAt < through {
        paid := paid[p.debt := (if p.debt in paid then paid[p.debt] else 0) + p.amount];
      }
    }
    assert payments[..|payments|] == payments;
  }

  method ComputeNetReceivables(s: State, value: Valuation, through: Time) returns (result: int)
    ensures result == NetReceivables(s, value, through)
  {
    var paid := ComputePaid(s.payments, through);
    result := 0;
    for d := 0 to |s.debts|
      invariant result == SumOf(Upto(d), DebtWorth(s, value, through))
    {
      SumAppend<nat>(Upto(d), d, DebtWorth(s, value, through));
      var debt := s.debts[d];
      if debt.createdAt < through && debt.status != Cancelled {
        var remaining := Max(0, debt.amount - if d in paid then paid[d] else 0);
        assert remaining == Remaining(s, d, through);
        var converted := value(remaining, debt.currency);
        if converted.Some? {
          result := result + if debt.direction == Receivable then converted.value else -converted.value;
        }
      }
    }
  }

  // ---- One changed term ----

  lemma {:induction false} OneTermChanges(n: nat, k: nat, f: nat -> int, g: nat -> int)
    requires forall i :: 0 <= i < n && i != k ==> f(i) == g(i)
    ensures SumOf(Upto(n), g) == SumOf(Upto(n), f) + if k < n then g(k) - f(k) else 0
  {
    if n > 0 {
      OneTermChanges(n - 1, k, f, g);
      SumAppend<nat>(Upto(n - 1), n - 1, f);
      SumAppend<nat>(Upto(n - 1), n - 1, g);
    }
  }

  lemma {:induction false} TwoTermsChange(n: nat, k: nat, l: nat, f: nat -> int, g: nat -> int)
    requires k != l && k < n && l < n
    requires forall i :: 0 <= i < n && i != k && i != l ==> f(i) == g(i)
    ensures SumOf(Upto(n), g) == SumOf(Upto(n), f) + g(k) - f(k) + g(l) - f(l)
  {
    var h := (i: nat) => if i == k then g(i) else f(i);
    OneTermChanges(n, k, f, h);
    OneTermChanges(n, l, h, g);
  }

  // ---- Lending, borrowing and repaying ----

  predicate Counts(s: State, a: nat) { a < |s.accounts| && s.accounts[a].includeInTotal }

  /** A step that posts one movement changes the money in accounts by it once it is dated, if its account is
      included. */
  lemma OneMovementCounts(s: State, s': State, value: Valuation, through: Time, m: Movement)
    requires Posts(s, s', m.occurredAt, [m])
    requires m.account < |s.accounts| && s.accounts[m.account].openedAt <= m.occurredAt
    requires m.currency == s.accounts[m.account].currency && IsBase(value, m.currency)
    ensures MoneyInAccounts(s', value, through)
         == MoneyInAccounts(s, value, through)
            + if s.accounts[m.account].includeInTotal && m.occurredAt < through then Signed(m) else 0
  {
    var f, g := AccountWorth(s, value, through), AccountWorth(s', value, through);
    forall a: nat | a < |s.accounts|
      ensures g(a) == f(a) + if a == m.account && Counts(s, a) && m.occurredAt < through then Signed(m) else 0
    {
      NetSingle(m, a);
      PostedBalance(s, s', m.occurredAt, [m], a, through - 1);
      PostedTerms(s, s', m.occurredAt, [m], a);
      if Counts(s, a) {
        ShiftedWorth(s, s', value, through, a, if a == m.account && m.occurredAt < through then Signed(m) else 0);
      }
    }
    OneTermChanges(|s.accounts|, m.account, f, g);
  }

  lemma NewDebtCounts(s: State, s': State, value: Valuation, through: Time, debt: Debt)
    requires DebtsSound(s) && s'.debts == s.debts + [debt] && s'.payments == s.payments
    requires debt.status == Open && debt.amount > 0 && IsBase(value, debt.currency)
    ensures NetReceivables(s', value, through) == NetReceivables(s, value, through)
      + if debt.createdAt < through then Sign(debt.direction) * debt.amount else 0
  {
    var n := |s.debts|;
    var f, g := DebtWorth(s, value, through), DebtWorth(s', value, through);
    SumAppend<nat>(Upto(n), n, g);
    forall i: nat | i < n ensures f(i) == g(i) {
      assert s'.debts[i] == s.debts[i];
    }
    OneTermChanges(n, n, f, g);
    forall i | 0 <= i < |s.payments| ensures PaidBefore(n, through)(s.payments[i]) == 0 {
      assert PaymentRow(s, s.payments[i]);
    }
    SumZero(s.payments, PaidBefore(n, through));
  }

  /** Lending or borrowing cash leaves the net position alone exactly when the movement and the debt's creation
      fall on the same side of the valuation: the movement counts from its own date, the debt from the moment it
      was recorded. */
  lemma CashDebtsKeepNetWorth(s: State, now: Time, c: CreateDebtCommand, value: Valuation, through: Time)
    requires Sound(s) && DebtsSound(s) && CreateDebt(s, now, c).Ok? && CashOrigin(c.origin)
    requires Counts(s, c.account.value) && IsBase(value, c.currency)
    ensures c.at.Some?
    ensures NetWorth(CreateDebt(s, now, c).value, value, through) == NetWorth(s, value, through)
       <==> ((c.at.value < through) == (now < through))
  {
    var s' := CreateDebt(s, now, c).value;
    CreateDebtShifts(s, now, c);
    OneMovementCounts(s, s', value, through, PrincipalRow(c));
    NewDebtCounts(s, s', value, through, NewDebt(c, Some(|s.movements|), now));
  }

  /** A new account adds its opening balance to the money in accounts, if it is included and open by the bound. */
  lemma OpenedAccountsCount(s: State, now: Time, c: Accounts.OpenAccountCommand, value: Valuation, through: Time)
    requires Sound(s) && Accounts.OpenAccount(s, now, c).Ok? && IsBase(value, c.currency)
    ensures MoneyInAccounts(Accounts.OpenAccount(s, now, c).value, value, through)
         == MoneyInAccounts(s, value, through) + if c.includeInTotal && c.openedAt < through then c.opening else 0
  {
    var s', n := Accounts.OpenAccount(s, now, c).value, |s.accounts|;
    var f, g := AccountWorth(s, value, through), AccountWorth(s', value, through);
    Accounts.AccountIsOpened(s, now, c, through - 1);
    forall a: nat | a < n ensures f(a) == g(a) {
      assert s'.accounts[a] == s.accounts[a];
    }
    OneTermChanges(n, n, f, g);
    SumAppend<nat>(Upto(n), n, g);
  }

  /** What a debt of the given direction is worth to the owner. */
  function Claim(direction: Direction, amount: int): int {
    match direction
    case Receivable => amount
    case Payable => -amount
  }

  /** Recording a debt of any origin changes the net receivables by its amount, in the direction that was asked for,
      once the bound lies after the recording. */
  lemma RecordedDebtsCount(s: State, now: Time, c: CreateDebtCommand, value: Valuation, through: Time)
    requires DebtsSound(s) && CreateDebt(s, now, c).Ok? && IsBase(value, c.currency)
    ensures NetReceivables(CreateDebt(s, now, c).value, value, through)
         == NetReceivables(s, value, through) + if now < through then Claim(c.direction, c.amount) else 0
  {
    var s' := CreateDebt(s, now, c).value;
    DebtIsRecorded(s, now, c);
    var debt := s'.debts[|s.debts|];
    assert s'.debts == s.debts + [debt];
    NewDebtCounts(s, s', value, through, debt);
  }

  lemma SameMoney(s: State, s': State, value: Valuation, through: Time)
    requires s'.accounts == s.accounts && s'.movements == s.movements
    ensures MoneyInAccounts(s', value, through) == MoneyInAccounts(s, value, through)
  {
    var n, f, g := |s.accounts|, AccountWorth(s, value, through), AccountWorth(s', value, through);
    forall a: nat | a < n ensures f(a) == g(a) {
    }
    OneTermChanges(n, n, f, g);
  }

  /** A debt that existed before moves no money, so the net position changes by all of it. */
  lemma ExistingDebtsChangeNetWorth(s: State, now: Time, c: CreateDebtCommand, value: Valuation, through: Time)
    requires DebtsSound(s) && CreateDebt(s, now, c).Ok? && c.origin == Existing && IsBase(value, c.currency)
    ensures NetWorth(CreateDebt(s, now, c).value, value, through)
         == NetWorth(s, value, through) + if now < through then Claim(c.direction, c.amount) else 0
  {
    RecordedDebtsCount(s, now, c, value, through);
    DebtIsRecorded(s, now, c);
    SameMoney(s, CreateDebt(s, now, c).value, value, through);
  }

  /** Cancelling a debt writes off exactly what remained of it, unless it had been cancelled before or was recorded
      later than the bound. */
  lemma CancellationWritesOff(
      s: State, now: Time, d: nat, version: nat, reason: string, value: Valuation, through: Time)
    requires CancelDebt(s, now, d, version, reason).Ok? && d < |s.debts| && IsBase(value, s.debts[d].currency)
    ensures NetWorth(CancelDebt(s, now, d, version, reason).value, value, through)
         == NetWorth(s, value, through)
            - if s.debts[d].status != Cancelled && s.debts[d].createdAt < through
              then Claim(s.debts[d].direction, Remaining(s, d, through)) else 0
  {
    var s' := CancelDebt(s, now, d, version, reason).value;
    var f, g := DebtWorth(s, value, through), DebtWorth(s', value, through);
    DebtIsCancelled(s, now, d, version, reason);
    SameMoney(s, s', value, through);
    forall e: nat | e < |s.debts| && e != d ensures f(e) == g(e) {
      assert s'.debts[e] == s.debts[e];
    }
    OneTermChanges(|s.debts|, d, f, g);
  }

  lemma PaidBeforeIsAtMostPaid(s: State, d: nat, through: Time)
    requires DebtsSound(s) && d < |s.debts|
    ensures SumOf(s.payments, PaidBefore(d, through)) <= s.debts[d].amount
  {
    forall i | 0 <= i < |s.payments| ensures PaidBefore(d, through)(s.payments[i]) <= PaidOn(d)(s.payments[i]) {
      assert PaymentRow(s, s.payments[i]);
    }
    SumAtMost(s.payments, PaidBefore(d, through), PaidOn(d));
    assert AcceptsDebt(s, d);
  }

  lemma RepaidBefore(s: State, now: Time, d: nat, c: RepayCommand, e: nat, through: Time)
    requires Repay(s, now, d, c).Ok?
    ensures SumOf(Repay(s, now, d, c).value.payments, PaidBefore(e, through))
         == SumOf(s.payments, PaidBefore(e, through)) + if e == d && c.paidAt < through then c.amount else 0
  {
    SumAppend(s.payments, Payment(d, |s.movements|, c.amount, c.paidAt), PaidBefore(e, through));
  }

  lemma OtherDebtWorth(s: State, now: Time, d: nat, c: RepayCommand, value: Valuation, through: Time, e: nat)
    requires Repay(s, now, d, c).Ok? && e < |s.debts| && e != d
    ensures DebtWorth(Repay(s, now, d, c).value, value, through)(e) == DebtWorth(s, value, through)(e)
  {
    RepaidBefore(s, now, d, c, e, through);
    assert Repay(s, now, d, c).value.debts[e] == s.debts[e];
  }

  /** What remains of the debt is less by the amount, since no more than the debt was ever paid. */
  lemma RepaidRemaining(s: State, now: Time, d: nat, c: RepayCommand, through: Time)
    requires DebtsSound(s) && Repay(s, now, d, c).Ok?
    ensures d < |s.debts| && |Repay(s, now, d, c).value.debts| == |s.debts|
    ensures Remaining(Repay(s, now, d, c).value, d, through)
         == Remaining(s, d, through) - if c.paidAt < through then c.amount else 0
  {
    RepayKeepsDebts(s, now, d, c);
    PaidBeforeIsAtMostPaid(s, d, through);
    PaidBeforeIsAtMostPaid(Repay(s, now, d, c).value, d, through);
    RepaidBefore(s, now, d, c, d, through);
  }

  lemma RepaidDebtWorth(s: State, now: Time, d: nat, c: RepayCommand, value: Valuation, through: Time)
    requires DebtsSound(s) && Repay(s, now, d, c).Ok? && IsBase(value, c.currency)
    ensures d < |s.debts|
    ensures DebtWorth(Repay(s, now, d, c).value, value, through)(d) == DebtWorth(s, value, through)(d)
      - if c.paidAt < through && s.debts[d].createdAt < through then Sign(s.debts[d].direction) * c.amount else 0
  {
    RepaidRemaining(s, now, d, c, through);
    var debt, debt' := s.debts[d], Repay(s, now, d, c).value.debts[d];
    assert debt.status != Cancelled && debt'.status != Cancelled && debt.currency == c.currency;
    assert debt'.direction == debt.direction && debt'.currency == debt.currency && debt'.createdAt == debt.createdAt;
  }

  lemma RepaymentCounts(s: State, now: Time, d: nat, c: RepayCommand, value: Valuation, through: Time)
    requires DebtsSound(s) && Repay(s, now, d, c).Ok? && IsBase(value, c.currency)
    ensures d < |s.debts|
    ensures NetReceivables(Repay(s, now, d, c).value, value, through) == NetReceivables(s, value, through)
      - if c.paidAt < through && s.debts[d].createdAt < through then Sign(s.debts[d].direction) * c.amount else 0
  {
    var f, g := DebtWorth(s, value, through), DebtWorth(Repay(s, now, d, c).value, value, through);
    forall e: nat | e < |s.debts| && e != d ensures f(e) == g(e) {
      OtherDebtWorth(s, now, d, c, value, through, e);
    }
    RepaidDebtWorth(s, now, d, c, value, through);
    OneTermChanges(|s.debts|, d, f, g);
  }

  /** A repayment leaves the net position alone exactly when it is not counted yet or its debt is. */
  lemma RepaymentsKeepNetWorth(s: State, now: Time, d: nat, c: RepayCommand, value: Valuation, through: Time)
    requires Sound(s) && DebtsSound(s) && Repay(s, now, d, c).Ok? && Counts(s, c.account) && IsBase(value, c.currency)
    ensures d < |s.debts|
    ensures NetWorth(Repay(s, now, d, c).value, value, through) == NetWorth(s, value, through)
       <==> (c.paidAt >= through || s.debts[d].createdAt < through)
  {
    RepayShifts(s, now, d, c);
    OneMovementCounts(s, Repay(s, now, d, c).value, value, through, RepaymentRow(s.debts[d], c));
    RepaymentCounts(s, now, d, c, value, through);
  }

  // ---- Own transfers ----

  /** A transfer without fee between two counted accounts of the base currency never changes the net position. */
  lemma TransfersKeepNetWorth(
      s: State, now: Time, c: Transfers.TransferCommand, preview: Transfers.Preview, value: Valuation, through: Time)
    requires Sound(s) && Transfers.Feasible(s, now, c, preview.destinationAmount) && c.fee.None?
    requires s.accounts[c.source].currency == s.accounts[c.destination].currency
    requires IsBase(value, s.accounts[c.source].currency)
    requires Counts(s, c.source) && Counts(s, c.destination)
    ensures NetWorth(Transfers.Transferred(s, c, preview), value, through) == NetWorth(s, value, through)
  {
    TransferMoney(s, now, c, preview, value, through);
    SameReceivables(s, Transfers.Transferred(s, c, preview), value, through);
  }

  lemma SameReceivables(s: State, s': State, value: Valuation, through: Time)
    requires s'.debts == s.debts && s'.payments == s.payments
    ensures NetReceivables(s', value, through) == NetReceivables(s, value, through)
  {
    var n, f, g := |s.debts|, DebtWorth(s, value, through), DebtWorth(s', value, through);
    forall d: nat | d < n ensures f(d) == g(d) {
    }
    OneTermChanges(n, n, f, g);
  }

  lemma TransferBalance(s: State, now: Time, c: Transfers.TransferCommand, preview: Transfers.Preview, a: nat, t: Time)
    requires Sound(s) && Transfers.Feasible(s, now, c, preview.destinationAmount) && a < |s.accounts|
    ensures a < |Transfers.Transferred(s, c, preview).accounts|
    ensures Transfers.Transferred(s, c, preview).accounts[a].(version := 0) == s.accounts[a].(version := 0)
    ensures Balance(Transfers.Transferred(s, c, preview), a, t) == Balance(s, a, t)
      + if t >= c.at then Transfers.DeltaOf(c, preview.destinationAmount, a) else 0
  {
    var s', news := Transfers.Transferred(s, c, preview), Transfers.NewRows(s, c, preview.destinationAmount);
    Transfers.RecordedPosts(s, now, c, preview);
    Transfers.NetOfRows(s, c, preview.destinationAmount, a);
    PostedBalance(s, s', c.at, news, a, t);
    PostedTerms(s, s', c.at, news, a);
  }

  lemma PostedTerms(s: State, s': State, at: Time, news: seq<Movement>, a: nat)
    requires Posts(s, s', at, news) && a < |s.accounts|
    ensures a < |s'.accounts| && s'.accounts[a].(version := 0) == s.accounts[a].(version := 0)
  {
  }

  /** What a transfer does to the worth of one account. */
  lemma TransferWorth(
      s: State, now: Time, c: Transfers.TransferCommand, preview: Transfers.Preview, value: Valuation, through: Time,
      a: nat)
    requires Sound(s) && Transfers.Feasible(s, now, c, preview.destinationAmount) && a < |s.accounts|
    requires Transfers.DeltaOf(c, preview.destinationAmount, a) != 0 ==>
      Counts(s, a) && s.accounts[a].openedAt <= c.at && IsBase(value, s.accounts[a].currency)
    ensures AccountWorth(Transfers.Transferred(s, c, preview), value, through)(a) == AccountWorth(s, value, through)(a)
      + if through > c.at then Transfers.DeltaOf(c, preview.destinationAmount, a) else 0
  {
    var s' := Transfers.Transferred(s, c, preview);
    TransferBalance(s, now, c, preview, a, through - 1);
    var delta := if through > c.at then Transfers.DeltaOf(c, preview.destinationAmount, a) else 0;
    ShiftedWorth(s, s', value, through, a, delta);
  }

  /** An account whose balance shifts counts for as much more, if it counts at all. */
  lemma ShiftedWorth(s: State, s': State, value: Valuation, through: Time, a: nat, delta: int)
    requires a < |s.accounts| && a < |s'.accounts|
    requires s'.accounts[a].(version := 0) == s.accounts[a].(version := 0)
    requires Balance(s', a, through - 1) == Balance(s, a, through - 1) + delta
    requires delta != 0 ==>
      Counts(s, a) && s.accounts[a].openedAt < through && IsBase(value, s.accounts[a].currency)
    ensures AccountWorth(s', value, through)(a) == AccountWorth(s, value, through)(a) + delta
  {
  }

  lemma TransferMoney(
      s: State, now: Time, c: Transfers.TransferCommand, preview: Transfers.Preview, value: Valuation, through: Time)
    requires Sound(s) && Transfers.Feasible(s, now, c, preview.destinationAmount) && c.fee.None?
    requires s.accounts[c.source].currency == s.accounts[c.destination].currency
    requires IsBase(value, s.accounts[c.source].currency)
    requires Counts(s, c.source) && Counts(s, c.destination)
    ensures MoneyInAccounts(Transfers.Transferred(s, c, preview), value, through) == MoneyInAccounts(s, value, through)
  {
    var f, g := AccountWorth(s, value, through), AccountWorth(Transfers.Transferred(s, c, preview), value, through);
    forall a: nat | a < |s.accounts| ensures a != c.source && a != c.destination ==> f(a) == g(a) {
      if a != c.source && a != c.destination {
        TransferWorth(s, now, c, preview, value, through, a);
      }
    }
    TransferWorth(s, now, c, preview, value, through, c.source);
    TransferWorth(s, now, c, preview, value, through, c.destination);
    TwoTermsChange(|s.accounts|, c.source, c.destination, f, g);
  }
}
