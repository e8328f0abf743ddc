/** The rows of one owner's ledger and the balance that is derived from them. */
module Ledger {
  import opened Common
  import opened Sums

  // Amounts are integers in units of 0.0001, times are microseconds, and the position of a
  // row in its table stands for the row's UUID.
  type Time = int
  type Currency = string

  const FIVE_MINUTES: Time := 300_000_000

  /** The largest NUMERIC(19,4) amount. */
  const MAX_AMOUNT := 9_999_999_999_999_999_999

  predicate InRange(amount: int) { -MAX_AMOUNT <= amount <= MAX_AMOUNT }

  datatype Effect = Inflow | Outflow

  datatype Status = Draft | Posted | Reversed | Voided

  datatype Kind =
    | Expense | Income
    | TransferOut | TransferIn | TransferFee
    | Refund
    | LoanPrincipalOut | LoanPrincipalIn
    | DebtRepaymentIn | DebtRepaymentOut
    | ReconciliationAdjustment
    | Reversal

  datatype AccountStatus = Active | Archived | Closed

  datatype Account = Account(
    currency: Currency,
    opening: int,
    openedAt: Time,
    includeInTotal: bool,
    allowNegative: bool,
    status: AccountStatus,
    version: nat)

  datatype Movement = Movement(
    account: nat,
    kind: Kind,
    effect: Effect,
    amount: int,
    currency: Currency,
    occurredAt: Time,
    status: Status,
    category: Option<nat>,
    parent: Option<nat>,
    reversalOf: Option<nat>,
    version: nat)

  /** What SHA-256 is taken of; two fingerprints are equal exactly when their sources are. */
  datatype Fingerprint =
    | OfPositions(positions: seq<(nat, nat, int)>)
    | OfReconciliation(account: nat, version: nat, balance: int, effectiveAt: Time)

  datatype Transfer = Transfer(
    source: nat,
    destination: nat,
    fee: Option<nat>,
    sourceAmount: int,
    destinationAmount: int,
    fxRate: Option<int>,
    session: Option<nat>,
    fingerprint: Fingerprint)

  datatype Reconciliation = Reconciliation(
    account: nat,
    calculated: int,
    actual: int,
    delta: int,
    effectiveAt: Time,
    adjustment: nat,
    fingerprint: Fingerprint)

  datatype Line = Line(account: nat, before: int, requested: int, delta: int)

  datatype Session = Session(
    fixedTotal: int,
    currency: Currency,
    balancing: nat,
    fingerprint: Fingerprint,
    lines: seq<Line>)

  datatype Direction = Receivable | Payable

  datatype Origin = Existing | LendNow | BorrowNow | SharedExpense

  datatype DebtStatus = Open | PartiallyPaid | Settled | Cancelled

  datatype Debt = Debt(
    person: nat,
    direction: Direction,
    origin: Origin,
    originTransaction: Option<nat>,
    amount: int,
    currency: Currency,
    status: DebtStatus,
    cancelledAt: Option<Time>,
    version: nat,
    createdAt: Time)

  datatype Payment = Payment(debt: nat, transaction: nat, amount: int, paidAt: Time)

  datatype Share = Share(
    transaction: nat,
    person: nat,
    amount: int,
    debt: nat,
    active: bool,
    version: nat)

  datatype State = State(
    accounts: seq<Account>,
    movements: seq<Movement>,
    transfers: seq<Transfer>,
    reconciliations: seq<Reconciliation>,
    sessions: seq<Session>,
    debts: seq<Debt>,
    payments: seq<Payment>,
    shares: seq<Share>)

  const EMPTY := State([], [], [], [], [], [], [], [])

  /** The tables as the services update them in place, inside one database transaction. */
  class Database {
    var accounts: seq<Account>
    var movements: seq<Movement>
    var transfers: seq<Transfer>
    var reconciliations: seq<Reconciliation>
    var sessions: seq<Session>
    var debts: seq<Debt>
    var payments: seq<Payment>
    var shares: seq<Share>

    constructor ()
      ensures Tables() == EMPTY
    {
      accounts, movements, transfers, reconciliations := [], [], [], [];
      sessions, debts, payments, shares := [], [], [], [];
    }

    function Tables(): State
      reads this
    {
      State(accounts, movements, transfers, reconciliations, sessions, debts, payments, shares)
    }

    /** `account.version += 1` for one locked account row. */
    method BumpVersion(a: nat)
      requires a < |accounts|
      modifies this`accounts
      ensures accounts == Bumped(old(accounts), a)
    {
      accounts := accounts[a := accounts[a].(version := accounts[a].version + 1)];
    }
  }

  /** A service call either commits the specified state or rolls back with its error. */
  ghost predicate Committed(before: State, after: State, specified: Result<State>, r: Result<Unit>) {
    match specified
    case Ok(s') => r == Ok(Unit) && after == s'
    case Err(e) => r == Err(e) && after == before
  }

  // ---- Balances ----

  predicate AffectsBalance(status: Status) { status == Posted || status == Reversed }

  function Signed(m: Movement): int {
    if m.effect == Inflow then m.amount else -m.amount
  }

  /** What a row adds to the balance of account `a` at time `t`. */
  function Entry(a: nat, t: Time): Movement -> int {
    (m: Movement) =>
      if m.account == a && AffectsBalance(m.status) && m.occurredAt <= t then Signed(m) else 0
  }

  function Total(ms: seq<Movement>, a: nat, t: Time): int { SumOf(ms, Entry(a, t)) }

  /** The balance at `t`, counting movements dated at `t` itself. */
  function Balance(s: State, a: nat, t: Time): int
    requires a < |s.accounts|
  {
    s.accounts[a].opening + Total(s.movements, a, t)
  }

  /** A balance read as money, which must fit the storage range. */
  function Snapshot(s: State, a: nat, asOf: Time): Result<int>
    requires a < |s.accounts|
  {
    var balance := Balance(s, a, asOf);
    if InRange(balance) then Ok(balance) else Err(AmountOutOfRange)
  }

  function Max(x: int, y: int): int { if x < y then y else x }

  // ---- Guards shared by the services ----

  predicate CoreKind(kind: Kind) { kind == Expense || kind == Income }

  function EffectFor(kind: Kind): Effect
    requires CoreKind(kind)
  {
    if kind == Expense then Outflow else Inflow
  }

  function RequireNotFuture(at: Time, now: Time): Result<Unit> {
    Need(at <= now + FIVE_MINUTES, TransactionInFuture)
  }

  function RequireActive(account: Account): Result<Unit> {
    match account.status
    case Active => Ok(Unit)
    case Archived => Err(AccountReadOnly)
    case Closed => Err(AccountClosed)
  }

  /** An owned, active account of the right currency. */
  function RequirePostingAccount(s: State, a: nat, currency: Currency): (r: Result<Unit>)
    ensures r.Ok? <==> a < |s.accounts| && s.accounts[a].currency == currency && s.accounts[a].status == Active
  {
    var _ :- Need(a < |s.accounts|, AccountNotFound);
    var _ :- Need(s.accounts[a].currency == currency, CurrencyMismatch);
    RequireActive(s.accounts[a])
  }

  function RequireNonNegative(projected: int): Result<Unit> {
    var _ :- Need(InRange(projected), AmountOutOfRange);
    Need(projected >= 0, NegativeBalanceNotAllowed)
  }

  /** The negative-balance policy as it is checked before a single posting. */
  function RequireProjectedBalance(s: State, now: Time, a: nat, amount: int, effect: Effect, at: Time): Result<Unit>
    requires a < |s.accounts|
  {
    if s.accounts[a].allowNegative || effect == Inflow then Ok(Unit) else
    var balance :- Snapshot(s, a, Max(now, at));
    RequireNonNegative(balance - amount)
  }

  /** The account can take or give the amount at that time. */
  predicate CanPost(s: State, now: Time, a: nat, currency: Currency, amount: int, effect: Effect, at: Time) {
    && a < |s.accounts| && s.accounts[a].currency == currency && s.accounts[a].status == Active
    && s.accounts[a].openedAt <= at <= now + FIVE_MINUTES
    && (effect == Outflow && !s.accounts[a].allowNegative ==>
         InRange(Balance(s, a, Max(now, at))) && InRange(Balance(s, a, Max(now, at)) - amount)
         && Balance(s, a, Max(now, at)) >= amount)
  }

  /** The one shape that every specialised service posts. */
  function BuildPostedMovement(
      account: nat, kind: Kind, effect: Effect, amount: int, currency: Currency, at: Time)
    : Movement
  {
    Movement(account, kind, effect, amount, currency, at, Posted, None, None, None, 1)
  }

  function Bumped(accounts: seq<Account>, a: nat): (r: seq<Account>)
    requires a < |accounts|
    ensures |r| == |accounts|
  {
    accounts[a := accounts[a].(version := accounts[a].version + 1)]
  }

  // ---- The effect of a posting step on the balances ----

  function Net(news: seq<Movement>, a: nat): int { SumOf(news, SignedOn(a)) }

  function SignedOn(a: nat): Movement -> int {
    (m: Movement) => if m.account == a then Signed(m) else 0
  }

  predicate Touches(news: seq<Movement>, a: nat) { exists i :: 0 <= i < |news| && news[i].account == a }

  /** Account rows change by at most the version, and exactly on the accounts that are posted to. */
  ghost predicate BumpsTouched(before: seq<Account>, after: seq<Account>, news: seq<Movement>) {
    |after| == |before| &&
    forall a :: 0 <= a < |before| ==>
      after[a] == if Touches(news, a) then before[a].(version := before[a].version + 1) else before[a]
  }

  /** From `at` on, every balance is higher by what `news` brings to its account. */
  ghost predicate ShiftsBy(before: seq<Movement>, after: seq<Movement>, at: Time, news: seq<Movement>) {
    forall a, t :: Total(after, a, t) == Total(before, a, t) + if t >= at then Net(news, a) else 0
  }

  /** The step posts the rows `news`, all dated `at`, and nothing else that a balance could see. */
  ghost predicate Posts(s: State, s': State, at: Time, news: seq<Movement>) {
    BumpsTouched(s.accounts, s'.accounts, news) && ShiftsBy(s.movements, s'.movements, at, news)
  }

  lemma PostedBalance(s: State, s': State, at: Time, news: seq<Movement>, a: nat, t: Time)
    requires Posts(s, s', at, news) && a < |s.accounts|
    ensures a < |s'.accounts| && Balance(s', a, t) == Balance(s, a, t) + if t >= at then Net(news, a) else 0
  {
    assert Total(s'.movements, a, t) == Total(s.movements, a, t) + if t >= at then Net(news, a) else 0;
  }

  lemma AppendShifts(before: seq<Movement>, at: Time, news: seq<Movement>)
    requires forall i :: 0 <= i < |news| ==> AffectsBalance(news[i].status) && news[i].occurredAt == at
    ensures ShiftsBy(before, before + news, at, news)
  {
    forall a, t
      ensures Total(before + news, a, t) == Total(before, a, t) + if t >= at then Net(news, a) else 0
    {
      SumConcat(before, news, Entry(a, t));
      if t >= at {
        SumAgree(news, news, Entry(a, t), SignedOn(a));
      } else {
        SumZero(news, Entry(a, t));
      }
    }
  }

  /** Untouched accounts receive nothing. */
  lemma NetUntouched(news: seq<Movement>, a: nat)
    requires !Touches(news, a)
    ensures Net(news, a) == 0
  {
    SumZero(news, SignedOn(a));
  }

  lemma NetSingle(m: Movement, a: nat)
    ensures Net([m], a) == if m.account == a then Signed(m) else 0
  {
    SumAppend([], m, SignedOn(a));
    assert [] + [m] == [m];
  }

  /** Rows that the balance does not see change nothing. */
  lemma UnseenShifts(before: seq<Movement>, after: seq<Movement>)
    requires |before| <= |after|
    requires forall i :: 0 <= i < |before| ==>
      after[i] == before[i] || (!AffectsBalance(before[i].status) && !AffectsBalance(after[i].status))
    requires forall i :: |before| <= i < |after| ==> !AffectsBalance(after[i].status)
    ensures ShiftsBy(before, after, 0, [])
  {
    forall a, t ensures Total(after, a, t) == Total(before, a, t) {
      SumConcat(after[..|before|], after[|before|..], Entry(a, t));
      assert after == after[..|before|] + after[|before|..];
      SumAgree(before, after[..|before|], Entry(a, t), Entry(a, t));
      SumZero(after[|before|..], Entry(a, t));
    }
  }

  /** The policy check behind a posting: it brings money in, or the balance at the time of the check covers it. */
  ghost predicate Covered(s: State, now: Time, at: Time, news: seq<Movement>) {
    forall a: nat :: a < |s.accounts| && !s.accounts[a].allowNegative ==>
      Net(news, a) >= 0 || Balance(s, a, Max(now, at)) + Net(news, a) >= 0
  }

  lemma CoveredSingle(s: State, now: Time, at: Time, m: Movement)
    requires m.account < |s.accounts| && m.amount >= 0
    requires RequireProjectedBalance(s, now, m.account, m.amount, m.effect, at).Ok?
    ensures Covered(s, now, at, [m])
  {
    forall a: nat | a < |s.accounts| && !s.accounts[a].allowNegative
      ensures Net([m], a) >= 0 || Balance(s, a, Max(now, at)) + Net([m], a) >= 0
    {
      NetSingle(m, a);
    }
  }
}
