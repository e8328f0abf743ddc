/** Runs from the empty ledger that break what one would expect of the services. */
module Witnesses {
  import opened Common
  import opened Sums
  import opened Ledger
  import opened History
  import opened Debts
  import opened Sharing
  import opened Runs
  import opened NetPosition
  import opened StrandedShares
  import Accounts
  import Transactions

  /** A call that succeeds after a run takes it one state further. */
  lemma OneMore(calls: seq<Call>, s: State, call: Call, s': State)
    requires Run(EMPTY, calls) == s && Apply(s, call.now, call.op) == Ok(s')
    ensures Run(EMPTY, calls + [call]) == s'
  {
    assert (calls + [call])[..|calls|] == calls;
  }

  lemma OneMoreSplit(calls: seq<Call>, s: State, e: nat, c: CreateShareCommand, s': State)
    requires Run(EMPTY, calls) == s && CreateShare(s, 0, e, c) == Ok(s')
    ensures Run(EMPTY, calls + [Call(0, Split(e, c))]) == s'
  {
    OneMore(calls, s, Call(0, Split(e, c)), s');
  }

  lemma OneMoreResplit(calls: seq<Call>, s: State, i: nat, c: UpdateShareCommand, s': State)
    requires Run(EMPTY, calls) == s && UpdateShare(s, 0, i, c) == Ok(s')
    ensures Run(EMPTY, calls + [Call(0, Resplit(i, c))]) == s'
  {
    OneMore(calls, s, Call(0, Resplit(i, c)), s');
  }

  lemma OneMorePayment(calls: seq<Call>, s: State, i: nat, c: RepayCommand, s': State)
    requires Run(EMPTY, calls) == s && Repay(s, 0, i, c) == Ok(s')
    ensures Run(EMPTY, calls + [Call(0, PayBack(i, c))]) == s'
  {
    OneMore(calls, s, Call(0, PayBack(i, c)), s');
  }

  lemma OneMoreWaiver(calls: seq<Call>, s: State, i: nat, version: nat, reason: string, s': State)
    requires Run(EMPTY, calls) == s && CancelDebt(s, 0, i, version, reason) == Ok(s')
    ensures Run(EMPTY, calls + [Call(0, Waive(i, version, reason))]) == s'
  {
    OneMore(calls, s, Call(0, Waive(i, version, reason)), s');
  }

  lemma ReachedIsInvariant(calls: seq<Call>)
    ensures Invariant(Run(EMPTY, calls))
  {
    EmptyIsInvariant();
    RunsKeepTheInvariant(EMPTY, calls);
  }

  lemma OneRow<T>(row: T, f: T -> int)
    ensures SumOf([row], f) == f(row)
  {
    SumAppend([], row, f);
    assert [] + [row] == [row];
  }

  lemma TwoRows<T>(first: T, second: T, f: T -> int)
    ensures SumOf([first, second], f) == f(first) + f(second)
  {
    OneRow(first, f);
    SumAppend([first], second, f);
    assert [first] + [second] == [first, second];
  }

  // ---- A dinner is paid from an account and then split ----

  /** What is paid for it, in which currency, and how much of it one guest owes. */
  datatype Dinner = Dinner(currency: Currency, price: int, part: int)

  ghost predicate Plausible(d: Dinner) { 0 < d.part <= d.price <= MAX_AMOUNT }

  function Opening(d: Dinner): Accounts.OpenAccountCommand {
    Accounts.OpenAccountCommand(d.price, d.currency, 0, true, false)
  }

  function Fields(d: Dinner): Transactions.DraftFields {
    Transactions.DraftFields(0, Expense, d.price, d.currency, 0, None)
  }

  function OpenCalls(d: Dinner): seq<Call> { [Call(0, Op.Open(Opening(d)))] }

  function PaidCalls(d: Dinner): seq<Call> {
    OpenCalls(d) + [Call(0, Op.Draft(Fields(d), None))] + [Call(0, Post(0, 1, None))]
  }

  function Wallet(d: Dinner, version: nat): Account {
    Account(d.currency, d.price, 0, true, false, Active, version)
  }

  function OpenedState(d: Dinner): State { EMPTY.(accounts := [Wallet(d, 1)]) }

  function DinnerRow(d: Dinner, status: Status, version: nat): Movement {
    Movement(0, Expense, Outflow, d.price, d.currency, 0, status, None, None, None, version)
  }

  function DinnerState(d: Dinner): State {
    EMPTY.(accounts := [Wallet(d, 2)], movements := [DinnerRow(d, Posted, 2)])
  }

  lemma OpenedIsReached(d: Dinner)
    requires Plausible(d)
    ensures Run(EMPTY, OpenCalls(d)) == OpenedState(d)
  {
    assert EMPTY.accounts + [Wallet(d, 1)] == [Wallet(d, 1)];
    assert [] + OpenCalls(d) == OpenCalls(d);
    OneMore([], EMPTY, Call(0, Op.Open(Opening(d))), OpenedState(d));
  }

  lemma DinnerIsReached(d: Dinner)
    requires Plausible(d)
    ensures Run(EMPTY, PaidCalls(d)) == DinnerState(d)
  {
    var drafted := OpenedState(d).(movements := [DinnerRow(d, Status.Draft, 1)]);
    OpenedIsReached(d);
    DinnerIsDrafted(d, drafted);
    OneMore(OpenCalls(d), OpenedState(d), Call(0, Op.Draft(Fields(d), None)), drafted);
    DinnerIsPosted(d, drafted);
    OneMore(OpenCalls(d) + [Call(0, Op.Draft(Fields(d), None))], drafted, Call(0, Post(0, 1, None)), DinnerState(d));
  }

  lemma DinnerIsDrafted(d: Dinner, drafted: State)
    requires Plausible(d) && drafted == OpenedState(d).(movements := [DinnerRow(d, Status.Draft, 1)])
    ensures Apply(OpenedState(d), 0, Op.Draft(Fields(d), None)) == Ok(drafted)
  {
    assert OpenedState(d).movements + [DinnerRow(d, Status.Draft, 1)] == drafted.movements;
  }

  lemma DinnerIsPosted(d: Dinner, drafted: State)
    requires Plausible(d) && drafted == OpenedState(d).(movements := [DinnerRow(d, Status.Draft, 1)])
    ensures Apply(drafted, 0, Post(0, 1, None)) == Ok(DinnerState(d))
  {
    OneRow(DinnerRow(d, Status.Draft, 1), Entry(0, 0));
    assert drafted.movements[0 := DinnerRow(d, Posted, 2)] == DinnerState(d).movements;
    assert Bumped(drafted.accounts, 0) == DinnerState(d).accounts;
  }

  // ---- A cancelled share that the guards would revive ----

  function PartFor(d: Dinner, person: nat): CreateShareCommand { CreateShareCommand(person, true, d.part, d.currency) }

  function SplitCall(d: Dinner, person: nat): Call { Call(0, Split(0, PartFor(d, person))) }

  function Cancellation(reason: string): UpdateShareCommand { UpdateShareCommand(1, None, true, Some(reason)) }

  function Revival(d: Dinner): UpdateShareCommand { UpdateShareCommand(2, Some((d.part, d.currency)), false, None) }

  /** Person 2 takes a part, the part is cancelled, and person 1 takes it instead. */
  function RevivalCalls(d: Dinner, reason: string): seq<Call> {
    PaidCalls(d) + [SplitCall(d, 2)] + [Call(0, Resplit(0, Cancellation(reason)))] + [SplitCall(d, 1)]
  }

  function Owed(d: Dinner, person: nat): Debt {
    Debt(person, Receivable, SharedExpense, Some(0), d.part, d.currency, DebtStatus.Open, None, 1, 0)
  }

  function PartOf(d: Dinner, person: nat, debt: nat, active: bool, version: nat): Share {
    Share(0, person, d.part, debt, active, version)
  }

  function SplitState(d: Dinner): State {
    DinnerState(d).(debts := [Owed(d, 2)], shares := [PartOf(d, 2, 0, true, 1)])
  }

  function CancelledState(d: Dinner): State {
    DinnerState(d).(
      debts := [Owed(d, 2).(status := Cancelled, cancelledAt := Some(0), version := 2)],
      shares := [PartOf(d, 2, 0, false, 2)])
  }

  function ReplacedState(d: Dinner): State {
    var s := CancelledState(d);
    s.(debts := [s.debts[0], Owed(d, 1)], shares := [PartOf(d, 2, 0, false, 2), PartOf(d, 1, 1, true, 1)])
  }

  lemma SplitCommits(d: Dinner, s: State, person: nat)
    requires Plausible(d) && Invariant(s) && s.movements == [DinnerRow(d, Posted, 2)]
    requires s.shares == [] || (s.shares == [PartOf(d, 2, 0, false, 2)] && person == 1)
    ensures CreateShare(s, 0, 0, PartFor(d, person)) == Ok(Shared(s, 0, 0, PartFor(d, person)))
  {
    OneRow(DinnerRow(d, Posted, 2), RefundOn(0));
    SumZero(s.shares, ActiveShareOn(0));
    assert CheckCreateShare(s, 0, PartFor(d, person)).Ok?;
    CreateShareOutcome(s, 0, 0, PartFor(d, person));
  }

  lemma SplitGives(d: Dinner)
    ensures Shared(DinnerState(d), 0, 0, PartFor(d, 2)) == SplitState(d)
    ensures Shared(CancelledState(d), 0, 0, PartFor(d, 1)) == ReplacedState(d)
  {
    var s, s' := DinnerState(d), CancelledState(d);
    assert s.debts + [Owed(d, 2)] == SplitState(d).debts;
    assert s.shares + [PartOf(d, 2, 0, true, 1)] == SplitState(d).shares;
    assert s'.debts + [Owed(d, 1)] == ReplacedState(d).debts;
    assert s'.shares + [PartOf(d, 1, 1, true, 1)] == ReplacedState(d).shares;
  }

  lemma SplitIsReached(d: Dinner)
    requires Plausible(d)
    ensures Run(EMPTY, PaidCalls(d) + [SplitCall(d, 2)]) == SplitState(d)
  {
    DinnerIsReached(d);
    ReachedIsInvariant(PaidCalls(d));
    SplitCommits(d, DinnerState(d), 2);
    SplitGives(d);
    OneMoreSplit(PaidCalls(d), DinnerState(d), 0, PartFor(d, 2), SplitState(d));
  }

  lemma CancellationCommits(d: Dinner, reason: string)
    requires Plausible(d) && RequireReason(Some(reason)).Ok? && Invariant(SplitState(d))
    ensures UpdateShare(SplitState(d), 0, 0, Cancellation(reason)) == Ok(CancelledState(d))
  {
    assert CheckUpdateShare(SplitState(d), 0, Cancellation(reason)).Ok?;
    assert Updated(SplitState(d), 0, 0, Cancellation(reason)).shares == CancelledState(d).shares;
    assert Updated(SplitState(d), 0, 0, Cancellation(reason)).debts == CancelledState(d).debts;
    UpdateShareOutcome(SplitState(d), 0, 0, Cancellation(reason));
  }

  lemma RevivalIsReached(d: Dinner, reason: string)
    requires Plausible(d) && RequireReason(Some(reason)).Ok?
    ensures Run(EMPTY, RevivalCalls(d, reason)) == ReplacedState(d)
  {
    var split := PaidCalls(d) + [SplitCall(d, 2)];
    var cancelled := split + [Call(0, Resplit(0, Cancellation(reason)))];
    SplitIsReached(d);
    ReachedIsInvariant(split);
    CancellationCommits(d, reason);
    OneMoreResplit(split, SplitState(d), 0, Cancellation(reason), CancelledState(d));
    ReachedIsInvariant(cancelled);
    SplitCommits(d, CancelledState(d), 1);
    SplitGives(d);
    OneMoreSplit(cancelled, CancelledState(d), 0, PartFor(d, 1), ReplacedState(d));
  }

  /** Two open debts for the same expense that together exceed it. */
  predicate Overcharged(s: State) {
    && |s.movements| == 1 && |s.debts| == 2
    && (forall i :: 0 <= i < 2 ==> s.debts[i].originTransaction == Some(0) && s.debts[i].status == DebtStatus.Open)
    && s.debts[0].amount + s.debts[1].amount > s.movements[0].amount
  }

  /** In a state that the services reach, for any part above one half, the guards and even the recovery trigger would
      let a cancelled share be revived, and more would be owed than was spent; only the cancellation constraint stops
      it. */
  lemma GuardsAloneRevive(d: Dinner, reason: string, now: Time)
    requires Plausible(d) && 2 * d.part > d.price && RequireReason(Some(reason)).Ok?
    ensures var s := Run(EMPTY, RevivalCalls(d, reason));
            && Invariant(s) && CheckUpdateShare(s, 0, Revival(d)).Ok?
            && UpdateShare(s, now, 0, Revival(d)) == Err(IntegrityError)
            && AcceptsExpense(Updated(s, now, 0, Revival(d)), 0)
            && Overcharged(Updated(s, now, 0, Revival(d)))
  {
    RevivalIsReached(d, reason);
    ReachedIsInvariant(RevivalCalls(d, reason));
    RevivalPassesTheGuards(d, now);
  }

  lemma RevivalPassesTheGuards(d: Dinner, now: Time)
    requires Plausible(d) && 2 * d.part > d.price
    ensures var s := ReplacedState(d);
            && CheckUpdateShare(s, 0, Revival(d)).Ok?
            && UpdateShare(s, now, 0, Revival(d)) == Err(IntegrityError)
            && AcceptsExpense(Updated(s, now, 0, Revival(d)), 0)
            && Overcharged(Updated(s, now, 0, Revival(d)))
  {
    var s, s' := ReplacedState(d), Updated(ReplacedState(d), now, 0, Revival(d));
    OneRow(DinnerRow(d, Posted, 2), RefundOn(0));
    TwoRows(s.shares[0], s.shares[1], ActiveShareOn(0));
    assert s'.shares == [PartOf(d, 2, 0, false, 3), PartOf(d, 1, 1, true, 1)];
    TwoRows(s'.shares[0], s'.shares[1], ActiveShareOn(0));
  }

  // ---- A share that is stranded with a payment on it ----

  function Payback(d: Dinner, amount: int): RepayCommand { RepayCommand(0, amount, d.currency, 0) }

  function StrandingCalls(d: Dinner, amount: int, reason: string): seq<Call> {
    PaidCalls(d) + [SplitCall(d, 2)] + [Call(0, PayBack(0, Payback(d, amount)))] + [Call(0, Waive(0, 2, reason))]
  }

  function PartlyPaid(d: Dinner, amount: int): State {
    SplitState(d).(
      accounts := [Wallet(d, 3)],
      movements := [DinnerRow(d, Posted, 2), BuildPostedMovement(0, DebtRepaymentIn, Inflow, amount, d.currency, 0)],
      debts := [Owed(d, 2).(status := PartiallyPaid, version := 2)],
      payments := [Payment(0, 1, amount, 0)])
  }

  lemma PaymentCommits(d: Dinner, amount: int)
    requires Plausible(d) && 0 < amount < d.part
    ensures Repay(SplitState(d), 0, 0, Payback(d, amount)) == Ok(PartlyPaid(d, amount))
  {
    OneRow(DinnerRow(d, Posted, 2), Entry(0, 0));
    var s, s' := SplitState(d), PartlyPaid(d, amount);
    assert CheckRepay(s, 0, 0, Payback(d, amount)).Ok?;
    assert s.movements + [s'.movements[1]] == s'.movements && s.payments + [Payment(0, 1, amount, 0)] == s'.payments;
    assert s.debts[0 := s'.debts[0]] == s'.debts && Bumped(s.accounts, 0) == s'.accounts;
  }

  lemma WaiverStrands(d: Dinner, amount: int, reason: string)
    requires 0 < amount && RequireReason(Some(reason)).Ok?
    ensures CancelDebt(PartlyPaid(d, amount), 0, 0, 2, reason).Ok?
    ensures PaidAndStranded(CancelDebt(PartlyPaid(d, amount), 0, 0, 2, reason).value, 0)
  {
    OneRow(Payment(0, 1, amount, 0), PaidOn(0));
  }

  /** Splitting, taking part of the payment and cancelling the debt are all accepted, and leave a share that nothing
      repairs. */
  lemma PaidSharesCanBeStranded(d: Dinner, amount: int, reason: string)
    requires Plausible(d) && 0 < amount < d.part && RequireReason(Some(reason)).Ok?
    ensures var s := Run(EMPTY, StrandingCalls(d, amount, reason)); Invariant(s) && PaidAndStranded(s, 0)
  {
    var split := PaidCalls(d) + [SplitCall(d, 2)];
    var paid := split + [Call(0, PayBack(0, Payback(d, amount)))];
    SplitIsReached(d);
    PaymentCommits(d, amount);
    OneMorePayment(split, SplitState(d), 0, Payback(d, amount), PartlyPaid(d, amount));
    WaiverStrands(d, amount, reason);
    var waived := CancelDebt(PartlyPaid(d, amount), 0, 0, 2, reason).value;
    OneMoreWaiver(paid, PartlyPaid(d, amount), 0, 2, reason, waived);
    ReachedIsInvariant(StrandingCalls(d, amount, reason));
  }

  // ---- Steps that change the net position ----

  /** What person 1 owes: cash lent from the account at time 0, or a debt that existed before. */
  function Loan(d: Dinner): CreateDebtCommand {
    CreateDebtCommand(1, true, Receivable, LendNow, d.part, d.currency, Some(0), true, Some(0))
  }

  function Iou(d: Dinner): CreateDebtCommand {
    CreateDebtCommand(1, true, Receivable, Existing, d.part, d.currency, None, false, None)
  }

  lemma LoanCommits(d: Dinner, now: Time)
    requires Plausible(d) && now >= 0
    ensures CreateDebt(OpenedState(d), now, Loan(d)).Ok?
  {
  }

  /** Cash that was lent before the valuation and recorded after it is missing from the net position. */
  lemma BackdatedLoansShowAsLosses(d: Dinner, value: Valuation, through: Time, now: Time)
    requires Plausible(d) && IsBase(value, d.currency) && 0 < through <= now
    ensures var s := Run(EMPTY, OpenCalls(d));
            && Invariant(s) && CreateDebt(s, now, Loan(d)).Ok?
            && NetWorth(CreateDebt(s, now, Loan(d)).value, value, through) != NetWorth(s, value, through)
  {
    OpenedIsReached(d);
    ReachedIsInvariant(OpenCalls(d));
    LoanCommits(d, now);
    CashDebtsKeepNetWorth(OpenedState(d), now, Loan(d), value, through);
  }

  function OwingState(d: Dinner, now: Time): State { OpenedState(d).(debts := [NewDebt(Iou(d), None, now)]) }

  lemma IouCommits(d: Dinner, now: Time)
    requires Plausible(d)
    ensures CreateDebt(OpenedState(d), now, Iou(d)) == Ok(OwingState(d, now))
  {
    assert OpenedState(d).debts + [NewDebt(Iou(d), None, now)] == OwingState(d, now).debts;
  }

  lemma InstalmentCommits(d: Dinner, now: Time, amount: int)
    requires Plausible(d) && now >= 0 && 0 < amount <= d.part
    ensures Repay(OwingState(d, now), now, 0, Payback(d, amount)).Ok?
  {
    assert CheckRepay(OwingState(d, now), now, 0, Payback(d, amount)).Ok?;
  }

  /** A repayment dated before the valuation, of a debt recorded after it, shows as a gain. */
  lemma BackdatedRepaymentsShowAsGains(d: Dinner, amount: int, value: Valuation, through: Time, now: Time)
    requires Plausible(d) && IsBase(value, d.currency) && 0 < through <= now && 0 < amount <= d.part
    ensures var s := Run(EMPTY, OpenCalls(d) + [Call(now, Lend(Iou(d)))]);
            && Invariant(s) && Repay(s, now, 0, Payback(d, amount)).Ok?
            && NetWorth(Repay(s, now, 0, Payback(d, amount)).value, value, through) != NetWorth(s, value, through)
  {
    OpenedIsReached(d);
    IouCommits(d, now);
    OneMore(OpenCalls(d), OpenedState(d), Call(now, Lend(Iou(d))), OwingState(d, now));
    ReachedIsInvariant(OpenCalls(d) + [Call(now, Lend(Iou(d)))]);
    InstalmentCommits(d, now, amount);
    RepaymentsKeepNetWorth(OwingState(d, now), now, 0, Payback(d, amount), value, through);
  }
}
