/** What becomes of a share whose debt was cancelled behind its back. */
module StrandedShares {
  import opened Common
  import opened Sums
  import opened Ledger
  import opened History
  import opened Debts
  import opened Sharing
  import opened Runs

  /** An active share whose debt was cancelled after something had been paid on it. */
  ghost predicate PaidAndStranded(s: State, i: nat) {
    i < |s.shares| && Stranded(s, s.shares[i]) && Paid(s.payments, s.shares[i].debt) > 0
  }

  lemma RepayLeavesOthers(s: State, now: Time, d: nat, c: RepayCommand, e: nat)
    requires Repay(s, now, d, c).Ok? && e < |s.debts| && s.debts[e].status == Cancelled
    ensures var s' := Repay(s, now, d, c).value;
            && e < |s'.debts| && s'.debts[e] == s.debts[e] && Paid(s'.payments, e) == Paid(s.payments, e)
            && s'.shares == s.shares
  {
  }

  lemma UpdateLeavesOthers(s: State, now: Time, j: nat, c: UpdateShareCommand, i: nat)
    requires Invariant(s) && PaidAndStranded(s, i) && UpdateShare(s, now, j, c).Ok?
    ensures PaidAndStranded(UpdateShare(s, now, j, c).value, i)
    ensures UpdateShare(s, now, j, c).value.shares[i] == s.shares[i]
  {
    if j == i {
      StrandedWithPaymentsIsFinal(s, now, i, c);
      assert false;
    }
    OtherShareFits(s, now, j, c, i);
  }

  lemma SplitLeavesOthers(s: State, now: Time, e: nat, c: CreateShareCommand, i: nat)
    requires DebtsSound(s) && PaidAndStranded(s, i) && CreateShare(s, now, e, c).Ok?
    ensures PaidAndStranded(CreateShare(s, now, e, c).value, i)
    ensures CreateShare(s, now, e, c).value.shares[i] == s.shares[i]
  {
    assert CreateShare(s, now, e, c).value == Shared(s, now, e, c);
  }

  lemma WaiverLeavesOthers(s: State, now: Time, d: nat, version: nat, reason: string, i: nat)
    requires PaidAndStranded(s, i) && CancelDebt(s, now, d, version, reason).Ok?
    ensures PaidAndStranded(CancelDebt(s, now, d, version, reason).value, i)
    ensures CancelDebt(s, now, d, version, reason).value.shares == s.shares
  {
  }

  /** Steps that only add debts, and touch neither payments nor shares. */
  lemma SameSharesStayStranded(s: State, s': State, i: nat)
    requires PaidAndStranded(s, i) && s'.shares == s.shares && s'.payments == s.payments
    requires |s.debts| <= |s'.debts| && forall d :: 0 <= d < |s.debts| ==> s'.debts[d] == s.debts[d]
    ensures PaidAndStranded(s', i)
  {
  }

  lemma LoanLeavesOthers(s: State, now: Time, c: CreateDebtCommand, i: nat)
    requires PaidAndStranded(s, i) && CreateDebt(s, now, c).Ok?
    ensures PaidAndStranded(CreateDebt(s, now, c).value, i) && CreateDebt(s, now, c).value.shares == s.shares
  {
    SameSharesStayStranded(s, CreateDebt(s, now, c).value, i);
  }

  lemma RefundLeavesOthers(s: State, now: Time, e: nat, c: RefundCommand, i: nat)
    requires PaidAndStranded(s, i) && RefundExpense(s, now, e, c).Ok?
    ensures PaidAndStranded(RefundExpense(s, now, e, c).value, i)
    ensures RefundExpense(s, now, e, c).value.shares == s.shares
  {
    SameSharesStayStranded(s, RefundExpense(s, now, e, c).value, i);
  }

  lemma OtherStepKeepsStranded(s: State, now: Time, op: Op, i: nat)
    requires PaidAndStranded(s, i) && Apply(s, now, op).Ok? && !OnDebts(op) && !OnExpenses(op)
    ensures PaidAndStranded(Apply(s, now, op).value, i) && Apply(s, now, op).value.shares == s.shares
  {
    StepLeavesDebts(s, now, op);
    SameSharesStayStranded(s, Apply(s, now, op).value, i);
  }

  lemma DebtStepKeepsStranded(s: State, now: Time, op: Op, i: nat)
    requires PaidAndStranded(s, i) && Apply(s, now, op).Ok? && OnDebts(op)
    ensures PaidAndStranded(Apply(s, now, op).value, i) && Apply(s, now, op).value.shares[i] == s.shares[i]
  {
    match op
    case Lend(c) => LoanLeavesOthers(s, now, c, i);
    case PayBack(d, c) => RepayLeavesOthers(s, now, d, c, s.shares[i].debt);
    case Waive(d, version, reason) => WaiverLeavesOthers(s, now, d, version, reason, i);
  }

  lemma ExpenseStepKeepsStranded(s: State, now: Time, op: Op, i: nat)
    requires Invariant(s) && PaidAndStranded(s, i) && Apply(s, now, op).Ok? && OnExpenses(op)
    ensures PaidAndStranded(Apply(s, now, op).value, i) && Apply(s, now, op).value.shares[i] == s.shares[i]
  {
    match op
    case Split(e, c) => SplitLeavesOthers(s, now, e, c, i);
    case Resplit(j, c) => UpdateLeavesOthers(s, now, j, c, i);
    case GiveBack(e, c) => RefundLeavesOthers(s, now, e, c, i);
  }

  /** No service repairs such a share. */
  lemma StepKeepsStranded(s: State, now: Time, op: Op, i: nat)
    requires Invariant(s) && PaidAndStranded(s, i) && Apply(s, now, op).Ok?
    ensures PaidAndStranded(Apply(s, now, op).value, i) && Apply(s, now, op).value.shares[i] == s.shares[i]
  {
    if OnDebts(op) {
      DebtStepKeepsStranded(s, now, op, i);
    } else if OnExpenses(op) {
      ExpenseStepKeepsStranded(s, now, op, i);
    } else {
      OtherStepKeepsStranded(s, now, op, i);
    }
  }

  lemma {:induction false} RunsKeepStranded(s: State, calls: seq<Call>, i: nat)
    requires Invariant(s) && PaidAndStranded(s, i)
    ensures PaidAndStranded(Run(s, calls), i) && Run(s, calls).shares[i] == s.shares[i]
  {
    if |calls| > 0 {
      var before, call := Run(s, calls[..|calls| - 1]), calls[|calls| - 1];
      RunsKeepStranded(s, calls[..|calls| - 1], i);
      RunsKeepTheInvariant(s, calls[..|calls| - 1]);
      if Apply(before, call.now, call.op).Ok? {
        StepKeepsStranded(before, call.now, call.op, i);
      }
    }
  }

  // ---- The expense is locked ----

  lemma SplitIsRejected(s: State, now: Time, e: nat, c: CreateShareCommand)
    requires RecoverySound(s) && DebtsSound(s) && !NoneStranded(s, e)
    ensures CreateShare(s, now, e, c).Err?
  {
    if CheckCreateShare(s, e, c).Ok? {
      CreateShareOutcome(s, now, e, c);
    }
  }

  lemma RefundIsRejected(s: State, now: Time, e: nat, c: RefundCommand)
    requires RecoverySound(s) && DebtsSound(s) && !NoneStranded(s, e)
    ensures RefundExpense(s, now, e, c).Err?
  {
    if CheckRefund(s, now, e, c).Ok? {
      RefundOutcome(s, now, e, c);
    }
  }

  lemma ChangeIsRejected(s: State, now: Time, i: nat, j: nat, c: UpdateShareCommand)
    requires RecoverySound(s) && DebtsSound(s) && PaidAndStranded(s, i) && j < |s.shares|
    requires s.shares[j].transaction == s.shares[i].transaction
    ensures UpdateShare(s, now, j, c).Err?
  {
    if CheckUpdateShare(s, j, c).Ok? {
      UpdateShareOutcome(s, now, j, c);
      PaidIsOwed(s, i, j, c);
    }
  }

  /** The guards refuse to cancel a paid share, and the outcome depends on the debt of any other. */
  lemma PaidIsOwed(s: State, i: nat, j: nat, c: UpdateShareCommand)
    requires PaidAndStranded(s, i) && CheckUpdateShare(s, j, c).Ok?
    requires s.shares[j].transaction == s.shares[i].transaction
    ensures !UpdateCommits(s, j, c)
  {
  }

  /** The call would add a share or a refund to the expense, or change one of its shares. */
  predicate OnExpense(s: State, op: Op, e: nat) {
    || (op.Split? && op.expense == e)
    || (op.GiveBack? && op.expense == e)
    || (op.Resplit? && op.id < |s.shares| && s.shares[op.id].transaction == e)
  }

  lemma CallIsRejected(s: State, i: nat, now: Time, op: Op)
    requires Invariant(s) && PaidAndStranded(s, i) && OnExpense(s, op, s.shares[i].transaction)
    ensures Apply(s, now, op).Err?
  {
    assert !NoneStranded(s, s.shares[i].transaction);
    if op.Split? {
      SplitIsRejected(s, now, op.expense, op.share);
    } else if op.GiveBack? {
      RefundIsRejected(s, now, op.expense, op.refund);
    } else {
      ChangeIsRejected(s, now, i, op.id, op.update);
    }
  }

  /** From then on, whatever else is called, the expense takes no further share, no refund, and no change of any
      share. */
  lemma ExpenseIsLocked(s: State, calls: seq<Call>, i: nat, now: Time, op: Op)
    requires Invariant(s) && PaidAndStranded(s, i) && OnExpense(Run(s, calls), op, s.shares[i].transaction)
    ensures Apply(Run(s, calls), now, op).Err?
  {
    RunsKeepStranded(s, calls, i);
    RunsKeepTheInvariant(s, calls);
    CallIsRejected(Run(s, calls), i, now, op);
  }
}
