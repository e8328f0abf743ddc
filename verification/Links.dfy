/** No specialised movement is without the row that it was posted for: the database's link requirement, over whole
    runs. */
module Links {
  import opened Common
  import opened Ledger
  import opened History
  import opened Numbers
  import opened Runs
  import Transfers
  import Reallocation
  import Reconciliations
  import Debts
  import Sharing

  predicate IsSourceOf(s: State, i: nat) { exists t :: 0 <= t < |s.transfers| && s.transfers[t].source == i }

  predicate IsDestinationOf(s: State, i: nat) { exists t :: 0 <= t < |s.transfers| && s.transfers[t].destination == i }

  predicate IsFeeOf(s: State, i: nat) { exists t :: 0 <= t < |s.transfers| && s.transfers[t].fee == Some(i) }

  predicate IsAdjustmentOf(s: State, i: nat) {
    exists r :: 0 <= r < |s.reconciliations| && s.reconciliations[r].adjustment == i
  }

  predicate IsOriginOf(s: State, i: nat) { exists d :: 0 <= d < |s.debts| && s.debts[d].originTransaction == Some(i) }

  predicate IsPaymentOf(s: State, i: nat) { exists p :: 0 <= p < |s.payments| && s.payments[p].transaction == i }

  /** The row that every specialised movement must be referred to by. */
  predicate HasLink(s: State, i: nat)
    requires i < |s.movements|
  {
    match s.movements[i].kind
    case TransferOut => IsSourceOf(s, i)
    case TransferIn => IsDestinationOf(s, i)
    case TransferFee => IsFeeOf(s, i)
    case ReconciliationAdjustment => IsAdjustmentOf(s, i)
    case LoanPrincipalOut | LoanPrincipalIn => IsOriginOf(s, i)
    case DebtRepaymentIn | DebtRepaymentOut => IsPaymentOf(s, i)
    case _ => true
  }

  ghost predicate AllLinked(s: State) { forall i: nat :: i < |s.movements| ==> HasLink(s, i) }

  /** No step drops a row that a movement may be linked from. */
  ghost predicate LinksKept(s: State, s': State) {
    && GroupRowsKept(s, s')
    && |s.debts| <= |s'.debts|
    && forall d :: 0 <= d < |s.debts| ==> s'.debts[d].originTransaction == s.debts[d].originTransaction
  }

  lemma StepKeepsLinks(s: State, now: Time, op: Op)
    requires Apply(s, now, op).Ok?
    ensures LinksKept(s, Apply(s, now, op).value)
  {
    StepKeepsGroupRows(s, now, op);
    if !OnDebts(op) && !OnExpenses(op) {
      StepLeavesDebts(s, now, op);
    }
  }

  lemma LinkSurvives(s: State, s': State, i: nat)
    requires i < |s.movements| && i < |s'.movements| && s'.movements[i].kind == s.movements[i].kind
    requires HasLink(s, i) && LinksKept(s, s')
    ensures HasLink(s', i)
  {
    match s.movements[i].kind
    case TransferOut =>
      var t :| 0 <= t < |s.transfers| && s.transfers[t].source == i;
      assert s'.transfers[t].source == i;
    case TransferIn =>
      var t :| 0 <= t < |s.transfers| && s.transfers[t].destination == i;
      assert s'.transfers[t].destination == i;
    case TransferFee =>
      var t :| 0 <= t < |s.transfers| && s.transfers[t].fee == Some(i);
      assert s'.transfers[t].fee == Some(i);
    case ReconciliationAdjustment =>
      var r :| 0 <= r < |s.reconciliations| && s.reconciliations[r].adjustment == i;
      assert s'.reconciliations[r].adjustment == i;
    case LoanPrincipalOut | LoanPrincipalIn =>
      var d :| 0 <= d < |s.debts| && s.debts[d].originTransaction == Some(i);
      assert s'.debts[d].originTransaction == Some(i);
    case DebtRepaymentIn | DebtRepaymentOut =>
      var p :| 0 <= p < |s.payments| && s.payments[p].transaction == i;
      assert s'.payments[p].transaction == i;
    case _ =>
  }

  /** Every row that a step adds is linked from the start. */
  ghost predicate NewRowsLinked(s: State, s': State) {
    forall i: nat :: |s.movements| <= i < |s'.movements| ==> HasLink(s', i)
  }

  lemma TransferLinked(s: State, c: Transfers.TransferCommand, preview: Transfers.Preview)
    requires c.destination < |s.accounts|
    ensures NewRowsLinked(s, Transfers.Transferred(s, c, preview))
  {
    var s', n := Transfers.Transferred(s, c, preview), |s.movements|;
    var news := Transfers.NewRows(s, c, preview.destinationAmount);
    assert s'.transfers[|s.transfers|] == Transfers.TransferRow(s, c, preview);
    assert s'.movements[n] == news[0] && s'.movements[n + 1] == news[1];
    assert c.fee.Some? ==> s'.movements[n + 2] == news[2];
  }

  lemma ReallocationLinked(
      s: State, c: Reallocation.ReallocationCommand, preview: Reallocation.ReallocationPreview, changed: seq<Line>)
    ensures NewRowsLinked(s, Reallocation.Recorded(s, c, preview, changed))
  {
    var s', n := Reallocation.Recorded(s, c, preview, changed), |s.movements|;
    forall i: nat | n <= i < |s'.movements| ensures HasLink(s', i) {
      var k := (i - n) / 2;
      Reallocation.PairOfTransfer(s, c, preview, changed, k);
      var transfer := s'.transfers[|s.transfers| + k];
      assert i == n + 2 * k || i == n + 2 * k + 1;
    }
  }

  lemma DebtStepLinked(s: State, now: Time, op: Op)
    requires Sound(s) && Apply(s, now, op).Ok? && (OnDebts(op) || OnExpenses(op))
    ensures NewRowsLinked(s, Apply(s, now, op).value)
  {
    DebtStepPosts(s, now, op);
    if op.Lend? {
      LoanLinked(s, now, op.loan);
    } else if op.PayBack? {
      PaymentLinked(s, now, op.debt, op.repayment);
    }
  }

  lemma LoanLinked(s: State, now: Time, c: Debts.CreateDebtCommand)
    requires Debts.CreateDebt(s, now, c).Ok?
    ensures NewRowsLinked(s, Debts.CreateDebt(s, now, c).value)
  {
    var s' := Debts.CreateDebt(s, now, c).value;
    if Debts.CashOrigin(c.origin) {
      assert s'.debts[|s.debts|].originTransaction == Some(|s.movements|);
    }
  }

  lemma PaymentLinked(s: State, now: Time, d: nat, c: Debts.RepayCommand)
    requires Debts.Repay(s, now, d, c).Ok?
    ensures NewRowsLinked(s, Debts.Repay(s, now, d, c).value)
  {
    var s' := Debts.Repay(s, now, d, c).value;
    assert s'.payments[|s.payments|].transaction == |s.movements|;
  }

  lemma GroupStepLinked(s: State, now: Time, op: Op)
    requires Apply(s, now, op).Ok? && OnGroups(op)
    ensures NewRowsLinked(s, Apply(s, now, op).value)
  {
    if op.Move? {
      TransferLinked(s, op.transfer, Transfers.CheckTransfer(s, now, op.transfer, op.fingerprint).value);
    } else if op.Reallocate? {
      var preview := Reallocation.CheckReallocation(s, now, op.reallocation, op.fingerprint).value;
      var changed := Reallocation.ChangedLines(preview.lines, op.reallocation.balancing);
      ReallocationLinked(s, op.reallocation, preview, changed);
    } else {
      var s' := Apply(s, now, op).value;
      assert s'.reconciliations[|s.reconciliations|].adjustment == |s.movements|;
    }
  }

  lemma StepStaysLinked(s: State, now: Time, op: Op)
    requires Sound(s) && AllLinked(s) && Apply(s, now, op).Ok?
    ensures AllLinked(Apply(s, now, op).value)
  {
    var s' := Apply(s, now, op).value;
    StepKeepsLinks(s, now, op);
    StepKeepsRows(s, now, op);
    if OnGroups(op) {
      GroupStepLinked(s, now, op);
    } else if OnDebts(op) || OnExpenses(op) {
      DebtStepLinked(s, now, op);
    } else {
      EntriesNeedNoLink(s, now, op);
    }
    forall i: nat | i < |s'.movements| ensures HasLink(s', i) {
      if i < |s.movements| {
        assert KeptOrCore(s.movements[i], s'.movements[i]);
        if s'.movements[i].kind == s.movements[i].kind {
          LinkSurvives(s, s', i);
        }
      }
    }
  }

  lemma EntriesNeedNoLink(s: State, now: Time, op: Op)
    requires Apply(s, now, op).Ok? && (OnEntries(op) || OnAccounts(op))
    ensures NewRowsLinked(s, Apply(s, now, op).value)
  {
  }

  /** In every reachable state every transfer movement, fee, adjustment, loan movement and repayment has its row. */
  lemma {:induction false} RunsStayLinked(s: State, calls: seq<Call>)
    requires Invariant(s) && AllLinked(s)
    ensures AllLinked(Run(s, calls))
  {
    if |calls| > 0 {
      var before, call := Run(s, calls[..|calls| - 1]), calls[|calls| - 1];
      RunsStayLinked(s, calls[..|calls| - 1]);
      RunsKeepTheInvariant(s, calls[..|calls| - 1]);
      if Apply(before, call.now, call.op).Ok? {
        StepStaysLinked(before, call.now, call.op);
      }
    }
  }

  // ---- The whole trigger ----

  predicate IsTransferKind(kind: Kind) { kind == TransferOut || kind == TransferIn || kind == TransferFee }

  predicate PartOfTransfer(i: nat, t: Transfer) { t.source == i || t.destination == i || t.fee == Some(i) }

  predicate SameStatuses(ms: seq<Movement>, t: Transfer) {
    && t.source < |ms| && t.destination < |ms| && ms[t.source].status == ms[t.destination].status
    && (t.fee.Some? ==> t.fee.value < |ms| && ms[t.fee.value].status == ms[t.source].status)
  }

  predicate AdjustmentCoherent(m: Movement, r: Reconciliation) {
    && AffectsBalance(m.status) && m.amount == Abs(r.delta) && m.occurredAt == r.effectiveAt
    && ((r.delta > 0 && m.effect == Inflow) || (r.delta < 0 && m.effect == Outflow))
  }

  predicate HasExpense(s: State, m: Movement) {
    m.parent.Some? && m.parent.value < |s.movements| && s.movements[m.parent.value].kind == Expense
  }

  /** `planit_require_specialized_transaction_link` accepts movement row `i`. */
  predicate AcceptsLink(s: State, i: nat)
    requires i < |s.movements|
  {
    && HasLink(s, i)
    && (s.movements[i].kind == Refund ==> HasExpense(s, s.movements[i]))
    && (IsTransferKind(s.movements[i].kind) ==>
         exists t :: 0 <= t < |s.transfers|
                     && PartOfTransfer(i, s.transfers[t]) && SameStatuses(s.movements, s.transfers[t]))
    && (s.movements[i].kind == ReconciliationAdjustment ==>
         exists r :: 0 <= r < |s.reconciliations| && s.reconciliations[r].adjustment == i
                     && AdjustmentCoherent(s.movements[i], s.reconciliations[r]))
  }

  lemma TransferRowAccepted(s: State, i: nat)
    requires Invariant(s) && i < |s.movements| && HasLink(s, i) && IsTransferKind(s.movements[i].kind)
    ensures AcceptsLink(s, i)
  {
    var t :| 0 <= t < |s.transfers| && PartOfTransfer(i, s.transfers[t]);
    assert Transfers.AcceptsTransfer(s, s.transfers[t]);
    assert SameStatuses(s.movements, s.transfers[t]);
  }

  lemma AdjustmentAccepted(s: State, i: nat)
    requires Invariant(s) && i < |s.movements| && HasLink(s, i) && s.movements[i].kind == ReconciliationAdjustment
    ensures AcceptsLink(s, i)
  {
    var r :| 0 <= r < |s.reconciliations| && s.reconciliations[r].adjustment == i;
    assert Reconciliations.AcceptsReconciliation(s, s.reconciliations[r]);
  }

  lemma RowAccepted(s: State, i: nat)
    requires Invariant(s) && i < |s.movements| && HasLink(s, i)
    ensures AcceptsLink(s, i)
  {
    if IsTransferKind(s.movements[i].kind) {
      TransferRowAccepted(s, i);
    } else if s.movements[i].kind == ReconciliationAdjustment {
      AdjustmentAccepted(s, i);
    } else if s.movements[i].kind == Refund {
      assert Sharing.RefundFits(s, s.movements[i]);
    }
  }

  /** In every state that any calls reach from the empty ledger, the trigger accepts every movement row. */
  lemma RunsPassTheLinkTrigger(calls: seq<Call>, i: nat)
    requires i < |Run(EMPTY, calls).movements|
    ensures AcceptsLink(Run(EMPTY, calls), i)
  {
    EmptyIsInvariant();
    RunsKeepTheInvariant(EMPTY, calls);
    RunsStayLinked(EMPTY, calls);
    RowAccepted(Run(EMPTY, calls), i);
  }
}
