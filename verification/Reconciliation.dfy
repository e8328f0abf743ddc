/** Reconciling one account with an entered balance at one moment. */
module Reconciliations {
  import opened Common
  import opened Sums
  import opened Ledger
  import opened History
  import opened Numbers
  import opened Rounding

  datatype ReconciliationCommand = ReconciliationCommand(account: nat, actual: int, currency: Currency, at: Time)

  datatype ReconciliationPreview = ReconciliationPreview(calculated: int, delta: int, fingerprint: Fingerprint)

  function PreviewReconciliation(
      account: nat, version: nat, calculated: int, c: ReconciliationCommand)
    : Result<ReconciliationPreview>
  {
    var delta := c.actual - calculated;
    var _ :- Need(InRange(delta), AmountOutOfRange);
    Ok(ReconciliationPreview(calculated, delta, OfReconciliation(account, version, calculated, c.at)))
  }

  function Evaluate(s: State, now: Time, c: ReconciliationCommand): Result<ReconciliationPreview> {
    var _ :- RequireNotFuture(c.at, now);
    var _ :- Need(c.account < |s.accounts|, AccountNotFound);
    var account := s.accounts[c.account];
    var _ :- RequireActive(account);
    var _ :- Need(c.currency == account.currency, CurrencyMismatch);
    var _ :- Need(account.openedAt <= c.at, TransactionBeforeAccountOpened);
    var _ :- Need(c.actual >= 0 || account.allowNegative, NegativeBalanceNotAllowed);
    var calculated :- Snapshot(s, c.account, c.at);
    var preview :- PreviewReconciliation(c.account, account.version, calculated, c);
    var current :- Snapshot(s, c.account, Max(now, c.at));
    var _ :- Need(InRange(current + preview.delta), AmountOutOfRange);
    var _ :- Need(current + preview.delta >= 0 || account.allowNegative, NegativeBalanceNotAllowed);
    Ok(preview)
  }

  function CheckReconciliation(
      s: State, now: Time, c: ReconciliationCommand, fingerprint: Fingerprint)
    : Result<ReconciliationPreview>
  {
    var preview :- Evaluate(s, now, c);
    var _ :- Need(preview.fingerprint == fingerprint, StaleBalance);
    var _ :- Need(preview.delta != 0, NoReconciliationNeeded);
    Ok(preview)
  }

  function AdjustmentRow(c: ReconciliationCommand, delta: int): Movement {
    var effect := if delta > 0 then Inflow else Outflow;
    BuildPostedMovement(c.account, ReconciliationAdjustment, effect, Abs(delta), c.currency, c.at)
  }

  function ReconciliationRow(s: State, c: ReconciliationCommand, preview: ReconciliationPreview): Reconciliation {
    Reconciliation(c.account, preview.calculated, c.actual, preview.delta, c.at, |s.movements|, preview.fingerprint)
  }

  function Reconciled(s: State, c: ReconciliationCommand, preview: ReconciliationPreview): State
    requires c.account < |s.accounts|
  {
    s.(movements := s.movements + [AdjustmentRow(c, preview.delta)],
       reconciliations := s.reconciliations + [ReconciliationRow(s, c, preview)],
       accounts := Bumped(s.accounts, c.account))
  }

  function CommitReconciliation(
      s: State, now: Time, c: ReconciliationCommand, fingerprint: Fingerprint)
    : Result<State>
  {
    var preview :- CheckReconciliation(s, now, c, fingerprint);
    Ok(Reconciled(s, c, preview))
  }

  method CommitReconciliationInTransaction(db: Database, now: Time, c: ReconciliationCommand, fingerprint: Fingerprint)
    returns (r: Result<Unit>)
    modifies db
    ensures Committed(old(db.Tables()), db.Tables(), CommitReconciliation(old(db.Tables()), now, c, fingerprint), r)
  {
    var check := CheckReconciliation(db.Tables(), now, c, fingerprint);
    if check.Err? {
      return Err(check.error);
    }
    var preview := check.value;
    var effect := if preview.delta > 0 then Inflow else Outflow;
    var amount := Abs(preview.delta);
    var row := |db.movements|;
    db.movements := db.movements + [
      BuildPostedMovement(c.account, ReconciliationAdjustment, effect, amount, db.accounts[c.account].currency, c.at)];
    db.reconciliations := db.reconciliations + [
      Reconciliation(c.account, preview.calculated, c.actual, preview.delta, c.at, row, preview.fingerprint)];
    db.BumpVersion(c.account);
    r := Ok(Unit);
  }

  /** `planit_validate_reconciliation_group` and the check that the delta is the difference of the balances. */
  predicate AcceptsReconciliation(s: State, r: Reconciliation) {
    && r.delta == r.actual - r.calculated
    && r.delta != 0
    && r.adjustment < |s.movements|
    && var m := s.movements[r.adjustment];
    && m.account == r.account
    && m.kind == ReconciliationAdjustment
    && AffectsBalance(m.status)
    && m.amount == Abs(r.delta)
    && m.occurredAt == r.effectiveAt
    && (r.delta > 0 ==> m.effect == Inflow)
    && (r.delta < 0 ==> m.effect == Outflow)
  }

  /** From the effective time on the balance is the entered one shifted by whatever came in between; earlier balances
      stay. */
  lemma ReconciliationShifts(s: State, now: Time, c: ReconciliationCommand, fingerprint: Fingerprint)
    requires Sound(s) && CommitReconciliation(s, now, c, fingerprint).Ok?
    ensures var s' := CommitReconciliation(s, now, c, fingerprint).value;
            var delta := c.actual - Balance(s, c.account, c.at);
            var m := AdjustmentRow(c, delta);
            && Posts(s, s', c.at, [m]) && Covered(s, now, c.at, [m]) && PlainPosted(s.accounts, m)
            && s'.movements == s.movements + [m]
            && Net([m], c.account) == delta
            && Sound(s') && Guarded(s.movements, s'.movements)
  {
    var s' := CommitReconciliation(s, now, c, fingerprint).value;
    var m := AdjustmentRow(c, c.actual - Balance(s, c.account, c.at));
    assert [m][0] == m;
    PostedRowsSound(s, s', c.at, [m]);
    forall a ensures Net([m], a) == if a == c.account then c.actual - Balance(s, c.account, c.at) else 0 {
      NetSingle(m, a);
    }
  }

  /** The entered balance holds at the effective time, exactly; later balances move by the same delta, earlier ones and
      other accounts not at all. */
  lemma ReconciledBalances(s: State, now: Time, c: ReconciliationCommand, fingerprint: Fingerprint, a: nat, t: Time)
    requires Sound(s) && CommitReconciliation(s, now, c, fingerprint).Ok? && a < |s.accounts|
    ensures c.account < |s.accounts|
    ensures var s' := CommitReconciliation(s, now, c, fingerprint).value;
            var delta := c.actual - Balance(s, c.account, c.at);
            && Balance(s', c.account, c.at) == c.actual
            && (s.accounts[c.account].allowNegative || c.actual >= 0)
            && Balance(s', a, t) == Balance(s, a, t) + (if a == c.account && t >= c.at then delta else 0)
  {
  }

  /** The trigger accepts the stored row, whichever sign the correction has. */
  lemma ReconciliationAccepted(s: State, now: Time, c: ReconciliationCommand, fingerprint: Fingerprint)
    requires CommitReconciliation(s, now, c, fingerprint).Ok?
    ensures var s' := CommitReconciliation(s, now, c, fingerprint).value;
            && |s'.reconciliations| == |s.reconciliations| + 1
            && AcceptsReconciliation(s', s'.reconciliations[|s.reconciliations|])
  {
  }

  /** Whoever wrote the rows: an accepted reconciliation posts exactly its delta at its effective time. */
  lemma AcceptedReconciliationPostsDelta(s: State, r: Reconciliation, t: Time)
    requires AcceptsReconciliation(s, r)
    ensures Entry(r.account, t)(s.movements[r.adjustment]) == if t >= r.effectiveAt then r.actual - r.calculated else 0
  {
  }

  /** The stored row says what was entered, what was calculated, and when; no table but these three changes. */
  lemma ReconciliationIsRecorded(s: State, now: Time, c: ReconciliationCommand, fingerprint: Fingerprint)
    requires CommitReconciliation(s, now, c, fingerprint).Ok?
    ensures c.account < |s.accounts|
    ensures var s', k, n := CommitReconciliation(s, now, c, fingerprint).value, |s.reconciliations|, |s.movements|;
      && s' == s.(movements := s'.movements, reconciliations := s'.reconciliations, accounts := s'.accounts)
      && s.movements <= s'.movements && |s'.movements| == n + 1
      && s.reconciliations <= s'.reconciliations && |s'.reconciliations| == k + 1
      && var r := s'.reconciliations[k];
      && r.account == c.account && r.actual == c.actual && r.calculated == Balance(s, c.account, c.at)
      && r.effectiveAt == c.at && r.adjustment == n && r.fingerprint == fingerprint
      && s'.movements[n].currency == c.currency && s'.movements[n].status == Posted
  {
  }
}
