/** What the services accept: in a ledger that keeps its rules a call succeeds exactly under conditions that its author
    can check, and no further guard stands in the way. */
module Acceptance {
  import opened Common
  import opened Sums
  import opened Ledger
  import opened History
  import opened Debts
  import Transactions
  import Transfers
  import Reallocation
  import Positions
  import Rounding
  import Numbers
  import Reconciliations
  import Accounts

  // ---- Entries ----

  /** A draft can be made exactly of an expense or an income of a positive amount, in the currency of an account that
      was open by then; the account need not be active, and nothing is checked against its balance. */
  lemma DraftedIff(s: State, f: Transactions.DraftFields)
    ensures Transactions.CreateDraft(s, f, None).Ok? <==>
      && (f.kind == Expense || f.kind == Income) && f.amount > 0
      && f.account < |s.accounts| && s.accounts[f.account].currency == f.currency
      && s.accounts[f.account].openedAt <= f.occurredAt
  {
  }

  /** A draft is posted exactly when the call names its version and its account can take it. */
  lemma PostedIff(s: State, now: Time, id: nat, version: nat)
    requires Sound(s)
    ensures Transactions.Post(s, now, id, version, None).Ok? <==>
      && id < |s.movements| && s.movements[id].status == Draft && s.movements[id].version == version
      && var m := s.movements[id]; CanPost(s, now, m.account, m.currency, m.amount, m.effect, m.occurredAt)
  {
    if id < |s.movements| {
      assert RowFits(s.accounts, s.movements[id]);
    }
  }

  /** A posted expense or income is reversed exactly when the call names its version and a date not before it, and its
      account can give back what it took. */
  lemma ReversedIff(s: State, now: Time, id: nat, version: nat, at: Time)
    requires Sound(s)
    ensures Transactions.Reverse(s, now, id, version, at).Ok? <==>
      && id < |s.movements| && s.movements[id].status == Posted && s.movements[id].version == version
      && (s.movements[id].kind == Expense || s.movements[id].kind == Income)
      && s.movements[id].occurredAt <= at
      && var m := s.movements[id];
      CanPost(s, now, m.account, m.currency, m.amount, if m.kind == Expense then Inflow else Outflow, at)
  {
    if id < |s.movements| {
      assert RowFits(s.accounts, s.movements[id]);
    }
  }

  /** An account that may not be negative can pay out exactly what it holds at the moment of the check. */
  lemma WholeBalanceCanBePosted(s: State, now: Time, id: nat, version: nat)
    requires Sound(s) && id < |s.movements|
    requires s.movements[id].status == Draft && s.movements[id].version == version && s.movements[id].kind == Expense
    requires var m := s.movements[id];
      && !s.accounts[m.account].allowNegative && s.accounts[m.account].status == Active
      && s.accounts[m.account].openedAt <= m.occurredAt <= now + FIVE_MINUTES
      && InRange(Balance(s, m.account, Max(now, m.occurredAt)))
    ensures Transactions.Post(s, now, id, version, None).Ok? <==>
      s.movements[id].amount <= Balance(s, s.movements[id].account, Max(now, s.movements[id].occurredAt))
    ensures var spare :=
        Balance(s, s.movements[id].account, Max(now, s.movements[id].occurredAt)) - s.movements[id].amount;
      InRange(spare) && spare < 0 ==> Transactions.Post(s, now, id, version, None) == Err(NegativeBalanceNotAllowed)
  {
    assert RowFits(s.accounts, s.movements[id]);
    PostedIff(s, now, id, version);
  }

  // ---- Refusals ----

  /** A call on a row that is otherwise fit for it, but with another version than the current one, is told so. */
  lemma StaleCallsAreTold(
      s: State, now: Time, i: nat, version: nat, f: Transactions.DraftFields, at: Time, reason: string)
    ensures i < |s.movements| && s.movements[i].status == Draft && s.movements[i].version != version ==>
      && Transactions.UpdateDraft(s, i, version, f, None) == Err(VersionConflict)
      && Transactions.Post(s, now, i, version, None) == Err(VersionConflict)
    ensures i < |s.movements| && s.movements[i].version != version ==>
      Transactions.Reverse(s, now, i, version, at) == Err(VersionConflict)
    ensures i < |s.debts| && s.debts[i].version != version ==>
      CancelDebt(s, now, i, version, reason) == Err(VersionConflict)
    ensures forall e: Accounts.AccountEdit :: i < |s.accounts| && s.accounts[i].version != e.version ==>
      Accounts.EditAccount(s, now, i, e) == Err(VersionConflict)
  {
  }

  /** What the catalogue and the purchase lines object to stops a call that would otherwise succeed, with that
      objection. */
  lemma ObjectionsStopTheCall(
      s: State, now: Time, f: Transactions.DraftFields, id: nat, version: nat, objection: Error)
    ensures Transactions.CreateDraft(s, f, Some(objection)).Err?
    ensures Transactions.CreateDraft(s, f, None).Ok? ==>
      Transactions.CreateDraft(s, f, Some(objection)) == Err(objection)
    ensures Transactions.UpdateDraft(s, id, version, f, Some(objection)).Err?
    ensures Transactions.UpdateDraft(s, id, version, f, None).Ok? ==>
      Transactions.UpdateDraft(s, id, version, f, Some(objection)) == Err(objection)
    ensures Transactions.Post(s, now, id, version, Some(objection)).Err?
    ensures Transactions.Post(s, now, id, version, None).Ok? ==>
      Transactions.Post(s, now, id, version, Some(objection)) == Err(objection)
  {
  }

  /** A preview that is no longer true is told apart from a command that cannot be carried out at all. */
  lemma StalePreviewsAreTold(
      s: State, now: Time, transfer: Transfers.TransferCommand, reallocation: Reallocation.ReallocationCommand,
      reconciliation: Reconciliations.ReconciliationCommand, fingerprint: Fingerprint)
    ensures var preview := Transfers.Evaluate(s, now, transfer);
      preview.Ok? && preview.value.fingerprint != fingerprint ==>
        Transfers.CommitTransfer(s, now, transfer, fingerprint) == Err(StaleBalance)
    ensures var preview := Reallocation.Evaluate(s, now, reallocation);
      preview.Ok? && preview.value.fingerprint != fingerprint ==>
        Reallocation.CommitReallocation(s, now, reallocation, fingerprint) == Err(StaleBalance)
    ensures var preview := Reconciliations.Evaluate(s, now, reconciliation);
      preview.Ok? && preview.value.fingerprint != fingerprint ==>
        Reconciliations.CommitReconciliation(s, now, reconciliation, fingerprint) == Err(StaleBalance)
  {
  }

  // ---- Debts ----

  /** Cash is lent or borrowed exactly when its account can take the principal. */
  lemma CashDebtIff(s: State, now: Time, c: CreateDebtCommand)
    requires c.origin == LendNow || c.origin == BorrowNow
    ensures CreateDebt(s, now, c).Ok? <==>
      && c.amount > 0 && c.personKnown && c.movementId && c.account.Some? && c.at.Some?
      && c.direction == (if c.origin == LendNow then Receivable else Payable)
      && CanPost(s, now, c.account.value, c.currency, c.amount,
                 if c.origin == LendNow then Outflow else Inflow, c.at.value)
  {
  }

  /** An existing debt of either direction is recorded exactly without any of the fields of a movement. */
  lemma ExistingDebtIff(s: State, now: Time, c: CreateDebtCommand)
    requires c.origin == Existing
    ensures CreateDebt(s, now, c).Ok? <==>
      c.amount > 0 && c.personKnown && !(c.account.Some? && c.movementId && c.at.Some?)
  {
  }

  lemma {:induction false} StripIsBlank(text: string)
    ensures Strip(text) == "" <==> forall i :: 0 <= i < |text| ==> IsSpace(text[i])
    decreases |text|
  {
    if text != "" {
      if IsSpace(text[0]) {
        StripIsBlank(text[1..]);
        assert forall i :: 0 < i < |text| ==> text[i] == text[1..][i - 1];
      } else if IsSpace(text[|text| - 1]) {
        StripIsBlank(text[..|text| - 1]);
        assert text[0] == text[..|text| - 1][0];
      }
    }
  }

  lemma {:induction false} StripIsShorter(text: string)
    ensures |Strip(text)| <= |text|
    decreases |text|
  {
    if text != "" {
      if IsSpace(text[0]) {
        StripIsShorter(text[1..]);
      } else if IsSpace(text[|text| - 1]) {
        StripIsShorter(text[..|text| - 1]);
      }
    }
  }

  /** A debt that is not settled is cancelled with any reason of at most a thousand characters that are not all blank;
      one that is all blank is refused. */
  lemma CancelledIff(s: State, now: Time, d: nat, version: nat, reason: string)
    requires |reason| <= 1000
    ensures CancelDebt(s, now, d, version, reason).Ok? <==>
      && d < |s.debts| && s.debts[d].version == version && s.debts[d].status != Settled
      && exists i :: 0 <= i < |reason| && !IsSpace(reason[i])
  {
    StripIsBlank(reason);
    StripIsShorter(reason);
  }

  // ---- Accounts ----

  lemma OpenedIff(s: State, now: Time, c: Accounts.OpenAccountCommand)
    ensures Accounts.OpenAccount(s, now, c).Ok? <==>
      (c.allowNegative || c.opening >= 0) && c.openedAt <= now + FIVE_MINUTES
  {
  }

  /** The account as the request would leave it. */
  function Wanted(account: Account, e: Accounts.AccountEdit): Account {
    account.(
      opening := if e.opening.Some? then e.opening.value.0 else account.opening,
      currency := if e.opening.Some? then e.opening.value.1 else account.currency,
      openedAt := if e.openedAt.Some? then e.openedAt.value else account.openedAt,
      includeInTotal := if e.includeInTotal.Some? then e.includeInTotal.value else account.includeInTotal,
      allowNegative := if e.allowNegative.Some? then e.allowNegative.value else account.allowNegative,
      status := if e.status.Some? then e.status.value else account.status)
  }

  /** An account may lose its permission to be negative exactly when neither its opening balance nor its balance now
      is. */
  predicate PolicyHolds(s: State, now: Time, a: nat, after: Account)
    requires a < |s.accounts|
  {
    after.allowNegative
    || (after.opening >= 0 && InRange(Balance(s, a, now)) && after.opening + Total(s.movements, a, now) >= 0)
  }

  /** A change of an active account is accepted exactly when the opening terms stay or nothing is posted, the account
      would not be below zero now against its policy, and its drafts stay in its currency. */
  lemma EditedIff(s: State, now: Time, a: nat, e: Accounts.AccountEdit)
    requires a < |s.accounts| && s.accounts[a].status == Active && e.version == s.accounts[a].version
    requires e.descriptive || Wanted(s.accounts[a], e) != s.accounts[a]
    ensures var before, after := s.accounts[a], Wanted(s.accounts[a], e);
      Accounts.EditAccount(s, now, a, e).Ok? <==>
        && (SameOpening(before, after) || !Accounts.HasPostedActivity(s.movements, a))
        && PolicyHolds(s, now, a, after)
        && forall i :: 0 <= i < |s.movements| && s.movements[i].account == a ==>
             s.movements[i].currency == after.currency
  {
    assert Accounts.Edited(s.accounts[a], e) == Wanted(s.accounts[a], e);
    if !Accounts.HasPostedActivity(s.movements, a) {
      Accounts.NoActivityNoBalance(s.movements, a, now);
    }
  }

  predicate SameOpening(before: Account, after: Account) {
    after.opening == before.opening && after.currency == before.currency && after.openedAt == before.openedAt
  }

  /** An account that is not active accepts a change of its status alone: an archived one to active or closed, a closed
      one to active. */
  lemma LifecycleIff(s: State, now: Time, a: nat, e: Accounts.AccountEdit)
    requires a < |s.accounts| && s.accounts[a].status != Active && e.version == s.accounts[a].version
    requires Sound(s) && (e.descriptive || Wanted(s.accounts[a], e) != s.accounts[a])
    requires PolicyHolds(s, now, a, s.accounts[a])
    ensures var before, after := s.accounts[a], Wanted(s.accounts[a], e);
      Accounts.EditAccount(s, now, a, e).Ok? <==>
        && !e.descriptive && after.(status := before.status) == before
        && (after.status == Active || (before.status == Archived && after.status == Closed))
  {
    assert Accounts.Edited(s.accounts[a], e) == Wanted(s.accounts[a], e);
    forall i | 0 <= i < |s.movements| && s.movements[i].account == a
      ensures s.movements[i].currency == s.accounts[a].currency
    {
      assert RowFits(s.accounts, s.movements[i]);
    }
  }

  // ---- Reconciliations ----

  /** Every entered balance but the calculated one can be reconciled, as long as an account that may not be negative is
      not below zero at the effective time nor now. */
  lemma ReconciledIff(s: State, now: Time, c: Reconciliations.ReconciliationCommand)
    requires c.account < |s.accounts|
    requires InRange(Balance(s, c.account, c.at)) && InRange(Balance(s, c.account, Max(now, c.at)))
    ensures var account, calculated := s.accounts[c.account], Balance(s, c.account, c.at);
      var current := Balance(s, c.account, Max(now, c.at)) + c.actual - calculated;
      Reconciliations.CommitReconciliation(
        s, now, c, OfReconciliation(c.account, account.version, calculated, c.at)).Ok? <==>
        && account.status == Active && c.currency == account.currency
        && account.openedAt <= c.at <= now + FIVE_MINUTES
        && c.actual != calculated && InRange(c.actual - calculated) && InRange(current)
        && (account.allowNegative || (c.actual >= 0 && current >= 0))
  {
  }

  // ---- Transfers ----

  /** The destination amount and the rate belong together: none of either within a currency, or the amount itself; both
      across currencies, and the amount is what the rate makes of the other. */
  predicate Resolves(c: Transfers.TransferCommand, source: Currency, destination: Currency) {
    if source == destination then
      c.fxRate.None? && (c.destinationAmount.None? || c.destinationAmount.value == (c.sourceAmount, destination))
    else
      && c.fxRate.Some? && c.destinationAmount.Some? && c.destinationAmount.value.1 == destination
      && c.destinationAmount.value.0 == Rounding.FxExpected(c.sourceAmount, c.fxRate.value)
      && c.destinationAmount.value.0 > 0
  }

  /** The account is active, was open at the date, and can bear what the transfer does to it. */
  predicate Bears(s: State, now: Time, c: Transfers.TransferCommand, received: int, a: nat) {
    && a < |s.accounts| && s.accounts[a].status == Active && s.accounts[a].openedAt <= c.at
    && InRange(Balance(s, a, Max(now, c.at))) && InRange(Transfers.Change(c, received, a))
    && var after := Balance(s, a, Max(now, c.at)) + Transfers.Change(c, received, a);
    InRange(after) && (s.accounts[a].allowNegative || after >= 0)
  }

  /** A transfer is previewed, and with the preview committed, exactly when its accounts differ, its amounts are
      positive and fit their currencies and the rate, and each of its accounts can bear it. */
  ghost predicate Transferable(s: State, now: Time, c: Transfers.TransferCommand) {
    && c.at <= now + FIVE_MINUTES && c.source != c.destination && c.sourceAmount > 0
    && c.source < |s.accounts| && c.destination < |s.accounts|
    && s.accounts[c.source].currency == c.sourceCurrency
    && (c.fxRate.Some? ==> 0 < c.fxRate.value <= Rounding.MAX_FX_RATE)
    && Resolves(c, c.sourceCurrency, s.accounts[c.destination].currency)
    && (c.fee.Some? ==> c.fee.value.amount > 0 && c.fee.value.account < |s.accounts|
                        && s.accounts[c.fee.value.account].currency == c.fee.value.currency)
    && forall a :: a in Transfers.AccountIds(c) ==> Bears(s, now, c, Received(c), a)
  }

  lemma {:induction false} ParticipantsIff(s: State, ids: seq<nat>, at: Time)
    requires forall i :: 0 <= i < |ids| ==> ids[i] < |s.accounts|
    ensures Positions.RequireParticipants(s, ids, at).Ok? <==>
      forall i :: 0 <= i < |ids| ==> s.accounts[ids[i]].status == Active && s.accounts[ids[i]].openedAt <= at
  {
    if |ids| > 0 {
      ParticipantsIff(s, ids[..|ids| - 1], at);
    }
  }

  lemma {:induction false} PositionsIff(s: State, ids: seq<nat>, asOf: Time)
    requires forall i :: 0 <= i < |ids| ==> ids[i] < |s.accounts|
    ensures Positions.PositionsOf(s, ids, asOf).Ok? <==>
      forall i :: 0 <= i < |ids| ==> InRange(Balance(s, ids[i], asOf))
  {
    if |ids| > 0 {
      PositionsIff(s, ids[..|ids| - 1], asOf);
    }
  }

  predicate MayHold(p: Positions.Position, change: int) {
    InRange(change) && InRange(p.balance + change) && (p.balance + change >= 0 || p.allowNegative)
  }

  lemma {:induction false} ImpactsIff(c: Transfers.TransferCommand, received: int, ps: seq<Positions.Position>)
    requires c.source != c.destination
    ensures Transfers.RequireImpacts(c, received, ps).Ok? <==>
      forall i :: 0 <= i < |ps| ==> MayHold(ps[i], Transfers.Change(c, received, ps[i].account))
  {
    if |ps| > 0 {
      ImpactsIff(c, received, ps[..|ps| - 1]);
    }
  }

  /** What the guards on the command alone come down to. */
  predicate Commanded(s: State, c: Transfers.TransferCommand)
    requires c.source < |s.accounts| && c.destination < |s.accounts|
    requires c.fee.Some? ==> c.fee.value.account < |s.accounts|
  {
    && c.source != c.destination && c.sourceAmount > 0 && s.accounts[c.source].currency == c.sourceCurrency
    && (c.fxRate.Some? ==> 0 < c.fxRate.value <= Rounding.MAX_FX_RATE)
    && Resolves(c, c.sourceCurrency, s.accounts[c.destination].currency)
    && (c.fee.Some? ==> c.fee.value.amount > 0
                        && s.accounts[c.fee.value.account].currency == c.fee.value.currency)
  }

  function Received(c: Transfers.TransferCommand): int {
    if c.destinationAmount.Some? then c.destinationAmount.value.0 else c.sourceAmount
  }

  lemma {:induction false} PreviewedIff(s: State, c: Transfers.TransferCommand, ps: seq<Positions.Position>)
    requires c.source < |s.accounts| && c.destination < |s.accounts|
    requires c.fee.Some? ==> c.fee.value.account < |s.accounts|
    ensures Transfers.PreviewTransfer(s, c, ps).Ok? <==>
      && Commanded(s, c)
      && forall i :: 0 <= i < |ps| ==> MayHold(ps[i], Transfers.Change(c, Received(c), ps[i].account))
  {
    if c.source != c.destination {
      ImpactsIff(c, Received(c), ps);
    }
  }

  ghost predicate AllBear(s: State, now: Time, c: Transfers.TransferCommand, ids: seq<nat>) {
    forall i :: 0 <= i < |ids| ==> Bears(s, now, c, Received(c), ids[i])
  }

  lemma SelectionIsAll(s: State, now: Time, c: Transfers.TransferCommand)
    requires forall a :: a in Transfers.AccountIds(c) ==> a < |s.accounts|
    ensures AllBear(s, now, c, Positions.SelectIds(|s.accounts|, Transfers.AccountIds(c))) <==>
      forall a :: a in Transfers.AccountIds(c) ==> Bears(s, now, c, Received(c), a)
  {
    var ids := Positions.SelectIds(|s.accounts|, Transfers.AccountIds(c));
    if AllBear(s, now, c, ids) {
      forall a | a in Transfers.AccountIds(c) ensures Bears(s, now, c, Received(c), a) {
        assert a in ids;
      }
    }
  }

  /** The accounts that the query selects can all bear the transfer. */
  lemma {:induction false} SelectionBears(s: State, now: Time, c: Transfers.TransferCommand, ids: seq<nat>)
    requires forall i :: 0 <= i < |ids| ==> ids[i] < |s.accounts|
    ensures AllBear(s, now, c, ids) <==>
      && Positions.RequireParticipants(s, ids, c.at).Ok? && Positions.PositionsOf(s, ids, Max(now, c.at)).Ok?
      && var ps := Positions.PositionsOf(s, ids, Max(now, c.at)).value;
      forall i :: 0 <= i < |ps| ==> MayHold(ps[i], Transfers.Change(c, Received(c), ps[i].account))
  {
    ParticipantsIff(s, ids, c.at);
    PositionsIff(s, ids, Max(now, c.at));
    var participants := Positions.RequireParticipants(s, ids, c.at);
    var positions := Positions.PositionsOf(s, ids, Max(now, c.at));
    if participants.Ok? && positions.Ok? {
      var ps := positions.value;
      forall i | 0 <= i < |ids|
        ensures Bears(s, now, c, Received(c), ids[i])
           <==> MayHold(ps[i], Transfers.Change(c, Received(c), ps[i].account))
      {
        assert ps[i] == Positions.PositionOf(s, ids[i], Max(now, c.at));
      }
    }
  }

  lemma PreviewIff(s: State, now: Time, c: Transfers.TransferCommand)
    ensures Transfers.Evaluate(s, now, c).Ok? <==> Transferable(s, now, c)
  {
    var ids := Positions.SelectIds(|s.accounts|, Transfers.AccountIds(c));
    assert c.source in Transfers.AccountIds(c) && c.destination in Transfers.AccountIds(c);
    if forall a :: a in Transfers.AccountIds(c) ==> a < |s.accounts| {
      SelectionIsAll(s, now, c);
      SelectionBears(s, now, c, ids);
      if Positions.PositionsOf(s, ids, Max(now, c.at)).Ok? {
        PreviewedIff(s, c, Positions.PositionsOf(s, ids, Max(now, c.at)).value);
      }
    }
  }

  /** A transfer is previewed exactly when it is transferable, and what was previewed can be committed at once. */
  lemma TransferredIff(s: State, now: Time, c: Transfers.TransferCommand)
    ensures Transfers.Evaluate(s, now, c).Ok? <==> Transferable(s, now, c)
    ensures Transferable(s, now, c) ==>
      Transfers.CommitTransfer(s, now, c, Transfers.Evaluate(s, now, c).value.fingerprint).Ok?
  {
    PreviewIff(s, now, c);
  }

  // ---- Reallocations ----

  /** Ordinary circumstances: two or more distinct active accounts in one currency, none in debt, whose balances are
      the fixed total; requests for some of them, none negative and none for the balancing one, which may not be
      negative. */
  ghost predicate Ordinary(s: State, now: Time, c: Reallocation.ReallocationCommand) {
    && c.at <= now + FIVE_MINUTES && |c.accounts| >= 2
    && (forall i, j :: 0 <= i < j < |c.accounts| ==> c.accounts[i] != c.accounts[j])
    && (forall a :: a in c.accounts ==> Holds(s, now, c, a))
    && c.balancing in c.accounts && c.balancing !in c.requested
    && !s.accounts[c.balancing].allowNegative
    && (forall a :: a in c.requested ==>
         a in c.accounts && c.requested[a].1 == c.currency && 0 <= c.requested[a].0 <= MAX_AMOUNT)
    && SumOf(SelectedIds(s, c), Holding(s, now, c)) == c.fixedTotal <= MAX_AMOUNT
  }

  predicate Holds(s: State, now: Time, c: Reallocation.ReallocationCommand, a: nat) {
    && a < |s.accounts| && s.accounts[a].status == Active && s.accounts[a].openedAt <= c.at
    && s.accounts[a].currency == c.currency && 0 <= Balance(s, a, Max(now, c.at)) <= MAX_AMOUNT
  }

  function SelectedIds(s: State, c: Reallocation.ReallocationCommand): seq<nat> {
    Positions.SelectIds(|s.accounts|, Reallocation.ToSet(c.accounts))
  }

  function Holding(s: State, now: Time, c: Reallocation.ReallocationCommand): nat -> int {
    (a: nat) => if a < |s.accounts| then Balance(s, a, Max(now, c.at)) else 0
  }

  /** What an account other than the balancing one is to hold: what was requested, or what it has. */
  function ToHold(s: State, now: Time, c: Reallocation.ReallocationCommand): nat -> int {
    (a: nat) =>
      if a == c.balancing || a >= |s.accounts| then 0
      else if a in c.requested then c.requested[a].0 else Balance(s, a, Max(now, c.at))
  }

  lemma {:induction false} AddUpIff<T>(total: int, amounts: seq<int>, rows: seq<T>, f: T -> int)
    requires 0 <= total <= MAX_AMOUNT && |rows| == |amounts|
    requires forall i :: 0 <= i < |rows| ==> amounts[i] == f(rows[i]) && amounts[i] >= 0
    ensures Reallocation.AddUp(total, amounts).Ok? <==> total + SumOf(rows, f) <= MAX_AMOUNT
    ensures Reallocation.AddUp(total, amounts).Ok? ==>
      Reallocation.AddUp(total, amounts).value == total + SumOf(rows, f)
    decreases |rows|
  {
    if |rows| > 0 {
      SumFirst(rows, f);
      SumNonNegative(rows[1..], f);
      if InRange(total + amounts[0]) {
        AddUpIff(total + amounts[0], amounts[1..], rows[1..], f);
      }
    }
  }

  function Itself(): int -> int { (x: int) => x }

  /** The targets of the others, position by position. */
  lemma {:induction false} OtherTargetsAre(
      s: State, now: Time, c: Reallocation.ReallocationCommand, ps: seq<Positions.Position>, ids: seq<nat>)
    requires |ps| == |ids|
    requires forall i :: 0 <= i < |ids| ==> IsPositionOf(s, now, c, ps[i], ids[i])
    ensures var targets := Reallocation.OtherTargets(c, ps);
      && SumOf(targets, Itself()) == SumOf(ids, ToHold(s, now, c))
      && forall i :: 0 <= i < |targets| ==> targets[i] >= 0
    decreases |ids|
  {
    if |ids| > 0 {
      var targets, rest := Reallocation.OtherTargets(c, ps), Reallocation.OtherTargets(c, ps[1..]);
      assert IsPositionOf(s, now, c, ps[0], ids[0]);
      forall i | 0 <= i < |ids[1..]| ensures IsPositionOf(s, now, c, ps[1..][i], ids[1..][i]) {
        assert ps[1..][i] == ps[i + 1] && ids[1..][i] == ids[i + 1];
      }
      OtherTargetsAre(s, now, c, ps[1..], ids[1..]);
      SumFirst(ids, ToHold(s, now, c));
      Reallocation.OtherTargetsStep(c, ps);
      if ps[0].account != c.balancing {
        SumFirst(targets, Itself());
        forall i | 0 <= i < |targets| ensures targets[i] >= 0 {
          assert i > 0 ==> targets[i] == rest[i - 1];
        }
      }
    }
  }

  /** The position of an account that holds something and is to hold something. */
  predicate IsPositionOf(
      s: State, now: Time, c: Reallocation.ReallocationCommand, p: Positions.Position, a: nat)
  {
    && a < |s.accounts| && p == Positions.PositionOf(s, a, Max(now, c.at))
    && Holding(s, now, c)(a) >= 0 && ToHold(s, now, c)(a) >= 0
  }

  lemma {:induction false} LinesIff(
      c: Reallocation.ReallocationCommand, ps: seq<Positions.Position>, balancingTarget: int)
    ensures Reallocation.CheckLines(c, ps, balancingTarget).Ok? <==>
      forall i :: 0 <= i < |ps| ==>
        Reallocation.CheckLine(ps[i], Reallocation.LineFor(c, ps[i], balancingTarget)).Ok?
  {
    if |ps| > 0 {
      LinesIff(c, ps[1..], balancingTarget);
      if forall i :: 0 <= i < |ps| ==>
        Reallocation.CheckLine(ps[i], Reallocation.LineFor(c, ps[i], balancingTarget)).Ok?
      {
        forall i | 0 <= i < |ps[1..]|
          ensures Reallocation.CheckLine(ps[1..][i], Reallocation.LineFor(c, ps[1..][i], balancingTarget)).Ok?
        {
          assert ps[1..][i] == ps[i + 1];
        }
      }
    }
  }

  lemma OrdinaryIds(s: State, now: Time, c: Reallocation.ReallocationCommand)
    requires Ordinary(s, now, c)
    ensures var ids := SelectedIds(s, c);
      && |ids| >= 2 && (forall a :: a in ids <==> a in c.accounts)
      && (forall i :: 0 <= i < |ids| ==> Holds(s, now, c, ids[i]) && ToHold(s, now, c)(ids[i]) >= 0)
  {
    var ids := SelectedIds(s, c);
    forall a | a in c.accounts ensures a in ids {
      assert a in Reallocation.ToSet(c.accounts);
    }
    assert c.accounts[0] in ids && c.accounts[1] in ids;
  }

  lemma {:induction false} EvaluatedFrom(s: State, now: Time, c: Reallocation.ReallocationCommand, ids: seq<nat>)
    requires c.at <= now + FIVE_MINUTES
    requires forall i, j :: 0 <= i < j < |c.accounts| ==> c.accounts[i] != c.accounts[j]
    requires forall a :: a in Reallocation.ToSet(c.accounts) ==> a < |s.accounts|
    requires ids == SelectedIds(s, c)
    requires Positions.RequireParticipants(s, ids, c.at).Ok? && Positions.PositionsOf(s, ids, Max(now, c.at)).Ok?
    ensures Reallocation.Evaluate(s, now, c)
         == Reallocation.PreviewReallocation(s, c, Positions.PositionsOf(s, ids, Max(now, c.at)).value)
  {
  }

  /** The positions that an ordinary command is evaluated on. */
  lemma OrdinaryPositions(s: State, now: Time, c: Reallocation.ReallocationCommand)
    requires Ordinary(s, now, c)
    ensures var ids := SelectedIds(s, c);
      && Positions.RequireParticipants(s, ids, c.at).Ok? && Positions.PositionsOf(s, ids, Max(now, c.at)).Ok?
      && Reallocation.Evaluate(s, now, c)
         == Reallocation.PreviewReallocation(s, c, Positions.PositionsOf(s, ids, Max(now, c.at)).value)
  {
    var ids := SelectedIds(s, c);
    OrdinaryIds(s, now, c);
    ParticipantsIff(s, ids, c.at);
    PositionsIff(s, ids, Max(now, c.at));
    EvaluatedFrom(s, now, c, ids);
  }

  lemma {:induction false} OrdinarySelection(
      s: State, now: Time, c: Reallocation.ReallocationCommand, ps: seq<Positions.Position>)
    requires Ordinary(s, now, c) && Positions.PositionsOf(s, SelectedIds(s, c), Max(now, c.at)) == Ok(ps)
    ensures forall i :: 0 <= i < |ps| ==> ps[i].account < |s.accounts|
    ensures Reallocation.CheckSelection(s, c, ps).Ok?
  {
    var ids := SelectedIds(s, c);
    OrdinaryIds(s, now, c);
    PositionsAre(s, now, c, ps);
    forall a | a in c.accounts ensures Reallocation.Selected(ps, a) {
      var i :| 0 <= i < |ids| && ids[i] == a;
      assert ps[i].account == a;
    }
  }

  lemma OrdinaryLine(
      s: State, now: Time, c: Reallocation.ReallocationCommand, others: int, p: Positions.Position)
    requires c.balancing < |s.accounts|
    requires Holds(s, now, c, p.account) && p == Positions.PositionOf(s, p.account, Max(now, c.at))
    requires p.account in c.requested ==> 0 <= c.requested[p.account].0 <= MAX_AMOUNT
    requires !s.accounts[c.balancing].allowNegative && 0 <= p.balance <= c.fixedTotal <= MAX_AMOUNT
    requires 0 <= others <= MAX_AMOUNT
    ensures Reallocation.CheckLine(p, Reallocation.LineFor(c, p, c.fixedTotal - others)).Ok?
       <==> (p.account == c.balancing ==> others <= c.fixedTotal)
  {
  }

  /** Only the line of the balancing account can fail, by its target being negative. */
  lemma {:induction false} OrdinaryLines(
      s: State, now: Time, c: Reallocation.ReallocationCommand, ps: seq<Positions.Position>, others: int)
    requires Ordinary(s, now, c) && Positions.PositionsOf(s, SelectedIds(s, c), Max(now, c.at)) == Ok(ps)
    requires 0 <= others <= MAX_AMOUNT
    ensures Reallocation.CheckLines(c, ps, c.fixedTotal - others).Ok? <==> others <= c.fixedTotal
  {
    var ids, target := SelectedIds(s, c), c.fixedTotal - others;
    var b := BalancingAt(s, now, c);
    LinesIff(c, ps, target);
    forall i: nat | i < |ps|
      ensures Reallocation.CheckLine(ps[i], Reallocation.LineFor(c, ps[i], target)).Ok?
         <==> (ids[i] == c.balancing ==> others <= c.fixedTotal)
    {
      OrdinaryLineAt(s, now, c, ps, others, i);
    }
  }

  lemma BalancingAt(s: State, now: Time, c: Reallocation.ReallocationCommand) returns (b: nat)
    requires Ordinary(s, now, c)
    ensures b < |SelectedIds(s, c)| && SelectedIds(s, c)[b] == c.balancing
  {
    OrdinaryIds(s, now, c);
    b :| 0 <= b < |SelectedIds(s, c)| && SelectedIds(s, c)[b] == c.balancing;
  }

  lemma {:induction false} OrdinaryLineAt(
      s: State, now: Time, c: Reallocation.ReallocationCommand, ps: seq<Positions.Position>, others: int, i: nat)
    requires Ordinary(s, now, c) && Positions.PositionsOf(s, SelectedIds(s, c), Max(now, c.at)) == Ok(ps)
    requires 0 <= others <= MAX_AMOUNT && i < |ps|
    ensures i < |SelectedIds(s, c)|
    ensures Reallocation.CheckLine(ps[i], Reallocation.LineFor(c, ps[i], c.fixedTotal - others)).Ok?
       <==> (SelectedIds(s, c)[i] == c.balancing ==> others <= c.fixedTotal)
  {
    PositionsAre(s, now, c, ps);
    assert IsPositionOf(s, now, c, ps[i], SelectedIds(s, c)[i]);
    NoneHoldsMore(s, now, c, SelectedIds(s, c));
    OrdinaryLine(s, now, c, others, ps[i]);
  }

  lemma {:induction false} PositionsAre(
      s: State, now: Time, c: Reallocation.ReallocationCommand, ps: seq<Positions.Position>)
    requires Ordinary(s, now, c) && Positions.PositionsOf(s, SelectedIds(s, c), Max(now, c.at)) == Ok(ps)
    ensures var ids := SelectedIds(s, c);
      && |ps| == |ids|
      && (forall i :: 0 <= i < |ids| ==> Holds(s, now, c, ids[i]))
      && (forall i :: 0 <= i < |ids| ==> IsPositionOf(s, now, c, ps[i], ids[i]))
  {
    OrdinaryIds(s, now, c);
  }

  lemma {:induction false} NoneHoldsMore(s: State, now: Time, c: Reallocation.ReallocationCommand, ids: seq<nat>)
    requires forall i :: 0 <= i < |ids| ==> Holds(s, now, c, ids[i])
    requires SumOf(ids, Holding(s, now, c)) == c.fixedTotal
    ensures forall i :: 0 <= i < |ids| ==> ids[i] < |s.accounts| && Balance(s, ids[i], Max(now, c.at)) <= c.fixedTotal
  {
    forall i | 0 <= i < |ids|
      ensures ids[i] < |s.accounts| && 0 <= Holding(s, now, c)(ids[i]) == Balance(s, ids[i], Max(now, c.at))
    {
      assert Holds(s, now, c, ids[i]);
    }
    SumNonNegative(ids, Holding(s, now, c));
  }

  lemma {:induction false} BalancesAddUp(
      s: State, now: Time, c: Reallocation.ReallocationCommand, ps: seq<Positions.Position>, ids: seq<nat>)
    requires |ps| == |ids| && forall i :: 0 <= i < |ids| ==> IsPositionOf(s, now, c, ps[i], ids[i])
    requires SumOf(ids, Holding(s, now, c)) == c.fixedTotal <= MAX_AMOUNT
    ensures Reallocation.AddUp(0, Reallocation.BalancesOf(ps)) == Ok(c.fixedTotal)
    ensures forall i :: 0 <= i < |ids| ==> ToHold(s, now, c)(ids[i]) >= 0
  {
    forall i | 0 <= i < |ids|
      ensures Reallocation.BalancesOf(ps)[i] == Holding(s, now, c)(ids[i]) >= 0 && ToHold(s, now, c)(ids[i]) >= 0
    {
      assert IsPositionOf(s, now, c, ps[i], ids[i]);
    }
    AddUpIff(0, Reallocation.BalancesOf(ps), ids, Holding(s, now, c));
  }

  /** The two totals of the preview: both are computed without leaving the range, or the second is above it. */
  lemma {:induction false} OrdinaryTotals(
      s: State, now: Time, c: Reallocation.ReallocationCommand, ps: seq<Positions.Position>, ids: seq<nat>)
    requires |ps| == |ids| && forall i :: 0 <= i < |ids| ==> IsPositionOf(s, now, c, ps[i], ids[i])
    requires SumOf(ids, Holding(s, now, c)) == c.fixedTotal <= MAX_AMOUNT
    ensures Reallocation.AddUp(0, Reallocation.BalancesOf(ps)) == Ok(c.fixedTotal)
    ensures var others := Reallocation.AddUp(0, Reallocation.OtherTargets(c, ps));
      var sum := SumOf(ids, ToHold(s, now, c));
      sum >= 0 && (if sum <= MAX_AMOUNT then others == Ok(sum) else others.Err?)
  {
    BalancesAddUp(s, now, c, ps, ids);
    var targets := Reallocation.OtherTargets(c, ps);
    OtherTargetsAre(s, now, c, ps, ids);
    SumNonNegative(targets, Itself());
    AddUpIff(0, targets, targets, Itself());
  }

  lemma {:induction false} OrdinarySums(
      s: State, now: Time, c: Reallocation.ReallocationCommand, ps: seq<Positions.Position>)
    requires Ordinary(s, now, c) && Positions.PositionsOf(s, SelectedIds(s, c), Max(now, c.at)) == Ok(ps)
    ensures Totalled(c, ps, SumOf(SelectedIds(s, c), ToHold(s, now, c)))
  {
    PositionsAre(s, now, c, ps);
    OrdinaryTotals(s, now, c, ps, SelectedIds(s, c));
    SumNonNegative(SelectedIds(s, c), Holding(s, now, c));
  }

  /** The balances add up to the fixed total and the targets of the others to `sum`, or to too much. */
  predicate Totalled(c: Reallocation.ReallocationCommand, ps: seq<Positions.Position>, sum: int) {
    && Reallocation.AddUp(0, Reallocation.BalancesOf(ps)) == Ok(c.fixedTotal) && c.fixedTotal <= MAX_AMOUNT
    && sum >= 0
    && var others := Reallocation.AddUp(0, Reallocation.OtherTargets(c, ps));
    if sum <= MAX_AMOUNT then others == Ok(sum) else others.Err?
  }

  lemma {:induction false} PreviewDecided(
      s: State, c: Reallocation.ReallocationCommand, ps: seq<Positions.Position>, sum: int)
    requires forall i :: 0 <= i < |ps| ==> ps[i].account < |s.accounts|
    requires Reallocation.CheckSelection(s, c, ps).Ok? && Totalled(c, ps, sum) && c.fixedTotal >= 0
    requires sum <= MAX_AMOUNT ==> (Reallocation.CheckLines(c, ps, c.fixedTotal - sum).Ok? <==> sum <= c.fixedTotal)
    ensures Reallocation.PreviewReallocation(s, c, ps).Ok? <==> sum <= c.fixedTotal
  {
    PreviewedFrom(s, c, ps);
  }

  lemma {:induction false} OrdinaryPreview(
      s: State, now: Time, c: Reallocation.ReallocationCommand, ps: seq<Positions.Position>, sum: int)
    requires Ordinary(s, now, c) && Positions.PositionsOf(s, SelectedIds(s, c), Max(now, c.at)) == Ok(ps)
    requires sum == SumOf(SelectedIds(s, c), ToHold(s, now, c))
    ensures forall i :: 0 <= i < |ps| ==> ps[i].account < |s.accounts|
    ensures Reallocation.PreviewReallocation(s, c, ps).Ok? <==> sum <= c.fixedTotal
  {
    OrdinarySelection(s, now, c, ps);
    OrdinarySums(s, now, c, ps);
    NothingIsNegative(s, now, c);
    if sum <= MAX_AMOUNT {
      OrdinaryLines(s, now, c, ps, sum);
    }
    PreviewDecided(s, c, ps, sum);
  }

  lemma {:induction false} NothingIsNegative(s: State, now: Time, c: Reallocation.ReallocationCommand)
    requires Ordinary(s, now, c)
    ensures c.fixedTotal >= 0
  {
    OrdinaryIds(s, now, c);
    var ids := SelectedIds(s, c);
    forall i | 0 <= i < |ids| ensures Holding(s, now, c)(ids[i]) >= 0 {
      assert Holds(s, now, c, ids[i]);
    }
    SumNonNegative(ids, Holding(s, now, c));
  }

  /** In ordinary circumstances a reallocation is previewed exactly when what is to be held by the other accounts fits
      into the fixed total. */
  lemma ReallocatedIff(s: State, now: Time, c: Reallocation.ReallocationCommand)
    requires Ordinary(s, now, c)
    ensures Reallocation.Evaluate(s, now, c).Ok? <==> SumOf(SelectedIds(s, c), ToHold(s, now, c)) <= c.fixedTotal
  {
    OrdinaryPositions(s, now, c);
    var ids := SelectedIds(s, c);
    OrdinaryPreview(s, now, c, Positions.PositionsOf(s, ids, Max(now, c.at)).value, SumOf(ids, ToHold(s, now, c)));
  }

  lemma {:induction false} PreviewedFrom(s: State, c: Reallocation.ReallocationCommand, ps: seq<Positions.Position>)
    requires forall i :: 0 <= i < |ps| ==> ps[i].account < |s.accounts|
    requires Reallocation.CheckSelection(s, c, ps).Ok?
    requires Reallocation.AddUp(0, Reallocation.BalancesOf(ps)) == Ok(c.fixedTotal)
    ensures var others := Reallocation.AddUp(0, Reallocation.OtherTargets(c, ps));
      Reallocation.PreviewReallocation(s, c, ps).Ok? <==>
        && others.Ok? && InRange(c.fixedTotal - others.value)
        && Reallocation.CheckLines(c, ps, c.fixedTotal - others.value).Ok?
  {
  }
}
