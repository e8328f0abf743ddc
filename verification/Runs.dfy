/** Any sequence of calls to the ledger services, and what holds in every state that it can reach. */
module Runs {
  import opened Common
  import opened Sums
  import opened Ledger
  import opened History
  import Transactions
  import Transfers
  import Reallocation
  import ReallocationGroup
  import Reconciliations
  import opened Debts
  import opened Sharing
  import Accounts
  import opened Groups

  datatype Op =
    | Open(opening: Accounts.OpenAccountCommand)
    | Edit(account: nat, edit: Accounts.AccountEdit)
    | Draft(fields: Transactions.DraftFields, details: Option<Error>)
    | Redraft(id: nat, version: nat, fields: Transactions.DraftFields, details: Option<Error>)
    | Post(id: nat, version: nat, details: Option<Error>)
    | Reverse(id: nat, version: nat, at: Time)
    | Move(transfer: Transfers.TransferCommand, fingerprint: Fingerprint)
    | Reallocate(reallocation: Reallocation.ReallocationCommand, fingerprint: Fingerprint)
    | Reconcile(reconciliation: Reconciliations.ReconciliationCommand, fingerprint: Fingerprint)
    | Lend(loan: CreateDebtCommand)
    | PayBack(debt: nat, repayment: RepayCommand)
    | Waive(debt: nat, version: nat, reason: string)
    | Split(expense: nat, share: CreateShareCommand)
    | Resplit(id: nat, update: UpdateShareCommand)
    | GiveBack(expense: nat, refund: RefundCommand)

  function Apply(s: State, now: Time, op: Op): Result<State> {
    match op
    case Open(c) => Accounts.OpenAccount(s, now, c)
    case Edit(a, e) => Accounts.EditAccount(s, now, a, e)
    case Draft(f, details) => Transactions.CreateDraft(s, f, details)
    case Redraft(id, version, f, details) => Transactions.UpdateDraft(s, id, version, f, details)
    case Post(id, version, details) => Transactions.Post(s, now, id, version, details)
    case Reverse(id, version, at) => Transactions.Reverse(s, now, id, version, at)
    case Move(c, fingerprint) => Transfers.CommitTransfer(s, now, c, fingerprint)
    case Reallocate(c, fingerprint) => Reallocation.CommitReallocation(s, now, c, fingerprint)
    case Reconcile(c, fingerprint) => Reconciliations.CommitReconciliation(s, now, c, fingerprint)
    case Lend(c) => CreateDebt(s, now, c)
    case PayBack(d, c) => Repay(s, now, d, c)
    case Waive(d, version, reason) => CancelDebt(s, now, d, version, reason)
    case Split(e, c) => CreateShare(s, now, e, c)
    case Resplit(i, c) => UpdateShare(s, now, i, c)
    case GiveBack(e, c) => RefundExpense(s, now, e, c)
  }

  /** The rows that the step posts, and the date that they carry. */
  function News(s: State, now: Time, op: Op): seq<Movement> {
    match op
    case Open(_) => []
    case Edit(_, _) => []
    case Draft(_, _) => []
    case Redraft(_, _, _, _) => []
    case Post(id, _, _) => if id < |s.movements| then [s.movements[id]] else []
    case Reverse(id, _, at) => if id < |s.movements| then [Transactions.ReversalRow(s.movements[id], id, at)] else []
    case Move(c, fingerprint) => Transfers.RowsOf(s, now, c, fingerprint)
    case Reallocate(c, fingerprint) => Reallocation.RowsOf(s, now, c, fingerprint)
    case Reconcile(c, _) =>
      if c.account < |s.accounts| then [Reconciliations.AdjustmentRow(c, c.actual - Balance(s, c.account, c.at))]
      else []
    case Lend(c) => RowsOfDebt(c)
    case PayBack(d, c) => if d < |s.debts| then [RepaymentRow(s.debts[d], c)] else []
    case Waive(_, _, _) => []
    case Split(_, _) => []
    case Resplit(_, _) => []
    case GiveBack(e, c) => if e < |s.movements| then [RefundRow(s, e, c)] else []
  }

  function DateOf(s: State, op: Op): Time {
    match op
    case Open(_) => 0
    case Edit(_, _) => 0
    case Draft(_, _) => 0
    case Redraft(_, _, _, _) => 0
    case Post(id, _, _) => if id < |s.movements| then s.movements[id].occurredAt else 0
    case Reverse(_, _, at) => at
    case Move(c, _) => c.at
    case Reallocate(c, _) => c.at
    case Reconcile(c, _) => c.at
    case Lend(c) => DateOfDebt(c)
    case PayBack(_, c) => c.paidAt
    case Waive(_, _, _) => 0
    case Split(_, _) => 0
    case Resplit(_, _) => 0
    case GiveBack(_, c) => c.at
  }

  predicate OnAccounts(op: Op) { op.Open? || op.Edit? }

  // ---- One step ----

  /** Every step but an account edit posts its rows under the balance policy and moves nothing else. */
  ghost predicate PostsRows(s: State, s': State, now: Time, op: Op) {
    && Posts(s, s', DateOf(s, op), News(s, now, op))
    && Covered(s, now, DateOf(s, op), News(s, now, op))
  }

  lemma NothingPosted(s: State, s': State, now: Time)
    requires SameLedgerRows(s, s')
    ensures Posts(s, s', 0, []) && Covered(s, now, 0, [])
    ensures Sound(s) ==> Sound(s') && Guarded(s.movements, s'.movements)
    ensures s'.movements == s.movements + []
  {
  }

  predicate OnEntries(op: Op) { op.Draft? || op.Redraft? || op.Post? || op.Reverse? }

  predicate OnGroups(op: Op) { op.Move? || op.Reallocate? || op.Reconcile? }

  predicate OnDebts(op: Op) { op.Lend? || op.PayBack? || op.Waive? }

  predicate OnExpenses(op: Op) { op.Split? || op.Resplit? || op.GiveBack? }

  lemma EntryStepPosts(s: State, now: Time, op: Op)
    requires Sound(s) && Apply(s, now, op).Ok? && OnEntries(op)
    ensures PostsRows(s, Apply(s, now, op).value, now, op)
    ensures Sound(Apply(s, now, op).value) && Guarded(s.movements, Apply(s, now, op).value.movements)
  {
    NothingPosted(s, s, now);
    match op
    case Draft(f, details) => Transactions.DraftsAreInvisible(s, f, details);
    case Redraft(id, version, f, details) => Transactions.DraftEditsAreInvisible(s, id, version, f, details);
    case Post(id, version, details) => Transactions.PostShifts(s, now, id, version, details);
    case Reverse(id, version, at) => Transactions.ReverseShifts(s, now, id, version, at);
  }

  lemma MovePosts(s: State, now: Time, op: Op)
    requires Sound(s) && Apply(s, now, op).Ok? && op.Move?
    ensures PostsRows(s, Apply(s, now, op).value, now, op)
    ensures Sound(Apply(s, now, op).value) && Guarded(s.movements, Apply(s, now, op).value.movements)
    ensures Apply(s, now, op).value.movements == s.movements + News(s, now, op)
  {
    Transfers.TransferShifts(s, now, op.transfer, op.fingerprint);
  }

  lemma ReallocatePosts(s: State, now: Time, op: Op)
    requires Sound(s) && Apply(s, now, op).Ok? && op.Reallocate?
    ensures PostsRows(s, Apply(s, now, op).value, now, op)
    ensures Sound(Apply(s, now, op).value) && Guarded(s.movements, Apply(s, now, op).value.movements)
    ensures Apply(s, now, op).value.movements == s.movements + News(s, now, op)
  {
    Reallocation.ReallocationShifts(s, now, op.reallocation, op.fingerprint);
  }

  lemma ReconcilePosts(s: State, now: Time, op: Op)
    requires Sound(s) && Apply(s, now, op).Ok? && op.Reconcile?
    ensures PostsRows(s, Apply(s, now, op).value, now, op)
    ensures Sound(Apply(s, now, op).value) && Guarded(s.movements, Apply(s, now, op).value.movements)
    ensures Apply(s, now, op).value.movements == s.movements + News(s, now, op)
  {
    Reconciliations.ReconciliationShifts(s, now, op.reconciliation, op.fingerprint);
  }

  lemma GroupStepPosts(s: State, now: Time, op: Op)
    requires Sound(s) && Apply(s, now, op).Ok? && OnGroups(op)
    ensures PostsRows(s, Apply(s, now, op).value, now, op)
    ensures Sound(Apply(s, now, op).value) && Guarded(s.movements, Apply(s, now, op).value.movements)
    ensures Apply(s, now, op).value.movements == s.movements + News(s, now, op)
  {
    if op.Move? {
      MovePosts(s, now, op);
    } else if op.Reallocate? {
      ReallocatePosts(s, now, op);
    } else {
      ReconcilePosts(s, now, op);
    }
  }

  lemma LendPosts(s: State, now: Time, op: Op)
    requires Sound(s) && Apply(s, now, op).Ok? && op.Lend?
    ensures PostsRows(s, Apply(s, now, op).value, now, op)
    ensures Sound(Apply(s, now, op).value) && Guarded(s.movements, Apply(s, now, op).value.movements)
    ensures Apply(s, now, op).value.movements == s.movements + News(s, now, op)
  {
    CreateDebtShifts(s, now, op.loan);
  }

  lemma PayBackPosts(s: State, now: Time, op: Op)
    requires Sound(s) && Apply(s, now, op).Ok? && op.PayBack?
    ensures PostsRows(s, Apply(s, now, op).value, now, op)
    ensures Sound(Apply(s, now, op).value) && Guarded(s.movements, Apply(s, now, op).value.movements)
    ensures Apply(s, now, op).value.movements == s.movements + News(s, now, op)
  {
    RepayShifts(s, now, op.debt, op.repayment);
  }

  lemma GiveBackPosts(s: State, now: Time, op: Op)
    requires Sound(s) && Apply(s, now, op).Ok? && op.GiveBack?
    ensures PostsRows(s, Apply(s, now, op).value, now, op)
    ensures Sound(Apply(s, now, op).value) && Guarded(s.movements, Apply(s, now, op).value.movements)
    ensures Apply(s, now, op).value.movements == s.movements + News(s, now, op)
  {
    RefundShifts(s, now, op.expense, op.refund);
  }

  lemma QuietPosts(s: State, now: Time, op: Op)
    requires Sound(s) && Apply(s, now, op).Ok? && (op.Waive? || op.Split? || op.Resplit?)
    ensures PostsRows(s, Apply(s, now, op).value, now, op)
    ensures Sound(Apply(s, now, op).value) && Guarded(s.movements, Apply(s, now, op).value.movements)
    ensures Apply(s, now, op).value.movements == s.movements + News(s, now, op)
  {
    if op.Waive? {
      WaiverIsQuiet(s, now, op.debt, op.version, op.reason);
    } else if op.Split? {
      SplitIsQuiet(s, now, op.expense, op.share);
    } else {
      ResplitIsQuiet(s, now, op.id, op.update);
    }
    var s' := Apply(s, now, op).value;
    assert DateOf(s, op) == 0 && News(s, now, op) == [];
    NothingPosted(s, s', now);
  }

  predicate SameLedgerRows(s: State, s': State) { s'.accounts == s.accounts && s'.movements == s.movements }

  lemma WaiverIsQuiet(s: State, now: Time, d: nat, version: nat, reason: string)
    requires CancelDebt(s, now, d, version, reason).Ok?
    ensures SameLedgerRows(s, CancelDebt(s, now, d, version, reason).value)
  {
  }

  lemma SplitIsQuiet(s: State, now: Time, e: nat, c: CreateShareCommand)
    requires CreateShare(s, now, e, c).Ok?
    ensures SameLedgerRows(s, CreateShare(s, now, e, c).value)
  {
  }

  lemma ResplitIsQuiet(s: State, now: Time, i: nat, c: UpdateShareCommand)
    requires UpdateShare(s, now, i, c).Ok?
    ensures SameLedgerRows(s, UpdateShare(s, now, i, c).value)
  {
  }

  lemma DebtStepPosts(s: State, now: Time, op: Op)
    requires Sound(s) && Apply(s, now, op).Ok? && (OnDebts(op) || OnExpenses(op))
    ensures PostsRows(s, Apply(s, now, op).value, now, op)
    ensures Sound(Apply(s, now, op).value) && Guarded(s.movements, Apply(s, now, op).value.movements)
    ensures Apply(s, now, op).value.movements == s.movements + News(s, now, op)
  {
    if op.Lend? {
      LendPosts(s, now, op);
    } else if op.PayBack? {
      PayBackPosts(s, now, op);
    } else if op.GiveBack? {
      GiveBackPosts(s, now, op);
    } else {
      QuietPosts(s, now, op);
    }
  }

  lemma StepPosts(s: State, now: Time, op: Op)
    requires Sound(s) && Apply(s, now, op).Ok? && !OnAccounts(op)
    ensures PostsRows(s, Apply(s, now, op).value, now, op)
    ensures Sound(Apply(s, now, op).value) && Guarded(s.movements, Apply(s, now, op).value.movements)
  {
    if OnEntries(op) {
      EntryStepPosts(s, now, op);
    } else if OnGroups(op) {
      GroupStepPosts(s, now, op);
    } else {
      DebtStepPosts(s, now, op);
    }
  }

  lemma AccountStepIsSound(s: State, now: Time, op: Op)
    requires Sound(s) && Apply(s, now, op).Ok? && OnAccounts(op)
    ensures Sound(Apply(s, now, op).value) && Apply(s, now, op).value.movements == s.movements
  {
    if op.Open? {
      Accounts.OpenIsSound(s, now, op.opening);
    } else {
      Accounts.EditIsSound(s, now, op.account, op.edit);
    }
  }

  lemma StepIsSound(s: State, now: Time, op: Op)
    requires Sound(s) && Apply(s, now, op).Ok?
    ensures Sound(Apply(s, now, op).value) && Guarded(s.movements, Apply(s, now, op).value.movements)
  {
    if OnAccounts(op) {
      AccountStepIsSound(s, now, op);
    } else {
      StepPosts(s, now, op);
    }
  }

  /** Which movement rows a step may change, and that only a refund adds a refund row. */
  ghost predicate KeepsRows(before: seq<Movement>, after: seq<Movement>) {
    SpecialisedRowsKept(before, after) && NoRefundRows(after[|before|..])
  }

  lemma AppendKeepsRows(ms: seq<Movement>, news: seq<Movement>)
    ensures SpecialisedRowsKept(ms, ms + news)
    ensures NoRefundRows(news) ==> KeepsRows(ms, ms + news)
  {
  }

  lemma EntryStepKeepsRows(s: State, now: Time, op: Op)
    requires Sound(s) && Apply(s, now, op).Ok? && OnEntries(op)
    ensures KeepsRows(s.movements, Apply(s, now, op).value.movements)
  {
    match op
    case Draft(f, details) => AppendKeepsRows(s.movements, [Transactions.DraftRow(f, 1)]);
    case Redraft(id, version, f, details) =>
      assert RowFits(s.accounts, s.movements[id]);
      ReplacementKeepsRows(s.movements, id, Transactions.EditedRow(s.movements[id], f));
    case Post(id, version, details) => ReplacementKeepsRows(s.movements, id, Transactions.PostedRow(s.movements[id]));
    case Reverse(id, version, at) =>
      ReversalKeepsRows(
        s.movements, id, Transactions.ReversedRow(s.movements[id]), Transactions.ReversalRow(s.movements[id], id, at));
  }

  lemma ReplacementKeepsRows(ms: seq<Movement>, i: nat, m: Movement)
    requires i < |ms| && KeptOrCore(ms[i], m)
    ensures KeepsRows(ms, ms[i := m])
  {
  }

  lemma ReversalKeepsRows(ms: seq<Movement>, i: nat, m: Movement, r: Movement)
    requires i < |ms| && KeptOrCore(ms[i], m) && r.kind != Refund
    ensures KeepsRows(ms, ms[i := m] + [r])
  {
    assert (ms[i := m] + [r])[|ms|..] == [r];
  }

  lemma AppendedNoRefund(s: State, now: Time, op: Op)
    requires Sound(s) && Apply(s, now, op).Ok? && (OnGroups(op) || OnDebts(op))
    ensures NoRefundRows(News(s, now, op))
  {
    if op.Reallocate? {
      var c := op.reallocation;
      var preview := Reallocation.CheckReallocation(s, now, c, op.fingerprint).value;
      Reallocation.RowsDated(c, Reallocation.ChangedLines(preview.lines, c.balancing));
    }
  }

  lemma StepKeepsRows(s: State, now: Time, op: Op)
    requires Sound(s) && Apply(s, now, op).Ok?
    ensures SpecialisedRowsKept(s.movements, Apply(s, now, op).value.movements)
    ensures !op.GiveBack? ==> KeepsRows(s.movements, Apply(s, now, op).value.movements)
  {
    var ms, news := s.movements, News(s, now, op);
    if OnEntries(op) {
      EntryStepKeepsRows(s, now, op);
    } else if OnGroups(op) {
      GroupStepPosts(s, now, op);
      AppendedNoRefund(s, now, op);
      AppendKeepsRows(ms, news);
    } else if OnDebts(op) {
      DebtStepPosts(s, now, op);
      AppendedNoRefund(s, now, op);
      AppendKeepsRows(ms, news);
    } else if OnExpenses(op) {
      DebtStepPosts(s, now, op);
      AppendKeepsRows(ms, news);
    } else {
      AppendKeepsRows(ms, []);
      assert ms + [] == ms;
    }
  }

  // ---- What every posting respects ----

  /** The account is active, was open at the date, and the date is at most five minutes ahead. */
  predicate MayPost(s: State, now: Time, at: Time, a: nat) {
    a < |s.accounts| && s.accounts[a].status == Active && s.accounts[a].openedAt <= at <= now + FIVE_MINUTES
  }

  lemma ReallocationMayPost(s: State, now: Time, c: Reallocation.ReallocationCommand, fingerprint: Fingerprint, a: nat)
    requires Reallocation.CommitReallocation(s, now, c, fingerprint).Ok?
    requires Touches(Reallocation.RowsOf(s, now, c, fingerprint), a)
    ensures MayPost(s, now, c.at, a)
  {
    var lines := Reallocation.CheckReallocation(s, now, c, fingerprint).value.lines;
    Reallocation.CheckMeans(s, now, c, fingerprint);
    var changed := Reallocation.ChangedLines(lines, c.balancing);
    Reallocation.RowsTouch(c, changed, a);
    InvolvedIsSelected(c, lines, a);
    var i :| 0 <= i < |lines| && lines[i].account == a;
    assert Reallocation.LineFits(s, Max(now, c.at), c, lines[i]);
  }

  lemma InvolvedIsSelected(c: Reallocation.ReallocationCommand, lines: seq<Line>, a: nat)
    requires Reallocation.IsSelected(lines, c.balancing)
    requires a in Reallocation.Involved(c, Reallocation.ChangedLines(lines, c.balancing))
    ensures Reallocation.IsSelected(lines, a)
  {
    Reallocation.ChangedLinesAre(lines, c.balancing);
    var changed := Reallocation.ChangedLines(lines, c.balancing);
    if i :| 0 <= i < |changed| && changed[i].account == a {
      assert changed[i] in changed;
    }
  }

  lemma TransferMayPost(s: State, now: Time, c: Transfers.TransferCommand, fingerprint: Fingerprint, a: nat)
    requires Transfers.CommitTransfer(s, now, c, fingerprint).Ok?
    requires Touches(Transfers.RowsOf(s, now, c, fingerprint), a)
    ensures MayPost(s, now, c.at, a)
  {
    var preview := Transfers.CheckTransfer(s, now, c, fingerprint).value;
    Transfers.CheckMeans(s, now, c, fingerprint);
    Transfers.RowsTouch(s, c, preview.destinationAmount, a);
    assert Transfers.Participant(s, a, c.at);
  }

  /** No service posts to an account that is archived or closed, before its opening, or more than five minutes ahead. */
  lemma PostingsAreAllowed(s: State, now: Time, op: Op, a: nat)
    requires Sound(s) && Apply(s, now, op).Ok? && Touches(News(s, now, op), a)
    ensures MayPost(s, now, DateOf(s, op), a)
  {
    if op.Move? {
      TransferMayPost(s, now, op.transfer, op.fingerprint, a);
    } else if op.Reallocate? {
      ReallocationMayPost(s, now, op.reallocation, op.fingerprint, a);
    } else {
      SingleMayPost(s, now, op, a);
    }
  }

  lemma SingleMayPost(s: State, now: Time, op: Op, a: nat)
    requires Sound(s) && Apply(s, now, op).Ok? && Touches(News(s, now, op), a) && !op.Move? && !op.Reallocate?
    ensures MayPost(s, now, DateOf(s, op), a)
  {
    if op.Reverse? {
      ReversalMayPost(s, now, op, a);
    } else if op.Lend? {
      assert News(s, now, op) == [PrincipalRow(op.loan)] && PrincipalRow(op.loan).account == a;
    } else {
      assert |News(s, now, op)| == 1 && News(s, now, op)[0].account == a;
    }
  }

  lemma ReversalMayPost(s: State, now: Time, op: Op, a: nat)
    requires Sound(s) && Apply(s, now, op).Ok? && Touches(News(s, now, op), a) && op.Reverse?
    ensures MayPost(s, now, DateOf(s, op), a)
  {
    assert News(s, now, op)[0].account == a;
    assert RowFits(s.accounts, s.movements[op.id]) && s.movements[op.id].account == a;
  }

  /** Every call that names a version fails unless it is the current one. */
  lemma StaleVersionsFail(s: State, now: Time, op: Op)
    requires Apply(s, now, op).Ok?
    ensures op.Edit? ==> op.account < |s.accounts| && s.accounts[op.account].version == op.edit.version
    ensures op.Redraft? || op.Post? || op.Reverse? ==> op.id < |s.movements| && s.movements[op.id].version == op.version
    ensures op.Waive? ==> op.debt < |s.debts| && s.debts[op.debt].version == op.version
    ensures op.Resplit? ==> op.id < |s.shares| && s.shares[op.id].version == op.update.version
  {
  }

  // ---- The invariant ----

  /** Every rule that the two layers, services and triggers, promise of a committed state. */
  ghost predicate Invariant(s: State) {
    Sound(s) && DebtsSound(s) && RecoverySound(s) && GroupsSound(s)
  }

  lemma EmptyIsInvariant()
    ensures Invariant(EMPTY)
  {
    assert forall a :: SumOf(EMPTY.movements, EverEntry(a)) == SumOf(EMPTY.movements, StandingEntry(a));
  }

  lemma ExpenseStepKeepsBoth(s: State, now: Time, op: Op)
    requires Invariant(s) && Apply(s, now, op).Ok? && OnExpenses(op)
    ensures RecoverySound(Apply(s, now, op).value) && DebtsSound(Apply(s, now, op).value)
  {
    match op
    case Split(e, c) => SharedIsSound(s, now, e, c);
    case Resplit(i, c) => UpdatedIsSound(s, now, i, c);
    case GiveBack(e, c) => RefundedIsSound(s, now, e, c);
  }

  lemma DebtStepKeepsDebts(s: State, now: Time, op: Op)
    requires Invariant(s) && Apply(s, now, op).Ok? && OnDebts(op)
    ensures DebtsSound(Apply(s, now, op).value)
  {
    match op
    case Lend(c) => CreateDebtKeepsDebts(s, now, c);
    case PayBack(d, c) => RepayKeepsDebts(s, now, d, c);
    case Waive(d, version, reason) => CancelDebtKeepsDebts(s, now, d, version, reason);
  }

  lemma StepLeavesDebts(s: State, now: Time, op: Op)
    requires Apply(s, now, op).Ok? && !OnDebts(op) && !OnExpenses(op)
    ensures var s' := Apply(s, now, op).value; s'.debts == s.debts && s'.payments == s.payments && s'.shares == s.shares
  {
  }

  lemma StepKeepsDebts(s: State, now: Time, op: Op)
    requires Invariant(s) && Apply(s, now, op).Ok?
    ensures DebtsSound(Apply(s, now, op).value)
  {
    if OnExpenses(op) {
      ExpenseStepKeepsBoth(s, now, op);
    } else if OnDebts(op) {
      DebtStepKeepsDebts(s, now, op);
    } else {
      StepKeepsRows(s, now, op);
      StepLeavesDebts(s, now, op);
      DebtsStaySound(s, Apply(s, now, op).value);
    }
  }

  lemma AmountsArePositive(s: State)
    requires Sound(s)
    ensures PositiveAmounts(s.movements)
  {
  }

  lemma RepayKeepsTerms(s: State, now: Time, d: nat, c: RepayCommand)
    requires Repay(s, now, d, c).Ok?
    ensures DebtsKept(s, Repay(s, now, d, c).value)
  {
  }

  lemma StepKeepsTerms(s: State, now: Time, op: Op)
    requires Apply(s, now, op).Ok? && !op.Waive? && !OnExpenses(op)
    ensures DebtsKept(s, Apply(s, now, op).value) && Apply(s, now, op).value.shares == s.shares
  {
    if op.PayBack? {
      RepayKeepsTerms(s, now, op.debt, op.repayment);
    }
  }

  lemma OtherStepKeepsRecovery(s: State, now: Time, op: Op)
    requires Invariant(s) && Apply(s, now, op).Ok? && !op.Waive? && !OnExpenses(op)
    ensures RecoverySound(Apply(s, now, op).value)
  {
    var s' := Apply(s, now, op).value;
    StepIsSound(s, now, op);
    StepKeepsRows(s, now, op);
    StepKeepsTerms(s, now, op);
    AmountsArePositive(s');
    RecoveryStaysSound(s, s');
  }

  lemma StepKeepsRecovery(s: State, now: Time, op: Op)
    requires Invariant(s) && Apply(s, now, op).Ok?
    ensures RecoverySound(Apply(s, now, op).value)
  {
    if OnExpenses(op) {
      ExpenseStepKeepsBoth(s, now, op);
    } else if op.Waive? {
      CancelKeepsRecovery(s, now, op.debt, op.version, op.reason);
    } else {
      OtherStepKeepsRecovery(s, now, op);
    }
  }

  lemma StepLeavesGroups(s: State, now: Time, op: Op)
    requires Apply(s, now, op).Ok? && !OnGroups(op)
    ensures var s' := Apply(s, now, op).value;
            s'.transfers == s.transfers && s'.sessions == s.sessions && s'.reconciliations == s.reconciliations
  {
  }

  lemma GroupStepKeepsGroups(s: State, now: Time, op: Op)
    requires Invariant(s) && Apply(s, now, op).Ok? && OnGroups(op)
    ensures GroupsSound(Apply(s, now, op).value)
  {
    if op.Move? {
      TransferKeepsGroups(s, now, op.transfer, op.fingerprint);
    } else if op.Reallocate? {
      ReallocationKeepsGroups(s, now, op.reallocation, op.fingerprint);
    } else {
      ReconciliationKeepsGroups(s, now, op.reconciliation, op.fingerprint);
    }
  }

  lemma StepKeepsGroups(s: State, now: Time, op: Op)
    requires Invariant(s) && Apply(s, now, op).Ok?
    ensures GroupsSound(Apply(s, now, op).value)
  {
    if OnGroups(op) {
      GroupStepKeepsGroups(s, now, op);
    } else {
      StepKeepsRows(s, now, op);
      StepLeavesGroups(s, now, op);
      OtherStepsKeepGroups(s, Apply(s, now, op).value);
    }
  }

  lemma StepKeepsInvariant(s: State, now: Time, op: Op)
    requires Invariant(s) && Apply(s, now, op).Ok?
    ensures Invariant(Apply(s, now, op).value)
  {
    StepIsSound(s, now, op);
    StepKeepsDebts(s, now, op);
    StepKeepsRecovery(s, now, op);
    StepKeepsGroups(s, now, op);
  }

  // ---- Runs ----

  datatype Call = Call(now: Time, op: Op)

  /** A call that fails leaves the state as it was. */
  function Next(s: State, call: Call): State {
    match Apply(s, call.now, call.op)
    case Ok(s') => s'
    case Err(_) => s
  }

  function Run(s: State, calls: seq<Call>): State {
    if |calls| == 0 then s else Next(Run(s, calls[..|calls| - 1]), calls[|calls| - 1])
  }

  /** Whatever is called in whatever order, no state is reached that a trigger would reject. */
  lemma {:induction false} RunsKeepTheInvariant(s: State, calls: seq<Call>)
    requires Invariant(s)
    ensures Invariant(Run(s, calls))
  {
    if |calls| > 0 {
      var before, call := Run(s, calls[..|calls| - 1]), calls[|calls| - 1];
      RunsKeepTheInvariant(s, calls[..|calls| - 1]);
      if Apply(before, call.now, call.op).Ok? {
        StepKeepsInvariant(before, call.now, call.op);
      }
    }
  }

  /** Over any run posted movements keep their fields, and specialised rows do not change at all. */
  lemma {:induction false} RunsGuardHistory(s: State, calls: seq<Call>)
    requires Invariant(s)
    ensures Guarded(s.movements, Run(s, calls).movements) && SpecialisedRowsKept(s.movements, Run(s, calls).movements)
  {
    if |calls| > 0 {
      var before, call := Run(s, calls[..|calls| - 1]), calls[|calls| - 1];
      RunsGuardHistory(s, calls[..|calls| - 1]);
      RunsKeepTheInvariant(s, calls[..|calls| - 1]);
      if Apply(before, call.now, call.op).Ok? {
        StepIsSound(before, call.now, call.op);
        StepKeepsRows(before, call.now, call.op);
        GuardedTransitive(s.movements, before.movements, Run(s, calls).movements);
        RowsKeptTransitive(s.movements, before.movements, Run(s, calls).movements);
      }
    }
  }

  lemma RowsKeptTransitive(r: seq<Movement>, s: seq<Movement>, t: seq<Movement>)
    requires SpecialisedRowsKept(r, s) && SpecialisedRowsKept(s, t)
    ensures SpecialisedRowsKept(r, t)
  {
  }

  /** Committed groups and payments are only ever added to. */
  predicate GroupRowsKept(s: State, s': State) {
    && s.transfers <= s'.transfers && s.sessions <= s'.sessions && s.reconciliations <= s'.reconciliations
    && s.payments <= s'.payments
  }

  lemma StepKeepsGroupRows(s: State, now: Time, op: Op)
    requires Apply(s, now, op).Ok?
    ensures GroupRowsKept(s, Apply(s, now, op).value)
  {
    if !OnGroups(op) {
      StepLeavesGroups(s, now, op);
    }
    if !OnDebts(op) && !OnExpenses(op) {
      StepLeavesDebts(s, now, op);
    }
  }

  /** No service changes or deletes a transfer, a reallocation session with its lines, a reconciliation or a payment,
      so the database guard that forbids it never has to refuse anything. */
  lemma {:induction false} RunsKeepGroupRows(s: State, calls: seq<Call>)
    ensures GroupRowsKept(s, Run(s, calls))
  {
    if |calls| > 0 {
      var before, call := Run(s, calls[..|calls| - 1]), calls[|calls| - 1];
      RunsKeepGroupRows(s, calls[..|calls| - 1]);
      if Apply(before, call.now, call.op).Ok? {
        StepKeepsGroupRows(before, call.now, call.op);
      }
    }
  }

  /** In every reachable state every reallocation session that was ever committed brought each of its accounts, the
      balancing one included, from the balance it was shown to the balance that was asked for. */
  lemma EverySessionReachedItsTargets(calls: seq<Call>, k: nat, i: nat)
    requires var s := Run(EMPTY, calls); k < |s.sessions| && i < |s.sessions[k].lines|
    ensures var s := Run(EMPTY, calls);
            var line := s.sessions[k].lines[i];
            line.before + SumOf(s.transfers, ReallocationGroup.TransferEffect(s, k, line.account)) == line.requested
  {
    EmptyIsInvariant();
    RunsKeepTheInvariant(EMPTY, calls);
    ReallocationGroup.AcceptedSessionReachesTargets(Run(EMPTY, calls), k, i);
  }
}
