/** Optimistic versions over whole runs: a commit acts on exactly the ledger that was previewed. */
module Freshness {
  import opened Common
  import opened Sums
  import opened Ledger
  import opened History
  import opened Positions
  import opened Debts
  import opened Sharing
  import opened Runs
  import Transfers
  import Reallocation
  import Reconciliations
  import Accounts
  import Transactions

  /** The account row and its whole posted ledger are unchanged. */
  ghost predicate SameLedger(s: State, s': State, a: nat)
    requires a < |s.accounts| && a < |s'.accounts|
  {
    s'.accounts[a] == s.accounts[a] && forall t :: Total(s'.movements, a, t) == Total(s.movements, a, t)
  }

  /** Versions never go back, and an account whose version stands still has not moved at all. */
  ghost predicate Fresh(s: State, s': State) {
    && |s.accounts| <= |s'.accounts|
    && forall a: nat :: a < |s.accounts| ==> FreshAccount(s, s', a)
  }

  ghost predicate FreshAccount(s: State, s': State, a: nat)
    requires a < |s.accounts| && a < |s'.accounts|
  {
    && s.accounts[a].version <= s'.accounts[a].version
    && (s'.accounts[a].version == s.accounts[a].version ==> SameLedger(s, s', a))
  }

  lemma PostingIsFresh(s: State, s': State, at: Time, news: seq<Movement>)
    requires Posts(s, s', at, news)
    ensures Fresh(s, s')
    ensures forall a: nat :: a < |s.accounts| && Touches(news, a) ==>
      s'.accounts[a].version == s.accounts[a].version + 1
  {
    forall a: nat | a < |s.accounts| ensures FreshAccount(s, s', a) {
      if !Touches(news, a) {
        NetUntouched(news, a);
      }
    }
  }

  lemma EditIsFresh(s: State, now: Time, a: nat, e: Accounts.AccountEdit)
    requires Accounts.EditAccount(s, now, a, e).Ok?
    ensures Fresh(s, Accounts.EditAccount(s, now, a, e).value)
  {
  }

  lemma StepIsFresh(s: State, now: Time, op: Op)
    requires Sound(s) && Apply(s, now, op).Ok?
    ensures Fresh(s, Apply(s, now, op).value)
  {
    match op
    case Open(_) =>
    case Edit(a, e) => EditIsFresh(s, now, a, e);
    case _ =>
      StepPosts(s, now, op);
      PostingIsFresh(s, Apply(s, now, op).value, DateOf(s, op), News(s, now, op));
  }

  /** Every step that posts to an account strictly increases that account's version. */
  lemma PostingBumps(s: State, now: Time, op: Op, a: nat)
    requires Sound(s) && Apply(s, now, op).Ok? && !OnAccounts(op)
    requires a < |s.accounts| && Touches(News(s, now, op), a)
    ensures a < |Apply(s, now, op).value.accounts|
    ensures Apply(s, now, op).value.accounts[a].version == s.accounts[a].version + 1
  {
    StepPosts(s, now, op);
    PostingIsFresh(s, Apply(s, now, op).value, DateOf(s, op), News(s, now, op));
  }

  lemma FreshTransitive(r: State, s: State, t: State)
    requires Fresh(r, s) && Fresh(s, t)
    ensures Fresh(r, t)
  {
    forall a: nat | a < |r.accounts| ensures FreshAccount(r, t, a) {
      assert FreshAccount(r, s, a) && FreshAccount(s, t, a);
    }
  }

  /** Over any run, with any services called in any order. */
  lemma {:induction false} RunsAreFresh(s: State, calls: seq<Call>)
    requires Invariant(s)
    ensures Fresh(s, Run(s, calls))
  {
    if |calls| > 0 {
      var before, call := Run(s, calls[..|calls| - 1]), calls[|calls| - 1];
      RunsAreFresh(s, calls[..|calls| - 1]);
      RunsKeepTheInvariant(s, calls[..|calls| - 1]);
      if Apply(before, call.now, call.op).Ok? {
        StepIsFresh(before, call.now, call.op);
        FreshTransitive(s, before, Run(s, calls));
      }
    }
  }

  // ---- Fingerprints ----

  /** Two equal fingerprints, taken in a state and in one that a run reached from it, name the same unmoved accounts. */
  lemma EqualFingerprints(s: State, s': State, ids: seq<nat>, ids': seq<nat>, asOf: Time, asOf': Time, i: nat)
    requires Fresh(s, s')
    requires forall j :: 0 <= j < |ids| ==> ids[j] < |s.accounts|
    requires forall j :: 0 <= j < |ids'| ==> ids'[j] < |s'.accounts|
    requires PositionsOf(s, ids, asOf).Ok? && PositionsOf(s', ids', asOf').Ok?
    requires FingerprintOf(PositionsOf(s, ids, asOf).value) == FingerprintOf(PositionsOf(s', ids', asOf').value)
    requires i < |ids'|
    ensures i < |ids| && ids[i] == ids'[i]
    ensures SameLedger(s, s', ids[i])
    ensures Balance(s', ids[i], asOf') == Balance(s, ids[i], asOf)
  {
    var ps, ps' := PositionsOf(s, ids, asOf).value, PositionsOf(s', ids', asOf').value;
    assert FingerprintOf(ps).positions[i] == FingerprintOf(ps').positions[i];
    assert ps[i] == PositionOf(s, ids[i], asOf) && ps'[i] == PositionOf(s', ids'[i], asOf');
    assert FreshAccount(s, s', ids[i]);
  }

  /** The accounts that a transfer preview looks at, in order. */
  function TransferIds(s: State, c: Transfers.TransferCommand): seq<nat> {
    SelectIds(|s.accounts|, Transfers.AccountIds(c))
  }

  lemma TransferPreviewed(s: State, now: Time, c: Transfers.TransferCommand)
    requires Transfers.Evaluate(s, now, c).Ok?
    ensures PositionsOf(s, TransferIds(s, c), Max(now, c.at)).Ok?
    ensures Transfers.Evaluate(s, now, c).value.fingerprint
         == FingerprintOf(PositionsOf(s, TransferIds(s, c), Max(now, c.at)).value)
    ensures forall a :: a in Transfers.AccountIds(c) <==> a in TransferIds(s, c)
  {
  }

  function ReallocationIds(s: State, c: Reallocation.ReallocationCommand): seq<nat> {
    SelectIds(|s.accounts|, Reallocation.ToSet(c.accounts))
  }

  lemma ReallocationPreviewed(s: State, now: Time, c: Reallocation.ReallocationCommand)
    requires Reallocation.Evaluate(s, now, c).Ok?
    ensures PositionsOf(s, ReallocationIds(s, c), Max(now, c.at)).Ok?
    ensures Reallocation.Evaluate(s, now, c).value.fingerprint
         == FingerprintOf(PositionsOf(s, ReallocationIds(s, c), Max(now, c.at)).value)
    ensures forall a :: a in c.accounts ==> a < |s.accounts|
  {
    var ps := PositionsOf(s, ReallocationIds(s, c), Max(now, c.at)).value;
    assert Reallocation.Evaluate(s, now, c) == Reallocation.PreviewReallocation(s, c, ps);
    assert forall a :: a in c.accounts ==> a in Reallocation.ToSet(c.accounts);
  }

  lemma ReallocationIdsAre(s: State, c: Reallocation.ReallocationCommand, a: nat)
    requires a < |s.accounts|
    ensures a in c.accounts <==> a in ReallocationIds(s, c)
  {
  }

  /** A transfer that commits after any run moves accounts whose rows and ledgers are those of the preview. */
  lemma TransferActsOnPreview(
      s: State, now: Time, c: Transfers.TransferCommand, calls: seq<Call>, later: Time, c': Transfers.TransferCommand,
      a: nat)
    requires Invariant(s) && Transfers.Evaluate(s, now, c).Ok?
    requires var s' := Run(s, calls);
             Transfers.CheckTransfer(s', later, c', Transfers.Evaluate(s, now, c).value.fingerprint).Ok?
    requires a in Transfers.AccountIds(c')
    ensures a in Transfers.AccountIds(c) && a < |s.accounts| && a < |Run(s, calls).accounts|
    ensures SameLedger(s, Run(s, calls), a)
    ensures Balance(Run(s, calls), a, Max(later, c'.at)) == Balance(s, a, Max(now, c.at))
  {
    var s' := Run(s, calls);
    RunsAreFresh(s, calls);
    TransferPreviewed(s, now, c);
    TransferPreviewed(s', later, c');
    var i :| 0 <= i < |TransferIds(s', c')| && TransferIds(s', c')[i] == a;
    EqualFingerprints(s, s', TransferIds(s, c), TransferIds(s', c'), Max(now, c.at), Max(later, c'.at), i);
  }

  lemma ReallocationActsOnPreview(
      s: State, now: Time, c: Reallocation.ReallocationCommand, calls: seq<Call>, later: Time,
      c': Reallocation.ReallocationCommand, a: nat)
    requires Invariant(s) && Reallocation.Evaluate(s, now, c).Ok?
    requires var s' := Run(s, calls);
             Reallocation.CheckReallocation(s', later, c', Reallocation.Evaluate(s, now, c).value.fingerprint).Ok?
    requires a in c'.accounts
    ensures a in c.accounts && a < |s.accounts| && a < |Run(s, calls).accounts|
    ensures SameLedger(s, Run(s, calls), a)
    ensures Balance(Run(s, calls), a, Max(later, c'.at)) == Balance(s, a, Max(now, c.at))
  {
    var s' := Run(s, calls);
    RunsAreFresh(s, calls);
    ReallocationPreviewed(s, now, c);
    ReallocationPreviewed(s', later, c');
    ReallocationIdsAre(s', c', a);
    var i :| 0 <= i < |ReallocationIds(s', c')| && ReallocationIds(s', c')[i] == a;
    EqualFingerprints(s, s', ReallocationIds(s, c), ReallocationIds(s', c'), Max(now, c.at), Max(later, c'.at), i);
    ReallocationIdsAre(s, c, a);
  }

  /** A reconciliation that commits after any run corrects the very balance that was previewed, at the same moment. */
  lemma ReconciliationActsOnPreview(
      s: State, now: Time, c: Reconciliations.ReconciliationCommand, calls: seq<Call>, later: Time,
      c': Reconciliations.ReconciliationCommand)
    requires Invariant(s) && Reconciliations.Evaluate(s, now, c).Ok?
    requires var fingerprint := Reconciliations.Evaluate(s, now, c).value.fingerprint;
             Reconciliations.CheckReconciliation(Run(s, calls), later, c', fingerprint).Ok?
    ensures c'.account == c.account && c'.at == c.at && c.account < |s.accounts| && c.account < |Run(s, calls).accounts|
    ensures SameLedger(s, Run(s, calls), c.account)
  {
    RunsAreFresh(s, calls);
    ReconciliationNames(s, now, c);
    ReconciliationNames(Run(s, calls), later, c');
    assert FreshAccount(s, Run(s, calls), c.account);
  }

  /** The fingerprint of a reconciliation names its account, the version of the row, and the time. */
  lemma ReconciliationNames(s: State, now: Time, c: Reconciliations.ReconciliationCommand)
    requires Reconciliations.Evaluate(s, now, c).Ok?
    ensures c.account < |s.accounts|
    ensures var f := Reconciliations.Evaluate(s, now, c).value.fingerprint;
            && f.OfReconciliation? && f.account == c.account && f.effectiveAt == c.at
            && f.version == s.accounts[c.account].version
  {
  }

  /** The version of the account is the one that was read, and nothing that had been dated has come due since. */
  predicate Unmoved(s: State, asOf: Time, s': State, asOf': Time, a: nat) {
    && a < |s.accounts| && a < |s'.accounts| && s'.accounts[a].version == s.accounts[a].version
    && Balance(s, a, asOf') == Balance(s, a, asOf)
  }

  lemma UnmovedIsSame(s: State, asOf: Time, s': State, asOf': Time, a: nat)
    requires Fresh(s, s') && Unmoved(s, asOf, s', asOf', a)
    ensures s'.accounts[a] == s.accounts[a] && Balance(s', a, asOf') == Balance(s, a, asOf)
  {
    assert FreshAccount(s, s', a);
  }

  /** Whatever was called since the preview, the transfer that was shown commits if and only if none of its accounts has
      moved. */
  lemma TransferCommitsIffUnmoved(
      s: State, now: Time, c: Transfers.TransferCommand, calls: seq<Call>, later: Time)
    requires Invariant(s) && Transfers.Evaluate(s, now, c).Ok? && now <= later
    ensures var s', fingerprint := Run(s, calls), Transfers.Evaluate(s, now, c).value.fingerprint;
      Transfers.CommitTransfer(s', later, c, fingerprint).Ok? <==>
        forall a :: a in Transfers.AccountIds(c) ==> Unmoved(s, Max(now, c.at), s', Max(later, c.at), a)
  {
    var s', fingerprint := Run(s, calls), Transfers.Evaluate(s, now, c).value.fingerprint;
    RunsAreFresh(s, calls);
    if Transfers.CommitTransfer(s', later, c, fingerprint).Ok? {
      forall a | a in Transfers.AccountIds(c) ensures Unmoved(s, Max(now, c.at), s', Max(later, c.at), a) {
        TransferActsOnPreview(s, now, c, calls, later, c, a);
        assert Total(s'.movements, a, Max(later, c.at)) == Total(s.movements, a, Max(later, c.at));
      }
    }
    if forall a :: a in Transfers.AccountIds(c) ==> Unmoved(s, Max(now, c.at), s', Max(later, c.at), a) {
      UnmovedTransferCommits(s, now, c, s', later);
    }
  }

  lemma UnmovedTransferCommits(s: State, now: Time, c: Transfers.TransferCommand, s': State, later: Time)
    requires Fresh(s, s') && Transfers.Evaluate(s, now, c).Ok? && now <= later
    requires forall a :: a in Transfers.AccountIds(c) ==> Unmoved(s, Max(now, c.at), s', Max(later, c.at), a)
    ensures Transfers.CommitTransfer(s', later, c, Transfers.Evaluate(s, now, c).value.fingerprint).Ok?
  {
    forall a | a in Transfers.AccountIds(c)
      ensures s'.accounts[a] == s.accounts[a] && Balance(s', a, Max(later, c.at)) == Balance(s, a, Max(now, c.at))
    {
      UnmovedIsSame(s, Max(now, c.at), s', Max(later, c.at), a);
    }
    Transfers.PreviewStaysGood(s, now, s', later, c);
    assert c.destination in Transfers.AccountIds(c);
  }

  /** The same for a reallocation that was shown to change something. */
  lemma ReallocationCommitsIffUnmoved(
      s: State, now: Time, c: Reallocation.ReallocationCommand, calls: seq<Call>, later: Time)
    requires Invariant(s) && Reallocation.Evaluate(s, now, c).Ok? && now <= later
    requires |Reallocation.ChangedLines(Reallocation.Evaluate(s, now, c).value.lines, c.balancing)| > 0
    ensures var s', fingerprint := Run(s, calls), Reallocation.Evaluate(s, now, c).value.fingerprint;
      Reallocation.CommitReallocation(s', later, c, fingerprint).Ok? <==>
        forall a :: a in c.accounts ==> Unmoved(s, Max(now, c.at), s', Max(later, c.at), a)
  {
    var s', fingerprint := Run(s, calls), Reallocation.Evaluate(s, now, c).value.fingerprint;
    RunsAreFresh(s, calls);
    if Reallocation.CommitReallocation(s', later, c, fingerprint).Ok? {
      forall a | a in c.accounts ensures Unmoved(s, Max(now, c.at), s', Max(later, c.at), a) {
        ReallocationActsOnPreview(s, now, c, calls, later, c, a);
        assert Total(s'.movements, a, Max(later, c.at)) == Total(s.movements, a, Max(later, c.at));
      }
    }
    if forall a :: a in c.accounts ==> Unmoved(s, Max(now, c.at), s', Max(later, c.at), a) {
      UnmovedReallocationCommits(s, now, c, s', later);
    }
  }

  lemma UnmovedReallocationCommits(
      s: State, now: Time, c: Reallocation.ReallocationCommand, s': State, later: Time)
    requires Fresh(s, s') && Reallocation.Evaluate(s, now, c).Ok? && now <= later
    requires |Reallocation.ChangedLines(Reallocation.Evaluate(s, now, c).value.lines, c.balancing)| > 0
    requires forall a :: a in c.accounts ==> Unmoved(s, Max(now, c.at), s', Max(later, c.at), a)
    ensures Reallocation.CommitReallocation(s', later, c, Reallocation.Evaluate(s, now, c).value.fingerprint).Ok?
  {
    forall a | a in Reallocation.ToSet(c.accounts)
      ensures && a < |s.accounts| && a < |s'.accounts| && s'.accounts[a] == s.accounts[a]
              && Balance(s', a, Max(later, c.at)) == Balance(s, a, Max(now, c.at))
    {
      UnmovedIsSame(s, Max(now, c.at), s', Max(later, c.at), a);
    }
    Reallocation.PreviewStaysGood(s, now, s', later, c);
  }

  /** Over any run a movement that was reversed once is never reversed again. */
  lemma ReversedOnceInAnyRun(
      s: State, now: Time, id: nat, version: nat, at: Time, calls: seq<Call>, later: Time, version': nat, at': Time)
    requires Invariant(s) && Transactions.Reverse(s, now, id, version, at).Ok?
    ensures var s' := Transactions.Reverse(s, now, id, version, at).value;
            Transactions.Reverse(Run(s', calls), later, id, version', at').Err?
  {
    ReversalKeepsInvariant(s, now, id, version, at);
    ReversalMarks(s, now, id, version, at);
    ReversedForGood(Transactions.Reverse(s, now, id, version, at).value, id, calls, later, version', at');
  }

  lemma ReversalKeepsInvariant(s: State, now: Time, id: nat, version: nat, at: Time)
    requires Invariant(s) && Transactions.Reverse(s, now, id, version, at).Ok?
    ensures Invariant(Transactions.Reverse(s, now, id, version, at).value)
  {
    ReversalApplies(s, now, id, version, at);
    StepKeepsInvariant(s, now, Reverse(id, version, at));
  }

  lemma ReversalApplies(s: State, now: Time, id: nat, version: nat, at: Time)
    ensures Apply(s, now, Reverse(id, version, at)) == Transactions.Reverse(s, now, id, version, at)
  {
  }

  lemma ReversalMarks(s: State, now: Time, id: nat, version: nat, at: Time)
    requires Transactions.Reverse(s, now, id, version, at).Ok?
    ensures var ms := Transactions.Reverse(s, now, id, version, at).value.movements;
            id < |ms| && ms[id].status == Reversed
  {
  }

  lemma ReversedForGood(s: State, id: nat, calls: seq<Call>, later: Time, version: nat, at: Time)
    requires Invariant(s) && id < |s.movements| && s.movements[id].status == Reversed
    ensures Transactions.Reverse(Run(s, calls), later, id, version, at).Err?
  {
    RunsGuardHistory(s, calls);
    assert Keeps(s.movements[id], Run(s, calls).movements[id]);
  }

  // ---- No lost updates ----

  /** Row versions never go back, and a row whose version stands still is the same row. */
  ghost predicate Versioned<T>(before: seq<T>, after: seq<T>, version: T -> nat) {
    && |before| <= |after|
    && forall i :: 0 <= i < |before| ==>
         version(before[i]) <= version(after[i]) && (version(after[i]) == version(before[i]) ==> after[i] == before[i])
  }

  lemma VersionedUpdate<T>(rows: seq<T>, i: nat, row: T, version: T -> nat)
    requires i < |rows| && version(rows[i]) < version(row)
    ensures Versioned(rows, rows[i := row], version)
  {
  }

  lemma VersionedAppend<T>(before: seq<T>, after: seq<T>, news: seq<T>, version: T -> nat)
    requires Versioned(before, after, version)
    ensures Versioned(before, after + news, version)
  {
  }

  lemma VersionedTransitive<T>(r: seq<T>, s: seq<T>, t: seq<T>, version: T -> nat)
    requires Versioned(r, s, version) && Versioned(s, t, version)
    ensures Versioned(r, t, version)
  {
  }

  function OfMovement(): Movement -> nat { (m: Movement) => m.version }

  function OfDebt(): Debt -> nat { (debt: Debt) => debt.version }

  function OfShare(): Share -> nat { (share: Share) => share.version }

  /** A debt whose version stands still has received no payment either. */
  ghost predicate PaymentsVersioned(s: State, s': State) {
    && Versioned(s.debts, s'.debts, OfDebt())
    && forall d: nat :: d < |s.debts| && s'.debts[d].version == s.debts[d].version ==>
         Paid(s'.payments, d) == Paid(s.payments, d)
  }

  ghost predicate RowsVersioned(s: State, s': State) {
    && Versioned(s.movements, s'.movements, OfMovement())
    && PaymentsVersioned(s, s')
    && Versioned(s.shares, s'.shares, OfShare())
  }

  lemma RowsVersionedTransitive(r: State, s: State, t: State)
    requires RowsVersioned(r, s) && RowsVersioned(s, t)
    ensures RowsVersioned(r, t)
  {
    VersionedTransitive(r.movements, s.movements, t.movements, OfMovement());
    VersionedTransitive(r.debts, s.debts, t.debts, OfDebt());
    VersionedTransitive(r.shares, s.shares, t.shares, OfShare());
  }

  lemma EntriesVersioned(s: State, now: Time, op: Op)
    requires Apply(s, now, op).Ok? && OnEntries(op)
    ensures Versioned(s.movements, Apply(s, now, op).value.movements, OfMovement())
  {
    var ms, f := s.movements, OfMovement();
    match op
    case Draft(fields, _) => VersionedAppend(ms, ms, [Transactions.DraftRow(fields, 1)], f);
    case Redraft(id, _, fields, _) => VersionedUpdate(ms, id, Transactions.EditedRow(ms[id], fields), f);
    case Post(id, _, _) => VersionedUpdate(ms, id, Transactions.PostedRow(ms[id]), f);
    case Reverse(id, _, at) =>
      VersionedUpdate(ms, id, Transactions.ReversedRow(ms[id]), f);
      VersionedAppend(ms, ms[id := Transactions.ReversedRow(ms[id])], [Transactions.ReversalRow(ms[id], id, at)], f);
  }

  lemma PaymentVersioned(s: State, now: Time, d: nat, c: RepayCommand)
    requires Repay(s, now, d, c).Ok?
    ensures PaymentsVersioned(s, Repay(s, now, d, c).value)
  {
    var s' := Repay(s, now, d, c).value;
    VersionedUpdate(s.debts, d, s'.debts[d], OfDebt());
    forall e: nat | e < |s.debts| && e != d ensures Paid(s'.payments, e) == Paid(s.payments, e) {
      SumAppend(s.payments, Payment(d, |s.movements|, c.amount, c.paidAt), PaidOn(e));
    }
  }

  lemma LoanVersioned(s: State, now: Time, c: CreateDebtCommand)
    requires CreateDebt(s, now, c).Ok?
    ensures PaymentsVersioned(s, CreateDebt(s, now, c).value)
  {
  }

  lemma WaiverVersioned(s: State, now: Time, d: nat, version: nat, reason: string)
    requires CancelDebt(s, now, d, version, reason).Ok?
    ensures PaymentsVersioned(s, CancelDebt(s, now, d, version, reason).value)
  {
    VersionedUpdate(s.debts, d, CancelledDebt(s.debts[d], now), OfDebt());
  }

  lemma SplitVersioned(s: State, now: Time, e: nat, c: CreateShareCommand)
    requires CreateShare(s, now, e, c).Ok?
    ensures var s' := CreateShare(s, now, e, c).value;
            PaymentsVersioned(s, s') && Versioned(s.shares, s'.shares, OfShare())
  {
    VersionedAppend(s.shares, s.shares, [NewShare(s, e, c)], OfShare());
  }

  lemma ResplitVersioned(s: State, now: Time, i: nat, c: UpdateShareCommand)
    requires UpdateShare(s, now, i, c).Ok?
    ensures var s' := UpdateShare(s, now, i, c).value;
            PaymentsVersioned(s, s') && Versioned(s.shares, s'.shares, OfShare())
  {
    var s', d := UpdateShare(s, now, i, c).value, s.shares[i].debt;
    VersionedUpdate(s.shares, i, UpdatedShare(s.shares[i], c), OfShare());
    VersionedUpdate(s.debts, d, UpdatedDebt(s.debts[d], now, Paid(s.payments, d), c), OfDebt());
  }

  lemma DebtStepVersioned(s: State, now: Time, op: Op)
    requires Sound(s) && Apply(s, now, op).Ok? && (OnDebts(op) || OnExpenses(op))
    ensures RowsVersioned(s, Apply(s, now, op).value)
  {
    DebtStepPosts(s, now, op);
    VersionedAppend(s.movements, s.movements, News(s, now, op), OfMovement());
    match op
    case Lend(c) => LoanVersioned(s, now, c);
    case PayBack(d, c) => PaymentVersioned(s, now, d, c);
    case Waive(d, version, reason) => WaiverVersioned(s, now, d, version, reason);
    case Split(e, c) => SplitVersioned(s, now, e, c);
    case Resplit(i, c) => ResplitVersioned(s, now, i, c);
    case GiveBack(_, _) =>
  }

  lemma LedgerStepVersioned(s: State, now: Time, op: Op)
    requires Sound(s) && Apply(s, now, op).Ok? && !OnDebts(op) && !OnExpenses(op)
    ensures RowsVersioned(s, Apply(s, now, op).value)
  {
    StepLeavesDebts(s, now, op);
    if OnEntries(op) {
      EntriesVersioned(s, now, op);
    } else if OnGroups(op) {
      GroupStepPosts(s, now, op);
      VersionedAppend(s.movements, s.movements, News(s, now, op), OfMovement());
    }
  }

  lemma {:induction false} RunsAreVersioned(s: State, calls: seq<Call>)
    requires Invariant(s)
    ensures RowsVersioned(s, Run(s, calls))
  {
    if |calls| > 0 {
      var before, call := Run(s, calls[..|calls| - 1]), calls[|calls| - 1];
      RunsAreVersioned(s, calls[..|calls| - 1]);
      RunsKeepTheInvariant(s, calls[..|calls| - 1]);
      if Apply(before, call.now, call.op).Ok? {
        if OnDebts(call.op) || OnExpenses(call.op) {
          DebtStepVersioned(before, call.now, call.op);
        } else {
          LedgerStepVersioned(before, call.now, call.op);
        }
        RowsVersionedTransitive(s, before, Run(s, calls));
      }
    }
  }

  /** The version that a call names, if it names one, is the version of the row as it was read in `s`. */
  predicate ReadIn(s: State, op: Op) {
    match op
    case Edit(a, e) => a < |s.accounts| && s.accounts[a].version == e.version
    case Redraft(id, version, _, _) => id < |s.movements| && s.movements[id].version == version
    case Post(id, version, _) => id < |s.movements| && s.movements[id].version == version
    case Reverse(id, version, _) => id < |s.movements| && s.movements[id].version == version
    case Waive(d, version, _) => d < |s.debts| && s.debts[d].version == version
    case Resplit(i, c) => i < |s.shares| && s.shares[i].version == c.version
    case _ => false
  }

  /** The row that the call is about is the same in both states; of an account the whole ledger, of a debt the
      payments. */
  ghost predicate SameRow(s: State, s': State, op: Op) {
    match op
    case Edit(a, _) => a < |s.accounts| && a < |s'.accounts| && SameLedger(s, s', a)
    case Redraft(id, _, _, _) => id < |s.movements| && id < |s'.movements| && s'.movements[id] == s.movements[id]
    case Post(id, _, _) => id < |s.movements| && id < |s'.movements| && s'.movements[id] == s.movements[id]
    case Reverse(id, _, _) => id < |s.movements| && id < |s'.movements| && s'.movements[id] == s.movements[id]
    case Waive(d, _, _) =>
      && d < |s.debts| && d < |s'.debts| && s'.debts[d] == s.debts[d]
      && Paid(s'.payments, d) == Paid(s.payments, d)
    case Resplit(i, _) => i < |s.shares| && i < |s'.shares| && s'.shares[i] == s.shares[i]
    case _ => true
  }

  /** The row was read, then any services were called, then the call named the version that had been read: if it
      succeeds, nobody has changed the row in between. */
  lemma NoLostUpdates(s: State, calls: seq<Call>, now: Time, op: Op)
    requires Invariant(s) && ReadIn(s, op) && Apply(Run(s, calls), now, op).Ok?
    ensures SameRow(s, Run(s, calls), op)
  {
    RunsAreFresh(s, calls);
    RunsAreVersioned(s, calls);
    StaleVersionsFail(Run(s, calls), now, op);
    SameVersionSameRow(s, Run(s, calls), op);
  }

  lemma SameVersionSameRow(s: State, s': State, op: Op)
    requires Fresh(s, s') && RowsVersioned(s, s') && ReadIn(s, op) && ReadIn(s', op)
    ensures SameRow(s, s', op)
  {
    if op.Edit? {
      assert FreshAccount(s, s', op.account);
    } else if op.Waive? {
      assert OfDebt()(s'.debts[op.debt]) == OfDebt()(s.debts[op.debt]);
    } else if op.Resplit? {
      assert OfShare()(s'.shares[op.id]) == OfShare()(s.shares[op.id]);
    } else {
      assert OfMovement()(s'.movements[op.id]) == OfMovement()(s.movements[op.id]);
    }
  }
}
