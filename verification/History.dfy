/** The rules that every committed movement table satisfies, and the database guard of posted rows. */
module History {
  import opened Common
  import opened Sums
  import opened Ledger

  /** The schema's rule that ties the direction of a movement to its kind. */
  predicate EffectCoherent(kind: Kind, effect: Effect) {
    match kind
    case Expense | TransferOut | TransferFee | LoanPrincipalOut | DebtRepaymentOut => effect == Outflow
    case Income | TransferIn | Refund | LoanPrincipalIn | DebtRepaymentIn => effect == Inflow
    case ReconciliationAdjustment | Reversal => true
  }

  /** A row that fits its account, is not dated before it, and is linked as its kind demands. */
  predicate RowFits(accounts: seq<Account>, m: Movement) {
    && m.account < |accounts|
    && m.amount > 0
    && m.currency == accounts[m.account].currency
    && EffectCoherent(m.kind, m.effect)
    && (AffectsBalance(m.status) ==> accounts[m.account].openedAt <= m.occurredAt)
    && (m.status == Draft ==> CoreKind(m.kind))
    && m.status != Voided
    && (m.reversalOf.Some? <==> m.kind == Reversal)
  }

  /** Row `r` undoes row `m`: same account and amount, opposite direction, not earlier. */
  predicate Undoes(r: Movement, m: Movement) {
    && r.status == Posted
    && m.status == Reversed
    && CoreKind(m.kind)
    && r.account == m.account && r.amount == m.amount && r.currency == m.currency
    && r.effect != m.effect
    && m.occurredAt <= r.occurredAt
  }

  ghost predicate Rows(accounts: seq<Account>, ms: seq<Movement>) {
    forall i :: 0 <= i < |ms| ==> RowFits(accounts, ms[i])
  }

  /** Reversal rows and reversed rows are paired one to one. */
  ghost predicate ReversalsPaired(ms: seq<Movement>) {
    && (forall j :: 0 <= j < |ms| && ms[j].reversalOf.Some? ==>
         ms[j].reversalOf.value < |ms| && Undoes(ms[j], ms[ms[j].reversalOf.value]))
    && (forall j, k :: 0 <= j < |ms| && 0 <= k < |ms| && ms[j].reversalOf.Some? ==>
         ms[j].reversalOf == ms[k].reversalOf ==> j == k)
    && (forall i :: 0 <= i < |ms| && ms[i].status == Reversed ==> HasReversal(ms, i))
  }

  ghost predicate HasReversal(ms: seq<Movement>, i: nat) {
    exists j :: 0 <= j < |ms| && ms[j].reversalOf == Some(i)
  }

  /** Every posted or reversed row, whatever its date. */
  function EverEntry(a: nat): Movement -> int {
    (m: Movement) => if m.account == a && AffectsBalance(m.status) then Signed(m) else 0
  }

  /** Only the rows that still stand: posted, and neither reversed nor a reversal. */
  function StandingEntry(a: nat): Movement -> int {
    (m: Movement) => if m.account == a && m.status == Posted && m.kind != Reversal then Signed(m) else 0
  }

  ghost predicate PairsCancel(ms: seq<Movement>) {
    forall a :: SumOf(ms, EverEntry(a)) == SumOf(ms, StandingEntry(a))
  }

  ghost predicate Sound(s: State) {
    Rows(s.accounts, s.movements) && ReversalsPaired(s.movements) && PairsCancel(s.movements)
  }

  /** Once every movement is dated, a balance is the opening amount and the standing movements alone. */
  lemma StandingBalance(s: State, a: nat, t: Time)
    requires Sound(s) && a < |s.accounts|
    requires forall i :: 0 <= i < |s.movements| ==> s.movements[i].occurredAt <= t
    ensures Balance(s, a, t) == s.accounts[a].opening + SumOf(s.movements, StandingEntry(a))
  {
    SumAgree(s.movements, s.movements, Entry(a, t), EverEntry(a));
  }

  // ---- The history guard of the transactions table ----

  predicate SameFinancialFields(m: Movement, m': Movement) {
    && m'.account == m.account && m'.kind == m.kind && m'.effect == m.effect
    && m'.amount == m.amount && m'.currency == m.currency && m'.occurredAt == m.occurredAt
    && m'.category == m.category && m'.parent == m.parent && m'.reversalOf == m.reversalOf
  }

  /** What the BEFORE UPDATE trigger on a transaction row lets through. */
  predicate GuardAccepts(m: Movement, m': Movement) {
    && (AffectsBalance(m.status) ==> SameFinancialFields(m, m'))
    && (m.status == Draft ==> m'.status in {Draft, Posted, Voided})
    && (m.status == Posted ==> m'.status in {Posted, Reversed})
    && (m.status in {Reversed, Voided} ==> m'.status == m.status)
  }

  /** No row disappears and every row has only been updated as the guard allows. */
  ghost predicate Guarded(before: seq<Movement>, after: seq<Movement>) {
    |before| <= |after| && forall i :: 0 <= i < |before| ==> Keeps(before[i], after[i])
  }

  /** What any number of guarded updates leaves of a row: a draft may also have been posted and reversed. */
  predicate Keeps(m: Movement, m': Movement) {
    && (AffectsBalance(m.status) ==> SameFinancialFields(m, m'))
    && (m.status == Posted ==> AffectsBalance(m'.status))
    && (m.status in {Reversed, Voided} ==> m'.status == m.status)
  }

  /** `chain` is the life of one row under updates that the guard accepted. */
  ghost predicate Life(chain: seq<Movement>) {
    forall i :: 0 < i < |chain| ==> GuardAccepts(chain[i - 1], chain[i])
  }

  /** However often a row is updated, once posted it keeps its fields and never returns to draft. */
  lemma {:induction false} PostedRowsAreFrozen(chain: seq<Movement>, i: nat, j: nat)
    requires Life(chain) && i <= j < |chain|
    ensures Keeps(chain[i], chain[j])
  {
    if i < j {
      PostedRowsAreFrozen(chain, i, j - 1);
      assert GuardAccepts(chain[j - 1], chain[j]);
    }
  }

  /** Between two states only expense and income rows have been edited, within the guard; every specialised row is as
      it was. */
  ghost predicate SpecialisedRowsKept(before: seq<Movement>, after: seq<Movement>) {
    |before| <= |after| && forall i :: 0 <= i < |before| ==> KeptOrCore(before[i], after[i])
  }

  predicate KeptOrCore(m: Movement, m': Movement) {
    m' == m
    || (CoreKind(m.kind) && CoreKind(m'.kind) && Keeps(m, m')
        && (AffectsBalance(m.status) ==> AffectsBalance(m'.status)))
  }

  lemma GuardedTransitive(r: seq<Movement>, s: seq<Movement>, t: seq<Movement>)
    requires Guarded(r, s) && Guarded(s, t)
    ensures Guarded(r, t)
  {
  }

  // ---- Preservation ----

  /** A plain posted row: it fits its account and is no reversal. */
  predicate PlainPosted(accounts: seq<Account>, m: Movement) {
    RowFits(accounts, m) && m.status == Posted && m.kind != Reversal
  }

  predicate SameTerms(a: Account, a': Account) { a'.currency == a.currency && a'.openedAt == a.openedAt }

  predicate SameBooks(accounts: seq<Account>, accounts': seq<Account>) {
    |accounts| <= |accounts'| && forall a :: 0 <= a < |accounts| ==> SameTerms(accounts[a], accounts'[a])
  }

  lemma RowsInNewAccounts(accounts: seq<Account>, accounts': seq<Account>, ms: seq<Movement>)
    requires Rows(accounts, ms) && SameBooks(accounts, accounts')
    ensures Rows(accounts', ms)
  {
  }

  lemma BumpsKeepBooks(accounts: seq<Account>, accounts': seq<Account>, news: seq<Movement>)
    requires BumpsTouched(accounts, accounts', news)
    ensures SameBooks(accounts, accounts')
  {
  }

  /** Appending rows that neither are reversals nor are reversed. */
  lemma AppendSound(s: State, s': State, news: seq<Movement>)
    requires Sound(s) && SameBooks(s.accounts, s'.accounts)
    requires s'.movements == s.movements + news
    requires forall i :: 0 <= i < |news| ==>
      RowFits(s'.accounts, news[i]) && news[i].status in {Draft, Posted} && news[i].kind != Reversal
    ensures Sound(s')
    ensures Guarded(s.movements, s'.movements)
  {
    RowsInNewAccounts(s.accounts, s'.accounts, s.movements);
    var ms, ms' := s.movements, s'.movements;
    forall i | 0 <= i < |ms'| && ms'[i].status == Reversed ensures HasReversal(ms', i) {
      assert HasReversal(ms, i);
      var j :| 0 <= j < |ms| && ms[j].reversalOf == Some(i);
      assert ms'[j].reversalOf == Some(i);
    }
    forall a ensures SumOf(ms', EverEntry(a)) == SumOf(ms', StandingEntry(a)) {
      SumConcat(ms, news, EverEntry(a));
      SumConcat(ms, news, StandingEntry(a));
      SumAgree(news, news, EverEntry(a), StandingEntry(a));
    }
  }

  /** The common case of the specialised services: plain posted rows, all dated `at`, and one version step per
      account. */
  lemma PostedRowsSound(s: State, s': State, at: Time, news: seq<Movement>)
    requires Sound(s) && BumpsTouched(s.accounts, s'.accounts, news)
    requires s'.movements == s.movements + news
    requires forall i :: 0 <= i < |news| ==> PlainPosted(s.accounts, news[i]) && news[i].occurredAt == at
    ensures Posts(s, s', at, news) && Sound(s') && Guarded(s.movements, s'.movements)
  {
    AppendShifts(s.movements, at, news);
    BumpsKeepBooks(s.accounts, s'.accounts, news);
    RowsInNewAccounts(s.accounts, s'.accounts, news);
    AppendSound(s, s', news);
  }

  /** Replacing a draft by a draft or by a posted row of a core kind. */
  lemma ReplaceDraftSound(s: State, s': State, i: nat, m: Movement)
    requires Sound(s) && SameBooks(s.accounts, s'.accounts)
    requires i < |s.movements| && s.movements[i].status == Draft
    requires s'.movements == s.movements[i := m]
    requires RowFits(s'.accounts, m) && m.status in {Draft, Posted} && CoreKind(m.kind)
    ensures Sound(s')
    ensures Guarded(s.movements, s'.movements) && GuardAccepts(s.movements[i], m)
  {
    RowsInNewAccounts(s.accounts, s'.accounts, s.movements);
    var ms, ms' := s.movements, s'.movements;
    assert RowFits(s.accounts, ms[i]);
    forall k | 0 <= k < |ms'| && ms'[k].status == Reversed ensures HasReversal(ms', k) {
      assert HasReversal(ms, k);
      var j :| 0 <= j < |ms| && ms[j].reversalOf == Some(k);
      assert ms'[j].reversalOf == Some(k);
    }
    forall a ensures SumOf(ms', EverEntry(a)) == SumOf(ms', StandingEntry(a)) {
      SumUpdate(ms, i, m, EverEntry(a));
      SumUpdate(ms, i, m, StandingEntry(a));
    }
  }

  /** A posted row has no reversal yet. */
  lemma PostedHasNoReversal(s: State, i: nat, j: nat)
    requires Sound(s) && i < |s.movements| && j < |s.movements| && s.movements[i].status == Posted
    ensures s.movements[j].reversalOf != Some(i)
  {
  }

  lemma ReversePairs(s: State, i: nat, m: Movement, r: Movement)
    requires Sound(s)
    requires i < |s.movements| && s.movements[i].status == Posted && s.movements[i].kind != Reversal
    requires m == s.movements[i].(status := Reversed, version := m.version)
    requires r.reversalOf == Some(i) && Undoes(r, m) && m.reversalOf == s.movements[i].reversalOf
    ensures ReversalsPaired(s.movements[i := m] + [r])
  {
    var ms, ms' := s.movements, s.movements[i := m] + [r];
    forall j | 0 <= j < |ms| ensures ms[j].reversalOf != Some(i) && ms'[j].reversalOf == ms[j].reversalOf {
      PostedHasNoReversal(s, i, j);
    }
    assert RowFits(s.accounts, ms[i]);
    forall j | 0 <= j < |ms'| && ms'[j].reversalOf.Some?
      ensures ms'[j].reversalOf.value < |ms'| && Undoes(ms'[j], ms'[ms'[j].reversalOf.value])
    {
      if j < |ms| {
        assert ms'[j] == ms[j];
      }
    }
    forall k | 0 <= k < |ms'| && ms'[k].status == Reversed ensures HasReversal(ms', k) {
      ReversedHaveReversals(ms, i, m, r, k);
    }
  }

  lemma ReversedHaveReversals(ms: seq<Movement>, i: nat, m: Movement, r: Movement, k: nat)
    requires ReversalsPaired(ms) && i < |ms| && m.reversalOf == ms[i].reversalOf && r.reversalOf == Some(i)
    requires k < |ms| && (k != i ==> ms[k].status == Reversed)
    ensures HasReversal(ms[i := m] + [r], k)
  {
    var ms' := ms[i := m] + [r];
    if k == i {
      assert ms'[|ms|].reversalOf == Some(i);
    } else {
      assert HasReversal(ms, k);
      var j :| 0 <= j < |ms| && ms[j].reversalOf == Some(k);
      assert ms'[j].reversalOf == Some(k);
    }
  }

  lemma ReverseCancels(ms: seq<Movement>, i: nat, m: Movement, r: Movement)
    requires PairsCancel(ms)
    requires i < |ms| && ms[i].status == Posted && ms[i].kind != Reversal
    requires m == ms[i].(status := Reversed, version := m.version)
    requires r.kind == Reversal && Undoes(r, m)
    ensures PairsCancel(ms[i := m] + [r])
  {
    var ms' := ms[i := m] + [r];
    forall a ensures SumOf(ms', EverEntry(a)) == SumOf(ms', StandingEntry(a)) {
      SumUpdate(ms, i, m, EverEntry(a));
      SumUpdate(ms, i, m, StandingEntry(a));
      SumAppend(ms[i := m], r, EverEntry(a));
      SumAppend(ms[i := m], r, StandingEntry(a));
    }
  }

  /** Marking a posted row reversed together with posting the row that undoes it. */
  lemma ReverseSound(s: State, s': State, i: nat, m: Movement, r: Movement)
    requires Sound(s) && SameBooks(s.accounts, s'.accounts)
    requires i < |s.movements| && s.movements[i].status == Posted && s.movements[i].kind != Reversal
    requires s'.movements == s.movements[i := m] + [r]
    requires m == s.movements[i].(status := Reversed, version := m.version)
    requires r.kind == Reversal && r.reversalOf == Some(i) && RowFits(s'.accounts, r) && Undoes(r, m)
    ensures Sound(s')
    ensures Guarded(s.movements, s'.movements) && GuardAccepts(s.movements[i], m)
  {
    RowsInNewAccounts(s.accounts, s'.accounts, s.movements);
    assert RowFits(s'.accounts, s.movements[i]);
    ReversePairs(s, i, m, r);
    ReverseCancels(s.movements, i, m, r);
  }
}
