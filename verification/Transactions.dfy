/** Drafting, posting and reversing an expense or an income. */
module Transactions {
  import opened Common
  import opened Sums
  import opened Ledger
  import opened History

  // The checks that read categories, tags, shops and purchase lines enter as `details`:
  // the error that they raise, if any.

  /** The fields of a draft that its author supplies. */
  datatype DraftFields = DraftFields(
    account: nat, kind: Kind, amount: int, currency: Currency, occurredAt: Time, category: Option<nat>)

  function NoError(details: Option<Error>): Result<Unit> {
    match details
    case None => Ok(Unit)
    case Some(e) => Err(e)
  }

  function RequireDraft(s: State, id: nat, version: nat): (r: Result<Unit>)
    ensures r.Ok? <==> id < |s.movements| && s.movements[id].status == Draft && s.movements[id].version == version
  {
    var _ :- Need(id < |s.movements|, TransactionNotFound);
    var _ :- Need(s.movements[id].status == Draft, TransactionNotDraft);
    Need(s.movements[id].version == version, VersionConflict)
  }

  function CheckDraftFields(s: State, f: DraftFields, details: Option<Error>): Result<Unit> {
    var _ :- Need(CoreKind(f.kind), UnsupportedTransactionType);
    var _ :- Need(f.amount > 0, NonPositiveAmount);
    var _ :- Need(f.account < |s.accounts|, AccountNotFound);
    var _ :- Need(s.accounts[f.account].currency == f.currency, CurrencyMismatch);
    var _ :- Need(s.accounts[f.account].openedAt <= f.occurredAt, TransactionBeforeAccountOpened);
    NoError(details)
  }

  function DraftRow(f: DraftFields, version: nat): Movement
    requires CoreKind(f.kind)
  {
    Movement(
      f.account, f.kind, EffectFor(f.kind), f.amount, f.currency, f.occurredAt, Draft, f.category, None, None, version)
  }

  function CreateDraft(s: State, f: DraftFields, details: Option<Error>): Result<State> {
    var _ :- CheckDraftFields(s, f, details);
    Ok(s.(movements := s.movements + [DraftRow(f, 1)]))
  }

  /** The supplied fields replace those of the draft; its links stay. */
  function EditedRow(m: Movement, f: DraftFields): Movement
    requires CoreKind(f.kind)
  {
    DraftRow(f, m.version + 1).(parent := m.parent, reversalOf := m.reversalOf)
  }

  function UpdateDraft(s: State, id: nat, version: nat, f: DraftFields, details: Option<Error>): Result<State> {
    var _ :- RequireDraft(s, id, version);
    var _ :- CheckDraftFields(s, f, details);
    Ok(s.(movements := s.movements[id := EditedRow(s.movements[id], f)]))
  }

  method CreateDraftInTransaction(db: Database, f: DraftFields, details: Option<Error>) returns (r: Result<Unit>)
    modifies db
    ensures Committed(old(db.Tables()), db.Tables(), CreateDraft(old(db.Tables()), f, details), r)
  {
    r := CheckDraftFields(db.Tables(), f, details);
    if r.Ok? {
      var model := Movement(
        f.account, f.kind, EffectFor(f.kind), f.amount, f.currency, f.occurredAt, Draft, f.category, None, None, 1);
      db.movements := db.movements + [model];
    }
  }

  method UpdateDraftInTransaction(
      db: Database, id: nat, version: nat, f: DraftFields, details: Option<Error>)
    returns (r: Result<Unit>)
    modifies db
    ensures Committed(old(db.Tables()), db.Tables(), UpdateDraft(old(db.Tables()), id, version, f, details), r)
  {
    r := RequireDraft(db.Tables(), id, version);
    if r.Err? {
      return;
    }
    r := CheckDraftFields(db.Tables(), f, details);
    if r.Err? {
      return;
    }
    var model := db.movements[id];
    model := model.(account := f.account, amount := f.amount, currency := f.currency);
    model := model.(kind := f.kind, effect := EffectFor(f.kind));
    model := model.(occurredAt := f.occurredAt, category := f.category);
    model := model.(version := model.version + 1);
    db.movements := db.movements[id := model];
  }

  // ---- Post ----

  function CheckPost(s: State, now: Time, id: nat, version: nat, details: Option<Error>): Result<Unit> {
    var _ :- RequireDraft(s, id, version);
    var m := s.movements[id];
    var _ :- Need(CoreKind(m.kind), UnsupportedTransactionType);
    var _ :- RequireNotFuture(m.occurredAt, now);
    var _ :- RequirePostingAccount(s, m.account, m.currency);
    var _ :- Need(s.accounts[m.account].openedAt <= m.occurredAt, TransactionBeforeAccountOpened);
    var _ :- NoError(details);
    RequireProjectedBalance(s, now, m.account, m.amount, m.effect, m.occurredAt)
  }

  function PostedRow(m: Movement): Movement { m.(status := Posted, version := m.version + 1) }

  function Post(s: State, now: Time, id: nat, version: nat, details: Option<Error>): Result<State> {
    var _ :- CheckPost(s, now, id, version, details);
    var m := s.movements[id];
    Ok(s.(movements := s.movements[id := PostedRow(m)], accounts := Bumped(s.accounts, m.account)))
  }

  method PostDraft(db: Database, now: Time, id: nat, version: nat, details: Option<Error>) returns (r: Result<Unit>)
    modifies db
    ensures Committed(old(db.Tables()), db.Tables(), Post(old(db.Tables()), now, id, version, details), r)
  {
    r := CheckPost(db.Tables(), now, id, version, details);
    if r.Err? {
      return;
    }
    var model := db.movements[id];
    model := model.(status := Posted);
    model := model.(version := model.version + 1);
    db.movements := db.movements[id := model];
    db.BumpVersion(model.account);
  }

  // ---- Reverse ----

  function RequireReversible(m: Movement): Result<Unit> {
    var _ :- Need(CoreKind(m.kind), SpecializedReversalRequired);
    var _ :- Need(m.status != Reversed, TransactionAlreadyReversed);
    Need(m.status == Posted, TransactionNotPosted)
  }

  function Opposite(effect: Effect): Effect { if effect == Inflow then Outflow else Inflow }

  function CheckReverse(s: State, now: Time, id: nat, version: nat, at: Time): Result<Unit> {
    var _ :- Need(id < |s.movements|, TransactionNotFound);
    var m := s.movements[id];
    var _ :- Need(m.version == version, VersionConflict);
    var _ :- RequireReversible(m);
    var _ :- RequireNotFuture(at, now);
    var _ :- Need(m.occurredAt <= at, ReversalBeforeOriginal);
    var _ :- RequirePostingAccount(s, m.account, m.currency);
    RequireProjectedBalance(s, now, m.account, m.amount, Opposite(m.effect), at)
  }

  function ReversalRow(m: Movement, id: nat, at: Time): Movement {
    Movement(
      m.account, Reversal, Opposite(m.effect), m.amount, m.currency, at, Posted, m.category, Some(id), Some(id), 1)
  }

  function ReversedRow(m: Movement): Movement { m.(status := Reversed, version := m.version + 1) }

  function Reverse(s: State, now: Time, id: nat, version: nat, at: Time): Result<State> {
    var _ :- CheckReverse(s, now, id, version, at);
    var m := s.movements[id];
    Ok(s.(movements := s.movements[id := ReversedRow(m)] + [ReversalRow(m, id, at)],
          accounts := Bumped(s.accounts, m.account)))
  }

  /** The reversal is inserted as a draft, because tags may only be attached to drafts, and posted at the end. */
  method ReverseMovement(db: Database, now: Time, id: nat, version: nat, at: Time) returns (r: Result<Unit>)
    modifies db
    ensures Committed(old(db.Tables()), db.Tables(), Reverse(old(db.Tables()), now, id, version, at), r)
  {
    r := CheckReverse(db.Tables(), now, id, version, at);
    if r.Err? {
      return;
    }
    var original := db.movements[id];
    var reversal := ReversalRow(original, id, at).(status := Draft);
    var row := |db.movements|;
    db.movements := db.movements + [reversal];
    original := original.(status := Reversed);
    original := original.(version := original.version + 1);
    db.movements := db.movements[id := original];
    db.movements := db.movements[row := reversal.(status := Posted)];
    db.BumpVersion(original.account);
  }

  // ---- What the steps write ----

  /** The row holds what its author supplied, with the direction that its kind demands. */
  predicate Holds(m: Movement, f: DraftFields) {
    && m.account == f.account && m.kind == f.kind && m.amount == f.amount && m.currency == f.currency
    && m.occurredAt == f.occurredAt && m.category == f.category
    && EffectCoherent(m.kind, m.effect)
  }

  /** Row `id` is the only row of any table that may have changed, besides the version of an account. */
  ghost predicate OnlyRow(s: State, s': State, id: nat) {
    && |s.movements| <= |s'.movements|
    && (forall i :: 0 <= i < |s.movements| && i != id ==> s'.movements[i] == s.movements[i])
    && |s'.accounts| == |s.accounts|
    && s' == s.(movements := s'.movements, accounts := s'.accounts)
  }

  lemma DraftIsCreated(s: State, f: DraftFields, details: Option<Error>)
    requires CreateDraft(s, f, details).Ok?
    ensures var s', id := CreateDraft(s, f, details).value, |s.movements|;
      && OnlyRow(s, s', id) && |s'.movements| == id + 1 && s'.accounts == s.accounts
      && Holds(s'.movements[id], f) && CoreKind(f.kind)
      && s'.movements[id].status == Draft && s'.movements[id].version == 1
      && s'.movements[id].parent == None && s'.movements[id].reversalOf == None
  {
  }

  /** An accepted edit takes effect: the row holds the new fields, and only its links are those of the old draft. */
  lemma DraftIsEdited(s: State, id: nat, version: nat, f: DraftFields, details: Option<Error>)
    requires UpdateDraft(s, id, version, f, details).Ok?
    ensures var s' := UpdateDraft(s, id, version, f, details).value;
      && id < |s.movements| && s.movements[id].status == Draft && s.movements[id].version == version
      && OnlyRow(s, s', id) && |s'.movements| == |s.movements| && s'.accounts == s.accounts
      && Holds(s'.movements[id], f) && CoreKind(f.kind)
      && s'.movements[id].status == Draft && s'.movements[id].version == version + 1
      && s'.movements[id].parent == s.movements[id].parent && s'.movements[id].reversalOf == s.movements[id].reversalOf
  {
  }

  /** Posting changes the status of the draft and steps two versions, and nothing else in any table. */
  lemma DraftIsPosted(s: State, now: Time, id: nat, version: nat, details: Option<Error>)
    requires Post(s, now, id, version, details).Ok?
    ensures var s' := Post(s, now, id, version, details).value;
      && id < |s.movements| && s.movements[id].account < |s.accounts|
      && OnlyRow(s, s', id) && |s'.movements| == |s.movements|
      && s.movements[id].status == Draft && s'.movements[id].status == Posted
      && s'.movements[id].version == version + 1
      && s'.movements[id].(status := Draft, version := version) == s.movements[id]
  {
  }

  /** The row that undoes another is posted on the same account with the same amount, currency and category, points back
      at it twice, and leaves of the original everything but status and version. */
  lemma ReversalIsRecorded(s: State, now: Time, id: nat, version: nat, at: Time)
    requires Reverse(s, now, id, version, at).Ok?
    ensures var s', n := Reverse(s, now, id, version, at).value, |s.movements|;
      && id < n && |s'.movements| == n + 1 && OnlyRow(s, s', id)
      && s.movements[id].status == Posted && s'.movements[id].status == Reversed
      && s'.movements[id].version == version + 1
      && s'.movements[id].(status := Posted, version := version) == s.movements[id]
      && var m, r := s.movements[id], s'.movements[n];
      && r.account == m.account && r.amount == m.amount && r.currency == m.currency && r.category == m.category
      && r.effect != m.effect && r.kind == Reversal && r.status == Posted && r.occurredAt == at
      && r.reversalOf == Some(id) && r.parent == Some(id) && r.version == 1
  {
  }

  /** What the author of a posted expense or income sees on an account from its date on. */
  function SeenOn(f: DraftFields, a: nat, t: Time): int {
    if a != f.account || t < f.occurredAt then 0 else if f.kind == Income then f.amount else -f.amount
  }

  lemma PostingShows(
      s: State, now: Time, id: nat, version: nat, details: Option<Error>, f: DraftFields, a: nat, t: Time)
    requires Sound(s) && Post(s, now, id, version, details).Ok? && a < |s.accounts|
    requires id < |s.movements| && Holds(s.movements[id], f)
    ensures var s' := Post(s, now, id, version, details).value;
            a < |s'.accounts| && Balance(s', a, t) == Balance(s, a, t) + SeenOn(f, a, t)
  {
    var m := s.movements[id];
    PostShifts(s, now, id, version, details);
    PostedBalance(s, Post(s, now, id, version, details).value, m.occurredAt, [m], a, t);
    NetSingle(m, a);
  }

  /** Drafting and posting moves exactly the account that was named, by exactly the amount that was entered, in the
      direction of the kind, from the date that was entered on. */
  lemma DraftedThenPosted(
      s: State, f: DraftFields, details: Option<Error>, now: Time, details': Option<Error>, a: nat, t: Time)
    requires Sound(s) && a < |s.accounts| && CreateDraft(s, f, details).Ok?
    requires Post(CreateDraft(s, f, details).value, now, |s.movements|, 1, details').Ok?
    ensures var s'' := Post(CreateDraft(s, f, details).value, now, |s.movements|, 1, details').value;
            a < |s''.accounts| && Balance(s'', a, t) == Balance(s, a, t) + SeenOn(f, a, t)
  {
    var s' := CreateDraft(s, f, details).value;
    DraftsAreInvisible(s, f, details);
    PostedBalance(s, s', 0, [], a, t);
    DraftIsCreated(s, f, details);
    PostingShows(s', now, |s.movements|, 1, details', f, a, t);
  }

  /** The same for an edited draft: what it held before the edit leaves no trace. */
  lemma EditedThenPosted(
      s: State, id: nat, version: nat, f: DraftFields, details: Option<Error>, now: Time, details': Option<Error>,
      a: nat, t: Time)
    requires Sound(s) && a < |s.accounts| && UpdateDraft(s, id, version, f, details).Ok?
    requires Post(UpdateDraft(s, id, version, f, details).value, now, id, version + 1, details').Ok?
    ensures var s'' := Post(UpdateDraft(s, id, version, f, details).value, now, id, version + 1, details').value;
            a < |s''.accounts| && Balance(s'', a, t) == Balance(s, a, t) + SeenOn(f, a, t)
  {
    var s' := UpdateDraft(s, id, version, f, details).value;
    DraftEditsAreInvisible(s, id, version, f, details);
    PostedBalance(s, s', 0, [], a, t);
    DraftIsEdited(s, id, version, f, details);
    PostingShows(s', now, id, version + 1, details', f, a, t);
  }

  // ---- What the steps mean ----

  lemma DraftsAreInvisible(s: State, f: DraftFields, details: Option<Error>)
    requires Sound(s) && CreateDraft(s, f, details).Ok?
    ensures var s' := CreateDraft(s, f, details).value;
            Posts(s, s', 0, []) && Sound(s') && Guarded(s.movements, s'.movements)
  {
    var s' := CreateDraft(s, f, details).value;
    UnseenShifts(s.movements, s'.movements);
    AppendSound(s, s', [DraftRow(f, 1)]);
  }

  lemma DraftEditsAreInvisible(s: State, id: nat, version: nat, f: DraftFields, details: Option<Error>)
    requires Sound(s) && UpdateDraft(s, id, version, f, details).Ok?
    ensures var s' := UpdateDraft(s, id, version, f, details).value;
            Posts(s, s', 0, []) && Sound(s') && Guarded(s.movements, s'.movements)
  {
    var s' := UpdateDraft(s, id, version, f, details).value;
    UnseenShifts(s.movements, s'.movements);
    assert RowFits(s.accounts, s.movements[id]);
    ReplaceDraftSound(s, s', id, EditedRow(s.movements[id], f));
  }

  /** Posting a draft moves its account by the signed amount from its own date on, and nothing else. */
  lemma PostShifts(s: State, now: Time, id: nat, version: nat, details: Option<Error>)
    requires Sound(s) && Post(s, now, id, version, details).Ok?
    ensures var s' := Post(s, now, id, version, details).value;
            var m := s.movements[id];
            && Posts(s, s', m.occurredAt, [m]) && Covered(s, now, m.occurredAt, [m])
            && Sound(s') && Guarded(s.movements, s'.movements)
  {
    var s' := Post(s, now, id, version, details).value;
    var m := s.movements[id];
    forall a, t
      ensures Total(s'.movements, a, t) == Total(s.movements, a, t) + if t >= m.occurredAt then Net([m], a) else 0
    {
      SumUpdate(s.movements, id, PostedRow(m), Entry(a, t));
      NetSingle(m, a);
    }
    assert [m][0] == m;
    assert RowFits(s.accounts, m);
    CoveredSingle(s, now, m.occurredAt, m);
    ReplaceDraftSound(s, s', id, PostedRow(m));
  }

  lemma {:induction false} ReversalTotals(ms: seq<Movement>, id: nat, at: Time)
    requires id < |ms| && ms[id].status == Posted
    ensures var m, r := ReversedRow(ms[id]), ReversalRow(ms[id], id, at);
            ShiftsBy(ms, ms[id := m] + [r], at, [r])
  {
    var m, r := ReversedRow(ms[id]), ReversalRow(ms[id], id, at);
    forall a, t
      ensures Total(ms[id := m] + [r], a, t) == Total(ms, a, t) + if t >= at then Net([r], a) else 0
    {
      SumUpdate(ms, id, m, Entry(a, t));
      SumAppend(ms[id := m], r, Entry(a, t));
      NetSingle(r, a);
    }
  }

  /** A reversal takes the original amount back out of the same account from the reversal's date on. */
  lemma ReverseShifts(s: State, now: Time, id: nat, version: nat, at: Time)
    requires Sound(s) && Reverse(s, now, id, version, at).Ok?
    ensures var s' := Reverse(s, now, id, version, at).value;
            var r := ReversalRow(s.movements[id], id, at);
            && Posts(s, s', at, [r]) && Covered(s, now, at, [r])
            && Signed(r) == -Signed(s.movements[id])
            && s.accounts[r.account].openedAt <= r.occurredAt
            && Sound(s') && Guarded(s.movements, s'.movements)
  {
    var s' := Reverse(s, now, id, version, at).value;
    var m := s.movements[id];
    var r := ReversalRow(m, id, at);
    ReversalTotals(s.movements, id, at);
    assert [r][0] == r;
    assert RowFits(s.accounts, m);
    CoveredSingle(s, now, at, r);
    ReverseSound(s, s', id, ReversedRow(m), r);
  }

  /** Reversing what was just posted restores every balance from the reversal's date on. */
  lemma PostThenReverse(s: State, now: Time, id: nat, version: nat, details: Option<Error>, later: Time, at: Time)
    requires Sound(s) && Post(s, now, id, version, details).Ok?
    requires Reverse(Post(s, now, id, version, details).value, later, id, version + 1, at).Ok?
    ensures var s'' := Reverse(Post(s, now, id, version, details).value, later, id, version + 1, at).value;
            forall a: nat, t :: a < |s.accounts| && (t >= at || t < s.movements[id].occurredAt) ==>
              Balance(s'', a, t) == Balance(s, a, t)
  {
    var s' := Post(s, now, id, version, details).value;
    PostShifts(s, now, id, version, details);
    ReverseShifts(s', later, id, version + 1, at);
    forall a ensures Net([s.movements[id]], a) == -Net([ReversalRow(s'.movements[id], id, at)], a) {
      NetSingle(s.movements[id], a);
      NetSingle(ReversalRow(s'.movements[id], id, at), a);
    }
  }

  /** In whatever state the ledger is afterwards, a reversed movement is never reversed again. */
  lemma ReversedOnlyOnce(
      s: State, now: Time, id: nat, version: nat, at: Time, t: State, later: Time, version': nat, at': Time)
    requires Sound(s) && Reverse(s, now, id, version, at).Ok?
    requires Guarded(Reverse(s, now, id, version, at).value.movements, t.movements)
    ensures Reverse(t, later, id, version', at').Err?
    ensures id < |t.movements| && (t.movements[id].version == version' ==>
      Reverse(t, later, id, version', at') == Err(TransactionAlreadyReversed))
  {
  }
}
