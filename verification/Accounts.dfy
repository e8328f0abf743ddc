/** Opening and editing accounts: frozen opening terms, lifecycle, and the negative-balance policy. */
module Accounts {
  import opened Common
  import opened Sums
  import opened Ledger
  import opened History

  datatype OpenAccountCommand = OpenAccountCommand(
    opening: int, currency: Currency, openedAt: Time, includeInTotal: bool, allowNegative: bool)

  function ValidateNegativePolicy(opening: int, allowNegative: bool): Result<Unit> {
    Need(allowNegative || opening >= 0, NegativeBalanceNotAllowed)
  }

  function NewAccount(c: OpenAccountCommand): Account {
    Account(c.currency, c.opening, c.openedAt, c.includeInTotal, c.allowNegative, Active, 1)
  }

  function OpenAccount(s: State, now: Time, c: OpenAccountCommand): Result<State> {
    var _ :- ValidateNegativePolicy(c.opening, c.allowNegative);
    var _ :- Need(c.openedAt <= now + FIVE_MINUTES, InvalidOpenedAt);
    Ok(s.(accounts := s.accounts + [NewAccount(c)]))
  }

  method OpenAccountInTransaction(db: Database, now: Time, c: OpenAccountCommand) returns (r: Result<Unit>)
    modifies db`accounts
    ensures Committed(old(db.Tables()), db.Tables(), OpenAccount(old(db.Tables()), now, c), r)
  {
    r := ValidateNegativePolicy(c.opening, c.allowNegative);
    if r.Err? {
      return;
    }
    if c.openedAt > now + FIVE_MINUTES {
      return Err(InvalidOpenedAt);
    }
    db.accounts := db.accounts + [NewAccount(c)];
  }

  // ---- Editing ----

  /** The requested values; `descriptive` says whether the name, the type or the sort order changes. */
  datatype AccountEdit = AccountEdit(
    version: nat,
    descriptive: bool,
    opening: Option<(int, Currency)>,
    openedAt: Option<Time>,
    includeInTotal: Option<bool>,
    allowNegative: Option<bool>,
    status: Option<AccountStatus>)

  datatype Field =
    | Descriptive
    | OpeningBalance
    | OpeningCurrency
    | OpenedAt
    | IncludeInTotal
    | AllowNegative
    | Lifecycle

  const FINANCIAL: set<Field> := {OpeningBalance, OpeningCurrency, OpenedAt}

  /** The account with the requested values. */
  function Edited(account: Account, e: AccountEdit): Account {
    var (opening, currency) := OrElse(e.opening, (account.opening, account.currency));
    Account(currency, opening, OrElse(e.openedAt, account.openedAt), OrElse(e.includeInTotal, account.includeInTotal),
            OrElse(e.allowNegative, account.allowNegative), OrElse(e.status, account.status), account.version)
  }

  function When(condition: bool, field: Field): set<Field> { if condition then {field} else {} }

  function ChangedFields(account: Account, target: Account, descriptive: bool): set<Field> {
    When(descriptive, Descriptive)
    + When(target.opening != account.opening, OpeningBalance)
    + When(target.currency != account.currency, OpeningCurrency)
    + When(target.openedAt != account.openedAt, OpenedAt)
    + When(target.includeInTotal != account.includeInTotal, IncludeInTotal)
    + When(target.allowNegative != account.allowNegative, AllowNegative)
    + When(target.status != account.status, Lifecycle)
  }

  function ValidateAccountEdit(current: AccountStatus, requested: AccountStatus, changed: set<Field>): Result<Unit> {
    if current == Active then Ok(Unit) else
    var _ :- Need(changed == {Lifecycle}, AccountReadOnly);
    Need(if current == Archived then requested in {Active, Closed} else requested == Active, AccountReadOnly)
  }

  predicate HasPostedActivity(ms: seq<Movement>, a: nat) {
    exists i :: 0 <= i < |ms| && ms[i].account == a && AffectsBalance(ms[i].status)
  }

  /** The policy as it is checked when an account is edited: at the present moment only. */
  function CheckPolicy(s: State, now: Time, a: nat, target: Account): Result<Unit>
    requires a < |s.accounts|
  {
    var _ :- ValidateNegativePolicy(target.opening, target.allowNegative);
    if target.allowNegative then Ok(Unit) else
    var current :- Snapshot(s, a, now);
    var resulting :=
      if target.currency == s.accounts[a].currency then current - s.accounts[a].opening + target.opening
      else target.opening;
    Need(resulting >= 0, NegativeBalanceNotAllowed)
  }

  function CheckEdit(s: State, now: Time, a: nat, e: AccountEdit): Result<Unit>
    requires a < |s.accounts|
  {
    var account := s.accounts[a];
    var target := Edited(account, e);
    var changed := ChangedFields(account, target, e.descriptive);
    var _ :- ValidateAccountEdit(account.status, target.status, changed);
    var _ :- Need(changed * FINANCIAL == {} || !HasPostedActivity(s.movements, a), AccountHasActivity);
    var _ :- CheckPolicy(s, now, a, target);
    // The foreign key from transactions to (account, currency).
    Need(forall i :: 0 <= i < |s.movements| && s.movements[i].account == a ==>
           s.movements[i].currency == target.currency,
         IntegrityError)
  }

  function EditAccount(s: State, now: Time, a: nat, e: AccountEdit): Result<State> {
    var _ :- Need(a < |s.accounts|, AccountNotFound);
    var account := s.accounts[a];
    var _ :- Need(account.version == e.version, VersionConflict);
    var target := Edited(account, e);
    if ChangedFields(account, target, e.descriptive) == {} then Ok(s) else
    var _ :- CheckEdit(s, now, a, e);
    Ok(s.(accounts := s.accounts[a := target.(version := account.version + 1)]))
  }

  method EditAccountInTransaction(db: Database, now: Time, a: nat, e: AccountEdit) returns (r: Result<Unit>)
    modifies db`accounts
    ensures Committed(old(db.Tables()), db.Tables(), EditAccount(old(db.Tables()), now, a, e), r)
  {
    if a >= |db.accounts| {
      return Err(AccountNotFound);
    }
    var account := db.accounts[a];
    if account.version != e.version {
      return Err(VersionConflict);
    }
    if ChangedFields(account, Edited(account, e), e.descriptive) == {} {
      return Ok(Unit);
    }
    r := CheckEdit(db.Tables(), now, a, e);
    if r.Err? {
      return;
    }
    account := WriteFields(account, e);
    account := account.(version := account.version + 1);
    db.accounts := db.accounts[a := account];
  }

  /** Only the fields that the request names are assigned. */
  method WriteFields(account: Account, e: AccountEdit) returns (r: Account)
    ensures r == Edited(account, e)
  {
    r := account;
    if e.opening.Some? {
      r := r.(opening := e.opening.value.0, currency := e.opening.value.1);
    }
    if e.openedAt.Some? {
      r := r.(openedAt := e.openedAt.value);
    }
    if e.includeInTotal.Some? {
      r := r.(includeInTotal := e.includeInTotal.value);
    }
    if e.allowNegative.Some? {
      r := r.(allowNegative := e.allowNegative.value);
    }
    if e.status.Some? {
      r := r.(status := e.status.value);
    }
  }

  // ---- What an edit keeps ----

  /** Once something is posted, the opening balance, its currency and its date are frozen. */
  lemma OpeningIsFrozen(s: State, now: Time, a: nat, e: AccountEdit)
    requires EditAccount(s, now, a, e).Ok? && HasPostedActivity(s.movements, a)
    ensures var s' := EditAccount(s, now, a, e).value;
            a < |s.accounts| && a < |s'.accounts|
            && SameTerms(s.accounts[a], s'.accounts[a]) && s'.accounts[a].opening == s.accounts[a].opening
  {
  }

  lemma EditIsSound(s: State, now: Time, a: nat, e: AccountEdit)
    requires Sound(s) && EditAccount(s, now, a, e).Ok?
    ensures Sound(EditAccount(s, now, a, e).value)
  {
    var s' := EditAccount(s, now, a, e).value;
    forall i | 0 <= i < |s.movements| ensures RowFits(s'.accounts, s.movements[i]) {
      var m := s.movements[i];
      assert RowFits(s.accounts, m);
      if m.account == a && AffectsBalance(m.status) {
        assert HasPostedActivity(s.movements, a);
        OpeningIsFrozen(s, now, a, e);
      }
    }
  }

  lemma OpenIsSound(s: State, now: Time, c: OpenAccountCommand)
    requires Sound(s) && OpenAccount(s, now, c).Ok?
    ensures Sound(OpenAccount(s, now, c).value)
  {
  }

  /** An unused account has its opening balance at every time. */
  lemma NoActivityNoBalance(ms: seq<Movement>, a: nat, t: Time)
    requires !HasPostedActivity(ms, a)
    ensures Total(ms, a, t) == 0
  {
    SumZero(ms, Entry(a, t));
  }

  /** An edit can be seen by the balance only while nothing is posted; whoever then turns the flag off is not below
      zero now. */
  lemma EditBalances(s: State, now: Time, a: nat, e: AccountEdit, t: Time)
    requires EditAccount(s, now, a, e).Ok?
    ensures var s' := EditAccount(s, now, a, e).value;
            && a < |s.accounts| && |s'.accounts| == |s.accounts|
            && (HasPostedActivity(s.movements, a) ==> Balance(s', a, t) == Balance(s, a, t))
            && (s' != s && !s'.accounts[a].allowNegative ==> s'.accounts[a].opening >= 0 && Balance(s', a, now) >= 0)
  {
    var s' := EditAccount(s, now, a, e).value;
    if HasPostedActivity(s.movements, a) {
      OpeningIsFrozen(s, now, a, e);
    } else {
      NoActivityNoBalance(s.movements, a, now);
    }
  }

  /** Archived and closed accounts can only be restored, and an archived one closed. */
  lemma ReadOnlyAccounts(s: State, now: Time, a: nat, e: AccountEdit)
    requires EditAccount(s, now, a, e).Ok? && a < |s.accounts| && s.accounts[a].status != Active
    ensures var before, after := s.accounts[a], EditAccount(s, now, a, e).value.accounts[a];
            && after.(status := before.status, version := before.version) == before
            && (after.status == before.status || after.status == Active
                || (before.status == Archived && after.status == Closed))
  {
  }

  // ---- What the steps write ----

  /** An account opens as it was asked for: active, with its opening balance at every time, and no other row changes. */
  lemma AccountIsOpened(s: State, now: Time, c: OpenAccountCommand, t: Time)
    requires Sound(s) && OpenAccount(s, now, c).Ok?
    ensures var s', a := OpenAccount(s, now, c).value, |s.accounts|;
      && s' == s.(accounts := s'.accounts) && s.accounts <= s'.accounts && |s'.accounts| == a + 1
      && s'.accounts[a].currency == c.currency && s'.accounts[a].openedAt == c.openedAt
      && s'.accounts[a].includeInTotal == c.includeInTotal && s'.accounts[a].allowNegative == c.allowNegative
      && s'.accounts[a].status == Active && s'.accounts[a].version == 1
      && Balance(s', a, t) == c.opening
  {
    var a := |s.accounts|;
    forall i | 0 <= i < |s.movements| ensures s.movements[i].account != a {
      assert RowFits(s.accounts, s.movements[i]);
    }
    NoActivityNoBalance(s.movements, a, t);
  }

  /** An accepted edit takes effect: what it names has the value that it names, what it does not name is as it was, the
      version steps unless nothing was to change, and no other account is touched. */
  lemma AccountIsEdited(s: State, now: Time, a: nat, e: AccountEdit)
    requires EditAccount(s, now, a, e).Ok?
    ensures a < |s.accounts| && |EditAccount(s, now, a, e).value.accounts| == |s.accounts|
    ensures var s', before := EditAccount(s, now, a, e).value, s.accounts[a];
      && s' == s.(accounts := s'.accounts)
      && (forall b :: 0 <= b < |s.accounts| && b != a ==> s'.accounts[b] == s.accounts[b])
      && var after := s'.accounts[a];
      && before.version == e.version
      && after.opening == (if e.opening.Some? then e.opening.value.0 else before.opening)
      && after.currency == (if e.opening.Some? then e.opening.value.1 else before.currency)
      && after.openedAt == (if e.openedAt.Some? then e.openedAt.value else before.openedAt)
      && after.includeInTotal == (if e.includeInTotal.Some? then e.includeInTotal.value else before.includeInTotal)
      && after.allowNegative == (if e.allowNegative.Some? then e.allowNegative.value else before.allowNegative)
      && after.status == (if e.status.Some? then e.status.value else before.status)
      && after.version
         == before.version + if e.descriptive || after.(version := before.version) != before then 1 else 0
  {
  }
}
