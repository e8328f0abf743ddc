/** Transfers between own accounts: preview, commit, and the database rule for the committed group. */
module Transfers {
  import opened Common
  import opened Sums
  import opened Ledger
  import opened History
  import opened Positions
  import opened Numbers
  import opened Rounding

  datatype Fee = Fee(account: nat, amount: int, currency: Currency)

  datatype TransferCommand = TransferCommand(
    source: nat,
    destination: nat,
    sourceAmount: int,
    sourceCurrency: Currency,
    destinationAmount: Option<(int, Currency)>,
    fxRate: Option<int>,
    fee: Option<Fee>,
    at: Time)

  datatype Preview = Preview(destinationAmount: int, positions: seq<Position>, fingerprint: Fingerprint)

  function NormalizeFxRate(rate: Option<int>): Result<Unit> {
    match rate
    case None => Ok(Unit)
    case Some(value) => Need(0 < value <= MAX_FX_RATE, InvalidFxRate)
  }

  function AccountIds(c: TransferCommand): set<nat> {
    {c.source, c.destination} + if c.fee.Some? then {c.fee.value.account} else {}
  }

  /** The destination amount that the command resolves to, given the two account currencies. */
  function ResolveDestination(c: TransferCommand, source: Currency, destination: Currency): Result<int> {
    if source == destination then
      var (amount, currency) :=
        if c.destinationAmount.Some? then c.destinationAmount.value else (c.sourceAmount, c.sourceCurrency);
      var _ :- Need(currency == destination, CurrencyMismatch);
      var _ :- Need(amount > 0, NonPositiveAmount);
      var _ :- Need(c.fxRate.None? && amount == c.sourceAmount, CurrencyMismatch);
      Ok(amount)
    else
      var _ :- Need(c.destinationAmount.Some? && c.fxRate.Some?, CurrencyMismatch);
      var (amount, currency) := c.destinationAmount.value;
      var _ :- Need(currency == destination, CurrencyMismatch);
      var _ :- Need(amount > 0, NonPositiveAmount);
      var _ :- Need(amount == FxExpected(c.sourceAmount, c.fxRate.value), FxAmountMismatch);
      Ok(amount)
  }

  /** What the transfer takes from or brings to one account. */
  function DeltaOf(c: TransferCommand, destinationAmount: int, a: nat): int {
    (if a == c.source then -c.sourceAmount else 0)
    + (if a == c.destination then destinationAmount else 0)
    + (if c.fee.Some? && a == c.fee.value.account then -c.fee.value.amount else 0)
  }

  /** Every account of the transfer may hold its projected balance. */
  function RequireImpacts(c: TransferCommand, destinationAmount: int, ps: seq<Position>): (r: Result<Unit>)
    ensures r.Ok? ==> forall i :: 0 <= i < |ps| ==>
      && (ps[i].allowNegative || ps[i].balance + DeltaOf(c, destinationAmount, ps[i].account) >= 0)
      && InRange(DeltaOf(c, destinationAmount, ps[i].account))
  {
    if |ps| == 0 then Ok(Unit) else
    var p := ps[|ps| - 1];
    var _ :- RequireImpacts(c, destinationAmount, ps[..|ps| - 1]);
    var delta := DeltaOf(c, destinationAmount, p.account);
    var _ :- Need(InRange(delta) && InRange(p.balance + delta), AmountOutOfRange);
    Need(p.balance + delta >= 0 || p.allowNegative, NegativeBalanceNotAllowed)
  }

  function PreviewTransfer(s: State, c: TransferCommand, ps: seq<Position>): Result<Preview>
    requires c.source < |s.accounts| && c.destination < |s.accounts|
    requires c.fee.Some? ==> c.fee.value.account < |s.accounts|
  {
    var _ :- Need(c.source != c.destination, SameTransferAccount);
    var _ :- Need(c.sourceAmount > 0, NonPositiveAmount);
    var _ :- Need(c.fee.Some? ==> c.fee.value.amount > 0, NonPositiveAmount);
    var _ :- Need(s.accounts[c.source].currency == c.sourceCurrency, CurrencyMismatch);
    var _ :- NormalizeFxRate(c.fxRate);
    var amount :- ResolveDestination(c, s.accounts[c.source].currency, s.accounts[c.destination].currency);
    var _ :- Need(c.fee.Some? ==> s.accounts[c.fee.value.account].currency == c.fee.value.currency, CurrencyMismatch);
    var _ :- RequireImpacts(c, amount, ps);
    Ok(Preview(amount, ps, FingerprintOf(ps)))
  }

  /** Reads the accounts and computes the preview; previewing and committing both start here. */
  function Evaluate(s: State, now: Time, c: TransferCommand): Result<Preview> {
    var _ :- RequireNotFuture(c.at, now);
    var _ :- Need(forall a :: a in AccountIds(c) ==> a < |s.accounts|, AccountNotFound);
    var ids := SelectIds(|s.accounts|, AccountIds(c));
    var _ :- RequireParticipants(s, ids, c.at);
    var ps :- PositionsOf(s, ids, Max(now, c.at));
    PreviewTransfer(s, c, ps)
  }

  function CheckTransfer(s: State, now: Time, c: TransferCommand, fingerprint: Fingerprint): Result<Preview> {
    var preview :- Evaluate(s, now, c);
    var _ :- Need(preview.fingerprint == fingerprint, StaleBalance);
    Ok(preview)
  }

  function OutRow(c: TransferCommand): Movement {
    BuildPostedMovement(c.source, TransferOut, Outflow, c.sourceAmount, c.sourceCurrency, c.at)
  }

  function InRow(c: TransferCommand, amount: int, currency: Currency): Movement {
    BuildPostedMovement(c.destination, TransferIn, Inflow, amount, currency, c.at)
  }

  function FeeRows(c: TransferCommand): seq<Movement> {
    match c.fee
    case None => []
    case Some(fee) => [BuildPostedMovement(fee.account, TransferFee, Outflow, fee.amount, fee.currency, c.at)]
  }

  function NewRows(s: State, c: TransferCommand, amount: int): seq<Movement>
    requires c.destination < |s.accounts|
  {
    [OutRow(c), InRow(c, amount, s.accounts[c.destination].currency)] + FeeRows(c)
  }

  function TransferRow(s: State, c: TransferCommand, preview: Preview): Transfer {
    var n := |s.movements|;
    Transfer(n, n + 1, if c.fee.Some? then Some(n + 2) else None, c.sourceAmount, preview.destinationAmount,
             c.fxRate, None, preview.fingerprint)
  }

  /** The committed group: the movement rows, the transfer row and the version steps. */
  function Transferred(s: State, c: TransferCommand, preview: Preview): State
    requires c.destination < |s.accounts|
  {
    s.(movements := s.movements + NewRows(s, c, preview.destinationAmount),
       transfers := s.transfers + [TransferRow(s, c, preview)],
       accounts := BumpedAll(s.accounts, AccountIds(c)))
  }

  function CommitTransfer(s: State, now: Time, c: TransferCommand, fingerprint: Fingerprint): Result<State> {
    var preview :- CheckTransfer(s, now, c, fingerprint);
    if c.destination < |s.accounts| then Ok(Transferred(s, c, preview)) else Err(AccountNotFound)
  }

  method RecordTransfer(db: Database, c: TransferCommand, preview: Preview)
    requires c.source < |db.accounts| && c.destination < |db.accounts|
    requires c.fee.Some? ==> c.fee.value.account < |db.accounts|
    modifies db
    ensures db.Tables() == Transferred(old(db.Tables()), c, preview)
  {
    var source := |db.movements|;
    var movements := [OutRow(c), InRow(c, preview.destinationAmount, db.accounts[c.destination].currency)];
    var fee: Option<nat> := None;
    var affected := {c.source, c.destination};
    if c.fee.Some? {
      movements := movements + FeeRows(c);
      fee := Some(source + 2);
      affected := affected + {c.fee.value.account};
    }
    db.movements := db.movements + movements;
    var amount := preview.destinationAmount;
    var model := Transfer(source, source + 1, fee, c.sourceAmount, amount, c.fxRate, None, preview.fingerprint);
    db.transfers := db.transfers + [model];
    BumpVersions(db, affected);
  }

  method CommitTransferInTransaction(
      db: Database, now: Time, c: TransferCommand, fingerprint: Fingerprint)
    returns (r: Result<Unit>)
    modifies db
    ensures Committed(old(db.Tables()), db.Tables(), CommitTransfer(old(db.Tables()), now, c, fingerprint), r)
  {
    var check := CheckTransfer(db.Tables(), now, c, fingerprint);
    if check.Err? {
      return Err(check.error);
    }
    CheckMeans(db.Tables(), now, c, fingerprint);
    RecordTransfer(db, c, check.value);
    r := Ok(Unit);
  }

  // ---- What an accepted preview guarantees ----

  /** Both sides of the resolved amount fit: equal within a currency, the rounded product across currencies. */
  predicate AmountsFit(c: TransferCommand, amount: int, source: Currency, destination: Currency) {
    && amount > 0
    && if source == destination then c.fxRate.None? && amount == c.sourceAmount
       else c.fxRate.Some? && amount == FxExpected(c.sourceAmount, c.fxRate.value)
  }

  predicate Participant(s: State, a: nat, at: Time) {
    a < |s.accounts| && s.accounts[a].status == Active && s.accounts[a].openedAt <= at
  }

  predicate Affordable(s: State, asOf: Time, c: TransferCommand, amount: int, a: nat)
    requires a < |s.accounts|
  {
    (s.accounts[a].allowNegative || Balance(s, a, asOf) + DeltaOf(c, amount, a) >= 0) && InRange(DeltaOf(c, amount, a))
  }

  ghost predicate Feasible(s: State, now: Time, c: TransferCommand, amount: int) {
    && (forall a :: a in AccountIds(c) ==> Participant(s, a, c.at) && Affordable(s, Max(now, c.at), c, amount, a))
    && Participant(s, c.source, c.at) && Participant(s, c.destination, c.at)
    && c.source != c.destination
    && c.sourceAmount > 0
    && c.sourceCurrency == s.accounts[c.source].currency
    && AmountsFit(c, amount, c.sourceCurrency, s.accounts[c.destination].currency)
    && (c.fxRate.Some? ==> 0 < c.fxRate.value <= MAX_FX_RATE)
    && (c.fee.Some? ==> FeeFits(s, c.fee.value, c.at))
  }

  predicate FeeFits(s: State, fee: Fee, at: Time) {
    fee.amount > 0 && Participant(s, fee.account, at) && fee.currency == s.accounts[fee.account].currency
  }

  lemma CheckMeans(s: State, now: Time, c: TransferCommand, fingerprint: Fingerprint)
    requires CheckTransfer(s, now, c, fingerprint).Ok?
    ensures Feasible(s, now, c, CheckTransfer(s, now, c, fingerprint).value.destinationAmount)
    ensures CheckTransfer(s, now, c, fingerprint).value.fingerprint == fingerprint
  {
    var ids := SelectIds(|s.accounts|, AccountIds(c));
    var preview := Evaluate(s, now, c).value;
    var ps := PositionsOf(s, ids, Max(now, c.at)).value;
    assert PreviewTransfer(s, c, ps) == Ok(preview);
    PreviewMeans(s, c, ps);
    forall a | a in AccountIds(c)
      ensures Participant(s, a, c.at) && Affordable(s, Max(now, c.at), c, preview.destinationAmount, a)
    {
      assert a in ids;
      var i :| 0 <= i < |ids| && ids[i] == a;
      assert ps[i] == PositionOf(s, a, Max(now, c.at));
    }
    assert c.source in AccountIds(c) && c.destination in AccountIds(c);
  }

  lemma PreviewMeans(s: State, c: TransferCommand, ps: seq<Position>)
    requires c.source < |s.accounts| && c.destination < |s.accounts|
    requires c.fee.Some? ==> c.fee.value.account < |s.accounts|
    requires PreviewTransfer(s, c, ps).Ok?
    ensures var amount := PreviewTransfer(s, c, ps).value.destinationAmount;
            && c.source != c.destination
            && c.sourceAmount > 0
            && c.sourceCurrency == s.accounts[c.source].currency
            && AmountsFit(c, amount, c.sourceCurrency, s.accounts[c.destination].currency)
            && (c.fxRate.Some? ==> 0 < c.fxRate.value <= MAX_FX_RATE)
            && (c.fee.Some? ==>
                 c.fee.value.amount > 0 && c.fee.value.currency == s.accounts[c.fee.value.account].currency)
            && (forall i :: 0 <= i < |ps| ==>
                 && (ps[i].allowNegative || ps[i].balance + DeltaOf(c, amount, ps[i].account) >= 0)
                 && InRange(DeltaOf(c, amount, ps[i].account)))
  {
  }

  // ---- The deferred trigger on transfers ----

  predicate PairCoherent(t: Transfer, source: Movement, destination: Movement) {
    && source.account != destination.account
    && source.kind == TransferOut && source.effect == Outflow
    && destination.kind == TransferIn && destination.effect == Inflow
    && AffectsBalance(source.status) && destination.status == source.status
    && source.amount == t.sourceAmount && destination.amount == t.destinationAmount
    && source.occurredAt == destination.occurredAt
  }

  predicate RateCoherent(t: Transfer, source: Movement, destination: Movement) {
    if source.currency == destination.currency then t.fxRate.None? && t.sourceAmount == t.destinationAmount
    else t.fxRate.Some? && FxStored(t.sourceAmount, t.fxRate.value) == t.destinationAmount
  }

  predicate FeeCoherent(source: Movement, fee: Movement) {
    fee.kind == TransferFee && fee.effect == Outflow && AffectsBalance(fee.status)
    && fee.status == source.status && fee.occurredAt == source.occurredAt
  }

  predicate HasLine(session: Session, a: nat) { exists i :: 0 <= i < |session.lines| && session.lines[i].account == a }

  predicate SessionCoherent(s: State, t: Transfer, source: Movement, destination: Movement)
    requires t.session.Some?
  {
    && t.session.value < |s.sessions|
    && t.fxRate.None? && t.fee.None?
    && var session := s.sessions[t.session.value];
    && source.currency == session.currency && destination.currency == session.currency
    && HasLine(session, source.account) && HasLine(session, destination.account)
  }

  predicate AcceptsTransfer(s: State, t: Transfer) {
    && t.source < |s.movements| && t.destination < |s.movements|
    && var source, destination := s.movements[t.source], s.movements[t.destination];
    && PairCoherent(t, source, destination)
    && RateCoherent(t, source, destination)
    && (t.fee.Some? ==> t.fee.value < |s.movements| && FeeCoherent(source, s.movements[t.fee.value]))
    && (t.session.Some? ==> SessionCoherent(s, t, source, destination))
  }

  // ---- What a committed transfer means ----

  lemma NetOfRows(s: State, c: TransferCommand, amount: int, a: nat)
    requires c.destination < |s.accounts|
    ensures Net(NewRows(s, c, amount), a) == DeltaOf(c, amount, a)
  {
    var pair := [OutRow(c), InRow(c, amount, s.accounts[c.destination].currency)];
    assert pair == [OutRow(c)] + [InRow(c, amount, s.accounts[c.destination].currency)];
    SumAppend([OutRow(c)], pair[1], SignedOn(a));
    NetSingle(OutRow(c), a);
    SumConcat(pair, FeeRows(c), SignedOn(a));
    if c.fee.Some? {
      NetSingle(FeeRows(c)[0], a);
    }
  }

  lemma RowsTouch(s: State, c: TransferCommand, amount: int, a: nat)
    requires c.destination < |s.accounts|
    ensures Touches(NewRows(s, c, amount), a) <==> a in AccountIds(c)
  {
    var news := NewRows(s, c, amount);
    assert news[0].account == c.source && news[1].account == c.destination;
    if c.fee.Some? {
      assert news[2].account == c.fee.value.account;
    }
  }

  lemma RowsFit(s: State, now: Time, c: TransferCommand, amount: int)
    requires Feasible(s, now, c, amount)
    ensures forall i :: 0 <= i < |NewRows(s, c, amount)| ==>
      PlainPosted(s.accounts, NewRows(s, c, amount)[i]) && NewRows(s, c, amount)[i].occurredAt == c.at
  {
  }

  /** The rows that a committed transfer posts. */
  function RowsOf(s: State, now: Time, c: TransferCommand, fingerprint: Fingerprint): seq<Movement> {
    match CheckTransfer(s, now, c, fingerprint)
    case Ok(preview) => if c.destination < |s.accounts| then NewRows(s, c, preview.destinationAmount) else []
    case Err(_) => []
  }

  lemma RecordedPosts(s: State, now: Time, c: TransferCommand, preview: Preview)
    requires Sound(s) && Feasible(s, now, c, preview.destinationAmount)
    ensures var s' := Transferred(s, c, preview);
            var news := NewRows(s, c, preview.destinationAmount);
            Posts(s, s', c.at, news) && Sound(s') && Guarded(s.movements, s'.movements)
  {
    var s' := Transferred(s, c, preview);
    var news := NewRows(s, c, preview.destinationAmount);
    RowsBump(s, c, preview.destinationAmount);
    RowsFit(s, now, c, preview.destinationAmount);
    PostedRowsSound(s, s', c.at, news);
  }

  lemma RowsBump(s: State, c: TransferCommand, amount: int)
    requires c.destination < |s.accounts|
    ensures BumpsTouched(s.accounts, BumpedAll(s.accounts, AccountIds(c)), NewRows(s, c, amount))
  {
    forall a: nat ensures Touches(NewRows(s, c, amount), a) <==> a in AccountIds(c) {
      RowsTouch(s, c, amount, a);
    }
  }

  /** A transfer moves the source, the destination and the fee account from its date on, and no other. */
  lemma TransferShifts(s: State, now: Time, c: TransferCommand, fingerprint: Fingerprint)
    requires Sound(s) && CommitTransfer(s, now, c, fingerprint).Ok?
    ensures var s' := CommitTransfer(s, now, c, fingerprint).value;
            var news := RowsOf(s, now, c, fingerprint);
            && Posts(s, s', c.at, news) && Covered(s, now, c.at, news)
            && s'.movements == s.movements + news
            && (forall i :: 0 <= i < |news| ==> PlainPosted(s.accounts, news[i]))
            && Sound(s') && Guarded(s.movements, s'.movements)
  {
    var preview := CheckTransfer(s, now, c, fingerprint).value;
    CheckMeans(s, now, c, fingerprint);
    RecordedPosts(s, now, c, preview);
    RowsFit(s, now, c, preview.destinationAmount);
    RowsCovered(s, now, c, preview.destinationAmount);
  }

  lemma RowsCovered(s: State, now: Time, c: TransferCommand, amount: int)
    requires Feasible(s, now, c, amount)
    ensures Covered(s, now, c.at, NewRows(s, c, amount))
  {
    forall a: nat | a < |s.accounts| && !s.accounts[a].allowNegative
      ensures Net(NewRows(s, c, amount), a) >= 0 || Balance(s, a, Max(now, c.at)) + Net(NewRows(s, c, amount), a) >= 0
    {
      NetOfRows(s, c, amount, a);
      if a in AccountIds(c) {
        assert Affordable(s, Max(now, c.at), c, amount, a);
      }
    }
  }

  /** Within one currency a transfer without fee creates and destroys nothing. */
  lemma TransferConserves(s: State, now: Time, c: TransferCommand, preview: Preview, t: Time)
    requires Sound(s) && Feasible(s, now, c, preview.destinationAmount)
    requires c.fee.None? && s.accounts[c.source].currency == s.accounts[c.destination].currency
    ensures var s' := Transferred(s, c, preview);
            && Balance(s', c.source, t) + Balance(s', c.destination, t)
               == Balance(s, c.source, t) + Balance(s, c.destination, t)
            && Balance(s', c.source, t) == Balance(s, c.source, t) - (if t >= c.at then c.sourceAmount else 0)
  {
    var s', news := Transferred(s, c, preview), NewRows(s, c, preview.destinationAmount);
    RecordedPosts(s, now, c, preview);
    NetOfRows(s, c, preview.destinationAmount, c.source);
    NetOfRows(s, c, preview.destinationAmount, c.destination);
    PostedBalance(s, s', c.at, news, c.source, t);
    PostedBalance(s, s', c.at, news, c.destination, t);
  }

  /** The deferred trigger never rejects what the service commits, exchange rates included. */
  lemma TransferAccepted(s: State, now: Time, c: TransferCommand, preview: Preview)
    requires Feasible(s, now, c, preview.destinationAmount)
    ensures AcceptsTransfer(Transferred(s, c, preview), TransferRow(s, c, preview))
  {
    var s' := Transferred(s, c, preview);
    var n := |s.movements|;
    var news := NewRows(s, c, preview.destinationAmount);
    assert s'.movements[n] == news[0] && s'.movements[n + 1] == news[1];
    if c.fee.Some? {
      assert s'.movements[n + 2] == news[2];
    }
    assert c.source in AccountIds(c) && Affordable(s, Max(now, c.at), c, preview.destinationAmount, c.source);
    if c.fxRate.Some? {
      FxAgrees(c.sourceAmount, c.fxRate.value);
    }
  }

  // ---- What a transfer writes ----

  /** A rate of one leaves every amount as it is. */
  lemma UnitRate(amount: int)
    ensures FxStored(amount, 1_000_000_000_000) == amount
  {
    assert Pow10(FX_SCALE) == 1_000_000_000_000 by {
      assert Pow10(6) == 1_000_000;
      PowersMultiply(6, 6);
    }
    HalfEvenIdempotent(amount, Pow10(FX_SCALE));
  }

  /** What the transfer brings to an account, as its author entered it. */
  function Change(c: TransferCommand, received: int, a: nat): int {
    var fee := if c.fee.Some? && c.fee.value.account == a then c.fee.value.amount else 0;
    if a == c.source then -c.sourceAmount - fee else if a == c.destination then received - fee else -fee
  }

  /** From its date on the source has given the amount entered, the destination has received it, or what the rate makes
      of it, the fee has left the account that pays it, and nobody else has moved. */
  lemma TransferMoves(s: State, now: Time, c: TransferCommand, fingerprint: Fingerprint, a: nat, t: Time)
    requires Sound(s) && CommitTransfer(s, now, c, fingerprint).Ok? && a < |s.accounts|
    ensures c.destination < |s.accounts| && c.source < |s.accounts| && c.source != c.destination
    ensures var s', received := CommitTransfer(s, now, c, fingerprint).value, Received(s, c);
      && a < |s'.accounts|
      && Balance(s', a, t) == Balance(s, a, t) + if t >= c.at then Change(c, received, a) else 0
  {
    var preview := CheckTransfer(s, now, c, fingerprint).value;
    CheckMeans(s, now, c, fingerprint);
    ReceivedIs(s, now, c, preview.destinationAmount);
    RecordedPosts(s, now, c, preview);
    NetOfRows(s, c, preview.destinationAmount, a);
    PostedBalance(s, Transferred(s, c, preview), c.at, NewRows(s, c, preview.destinationAmount), a, t);
  }

  lemma ReceivedIs(s: State, now: Time, c: TransferCommand, amount: int)
    requires Feasible(s, now, c, amount)
    ensures c.source < |s.accounts| && c.destination < |s.accounts| && amount == Received(s, c)
  {
    assert c.source in AccountIds(c) && Affordable(s, Max(now, c.at), c, amount, c.source);
    if c.fxRate.Some? {
      FxAgrees(c.sourceAmount, c.fxRate.value);
    }
  }

  /** The same amount within a currency, the rounded product across currencies. */
  function Received(s: State, c: TransferCommand): int
    requires c.source < |s.accounts| && c.destination < |s.accounts|
  {
    if s.accounts[c.source].currency == s.accounts[c.destination].currency then c.sourceAmount
    else if c.fxRate.Some? then HalfEven(c.sourceAmount * c.fxRate.value, Pow10(FX_SCALE))
    else 0
  }

  /** The rows of the group, in the order in which the transfer refers to them. */
  lemma TransferIsRecorded(s: State, now: Time, c: TransferCommand, fingerprint: Fingerprint)
    requires CommitTransfer(s, now, c, fingerprint).Ok?
    ensures var s', n, k := CommitTransfer(s, now, c, fingerprint).value, |s.movements|, |s.transfers|;
      && s' == s.(movements := s'.movements, transfers := s'.transfers, accounts := s'.accounts)
      && s.movements <= s'.movements && |s'.movements| == (if c.fee.Some? then n + 3 else n + 2)
      && s.transfers <= s'.transfers && |s'.transfers| == k + 1
      && var t := s'.transfers[k];
      && t.source == n && t.destination == n + 1 && t.fee == (if c.fee.Some? then Some(n + 2) else None)
      && t.sourceAmount == c.sourceAmount && t.fxRate == c.fxRate && t.session == None && t.fingerprint == fingerprint
      && s'.movements[n].account == c.source && s'.movements[n + 1].account == c.destination
      && s'.movements[n].occurredAt == c.at && s'.movements[n + 1].occurredAt == c.at
      && s'.movements[n].status == Posted && s'.movements[n + 1].status == Posted
      && (c.fee.Some? ==> FeeIsRecorded(s'.movements[n + 2], c.fee.value, c.at))
  {
    CheckMeans(s, now, c, fingerprint);
    GroupIsRecorded(s, c, CheckTransfer(s, now, c, fingerprint).value);
  }

  predicate FeeIsRecorded(m: Movement, fee: Fee, at: Time) {
    && m.account == fee.account && m.amount == fee.amount && m.currency == fee.currency && m.kind == TransferFee
    && m.effect == Outflow && m.occurredAt == at && m.status == Posted
  }

  lemma {:induction false} GroupIsRecorded(s: State, c: TransferCommand, preview: Preview)
    requires c.destination < |s.accounts|
    ensures var ms, n := Transferred(s, c, preview).movements, |s.movements|;
      && |ms| == (if c.fee.Some? then n + 3 else n + 2) && s.movements <= ms
      && ms[n] == OutRow(c) && ms[n + 1] == InRow(c, preview.destinationAmount, s.accounts[c.destination].currency)
      && (c.fee.Some? ==> ms[n + 2] == FeeRows(c)[0])
  {
    var n, news := |s.movements|, NewRows(s, c, preview.destinationAmount);
    assert news[0] == OutRow(c) && (c.fee.Some? ==> news[2] == FeeRows(c)[0]);
  }

  // ---- A preview stays good while nothing moves ----

  /** What evaluating a command comes down to once its accounts have been read. */
  lemma {:induction false} EvaluatedFrom(s: State, now: Time, c: TransferCommand, ids: seq<nat>)
    requires c.at <= now + FIVE_MINUTES && forall a :: a in AccountIds(c) ==> a < |s.accounts|
    requires ids == SelectIds(|s.accounts|, AccountIds(c))
    requires RequireParticipants(s, ids, c.at).Ok? && PositionsOf(s, ids, Max(now, c.at)).Ok?
    ensures c.source in AccountIds(c) && c.destination in AccountIds(c)
    ensures c.fee.Some? ==> c.fee.value.account in AccountIds(c)
    ensures Evaluate(s, now, c) == PreviewTransfer(s, c, PositionsOf(s, ids, Max(now, c.at)).value)
  {
  }

  lemma {:induction false} PreviewStaysGood(s: State, now: Time, s': State, later: Time, c: TransferCommand)
    requires Evaluate(s, now, c).Ok? && now <= later
    requires forall a :: a in AccountIds(c) ==>
      && a < |s.accounts| && a < |s'.accounts| && s'.accounts[a] == s.accounts[a]
      && Balance(s', a, Max(later, c.at)) == Balance(s, a, Max(now, c.at))
    ensures Evaluate(s', later, c) == Evaluate(s, now, c)
  {
    var ids := SelectIds(|s.accounts|, AccountIds(c));
    SameSelection(|s.accounts|, |s'.accounts|, AccountIds(c));
    assert SameView(s, Max(now, c.at), s', Max(later, c.at), ids) by {
      forall i | 0 <= i < |ids| ensures ids[i] in AccountIds(c) {
      }
    }
    SamePositions(s, Max(now, c.at), s', Max(later, c.at), ids, c.at);
    EvaluatedFrom(s, now, c, ids);
    EvaluatedFrom(s', later, c, ids);
    SamePreview(s, s', c, PositionsOf(s, ids, Max(now, c.at)).value);
  }

  lemma {:induction false} SamePreview(s: State, s': State, c: TransferCommand, ps: seq<Position>)
    requires forall a :: a in AccountIds(c) ==> a < |s.accounts| && a < |s'.accounts| && s'.accounts[a] == s.accounts[a]
    ensures c.source in AccountIds(c) && c.destination in AccountIds(c)
    ensures c.fee.Some? ==> c.fee.value.account in AccountIds(c)
    ensures PreviewTransfer(s', c, ps) == PreviewTransfer(s, c, ps)
  {
  }
}
