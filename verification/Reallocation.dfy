/** Reallocation of a fixed total over several accounts: preview and commit. */
module Reallocation {
  import opened Common
  import opened Sums
  import opened Ledger
  import opened History
  import opened Numbers
  import opened Rounding
  import opened Positions
  import opened Transfers
  import opened ReallocationGroup

  datatype ReallocationCommand = ReallocationCommand(
    accounts: seq<nat>,
    fixedTotal: int,
    currency: Currency,
    balancing: nat,
    requested: map<nat, (int, Currency)>,
    at: Time)

  datatype ReallocationPreview = ReallocationPreview(lines: seq<Line>, fingerprint: Fingerprint)

  // ---- Preview ----

  /** Adding amounts one by one, each partial sum being money again. */
  function AddUp(total: int, amounts: seq<int>): Result<int>
    decreases |amounts|
  {
    if |amounts| == 0 then Ok(total)
    else if !InRange(total + amounts[0]) then Err(AmountOutOfRange)
    else AddUp(total + amounts[0], amounts[1..])
  }

  function BalancesOf(ps: seq<Position>): seq<int> {
    seq(|ps|, i requires 0 <= i < |ps| => ps[i].balance)
  }

  function Target(c: ReallocationCommand, p: Position): int {
    if p.account in c.requested then c.requested[p.account].0 else p.balance
  }

  /** The targets of all accounts but the balancing one, in order. */
  function OtherTargets(c: ReallocationCommand, ps: seq<Position>): seq<int> {
    if |ps| == 0 then [] else
    (if ps[0].account == c.balancing then [] else [Target(c, ps[0])]) + OtherTargets(c, ps[1..])
  }

  lemma OtherTargetsStep(c: ReallocationCommand, ps: seq<Position>)
    requires |ps| > 0
    ensures var all, rest := OtherTargets(c, ps), OtherTargets(c, ps[1..]);
            if ps[0].account == c.balancing then all == rest
            else |all| > 0 && all[0] == Target(c, ps[0]) && all[1..] == rest
  {
  }

  function LineFor(c: ReallocationCommand, p: Position, balancingTarget: int): Line {
    var target := if p.account == c.balancing then balancingTarget else Target(c, p);
    Line(p.account, p.balance, target, target - p.balance)
  }

  function CheckLine(p: Position, line: Line): Result<Unit> {
    var _ :- Need(line.requested >= 0 || p.allowNegative, NegativeBalanceNotAllowed);
    Need(InRange(line.delta), AmountOutOfRange)
  }

  /** The checks of all lines, in order; the first that fails decides. */
  function CheckLines(c: ReallocationCommand, ps: seq<Position>, balancingTarget: int): (r: Result<Unit>)
    ensures r.Ok? ==> forall i :: 0 <= i < |ps| ==> CheckLine(ps[i], LineFor(c, ps[i], balancingTarget)).Ok?
  {
    if |ps| == 0 then Ok(Unit) else
    var _ :- CheckLine(ps[0], LineFor(c, ps[0], balancingTarget));
    CheckLines(c, ps[1..], balancingTarget)
  }

  function LinesFor(c: ReallocationCommand, ps: seq<Position>, balancingTarget: int): seq<Line> {
    seq(|ps|, i requires 0 <= i < |ps| => LineFor(c, ps[i], balancingTarget))
  }

  predicate Selected(ps: seq<Position>, a: nat) { exists i :: 0 <= i < |ps| && ps[i].account == a }

  function CheckSelection(s: State, c: ReallocationCommand, ps: seq<Position>): Result<Unit>
    requires forall i :: 0 <= i < |ps| ==> ps[i].account < |s.accounts|
  {
    var _ :- Need(|ps| >= 2, ReallocationRequiresMultipleAccounts);
    var _ :- Need(Selected(ps, c.balancing), BalancingAccountRequired);
    var _ :- Need(c.balancing !in c.requested, BalancingAccountIsDerived);
    var _ :- Need(forall a :: a in c.requested ==> Selected(ps, a), UnauthorizedEntity);
    var _ :- Need(forall i :: 0 <= i < |ps| ==> s.accounts[ps[i].account].currency == c.currency, CurrencyMismatch);
    Need(forall a :: a in c.requested ==> c.requested[a].1 == c.currency, CurrencyMismatch)
  }

  function PreviewReallocation(s: State, c: ReallocationCommand, ps: seq<Position>): Result<ReallocationPreview>
    requires forall i :: 0 <= i < |ps| ==> ps[i].account < |s.accounts|
  {
    var _ :- CheckSelection(s, c, ps);
    var current :- AddUp(0, BalancesOf(ps));
    var _ :- Need(current == c.fixedTotal, StaleBalance);
    var others :- AddUp(0, OtherTargets(c, ps));
    var _ :- Need(InRange(c.fixedTotal - others), AmountOutOfRange);
    var _ :- CheckLines(c, ps, c.fixedTotal - others);
    Ok(ReallocationPreview(LinesFor(c, ps, c.fixedTotal - others), FingerprintOf(ps)))
  }

  /** The preview as it runs: two running totals, a dictionary of targets, and a list of lines. */
  method ComputeReallocation(
      s: State, c: ReallocationCommand, ps: seq<Position>)
    returns (r: Result<ReallocationPreview>)
    requires forall i :: 0 <= i < |ps| ==> ps[i].account < |s.accounts|
    requires forall i, j :: 0 <= i < j < |ps| ==> ps[i].account != ps[j].account
    ensures r == PreviewReallocation(s, c, ps)
  {
    var selection := CheckSelection(s, c, ps);
    if selection.Err? {
      return Err(selection.error);
    }
    var total := ComputeTotal(ps);
    if total.Err? {
      return Err(total.error);
    }
    if total.value != c.fixedTotal {
      return Err(StaleBalance);
    }
    var others, targets := ComputeTargets(c, ps);
    if others.Err? {
      return Err(others.error);
    }
    var balancingTarget := c.fixedTotal - others.value;
    if !InRange(balancingTarget) {
      return Err(AmountOutOfRange);
    }
    var lines := ComputeLines(c, ps, targets[c.balancing := balancingTarget], balancingTarget);
    if lines.Err? {
      return Err(lines.error);
    }
    r := Ok(ReallocationPreview(lines.value, FingerprintOf(ps)));
  }

  method ComputeTotal(ps: seq<Position>) returns (r: Result<int>)
    ensures r == AddUp(0, BalancesOf(ps))
  {
    var total := 0;
    for i := 0 to |ps|
      invariant AddUp(total, BalancesOf(ps)[i..]) == AddUp(0, BalancesOf(ps))
    {
      total := total + ps[i].balance;
      if !InRange(total) {
        return Err(AmountOutOfRange);
      }
    }
    r := Ok(total);
  }

  method ComputeTargets(c: ReallocationCommand, ps: seq<Position>) returns (r: Result<int>, targets: map<nat, int>)
    requires forall i, j :: 0 <= i < j < |ps| ==> ps[i].account != ps[j].account
    ensures r == AddUp(0, OtherTargets(c, ps))
    ensures r.Ok? ==> forall j :: 0 <= j < |ps| && ps[j].account != c.balancing ==>
      ps[j].account in targets && targets[ps[j].account] == Target(c, ps[j])
  {
    targets := map[];
    var others := 0;
    assert ps[0..] == ps;
    for i := 0 to |ps|
      invariant AddUp(others, OtherTargets(c, ps[i..])) == AddUp(0, OtherTargets(c, ps))
      invariant forall j :: 0 <= j < i && ps[j].account != c.balancing ==>
        ps[j].account in targets && targets[ps[j].account] == Target(c, ps[j])
    {
      assert ps[i..][1..] == ps[i + 1..];
      OtherTargetsStep(c, ps[i..]);
      if ps[i].account != c.balancing {
        targets := targets[ps[i].account := Target(c, ps[i])];
        others := others + Target(c, ps[i]);
        if !InRange(others) {
          return Err(AmountOutOfRange), targets;
        }
      }
    }
    r := Ok(others);
  }

  predicate HoldsTargets(c: ReallocationCommand, ps: seq<Position>, targets: map<nat, int>, balancingTarget: int) {
    forall j :: 0 <= j < |ps| ==>
      ps[j].account in targets && targets[ps[j].account] == LineFor(c, ps[j], balancingTarget).requested
  }

  method ComputeLines(c: ReallocationCommand, ps: seq<Position>, targets: map<nat, int>, balancingTarget: int)
    returns (r: Result<seq<Line>>)
    requires HoldsTargets(c, ps, targets, balancingTarget)
    ensures r == match CheckLines(c, ps, balancingTarget)
                 case Ok(_) => Ok(LinesFor(c, ps, balancingTarget))
                 case Err(e) => Err(e)
  {
    var lines := [];
    assert ps[0..] == ps;
    for i := 0 to |ps|
      invariant CheckLines(c, ps[i..], balancingTarget) == CheckLines(c, ps, balancingTarget)
      invariant lines == LinesFor(c, ps, balancingTarget)[..i]
    {
      assert ps[i..][1..] == ps[i + 1..];
      var target := targets[ps[i].account];
      var line := Line(ps[i].account, ps[i].balance, target, target - ps[i].balance);
      var check := CheckLine(ps[i], line);
      if check.Err? {
        return Err(check.error);
      }
      lines := lines + [line];
    }
    assert LinesFor(c, ps, balancingTarget)[..|ps|] == LinesFor(c, ps, balancingTarget);
    r := Ok(lines);
  }

  function ToSet(ids: seq<nat>): set<nat> { set a | a in ids }

  function Evaluate(s: State, now: Time, c: ReallocationCommand): Result<ReallocationPreview> {
    var _ :- RequireNotFuture(c.at, now);
    var _ :- Need(forall i, j :: 0 <= i < j < |c.accounts| ==> c.accounts[i] != c.accounts[j], DuplicateAccount);
    var _ :- Need(forall a :: a in ToSet(c.accounts) ==> a < |s.accounts|, AccountNotFound);
    var ids := SelectIds(|s.accounts|, ToSet(c.accounts));
    var _ :- RequireParticipants(s, ids, c.at);
    var ps :- PositionsOf(s, ids, Max(now, c.at));
    PreviewReallocation(s, c, ps)
  }

  // ---- Commit ----

  /** The lines that become transfers. */
  function ChangedLines(lines: seq<Line>, balancing: nat): seq<Line> {
    if |lines| == 0 then [] else
    var last := lines[|lines| - 1];
    ChangedLines(lines[..|lines| - 1], balancing) + if last.account != balancing && last.delta != 0 then [last] else []
  }

  lemma {:induction false} ChangedLinesAre(lines: seq<Line>, balancing: nat)
    ensures forall line ::
      line in ChangedLines(lines, balancing) <==> line in lines && line.account != balancing && line.delta != 0
  {
    if |lines| > 0 {
      ChangedLinesAre(lines[..|lines| - 1], balancing);
    }
  }

  function CheckReallocation(
      s: State, now: Time, c: ReallocationCommand, fingerprint: Fingerprint)
    : Result<ReallocationPreview>
  {
    var preview :- Evaluate(s, now, c);
    var _ :- Need(preview.fingerprint == fingerprint, StaleBalance);
    var _ :- Need(|ChangedLines(preview.lines, c.balancing)| > 0, NoReallocationChanges);
    Ok(preview)
  }

  function SourceOf(c: ReallocationCommand, line: Line): nat { if line.delta > 0 then c.balancing else line.account }

  function DestinationOf(c: ReallocationCommand, line: Line): nat {
    if line.delta > 0 then line.account else c.balancing
  }

  function PairRows(c: ReallocationCommand, line: Line): seq<Movement> {
    [BuildPostedMovement(SourceOf(c, line), TransferOut, Outflow, Abs(line.delta), c.currency, c.at),
     BuildPostedMovement(DestinationOf(c, line), TransferIn, Inflow, Abs(line.delta), c.currency, c.at)]
  }

  function RowsFor(c: ReallocationCommand, changed: seq<Line>): (r: seq<Movement>)
    ensures |r| == 2 * |changed|
  {
    if |changed| == 0 then [] else RowsFor(c, changed[..|changed| - 1]) + PairRows(c, changed[|changed| - 1])
  }

  function TransferFor(line: Line, row: nat, k: nat, fingerprint: Fingerprint): Transfer {
    Transfer(row, row + 1, None, Abs(line.delta), Abs(line.delta), None, Some(k), fingerprint)
  }

  function TransfersFor(changed: seq<Line>, base: nat, k: nat, fingerprint: Fingerprint): seq<Transfer> {
    seq(|changed|, i requires 0 <= i < |changed| => TransferFor(changed[i], base + 2 * i, k, fingerprint))
  }

  function Involved(c: ReallocationCommand, changed: seq<Line>): set<nat> {
    {c.balancing} + set i | 0 <= i < |changed| :: changed[i].account
  }

  function SessionFor(c: ReallocationCommand, preview: ReallocationPreview): Session {
    Session(c.fixedTotal, c.currency, c.balancing, preview.fingerprint, preview.lines)
  }

  function Reallocated(s: State, c: ReallocationCommand, preview: ReallocationPreview): State {
    Recorded(s, c, preview, ChangedLines(preview.lines, c.balancing))
  }

  function Recorded(s: State, c: ReallocationCommand, preview: ReallocationPreview, changed: seq<Line>): State {
    s.(sessions := s.sessions + [SessionFor(c, preview)],
       movements := s.movements + RowsFor(c, changed),
       transfers := s.transfers + TransfersFor(changed, |s.movements|, |s.sessions|, preview.fingerprint),
       accounts := BumpedAll(s.accounts, Involved(c, changed)))
  }

  function CommitReallocation(s: State, now: Time, c: ReallocationCommand, fingerprint: Fingerprint): Result<State> {
    var preview :- CheckReallocation(s, now, c, fingerprint);
    Ok(Reallocated(s, c, preview))
  }

  method CommitReallocationInTransaction(
      db: Database, now: Time, c: ReallocationCommand, fingerprint: Fingerprint)
    returns (r: Result<Unit>)
    modifies db
    ensures Committed(old(db.Tables()), db.Tables(), CommitReallocation(old(db.Tables()), now, c, fingerprint), r)
  {
    var check := CheckReallocation(db.Tables(), now, c, fingerprint);
    if check.Err? {
      return Err(check.error);
    }
    var preview := check.value;
    ChangedCanBeRecorded(db.Tables(), now, c, fingerprint);
    RecordSession(db, c, preview, ChangedLines(preview.lines, c.balancing));
    r := Ok(Unit);
  }

  lemma ChangedCanBeRecorded(s: State, now: Time, c: ReallocationCommand, fingerprint: Fingerprint)
    requires CheckReallocation(s, now, c, fingerprint).Ok?
    ensures var changed := ChangedLines(CheckReallocation(s, now, c, fingerprint).value.lines, c.balancing);
            && DistinctAccounts(changed)
            && (forall i :: 0 <= i < |changed| ==> changed[i].delta != 0 && changed[i].account != c.balancing)
            && forall a :: a in Involved(c, changed) ==> a < |s.accounts|
  {
    CheckMeans(s, now, c, fingerprint);
    ChangedAreChosen(s, now, c, CheckReallocation(s, now, c, fingerprint).value);
  }

  method RecordSession(db: Database, c: ReallocationCommand, preview: ReallocationPreview, changed: seq<Line>)
    requires DistinctAccounts(changed)
    requires forall i :: 0 <= i < |changed| ==> changed[i].delta != 0 && changed[i].account != c.balancing
    requires forall a :: a in Involved(c, changed) ==> a < |db.accounts|
    modifies db
    ensures db.Tables() == Recorded(old(db.Tables()), c, preview, changed)
  {
    var session := |db.sessions|;
    db.sessions := db.sessions + [SessionFor(c, preview)];
    var models, involved := RecordPairs(db, c, changed, session, preview.fingerprint);
    db.transfers := db.transfers + models;
    BumpVersions(db, involved);
  }

  /** After `i` turns the accounts that were processed have moved to their targets, from the date of the session on,
      and the balancing account has absorbed the opposite of their changes. */
  ghost predicate Progress(before: seq<Movement>, now: seq<Movement>, c: ReallocationCommand, done: seq<Line>) {
    && (forall j: nat, t :: j < |done| && t >= c.at ==>
         Total(now, done[j].account, t) == Total(before, done[j].account, t) + done[j].delta)
    && (forall t :: t >= c.at ==>
         Total(now, c.balancing, t) == Total(before, c.balancing, t) - SumOf(done, DeltaEntry()))
  }

  /** The loop over the changed lines. */
  method RecordPairs(db: Database, c: ReallocationCommand, changed: seq<Line>, session: nat, fingerprint: Fingerprint)
    returns (models: seq<Transfer>, involved: set<nat>)
    requires DistinctAccounts(changed)
    requires forall i :: 0 <= i < |changed| ==> changed[i].delta != 0 && changed[i].account != c.balancing
    modifies db`movements
    ensures db.movements == old(db.movements) + RowsFor(c, changed)
    ensures models == TransfersFor(changed, |old(db.movements)|, session, fingerprint)
    ensures involved == Involved(c, changed)
    ensures Progress(old(db.movements), db.movements, c, changed)
  {
    ghost var before := db.movements;
    involved, models := {c.balancing}, [];
    RecordingStarts(before, c, changed, session, fingerprint);
    for i := 0 to |changed|
      invariant Recording(before, db.movements, models, involved, c, changed[..i], session, fingerprint)
    {
      RecordingGoesOn(before, db.movements, models, involved, c, changed, i, session, fingerprint);
      var model := RecordPair(db, c, changed[i], session, fingerprint);
      models := models + [model];
      involved := involved + {changed[i].account};
    }
    assert changed[..|changed|] == changed;
  }

  /** What the loop has written after the lines in `done`, and that those accounts have reached their targets. */
  ghost predicate Recording(
      before: seq<Movement>, now: seq<Movement>, models: seq<Transfer>, involved: set<nat>,
      c: ReallocationCommand, done: seq<Line>, session: nat, fingerprint: Fingerprint)
  {
    && now == before + RowsFor(c, done)
    && models == TransfersFor(done, |before|, session, fingerprint)
    && involved == Involved(c, done)
    && Progress(before, now, c, done)
  }

  lemma RecordingStarts(
      before: seq<Movement>, c: ReallocationCommand, changed: seq<Line>, session: nat, fingerprint: Fingerprint)
    requires DistinctAccounts(changed)
    requires forall i :: 0 <= i < |changed| ==> changed[i].account != c.balancing
    ensures Recording(before, before, [], {c.balancing}, c, changed[..0], session, fingerprint)
  {
    LoopProgress(before, c, changed, 0);
    assert before + [] == before;
  }

  lemma RecordingGoesOn(
      before: seq<Movement>, now: seq<Movement>, models: seq<Transfer>, involved: set<nat>,
      c: ReallocationCommand, changed: seq<Line>, i: nat, session: nat, fingerprint: Fingerprint)
    requires i < |changed| && Recording(before, now, models, involved, c, changed[..i], session, fingerprint)
    requires DistinctAccounts(changed)
    requires forall i :: 0 <= i < |changed| ==> changed[i].account != c.balancing
    ensures Recording(
      before, now + PairRows(c, changed[i]), models + [TransferFor(changed[i], |now|, session, fingerprint)],
      involved + {changed[i].account}, c, changed[..i + 1], session, fingerprint)
  {
    StepOfLoop(before, c, changed, i, session, fingerprint);
    LoopProgress(before, c, changed, i + 1);
  }

  /** One turn: the account that gives, the account that takes, and the transfer between them. */
  method RecordPair(db: Database, c: ReallocationCommand, line: Line, session: nat, fingerprint: Fingerprint)
    returns (model: Transfer)
    requires line.delta != 0
    modifies db`movements
    ensures db.movements == old(db.movements) + PairRows(c, line)
    ensures model == TransferFor(line, |old(db.movements)|, session, fingerprint)
  {
    var source, destination := c.balancing, line.account;
    if line.delta < 0 {
      source, destination := line.account, c.balancing;
    }
    var amount := Abs(line.delta);
    var row := |db.movements|;
    var taken := BuildPostedMovement(source, TransferOut, Outflow, amount, c.currency, c.at);
    var given := BuildPostedMovement(destination, TransferIn, Inflow, amount, c.currency, c.at);
    db.movements := db.movements + [taken];
    db.movements := db.movements + [given];
    assert [taken] + [given] == PairRows(c, line);
    model := Transfer(row, row + 1, None, amount, amount, None, Some(session), fingerprint);
  }

  lemma StepOfLoop(
      before: seq<Movement>, c: ReallocationCommand, changed: seq<Line>, i: nat, session: nat, fingerprint: Fingerprint)
    requires i < |changed|
    ensures before + RowsFor(c, changed[..i]) + PairRows(c, changed[i]) == before + RowsFor(c, changed[..i + 1])
    ensures Involved(c, changed[..i + 1]) == Involved(c, changed[..i]) + {changed[i].account}
    ensures |before + RowsFor(c, changed[..i])| == |before| + 2 * i
    ensures TransfersFor(changed[..i + 1], |before|, session, fingerprint)
         == TransfersFor(changed[..i], |before|, session, fingerprint)
            + [TransferFor(changed[i], |before| + 2 * i, session, fingerprint)]
  {
    assert changed[..i + 1][..i] == changed[..i];
  }

  // ---- What an accepted preview guarantees ----

  predicate LineFits(s: State, asOf: Time, c: ReallocationCommand, line: Line) {
    && line.account < |s.accounts|
    && s.accounts[line.account].status == Active
    && s.accounts[line.account].currency == c.currency
    && s.accounts[line.account].openedAt <= c.at
    && line.before == Balance(s, line.account, asOf)
    && line.delta == line.requested - line.before
    && (s.accounts[line.account].allowNegative || line.requested >= 0)
  }

  predicate OpenFor(s: State, a: nat, at: Time)
    requires a < |s.accounts|
  {
    s.accounts[a].status == Active && s.accounts[a].openedAt <= at
  }

  predicate IsSelected(lines: seq<Line>, a: nat) { exists i :: 0 <= i < |lines| && lines[i].account == a }

  predicate DistinctAccounts(lines: seq<Line>) {
    forall i, j :: 0 <= i < j < |lines| ==> lines[i].account != lines[j].account
  }

  ghost predicate Plan(s: State, now: Time, c: ReallocationCommand, lines: seq<Line>) {
    && |lines| >= 2
    && DistinctAccounts(lines)
    && IsSelected(lines, c.balancing)
    && (forall i :: 0 <= i < |lines| ==> LineFits(s, Max(now, c.at), c, lines[i]))
    && SumOf(lines, BeforeEntry()) == c.fixedTotal
    && SumOf(lines, RequestedEntry()) == c.fixedTotal
  }

  /** Every requested balance has a line with that target, the lines without a request keep their balance, and nothing
      was requested for the balancing account. */
  predicate Honours(c: ReallocationCommand, lines: seq<Line>) {
    && c.balancing !in c.requested
    && (forall a :: a in c.requested ==> IsSelected(lines, a) && c.requested[a].1 == c.currency)
    && (forall i :: 0 <= i < |lines| && lines[i].account != c.balancing ==>
         lines[i].requested
         == if lines[i].account in c.requested then c.requested[lines[i].account].0 else lines[i].before)
  }

  lemma {:induction false} AddUpIsSum<T>(total: int, amounts: seq<int>, s: seq<T>, f: T -> int)
    requires |s| == |amounts| && forall i :: 0 <= i < |s| ==> amounts[i] == f(s[i])
    requires AddUp(total, amounts).Ok?
    ensures AddUp(total, amounts).value == total + SumOf(s, f)
    decreases |s|
  {
    if |s| > 0 {
      AddUpIsSum(total + amounts[0], amounts[1..], s[1..], f);
      SumFirst(s, f);
    }
  }

  /** The requested balances add up to the targets of the others plus the balancing target. */
  lemma {:induction false} OtherTargetsSum(
      total: int, c: ReallocationCommand, ps: seq<Position>, lines: seq<Line>, balancingTarget: int)
    requires AddUp(total, OtherTargets(c, ps)).Ok?
    requires |lines| == |ps| && forall i :: 0 <= i < |ps| ==> lines[i] == LineFor(c, ps[i], balancingTarget)
    ensures AddUp(total, OtherTargets(c, ps)).value + SumOf(lines, BalancingPart(c, balancingTarget))
         == total + SumOf(lines, RequestedEntry())
    decreases |ps|
  {
    if |ps| > 0 {
      var rest := OtherTargets(c, ps[1..]);
      if ps[0].account == c.balancing {
        assert OtherTargets(c, ps) == rest;
        OtherTargetsSum(total, c, ps[1..], lines[1..], balancingTarget);
      } else {
        assert OtherTargets(c, ps)[1..] == rest;
        OtherTargetsSum(total + Target(c, ps[0]), c, ps[1..], lines[1..], balancingTarget);
      }
      SumFirst(lines, BalancingPart(c, balancingTarget));
      SumFirst(lines, RequestedEntry());
    }
  }

  function BalancingPart(c: ReallocationCommand, balancingTarget: int): Line -> int {
    (line: Line) => if line.account == c.balancing then balancingTarget else 0
  }

  /** The running totals of the preview are the sums of its lines. */
  lemma {:induction false} PreviewTotals(
      c: ReallocationCommand, ps: seq<Position>, lines: seq<Line>, others: int, b: nat)
    requires |lines| == |ps| && forall i :: 0 <= i < |ps| ==> lines[i] == LineFor(c, ps[i], c.fixedTotal - others)
    requires forall i, j :: 0 <= i < j < |ps| ==> ps[i].account != ps[j].account
    requires b < |ps| && ps[b].account == c.balancing
    requires AddUp(0, BalancesOf(ps)) == Ok(c.fixedTotal) && AddUp(0, OtherTargets(c, ps)) == Ok(others)
    ensures SumOf(lines, BeforeEntry()) == c.fixedTotal && SumOf(lines, RequestedEntry()) == c.fixedTotal
  {
    AddUpIsSum(0, BalancesOf(ps), lines, BeforeEntry());
    OtherTargetsSum(0, c, ps, lines, c.fixedTotal - others);
    SumSingle(lines, b, BalancingPart(c, c.fixedTotal - others));
  }

  lemma PreviewMeans(s: State, now: Time, c: ReallocationCommand, ps: seq<Position>)
    requires forall i :: 0 <= i < |ps| ==> ps[i].account < |s.accounts| && OpenFor(s, ps[i].account, c.at)
    requires forall i :: 0 <= i < |ps| ==> ps[i] == PositionOf(s, ps[i].account, Max(now, c.at))
    requires forall i, j :: 0 <= i < j < |ps| ==> ps[i].account != ps[j].account
    requires PreviewReallocation(s, c, ps).Ok?
    ensures Plan(s, now, c, PreviewReallocation(s, c, ps).value.lines)
    ensures Honours(c, PreviewReallocation(s, c, ps).value.lines)
  {
    var others := AddUp(0, OtherTargets(c, ps)).value;
    var balancingTarget := c.fixedTotal - others;
    var lines := LinesFor(c, ps, balancingTarget);
    assert PreviewReallocation(s, c, ps).value.lines == lines;
    assert CheckSelection(s, c, ps).Ok? && AddUp(0, BalancesOf(ps)) == Ok(c.fixedTotal);
    assert CheckLines(c, ps, balancingTarget).Ok?;
    LinesMean(s, now, c, ps, others, lines);
  }

  lemma LineMeans(s: State, now: Time, c: ReallocationCommand, p: Position, line: Line, balancingTarget: int)
    requires p.account < |s.accounts| && OpenFor(s, p.account, c.at)
    requires p == PositionOf(s, p.account, Max(now, c.at)) && s.accounts[p.account].currency == c.currency
    requires line == LineFor(c, p, balancingTarget) && CheckLine(p, line).Ok?
    ensures LineFits(s, Max(now, c.at), c, line)
  {
  }

  lemma LinesHonour(c: ReallocationCommand, ps: seq<Position>, lines: seq<Line>, balancingTarget: int)
    requires c.balancing !in c.requested
    requires forall a :: a in c.requested ==> Selected(ps, a) && c.requested[a].1 == c.currency
    requires lines == LinesFor(c, ps, balancingTarget)
    ensures Honours(c, lines)
  {
    forall a | a in c.requested ensures IsSelected(lines, a) {
      assert Selected(ps, a);
      var i :| 0 <= i < |ps| && ps[i].account == a;
      assert lines[i].account == a;
    }
  }

  lemma {:induction false} LinesMean(
      s: State, now: Time, c: ReallocationCommand, ps: seq<Position>, others: int, lines: seq<Line>)
    requires forall i :: 0 <= i < |ps| ==> ps[i].account < |s.accounts| && OpenFor(s, ps[i].account, c.at)
    requires forall i :: 0 <= i < |ps| ==> ps[i] == PositionOf(s, ps[i].account, Max(now, c.at))
    requires forall i, j :: 0 <= i < j < |ps| ==> ps[i].account != ps[j].account
    requires CheckSelection(s, c, ps).Ok? && CheckLines(c, ps, c.fixedTotal - others).Ok?
    requires AddUp(0, BalancesOf(ps)) == Ok(c.fixedTotal) && AddUp(0, OtherTargets(c, ps)) == Ok(others)
    requires lines == LinesFor(c, ps, c.fixedTotal - others)
    ensures Plan(s, now, c, lines) && Honours(c, lines)
  {
    LinesHonour(c, ps, lines, c.fixedTotal - others);
    assert Selected(ps, c.balancing);
    var b :| 0 <= b < |ps| && ps[b].account == c.balancing;
    PreviewTotals(c, ps, lines, others, b);
    assert lines[b].account == c.balancing;
    LinesFit(s, now, c, ps, c.fixedTotal - others, lines);
  }

  lemma {:induction false} LinesFit(
      s: State, now: Time, c: ReallocationCommand, ps: seq<Position>, balancingTarget: int, lines: seq<Line>)
    requires forall i :: 0 <= i < |ps| ==> ps[i].account < |s.accounts| && OpenFor(s, ps[i].account, c.at)
    requires forall i :: 0 <= i < |ps| ==> ps[i] == PositionOf(s, ps[i].account, Max(now, c.at))
    requires CheckSelection(s, c, ps).Ok? && CheckLines(c, ps, balancingTarget).Ok?
    requires lines == LinesFor(c, ps, balancingTarget)
    ensures forall i :: 0 <= i < |lines| ==> LineFits(s, Max(now, c.at), c, lines[i])
  {
    forall i | 0 <= i < |lines| ensures LineFits(s, Max(now, c.at), c, lines[i]) {
      LineMeans(s, now, c, ps[i], lines[i], balancingTarget);
    }
  }

  lemma CheckMeans(s: State, now: Time, c: ReallocationCommand, fingerprint: Fingerprint)
    requires CheckReallocation(s, now, c, fingerprint).Ok?
    ensures Plan(s, now, c, CheckReallocation(s, now, c, fingerprint).value.lines)
    ensures Honours(c, CheckReallocation(s, now, c, fingerprint).value.lines)
    ensures |ChangedLines(CheckReallocation(s, now, c, fingerprint).value.lines, c.balancing)| > 0
    ensures CheckReallocation(s, now, c, fingerprint).value.fingerprint == fingerprint
  {
    var ids := SelectIds(|s.accounts|, ToSet(c.accounts));
    var ps := PositionsOf(s, ids, Max(now, c.at)).value;
    assert PreviewReallocation(s, c, ps) == CheckReallocation(s, now, c, fingerprint);
    PreviewMeans(s, now, c, ps);
  }

  // ---- The loop ----

  lemma ChangedAreDistinct(lines: seq<Line>, balancing: nat)
    requires DistinctAccounts(lines)
    ensures DistinctAccounts(ChangedLines(lines, balancing))
  {
    if |lines| > 0 {
      ChangedAreDistinct(lines[..|lines| - 1], balancing);
      ChangedLinesAre(lines[..|lines| - 1], balancing);
    }
  }

  function ChangedPart(balancing: nat, f: Line -> int): Line -> int {
    (line: Line) => if line.account != balancing && line.delta != 0 then f(line) else 0
  }

  /** A sum over the changed lines, taken over all lines. */
  lemma {:induction false} SumOfChanged(lines: seq<Line>, balancing: nat, f: Line -> int)
    ensures SumOf(ChangedLines(lines, balancing), f) == SumOf(lines, ChangedPart(balancing, f))
  {
    if |lines| > 0 {
      var front, last := lines[..|lines| - 1], lines[|lines| - 1];
      SumOfChanged(front, balancing, f);
      SumOfOneMore(ChangedLines(front, balancing), last, balancing, f);
    }
  }

  /** A line that has changed joins the changed lines, and no other does. */
  lemma SumOfOneMore(changed: seq<Line>, last: Line, balancing: nat, f: Line -> int)
    ensures SumOf(changed + if last.account != balancing && last.delta != 0 then [last] else [], f)
         == SumOf(changed, f) + ChangedPart(balancing, f)(last)
  {
    if last.account != balancing && last.delta != 0 {
      SumAppend(changed, last, f);
    } else {
      NothingMore(changed);
    }
  }

  lemma NothingMore<T>(s: seq<T>)
    ensures s + [] == s
  {
  }

  /** What a changed line brings to an account. */
  function Brings(c: ReallocationCommand, a: nat): Line -> int {
    (line: Line) => (if a == line.account then line.delta else 0) - (if a == c.balancing then line.delta else 0)
  }

  /** The movement pairs bring to each account what their lines say. */
  lemma {:induction false} RowsNet(c: ReallocationCommand, changed: seq<Line>, a: nat)
    ensures Net(RowsFor(c, changed), a) == SumOf(changed, Brings(c, a))
  {
    if |changed| > 0 {
      var front, last := changed[..|changed| - 1], changed[|changed| - 1];
      RowsNet(c, front, a);
      SumConcat(RowsFor(c, front), PairRows(c, last), SignedOn(a));
      assert PairRows(c, last) == [PairRows(c, last)[0]] + [PairRows(c, last)[1]];
      SumAppend([PairRows(c, last)[0]], PairRows(c, last)[1], SignedOn(a));
      NetSingle(PairRows(c, last)[0], a);
    }
  }

  lemma {:induction false} RowsDated(c: ReallocationCommand, changed: seq<Line>)
    ensures AllDated(c.at, RowsFor(c, changed))
  {
    if |changed| > 0 {
      RowsDated(c, changed[..|changed| - 1]);
      assert AllDated(c.at, PairRows(c, changed[|changed| - 1]));
    }
  }

  ghost predicate AllDated(at: Time, rows: seq<Movement>) {
    forall i :: 0 <= i < |rows| ==>
      AffectsBalance(rows[i].status) && rows[i].occurredAt == at && rows[i].kind in {TransferOut, TransferIn}
  }

  lemma LoopProgress(before: seq<Movement>, c: ReallocationCommand, changed: seq<Line>, i: nat)
    requires DistinctAccounts(changed) && i <= |changed|
    requires forall i :: 0 <= i < |changed| ==> changed[i].account != c.balancing
    ensures Progress(before, before + RowsFor(c, changed[..i]), c, changed[..i])
  {
    var done := changed[..i];
    RowsDated(c, done);
    AppendShifts(before, c.at, RowsFor(c, done));
    forall j: nat | j < i ensures Net(RowsFor(c, done), done[j].account) == done[j].delta {
      RowsNet(c, done, done[j].account);
      SumSingle(done, j, Brings(c, done[j].account));
    }
    RowsNet(c, done, c.balancing);
    SumScaled(done, Brings(c, c.balancing), DeltaEntry(), -1);
  }

  // ---- What a committed reallocation means ----

  /** The rows that a committed reallocation posts. */
  function RowsOf(s: State, now: Time, c: ReallocationCommand, fingerprint: Fingerprint): seq<Movement> {
    match CheckReallocation(s, now, c, fingerprint)
    case Ok(preview) => RowsFor(c, ChangedLines(preview.lines, c.balancing))
    case Err(_) => []
  }

  lemma {:induction false} RowsTouch(c: ReallocationCommand, changed: seq<Line>, a: nat)
    ensures Touches(RowsFor(c, changed), a) <==> |changed| > 0 && a in Involved(c, changed)
  {
    if |changed| > 0 {
      var front, last := changed[..|changed| - 1], changed[|changed| - 1];
      RowsTouch(c, front, a);
      TouchesConcat(RowsFor(c, front), PairRows(c, last), a);
      assert PairRows(c, last)[0].account == SourceOf(c, last);
      assert PairRows(c, last)[1].account == DestinationOf(c, last);
      assert Involved(c, changed) == Involved(c, front) + {last.account};
    }
  }

  lemma TouchesConcat(ms: seq<Movement>, news: seq<Movement>, a: nat)
    ensures Touches(ms + news, a) <==> Touches(ms, a) || Touches(news, a)
  {
    if i :| 0 <= i < |ms| && ms[i].account == a {
      assert (ms + news)[i].account == a;
    }
    if i :| 0 <= i < |news| && news[i].account == a {
      assert (ms + news)[|ms| + i].account == a;
    }
  }

  ghost predicate AllFit(accounts: seq<Account>, rows: seq<Movement>) {
    forall i :: 0 <= i < |rows| ==> PlainPosted(accounts, rows[i])
  }

  lemma {:induction false} RowsFit(s: State, asOf: Time, c: ReallocationCommand, changed: seq<Line>)
    requires c.balancing < |s.accounts|
    requires s.accounts[c.balancing].currency == c.currency && s.accounts[c.balancing].openedAt <= c.at
    requires forall i :: 0 <= i < |changed| ==> LineFits(s, asOf, c, changed[i]) && changed[i].delta != 0
    ensures AllFit(s.accounts, RowsFor(c, changed))
  {
    if |changed| > 0 {
      RowsFit(s, asOf, c, changed[..|changed| - 1]);
      assert AllFit(s.accounts, PairRows(c, changed[|changed| - 1]));
    }
  }

  lemma RowsWanted(c: ReallocationCommand, session: Session, a: nat)
    requires session.balancing == c.balancing
    ensures Net(RowsFor(c, ChangedLines(session.lines, c.balancing)), a) == SumOf(session.lines, Wanted(session, a))
  {
    RowsNet(c, ChangedLines(session.lines, c.balancing), a);
    SumOfChanged(session.lines, c.balancing, Brings(c, a));
    SumAgree(session.lines, session.lines, ChangedPart(c.balancing, Brings(c, a)), Wanted(session, a));
  }

  /** What the rest of the proof uses about the changed lines of a plan. */
  ghost predicate Chosen(s: State, now: Time, c: ReallocationCommand, session: Session, changed: seq<Line>) {
    && |changed| > 0
    && DistinctAccounts(changed)
    && c.balancing < |s.accounts|
    && (forall i :: 0 <= i < |changed| ==>
         LineFits(s, Max(now, c.at), c, changed[i]) && changed[i].delta != 0 && changed[i].account != c.balancing)
    && (forall i :: 0 <= i < |changed| ==> HasLine(session, changed[i].account))
    && (forall i :: 0 <= i < |session.lines| && Changed(session, session.lines[i]) ==> session.lines[i] in changed)
    && SumOf(session.lines, ChangedCount(session)) == |changed|
    && (forall a :: Net(RowsFor(c, changed), a) == SumOf(session.lines, Wanted(session, a)))
    && AllFit(s.accounts, RowsFor(c, changed))
  }

  lemma ChangedAreChosen(s: State, now: Time, c: ReallocationCommand, preview: ReallocationPreview)
    requires Plan(s, now, c, preview.lines) && |ChangedLines(preview.lines, c.balancing)| > 0
    ensures Chosen(s, now, c, SessionFor(c, preview), ChangedLines(preview.lines, c.balancing))
  {
    var changed := ChangedLines(preview.lines, c.balancing);
    ChangedLinesAre(preview.lines, c.balancing);
    ChangedAreDistinct(preview.lines, c.balancing);
    ChangedSums(c, SessionFor(c, preview));
    PlanIsChosen(s, now, c, preview, changed);
  }

  function One(): Line -> int { (line: Line) => 1 }

  lemma ChangedNumber(session: Session)
    ensures SumOf(session.lines, ChangedCount(session)) == |ChangedLines(session.lines, session.balancing)|
  {
    SumOfChanged(session.lines, session.balancing, One());
    SumAgree(session.lines, session.lines, ChangedPart(session.balancing, One()), ChangedCount(session));
    CountAll(ChangedLines(session.lines, session.balancing));
  }

  /** As many changed lines as the trigger counts, and their rows bring what the trigger's lines want. */
  lemma ChangedSums(c: ReallocationCommand, session: Session)
    requires session.balancing == c.balancing
    ensures SumOf(session.lines, ChangedCount(session)) == |ChangedLines(session.lines, c.balancing)|
    ensures forall a ::
      Net(RowsFor(c, ChangedLines(session.lines, c.balancing)), a) == SumOf(session.lines, Wanted(session, a))
  {
    var changed := ChangedLines(session.lines, c.balancing);
    ChangedNumber(session);
    forall a ensures Net(RowsFor(c, changed), a) == SumOf(session.lines, Wanted(session, a)) {
      RowsWanted(c, session, a);
    }
  }

  lemma PlanIsChosen(s: State, now: Time, c: ReallocationCommand, preview: ReallocationPreview, changed: seq<Line>)
    requires Plan(s, now, c, preview.lines) && |changed| > 0 && DistinctAccounts(changed)
    requires forall line :: line in changed <==> line in preview.lines && line.account != c.balancing && line.delta != 0
    requires SumOf(preview.lines, ChangedCount(SessionFor(c, preview))) == |changed|
    requires forall a :: Net(RowsFor(c, changed), a) == SumOf(preview.lines, Wanted(SessionFor(c, preview), a))
    ensures Chosen(s, now, c, SessionFor(c, preview), changed)
  {
    var session, lines := SessionFor(c, preview), preview.lines;
    var b :| 0 <= b < |lines| && lines[b].account == c.balancing;
    assert LineFits(s, Max(now, c.at), c, lines[b]);
    forall i | 0 <= i < |changed|
      ensures LineFits(s, Max(now, c.at), c, changed[i]) && HasLine(session, changed[i].account)
      ensures changed[i].delta != 0 && changed[i].account != c.balancing
    {
      assert changed[i] in changed;
      var j :| 0 <= j < |lines| && lines[j] == changed[i];
      assert session.lines[j].account == changed[i].account;
    }
    RowsFit(s, Max(now, c.at), c, changed);
  }

  lemma {:induction false} CountAll(changed: seq<Line>)
    ensures SumOf(changed, One()) == |changed|
  {
    if |changed| > 0 {
      CountAll(changed[..|changed| - 1]);
    }
  }

  /** Every account of the plan moves from its balance to its target, the balancing account included. */
  lemma PlanNet(s: State, now: Time, c: ReallocationCommand, preview: ReallocationPreview, changed: seq<Line>, i: nat)
    requires Plan(s, now, c, preview.lines) && Chosen(s, now, c, SessionFor(c, preview), changed) && i < |preview.lines|
    ensures Net(RowsFor(c, changed), preview.lines[i].account) == preview.lines[i].delta
  {
    var lines := preview.lines;
    forall j | 0 <= j < |lines| ensures lines[j].delta == lines[j].requested - lines[j].before {
      assert LineFits(s, Max(now, c.at), c, lines[j]);
    }
    WantedForLine(SessionFor(c, preview), i);
  }

  lemma PlanNetOutside(
      s: State, now: Time, c: ReallocationCommand, preview: ReallocationPreview, changed: seq<Line>, a: nat)
    requires Plan(s, now, c, preview.lines) && Chosen(s, now, c, SessionFor(c, preview), changed)
    requires !IsSelected(preview.lines, a)
    ensures Net(RowsFor(c, changed), a) == 0
  {
    SumZero(preview.lines, Wanted(SessionFor(c, preview), a));
  }

  lemma RowsBump(s: State, c: ReallocationCommand, changed: seq<Line>)
    requires |changed| > 0
    ensures BumpsTouched(s.accounts, BumpedAll(s.accounts, Involved(c, changed)), RowsFor(c, changed))
  {
    forall a: nat ensures Touches(RowsFor(c, changed), a) <==> a in Involved(c, changed) {
      RowsTouch(c, changed, a);
    }
  }

  lemma RecordedPosts(s: State, now: Time, c: ReallocationCommand, preview: ReallocationPreview, changed: seq<Line>)
    requires Sound(s) && Chosen(s, now, c, SessionFor(c, preview), changed)
    ensures var s' := Recorded(s, c, preview, changed);
            Posts(s, s', c.at, RowsFor(c, changed)) && Sound(s') && Guarded(s.movements, s'.movements)
  {
    RowsBump(s, c, changed);
    RowsDated(c, changed);
    PostedRowsSound(s, Recorded(s, c, preview, changed), c.at, RowsFor(c, changed));
  }

  lemma PlanCovered(s: State, now: Time, c: ReallocationCommand, preview: ReallocationPreview, changed: seq<Line>)
    requires Plan(s, now, c, preview.lines) && Chosen(s, now, c, SessionFor(c, preview), changed)
    ensures Covered(s, now, c.at, RowsFor(c, changed))
  {
    var lines, rows := preview.lines, RowsFor(c, changed);
    forall a: nat | a < |s.accounts| && !s.accounts[a].allowNegative
      ensures Net(rows, a) >= 0 || Balance(s, a, Max(now, c.at)) + Net(rows, a) >= 0
    {
      if IsSelected(lines, a) {
        var i :| 0 <= i < |lines| && lines[i].account == a;
        assert LineFits(s, Max(now, c.at), c, lines[i]);
        PlanNet(s, now, c, preview, changed, i);
      } else {
        PlanNetOutside(s, now, c, preview, changed, a);
      }
    }
  }

  lemma ReallocationShifts(s: State, now: Time, c: ReallocationCommand, fingerprint: Fingerprint)
    requires Sound(s) && CommitReallocation(s, now, c, fingerprint).Ok?
    ensures var s' := CommitReallocation(s, now, c, fingerprint).value;
            var news := RowsOf(s, now, c, fingerprint);
            && Posts(s, s', c.at, news) && Covered(s, now, c.at, news)
            && s'.movements == s.movements + news
            && AllFit(s.accounts, news)
            && Sound(s') && Guarded(s.movements, s'.movements)
  {
    var preview := CheckReallocation(s, now, c, fingerprint).value;
    CheckMeans(s, now, c, fingerprint);
    ChangedAreChosen(s, now, c, preview);
    RecordedPosts(s, now, c, preview, ChangedLines(preview.lines, c.balancing));
    PlanCovered(s, now, c, preview, ChangedLines(preview.lines, c.balancing));
  }

  /** Recording a plan moves every selected account from its balance to the target of its line. */
  lemma PlanReachesTargets(
      s: State, now: Time, c: ReallocationCommand, preview: ReallocationPreview, changed: seq<Line>, i: nat)
    requires Sound(s) && Plan(s, now, c, preview.lines) && Chosen(s, now, c, SessionFor(c, preview), changed)
    requires i < |preview.lines|
    ensures var line := preview.lines[i];
            && line.account < |s.accounts|
            && Balance(Recorded(s, c, preview, changed), line.account, Max(now, c.at)) == line.requested
  {
    var s', a := Recorded(s, c, preview, changed), preview.lines[i].account;
    RecordedPosts(s, now, c, preview, changed);
    PlanNet(s, now, c, preview, changed, i);
    assert LineFits(s, Max(now, c.at), c, preview.lines[i]);
    PostedBalance(s, s', c.at, RowsFor(c, changed), a, Max(now, c.at));
  }

  function BalanceAfter(s: State, asOf: Time): Line -> int {
    (line: Line) => if line.account < |s.accounts| then Balance(s, line.account, asOf) else 0
  }

  /** The selected accounts together hold the fixed total before and after. */
  lemma PlanConservesTotal(
      s: State, now: Time, c: ReallocationCommand, preview: ReallocationPreview, changed: seq<Line>)
    requires Sound(s) && Plan(s, now, c, preview.lines) && Chosen(s, now, c, SessionFor(c, preview), changed)
    ensures SumOf(preview.lines, BalanceAfter(s, Max(now, c.at))) == c.fixedTotal
    ensures SumOf(preview.lines, BalanceAfter(Recorded(s, c, preview, changed), Max(now, c.at))) == c.fixedTotal
  {
    var lines, asOf, s' := preview.lines, Max(now, c.at), Recorded(s, c, preview, changed);
    forall i: nat | i < |lines|
      ensures BalanceAfter(s, asOf)(lines[i]) == lines[i].before
      ensures BalanceAfter(s', asOf)(lines[i]) == lines[i].requested
    {
      assert LineFits(s, asOf, c, lines[i]);
      PlanReachesTargets(s, now, c, preview, changed, i);
    }
    SumAgree(lines, lines, BalanceAfter(s, asOf), BeforeEntry());
    SumAgree(lines, lines, BalanceAfter(s', asOf), RequestedEntry());
  }

  /** No other account moves, at any time. */
  lemma PlanTouchesOnlySelected(
      s: State, now: Time, c: ReallocationCommand, preview: ReallocationPreview, changed: seq<Line>, a: nat, t: Time)
    requires Sound(s) && Plan(s, now, c, preview.lines) && Chosen(s, now, c, SessionFor(c, preview), changed)
    requires a < |s.accounts| && !IsSelected(preview.lines, a)
    ensures Balance(Recorded(s, c, preview, changed), a, t) == Balance(s, a, t)
  {
    RecordedPosts(s, now, c, preview, changed);
    PlanNetOutside(s, now, c, preview, changed, a);
    PostedBalance(s, Recorded(s, c, preview, changed), c.at, RowsFor(c, changed), a, t);
  }

  // ---- A committed call ----

  /** The lines that a committed call was shown and has recorded. */
  function CommittedLines(s: State, now: Time, c: ReallocationCommand, fingerprint: Fingerprint): seq<Line>
    requires CommitReallocation(s, now, c, fingerprint).Ok?
  {
    CheckReallocation(s, now, c, fingerprint).value.lines
  }

  lemma CommittedPlan(s: State, now: Time, c: ReallocationCommand, fingerprint: Fingerprint)
    requires CommitReallocation(s, now, c, fingerprint).Ok?
    ensures var preview := CheckReallocation(s, now, c, fingerprint).value;
            var changed := ChangedLines(preview.lines, c.balancing);
            && Plan(s, now, c, preview.lines) && Honours(c, preview.lines)
            && Chosen(s, now, c, SessionFor(c, preview), changed)
            && CommitReallocation(s, now, c, fingerprint) == Ok(Recorded(s, c, preview, changed))
  {
    CheckMeans(s, now, c, fingerprint);
    ChangedAreChosen(s, now, c, CheckReallocation(s, now, c, fingerprint).value);
  }

  /** After a committed call every selected account, the balancing one included, holds exactly the target of its line:
      the requested balance, the balance it had, or what is left of the fixed total. */
  lemma ReallocationReachesTargets(s: State, now: Time, c: ReallocationCommand, fingerprint: Fingerprint, i: nat)
    requires Sound(s) && CommitReallocation(s, now, c, fingerprint).Ok?
    requires i < |CommittedLines(s, now, c, fingerprint)|
    ensures var s', line := CommitReallocation(s, now, c, fingerprint).value, CommittedLines(s, now, c, fingerprint)[i];
            && line.account < |s.accounts|
            && line.before == Balance(s, line.account, Max(now, c.at))
            && Balance(s', line.account, Max(now, c.at)) == line.requested
            && (line.account != c.balancing ==>
                 line.requested == if line.account in c.requested then c.requested[line.account].0 else line.before)
  {
    var preview := CheckReallocation(s, now, c, fingerprint).value;
    CommittedPlan(s, now, c, fingerprint);
    PlanReachesTargets(s, now, c, preview, ChangedLines(preview.lines, c.balancing), i);
    assert LineFits(s, Max(now, c.at), c, preview.lines[i]);
  }

  /** The selected accounts together hold the fixed total before a committed call and after it. */
  lemma FixedTotalIsConserved(s: State, now: Time, c: ReallocationCommand, fingerprint: Fingerprint)
    requires Sound(s) && CommitReallocation(s, now, c, fingerprint).Ok?
    ensures var s', lines := CommitReallocation(s, now, c, fingerprint).value, CommittedLines(s, now, c, fingerprint);
            && SumOf(lines, BalanceAfter(s, Max(now, c.at))) == c.fixedTotal
            && SumOf(lines, BalanceAfter(s', Max(now, c.at))) == c.fixedTotal
  {
    var preview := CheckReallocation(s, now, c, fingerprint).value;
    CommittedPlan(s, now, c, fingerprint);
    PlanConservesTotal(s, now, c, preview, ChangedLines(preview.lines, c.balancing));
  }

  /** A committed call names every account once and has a line for exactly the accounts that it names. */
  lemma LinesAreForTheSelection(s: State, now: Time, c: ReallocationCommand, fingerprint: Fingerprint, a: nat)
    requires CommitReallocation(s, now, c, fingerprint).Ok?
    ensures IsSelected(CommittedLines(s, now, c, fingerprint), a) <==> a in c.accounts
    ensures forall i, j :: 0 <= i < j < |c.accounts| ==> c.accounts[i] != c.accounts[j]
    ensures c.at <= now + FIVE_MINUTES
  {
    var ids := SelectIds(|s.accounts|, ToSet(c.accounts));
    var ps := PositionsOf(s, ids, Max(now, c.at)).value;
    assert PreviewReallocation(s, c, ps) == CheckReallocation(s, now, c, fingerprint);
    LinesOfPositions(s, c, ps, CommittedLines(s, now, c, fingerprint), ids, a);
    assert a in ids <==> a in ToSet(c.accounts);
  }

  lemma {:induction false} LinesOfPositions(
      s: State, c: ReallocationCommand, ps: seq<Position>, lines: seq<Line>, ids: seq<nat>, a: nat)
    requires |ps| == |ids| && forall i :: 0 <= i < |ps| ==> ps[i].account == ids[i] && ids[i] < |s.accounts|
    requires PreviewReallocation(s, c, ps).Ok? && lines == PreviewReallocation(s, c, ps).value.lines
    ensures IsSelected(lines, a) <==> a in ids
  {
    if i :| 0 <= i < |ids| && ids[i] == a {
      assert lines[i].account == a;
    }
  }

  /** No account that a committed call does not name moves, at any time. */
  lemma ReallocationTouchesOnlySelected(
      s: State, now: Time, c: ReallocationCommand, fingerprint: Fingerprint, a: nat, t: Time)
    requires Sound(s) && CommitReallocation(s, now, c, fingerprint).Ok?
    requires a < |s.accounts| && a !in c.accounts
    ensures Balance(CommitReallocation(s, now, c, fingerprint).value, a, t) == Balance(s, a, t)
  {
    LinesAreForTheSelection(s, now, c, fingerprint, a);
    var preview := CheckReallocation(s, now, c, fingerprint).value;
    CommittedPlan(s, now, c, fingerprint);
    PlanTouchesOnlySelected(s, now, c, preview, ChangedLines(preview.lines, c.balancing), a, t);
  }

  /** A committed call adds one session, as it was asked for, with the lines that were shown, and the rows of its
      transfers; no other table changes. */
  lemma {:induction false} SessionIsRecorded(s: State, now: Time, c: ReallocationCommand, fingerprint: Fingerprint)
    requires CommitReallocation(s, now, c, fingerprint).Ok?
    ensures var s', k := CommitReallocation(s, now, c, fingerprint).value, |s.sessions|;
      && s' == s.(sessions := s'.sessions, movements := s'.movements, transfers := s'.transfers,
                  accounts := s'.accounts)
      && s.sessions <= s'.sessions && |s'.sessions| == k + 1
      && s.movements <= s'.movements && s.transfers <= s'.transfers
      && s'.sessions[k] == Session(
           c.fixedTotal, c.currency, c.balancing, fingerprint, CommittedLines(s, now, c, fingerprint))
  {
    CommittedPlan(s, now, c, fingerprint);
  }

  lemma {:induction false} PreviewStaysGood(s: State, now: Time, s': State, later: Time, c: ReallocationCommand)
    requires Evaluate(s, now, c).Ok? && now <= later
    requires forall a :: a in ToSet(c.accounts) ==>
      && a < |s.accounts| && a < |s'.accounts| && s'.accounts[a] == s.accounts[a]
      && Balance(s', a, Max(later, c.at)) == Balance(s, a, Max(now, c.at))
    ensures Evaluate(s', later, c) == Evaluate(s, now, c)
  {
    var ids := SelectIds(|s.accounts|, ToSet(c.accounts));
    SameSelection(|s.accounts|, |s'.accounts|, ToSet(c.accounts));
    SamePositions(s, Max(now, c.at), s', Max(later, c.at), ids, c.at);
    SamePreview(s, s', c, PositionsOf(s, ids, Max(now, c.at)).value);
  }

  lemma {:induction false} SamePreview(s: State, s': State, c: ReallocationCommand, ps: seq<Position>)
    requires forall i :: 0 <= i < |ps| ==> ps[i].account < |s.accounts| && ps[i].account < |s'.accounts|
    requires forall i :: 0 <= i < |ps| ==> s'.accounts[ps[i].account] == s.accounts[ps[i].account]
    ensures PreviewReallocation(s', c, ps) == PreviewReallocation(s, c, ps)
  {
  }

  // ---- The deferred triggers accept what is committed ----

  /** Foreign keys of the transfer table. */
  ghost predicate TransfersLinked(s: State) {
    forall i :: 0 <= i < |s.transfers| ==>
      && s.transfers[i].source < |s.movements| && s.transfers[i].destination < |s.movements|
      && (s.transfers[i].session.Some? ==> s.transfers[i].session.value < |s.sessions|)
  }

  lemma {:induction false} RowsForAt(c: ReallocationCommand, changed: seq<Line>, i: nat)
    requires i < |changed|
    ensures RowsFor(c, changed)[2 * i] == PairRows(c, changed[i])[0]
    ensures RowsFor(c, changed)[2 * i + 1] == PairRows(c, changed[i])[1]
  {
    if i < |changed| - 1 {
      RowsForAt(c, changed[..|changed| - 1], i);
    }
  }

  /** The movement rows behind the `i`-th transfer of a recorded session. */
  lemma PairOfTransfer(s: State, c: ReallocationCommand, preview: ReallocationPreview, changed: seq<Line>, i: nat)
    requires i < |changed|
    ensures var s', row := Recorded(s, c, preview, changed), |s.movements| + 2 * i;
            && s'.transfers[|s.transfers| + i] == TransferFor(changed[i], row, |s.sessions|, preview.fingerprint)
            && row + 1 < |s'.movements|
            && s'.movements[row] == PairRows(c, changed[i])[0] && s'.movements[row + 1] == PairRows(c, changed[i])[1]
  {
    RowsForAt(c, changed, i);
    assert TransfersFor(changed, |s.movements|, |s.sessions|, preview.fingerprint)[i]
        == TransferFor(changed[i], |s.movements| + 2 * i, |s.sessions|, preview.fingerprint);
  }

  /** A transfer of the session matches the line that it was made for and no other changed line. */
  lemma MatchesItsLine(
      s: State, c: ReallocationCommand, preview: ReallocationPreview, changed: seq<Line>, i: nat, k: nat)
    requires i < |changed| && k < |changed| && DistinctAccounts(changed)
    requires changed[k].delta != 0 && changed[k].account != c.balancing
    ensures var s' := Recorded(s, c, preview, changed);
            Row(MatchCount(s', |s.sessions|, SessionFor(c, preview)), changed[k])(s'.transfers[|s.transfers| + i])
            == if i == k then 1 else 0
  {
    PairOfTransfer(s, c, preview, changed, i);
    var s', n, row := Recorded(s, c, preview, changed), |s.sessions|, |s.movements| + 2 * i;
    LinesOfOneAccount(changed, i, k);
    assert s'.transfers[|s.transfers| + i] == TransferFor(changed[i], row, n, preview.fingerprint);
    PairMatches(s', n, SessionFor(c, preview), c, changed[i], changed[k], row, preview.fingerprint);
    assert Changed(SessionFor(c, preview), changed[k]);
  }

  lemma LinesOfOneAccount(lines: seq<Line>, i: nat, k: nat)
    requires DistinctAccounts(lines) && i < |lines| && k < |lines|
    ensures i == k <==> lines[i].account == lines[k].account
    ensures i == k <==> lines[i] == lines[k]
  {
  }

  /** A pair of rows matches the line that it was made for, and only lines of the same account. */
  lemma PairMatches(
      s: State, n: nat, session: Session, c: ReallocationCommand, made: Line, line: Line, row: nat,
      fingerprint: Fingerprint)
    requires row + 1 < |s.movements| && s.movements[row] == PairRows(c, made)[0]
    requires s.movements[row + 1] == PairRows(c, made)[1]
    requires line.delta != 0 && line.account != c.balancing && session.balancing == c.balancing
    requires session.fingerprint == fingerprint && (made == line || made.account != line.account)
    ensures Matches(s, n, session, line, TransferFor(made, row, n, fingerprint)) <==> made == line
  {
    var t := TransferFor(made, row, n, fingerprint);
    assert s.movements[t.source].account == SourceOf(c, made);
    assert s.movements[t.destination].account == DestinationOf(c, made);
  }

  /** Exactly one transfer matches a changed line. */
  lemma SessionMatchCount(s: State, c: ReallocationCommand, preview: ReallocationPreview, changed: seq<Line>, k: nat)
    requires TransfersLinked(s) && DistinctAccounts(changed) && k < |changed|
    requires changed[k].delta != 0 && changed[k].account != c.balancing
    ensures var s' := Recorded(s, c, preview, changed);
            SumOf(s'.transfers, Row(MatchCount(s', |s.sessions|, SessionFor(c, preview)), changed[k])) == 1
  {
    var s' := Recorded(s, c, preview, changed);
    var f := Row(MatchCount(s', |s.sessions|, SessionFor(c, preview)), changed[k]);
    forall j: nat | j < |s'.transfers| ensures f(s'.transfers[j]) == if j == |s.transfers| + k then 1 else 0 {
      MatchesOf(s, c, preview, changed, j, k);
    }
    SumSingle(s'.transfers, |s.transfers| + k, f);
  }

  lemma MatchesOf(s: State, c: ReallocationCommand, preview: ReallocationPreview, changed: seq<Line>, j: nat, k: nat)
    requires TransfersLinked(s) && DistinctAccounts(changed) && k < |changed| && j < |s.transfers| + |changed|
    requires changed[k].delta != 0 && changed[k].account != c.balancing
    ensures var s' := Recorded(s, c, preview, changed);
            Row(MatchCount(s', |s.sessions|, SessionFor(c, preview)), changed[k])(s'.transfers[j])
            == if j == |s.transfers| + k then 1 else 0
  {
    if j < |s.transfers| {
      OldTransferMatchesNone(s, c, preview, changed, j, k);
    } else {
      var i := j - |s.transfers|;
      MatchesItsLine(s, c, preview, changed, i, k);
      assert j == |s.transfers| + i;
    }
  }

  lemma OldTransferMatchesNone(
      s: State, c: ReallocationCommand, preview: ReallocationPreview, changed: seq<Line>, j: nat, k: nat)
    requires TransfersLinked(s) && j < |s.transfers| && k < |changed|
    ensures var s' := Recorded(s, c, preview, changed);
      Row(MatchCount(s', |s.sessions|, SessionFor(c, preview)), changed[k])(s'.transfers[j]) == 0
  {
  }

  /** As many transfers as changed lines. */
  lemma SessionCount(s: State, c: ReallocationCommand, preview: ReallocationPreview, changed: seq<Line>)
    requires TransfersLinked(s)
    ensures SumOf(Recorded(s, c, preview, changed).transfers, BelongsTo(|s.sessions|)) == |changed|
  {
    var news := TransfersFor(changed, |s.movements|, |s.sessions|, preview.fingerprint);
    SumConcat(s.transfers, news, BelongsTo(|s.sessions|));
    SumZero(s.transfers, BelongsTo(|s.sessions|));
    SumAgree(news, changed, BelongsTo(|s.sessions|), One());
    CountAll(changed);
  }

  lemma OneBalancingLine(c: ReallocationCommand, preview: ReallocationPreview)
    requires DistinctAccounts(preview.lines) && IsSelected(preview.lines, c.balancing)
    ensures SumOf(preview.lines, BalancingCount(SessionFor(c, preview))) == 1
  {
    var b :| 0 <= b < |preview.lines| && preview.lines[b].account == c.balancing;
    SumSingle(preview.lines, b, BalancingCount(SessionFor(c, preview)));
  }

  /** The transfer trigger accepts every transfer of the recorded session. */
  lemma SessionTransferAccepted(
      s: State, c: ReallocationCommand, preview: ReallocationPreview, changed: seq<Line>, i: nat)
    requires i < |changed| && changed[i].account != c.balancing
    requires HasLine(SessionFor(c, preview), changed[i].account) && HasLine(SessionFor(c, preview), c.balancing)
    ensures var s' := Recorded(s, c, preview, changed); AcceptsTransfer(s', s'.transfers[|s.transfers| + i])
  {
    var s' := Recorded(s, c, preview, changed);
    var row, line := |s.movements| + 2 * i, changed[i];
    PairOfTransfer(s, c, preview, changed, i);
    assert s'.sessions[|s.sessions|] == SessionFor(c, preview);
    PairAccepted(s', c, line, row, |s.sessions|, preview.fingerprint);
  }

  lemma ChosenLine(s: State, now: Time, c: ReallocationCommand, session: Session, changed: seq<Line>, i: nat)
    requires Chosen(s, now, c, session, changed) && i < |changed|
    ensures HasLine(session, changed[i].account) && changed[i].account != c.balancing
  {
  }

  lemma PairAccepted(s: State, c: ReallocationCommand, line: Line, row: nat, k: nat, fingerprint: Fingerprint)
    requires row + 1 < |s.movements| && s.movements[row] == PairRows(c, line)[0]
    requires s.movements[row + 1] == PairRows(c, line)[1]
    requires k < |s.sessions| && s.sessions[k].currency == c.currency
    requires HasLine(s.sessions[k], line.account) && HasLine(s.sessions[k], c.balancing)
    requires line.account != c.balancing
    ensures AcceptsTransfer(s, TransferFor(line, row, k, fingerprint))
  {
  }

  /** The lines and transfers of a recorded session pass the session trigger. */
  lemma SessionAccepted(s: State, now: Time, c: ReallocationCommand, preview: ReallocationPreview, changed: seq<Line>)
    requires TransfersLinked(s) && Plan(s, now, c, preview.lines) && Chosen(s, now, c, SessionFor(c, preview), changed)
    ensures LineTable(SessionFor(c, preview)) && AcceptsSession(Recorded(s, c, preview, changed), |s.sessions|)
  {
    var s', session, lines := Recorded(s, c, preview, changed), SessionFor(c, preview), preview.lines;
    assert s'.sessions[|s.sessions|] == session;
    OneBalancingLine(c, preview);
    SessionCount(s, c, preview, changed);
    forall i: nat | i < |lines|
      ensures lines[i].delta == lines[i].requested - lines[i].before && LineAllowed(s', session, lines[i])
    {
      PlanAllowsLine(s, now, c, preview, changed, i);
    }
    forall i: nat | i < |lines| && Changed(session, lines[i])
      ensures SumOf(s'.transfers, Row(MatchCount(s', |s.sessions|, session), lines[i])) == 1
    {
      ChangedLineMatches(s, now, c, preview, changed, i);
    }
  }

  lemma PlanAllowsLine(
      s: State, now: Time, c: ReallocationCommand, preview: ReallocationPreview, changed: seq<Line>, i: nat)
    requires Plan(s, now, c, preview.lines) && i < |preview.lines|
    ensures var line := preview.lines[i];
            && line.delta == line.requested - line.before
            && LineAllowed(Recorded(s, c, preview, changed), SessionFor(c, preview), line)
  {
    assert LineFits(s, Max(now, c.at), c, preview.lines[i]);
  }

  lemma ChangedLineMatches(
      s: State, now: Time, c: ReallocationCommand, preview: ReallocationPreview, changed: seq<Line>, i: nat)
    requires TransfersLinked(s) && Chosen(s, now, c, SessionFor(c, preview), changed)
    requires i < |preview.lines| && Changed(SessionFor(c, preview), preview.lines[i])
    ensures var s' := Recorded(s, c, preview, changed);
            SumOf(s'.transfers, Row(MatchCount(s', |s.sessions|, SessionFor(c, preview)), preview.lines[i])) == 1
  {
    var k :| 0 <= k < |changed| && changed[k] == preview.lines[i];
    SessionMatchCount(s, c, preview, changed, k);
  }

  /** The triggers accept every session that the service commits, and all of its transfers. */
  lemma RecordedGroupAccepted(
      s: State, now: Time, c: ReallocationCommand, preview: ReallocationPreview, changed: seq<Line>)
    requires TransfersLinked(s) && Plan(s, now, c, preview.lines) && Chosen(s, now, c, SessionFor(c, preview), changed)
    ensures AcceptedGroup(Recorded(s, c, preview, changed), |s.sessions|)
  {
    var s' := Recorded(s, c, preview, changed);
    SessionAccepted(s, now, c, preview, changed);
    assert HasLine(SessionFor(c, preview), c.balancing) by {
      var b :| 0 <= b < |preview.lines| && preview.lines[b].account == c.balancing;
      assert SessionFor(c, preview).lines[b].account == c.balancing;
    }
    SessionTransfersAccepted(s, now, c, preview, changed);
  }

  lemma OldTransfersAreOlder(s: State, c: ReallocationCommand, preview: ReallocationPreview, changed: seq<Line>)
    requires TransfersLinked(s)
    ensures forall j :: 0 <= j < |s.transfers| ==>
      Recorded(s, c, preview, changed).transfers[j].session != Some(|s.sessions|)
  {
  }

  lemma SessionTransfersAccepted(
      s: State, now: Time, c: ReallocationCommand, preview: ReallocationPreview, changed: seq<Line>)
    requires TransfersLinked(s) && Chosen(s, now, c, SessionFor(c, preview), changed)
    requires HasLine(SessionFor(c, preview), c.balancing)
    ensures var s' := Recorded(s, c, preview, changed);
            forall j :: 0 <= j < |s'.transfers| && s'.transfers[j].session == Some(|s.sessions|) ==>
              AcceptsTransfer(s', s'.transfers[j])
  {
    var s' := Recorded(s, c, preview, changed);
    OldTransfersAreOlder(s, c, preview, changed);
    forall j: nat | |s.transfers| <= j < |s'.transfers| ensures AcceptsTransfer(s', s'.transfers[j]) {
      var i := j - |s.transfers|;
      ChosenLine(s, now, c, SessionFor(c, preview), changed, i);
      SessionTransferAccepted(s, c, preview, changed, i);
      assert j == |s.transfers| + i;
    }
  }

  /** The triggers accept the session and all transfers of every call that the service commits. */
  lemma CommittedGroupAccepted(s: State, now: Time, c: ReallocationCommand, fingerprint: Fingerprint)
    requires TransfersLinked(s) && CommitReallocation(s, now, c, fingerprint).Ok?
    ensures AcceptedGroup(CommitReallocation(s, now, c, fingerprint).value, |s.sessions|)
  {
    var preview := CheckReallocation(s, now, c, fingerprint).value;
    CommittedPlan(s, now, c, fingerprint);
    RecordedGroupAccepted(s, now, c, preview, ChangedLines(preview.lines, c.balancing));
  }
}
