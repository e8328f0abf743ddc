/** The deferred trigger on reallocation sessions, and what its acceptance means. */
module ReallocationGroup {
  import opened Common
  import opened Sums
  import opened Ledger
  import opened Numbers
  import opened Rounding
  import opened Transfers

  // ---- The trigger ----

  predicate Changed(session: Session, line: Line) { line.account != session.balancing && line.delta != 0 }

  function ChangedCount(session: Session): Line -> int {
    (line: Line) => if Changed(session, line) then 1 else 0
  }

  function BalancingCount(session: Session): Line -> int {
    (line: Line) => if line.account == session.balancing then 1 else 0
  }

  function BeforeEntry(): Line -> int { (line: Line) => line.before }

  function RequestedEntry(): Line -> int { (line: Line) => line.requested }

  function DeltaEntry(): Line -> int { (line: Line) => line.delta }

  function BelongsTo(k: nat): Transfer -> int {
    (t: Transfer) => if t.session == Some(k) then 1 else 0
  }

  /** The transfer row carries exactly the change of the line, between its account and the balancing account. */
  predicate Matches(s: State, k: nat, session: Session, line: Line, t: Transfer) {
    && t.session == Some(k)
    && t.fingerprint == session.fingerprint
    && t.fxRate.None? && t.fee.None?
    && t.sourceAmount == Abs(line.delta) && t.destinationAmount == Abs(line.delta)
    && t.source < |s.movements| && t.destination < |s.movements|
    && var source, destination := s.movements[t.source].account, s.movements[t.destination].account;
    || (line.delta > 0 && source == session.balancing && destination == line.account)
    || (line.delta < 0 && source == line.account && destination == session.balancing)
  }

  function MatchCount(s: State, k: nat, session: Session): (Line, Transfer) -> int {
    (line: Line, t: Transfer) => if Changed(session, line) && Matches(s, k, session, line, t) then 1 else 0
  }

  predicate LineAllowed(s: State, session: Session, line: Line) {
    && line.account < |s.accounts|
    && s.accounts[line.account].currency == session.currency
    && (s.accounts[line.account].allowNegative || line.requested >= 0)
  }

  /** The counts and sums of `planit_validate_reallocation_group` for session row `k`. */
  predicate SessionBalanced(s: State, k: nat)
    requires k < |s.sessions|
  {
    var session := s.sessions[k];
    && |session.lines| >= 2
    && SumOf(session.lines, BalancingCount(session)) == 1
    && SumOf(session.lines, BeforeEntry()) == session.fixedTotal
    && SumOf(session.lines, RequestedEntry()) == session.fixedTotal
    && SumOf(s.transfers, BelongsTo(k)) == SumOf(session.lines, ChangedCount(session))
    && (forall i :: 0 <= i < |session.lines| && Changed(session, session.lines[i]) ==>
         SumOf(s.transfers, Row(MatchCount(s, k, session), session.lines[i])) == 1)
  }

  /** The whole trigger, which also looks at the accounts as they are when the session is written. */
  predicate AcceptsSession(s: State, k: nat)
    requires k < |s.sessions|
  {
    && SessionBalanced(s, k)
    && forall i :: 0 <= i < |s.sessions[k].lines| ==> LineAllowed(s, s.sessions[k], s.sessions[k].lines[i])
  }

  /** The primary key and the check constraint of the line table. */
  predicate LineTable(session: Session) {
    && (forall i, j :: 0 <= i < j < |session.lines| ==> session.lines[i].account != session.lines[j].account)
    && (forall i :: 0 <= i < |session.lines| ==>
         session.lines[i].delta == session.lines[i].requested - session.lines[i].before)
  }

  // ---- What acceptance means ----

  /** What the movement pair of a session transfer does to an account. */
  function TransferEffect(s: State, k: nat, a: nat): Transfer -> int {
    (t: Transfer) =>
      if t.session == Some(k) && t.source < |s.movements| && t.destination < |s.movements|
      then SignedOn(a)(s.movements[t.source]) + SignedOn(a)(s.movements[t.destination])
      else 0
  }

  /** What a line wants for an account. */
  function Wanted(session: Session, a: nat): Line -> int {
    (line: Line) =>
      if !Changed(session, line) then 0
      else (if a == line.account then line.delta else 0) - (if a == session.balancing then line.delta else 0)
  }

  /** What of the triggers stays true: the account policy may be edited later, lines and transfers may not. */
  ghost predicate BalancedGroup(s: State, k: nat) {
    && k < |s.sessions|
    && LineTable(s.sessions[k])
    && SessionBalanced(s, k)
    && (forall i :: 0 <= i < |s.transfers| && s.transfers[i].session == Some(k) ==> AcceptsTransfer(s, s.transfers[i]))
  }

  /** All session rows passed the triggers, whoever wrote them. */
  ghost predicate AcceptedGroup(s: State, k: nat) {
    BalancedGroup(s, k) && AcceptsSession(s, k)
  }

  /** A transfer matches at most one line, because the lines have different accounts. */
  lemma MatchesAtMostOneLine(s: State, k: nat, t: Transfer)
    requires k < |s.sessions| && LineTable(s.sessions[k])
    ensures SumOf(s.sessions[k].lines, Column(MatchCount(s, k, s.sessions[k]), t)) <= BelongsTo(k)(t)
  {
    var session := s.sessions[k];
    var lines, f := session.lines, Column(MatchCount(s, k, session), t);
    if i :| 0 <= i < |lines| && f(lines[i]) != 0 {
      assert Matches(s, k, session, lines[i], t);
      forall j | 0 <= j < |lines| && j != i ensures f(lines[j]) == 0 {
        assert lines[j].account != lines[i].account;
      }
      SumSingle(lines, i, f);
    } else {
      SumZero(lines, f);
    }
  }

  /** Counting matches by lines and by transfers: the transfers of the session and its changed lines correspond one to
      one. */
  lemma LinesAndTransfersCorrespond(s: State, k: nat)
    requires BalancedGroup(s, k)
    ensures forall i :: 0 <= i < |s.sessions[k].lines| ==>
      SumOf(s.transfers, Row(MatchCount(s, k, s.sessions[k]), s.sessions[k].lines[i]))
      == ChangedCount(s.sessions[k])(s.sessions[k].lines[i])
    ensures forall j :: 0 <= j < |s.transfers| ==>
      SumOf(s.sessions[k].lines, Column(MatchCount(s, k, s.sessions[k]), s.transfers[j]))
      == BelongsTo(k)(s.transfers[j])
  {
    var session := s.sessions[k];
    var lines, f := session.lines, MatchCount(s, k, session);
    forall i | 0 <= i < |lines| ensures RowSum(f, s.transfers)(lines[i]) == ChangedCount(session)(lines[i]) {
      if !Changed(session, lines[i]) {
        SumZero(s.transfers, Row(f, lines[i]));
      }
    }
    SumAgree(lines, lines, RowSum(f, s.transfers), ChangedCount(session));
    SumSwap(lines, s.transfers, f);
    forall j | 0 <= j < |s.transfers| ensures ColumnSum(f, lines)(s.transfers[j]) <= BelongsTo(k)(s.transfers[j]) {
      MatchesAtMostOneLine(s, k, s.transfers[j]);
    }
    SumTight(s.transfers, ColumnSum(f, lines), BelongsTo(k));
  }

  /** The match count weighted with what the line wants. */
  function WantedByMatch(s: State, k: nat, session: Session, a: nat): (Line, Transfer) -> int {
    (line: Line, t: Transfer) =>
      if Changed(session, line) && Matches(s, k, session, line, t) then Wanted(session, a)(line) else 0
  }

  lemma MatchedEffect(s: State, k: nat, session: Session, line: Line, t: Transfer, a: nat)
    requires Changed(session, line) && Matches(s, k, session, line, t) && AcceptsTransfer(s, t)
    ensures TransferEffect(s, k, a)(t) == Wanted(session, a)(line)
  {
    var source, destination := s.movements[t.source], s.movements[t.destination];
    assert Signed(source) == 0 - Abs(line.delta) && Signed(destination) == Abs(line.delta);
    assert SignedOn(a)(source) == if source.account == a then 0 - Abs(line.delta) else 0;
    assert SignedOn(a)(destination) == if destination.account == a then Abs(line.delta) else 0;
  }

  /** A transfer does what the one line it matches wants. */
  lemma EffectOfTransfer(s: State, k: nat, j: nat, a: nat)
    requires BalancedGroup(s, k) && j < |s.transfers|
    ensures TransferEffect(s, k, a)(s.transfers[j])
         == SumOf(s.sessions[k].lines, Column(WantedByMatch(s, k, s.sessions[k], a), s.transfers[j]))
  {
    var session, t := s.sessions[k], s.transfers[j];
    var lines := session.lines;
    var f, g := Column(MatchCount(s, k, session), t), Column(WantedByMatch(s, k, session, a), t);
    LinesAndTransfersCorrespond(s, k);
    if t.session == Some(k) {
      if i :| 0 <= i < |lines| && f(lines[i]) != 0 {
        assert Matches(s, k, session, lines[i], t);
        forall j | 0 <= j < |lines| && j != i ensures g(lines[j]) == 0 {
          assert lines[j].account != lines[i].account;
        }
        SumSingle(lines, i, g);
        MatchedEffect(s, k, session, lines[i], t, a);
      } else {
        SumZero(lines, f);
      }
    } else {
      SumZero(lines, g);
    }
  }

  /** Together the transfers of the session do what the changed lines want. */
  lemma EffectOfSession(s: State, k: nat, a: nat)
    requires BalancedGroup(s, k)
    ensures SumOf(s.transfers, TransferEffect(s, k, a)) == SumOf(s.sessions[k].lines, Wanted(s.sessions[k], a))
  {
    var session := s.sessions[k];
    var lines, f := session.lines, WantedByMatch(s, k, session, a);
    LinesAndTransfersCorrespond(s, k);
    forall j | 0 <= j < |s.transfers|
      ensures TransferEffect(s, k, a)(s.transfers[j]) == ColumnSum(f, lines)(s.transfers[j])
    {
      EffectOfTransfer(s, k, j, a);
    }
    SumAgree(s.transfers, s.transfers, TransferEffect(s, k, a), ColumnSum(f, lines));
    SumSwap(lines, s.transfers, f);
    forall i | 0 <= i < |lines| ensures RowSum(f, s.transfers)(lines[i]) == Wanted(session, a)(lines[i]) {
      var m := Row(MatchCount(s, k, session), lines[i]);
      var wanted := Wanted(session, a)(lines[i]);
      SumScaled(s.transfers, Row(f, lines[i]), m, wanted);
    }
    SumAgree(lines, lines, RowSum(f, s.transfers), Wanted(session, a));
  }

  /** The sum of the deltas is zero, because both totals are the fixed total. */
  lemma DeltasCancel(session: Session)
    requires LineTable(session)
    requires SumOf(session.lines, BeforeEntry()) == SumOf(session.lines, RequestedEntry())
    ensures SumOf(session.lines, DeltaEntry()) == 0
  {
    SumPlus(session.lines, BeforeEntry(), DeltaEntry(), RequestedEntry());
  }

  /** What all lines want for an account is its own delta; for the balancing account, minus the sum of the others. */
  lemma WantedForLine(session: Session, i: nat)
    requires LineTable(session) && i < |session.lines|
    requires SumOf(session.lines, BeforeEntry()) == SumOf(session.lines, RequestedEntry())
    ensures SumOf(session.lines, Wanted(session, session.lines[i].account)) == session.lines[i].delta
  {
    var lines, a := session.lines, session.lines[i].account;
    if a == session.balancing {
      DeltasCancel(session);
      var own := (line: Line) => if line.account == a then line.delta else 0;
      SumSingle(lines, i, own);
      SumPlus(lines, Wanted(session, a), DeltaEntry(), own);
    } else {
      SumSingle(lines, i, Wanted(session, a));
    }
  }

  /** Any session that the triggers accept brings every account, the balancing one included, from its before balance to
      exactly its requested balance. */
  lemma AcceptedSessionReachesTargets(s: State, k: nat, i: nat)
    requires BalancedGroup(s, k) && i < |s.sessions[k].lines|
    ensures var line := s.sessions[k].lines[i];
            line.before + SumOf(s.transfers, TransferEffect(s, k, line.account)) == line.requested
  {
    EffectOfSession(s, k, s.sessions[k].lines[i].account);
    WantedForLine(s.sessions[k], i);
  }

  /** An account without a line is not touched by an accepted session. */
  lemma AcceptedSessionTouchesOnlyLines(s: State, k: nat, a: nat)
    requires BalancedGroup(s, k)
    requires forall i :: 0 <= i < |s.sessions[k].lines| ==> s.sessions[k].lines[i].account != a
    ensures SumOf(s.transfers, TransferEffect(s, k, a)) == 0
  {
    var session := s.sessions[k];
    EffectOfSession(s, k, a);
    if a == session.balancing {
      SumZero(session.lines, BalancingCount(session));
    } else {
      SumZero(session.lines, Wanted(session, a));
    }
  }
}
