/** The financial groups that were committed once and for all: transfers, sessions and reconciliations. */
module Groups {
  import opened Common
  import opened Sums
  import opened Ledger
  import opened History
  import opened Transfers
  import opened ReallocationGroup
  import opened Reallocation
  import opened Reconciliations

  /** Every row of the three group tables passes its trigger. */
  ghost predicate GroupsSound(s: State) {
    && TransfersLinked(s)
    && (forall i :: 0 <= i < |s.transfers| ==> AcceptsTransfer(s, s.transfers[i]))
    && (forall k: nat :: k < |s.sessions| ==> BalancedGroup(s, k))
    && (forall i :: 0 <= i < |s.reconciliations| ==> AcceptsReconciliation(s, s.reconciliations[i]))
  }

  /** A step may add groups, and edits only expense and income rows. */
  ghost predicate GroupsExtend(s: State, s': State) {
    && SpecialisedRowsKept(s.movements, s'.movements)
    && |s.transfers| <= |s'.transfers| && s'.transfers[..|s.transfers|] == s.transfers
    && |s.sessions| <= |s'.sessions| && s'.sessions[..|s.sessions|] == s.sessions
    && |s.reconciliations| <= |s'.reconciliations| && s'.reconciliations[..|s.reconciliations|] == s.reconciliations
  }

  /** The new transfers belong to no old session. */
  ghost predicate FreshTransfers(s: State, s': State) {
    forall j :: |s.transfers| <= j < |s'.transfers| ==>
      s'.transfers[j].session.Some? ==> s'.transfers[j].session.value >= |s.sessions|
  }

  lemma TransferStaysAccepted(s: State, s': State, t: Transfer)
    requires GroupsExtend(s, s') && AcceptsTransfer(s, t)
    ensures AcceptsTransfer(s', t)
    ensures s'.movements[t.source] == s.movements[t.source] && s'.movements[t.destination] == s.movements[t.destination]
  {
  }

  lemma ReconciliationStaysAccepted(s: State, s': State, r: Reconciliation)
    requires GroupsExtend(s, s') && AcceptsReconciliation(s, r)
    ensures AcceptsReconciliation(s', r)
  {
  }

  /** Sums over the transfers of an old session are not changed by transfers that were added. */
  lemma SessionSumUnchanged(s: State, s': State, f: Transfer -> int, g: Transfer -> int)
    requires GroupsExtend(s, s')
    requires forall i :: 0 <= i < |s.transfers| ==> f(s.transfers[i]) == g(s.transfers[i])
    requires forall j :: |s.transfers| <= j < |s'.transfers| ==> g(s'.transfers[j]) == 0
    ensures SumOf(s.transfers, f) == SumOf(s'.transfers, g)
  {
    var olds, news := s'.transfers[..|s.transfers|], s'.transfers[|s.transfers|..];
    assert s'.transfers == olds + news;
    SumConcat(olds, news, g);
    SumAgree(s.transfers, olds, f, g);
    SumZero(news, g);
  }

  lemma MatchesAlike(s: State, s': State, k: nat, session: Session, line: Line, t: Transfer)
    requires GroupsExtend(s, s') && AcceptsTransfer(s, t)
    ensures Matches(s, k, session, line, t) <==> Matches(s', k, session, line, t)
  {
  }

  lemma SessionStaysBalanced(s: State, s': State, k: nat)
    requires GroupsSound(s) && GroupsExtend(s, s') && FreshTransfers(s, s') && k < |s.sessions|
    ensures BalancedGroup(s', k)
  {
    var session := s.sessions[k];
    assert s'.sessions[..|s.sessions|][k] == session;
    assert BalancedGroup(s, k);
    SessionSumUnchanged(s, s', BelongsTo(k), BelongsTo(k));
    forall i | 0 <= i < |session.lines| && Changed(session, session.lines[i])
      ensures SumOf(s'.transfers, Row(MatchCount(s', k, session), session.lines[i])) == 1
    {
      LineStaysMatched(s, s', k, session.lines[i]);
    }
    forall j | 0 <= j < |s'.transfers| && s'.transfers[j].session == Some(k)
      ensures AcceptsTransfer(s', s'.transfers[j])
    {
      OldTransfer(s, s', k, j);
    }
  }

  lemma LineStaysMatched(s: State, s': State, k: nat, line: Line)
    requires GroupsSound(s) && GroupsExtend(s, s') && FreshTransfers(s, s') && k < |s.sessions|
    ensures SumOf(s'.transfers, Row(MatchCount(s', k, s.sessions[k]), line))
         == SumOf(s.transfers, Row(MatchCount(s, k, s.sessions[k]), line))
  {
    var f, g := Row(MatchCount(s, k, s.sessions[k]), line), Row(MatchCount(s', k, s.sessions[k]), line);
    forall i | 0 <= i < |s.transfers| ensures f(s.transfers[i]) == g(s.transfers[i]) {
      MatchesAlike(s, s', k, s.sessions[k], line, s.transfers[i]);
    }
    SessionSumUnchanged(s, s', f, g);
  }

  lemma OldTransfer(s: State, s': State, k: nat, j: nat)
    requires GroupsSound(s) && GroupsExtend(s, s') && FreshTransfers(s, s') && k < |s.sessions|
    requires j < |s'.transfers| && s'.transfers[j].session == Some(k)
    ensures AcceptsTransfer(s', s'.transfers[j])
  {
    assert j < |s.transfers|;
    assert s'.transfers[..|s.transfers|][j] == s.transfers[j];
    TransferStaysAccepted(s, s', s.transfers[j]);
  }

  ghost predicate NewRowsAccepted(s: State, s': State) {
    && (forall i :: |s.transfers| <= i < |s'.transfers| ==> AcceptsTransfer(s', s'.transfers[i]))
    && (forall k: nat :: |s.sessions| <= k < |s'.sessions| ==> BalancedGroup(s', k))
    && (forall i :: |s.reconciliations| <= i < |s'.reconciliations| ==>
         AcceptsReconciliation(s', s'.reconciliations[i]))
  }

  /** Old groups stay accepted whatever the other services do, so it is enough to look at the new ones. */
  lemma GroupsStaySound(s: State, s': State)
    requires GroupsSound(s) && GroupsExtend(s, s') && FreshTransfers(s, s') && NewRowsAccepted(s, s')
    ensures GroupsSound(s')
  {
    forall i | 0 <= i < |s'.transfers| ensures AcceptsTransfer(s', s'.transfers[i]) {
      if i < |s.transfers| {
        assert s'.transfers[..|s.transfers|][i] == s.transfers[i];
        TransferStaysAccepted(s, s', s.transfers[i]);
      }
    }
    forall k: nat | k < |s'.sessions| ensures BalancedGroup(s', k) {
      if k < |s.sessions| {
        SessionStaysBalanced(s, s', k);
      }
    }
    forall i | 0 <= i < |s'.reconciliations| ensures AcceptsReconciliation(s', s'.reconciliations[i]) {
      if i < |s.reconciliations| {
        assert s'.reconciliations[..|s.reconciliations|][i] == s.reconciliations[i];
        ReconciliationStaysAccepted(s, s', s.reconciliations[i]);
      }
    }
  }

  lemma TransferKeepsGroups(s: State, now: Time, c: TransferCommand, fingerprint: Fingerprint)
    requires GroupsSound(s) && CommitTransfer(s, now, c, fingerprint).Ok?
    ensures GroupsSound(CommitTransfer(s, now, c, fingerprint).value)
  {
    var s' := CommitTransfer(s, now, c, fingerprint).value;
    Transfers.CheckMeans(s, now, c, fingerprint);
    TransferAccepted(s, now, c, CheckTransfer(s, now, c, fingerprint).value);
    assert s'.transfers[..|s.transfers|] == s.transfers && s'.sessions[..|s.sessions|] == s.sessions;
    assert s'.reconciliations[..|s.reconciliations|] == s.reconciliations;
    GroupsStaySound(s, s');
  }

  lemma ReconciliationKeepsGroups(s: State, now: Time, c: ReconciliationCommand, fingerprint: Fingerprint)
    requires GroupsSound(s) && CommitReconciliation(s, now, c, fingerprint).Ok?
    ensures GroupsSound(CommitReconciliation(s, now, c, fingerprint).value)
  {
    var s' := CommitReconciliation(s, now, c, fingerprint).value;
    ReconciliationAccepted(s, now, c, fingerprint);
    assert s'.transfers[..|s.transfers|] == s.transfers && s'.sessions[..|s.sessions|] == s.sessions;
    assert s'.reconciliations[..|s.reconciliations|] == s.reconciliations;
    GroupsStaySound(s, s');
  }

  lemma ReallocationKeepsGroups(s: State, now: Time, c: ReallocationCommand, fingerprint: Fingerprint)
    requires GroupsSound(s) && CommitReallocation(s, now, c, fingerprint).Ok?
    ensures GroupsSound(CommitReallocation(s, now, c, fingerprint).value)
    ensures AcceptedGroup(CommitReallocation(s, now, c, fingerprint).value, |s.sessions|)
  {
    var preview := CheckReallocation(s, now, c, fingerprint).value;
    Reallocation.CheckMeans(s, now, c, fingerprint);
    ChangedAreChosen(s, now, c, preview);
    RecordedKeepsGroups(s, now, c, preview, ChangedLines(preview.lines, c.balancing));
  }

  /** Only one session is new, and every new transfer belongs to it. */
  ghost predicate AddsOneSession(s: State, s': State) {
    && |s'.sessions| == |s.sessions| + 1
    && s'.reconciliations == s.reconciliations
    && forall j :: |s.transfers| <= j < |s'.transfers| ==> s'.transfers[j].session == Some(|s.sessions|)
  }

  lemma RecordedExtends(s: State, c: ReallocationCommand, preview: ReallocationPreview, changed: seq<Line>)
    ensures var s' := Recorded(s, c, preview, changed); GroupsExtend(s, s') && AddsOneSession(s, s')
  {
  }

  lemma OneSessionKeepsGroups(s: State, s': State)
    requires GroupsSound(s) && GroupsExtend(s, s') && AddsOneSession(s, s') && BalancedGroup(s', |s.sessions|)
    ensures GroupsSound(s')
  {
    GroupsStaySound(s, s');
  }

  lemma RecordedKeepsGroups(
      s: State, now: Time, c: ReallocationCommand, preview: ReallocationPreview, changed: seq<Line>)
    requires GroupsSound(s) && Plan(s, now, c, preview.lines) && Chosen(s, now, c, SessionFor(c, preview), changed)
    ensures GroupsSound(Recorded(s, c, preview, changed))
    ensures AcceptedGroup(Recorded(s, c, preview, changed), |s.sessions|)
  {
    RecordedExtends(s, c, preview, changed);
    RecordedGroupAccepted(s, now, c, preview, changed);
    OneSessionKeepsGroups(s, Recorded(s, c, preview, changed));
  }

  /** Steps that add no group. */
  lemma OtherStepsKeepGroups(s: State, s': State)
    requires GroupsSound(s) && SpecialisedRowsKept(s.movements, s'.movements)
    requires s'.transfers == s.transfers && s'.sessions == s.sessions && s'.reconciliations == s.reconciliations
    ensures GroupsSound(s')
  {
    assert s'.transfers[..|s.transfers|] == s.transfers && s'.sessions[..|s.sessions|] == s.sessions;
    assert s'.reconciliations[..|s.reconciliations|] == s.reconciliations;
    GroupsStaySound(s, s');
  }
}
