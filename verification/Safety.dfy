/** When an account that must not go negative stays non-negative, over whole runs. */
module Safety {
  import opened Common
  import opened Sums
  import opened Ledger
  import opened History
  import opened Runs
  import Accounts
  import Transactions
  import Sharing

  predicate Flagged(s: State, a: nat) { a < |s.accounts| && !s.accounts[a].allowNegative }

  /** From `from` on no flagged account is below zero, the movements that are dated ahead included. */
  ghost predicate Safe(s: State, from: Time) {
    forall a: nat, t :: Flagged(s, a) && t >= from ==> Balance(s, a, t) >= 0
  }

  /** No later-dated movement takes the balance below what it is at `at`. */
  ghost predicate NoDip(s: State, a: nat, at: Time)
    requires a < |s.accounts|
  {
    forall t :: t >= at ==> Balance(s, a, t) >= Balance(s, a, at)
  }

  // ---- The guard of a single posting ----

  /** Every outflow that the guard lets through leaves the account non-negative from then on. */
  ghost predicate GuardProtects(s: State, now: Time, a: nat, at: Time)
    requires a < |s.accounts|
  {
    forall amount, t ::
      amount > 0 && RequireProjectedBalance(s, now, a, amount, Outflow, at).Ok? && t >= Max(now, at) ==>
      Balance(s, a, t) - amount >= 0
  }

  /** The guard looks at one moment only, so it protects exactly the accounts without a later dip; an account that has
      nothing to spend, or more than the storage range holds, is protected by the guard refusing everything. */
  lemma GuardProtectsIffNoDip(s: State, now: Time, a: nat, at: Time)
    requires Flagged(s, a)
    ensures GuardProtects(s, now, a, at) <==>
              !(0 < Balance(s, a, Max(now, at)) <= MAX_AMOUNT) || NoDip(s, a, Max(now, at))
  {
    var balance := Balance(s, a, Max(now, at));
    if GuardProtects(s, now, a, at) && 0 < balance <= MAX_AMOUNT {
      assert RequireProjectedBalance(s, now, a, balance, Outflow, at).Ok?;
      forall t | t >= Max(now, at) ensures Balance(s, a, t) >= balance {
      }
    }
  }

  // ---- One step ----

  /** Wherever the step takes money out of a flagged account, that account has no later dip. */
  ghost predicate StepClear(s: State, now: Time, op: Op) {
    && (forall a: nat :: Flagged(s, a) && Net(News(s, now, op), a) < 0 ==> NoDip(s, a, Max(now, DateOf(s, op))))
    && (op.Edit? && op.account < |s.accounts| ==> NoDip(s, op.account, now))
  }

  lemma PostingIsSafe(s: State, s': State, now: Time, at: Time, news: seq<Movement>)
    requires Safe(s, now) && Posts(s, s', at, news) && Covered(s, now, at, news)
    requires forall a: nat :: Flagged(s, a) && Net(news, a) < 0 ==> NoDip(s, a, Max(now, at))
    ensures Safe(s', now)
  {
    forall a: nat, t | Flagged(s', a) && t >= now ensures Balance(s', a, t) >= 0 {
      assert Flagged(s, a) && Balance(s, a, t) >= 0;
      assert Balance(s', a, t) == Balance(s, a, t) + if t >= at then Net(news, a) else 0;
      if t >= at && Net(news, a) < 0 {
        assert Balance(s, a, t) >= Balance(s, a, Max(now, at));
      }
    }
  }

  /** Turning the flag off, or any other edit of a flagged account. */
  lemma EditIsSafe(s: State, now: Time, a: nat, e: Accounts.AccountEdit)
    requires Safe(s, now) && Accounts.EditAccount(s, now, a, e).Ok? && a < |s.accounts| && NoDip(s, a, now)
    ensures Safe(Accounts.EditAccount(s, now, a, e).value, now)
  {
    var s' := Accounts.EditAccount(s, now, a, e).value;
    forall b: nat, t | Flagged(s', b) && t >= now ensures Balance(s', b, t) >= 0 {
      if b == a && s' != s {
        Accounts.EditBalances(s, now, a, e, t);
        Accounts.EditBalances(s, now, a, e, now);
        if !Accounts.HasPostedActivity(s.movements, a) {
          Accounts.NoActivityNoBalance(s.movements, a, t);
        }
      } else {
        assert Flagged(s, b) && Balance(s', b, t) == Balance(s, b, t);
      }
    }
  }

  lemma OpeningIsSafe(s: State, now: Time, c: Accounts.OpenAccountCommand)
    requires Sound(s) && Safe(s, now) && Accounts.OpenAccount(s, now, c).Ok?
    ensures Safe(Accounts.OpenAccount(s, now, c).value, now)
  {
    var s' := Accounts.OpenAccount(s, now, c).value;
    forall a: nat, t | Flagged(s', a) && t >= now ensures Balance(s', a, t) >= 0 {
      if a < |s.accounts| {
        assert Flagged(s, a) && Balance(s', a, t) == Balance(s, a, t);
      } else {
        forall i | 0 <= i < |s.movements| ensures Entry(a, t)(s.movements[i]) == 0 {
          assert RowFits(s.accounts, s.movements[i]);
        }
        SumZero(s.movements, Entry(a, t));
      }
    }
  }

  lemma StepIsSafe(s: State, now: Time, op: Op)
    requires Sound(s) && Safe(s, now) && Apply(s, now, op).Ok? && StepClear(s, now, op)
    ensures Safe(Apply(s, now, op).value, now)
  {
    match op
    case Open(c) => OpeningIsSafe(s, now, c);
    case Edit(a, e) => EditIsSafe(s, now, a, e);
    case _ =>
      StepPosts(s, now, op);
      PostingIsSafe(s, Apply(s, now, op).value, now, DateOf(s, op), News(s, now, op));
  }

  // ---- Runs ----

  /** The clock after a run that started at `from`. */
  function Clock(from: Time, calls: seq<Call>): Time { if |calls| == 0 then from else calls[|calls| - 1].now }

  /** The clock never goes back. */
  predicate Timely(from: Time, calls: seq<Call>) {
    forall i, j :: 0 <= i <= j < |calls| ==> from <= calls[i].now <= calls[j].now
  }

  ghost predicate ClearRun(s: State, calls: seq<Call>) {
    |calls| == 0 ||
    (ClearRun(s, calls[..|calls| - 1]) &&
     StepClear(Run(s, calls[..|calls| - 1]), calls[|calls| - 1].now, calls[|calls| - 1].op))
  }

  /** Over any run whose payments never come before a dip, no flagged account is ever below zero. */
  lemma {:induction false} RunsAreSafe(s: State, from: Time, calls: seq<Call>)
    requires Invariant(s) && Safe(s, from) && Timely(from, calls) && ClearRun(s, calls)
    ensures Safe(Run(s, calls), Clock(from, calls))
  {
    if |calls| > 0 {
      var front, call := calls[..|calls| - 1], calls[|calls| - 1];
      RunsAreSafe(s, from, front);
      RunsKeepTheInvariant(s, front);
      assert call.now >= Clock(from, front);
      assert Safe(Run(s, front), call.now);
      if Apply(Run(s, front), call.now, call.op).Ok? {
        StepIsSafe(Run(s, front), call.now, call.op);
      }
    }
  }

  // ---- Nothing dated ahead ----

  /** No posted movement is dated after `now`, as far as a balance can tell. */
  ghost predicate Settled(s: State, now: Time) {
    forall a, t :: t >= now ==> Total(s.movements, a, t) == Total(s.movements, a, now)
  }

  /** Nothing is posted with a date ahead of the clock. */
  predicate OnTime(s: State, calls: seq<Call>) {
    |calls| == 0 ||
    (OnTime(s, calls[..|calls| - 1]) && CallOnTime(Run(s, calls[..|calls| - 1]), calls[|calls| - 1]))
  }

  predicate CallOnTime(s: State, call: Call) { DateOf(s, call.op) <= call.now || OnAccounts(call.op) }

  lemma SettledIsClear(s: State, now: Time, op: Op)
    requires Settled(s, now) && (DateOf(s, op) <= now || OnAccounts(op))
    ensures StepClear(s, now, op)
  {
  }

  lemma SettledLater(s: State, now: Time, later: Time)
    requires Settled(s, now) && now <= later
    ensures Settled(s, later)
  {
  }

  lemma StepSettles(s: State, now: Time, op: Op)
    requires Sound(s) && Settled(s, now) && Apply(s, now, op).Ok? && (DateOf(s, op) <= now || OnAccounts(op))
    ensures Settled(Apply(s, now, op).value, now)
  {
    var s' := Apply(s, now, op).value;
    if OnAccounts(op) {
      assert s'.movements == s.movements;
    } else {
      StepPosts(s, now, op);
      forall a, t | t >= now ensures Total(s'.movements, a, t) == Total(s'.movements, a, now) {
        assert Total(s.movements, a, t) == Total(s.movements, a, now);
      }
    }
  }

  lemma NextSettles(s: State, from: Time, call: Call)
    requires Invariant(s) && Settled(s, from) && from <= call.now
    requires CallOnTime(s, call)
    ensures Settled(Next(s, call), call.now)
  {
    SettledLater(s, from, call.now);
    if Apply(s, call.now, call.op).Ok? {
      StepSettles(s, call.now, call.op);
    }
  }

  lemma {:induction false} OnTimeRunsSettle(s: State, from: Time, calls: seq<Call>)
    requires Invariant(s) && Settled(s, from) && Timely(from, calls) && OnTime(s, calls)
    ensures Settled(Run(s, calls), Clock(from, calls))
  {
    if |calls| > 0 {
      var front, call := calls[..|calls| - 1], calls[|calls| - 1];
      OnTimeRunsSettle(s, from, front);
      RunsKeepTheInvariant(s, front);
      NextSettles(Run(s, front), Clock(from, front), call);
    }
  }

  lemma {:induction false} OnTimeRunsAreClear(s: State, from: Time, calls: seq<Call>)
    requires Invariant(s) && Settled(s, from) && Timely(from, calls) && OnTime(s, calls)
    ensures ClearRun(s, calls)
  {
    if |calls| > 0 {
      var front, call := calls[..|calls| - 1], calls[|calls| - 1];
      OnTimeRunsAreClear(s, from, front);
      OnTimeRunsSettle(s, from, front);
      SettledLater(Run(s, front), Clock(from, front), call.now);
      SettledIsClear(Run(s, front), call.now, call.op);
    }
  }

  /** As long as nothing is dated ahead of the clock, a flagged account is never negative, after whatever sequence of
      postings, reversals, transfers, reallocations, backdated reconciliations, loans, repayments, refunds and edits. */
  lemma OnTimeRunsAreSafe(s: State, from: Time, calls: seq<Call>)
    requires Invariant(s) && Safe(s, from) && Settled(s, from) && Timely(from, calls) && OnTime(s, calls)
    ensures Safe(Run(s, calls), Clock(from, calls))
  {
    OnTimeRunsAreClear(s, from, calls);
    RunsAreSafe(s, from, calls);
  }

  // ---- Without that condition the promise fails ----

  const AHEAD: Time := 240_000_000

  function Bill(at: Time, version: nat, status: Status): Movement {
    Movement(0, Expense, Outflow, 50, "USD", at, status, None, None, None, version)
  }

  function Wallet(version: nat): Account { Account("USD", 50, 0, true, false, Active, version) }

  function WalletState(version: nat, first: Movement, second: Movement): State {
    EMPTY.(accounts := [Wallet(version)], movements := [first, second])
  }

  lemma WalletBalance(version: nat, first: Movement, second: Movement, t: Time)
    ensures Balance(WalletState(version, first, second), 0, t) == 50 + Entry(0, t)(first) + Entry(0, t)(second)
  {
    SumAppend([], first, Entry(0, t));
    SumAppend([first], second, Entry(0, t));
    assert [] + [first] == [first] && [first] + [second] == [first, second];
  }

  /** A balance of 50 and two drafts of 50, one dated four minutes ahead. Posting that one first and then the one dated
      now passes both checks, and four minutes later the account is at -50 although it may not be negative. */
  lemma DatedAheadOverdraws()
    ensures var s := TwoDrafts();
            var calls := [Call(0, Post(0, 1, None)), Call(0, Post(1, 1, None))];
            && Invariant(s) && Safe(s, 0) && Settled(s, 0) && Timely(0, calls)
            && Flagged(Run(s, calls), 0)
            && Balance(Run(s, calls), 0, 0) == 0
            && Balance(Run(s, calls), 0, AHEAD) == -50
  {
    var s2 := WalletState(3, Bill(AHEAD, 2, Posted), Bill(0, 2, Posted));
    WalletBalance(3, s2.movements[0], s2.movements[1], 0);
    WalletBalance(3, s2.movements[0], s2.movements[1], AHEAD);
    FirstBill();
    SecondBill();
    RunOfTwo(TwoDrafts(), Call(0, Post(0, 1, None)), Call(0, Post(1, 1, None)));
    DraftsOnly();
  }

  lemma FirstBill()
    ensures Next(TwoDrafts(), Call(0, Post(0, 1, None)))
         == WalletState(2, Bill(AHEAD, 2, Posted), Bill(0, 1, Status.Draft))
  {
    WalletBalance(1, TwoDrafts().movements[0], TwoDrafts().movements[1], AHEAD);
  }

  lemma SecondBill()
    ensures Next(WalletState(2, Bill(AHEAD, 2, Posted), Bill(0, 1, Status.Draft)), Call(0, Post(1, 1, None)))
         == WalletState(3, Bill(AHEAD, 2, Posted), Bill(0, 2, Posted))
  {
    WalletBalance(2, Bill(AHEAD, 2, Posted), Bill(0, 1, Status.Draft), 0);
  }

  lemma RunOfTwo(s: State, first: Call, second: Call)
    ensures Run(s, [first, second]) == Next(Next(s, first), second)
  {
    assert [first, second][..1] == [first];
    assert Run(s, [first]) == Next(Run(s, []), first) by { assert [first][..0] == []; }
  }

  function TwoDrafts(): State { WalletState(1, Bill(AHEAD, 1, Status.Draft), Bill(0, 1, Status.Draft)) }

  lemma TwoDraftsAreSound()
    ensures Sound(TwoDrafts())
  {
    var s := TwoDrafts();
    assert Rows(s.accounts, s.movements);
    forall a ensures SumOf(s.movements, EverEntry(a)) == SumOf(s.movements, StandingEntry(a)) {
      SumAgree(s.movements, s.movements, EverEntry(a), StandingEntry(a));
    }
  }

  lemma TwoDraftsAreRecoverable()
    ensures Sharing.RecoverySound(TwoDrafts())
  {
    var s := TwoDrafts();
    forall e: nat | e < |s.movements|
      ensures Sharing.RefundTotal(s, e) + Sharing.ShareTotal(s, e) <= Sharing.Cap(s.movements[e])
    {
      SumZero(s.movements, Sharing.RefundOn(e));
    }
  }

  lemma DraftsOnly()
    ensures Invariant(TwoDrafts()) && Safe(TwoDrafts(), 0) && Settled(TwoDrafts(), 0)
  {
    var s := TwoDrafts();
    TwoDraftsAreSound();
    TwoDraftsAreRecoverable();
    forall a, t ensures Total(s.movements, a, t) == 0 {
      SumZero(s.movements, Entry(a, t));
    }
  }
}
