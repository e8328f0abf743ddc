/** Personal spending against the ledger: what was spent, less what other people owe for it. */
module Spending {
  import opened Common
  import opened Sums
  import opened Ledger
  import opened History
  import opened Debts
  import opened Sharing
  import opened Calendar
  import opened Analytics
  import opened CashFlow

  // ---- The declared meaning ----

  /** What a movement of a kind spends by itself. */
  function Spends(m: Movement): int {
    match m.kind
    case Expense | TransferFee => m.amount
    case Refund => -m.amount
    case _ => 0
  }

  /** What row `i` spends; a reversal takes back what its original spent. */
  function SpentBy(ms: seq<Movement>, i: nat): int
    requires i < |ms|
  {
    if ms[i].kind == Reversal && ms[i].reversalOf.Some? && ms[i].reversalOf.value < |ms|
    then -Spends(ms[ms[i].reversalOf.value]) else Spends(ms[i])
  }

  /** What somebody owes through a share, once its debt was recorded. */
  function Owes(s: State, through: Time, share: Share): int {
    if Visible(s, through, share) then share.amount else 0
  }

  predicate Visible(s: State, through: Time, share: Share) {
    share.active && share.debt < |s.debts| && s.debts[share.debt].createdAt < through
  }

  /** Row `i` is the expense `e`, or undoes it, or has nothing to do with it. */
  function Counts(ms: seq<Movement>, i: nat, e: nat): int
    requires i < |ms|
  {
    if i == e then 1 else if ms[i].kind == Reversal && ms[i].reversalOf == Some(e) then -1 else 0
  }

  function OwesFor(s: State, through: Time, i: nat): Share -> int
    requires i < |s.movements|
  {
    (share: Share) => Owes(s, through, share) * Counts(s.movements, i, share.transaction)
  }

  /** What other people owe for row `i`, the negative of what they owed for the expense that it undoes. */
  function OthersOwe(s: State, through: Time, i: nat): int
    requires i < |s.movements|
  {
    SumOf(s.shares, OwesFor(s, through, i))
  }

  // ---- What the dashboard reads ----

  /** The active shares whose debts were recorded before `through`. */
  function SharesOf(s: State, through: Time, shares: seq<Share>): seq<Share> {
    if |shares| == 0 then [] else
    var last := shares[|shares| - 1];
    SharesOf(s, through, shares[..|shares| - 1])
    + if Visible(s, through, last) then [last] else []
  }

  datatype Shops = Shops(merchant: nat -> Option<nat>, branch: nat -> Option<nat>)

  function FactOf(ms: seq<Movement>, shops: Shops, i: nat): Fact
    requires i < |ms|
  {
    Fact(i, ms[i], shops.merchant(i), shops.branch(i))
  }

  /** The context holds the posted rows and the active shares of the ledger, and shows its currencies as they are. */
  ghost predicate Reads(ctx: Context, s: State, shops: Shops) {
    && ctx.facts == FactsOf(s.movements, ctx.utcTo, shops.merchant, shops.branch)
    && ctx.shares == SharesOf(s, ctx.utcTo, s.shares)
    && forall i :: 0 <= i < |s.movements| ==> ShownAsIs(ctx, s.movements[i].currency)
  }

  /** The row is posted or reversed and dated in the period. */
  predicate Covers(ctx: Context, m: Movement) {
    AffectsBalance(m.status) && ctx.utcFrom <= m.occurredAt < ctx.utcTo
  }

  predicate Dated(m: Movement, through: Time) { AffectsBalance(m.status) && m.occurredAt < through }

  /** The dashboard finds a row by its id exactly when it is posted and dated before the bound. */
  lemma {:induction false} FactsById(ms: seq<Movement>, through: Time, shops: Shops, i: nat)
    ensures var found := ById(FactsOf(ms, through, shops.merchant, shops.branch));
      && (i in found <==> i < |ms| && Dated(ms[i], through))
      && (i in found ==> found[i] == FactOf(ms, shops, i))
  {
    if |ms| > 0 {
      var n, front := |ms| - 1, FactsOf(ms[..|ms| - 1], through, shops.merchant, shops.branch);
      FactsById(ms[..n], through, shops, i);
      if Dated(ms[n], through) {
        assert (front + [FactOf(ms, shops, n)])[..|front|] == front;
      } else {
        assert front + [] == front;
      }
    }
  }

  function OwedAt(s: State, through: Time, e: nat): Share -> int {
    (share: Share) => if share.transaction == e then Owes(s, through, share) else 0
  }

  function OwedFor(s: State, through: Time, e: nat): int { SumOf(s.shares, OwedAt(s, through, e)) }

  lemma {:induction false} SharesAreOwed(s: State, through: Time, shares: seq<Share>, e: nat)
    ensures SumOf(SharesOf(s, through, shares), ShareOn(e)) == SumOf(shares, OwedAt(s, through, e))
  {
    if |shares| > 0 {
      var front, last := shares[..|shares| - 1], shares[|shares| - 1];
      SharesAreOwed(s, through, front, e);
      ShareMoreOwed(SharesOf(s, through, front), last, Visible(s, through, last), e);
    }
  }

  lemma {:induction false} ShareMoreOwed(shares: seq<Share>, last: Share, visible: bool, e: nat)
    ensures SumOf(shares + if visible then [last] else [], ShareOn(e))
         == SumOf(shares, ShareOn(e)) + if visible && last.transaction == e then last.amount else 0
  {
    if visible {
      SumAppend(shares, last, ShareOn(e));
    } else {
      assert shares + [] == shares;
    }
  }

  /** What people owe for an expense is never more than what of it was not refunded. */
  lemma OwedIsBounded(s: State, through: Time, e: nat)
    requires Sound(s) && RecoverySound(s) && e < |s.movements|
    ensures 0 <= OwedFor(s, through, e) <= Cap(s.movements[e])
  {
    forall i | 0 <= i < |s.shares|
      ensures 0 <= OwedAt(s, through, e)(s.shares[i]) <= ActiveShareOn(e)(s.shares[i])
    {
      assert ShareFits(s, s.shares[i]);
    }
    SumNonNegative(s.shares, OwedAt(s, through, e));
    SumAtMost(s.shares, OwedAt(s, through, e), ActiveShareOn(e));
    forall i | 0 <= i < |s.movements| ensures RefundOn(e)(s.movements[i]) >= 0 {
      assert RowFits(s.accounts, s.movements[i]);
    }
    SumNonNegative(s.movements, RefundOn(e));
  }

  // ---- The original of every row is there ----

  /** The row whose category and shop row `i` falls into: the expense of a refund, the original of a reversal, or
      itself. */
  function OriginalOf(ms: seq<Movement>, i: nat): nat
    requires i < |ms|
  {
    if ms[i].kind == Refund && ms[i].parent.Some? then ms[i].parent.value
    else if ms[i].kind == Reversal && ms[i].reversalOf.Some? then ms[i].reversalOf.value
    else i
  }

  lemma OriginalIsEarlier(s: State, i: nat)
    requires Sound(s) && RecoverySound(s) && i < |s.movements| && AffectsBalance(s.movements[i].status)
    ensures OriginalOf(s.movements, i) < |s.movements|
    ensures var m, original := s.movements[i], s.movements[OriginalOf(s.movements, i)];
      && AffectsBalance(original.status) && original.occurredAt <= m.occurredAt
      && (m.kind == Refund ==> m.parent.Some? && original.kind == Expense)
      && (m.kind == Reversal ==> m.reversalOf.Some? && m.amount == original.amount && m.currency == original.currency
                                 && (original.kind == Expense || original.kind == Income))
  {
    var m := s.movements[i];
    assert RowFits(s.accounts, m);
    if m.kind == Refund {
      assert RefundFits(s, m);
    } else if m.kind == Reversal {
      assert Undoes(m, s.movements[m.reversalOf.value]);
    }
  }

  /** No transaction of a sound ledger lacks the original that it speaks about. */
  lemma OriginalIsFound(s: State, ctx: Context, shops: Shops, i: nat)
    requires Sound(s) && RecoverySound(s) && Reads(ctx, s, shops)
    requires i < |s.movements| && Dated(s.movements[i], ctx.utcTo)
    ensures OriginalOf(s.movements, i) < |s.movements|
    ensures var original := FactOf(s.movements, shops, OriginalOf(s.movements, i));
      Effective(ctx, FactOf(s.movements, shops, i)) == Ok((original,
        if s.movements[i].kind == Reversal then Analytics.Reversed(ClassificationFor(original.movement.kind))
        else ClassificationFor(s.movements[i].kind)))
  {
    OriginalIsEarlier(s, i);
    FactsById(s.movements, ctx.utcTo, shops, OriginalOf(s.movements, i));
  }

  // ---- What one row spends ----

  /** A share speaks about an expense, so a row that is neither an expense nor undoes one has nothing owed for it. */
  lemma OthersOweForExpenses(s: State, through: Time, i: nat)
    requires Sound(s) && RecoverySound(s) && i < |s.movements| && AffectsBalance(s.movements[i].status)
    ensures OriginalOf(s.movements, i) < |s.movements|
    ensures var m, o := s.movements[i], OriginalOf(s.movements, i);
      OthersOwe(s, through, i)
      == if m.kind == Expense then OwedFor(s, through, i)
         else if m.kind == Reversal && s.movements[o].kind == Expense then -OwedFor(s, through, o)
         else 0
  {
    var m, o := s.movements[i], OriginalOf(s.movements, i);
    OriginalIsEarlier(s, i);
    forall k | 0 <= k < |s.shares| ensures s.movements[s.shares[k].transaction].kind == Expense {
      assert ShareFits(s, s.shares[k]);
    }
    if m.kind == Expense {
      SumAgree(s.shares, s.shares, OwesFor(s, through, i), OwedAt(s, through, i));
    } else if m.kind == Reversal && s.movements[o].kind == Expense {
      SumScaled(s.shares, OwesFor(s, through, i), OwedAt(s, through, o), -1);
    } else {
      SumZero(s.shares, OwesFor(s, through, i));
    }
  }

  /** What a part comes to when its amounts are shown as they are. */
  lemma PartSpends(ctx: Context, f: Fact, original: Fact, c: Classification)
    requires Effective(ctx, f) == Ok((original, c)) && PartOf(ctx, f).Ok?
    requires ShownAsIs(ctx, f.movement.currency) && ShownAsIs(ctx, original.movement.currency)
    ensures PartOf(ctx, f).value.Some?
    ensures var part := PartOf(ctx, f).value.value;
      && part.gross == f.movement.amount * c.spending
      && part.personal == part.gross
         - (if original.movement.kind == Expense && (f.movement.kind == Expense || f.movement.kind == Reversal)
            then SharedOf(ctx, original.id) * c.spending else 0)
      && part.category == original.movement.category
      && part.merchant == original.merchant && part.branch == original.branch
  {
  }

  /** Nothing is left out silently: when an expense or its reversal reports no missing rate, its amount and what is owed
      for it have both been converted at its own date. */
  lemma NothingIsLeftOutSilently(ctx: Context, f: Fact, original: Fact, c: Classification)
    requires f.movement.kind == Expense || f.movement.kind == Reversal
    requires Effective(ctx, f) == Ok((original, c)) && original.movement.kind == Expense
    requires PartOf(ctx, f).Ok? && MissingOf(ctx, f) == {}
    ensures PartOf(ctx, f).value.Some?
    ensures var part, m, shared := PartOf(ctx, f).value.value, f.movement, SumOf(ctx.shares, ShareOn(original.id));
      var sign := if m.kind == Expense then 1 else -1;
      && ctx.convert(m.amount, m.currency, m.occurredAt) == Some(sign * part.gross)
      && (shared != 0 ==>
           ctx.convert(shared, original.movement.currency, m.occurredAt) == Some(sign * (part.gross - part.personal)))
      && (shared == 0 ==> part.personal == part.gross)
  {
  }

  /** Whatever kind a row of the period has: gross spending is what it spends, personal spending is that less what other
      people owe for it, and it falls into the category and the shop of its original. */
  lemma RowSpends(s: State, ctx: Context, shops: Shops, i: nat)
    requires Sound(s) && RecoverySound(s) && Reads(ctx, s, shops)
    requires i < |s.movements| && Dated(s.movements[i], ctx.utcTo)
    requires PartOf(ctx, FactOf(s.movements, shops, i)).Ok?
    ensures OriginalOf(s.movements, i) < |s.movements|
    ensures var part, o := PartOf(ctx, FactOf(s.movements, shops, i)).value, OriginalOf(s.movements, i);
      && part.Some?
      && part.value.gross == SpentBy(s.movements, i)
      && part.value.personal == SpentBy(s.movements, i) - OthersOwe(s, ctx.utcTo, i)
      && part.value.category == s.movements[o].category
      && part.value.merchant == shops.merchant(o) && part.value.branch == shops.branch(o)
  {
    OthersOweForExpenses(s, ctx.utcTo, i);
    var c := RowIsClassified(s, ctx, shops, i);
    PartOfRow(s, ctx, shops, i, OriginalOf(s.movements, i), c);
  }

  /** How a row counts: an expense fully, its reversal against it. */
  lemma RowIsClassified(s: State, ctx: Context, shops: Shops, i: nat) returns (c: Classification)
    requires Sound(s) && RecoverySound(s) && Reads(ctx, s, shops)
    requires i < |s.movements| && Dated(s.movements[i], ctx.utcTo)
    ensures OriginalOf(s.movements, i) < |s.movements|
    ensures var m, o := s.movements[i], OriginalOf(s.movements, i);
      && Effective(ctx, FactOf(s.movements, shops, i)) == Ok((FactOf(s.movements, shops, o), c))
      && SpentBy(s.movements, i) == m.amount * c.spending
      && (m.kind == Expense ==> o == i && c.spending == 1)
      && (m.kind == Reversal && s.movements[o].kind == Expense ==> c.spending == -1)
  {
    OriginalIsEarlier(s, i);
    OriginalIsFound(s, ctx, shops, i);
    c := Effective(ctx, FactOf(s.movements, shops, i)).value.1;
  }

  lemma PartOfRow(s: State, ctx: Context, shops: Shops, i: nat, o: nat, c: Classification)
    requires Reads(ctx, s, shops) && i < |s.movements| && o < |s.movements|
    requires Effective(ctx, FactOf(s.movements, shops, i)) == Ok((FactOf(s.movements, shops, o), c))
    requires PartOf(ctx, FactOf(s.movements, shops, i)).Ok?
    ensures PartOf(ctx, FactOf(s.movements, shops, i)).value.Some?
    ensures var part, m := PartOf(ctx, FactOf(s.movements, shops, i)).value.value, s.movements[i];
      && part.gross == m.amount * c.spending
      && part.gross - part.personal
         == (if s.movements[o].kind == Expense && (m.kind == Expense || m.kind == Reversal)
             then OwedFor(s, ctx.utcTo, o) * c.spending else 0)
      && part.category == s.movements[o].category
      && part.merchant == shops.merchant(o) && part.branch == shops.branch(o)
  {
    SharesAreOwed(s, ctx.utcTo, s.shares, o);
    assert ShownAsIs(ctx, s.movements[i].currency) && ShownAsIs(ctx, s.movements[o].currency);
    PartSpends(ctx, FactOf(s.movements, shops, i), FactOf(s.movements, shops, o), c);
  }

  /** An expense counts for what its owner bears of it: never less than nothing, never more than was spent. */
  lemma ExpenseIsPersonal(s: State, ctx: Context, shops: Shops, i: nat)
    requires Sound(s) && RecoverySound(s) && Reads(ctx, s, shops)
    requires i < |s.movements| && Dated(s.movements[i], ctx.utcTo) && s.movements[i].kind == Expense
    requires PartOf(ctx, FactOf(s.movements, shops, i)).Ok?
    ensures var part := PartOf(ctx, FactOf(s.movements, shops, i)).value;
      && part.Some? && part.value.gross == s.movements[i].amount
      && part.value.personal == s.movements[i].amount - OwedFor(s, ctx.utcTo, i)
      && 0 <= part.value.personal <= part.value.gross
  {
    RowSpends(s, ctx, shops, i);
    OthersOweForExpenses(s, ctx.utcTo, i);
    OwedIsBounded(s, ctx.utcTo, i);
  }

  lemma RefundIsPersonal(s: State, ctx: Context, shops: Shops, i: nat)
    requires Sound(s) && RecoverySound(s) && Reads(ctx, s, shops)
    requires i < |s.movements| && Dated(s.movements[i], ctx.utcTo) && s.movements[i].kind == Refund
    requires PartOf(ctx, FactOf(s.movements, shops, i)).Ok?
    ensures s.movements[i].parent.Some? && s.movements[i].parent.value < |s.movements|
    ensures var part, e := PartOf(ctx, FactOf(s.movements, shops, i)).value, s.movements[i].parent.value;
      && part.Some? && part.value.gross == -s.movements[i].amount && part.value.personal == -s.movements[i].amount
      && part.value.category == s.movements[e].category && part.value.merchant == shops.merchant(e)
  {
    OriginalIsEarlier(s, i);
    RowSpends(s, ctx, shops, i);
    OthersOweForExpenses(s, ctx.utcTo, i);
  }

  /** The reversal of an expense takes back exactly what its owner bore of it. */
  lemma ReversalIsPersonal(s: State, ctx: Context, shops: Shops, i: nat, e: nat)
    requires Sound(s) && RecoverySound(s) && Reads(ctx, s, shops)
    requires i < |s.movements| && Dated(s.movements[i], ctx.utcTo)
    requires e < |s.movements| && s.movements[e].kind == Expense && s.movements[i].reversalOf == Some(e)
    requires PartOf(ctx, FactOf(s.movements, shops, i)).Ok?
    ensures var part := PartOf(ctx, FactOf(s.movements, shops, i)).value;
      && part.Some? && part.value.gross == -s.movements[e].amount
      && part.value.personal == -(s.movements[e].amount - OwedFor(s, ctx.utcTo, e))
      && part.value.category == s.movements[e].category && part.value.merchant == shops.merchant(e)
  {
    assert RowFits(s.accounts, s.movements[i]);
    OriginalIsEarlier(s, i);
    RowSpends(s, ctx, shops, i);
    OthersOweForExpenses(s, ctx.utcTo, i);
  }

  // ---- The dashboard of a sound ledger never fails ----

  /** The buckets are those of the period and the local days of its rows lie in them. */
  ghost predicate Bucketed(ctx: Context, s: State, to: Date) {
    && ctx.buckets != [] && GapFree(ctx.buckets, ctx.granularity) && ValidDate(to)
    && (forall i :: 0 <= i < |ctx.buckets| ==> IsBucketStart(ctx.buckets[i], ctx.granularity))
    && Before(to, NextBucket(ctx.buckets[|ctx.buckets| - 1], ctx.granularity))
    && forall i :: 0 <= i < |s.movements| && Covers(ctx, s.movements[i]) ==>
         var day := ctx.dateOf(s.movements[i].occurredAt);
         ValidDate(day) && !Before(day, ctx.buckets[0]) && !Before(to, day)
  }

  lemma RowHasPart(s: State, ctx: Context, shops: Shops, to: Date, i: nat)
    requires Sound(s) && RecoverySound(s) && Reads(ctx, s, shops) && Bucketed(ctx, s, to)
    requires i < |s.movements| && Covers(ctx, s.movements[i])
    ensures PartOf(ctx, FactOf(s.movements, shops, i)).Ok?
  {
    OriginalIsFound(s, ctx, shops, i);
    PeriodHasBuckets(ctx, FactOf(s.movements, shops, i), to);
  }

  lemma {:induction false} FactsAreFactsOf(ms: seq<Movement>, through: Time, shops: Shops, f: Fact)
    requires f in FactsOf(ms, through, shops.merchant, shops.branch)
    ensures f.id < |ms| && f == FactOf(ms, shops, f.id) && Dated(ms[f.id], through)
  {
    var n := |ms| - 1;
    if f in FactsOf(ms[..n], through, shops.merchant, shops.branch) {
      FactsAreFactsOf(ms[..n], through, shops, f);
    }
  }

  /** In every state that keeps the ledger's rules the pass succeeds over any period: no refund and no reversal lacks
      its original, no row lacks its bucket. */
  lemma DashboardNeverFails(s: State, ctx: Context, shops: Shops, to: Date, error: Error)
    requires Sound(s) && RecoverySound(s) && Reads(ctx, s, shops) && Bucketed(ctx, s, to)
    ensures !Fails(PartsOf(ctx), PeriodFacts(ctx, ctx.facts), error)
  {
    var ts := PeriodFacts(ctx, ctx.facts);
    PeriodFactsAre(ctx, ctx.facts);
    forall k | 0 <= k < |ts| ensures PartsOf(ctx)(ts[k]).Ok? {
      assert ts[k] in ts;
      FactsAreFactsOf(s.movements, ctx.utcTo, shops, ts[k]);
      RowHasPart(s, ctx, shops, to, ts[k].id);
    }
  }

  // ---- Over a period ----

  /** A figure of the facts, read at the rows of the table. */
  function AtRow(ctx: Context, ms: seq<Movement>, shops: Shops, figure: Fact -> int): nat -> int {
    (i: nat) => if i < |ms| && Covers(ctx, ms[i]) then figure(FactOf(ms, shops, i)) else 0
  }

  function PeriodOf(ctx: Context, ms: seq<Movement>, shops: Shops): seq<Fact> {
    PeriodFacts(ctx, FactsOf(ms, ctx.utcTo, shops.merchant, shops.branch))
  }

  lemma {:induction false} PeriodOfOneMore(ctx: Context, ms: seq<Movement>, shops: Shops)
    requires |ms| > 0
    ensures var n := |ms| - 1;
      PeriodOf(ctx, ms, shops)
      == PeriodOf(ctx, ms[..n], shops) + if Covers(ctx, ms[n]) then [FactOf(ms, shops, n)] else []
  {
    var n := |ms| - 1;
    var front := FactsOf(ms[..n], ctx.utcTo, shops.merchant, shops.branch);
    if Dated(ms[n], ctx.utcTo) {
      assert (front + [FactOf(ms, shops, n)])[..|front|] == front;
    } else {
      assert front + [] == front;
    }
  }

  lemma {:induction false} PeriodByRows(ctx: Context, ms: seq<Movement>, shops: Shops, figure: Fact -> int)
    ensures SumOf(PeriodOf(ctx, ms, shops), figure) == SumOf(Upto(|ms|), AtRow(ctx, ms, shops, figure))
  {
    if |ms| > 0 {
      var n, front := |ms| - 1, ms[..|ms| - 1];
      PeriodByRows(ctx, front, shops, figure);
      PeriodOfOneMore(ctx, ms, shops);
      UptoIs(n);
      forall k | 0 <= k < n
        ensures AtRow(ctx, front, shops, figure)(Upto(n)[k]) == AtRow(ctx, ms, shops, figure)(Upto(n)[k])
      {
        assert Upto(n)[k] == k;
        AtEarlierRow(ctx, ms, shops, figure, k);
      }
      SumAgree(Upto(n), Upto(n), AtRow(ctx, front, shops, figure), AtRow(ctx, ms, shops, figure));
      SumAppend<nat>(Upto(n), n, AtRow(ctx, ms, shops, figure));
      FigureOfOneMore(PeriodOf(ctx, front, shops), FactOf(ms, shops, n), Covers(ctx, ms[n]), figure);
    }
  }

  lemma {:induction false} AtEarlierRow(ctx: Context, ms: seq<Movement>, shops: Shops, figure: Fact -> int, k: nat)
    requires k < |ms| - 1
    ensures AtRow(ctx, ms[..|ms| - 1], shops, figure)(k) == AtRow(ctx, ms, shops, figure)(k)
  {
    var front := ms[..|ms| - 1];
    assert front[k] == ms[k];
    assert Covers(ctx, ms[k]) ==> FactOf(front, shops, k) == FactOf(ms, shops, k);
  }

  lemma {:induction false} FigureOfOneMore(ts: seq<Fact>, f: Fact, covered: bool, figure: Fact -> int)
    ensures SumOf(ts + if covered then [f] else [], figure) == SumOf(ts, figure) + if covered then figure(f) else 0
  {
    if covered {
      SumAppend(ts, f, figure);
    } else {
      assert ts + [] == ts;
    }
  }

  lemma {:induction false} CoveredIsIn(ctx: Context, ms: seq<Movement>, shops: Shops, i: nat)
    requires i < |ms| && Covers(ctx, ms[i])
    ensures FactOf(ms, shops, i) in PeriodOf(ctx, ms, shops)
  {
    PeriodOfOneMore(ctx, ms, shops);
    if i < |ms| - 1 {
      CoveredIsIn(ctx, ms[..|ms| - 1], shops, i);
    }
  }

  /** What the rows of the period spend. */
  function SpentIn(s: State, ctx: Context): nat -> int {
    (i: nat) => if i < |s.movements| && Covers(ctx, s.movements[i]) then SpentBy(s.movements, i) else 0
  }

  function OthersOweIn(s: State, ctx: Context): nat -> int {
    (i: nat) => if i < |s.movements| && Covers(ctx, s.movements[i]) then OthersOwe(s, ctx.utcTo, i) else 0
  }

  /** The figures of a dashboard that passed over the period, row by row. */
  lemma FiguresByRows(s: State, ctx: Context, shops: Shops, d: Dashboard, missing: set<Currency>)
    requires Sound(s) && RecoverySound(s) && Reads(ctx, s, shops)
    requires Passed(PartsOf(ctx), GapsOf(ctx), PeriodFacts(ctx, ctx.facts), d, missing)
    ensures d.gross == SumOf(Upto(|s.movements|), SpentIn(s, ctx))
    ensures d.gross - d.personal == SumOf(Upto(|s.movements|), OthersOweIn(s, ctx))
  {
    var ms, n, parts := s.movements, |s.movements|, PartsOf(ctx);
    var gross := AtRow(ctx, ms, shops, Figure(parts, Gross()));
    var personal := AtRow(ctx, ms, shops, Figure(parts, Personal()));
    PeriodByRows(ctx, ms, shops, Figure(parts, Gross()));
    PeriodByRows(ctx, ms, shops, Figure(parts, Personal()));
    UptoIs(n);
    forall k | 0 <= k < |Upto(n)|
      ensures gross(Upto(n)[k]) == SpentIn(s, ctx)(Upto(n)[k])
      ensures gross(Upto(n)[k]) == personal(Upto(n)[k]) + OthersOweIn(s, ctx)(Upto(n)[k])
    {
      RowFigures(s, ctx, shops, d, missing, k);
    }
    SumAgree(Upto(n), Upto(n), gross, SpentIn(s, ctx));
    SumPlus(Upto(n), personal, OthersOweIn(s, ctx), gross);
  }

  lemma RowFigures(
      s: State, ctx: Context, shops: Shops, d: Dashboard, missing: set<Currency>, i: nat)
    requires Sound(s) && RecoverySound(s) && Reads(ctx, s, shops) && i < |s.movements|
    requires Passed(PartsOf(ctx), GapsOf(ctx), PeriodFacts(ctx, ctx.facts), d, missing)
    ensures AtRow(ctx, s.movements, shops, Figure(PartsOf(ctx), Gross()))(i) == SpentIn(s, ctx)(i)
    ensures AtRow(ctx, s.movements, shops, Figure(PartsOf(ctx), Personal()))(i)
         == SpentIn(s, ctx)(i) - OthersOweIn(s, ctx)(i)
  {
    if Covers(ctx, s.movements[i]) {
      var f := FactOf(s.movements, shops, i);
      CoveredIsIn(ctx, s.movements, shops, i);
      var ts := PeriodFacts(ctx, ctx.facts);
      var k :| 0 <= k < |ts| && ts[k] == f;
      assert PartsOf(ctx)(ts[k]).Ok?;
      RowSpends(s, ctx, shops, i);
    }
  }

  /** The expense is undone by a row of the period. */
  predicate UndoneIn(ctx: Context, ms: seq<Movement>, e: nat) {
    exists j :: 0 <= j < |ms| && ms[j].kind == Reversal && ms[j].reversalOf == Some(e) && Covers(ctx, ms[j])
  }

  /** How often the period counts an expense: once if it lies in it, less once if it was undone in it. */
  function Standing(ctx: Context, ms: seq<Movement>, e: nat): int {
    (if e < |ms| && Covers(ctx, ms[e]) then 1 else 0) - (if UndoneIn(ctx, ms, e) then 1 else 0)
  }

  function OwedIn(s: State, ctx: Context): Share -> int {
    (share: Share) => Owes(s, ctx.utcTo, share) * Standing(ctx, s.movements, share.transaction)
  }

  function ShareAtRow(s: State, ctx: Context): (Share, nat) -> int {
    (share: Share, i: nat) =>
      if i < |s.movements| && Covers(ctx, s.movements[i])
      then Owes(s, ctx.utcTo, share) * Counts(s.movements, i, share.transaction) else 0
  }

  function ExpenseTerm(ctx: Context, ms: seq<Movement>, e: nat): nat -> int {
    (i: nat) => if i < |ms| && Covers(ctx, ms[i]) && i == e then 1 else 0
  }

  function ReversalTerm(ctx: Context, ms: seq<Movement>, e: nat): nat -> int {
    (i: nat) => if i < |ms| && Covers(ctx, ms[i]) && i != e && ms[i].kind == Reversal && ms[i].reversalOf == Some(e)
                then -1 else 0
  }

  function BothTerms(ctx: Context, ms: seq<Movement>, e: nat): nat -> int {
    (i: nat) => if i < |ms| && Covers(ctx, ms[i]) then Counts(ms, i, e) else 0
  }

  /** An expense has one row, and at most one that undoes it. */
  lemma StandingCounts(s: State, ctx: Context, e: nat)
    requires Sound(s) && e < |s.movements| && s.movements[e].kind == Expense
    ensures SumOf(Upto(|s.movements|), BothTerms(ctx, s.movements, e)) == Standing(ctx, s.movements, e)
  {
    var ms, n := s.movements, |s.movements|;
    UptoIs(n);
    SumSingle<nat>(Upto(n), e, ExpenseTerm(ctx, ms, e));
    ReversalsCount(s, ctx, e);
    SumPlus(Upto(n), ExpenseTerm(ctx, ms, e), ReversalTerm(ctx, ms, e), BothTerms(ctx, ms, e));
  }

  lemma ReversalsCount(s: State, ctx: Context, e: nat)
    requires Sound(s) && e < |s.movements| && s.movements[e].kind == Expense
    ensures SumOf(Upto(|s.movements|), ReversalTerm(ctx, s.movements, e))
         == if UndoneIn(ctx, s.movements, e) then -1 else 0
  {
    var ms, n := s.movements, |s.movements|;
    UptoIs(n);
    if UndoneIn(ctx, ms, e) {
      var j :| 0 <= j < n && ms[j].kind == Reversal && ms[j].reversalOf == Some(e) && Covers(ctx, ms[j]);
      forall i | 0 <= i < n && i != j ensures ms[i].reversalOf != Some(e) {
        OneReversal(s, i, j);
      }
      SumSingle<nat>(Upto(n), j, ReversalTerm(ctx, ms, e));
    } else {
      SumZero<nat>(Upto(n), ReversalTerm(ctx, ms, e));
    }
  }

  lemma OneReversal(s: State, i: nat, j: nat)
    requires Sound(s) && i < |s.movements| && j < |s.movements| && i != j && s.movements[j].reversalOf.Some?
    ensures s.movements[i].reversalOf != s.movements[j].reversalOf
  {
  }

  lemma ShareOverRows(s: State, ctx: Context, share: Share)
    requires Sound(s) && share.transaction < |s.movements| && s.movements[share.transaction].kind == Expense
    ensures RowSum(ShareAtRow(s, ctx), Upto(|s.movements|))(share) == OwedIn(s, ctx)(share)
  {
    var n := |s.movements|;
    StandingCounts(s, ctx, share.transaction);
    SumScaled(Upto(n), Row(ShareAtRow(s, ctx), share), BothTerms(ctx, s.movements, share.transaction),
              Owes(s, ctx.utcTo, share));
  }

  lemma SharesOfRow(s: State, ctx: Context, i: nat)
    requires i < |s.movements|
    ensures ColumnSum(ShareAtRow(s, ctx), s.shares)(i) == OthersOweIn(s, ctx)(i)
  {
    if Covers(ctx, s.movements[i]) {
      SumAgree(s.shares, s.shares, Column(ShareAtRow(s, ctx), i), OwesFor(s, ctx.utcTo, i));
    } else {
      SumZero(s.shares, Column(ShareAtRow(s, ctx), i));
    }
  }

  /** Over any period gross spending is what its expenses, fees, refunds and reversals spent, and what it exceeds
      personal spending by is what other people owe: each share once for an expense of the period, less once for an
      expense that was undone in it. */
  lemma PersonalSpendingIsWhatIsBorne(
      s: State, ctx: Context, shops: Shops, d: Dashboard, missing: set<Currency>)
    requires Sound(s) && RecoverySound(s) && Reads(ctx, s, shops)
    requires Passed(PartsOf(ctx), GapsOf(ctx), PeriodFacts(ctx, ctx.facts), d, missing)
    ensures d.gross == SumOf(Upto(|s.movements|), SpentIn(s, ctx))
    ensures d.gross - d.personal == SumOf(s.shares, OwedIn(s, ctx))
  {
    var n, g := |s.movements|, ShareAtRow(s, ctx);
    FiguresByRows(s, ctx, shops, d, missing);
    SumSwap(s.shares, Upto(n), g);
    UptoIs(n);
    forall k | 0 <= k < |s.shares| ensures RowSum(g, Upto(n))(s.shares[k]) == OwedIn(s, ctx)(s.shares[k]) {
      assert ShareFits(s, s.shares[k]);
      ShareOverRows(s, ctx, s.shares[k]);
    }
    SumAgree(s.shares, s.shares, RowSum(g, Upto(n)), OwedIn(s, ctx));
    forall i: nat | i < n ensures ColumnSum(g, s.shares)(i) == OthersOweIn(s, ctx)(i) {
      SharesOfRow(s, ctx, i);
    }
    SumAgree(Upto(n), Upto(n), ColumnSum(g, s.shares), OthersOweIn(s, ctx));
  }
}
