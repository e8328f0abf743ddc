/** The dashboard's cash figures against the balances of the ledger. */
module CashFlow {
  import opened Common
  import opened Sums
  import opened Ledger
  import opened History
  import opened Calendar
  import opened Analytics

  /** The posted and reversed rows dated before `through`, as the dashboard's query returns them, with the shop of
      each. */
  function FactsOf(
      ms: seq<Movement>, through: Time, merchant: nat -> Option<nat>, branch: nat -> Option<nat>)
    : seq<Fact>
  {
    if |ms| == 0 then [] else
    var i, m := |ms| - 1, ms[|ms| - 1];
    FactsOf(ms[..i], through, merchant, branch)
    + if AffectsBalance(m.status) && m.occurredAt < through then [Fact(i, m, merchant(i), branch(i))] else []
  }

  /** What a row brings to an account between the two bounds of the period. */
  function InPeriodOn(ctx: Context, a: nat, m: Movement): int {
    if m.account == a && AffectsBalance(m.status) && ctx.utcFrom <= m.occurredAt < ctx.utcTo then Signed(m) else 0
  }

  function PeriodEntry(ctx: Context, a: nat): Movement -> int { (m: Movement) => InPeriodOn(ctx, a, m) }

  function OfFact(ctx: Context, a: nat): Fact -> int { (f: Fact) => InPeriodOn(ctx, a, f.movement) }

  /** The change of a balance over the period. */
  lemma PeriodChange(s: State, ctx: Context, a: nat)
    requires a < |s.accounts| && ctx.utcFrom <= ctx.utcTo
    ensures Balance(s, a, ctx.utcTo - 1) - Balance(s, a, ctx.utcFrom - 1) == SumOf(s.movements, PeriodEntry(ctx, a))
  {
    SumPlus(s.movements, Entry(a, ctx.utcFrom - 1), PeriodEntry(ctx, a), Entry(a, ctx.utcTo - 1));
  }

  lemma {:induction false} PeriodOfFacts(ctx: Context, facts: seq<Fact>, a: nat)
    ensures SumOf(PeriodFacts(ctx, facts), OfFact(ctx, a)) == SumOf(facts, OfFact(ctx, a))
  {
    if |facts| > 0 {
      var front, last := facts[..|facts| - 1], facts[|facts| - 1];
      PeriodOfFacts(ctx, front, a);
      SumAppend(PeriodFacts(ctx, front), last, OfFact(ctx, a));
      assert PeriodFacts(ctx, front) + [] == PeriodFacts(ctx, front);
      if !InPeriod(ctx, last) {
        assert InPeriodOn(ctx, a, last.movement) == 0;
        assert PeriodFacts(ctx, facts) == PeriodFacts(ctx, front);
      }
    }
  }

  lemma {:induction false} FactsOfRows(
      ctx: Context, ms: seq<Movement>, merchant: nat -> Option<nat>, branch: nat -> Option<nat>, a: nat)
    ensures SumOf(FactsOf(ms, ctx.utcTo, merchant, branch), OfFact(ctx, a)) == SumOf(ms, PeriodEntry(ctx, a))
  {
    if |ms| > 0 {
      var i, m := |ms| - 1, ms[|ms| - 1];
      FactsOfRows(ctx, ms[..i], merchant, branch, a);
      SumAppend(FactsOf(ms[..i], ctx.utcTo, merchant, branch), Fact(i, m, merchant(i), branch(i)), OfFact(ctx, a));
      assert FactsOf(ms[..i], ctx.utcTo, merchant, branch) + [] == FactsOf(ms[..i], ctx.utcTo, merchant, branch);
    }
  }

  /** The amounts of a currency are shown as they are. */
  ghost predicate ShownAsIs(ctx: Context, currency: Currency) {
    forall x, at :: ctx.convert(x, currency, at) == Some(x)
  }

  /** What flows in, less what flows out, plus what was corrected. */
  function Flow(): Part -> int { (p: Part) => p.cashIn - p.cashOut + p.adjustment }

  /** Whatever the kind of a transaction, the cash figures and the corrections of its part are its effect on its
      account. */
  lemma PartIsMovement(ctx: Context, f: Fact)
    requires PartOf(ctx, f).Ok? && ShownAsIs(ctx, f.movement.currency)
    ensures PartOf(ctx, f).value.Some?
    ensures Flow()(PartOf(ctx, f).value.value) == Signed(f.movement)
    ensures PartOf(ctx, f).value.value.account == f.movement.account
  {
  }

  function AccountKey(ctx: Context): Fact -> nat { KeyOf(PartsOf(ctx), ByAccount(), 0) }

  /** The account rows of the dashboard, and the corrections, add up to the flow of the account. */
  lemma FlowOfAccount(ctx: Context, ts: seq<Fact>, a: nat)
    ensures SumOf(ts, Keyed(AccountKey(ctx), Figure(PartsOf(ctx), CashIn()), a))
          - SumOf(ts, Keyed(AccountKey(ctx), Figure(PartsOf(ctx), CashOut()), a))
          + SumOf(ts, Keyed(AccountKey(ctx), Figure(PartsOf(ctx), Adjusted()), a))
         == SumOf(ts, FlowOn(ctx, a))
  {
    var key, parts := AccountKey(ctx), PartsOf(ctx);
    var cashIn, cashOut := Keyed(key, Figure(parts, CashIn()), a), Keyed(key, Figure(parts, CashOut()), a);
    var adjusted, flow := Keyed(key, Figure(parts, Adjusted()), a), Keyed(key, Figure(parts, Flow()), a);
    var inAndAdjusted := (f: Fact) => cashIn(f) + adjusted(f);
    SumPlus(ts, cashIn, adjusted, inAndAdjusted);
    SumPlus(ts, cashOut, flow, inAndAdjusted);
  }

  function FlowOn(ctx: Context, a: nat): Fact -> int { Keyed(AccountKey(ctx), Figure(PartsOf(ctx), Flow()), a) }

  lemma FlowOfFact(ctx: Context, f: Fact, a: nat)
    requires PartOf(ctx, f).Ok? && AffectsBalance(f.movement.status) && InPeriod(ctx, f)
    requires ShownAsIs(ctx, f.movement.currency)
    ensures FlowOn(ctx, a)(f) == OfFact(ctx, a)(f)
  {
    PartIsMovement(ctx, f);
    var p := PartOf(ctx, f).value.value;
    var key, figure := AccountKey(ctx), Figure(PartsOf(ctx), Flow());
    assert PartsOf(ctx)(f) == Ok(Some(p));
    assert key(f) == p.account && figure(f) == Flow()(p);
    assert FlowOn(ctx, a)(f) == if key(f) == a then figure(f) else 0;
    assert OfFact(ctx, a)(f) == if f.movement.account == a then Signed(f.movement) else 0;
  }

  lemma FlowIsMovement(ctx: Context, ts: seq<Fact>, a: nat)
    requires forall i :: 0 <= i < |ts| ==>
      && PartsOf(ctx)(ts[i]).Ok? && AffectsBalance(ts[i].movement.status) && InPeriod(ctx, ts[i])
      && ShownAsIs(ctx, ts[i].movement.currency)
    ensures SumOf(ts, FlowOn(ctx, a)) == SumOf(ts, OfFact(ctx, a))
  {
    var flow, entry := FlowOn(ctx, a), OfFact(ctx, a);
    forall i | 0 <= i < |ts| ensures flow(ts[i]) == entry(ts[i]) {
      assert PartsOf(ctx)(ts[i]).Ok?;
      FlowOfFact(ctx, ts[i], a);
    }
    SumAgree(ts, ts, flow, entry);
  }

  lemma {:induction false} FactsAreRows(
      ms: seq<Movement>, through: Time, merchant: nat -> Option<nat>, branch: nat -> Option<nat>)
    ensures forall f :: f in FactsOf(ms, through, merchant, branch) ==>
      f.movement in ms && AffectsBalance(f.movement.status)
  {
    if |ms| > 0 {
      FactsAreRows(ms[..|ms| - 1], through, merchant, branch);
    }
  }

  lemma {:induction false} PeriodFactsAre(ctx: Context, facts: seq<Fact>)
    ensures forall f :: f in PeriodFacts(ctx, facts) ==> f in facts && InPeriod(ctx, f)
  {
    if |facts| > 0 {
      PeriodFactsAre(ctx, facts[..|facts| - 1]);
    }
  }

  /** Over any period, inflow less outflow of an account's row, corrected by its reconciliations, is exactly the change
      of its balance: no movement is counted twice, left out, or counted with the wrong sign. */
  lemma AccountRowsExplainBalances(
      s: State, ctx: Context, merchant: nat -> Option<nat>, branch: nat -> Option<nat>, d: Dashboard,
      missing: set<Currency>, a: nat)
    requires a < |s.accounts| && ctx.utcFrom <= ctx.utcTo
    requires ctx.facts == FactsOf(s.movements, ctx.utcTo, merchant, branch)
    requires Passed(PartsOf(ctx), GapsOf(ctx), PeriodFacts(ctx, ctx.facts), d, missing)
    requires forall i :: 0 <= i < |s.movements| ==> ShownAsIs(ctx, s.movements[i].currency)
    ensures At(d.inflows, a) - At(d.outflows, a)
          + SumOf(PeriodFacts(ctx, ctx.facts), Keyed(AccountKey(ctx), Figure(PartsOf(ctx), Adjusted()), a))
         == Balance(s, a, ctx.utcTo - 1) - Balance(s, a, ctx.utcFrom - 1)
  {
    var ts := PeriodFacts(ctx, ctx.facts);
    FactsAreRows(s.movements, ctx.utcTo, merchant, branch);
    PeriodFactsAre(ctx, ctx.facts);
    forall i | 0 <= i < |ts|
      ensures AffectsBalance(ts[i].movement.status) && InPeriod(ctx, ts[i]) && ShownAsIs(ctx, ts[i].movement.currency)
    {
      assert ts[i] in ts && ts[i].movement in s.movements;
    }
    RowsOfAccount(ctx, ts, d, a);
    FlowOfAccount(ctx, ts, a);
    FlowIsMovement(ctx, ts, a);
    PeriodOfFacts(ctx, ctx.facts, a);
    FactsOfRows(ctx, s.movements, merchant, branch, a);
    PeriodChange(s, ctx, a);
  }

  lemma RowsOfAccount(ctx: Context, ts: seq<Fact>, d: Dashboard, a: nat)
    requires Fits(PartsOf(ctx), ts, d)
    ensures At(d.inflows, a) == SumOf(ts, Keyed(AccountKey(ctx), Figure(PartsOf(ctx), CashIn()), a))
    ensures At(d.outflows, a) == SumOf(ts, Keyed(AccountKey(ctx), Figure(PartsOf(ctx), CashOut()), a))
  {
  }

  // ---- Income and spending against cash ----

  predicate Earning(kind: Kind) { kind == Expense || kind == Income || kind == TransferFee || kind == Refund }

  /** Income less gross spending is the cash that expenses, incomes, fees, refunds and their reversals moved; no other
      kind of movement counts as either. */
  lemma EarnedLessSpentIsCash(ctx: Context, f: Fact)
    requires PartOf(ctx, f).Ok? && PartOf(ctx, f).value.Some? && f.movement.kind != Reversal
    requires EffectCoherent(f.movement.kind, f.movement.effect)
    ensures var p := PartOf(ctx, f).value.value;
      if Earning(f.movement.kind) then p.income - p.gross == p.cashIn - p.cashOut else p.income == 0 && p.gross == 0
  {
  }

  /** A reversal undoes the income or the spending of its original, in cash and in the figures alike. */
  lemma ReversedEarningsAreCash(ctx: Context, f: Fact, original: Fact)
    requires PartOf(ctx, f).Ok? && PartOf(ctx, f).value.Some? && f.movement.kind == Reversal
    requires Original(ctx, f.movement.reversalOf) == Ok(original) && CoreKind(original.movement.kind)
    requires EffectCoherent(original.movement.kind, original.movement.effect)
    requires f.movement.effect != original.movement.effect
    ensures var p := PartOf(ctx, f).value.value; p.income - p.gross == p.cashIn - p.cashOut
  {
  }
}
