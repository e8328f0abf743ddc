/** The dashboard: one pass over the transactions of a period against the sums that its figures stand for. */
module Analytics {
  import opened Common
  import opened Sums
  import opened Ledger
  import opened Calendar

  /** A posted or reversed transaction with the shop that it was made at. */
  datatype Fact = Fact(id: nat, movement: Movement, merchant: Option<nat>, branch: Option<nat>)

  /** The facts, the period in UTC, the calendar of the owner's time zone, and the conversion to the base currency,
      which has no result where no rate is known. */
  datatype Context = Context(
    facts: seq<Fact>,
    shares: seq<Share>,
    utcFrom: Time,
    utcTo: Time,
    dateOf: Time -> Date,
    granularity: Granularity,
    convert: (int, Currency, Time) -> Option<int>,
    buckets: seq<Date>)

  // ---- Classification ----

  datatype Classification = Classification(spending: int, income: int, cash: bool)

  function ClassificationFor(kind: Kind): Classification
    requires kind != Reversal
  {
    match kind
    case Expense | TransferFee => Classification(1, 0, true)
    case Income => Classification(0, 1, true)
    case Refund => Classification(-1, 0, true)
    case ReconciliationAdjustment => Classification(0, 0, false)
    case _ => Classification(0, 0, true)
  }

  function Reversed(c: Classification): Classification { Classification(-c.spending, -c.income, c.cash) }

  function ById(facts: seq<Fact>): map<nat, Fact> {
    if |facts| == 0 then map[] else ById(facts[..|facts| - 1])[facts[|facts| - 1].id := facts[|facts| - 1]]
  }

  function Original(ctx: Context, id: Option<nat>): Result<Fact> {
    if id.Some? && id.value in ById(ctx.facts) then Ok(ById(ctx.facts)[id.value]) else Err(OriginalMissing)
  }

  /** The transaction that a refund or a reversal speaks about, and how the movement counts. */
  function Effective(ctx: Context, f: Fact): Result<(Fact, Classification)> {
    if f.movement.kind == Refund then
      var original :- Original(ctx, f.movement.parent);
      Ok((original, ClassificationFor(Refund)))
    else if f.movement.kind != Reversal then Ok((f, ClassificationFor(f.movement.kind)))
    else
      var original :- Original(ctx, f.movement.reversalOf);
      var _ :- Need(original.movement.kind != Reversal, SpecializedReversalRequired);
      Ok((original, Reversed(ClassificationFor(original.movement.kind))))
  }

  // ---- What one transaction contributes ----

  function ShareOn(id: nat): Share -> int { (share: Share) => if share.transaction == id then share.amount else 0 }

  function SharedOf(ctx: Context, id: nat): int { SumOf(ctx.shares, ShareOn(id)) }

  /** The part of an expense that other people owe, with the sign of its expense or reversal. */
  function ShareAdjustment(ctx: Context, f: Fact, original: Fact, c: Classification): int {
    if original.movement.kind != Expense || !(f.movement.kind == Expense || f.movement.kind == Reversal) then 0
    else if SharedOf(ctx, original.id) == 0 then 0
    else
      match ctx.convert(SharedOf(ctx, original.id), original.movement.currency, f.movement.occurredAt)
      case None => 0
      case Some(converted) => converted * c.spending
  }

  datatype Part = Part(
    gross: int,
    personal: int,
    income: int,
    cashIn: int,
    cashOut: int,
    adjustment: int,
    bucket: Date,
    account: nat,
    cash: bool,
    category: Option<nat>,
    merchant: Option<nat>,
    branch: Option<nat>)

  function BucketOf(ctx: Context, f: Fact): Date { BucketStart(ctx.dateOf(f.movement.occurredAt), ctx.granularity) }

  function MakePart(ctx: Context, f: Fact, original: Fact, c: Classification, converted: int): Part {
    var m, gross := f.movement, converted * c.spending;
    var inflow := m.effect == Inflow;
    Part(gross, gross - ShareAdjustment(ctx, f, original, c), converted * c.income,
         if c.cash && inflow then converted else 0,
         if c.cash && !inflow then converted else 0,
         if c.cash then 0 else if inflow then converted else -converted,
         BucketOf(ctx, f), m.account, c.cash, original.movement.category, original.merchant, original.branch)
  }

  /** Nothing when there is no rate; an error when an original or a bucket is missing. */
  function PartOf(ctx: Context, f: Fact): Result<Option<Part>> {
    var (original, c) :- Effective(ctx, f);
    match ctx.convert(f.movement.amount, f.movement.currency, f.movement.occurredAt)
    case None => Ok(None)
    case Some(converted) =>
      var _ :- Need(BucketOf(ctx, f) in ctx.buckets, BucketMissing);
      Ok(Some(MakePart(ctx, f, original, c, converted)))
  }

  /** The currencies that a transaction finds no rate for. */
  function MissingOf(ctx: Context, f: Fact): set<Currency> {
    match Effective(ctx, f)
    case Err(_) => {}
    case Ok((original, c)) =>
      if ctx.convert(f.movement.amount, f.movement.currency, f.movement.occurredAt).None? then {f.movement.currency}
      else if original.movement.kind == Expense && (f.movement.kind == Expense || f.movement.kind == Reversal)
        && SharedOf(ctx, original.id) != 0
        && ctx.convert(SharedOf(ctx, original.id), original.movement.currency, f.movement.occurredAt).None?
      then {original.movement.currency} else {}
  }

  // ---- The declarative figures ----

  type Parts = Fact -> Result<Option<Part>>

  type Gaps = Fact -> set<Currency>

  /** The part of each transaction in a given context, and the currencies that it finds no rate for. */
  function PartsOf(ctx: Context): Parts { (f: Fact) => PartOf(ctx, f) }

  function GapsOf(ctx: Context): Gaps { (f: Fact) => MissingOf(ctx, f) }

  /** A part that is not cash has no cash figures, and one that is has no adjustment. */
  predicate CashOrAdjustment(p: Part) { if p.cash then p.adjustment == 0 else p.cashIn == 0 && p.cashOut == 0 }

  predicate Regular(parts: Parts, f: Fact) {
    parts(f).Ok? && parts(f).value.Some? ==> CashOrAdjustment(parts(f).value.value)
  }

  /** A figure of a transaction's part, zero where it does not count. */
  function Figure(parts: Parts, figure: Part -> int): Fact -> int {
    (f: Fact) => match parts(f) case Ok(Some(part)) => figure(part) case _ => 0
  }

  function KeyOf<K>(parts: Parts, key: Part -> K, other: K): Fact -> K {
    (f: Fact) => match parts(f) case Ok(Some(part)) => key(part) case _ => other
  }

  function Gross(): Part -> int { (p: Part) => p.gross }
  function Personal(): Part -> int { (p: Part) => p.personal }
  function Earned(): Part -> int { (p: Part) => p.income }
  function CashIn(): Part -> int { (p: Part) => p.cashIn }
  function CashOut(): Part -> int { (p: Part) => p.cashOut }
  function Adjusted(): Part -> int { (p: Part) => p.adjustment }
  function ByBucket(): Part -> Date { (p: Part) => p.bucket }
  function ByAccount(): Part -> nat { (p: Part) => p.account }
  function ByCategory(): Part -> Option<nat> { (p: Part) => p.category }
  function ByMerchant(): Part -> Option<nat> { (p: Part) => p.merchant }
  function ByBranch(): Part -> Option<nat> { (p: Part) => p.branch }

  // ---- Tallies ----

  function At<K>(m: map<K, int>, k: K): int { if k in m then m[k] else 0 }

  function Added<K>(m: map<K, int>, k: K, amount: int): map<K, int> { m[k := At(m, k) + amount] }

  function Keyed<K(==)>(key: Fact -> K, f: Fact -> int, k: K): Fact -> int {
    (t: Fact) => if key(t) == k then f(t) else 0
  }

  /** Each row is the sum over the transactions with its key, and the rows together are the sum over all. */
  ghost predicate Tallies<K(!new)>(m: map<K, int>, ts: seq<Fact>, key: Fact -> K, f: Fact -> int) {
    (forall k :: At(m, k) == SumOf(ts, Keyed(key, f, k))) && SumValues(m) == SumOf(ts, f)
  }

  lemma TallyAdd<K(!new)>(m: map<K, int>, ts: seq<Fact>, t: Fact, key: Fact -> K, f: Fact -> int)
    requires Tallies(m, ts, key, f)
    ensures Tallies(Added(m, key(t), f(t)), ts + [t], key, f)
  {
    var m' := Added(m, key(t), f(t));
    forall k ensures At(m', k) == SumOf(ts + [t], Keyed(key, f, k)) {
      SumAppend(ts, t, Keyed(key, f, k));
    }
    SumValuesStore(m, key(t), At(m, key(t)) + f(t));
    SumAppend(ts, t, f);
  }

  lemma TallySkip<K(!new)>(m: map<K, int>, ts: seq<Fact>, t: Fact, key: Fact -> K, f: Fact -> int)
    requires Tallies(m, ts, key, f) && f(t) == 0
    ensures Tallies(m, ts + [t], key, f)
  {
  }

  lemma {:induction false} ZeroesTally<K(!new)>(m: map<K, int>, key: Fact -> K, f: Fact -> int)
    requires forall k :: k in m ==> m[k] == 0
    ensures Tallies(m, [], key, f)
    decreases |m|
  {
    if |m| > 0 {
      var k := SomeKey(m);
      ZeroesTally(Without(m, k), key, f);
    }
  }

  // ---- The pass ----

  datatype Dashboard = Dashboard(
    gross: int,
    personal: int,
    income: int,
    cashIn: int,
    cashOut: int,
    adjustments: int,
    spendingTrend: map<Date, int>,
    incomeTrend: map<Date, int>,
    cashInTrend: map<Date, int>,
    cashOutTrend: map<Date, int>,
    categories: map<Option<nat>, int>,
    merchants: map<Option<nat>, int>,
    branches: map<Option<nat>, int>,
    inflows: map<nat, int>,
    outflows: map<nat, int>)

  function Zeroes(buckets: seq<Date>): map<Date, int> { map b | b in buckets :: 0 }

  ghost predicate FiguresFit(parts: Parts, ts: seq<Fact>, d: Dashboard) {
    && d.gross == SumOf(ts, Figure(parts, Gross()))
    && d.personal == SumOf(ts, Figure(parts, Personal()))
    && d.income == SumOf(ts, Figure(parts, Earned()))
    && d.cashIn == SumOf(ts, Figure(parts, CashIn()))
    && d.cashOut == SumOf(ts, Figure(parts, CashOut()))
    && d.adjustments == SumOf(ts, Figure(parts, Adjusted()))
  }

  ghost predicate TrendFits(parts: Parts, ts: seq<Fact>, d: Dashboard) {
    var bucket := KeyOf(parts, ByBucket(), Date(0, 0, 0));
    && Tallies(d.spendingTrend, ts, bucket, Figure(parts, Personal()))
    && Tallies(d.incomeTrend, ts, bucket, Figure(parts, Earned()))
    && Tallies(d.cashInTrend, ts, bucket, Figure(parts, CashIn()))
    && Tallies(d.cashOutTrend, ts, bucket, Figure(parts, CashOut()))
  }

  ghost predicate RowsFit(parts: Parts, ts: seq<Fact>, d: Dashboard) {
    && Tallies(d.categories, ts, KeyOf(parts, ByCategory(), None), Figure(parts, Personal()))
    && Tallies(d.merchants, ts, KeyOf(parts, ByMerchant(), None), Figure(parts, Personal()))
    && Tallies(d.branches, ts, KeyOf(parts, ByBranch(), None), Figure(parts, Personal()))
    && Tallies(d.inflows, ts, KeyOf(parts, ByAccount(), 0), Figure(parts, CashIn()))
    && Tallies(d.outflows, ts, KeyOf(parts, ByAccount(), 0), Figure(parts, CashOut()))
  }

  function MissingIn(gaps: Gaps, ts: seq<Fact>): set<Currency> {
    set i, currency | 0 <= i < |ts| && currency in gaps(ts[i]) :: currency
  }

  /** Every figure is the sum that it stands for. */
  ghost predicate Fits(parts: Parts, ts: seq<Fact>, d: Dashboard) {
    FiguresFit(parts, ts, d) && TrendFits(parts, ts, d) && RowsFit(parts, ts, d)
  }

  ghost predicate Passed(parts: Parts, gaps: Gaps, ts: seq<Fact>, d: Dashboard, missing: set<Currency>) {
    Fits(parts, ts, d) && missing == MissingIn(gaps, ts) && forall i :: 0 <= i < |ts| ==> parts(ts[i]).Ok?
  }

  ghost predicate Fails(parts: Parts, ts: seq<Fact>, error: Error) {
    exists i :: 0 <= i < |ts| && parts(ts[i]) == Err(error)
  }

  /** One pass over the transactions of the period: the figures, and the currencies that had no rate. */
  method Pass(
      parts: Parts, gaps: Gaps, ts: seq<Fact>, buckets: seq<Date>)
    returns (r: Result<Dashboard>, missing: set<Currency>)
    requires forall i :: 0 <= i < |ts| ==> Regular(parts, ts[i])
    ensures if r.Ok? then Passed(parts, gaps, ts, r.value, missing)
            else Fails(parts, ts, r.error)
  {
    var zeroes := Zeroes(buckets);
    var d := Dashboard(0, 0, 0, 0, 0, 0, zeroes, zeroes, zeroes, zeroes, map[], map[], map[], map[], map[]);
    StartFits(parts, buckets, d);
    missing := {};
    for i := 0 to |ts|
      invariant Passed(parts, gaps, ts[..i], d, missing)
    {
      assert ts[..i + 1] == ts[..i] + [ts[i]];
      var part := parts(ts[i]);
      if part.Err? {
        return Err(part.error), missing;
      }
      d, missing := Turn(parts, gaps, ts[..i], ts[i], d, missing);
    }
    assert ts[..|ts|] == ts;
    r := Ok(d);
  }

  method Turn(parts: Parts, gaps: Gaps, ghost ts: seq<Fact>, f: Fact, d: Dashboard, missing: set<Currency>)
    returns (d': Dashboard, missing': set<Currency>)
    requires Passed(parts, gaps, ts, d, missing) && parts(f).Ok? && Regular(parts, f)
    ensures Passed(parts, gaps, ts + [f], d', missing')
  {
    MissingGrows(gaps, ts, f);
    missing' := missing + gaps(f);
    var part := parts(f).value;
    if part.Some? {
      CountFits(parts, ts, f, d);
      d' := Count(d, part.value);
    } else {
      SkipFits(parts, ts, f, d);
      d' := d;
    }
  }

  /** What one turn of the pass adds; rows of spending are only opened for a part that is not zero. */
  method Count(d: Dashboard, p: Part) returns (r: Dashboard)
    ensures r == Counted(d, p)
  {
    r := d;
    r := r.(gross := r.gross + p.gross, personal := r.personal + p.personal, income := r.income + p.income);
    r := r.(spendingTrend := Added(r.spendingTrend, p.bucket, p.personal));
    r := r.(incomeTrend := Added(r.incomeTrend, p.bucket, p.income));
    r := CountCash(r, p);
    r := CountSpending(r, p);
  }

  method CountCash(d: Dashboard, p: Part) returns (r: Dashboard)
    ensures r == d.(
      cashIn := if p.cash then d.cashIn + p.cashIn else d.cashIn,
      cashOut := if p.cash then d.cashOut + p.cashOut else d.cashOut,
      adjustments := if p.cash then d.adjustments else d.adjustments + p.adjustment,
      cashInTrend := AddedIf(p.cash, d.cashInTrend, p.bucket, p.cashIn),
      cashOutTrend := AddedIf(p.cash, d.cashOutTrend, p.bucket, p.cashOut),
      inflows := AddedIf(p.cash, d.inflows, p.account, p.cashIn),
      outflows := AddedIf(p.cash, d.outflows, p.account, p.cashOut))
  {
    r := d;
    if p.cash {
      r := r.(cashIn := r.cashIn + p.cashIn, cashInTrend := Added(r.cashInTrend, p.bucket, p.cashIn),
              inflows := Added(r.inflows, p.account, p.cashIn));
      r := r.(cashOut := r.cashOut + p.cashOut, cashOutTrend := Added(r.cashOutTrend, p.bucket, p.cashOut),
              outflows := Added(r.outflows, p.account, p.cashOut));
    } else {
      r := r.(adjustments := r.adjustments + p.adjustment);
    }
  }

  method CountSpending(d: Dashboard, p: Part) returns (r: Dashboard)
    ensures r == d.(
      categories := AddedIf(p.personal != 0, d.categories, p.category, p.personal),
      merchants := AddedIf(p.personal != 0, d.merchants, p.merchant, p.personal),
      branches := AddedIf(p.personal != 0, d.branches, p.branch, p.personal))
  {
    r := d;
    if p.personal != 0 {
      r := r.(categories := Added(r.categories, p.category, p.personal));
      r := r.(merchants := Added(r.merchants, p.merchant, p.personal));
      r := r.(branches := Added(r.branches, p.branch, p.personal));
    }
  }

  function AddedIf<K>(condition: bool, m: map<K, int>, k: K, amount: int): map<K, int> {
    if condition then Added(m, k, amount) else m
  }

  function Counted(d: Dashboard, p: Part): Dashboard {
    Dashboard(
      d.gross + p.gross, d.personal + p.personal, d.income + p.income,
      if p.cash then d.cashIn + p.cashIn else d.cashIn,
      if p.cash then d.cashOut + p.cashOut else d.cashOut,
      if p.cash then d.adjustments else d.adjustments + p.adjustment,
      Added(d.spendingTrend, p.bucket, p.personal),
      Added(d.incomeTrend, p.bucket, p.income),
      AddedIf(p.cash, d.cashInTrend, p.bucket, p.cashIn),
      AddedIf(p.cash, d.cashOutTrend, p.bucket, p.cashOut),
      AddedIf(p.personal != 0, d.categories, p.category, p.personal),
      AddedIf(p.personal != 0, d.merchants, p.merchant, p.personal),
      AddedIf(p.personal != 0, d.branches, p.branch, p.personal),
      AddedIf(p.cash, d.inflows, p.account, p.cashIn),
      AddedIf(p.cash, d.outflows, p.account, p.cashOut))
  }

  // ---- Why the pass is right ----

  lemma StartFits(parts: Parts, buckets: seq<Date>, d: Dashboard)
    requires d.gross == 0 && d.personal == 0 && d.income == 0 && d.cashIn == 0 && d.cashOut == 0 && d.adjustments == 0
    requires d.spendingTrend == Zeroes(buckets) && d.incomeTrend == Zeroes(buckets)
    requires d.cashInTrend == Zeroes(buckets) && d.cashOutTrend == Zeroes(buckets)
    requires d.categories == map[] && d.merchants == map[] && d.branches == map[] && d.inflows == map[]
    requires d.outflows == map[]
    ensures Fits(parts, [], d)
  {
    var bucket := KeyOf(parts, ByBucket(), Date(0, 0, 0));
    ZeroesTally(d.spendingTrend, bucket, Figure(parts, Personal()));
    ZeroesTally(d.incomeTrend, bucket, Figure(parts, Earned()));
    ZeroesTally(d.cashInTrend, bucket, Figure(parts, CashIn()));
    ZeroesTally(d.cashOutTrend, bucket, Figure(parts, CashOut()));
  }

  lemma MissingGrows(gaps: Gaps, ts: seq<Fact>, f: Fact)
    ensures MissingIn(gaps, ts + [f]) == MissingIn(gaps, ts) + gaps(f)
  {
    forall currency ensures currency in MissingIn(gaps, ts + [f]) <==> currency in MissingIn(gaps, ts) + gaps(f) {
      if currency in MissingIn(gaps, ts) {
        var i :| 0 <= i < |ts| && currency in gaps(ts[i]);
        assert (ts + [f])[i] == ts[i];
      }
      if currency in gaps(f) {
        assert (ts + [f])[|ts|] == f;
      }
    }
  }

  lemma TallyMaybe<K(!new)>(condition: bool, m: map<K, int>, ts: seq<Fact>, t: Fact, key: Fact -> K, f: Fact -> int)
    requires Tallies(m, ts, key, f) && (!condition ==> f(t) == 0)
    ensures Tallies(AddedIf(condition, m, key(t), f(t)), ts + [t], key, f)
  {
    if condition {
      TallyAdd(m, ts, t, key, f);
    } else {
      TallySkip(m, ts, t, key, f);
    }
  }

  lemma SkipFits(parts: Parts, ts: seq<Fact>, f: Fact, d: Dashboard)
    requires Fits(parts, ts, d) && parts(f).Ok? && parts(f).value.None?
    ensures Fits(parts, ts + [f], d)
  {
    SkipFigures(parts, ts, f, d);
    var bucket := KeyOf(parts, ByBucket(), Date(0, 0, 0));
    TallySkip(d.spendingTrend, ts, f, bucket, Figure(parts, Personal()));
    TallySkip(d.incomeTrend, ts, f, bucket, Figure(parts, Earned()));
    TallySkip(d.cashInTrend, ts, f, bucket, Figure(parts, CashIn()));
    TallySkip(d.cashOutTrend, ts, f, bucket, Figure(parts, CashOut()));
    TallySkip(d.categories, ts, f, KeyOf(parts, ByCategory(), None), Figure(parts, Personal()));
    TallySkip(d.merchants, ts, f, KeyOf(parts, ByMerchant(), None), Figure(parts, Personal()));
    TallySkip(d.branches, ts, f, KeyOf(parts, ByBranch(), None), Figure(parts, Personal()));
    TallySkip(d.inflows, ts, f, KeyOf(parts, ByAccount(), 0), Figure(parts, CashIn()));
    TallySkip(d.outflows, ts, f, KeyOf(parts, ByAccount(), 0), Figure(parts, CashOut()));
  }

  lemma SkipFigures(parts: Parts, ts: seq<Fact>, f: Fact, d: Dashboard)
    requires FiguresFit(parts, ts, d) && parts(f).Ok? && parts(f).value.None?
    ensures FiguresFit(parts, ts + [f], d)
  {
  }

  lemma CountFits(parts: Parts, ts: seq<Fact>, f: Fact, d: Dashboard)
    requires Fits(parts, ts, d) && parts(f).Ok? && parts(f).value.Some? && Regular(parts, f)
    ensures Fits(parts, ts + [f], Counted(d, parts(f).value.value))
  {
    CountFigures(parts, ts, f, d);
    CountTrend(parts, ts, f, d);
    CountRows(parts, ts, f, d);
  }

  lemma CountFigures(parts: Parts, ts: seq<Fact>, f: Fact, d: Dashboard)
    requires FiguresFit(parts, ts, d) && parts(f).Ok? && parts(f).value.Some? && Regular(parts, f)
    ensures FiguresFit(parts, ts + [f], Counted(d, parts(f).value.value))
  {
  }

  lemma CountTrend(parts: Parts, ts: seq<Fact>, f: Fact, d: Dashboard)
    requires TrendFits(parts, ts, d) && parts(f).Ok? && parts(f).value.Some? && Regular(parts, f)
    ensures TrendFits(parts, ts + [f], Counted(d, parts(f).value.value))
  {
    var p, bucket := parts(f).value.value, KeyOf(parts, ByBucket(), Date(0, 0, 0));
    TallyAdd(d.spendingTrend, ts, f, bucket, Figure(parts, Personal()));
    TallyAdd(d.incomeTrend, ts, f, bucket, Figure(parts, Earned()));
    TallyMaybe(p.cash, d.cashInTrend, ts, f, bucket, Figure(parts, CashIn()));
    TallyMaybe(p.cash, d.cashOutTrend, ts, f, bucket, Figure(parts, CashOut()));
  }

  lemma CountRows(parts: Parts, ts: seq<Fact>, f: Fact, d: Dashboard)
    requires RowsFit(parts, ts, d) && parts(f).Ok? && parts(f).value.Some? && Regular(parts, f)
    ensures RowsFit(parts, ts + [f], Counted(d, parts(f).value.value))
  {
    var p := parts(f).value.value;
    TallyMaybe(p.personal != 0, d.categories, ts, f, KeyOf(parts, ByCategory(), None), Figure(parts, Personal()));
    TallyMaybe(p.personal != 0, d.merchants, ts, f, KeyOf(parts, ByMerchant(), None), Figure(parts, Personal()));
    TallyMaybe(p.personal != 0, d.branches, ts, f, KeyOf(parts, ByBranch(), None), Figure(parts, Personal()));
    TallyMaybe(p.cash, d.inflows, ts, f, KeyOf(parts, ByAccount(), 0), Figure(parts, CashIn()));
    TallyMaybe(p.cash, d.outflows, ts, f, KeyOf(parts, ByAccount(), 0), Figure(parts, CashOut()));
  }

  predicate InPeriod(ctx: Context, f: Fact) { ctx.utcFrom <= f.movement.occurredAt < ctx.utcTo }

  function PeriodFacts(ctx: Context, facts: seq<Fact>): seq<Fact> {
    if |facts| == 0 then [] else
    var last := facts[|facts| - 1];
    PeriodFacts(ctx, facts[..|facts| - 1]) + if InPeriod(ctx, last) then [last] else []
  }

  /** The dashboard of a period; it fails only where a transaction of the period has no part. */
  method BuildDashboard(ctx: Context) returns (r: Result<Dashboard>, missing: set<Currency>)
    ensures var ts := PeriodFacts(ctx, ctx.facts);
      if r.Ok? then Passed(PartsOf(ctx), GapsOf(ctx), ts, r.value, missing)
      else Fails(PartsOf(ctx), ts, r.error)
  {
    var ts := PeriodFacts(ctx, ctx.facts);
    forall i | 0 <= i < |ts| ensures Regular(PartsOf(ctx), ts[i]) {
      PartsAreRegular(ctx, ts[i]);
    }
    r, missing := Pass(PartsOf(ctx), GapsOf(ctx), ts, ctx.buckets);
  }

  lemma PartsAreRegular(ctx: Context, f: Fact)
    ensures Regular(PartsOf(ctx), f)
  {
  }

  // ---- What the figures mean together ----

  function NonZero<K>(m: map<K, int>): map<K, int> { map k | k in m && m[k] != 0 :: m[k] }

  lemma NonZeroRest<K>(m: map<K, int>, k: K)
    requires k in m
    ensures m[k] == 0 ==> NonZero(m) == NonZero(Without(m, k))
    ensures m[k] != 0 ==> k in NonZero(m) && NonZero(m)[k] == m[k] && Without(NonZero(m), k) == NonZero(Without(m, k))
  {
  }

  /** A breakdown shows only the rows that are not zero, which loses nothing. */
  lemma {:induction false} DroppingZeroesKeepsTotals<K>(m: map<K, int>)
    ensures SumValues(NonZero(m)) == SumValues(m)
    decreases |m|
  {
    if |m| > 0 {
      var k := SomeKey(m);
      var rest := Without(m, k);
      DroppingZeroesKeepsTotals(rest);
      NonZeroRest(m, k);
      if m[k] != 0 {
        SumValuesRemove(NonZero(m), k);
      }
    } else {
      assert NonZero(m) == m;
    }
  }

  /** Personal spending is what the category rows, the merchant rows, the branch rows and the trend each add up to, and
      the cash figures are what the account rows and the trend add up to. */
  lemma FiguresAddUp(parts: Parts, ts: seq<Fact>, d: Dashboard)
    requires Fits(parts, ts, d)
    ensures SumValues(NonZero(d.categories)) == d.personal
    ensures SumValues(NonZero(d.merchants)) == d.personal
    ensures SumValues(NonZero(d.branches)) == d.personal
    ensures SumValues(d.spendingTrend) == d.personal
    ensures SumValues(d.incomeTrend) == d.income
    ensures SumValues(d.inflows) == d.cashIn && SumValues(d.cashInTrend) == d.cashIn
    ensures SumValues(d.outflows) == d.cashOut && SumValues(d.cashOutTrend) == d.cashOut
  {
    DroppingZeroesKeepsTotals(d.categories);
    DroppingZeroesKeepsTotals(d.merchants);
    DroppingZeroesKeepsTotals(d.branches);
  }

  /** An expense and its reversal at unchanged value cancel in every figure and in the rows that they fall into. */
  lemma ReversalCancels(ctx: Context, f: Fact, r: Fact)
    requires f.movement.kind == Expense || f.movement.kind == Income
    requires r.movement.kind == Reversal && Original(ctx, r.movement.reversalOf) == Ok(f)
    requires r.movement.amount == f.movement.amount && r.movement.currency == f.movement.currency
    requires forall x, c :: ctx.convert(x, c, r.movement.occurredAt) == ctx.convert(x, c, f.movement.occurredAt)
    requires PartOf(ctx, f).Ok? && PartOf(ctx, f).value.Some? && PartOf(ctx, r).Ok? && PartOf(ctx, r).value.Some?
    ensures var p, q := PartOf(ctx, f).value.value, PartOf(ctx, r).value.value;
      && p.gross + q.gross == 0 && p.personal + q.personal == 0 && p.income + q.income == 0
      && q.category == p.category && q.merchant == p.merchant && q.branch == p.branch
  {
  }

  /** With the buckets of the period no transaction is without its bucket, so the pass fails only for a missing
      original. */
  lemma PeriodHasBuckets(ctx: Context, f: Fact, to: Date)
    requires ctx.buckets != [] && GapFree(ctx.buckets, ctx.granularity)
    requires forall i :: 0 <= i < |ctx.buckets| ==> IsBucketStart(ctx.buckets[i], ctx.granularity)
    requires Before(to, NextBucket(ctx.buckets[|ctx.buckets| - 1], ctx.granularity))
    requires var day := ctx.dateOf(f.movement.occurredAt);
      ValidDate(day) && ValidDate(to) && !Before(day, ctx.buckets[0]) && !Before(to, day)
    requires Effective(ctx, f).Ok?
    ensures PartOf(ctx, f).Ok?
  {
    var day, last := ctx.dateOf(f.movement.occurredAt), ctx.buckets[|ctx.buckets| - 1];
    NextBucketIsLater(last, ctx.granularity);
    BeforeIsOrdinal(to, day);
    BeforeIsOrdinal(to, NextBucket(last, ctx.granularity));
    BeforeIsOrdinal(day, NextBucket(last, ctx.granularity));
    EveryDayHasABucket(ctx.buckets, day, ctx.granularity);
  }
}
