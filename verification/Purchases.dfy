/** Itemised purchases: line totals in decimal arithmetic against the database's exact constraint. */
module Purchases {
  import opened Common
  import opened Sums
  import opened Ledger
  import opened Numbers
  import opened Rounding

  // Quantities count millionths, prices and discounts ten-thousandths; `described` and `productKnown` stand for the
  // checks
  // on the description and the product of a line.
  datatype Item = Item(id: nat, quantity: int, unitPrice: int, discount: int, described: bool, productKnown: bool)

  /** A result of decimal arithmetic: exact up to 28 digits, cut to its 28 leading ones otherwise. */
  function InContext(x: int): int {
    var lost := Excess(x, PRECISION);
    if lost == 0 then x else RoundDigits(x, lost) * Pow10(lost)
  }

  const MILLION := 1_000_000

  /** `(quantity * unit_price - discount).quantize(...)`, in units of 0.0001; the intermediate values count
      0.0000000001. */
  function LineTotal(item: Item): Result<int> {
    var _ :- Need(item.quantity > 0, InvalidItemQuantity);
    var _ :- Need(item.unitPrice >= 0 && item.discount >= 0, InvalidLineTotal);
    var gross := InContext(item.quantity * item.unitPrice);
    var total := HalfEven(InContext(gross - item.discount * MILLION), MILLION);
    var _ :- Need(Excess(total, PRECISION) == 0, ArithmeticOverflow);
    var _ :- Need(total >= 0, InvalidLineTotal);
    Ok(total)
  }

  function CheckItem(item: Item, seen: set<nat>): Result<int> {
    var _ :- Need(item.id !in seen, DuplicateItemId);
    var _ :- Need(item.described && item.productKnown, TransactionDetails);
    LineTotal(item)
  }

  function AddItems(items: seq<Item>, seen: set<nat>, total: int): Result<int>
    decreases |items|
  {
    if |items| == 0 then Ok(total) else
    var line :- CheckItem(items[0], seen);
    AddItems(items[1..], seen + {items[0].id}, InContext(total + line))
  }

  function CheckItems(items: seq<Item>, amount: int): Result<Unit> {
    var _ :- Need(|items| <= 200, TooManyItems);
    var total :- AddItems(items, {}, 0);
    Need(items == [] || total == amount, InvalidLineTotal)
  }

  /** The loop over the lines of a purchase. */
  method RequireItems(items: seq<Item>, amount: int) returns (r: Result<Unit>)
    ensures r == CheckItems(items, amount)
  {
    if |items| > 200 {
      return Err(TooManyItems);
    }
    var total := 0;
    var seen: set<nat> := {};
    assert items[0..] == items;
    for i := 0 to |items|
      invariant AddItems(items[i..], seen, total) == AddItems(items, {}, 0)
    {
      assert items[i..][1..] == items[i + 1..];
      var item := items[i];
      if item.id in seen {
        return Err(DuplicateItemId);
      }
      if !item.described || !item.productKnown {
        return Err(TransactionDetails);
      }
      var line := LineTotal(item);
      if line.Err? {
        return Err(line.error);
      }
      seen := seen + {item.id};
      total := InContext(total + line.value);
    }
    if items != [] && total != amount {
      return Err(InvalidLineTotal);
    }
    r := Ok(Unit);
  }

  // ---- The database ----

  /** The line total that the check constraint demands, computed exactly. */
  function StoredLineTotal(item: Item): int {
    HalfEven(item.quantity * item.unitPrice - item.discount * MILLION, MILLION)
  }

  function StoredTotal(): Item -> int { (item: Item) => StoredLineTotal(item) }

  /** The constraint before it was replaced by half-even rounding: PostgreSQL's `round`, which takes a tie away from
      zero. */
  function FirstStoredLineTotal(item: Item): int {
    HalfUp(item.quantity * item.unitPrice - item.discount * MILLION, MILLION)
  }

  function HalfUp(n: int, d: int): int
    requires d > 0
  {
    var lower, rest := Abs(n) / d, Abs(n) % d;
    var magnitude := if 2 * rest >= d then lower + 1 else lower;
    if n < 0 then -magnitude else magnitude
  }

  predicate DistinctIds(items: seq<Item>) { forall i, j :: 0 <= i < j < |items| ==> items[i].id != items[j].id }

  /** What the checks on the lines and the trigger on a posted purchase demand. */
  predicate AcceptedByDatabase(items: seq<Item>, amount: int) {
    && (forall i :: 0 <= i < |items| ==>
         items[i].quantity > 0 && items[i].unitPrice >= 0 && items[i].discount >= 0 && StoredLineTotal(items[i]) >= 0)
    && (items != [] ==> SumOf(items, StoredTotal()) == amount)
  }

  /** The number range of the request schema: at most 19 digits each. */
  predicate InSchema(item: Item) {
    item.quantity <= MAX_AMOUNT && item.unitPrice <= MAX_AMOUNT && item.discount <= MAX_AMOUNT
  }

  // ---- Decimal arithmetic is exact where it matters ----

  const LIMIT := 10_000_000_000_000_000_000_000_000_000

  lemma ContextMeans(x: int)
    ensures Abs(x) < LIMIT ==> InContext(x) == x && Excess(x, PRECISION) == 0
    ensures x >= LIMIT ==> InContext(x) >= LIMIT && Excess(x, PRECISION) > 0
  {
    SomePowers();
    if Abs(x) < LIMIT {
      DigitsFit(Abs(x), PRECISION);
    } else if x >= LIMIT {
      DigitsBound(x);
      PowersGrow(Min(Digits(x), PRECISION), PRECISION);
      HeldIsLong(x, PRECISION);
      var lost := Excess(x, PRECISION);
      assert RoundDigits(x, lost) >= 0 by { RoundsNonNegative(x, lost); }
      TenTimes(RoundDigits(x, lost), Pow10(lost));
      assert Pow10(28) == 10 * Pow10(27);
    }
  }

  lemma RoundsNonNegative(x: int, lost: nat)
    requires x >= 0
    ensures RoundDigits(x, lost) >= 0
  {
    QuotientIsNatural(x, Pow10(lost));
  }

  lemma TenTimes(held: int, p: int)
    requires held >= 0 && p >= 10
    ensures held * p >= 10 * held
  {
  }

  lemma LargeQuotient(n: int)
    requires n >= LIMIT - MAX_AMOUNT * MILLION
    ensures HalfEven(n, MILLION) > MAX_AMOUNT
  {
  }

  lemma SmallLine(product: int, taken: int)
    requires 0 <= product < LIMIT && 0 <= taken <= MAX_AMOUNT * MILLION
    ensures InContext(InContext(product) - taken) == product - taken
    ensures Excess(HalfEven(product - taken, MILLION), PRECISION) == 0
  {
    ContextMeans(product);
    ContextMeans(product - taken);
    QuotientIsSmaller(product - taken);
    ContextMeans(HalfEven(product - taken, MILLION));
  }

  lemma LargeLine(product: int, taken: int)
    requires LIMIT <= product && 0 <= taken <= MAX_AMOUNT * MILLION
    ensures HalfEven(InContext(InContext(product) - taken), MILLION) > MAX_AMOUNT
    ensures HalfEven(product - taken, MILLION) > MAX_AMOUNT
  {
    ContextMeans(product);
    ContextMeans(InContext(product) - taken);
    LargeQuotient(product - taken);
    LargeQuotient(InContext(InContext(product) - taken));
  }

  /** A line whose product is not exact is too large for any purchase, in both systems; every other line is the same in
      both. */
  lemma LinesAgree(item: Item)
    requires InSchema(item) && item.quantity > 0 && item.unitPrice >= 0 && item.discount >= 0
    ensures var product := item.quantity * item.unitPrice;
      if product < LIMIT then
        LineTotal(item) == if StoredLineTotal(item) >= 0 then Ok(StoredLineTotal(item)) else Err(InvalidLineTotal)
      else StoredLineTotal(item) > MAX_AMOUNT && (LineTotal(item).Ok? ==> LineTotal(item).value > MAX_AMOUNT)
  {
    var product := item.quantity * item.unitPrice;
    ProductSign(item.unitPrice, item.quantity);
    assert product == item.unitPrice * item.quantity;
    if product < LIMIT {
      SmallLine(product, item.discount * MILLION);
    } else {
      LargeLine(product, item.discount * MILLION);
    }
  }

  lemma QuotientIsSmaller(n: int)
    requires Abs(n) < LIMIT
    ensures Abs(HalfEven(n, MILLION)) < LIMIT
  {
  }

  // ---- Service and database accept the same purchases ----

  /** The guards of each line, and ids that neither repeat nor were seen before. */
  predicate LinesPass(items: seq<Item>, seen: set<nat>) {
    && (forall i :: 0 <= i < |items| ==>
         items[i].id !in seen && items[i].described && items[i].productKnown && LineTotal(items[i]).Ok?)
    && DistinctIds(items)
  }

  lemma {:induction false} AddItemsPasses(items: seq<Item>, seen: set<nat>, total: int)
    ensures AddItems(items, seen, total).Ok? <==> LinesPass(items, seen)
    decreases |items|
  {
    if |items| > 0 && CheckItem(items[0], seen).Ok? {
      var rest, seen' := items[1..], seen + {items[0].id};
      AddItemsPasses(rest, seen', InContext(total + CheckItem(items[0], seen).value));
      if LinesPass(rest, seen') {
        forall i, j | 0 <= i < j < |items| ensures items[i].id != items[j].id {
          assert items[j] == rest[j - 1];
          assert i > 0 ==> items[i] == rest[i - 1];
        }
        forall i | 0 <= i < |items|
          ensures items[i].id !in seen && items[i].described && items[i].productKnown && LineTotal(items[i]).Ok?
        {
          assert i > 0 ==> items[i] == rest[i - 1];
        }
      }
      if LinesPass(items, seen) {
        forall i | 0 <= i < |rest|
          ensures rest[i].id !in seen' && rest[i].described && rest[i].productKnown && LineTotal(rest[i]).Ok?
        {
          assert rest[i] == items[i + 1];
        }
      }
    }
  }

  function PythonTotal(): Item -> int {
    (item: Item) => match LineTotal(item) case Ok(total) => total case Err(_) => 0
  }

  lemma {:induction false} LinesNotNegative(items: seq<Item>)
    ensures SumOf(items, PythonTotal()) >= 0
    ensures forall i :: 0 <= i < |items| ==> PythonTotal()(items[i]) <= SumOf(items, PythonTotal())
  {
    SumNonNegative(items, PythonTotal());
  }

  lemma NextTotal(total: int, line: int)
    requires total >= 0 && line >= 0
    ensures InContext(total + line) >= 0
    ensures if total + line <= MAX_AMOUNT then InContext(total + line) == total + line
            else InContext(total + line) > MAX_AMOUNT
  {
    ContextMeans(total + line);
  }

  /** The running total is the sum of the lines, unless it leaves the storage range, and then it stays outside. */
  lemma {:induction false} RunningTotal(items: seq<Item>, seen: set<nat>, total: int)
    requires total >= 0 && AddItems(items, seen, total).Ok?
    ensures var sum := total + SumOf(items, PythonTotal());
      if sum <= MAX_AMOUNT then AddItems(items, seen, total).value == sum
      else AddItems(items, seen, total).value > MAX_AMOUNT
    decreases |items|
  {
    if |items| > 0 {
      var line := CheckItem(items[0], seen).value;
      NextTotal(total, line);
      SumFirst(items, PythonTotal());
      assert PythonTotal()(items[0]) == line;
      LinesNotNegative(items[1..]);
      RunningTotal(items[1..], seen + {items[0].id}, InContext(total + line));
    }
  }

  /** Where every line is a storable amount, the lines of the two systems are equal. */
  lemma TotalsAgree(items: seq<Item>)
    requires forall i :: 0 <= i < |items| ==>
      InSchema(items[i]) && items[i].quantity > 0 && items[i].unitPrice >= 0 && items[i].discount >= 0
    requires forall i :: 0 <= i < |items| ==>
      items[i].quantity * items[i].unitPrice < LIMIT && StoredLineTotal(items[i]) >= 0
    ensures SumOf(items, PythonTotal()) == SumOf(items, StoredTotal())
    ensures forall i :: 0 <= i < |items| ==> LineTotal(items[i]) == Ok(StoredLineTotal(items[i]))
  {
    forall i | 0 <= i < |items| ensures LineTotal(items[i]) == Ok(StoredLineTotal(items[i])) {
      LinesAgree(items[i]);
    }
    SumAgree(items, items, PythonTotal(), StoredTotal());
  }

  predicate Presentable(items: seq<Item>) {
    |items| <= 200 && DistinctIds(items) && forall i :: 0 <= i < |items| ==> items[i].described && items[i].productKnown
  }

  lemma AcceptedLinesFit(items: seq<Item>, amount: int)
    requires (forall i :: 0 <= i < |items| ==> InSchema(items[i])) && InRange(amount) && items != []
    requires CheckItems(items, amount).Ok?
    ensures AcceptedByDatabase(items, amount) && Presentable(items)
  {
    AddItemsPasses(items, {}, 0);
    RunningTotal(items, {}, 0);
    LinesNotNegative(items);
    forall i | 0 <= i < |items|
      ensures items[i].quantity * items[i].unitPrice < LIMIT && StoredLineTotal(items[i]) >= 0
    {
      LinesAgree(items[i]);
      assert PythonTotal()(items[i]) <= MAX_AMOUNT;
    }
    TotalsAgree(items);
  }

  lemma DatabaseLinesFit(items: seq<Item>, amount: int)
    requires (forall i :: 0 <= i < |items| ==> InSchema(items[i])) && InRange(amount) && items != []
    requires AcceptedByDatabase(items, amount) && Presentable(items)
    ensures CheckItems(items, amount).Ok?
  {
    SumNonNegative(items, StoredTotal());
    forall i | 0 <= i < |items| ensures items[i].quantity * items[i].unitPrice < LIMIT {
      LinesAgree(items[i]);
      assert StoredTotal()(items[i]) <= MAX_AMOUNT;
    }
    TotalsAgree(items);
    AddItemsPasses(items, {}, 0);
    RunningTotal(items, {}, 0);
  }

  /** For every purchase that the request schema admits, the service accepts the lines exactly when the database
      will. */
  lemma ServiceAndDatabaseAgree(items: seq<Item>, amount: int)
    requires (forall i :: 0 <= i < |items| ==> InSchema(items[i])) && InRange(amount)
    ensures CheckItems(items, amount).Ok? <==> Presentable(items) && AcceptedByDatabase(items, amount)
  {
    if items != [] {
      if CheckItems(items, amount).Ok? {
        AcceptedLinesFit(items, amount);
      }
      if AcceptedByDatabase(items, amount) && Presentable(items) {
        DatabaseLinesFit(items, amount);
      }
    }
  }

  /** The two rounding rules differ exactly on ties whose lower neighbour is even, for amounts that are not negative. */
  lemma HalfUpDiffersOnEvenTies(n: int, d: int)
    requires n >= 0 && d > 0 && d % 2 == 0
    ensures HalfUp(n, d) != HalfEven(n, d) <==> 2 * (n % d) == d && (n / d) % 2 == 0
  {
  }

  /** Under the first constraint a half unit of an item at 0.0001 was stored as 0.0000 but had to be 0.0001. */
  lemma FirstConstraintRefusesTies()
    ensures var item := Item(0, 500_000, 1, 0, true, true);
      LineTotal(item) == Ok(0) && StoredLineTotal(item) == 0 && FirstStoredLineTotal(item) == 1
  {
  }
}
