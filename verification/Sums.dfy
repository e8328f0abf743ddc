/** Finite sums over sequences and maps, the SUM and COUNT of the ledger queries. */
module Sums {

  function SumOf<T>(s: seq<T>, f: T -> int): int {
    if |s| == 0 then 0 else SumOf(s[..|s| - 1], f) + f(s[|s| - 1])
  }

  lemma SumAppend<T>(s: seq<T>, x: T, f: T -> int)
    ensures SumOf(s + [x], f) == SumOf(s, f) + f(x)
  {
  }

  lemma {:induction false} SumConcat<T>(s: seq<T>, t: seq<T>, f: T -> int)
    ensures SumOf(s + t, f) == SumOf(s, f) + SumOf(t, f)
  {
    if |t| == 0 {
      assert s + t == s;
    } else {
      var front, last := t[..|t| - 1], t[|t| - 1];
      assert s + t == (s + front) + [last];
      SumAppend(s + front, last, f);
      SumConcat(s, front, f);
    }
  }

  lemma {:induction false} SumFirst<T>(s: seq<T>, f: T -> int)
    requires |s| > 0
    ensures SumOf(s, f) == f(s[0]) + SumOf(s[1..], f)
  {
    SumConcat([s[0]], s[1..], f);
    SumAppend([], s[0], f);
    assert [] + [s[0]] == [s[0]] && [s[0]] + s[1..] == s;
  }

  lemma {:induction false} SumUpdate<T>(s: seq<T>, i: nat, x: T, f: T -> int)
    requires i < |s|
    ensures SumOf(s[i := x], f) == SumOf(s, f) - f(s[i]) + f(x)
  {
    var n := |s| - 1;
    if i == n {
      assert s[i := x][..n] == s[..n];
    } else {
      assert s[i := x][..n] == s[..n][i := x];
      SumUpdate(s[..n], i, x, f);
    }
  }

  /** Two sums agree when their terms agree one by one. */
  lemma {:induction false} SumAgree<S, T>(s: seq<S>, t: seq<T>, f: S -> int, g: T -> int)
    requires |s| == |t|
    requires forall i :: 0 <= i < |s| ==> f(s[i]) == g(t[i])
    ensures SumOf(s, f) == SumOf(t, g)
  {
    if |s| > 0 {
      SumAgree(s[..|s| - 1], t[..|t| - 1], f, g);
    }
  }

  lemma {:induction false} SumScaled<T>(s: seq<T>, f: T -> int, g: T -> int, c: int)
    requires forall i :: 0 <= i < |s| ==> f(s[i]) == c * g(s[i])
    ensures SumOf(s, f) == c * SumOf(s, g)
  {
    if |s| > 0 {
      SumScaled(s[..|s| - 1], f, g, c);
    }
  }

  /** The sum of two term functions. */
  lemma {:induction false} SumPlus<T>(s: seq<T>, f: T -> int, g: T -> int, h: T -> int)
    requires forall i :: 0 <= i < |s| ==> h(s[i]) == f(s[i]) + g(s[i])
    ensures SumOf(s, h) == SumOf(s, f) + SumOf(s, g)
  {
    if |s| > 0 {
      SumPlus(s[..|s| - 1], f, g, h);
    }
  }

  lemma {:induction false} SumAtMost<T>(s: seq<T>, f: T -> int, g: T -> int)
    requires forall i :: 0 <= i < |s| ==> f(s[i]) <= g(s[i])
    ensures SumOf(s, f) <= SumOf(s, g)
  {
    if |s| > 0 {
      SumAtMost(s[..|s| - 1], f, g);
    }
  }

  lemma {:induction false} SumZero<T>(s: seq<T>, f: T -> int)
    requires forall i :: 0 <= i < |s| ==> f(s[i]) == 0
    ensures SumOf(s, f) == 0
  {
    if |s| > 0 {
      SumZero(s[..|s| - 1], f);
    }
  }

  /** A sum with a single possibly non-zero term. */
  lemma {:induction false} SumSingle<T>(s: seq<T>, k: nat, f: T -> int)
    requires k < |s|
    requires forall i :: 0 <= i < |s| && i != k ==> f(s[i]) == 0
    ensures SumOf(s, f) == f(s[k])
  {
    if k == |s| - 1 {
      SumZero(s[..k], f);
    } else {
      SumSingle(s[..|s| - 1], k, f);
    }
  }

  lemma {:induction false} SumNonNegative<T>(s: seq<T>, f: T -> int)
    requires forall i :: 0 <= i < |s| ==> f(s[i]) >= 0
    ensures SumOf(s, f) >= 0
    ensures forall i :: 0 <= i < |s| ==> f(s[i]) <= SumOf(s, f)
  {
    if |s| > 0 {
      SumNonNegative(s[..|s| - 1], f);
    }
  }

  /** Terms bounded above term by term whose sums are equal are equal term by term. */
  lemma {:induction false} SumTight<T>(s: seq<T>, f: T -> int, g: T -> int)
    requires forall i :: 0 <= i < |s| ==> f(s[i]) <= g(s[i])
    requires SumOf(s, f) == SumOf(s, g)
    ensures forall i :: 0 <= i < |s| ==> f(s[i]) == g(s[i])
  {
    if |s| > 0 {
      SumAtMost(s[..|s| - 1], f, g);
      SumTight(s[..|s| - 1], f, g);
    }
  }

  /** The row numbers of a table. */
  function Upto(n: nat): seq<nat> { if n == 0 then [] else Upto(n - 1) + [n - 1] }

  lemma {:induction false} UptoIs(n: nat)
    ensures |Upto(n)| == n && forall i :: 0 <= i < n ==> Upto(n)[i] == i
  {
    if n > 0 {
      UptoIs(n - 1);
    }
  }

  function Row<A, B>(f: (A, B) -> int, a: A): B -> int { (b: B) => f(a, b) }

  function Column<A, B>(f: (A, B) -> int, b: B): A -> int { (a: A) => f(a, b) }

  function RowSum<A, B>(f: (A, B) -> int, bs: seq<B>): A -> int { (a: A) => SumOf(bs, Row(f, a)) }

  function ColumnSum<A, B>(f: (A, B) -> int, aa: seq<A>): B -> int { (b: B) => SumOf(aa, Column(f, b)) }

  /** Summing a matrix by rows or by columns gives the same total. */
  lemma {:induction false} SumSwap<A, B>(aa: seq<A>, bs: seq<B>, f: (A, B) -> int)
    ensures SumOf(aa, RowSum(f, bs)) == SumOf(bs, ColumnSum(f, aa))
  {
    if |aa| == 0 {
      forall j | 0 <= j < |bs| ensures ColumnSum(f, aa)(bs[j]) == 0 {
        assert SumOf(aa, Column(f, bs[j])) == 0;
      }
      SumZero(bs, ColumnSum(f, aa));
    } else {
      var front, last := aa[..|aa| - 1], aa[|aa| - 1];
      SumSwap(front, bs, f);
      forall j | 0 <= j < |bs|
        ensures ColumnSum(f, aa)(bs[j]) == ColumnSum(f, front)(bs[j]) + Row(f, last)(bs[j])
      {
        assert SumOf(aa, Column(f, bs[j])) == SumOf(front, Column(f, bs[j])) + f(last, bs[j]);
      }
      SumPlus(bs, ColumnSum(f, front), Row(f, last), ColumnSum(f, aa));
      assert RowSum(f, bs)(last) == SumOf(bs, Row(f, last));
    }
  }

  /** The sum of the values of a map. */
  ghost function SumValues<K>(m: map<K, int>): int
    decreases |m|
  {
    if |m| == 0 then 0 else m[SomeKey(m)] + SumValues(Without(m, SomeKey(m)))
  }

  ghost function SomeKey<K>(m: map<K, int>): (k: K)
    requires |m| > 0
    ensures k in m
  {
    var k :| k in m;
    k
  }

  function Without<K>(m: map<K, int>, k: K): (r: map<K, int>)
    requires k in m
    ensures |r| == |m| - 1
  {
    var r := m - {k};
    assert r.Keys == m.Keys - {k};
    r
  }

  lemma {:induction false} SumValuesRemove<K>(m: map<K, int>, k: K)
    requires k in m
    ensures SumValues(m) == m[k] + SumValues(Without(m, k))
    decreases |m|
  {
    var c := SomeKey(m);
    if c != k {
      SumValuesRemove(Without(m, c), k);
      SumValuesRemove(Without(m, k), c);
      assert Without(Without(m, c), k) == Without(Without(m, k), c);
    }
  }

  /** Storing a value changes the sum by the new value less the old one. */
  lemma SumValuesStore<K>(m: map<K, int>, k: K, v: int)
    ensures SumValues(m[k := v]) == SumValues(m) - (if k in m then m[k] else 0) + v
  {
    StoredRest(m, k, v);
    SumValuesRemove(m[k := v], k);
    if k in m {
      SumValuesRemove(m, k);
    }
  }

  lemma StoredRest<K>(m: map<K, int>, k: K, v: int)
    ensures Without(m[k := v], k) == if k in m then Without(m, k) else m
  {
  }
}
