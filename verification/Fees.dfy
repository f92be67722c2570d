/** Fee arithmetic with an exact rational rate in place of the configured f64. */
module Fees {
  import opened Sums

  datatype RateRaw = Rate(num: int, den: int)

  type Rate = r: RateRaw | r.den > 0 witness Rate(0, 1)

  /** The rate is a fraction of the amount. */
  predicate Proper(r: Rate) {
    0 <= r.num <= r.den
  }

  /** A product truncated toward zero, as the cast to i64 does. */
  function Fee(r: Rate, amount: int): int {
    var product := amount * r.num;
    if product >= 0 then product / r.den else -(-product / r.den)
  }

  /** What a capture posts to the ledger: nothing unless the fee is positive. */
  function CaptureFee(r: Rate, amount: int): int {
    if Fee(r, amount) > 0 then Fee(r, amount) else 0
  }

  lemma MulGap(d: int, p: int, q: int)
    requires d > 0
    ensures p < q ==> d * p + d <= d * q
  {
    if p < q {
      var k := q - p - 1;
      assert d * (p + 1 + k) == d * p + d + d * k;
      MulNonNegative(d, k);
    }
  }

  lemma MulNonNegative(d: int, k: int)
    requires d >= 0 && k >= 0
    ensures d * k >= 0
  {
  }

  lemma FloorBounds(n: int, d: int)
    requires d > 0
    ensures d * (n / d) <= n < d * (n / d) + d
  {
  }

  /** The fee is the largest whole amount that the rate's share reaches, and no other. */
  lemma FeeExact(r: Rate, amount: int, fee: int)
    requires amount * r.num >= 0
    ensures fee == Fee(r, amount) <==> r.den * fee <= amount * r.num < r.den * fee + r.den
  {
    FloorBounds(amount * r.num, r.den);
    if r.den * fee <= amount * r.num < r.den * fee + r.den {
      FloorUnique(amount * r.num, r.den, fee);
    }
  }

  lemma FloorUnique(n: int, d: int, q: int)
    requires d > 0 && d * q <= n < d * q + d
    ensures n / d == q
  {
    FloorBounds(n, d);
    MulGap(d, n / d, q);
    MulGap(d, q, n / d);
  }

  lemma FloorAdds(x: int, y: int, d: int)
    requires d > 0
    ensures x / d + y / d <= (x + y) / d <= x / d + y / d + 1
  {
    FloorBounds(x, d);
    FloorBounds(y, d);
    var q := x / d + y / d;
    assert d * q == d * (x / d) + d * (y / d);
    if x + y < d * q + d {
      FloorUnique(x + y, d, q);
    } else {
      assert d * (q + 1) == d * q + d;
      FloorUnique(x + y, d, q + 1);
    }
  }

  lemma FeeAdds(r: Rate, a: int, b: int)
    requires Proper(r) && a >= 0 && b >= 0
    ensures Fee(r, a) + Fee(r, b) <= Fee(r, a + b) <= Fee(r, a) + Fee(r, b) + 1
  {
    assert (a + b) * r.num == a * r.num + b * r.num;
    FloorAdds(a * r.num, b * r.num, r.den);
  }

  lemma FeeWithinAmount(r: Rate, a: int)
    requires Proper(r) && a >= 0
    ensures 0 <= Fee(r, a) <= a
  {
  }

  lemma FeeStep(r: Rate, a: int, rest: int)
    requires Proper(r) && a >= 0 && rest >= 0
    ensures CaptureFee(r, a) + Fee(r, rest) <= Fee(r, a + rest) <= CaptureFee(r, a) + Fee(r, rest) + 1
    ensures rest == 0 ==> Fee(r, a + rest) == CaptureFee(r, a)
  {
    FeeWithinAmount(r, a);
    FeeAdds(r, a, rest);
  }

  /** The fee each capture of a batch posts. */
  function CaptureFeeOf<V>(r: Rate, amountOf: V -> int): V -> int {
    (v: V) => CaptureFee(r, amountOf(v))
  }

  /** The fee on a batch total against the fees on its n captures: never less, and less than n more. */
  lemma {:induction false} BatchFee<K, V>(r: Rate, batch: map<K, V>, amountOf: V -> int)
    requires Proper(r)
    requires forall k :: k in batch ==> amountOf(batch[k]) >= 0
    ensures 0 <= Fee(r, SumMap(batch, amountOf)) <= SumMap(batch, amountOf)
    ensures SumMap(batch, CaptureFeeOf(r, amountOf)) <= Fee(r, SumMap(batch, amountOf))
    ensures batch != map[] ==>
              Fee(r, SumMap(batch, amountOf)) <= SumMap(batch, CaptureFeeOf(r, amountOf)) + |batch| - 1
    decreases |batch|
  {
    SumMapNonNegative(batch, amountOf);
    FeeWithinAmount(r, SumMap(batch, amountOf));
    if batch != map[] {
      var k :| k in batch;
      var rest := batch - {k};
      SumMapRemove(batch, k, amountOf);
      SumMapRemove(batch, k, CaptureFeeOf(r, amountOf));
      SumMapNonNegative(rest, amountOf);
      BatchFee(r, rest, amountOf);
      FeeStep(r, amountOf(batch[k]), SumMap(rest, amountOf));
      assert |rest| == |batch| - 1;
    }
  }
}
