/**
 * The budget allocation engine: a predicted income and a confidence score,
 * plus optional user percentages, are split into four buckets (buffer,
 * savings, essentials, discretionary), each a percentage and an amount.
 *
 * Amounts, confidences and percentages are integers (every caller passes
 * whole numbers); JavaScript's Math.round is rounding to the nearest integer
 * with halves rounded up.
 */
module Budget {
  import opened Wrappers

  /** A predicted income for a period and how sure the predictor is of it. */
  datatype Prediction = Prediction(amount: int, confidence: int)

  /** One bucket: a percentage of the amount and the money it stands for. */
  datatype Allocation = Allocation(pct: int, amt: int)

  datatype Allocations = Allocations(
    buffer: Allocation,
    savings: Allocation,
    essentials: Allocation,
    discretionary: Allocation)

  /** A partial record of user-chosen percentages; an absent field keeps its default. */
  datatype Overrides = Overrides(savings: Option<int>, essentials: Option<int>, discretionary: Option<int>)

  const NoOverrides: Overrides := Overrides(None, None, None)

  const DefaultSavingsPct: int := 20
  const DefaultEssentialsPct: int := 50
  const MinBufferPct: int := 8
  const MaxBufferPct: int := 20
  const MinDiscretionaryPct: int := 5

  function Min(a: int, b: int): int { if a <= b then a else b }
  function Max(a: int, b: int): int { if a >= b then a else b }

  /** Math.round(n / d) for a positive divisor: the nearest integer to n/d, halves rounded up. */
  function RoundHalfUp(n: int, d: int): (r: int)
    requires d > 0
    ensures 2 * d * r - d <= 2 * n < 2 * d * r + d
  {
    (2 * n + d) / (2 * d)
  }

  /** Rounding never reverses the order of its arguments. */
  lemma RoundHalfUpMonotone(n1: int, n2: int, d: int)
    requires d > 0 && n1 <= n2
    ensures RoundHalfUp(n1, d) <= RoundHalfUp(n2, d)
  {
    var r1, r2 := RoundHalfUp(n1, d), RoundHalfUp(n2, d);
    assert 2 * d * r1 - d < 2 * d * r2 + d;
    assert d * (r1 - r2 - 1) < 0;
    NegativeProduct(d, r1 - r2 - 1);
  }

  /** Solver hint: a negative product with a positive factor has a negative other factor. */
  lemma NegativeProduct(d: int, x: int)
    requires d > 0 && d * x < 0
    ensures x < 0
  {
  }

  /** Confidence as the engine uses it: Math.max(0, Math.min(100, confidence)). */
  function ClampConfidence(confidence: int): (c: int)
    ensures 0 <= c <= 100
    ensures 0 <= confidence <= 100 ==> c == confidence
    ensures confidence < 0 ==> c == 0
    ensures confidence > 100 ==> c == 100
  {
    Max(0, Min(100, confidence))
  }

  /** The buffer percentage: 8 plus a sixth of the missing confidence, capped at 20. */
  function BufferPct(confidence: int): (r: int)
    ensures MinBufferPct <= r <= MaxBufferPct
  {
    Min(MaxBufferPct, MinBufferPct + RoundHalfUp(100 - ClampConfidence(confidence), 6))
  }

  /**
   * An allocation is well rounded for `amount` when its amt is the nearest
   * integer to pct% of amount, halves rounded up.
   */
  predicate Rounded(a: Allocation, amount: int) {
    200 * a.amt - 100 <= 2 * (a.pct * amount) < 200 * a.amt + 100
  }

  /** The bucket for `pct`: { pct, amt: Math.round(pct / 100 * amount) }. */
  function Alloc(pct: int, amount: int): (a: Allocation)
    ensures a.pct == pct && Rounded(a, amount)
  {
    Allocation(pct, RoundHalfUp(pct * amount, 100))
  }

  /** The per-bucket rounding rule determines the amount: there is no other choice. */
  lemma RoundedIsUnique(a: Allocation, b: Allocation, amount: int)
    requires a.pct == b.pct && Rounded(a, amount) && Rounded(b, amount)
    ensures a.amt == b.amt
  {
  }

  function ComputeAllocations(pred: Prediction, overrides: Overrides): (r: Allocations)
    ensures r.buffer.pct == BufferPct(pred.confidence)
    ensures r.savings.pct == overrides.savings.GetOr(DefaultSavingsPct)
    ensures r.essentials.pct == overrides.essentials.GetOr(DefaultEssentialsPct)
    ensures overrides.discretionary.Some? ==> r.discretionary.pct == overrides.discretionary.value
    ensures overrides.discretionary.None? ==>
              && r.discretionary.pct >= MinDiscretionaryPct
              && r.discretionary.pct >= 100 - (r.buffer.pct + r.savings.pct + r.essentials.pct)
              && (r.discretionary.pct == MinDiscretionaryPct ||
                  r.buffer.pct + r.savings.pct + r.essentials.pct + r.discretionary.pct == 100)
    ensures Rounded(r.buffer, pred.amount) && Rounded(r.savings, pred.amount)
    ensures Rounded(r.essentials, pred.amount) && Rounded(r.discretionary, pred.amount)
  {
    var bufferPct := BufferPct(pred.confidence);
    var savingsPct := if overrides.savings.Some? then overrides.savings.value else DefaultSavingsPct;
    var essentialsPct := if overrides.essentials.Some? then overrides.essentials.value else DefaultEssentialsPct;
    var residualPct := Max(MinDiscretionaryPct, 100 - (bufferPct + savingsPct + essentialsPct));
    var discretionaryPct := if overrides.discretionary.Some? then overrides.discretionary.value else residualPct;
    Allocations(
      Alloc(bufferPct, pred.amount),
      Alloc(savingsPct, pred.amount),
      Alloc(essentialsPct, pred.amount),
      Alloc(discretionaryPct, pred.amount))
  }

  /** Lower confidence never gives a smaller buffer. */
  lemma BufferPctMonotone(c1: int, c2: int)
    requires c1 <= c2
    ensures BufferPct(c1) >= BufferPct(c2)
  {
    RoundHalfUpMonotone(100 - ClampConfidence(c2), 100 - ClampConfidence(c1), 6);
  }

  /** Confidence 40 gets a strictly larger buffer than confidence 90 (18 against 10). */
  lemma LowConfidenceLargerBuffer()
    ensures BufferPct(40) == 18 && BufferPct(90) == 10
    ensures BufferPct(40) > BufferPct(90)
  {
  }

  /** The cap of 20 is reached exactly for confidences up to 31. */
  lemma BufferCapped(c: int)
    ensures BufferPct(c) == MaxBufferPct <==> c <= 31
  {
    var k := RoundHalfUp(100 - ClampConfidence(c), 6);
    if c <= 31 {
      assert k >= 12;
    } else {
      assert k <= 11;
    }
  }

  /** The floor of 8 is reached exactly for confidences from 98 on. */
  lemma BufferFloor(c: int)
    ensures BufferPct(c) == MinBufferPct <==> c >= 98
  {
    var k := RoundHalfUp(100 - ClampConfidence(c), 6);
    if c >= 98 {
      assert k == 0;
    } else {
      assert k >= 1;
    }
  }

  /** Out-of-range confidences behave like the nearest bound: 100 and above give 8, 0 and below give 20. */
  lemma BufferExtremes(c: int)
    ensures c >= 100 ==> BufferPct(c) == MinBufferPct
    ensures c <= 0 ==> BufferPct(c) == MaxBufferPct
  {
    BufferCapped(c);
    BufferFloor(c);
  }

  /**
   * Without overrides the split is 20 / 50 / (30 - buffer), the residual never
   * touches its floor of 5, and the four percentages add up to exactly 100.
   */
  lemma DefaultSplit(pred: Prediction)
    ensures var r := ComputeAllocations(pred, NoOverrides);
      && r.savings.pct == 20
      && r.essentials.pct == 50
      && r.discretionary.pct == 30 - r.buffer.pct
      && r.discretionary.pct >= 10
      && r.buffer.pct + r.savings.pct + r.essentials.pct + r.discretionary.pct == 100
  {
  }

  /** A zero amount gives zero in every bucket, whatever the percentages. */
  lemma ZeroAmount(confidence: int, overrides: Overrides)
    ensures var r := ComputeAllocations(Prediction(0, confidence), overrides);
      r.buffer.amt == 0 && r.savings.amt == 0 && r.essentials.amt == 0 && r.discretionary.amt == 0
  {
  }

  /** Rounding one bucket of `amount` is off by more than -1/2 and at most +1/2, scaled by 200. */
  lemma RoundingError(a: Allocation, amount: int)
    requires Rounded(a, amount)
    ensures -100 < 200 * a.amt - 2 * (a.pct * amount) <= 100
  {
  }

  /**
   * Without overrides the four independently rounded amounts add up to
   * between amount - 1 and amount + 2.
   */
  lemma AmountConservation(pred: Prediction)
    ensures var r := ComputeAllocations(pred, NoOverrides);
      var total := r.buffer.amt + r.savings.amt + r.essentials.amt + r.discretionary.amt;
      pred.amount - 1 <= total <= pred.amount + 2
  {
    var r := ComputeAllocations(pred, NoOverrides);
    DefaultSplit(pred);
    RoundingError(r.buffer, pred.amount);
    RoundingError(r.savings, pred.amount);
    RoundingError(r.essentials, pred.amount);
    RoundingError(r.discretionary, pred.amount);
    var b, sv, e, d := r.buffer, r.savings, r.essentials, r.discretionary;
    Distribute(b.pct, sv.pct, e.pct, d.pct, pred.amount);
    SumOfRounded(pred.amount, b.amt, sv.amt, e.amt, d.amt,
                 b.pct * pred.amount, sv.pct * pred.amount, e.pct * pred.amount, d.pct * pred.amount);
  }

  /** Four amounts, each within 1/2 of a hundredth of its product, around products that make 100 times the amount. */
  lemma SumOfRounded(amount: int, a1: int, a2: int, a3: int, a4: int, m1: int, m2: int, m3: int, m4: int)
    requires m1 + m2 + m3 + m4 == 100 * amount
    requires -100 < 200 * a1 - 2 * m1 <= 100 && -100 < 200 * a2 - 2 * m2 <= 100
    requires -100 < 200 * a3 - 2 * m3 <= 100 && -100 < 200 * a4 - 2 * m4 <= 100
    ensures amount - 1 <= a1 + a2 + a3 + a4 <= amount + 2
  {
    assert -400 < 200 * (a1 + a2 + a3 + a4) - 200 * amount <= 400;
  }

  /** Solver hint: multiplication distributes over a sum of four percentages. */
  lemma Distribute(p1: int, p2: int, p3: int, p4: int, x: int)
    ensures p1 * x + p2 * x + p3 * x + p4 * x == (p1 + p2 + p3 + p4) * x
  {
  }
}
