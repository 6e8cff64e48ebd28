/** Fixed-point interest arithmetic with six decimal places (scale 10^6).

    The functions mirror the off-chain helpers that the ledger's tests use to
    predict on-chain results. Those helpers work on signed big integers whose
    division truncates toward zero, so the model works on `int` and spells the
    truncation out (`TDiv`); Dafny's own `/` is Euclidean. The on-chain
    counterpart works on unsigned 256-bit words with checked subtraction; the
    `Checked*` functions model that and are proved to agree with the signed
    mirror exactly when the mirror stays non-negative. */
module InterestMaths {
  import opened Outcomes

  /** One unit in fixed point: 1.0 is represented as 10^6. */
  const SCALE: int := 1_000_000

  function Abs(x: int): int { if x < 0 then -x else x }

  /** Integer division truncating toward zero: the remainder takes the sign
      of the dividend and is smaller than the divisor in magnitude. */
  function TDiv(a: int, b: int): (q: int)
    requires b != 0
    ensures a >= 0 ==> 0 <= a - q * b < Abs(b)
    ensures a < 0 ==> -Abs(b) < a - q * b <= 0
  {
    if a >= 0 then
      (if b > 0 then a / b else -(a / -b))
    else
      (if b > 0 then -((-a) / b) else (-a) / (-b))
  }

  /** Fixed-point product: x * y / SCALE, truncated toward zero. */
  function Fmul(x: int, y: int): (r: int)
    ensures x * y >= 0 ==> r * SCALE <= x * y < r * SCALE + SCALE
    ensures x * y < 0 ==> r * SCALE - SCALE < x * y <= r * SCALE
  {
    TDiv(x * y, SCALE)
  }

  /** Fixed-point quotient: x * SCALE / y, truncated toward zero. Division by
      zero throws in the source, so y == 0 is excluded. */
  function Fdiv(x: int, y: int): (r: int)
    requires y != 0
    ensures x * SCALE >= 0 ==> 0 <= x * SCALE - r * y < Abs(y)
    ensures x * SCALE < 0 ==> -Abs(y) < x * SCALE - r * y <= 0
  {
    TDiv(x * SCALE, y)
  }

  /** Dividing an exact multiple of SCALE by SCALE gives the multiplier back. */
  lemma TDivScaleMultiple(x: int)
    ensures TDiv(x * SCALE, SCALE) == x
  {
    var q := TDiv(x * SCALE, SCALE);
    assert x * SCALE - q * SCALE == (x - q) * SCALE;
    if x * SCALE >= 0 {
      assert 0 <= (x - q) * SCALE < SCALE;
    } else {
      assert -SCALE < (x - q) * SCALE <= 0;
    }
  }

  /** SCALE is the unit of fixed-point multiplication. */
  lemma FmulByScale(x: int)
    ensures Fmul(x, SCALE) == x
    ensures Fmul(SCALE, x) == x
  {
    TDivScaleMultiple(x);
    assert SCALE * x == x * SCALE;
  }

  /** Dividing by SCALE in fixed point is the identity. */
  lemma FdivByScale(x: int)
    ensures Fdiv(x, SCALE) == x
  {
    TDivScaleMultiple(x);
  }

  /** The product of non-negative values is non-negative and at most the
      exact fixed-point product. */
  lemma FmulNonNegative(x: int, y: int)
    requires x >= 0 && y >= 0
    ensures 0 <= Fmul(x, y)
    ensures Fmul(x, y) * SCALE <= x * y
  {
    assert x * y >= 0;
  }

  /** A negative amount times a non-negative rate is never positive. */
  lemma FmulNegativeAmount(x: int, y: int)
    requires x < 0 && y >= 0
    ensures Fmul(x, y) <= 0
  {
    assert x * y <= 0 by {
      assert x * y == -((-x) * y);
    }
  }

  /** Fixed-point power x^n, truncating after every multiplication: this is
      the recursion that the accumulating loop of the source follows. */
  function Fexp(x: int, n: nat): int
  {
    if n == 0 then SCALE else Fmul(Fexp(x, n - 1), x)
  }

  /** The source's loop: start at SCALE and multiply `exp` times by x. */
  method ComputeFexp(x: int, exp: nat) returns (acc: int)
    ensures acc == Fexp(x, exp)
  {
    acc := SCALE;
    for i := 0 to exp
      invariant acc == Fexp(x, i)
    {
      acc := Fmul(acc, x);
    }
  }

  /** Raising 1.0 to any power gives 1.0, in spite of the truncation. */
  lemma {:induction false} FexpOfScale(n: nat)
    ensures Fexp(SCALE, n) == SCALE
  {
    if n > 0 {
      FexpOfScale(n - 1);
      FmulByScale(SCALE);
    }
  }

  /** Compounding factor for a per-period rate: (1 + rate)^exp in fixed
      point. A zero rate compounds to exactly 1.0, and one period gives
      1.0 + rate. */
  function Fiexp(rate: int, exp: nat): (r: int)
    ensures rate == 0 ==> r == SCALE
    ensures exp == 1 ==> r == SCALE + rate
  {
    FexpOfScale(exp);
    FmulByScale(SCALE + rate);
    assert Fexp(SCALE + rate, 1) == Fmul(SCALE, SCALE + rate);
    Fexp(SCALE + rate, exp)
  }

  /** One period: add the interest on the amount, then subtract the payment.
      Interest is always computed on the amount before the payment. */
  function AccrueOnce(amount: int, r: int, payment: int): (a: int)
    ensures amount >= 0 && r >= 0 ==> amount - payment <= a
    ensures amount >= 0 && r >= 0 ==> (a + payment - amount) * SCALE <= amount * r
  {
    FmulNonNegativeIfBoth(amount, r);
    amount + Fmul(amount, r) - payment
  }

  /** Helper for the contract of AccrueOnce. */
  lemma FmulNonNegativeIfBoth(x: int, y: int)
    ensures x >= 0 && y >= 0 ==> 0 <= Fmul(x, y) && Fmul(x, y) * SCALE <= x * y
  {
    if x >= 0 && y >= 0 {
      FmulNonNegative(x, y);
    }
  }

  /** The payment of a period is taken after the interest: paying p changes
      the result by exactly p, whatever the rate. */
  lemma AccrueBeforePayment(amount: int, r: int, payment: int)
    ensures AccrueOnce(amount, r, payment) == AccrueOnce(amount, r, 0) - payment
  {
  }

  /** `reps` periods with the same payment in each, as a recursion on the
      amount carried into the next period. */
  function AccrueMany(amount: int, r: int, reps: nat, payment: int): int
    decreases reps
  {
    if reps == 0 then amount
    else AccrueMany(AccrueOnce(amount, r, payment), r, reps - 1, payment)
  }

  /** Accruing once through AccrueMany is AccrueOnce. */
  lemma AccrueManyOne(amount: int, r: int, payment: int)
    ensures AccrueMany(amount, r, 1, payment) == AccrueOnce(amount, r, payment)
  {
  }

  /** m periods followed by n periods are m + n periods. */
  lemma {:induction false} AccrueManyCompose(amount: int, r: int, m: nat, n: nat, payment: int)
    ensures AccrueMany(AccrueMany(amount, r, m, payment), r, n, payment)
         == AccrueMany(amount, r, m + n, payment)
    decreases m
  {
    if m > 0 {
      AccrueManyCompose(AccrueOnce(amount, r, payment), r, m - 1, n, payment);
    }
  }

  /** The last period of n + 1 applies AccrueOnce to the result of the first n. */
  lemma AccrueManyLast(amount: int, r: int, n: nat, payment: int)
    ensures AccrueMany(amount, r, n + 1, payment)
         == AccrueOnce(AccrueMany(amount, r, n, payment), r, payment)
  {
    AccrueManyCompose(amount, r, n, 1, payment);
  }

  /** The source's loop: rebind the amount to its accrual `reps` times. */
  method ComputeAccrueMany(amount: int, r: int, reps: nat, payment: int) returns (a: int)
    ensures a == AccrueMany(amount, r, reps, payment)
  {
    a := amount;
    for i := 0 to reps
      invariant a == AccrueMany(amount, r, i, payment)
    {
      AccrueManyLast(amount, r, i, payment);
      a := AccrueOnce(a, r, payment);
    }
  }

  /** Without payments a non-negative amount never shrinks at a non-negative rate. */
  lemma {:induction false} AccrueManyGrows(amount: int, r: int, n: nat)
    requires amount >= 0 && r >= 0
    ensures AccrueMany(amount, r, n, 0) >= amount
    decreases n
  {
    if n > 0 {
      AccrueManyGrows(AccrueOnce(amount, r, 0), r, n - 1);
    }
  }

  /** Once an amount is negative it stays negative under further accrual
      with a non-negative rate and payment. */
  lemma {:induction false} NegativeStaysNegative(amount: int, r: int, n: nat, payment: int)
    requires amount < 0 && r >= 0 && payment >= 0
    ensures AccrueMany(amount, r, n, payment) < 0
    decreases n
  {
    if n > 0 {
      FmulNegativeAmount(amount, r);
      NegativeStaysNegative(AccrueOnce(amount, r, payment), r, n - 1, payment);
    }
  }

  /** Multiplying by (1.0 + r) in fixed point is one accrual without payment. */
  lemma FmulOnePlusRate(a: int, r: int)
    requires a >= 0 && r >= 0
    ensures Fmul(a, SCALE + r) == AccrueOnce(a, r, 0)
  {
    assert a * (SCALE + r) == a * SCALE + a * r;
    assert a * r >= 0;
    var q := Fmul(a, r);
    var t := Fmul(a, SCALE + r);
    assert q * SCALE <= a * r < q * SCALE + SCALE;
    assert t * SCALE <= a * SCALE + a * r < t * SCALE + SCALE;
    assert (t - a - q) * SCALE < SCALE && (a + q - t) * SCALE < SCALE;
  }

  /** The compounding factor of the source is the accrual of one unit with no
      payments: fiexp(r, n) == accrueMany(SCALE, r, n, 0) for r >= 0. */
  lemma {:induction false} FiexpIsAccrualOfUnit(r: int, n: nat)
    requires r >= 0
    ensures Fiexp(r, n) == AccrueMany(SCALE, r, n, 0)
  {
    if n > 0 {
      FiexpIsAccrualOfUnit(r, n - 1);
      AccrueManyGrows(SCALE, r, n - 1);
      FmulOnePlusRate(AccrueMany(SCALE, r, n - 1, 0), r);
      AccrueManyLast(SCALE, r, n - 1, 0);
    }
  }

  /** A non-negative rate never compounds below 1.0. */
  lemma FiexpAtLeastUnit(r: int, n: nat)
    requires r >= 0
    ensures Fiexp(r, n) >= SCALE
  {
    FiexpIsAccrualOfUnit(r, n);
    AccrueManyGrows(SCALE, r, n);
  }

  /** On-chain accrual of one period over unsigned words: the subtraction of
      the payment reverts (None) instead of going below zero. */
  function CheckedAccrueOnce(amount: nat, r: nat, payment: nat): (res: Option<nat>)
    ensures res.Some? <==> payment <= amount + Fmul(amount, r)
    ensures res.Some? ==> res.value >= amount - payment
  {
    var a := AccrueOnce(amount, r, payment);
    if a < 0 then None else Some(a)
  }

  /** On-chain accrual of `reps` periods: reverts as soon as one period would
      go below zero. */
  function CheckedAccrueMany(amount: nat, r: nat, reps: nat, payment: nat): (res: Option<nat>)
    ensures reps == 0 ==> res == Some(amount)
    ensures payment == 0 ==> res.Some? && res.value >= amount
    decreases reps
  {
    if reps == 0 then Some(amount)
    else match CheckedAccrueOnce(amount, r, payment)
      case None => None
      case Some(next) => CheckedAccrueMany(next, r, reps - 1, payment)
  }

  /** The checked accrual succeeds exactly when the signed mirror ends
      non-negative, and then both give the same amount. */
  lemma {:induction false} CheckedAccrueManyAgrees(amount: nat, r: nat, reps: nat, payment: nat)
    ensures CheckedAccrueMany(amount, r, reps, payment).Some?
        <==> AccrueMany(amount, r, reps, payment) >= 0
    ensures CheckedAccrueMany(amount, r, reps, payment).Some? ==>
              CheckedAccrueMany(amount, r, reps, payment).value == AccrueMany(amount, r, reps, payment)
    decreases reps
  {
    if reps > 0 {
      var next := AccrueOnce(amount, r, payment);
      if next < 0 {
        NegativeStaysNegative(next, r, reps - 1, payment);
      } else {
        CheckedAccrueManyAgrees(next, r, reps - 1, payment);
      }
    }
  }
}
