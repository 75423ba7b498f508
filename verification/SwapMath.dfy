/** The integer swap step of Uniswap v3 as the replay computes it (src/research/swap.ts). Every assertion of the
    source that can fail is a None. */
module SwapMath {
  import opened Prelude

  const Q96: int := 0x1_000000000000000000000000
  const MAX256: int := 0x1_0000000000000000_0000000000000000_0000000000000000_0000000000000000 - 1
  const MIN_SQRT_RATIO: int := 4_295_128_739
  const MAX_SQRT_RATIO: int := 1_461_446_703_485_210_103_287_273_052_203_988_822_378_723_970_342
  const PIPS: int := 1_000_000

  datatype Step = Step(price: int, amountIn: int, amountOut: int, fee: int)

  function CeilDiv(a: int, b: int): int
    requires a >= 0 && b > 0
  {
    (a + b - 1) / b
  }

  /** The token amount between two prices at a liquidity. */
  function Delta(a: int, b: int, liquidity: int, token: int, up: bool): Option<int>
  {
    var lo, hi := Min(a, b), Max(a, b);
    if lo <= 0 || liquidity < 0 then None
    else
      var numerator := if token == 0 then Product(liquidity * Q96, hi - lo) else Product(liquidity, hi - lo);
      var denominator := if token == 0 then Product(lo, hi) else Q96;
      Some(if up then CeilDiv(numerator, denominator) else numerator / denominator)
  }

  /** A product of non-negative factors, named so that its sign is known. */
  function Product(x: int, y: int): (r: int)
    requires x >= 0 && y >= 0
    ensures r >= 0 && (x > 0 && y > 0 ==> r > 0)
  {
    x * y
  }

  function NextPrice(p: int, l: int, amount: int, token: int, add: bool): Option<int>
  {
    if p <= 0 || l <= 0 || amount < 0 then None
    else if amount == 0 then Some(p)
    else if token == 1 then
      Some(if add then p + Product(amount, Q96) / l else p - CeilDiv(Product(amount, Q96), l))
    else
      var n, product := l * Q96, Product(amount, p);
      if add && (product > MAX256 || n + product > MAX256) then Some(CeilDiv(n, n / p + amount))
      else if product > MAX256 || (!add && n <= product) then None
      else Some(CeilDiv(Product(n, p), if add then n + product else n - product))
  }

  function SwapStep(p: int, target: int, l: int, remaining: int, feePips: int): Option<Step>
  {
    if feePips < 0 || feePips >= PIPS then None
    else
      var down, exactIn := p >= target, remaining >= 0;
      var inputToken, outputToken := if down then 0 else 1, if down then 1 else 0;
      var denominator := PIPS - feePips;
      var available := if exactIn then Product(remaining, denominator) / PIPS else -remaining;
      var moved := if exactIn then inputToken else outputToken;
      match Delta(p, target, l, moved, exactIn)
      case None => None
      case Some(needed) =>
        match (if available >= needed then Some(target) else NextPrice(p, l, available, moved, exactIn))
        case None => None
        case Some(price) =>
          match (Delta(p, price, l, inputToken, true), Delta(p, price, l, outputToken, false))
          case (Some(amountIn), Some(out)) =>
            if amountIn < 0 then None
            else
              var amountOut := if !exactIn && out > -remaining then -remaining else out;
              var fee := if exactIn && price != target then remaining - amountIn
                         else CeilDiv(Product(amountIn, feePips), denominator);
              if fee < 0 || price < MIN_SQRT_RATIO || price > MAX_SQRT_RATIO then None
              else Some(Step(price, amountIn, amountOut, fee))
          case _ => None
  }

  lemma {:induction false} CeilBounds(a: int, b: int)
    requires a >= 0 && b > 0
    ensures a <= CeilDiv(a, b) * b < a + b
  {
  }

  lemma {:induction false} FloorBounds(a: int, b: int)
    requires a >= 0 && b > 0
    ensures a - b < (a / b) * b <= a
  {
  }

  lemma {:induction false} LessByFactor(x: int, y: int, k: int)
    requires k > 0 && x * k < y * k
    ensures x < y
  {
  }

  lemma {:induction false} AtMostByFactor(x: int, y: int, k: int)
    requires k > 0 && x * k <= y * k
    ensures x <= y
  {
  }

  /** A token1 amount short of the target moves the price towards it and not past it. */
  lemma {:induction false} Token1InEnvelope(p: int, target: int, l: int, amount: int, add: bool)
    requires 0 < p && 0 < target && 0 < l && 0 <= amount && (add <==> p < target)
    requires amount < Delta(p, target, l, 1, add).value
    ensures NextPrice(p, l, amount, 1, add).Some?
    ensures var price := NextPrice(p, l, amount, 1, add).value; Min(p, target) <= price <= Max(p, target)
  {
    var gap := Max(p, target) - Min(p, target);
    if amount > 0 {
      FloorBounds(amount * Q96, l);
      CeilBounds(amount * Q96, l);
      CeilBounds(l * gap, Q96);
      FloorBounds(l * gap, Q96);
      assert amount * Q96 < l * gap;
      if add {
        assert amount * Q96 / l * l <= amount * Q96 < gap * l;
        LessByFactor(amount * Q96 / l, gap, l);
      } else {
        var c := CeilDiv(amount * Q96, l);
        assert (c - 1) * l < amount * Q96 < gap * l;
        LessByFactor(c - 1, gap, l);
      }
    }
  }

  lemma {:induction false} QuotientAbove(a: int, d: int, k: int)
    requires a >= 0 && d > 0 && a >= k * d
    ensures CeilDiv(a, d) >= k
  {
    CeilBounds(a, d);
    AtMostByFactor(k, CeilDiv(a, d), d);
  }

  lemma {:induction false} QuotientBelow(a: int, d: int, k: int)
    requires a >= 0 && d > 0 && a <= k * d
    ensures CeilDiv(a, d) <= k
  {
    CeilBounds(a, d);
    assert (CeilDiv(a, d) - 1) * d < k * d;
    LessByFactor(CeilDiv(a, d) - 1, k, d);
  }

  /** Below the target amount, x more (or less) of token0 keeps n*p on the near side of the target. */
  lemma {:induction false} Token0Gap(p: int, target: int, n: int, x: int, add: bool)
    requires 0 < p && 0 < target && 0 < n && 0 <= x && (add <==> target < p)
    requires x * (target * p) < n * (if add then p - target else target - p)
    ensures add ==> target * (n + x * p) < n * p
    ensures !add ==> n * p < target * (n - x * p)
  {
    assert x * (target * p) == target * (x * p);
    if add {
      assert target * (n + x * p) == target * n + target * (x * p);
      assert n * (p - target) == n * p - target * n;
    } else {
      assert target * (n - x * p) == target * n - target * (x * p);
      assert n * (target - p) == target * n - n * p;
    }
  }

  /** The quotient taken when the exact numerator would overflow 256 bits. */
  lemma {:induction false} Token0Overflow(p: int, target: int, n: int, x: int)
    requires 0 < target < p && 0 < n && 0 < x && target * (n + x * p) < n * p
    ensures target <= CeilDiv(n, n / p + x) <= p
  {
    var d := n / p + x;
    OverflowDivisor(p, n, x, d);
    QuotientBelow(n, d, p);
    OverflowAbove(p, target, n, x, d);
    QuotientAbove(n, d, target);
  }

  lemma {:induction false} OverflowDivisor(p: int, n: int, x: int, d: int)
    requires 0 < p && 0 < n && 0 < x && d == n / p + x
    ensures n <= p * d <= n + x * p && d > 0
  {
    FloorBounds(n, p);
    assert p * d == n / p * p + x * p;
    AtLeastOnce(x, p);
  }

  lemma {:induction false} AtLeastOnce(x: int, p: int)
    requires 0 < p && 0 < x
    ensures x * p >= p
  {
  }

  lemma {:induction false} OverflowAbove(p: int, target: int, n: int, x: int, d: int)
    requires 0 < target && 0 < p && p * d <= n + x * p && target * (n + x * p) < n * p
    ensures target * d <= n
  {
    var m := n + x * p;
    assert target * (p * d) <= target * m;
    assert (target * d) * p == target * (p * d);
    LessByFactor(target * d, n, p);
  }

  lemma {:induction false} PositiveFactor(x: int, y: int)
    requires x > 0 && x * y > 0
    ensures y > 0
  {
  }

  lemma {:induction false} Token0Exact(p: int, target: int, n: int, x: int, add: bool)
    requires 0 < p && 0 < target && 0 < n && 0 < x && (add <==> target < p)
    requires if add then target * (n + x * p) < n * p else n * p < target * (n - x * p)
    ensures var d := if add then n + x * p else n - x * p;
            d > 0 && Min(p, target) <= CeilDiv(Product(n, p), d) <= Max(p, target)
  {
    var d := if add then n + x * p else n - x * p;
    assert x * p > 0 && n * p > 0;
    if add {
      assert p * d == p * n + p * (x * p);
      assert p * (x * p) > 0;
      QuotientBelow(n * p, d, p);
      QuotientAbove(n * p, d, target);
    } else {
      PositiveFactor(target, d);
      assert p * d == p * n - p * (x * p);
      assert p * (x * p) > 0;
      QuotientAbove(n * p, d, p);
      QuotientBelow(n * p, d, target);
    }
  }

  /** An amount short of the exact token0 delta, cross-multiplied. */
  lemma {:induction false} Token0Short(x: int, n: int, gap: int, d: int, up: bool)
    requires n > 0 && gap > 0 && d > 0 && 0 <= x
    requires x < if up then CeilDiv(Product(n, gap), d) else Product(n, gap) / d
    ensures x * d < n * gap
  {
    CeilBounds(n * gap, d);
    FloorBounds(n * gap, d);
    var needed := if up then CeilDiv(n * gap, d) else n * gap / d;
    assert x * d <= (needed - 1) * d;
  }

  /** A token0 amount short of the target moves the price towards it and not past it. */
  lemma {:induction false} Token0InEnvelope(p: int, target: int, l: int, x: int, add: bool)
    requires 0 < p && 0 < target && p != target && 0 < l && 0 <= x && (add <==> target < p)
    requires x < Delta(p, target, l, 0, add).value
    requires NextPrice(p, l, x, 0, add).Some?
    ensures var price := NextPrice(p, l, x, 0, add).value; Min(p, target) <= price <= Max(p, target)
  {
    if x > 0 {
      var n, gap, d := l * Q96, Max(p, target) - Min(p, target), Product(Min(p, target), Max(p, target));
      assert d == target * p;
      Token0Short(x, n, gap, d, add);
      Token0Gap(p, target, n, x, add);
      Token0Exact(p, target, n, x, add);
      if add { Token0Overflow(p, target, n, x); }
    }
  }

  lemma {:induction false} ZeroQuotients(d: int)
    requires d > 0
    ensures CeilDiv(0, d) == 0 && 0 / d == 0
  {
    CeilBounds(0, d);
    FloorBounds(0, d);
    if CeilDiv(0, d) > 0 { AtLeastOnce(CeilDiv(0, d), d); }
  }

  lemma {:induction false} DeltaAtTarget(p: int, target: int, l: int, token: int, up: bool)
    requires Delta(p, target, l, token, up).Some?
    requires p == target || l == 0
    ensures Delta(p, target, l, token, up) == Some(0)
  {
    var lo, hi := Min(p, target), Max(p, target);
    ZeroQuotients(Product(lo, hi));
    ZeroQuotients(Q96);
  }

  /** A swap step never leaves the interval between its price and its target. */
  lemma {:induction false} StepInEnvelope(p: int, target: int, l: int, remaining: int, feePips: int)
    requires SwapStep(p, target, l, remaining, feePips).Some?
    ensures var step := SwapStep(p, target, l, remaining, feePips).value;
            Min(p, target) <= step.price <= Max(p, target) && step.fee >= 0
  {
    var down, exactIn := p >= target, remaining >= 0;
    var available := if exactIn then Product(remaining, PIPS - feePips) / PIPS else -remaining;
    var moved := if exactIn == down then 0 else 1;
    if p == target || l == 0 { DeltaAtTarget(p, target, l, moved, exactIn); }
    if available < Delta(p, target, l, moved, exactIn).value {
      if moved == 0 {
        Token0InEnvelope(p, target, l, available, exactIn);
      } else {
        Token1InEnvelope(p, target, l, available, exactIn);
      }
    }
  }
}
