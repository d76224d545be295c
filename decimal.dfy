/**
 * The part of Python's `decimal` module that the trading bot relies on:
 * `Decimal.quantize` to a fixed number of places under the calling thread's
 * context. Values are exact reals; quantize rounds to the grid and fails
 * (InvalidOperation, here `None`) when the rounded coefficient needs more
 * digits than the precision allows.
 */
module Decimal {
  import opened Wrappers

  /**
   * The decimal context is per thread. `getcontext().prec = 12` at import
   * sets it for the main thread only; every other thread starts from
   * `DefaultContext`, whose precision is 28.
   */
  datatype Context = MainContext | WorkerContext

  /** One more than the largest coefficient the context's precision holds. */
  function MaxCoefficient(ctx: Context): (m: int)
    ensures m >= 1_000_000_000_000
  {
    match ctx
    case MainContext => 1_000_000_000_000
    case WorkerContext => 10_000_000_000_000_000_000_000_000_000
  }

  /** The two grids the bot quantizes to: `Decimal('0.00000001')` and `Decimal('0.01')`. */
  datatype Grid = Satoshi | Cent

  function Scale(g: Grid): real {
    match g
    case Satoshi => 100000000.0
    case Cent => 100.0
  }

  function Step(g: Grid): (u: real)
    ensures u > 0.0 && u * Scale(g) == 1.0
  {
    match g
    case Satoshi => 0.00000001
    case Cent => 0.01
  }

  /** `ROUND_HALF_EVEN` (the context default) and `ROUND_UP` (away from zero). */
  datatype Rounding = HalfEven | Up

  /** The integer nearest to `x`, ties to the even one. */
  function RoundHalfEven(x: real): (n: int)
    ensures x - 0.5 <= n as real <= x + 0.5
    ensures (n as real - x == 0.5 || x - n as real == 0.5) ==> n % 2 == 0
  {
    var f := x.Floor;
    var d := x - f as real;
    if d < 0.5 then f
    else if d > 0.5 then f + 1
    else if f % 2 == 0 then f
    else f + 1
  }

  /** The integer next to `x` away from zero (`x` itself when it is whole). */
  function RoundUp(x: real): (n: int)
    ensures 0.0 <= x ==> x <= n as real < x + 1.0
    ensures x < 0.0 ==> x - 1.0 < n as real <= x
  {
    if x < 0.0 then x.Floor
    else if x.Floor as real == x then x.Floor
    else x.Floor + 1
  }

  function Round(x: real, mode: Rounding): int {
    match mode
    case HalfEven => RoundHalfEven(x)
    case Up => RoundUp(x)
  }

  /** `a * b` on Decimals, exact (the context's rounding of the product to 12 digits is not modelled). */
  function Product(a: real, b: real): real {
    a * b
  }

  /** `a / b` on Decimals, exact; the source raises for a zero divisor before it gets here. */
  function Quotient(a: real, b: real): real
    requires b != 0.0
  {
    a / b
  }

  lemma ProductMonotone(k: real, a: real, b: real)
    requires 0.0 <= k && a <= b
    ensures Product(k, a) <= Product(k, b)
  {
  }

  lemma ProductStrict(k: real, a: real, b: real)
    requires 0.0 < k && a < b
    ensures Product(k, a) < Product(k, b)
  {
  }

  lemma ProductDistributes(k: real, a: real, b: real)
    ensures Product(k, a + b) == Product(k, a) + Product(k, b)
  {
  }

  lemma ProductCommutes(a: real, b: real)
    ensures Product(a, b) == Product(b, a)
  {
  }

  /** Products of values within bounds stay within the product of the bounds. */
  lemma ProductBounded(a: real, b: real, x: real, y: real)
    requires 0.0 <= a <= x && 0.0 <= b <= y
    ensures 0.0 <= Product(a, b) <= Product(x, y)
  {
    ProductMonotone(a, 0.0, b);
    ProductMonotone(a, b, y);
    ProductMonotone(y, a, x);
    ProductCommutes(a, y);
    ProductCommutes(x, y);
  }

  lemma QuotientCancels(a: real, b: real)
    requires b != 0.0
    ensures Product(b, Quotient(a, b)) == a
  {
  }

  /**
   * Buying `Quotient(c, e)` rounded up to the grid at the price `e` costs at
   * least `c` and less than one grid step more.
   */
  lemma RoundedUpCost(c: real, e: real, size: real, g: Grid)
    requires 0.0 <= c && 0.0 < e
    requires Quotient(c, e) <= size < Quotient(c, e) + Step(g)
    ensures -Product(e, Step(g)) < c - Product(e, size) <= 0.0
  {
    QuotientCancels(c, e);
    ProductMonotone(e, Quotient(c, e), size);
    ProductStrict(e, size, Quotient(c, e) + Step(g));
    ProductDistributes(e, Quotient(c, e), Step(g));
  }

  /** `x` is a whole number of grid steps. */
  predicate OnGrid(x: real, g: Grid) {
    (x * Scale(g)).Floor as real == x * Scale(g)
  }

  /** A non-zero grid value above minus one step is at least one step. */
  lemma GridPositive(x: real, g: Grid)
    requires OnGrid(x, g) && x != 0.0 && x > -Step(g)
    ensures x >= Step(g)
  {
    var n := (x * Scale(g)).Floor;
    match g
    case Satoshi => assert n as real == x * 100000000.0;
    case Cent => assert n as real == x * 100.0;
  }

  /**
   * `v` is `x` rounded half-even to the grid `g`: a grid value within half a
   * step of `x`, and the even one of the two when `x` lies exactly halfway.
   */
  predicate HalfEvenOf(v: real, x: real, g: Grid) {
    && OnGrid(v, g)
    && x - Step(g) / 2.0 <= v <= x + Step(g) / 2.0
    && ((v - x == Step(g) / 2.0 || x - v == Step(g) / 2.0) ==> (v * Scale(g)).Floor % 2 == 0)
  }

  /** `x.quantize(Step(g), rounding=mode)` under the context `ctx`. */
  function Quantize(x: real, g: Grid, mode: Rounding, ctx: Context): (r: Option<real>)
    ensures r.Some? ==> OnGrid(r.value, g)
    ensures r.Some? ==> -(MaxCoefficient(ctx) as real) < r.value * Scale(g) < MaxCoefficient(ctx) as real
    ensures r.Some? && mode == HalfEven ==> HalfEvenOf(r.value, x, g)
    ensures r.Some? && mode == Up && 0.0 <= x ==> x <= r.value < x + Step(g)
    ensures r.Some? && mode == Up && x < 0.0 ==> x - Step(g) < r.value <= x
    ensures -(MaxCoefficient(ctx) as real) + 1.0 <= x * Scale(g) <= MaxCoefficient(ctx) as real - 1.0 ==> r.Some?
    ensures x * Scale(g) >= MaxCoefficient(ctx) as real || x * Scale(g) <= -(MaxCoefficient(ctx) as real) ==> r.None?
  {
    var n := Round(x * Scale(g), mode);
    if n <= -MaxCoefficient(ctx) || MaxCoefficient(ctx) <= n then None
    else
      QuantizeFacts(x, g, mode, n);
      Some(n as real / Scale(g))
  }

  /** The grid value `n` steps from zero is within a step of `x` in the way the rounding promises. */
  lemma QuantizeFacts(x: real, g: Grid, mode: Rounding, n: int)
    requires n == Round(x * Scale(g), mode)
    ensures OnGrid(n as real / Scale(g), g)
    ensures mode == HalfEven ==> x - Step(g) / 2.0 <= n as real / Scale(g) <= x + Step(g) / 2.0
    ensures mode == HalfEven && (n as real / Scale(g) - x == Step(g) / 2.0 || x - n as real / Scale(g) == Step(g) / 2.0)
      ==> n % 2 == 0
    ensures mode == Up && 0.0 <= x ==> x <= n as real / Scale(g) < x + Step(g)
    ensures mode == Up && x < 0.0 ==> x - Step(g) < n as real / Scale(g) <= x
  {
    var v := n as real / Scale(g);
    assert v * Scale(g) == n as real;
    match g
    case Satoshi => assert (v - x) * 100000000.0 == n as real - x * 100000000.0;
    case Cent => assert (v - x) * 100.0 == n as real - x * 100.0;
  }
}
