/** Retry timing and cancellation deadlines: the immutable functions of task submission. */
module Policies {
  import opened Basics

  /** A canonical retry strategy, as stored with a task. */
  datatype Strategy =
    | NoRetry
    | Fixed(base: real)
    | Exponential(base: real, factor: real, cap: Option<real>)

  /** Cancellation limits in whole seconds. */
  datatype Policy = Policy(maxDelay: Option<int>, maxDuration: Option<int>)

  const MAX_DELAY: real := 2147483647.0

  const DEFAULT_STRATEGY: Strategy := Exponential(30.0, 2.0, Some(3600.0))

  /** The least number that rounds to no finite double: 2^1024 - 2^970. */
  const OVERFLOW: real :=
    179769313486231580793728971405303415079934132710037826936173778980444968292764750946649017977587207096330286416692887910946555547851940402630657488671505820681908902000708383676273854845817711531764475730270069855571366959622842914819860834936475292719074168444365510704342711559699508093042880177904174497792.0

  /** The greatest number that rounds to the double zero: 2^-1075, half the least positive double. */
  const UNDERFLOW: real := 1.0 /
    404804506614621236704990693437834614099113299528284236713802716054860679135990693783920767402874248990374155728633623822779617474771586953734026799881477019843034848553132722728933815484186432682479535356945490137124014966849385397236206711298319112681620113024717539104666829230461005064372655017292012526615415482186989568.0

  /** PostgreSQL refuses a double that overflows, and one that underflows to zero. */
  predicate InDoubleRange(x: real) {
    UNDERFLOW < x < OVERFLOW
  }

  predicate ValidDelay(x: real) {
    x == 0.0 || (InDoubleRange(x) && x <= MAX_DELAY)
  }

  function Cap(s: Strategy): real
    requires s.Exponential?
  {
    if s.cap.Some? then s.cap.value else MAX_DELAY
  }

  /** The checks of `retry_delay_seconds` that do not depend on the attempt. */
  predicate ValidStrategy(s: Strategy) {
    match s
    case NoRetry => true
    case Fixed(base) => ValidDelay(base)
    case Exponential(base, factor, cap) => ValidDelay(base) && InDoubleRange(factor) && ValidDelay(Cap(s))
  }

  function Power(x: real, n: nat): real {
    if n == 0 then 1.0 else x * Power(x, n - 1)
  }

  /** The delay before retrying failed attempt `attempt`; the power saturates at the cap. */
  function RetryDelay(s: Strategy, attempt: int): Result<real> {
    if attempt < 1 || !ValidStrategy(s) then Err(InvalidStrategy)
    else
      match s
      case NoRetry => Ok(0.0)
      case Fixed(base) => Ok(base)
      case Exponential(base, factor, cap) =>
        if base == 0.0 || Cap(s) == 0.0 then Ok(0.0)
        else
          Ok(Saturate(Power(factor, attempt - 1), Scaled(base, factor, attempt - 1), Cap(s)))
  }

  function Scaled(base: real, factor: real, n: nat): real {
    base * Power(factor, n)
  }

  /** `least(delay, cap)`, and the cap when either computed double is out of range. */
  function Saturate(growth: real, delay: real, cap: real): real {
    if InDoubleRange(growth) && InDoubleRange(delay) && delay < cap then delay else cap
  }

  /** The upper bound that a strategy promises for every attempt. */
  function Ceiling(s: Strategy): real {
    match s
    case NoRetry => 0.0
    case Fixed(base) => base
    case Exponential(_, _, _) => Cap(s)
  }

  lemma {:induction false} PowerPositive(x: real, n: nat)
    requires x > 0.0
    ensures Power(x, n) > 0.0
  {
    if n > 0 {
      PowerPositive(x, n - 1);
    }
  }

  lemma {:induction false} PowerGrows(x: real, m: nat, n: nat)
    requires x >= 1.0 && m <= n
    ensures 1.0 <= Power(x, m) <= Power(x, n)
    decreases n
  {
    if m < n {
      PowerGrows(x, m, n - 1);
      Scale(Power(x, n - 1), 1.0, x);
    } else if n > 0 {
      PowerGrows(x, n - 1, n - 1);
      Scale(Power(x, n - 1), 1.0, x);
    }
  }

  lemma Scale(base: real, a: real, b: real)
    requires base > 0.0 && 1.0 <= a <= b
    ensures base <= base * a <= base * b
  {
    assert base * (a - 1.0) >= 0.0 && base * (b - a) >= 0.0;
  }

  lemma ScaledNonNegative(base: real, x: real, n: nat)
    requires base >= 0.0 && x > 0.0
    ensures Scaled(base, x, n) >= 0.0
  {
    PowerPositive(x, n);
  }

  lemma ScaledGrows(base: real, x: real, m: nat, n: nat)
    requires base > 0.0 && x >= 1.0 && m <= n
    ensures 1.0 <= Power(x, m) <= Power(x, n)
    ensures base <= Scaled(base, x, m) <= Scaled(base, x, n)
  {
    PowerGrows(x, m, n);
    Scale(base, Power(x, m), Power(x, n));
  }

  /** A strategy accepted at attempt 1 has a delay at every attempt, between zero and its ceiling. */
  lemma RetryDelayTotal(s: Strategy, attempt: int)
    requires RetryDelay(s, 1).Ok?
    ensures attempt >= 1 <==> RetryDelay(s, attempt).Ok?
    ensures attempt >= 1 ==> 0.0 <= RetryDelay(s, attempt).value <= Ceiling(s) <= MAX_DELAY
  {
    if attempt >= 1 && s.Exponential? {
      ScaledNonNegative(s.base, s.factor, attempt - 1);
    }
  }

  /** With a factor of at least one the delay never shrinks from one attempt to a later one. */
  lemma RetryDelayMonotone(s: Strategy, m: int, n: int)
    requires RetryDelay(s, 1).Ok? && 1 <= m <= n
    requires s.Exponential? ==> s.factor >= 1.0
    ensures RetryDelay(s, m).Ok? && RetryDelay(s, n).Ok?
    ensures RetryDelay(s, m).value <= RetryDelay(s, n).value
  {
    RetryDelayTotal(s, m);
    RetryDelayTotal(s, n);
    if s.Exponential? && s.base > 0.0 {
      ScaledGrows(s.base, s.factor, m - 1, n - 1);
    }
  }

  /** Once the cap is reached the delay stays there, also when the power itself overflows. */
  lemma RetryDelaySaturates(s: Strategy, m: int, n: int)
    requires RetryDelay(s, 1).Ok? && 1 <= m <= n
    requires s.Exponential? && s.factor >= 1.0
    requires RetryDelay(s, m) == Ok(Cap(s))
    ensures RetryDelay(s, n) == Ok(Cap(s))
  {
    RetryDelayTotal(s, n);
    RetryDelayMonotone(s, m, n);
  }

  // ---- Factors below one ----

  /** At attempt m + 1 the computed delay is a double below the cap, so it is what is returned. */
  predicate Computed(s: Strategy, m: nat)
    requires s.Exponential?
  {
    InDoubleRange(Power(s.factor, m)) && InDoubleRange(Scaled(s.base, s.factor, m))
    && Scaled(s.base, s.factor, m) < Cap(s)
  }

  /** A strategy whose delay is neither constant nor growing by construction. */
  predicate Shrinking(s: Strategy) {
    ValidStrategy(s) && s.Exponential? && s.base > 0.0 && Cap(s) > 0.0 && s.factor < 1.0
  }

  function Delay(s: Strategy, attempt: int): real
    requires attempt >= 1 && ValidStrategy(s)
  {
    RetryDelay(s, attempt).value
  }

  /** Below one, each computed delay is smaller than the one before, and in range only if that one is. */
  lemma ScaledShrinks(base: real, x: real, m: nat)
    requires base > 0.0 && 0.0 < x < 1.0
    ensures 0.0 < Power(x, m + 1) < Power(x, m) <= 1.0
    ensures 0.0 < Scaled(base, x, m + 1) < Scaled(base, x, m) <= base
  {
    hide Power;
    PowerShrinks(x, m);
    PowerFalls(x, m);
    Products(base, Power(x, m + 1), Power(x, m), Scaled(base, x, m + 1), Scaled(base, x, m));
  }

  /** The arithmetic of it: a positive number times two fractions. */
  lemma Products(base: real, q: real, p: real, lower: real, upper: real)
    requires base > 0.0 && 0.0 < q < p <= 1.0 && lower == base * q && upper == base * p
    ensures 0.0 < lower < upper <= base
  {
    Positive(base, q, lower);
    Positive(base, p - q, upper - lower);
    if p < 1.0 {
      Positive(base, 1.0 - p, base - upper);
    }
  }

  lemma Positive(a: real, b: real, product: real)
    requires a > 0.0 && b > 0.0 && product == a * b
    ensures product > 0.0
  {
  }

  lemma ValidFactor(s: Strategy)
    requires ValidStrategy(s) && s.Exponential?
    ensures s.factor > 0.0
  {
  }

  /** A positive number times a fraction. */
  lemma Fraction(x: real, p: real, part: real)
    requires 0.0 < x < 1.0 && p > 0.0 && part == x * p
    ensures 0.0 < part < p
  {
    Positive(x, p, part);
    Positive(1.0 - x, p, p - part);
  }

  lemma PowerStep(x: real, m: nat)
    ensures Power(x, m + 1) == x * Power(x, m)
  {
  }

  lemma PowerFalls(x: real, m: nat)
    requires 0.0 < x < 1.0
    ensures 0.0 < Power(x, m + 1) < Power(x, m)
  {
    hide Power;
    PowerShrinks(x, m);
    PowerStep(x, m);
    Fraction(x, Power(x, m), Power(x, m + 1));
  }

  lemma {:induction false} PowerShrinks(x: real, m: nat)
    requires 0.0 < x < 1.0
    ensures 0.0 < Power(x, m) <= 1.0
  {
    if m > 0 {
      hide Power;
      PowerShrinks(x, m - 1);
      PowerStep(x, m - 1);
      Fraction(x, Power(x, m - 1), Power(x, m));
    }
  }

  /** From one attempt to the next the delay falls exactly when the next one is computed below the cap. */
  lemma DelayFallsIff(s: Strategy, m: nat)
    requires Shrinking(s) && m >= 1
    ensures Delay(s, m + 1) < Delay(s, m) <==> Computed(s, m)
    ensures !Computed(s, m) ==> Delay(s, m + 1) == Cap(s)
  {
    ValidFactor(s);
    ScaledShrinks(s.base, s.factor, m - 1);
    ScaledShrinks(s.base, s.factor, m);
  }

  /** The delay never falls from an attempt to a later one. */
  ghost predicate Monotone(s: Strategy)
    requires ValidStrategy(s)
  {
    forall m, n :: 1 <= m <= n ==> Delay(s, m) <= Delay(s, n)
  }

  /** Never computed below the cap from the second attempt on: every later delay is the cap. */
  ghost predicate AlwaysCapped(s: Strategy)
    requires s.Exponential?
  {
    forall m: nat :: m >= 1 ==> !Computed(s, m)
  }

  lemma CappedMonotone(s: Strategy, m: int, n: int)
    requires Shrinking(s) && AlwaysCapped(s) && 1 <= m <= n
    ensures Delay(s, m) <= Delay(s, n)
  {
    RetryDelayTotal(s, m);
    if m < n {
      DelayFallsIff(s, n - 1);
    }
  }

  /**
   * Exactly when a delay is non-decreasing over all attempts: always, except for a shrinking strategy one
   * of whose later delays is computed below the cap.
   */
  lemma MonotoneIff(s: Strategy)
    requires ValidStrategy(s)
    ensures Monotone(s) <==> !Shrinking(s) || AlwaysCapped(s)
  {
    hide RetryDelay;
    if !Shrinking(s) {
      forall m, n | 1 <= m <= n ensures Delay(s, m) <= Delay(s, n) {
        NotShrinkingMonotone(s, m, n);
      }
    } else if AlwaysCapped(s) {
      forall m, n | 1 <= m <= n ensures Delay(s, m) <= Delay(s, n) {
        CappedMonotone(s, m, n);
      }
    } else {
      var m: nat :| m >= 1 && Computed(s, m);
      DelayFallsIff(s, m);
    }
  }

  lemma NotShrinkingMonotone(s: Strategy, m: int, n: int)
    requires ValidStrategy(s) && !Shrinking(s) && 1 <= m <= n
    ensures Delay(s, m) <= Delay(s, n)
  {
    if s.Exponential? && s.factor < 1.0 {
      assert s.base == 0.0 || Cap(s) == 0.0;
    } else {
      RetryDelayMonotone(s, m, n);
    }
  }

  /** A delay that shrinks: one second, halved. */
  lemma HalvingShrinks()
    ensures var s := Exponential(1.0, 0.5, None);
      Shrinking(s) && Delay(s, 1) == 1.0 && Delay(s, 2) == 0.5 && !Monotone(s)
  {
    var s := Exponential(1.0, 0.5, None);
    assert Power(0.5, 0) == 1.0 && Power(0.5, 1) == 0.5;
    assert Delay(s, 1) == 1.0 && Delay(s, 2) == 0.5;
  }

  /** The least positive double, 2^-1074. */
  const LEAST_DOUBLE: real := 2.0 * UNDERFLOW

  /**
   * A factor below one whose delay grows: a quarter of a second times the least positive double
   * underflows, and the cap is returned.
   */
  lemma UnderflowJumps()
    ensures var s := Exponential(0.25, LEAST_DOUBLE, None);
      Shrinking(s) && Delay(s, 1) == 0.25 && Delay(s, 2) == MAX_DELAY && Monotone(s)
  {
    var s := Exponential(0.25, LEAST_DOUBLE, None);
    assert Power(LEAST_DOUBLE, 0) == 1.0 && Power(LEAST_DOUBLE, 1) == LEAST_DOUBLE;
    assert Delay(s, 1) == 0.25;
    forall m: nat | m >= 1 ensures !Computed(s, m) {
      ScaledBelow(s.base, s.factor, m);
    }
    MonotoneIff(s);
  }

  lemma {:induction false} ScaledBelow(base: real, x: real, m: nat)
    requires base > 0.0 && 0.0 < x < 1.0 && m >= 1
    ensures Scaled(base, x, m) <= base * x
    decreases m
  {
    if m == 1 {
      assert Power(x, 0) == 1.0;
      assert Power(x, 1) == x;
    } else {
      ScaledBelow(base, x, m - 1);
      ScaledShrinks(base, x, m - 1);
    }
  }

  /** A cancellation policy the database accepts: at least one limit, each a `bigint`. */
  predicate ValidPolicy(p: Policy) {
    && (p.maxDelay.Some? || p.maxDuration.Some?)
    && (p.maxDelay.Some? ==> 0 <= p.maxDelay.value <= BIGINT_MAX)
    && (p.maxDuration.Some? ==> 0 <= p.maxDuration.value <= BIGINT_MAX)
  }

  /** Before the first claim only `maxDelay` counts; from the first claim on, only `maxDuration`. */
  predicate CancellationDue(p: Option<Policy>, enqueueAt: Time, firstStartedAt: Option<Time>, at: Time) {
    p.Some? &&
    match firstStartedAt
    case None => p.value.maxDelay.Some? && at - enqueueAt >= p.value.maxDelay.value as real
    case Some(startedAt) => p.value.maxDuration.Some? && at - startedAt >= p.value.maxDuration.value as real
  }
}
