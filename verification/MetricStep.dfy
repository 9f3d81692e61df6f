/** How a metric query's step is chosen: nanosecond durations, 64-bit products,
    a clamp, a limit on the number of points, and rounding to whole seconds. */
module MetricStep {

  const SECOND: int := 1_000_000_000
  const MIN_STEP: int := 5 * SECOND
  const MAX_STEP: int := 3600 * SECOND
  const MAX_RANGE: int := 7 * 24 * 3600 * SECOND
  const MAX_POINTS: int := 1500
  const TWO64: int := 0x1_0000_0000_0000_0000
  const TWO63: int := 0x8000_0000_0000_0000

  /** Two's complement: the value a 64-bit product really has. */
  function Wrap(x: int): int {
    if -TWO63 <= x < TWO63 then x else (x + TWO63) % TWO64 - TWO63
  }

  function Clamp(step: int): int {
    if step < MIN_STEP then MIN_STEP else if step > MAX_STEP then MAX_STEP else step
  }

  /** Whole seconds, halves away from zero. */
  function RoundToSeconds(step: int): int
    requires step >= 0
  {
    (step + SECOND / 2) / SECOND
  }

  /** The step a caller asked for, or about 240 points. */
  function Requested(range: int, stepSeconds: int): int {
    if stepSeconds <= 0 then range / (240 * SECOND) else stepSeconds
  }

  /** Before the limit on points. */
  function Wanted(range: int, stepSeconds: int): int {
    Clamp(Wrap(Requested(range, stepSeconds) * SECOND))
  }

  function Limited(range: int, step: int): int
    requires step >= 1
  {
    if range / step > MAX_POINTS then range / MAX_POINTS else step
  }

  /** metrics_query.go:184-202 */
  function StepSeconds(range: int, stepSeconds: int): int
    requires range > 0
  {
    var rounded := RoundToSeconds(Limited(range, Wanted(range, stepSeconds)));
    if rounded < 1 then 1 else rounded
  }

  /** Evaluations from the start of the range to its end. */
  function Points(range: int, seconds: int): int
    requires seconds >= 1
  {
    range / (seconds * SECOND) + 1
  }

  predicate NoOverflow(stepSeconds: int) {
    stepSeconds * SECOND < TWO63
  }

  // ----- Arithmetic -----

  lemma QuotientBelow(range: int, step: int, n: int)
    requires step >= 1 && range >= 0 && n >= 0
    ensures range / step < n <==> range < n * step
  {
    var q := range / step;
    assert range == q * step + range % step;
    if q < n {
      assert (q + 1) * step <= n * step;
    } else {
      assert n * step <= q * step;
    }
  }

  /** A limited step is a fifteen-hundredth of the range and not below five seconds. */
  lemma LimitedFacts(range: int, step: int)
    requires 0 < range <= MAX_RANGE && MIN_STEP <= step <= MAX_STEP
    ensures MIN_STEP <= Limited(range, step) <= MAX_STEP
    ensures range < 1501 * Limited(range, step)
    ensures range / step > MAX_POINTS ==> range < 1500 * (Limited(range, step) + 1)
  {
    QuotientBelow(range, step, 1501);
  }

  // ----- Bounds -----

  /** For every accepted range and every 64-bit step the normalised step is from
      five seconds to an hour. */
  lemma StepIsInRange(range: int, stepSeconds: int)
    requires 0 < range <= MAX_RANGE
    ensures 5 <= StepSeconds(range, stepSeconds) <= 3600
  {
    LimitedFacts(range, Wanted(range, stepSeconds));
  }

  /** Without a step of its own a query gets 240 intervals: the most whole seconds
      that leave so many, and five for windows under twenty minutes. */
  lemma DefaultStep(range: int, stepSeconds: int)
    requires 0 < range <= MAX_RANGE && stepSeconds <= 0
    ensures
      var k := StepSeconds(range, stepSeconds);
      if range < 1_200_000_000_000 then k == 5
      else k * 240_000_000_000 <= range < (k + 1) * 240_000_000_000
  {
    var n := Requested(range, stepSeconds);
    var step := Wanted(range, stepSeconds);
    assert n == range / 240_000_000_000 && 0 <= n <= 2520;
    assert step == if n < 5 then MIN_STEP else n * SECOND;
    QuotientBelow(range, step, 1501);
  }

  /** A step asked for within the limits is the step. */
  lemma AskedStepIsKept(range: int, stepSeconds: int)
    requires 0 < range && 5 <= stepSeconds <= 3600 && range < 1501 * stepSeconds * 1_000_000_000
    ensures StepSeconds(range, stepSeconds) == stepSeconds
  {
    QuotientBelow(range, stepSeconds * SECOND, 1501);
  }

  /** Without overflow the step wanted is a whole number of seconds. */
  lemma WantedIsWhole(range: int, stepSeconds: int)
    requires 0 < range <= MAX_RANGE && NoOverflow(stepSeconds)
    ensures Wanted(range, stepSeconds) % SECOND == 0
  {
    var n := Requested(range, stepSeconds);
    assert 0 <= n;
    assert n * SECOND < TWO63;
  }

  lemma WholeRoundsToItself(step: int)
    requires step >= 0 && step % SECOND == 0
    ensures RoundToSeconds(step) * SECOND == step
  {
  }

  lemma RoundingError(step: int)
    requires step >= 0
    ensures step - SECOND / 2 <= RoundToSeconds(step) * SECOND <= step + SECOND / 2
    ensures step < RoundToSeconds(step) * SECOND + SECOND / 2
  {
  }

  /** The range resolves to at most 1650 evaluations, and to at most 1652 even if
      the product of step and second overflows. */
  lemma PointsAreBounded(range: int, stepSeconds: int)
    requires 0 < range <= MAX_RANGE
    ensures Points(range, StepSeconds(range, stepSeconds)) <= 1652
    ensures NoOverflow(stepSeconds) ==> Points(range, StepSeconds(range, stepSeconds)) <= 1650
  {
    StepIsInRange(range, stepSeconds);
    var step := Wanted(range, stepSeconds);
    var limited := Limited(range, step);
    var k := StepSeconds(range, stepSeconds);
    LimitedFacts(range, step);
    RoundingError(limited);
    assert range < 1652 * (k * SECOND);
    QuotientBelow(range, k * SECOND, 1652);
    if NoOverflow(stepSeconds) {
      WantedIsWhole(range, stepSeconds);
      if range / step <= MAX_POINTS {
        WholeRoundsToItself(step);
      }
      assert range < 1650 * (k * SECOND);
      QuotientBelow(range, k * SECOND, 1650);
    }
  }

  /** A 64-bit step whose product with one second wraps round to 5.499999744 seconds. */
  const OVERFLOWING: int := 25_923_043_426_087_375

  lemma OverflowingWraps()
    ensures Wrap(OVERFLOWING * SECOND) == 5_499_999_744 && !NoOverflow(OVERFLOWING)
  {
    assert OVERFLOWING * SECOND == 1_405_291 * TWO64 + 5_499_999_744;
  }

  /** Both bounds are reached: 8249 seconds in steps of five, and an overflowing step. */
  lemma BoundsAreTight()
    ensures NoOverflow(5) && Points(8249 * SECOND, StepSeconds(8249 * SECOND, 5)) == 1650
    ensures Points(8_255_499_615_743, StepSeconds(8_255_499_615_743, OVERFLOWING)) == 1652
  {
    OverflowingWraps();
  }

  /** The documented limit of 1500 points is kept exactly when the step, limited to
      its share of the range, is not rounded down far enough to fit another point
      in. Without overflow only a share can be rounded at all. */
  lemma WithinDocumentedLimitIff(range: int, stepSeconds: int)
    requires 0 < range <= MAX_RANGE
    ensures
      var step := Limited(range, Wanted(range, stepSeconds));
      && (range / (StepSeconds(range, stepSeconds) * SECOND) <= MAX_POINTS <==>
          !(step % SECOND < SECOND / 2 && range >= 1501 * (step / SECOND * SECOND)))
      && (NoOverflow(stepSeconds) && step % SECOND != 0 ==> step == range / MAX_POINTS)
  {
    var step := Limited(range, Wanted(range, stepSeconds));
    LimitedFacts(range, Wanted(range, stepSeconds));
    RoundedFitsIff(range, step);
    if NoOverflow(stepSeconds) {
      WantedIsWhole(range, stepSeconds);
    }
  }

  lemma RoundedFitsIff(range: int, step: int)
    requires 0 < range < 1501 * step && MIN_STEP <= step <= MAX_STEP
    ensures
      var k := RoundToSeconds(step);
      k >= 5 && (range / (k * SECOND) <= MAX_POINTS <==>
                 !(step % SECOND < SECOND / 2 && range >= 1501 * (step / SECOND * SECOND)))
  {
    var k := RoundToSeconds(step);
    QuotientBelow(range, k * SECOND, 1501);
    if step % SECOND < SECOND / 2 {
      assert k == step / SECOND;
    } else {
      assert k * SECOND >= step;
    }
  }

  // ----- Normalising twice -----

  /** A wanted step, within the limit on points as it stands, whose whole seconds
      are not: rounding it down lets in a point too many, and the share of the
      range that replaces it then is another number of seconds. */
  predicate RoundsPastLimit(range: int, step: int)
    requires range >= 0
  {
    && step % SECOND < SECOND / 2
    && 1501 * (step / SECOND * SECOND) <= range < 1501 * step
    && RoundToSeconds(range / MAX_POINTS) != step / SECOND
  }

  /** Replaced by its share of the range, a step is a fixed point: rounding never
      moves it further than the share itself. */
  lemma ShareSettles(range: int)
    requires 0 < range <= MAX_RANGE && range / MAX_POINTS >= MIN_STEP
    ensures
      var k := RoundToSeconds(range / MAX_POINTS);
      5 <= k <= 3600 && StepSeconds(range, k) == k
  {
    var k := RoundToSeconds(range / MAX_POINTS);
    assert Wanted(range, k) == k * SECOND;
    WholeRoundsToItself(k * SECOND);
  }

  /** Otherwise the step is its own rounding, and settles unless that lets in too
      many points. */
  lemma RoundingSettlesIff(range: int, step: int)
    requires 0 < range <= MAX_RANGE && MIN_STEP <= step <= MAX_STEP && range / step <= MAX_POINTS
    ensures
      var k := RoundToSeconds(step);
      5 <= k <= 3600 && (StepSeconds(range, k) == k <==> !RoundsPastLimit(range, step))
  {
    var k := RoundToSeconds(step);
    assert Wanted(range, k) == k * SECOND;
    WholeRoundsToItself(k * SECOND);
    QuotientBelow(range, step, 1501);
    QuotientBelow(range, k * SECOND, 1501);
    if step % SECOND < SECOND / 2 {
      assert k == step / SECOND;
    } else {
      assert k * SECOND >= step;
    }
  }

  /** The exact condition. A second normalisation leaves the step alone unless the
      wanted step is rounded past the limit, which takes a fraction of a second
      and so an overflowing product. */
  lemma StepSettlesIff(range: int, stepSeconds: int)
    requires 0 < range <= MAX_RANGE
    ensures StepSeconds(range, StepSeconds(range, stepSeconds)) == StepSeconds(range, stepSeconds) <==>
            !RoundsPastLimit(range, Wanted(range, stepSeconds))
  {
    var step := Wanted(range, stepSeconds);
    LimitedFacts(range, step);
    if range / step <= MAX_POINTS {
      RoundingSettlesIff(range, step);
    } else {
      QuotientBelow(range, step, 1501);
      ShareSettles(range);
    }
  }

  lemma StepSettles(range: int, stepSeconds: int)
    requires 0 < range <= MAX_RANGE && NoOverflow(stepSeconds)
    ensures StepSeconds(range, StepSeconds(range, stepSeconds)) == StepSeconds(range, stepSeconds)
  {
    StepSettlesIff(range, stepSeconds);
    WantedIsWhole(range, stepSeconds);
  }

  /** The machine's second check can change the step the controller admitted. */
  lemma OverflowingStepDoesNotSettle()
    ensures StepSeconds(8_255_499_615_743, OVERFLOWING) == 5
    ensures StepSeconds(8_255_499_615_743, 5) == 6
  {
    OverflowingWraps();
  }
}
