/**
 * Gross bi-weekly pay of an hourly employee (src/income.rs): hours up to
 * the standard 40 per week are paid at the hourly rate, hours above it at
 * time and a half, the week's pay is doubled for the two-week pay period,
 * and the result is rounded to whole cents.
 */
module Income {
  import opened Utils

  /** `x` is a whole number of cents. */
  predicate IsWholeCents(x: real)
  {
    (x * 100.0).Floor as real == x * 100.0
  }

  /**
   * Rounds to the nearest integer, halfway cases away from zero (the
   * behaviour of `f32::round`).
   */
  function RoundHalfAwayFromZero(x: real): (n: int)
    ensures x - n as real <= 0.5 && n as real - x <= 0.5
    ensures x - n as real == 0.5 ==> x < 0.0
    ensures n as real - x == 0.5 ==> x > 0.0
  {
    if x >= 0.0 then (x + 0.5).Floor else -((-x + 0.5).Floor)
  }

  /**
   * Rounds to 2 decimal places: the nearest whole number of cents, half a
   * cent rounded away from zero.
   */
  function Round2Decimals(value: real): (r: real)
    ensures IsWholeCents(r)
    ensures -0.005 <= r - value <= 0.005
    ensures r - value == 0.005 ==> value > 0.0
    ensures value - r == 0.005 ==> value < 0.0
    ensures value >= 0.0 ==> r >= 0.0
  {
    RoundHalfAwayFromZero(value * 100.0) as real / 100.0
  }

  /** Regular (straight-time) hours: the weekly hours capped at the standard 40. */
  function RegularHours(hoursPerWeek: real): real
  {
    if hoursPerWeek > STANDARD_HOURS_PER_WEEK then STANDARD_HOURS_PER_WEEK else hoursPerWeek
  }

  /** Overtime hours: the weekly hours above the standard 40, if any. */
  function OvertimeHours(hoursPerWeek: real): real
  {
    if hoursPerWeek > STANDARD_HOURS_PER_WEEK then hoursPerWeek - STANDARD_HOURS_PER_WEEK else 0.0
  }

  /** A week's pay before rounding: regular hours at the rate, overtime hours at 1.5 times it. */
  function WeeklyPay(rate: real, hoursPerWeek: real): real
  {
    RegularHours(hoursPerWeek) * rate + OvertimeHours(hoursPerWeek) * (rate * OVERTIME_MULTIPLIER)
  }

  /** Gross pay for one bi-weekly pay period, rounded to cents. */
  function DetermineGrossPaycheck(rate: real, hoursPerWeek: real): (gross: real)
    ensures IsWholeCents(gross)
    ensures rate >= 0.0 && hoursPerWeek >= 0.0 ==> gross >= 0.0
  {
    Round2Decimals(WeeklyPay(rate, hoursPerWeek) * PAY_PERIOD)
  }

  /** A value that is already a whole number of cents is returned unchanged. */
  lemma Round2DecimalsKeepsWholeCents(value: real)
    requires IsWholeCents(value)
    ensures Round2Decimals(value) == value
  {
    var n := (value * 100.0).Floor;
    assert RoundHalfAwayFromZero(value * 100.0) == n;
  }

  /** Rounding twice is rounding once. */
  lemma Round2DecimalsIdempotent(value: real)
    ensures Round2Decimals(Round2Decimals(value)) == Round2Decimals(value)
  {
    Round2DecimalsKeepsWholeCents(Round2Decimals(value));
  }

  /** Rounding never moves a larger value below a smaller one. */
  lemma Round2DecimalsMonotone(a: real, b: real)
    requires a <= b
    ensures Round2Decimals(a) <= Round2Decimals(b)
  {
    var x, y := a * 100.0, b * 100.0;
    assert x <= y;
    if x >= 0.0 {
      assert (x + 0.5).Floor <= (y + 0.5).Floor;
    } else if y < 0.0 {
      assert (-y + 0.5).Floor <= (-x + 0.5).Floor;
    } else {
      assert RoundHalfAwayFromZero(x) <= 0 <= RoundHalfAwayFromZero(y);
    }
  }

  /** The documented example: 123.4567 rounds to 123.46. */
  lemma Round2DecimalsExample()
    ensures Round2Decimals(123.4567) == 123.46
  {
    assert (12345.67 + 0.5).Floor == 12346;
  }

  /** Regular and overtime hours always add up to the weekly hours. */
  lemma HoursSplitAddsUp(hoursPerWeek: real)
    ensures RegularHours(hoursPerWeek) + OvertimeHours(hoursPerWeek) == hoursPerWeek
    ensures RegularHours(hoursPerWeek) <= STANDARD_HOURS_PER_WEEK
    ensures OvertimeHours(hoursPerWeek) >= 0.0
    ensures OvertimeHours(hoursPerWeek) > 0.0 <==> hoursPerWeek > STANDARD_HOURS_PER_WEEK
  {
  }

  /**
   * Up to and including 40 hours a week there is no overtime: the pay
   * period pays hours times rate for both weeks.
   */
  lemma GrossWithoutOvertime(rate: real, hoursPerWeek: real)
    requires hoursPerWeek <= STANDARD_HOURS_PER_WEEK
    ensures RegularHours(hoursPerWeek) == hoursPerWeek && OvertimeHours(hoursPerWeek) == 0.0
    ensures DetermineGrossPaycheck(rate, hoursPerWeek) == Round2Decimals(hoursPerWeek * rate * PAY_PERIOD)
  {
    var exact := WeeklyPay(rate, hoursPerWeek) * PAY_PERIOD;
    assert exact == hoursPerWeek * rate * PAY_PERIOD;
    assert DetermineGrossPaycheck(rate, hoursPerWeek) == Round2Decimals(exact);
  }

  /**
   * Above 40 hours a week, 40 hours are paid at the rate and the rest at
   * 1.5 times the rate, for both weeks of the pay period.
   */
  lemma GrossWithOvertime(rate: real, hoursPerWeek: real)
    requires hoursPerWeek > STANDARD_HOURS_PER_WEEK
    ensures RegularHours(hoursPerWeek) == 40.0 && OvertimeHours(hoursPerWeek) == hoursPerWeek - 40.0
    ensures DetermineGrossPaycheck(rate, hoursPerWeek)
         == Round2Decimals((40.0 * rate + (hoursPerWeek - 40.0) * rate * 1.5) * 2.0)
  {
    assert WeeklyPay(rate, hoursPerWeek) == 40.0 * rate + (hoursPerWeek - 40.0) * rate * 1.5;
  }

  /** Multiplying both sides by a non-negative factor keeps an inequality. */
  lemma ScaleKeepsOrder(a: real, b: real, factor: real)
    requires a <= b && factor >= 0.0
    ensures a * factor <= b * factor
  {
    assert (b - a) * factor >= 0.0;
  }

  /** With a non-negative rate, a week of more hours pays at least as much before rounding. */
  lemma WeeklyPayMonotoneInHours(rate: real, fewerHours: real, moreHours: real)
    requires rate >= 0.0 && fewerHours <= moreHours
    ensures WeeklyPay(rate, fewerHours) <= WeeklyPay(rate, moreHours)
  {
    ScaleKeepsOrder(RegularHours(fewerHours), RegularHours(moreHours), rate);
    ScaleKeepsOrder(OvertimeHours(fewerHours), OvertimeHours(moreHours), rate * OVERTIME_MULTIPLIER);
  }

  /** With a non-negative rate, working more hours never lowers the gross paycheck. */
  lemma GrossMonotoneInHours(rate: real, fewerHours: real, moreHours: real)
    requires rate >= 0.0 && fewerHours <= moreHours
    ensures DetermineGrossPaycheck(rate, fewerHours) <= DetermineGrossPaycheck(rate, moreHours)
  {
    var fewer, more := WeeklyPay(rate, fewerHours), WeeklyPay(rate, moreHours);
    WeeklyPayMonotoneInHours(rate, fewerHours, moreHours);
    ScaleKeepsOrder(fewer, more, PAY_PERIOD);
    Round2DecimalsMonotone(fewer * PAY_PERIOD, more * PAY_PERIOD);
  }

  /** The documented and tested examples: $20/h for 45 h/week and $15/h for 35 h/week. */
  lemma GrossPaycheckExamples()
    ensures DetermineGrossPaycheck(20.0, 45.0) == 1900.0
    ensures DetermineGrossPaycheck(15.0, 35.0) == 1050.0
  {
    Round2DecimalsKeepsWholeCents(1900.0);
    Round2DecimalsKeepsWholeCents(1050.0);
  }
}
