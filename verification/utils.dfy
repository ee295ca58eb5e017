/**
 * The 2026 payroll constant table (src/utils.rs): pay-period lengths, the
 * overtime rule, the FICA rates, the standard deduction of each filing
 * status, the seven marginal rates and, for a single filer, the six bracket
 * thresholds and the base tax owed at the lower limit of brackets 2 to 7.
 * Money and rates are exact reals.
 */
module Utils {

  /** A pay period lasts two weeks. */
  const PAY_PERIOD: real := 2.0

  /** Bi-weekly pay periods in a year. */
  const PAY_PERIODS_PER_YEAR: real := 26.0

  /** Full-time hours per week; hours above this are overtime. */
  const STANDARD_HOURS_PER_WEEK: real := 40.0

  /** Overtime pays time and a half. */
  const OVERTIME_MULTIPLIER: real := 1.5

  /** Filing statuses; only the single filer has a bracket table. */
  datatype FilingStatus = Single | MarriedFilingJointly | MarriedFilingSeparate | HeadOfHousehold

  const SINGLE_DEDUCTION: real := 16100.0
  const HEAD_OF_HOUSEHOLD_DEDUCTION: real := 24150.0
  const MARRIED_FILING_JOINTLY_DEDUCTION: real := 32200.0
  const MARRIED_FILING_SEPERATE_DEDUCTION: real := 16100.0

  const SOCIAL_SECURITY_RATE: real := 0.062
  const MEDICARE_RATE: real := 0.0145

  const TAX_BRACKET_1_RATE: real := 0.10
  const TAX_BRACKET_2_RATE: real := 0.12
  const TAX_BRACKET_3_RATE: real := 0.22
  const TAX_BRACKET_4_RATE: real := 0.24
  const TAX_BRACKET_5_RATE: real := 0.32
  const TAX_BRACKET_6_RATE: real := 0.35
  const TAX_BRACKET_7_RATE: real := 0.37

  // Upper limit of single-filer bracket n; bracket 7 is open-ended.
  const SINGLE_BRACKET_1_THRESHOLD: real := 12400.0
  const SINGLE_BRACKET_2_THRESHOLD: real := 50400.0
  const SINGLE_BRACKET_3_THRESHOLD: real := 105700.0
  const SINGLE_BRACKET_4_THRESHOLD: real := 201775.0
  const SINGLE_BRACKET_5_THRESHOLD: real := 256225.0
  const SINGLE_BRACKET_6_THRESHOLD: real := 640600.0

  // Tax owed on income up to the lower limit of single-filer bracket n, as the table states it.
  const SINGLE_BRACKET_2_BASE_TAX: real := 1240.0
  const SINGLE_BRACKET_3_BASE_TAX: real := 5800.0
  const SINGLE_BRACKET_4_BASE_TAX: real := 17996.0
  const SINGLE_BRACKET_5_BASE_TAX: real := 41024.0
  const SINGLE_BRACKET_6_BASE_TAX: real := 58448.0
  const SINGLE_BRACKET_7_BASE_TAX: real := 192979.25

  /**
   * The base tax of bracket 4 that integrating the marginal rates gives
   * (and that the IRS publishes for 2026); the table's 17996.00 is off by 30.
   */
  const CORRECTED_SINGLE_BRACKET_4_BASE_TAX: real := 17966.0

  /** The standard deduction of each filing status. */
  function StandardDeduction(status: FilingStatus): real
  {
    match status
    case Single => SINGLE_DEDUCTION
    case MarriedFilingJointly => MARRIED_FILING_JOINTLY_DEDUCTION
    case MarriedFilingSeparate => MARRIED_FILING_SEPERATE_DEDUCTION
    case HeadOfHousehold => HEAD_OF_HOUSEHOLD_DEDUCTION
  }

  /** The marginal rate of bracket n, 1 <= n <= 7. */
  function BracketRate(n: nat): real
    requires 1 <= n <= 7
  {
    if n == 1 then TAX_BRACKET_1_RATE
    else if n == 2 then TAX_BRACKET_2_RATE
    else if n == 3 then TAX_BRACKET_3_RATE
    else if n == 4 then TAX_BRACKET_4_RATE
    else if n == 5 then TAX_BRACKET_5_RATE
    else if n == 6 then TAX_BRACKET_6_RATE
    else TAX_BRACKET_7_RATE
  }

  /** The upper limit of single-filer bracket n, 1 <= n <= 6. */
  function SingleThreshold(n: nat): real
    requires 1 <= n <= 6
  {
    if n == 1 then SINGLE_BRACKET_1_THRESHOLD
    else if n == 2 then SINGLE_BRACKET_2_THRESHOLD
    else if n == 3 then SINGLE_BRACKET_3_THRESHOLD
    else if n == 4 then SINGLE_BRACKET_4_THRESHOLD
    else if n == 5 then SINGLE_BRACKET_5_THRESHOLD
    else SINGLE_BRACKET_6_THRESHOLD
  }

  /** The lower limit of single-filer bracket n: 0 for bracket 1, else the threshold below it. */
  function SingleLowerLimit(n: nat): real
    requires 1 <= n <= 7
  {
    if n == 1 then 0.0 else SingleThreshold(n - 1)
  }

  /** The base tax of single-filer bracket n as the table states it, 2 <= n <= 7. */
  function SingleBaseTax(n: nat): real
    requires 2 <= n <= 7
  {
    if n == 2 then SINGLE_BRACKET_2_BASE_TAX
    else if n == 3 then SINGLE_BRACKET_3_BASE_TAX
    else if n == 4 then SINGLE_BRACKET_4_BASE_TAX
    else if n == 5 then SINGLE_BRACKET_5_BASE_TAX
    else if n == 6 then SINGLE_BRACKET_6_BASE_TAX
    else SINGLE_BRACKET_7_BASE_TAX
  }

  /** The base-tax table with bracket 4 corrected to the integrated value. */
  function CorrectedSingleBaseTax(n: nat): real
    requires 2 <= n <= 7
  {
    if n == 4 then CORRECTED_SINGLE_BRACKET_4_BASE_TAX else SingleBaseTax(n)
  }

  /**
   * Reference definition of a base tax: the tax owed on income up to the
   * lower limit of bracket n, obtained by integrating the marginal rates of
   * the brackets below it.
   */
  function IntegratedBaseTax(n: nat): real
    requires 1 <= n <= 7
  {
    if n == 1 then 0.0
    else IntegratedBaseTax(n - 1) + (SingleLowerLimit(n) - SingleLowerLimit(n - 1)) * BracketRate(n - 1)
  }

  /** One pay period times the pay periods per year covers the 52 weeks of a year. */
  lemma PayPeriodsCoverYear()
    ensures PAY_PERIOD * PAY_PERIODS_PER_YEAR == 52.0
  {
  }

  /** The single-filer thresholds are strictly increasing and positive. */
  lemma ThresholdsStrictlyIncreasing()
    ensures SingleThreshold(1) > 0.0
    ensures forall i, j :: 1 <= i < j <= 6 ==> SingleThreshold(i) < SingleThreshold(j)
  {
  }

  /**
   * The marginal rates are strictly increasing from 10% to 37%, and every
   * rate, the Social Security rate and the Medicare rate lie strictly
   * between 0 and 1.
   */
  lemma RatesStrictlyIncreasingFractions()
    ensures BracketRate(1) == 0.10 && BracketRate(7) == 0.37
    ensures forall i, j :: 1 <= i < j <= 7 ==> BracketRate(i) < BracketRate(j)
    ensures forall i :: 1 <= i <= 7 ==> 0.0 < BracketRate(i) < 1.0
    ensures 0.0 < SOCIAL_SECURITY_RATE < 1.0 && 0.0 < MEDICARE_RATE < 1.0
  {
  }

  /**
   * Every filing status has a non-negative standard deduction, and a single
   * filer gets the same $16,100 as a married filer filing separately.
   */
  lemma StandardDeductionsNonNegative()
    ensures forall status :: StandardDeduction(status) >= 0.0
    ensures StandardDeduction(Single) == StandardDeduction(MarriedFilingSeparate) == 16100.0
  {
  }

  /** The integrated base taxes grow strictly from one bracket to the next. */
  lemma {:induction false} IntegratedBaseTaxIncreasing(n: nat)
    requires 2 <= n <= 7
    ensures IntegratedBaseTax(n) > IntegratedBaseTax(n - 1) >= 0.0
  {
    if n > 2 {
      IntegratedBaseTaxIncreasing(n - 1);
    }
  }

  /**
   * As written, the table agrees with the integrated base tax in every
   * bracket except bracket 4, where it is 30 too high; so the cumulative
   * step from bracket 3 to 4 and from 4 to 5 both break there.
   */
  lemma SingleBaseTaxOffChainAtBracket4()
    ensures forall n :: 2 <= n <= 7 && n != 4 ==> SingleBaseTax(n) == IntegratedBaseTax(n)
    ensures SingleBaseTax(4) == IntegratedBaseTax(4) + 30.0
    ensures SingleBaseTax(5) != SingleBaseTax(4) + (SingleThreshold(4) - SingleThreshold(3)) * BracketRate(4)
  {
    assert IntegratedBaseTax(2) == 1240.0;
    assert IntegratedBaseTax(3) == 5800.0;
    assert IntegratedBaseTax(4) == 17966.0;
    assert IntegratedBaseTax(5) == 41024.0;
    assert IntegratedBaseTax(6) == 58448.0;
    assert IntegratedBaseTax(7) == 192979.25;
  }

  /**
   * With bracket 4 corrected, every base tax is the integral of the marginal
   * rates, and each one is the previous base tax plus the previous bracket's
   * width times its rate.
   */
  lemma CorrectedSingleBaseTaxFollowsChain()
    ensures forall n :: 2 <= n <= 7 ==> CorrectedSingleBaseTax(n) == IntegratedBaseTax(n)
    ensures CorrectedSingleBaseTax(2) == SingleThreshold(1) * BracketRate(1)
    ensures forall n :: 3 <= n <= 7 ==>
      CorrectedSingleBaseTax(n) == CorrectedSingleBaseTax(n - 1) + (SingleThreshold(n - 1) - SingleThreshold(n - 2)) * BracketRate(n - 1)
  {
    SingleBaseTaxOffChainAtBracket4();
  }
}
