# Payroll helpers of the paycheck estimator, in Dafny

This project models the computational core of a paycheck-estimating tool
for an hourly worker:

- **Constant table** (`utils.dfy`, module `Utils`). It holds the 2026 constants for a single filer:
  - the two-week pay period, 26 pay periods a year, 40 standard hours a week and 1.5× overtime;
  - the standard deduction of each filing status, and the Social Security and Medicare rates;
  - the seven marginal rates, the six bracket thresholds and the six bracket base taxes.

  `StandardDeduction` pairs each `FilingStatus` with the deduction constant named after it. `IntegratedBaseTax` is an independent reference for the base taxes: the tax owed at a bracket's lower limit, found by integrating the marginal rates below it.
- **Gross bi-weekly paycheck** (`income.dfy`, module `Income`). The weekly hours are split into regular hours (at most 40) and overtime hours (the rest). A week pays `regular × rate + overtime × rate × 1.5`. The pay period is two weeks, and the result is rounded to cents by `Round2Decimals`. That function rounds half a cent away from zero, as `f32::round` does.
- **Deduction collections** (`deductions.dfy`, module `Deductions`). There are two separate tagged types, `PreTaxDeduction` and `PostTaxDeduction`. Each has its own `Roth401K`, and every item carries an optional amount. Each type has a collection class whose list `Add…` extends in place. The total accumulates the amounts from 0 and counts an absent amount as 0.
- **Monthly expenses** (`expenses.dfy`, module `Expenses`). There are ten optional categories, and their total counts an absent amount as 0.
- **Amounts** (`amounts.dfy`). This module holds the optional-amount type and two ways of adding amounts. `FoldSum` is the left-to-right accumulation an iterator fold performs. `Sum` is the reference sum, with lemmas on concatenation, non-negativity and order independence.

Money is an exact `real`: there are no `f32` representation errors, so
sums are exactly order-independent.

## Model

| member | source | states |
|---|---|---|
| `Utils.PayPeriodsCoverYear` | src/utils.rs:5-9 | a 2-week pay period times 26 pay periods is 52 weeks |
| `Utils.ThresholdsStrictlyIncreasing` | src/utils.rs:66-82 | the single-filer thresholds 12400 < 50400 < 105700 < 201775 < 256225 < 640600 are positive and strictly increasing |
| `Utils.RatesStrictlyIncreasingFractions` | src/utils.rs:39-64 | the bracket rates rise strictly from 0.10 to 0.37; every bracket rate, 0.062 (Social Security) and 0.0145 (Medicare) lies strictly between 0 and 1 |
| `Utils.StandardDeductionsNonNegative` | src/utils.rs:18-37 | every filing status has a non-negative standard deduction; single and married-filing-separately are both 16100 |
| `Utils.IntegratedBaseTaxIncreasing` | src/utils.rs:45-82 | the base tax obtained by integrating the marginal rates is non-negative and strictly increasing from bracket to bracket |
| `Utils.SingleBaseTaxOffChainAtBracket4` | src/utils.rs:84-100 | the table's base taxes 1240, 5800, 41024, 58448 and 192979.25 equal the integrated values for brackets 2, 3, 5, 6 and 7; bracket 4's 17996 exceeds the integrated 17966 by 30, so the step from 4 to 5 breaks |
| `Utils.CorrectedSingleBaseTaxFollowsChain` | src/utils.rs:90-91 | with bracket 4 at 17966, every base tax equals the integrated value: bracket 2 is 12400 × 0.10, and each later base tax is the previous one plus the previous bracket's width times its rate |
| `Income.RoundHalfAwayFromZero` | src/income.rs:59 | the result is an integer within 1/2 of the input; exact halves go away from zero |
| `Income.Round2Decimals` | src/income.rs:58-60 | the result is a whole number of cents within 0.005 of the input; an exact half cent rounds away from zero; a non-negative input gives a non-negative result |
| `Income.Round2DecimalsKeepsWholeCents` | src/income.rs:58-60 | a value that is already a whole number of cents is returned unchanged |
| `Income.Round2DecimalsIdempotent` | src/income.rs:58-60 | rounding a rounded value changes nothing |
| `Income.Round2DecimalsMonotone` | src/income.rs:58-60 | rounding preserves `<=` |
| `Income.Round2DecimalsExample` | src/income.rs:50-53 | 123.4567 rounds to 123.46 |
| `Income.HoursSplitAddsUp` | src/income.rs:25-35 | regular plus overtime hours equal the weekly hours; regular hours are at most 40; overtime is non-negative, and positive exactly when the weekly hours exceed 40 |
| `Income.GrossWithoutOvertime` | src/income.rs:24-41 | up to and including 40 hours there is no overtime, and gross = round(hours × rate × 2) |
| `Income.GrossWithOvertime` | src/income.rs:24-41 | above 40 hours, regular hours are 40 and overtime is hours − 40, and gross = round((40 × rate + (hours − 40) × rate × 1.5) × 2) |
| `Income.DetermineGrossPaycheck` | src/income.rs:24-41 | the gross paycheck is a whole number of cents, and it is non-negative when rate and hours are |
| `Income.WeeklyPayMonotoneInHours` | src/income.rs:25-38 | at a non-negative rate, a week's unrounded pay does not decrease as hours grow |
| `Income.GrossMonotoneInHours` | src/income.rs:24-41 | at a non-negative rate, more hours never give a smaller gross paycheck |
| `Income.GrossPaycheckExamples` | src/income.rs:66-81 | $20/h at 45 h/week gives 1900.00, and $15/h at 35 h/week gives 1050.00 |
| `Amounts.FoldSum` | src/deductions.rs:57-69 | accumulating the amounts left to right from a start value gives the start value plus their sum |
| `Deductions.PreTaxDeductions.constructor` | src/deductions.rs:39-53 | the new collection holds exactly the given items in order, and its total is their sum |
| `Deductions.PreTaxDeductions.AddPretaxDeductions` | src/deductions.rs:46-48 | the items are appended after the existing ones, whose order is unchanged; the length grows by the number added, and the total grows by the added items' total |
| `Deductions.PreTaxDeductions.TotalPretaxDeductions` | src/deductions.rs:56-70 | the total is the sum of the items' amounts, with an absent amount counting 0 |
| `Deductions.PostTaxDeductions.constructor` | src/deductions.rs:75-89 | the new collection holds exactly the given items in order, and its total is their sum |
| `Deductions.PostTaxDeductions.AddPosttaxDeductions` | src/deductions.rs:82-84 | the items are appended after the existing ones, whose order is unchanged; the length grows by the number added, and the total grows by the added items' total |
| `Deductions.PostTaxDeductions.TotalPosttaxDeductions` | src/deductions.rs:92-105 | the total is the sum of the items' amounts, with an absent amount counting 0 |
| `Deductions.PretaxTotalIndependentOfOrder` | src/deductions.rs:56-70 | two pre-tax collections with the same items in any order have the same total |
| `Deductions.PosttaxTotalIndependentOfOrder` | src/deductions.rs:92-105 | two post-tax collections with the same items in any order have the same total |
| `Deductions.PretaxTotalExample` | src/deductions.rs:116-135 | Medical 150, Dental 50 and Traditional 401(k) 200 make 3 items totalling 400 |
| `Deductions.AddPretaxExample` | src/deductions.rs:136-147 | Medical 150, then Dental 50 and Traditional 401(k) 200 added, total 400 |
| `Deductions.PosttaxTotalExample` | src/deductions.rs:148-169 | life 30, STD 22, LTD 34 and a garnishment of 600 make 4 items totalling 686 |
| `Deductions.AddPosttaxExample` | src/deductions.rs:170-182 | life 30, then STD 22, LTD 34 and a garnishment of 600 added, total 686 |
| `Expenses.Expenses.New` | src/expenses.rs:61-65 | the list keeps the given items unchanged, and its total is their sum |
| `Expenses.Expenses.TotalMonthlyExpenses` | src/expenses.rs:67-83 | the monthly total is the sum of the amounts, with an absent amount counting 0 |
| `Expenses.EmptyExpensesTotalZero` | src/expenses.rs:67-83 | an empty list totals 0 |
| `Expenses.TotalOfConcatenation` | src/expenses.rs:67-83 | the total of two lists put together is the sum of their totals |
| `Expenses.TotalNonNegative` | src/expenses.rs:67-83 | if no amount is negative, the total is not negative |
| `Expenses.TotalIndependentOfOrder` | src/expenses.rs:67-83 | the same items in any order have the same total |
| `Expenses.DocumentedExampleTotal` | src/expenses.rs:42-54 | the nine documented items, with Water absent, total 3210 |
| `Expenses.UnitTestExampleTotal` | src/expenses.rs:92-109 | the ten unit-test items, with Gas absent, total 3610 |

## Findings

| source | as written | input that shows it | evidently intended | confidence | as-written member | corrected member |
|---|---|---|---|---|---|---|
| src/utils.rs:91 | `SINGLE_BRACKET_4_BASE_TAX = 17996.00` | taxable income at bracket 4's lower limit, 105700: 5800 + (105700 − 50400) × 0.22 = 17966. The bracket-5 base tax 41024 = 17966 + 96075 × 0.24 also assumes 17966. | 17966.00, the value the rates give and the IRS 2026 schedule lists | high; not executed | `Utils.SingleBaseTaxOffChainAtBracket4` | `Utils.CorrectedSingleBaseTaxFollowsChain` |

The model keeps both values. `SINGLE_BRACKET_4_BASE_TAX` is 17996.00, as
written. `CORRECTED_SINGLE_BRACKET_4_BASE_TAX` and `CorrectedSingleBaseTax`
give the corrected table. No modelled operation reads a base tax, because
the code has no withholding computation (see below).

## Left out

- Federal withholding, Social Security and Medicare withholding, net-paycheck composition and the budget comparison are not modelled. `src/withholdings.rs` holds only a plan in comments. `calculate_net_paycheck` and `compare_monthly_expenses_to_monthly_income`, called at `src/main.rs:69-70`, are not defined in any of the modelled source files. The constants they would use are modelled, but no bracket function is made up.
- Salary income and other pay periods (week, month, year) are not modelled, since the code computes only the bi-weekly gross pay from hourly inputs.
- `f32` arithmetic is not modelled: money and rates are exact reals. So `Round2Decimals` rounds the exact value, and every total is exactly order-independent. With `f32`, sums can differ in the last bits, and a value like 1.005 is not exactly representable, so it may round the other way.
- The CLI dispatch and console output (`src/main.rs`) are not modelled, and neither is interactive prompting (`src/interaction.rs`): both are I/O.
- `src/taxes.rs` (type declarations only, with a second `FilingStatus`) and `src/lib.rs` (module declarations) are not modelled, since they have no behaviour.
- The commented-out brackets for other filing statuses and the paid-time-off constant in `src/utils.rs` are not modelled, since they are not live code.
- `Deductions.PreTaxDeductions.GetPretaxDeductions` and `Deductions.PostTaxDeductions.GetPosttaxDeductions` have no contract of their own. They return the stored list, and what they return is stated by the constructors and `Add…` methods.
- The rounding of the gross paycheck follows the code. The gross is rounded to cents as soon as it is computed, not only at output.
