# Borrower scoring — a Dafny model

This project models the borrower-scoring rule of `borrower_scoring.py` and the
category tables of `enums.py`.

A scoring object is built from eight arguments: age, income amount, loan rating,
loan amount, credit term, sex, income source and purpose. The constructor checks
the arguments in that order and raises a named exception for the first one that
is invalid. It stores the eight fields only when every check passes.

`score()` runs five eligibility gates in order:

1. unemployed borrower;
2. prohibited rating;
3. last payment after the retirement age;
4. principal-only installment above a third of the income;
5. loan above the lending ceiling.

The first gate that fails makes the result `None`. If all five pass, it computes

    rate    = 10 + purpose + rating.percent + source.percent - log10(loan amount)
    payment = loan amount * (1 + term * rate / 100) / term

and returns the payment, unless the payment exceeds half the income (then `None`).

Files:

- `wrappers.dfy`: `Option` and `Result`.
- `enums.dfy` (module `Enums`): the four tables as closed datatypes with coefficient functions.
- `borrower_scoring.dfy` (module `BorrowerScoring`):
  - the raw arguments (`RawInput`: numbers are Python `int` or `float`, and a category slot may hold a non-member);
  - the failure kinds (`ErrorKind`, one per exception);
  - the validator `Validate`;
  - the validated fields `Request`;
  - one predicate per gate;
  - `Adjustment`, `Rate`, `Payment` and `Score`;
  - the lemmas.
- `scenarios.dfy` (module `Scenarios`): the repository's test vectors, stated as lemmas.

Modelling decisions:

- **Immutable object.** The object's fields are written only by the constructor, so the object is the immutable value `Request`. Its subset types carry the constructor's guarantees (`age >= 0`, `income >= 1`, `0.1 <= loan <= 10`, `1 <= term <= 20`). `Score` is a pure function of it, so scoring cannot change a field.
- **log10.** `math.log10` is a library call. It enters every formula as a parameter `lg: real -> real`. The ghost predicate `IsLog10Model` gives the laws the proofs use: `lg(0.1) = -1`, `lg(1) = 0`, `lg(10) = 1`, and `-1 <= lg(x) <= 1` on `[0.1, 10]`. The monotonicity lemma also uses `IsSublinear`: `lg(y) - lg(x) <= (y - x) / x` for `0.1 <= x <= y <= 10`. This holds for log10 because `ln(y/x) <= y/x - 1` and `ln 10 > 1`.
- **Numbers.** Python numbers are exact reals. A test value such as 0.1 is therefore exactly 1/10. Expected values are the exact rationals, not their floating-point renderings: the model gives 0.295 where the test file has 0.29500000000000004.

Behaviour of the code that the model makes explicit:

- The checks run in a fixed order, and the first failing one decides the exception. Construction succeeds only when all eight hold (`ValidateReportsFirstFailure`; instances in `ValidationOrderScenarios`).
- `credit_term in range(1, 21)` compares by value, so a whole-valued float such as `20.0` is a valid term (`CreditTermCheck`). Age and income must have type `int`, so `25.0` is rejected as an age.
- Under the log10 laws the effective rate lies in [6, 14.5] percent (`Rate`), and a returned payment is strictly positive (`ScoreIsPositivePayment`).
- The gate predicate `__is_payment_less_than_third_of_income` is true when the installment is MORE than a third of the income, and then it rejects. The model keeps the source's name and its behaviour (`IsPaymentLessThanThirdOfIncome`).
- The test `test_negative_year_payment_more_than_half_income_condition` is already rejected by the income-ratio gate, before the affordability gate (`IneligibleScenarios`). `AffordabilityGateCanReject` shows a request that passes all five gates and is refused only by the affordability gate.

## Model

| member | source | states |
|---|---|---|
| `Enums.LoanRating.Amount` | enums.py:6-14 | a rating's lending ceiling lies in [0, 10] and is 0 exactly for PROHIBITED |
| `Enums.LoanRating.Percent` | enums.py:6-18 | a rating's rate adjustment lies in [-0.75, 1.5] |
| `Enums.Purpose.Value` | enums.py:21-26 | a purpose's rate adjustment lies in [-2, 1.5] |
| `Enums.IncomeSource.Amount` | enums.py:29-38 | an income source's lending ceiling lies in [0, 10] and is 0 exactly for UNEMPLOYED |
| `Enums.IncomeSource.Percent` | enums.py:29-42 | an income source's rate adjustment lies in [-0.25, 0.5] |
| `Enums.Sex.RetirementAge` | enums.py:45-48 | the retirement age is 65 exactly for MALE and otherwise 60 |
| `BorrowerScoring.Adjustment` | borrower_scoring.py:98 | the sum of the purpose, rating and source adjustments lies in [-3, 3.5] |
| `BorrowerScoring.AdjustmentBoundsAttained` | enums.py:6-34 | both ends of [-3, 3.5] are reached by categories with a positive ceiling |
| `BorrowerScoring.Validate` | borrower_scoring.py:18-50 | a success stores the eight arguments' values unchanged |
| `BorrowerScoring.CreditTermCheck` | borrower_scoring.py:31-32 | the whole-number test of the credit term agrees with membership in `range(1, 21)` |
| `BorrowerScoring.ValidateReportsFirstFailure` | borrower_scoring.py:19-41 | construction succeeds iff all eight checks hold; a failure names an argument whose check fails, and it comes first in check order among the failing ones |
| `BorrowerScoring.IsUnreliableBorrower` | borrower_scoring.py:75-76 | gate 1 rejects exactly the income source with no lending ceiling |
| `BorrowerScoring.IsLoanRatingProhibited` | borrower_scoring.py:78-79 | gate 2 rejects exactly the rating with no lending ceiling |
| `BorrowerScoring.IsLastPaymentDateMoreThanRetirementAge` | borrower_scoring.py:81-82 | gate 3 passes iff the term fits in the years left before retirement; a last payment exactly at the retirement age passes and one year later is rejected |
| `BorrowerScoring.AvailableLoanAmount` | borrower_scoring.py:84-85 | the ceiling is one of the two category ceilings and at most each of them |
| `BorrowerScoring.IsPaymentLessThanThirdOfIncome` | borrower_scoring.py:87-88 | gate 4 rejects iff 3 * loan > term * income (equality passes) |
| `BorrowerScoring.IsAvailableLoanAmountLessThanDesired` | borrower_scoring.py:90-91 | gate 5 passes iff the loan is at most both category ceilings (equality passes) |
| `BorrowerScoring.LoanAmountRate` | borrower_scoring.py:93-94 | the loan-size discount lies in [-1, 1] under the log10 laws |
| `BorrowerScoring.Rate` | borrower_scoring.py:96-101 | the rate is base 10 plus the adjustments minus the discount, and lies in [6, 14.5] under the log10 laws |
| `BorrowerScoring.Payment` | borrower_scoring.py:103-104 | the payment is the principal installment loan / term plus the interest loan * rate / 100 |
| `BorrowerScoring.PaymentExceedsInstallment` | borrower_scoring.py:96-104 | the payment is strictly above the positive principal-only installment |
| `BorrowerScoring.Score` | borrower_scoring.py:52-73 | a result exists iff all five gates pass (stated with non-strict bounds) and payment <= income / 2, and then it is the payment |
| `BorrowerScoring.ScoreRaw` | borrower_scoring.py:18-73 | construct-then-score fails exactly as construction does; otherwise it is the score of the stored fields |
| `BorrowerScoring.UnemployedOrProhibitedNeverScored` | borrower_scoring.py:52-57 | an unemployed borrower or a prohibited rating gives `None` whatever the other fields |
| `BorrowerScoring.ScoreIsPositivePayment` | borrower_scoring.py:68-73 | a returned score lies strictly above loan / term and at most at income / 2, so it is never 0 |
| `BorrowerScoring.AffordabilityGateCanReject` | borrower_scoring.py:68-71 | some request passes all five gates and is refused only by the affordability gate |
| `BorrowerScoring.RetirementOneYearOverRejected` | borrower_scoring.py:59-60 | a term that ends one year past the retirement age is never scored |
| `BorrowerScoring.ScoreIgnoresAgeWithinHorizon` | borrower_scoring.py:52-73 | within the retirement horizon the score does not depend on age |
| `BorrowerScoring.PaymentIncreasesWithLoanAmount` | borrower_scoring.py:93-104 | with all else fixed, a larger loan amount gives a strictly larger payment |
| `Scenarios.LowAndNormalRatingRateScenarios` | test/test_borrower_scoring.py:25-48 | a LOW rating with MORTGAGE scores exactly 0.2975 and a NORMAL rating with BUSINESS_DEVELOPMENT exactly 0.295 |
| `Scenarios.MiddleAndHighRatingRateScenarios` | test/test_borrower_scoring.py:49-72 | a MIDDLE rating with CAR_LOAN scores exactly 0.3025 and a HIGH rating with LOAN exactly 0.31 |
| `Scenarios.SmallLoanAmountScenario` | test/test_borrower_scoring.py:80-91 | a loan of 0.1 scores exactly 0.0285 |
| `Scenarios.MidLoanAmountScenario` | test/test_borrower_scoring.py:92-103 | a loan of 5 scores 1.375 - log10(5)/20 |
| `Scenarios.LargeLoanAmountScenario` | test/test_borrower_scoring.py:104-115 | a loan of 10 scores exactly 2.65 |
| `Scenarios.MortgagePurposeRateScenario` | test/test_borrower_scoring.py:123-134 | the MORTGAGE purpose scores 0.85 - log10(5)/20 |
| `Scenarios.BusinessDevelopmentPurposeRateScenario` | test/test_borrower_scoring.py:135-146 | the BUSINESS_DEVELOPMENT purpose scores 0.925 - log10(5)/20 |
| `Scenarios.CarLoanPurposeRateScenario` | test/test_borrower_scoring.py:147-158 | the CAR_LOAN purpose scores 0.95 - log10(5)/20 |
| `Scenarios.LoanPurposeRateScenario` | test/test_borrower_scoring.py:159-170 | the LOAN purpose scores 1.025 - log10(5)/20 |
| `Scenarios.MinAgeScenario` | test/test_borrower_scoring.py:176-193 | age 0 is accepted and scored 0.68 - log10(4)/25 |
| `Scenarios.MinLoanAmountScenario` | test/test_borrower_scoring.py:195-212 | a loan of 0.1 is accepted and scored 0.05875 |
| `Scenarios.CreditTermScenarios` | test/test_borrower_scoring.py:214-243 | terms 1 and 20 are accepted and scored exactly |
| `Scenarios.IncomeSourceCeilingExceededScenarios` | test/test_borrower_scoring.py:245-274 | loans just above the PASSIVE and EMPLOYEE ceilings give `None` |
| `Scenarios.PassiveCeilingReachedScenario` | test/test_borrower_scoring.py:278-289 | a loan of 1 at the PASSIVE ceiling scores exactly 0.5775 |
| `Scenarios.EmployeeCeilingReachedScenario` | test/test_borrower_scoring.py:290-301 | a loan of 5 at the EMPLOYEE ceiling scores 71/60 - log10(5)/20 |
| `Scenarios.BusinessmanCeilingReachedScenario` | test/test_borrower_scoring.py:302-313 | a loan of 10 at the BUSINESSMAN ceiling scores exactly 1.15 |
| `Scenarios.LoanRatingCeilingExceededScenarios` | test/test_borrower_scoring.py:319-348 | loans just above the LOW and MIDDLE rating ceilings give `None` |
| `Scenarios.LowAndMiddleRatingCeilingReachedScenarios` | test/test_borrower_scoring.py:352-375 | loans at the LOW and MIDDLE rating ceilings score 0.1475 and 0.6625 - log10(5)/20 |
| `Scenarios.NormalAndHighRatingCeilingReachedScenarios` | test/test_borrower_scoring.py:376-399 | loans of 10 at the NORMAL and HIGH rating ceilings score exactly 1.2 and 1.15 |
| `Scenarios.CombinedCeilingExceededScenarios` | test/test_borrower_scoring.py:405-436 | loans just above the smaller of the two ceilings give `None` |
| `Scenarios.CombinedCeilingReachedScenarios` | test/test_borrower_scoring.py:437-467 | loans at the smaller of the two ceilings score 0.135 and 0.1425 |
| `Scenarios.IneligibleScenarios` | test/test_borrower_scoring.py:469-524 | unemployment, a prohibited rating and an unaffordable request give `None` |
| `Scenarios.RetirementExceededScenarios` | test/test_borrower_scoring.py:526-566 | a last payment one year after the retirement age gives `None`, for both sexes |
| `Scenarios.RetirementReachedScenarios` | test/test_borrower_scoring.py:569-597 | a last payment exactly at the retirement age is scored, for both sexes |
| `Scenarios.IncomeRatioScenarios` | test/test_borrower_scoring.py:600-636 | just above a third of the income gives `None`; exactly a third is scored |
| `Scenarios.InvalidArgumentScenarios` | test/test_borrower_scoring.py:638-870 | each invalid argument of the tests raises its own failure kind |
| `Scenarios.ValidationOrderScenarios` | borrower_scoring.py:19-32 | only the first invalid argument is reported; a float 20.0 is a valid term but 25.0 is not a valid age |

## Left out

- Floating point: numbers are exact reals. IEEE-754 rounding in the expected test values is not modelled. NaN is not modelled either: in the source a NaN loan amount passes both range comparisons.
- `math.log10` is not defined. It is the parameter `lg`, constrained only by `IsLog10Model` and, for monotonicity, `IsSublinear`. Scenario values whose loan amount is not 0.1, 1 or 10 are stated in terms of `lg`.
- Enums.LoanRating.Percent: the contract gives only the range of the adjustment. The exact table values are the function's body.
- Enums.IncomeSource.Percent: the contract gives only the range of the adjustment. The exact table values are the function's body.
- Enums.Purpose.Value: the contract gives only the range of the adjustment. The exact table values are the function's body.
- Python type errors before a named check are not modelled. An example is `None < 0` for a missing number. `bool` values passed as numbers are not modelled either. A numeric argument is an `int` or a `float`; a category argument is a member or some other value.
- The `exceptions` module is not part of this model. Its eight exception classes are the `ErrorKind` variants.
- The test helpers `__exec_score` and `__is_params_valid` are test plumbing. `ScoreRaw` takes the role of construct-then-score.
- Storage: the object is modelled as a value, so object identity is not modelled. A whole-valued float credit term is stored as its integer value, which is the same number in every formula.
