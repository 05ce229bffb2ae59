/**
 * The repository's test vectors, stated over the model: each lemma takes one
 * case, or a few cases of one group, from test/test_borrower_scoring.py.
 * Floats are exact reals here, so the expected values are the exact rational
 * ones; where the loan amount is not 0.1, 1 or 10 the value is stated in
 * terms of log10.
 */
module Scenarios {
  import opened Wrappers
  import opened Enums
  import opened BorrowerScoring

  /** Eight well-typed arguments, with the loan amount given as passed. */
  function Args(age: int, income: int, rating: LoanRating, loan: Number, term: int,
                sex: Sex, source: IncomeSource, purpose: Purpose): RawInput
  {
    RawInput(Int(age), Int(income), Member(rating), loan, Int(term), Member(sex), Member(source), Member(purpose))
  }

  /** Rate adjustments of a LOW and a NORMAL rating, with log10(1) == 0. */
  lemma LowAndNormalRatingRateScenarios(lg: real -> real)
    requires IsLog10Model(lg)
    ensures ScoreRaw(Args(30, 10, Low, Int(1), 5, Female, Businessman, Mortgage), lg) == Success(Some(0.2975))
    ensures ScoreRaw(Args(30, 10, Normal, Int(1), 5, Female, Businessman, BusinessDevelopment), lg) == Success(Some(0.295))
  {
  }

  /** Rate adjustments of a MIDDLE and a HIGH rating, with log10(1) == 0. */
  lemma MiddleAndHighRatingRateScenarios(lg: real -> real)
    requires IsLog10Model(lg)
    ensures ScoreRaw(Args(30, 10, Middle, Int(1), 5, Female, Businessman, CarLoan), lg) == Success(Some(0.3025))
    ensures ScoreRaw(Args(30, 10, High, Int(1), 5, Female, Businessman, Loan), lg) == Success(Some(0.31))
  {
  }

  /** The loan-size discount at the smallest loan amount, log10(0.1) == -1. */
  lemma SmallLoanAmountScenario(lg: real -> real)
    requires IsLog10Model(lg)
    ensures ScoreRaw(Args(30, 10, High, Float(0.1), 5, Female, Businessman, Mortgage), lg) == Success(Some(0.0285))
  {
  }

  /** The loan-size discount in the middle of the range. */
  lemma MidLoanAmountScenario(lg: real -> real)
    requires IsLog10Model(lg)
    ensures ScoreRaw(Args(30, 10, High, Int(5), 5, Female, Businessman, Mortgage), lg) == Success(Some(1.375 - lg(5.0) / 20.0))
  {
  }

  /** The loan-size discount at the largest loan amount, log10(10) == 1. */
  lemma LargeLoanAmountScenario(lg: real -> real)
    requires IsLog10Model(lg)
    ensures ScoreRaw(Args(30, 10, High, Int(10), 5, Female, Businessman, Mortgage), lg) == Success(Some(2.65))
  {
  }

  /** The MORTGAGE purpose, with the other arguments of the purpose tests. */
  lemma MortgagePurposeRateScenario(lg: real -> real)
    requires IsLog10Model(lg)
    ensures ScoreRaw(Args(30, 5, High, Int(5), 10, Female, Employee, Mortgage), lg) == Success(Some(0.85 - lg(5.0) / 20.0))
  {
  }

  /** The BUSINESS_DEVELOPMENT purpose, with the other arguments of the purpose tests. */
  lemma BusinessDevelopmentPurposeRateScenario(lg: real -> real)
    requires IsLog10Model(lg)
    ensures ScoreRaw(Args(30, 5, High, Int(5), 10, Female, Employee, BusinessDevelopment), lg) == Success(Some(0.925 - lg(5.0) / 20.0))
  {
  }

  /** The CAR_LOAN purpose, with the other arguments of the purpose tests. */
  lemma CarLoanPurposeRateScenario(lg: real -> real)
    requires IsLog10Model(lg)
    ensures ScoreRaw(Args(30, 5, High, Int(5), 10, Female, Employee, CarLoan), lg) == Success(Some(0.95 - lg(5.0) / 20.0))
  {
  }

  /** The LOAN purpose, with the other arguments of the purpose tests. */
  lemma LoanPurposeRateScenario(lg: real -> real)
    requires IsLog10Model(lg)
    ensures ScoreRaw(Args(30, 5, High, Int(5), 10, Female, Employee, Loan), lg) == Success(Some(1.025 - lg(5.0) / 20.0))
  {
  }

  /** The smallest age is accepted and scored. */
  lemma MinAgeScenario(lg: real -> real)
    requires IsLog10Model(lg)
    ensures ScoreRaw(Args(0, 5, High, Int(4), 10, Female, Employee, Mortgage), lg) == Success(Some(0.68 - lg(4.0) / 25.0))
  {
  }

  /** The smallest loan amount is accepted and scored. */
  lemma MinLoanAmountScenario(lg: real -> real)
    requires IsLog10Model(lg)
    ensures ScoreRaw(Args(25, 5, High, Float(0.1), 2, Female, Passive, Mortgage), lg) == Success(Some(0.05875))
  {
  }

  /** The shortest and the longest credit term are accepted and scored. */
  lemma CreditTermScenarios(lg: real -> real)
    requires IsLog10Model(lg)
    ensures ScoreRaw(Args(25, 16, High, Int(5), 1, Female, Employee, Mortgage), lg) == Success(Some(5.35 - lg(5.0) / 20.0))
    ensures ScoreRaw(Args(25, 10, High, Int(5), 20, Female, Employee, Mortgage), lg) == Success(Some(0.6 - lg(5.0) / 20.0))
  {
  }

  /** A loan just above the income-source ceiling is not scored. */
  lemma IncomeSourceCeilingExceededScenarios(lg: real -> real)
    ensures ScoreRaw(Args(25, 5, High, Float(1.000001), 20, Female, Passive, Mortgage), lg) == Success(None)
    ensures ScoreRaw(Args(25, 5, High, Float(5.000001), 20, Female, Employee, Mortgage), lg) == Success(None)
  {
  }

  /** A loan exactly at the PASSIVE ceiling is scored. */
  lemma PassiveCeilingReachedScenario(lg: real -> real)
    requires IsLog10Model(lg)
    ensures ScoreRaw(Args(25, 5, High, Int(1), 2, Female, Passive, Mortgage), lg) == Success(Some(0.5775))
  {
  }

  /** A loan exactly at the EMPLOYEE ceiling is scored. */
  lemma EmployeeCeilingReachedScenario(lg: real -> real)
    requires IsLog10Model(lg)
    ensures ScoreRaw(Args(25, 5, High, Int(5), 6, Female, Employee, Mortgage), lg) == Success(Some(71.0 / 60.0 - lg(5.0) / 20.0))
  {
  }

  /** A loan exactly at the BUSINESSMAN ceiling is scored. */
  lemma BusinessmanCeilingReachedScenario(lg: real -> real)
    requires IsLog10Model(lg)
    ensures ScoreRaw(Args(25, 5, High, Int(10), 20, Female, Businessman, Mortgage), lg) == Success(Some(1.15))
  {
  }

  /** A loan just above the loan-rating ceiling is not scored. */
  lemma LoanRatingCeilingExceededScenarios(lg: real -> real)
    ensures ScoreRaw(Args(25, 5, Low, Float(1.000001), 20, Female, Businessman, Mortgage), lg) == Success(None)
    ensures ScoreRaw(Args(25, 5, Middle, Float(5.000001), 20, Female, Businessman, Mortgage), lg) == Success(None)
  {
  }

  /** A loan exactly at the LOW or MIDDLE rating ceiling is scored. */
  lemma LowAndMiddleRatingCeilingReachedScenarios(lg: real -> real)
    requires IsLog10Model(lg)
    ensures ScoreRaw(Args(25, 5, Low, Int(1), 20, Female, Businessman, Mortgage), lg) == Success(Some(0.1475))
    ensures ScoreRaw(Args(25, 5, Middle, Int(5), 20, Female, Businessman, Mortgage), lg) == Success(Some(0.6625 - lg(5.0) / 20.0))
  {
  }

  /** A loan exactly at the NORMAL or HIGH rating ceiling is scored. */
  lemma NormalAndHighRatingCeilingReachedScenarios(lg: real -> real)
    requires IsLog10Model(lg)
    ensures ScoreRaw(Args(25, 5, Normal, Int(10), 20, Female, Businessman, Mortgage), lg) == Success(Some(1.2))
    ensures ScoreRaw(Args(25, 5, High, Int(10), 20, Female, Businessman, Mortgage), lg) == Success(Some(1.15))
  {
  }

  /** A loan just above the smaller of the two ceilings is not scored. */
  lemma CombinedCeilingExceededScenarios(lg: real -> real)
    ensures ScoreRaw(Args(25, 5, Middle, Float(1.000001), 20, Female, Passive, Mortgage), lg) == Success(None)
    ensures ScoreRaw(Args(25, 5, Low, Float(1.000001), 20, Female, Employee, Mortgage), lg) == Success(None)
  {
  }

  /** A loan at the smaller of the two ceilings is scored. */
  lemma CombinedCeilingReachedScenarios(lg: real -> real)
    requires IsLog10Model(lg)
    ensures ScoreRaw(Args(25, 5, Middle, Int(1), 20, Female, Passive, Mortgage), lg) == Success(Some(0.135))
    ensures ScoreRaw(Args(25, 5, Low, Int(1), 20, Female, Employee, Mortgage), lg) == Success(Some(0.1425))
  {
  }

  /**
   * Unemployment, a prohibited rating and an unaffordable request are not
   * scored. The last one is stopped by the income-ratio gate, before the
   * affordability gate is reached.
   */
  lemma IneligibleScenarios(lg: real -> real)
    ensures ScoreRaw(Args(25, 5, High, Int(5), 20, Female, Unemployed, Mortgage), lg) == Success(None)
    ensures ScoreRaw(Args(25, 5, Prohibited, Int(5), 20, Female, Employee, Mortgage), lg) == Success(None)
    ensures ScoreRaw(Args(30, 1, Normal, Int(1), 2, Female, Businessman, CarLoan), lg) == Success(None)
    ensures IsPaymentLessThanThirdOfIncome(Request(30, 1, Normal, 1.0, 2, Female, Businessman, CarLoan))
  {
  }

  /** A last payment one year after the retirement age is rejected, for both sexes. */
  lemma RetirementExceededScenarios(lg: real -> real)
    ensures ScoreRaw(Args(41, 5, High, Int(5), 20, Female, Employee, Mortgage), lg) == Success(None)
    ensures ScoreRaw(Args(64, 5, High, Int(5), 2, Male, Employee, Mortgage), lg) == Success(None)
    ensures ScoreRaw(Args(60, 5, High, Int(5), 1, Female, Employee, Mortgage), lg) == Success(None)
  {
  }

  /** A last payment exactly at the retirement age is scored. */
  lemma RetirementReachedScenarios(lg: real -> real)
    requires IsLog10Model(lg)
    ensures ScoreRaw(Args(40, 5, High, Int(5), 20, Female, Employee, Mortgage), lg) == Success(Some(0.6 - lg(5.0) / 20.0))
    ensures ScoreRaw(Args(63, 10, High, Int(5), 2, Male, Employee, Mortgage), lg) == Success(Some(2.85 - lg(5.0) / 20.0))
  {
  }

  /** The principal-only installment: just above a third of the income is rejected, exactly a third is scored. */
  lemma IncomeRatioScenarios(lg: real -> real)
    requires IsLog10Model(lg)
    ensures ScoreRaw(Args(25, 9, High, Float(9.000003), 3, Female, Businessman, Mortgage), lg) == Success(None)
    ensures ScoreRaw(Args(25, 9, High, Int(9), 3, Female, Businessman, Mortgage), lg) == Success(Some(3.675 - 0.09 * lg(9.0)))
  {
  }

  /** Each invalid argument raises its own failure kind. */
  lemma InvalidArgumentScenarios(lg: real -> real)
    ensures ScoreRaw(RawInput(Int(25), Int(5), NonMember, Int(5), Int(20), Member(Female), Member(Businessman), Member(Mortgage)), lg)
         == Failure(InvalidLoanRating)
    ensures ScoreRaw(Args(25, 5, High, Int(5), 0, Female, Businessman, Mortgage), lg) == Failure(InvalidCreditTerm)
    ensures ScoreRaw(Args(25, 5, High, Int(5), 21, Female, Businessman, Mortgage), lg) == Failure(InvalidCreditTerm)
    ensures ScoreRaw(RawInput(Int(25), Int(5), Member(High), Int(5), Float(0.999999), Member(Female), Member(Businessman), Member(Mortgage)), lg)
         == Failure(InvalidCreditTerm)
    ensures ScoreRaw(RawInput(Int(25), Int(5), Member(High), Int(5), Float(20.000001), Member(Female), Member(Businessman), Member(Mortgage)), lg)
         == Failure(InvalidCreditTerm)
    ensures ScoreRaw(RawInput(Int(25), Int(5), Member(High), Int(5), Float(10.5), Member(Female), Member(Businessman), Member(Mortgage)), lg)
         == Failure(InvalidCreditTerm)
    ensures ScoreRaw(Args(-1, 5, High, Int(5), 20, Male, Employee, Mortgage), lg) == Failure(InvalidAge)
    ensures ScoreRaw(RawInput(Float(-0.000001), Int(5), Member(High), Int(5), Int(20), Member(Male), Member(Employee), Member(Mortgage)), lg)
         == Failure(InvalidAge)
    ensures ScoreRaw(RawInput(Float(0.000001), Int(5), Member(High), Int(5), Int(20), Member(Male), Member(Employee), Member(Mortgage)), lg)
         == Failure(InvalidAge)
    ensures ScoreRaw(Args(20, 5, High, Float(10.000001), 20, Male, Employee, Mortgage), lg) == Failure(InvalidLoanAmount)
    ensures ScoreRaw(Args(20, 5, High, Float(0.099999), 20, Male, Employee, Mortgage), lg) == Failure(InvalidLoanAmount)
    ensures ScoreRaw(Args(20, 0, High, Int(5), 20, Male, Employee, Mortgage), lg) == Failure(InvalidIncomeAmount)
    ensures ScoreRaw(RawInput(Int(20), Float(0.999999), Member(High), Int(5), Int(20), Member(Male), Member(Employee), Member(Mortgage)), lg)
         == Failure(InvalidIncomeAmount)
    ensures ScoreRaw(RawInput(Int(20), Float(1.000001), Member(High), Int(5), Int(20), Member(Male), Member(Employee), Member(Mortgage)), lg)
         == Failure(InvalidIncomeAmount)
    ensures ScoreRaw(RawInput(Int(25), Int(5), Member(High), Int(5), Int(20), NonMember, Member(Employee), Member(Mortgage)), lg)
         == Failure(InvalidSex)
    ensures ScoreRaw(RawInput(Int(25), Int(5), Member(High), Int(5), Int(20), Member(Male), Member(Employee), NonMember), lg)
         == Failure(InvalidPurpose)
    ensures ScoreRaw(RawInput(Int(25), Int(5), Member(High), Int(5), Int(20), Member(Male), NonMember, Member(Mortgage)), lg)
         == Failure(InvalidIncomeSource)
  {
  }

  /**
   * Only the first invalid argument is reported: an invalid age hides an
   * invalid income, and an invalid credit term hides a missing purpose.
   * A whole-valued float credit term passes, as membership in range(1, 21) does.
   */
  lemma ValidationOrderScenarios(lg: real -> real)
    ensures ScoreRaw(RawInput(Int(-1), Int(0), Member(High), Int(5), Int(20), Member(Male), Member(Employee), Member(Mortgage)), lg)
         == Failure(InvalidAge)
    ensures ScoreRaw(RawInput(Int(25), Int(5), Member(High), Int(5), Float(10.5), Member(Male), Member(Employee), NonMember), lg)
         == Failure(InvalidCreditTerm)
    ensures Validate(RawInput(Int(25), Int(5), Member(High), Int(5), Float(20.0), Member(Male), Member(Employee), Member(Mortgage)))
         == Success(Request(25, 5, High, 5.0, 20, Male, Employee, Mortgage))
    ensures Validate(RawInput(Float(25.0), Int(5), Member(High), Int(5), Int(20), Member(Male), Member(Employee), Member(Mortgage)))
         == Failure(InvalidAge)
  {
  }
}
