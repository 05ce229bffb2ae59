/**
 * The borrower-scoring rule: a validator for the eight constructor arguments,
 * a chain of eligibility gates and the rate/payment formula.
 *
 * The scoring object is written once, when it is constructed, and never
 * changed afterwards, so it is modelled as the immutable value `Request`.
 * `math.log10` is a library call; it enters as the parameter `lg`, and
 * `IsLog10Model` states the laws of log10 that the proofs rely on.
 */
module BorrowerScoring {
  import opened Wrappers
  import opened Enums

  // ---------------------------------------------------------------------------
  // Raw constructor arguments
  // ---------------------------------------------------------------------------

  /** A number as the caller may pass it: a Python `int` or a Python `float` (taken as an exact real). */
  datatype Number = Int(i: int) | Float(f: real) {
    function Value(): real {
      match this
      case Int(i) => i as real
      case Float(f) => f
    }
  }

  /** A category argument: a member of the category's enumeration, or some other value. */
  datatype Slot<T> = Member(member: T) | NonMember

  /** The eight arguments of the constructor, in their declared order. */
  datatype RawInput = RawInput(
    age: Number,
    incomeAmount: Number,
    loanRating: Slot<LoanRating>,
    loanAmount: Number,
    creditTerm: Number,
    sex: Slot<Sex>,
    incomeSource: Slot<IncomeSource>,
    purpose: Slot<Purpose>)

  /** One failure kind per argument, listed in the order the constructor checks them. */
  datatype ErrorKind =
    | InvalidAge
    | InvalidIncomeAmount
    | InvalidLoanRating
    | InvalidLoanAmount
    | InvalidCreditTerm
    | InvalidSex
    | InvalidIncomeSource
    | InvalidPurpose
  {
    /** The position of the check that raises this failure. */
    function Rank(): nat {
      match this
      case InvalidAge => 0
      case InvalidIncomeAmount => 1
      case InvalidLoanRating => 2
      case InvalidLoanAmount => 3
      case InvalidCreditTerm => 4
      case InvalidSex => 5
      case InvalidIncomeSource => 6
      case InvalidPurpose => 7
    }
  }

  // ---------------------------------------------------------------------------
  // The validated request
  // ---------------------------------------------------------------------------

  type IncomeAmount = n: int | n >= 1 witness 1
  type LoanAmount = x: real | 0.1 <= x <= 10.0 witness 1.0
  type CreditTerm = n: int | 1 <= n <= 20 witness 1

  /** The eight fields a successfully constructed scoring object holds. */
  datatype Request = Request(
    age: nat,
    incomeAmount: IncomeAmount,
    loanRating: LoanRating,
    loanAmount: LoanAmount,
    creditTerm: CreditTerm,
    sex: Sex,
    incomeSource: IncomeSource,
    purpose: Purpose)

  // ---------------------------------------------------------------------------
  // Validation
  // ---------------------------------------------------------------------------

  /** True iff `x` is a whole number. */
  predicate IsWhole(x: real) {
    x.Floor as real == x
  }

  /** Age: the argument's type must be `int` and its value non-negative. */
  predicate AgeOk(n: Number) {
    !(n.Value() < 0.0 || !n.Int?)
  }

  /** Income amount: the argument's type must be `int` and its value at least 1. */
  predicate IncomeAmountOk(n: Number) {
    !(n.Value() < 1.0 || !n.Int?)
  }

  /** Loan amount: any number from 0.1 to 10, both ends included. */
  predicate LoanAmountOk(n: Number) {
    !(n.Value() < 0.1 || n.Value() > 10.0)
  }

  /**
   * Credit term: membership in `range(1, 21)`, which compares by value, so a
   * whole-valued float is accepted as well as an int.
   */
  predicate CreditTermOk(n: Number) {
    IsWhole(n.Value()) && 1.0 <= n.Value() <= 20.0
  }

  /** Python's `range(lo, hi)`: the integers from `lo` up to, not including, `hi`. */
  function Range(lo: int, hi: int): (r: seq<int>)
    decreases hi - lo
    ensures |r| == if lo < hi then hi - lo else 0
    ensures forall i :: 0 <= i < |r| ==> r[i] == lo + i
  {
    if lo >= hi then [] else [lo] + Range(lo + 1, hi)
  }

  /** Python's `x in r` for a number and a range: some element equals `x` by value. */
  predicate InRange(x: real, r: seq<int>) {
    exists i :: 0 <= i < |r| && r[i] as real == x
  }

  /** The check that raises failure `k`, read as "the argument it inspects is valid". */
  predicate FieldValid(raw: RawInput, k: ErrorKind) {
    match k
    case InvalidAge => raw.age.Int? && raw.age.i >= 0
    case InvalidIncomeAmount => raw.incomeAmount.Int? && raw.incomeAmount.i >= 1
    case InvalidLoanRating => raw.loanRating.Member?
    case InvalidLoanAmount => 0.1 <= raw.loanAmount.Value() <= 10.0
    case InvalidCreditTerm => InRange(raw.creditTerm.Value(), Range(1, 21))
    case InvalidSex => raw.sex.Member?
    case InvalidIncomeSource => raw.incomeSource.Member?
    case InvalidPurpose => raw.purpose.Member?
  }

  /**
   * The constructor: the eight checks in their order, failing with the first
   * one that does not hold; only if all hold are the eight fields stored.
   */
  function Validate(raw: RawInput): (r: Result<Request, ErrorKind>)
    ensures r.Success? ==>
      r.value.age as real == raw.age.Value() &&
      r.value.incomeAmount as real == raw.incomeAmount.Value() &&
      raw.loanRating == Member(r.value.loanRating) &&
      r.value.loanAmount == raw.loanAmount.Value() &&
      r.value.creditTerm as real == raw.creditTerm.Value() &&
      raw.sex == Member(r.value.sex) &&
      raw.incomeSource == Member(r.value.incomeSource) &&
      raw.purpose == Member(r.value.purpose)
  {
    if !AgeOk(raw.age) then Failure(InvalidAge)
    else if !IncomeAmountOk(raw.incomeAmount) then Failure(InvalidIncomeAmount)
    else if !raw.loanRating.Member? then Failure(InvalidLoanRating)
    else if !LoanAmountOk(raw.loanAmount) then Failure(InvalidLoanAmount)
    else if !CreditTermOk(raw.creditTerm) then Failure(InvalidCreditTerm)
    else if !raw.sex.Member? then Failure(InvalidSex)
    else if !raw.incomeSource.Member? then Failure(InvalidIncomeSource)
    else if !raw.purpose.Member? then Failure(InvalidPurpose)
    else
      Success(Request(
        raw.age.i,
        raw.incomeAmount.i,
        raw.loanRating.member,
        raw.loanAmount.Value(),
        raw.creditTerm.Value().Floor,
        raw.sex.member,
        raw.incomeSource.member,
        raw.purpose.member))
  }

  /** The whole-number test of the credit term agrees with membership in `range(1, 21)`. */
  lemma CreditTermCheck(n: Number)
    ensures CreditTermOk(n) <==> InRange(n.Value(), Range(1, 21))
  {
    var v, r := n.Value(), Range(1, 21);
    if CreditTermOk(n) {
      assert r[v.Floor - 1] as real == v;
    }
    if InRange(v, r) {
      var i :| 0 <= i < |r| && r[i] as real == v;
      assert v.Floor == i + 1;
    }
  }

  /**
   * Construction is all or nothing, and a failure names the FIRST invalid
   * argument in the order age, income amount, loan rating, loan amount,
   * credit term, sex, income source, purpose.
   */
  lemma {:induction false} ValidateReportsFirstFailure(raw: RawInput)
    ensures Validate(raw).Success? <==> forall k: ErrorKind :: FieldValid(raw, k)
    ensures Validate(raw).Failure? ==> !FieldValid(raw, Validate(raw).error)
    ensures Validate(raw).Failure? ==>
      forall k: ErrorKind :: k.Rank() < Validate(raw).error.Rank() ==> FieldValid(raw, k)
  {
    CreditTermCheck(raw.creditTerm);
    var r := Validate(raw);
    if r.Success? {
      forall k: ErrorKind ensures FieldValid(raw, k) {
        match k
        case InvalidAge =>
        case InvalidIncomeAmount =>
        case InvalidLoanRating =>
        case InvalidLoanAmount =>
        case InvalidCreditTerm =>
        case InvalidSex =>
        case InvalidIncomeSource =>
        case InvalidPurpose =>
      }
    } else {
      assert !FieldValid(raw, r.error);
      forall k: ErrorKind | k.Rank() < r.error.Rank() ensures FieldValid(raw, k) {
        match k
        case InvalidAge =>
        case InvalidIncomeAmount =>
        case InvalidLoanRating =>
        case InvalidLoanAmount =>
        case InvalidCreditTerm =>
        case InvalidSex =>
        case InvalidIncomeSource =>
        case InvalidPurpose =>
      }
    }
  }

  // ---------------------------------------------------------------------------
  // log10
  // ---------------------------------------------------------------------------

  /** The laws of log10 the model relies on: three exact points and its range on [0.1, 10]. */
  ghost predicate IsLog10Model(lg: real -> real) {
    && lg(0.1) == -1.0
    && lg(1.0) == 0.0
    && lg(10.0) == 1.0
    && forall x: real :: 0.1 <= x <= 10.0 ==> -1.0 <= lg(x) <= 1.0
  }

  /**
   * log10 grows no faster than the relative increase of its argument:
   * log10(y) - log10(x) <= (y - x) / x, because ln(y/x) <= y/x - 1 and ln 10 > 1.
   */
  ghost predicate IsSublinear(lg: real -> real) {
    forall x: real, y: real :: 0.1 <= x <= y <= 10.0 ==> lg(y) - lg(x) <= (y - x) / x
  }

  // ---------------------------------------------------------------------------
  // Eligibility gates (each is true when it REJECTS the request)
  // ---------------------------------------------------------------------------

  /** Gate 1: an unemployed borrower is unreliable; that is the one source with no lending ceiling. */
  predicate IsUnreliableBorrower(q: Request)
    ensures IsUnreliableBorrower(q) <==> q.incomeSource.Amount() == 0
  {
    q.incomeSource == Unemployed
  }

  /** Gate 2: a prohibited rating; that is the one rating with no lending ceiling. */
  predicate IsLoanRatingProhibited(q: Request)
    ensures IsLoanRatingProhibited(q) <==> q.loanRating.Amount() == 0
  {
    q.loanRating == Prohibited
  }

  /** Gate 3: the last payment would fall after the retirement age. */
  predicate IsLastPaymentDateMoreThanRetirementAge(q: Request)
    ensures !IsLastPaymentDateMoreThanRetirementAge(q) <==> q.creditTerm <= q.sex.RetirementAge() - q.age
    ensures q.age + q.creditTerm == q.sex.RetirementAge() ==> !IsLastPaymentDateMoreThanRetirementAge(q)
    ensures q.age + q.creditTerm == q.sex.RetirementAge() + 1 ==> IsLastPaymentDateMoreThanRetirementAge(q)
  {
    q.age + q.creditTerm > q.sex.RetirementAge()
  }

  /** The lending ceiling: the smaller of the income-source and loan-rating ceilings. */
  function AvailableLoanAmount(q: Request): (r: int)
    ensures r <= q.incomeSource.Amount() && r <= q.loanRating.Amount()
    ensures r == q.incomeSource.Amount() || r == q.loanRating.Amount()
  {
    if q.incomeSource.Amount() <= q.loanRating.Amount() then q.incomeSource.Amount() else q.loanRating.Amount()
  }

  /**
   * Gate 4: the principal-only installment exceeds a third of the income.
   * (The source names this predicate as if it tested "less than"; it is true
   * when the installment is MORE than a third, and then rejects.)
   */
  predicate IsPaymentLessThanThirdOfIncome(q: Request)
    ensures IsPaymentLessThanThirdOfIncome(q) <==> 3.0 * q.loanAmount > (q.creditTerm as real) * (q.incomeAmount as real)
  {
    ThirdOfIncomeCrossMultiplied(q.loanAmount, q.creditTerm as real, q.incomeAmount as real);
    q.loanAmount / (q.creditTerm as real) > (q.incomeAmount as real) / 3.0
  }

  /** l / t > i / 3 is the same comparison as 3 * l > t * i, for a positive t. */
  lemma ThirdOfIncomeCrossMultiplied(l: real, t: real, i: real)
    requires t > 0.0
    ensures l / t > i / 3.0 <==> 3.0 * l > t * i
  {
    var x := l / t;
    assert 3.0 * t * x == 3.0 * l;
    assert 3.0 * t * (i / 3.0) == t * i;
    if x > i / 3.0 {
      MulBound(3.0 * t, i / 3.0, x);
    } else {
      MulBoundWeak(3.0 * t, x, i / 3.0);
    }
  }

  /** Gate 5: the desired loan exceeds the lending ceiling; equality passes. */
  predicate IsAvailableLoanAmountLessThanDesired(q: Request)
    ensures !IsAvailableLoanAmountLessThanDesired(q) <==>
      q.loanAmount <= q.incomeSource.Amount() as real && q.loanAmount <= q.loanRating.Amount() as real
  {
    (AvailableLoanAmount(q) as real) < q.loanAmount
  }

  /** The five gates all pass, stated positively with non-strict bounds. */
  predicate Eligible(q: Request) {
    && q.incomeSource != Unemployed
    && q.loanRating != Prohibited
    && q.age + q.creditTerm <= q.sex.RetirementAge()
    && 3.0 * q.loanAmount <= (q.creditTerm as real) * (q.incomeAmount as real)
    && q.loanAmount <= q.incomeSource.Amount() as real
    && q.loanAmount <= q.loanRating.Amount() as real
  }

  // ---------------------------------------------------------------------------
  // Rate and payment
  // ---------------------------------------------------------------------------

  const BaseRate: real := 10.0

  /** The three category rate adjustments that the rate formula adds up. */
  function Adjustment(p: Purpose, rating: LoanRating, source: IncomeSource): (r: real)
    ensures -3.0 <= r <= 3.5
  {
    p.Value() + rating.Percent() + source.Percent()
  }

  /**
   * The bounds on the adjustment sum are attained: the extremes are reachable
   * with categories that each allow a positive ceiling.
   */
  lemma AdjustmentBoundsAttained()
    ensures Adjustment(Mortgage, High, Employee) == -3.0
    ensures Adjustment(Loan, Low, Passive) == 3.5
    ensures High.Amount() > 0 && Employee.Amount() > 0 && Low.Amount() > 0 && Passive.Amount() > 0
  {
  }

  /** The loan-size discount: log10 of the loan amount, between -1 and 1. */
  function LoanAmountRate(q: Request, lg: real -> real): (r: real)
    ensures IsLog10Model(lg) ==> -1.0 <= r <= 1.0
  {
    lg(q.loanAmount)
  }

  /** The effective rate in percent: base rate plus the three adjustments, minus the loan-size discount. */
  function Rate(q: Request, lg: real -> real): (r: real)
    ensures r + LoanAmountRate(q, lg) - BaseRate == Adjustment(q.purpose, q.loanRating, q.incomeSource)
    ensures IsLog10Model(lg) ==> 6.0 <= r <= 14.5
  {
    BaseRate + Adjustment(q.purpose, q.loanRating, q.incomeSource) - LoanAmountRate(q, lg)
  }

  /**
   * The payment per period: principal plus simple interest over the whole
   * term, spread evenly over the term.
   */
  function Payment(q: Request, lg: real -> real): (r: real)
    ensures r == q.loanAmount / (q.creditTerm as real) + q.loanAmount * Rate(q, lg) / 100.0
  {
    var rate := Rate(q, lg);
    PaymentSplit(q.loanAmount, q.creditTerm as real, rate);
    (q.loanAmount * (1.0 + (q.creditTerm as real) * (rate / 100.0))) / (q.creditTerm as real)
  }

  /** L * (1 + T * (R / 100)) / T is the installment L / T plus the interest L * R / 100. */
  lemma PaymentSplit(l: real, t: real, rate: real)
    requires t > 0.0
    ensures (l * (1.0 + t * (rate / 100.0))) / t == l / t + l * rate / 100.0
  {
    calc {
      (l * (1.0 + t * (rate / 100.0))) / t;
      (l + t * (l * rate / 100.0)) / t;
      l / t + (t * (l * rate / 100.0)) / t;
      l / t + l * rate / 100.0;
    }
  }

  /**
   * The effective rate is never below 6 percent, so the payment is always more
   * than the principal-only installment, which is itself positive.
   */
  lemma PaymentExceedsInstallment(q: Request, lg: real -> real)
    requires IsLog10Model(lg)
    ensures Payment(q, lg) > q.loanAmount / (q.creditTerm as real) > 0.0
  {
    var l, t, rate := q.loanAmount, q.creditTerm as real, Rate(q, lg);
    assert rate >= 6.0;
    PaymentParts(q, lg, l, t, rate);
    PositiveParts(l, t, rate);
  }

  lemma PositiveParts(l: real, t: real, rate: real)
    requires l > 0.0 && t > 0.0 && rate > 0.0
    ensures l / t + l * rate / 100.0 > l / t > 0.0
  {
    MulBound(l, 0.0, rate);
  }

  // ---------------------------------------------------------------------------
  // Scoring
  // ---------------------------------------------------------------------------

  /**
   * The score: ineligible (`None`) as soon as a gate rejects; otherwise the
   * payment, unless it exceeds half the income.
   */
  function Score(q: Request, lg: real -> real): (r: Option<real>)
    ensures r.Some? <==> Eligible(q) && Payment(q, lg) <= (q.incomeAmount as real) / 2.0
    ensures r.Some? ==> r.value == Payment(q, lg)
  {
    if IsUnreliableBorrower(q) then None
    else if IsLoanRatingProhibited(q) then None
    else if IsLastPaymentDateMoreThanRetirementAge(q) then None
    else if IsPaymentLessThanThirdOfIncome(q) then None
    else if IsAvailableLoanAmountLessThanDesired(q) then None
    else
      var payment := Payment(q, lg);
      if payment > (q.incomeAmount as real) / 2.0 then None
      else Some(payment)
  }

  /** The public operation: construct from the raw arguments, then score. */
  function ScoreRaw(raw: RawInput, lg: real -> real): (r: Result<Option<real>, ErrorKind>)
    ensures r.Failure? <==> Validate(raw).Failure?
    ensures r.Failure? ==> r.error == Validate(raw).error
    ensures r.Success? ==> r.value == Score(Validate(raw).value, lg)
  {
    match Validate(raw)
    case Failure(e) => Failure(e)
    case Success(q) => Success(Score(q, lg))
  }

  // ---------------------------------------------------------------------------
  // Properties
  // ---------------------------------------------------------------------------

  /** An unemployed borrower or a prohibited rating is never scored, whatever else holds. */
  lemma UnemployedOrProhibitedNeverScored(q: Request, lg: real -> real)
    requires q.incomeSource == Unemployed || q.loanRating == Prohibited
    ensures Score(q, lg) == None
  {
  }

  /** A score is a positive payment: at least the principal-only installment and at most half the income. */
  lemma ScoreIsPositivePayment(q: Request, lg: real -> real)
    requires IsLog10Model(lg)
    requires Score(q, lg).Some?
    ensures q.loanAmount / (q.creditTerm as real) < Score(q, lg).value <= (q.incomeAmount as real) / 2.0
    ensures Score(q, lg) != Some(0.0)
  {
    PaymentExceedsInstallment(q, lg);
  }

  /**
   * The affordability gate is not subsumed by the earlier ones: a request can
   * pass all five gates and still be refused because the payment exceeds half
   * the income.
   */
  lemma AffordabilityGateCanReject(lg: real -> real)
    requires IsLog10Model(lg)
    ensures var q := Request(30, 2, Normal, 10.0, 20, Male, Businessman, Loan);
      Eligible(q) && Payment(q, lg) == 1.55 && Score(q, lg) == None
  {
  }

  /** Retirement boundary: a term ending one year past the retirement age is never scored. */
  lemma RetirementOneYearOverRejected(q: Request, lg: real -> real)
    requires q.age + q.creditTerm == q.sex.RetirementAge() + 1
    ensures Score(q, lg) == None
  {
  }

  /**
   * Age matters only through the retirement gate: two requests that differ
   * only in age, both within the retirement horizon, get the same score.
   */
  lemma ScoreIgnoresAgeWithinHorizon(q: Request, age: nat, lg: real -> real)
    requires q.age + q.creditTerm <= q.sex.RetirementAge()
    requires age + q.creditTerm <= q.sex.RetirementAge()
    ensures Score(q.(age := age), lg) == Score(q, lg)
  {
    var q2 := q.(age := age);
    assert Rate(q2, lg) == Rate(q, lg);
    assert Payment(q2, lg) == Payment(q, lg);
  }

  /** `q1` and `q2` agree on every field except, possibly, the loan amount. */
  predicate DifferOnlyInLoanAmount(q1: Request, q2: Request) {
    q2 == Request(q1.age, q1.incomeAmount, q1.loanRating, q2.loanAmount, q1.creditTerm, q1.sex, q1.incomeSource, q1.purpose)
  }

  /**
   * Holding everything else fixed, a larger loan amount gives a strictly
   * larger payment (before the gates decide).
   */
  lemma {:induction false} PaymentIncreasesWithLoanAmount(q1: Request, q2: Request, lg: real -> real)
    requires IsLog10Model(lg) && IsSublinear(lg)
    requires DifferOnlyInLoanAmount(q1, q2) && q1.loanAmount < q2.loanAmount
    ensures Payment(q1, lg) < Payment(q2, lg)
  {
    var l1, l2, t := q1.loanAmount, q2.loanAmount, q1.creditTerm as real;
    var r1, r2 := Rate(q1, lg), Rate(q2, lg);
    var a := BaseRate + Adjustment(q1.purpose, q1.loanRating, q1.incomeSource);
    assert r1 == a - lg(l1) && r2 == a - lg(l2);
    Log10Bounded(lg, l2);
    SublinearAt(lg, l1, l2);
    assert q2.creditTerm == q1.creditTerm;
    PaymentParts(q1, lg, l1, t, r1);
    PaymentParts(q2, lg, l2, t, r2);
    PaymentFormulaGrows(l1, l2, t, a, lg(l1), lg(l2), r1, r2);
  }

  lemma PaymentParts(q: Request, lg: real -> real, l: real, t: real, r: real)
    requires l == q.loanAmount && t == q.creditTerm as real && r == Rate(q, lg)
    ensures Payment(q, lg) == l / t + l * r / 100.0
  {
  }

  lemma Log10Bounded(lg: real -> real, x: real)
    requires IsLog10Model(lg) && 0.1 <= x <= 10.0
    ensures -1.0 <= lg(x) <= 1.0
  {
  }

  lemma SublinearAt(lg: real -> real, x: real, y: real)
    requires IsSublinear(lg) && 0.1 <= x <= y <= 10.0
    ensures lg(y) - lg(x) <= (y - x) / x
  {
  }

  /** The monotonicity of the payment formula L / T + L * (a - g) / 100 in L. */
  lemma PaymentFormulaGrows(l1: real, l2: real, t: real, a: real, g1: real, g2: real, r1: real, r2: real)
    requires 0.1 <= l1 < l2 && t > 0.0
    requires a >= 7.0 && g2 <= 1.0
    requires g2 - g1 <= (l2 - l1) / l1
    requires r1 == a - g1 && r2 == a - g2
    ensures l1 / t + l1 * r1 / 100.0 < l2 / t + l2 * r2 / 100.0
  {
    InterestGrows(l1, l2, a, g1, g2);
    SumGrows(l1, l2, t, r1, r2);
  }

  lemma SumGrows(l1: real, l2: real, t: real, r1: real, r2: real)
    requires l1 < l2 && t > 0.0 && l1 * r1 < l2 * r2
    ensures l1 / t + l1 * r1 / 100.0 < l2 / t + l2 * r2 / 100.0
  {
    DivLess(l1, l2, t);
  }

  /**
   * The arithmetic behind the monotonicity: with a base-plus-adjustments rate
   * of at least 7 and a sublinear discount of at most 1, the interest term
   * l * (a - log10(l)) grows with l.
   */
  lemma InterestGrows(l1: real, l2: real, a: real, g1: real, g2: real)
    requires 0.1 <= l1 < l2
    requires a >= 7.0 && g2 <= 1.0
    requires g2 - g1 <= (l2 - l1) / l1
    ensures l1 * (a - g1) < l2 * (a - g2)
  {
    var d := l2 - l1;
    assert l1 * (g2 - g1) <= d by {
      MulBoundWeak(l1, g2 - g1, d / l1);
    }
    assert d * g2 <= d by {
      MulBoundWeak(d, g2, 1.0);
    }
    assert d * a >= 7.0 * d by {
      MulBoundWeak(d, 7.0, a);
    }
    assert l2 * (a - g2) - l1 * (a - g1) == d * a - d * g2 - l1 * (g2 - g1);
  }

  lemma MulBound(x: real, y: real, z: real)
    requires x > 0.0 && y < z
    ensures x * y < x * z
  {
  }

  lemma MulBoundWeak(x: real, y: real, z: real)
    requires x > 0.0 && y <= z
    ensures x * y <= x * z
  {
  }

  lemma DivLess(x: real, y: real, t: real)
    requires x < y && t > 0.0
    ensures x / t < y / t
  {
  }
}
