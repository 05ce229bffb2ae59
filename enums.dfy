/**
 * The constant category tables of the scoring rule. Each category is a closed
 * datatype; its coefficients are functions on it.
 */
module Enums {

  /** Loan rating: a lending ceiling (`Amount`) and a rate adjustment in percent points (`Percent`). */
  datatype LoanRating = Prohibited | Low | Middle | Normal | High {

    /** The largest loan this rating allows. Only a prohibited rating allows nothing. */
    function Amount(): (r: int)
      ensures 0 <= r <= 10
      ensures r == 0 <==> this == Prohibited
    {
      match this
      case Prohibited => 0
      case Low => 1
      case Middle => 5
      case Normal => 10
      case High => 10
    }

    /** The rate adjustment of this rating; the better the rating, the lower it is. */
    function Percent(): (r: real)
      ensures -0.75 <= r <= 1.5
    {
      match this
      case Prohibited => 0.0
      case Low => 1.5
      case Middle => 0.0
      case Normal => -0.25
      case High => -0.75
    }
  }

  /** Loan purpose: a rate adjustment in percent points. */
  datatype Purpose = Mortgage | BusinessDevelopment | CarLoan | Loan {

    function Value(): (r: real)
      ensures -2.0 <= r <= 1.5
    {
      match this
      case Mortgage => -2.0
      case BusinessDevelopment => -0.5
      case CarLoan => 0.0
      case Loan => 1.5
    }
  }

  /** Income source: a lending ceiling (`Amount`) and a rate adjustment in percent points (`Percent`). */
  datatype IncomeSource = Passive | Employee | Businessman | Unemployed {

    /** The largest loan this income source allows. Only an unemployed borrower is allowed nothing. */
    function Amount(): (r: int)
      ensures 0 <= r <= 10
      ensures r == 0 <==> this == Unemployed
    {
      match this
      case Passive => 1
      case Employee => 5
      case Businessman => 10
      case Unemployed => 0
    }

    function Percent(): (r: real)
      ensures -0.25 <= r <= 0.5
    {
      match this
      case Passive => 0.5
      case Employee => -0.25
      case Businessman => 0.25
      case Unemployed => 0.0
    }
  }

  /** Sex, whose value is the retirement age. */
  datatype Sex = Male | Female {

    function RetirementAge(): (r: nat)
      ensures r == 60 || r == 65
      ensures r == 65 <==> this == Male
    {
      match this
      case Male => 65
      case Female => 60
    }
  }
}
