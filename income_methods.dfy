/** The income calculations of the Day 3 methods exercise, on Java `int`. */
module IncomeMethods {
  import opened JavaInt

  /** `calculateProjectIncome`: `monthly * months`. */
  function CalculateProjectIncome(monthly: int32, months: int32): (r: int32)
    ensures InRange(monthly as int * months as int) ==> r as int == monthly as int * months as int
    ensures (monthly as int * months as int - r as int) % Modulus == 0
  {
    Wrap(monthly as int * months as int)
  }

  /** `calculateYearlyIncome`: twelve months of income, the same as a twelve-month project. */
  function CalculateYearlyIncome(monthly: int32): (r: int32)
    ensures r == CalculateProjectIncome(monthly, 12)
    ensures InRange(monthly as int * 12) ==> r as int == monthly as int * 12
  {
    Wrap(monthly as int * 12)
  }

  /**
   * `calculateSavings`: the monthly surplus, then times the months, each
   * step an `int` operation. The intermediate wrap never matters, and when
   * nothing overflows the result is the exact product, negative whenever
   * expenses exceed income over a positive number of months.
   */
  function CalculateSavings(income: int32, expenses: int32, months: int32): (r: int32)
    ensures r == Wrap((income as int - expenses as int) * months as int)
    ensures InRange((income as int - expenses as int) * months as int) ==>
      r as int == (income as int - expenses as int) * months as int
    ensures InRange((income as int - expenses as int) * months as int) && expenses > income && months > 0 ==>
      r < 0
  {
    var monthlySavings := Wrap(income as int - expenses as int);
    WrapMul(income as int - expenses as int, months as int);
    Wrap(monthlySavings as int * months as int)
  }

  /** The values the exercise's program computes. */
  lemma ProgramValues()
    ensures CalculateYearlyIncome(40) == 480
    ensures CalculateProjectIncome(40, 3) == 120
    ensures CalculateSavings(40, 15, 6) == 150
  {
  }
}
