/**
 * The Day 2 control-flow exercise: a three-way salary classification, and a
 * loop that pays a monthly salary until the total reaches 1000, raising the
 * salary by 20 after every sixth month. Amounts are in units of 10,000 yen.
 */
module ControlFlow {
  import opened JavaInt

  /** The three messages of the `if` / `else if` / `else` chain. */
  datatype Outlook = AboveTwelveMillion | TargetReached | NeedsMoreStudy

  /** The branch the chain takes: at least 100, else at least 40, else the rest. */
  function Classify(salary: int): (o: Outlook)
    ensures o == AboveTwelveMillion <==> salary >= 100
    ensures o == TargetReached <==> 40 <= salary < 100
    ensures o == NeedsMoreStudy <==> salary < 40
  {
    if salary >= 100 then AboveTwelveMillion
    else if salary >= 40 then TargetReached
    else NeedsMoreStudy
  }

  /** The raises granted once `months` months are completed: one after every sixth month. */
  function Raises(months: nat): nat
  {
    if months < 6 then 0 else 1 + Raises(months - 6)
  }

  /** One more month brings a raise exactly when it completes a multiple of six months. */
  lemma {:induction false} RaisesStep(months: nat)
    ensures Raises(months + 1) == Raises(months) + (if (months + 1) % 6 == 0 then 1 else 0)
  {
    if months >= 6 {
      RaisesStep(months - 6);
    }
  }

  /** The number of raises is the number of completed half years. */
  lemma {:induction false} RaisesIsQuotient(months: nat)
    ensures Raises(months) == months / 6
  {
    if months >= 6 {
      RaisesIsQuotient(months - 6);
    }
  }

  /** The salary paid in month `m` (1-based): one raise of 20 per six months already completed. */
  function SalaryInMonth(start: int, m: nat): int
    requires m >= 1
  {
    start + 20 * Raises(m - 1)
  }

  /** The total paid over months 1..n. */
  function Paid(start: int, n: nat): int
  {
    if n == 0 then 0 else Paid(start, n - 1) + SalaryInMonth(start, n)
  }

  /**
   * The `for (month = 1; month <= 3; month++)` loop: the cumulative income
   * it shows for each of the first three months, `salary * month` as a
   * Java `int` product: exact unless it leaves the 32-bit range.
   */
  method FirstQuarter(salary: int32) returns (rows: seq<(nat, int32)>)
    ensures |rows| == 3
    ensures forall k :: 0 <= k < 3 ==> rows[k] == (k + 1, Wrap(salary as int * (k + 1)))
    ensures forall k :: 0 <= k < 3 && InRange(salary as int * (k + 1)) ==> rows[k].1 as int == salary as int * (k + 1)
  {
    rows := [];
    var month := 1;
    while month <= 3
      invariant 1 <= month <= 4 && |rows| == month - 1
      invariant forall k :: 0 <= k < |rows| ==> rows[k] == (k + 1, Wrap(salary as int * (k + 1)))
    {
      rows := rows + [(month, Wrap(salary as int * month))];
      month := month + 1;
    }
  }

  /** For a positive starting salary, the total only grows. */
  lemma {:induction false} PaidMonotone(start: int, m: nat, n: nat)
    requires start > 0 && m <= n
    ensures Paid(start, m) <= Paid(start, n)
    decreases n - m
  {
    if m < n {
      PaidMonotone(start, m, n - 1);
    }
  }

  /**
   * The `while (totalIncome < 1000)` loop. It ends after the first month in
   * which the total reaches 1000: the total is what months 1..monthCount
   * paid, it is at least 1000, every earlier month's total was below 1000,
   * and it overshoots by less than the last month's salary.
   */
  method RaiseLoop(startSalary: int) returns (monthCount: nat, totalIncome: int, salary: int)
    requires startSalary > 0
    ensures totalIncome == Paid(startSalary, monthCount) && totalIncome >= 1000
    ensures monthCount >= 1 && totalIncome < 1000 + SalaryInMonth(startSalary, monthCount)
    ensures forall m :: 0 <= m < monthCount ==> Paid(startSalary, m) < 1000
    ensures salary == startSalary + 20 * Raises(monthCount) && salary == startSalary + 20 * (monthCount / 6)
  {
    salary := startSalary;
    totalIncome := 0;
    monthCount := 0;
    while totalIncome < 1000
      invariant totalIncome == Paid(startSalary, monthCount)
      invariant salary == startSalary + 20 * Raises(monthCount)
      invariant forall m :: 0 <= m < monthCount ==> Paid(startSalary, m) < 1000
      invariant monthCount >= 1 ==> totalIncome < 1000 + SalaryInMonth(startSalary, monthCount)
      decreases 1000 - totalIncome
    {
      RaisesStep(monthCount);
      monthCount := monthCount + 1;
      totalIncome := totalIncome + salary;
      if monthCount % 6 == 0 {
        salary := salary + 20;
      }
    }
    RaisesIsQuotient(monthCount);
  }

  /** The month the loop stops at is determined by the starting salary alone. */
  lemma StopMonthUnique(start: int, n: nat, n': nat)
    requires start > 0
    requires n >= 1 && Paid(start, n) >= 1000 && Paid(start, n - 1) < 1000
    requires n' >= 1 && Paid(start, n') >= 1000 && Paid(start, n' - 1) < 1000
    ensures n == n'
  {
    if n < n' {
      PaidMonotone(start, n, n' - 1);
    } else if n' < n {
      PaidMonotone(start, n', n - 1);
    }
  }

  /**
   * What the first months pay from any start: six months at the start
   * salary, six with one raise, then months with two raises.
   */
  lemma PaidFirstMonths(start: int)
    ensures Paid(start, 16) == 16 * start + 280 && Paid(start, 17) == 17 * start + 320
  {
    assert Paid(start, 1) == 1 * start + 0;
    assert Paid(start, 2) == 2 * start + 0;
    assert Paid(start, 3) == 3 * start + 0;
    assert Paid(start, 4) == 4 * start + 0;
    assert Paid(start, 5) == 5 * start + 0;
    assert Paid(start, 6) == 6 * start + 0;
    assert Paid(start, 7) == 7 * start + 20;
    assert Paid(start, 8) == 8 * start + 40;
    assert Paid(start, 9) == 9 * start + 60;
    assert Paid(start, 10) == 10 * start + 80;
    assert Paid(start, 11) == 11 * start + 100;
    assert Paid(start, 12) == 12 * start + 120;
    assert Paid(start, 13) == 13 * start + 160;
    assert Paid(start, 14) == 14 * start + 200;
    assert Paid(start, 15) == 15 * start + 240;
    assert Paid(start, 16) == 16 * start + 280;
    assert Paid(start, 17) == 17 * start + 320;
  }

  /** With the exercise's salary of 40 the loop stops in month 17 with 1000 paid and the salary at 80. */
  lemma FromForty(n: nat)
    requires n >= 1 && Paid(40, n) >= 1000 && Paid(40, n - 1) < 1000
    ensures n == 17 && Paid(40, n) == 1000 && 40 + 20 * Raises(n) == 80
  {
    PaidFirstMonths(40);
    StopMonthUnique(40, n, 17);
  }

  /** The exercise's program: salary 40 is "target reached", and the loop ends at month 17. */
  method Program() returns (outlook: Outlook, monthCount: nat, totalIncome: int, salary: int)
    ensures outlook == TargetReached
    ensures monthCount == 17 && totalIncome == 1000 && salary == 80
  {
    outlook := Classify(40);
    monthCount, totalIncome, salary := RaiseLoop(40);
    FromForty(monthCount);
  }
}
