/**
 * The Day 3 arrays exercise: a skills array walked by index, the monthly
 * incomes walked by a for-each loop with a separate month counter, and the
 * incomes summed into a Java `int`.
 */
module ArrayLoops {
  import opened JavaInt

  /** The exact sum of the values. */
  function Sum(s: seq<int32>): int
  {
    if s == [] then 0 else Sum(s[..|s| - 1]) + s[|s| - 1] as int
  }

  /**
   * `for (int income : monthlyIncome) total += income;`: the sum of the
   * array as a Java `int`, that is, the exact sum wrapped to 32 bits.
   */
  method TotalIncome(monthlyIncome: array<int32>) returns (total: int32)
    ensures total == Wrap(Sum(monthlyIncome[..]))
    ensures InRange(Sum(monthlyIncome[..])) ==> total as int == Sum(monthlyIncome[..])
  {
    total := 0;
    for i := 0 to monthlyIncome.Length
      invariant total == Wrap(Sum(monthlyIncome[..i]))
    {
      assert monthlyIncome[..i + 1] == monthlyIncome[..i] + [monthlyIncome[i]];
      WrapAdd(Sum(monthlyIncome[..i]), monthlyIncome[i] as int);
      total := Wrap(total as int + monthlyIncome[i] as int);
    }
    assert monthlyIncome[..monthlyIncome.Length] == monthlyIncome[..];
  }

  /**
   * The for-each loop over the incomes with `month` counted alongside: each
   * line pairs the 1-based month with that month's income, and the counter
   * ends one past the number of months.
   */
  method MonthListing(monthlyIncome: array<int32>) returns (month: nat, rows: seq<(nat, int32)>)
    ensures month == monthlyIncome.Length + 1
    ensures |rows| == monthlyIncome.Length
    ensures forall k :: 0 <= k < |rows| ==> rows[k] == (k + 1, monthlyIncome[k])
  {
    month := 1;
    rows := [];
    for i := 0 to monthlyIncome.Length
      invariant month == i + 1 && |rows| == i
      invariant forall k :: 0 <= k < i ==> rows[k] == (k + 1, monthlyIncome[k])
    {
      rows := rows + [(month, monthlyIncome[i])];
      month := month + 1;
    }
  }

  /** The indexed loop over the skills: every index once, in order, numbered from 1. */
  method SkillPlan(skills: array<string>) returns (rows: seq<(nat, string)>)
    ensures |rows| == skills.Length
    ensures forall k :: 0 <= k < |rows| ==> rows[k] == (k + 1, skills[k])
  {
    rows := [];
    var i := 0;
    while i < skills.Length
      invariant 0 <= i <= skills.Length && |rows| == i
      invariant forall k :: 0 <= k < i ==> rows[k] == (k + 1, skills[k])
    {
      rows := rows + [(i + 1, skills[i])];
      i := i + 1;
    }
  }

  /**
   * The exercise's program on its own data: the first and the last skill
   * (the last index is in bounds since the array is not empty), five skills,
   * six months ending with the counter at 7, and a total of 345.
   */
  method Program() returns (first: string, last: string, skillCount: nat, month: nat, total: int32)
    ensures first == "Java" && last == "Docker" && skillCount == 5
    ensures month == 7 && total == 345
  {
    var skills := new string[5]["Java", "Spring Boot", "SQL", "Git", "Docker"];
    var monthlyIncome := new int32[6][40, 45, 50, 60, 70, 80];
    first := skills[0];
    last := skills[skills.Length - 1];
    skillCount := skills.Length;
    var plan := SkillPlan(skills);
    var listing;
    month, listing := MonthListing(monthlyIncome);
    total := TotalIncome(monthlyIncome);
    assert monthlyIncome[..] == [40, 45, 50, 60, 70, 80];
    assert Sum([40, 45, 50, 60, 70, 80]) == 345 by {
      assert [40, 45, 50, 60, 70, 80][..5] == [40, 45, 50, 60, 70];
      assert [40, 45, 50, 60, 70][..4] == [40, 45, 50, 60];
      assert [40, 45, 50, 60][..3] == [40, 45, 50];
      assert [40, 45, 50][..2] == [40, 45];
      assert [40, 45][..1] == [40];
    }
  }
}
