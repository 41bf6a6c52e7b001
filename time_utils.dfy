/** Calendar helpers. `GetCurrentMonthYear` reads the clock and is replaced by
    the (year, month) arguments of the handlers that use it. */
module TimeUtils {
  const MonthNames: seq<string> := [
    "January", "February", "March", "April", "May", "June",
    "July", "August", "September", "October", "November", "December"
  ]

  /** `GetMonthName`: the English name of months 1 to 12 and "" for anything else. */
  function GetMonthName(month: int): (name: string)
    ensures name != "" <==> 1 <= month <= 12
    ensures month == 1 ==> name == "January"
    ensures month == 12 ==> name == "December"
  {
    if month < 1 || month > 12 then "" else MonthNames[month - 1]
  }

  /** The month number a name stands for, 0 for a string that names no month. */
  function MonthNumber(name: string): (m: int)
    ensures 0 <= m <= 12
    ensures m != 0 ==> GetMonthName(m) == name
  {
    match name
    case "January" => 1
    case "February" => 2
    case "March" => 3
    case "April" => 4
    case "May" => 5
    case "June" => 6
    case "July" => 7
    case "August" => 8
    case "September" => 9
    case "October" => 10
    case "November" => 11
    case "December" => 12
    case _ => 0
  }

  /** Every valid month is recovered from its name. */
  lemma MonthNameRoundTrip(month: int)
    requires 1 <= month <= 12
    ensures MonthNumber(GetMonthName(month)) == month
  {
  }

  /** Distinct valid months have distinct names. */
  lemma MonthNamesDistinct(m: int, n: int)
    requires 1 <= m <= 12 && 1 <= n <= 12 && m != n
    ensures GetMonthName(m) != GetMonthName(n)
  {
    MonthNameRoundTrip(m);
    MonthNameRoundTrip(n);
  }
}
