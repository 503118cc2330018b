/** The few string tests the planner applies to identities, months, dates and names. */
module Text {
  import opened CheckedMoney

  /** Unicode White_Space, which is what trimming removes. */
  predicate Whitespace(c: char) {
    var n := c as int;
    9 <= n <= 13 || n == 0x20 || n == 0x85 || n == 0xA0 || n == 0x1680
    || 0x2000 <= n <= 0x200A || n == 0x2028 || n == 0x2029 || n == 0x202F || n == 0x205F || n == 0x3000
  }

  function TrimStart(s: string): string {
    if s != [] && Whitespace(s[0]) then TrimStart(s[1..]) else s
  }

  function TrimEnd(s: string): string {
    if s != [] && Whitespace(s[|s| - 1]) then TrimEnd(s[..|s| - 1]) else s
  }

  function Trim(s: string): string {
    TrimEnd(TrimStart(s))
  }

  predicate Blank(s: string) {
    Trim(s) == ""
  }

  predicate Digit(c: char) {
    '0' <= c <= '9'
  }

  predicate AllDigits(s: string) {
    forall i :: 0 <= i < |s| ==> Digit(s[i])
  }

  /** The value of a run of decimal digits. */
  function Decimal(s: string): (n: nat)
    requires AllDigits(s)
  {
    if s == [] then 0 else 10 * Decimal(s[..|s| - 1]) + (s[|s| - 1] as int - '0' as int)
  }

  predicate LeapYear(year: int) {
    year % 4 == 0 && (year % 100 != 0 || year % 400 == 0)
  }

  function DaysInMonth(year: int, month: int): int {
    if month in {1, 3, 5, 7, 8, 10, 12} then 31
    else if month in {4, 6, 9, 11} then 30
    else if month == 2 then (if LeapYear(year) then 29 else 28)
    else 0
  }

  predicate CalendarDateValid(year: int, month: int, day: int) {
    0 < day <= DaysInMonth(year, month)
  }

  predicate DateShape(s: string) {
    |s| == 10 && s[4] == '-' && s[7] == '-'
    && AllDigits(s[..4]) && AllDigits(s[5..7]) && AllDigits(s[8..])
  }

  /** A ten-byte calendar date, year first. */
  predicate ValidDate(s: string) {
    DateShape(s) && CalendarDateValid(Decimal(s[..4]), Decimal(s[5..7]), Decimal(s[8..]))
  }

  /** A year and a month; the month may carry a plus sign, which the integer parser tolerates. */
  predicate ValidMonth(s: string) {
    |s| == 7 && s[4] == '-' && AllDigits(s[..4])
    && if AllDigits(s[5..]) then 1 <= Decimal(s[5..]) <= 12 else s[5] == '+' && '1' <= s[6] <= '9'
  }

  predicate ValidCurrency(s: string) {
    |s| == 3 && forall i :: 0 <= i < |s| ==> 'A' <= s[i] <= 'Z'
  }

  /** The budget month of a dated row: its first seven bytes. */
  function MonthOf(date: string): Option<string> {
    if |date| >= 7 then Some(date[..7]) else None
  }
}
