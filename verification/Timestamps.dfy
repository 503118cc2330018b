/** Two readers of UTC timestamps: an instant count and a calendar struct, over one grammar. */
module Timestamps {
  import opened CheckedMoney
  import opened Text

  datatype Stamp = Stamp(year: int, month: int, day: int, hour: int, minute: int, second: int, nanosecond: int)

  const U32_MAX: int := 0xFFFF_FFFF

  // Fractions of a second.

  function Pow10(n: nat): int {
    if n == 0 then 1 else 10 * Pow10(n - 1)
  }

  /** Up to nine digits, read as nanoseconds. */
  function Nanos(fraction: string): int
    requires AllDigits(fraction) && |fraction| <= 9
  {
    Decimal(fraction) * Pow10(9 - |fraction|)
  }

  lemma {:induction false} PowPositive(n: nat)
    ensures Pow10(n) >= 1
  {
    if n > 0 {
      PowPositive(n - 1);
    }
  }

  lemma {:induction false} PowAdds(a: nat, b: nat)
    ensures Pow10(a) * Pow10(b) == Pow10(a + b)
  {
    if a > 0 {
      PowAdds(a - 1, b);
      assert Pow10(a) * Pow10(b) == 10 * (Pow10(a - 1) * Pow10(b));
    }
  }

  lemma {:induction false} DecimalBound(s: string)
    requires AllDigits(s)
    ensures Decimal(s) < Pow10(|s|)
  {
    if s != [] {
      DecimalBound(s[..|s| - 1]);
    }
  }

  lemma {:induction false} NanosBound(fraction: string)
    requires AllDigits(fraction) && |fraction| <= 9
    ensures 0 <= Nanos(fraction) < 1_000_000_000
  {
    DecimalBound(fraction);
    PowPositive(9 - |fraction|);
    PowAdds(|fraction|, 9 - |fraction|);
    assert Pow10(9) == 1_000_000_000 by {
      assert Pow10(3) == 1000;
      PowAdds(3, 3);
      PowAdds(6, 3);
    }
    Scaled(Decimal(fraction), Pow10(|fraction|), Pow10(9 - |fraction|));
  }

  lemma {:induction false} Scaled(x: nat, bound: int, scale: int)
    requires x < bound && scale >= 1
    ensures 0 <= x * scale < bound * scale
  {
  }

  lemma {:induction false} DecimalNext(s: string, i: nat)
    requires AllDigits(s) && i < |s|
    ensures AllDigits(s[..i]) && AllDigits(s[..i + 1])
    ensures Decimal(s[..i + 1]) == 10 * Decimal(s[..i]) + (s[i] as int - '0' as int)
  {
    assert s[..i + 1][..i] == s[..i];
  }

  /** The instant reader's two loops: accumulate the digits, then scale up to nine. */
  method AccumulateNanos(fraction: string) returns (nanos: int)
    requires AllDigits(fraction) && |fraction| <= 9
    ensures nanos == Nanos(fraction)
  {
    nanos := 0;
    assert Decimal(fraction[..0]) == 0;
    for i := 0 to |fraction|
      invariant AllDigits(fraction[..i]) && nanos == Decimal(fraction[..i])
    {
      DecimalNext(fraction, i);
      nanos := nanos * 10 + (fraction[i] as int - '0' as int);
    }
    assert fraction[..|fraction|] == fraction;
    var digits := |fraction|;
    while digits < 9
      invariant |fraction| <= digits <= 9
      invariant nanos * Pow10(9 - digits) == Nanos(fraction)
    {
      ScaleOnce(nanos, 9 - digits);
      nanos := nanos * 10;
      digits := digits + 1;
    }
  }

  lemma {:induction false} ScaleOnce(n: int, k: nat)
    requires k > 0
    ensures n * Pow10(k) == (n * 10) * Pow10(k - 1)
  {
  }

  /** The struct reader's checked 32-bit loop; nine digits cannot overflow it. */
  method CheckedNanosecond(fraction: string) returns (r: Result<int>)
    requires AllDigits(fraction) && |fraction| <= 9
    ensures r == Ok(Nanos(fraction))
  {
    var value := 0;
    assert Decimal(fraction[..0]) == 0;
    for i := 0 to |fraction|
      invariant AllDigits(fraction[..i]) && value == Decimal(fraction[..i])
    {
      DecimalNext(fraction, i);
      PrefixSmall(fraction, i + 1);
      if value * 10 > U32_MAX || value * 10 + (fraction[i] as int - '0' as int) > U32_MAX {
        return Err("invalid_canonical_timestamp");
      }
      value := value * 10 + (fraction[i] as int - '0' as int);
    }
    assert fraction[..|fraction|] == fraction;
    NanosBound(fraction);
    if value * Pow10(9 - |fraction|) > U32_MAX {
      return Err("invalid_canonical_timestamp");
    }
    r := Ok(value * Pow10(9 - |fraction|));
  }

  lemma {:induction false} PrefixSmall(s: string, i: nat)
    requires AllDigits(s) && i <= |s| <= 9
    ensures AllDigits(s[..i]) && Decimal(s[..i]) < 1_000_000_000
  {
    NanosBound(s[..i]);
    PowPositive(9 - i);
    Grows(Decimal(s[..i]), Pow10(9 - i));
  }

  lemma {:induction false} Grows(x: nat, scale: int)
    requires scale >= 1
    ensures x <= x * scale
  {
  }

  // The struct reader.

  predicate Shape(v: string) {
    (|v| == 20 || (22 <= |v| <= 30 && v[19] == '.' && AllDigits(v[20..|v| - 1])))
    && v[|v| - 1] == 'Z' && v[4] == '-' && v[7] == '-' && v[10] == 'T' && v[13] == ':' && v[16] == ':'
  }

  predicate Numbered(v: string) {
    |v| >= 19 && AllDigits(v[..4]) && AllDigits(v[5..7]) && AllDigits(v[8..10]) && AllDigits(v[11..13]) && AllDigits(v[14..16]) && AllDigits(v[17..19])
  }

  predicate InRange(s: Stamp, lastSecond: int) {
    CalendarDateValid(s.year, s.month, s.day) && s.hour <= 23 && s.minute <= 59 && s.second <= lastSecond
  }

  function Fraction(v: string): string
    requires |v| >= 20
  {
    if |v| == 20 then "" else v[20..|v| - 1]
  }

  function Read(v: string): Stamp
    requires Shape(v) && Numbered(v)
  {
    Stamp(Decimal(v[..4]), Decimal(v[5..7]), Decimal(v[8..10]), Decimal(v[11..13]), Decimal(v[14..16]), Decimal(v[17..19]), Nanos(Fraction(v)))
  }

  /** The calendar struct of a timestamp; the seconds may count up to a leap second. */
  function CanonicalTimestamp(v: string): Option<Stamp> {
    if Shape(v) && Numbered(v) && InRange(Read(v), 60) then Some(Read(v)) else None
  }

  // The instant reader.

  /** The text before and after the first occurrence of a separator. */
  function SplitOnce(s: string, c: char): (r: Option<(string, string)>)
    ensures r.None? ==> c !in s
    ensures r.Some? ==> s == r.value.0 + [c] + r.value.1 && c !in r.value.0
  {
    if s == [] then None
    else if s[0] == c then Some(("", s[1..]))
    else
      match SplitOnce(s[1..], c)
      case None => None
      case Some(p) => Some(([s[0]] + p.0, p.1))
  }

  function SplitFraction(clock: string): (string, string) {
    match SplitOnce(clock, '.')
    case None => (clock, "")
    case Some(p) => p
  }

  predicate TimeShape(time: string) {
    |time| == 8 && time[2] == ':' && time[5] == ':' && AllDigits(time[..2]) && AllDigits(time[3..5]) && AllDigits(time[6..])
  }

  function DaysFromCivil(year: int, month: int, day: int): int {
    var y := if month <= 2 then year - 1 else year;
    var era := y / 400;
    var yearOfEra := y - era * 400;
    var adjusted := month + if month > 2 then -3 else 9;
    var dayOfYear := (153 * adjusted + 2) / 5 + day - 1;
    era * 146097 + (yearOfEra * 365 + yearOfEra / 4 - yearOfEra / 100 + dayOfYear) - 719468
  }

  function Instant(s: Stamp): int {
    (DaysFromCivil(s.year, s.month, s.day) * 86400 + s.hour * 3600 + s.minute * 60 + s.second) * 1_000_000_000 + s.nanosecond
  }

  function ParseUtc(v: string): Option<int> {
    if v == [] || v[|v| - 1] != 'Z' || SplitOnce(v[..|v| - 1], 'T').None? then None
    else
      var (date, clock) := SplitOnce(v[..|v| - 1], 'T').value;
      if !ValidDate(date) then None
      else
        var (time, fraction) := SplitFraction(clock);
        if !TimeShape(time) || (|clock| > |time| && fraction == "") || |fraction| > 9 || !AllDigits(fraction) then None
        else
          var hour, minute, second := Decimal(time[..2]), Decimal(time[3..5]), Decimal(time[6..]);
          if hour > 23 || minute > 59 || second > 59 then None
          else Some((DaysFromCivil(Decimal(date[..4]), Decimal(date[5..7]), Decimal(date[8..])) * 86400 + (hour * 3600 + minute * 60 + second))
                    * 1_000_000_000 + Nanos(fraction))
  }

  // They agree.

  lemma {:induction false} SplitAt(s: string, c: char, i: nat)
    requires i < |s| && s[i] == c && c !in s[..i]
    ensures SplitOnce(s, c) == Some((s[..i], s[i + 1..]))
    decreases i
  {
    if i > 0 {
      assert s[0] in s[..i] && s[..i][1..] == s[1..][..i - 1];
      SplitAt(s[1..], c, i - 1);
      assert s[..i] == [s[0]] + s[1..][..i - 1];
    }
  }

  /** What the canonical shape splits into. */
  lemma {:induction false} ShapeSplits(v: string)
    requires Shape(v) && Numbered(v)
    ensures SplitOnce(v[..|v| - 1], 'T') == Some((v[..10], v[11..|v| - 1]))
    ensures SplitFraction(v[11..|v| - 1]) == (v[11..19], Fraction(v))
  {
    var body := v[..|v| - 1];
    forall i | 0 <= i < 10
      ensures body[..10][i] != 'T'
    {
      assert i < 4 ==> v[..4][i] == v[i];
      assert 5 <= i < 7 ==> v[5..7][i - 5] == v[i];
      assert 8 <= i < 10 ==> v[8..10][i - 8] == v[i];
    }
    SplitAt(body, 'T', 10);
    assert body[..10] == v[..10] && body[11..] == v[11..|v| - 1];
    ClockSplits(v);
  }

  lemma {:induction false} ClockSplits(v: string)
    requires Shape(v) && Numbered(v)
    ensures SplitFraction(v[11..|v| - 1]) == (v[11..19], Fraction(v))
  {
    var clock := v[11..|v| - 1];
    forall i | 0 <= i < 8
      ensures clock[i] != '.'
    {
      assert i < 2 ==> v[11..13][i] == clock[i];
      assert 3 <= i < 5 ==> v[14..16][i - 3] == clock[i];
      assert 6 <= i < 8 ==> v[17..19][i - 6] == clock[i];
    }
    if |v| == 20 {
      assert clock == v[11..19];
      assert '.' !in clock;
    } else {
      assert clock[8] == '.' && '.' !in clock[..8];
      SplitAt(clock, '.', 8);
      assert clock[..8] == v[11..19] && clock[9..] == Fraction(v);
    }
  }

  lemma {:induction false} PartsOf(v: string)
    requires Shape(v) && Numbered(v)
    ensures var date, time := v[..10], v[11..19];
            date[..4] == v[..4] && date[5..7] == v[5..7] && date[8..] == v[8..10]
            && time[..2] == v[11..13] && time[3..5] == v[14..16] && time[6..] == v[17..19]
            && DateShape(date) && TimeShape(time) && AllDigits(Fraction(v)) && |Fraction(v)| <= 9
            && (|v| > 20 ==> Fraction(v) != "")
  {
    var date, time := v[..10], v[11..19];
    assert date[..4] == v[..4] && date[5..7] == v[5..7] && date[8..] == v[8..10];
    assert time[..2] == v[11..13] && time[3..5] == v[14..16] && time[6..] == v[17..19];
    assert time[2] == v[13] && time[5] == v[16] && date[4] == v[4] && date[7] == v[7];
  }

  lemma {:induction false} ShapeParses(v: string)
    requires Shape(v) && Numbered(v)
    ensures ParseUtc(v) == if InRange(Read(v), 59) then Some(Instant(Read(v))) else None
  {
    ShapeSplits(v);
    PartsOf(v);
    hide Decimal, Nanos, DaysFromCivil, SplitOnce, SplitFraction, CalendarDateValid, DateShape, TimeShape, AllDigits, Numbered;
  }

  lemma {:induction false} ParsedShape(v: string)
    requires ParseUtc(v).Some?
    ensures Shape(v) && Numbered(v)
  {
    var body := v[..|v| - 1];
    var date, clock := SplitOnce(body, 'T').value.0, SplitOnce(body, 'T').value.1;
    var time, fraction := SplitFraction(clock).0, SplitFraction(clock).1;
    hide Decimal, Nanos, DaysFromCivil, ParseUtc, CalendarDateValid;
    assert ValidDate(date) && TimeShape(time) && AllDigits(fraction) && |fraction| <= 9 && (|clock| > |time| ==> fraction != "") by {
      ParsedParts(v);
    }
    assert v == date + "T" + clock + "Z";
    assert clock == time + (if |clock| > |time| then "." + fraction else "");
    Assembled(v, date, time, fraction, |clock| > |time|);
  }

  lemma {:induction false} ParsedParts(v: string)
    requires ParseUtc(v).Some?
    ensures var (date, clock) := SplitOnce(v[..|v| - 1], 'T').value;
            var (time, fraction) := SplitFraction(clock);
            ValidDate(date) && TimeShape(time) && AllDigits(fraction) && |fraction| <= 9 && (|clock| > |time| ==> fraction != "")
  {
    hide Decimal, Nanos, DaysFromCivil, CalendarDateValid;
  }

  lemma {:induction false} Assembled(v: string, date: string, time: string, fraction: string, fractional: bool)
    requires DateShape(date) && TimeShape(time) && AllDigits(fraction) && |fraction| <= 9 && (fractional ==> fraction != "")
    requires v == date + "T" + (time + (if fractional then "." + fraction else "")) + "Z"
    ensures Shape(v) && Numbered(v)
  {
    assert v[..4] == date[..4] && v[5..7] == date[5..7] && v[8..10] == date[8..];
    assert v[11..13] == time[..2] && v[14..16] == time[3..5] && v[17..19] == time[6..];
    assert v[4] == date[4] && v[7] == date[7] && v[10] == 'T' && v[13] == time[2] && v[16] == time[5];
    if fractional {
      assert v[19] == '.' && v[20..|v| - 1] == fraction;
    }
  }

  /**
   * Both readers accept one grammar and read one instant from it; they part only at second 60, which the
   * struct reader allows.
   */
  lemma {:induction false} ReadersAgree(v: string)
    ensures ParseUtc(v).Some? <==> CanonicalTimestamp(v).Some? && CanonicalTimestamp(v).value.second <= 59
    ensures ParseUtc(v).Some? ==> ParseUtc(v).value == Instant(CanonicalTimestamp(v).value)
  {
    hide Decimal, Nanos, DaysFromCivil, ParseUtc, Shape, Numbered, CalendarDateValid, Instant;
    if ParseUtc(v).Some? {
      ParsedShape(v);
    }
    if Shape(v) && Numbered(v) {
      ShapeParses(v);
    }
  }

  lemma {:induction false} TwoDigits(s: string)
    requires |s| == 2 && AllDigits(s)
    ensures Decimal(s) == 10 * (s[0] as int - '0' as int) + (s[1] as int - '0' as int)
  {
    var front := s[..|s| - 1];
    assert front == [s[0]] && front[..|front| - 1] == [];
    assert Decimal(front) == s[0] as int - '0' as int;
  }

  const LEAP := "2016-12-31T23:59:60Z"

  lemma {:induction false} LeapShape()
    ensures Shape(LEAP) && Numbered(LEAP)
  {
    assert AllDigits(LEAP[..4]) && AllDigits(LEAP[5..7]) && AllDigits(LEAP[8..10]);
    assert AllDigits(LEAP[11..13]) && AllDigits(LEAP[14..16]) && AllDigits(LEAP[17..19]);
  }

  lemma {:induction false} LeapRead()
    requires Shape(LEAP) && Numbered(LEAP)
    ensures var s := Read(LEAP); s.month == 12 && s.day == 31 && s.hour == 23 && s.minute == 59 && s.second == 60
  {
    TwoDigits(LEAP[5..7]);
    TwoDigits(LEAP[8..10]);
    TwoDigits(LEAP[11..13]);
    TwoDigits(LEAP[14..16]);
    TwoDigits(LEAP[17..19]);
    hide Decimal, Nanos, AllDigits;
  }

  /** A leap second is read as a struct and refused as an instant. */
  lemma {:induction false} LeapSecondDiffers()
    ensures CanonicalTimestamp(LEAP).Some? && ParseUtc(LEAP).None?
  {
    hide ParseUtc, Decimal, LeapYear, Shape, Numbered, Nanos;
    LeapShape();
    LeapRead();
    ReadersAgree(LEAP);
  }
}
