/**
 * Due-date handling for invoices: parsing of "dd/mm/yyyy" strings into local
 * dates with the JavaScript `Date` constructor's arithmetic, and the overdue
 * decision against the start of today.  Times are local-time milliseconds;
 * the engine's own parser (used for every other format) and the clock are
 * parameters.
 */
module DateUtils {
  import opened Wrappers
  import opened Js

  const MsPerDay := 86400000

  /** A local calendar date as the `Date` getters report it (month 0-based). */
  datatype CivilDate = CivilDate(year: int, month: int, day: int)

  /** Days from 1970-01-01 to the first day of month `m` (1..12) of year `y`,
      proleptic Gregorian calendar, plus `d - 1`. */
  function DaysFromCivil(y: int, m: int, d: int): int
    requires 1 <= m <= 12
  {
    var y' := if m <= 2 then y - 1 else y;
    var era := y' / 400;
    var yoe := y' - era * 400;
    var mp := if m > 2 then m - 3 else m + 9;
    var doy := (153 * mp + 2) / 5 + d - 1;
    var doe := yoe * 365 + yoe / 4 - yoe / 100 + doy;
    era * 146097 + doe - 719468
  }

  /** `new Date(year, month, day)` as a day number: two-digit years mean
      19xx, and out-of-range months and days carry over (MakeDay). */
  function MakeDay(year: int, month: int, day: int): int {
    var y := if 0 <= year <= 99 then 1900 + year else year;
    var ym := y + month / 12;     // floor division: the divisor is positive
    var mn := month % 12;
    DaysFromCivil(ym, mn + 1, 1) + day - 1
  }

  /** Local midnight of a calendar date, in milliseconds. */
  function MidnightMs(year: int, month: int, day: int): int {
    MakeDay(year, month, day) * MsPerDay
  }

  /** Captures of `/^(\d{2})\/(\d{2})\/(\d{4})$/`: day, month (1-based as
      written) and year. */
  function MatchDmy(s: string): (r: Option<(nat, nat, nat)>)
    ensures r.Some? <==>
      |s| == 10 && IsDigits(s[0..2]) && s[2] == '/' && IsDigits(s[3..5]) && s[5] == '/' && IsDigits(s[6..10])
    ensures r.Some? ==> r.value == (DigitsValue(s[0..2]), DigitsValue(s[3..5]), DigitsValue(s[6..10]))
    ensures r.Some? ==> r.value.0 < 100 && r.value.1 < 100 && r.value.2 < 10000
  {
    if |s| == 10 && IsDigits(s[0..2]) && s[2] == '/' && IsDigits(s[3..5]) && s[5] == '/' && IsDigits(s[6..10]) then
      DigitsBound(s[0..2]);
      DigitsBound(s[3..5]);
      DigitsBound(s[6..10]);
      Some((DigitsValue(s[0..2]), DigitsValue(s[3..5]), DigitsValue(s[6..10])))
    else None
  }

  lemma {:induction false} DigitsBound(s: string)
    requires IsDigits(s)
    ensures |s| == 2 ==> DigitsValue(s) < 100
    ensures |s| == 4 ==> DigitsValue(s) < 10000
  {
    if |s| > 0 {
      var p := s[..|s| - 1];
      assert IsDigits(p);
      if |s| == 2 {
        assert DigitsValue(p) < 10 by { assert |p| == 1; assert p[..0] == []; }
      } else if |s| == 4 {
        var p2 := p[..2];
        assert IsDigits(p2);
        DigitsBound(p2);
        assert p[..|p| - 1] == p2;
      }
    }
  }

  /** `parseDateString`: the dd/mm/yyyy branch, else the engine's parser
      (`native`, `None` for an invalid date). */
  function ParseDateString(s: string, native: Option<int>): (t: Option<int>)
    ensures MatchDmy(s).Some? ==>
      t == Some(MidnightMs(MatchDmy(s).value.2, MatchDmy(s).value.1 - 1, MatchDmy(s).value.0))
    ensures MatchDmy(s).None? ==> t == native
  {
    match MatchDmy(s)
    case Some((day, month, year)) => Some(MidnightMs(year, month - 1, day))
    case None => native
  }

  /** `isPaymentOverdue(dueDates, status)` evaluated on `today`. */
  function IsPaymentOverdue(dueDates: string, status: string, today: CivilDate, native: Option<int>): (b: bool)
    ensures status == "PAID" ==> !b
    ensures status == "OVERDUE" ==> b
    ensures status != "PAID" && status != "OVERDUE" ==>
      (b <==> ParseDateString(dueDates, native).Some? &&
              ParseDateString(dueDates, native).value < MidnightMs(today.year, today.month, today.day))
  {
    if status == "PAID" then false
    else if status == "OVERDUE" then true
    else
      match ParseDateString(dueDates, native)
      case None => false
      case Some(due) => due < MidnightMs(today.year, today.month, today.day)
  }

  /** Consecutive days of one month are consecutive day numbers. */
  lemma NextDay(year: int, month: int, day: int)
    ensures MakeDay(year, month, day + 1) == MakeDay(year, month, day) + 1
  {
  }

  /** The three fields of "dd/mm/yyyy" sit at fixed positions. */
  lemma SplitDmy(dd: string, mm: string, yyyy: string)
    requires |dd| == 2 && |mm| == 2 && |yyyy| == 4
    ensures var s := dd + "/" + mm + "/" + yyyy;
            |s| == 10 && s[0..2] == dd && s[2] == '/' && s[3..5] == mm && s[5] == '/' && s[6..10] == yyyy
  {
    var s := dd + "/" + mm + "/" + yyyy;
    assert s[3..5] == mm by {
      assert forall i :: 0 <= i < 2 ==> s[3 + i] == mm[i];
    }
  }

  /** A well-formed string is matched, with the day, month and year its
      digits spell (so it parses to `MidnightMs(year, month - 1, day)`). */
  lemma ParsesDigits(dd: string, mm: string, yyyy: string)
    requires |dd| == 2 && |mm| == 2 && |yyyy| == 4
    requires IsDigits(dd) && IsDigits(mm) && IsDigits(yyyy)
    ensures MatchDmy(dd + "/" + mm + "/" + yyyy) == Some((DigitsValue(dd), DigitsValue(mm), DigitsValue(yyyy)))
  {
    SplitDmy(dd, mm, yyyy);
  }

  /** Due today is not overdue; due the day before is. */
  lemma DueTodayNotOverdue(dueDates: string, today: CivilDate, native: Option<int>)
    requires MatchDmy(dueDates) == Some((today.day, today.month + 1, today.year))
    ensures !IsPaymentOverdue(dueDates, "PENDING", today, native)
  {
  }

  lemma DueYesterdayOverdue(dueDates: string, today: CivilDate, native: Option<int>)
    requires today.day >= 1
    requires MatchDmy(dueDates) == Some(((today.day - 1) as nat, today.month + 1, today.year))
    ensures IsPaymentOverdue(dueDates, "PENDING", today, native)
  {
    NextDay(today.year, today.month, today.day - 1);
  }

  /** A string the pattern rejects, with an invalid native parse, is never
      overdue while pending. */
  lemma GarbageNotOverdue(dueDates: string, today: CivilDate)
    requires MatchDmy(dueDates).None?
    ensures !IsPaymentOverdue(dueDates, "PENDING", today, None)
  {
  }

  /** Calendar carry-over: month 12 of one year is month 0 of the next, day 0
      is the last day of the previous month, and "31/12/2024" is the day
      before 1 January 2025. */
  lemma CarryOverYear()
    ensures MakeDay(2024, 12, 1) == MakeDay(2025, 0, 1) == 20089
    ensures MakeDay(2025, 0, 0) == MakeDay(2024, 11, 31) == 20088
  {
    assert DaysFromCivil(2025, 1, 1) == 20089;
    assert DaysFromCivil(2024, 12, 1) == 20058;
  }

  /** "31/02/2025" is accepted and lands on 3 March 2025. */
  lemma CarryOverDay()
    ensures MakeDay(2025, 1, 31) == MakeDay(2025, 2, 3) == 20150
  {
    assert DaysFromCivil(2025, 2, 1) == 20120;
    assert DaysFromCivil(2025, 3, 1) == 20148;
  }

  lemma Epoch()
    ensures MakeDay(1970, 0, 1) == 0
  {
    assert DaysFromCivil(1970, 1, 1) == 0;
  }
}
