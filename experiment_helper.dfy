/**
 * Finding the daily weather record of a calendar day: the comparison of a full date with a
 * month-day pattern, and the search of the daily records that tries a hinted index first.
 */
module ExperimentHelper {
  import opened Wrappers
  import opened Digits
  import opened Events

  /** A daily weather record: its variables by name, in text form. */
  type DailyRecord = map<string, string>

  const WeatherDateKey := "w_date"
  const LeapDay := "0229"
  const LastDayOfFebruary := "0228"

  // ---------------------------------------------------------------------------
  // Text

  /** s without any occurrence of the character c, the other characters in their order. */
  function Without(s: string, c: char): (r: string)
    ensures |r| <= |s|
    ensures c !in r
    ensures forall d :: d != c ==> multiset(r)[d] == multiset(s)[d]
    decreases |s|
  {
    if |s| == 0 then []
    else
      assert s == [s[0]] + s[1..];
      (if s[0] == c then [] else [s[0]]) + Without(s[1..], c)
  }

  /** s with every occurrence of sep taken out, scanning from the left; s itself when sep is empty. */
  function RemoveAll(s: string, sep: string): (r: string)
    ensures |r| <= |s|
    ensures |sep| == 1 ==> r == Without(s, sep[0])
    decreases |s|
  {
    if |sep| == 0 || |s| < |sep| then s
    else if s[..|sep|] == sep then
      assert |sep| == 1 ==> s[0] == sep[0];
      RemoveAll(s[|sep|..], sep)
    else
      assert |sep| == 1 ==> s[..1] == [s[0]];
      [s[0]] + RemoveAll(s[1..], sep)
  }

  predicate EndsWith(s: string, suffix: string) {
    |suffix| <= |s| && s[|s| - |suffix|..] == suffix
  }

  // ---------------------------------------------------------------------------
  // The comparison of a date with a month-day pattern

  /**
   * isSameDate as written: the leap-year test reads the "year" from the month-day
   * pattern itself, whose characters 2 and 3 are always "29" there.
   */
  function IsSameDate(date1: string, date2: string, separator: string): bool {
    var monthDay := RemoveAll(date2, separator);
    if monthDay == LeapDay then
      match ParseInt(monthDay[2..4])
      case None => false
      case Some(year) => if year % 4 != 0 then EndsWith(date1, LastDayOfFebruary) else EndsWith(date1, monthDay)
    else EndsWith(date1, monthDay)
  }

  /**
   * The comparison of a yyyymmdd date with a month-day pattern (the separator taken out):
   * the 29th of February stands for the 28th in a year whose two last digits are not a
   * multiple of four; a date too short for a year, or with no number there, matches no 29th.
   */
  function IsSameDateCorrected(date1: string, date2: string, separator: string): bool {
    var monthDay := RemoveAll(date2, separator);
    if monthDay == LeapDay then
      if |date1| < 4 then false
      else
        match ParseInt(date1[2..4])
        case None => false
        case Some(year) => if year % 4 != 0 then EndsWith(date1, LastDayOfFebruary) else EndsWith(date1, monthDay)
    else EndsWith(date1, monthDay)
  }

  /** Which of the two comparisons a search of the daily records makes. */
  datatype Comparison = AsWritten | Corrected

  predicate SameDate(cmp: Comparison, date1: string, date2: string, separator: string) {
    match cmp
    case AsWritten => IsSameDate(date1, date2, separator)
    case Corrected => IsSameDateCorrected(date1, date2, separator)
  }

  /** Outside the 29th of February both comparisons are a plain suffix test. */
  lemma IsSameDateOtherDays(date1: string, date2: string, separator: string)
    requires RemoveAll(date2, separator) != LeapDay
    ensures IsSameDateCorrected(date1, date2, separator) == EndsWith(date1, RemoveAll(date2, separator))
    ensures IsSameDate(date1, date2, separator) == IsSameDateCorrected(date1, date2, separator)
  {
  }

  /** Two decimal digits are read as the number they denote. */
  lemma TwoDigitsParse(s: string)
    requires |s| == 2 && AllDigits(s)
    ensures DigitsValue(s) == (s[0] as int - '0' as int) * 10 + (s[1] as int - '0' as int)
    ensures ParseInt(s) == Some(DigitsValue(s))
  {
    var first := s[..1];
    assert s[..|s| - 1] == first && AllDigits(first);
    assert first[..|first| - 1] == [];
    assert DigitsValue(first) == s[0] as int - '0' as int;
    assert s[0] != '-' && s[0] != '+';
  }

  /** The comparison as written sends the 29th of February to the 28th in every year. */
  lemma AsWrittenLeapDayIsAlwaysTheTwentyEighth(date1: string, date2: string, separator: string)
    requires RemoveAll(date2, separator) == LeapDay
    ensures IsSameDate(date1, date2, separator) == EndsWith(date1, LastDayOfFebruary)
  {
    var year := LeapDay[2..4];
    assert year[0] == '2' && year[1] == '9';
    TwoDigitsParse(year);
  }

  /** The 29th of February of 2012 is never matched by the comparison as written, the 28th is. */
  lemma LeapDayNeverMatches()
    ensures !IsSameDate("20120229", "02-29", "-")
    ensures IsSameDate("20120228", "02-29", "-")
  {
    RemovesDash();
    AsWrittenLeapDayIsAlwaysTheTwentyEighth("20120229", "02-29", "-");
    AsWrittenLeapDayIsAlwaysTheTwentyEighth("20120228", "02-29", "-");
    var leap, last := "20120229", "20120228";
    assert leap[4..] == LeapDay && last[4..] == LastDayOfFebruary;
  }

  /** Corrected, the 29th of February is the 28th or the 29th as the year digits of the date say. */
  lemma CorrectedLeapDayUnfold(date1: string, date2: string, separator: string, year: int)
    requires RemoveAll(date2, separator) == LeapDay
    requires |date1| >= 4 && ParseInt(date1[2..4]) == Some(year)
    ensures IsSameDateCorrected(date1, date2, separator) ==
      if year % 4 != 0 then EndsWith(date1, LastDayOfFebruary) else EndsWith(date1, LeapDay)
  {
  }

  /** Corrected, the 29th of February of 2012 is matched and the 28th is not. */
  lemma LeapDayMatchesWhenCorrected()
    ensures IsSameDateCorrected("20120229", "02-29", "-")
    ensures !IsSameDateCorrected("20120228", "02-29", "-")
  {
    RemovesDash();
    var leap, last := "20120229", "20120228";
    var year := leap[2..4];
    assert year == last[2..4];
    assert year[0] == '1' && year[1] == '2';
    TwoDigitsParse(year);
    CorrectedLeapDayUnfold(leap, "02-29", "-", 12);
    CorrectedLeapDayUnfold(last, "02-29", "-", 12);
    assert leap[4..] == LeapDay && last[4..] == LastDayOfFebruary;
  }

  lemma RemovesDash()
    ensures RemoveAll("02-29", "-") == LeapDay
  {
    var s, sep := "02-29", "-";
    assert s[..1] != sep && s[1..] == "2-29";
    var s1 := "2-29";
    assert s1[..1] != sep && s1[1..] == "-29";
    var s2 := "-29";
    assert s2[..1] == sep && s2[1..] == "29";
    var s3 := "29";
    assert s3[..1] != sep && s3[1..] == "9";
    var s4 := "9";
    assert s4[..1] != sep && s4[1..] == "";
  }

  /**
   * The corrected comparison for an eight-digit date and the 29th of February: in a year
   * whose last two digits are a multiple of four it matches exactly the 29th (so every
   * such date matches its own month-day pattern), otherwise exactly the 28th.
   */
  lemma LeapDayRule(date1: string, date2: string, separator: string)
    requires RemoveAll(date2, separator) == LeapDay
    requires |date1| == 8 && AllDigits(date1)
    ensures AllDigits(date1[2..4])
    ensures IsSameDateCorrected(date1, date2, separator) ==
      if DigitsValue(date1[2..4]) % 4 == 0 then date1[4..] == LeapDay else date1[4..] == LastDayOfFebruary
  {
    var year := date1[2..4];
    assert AllDigits(year) by {
      forall i | 0 <= i < |year| ensures IsDigit(year[i]) {
        assert year[i] == date1[2 + i];
      }
    }
    TwoDigitsParse(year);
  }

  // ---------------------------------------------------------------------------
  // The search of the daily records

  /** The record is dated on the given calendar day. */
  predicate Matches(cmp: Comparison, rec: DailyRecord, findDate: string) {
    SameDate(cmp, ValueOr(rec, WeatherDateKey, ""), findDate, "-")
  }

  /** The first record at or after from dated on the day, or the end of the records. */
  function FirstMatch(cmp: Comparison, daily: seq<DailyRecord>, findDate: string, from: nat): (r: nat)
    ensures r <= |daily|
    ensures from <= |daily| ==> from <= r
    ensures r < |daily| ==> Matches(cmp, daily[r], findDate)
    ensures forall k :: from <= k < r ==> !Matches(cmp, daily[k], findDate)
    decreases |daily| - from
  {
    if from >= |daily| then |daily|
    else if Matches(cmp, daily[from], findDate) then from
    else FirstMatch(cmp, daily, findDate, from + 1)
  }

  /** A search from from passes over records that are not dated on the day. */
  lemma {:induction false} FirstMatchSkips(cmp: Comparison, daily: seq<DailyRecord>, findDate: string, from: nat, to: nat)
    requires from <= to <= |daily|
    requires forall k :: from <= k < to ==> !Matches(cmp, daily[k], findDate)
    ensures FirstMatch(cmp, daily, findDate, from) == FirstMatch(cmp, daily, findDate, to)
    decreases (to as int) - from
  {
    if from < to {
      FirstMatchSkips(cmp, daily, findDate, from + 1, to);
    }
  }

  /**
   * The record index of the day: the hinted index start + expectedDiff when dated on it,
   * else the one after it, else the first from start; the number of records when none is.
   * None stands for an index out of the records' bounds (a negative index, or the hint's
   * successor at the end of the records).
   */
  function DailyRecIndex(cmp: Comparison, daily: seq<DailyRecord>, findDate: string, start: int, expectedDiff: int)
    : (r: Option<int>)
    ensures r.Some? ==> 0 <= r.value <= |daily|
    ensures r.Some? && r.value < |daily| ==> Matches(cmp, daily[r.value], findDate)
    ensures r == Some(|daily|) ==> 0 <= start && forall k :: start <= k < |daily| ==> !Matches(cmp, daily[k], findDate)
    ensures r.None? <==>
      var hint := start + expectedDiff;
      if hint < |daily| then
        hint < 0 || (!Matches(cmp, daily[hint], findDate) && (hint + 1 == |daily| || (!Matches(cmp, daily[hint + 1], findDate) && start < 0)))
      else start < 0
    ensures var hint := start + expectedDiff;
      0 <= hint < |daily| && Matches(cmp, daily[hint], findDate) ==> r == Some(hint)
    ensures var hint := start + expectedDiff;
      0 <= hint && hint + 1 < |daily| && !Matches(cmp, daily[hint], findDate) && Matches(cmp, daily[hint + 1], findDate)
      ==> r == Some(hint + 1)
    ensures var hint := start + expectedDiff;
      0 <= start &&
      (hint >= |daily| ||
       (0 <= hint && hint + 1 < |daily| && !Matches(cmp, daily[hint], findDate) && !Matches(cmp, daily[hint + 1], findDate)))
      ==> r == Some(FirstMatch(cmp, daily, findDate, start))
  {
    var hint := start + expectedDiff;
    if hint < |daily| && hint < 0 then None
    else if hint < |daily| && Matches(cmp, daily[hint], findDate) then Some(hint)
    else if hint < |daily| && hint + 1 == |daily| then None
    else if hint < |daily| && Matches(cmp, daily[hint + 1], findDate) then Some(hint + 1)
    else if start < 0 then None
    else Some(FirstMatch(cmp, daily, findDate, start))
  }

  /**
   * When no record from start up to the hint is dated on the day, the hint is only a
   * shortcut: the index found is the one a plain search from start finds, and there is
   * none only when the hint is the last record and is not dated on the day.
   */
  lemma HintIsAShortcut(cmp: Comparison, daily: seq<DailyRecord>, findDate: string, start: int, expectedDiff: int)
    requires 0 <= start && 0 <= expectedDiff
    requires forall k :: start <= k < start + expectedDiff && k < |daily| ==> !Matches(cmp, daily[k], findDate)
    ensures var hint := start + expectedDiff;
      DailyRecIndex(cmp, daily, findDate, start, expectedDiff).None? <==>
        (hint + 1 == |daily| && !Matches(cmp, daily[hint], findDate))
    ensures DailyRecIndex(cmp, daily, findDate, start, expectedDiff).Some? ==>
      DailyRecIndex(cmp, daily, findDate, start, expectedDiff) == Some(FirstMatch(cmp, daily, findDate, start))
  {
    var hint := start + expectedDiff;
    if hint < |daily| {
      FirstMatchSkips(cmp, daily, findDate, start, hint);
      if !Matches(cmp, daily[hint], findDate) {
        FirstMatchSkips(cmp, daily, findDate, start, hint + 1);
      }
    }
  }

  /**
   * A hit at the hint wins over an earlier record of the same day (a year before): with the
   * first days of 2012 and of 2013 and a hint of two, the 1st of January 2013 is found.
   */
  lemma HintBeatsEarlierMatch(cmp: Comparison)
    ensures var daily := [map[WeatherDateKey := "20120101"], map[WeatherDateKey := "20120102"],
                          map[WeatherDateKey := "20130101"]];
      && FirstMatch(cmp, daily, "01-01", 0) == 0
      && DailyRecIndex(cmp, daily, "01-01", 0, 2) == Some(2)
  {
    var daily := [map[WeatherDateKey := "20120101"], map[WeatherDateKey := "20120102"],
                  map[WeatherDateKey := "20130101"]];
    RemovesDashNewYear();
    IsSameDateOtherDays("20120101", "01-01", "-");
    IsSameDateOtherDays("20130101", "01-01", "-");
    var first, third := "20120101", "20130101";
    assert first[4..] == "0101" && third[4..] == "0101";
    assert ValueOr(daily[0], WeatherDateKey, "") == first;
    assert ValueOr(daily[2], WeatherDateKey, "") == third;
    assert Matches(cmp, daily[0], "01-01") && Matches(cmp, daily[2], "01-01");
  }

  lemma RemovesDashNewYear()
    ensures RemoveAll("01-01", "-") == "0101"
  {
    var s, sep := "01-01", "-";
    assert s[..1] != sep && s[1..] == "1-01";
    var s1 := "1-01";
    assert s1[..1] != sep && s1[1..] == "-01";
    var s2 := "-01";
    assert s2[..1] == sep && s2[1..] == "01";
    var s3 := "01";
    assert s3[..1] != sep && s3[1..] == "1";
    var s4 := "1";
    assert s4[..1] != sep && s4[1..] == "";
  }

  /**
   * On the 29th of February the two comparisons lead the search to different records: as
   * written the 28th of a leap year is found, corrected the 29th.
   */
  lemma SearchDiffersOnLeapDay()
    ensures DailyRecIndex(AsWritten, [map[WeatherDateKey := "20120228"], map[WeatherDateKey := "20120229"]],
                          "02-29", 0, 0) == Some(0)
    ensures DailyRecIndex(Corrected, [map[WeatherDateKey := "20120228"], map[WeatherDateKey := "20120229"]],
                          "02-29", 0, 0) == Some(1)
  {
    LeapDayNeverMatches();
    LeapDayMatchesWhenCorrected();
    var daily := [map[WeatherDateKey := "20120228"], map[WeatherDateKey := "20120229"]];
    assert ValueOr(daily[0], WeatherDateKey, "") == "20120228";
    assert ValueOr(daily[1], WeatherDateKey, "") == "20120229";
  }

  /** getDailyRecIndex: the hinted index and its successor first, then a scan from start. */
  method GetDailyRecIndex(daily: seq<DailyRecord>, findDate: string, start: int, expectedDiff: int)
    returns (r: Option<int>)
    ensures r == DailyRecIndex(Corrected, daily, findDate, start, expectedDiff)
  {
    var diff := expectedDiff;
    if start + diff < |daily| {
      if start + diff < 0 {
        return None;
      }
      var date := ValueOr(daily[start + diff], WeatherDateKey, "");
      if IsSameDateCorrected(date, findDate, "-") {
        return Some(start + diff);
      }
      diff := diff + 1;
      if start + diff >= |daily| {
        return None;
      }
      date := ValueOr(daily[start + diff], WeatherDateKey, "");
      if IsSameDateCorrected(date, findDate, "-") {
        return Some(start + diff);
      }
    }
    if start < 0 {
      return None;
    }
    var j := start;
    while j < |daily|
      invariant start <= j
      invariant FirstMatch(Corrected, daily, findDate, start) == FirstMatch(Corrected, daily, findDate, j)
    {
      var date := ValueOr(daily[j], WeatherDateKey, "");
      if IsSameDateCorrected(date, findDate, "-") {
        return Some(j);
      }
      j := j + 1;
    }
    return Some(|daily|);
  }
}
