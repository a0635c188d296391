/** The element-set epoch: a two-digit year and a fractional day of the year
    (day 1.0 is midnight UTC at the start of January 1). Two-digit years
    pivot at 57, the year of the first satellite: 57 to 99 are 1957 to 1999,
    00 to 56 are 2000 to 2056. */
module Epoch {
  import opened Wrappers
  import opened Strings
  import opened Errors

  /** An instant given as a calendar year and a day of that year counted
      from 1.0: the instant lies `dayOfYear - 1` days after midnight UTC at
      the start of January 1 of `year`. */
  datatype Epoch = Epoch(year: int, dayOfYear: real)

  /** The four-digit year of a two-digit year (the `if` of
      `convertYearAndDayToDate`). */
  function FullYear(y: int): int {
    if y < 57 then y + 2000 else y + 1900
  }

  /** `convertYearAndDayToDate`: the year text is read as an integer and
      pivoted, then the day text is read as a float. The year is read first,
      so bad year text is reported even when the day text is bad too. */
  function ConvertYearAndDayToDate(parseFloat: string -> Option<real>, twoDigitYear: string, day: string)
    : (r: Result<Epoch, ParseError>)
    ensures r.Success? <==> Atoi(twoDigitYear).Some? && parseFloat(day).Some?
    ensures Atoi(twoDigitYear).None? ==> r == Failure(SyntaxError(twoDigitYear))
    ensures Atoi(twoDigitYear).Some? && parseFloat(day).None? ==> r == Failure(SyntaxError(day))
    ensures r.Success? ==> r.value.year == FullYear(Atoi(twoDigitYear).value)
    ensures r.Success? ==> r.value.dayOfYear == parseFloat(day).value
    ensures r.Success? && 0 <= Atoi(twoDigitYear).value <= 99 ==>
      1957 <= r.value.year <= 2056 && r.value.year % 100 == Atoi(twoDigitYear).value
  {
    var y :- ParseInt(twoDigitYear);
    var d :- ParseFloat(parseFloat, day);
    FullYearRange(y);
    Success(Epoch(FullYear(y), d))
  }

  /** Seconds from midnight UTC on January 1 of the epoch's year to the
      epoch, over exact reals. */
  function SecondsIntoYear(e: Epoch): real {
    (e.dayOfYear - 1.0) * 86400.0
  }

  // ------------------------------------------------------------- properties

  /** Every two-digit year lands in 1957..2056 and keeps its last two digits. */
  lemma FullYearRange(y: int)
    ensures 0 <= y <= 99 ==> 1957 <= FullYear(y) <= 2056 && FullYear(y) % 100 == y
  {
    if y < 0 || y > 99 {
    } else if y < 57 {
      assert FullYear(y) == 20 * 100 + y;
    } else {
      assert FullYear(y) == 19 * 100 + y;
    }
  }

  /** Every year of 1957..2056 is the image of its last two digits, so the
      pivot is a bijection between 0..99 and 1957..2056. */
  lemma FullYearOnto(year: int)
    requires 1957 <= year <= 2056
    ensures 0 <= year % 100 <= 99 && FullYear(year % 100) == year
  {
    if year < 2000 {
      assert year == 19 * 100 + (year - 1900);
    } else {
      assert year == 20 * 100 + (year - 2000);
    }
  }

  lemma FullYearInjective(a: int, b: int)
    requires 0 <= a <= 99 && 0 <= b <= 99 && FullYear(a) == FullYear(b)
    ensures a == b
  {
    FullYearRange(a);
    FullYearRange(b);
  }

  /** The two digits of a year field are read as their decimal value. */
  lemma TwoDigitYear(t: string)
    requires |t| == 2 && AllDigits(t)
    ensures Atoi(t) == Some(DecimalValue(t))
    ensures 0 <= DecimalValue(t) <= 99
  {
    AtoiDigits(t);
    assert Pow10(2) == 100;
  }

  /** The pivot on the years of the tests and the sample: 20 is 2020, 98 is
      1998, 56 is 2056, 57 is 1957. Atoi accepts a sign, so the year field
      "-5" is read as -5 and the decoder turns it into 1995, and "+5" into
      2005. */
  lemma FullYearExamples(parseFloat: string -> Option<real>, day: string)
    requires parseFloat(day).Some?
    ensures FullYear(20) == 2020 && FullYear(98) == 1998
    ensures FullYear(56) == 2056 && FullYear(57) == 1957
    ensures Atoi("-5") == Some(-5) && Atoi("+5") == Some(5)
    ensures ConvertYearAndDayToDate(parseFloat, "-5", day).Success?
    ensures ConvertYearAndDayToDate(parseFloat, "-5", day).value.year == 1995
    ensures ConvertYearAndDayToDate(parseFloat, "+5", day).Success?
    ensures ConvertYearAndDayToDate(parseFloat, "+5", day).value.year == 2005
  {
    assert "-5"[1..] == "5" && "+5"[1..] == "5";
    AtoiDigits("5");
  }

  /** Year text that is not an integer fails, whatever the day text. */
  lemma BadYearFails(parseFloat: string -> Option<real>, day: string)
    ensures ConvertYearAndDayToDate(parseFloat, "20a", day) == Failure(SyntaxError("20a"))
  {
    var t := "20a";
    assert !IsDigit(t[2]);
    assert !AllDigits(t[1..]) by { assert t[1..][1] == t[2]; }
    assert !AllDigits(t) by { assert !IsDigit(t[2]); }
  }

  /** Day text the float parser rejects fails after a good year. */
  lemma BadDayFails(parseFloat: string -> Option<real>)
    requires parseFloat("274.51782528a").None?
    ensures ConvertYearAndDayToDate(parseFloat, "20", "274.51782528a") == Failure(SyntaxError("274.51782528a"))
  {
    TwoDigitYear("20");
  }

  /** The epoch of the sample ISS element set: year "20", day "274.51782528"
      is 2020, 273.51782528 days after the start of the year. */
  lemma SampleEpoch(parseFloat: string -> Option<real>)
    requires parseFloat("274.51782528") == Some(274.51782528)
    ensures ConvertYearAndDayToDate(parseFloat, "20", "274.51782528").Success?
    ensures ConvertYearAndDayToDate(parseFloat, "20", "274.51782528").value == Epoch(2020, 274.51782528)
    ensures SecondsIntoYear(Epoch(2020, 274.51782528)) == 273.51782528 * 86400.0
  {
    TwoDigitYear("20");
    assert DecimalValue("20") == 20;
  }

  /** Year "15", day "22.968530853511766": 2015, January 22 at 23:14:41.0657
      (21 days, 23 hours, 14 minutes and 41.0657 seconds into the year). */
  lemma TestEpoch(parseFloat: string -> Option<real>)
    requires parseFloat("22.968530853511766") == Some(22.968530853511766)
    ensures ConvertYearAndDayToDate(parseFloat, "15", "22.968530853511766").Success?
    ensures ConvertYearAndDayToDate(parseFloat, "15", "22.968530853511766").value.year == 2015
    ensures var s := SecondsIntoYear(Epoch(2015, 22.968530853511766));
      21.0 * 86400.0 + 23.0 * 3600.0 + 14.0 * 60.0 + 41.0657 <= s < 21.0 * 86400.0 + 23.0 * 3600.0 + 14.0 * 60.0 + 41.0658
  {
    TwoDigitYear("15");
    assert DecimalValue("15") == 15;
  }
}
