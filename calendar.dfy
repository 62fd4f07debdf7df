/** The proleptic Gregorian calendar behind Python's `date`: day numbers
    (day 0 is 1970-01-01) and their year, month and day. The conversion
    counts in 400-year eras of 146097 days whose years begin on March 1, so
    that each leap day is the last day of its year. */
module Calendar {
  datatype CivilDate = CivilDate(year: int, month: int, day: int)

  /** The number of days before year `y` of an era; every fourth year ends
      with a leap day, except every hundredth unless it is the four
      hundredth. */
  function YearStart(y: int): int { 365 * y + y / 4 - y / 100 + y / 400 }

  /** The year of the era that day `doe` of the era falls in, searching
      upwards from year `y`. */
  function YearOfEra(doe: int, y: int): int
    decreases 399 - y
  {
    if y < 399 && YearStart(y + 1) <= doe then YearOfEra(doe, y + 1) else y
  }

  /** The calendar date of a day number. */
  function CivilFromDays(days: int): CivilDate {
    var z := days + 719468;
    var era := z / 146097;
    CivilOfEraDay(era, z - era * 146097)
  }

  /** The date of day `doe` of era `era`. */
  function CivilOfEraDay(era: int, doe: int): CivilDate {
    var yoe := YearOfEra(doe, 0);
    CivilOfYearDay(yoe + era * 400, doe - YearStart(yoe))
  }

  /** The date of day `doy` of the year that begins on March 1 of year `y`:
      the months from March on are 31, 30, 31, 30, 31, 31, 30, 31, 30, 31
      and 31 days long, and the year ends in February. */
  function CivilOfYearDay(y: int, doy: int): CivilDate {
    var mp := (5 * doy + 2) / 153;
    var day := doy - (153 * mp + 2) / 5 + 1;
    var month := if mp < 10 then mp + 3 else mp - 9;
    CivilDate(y + (if month <= 2 then 1 else 0), month, day)
  }

  lemma CivilFromDaysEpoch()
    ensures CivilFromDays(0) == CivilDate(1970, 1, 1)
  {
    FromEraDay(0, 4, 135080);
    YearOfEraSkip(135080, 0, 369);
    assert YearOfEra(135080, 369) == 369;
  }

  lemma CivilFromDaysLeapDay()
    ensures CivilFromDays(19782) == CivilDate(2024, 2, 29)
  {
    FromEraDay(19782, 5, 8765);
    YearOfEraSkip(8765, 0, 23);
    assert YearOfEra(8765, 23) == 23;
  }

  /** Every day of every month is numbered 1 to 31. */
  lemma DayOfMonthBounds(days: int)
    ensures 1 <= CivilFromDays(days).day <= 31
  {
  }

  /** Going back to day 1 of a date's month stays in that year and month:
      the day `day - 1` days earlier is the first of the same month. */
  lemma FirstOfSameMonth(days: int)
    ensures var t := CivilFromDays(days);
      CivilFromDays(days - (t.day - 1)) == CivilDate(t.year, t.month, 1)
  {
    var z := days + 719468;
    var era := z / 146097;
    var doe := z - era * 146097;
    FromEraDay(days, era, doe);
    FirstOfEraMonth(era, doe);
    var c := CivilOfEraDay(era, doe);
    var first := days - (CivilFromDays(days).day - 1);
    assert first == days - (c.day - 1);
    FromEraDay(first, era, doe - (c.day - 1));
    SameDate(CivilFromDays(first), CivilOfEraDay(era, doe - (c.day - 1)), CivilFromDays(days), c);
  }

  // ---------------------------------------------------------------------------
  // Steps of the proofs above

  lemma YearStartGrows(a: int, b: int)
    requires 0 <= a < b
    ensures YearStart(a) < YearStart(b)
  {
    assert b / 4 >= a / 4 && b / 400 >= a / 400;
    assert b / 100 - a / 100 <= (b - a) / 100 + 1;
  }

  /** The year found has begun by day `doe` and the next one has not. */
  lemma {:induction false} YearOfEraBrackets(doe: int, y: int)
    requires 0 <= y <= 399 && YearStart(y) <= doe < 146097
    ensures var r := YearOfEra(doe, y);
      y <= r <= 399 && YearStart(r) <= doe < YearStart(r + 1)
    decreases 399 - y
  {
    if y < 399 && YearStart(y + 1) <= doe {
      YearOfEraBrackets(doe, y + 1);
    } else if y == 399 {
      assert YearStart(400) == 146097;
    }
  }

  /** A search started lower finds the same year as one started at a year
      that has already begun. */
  lemma {:induction false} YearOfEraSkip(doe: int, x: int, y: int)
    requires 0 <= x <= y <= 399 && YearStart(y) <= doe
    ensures YearOfEra(doe, x) == YearOfEra(doe, y)
    decreases y - x
  {
    if x < y {
      if x + 1 < y {
        YearStartGrows(x + 1, y);
      }
      YearOfEraSkip(doe, x + 1, y);
    }
  }

  /** Two days of the same year of an era are found in the same year. */
  lemma SameYear(doe: int, doe': int)
    requires 0 <= doe < 146097 && YearStart(YearOfEra(doe, 0)) <= doe' <= doe
    ensures YearOfEra(doe', 0) == YearOfEra(doe, 0)
  {
    YearOfEraBrackets(doe, 0);
    var y := YearOfEra(doe, 0);
    YearOfEraSkip(doe', 0, y);
    YearOfEraSkip(doe, 0, y);
    if y < 399 {
      assert YearOfEra(doe', y) == y;
    }
  }

  lemma FirstOfYearMonth(y: int, doy: int, first: int)
    requires 0 <= doy && first == doy - (CivilOfYearDay(y, doy).day - 1)
    ensures 0 <= first <= doy
    ensures var c := CivilOfYearDay(y, doy);
      CivilOfYearDay(y, first) == CivilDate(c.year, c.month, 1)
  {
    var mp := (5 * doy + 2) / 153;
    var m0 := (153 * mp + 2) / 5;
    assert (5 * m0 + 2) / 153 == mp;
  }

  lemma EraDay(era: int, doe: int, y: int)
    requires y == YearOfEra(doe, 0)
    ensures CivilOfEraDay(era, doe) == CivilOfYearDay(y + era * 400, doe - YearStart(y))
  {
  }

  lemma SameDate(a: CivilDate, b: CivilDate, c: CivilDate, e: CivilDate)
    requires a == b
    requires b == CivilDate(e.year, e.month, 1)
    requires c == e
    ensures a == CivilDate(c.year, c.month, 1)
  {
  }

  lemma FirstOfEraMonth(era: int, doe: int)
    requires 0 <= doe < 146097
    ensures 1 <= CivilOfEraDay(era, doe).day <= doe + 1
    ensures var c := CivilOfEraDay(era, doe);
      CivilOfEraDay(era, doe - (c.day - 1)) == CivilDate(c.year, c.month, 1)
  {
    YearOfEraBrackets(doe, 0);
    var y := YearOfEra(doe, 0);
    EraDay(era, doe, y);
    var c := CivilOfEraDay(era, doe);
    var doe' := doe - (c.day - 1);
    FirstOfYearMonth(y + era * 400, doe - YearStart(y), doe' - YearStart(y));
    SameYear(doe, doe');
    EraDay(era, doe', y);
    SameDate(CivilOfEraDay(era, doe'), CivilOfYearDay(y + era * 400, doe' - YearStart(y)),
      c, CivilOfYearDay(y + era * 400, doe - YearStart(y)));
  }

  lemma FromEraDay(days: int, era: int, doe: int)
    requires 0 <= doe < 146097 && days + 719468 == era * 146097 + doe
    ensures CivilFromDays(days) == CivilOfEraDay(era, doe)
  {
    assert (days + 719468) / 146097 == era;
  }
}
