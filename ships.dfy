/**
 * The ship entity: the record kept by the registry, the partial payload a
 * caller sends, and the calendar year of a production instant.
 */
module Ships {
  import opened Wrappers

  /** The closed set of ship categories. */
  datatype ShipType = Transport | Military | Merchant

  /**
   * A Java `double` as a request can carry it: a number or NaN. The
   * infinities behave like any number outside the accepted speed range
   * and are not given constructors of their own.
   */
  datatype Double = NaN | Num(r: real)

  /**
   * A request payload: every field may be absent (Java `null`). The
   * identifier and the rating a caller might send are never read by the
   * service, so they are not part of the payload.
   */
  datatype ShipData = ShipData(
    name: Option<string>,
    planet: Option<string>,
    shipType: Option<ShipType>,
    prodDate: Option<int>,      // epoch milliseconds
    isUsed: Option<bool>,
    speed: Option<Double>,
    crewSize: Option<int>)

  /** A stored record: every field present, the rating derived from the others. */
  datatype Ship = Ship(
    id: int,
    name: string,
    planet: string,
    shipType: ShipType,
    prodDate: int,              // epoch milliseconds
    isUsed: bool,
    speed: real,
    crewSize: int,
    rating: real)

  const MillisPerDay: int := 86_400_000

  /**
   * The Gregorian calendar year (in UTC) that contains the instant
   * `epochMillis`, counted from 1970-01-01T00:00:00Z; days are counted with
   * floor division.
   */
  function YearOf(epochMillis: int): int {
    CivilYear(epochMillis / MillisPerDay)
  }

  /**
   * The Gregorian year of the day `days` after 1970-01-01, by 400-year eras
   * of 146097 days that start on a 1st of March.
   */
  function CivilYear(days: int): int {
    var z := days + 719_468;                        // days since 0000-03-01
    var era := z / 146_097;
    var dayOfEra := z - era * 146_097;              // in [0, 146096]
    era * 400 + YearInEra(dayOfEra)
  }

  /** The March-based year, within its era, that holds day `dayOfEra` of the era. */
  function MarchYearOfEra(dayOfEra: int): int {
    (dayOfEra - dayOfEra / 1_460 + dayOfEra / 36_524 - dayOfEra / 146_096) / 365
  }

  /** The day of the March-based year, 0 being a 1st of March. */
  function DayOfMarchYear(dayOfEra: int): int {
    var y := MarchYearOfEra(dayOfEra);
    dayOfEra - (365 * y + y / 4 - y / 100)
  }

  /** The civil year, counted from the era's start, of day `dayOfEra` of the era. */
  function YearInEra(dayOfEra: int): int {
    var shiftedMonth := (5 * DayOfMarchYear(dayOfEra) + 2) / 153;  // 0 = March, ..., 11 = February
    // January and February belong to the next civil year
    if shiftedMonth >= 10 then MarchYearOfEra(dayOfEra) + 1 else MarchYearOfEra(dayOfEra)
  }

  /** The March-based year never decreases from one day of an era to the next. */
  lemma MarchYearStep(e: int)
    requires 0 <= e < 146_096
    ensures MarchYearOfEra(e) <= MarchYearOfEra(e + 1) <= MarchYearOfEra(e) + 1
  {
    assert e / 1_460 <= (e + 1) / 1_460 <= e / 1_460 + 1;
    assert e / 36_524 <= (e + 1) / 36_524;
    if e + 1 < 146_096 {
      assert (e + 1) / 146_096 == 0;
    } else {
      assert MarchYearOfEra(e) == 399 && MarchYearOfEra(e + 1) == 399;
    }
  }

  /** The civil year never decreases from one day of an era to the next. */
  lemma YearInEraStep(e: int)
    requires 0 <= e < 146_096
    ensures YearInEra(e) <= YearInEra(e + 1)
  {
    MarchYearStep(e);
    if MarchYearOfEra(e + 1) == MarchYearOfEra(e) {
      assert DayOfMarchYear(e + 1) == DayOfMarchYear(e) + 1;
    }
  }

  /** The last day of an era ends the March-based year 399, as its 366th day. */
  lemma MarchYearAtEraEnd()
    ensures MarchYearOfEra(146_096) == 399
  {
    assert 146_096 / 1_460 == 100 && 146_096 / 36_524 == 4 && 146_096 / 146_096 == 1;
    assert 145_999 / 365 == 399;
  }

  lemma DayAtEraEnd()
    ensures DayOfMarchYear(146_096) == 365
  {
    MarchYearAtEraEnd();
    assert 399 / 4 == 99 && 399 / 100 == 3;
  }

  /** The last day of an era is in the era's 400th civil year, its first day in year 0. */
  lemma EraEnds()
    ensures YearInEra(146_096) == 400 && YearInEra(0) == 0
  {
    MarchYearAtEraEnd();
    DayAtEraEnd();
    assert (5 * 365 + 2) / 153 == 11;
  }

  /** Moving on one day moves one day on within the era, or to the next era's first day. */
  lemma NextDayOfEra(z: int)
    ensures var era := z / 146_097;
      var e := z - era * 146_097;
      && 0 <= e < 146_097
      && (e < 146_096 ==> (z + 1) / 146_097 == era && (z + 1) - era * 146_097 == e + 1)
      && (e == 146_096 ==> (z + 1) / 146_097 == era + 1 && (z + 1) - (era + 1) * 146_097 == 0)
  {
  }

  /** The civil year never decreases from one day to the next. */
  lemma CivilYearStep(days: int)
    ensures CivilYear(days) <= CivilYear(days + 1)
  {
    var z := days + 719_468;
    NextDayOfEra(z);
    var era := z / 146_097;
    var e := z - era * 146_097;
    if e < 146_096 {
      YearInEraStep(e);
    } else {
      EraEnds();
    }
  }

  /** The civil year of a later day is never smaller. */
  lemma {:induction false} CivilYearMonotonic(a: int, b: int)
    requires a <= b
    ensures CivilYear(a) <= CivilYear(b)
    decreases b - a
  {
    if a < b {
      CivilYearStep(a);
      CivilYearMonotonic(a + 1, b);
    }
  }

  /** The year of a later instant is never smaller. */
  lemma YearOfMonotonic(t1: int, t2: int)
    requires t1 <= t2
    ensures YearOf(t1) <= YearOf(t2)
  {
    assert t1 / MillisPerDay <= t2 / MillisPerDay;
    CivilYearMonotonic(t1 / MillisPerDay, t2 / MillisPerDay);
  }

  /** First millisecond of 2800-01-01 and of 3020-01-01 in UTC. */
  const StartOf2800: int := 26_192_246_400_000
  const StartOf3020: int := 33_134_745_600_000

  /** The epoch falls in 1970. */
  lemma YearOfEpoch()
    ensures YearOf(0) == 1970
  {
    assert 0 / MillisPerDay == 0;
    assert 719_468 / 146_097 == 4;
    assert (135080 - 135080 / 1_460 + 135080 / 36_524 - 135080 / 146_096) / 365 == 369;
    assert (5 * 306 + 2) / 153 == 10;
  }

  /** The last millisecond before 2800-01-01T00:00:00Z is still in 2799. */
  lemma YearOfJustBefore2800()
    ensures YearOf(StartOf2800 - 1) == 2799
  {
    assert (StartOf2800 - 1) / MillisPerDay == 303_150;
    assert 303150 + 719_468 == 1022618 && 1022618 / 146_097 == 6;
    assert (146036 - 146036 / 1_460 + 146036 / 36_524 - 146036 / 146_096) / 365 == 399;
    assert (5 * 305 + 2) / 153 == 9;
  }

  /** 2800-01-01T00:00:00Z is in 2800. */
  lemma YearOfStartOf2800()
    ensures YearOf(StartOf2800) == 2800
  {
    assert StartOf2800 / MillisPerDay == 303_151;
    assert 303151 + 719_468 == 1022619 && 1022619 / 146_097 == 6;
    assert (146037 - 146037 / 1_460 + 146037 / 36_524 - 146037 / 146_096) / 365 == 399;
    assert (5 * 306 + 2) / 153 == 10;
  }

  /** The last millisecond before 3020-01-01T00:00:00Z is still in 3019. */
  lemma YearOfJustBefore3020()
    ensures YearOf(StartOf3020 - 1) == 3019
  {
    assert (StartOf3020 - 1) / MillisPerDay == 383_503;
    assert 383503 + 719_468 == 1102971 && 1102971 / 146_097 == 7;
    assert (80292 - 80292 / 1_460 + 80292 / 36_524 - 80292 / 146_096) / 365 == 219;
    assert (5 * 305 + 2) / 153 == 9;
  }

  /** 3020-01-01T00:00:00Z is in 3020. */
  lemma YearOfStartOf3020()
    ensures YearOf(StartOf3020) == 3020
  {
    assert StartOf3020 / MillisPerDay == 383_504;
    assert 383504 + 719_468 == 1102972 && 1102972 / 146_097 == 7;
    assert (80293 - 80293 / 1_460 + 80293 / 36_524 - 80293 / 146_096) / 365 == 219;
    assert (5 * 306 + 2) / 153 == 10;
  }

  /**
   * The instants whose year lies in 2800..3019 are exactly those from
   * 2800-01-01T00:00:00Z up to, not including, 3020-01-01T00:00:00Z.
   */
  lemma YearWithin2800To3019(t: int)
    ensures 2800 <= YearOf(t) <= 3019 <==> StartOf2800 <= t < StartOf3020
  {
    if t < StartOf2800 {
      YearOfMonotonic(t, StartOf2800 - 1);
      YearOfJustBefore2800();
    } else if t < StartOf3020 {
      YearOfMonotonic(StartOf2800, t);
      YearOfStartOf2800();
      YearOfMonotonic(t, StartOf3020 - 1);
      YearOfJustBefore3020();
    } else {
      YearOfMonotonic(StartOf3020, t);
      YearOfStartOf3020();
    }
  }
}
