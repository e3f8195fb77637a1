/** Season aggregation: one result record per calendar row, in calendar
    order, and the column sums that the report and the scenarios use. */
module Season {
  import opened Calendar
  import opened Emissions

  /** A race's breakdown tagged with the race name and its location. */
  datatype SeasonRow = SeasonRow(emissions: Breakdown, race: string, location: string)

  /** The columns of the season table that get summed. */
  datatype Category =
    | Freight | PersonnelTravel | Fuel | CircuitOperations | Accommodation | Total

  /** The value of one column in a breakdown. */
  function Amount(b: Breakdown, c: Category): real
  {
    match c
    case Freight => b.freight
    case PersonnelTravel => b.personnelTravel
    case Fuel => b.fuel
    case CircuitOperations => b.circuitOperations
    case Accommodation => b.accommodation
    case Total => b.total
  }

  /** `value` as a percentage of `total`; the total is divided by, so it
      may not be zero. */
  function Percentage(value: real, total: real): (p: real)
    requires total != 0.0
    ensures p * total == 100.0 * value
  {
    (value / total) * 100.0
  }

  /** The record the season loop builds for one calendar row. */
  function RowOf(race: Race): SeasonRow
  {
    SeasonRow(RaceEmissions(race), race.race, race.location)
  }

  /** The season table of a calendar: row i is the breakdown of race i,
      tagged with that race's name and location. */
  function SeasonTable(calendar: seq<Race>): (rows: seq<SeasonRow>)
    ensures |rows| == |calendar|
    ensures forall i :: 0 <= i < |calendar| ==>
      rows[i].race == calendar[i].race &&
      rows[i].location == calendar[i].location &&
      rows[i].emissions == RaceEmissions(calendar[i])
  {
    if calendar == [] then []
    else SeasonTable(calendar[..|calendar| - 1]) + [RowOf(calendar[|calendar| - 1])]
  }

  /** Runs the calculator over the calendar, appending one tagged record
      per row. */
  method CalculateSeasonEmissions(calendar: seq<Race>) returns (results: seq<SeasonRow>)
    ensures results == SeasonTable(calendar)
    ensures |results| == |calendar|
    ensures forall i :: 0 <= i < |calendar| ==>
      results[i].race == calendar[i].race &&
      results[i].location == calendar[i].location &&
      results[i].emissions == RaceEmissions(calendar[i])
  {
    results := [];
    var i := 0;
    while i < |calendar|
      invariant 0 <= i <= |calendar|
      invariant results == SeasonTable(calendar[..i])
    {
      var race := calendar[i];
      var emissions := RaceEmissions(race);
      results := results + [SeasonRow(emissions, race.race, race.location)];
      assert calendar[..i + 1][..i] == calendar[..i];
      i := i + 1;
    }
    assert calendar[..i] == calendar;
  }

  /** The sum of one column over a season table. */
  function ColumnSum(rows: seq<SeasonRow>, c: Category): real
  {
    if rows == [] then 0.0
    else ColumnSum(rows[..|rows| - 1], c) + Amount(rows[|rows| - 1].emissions, c)
  }

  /** Every row is as the calculator produces it for a non-negative distance. */
  ghost predicate AllWellFormed(rows: seq<SeasonRow>)
  {
    forall i :: 0 <= i < |rows| ==> WellFormed(rows[i].emissions)
  }

  /** Column sums are additive: the sum over two stretches of a season is
      the sum of their sums. */
  lemma {:induction false} ColumnSumAppend(a: seq<SeasonRow>, b: seq<SeasonRow>, c: Category)
    ensures ColumnSum(a + b, c) == ColumnSum(a, c) + ColumnSum(b, c)
    decreases |b|
  {
    if b == [] {
      assert a + b == a;
    } else {
      var last := b[|b| - 1];
      assert (a + b)[..|a + b| - 1] == a + b[..|b| - 1];
      ColumnSumAppend(a, b[..|b| - 1], c);
      assert (a + b)[|a + b| - 1] == last;
    }
  }

  /** The season table of two calendars run one after the other is the one
      table followed by the other. */
  lemma {:induction false} SeasonAppend(c1: seq<Race>, c2: seq<Race>)
    ensures SeasonTable(c1 + c2) == SeasonTable(c1) + SeasonTable(c2)
  {
    var s := SeasonTable(c1 + c2);
    var t := SeasonTable(c1) + SeasonTable(c2);
    assert |s| == |t|;
    forall i | 0 <= i < |s|
      ensures s[i] == t[i]
    {
      if i < |c1| {
        assert (c1 + c2)[i] == c1[i];
      } else {
        assert (c1 + c2)[i] == c2[i - |c1|];
      }
    }
  }

  /** The season total is the sum of the per-race totals: splitting the
      calendar anywhere splits every column sum accordingly. */
  lemma SeasonSumSplits(c1: seq<Race>, c2: seq<Race>, c: Category)
    ensures ColumnSum(SeasonTable(c1 + c2), c) == ColumnSum(SeasonTable(c1), c) + ColumnSum(SeasonTable(c2), c)
  {
    SeasonAppend(c1, c2);
    ColumnSumAppend(SeasonTable(c1), SeasonTable(c2), c);
  }

  /** When every row's total is the scaled category sum, the season total
      is the support-series factor times the five category sums. */
  lemma {:induction false} SeasonTotalIsScaledCategorySums(rows: seq<SeasonRow>)
    requires forall i :: 0 <= i < |rows| ==>
      rows[i].emissions.total == SupportSeriesFactor * CategorySum(rows[i].emissions)
    ensures ColumnSum(rows, Total) == SupportSeriesFactor * (
      ColumnSum(rows, Freight) + ColumnSum(rows, PersonnelTravel) + ColumnSum(rows, Fuel) +
      ColumnSum(rows, CircuitOperations) + ColumnSum(rows, Accommodation))
  {
    if rows != [] {
      SeasonTotalIsScaledCategorySums(rows[..|rows| - 1]);
    }
  }

  /** A column that is never negative has a non-negative sum. */
  lemma {:induction false} ColumnSumNonNegative(rows: seq<SeasonRow>, c: Category)
    requires forall i :: 0 <= i < |rows| ==> Amount(rows[i].emissions, c) >= 0.0
    ensures ColumnSum(rows, c) >= 0.0
  {
    if rows != [] {
      ColumnSumNonNegative(rows[..|rows| - 1], c);
    }
  }

  /** A calendar without negative distances yields a season table whose
      rows are all well formed. */
  lemma SeasonWellFormed(calendar: seq<Race>)
    requires NonNegativeDistances(calendar)
    ensures AllWellFormed(SeasonTable(calendar))
  {
    forall i | 0 <= i < |calendar|
      ensures WellFormed(SeasonTable(calendar)[i].emissions)
    {
      RaceEmissionsWellFormed(calendar[i]);
    }
  }

  /** With well-formed rows every column sum is non-negative and the season
      total is the scaled sum of the category sums. */
  lemma WellFormedSeasonSums(rows: seq<SeasonRow>)
    requires AllWellFormed(rows)
    ensures ColumnSum(rows, Freight) >= 0.0 && ColumnSum(rows, PersonnelTravel) >= 0.0
    ensures ColumnSum(rows, Fuel) >= 0.0 && ColumnSum(rows, CircuitOperations) >= 0.0
    ensures ColumnSum(rows, Accommodation) >= 0.0
    ensures ColumnSum(rows, Total) == SupportSeriesFactor * (
      ColumnSum(rows, Freight) + ColumnSum(rows, PersonnelTravel) + ColumnSum(rows, Fuel) +
      ColumnSum(rows, CircuitOperations) + ColumnSum(rows, Accommodation))
  {
    ColumnSumNonNegative(rows, Freight);
    ColumnSumNonNegative(rows, PersonnelTravel);
    ColumnSumNonNegative(rows, Fuel);
    ColumnSumNonNegative(rows, CircuitOperations);
    ColumnSumNonNegative(rows, Accommodation);
    SeasonTotalIsScaledCategorySums(rows);
  }

  /** Extending a calendar prefix by one race adds that race's breakdown to
      the column sum. */
  lemma PrefixStep(calendar: seq<Race>, k: int, c: Category)
    requires 0 < k <= |calendar|
    ensures ColumnSum(SeasonTable(calendar[..k]), c)
      == ColumnSum(SeasonTable(calendar[..k - 1]), c) + Amount(RaceEmissions(calendar[k - 1]), c)
  {
    assert calendar[..k][..k - 1] == calendar[..k - 1];
    var t := SeasonTable(calendar[..k]);
    assert t[..|t| - 1] == SeasonTable(calendar[..k - 1]);
  }

  /** The distance-independent columns add up to their per-race value times
      the number of races. */
  lemma {:induction false} FixedColumnSums(calendar: seq<Race>)
    ensures ColumnSum(SeasonTable(calendar), Fuel) == 13860.0 * |calendar| as real
    ensures ColumnSum(SeasonTable(calendar), CircuitOperations) == 500000.0 * |calendar| as real
    ensures ColumnSum(SeasonTable(calendar), Accommodation) == 72000.0 * |calendar| as real
  {
    if calendar != [] {
      var front := calendar[..|calendar| - 1];
      FixedColumnSums(front);
      var t := SeasonTable(calendar);
      assert t[..|t| - 1] == SeasonTable(front);
    }
  }

  /** The sum of one column of the calculator's breakdowns of the races
      from index `from` to the end of the calendar. */
  function RaceSum(calendar: seq<Race>, from: nat, c: Category): real
    decreases |calendar| - from
  {
    if from >= |calendar| then 0.0
    else Amount(RaceEmissions(calendar[from]), c) + RaceSum(calendar, from + 1, c)
  }

  /** The sum over the first n rows of the season table and the race sum
      from n on together make the race sum of the whole calendar. */
  lemma {:induction false} PrefixPlusRest(calendar: seq<Race>, n: nat, c: Category)
    requires n <= |calendar|
    ensures ColumnSum(SeasonTable(calendar[..n]), c) + RaceSum(calendar, n, c) == RaceSum(calendar, 0, c)
  {
    if n == 0 {
      assert calendar[..0] == [];
    } else {
      PrefixPlusRest(calendar, n - 1, c);
      PrefixStep(calendar, n, c);
    }
  }

  /** The season total is the sum of the per-race totals (and likewise for
      every other column): summing the season table gives the same as
      summing the calculator's result race by race. */
  lemma SeasonSumIsRaceSum(calendar: seq<Race>, c: Category)
    ensures ColumnSum(SeasonTable(calendar), c) == RaceSum(calendar, 0, c)
  {
    PrefixPlusRest(calendar, |calendar|, c);
    assert calendar[..|calendar|] == calendar;
  }

  /** Freight of the shipped calendar from index 18 to the end. */
  lemma Season2024FreightFrom18()
    ensures RaceSum(RaceCalendar, 18, Freight) == 12788250.0
  {
    CalendarFreightFactors();
    RaceCalendarDistances();
    RaceCalendarFreightMethods18();
    assert RaceSum(RaceCalendar, 24, Freight) == 0.0;
    assert RaceSum(RaceCalendar, 23, Freight) == 8250.0;
    assert RaceSum(RaceCalendar, 22, Freight) == 3788250.0;
    assert RaceSum(RaceCalendar, 21, Freight) == 6308250.0;
    assert RaceSum(RaceCalendar, 20, Freight) == 7410750.0;
    assert RaceSum(RaceCalendar, 19, Freight) == 7433250.0;
    assert RaceSum(RaceCalendar, 18, Freight) == 12788250.0;
  }

  /** Freight of the shipped calendar from index 12 to the end. */
  lemma Season2024FreightFrom12()
    ensures RaceSum(RaceCalendar, 12, Freight) == 16155750.0
  {
    CalendarFreightFactors();
    RaceCalendarDistances();
    RaceCalendarFreightMethods12();
    Season2024FreightFrom18();
    assert RaceSum(RaceCalendar, 18, Freight) == 12788250.0;
    assert RaceSum(RaceCalendar, 17, Freight) == 15150750.0;
    assert RaceSum(RaceCalendar, 16, Freight) == 16095750.0;
    assert RaceSum(RaceCalendar, 15, Freight) == 16110750.0;
    assert RaceSum(RaceCalendar, 14, Freight) == 16115250.0;
    assert RaceSum(RaceCalendar, 13, Freight) == 16133250.0;
    assert RaceSum(RaceCalendar, 12, Freight) == 16155750.0;
  }

  /** Freight of the shipped calendar from index 6 to the end. */
  lemma Season2024FreightFrom6()
    ensures RaceSum(RaceCalendar, 6, Freight) == 22462500.0
  {
    CalendarFreightFactors();
    RaceCalendarDistances();
    RaceCalendarFreightMethods6();
    Season2024FreightFrom12();
    assert RaceSum(RaceCalendar, 12, Freight) == 16155750.0;
    assert RaceSum(RaceCalendar, 11, Freight) == 16173750.0;
    assert RaceSum(RaceCalendar, 10, Freight) == 16188750.0;
    assert RaceSum(RaceCalendar, 9, Freight) == 17826750.0;
    assert RaceSum(RaceCalendar, 8, Freight) == 19779750.0;
    assert RaceSum(RaceCalendar, 7, Freight) == 19785000.0;
    assert RaceSum(RaceCalendar, 6, Freight) == 22462500.0;
  }

  /** Freight over the shipped calendar: 27,886,875 kg of CO2. */
  lemma Season2024Freight()
    ensures RaceSum(RaceCalendar, 0, Freight) == 27886875.0
  {
    CalendarFreightFactors();
    RaceCalendarDistances();
    RaceCalendarFreightMethods0();
    Season2024FreightFrom6();
    assert RaceSum(RaceCalendar, 6, Freight) == 22462500.0;
    assert RaceSum(RaceCalendar, 5, Freight) == 27817500.0;
    assert RaceSum(RaceCalendar, 4, Freight) == 27843000.0;
    assert RaceSum(RaceCalendar, 3, Freight) == 27861000.0;
    assert RaceSum(RaceCalendar, 2, Freight) == 27880125.0;
    assert RaceSum(RaceCalendar, 1, Freight) == 27886875.0;
    assert RaceSum(RaceCalendar, 0, Freight) == 27886875.0;
  }

  /** Personnel travel over the shipped calendar: 204 kg per km of the
      115,150 km travelled. */
  lemma Season2024PersonnelTravel()
    ensures RaceSum(RaceCalendar, 0, PersonnelTravel) == 23490600.0
  {
    RaceCalendarDistances();
    assert RaceSum(RaceCalendar, 24, PersonnelTravel) == 0.0;
    assert RaceSum(RaceCalendar, 23, PersonnelTravel) == 112200.0;
    assert RaceSum(RaceCalendar, 22, PersonnelTravel) == 2560200.0;
    assert RaceSum(RaceCalendar, 21, PersonnelTravel) == 4192200.0;
    assert RaceSum(RaceCalendar, 20, PersonnelTravel) == 4906200.0;
    assert RaceSum(RaceCalendar, 19, PersonnelTravel) == 5212200.0;
    assert RaceSum(RaceCalendar, 18, PersonnelTravel) == 8680200.0;
    assert RaceSum(RaceCalendar, 17, PersonnelTravel) == 10210200.0;
    assert RaceSum(RaceCalendar, 16, PersonnelTravel) == 10822200.0;
    assert RaceSum(RaceCalendar, 15, PersonnelTravel) == 11026200.0;
    assert RaceSum(RaceCalendar, 14, PersonnelTravel) == 11087400.0;
    assert RaceSum(RaceCalendar, 13, PersonnelTravel) == 11332200.0;
    assert RaceSum(RaceCalendar, 12, PersonnelTravel) == 11638200.0;
    assert RaceSum(RaceCalendar, 11, PersonnelTravel) == 11883000.0;
    assert RaceSum(RaceCalendar, 10, PersonnelTravel) == 12087000.0;
    assert RaceSum(RaceCalendar, 9, PersonnelTravel) == 13147800.0;
    assert RaceSum(RaceCalendar, 8, PersonnelTravel) == 14412600.0;
    assert RaceSum(RaceCalendar, 7, PersonnelTravel) == 14484000.0;
    assert RaceSum(RaceCalendar, 6, PersonnelTravel) == 16218000.0;
    assert RaceSum(RaceCalendar, 5, PersonnelTravel) == 19686000.0;
    assert RaceSum(RaceCalendar, 4, PersonnelTravel) == 20032800.0;
    assert RaceSum(RaceCalendar, 3, PersonnelTravel) == 21664800.0;
    assert RaceSum(RaceCalendar, 2, PersonnelTravel) == 23398800.0;
    assert RaceSum(RaceCalendar, 1, PersonnelTravel) == 23490600.0;
    assert RaceSum(RaceCalendar, 0, PersonnelTravel) == 23490600.0;
  }

  /** The figures of the shipped 2024 calendar: every column sum and the
      season total, in kg of CO2. */
  lemma Season2024Figures()
    ensures ColumnSum(SeasonTable(RaceCalendar), Freight) == 27886875.0
    ensures ColumnSum(SeasonTable(RaceCalendar), PersonnelTravel) == 23490600.0
    ensures ColumnSum(SeasonTable(RaceCalendar), Fuel) == 332640.0
    ensures ColumnSum(SeasonTable(RaceCalendar), CircuitOperations) == 12000000.0
    ensures ColumnSum(SeasonTable(RaceCalendar), Accommodation) == 1728000.0
    ensures ColumnSum(SeasonTable(RaceCalendar), Total) == 85069549.5
  {
    Season2024Freight();
    SeasonSumIsRaceSum(RaceCalendar, Freight);
    Season2024PersonnelTravel();
    SeasonSumIsRaceSum(RaceCalendar, PersonnelTravel);
    FixedColumnSums(RaceCalendar);
    RaceCalendarShape();
    SeasonWellFormed(RaceCalendar);
    WellFormedSeasonSums(SeasonTable(RaceCalendar));
  }
}
