/** The quantities the report derives from a season table: each category's
    share of the season total, the everyday comparisons, and the net-zero
    rule for the annual reduction still needed. */
module Report {
  import opened Calendar
  import opened Emissions
  import opened Season
  import opened RealFacts

  // Comparison baselines (kg of CO2).
  const AverageHomeAnnualEmissions: real := 16000.0       // one home for a year
  const PassengerCarPerKm: real := 0.192                  // one km by car
  const TransatlanticFlightPerPassenger: real := 1600.0   // one passenger, one crossing

  /** The year by which the championship aims to be net zero. */
  const NetZeroTargetYear: int := 2030

  /** The five category sums as percentages of the season total. */
  datatype CategoryShares = CategoryShares(
    freight: real,
    personnelTravel: real,
    fuel: real,
    circuitOperations: real,
    accommodation: real)

  /** The column sums of a season table, gathered in one breakdown. */
  function SeasonSums(rows: seq<SeasonRow>): (b: Breakdown)
  {
    Breakdown(
      ColumnSum(rows, Freight), ColumnSum(rows, PersonnelTravel), ColumnSum(rows, Fuel),
      ColumnSum(rows, CircuitOperations), ColumnSum(rows, Accommodation), ColumnSum(rows, Total))
  }

  /** The sums of a season of well-formed rows are themselves well formed. */
  lemma SeasonSumsWellFormed(rows: seq<SeasonRow>)
    requires AllWellFormed(rows)
    ensures WellFormed(SeasonSums(rows))
  {
    WellFormedSeasonSums(rows);
  }

  /** The season total spread evenly over the races; an empty table would
      be divided by zero. */
  function AveragePerRace(rows: seq<SeasonRow>): (a: real)
    requires |rows| != 0
    ensures a * |rows| as real == ColumnSum(rows, Total)
  {
    ColumnSum(rows, Total) / |rows| as real
  }

  /** The 2024 season averages 3,544,564.5625 kg per race. */
  lemma AveragePerRace2024()
    ensures |SeasonTable(RaceCalendar)| == 24
    ensures AveragePerRace(SeasonTable(RaceCalendar)) == 3544564.5625
  {
    Season2024Figures();
    RaceCalendarShape();
  }

  /** Each category's share of a breakdown's total. */
  function Shares(b: Breakdown): (s: CategoryShares)
    requires b.total != 0.0
    ensures s.freight * b.total == 100.0 * b.freight
    ensures s.personnelTravel * b.total == 100.0 * b.personnelTravel
    ensures s.fuel * b.total == 100.0 * b.fuel
    ensures s.circuitOperations * b.total == 100.0 * b.circuitOperations
    ensures s.accommodation * b.total == 100.0 * b.accommodation
  {
    CategoryShares(
      Percentage(b.freight, b.total),
      Percentage(b.personnelTravel, b.total),
      Percentage(b.fuel, b.total),
      Percentage(b.circuitOperations, b.total),
      Percentage(b.accommodation, b.total))
  }

  /** Each category's share of the season total. */
  function CategoryPercentages(rows: seq<SeasonRow>): (s: CategoryShares)
    requires ColumnSum(rows, Total) != 0.0
    ensures s.freight * ColumnSum(rows, Total) == 100.0 * ColumnSum(rows, Freight)
    ensures s.personnelTravel * ColumnSum(rows, Total) == 100.0 * ColumnSum(rows, PersonnelTravel)
    ensures s.fuel * ColumnSum(rows, Total) == 100.0 * ColumnSum(rows, Fuel)
    ensures s.circuitOperations * ColumnSum(rows, Total) == 100.0 * ColumnSum(rows, CircuitOperations)
    ensures s.accommodation * ColumnSum(rows, Total) == 100.0 * ColumnSum(rows, Accommodation)
  {
    Shares(SeasonSums(rows))
  }

  function SharesSum(s: CategoryShares): real
  {
    s.freight + s.personnelTravel + s.fuel + s.circuitOperations + s.accommodation
  }

  /** Because the total carries the support-series factor, the five shares
      of a well-formed breakdown never reach 100%: they add up to exactly
      100 / 1.3 = 1000/13 percent, and none is negative. */
  lemma SharesAddUp(b: Breakdown)
    requires WellFormed(b)
    requires b.total != 0.0
    ensures 13.0 * SharesSum(Shares(b)) == 1000.0
    ensures var s := Shares(b);
      s.freight >= 0.0 && s.personnelTravel >= 0.0 && s.fuel >= 0.0 &&
      s.circuitOperations >= 0.0 && s.accommodation >= 0.0
  {
    var s := Shares(b);
    var sum := SharesSum(s);
    var t := b.total;
    assert sum * t ==
      s.freight * t + s.personnelTravel * t + s.fuel * t + s.circuitOperations * t + s.accommodation * t;
    assert (13.0 * sum - 1000.0) * t == 13.0 * (sum * t) - 1000.0 * t;
    ZeroFactor(13.0 * sum - 1000.0, t);
    NonNegativeFactor(s.freight, t);
    NonNegativeFactor(s.personnelTravel, t);
    NonNegativeFactor(s.fuel, t);
    NonNegativeFactor(s.circuitOperations, t);
    NonNegativeFactor(s.accommodation, t);
  }

  /** The same for the category percentages of a season of well-formed rows. */
  lemma SeasonSharesAddUp(rows: seq<SeasonRow>)
    requires AllWellFormed(rows)
    requires ColumnSum(rows, Total) != 0.0
    ensures 13.0 * SharesSum(CategoryPercentages(rows)) == 1000.0
    ensures var s := CategoryPercentages(rows);
      s.freight >= 0.0 && s.personnelTravel >= 0.0 && s.fuel >= 0.0 &&
      s.circuitOperations >= 0.0 && s.accommodation >= 0.0
  {
    SeasonSumsWellFormed(rows);
    SharesAddUp(SeasonSums(rows));
  }

  /** Everyday equivalents of an amount of CO2. */
  datatype Comparisons = Comparisons(
    homesPoweredAnnually: real,
    carDrivingKm: real,
    transatlanticFlights: real)

  /** Each equivalent is the amount that, times its baseline, gives the
      emissions compared. */
  function CreateComparisons(totalEmissions: real): (c: Comparisons)
    ensures c.homesPoweredAnnually * AverageHomeAnnualEmissions == totalEmissions
    ensures c.carDrivingKm * PassengerCarPerKm == totalEmissions
    ensures c.transatlanticFlights * TransatlanticFlightPerPassenger == totalEmissions
  {
    Comparisons(
      totalEmissions / AverageHomeAnnualEmissions,
      totalEmissions / PassengerCarPerKm,
      totalEmissions / TransatlanticFlightPerPassenger)
  }

  /** More emissions never mean fewer equivalents, and a home-year weighs
      ten transatlantic crossings. */
  lemma ComparisonsMonotone(t1: real, t2: real)
    requires t1 <= t2
    ensures CreateComparisons(t1).homesPoweredAnnually <= CreateComparisons(t2).homesPoweredAnnually
    ensures CreateComparisons(t1).carDrivingKm <= CreateComparisons(t2).carDrivingKm
    ensures CreateComparisons(t1).transatlanticFlights <= CreateComparisons(t2).transatlanticFlights
    ensures CreateComparisons(t1).transatlanticFlights == 10.0 * CreateComparisons(t1).homesPoweredAnnually
  {
  }

  /** The equivalents of the shipped 2024 season. */
  lemma Comparisons2024()
    ensures var c := CreateComparisons(ColumnSum(SeasonTable(RaceCalendar), Total));
      c.homesPoweredAnnually == 5316.84684375 &&
      c.carDrivingKm == 443070570.3125 &&
      c.transatlanticFlights == 53168.4684375
  {
    Season2024Figures();
  }

  /** The reduction needed each year to reach zero by the target year: the
      emissions spread over the years remaining, or all of them at once
      when the target year has come or gone. The current year is a
      parameter here rather than read from the clock. */
  function RequiredAnnualReduction(currentEmissions: real, targetYear: int, currentYear: int): (r: real)
    ensures targetYear - currentYear > 0 ==>
      r * (targetYear - currentYear) as real == currentEmissions
    ensures targetYear - currentYear <= 0 ==> r == currentEmissions
  {
    var yearsRemaining := targetYear - currentYear;
    if yearsRemaining > 0 then currentEmissions / yearsRemaining as real else currentEmissions
  }

  /** For non-negative emissions the yearly reduction is never negative and
      never more than the emissions themselves. */
  lemma RequiredReductionBounds(currentEmissions: real, targetYear: int, currentYear: int)
    requires currentEmissions >= 0.0
    ensures 0.0 <= RequiredAnnualReduction(currentEmissions, targetYear, currentYear) <= currentEmissions
  {
    var n := targetYear - currentYear;
    var r := RequiredAnnualReduction(currentEmissions, targetYear, currentYear);
    if n > 0 {
      NonNegativeFactor(r, n as real);
      assert (r - currentEmissions) * n as real == currentEmissions * (1.0 - n as real);
      assert currentEmissions * (1.0 - n as real) <= 0.0;
      NonNegativeFactor(currentEmissions - r, n as real);
    }
  }

  /** The later it is, the larger the yearly reduction still needed. */
  lemma RequiredReductionGrowsAsTargetNears(
    currentEmissions: real, targetYear: int, earlier: int, later: int)
    requires currentEmissions >= 0.0
    requires earlier <= later
    ensures RequiredAnnualReduction(currentEmissions, targetYear, earlier)
         <= RequiredAnnualReduction(currentEmissions, targetYear, later)
  {
    var n1, n2 := targetYear - earlier, targetYear - later;
    var r1 := RequiredAnnualReduction(currentEmissions, targetYear, earlier);
    var r2 := RequiredAnnualReduction(currentEmissions, targetYear, later);
    RequiredReductionBounds(currentEmissions, targetYear, earlier);
    if n2 > 0 {
      assert n1 >= n2;
      assert r1 * n1 as real == r2 * n2 as real;
      assert (r2 - r1) * n2 as real == r1 * (n1 - n2) as real;
      NonNegativeFactor(r1 * (n1 - n2) as real, 1.0);
      NonNegativeFactor(r2 - r1, n2 as real);
    }
  }

  /** The required reduction as a percentage of the current emissions,
      which are divided by and so may not be zero: 100 / years remaining,
      or 100 once the target year has come. It does not depend on the
      emissions. */
  function RequiredReductionRate(currentEmissions: real, targetYear: int, currentYear: int): (rate: real)
    requires currentEmissions != 0.0
    ensures targetYear - currentYear > 0 ==>
      rate * (targetYear - currentYear) as real == 100.0
    ensures targetYear - currentYear <= 0 ==> rate == 100.0
  {
    var r := RequiredAnnualReduction(currentEmissions, targetYear, currentYear);
    Percentage(r, currentEmissions)
  }

  /** Measured from 2025, the 2024 season total must fall by a fifth of
      itself each year to reach zero by 2030; from 2030 on, all at once. */
  lemma NetZeroPath2024(laterYear: int)
    requires laterYear >= NetZeroTargetYear
    ensures ColumnSum(SeasonTable(RaceCalendar), Total) == 85069549.5
    ensures RequiredAnnualReduction(ColumnSum(SeasonTable(RaceCalendar), Total), NetZeroTargetYear, 2025)
      == 17013909.9
    ensures RequiredReductionRate(ColumnSum(SeasonTable(RaceCalendar), Total), NetZeroTargetYear, 2025)
      == 20.0
    ensures RequiredAnnualReduction(ColumnSum(SeasonTable(RaceCalendar), Total), NetZeroTargetYear, laterYear)
      == 85069549.5
  {
    Season2024Figures();
  }
}
