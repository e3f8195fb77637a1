/** The four what-if sustainability scenarios: fixed fractional reductions
    of season column sums, each reported as the amount saved, the new
    season total and the saving as a percentage of the base total. */
module Scenarios {
  import opened Calendar
  import opened Emissions
  import opened Season
  import opened RealFacts

  // The fractions each scenario removes from its columns.
  const SafShare: real := 0.5       // sustainable aviation fuel, on freight
  const TravelShare: real := 0.2    // regional calendar, on freight and personnel travel
  const CircuitShare: real := 0.8   // renewable energy, on circuit operations

  /** One scenario's outcome. */
  datatype Scenario = Scenario(reduction: real, newTotal: real, percentageReduction: real)

  /** The four scenarios, in the order they are reported. */
  datatype ScenarioSet = ScenarioSet(
    sustainableAviationFuel: Scenario,
    calendarOptimization: Scenario,
    renewableEnergy: Scenario,
    combinedApproach: Scenario)

  datatype ScenarioKind =
    | SustainableAviationFuel | CalendarOptimization | RenewableEnergy | CombinedApproach

  function Pick(s: ScenarioSet, k: ScenarioKind): Scenario
  {
    match k
    case SustainableAviationFuel => s.sustainableAviationFuel
    case CalendarOptimization => s.calendarOptimization
    case RenewableEnergy => s.renewableEnergy
    case CombinedApproach => s.combinedApproach
  }

  /** A scenario is consistent with a base total when its new total is what
      is left after the reduction and its percentage is the reduction's
      share of the base, times 100. */
  ghost predicate ConsistentWith(sc: Scenario, baseTotal: real)
  {
    sc.newTotal + sc.reduction == baseTotal &&
    sc.percentageReduction * baseTotal == 100.0 * sc.reduction
  }

  /** The outcome of removing `reduction` from `baseTotal`. The base total
      is divided by, so it may not be zero. */
  function ScenarioOf(baseTotal: real, reduction: real): (sc: Scenario)
    requires baseTotal != 0.0
    ensures sc.reduction == reduction
    ensures ConsistentWith(sc, baseTotal)
  {
    Scenario(reduction, baseTotal - reduction, Percentage(reduction, baseTotal))
  }

  /** The four scenarios over a season table whose total is not zero. */
  function SimulateScenarios(rows: seq<SeasonRow>): (s: ScenarioSet)
    requires ColumnSum(rows, Total) != 0.0
    ensures s.sustainableAviationFuel.reduction == SafShare * ColumnSum(rows, Freight)
    ensures s.calendarOptimization.reduction ==
      TravelShare * (ColumnSum(rows, Freight) + ColumnSum(rows, PersonnelTravel))
    ensures s.renewableEnergy.reduction == CircuitShare * ColumnSum(rows, CircuitOperations)
    ensures s.combinedApproach.reduction ==
      s.sustainableAviationFuel.reduction + s.calendarOptimization.reduction +
      s.renewableEnergy.reduction
    ensures forall k :: ConsistentWith(Pick(s, k), ColumnSum(rows, Total))
  {
    var baseTotal := ColumnSum(rows, Total);
    var safReduction := ColumnSum(rows, Freight) * SafShare;
    var travelReduction := (ColumnSum(rows, Freight) + ColumnSum(rows, PersonnelTravel)) * TravelShare;
    var circuitReduction := ColumnSum(rows, CircuitOperations) * CircuitShare;
    var combinedReduction := safReduction + travelReduction + circuitReduction;
    ScenarioSet(
      ScenarioOf(baseTotal, safReduction),
      ScenarioOf(baseTotal, travelReduction),
      ScenarioOf(baseTotal, circuitReduction),
      ScenarioOf(baseTotal, combinedReduction))
  }

  /** The combined scenario's percentage is the sum of the three single
      scenarios' percentages. */
  lemma CombinedPercentageIsSum(rows: seq<SeasonRow>)
    requires ColumnSum(rows, Total) != 0.0
    ensures var s := SimulateScenarios(rows);
      s.combinedApproach.percentageReduction ==
        s.sustainableAviationFuel.percentageReduction +
        s.calendarOptimization.percentageReduction +
        s.renewableEnergy.percentageReduction
  {
    var s := SimulateScenarios(rows);
    var b := ColumnSum(rows, Total);
    var p1 := s.sustainableAviationFuel.percentageReduction;
    var p2 := s.calendarOptimization.percentageReduction;
    var p3 := s.renewableEnergy.percentageReduction;
    var pc := s.combinedApproach.percentageReduction;
    assert ConsistentWith(Pick(s, SustainableAviationFuel), b);
    assert ConsistentWith(Pick(s, CalendarOptimization), b);
    assert ConsistentWith(Pick(s, RenewableEnergy), b);
    assert ConsistentWith(Pick(s, CombinedApproach), b);
    assert (pc - (p1 + p2 + p3)) * b == 0.0;
  }

  /** For a season of well-formed rows with a non-zero total: no scenario
      saves a negative amount, the combined one saves at least as much as
      each single one and at most 8/13 of the base (0.8 of the scaled
      category sum), so every new total stays positive and every
      percentage lies between 0 and 800/13. */
  lemma ScenarioBounds(rows: seq<SeasonRow>)
    requires AllWellFormed(rows)
    requires ColumnSum(rows, Total) != 0.0
    ensures var s := SimulateScenarios(rows);
      forall k :: 0.0 <= Pick(s, k).reduction <= s.combinedApproach.reduction
    ensures var s := SimulateScenarios(rows);
      13.0 * s.combinedApproach.reduction <= 8.0 * ColumnSum(rows, Total)
    ensures var s := SimulateScenarios(rows);
      forall k :: Pick(s, k).newTotal > 0.0
    ensures var s := SimulateScenarios(rows);
      forall k :: 0.0 <= Pick(s, k).percentageReduction && 13.0 * Pick(s, k).percentageReduction <= 800.0
  {
    var s := SimulateScenarios(rows);
    var b := ColumnSum(rows, Total);
    WellFormedSeasonSums(rows);
    assert b > 0.0;
    forall k
      ensures 0.0 <= Pick(s, k).reduction <= s.combinedApproach.reduction
      ensures 13.0 * Pick(s, k).reduction <= 8.0 * b
      ensures Pick(s, k).newTotal > 0.0
      ensures 0.0 <= Pick(s, k).percentageReduction && 13.0 * Pick(s, k).percentageReduction <= 800.0
    {
      var sc := Pick(s, k);
      assert ConsistentWith(sc, b);
      assert 0.0 <= sc.reduction && 13.0 * sc.reduction <= 8.0 * b;
      PercentageBounds(sc, b);
    }
  }

  /** A consistent scenario whose reduction lies between 0 and 8/13 of a
      positive base has a percentage between 0 and 800/13. */
  lemma PercentageBounds(sc: Scenario, baseTotal: real)
    requires baseTotal > 0.0
    requires ConsistentWith(sc, baseTotal)
    requires 0.0 <= sc.reduction && 13.0 * sc.reduction <= 8.0 * baseTotal
    ensures 0.0 <= sc.percentageReduction && 13.0 * sc.percentageReduction <= 800.0
  {
    var p := sc.percentageReduction;
    PositiveTimesPositive(-p, baseTotal);
    assert (13.0 * p - 800.0) * baseTotal == 13.0 * (p * baseTotal) - 800.0 * baseTotal;
    PositiveTimesPositive(13.0 * p - 800.0, baseTotal);
  }

  /** The single-scenario savings of any season with the column sums of
      the shipped calendar. */
  lemma SingleScenarioFigures(rows: seq<SeasonRow>)
    requires ColumnSum(rows, Freight) == 27886875.0
    requires ColumnSum(rows, PersonnelTravel) == 23490600.0
    requires ColumnSum(rows, CircuitOperations) == 12000000.0
    requires ColumnSum(rows, Total) == 85069549.5
    ensures SimulateScenarios(rows).sustainableAviationFuel.reduction == 13943437.5
    ensures SimulateScenarios(rows).calendarOptimization.reduction == 10275495.0
    ensures SimulateScenarios(rows).renewableEnergy.reduction == 9600000.0
  {
  }

  /** The combined saving of any season with the column sums of the
      shipped calendar. */
  lemma CombinedScenarioFigure(rows: seq<SeasonRow>)
    requires ColumnSum(rows, Freight) == 27886875.0
    requires ColumnSum(rows, PersonnelTravel) == 23490600.0
    requires ColumnSum(rows, CircuitOperations) == 12000000.0
    requires ColumnSum(rows, Total) == 85069549.5
    ensures SimulateScenarios(rows).combinedApproach.reduction == 33818932.5
  {
  }

  /** The scenarios of the shipped 2024 calendar, in kg of CO2. */
  lemma Scenarios2024()
    ensures ColumnSum(SeasonTable(RaceCalendar), Total) == 85069549.5
    ensures SimulateScenarios(SeasonTable(RaceCalendar)).sustainableAviationFuel.reduction == 13943437.5
    ensures SimulateScenarios(SeasonTable(RaceCalendar)).calendarOptimization.reduction == 10275495.0
    ensures SimulateScenarios(SeasonTable(RaceCalendar)).renewableEnergy.reduction == 9600000.0
    ensures SimulateScenarios(SeasonTable(RaceCalendar)).combinedApproach.reduction == 33818932.5
  {
    Season2024Figures();
    SingleScenarioFigures(SeasonTable(RaceCalendar));
    CombinedScenarioFigure(SeasonTable(RaceCalendar));
  }

  /** The single scenario (not the combined one) with the largest saving;
      on a tie the earlier one in report order. */
  function BiggestSingleScenario(s: ScenarioSet): (k: ScenarioKind)
    ensures k != CombinedApproach
    ensures forall j :: j != CombinedApproach ==> Pick(s, j).reduction <= Pick(s, k).reduction
  {
    var saf := s.sustainableAviationFuel.reduction;
    var cal := s.calendarOptimization.reduction;
    var ren := s.renewableEnergy.reduction;
    if saf >= cal && saf >= ren then SustainableAviationFuel
    else if cal >= ren then CalendarOptimization
    else RenewableEnergy
  }

  /** The closing insight printed after the report names calendar
      optimisation as the biggest single impact; on the shipped calendar
      sustainable aviation fuel saves more than it does. */
  lemma CalendarOptimizationIsNotBiggest2024()
    ensures ColumnSum(SeasonTable(RaceCalendar), Total) == 85069549.5
    ensures var s := SimulateScenarios(SeasonTable(RaceCalendar));
      s.calendarOptimization.reduction < s.sustainableAviationFuel.reduction
  {
    Scenarios2024();
  }

  /** On the shipped calendar the biggest single impact is sustainable
      aviation fuel. */
  lemma BiggestSingleScenario2024()
    ensures ColumnSum(SeasonTable(RaceCalendar), Total) == 85069549.5
    ensures BiggestSingleScenario(SimulateScenarios(SeasonTable(RaceCalendar))) == SustainableAviationFuel
  {
    Scenarios2024();
  }
}
