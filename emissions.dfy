/** The per-race emissions calculator: fixed emission factors and
    operational estimates, and the five-category breakdown of one race.
    All quantities are kg of CO2, computed over exact reals. */
module Emissions {
  import opened Calendar
  import opened RealFacts

  // Emission factors (kg CO2 per unit).
  const AirFreightPerKg: real := 2.1        // per kg of freight per 1000 km
  const SeaFreightPerKg: real := 0.015      // per kg of freight per 1000 km
  const RoadFreightPerKg: real := 0.1       // per kg of freight per 1000 km, fixed in the calculator
  const FuelPerLiter: real := 2.31
  const PassengerFlightPerKm: real := 0.255
  const CircuitOperationsPerRace: real := 500000.0 // per race weekend
  const HotelNight: real := 30.0            // per person per night

  // Operational estimates.
  const Teams: int := 10
  const PersonnelPerTeam: int := 80
  const FreightWeightPerTeam: int := 15000  // kg
  const FuelConsumptionPerRace: int := 100  // litres per car per race, as documented; the calculator counts it once per session
  const CarsPerRace: int := 20
  const SessionsPerWeekend: int := 3        // practice, qualifying, race
  const HotelNights: int := 3
  const SupportSeriesFactor: real := 1.3    // support series running alongside

  /** The breakdown of one race, plus its support-scaled total. */
  datatype Breakdown = Breakdown(
    freight: real,
    personnelTravel: real,
    fuel: real,
    circuitOperations: real,
    accommodation: real,
    total: real)

  /** The five categories added up, before the support-series factor. */
  function CategorySum(b: Breakdown): real
  {
    b.freight + b.personnelTravel + b.fuel + b.circuitOperations + b.accommodation
  }

  /** A breakdown as the calculator produces it for a non-negative distance:
      no category is negative and the total is the scaled category sum. */
  ghost predicate WellFormed(b: Breakdown)
  {
    b.freight >= 0.0 && b.personnelTravel >= 0.0 && b.fuel >= 0.0 &&
    b.circuitOperations >= 0.0 && b.accommodation >= 0.0 &&
    b.total == SupportSeriesFactor * CategorySum(b)
  }

  /** The freight factor chosen by the freight method: air, sea, and
      everything else treated as road. Air is the dearest and the only
      method that gets the air factor. */
  function FreightFactor(freightMethod: string): (f: real)
    ensures 0.0 < f <= AirFreightPerKg
    ensures f == AirFreightPerKg <==> freightMethod == "air"
  {
    if freightMethod == "air" then AirFreightPerKg
    else if freightMethod == "sea" then SeaFreightPerKg
    else RoadFreightPerKg
  }

  /** The factors of the three methods the calendar uses. */
  lemma CalendarFreightFactors()
    ensures FreightFactor("air") == 2.1
    ensures FreightFactor("sea") == 0.015
    ensures FreightFactor("road") == 0.1
  {
  }

  /** The emissions of one race. Freight is 150 t moved the race's distance,
      personnel travel is 800 people flown that distance, and fuel, circuit
      operations and accommodation are the same every weekend. */
  function RaceEmissions(race: Race): (b: Breakdown)
    ensures b.freight == 150.0 * race.distanceFromPrevious as real * FreightFactor(race.freightMethod)
    ensures b.personnelTravel == 204.0 * race.distanceFromPrevious as real
    ensures b.fuel == 13860.0
    ensures b.circuitOperations == 500000.0
    ensures b.accommodation == 72000.0
    ensures b.total == SupportSeriesFactor * CategorySum(b)
  {
    var distance := race.distanceFromPrevious as real;
    var totalFreight := (Teams * FreightWeightPerTeam) as real;
    var freightEmissions := totalFreight * distance * FreightFactor(race.freightMethod) / 1000.0;
    var totalPersonnel := (Teams * PersonnelPerTeam) as real;
    var personnelTravel := totalPersonnel * distance * PassengerFlightPerKm;
    var totalFuel := (FuelConsumptionPerRace * CarsPerRace * SessionsPerWeekend) as real;
    var fuelEmissions := totalFuel * FuelPerLiter;
    var circuitEmissions := CircuitOperationsPerRace;
    var accommodation := totalPersonnel * HotelNights as real * HotelNight;
    var totalEmissions :=
      (freightEmissions + personnelTravel + fuelEmissions + circuitEmissions + accommodation)
      * SupportSeriesFactor;
    Breakdown(freightEmissions, personnelTravel, fuelEmissions, circuitEmissions,
              accommodation, totalEmissions)
  }

  /** Freight per method: air 315, sea 2.25 and any other method 15 kg CO2
      per km of distance. */
  lemma FreightBySelection(race: Race)
    ensures race.freightMethod == "air" ==>
      RaceEmissions(race).freight == 315.0 * race.distanceFromPrevious as real
    ensures race.freightMethod == "sea" ==>
      RaceEmissions(race).freight == 2.25 * race.distanceFromPrevious as real
    ensures race.freightMethod != "air" && race.freightMethod != "sea" ==>
      RaceEmissions(race).freight == 15.0 * race.distanceFromPrevious as real
  {
  }

  /** Personnel travel depends on the distance only, never on the freight
      method or on the names of the race. */
  lemma PersonnelTravelIgnoresFreightMethod(r1: Race, r2: Race)
    requires r1.distanceFromPrevious == r2.distanceFromPrevious
    ensures RaceEmissions(r1).personnelTravel == RaceEmissions(r2).personnelTravel
  {
  }

  /** Fuel, circuit operations and accommodation are the same for any two
      races, whatever their distances and methods. */
  lemma FixedCategoriesAgree(r1: Race, r2: Race)
    ensures RaceEmissions(r1).fuel == RaceEmissions(r2).fuel
    ensures RaceEmissions(r1).circuitOperations == RaceEmissions(r2).circuitOperations
    ensures RaceEmissions(r1).accommodation == RaceEmissions(r2).accommodation
  {
  }

  /** For a non-negative distance every category is non-negative and the
      total is at least the unscaled category sum. */
  lemma RaceEmissionsWellFormed(race: Race)
    requires race.distanceFromPrevious >= 0
    ensures WellFormed(RaceEmissions(race))
    ensures RaceEmissions(race).total >= CategorySum(RaceEmissions(race))
  {
  }

  /** With the freight method fixed, a longer leg never lowers freight,
      personnel travel or the total. */
  lemma RaceEmissionsMonotone(r1: Race, r2: Race)
    requires r1.freightMethod == r2.freightMethod
    requires r1.distanceFromPrevious <= r2.distanceFromPrevious
    ensures RaceEmissions(r1).freight <= RaceEmissions(r2).freight
    ensures RaceEmissions(r1).personnelTravel <= RaceEmissions(r2).personnelTravel
    ensures RaceEmissions(r1).total <= RaceEmissions(r2).total
  {
  }

  /** A race reached over zero distance has no freight and no travel, so its
      total is the scaled fixed part, 1.3 * 585860. */
  lemma ZeroDistanceRace(race: Race)
    requires race.distanceFromPrevious == 0
    ensures RaceEmissions(race).freight == 0.0
    ensures RaceEmissions(race).personnelTravel == 0.0
    ensures RaceEmissions(race).total == 761618.0
  {
  }

  /** The opening race of the shipped calendar is such a race. */
  lemma OpeningRaceHasNoTravel()
    ensures RaceEmissions(RaceCalendar[0]).freight == 0.0
    ensures RaceEmissions(RaceCalendar[0]).personnelTravel == 0.0
  {
    ZeroDistanceRace(RaceCalendar[0]);
  }

  /** A race reached by air freight over a leg at least as long as another
      race's weighs at least as much as that race, whatever its method. */
  lemma AirLegIsHeaviest(race: Race, airRace: Race)
    requires 0 <= race.distanceFromPrevious <= airRace.distanceFromPrevious
    requires airRace.freightMethod == "air"
    ensures RaceEmissions(race).freight <= RaceEmissions(airRace).freight
    ensures RaceEmissions(race).total <= RaceEmissions(airRace).total
  {
    var d1, d2 := race.distanceFromPrevious as real, airRace.distanceFromPrevious as real;
    var f := FreightFactor(race.freightMethod);
    assert AirFreightPerKg * d2 - f * d1 == AirFreightPerKg * (d2 - d1) + (AirFreightPerKg - f) * d1;
    NonNegativeProduct(AirFreightPerKg - f, d1);
  }

  /** On the shipped calendar the most carbon-intensive race is the one
      reached by air freight over the longest leg (Miami). */
  lemma MostIntensiveRace2024()
    ensures |RaceCalendar| == 24
    ensures RaceCalendar[5].freightMethod == "air"
    ensures forall i :: 0 <= i < |RaceCalendar| ==>
      RaceEmissions(RaceCalendar[i]).total <= RaceEmissions(RaceCalendar[5]).total
  {
    RaceCalendarLongestLeg();
    RaceCalendarShape();
    RaceCalendarFreightMethods0();
    forall i | 0 <= i < |RaceCalendar|
      ensures RaceEmissions(RaceCalendar[i]).total <= RaceEmissions(RaceCalendar[5]).total
    {
      AirLegIsHeaviest(RaceCalendar[i], RaceCalendar[5]);
    }
  }
}
