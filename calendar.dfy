/** The 2024 race calendar that the tracker builds once at start-up.
    Each row gives the event, its host city, the distance travelled from
    the previous event (in km) and how the freight gets there. */
module Calendar {

  /** One calendar row. The freight method is kept as the string the
      tracker stores, so that any method other than "air" and "sea" is
      possible and falls into the road branch of the calculator. */
  datatype Race = Race(
    race: string,
    location: string,
    distanceFromPrevious: int,
    freightMethod: string)

  /** The fixed 24-event calendar, in running order. */
  const RaceCalendar: seq<Race> := [
    Race("Bahrain GP", "Manama", 0, "sea"),
    Race("Saudi Arabian GP", "Jeddah", 450, "road"),
    Race("Australian GP", "Melbourne", 8500, "sea"),
    Race("Japanese GP", "Suzuka", 8000, "sea"),
    Race("Chinese GP", "Shanghai", 1700, "road"),
    Race("Miami GP", "Miami", 17000, "air"),
    Race("Emilia Romagna GP", "Imola", 8500, "air"),
    Race("Monaco GP", "Monaco", 350, "road"),
    Race("Canadian GP", "Montreal", 6200, "air"),
    Race("Spanish GP", "Barcelona", 5200, "air"),
    Race("Austrian GP", "Spielberg", 1000, "road"),
    Race("British GP", "Silverstone", 1200, "road"),
    Race("Hungarian GP", "Budapest", 1500, "road"),
    Race("Belgian GP", "Spa", 1200, "road"),
    Race("Dutch GP", "Zandvoort", 300, "road"),
    Race("Italian GP", "Monza", 1000, "road"),
    Race("Azerbaijan GP", "Baku", 3000, "air"),
    Race("Singapore GP", "Singapore", 7500, "air"),
    Race("United States GP", "Austin", 17000, "air"),
    Race("Mexican GP", "Mexico City", 1500, "road"),
    Race("Brazilian GP", "Sao Paulo", 3500, "air"),
    Race("Las Vegas GP", "Las Vegas", 8000, "air"),
    Race("Qatar GP", "Doha", 12000, "air"),
    Race("Abu Dhabi GP", "Abu Dhabi", 550, "road")
  ]

  /** Every distance in a calendar is non-negative. */
  ghost predicate NonNegativeDistances(calendar: seq<Race>)
  {
    forall i :: 0 <= i < |calendar| ==> calendar[i].distanceFromPrevious >= 0
  }

  /** The shipped calendar has 24 rows, opens with a zero-distance sea leg,
      and never travels a negative distance. */
  lemma RaceCalendarShape()
    ensures |RaceCalendar| == 24
    ensures RaceCalendar[0].distanceFromPrevious == 0
    ensures RaceCalendar[0].freightMethod == "sea"
    ensures NonNegativeDistances(RaceCalendar)
  {
  }

  /** No leg of the shipped calendar is longer than the 17,000 km to the
      Miami race. */
  lemma RaceCalendarLongestLeg()
    ensures |RaceCalendar| == 24
    ensures RaceCalendar[5].distanceFromPrevious == 17000
    ensures forall i :: 0 <= i < |RaceCalendar| ==> RaceCalendar[i].distanceFromPrevious <= 17000
  {
  }

  /** The distance of each row of the shipped calendar. */
  lemma RaceCalendarDistances()
    ensures RaceCalendar[0].distanceFromPrevious == 0
    ensures RaceCalendar[1].distanceFromPrevious == 450
    ensures RaceCalendar[2].distanceFromPrevious == 8500
    ensures RaceCalendar[3].distanceFromPrevious == 8000
    ensures RaceCalendar[4].distanceFromPrevious == 1700
    ensures RaceCalendar[5].distanceFromPrevious == 17000
    ensures RaceCalendar[6].distanceFromPrevious == 8500
    ensures RaceCalendar[7].distanceFromPrevious == 350
    ensures RaceCalendar[8].distanceFromPrevious == 6200
    ensures RaceCalendar[9].distanceFromPrevious == 5200
    ensures RaceCalendar[10].distanceFromPrevious == 1000
    ensures RaceCalendar[11].distanceFromPrevious == 1200
    ensures RaceCalendar[12].distanceFromPrevious == 1500
    ensures RaceCalendar[13].distanceFromPrevious == 1200
    ensures RaceCalendar[14].distanceFromPrevious == 300
    ensures RaceCalendar[15].distanceFromPrevious == 1000
    ensures RaceCalendar[16].distanceFromPrevious == 3000
    ensures RaceCalendar[17].distanceFromPrevious == 7500
    ensures RaceCalendar[18].distanceFromPrevious == 17000
    ensures RaceCalendar[19].distanceFromPrevious == 1500
    ensures RaceCalendar[20].distanceFromPrevious == 3500
    ensures RaceCalendar[21].distanceFromPrevious == 8000
    ensures RaceCalendar[22].distanceFromPrevious == 12000
    ensures RaceCalendar[23].distanceFromPrevious == 550
  {
  }

  /** The freight methods of rows 0 to 5 (kept in small groups: each
      fact compares two strings). */
  lemma RaceCalendarFreightMethods0()
    ensures RaceCalendar[0].freightMethod == "sea"
    ensures RaceCalendar[1].freightMethod == "road"
    ensures RaceCalendar[2].freightMethod == "sea"
    ensures RaceCalendar[3].freightMethod == "sea"
    ensures RaceCalendar[4].freightMethod == "road"
    ensures RaceCalendar[5].freightMethod == "air"
  {
  }

  /** The freight methods of rows 6 to 11 (kept in small groups: each
      fact compares two strings). */
  lemma RaceCalendarFreightMethods6()
    ensures RaceCalendar[6].freightMethod == "air"
    ensures RaceCalendar[7].freightMethod == "road"
    ensures RaceCalendar[8].freightMethod == "air"
    ensures RaceCalendar[9].freightMethod == "air"
    ensures RaceCalendar[10].freightMethod == "road"
    ensures RaceCalendar[11].freightMethod == "road"
  {
  }

  /** The freight methods of rows 12 to 17 (kept in small groups: each
      fact compares two strings). */
  lemma RaceCalendarFreightMethods12()
    ensures RaceCalendar[12].freightMethod == "road"
    ensures RaceCalendar[13].freightMethod == "road"
    ensures RaceCalendar[14].freightMethod == "road"
    ensures RaceCalendar[15].freightMethod == "road"
    ensures RaceCalendar[16].freightMethod == "air"
    ensures RaceCalendar[17].freightMethod == "air"
  {
  }

  /** The freight methods of rows 18 to 23 (kept in small groups: each
      fact compares two strings). */
  lemma RaceCalendarFreightMethods18()
    ensures RaceCalendar[18].freightMethod == "air"
    ensures RaceCalendar[19].freightMethod == "road"
    ensures RaceCalendar[20].freightMethod == "air"
    ensures RaceCalendar[21].freightMethod == "air"
    ensures RaceCalendar[22].freightMethod == "air"
    ensures RaceCalendar[23].freightMethod == "road"
  {
  }
}
