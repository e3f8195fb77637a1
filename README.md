# F1 carbon tracker — emissions arithmetic

A Dafny model of the calculation core of the F1 carbon footprint tracker
(`f1_carbon_tracker.py`). The tracker estimates the CO2 of a Formula 1
season. It does this from fixed emission factors, operational estimates
and the 24-race 2024 calendar. The model covers:

- the per-race breakdown into five categories (freight, personnel travel,
  fuel, circuit operations, accommodation) and a total scaled by the
  support-series factor 1.3;
- the season table built race by race;
- the column sums and category percentages of the report;
- the everyday comparisons;
- the four what-if sustainability scenarios;
- the net-zero rule for the yearly reduction still needed.

All quantities are exact `real`s, and all emissions are in kg of CO2.
Distances stay the calendar's integers. The freight method stays a
string, so that any method other than `"air"` and `"sea"` takes the road
branch, as in the source.

Modules, in dependency order:

- `RealFacts` (`realfacts.dfy`): sign facts about real products, used by
  the proofs.
- `Calendar` (`calendar.dfy`): the race row and the shipped calendar.
- `Emissions` (`emissions.dfy`): the constants and the per-race calculator.
- `Season` (`season.dfy`): the season table, the loop that builds it,
  the column sums and the percentage used by the report and the scenarios.
- `Scenarios` (`scenarios.dfy`): the sustainability scenarios.
- `Report` (`report.dfy`): the category percentages, the average per
  race, the comparisons and the net-zero rule.

The tracker object only holds constants that `__init__` sets and nothing
ever updates. These are therefore module constants, not a class. The season
loop (`calculate_season_emissions`) appends one record per calendar row.
It is an imperative method, proved against the specification function
`SeasonTable`.

Code and description disagree in two places, and the model follows the
code in both:

- The comment at line 226 says the sustainable-aviation-fuel scenario
  halves *air* freight. The code halves the freight of every method.
- Line 33 documents the fuel consumption of 100 litres as "per car per
  race". Lines 98-99 multiply it by three sessions (practice, qualifying,
  race), so each car is charged 300 litres per weekend.

## Model

| member | source | states |
|---|---|---|
| Calendar.RaceCalendarShape | f1_carbon_tracker.py:48-76 | the shipped calendar has 24 rows, opens with a 0 km sea leg and has no negative distance |
| Calendar.RaceCalendarDistances | f1_carbon_tracker.py:50-75 | the distance of every one of the 24 rows |
| Calendar.RaceCalendarFreightMethods0 | f1_carbon_tracker.py:51-56 | the freight methods of rows 0 to 5 |
| Calendar.RaceCalendarFreightMethods6 | f1_carbon_tracker.py:57-62 | the freight methods of rows 6 to 11 |
| Calendar.RaceCalendarFreightMethods12 | f1_carbon_tracker.py:63-68 | the freight methods of rows 12 to 17 |
| Calendar.RaceCalendarFreightMethods18 | f1_carbon_tracker.py:69-74 | the freight methods of rows 18 to 23 |
| Calendar.RaceCalendarLongestLeg | f1_carbon_tracker.py:50-75 | no leg is longer than the 17,000 km to Miami, row 5 |
| Emissions.FreightFactor | f1_carbon_tracker.py:86-91 | the factor is positive and at most the air factor; it equals the air factor exactly when the method is "air" |
| Emissions.CalendarFreightFactors | f1_carbon_tracker.py:86-91 | the branches give air 2.1 and sea 0.015 (the factors set at lines 20-21) and the road factor 0.1 written into line 91 |
| Emissions.RaceEmissions | f1_carbon_tracker.py:78-120 | freight is 150 t times distance times the method's factor; travel is 800 people times 0.255 per km; fuel 13,860, circuit 500,000, hotels 72,000; the total is 1.3 times the five-category sum |
| Emissions.FreightBySelection | f1_carbon_tracker.py:86-91 | freight per km is 315 for air, 2.25 for sea and 15 for any other method |
| Emissions.PersonnelTravelIgnoresFreightMethod | f1_carbon_tracker.py:93-95 | two races with the same distance have the same travel emissions, whatever their methods |
| Emissions.FixedCategoriesAgree | f1_carbon_tracker.py:97-106 | fuel, circuit and hotel emissions are the same for any two races |
| Emissions.RaceEmissionsWellFormed | f1_carbon_tracker.py:78-120 | for a non-negative distance no category is negative, and the total is the scaled sum and at least the unscaled one |
| Emissions.RaceEmissionsMonotone | f1_carbon_tracker.py:78-120 | with the same method, a longer leg never lowers freight, travel or total |
| Emissions.ZeroDistanceRace | f1_carbon_tracker.py:78-120 | a 0 km leg gives no freight and no travel, and a total of 761,618 |
| Emissions.OpeningRaceHasNoTravel | f1_carbon_tracker.py:51 | the Bahrain opener has no freight and no travel emissions |
| Emissions.AirLegIsHeaviest | f1_carbon_tracker.py:86-111 | an air race over a leg at least as long as another race's has at least its freight and total |
| Emissions.MostIntensiveRace2024 | f1_carbon_tracker.py:362 | on the shipped calendar no race has a larger total than the air-freighted Miami race |
| Season.SeasonTable | f1_carbon_tracker.py:122-132 | one row per calendar entry, in order, carrying that race's name, location and breakdown |
| Season.CalculateSeasonEmissions | f1_carbon_tracker.py:122-132 | the loop returns exactly the season table of its calendar, so row i is race i's breakdown tagged with its name and location |
| Season.ColumnSum | f1_carbon_tracker.py:222-243 | the sum of one column of the season table, as a column `sum()` gives it; characterised by Season.ColumnSumAppend (additive over stretches of rows) and Season.SeasonSumIsRaceSum (equal to the race-by-race sum of the calculator) |
| Season.ColumnSumAppend | f1_carbon_tracker.py:289 | a column sum over two stretches of rows is the sum of the two sums |
| Season.SeasonAppend | f1_carbon_tracker.py:122-132 | the table of two calendars run back to back is the one table followed by the other |
| Season.SeasonSumSplits | f1_carbon_tracker.py:122-132 | splitting a calendar anywhere splits every column sum of its table |
| Season.SeasonTotalIsScaledCategorySums | f1_carbon_tracker.py:289 | when each row's total is 1.3 times its category sum, the season total is 1.3 times the five column sums |
| Season.ColumnSumNonNegative | f1_carbon_tracker.py:297-303 | a column without negative entries has a non-negative sum |
| Season.SeasonWellFormed | f1_carbon_tracker.py:122-132 | a calendar without negative distances yields only well-formed rows |
| Season.WellFormedSeasonSums | f1_carbon_tracker.py:289-303 | for well-formed rows every category sum is non-negative and the total is 1.3 times their sum |
| Season.FixedColumnSums | f1_carbon_tracker.py:297-303 | the fuel, circuit and hotel sums are their per-race values times the number of races |
| Season.SeasonSumIsRaceSum | f1_carbon_tracker.py:122-132 | summing a column of the table equals summing that category of the calculator race by race |
| Season.Season2024Figures | f1_carbon_tracker.py:289-303 | 2024 sums: freight 27,886,875; travel 23,490,600; fuel 332,640; circuit 12,000,000; hotels 1,728,000; total 85,069,549.5 |
| Scenarios.ScenarioOf | f1_carbon_tracker.py:228-232 | the new total is the base minus the reduction, and the percentage times the base is 100 times the reduction |
| Scenarios.SimulateScenarios | f1_carbon_tracker.py:220-258 | SAF saves half the freight, calendar optimisation a fifth of freight plus travel, renewables 0.8 of circuit operations; combined is their sum; each scenario is consistent with the season total |
| Scenarios.CombinedPercentageIsSum | f1_carbon_tracker.py:250-256 | the combined percentage is the sum of the three single percentages |
| Scenarios.ScenarioBounds | f1_carbon_tracker.py:220-258 | for well-formed rows every reduction lies between 0 and the combined one, and the combined one is at most 8/13 of the base; every new total stays positive; every percentage lies in [0, 800/13] |
| Scenarios.Scenarios2024 | f1_carbon_tracker.py:220-258 | 2024 savings: SAF 13,943,437.5; calendar 10,275,495; renewables 9,600,000; combined 33,818,932.5 |
| Scenarios.BiggestSingleScenario | f1_carbon_tracker.py:364 | picks a single scenario (never the combined one) whose saving no other single scenario exceeds |
| Scenarios.CalendarOptimizationIsNotBiggest2024 | f1_carbon_tracker.py:364 | on the shipped calendar calendar optimisation saves less than SAF |
| Scenarios.BiggestSingleScenario2024 | f1_carbon_tracker.py:364 | on the shipped calendar the biggest single impact is SAF |
| Season.Percentage | f1_carbon_tracker.py:306 | the percentage times the total is 100 times the value |
| Report.SeasonSums | f1_carbon_tracker.py:297-303 | the five category column sums and the season total gathered in one breakdown; by Report.SeasonSumsWellFormed it is well formed whenever the rows are |
| Report.SeasonSumsWellFormed | f1_carbon_tracker.py:297-303 | the category sums of well-formed rows form a well-formed breakdown |
| Report.AveragePerRace | f1_carbon_tracker.py:293 | the average times the number of races is the season total |
| Report.AveragePerRace2024 | f1_carbon_tracker.py:293 | 2024 averages 3,544,564.5625 per race over 24 races |
| Report.Shares | f1_carbon_tracker.py:305-306 | each share times the total is 100 times its category |
| Report.CategoryPercentages | f1_carbon_tracker.py:297-307 | each category's percentage times the season total is 100 times its column sum |
| Report.SharesAddUp | f1_carbon_tracker.py:297-307 | for a well-formed breakdown the five shares are non-negative and add up to 1000/13 percent, never 100 |
| Report.SeasonSharesAddUp | f1_carbon_tracker.py:297-307 | the same for the category percentages of a season of well-formed rows |
| Report.CreateComparisons | f1_carbon_tracker.py:134-147 | each equivalent times its baseline (16,000 per home-year, 0.192 per car km, 1,600 per crossing) is the emissions compared |
| Report.ComparisonsMonotone | f1_carbon_tracker.py:134-147 | more emissions never give fewer equivalents, and flights are always ten times homes |
| Report.Comparisons2024 | f1_carbon_tracker.py:310 | 2024 equals exactly 5,316.84684375 home-years, 443,070,570.3125 car km and 53,168.4684375 crossings |
| Report.RequiredAnnualReduction | f1_carbon_tracker.py:326-331 | with years left the reduction times the years is the emissions; with none left it is all of the emissions |
| Report.RequiredReductionBounds | f1_carbon_tracker.py:326-331 | for non-negative emissions the yearly reduction lies between 0 and the emissions |
| Report.RequiredReductionGrowsAsTargetNears | f1_carbon_tracker.py:326-331 | a later current year never needs a smaller yearly reduction |
| Report.RequiredReductionRate | f1_carbon_tracker.py:337 | the rate times the years left is 100, or the rate is 100 once the target year has come; it needs non-zero emissions |
| Report.NetZeroPath2024 | f1_carbon_tracker.py:326-337 | from 2025 the 2024 total needs 17,013,909.9 a year (20%); from 2030 on, all of it |

## Left out

- Plotting (`visualize_season_breakdown`, lines 149-218; `visualize_scenarios`, lines 260-280): chart layout only, no arithmetic.
- Printing and formatting in `generate_report` and `track_progress_to_net_zero` (rounding to 0 or 1 decimal place, dividing by 1000 or 1,000,000 for tonnes and million km): the model keeps the exact values that get printed.
- `main` (lines 341-366): the logistics share at line 361 and the insight text are outside the modelled core. The exceptions are the insight at line 362, checked by `Emissions.MostIntensiveRace2024`, and the claim at line 364, handled under Findings.
- pandas: the calendar and season DataFrames are sequences of records, and a column `sum()` is `Season.ColumnSum`.
- `datetime.now()` at line 328: the current year is a parameter of `Report.RequiredAnnualReduction` and `Report.RequiredReductionRate`.
- Floating point: the source computes in IEEE doubles, and the model uses exact reals. So the proved figures are the exact values, which the printed, rounded doubles approximate.
- Division by zero: every divisor that can be zero in the source is a pandas column sum (a numpy scalar). Dividing by such a zero gives inf or nan with a runtime warning rather than an exception. The model does not represent inf or nan: it requires the divisor to be non-zero. This applies to `Season.Percentage`, `Report.Shares`, `Report.CategoryPercentages`, `Scenarios.ScenarioOf`, `Scenarios.SimulateScenarios` and `Report.RequiredReductionRate`.
- The number of races divided by at line 293 is never zero: the calendar is a constant of 24 rows (lines 50-75), and an empty table would fail earlier, at line 289, because it has no `total` column. `Report.AveragePerRace` therefore requires a non-empty table.
- The unused imports (`matplotlib`, `requests`, `json`) play no part in any computation, and `numpy` is used only by the plotting (line 183).

## Findings

| source | as written | input that shows it | evidently intended | confidence | as-written member | corrected member |
|---|---|---|---|---|---|---|
| f1_carbon_tracker.py:364 | the report always states that calendar optimisation offers the biggest single impact | the shipped 2024 calendar: SAF saves 13,943,437.5 kg and calendar optimisation only 10,275,495 kg | name the single scenario with the largest saving, which here is sustainable aviation fuel | high, not executed | Scenarios.CalendarOptimizationIsNotBiggest2024 | Scenarios.BiggestSingleScenario |
