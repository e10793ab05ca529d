# fishcast core in Dafny

fishcast ("Petri Heil") is a browser app that tells anglers how good the
fishing is. This project models the computational core of the app and proves
properties of it:

- **Moon and solunar periods**:
  - The Julian day of a local date and time, the moon's age and phase, and its estimated transit.
  - The "HH:MM" rendering of decimal hours.
  - The four solunar periods of a day: two major, two minor, sorted by start.
  - Whether "now" is inside or close to a period, and the solunar score (100/70/30/10).
- **Catch forecast**:
  - The nine factor scores: pressure trend, time of day, cloud cover, UV index, visibility, tide timing, wave height, moon phase, solunar.
  - Their weighted average under the inland, coastal or legacy weight table.
  - The species adjustment, the rounding and clamping to 0..100, the rating tier and the tip shown to the user.
- **Best fishing time**:
  - The 24 hour scores built from periods, sunrise, sunset and tides.
  - The search for the contiguous window of 2 to 6 hours with the highest average score.
- **Marine data**:
  - Peak detection of high and low water per day on the hourly wave heights.
  - The per-day summaries of the daily marine block.
- **Configuration and formatting**:
  - The weight, moon-phase, weather-code and rating tables.
  - Compass labels, the pressure-trend wording, the rating lookup, and the formatters together with their guards against non-finite numbers.
- **Species filter**:
  - The water-type, season and edibility predicates, and the free-text search.
  - The conjunctive filter over the species list, the result-count wording and the reset-button rule.

Modules:

- `Wrappers`: `Option`, which stands for JavaScript's `null`/`undefined`.
- `JsMath`: `Math.round`, `Math.ceil` and the truncating `%`, each over exact reals.
- `Text`: `String(n)`, `padStart` and a parser that reads both back.
- `Config` and `Utils`: the tables and the formatters.
- `Lunar`: the Julian day, the moon's phase and transit, and the clock text.
- `Solunar`: the periods and the solunar score.
- `FactorScores`: the per-factor scores.
- `CatchScore`: the tip and the catch probability.
- `BestTime`: the best fishing window.
- `Marine`: tide extraction and the daily summaries.
- `FishFilter`: the species filter.

Code that mutates state step by step is modelled as methods with loops. These
are the tide grouping and peak detection, the weighted-sum and rating loops,
the tip list, the hour-score array, the window search, the tide-timing loop
and `isNearPeriod`. Each method is proved against a specification function.
Expression-level code is modelled as functions and lemmas.

Some behaviour is proved as the code has it, although it may surprise:

- The species modifier adds `fishMod / modCount * 0.15 * 100` points, which is
  15 times the mean adjustment. A single temperature preference therefore pins
  the score to 0 or 100 (`CatchScore.SingleTemperaturePreferenceDecides`).
- `formatDecimalHour` shows a minute that rounds to 60 as ":00" without
  advancing the hour (`Lunar.FormatDecimalHourDropsCarry`).
- The best-time search gives a period's points to the whole hour its end falls
  on, and to the hour after that too (`BestTime.CoversHourAfterEnd`).
- At the reference new moon itself, 18:14 on 6 January 2000, the Julian-day
  formula is still a fraction of a minute short of the reference day 2451550.26.
  The phase index there is 7 (waning crescent), not 0. The model follows the
  code, and `Lunar.ReferenceNewMoonMinute` proves index 7 at 18:14 and index 0
  one minute later. The comment at `fishing-app/js/solunar.js:41` names that
  minute, 6 January 2000 at 18:14 UTC, as the known new moon.

## Model

| member | source | states |
|---|---|---|
| Config.InlandKeys | fishing-app/js/config.js:143-151 | the inland table weighs exactly seven distinct factors |
| Config.InlandWeightsSumToOne | fishing-app/js/config.js:143-151 | the inland weights sum to 1 |
| Config.CoastalKeys | fishing-app/js/config.js:154-164 | the coastal table has nine distinct factors: the inland ones plus tides and wave height |
| Config.CoastalWeightsSumToOne | fishing-app/js/config.js:154-164 | the coastal weights sum to 1 |
| Config.CoastalWeightsSmaller | fishing-app/js/config.js:143-164 | every factor shared by both tables weighs strictly less, and still more than 0, in the coastal table |
| Config.LegacyWeightsSumToOne | fishing-app/js/config.js:134-140 | the legacy table covers its five factors and sums to 1 |
| Config.MoonPhaseTable | fishing-app/js/config.js:169-178 | eight phases; new and full moon score 100, every other phase less; all scores in 0..100 |
| Config.RatingTable | fishing-app/js/config.js:215-220 | four tiers with strictly descending thresholds, the last at 0 |
| JsMath.Round | js/utils.js:13 | `Math.round` is the integer within half a unit, with halves rounding up |
| JsMath.Ceil | fishing-app/js/solunar.js:673 | `Math.ceil` is the least integer not below x |
| JsMath.Trunc | fishing-app/js/solunar.js:93 | truncation towards zero, on both signs |
| JsMath.Rem | fishing-app/js/solunar.js:93 | the `%` remainder has the dividend's sign and lies within the divisor |
| JsMath.Mod | fishing-app/js/solunar.js:46 | the Euclidean remainder lies in [0, b) |
| JsMath.Wrap | fishing-app/js/solunar.js:46 | `((a % b) + b) % b` equals the Euclidean remainder for every sign of a |
| JsMath.ModShift | fishing-app/js/solunar.js:46 | the remainder is unchanged by whole multiples of b |
| JsMath.IntRem | js/utils.js:44 | integer `%` agrees with the Euclidean remainder for non-negative a and lies in (-b, 0] for negative a |
| Text.NatText | fishing-app/js/fish-ui.js:59 | `String(n)` is digits only, with no leading zero |
| Text.ParseNatText | fishing-app/js/solunar.js:156 | reading back the digits of `String(n)` gives n |
| Text.IntText | fishing-app/js/fish-ui.js:59 | `String(i)` starts with '-' exactly for negative i |
| Text.IntTextRoundTrip | js/utils.js:13 | parsing `String(i)` gives back i |
| Text.IntTextInjective | fishing-app/js/fish-ui.js:59 | distinct integers render differently |
| Text.Pad2 | fishing-app/js/solunar.js:109 | `padStart(2, '0')` of n < 100 has two digits that read back as n |
| Utils.FormatRounded | js/utils.js:11-34 | the dash exactly for non-finite input; otherwise the rounded number, which parses back, followed by the unit |
| Utils.FormatTemperature | js/utils.js:11-14 | the dash iff not finite; otherwise the rounded value followed by "°C" |
| Utils.FormatWindSpeed | js/utils.js:21-24 | the dash iff not finite; otherwise the rounded value followed by " km/h" |
| Utils.FormatPressure | js/utils.js:31-34 | the dash iff not finite; otherwise the rounded value followed by " hPa" |
| Utils.FormatPercent | js/utils.js:140-143 | the dash iff not finite; otherwise the rounded value followed by "%" |
| Utils.CompassIndex | js/utils.js:44 | the index lies in (-8, 8) and is `round(deg/45) mod 8` from -22.5° on |
| Utils.DegToCompass | js/utils.js:41-46 | the dash for non-finite input; from -22.5° on, the label of the rounded 45° sector |
| Utils.FormatWindDirection | js/utils.js:53-58 | the dash for non-finite input |
| Utils.CompassNearestPoint | js/utils.js:41-46 | every direction within ±22.5° of a compass point shows that point, 360° being north |
| Utils.CompassNorthBothEnds | js/utils.js:41-46 | 0° and 360° are both "N" |
| Utils.CompassFullTurn | js/utils.js:41-46 | adding 360° leaves the label unchanged |
| Utils.CompassUndefinedBelowNorth | js/utils.js:44-45 | -30° yields undefined: the index is negative |
| Utils.WindDirectionSameIndex | js/utils.js:53-58 | the arrow and the label are taken at one and the same index, `round(deg/45) mod 8` |
| Utils.WeatherCodeToText | js/utils.js:120-122 | the table entry for a known code; "Unbekannt" exactly for an unknown code |
| Utils.FixedOneNonNegative | js/utils.js:132 | `toFixed(1)` of a non-negative number is digits, a point and one digit that read back as the nearest number of tenths |
| Utils.FixedOne | js/utils.js:132 | `toFixed(1)` starts with "-" exactly for a negative number; the rest reads back as the nearest number of tenths of its magnitude |
| Utils.FormatPrecipitation | js/utils.js:129-133 | "0 mm" exactly when the amount is not finite or is zero; otherwise `toFixed(1)` followed by " mm" |
| Utils.RatingFrom | js/utils.js:163-168 | the tier is a table entry from i on, and the score reaches its threshold unless it is the last tier |
| Utils.GetCatchRating | js/utils.js:163-168 | the rating is a table entry, and a non-negative score reaches its threshold |
| Utils.RatingTiers | js/utils.js:163-168 | 75 and up "Ausgezeichnet", 55..74 "Gut", 35..54 "Maessig", below 35 "Schlecht" |
| Lunar.DaysInMonth | fishing-app/js/solunar.js:15-31 | the Gregorian month length used as the reference for the Julian day; February has 29 days iff leap year |
| Lunar.MarchBased | fishing-app/js/solunar.js:20-25 | January and February become months 13 and 14 of the previous year, without changing the month count |
| Lunar.YearTermExact | fishing-app/js/solunar.js:30 | `floor(365.25 (y+4716))` counts 365 days a year plus a leap day every fourth year |
| Lunar.MonthTermTable | fishing-app/js/solunar.js:30 | `floor(30.6001 (m+1))` for each month 3..14 |
| Lunar.JulianDayFollowsGregorianCalendar | fishing-app/js/solunar.js:15-31 | the first of each month is one Julian day after the last day of the month before, across leap and century years |
| Lunar.LeapDayStep | fishing-app/js/solunar.js:30 | the year term gains an extra day exactly in years divisible by four |
| Lunar.CenturyStep | fishing-app/js/solunar.js:27-28 | the century correction drops a day at century years not divisible by 400 |
| Lunar.JulianDayOfJ2000 | fishing-app/js/solunar.js:15-31 | noon of 1 January 2000 is Julian day 2451545 |
| Lunar.JulianDayTimeOfDay | fishing-app/js/solunar.js:18 | the time of day adds its fraction of a day |
| Lunar.MoonAge | fishing-app/js/solunar.js:44-46 | the age lies in [0, 29.53059) |
| Lunar.MoonAgePeriodic | fishing-app/js/solunar.js:46 | the age repeats every whole number of synodic months, in both directions |
| Lunar.MoonAgeAfterReference | fishing-app/js/solunar.js:45-46 | within the first month after the reference, the age is the elapsed time |
| Lunar.PhaseIndex | fishing-app/js/solunar.js:49 | phase k (0..7) covers exactly the k-th eighth of the synodic month |
| Lunar.GetMoonData | fishing-app/js/solunar.js:38-65 | phase 0..7 in the eighth of the age; name, emoji and score from that table row; age to two decimals, in 0..29.53 |
| Lunar.PhaseRepeats | fishing-app/js/solunar.js:44-63 | dates a whole number of synodic months apart have the same phase and score |
| Lunar.ReferenceNewMoonMinute | fishing-app/js/solunar.js:41-49 | at 2000-01-06 18:14 the phase index is 7; at 18:15 it is 0 |
| Lunar.MoonTransit | fishing-app/js/solunar.js:89-96 | the transit hour lies in [0, 24) |
| Lunar.TransitIsNormalisedHour | fishing-app/js/solunar.js:93-94 | the transit is `12 + age·(24+50/60)/29.53059 − lon/15` reduced into [0, 24) |
| Lunar.TransitLongitudeShift | fishing-app/js/solunar.js:91-94 | 15° further east moves the transit one hour earlier, wrapping at midnight |
| Lunar.TransitAtNewMoon | fishing-app/js/solunar.js:89-96 | at new moon on the prime meridian the transit is at noon |
| Lunar.EstimateMoonTransit | fishing-app/js/solunar.js:78-97 | the estimated transit lies in [0, 24) |
| Lunar.FormatDecimalHour | fishing-app/js/solunar.js:104-110 | a valid clock time whose hour is the whole hour of the input reduced into [0, 24), and whose minutes lie within half a minute of it, or ":00" when the minute rounds to 60 |
| Lunar.FormatDecimalHourExact | fishing-app/js/solunar.js:104-110 | a whole number of minutes is shown exactly |
| Lunar.FormatDecimalHourDropsCarry | fishing-app/js/solunar.js:108-109 | 13.995 is shown as 13:00: the carry into the hour is lost |
| Lunar.FormatDecimalHourShift | fishing-app/js/solunar.js:106 | whole-hour shifts move the shown hour round the clock and keep the minute |
| Lunar.ClockText | fishing-app/js/solunar.js:109 | "HH:MM" has five characters with ':' in the middle, and `split(':').map(Number)` reads it back |
| Lunar.GetMoonRiseSet | fishing-app/js/solunar.js:119-131 | transit is the estimated transit hour shown as a clock time, rise and set that hour minus and plus 6 h; all three are valid, 6 h apart on the clock, with the same minute |
| Solunar.CreatePeriod | fishing-app/js/solunar.js:140-146 | a valid period of the given kind from the centre minus to the centre plus the half duration, as clock times; a major one spans 2 clock hours and a minor one 1 |
| Solunar.ClockwiseDistance | fishing-app/js/solunar.js:187 | the clockwise minutes from one time to another: in 0..1439 and congruent to the difference |
| Solunar.IsInTimeRange | fishing-app/js/solunar.js:155-172 | now lies on the clockwise arc from start to end inclusive, except midnight when an end of 00:00 means the end of the day |
| Solunar.DistanceWithinDay | fishing-app/js/solunar.js:167-171 | within one day the clockwise distance is the difference, plus 1440 when it wraps |
| Solunar.IsNearPeriod | fishing-app/js/solunar.js:181-193 | true iff some period starts 1..`minutesBefore` minutes after now, modulo a day |
| Solunar.InsertByStart | fishing-app/js/solunar.js:226-230 | insertion keeps the periods as a multiset |
| Solunar.InsertKeepsSorted | fishing-app/js/solunar.js:226-230 | inserting into a list sorted by start keeps it sorted |
| Solunar.SortByStart | fishing-app/js/solunar.js:226-230 | the sort yields a permutation sorted by start minute |
| Solunar.DayPeriods | fishing-app/js/solunar.js:211-223 | four valid periods pushed in order: major at moonrise (transit - 6 h), major at moonset (transit + 6 h), minor at the transit, minor at the anti-transit (transit + 12 h) |
| Solunar.DayPeriodsTwelveHoursApart | fishing-app/js/solunar.js:211-223 | the two majors start twelve hours apart with the same minute, and so do the two minors |
| Solunar.KindCount | fishing-app/js/solunar.js:233-239 | the number of periods of a kind never exceeds the list length |
| Solunar.KindCountPermutation | fishing-app/js/solunar.js:226-230 | reordering keeps the count of each kind |
| Solunar.AnyOfKindContains | fishing-app/js/solunar.js:233-239 | filter by kind followed by `some(isInTimeRange)` is true iff some period of that kind contains now |
| Solunar.ShiftedRemIsDistance | fishing-app/js/solunar.js:187 | `((start - now) + 1440) % 1440` is the clockwise distance from now to the start |
| Solunar.SortedPeriodsOfDay | fishing-app/js/solunar.js:206-230 | the four periods, majors around transit ∓ 6 h and minors around transit and transit + 12 h, come out sorted by start, a permutation of the day's periods, two of each kind, all valid |
| Solunar.SortedDayPeriods | fishing-app/js/solunar.js:215-230 | after sorting there are still four valid periods, two of each kind |
| Solunar.GetSolunarPeriods | fishing-app/js/solunar.js:202-262 | four periods: a sorted permutation of the day's periods, two major and two minor. isInMajor/isInMinor/isNearPeriod are judged at checkDate or date, and never in a major and a minor period at once. The score is 100/70/30/10 by exactly those flags |
| Solunar.FormatDecimalHourNear | fishing-app/js/solunar.js:104-110 | the shown minute of the day lies at most half a minute after the decimal hour and less than an hour before it, modulo whole days |
| Solunar.PeriodArc | fishing-app/js/solunar.js:140-172 | a time inside a period lies on the dial from an hour before its nominal start to half a minute after its nominal end |
| Solunar.MajorMinorApart | fishing-app/js/solunar.js:211-223 | a major period centred 6 or 18 h from a minor one shares no time of day with it |
| Solunar.MajorMinorDisjoint | fishing-app/js/solunar.js:232-238 | in any ordering of the day's periods, no time is inside both a major and a minor period |
| FactorScores.PressureScore | fishing-app/js/solunar.js:273-279 | 90/70/40/50/60, each exactly when the trend wording is strongly falling / falling / strongly rising / rising / stable |
| FactorScores.PressureScoreOrder | fishing-app/js/solunar.js:273-279 | a steeper fall never scores lower; a steeper rise never scores higher |
| FactorScores.TimeOfDayScore | fishing-app/js/solunar.js:286-319 | 100 within 1 h of sunrise (or, failing that, of sunset), 70 within 2 h, else 50 or 40; the defaults are 6 and 20 |
| FactorScores.TimeOfDayWindows | fishing-app/js/solunar.js:302-318 | on a day longer than 4 h: 100 iff within an hour of sunrise or sunset; 50 iff night; 40 iff mid-day |
| FactorScores.CloudCoverScore | fishing-app/js/solunar.js:326-329 | `round(70 + 0.3·cover)`, in 70..100 for a cover in 0..100 |
| FactorScores.CloudCoverMonotone | fishing-app/js/solunar.js:326-329 | more cloud never lowers the score |
| FactorScores.UvIndexScore | fishing-app/js/solunar.js:336-342 | 70 without a reading; otherwise 100 iff the UV index is at most 2, 80 iff over 2 up to 5, 60 iff over 5 up to 7, 40 iff over 7 |
| FactorScores.UvIndexAntitone | fishing-app/js/solunar.js:336-342 | stronger UV never scores higher |
| FactorScores.VisibilityScore | fishing-app/js/solunar.js:349-355 | 80 iff 5..10 km; 60 iff over 10 km; 70 otherwise or without a reading |
| FactorScores.WaveHeightScore | fishing-app/js/solunar.js:389-395 | 90 iff under 0.5 m; 100 iff 0.5..1.5 m; 70 iff no reading or over 1.5 up to 3 m; 30 iff over 3 m |
| FactorScores.HoursApart | fishing-app/js/solunar.js:370 | the distance in hours between two instants is non-negative |
| FactorScores.TideTimingScore | fishing-app/js/solunar.js:363-382 | the loop returns the tide score of the list, `TideScoreOf` |
| FactorScores.TideScoreOf | fishing-app/js/solunar.js:363-382 | a tide score is one of 50, 70, 85, 90 |
| FactorScores.TideScoreNoneWithin | fishing-app/js/solunar.js:363-382 | 50 when no tide is within 2 h of now (also for an empty list) |
| FactorScores.TideScoreFirstWithin | fishing-app/js/solunar.js:368-379 | the first tide within 2 h decides: 90 high or 85 low within 1 h, else 70 |
| CatchScore.ConditionTipsCover | fishing-app/js/solunar.js:408-453 | the general score tip is reached exactly when none of the condition tips applies |
| CatchScore.ScoreTipMatchesRating | fishing-app/js/solunar.js:453-462 | the general tip names the same tier as the catch rating |
| CatchScore.FirstTipIsFirstApplicable | fishing-app/js/solunar.js:405-467 | the chosen tip applies and no tip earlier in the list applies |
| CatchScore.GenerateTip | fishing-app/js/solunar.js:405-467 | the method collecting tips returns the first applicable tip |
| CatchScore.WeightedSumBounds | fishing-app/js/solunar.js:538-543 | scores in 0..100 with non-negative weights sum to between 0 and 100 times the total weight |
| CatchScore.WeightedSumUniform | fishing-app/js/solunar.js:538-543 | equal scores sum to that score times the total weight |
| CatchScore.ProfileWeightsPositive | fishing-app/js/solunar.js:534-543 | every factor of the chosen profile has a positive weight, so none is skipped |
| CatchScore.ProfileIsAverage | fishing-app/js/solunar.js:535-553 | every profile's weights (inland, coastal, legacy) sum to 1 |
| CatchScore.BaseScoreInRange | fishing-app/js/solunar.js:537-553 | the weighted average of scores in 0..100 lies in 0..100 |
| CatchScore.UniformScoresAverageToThemselves | fishing-app/js/solunar.js:537-553 | when all factors score c, the weighted average is c |
| CatchScore.WeightedOverall | fishing-app/js/solunar.js:538-543 | the accumulation loop computes the weighted sum over the keys in order |
| CatchScore.Adjustments | fishing-app/js/solunar.js:569-617 | at most four adjustments, each in -15..10 |
| CatchScore.AdjustmentsCounted | fishing-app/js/solunar.js:569-613 | one adjustment per present preference, none for a pressure preference of "egal"; temperature first, cloud cover last with 5 in range and 0 outside |
| CatchScore.IntSumBounds | fishing-app/js/solunar.js:566-617 | n values in lo..hi sum to within n·lo..n·hi |
| CatchScore.SpeciesModifierBounds | fishing-app/js/solunar.js:619-621 | the species modifier lies in -225..150 points |
| CatchScore.ClampedScore | fishing-app/js/solunar.js:625 | the result lies in 0..100: 0 below -0.5, 100 from 99.5 on, the rounded value in between |
| CatchScore.SingleTemperaturePreferenceDecides | fishing-app/js/solunar.js:565-625 | with only a temperature preference: missing the range gives 0, meeting it near the ideal gives 100, whatever the base score in 0..100 |
| CatchScore.SpeciesAdjustment | fishing-app/js/solunar.js:566-617 | the chain of `if` statements adds up exactly the adjustments and counts them |
| CatchScore.RatingFor | fishing-app/js/solunar.js:628-634 | the loop with `break` picks the same tier as `getCatchRating` |
| CatchScore.FirstReachedTier | fishing-app/js/solunar.js:628-634 | the first tier whose threshold is reached is the rating |
| CatchScore.AddSpeciesModifier | fishing-app/js/solunar.js:565-622 | adds exactly the species modifier, or nothing without counted preferences |
| CatchScore.FindIndex | fishing-app/js/solunar.js:514 | `findIndex` is the first matching index, or -1 exactly when none matches |
| CatchScore.DayIndex | fishing-app/js/solunar.js:524 | `find` by date is the first entry with that date, or -1 exactly when none has it |
| CatchScore.TodayTides | fishing-app/js/solunar.js:521-528 | today's tide list, or empty without tide data or without an entry for today |
| CatchScore.FactorBreakdown | fishing-app/js/solunar.js:480-562 | the keys in insertion order for the profile and each factor's score: the common five always, UV and visibility with the new weights, and the tide score of today's tides and the wave score of the current hour on the coast |
| CatchScore.CalculateCatchProbability | fishing-app/js/solunar.js:478-648 | the profile's keys and every factor's score as in the breakdown; overall = the clamped weighted average plus the species modifier, in 0..100. The rating fields are `getCatchRating`'s. The tip is the first applicable one |
| BestTime.WrapHour | fishing-app/js/solunar.js:686 | `((h % 24) + 24) % 24` is the hour of the day, h mod 24 |
| BestTime.CoversHourAfterEnd | fishing-app/js/solunar.js:673-674 | a period ending on a whole hour also gives points to the hour starting then |
| BestTime.CoversWithinDay | fishing-app/js/solunar.js:673-674 | a same-day period covers exactly the hours from its start hour to its end hour, plus one when the end has minutes |
| BestTime.PeriodPointsAt | fishing-app/js/solunar.js:663-679 | the period points of an hour are non-negative |
| BestTime.TidePointsAt | fishing-app/js/solunar.js:701-710 | the tide points of an hour are non-negative |
| BestTime.TideHours | fishing-app/js/solunar.js:701-704 | one local hour per tide, in order; none without tides |
| BestTime.SunAndPeriodPointsAt | fishing-app/js/solunar.js:662-698 | the period, sunrise and sunset points of an hour are non-negative |
| BestTime.HourProfile | fishing-app/js/solunar.js:659-710 | 24 non-negative hour scores, each the sum of its period, sun and tide points |
| BestTime.BandWrapsAtMidnight | fishing-app/js/solunar.js:685-688 | sunrise at 23 h favours midnight, and sunrise at 0 h favours 23 h |
| BestTime.Avg | fishing-app/js/solunar.js:724 | the average of a non-negative total is non-negative, and 0 for a zero total |
| BestTime.BestBeats | fishing-app/js/solunar.js:712-731 | the earliest best window is at least as good as every window and strictly better than every earlier one |
| BestTime.EarliestBestUnique | fishing-app/js/solunar.js:712-731 | the earliest best window is unique |
| BestTime.QuietDayIsMidnight | fishing-app/js/solunar.js:713-731 | on an all-zero day the window 0..1 is the earliest best |
| BestTime.FindBestWindow | fishing-app/js/solunar.js:713-731 | the nested loops find the earliest window of 2..6 hours with the highest average |
| BestTime.TryLengths | fishing-app/js/solunar.js:718-730 | the length loop for one start keeps the best window found so far correct |
| BestTime.WindowTotal | fishing-app/js/solunar.js:720-723 | the inner loop sums the hours start..end |
| BestTime.AddPeriod | fishing-app/js/solunar.js:671-677 | the hour loop adds the period's points to exactly the hours it covers |
| BestTime.AddBand | fishing-app/js/solunar.js:685-688 | the hours before, of and after the centre get the points, wrapping at midnight; nothing else changes |
| BestTime.AddTides | fishing-app/js/solunar.js:701-710 | each tide adds 15 points to the hours around it |
| BestTime.ScoreHours | fishing-app/js/solunar.js:659-710 | the array of hour scores equals the hour profile |
| BestTime.WindowBounds | fishing-app/js/solunar.js:733-736 | `formatDecimalHour` of the start hour and of the hour after the window are those whole hours |
| BestTime.CalculateBestFishingTime | fishing-app/js/solunar.js:658-737 | the answer is the earliest best window of the hour profile, from its first hour to the hour after its last, as "HH:MM" |
| BestTime.QuietDayAnswer | fishing-app/js/solunar.js:713-736 | a day without points yields 00:00 to 02:00 |
| Marine.DatePrefix | js/marine.js:32 | `slice(0, 10)` is a prefix of at most ten characters |
| Marine.Round2 | js/marine.js:55 | rounding to two decimals moves the value by at most half a hundredth |
| Marine.DayOrderMembers | js/marine.js:29-37 | the grouped dates are exactly the dates of the time stamps |
| Marine.DayOrderStep | js/marine.js:33-36 | a time stamp adds its date to the order only when the date is new |
| Marine.GroupingStep | js/marine.js:31-37 | one pass of the grouping loop keeps the groups and the order equal to those of the stamps seen so far |
| Marine.DayOrderDistinct | js/marine.js:29-37 | no date is grouped twice |
| Marine.GroupOfSamples | js/marine.js:31-37 | a day's group holds only samples of that date, each with its own time and height, in time-stamp order |
| Marine.EventAt | js/marine.js:43-67 | an interior sample yields at most one event |
| Marine.PeaksOfDay | js/marine.js:41-69 | the peak-detection loop yields the day's events |
| Marine.GroupByDay | js/marine.js:29-37 | the grouping loop yields one group per date, in order of first appearance |
| Marine.ExtractTideTimes | js/marine.js:12-79 | the method yields the tide days of the specification function |
| Marine.GroupsUpToGroupOf | js/marine.js:31-37 | the map the loop builds holds, for each date, exactly that date's samples, and a date without an entry has no samples |
| Marine.TideDaysOfFromDates | js/marine.js:70-75 | each reported day has an event and is one of the grouped dates |
| Marine.TideDaysOfDistinct | js/marine.js:40-76 | distinct dates give distinct reported days |
| Marine.TideDaysShape | js/marine.js:12-79 | reported days are distinct and each has at least one event |
| Marine.TideDaysFromInput | js/marine.js:31-32 | each reported day is the date of some input time stamp |
| Marine.TideDaysOfNothing | js/marine.js:13-26 | missing or empty input gives no days |
| Marine.EventAtCharacterised | js/marine.js:49-67 | high water iff strict local maximum, low iff strict local minimum; never both; nothing next to a null |
| Marine.EventsUpToSound | js/marine.js:43-68 | every event comes from a strict peak of its kind |
| Marine.EventsUpToComplete | js/marine.js:43-68 | every strict peak is reported, with its kind and rounded height |
| Marine.EventsUpToOrdered | js/marine.js:43-68 | the events come from interior samples in strictly increasing order, one per sample at most, each with its sample's time stamp |
| Marine.DayWindowHasDatePrefix | js/marine.js:101-105 | a stamp between "dateT00:00" and "dateT23:59" starts with the date |
| Marine.DayWindowContainsDay | js/marine.js:101-105 | every well-formed "THH:MM" stamp of the date lies in its window |
| Marine.DayPeriodValues | js/marine.js:103-106 | the kept wave periods are no more than the entries scanned |
| Marine.MeanToTenth | js/marine.js:108-111 | no average exactly when no value is kept; otherwise a whole number of tenths within 0.05 of the mean |
| Marine.DayPeriodValuesPrefix | js/marine.js:103-106 | scanning fewer hourly entries keeps a prefix of the day's values |
| Marine.DayPeriodValuesComplete | js/marine.js:103-106 | every non-null wave period in the day's window is kept, after all kept values of earlier entries |
| Marine.WavePeriodAverage | js/marine.js:99-112 | no average without hourly periods or time stamps; otherwise the rounded mean of the day's values |
| Marine.MeanToTenthBounds | js/marine.js:108-111 | the rounded mean lies within the values' range, widened by half a tenth |
| Marine.ParseMarineDaily | js/marine.js:86-121 | nothing without daily dates; otherwise one summary per date, in order, with that index's maximum wave height and direction and the date's average wave period |
| Marine.DayPeriodValuesFromDate | js/marine.js:100-106 | a day's average uses only non-null entries stamped with that date |
| FishFilter.WaterTablesDisjoint | fishing-app/js/fish-ui.js:7-8 | no water type is in both tables |
| FishFilter.AnyListed | fishing-app/js/fish-ui.js:21-22 | `some(t => table.indexOf(t) !== -1)` iff some element is in the table |
| FishFilter.MatchesWaterType | fishing-app/js/fish-ui.js:18-24 | true with both toggles off; false without `waterTypes`; otherwise iff some type is in an enabled toggle's table |
| FishFilter.BothWaterTogglesAreUnion | fishing-app/js/fish-ui.js:21-23 | with both toggles on, a fish passes iff it passes one of them alone |
| FishFilter.SingleToggleExcludesOtherWater | fishing-app/js/fish-ui.js:21-23 | a fresh-water-only fish fails the salt-water toggle alone, and vice versa |
| FishFilter.MatchesSeason | fishing-app/js/fish-ui.js:32-37 | true when disabled; false without `bestMonths`; otherwise iff the current month is listed |
| FishFilter.MatchesEdibility | fishing-app/js/fish-ui.js:45-49 | true when disabled; otherwise iff there is an edibility rating of at least 3 |
| FishFilter.IndexOfFrom | fishing-app/js/fish-ui.js:492-495 | `indexOf` is the first occurrence at or after `from`, or -1 exactly when there is none |
| FishFilter.ContainsIff | fishing-app/js/fish-ui.js:492-495 | `indexOf(sub) !== -1` iff sub occurs at some position |
| FishFilter.ContainsTrivial | fishing-app/js/fish-ui.js:491-492 | every string contains the empty string and itself |
| FishFilter.NicknameMatches | fishing-app/js/fish-ui.js:495 | true iff some lower-cased nickname contains the search text |
| FishFilter.Filter | fishing-app/js/fish-ui.js:489-501 | no longer than the input; a fish is in the result iff it is in the input and passes all five conditions |
| FishFilter.FilterAppend | fishing-app/js/fish-ui.js:489-501 | filtering a concatenation is the concatenation of the filtered parts, so order is kept |
| FishFilter.FilterIsSubsequence | fishing-app/js/fish-ui.js:489-501 | the filtered list is an order-preserving subsequence of the input |
| FishFilter.FilterIdempotent | fishing-app/js/fish-ui.js:489-501 | filtering twice equals filtering once |
| FishFilter.AnyFilterActive | fishing-app/js/fish-ui.js:507-510 | a filter is active iff the state differs from the initial (reset) state |
| FishFilter.InactiveSelectsAll | fishing-app/js/fish-ui.js:490-498 | with no filter active every fish passes, whatever the month |
| FishFilter.InactiveFilterKeepsAll | fishing-app/js/fish-ui.js:489-501 | with no filter active the result equals the input |
| FishFilter.FormatResultCount | fishing-app/js/fish-ui.js:56-60 | "Keine Arten gefunden" iff 0; "1 Art gefunden" iff 1; the number and " Arten gefunden" from 2 on |
| FishFilter.FormatResultCountInjective | fishing-app/js/fish-ui.js:56-60 | different counts get different wording |
| FishFilter.Trim | fishing-app/js/fish-ui.js:486 | `trim()` is a slice with only whitespace cut off either side, starting and ending with non-whitespace |
| FishFilter.Flip | fishing-app/js/fish-ui.js:376-382 | a toggle click flips its own flag and nothing else |
| FishFilter.FlipTwice | fishing-app/js/fish-ui.js:376-382 | two clicks restore the state |
| FishFilter.ApplyFilter | fishing-app/js/fish-ui.js:485-514 | stores the trimmed, lower-cased input and the category. The list is the selected fish as an ordered subsequence, with its count text. The reset button shows iff the state is not the initial one, and the list is the whole input when it is hidden |
| FishFilter.ResetShowsEverything | fishing-app/js/fish-ui.js:418-437 | after a reset the whole list is shown with its full count, and the reset button hides |
| FishFilter.ToggleOnShowsReset | fishing-app/js/fish-ui.js:507-511 | switching a toggle on shows the reset button |

## Left out

- Files not part of this model: `app.js` (rendering, routing, timers, orchestration), `storage.js` (IndexedDB), `api.js` (HTTP, geolocation, including its pressure-trend arithmetic), `sw.js`, `map.js`, `tidal-chart.js`, `sparkline.js`, `generate-fish-svgs.js`.
- The moon's illumination uses `Math.cos`. Trigonometry is outside the model, so `MoonData` has no illumination field.
- The wall clock is not read. These are parameters instead:
  - The current local hour, the epoch milliseconds, and the ISO hour and day strings (`CatchScore.Now`).
  - The current month of the season filter.
  - Parsing an ISO time stamp to a local hour (`hourOf`) or an instant (`instantOf`).
  - `Date` objects become their local calendar fields (`Lunar.LocalDateTime`).
- Time zones and daylight-saving time are not modelled. Local fields are taken as given.
- `toLowerCase` is a parameter (`lower`). Unicode case mapping is not modelled.
- `trim` is modelled with the ECMAScript whitespace and line-terminator set.
- Numbers are exact reals, not IEEE doubles. For example, the weight tables sum to exactly 1, and `Math.round` of an exact half always rounds up. Rounding error of double arithmetic is not modelled.
- The weather fields temperature, pressure trend, wind speed, cloud cover and precipitation are always present finite reals (`CatchScore.Weather`). In the source an absent or NaN field flows on as NaN: `cloudCoverScore(undefined)` is NaN, so the overall score is NaN and `getCatchRating` falls through to its last tier, "Schlecht". That path is not modelled.
- Period start and end are kept as clock values, not "HH:MM" strings. `Lunar.ClockText` proves that the string form reads back to the same value, so the two forms are interchangeable.
- `isCoastal` is a boolean. In the source, `marineData && marineData.isCoastal` can be an object or `undefined`, which the caller only tests for truthiness.
- The new-weights flag (`typeof CATCH_WEIGHTS_INLAND !== 'undefined'`) is a parameter. Both branches are modelled.
- `debounce`, `formatDate`, `formatTime` and `formatShortDate` (locale formatting) are outside the model.
- The DOM is outside the model: button classes, `aria-pressed`, the result-counter element and the `onFilter` callback. The filter's outcome is returned as a value (`FishFilter.FilterView`).
- The weather-code icon strings and the moon-phase emoji are carried as data but nothing is proved about them.
- Utils.FixedOne and Utils.FixedOneNonNegative: round the exact real number to tenths with ties upwards in magnitude. The rounding of the nearest binary double that `toFixed` performs is not modelled.
- Utils.FormatWindDirection: its own contract covers only the non-finite case. The finite case is stated by `Utils.WindDirectionSameIndex`, and only from -22.5° on, where the index is not negative.
- Marine.EventAt and Marine.DayPeriodValues: their own contracts are only size facts. What EventAt yields is stated by `Marine.EventAtCharacterised`. Which values DayPeriodValues keeps, and in what order, is stated by `Marine.DayPeriodValuesFromDate` and `Marine.DayPeriodValuesComplete`.
- FactorScores.PressureScore: the trend wording is compared only by its text, not by its icon.
