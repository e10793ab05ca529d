/**
 * The best fishing time of a day: every hour 0..23 collects points from the
 * solunar periods that touch it and from the hours around sunrise, sunset and
 * each tide; the answer is the earliest block of two to six hours with the
 * highest average.
 */
module BestTime {
  import opened Wrappers
  import opened JsMath
  import opened Lunar
  import opened Solunar
  import opened Marine

  /** `((h % 24) + 24) % 24` with the truncating `%`: the hour of the day. */
  function WrapHour(h: int): (r: int)
    ensures 0 <= r < 24 && r == h % 24
  {
    IntRem(IntRem(h, 24) + 24, 24)
  }

  // ------------------------------------------------------------------
  // The hour profile
  // ------------------------------------------------------------------

  function PeriodPoints(p: Period): int {
    if p.kind == Major then 40 else 20
  }

  /** A clock reading as a decimal hour, as parsed back from its "HH:MM" text. */
  function DecimalHour(c: Clock): real {
    c.hour as real + c.minute as real / 60.0
  }

  /**
   * Hour `h` gets a period's points when it lies between the floor of the start
   * and the ceiling of the end, or, for a period past midnight, after the start
   * or before the end.
   */
  predicate Covers(p: Period, h: int) {
    var startHour := DecimalHour(p.start);
    var endHour := DecimalHour(p.end);
    (h >= startHour.Floor && h <= Ceil(endHour)) ||
    (endHour < startHour && (h >= startHour.Floor || h <= Ceil(endHour)))
  }

  /** A period that ends on a whole hour also gives its points to the hour starting then. */
  lemma CoversHourAfterEnd(p: Period)
    requires p.Valid() && p.end.minute == 0
    ensures Covers(p, p.end.hour)
  {
    assert DecimalHour(p.end) == p.end.hour as real;
  }

  /** Within one day, a period covers exactly the hours from its start hour up to the hour its end falls into, rounded up. */
  lemma CoversWithinDay(p: Period, h: int)
    requires p.Valid() && DecimalHour(p.start) <= DecimalHour(p.end)
    ensures Covers(p, h) <==>
      p.start.hour <= h <= p.end.hour + (if p.end.minute > 0 then 1 else 0)
  {
    var s := DecimalHour(p.start);
    var e := DecimalHour(p.end);
    assert s.Floor == p.start.hour;
    if p.end.minute > 0 {
      assert p.end.hour as real < e < (p.end.hour + 1) as real;
      assert Ceil(e) == p.end.hour + 1;
    } else {
      assert Ceil(e) == p.end.hour;
    }
  }

  /** The points all the periods give hour `h`. */
  function PeriodPointsAt(ps: seq<Period>, h: int): (n: int)
    ensures n >= 0
  {
    if |ps| == 0 then 0
    else PeriodPointsAt(ps[..|ps| - 1], h) + (if Covers(ps[|ps| - 1], h) then PeriodPoints(ps[|ps| - 1]) else 0)
  }

  /** Hour `h` is one of the three hours around `center`, wrapping at midnight. */
  predicate InBand(center: int, h: int) {
    h == WrapHour(center - 1) || h == WrapHour(center) || h == WrapHour(center + 1)
  }

  function BandPoints(center: Option<int>, points: int, h: int): int {
    if center.Some? && InBand(center.value, h) then points else 0
  }

  /** The points the tides give hour `h`: 15 for each tide within an hour of it. */
  function TidePointsAt(tideHours: seq<Option<int>>, h: int): (n: int)
    ensures n >= 0
  {
    if |tideHours| == 0 then 0
    else TidePointsAt(tideHours[..|tideHours| - 1], h) + BandPoints(tideHours[|tideHours| - 1], 15, h)
  }

  /**
   * The local hour of a sunrise or sunset text, or None when the text is absent
   * or empty or does not parse. `hourOf` is the local-time reading of a date text.
   */
  function SunHour(sun: Option<string>, hourOf: string -> Option<int>): Option<int> {
    if sun.Some? && |sun.value| > 0 then hourOf(sun.value) else None
  }

  /** The local hour of each tide, in order; none for an absent or empty list. */
  function TideHours(tides: Option<seq<TideEvent>>, hourOf: string -> Option<int>): (r: seq<Option<int>>)
    ensures tides.None? ==> r == []
    ensures tides.Some? ==> |r| == |tides.value|
    ensures tides.Some? ==> forall i :: 0 <= i < |r| ==> r[i] == hourOf(tides.value[i].time)
  {
    if tides.None? then [] else seq(|tides.value|, i requires 0 <= i < |tides.value| => hourOf(tides.value[i].time))
  }

  /** The points of the periods, sunrise and sunset for hour `h`. */
  function SunAndPeriodPointsAt(periods: Option<seq<Period>>, sunrise: Option<string>, sunset: Option<string>,
                                hourOf: string -> Option<int>, h: int): (n: int)
    ensures n >= 0
  {
    PeriodPointsAt(periods.GetOr([]), h) +
    BandPoints(SunHour(sunrise, hourOf), 25, h) + BandPoints(SunHour(sunset, hourOf), 25, h)
  }

  /** The points of every hour of the day. */
  function HourProfile(periods: Option<seq<Period>>, sunrise: Option<string>, sunset: Option<string>,
                       tides: Option<seq<TideEvent>>, hourOf: string -> Option<int>): (p: seq<int>)
    ensures |p| == 24
    ensures forall h :: 0 <= h < 24 ==>
      p[h] == SunAndPeriodPointsAt(periods, sunrise, sunset, hourOf, h) + TidePointsAt(TideHours(tides, hourOf), h)
    ensures forall h :: 0 <= h < 24 ==> p[h] >= 0
  {
    seq(24, h => SunAndPeriodPointsAt(periods, sunrise, sunset, hourOf, h) + TidePointsAt(TideHours(tides, hourOf), h))
  }

  /** Sunrise at 23:xx also favours midnight, and sunrise at 0:xx favours 23:00. */
  lemma BandWrapsAtMidnight()
    ensures BandPoints(Some(23), 25, 0) == 25 && BandPoints(Some(0), 25, 23) == 25
    ensures BandPoints(Some(23), 25, 21) == 0
  {
    assert WrapHour(24) == 0 && WrapHour(-1) == 23;
    assert WrapHour(22) == 22 && WrapHour(23) == 23;
  }

  // ------------------------------------------------------------------
  // The window search
  // ------------------------------------------------------------------

  /** A block of `len` hours starting at `start`, as the search tries them. */
  predicate ValidWindow(start: int, len: int) {
    0 <= start < 24 && 2 <= len <= 6 && start + len <= 24
  }

  /** The order of the search: by start hour, then by length. */
  predicate Precedes(s1: int, l1: int, s2: int, l2: int) {
    s1 < s2 || (s1 == s2 && l1 < l2)
  }

  /** The sum of the `len` scores from hour `start` on. */
  function WindowSum(p: seq<int>, start: int, len: int): int
    requires 0 <= start && 0 <= len && start + len <= |p|
    decreases len
  {
    if len == 0 then 0 else WindowSum(p, start, len - 1) + p[start + len - 1]
  }

  lemma {:induction false} WindowSumNonNegative(p: seq<int>, start: int, len: int)
    requires 0 <= start && 0 <= len && start + len <= |p|
    requires forall i :: 0 <= i < |p| ==> p[i] >= 0
    ensures WindowSum(p, start, len) >= 0
    decreases len
  {
    if len > 0 {
      WindowSumNonNegative(p, start, len - 1);
    }
  }

  lemma {:induction false} WindowSumOfZeros(p: seq<int>, start: int, len: int)
    requires 0 <= start && 0 <= len && start + len <= |p|
    requires forall i :: 0 <= i < |p| ==> p[i] == 0
    ensures WindowSum(p, start, len) == 0
    decreases len
  {
    if len > 0 {
      WindowSumOfZeros(p, start, len - 1);
    }
  }

  /** `sum / len` for the lengths the search uses, one division per length so that comparisons stay linear. */
  function Avg(total: int, len: int): (a: real)
    requires 2 <= len <= 6
    ensures total >= 0 ==> a >= 0.0
    ensures total == 0 ==> a == 0.0
  {
    if len == 2 then total as real / 2.0
    else if len == 3 then total as real / 3.0
    else if len == 4 then total as real / 4.0
    else if len == 5 then total as real / 5.0
    else total as real / 6.0
  }

  function WindowAvg(p: seq<int>, start: int, len: int): real
    requires |p| == 24 && ValidWindow(start, len)
  {
    Avg(WindowSum(p, start, len), len)
  }

  /** The window has the highest average, and every window tried before it has a lower one. */
  ghost predicate EarliestBest(p: seq<int>, start: int, len: int)
    requires |p| == 24
  {
    ValidWindow(start, len) &&
    forall s, l {:trigger WindowAvg(p, s, l)} :: ValidWindow(s, l) ==>
      WindowAvg(p, s, l) <= WindowAvg(p, start, len) &&
      (Precedes(s, l, start, len) ==> WindowAvg(p, s, l) < WindowAvg(p, start, len))
  }

  /** The earliest best window beats every other window, strictly every earlier one. */
  lemma BestBeats(p: seq<int>, s: int, l: int, s2: int, l2: int)
    requires |p| == 24 && EarliestBest(p, s, l) && ValidWindow(s2, l2)
    ensures WindowAvg(p, s2, l2) <= WindowAvg(p, s, l)
    ensures Precedes(s2, l2, s, l) ==> WindowAvg(p, s2, l2) < WindowAvg(p, s, l)
  {
  }

  /** There is only one earliest best window. */
  lemma EarliestBestUnique(p: seq<int>, s1: int, l1: int, s2: int, l2: int)
    requires |p| == 24 && EarliestBest(p, s1, l1) && EarliestBest(p, s2, l2)
    ensures s1 == s2 && l1 == l2
  {
    if Precedes(s1, l1, s2, l2) {
      BestBeats(p, s1, l1, s2, l2);
      BestBeats(p, s2, l2, s1, l1);
      assert false;
    } else if Precedes(s2, l2, s1, l1) {
      BestBeats(p, s1, l1, s2, l2);
      BestBeats(p, s2, l2, s1, l1);
      assert false;
    }
  }

  /** On a day without any points, the first two hours are the best window. */
  lemma QuietDayIsMidnight(p: seq<int>)
    requires |p| == 24 && forall h :: 0 <= h < 24 ==> p[h] == 0
    ensures EarliestBest(p, 0, 2)
  {
    forall s, l | ValidWindow(s, l)
      ensures WindowAvg(p, s, l) == 0.0
    {
      WindowSumOfZeros(p, s, l);
    }
  }

  /**
   * The search so far: every window tried before (`start`, `len`) has an average
   * of at most the best one's, and below it when tried before the best.
   */
  ghost predicate SearchedBefore(p: seq<int>, start: int, len: int, bestStart: int, bestLen: int, bestAvg: real)
    requires |p| == 24
  {
    forall s, l {:trigger WindowAvg(p, s, l)} :: ValidWindow(s, l) && Precedes(s, l, start, len) ==>
      WindowAvg(p, s, l) <= bestAvg && (Precedes(s, l, bestStart, bestLen) ==> WindowAvg(p, s, l) < bestAvg)
  }

  /** Trying one more window keeps the search sound, whether it replaces the best or not. */
  lemma SearchStep(p: seq<int>, start: int, len: int, bestStart: int, bestLen: int, bestAvg: real)
    requires |p| == 24 && ValidWindow(start, len)
    requires SearchedBefore(p, start, len, bestStart, bestLen, bestAvg)
    requires !Precedes(start, len, bestStart, bestLen)
    ensures WindowAvg(p, start, len) > bestAvg ==>
      SearchedBefore(p, start, len + 1, start, len, WindowAvg(p, start, len))
    ensures WindowAvg(p, start, len) <= bestAvg ==>
      SearchedBefore(p, start, len + 1, bestStart, bestLen, bestAvg)
  {
  }

  /** Once no longer window fits, the next start hour begins. */
  lemma SearchNextStart(p: seq<int>, start: int, len: int, bestStart: int, bestLen: int, bestAvg: real)
    requires |p| == 24 && 0 <= start < 24 && !(len <= 6 && start + len <= 24)
    requires SearchedBefore(p, start, len, bestStart, bestLen, bestAvg)
    ensures SearchedBefore(p, start + 1, 2, bestStart, bestLen, bestAvg)
  {
  }

  /**
   * The outer loop of the search: every start hour in turn; a window replaces
   * the best only with a strictly higher average, so the earliest of equal
   * windows stays.
   */
  method FindBestWindow(hourScores: array<int>) returns (bestStart: int, bestEnd: int)
    requires hourScores.Length == 24
    requires forall h :: 0 <= h < 24 ==> hourScores[h] >= 0
    ensures EarliestBest(hourScores[..], bestStart, bestEnd - bestStart + 1)
  {
    bestStart := 0;
    bestEnd := 1;
    var bestAvg := 0.0;

    var start := 0;
    while start < 24
      invariant 0 <= start <= 24
      invariant ValidWindow(bestStart, bestEnd - bestStart + 1)
      invariant start > 0 ==> bestAvg == WindowAvg(hourScores[..], bestStart, bestEnd - bestStart + 1)
      invariant start == 0 ==> bestStart == 0 && bestEnd == 1 && bestAvg == 0.0
      invariant start < 24 ==> !Precedes(start, 2, bestStart, bestEnd - bestStart + 1)
      invariant SearchedBefore(hourScores[..], start, 2, bestStart, bestEnd - bestStart + 1, bestAvg)
    {
      bestStart, bestEnd, bestAvg := TryLengths(hourScores, start, bestStart, bestEnd, bestAvg);
      start := start + 1;
    }
  }

  /** The middle loop of the search: the windows of two to six hours from `start` that fit the day. */
  method TryLengths(hourScores: array<int>, start: int, bestStart0: int, bestEnd0: int, bestAvg0: real)
    returns (bestStart: int, bestEnd: int, bestAvg: real)
    requires hourScores.Length == 24 && 0 <= start < 24
    requires forall h :: 0 <= h < 24 ==> hourScores[h] >= 0
    requires ValidWindow(bestStart0, bestEnd0 - bestStart0 + 1)
    requires start > 0 ==> bestAvg0 == WindowAvg(hourScores[..], bestStart0, bestEnd0 - bestStart0 + 1)
    requires start == 0 ==> bestStart0 == 0 && bestEnd0 == 1 && bestAvg0 == 0.0
    requires !Precedes(start, 2, bestStart0, bestEnd0 - bestStart0 + 1)
    requires SearchedBefore(hourScores[..], start, 2, bestStart0, bestEnd0 - bestStart0 + 1, bestAvg0)
    ensures ValidWindow(bestStart, bestEnd - bestStart + 1)
    ensures bestAvg == WindowAvg(hourScores[..], bestStart, bestEnd - bestStart + 1)
    ensures start + 1 < 24 ==> !Precedes(start + 1, 2, bestStart, bestEnd - bestStart + 1)
    ensures SearchedBefore(hourScores[..], start + 1, 2, bestStart, bestEnd - bestStart + 1, bestAvg)
  {
    ghost var p := hourScores[..];
    bestStart, bestEnd, bestAvg := bestStart0, bestEnd0, bestAvg0;
    var len := 2;
    while len <= 6 && start + len <= 24
      invariant LengthSearch(p, start, len, bestStart, bestEnd, bestAvg)
      decreases 7 - len
    {
      var end := start + len - 1;
      var sum := WindowTotal(hourScores, start, end);
      var avg := Avg(sum, len);
      WindowAvgOf(p, start, len, sum);
      LengthStep(p, start, len, bestStart, bestEnd, bestAvg, avg);
      if avg > bestAvg {
        bestAvg := avg;
        bestStart := start;
        bestEnd := end;
      }
      len := len + 1;
    }
    SearchNextStart(p, start, len, bestStart, bestEnd - bestStart + 1, bestAvg);
  }

  /** The invariant of the middle loop: the best window so far and the soundness of the search up to (`start`, `len`). */
  ghost predicate LengthSearch(p: seq<int>, start: int, len: int, bestStart: int, bestEnd: int, bestAvg: real)
    requires |p| == 24
  {
    && 2 <= len <= 7
    && ValidWindow(bestStart, bestEnd - bestStart + 1)
    && (start > 0 || len > 2 ==> bestAvg == WindowAvg(p, bestStart, bestEnd - bestStart + 1))
    && (start == 0 && len == 2 ==> bestStart == 0 && bestEnd == 1 && bestAvg == 0.0)
    && !Precedes(start, len, bestStart, bestEnd - bestStart + 1)
    && bestStart <= start
    && SearchedBefore(p, start, len, bestStart, bestEnd - bestStart + 1, bestAvg)
  }

  /** One pass of the middle loop keeps its invariant, whether the window replaces the best or not. */
  lemma LengthStep(p: seq<int>, start: int, len: int, bestStart: int, bestEnd: int, bestAvg: real, avg: real)
    requires |p| == 24 && 0 <= start && len <= 6 && start + len <= 24
    requires LengthSearch(p, start, len, bestStart, bestEnd, bestAvg)
    requires avg == WindowAvg(p, start, len) >= 0.0
    ensures avg > bestAvg ==> LengthSearch(p, start, len + 1, start, start + len - 1, avg)
    ensures avg <= bestAvg ==> LengthSearch(p, start, len + 1, bestStart, bestEnd, bestAvg)
  {
    SearchStep(p, start, len, bestStart, bestEnd - bestStart + 1, bestAvg);
  }

  /** The total of a window gives its average, which is never negative. */
  lemma WindowAvgOf(p: seq<int>, start: int, len: int, sum: int)
    requires |p| == 24 && ValidWindow(start, len) && forall h :: 0 <= h < 24 ==> p[h] >= 0
    requires sum == WindowSum(p, start, len)
    ensures Avg(sum, len) == WindowAvg(p, start, len) >= 0.0
  {
    WindowSumNonNegative(p, start, len);
  }

  /** The innermost loop: the sum of the scores of hours `start` through `end`. */
  method WindowTotal(hourScores: array<int>, start: int, end: int) returns (sum: int)
    requires 0 <= start <= end < hourScores.Length
    ensures sum == WindowSum(hourScores[..], start, end - start + 1)
  {
    sum := 0;
    var h := start;
    while h <= end
      invariant start <= h <= end + 1
      invariant sum == WindowSum(hourScores[..], start, h - start)
    {
      sum := sum + hourScores[h];
      h := h + 1;
    }
  }

  // ------------------------------------------------------------------
  // Filling the profile
  // ------------------------------------------------------------------

  /** The loop over the 24 hours that gives one period's points to the hours it covers. */
  method AddPeriod(hourScores: array<int>, period: Period)
    requires hourScores.Length == 24
    modifies hourScores
    ensures forall h :: 0 <= h < 24 ==>
      hourScores[h] == old(hourScores[h]) + (if Covers(period, h) then PeriodPoints(period) else 0)
  {
    var points := PeriodPoints(period);
    var h := 0;
    while h < 24
      invariant 0 <= h <= 24
      invariant forall j :: 0 <= j < 24 ==>
        hourScores[j] == old(hourScores[j]) + (if j < h && Covers(period, j) then points else 0)
    {
      if Covers(period, h) {
        hourScores[h] := hourScores[h] + points;
      }
      h := h + 1;
    }
  }

  /** The loop over the hour before, the hour of and the hour after `center`, wrapping at midnight. */
  method AddBand(hourScores: array<int>, center: int, points: int)
    requires hourScores.Length == 24
    modifies hourScores
    ensures forall j :: 0 <= j < 24 ==>
      hourScores[j] == old(hourScores[j]) + (if InBand(center, j) then points else 0)
  {
    var h := center - 1;
    while h <= center + 1
      invariant center - 1 <= h <= center + 2
      invariant forall j :: 0 <= j < 24 ==>
        hourScores[j] == old(hourScores[j]) + (if BandBefore(center, h, j) then points else 0)
    {
      BandStep(center, h);
      var hour := WrapHour(h);
      hourScores[hour] := hourScores[hour] + points;
      h := h + 1;
    }
  }

  /** Hour `j` is one of the band hours before `h`. */
  predicate BandBefore(center: int, h: int, j: int) {
    (center - 1 < h && j == WrapHour(center - 1)) ||
    (center < h && j == WrapHour(center)) ||
    (center + 1 < h && j == WrapHour(center + 1))
  }

  /** The three band hours are distinct, so the loop adds to each exactly once. */
  lemma BandStep(center: int, h: int)
    requires center - 1 <= h <= center + 1
    ensures !BandBefore(center, h, WrapHour(h))
    ensures forall j :: BandBefore(center, h + 1, j) <==> BandBefore(center, h, j) || j == WrapHour(h)
  {
    assert WrapHour(center - 1) != WrapHour(center) && WrapHour(center) != WrapHour(center + 1) &&
           WrapHour(center - 1) != WrapHour(center + 1);
  }

  datatype BestWindow = BestWindow(start: string, end: string)

  /**
   * `calculateBestFishingTime`: 40 points per major and 20 per minor period
   * covering an hour, 25 for the hours around sunrise and around sunset, 15 for
   * the hours around each tide; the answer is the earliest best window, from
   * its first hour to the hour after its last.
   */
  method CalculateBestFishingTime(periods: Option<seq<Period>>, sunrise: Option<string>, sunset: Option<string>,
                                  tides: Option<seq<TideEvent>>, hourOf: string -> Option<int>)
    returns (r: BestWindow)
    ensures exists s, l :: (EarliestBest(HourProfile(periods, sunrise, sunset, tides, hourOf), s, l) &&
      r == BestWindow(ClockText(Clock(s, 0)), ClockText(Clock((s + l) % 24, 0))))
  {
    var hourScores := ScoreHours(periods, sunrise, sunset, tides, hourOf);
    var bestStart, bestEnd := FindBestWindow(hourScores);
    WindowBounds(bestStart, bestEnd - bestStart + 1);
    r := BestWindow(ClockText(FormatDecimalHour(bestStart as real)), ClockText(FormatDecimalHour((bestEnd + 1) as real)));
  }

  /** The start hour and the hour after the window, as `formatDecimalHour` renders them. */
  lemma WindowBounds(s: int, l: int)
    requires ValidWindow(s, l)
    ensures FormatDecimalHour(s as real) == Clock(s, 0)
    ensures FormatDecimalHour((s + l - 1 + 1) as real) == Clock((s + l) % 24, 0)
  {
    FormatDecimalHourExact(Clock(s, 0));
    assert s as real + 0 as real / 60.0 == s as real;
    FormatDecimalHourShift(s as real, l);
    assert s as real + l as real == (s + l - 1 + 1) as real;
  }

  /** The scoring part of `calculateBestFishingTime`: the 24 hour scores. */
  method ScoreHours(periods: Option<seq<Period>>, sunrise: Option<string>, sunset: Option<string>,
                    tides: Option<seq<TideEvent>>, hourOf: string -> Option<int>)
    returns (hourScores: array<int>)
    ensures fresh(hourScores) && hourScores.Length == 24
    ensures hourScores[..] == HourProfile(periods, sunrise, sunset, tides, hourOf)
  {
    hourScores := new int[24](_ => 0);

    if periods.Some? {
      AddPeriods(hourScores, periods.value);
    }
    AddSunBand(hourScores, SunHour(sunrise, hourOf));
    AddSunBand(hourScores, SunHour(sunset, hourOf));
    assert forall h :: 0 <= h < 24 ==> hourScores[h] == SunAndPeriodPointsAt(periods, sunrise, sunset, hourOf, h);

    AddTides(hourScores, TideHours(tides, hourOf));
    assert forall h :: 0 <= h < 24 ==> hourScores[h] == HourProfile(periods, sunrise, sunset, tides, hourOf)[h];
  }

  /** The loop over the solunar periods: each period gives its points to the hours it covers. */
  method AddPeriods(hourScores: array<int>, ps: seq<Period>)
    requires hourScores.Length == 24
    modifies hourScores
    ensures forall h :: 0 <= h < 24 ==> hourScores[h] == old(hourScores[h]) + PeriodPointsAt(ps, h)
  {
    var i := 0;
    while i < |ps|
      invariant 0 <= i <= |ps|
      invariant forall h :: 0 <= h < 24 ==> hourScores[h] == old(hourScores[h]) + PeriodPointsAt(ps[..i], h)
    {
      assert ps[..i + 1][..i] == ps[..i];
      AddPeriod(hourScores, ps[i]);
      i := i + 1;
    }
    assert ps[..|ps|] == ps;
  }

  /** A known sunrise or sunset hour gives 25 points to the hour before, the hour of and the hour after it. */
  method AddSunBand(hourScores: array<int>, sunHour: Option<int>)
    requires hourScores.Length == 24
    modifies hourScores
    ensures forall h :: 0 <= h < 24 ==> hourScores[h] == old(hourScores[h]) + BandPoints(sunHour, 25, h)
  {
    if sunHour.Some? {
      AddBand(hourScores, sunHour.value, 25);
    }
  }

  /** The loop over the tides: each tide with a readable time favours the hours around it. */
  method AddTides(hourScores: array<int>, tideHours: seq<Option<int>>)
    requires hourScores.Length == 24
    modifies hourScores
    ensures forall h :: 0 <= h < 24 ==> hourScores[h] == old(hourScores[h]) + TidePointsAt(tideHours, h)
  {
    var k := 0;
    while k < |tideHours|
      invariant 0 <= k <= |tideHours|
      invariant forall h :: 0 <= h < 24 ==> hourScores[h] == old(hourScores[h]) + TidePointsAt(tideHours[..k], h)
    {
      assert tideHours[..k + 1][..k] == tideHours[..k];
      if tideHours[k].Some? {
        AddBand(hourScores, tideHours[k].value, 15);
      }
      k := k + 1;
    }
    assert tideHours[..|tideHours|] == tideHours;
  }

  /** A day without any points yields the window 00:00 to 02:00. */
  lemma QuietDayAnswer(periods: Option<seq<Period>>, sunrise: Option<string>, sunset: Option<string>,
                       tides: Option<seq<TideEvent>>, hourOf: string -> Option<int>, r: BestWindow)
    requires forall h :: 0 <= h < 24 ==> HourProfile(periods, sunrise, sunset, tides, hourOf)[h] == 0
    requires exists s, l :: (EarliestBest(HourProfile(periods, sunrise, sunset, tides, hourOf), s, l) &&
      r == BestWindow(ClockText(Clock(s, 0)), ClockText(Clock((s + l) % 24, 0))))
    ensures r == BestWindow("00:00", "02:00")
  {
    var p := HourProfile(periods, sunrise, sunset, tides, hourOf);
    var s, l :| EarliestBest(p, s, l) && r == BestWindow(ClockText(Clock(s, 0)), ClockText(Clock((s + l) % 24, 0)));
    QuietDayIsMidnight(p);
    EarliestBestUnique(p, s, l, 0, 2);
    assert s == 0 && (s + l) % 24 == 2;
    MidnightTexts();
  }

  lemma MidnightTexts()
    ensures ClockText(Clock(0, 0)) == "00:00" && ClockText(Clock(2, 0)) == "02:00"
  {
  }
}
