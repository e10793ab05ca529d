/**
 * The per-factor scores (0..100) that the catch forecast weighs: pressure
 * trend, time of day, cloud cover, UV index, visibility, tide timing and wave height.
 */
module FactorScores {
  import opened Wrappers
  import opened JsMath
  import opened Utils
  import opened Marine

  /**
   * `pressureScore`: falling pressure is best, rising pressure worst. It uses
   * the same bands as the trend wording.
   */
  function PressureScore(trend: real): (r: int)
    ensures r in {90, 70, 40, 50, 60}
    ensures r == 90 <==> PressureTrendText(trend).text == "stark fallend"
    ensures r == 70 <==> PressureTrendText(trend).text == "fallend"
    ensures r == 40 <==> PressureTrendText(trend).text == "stark steigend"
    ensures r == 50 <==> PressureTrendText(trend).text == "steigend"
    ensures r == 60 <==> PressureTrendText(trend).text == "stabil"
  {
    if trend < -2.0 then 90
    else if trend < -0.5 then 70
    else if trend > 2.0 then 40
    else if trend > 0.5 then 50
    else 60
  }

  /** Among falling trends the steeper fall scores higher; among rising ones the steeper rise scores lower. */
  lemma PressureScoreOrder(a: real, b: real)
    requires a <= b
    ensures b <= 0.5 ==> PressureScore(a) >= PressureScore(b)
    ensures a >= -0.5 ==> PressureScore(a) >= PressureScore(b)
  {
  }

  function Abs(x: real): (r: real)
    ensures r >= 0.0 && (r == x || r == -x)
  {
    if x < 0.0 then -x else x
  }

  /**
   * `timeOfDayScore`: 100 within an hour of sunrise, 70 within two; then the
   * same for sunset; 50 at night, 40 by day. Sunrise and sunset default to
   * 6:00 and 20:00 when the weather lacks them; all hours are decimal local hours.
   */
  function TimeOfDayScore(currentHour: real, sunrise: Option<real>, sunset: Option<real>): (r: int)
    ensures r in {100, 70, 50, 40}
    ensures var dawn := Abs(currentHour - sunrise.GetOr(6.0));
      var dusk := Abs(currentHour - sunset.GetOr(20.0));
      (r == 100 <==> dawn <= 1.0 || (dawn > 2.0 && dusk <= 1.0)) &&
      (r == 70 <==> (1.0 < dawn <= 2.0) || (dawn > 2.0 && 1.0 < dusk <= 2.0))
  {
    var sunriseHour := sunrise.GetOr(6.0);
    var sunsetHour := sunset.GetOr(20.0);
    var dawnDiff := Abs(currentHour - sunriseHour);
    if dawnDiff <= 1.0 then 100
    else if dawnDiff <= 2.0 then 70
    else
      var duskDiff := Abs(currentHour - sunsetHour);
      if duskDiff <= 1.0 then 100
      else if duskDiff <= 2.0 then 70
      else if currentHour < sunriseHour - 2.0 || currentHour > sunsetHour + 2.0 then 50
      else 40
  }

  /**
   * When sunrise and sunset are more than four hours apart, the hour either side
   * of each scores 100, the next hour either side 70, the night 50 and the rest of the day 40.
   */
  lemma TimeOfDayWindows(currentHour: real, sunriseHour: real, sunsetHour: real)
    requires sunriseHour + 4.0 < sunsetHour
    ensures var r := TimeOfDayScore(currentHour, Some(sunriseHour), Some(sunsetHour));
      (r == 100 <==> Abs(currentHour - sunriseHour) <= 1.0 || Abs(currentHour - sunsetHour) <= 1.0) &&
      (r == 50 <==> currentHour < sunriseHour - 2.0 || currentHour > sunsetHour + 2.0) &&
      (r == 40 <==> sunriseHour + 2.0 < currentHour < sunsetHour - 2.0)
  {
  }

  /** `cloudCoverScore`: `Math.round(70 + cloudCover * 0.3)`; more cloud, a little better. */
  function CloudCoverScore(cloudCover: real): (r: int)
    ensures 0.0 <= cloudCover <= 100.0 ==> 70 <= r <= 100
    ensures r as real - 0.5 <= 70.0 + cloudCover * 0.3 < r as real + 0.5
  {
    Round(70.0 + cloudCover * 0.3)
  }

  /** More cloud never lowers the cloud score. */
  lemma CloudCoverMonotone(a: real, b: real)
    requires a <= b
    ensures CloudCoverScore(a) <= CloudCoverScore(b)
  {
  }

  /** `uvIndexScore`: 70 without a reading; otherwise the stronger the UV, the lower the score. */
  function UvIndexScore(uvIndex: Option<real>): (r: int)
    ensures uvIndex.None? ==> r == 70
    ensures uvIndex.Some? ==> r in {100, 80, 60, 40}
    ensures uvIndex.Some? ==> (r == 100 <==> uvIndex.value <= 2.0)
    ensures r == 80 <==> uvIndex.Some? && 2.0 < uvIndex.value <= 5.0
    ensures r == 60 <==> uvIndex.Some? && 5.0 < uvIndex.value <= 7.0
    ensures r == 40 <==> uvIndex.Some? && uvIndex.value > 7.0
  {
    if uvIndex.None? then 70
    else if uvIndex.value <= 2.0 then 100
    else if uvIndex.value <= 5.0 then 80
    else if uvIndex.value <= 7.0 then 60
    else 40
  }

  /** A higher UV reading never scores higher. */
  lemma UvIndexAntitone(a: real, b: real)
    requires a <= b
    ensures UvIndexScore(Some(a)) >= UvIndexScore(Some(b))
  {
  }

  /**
   * `visibilityScore`: 70 without a reading; over 10 km 60 (clear water makes
   * fish wary), 5 to 10 km 80, under 5 km 70.
   */
  function VisibilityScore(visibilityMeters: Option<real>): (r: int)
    ensures r in {60, 70, 80}
    ensures r == 80 <==> visibilityMeters.Some? && 5000.0 <= visibilityMeters.value <= 10000.0
    ensures r == 60 <==> visibilityMeters.Some? && visibilityMeters.value > 10000.0
  {
    if visibilityMeters.None? then 70
    else
      var visibilityKm := visibilityMeters.value / 1000.0;
      if visibilityKm > 10.0 then 60
      else if visibilityKm >= 5.0 then 80
      else 70
  }

  /** `waveHeightScore`: 70 without a reading; light chop is ideal, calm good, rough seas poor. */
  function WaveHeightScore(waveHeightM: Option<real>): (r: int)
    ensures waveHeightM.None? ==> r == 70
    ensures r in {90, 100, 70, 30}
    ensures r == 100 <==> waveHeightM.Some? && 0.5 <= waveHeightM.value <= 1.5
    ensures r == 30 <==> waveHeightM.Some? && waveHeightM.value > 3.0
    ensures r == 90 <==> waveHeightM.Some? && waveHeightM.value < 0.5
    ensures r == 70 <==> waveHeightM.None? || 1.5 < waveHeightM.value <= 3.0
  {
    if waveHeightM.None? then 70
    else if waveHeightM.value < 0.5 then 90
    else if waveHeightM.value <= 1.5 then 100
    else if waveHeightM.value <= 3.0 then 70
    else 30
  }

  /** Hours between now and a tide, both given as epoch milliseconds. */
  function HoursApart(nowMs: real, tideMs: real): (h: real)
    ensures h >= 0.0
  {
    Abs(nowMs - tideMs) / 3600000.0
  }

  /** The tide lies within the given number of hours of now. */
  predicate TideWithin(tide: TideEvent, nowMs: real, instantOf: string -> real, hours: real) {
    HoursApart(nowMs, instantOf(tide.time)) <= hours
  }

  /** The score a deciding tide gives: 90 for high and 85 for low water within the hour, else 70. */
  function DecidingScore(tide: TideEvent, nowMs: real, instantOf: string -> real): int {
    if TideWithin(tide, nowMs, instantOf, 1.0) then (if tide.kind == High then 90 else 85) else 70
  }

  /** The tide score as a function of the tide list: the first tide within two hours decides, else 50. */
  function TideScoreOf(tides: seq<TideEvent>, nowMs: real, instantOf: string -> real): (r: int)
    ensures r in {50, 70, 85, 90}
  {
    if |tides| == 0 then 50
    else if TideWithin(tides[0], nowMs, instantOf, 2.0) then DecidingScore(tides[0], nowMs, instantOf)
    else TideScoreOf(tides[1..], nowMs, instantOf)
  }

  /** With no tide within two hours of now the tide score is 50. */
  lemma {:induction false} TideScoreNoneWithin(tides: seq<TideEvent>, nowMs: real, instantOf: string -> real)
    requires forall i :: 0 <= i < |tides| ==> !TideWithin(tides[i], nowMs, instantOf, 2.0)
    ensures TideScoreOf(tides, nowMs, instantOf) == 50
    decreases |tides|
  {
    if |tides| > 0 {
      assert forall i :: 0 <= i < |tides| - 1 ==> tides[1..][i] == tides[i + 1];
      TideScoreNoneWithin(tides[1..], nowMs, instantOf);
    }
  }

  /** The first tide within two hours of now decides the tide score. */
  lemma {:induction false} TideScoreFirstWithin(tides: seq<TideEvent>, nowMs: real, instantOf: string -> real, i: int)
    requires 0 <= i < |tides| && TideWithin(tides[i], nowMs, instantOf, 2.0)
    requires forall j :: 0 <= j < i ==> !TideWithin(tides[j], nowMs, instantOf, 2.0)
    ensures TideScoreOf(tides, nowMs, instantOf) == DecidingScore(tides[i], nowMs, instantOf)
    decreases i
  {
    if i > 0 {
      var rest := tides[1..];
      assert rest[i - 1] == tides[i];
      assert forall j :: 0 <= j < i - 1 ==> rest[j] == tides[j + 1];
      TideScoreFirstWithin(rest, nowMs, instantOf, i - 1);
    }
  }

  /**
   * `tideTimingScore`: the first tide of the list within two hours of now
   * decides; 50 when there is none. The parsing of the tide's time stamp is the
   * function `instantOf`.
   */
  method TideTimingScore(tides: seq<TideEvent>, nowMs: real, instantOf: string -> real) returns (r: int)
    ensures r == TideScoreOf(tides, nowMs, instantOf)
  {
    if |tides| == 0 {
      return 50;
    }
    var k := 0;
    while k < |tides|
      invariant 0 <= k <= |tides|
      invariant TideScoreOf(tides[k..], nowMs, instantOf) == TideScoreOf(tides, nowMs, instantOf)
    {
      var diffHours := HoursApart(nowMs, instantOf(tides[k].time));
      if diffHours <= 1.0 {
        return if tides[k].kind == High then 90 else 85;
      }
      if diffHours <= 2.0 {
        return 70;
      }
      assert tides[k..][1..] == tides[k + 1..];
      k := k + 1;
    }
    return 50;
  }
}
