/**
 * Formatting and classification helpers shared by the views: the finite-number
 * guards of the formatters, compass directions, weather-code texts, precipitation
 * and percentage text, pressure-trend wording and the catch-rating lookup.
 */
module Utils {
  import opened Wrappers
  import opened JsMath
  import opened Text
  import opened Config

  /**
   * A number as the formatters receive it: finite, or anything `Number.isFinite`
   * rejects (NaN, the infinities, null, undefined, a string).
   */
  datatype JsNum = Finite(value: real) | NotFinite

  /** The placeholder shown for a value that is not a finite number. */
  const Dash: string := "\U{2013}"

  /** `${Math.round(x)}` followed by a unit, or the placeholder when x is not finite. */
  function FormatRounded(x: JsNum, unit: string): (s: string)
    requires |unit| > 0 && unit[0] != '\U{2013}'
    ensures s == Dash <==> x.NotFinite?
    ensures x.Finite? ==> |s| > |unit| && s[|s| - |unit|..] == unit
    ensures x.Finite? ==> ParseInt(s[..|s| - |unit|]) == Some(Round(x.value))
  {
    if x.NotFinite? then Dash
    else
      var n := IntText(Round(x.value));
      IntTextRoundTrip(Round(x.value));
      var s := n + unit;
      assert s[..|s| - |unit|] == n && s[|s| - |unit|..] == unit;
      s
  }

  /** `formatTemperature`: e.g. "14°C". */
  function FormatTemperature(temp: JsNum): (s: string)
    ensures s == Dash <==> temp.NotFinite?
    ensures temp.Finite? ==> |s| > 2 && ParseInt(s[..|s| - 2]) == Some(Round(temp.value))
  {
    FormatRounded(temp, "°C")
  }

  /** `formatWindSpeed`: e.g. "12 km/h". */
  function FormatWindSpeed(speed: JsNum): (s: string)
    ensures s == Dash <==> speed.NotFinite?
    ensures speed.Finite? ==> |s| > 5 && ParseInt(s[..|s| - 5]) == Some(Round(speed.value))
  {
    FormatRounded(speed, " km/h")
  }

  /** `formatPressure`: e.g. "1013 hPa". */
  function FormatPressure(pressure: JsNum): (s: string)
    ensures s == Dash <==> pressure.NotFinite?
    ensures pressure.Finite? ==> |s| > 4 && ParseInt(s[..|s| - 4]) == Some(Round(pressure.value))
  {
    FormatRounded(pressure, " hPa")
  }

  /** `formatPercent`: e.g. "72%". */
  function FormatPercent(value: JsNum): (s: string)
    ensures s == Dash <==> value.NotFinite?
    ensures value.Finite? ==> |s| > 1 && ParseInt(s[..|s| - 1]) == Some(Round(value.value))
  {
    FormatRounded(value, "%")
  }

  /** The eight compass points, clockwise from north, in German. */
  const Directions: seq<string> := ["N", "NO", "O", "SO", "S", "SW", "W", "NW"]

  /** The arrow drawn for each compass point (the direction the wind blows towards). */
  const Arrows: seq<string> := ["↓", "↙", "←", "↖", "↑", "↗", "→", "↘"]

  /** `Math.round(degrees / 45) % 8`, negative when the rounded quotient is negative. */
  function CompassIndex(degrees: real): (i: int)
    ensures -8 < i < 8
    ensures degrees >= -22.5 ==> i == Round(degrees / 45.0) % 8
  {
    IntRem(Round(degrees / 45.0), 8)
  }

  /** An array element, or None (`undefined`) for an index outside the array. */
  function Lookup(table: seq<string>, i: int): Option<string> {
    if 0 <= i < |table| then Some(table[i]) else None
  }

  /** How a template literal renders a possibly undefined value. */
  function Shown(v: Option<string>): string {
    v.GetOr("undefined")
  }

  /**
   * `degToCompass`: the placeholder for a non-finite input; otherwise the label at
   * the compass index, which is undefined (None) when the index is negative.
   */
  function DegToCompass(degrees: JsNum): (r: Option<string>)
    ensures degrees.NotFinite? ==> r == Some(Dash)
    ensures degrees.Finite? && degrees.value >= -22.5 ==>
      r == Some(Directions[Round(degrees.value / 45.0) % 8])
  {
    if degrees.NotFinite? then Some(Dash)
    else Lookup(Directions, CompassIndex(degrees.value))
  }

  /** `formatWindDirection`: the arrow and the compass label, e.g. "↗ NO". */
  function FormatWindDirection(degrees: JsNum): (s: string)
    ensures degrees.NotFinite? ==> s == Dash
  {
    if degrees.NotFinite? then Dash
    else Shown(Lookup(Arrows, CompassIndex(degrees.value))) + " " + Shown(DegToCompass(degrees))
  }

  /** Every non-negative direction shows the compass point nearest to it, 360° being north again. */
  lemma CompassNearestPoint(degrees: real, k: int)
    requires 0 <= k <= 8
    requires k as real * 45.0 - 22.5 <= degrees < k as real * 45.0 + 22.5
    ensures DegToCompass(Finite(degrees)) == Some(Directions[k % 8])
  {
    var q := degrees / 45.0;
    assert k as real - 0.5 <= q < k as real + 0.5;
    assert Round(q) == k;
  }

  /** North is shown for both 0° and 360°. */
  lemma CompassNorthBothEnds()
    ensures DegToCompass(Finite(0.0)) == Some("N")
    ensures DegToCompass(Finite(360.0)) == Some("N")
  {
    CompassNearestPoint(0.0, 0);
    CompassNearestPoint(360.0, 8);
  }

  /** A full turn leaves the label unchanged. */
  lemma CompassFullTurn(degrees: real)
    requires degrees >= -22.5
    ensures DegToCompass(Finite(degrees + 360.0)) == DegToCompass(Finite(degrees))
  {
    var q := degrees / 45.0;
    var r := Round(q);
    assert (degrees + 360.0) / 45.0 == q + 8.0;
    assert Round(q + 8.0) == r + 8;
    assert CompassIndex(degrees) == r % 8;
    assert CompassIndex(degrees + 360.0) == (r + 8) % 8 == r % 8;
  }

  /** A direction more than half a sector west of north has no label: the index is negative. */
  lemma CompassUndefinedBelowNorth()
    ensures DegToCompass(Finite(-30.0)) == None
  {
    assert Round(-30.0 / 45.0) == -1;
  }

  /** Arrow and label of a wind direction are chosen by one and the same index. */
  lemma WindDirectionSameIndex(degrees: real)
    requires degrees >= -22.5
    ensures exists k :: (0 <= k < 8 &&
      FormatWindDirection(Finite(degrees)) == Arrows[k] + " " + Directions[k])
    ensures var k := Round(degrees / 45.0) % 8;
      FormatWindDirection(Finite(degrees)) == Arrows[k] + " " + Directions[k]
  {
    var k := Round(degrees / 45.0) % 8;
    assert FormatWindDirection(Finite(degrees)) == Arrows[k] + " " + Directions[k];
  }

  /** `weatherCodeToText`: the table entry, or "Unbekannt" for a code the table lacks. */
  function WeatherCodeToText(code: int): (r: WeatherText)
    ensures code in WeatherCodes ==> r == WeatherCodes[code]
    ensures r.text == "Unbekannt" <==> code !in WeatherCodes
  {
    if code in WeatherCodes then WeatherCodes[code] else WeatherText("Unbekannt", "❓")
  }

  /** `toFixed(1)` of a non-negative number: halves round up to the next tenth. */
  function FixedOneNonNegative(x: real): (s: string)
    requires x >= 0.0
    ensures exists i :: 0 <= i < |s| && s[i] == '.'
    ensures TenthsText(s, x)
  {
    var tenths := Round(x * 10.0);
    var whole := NatText(tenths / 10);
    var s := whole + "." + [Digit(tenths % 10)];
    assert s[|whole|] == '.';
    assert s[..|s| - 2] == whole;
    ParseNatText(tenths / 10);
    assert DigitValue(s[|s| - 1]) == tenths % 10;
    s
  }

  /**
   * Digits, a point and one digit, which read back as a number of tenths
   * within half a tenth of `v` (a tie rounds up).
   */
  predicate TenthsText(t: string, v: real) {
    |t| >= 3 && t[|t| - 2] == '.' && AllDigits(t[..|t| - 2]) && IsDigit(t[|t| - 1]) &&
    var tenths := ParseNat(t[..|t| - 2]) * 10 + DigitValue(t[|t| - 1]);
    -0.5 < tenths as real - v * 10.0 <= 0.5
  }

  /** `toFixed(1)`: the sign, then the non-negative rendering. */
  function FixedOne(x: real): (s: string)
    ensures exists i :: 0 <= i < |s| && s[i] == '.'
    ensures |s| > 0 && (s[0] == '-' <==> x < 0.0)
    ensures TenthsText(if x < 0.0 then s[1..] else s, if x < 0.0 then -x else x)
  {
    if x < 0.0 then
      var t := FixedOneNonNegative(-x);
      var s := "-" + t;
      var i :| 0 <= i < |t| && t[i] == '.';
      assert s[i + 1] == '.';
      assert s[1..] == t;
      s
    else FixedOneNonNegative(x)
  }

  /** `formatPrecipitation`: "0 mm" exactly when the amount is not finite or is zero. */
  function FormatPrecipitation(mm: JsNum): (s: string)
    ensures s == "0 mm" <==> mm.NotFinite? || mm.value == 0.0
    ensures mm.Finite? && mm.value != 0.0 ==> s == FixedOne(mm.value) + " mm"
  {
    if mm.NotFinite? then "0 mm"
    else if mm.value == 0.0 then "0 mm"
    else
      var t := FixedOne(mm.value);
      var s := t + " mm";
      var i :| 0 <= i < |t| && t[i] == '.';
      assert s[i] == '.' && forall j :: 0 <= j < |"0 mm"| ==> "0 mm"[j] != '.';
      s
  }

  datatype TrendText = TrendText(text: string, icon: string)

  /** `pressureTrendText`: the wording of a 3-hour pressure change in hPa. */
  function PressureTrendText(trend: real): TrendText {
    if trend < -2.0 then TrendText("stark fallend", "⬇️")
    else if trend < -0.5 then TrendText("fallend", "↘️")
    else if trend > 2.0 then TrendText("stark steigend", "⬆️")
    else if trend > 0.5 then TrendText("steigend", "↗️")
    else TrendText("stabil", "➡️")
  }

  /**
   * The rating tier for a score, scanning the table from index i: the first entry
   * whose threshold the score reaches, or the last entry when none does.
   */
  function RatingFrom(i: nat, score: int): (r: Rating)
    requires i < |CatchRatings|
    ensures r in CatchRatings[i..]
    ensures r.min <= score || r == CatchRatings[|CatchRatings| - 1]
    decreases |CatchRatings| - i
  {
    if score >= CatchRatings[i].min then CatchRatings[i]
    else if i == |CatchRatings| - 1 then CatchRatings[i]
    else
      assert CatchRatings[i..] == [CatchRatings[i]] + CatchRatings[i + 1..];
      RatingFrom(i + 1, score)
  }

  /** `getCatchRating`: the first tier whose threshold the score reaches, else the last tier. */
  function GetCatchRating(score: int): (r: Rating)
    ensures r in CatchRatings
    ensures score >= 0 ==> r.min <= score
  {
    assert CatchRatings[0..] == CatchRatings;
    RatingFrom(0, score)
  }

  /** The four tiers: 75 and above, 55 to 74, 35 to 54, and everything below 35. */
  lemma RatingTiers(score: int)
    ensures score >= 75 ==> GetCatchRating(score).labelText == "Ausgezeichnet"
    ensures 55 <= score < 75 ==> GetCatchRating(score).labelText == "Gut"
    ensures 35 <= score < 55 ==> GetCatchRating(score).labelText == "Maessig"
    ensures score < 35 ==> GetCatchRating(score).labelText == "Schlecht"
  {
    var r := CatchRatings;
    assert r[0].min == 75 && r[1].min == 55 && r[2].min == 35 && r[3].min == 0;
    assert RatingFrom(3, score) == r[3];
    if score < 55 {
      assert RatingFrom(2, score) == (if score >= 35 then r[2] else r[3]);
    }
    if score < 75 {
      assert RatingFrom(1, score) == (if score >= 55 then r[1] else RatingFrom(2, score));
    }
  }
}
