/**
 * The catch forecast: the weighted average of the factor scores over the
 * inland or coastal weight profile, the species adjustment, the clamped 0..100
 * score with its rating tier, and the one tip shown with it.
 */
module CatchScore {
  import opened Wrappers
  import opened JsMath
  import opened Config
  import opened Utils
  import opened Lunar
  import opened Solunar
  import opened Marine
  import opened FactorScores

  /** The weather fields the forecast reads; hours are decimal local hours. */
  datatype Weather = Weather(
    temperature: real, pressureTrend: real, windSpeed: real, cloudCover: real, precipitation: real,
    uvIndex: Option<real>, visibility: Option<real>, sunriseHour: Option<real>, sunsetHour: Option<real>)

  // ------------------------------------------------------------------
  // The tip
  // ------------------------------------------------------------------

  /** The tips, in the order `generateTip` considers them. */
  datatype Tip =
    | PressureFallingSharply | PressureFalling | PressureRisingSharply
    | GoodMoonPhase
    | InMajorPeriod | InMinorPeriod | PeriodStartsSoon
    | StrongWind | ModerateWind
    | Overcast
    | LightRain | HeavyRain
    | ColdWater
    | ExcellentConditions | GoodConditions | ModerateConditions | DifficultConditions

  function Priority(t: Tip): nat {
    match t
    case PressureFallingSharply => 0
    case PressureFalling => 1
    case PressureRisingSharply => 2
    case GoodMoonPhase => 3
    case InMajorPeriod => 4
    case InMinorPeriod => 5
    case PeriodStartsSoon => 6
    case StrongWind => 7
    case ModerateWind => 8
    case Overcast => 9
    case LightRain => 10
    case HeavyRain => 11
    case ColdWater => 12
    case ExcellentConditions => 13
    case GoodConditions => 14
    case ModerateConditions => 15
    case DifficultConditions => 16
  }

  /** The German text of a tip; the moon tip names the phase. */
  function TipText(t: Tip, moonName: string): string {
    match t
    case PressureFallingSharply => "Stark fallender Luftdruck - die Fische sind jetzt besonders aktiv!"
    case PressureFalling => "Fallender Luftdruck beguenstigt die Beissaktivitaet."
    case PressureRisingSharply => "Stark steigender Druck - die Fische sind eher traege. Versuche tiefere Stellen."
    case GoodMoonPhase => moonName + " - erfahrungsgemaess eine der besten Phasen zum Angeln."
    case InMajorPeriod => "Du bist in einer Solunar-Hauptperiode - jetzt ist die beste Zeit!"
    case InMinorPeriod => "Aktuelle Solunar-Nebenperiode - gute Chancen auf einen Biss."
    case PeriodStartsSoon => "Eine Solunar-Periode beginnt bald - mach dich bereit!"
    case StrongWind => "Starker Wind - suche geschuetzte Uferbereiche."
    case ModerateWind => "Leichter bis maessiger Wind trueb das Wasser auf - gut fuer Raubfische."
    case Overcast => "Bewoelkter Himmel - Fische sind weniger scheu und beissen besser."
    case LightRain => "Leichter Regen kann die Beissaktivitaet foerdern."
    case HeavyRain => "Starker Niederschlag - die Fische ziehen sich in tiefere Bereiche zurueck."
    case ColdWater => "Kaltes Wasser: Verwende kleine Koeder und fische langsam."
    case ExcellentConditions => "Hervorragende Bedingungen - nutze die Gelegenheit!"
    case GoodConditions => "Gute Bedingungen. Probiere verschiedene Koeder aus."
    case ModerateConditions => "Maessige Bedingungen. Geduld ist heute gefragt."
    case DifficultConditions => "Schwierige Bedingungen - aber auch an solchen Tagen kann man Glueck haben."
  }

  /** The conditions under which a tip about the weather, the moon or the periods applies. */
  predicate ConditionApplies(t: Tip, w: Weather, moon: MoonData, sol: SolunarData) {
    match t
    case PressureFallingSharply => w.pressureTrend < -2.0
    case PressureFalling => -2.0 <= w.pressureTrend < -0.5
    case PressureRisingSharply => w.pressureTrend > 2.0
    case GoodMoonPhase => moon.phaseIndex == 0 || moon.phaseIndex == 4
    case InMajorPeriod => sol.isInMajor
    case InMinorPeriod => !sol.isInMajor && sol.isInMinor
    case PeriodStartsSoon => !sol.isInMajor && !sol.isInMinor && sol.isNearPeriod
    case StrongWind => w.windSpeed > 30.0
    case ModerateWind => 15.0 < w.windSpeed <= 30.0
    case Overcast => w.cloudCover > 70.0
    case LightRain => 0.0 < w.precipitation < 5.0
    case HeavyRain => w.precipitation >= 5.0
    case ColdWater => w.temperature < 5.0
    case _ => false
  }

  /** Some tip about the conditions applies. */
  predicate AnyConditionApplies(w: Weather, moon: MoonData, sol: SolunarData) {
    w.pressureTrend < -0.5 || w.pressureTrend > 2.0 || moon.phaseIndex == 0 || moon.phaseIndex == 4 ||
    sol.isInMajor || sol.isInMinor || sol.isNearPeriod || w.windSpeed > 15.0 || w.cloudCover > 70.0 ||
    w.precipitation > 0.0 || w.temperature < 5.0
  }

  /** A tip applies: a condition tip when its condition holds, a score tip when no condition tip does and the score is in its tier. */
  predicate Applies(t: Tip, w: Weather, moon: MoonData, sol: SolunarData, score: int) {
    match t
    case ExcellentConditions => !AnyConditionApplies(w, moon, sol) && score >= 75
    case GoodConditions => !AnyConditionApplies(w, moon, sol) && 55 <= score < 75
    case ModerateConditions => !AnyConditionApplies(w, moon, sol) && 35 <= score < 55
    case DifficultConditions => !AnyConditionApplies(w, moon, sol) && score < 35
    case _ => ConditionApplies(t, w, moon, sol)
  }

  /** The score tips are used exactly when no condition tip applies. */
  lemma ConditionTipsCover(w: Weather, moon: MoonData, sol: SolunarData)
    ensures AnyConditionApplies(w, moon, sol) <==>
      exists t :: Priority(t) <= 12 && ConditionApplies(t, w, moon, sol)
  {
    if AnyConditionApplies(w, moon, sol) {
      if w.pressureTrend < -2.0 { assert ConditionApplies(PressureFallingSharply, w, moon, sol); }
      else if w.pressureTrend < -0.5 { assert ConditionApplies(PressureFalling, w, moon, sol); }
      else if w.pressureTrend > 2.0 { assert ConditionApplies(PressureRisingSharply, w, moon, sol); }
      else if moon.phaseIndex == 0 || moon.phaseIndex == 4 { assert ConditionApplies(GoodMoonPhase, w, moon, sol); }
      else if sol.isInMajor { assert ConditionApplies(InMajorPeriod, w, moon, sol); }
      else if sol.isInMinor { assert ConditionApplies(InMinorPeriod, w, moon, sol); }
      else if sol.isNearPeriod { assert ConditionApplies(PeriodStartsSoon, w, moon, sol); }
      else if w.windSpeed > 30.0 { assert ConditionApplies(StrongWind, w, moon, sol); }
      else if w.windSpeed > 15.0 { assert ConditionApplies(ModerateWind, w, moon, sol); }
      else if w.cloudCover > 70.0 { assert ConditionApplies(Overcast, w, moon, sol); }
      else if w.precipitation >= 5.0 { assert ConditionApplies(HeavyRain, w, moon, sol); }
      else if w.precipitation > 0.0 { assert ConditionApplies(LightRain, w, moon, sol); }
      else { assert ConditionApplies(ColdWater, w, moon, sol); }
    }
  }

  /** When no condition applies, the score tip names the same tier as the catch rating. */
  lemma ScoreTipMatchesRating(w: Weather, moon: MoonData, sol: SolunarData, score: int, t: Tip)
    requires Priority(t) >= 13 && Applies(t, w, moon, sol, score)
    ensures t == ExcellentConditions <==> GetCatchRating(score) == CatchRatings[0]
    ensures t == GoodConditions <==> GetCatchRating(score) == CatchRatings[1]
    ensures t == ModerateConditions <==> GetCatchRating(score) == CatchRatings[2]
    ensures t == DifficultConditions <==> GetCatchRating(score) == CatchRatings[3]
  {
    RatingTiers(score);
  }

  /** The tip of highest priority whose condition holds, else the score tip. */
  function FirstTip(w: Weather, moon: MoonData, sol: SolunarData, score: int): Tip {
    if w.pressureTrend < -2.0 then PressureFallingSharply
    else if w.pressureTrend < -0.5 then PressureFalling
    else if w.pressureTrend > 2.0 then PressureRisingSharply
    else TipAfterPressure(w, moon, sol, score)
  }

  function TipAfterPressure(w: Weather, moon: MoonData, sol: SolunarData, score: int): Tip {
    if moon.phaseIndex == 0 || moon.phaseIndex == 4 then GoodMoonPhase
    else TipAfterMoon(w, sol, score)
  }

  function TipAfterMoon(w: Weather, sol: SolunarData, score: int): Tip {
    if sol.isInMajor then InMajorPeriod
    else if sol.isInMinor then InMinorPeriod
    else if sol.isNearPeriod then PeriodStartsSoon
    else TipAfterPeriods(w, score)
  }

  function TipAfterPeriods(w: Weather, score: int): Tip {
    if w.windSpeed > 30.0 then StrongWind
    else if w.windSpeed > 15.0 then ModerateWind
    else if w.cloudCover > 70.0 then Overcast
    else TipAfterCloud(w, score)
  }

  function TipAfterCloud(w: Weather, score: int): Tip {
    if w.precipitation > 0.0 && w.precipitation < 5.0 then LightRain
    else if w.precipitation >= 5.0 then HeavyRain
    else if w.temperature < 5.0 then ColdWater
    else ScoreTip(score)
  }

  /** The general tip by score tier. */
  function ScoreTip(score: int): Tip {
    if score >= 75 then ExcellentConditions
    else if score >= 55 then GoodConditions
    else if score >= 35 then ModerateConditions
    else DifficultConditions
  }

  /** The tip shown is one that applies, and no tip of higher priority applies. */
  lemma FirstTipIsFirstApplicable(w: Weather, moon: MoonData, sol: SolunarData, score: int)
    ensures Applies(FirstTip(w, moon, sol, score), w, moon, sol, score)
    ensures forall t :: Priority(t) < Priority(FirstTip(w, moon, sol, score)) ==> !Applies(t, w, moon, sol, score)
  {
  }

  /** The pressure, moon and solunar-period tips, in the order `generateTip` collects them. */
  method LeadingTips(w: Weather, moon: MoonData, sol: SolunarData, overallScore: int) returns (tips: seq<Tip>)
    ensures |tips| > 0 ==> tips[0] == FirstTip(w, moon, sol, overallScore)
    ensures |tips| == 0 ==> FirstTip(w, moon, sol, overallScore) == TipAfterPeriods(w, overallScore)
  {
    tips := [];

    if w.pressureTrend < -2.0 {
      tips := tips + [PressureFallingSharply];
    } else if w.pressureTrend < -0.5 {
      tips := tips + [PressureFalling];
    } else if w.pressureTrend > 2.0 {
      tips := tips + [PressureRisingSharply];
    }
    assert |tips| > 0 ==> tips[0] == FirstTip(w, moon, sol, overallScore);
    assert |tips| == 0 ==> FirstTip(w, moon, sol, overallScore) == TipAfterPressure(w, moon, sol, overallScore);

    if moon.phaseIndex == 0 || moon.phaseIndex == 4 {
      tips := tips + [GoodMoonPhase];
    }
    assert |tips| > 0 ==> tips[0] == FirstTip(w, moon, sol, overallScore);
    assert |tips| == 0 ==> FirstTip(w, moon, sol, overallScore) == TipAfterMoon(w, sol, overallScore);

    if sol.isInMajor {
      tips := tips + [InMajorPeriod];
    } else if sol.isInMinor {
      tips := tips + [InMinorPeriod];
    } else if sol.isNearPeriod {
      tips := tips + [PeriodStartsSoon];
    }
  }

  /**
   * `generateTip`: collects every tip that applies, in order, and returns the
   * first; when no condition applies, the score decides the general tip.
   */
  method GenerateTip(w: Weather, moon: MoonData, sol: SolunarData, overallScore: int) returns (tip: Tip)
    ensures tip == FirstTip(w, moon, sol, overallScore)
  {
    var tips := LeadingTips(w, moon, sol, overallScore);

    if w.windSpeed > 30.0 {
      tips := tips + [StrongWind];
    } else if w.windSpeed > 15.0 {
      tips := tips + [ModerateWind];
    }

    if w.cloudCover > 70.0 {
      tips := tips + [Overcast];
    }
    assert |tips| > 0 ==> tips[0] == FirstTip(w, moon, sol, overallScore);
    assert |tips| == 0 ==> FirstTip(w, moon, sol, overallScore) == TipAfterCloud(w, overallScore);

    if w.precipitation > 0.0 && w.precipitation < 5.0 {
      tips := tips + [LightRain];
    } else if w.precipitation >= 5.0 {
      tips := tips + [HeavyRain];
    }

    if w.temperature < 5.0 {
      tips := tips + [ColdWater];
    }

    if |tips| == 0 {
      if overallScore >= 75 {
        tips := tips + [ExcellentConditions];
      } else if overallScore >= 55 {
        tips := tips + [GoodConditions];
      } else if overallScore >= 35 {
        tips := tips + [ModerateConditions];
      } else {
        tips := tips + [DifficultConditions];
      }
    }

    tip := tips[0];
  }

  // ------------------------------------------------------------------
  // The weighted average
  // ------------------------------------------------------------------

  /** One factor's share: its score times its weight, or nothing when the profile has no (non-zero) weight for it. */
  function Contribution(scores: map<Factor, int>, weights: map<Factor, real>, k: Factor): real
    requires k in scores
  {
    if k in weights && weights[k] != 0.0 then scores[k] as real * weights[k] else 0.0
  }

  /** The sum of the shares of the given factors. */
  function WeightedSum(scores: map<Factor, int>, weights: map<Factor, real>, keys: seq<Factor>): real
    requires forall k :: k in keys ==> k in scores
  {
    if |keys| == 0 then 0.0 else Contribution(scores, weights, keys[0]) + WeightedSum(scores, weights, keys[1..])
  }

  lemma ScaledBounds(s: int, w: real)
    requires 0 <= s <= 100 && w >= 0.0
    ensures 0.0 <= s as real * w <= 100.0 * w
  {
    if w > 0.0 {
      MulMonotone(w, 0.0, s as real);
      MulMonotone(w, s as real, 100.0);
    }
  }

  /** A score in 0..100 with a non-negative weight contributes between 0 and 100 times the weight. */
  lemma ContributionBounds(scores: map<Factor, int>, weights: map<Factor, real>, k: Factor)
    requires k in scores && k in weights
    requires 0 <= scores[k] <= 100 && weights[k] >= 0.0
    ensures 0.0 <= Contribution(scores, weights, k) <= 100.0 * weights[k]
  {
    var w := weights[k];
    var score := scores[k];
    if w != 0.0 {
      ScaledBounds(score, w);
      var share := score as real * w;
      assert 0.0 <= share <= 100.0 * w;
      assert Contribution(scores, weights, k) == share;
    } else {
      assert Contribution(scores, weights, k) == 0.0;
    }
  }

  /** Scores in 0..100 with non-negative weights average into 0 .. 100 times the total weight. */
  lemma {:induction false} WeightedSumBounds(scores: map<Factor, int>, weights: map<Factor, real>, keys: seq<Factor>)
    requires forall k :: k in keys ==> k in scores && k in weights
    requires forall k :: k in keys ==> 0 <= scores[k] <= 100 && weights[k] >= 0.0
    ensures 0.0 <= WeightedSum(scores, weights, keys) <= 100.0 * WeightSum(weights, keys)
  {
    if |keys| > 0 {
      var k := keys[0];
      WeightedSumBounds(scores, weights, keys[1..]);
      var share := Contribution(scores, weights, k);
      var rest := WeightedSum(scores, weights, keys[1..]);
      var restWeight := WeightSum(weights, keys[1..]);
      var w := weights[k];
      assert k in keys;
      ContributionBounds(scores, weights, k);
      assert 0.0 <= share <= 100.0 * w;
      assert 0.0 <= rest <= 100.0 * restWeight;
      assert WeightedSum(scores, weights, keys) == share + rest;
      assert WeightSum(weights, keys) == weights[k] + restWeight;
    }
  }

  /** Equal scores average to that score times the total weight. */
  lemma {:induction false} WeightedSumUniform(scores: map<Factor, int>, weights: map<Factor, real>, keys: seq<Factor>, c: int)
    requires forall k :: k in keys ==> k in scores && k in weights && scores[k] == c
    ensures WeightedSum(scores, weights, keys) == c as real * WeightSum(weights, keys)
  {
    if |keys| > 0 {
      WeightedSumUniform(scores, weights, keys[1..], c);
      assert c as real * WeightSum(weights, keys) ==
        c as real * weights[keys[0]] + c as real * WeightSum(weights, keys[1..]);
    }
  }

  /** The factors of the breakdown for a location. */
  function ProfileFactors(hasNewWeights: bool, isCoastal: bool): seq<Factor> {
    if !hasNewWeights then LegacyFactors else if isCoastal then CoastalFactors else InlandFactors
  }

  /** The weight profile for a location. */
  function ProfileWeights(hasNewWeights: bool, isCoastal: bool): map<Factor, real> {
    if !hasNewWeights then CatchWeights else if isCoastal then CatchWeightsCoastal else CatchWeightsInland
  }

  /** Every factor of a profile has a positive weight in it. */
  lemma ProfileWeightsPositive(hasNewWeights: bool, isCoastal: bool)
    ensures forall k :: k in ProfileFactors(hasNewWeights, isCoastal) ==>
      k in ProfileWeights(hasNewWeights, isCoastal) && ProfileWeights(hasNewWeights, isCoastal)[k] > 0.0
  {
    var keys := ProfileFactors(hasNewWeights, isCoastal);
    var weights := ProfileWeights(hasNewWeights, isCoastal);
    forall k | k in keys
      ensures k in weights && weights[k] > 0.0
    {
      match k
      case MoonPhase =>
      case Solunar =>
      case Pressure =>
      case TimeOfDay =>
      case CloudCover =>
      case UvIndex =>
      case Visibility =>
      case Tides =>
      case WaveHeight =>
    }
  }

  /** Every profile's weights sum to one. */
  lemma ProfileIsAverage(hasNewWeights: bool, isCoastal: bool)
    ensures forall k :: k in ProfileFactors(hasNewWeights, isCoastal) ==>
      k in ProfileWeights(hasNewWeights, isCoastal) && ProfileWeights(hasNewWeights, isCoastal)[k] > 0.0
    ensures WeightSum(ProfileWeights(hasNewWeights, isCoastal), ProfileFactors(hasNewWeights, isCoastal)) == 1.0
  {
    ProfileWeightsPositive(hasNewWeights, isCoastal);
    if !hasNewWeights {
      LegacyWeightsSumToOne();
    } else if isCoastal {
      CoastalWeightsSumToOne();
    } else {
      InlandWeightsSumToOne();
    }
  }

  /** With every factor score in 0..100, the weighted average over any profile lies in 0..100. */
  lemma BaseScoreInRange(scores: map<Factor, int>, hasNewWeights: bool, isCoastal: bool)
    requires forall k :: k in ProfileFactors(hasNewWeights, isCoastal) ==> k in scores && 0 <= scores[k] <= 100
    ensures 0.0 <= WeightedSum(scores, ProfileWeights(hasNewWeights, isCoastal), ProfileFactors(hasNewWeights, isCoastal)) <= 100.0
  {
    ProfileIsAverage(hasNewWeights, isCoastal);
    WeightedSumBounds(scores, ProfileWeights(hasNewWeights, isCoastal), ProfileFactors(hasNewWeights, isCoastal));
  }

  /** When every factor scores the same, the weighted average is that score. */
  lemma UniformScoresAverageToThemselves(scores: map<Factor, int>, hasNewWeights: bool, isCoastal: bool, c: int)
    requires forall k :: k in ProfileFactors(hasNewWeights, isCoastal) ==> k in scores && scores[k] == c
    ensures WeightedSum(scores, ProfileWeights(hasNewWeights, isCoastal), ProfileFactors(hasNewWeights, isCoastal)) == c as real
  {
    ProfileIsAverage(hasNewWeights, isCoastal);
    UniformAverage(scores, ProfileWeights(hasNewWeights, isCoastal), ProfileFactors(hasNewWeights, isCoastal), c);
  }

  /** Over weights that sum to one, equal scores average to that score. */
  lemma UniformAverage(scores: map<Factor, int>, weights: map<Factor, real>, keys: seq<Factor>, c: int)
    requires forall k :: k in keys ==> k in scores && k in weights && scores[k] == c
    requires WeightSum(weights, keys) == 1.0
    ensures WeightedSum(scores, weights, keys) == c as real
  {
    WeightedSumUniform(scores, weights, keys, c);
  }

  /** The loop over the breakdown's keys that adds up each factor's share. */
  method WeightedOverall(scores: map<Factor, int>, weights: map<Factor, real>, keys: seq<Factor>) returns (overall: real)
    requires forall k :: k in keys ==> k in scores
    ensures overall == WeightedSum(scores, weights, keys)
  {
    overall := 0.0;
    var i := 0;
    while i < |keys|
      invariant 0 <= i <= |keys|
      invariant overall + WeightedSum(scores, weights, keys[i..]) == WeightedSum(scores, weights, keys)
    {
      var factor := keys[i];
      assert keys[i..][1..] == keys[i + 1..];
      if factor in weights && weights[factor] != 0.0 {
        overall := overall + scores[factor] as real * weights[factor];
      }
      i := i + 1;
    }
  }

  // ------------------------------------------------------------------
  // The species adjustment
  // ------------------------------------------------------------------

  datatype TemperaturePref = TemperaturePref(min: real, max: real, ideal: real)
  datatype PressurePref = PressurePref(trend: string)
  datatype WindPref = WindPref(max: real)
  datatype CloudCoverPref = CloudCoverPref(min: real, max: real)

  /** A species' weather preferences; each may be absent. */
  datatype WeatherPrefs = WeatherPrefs(temperature: Option<TemperaturePref>, pressure: Option<PressurePref>,
                                       wind: Option<WindPref>, cloudCover: Option<CloudCoverPref>)

  /** The preferred pressure trend matches the measured one. */
  predicate TrendMatches(prefTrend: string, actualTrend: real) {
    (prefTrend == "fallend" && actualTrend < -0.5) ||
    (prefTrend == "steigend" && actualTrend > 0.5) ||
    (prefTrend == "stabil" && Abs(actualTrend) <= 0.5)
  }

  /**
   * The adjustments of the preferences that count, in order: temperature +10
   * near the ideal, +5 elsewhere in range, -15 outside; pressure +10 or -5
   * unless the preference is "egal"; wind +5 or -10; cloud cover +5 or 0.
   */
  function Adjustments(prefs: WeatherPrefs, w: Weather): (adj: seq<int>)
    ensures |adj| <= 4
    ensures forall i :: 0 <= i < |adj| ==> -15 <= adj[i] <= 10
  {
    TemperatureAdjustment(prefs, w) + PressureAdjustment(prefs, w) +
    WindAdjustment(prefs, w) + CloudCoverAdjustment(prefs, w)
  }

  function TemperatureAdjustment(prefs: WeatherPrefs, w: Weather): seq<int> {
    if prefs.temperature.Some? then
      var p := prefs.temperature.value;
      [if p.min <= w.temperature <= p.max then (if Abs(w.temperature - p.ideal) < 3.0 then 10 else 5) else -15]
    else []
  }

  function PressureAdjustment(prefs: WeatherPrefs, w: Weather): seq<int> {
    if prefs.pressure.Some? && prefs.pressure.value.trend != "egal" then
      [if TrendMatches(prefs.pressure.value.trend, w.pressureTrend) then 10 else -5]
    else []
  }

  function WindAdjustment(prefs: WeatherPrefs, w: Weather): seq<int> {
    if prefs.wind.Some? then [if w.windSpeed <= prefs.wind.value.max then 5 else -10] else []
  }

  function CloudCoverAdjustment(prefs: WeatherPrefs, w: Weather): seq<int> {
    if prefs.cloudCover.Some? then
      [if prefs.cloudCover.value.min <= w.cloudCover <= prefs.cloudCover.value.max then 5 else 0]
    else []
  }

  /** 1 for a present preference, 0 for an absent one. */
  function Present(b: bool): nat {
    if b then 1 else 0
  }

  /**
   * One adjustment per preference that counts: a pressure preference of
   * "egal" adds none. Temperature, when present, comes first and cloud cover,
   * when present, last; a cloud cover outside the preferred range adds 0
   * rather than a penalty.
   */
  lemma AdjustmentsCounted(prefs: WeatherPrefs, w: Weather)
    ensures var adj := Adjustments(prefs, w);
      |adj| == Present(prefs.temperature.Some?) + Present(prefs.pressure.Some? && prefs.pressure.value.trend != "egal") +
               Present(prefs.wind.Some?) + Present(prefs.cloudCover.Some?)
    ensures prefs.temperature.Some? ==> (var p := prefs.temperature.value;
      Adjustments(prefs, w)[0] ==
        if p.min <= w.temperature <= p.max then (if Abs(w.temperature - p.ideal) < 3.0 then 10 else 5) else -15)
    ensures prefs.cloudCover.Some? ==> (var adj, p := Adjustments(prefs, w), prefs.cloudCover.value;
      adj[|adj| - 1] == if p.min <= w.cloudCover <= p.max then 5 else 0)
  {
  }

  function IntSum(xs: seq<int>): int {
    if |xs| == 0 then 0 else xs[0] + IntSum(xs[1..])
  }

  /** The points added to the score: the mean adjustment times 0.15 times 100, or 0 without adjustments. */
  function SpeciesModifier(prefs: Option<WeatherPrefs>, w: Weather): real {
    if prefs.None? then 0.0
    else
      var adj := Adjustments(prefs.value, w);
      if |adj| == 0 then 0.0 else MeanOf(IntSum(adj), |adj|) * 0.15 * 100.0
  }

  /** The mean of `count` (one to four) values adding up to `total`, with one division per count so that it stays linear. */
  function MeanOf(total: int, count: int): (m: real)
    requires 1 <= count <= 4
  {
    if count == 1 then total as real
    else if count == 2 then total as real / 2.0
    else if count == 3 then total as real / 3.0
    else total as real / 4.0
  }

  lemma {:induction false} IntSumBounds(xs: seq<int>, lo: int, hi: int)
    requires forall i :: 0 <= i < |xs| ==> lo <= xs[i] <= hi
    ensures lo * |xs| <= IntSum(xs) <= hi * |xs|
  {
    if |xs| > 0 {
      IntSumBounds(xs[1..], lo, hi);
    }
  }

  /**
   * Each adjustment lies in -15..10 and the mean is multiplied by 15, so the
   * species modifier lies in -225..150 points.
   */
  lemma SpeciesModifierBounds(prefs: Option<WeatherPrefs>, w: Weather)
    ensures -225.0 <= SpeciesModifier(prefs, w) <= 150.0
  {
    if prefs.Some? {
      var adj := Adjustments(prefs.value, w);
      if |adj| > 0 {
        IntSumBounds(adj, -15, 10);
      }
    }
  }

  /** `Math.max(0, Math.min(100, Math.round(x)))`. */
  function ClampedScore(x: real): (s: int)
    ensures 0 <= s <= 100
    ensures x < -0.5 ==> s == 0
    ensures x >= 99.5 ==> s == 100
    ensures -0.5 <= x < 99.5 ==> s == Round(x)
  {
    var r := Round(x);
    if r > 100 then 100 else if r < 0 then 0 else r
  }

  /**
   * One species preference outweighs every factor: a species whose only
   * preference is a temperature range the water misses scores 0, and one whose
   * only preference is met at its ideal temperature scores 100, whatever the
   * other factors say.
   */
  lemma SingleTemperaturePreferenceDecides(base: real, p: TemperaturePref, w: Weather)
    requires 0.0 <= base <= 100.0
    ensures var prefs := WeatherPrefs(Some(p), None, None, None);
      (!(p.min <= w.temperature <= p.max) ==> ClampedScore(base + SpeciesModifier(Some(prefs), w)) == 0) &&
      (p.min <= w.temperature <= p.max && Abs(w.temperature - p.ideal) < 3.0 ==>
        ClampedScore(base + SpeciesModifier(Some(prefs), w)) == 100)
  {
    var prefs := WeatherPrefs(Some(p), None, None, None);
    var adj := Adjustments(prefs, w);
    assert |adj| == 1;
    assert IntSum(adj) == adj[0];
  }

  /** The sequence of `if` statements that adds up the adjustments and counts them. */
  method SpeciesAdjustment(prefs: WeatherPrefs, w: Weather) returns (fishMod: int, modCount: int)
    ensures fishMod == IntSum(Adjustments(prefs, w)) && modCount == |Adjustments(prefs, w)|
  {
    fishMod := 0;
    modCount := 0;
    ghost var adj: seq<int> := [];

    if prefs.temperature.Some? {
      var p := prefs.temperature.value;
      var temp := w.temperature;
      var d;
      if temp >= p.min && temp <= p.max {
        var idealDiff := Abs(temp - p.ideal);
        d := if idealDiff < 3.0 then 10 else 5;
      } else {
        d := -15;
      }
      fishMod := fishMod + d;
      modCount := modCount + 1;
      adj := adj + [d];
    }
    assert adj == TemperatureAdjustment(prefs, w);
    assert fishMod == IntSum(adj) && modCount == |adj|;

    ghost var before := adj;
    if prefs.pressure.Some? && prefs.pressure.value.trend != "egal" {
      var d := if TrendMatches(prefs.pressure.value.trend, w.pressureTrend) then 10 else -5;
      fishMod := fishMod + d;
      modCount := modCount + 1;
      IntSumAppend(adj, d);
      adj := adj + [d];
    }
    assert adj == before + PressureAdjustment(prefs, w);
    assert fishMod == IntSum(adj) && modCount == |adj|;

    before := adj;
    if prefs.wind.Some? {
      var d := if w.windSpeed <= prefs.wind.value.max then 5 else -10;
      fishMod := fishMod + d;
      modCount := modCount + 1;
      IntSumAppend(adj, d);
      adj := adj + [d];
    }
    assert adj == before + WindAdjustment(prefs, w);
    assert fishMod == IntSum(adj) && modCount == |adj|;

    before := adj;
    if prefs.cloudCover.Some? {
      var cc := w.cloudCover;
      var d := if cc >= prefs.cloudCover.value.min && cc <= prefs.cloudCover.value.max then 5 else 0;
      fishMod := fishMod + d;
      modCount := modCount + 1;
      IntSumAppend(adj, d);
      adj := adj + [d];
    }
    assert adj == before + CloudCoverAdjustment(prefs, w);
    assert adj == Adjustments(prefs, w);
  }

  lemma {:induction false} IntSumAppend(xs: seq<int>, x: int)
    ensures IntSum(xs + [x]) == IntSum(xs) + x
  {
    if |xs| == 0 {
      assert xs + [x] == [x];
    } else {
      assert (xs + [x])[1..] == xs[1..] + [x];
      IntSumAppend(xs[1..], x);
    }
  }

  // ------------------------------------------------------------------
  // The rating and the whole forecast
  // ------------------------------------------------------------------

  /** The loop over the rating tiers: the first whose threshold the score reaches, else the last. */
  method RatingFor(overall: int) returns (rating: Rating)
    ensures rating == GetCatchRating(overall)
  {
    rating := CatchRatings[|CatchRatings| - 1];
    var i := 0;
    while i < |CatchRatings|
      invariant 0 <= i <= |CatchRatings|
      invariant forall j :: 0 <= j < i ==> overall < CatchRatings[j].min
      invariant rating == CatchRatings[|CatchRatings| - 1]
    {
      if overall >= CatchRatings[i].min {
        rating := CatchRatings[i];
        FirstReachedTier(overall, i);
        return;
      }
      i := i + 1;
    }
    FirstReachedTier(overall, |CatchRatings| - 1);
  }

  /** Searching from tier `from` on, the first tier whose threshold the score reaches is the rating. */
  lemma {:induction false} FirstReachedTierFrom(score: int, from: nat, i: int)
    requires from <= i < |CatchRatings|
    requires forall j :: from <= j < i ==> score < CatchRatings[j].min
    requires CatchRatings[i].min <= score || i == |CatchRatings| - 1
    ensures RatingFrom(from, score) == CatchRatings[i]
    decreases i - from
  {
    if from < i {
      assert score < CatchRatings[from].min;
      FirstReachedTierFrom(score, from + 1, i);
    }
  }

  /** Adds the species modifier when the species has preferences that count. */
  method AddSpeciesModifier(base: real, fish: Option<WeatherPrefs>, w: Weather) returns (overall: real)
    ensures overall == base + SpeciesModifier(fish, w)
  {
    overall := base;
    if fish.Some? {
      var fishMod, modCount := SpeciesAdjustment(fish.value, w);
      if modCount > 0 {
        overall := overall + fishMod as real / modCount as real * 0.15 * 100.0;
        assert fishMod as real / modCount as real == MeanOf(fishMod, modCount);
      }
    }
  }

  /** The first tier whose threshold the score reaches is the rating. */
  lemma FirstReachedTier(score: int, i: int)
    requires 0 <= i < |CatchRatings|
    requires forall j :: 0 <= j < i ==> score < CatchRatings[j].min
    requires CatchRatings[i].min <= score || i == |CatchRatings| - 1
    ensures GetCatchRating(score) == CatchRatings[i]
  {
    FirstReachedTierFrom(score, 0, i);
  }

  /** The marine data of a coastal location, as far as the forecast reads it. */
  datatype MarineContext = MarineContext(isCoastal: bool, hourly: Option<HourlyHeights>, tides: Option<seq<TideDay>>)

  /** The clock readings the forecast takes: the local decimal hour, epoch milliseconds, and the UTC "YYYY-MM-DDTHH" and "YYYY-MM-DD" texts. */
  datatype Now = Now(localHour: real, epochMs: real, isoHour: string, isoDay: string)

  predicate StartsWith(t: string, prefix: string) {
    |prefix| <= |t| && t[..|prefix|] == prefix
  }

  /** `findIndex` of the first time stamp starting with the prefix, or -1. */
  function FindIndex(times: seq<string>, prefix: string): (idx: int)
    ensures -1 <= idx < |times|
    ensures idx >= 0 ==> StartsWith(times[idx], prefix) && forall j :: 0 <= j < idx ==> !StartsWith(times[j], prefix)
    ensures idx == -1 ==> forall j :: 0 <= j < |times| ==> !StartsWith(times[j], prefix)
  {
    if |times| == 0 then -1
    else if StartsWith(times[0], prefix) then 0
    else
      var rest := FindIndex(times[1..], prefix);
      assert forall j :: 1 <= j < |times| ==> times[j] == times[1..][j - 1];
      if rest == -1 then -1 else rest + 1
  }

  /** The wave height of the current UTC hour, or None when there is none. */
  function CurrentWaveHeight(hourly: Option<HourlyHeights>, isoHour: string): Option<real> {
    if hourly.Some? && hourly.value.waveHeight.Some? then
      var idx := if hourly.value.time.Some? then FindIndex(hourly.value.time.value, isoHour) else -1;
      if idx >= 0 then HeightAt(hourly.value.waveHeight.value, idx) else None
    else None
  }

  /** `find` of the first day entry with the given date, as an index, or -1. */
  function DayIndex(days: seq<TideDay>, date: string): (idx: int)
    ensures -1 <= idx < |days|
    ensures idx >= 0 ==> days[idx].date == date && forall j :: 0 <= j < idx ==> days[j].date != date
    ensures idx == -1 ==> forall j :: 0 <= j < |days| ==> days[j].date != date
  {
    if |days| == 0 then -1
    else if days[0].date == date then 0
    else
      var rest := DayIndex(days[1..], date);
      assert forall j :: 1 <= j < |days| ==> days[j] == days[1..][j - 1];
      if rest == -1 then -1 else rest + 1
  }

  /** The tide events of the first day entry dated today, or none. */
  function TodayTides(tides: Option<seq<TideDay>>, today: string): (r: seq<TideEvent>)
    ensures tides.None? ==> r == []
    ensures tides.Some? && DayIndex(tides.value, today) == -1 ==> r == []
    ensures tides.Some? && DayIndex(tides.value, today) >= 0 ==> r == tides.value[DayIndex(tides.value, today)].tides
  {
    if tides.None? then []
    else
      var idx := DayIndex(tides.value, today);
      if idx >= 0 then tides.value[idx].tides else []
  }

  /** The five factors every profile scores, in the order the breakdown lists them. */
  method CommonScores(w: Weather, moon: MoonData, sol: SolunarData, now: Now)
    returns (scores: map<Factor, int>, keys: seq<Factor>)
    requires 0 <= moon.phaseIndex < 8
    ensures keys == LegacyFactors && (forall k :: k in scores <==> k in keys)
    ensures MoonPhase in scores && Solunar in scores && Pressure in scores && TimeOfDay in scores && CloudCover in scores
    ensures UvIndex !in scores && Visibility !in scores && Tides !in scores && WaveHeight !in scores
    ensures scores[MoonPhase] == MoonPhases[moon.phaseIndex].score && scores[Solunar] == sol.score
    ensures scores[Pressure] == PressureScore(w.pressureTrend)
    ensures scores[TimeOfDay] == TimeOfDayScore(now.localHour, w.sunriseHour, w.sunsetHour)
    ensures scores[CloudCover] == CloudCoverScore(w.cloudCover)
  {
    scores := map[MoonPhase := MoonPhases[moon.phaseIndex].score, Solunar := sol.score,
                  Pressure := PressureScore(w.pressureTrend),
                  TimeOfDay := TimeOfDayScore(now.localHour, w.sunriseHour, w.sunsetHour),
                  CloudCover := CloudCoverScore(w.cloudCover)];
    keys := [MoonPhase, Solunar, Pressure, TimeOfDay, CloudCover];
  }

  /** The factor scores of the breakdown, keyed by factor, with the keys in insertion order. */
  method FactorBreakdown(w: Weather, moon: MoonData, sol: SolunarData, hasNewWeights: bool,
                         marine: Option<MarineContext>, now: Now, instantOf: string -> real)
    returns (scores: map<Factor, int>, keys: seq<Factor>)
    requires 0 <= moon.phaseIndex < 8
    ensures var isCoastal := marine.Some? && marine.value.isCoastal;
      keys == ProfileFactors(hasNewWeights, isCoastal) && (forall k :: k in scores <==> k in keys)
    ensures MoonPhase in scores && Solunar in scores && Pressure in scores && TimeOfDay in scores && CloudCover in scores
    ensures scores[MoonPhase] == MoonPhases[moon.phaseIndex].score && scores[Solunar] == sol.score
    ensures scores[Pressure] == PressureScore(w.pressureTrend)
    ensures scores[TimeOfDay] == TimeOfDayScore(now.localHour, w.sunriseHour, w.sunsetHour)
    ensures scores[CloudCover] == CloudCoverScore(w.cloudCover)
    ensures hasNewWeights ==> UvIndex in scores && scores[UvIndex] == UvIndexScore(w.uvIndex)
    ensures hasNewWeights ==> Visibility in scores && scores[Visibility] == VisibilityScore(w.visibility)
    ensures hasNewWeights && marine.Some? && marine.value.isCoastal ==> (WaveHeight in scores &&
      scores[WaveHeight] == WaveHeightScore(CurrentWaveHeight(marine.value.hourly, now.isoHour)))
    ensures hasNewWeights && marine.Some? && marine.value.isCoastal ==> (Tides in scores &&
      scores[Tides] == TideScoreOf(TodayTides(marine.value.tides, now.isoDay), now.epochMs, instantOf))
    ensures Tides in scores ==> 50 <= scores[Tides] <= 90
  {
    var isCoastal := marine.Some? && marine.value.isCoastal;
    scores, keys := CommonScores(w, moon, sol, now);
    if !hasNewWeights {
      return;
    }
    scores := scores[UvIndex := UvIndexScore(w.uvIndex)][Visibility := VisibilityScore(w.visibility)];
    keys := keys + [UvIndex, Visibility];
    assert keys == InlandFactors;
    assert forall k :: k in scores <==> k in keys;
    assert Tides !in scores && WaveHeight !in scores;
    if isCoastal {
      var todayTides := TodayTides(marine.value.tides, now.isoDay);
      var tideScore := TideTimingScore(todayTides, now.epochMs, instantOf);
      scores := scores[Tides := tideScore][WaveHeight := WaveHeightScore(CurrentWaveHeight(marine.value.hourly, now.isoHour))];
      keys := keys + [Tides, WaveHeight];
      assert keys == CoastalFactors;
      assert forall k :: k in scores <==> k in keys;
    }
  }

  datatype CatchProbability = CatchProbability(
    overall: int, rating: string, color: string, colorClass: string,
    breakdown: map<Factor, int>, breakdownKeys: seq<Factor>, isCoastal: bool, tip: Tip)

  /** The weighted sum of the factor scores, moved by the species modifier, rounded and clamped. */
  function OverallOf(scores: map<Factor, int>, weights: map<Factor, real>, keys: seq<Factor>,
                     fish: Option<WeatherPrefs>, w: Weather): int
    requires forall k :: k in keys ==> k in scores
  {
    ClampedScore(WeightedSum(scores, weights, keys) + SpeciesModifier(fish, w))
  }

  /** Computes `OverallOf` with the source's loop and its in-place additions. */
  method OverallScore(scores: map<Factor, int>, weights: map<Factor, real>, keys: seq<Factor>,
                      fish: Option<WeatherPrefs>, w: Weather) returns (score: int)
    requires forall k :: k in keys ==> k in scores
    ensures score == OverallOf(scores, weights, keys, fish, w)
  {
    var overall := WeightedOverall(scores, weights, keys);
    overall := AddSpeciesModifier(overall, fish, w);
    score := ClampedScore(overall);
  }

  /** The rating and the tip that `calculateCatchProbability` attaches to a final score. */
  method Advice(w: Weather, moon: MoonData, sol: SolunarData, score: int) returns (rating: Rating, tip: Tip)
    ensures rating == GetCatchRating(score)
    ensures Applies(tip, w, moon, sol, score)
    ensures forall t :: Priority(t) < Priority(tip) ==> !Applies(t, w, moon, sol, score)
  {
    rating := RatingFor(score);
    tip := GenerateTip(w, moon, sol, score);
    FirstTipIsFirstApplicable(w, moon, sol, score);
  }

  /**
   * `calculateCatchProbability`: the weighted average of the factor scores over
   * the location's profile, plus the species modifier, rounded and clamped to
   * 0..100, with its rating tier and tip. The clock readings are `now`.
   */
  method CalculateCatchProbability(w: Weather, moon: MoonData, sol: SolunarData, fish: Option<WeatherPrefs>,
                                   marine: Option<MarineContext>, hasNewWeights: bool, now: Now,
                                   instantOf: string -> real)
    returns (r: CatchProbability)
    requires 0 <= moon.phaseIndex < 8
    ensures r.isCoastal == (marine.Some? && marine.value.isCoastal)
    ensures r.breakdownKeys == ProfileFactors(hasNewWeights, r.isCoastal)
    ensures forall k :: k in r.breakdown <==> k in r.breakdownKeys
    ensures MoonPhase in r.breakdown && Solunar in r.breakdown && Pressure in r.breakdown && CloudCover in r.breakdown
    ensures r.breakdown[MoonPhase] == MoonPhases[moon.phaseIndex].score && r.breakdown[Solunar] == sol.score
    ensures r.breakdown[Pressure] == PressureScore(w.pressureTrend)
    ensures r.breakdown[CloudCover] == CloudCoverScore(w.cloudCover)
    ensures TimeOfDay in r.breakdown && r.breakdown[TimeOfDay] == TimeOfDayScore(now.localHour, w.sunriseHour, w.sunsetHour)
    ensures hasNewWeights ==> UvIndex in r.breakdown && r.breakdown[UvIndex] == UvIndexScore(w.uvIndex)
    ensures hasNewWeights ==> Visibility in r.breakdown && r.breakdown[Visibility] == VisibilityScore(w.visibility)
    ensures hasNewWeights && r.isCoastal ==> (WaveHeight in r.breakdown &&
      r.breakdown[WaveHeight] == WaveHeightScore(CurrentWaveHeight(marine.value.hourly, now.isoHour)))
    ensures hasNewWeights && r.isCoastal ==> (Tides in r.breakdown &&
      r.breakdown[Tides] == TideScoreOf(TodayTides(marine.value.tides, now.isoDay), now.epochMs, instantOf))
    ensures r.overall == OverallOf(r.breakdown, ProfileWeights(hasNewWeights, r.isCoastal), r.breakdownKeys, fish, w)
    ensures 0 <= r.overall <= 100
    ensures var rating := GetCatchRating(r.overall);
      r.rating == rating.labelText && r.color == rating.color && r.colorClass == rating.colorClass
    ensures Applies(r.tip, w, moon, sol, r.overall)
    ensures forall t :: Priority(t) < Priority(r.tip) ==> !Applies(t, w, moon, sol, r.overall)
  {
    var isCoastal := marine.Some? && marine.value.isCoastal;
    var scores, keys := FactorBreakdown(w, moon, sol, hasNewWeights, marine, now, instantOf);
    var weights := ProfileWeights(hasNewWeights, isCoastal);
    var score := OverallScore(scores, weights, keys, fish, w);
    var rating, tip := Advice(w, moon, sol, score);
    r := CatchProbability(score, rating.labelText, rating.color, rating.colorClass, scores, keys, isCoastal, tip);
    assert r.overall == score && r.breakdown == scores && r.breakdownKeys == keys;
    assert r.isCoastal == isCoastal && r.tip == tip;
  }
}
