/**
 * The constant tables of the engine: the factor weight profiles, the eight
 * moon phases, the WMO weather-code texts and the catch-rating tiers.
 */
module Config {

  /** The factors of the catch score, named as the keys of the score breakdown. */
  datatype Factor =
    | MoonPhase | Solunar | Pressure | TimeOfDay | CloudCover
    | UvIndex | Visibility | Tides | WaveHeight

  /** The keys of the inland breakdown, in the order the scorer inserts them. */
  const InlandFactors: seq<Factor> :=
    [MoonPhase, Solunar, Pressure, TimeOfDay, CloudCover, UvIndex, Visibility]

  /** The keys of the coastal breakdown: the inland ones, then tides and wave height. */
  const CoastalFactors: seq<Factor> :=
    [MoonPhase, Solunar, Pressure, TimeOfDay, CloudCover, UvIndex, Visibility, Tides, WaveHeight]

  /** The five-factor legacy weights, used only when no profile weights exist. */
  const CatchWeights: map<Factor, real> :=
    map[MoonPhase := 0.25, Solunar := 0.30, Pressure := 0.20, TimeOfDay := 0.15, CloudCover := 0.10]

  /** The five legacy factors, in the order the legacy formula adds them. */
  const LegacyFactors: seq<Factor> := [MoonPhase, Solunar, Pressure, TimeOfDay, CloudCover]

  const CatchWeightsInland: map<Factor, real> :=
    map[MoonPhase := 0.20, Solunar := 0.25, Pressure := 0.18, TimeOfDay := 0.12,
        CloudCover := 0.10, UvIndex := 0.08, Visibility := 0.07]

  const CatchWeightsCoastal: map<Factor, real> :=
    map[MoonPhase := 0.18, Solunar := 0.22, Pressure := 0.16, TimeOfDay := 0.10,
        CloudCover := 0.09, UvIndex := 0.07, Visibility := 0.06, Tides := 0.08, WaveHeight := 0.04]

  /** The sum of the weights of the given keys. */
  function WeightSum(weights: map<Factor, real>, keys: seq<Factor>): real
    requires forall k :: k in keys ==> k in weights
  {
    if |keys| == 0 then 0.0 else weights[keys[0]] + WeightSum(weights, keys[1..])
  }

  /** No key is listed twice. */
  predicate Distinct(keys: seq<Factor>) {
    forall i, j :: 0 <= i < j < |keys| ==> keys[i] != keys[j]
  }

  /** The inland profile weighs exactly its seven distinct factors. */
  lemma InlandKeys()
    ensures |InlandFactors| == 7 && Distinct(InlandFactors)
    ensures CatchWeightsInland.Keys == set k | k in InlandFactors
  {
  }

  /** The inland weights sum to exactly one. */
  lemma InlandWeightsSumToOne()
    ensures WeightSum(CatchWeightsInland, InlandFactors) == 1.0
  {
    var w := CatchWeightsInland;
    var s7 := [Visibility];
    var s6 := WeightSumCons(w, UvIndex, s7);
    var s5 := WeightSumCons(w, CloudCover, s6);
    var s4 := WeightSumCons(w, TimeOfDay, s5);
    var s3 := WeightSumCons(w, Pressure, s4);
    var s2 := WeightSumCons(w, Solunar, s3);
    var s1 := WeightSumCons(w, MoonPhase, s2);
    assert WeightSum(w, s7) == 0.07;
    assert s1 == InlandFactors;
  }

  /** The weight sum of a list is its head's weight plus the rest's; the list is returned for chaining. */
  lemma WeightSumCons(weights: map<Factor, real>, k: Factor, rest: seq<Factor>) returns (keys: seq<Factor>)
    requires k in weights && forall j :: j in rest ==> j in weights
    ensures keys == [k] + rest
    ensures WeightSum(weights, keys) == weights[k] + WeightSum(weights, rest)
  {
    keys := [k] + rest;
    assert keys[1..] == rest;
  }

  /** The coastal profile weighs the inland factors plus tides and wave height. */
  lemma CoastalKeys()
    ensures CoastalFactors == InlandFactors + [Tides, WaveHeight]
    ensures |CoastalFactors| == 9 && Distinct(CoastalFactors)
    ensures CatchWeightsCoastal.Keys == CatchWeightsInland.Keys + {Tides, WaveHeight}
    ensures CatchWeightsCoastal.Keys == set k | k in CoastalFactors
  {
  }

  /** The coastal weights sum to exactly one. */
  lemma CoastalWeightsSumToOne()
    ensures WeightSum(CatchWeightsCoastal, CoastalFactors) == 1.0
  {
    var w := CatchWeightsCoastal;
    var head := [MoonPhase, Solunar, Pressure, TimeOfDay];
    var tail := CoastalTailSum();
    var s4 := WeightSumCons(w, TimeOfDay, []);
    var s3 := WeightSumCons(w, Pressure, s4);
    var s2 := WeightSumCons(w, Solunar, s3);
    var s1 := WeightSumCons(w, MoonPhase, s2);
    assert WeightSum(w, head) == 0.66;
    WeightSumAppend(w, head, tail);
    assert head + tail == CoastalFactors;
  }

  /** The weight sum of two lists one after the other is the sum of their sums. */
  lemma {:induction false} WeightSumAppend(weights: map<Factor, real>, a: seq<Factor>, b: seq<Factor>)
    requires forall k :: k in a ==> k in weights
    requires forall k :: k in b ==> k in weights
    ensures forall k :: k in a + b ==> k in weights
    ensures WeightSum(weights, a + b) == WeightSum(weights, a) + WeightSum(weights, b)
  {
    if |a| == 0 {
      assert a + b == b;
    } else {
      assert (a + b)[1..] == a[1..] + b;
      WeightSumAppend(weights, a[1..], b);
    }
  }

  /** The last five coastal factors weigh 0.34 together. */
  lemma CoastalTailSum() returns (keys: seq<Factor>)
    ensures keys == [CloudCover, UvIndex, Visibility, Tides, WaveHeight]
    ensures WeightSum(CatchWeightsCoastal, keys) == 0.34
  {
    var w := CatchWeightsCoastal;
    var s9 := [WaveHeight];
    assert WeightSum(w, s9) == 0.04;
    var s8 := WeightSumCons(w, Tides, s9);
    var s7 := WeightSumCons(w, Visibility, s8);
    var s6 := WeightSumCons(w, UvIndex, s7);
    keys := WeightSumCons(w, CloudCover, s6);
  }

  /** Every factor both profiles share weighs strictly less in the coastal one. */
  lemma CoastalWeightsSmaller()
    ensures forall k :: k in CatchWeightsInland ==>
      k in CatchWeightsCoastal && 0.0 < CatchWeightsCoastal[k] < CatchWeightsInland[k]
  {
  }

  /** The legacy weights cover their five factors and sum to exactly one. */
  lemma LegacyWeightsSumToOne()
    ensures CatchWeights.Keys == set k | k in LegacyFactors
    ensures WeightSum(CatchWeights, LegacyFactors) == 1.0
  {
    var w := CatchWeights;
    assert WeightSum(w, [CloudCover]) == 0.10;
    assert WeightSum(w, [TimeOfDay, CloudCover]) == 0.25;
    assert WeightSum(w, [Pressure, TimeOfDay, CloudCover]) == 0.45;
    assert WeightSum(w, [Solunar, Pressure, TimeOfDay, CloudCover]) == 0.75;
  }

  datatype MoonPhaseInfo = MoonPhaseInfo(name: string, emoji: string, score: int)

  /** The eight phases, from new moon (index 0) through full moon (index 4). */
  const MoonPhases: seq<MoonPhaseInfo> := [
    MoonPhaseInfo("Neumond", "🌑", 100),
    MoonPhaseInfo("Zunehmende Sichel", "🌒", 60),
    MoonPhaseInfo("Erstes Viertel", "🌓", 40),
    MoonPhaseInfo("Zunehmender Mond", "🌔", 65),
    MoonPhaseInfo("Vollmond", "🌕", 100),
    MoonPhaseInfo("Abnehmender Mond", "🌖", 70),
    MoonPhaseInfo("Letztes Viertel", "🌗", 40),
    MoonPhaseInfo("Abnehmende Sichel", "🌘", 65)
  ]

  /** Eight phases; new and full moon score 100, every other phase less; all lie in [0, 100]. */
  lemma MoonPhaseTable()
    ensures |MoonPhases| == 8
    ensures MoonPhases[0].score == 100 && MoonPhases[4].score == 100
    ensures forall i :: 0 <= i < |MoonPhases| ==> 0 <= MoonPhases[i].score <= 100
    ensures forall i :: 0 <= i < |MoonPhases| && i != 0 && i != 4 ==> MoonPhases[i].score < 100
  {
  }

  datatype WeatherText = WeatherText(text: string, icon: string)

  /** German texts and icons of the WMO weather codes. */
  const WeatherCodes: map<int, WeatherText> := map[
    0 := WeatherText("Klar", "☀️"),
    1 := WeatherText("Ueberwiegend klar", "🌤️"),
    2 := WeatherText("Teilweise bewoelkt", "⛅"),
    3 := WeatherText("Bedeckt", "☁️"),
    45 := WeatherText("Nebel", "🌫️"),
    48 := WeatherText("Reifnebel", "🌫️"),
    51 := WeatherText("Leichter Nieselregen", "🌦️"),
    53 := WeatherText("Nieselregen", "🌦️"),
    55 := WeatherText("Starker Nieselregen", "🌧️"),
    61 := WeatherText("Leichter Regen", "🌦️"),
    63 := WeatherText("Regen", "🌧️"),
    65 := WeatherText("Starker Regen", "🌧️"),
    66 := WeatherText("Gefrierender Regen", "🌧️"),
    67 := WeatherText("Starker gefrierender Regen", "🌧️"),
    71 := WeatherText("Leichter Schneefall", "🌨️"),
    73 := WeatherText("Schneefall", "🌨️"),
    75 := WeatherText("Starker Schneefall", "🌨️"),
    77 := WeatherText("Schneegriesel", "🌨️"),
    80 := WeatherText("Leichte Regenschauer", "🌦️"),
    81 := WeatherText("Regenschauer", "🌧️"),
    82 := WeatherText("Starke Regenschauer", "🌧️"),
    85 := WeatherText("Leichte Schneeschauer", "🌨️"),
    86 := WeatherText("Starke Schneeschauer", "🌨️"),
    95 := WeatherText("Gewitter", "⛈️"),
    96 := WeatherText("Gewitter mit Hagel", "⛈️"),
    99 := WeatherText("Gewitter mit starkem Hagel", "⛈️")
  ]

  datatype Rating = Rating(min: int, labelText: string, color: string, colorClass: string)

  /** The rating tiers, from the highest threshold down. */
  const CatchRatings: seq<Rating> := [
    Rating(75, "Ausgezeichnet", "#22c55e", "rating-excellent"),
    Rating(55, "Gut", "#3b82f6", "rating-good"),
    Rating(35, "Maessig", "#f59e0b", "rating-moderate"),
    Rating(0, "Schlecht", "#ef4444", "rating-poor")
  ]

  /** The thresholds descend strictly and the last one is 0. */
  lemma RatingTable()
    ensures |CatchRatings| == 4
    ensures forall i, j :: 0 <= i < j < |CatchRatings| ==> CatchRatings[i].min > CatchRatings[j].min
    ensures CatchRatings[|CatchRatings| - 1].min == 0
  {
  }
}
