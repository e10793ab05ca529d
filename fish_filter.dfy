/**
 * The species list's search and filter bar: the water-type, season and
 * edibility predicates, the result-count wording, the conjunctive filter that
 * selects the species to show, and the rule for showing the reset button.
 * The DOM around them is not modelled; the current month and the browser's
 * `toLowerCase` are parameters.
 */
module FishFilter {
  import opened Wrappers
  import opened Text

  const SaltwaterTypes: seq<string> := ["meer", "kueste", "brackwasser"]
  const FreshwaterTypes: seq<string> := ["fluss", "see", "bach", "teich"]
  const EdibilityThreshold: real := 3.0

  /** The category value that selects every species. */
  const AllCategories: string := "alle"

  datatype Season = Season(bestMonths: Option<seq<int>>)
  datatype Edibility = Edibility(rating: Option<real>)

  /** A species record; a missing field or a field that is not an array is None. */
  datatype Fish = Fish(
    name: string, scientificName: string, family: string, category: string,
    nicknames: Option<seq<string>>, waterTypes: Option<seq<string>>,
    season: Option<Season>, edibility: Option<Edibility>)

  /** `filterState`: the search text as stored (trimmed, lower case), the category and the four toggles. */
  datatype FilterState = FilterState(
    searchText: string, category: string,
    saltwater: bool, freshwater: bool, seasonEnabled: bool, edibilityEnabled: bool)

  /** The state the search bar starts in, and the one the reset button restores. */
  function InitialState(): FilterState {
    FilterState("", AllCategories, false, false, false, false)
  }

  /** No water type is both salt water and fresh water. */
  lemma WaterTablesDisjoint()
    ensures forall t :: t in SaltwaterTypes ==> t !in FreshwaterTypes
  {
  }

  /** `xs.some(t => table.indexOf(t) !== -1)`. */
  function AnyListed(xs: seq<string>, table: seq<string>): (r: bool)
    ensures r <==> exists i :: 0 <= i < |xs| && xs[i] in table
  {
    if |xs| == 0 then false
    else if xs[0] in table then true
    else
      assert forall i :: 1 <= i < |xs| ==> xs[i] == xs[1..][i - 1];
      AnyListed(xs[1..], table)
  }

  /**
   * `matchesWaterTypeFilter`: with both toggles off every fish passes; with
   * either on, a fish without a `waterTypes` array fails, and otherwise it
   * passes when an enabled toggle's table lists one of its water types.
   */
  function MatchesWaterType(fish: Fish, saltwater: bool, freshwater: bool): (r: bool)
    ensures !saltwater && !freshwater ==> r
    ensures (saltwater || freshwater) && fish.waterTypes.None? ==> !r
    ensures fish.waterTypes.Some? && (saltwater || freshwater) ==>
      (r <==> (exists i :: 0 <= i < |fish.waterTypes.value| &&
                 ((saltwater && fish.waterTypes.value[i] in SaltwaterTypes) ||
                  (freshwater && fish.waterTypes.value[i] in FreshwaterTypes))))
  {
    if !saltwater && !freshwater then true
    else if fish.waterTypes.None? then false
    else
      var matchesSalt := saltwater && AnyListed(fish.waterTypes.value, SaltwaterTypes);
      var matchesFresh := freshwater && AnyListed(fish.waterTypes.value, FreshwaterTypes);
      matchesSalt || matchesFresh
  }

  /** With both water toggles on, a fish passes exactly when it passes one of them alone. */
  lemma BothWaterTogglesAreUnion(fish: Fish)
    ensures MatchesWaterType(fish, true, true) <==>
      MatchesWaterType(fish, true, false) || MatchesWaterType(fish, false, true)
  {
  }

  /** A fish living only in fresh water never passes the salt-water toggle alone, and vice versa. */
  lemma SingleToggleExcludesOtherWater(fish: Fish, types: seq<string>)
    requires fish.waterTypes == Some(types)
    ensures (forall i :: 0 <= i < |types| ==> types[i] in FreshwaterTypes) ==> !MatchesWaterType(fish, true, false)
    ensures (forall i :: 0 <= i < |types| ==> types[i] in SaltwaterTypes) ==> !MatchesWaterType(fish, false, true)
  {
    WaterTablesDisjoint();
  }

  /**
   * `matchesSeasonFilter`: when enabled, the fish passes only if its season
   * lists `bestMonths` and the current month (1..12) is among them.
   */
  function MatchesSeason(fish: Fish, enabled: bool, currentMonth: int): (r: bool)
    ensures !enabled ==> r
    ensures enabled && (fish.season.None? || fish.season.value.bestMonths.None?) ==> !r
    ensures enabled && fish.season.Some? && fish.season.value.bestMonths.Some? ==>
      (r <==> currentMonth in fish.season.value.bestMonths.value)
  {
    if !enabled then true
    else if fish.season.None? || fish.season.value.bestMonths.None? then false
    else currentMonth in fish.season.value.bestMonths.value
  }

  /**
   * `matchesEdibilityFilter`: when enabled, the fish passes only if it has an
   * edibility record whose rating is at least 3 (a missing rating compares false).
   */
  function MatchesEdibility(fish: Fish, enabled: bool): (r: bool)
    ensures !enabled ==> r
    ensures enabled ==>
      (r <==> (fish.edibility.Some? && fish.edibility.value.rating.Some? &&
               fish.edibility.value.rating.value >= EdibilityThreshold))
  {
    if !enabled then true
    else if fish.edibility.None? then false
    else fish.edibility.value.rating.Some? && fish.edibility.value.rating.value >= EdibilityThreshold
  }

  /** `sub` occurs in `s` starting at position k. */
  predicate OccursAt(s: string, sub: string, k: int) {
    0 <= k <= |s| - |sub| && s[k..k + |sub|] == sub
  }

  /** `s.indexOf(sub, from)`: the first position at or after `from` where `sub` occurs, or -1. */
  function IndexOfFrom(s: string, sub: string, from: nat): (r: int)
    requires from <= |s|
    ensures r == -1 || (from <= r && OccursAt(s, sub, r))
    ensures r == -1 ==> forall k :: from <= k ==> !OccursAt(s, sub, k)
    ensures r != -1 ==> forall k :: from <= k < r ==> !OccursAt(s, sub, k)
    decreases |s| - from
  {
    if |s| - from < |sub| then -1
    else if s[from..from + |sub|] == sub then from
    else IndexOfFrom(s, sub, from + 1)
  }

  /** `s.indexOf(sub) !== -1`: `sub` occurs somewhere in `s` (the empty string occurs everywhere). */
  predicate Contains(s: string, sub: string) {
    IndexOfFrom(s, sub, 0) != -1
  }

  /** Containment is occurrence at some position. */
  lemma ContainsIff(s: string, sub: string)
    ensures Contains(s, sub) <==> exists k :: OccursAt(s, sub, k)
  {
  }

  /** Every string contains the empty search text and itself. */
  lemma ContainsTrivial(s: string)
    ensures Contains(s, "") && Contains(s, s)
  {
    assert s[0..0] == "";
    assert s[0..|s|] == s;
  }

  /** Some nickname, lower-cased, contains the search text. */
  function NicknameMatches(nicknames: seq<string>, searchText: string, lower: string -> string): (r: bool)
    ensures r <==> exists i :: 0 <= i < |nicknames| && Contains(lower(nicknames[i]), searchText)
  {
    if |nicknames| == 0 then false
    else if Contains(lower(nicknames[0]), searchText) then true
    else
      assert forall i :: 1 <= i < |nicknames| ==> nicknames[i] == nicknames[1..][i - 1];
      NicknameMatches(nicknames[1..], searchText, lower)
  }

  /**
   * The search part of the filter: an empty search text matches every fish;
   * otherwise the lower-cased name, scientific name, family or one of the
   * nicknames must contain it.
   */
  predicate MatchesSearch(fish: Fish, searchText: string, lower: string -> string) {
    searchText == "" ||
    Contains(lower(fish.name), searchText) ||
    Contains(lower(fish.scientificName), searchText) ||
    Contains(lower(fish.family), searchText) ||
    (fish.nicknames.Some? && NicknameMatches(fish.nicknames.value, searchText, lower))
  }

  /** The category part: 'alle' or the fish's own category. */
  predicate MatchesCategory(fish: Fish, category: string) {
    category == AllCategories || fish.category == category
  }

  /** The five conditions of the filter callback, all of which must hold. */
  predicate Selected(fish: Fish, state: FilterState, currentMonth: int, lower: string -> string) {
    MatchesCategory(fish, state.category) &&
    MatchesSearch(fish, state.searchText, lower) &&
    MatchesWaterType(fish, state.saltwater, state.freshwater) &&
    MatchesSeason(fish, state.seasonEnabled, currentMonth) &&
    MatchesEdibility(fish, state.edibilityEnabled)
  }

  /** `fishData.filter(...)`: the selected species, in their original order. */
  function Filter(fishData: seq<Fish>, state: FilterState, currentMonth: int, lower: string -> string): (r: seq<Fish>)
    ensures |r| <= |fishData|
    ensures forall i :: 0 <= i < |r| ==> Selected(r[i], state, currentMonth, lower)
    ensures forall f :: f in r <==> f in fishData && Selected(f, state, currentMonth, lower)
  {
    if |fishData| == 0 then []
    else
      var rest := Filter(fishData[1..], state, currentMonth, lower);
      assert forall f :: f in fishData <==> f == fishData[0] || f in fishData[1..];
      if Selected(fishData[0], state, currentMonth, lower) then [fishData[0]] + rest else rest
  }

  /** Filtering a concatenation filters each part and keeps them in order. */
  lemma {:induction false} FilterAppend(a: seq<Fish>, b: seq<Fish>, state: FilterState, currentMonth: int,
                                        lower: string -> string)
    ensures Filter(a + b, state, currentMonth, lower) ==
      Filter(a, state, currentMonth, lower) + Filter(b, state, currentMonth, lower)
    decreases |a|
  {
    if |a| > 0 {
      assert (a + b)[1..] == a[1..] + b;
      FilterAppend(a[1..], b, state, currentMonth, lower);
    } else {
      assert a + b == b;
    }
  }

  /** `sub` is `xs` with some elements dropped and the rest kept in order. */
  ghost predicate IsSubsequence(sub: seq<Fish>, xs: seq<Fish>)
    decreases |xs|
  {
    if |sub| == 0 then true
    else if |xs| == 0 then false
    else if sub[0] == xs[0] then IsSubsequence(sub[1..], xs[1..])
    else IsSubsequence(sub, xs[1..])
  }

  /** The filtered list is an order-preserving subsequence of the species list. */
  lemma {:induction false} FilterIsSubsequence(fishData: seq<Fish>, state: FilterState, currentMonth: int,
                                               lower: string -> string)
    ensures IsSubsequence(Filter(fishData, state, currentMonth, lower), fishData)
    decreases |fishData|
  {
    if |fishData| > 0 {
      var rest := Filter(fishData[1..], state, currentMonth, lower);
      FilterIsSubsequence(fishData[1..], state, currentMonth, lower);
      if Selected(fishData[0], state, currentMonth, lower) {
        assert ([fishData[0]] + rest)[1..] == rest;
      }
    }
  }

  /** Filtering an already filtered list changes nothing. */
  lemma {:induction false} FilterIdempotent(fishData: seq<Fish>, state: FilterState, currentMonth: int,
                                            lower: string -> string)
    ensures var once := Filter(fishData, state, currentMonth, lower);
      Filter(once, state, currentMonth, lower) == once
    decreases |fishData|
  {
    if |fishData| > 0 {
      var rest := Filter(fishData[1..], state, currentMonth, lower);
      FilterIdempotent(fishData[1..], state, currentMonth, lower);
      if Selected(fishData[0], state, currentMonth, lower) {
        assert ([fishData[0]] + rest)[1..] == rest;
      }
    }
  }

  /** `anyFilterActive`: a category other than 'alle', a search text, or a toggle that is on. */
  function AnyFilterActive(state: FilterState): (r: bool)
    ensures r <==> state != InitialState()
  {
    state.category != AllCategories || state.searchText != "" ||
    state.saltwater || state.freshwater || state.seasonEnabled || state.edibilityEnabled
  }

  /** With no filter active every species is selected, whatever the month. */
  lemma InactiveSelectsAll(fish: Fish, state: FilterState, currentMonth: int, lower: string -> string)
    requires !AnyFilterActive(state)
    ensures Selected(fish, state, currentMonth, lower)
  {
  }

  /** With no filter active the filtered list is the whole species list. */
  lemma {:induction false} InactiveFilterKeepsAll(fishData: seq<Fish>, state: FilterState, currentMonth: int,
                                                  lower: string -> string)
    requires !AnyFilterActive(state)
    ensures Filter(fishData, state, currentMonth, lower) == fishData
    decreases |fishData|
  {
    if |fishData| > 0 {
      var head, tail := fishData[0], fishData[1..];
      InactiveSelectsAll(head, state, currentMonth, lower);
      InactiveFilterKeepsAll(tail, state, currentMonth, lower);
      assert Filter(fishData, state, currentMonth, lower) == [head] + Filter(tail, state, currentMonth, lower);
      assert [head] + tail == fishData;
    }
  }

  /**
   * `formatResultCount`: "Keine Arten gefunden" for none, "1 Art gefunden" for
   * one, and the number followed by " Arten gefunden" otherwise.
   */
  function FormatResultCount(count: nat): (s: string)
    ensures count == 0 <==> s == "Keine Arten gefunden"
    ensures count == 1 <==> s == "1 Art gefunden"
    ensures count >= 2 ==> s == IntText(count) + " Arten gefunden"
  {
    if count == 0 then "Keine Arten gefunden"
    else if count == 1 then "1 Art gefunden"
    else
      var s := IntText(count) + " Arten gefunden";
      assert s[0] != 'K' by { assert s[0] == NatText(count)[0]; }
      assert s != "1 Art gefunden" by { assert |NatText(count)| > 1 ==> s[1] != ' '; }
      s
  }

  /** Different counts are announced with different wording. */
  lemma FormatResultCountInjective(m: nat, n: nat)
    requires FormatResultCount(m) == FormatResultCount(n)
    ensures m == n
  {
    if m >= 2 && n >= 2 {
      var sm := IntText(m);
      var sn := IntText(n);
      var suffix := " Arten gefunden";
      assert sm + suffix == sn + suffix;
      assert |sm| == |sn|;
      assert sm == (sm + suffix)[..|sm|];
      assert sn == (sn + suffix)[..|sn|];
      IntTextInjective(m, n);
    }
  }

  /** JavaScript's `trim` whitespace: the white-space and line-terminator characters. */
  predicate IsTrimmable(c: char) {
    c in {'\t', '\n', '\U{000B}', '\U{000C}', '\r', ' ', '\U{00A0}', '\U{1680}', '\U{2028}', '\U{2029}',
          '\U{202F}', '\U{205F}', '\U{3000}', '\U{FEFF}'} ||
    '\U{2000}' <= c <= '\U{200A}'
  }

  /** `s.trim()`: the slice of `s` without leading and trailing whitespace. */
  function Trim(s: string): (t: string)
    ensures exists i, j :: (0 <= i <= j <= |s| && t == s[i..j] &&
                            (forall k :: 0 <= k < i ==> IsTrimmable(s[k])) &&
                            (forall k :: j <= k < |s| ==> IsTrimmable(s[k])))
    ensures |t| > 0 ==> !IsTrimmable(t[0]) && !IsTrimmable(t[|t| - 1])
  {
    var i := SkipLeading(s, 0);
    var j := SkipTrailing(s, i, |s|);
    s[i..j]
  }

  /** The first position at or after `i` that does not hold whitespace, or |s|. */
  function SkipLeading(s: string, i: nat): (r: nat)
    requires i <= |s|
    ensures i <= r <= |s| && (r < |s| ==> !IsTrimmable(s[r]))
    ensures forall k :: i <= k < r ==> IsTrimmable(s[k])
    decreases |s| - i
  {
    if i < |s| && IsTrimmable(s[i]) then SkipLeading(s, i + 1) else i
  }

  /** The end of `s[lo..j]` once trailing whitespace is dropped. */
  function SkipTrailing(s: string, lo: nat, j: nat): (r: nat)
    requires lo <= j <= |s|
    ensures lo <= r <= j && (r > lo ==> !IsTrimmable(s[r - 1]))
    ensures forall k :: r <= k < j ==> IsTrimmable(s[k])
    decreases j
  {
    if j > lo && IsTrimmable(s[j - 1]) then SkipTrailing(s, lo, j - 1) else j
  }

  /** The four toggle buttons of the filter row. */
  datatype Toggle = FreshwaterToggle | SaltwaterToggle | SeasonToggle | EdibilityToggle

  /** A click on a toggle button flips its flag and nothing else. */
  function Flip(state: FilterState, t: Toggle): (r: FilterState)
    ensures r.searchText == state.searchText && r.category == state.category
    ensures r.saltwater == (if t == SaltwaterToggle then !state.saltwater else state.saltwater)
    ensures r.freshwater == (if t == FreshwaterToggle then !state.freshwater else state.freshwater)
    ensures r.seasonEnabled == (if t == SeasonToggle then !state.seasonEnabled else state.seasonEnabled)
    ensures r.edibilityEnabled == (if t == EdibilityToggle then !state.edibilityEnabled else state.edibilityEnabled)
  {
    match t
    case FreshwaterToggle => state.(freshwater := !state.freshwater)
    case SaltwaterToggle => state.(saltwater := !state.saltwater)
    case SeasonToggle => state.(seasonEnabled := !state.seasonEnabled)
    case EdibilityToggle => state.(edibilityEnabled := !state.edibilityEnabled)
  }

  /** Clicking a toggle twice restores the state. */
  lemma FlipTwice(state: FilterState, t: Toggle)
    ensures Flip(Flip(state, t), t) == state
  {
  }

  /** What `applyFilter` leaves behind: the state it stored, the list it passes on, the counter text and the reset button. */
  datatype FilterView = FilterView(state: FilterState, filtered: seq<Fish>, counter: string, resetVisible: bool)

  /**
   * `applyFilter`: stores the trimmed, lower-cased input and the active
   * category in the state, filters the species, and updates the counter and
   * the reset button.
   */
  function ApplyFilter(fishData: seq<Fish>, state: FilterState, inputValue: string, activeCategory: string,
                       currentMonth: int, lower: string -> string): (v: FilterView)
    ensures v.state == state.(searchText := lower(Trim(inputValue)), category := activeCategory)
    ensures forall f :: f in v.filtered <==> f in fishData && Selected(f, v.state, currentMonth, lower)
    ensures IsSubsequence(v.filtered, fishData)
    ensures v.counter == FormatResultCount(|v.filtered|)
    ensures v.resetVisible <==> v.state != InitialState()
    ensures !v.resetVisible ==> v.filtered == fishData
  {
    var stored := state.(searchText := lower(Trim(inputValue)), category := activeCategory);
    var filtered := Filter(fishData, stored, currentMonth, lower);
    FilterIsSubsequence(fishData, stored, currentMonth, lower);
    var view := FilterView(stored, filtered, FormatResultCount(|filtered|), AnyFilterActive(stored));
    if AnyFilterActive(stored) then view
    else
      InactiveFilterKeepsAll(fishData, stored, currentMonth, lower);
      view
  }

  /**
   * The reset button clears the input and every filter; the list shown
   * afterwards is the whole species list with its count, as when the bar was
   * first rendered, and the reset button hides again.
   */
  lemma ResetShowsEverything(fishData: seq<Fish>, currentMonth: int, lower: string -> string)
    requires lower("") == ""
    ensures var v := ApplyFilter(fishData, InitialState(), "", AllCategories, currentMonth, lower);
      v.state == InitialState() && v.filtered == fishData &&
      v.counter == FormatResultCount(|fishData|) && !v.resetVisible
  {
    assert Trim("") == "";
  }

  /** Turning a toggle on always shows the reset button. */
  lemma ToggleOnShowsReset(fishData: seq<Fish>, state: FilterState, t: Toggle, inputValue: string,
                           activeCategory: string, currentMonth: int, lower: string -> string)
    requires var s := Flip(state, t);
      s.saltwater || s.freshwater || s.seasonEnabled || s.edibilityEnabled
    ensures ApplyFilter(fishData, Flip(state, t), inputValue, activeCategory, currentMonth, lower).resetVisible
  {
  }
}
