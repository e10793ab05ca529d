/**
 * Marine data processing: tide events found by peak detection in the hourly
 * wave heights, grouped per day, and per-day summaries of the daily marine data.
 */
module Marine {
  import opened Wrappers
  import opened JsMath

  datatype TideKind = High | Low

  datatype TideEvent = TideEvent(time: string, height: real, kind: TideKind)

  /** The tide events of one calendar day, in the order of the hourly samples. */
  datatype TideDay = TideDay(date: string, tides: seq<TideEvent>)

  /**
   * The hourly block of a marine response: the time stamps and the wave heights,
   * each absent or an array; a height is None where the array holds null.
   */
  datatype HourlyHeights = HourlyHeights(time: Option<seq<string>>, waveHeight: Option<seq<Option<real>>>)

  /** One hourly sample in its day's group, with its index in the whole series. */
  datatype Sample = Sample(time: string, height: Option<real>, index: int)

  /** `time.slice(0, 10)`: the "YYYY-MM-DD" part of an ISO time stamp. */
  function DatePrefix(t: string): (d: string)
    ensures |d| <= 10 && d <= t
  {
    if |t| <= 10 then t else t[..10]
  }

  /**
   * The height at an index; None both for null and for an index past the end of
   * the array. Either way no comparison involving it succeeds.
   */
  function HeightAt(heights: seq<Option<real>>, i: int): Option<real> {
    if 0 <= i < |heights| then heights[i] else None
  }

  /** `Math.round(x * 100) / 100`: two decimals. */
  function Round2(x: real): (r: real)
    ensures x - 0.005 < r <= x + 0.005
  {
    Round(x * 100.0) as real / 100.0
  }

  /** The distinct dates of the time stamps, in the order they first appear. */
  function DayOrder(times: seq<string>): (ds: seq<string>)
    ensures |ds| <= |times|
  {
    if |times| == 0 then []
    else
      var prev := DayOrder(times[..|times| - 1]);
      var d := DatePrefix(times[|times| - 1]);
      if d in prev then prev else prev + [d]
  }

  /** The grouped dates are exactly the dates of the time stamps. */
  lemma {:induction false} DayOrderMembers(times: seq<string>)
    ensures forall d :: d in DayOrder(times) <==> exists i :: 0 <= i < |times| && DatePrefix(times[i]) == d
  {
    if |times| > 0 {
      var init := times[..|times| - 1];
      var last := DatePrefix(times[|times| - 1]);
      DayOrderMembers(init);
      forall d ensures d in DayOrder(times) <==> exists i :: 0 <= i < |times| && DatePrefix(times[i]) == d {
        if d in DayOrder(times) {
          if d in DayOrder(init) {
            var i :| 0 <= i < |init| && DatePrefix(init[i]) == d;
            assert times[i] == init[i];
          } else {
            assert DatePrefix(times[|times| - 1]) == d;
          }
        }
        if exists i :: 0 <= i < |times| && DatePrefix(times[i]) == d {
          var i :| 0 <= i < |times| && DatePrefix(times[i]) == d;
          if i < |init| {
            assert DatePrefix(init[i]) == d;
          }
        }
      }
    }
  }

  predicate Distinct(ds: seq<string>) {
    forall i, j :: 0 <= i < j < |ds| ==> ds[i] != ds[j]
  }

  /** No date is grouped twice. */
  lemma {:induction false} DayOrderDistinct(times: seq<string>)
    ensures Distinct(DayOrder(times))
  {
    if |times| > 0 {
      DayOrderDistinct(times[..|times| - 1]);
    }
  }

  /** The samples among the first n whose date is the given one, in time order. */
  function GroupOf(times: seq<string>, heights: seq<Option<real>>, date: string, n: int): seq<Sample>
    requires 0 <= n <= |times|
  {
    if n == 0 then []
    else
      var prev := GroupOf(times, heights, date, n - 1);
      if DatePrefix(times[n - 1]) == date then prev + [Sample(times[n - 1], HeightAt(heights, n - 1), n - 1)]
      else prev
  }

  /** Samples of one date, each with its own time and height, among the first n, in time-stamp order. */
  predicate SamplesOfDate(g: seq<Sample>, times: seq<string>, heights: seq<Option<real>>, date: string, n: int)
    requires 0 <= n <= |times|
  {
    && (forall k :: 0 <= k < |g| ==>
         0 <= g[k].index < n && g[k].time == times[g[k].index] && DatePrefix(g[k].time) == date &&
         g[k].height == HeightAt(heights, g[k].index))
    && (forall k, l :: 0 <= k < l < |g| ==> g[k].index < g[l].index)
  }

  /** A day's group holds samples of that date with their own time and height, in time-stamp order. */
  lemma {:induction false} GroupOfSamples(times: seq<string>, heights: seq<Option<real>>, date: string, n: int)
    requires 0 <= n <= |times|
    ensures SamplesOfDate(GroupOf(times, heights, date, n), times, heights, date, n)
  {
    if n > 0 {
      var prev := GroupOf(times, heights, date, n - 1);
      GroupOfSamples(times, heights, date, n - 1);
      if DatePrefix(times[n - 1]) == date {
        SamplesOfDateAppend(prev, times, heights, date, n);
      } else {
        assert GroupOf(times, heights, date, n) == prev;
      }
    }
  }

  /** The sample at time stamp n-1, put after the earlier samples of its date, keeps them in order. */
  lemma SamplesOfDateAppend(prev: seq<Sample>, times: seq<string>, heights: seq<Option<real>>, date: string, n: int)
    requires 0 < n <= |times| && DatePrefix(times[n - 1]) == date
    requires SamplesOfDate(prev, times, heights, date, n - 1)
    ensures SamplesOfDate(prev + [Sample(times[n - 1], HeightAt(heights, n - 1), n - 1)], times, heights, date, n)
  {
    var g := prev + [Sample(times[n - 1], HeightAt(heights, n - 1), n - 1)];
    assert forall k :: 0 <= k < |prev| ==> g[k] == prev[k];
  }

  /**
   * The event at an interior sample: none when a neighbour or the sample itself
   * is missing; high water at a strict local maximum, low water at a strict
   * local minimum, the height rounded to two decimals.
   */
  function EventAt(g: seq<Sample>, k: int): (es: seq<TideEvent>)
    requires 1 <= k < |g| - 1
    ensures |es| <= 1
  {
    var prev, curr, next := g[k - 1].height, g[k].height, g[k + 1].height;
    if prev.None? || curr.None? || next.None? then []
    else
      var c := curr.value;
      (if c > prev.value && c > next.value then [TideEvent(g[k].time, Round2(c), High)] else []) +
      (if c < prev.value && c < next.value then [TideEvent(g[k].time, Round2(c), Low)] else [])
  }

  /** The events of the interior samples 1 .. n-1. */
  function EventsUpTo(g: seq<Sample>, n: int): seq<TideEvent>
    requires n <= |g| - 1
  {
    if n <= 1 then [] else EventsUpTo(g, n - 1) + EventAt(g, n - 1)
  }

  /** The tide events of one day's group of samples. */
  function DayEvents(g: seq<Sample>): seq<TideEvent> {
    if |g| < 3 then [] else EventsUpTo(g, |g| - 1)
  }

  /** The sample index each event of `EventsUpTo(g, n)` comes from. */
  function EventSources(g: seq<Sample>, n: int): seq<int>
    requires n <= |g| - 1
  {
    if n <= 1 then [] else EventSources(g, n - 1) + (if |EventAt(g, n - 1)| == 1 then [n - 1] else [])
  }

  /**
   * The events are taken at interior samples below n, one per sample at most,
   * in strictly increasing sample order, each carrying its sample's time stamp.
   */
  predicate SourcedEvents(es: seq<TideEvent>, src: seq<int>, g: seq<Sample>, n: int) {
    |src| == |es| &&
    (forall j :: 0 <= j < |src| ==> 1 <= src[j] < n && src[j] < |g| && es[j].time == g[src[j]].time) &&
    (forall j, j' :: 0 <= j < j' < |src| ==> src[j] < src[j'])
  }

  /** The events of a day follow the order of its samples. */
  lemma {:induction false} EventsUpToOrdered(g: seq<Sample>, n: int)
    requires n <= |g| - 1
    ensures SourcedEvents(EventsUpTo(g, n), EventSources(g, n), g, n)
  {
    if n > 1 {
      EventsUpToOrdered(g, n - 1);
      var es, src := EventsUpTo(g, n - 1), EventSources(g, n - 1);
      var e := EventAt(g, n - 1);
      if |e| == 1 {
        assert e[0].time == g[n - 1].time;
        SourcedAppend(es, src, g, n, e[0]);
      } else {
        assert EventsUpTo(g, n) == es && EventSources(g, n) == src;
      }
    }
  }

  /** An event at sample n-1, put after the events of earlier samples, keeps them ordered. */
  lemma SourcedAppend(es: seq<TideEvent>, src: seq<int>, g: seq<Sample>, n: int, e: TideEvent)
    requires 1 <= n - 1 < |g| && e.time == g[n - 1].time
    requires SourcedEvents(es, src, g, n - 1)
    ensures SourcedEvents(es + [e], src + [n - 1], g, n)
  {
    var es', src' := es + [e], src + [n - 1];
    assert forall j :: 0 <= j < |src| ==> src'[j] == src[j] && es'[j] == es[j];
  }

  /** The days, among the given dates, that have at least one tide event. */
  function TideDaysOf(dates: seq<string>, times: seq<string>, heights: seq<Option<real>>): seq<TideDay> {
    if |dates| == 0 then []
    else
      var prev := TideDaysOf(dates[..|dates| - 1], times, heights);
      var d := dates[|dates| - 1];
      var events := DayEvents(GroupOf(times, heights, d, |times|));
      if |events| > 0 then prev + [TideDay(d, events)] else prev
  }

  /** What `extractTideTimes` returns for an hourly block. */
  function TideDays(hourly: Option<HourlyHeights>): seq<TideDay> {
    if hourly.None? || hourly.value.time.None? then []
    else
      var times := hourly.value.time.value;
      var heights := hourly.value.waveHeight.GetOr([]);
      if |heights| == 0 || |times| == 0 then []
      else TideDaysOf(DayOrder(times), times, heights)
  }

  /** The peak detection over one day's samples (the inner loop of `extractTideTimes`). */
  method PeaksOfDay(g: seq<Sample>) returns (dayTides: seq<TideEvent>)
    ensures dayTides == DayEvents(g)
  {
    dayTides := [];
    var i := 1;
    while i < |g| - 1
      invariant 1 <= i && (|g| >= 2 ==> i <= |g| - 1)
      invariant dayTides == EventsUpTo(g, if |g| >= 2 then i else |g| - 1)
    {
      var prev, curr, next := g[i - 1].height, g[i].height, g[i + 1].height;
      if prev.None? || curr.None? || next.None? {
        i := i + 1;
        continue;
      }
      var c := curr.value;
      var found: seq<TideEvent> := [];
      if c > prev.value && c > next.value {
        found := found + [TideEvent(g[i].time, Round2(c), High)];
      }
      if c < prev.value && c < next.value {
        found := found + [TideEvent(g[i].time, Round2(c), Low)];
      }
      dayTides := dayTides + found;
      i := i + 1;
    }
  }

  /** The grouping loop of `extractTideTimes`: a list per date and the dates in order of first appearance. */
  method GroupByDay(times: seq<string>, heights: seq<Option<real>>)
    returns (dayGroups: map<string, seq<Sample>>, order: seq<string>)
    ensures order == DayOrder(times)
    ensures forall d :: d in dayGroups <==> d in order
    ensures forall d :: d in dayGroups ==> dayGroups[d] == GroupOf(times, heights, d, |times|)
  {
    dayGroups := map[];
    order := [];
    var i := 0;
    while i < |times|
      invariant 0 <= i <= |times|
      invariant GroupedUpTo(times, heights, dayGroups, order, i)
    {
      ghost var groups0, order0 := dayGroups, order;
      var date := DatePrefix(times[i]);
      if date !in dayGroups {
        dayGroups := dayGroups[date := []];
        order := order + [date];
      }
      dayGroups := dayGroups[date := dayGroups[date] + [Sample(times[i], HeightAt(heights, i), i)]];
      GroupingStep(times, heights, groups0, order0, i, dayGroups, order);
      i := i + 1;
    }
    assert times[..|times|] == times;
    GroupsUpToGroupOf(times, heights, |times|);
  }

  /**
   * `extractTideTimes`: groups the hourly samples by date in order of first
   * appearance, runs the peak detection on each day, and keeps the days that
   * have events.
   */
  method ExtractTideTimes(hourly: Option<HourlyHeights>) returns (tides: seq<TideDay>)
    ensures tides == TideDays(hourly)
  {
    if hourly.None? || hourly.value.time.None? {
      return [];
    }
    var heights := hourly.value.waveHeight.GetOr([]);
    var times := hourly.value.time.value;
    if |heights| == 0 || |times| == 0 {
      return [];
    }
    var dayGroups, order := GroupByDay(times, heights);

    tides := [];
    var j := 0;
    while j < |order|
      invariant 0 <= j <= |order|
      invariant tides == TideDaysOf(order[..j], times, heights)
    {
      var date := order[j];
      assert date in order;
      var group := dayGroups[date];
      assert group == GroupOf(times, heights, date, |times|);
      var dayTides := PeaksOfDay(group);
      var upTo := order[..j + 1];
      assert upTo[..|upTo| - 1] == order[..j] && upTo[|upTo| - 1] == date;
      if |dayTides| > 0 {
        tides := tides + [TideDay(date, dayTides)];
      }
      j := j + 1;
    }
    assert order[..|order|] == order;
  }

  /**
   * The groups after the first n time stamps: each stamp's sample appended to
   * its date's list, which is opened empty when the date is new.
   */
  function GroupsUpTo(times: seq<string>, heights: seq<Option<real>>, n: int): map<string, seq<Sample>>
    requires 0 <= n <= |times|
  {
    if n == 0 then map[]
    else
      var groups := GroupsUpTo(times, heights, n - 1);
      var date := DatePrefix(times[n - 1]);
      groups[date := (if date in groups then groups[date] else []) + [Sample(times[n - 1], HeightAt(heights, n - 1), n - 1)]]
  }

  /** Each date's group is the list of its samples, and a date without a group has no samples. */
  lemma {:induction false} GroupsUpToGroupOf(times: seq<string>, heights: seq<Option<real>>, n: int)
    requires 0 <= n <= |times|
    ensures var groups := GroupsUpTo(times, heights, n);
      forall d :: GroupOf(times, heights, d, n) == if d in groups then groups[d] else []
  {
    if n > 0 {
      GroupsUpToGroupOf(times, heights, n - 1);
      var groups := GroupsUpTo(times, heights, n);
      var date := DatePrefix(times[n - 1]);
      forall d ensures GroupOf(times, heights, d, n) == if d in groups then groups[d] else [] {
        if d != date {
          assert GroupOf(times, heights, d, n) == GroupOf(times, heights, d, n - 1);
        }
      }
    }
  }

  /** The groups and the date order after the first i time stamps. */
  ghost predicate GroupedUpTo(times: seq<string>, heights: seq<Option<real>>,
                        groups: map<string, seq<Sample>>, order: seq<string>, i: int)
    requires 0 <= i <= |times|
  {
    && order == DayOrder(times[..i])
    && groups == GroupsUpTo(times, heights, i)
    && (forall d :: d in groups <==> d in order)
  }

  /**
   * One step of the grouping loop: a new date opens an empty group and joins
   * the order, then the sample is appended to its date's group.
   */
  lemma GroupingStep(times: seq<string>, heights: seq<Option<real>>,
                     groups: map<string, seq<Sample>>, order: seq<string>, i: int,
                     groups': map<string, seq<Sample>>, order': seq<string>)
    requires 0 <= i < |times|
    requires GroupedUpTo(times, heights, groups, order, i)
    requires var date := DatePrefix(times[i]);
      && order' == (if date in groups then order else order + [date])
      && groups' == groups[date := (if date in groups then groups[date] else []) + [Sample(times[i], HeightAt(heights, i), i)]]
    ensures GroupedUpTo(times, heights, groups', order', i + 1)
  {
    var date := DatePrefix(times[i]);
    assert date in groups <==> date in order;
    OrderStep(times, i, date in groups, order, order');
    GroupKeysStep(groups, order, date, groups'[date], groups', order');
  }

  /** The order kept by the loop grows exactly as the order of the dates seen so far. */
  lemma OrderStep(times: seq<string>, i: int, seen: bool, order: seq<string>, order': seq<string>)
    requires 0 <= i < |times|
    requires order == DayOrder(times[..i])
    requires seen <==> DatePrefix(times[i]) in order
    requires order' == (if seen then order else order + [DatePrefix(times[i])])
    ensures order' == DayOrder(times[..i + 1])
  {
    DayOrderStep(times, i);
  }

  /** Opening a group for a new date adds that date to the order, so keys and order still agree. */
  lemma GroupKeysStep(groups: map<string, seq<Sample>>, order: seq<string>, date: string, group: seq<Sample>,
                      groups': map<string, seq<Sample>>, order': seq<string>)
    requires forall d :: d in groups <==> d in order
    requires order' == (if date in groups then order else order + [date])
    requires groups' == groups[date := group]
    ensures forall d :: d in groups' <==> d in order'
  {
    forall d ensures d in groups' <==> d in order' {
      if d != date {
        assert d in groups' <==> d in groups;
        assert d in order' <==> d in order;
      }
    }
  }

  /** One more time stamp adds its date to the order unless the date is already there. */
  lemma DayOrderStep(times: seq<string>, i: int)
    requires 0 <= i < |times|
    ensures var prev := DayOrder(times[..i]);
      DayOrder(times[..i + 1]) == if DatePrefix(times[i]) in prev then prev else prev + [DatePrefix(times[i])]
  {
    var upTo := times[..i + 1];
    assert upTo[..|upTo| - 1] == times[..i] && upTo[|upTo| - 1] == times[i];
  }

  /** Every reported day has at least one event and is one of the given dates. */
  lemma {:induction false} TideDaysOfFromDates(dates: seq<string>, times: seq<string>, heights: seq<Option<real>>)
    ensures forall k :: 0 <= k < |TideDaysOf(dates, times, heights)| ==>
      |TideDaysOf(dates, times, heights)[k].tides| > 0 && TideDaysOf(dates, times, heights)[k].date in dates
  {
    if |dates| > 0 {
      var init := dates[..|dates| - 1];
      TideDaysOfFromDates(init, times, heights);
      var prev := TideDaysOf(init, times, heights);
      var r := TideDaysOf(dates, times, heights);
      assert forall k :: 0 <= k < |prev| ==> r[k] == prev[k];
      assert forall d :: d in init ==> d in dates;
      assert dates[|dates| - 1] in dates;
    }
  }

  /** No date is reported twice. */
  predicate DistinctDays(r: seq<TideDay>) {
    forall k, l :: 0 <= k < l < |r| ==> r[k].date != r[l].date
  }

  /** Distinct dates give distinct reported days. */
  lemma {:induction false} TideDaysOfDistinct(dates: seq<string>, times: seq<string>, heights: seq<Option<real>>)
    requires Distinct(dates)
    ensures DistinctDays(TideDaysOf(dates, times, heights))
  {
    if |dates| > 0 {
      var init := dates[..|dates| - 1];
      assert Distinct(init);
      TideDaysOfDistinct(init, times, heights);
      TideDaysOfFromDates(init, times, heights);
      assert dates[|dates| - 1] !in init;
      var prev := TideDaysOf(init, times, heights);
      var r := TideDaysOf(dates, times, heights);
      var last := dates[|dates| - 1];
      var events := DayEvents(GroupOf(times, heights, last, |times|));
      assert r == if |events| > 0 then prev + [TideDay(last, events)] else prev;
      forall k, l | 0 <= k < l < |r|
        ensures r[k].date != r[l].date
      {
        if l < |prev| {
          assert r[k] == prev[k] && r[l] == prev[l];
          assert prev[k].date != prev[l].date;
        } else {
          assert r[k] == prev[k] && prev[k].date in init;
          assert l == |prev| && r[l] == TideDay(last, events);
          assert prev[k].date != last;
        }
      }
    }
  }

  /**
   * The days reported by `extractTideTimes` are distinct, each has at least one
   * event, and each is the date of some input time stamp.
   */
  lemma TideDaysShape(hourly: Option<HourlyHeights>)
    ensures forall k :: 0 <= k < |TideDays(hourly)| ==> |TideDays(hourly)[k].tides| > 0
    ensures DistinctDays(TideDays(hourly))
  {
    if hourly.Some? && hourly.value.time.Some? {
      var times := hourly.value.time.value;
      var heights := hourly.value.waveHeight.GetOr([]);
      var r := TideDays(hourly);
      if |heights| > 0 && |times| > 0 {
        var dates := DayOrder(times);
        assert r == TideDaysOf(dates, times, heights);
        DayOrderDistinct(times);
        TideDaysOfFromDates(dates, times, heights);
        TideDaysOfDistinct(dates, times, heights);
      }
    }
  }

  /** Each reported day is the date of some input time stamp. */
  lemma TideDaysFromInput(times: seq<string>, heights: seq<Option<real>>)
    ensures var r := TideDays(Some(HourlyHeights(Some(times), Some(heights))));
      forall k :: 0 <= k < |r| ==> (exists i :: 0 <= i < |times| && DatePrefix(times[i]) == r[k].date)
  {
    TideDaysOfFromDates(DayOrder(times), times, heights);
    DayOrderMembers(times);
  }

  /** Missing or empty input yields no days. */
  lemma TideDaysOfNothing(hourly: Option<HourlyHeights>)
    requires hourly.None? || hourly.value.time.None? || hourly.value.time.value == [] ||
      hourly.value.waveHeight.None? || hourly.value.waveHeight.value == []
    ensures TideDays(hourly) == []
  {
  }

  /** The interior sample is a strict local maximum or minimum of its day, all three heights present. */
  predicate StrictPeak(g: seq<Sample>, k: int, kind: TideKind)
    requires 1 <= k < |g| - 1
  {
    g[k - 1].height.Some? && g[k].height.Some? && g[k + 1].height.Some? &&
    var prev, c, next := g[k - 1].height.value, g[k].height.value, g[k + 1].height.value;
    match kind
    case High => c > prev && c > next
    case Low => c < prev && c < next
  }

  /**
   * An interior sample yields high water exactly when it is a strict local
   * maximum, low water exactly when it is a strict local minimum, never both,
   * and nothing on a plateau or next to a missing height.
   */
  lemma EventAtCharacterised(g: seq<Sample>, k: int)
    requires 1 <= k < |g| - 1
    ensures |EventAt(g, k)| == 1 <==> StrictPeak(g, k, High) || StrictPeak(g, k, Low)
    ensures !(StrictPeak(g, k, High) && StrictPeak(g, k, Low))
    ensures forall e :: e in EventAt(g, k) ==>
      e.time == g[k].time && e.height == Round2(g[k].height.value) && StrictPeak(g, k, e.kind)
  {
  }

  /** Every event of a day comes from an interior sample that is a strict peak of its kind. */
  lemma {:induction false} EventsUpToSound(g: seq<Sample>, n: int)
    requires n <= |g| - 1
    ensures forall e :: e in EventsUpTo(g, n) ==>
      exists k :: 1 <= k < n && e.time == g[k].time && StrictPeak(g, k, e.kind)
  {
    if n > 1 {
      EventsUpToSound(g, n - 1);
      EventAtCharacterised(g, n - 1);
    }
  }

  /** Every strict peak of a day is reported, with its kind. */
  lemma {:induction false} EventsUpToComplete(g: seq<Sample>, n: int, k: int, kind: TideKind)
    requires n <= |g| - 1
    requires 1 <= k < n && StrictPeak(g, k, kind)
    ensures TideEvent(g[k].time, Round2(g[k].height.value), kind) in EventsUpTo(g, n)
  {
    var e := TideEvent(g[k].time, Round2(g[k].height.value), kind);
    assert EventsUpTo(g, n) == EventsUpTo(g, n - 1) + EventAt(g, n - 1);
    if k < n - 1 {
      EventsUpToComplete(g, n - 1, k, kind);
    } else {
      var es := EventAt(g, k);
      if kind == High {
        assert es[0] == e;
      } else {
        assert es[|es| - 1] == e;
      }
      assert e in es;
    }
  }

  /** JavaScript's `<=` on strings: a prefix, or smaller at the first difference. */
  predicate LexLe(a: string, b: string) {
    if |a| == 0 then true
    else if |b| == 0 then false
    else if a[0] != b[0] then a[0] < b[0]
    else LexLe(a[1..], b[1..])
  }

  /** The time stamps of one day: from `date + 'T00:00'` to `date + 'T23:59'` inclusive. */
  predicate InDayWindow(t: string, date: string) {
    LexLe(date + "T00:00", t) && LexLe(t, date + "T23:59")
  }

  /** A time stamp in a day's window starts with that day's date. */
  lemma {:induction false} DayWindowHasDatePrefix(t: string, date: string)
    requires InDayWindow(t, date)
    ensures |date| <= |t| && t[..|date|] == date
  {
    if |date| > 0 {
      assert (date + "T00:00")[0] == date[0] && (date + "T23:59")[0] == date[0];
      assert |t| > 0;
      assert t[0] == date[0];
      assert (date + "T00:00")[1..] == date[1..] + "T00:00";
      assert (date + "T23:59")[1..] == date[1..] + "T23:59";
      DayWindowHasDatePrefix(t[1..], date[1..]);
    }
  }

  /** Every "THH:MM" stamp with valid digits lies in its day's window. */
  lemma {:induction false} DayWindowContainsDay(date: string, rest: string)
    requires |rest| == 6 && rest[0] == 'T' && rest[3] == ':'
    requires '0' <= rest[1] <= '2' && '0' <= rest[2] <= '9' && '0' <= rest[4] <= '5' && '0' <= rest[5] <= '9'
    requires rest[1] == '2' ==> rest[2] <= '3'
    ensures InDayWindow(date + rest, date)
  {
    if |date| > 0 {
      assert (date + rest)[1..] == date[1..] + rest;
      assert (date + "T00:00")[1..] == date[1..] + "T00:00";
      assert (date + "T23:59")[1..] == date[1..] + "T23:59";
      DayWindowContainsDay(date[1..], rest);
    } else {
      assert date + rest == rest && date + "T00:00" == "T00:00" && date + "T23:59" == "T23:59";
      StampAtLeastMidnight(rest);
      StampAtMostLastMinute(rest);
    }
  }

  lemma StampAtLeastMidnight(rest: string)
    requires |rest| == 6 && rest[0] == 'T' && rest[3] == ':'
    requires '0' <= rest[1] && '0' <= rest[2] && '0' <= rest[4] && '0' <= rest[5]
    ensures LexLe("T00:00", rest)
  {
    var a := "T00:00";
    assert LexLe(a[6..], rest[6..]);
    assert a[5..][1..] == a[6..] && rest[5..][1..] == rest[6..];
    assert LexLe(a[5..], rest[5..]);
    assert a[4..][1..] == a[5..] && rest[4..][1..] == rest[5..];
    assert LexLe(a[4..], rest[4..]);
    assert a[3..][1..] == a[4..] && rest[3..][1..] == rest[4..];
    assert LexLe(a[3..], rest[3..]);
    assert a[2..][1..] == a[3..] && rest[2..][1..] == rest[3..];
    assert LexLe(a[2..], rest[2..]);
    assert a[1..][1..] == a[2..] && rest[1..][1..] == rest[2..];
    assert LexLe(a[1..], rest[1..]);
    assert a[..] == a && rest[..] == rest;
  }

  lemma StampAtMostLastMinute(rest: string)
    requires |rest| == 6 && rest[0] == 'T' && rest[3] == ':'
    requires rest[1] <= '2' && rest[2] <= '9' && rest[4] <= '5' && rest[5] <= '9'
    requires rest[1] == '2' ==> rest[2] <= '3'
    ensures LexLe(rest, "T23:59")
  {
    var b := "T23:59";
    assert LexLe(rest[6..], b[6..]);
    assert b[5..][1..] == b[6..] && rest[5..][1..] == rest[6..];
    assert LexLe(rest[5..], b[5..]);
    assert b[4..][1..] == b[5..] && rest[4..][1..] == rest[5..];
    assert LexLe(rest[4..], b[4..]);
    assert b[3..][1..] == b[4..] && rest[3..][1..] == rest[4..];
    assert LexLe(rest[3..], b[3..]);
    assert b[1..][1..] == b[2..] && rest[1..][1..] == rest[2..];
    if rest[1] == '2' {
      assert b[2..][1..] == b[3..] && rest[2..][1..] == rest[3..];
      assert LexLe(rest[2..], b[2..]);
    }
    assert LexLe(rest[1..], b[1..]);
  }

  /** The hourly block that `parseMarineDaily` averages: time stamps and wave periods. */
  datatype HourlyPeriods = HourlyPeriods(time: Option<seq<string>>, wavePeriod: Option<seq<Option<real>>>)

  datatype DailyBlock = DailyBlock(time: Option<seq<string>>, waveHeightMax: Option<seq<Option<real>>>,
                                   waveDirectionDominant: Option<seq<Option<real>>>)

  datatype MarineResponse = MarineResponse(daily: Option<DailyBlock>, hourly: Option<HourlyPeriods>)

  datatype DaySummary = DaySummary(date: string, waveHeightMax: Option<real>, wavePeriodAvg: Option<real>,
                                   waveDirectionDominant: Option<real>)

  /** The non-null wave periods among the first n hourly entries whose time stamp lies in the day's window. */
  function DayPeriodValues(times: seq<string>, periods: seq<Option<real>>, date: string, n: int): (vs: seq<real>)
    requires 0 <= n <= |periods|
    ensures |vs| <= n
  {
    if n == 0 then []
    else
      var prev := DayPeriodValues(times, periods, date, n - 1);
      var i := n - 1;
      if i < |times| && InDayWindow(times[i], date) && periods[i].Some? then prev + [periods[i].value] else prev
  }

  function Sum(vs: seq<real>): real {
    if |vs| == 0 then 0.0 else Sum(vs[..|vs| - 1]) + vs[|vs| - 1]
  }

  /** The mean of the values to one decimal, or None when there are none. */
  function MeanToTenth(vs: seq<real>): (r: Option<real>)
    ensures r.None? <==> |vs| == 0
    ensures r.Some? ==> -0.05 < r.value - Sum(vs) / |vs| as real <= 0.05
    ensures r.Some? ==> (r.value * 10.0).Floor as real == r.value * 10.0
  {
    if |vs| == 0 then None
    else
      var tenths := Round((Sum(vs) / |vs| as real) * 10.0);
      assert (tenths as real / 10.0) * 10.0 == tenths as real;
      Some(tenths as real / 10.0)
  }

  /** Counting fewer hourly entries keeps a prefix of the day's values. */
  lemma {:induction false} DayPeriodValuesPrefix(times: seq<string>, periods: seq<Option<real>>, date: string, m: int, n: int)
    requires 0 <= m <= n <= |periods|
    ensures var vs := DayPeriodValues(times, periods, date, n);
      |DayPeriodValues(times, periods, date, m)| <= |vs| && DayPeriodValues(times, periods, date, m) == vs[..|DayPeriodValues(times, periods, date, m)|]
    decreases n - m
  {
    if m < n {
      DayPeriodValuesPrefix(times, periods, date, m, n - 1);
      var pre, vs' := DayPeriodValues(times, periods, date, m), DayPeriodValues(times, periods, date, n - 1);
      var vs := DayPeriodValues(times, periods, date, n);
      assert vs[..|vs'|] == vs';
      assert vs[..|pre|] == vs'[..|pre|];
    }
  }

  /**
   * Every non-null wave period of an hourly entry in the day's window is kept,
   * at the position given by the number of kept entries before it.
   */
  lemma DayPeriodValuesComplete(times: seq<string>, periods: seq<Option<real>>, date: string, n: int, i: int)
    requires 0 <= i < n <= |periods|
    requires i < |times| && InDayWindow(times[i], date) && periods[i].Some?
    ensures var k := |DayPeriodValues(times, periods, date, i)|;
      k < |DayPeriodValues(times, periods, date, n)| && DayPeriodValues(times, periods, date, n)[k] == periods[i].value
  {
    DayPeriodValuesPrefix(times, periods, date, i + 1, n);
    var k := |DayPeriodValues(times, periods, date, i)|;
    assert DayPeriodValues(times, periods, date, i + 1)[k] == periods[i].value;
  }

  /**
   * The average wave period of a date: the mean, to one decimal, of the
   * non-null hourly wave periods stamped within the day; None without the
   * hourly block, its periods or its time stamps.
   */
  function WavePeriodAverage(hourly: Option<HourlyPeriods>, date: string): (r: Option<real>)
    ensures hourly.None? || hourly.value.wavePeriod.None? || hourly.value.time.None? ==> r.None?
    ensures r.Some? ==> var periods := hourly.value.wavePeriod.value;
      r == MeanToTenth(DayPeriodValues(hourly.value.time.value, periods, date, |periods|))
  {
    if hourly.Some? && hourly.value.wavePeriod.Some? && hourly.value.time.Some? then
      var periods := hourly.value.wavePeriod.value;
      MeanToTenth(DayPeriodValues(hourly.value.time.value, periods, date, |periods|))
    else None
  }

  /** The sum of values within bounds lies within n times the bounds. */
  lemma {:induction false} SumBounds(vs: seq<real>, lo: real, hi: real)
    requires forall i :: 0 <= i < |vs| ==> lo <= vs[i] <= hi
    ensures lo * |vs| as real <= Sum(vs) <= hi * |vs| as real
  {
    if |vs| > 0 {
      SumBounds(vs[..|vs| - 1], lo, hi);
      assert lo * |vs| as real == lo * (|vs| - 1) as real + lo;
      assert hi * |vs| as real == hi * (|vs| - 1) as real + hi;
    }
  }

  /** The rounded mean lies within the range of the values, widened by half a tenth. */
  lemma MeanToTenthBounds(vs: seq<real>, lo: real, hi: real)
    requires |vs| > 0
    requires forall i :: 0 <= i < |vs| ==> lo <= vs[i] <= hi
    ensures lo - 0.05 <= MeanToTenth(vs).value <= hi + 0.05
  {
    SumBounds(vs, lo, hi);
    var n := |vs| as real;
    var m := Sum(vs) / n;
    assert Sum(vs) == m * n;
    if m < lo {
      MulMonotone(n, m, lo);
      assert false;
    }
    if m > hi {
      MulMonotone(n, hi, m);
      assert false;
    }
    var r := Round(m * 10.0);
    assert r as real - 0.5 <= m * 10.0 < r as real + 0.5;
  }

  /** An array element that is absent, out of range or null reads as None. */
  function ElementAt(a: Option<seq<Option<real>>>, i: int): Option<real> {
    if a.Some? && 0 <= i < |a.value| then a.value[i] else None
  }

  /** The summary of the i-th daily entry. */
  function DaySummaryAt(m: MarineResponse, dates: seq<string>, i: int): DaySummary
    requires m.daily.Some? && 0 <= i < |dates|
  {
    var date := dates[i];
    DaySummary(date, ElementAt(m.daily.value.waveHeightMax, i), WavePeriodAverage(m.hourly, date),
               ElementAt(m.daily.value.waveDirectionDominant, i))
  }

  /**
   * `parseMarineDaily`: one summary per daily date, in order; nothing when the
   * daily block or its dates are missing.
   */
  function ParseMarineDaily(m: MarineResponse): (r: seq<DaySummary>)
    ensures m.daily.None? || m.daily.value.time.None? ==> r == []
    ensures m.daily.Some? && m.daily.value.time.Some? ==>
      |r| == |m.daily.value.time.value| &&
      forall i :: 0 <= i < |r| ==> (r[i].date == m.daily.value.time.value[i] &&
        r[i].waveHeightMax == ElementAt(m.daily.value.waveHeightMax, i) &&
        r[i].wavePeriodAvg == WavePeriodAverage(m.hourly, r[i].date) &&
        r[i].waveDirectionDominant == ElementAt(m.daily.value.waveDirectionDominant, i))
  {
    if m.daily.None? || m.daily.value.time.None? then []
    else
      var dates := m.daily.value.time.value;
      seq(|dates|, i requires 0 <= i < |dates| => DaySummaryAt(m, dates, i))
  }

  /** A day's average uses only hourly entries stamped with that day's date. */
  lemma {:induction false} DayPeriodValuesFromDate(times: seq<string>, periods: seq<Option<real>>, date: string, n: int)
    requires 0 <= n <= |periods|
    ensures forall v :: v in DayPeriodValues(times, periods, date, n) ==>
      exists i :: 0 <= i < n && i < |times| && periods[i] == Some(v) &&
        |date| <= |times[i]| && times[i][..|date|] == date
  {
    if n > 0 {
      DayPeriodValuesFromDate(times, periods, date, n - 1);
      var i := n - 1;
      if i < |times| && InDayWindow(times[i], date) && periods[i].Some? {
        DayWindowHasDatePrefix(times[i], date);
      }
    }
  }
}
