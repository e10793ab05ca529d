/**
 * Solunar periods: two major periods around moonrise and moonset, two minor
 * periods around the upper and lower transit, whether a given time of day falls
 * inside one of them or shortly before one, and the resulting solunar score.
 */
module Solunar {
  import opened Wrappers
  import opened JsMath
  import opened Lunar

  datatype PeriodKind = Major | Minor

  datatype Period = Period(start: Clock, end: Clock, kind: PeriodKind) {
    predicate Valid() {
      start.Valid() && end.Valid()
    }
  }

  /**
   * `createPeriod`: the clock times half a duration either side of the centre.
   * A major period spans two hours on the clock, a minor one one hour.
   */
  function CreatePeriod(center: real, halfDuration: real, kind: PeriodKind): (p: Period)
    ensures p.Valid() && p.kind == kind
    ensures p.start == FormatDecimalHour(center - halfDuration) && p.end == FormatDecimalHour(center + halfDuration)
    ensures halfDuration == 1.0 ==> p.end.hour == (p.start.hour + 2) % 24 && p.end.minute == p.start.minute
    ensures halfDuration == 0.5 ==> p.end.hour == (p.start.hour + 1) % 24 && p.end.minute == p.start.minute
  {
    var lo, hi := center - halfDuration, center + halfDuration;
    var start, end := FormatDecimalHour(lo), FormatDecimalHour(hi);
    assert halfDuration == 1.0 ==> end.hour == (start.hour + 2) % 24 && end.minute == start.minute by {
      if halfDuration == 1.0 {
        FormatDecimalHourSpan(lo, hi, 2);
      }
    }
    assert halfDuration == 0.5 ==> end.hour == (start.hour + 1) % 24 && end.minute == start.minute by {
      if halfDuration == 0.5 {
        FormatDecimalHourSpan(lo, hi, 1);
      }
    }
    Period(start, end, kind)
  }

  /** Minutes of clockwise travel round the 24-hour dial from one minute of the day to another. */
  function ClockwiseDistance(from: int, to: int): (d: int)
    ensures 0 <= d < 1440
    ensures (from + d - to) % 1440 == 0
  {
    (to - from) % 1440
  }

  /**
   * `isInTimeRange`: the time lies on the clockwise arc from start to end, both
   * ends included; an end of 00:00 after a later start means the end of the
   * day, so midnight itself is then outside.
   */
  function IsInTimeRange(start: Clock, end: Clock, now: Clock): (b: bool)
    ensures start.Valid() && end.Valid() && now.Valid() ==> (b <==>
      ClockwiseDistance(start.Minutes(), now.Minutes()) <= ClockwiseDistance(start.Minutes(), end.Minutes()) &&
      !(end.Minutes() == 0 && start.Minutes() > 0 && now.Minutes() == 0))
  {
    var startMin := start.Minutes();
    var endMin := if end.Minutes() == 0 && startMin > 0 then 1440 else end.Minutes();
    var nowMin := now.Minutes();
    DistanceWithinDay(startMin, nowMin);
    DistanceWithinDay(startMin, end.Minutes());
    if endMin >= startMin then nowMin >= startMin && nowMin <= endMin
    else nowMin >= startMin || nowMin <= endMin
  }

  /** Between two minutes of the same day, the clockwise distance is the plain difference, or that plus a day. */
  lemma DistanceWithinDay(from: int, to: int)
    ensures 0 <= from < 1440 && 0 <= to < 1440 ==>
      ClockwiseDistance(from, to) == if to >= from then to - from else to - from + 1440
  {
    if 0 <= to < from < 1440 {
      assert (to - from) % 1440 == (to - from + 1440) % 1440;
    }
  }

  /** The minutes from now until the period starts, going forward round the clock. */
  function MinutesUntilStart(p: Period, now: Clock): int {
    ClockwiseDistance(now.Minutes(), p.start.Minutes())
  }

  /** The period starts later than now, at most the given number of minutes ahead. */
  predicate StartsWithin(p: Period, now: Clock, minutesBefore: int) {
    0 < MinutesUntilStart(p, now) <= minutesBefore
  }

  predicate NearAny(periods: seq<Period>, now: Clock, minutesBefore: int) {
    exists i :: 0 <= i < |periods| && StartsWithin(periods[i], now, minutesBefore)
  }

  /** `isNearPeriod`: some period starts within the next `minutesBefore` minutes (not now). */
  method IsNearPeriod(periods: seq<Period>, now: Clock, minutesBefore: int) returns (near: bool)
    requires forall i :: 0 <= i < |periods| ==> periods[i].Valid()
    requires now.Valid()
    ensures near <==> NearAny(periods, now, minutesBefore)
  {
    var nowMin := now.Minutes();
    var i := 0;
    while i < |periods|
      invariant 0 <= i <= |periods|
      invariant forall j :: 0 <= j < i ==> !StartsWithin(periods[j], now, minutesBefore)
    {
      var startMin := periods[i].start.Minutes();
      var diff := IntRem((startMin - nowMin) + 1440, 1440);
      ShiftedRemIsDistance(nowMin, startMin);
      if diff <= minutesBefore && diff > 0 {
        return true;
      }
      i := i + 1;
    }
    return false;
  }

  /** For minutes of one day, the `%` of the difference shifted by a day is the clockwise distance. */
  lemma ShiftedRemIsDistance(from: int, to: int)
    requires 0 <= from < 1440 && 0 <= to < 1440
    ensures IntRem((to - from) + 1440, 1440) == ClockwiseDistance(from, to)
  {
    DistanceWithinDay(from, to);
    var x := (to - from) + 1440;
    assert 0 < x < 2880;
    if to >= from {
      assert x % 1440 == to - from;
    } else {
      assert x % 1440 == x;
    }
  }

  /** The start of a period in minutes since midnight, the sort key. */
  function StartKey(p: Period): int {
    p.start.Minutes()
  }

  predicate SortedByStart(ps: seq<Period>) {
    forall i, j :: 0 <= i < j < |ps| ==> StartKey(ps[i]) <= StartKey(ps[j])
  }

  /** Places a period before the first one that does not start earlier. */
  function InsertByStart(p: Period, ps: seq<Period>): (r: seq<Period>)
    ensures multiset(r) == multiset(ps) + multiset{p}
  {
    if |ps| == 0 then [p]
    else if StartKey(p) <= StartKey(ps[0]) then [p] + ps
    else
      assert ps == [ps[0]] + ps[1..];
      [ps[0]] + InsertByStart(p, ps[1..])
  }

  /** Inserting into a sorted sequence keeps it sorted. */
  lemma {:induction false} InsertKeepsSorted(p: Period, ps: seq<Period>)
    requires SortedByStart(ps)
    ensures SortedByStart(InsertByStart(p, ps))
    decreases |ps|
  {
    if |ps| > 0 && StartKey(p) > StartKey(ps[0]) {
      var rest := InsertByStart(p, ps[1..]);
      InsertKeepsSorted(p, ps[1..]);
      forall i | 0 <= i < |rest|
        ensures StartKey(ps[0]) <= StartKey(rest[i])
      {
        assert rest[i] in multiset(rest);
        if rest[i] != p {
          assert rest[i] in multiset(ps[1..]);
          var j :| 0 <= j < |ps[1..]| && ps[1..][j] == rest[i];
          assert ps[j + 1] == rest[i];
        }
      }
      var r := [ps[0]] + rest;
      assert forall i :: 1 <= i < |r| ==> r[i] == rest[i - 1];
    }
  }

  /** The stable sort by start minute that `Array.prototype.sort` performs with the start comparator. */
  function SortByStart(ps: seq<Period>): (r: seq<Period>)
    ensures SortedByStart(r)
    ensures multiset(r) == multiset(ps)
  {
    if |ps| == 0 then []
    else
      assert ps == [ps[0]] + ps[1..];
      var sortedRest := SortByStart(ps[1..]);
      InsertKeepsSorted(ps[0], sortedRest);
      InsertByStart(ps[0], sortedRest)
  }

  /** The four periods of a day, in the order they are pushed: moonrise, moonset, transit, anti-transit. */
  function DayPeriods(transit: real): (ps: seq<Period>)
    ensures |ps| == 4
    ensures ps[0].kind == Major && ps[1].kind == Major && ps[2].kind == Minor && ps[3].kind == Minor
    ensures forall i :: 0 <= i < 4 ==> ps[i].Valid()
    ensures ps[0] == CreatePeriod(transit - 6.0, 1.0, Major) && ps[1] == CreatePeriod(transit + 6.0, 1.0, Major)
    ensures ps[2] == CreatePeriod(transit, 0.5, Minor) && ps[3] == CreatePeriod(transit + 12.0, 0.5, Minor)
  {
    [CreatePeriod(transit - 6.0, 1.0, Major), CreatePeriod(transit + 6.0, 1.0, Major),
     CreatePeriod(transit, 0.5, Minor), CreatePeriod(transit + 12.0, 0.5, Minor)]
  }

  /**
   * The two major periods start twelve hours apart on the clock, as do the two
   * minor ones.
   */
  lemma DayPeriodsTwelveHoursApart(transit: real)
    ensures var ps := DayPeriods(transit);
      ps[1].start.hour == (ps[0].start.hour + 12) % 24 && ps[1].start.minute == ps[0].start.minute &&
      ps[3].start.hour == (ps[2].start.hour + 12) % 24 && ps[3].start.minute == ps[2].start.minute
  {
    FormatDecimalHourShift(transit - 7.0, 12);
    assert (transit - 7.0) + 12 as real == transit + 6.0 - 1.0;
    FormatDecimalHourShift(transit - 0.5, 12);
    assert (transit - 0.5) + 12 as real == transit + 12.0 - 0.5;
  }

  /** How many periods of the kind the sequence holds. */
  function KindCount(ps: seq<Period>, kind: PeriodKind): (n: nat)
    ensures n <= |ps|
  {
    if |ps| == 0 then 0
    else (if ps[0].kind == kind then 1 else 0) + KindCount(ps[1..], kind)
  }

  /** Reordering keeps the number of periods of each kind. */
  lemma {:induction false} KindCountPermutation(ps: seq<Period>, qs: seq<Period>, kind: PeriodKind)
    requires multiset(ps) == multiset(qs)
    ensures KindCount(ps, kind) == KindCount(qs, kind)
    decreases |ps|
  {
    if |ps| == 0 {
      assert |qs| == |multiset(qs)| == 0;
    } else {
      var p := ps[0];
      assert p in multiset(qs);
      var k :| 0 <= k < |qs| && qs[k] == p;
      var rest := qs[..k] + qs[k + 1..];
      MultisetRemoveAt(qs, k);
      assert ps == [p] + ps[1..];
      assert multiset(ps[1..]) == multiset(ps) - multiset{p};
      KindCountPermutation(ps[1..], rest, kind);
      KindCountRemoveAt(qs, k, kind);
    }
  }

  lemma MultisetRemoveAt(qs: seq<Period>, k: int)
    requires 0 <= k < |qs|
    ensures multiset(qs[..k] + qs[k + 1..]) == multiset(qs) - multiset{qs[k]}
  {
    assert qs == qs[..k] + [qs[k]] + qs[k + 1..];
  }

  lemma KindCountRemoveAt(qs: seq<Period>, k: int, kind: PeriodKind)
    requires 0 <= k < |qs|
    ensures KindCount(qs, kind) ==
      KindCount(qs[..k] + qs[k + 1..], kind) + (if qs[k].kind == kind then 1 else 0)
  {
    assert qs == qs[..k] + ([qs[k]] + qs[k + 1..]);
    KindCountSplit(qs[..k], [qs[k]] + qs[k + 1..], kind);
    KindCountSplit(qs[..k], qs[k + 1..], kind);
    assert ([qs[k]] + qs[k + 1..])[1..] == qs[k + 1..];
  }

  lemma {:induction false} KindCountSplit(a: seq<Period>, b: seq<Period>, kind: PeriodKind)
    ensures KindCount(a + b, kind) == KindCount(a, kind) + KindCount(b, kind)
    decreases |a|
  {
    if |a| == 0 {
      assert a + b == b;
    } else {
      assert (a + b)[1..] == a[1..] + b;
      KindCountSplit(a[1..], b, kind);
    }
  }

  /** Some period of the kind contains the time. */
  predicate InAnyOfKind(periods: seq<Period>, kind: PeriodKind, now: Clock) {
    exists i :: 0 <= i < |periods| && periods[i].kind == kind && IsInTimeRange(periods[i].start, periods[i].end, now)
  }

  /** `periods.filter(p => p.type === kind).some(p => isInTimeRange(p.start, p.end, now))`. */
  function AnyOfKindContains(periods: seq<Period>, kind: PeriodKind, now: Clock): (b: bool)
    ensures b <==> InAnyOfKind(periods, kind, now)
  {
    if |periods| == 0 then false
    else
      var rest := AnyOfKindContains(periods[1..], kind, now);
      assert InAnyOfKind(periods[1..], kind, now) ==> InAnyOfKind(periods, kind, now) by {
        if InAnyOfKind(periods[1..], kind, now) {
          var i :| 0 <= i < |periods[1..]| && periods[1..][i].kind == kind
            && IsInTimeRange(periods[1..][i].start, periods[1..][i].end, now);
          assert periods[i + 1] == periods[1..][i];
        }
      }
      assert InAnyOfKind(periods, kind, now) && !(periods[0].kind == kind && IsInTimeRange(periods[0].start, periods[0].end, now))
        ==> InAnyOfKind(periods[1..], kind, now) by {
        if InAnyOfKind(periods, kind, now) && !(periods[0].kind == kind && IsInTimeRange(periods[0].start, periods[0].end, now)) {
          var i :| 0 <= i < |periods| && periods[i].kind == kind && IsInTimeRange(periods[i].start, periods[i].end, now);
          assert i != 0;
          assert periods[1..][i - 1] == periods[i];
        }
      }
      (periods[0].kind == kind && IsInTimeRange(periods[0].start, periods[0].end, now)) || rest
  }

  /** Sorting the four periods of a day keeps four valid periods, two of each kind. */
  lemma SortedDayPeriods(pushed: seq<Period>)
    requires |pushed| == 4
    requires pushed[0].kind == Major && pushed[1].kind == Major && pushed[2].kind == Minor && pushed[3].kind == Minor
    requires forall i :: 0 <= i < 4 ==> pushed[i].Valid()
    ensures var ps := SortByStart(pushed);
      |ps| == 4 && KindCount(ps, Major) == 2 && KindCount(ps, Minor) == 2 &&
      forall i :: 0 <= i < |ps| ==> ps[i].Valid()
  {
    var ps := SortByStart(pushed);
    assert |ps| == |multiset(ps)| == |multiset(pushed)| == 4;
    assert pushed[3..][1..] == [];
    assert pushed[2..][1..] == pushed[3..] && pushed[1..][1..] == pushed[2..];
    assert KindCount(pushed[3..], Major) == 0 && KindCount(pushed[3..], Minor) == 1;
    assert KindCount(pushed[2..], Major) == 0 && KindCount(pushed[2..], Minor) == 2;
    assert KindCount(pushed[1..], Major) == 1 && KindCount(pushed[1..], Minor) == 2;
    KindCountPermutation(ps, pushed, Major);
    KindCountPermutation(ps, pushed, Minor);
    forall i | 0 <= i < |ps|
      ensures ps[i].Valid()
    {
      assert ps[i] in multiset(pushed);
    }
  }

  /**
   * The period-building part of `getSolunarPeriods`: major periods around
   * moonrise and moonset (six hours either side of the transit), minor ones
   * around the transit and the opposite transit, then sorted by start.
   */
  method SortedPeriodsOfDay(transit: real) returns (periods: seq<Period>)
    ensures |periods| == 4 && SortedByStart(periods)
    ensures multiset(periods) == multiset(DayPeriods(transit))
    ensures KindCount(periods, Major) == 2 && KindCount(periods, Minor) == 2
    ensures forall i :: 0 <= i < |periods| ==> periods[i].Valid()
  {
    var moonrise := transit - 6.0;
    var moonset := transit + 6.0;
    var antiTransit := transit + 12.0;

    periods := [];
    periods := periods + [CreatePeriod(moonrise, 1.0, Major)];
    periods := periods + [CreatePeriod(moonset, 1.0, Major)];
    periods := periods + [CreatePeriod(transit, 0.5, Minor)];
    periods := periods + [CreatePeriod(antiTransit, 0.5, Minor)];
    assert periods == DayPeriods(transit);
    SortedDayPeriods(periods);
    periods := SortByStart(periods);
  }

  /**
   * The minute of the day `formatDecimalHour` shows lies at most half a minute
   * after the decimal hour and less than an hour before it (the lost carry),
   * counted modulo a whole number `q` of days.
   */
  lemma FormatDecimalHourNear(x: real) returns (q: int)
    ensures var m := FormatDecimalHour(x).Minutes() as real;
      60.0 * x - 1440.0 * q as real - 60.0 < m <= 60.0 * x - 1440.0 * q as real + 0.5
  {
    q := (x / 24.0).Floor;
    var c := FormatDecimalHour(x);
    var h := Mod(x, 24.0);
    assert h == x - 24.0 * q as real;
    assert c.hour as real <= h < c.hour as real + 1.0;
  }

  /**
   * A time inside the period centred on `center` lies, on the 24-hour dial, from
   * one hour before the period's nominal start to half a minute after its
   * nominal end; `j` is the number of whole days between the two.
   */
  lemma PeriodArc(center: real, half: real, kind: PeriodKind, now: Clock) returns (j: int)
    requires half == 1.0 || half == 0.5
    requires now.Valid()
    requires IsInTimeRange(CreatePeriod(center, half, kind).start, CreatePeriod(center, half, kind).end, now)
    ensures var o := now.Minutes() as real - 60.0 * center + 1440.0 * j as real;
      -60.0 - 60.0 * half < o <= 60.0 * half + 0.5
  {
    var p := CreatePeriod(center, half, kind);
    var q1 := FormatDecimalHourNear(center - half);
    var q2 := FormatDecimalHourNear(center + half);
    var s, e, n := p.start.Minutes(), p.end.Minutes(), now.Minutes();
    assert ClockwiseDistance(s, n) <= ClockwiseDistance(s, e);
    j := DialArc(s, e, n, center, half, q1, q2);
  }

  /**
   * The arithmetic of `PeriodArc` on minutes of the day: `s` and `e` are the
   * shown start and end, each placed by `FormatDecimalHourNear`, and `n` lies
   * on the clockwise arc from `s` to `e`.
   */
  lemma DialArc(s: int, e: int, n: int, center: real, half: real, q1: int, q2: int) returns (j: int)
    requires half == 1.0 || half == 0.5
    requires 60.0 * (center - half) - 1440.0 * q1 as real - 60.0 < s as real <= 60.0 * (center - half) - 1440.0 * q1 as real + 0.5
    requires 60.0 * (center + half) - 1440.0 * q2 as real - 60.0 < e as real <= 60.0 * (center + half) - 1440.0 * q2 as real + 0.5
    requires ClockwiseDistance(s, n) <= ClockwiseDistance(s, e)
    ensures var o := n as real - 60.0 * center + 1440.0 * j as real;
      -60.0 - 60.0 * half < o <= 60.0 * half + 0.5
  {
    var e1 := s as real - 60.0 * (center - half) + 1440.0 * q1 as real;
    var e2 := e as real - 60.0 * (center + half) + 1440.0 * q2 as real;
    var span := e - s + 1440 * (q2 - q1);
    assert span as real == 120.0 * half + e2 - e1;
    assert 0 <= span <= 180;
    ModOfDayShift(span, q1 - q2);
    assert ClockwiseDistance(s, e) == span;
    var delta := ClockwiseDistance(s, n);
    var k := (s + delta - n) / 1440;
    WholeDays(s + delta - n);
    assert n as real == s as real + delta as real - 1440.0 * k as real;
    j := q1 + k;
    assert n as real - 60.0 * center + 1440.0 * j as real == -60.0 * half + e1 + delta as real;
  }

  /** A multiple of a day's minutes is that many whole days. */
  lemma WholeDays(x: int)
    requires x % 1440 == 0
    ensures x == 1440 * (x / 1440)
  {
  }

  /** Shifting by whole days does not change the minute of the day. */
  lemma ModOfDayShift(a: int, days: int)
    requires 0 <= a < 1440
    ensures (a + 1440 * days) % 1440 == a
  {
  }

  /**
   * A major period, centred six or eighteen hours away from a minor one, shares
   * no time of day with it: the two arcs on the dial stay more than three hours
   * apart whatever the rounding.
   */
  lemma MajorMinorApart(major: real, minor: real, now: Clock)
    requires now.Valid()
    requires major - minor == 6.0 || major - minor == -6.0 || major - minor == -18.0
    ensures !(IsInTimeRange(CreatePeriod(major, 1.0, Major).start, CreatePeriod(major, 1.0, Major).end, now) &&
              IsInTimeRange(CreatePeriod(minor, 0.5, Minor).start, CreatePeriod(minor, 0.5, Minor).end, now))
  {
    if IsInTimeRange(CreatePeriod(major, 1.0, Major).start, CreatePeriod(major, 1.0, Major).end, now) &&
       IsInTimeRange(CreatePeriod(minor, 0.5, Minor).start, CreatePeriod(minor, 0.5, Minor).end, now) {
      var j1 := PeriodArc(major, 1.0, Major, now);
      var j2 := PeriodArc(minor, 0.5, Minor, now);
      DialGap(60.0 * (minor - major), j1 - j2);
      assert false;
    }
  }

  /** Six or eighteen hours, shifted by whole days, stay more than 150.5 minutes from zero. */
  lemma DialGap(d: real, days: int)
    requires d == 360.0 || d == -360.0 || d == 1080.0
    ensures !(-150.5 < d + 1440.0 * days as real < 150.5)
  {
    if days >= 1 {
      assert 1440.0 * days as real >= 1440.0;
    } else if days <= -1 {
      assert 1440.0 * days as real <= -1440.0;
    }
  }

  /**
   * No time of day lies in both a major and a minor period of the same day, in
   * whatever order the periods are listed.
   */
  lemma MajorMinorDisjoint(transit: real, periods: seq<Period>, now: Clock)
    requires now.Valid()
    requires multiset(periods) == multiset(DayPeriods(transit))
    ensures !(InAnyOfKind(periods, Major, now) && InAnyOfKind(periods, Minor, now))
  {
    var ps := DayPeriods(transit);
    if InAnyOfKind(periods, Major, now) && InAnyOfKind(periods, Minor, now) {
      var i :| 0 <= i < |periods| && periods[i].kind == Major && IsInTimeRange(periods[i].start, periods[i].end, now);
      var k :| 0 <= k < |periods| && periods[k].kind == Minor && IsInTimeRange(periods[k].start, periods[k].end, now);
      assert periods[i] in multiset(ps) && periods[k] in multiset(ps);
      assert periods[i] == ps[0] || periods[i] == ps[1];
      assert periods[k] == ps[2] || periods[k] == ps[3];
      var major := if periods[i] == ps[0] then transit - 6.0 else transit + 6.0;
      var minor := if periods[k] == ps[2] then transit else transit + 12.0;
      MajorMinorApart(major, minor, now);
      assert false;
    }
  }

  datatype SolunarData = SolunarData(periods: seq<Period>, isInMajor: bool, isInMinor: bool,
                                     isNearPeriod: bool, score: int)

  /** The time of day a `Date` shows. */
  function TimeOf(d: LocalDateTime): Clock {
    Clock(d.hour, d.minute)
  }

  /**
   * `getSolunarPeriods`: the four periods of `date` at the longitude, sorted by
   * start, and the position of `checkDate` (or `date` when it is absent)
   * relative to them: 100 inside a major period, 70 inside a minor one, 30 in
   * the half hour before one, 10 otherwise. The latitude is not used.
   */
  method GetSolunarPeriods(date: LocalDateTime, lat: real, lon: real, checkDate: Option<LocalDateTime>)
    returns (r: SolunarData)
    requires TimeOf(checkDate.GetOr(date)).Valid()
    ensures |r.periods| == 4 && SortedByStart(r.periods)
    ensures multiset(r.periods) == multiset(DayPeriods(EstimateMoonTransit(date, lon)))
    ensures KindCount(r.periods, Major) == 2 && KindCount(r.periods, Minor) == 2
    ensures forall i :: 0 <= i < |r.periods| ==> r.periods[i].Valid()
    ensures var now := TimeOf(checkDate.GetOr(date));
      (r.isInMajor <==> InAnyOfKind(r.periods, Major, now)) &&
      (r.isInMinor <==> InAnyOfKind(r.periods, Minor, now)) &&
      (r.isNearPeriod <==> !r.isInMajor && !r.isInMinor && NearAny(r.periods, now, 30))
    ensures !(r.isInMajor && r.isInMinor)
    ensures r.score == 100 <==> r.isInMajor
    ensures r.score == 70 <==> !r.isInMajor && r.isInMinor
    ensures r.score == 30 <==> r.isNearPeriod
    ensures r.score == 10 <==> !r.isInMajor && !r.isInMinor && !r.isNearPeriod
  {
    var now := TimeOf(checkDate.GetOr(date));
    var transit := EstimateMoonTransit(date, lon);
    var periods := SortedPeriodsOfDay(transit);

    var isInMajor := AnyOfKindContains(periods, Major, now);
    var isInMinor := AnyOfKindContains(periods, Minor, now);
    MajorMinorDisjoint(transit, periods, now);
    var nearPeriod := false;
    if !isInMajor && !isInMinor {
      nearPeriod := IsNearPeriod(periods, now, 30);
    }

    var score;
    if isInMajor {
      score := 100;
    } else if isInMinor {
      score := 70;
    } else if nearPeriod {
      score := 30;
    } else {
      score := 10;
    }
    r := SolunarData(periods, isInMajor, isInMinor, nearPeriod, score);
  }
}
