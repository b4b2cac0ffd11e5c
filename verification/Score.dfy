/** The fishing score: tide, weather and time of day, added up and ranked. */
module Score {
  import opened Prelude
  import opened Entities

  datatype Rank = Bad | Poor | Fair | Good | Excellent

  datatype FishingScore = FishingScore(total: int, rank: Rank, tideScore: int, weatherScore: int, timeScore: int)

  /** An instant with its hour of the day where it was taken. */
  datatype Clock = Clock(at: int, hour: int)

  predicate ValidClock(now: Clock) { 0 <= now.hour < 24 }

  const MAX_TIDE := 40
  const MAX_WEATHER := 35

  // ---- Distances ----

  /** The difference of two instants saturates at the range of a 64-bit count of nanoseconds. */
  function Sub(a: int, b: int): int {
    if a - b > 0x7fff_ffff_ffff_ffff then 0x7fff_ffff_ffff_ffff
    else if a - b < -0x8000_0000_0000_0000 then -0x8000_0000_0000_0000
    else a - b
  }

  function Minutes(duration: int): real { duration as real / 60_000_000_000.0 }

  function Distance(now: Clock, e: TideEvent): real {
    var d := Minutes(Sub(now.at, e.time));
    if d < 0.0 then -d else d
  }

  /** The largest finite 64-bit float, (2^53 - 1) * 2^971. */
  const MAX_FLOAT: real :=
    179769313486231570814527423731704356798070567525844996598917476803157260780028538760589558632766878171540458953514382464234321326889464182768467546703537516986049910576551282076245490090389328944075868508455133942304583236903222948165808559332123347274797826204144723168738177180919299881250404026184124858368.0

  lemma DistanceBelowMaxFloat(now: Clock, e: TideEvent)
    ensures 0.0 <= Distance(now, e) < MAX_FLOAT
  {
  }

  /** m is the distance of the nearest event, or MAX_FLOAT if there is none. */
  ghost predicate IsNearest(events: seq<TideEvent>, now: Clock, m: real) {
    && (forall e :: e in events ==> m <= Distance(now, e))
    && (if events == [] then m == MAX_FLOAT else exists e :: e in events && Distance(now, e) == m)
  }

  ghost function Nearest(events: seq<TideEvent>, now: Clock): (m: real)
    ensures IsNearest(events, now, m)
  {
    if events == [] then MAX_FLOAT
    else
      var rest := Nearest(events[..|events| - 1], now);
      var last := events[|events| - 1];
      var d := Distance(now, last);
      assert events == events[..|events| - 1] + [last];
      DistanceBelowMaxFloat(now, last);
      assert last in events;
      if d < rest then d else rest
  }

  // ---- The three parts ----

  function Base(minutes: real): int {
    if minutes <= 30.0 then 40 else if minutes <= 60.0 then 35 else if minutes <= 90.0 then 28
    else if minutes <= 120.0 then 20 else 10
  }

  function Bonus(tideType: string): int {
    if tideType == SPRING_TIDE then 5 else if tideType == MIDDLE_TIDE then 3 else 0
  }

  const SPRING_TIDE := "\U{5927}\U{6F6E}"
  const MIDDLE_TIDE := "\U{4E2D}\U{6F6E}"

  ghost function TideScore(tide: Option<TideData>, now: Clock): int {
    match tide
    case None => MAX_TIDE / 2
    case Some(t) =>
      var s := Base(Nearest(t.highTides + t.lowTides, now)) + Bonus(t.tideType);
      if s > MAX_TIDE then MAX_TIDE else s
  }

  function WindPenalty(wind: real): int {
    if wind > 10.0 then 20 else if wind > 7.0 then 12 else if wind > 5.0 then 6 else if wind > 3.0 then 2 else 0
  }

  function PressureGap(pressure: real): real {
    if pressure >= 1013.0 then pressure - 1013.0 else 1013.0 - pressure
  }

  function PressurePenalty(pressure: real): int {
    if PressureGap(pressure) > 15.0 then 8 else if PressureGap(pressure) > 10.0 then 4 else 0
  }

  ghost function WeatherScore(weather: Option<WeatherData>): int {
    match weather
    case None => MAX_WEATHER / 2
    case Some(w) => MAX_WEATHER - WindPenalty(w.windSpeed) - PressurePenalty(w.pressure)
  }

  function TimeScore(hour: int): int {
    if 4 <= hour <= 7 then 25 else if 16 <= hour <= 19 then 22 else if 8 <= hour <= 10 then 18
    else if 14 <= hour <= 15 then 15 else if 20 <= hour <= 22 then 12 else 8
  }

  function RankOf(total: int): (r: Rank)
    ensures r.Bad? <==> total < 20
  {
    if total >= 80 then Excellent else if total >= 60 then Good else if total >= 40 then Fair
    else if total >= 20 then Poor else Bad
  }

  ghost function Total(weather: Option<WeatherData>, tide: Option<TideData>, now: Clock): int {
    TideScore(tide, now) + WeatherScore(weather) + TimeScore(now.hour)
  }

  // ---- What the parts amount to ----

  /** Some high or low tide lies at most this many minutes before or after now. */
  ghost predicate EventWithin(t: TideData, now: Clock, minutes: nat) {
    exists e :: (e in t.highTides || e in t.lowTides) && InMinutes(now, e, minutes)
  }

  ghost predicate InMinutes(now: Clock, e: TideEvent, minutes: nat) {
    -60_000_000_000 * minutes <= now.at - e.time <= 60_000_000_000 * minutes
  }

  lemma DistanceWithin(now: Clock, e: TideEvent, minutes: nat)
    requires minutes <= 120
    ensures Distance(now, e) <= minutes as real <==> InMinutes(now, e, minutes)
  {
  }

  /** The nearest event is that near exactly if some event is. */
  lemma NearestWithin(t: TideData, now: Clock, minutes: nat)
    requires minutes <= 120
    ensures Nearest(t.highTides + t.lowTides, now) <= minutes as real <==> EventWithin(t, now, minutes)
  {
    var events := t.highTides + t.lowTides;
    if EventWithin(t, now, minutes) {
      var e :| (e in t.highTides || e in t.lowTides) && InMinutes(now, e, minutes);
      DistanceWithin(now, e, minutes);
      assert e in events;
    } else if events != [] {
      var e := NearestEvent(events, now);
      DistanceWithin(now, e, minutes);
    }
  }

  /** What the tide earns, by its nearest event and its name: spring tide, middle tide or another. */
  ghost predicate TideEarns(t: TideData, now: Clock, points: int) {
    var bonus := if t.tideType == "\U{5927}\U{6F6E}" then 5 else if t.tideType == "\U{4E2D}\U{6F6E}" then 3 else 0;
    && (EventWithin(t, now, 30) ==> points == 40)
    && (!EventWithin(t, now, 30) && EventWithin(t, now, 60) ==> points == 35 + bonus)
    && (!EventWithin(t, now, 60) && EventWithin(t, now, 90) ==> points == 28 + bonus)
    && (!EventWithin(t, now, 90) && EventWithin(t, now, 120) ==> points == 20 + bonus)
    && (!EventWithin(t, now, 120) ==> points == 10 + bonus)
  }

  lemma TideScoreByEvents(t: TideData, now: Clock)
    ensures TideEarns(t, now, TideScore(Some(t), now))
  {
    NearestWithin(t, now, 30);
    NearestWithin(t, now, 60);
    NearestWithin(t, now, 90);
    NearestWithin(t, now, 120);
  }

  /** What the wind costs, range by range. */
  ghost predicate WindDeducts(wind: real, points: int) {
    && (wind <= 3.0 ==> points == 0)
    && (3.0 < wind <= 5.0 ==> points == 2)
    && (5.0 < wind <= 7.0 ==> points == 6)
    && (7.0 < wind <= 10.0 ==> points == 12)
    && (10.0 < wind ==> points == 20)
  }

  /** What the pressure costs, range by range. */
  ghost predicate PressureDeducts(pressure: real, points: int) {
    && (1003.0 <= pressure <= 1023.0 ==> points == 0)
    && (998.0 <= pressure < 1003.0 || 1023.0 < pressure <= 1028.0 ==> points == 4)
    && (pressure < 998.0 || 1028.0 < pressure ==> points == 8)
  }

  ghost predicate WeatherEarns(w: WeatherData, points: int) {
    exists wind, pressure :: WindDeducts(w.windSpeed, wind) && PressureDeducts(w.pressure, pressure)
      && points == 35 - wind - pressure
  }

  // ---- The computation ----

  method CalculateTideScore(tide: Option<TideData>, now: Clock) returns (score: int)
    ensures score == TideScore(tide, now)
    ensures if tide.None? then score == 20 else TideEarns(tide.value, now, score)
  {
    if tide.None? { return MAX_TIDE / 2; }
    var allEvents := tide.value.highTides + tide.value.lowTides;
    var minMinutes := MAX_FLOAT;
    for i := 0 to |allEvents|
      invariant minMinutes == Nearest(allEvents[..i], now)
    {
      var diff := Distance(now, allEvents[i]);
      assert allEvents[..i + 1][..i] == allEvents[..i];
      if diff < minMinutes { minMinutes := diff; }
    }
    assert allEvents[..|allEvents|] == allEvents;
    TideScoreByEvents(tide.value, now);
    score := Base(minMinutes) + Bonus(tide.value.tideType);
    if score > MAX_TIDE { score := MAX_TIDE; }
  }

  method CalculateWeatherScore(weather: Option<WeatherData>) returns (s: int)
    ensures s == WeatherScore(weather)
    ensures if weather.None? then s == 17 else WeatherEarns(weather.value, s)
  {
    if weather.None? { return MAX_WEATHER / 2; }
    assert WindDeducts(weather.value.windSpeed, WindPenalty(weather.value.windSpeed));
    assert PressureDeducts(weather.value.pressure, PressurePenalty(weather.value.pressure));
    s := MAX_WEATHER;
    if weather.value.windSpeed > 10.0 { s := s - 20; }
    else if weather.value.windSpeed > 7.0 { s := s - 12; }
    else if weather.value.windSpeed > 5.0 { s := s - 6; }
    else if weather.value.windSpeed > 3.0 { s := s - 2; }
    var pressureDiff := PressureGap(weather.value.pressure);
    if pressureDiff > 15.0 { s := s - 8; }
    else if pressureDiff > 10.0 { s := s - 4; }
    if s < 0 { s := 0; }
  }

  /** The total is the exact sum of the parts, although the computation clamps it; it is at least 25, so never Bad. */
  method Calculate(weather: Option<WeatherData>, tide: Option<TideData>, now: Clock) returns (score: FishingScore)
    ensures score.total == score.tideScore + score.weatherScore + score.timeScore
    ensures score.tideScore == TideScore(tide, now)
    ensures if tide.None? then score.tideScore == 20 else TideEarns(tide.value, now, score.tideScore)
    ensures score.weatherScore == WeatherScore(weather)
    ensures if weather.None? then score.weatherScore == 17 else WeatherEarns(weather.value, score.weatherScore)
    ensures score.timeScore == TimeScore(now.hour)
    ensures 4 <= now.hour <= 7 ==> score.timeScore == 25
    ensures 8 <= now.hour <= 10 ==> score.timeScore == 18
    ensures 14 <= now.hour <= 15 ==> score.timeScore == 15
    ensures 16 <= now.hour <= 19 ==> score.timeScore == 22
    ensures 20 <= now.hour <= 22 ==> score.timeScore == 12
    ensures now.hour in {0, 1, 2, 3, 11, 12, 13, 23} ==> score.timeScore == 8
    ensures 25 <= score.total <= 100
    ensures score.rank == RankOf(score.total)
    ensures score.total < 40 ==> score.rank == Poor
    ensures 40 <= score.total < 60 ==> score.rank == Fair
    ensures 60 <= score.total < 80 ==> score.rank == Good
    ensures 80 <= score.total ==> score.rank == Excellent
  {
    var tideScore := CalculateTideScore(tide, now);
    var weatherScore := CalculateWeatherScore(weather);
    var timeScore := TimeScore(now.hour);
    PartsInRange(weather, tide, now);
    var total := tideScore + weatherScore + timeScore;
    if total > 100 { total := 100; }
    if total < 0 { total := 0; }
    score := FishingScore(total, RankOf(total), tideScore, weatherScore, timeScore);
  }

  // ---- Properties ----

  lemma PartsInRange(weather: Option<WeatherData>, tide: Option<TideData>, now: Clock)
    ensures 10 <= TideScore(tide, now) <= 40 && 7 <= WeatherScore(weather) <= 35 && 8 <= TimeScore(now.hour) <= 25
  {
  }

  /** Both ends of the range are reached, at valid clocks. */
  lemma RangeIsTight()
    ensures exists w, t, now :: ValidClock(now) && Total(w, t, now) == 25
    ensures exists w, t, now :: ValidClock(now) && Total(w, t, now) == 100
  {
    var storm := WeatherData(0.0, 0.0, 20.0, 0, 960.0, 0, "", 0);
    var calm := WeatherData(0.0, 0.0, 0.0, 0, 1013.0, 0, "", 0);
    var event := TideEvent(0, 0.0);
    var noTide, highTide := TideData("", "", [], [], ""), TideData("", "", [event], [], "");
    var noon, dawn := Clock(0, 12), Clock(0, 5);
    assert Total(Some(storm), Some(noTide), noon) == 25;
    assert event in highTide.highTides + highTide.lowTides;
    assert Distance(dawn, event) == 0.0;
    assert Total(Some(calm), Some(highTide), dawn) == 100;
  }

  lemma NearestIsUnique(events: seq<TideEvent>, now: Clock, m: real)
    requires IsNearest(events, now, m)
    ensures m == Nearest(events, now)
  {
  }

  lemma BaseAntitone(m: real, n: real)
    requires m <= n
    ensures Base(n) <= Base(m)
  {
  }

  /** Only which events there are matters: not their order, nor which of them are high and which low. */
  lemma OrderDoesNotMatter(t: TideData, u: TideData, now: Clock)
    requires multiset(t.highTides) + multiset(t.lowTides) == multiset(u.highTides) + multiset(u.lowTides)
    requires t.tideType == u.tideType
    ensures TideScore(Some(t), now) == TideScore(Some(u), now)
  {
    var a, b := t.highTides + t.lowTides, u.highTides + u.lowTides;
    forall e ensures e in a <==> e in b {
      assert e in a <==> e in multiset(a);
      assert e in b <==> e in multiset(b);
    }
    assert a == [] <==> b == [] by {
      if a != [] { assert a[0] in b; }
      if b != [] { assert b[0] in a; }
    }
    NearestIsUnique(b, now, Nearest(a, now));
  }

  lemma NearestEvent(events: seq<TideEvent>, now: Clock) returns (e: TideEvent)
    requires events != []
    ensures e in events && Distance(now, e) == Nearest(events, now)
  {
    var m := Nearest(events, now);
    assert IsNearest(events, now, m);
    e :| e in events && Distance(now, e) == m;
  }

  lemma NearestAmongMore(a: seq<TideEvent>, b: seq<TideEvent>, now: Clock)
    requires forall e :: e in a ==> e in b
    ensures Nearest(b, now) <= Nearest(a, now)
  {
    if a != [] {
      var e := NearestEvent(a, now);
    } else if b != [] {
      DistanceBelowMaxFloat(now, b[0]);
    }
  }

  /** More events never lower the tide score. */
  lemma MoreEventsNeverHurt(t: TideData, u: TideData, now: Clock)
    requires multiset(t.highTides) + multiset(t.lowTides) <= multiset(u.highTides) + multiset(u.lowTides)
    requires t.tideType == u.tideType
    ensures TideScore(Some(t), now) <= TideScore(Some(u), now)
  {
    var a, b := t.highTides + t.lowTides, u.highTides + u.lowTides;
    forall e | e in a ensures e in b { assert e in multiset(a) && e in multiset(b); }
    NearestAmongMore(a, b, now);
    BaseAntitone(Nearest(b, now), Nearest(a, now));
  }

  lemma NearestFarther(a: seq<TideEvent>, b: seq<TideEvent>, now: Clock)
    requires |a| == |b| && forall k :: 0 <= k < |a| ==> Distance(now, a[k]) <= Distance(now, b[k])
    ensures Nearest(a, now) <= Nearest(b, now)
  {
  }

  /** Events that all move farther from now never raise the tide score. */
  lemma FartherEventsNeverHelp(t: TideData, u: TideData, now: Clock)
    requires var a, b := t.highTides + t.lowTides, u.highTides + u.lowTides;
             |a| == |b| && forall k :: 0 <= k < |a| ==> Distance(now, a[k]) <= Distance(now, b[k])
    requires t.tideType == u.tideType
    ensures TideScore(Some(u), now) <= TideScore(Some(t), now)
  {
    var a, b := t.highTides + t.lowTides, u.highTides + u.lowTides;
    NearestFarther(a, b, now);
    BaseAntitone(Nearest(a, now), Nearest(b, now));
  }

  ghost predicate NoWorse(r: Rank, s: Rank) {
    match r case Bad => true case Poor => !s.Bad? case Fair => !s.Bad? && !s.Poor?
            case Good => s.Good? || s.Excellent? case Excellent => s.Excellent?
  }

  /** A corollary: less wind and pressure nearer 1013 never lower the total or the rank. */
  lemma BetterWeatherNeverHurts(w: WeatherData, v: WeatherData, tide: Option<TideData>, now: Clock)
    requires v.windSpeed <= w.windSpeed && PressureGap(v.pressure) <= PressureGap(w.pressure)
    ensures Total(Some(w), tide, now) <= Total(Some(v), tide, now)
    ensures NoWorse(RankOf(Total(Some(w), tide, now)), RankOf(Total(Some(v), tide, now)))
  {
  }

  predicate Passes(a: real, b: real, x: real) { a <= x < b }

  /**
    The thresholds, read off: the penalties grow exactly when the wind passes 3, 5, 7 or 10,
    or the pressure, on either side of 1013, passes a gap of 10 or 15; the tide score falls
    exactly when the nearest event passes 30, 60, 90 or 120 minutes.
   */
  lemma StepsOnlyAtThresholds(a: real, b: real)
    requires a <= b
    ensures WindPenalty(a) < WindPenalty(b) <==>
              Passes(a, b, 3.0) || Passes(a, b, 5.0) || Passes(a, b, 7.0) || Passes(a, b, 10.0)
    ensures 0.0 <= a ==>
              (PressurePenalty(1013.0 + a) < PressurePenalty(1013.0 + b) <==> Passes(a, b, 10.0) || Passes(a, b, 15.0))
    ensures PressurePenalty(1013.0 - a) == PressurePenalty(1013.0 + a)
    ensures Base(b) < Base(a) <==>
              Passes(a, b, 30.0) || Passes(a, b, 60.0) || Passes(a, b, 90.0) || Passes(a, b, 120.0)
  {
  }
}
