/** The earlier engine of strava_zones_backend/api/hr_processing.py: it parses
    only time and heart rate, attributes each interval to the heart rate of its
    start sample and has no moving filter. It shares the zone lookup and the
    bucket update with the later engine but keeps its own loop. */
module LegacyHrProcessing {
  import opened Wrappers
  import opened Zones
  import opened Sums
  import HP = HrProcessing

  // ---------------------------------------------------------------------------
  // Stream parsing
  // ---------------------------------------------------------------------------

  /** One stream of parse_activity_streams (hr_processing.py:46-66): the data
      list of a mapping whose "data" is a non-empty list of ints, else None. */
  function IntSeries(p: map<string, HP.Json>, key: string): Option<seq<int>> {
    match HP.DataList(p, key)
    case None => None
    case Some(data) =>
      if |data| == 0 then None
      else if !(forall i :: 0 <= i < |data| ==> HP.IsInstance(data[i], HP.IntType)) then None
      else Some(HP.AsInts(data))
  }

  /** The two series the earlier parser returns. */
  datatype Series = Series(time: Option<seq<int>>, heartrate: Option<seq<int>>)

  /** parse_activity_streams (hr_processing.py:15-74): a missing or empty payload
      gives (None, None); each series is checked on its own and unequal lengths
      are only reported, never rejected. */
  function ParseActivityStreams(streamsData: Option<map<string, HP.Json>>): (r: Series)
    ensures streamsData.None? || streamsData.value == map[] ==> r == Series(None, None)
    ensures r.time.Some? <==> streamsData.Some? && HP.ValidStream(streamsData.value, "time", HP.IntType)
    ensures r.heartrate.Some? <==> streamsData.Some? && HP.ValidStream(streamsData.value, "heartrate", HP.IntType)
    ensures r.time.Some? ==> |r.time.value| > 0
    ensures r.heartrate.Some? ==> |r.heartrate.value| > 0
  {
    if streamsData.None? || streamsData.value == map[] then Series(None, None)
    else Series(IntSeries(streamsData.value, "time"), IntSeries(streamsData.value, "heartrate"))
  }

  /** The earlier parser yields exactly the time and heart-rate series of the
      later one. */
  lemma ParseAgreesWithLaterParser(streamsData: Option<map<string, HP.Json>>)
    ensures ParseActivityStreams(streamsData)
      == Series(HP.ParseActivityStreams(streamsData).time, HP.ParseActivityStreams(streamsData).heartrate)
  {
    if streamsData.Some? && streamsData.value != map[] {
      var p := streamsData.value;
      assert IntSeries(p, "time") == HP.IntStream(p, "time");
      assert IntSeries(p, "heartrate") == HP.IntStream(p, "heartrate");
    }
  }

  /** Series of different lengths both come back. */
  lemma UnequalLengthsAreKept()
    ensures var p := map["time" := HP.JObject(map["data" := HP.JList([HP.JInt(0), HP.JInt(1)])]),
                         "heartrate" := HP.JObject(map["data" := HP.JList([HP.JInt(120)])])];
      ParseActivityStreams(Some(p)) == Series(Some([0, 1]), Some([120]))
  {
    var p := map["time" := HP.JObject(map["data" := HP.JList([HP.JInt(0), HP.JInt(1)])]),
                 "heartrate" := HP.JObject(map["data" := HP.JList([HP.JInt(120)])])];
    assert p != map[] by { assert "time" in p; }
    assert HP.AsInts([HP.JInt(0), HP.JInt(1)]) == [0, 1];
    assert HP.AsInts([HP.JInt(120)]) == [120];
  }

  // ---------------------------------------------------------------------------
  // Time in zones
  // ---------------------------------------------------------------------------

  /** One iteration of the loop (hr_processing.py:190-204): the interval from
      sample `i` to sample `i + 1` goes to the zone of `hr[i]`, or is skipped
      when its duration is not positive. */
  function Step(m: map<string, int>, time: seq<int>, hr: seq<int>, config: Option<ZonesConfig>, i: nat): (r: map<string, int>)
    requires HP.OutsideZonesKey in m
    requires i + 1 < |time| == |hr|
    ensures HP.OutsideZonesKey in r
  {
    var d := time[i + 1] - time[i];
    if d <= 0 then m else HP.AddDuration(m, HP.ZoneFor(hr[i], config), d)
  }

  /** The loop from interval `i` on. */
  function Accumulate(m: map<string, int>, time: seq<int>, hr: seq<int>, config: Option<ZonesConfig>, i: nat): map<string, int>
    requires HP.OutsideZonesKey in m
    requires i < |time| == |hr|
    decreases |time| - i
  {
    if i + 1 == |time| then m
    else Accumulate(Step(m, time, hr, config, i), time, hr, config, i + 1)
  }

  /** calculate_time_in_zones (hr_processing.py:132-206) as a function of its
      inputs: the seeded buckets, returned unchanged by the guards. */
  function TimeInZones(time: Option<seq<int>>, hr: Option<seq<int>>, config: Option<ZonesConfig>): map<string, int> {
    var seed := HP.SeedZones(config);
    if HP.Unusable(time, hr) then seed
    else Accumulate(seed, time.value, hr.value, config, 0)
  }

  /** calculate_time_in_zones (hr_processing.py:132-206): seeding, the guard
      clauses, then the loop over the sample pairs. */
  method CalculateTimeInZones(time: Option<seq<int>>, hr: Option<seq<int>>, config: Option<ZonesConfig>)
    returns (spent: map<string, int>)
    ensures spent == TimeInZones(time, hr, config)
  {
    spent := HP.SeedTimeInZones(config);
    if !HP.Present(time) || !HP.Present(hr) {
      return;
    }
    if |time.value| != |hr.value| {
      return;
    }
    if |time.value| < 2 {
      return;
    }
    spent := WalkIntervals(spent, time.value, hr.value, config);
  }

  /** The loop of calculate_time_in_zones (hr_processing.py:190-204). */
  method WalkIntervals(seed: map<string, int>, t: seq<int>, h: seq<int>, config: Option<ZonesConfig>)
    returns (spent: map<string, int>)
    requires HP.OutsideZonesKey in seed
    requires 1 <= |t| == |h|
    ensures spent == Accumulate(seed, t, h, config, 0)
  {
    spent := seed;
    var i := 0;
    while i < |t| - 1
      invariant 0 <= i <= |t| - 1
      invariant HP.OutsideZonesKey in spent
      invariant Accumulate(spent, t, h, config, i) == Accumulate(seed, t, h, config, 0)
    {
      var hrValue := h[i];
      var duration := t[i + 1] - t[i];
      if duration <= 0 {
        i := i + 1;
        continue;
      }
      var zoneName := HP.DetermineHrZone(hrValue, config);
      spent := HP.AddToZone(spent, zoneName, duration);
      i := i + 1;
    }
  }

  // ---------------------------------------------------------------------------
  // Conservation
  // ---------------------------------------------------------------------------

  /** The total of the positive durations of the intervals from `i` on. */
  function PositiveTotal(time: seq<int>, i: nat): int
    requires i < |time|
    decreases |time| - i
  {
    if i + 1 == |time| then 0
    else (if time[i + 1] - time[i] > 0 then time[i + 1] - time[i] else 0) + PositiveTotal(time, i + 1)
  }

  /** One iteration keeps the key set, adds the interval's positive duration to
      the total, keeps every bucket non-negative, and puts the time outside
      when the zones cannot be read. */
  lemma StepLaws(m: map<string, int>, time: seq<int>, hr: seq<int>, config: Option<ZonesConfig>, i: nat)
    requires HP.OutsideZonesKey in m
    requires i + 1 < |time| == |hr|
    requires config.Some? && config.value.zones.Ok? ==> Names(config.value.zones.value) <= m.Keys
    requires !(config.Some? && config.value.zones.Ok?) ==> m.Keys == {HP.OutsideZonesKey}
    requires forall k :: k in m ==> m[k] >= 0
    ensures var r := Step(m, time, hr, config, i);
      var d := time[i + 1] - time[i];
      var counted := if d > 0 then d else 0;
      r.Keys == m.Keys
      && SumValues(r) == SumValues(m) + counted
      && (forall k :: k in r ==> r[k] >= 0)
      && (!(config.Some? && config.value.zones.Ok?) ==> r[HP.OutsideZonesKey] == m[HP.OutsideZonesKey] + counted)
  {
    var d := time[i + 1] - time[i];
    if d > 0 {
      var z := HP.ZoneFor(hr[i], config);
      var key := if z.Some? && z.value != "" then z.value else HP.OutsideZonesKey;
      assert key in m by {
        if z.Some? {
          HP.ZoneForIsAZoneName(hr[i], config);
        }
      }
      assert Step(m, time, hr, config, i) == m[key := m[key] + d];
      HP.AddToBucket(m, key, d);
    }
  }

  /** The loop from interval `i` on, by induction over the intervals left. */
  lemma {:induction false} AccumulateLaws(m: map<string, int>, time: seq<int>, hr: seq<int>, config: Option<ZonesConfig>, i: nat)
    requires HP.OutsideZonesKey in m
    requires i < |time| == |hr|
    requires config.Some? && config.value.zones.Ok? ==> Names(config.value.zones.value) <= m.Keys
    requires !(config.Some? && config.value.zones.Ok?) ==> m.Keys == {HP.OutsideZonesKey}
    requires forall k :: k in m ==> m[k] >= 0
    ensures var r := Accumulate(m, time, hr, config, i);
      r.Keys == m.Keys
      && SumValues(r) == SumValues(m) + PositiveTotal(time, i)
      && (forall k :: k in r ==> r[k] >= 0)
      && (!(config.Some? && config.value.zones.Ok?) ==> r[HP.OutsideZonesKey] == m[HP.OutsideZonesKey] + PositiveTotal(time, i))
    decreases |time| - i
  {
    if i + 1 < |time| {
      StepLaws(m, time, hr, config, i);
      AccumulateLaws(Step(m, time, hr, config, i), time, hr, config, i + 1);
    }
  }

  /** Conservation (hr_processing.py:155-206): the buckets are the seeded ones
      (every zone name and the outside key, or the outside key alone when the
      zones cannot be read), none is negative, and they sum to the total
      positive duration, or to 0 when a guard returns early. */
  lemma TimeInZonesConservation(time: Option<seq<int>>, hr: Option<seq<int>>, config: Option<ZonesConfig>)
    ensures var r := TimeInZones(time, hr, config);
      r.Keys == HP.SeedZones(config).Keys
      && (forall k :: k in r ==> r[k] >= 0)
      && SumValues(r) == (if HP.Unusable(time, hr) then 0 else PositiveTotal(time.value, 0))
      && (!(config.Some? && config.value.zones.Ok?) ==> r == map[HP.OutsideZonesKey := SumValues(r)])
  {
    var seed := HP.SeedZones(config);
    SumValuesZero(seed);
    var r := TimeInZones(time, hr, config);
    if !HP.Unusable(time, hr) {
      AccumulateLaws(seed, time.value, hr.value, config, 0);
    }
    if !(config.Some? && config.value.zones.Ok?) {
      assert r.Keys == {HP.OutsideZonesKey};
      SumValuesRemove(r, HP.OutsideZonesKey);
      assert r - {HP.OutsideZonesKey} == map[];
      assert r == map[HP.OutsideZonesKey := r[HP.OutsideZonesKey]];
    }
  }

  // ---------------------------------------------------------------------------
  // The two engines compared
  // ---------------------------------------------------------------------------

  /** Without moving or distance data the later engine's filter accepts every
      interval of positive duration. */
  lemma {:induction false} CountedTimeWithoutFilter(time: seq<int>, threshold: real, idx: nat)
    requires 1 <= idx <= |time|
    ensures HP.CountedTime(time, None, None, threshold, idx) == PositiveTotal(time, idx - 1)
    decreases |time| - idx
  {
    if idx < |time| {
      CountedTimeWithoutFilter(time, threshold, idx + 1);
    }
  }

  /** The earlier engine charges a single interval to the zone of its start
      sample. */
  lemma OneIntervalEarlier(t: seq<int>, h: seq<int>, c: Option<ZonesConfig>, a: string)
    requires |t| == |h| == 2 && t[1] - t[0] > 0
    requires HP.ZoneFor(h[0], c) == Some(a) && a != ""
    requires a in HP.SeedZones(c)
    ensures TimeInZones(Some(t), Some(h), c) == HP.SeedZones(c)[a := t[1] - t[0]]
  {
    var seed := HP.SeedZones(c);
    assert seed[a] == 0;
    var m := seed[a := seed[a] + (t[1] - t[0])];
    assert Step(seed, t, h, c, 0) == m;
    assert TimeInZones(Some(t), Some(h), c) == Accumulate(m, t, h, c, 1);
  }

  /** The later engine charges a single interval, without moving data, to the
      zone of its mean heart rate. */
  lemma OneIntervalLater(t: seq<int>, h: seq<int>, c: Option<ZonesConfig>, b: string)
    requires |t| == |h| == 2 && t[1] - t[0] > 0
    requires HP.ZoneFor(HP.IntervalHeartRate(h, 1), c) == Some(b) && b != ""
    requires b in HP.SeedZones(c)
    ensures HP.TimeInZones(Some(t), Some(h), None, None, c) == Ok(HP.SeedZones(c)[b := t[1] - t[0]])
  {
    var seed := HP.SeedZones(c);
    assert seed[b] == 0;
    var m := seed[b := seed[b] + (t[1] - t[0])];
    HP.StepCounted(seed, t, h, None, None, c, 1, Some(b));
    HP.AccumulateNext(seed, m, t, h, None, None, c, 1);
  }

  /** Over one 10-second interval from 100 to 130 bpm, in any configuration
      that puts 100 in one zone and 115 in another, the earlier engine charges
      the start sample's zone and the later one the zone of the mean 115. */
  lemma StartSampleVersusMean(t: seq<int>, h: seq<int>, c: Option<ZonesConfig>, a: string, b: string)
    requires t == [0, 10] && h == [100, 130]
    requires HP.ZoneFor(100, c) == Some(a) && HP.ZoneFor(115, c) == Some(b)
    requires a != "" && b != "" && a in HP.SeedZones(c) && b in HP.SeedZones(c)
    ensures TimeInZones(Some(t), Some(h), c) == HP.SeedZones(c)[a := 10]
    ensures HP.TimeInZones(Some(t), Some(h), None, None, c) == Ok(HP.SeedZones(c)[b := 10])
  {
    assert HP.IntervalHeartRate(h, 1) == 115;
    OneIntervalEarlier(t, h, c, a);
    OneIntervalLater(t, h, c, b);
  }

  /** With no moving or distance data both engines fill the same buckets with
      the same total, though they may split it differently. */
  lemma SameTotalWithoutMovingData(time: Option<seq<int>>, hr: Option<seq<int>>, config: Option<ZonesConfig>)
    ensures HP.TimeInZones(time, hr, None, None, config).Ok?
    ensures var later := HP.TimeInZones(time, hr, None, None, config).value;
      var earlier := TimeInZones(time, hr, config);
      later.Keys == earlier.Keys && SumValues(later) == SumValues(earlier)
  {
    HP.TimeInZonesConservation(time, hr, None, None, config);
    TimeInZonesConservation(time, hr, config);
    if !HP.Unusable(time, hr) {
      CountedTimeWithoutFilter(time.value, HP.ConfigThreshold(config), 1);
      assert !HP.FailsFrom(time.value, None, None, HP.ConfigThreshold(config), 1);
    }
    HP.TimeInZonesKeys(time, hr, None, None, config);
  }
}
