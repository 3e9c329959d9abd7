/** The heart-rate time-in-zone engine of backend/api/hr_processing.py: stream
    parsing, zone lookup and the per-interval aggregation with the moving
    filter and mean heart rate. */
module HrProcessing {
  import opened Wrappers
  import opened Zones
  import opened Sums

  /** OUTSIDE_ZONES_KEY: the bucket for time that matches no zone. */
  const OutsideZonesKey: string := "Time Outside Defined Zones"

  // ---------------------------------------------------------------------------
  // Stream parsing
  // ---------------------------------------------------------------------------

  /** A JSON value as decoded from the stream payload. */
  datatype Json =
    | JNull
    | JBool(b: bool)
    | JInt(i: int)
    | JFloat(f: real)
    | JString(s: string)
    | JList(items: seq<Json>)
    | JObject(fields: map<string, Json>)

  /** The element type a stream must hold. */
  datatype ExpectedType = IntType | FloatType | BoolType

  /** Python's `isinstance(v, t)`: a bool passes the int check (bool is a
      subclass of int) but an int does not pass the float check. */
  predicate IsInstance(v: Json, t: ExpectedType) {
    (t == IntType && (v.JInt? || v.JBool?))
    || (t == FloatType && v.JFloat?)
    || (t == BoolType && v.JBool?)
  }

  /** `streams[key]["data"]` when the stream is a mapping whose "data" is a list. */
  function DataList(payload: map<string, Json>, key: string): Option<seq<Json>> {
    if key in payload && payload[key].JObject? && "data" in payload[key].fields
       && payload[key].fields["data"].JList?
    then Some(payload[key].fields["data"].items)
    else None
  }

  /** A stream that is present, a mapping, with a non-empty list `data` whose
      elements all pass the type check. */
  predicate ValidStream(payload: map<string, Json>, key: string, t: ExpectedType) {
    DataList(payload, key).Some? && |DataList(payload, key).value| > 0
    && forall i :: 0 <= i < |DataList(payload, key).value| ==> IsInstance(DataList(payload, key).value[i], t)
  }

  /** _parse_activity_stream (hr_processing.py:85-99): the raw data list of a
      valid stream, None for every malformed case. */
  function ParseActivityStream(payload: map<string, Json>, key: string, t: ExpectedType): (r: Option<seq<Json>>)
    ensures r.Some? <==> ValidStream(payload, key, t)
    ensures r.Some? ==> r == DataList(payload, key) && |r.value| > 0
  {
    match DataList(payload, key)
    case None => None
    case Some(data) =>
      if |data| == 0 then None
      else if !(forall i :: 0 <= i < |data| ==> IsInstance(data[i], t)) then None
      else Some(data)
  }

  /** The integer a value that passed the int check stands for (True is 1). */
  function AsInt(v: Json): int
    requires IsInstance(v, IntType)
  {
    if v.JBool? then (if v.b then 1 else 0) else v.i
  }

  function AsReal(v: Json): real
    requires IsInstance(v, FloatType)
  {
    v.f
  }

  function AsBool(v: Json): bool
    requires IsInstance(v, BoolType)
  {
    v.b
  }

  function AsInts(data: seq<Json>): (r: seq<int>)
    requires forall i :: 0 <= i < |data| ==> IsInstance(data[i], IntType)
    ensures |r| == |data| && forall i :: 0 <= i < |data| ==> r[i] == AsInt(data[i])
  {
    seq(|data|, i requires 0 <= i < |data| => AsInt(data[i]))
  }

  function AsReals(data: seq<Json>): (r: seq<real>)
    requires forall i :: 0 <= i < |data| ==> IsInstance(data[i], FloatType)
    ensures |r| == |data| && forall i :: 0 <= i < |data| ==> r[i] == AsReal(data[i])
  {
    seq(|data|, i requires 0 <= i < |data| => AsReal(data[i]))
  }

  function AsBools(data: seq<Json>): (r: seq<bool>)
    requires forall i :: 0 <= i < |data| ==> IsInstance(data[i], BoolType)
    ensures |r| == |data| && forall i :: 0 <= i < |data| ==> r[i] == AsBool(data[i])
  {
    seq(|data|, i requires 0 <= i < |data| => AsBool(data[i]))
  }

  /** The four typed series; None where a stream is absent or malformed. */
  datatype Streams = Streams(
    time: Option<seq<int>>,
    heartrate: Option<seq<int>>,
    distance: Option<seq<real>>,
    moving: Option<seq<bool>>)

  function IntStream(payload: map<string, Json>, key: string): Option<seq<int>> {
    match ParseActivityStream(payload, key, IntType)
    case None => None
    case Some(data) => Some(AsInts(data))
  }

  function FloatStream(payload: map<string, Json>, key: string): Option<seq<real>> {
    match ParseActivityStream(payload, key, FloatType)
    case None => None
    case Some(data) => Some(AsReals(data))
  }

  function BoolStream(payload: map<string, Json>, key: string): Option<seq<bool>> {
    match ParseActivityStream(payload, key, BoolType)
    case None => None
    case Some(data) => Some(AsBools(data))
  }

  /** parse_activity_streams (hr_processing.py:51-82). A missing or empty
      payload gives four Nones; otherwise each stream is parsed on its own. */
  function ParseActivityStreams(streamsData: Option<map<string, Json>>): (r: Streams)
    ensures streamsData.None? || streamsData.value == map[] ==> r == Streams(None, None, None, None)
    ensures r.time.Some? <==> streamsData.Some? && ValidStream(streamsData.value, "time", IntType)
    ensures r.heartrate.Some? <==> streamsData.Some? && ValidStream(streamsData.value, "heartrate", IntType)
    ensures r.distance.Some? <==> streamsData.Some? && ValidStream(streamsData.value, "distance", FloatType)
    ensures r.moving.Some? <==> streamsData.Some? && ValidStream(streamsData.value, "moving", BoolType)
    ensures r.time.Some? ==> |r.time.value| > 0
    ensures r.heartrate.Some? ==> |r.heartrate.value| > 0
  {
    if streamsData.None? || streamsData.value == map[] then Streams(None, None, None, None)
    else
      var p := streamsData.value;
      Streams(IntStream(p, "time"), IntStream(p, "heartrate"), FloatStream(p, "distance"), BoolStream(p, "moving"))
  }

  /** Parsing is per stream: replacing one stream's entry leaves the other three
      results unchanged, so a broken "time" stream never hides a good
      "heartrate" stream. */
  lemma ParseIsPerStream(p: map<string, Json>, v: Json)
    requires p != map[]
    ensures var q := p["time" := v];
      ParseActivityStreams(Some(q)).heartrate == ParseActivityStreams(Some(p)).heartrate
      && ParseActivityStreams(Some(q)).distance == ParseActivityStreams(Some(p)).distance
      && ParseActivityStreams(Some(q)).moving == ParseActivityStreams(Some(p)).moving
  {
    var q := p["time" := v];
    assert q != map[] by { assert "time" in q; }
    assert "heartrate" != "time" && "distance" != "time" && "moving" != "time";
    assert DataList(q, "heartrate") == DataList(p, "heartrate");
    assert DataList(q, "distance") == DataList(p, "distance");
    assert DataList(q, "moving") == DataList(p, "moving");
  }

  /** A distance stream of integer values fails the float check and is
      dropped, while the same values are a valid time stream. */
  lemma IntegerDistanceIsRejected(xs: seq<int>)
    requires |xs| > 0
    ensures var data := JList(seq(|xs|, i requires 0 <= i < |xs| => JInt(xs[i])));
      var p := map["distance" := JObject(map["data" := data]), "time" := JObject(map["data" := data])];
      ParseActivityStreams(Some(p)).distance.None? && ParseActivityStreams(Some(p)).time == Some(xs)
  {
    var data := JList(seq(|xs|, i requires 0 <= i < |xs| => JInt(xs[i])));
    var p := map["distance" := JObject(map["data" := data]), "time" := JObject(map["data" := data])];
    assert !IsInstance(data.items[0], FloatType);
    assert ValidStream(p, "time", IntType);
    assert AsInts(data.items) == xs;
  }

  // ---------------------------------------------------------------------------
  // Zone lookup
  // ---------------------------------------------------------------------------

  /** The store's ordering on `min_hr`; a bound that is not an integer sorts first. */
  predicate MinHrLe(a: HeartRateZone, b: HeartRateZone) {
    match a.minHr
    case NotInt => true
    case Int(x) => b.minHr.Int? && x <= b.minHr.value
  }

  predicate SortedByMinHr(zs: seq<HeartRateZone>) {
    forall i, j :: 0 <= i < j < |zs| ==> MinHrLe(zs[i], zs[j])
  }

  /** Inserts `z` before the first zone it does not exceed. */
  function InsertByMinHr(z: HeartRateZone, zs: seq<HeartRateZone>): seq<HeartRateZone> {
    if zs == [] then [z]
    else if MinHrLe(z, zs[0]) then [z] + zs
    else [zs[0]] + InsertByMinHr(z, zs[1..])
  }

  /** `zones_definition.order_by("min_hr")`: a stable insertion sort on `min_hr`
      (ties keep storage order). */
  function SortByMinHr(zs: seq<HeartRateZone>): seq<HeartRateZone> {
    if zs == [] then [] else InsertByMinHr(zs[0], SortByMinHr(zs[1..]))
  }

  /** Insertion adds exactly `z`. */
  lemma {:induction false} InsertByMinHrPermutes(z: HeartRateZone, zs: seq<HeartRateZone>)
    ensures multiset(InsertByMinHr(z, zs)) == multiset(zs) + multiset{z}
  {
    if zs != [] && !MinHrLe(z, zs[0]) {
      InsertByMinHrPermutes(z, zs[1..]);
      assert zs == [zs[0]] + zs[1..];
    }
  }

  /** The sort returns the same zones. */
  lemma {:induction false} SortByMinHrPermutes(zs: seq<HeartRateZone>)
    ensures multiset(SortByMinHr(zs)) == multiset(zs)
  {
    if zs != [] {
      SortByMinHrPermutes(zs[1..]);
      InsertByMinHrPermutes(zs[0], SortByMinHr(zs[1..]));
      assert zs == [zs[0]] + zs[1..];
    }
  }

  /** Putting `a` in front of a sorted `rest` keeps it sorted when `a` is at most
      every element `rest` can hold. */
  lemma PrependKeepsSorted(a: HeartRateZone, z: HeartRateZone, tail: seq<HeartRateZone>, rest: seq<HeartRateZone>)
    requires SortedByMinHr(rest) && MinHrLe(a, z)
    requires forall i :: 0 <= i < |tail| ==> MinHrLe(a, tail[i])
    requires multiset(rest) == multiset(tail) + multiset{z}
    ensures SortedByMinHr([a] + rest)
  {
    var r := [a] + rest;
    forall i, j | 0 <= i < j < |r|
      ensures MinHrLe(r[i], r[j])
    {
      if i == 0 {
        assert r[j] == rest[j - 1];
        assert rest[j - 1] in multiset(rest);
        if rest[j - 1] != z {
          assert rest[j - 1] in multiset(tail);
        }
      } else {
        assert r[i] == rest[i - 1] && r[j] == rest[j - 1];
      }
    }
  }

  /** Insertion into a sorted sequence keeps it sorted. */
  lemma {:induction false} InsertKeepsSorted(z: HeartRateZone, zs: seq<HeartRateZone>)
    requires SortedByMinHr(zs)
    ensures SortedByMinHr(InsertByMinHr(z, zs))
  {
    if zs != [] && !MinHrLe(z, zs[0]) {
      assert zs == [zs[0]] + zs[1..];
      InsertKeepsSorted(z, zs[1..]);
      InsertByMinHrPermutes(z, zs[1..]);
      PrependKeepsSorted(zs[0], z, zs[1..], InsertByMinHr(z, zs[1..]));
    } else if zs != [] {
      var r := [z] + zs;
      forall i, j | 0 <= i < j < |r|
        ensures MinHrLe(r[i], r[j])
      {
        if i > 0 {
          assert r[i] == zs[i - 1] && r[j] == zs[j - 1];
        } else if j > 1 {
          assert MinHrLe(zs[0], zs[j - 1]);
        }
      }
    }
  }

  /** The sort orders the zones by `min_hr`. */
  lemma {:induction false} SortByMinHrIsSorted(zs: seq<HeartRateZone>)
    ensures SortedByMinHr(SortByMinHr(zs))
  {
    if zs != [] {
      SortByMinHrIsSorted(zs[1..]);
      InsertKeepsSorted(zs[0], SortByMinHr(zs[1..]));
    }
  }

  /** Zones already in `min_hr` order come back from the sort unchanged. */
  lemma {:induction false} SortByMinHrSorted(zs: seq<HeartRateZone>)
    requires SortedByMinHr(zs)
    ensures SortByMinHr(zs) == zs
  {
    if zs != [] {
      SortByMinHrSorted(zs[1..]);
      assert zs == [zs[0]] + zs[1..];
    }
  }

  /** The position of the first zone that contains `hr`, or |zs| when none does. */
  function FirstMatchIndex(zs: seq<HeartRateZone>, hr: int): nat {
    if zs == [] then 0
    else if Contains(zs[0], hr) then 0
    else 1 + FirstMatchIndex(zs[1..], hr)
  }

  /** FirstMatchIndex is the position `k` such that no zone before `k` contains
      `hr` and zone `k`, if any, does. */
  lemma {:induction false} FirstMatchIndexIs(zs: seq<HeartRateZone>, hr: int, k: nat)
    requires k <= |zs|
    requires forall j :: 0 <= j < k ==> !Contains(zs[j], hr)
    requires k < |zs| ==> Contains(zs[k], hr)
    ensures FirstMatchIndex(zs, hr) == k
  {
    if zs != [] && k > 0 {
      assert !Contains(zs[0], hr);
      FirstMatchIndexIs(zs[1..], hr, k - 1);
    }
  }

  /** Such a position always exists. */
  lemma {:induction false} FirstMatchIndexSpec(zs: seq<HeartRateZone>, hr: int)
    ensures FirstMatchIndex(zs, hr) <= |zs|
    ensures forall j :: 0 <= j < FirstMatchIndex(zs, hr) ==> !Contains(zs[j], hr)
    ensures FirstMatchIndex(zs, hr) < |zs| ==> Contains(zs[FirstMatchIndex(zs, hr)], hr)
  {
    if zs != [] && !Contains(zs[0], hr) {
      FirstMatchIndexSpec(zs[1..], hr);
      forall j | 0 <= j < FirstMatchIndex(zs, hr)
        ensures !Contains(zs[j], hr)
      {
        if j > 0 {
          assert zs[j] == zs[1..][j - 1];
        }
      }
    }
  }

  function FirstMatch(zs: seq<HeartRateZone>, hr: int): Option<string> {
    var k := FirstMatchIndex(zs, hr);
    if k < |zs| then Some(zs[k].name) else None
  }

  /** The zone determine_hr_zone returns for `hr` (hr_processing.py:102-140):
      no config, a failed fetch or an empty config give None; otherwise the
      first well-formed zone, in `min_hr` order, whose inclusive range holds
      `hr`. */
  function ZoneFor(hr: int, config: Option<ZonesConfig>): Option<string> {
    if config.None? then None
    else match config.value.zones
      case Err(_) => None
      case Ok(zs) => if zs == [] then None else FirstMatch(SortByMinHr(zs), hr)
  }

  /** determine_hr_zone (hr_processing.py:102-140): the search loop over the
      sorted zones, with early return. */
  method DetermineHrZone(hr: int, config: Option<ZonesConfig>) returns (r: Option<string>)
    ensures r == ZoneFor(hr, config)
  {
    if config.None? {
      return None;
    }
    if config.value.zones.Err? {
      return None;
    }
    var allZones := SortByMinHr(config.value.zones.value);
    if |allZones| == 0 {
      return None;
    }
    var i := 0;
    while i < |allZones|
      invariant 0 <= i <= |allZones|
      invariant forall j :: 0 <= j < i ==> !Contains(allZones[j], hr)
    {
      var zone := allZones[i];
      if !zone.minHr.Int? || !zone.maxHr.Int? {
        i := i + 1;
        continue;
      }
      if zone.minHr.value > zone.maxHr.value {
        i := i + 1;
        continue;
      }
      if zone.minHr.value <= hr <= zone.maxHr.value {
        FirstMatchIndexIs(allZones, hr, i);
        return Some(zone.name);
      }
      i := i + 1;
    }
    FirstMatchIndexIs(allZones, hr, |allZones|);
    return None;
  }

  /** `zs[i]` contains `hr` and no zone containing `hr` has a lower `min_hr`. */
  predicate IsLowestContaining(zs: seq<HeartRateZone>, i: int, hr: int)
    requires 0 <= i < |zs|
  {
    Contains(zs[i], hr)
    && forall j :: 0 <= j < |zs| && Contains(zs[j], hr) ==> zs[i].minHr.value <= zs[j].minHr.value
  }

  /** What determine_hr_zone returns, independent of storage order: None exactly
      when nothing contains `hr`; otherwise the name of a well-formed zone that
      contains `hr` and has the lowest `min_hr` among those that do. */
  lemma ZoneForIsLowestContaining(hr: int, config: Option<ZonesConfig>)
    ensures ZoneFor(hr, config).None? <==>
      (config.None? || config.value.zones.Err?
       || forall j :: 0 <= j < |config.value.zones.value| ==> !Contains(config.value.zones.value[j], hr))
    ensures ZoneFor(hr, config).Some? ==>
      config.Some? && config.value.zones.Ok?
      && (exists i :: 0 <= i < |config.value.zones.value| && IsLowestContaining(config.value.zones.value, i, hr)
           && config.value.zones.value[i].name == ZoneFor(hr, config).value)
  {
    if config.Some? && config.value.zones.Ok? && config.value.zones.value != [] {
      var zs := config.value.zones.value;
      FirstMatchIndexSpec(SortByMinHr(zs), hr);
      SortByMinHrIsSorted(zs);
      SortByMinHrPermutes(zs);
      FirstMatchInSorted(SortByMinHr(zs), zs, hr);
    }
  }

  /** The first match in a sorted copy of `zs` is a lowest containing zone of
      `zs`, and there is none exactly when no zone of `zs` contains `hr`. */
  lemma FirstMatchInSorted(sorted: seq<HeartRateZone>, zs: seq<HeartRateZone>, hr: int)
    requires SortedByMinHr(sorted) && multiset(sorted) == multiset(zs)
    ensures FirstMatchIndex(sorted, hr) == |sorted| <==> forall j :: 0 <= j < |zs| ==> !Contains(zs[j], hr)
    ensures FirstMatchIndex(sorted, hr) < |sorted| ==>
      exists i :: 0 <= i < |zs| && IsLowestContaining(zs, i, hr) && zs[i] == sorted[FirstMatchIndex(sorted, hr)]
  {
    FirstMatchIndexSpec(sorted, hr);
    var k := FirstMatchIndex(sorted, hr);
    if k < |sorted| {
      assert sorted[k] in multiset(zs);
      var i :| 0 <= i < |zs| && zs[i] == sorted[k];
      forall j | 0 <= j < |zs| && Contains(zs[j], hr)
        ensures zs[i].minHr.value <= zs[j].minHr.value
      {
        assert zs[j] in multiset(sorted);
        var m :| 0 <= m < |sorted| && sorted[m] == zs[j];
        if k < m {
          assert MinHrLe(sorted[k], sorted[m]);
        }
      }
      assert IsLowestContaining(zs, i, hr);
    } else {
      forall j | 0 <= j < |zs|
        ensures !Contains(zs[j], hr)
      {
        assert zs[j] in multiset(sorted);
        var m :| 0 <= m < |sorted| && sorted[m] == zs[j];
      }
    }
  }

  /** Among the zones containing `hr`, equal `min_hr` implies equal name. */
  predicate LowestMatchUnambiguous(zs: seq<HeartRateZone>, hr: int) {
    forall i, j ::
      (0 <= i < |zs| && 0 <= j < |zs| && Contains(zs[i], hr) && Contains(zs[j], hr) && zs[i].minHr == zs[j].minHr)
      ==> zs[i].name == zs[j].name
  }

  /** The zone found does not depend on the order in which the store holds the
      zones: two configs holding the same zones agree for every `hr` whose
      lowest containing zone is unambiguous. */
  lemma ZoneForIgnoresStorageOrder(hr: int, a: seq<HeartRateZone>, b: seq<HeartRateZone>, activityType: string)
    requires multiset(a) == multiset(b)
    requires LowestMatchUnambiguous(a, hr)
    ensures ZoneFor(hr, Some(ZonesConfig(activityType, Ok(a)))) == ZoneFor(hr, Some(ZonesConfig(activityType, Ok(b))))
  {
    var ca := Some(ZonesConfig(activityType, Ok(a)));
    var cb := Some(ZonesConfig(activityType, Ok(b)));
    ZoneForIsLowestContaining(hr, ca);
    ZoneForIsLowestContaining(hr, cb);
    if ZoneFor(hr, ca).None? {
      forall j | 0 <= j < |b| ensures !Contains(b[j], hr) {
        assert b[j] in multiset(a);
      }
    } else {
      var i :| 0 <= i < |a| && IsLowestContaining(a, i, hr) && a[i].name == ZoneFor(hr, ca).value;
      assert a[i] in multiset(b);
      assert ZoneFor(hr, cb).Some?;
      var i' :| 0 <= i' < |b| && IsLowestContaining(b, i', hr) && b[i'].name == ZoneFor(hr, cb).value;
      assert b[i'] in multiset(a);
      var ia :| 0 <= ia < |a| && a[ia] == b[i'];
      var ib :| 0 <= ib < |b| && b[ib] == a[i];
      assert a[i].minHr.value <= a[ia].minHr.value;
      assert b[i'].minHr.value <= b[ib].minHr.value;
    }
  }

  /** A zone with `min_hr > max_hr` is never returned (zone names are unique
      within a config), and a well-formed zone holding `hr` guarantees a match. */
  lemma InvertedZoneNeverReturned(hr: int, zs: seq<HeartRateZone>, activityType: string, k: nat)
    requires DistinctNames(zs)
    requires k < |zs| && zs[k].minHr.Int? && zs[k].maxHr.Int? && zs[k].minHr.value > zs[k].maxHr.value
    ensures ZoneFor(hr, Some(ZonesConfig(activityType, Ok(zs)))) != Some(zs[k].name)
    ensures (exists j :: 0 <= j < |zs| && Contains(zs[j], hr)) ==> ZoneFor(hr, Some(ZonesConfig(activityType, Ok(zs)))).Some?
  {
    ZoneForIsLowestContaining(hr, Some(ZonesConfig(activityType, Ok(zs))));
  }

  /** The name returned is the name of one of the config's zones. */
  lemma ZoneForIsAZoneName(hr: int, config: Option<ZonesConfig>)
    requires ZoneFor(hr, config).Some?
    ensures config.Some? && config.value.zones.Ok?
    ensures ZoneFor(hr, config).value in Names(config.value.zones.value)
  {
    ZoneForIsLowestContaining(hr, config);
  }

  // ---------------------------------------------------------------------------
  // Time in zones
  // ---------------------------------------------------------------------------

  /** MOVING_DISTANCE_THRESHOLDS (hr_processing.py:41-48): metres an interval must
      cover to count as moving, keyed by the config's activity type string,
      with 0.8 for every other key. */
  function MovingDistanceThreshold(activityType: string): (r: real)
    ensures activityType == Ride.Value() ==> r == 3.0
    ensures activityType == Run.Value() ==> r == 2.0
    ensures activityType != Ride.Value() && activityType != Run.Value() ==> r == 0.8
  {
    if activityType == "RIDE" then 3.0
    else if activityType == "RUN" then 2.0
    else 0.8
  }

  /** Python truthiness of an optional list. */
  predicate Present<T>(s: Option<seq<T>>) {
    s.Some? && |s.value| > 0
  }

  /** An index error raised by the moving filter when a stream is too short. */
  datatype CalcError = IndexError

  /** _is_moving_datapoint (hr_processing.py:225-234), with Python indexing:
      index -1 is the last element. */
  function IsMovingDatapoint(moving: Option<seq<bool>>, distance: Option<seq<real>>, threshold: real, idx: nat): (r: Result<bool, CalcError>)
    ensures !(Present(moving) && Present(distance)) ==> r == Ok(true)
    ensures Present(moving) && Present(distance) ==>
      (r.Err? <==> idx >= |moving.value| || (!moving.value[idx] && idx >= |distance.value|))
    ensures r.Ok? && Present(moving) && Present(distance) && idx >= 1 ==>
      (r.value <==> moving.value[idx] || distance.value[idx] - distance.value[idx - 1] > threshold)
  {
    if !(Present(moving) && Present(distance)) then Ok(true)
    else if idx >= |moving.value| then Err(IndexError)
    else if moving.value[idx] then Ok(true)
    else if idx >= |distance.value| then Err(IndexError)
    else
      var prev := if idx == 0 then |distance.value| - 1 else idx - 1;
      Ok(distance.value[idx] - distance.value[prev] > threshold)
  }

  /** Python's `round(s / 2)` for an integer `s`: the nearest integer, ties to
      the even neighbour. */
  function RoundHalf(s: int): (r: int)
    ensures s - 1 <= 2 * r <= s + 1
    ensures s % 2 == 0 ==> 2 * r == s
    ensures s % 2 != 0 ==> r % 2 == 0
  {
    var lo := s / 2;
    if s % 2 == 0 then lo
    else if lo % 2 == 0 then lo
    else lo + 1
  }

  /** The heart rate of the interval ending at sample `idx`: the rounded mean of
      its two samples (hr_processing.py:216). */
  function IntervalHeartRate(hr: seq<int>, idx: nat): int
    requires 1 <= idx < |hr|
  {
    RoundHalf(hr[idx - 1] + hr[idx])
  }

  /** The map seeded before the loop (hr_processing.py:171-187): the outside key
      at 0 and, when the zones can be read, every zone name at 0. */
  function SeedZones(config: Option<ZonesConfig>): (m: map<string, int>)
    ensures OutsideZonesKey in m
    ensures forall k :: k in m ==> m[k] == 0
    ensures config.Some? && config.value.zones.Ok? ==> m.Keys == {OutsideZonesKey} + Names(config.value.zones.value)
    ensures !(config.Some? && config.value.zones.Ok?) ==> m.Keys == {OutsideZonesKey}
  {
    var names := if config.Some? && config.value.zones.Ok? then Names(config.value.zones.value) else {};
    map k | k in names + {OutsideZonesKey} :: 0
  }

  /** Adds `d` seconds to the zone found, or to the outside bucket when there is
      none (an empty zone name is falsy in Python and also goes outside). */
  function AddDuration(m: map<string, int>, zone: Option<string>, d: int): map<string, int>
    requires OutsideZonesKey in m
  {
    if zone.Some? && zone.value != "" then m[zone.value := (if zone.value in m then m[zone.value] else 0) + d]
    else m[OutsideZonesKey := m[OutsideZonesKey] + d]
  }

  /** The threshold for a config, DEFAULT's when there is no config
      (hr_processing.py:204-206). */
  function ConfigThreshold(config: Option<ZonesConfig>): real {
    MovingDistanceThreshold(if config.Some? then config.value.activityType else Default.Value())
  }

  /** One iteration of the main loop (hr_processing.py:208-220), for the
      interval that ends at sample `idx`. */
  function Step(m: map<string, int>, time: seq<int>, hr: seq<int>, distance: Option<seq<real>>,
                moving: Option<seq<bool>>, config: Option<ZonesConfig>, idx: nat): (r: Result<map<string, int>, CalcError>)
    requires OutsideZonesKey in m
    requires 1 <= idx < |time| == |hr|
    ensures r.Ok? ==> OutsideZonesKey in r.value
  {
    match IsMovingDatapoint(moving, distance, ConfigThreshold(config), idx)
    case Err(e) => Err(e)
    case Ok(isMoving) =>
      var duration := time[idx] - time[idx - 1];
      if !isMoving || duration <= 0 then Ok(m)
      else Ok(AddDuration(m, ZoneFor(IntervalHeartRate(hr, idx), config), duration))
  }

  /** An interval that is moving and has a positive duration is added to the
      bucket of the zone its mean heart rate falls in. */
  lemma StepCounted(m: map<string, int>, time: seq<int>, hr: seq<int>, distance: Option<seq<real>>,
                    moving: Option<seq<bool>>, config: Option<ZonesConfig>, idx: nat, zone: Option<string>)
    requires OutsideZonesKey in m
    requires 1 <= idx < |time| == |hr|
    requires IsMovingDatapoint(moving, distance, ConfigThreshold(config), idx) == Ok(true)
    requires time[idx] - time[idx - 1] > 0
    requires zone == ZoneFor(IntervalHeartRate(hr, idx), config)
    ensures Step(m, time, hr, distance, moving, config, idx) == Ok(AddDuration(m, zone, time[idx] - time[idx - 1]))
  {
  }

  /** The main loop from sample `idx` on (hr_processing.py:207-220). */
  function Accumulate(m: map<string, int>, time: seq<int>, hr: seq<int>, distance: Option<seq<real>>,
                      moving: Option<seq<bool>>, config: Option<ZonesConfig>, idx: nat): Result<map<string, int>, CalcError>
    requires OutsideZonesKey in m
    requires 1 <= idx <= |time| == |hr|
    decreases |time| - idx
  {
    if idx == |time| then Ok(m)
    else match Step(m, time, hr, distance, moving, config, idx)
      case Err(e) => Err(e)
      case Ok(m') => Accumulate(m', time, hr, distance, moving, config, idx + 1)
  }

  /** A failing iteration ends the loop with its error. */
  lemma AccumulateStops(m: map<string, int>, time: seq<int>, hr: seq<int>, distance: Option<seq<real>>,
                        moving: Option<seq<bool>>, config: Option<ZonesConfig>, idx: nat)
    requires OutsideZonesKey in m
    requires 1 <= idx < |time| == |hr|
    requires IsMovingDatapoint(moving, distance, ConfigThreshold(config), idx).Err?
    ensures Accumulate(m, time, hr, distance, moving, config, idx) == Err(IsMovingDatapoint(moving, distance, ConfigThreshold(config), idx).error)
  {
  }

  /** A successful iteration hands its buckets to the rest of the loop; an
      uncounted interval leaves them as they are. */
  lemma AccumulateNext(m: map<string, int>, m': map<string, int>, time: seq<int>, hr: seq<int>, distance: Option<seq<real>>,
                       moving: Option<seq<bool>>, config: Option<ZonesConfig>, idx: nat)
    requires OutsideZonesKey in m && OutsideZonesKey in m'
    requires 1 <= idx < |time| == |hr|
    requires Step(m, time, hr, distance, moving, config, idx) == Ok(m')
      || (m' == m && IsMovingDatapoint(moving, distance, ConfigThreshold(config), idx).Ok?
          && (!IsMovingDatapoint(moving, distance, ConfigThreshold(config), idx).value || time[idx] - time[idx - 1] <= 0))
    ensures Accumulate(m, time, hr, distance, moving, config, idx) == Accumulate(m', time, hr, distance, moving, config, idx + 1)
  {
  }

  /** The guard clauses (hr_processing.py:189-202): missing or empty series,
      unequal lengths, or fewer than two samples. */
  predicate Unusable(time: Option<seq<int>>, hr: Option<seq<int>>) {
    !Present(time) || !Present(hr) || |time.value| != |hr.value| || |time.value| < 2
  }

  /** calculate_time_in_zones (hr_processing.py:143-222) as a function of its
      inputs; Err is the IndexError of a moving or distance stream shorter than
      the time stream. */
  function TimeInZones(time: Option<seq<int>>, hr: Option<seq<int>>, distance: Option<seq<real>>,
                       moving: Option<seq<bool>>, config: Option<ZonesConfig>): Result<map<string, int>, CalcError>
  {
    var seed := SeedZones(config);
    if Unusable(time, hr) then Ok(seed)
    else Accumulate(seed, time.value, hr.value, distance, moving, config, 1)
  }

  /** The seeding loop of calculate_time_in_zones (hr_processing.py:171-187):
      the outside key at 0, then each zone name at 0; a failed fetch leaves only
      the outside key. */
  method SeedTimeInZones(config: Option<ZonesConfig>) returns (spent: map<string, int>)
    ensures spent == SeedZones(config)
  {
    spent := map[OutsideZonesKey := 0];
    if config.Some? && config.value.zones.Ok? {
      var zs := config.value.zones.value;
      var i := 0;
      while i < |zs|
        invariant 0 <= i <= |zs|
        invariant spent.Keys == {OutsideZonesKey} + Names(zs[..i])
        invariant forall k :: k in spent ==> spent[k] == 0
      {
        assert Names(zs[..i + 1]) == Names(zs[..i]) + {zs[i].name} by {
          assert zs[..i + 1] == zs[..i] + [zs[i]];
        }
        spent := spent[zs[i].name := 0];
        i := i + 1;
      }
      assert zs[..i] == zs;
    }
  }

  /** calculate_time_in_zones (hr_processing.py:143-222): seeds the map, applies
      the guards, then walks the adjacent sample pairs. */
  method CalculateTimeInZones(time: Option<seq<int>>, hr: Option<seq<int>>, distance: Option<seq<real>>,
                              moving: Option<seq<bool>>, config: Option<ZonesConfig>)
    returns (r: Result<map<string, int>, CalcError>)
    ensures r == TimeInZones(time, hr, distance, moving, config)
  {
    var spent := SeedTimeInZones(config);
    if !Present(time) || !Present(hr) || |time.value| != |hr.value| || |time.value| < 2 {
      return Ok(spent);
    }
    r := WalkIntervals(spent, time.value, hr.value, distance, moving, config);
  }

  /** The bucket update of the main loop (hr_processing.py:215-220). */
  method AddToZone(spent: map<string, int>, zoneName: Option<string>, duration: int) returns (next: map<string, int>)
    requires OutsideZonesKey in spent
    ensures next == AddDuration(spent, zoneName, duration)
  {
    if zoneName.Some? && zoneName.value != "" {
      next := spent[zoneName.value := (if zoneName.value in spent then spent[zoneName.value] else 0) + duration];
    } else {
      next := spent[OutsideZonesKey := spent[OutsideZonesKey] + duration];
    }
  }

  /** The main loop of calculate_time_in_zones (hr_processing.py:207-220) over
      the adjacent sample pairs, starting from the seeded buckets. */
  method WalkIntervals(seed: map<string, int>, t: seq<int>, h: seq<int>, distance: Option<seq<real>>,
                       moving: Option<seq<bool>>, config: Option<ZonesConfig>)
    returns (r: Result<map<string, int>, CalcError>)
    requires OutsideZonesKey in seed
    requires 1 <= |t| == |h|
    ensures r == Accumulate(seed, t, h, distance, moving, config, 1)
  {
    var spent := seed;
    var threshold := ConfigThreshold(config);
    var idx := 1;
    while idx < |h|
      invariant 1 <= idx <= |h|
      invariant OutsideZonesKey in spent
      invariant Accumulate(spent, t, h, distance, moving, config, idx) == Accumulate(seed, t, h, distance, moving, config, 1)
    {
      var isMoving := IsMovingDatapoint(moving, distance, threshold, idx);
      if isMoving.Err? {
        AccumulateStops(spent, t, h, distance, moving, config, idx);
        return Err(isMoving.error);
      }
      var duration := t[idx] - t[idx - 1];
      if !isMoving.value || duration <= 0 {
        AccumulateNext(spent, spent, t, h, distance, moving, config, idx);
        idx := idx + 1;
        continue;
      }
      var heartRate := RoundHalf(h[idx] + h[idx - 1]);
      var zoneName := DetermineHrZone(heartRate, config);
      assert heartRate == IntervalHeartRate(h, idx);
      var next := AddToZone(spent, zoneName, duration);
      StepCounted(spent, t, h, distance, moving, config, idx, zoneName);
      AccumulateNext(spent, next, t, h, distance, moving, config, idx);
      spent := next;
      idx := idx + 1;
    }
    return Ok(spent);
  }

  // ---------------------------------------------------------------------------
  // Properties of the aggregation
  // ---------------------------------------------------------------------------

  /** Seconds the loop attributes from sample `idx` on: each positive duration of
      an interval the moving filter accepts. */
  function CountedTime(time: seq<int>, distance: Option<seq<real>>, moving: Option<seq<bool>>,
                       threshold: real, idx: nat): int
    requires 1 <= idx <= |time|
    decreases |time| - idx
  {
    if idx == |time| then 0
    else
      var d := time[idx] - time[idx - 1];
      (if IsMovingDatapoint(moving, distance, threshold, idx) == Ok(true) && d > 0 then d else 0)
      + CountedTime(time, distance, moving, threshold, idx + 1)
  }

  /** Some interval from `idx` on hits the index error. */
  predicate FailsFrom(time: seq<int>, distance: Option<seq<real>>, moving: Option<seq<bool>>, threshold: real, idx: nat) {
    exists j :: idx <= j < |time| && IsMovingDatapoint(moving, distance, threshold, j).Err?
  }

  /** What one iteration does to the buckets: it fails exactly on the index
      error; otherwise it keeps the key set, adds the interval's counted time
      to the total, keeps every bucket non-negative, and puts the time outside
      when the zones cannot be read. */
  lemma StepLaws(m: map<string, int>, time: seq<int>, hr: seq<int>, distance: Option<seq<real>>,
                 moving: Option<seq<bool>>, config: Option<ZonesConfig>, idx: nat)
    requires OutsideZonesKey in m
    requires 1 <= idx < |time| == |hr|
    requires config.Some? && config.value.zones.Ok? ==> Names(config.value.zones.value) <= m.Keys
    requires !(config.Some? && config.value.zones.Ok?) ==> m.Keys == {OutsideZonesKey}
    requires forall k :: k in m ==> m[k] >= 0
    ensures var r := Step(m, time, hr, distance, moving, config, idx);
      var th := ConfigThreshold(config);
      var d := time[idx] - time[idx - 1];
      var counted := if IsMovingDatapoint(moving, distance, th, idx) == Ok(true) && d > 0 then d else 0;
      (r.Err? <==> IsMovingDatapoint(moving, distance, th, idx).Err?)
      && (r.Ok? ==>
        r.value.Keys == m.Keys
        && SumValues(r.value) == SumValues(m) + counted
        && (forall k :: k in r.value ==> r.value[k] >= 0)
        && (!(config.Some? && config.value.zones.Ok?) ==> r.value[OutsideZonesKey] == m[OutsideZonesKey] + counted))
  {
    var mv := IsMovingDatapoint(moving, distance, ConfigThreshold(config), idx);
    var d := time[idx] - time[idx - 1];
    if mv.Ok? && mv.value && d > 0 {
      var z := ZoneFor(IntervalHeartRate(hr, idx), config);
      var key := if z.Some? && z.value != "" then z.value else OutsideZonesKey;
      assert key in m by {
        if z.Some? {
          ZoneForIsAZoneName(IntervalHeartRate(hr, idx), config);
        }
      }
      StepAdds(m, time, hr, distance, moving, config, idx, key);
      AddToBucket(m, key, d);
    }
  }

  /** Adding a positive duration to an existing bucket keeps the keys, keeps
      every bucket non-negative and grows the total by that duration. */
  lemma AddToBucket(m: map<string, int>, key: string, d: int)
    requires key in m && d > 0
    requires forall k :: k in m ==> m[k] >= 0
    ensures var m' := m[key := m[key] + d];
      m'.Keys == m.Keys && SumValues(m') == SumValues(m) + d
      && (forall k :: k in m' ==> m'[k] >= 0)
  {
    SumValuesUpdate(m, key, m[key] + d);
  }

  /** A counted interval adds its duration to exactly one bucket. */
  lemma StepAdds(m: map<string, int>, time: seq<int>, hr: seq<int>, distance: Option<seq<real>>,
                 moving: Option<seq<bool>>, config: Option<ZonesConfig>, idx: nat, key: string)
    requires OutsideZonesKey in m
    requires 1 <= idx < |time| == |hr|
    requires IsMovingDatapoint(moving, distance, ConfigThreshold(config), idx) == Ok(true)
    requires time[idx] - time[idx - 1] > 0
    requires var z := ZoneFor(IntervalHeartRate(hr, idx), config);
      key == if z.Some? && z.value != "" then z.value else OutsideZonesKey
    requires key in m
    ensures Step(m, time, hr, distance, moving, config, idx) == Ok(m[key := m[key] + time[idx] - time[idx - 1]])
  {
  }

  /** The loop from `idx` on fails exactly when some later interval hits the
      index error. */
  lemma {:induction false} AccumulateFails(m: map<string, int>, time: seq<int>, hr: seq<int>, distance: Option<seq<real>>,
                                           moving: Option<seq<bool>>, config: Option<ZonesConfig>, idx: nat)
    requires OutsideZonesKey in m
    requires 1 <= idx <= |time| == |hr|
    ensures Accumulate(m, time, hr, distance, moving, config, idx).Err? <==> FailsFrom(time, distance, moving, ConfigThreshold(config), idx)
    decreases |time| - idx
  {
    var th := ConfigThreshold(config);
    if idx < |time| {
      var st := Step(m, time, hr, distance, moving, config, idx);
      if st.Err? {
        assert FailsFrom(time, distance, moving, th, idx);
      } else {
        AccumulateFails(st.value, time, hr, distance, moving, config, idx + 1);
        if FailsFrom(time, distance, moving, th, idx + 1) {
          var j :| idx + 1 <= j < |time| && IsMovingDatapoint(moving, distance, th, j).Err?;
          assert FailsFrom(time, distance, moving, th, idx);
        }
        if FailsFrom(time, distance, moving, th, idx) {
          var j :| idx <= j < |time| && IsMovingDatapoint(moving, distance, th, j).Err?;
          assert j != idx;
          assert FailsFrom(time, distance, moving, th, idx + 1);
        }
      }
    }
  }

  /** A successful loop from `idx` on keeps the key set, adds exactly the counted
      time to the total, keeps the buckets non-negative, and with unreadable
      zones adds everything to the outside bucket. */
  lemma {:induction false} AccumulateLaws(m: map<string, int>, time: seq<int>, hr: seq<int>, distance: Option<seq<real>>,
                                          moving: Option<seq<bool>>, config: Option<ZonesConfig>, idx: nat)
    requires OutsideZonesKey in m
    requires 1 <= idx <= |time| == |hr|
    requires config.Some? && config.value.zones.Ok? ==> Names(config.value.zones.value) <= m.Keys
    requires !(config.Some? && config.value.zones.Ok?) ==> m.Keys == {OutsideZonesKey}
    requires forall k :: k in m ==> m[k] >= 0
    ensures var r := Accumulate(m, time, hr, distance, moving, config, idx);
      r.Ok? ==>
        r.value.Keys == m.Keys
        && SumValues(r.value) == SumValues(m) + CountedTime(time, distance, moving, ConfigThreshold(config), idx)
        && (forall k :: k in r.value ==> r.value[k] >= 0)
        && (!(config.Some? && config.value.zones.Ok?) ==> r.value[OutsideZonesKey] == m[OutsideZonesKey] + CountedTime(time, distance, moving, ConfigThreshold(config), idx))
    decreases |time| - idx
  {
    if idx < |time| {
      StepLaws(m, time, hr, distance, moving, config, idx);
      var st := Step(m, time, hr, distance, moving, config, idx);
      if st.Ok? {
        AccumulateLaws(st.value, time, hr, distance, moving, config, idx + 1);
      }
    }
  }

  /** The key set of a successful result: always the outside key; every zone
      name seeded at 0 when the zones can be read; only the outside key when
      there is no config or the fetch fails. */
  lemma TimeInZonesKeys(time: Option<seq<int>>, hr: Option<seq<int>>, distance: Option<seq<real>>,
                        moving: Option<seq<bool>>, config: Option<ZonesConfig>)
    requires TimeInZones(time, hr, distance, moving, config).Ok?
    ensures var r := TimeInZones(time, hr, distance, moving, config).value;
      OutsideZonesKey in r
      && (config.Some? && config.value.zones.Ok? ==> r.Keys == {OutsideZonesKey} + Names(config.value.zones.value))
      && (!(config.Some? && config.value.zones.Ok?) ==> r.Keys == {OutsideZonesKey})
  {
    if !Unusable(time, hr) {
      AccumulateLaws(SeedZones(config), time.value, hr.value, distance, moving, config, 1);
    }
  }

  /** The guard clauses return the seeded map with every value 0. */
  lemma UnusableDataGivesZeros(time: Option<seq<int>>, hr: Option<seq<int>>, distance: Option<seq<real>>,
                               moving: Option<seq<bool>>, config: Option<ZonesConfig>)
    requires Unusable(time, hr)
    ensures TimeInZones(time, hr, distance, moving, config).Ok?
    ensures forall k :: k in TimeInZones(time, hr, distance, moving, config).value ==>
      TimeInZones(time, hr, distance, moving, config).value[k] == 0
  {
  }

  /** Conservation: when the computation succeeds the buckets sum to the total
      positive duration of the intervals the moving filter accepts, every
      bucket is non-negative, and with unreadable zones all of it is outside.
      It fails exactly when the moving filter indexes past a short stream. */
  lemma TimeInZonesConservation(time: Option<seq<int>>, hr: Option<seq<int>>, distance: Option<seq<real>>,
                                moving: Option<seq<bool>>, config: Option<ZonesConfig>)
    ensures var r := TimeInZones(time, hr, distance, moving, config);
      (r.Err? <==> !Unusable(time, hr) && FailsFrom(time.value, distance, moving, ConfigThreshold(config), 1))
      && (r.Ok? ==>
        (forall k :: k in r.value ==> r.value[k] >= 0)
        && SumValues(r.value) == (if Unusable(time, hr) then 0 else CountedTime(time.value, distance, moving, ConfigThreshold(config), 1))
        && (!(config.Some? && config.value.zones.Ok?) ==>
             r.value == map[OutsideZonesKey := SumValues(r.value)]))
  {
    var seed := SeedZones(config);
    SumValuesZero(seed);
    var r := TimeInZones(time, hr, distance, moving, config);
    if !Unusable(time, hr) {
      AccumulateLaws(seed, time.value, hr.value, distance, moving, config, 1);
      AccumulateFails(seed, time.value, hr.value, distance, moving, config, 1);
    }
    if r.Ok? && !(config.Some? && config.value.zones.Ok?) {
      var v := r.value;
      assert v.Keys == {OutsideZonesKey};
      SumValuesRemove(v, OutsideZonesKey);
      assert v - {OutsideZonesKey} == map[];
      assert v == map[OutsideZonesKey := v[OutsideZonesKey]];
    }
  }

  /** The zones of the test suite's worked example (tests.py:814-831). */
  function ExampleZones(): seq<HeartRateZone> {
    [HeartRateZone(1, "Zone 1", Int(0), Int(100), 1),
     HeartRateZone(2, "Zone 2", Int(101), Int(120), 2),
     HeartRateZone(3, "Zone 3", Int(121), Int(140), 3),
     HeartRateZone(4, "Zone 4", Int(141), Int(160), 4),
     HeartRateZone(5, "Zone 5", Int(161), Int(200), 5)]
  }

  /** The example's zones are stored in ascending order already. */
  lemma ExampleSorted()
    ensures SortByMinHr(ExampleZones()) == ExampleZones()
  {
    var zs := ExampleZones();
    assert SortedByMinHr(zs) by {
      assert MinHrLe(zs[0], zs[1]) && MinHrLe(zs[1], zs[2]) && MinHrLe(zs[2], zs[3]) && MinHrLe(zs[3], zs[4]);
    }
    SortByMinHrSorted(zs);
  }

  /** The zones the example's interval heart rates fall in. */
  lemma ExampleZoneFor(c: Option<ZonesConfig>)
    requires c == Some(ZonesConfig("Ride", Ok(ExampleZones())))
    ensures ZoneFor(100, c) == Some("Zone 1") && ZoneFor(92, c) == Some("Zone 1")
    ensures ZoneFor(120, c) == Some("Zone 2") && ZoneFor(110, c) == Some("Zone 2")
    ensures ZoneFor(140, c) == Some("Zone 3") && ZoneFor(160, c) == Some("Zone 4")
    ensures ZoneFor(168, c) == Some("Zone 5")
  {
    var zs := ExampleZones();
    ExampleSorted();
    assert FirstMatchIndex(zs, 100) == 0 && FirstMatchIndex(zs, 92) == 0;
    assert FirstMatchIndex(zs, 120) == 1 && FirstMatchIndex(zs, 110) == 1;
    assert FirstMatchIndex(zs, 140) == 2 && FirstMatchIndex(zs, 160) == 3;
    assert FirstMatchIndex(zs, 168) == 4;
  }

  /** The example's seeded buckets. */
  lemma ExampleSeed(c: Option<ZonesConfig>)
    requires c == Some(ZonesConfig("Ride", Ok(ExampleZones())))
    ensures SeedZones(c) == map["Zone 1" := 0, "Zone 2" := 0, "Zone 3" := 0, "Zone 4" := 0, "Zone 5" := 0, OutsideZonesKey := 0]
  {
    var zs := ExampleZones();
    assert Names(zs) == {"Zone 1", "Zone 2", "Zone 3", "Zone 4", "Zone 5"} by {
      assert zs[0].name == "Zone 1" && zs[1].name == "Zone 2" && zs[2].name == "Zone 3";
      assert zs[3].name == "Zone 4" && zs[4].name == "Zone 5";
    }
  }

  /** The example's interval heart rates, with 92.5 and 167.5 rounded to even. */
  lemma ExampleRates(h: seq<int>)
    requires h == [90, 110, 130, 150, 170, 50, 135, 200]
    ensures IntervalHeartRate(h, 1) == 100 && IntervalHeartRate(h, 2) == 120 && IntervalHeartRate(h, 3) == 140
    ensures IntervalHeartRate(h, 4) == 160 && IntervalHeartRate(h, 5) == 110 && IntervalHeartRate(h, 6) == 92
    ensures IntervalHeartRate(h, 7) == 168
  {
  }

  /** The buckets after adding `d` seconds to `keys[j]`, `keys[j + 1]`, ... in turn. */
  function AddRun(m: map<string, int>, keys: seq<string>, j: nat, d: int): (r: map<string, int>)
    requires OutsideZonesKey in m
    ensures OutsideZonesKey in r
    decreases |keys| - j
  {
    if j >= |keys| then m else AddRun(AddDuration(m, Some(keys[j]), d), keys, j + 1, d)
  }

  /** From sample `idx` on, the intervals last `d` seconds each and fall in the
      zones `keys[j]`, `keys[j + 1]`, ... */
  predicate RunMatches(t: seq<int>, h: seq<int>, c: Option<ZonesConfig>, idx: nat, keys: seq<string>, j: nat, d: int)
    decreases |keys| - j
  {
    j >= |keys|
    || (1 <= idx < |t| == |h| && t[idx] - t[idx - 1] == d && keys[j] != ""
        && ZoneFor(IntervalHeartRate(h, idx), c) == Some(keys[j])
        && RunMatches(t, h, c, idx + 1, keys, j + 1, d))
  }

  /** Without moving or distance data, a run of intervals of positive duration
      adds each duration to the zone the interval falls in. */
  lemma {:induction false} RunCounted(m: map<string, int>, t: seq<int>, h: seq<int>, c: Option<ZonesConfig>,
                                      idx: nat, keys: seq<string>, j: nat, d: int)
    requires OutsideZonesKey in m
    requires j <= |keys| && 1 <= idx && idx + |keys| - j <= |t| == |h| && d > 0
    requires RunMatches(t, h, c, idx, keys, j, d)
    ensures Accumulate(m, t, h, None, None, c, idx) == Accumulate(AddRun(m, keys, j, d), t, h, None, None, c, idx + |keys| - j)
    decreases |keys| - j
  {
    if j < |keys| {
      var m' := AddDuration(m, Some(keys[j]), d);
      StepCounted(m, t, h, None, None, c, idx, Some(keys[j]));
      AccumulateNext(m, m', t, h, None, None, c, idx);
      RunCounted(m', t, h, c, idx + 1, keys, j + 1, d);
    }
  }

  /** The zones of the example's seven intervals. */
  function ExampleKeys(): seq<string> {
    ["Zone 1", "Zone 2", "Zone 3", "Zone 4", "Zone 2", "Zone 1", "Zone 5"]
  }

  /** The example's intervals form one run. */
  lemma ExampleRun(t: seq<int>, h: seq<int>, c: Option<ZonesConfig>)
    requires |t| == |h| == 8
    requires t[1] - t[0] == 10 && t[2] - t[1] == 10 && t[3] - t[2] == 10 && t[4] - t[3] == 10
    requires t[5] - t[4] == 10 && t[6] - t[5] == 10 && t[7] - t[6] == 10
    requires ZoneFor(IntervalHeartRate(h, 1), c) == Some("Zone 1") && ZoneFor(IntervalHeartRate(h, 2), c) == Some("Zone 2")
    requires ZoneFor(IntervalHeartRate(h, 3), c) == Some("Zone 3") && ZoneFor(IntervalHeartRate(h, 4), c) == Some("Zone 4")
    requires ZoneFor(IntervalHeartRate(h, 5), c) == Some("Zone 2") && ZoneFor(IntervalHeartRate(h, 6), c) == Some("Zone 1")
    requires ZoneFor(IntervalHeartRate(h, 7), c) == Some("Zone 5")
    ensures RunMatches(t, h, c, 1, ExampleKeys(), 0, 10)
  {
    var k := ExampleKeys();
    assert RunMatches(t, h, c, 8, k, 7, 10);
    assert RunMatches(t, h, c, 7, k, 6, 10);
    assert RunMatches(t, h, c, 6, k, 5, 10);
    assert RunMatches(t, h, c, 5, k, 4, 10);
    assert RunMatches(t, h, c, 4, k, 3, 10);
    assert RunMatches(t, h, c, 3, k, 2, 10);
    assert RunMatches(t, h, c, 2, k, 1, 10);
  }

  /** The buckets after the example's run. */
  lemma ExampleTotals(m0: map<string, int>)
    requires m0 == map["Zone 1" := 0, "Zone 2" := 0, "Zone 3" := 0, "Zone 4" := 0, "Zone 5" := 0, OutsideZonesKey := 0]
    ensures var m7 := AddRun(m0, ExampleKeys(), 0, 10);
      m7.Keys == {"Zone 1", "Zone 2", "Zone 3", "Zone 4", "Zone 5", OutsideZonesKey}
      && m7["Zone 1"] == 20 && m7["Zone 2"] == 20 && m7["Zone 3"] == 10
      && m7["Zone 4"] == 10 && m7["Zone 5"] == 10 && m7[OutsideZonesKey] == 0
  {
  }

  /** The example's result is its seeded buckets after the run. */
  lemma ExampleOutcome(t: seq<int>, h: seq<int>, c: Option<ZonesConfig>)
    requires |t| == |h| == 8
    requires RunMatches(t, h, c, 1, ExampleKeys(), 0, 10)
    ensures TimeInZones(Some(t), Some(h), None, None, c) == Ok(AddRun(SeedZones(c), ExampleKeys(), 0, 10))
  {
    var m0 := SeedZones(c);
    RunCounted(m0, t, h, c, 1, ExampleKeys(), 0, 10);
    var m7 := AddRun(m0, ExampleKeys(), 0, 10);
    assert Accumulate(m7, t, h, None, None, c, 8) == Ok(m7);
  }

  /** The worked example of the test suite (tests.py:814-831): zones 0-100,
      101-120, 121-140, 141-160 and 161-200 and eight samples ten seconds
      apart. The interval means 92.5 and 167.5 round to 92 and 168. */
  lemma WorkedExample(t: seq<int>, h: seq<int>, c: Option<ZonesConfig>)
    requires t == [0, 10, 20, 30, 40, 50, 60, 70]
    requires h == [90, 110, 130, 150, 170, 50, 135, 200]
    requires c == Some(ZonesConfig("Ride", Ok(ExampleZones())))
    ensures var r := TimeInZones(Some(t), Some(h), None, None, c);
      r.Ok? && r.value.Keys == {"Zone 1", "Zone 2", "Zone 3", "Zone 4", "Zone 5", OutsideZonesKey}
      && r.value["Zone 1"] == 20 && r.value["Zone 2"] == 20 && r.value["Zone 3"] == 10
      && r.value["Zone 4"] == 10 && r.value["Zone 5"] == 10 && r.value[OutsideZonesKey] == 0
  {
    ExampleZoneFor(c);
    ExampleSeed(c);
    ExampleRates(h);
    ExampleRun(t, h, c);
    ExampleOutcome(t, h, c);
    ExampleTotals(SeedZones(c));
  }

  /** The moving flag read is that of the interval's end sample: with
      moving = [False, True] and distance = [0.0, 0.5] the single interval is
      counted, whatever the 0.8 m threshold says. */
  lemma MovingFlagOfEndSample(config: Option<ZonesConfig>)
    ensures TimeInZones(Some([0, 10]), Some([100, 100]), Some([0.0, 0.5]), Some([false, true]), config).Ok?
    ensures SumValues(TimeInZones(Some([0, 10]), Some([100, 100]), Some([0.0, 0.5]), Some([false, true]), config).value) == 10
  {
    TimeInZonesConservation(Some([0, 10]), Some([100, 100]), Some([0.0, 0.5]), Some([false, true]), config);
    assert IsMovingDatapoint(Some([false, true]), Some([0.0, 0.5]), ConfigThreshold(config), 1) == Ok(true);
    assert CountedTime([0, 10], Some([0.0, 0.5]), Some([false, true]), ConfigThreshold(config), 1) == 10;
  }
}
