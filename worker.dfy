/** The bookkeeping of backend/api/worker.py: which zone configuration an
    activity uses, which activities are skipped, what a batch stores and
    returns, and how Strava's heart-rate zones become the DEFAULT zones. The
    Strava client, stream parsing and the time-in-zone calculation are inputs. */
module Worker {
  import opened Wrappers
  import opened Zones
  import HP = HrProcessing

  // ---------------------------------------------------------------------------
  // Strava activity type to configuration type
  // ---------------------------------------------------------------------------

  const RunTypes: set<string> := {"Run", "VirtualRun", "TrailRun"}
  const RideTypes: set<string> := {"Ride", "VirtualRide", "EBikeRide", "Handcycle", "Velomobile"}

  /** `_map_strava_activity_to_config_type` (worker.py:384-403): the
      case-sensitive Strava run and ride types map to RUN and RIDE; a missing or
      empty type and every other string map to DEFAULT. */
  function MapStravaActivityToConfigType(stravaType: Option<string>): (t: ActivityType)
    ensures t == Run <==> stravaType.Some? && stravaType.value in RunTypes
    ensures t == Ride <==> stravaType.Some? && stravaType.value in RideTypes
  {
    if stravaType.None? || stravaType.value == "" then Default
    else if stravaType.value in RunTypes then Run
    else if stravaType.value in RideTypes then Ride
    else Default
  }

  // ---------------------------------------------------------------------------
  // The user's configurations (_get_all_user_zone_configs)
  // ---------------------------------------------------------------------------

  /** The configurations keyed by parsed activity type, in storage order; a row
      whose type string is not a valid ActivityType is skipped, and a later row
      of the same type replaces an earlier one. */
  function ConfigsMap(configs: seq<ZonesConfig>): map<ActivityType, ZonesConfig> {
    if configs == [] then map[]
    else
      var m := ConfigsMap(configs[..|configs| - 1]);
      var c := configs[|configs| - 1];
      match ParseActivityType(c.activityType)
      case None => m
      case Some(t) => m[t := c]
  }

  /** `_get_default_zones_config` (worker.py:314-345) on the same rows: the
      user's DEFAULT configuration (the first one when there are several), or
      none. */
  function DefaultZonesConfig(configs: seq<ZonesConfig>): (r: Option<ZonesConfig>)
    ensures r.Some? ==> r.value in configs && r.value.activityType == Default.Value()
    ensures r.None? ==> forall i :: 0 <= i < |configs| ==> configs[i].activityType != Default.Value()
  {
    if configs == [] then None
    else if configs[0].activityType == Default.Value() then Some(configs[0])
    else
      assert forall i :: 1 <= i < |configs| ==> configs[i] == configs[1..][i - 1];
      DefaultZonesConfig(configs[1..])
  }

  /** `_get_all_user_zone_configs` (worker.py:347-382): the map by type, with
      the fallback lookup for DEFAULT when no row parsed as DEFAULT. */
  function AllUserZoneConfigs(configs: seq<ZonesConfig>): map<ActivityType, ZonesConfig> {
    var m := ConfigsMap(configs);
    if Default in m then m
    else match DefaultZonesConfig(configs)
      case Some(c) => m[Default := c]
      case None => m
  }

  /** A type has a configuration exactly when some row's type string parses
      to it. */
  lemma {:induction false} ConfigsMapHas(configs: seq<ZonesConfig>, t: ActivityType)
    ensures t in ConfigsMap(configs) <==>
      exists i :: 0 <= i < |configs| && ParseActivityType(configs[i].activityType) == Some(t)
  {
    if configs != [] {
      var n := |configs| - 1;
      var init := configs[..n];
      ConfigsMapHas(init, t);
      assert forall i :: 0 <= i < n ==> init[i] == configs[i];
      if exists i :: 0 <= i < |configs| && ParseActivityType(configs[i].activityType) == Some(t) {
        var i :| 0 <= i < |configs| && ParseActivityType(configs[i].activityType) == Some(t);
        if i < n {
          assert ParseActivityType(init[i].activityType) == Some(t);
        }
      }
    }
  }

  /** A type's configuration is the last row whose type string parses to it. */
  lemma {:induction false} ConfigsMapLast(configs: seq<ZonesConfig>, t: ActivityType, i: nat)
    requires i < |configs| && ParseActivityType(configs[i].activityType) == Some(t)
    requires forall j :: i < j < |configs| ==> ParseActivityType(configs[j].activityType) != Some(t)
    ensures t in ConfigsMap(configs) && ConfigsMap(configs)[t] == configs[i]
  {
    var n := |configs| - 1;
    var init := configs[..n];
    if i < n {
      assert init[i] == configs[i];
      assert forall j :: i < j < |init| ==> init[j] == configs[j];
      ConfigsMapLast(init, t, i);
    }
  }

  /** Read from one snapshot of the rows, the fallback never adds anything: a
      DEFAULT row exists exactly when some row parses as DEFAULT, and then the
      map already holds it. */
  lemma FallbackAddsNothing(configs: seq<ZonesConfig>)
    ensures AllUserZoneConfigs(configs) == ConfigsMap(configs)
  {
    ConfigsMapHas(configs, Default);
  }

  /** `_get_all_user_zone_configs` as the loop it is. */
  method GetAllUserZoneConfigs(configs: seq<ZonesConfig>) returns (configsMap: map<ActivityType, ZonesConfig>)
    ensures configsMap == AllUserZoneConfigs(configs)
  {
    configsMap := map[];
    var hasExplicitDefault := false;
    var i := 0;
    while i < |configs|
      invariant 0 <= i <= |configs|
      invariant configsMap == ConfigsMap(configs[..i])
      invariant hasExplicitDefault <==> Default in configsMap
    {
      assert configs[..i + 1][..i] == configs[..i];
      var parsed := ParseActivityType(configs[i].activityType);
      if parsed.Some? {
        configsMap := configsMap[parsed.value := configs[i]];
        if parsed.value == Default {
          hasExplicitDefault := true;
        }
      }
      i := i + 1;
    }
    assert configs[..i] == configs;
    if !hasExplicitDefault {
      var fallback := DefaultZonesConfig(configs);
      if fallback.Some? {
        configsMap := configsMap[Default := fallback.value];
      }
    }
  }

  /** The configuration an activity uses: its mapped type's if the user has
      one, otherwise DEFAULT's (worker.py:126-130). */
  function SelectConfig(configs: map<ActivityType, ZonesConfig>, default: ZonesConfig, stravaType: Option<string>)
    : ZonesConfig
  {
    var t := MapStravaActivityToConfigType(stravaType);
    if t in configs then configs[t] else default
  }

  // ---------------------------------------------------------------------------
  // A batch of activities (process_user_activities)
  // ---------------------------------------------------------------------------

  /** What `parse_activity_streams` yields for the worker: the time and heart
      rate series. */
  datatype ParsedStreams = ParsedStreams(time: Option<seq<int>>, heartrate: Option<seq<int>>)

  /** An activity summary from Strava, with what the worker learns about it:
      its `id` (if present), start timestamp (`None` when the summary has no
      start date the worker can read: `start_date` is missing, so
      `timezone.is_naive(None)` raises, or it is a text `fromisoformat`
      rejects), the calendar year, month and ISO week of its start date,
      `has_heartrate`, its Strava `type`, and the parsed streams (`None` when
      fetching them raised). */
  datatype Activity = Activity(id: Option<int>, startTime: Option<int>, year: int, month: int, isoWeek: int,
                               hasHeartrate: bool, stravaType: Option<string>, streams: Option<ParsedStreams>)

  /** The unique key ("user", "activity_id", "zone_name") of ActivityZoneTimes
      (models.py:306). */
  datatype ZoneTimeKey = ZoneTimeKey(user: int, activityId: int, zoneName: string)

  /** The other columns of an ActivityZoneTimes row. */
  datatype ZoneTimeValue = ZoneTimeValue(duration: nat, startTime: int, year: int, month: int, isoWeek: int)

  /** The time-in-zone calculation, an input: given the time and heart-rate
      series and the selected configuration it returns the seconds per zone
      name, as the dict's items in insertion order. */
  type Calculator = (seq<int>, seq<int>, ZonesConfig) -> seq<(string, int)>

  /** Python truthiness of a parsed series: `None` and `[]` are false. */
  predicate Truthy(s: Option<seq<int>>) {
    s.Some? && s.value != []
  }

  /** A summary the loop raises on (worker.py:110-117): it has an id, so its
      start date is read before any skip, and that read fails. */
  predicate Unreadable(a: Activity) {
    a.id.Some? && a.startTime.None?
  }

  /** An activity reaches storage: it has an id and a readable start date,
      `has_heartrate` is true, its streams were fetched, and both parsed
      series are non-empty (worker.py:107-149). */
  predicate Reaches(a: Activity) {
    a.id.Some? && a.startTime.Some? && a.hasHeartrate && a.streams.Some? && Truthy(a.streams.value.time) && Truthy(a.streams.value.heartrate)
  }

  /** `zone_times_dict.pop(OUTSIDE_ZONES_KEY, 0)`: the items without the
      outside bucket, everything else kept in order. */
  function PopOutside(items: seq<(string, int)>): (r: seq<(string, int)>)
    ensures forall j :: 0 <= j < |r| ==> r[j].0 != HP.OutsideZonesKey && r[j] in items
    ensures forall j :: 0 <= j < |items| && items[j].0 != HP.OutsideZonesKey ==> items[j] in r
  {
    if items == [] then []
    else
      assert forall j :: 1 <= j < |items| ==> items[j] == items[1..][j - 1];
      (if items[0].0 == HP.OutsideZonesKey then [] else [items[0]]) + PopOutside(items[1..])
  }

  /** The upserts of one activity, item by item (worker.py:157-166): a
      positive duration writes, or overwrites, the (user, activity, zone) row;
      any other item writes nothing. */
  function Upsert(rows: map<ZoneTimeKey, ZoneTimeValue>, user: int, id: int, a: Activity, items: seq<(string, int)>)
    : map<ZoneTimeKey, ZoneTimeValue>
    requires a.startTime.Some?
    decreases |items|
  {
    if items == [] then rows
    else
      var rest := Upsert(rows, user, id, a, items[..|items| - 1]);
      var (n, d) := items[|items| - 1];
      if d > 0 then rest[ZoneTimeKey(user, id, n) := ZoneTimeValue(d, a.startTime.value, a.year, a.month, a.isoWeek)]
      else rest
  }

  /** An upsert only writes rows of this user and activity, with a positive
      duration and a zone name taken from the items. */
  lemma {:induction false} UpsertWrites(rows: map<ZoneTimeKey, ZoneTimeValue>, user: int, id: int, a: Activity,
                                        items: seq<(string, int)>, k: ZoneTimeKey)
    requires a.startTime.Some?
    requires forall j :: 0 <= j < |items| ==> items[j].0 != HP.OutsideZonesKey
    ensures var r := Upsert(rows, user, id, a, items);
      k in r ==> (k in rows && r[k] == rows[k])
                 || (k.user == user && k.activityId == id && k.zoneName != HP.OutsideZonesKey && r[k].duration > 0)
    decreases |items|
  {
    if items != [] {
      var init := items[..|items| - 1];
      assert forall j :: 0 <= j < |init| ==> init[j] == items[j];
      UpsertWrites(rows, user, id, a, init, k);
    }
  }

  /** Upserts never remove a row. */
  lemma {:induction false} UpsertKeepsKeys(rows: map<ZoneTimeKey, ZoneTimeValue>, user: int, id: int, a: Activity,
                                           items: seq<(string, int)>)
    requires a.startTime.Some?
    ensures rows.Keys <= Upsert(rows, user, id, a, items).Keys
    decreases |items|
  {
    if items != [] {
      UpsertKeepsKeys(rows, user, id, a, items[..|items| - 1]);
    }
  }

  /** Every item with a positive duration has its row afterwards. */
  lemma {:induction false} UpsertStores(rows: map<ZoneTimeKey, ZoneTimeValue>, user: int, id: int, a: Activity,
                                        items: seq<(string, int)>, j: nat)
    requires a.startTime.Some? && j < |items| && items[j].1 > 0
    ensures ZoneTimeKey(user, id, items[j].0) in Upsert(rows, user, id, a, items)
    decreases |items|
  {
    var init := items[..|items| - 1];
    if j < |init| {
      assert init[j] == items[j];
      UpsertStores(rows, user, id, a, init, j);
      var last := items[|items| - 1];
      assert Upsert(rows, user, id, a, items).Keys >= Upsert(rows, user, id, a, init).Keys;
    }
  }

  /** The state a batch carries: the ActivityZoneTimes rows, the start of the
      last stored activity and the number stored. */
  datatype Progress = Progress(rows: map<ZoneTimeKey, ZoneTimeValue>, last: Option<int>, count: nat)

  /** One iteration of the batch loop. */
  function Step(st: Progress, user: int, configs: map<ActivityType, ZonesConfig>, default: ZonesConfig,
                calculate: Calculator, a: Activity): Progress
  {
    if !Reaches(a) then st
    else
      var config := SelectConfig(configs, default, a.stravaType);
      var zoneTimes := calculate(a.streams.value.time.value, a.streams.value.heartrate.value, config);
      Progress(Upsert(st.rows, user, a.id.value, a, PopOutside(zoneTimes)), a.startTime, st.count + 1)
  }

  /** The batch loop over `acts`. */
  function Walk(st: Progress, user: int, configs: map<ActivityType, ZonesConfig>, default: ZonesConfig,
                calculate: Calculator, acts: seq<Activity>): Progress
    decreases |acts|
  {
    if acts == [] then st
    else Walk(Step(st, user, configs, default, calculate, acts[0]), user, configs, default, calculate, acts[1..])
  }

  /** Why a batch raises: the ValueError of a missing DEFAULT configuration
      or of a failed fetch, or the error of an unreadable summary. */
  datatype WorkerError = DefaultConfigMissing | ActivitiesFetchFailed | SummaryUnreadable

  /** The index of the first unreadable summary, if any. */
  function FirstUnreadable(acts: seq<Activity>): (r: Option<nat>)
    ensures r.Some? ==> r.value < |acts| && Unreadable(acts[r.value])
                        && forall j :: 0 <= j < r.value ==> !Unreadable(acts[j])
    ensures r.None? <==> forall j :: 0 <= j < |acts| ==> !Unreadable(acts[j])
  {
    if acts == [] then None
    else if Unreadable(acts[0]) then Some(0)
    else
      assert forall j :: 1 <= j < |acts| ==> acts[1..][j - 1] == acts[j];
      match FirstUnreadable(acts[1..])
      case None => None
      case Some(k) => Some(k + 1)
  }

  /** `process_user_activities` (worker.py:65-175): the returned triple (or the
      error) and the ActivityZoneTimes rows afterwards. An unreadable summary
      aborts the batch; the rows stored before it stay, as no transaction
      wraps the loop. */
  function ProcessOutcome(rows: map<ZoneTimeKey, ZoneTimeValue>, user: int, configs: map<ActivityType, ZonesConfig>,
                          fetched: Result<seq<Activity>, ()>, limit: int, calculate: Calculator)
    : (Result<(Option<int>, bool, nat), WorkerError>, map<ZoneTimeKey, ZoneTimeValue>)
  {
    if Default !in configs then (Err(DefaultConfigMissing), rows)
    else if fetched.Err? then (Err(ActivitiesFetchFailed), rows)
    else if fetched.value == [] then (Ok((None, false, 0)), rows)
    else
      var acts := fetched.value;
      match FirstUnreadable(acts)
      case Some(i) => (Err(SummaryUnreadable), Walk(Progress(rows, None, 0), user, configs, configs[Default], calculate, acts[..i]).rows)
      case None =>
        var st := Walk(Progress(rows, None, 0), user, configs, configs[Default], calculate, acts);
        (Ok((st.last, |acts| == limit, st.count)), st.rows)
  }

  /** The number of activities that reach storage. */
  function CountReaching(acts: seq<Activity>): nat {
    if acts == [] then 0 else (if Reaches(acts[0]) then 1 else 0) + CountReaching(acts[1..])
  }

  /** The start time of the last activity that reaches storage. */
  function LastReaching(acts: seq<Activity>): Option<int> {
    if acts == [] then None
    else if Reaches(acts[|acts| - 1]) then acts[|acts| - 1].startTime
    else LastReaching(acts[..|acts| - 1])
  }

  lemma {:induction false} LastReachingCons(a: Activity, acts: seq<Activity>)
    ensures LastReaching([a] + acts) == if LastReaching(acts).Some? then LastReaching(acts)
                                        else if Reaches(a) then a.startTime else None
    decreases |acts|
  {
    if acts != [] {
      var n := |acts| - 1;
      assert ([a] + acts)[..|acts|] == [a] + acts[..n];
      LastReachingCons(a, acts[..n]);
    }
  }

  /** The batch counts the activities that reach storage and remembers the
      start of the last of them; skipped activities change nothing. */
  lemma {:induction false} WalkCounts(st: Progress, user: int, configs: map<ActivityType, ZonesConfig>, default: ZonesConfig,
                                      calculate: Calculator, acts: seq<Activity>)
    ensures var r := Walk(st, user, configs, default, calculate, acts);
      r.count == st.count + CountReaching(acts)
      && r.last == (if LastReaching(acts).Some? then LastReaching(acts) else st.last)
    decreases |acts|
  {
    if acts != [] {
      WalkCounts(Step(st, user, configs, default, calculate, acts[0]), user, configs, default, calculate, acts[1..]);
      assert acts == [acts[0]] + acts[1..];
      LastReachingCons(acts[0], acts[1..]);
    }
  }

  /** Every row after the batch is either an untouched earlier row or a row of
      this user with a positive duration and a zone other than the outside
      bucket: no zero-duration or outside row is ever written. */
  lemma {:induction false} WalkWritesOnlyPositive(st: Progress, user: int, configs: map<ActivityType, ZonesConfig>,
                                                  default: ZonesConfig, calculate: Calculator, acts: seq<Activity>,
                                                  k: ZoneTimeKey)
    ensures var r := Walk(st, user, configs, default, calculate, acts).rows;
      k in r ==> (k in st.rows && r[k] == st.rows[k])
                 || (k.user == user && k.zoneName != HP.OutsideZonesKey && r[k].duration > 0)
    decreases |acts|
  {
    if acts != [] {
      var a := acts[0];
      if Reaches(a) {
        var zt := calculate(a.streams.value.time.value, a.streams.value.heartrate.value, SelectConfig(configs, default, a.stravaType));
        UpsertWrites(st.rows, user, a.id.value, a, PopOutside(zt), k);
      }
      WalkWritesOnlyPositive(Step(st, user, configs, default, calculate, a), user, configs, default, calculate, acts[1..], k);
    }
  }

  /** Rows are only added or overwritten, never removed. */
  lemma {:induction false} WalkKeepsKeys(st: Progress, user: int, configs: map<ActivityType, ZonesConfig>,
                                         default: ZonesConfig, calculate: Calculator, acts: seq<Activity>)
    ensures st.rows.Keys <= Walk(st, user, configs, default, calculate, acts).rows.Keys
    decreases |acts|
  {
    if acts != [] {
      var a := acts[0];
      if Reaches(a) {
        var zt := calculate(a.streams.value.time.value, a.streams.value.heartrate.value, SelectConfig(configs, default, a.stravaType));
        UpsertKeepsKeys(st.rows, user, a.id.value, a, PopOutside(zt));
      }
      WalkKeepsKeys(Step(st, user, configs, default, calculate, a), user, configs, default, calculate, acts[1..]);
    }
  }

  /** Every activity that reaches storage leaves a row for each zone it spent
      positive time in, the outside bucket apart. */
  lemma {:induction false} WalkStoresReaching(st: Progress, user: int, configs: map<ActivityType, ZonesConfig>,
                                              default: ZonesConfig, calculate: Calculator, acts: seq<Activity>,
                                              i: nat, j: nat)
    requires i < |acts| && Reaches(acts[i])
    requires var a := acts[i];
      var zt := calculate(a.streams.value.time.value, a.streams.value.heartrate.value, SelectConfig(configs, default, a.stravaType));
      j < |zt| && zt[j].1 > 0 && zt[j].0 != HP.OutsideZonesKey
    ensures var a := acts[i];
      var zt := calculate(a.streams.value.time.value, a.streams.value.heartrate.value, SelectConfig(configs, default, a.stravaType));
      ZoneTimeKey(user, a.id.value, zt[j].0) in Walk(st, user, configs, default, calculate, acts).rows
    decreases |acts|
  {
    var next := Step(st, user, configs, default, calculate, acts[0]);
    if i == 0 {
      var a := acts[0];
      var zt := calculate(a.streams.value.time.value, a.streams.value.heartrate.value, SelectConfig(configs, default, a.stravaType));
      var kept := PopOutside(zt);
      assert zt[j] in kept;
      var m :| 0 <= m < |kept| && kept[m] == zt[j];
      UpsertStores(st.rows, user, a.id.value, a, kept, m);
      WalkKeepsKeys(next, user, configs, default, calculate, acts[1..]);
    } else {
      assert acts[1..][i - 1] == acts[i];
      WalkStoresReaching(next, user, configs, default, calculate, acts[1..], i - 1, j);
    }
  }

  /** The batch's return: ValueError without a DEFAULT configuration or when
      the activity fetch fails; `(None, False, 0)` for no activities; an error
      at the first unreadable summary, with only the activities before it
      stored; otherwise the start of the last stored activity, whether the
      batch was full, and the number of activities stored. */
  lemma ProcessOutcomeSpec(rows: map<ZoneTimeKey, ZoneTimeValue>, user: int, configs: map<ActivityType, ZonesConfig>,
                           fetched: Result<seq<Activity>, ()>, limit: int, calculate: Calculator)
    ensures var (r, rows') := ProcessOutcome(rows, user, configs, fetched, limit, calculate);
      (Default !in configs ==> r == Err(DefaultConfigMissing) && rows' == rows)
      && (Default in configs && fetched.Err? ==> r == Err(ActivitiesFetchFailed) && rows' == rows)
      && (Default in configs && fetched == Ok([]) ==> r == Ok((None, false, 0)) && rows' == rows)
      && (Default in configs && fetched.Ok? && fetched.value != [] ==>
            forall i :: 0 <= i < |fetched.value| && Unreadable(fetched.value[i])
                        && (forall j :: 0 <= j < i ==> !Unreadable(fetched.value[j])) ==>
              r == Err(SummaryUnreadable)
              && rows' == Walk(Progress(rows, None, 0), user, configs, configs[Default], calculate, fetched.value[..i]).rows)
      && (Default in configs && fetched.Ok? && fetched.value != []
          && (forall i :: 0 <= i < |fetched.value| ==> !Unreadable(fetched.value[i])) ==>
            r == Ok((LastReaching(fetched.value), |fetched.value| == limit, CountReaching(fetched.value))))
  {
    if Default in configs && fetched.Ok? && fetched.value != [] {
      var acts := fetched.value;
      var f := FirstUnreadable(acts);
      if f.Some? {
        forall i | 0 <= i < |acts| && Unreadable(acts[i]) && (forall j :: 0 <= j < i ==> !Unreadable(acts[j]))
          ensures i == f.value
        {
          UnreadableAt(acts, i);
        }
      } else {
        WalkCounts(Progress(rows, None, 0), user, configs, configs[Default], calculate, acts);
      }
    }
  }

  /** A batch in which no activity reaches storage and no summary is
      unreadable writes nothing and returns no timestamp and a count of 0, yet
      still reports more activities when it was full. */
  lemma {:induction false} AllSkippedBatch(rows: map<ZoneTimeKey, ZoneTimeValue>, user: int,
                                           configs: map<ActivityType, ZonesConfig>, acts: seq<Activity>, limit: int,
                                           calculate: Calculator)
    requires Default in configs && acts != []
    requires forall i :: 0 <= i < |acts| ==> !Reaches(acts[i]) && !Unreadable(acts[i])
    ensures ProcessOutcome(rows, user, configs, Ok(acts), limit, calculate) == (Ok((None, |acts| == limit, 0)), rows)
  {
    assert FirstUnreadable(acts).None?;
    SkippedWalk(Progress(rows, None, 0), user, configs, configs[Default], calculate, acts);
  }

  /** A summary with an id but no `start_date` aborts the batch even when it
      would be skipped for lacking heart-rate data: the date is read before
      the `has_heartrate` test. */
  lemma SkippedSummaryWithoutDateRaises(rows: map<ZoneTimeKey, ZoneTimeValue>, user: int,
                                        configs: map<ActivityType, ZonesConfig>, a: Activity, limit: int,
                                        calculate: Calculator)
    requires Default in configs
    requires a.id == Some(1) && a.startTime.None? && !a.hasHeartrate
    ensures ProcessOutcome(rows, user, configs, Ok([a]), limit, calculate) == (Err(SummaryUnreadable), rows)
  {
    assert FirstUnreadable([a]) == Some(0);
    assert [a][..0] == [];
  }

  /** The first unreadable summary is the one after a readable prefix. */
  lemma UnreadableAt(acts: seq<Activity>, i: nat)
    requires i < |acts| && Unreadable(acts[i])
    requires forall j :: 0 <= j < i ==> !Unreadable(acts[j])
    ensures FirstUnreadable(acts) == Some(i)
  {
    var f := FirstUnreadable(acts);
    assert f.Some?;
    assert !(i < f.value) && !(f.value < i);
  }

  /** Walking one more activity is one more step. */
  lemma {:induction false} WalkSnoc(st: Progress, user: int, configs: map<ActivityType, ZonesConfig>, default: ZonesConfig,
                                    calculate: Calculator, acts: seq<Activity>, a: Activity)
    ensures Walk(st, user, configs, default, calculate, acts + [a])
         == Step(Walk(st, user, configs, default, calculate, acts), user, configs, default, calculate, a)
    decreases |acts|
  {
    if acts == [] {
      assert [a][1..] == [];
    } else {
      assert (acts + [a])[0] == acts[0];
      assert (acts + [a])[1..] == acts[1..] + [a];
      WalkSnoc(Step(st, user, configs, default, calculate, acts[0]), user, configs, default, calculate, acts[1..], a);
    }
  }

  lemma {:induction false} SkippedWalk(st: Progress, user: int, configs: map<ActivityType, ZonesConfig>,
                                       default: ZonesConfig, calculate: Calculator, acts: seq<Activity>)
    requires forall i :: 0 <= i < |acts| ==> !Reaches(acts[i])
    ensures Walk(st, user, configs, default, calculate, acts) == st
    decreases |acts|
  {
    if acts != [] {
      assert !Reaches(acts[0]);
      assert forall i :: 0 <= i < |acts| - 1 ==> acts[1..][i] == acts[i + 1];
      SkippedWalk(st, user, configs, default, calculate, acts[1..]);
    }
  }

  // ---------------------------------------------------------------------------
  // Strava's heart-rate zones (fetch_and_store_strava_hr_zones)
  // ---------------------------------------------------------------------------

  /** DEFAULT_ZONES_NAMES_MAPPING (worker.py:44-50). */
  const DefaultZonesNamesMapping: map<int, string> :=
    map[1 := "Recovery (Easy)", 2 := "Endurance (Easy)", 3 := "Tempo", 4 := "Threshold", 5 := "Anaerobic"]

  /** The maximum stored for Strava's open-ended last zone. */
  const OpenMaxHr := 220

  /** One Strava zone: its `min` and `max` (absent as `None`). */
  datatype StravaZone = StravaZone(min: Option<int>, max: Option<int>)

  /** What `fetch_athlete_zones` gives: it raises, it returns nothing, or it
      returns a payload whose `["heart_rate"]["zones"]` is present (`Some`) or
      missing (`None`, a KeyError). */
  datatype AthleteZones = FetchRaised | NoZoneData | ZoneData(heartRateZones: Option<seq<StravaZone>>)

  /** Strava zone `k` (from 1) as a DEFAULT zone: order `k`, the mapped name,
      Strava's `min` (a missing one stays missing), and Strava's `max` except
      that -1 or a missing one becomes 220. The zone's UUID is modelled by
      `k`. */
  function ConvertStravaZone(k: int, name: string, z: StravaZone): HeartRateZone {
    var minHr := if z.min.Some? then Int(z.min.value) else NotInt;
    var maxHr := if z.max == Some(-1) || z.max.None? then OpenMaxHr else z.max.value;
    HeartRateZone(k, name, minHr, Int(maxHr), k)
  }

  /** The list the conversion loop builds, or `None` when a zone number has no
      name in the mapping (the KeyError for a sixth zone). */
  function ConvertStravaZones(zs: seq<StravaZone>): Option<seq<HeartRateZone>>
    decreases |zs|
  {
    if zs == [] then Some([])
    else
      var k := |zs|;
      match ConvertStravaZones(zs[..k - 1])
      case None => None
      case Some(init) =>
        if k in DefaultZonesNamesMapping then Some(init + [ConvertStravaZone(k, DefaultZonesNamesMapping[k], zs[k - 1])])
        else None
  }

  /** `bulk_create` succeeds: both bounds are present and non-negative, as
      the PositiveIntegerField columns demand (models.py:125-126). */
  predicate Insertable(zs: seq<HeartRateZone>) {
    forall i :: 0 <= i < |zs| ==>
      zs[i].minHr.Int? && zs[i].minHr.value >= 0 && zs[i].maxHr.Int? && zs[i].maxHr.value >= 0
  }

  /** `fetch_and_store_strava_hr_zones` (worker.py:243-312): the returned
      flag and the DEFAULT configuration's zones afterwards. Once the zone
      list is read the DEFAULT configuration exists and its old zones are
      gone, whatever happens next. */
  function StoreStravaZonesOutcome(current: Option<seq<HeartRateZone>>, fetched: AthleteZones)
    : (bool, Option<seq<HeartRateZone>>)
  {
    match fetched
    case FetchRaised => (false, current)
    case NoZoneData => (false, current)
    case ZoneData(None) => (false, current)
    case ZoneData(Some(zs)) =>
      if zs == [] then (true, Some([]))
      else match ConvertStravaZones(zs)
        case None => (false, Some([]))
        case Some(hz) => if Insertable(hz) then (true, Some(hz)) else (false, Some([]))
  }

  /** The conversion succeeds for at most five zones, and then Strava zone
      `i + 1` becomes the zone of order `i + 1` with the mapped name, the same
      minimum and the maximum with -1 and a missing value read as 220. */
  lemma {:induction false} ConvertStravaZonesSpec(zs: seq<StravaZone>)
    ensures ConvertStravaZones(zs).Some? <==> |zs| <= 5
    ensures ConvertStravaZones(zs).Some? ==>
      var hz := ConvertStravaZones(zs).value;
      |hz| == |zs|
      && forall i :: 0 <= i < |zs| ==>
           hz[i].order == i + 1 && hz[i].name == DefaultZonesNamesMapping[i + 1]
           && hz[i].minHr == (if zs[i].min.Some? then Int(zs[i].min.value) else NotInt)
           && hz[i].maxHr == Int(if zs[i].max == Some(-1) || zs[i].max.None? then OpenMaxHr else zs[i].max.value)
    decreases |zs|
  {
    if zs != [] {
      var k := |zs|;
      var init := zs[..k - 1];
      ConvertStravaZonesSpec(init);
      assert forall i :: 0 <= i < k - 1 ==> init[i] == zs[i];
    }
  }

  /** The converted zones have distinct names, so the (config, name)
      uniqueness of HeartRateZone is never violated. */
  lemma ConvertedNamesDistinct(zs: seq<StravaZone>)
    requires ConvertStravaZones(zs).Some?
    ensures var hz := ConvertStravaZones(zs).value;
      forall i, j :: 0 <= i < j < |hz| ==> hz[i].name != hz[j].name
  {
    ConvertStravaZonesSpec(zs);
  }

  /** The flag is true exactly when the zone list was read and every zone
      converts and inserts; a failure before the list is read leaves the
      zones alone, and a failure after it leaves the DEFAULT configuration
      without zones. */
  lemma StoreStravaZonesSpec(current: Option<seq<HeartRateZone>>, fetched: AthleteZones)
    ensures var (ok, zones) := StoreStravaZonesOutcome(current, fetched);
      (ok <==> fetched.ZoneData? && fetched.heartRateZones.Some?
               && |fetched.heartRateZones.value| <= 5
               && forall i :: 0 <= i < |fetched.heartRateZones.value| ==>
                    var z := fetched.heartRateZones.value[i];
                    z.min.Some? && z.min.value >= 0 && (z.max.None? || z.max.value >= -1))
      && (!(fetched.ZoneData? && fetched.heartRateZones.Some?) ==> zones == current)
      && (fetched.ZoneData? && fetched.heartRateZones.Some? && !ok ==> zones == Some([]))
      && (ok ==> zones == ConvertStravaZones(fetched.heartRateZones.value))
  {
    if fetched.ZoneData? && fetched.heartRateZones.Some? {
      var zs := fetched.heartRateZones.value;
      ConvertStravaZonesSpec(zs);
    }
  }

  /** Once a prefix fails to convert, the whole list does. */
  lemma {:induction false} NoNameStopsConversion(zs: seq<StravaZone>, k: nat)
    requires 1 <= k <= |zs| && ConvertStravaZones(zs[..k]).None?
    ensures ConvertStravaZones(zs).None?
    decreases |zs|
  {
    if k < |zs| {
      var init := zs[..|zs| - 1];
      assert init[..k] == zs[..k];
      NoNameStopsConversion(init, k);
    } else {
      assert zs[..k] == zs;
    }
  }

  // ---------------------------------------------------------------------------
  // The worker object
  // ---------------------------------------------------------------------------

  /** A Worker for one user, over the ActivityZoneTimes rows and the zones of
      the user's DEFAULT configuration (`None` while no such configuration
      exists). */
  class Worker {
    const user: int
    var zoneTimes: map<ZoneTimeKey, ZoneTimeValue>
    var defaultZones: Option<seq<HeartRateZone>>

    constructor(user: int, zoneTimes: map<ZoneTimeKey, ZoneTimeValue>, defaultZones: Option<seq<HeartRateZone>>)
      ensures this.user == user && this.zoneTimes == zoneTimes && this.defaultZones == defaultZones
    {
      this.user := user;
      this.zoneTimes := zoneTimes;
      this.defaultZones := defaultZones;
    }

    /** The upsert loop of one activity (worker.py:157-166), over the items
        left after popping the outside bucket. */
    method StoreZoneTimes(id: int, a: Activity, items: seq<(string, int)>)
      requires a.startTime.Some?
      modifies this
      ensures zoneTimes == Upsert(old(zoneTimes), user, id, a, items)
      ensures defaultZones == old(defaultZones)
    {
      for j := 0 to |items|
        invariant zoneTimes == Upsert(old(zoneTimes), user, id, a, items[..j])
        invariant defaultZones == old(defaultZones)
      {
        assert items[..j + 1][..j] == items[..j];
        var (zoneName, durationSeconds) := items[j];
        if durationSeconds > 0 {
          zoneTimes := zoneTimes[ZoneTimeKey(user, id, zoneName) := ZoneTimeValue(durationSeconds, a.startTime.value, a.year, a.month, a.isoWeek)];
        }
      }
      assert items[..|items|] == items;
    }

    /** `fetch_and_store_strava_hr_zones` (worker.py:243-312). */
    method FetchAndStoreStravaHrZones(fetched: AthleteZones) returns (ok: bool)
      modifies this
      ensures (ok, defaultZones) == StoreStravaZonesOutcome(old(defaultZones), fetched)
      ensures zoneTimes == old(zoneTimes)
    {
      if fetched.FetchRaised? || fetched.NoZoneData? || fetched.heartRateZones.None? {
        return false;
      }
      var heartRateZonesData := fetched.heartRateZones.value;
      defaultZones := Some([]);
      if heartRateZonesData == [] {
        return true;
      }
      var newZonesToCreate: seq<HeartRateZone> := [];
      for idx := 1 to |heartRateZonesData| + 1
        invariant ConvertStravaZones(heartRateZonesData[..idx - 1]) == Some(newZonesToCreate)
      {
        assert heartRateZonesData[..idx][..idx - 1] == heartRateZonesData[..idx - 1];
        if idx !in DefaultZonesNamesMapping {
          NoNameStopsConversion(heartRateZonesData, idx);
          return false;
        }
        var zone := ConvertStravaZone(idx, DefaultZonesNamesMapping[idx], heartRateZonesData[idx - 1]);
        newZonesToCreate := newZonesToCreate + [zone];
      }
      assert heartRateZonesData[..|heartRateZonesData|] == heartRateZonesData;
      if !Insertable(newZonesToCreate) {
        return false;
      }
      defaultZones := Some(newZonesToCreate);
      return true;
    }

    /** `process_user_activities` (worker.py:65-175) over the user's
        configuration rows, the fetched batch (or the failed fetch), the
        requested `limit` and the time-in-zone calculation. */
    method ProcessUserActivities(configs: seq<ZonesConfig>, fetched: Result<seq<Activity>, ()>, limit: int,
                                 calculate: Calculator)
      returns (r: Result<(Option<int>, bool, nat), WorkerError>)
      modifies this
      ensures (r, zoneTimes) == ProcessOutcome(old(zoneTimes), user, AllUserZoneConfigs(configs), fetched, limit, calculate)
      ensures defaultZones == old(defaultZones)
    {
      var allZoneConfigs := GetAllUserZoneConfigs(configs);
      if Default !in allZoneConfigs {
        return Err(DefaultConfigMissing);
      }
      var defaultZonesConfig := allZoneConfigs[Default];
      if fetched.Err? {
        return Err(ActivitiesFetchFailed);
      }
      var activities := fetched.value;
      if activities == [] {
        return Ok((None, false, 0));
      }
      ghost var start := Progress(zoneTimes, None, 0);
      var processedCount := 0;
      var lastActivityStartTime: Option<int> := None;
      var i := 0;
      while i < |activities|
        invariant 0 <= i <= |activities|
        invariant defaultZones == old(defaultZones)
        invariant forall j :: 0 <= j < i ==> !Unreadable(activities[j])
        invariant Progress(zoneTimes, lastActivityStartTime, processedCount)
               == Walk(start, user, allZoneConfigs, defaultZonesConfig, calculate, activities[..i])
      {
        var a := activities[i];
        if a.id.Some? && a.startTime.None? {
          UnreadableAt(activities, i);
          return Err(SummaryUnreadable);
        }
        ghost var before := Progress(zoneTimes, lastActivityStartTime, processedCount);
        if a.id.Some? && a.hasHeartrate && a.streams.Some? {
          var selected := SelectConfig(allZoneConfigs, defaultZonesConfig, a.stravaType);
          var timeData := a.streams.value.time;
          var hrData := a.streams.value.heartrate;
          if Truthy(timeData) && Truthy(hrData) {
            var zoneTimesDict := calculate(timeData.value, hrData.value, selected);
            var kept := PopOutside(zoneTimesDict);
            StoreZoneTimes(a.id.value, a, kept);
            processedCount := processedCount + 1;
            lastActivityStartTime := a.startTime;
          }
        }
        assert Progress(zoneTimes, lastActivityStartTime, processedCount)
            == Step(before, user, allZoneConfigs, defaultZonesConfig, calculate, a);
        WalkSnoc(start, user, allZoneConfigs, defaultZonesConfig, calculate, activities[..i], a);
        assert activities[..i + 1] == activities[..i] + [a];
        i := i + 1;
      }
      assert activities[..|activities|] == activities;
      return Ok((lastActivityStartTime, |activities| == limit, processedCount));
    }
  }
}
