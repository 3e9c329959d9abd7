/** The zone-settings handlers of UserHRZonesDisplayView (backend/api/views.py)
    as methods of a store holding the configuration and zone tables: saving
    the whole form, adding an activity configuration and deleting one. Each
    is proved against the value-level definitions of the ZoneSettings
    module. */
module SettingsStore {
  import opened Wrappers
  import opened PySorted
  import opened ZoneForm
  import opened ZoneSettings
  import Zones

  // ---------------------------------------------------------------------
  // A failure stops a fold for good

  lemma {:induction false} ValidateErrSticks(configs: map<int, ConfigRow>, user: int, uuidOf: UuidParser, p: ParsedForm, idxs: seq<int>, n: nat)
    requires n <= |idxs| && Validate(configs, user, uuidOf, p, idxs[..n]).Err?
    ensures Validate(configs, user, uuidOf, p, idxs) == Validate(configs, user, uuidOf, p, idxs[..n])
    decreases |idxs| - n
  {
    if n == |idxs| {
      assert idxs[..n] == idxs;
    } else {
      var init := idxs[..|idxs| - 1];
      assert init[..n] == idxs[..n];
      ValidateErrSticks(configs, user, uuidOf, p, init, n);
    }
  }

  lemma {:induction false} CollectNamesErrSticks(names: map<int, string>, ci: int, c: FormConfig, zs: seq<int>, n: nat)
    requires n <= |zs| && CollectNames(names, ci, c, zs[..n]).Err?
    ensures CollectNames(names, ci, c, zs) == CollectNames(names, ci, c, zs[..n])
    decreases |zs| - n
  {
    if n == |zs| {
      assert zs[..n] == zs;
    } else {
      var init := zs[..|zs| - 1];
      assert init[..n] == zs[..n];
      CollectNamesErrSticks(names, ci, c, init, n);
    }
  }

  lemma {:induction false} ApplyZonesErrSticks(t: Tables, cid: int, isDefault: bool, names: map<int, string>, c: FormConfig, zs: seq<int>, n: nat)
    requires n <= |zs| && ApplyZones(t, cid, isDefault, names, c, zs[..n]).Err?
    ensures ApplyZones(t, cid, isDefault, names, c, zs) == ApplyZones(t, cid, isDefault, names, c, zs[..n])
    decreases |zs| - n
  {
    if n == |zs| {
      assert zs[..n] == zs;
    } else {
      var init := zs[..|zs| - 1];
      assert init[..n] == zs[..n];
      ApplyZonesErrSticks(t, cid, isDefault, names, c, init, n);
    }
  }

  lemma {:induction false} SaveConfigsErrSticks(configs: map<int, ConfigRow>, p: ParsedForm, v: Checked, t: Tables, idxs: seq<int>, n: nat)
    requires Resolves(configs, v, idxs)
    requires n <= |idxs| && Resolves(configs, v, idxs[..n]) && SaveConfigs(configs, p, v, t, idxs[..n]).Err?
    ensures SaveConfigs(configs, p, v, t, idxs) == SaveConfigs(configs, p, v, t, idxs[..n])
    decreases |idxs| - n
  {
    if n == |idxs| {
      assert idxs[..n] == idxs;
    } else {
      var init := idxs[..|idxs| - 1];
      assert init[..n] == idxs[..n];
      assert Resolves(configs, v, init);
      SaveConfigsErrSticks(configs, p, v, t, init, n);
    }
  }

  // ---------------------------------------------------------------------
  // The first pass as loops (views.py:649-691)

  lemma CollectNamesStep(names: map<int, string>, ci: int, c: FormConfig, zs: seq<int>, j: int, m: map<int, string>)
    requires 0 <= j < |zs| && CollectNames(names, ci, c, zs[..j]) == Ok(m)
    ensures var a := ZoneAttrs(c, zs[j]);
      CollectNames(names, ci, c, zs[..j + 1]) ==
        if OrderOf(a).None? then Err(BadDefaultZone(ci, zs[j])) else Ok(m[OrderOf(a).value := ZoneName(a, OrderOf(a).value)])
  {
    assert zs[..j + 1][..j] == zs[..j];
  }

  /** The DEFAULT names loop (views.py:677-691). */
  method CollectDefaultNames(names: map<int, string>, ci: int, c: FormConfig, zs: seq<int>) returns (r: Result<map<int, string>, SaveError>)
    ensures r == CollectNames(names, ci, c, zs)
  {
    var m := names;
    for j := 0 to |zs|
      invariant CollectNames(names, ci, c, zs[..j]) == Ok(m)
    {
      var z := zs[j];
      var a := ZoneAttrs(c, z);
      var order := OrderOf(a);
      CollectNamesStep(names, ci, c, zs, j, m);
      if order.None? {
        CollectNamesErrSticks(names, ci, c, zs, j + 1);
        return Err(BadDefaultZone(ci, z));
      }
      m := m[order.value := ZoneName(a, order.value)];
    }
    assert zs[..|zs|] == zs;
    return Ok(m);
  }

  lemma ValidateStep(configs: map<int, ConfigRow>, user: int, uuidOf: UuidParser, p: ParsedForm, idxs: seq<int>, i: int, v: Checked)
    requires 0 <= i < |idxs| && Validate(configs, user, uuidOf, p, idxs[..i]) == Ok(v)
    ensures var ci := idxs[i];
      var c := ConfigOf(p, ci);
      var chk := CheckConfig(configs, user, uuidOf, ci, c);
      Validate(configs, user, uuidOf, p, idxs[..i + 1]) ==
        if chk.Err? then Err(chk.error)
        else if !IsDefaultRecord(c) then Ok(Checked(v.names, v.resolved[ci := chk.value]))
        else
          var names := CollectNames(v.names, ci, c, Sorted(c.zoneOrder));
          if names.Err? then Err(names.error) else Ok(Checked(names.value, v.resolved[ci := chk.value]))
  {
    assert idxs[..i + 1][..i] == idxs[..i];
  }

  lemma ApplyZonesStep(t: Tables, cid: int, isDefault: bool, names: map<int, string>, c: FormConfig, zs: seq<int>, j: int, t1: Tables)
    requires 0 <= j < |zs| && ApplyZones(t, cid, isDefault, names, c, zs[..j]) == Ok(t1)
    ensures ApplyZones(t, cid, isDefault, names, c, zs[..j + 1]) == ApplyWrite(t1, PlanZone(cid, isDefault, names, ZoneAttrs(c, zs[j])))
  {
    assert zs[..j + 1][..j] == zs[..j];
  }

  lemma SaveConfigsStep(configs: map<int, ConfigRow>, p: ParsedForm, v: Checked, t: Tables, idxs: seq<int>, i: int, t1: Tables)
    requires 0 <= i < |idxs| && Resolves(configs, v, idxs[..i + 1])
    requires SaveConfigs(configs, p, v, t, idxs[..i]) == Ok(t1)
    ensures var ci := idxs[i];
      var cid := v.resolved[ci];
      SaveConfigs(configs, p, v, t, idxs[..i + 1]) ==
        SaveConfig(t1, cid, configs[cid].activityType == DefaultType, v.names, ConfigOf(p, ci))
  {
    assert idxs[..i + 1][..i] == idxs[..i];
  }

  // ---------------------------------------------------------------------
  // Adding and deleting a configuration: the guards

  /** The user has a configuration of activity type `t`. */
  predicate HasConfig(configs: map<int, ConfigRow>, user: int, t: string) {
    exists k :: k in configs && configs[k] == ConfigRow(user, t)
  }

  /** The user's configurations. */
  function ConfigsOf(configs: map<int, ConfigRow>, user: int): set<int> {
    set k | k in configs && configs[k].user == user
  }

  /** The user's DEFAULT configuration, if any (at most one). */
  function DefaultIds(configs: map<int, ConfigRow>, user: int): set<int> {
    set k | k in configs && configs[k] == ConfigRow(user, DefaultType)
  }

  datatype AddError =
    | NoTypeSelected    // no `new_activity_type`, or an empty one
    | InvalidOrDefault  // not an ActivityType value, or DEFAULT
    | AlreadyExists     // the user already has a configuration of that type

  /** Why `_handle_add_new_activity_config` adds nothing (views.py:841-863),
      or `None` when it adds. The only types that can be added are the
      activity types other than DEFAULT the user has no configuration of. */
  function AddRejected(configs: map<int, ConfigRow>, user: int, newType: Option<string>): (r: Option<AddError>)
    ensures r.None? <==> newType.Some? && newType.value in {"RUN", "RIDE"} && !HasConfig(configs, user, newType.value)
    ensures newType == Some(DefaultType) ==> r == Some(InvalidOrDefault)
    ensures r == Some(AlreadyExists) ==> newType.Some? && HasConfig(configs, user, newType.value)
  {
    if !Truthy(newType) then Some(NoTypeSelected)
    else if Zones.ParseActivityType(newType.value).None? || newType.value == DefaultType then Some(InvalidOrDefault)
    else if HasConfig(configs, user, newType.value) then Some(AlreadyExists)
    else None
  }

  datatype DeleteError =
    | NoConfigId        // no `config_id_to_delete`, or an empty one
    | NotFound          // not a UUID, or not a configuration of the user
    | DefaultProtected  // the user's DEFAULT configuration

  /** The configuration `_handle_delete_activity_config` deletes
      (views.py:937-955), or why it deletes nothing. Only a configuration of
      the user other than DEFAULT is ever deleted. */
  function DeleteTarget(configs: map<int, ConfigRow>, user: int, configId: Option<string>, uuidOf: UuidParser): (r: Result<int, DeleteError>)
    ensures r.Ok? <==>
      && Truthy(configId) && uuidOf(configId.value).Some?
      && var cid := uuidOf(configId.value).value;
        cid in configs && configs[cid].user == user && configs[cid].activityType != DefaultType
    ensures r.Ok? ==> r.value == uuidOf(configId.value).value
    ensures r == Err(DefaultProtected) ==>
      && Truthy(configId) && uuidOf(configId.value).Some?
      && var cid := uuidOf(configId.value).value;
        cid in configs && configs[cid] == ConfigRow(user, DefaultType)
  {
    if !Truthy(configId) then Err(NoConfigId)
    else
      match uuidOf(configId.value)
      case None => Err(NotFound)
      case Some(cid) =>
        if cid !in configs || configs[cid].user != user then Err(NotFound)
        else if configs[cid].activityType == DefaultType then Err(DefaultProtected)
        else Ok(cid)
  }

  /** The zones of `after` are those of `before` plus, with fresh ids, a
      copy of every zone of the configurations `from`, moved to `to`. */
  ghost predicate CopiedZones(before: map<int, ZoneRow>, after: map<int, ZoneRow>, from: set<int>, to: int) {
    && (forall k :: k in before ==> k in after && after[k] == before[k])
    && (forall k :: k in after && k !in before ==>
          exists d :: d in before && before[d].config in from && after[k] == before[d].(config := to))
    && (forall d :: d in before && before[d].config in from ==>
          exists k :: k in after && k !in before && after[k] == before[d].(config := to))
  }

  /** Progress of copying the zones of `from` out of `z0`: `src` maps each
      zone copied so far to the zone it copies, and `todo` holds the zones
      still to copy. */
  ghost predicate CopyInv(z0: map<int, ZoneRow>, zones: map<int, ZoneRow>, src: map<int, int>, todo: set<int>, from: int, to: int) {
    && (forall d :: d in todo ==> d in z0 && z0[d].config == from)
    && (forall k :: k in z0 ==> k in zones && zones[k] == z0[k])
    && (forall k :: k in zones && k !in z0 ==> k in src)
    && (forall k :: k in src ==>
          && k in zones && k !in z0 && src[k] in z0 && z0[src[k]].config == from && src[k] !in todo
          && zones[k] == z0[src[k]].(config := to))
    && (forall d :: d in z0 && z0[d].config == from && d !in todo ==> exists k :: k in src && src[k] == d)
  }

  lemma CopyStart(z0: map<int, ZoneRow>, from: int, to: int)
    ensures CopyInv(z0, z0, map[], (set k | k in z0 && z0[k].config == from), from, to)
  {
  }

  /** Copying zone `d` to the fresh id `id` keeps the progress invariant. */
  lemma CopyStep(z0: map<int, ZoneRow>, zones: map<int, ZoneRow>, src: map<int, int>, todo: set<int>, from: int, to: int, d: int, id: int)
    requires CopyInv(z0, zones, src, todo, from, to) && d in todo && id !in zones
    ensures CopyInv(z0, zones[id := zones[d].(config := to)], src[id := d], todo - {d}, from, to)
  {
    var zones' := zones[id := zones[d].(config := to)];
    var src' := src[id := d];
    forall e | e in z0 && z0[e].config == from && e !in todo - {d}
      ensures exists k :: k in src' && src'[k] == e
    {
      if e == d {
        assert src'[id] == e;
      } else {
        var k :| k in src && src[k] == e;
        assert src'[k] == e;
      }
    }
  }

  /** With nothing left to copy, every zone of `from` has been copied. */
  lemma CopyDone(z0: map<int, ZoneRow>, zones: map<int, ZoneRow>, src: map<int, int>, from: int, to: int)
    requires CopyInv(z0, zones, src, {}, from, to)
    ensures CopiedZones(z0, zones, {from}, to)
  {
    forall k | k in zones && k !in z0
      ensures exists d :: d in z0 && z0[d].config in {from} && zones[k] == z0[d].(config := to)
    {
      var d := src[k];
      assert d in z0 && z0[d].config in {from} && zones[k] == z0[d].(config := to);
    }
  }

  /** The copy of zone `d` can be inserted: its name is not yet used in
      `to`, since the zones copied so far come from other zones of `from`,
      whose names differ. */
  lemma CopyAdmissible(configs: map<int, ConfigRow>, z0: map<int, ZoneRow>, t: Tables, src: map<int, int>, todo: set<int>, from: int, to: int, d: int)
    requires CopyInv(z0, t.zones, src, todo, from, to) && d in todo
    requires TablesValid(configs, Tables(z0, t.nextId)) && TablesValid(configs, t)
    requires forall k :: k in z0 ==> z0[k].config != to
    ensures Admissible(t.zones, t.nextId, t.zones[d].(config := to))
  {
    var row := t.zones[d].(config := to);
    forall k | k in t.zones && k != t.nextId && t.zones[k].config == to
      ensures t.zones[k].name != row.name
    {
      assert k !in z0;
      assert src[k] != d;
    }
  }

  /** One step of the copy loop keeps the zone table's constraints and the
      progress invariant. */
  lemma CopyOne(configs: map<int, ConfigRow>, z0: map<int, ZoneRow>, t: Tables, src: map<int, int>, todo: set<int>, from: int, to: int, d: int)
    requires CopyInv(z0, t.zones, src, todo, from, to) && d in todo && to in configs
    requires TablesValid(configs, Tables(z0, t.nextId)) && TablesValid(configs, t)
    requires forall k :: k in z0 ==> z0[k].config != to
    ensures var t' := Tables(t.zones[t.nextId := t.zones[d].(config := to)], t.nextId + 1);
      && TablesValid(configs, t') && TablesValid(configs, Tables(z0, t'.nextId))
      && CopyInv(z0, t'.zones, src[t.nextId := d], todo - {d}, from, to)
  {
    var row := t.zones[d].(config := to);
    CopyAdmissible(configs, z0, t, src, todo, from, to, d);
    ApplyWriteValid(configs, t, Create(row));
    CopyStep(z0, t.zones, src, todo, from, to, d, t.nextId);
  }

  /** Some member of a non-empty set. */
  lemma Pick<T>(s: set<T>) returns (x: T)
    requires s != {}
    ensures x in s
  {
    x :| x in s;
  }

  /** Exactly one of the user's configurations after adding one means the
      user had none before (views.py:893). */
  lemma OnlyConfigAfterAdd(configs: map<int, ConfigRow>, user: int, id: int, t: string)
    requires id !in configs
    ensures |ConfigsOf(configs[id := ConfigRow(user, t)], user)| == 1 <==> ConfigsOf(configs, user) == {}
  {
    var after := ConfigsOf(configs[id := ConfigRow(user, t)], user);
    assert after == ConfigsOf(configs, user) + {id};
    if ConfigsOf(configs, user) != {} {
      var x := Pick(ConfigsOf(configs, user));
      assert {x, id} <= after;
      assert |{x, id}| == 2;
    }
  }

  // ---------------------------------------------------------------------
  // The store

  /** The configuration and zone tables of the database. Configuration and
      zone ids come from one allocator standing in for `uuid4`. */
  class ZoneSettingsStore {
    var configs: map<int, ConfigRow>
    var zones: map<int, ZoneRow>
    var nextId: int

    /** The constraints of both tables: those of the zone table, every
        configuration id below the allocator, and at most one configuration
        per user and activity type (models.py:101-113). */
    ghost predicate Valid()
      reads this
    {
      && TablesValid(configs, Tables(zones, nextId))
      && (forall k :: k in configs ==> k < nextId)
      && (forall k, k' :: k in configs && k' in configs && k != k' ==> configs[k] != configs[k'])
    }

    constructor ()
      ensures configs == map[] && zones == map[] && Valid()
    {
      configs := map[];
      zones := map[];
      nextId := 0;
    }

    /** The first pass (views.py:649-691): each record in ascending index
        order must name the user's configuration of its activity type, and
        the DEFAULT record's zone names are gathered by order. */
    method ValidateConfigs(user: int, uuidOf: UuidParser, p: ParsedForm, idxs: seq<int>) returns (r: Result<Checked, SaveError>)
      ensures r == Validate(configs, user, uuidOf, p, idxs)
    {
      var v := Checked(map[], map[]);
      for i := 0 to |idxs|
        invariant Validate(configs, user, uuidOf, p, idxs[..i]) == Ok(v)
      {
        var ci := idxs[i];
        var c := ConfigOf(p, ci);
        ValidateStep(configs, user, uuidOf, p, idxs, i, v);
        var chk := CheckConfig(configs, user, uuidOf, ci, c);
        if chk.Err? {
          ValidateErrSticks(configs, user, uuidOf, p, idxs, i + 1);
          return Err(chk.error);
        }
        if IsDefaultRecord(c) {
          var names := CollectDefaultNames(v.names, ci, c, Sorted(c.zoneOrder));
          if names.Err? {
            ValidateErrSticks(configs, user, uuidOf, p, idxs, i + 1);
            return Err(names.error);
          }
          v := Checked(names.value, v.resolved[ci := chk.value]);
        } else {
          v := Checked(v.names, v.resolved[ci := chk.value]);
        }
      }
      assert idxs[..|idxs|] == idxs;
      return Ok(v);
    }

    /** One `update_or_create` or `create` of the zone loop
        (views.py:772-790), or nothing for a skipped zone. */
    method Write(w: ZoneWrite) returns (r: Result<(), SaveError>)
      modifies this
      ensures configs == old(configs) && nextId >= old(nextId)
      ensures var res := ApplyWrite(old(Tables(zones, nextId)), w);
        if res.Ok? then r == Ok(()) && Tables(zones, nextId) == res.value
        else r == Err(res.error) && zones == old(zones) && nextId == old(nextId)
    {
      match w
      case Skip =>
        return Ok(());
      case UpdateOrCreate(id, row) =>
        if id in zones && zones[id].config == row.config && Admissible(zones, id, row) {
          zones := zones[id := row];
          return Ok(());
        } else if id !in zones && Admissible(zones, id, row) {
          zones := zones[id := row];
          nextId := Max(nextId, id + 1);
          return Ok(());
        }
        return Err(Raised(ConstraintViolated));
      case Create(row) =>
        if nextId !in zones && Admissible(zones, nextId, row) {
          zones := zones[nextId := row];
          nextId := nextId + 1;
          return Ok(());
        }
        return Err(Raised(ConstraintViolated));
    }

    /** The ids the zones `zs` of `c` submit (views.py:705-713); a zone id
        that is not an integer is left out. */
    static method CollectSubmittedIds(c: FormConfig, zs: seq<int>) returns (keep: set<int>)
      ensures keep == SubmittedIds(c, zs)
    {
      keep := {};
      for j := 0 to |zs|
        invariant keep == SubmittedIds(c, zs[..j])
      {
        assert zs[..j + 1][..j] == zs[..j];
        keep := keep + IdOf(ZoneAttrs(c, zs[j]));
      }
      assert zs[..|zs|] == zs;
    }

    /** The zone loop of one configuration (views.py:720-790); the first
        write that raises stops it. */
    method WriteZones(cid: int, isDefault: bool, names: map<int, string>, c: FormConfig, zs: seq<int>) returns (r: Result<(), SaveError>)
      modifies this
      ensures configs == old(configs) && nextId >= old(nextId)
      ensures var res := ApplyZones(old(Tables(zones, nextId)), cid, isDefault, names, c, zs);
        if res.Ok? then r == Ok(()) && Tables(zones, nextId) == res.value
        else r == Err(res.error)
    {
      ghost var t1 := Tables(zones, nextId);
      for j := 0 to |zs|
        invariant configs == old(configs) && nextId >= old(nextId)
        invariant ApplyZones(t1, cid, isDefault, names, c, zs[..j]) == Ok(Tables(zones, nextId))
      {
        ApplyZonesStep(t1, cid, isDefault, names, c, zs, j, Tables(zones, nextId));
        var res := Write(PlanZone(cid, isDefault, names, ZoneAttrs(c, zs[j])));
        if res.Err? {
          ApplyZonesErrSticks(t1, cid, isDefault, names, c, zs, j + 1);
          return res;
        }
      }
      assert zs[..|zs|] == zs;
      return Ok(());
    }

    /** The second pass for one configuration (views.py:700-790): the
        configuration's zones whose ids were not submitted are deleted (the
        delete raises on an id that is no UUID's integer value), then each
        submitted zone is written in saving order. */
    method SaveOneConfig(cid: int, isDefault: bool, names: map<int, string>, c: FormConfig) returns (r: Result<(), SaveError>)
      modifies this
      ensures configs == old(configs) && nextId >= old(nextId)
      ensures var res := SaveConfig(old(Tables(zones, nextId)), cid, isDefault, names, c);
        if res.Ok? then r == Ok(()) && Tables(zones, nextId) == res.value
        else r == Err(res.error)
    {
      var order := SaveOrder(c);
      if order.None? {
        return Err(Raised(BadOrderSortKey));
      }
      var zs := order.value;
      var keep := CollectSubmittedIds(c, zs);
      if exists n :: n in keep && !(0 <= n < UuidIntBound) {
        return Err(Raised(ZoneIdNotUuid));
      }
      zones := DeleteUnlisted(zones, cid, keep);
      r := WriteZones(cid, isDefault, names, c, zs);
    }

    /** The second pass (views.py:693-792): every record in ascending index
        order is saved into the configuration the first pass resolved it
        to; the first failure stops it. */
    method SaveResolvedConfigs(p: ParsedForm, v: Checked, idxs: seq<int>) returns (r: Result<(), SaveError>)
      requires Resolves(configs, v, idxs)
      modifies this
      ensures configs == old(configs) && nextId >= old(nextId)
      ensures var res := SaveConfigs(configs, p, v, old(Tables(zones, nextId)), idxs);
        if res.Ok? then r == Ok(()) && Tables(zones, nextId) == res.value
        else r == Err(res.error)
    {
      ghost var t0 := Tables(zones, nextId);
      for i := 0 to |idxs|
        invariant configs == old(configs) && nextId >= t0.nextId
        invariant Resolves(configs, v, idxs[..i])
        invariant SaveConfigs(configs, p, v, t0, idxs[..i]) == Ok(Tables(zones, nextId))
      {
        var ci := idxs[i];
        var cid := v.resolved[ci];
        assert Resolves(configs, v, idxs[..i + 1]);
        SaveConfigsStep(configs, p, v, t0, idxs, i, Tables(zones, nextId));
        var res := SaveOneConfig(cid, configs[cid].activityType == DefaultType, v.names, ConfigOf(p, ci));
        if res.Err? {
          SaveConfigsErrSticks(configs, p, v, t0, idxs, i + 1);
          return res;
        }
      }
      assert idxs[..|idxs|] == idxs;
      return Ok(());
    }

    /** `_handle_save_all_zone_configs` (views.py:611-795): parse the form,
        run the first pass, then save every configuration; any failure rolls
        the zone table back (`transaction.atomic`). */
    method SaveAllZoneConfigs(user: int, uuidOf: UuidParser, form: seq<(string, string)>) returns (r: Result<(), SaveError>)
      modifies this
      ensures configs == old(configs)
      ensures (r, Tables(zones, nextId)) == SaveOutcome(old(configs), old(Tables(zones, nextId)), user, uuidOf, form)
      ensures old(Valid()) ==> Valid()
    {
      var snapshot := Tables(zones, nextId);
      SaveKeepsTablesValidIf(configs, snapshot, user, uuidOf, form);
      var p := ParseFormData(form);
      if p.configs == map[] {
        return Err(NoConfigData);
      }
      var idxs := Sorted(p.order);
      var checked := ValidateConfigs(user, uuidOf, p, idxs);
      if checked.Err? {
        return Err(checked.error);
      }
      ValidateResolves(configs, user, uuidOf, p, idxs);
      r := SaveResolvedConfigs(p, checked.value, idxs);
      if r.Err? {
        zones, nextId := snapshot.zones, snapshot.nextId;
      }
    }

    /** Copies every zone of configuration `from` into configuration `to`,
        each with a fresh id (views.py:876-889). */
    method CopyZones(from: int, to: int)
      requires Valid() && to in configs && forall k :: k in zones ==> zones[k].config != to
      modifies this
      ensures Valid() && configs == old(configs) && nextId >= old(nextId)
      ensures CopiedZones(old(zones), zones, {from}, to)
    {
      ghost var z0 := zones;
      var todo := set k | k in zones && zones[k].config == from;
      ghost var src: map<int, int> := map[];
      CopyStart(z0, from, to);
      while todo != {}
        invariant configs == old(configs) && nextId >= old(nextId)
        invariant TablesValid(configs, Tables(zones, nextId)) && TablesValid(configs, Tables(z0, nextId))
        invariant CopyInv(z0, zones, src, todo, from, to)
        decreases |todo|
      {
        ghost var d0 := Pick(todo);
        var d :| d in todo;
        CopyOne(configs, z0, Tables(zones, nextId), src, todo, from, to, d);
        zones := zones[nextId := zones[d].(config := to)];
        src := src[nextId := d];
        nextId := nextId + 1;
        todo := todo - {d};
      }
      CopyDone(z0, zones, src, from, to);
    }

    /** `_handle_add_new_activity_config` (views.py:838-931): after the
        guards, a configuration of the new type is created for the user and
        the zones of the user's DEFAULT configuration are copied into it.
        `enqueue` reports that it is the user's first configuration, when
        the source puts the user on the activity processing queue. */
    method AddNewActivityConfig(user: int, newType: Option<string>) returns (r: Result<int, AddError>, enqueue: bool)
      requires Valid()
      modifies this
      ensures Valid()
      ensures var rejected := AddRejected(old(configs), user, newType);
        if rejected.Some? then
          r == Err(rejected.value) && !enqueue
          && configs == old(configs) && zones == old(zones) && nextId == old(nextId)
        else
          && r.Ok? && r.value !in old(configs)
          && configs == old(configs)[r.value := ConfigRow(user, newType.value)]
          && CopiedZones(old(zones), zones, DefaultIds(old(configs), user), r.value)
          && (enqueue <==> ConfigsOf(old(configs), user) == {})
    {
      var rejected := AddRejected(configs, user, newType);
      if rejected.Some? {
        return Err(rejected.value), false;
      }
      var t := newType.value;
      var id := nextId;
      ghost var before := configs;
      configs := configs[id := ConfigRow(user, t)];
      nextId := nextId + 1;
      assert Valid() by {
        forall k | k in before && before[k] == ConfigRow(user, t)
          ensures false
        {
          assert HasConfig(before, user, t);
        }
      }
      var defaults := set k | k in configs && configs[k] == ConfigRow(user, DefaultType);
      assert t != DefaultType;
      forall k
        ensures k in defaults <==> k in DefaultIds(before, user)
      {
        assert k in configs && k != id ==> configs[k] == before[k];
      }
      assert defaults == DefaultIds(before, user);
      if defaults != {} {
        ghost var d0 := Pick(defaults);
        var d :| d in defaults;
        forall k | k in defaults
          ensures k == d
        {
          assert configs[k] == configs[d];
        }
        assert defaults == {d};
        CopyZones(d, id);
      }
      var mine := set k | k in configs && configs[k].user == user;
      OnlyConfigAfterAdd(before, user, id, t);
      return Ok(id), |mine| == 1;
    }

    /** `_handle_delete_activity_config` (views.py:933-975): the configuration
        named by the form is deleted together with its zones (the foreign
        key cascades), unless a guard rejects it. */
    method DeleteActivityConfig(user: int, configId: Option<string>, uuidOf: UuidParser) returns (r: Result<(), DeleteError>)
      requires Valid()
      modifies this
      ensures Valid() && nextId == old(nextId)
      ensures var target := DeleteTarget(old(configs), user, configId, uuidOf);
        if target.Err? then
          r == Err(target.error) && configs == old(configs) && zones == old(zones)
        else
          && r == Ok(())
          && configs == old(configs) - {target.value}
          && (forall k :: k in zones <==> k in old(zones) && old(zones)[k].config != target.value)
          && (forall k :: k in zones ==> zones[k] == old(zones)[k])
    {
      var target := DeleteTarget(configs, user, configId, uuidOf);
      if target.Err? {
        return Err(target.error);
      }
      var cid := target.value;
      configs := configs - {cid};
      zones := map k | k in zones && zones[k].config != cid :: zones[k];
      return Ok(());
    }
  }

  lemma SaveKeepsTablesValidIf(configs: map<int, ConfigRow>, t: Tables, user: int, uuidOf: UuidParser, form: seq<(string, string)>)
    ensures TablesValid(configs, t) ==> TablesValid(configs, SaveOutcome(configs, t, user, uuidOf, form).1)
  {
    if TablesValid(configs, t) {
      SaveKeepsTablesValid(configs, t, user, uuidOf, form);
    }
  }
}
