/** Saving the zone-settings form (UserHRZonesDisplayView._handle_save_all_zone_configs,
    backend/api/views.py:611-795): every submitted configuration is checked
    before anything is written, DEFAULT zone names are gathered by order, and
    then each configuration's zones are replaced by the submitted ones, with
    heart-rate bounds normalised and inverted zones skipped. These are the
    value-level definitions; the handlers that update the tables in place
    are in the SettingsStore module. */
module ZoneSettings {
  import opened Wrappers
  import opened PyText
  import opened PySorted
  import opened ZoneForm
  import Zones

  /** A CustomZonesConfig row (models.py:101-113), keyed by the integer value
      of its UUID. */
  datatype ConfigRow = ConfigRow(user: int, activityType: string)

  /** A HeartRateZone row (models.py:119-136) as stored, keyed by the integer
      value of its UUID. */
  datatype ZoneRow = ZoneRow(config: int, name: string, minHr: int, maxHr: int, order: int)

  /** The heart-rate zone table, with the allocator standing in for `uuid4`:
      every id in use is below `nextId`. */
  datatype Tables = Tables(zones: map<int, ZoneRow>, nextId: int)

  /** The bound an open-ended zone is stored with (views.py:734). */
  const OpenMaxHr := 220

  const DefaultType := "DEFAULT"

  /** Django's conversion of a submitted configuration id to a UUID, `None`
      when the text is not a UUID. */
  type UuidParser = string -> Option<int>

  /** A fault that escapes the handler as an exception; the transaction is
      rolled back. */
  datatype Fault =
    | MalformedConfigId   // the UUID conversion of a configuration id fails
    | BadOrderSortKey     // int() fails on a submitted order while sorting
    | ConstraintViolated  // a write breaks a constraint of the zone table
    | ZoneIdNotUuid       // a submitted integer zone id is no UUID's integer value

  /** Why a save writes nothing. */
  datatype SaveError =
    | NoConfigData
    | MissingIdOrType(configIdx: int)
    | UnknownConfig(configIdx: int)
    | BadDefaultZone(configIdx: int, zoneIdx: int)
    | Raised(fault: Fault)

  predicate Truthy(s: Option<string>) {
    s.Some? && s.value != ""
  }

  // ---------------------------------------------------------------------
  // One submitted zone

  function ZoneAttrs(c: FormConfig, z: int): Attrs {
    if z in c.zones then c.zones[z] else map[]
  }

  /** `int(zone_data.get("order"))`; an absent order is the TypeError of
      `int(None)`. */
  function OrderOf(a: Attrs): Option<int> {
    if "order" in a then ParseInt(a["order"]) else None
  }

  /** `int(x.get("order", 0))`, the key the zones are sorted by. */
  function SortKey(a: Attrs): Option<int> {
    if "order" in a then ParseInt(a["order"]) else Some(0)
  }

  /** `f"Zone {order}"`. */
  function DefaultZoneName(order: int): string {
    "Zone " + ShowInt(order)
  }

  /** The submitted name, stripped, or `Zone {order}` when it is absent or
      blank (views.py:682-684, 755-757). */
  function ZoneName(a: Attrs, order: int): (n: string)
    ensures n != ""
    ensures "name" in a && Strip(a["name"]) != "" ==> n == Strip(a["name"])
  {
    var s := if "name" in a then Strip(a["name"]) else DefaultZoneName(order);
    if s == "" then DefaultZoneName(order) else s
  }

  /** The minimum bound: 0 when absent or blank, else `int()` of it. */
  function MinHrOf(a: Attrs): Option<int> {
    if "min_hr" in a && Strip(a["min_hr"]) != "" then ParseInt(a["min_hr"]) else Some(0)
  }

  /** The maximum bound: 220 when absent, blank or "open" in any letter case,
      else `int()` of it. */
  function MaxHrOf(a: Attrs): Option<int> {
    if "max_hr" !in a then Some(OpenMaxHr)
    else
      var t := Strip(a["max_hr"]);
      if LowerEquals(t, "open") || t == "" then Some(OpenMaxHr) else ParseInt(a["max_hr"])
  }

  /** One more than the largest integer value of a UUID (`2**128`). */
  const UuidIntBound := 0x1_0000_0000_0000_0000_0000_0000_0000_0000

  /** Whether every id of `ids` converts to a UUID, as the id lookup of the
      zone table demands (`uuid.UUID(int=n)` accepts `0 <= n < 2**128`). */
  predicate UuidInts(ids: set<int>) {
    forall n :: n in ids ==> 0 <= n < UuidIntBound
  }

  /** The ids of a zone that count as submitted (views.py:705-713). */
  function IdOf(a: Attrs): set<int> {
    if "id" in a && Strip(a["id"]) != "" && ParseInt(a["id"]).Some? then {ParseInt(a["id"]).value} else {}
  }

  /** `max(min_hr, 0)`. */
  function Clamp(m: int): int {
    if m < 0 then 0 else m
  }

  /** What saving one zone writes. */
  datatype ZoneWrite = Skip | UpdateOrCreate(id: int, row: ZoneRow) | Create(row: ZoneRow)

  /** The row one zone of the second pass (views.py:720-792) is written as,
      or `None` when it is skipped: a zone whose order or bounds are not
      integers is skipped, as is one whose maximum is not above its clamped
      minimum unless the maximum is 220. A zone of a non-DEFAULT
      configuration takes the DEFAULT name of its order when one was
      submitted. */
  function PlanRow(cid: int, isDefault: bool, names: map<int, string>, a: Attrs): Option<ZoneRow> {
    match OrderOf(a)
    case None => None
    case Some(order) =>
      match (MinHrOf(a), MaxHrOf(a))
      case (Some(min0), Some(max)) =>
        var min := Clamp(min0);
        if max <= min && max != OpenMaxHr then None
        else
          var name := if !isDefault && order in names then names[order] else ZoneName(a, order);
          Some(ZoneRow(cid, name, min, max, order))
      case _ => None
  }

  /** One zone of the second pass: a zone with an integer id is updated (or
      created with that id); any other zone is created. */
  function PlanZone(cid: int, isDefault: bool, names: map<int, string>, a: Attrs): ZoneWrite {
    match PlanRow(cid, isDefault, names, a)
    case None => Skip
    case Some(row) =>
      if "id" in a && Strip(a["id"]) != "" then
        match ParseInt(a["id"])
        case Some(id) => UpdateOrCreate(id, row)
        case None => Create(row)
      else Create(row)
  }

  /** A zone is written exactly when its order and bounds are integers and
      its maximum is above the clamped minimum or is 220. The written row
      belongs to the configuration, keeps the submitted order, has a
      non-negative minimum (a negative one becomes 0), has the maximum as
      normalised, and is named by the DEFAULT name of its order for a
      non-DEFAULT configuration, else by its own name. */
  lemma PlanRowSpec(cid: int, isDefault: bool, names: map<int, string>, a: Attrs)
    ensures var r := PlanRow(cid, isDefault, names, a);
      && (r.Some? <==>
            OrderOf(a).Some? && MinHrOf(a).Some? && MaxHrOf(a).Some?
            && (MaxHrOf(a).value > Clamp(MinHrOf(a).value) || MaxHrOf(a).value == OpenMaxHr))
      && (r.Some? ==>
            var order := OrderOf(a).value;
            && r.value.config == cid
            && r.value.order == order
            && r.value.minHr == Clamp(MinHrOf(a).value)
            && r.value.maxHr == MaxHrOf(a).value
            && r.value.minHr >= 0 && r.value.maxHr >= 0
            && (r.value.maxHr > r.value.minHr || r.value.maxHr == OpenMaxHr)
            && r.value.name == (if !isDefault && order in names then names[order] else ZoneName(a, order)))
  {
  }

  /** A planned row is written, by id when the zone carries an integer id
      and as a new row otherwise; a skipped zone writes nothing. */
  lemma PlanZoneWrites(cid: int, isDefault: bool, names: map<int, string>, a: Attrs)
    ensures var r, w := PlanRow(cid, isDefault, names, a), PlanZone(cid, isDefault, names, a);
      && (w.Skip? <==> r.None?)
      && (!w.Skip? ==> w.row == r.value)
      && (w.UpdateOrCreate? <==> r.Some? && IdOf(a) != {})
      && (w.UpdateOrCreate? ==> IdOf(a) == {w.id})
  {
  }

  /** Bound normalisation (views.py:724-738): an absent or blank minimum is 0,
      and an absent, blank or "open" maximum (surrounding whitespace and letter
      case ignored) is 220. */
  lemma BoundDefaults(a: Attrs)
    ensures ("min_hr" !in a || Strip(a["min_hr"]) == "") ==> MinHrOf(a) == Some(0)
    ensures ("max_hr" !in a || Strip(a["max_hr"]) == "" || LowerEquals(Strip(a["max_hr"]), "open"))
              ==> MaxHrOf(a) == Some(OpenMaxHr)
    ensures "max_hr" in a && ParseInt(a["max_hr"]).Some? ==> MaxHrOf(a) == ParseInt(a["max_hr"])
  {
    if "max_hr" in a && ParseInt(a["max_hr"]).Some? {
      var t := Strip(a["max_hr"]);
      assert t != "";
      assert LowerEquals(t, "open") ==> LowerChar(t[0]) == 'o';
    }
  }

  /** An open-ended zone whose minimum exceeds 220 is written with
      `min_hr > max_hr` (views.py:739): the row fails HeartRateZone.clean and
      the heart-rate engine never matches it. */
  lemma OpenZoneSavedInverted(cid: int, names: map<int, string>, a: Attrs)
    requires OrderOf(a).Some? && OrderOf(a).value >= 0 && "id" !in a
    requires MinHrOf(a).Some? && MinHrOf(a).value > OpenMaxHr
    requires MaxHrOf(a) == Some(OpenMaxHr)
    ensures var order := OrderOf(a).value;
      var row := ZoneRow(cid, ZoneName(a, order), MinHrOf(a).value, OpenMaxHr, order);
      && PlanZone(cid, true, names, a) == Create(row)
      && Zones.Clean(Zones.HeartRateZone(0, row.name, Zones.Int(row.minHr), Zones.Int(row.maxHr), order)).Err?
  {
  }

  // ---------------------------------------------------------------------
  // Writes to the zone table

  /** The constraints of the zone table a row must meet (models.py:125-135):
      non-negative bounds and order (positive integer columns) and a name not
      used by another zone of the same configuration. */
  predicate Admissible(zones: map<int, ZoneRow>, id: int, row: ZoneRow) {
    && row.order >= 0 && row.minHr >= 0 && row.maxHr >= 0
    && forall k :: k in zones && k != id && zones[k].config == row.config ==> zones[k].name != row.name
  }

  function Max(a: int, b: int): int {
    if a < b then b else a
  }

  /** One write of the second pass. `update_or_create(id=..., config=...)`
      updates the row with that id when it belongs to the configuration and
      otherwise inserts one with that id; `create` inserts one with a fresh
      id. A write that breaks a constraint raises. */
  function ApplyWrite(t: Tables, w: ZoneWrite): Result<Tables, SaveError> {
    match w
    case Skip => Ok(t)
    case UpdateOrCreate(id, row) =>
      if id in t.zones && t.zones[id].config == row.config && Admissible(t.zones, id, row) then
        Ok(t.(zones := t.zones[id := row]))
      else if id !in t.zones && Admissible(t.zones, id, row) then
        Ok(Tables(t.zones[id := row], Max(t.nextId, id + 1)))
      else Err(Raised(ConstraintViolated))
    case Create(row) =>
      if t.nextId !in t.zones && Admissible(t.zones, t.nextId, row) then
        Ok(Tables(t.zones[t.nextId := row], t.nextId + 1))
      else Err(Raised(ConstraintViolated))
  }

  /** A successful write keeps every other configuration's rows and every
      id in use, never lowers the allocator, and adds at most the one id it
      names or allocates. */
  lemma ApplyWriteFrame(t: Tables, w: ZoneWrite)
    requires ApplyWrite(t, w).Ok?
    ensures var t' := ApplyWrite(t, w).value;
      && t'.nextId >= t.nextId
      && (forall k :: k in t.zones ==> k in t'.zones)
      && (forall k :: k in t.zones && (w.Skip? || t.zones[k].config != w.row.config) ==>
            t'.zones[k] == t.zones[k])
      && (forall k :: k in t'.zones && k !in t.zones ==>
            (w.UpdateOrCreate? && k == w.id) || (w.Create? && k == t.nextId))
  {
  }

  /** `HeartRateZone.objects.filter(config=cid).exclude(id__in=keep).delete()`
      (views.py:715-718). */
  function DeleteUnlisted(zones: map<int, ZoneRow>, cid: int, keep: set<int>): (r: map<int, ZoneRow>)
    ensures forall k :: k in r <==> k in zones && (zones[k].config != cid || k in keep)
    ensures forall k :: k in r ==> r[k] == zones[k]
  {
    map k | k in zones && (zones[k].config != cid || k in keep) :: zones[k]
  }

  // ---------------------------------------------------------------------
  // The second pass, one configuration

  function SortKeyOr0(c: FormConfig, z: int): int {
    var k := SortKey(ZoneAttrs(c, z));
    if k.Some? then k.value else 0
  }

  /** The zone indices of `c` in the order they are saved: the dictionary
      order, stably sorted by `int(order)` with 0 for an absent order
      (views.py:701-703); `None` for the ValueError of an order that is not an
      integer. */
  function SaveOrder(c: FormConfig): Option<seq<int>> {
    if forall z :: z in c.zoneOrder ==> SortKey(ZoneAttrs(c, z)).Some? then
      Some(SortBy(c.zoneOrder, z => SortKeyOr0(c, z)))
    else None
  }

  /** The submitted ids of the zones `zs` of `c`. */
  function SubmittedIds(c: FormConfig, zs: seq<int>): set<int> {
    if zs == [] then {}
    else SubmittedIds(c, zs[..|zs| - 1]) + IdOf(ZoneAttrs(c, zs[|zs| - 1]))
  }

  /** The zones `zs` of `c` written one after the other; the first write
      that raises stops the save. */
  function ApplyZones(t: Tables, cid: int, isDefault: bool, names: map<int, string>, c: FormConfig, zs: seq<int>): Result<Tables, SaveError> {
    if zs == [] then Ok(t)
    else
      match ApplyZones(t, cid, isDefault, names, c, zs[..|zs| - 1])
      case Err(e) => Err(e)
      case Ok(t1) => ApplyWrite(t1, PlanZone(cid, isDefault, names, ZoneAttrs(c, zs[|zs| - 1])))
  }

  /** Saving configuration `cid` from its submitted record `c`: its rows
      whose ids were not submitted are deleted, then every submitted zone is
      written in saving order. The delete raises when a submitted id is not
      the integer value of a UUID (views.py:716-718). */
  function SaveConfig(t: Tables, cid: int, isDefault: bool, names: map<int, string>, c: FormConfig): Result<Tables, SaveError> {
    match SaveOrder(c)
    case None => Err(Raised(BadOrderSortKey))
    case Some(zs) =>
      if !UuidInts(SubmittedIds(c, zs)) then Err(Raised(ZoneIdNotUuid))
      else ApplyZones(t.(zones := DeleteUnlisted(t.zones, cid, SubmittedIds(c, zs))), cid, isDefault, names, c, zs)
  }

  /** Writing the zones of one configuration leaves every row of every other
      configuration as it was, and adds only ids that were submitted or are
      fresh. */
  lemma {:induction false} ApplyZonesFrame(t: Tables, cid: int, isDefault: bool, names: map<int, string>, c: FormConfig, zs: seq<int>)
    requires ApplyZones(t, cid, isDefault, names, c, zs).Ok?
    ensures var t' := ApplyZones(t, cid, isDefault, names, c, zs).value;
      && t'.nextId >= t.nextId
      && (forall k :: k in t.zones ==> k in t'.zones)
      && (forall k :: k in t.zones && t.zones[k].config != cid ==> t'.zones[k] == t.zones[k])
      && (forall k :: k in t'.zones && k !in t.zones ==> k in SubmittedIds(c, zs) || k >= t.nextId)
  {
    if zs != [] {
      var init := zs[..|zs| - 1];
      ApplyZonesFrame(t, cid, isDefault, names, c, init);
      var t1 := ApplyZones(t, cid, isDefault, names, c, init).value;
      var w := PlanZone(cid, isDefault, names, ZoneAttrs(c, zs[|zs| - 1]));
      ApplyWriteFrame(t1, w);
      PlanZoneWrites(cid, isDefault, names, ZoneAttrs(c, zs[|zs| - 1]));
      assert SubmittedIds(c, zs) == SubmittedIds(c, init) + IdOf(ZoneAttrs(c, zs[|zs| - 1]));
    }
  }

  /** After a configuration is saved, none of its earlier rows whose id was
      not submitted remains, and no other configuration's row has changed
      (views.py:700-718). */
  lemma SaveConfigReplaces(t: Tables, cid: int, isDefault: bool, names: map<int, string>, c: FormConfig)
    requires forall k :: k in t.zones ==> k < t.nextId
    requires SaveConfig(t, cid, isDefault, names, c).Ok?
    ensures var zs := SaveOrder(c).value;
      var t' := SaveConfig(t, cid, isDefault, names, c).value;
      && (forall k :: k in t.zones && t.zones[k].config == cid && k !in SubmittedIds(c, zs) ==> k !in t'.zones)
      && (forall k :: k in t.zones && t.zones[k].config != cid ==> k in t'.zones && t'.zones[k] == t.zones[k])
      && (forall k :: k in t'.zones && k !in t.zones ==> 0 <= k < UuidIntBound || k >= t.nextId)
  {
    var zs := SaveOrder(c).value;
    var t1 := t.(zones := DeleteUnlisted(t.zones, cid, SubmittedIds(c, zs)));
    ApplyZonesFrame(t1, cid, isDefault, names, c, zs);
  }

  /** Every id submitted by a zone among `zs` is among the submitted ids. */
  lemma {:induction false} SubmittedIdsHas(c: FormConfig, zs: seq<int>, z: int)
    requires z in zs
    ensures IdOf(ZoneAttrs(c, z)) <= SubmittedIds(c, zs)
  {
    var init := zs[..|zs| - 1];
    if zs[|zs| - 1] != z {
      assert z in init by {
        var i :| 0 <= i < |zs| && zs[i] == z;
        assert init[i] == z;
      }
      SubmittedIdsHas(c, init, z);
    }
  }

  /** A zone whose id is an integer (`int()` succeeds, as it does on "-1")
      that is no UUID's integer value makes the delete raise, so the save
      writes nothing, however valid its other zones are. */
  lemma NonUuidIdRaises(t: Tables, cid: int, isDefault: bool, names: map<int, string>, c: FormConfig, z: int)
    requires z in c.zoneOrder && SaveOrder(c).Some?
    requires !UuidInts(IdOf(ZoneAttrs(c, z)))
    ensures SaveConfig(t, cid, isDefault, names, c) == Err(Raised(ZoneIdNotUuid))
  {
    var zs := SaveOrder(c).value;
    assert multiset(zs) == multiset(c.zoneOrder);
    assert z in multiset(zs);
    SubmittedIdsHas(c, zs, z);
  }

  // ---------------------------------------------------------------------
  // The first pass: checks before any write (views.py:645-691)

  function ConfigOf(p: ParsedForm, ci: int): FormConfig {
    if ci in p.configs then p.configs[ci] else NoConfig
  }

  /** The stored configuration a submitted record names: it needs a non-empty
      id and activity type, and must be the user's configuration of that
      type. */
  function CheckConfig(configs: map<int, ConfigRow>, user: int, uuidOf: UuidParser, ci: int, c: FormConfig): (r: Result<int, SaveError>)
    ensures r.Ok? ==> Truthy(c.id) && Truthy(c.activityType) && r.value in configs && configs[r.value] == ConfigRow(user, c.activityType.value)
  {
    if !Truthy(c.id) || !Truthy(c.activityType) then Err(MissingIdOrType(ci))
    else
      match uuidOf(c.id.value)
      case None => Err(Raised(MalformedConfigId))
      case Some(cid) =>
        if cid in configs && configs[cid] == ConfigRow(user, c.activityType.value) then Ok(cid)
        else Err(UnknownConfig(ci))
  }

  /** The DEFAULT names by order, gathered from the zones `zs` of the DEFAULT
      record `c` in index order; a later zone of the same order overwrites an
      earlier one, and a zone whose order is not an integer aborts. */
  function CollectNames(names: map<int, string>, ci: int, c: FormConfig, zs: seq<int>): Result<map<int, string>, SaveError> {
    if zs == [] then Ok(names)
    else
      match CollectNames(names, ci, c, zs[..|zs| - 1])
      case Err(e) => Err(e)
      case Ok(m) =>
        var z := zs[|zs| - 1];
        var a := ZoneAttrs(c, z);
        match OrderOf(a)
        case None => Err(BadDefaultZone(ci, z))
        case Some(order) => Ok(m[order := ZoneName(a, order)])
  }

  /** What the first pass hands to the second: the DEFAULT names by order
      and the configuration each submitted index resolved to. */
  datatype Checked = Checked(names: map<int, string>, resolved: map<int, int>)

  predicate IsDefaultRecord(c: FormConfig) {
    c.activityType == Some(DefaultType)
  }

  /** The first pass over the records `idxs` in order; the first failure
      aborts. */
  function Validate(configs: map<int, ConfigRow>, user: int, uuidOf: UuidParser, p: ParsedForm, idxs: seq<int>): Result<Checked, SaveError> {
    if idxs == [] then Ok(Checked(map[], map[]))
    else
      match Validate(configs, user, uuidOf, p, idxs[..|idxs| - 1])
      case Err(e) => Err(e)
      case Ok(v) =>
        var ci := idxs[|idxs| - 1];
        var c := ConfigOf(p, ci);
        match CheckConfig(configs, user, uuidOf, ci, c)
        case Err(e) => Err(e)
        case Ok(cid) =>
          if IsDefaultRecord(c) then
            match CollectNames(v.names, ci, c, Sorted(c.zoneOrder))
            case Err(e) => Err(e)
            case Ok(names) => Ok(Checked(names, v.resolved[ci := cid]))
          else Ok(Checked(v.names, v.resolved[ci := cid]))
  }

  /** A record the first pass accepts. */
  predicate Acceptable(configs: map<int, ConfigRow>, user: int, uuidOf: UuidParser, ci: int, c: FormConfig) {
    && CheckConfig(configs, user, uuidOf, ci, c).Ok?
    && (IsDefaultRecord(c) ==> OrdersParse(c, c.zoneOrder))
  }

  predicate AllAcceptable(configs: map<int, ConfigRow>, user: int, uuidOf: UuidParser, p: ParsedForm, idxs: seq<int>) {
    forall j :: 0 <= j < |idxs| ==> Acceptable(configs, user, uuidOf, idxs[j], ConfigOf(p, idxs[j]))
  }

  lemma AllAcceptableSnoc(configs: map<int, ConfigRow>, user: int, uuidOf: UuidParser, p: ParsedForm, idxs: seq<int>)
    requires idxs != []
    ensures AllAcceptable(configs, user, uuidOf, p, idxs) <==>
      AllAcceptable(configs, user, uuidOf, p, idxs[..|idxs| - 1])
      && Acceptable(configs, user, uuidOf, idxs[|idxs| - 1], ConfigOf(p, idxs[|idxs| - 1]))
  {
    assert forall j :: 0 <= j < |idxs| - 1 ==> idxs[..|idxs| - 1][j] == idxs[j];
  }

  /** Whether every order parses does not depend on the order of the zones. */
  lemma OrdersParsePermuted(c: FormConfig, xs: seq<int>, ys: seq<int>)
    requires multiset(xs) == multiset(ys)
    ensures OrdersParse(c, xs) <==> OrdersParse(c, ys)
  {
    forall j | 0 <= j < |xs|
      ensures exists k :: 0 <= k < |ys| && ys[k] == xs[j]
    {
      assert xs[j] in multiset(ys);
    }
    forall k | 0 <= k < |ys|
      ensures exists j :: 0 <= j < |xs| && xs[j] == ys[k]
    {
      assert ys[k] in multiset(xs);
    }
  }

  predicate OrdersParse(c: FormConfig, zs: seq<int>) {
    forall j :: 0 <= j < |zs| ==> OrderOf(ZoneAttrs(c, zs[j])).Some?
  }

  lemma OrdersParseSnoc(c: FormConfig, zs: seq<int>)
    requires zs != []
    ensures OrdersParse(c, zs) <==> OrdersParse(c, zs[..|zs| - 1]) && OrderOf(ZoneAttrs(c, zs[|zs| - 1])).Some?
  {
    assert forall j :: 0 <= j < |zs| - 1 ==> zs[..|zs| - 1][j] == zs[j];
  }

  lemma {:induction false} CollectNamesOk(names: map<int, string>, ci: int, c: FormConfig, zs: seq<int>)
    ensures CollectNames(names, ci, c, zs).Ok? <==> OrdersParse(c, zs)
  {
    if zs != [] {
      CollectNamesOk(names, ci, c, zs[..|zs| - 1]);
      OrdersParseSnoc(c, zs);
    }
  }

  /** Nothing passes the first pass unless every record has an id and an
      activity type naming the user's configuration of that type, and every
      zone of a DEFAULT record has an integer order; and everything that meets
      these passes. */
  lemma {:induction false} ValidateOk(configs: map<int, ConfigRow>, user: int, uuidOf: UuidParser, p: ParsedForm, idxs: seq<int>)
    ensures Validate(configs, user, uuidOf, p, idxs).Ok? <==> AllAcceptable(configs, user, uuidOf, p, idxs)
  {
    if idxs != [] {
      var init := idxs[..|idxs| - 1];
      ValidateOk(configs, user, uuidOf, p, init);
      AllAcceptableSnoc(configs, user, uuidOf, p, idxs);
      var ci := idxs[|idxs| - 1];
      var c := ConfigOf(p, ci);
      var sorted := Sorted(c.zoneOrder);
      OrdersParsePermuted(c, sorted, c.zoneOrder);
      var prev := Validate(configs, user, uuidOf, p, init);
      if prev.Ok? {
        CollectNamesOk(prev.value.names, ci, c, sorted);
      }
    }
  }

  /** The first pass names, for every record it accepts, the user's stored
      configuration of the submitted activity type. */
  lemma {:induction false} ValidateResolves(configs: map<int, ConfigRow>, user: int, uuidOf: UuidParser, p: ParsedForm, idxs: seq<int>)
    requires Validate(configs, user, uuidOf, p, idxs).Ok?
    ensures var v := Validate(configs, user, uuidOf, p, idxs).value;
      forall ci :: ci in idxs ==>
        && ci in v.resolved && v.resolved[ci] in configs && Truthy(ConfigOf(p, ci).activityType)
        && configs[v.resolved[ci]] == ConfigRow(user, ConfigOf(p, ci).activityType.value)
  {
    if idxs != [] {
      var init := idxs[..|idxs| - 1];
      ValidateResolves(configs, user, uuidOf, p, init);
      assert forall ci :: ci in idxs ==> ci in init || ci == idxs[|idxs| - 1];
    }
  }

  // ---------------------------------------------------------------------
  // The second pass, all configurations, and the whole save

  /** Every record an index resolved to names a stored configuration. */
  ghost predicate Resolves(configs: map<int, ConfigRow>, v: Checked, idxs: seq<int>) {
    forall ci :: ci in idxs ==> ci in v.resolved && v.resolved[ci] in configs
  }

  /** The second pass over the records `idxs` in order (views.py:693-792):
      each is saved into the configuration the first pass resolved it to,
      as a DEFAULT configuration exactly when the stored one is. */
  function SaveConfigs(configs: map<int, ConfigRow>, p: ParsedForm, v: Checked, t: Tables, idxs: seq<int>): Result<Tables, SaveError>
    requires Resolves(configs, v, idxs)
  {
    if idxs == [] then Ok(t)
    else
      assert Resolves(configs, v, idxs[..|idxs| - 1]);
      match SaveConfigs(configs, p, v, t, idxs[..|idxs| - 1])
      case Err(e) => Err(e)
      case Ok(t1) =>
        var ci := idxs[|idxs| - 1];
        var cid := v.resolved[ci];
        SaveConfig(t1, cid, configs[cid].activityType == DefaultType, v.names, ConfigOf(p, ci))
  }

  /** The whole save: the parsed form, its indices in ascending order, the
      first pass, then the second. Any failure leaves the zone table as it
      was (the handler runs in one transaction). */
  function SaveOutcome(configs: map<int, ConfigRow>, t: Tables, user: int, uuidOf: UuidParser, form: seq<(string, string)>): (Result<(), SaveError>, Tables) {
    var p := ParseForm(form);
    if p.configs == map[] then (Err(NoConfigData), t)
    else
      var idxs := Sorted(p.order);
      match Validate(configs, user, uuidOf, p, idxs)
      case Err(e) => (Err(e), t)
      case Ok(v) =>
        ValidateResolves(configs, user, uuidOf, p, idxs);
        match SaveConfigs(configs, p, v, t, idxs)
        case Err(e) => (Err(e), t)
        case Ok(t1) => (Ok(()), t1)
  }

  // ---------------------------------------------------------------------
  // What a save guarantees

  /** Every parsed record passes the first pass. */
  ghost predicate EveryRecordAcceptable(configs: map<int, ConfigRow>, user: int, uuidOf: UuidParser, p: ParsedForm) {
    forall ci :: ci in p.configs ==> Acceptable(configs, user, uuidOf, ci, p.configs[ci])
  }

  /** Checking the records in ascending index order checks every record. */
  lemma AcceptableInAnyOrder(configs: map<int, ConfigRow>, user: int, uuidOf: UuidParser, p: ParsedForm)
    requires Indexed(p)
    ensures AllAcceptable(configs, user, uuidOf, p, Sorted(p.order)) <==> EveryRecordAcceptable(configs, user, uuidOf, p)
  {
    var idxs := Sorted(p.order);
    forall ci | ci in p.configs
      ensures exists j :: 0 <= j < |idxs| && idxs[j] == ci
    {
      assert ci in multiset(p.order);
    }
    forall j | 0 <= j < |idxs|
      ensures idxs[j] in p.configs && ConfigOf(p, idxs[j]) == p.configs[idxs[j]]
    {
      assert idxs[j] in multiset(p.order);
    }
  }

  /** Nothing is written unless parsing yields at least one record and every
      record passes the first pass; when one fails, the result is an error
      and the zone table is as it was (views.py:645-691). */
  lemma SaveNeedsEveryRecordAccepted(configs: map<int, ConfigRow>, t: Tables, user: int, uuidOf: UuidParser, form: seq<(string, string)>)
    ensures var p := ParseForm(form);
      var (r, t') := SaveOutcome(configs, t, user, uuidOf, form);
      && (r.Ok? ==> p.configs != map[] && EveryRecordAcceptable(configs, user, uuidOf, p))
      && (p.configs == map[] || !EveryRecordAcceptable(configs, user, uuidOf, p) ==> r.Err? && t' == t)
  {
    var p := ParseForm(form);
    ParseFormIndexed(form);
    AcceptableInAnyOrder(configs, user, uuidOf, p);
    ValidateOk(configs, user, uuidOf, p, Sorted(p.order));
  }

  /** A failed save leaves the zone table untouched. */
  lemma SaveAtomic(configs: map<int, ConfigRow>, t: Tables, user: int, uuidOf: UuidParser, form: seq<(string, string)>)
    ensures SaveOutcome(configs, t, user, uuidOf, form).0.Err? ==> SaveOutcome(configs, t, user, uuidOf, form).1 == t
  {
  }

  /** Saving one configuration keeps every row of every other
      configuration. */
  lemma SaveConfigKeepsOthers(t: Tables, cid: int, isDefault: bool, names: map<int, string>, c: FormConfig)
    requires SaveConfig(t, cid, isDefault, names, c).Ok?
    ensures var t' := SaveConfig(t, cid, isDefault, names, c).value;
      forall k :: k in t.zones && t.zones[k].config != cid ==> k in t'.zones && t'.zones[k] == t.zones[k]
  {
    var zs := SaveOrder(c).value;
    var t1 := t.(zones := DeleteUnlisted(t.zones, cid, SubmittedIds(c, zs)));
    ApplyZonesFrame(t1, cid, isDefault, names, c, zs);
  }

  /** No record of `idxs` resolved to configuration `cfg`. */
  ghost predicate Untargeted(v: Checked, idxs: seq<int>, cfg: int) {
    forall ci :: ci in idxs && ci in v.resolved ==> v.resolved[ci] != cfg
  }

  lemma {:induction false} SaveConfigsKeepsOthers(configs: map<int, ConfigRow>, p: ParsedForm, v: Checked, t: Tables, idxs: seq<int>, k: int)
    requires Resolves(configs, v, idxs)
    requires SaveConfigs(configs, p, v, t, idxs).Ok?
    requires k in t.zones && Untargeted(v, idxs, t.zones[k].config)
    ensures var t' := SaveConfigs(configs, p, v, t, idxs).value;
      k in t'.zones && t'.zones[k] == t.zones[k]
  {
    if idxs != [] {
      var init := idxs[..|idxs| - 1];
      var ci := idxs[|idxs| - 1];
      assert Resolves(configs, v, init);
      SaveConfigsKeepsOthers(configs, p, v, t, init, k);
      var t1 := SaveConfigs(configs, p, v, t, init).value;
      var cid := v.resolved[ci];
      SaveConfigKeepsOthers(t1, cid, configs[cid].activityType == DefaultType, v.names, ConfigOf(p, ci));
    }
  }

  /** The activity types the form submits. */
  ghost function SubmittedTypes(p: ParsedForm): set<string> {
    set ci | ci in p.configs && p.configs[ci].activityType.Some? :: p.configs[ci].activityType.value
  }

  /** A save changes no zone of another user's configuration, nor of a
      configuration of the user whose activity type was not submitted
      (views.py:700-718). */
  lemma SaveKeepsUnsubmittedConfigs(configs: map<int, ConfigRow>, t: Tables, user: int, uuidOf: UuidParser, form: seq<(string, string)>)
    ensures var p := ParseForm(form);
      var t' := SaveOutcome(configs, t, user, uuidOf, form).1;
      forall k :: k in t.zones && t.zones[k].config in configs
                  && (configs[t.zones[k].config].user != user || configs[t.zones[k].config].activityType !in SubmittedTypes(p))
                  ==> k in t'.zones && t'.zones[k] == t.zones[k]
  {
    var p := ParseForm(form);
    ParseFormIndexed(form);
    if p.configs != map[] {
      var idxs := Sorted(p.order);
      var res := Validate(configs, user, uuidOf, p, idxs);
      if res.Ok? {
        var v := res.value;
        ValidateResolves(configs, user, uuidOf, p, idxs);
        var saved := SaveConfigs(configs, p, v, t, idxs);
        if saved.Ok? {
          forall k | k in t.zones && t.zones[k].config in configs
                     && (configs[t.zones[k].config].user != user || configs[t.zones[k].config].activityType !in SubmittedTypes(p))
            ensures k in saved.value.zones && saved.value.zones[k] == t.zones[k]
          {
            var cfg := t.zones[k].config;
            forall ci | ci in idxs && ci in v.resolved
              ensures v.resolved[ci] != cfg
            {
              assert ci in multiset(p.order);
              assert ConfigOf(p, ci) == p.configs[ci];
              assert configs[v.resolved[ci]].activityType in SubmittedTypes(p);
            }
            SaveConfigsKeepsOthers(configs, p, v, t, idxs, k);
          }
        }
      }
    }
  }

  // ---------------------------------------------------------------------
  // The constraints of the zone table are kept

  /** The positive-integer columns of a zone row (models.py:125-130). */
  predicate RowInRange(r: ZoneRow) {
    r.minHr >= 0 && r.maxHr >= 0 && r.order >= 0
  }

  /** The zone table meets its constraints: every id is below the allocator,
      every row belongs to a stored configuration and has non-negative
      columns, and names are unique within a configuration
      (models.py:119-135). */
  ghost predicate TablesValid(configs: map<int, ConfigRow>, t: Tables) {
    && (forall k :: k in t.zones ==> k < t.nextId && t.zones[k].config in configs && RowInRange(t.zones[k]))
    && (forall k, k' :: k in t.zones && k' in t.zones && k != k' && t.zones[k].config == t.zones[k'].config ==>
          t.zones[k].name != t.zones[k'].name)
  }

  lemma ApplyWriteValid(configs: map<int, ConfigRow>, t: Tables, w: ZoneWrite)
    requires TablesValid(configs, t)
    requires !w.Skip? ==> w.row.config in configs
    requires ApplyWrite(t, w).Ok?
    ensures TablesValid(configs, ApplyWrite(t, w).value)
  {
  }

  lemma DeleteUnlistedValid(configs: map<int, ConfigRow>, t: Tables, cid: int, keep: set<int>)
    requires TablesValid(configs, t)
    ensures TablesValid(configs, t.(zones := DeleteUnlisted(t.zones, cid, keep)))
  {
  }

  lemma {:induction false} ApplyZonesValid(configs: map<int, ConfigRow>, t: Tables, cid: int, isDefault: bool, names: map<int, string>, c: FormConfig, zs: seq<int>)
    requires TablesValid(configs, t) && cid in configs
    requires ApplyZones(t, cid, isDefault, names, c, zs).Ok?
    ensures TablesValid(configs, ApplyZones(t, cid, isDefault, names, c, zs).value)
  {
    if zs != [] {
      var init := zs[..|zs| - 1];
      ApplyZonesValid(configs, t, cid, isDefault, names, c, init);
      var t1 := ApplyZones(t, cid, isDefault, names, c, init).value;
      var a := ZoneAttrs(c, zs[|zs| - 1]);
      PlanRowSpec(cid, isDefault, names, a);
      PlanZoneWrites(cid, isDefault, names, a);
      ApplyWriteValid(configs, t1, PlanZone(cid, isDefault, names, a));
    }
  }

  lemma {:induction false} SaveConfigsValid(configs: map<int, ConfigRow>, p: ParsedForm, v: Checked, t: Tables, idxs: seq<int>)
    requires Resolves(configs, v, idxs) && TablesValid(configs, t)
    requires SaveConfigs(configs, p, v, t, idxs).Ok?
    ensures TablesValid(configs, SaveConfigs(configs, p, v, t, idxs).value)
  {
    if idxs != [] {
      var init := idxs[..|idxs| - 1];
      var ci := idxs[|idxs| - 1];
      assert Resolves(configs, v, init);
      SaveConfigsValid(configs, p, v, t, init);
      var t1 := SaveConfigs(configs, p, v, t, init).value;
      var cid := v.resolved[ci];
      var c := ConfigOf(p, ci);
      var zs := SaveOrder(c).value;
      DeleteUnlistedValid(configs, t1, cid, SubmittedIds(c, zs));
      ApplyZonesValid(configs, t1.(zones := DeleteUnlisted(t1.zones, cid, SubmittedIds(c, zs))),
        cid, configs[cid].activityType == DefaultType, v.names, c, zs);
    }
  }

  /** A save keeps the zone table's constraints. */
  lemma SaveKeepsTablesValid(configs: map<int, ConfigRow>, t: Tables, user: int, uuidOf: UuidParser, form: seq<(string, string)>)
    requires TablesValid(configs, t)
    ensures TablesValid(configs, SaveOutcome(configs, t, user, uuidOf, form).1)
  {
    var p := ParseForm(form);
    if p.configs != map[] {
      var idxs := Sorted(p.order);
      var res := Validate(configs, user, uuidOf, p, idxs);
      if res.Ok? {
        ValidateResolves(configs, user, uuidOf, p, idxs);
        if SaveConfigs(configs, p, res.value, t, idxs).Ok? {
          SaveConfigsValid(configs, p, res.value, t, idxs);
        }
      }
    }
  }

  // ---------------------------------------------------------------------
  // The DEFAULT names

  /** The orders of the zones `zs` of `c` that parse. */
  function OrdersOf(c: FormConfig, zs: seq<int>): set<int> {
    if zs == [] then {}
    else
      var o := OrderOf(ZoneAttrs(c, zs[|zs| - 1]));
      OrdersOf(c, zs[..|zs| - 1]) + (if o.Some? then {o.value} else {})
  }

  /** Gathering DEFAULT names adds a name for exactly the orders of the
      zones, keeps the names gathered before for other orders, and gives
      each order the name of the last zone that has it (views.py:677-685). */
  lemma {:induction false} CollectNamesKeys(names: map<int, string>, ci: int, c: FormConfig, zs: seq<int>)
    requires CollectNames(names, ci, c, zs).Ok?
    ensures var m := CollectNames(names, ci, c, zs).value;
      && m.Keys == names.Keys + OrdersOf(c, zs)
      && (forall o :: o in names && o !in OrdersOf(c, zs) ==> m[o] == names[o])
      && (zs != [] ==>
            var a := ZoneAttrs(c, zs[|zs| - 1]);
            m[OrderOf(a).value] == ZoneName(a, OrderOf(a).value))
  {
    if zs != [] {
      var init := zs[..|zs| - 1];
      var a := ZoneAttrs(c, zs[|zs| - 1]);
      CollectNamesSnoc(names, ci, c, zs);
      CollectNamesKeys(names, ci, c, init);
      var m1 := CollectNames(names, ci, c, init).value;
      var o := OrderOf(a).value;
      UpdateKeys(names, m1, OrdersOf(c, init), o, ZoneName(a, o));
    }
  }

  /** The last zone of a successful gathering has an order, and its name is
      set on top of what the other zones gathered. */
  lemma CollectNamesSnoc(names: map<int, string>, ci: int, c: FormConfig, zs: seq<int>)
    requires zs != [] && CollectNames(names, ci, c, zs).Ok?
    ensures var a := ZoneAttrs(c, zs[|zs| - 1]);
      && CollectNames(names, ci, c, zs[..|zs| - 1]).Ok? && OrderOf(a).Some?
      && CollectNames(names, ci, c, zs).value
         == CollectNames(names, ci, c, zs[..|zs| - 1]).value[OrderOf(a).value := ZoneName(a, OrderOf(a).value)]
      && OrdersOf(c, zs) == OrdersOf(c, zs[..|zs| - 1]) + {OrderOf(a).value}
  {
  }

  /** Naming order `o` on top of names gathered for the orders `os`. */
  lemma UpdateKeys(names: map<int, string>, m1: map<int, string>, os: set<int>, o: int, v: string)
    requires m1.Keys == names.Keys + os
    requires forall o' :: o' in names && o' !in os ==> m1[o'] == names[o']
    ensures m1[o := v].Keys == names.Keys + (os + {o})
    ensures forall o' :: o' in names && o' !in os + {o} ==> m1[o := v][o'] == names[o']
  {
  }

  // ---------------------------------------------------------------------
  // The message of a zone whose order does not parse, as written

  /** What one zone of the second pass does as the source is written: a
      planned write, or the UnboundLocalError that aborts the whole save. */
  datatype AsWrittenStep = Planned(w: ZoneWrite) | Unbound

  /** One zone of the second pass as the source is written (views.py:721-753):
      a zone whose order does not parse reaches the handler's error message,
      whose text is built with `str(order)` even when the zone has a name.
      `order` is the local the loops last assigned; when no order has parsed
      yet in this request it is unbound. The second component says whether
      `order` is bound afterwards. */
  function PlanZoneAsWritten(cid: int, isDefault: bool, names: map<int, string>, a: Attrs, orderBound: bool): (AsWrittenStep, bool) {
    match OrderOf(a)
    case None => if orderBound then (Planned(Skip), true) else (Unbound, false)
    case Some(_) => (Planned(PlanZone(cid, isDefault, names, a)), true)
  }

  /** The code as written agrees with the zone-skipping model except when a
      zone without an integer order comes before any order has parsed; then
      it raises instead of skipping the zone. */
  lemma AsWrittenAgreesWhenBound(cid: int, isDefault: bool, names: map<int, string>, a: Attrs, orderBound: bool)
    ensures var (step, bound) := PlanZoneAsWritten(cid, isDefault, names, a, orderBound);
      && (step == Unbound <==> !orderBound && OrderOf(a).None?)
      && (step != Unbound ==> step == Planned(PlanZone(cid, isDefault, names, a)))
      && (bound <==> orderBound || OrderOf(a).Some?)
  {
  }

  /** A zone submitted without an order (sort key 0, so it is saved first)
      in a request without DEFAULT zones: the code as written raises, where
      skipping the zone was evidently intended. */
  lemma UnboundOrderRaises(cid: int, names: map<int, string>)
    ensures var a := map["name" := "Z1"];
      && SortKey(a) == Some(0)
      && PlanZoneAsWritten(cid, false, names, a, false).0 == Unbound
      && PlanZone(cid, false, names, a) == Skip
  {
    var a := map["name" := "Z1"];
    assert "order" !in a;
  }
}
