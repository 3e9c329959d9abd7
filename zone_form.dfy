/** The first step of saving the zone-settings form
    (UserHRZonesDisplayView._handle_save_all_zone_configs, backend/api/views.py):
    flat form keys `configs[i][attr]` and `configs[i][zones][j][attr]` are
    turned into one record per configuration index, each with its zones. */
module ZoneForm {
  import opened Wrappers
  import opened PyText

  /** The attributes submitted for one zone, values stripped. */
  type Attrs = map<string, string>

  /** One submitted configuration. `zoneOrder` lists the zone indices in the
      order they were first seen, which is the iteration order of the
      dictionary the source builds. */
  datatype FormConfig = FormConfig(
    id: Option<string>,
    activityType: Option<string>,
    zones: map<int, Attrs>,
    zoneOrder: seq<int>)

  /** All submitted configurations, with their indices in first-seen order. */
  datatype ParsedForm = ParsedForm(configs: map<int, FormConfig>, order: seq<int>)

  const NoConfig := FormConfig(None, None, map[], [])

  const NoConfigs := ParsedForm(map[], [])

  const Prefix := "configs["

  /** `key.replace("]", "").split("[")`. */
  function KeyParts(key: string): seq<string> {
    Split(RemoveAll(key, ']'), '[')
  }

  /** `parsed_configs.setdefault(ci, {"zones": {}})`. */
  function SetDefault(p: ParsedForm, ci: int): (q: ParsedForm)
    ensures ci in q.configs
  {
    if ci in p.configs then p else ParsedForm(p.configs[ci := NoConfig], p.order + [ci])
  }

  /** `config["zones"].setdefault(zi, {})[attr] = v`. */
  function SetZoneAttr(c: FormConfig, zi: int, attr: string, v: string): FormConfig {
    if zi in c.zones then c.(zones := c.zones[zi := c.zones[zi][attr := v]])
    else c.(zones := c.zones[zi := map[attr := v]], zoneOrder := c.zoneOrder + [zi])
  }

  /** The attribute a split key sets on its configuration: `id` or
      `activity_type` for three parts (any other name sets nothing), a zone
      attribute for five parts whose zone index is an integer. */
  function UpdateConfig(c: FormConfig, parts: seq<string>, value: string): FormConfig {
    if |parts| == 3 then
      if parts[2] == "id" then c.(id := Some(value))
      else if parts[2] == "activity_type" then c.(activityType := Some(value))
      else c
    else if |parts| == 5 && parts[2] == "zones" then
      match ParseInt(parts[3])
      case None => c
      case Some(zi) => SetZoneAttr(c, zi, parts[4], Strip(value))
    else c
  }

  /** One iteration of the parsing loop over the form's (key, value) pairs
      (views.py:621-643). A key whose configuration index is not an integer is
      skipped; the configuration record is created as soon as its index has
      parsed, before the rest of the key is looked at. */
  function AddPair(p: ParsedForm, key: string, value: string): ParsedForm {
    if !StartsWith(key, Prefix) then p
    else
      var parts := KeyParts(key);
      if |parts| < 2 then p
      else match ParseInt(parts[1])
        case None => p
        case Some(ci) =>
          var q := SetDefault(p, ci);
          q.(configs := q.configs[ci := UpdateConfig(q.configs[ci], parts, value)])
  }

  /** The parsed form: every pair folded in, in form order. */
  function ParseForm(form: seq<(string, string)>): ParsedForm {
    if form == [] then NoConfigs
    else AddPair(ParseForm(form[..|form| - 1]), form[|form| - 1].0, form[|form| - 1].1)
  }

  predicate Distinct(s: seq<int>) {
    forall i, j :: 0 <= i < j < |s| ==> s[i] != s[j]
  }

  /** Each index is listed once, and the lists name exactly the records
      present: the orders are the key orders of dictionaries. */
  ghost predicate Indexed(p: ParsedForm) {
    && Distinct(p.order)
    && (forall k :: k in p.configs <==> k in p.order)
    && (forall k :: k in p.configs ==>
          Distinct(p.configs[k].zoneOrder)
          && (forall z :: z in p.configs[k].zones <==> z in p.configs[k].zoneOrder))
  }

  ghost predicate ZonesIndexed(c: FormConfig) {
    Distinct(c.zoneOrder) && forall z :: z in c.zones <==> z in c.zoneOrder
  }

  lemma SetDefaultIndexed(p: ParsedForm, ci: int)
    requires Indexed(p)
    ensures Indexed(SetDefault(p, ci))
  {
  }

  lemma SetZoneAttrIndexed(c: FormConfig, zi: int, attr: string, v: string)
    requires ZonesIndexed(c)
    ensures ZonesIndexed(SetZoneAttr(c, zi, attr, v))
  {
  }

  lemma ReplaceConfigIndexed(p: ParsedForm, ci: int, c: FormConfig)
    requires Indexed(p) && ci in p.configs && ZonesIndexed(c)
    ensures Indexed(p.(configs := p.configs[ci := c]))
  {
  }

  lemma UpdateConfigIndexed(c: FormConfig, parts: seq<string>, value: string)
    requires ZonesIndexed(c)
    ensures ZonesIndexed(UpdateConfig(c, parts, value))
  {
    if |parts| == 5 && parts[2] == "zones" && ParseInt(parts[3]).Some? {
      SetZoneAttrIndexed(c, ParseInt(parts[3]).value, parts[4], Strip(value));
    }
  }

  lemma AddPairIndexed(p: ParsedForm, key: string, value: string)
    requires Indexed(p)
    ensures Indexed(AddPair(p, key, value))
  {
    if StartsWith(key, Prefix) {
      var parts := KeyParts(key);
      if |parts| >= 2 && ParseInt(parts[1]).Some? {
        var ci := ParseInt(parts[1]).value;
        var q := SetDefault(p, ci);
        SetDefaultIndexed(p, ci);
        UpdateConfigIndexed(q.configs[ci], parts, value);
        ReplaceConfigIndexed(q, ci, UpdateConfig(q.configs[ci], parts, value));
      }
    }
  }

  /** The parsed form is a pair of dictionaries keyed by index. */
  lemma {:induction false} ParseFormIndexed(form: seq<(string, string)>)
    ensures Indexed(ParseForm(form))
  {
    if form != [] {
      ParseFormIndexed(form[..|form| - 1]);
      AddPairIndexed(ParseForm(form[..|form| - 1]), form[|form| - 1].0, form[|form| - 1].1);
    }
  }

  /** The parsing loop itself, building the record in place. */
  method ParseFormData(form: seq<(string, string)>) returns (p: ParsedForm)
    ensures p == ParseForm(form)
  {
    p := NoConfigs;
    for n := 0 to |form|
      invariant p == ParseForm(form[..n])
    {
      var (key, value) := form[n];
      assert form[..n + 1][..n] == form[..n];
      assert ParseForm(form[..n + 1]) == AddPair(p, key, value);
      if StartsWith(key, Prefix) {
        var parts := KeyParts(key);
        if |parts| >= 2 {
          var ci := ParseInt(parts[1]);
          if ci.Some? {
            var i := ci.value;
            if i !in p.configs {
              p := ParsedForm(p.configs[i := NoConfig], p.order + [i]);
            }
            ghost var q := p;
            var c := p.configs[i];
            if |parts| == 3 && parts[2] == "id" {
              c := c.(id := Some(value));
            } else if |parts| == 3 && parts[2] == "activity_type" {
              c := c.(activityType := Some(value));
            } else if |parts| == 5 && parts[2] == "zones" {
              var zi := ParseInt(parts[3]);
              if zi.Some? {
                c := SetZoneAttr(c, zi.value, parts[4], Strip(value));
              }
            }
            assert c == UpdateConfig(q.configs[i], parts, value);
            p := p.(configs := p.configs[i := c]);
          }
        }
      }
    }
    assert form[..|form|] == form;
  }

  // ---------------------------------------------------------------------
  // Keys of the expected shape

  /** `[s1][s2]...`. */
  function Brackets(segs: seq<string>): string {
    if segs == [] then "" else "[" + segs[0] + "]" + Brackets(segs[1..])
  }

  /** The form key `configs[s1][s2]...`. */
  function FormKey(segs: seq<string>): string {
    "configs" + Brackets(segs)
  }

  predicate Plain(s: string) {
    '[' !in s && ']' !in s
  }

  /** `[s1[s2...`: the bracketed segments with every `]` removed. */
  function Opened(segs: seq<string>): string {
    if segs == [] then "" else "[" + segs[0] + Opened(segs[1..])
  }

  /** `("[" + s + "]").replace("]", "") == "[" + s` for a plain segment. */
  lemma RemoveBracketed(s: string)
    requires Plain(s)
    ensures RemoveAll("[" + s + "]", ']') == "[" + s
  {
    RemoveAllAppend("[" + s, "]", ']');
    assert ("[" + s)[1..] == s;
    RemoveAllAbsent(s, ']');
  }

  lemma {:induction false} RemoveClosing(segs: seq<string>)
    requires forall i :: 0 <= i < |segs| ==> Plain(segs[i])
    ensures RemoveAll(Brackets(segs), ']') == Opened(segs)
  {
    if segs != [] {
      var s0, rest := segs[0], segs[1..];
      RemoveAllAppend("[" + s0 + "]", Brackets(rest), ']');
      RemoveBracketed(s0);
      RemoveClosing(rest);
    }
  }

  lemma {:induction false} SplitOpened(head: string, segs: seq<string>)
    requires Plain(head) && forall i :: 0 <= i < |segs| ==> Plain(segs[i])
    ensures Split(head + Opened(segs), '[') == [head] + segs
    decreases |segs|
  {
    if segs == [] {
      assert head + Opened(segs) == head;
      SplitAbsent(head, '[');
    } else {
      var s0, rest := segs[0], segs[1..];
      assert head + Opened(segs) == head + "[" + (s0 + Opened(rest));
      SplitAfter(head, s0 + Opened(rest), '[');
      SplitOpened(s0, rest);
      assert [head] + ([s0] + rest) == [head] + segs;
    }
  }

  lemma FormKeyPrefix(segs: seq<string>)
    requires |segs| >= 1
    ensures StartsWith(FormKey(segs), Prefix)
  {
    var tail := segs[0] + "]" + Brackets(segs[1..]);
    assert FormKey(segs) == Prefix + tail;
    assert (Prefix + tail)[..|Prefix|] == Prefix;
  }

  /** A well-shaped key splits into "configs" and its bracketed segments. */
  lemma FormKeyParts(segs: seq<string>)
    requires |segs| >= 1 && forall i :: 0 <= i < |segs| ==> Plain(segs[i])
    ensures StartsWith(FormKey(segs), Prefix)
    ensures KeyParts(FormKey(segs)) == ["configs"] + segs
  {
    FormKeyPrefix(segs);
    RemoveAllAppend("configs", Brackets(segs), ']');
    RemoveAllAbsent("configs", ']');
    RemoveClosing(segs);
    SplitOpened("configs", segs);
  }

  /** The configuration record `ci` of `p`, created if missing, replaced by
      `c`. */
  function Store(p: ParsedForm, ci: int, c: FormConfig): (q: ParsedForm)
    ensures q.configs.Keys == p.configs.Keys + {ci} && q.configs[ci] == c
    ensures forall k :: k in p.configs && k != ci ==> q.configs[k] == p.configs[k]
  {
    var d := SetDefault(p, ci);
    d.(configs := d.configs[ci := c])
  }

  /** Storing record `ci` unchanged is only creating it. */
  lemma StoreSame(p: ParsedForm, ci: int)
    ensures Store(p, ci, SetDefault(p, ci).configs[ci]) == SetDefault(p, ci)
  {
    var d := SetDefault(p, ci);
    assert d.configs[ci := d.configs[ci]] == d.configs;
  }

  /** A key that splits into "configs" and segments whose first is the
      integer `ci` updates record `ci` by the segments. */
  lemma AddPairSegs(p: ParsedForm, key: string, segs: seq<string>, ci: int, v: string)
    requires StartsWith(key, Prefix) && KeyParts(key) == ["configs"] + segs
    requires |segs| >= 1 && ParseInt(segs[0]) == Some(ci)
    ensures AddPair(p, key, v) == Store(p, ci, UpdateConfig(SetDefault(p, ci).configs[ci], ["configs"] + segs, v))
  {
    assert KeyParts(key)[1] == segs[0];
  }

  /** `configs[i][id]` and `configs[i][activity_type]` set that attribute of
      configuration `i` to the raw value and change nothing else. */
  lemma ConfigAttrKey(p: ParsedForm, t: string, i: int, attr: string, v: string)
    requires Plain(t) && ParseInt(t) == Some(i)
    requires attr == "id" || attr == "activity_type"
    ensures var q := AddPair(p, FormKey([t, attr]), v);
      && q.configs.Keys == p.configs.Keys + {i}
      && (attr == "id" ==> q.configs[i].id == Some(v))
      && (attr == "activity_type" ==> q.configs[i].activityType == Some(v))
      && (forall k :: k in p.configs && k != i ==> q.configs[k] == p.configs[k])
  {
    var segs := [t, attr];
    FormKeyParts(segs);
    AddPairSegs(p, FormKey(segs), segs, i, v);
    var parts := ["configs"] + segs;
    assert |parts| == 3 && parts[2] == attr;
  }

  /** Any other three-part key only creates the record of configuration `i`. */
  lemma IgnoredAttrKey(p: ParsedForm, t: string, i: int, attr: string, v: string)
    requires Plain(t) && ParseInt(t) == Some(i)
    requires Plain(attr) && attr != "id" && attr != "activity_type"
    ensures AddPair(p, FormKey([t, attr]), v) == SetDefault(p, i)
  {
    var segs := [t, attr];
    FormKeyParts(segs);
    AddPairSegs(p, FormKey(segs), segs, i, v);
    var parts := ["configs"] + segs;
    assert |parts| == 3 && parts[2] == attr;
    var c := SetDefault(p, i).configs[i];
    assert UpdateConfig(c, parts, v) == c;
    StoreSame(p, i);
  }

  /** `q` is `p` with attribute `attr` of zone `j` of configuration `i` set
      to `w`, and nothing else changed. */
  predicate ZoneAttrSet(p: ParsedForm, q: ParsedForm, i: int, j: int, attr: string, w: string) {
    && q.configs.Keys == p.configs.Keys + {i}
    && j in q.configs[i].zones
    && attr in q.configs[i].zones[j]
    && q.configs[i].zones[j][attr] == w
    && (forall a :: a in q.configs[i].zones[j] && a != attr ==>
          i in p.configs && j in p.configs[i].zones && a in p.configs[i].zones[j]
          && q.configs[i].zones[j][a] == p.configs[i].zones[j][a])
    && (forall k :: k in p.configs && k != i ==> q.configs[k] == p.configs[k])
  }

  /** `configs[i][zones][j][attr]` sets that attribute of zone `j` of
      configuration `i` to the stripped value and changes nothing else. */
  lemma ZoneAttrKey(p: ParsedForm, t: string, i: int, u: string, j: int, attr: string, v: string)
    requires Plain(t) && ParseInt(t) == Some(i)
    requires Plain(u) && ParseInt(u) == Some(j)
    requires Plain(attr)
    ensures ZoneAttrSet(p, AddPair(p, FormKey([t, "zones", u, attr]), v), i, j, attr, Strip(v))
  {
    var segs := [t, "zones", u, attr];
    FormKeyParts(segs);
    AddPairSegs(p, FormKey(segs), segs, i, v);
    var parts := ["configs"] + segs;
    assert |parts| == 5 && parts[2] == "zones" && parts[3] == u && parts[4] == attr;
    var c := SetDefault(p, i).configs[i];
    assert UpdateConfig(c, parts, v) == SetZoneAttr(c, j, attr, Strip(v));
    StoreZoneAttr(p, i, j, attr, Strip(v));
  }

  lemma StoreZoneAttr(p: ParsedForm, i: int, j: int, attr: string, w: string)
    ensures ZoneAttrSet(p, Store(p, i, SetZoneAttr(SetDefault(p, i).configs[i], j, attr, w)), i, j, attr, w)
  {
    var c := SetDefault(p, i).configs[i];
    var c' := SetZoneAttr(c, j, attr, w);
    var q := Store(p, i, c');
    assert q.configs[i] == c';
    var z := c'.zones[j];
    forall a | a in z && a != attr
      ensures i in p.configs && j in p.configs[i].zones && a in p.configs[i].zones[j]
      ensures z[a] == p.configs[i].zones[j][a]
    {
      assert j in c.zones && z == c.zones[j][attr := w];
      assert c == p.configs[i];
    }
  }

  /** A key whose configuration index is not an integer is skipped. */
  lemma BadConfigIndexSkipped(p: ParsedForm, s: string, rest: seq<string>, v: string)
    requires Plain(s) && ParseInt(s).None?
    requires forall i :: 0 <= i < |rest| ==> Plain(rest[i])
    ensures AddPair(p, FormKey([s] + rest), v) == p
  {
    FormKeyParts([s] + rest);
  }

  /** A zone key whose zone index is not an integer still creates the record
      of its configuration, but no zone. */
  lemma BadZoneIndexSkipped(p: ParsedForm, t: string, i: int, s: string, attr: string, v: string)
    requires Plain(t) && ParseInt(t) == Some(i)
    requires Plain(s) && Plain(attr) && ParseInt(s).None?
    ensures AddPair(p, FormKey([t, "zones", s, attr]), v) == SetDefault(p, i)
  {
    var segs := [t, "zones", s, attr];
    FormKeyParts(segs);
    AddPairSegs(p, FormKey(segs), segs, i, v);
    var parts := ["configs"] + segs;
    assert |parts| == 5 && parts[2] == "zones" && parts[3] == s;
    var c := SetDefault(p, i).configs[i];
    assert UpdateConfig(c, parts, v) == c;
    StoreSame(p, i);
  }

  /** Keys outside the `configs[` family are ignored. */
  lemma OtherKeyIgnored(p: ParsedForm, key: string, v: string)
    requires !StartsWith(key, Prefix)
    ensures AddPair(p, key, v) == p
  {
  }

  /** Every `configs[` key splits into at least two parts, so the IndexError
      the source guards against cannot occur. */
  lemma PrefixedKeySplits(key: string)
    requires StartsWith(key, Prefix)
    ensures |KeyParts(key)| >= 2
  {
    var rest := key[|Prefix|..];
    assert key == "configs" + "[" + rest;
    RemoveAllAppend("configs" + "[", rest, ']');
    RemoveAllAbsent("configs" + "[", ']');
    SplitAfter("configs", RemoveAll(rest, ']'), '[');
  }
}
