/** The periodic summary cache of backend/api/models.py: the ActivityZoneTimes
    rows it reads, the filters it builds for a period, the per-zone totals it
    computes, and ZoneSummary.get_or_create_summary over a store of summary rows. */
module ZoneSummaries {
  import opened Wrappers
  import opened Zones
  import opened Sums

  // ---------------------------------------------------------------------------
  // ActivityZoneTimes rows
  // ---------------------------------------------------------------------------

  /** An ActivityZoneTimes row (models.py:295-306). `year`, `month` and
      `isoWeek` are the values the store's `activity_date__year`,
      `activity_date__month` and `activity_date__week` lookups see for the row's
      `activity_date`: the calendar year and month and the ISO week number. */
  datatype ZoneTime = ZoneTime(user: int, activityId: int, zoneName: string, duration: nat,
                               year: int, month: int, isoWeek: int)

  // ---------------------------------------------------------------------------
  // Filters (_construct_activity_filters)
  // ---------------------------------------------------------------------------

  datatype PeriodType = Weekly | Monthly

  /** The keyword filters passed to `ActivityZoneTimes.objects.filter`; an
      absent month or week lookup is `None`. */
  datatype ActivityFilters = ActivityFilters(user: int, year: int, month: Option<int>, week: Option<int>)

  /** Python truthiness of an optional month: `None` and `0` are false. */
  predicate Truthy(v: Option<int>) {
    v.Some? && v.value != 0
  }

  /** `_construct_activity_filters` (models.py:269-284). */
  function ConstructActivityFilters(user: int, year: int, periodType: PeriodType, periodIndex: int,
                                    currentMonthView: Option<int>): ActivityFilters
  {
    match periodType
    case Monthly => ActivityFilters(user, year, Some(periodIndex), None)
    case Weekly =>
      ActivityFilters(user, year, if Truthy(currentMonthView) then currentMonthView else None, Some(periodIndex))
  }

  /** A row satisfies every lookup of the filters. */
  predicate Matches(f: ActivityFilters, r: ZoneTime) {
    r.user == f.user && r.year == f.year
    && (f.month.Some? ==> r.month == f.month.value)
    && (f.week.Some? ==> r.isoWeek == f.week.value)
  }

  /** Which rows a period selects: always the user and calendar year; a month
      summary adds its month; a week summary adds its ISO week and, only when
      the month context is truthy, that month. */
  lemma FiltersSelect(user: int, year: int, periodType: PeriodType, periodIndex: int,
                      currentMonthView: Option<int>, r: ZoneTime)
    ensures Matches(ConstructActivityFilters(user, year, periodType, periodIndex, currentMonthView), r) <==>
      r.user == user && r.year == year
      && (periodType == Monthly ==> r.month == periodIndex)
      && (periodType == Weekly ==> r.isoWeek == periodIndex)
      && (periodType == Weekly && Truthy(currentMonthView) ==> r.month == currentMonthView.value)
  {
  }

  // ---------------------------------------------------------------------------
  // Per-zone totals (_calculate_aggregated_time_in_zones)
  // ---------------------------------------------------------------------------

  /** `Sum("duration_seconds")` over the matching rows named `name`. */
  function ZoneTotal(rs: seq<ZoneTime>, f: ActivityFilters, name: string): nat {
    if rs == [] then 0
    else (if Matches(f, rs[0]) && rs[0].zoneName == name then rs[0].duration else 0) + ZoneTotal(rs[1..], f, name)
  }

  /** The total duration of all matching rows. */
  function MatchingDuration(rs: seq<ZoneTime>, f: ActivityFilters): nat {
    if rs == [] then 0
    else (if Matches(f, rs[0]) then rs[0].duration else 0) + MatchingDuration(rs[1..], f)
  }

  /** `.values("zone_name")`: the zone names of the matching rows, each once, in
      order of first appearance. */
  function Grouped(rs: seq<ZoneTime>, f: ActivityFilters): (g: seq<string>)
    ensures forall n :: n in g <==> exists i :: 0 <= i < |rs| && Matches(f, rs[i]) && rs[i].zoneName == n
    ensures forall i, j :: 0 <= i < j < |g| ==> g[i] != g[j]
  {
    if rs == [] then []
    else
      var g := Grouped(rs[1..], f);
      assert forall i :: 1 <= i < |rs| ==> rs[i] == rs[1..][i - 1];
      assert forall i :: 0 <= i < |rs| - 1 ==> rs[1..][i] == rs[i + 1];
      if Matches(f, rs[0]) && rs[0].zoneName !in g then [rs[0].zoneName] + g else g
  }

  /** A name absent from the matching rows totals zero. */
  lemma {:induction false} ZoneTotalOfAbsent(rs: seq<ZoneTime>, f: ActivityFilters, name: string)
    requires name !in Grouped(rs, f)
    ensures ZoneTotal(rs, f, name) == 0
  {
    if rs != [] {
      ZoneTotalOfAbsent(rs[1..], f, name);
    }
  }

  /** A zone's total is positive exactly when some matching row of that name
      has a positive duration. */
  lemma {:induction false} ZoneTotalPositive(rs: seq<ZoneTime>, f: ActivityFilters, name: string)
    ensures ZoneTotal(rs, f, name) > 0 <==>
      exists i :: 0 <= i < |rs| && Matches(f, rs[i]) && rs[i].zoneName == name && rs[i].duration > 0
  {
    if rs != [] {
      var rest := rs[1..];
      ZoneTotalPositive(rest, f, name);
      if exists i :: 0 <= i < |rest| && Matches(f, rest[i]) && rest[i].zoneName == name && rest[i].duration > 0 {
        var i :| 0 <= i < |rest| && Matches(f, rest[i]) && rest[i].zoneName == name && rest[i].duration > 0;
        assert rs[i + 1] == rest[i];
      }
      if exists i :: 0 <= i < |rs| && Matches(f, rs[i]) && rs[i].zoneName == name && rs[i].duration > 0 {
        var i :| 0 <= i < |rs| && Matches(f, rs[i]) && rs[i].zoneName == name && rs[i].duration > 0;
        if i > 0 {
          assert rest[i - 1] == rs[i];
        }
      }
    }
  }

  predicate Distinct<T(==)>(s: seq<T>) {
    forall i, j :: 0 <= i < j < |s| ==> s[i] != s[j]
  }

  /** The sum of the zone totals of `names`. */
  function SumTotals(names: seq<string>, rs: seq<ZoneTime>, f: ActivityFilters): nat {
    if names == [] then 0 else ZoneTotal(rs, f, names[0]) + SumTotals(names[1..], rs, f)
  }

  /** Over distinct names, one more row in front adds its duration once when it
      matches and its zone is among the names. */
  lemma {:induction false} SumTotalsStep(names: seq<string>, rs: seq<ZoneTime>, f: ActivityFilters)
    requires rs != [] && Distinct(names)
    ensures SumTotals(names, rs, f) ==
      SumTotals(names, rs[1..], f) + (if Matches(f, rs[0]) && rs[0].zoneName in names then rs[0].duration else 0)
  {
    if names != [] {
      SumTotalsStep(names[1..], rs, f);
      assert rs[0].zoneName in names[1..] ==> rs[0].zoneName != names[0];
      assert rs[0].zoneName in names <==> rs[0].zoneName == names[0] || rs[0].zoneName in names[1..];
    }
  }

  /** Summing the zone totals over distinct names that cover every matching row
      gives the duration of all matching rows. */
  lemma {:induction false} SumTotalsCovers(names: seq<string>, rs: seq<ZoneTime>, f: ActivityFilters)
    requires Distinct(names)
    requires forall i :: 0 <= i < |rs| && Matches(f, rs[i]) ==> rs[i].zoneName in names
    ensures SumTotals(names, rs, f) == MatchingDuration(rs, f)
  {
    if rs == [] {
      SumTotalsOfEmpty(names, f);
    } else {
      assert forall i :: 0 <= i < |rs| - 1 ==> rs[1..][i] == rs[i + 1];
      SumTotalsCovers(names, rs[1..], f);
      SumTotalsStep(names, rs, f);
    }
  }

  lemma {:induction false} SumTotalsOfEmpty(names: seq<string>, f: ActivityFilters)
    ensures SumTotals(names, [], f) == 0
  {
    if names != [] {
      SumTotalsOfEmpty(names[1..], f);
    }
  }

  // ---------------------------------------------------------------------------
  // Ordering: order_by("zone_order", "zone_name")
  // ---------------------------------------------------------------------------

  /** The `zone_order` annotation: the `order` of the DEFAULT configuration's
      zone with that name (names are unique within a configuration), or NULL. */
  function ZoneOrder(zs: seq<HeartRateZone>, name: string): (r: Option<int>)
    ensures r.Some? <==> name in Names(zs)
  {
    if zs == [] then None
    else if zs[0].name == name then Some(zs[0].order)
    else
      assert Names(zs) == {zs[0].name} + Names(zs[1..]) by {
        forall n | n in Names(zs) ensures n in {zs[0].name} + Names(zs[1..]) {
          var i :| 0 <= i < |zs| && zs[i].name == n;
          if i > 0 { assert zs[1..][i - 1] == zs[i]; }
        }
      }
      ZoneOrder(zs[1..], name)
  }

  /** Lexicographic order of names by character code, standing in for the
      collation of the database. */
  predicate NameLe(a: string, b: string) {
    a == [] || (b != [] && (a[0] < b[0] || (a[0] == b[0] && NameLe(a[1..], b[1..]))))
  }

  lemma {:induction false} NameLeTotal(a: string, b: string)
    ensures NameLe(a, b) || NameLe(b, a)
  {
    if a != [] && b != [] && a[0] == b[0] {
      NameLeTotal(a[1..], b[1..]);
    }
  }

  lemma {:induction false} NameLeTransitive(a: string, b: string, c: string)
    requires NameLe(a, b) && NameLe(b, c)
    ensures NameLe(a, c)
  {
    if a != [] && b != [] && c != [] && a[0] == b[0] && b[0] == c[0] {
      NameLeTransitive(a[1..], b[1..], c[1..]);
    }
  }

  lemma {:induction false} NameLeAntisymmetric(a: string, b: string)
    requires NameLe(a, b) && NameLe(b, a)
    ensures a == b
  {
    if a != [] && b != [] {
      NameLeAntisymmetric(a[1..], b[1..]);
      assert a == [a[0]] + a[1..] && b == [b[0]] + b[1..];
    }
  }

  /** Where the store puts NULL orders: after every number (`nullsLast`) or
      before. */
  datatype NullPlacement = NullsFirst | NullsLast

  /** `a` may come before `b` under `order_by("zone_order", "zone_name")`. */
  predicate KeyLe(zs: seq<HeartRateZone>, nulls: NullPlacement, a: string, b: string) {
    var oa, ob := ZoneOrder(zs, a), ZoneOrder(zs, b);
    if oa.Some? && ob.Some? then oa.value < ob.value || (oa.value == ob.value && NameLe(a, b))
    else if oa.None? && ob.None? then NameLe(a, b)
    else if nulls == NullsLast then oa.Some?
    else oa.None?
  }

  lemma KeyLeTotal(zs: seq<HeartRateZone>, nulls: NullPlacement, a: string, b: string)
    ensures KeyLe(zs, nulls, a, b) || KeyLe(zs, nulls, b, a)
  {
    NameLeTotal(a, b);
  }

  lemma KeyLeTransitive(zs: seq<HeartRateZone>, nulls: NullPlacement, a: string, b: string, c: string)
    requires KeyLe(zs, nulls, a, b) && KeyLe(zs, nulls, b, c)
    ensures KeyLe(zs, nulls, a, c)
  {
    if NameLe(a, b) && NameLe(b, c) {
      NameLeTransitive(a, b, c);
    }
  }

  predicate SortedByKey(zs: seq<HeartRateZone>, nulls: NullPlacement, s: seq<string>) {
    forall i, j :: 0 <= i < j < |s| ==> KeyLe(zs, nulls, s[i], s[j])
  }

  function InsertByKey(zs: seq<HeartRateZone>, nulls: NullPlacement, n: string, s: seq<string>): seq<string> {
    if s == [] then [n]
    else if KeyLe(zs, nulls, n, s[0]) then [n] + s
    else [s[0]] + InsertByKey(zs, nulls, n, s[1..])
  }

  /** The grouped rows put in `order_by("zone_order", "zone_name")` order. */
  function SortByKey(zs: seq<HeartRateZone>, nulls: NullPlacement, s: seq<string>): seq<string> {
    if s == [] then [] else InsertByKey(zs, nulls, s[0], SortByKey(zs, nulls, s[1..]))
  }

  lemma {:induction false} InsertByKeyMembers(zs: seq<HeartRateZone>, nulls: NullPlacement, n: string, s: seq<string>)
    ensures forall x :: x in InsertByKey(zs, nulls, n, s) <==> x == n || x in s
    ensures |InsertByKey(zs, nulls, n, s)| == |s| + 1
  {
    if s != [] && !KeyLe(zs, nulls, n, s[0]) {
      InsertByKeyMembers(zs, nulls, n, s[1..]);
      assert forall x :: x in s <==> x == s[0] || x in s[1..];
    }
  }

  lemma {:induction false} InsertByKeyDistinct(zs: seq<HeartRateZone>, nulls: NullPlacement, n: string, s: seq<string>)
    requires Distinct(s) && n !in s
    ensures Distinct(InsertByKey(zs, nulls, n, s))
  {
    if s != [] && !KeyLe(zs, nulls, n, s[0]) {
      InsertByKeyDistinct(zs, nulls, n, s[1..]);
      InsertByKeyMembers(zs, nulls, n, s[1..]);
      var r := InsertByKey(zs, nulls, n, s[1..]);
      assert s[0] !in s[1..];
      assert s[0] !in r;
      forall i, j | 0 <= i < j < |[s[0]] + r| ensures ([s[0]] + r)[i] != ([s[0]] + r)[j] {
        if i == 0 { assert ([s[0]] + r)[j] in r; }
      }
    }
  }

  lemma {:induction false} InsertByKeySorted(zs: seq<HeartRateZone>, nulls: NullPlacement, n: string, s: seq<string>)
    requires SortedByKey(zs, nulls, s)
    ensures SortedByKey(zs, nulls, InsertByKey(zs, nulls, n, s))
  {
    if s == [] {
    } else if KeyLe(zs, nulls, n, s[0]) {
      var r := [n] + s;
      forall i, j | 0 <= i < j < |r| ensures KeyLe(zs, nulls, r[i], r[j]) {
        if i == 0 && j > 1 {
          KeyLeTransitive(zs, nulls, n, s[0], s[j - 1]);
        }
      }
    } else {
      KeyLeTotal(zs, nulls, n, s[0]);
      InsertByKeySorted(zs, nulls, n, s[1..]);
      InsertByKeyMembers(zs, nulls, n, s[1..]);
      var t := InsertByKey(zs, nulls, n, s[1..]);
      var r := [s[0]] + t;
      forall i, j | 0 <= i < j < |r| ensures KeyLe(zs, nulls, r[i], r[j]) {
        if i == 0 {
          assert r[j] in t;
          if r[j] != n {
            var k :| 0 <= k < |s[1..]| && s[1..][k] == r[j];
            assert s[k + 1] == r[j];
          }
        }
      }
    }
  }

  lemma {:induction false} InsertByKeySum(zs: seq<HeartRateZone>, nulls: NullPlacement, n: string, s: seq<string>,
                                          rs: seq<ZoneTime>, f: ActivityFilters)
    ensures SumTotals(InsertByKey(zs, nulls, n, s), rs, f) == ZoneTotal(rs, f, n) + SumTotals(s, rs, f)
  {
    if s != [] && !KeyLe(zs, nulls, n, s[0]) {
      InsertByKeySum(zs, nulls, n, s[1..], rs, f);
    }
  }

  /** The sort keeps the names, keeps them distinct and keeps their total, and
      orders them by key. */
  lemma {:induction false} SortByKeyLaws(zs: seq<HeartRateZone>, nulls: NullPlacement, s: seq<string>,
                                         rs: seq<ZoneTime>, f: ActivityFilters)
    ensures forall x :: x in SortByKey(zs, nulls, s) <==> x in s
    ensures Distinct(s) ==> Distinct(SortByKey(zs, nulls, s))
    ensures SortedByKey(zs, nulls, SortByKey(zs, nulls, s))
    ensures SumTotals(SortByKey(zs, nulls, s), rs, f) == SumTotals(s, rs, f)
  {
    if s != [] {
      var t := SortByKey(zs, nulls, s[1..]);
      SortByKeyLaws(zs, nulls, s[1..], rs, f);
      InsertByKeyMembers(zs, nulls, s[0], t);
      assert forall x :: x in s <==> x == s[0] || x in s[1..];
      if Distinct(s) {
        assert s[0] !in s[1..];
        InsertByKeyDistinct(zs, nulls, s[0], t);
      }
      InsertByKeySorted(zs, nulls, s[0], t);
      InsertByKeySum(zs, nulls, s[0], t, rs, f);
    }
  }

  // ---------------------------------------------------------------------------
  // The ordered result and the stored mapping
  // ---------------------------------------------------------------------------

  /** The names whose total is nonzero (`if item["total_duration"]`), in order. */
  function Nonzero(names: seq<string>, rs: seq<ZoneTime>, f: ActivityFilters): (r: seq<string>)
    ensures forall x :: x in r <==> x in names && ZoneTotal(rs, f, x) != 0
  {
    if names == [] then []
    else
      assert forall x :: x in names <==> x == names[0] || x in names[1..];
      (if ZoneTotal(rs, f, names[0]) != 0 then [names[0]] else []) + Nonzero(names[1..], rs, f)
  }

  /** Each name paired with its total. */
  function Listing(names: seq<string>, rs: seq<ZoneTime>, f: ActivityFilters): (l: seq<(string, int)>)
    ensures |l| == |names|
    ensures forall i :: 0 <= i < |l| ==> l[i] == (names[i], ZoneTotal(rs, f, names[i]) as int)
  {
    if names == [] then [] else [(names[0], ZoneTotal(rs, f, names[0]) as int)] + Listing(names[1..], rs, f)
  }

  /** `_calculate_aggregated_time_in_zones` (models.py:236-267): the matching
      rows grouped by zone name and summed, in `order_by("zone_order",
      "zone_name")` order, with zero totals left out. */
  function AggregatedTimeInZones(rs: seq<ZoneTime>, f: ActivityFilters, zs: seq<HeartRateZone>, nulls: NullPlacement)
    : seq<(string, int)>
  {
    Listing(Nonzero(SortByKey(zs, nulls, Grouped(rs, f)), rs, f), rs, f)
  }

  /** A Python dict built from key/value pairs: a later pair for the same key
      wins. */
  function AsDict(l: seq<(string, int)>): (d: map<string, int>)
    ensures forall i :: 0 <= i < |l| ==> l[i].0 in d
    ensures forall k :: k in d ==> exists i :: 0 <= i < |l| && l[i] == (k, d[k])
  {
    if l == [] then map[]
    else
      var d := AsDict(l[1..]);
      assert forall i :: 1 <= i < |l| ==> l[i] == l[1..][i - 1];
      if l[0].0 in d then d else d[l[0].0 := l[0].1]
  }

  /** Dropping the zero totals keeps the names distinct. */
  lemma {:induction false} NonzeroDistinct(names: seq<string>, rs: seq<ZoneTime>, f: ActivityFilters)
    requires Distinct(names)
    ensures Distinct(Nonzero(names, rs, f))
  {
    if names != [] {
      var n, rest := names[0], names[1..];
      var t := Nonzero(rest, rs, f);
      assert Distinct(rest) by {
        forall i, j | 0 <= i < j < |rest| ensures rest[i] != rest[j] {
          assert rest[i] == names[i + 1] && rest[j] == names[j + 1];
        }
      }
      NonzeroDistinct(rest, rs, f);
      if ZoneTotal(rs, f, n) != 0 {
        var r := [n] + t;
        assert n !in rest;
        forall i, j | 0 <= i < j < |r| ensures r[i] != r[j] {
          if i == 0 { assert r[j] in t; } else { assert r[i] == t[i - 1] && r[j] == t[j - 1]; }
        }
      }
    }
  }

  /** Dropping the zero totals keeps the names in key order. */
  lemma {:induction false} NonzeroSorted(zs: seq<HeartRateZone>, nulls: NullPlacement, names: seq<string>,
                                         rs: seq<ZoneTime>, f: ActivityFilters)
    requires SortedByKey(zs, nulls, names)
    ensures SortedByKey(zs, nulls, Nonzero(names, rs, f))
  {
    if names != [] {
      var n, rest := names[0], names[1..];
      var t := Nonzero(rest, rs, f);
      assert SortedByKey(zs, nulls, rest) by {
        forall i, j | 0 <= i < j < |rest| ensures KeyLe(zs, nulls, rest[i], rest[j]) {
          assert rest[i] == names[i + 1] && rest[j] == names[j + 1];
        }
      }
      NonzeroSorted(zs, nulls, rest, rs, f);
      if ZoneTotal(rs, f, n) != 0 {
        var r := [n] + t;
        forall i, j | 0 <= i < j < |r| ensures KeyLe(zs, nulls, r[i], r[j]) {
          if i == 0 {
            assert r[j] in t;
            var k :| 0 <= k < |rest| && rest[k] == r[j];
            assert names[k + 1] == r[j];
          } else {
            assert r[i] == t[i - 1] && r[j] == t[j - 1];
          }
        }
      }
    }
  }

  /** Dropping the zero totals keeps the sum. */
  lemma {:induction false} NonzeroSum(names: seq<string>, rs: seq<ZoneTime>, f: ActivityFilters)
    ensures SumTotals(Nonzero(names, rs, f), rs, f) == SumTotals(names, rs, f)
  {
    if names != [] {
      var t := Nonzero(names[1..], rs, f);
      NonzeroSum(names[1..], rs, f);
      if ZoneTotal(rs, f, names[0]) != 0 {
        assert ([names[0]] + t)[1..] == t;
      } else {
        assert [] + t == t;
      }
    }
  }

  /** The mapping stored from a listing holds exactly its names, each with
      its total. */
  lemma ListingDictKeys(names: seq<string>, rs: seq<ZoneTime>, f: ActivityFilters)
    ensures forall x :: x in AsDict(Listing(names, rs, f)) <==> x in names
    ensures forall x :: x in AsDict(Listing(names, rs, f)) ==> AsDict(Listing(names, rs, f))[x] == ZoneTotal(rs, f, x)
  {
    var l := Listing(names, rs, f);
    var d := AsDict(l);
    forall x ensures x in d <==> x in names {
      if x in d {
        var i :| 0 <= i < |l| && l[i] == (x, d[x]);
      }
      if x in names {
        var i :| 0 <= i < |names| && names[i] == x;
        assert l[i].0 == x;
      }
    }
    forall x | x in d ensures d[x] == ZoneTotal(rs, f, x) {
      var i :| 0 <= i < |l| && l[i] == (x, d[x]);
    }
  }

  /** The values stored from a listing of distinct names add up to their sum. */
  lemma {:induction false} ListingDictSum(names: seq<string>, rs: seq<ZoneTime>, f: ActivityFilters)
    requires Distinct(names)
    ensures SumValues(AsDict(Listing(names, rs, f))) == SumTotals(names, rs, f)
  {
    var l := Listing(names, rs, f);
    if names != [] {
      var n, rest := names[0], names[1..];
      ListingDictSum(rest, rs, f);
      ListingDictKeys(rest, rs, f);
      assert l[1..] == Listing(rest, rs, f);
      var d' := AsDict(l[1..]);
      assert n !in rest;
      assert n !in d';
      assert AsDict(l) == d'[n := ZoneTotal(rs, f, n)];
      SumValuesUpdate(d', n, ZoneTotal(rs, f, n));
    } else {
      assert AsDict(l) == map[];
    }
  }

  /** The mapping stored from a listing of distinct names holds exactly those
      names with their totals, and its values add up to their sum. */
  lemma ListingDict(names: seq<string>, rs: seq<ZoneTime>, f: ActivityFilters)
    requires Distinct(names)
    ensures forall x :: x in AsDict(Listing(names, rs, f)) <==> x in names
    ensures forall x :: x in AsDict(Listing(names, rs, f)) ==> AsDict(Listing(names, rs, f))[x] == ZoneTotal(rs, f, x)
    ensures SumValues(AsDict(Listing(names, rs, f))) == SumTotals(names, rs, f)
  {
    ListingDictKeys(names, rs, f);
    ListingDictSum(names, rs, f);
  }

  /** The names the aggregation lists, with the laws of every stage. */
  lemma ListedNames(rs: seq<ZoneTime>, f: ActivityFilters, zs: seq<HeartRateZone>, nulls: NullPlacement)
    ensures var k := Nonzero(SortByKey(zs, nulls, Grouped(rs, f)), rs, f);
      Distinct(k) && SortedByKey(zs, nulls, k)
      && (forall x :: x in k <==> ZoneTotal(rs, f, x) > 0)
      && SumTotals(k, rs, f) == MatchingDuration(rs, f)
  {
    var g := Grouped(rs, f);
    var s := SortByKey(zs, nulls, g);
    SortByKeyLaws(zs, nulls, g, rs, f);
    NonzeroDistinct(s, rs, f);
    NonzeroSorted(zs, nulls, s, rs, f);
    NonzeroSum(s, rs, f);
    forall x | ZoneTotal(rs, f, x) > 0 ensures x in g {
      if x !in g { ZoneTotalOfAbsent(rs, f, x); }
    }
    SumTotalsCovers(g, rs, f);
  }

  /** What the aggregation returns: every zone with a nonzero total over the
      matching rows, once, paired with that total, in `order_by("zone_order",
      "zone_name")` order. */
  lemma AggregatedTimeInZonesSpec(rs: seq<ZoneTime>, f: ActivityFilters, zs: seq<HeartRateZone>, nulls: NullPlacement)
    ensures var l := AggregatedTimeInZones(rs, f, zs, nulls);
      (forall i :: 0 <= i < |l| ==> l[i].1 == ZoneTotal(rs, f, l[i].0) > 0)
      && (forall i, j :: 0 <= i < j < |l| ==> l[i].0 != l[j].0 && KeyLe(zs, nulls, l[i].0, l[j].0))
      && (forall n :: ZoneTotal(rs, f, n) > 0 ==> exists i :: 0 <= i < |l| && l[i].0 == n)
  {
    ListedNames(rs, f, zs, nulls);
    ListingOfListed(Nonzero(SortByKey(zs, nulls, Grouped(rs, f)), rs, f), rs, f, zs, nulls);
  }

  /** Listing distinct names in key order, exactly those with a positive
      total, pairs each with its total and leaves none out. */
  lemma ListingOfListed(k: seq<string>, rs: seq<ZoneTime>, f: ActivityFilters, zs: seq<HeartRateZone>, nulls: NullPlacement)
    requires Distinct(k) && SortedByKey(zs, nulls, k)
    requires forall x :: x in k <==> ZoneTotal(rs, f, x) > 0
    ensures var l := Listing(k, rs, f);
      (forall i :: 0 <= i < |l| ==> l[i].1 == ZoneTotal(rs, f, l[i].0) > 0)
      && (forall i, j :: 0 <= i < j < |l| ==> l[i].0 != l[j].0 && KeyLe(zs, nulls, l[i].0, l[j].0))
      && (forall n :: ZoneTotal(rs, f, n) > 0 ==> exists i :: 0 <= i < |l| && l[i].0 == n)
  {
    var l := Listing(k, rs, f);
    assert forall i :: 0 <= i < |l| ==> l[i].0 == k[i];
    ListingPositive(k, rs, f);
    forall n | ZoneTotal(rs, f, n) > 0 ensures exists i :: 0 <= i < |l| && l[i].0 == n {
      ListingCovers(k, rs, f, n);
    }
  }

  lemma ListingPositive(k: seq<string>, rs: seq<ZoneTime>, f: ActivityFilters)
    requires forall x :: x in k ==> ZoneTotal(rs, f, x) > 0
    ensures var l := Listing(k, rs, f);
      forall i :: 0 <= i < |l| ==> l[i].1 == ZoneTotal(rs, f, l[i].0) > 0
  {
    var l := Listing(k, rs, f);
    forall i | 0 <= i < |l| ensures l[i].1 == ZoneTotal(rs, f, l[i].0) > 0 {
      assert l[i].0 == k[i] && k[i] in k;
    }
  }

  lemma ListingCovers(k: seq<string>, rs: seq<ZoneTime>, f: ActivityFilters, n: string)
    requires n in k
    ensures exists i :: 0 <= i < |Listing(k, rs, f)| && Listing(k, rs, f)[i].0 == n
  {
    var i :| 0 <= i < |k| && k[i] == n;
    assert Listing(k, rs, f)[i].0 == n;
  }

  /** `time_in_zones` as the JSON mapping stored in `zone_times_seconds`. */
  function TimeInZones(rs: seq<ZoneTime>, f: ActivityFilters, zs: seq<HeartRateZone>, nulls: NullPlacement)
    : map<string, int>
  {
    AsDict(AggregatedTimeInZones(rs, f, zs, nulls))
  }

  /** The stored mapping holds a zone exactly when a matching row of that zone
      has a positive duration, with the zone's total; so it does not depend on
      the DEFAULT configuration or the store's NULL placement, and no zone is
      stored with zero time. */
  lemma TimeInZonesSpec(rs: seq<ZoneTime>, f: ActivityFilters, zs: seq<HeartRateZone>, nulls: NullPlacement, name: string)
    ensures name in TimeInZones(rs, f, zs, nulls) <==>
      exists i :: 0 <= i < |rs| && Matches(f, rs[i]) && rs[i].zoneName == name && rs[i].duration > 0
    ensures name in TimeInZones(rs, f, zs, nulls) ==> TimeInZones(rs, f, zs, nulls)[name] == ZoneTotal(rs, f, name) > 0
  {
    ListedNames(rs, f, zs, nulls);
    ListingDict(Nonzero(SortByKey(zs, nulls, Grouped(rs, f)), rs, f), rs, f);
    ZoneTotalPositive(rs, f, name);
  }

  /** Conservation: the stored values add up to the duration of all matching
      rows, so leaving out zero totals loses no time. */
  lemma TimeInZonesConserves(rs: seq<ZoneTime>, f: ActivityFilters, zs: seq<HeartRateZone>, nulls: NullPlacement)
    ensures SumValues(TimeInZones(rs, f, zs, nulls)) == MatchingDuration(rs, f)
  {
    ListedNames(rs, f, zs, nulls);
    ListingDict(Nonzero(SortByKey(zs, nulls, Grouped(rs, f)), rs, f), rs, f);
  }

  /** A week that straddles months `a` and `b`: each zone's total without a
      month context is the sum of its totals in the two month contexts. */
  lemma {:induction false} WeekSplitsByMonth(rs: seq<ZoneTime>, user: int, year: int, week: int, a: int, b: int, name: string)
    requires a != 0 && b != 0 && a != b
    requires forall i :: 0 <= i < |rs| && Matches(ConstructActivityFilters(user, year, Weekly, week, None), rs[i]) ==>
      rs[i].month == a || rs[i].month == b
    ensures ZoneTotal(rs, ConstructActivityFilters(user, year, Weekly, week, None), name) ==
      ZoneTotal(rs, ConstructActivityFilters(user, year, Weekly, week, Some(a)), name)
      + ZoneTotal(rs, ConstructActivityFilters(user, year, Weekly, week, Some(b)), name)
  {
    if rs != [] {
      assert forall i :: 0 <= i < |rs| - 1 ==> rs[1..][i] == rs[i + 1];
      WeekSplitsByMonth(rs[1..], user, year, week, a, b, name);
    }
  }

  // ---------------------------------------------------------------------------
  // The summary store (ZoneSummary.get_or_create_summary)
  // ---------------------------------------------------------------------------

  /** The unique key ("user", "period_type", "year", "period_index") of
      ZoneSummary (models.py:166). */
  datatype SummaryKey = SummaryKey(user: int, periodType: PeriodType, year: int, periodIndex: int)

  /** The ValueError raised when the user has no DEFAULT configuration. */
  datatype SummaryError = DefaultConfigMissing

  /** One call's outcome: the returned mapping and `created` flag (or the
      error), whether `save()` ran, and the summary rows afterwards. */
  datatype SummaryOutcome = SummaryOutcome(result: Result<(map<string, int>, bool), SummaryError>,
                                           saved: bool, rows: map<SummaryKey, map<string, int>>)

  /** The filters a summary key selects with. */
  function KeyFilters(key: SummaryKey, currentMonthView: Option<int>): ActivityFilters {
    ConstructActivityFilters(key.user, key.year, key.periodType, key.periodIndex, currentMonthView)
  }

  /** The row handling of `get_or_create_summary`: get or create the row with
      `{}`, then, given the computed mapping (`None` when the DEFAULT
      configuration is missing), store it if the row is new or differs. */
  function Refresh(rows: map<SummaryKey, map<string, int>>, key: SummaryKey, computed: Option<map<string, int>>)
    : SummaryOutcome
  {
    var created := key !in rows;
    var rows1 := if created then rows[key := map[]] else rows;
    match computed
    case None => SummaryOutcome(Err(DefaultConfigMissing), false, rows1)
    case Some(t) =>
      if created || rows1[key] != t then SummaryOutcome(Ok((t, created)), true, rows1[key := t])
      else SummaryOutcome(Ok((rows1[key], created)), false, rows1)
  }

  /** `get_or_create_summary` (models.py:171-234) on the summary rows `rows`,
      given the activity rows `rs`, the zones of the user's DEFAULT
      configuration (`None` when it does not exist) and the store's NULL
      placement. */
  function SummaryOutcomeOf(rows: map<SummaryKey, map<string, int>>, key: SummaryKey, currentMonthView: Option<int>,
                            rs: seq<ZoneTime>, defaultConfig: Option<seq<HeartRateZone>>, nulls: NullPlacement)
    : SummaryOutcome
  {
    Refresh(rows, key, if defaultConfig.None? then None
                       else Some(TimeInZones(rs, KeyFilters(key, currentMonthView), defaultConfig.value, nulls)))
  }

  /** A store of ZoneSummary rows, one per key. */
  class SummaryStore {
    var rows: map<SummaryKey, map<string, int>>

    constructor ()
      ensures rows == map[]
    {
      rows := map[];
    }

    /** `ZoneSummary.get_or_create_summary` (models.py:171-234). */
    method GetOrCreateSummary(key: SummaryKey, currentMonthView: Option<int>, rs: seq<ZoneTime>,
                              defaultConfig: Option<seq<HeartRateZone>>, nulls: NullPlacement)
      returns (result: Result<(map<string, int>, bool), SummaryError>, saved: bool)
      modifies this
      ensures var o := SummaryOutcomeOf(old(rows), key, currentMonthView, rs, defaultConfig, nulls);
        result == o.result && saved == o.saved && rows == o.rows
    {
      var created := false;
      if key !in rows {
        rows := rows[key := map[]];
        created := true;
      }
      var f := KeyFilters(key, currentMonthView);
      if defaultConfig.None? {
        return Err(DefaultConfigMissing), false;
      }
      var t := TimeInZones(rs, f, defaultConfig.value, nulls);
      saved := false;
      if created || rows[key] != t {
        rows := rows[key := t];
        saved := true;
      }
      result := Ok((rows[key], created));
    }
  }

  /** A successful refresh stores the computed mapping under its key and
      leaves every other row alone; `created` is true exactly when the key was
      new, and `save()` runs exactly when the row is new or its mapping
      changed. */
  lemma RefreshStores(rows: map<SummaryKey, map<string, int>>, key: SummaryKey, t: map<string, int>)
    ensures var o := Refresh(rows, key, Some(t));
      o.result == Ok((t, key !in rows)) && o.rows == rows[key := t]
      && (o.saved <==> key !in rows || rows[key] != t)
  {
  }

  /** A successful call stores the freshly computed mapping (see
      TimeInZonesSpec) under its key, as RefreshStores describes. */
  lemma SummaryStoresComputed(rows: map<SummaryKey, map<string, int>>, key: SummaryKey, currentMonthView: Option<int>,
                              rs: seq<ZoneTime>, zs: seq<HeartRateZone>, nulls: NullPlacement)
    ensures var o := SummaryOutcomeOf(rows, key, currentMonthView, rs, Some(zs), nulls);
      var t := TimeInZones(rs, KeyFilters(key, currentMonthView), zs, nulls);
      o.result == Ok((t, key !in rows)) && o.rows == rows[key := t]
      && (o.saved <==> key !in rows || rows[key] != t)
  {
    RefreshStores(rows, key, TimeInZones(rs, KeyFilters(key, currentMonthView), zs, nulls));
  }

  /** Refreshing again with the same mapping finds the row, reports `created`
      false and writes nothing. */
  lemma RefreshIdempotent(rows: map<SummaryKey, map<string, int>>, key: SummaryKey, t: map<string, int>)
    ensures var o1 := Refresh(rows, key, Some(t));
      var o2 := Refresh(o1.rows, key, Some(t));
      o2.result == Ok((t, false)) && !o2.saved && o2.rows == o1.rows
  {
    RefreshStores(rows, key, t);
  }

  /** Repeating a successful call with unchanged activity rows finds the row,
      reports `created` false and writes nothing. */
  lemma RepeatCallWritesNothing(rows: map<SummaryKey, map<string, int>>, key: SummaryKey, currentMonthView: Option<int>,
                                rs: seq<ZoneTime>, zs: seq<HeartRateZone>, nulls: NullPlacement)
    ensures var o1 := SummaryOutcomeOf(rows, key, currentMonthView, rs, Some(zs), nulls);
      var o2 := SummaryOutcomeOf(o1.rows, key, currentMonthView, rs, Some(zs), nulls);
      o2.result == o1.result.(value := (o1.result.value.0, false)) && !o2.saved && o2.rows == o1.rows
  {
    var t := TimeInZones(rs, KeyFilters(key, currentMonthView), zs, nulls);
    RefreshStores(rows, key, t);
    RefreshIdempotent(rows, key, t);
  }

  /** Without a DEFAULT configuration the call fails with ValueError, but only
      after the row was fetched or created: a new key is left holding `{}`,
      and a later call for it is not a creation. */
  lemma MissingDefaultLeavesEmptyRow(rows: map<SummaryKey, map<string, int>>, key: SummaryKey, currentMonthView: Option<int>,
                                     rs: seq<ZoneTime>, nulls: NullPlacement)
    ensures var o := SummaryOutcomeOf(rows, key, currentMonthView, rs, None, nulls);
      o.result == Err(DefaultConfigMissing) && !o.saved
      && o.rows == (if key in rows then rows else rows[key := map[]])
      && key in o.rows
  {
  }

  /** Refreshing a row with a second mapping keeps the row (not a creation),
      leaves it holding the second mapping, and writes exactly when the two
      mappings differ. */
  lemma RefreshReplaces(rows: map<SummaryKey, map<string, int>>, key: SummaryKey, ta: map<string, int>, tb: map<string, int>)
    ensures var o1 := Refresh(rows, key, Some(ta));
      var o2 := Refresh(o1.rows, key, Some(tb));
      o2.result == Ok((tb, false)) && o2.rows == rows[key := tb] && (o2.saved <==> ta != tb)
  {
    RefreshStores(rows, key, ta);
    RefreshStores(rows[key := ta], key, tb);
    assert rows[key := ta][key := tb] == rows[key := tb];
  }

  /** A week summary recomputed under another month context is the same row,
      now holding the new context's mapping; `save()` runs exactly when the two
      contexts' mappings differ. */
  lemma ContextChangeOverwrites(rows: map<SummaryKey, map<string, int>>, user: int, year: int, week: int,
                                a: Option<int>, b: Option<int>, rs: seq<ZoneTime>, zs: seq<HeartRateZone>, nulls: NullPlacement)
    ensures var key := SummaryKey(user, Weekly, year, week);
      var o1 := SummaryOutcomeOf(rows, key, a, rs, Some(zs), nulls);
      var o2 := SummaryOutcomeOf(o1.rows, key, b, rs, Some(zs), nulls);
      var ta := TimeInZones(rs, KeyFilters(key, a), zs, nulls);
      var tb := TimeInZones(rs, KeyFilters(key, b), zs, nulls);
      o2.result == Ok((tb, false)) && o2.rows == rows[key := tb] && (o2.saved <==> ta != tb)
  {
    var key := SummaryKey(user, Weekly, year, week);
    RefreshReplaces(rows, key, TimeInZones(rs, KeyFilters(key, a), zs, nulls), TimeInZones(rs, KeyFilters(key, b), zs, nulls));
  }

  /** The positive-duration matching rows of a two-row table, by name. */
  lemma TwoRows(rs: seq<ZoneTime>, f: ActivityFilters, n: string)
    requires |rs| == 2
    ensures ZoneTotal(rs, f, n) ==
      (if Matches(f, rs[0]) && rs[0].zoneName == n then rs[0].duration else 0)
      + (if Matches(f, rs[1]) && rs[1].zoneName == n then rs[1].duration else 0)
    ensures (exists i :: 0 <= i < |rs| && Matches(f, rs[i]) && rs[i].zoneName == n && rs[i].duration > 0) <==>
      (Matches(f, rs[0]) && rs[0].zoneName == n && rs[0].duration > 0)
      || (Matches(f, rs[1]) && rs[1].zoneName == n && rs[1].duration > 0)
  {
    var tail := rs[1..];
    assert tail[1..] == [] && tail[0] == rs[1];
    assert ZoneTotal(tail, f, n) == (if Matches(f, rs[1]) && rs[1].zoneName == n then rs[1].duration else 0);
  }

  /** A map with exactly the keys `a` and `b` is the display of its two entries. */
  lemma TwoEntries(t: map<string, int>, a: string, x: int, b: string, y: int)
    requires a != b && (forall n :: n in t <==> n == a || n == b) && a in t && t[a] == x && b in t && t[b] == y
    ensures t == map[a := x, b := y]
  {
  }

  /** ISO week 5 of 2024 runs from 29 January to 4 February. With one January
      and one February row in it, the January context stores only the January
      zone. */
  lemma WeekFiveOf2024January(rs: seq<ZoneTime>, user: int, zs: seq<HeartRateZone>, nulls: NullPlacement)
    requires rs == [ZoneTime(user, 1, "Z1 Jan", 100, 2024, 1, 5), ZoneTime(user, 2, "Z1 Feb", 200, 2024, 2, 5)]
    ensures TimeInZones(rs, ConstructActivityFilters(user, 2024, Weekly, 5, Some(1)), zs, nulls) == map["Z1 Jan" := 100]
  {
    var f := ConstructActivityFilters(user, 2024, Weekly, 5, Some(1));
    var t := TimeInZones(rs, f, zs, nulls);
    assert Matches(f, rs[0]) && !Matches(f, rs[1]);
    forall n ensures n in t <==> n == "Z1 Jan" {
      TimeInZonesSpec(rs, f, zs, nulls, n);
      TwoRows(rs, f, n);
    }
    TimeInZonesSpec(rs, f, zs, nulls, "Z1 Jan");
    TwoRows(rs, f, "Z1 Jan");
  }

  /** Without a month context the same week stores both zones. */
  lemma WeekFiveOf2024NoContext(rs: seq<ZoneTime>, user: int, zs: seq<HeartRateZone>, nulls: NullPlacement)
    requires rs == [ZoneTime(user, 1, "Z1 Jan", 100, 2024, 1, 5), ZoneTime(user, 2, "Z1 Feb", 200, 2024, 2, 5)]
    ensures TimeInZones(rs, ConstructActivityFilters(user, 2024, Weekly, 5, None), zs, nulls)
         == map["Z1 Jan" := 100, "Z1 Feb" := 200]
  {
    var f := ConstructActivityFilters(user, 2024, Weekly, 5, None);
    var t := TimeInZones(rs, f, zs, nulls);
    assert Matches(f, rs[0]) && Matches(f, rs[1]);
    assert "Z1 Jan" != "Z1 Feb";
    forall n ensures n in t <==> n == "Z1 Jan" || n == "Z1 Feb" {
      TimeInZonesSpec(rs, f, zs, nulls, n);
      TwoRows(rs, f, n);
    }
    TimeInZonesSpec(rs, f, zs, nulls, "Z1 Jan");
    TwoRows(rs, f, "Z1 Jan");
    TimeInZonesSpec(rs, f, zs, nulls, "Z1 Feb");
    TwoRows(rs, f, "Z1 Feb");
    TwoEntries(t, "Z1 Jan", 100, "Z1 Feb", 200);
  }
}
