/** The zone entities of backend/api/models.py: activity types, heart-rate zones
    with their write-time validation, and a zone configuration as the
    heart-rate engine sees it. */
module Zones {
  import opened Wrappers

  /** ActivityType (models.py:95-98). */
  datatype ActivityType = Default | Run | Ride {
    /** The stored string value of the choice. */
    function Value(): string {
      match this
      case Default => "DEFAULT"
      case Run => "RUN"
      case Ride => "RIDE"
    }
  }

  /** `ActivityType(s)`: the enum member whose value is `s`, or the ValueError
      Python raises for any other string (case-sensitive). */
  function ParseActivityType(s: string): (r: Option<ActivityType>)
    ensures r.Some? <==> s in {"DEFAULT", "RUN", "RIDE"}
    ensures r.Some? ==> r.value.Value() == s
  {
    if s == "DEFAULT" then Some(Default)
    else if s == "RUN" then Some(Run)
    else if s == "RIDE" then Some(Ride)
    else None
  }

  lemma {:induction false} ParseActivityTypeRoundTrip(t: ActivityType)
    ensures ParseActivityType(t.Value()) == Some(t)
  {
    match t
    case Default =>
    case Run => assert "RUN" != "DEFAULT";
    case Ride => assert "RIDE" != "DEFAULT" && "RIDE" != "RUN";
  }

  /** A stored heart-rate bound. The columns are integers; `NotInt` stands for
      any other value (a null in an unsaved instance, or a non-integer object
      handed to the engine), which the engine must tolerate. */
  datatype Bound = Int(value: int) | NotInt

  /** HeartRateZone (models.py:119-144). `id` is the integer value of the row's
      UUID primary key. */
  datatype HeartRateZone = HeartRateZone(id: int, name: string, minHr: Bound, maxHr: Bound, order: int)

  /** A zone whose bounds are integers with `min_hr <= max_hr`. */
  predicate WellFormed(z: HeartRateZone) {
    z.minHr.Int? && z.maxHr.Int? && z.minHr.value <= z.maxHr.value
  }

  /** A well-formed zone whose inclusive range holds `hr`. */
  predicate Contains(z: HeartRateZone, hr: int) {
    WellFormed(z) && z.minHr.value <= hr <= z.maxHr.value
  }

  datatype ValidationError = MinAboveMax

  /** HeartRateZone.clean (models.py:141-144): rejects a zone whose present
      bounds satisfy `min_hr > max_hr`; accepts everything else. Here a
      `NotInt` bound is read as a null; a bound that is neither null nor an
      integer would make the comparison raise TypeError, which this function
      does not represent. */
  function Clean(z: HeartRateZone): (r: Result<(), ValidationError>)
    ensures r.Err? <==> (z.minHr.Int? && z.maxHr.Int? && z.minHr.value > z.maxHr.value)
  {
    if z.minHr.Int? && z.maxHr.Int? && z.minHr.value > z.maxHr.value then Err(MinAboveMax)
    else Ok(())
  }

  /** A zone with integer bounds passes `clean` exactly when the engine treats it
      as well formed, so every validated zone is matchable; equal bounds pass. */
  lemma CleanAgreesWithEngine(z: HeartRateZone)
    requires z.minHr.Int? && z.maxHr.Int?
    ensures Clean(z).Ok? <==> WellFormed(z)
    ensures z.minHr == z.maxHr ==> Clean(z).Ok? && Contains(z, z.minHr.value)
  {
  }

  /** A failure of the store while reading a configuration's zones. */
  datatype StoreError = StoreError

  /** A CustomZonesConfig as the heart-rate engine sees it: its activity-type
      string and the outcome of reading its zones (in storage order). */
  datatype ZonesConfig = ZonesConfig(activityType: string, zones: Result<seq<HeartRateZone>, StoreError>)

  /** The names of a sequence of zones. */
  function Names(zs: seq<HeartRateZone>): (r: set<string>)
    ensures forall i :: 0 <= i < |zs| ==> zs[i].name in r
    ensures forall n :: n in r ==> exists i :: 0 <= i < |zs| && zs[i].name == n
  {
    set i | 0 <= i < |zs| :: zs[i].name
  }

  /** The unique constraint ("config", "name") of HeartRateZone. */
  predicate DistinctNames(zs: seq<HeartRateZone>) {
    forall i, j :: 0 <= i < j < |zs| ==> zs[i].name != zs[j].name
  }
}
