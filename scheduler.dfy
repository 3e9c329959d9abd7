/** The activity-queue state machine of backend/api/scheduler.py: each run
    takes the queue entry with the oldest `updated_at`, runs one worker batch
    for its user, then deletes the entry, advances its cursor or only touches
    it, and refreshes the affected zone summaries. The clock, the worker and
    the conversion of timestamps to local calendar months are inputs. */
module Scheduler {
  import opened Wrappers
  import opened Zones
  import ZS = ZoneSummaries
  import IW = IsoWeeks
  import W = Worker

  /** An ActivityProcessingQueue row (models.py:327-352): the start of the
      last processed activity (the cursor), `num_processed` and `updated_at`,
      as whole seconds. */
  datatype QueueEntry = QueueEntry(lastProcessed: int, numProcessed: int, updatedAt: int)

  /** A calendar month of a Python `datetime`. */
  datatype CalendarMonth = CalendarMonth(year: int, month: int)
  type Month = m: CalendarMonth | 1 <= m.year <= 9999 && 1 <= m.month <= 12 witness CalendarMonth(2000, 1)

  /** What the worker batch did: it raised, or it returned the triple of
      `process_user_activities`. */
  datatype BatchOutcome = Raised | Returned(last: Option<int>, more: bool, count: int)

  /** The worker batch for a user and an `after_timestamp`, an input. */
  type WorkerRun = (int, int) -> BatchOutcome

  /** `datetime.fromtimestamp`: the local calendar month of a timestamp, an
      input. */
  type LocalMonth = int -> Month

  /** The scheduler's view of the worker's return: an error is an exception. */
  function FromWorker(r: Result<(Option<int>, bool, nat), W.WorkerError>): BatchOutcome {
    match r
    case Err(_) => Raised
    case Ok((last, more, count)) => Returned(last, more, count)
  }

  /** Python truthiness of the returned timestamp: `None` and 0 are false. */
  predicate TimestampTruthy(t: Option<int>) {
    t.Some? && t.value != 0
  }

  // ---------------------------------------------------------------------------
  // Picking the entry
  // ---------------------------------------------------------------------------

  /** `u` is a first entry of `order_by("updated_at")`. */
  predicate Oldest(queue: map<int, QueueEntry>, u: int) {
    u in queue && forall v :: v in queue ==> queue[u].updatedAt <= queue[v].updatedAt
  }

  /** Some member of a non-empty set. */
  lemma Pick<T>(s: set<T>) returns (x: T)
    requires s != {}
    ensures x in s
  {
    x :| x in s;
  }

  /** Every non-empty set of entries has one whose `updated_at` is smallest;
      `x` is any member of the set. */
  lemma {:induction false} OldestIn(queue: map<int, QueueEntry>, s: set<int>, x: int) returns (u: int)
    requires x in s && s <= queue.Keys
    ensures u in s && forall v :: v in s ==> queue[u].updatedAt <= queue[v].updatedAt
    decreases |s|
  {
    var rest := s - {x};
    if rest == {} {
      u := x;
    } else {
      var y := Pick(rest);
      var best := OldestIn(queue, rest, y);
      u := if queue[x].updatedAt <= queue[best].updatedAt then x else best;
    }
  }

  /** A non-empty queue has an oldest entry. */
  lemma OldestExists(queue: map<int, QueueEntry>)
    requires queue != map[]
    ensures exists u :: Oldest(queue, u)
  {
    assert queue.Keys != {} by {
      assert forall k :: k in queue <==> k in queue.Keys;
    }
    var x := Pick(queue.Keys);
    var u := OldestIn(queue, queue.Keys, x);
    assert Oldest(queue, u);
  }

  // ---------------------------------------------------------------------------
  // The queue after a run
  // ---------------------------------------------------------------------------

  /** The queue after processing entry `u` (scheduler.py:49-117). */
  function QueueAfter(queue: map<int, QueueEntry>, u: int, outcome: BatchOutcome, now: int): map<int, QueueEntry>
    requires u in queue
  {
    var e := queue[u];
    match outcome
    case Raised => queue[u := e.(updatedAt := now)]
    case Returned(last, more, count) =>
      if !more then queue - {u}
      else if TimestampTruthy(last) then
        queue[u := QueueEntry(last.value, if count > 0 then e.numProcessed + count else e.numProcessed, now)]
      else queue
  }

  /** The transitions of the picked entry: a raising worker only touches
      `updated_at`; a finished user leaves the queue; a batch that reports a
      timestamp moves the cursor there, adds a positive count to
      `num_processed` and touches `updated_at`; a batch with more activities
      but no timestamp leaves the queue as it was. */
  lemma QueueAfterPicked(queue: map<int, QueueEntry>, u: int, outcome: BatchOutcome, now: int)
    requires u in queue
    ensures var r := QueueAfter(queue, u, outcome, now);
      (outcome.Raised? ==> u in r && r[u] == queue[u].(updatedAt := now))
      && (outcome.Returned? && !outcome.more ==> u !in r)
      && (outcome.Returned? && outcome.more && TimestampTruthy(outcome.last) ==>
            u in r && r[u].lastProcessed == outcome.last.value && r[u].updatedAt == now
            && r[u].numProcessed - queue[u].numProcessed == (if outcome.count > 0 then outcome.count else 0))
      && (outcome.Returned? && outcome.more && !TimestampTruthy(outcome.last) ==> r == queue)
  {
  }

  /** Only the picked entry changes, and entries never appear. */
  lemma QueueAfterFrame(queue: map<int, QueueEntry>, u: int, outcome: BatchOutcome, now: int)
    requires u in queue
    ensures var r := QueueAfter(queue, u, outcome, now);
      r.Keys == (if outcome.Returned? && !outcome.more then queue.Keys - {u} else queue.Keys)
      && forall v :: v in r && v != u ==> r[v] == queue[v]
  {
  }

  /** `num_processed` never decreases. */
  lemma NumProcessedMonotone(queue: map<int, QueueEntry>, u: int, outcome: BatchOutcome, now: int)
    requires u in queue
    ensures var r := QueueAfter(queue, u, outcome, now);
      forall v :: v in r ==> v in queue && r[v].numProcessed >= queue[v].numProcessed
  {
  }

  /** When the clock has not gone backwards, an entry that raised or advanced
      goes to the back of the queue: no entry was touched later. */
  lemma MovesToBack(queue: map<int, QueueEntry>, u: int, outcome: BatchOutcome, now: int)
    requires u in queue
    requires forall v :: v in queue ==> queue[v].updatedAt <= now
    requires outcome.Raised? || (outcome.more && TimestampTruthy(outcome.last))
    ensures var r := QueueAfter(queue, u, outcome, now);
      u in r && forall v :: v in r ==> r[v].updatedAt <= r[u].updatedAt
  {
  }

  /** A full batch in which no activity reaches storage and no summary is
      unreadable returns no timestamp, so the queue stays as it was and the
      next run fetches the same batch again. */
  lemma SkippedFullBatchKeepsQueue(queue: map<int, QueueEntry>, u: int, now: int,
                                   rows: map<W.ZoneTimeKey, W.ZoneTimeValue>, configs: map<ActivityType, ZonesConfig>,
                                   acts: seq<W.Activity>, limit: int, calculate: W.Calculator)
    requires u in queue
    requires Default in configs && acts != [] && |acts| == limit
    requires forall i :: 0 <= i < |acts| ==> !W.Reaches(acts[i]) && !W.Unreadable(acts[i])
    ensures var outcome := FromWorker(W.ProcessOutcome(rows, u, configs, Ok(acts), limit, calculate).0);
      outcome == Returned(None, true, 0) && QueueAfter(queue, u, outcome, now) == queue
  {
    W.AllSkippedBatch(rows, u, configs, acts, limit, calculate);
  }

  // ---------------------------------------------------------------------------
  // Zone-summary refreshes
  // ---------------------------------------------------------------------------

  /** The months whose summaries a run refreshes, in order: the local month of
      a truthy returned timestamp, then, when the user is finished, the current
      month unless it is that same month (scheduler.py:60-86). */
  function MonthsRefreshed(outcome: BatchOutcome, localMonth: LocalMonth, currentMonth: Month): seq<Month> {
    match outcome
    case Raised => []
    case Returned(last, more, _) =>
      (if TimestampTruthy(last) then [localMonth(last.value)] else [])
      + (if !more && !(TimestampTruthy(last) && localMonth(last.value) == currentMonth) then [currentMonth] else [])
  }

  /** A raising worker refreshes nothing; a truthy timestamp's month comes
      first; a finished user always has the current month refreshed; no month
      is refreshed twice; and no other month is refreshed. */
  lemma MonthsRefreshedSpec(outcome: BatchOutcome, localMonth: LocalMonth, currentMonth: Month)
    ensures var ms := MonthsRefreshed(outcome, localMonth, currentMonth);
      (outcome.Raised? ==> ms == [])
      && (outcome.Returned? && TimestampTruthy(outcome.last) ==> |ms| > 0 && ms[0] == localMonth(outcome.last.value))
      && (outcome.Returned? && !outcome.more ==> currentMonth in ms)
      && (forall i, j :: 0 <= i < j < |ms| ==> ms[i] != ms[j])
      && (forall m :: m in ms ==>
            ((outcome.Returned? && TimestampTruthy(outcome.last) && m == localMonth(outcome.last.value))
             || (outcome.Returned? && !outcome.more && m == currentMonth)))
  {
  }

  function MonthlyKey(user: int, p: Month): ZS.SummaryKey {
    ZS.SummaryKey(user, ZS.Monthly, p.year, p.month)
  }

  function WeeklyKey(user: int, p: Month, week: int): ZS.SummaryKey {
    ZS.SummaryKey(user, ZS.Weekly, p.year, week)
  }

  /** The weekly summaries of the listed weeks, each with the month as
      context, refreshed in order with the DEFAULT zones `zs`. */
  function RefreshWeeks(rows: map<ZS.SummaryKey, map<string, int>>, user: int, p: Month, weeks: seq<int>,
                        rs: seq<ZS.ZoneTime>, zs: seq<HeartRateZone>, nulls: ZS.NullPlacement)
    : map<ZS.SummaryKey, map<string, int>>
    decreases |weeks|
  {
    if weeks == [] then rows
    else
      var key := WeeklyKey(user, p, weeks[|weeks| - 1]);
      RefreshWeeks(rows, user, p, weeks[..|weeks| - 1], rs, zs, nulls)
        [key := ZS.TimeInZones(rs, ZS.KeyFilters(key, Some(p.month)), zs, nulls)]
  }

  /** `_update_zone_summaries_for_user_period` (scheduler.py:120-147): the
      MONTHLY summary, then each week of the month with the month as context.
      Without a DEFAULT configuration the monthly call raises after creating
      its row, and no week is reached; for December 9999 the weeks cannot be
      listed (`determine_weeks_in_month` raises), so only the monthly summary
      is refreshed. */
  function RefreshPeriod(rows: map<ZS.SummaryKey, map<string, int>>, user: int, p: Month, rs: seq<ZS.ZoneTime>,
                         defaultConfig: Option<seq<HeartRateZone>>, nulls: ZS.NullPlacement)
    : map<ZS.SummaryKey, map<string, int>>
  {
    var monthly := MonthlyKey(user, p);
    match defaultConfig
    case None => ZS.SummaryOutcomeOf(rows, monthly, None, rs, None, nulls).rows
    case Some(zs) =>
      var start := rows[monthly := ZS.TimeInZones(rs, ZS.KeyFilters(monthly, None), zs, nulls)];
      if IW.GridFits(p.year, p.month) then RefreshWeeks(start, user, p, IW.WeeksInMonth(p.year, p.month), rs, zs, nulls)
      else start
  }

  /** The summaries refreshed for several months, in order. */
  function RefreshMonths(rows: map<ZS.SummaryKey, map<string, int>>, user: int, months: seq<Month>,
                         rs: seq<ZS.ZoneTime>, defaultConfig: Option<seq<HeartRateZone>>, nulls: ZS.NullPlacement)
    : map<ZS.SummaryKey, map<string, int>>
    decreases |months|
  {
    if months == [] then rows
    else RefreshPeriod(RefreshMonths(rows, user, months[..|months| - 1], rs, defaultConfig, nulls), user,
                       months[|months| - 1], rs, defaultConfig, nulls)
  }

  lemma RefreshMonthsSnoc(rows: map<ZS.SummaryKey, map<string, int>>, user: int, months: seq<Month>, p: Month,
                          rs: seq<ZS.ZoneTime>, defaultConfig: Option<seq<HeartRateZone>>, nulls: ZS.NullPlacement)
    ensures RefreshMonths(rows, user, months + [p], rs, defaultConfig, nulls)
         == RefreshPeriod(RefreshMonths(rows, user, months, rs, defaultConfig, nulls), user, p, rs, defaultConfig, nulls)
  {
    assert (months + [p])[..|months|] == months;
  }

  /** A key a refresh of month `p` writes. */
  predicate Touched(user: int, p: Month, k: ZS.SummaryKey) {
    k == MonthlyKey(user, p)
    || (IW.GridFits(p.year, p.month) && k.user == user && k.periodType == ZS.Weekly && k.year == p.year
        && k.periodIndex in IW.WeeksInMonth(p.year, p.month))
  }

  /** Every listed week's summary holds that week's total within the month. */
  lemma {:induction false} RefreshWeeksStores(rows: map<ZS.SummaryKey, map<string, int>>, user: int, p: Month,
                                              weeks: seq<int>, rs: seq<ZS.ZoneTime>, zs: seq<HeartRateZone>,
                                              nulls: ZS.NullPlacement, w: int)
    requires w in weeks
    ensures var key := WeeklyKey(user, p, w);
      var r := RefreshWeeks(rows, user, p, weeks, rs, zs, nulls);
      key in r && r[key] == ZS.TimeInZones(rs, ZS.KeyFilters(key, Some(p.month)), zs, nulls)
    decreases |weeks|
  {
    var init := weeks[..|weeks| - 1];
    if w != weeks[|weeks| - 1] {
      assert weeks == init + [weeks[|weeks| - 1]];
      assert w in init;
      RefreshWeeksStores(rows, user, p, init, rs, zs, nulls, w);
    }
  }

  /** The weekly refreshes write no key but the listed weeks' keys. */
  lemma {:induction false} RefreshWeeksFrame(rows: map<ZS.SummaryKey, map<string, int>>, user: int, p: Month,
                                             weeks: seq<int>, rs: seq<ZS.ZoneTime>, zs: seq<HeartRateZone>,
                                             nulls: ZS.NullPlacement, k: ZS.SummaryKey)
    requires !(k.user == user && k.periodType == ZS.Weekly && k.year == p.year && k.periodIndex in weeks)
    ensures var r := RefreshWeeks(rows, user, p, weeks, rs, zs, nulls);
      (k in r <==> k in rows) && (k in rows ==> r[k] == rows[k])
    decreases |weeks|
  {
    if weeks != [] {
      var init := weeks[..|weeks| - 1];
      assert forall x :: x in init ==> x in weeks;
      RefreshWeeksFrame(rows, user, p, init, rs, zs, nulls, k);
    }
  }

  /** With a DEFAULT configuration a refresh of month `p` leaves the monthly
      summary holding the month's total and each of its ISO weeks' summaries
      holding that week's total within the month. */
  lemma RefreshPeriodStores(rows: map<ZS.SummaryKey, map<string, int>>, user: int, p: Month, rs: seq<ZS.ZoneTime>,
                            zs: seq<HeartRateZone>, nulls: ZS.NullPlacement, k: ZS.SummaryKey)
    requires Touched(user, p, k)
    ensures var r := RefreshPeriod(rows, user, p, rs, Some(zs), nulls);
      k in r && r[k] == ZS.TimeInZones(rs, ZS.KeyFilters(k, if k.periodType == ZS.Weekly then Some(p.month) else None), zs, nulls)
  {
    var monthly := MonthlyKey(user, p);
    var weeks := IW.WeeksInMonth(p.year, p.month);
    var start := rows[monthly := ZS.TimeInZones(rs, ZS.KeyFilters(monthly, None), zs, nulls)];
    if k == monthly {
      if IW.GridFits(p.year, p.month) {
        RefreshWeeksFrame(start, user, p, weeks, rs, zs, nulls, k);
      }
    } else {
      RefreshWeeksStores(start, user, p, weeks, rs, zs, nulls, k.periodIndex);
    }
  }

  /** A refresh of month `p` writes no other key; without a DEFAULT
      configuration it only creates the empty monthly row. */
  lemma RefreshPeriodFrame(rows: map<ZS.SummaryKey, map<string, int>>, user: int, p: Month, rs: seq<ZS.ZoneTime>,
                           defaultConfig: Option<seq<HeartRateZone>>, nulls: ZS.NullPlacement, k: ZS.SummaryKey)
    ensures var r := RefreshPeriod(rows, user, p, rs, defaultConfig, nulls);
      (!Touched(user, p, k) ==> (k in r <==> k in rows) && (k in rows ==> r[k] == rows[k]))
      && (defaultConfig.None? ==> r == (if MonthlyKey(user, p) in rows then rows else rows[MonthlyKey(user, p) := map[]]))
  {
    var monthly := MonthlyKey(user, p);
    match defaultConfig
    case None =>
      ZS.MissingDefaultLeavesEmptyRow(rows, monthly, None, rs, nulls);
    case Some(zs) =>
      if !Touched(user, p, k) && IW.GridFits(p.year, p.month) {
        var start := rows[monthly := ZS.TimeInZones(rs, ZS.KeyFilters(monthly, None), zs, nulls)];
        RefreshWeeksFrame(start, user, p, IW.WeeksInMonth(p.year, p.month), rs, zs, nulls, k);
      }
  }

  /** When a user is finished and has a DEFAULT configuration, the current
      month's summaries end up computed with the current month as context,
      whichever month was refreshed before. */
  lemma CompletionRefreshesCurrentMonth(rows: map<ZS.SummaryKey, map<string, int>>, user: int, outcome: BatchOutcome,
                                        localMonth: LocalMonth, currentMonth: Month, rs: seq<ZS.ZoneTime>,
                                        zs: seq<HeartRateZone>, nulls: ZS.NullPlacement, k: ZS.SummaryKey)
    requires outcome.Returned? && !outcome.more && Touched(user, currentMonth, k)
    ensures var r := RefreshMonths(rows, user, MonthsRefreshed(outcome, localMonth, currentMonth), rs, Some(zs), nulls);
      k in r && r[k] == ZS.TimeInZones(rs, ZS.KeyFilters(k, if k.periodType == ZS.Weekly then Some(currentMonth.month) else None), zs, nulls)
  {
    var ms := MonthsRefreshed(outcome, localMonth, currentMonth);
    assert ms[|ms| - 1] == currentMonth;
    RefreshPeriodStores(RefreshMonths(rows, user, ms[..|ms| - 1], rs, Some(zs), nulls), user, currentMonth, rs, zs, nulls, k);
  }

  // ---------------------------------------------------------------------------
  // The scheduler
  // ---------------------------------------------------------------------------

  /** The processing queue, beside the ZoneSummary rows it refreshes. */
  class Scheduler {
    var queue: map<int, QueueEntry>
    const summaries: ZS.SummaryStore

    constructor(queue: map<int, QueueEntry>, summaries: ZS.SummaryStore)
      ensures this.queue == queue && this.summaries == summaries
    {
      this.queue := queue;
      this.summaries := summaries;
    }

    /** `_try_update_zone_summaries_for_user_period` (scheduler.py:150-162)
        with `_update_zone_summaries_for_user_period` (scheduler.py:120-147):
        an exception stops the refresh and is swallowed. `sorted()` keeps the
        weeks as listed, since they are ascending already
        (IsoWeeks.WeeksInMonthAscending). */
    method TryUpdateZoneSummaries(user: int, p: Month, rs: seq<ZS.ZoneTime>,
                                  defaultConfig: Option<seq<HeartRateZone>>, nulls: ZS.NullPlacement)
      modifies summaries
      ensures summaries.rows == RefreshPeriod(old(summaries.rows), user, p, rs, defaultConfig, nulls)
    {
      var monthly := MonthlyKey(user, p);
      var monthlyResult, monthlySaved := summaries.GetOrCreateSummary(monthly, None, rs, defaultConfig, nulls);
      if monthlyResult.Err? {
        return;
      }
      var zs := defaultConfig.value;
      ZS.SummaryStoresComputed(old(summaries.rows), monthly, None, rs, zs, nulls);
      if !IW.GridFits(p.year, p.month) {
        return;
      }
      var weeks := IW.DetermineWeeksInMonth(p.year, p.month);
      RefreshWeeksLoop(user, p, weeks, rs, zs, nulls);
    }

    /** The weekly loop of `_update_zone_summaries_for_user_period`
        (scheduler.py:136-143): each listed week's summary, with the month as
        context, in order. */
    method RefreshWeeksLoop(user: int, p: Month, weeks: seq<int>, rs: seq<ZS.ZoneTime>, zs: seq<HeartRateZone>,
                            nulls: ZS.NullPlacement)
      modifies summaries
      ensures summaries.rows == RefreshWeeks(old(summaries.rows), user, p, weeks, rs, zs, nulls)
    {
      ghost var start := summaries.rows;
      for j := 0 to |weeks|
        invariant summaries.rows == RefreshWeeks(start, user, p, weeks[..j], rs, zs, nulls)
      {
        assert weeks[..j + 1][..j] == weeks[..j];
        var key := WeeklyKey(user, p, weeks[j]);
        ZS.SummaryStoresComputed(summaries.rows, key, Some(p.month), rs, zs, nulls);
        var weeklyResult, weeklySaved := summaries.GetOrCreateSummary(key, Some(p.month), rs, Some(zs), nulls);
      }
      assert weeks[..|weeks|] == weeks;
    }

    /** The summary refreshes after a batch that returned
        (scheduler.py:60-63, 71-86): the reported timestamp's month, then,
        when the user is finished, the current month unless it is that same
        month. */
    method RefreshAfterBatch(u: int, last: Option<int>, more: bool, currentMonth: Month, localMonth: LocalMonth,
                             rs: seq<ZS.ZoneTime>, dc: Option<seq<HeartRateZone>>, nulls: ZS.NullPlacement)
      modifies summaries
      ensures summaries.rows == RefreshMonths(old(summaries.rows), u, MonthsRefreshed(Returned(last, more, 0), localMonth, currentMonth),
                                              rs, dc, nulls)
    {
      ghost var refreshed: seq<Month> := [];
      if TimestampTruthy(last) {
        TryUpdateZoneSummaries(u, localMonth(last.value), rs, dc, nulls);
        refreshed := [localMonth(last.value)];
      }
      if !more {
        var needsCurrentMonthUpdate := true;
        if TimestampTruthy(last) && localMonth(last.value) == currentMonth {
          needsCurrentMonthUpdate := false;
        }
        if needsCurrentMonthUpdate {
          RefreshMonthsSnoc(old(summaries.rows), u, refreshed, currentMonth, rs, dc, nulls);
          TryUpdateZoneSummaries(u, currentMonth, rs, dc, nulls);
          refreshed := refreshed + [currentMonth];
        }
      }
      assert refreshed == MonthsRefreshed(Returned(last, more, 0), localMonth, currentMonth);
    }

    /** The queue update after a batch that returned (scheduler.py:65-108):
        delete a finished entry, advance an unfinished one that reported a
        timestamp, leave it alone otherwise. */
    method UpdateEntry(u: int, last: Option<int>, more: bool, count: int, now: int)
      requires u in queue
      modifies this
      ensures queue == QueueAfter(old(queue), u, Returned(last, more, count), now)
    {
      if !more {
        queue := queue - {u};
      } else if TimestampTruthy(last) {
        var entry := queue[u];
        var numProcessed := entry.numProcessed;
        if count > 0 {
          numProcessed := numProcessed + count;
        }
        queue := queue[u := QueueEntry(last.value, numProcessed, now)];
      }
    }

    /** `process_activity_queue` (scheduler.py:38-117). The worker batch, the
        clock (`now` and the current month), the local-month conversion, the
        ActivityZoneTimes rows the summaries read, and each user's DEFAULT
        zones are inputs. Returns the user whose entry was processed. */
    method ProcessActivityQueue(runWorker: WorkerRun, now: int, currentMonth: Month, localMonth: LocalMonth,
                                rs: seq<ZS.ZoneTime>, defaultConfigs: map<int, seq<HeartRateZone>>,
                                nulls: ZS.NullPlacement)
      returns (picked: Option<int>)
      modifies this, summaries
      ensures picked.None? <==> old(queue) == map[]
      ensures picked.None? ==> queue == old(queue) && summaries.rows == old(summaries.rows)
      ensures picked.Some? ==>
        Oldest(old(queue), picked.value)
        && var u := picked.value;
        var outcome := runWorker(u, old(queue)[u].lastProcessed);
        var dc := if u in defaultConfigs then Some(defaultConfigs[u]) else None;
        queue == QueueAfter(old(queue), u, outcome, now)
        && summaries.rows == RefreshMonths(old(summaries.rows), u, MonthsRefreshed(outcome, localMonth, currentMonth), rs, dc, nulls)
    {
      if queue == map[] {
        return None;
      }
      OldestExists(queue);
      var u :| Oldest(queue, u);
      var entry := queue[u];
      var dc := if u in defaultConfigs then Some(defaultConfigs[u]) else None;
      var outcome := runWorker(u, entry.lastProcessed);
      match outcome {
        case Raised =>
          queue := queue[u := entry.(updatedAt := now)];
        case Returned(last, more, count) =>
          RefreshAfterBatch(u, last, more, currentMonth, localMonth, rs, dc, nulls);
          UpdateEntry(u, last, more, count, now);
      }
      return Some(u);
    }
  }
}
