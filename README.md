# zonelens core in Dafny

zonelens reads a user's Strava activities and reports how long the user spent
in each of their custom heart-rate zones. This project models the core of that
backend as Dafny definitions and proves properties about them:

- **HrProcessing** (`backend/api/hr_processing.py`): parsing of the activity
  stream payload, the zone lookup for a heart rate (`determine_hr_zone`), and
  the time-in-zone aggregation with the moving filter and the interval mean
  heart rate (`calculate_time_in_zones`).
- **LegacyHrProcessing** (`strava_zones_backend/api/hr_processing.py`): the
  earlier engine, which charges each interval to its start sample and has no
  moving filter. It is compared with the later engine.
- **Zones** (`backend/api/models.py`): activity types, the zone configuration
  and zone records, and the `clean` rule of a zone.
- **ZoneSummaries** (`backend/api/models.py`): the grouping of stored
  per-activity zone times into monthly and weekly summaries, their ordering,
  and the summary cache (`get_or_create_summary`) as a class over a map.
- **IsoWeeks** (`backend/api/utils.py`): the ISO weeks that touch a month
  (`determine_weeks_in_month`), against an independent proleptic Gregorian
  calendar.
- **Worker** (`backend/api/worker.py`): the per-user processing of one batch of
  activities, the storage of zone times, and the import of the zones defined
  on Strava, as a class over the tables it writes.
- **Scheduler** (`backend/api/scheduler.py`): the activity-queue job and the
  summary refreshes it triggers, as a class over the queue and the summary
  store.
- **ZoneForm**, **ZoneSettings**, **SettingsStore** (`backend/api/views.py`):
  the zone-settings handlers. These cover the bracketed form-key parser; the
  validation pass and the write pass of a save; and adding and deleting an
  activity configuration. The value-level rules live in ZoneSettings, and the
  class `ZoneSettingsStore` updates the tables in place.
- **SummaryQuery** (`backend/api/views.py`): the query parameters of the
  zone-summary endpoint.
- **PyText**, **PySorted**, **Sums**, **Wrappers**: the Python built-ins the
  core relies on, namely `str.strip`, `int()`, `str()`, `str.split` and the
  stable `sorted`. Also the sum of a dictionary's values and the Option and
  Result types.

The database is modelled as Dafny maps and sequences. The clock, the Strava
API and the logger are parameters or are left out (see below). Integers are
unbounded, floats are `real`, and strings are sequences of characters.

## Model

| member | source | states |
|---|---|---|
| HrProcessing.ParseActivityStream | backend/api/hr_processing.py:85-99 | a stream is returned exactly when it is a mapping whose `data` is a non-empty list whose elements all pass the `isinstance` check, and the data list is returned as it is |
| HrProcessing.ParseActivityStreams | backend/api/hr_processing.py:51-82 | a missing or empty payload gives four Nones; each of time, heartrate, distance and moving is present exactly when its own stream is valid, and a present time or heart-rate series is non-empty |
| HrProcessing.ParseIsPerStream | backend/api/hr_processing.py:76-82 | replacing the `time` entry changes none of the other three results, so one broken stream never hides a good one |
| HrProcessing.IntegerDistanceIsRejected | backend/api/hr_processing.py:78-80 | a distance stream of integers fails the float check and is dropped, while the same list is a valid time stream |
| HrProcessing.SortByMinHrPermutes | backend/api/hr_processing.py:115 | `order_by("min_hr")` returns the same zones (the result is a permutation of the stored zones) |
| HrProcessing.SortByMinHrIsSorted | backend/api/hr_processing.py:115 | `order_by("min_hr")` orders the zones by `min_hr` |
| HrProcessing.SortByMinHrSorted | backend/api/hr_processing.py:115 | zones already in `min_hr` order come back unchanged |
| HrProcessing.FirstMatchIndexSpec | backend/api/hr_processing.py:131-137 | the loop stops at the first zone that contains the heart rate; no earlier zone contains it |
| HrProcessing.DetermineHrZone | backend/api/hr_processing.py:102-140 | the early-return search loop returns the zone the lookup specification gives: None without a config, on a failed fetch or with no zones, else the first well-formed sorted zone whose inclusive range holds the value |
| HrProcessing.ZoneForIsLowestContaining | backend/api/hr_processing.py:102-140 | None exactly when no zone contains the heart rate (or the config is missing or unreadable); otherwise a containing zone whose `min_hr` is the lowest among the containing zones |
| HrProcessing.FirstMatchInSorted | backend/api/hr_processing.py:115-137 | in any sorted permutation of the zones, the first match is a lowest containing zone, and there is none exactly when no zone contains the value |
| HrProcessing.ZoneForIgnoresStorageOrder | backend/api/hr_processing.py:115 | two configs holding the same zones in different storage order give the same zone for every heart rate whose lowest containing zone is unambiguous |
| HrProcessing.InvertedZoneNeverReturned | backend/api/hr_processing.py:133-135 | a zone with `min_hr > max_hr` is never returned, and a well-formed zone that holds the value guarantees a match |
| HrProcessing.ZoneForIsAZoneName | backend/api/hr_processing.py:136-137 | a returned name is the name of one of the config's zones |
| HrProcessing.MovingDistanceThreshold | backend/api/hr_processing.py:41-48 | the moving threshold is 3.0 m for RIDE, 2.0 m for RUN and 0.8 m for every other key |
| HrProcessing.IsMovingDatapoint | backend/api/hr_processing.py:225-234 | without both moving and distance data every interval counts; otherwise the check fails with IndexError exactly when it indexes past a stream, and it counts an interval whose end sample is moving or whose distance grows by more than the threshold |
| HrProcessing.RoundHalf | backend/api/hr_processing.py:216 | `round(s / 2)` is the nearest integer to s/2, with ties going to the even neighbour |
| HrProcessing.SeedZones | backend/api/hr_processing.py:171-187 | the seeded buckets are all 0: the outside key plus every zone name when the zones can be read, and only the outside key otherwise |
| HrProcessing.SeedTimeInZones | backend/api/hr_processing.py:171-187 | the seeding loop produces exactly the seeded buckets |
| HrProcessing.Step | backend/api/hr_processing.py:208-220 | one iteration keeps the outside bucket |
| HrProcessing.StepCounted | backend/api/hr_processing.py:208-220 | a moving interval of positive duration is added to the zone of its mean heart rate, or to the outside bucket |
| HrProcessing.AccumulateStops | backend/api/hr_processing.py:209-210 | an IndexError in the moving check ends the loop with that error |
| HrProcessing.CalculateTimeInZones | backend/api/hr_processing.py:143-222 | seeding, the guard clauses and the loop together compute the specification `TimeInZones` |
| HrProcessing.AddToZone | backend/api/hr_processing.py:217-220 | the bucket update adds the duration to the zone found, or to the outside bucket when the zone is None or empty |
| HrProcessing.WalkIntervals | backend/api/hr_processing.py:207-220 | the loop over the sample pairs computes the specification fold `Accumulate`, stopping at the first IndexError |
| HrProcessing.StepLaws | backend/api/hr_processing.py:208-220 | one iteration fails exactly on an IndexError; otherwise it keeps the keys, adds the interval's counted time to the total, keeps every bucket non-negative, and with unreadable zones adds only to the outside bucket |
| HrProcessing.StepAdds | backend/api/hr_processing.py:217-220 | a counted interval adds its duration to exactly one bucket |
| HrProcessing.AccumulateFails | backend/api/hr_processing.py:207-214 | the loop fails exactly when some later interval hits the IndexError |
| HrProcessing.AccumulateLaws | backend/api/hr_processing.py:207-220 | a successful loop keeps the keys, adds exactly the counted time, and keeps the buckets non-negative |
| HrProcessing.TimeInZonesKeys | backend/api/hr_processing.py:171-187 | a result always has the outside key; when the zones can be read it has every zone name, and otherwise only the outside key |
| HrProcessing.UnusableDataGivesZeros | backend/api/hr_processing.py:189-202 | missing or empty series, unequal lengths or fewer than two samples return the seeded map with every value 0 |
| HrProcessing.TimeInZonesConservation | backend/api/hr_processing.py:143-222 | conservation: the buckets sum to the total positive duration of the intervals the moving filter accepts, none is negative, and with unreadable zones everything is outside; the call fails exactly when the filter indexes past a short stream |
| HrProcessing.RunCounted | backend/api/hr_processing.py:207-220 | without moving data, a run of positive intervals adds each duration to the zone its interval falls in |
| HrProcessing.ExampleZoneFor | backend/api/tests.py:814-831 | the worked example's interval means fall in zones 1, 2, 3, 4, 2, 1 and 5 |
| HrProcessing.ExampleRates | backend/api/hr_processing.py:216 | the example's interval means are 100, 120, 140, 160, 110, 92 and 168 (92.5 and 167.5 round to even) |
| HrProcessing.WorkedExample | backend/api/tests.py:814-831 | the test suite's worked example gives 20, 20, 10, 10 and 10 seconds in zones 1 to 5 and 0 outside |
| HrProcessing.MovingFlagOfEndSample | backend/api/hr_processing.py:225-234 | the moving flag read is that of the interval's end sample, so `moving = [False, True]` counts the interval whatever the distance says |
| IsoWeeks.DetermineWeeksInMonth | backend/api/utils.py:32-47 | the nested scan over the Monday-first grid returns the specification list `WeeksInMonth`, for every month whose grid ends within year 9999 (December 9999 raises, since its grid reaches January 10000) |
| IsoWeeks.ScanRow | backend/api/utils.py:41-46 | one grid row looks at its first date of the month, appends that date's ISO week when its ISO year is the requested year and the week is new, and stops |
| IsoWeeks.ScanStep | backend/api/utils.py:39-46 | after one pass of the outer loop, scanning the remaining rows gives the same weeks as scanning from the current row |
| IsoWeeks.ScanNext | backend/api/utils.py:40-46 | the scan over the rows is one row step followed by the scan of the remaining rows |
| IsoWeeks.YearLength | backend/api/utils.py:43 | a Gregorian year has 365 days, or 366 in a leap year |
| IsoWeeks.MondayOfWeek1Bounds | backend/api/utils.py:43 | ISO week 1 starts on a Monday at most three days from January 1st |
| IsoWeeks.Week1MondayGap | backend/api/utils.py:43 | consecutive ISO years start at least 52 weeks apart |
| IsoWeeks.Week1MondayMonotone | backend/api/utils.py:43 | ISO years start in calendar order |
| IsoWeeks.IsoBracket | backend/api/utils.py:43 | `isocalendar()` puts a date in the ISO year whose week-1 Monday is the last one not after the date, and counts the whole weeks since that Monday |
| IsoWeeks.IsoYearUnique | backend/api/utils.py:43 | at most one ISO year brackets a date |
| IsoWeeks.IsoYearIffBracket | backend/api/utils.py:43 | a date of year `y` has ISO year `y` exactly when it lies from the Monday of week 1 of `y` up to, but not including, the Monday of week 1 of `y + 1` |
| IsoWeeks.GridRow | backend/api/utils.py:39-42 | every grid row holds a date of the month, and the inner loop picks that row's first date of the month |
| IsoWeeks.RowOfDate | backend/api/utils.py:39-42 | every date of the month lies in one of the rows |
| IsoWeeks.IsoWeekOfDate | backend/api/utils.py:43 | a date in row r whose ISO year is the requested year is in ISO week `GridWeeks + r + 1` |
| IsoWeeks.RowDaySameWeek | backend/api/utils.py:41-46 | the date the inner loop picks in a row has the same ISO week as every other date of the month in that row with the requested ISO year, so stopping at the first date loses no week |
| IsoWeeks.ScanAscending | backend/api/utils.py:40-46 | later rows append larger weeks |
| IsoWeeks.ScanSound | backend/api/utils.py:40-46 | only weeks witnessed by a date of the month are appended |
| IsoWeeks.ScanCovers | backend/api/utils.py:40-46 | every row whose picked date has the requested ISO year contributes its week |
| IsoWeeks.WeeksInMonthAscending | backend/api/utils.py:32-47 | the weeks come out in ascending order, hence without duplicates |
| IsoWeeks.WeeksInMonthExactly | backend/api/utils.py:32-47 | a week is listed exactly when it is a week of the requested ISO year that holds a date of the month; weeks of the neighbouring ISO years are left out |
| IsoWeeks.AscendingRun | backend/api/utils.py:32-47 | an ascending list whose members are exactly a range of integers is that range |
| IsoWeeks.BandMembers | backend/api/utils.py:32-47 | the witnessed weeks are exactly the weeks of the rows whose picked dates fall in the requested ISO year |
| IsoWeeks.WeeksInMonthBand | backend/api/utils.py:32-47 | the result is a run of consecutive week numbers |
| IsoWeeks.March2025 | backend/api/utils.py:32-47 | March 2025 gives weeks 9 to 14 |
| IsoWeeks.December2025 | backend/api/utils.py:44 | December 2025 gives weeks 49 to 52; the row of the 29th is week 1 of ISO year 2026 and is left out |
| IsoWeeks.January2021 | backend/api/utils.py:44 | January 2021 gives weeks 1 to 4; the row of the 1st is week 53 of ISO year 2020 and is left out |
| ZoneSummaries.FiltersSelect | backend/api/models.py:270-284 | a period's filters select the user and calendar year; a monthly summary also selects its month; a weekly summary selects its ISO week and, only when the month context is truthy, that month too |
| ZoneSummaries.Grouped | backend/api/models.py:252-253 | grouping by zone name yields each zone name of the matching rows exactly once, and no other name |
| ZoneSummaries.ZoneTotalOfAbsent | backend/api/models.py:255 | a zone with no matching rows totals zero |
| ZoneSummaries.ZoneTotalPositive | backend/api/models.py:255 | a zone's total is positive exactly when some matching row of that zone has a positive duration |
| ZoneSummaries.SumTotalsCovers | backend/api/models.py:252-255 | summing the zone totals over names that cover every matching row gives the duration of all matching rows |
| ZoneSummaries.ZoneOrder | backend/api/models.py:247-249 | the `zone_order` annotation is present exactly when the DEFAULT configuration has a zone of that name |
| ZoneSummaries.NameLeTotal | backend/api/models.py:258 | the name order is total |
| ZoneSummaries.NameLeTransitive | backend/api/models.py:258 | the name order is transitive |
| ZoneSummaries.NameLeAntisymmetric | backend/api/models.py:258 | the name order is antisymmetric |
| ZoneSummaries.KeyLeTotal | backend/api/models.py:258 | `order_by("zone_order", "zone_name")` is total, whichever end the store puts NULL orders at |
| ZoneSummaries.KeyLeTransitive | backend/api/models.py:258 | `order_by("zone_order", "zone_name")` is transitive |
| ZoneSummaries.SortByKeyLaws | backend/api/models.py:258 | the ordering keeps the grouped names and their total, keeps them distinct, and sorts them by (zone order, name) |
| ZoneSummaries.Nonzero | backend/api/models.py:265 | `if item["total_duration"]` keeps exactly the names with a nonzero total |
| ZoneSummaries.Listing | backend/api/models.py:263-264 | each name is paired with its summed duration |
| ZoneSummaries.AsDict | backend/api/models.py:261-267 | the dictionary holds every listed key, and each stored value comes from a pair of the listing |
| ZoneSummaries.NonzeroDistinct | backend/api/models.py:265 | dropping zero totals keeps the names distinct |
| ZoneSummaries.NonzeroSorted | backend/api/models.py:265 | dropping zero totals keeps the key order |
| ZoneSummaries.NonzeroSum | backend/api/models.py:265 | dropping zero totals loses no time |
| ZoneSummaries.ListingDict | backend/api/models.py:261-267 | the stored mapping of distinct names holds exactly those names with their totals, and its values add up to their sum |
| ZoneSummaries.ListedNames | backend/api/models.py:236-267 | the listed names are distinct, in key order, exactly the names with a positive total, and together they account for all matching time |
| ZoneSummaries.AggregatedTimeInZonesSpec | backend/api/models.py:236-267 | the aggregation lists every zone with a nonzero total once, with that total, in `order_by("zone_order", "zone_name")` order |
| ZoneSummaries.TimeInZonesSpec | backend/api/models.py:236-267 | the stored mapping holds a zone exactly when a matching row of that zone has a positive duration, with the zone's total; so it depends neither on the DEFAULT configuration nor on the NULL placement |
| ZoneSummaries.TimeInZonesConserves | backend/api/models.py:236-267 | conservation: the stored values add up to the duration of all matching rows |
| ZoneSummaries.WeekSplitsByMonth | backend/api/models.py:280-283 | for a week that straddles two months, each zone's total without a month context is the sum of its totals in the two month contexts |
| ZoneSummaries.SummaryStore.constructor | backend/api/models.py:147-169 | a new store holds no summary rows |
| ZoneSummaries.SummaryStore.GetOrCreateSummary | backend/api/models.py:175-234 | the method returns the result and `saved` flag of the specification `SummaryOutcomeOf`, and leaves its rows |
| ZoneSummaries.RefreshStores | backend/api/models.py:188-234 | a successful refresh stores the computed mapping under its key and leaves every other row alone; `created` is true exactly when the key was new, and `save()` runs exactly when the row is new or its mapping changed |
| ZoneSummaries.SummaryStoresComputed | backend/api/models.py:175-234 | a successful call stores the freshly aggregated mapping under its key |
| ZoneSummaries.RefreshIdempotent | backend/api/models.py:213-234 | refreshing again with the same mapping reports `created` false and writes nothing |
| ZoneSummaries.RepeatCallWritesNothing | backend/api/models.py:175-234 | repeating a call with unchanged activity rows returns the same mapping, reports `created` false and writes nothing |
| ZoneSummaries.MissingDefaultLeavesEmptyRow | backend/api/models.py:188-209 | without a DEFAULT configuration the call raises ValueError, but only after the row was fetched or created, so a new key is left holding `{}` |
| ZoneSummaries.RefreshReplaces | backend/api/models.py:213-222 | refreshing a row with a second mapping keeps the row, stores the second mapping, and writes exactly when the two mappings differ |
| ZoneSummaries.ContextChangeOverwrites | backend/api/models.py:175-234 | a weekly summary recomputed under another month context is the same row, which now holds the new context's mapping; the month context is not part of the key |
| ZoneSummaries.WeekFiveOf2024January | backend/api/tests.py:1596-1635 | ISO week 5 of 2024 with a January and a February row stores only the January zone in the January context |
| ZoneSummaries.WeekFiveOf2024NoContext | backend/api/models.py:280-283 | the same week without a month context stores both zones |
| LegacyHrProcessing.ParseActivityStreams | strava_zones_backend/api/hr_processing.py:15-74 | a missing or empty payload gives (None, None); time and heart rate are each present exactly when their stream is a mapping with a non-empty list of ints, and a present series is non-empty |
| LegacyHrProcessing.ParseAgreesWithLaterParser | strava_zones_backend/api/hr_processing.py:36-74 | the earlier parser yields exactly the time and heart-rate series of the later one |
| LegacyHrProcessing.UnequalLengthsAreKept | strava_zones_backend/api/hr_processing.py:68-74 | series of different lengths are both returned; the mismatch is only reported |
| LegacyHrProcessing.Step | strava_zones_backend/api/hr_processing.py:190-204 | one iteration keeps the outside bucket |
| LegacyHrProcessing.CalculateTimeInZones | strava_zones_backend/api/hr_processing.py:132-206 | seeding, the guards and the loop compute the specification `TimeInZones` |
| LegacyHrProcessing.WalkIntervals | strava_zones_backend/api/hr_processing.py:190-204 | the loop over the sample pairs computes the specification fold `Accumulate` |
| LegacyHrProcessing.StepLaws | strava_zones_backend/api/hr_processing.py:190-204 | one iteration keeps the keys, adds the interval's positive duration to the total, keeps every bucket non-negative, and with unreadable zones adds only to the outside bucket |
| LegacyHrProcessing.AccumulateLaws | strava_zones_backend/api/hr_processing.py:190-206 | the loop from any interval on keeps the keys and adds exactly the positive durations that remain |
| LegacyHrProcessing.TimeInZonesConservation | strava_zones_backend/api/hr_processing.py:155-206 | the buckets are the seeded ones, none is negative, and they sum to the total positive duration, or to 0 when a guard returns early; with unreadable zones everything is outside |
| LegacyHrProcessing.CountedTimeWithoutFilter | backend/api/hr_processing.py:225-234 | without moving or distance data the later engine's filter accepts every interval of positive duration |
| LegacyHrProcessing.OneIntervalEarlier | strava_zones_backend/api/hr_processing.py:190-204 | the earlier engine charges a single interval to the zone of its start sample |
| LegacyHrProcessing.OneIntervalLater | backend/api/hr_processing.py:207-220 | the later engine charges a single interval without moving data to the zone of its mean heart rate |
| LegacyHrProcessing.StartSampleVersusMean | strava_zones_backend/api/hr_processing.py:191-197 | over one 10-second interval from 100 to 130 bpm the two engines charge different zones (the start sample's zone versus the zone of the mean 115) |
| LegacyHrProcessing.SameTotalWithoutMovingData | strava_zones_backend/api/hr_processing.py:132-206 | with no moving or distance data both engines succeed, fill the same buckets and conserve the same total |
| Worker.MapStravaActivityToConfigType | backend/api/worker.py:384-403 | the case-sensitive Strava run types map to RUN and the ride types to RIDE; a missing or empty type and every other string map to DEFAULT |
| Worker.DefaultZonesConfig | backend/api/worker.py:314-345 | the fallback DEFAULT is one of the user's DEFAULT rows, and there is none exactly when the user has no DEFAULT row |
| Worker.ConfigsMapHas | backend/api/worker.py:347-382 | a type has a configuration exactly when some row's type string parses to it; invalid types are skipped |
| Worker.ConfigsMapLast | backend/api/worker.py:347-382 | a type's configuration is the last row whose type parses to it |
| Worker.FallbackAddsNothing | backend/api/worker.py:372-380 | when read from one snapshot of the rows, the DEFAULT fallback adds nothing the map does not already hold |
| Worker.GetAllUserZoneConfigs | backend/api/worker.py:347-382 | the loop builds the specification map, with the DEFAULT fallback |
| Worker.PopOutside | backend/api/worker.py:152 | popping the outside bucket drops exactly the outside items and keeps every other item |
| Worker.UpsertWrites | backend/api/worker.py:156-166 | an activity's upserts only write rows of this user and activity, with a positive duration and a name other than the outside key |
| Worker.UpsertKeepsKeys | backend/api/worker.py:156-166 | upserts never remove a row |
| Worker.UpsertStores | backend/api/worker.py:156-166 | every item with a positive duration has its row afterwards |
| Worker.WalkCounts | backend/api/worker.py:106-170 | the batch counts exactly the activities that reach storage and remembers the start of the last of them; skipped activities change nothing |
| Worker.WalkWritesOnlyPositive | backend/api/worker.py:148-166 | every row after the batch is an untouched earlier row or a row of this user with a positive duration outside the outside bucket: no zero-duration record is written |
| Worker.WalkKeepsKeys | backend/api/worker.py:106-170 | rows are only added or overwritten, never removed |
| Worker.WalkStoresReaching | backend/api/worker.py:106-170 | every activity that reaches storage leaves a row for each zone it spent positive time in, except the outside bucket |
| Worker.ProcessOutcomeSpec | backend/api/worker.py:65-175 | ValueError without DEFAULT (before any fetch) or when the fetch fails, with nothing written; `(None, False, 0)` for no activities; an error at the first summary that has an id but no readable start date, keeping only the rows of the activities before it; otherwise the last stored start time, `len == limit`, and the stored count |
| Worker.AllSkippedBatch | backend/api/worker.py:106-175 | a batch where nothing reaches storage and every summary's date can be read writes nothing and returns no timestamp and a count of 0, yet still reports more activities when it was full |
| Worker.FirstUnreadable | backend/api/worker.py:106-117 | the index of the first summary with an id whose start date cannot be read, with every earlier summary readable, or none exactly when all are readable |
| Worker.UnreadableAt | backend/api/worker.py:106-117 | an unreadable summary after a readable prefix is the first one, where the loop raises |
| Worker.SkippedSummaryWithoutDateRaises | backend/api/worker.py:107-119 | a summary with an id and no `start_date` aborts the batch with nothing written, even though it has no heart rate and would otherwise be skipped, because the date is read before the `has_heartrate` test |
| Worker.ConvertStravaZonesSpec | backend/api/worker.py:283-300 | conversion succeeds for at most five zones, and then Strava zone k becomes order k with the mapped name, the same minimum, and a maximum of 220 when Strava's is -1 or missing |
| Worker.ConvertedNamesDistinct | backend/api/worker.py:44-50 | the converted zones have distinct names |
| Worker.StoreStravaZonesSpec | backend/api/worker.py:243-312 | the flag is true exactly when the zone list was read and every zone converts and inserts; a failure before the list is read leaves the zones alone; a failure after the old zones were deleted leaves the DEFAULT configuration with no zones |
| Worker.NoNameStopsConversion | backend/api/worker.py:283-288 | once a zone number has no mapped name, the whole conversion fails |
| Worker.Worker.constructor | backend/api/worker.py:56-63 | a worker starts from the given tables |
| Worker.Worker.StoreZoneTimes | backend/api/worker.py:156-166 | the upsert loop writes exactly the specification `Upsert` and leaves the DEFAULT zones alone |
| Worker.Worker.FetchAndStoreStravaHrZones | backend/api/worker.py:243-312 | the method returns the flag of the specification `StoreStravaZonesOutcome` and leaves the zones it describes; no zone-time row changes |
| Worker.Worker.ProcessUserActivities | backend/api/worker.py:65-175 | the batch returns the specification `ProcessOutcome` triple, or its error (including the abort at an unreadable summary, with the earlier rows kept), and leaves its rows; the DEFAULT zones are untouched |
| Scheduler.OldestIn | backend/api/scheduler.py:40 | every non-empty set of entries has one whose `updated_at` is smallest |
| Scheduler.OldestExists | backend/api/scheduler.py:40-43 | a non-empty queue has an entry that `order_by("updated_at").first()` can return |
| Scheduler.QueueAfterPicked | backend/api/scheduler.py:49-117 | a raising worker only touches `updated_at`; a finished user leaves the queue; a batch reporting a timestamp moves the cursor there, adds a positive count (and only a positive one) to `num_processed` and touches `updated_at`; more activities without a timestamp leave the queue as it was |
| Scheduler.QueueAfterFrame | backend/api/scheduler.py:49-117 | only the picked entry changes, only a finished user's entry is removed, and no entry appears |
| Scheduler.NumProcessedMonotone | backend/api/scheduler.py:93-98 | `num_processed` never decreases |
| Scheduler.MovesToBack | backend/api/scheduler.py:100-116 | when the clock has not gone backwards, an entry that raised or advanced moves to the back of the queue |
| Scheduler.SkippedFullBatchKeepsQueue | backend/api/scheduler.py:106-108 | a full batch in which no activity reaches storage and no summary is unreadable reports no timestamp, so the queue stays as it was and the next run fetches the same batch |
| Scheduler.MonthsRefreshedSpec | backend/api/scheduler.py:60-86 | a raising worker refreshes nothing; a truthy timestamp's month comes first; a finished user always gets the current month refreshed; no month is refreshed twice; no other month is refreshed |
| Scheduler.RefreshMonthsSnoc | backend/api/scheduler.py:60-86 | refreshing one more month refreshes it after the earlier ones |
| Scheduler.RefreshWeeksStores | backend/api/scheduler.py:136-143 | every listed week's summary holds that week's total within the month (for December 9999 only the monthly one, since listing its weeks raises) |
| Scheduler.RefreshWeeksFrame | backend/api/scheduler.py:136-143 | the weekly refreshes write no key except the listed weeks' keys |
| Scheduler.RefreshPeriodStores | backend/api/scheduler.py:120-147 | with a DEFAULT configuration, the monthly summary holds the month's total and each ISO week's summary holds that week's total within the month |
| Scheduler.RefreshPeriodFrame | backend/api/scheduler.py:120-162 | a refresh writes no other key; without a DEFAULT configuration it only creates the empty monthly row, and the exception is swallowed |
| Scheduler.CompletionRefreshesCurrentMonth | backend/api/scheduler.py:65-86 | when a user is finished and has a DEFAULT configuration, the current month's summaries end up computed with the current month as context |
| Scheduler.Scheduler.constructor | backend/api/scheduler.py:38-40 | a scheduler starts from the given queue and summary store |
| Scheduler.Scheduler.TryUpdateZoneSummaries | backend/api/scheduler.py:120-162 | the monthly refresh, then the weekly refresh loop (skipped for December 9999, where listing the weeks raises and the exception is swallowed), writes exactly the specification `RefreshPeriod` |
| Scheduler.Scheduler.RefreshWeeksLoop | backend/api/scheduler.py:136-143 | the weekly loop leaves each listed week's summary computed with the month as context, in order, exactly as the specification `RefreshWeeks` |
| Scheduler.Scheduler.RefreshAfterBatch | backend/api/scheduler.py:60-86 | the refreshes after a returned batch write exactly `RefreshMonths` over the specification's month list |
| Scheduler.Scheduler.UpdateEntry | backend/api/scheduler.py:65-108 | the queue update after a returned batch is exactly `QueueAfter` |
| Scheduler.Scheduler.ProcessActivityQueue | backend/api/scheduler.py:38-117 | an empty queue is a no-op; otherwise the processed user is an oldest entry, and the queue and summary rows become `QueueAfter` and `RefreshMonths` of the worker's outcome |
| Zones.ParseActivityType | backend/api/models.py:95-98 | `ActivityType(s)` succeeds exactly for "DEFAULT", "RUN" and "RIDE" (case-sensitive) and returns the member with that value |
| Zones.ParseActivityTypeRoundTrip | backend/api/models.py:95-98 | every member parses back from its stored value |
| Zones.Clean | backend/api/models.py:141-144 | `clean` rejects exactly a zone whose present bounds satisfy `min_hr > max_hr`; equal bounds pass |
| Zones.CleanAgreesWithEngine | backend/api/models.py:141-144 | a zone with integer bounds passes `clean` exactly when the engine treats it as well formed, and a zone with equal bounds passes and contains its bound |
| PyText.LStripRemovesSpace | backend/api/views.py:637 | the leading part that `strip` removes is whitespace |
| PyText.RStripRemovesSpace | backend/api/views.py:637 | the trailing part that `strip` removes is whitespace |
| PyText.Strip | backend/api/views.py:637 | the stripped text is no longer than the input and neither starts nor ends with whitespace |
| PyText.StripIdempotent | backend/api/views.py:637 | stripping twice is stripping once |
| PyText.StripBlank | backend/api/views.py:707 | a text strips to "" exactly when it is all whitespace |
| PyText.StripNoSpace | backend/api/views.py:637 | text without whitespace is left alone |
| PyText.ParseInt | backend/api/views.py:625 | `int(s)` succeeds exactly when the stripped text is an optional sign followed by ASCII digits |
| PyText.ShowInt | backend/api/views.py:684 | `str(n)` is a minus sign for negative n followed by the digits of the magnitude, with no leading zeros, no whitespace and no brackets |
| PyText.ShowNatValue | backend/api/views.py:684 | the digits of `str(n)` denote n |
| PyText.ParseShowInt | backend/api/views.py:681-684 | `int(str(n)) == n` for every integer |
| PyText.RemoveAll | backend/api/views.py:623 | `replace("]", "")` leaves no `]` |
| PyText.RemoveAllAppend | backend/api/views.py:623 | `replace` distributes over concatenation |
| PyText.Split | backend/api/views.py:623 | `split` gives at least one piece and no piece contains the separator |
| PyText.SplitJoin | backend/api/views.py:623 | joining the pieces with the separator gives back the text, so splitting loses nothing |
| PyText.SplitAfter | backend/api/views.py:623 | splitting `a + sep + b`, where `a` holds no separator, gives `a` followed by the pieces of `b` |
| PySorted.InsertBy | backend/api/views.py:701-703 | insertion adds exactly the element |
| PySorted.InsertByOrdered | backend/api/views.py:701-703 | inserting into key order keeps key order |
| PySorted.SortBy | backend/api/views.py:701-703 | `sorted(key=...)` returns a permutation of its input in key order |
| PySorted.SortByOrdered | backend/api/views.py:701-703 | input already in key order is returned unchanged |
| PySorted.WithKey | backend/api/views.py:701-703 | the elements of one key, in input order, all carry that key |
| PySorted.InsertByWithKey | backend/api/views.py:701-703 | an inserted element lands after every element of its own key, and the others of that key keep their order |
| PySorted.SortByStable | backend/api/views.py:701-703 | the sort is stable: for every key, the elements with that key come out in the order they went in |
| PySorted.Sorted | backend/api/views.py:652 | `sorted` on integers returns a permutation in ascending order |
| ZoneForm.SetDefault | backend/api/views.py:626 | `setdefault` leaves the configuration record present |
| ZoneForm.ParseFormIndexed | backend/api/views.py:621-643 | the parsed form lists each configuration and zone index once, and the lists name exactly the records present (dictionary key order) |
| ZoneForm.ParseFormData | backend/api/views.py:621-643 | the parsing loop builds exactly the specification fold `ParseForm` of the form's pairs |
| ZoneForm.FormKeyParts | backend/api/views.py:622-623 | a key `configs[s1][s2]...` with plain segments passes the prefix test and splits into "configs" and its segments |
| ZoneForm.Store | backend/api/views.py:626-636 | storing a record replaces that index and keeps every other record |
| ZoneForm.ConfigAttrKey | backend/api/views.py:628-631 | `configs[i][id]` and `configs[i][activity_type]` set that attribute of configuration i to the raw value and change nothing else |
| ZoneForm.IgnoredAttrKey | backend/api/views.py:628-631 | any other three-part key only creates the record of configuration i |
| ZoneForm.ZoneAttrKey | backend/api/views.py:632-638 | `configs[i][zones][j][attr]` sets that attribute of zone j of configuration i to the stripped value and changes nothing else |
| ZoneForm.BadConfigIndexSkipped | backend/api/views.py:624-643 | a key whose configuration index is not an integer is skipped |
| ZoneForm.BadZoneIndexSkipped | backend/api/views.py:626-633 | a zone key whose zone index is not an integer still creates its configuration's record, but no zone |
| ZoneForm.OtherKeyIgnored | backend/api/views.py:622 | keys outside the `configs[` family are ignored |
| ZoneForm.PrefixedKeySplits | backend/api/views.py:623-625 | every `configs[` key splits into at least two parts, so the guarded IndexError cannot occur |
| ZoneSettings.ZoneName | backend/api/views.py:755-757 | a zone's name is never empty: the stripped submitted name when it is not blank, else `Zone {order}` |
| ZoneSettings.PlanRowSpec | backend/api/views.py:720-770 | a zone is written exactly when its order and bounds are integers and its maximum is above the clamped minimum or is 220; the row belongs to the configuration, keeps the order, has a non-negative minimum and the normalised maximum, and takes the DEFAULT name of its order in a non-DEFAULT configuration |
| ZoneSettings.PlanZoneWrites | backend/api/views.py:772-792 | a planned row is written by id when the zone carries an integer id and as a new row otherwise; a skipped zone writes nothing; an integer id outside the UUID range never gets this far, because the delete before the zone loop raises on it (see NonUuidIdRaises) |
| ZoneSettings.BoundDefaults | backend/api/views.py:724-736 | an absent or blank minimum is 0; an absent, blank or "open" maximum (whitespace and letter case ignored) is 220; an integer maximum is kept |
| ZoneSettings.OpenZoneSavedInverted | backend/api/views.py:738-739 | an open-ended zone whose minimum exceeds 220 is saved with `min_hr > max_hr`, a row that `clean` would reject |
| ZoneSettings.ApplyWriteFrame | backend/api/views.py:772-792 | a successful write keeps every other configuration's rows and every id in use, never lowers the allocator, and adds at most the one id it names or allocates |
| ZoneSettings.DeleteUnlisted | backend/api/views.py:715-718 | the delete keeps exactly the rows of other configurations and the rows whose ids were submitted, unchanged |
| ZoneSettings.ApplyZonesFrame | backend/api/views.py:720-792 | writing one configuration's zones keeps every row of every other configuration and adds only submitted or fresh ids |
| ZoneSettings.SaveConfigReplaces | backend/api/views.py:700-718 | after a configuration is saved, none of its earlier rows whose id was not submitted remains, no other configuration's row has changed, and every new row's id is a UUID's integer value or freshly allocated |
| ZoneSettings.SubmittedIdsHas | backend/api/views.py:705-713 | the integer id of every zone in the saving order is among the ids kept by the delete |
| ZoneSettings.NonUuidIdRaises | backend/api/views.py:705-718 | a zone whose id is an integer (such as -1) outside 0..2**128-1 makes the delete raise a validation error, so saving the configuration fails as a whole and writes nothing, whatever its other zones hold |
| ZoneSettings.CheckConfig | backend/api/views.py:654-675 | a record passes only with a non-empty id and activity type that name the user's stored configuration of that type |
| ZoneSettings.AllAcceptableSnoc | backend/api/views.py:652-691 | accepting a list of records is accepting its prefix and its last record |
| ZoneSettings.OrdersParsePermuted | backend/api/views.py:678-681 | whether every DEFAULT zone's order parses does not depend on the zones' order |
| ZoneSettings.CollectNamesOk | backend/api/views.py:677-691 | gathering the DEFAULT names succeeds exactly when every DEFAULT zone's order is an integer |
| ZoneSettings.ValidateOk | backend/api/views.py:649-691 | the first pass succeeds exactly when every record has an id and activity type naming the user's configuration of that type and every zone of a DEFAULT record has an integer order |
| ZoneSettings.ValidateResolves | backend/api/views.py:664-698 | for every accepted record, the first pass names the user's stored configuration of the submitted activity type |
| ZoneSettings.AcceptableInAnyOrder | backend/api/views.py:652 | checking the records in ascending index order checks every record |
| ZoneSettings.SaveNeedsEveryRecordAccepted | backend/api/views.py:645-691 | nothing is written unless parsing yields at least one record and every record passes the first pass; otherwise the result is an error and the zone table is as it was |
| ZoneSettings.SaveAtomic | backend/api/views.py:611-612 | a failed save leaves the zone table untouched (one transaction) |
| ZoneSettings.SaveConfigKeepsOthers | backend/api/views.py:715-792 | saving one configuration keeps every row of every other configuration |
| ZoneSettings.SaveConfigsKeepsOthers | backend/api/views.py:693-792 | the second pass keeps every row of a configuration that no record resolved to |
| ZoneSettings.SaveKeepsUnsubmittedConfigs | backend/api/views.py:700-718 | a save changes no zone of another user's configuration, nor of a configuration of the user whose activity type was not submitted |
| ZoneSettings.ApplyWriteValid | backend/api/models.py:119-135 | a successful write keeps the zone table's constraints |
| ZoneSettings.DeleteUnlistedValid | backend/api/models.py:119-135 | the delete keeps the zone table's constraints |
| ZoneSettings.ApplyZonesValid | backend/api/models.py:119-135 | writing one configuration's zones keeps the zone table's constraints |
| ZoneSettings.SaveConfigsValid | backend/api/models.py:119-135 | the second pass keeps the zone table's constraints |
| ZoneSettings.SaveKeepsTablesValid | backend/api/views.py:611-795 | a save, successful or not, keeps the zone table's constraints: ids below the allocator, rows of stored configurations, non-negative columns, unique names within a configuration |
| ZoneSettings.CollectNamesKeys | backend/api/views.py:677-685 | gathering DEFAULT names adds a name for exactly the zones' orders, keeps earlier names for other orders, and gives an order the name of the last zone that has it |
| ZoneSettings.AsWrittenAgreesWhenBound | backend/api/views.py:747-753 | as written, a zone raises exactly when its order does not parse and no order was bound earlier in the request; otherwise it does what the zone-skipping model does |
| ZoneSettings.UnboundOrderRaises | backend/api/views.py:747-753 | a zone submitted with a name but no order, in a request without DEFAULT zones, raises as written, where skipping it was intended |
| SettingsStore.CollectDefaultNames | backend/api/views.py:677-691 | the DEFAULT names loop computes the name-by-order map of the DEFAULT zones, and fails on the first zone whose order is not an integer |
| SettingsStore.AddRejected | backend/api/views.py:841-863 | a configuration is added exactly when a type is given, is RUN or RIDE, and the user has no configuration of it yet; DEFAULT is refused as invalid; "already exists" is answered only when the user has one |
| SettingsStore.DeleteTarget | backend/api/views.py:937-955 | a configuration is deleted exactly when the form gives an id that parses as a UUID and names one of the user's configurations other than DEFAULT; "default protected" is answered only for the user's DEFAULT configuration |
| SettingsStore.CopyDone | backend/api/views.py:876-889 | once nothing is left to copy, every zone of the source configuration has a copy in the target and every new zone is such a copy |
| SettingsStore.CopyOne | backend/api/views.py:879-887 | one copy into a fresh id keeps the zone table's constraints: the copy's name is not yet used in the target configuration |
| SettingsStore.OnlyConfigAfterAdd | backend/api/views.py:893 | the user has exactly one configuration after the add exactly when the user had none before |
| SettingsStore.ZoneSettingsStore.constructor | backend/api/models.py:101-135 | empty tables satisfy their constraints |
| SettingsStore.ZoneSettingsStore.ValidateConfigs | backend/api/views.py:649-691 | the first-pass loop computes the value-level first pass over the configuration table |
| SettingsStore.ZoneSettingsStore.Write | backend/api/views.py:772-790 | one write changes the zone table as the planned write does and leaves it unchanged when that write raises |
| SettingsStore.ZoneSettingsStore.CollectSubmittedIds | backend/api/views.py:705-713 | the loop collects exactly the integer ids of the submitted zones |
| SettingsStore.ZoneSettingsStore.WriteZones | backend/api/views.py:720-790 | the zone loop of one configuration writes what the value-level zone loop writes and stops at the first failure |
| SettingsStore.ZoneSettingsStore.SaveOneConfig | backend/api/views.py:700-790 | saving one configuration deletes its unsubmitted zones and writes the submitted ones, raising first on a bad order or an id outside the UUID range, as the value-level save does |
| SettingsStore.ZoneSettingsStore.SaveResolvedConfigs | backend/api/views.py:693-792 | the second pass saves every record into the configuration the first pass resolved it to, stopping at the first failure |
| SettingsStore.ZoneSettingsStore.SaveAllZoneConfigs | backend/api/views.py:611-795 | the save's answer and final zone table are those of the value-level save (failure restores the table), the configuration table is untouched, and the tables' constraints are kept |
| SettingsStore.ZoneSettingsStore.CopyZones | backend/api/views.py:876-889 | afterwards the zones are the old zones plus, under fresh ids, one copy of every zone of the source configuration moved to the target |
| SettingsStore.ZoneSettingsStore.AddNewActivityConfig | backend/api/views.py:838-931 | a rejected add changes nothing and does not enqueue; an accepted one creates a fresh configuration of the new type for the user, copies the user's DEFAULT zones into it, and enqueues the user exactly when it is the user's first configuration |
| SettingsStore.ZoneSettingsStore.DeleteActivityConfig | backend/api/views.py:933-975 | a rejected delete changes nothing; an accepted one removes the configuration and exactly its zones, leaving every other zone unchanged |
| SettingsStore.SaveKeepsTablesValidIf | backend/api/views.py:611-795 | the value-level save keeps the zone table's constraints |
| SummaryQuery.SummaryParams | backend/api/views.py:340-367 | an accepted year and month are the integers the parameters denote, the month is 1..12 and the year is between 2000 and the year after the current one |
| SummaryQuery.SummaryParamsAccept | backend/api/views.py:340-367 | integer texts in range are accepted with their values |
| SummaryQuery.SummaryParamsAcceptShown | backend/api/views.py:340-367 | every year and month in range, written in decimal, is accepted and read back unchanged |
| SummaryQuery.SummaryParamsExactly | backend/api/views.py:340-367 | a request is accepted exactly when both parameters are present integers in range, and a month out of range is reported before the year |

## Left out

- I/O is not modelled: the Strava client, OAuth, token encryption, HTTP responses, redirects, templates and message texts. Logging is also left out. A Strava call is an input value: a fetched batch, a stream payload, or the athlete zones as one `Result`.
- The clock is a parameter: `datetime.now().year`, `timezone.now()` and the batch's start timestamps.
- Floating point is modelled as `real`. The mean heart rate of an interval and the distance differences are exact, and `round` is half-to-even on exact halves.
- Database semantics are left out: concurrency, `select_for_update` and column widths such as `max_length` and the upper limit of `PositiveIntegerField`.
- `order_by("min_hr")` is a stable sort. Rows with equal `min_hr` keep storage order, which is a choice the database does not promise. The order-independence lemma is stated for zones with distinct `min_hr`.
- Where a NULL zone name sorts is a parameter (`NullPlacement`), since it depends on the database.
- The Django lookups `__year`, `__month` and `__week` are record fields: each stored zone time carries its ISO year and week, as the database computes them.
- Python's `int()` is modelled without underscores and without non-ASCII digits. `str.strip` removes ASCII whitespace only.
- A form key submitted twice (QueryDict multi-values) keeps its last value.
- UUID ids are integers drawn from one allocator. A textual zone id never parses with `int()`, so the save handler deletes such a zone and creates it again, as in the source.
- `transaction.atomic` is modelled as restoring the zone table after a failed save.
- `_handle_add_default_zones` (backend/api/views.py:797-835) is not part of this model.
- SettingsStore.ZoneSettingsStore.AddNewActivityConfig: the queue `get_or_create` and the Strava activity count that follow the first configuration are reported only as the `enqueue` flag. The `except Exception` branch is not modelled.
- SettingsStore.ZoneSettingsStore.DeleteActivityConfig: an id that is not a UUID and a configuration that does not exist both give `NotFound`. The generic-error branch is not modelled.
- SettingsStore.ZoneSettingsStore.CopyZones: the DEFAULT zones are copied in any order. With fresh ids the copy order cannot be observed.
- Worker.ProcessOutcomeSpec: the stream parser and the time-in-zone calculation are parameters. The bookkeeping around them is modelled. As written, backend/api/worker.py:147 unpacks two values from `parse_activity_streams`, which returns four. Line 151 also calls `calculate_time_in_zones` with three arguments, where it takes five. That mismatch is not modelled. A summary's `id` is either absent or an integer: the ValueError of `int()` on a non-integer id at line 110 is not modelled. A start date that is neither missing nor text (some other object handed to `timezone.is_naive`) is also not modelled.
- `process_new_activity` and `delete_activity` (backend/api/worker.py:177-241) are not part of this model.
- `strava_zones_backend/api/worker.py` is not part of this model. Only the earlier engine's `hr_processing.py` is modelled.
- HrProcessing.TimeInZonesKeys: the zone rows are read once, as one `Result`, and that one read stands for every query of a calculation. The source reads them anew to seed the keys (backend/api/hr_processing.py:179) and again for every data point (backend/api/hr_processing.py:115). A concurrent change between these reads is not modelled, so the `.get(zone_name, 0)` fallback at line 218 never adds a key here.
- HrProcessing.TimeInZonesConservation: the same single read is assumed as for TimeInZonesKeys.
- HrProcessing.StepLaws: the same single read is assumed as for TimeInZonesKeys.
- LegacyHrProcessing.StepLaws: the same single read is assumed (strava_zones_backend/api/hr_processing.py:97 and 165, fallback at 201).
- LegacyHrProcessing.TimeInZonesConservation: the same single read is assumed as for LegacyHrProcessing.StepLaws.
- ZoneSummaries.NameLe: non-null zone names are ordered by code point. The database orders them by its collation, which may differ for letter case and non-ASCII text.
- Zones.Clean: a bound that is neither null nor an integer makes the source's comparison raise TypeError. `NotInt` is read as null there, so that error is not modelled.
- IsoWeeks.DetermineWeeksInMonth: the docstring promises the weeks of every day of the month, but the code drops weeks whose ISO year differs from the month's year. The model follows the code and proves both sides (December2025, January2021).

## Findings

| source | as written | input that shows it | evidently intended | confidence | as-written member | corrected member |
|---|---|---|---|---|---|---|
| backend/api/views.py:747-753 | a zone whose order is not an integer is logged with `str(order)` inside the `except` branch, and `.get('name', ...)` builds its default eagerly; if no order has been bound earlier in the request, this raises `UnboundLocalError`, which aborts and rolls back the whole save | one RUN configuration record with a valid id and activity type and a single zone `configs[0][zones][0][name]=Z1` without `order`, and no DEFAULT record | skip the zone and go on saving | not executed | ZoneSettings.UnboundOrderRaises | ZoneSettings.PlanZoneWrites |
