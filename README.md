# energy_monitor: tariff resolution, pricing and simulator core in Dafny

This project models the computational core of the energy_monitor backend. That backend monitors
a building's consumption, solar production, battery and grid flows, and prices them under the
Portuguese regulated electricity tariffs. The model covers:

- **Calendar and tariff rules** (`backend/app/grid_tariff.py`, module `GridTariff`):
  - the last Sunday of a month;
  - the summer/winter season;
  - the day type, where a holiday counts as a Sunday;
  - the grid-access cost with its 0.05 €/kWh fallback;
  - the buy price `((spot/1000)·loss + spread + access)·vat` and the export price
    `spot/1000·multiplier`.

  Dates are proleptic Gregorian (module `Calendar`), with leap years, an ordinal, the Python
  weekday (Monday = 0) and ISO `YYYY-MM-DD` text.
- **The tariff tables** (`backend/app/db/repository.py`). The SQL tables become sequences of
  rows.
  - The pure half is module `TariffTables`:
    - the `HH:MM` parser and the half-open minute window with midnight wrap-around;
    - the first-match scan over grid cost rows;
    - selection of the active tariff definition (greatest `valid_from` among the covering
      rows);
    - the four parameter getters with their defaults;
    - the merge used by update;
    - the fold of site-setting rows over their defaults.
  - The imperative half is the class `Db.Repository`. Its methods scan the cost rows with an
    early return, and insert, update and delete definitions in place. It also reads the site
    settings with a loop, and upserts usage-profile rows.
- **The older hour-range price transformer** (`backend/app/transformers/prices.py`, module
  `LegacyPrices`): peak over super-off-peak over off-peak, then `spot/1000 + access` and
  `spot/1000·multiplier`.
- **The seven-day simulator** (`backend/app/simulator.py`). Module `Sim` holds the class
  `Simulator` and its helpers, and module `Analytics` the downsampling. It covers:
  - the slot counter over 672 quarter hours;
  - the slot's weekday profile row, day type, hour and `HH:MM` text;
  - the per-slot row computation, with weekend scaling and the state of charge clamped to
    [0, 100];
  - the four history series bounded like `deque(maxlen=…)`;
  - the time-bucket downsampling of `build_analytics`.
- **Flow-path expansion** in `get_consumption_data` (`backend/app/main.py`, module
  `FlowPaths`):
  - `map_node`;
  - the active paths of a row;
  - the coloured edges built from each row of the path table.
- **Usage-profile build** (`backend/app/ai/usage_profiles.py`, module `UsageProfiles`): the
  loop that writes a weekday row and a weekend row per 15-minute slot into the repository.

Supporting modules:
- `Wrappers`: `Option`.
- `Text`:
  - `strip`, `split`, `join`, `upper`, `lower` and `int()`, restricted to ASCII (see "Left out");
  - the lexicographic order SQLite uses to compare text.

Where the code and its documentation disagree, the model follows the code:

- **Summer.** `get_season` tests `summer_start <= d <= summer_end`, so the last Sunday of
  October is a summer day (`GridTariff.SeasonBoundaries`). The documentation describes it as
  the first day of winter.
- **Usage profiles are replaced, not appended.** `insert_usage_profile` is `INSERT OR REPLACE`.
  Its docstring names (profile_id, day_type, slot_15min) as the key, so the model stores usage
  profiles as an upsert on that key. When no earlier row shares a key with the new rows, the
  upserts amount to appending the rows in order (`UsageProfiles.StoredAppends`).
- **PATH columns.** `get_current_row` in the simulator emits a single `PATH` column, while
  `get_consumption_data` reads `PATH 1`, `PATH 2` and `PATH 3`. So a row served by the
  simulator never has active paths (`FlowPaths.CurrentRowHasNoActivePaths`).

These Python exceptions are explicit outcomes of the model rather than preconditions:
- a grid-cost row whose times `int()` cannot parse makes the lookup raise, which is
  `Lookup.Fault`;
- a matching grid-cost row whose `grid_access_eur_kwh` is NULL makes `float()` raise a
  `TypeError`, which is `Lookup.Fault` too;
- a NULL export multiplier in the older transformer raises a `TypeError`, which is `None`;
- an index past the loaded profile rows raises an `IndexError`, which is `Fault`.

The few exceptions a precondition excludes instead, such as a zero `step_seconds` in the
simulator, are named under "Left out".

## Model

| member | source | states |
|---|---|---|
| Calendar.PrevDay | backend/app/grid_tariff.py:47 | The day before a valid date (other than 0001-01-01) is a valid date whose ordinal is one less: `- timedelta(days=1)` |
| Calendar.NextDayOrdinal | backend/app/grid_tariff.py:47 | The next day of a valid date below 9999-12-31 is valid and one ordinal later |
| Calendar.WeekdayNextDay | backend/app/grid_tariff.py:48 | `date.weekday()` advances by one, modulo 7, from one day to the next |
| Calendar.WeekdayInMonth | backend/app/grid_tariff.py:48-49 | Within a month, the weekday of day j is the weekday of day i shifted by j − i, modulo 7 |
| Calendar.WeekdayAnchors | backend/app/grid_tariff.py:81 | 0001-01-01 and 2024-01-01 are Mondays (weekday 0, Python's convention) and 2026-10-25 is a Sunday |
| Calendar.IsoOrder | backend/app/db/repository.py:332-337 | Comparing `isoformat()[:10]` texts as strings, as the SQL `valid_from <= ? AND valid_to >= ?` does, is comparing the dates |
| Calendar.IsoInjective | backend/app/db/repository.py:332 | Two valid dates with the same ISO text are the same date |
| Calendar.MonthDayOrder | backend/app/db/repository.py:332-337 | The `-MM-DD` part of the ISO text orders as (month, day) |
| GridTariff.LastSundayOfMonth | backend/app/grid_tariff.py:41-49 | The result is a Sunday in the given month and year (December included, via 1 January of the next year), and lies in the month's last seven days |
| GridTariff.LastDayOfMonth | backend/app/grid_tariff.py:43-47 | Stepping back one day from the first of the next month gives the month's last day, for December too |
| GridTariff.LastSundayIsLast | backend/app/grid_tariff.py:41-49 | No Sunday of the month comes after the computed one |
| GridTariff.GetSeason | backend/app/grid_tariff.py:52-64 | Definition of get_season, without a contract of its own: summer from March's last Sunday to October's last Sunday, both included. Its properties are the contracts of SeasonByMonth and SeasonBoundaries |
| GridTariff.SeasonByMonth | backend/app/grid_tariff.py:52-64 | Summer iff the month is April to September, or March on or after its last Sunday, or October up to and including its last Sunday |
| GridTariff.SeasonBoundaries | backend/app/grid_tariff.py:58-64 | Both boundary Sundays are summer; the day before March's last Sunday and the day after October's last Sunday are winter |
| GridTariff.GetDayOfWeek | backend/app/grid_tariff.py:67-86 | Definition of get_day_of_week, without a contract of its own: a holiday is a Sunday, otherwise the weekday decides. Its properties are DayTypeCases' contract |
| GridTariff.DayTypeCases | backend/app/grid_tariff.py:67-86 | Sunday iff the date is a holiday or a Sunday; Saturday iff not a holiday and a Saturday; weekday iff not a holiday and Monday to Friday |
| GridTariff.GetGridAccess | backend/app/grid_tariff.py:89-106 | Definition of get_grid_access, without a contract of its own: the repository lookup, with 0.05 when nothing matches. Its properties are the contracts of GridAccessFallback and GridAccessFound |
| GridTariff.GridAccessFallback | backend/app/grid_tariff.py:89-106 | The lookup raises iff the scan first stops at a selected row whose times do not parse, or at a matching row whose cost is NULL; when every row is passed over the cost is exactly 0.05 |
| GridTariff.GridAccessFound | backend/app/grid_tariff.py:104-106 | When the first row the scan stops at matches, its cost is returned, and a NULL cost raises |
| GridTariff.VoltageLevel | backend/app/grid_tariff.py:129-130 | Definition of the voltage choice, without a contract of its own: the dict's `voltage_level` (default "medium_voltage"), or the stored setting when no dict or an empty one is passed. Its properties are StoredVoltageLevel's contract |
| GridTariff.StoredVoltageLevel | backend/app/grid_tariff.py:129-130 | Without a settings dict the voltage level is get_site_settings' `voltage_level`: the last stored row's value, or "medium_voltage" when no row has the key |
| GridTariff.ComputeBuyPrice | backend/app/grid_tariff.py:109-147 | Definition of compute_buy_price, without a contract of its own: None where the grid-access lookup raises. Its properties are the contracts of the BuyPrice lemmas and PricesOnEmptyDatabase |
| GridTariff.ComputeExportPrice | backend/app/grid_tariff.py:150-170 | Definition of compute_export_price, without a contract of its own. Its properties are the contracts of ExportPriceLinear and PricesOnEmptyDatabase |
| GridTariff.PricesOnEmptyDatabase | backend/app/grid_tariff.py:34-38 | With no rows at all, buy = ((spot/1000)·1.08 + 0.005 + 0.05)·1.23 and export = spot/1000·0.8 |
| GridTariff.BuyPriceUsesSlotCost | backend/app/grid_tariff.py:129-147 | With a unique matching cost row, the buy price uses that row's cost, and raises when that cost is NULL |
| GridTariff.BuyPriceFallbackAccess | backend/app/grid_tariff.py:104-106 | When no cost row has the query's type, voltage, season and day type, the buy price uses 0.05 |
| GridTariff.BuyPriceSlope | backend/app/grid_tariff.py:140-147 | Two spot prices give buy prices that differ by (s1 − s2)/1000 · loss · vat, and raise together |
| GridTariff.AffineDifference | backend/app/grid_tariff.py:144-147 | The buy formula is affine in the spot price with slope loss·vat/1000 |
| GridTariff.ExportPriceLinear | backend/app/grid_tariff.py:150-170 | The export price is 0 at spot 0 and additive in the spot price: no access or VAT term |
| TariffTables.ParseTimeMinutes | backend/app/db/repository.py:411-418 | Definition of _parse_time_minutes, without a contract of its own: None where `int()` raises. Its properties are the contracts of the Parse lemmas, SplitClockText and MidnightDefault |
| TariffTables.ParseClockText | backend/app/db/repository.py:411-418 | Two-digit `HH:MM` parses to h·60 + m, so "24:00" gives 1440 |
| TariffTables.ParseHourOnly | backend/app/db/repository.py:413-415 | A time without a minute part parses as minute 0 |
| TariffTables.MidnightDefault | backend/app/db/repository.py:413 | None and "" are read as "00:00" |
| TariffTables.ParseTwoFields | backend/app/db/repository.py:413-418 | Text with two fields parses its hour and minute with `int()`, with the 24:00 case |
| TariffTables.ParseOneField | backend/app/db/repository.py:413-418 | Text without ':' is the hour, with minute 0 |
| TariffTables.SplitClockText | backend/app/db/repository.py:413 | Stored `HH:MM` text is already stripped and splits into its two fields |
| TariffTables.MinutesInRange | backend/app/db/repository.py:420-424 | Definition of _minutes_in_range, without a contract of its own. Its properties are the contracts of WrapIsUnion and ComplementaryWindows |
| TariffTables.WrapIsUnion | backend/app/db/repository.py:420-424 | A window with start > end is the union of [start, 24:00) and [00:00, end) |
| TariffTables.ComplementaryWindows | backend/app/db/repository.py:420-424 | A window with start == end holds no minute; swapping distinct ends gives the complementary window |
| TariffTables.FirstStop | backend/app/db/repository.py:447-452 | The index of the first row not passed over, and None iff every row is passed over |
| TariffTables.Scan | backend/app/db/repository.py:447-452 | Definition of the scan's outcome, without a contract of its own: the row it returns, None, or the raise. Its properties are the contracts of ScanStopsAt, ScanRunsOff, FirstMatchWins, FaultOnlyWhenReached and TiledLookup |
| TariffTables.GridAccessAt | backend/app/db/repository.py:447-452 | Definition of get_grid_access over the rows, without a contract of its own: the cost of the row the scan returns, a raise when it is NULL. Its properties are the contracts of TiledLookup and GridAccessAtFault |
| TariffTables.GridAccessAtFault | backend/app/db/repository.py:447-451 | The lookup raises iff the scan first stops at a selected row whose times do not parse, or at a matching row whose cost is NULL (`float(None)`) |
| TariffTables.SlotNameAt | backend/app/db/repository.py:475-480 | Definition of get_slot_name over the rows, without a contract of its own: the slot name of the row the scan returns. Its properties are TiledLookup's contract |
| TariffTables.FirstStopAt | backend/app/db/repository.py:447-452 | The scan stops at the first row that is not skipped |
| TariffTables.ScanStopsAt | backend/app/db/repository.py:447-452 | At that row the scan returns it if it matches and raises if its times do not parse |
| TariffTables.ScanRunsOff | backend/app/db/repository.py:452 | If every row is passed over, the result is None |
| TariffTables.FirstMatchWins | backend/app/db/repository.py:447-451 | The first matching row wins over every later one |
| TariffTables.FaultOnlyWhenReached | backend/app/db/repository.py:447-450 | The lookup raises iff an unparsable selected row comes before every match |
| TariffTables.TiledLookup | backend/app/db/repository.py:440-480 | On a table where exactly one row matches and none fails, get_grid_access and get_slot_name both return that row's values |
| TariffTables.ActiveIndex | backend/app/db/repository.py:330-341 | None iff no row of the type covers the date; otherwise a covering row, whose valid_from is the greatest among covering rows, and the first in table order with that valid_from |
| TariffTables.ActiveDefinition | backend/app/db/repository.py:330-341 | Definition of get_active_erse_tariff, without a contract of its own: the row ActiveIndex picks. Its properties are the contracts of ActiveIndex, ActiveIndexUnique and ActiveAfterAppend |
| TariffTables.ActiveIndexUnique | backend/app/db/repository.py:330-341 | Those three properties determine the chosen row |
| TariffTables.CoversByCalendar | backend/app/db/repository.py:332-337 | With ISO texts, covering is valid_from ≤ date ≤ valid_to as dates |
| TariffTables.ActiveAfterAppend | backend/app/db/repository.py:330-361 | After an insert, the new row is active iff it covers the date and its valid_from is strictly greater than the previous winner's; otherwise the previous winner stays |
| TariffTables.TariffParam | backend/app/db/repository.py:482-496 | Definition of _get_tariff_param, without a contract of its own: the active row's column, or the default when there is no row or the column is NULL. Its properties are the contracts of ParamsWithoutDefinition and ParamOfActive |
| TariffTables.LossFactor | backend/app/db/repository.py:498-500 | Definition of get_loss_factor (default 1.08), without a contract of its own; see ParamsWithoutDefinition and ParamOfActive |
| TariffTables.BuySpread | backend/app/db/repository.py:502-504 | Definition of get_buy_spread (default 0.005), without a contract of its own; see ParamsWithoutDefinition and ParamOfActive |
| TariffTables.VatRate | backend/app/db/repository.py:506-508 | Definition of get_vat_rate (default 1.23), without a contract of its own; see ParamsWithoutDefinition and ParamOfActive |
| TariffTables.ExportMultiplier | backend/app/db/repository.py:510-512 | Definition of get_export_multiplier (default 0.8), without a contract of its own; see ParamsWithoutDefinition and ParamOfActive |
| TariffTables.ParamsWithoutDefinition | backend/app/db/repository.py:482-512 | With no covering definition, the getters return 1.08, 0.005, 1.23 and 0.8 |
| TariffTables.ParamOfActive | backend/app/db/repository.py:482-512 | With an active definition, each getter returns its column, or the default when the column is NULL |
| TariffTables.InsertedDefaultsReadBack | backend/app/db/repository.py:343-361 | An inserted definition without numeric keys reads back 1.08, 0.005, 1.23 and 0.8 once it is the only covering one |
| TariffTables.Merge | backend/app/db/repository.py:370-395 | Definition of the merged row update_erse_tariff writes, without a contract of its own: a non-empty text or a present numeric key replaces the stored column. Its properties are MergeProperties' contract |
| TariffTables.MergeProperties | backend/app/db/repository.py:370-395 | An empty patch changes nothing; merging is idempotent; the id, peak hours and access charges are never changed |
| TariffTables.UpdatedTable | backend/app/db/repository.py:363-395 | Definition of the table update_erse_tariff leaves, without a contract of its own. Its properties are UpdatedTableEffect's contract |
| TariffTables.UpdatedTableEffect | backend/app/db/repository.py:363-395 | The table keeps its length and ids, other rows are untouched, and an unknown id is a no-op |
| TariffTables.IndexOfId | backend/app/db/repository.py:366-369 | The first row with the id, and None iff no row has it |
| TariffTables.RemoveId | backend/app/db/repository.py:397-400 | Definition of the table delete_erse_tariff leaves, without a contract of its own. Its properties are the contracts of RemoveUnknownId, RemoveKnownId and RemoveRowKeepsIds |
| TariffTables.RemoveUnknownId | backend/app/db/repository.py:397-400 | Deleting an unknown id leaves the table unchanged |
| TariffTables.RemoveKnownId | backend/app/db/repository.py:397-400 | With unique ids, deleting row k's id removes exactly row k |
| TariffTables.RemoveRowKeepsIds | backend/app/db/repository.py:397-400 | Removing a row keeps ids unique and below the next rowid |
| TariffTables.SettingsOf | backend/app/db/repository.py:514-541 | Definition of get_site_settings' fold over the rows, without a contract of its own. Its properties are SettingsOfByKey's contract, with LastTextSpec and LastNumberSpec |
| TariffTables.LastTextSpec | backend/app/db/repository.py:525-540 | A text setting is the value of the last row with its key, or the default |
| TariffTables.LastNumberSpec | backend/app/db/repository.py:529-538 | A numeric setting is the value of the last row with its key that parses, or the default |
| TariffTables.SettingsOfByKey | backend/app/db/repository.py:514-541 | Folding the rows is reading each of the four keys on its own: other keys are ignored |
| Db.MaxId | backend/app/db/repository.py:343-361 | A bound at or above every id, from which the next rowid is taken |
| Db.Repository.constructor | backend/app/db/repository.py:50-53 | The repository starts from the given tables, with unique ids and the next rowid above them |
| Db.Repository.FindSlotRow | backend/app/db/repository.py:440-452 | The loop with early return, parsing each selected row's times, finds the row the scan specification names |
| Db.Repository.GetGridAccess | backend/app/db/repository.py:426-452 | The cost of the first matching row of the query; None, or a raise for an unparsable time or a NULL cost |
| Db.Repository.GetSlotName | backend/app/db/repository.py:454-480 | The slot name of the same row GetGridAccess picks |
| Db.Repository.InsertErseTariff | backend/app/db/repository.py:343-361 | Appends exactly one row with defaults for absent numeric keys, returns its new id, and keeps the other tables |
| Db.Repository.UpdateErseTariff | backend/app/db/repository.py:363-395 | Replaces the row with the id by its merge with the patch, and keeps ids unique |
| Db.Repository.DeleteErseTariff | backend/app/db/repository.py:397-400 | Removes the rows with the id, and nothing else changes |
| Db.Repository.GetSiteSettings | backend/app/db/repository.py:514-541 | Defaults overridden key by key by the last usable row |
| Db.Repository.InsertUsageProfile | backend/app/db/repository.py:276-304 | Replaces any row with the same (profile_id, day_type, slot_15min) and appends the new one |
| Db.Upsert | backend/app/db/repository.py:287-290 | Definition of INSERT OR REPLACE, without a contract of its own: the rows with other keys, then the new row. Its properties are UpsertEffect's contract |
| Db.WithoutKey | backend/app/db/repository.py:287-290 | Exactly the rows whose key differs |
| Db.WithoutAbsentKey | backend/app/db/repository.py:287-290 | Dropping a key no row has leaves the table unchanged |
| Db.UpsertEffect | backend/app/db/repository.py:287-290 | After an upsert the table holds the new row and the old rows with other keys, and keys stay unique |
| Db.WithoutKeyUnique | backend/app/db/repository.py:287-290 | Dropping a key keeps keys unique |
| LegacyPrices.HourInRange | backend/app/transformers/prices.py:12-22 | Definition of _hour_in_range, without a contract of its own. Its properties are the contracts of HourInRangeExists and HourRangeIsWindow |
| LegacyPrices.HourInRangeExists | backend/app/transformers/prices.py:12-22 | The loop with early return holds iff some range of two or more entries holds the hour |
| LegacyPrices.HourRangeIsWindow | backend/app/transformers/prices.py:15-21 | One hour range is the repository's half-open window with wrap-around |
| LegacyPrices.AccessSlotCases | backend/app/transformers/prices.py:35-42 | Peak iff in a peak range; super off-peak iff not peak and in a super range; off-peak otherwise |
| LegacyPrices.AccessCharge | backend/app/transformers/prices.py:25-42 | Definition of _get_access_charge, without a contract of its own: the charge of the hour's slot, 0.0 when NULL. Its properties are the contracts of AccessSlotCases and NoPeakHoursMeansOffPeak |
| LegacyPrices.NoPeakHoursMeansOffPeak | backend/app/transformers/prices.py:27-42 | Without peak hours, the charge is the off-peak one, or 0.0 when NULL |
| LegacyPrices.ComputeBuyExportPrices | backend/app/transformers/prices.py:45-70 | Definition of compute_buy_export_prices, without a contract of its own: None where a NULL multiplier raises. Its properties are the contracts of LegacyBuySlope and ExportAgreesWithGridTariff |
| LegacyPrices.LegacyBuySlope | backend/app/transformers/prices.py:56-70 | The buy price moves one for one with spot/1000 (no loss or VAT); without an active definition the result is (spot/1000 + 0.05, spot/1000·0.8) |
| LegacyPrices.ExportAgreesWithGridTariff | backend/app/transformers/prices.py:58-69 | Where this path returns, its export price equals compute_export_price; it raises iff the active definition's multiplier is NULL |
| Analytics.FloorDiv | backend/app/simulator.py:457 | Python's `//`: the quotient rounded down, for either sign of divisor |
| Analytics.Buckets | backend/app/simulator.py:454-459 | Definition of `buckets` after the fill loop, without a contract of its own. Its properties are the contracts of BucketsNonEmpty, BucketsFromKeptPoints and BucketValuesFromPoints |
| Analytics.FirstTimes | backend/app/simulator.py:454-459 | Definition of `bucket_times` after the fill loop, without a contract of its own. Its properties are the contracts of BucketsFromKeptPoints and FirstTimeInBucket |
| Analytics.Expected | backend/app/simulator.py:447-465 | Definition of downsample's result, without a contract of its own: empty input gives no points, a zero bucket raises once a point is kept. Its properties are the contracts of Downsample, DownsampledShape and DownsampleWithin |
| Analytics.BucketsNonEmpty | backend/app/simulator.py:454-459 | Every bucket holds a value, and the first-time map has the same indices |
| Analytics.BucketsFromKeptPoints | backend/app/simulator.py:454-459 | A bucket exists iff some kept point falls in it, and its time is the first such point's |
| Analytics.FirstTimeInBucket | backend/app/simulator.py:457-459 | With a positive size, a bucket's time lies in its interval and its index is non-negative |
| Analytics.SortedSpec | backend/app/simulator.py:462 | The sorted keys are exactly the set, strictly increasing |
| Analytics.MinOf | backend/app/simulator.py:462 | The least key of a non-empty set |
| Analytics.SortKeys | backend/app/simulator.py:462 | `sorted(buckets.keys())` |
| Analytics.CollectBuckets | backend/app/simulator.py:454-459 | The fill loop builds the bucket and first-time maps, and raises on a zero size iff a point is kept |
| Analytics.Emit | backend/app/simulator.py:461-464 | One output point per key |
| Analytics.EmitSpec | backend/app/simulator.py:461-464 | Point i is the first time and mean of the i-th key's bucket |
| Analytics.EmitBuckets | backend/app/simulator.py:461-465 | The emit loop returns the points Emit specifies |
| Analytics.Downsample | backend/app/simulator.py:447-465 | The method returns the specified downsampled series |
| Analytics.DownsampledShape | backend/app/simulator.py:447-465 | One point per non-empty bucket, in strictly increasing index, each the mean of its bucket at the first time seen |
| Analytics.MeanWithin | backend/app/simulator.py:464 | A mean lies within the bounds of its values |
| Analytics.BucketValuesFromPoints | backend/app/simulator.py:454-459 | Bucket values are point values |
| Analytics.DownsampleWithin | backend/app/simulator.py:447-465 | Downsampling keeps values within any bounds the input respects |
| Sim.Cell | backend/app/simulator.py:28 | A missing column reads as "" |
| Sim.SlotHour | backend/app/simulator.py:221 | An hour in [0, 24) |
| Sim.SlotMinute | backend/app/simulator.py:235 | A minute in [0, 60) |
| Sim.SlotClock | backend/app/simulator.py:233-236 | The minute is 0, 15, 30 or 45, hour·60 + minute is (slot % 96)·15, and TIME has five characters |
| Sim.SlotTimeRoundTrip | backend/app/simulator.py:233-236 | The TIME text parses back through _parse_time_minutes to the slot's minute of day |
| Sim.IsWeekend | backend/app/simulator.py:138-141 | Definition of _is_weekend, without a contract of its own: days 5 and 6 of the week. Its properties are SlotDayTypeAgrees' contract |
| Sim.SlotDayType | backend/app/simulator.py:216-226 | Definition of the day type get_current_slot_info reports, without a contract of its own. Its properties are SlotDayTypeAgrees' contract |
| Sim.SlotDayTypeAgrees | backend/app/simulator.py:138-141 | `_is_weekend` agrees with the day type, and the slot's day type is get_day_of_week's for a non-holiday date with that weekday |
| Sim.RowForSlot | backend/app/simulator.py:143-149 | None iff no rows are loaded; otherwise row slot % 96, or a raise past the loaded rows |
| Sim.FullProfileRows | backend/app/simulator.py:143-149 | With a full day of rows the lookup never fails and repeats every 96 slots |
| Sim.Max0 | backend/app/simulator.py:177-178 | `max(0, x)` is non-negative and at least x |
| Sim.ClampSoc | backend/app/simulator.py:190 | The clamp lands in [0, 100] and keeps values already there |
| Sim.AfternoonFraction | backend/app/simulator.py:164-202 | The integer afternoon test is `csv_idx / 96 > 0.4` |
| Sim.NextSoc | backend/app/simulator.py:182-190 | The new state of charge lies in [0, 100] |
| Sim.ComputeRow | backend/app/simulator.py:155-214 | State of charge in [0, 100]; load, solar, EV and heat-pump power non-negative |
| Sim.WeekendBalance | backend/app/simulator.py:171-180 | On weekends grid = randomized (load − solar − battery) and the EV does not charge |
| Sim.WeekdayCharging | backend/app/simulator.py:192-196 | On weekdays the EV draws 10 to 20 kW in slots 32 to 72 and nothing outside them |
| Sim.SocWithoutReading | backend/app/simulator.py:182-190 | Without a parsable BATTERY SOC the previous charge is kept, clamped |
| Sim.BoundedAppend | backend/app/simulator.py:130-136 | The series grows by one until it reaches its bound |
| Sim.BoundedAppendNewest | backend/app/simulator.py:342-345 | The series is the newest points of old + [p], ending with p |
| Sim.BoundedAppendWithin | backend/app/simulator.py:342-345 | Appending keeps all values within bounds the new point respects |
| Sim.Response | backend/app/simulator.py:467-474 | Four series over the window, with battery_soc second |
| Sim.Analyze | backend/app/simulator.py:442-474 | The four downsampled series, or a raise |
| Sim.AnalyticsSocWithin | backend/app/simulator.py:442-474 | The analytics battery_soc series stays in [0, 100] |
| Sim.Simulator.constructor | backend/app/simulator.py:82-136 | Slots at 0, no row processed, empty series bounded by `int(hours·3600/step)`, state of charge from the first row |
| Sim.Simulator.GetCurrentRow | backend/app/simulator.py:155-214 | The computed row of the current slot (None without data, a raise past the rows); it updates only the state of charge |
| Sim.Simulator.GenerateSnapshot | backend/app/simulator.py:266-348 | `_last_slot` = old slot; slot advances modulo 672; each series gains exactly the new point within its bound; the state of charge stays in [0, 100] |
| Sim.Simulator.Advance | backend/app/simulator.py:271-272 | Stores the processed row, sets the next slot and records the four points |
| Sim.Simulator.Record | backend/app/simulator.py:342-345 | Appends one point to each series, within the bounds |
| Sim.Simulator.BuildAnalytics | backend/app/simulator.py:442-474 | The analytics of the current histories, with battery_soc in [0, 100] |
| Sim.Simulator.CurrentSlotInfo | backend/app/simulator.py:216-226 | The hour of the last slot lies in [0, 24) |
| Sim.RowCells | backend/app/simulator.py:240-260 | The row has exactly the 19 CSV columns |
| Sim.CurrentRowTime | backend/app/simulator.py:228-241 | None iff no row has been processed; TIME is a quarter-hour `HH:MM` that parses back to (slot % 96)·15 |
| FlowPaths.MapNode | backend/app/main.py:221-235 | Definition of map_node, without a contract of its own. Its properties are the contracts of MapNodeNormalises and MapNodeOther |
| FlowPaths.Colour | backend/app/main.py:252-261 | Definition of the path colour from the first step, without a contract of its own. Its properties are the contracts of SourceColourOfNode and ColourFollowsSource |
| FlowPaths.MapNodeNormalises | backend/app/main.py:221-222 | map_node ignores case and surrounding blanks |
| FlowPaths.MapNodeOther | backend/app/main.py:221-235 | A name other than the six nodes maps to its stripped lower-case form |
| FlowPaths.SourceColourOfNode | backend/app/main.py:252-261 | The colour of a source name is the colour of its node |
| FlowPaths.ColourFollowsSource | backend/app/main.py:252-261 | The colour depends only on the node the first step maps to: grid red, solar yellow, battery green, else white |
| FlowPaths.NonEmpty | backend/app/main.py:248 | Filtering never lengthens the list |
| FlowPaths.NonEmptyMembers | backend/app/main.py:248 | Exactly the non-empty entries are kept |
| FlowPaths.NonEmptyAppend | backend/app/main.py:248 | Filtering distributes over concatenation, keeping order |
| FlowPaths.NonEmptyIdempotent | backend/app/main.py:248 | Filtering twice is filtering once |
| FlowPaths.NonEmptyStep | backend/app/main.py:204-205 | Each loop step appends the cell iff it is non-empty |
| FlowPaths.Cells | backend/app/main.py:243-246 | One stripped cell per column |
| FlowPaths.ActivePaths | backend/app/main.py:200-205 | The loop returns the non-empty stripped PATH 1, PATH 2, PATH 3 values in order |
| FlowPaths.ActivePathsMembers | backend/app/main.py:200-205 | A value is active iff it is one of those three cells and non-empty |
| FlowPaths.SimulatorRowHasNoActivePaths | backend/app/main.py:202-203 | A row without the three columns has no active paths |
| FlowPaths.PathColumnsNotInRow | backend/app/simulator.py:240-260 | The simulator's row has none of PATH 1, PATH 2, PATH 3 |
| FlowPaths.CurrentRowHasNoActivePaths | backend/app/main.py:200-205 | Every row the simulator serves yields no active paths |
| FlowPaths.Nodes | backend/app/main.py:268-269 | One node per step |
| FlowPaths.RowEdges | backend/app/main.py:238-273 | Definition of the edges of one path-table row, without a contract of its own. Its properties are the contracts of RowEdgesWalkSteps and PairEdgesWalk |
| FlowPaths.PathDefinitions | backend/app/main.py:216-273 | Definition of `path_definitions`, without a contract of its own: every row's edges in table order. Its properties are the contracts of ExpandPaths, RowGroups and ConcatAppend |
| FlowPaths.RowGroups | backend/app/main.py:237-273 | One group of edges per row of the path table |
| FlowPaths.ConcatAppend | backend/app/main.py:237-273 | The edges of two runs of rows are their concatenation |
| FlowPaths.ConcatStep | backend/app/main.py:237-273 | Each row appends its group |
| FlowPaths.ExpandPaths | backend/app/main.py:237-273 | The nested loop yields every row's edges in table order |
| FlowPaths.AppendRowEdges | backend/app/main.py:238-273 | One row appends its edges: none for an empty PATHS or fewer than two steps |
| FlowPaths.AppendPairs | backend/app/main.py:264-273 | The inner loop appends one edge per consecutive pair |
| FlowPaths.PairEdgesWalk | backend/app/main.py:264-273 | n nodes give n − 1 edges from node i to node i+1, chained, sharing id, colour and description |
| FlowPaths.RowEdgesWalkSteps | backend/app/main.py:238-273 | A row has no edges iff PATHS is empty or fewer than two steps remain; otherwise its edges walk the mapped steps in the first step's node colour |
| UsageProfiles.ProfileHourOfSlot | backend/app/ai/usage_profiles.py:77 | `(slot // 4) % 24` is slot // 4, in [0, 24), the simulator's hour of the slot |
| UsageProfiles.Used | backend/app/ai/usage_profiles.py:72 | `rows[:96]`: a prefix of at most 96 rows, all of them when there are fewer |
| UsageProfiles.BuildUsageProfiles | backend/app/ai/usage_profiles.py:61-103 | Returns 2·min(len, 96) (0 on no rows); the usage profiles are the old table with the built rows upserted in order; other tables are unchanged |
| UsageProfiles.StoreSlot | backend/app/ai/usage_profiles.py:77-101 | Upserts the weekday row, then the weekend row, and counts two |
| UsageProfiles.SlotStored | backend/app/ai/usage_profiles.py:72-101 | One more slot adds its weekday and weekend upserts |
| UsageProfiles.ProfileRows | backend/app/ai/usage_profiles.py:72-101 | Definition of the rows the profile loop writes, without a contract of its own. Its properties are the contracts of ProfileRowsShape, WeekendScalesWeekday, KeyAt and ProfileRowKeys |
| UsageProfiles.ProfileRowsShape | backend/app/ai/usage_profiles.py:72-101 | Twice as many rows as slots: the weekday row of slot s at 2s, its weekend row at 2s + 1 |
| UsageProfiles.WeekendScalesWeekday | backend/app/ai/usage_profiles.py:91-100 | The weekend row is the weekday row with load ×0.4, battery and grid ×0.5, solar unchanged |
| UsageProfiles.KeyAt | backend/app/ai/usage_profiles.py:79-100 | Row i has key (profile, weekday/weekend by parity, slot i/2) |
| UsageProfiles.ProfileRowKeys | backend/app/ai/usage_profiles.py:79-100 | The built rows have distinct keys, exactly the profile's two day types for each used slot |
| UsageProfiles.StoredMembers | backend/app/ai/usage_profiles.py:79-101 | After the upserts the table holds the new rows and the old rows with other keys |
| UsageProfiles.LastKey | backend/app/ai/usage_profiles.py:79-101 | The last built row's key is new among the rows before it |
| UsageProfiles.StoredAppends | backend/app/ai/usage_profiles.py:79-101 | When no old row shares a key, the upserts append the rows in order |
| UsageProfiles.BuiltTable | backend/app/ai/usage_profiles.py:72-101 | After a build the table is the built rows plus every old row outside the profile's used slots, with keys unique |

## Left out

- Random draws: `random.uniform` in the simulator becomes the parameter `Draws`, with `ValidDraws` stating the ranges. The EV, heat-pump, weekend state-of-charge and the ±10 % randomization use these draws.
- Float parsing: Python's `float()` is the parameter `parse: string -> Option<real>`. The formatting of `str(float)` and `{:.0f}%` in `get_current_row` is the parameters `show` and `showPercent`.
- Floating point: prices and powers are exact reals, without IEEE-754 rounding.
- I/O: SQLite connections, schema and seed execution, retention, and the time-series insert and get methods. The tables are in-memory sequences given to `Db.Repository`'s constructor.
- The CSV file loading in the simulator, `main.py` and the usage-profile builder is left out: the rows are given. This includes the search for Consumption.csv, the BOM and blank-row cleaning, and the database consumption fetch of `source="db"`.
- The simulator's three-phase metrics, snapshot objects, overview and equipment lists are not modelled. They are presentation built from the computed row.
- `get_all_rows` and the `_get_current_row` copy semantics are not modelled: profile rows are values, so aliasing does not arise.
- FastAPI routers, the websocket loop and startup, and the rest of `get_consumption_data` are left out. That includes the labels, the metrics and the file-existence checks.
- JSON decoding of a text `peak_hours` is left out: `peak_hours` is an already-decoded map of range lists.
- Timezones and `datetime` internals: a timestamp is a decomposed (date, hour, minute). Sub-minute time is ignored, which no modelled code consults.
- Analytics.Downsample works on integer timestamps in seconds. The `timedelta` division of sub-second times is not modelled.
- TariffTables.ActiveIndex: SQLite does not define the order among rows with equal `valid_from`. The model picks the earliest in table order.
- Db.Repository.InsertUsageProfile: the upsert key is taken from the method's docstring. The table's schema is not part of this model.
- UsageProfiles.BuildUsageProfiles: a database consumption record's readings are plain numbers in the model (`DbSource`), so a NULL column cannot be expressed. In Python, `r.get("building_load_kw", 0)` passes a NULL on as `None`; the slot's weekday row is stored with it, and then `load * 0.4`, `battery * 0.5` or `grid * 0.5` raises `TypeError`. The table is left with the slots written so far plus that weekday row, and no count is returned. A NULL solar reading raises nothing, since it is copied unscaled.
- UsageProfiles.ReadingsOf: a CSV row without a power column but with a lower-case `building_load_kw` column would yield that raw text in Python. The model reads it as 0.0, since Consumption.csv rows carry the upper-case columns.
- Text.ParseInt: reads ASCII decimal text only. Python's `int()` also accepts single underscores between digits (`int("1_0") == 10`) and non-ASCII decimal digits, which the model reads as a ValueError. So TariffTables.ParseTimeMinutes reports a time such as "1_0:00" as unparsable, and a lookup that reaches that row is `Fault` where Python would read 10:00.
- Text.Strip: strips ASCII whitespace only. Python's `strip()` also removes non-ASCII whitespace such as U+00A0.
- Text.Upper: maps ASCII letters only. Python also maps non-ASCII letters: `"ſ".upper()` (U+017F) is "S". So FlowPaths.MapNode and FlowPaths.Colour read a step such as "ſolar" as an unknown white node, where Python gives "solar" and yellow.
- Text.Lower: maps ASCII letters only, where Python's `lower()` also maps non-ASCII letters.
- TariffTables.SlotNameAt: a NULL `slot_name` in a matching row is returned by Python as the text "None" (`str(None)`). The model's slot names are never NULL.
- Sim.Simulator.constructor: requires a non-zero `step_seconds` and a non-negative number of history points. Python raises `ZeroDivisionError` and a deque `ValueError` there. The only construction, `Simulator()` in main.py, uses the defaults of 24 hours and 900 seconds.
- Db.Repository.InsertErseTariff: assumes the id column never reuses a deleted id, as an AUTOINCREMENT key guarantees. The schema is not part of this model. With a plain INTEGER PRIMARY KEY, SQLite would hand out max(id) + 1 again after the highest row is deleted.
- GridTariff.LastSundayOfMonth: December 9999 is excluded by its precondition. There Python cannot form 1 January of the next year and raises, and `get_season` never asks for December.
- `set_site_setting`, `get_erse_tariff_definitions`, `get_usage_profiles` and `get_spot_price_for_timestamp` are not modelled: they are plain reads and writes of the tables.
- The collectors, `config.py`, `models.py` and `check_imports.py` are left out: they are network I/O, environment reading and declarations without behaviour.
