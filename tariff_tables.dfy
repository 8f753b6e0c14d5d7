/**
 * The pure half of the repository's tariff logic (backend/app/db/repository.py): the rows of
 * the tariff tables as values, `HH:MM` parsing, the half-open time window test with midnight
 * wrap-around, the first-match scan over grid-access cost rows, the choice of the active tariff
 * definition, the parameter getters with their defaults, the row that an insert writes, the
 * read-merge-write of an update, and the fold of site-settings rows over their defaults.
 */
module TariffTables {
  import opened Wrappers
  import opened Text
  import opened Calendar

  // Column defaults used by the parameter getters and by insert/update.
  const DefaultLossFactor: real := 1.08
  const DefaultBuySpread: real := 0.005
  const DefaultVatRate: real := 1.23
  const DefaultExportMultiplier: real := 0.8

  /** `peak_hours`, already decoded from JSON: slot name to a list of hour ranges. */
  type PeakHours = map<string, seq<seq<int>>>

  /** One row of erse_tariff_definitions. A NULL column is None. Dates are the stored text. */
  datatype TariffDefinition = TariffDefinition(
    id: int,
    tariffType: string,
    validFrom: string,
    validTo: string,
    lossFactor: Option<real>,
    buySpread: Option<real>,
    vatRate: Option<real>,
    exportMultiplier: Option<real>,
    peakHours: Option<PeakHours>,
    accessChargePeak: Option<real>,
    accessChargeOffPeak: Option<real>,
    accessChargeSuperOffPeak: Option<real>)

  /** One row of grid_tariff_costs; start and end are the stored `HH:MM` text, and a NULL
      column is None. */
  datatype GridCost = GridCost(
    tariffType: string,
    voltageLevel: string,
    season: string,
    dayOfWeek: string,
    slotName: string,
    startTime: Option<string>,
    endTime: Option<string>,
    gridAccess: Option<real>)

  /** What the pricing path reads from the database: definitions and cost rows in table order,
      the dates (as `YYYY-MM-DD` text) of the holiday table, and the site_settings rows. */
  datatype TariffData = TariffData(
    definitions: seq<TariffDefinition>,
    costs: seq<GridCost>,
    holidays: set<string>,
    settingRows: seq<SettingRow>)

  /** is_holiday: the first ten characters of the text are a holiday date. */
  predicate IsHoliday(holidays: set<string>, dateText: string) {
    (if |dateText| <= 10 then dateText else dateText[..10]) in holidays
  }

  // ---------------------------------------------------------------------------------------
  // Time of day

  /** _parse_time_minutes: `HH:MM` to minutes since midnight. None or "" is read as the text
      "00:00", which is minute 0 (MidnightDefault); a missing minute part is 0, and "24:00"
      gives 1440. int() raising ValueError is None. */
  function ParseTimeMinutes(s: Option<string>): Option<int> {
    if s.None? || s.value == "" then Some(0) else ParseTimeText(s.value)
  }

  /** The text, stripped and split at ':', read as hour and minute fields. */
  function ParseTimeText(text: string): Option<int> {
    var parts := Split(Strip(text), ':');
    ClockValue(ParseInt(parts[0]), if |parts| > 1 then ParseInt(parts[1]) else Some(0))
  }

  /** The parsed hour and minute fields as minutes; either failing to parse raises. */
  function ClockValue(hour: Option<int>, minute: Option<int>): Option<int> {
    if hour.None? || minute.None? then None
    else if hour.value == 24 && minute.value == 0 then Some(1440)
    else Some(hour.value * 60 + minute.value)
  }

  /** `HH:MM` with two-digit fields, as the tables store times. */
  function ClockText(h: nat, m: nat): string {
    Pad(h, 2) + ":" + Pad(m, 2)
  }

  /** Two-digit `HH:MM` text splits into its two fields. */
  lemma SplitClockText(h: nat, m: nat)
    ensures Strip(ClockText(h, m)) == ClockText(h, m)
    ensures Split(ClockText(h, m), ':') == [Pad(h, 2), Pad(m, 2)]
  {
    var hh, mm := Pad(h, 2), Pad(m, 2);
    assert ClockText(h, m) == hh + [':'] + mm;
    assert AllDigits(hh) && AllDigits(mm);
    StripClean(ClockText(h, m));
    assert ':' !in hh && ':' !in mm;
    SplitAfterFirst(hh, ':', mm);
    SplitNoSeparator(mm, ':');
  }

  /** Two-digit `HH:MM` text parses to h * 60 + m; "24:00" is 1440 like any other hour 24. */
  lemma ParseClockText(h: nat, m: nat)
    requires h < 100 && m < 100
    ensures ParseTimeMinutes(Some(ClockText(h, m))) == Some(h * 60 + m)
  {
    var hh, mm := Pad(h, 2), Pad(m, 2);
    ParsePad(h, 2);
    ParsePad(m, 2);
    assert ClockValue(ParseInt(hh), ParseInt(mm)) == Some(h * 60 + m);
    SplitClockText(h, m);
    ParseTwoFields(ClockText(h, m), [hh, mm]);
  }

  /** A bare hour `HH` has minute 0. */
  lemma ParseHourOnly(h: nat)
    requires h < 100
    ensures ParseTimeMinutes(Some(Pad(h, 2))) == Some(h * 60)
  {
    var hh := Pad(h, 2);
    ParsePad(h, 2);
    assert ClockValue(ParseInt(hh), Some(0)) == Some(h * 60);
    assert AllDigits(hh);
    StripClean(hh);
    assert ':' !in hh;
    SplitNoSeparator(hh, ':');
    ParseOneField(hh);
  }

  /** Stripped text with one ':' is read as its hour and minute fields. */
  lemma ParseTwoFields(t: string, parts: seq<string>)
    requires t != "" && Strip(t) == t && Split(t, ':') == parts && |parts| == 2
    ensures ParseTimeMinutes(Some(t)) == ClockValue(ParseInt(parts[0]), ParseInt(parts[1]))
  {
  }

  /** Stripped text without ':' is read as an hour with minute 0. */
  lemma ParseOneField(t: string)
    requires t != "" && Strip(t) == t && Split(t, ':') == [t]
    ensures ParseTimeMinutes(Some(t)) == ClockValue(ParseInt(t), Some(0))
  {
  }

  /** NULL and empty text read the same as the text "00:00" (ClockText(0, 0)). */
  lemma MidnightDefault()
    ensures ParseTimeMinutes(None) == ParseTimeMinutes(Some(ClockText(0, 0)))
    ensures ParseTimeMinutes(Some("")) == ParseTimeMinutes(Some(ClockText(0, 0)))
  {
    ParseClockText(0, 0);
  }

  /** _minutes_in_range: x in [start, end), or, when start > end, the window that wraps past
      midnight. */
  predicate MinutesInRange(x: int, start: int, end: int) {
    if start <= end then start <= x < end else x >= start || x < end
  }

  /** A wrapping window is the union of [start, 24:00) and [00:00, end). */
  lemma WrapIsUnion(x: int, start: int, end: int)
    requires 0 <= x < 1440 && 0 <= end < start <= 1440
    ensures MinutesInRange(x, start, end) <==> MinutesInRange(x, start, 1440) || MinutesInRange(x, 0, end)
  {
  }

  /** [a, b) and [b, a) split every minute between them when a != b; an empty window a == b
      holds nothing. */
  lemma ComplementaryWindows(x: int, a: int, b: int)
    ensures a != b ==> (MinutesInRange(x, a, b) <==> !MinutesInRange(x, b, a))
    ensures !MinutesInRange(x, a, a)
  {
  }

  // ---------------------------------------------------------------------------------------
  // Slot lookup

  /** The filter and the minute of get_grid_access / get_slot_name. */
  datatype Query = Query(tariffType: string, voltageLevel: string, season: string, dayOfWeek: string, minutes: int)

  /** The query for (hour, minute): minutes_since_midnight = hour * 60 + minute. */
  function SlotQuery(tariffType: string, voltageLevel: string, season: string, dayOfWeek: string,
                     hour: int, minute: int): Query {
    Query(tariffType, voltageLevel, season, dayOfWeek, hour * 60 + minute)
  }

  /** The row passes the SQL filter: exact tariff type, voltage level, season and day type. */
  predicate Selected(row: GridCost, q: Query) {
    row.tariffType == q.tariffType && row.voltageLevel == q.voltageLevel &&
    row.season == q.season && row.dayOfWeek == q.dayOfWeek
  }

  /** What the scan does at one row: pass over it, return it, or raise while parsing its times. */
  datatype Probe = Skip | Match | Fail

  function ProbeRow(row: GridCost, q: Query): Probe {
    if !Selected(row, q) then Skip
    else
      var start, end := ParseTimeMinutes(row.startTime), ParseTimeMinutes(row.endTime);
      if start.None? || end.None? then Fail
      else if MinutesInRange(q.minutes, start.value, end.value) then Match
      else Skip
  }

  /** Result of a lookup: a value, nothing found (Python None), or a raised ValueError. */
  datatype Lookup<T> = Hit(value: T) | Miss | Fault

  /** The probe of every row, in table order. */
  function Probes(rows: seq<GridCost>, q: Query): (ps: seq<Probe>)
    ensures |ps| == |rows| && forall i :: 0 <= i < |rows| ==> ps[i] == ProbeRow(rows[i], q)
  {
    seq(|rows|, i requires 0 <= i < |rows| => ProbeRow(rows[i], q))
  }

  /** Where the loop of get_grid_access and get_slot_name stops: the first row, in table order,
      that either matches the query or fails to parse; None when it runs off the end. */
  function FirstStop(ps: seq<Probe>): (r: Option<nat>)
    ensures r.Some? ==> r.value < |ps| && ps[r.value] != Skip
    ensures r.Some? ==> forall j :: 0 <= j < r.value ==> ps[j] == Skip
    ensures r.None? <==> forall j :: 0 <= j < |ps| ==> ps[j] == Skip
    decreases |ps|
  {
    if |ps| == 0 then None
    else if ps[0] != Skip then Some(0)
    else
      var rest := FirstStop(ps[1..]);
      assert forall j :: 1 <= j < |ps| ==> ps[1..][j - 1] == ps[j];
      if rest.None? then None else Some(rest.value + 1)
  }

  /** The outcome of the scan: the index of the row returned, None, or the ValueError raised. */
  function Scan(rows: seq<GridCost>, q: Query): Lookup<nat> {
    var ps := Probes(rows, q);
    match FirstStop(ps)
    case None => Miss
    case Some(i) => if ps[i] == Match then Hit(i) else Fault
  }

  /** get_grid_access on a sequence of rows: the cost of the row the scan stops at, where
      float() of a NULL cost raises TypeError. */
  function GridAccessAt(rows: seq<GridCost>, q: Query): Lookup<real> {
    match Scan(rows, q)
    case Hit(i) => if rows[i].gridAccess.Some? then Hit(rows[i].gridAccess.value) else Fault
    case Miss => Miss
    case Fault => Fault
  }

  /** get_slot_name on a sequence of rows: the slot name of the row the scan stops at. */
  function SlotNameAt(rows: seq<GridCost>, q: Query): Lookup<string> {
    match Scan(rows, q)
    case Hit(i) => Hit(rows[i].slotName)
    case Miss => Miss
    case Fault => Fault
  }

  /** The scan stops at i when row i is the first that is not skipped. */
  lemma {:induction false} FirstStopAt(ps: seq<Probe>, i: nat)
    requires i < |ps| && ps[i] != Skip
    requires forall j :: 0 <= j < i ==> ps[j] == Skip
    ensures FirstStop(ps) == Some(i)
  {
    var r := FirstStop(ps);
    assert r.Some? && !(r.value < i) && !(i < r.value);
  }

  /** When every selected row parses and exactly one selected row's window holds the minute
      (the rows for this context tile the day), the scan returns that row. */
  lemma TiledLookup(rows: seq<GridCost>, q: Query, i: nat)
    requires forall j :: 0 <= j < |rows| ==> ProbeRow(rows[j], q) != Fail
    requires i < |rows| && ProbeRow(rows[i], q) == Match
    requires forall j :: 0 <= j < |rows| && j != i ==> ProbeRow(rows[j], q) != Match
    ensures Scan(rows, q) == Hit(i)
    ensures GridAccessAt(rows, q) == (if rows[i].gridAccess.Some? then Hit(rows[i].gridAccess.value) else Fault)
    ensures SlotNameAt(rows, q) == Hit(rows[i].slotName)
  {
    var ps := Probes(rows, q);
    FirstStopAt(ps, i);
  }

  /** The outcome of the scan once row i is the first row it does not pass over. */
  lemma ScanStopsAt(rows: seq<GridCost>, q: Query, i: nat)
    requires i < |rows| && ProbeRow(rows[i], q) != Skip
    requires forall j :: 0 <= j < i ==> ProbeRow(rows[j], q) == Skip
    ensures Scan(rows, q) == if ProbeRow(rows[i], q) == Match then Hit(i) else Fault
  {
    FirstStopAt(Probes(rows, q), i);
  }

  /** The scan finds nothing when it passes over every row. */
  lemma ScanRunsOff(rows: seq<GridCost>, q: Query)
    requires forall j :: 0 <= j < |rows| ==> ProbeRow(rows[j], q) == Skip
    ensures Scan(rows, q) == Miss
  {
    var ps := Probes(rows, q);
    assert forall j :: 0 <= j < |ps| ==> ps[j] == Skip;
  }

  /** With overlapping windows the first matching row in table order wins, provided no earlier
      selected row has a time that fails to parse. */
  lemma FirstMatchWins(rows: seq<GridCost>, q: Query, i: nat)
    requires i < |rows| && ProbeRow(rows[i], q) == Match
    requires forall j :: 0 <= j < i ==> ProbeRow(rows[j], q) == Skip
    ensures Scan(rows, q) == Hit(i)
  {
    var ps := Probes(rows, q);
    FirstStopAt(ps, i);
  }

  /** An unparsable time in a selected row raises exactly when the scan reaches it: a matching
      row before it hides it. */
  lemma FaultOnlyWhenReached(rows: seq<GridCost>, q: Query)
    ensures Scan(rows, q).Fault? <==>
            exists j :: 0 <= j < |rows| && ProbeRow(rows[j], q) == Fail &&
                        forall k :: 0 <= k < j ==> ProbeRow(rows[k], q) == Skip
  {
    var ps := Probes(rows, q);
    if exists j :: 0 <= j < |rows| && ProbeRow(rows[j], q) == Fail &&
                   forall k :: 0 <= k < j ==> ProbeRow(rows[k], q) == Skip {
      var j :| 0 <= j < |rows| && ProbeRow(rows[j], q) == Fail &&
               forall k :: 0 <= k < j ==> ProbeRow(rows[k], q) == Skip;
      FirstStopAt(ps, j);
    }
  }

  /** get_grid_access over the rows raises exactly when the scan first stops at a selected row
      whose times do not parse, or at a matching row whose cost is NULL. */
  lemma GridAccessAtFault(rows: seq<GridCost>, q: Query)
    ensures GridAccessAt(rows, q).Fault? <==>
            exists j :: 0 <= j < |rows| &&
                        (ProbeRow(rows[j], q) == Fail || (ProbeRow(rows[j], q) == Match && rows[j].gridAccess.None?)) &&
                        forall k :: 0 <= k < j ==> ProbeRow(rows[k], q) == Skip
  {
    var ps := Probes(rows, q);
    match FirstStop(ps)
    case None =>
    case Some(i) =>
      forall j | 0 <= j < |rows| && ps[j] != Skip && forall k :: 0 <= k < j ==> ps[k] == Skip
        ensures j == i
      {
        FirstStopAt(ps, j);
      }
  }

  // ---------------------------------------------------------------------------------------
  // Active tariff definition

  /** The row is of the tariff type and valid_from <= key <= valid_to as text. */
  predicate Covers(r: TariffDefinition, tariffType: string, key: string) {
    r.tariffType == tariffType && StrLe(r.validFrom, key) && StrLe(key, r.validTo)
  }

  /** `... WHERE tariff_type = ? AND valid_from <= ? AND valid_to >= ? ORDER BY valid_from DESC
      LIMIT 1` as an index into the table: a covering row with the greatest valid_from; among
      rows with that same valid_from, the earliest in table order. */
  function ActiveIndex(defs: seq<TariffDefinition>, tariffType: string, key: string): (r: Option<nat>)
    ensures r.None? <==> forall i :: 0 <= i < |defs| ==> !Covers(defs[i], tariffType, key)
    ensures r.Some? ==> r.value < |defs| && Covers(defs[r.value], tariffType, key)
    ensures r.Some? ==> forall i :: 0 <= i < |defs| && Covers(defs[i], tariffType, key) ==>
                          StrLe(defs[i].validFrom, defs[r.value].validFrom)
    ensures r.Some? ==> forall i :: 0 <= i < r.value && Covers(defs[i], tariffType, key) ==>
                          defs[i].validFrom != defs[r.value].validFrom
    decreases |defs|
  {
    if |defs| == 0 then None
    else
      var rest := ActiveIndex(defs[1..], tariffType, key);
      assert forall i :: 1 <= i < |defs| ==> defs[1..][i - 1] == defs[i];
      if !Covers(defs[0], tariffType, key) then
        if rest.None? then None else Some(rest.value + 1)
      else if rest.None? then
        StrLeTotal(defs[0].validFrom, defs[0].validFrom);
        Some(0)
      else
        var best := defs[rest.value + 1];
        if StrLe(best.validFrom, defs[0].validFrom) then
          assert forall i :: 1 <= i < |defs| && Covers(defs[i], tariffType, key) ==>
                   StrLe(defs[i].validFrom, defs[0].validFrom) by {
            forall i | 1 <= i < |defs| && Covers(defs[i], tariffType, key) {
              StrLeTransitive(defs[i].validFrom, best.validFrom, defs[0].validFrom);
            }
          }
          StrLeTotal(defs[0].validFrom, defs[0].validFrom);
          Some(0)
        else
          StrLeTotal(best.validFrom, defs[0].validFrom);
          StrLeTotal(best.validFrom, best.validFrom);
          Some(rest.value + 1)
  }

  /** The definition get_active_erse_tariff returns. */
  function ActiveDefinition(defs: seq<TariffDefinition>, tariffType: string, at: Timestamp): Option<TariffDefinition>
    requires ValidDate(at.date)
  {
    match ActiveIndex(defs, tariffType, DateKey(at))
    case None => None
    case Some(i) => Some(defs[i])
  }

  /** The active row is determined by its three properties alone: any covering row whose
      valid_from is the greatest, and that no earlier covering row ties, is the one chosen. */
  lemma {:induction false} ActiveIndexUnique(defs: seq<TariffDefinition>, tariffType: string, key: string, k: nat)
    requires k < |defs| && Covers(defs[k], tariffType, key)
    requires forall i :: 0 <= i < |defs| && Covers(defs[i], tariffType, key) ==>
               StrLe(defs[i].validFrom, defs[k].validFrom)
    requires forall i :: 0 <= i < k && Covers(defs[i], tariffType, key) ==>
               defs[i].validFrom != defs[k].validFrom
    ensures ActiveIndex(defs, tariffType, key) == Some(k)
  {
    var r := ActiveIndex(defs, tariffType, key);
    var j := r.value;
    StrLeAntisymmetric(defs[j].validFrom, defs[k].validFrom);
  }

  /** When every validity bound is the ISO text of a date, the text comparison of the query is
      calendar comparison: a row covers the date iff valid_from <= date <= valid_to. */
  lemma CoversByCalendar(r: TariffDefinition, tariffType: string, from: Date, to: Date, d: Date)
    requires ValidDate(from) && ValidDate(to) && ValidDate(d)
    requires r.validFrom == IsoDate(from) && r.validTo == IsoDate(to)
    ensures Covers(r, tariffType, IsoDate(d)) <==>
            r.tariffType == tariffType && DateLe(from, d) && DateLe(d, to)
  {
    IsoOrder(from, d);
    IsoOrder(d, to);
  }

  /** What one more row does to the choice: the new row is chosen when it covers the date and
      its valid_from is strictly later than the current choice's (or there is none); otherwise
      the choice is unchanged. An insert therefore never displaces an equal-dated row. */
  lemma {:induction false} ActiveAfterAppend(defs: seq<TariffDefinition>, n: TariffDefinition, tariffType: string, key: string)
    ensures var before := ActiveIndex(defs, tariffType, key);
            ActiveIndex(defs + [n], tariffType, key) ==
              if Covers(n, tariffType, key) &&
                 (before.None? || !StrLe(n.validFrom, defs[before.value].validFrom))
              then Some(|defs|)
              else before
  {
    var all := defs + [n];
    var before := ActiveIndex(defs, tariffType, key);
    assert forall i :: 0 <= i < |defs| ==> all[i] == defs[i];
    if Covers(n, tariffType, key) && (before.None? || !StrLe(n.validFrom, defs[before.value].validFrom)) {
      forall i | 0 <= i < |all| && Covers(all[i], tariffType, key)
        ensures StrLe(all[i].validFrom, n.validFrom)
        ensures i < |defs| ==> all[i].validFrom != n.validFrom
      {
        if i < |defs| {
          var b := defs[before.value].validFrom;
          StrLeTotal(n.validFrom, b);
          StrLeTransitive(all[i].validFrom, b, n.validFrom);
        } else {
          StrLeTotal(n.validFrom, n.validFrom);
        }
      }
      ActiveIndexUnique(all, tariffType, key, |defs|);
    } else if before.Some? {
      var k := before.value;
      forall i | 0 <= i < |all| && Covers(all[i], tariffType, key)
        ensures StrLe(all[i].validFrom, all[k].validFrom)
      {
      }
      ActiveIndexUnique(all, tariffType, key, k);
    }
  }

  // ---------------------------------------------------------------------------------------
  // Parameter getters

  /** The numeric columns that _get_tariff_param reads. */
  datatype Column = LossFactorColumn | BuySpreadColumn | VatRateColumn | ExportMultiplierColumn

  function ColumnValue(r: TariffDefinition, c: Column): Option<real> {
    match c
    case LossFactorColumn => r.lossFactor
    case BuySpreadColumn => r.buySpread
    case VatRateColumn => r.vatRate
    case ExportMultiplierColumn => r.exportMultiplier
  }

  /** The defaults of get_loss_factor, get_buy_spread, get_vat_rate, get_export_multiplier. */
  function ColumnDefault(c: Column): real {
    match c
    case LossFactorColumn => DefaultLossFactor
    case BuySpreadColumn => DefaultBuySpread
    case VatRateColumn => DefaultVatRate
    case ExportMultiplierColumn => DefaultExportMultiplier
  }

  /** _get_tariff_param: the column of the active definition, or the default when no definition
      is active or the column is NULL. */
  function TariffParam(defs: seq<TariffDefinition>, tariffType: string, at: Timestamp, c: Column): real
    requires ValidDate(at.date)
  {
    match ActiveDefinition(defs, tariffType, at)
    case Some(r) => ColumnValue(r, c).GetOr(ColumnDefault(c))
    case None => ColumnDefault(c)
  }

  function LossFactor(defs: seq<TariffDefinition>, tariffType: string, at: Timestamp): real
    requires ValidDate(at.date)
  {
    TariffParam(defs, tariffType, at, LossFactorColumn)
  }

  function BuySpread(defs: seq<TariffDefinition>, tariffType: string, at: Timestamp): real
    requires ValidDate(at.date)
  {
    TariffParam(defs, tariffType, at, BuySpreadColumn)
  }

  function VatRate(defs: seq<TariffDefinition>, tariffType: string, at: Timestamp): real
    requires ValidDate(at.date)
  {
    TariffParam(defs, tariffType, at, VatRateColumn)
  }

  function ExportMultiplier(defs: seq<TariffDefinition>, tariffType: string, at: Timestamp): real
    requires ValidDate(at.date)
  {
    TariffParam(defs, tariffType, at, ExportMultiplierColumn)
  }

  /** Where no definition of the type covers the date, the four getters return 1.08, 0.005,
      1.23 and 0.8. */
  lemma ParamsWithoutDefinition(defs: seq<TariffDefinition>, tariffType: string, at: Timestamp)
    requires ValidDate(at.date)
    requires forall i :: 0 <= i < |defs| ==> !Covers(defs[i], tariffType, DateKey(at))
    ensures LossFactor(defs, tariffType, at) == 1.08
    ensures BuySpread(defs, tariffType, at) == 0.005
    ensures VatRate(defs, tariffType, at) == 1.23
    ensures ExportMultiplier(defs, tariffType, at) == 0.8
  {
  }

  /** Where row k is the active definition (it covers the date, no covering row has a greater
      valid_from, and no earlier covering row ties with it), each getter returns k's column,
      or the column's default when that column is NULL. */
  lemma ParamOfActive(defs: seq<TariffDefinition>, tariffType: string, at: Timestamp, c: Column, k: nat)
    requires ValidDate(at.date)
    requires k < |defs| && Covers(defs[k], tariffType, DateKey(at))
    requires forall i :: 0 <= i < |defs| && Covers(defs[i], tariffType, DateKey(at)) ==>
               StrLe(defs[i].validFrom, defs[k].validFrom)
    requires forall i :: 0 <= i < k && Covers(defs[i], tariffType, DateKey(at)) ==>
               defs[i].validFrom != defs[k].validFrom
    ensures TariffParam(defs, tariffType, at, c) ==
            if ColumnValue(defs[k], c).Some? then ColumnValue(defs[k], c).value else ColumnDefault(c)
  {
    ActiveIndexUnique(defs, tariffType, DateKey(at), k);
  }

  // ---------------------------------------------------------------------------------------
  // Administration: insert, update, delete

  /** A numeric key of a request dict: absent, or present with a value (None for null). */
  datatype Field = Absent | Given(value: Option<real>)

  /** The dict insert_erse_tariff receives: the three text keys it indexes directly and the
      four numeric keys it reads with a default. */
  datatype NewTariff = NewTariff(
    tariffType: string,
    validFrom: string,
    validTo: string,
    lossFactor: Field,
    buySpread: Field,
    vatRate: Field,
    exportMultiplier: Field)

  /** `data.get(key, default)` */
  function FieldOr(f: Field, default: real): Option<real> {
    match f
    case Absent => Some(default)
    case Given(v) => v
  }

  /** The row insert_erse_tariff writes: every column it names, with the defaults for absent
      numeric keys; the columns it does not name (peak hours, access charges) are NULL. */
  function InsertedRow(data: NewTariff, id: int): TariffDefinition {
    TariffDefinition(id, data.tariffType, data.validFrom, data.validTo,
      FieldOr(data.lossFactor, DefaultLossFactor),
      FieldOr(data.buySpread, DefaultBuySpread),
      FieldOr(data.vatRate, DefaultVatRate),
      FieldOr(data.exportMultiplier, DefaultExportMultiplier),
      None, None, None, None)
  }

  /** The dict update_erse_tariff receives. Text keys: None when absent or null. */
  datatype Patch = Patch(
    tariffType: Option<string>,
    validFrom: Option<string>,
    validTo: Option<string>,
    lossFactor: Field,
    buySpread: Field,
    vatRate: Field,
    exportMultiplier: Field)

  const EmptyPatch := Patch(None, None, None, Absent, Absent, Absent, Absent)

  /** `data.get(key) or existing`: only a non-empty text replaces the stored one. */
  function MergeText(p: Option<string>, existing: string): string {
    if p.Some? && p.value != "" then p.value else existing
  }

  /** `data.get(key) if key in data else existing`: a present key replaces, even with null. */
  function MergeNumber(p: Field, existing: Option<real>): Option<real> {
    match p
    case Absent => existing
    case Given(v) => v
  }

  /** The merged row update_erse_tariff writes back over the existing one. */
  function Merge(existing: TariffDefinition, p: Patch): TariffDefinition {
    existing.(
      tariffType := MergeText(p.tariffType, existing.tariffType),
      validFrom := MergeText(p.validFrom, existing.validFrom),
      validTo := MergeText(p.validTo, existing.validTo),
      lossFactor := MergeNumber(p.lossFactor, existing.lossFactor),
      buySpread := MergeNumber(p.buySpread, existing.buySpread),
      vatRate := MergeNumber(p.vatRate, existing.vatRate),
      exportMultiplier := MergeNumber(p.exportMultiplier, existing.exportMultiplier))
  }

  /** An empty patch writes the row back unchanged; merging the same patch twice is merging it
      once; a merge never changes the id nor the columns update does not name. */
  lemma MergeProperties(r: TariffDefinition, p: Patch)
    ensures Merge(r, EmptyPatch) == r
    ensures Merge(Merge(r, p), p) == Merge(r, p)
    ensures var m := Merge(r, p);
            m.id == r.id && m.peakHours == r.peakHours && m.accessChargePeak == r.accessChargePeak &&
            m.accessChargeOffPeak == r.accessChargeOffPeak &&
            m.accessChargeSuperOffPeak == r.accessChargeSuperOffPeak
  {
  }

  /** `SELECT * ... WHERE id = ?`: the first row with the id. */
  function IndexOfId(defs: seq<TariffDefinition>, id: int): (r: Option<nat>)
    ensures r.None? <==> forall i :: 0 <= i < |defs| ==> defs[i].id != id
    ensures r.Some? ==> r.value < |defs| && defs[r.value].id == id &&
                        forall i :: 0 <= i < r.value ==> defs[i].id != id
    decreases |defs|
  {
    if |defs| == 0 then None
    else if defs[0].id == id then Some(0)
    else
      var rest := IndexOfId(defs[1..], id);
      assert forall i :: 1 <= i < |defs| ==> defs[1..][i - 1] == defs[i];
      if rest.None? then None else Some(rest.value + 1)
  }

  /** `DELETE ... WHERE id = ?`: the table without the rows carrying the id, in order. */
  function RemoveId(defs: seq<TariffDefinition>, id: int): seq<TariffDefinition>
    decreases |defs|
  {
    if |defs| == 0 then []
    else if defs[0].id == id then RemoveId(defs[1..], id)
    else [defs[0]] + RemoveId(defs[1..], id)
  }

  predicate UniqueIds(defs: seq<TariffDefinition>) {
    forall i, j :: 0 <= i < j < |defs| ==> defs[i].id != defs[j].id
  }

  /** Every id is below the bound. */
  predicate IdsBelow(defs: seq<TariffDefinition>, bound: int) {
    forall i :: 0 <= i < |defs| ==> defs[i].id < bound
  }

  /** Deleting an unknown id leaves the table as it was. */
  lemma {:induction false} RemoveUnknownId(defs: seq<TariffDefinition>, id: int)
    requires forall i :: 0 <= i < |defs| ==> defs[i].id != id
    ensures RemoveId(defs, id) == defs
    decreases |defs|
  {
    if |defs| > 0 {
      assert forall i :: 0 <= i < |defs| - 1 ==> defs[1..][i] == defs[i + 1];
      RemoveUnknownId(defs[1..], id);
      assert defs == [defs[0]] + defs[1..];
    }
  }

  /** In a table with unique ids, deleting the id of row k removes exactly that row and keeps
      the order of the rest. */
  lemma {:induction false} RemoveKnownId(defs: seq<TariffDefinition>, k: nat)
    requires UniqueIds(defs) && k < |defs|
    ensures RemoveId(defs, defs[k].id) == defs[..k] + defs[k + 1..]
    decreases |defs|
  {
    var id := defs[k].id;
    var tail := defs[1..];
    assert forall i :: 0 <= i < |tail| ==> tail[i] == defs[i + 1];
    if k == 0 {
      assert forall i :: 0 <= i < |tail| ==> tail[i].id != id;
      RemoveUnknownId(tail, id);
    } else {
      assert UniqueIds(tail);
      assert tail[k - 1] == defs[k];
      RemoveKnownId(tail, k - 1);
      assert RemoveId(defs, id) == [defs[0]] + RemoveId(tail, id);
      assert defs[..k] == [defs[0]] + tail[..k - 1];
      assert defs[k + 1..] == tail[k..];
    }
  }

  /** Removing one row keeps the ids unique and below any bound they were below. */
  lemma RemoveRowKeepsIds(defs: seq<TariffDefinition>, k: nat, bound: int)
    requires UniqueIds(defs) && k < |defs|
    requires IdsBelow(defs, bound)
    ensures UniqueIds(defs[..k] + defs[k + 1..]) && IdsBelow(defs[..k] + defs[k + 1..], bound)
  {
    var t := defs[..k] + defs[k + 1..];
    assert forall i :: 0 <= i < |t| ==> t[i] == if i < k then defs[i] else defs[i + 1];
  }

  /** The table update_erse_tariff leaves: unchanged for an unknown id, otherwise the row with
      that id replaced by its merge with the patch. */
  function UpdatedTable(defs: seq<TariffDefinition>, id: int, p: Patch): seq<TariffDefinition> {
    match IndexOfId(defs, id)
    case None => defs
    case Some(k) => defs[k := Merge(defs[k], p)]
  }

  /** An update keeps the table's length and ids, touches no row but the one with the id, and
      is a no-op for an unknown id. */
  lemma UpdatedTableEffect(defs: seq<TariffDefinition>, id: int, p: Patch)
    ensures var t := UpdatedTable(defs, id, p);
            |t| == |defs| &&
            (forall i :: 0 <= i < |defs| ==> t[i].id == defs[i].id) &&
            (forall i :: 0 <= i < |defs| && defs[i].id != id ==> t[i] == defs[i])
    ensures (forall i :: 0 <= i < |defs| ==> defs[i].id != id) ==> UpdatedTable(defs, id, p) == defs
  {
  }

  /** A definition inserted without numeric keys, and the only one of its type covering the
      date, makes the getters return the insert defaults, which equal the getters' own. */
  lemma InsertedDefaultsReadBack(defs: seq<TariffDefinition>, data: NewTariff, id: int, at: Timestamp)
    requires ValidDate(at.date)
    requires data.lossFactor == Absent && data.buySpread == Absent
    requires data.vatRate == Absent && data.exportMultiplier == Absent
    requires Covers(InsertedRow(data, id), data.tariffType, DateKey(at))
    requires forall i :: 0 <= i < |defs| ==> !Covers(defs[i], data.tariffType, DateKey(at))
    ensures var all := defs + [InsertedRow(data, id)];
            LossFactor(all, data.tariffType, at) == 1.08 &&
            BuySpread(all, data.tariffType, at) == 0.005 &&
            VatRate(all, data.tariffType, at) == 1.23 &&
            ExportMultiplier(all, data.tariffType, at) == 0.8
  {
    ActiveAfterAppend(defs, InsertedRow(data, id), data.tariffType, DateKey(at));
  }

  // ---------------------------------------------------------------------------------------
  // Site settings

  /** The dict get_site_settings returns. */
  datatype SiteSettings = SiteSettings(
    voltageLevel: string,
    contractedPowerKva: real,
    assumedDailyKwh: real,
    tariffType: string)

  const DefaultSettings := SiteSettings("medium_voltage", 250.0, 500.0, "three_rate")

  /** One row of site_settings. */
  datatype SettingRow = SettingRow(key: string, value: string)

  /** One iteration of get_site_settings' loop. `parse` is Python's float() on text, None where
      it raises ValueError. */
  function ApplySetting(s: SiteSettings, row: SettingRow, parse: string -> Option<real>): SiteSettings {
    if row.key == "voltage_level" then s.(voltageLevel := row.value)
    else if row.key == "contracted_power_kva" then
      (match parse(row.value) case Some(v) => s.(contractedPowerKva := v) case None => s)
    else if row.key == "assumed_daily_kwh" then
      (match parse(row.value) case Some(v) => s.(assumedDailyKwh := v) case None => s)
    else if row.key == "tariff_type" then s.(tariffType := row.value)
    else s
  }

  /** The rows folded, in table order, over the defaults. */
  function SettingsOf(rows: seq<SettingRow>, parse: string -> Option<real>): SiteSettings
    decreases |rows|
  {
    if |rows| == 0 then DefaultSettings
    else ApplySetting(SettingsOf(rows[..|rows| - 1], parse), rows[|rows| - 1], parse)
  }

  /** Reference definition, one key at a time: the value of the last row with the key, or the
      default when there is none. */
  function LastText(rows: seq<SettingRow>, key: string, default: string): string
    decreases |rows|
  {
    if |rows| == 0 then default
    else if rows[|rows| - 1].key == key then rows[|rows| - 1].value
    else LastText(rows[..|rows| - 1], key, default)
  }

  /** LastText is the default when no row has the key, and otherwise the value of the last row
      that has it. */
  lemma {:induction false} LastTextSpec(rows: seq<SettingRow>, key: string, default: string, k: int)
    requires k == -1 ==> forall i :: 0 <= i < |rows| ==> rows[i].key != key
    requires k != -1 ==> 0 <= k < |rows| && rows[k].key == key
    requires forall j :: k < j < |rows| ==> rows[j].key != key
    ensures LastText(rows, key, default) == if k == -1 then default else rows[k].value
    decreases |rows|
  {
    if |rows| > 0 && k < |rows| - 1 {
      var init := rows[..|rows| - 1];
      assert forall j :: 0 <= j < |init| ==> init[j] == rows[j];
      LastTextSpec(init, key, default, k);
    }
  }

  /** Reference definition for a numeric key: the value of the last row with the key whose text
      parses, or the default when there is none. */
  function LastNumber(rows: seq<SettingRow>, key: string, parse: string -> Option<real>, default: real): real
    decreases |rows|
  {
    if |rows| == 0 then default
    else if rows[|rows| - 1].key == key && parse(rows[|rows| - 1].value).Some? then parse(rows[|rows| - 1].value).value
    else LastNumber(rows[..|rows| - 1], key, parse, default)
  }

  /** Whether the row sets the numeric key: it has the key and its text parses. */
  predicate SetsNumber(row: SettingRow, key: string, parse: string -> Option<real>) {
    row.key == key && parse(row.value).Some?
  }

  /** LastNumber is the default when no row with the key parses, and otherwise the parsed value
      of the last row with the key that parses. */
  lemma {:induction false} LastNumberSpec(rows: seq<SettingRow>, key: string, parse: string -> Option<real>,
                                          default: real, k: int)
    requires k == -1 ==> forall i :: 0 <= i < |rows| ==> !SetsNumber(rows[i], key, parse)
    requires k != -1 ==> 0 <= k < |rows| && SetsNumber(rows[k], key, parse)
    requires forall j :: k < j < |rows| ==> !SetsNumber(rows[j], key, parse)
    ensures LastNumber(rows, key, parse, default) == if k == -1 then default else parse(rows[k].value).value
    decreases |rows|
  {
    if |rows| > 0 && k < |rows| - 1 {
      var init := rows[..|rows| - 1];
      assert forall j :: 0 <= j < |init| ==> init[j] == rows[j];
      LastNumberSpec(init, key, parse, default, k);
    }
  }

  /** get_site_settings, key by key: each of the four known keys takes the value of its last
      row (for the numbers, the last row that parses), otherwise its default; rows with other
      keys have no effect. */
  lemma {:induction false} SettingsOfByKey(rows: seq<SettingRow>, parse: string -> Option<real>)
    ensures SettingsOf(rows, parse) == SiteSettings(
              LastText(rows, "voltage_level", "medium_voltage"),
              LastNumber(rows, "contracted_power_kva", parse, 250.0),
              LastNumber(rows, "assumed_daily_kwh", parse, 500.0),
              LastText(rows, "tariff_type", "three_rate"))
    decreases |rows|
  {
    if |rows| > 0 {
      SettingsOfByKey(rows[..|rows| - 1], parse);
    }
  }
}
