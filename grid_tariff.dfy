/**
 * Tariff resolution and retail prices (backend/app/grid_tariff.py): the season from the last
 * Sundays of March and October, the day type with holidays counted as Sundays, the grid-access
 * cost with its fallback, and the buy and export prices built from the spot price and the
 * active tariff definition.
 */
module GridTariff {
  import opened Wrappers
  import opened Calendar
  import opened TariffTables

  /** Grid access cost used when no cost row matches. */
  const DefaultGridAccess: real := 0.05

  // ---------------------------------------------------------------------------------------
  // Season

  /** _last_sunday_of_month: step back from the month's last day to the nearest Sunday.
      Python cannot form the first day of the following month for December 9999. */
  function LastSundayOfMonth(year: int, month: int): (d: Date)
    requires 1 <= year <= 9999 && 1 <= month <= 12 && (month < 12 || year < 9999)
    ensures ValidDate(d) && d.year == year && d.month == month
    ensures Weekday(d) == Sunday && d.day > DaysInMonth(year, month) - 7
  {
    var last := LastDayOfMonth(year, month);
    var w := Weekday(last);
    var daysBack := (w + 1) % 7;
    SundayStep(w);
    var d := Date(year, month, last.day - daysBack);
    WeekdayInMonth(year, month, last.day, d.day);
    d
  }

  /** The day before the first of the following month, as _last_sunday_of_month computes it. */
  function LastDayOfMonth(year: int, month: int): (last: Date)
    requires 1 <= year <= 9999 && 1 <= month <= 12 && (month < 12 || year < 9999)
    ensures last == Date(year, month, DaysInMonth(year, month)) && ValidDate(last)
  {
    var nextFirst := if month == 12 then Date(year + 1, 1, 1) else Date(year, month + 1, 1);
    PrevDay(nextFirst)
  }

  /** Stepping back (w + 1) % 7 days from weekday w lands on a Sunday. */
  lemma SundayStep(w: int)
    requires 0 <= w < 7
    ensures 0 <= (w + 1) % 7 < 7 && (w + -((w + 1) % 7)) % 7 == Sunday
  {
  }

  /** One to six days after a Sunday is not a Sunday. */
  lemma NoSundayWithinWeek(k: int)
    requires 0 < k < 7
    ensures (Sunday + k) % 7 != Sunday
  {
  }

  /** No Sunday of the month comes after the one _last_sunday_of_month picks. */
  lemma LastSundayIsLast(year: int, month: int, day: int)
    requires 1 <= year <= 9999 && 1 <= month <= 12 && (month < 12 || year < 9999)
    requires ValidDate(Date(year, month, day)) && Weekday(Date(year, month, day)) == Sunday
    ensures day <= LastSundayOfMonth(year, month).day
  {
    var last := LastSundayOfMonth(year, month);
    if day > last.day {
      WeekdayInMonth(year, month, last.day, day);
      NoSundayWithinWeek(day - last.day);
      assert false;
    }
  }

  datatype Season = Summer | Winter

  /** The season as the cost table spells it. */
  function SeasonName(s: Season): string {
    match s
    case Summer => "summer"
    case Winter => "winter"
  }

  /** get_season: summer from the last Sunday of March to the last Sunday of October, both
      days included; winter otherwise. Only the date of a timestamp is consulted. */
  function GetSeason(d: Date): Season
    requires ValidDate(d)
  {
    var start := LastSundayOfMonth(d.year, 3);
    var end := LastSundayOfMonth(d.year, 10);
    if DateLe(start, d) && DateLe(d, end) then Summer else Winter
  }

  /** Month by month: April to September are summer, November to February winter, and March
      and October switch on their last Sunday, which itself belongs to summer. */
  lemma SeasonByMonth(d: Date)
    requires ValidDate(d)
    ensures GetSeason(d) == Summer <==>
            (3 < d.month < 10) ||
            (d.month == 3 && d.day >= LastSundayOfMonth(d.year, 3).day) ||
            (d.month == 10 && d.day <= LastSundayOfMonth(d.year, 10).day)
  {
  }

  /** Both switch-over Sundays are summer days; the day before the March one and the day after
      the October one are winter days. */
  lemma SeasonBoundaries(year: int)
    requires 1 <= year <= 9999
    ensures GetSeason(LastSundayOfMonth(year, 3)) == Summer
    ensures GetSeason(LastSundayOfMonth(year, 10)) == Summer
    ensures var s := LastSundayOfMonth(year, 3);
            GetSeason(Date(year, 3, s.day - 1)) == Winter
    ensures var e := LastSundayOfMonth(year, 10);
            GetSeason(NextDay(e)) == Winter
  {
    SeasonByMonth(LastSundayOfMonth(year, 3));
    SeasonByMonth(LastSundayOfMonth(year, 10));
  }

  // ---------------------------------------------------------------------------------------
  // Day type

  datatype DayType = WeekdayType | SaturdayType | SundayType

  /** The day type as the cost table spells it. */
  function DayTypeName(t: DayType): string {
    match t
    case WeekdayType => "weekday"
    case SaturdayType => "saturday"
    case SundayType => "sunday"
  }

  /** get_day_of_week: a date in the holiday table is a Sunday; otherwise Monday to Friday are
      weekdays, then Saturday and Sunday. */
  function GetDayOfWeek(d: Date, holidays: set<string>): DayType
    requires ValidDate(d)
  {
    if IsHoliday(holidays, IsoDate(d)) then SundayType
    else
      var wd := Weekday(d);
      if wd < 5 then WeekdayType else if wd == Saturday then SaturdayType else SundayType
  }

  /** The day type in terms of the calendar: Sunday rates apply on Sundays and holidays,
      Saturday rates on Saturdays that are not holidays, weekday rates on the remaining days. */
  lemma DayTypeCases(d: Date, holidays: set<string>)
    requires ValidDate(d)
    ensures GetDayOfWeek(d, holidays) == SundayType <==> IsoDate(d) in holidays || Weekday(d) == Sunday
    ensures GetDayOfWeek(d, holidays) == SaturdayType <==> IsoDate(d) !in holidays && Weekday(d) == Saturday
    ensures GetDayOfWeek(d, holidays) == WeekdayType <==> IsoDate(d) !in holidays && Weekday(d) < 5
  {
    assert IsHoliday(holidays, IsoDate(d)) <==> IsoDate(d) in holidays;
  }

  // ---------------------------------------------------------------------------------------
  // Prices

  /** get_grid_access: the repository's cost, or 0.05 when no row matches. A ValueError or
      TypeError from the repository propagates (None). */
  function GetGridAccess(costs: seq<GridCost>, tariffType: string, voltageLevel: string, season: string,
                         dayOfWeek: string, hour: int, minute: int): Option<real>
  {
    match GridAccessAt(costs, SlotQuery(tariffType, voltageLevel, season, dayOfWeek, hour, minute))
    case Hit(v) => Some(v)
    case Miss => Some(DefaultGridAccess)
    case Fault => None
  }

  /** get_grid_access raises exactly when the scan reaches, before any match, a selected row
      whose times do not parse, or stops at a matching row whose cost is NULL; it falls back to
      0.05 when every row is passed over. */
  lemma GridAccessFallback(costs: seq<GridCost>, tariffType: string, voltageLevel: string, season: string,
                           dayOfWeek: string, hour: int, minute: int)
    ensures var q := SlotQuery(tariffType, voltageLevel, season, dayOfWeek, hour, minute);
            GetGridAccess(costs, tariffType, voltageLevel, season, dayOfWeek, hour, minute).None? <==>
            exists j :: 0 <= j < |costs| &&
                        (ProbeRow(costs[j], q) == Fail || (ProbeRow(costs[j], q) == Match && costs[j].gridAccess.None?)) &&
                        forall k :: 0 <= k < j ==> ProbeRow(costs[k], q) == Skip
    ensures var q := SlotQuery(tariffType, voltageLevel, season, dayOfWeek, hour, minute);
            (forall j :: 0 <= j < |costs| ==> ProbeRow(costs[j], q) == Skip) ==>
            GetGridAccess(costs, tariffType, voltageLevel, season, dayOfWeek, hour, minute) == Some(DefaultGridAccess)
  {
    var q := SlotQuery(tariffType, voltageLevel, season, dayOfWeek, hour, minute);
    GridAccessAtFault(costs, q);
    if forall j :: 0 <= j < |costs| ==> ProbeRow(costs[j], q) == Skip {
      ScanRunsOff(costs, q);
    }
  }

  /** When row i is the first row the scan does not pass over and it matches, get_grid_access
      returns that row's cost, and raises when the cost is NULL. */
  lemma GridAccessFound(costs: seq<GridCost>, tariffType: string, voltageLevel: string, season: string,
                        dayOfWeek: string, hour: int, minute: int, i: nat)
    requires var q := SlotQuery(tariffType, voltageLevel, season, dayOfWeek, hour, minute);
             i < |costs| && ProbeRow(costs[i], q) == Match &&
             forall j :: 0 <= j < i ==> ProbeRow(costs[j], q) == Skip
    ensures GetGridAccess(costs, tariffType, voltageLevel, season, dayOfWeek, hour, minute) == costs[i].gridAccess
  {
    FirstMatchWins(costs, SlotQuery(tariffType, voltageLevel, season, dayOfWeek, hour, minute), i);
  }

  /** The voltage level compute_buy_price uses: from the settings dict passed in, or, when none
      or an empty one is passed, the voltage_level get_site_settings reads from the
      site_settings rows; "medium_voltage" when the dict passed in lacks the key. */
  function VoltageLevel(siteSettings: map<string, string>, settingRows: seq<SettingRow>): string {
    if siteSettings == map[] then LastText(settingRows, "voltage_level", "medium_voltage")
    else if "voltage_level" in siteSettings then siteSettings["voltage_level"]
    else "medium_voltage"
  }

  /** Without a settings dict the voltage level is the one get_site_settings returns: the value
      of the last voltage_level row, or "medium_voltage" when the table has none. */
  lemma StoredVoltageLevel(settingRows: seq<SettingRow>, parse: string -> Option<real>)
    ensures VoltageLevel(map[], settingRows) == SettingsOf(settingRows, parse).voltageLevel
    ensures (forall i :: 0 <= i < |settingRows| ==> settingRows[i].key != "voltage_level") ==>
            VoltageLevel(map[], settingRows) == "medium_voltage"
  {
    SettingsOfByKey(settingRows, parse);
    if forall i :: 0 <= i < |settingRows| ==> settingRows[i].key != "voltage_level" {
      LastTextSpec(settingRows, "voltage_level", "medium_voltage", -1);
    }
  }

  /** The cost of the slot the timestamp falls in, for its season and day type. */
  function GridAccessFor(ts: Timestamp, tariffType: string, voltage: string, data: TariffData): Option<real>
    requires ValidDate(ts.date)
  {
    GetGridAccess(data.costs, tariffType, voltage, SeasonName(GetSeason(ts.date)),
                  DayTypeName(GetDayOfWeek(ts.date, data.holidays)), ts.hour, ts.minute)
  }

  /** compute_buy_price in €/kWh: ((spot / 1000) * loss_factor + buy_spread + grid_access)
      * vat_rate, with the spot price in €/MWh. None where the grid-access lookup raises. */
  function ComputeBuyPrice(spot: real, ts: Timestamp, tariffType: string, data: TariffData,
                           siteSettings: map<string, string>): Option<real>
    requires ValidTimestamp(ts)
  {
    var access := GridAccessFor(ts, tariffType, VoltageLevel(siteSettings, data.settingRows), data);
    if access.None? then None
    else
      var defs := data.definitions;
      Some(BuyFormula(spot, LossFactor(defs, tariffType, ts), BuySpread(defs, tariffType, ts), access.value,
                      VatRate(defs, tariffType, ts)))
  }

  /** The buy-price formula on its parts, with the spot price in €/MWh and the rest in €/kWh. */
  function BuyFormula(spot: real, lossFactor: real, buySpread: real, gridAccess: real, vatRate: real): real {
    ((spot / 1000.0) * lossFactor + buySpread + gridAccess) * vatRate
  }

  /** compute_export_price in €/kWh: spot / 1000 times the export multiplier. */
  function ComputeExportPrice(spot: real, tariffType: string, ts: Timestamp, defs: seq<TariffDefinition>): real
    requires ValidTimestamp(ts)
  {
    (spot / 1000.0) * ExportMultiplier(defs, tariffType, ts)
  }

  /** On an empty database both prices fall back to every default: a buy price of
      ((spot / 1000) * 1.08 + 0.005 + 0.05) * 1.23 and an export price of spot / 1000 * 0.8. */
  lemma PricesOnEmptyDatabase(spot: real, ts: Timestamp, tariffType: string, holidays: set<string>,
                              settingRows: seq<SettingRow>, siteSettings: map<string, string>)
    requires ValidTimestamp(ts)
    ensures ComputeBuyPrice(spot, ts, tariffType, TariffData([], [], holidays, settingRows), siteSettings)
            == Some(BuyFormula(spot, 1.08, 0.005, 0.05, 1.23))
    ensures ComputeExportPrice(spot, tariffType, ts, []) == spot / 1000.0 * 0.8
  {
    var q := SlotQuery(tariffType, VoltageLevel(siteSettings, settingRows), SeasonName(GetSeason(ts.date)),
                       DayTypeName(GetDayOfWeek(ts.date, holidays)), ts.hour, ts.minute);
    assert FirstStop(Probes([], q)) == None;
    ParamsWithoutDefinition([], tariffType, ts);
  }

  /** Two spot prices at the same instant either both have a buy price or neither does, and
      the prices differ by the spot difference in €/kWh times loss_factor * vat_rate; with
      positive factors the buy price rises with the spot price. */
  lemma BuyPriceSlope(s1: real, s2: real, ts: Timestamp, tariffType: string, data: TariffData,
                      siteSettings: map<string, string>)
    requires ValidTimestamp(ts)
    ensures var p1 := ComputeBuyPrice(s1, ts, tariffType, data, siteSettings);
            var p2 := ComputeBuyPrice(s2, ts, tariffType, data, siteSettings);
            var k := LossFactor(data.definitions, tariffType, ts) * VatRate(data.definitions, tariffType, ts);
            (p1.Some? <==> p2.Some?) && (p1.Some? ==> p1.value - p2.value == (s1 - s2) / 1000.0 * k)
  {
    var defs := data.definitions;
    var access := GridAccessFor(ts, tariffType, VoltageLevel(siteSettings, data.settingRows), data);
    if access.Some? {
      var l, b, v := LossFactor(defs, tariffType, ts), BuySpread(defs, tariffType, ts), VatRate(defs, tariffType, ts);
      BuyPriceWithAccess(s1, ts, tariffType, data, siteSettings, access.value);
      BuyPriceWithAccess(s2, ts, tariffType, data, siteSettings, access.value);
      AffineDifference(s1, s2, l, b, access.value, v);
    }
  }

  /** ComputeBuyPrice once the grid-access cost is known, for the proofs below. */
  lemma BuyPriceWithAccess(spot: real, ts: Timestamp, tariffType: string, data: TariffData,
                           siteSettings: map<string, string>, access: real)
    requires ValidTimestamp(ts)
    requires GridAccessFor(ts, tariffType, VoltageLevel(siteSettings, data.settingRows), data) == Some(access)
    ensures var p := ComputeBuyPrice(spot, ts, tariffType, data, siteSettings);
            p == Some(BuyFormula(spot, LossFactor(data.definitions, tariffType, ts),
                                 BuySpread(data.definitions, tariffType, ts), access,
                                 VatRate(data.definitions, tariffType, ts)))
  {
  }

  /** The arithmetic step of BuyPriceSlope. */
  lemma AffineDifference(s1: real, s2: real, l: real, b: real, a: real, v: real)
    ensures BuyFormula(s1, l, b, a, v) - BuyFormula(s2, l, b, a, v) == (s1 - s2) / 1000.0 * (l * v)
  {
  }

  /** The export price is linear in the spot price: it is zero at zero, and sums add. */
  lemma ExportPriceLinear(s1: real, s2: real, ts: Timestamp, tariffType: string, defs: seq<TariffDefinition>)
    requires ValidTimestamp(ts)
    ensures ComputeExportPrice(0.0, tariffType, ts, defs) == 0.0
    ensures ComputeExportPrice(s1 + s2, tariffType, ts, defs)
            == ComputeExportPrice(s1, tariffType, ts, defs) + ComputeExportPrice(s2, tariffType, ts, defs)
  {
  }

  /** When the cost rows of the timestamp's tariff, voltage, season and day type tile the day
      (row i is the one window holding the minute and every time parses), the buy price uses
      row i's cost, or raises when that cost is NULL. */
  lemma BuyPriceUsesSlotCost(spot: real, ts: Timestamp, tariffType: string, data: TariffData,
                             siteSettings: map<string, string>, i: nat)
    requires ValidTimestamp(ts)
    requires var q := SlotQuery(tariffType, VoltageLevel(siteSettings, data.settingRows), SeasonName(GetSeason(ts.date)),
                                DayTypeName(GetDayOfWeek(ts.date, data.holidays)), ts.hour, ts.minute);
             i < |data.costs| && ProbeRow(data.costs[i], q) == Match &&
             (forall j :: 0 <= j < |data.costs| ==> ProbeRow(data.costs[j], q) != Fail) &&
             (forall j :: 0 <= j < |data.costs| && j != i ==> ProbeRow(data.costs[j], q) != Match)
    ensures var p := ComputeBuyPrice(spot, ts, tariffType, data, siteSettings);
            var access := data.costs[i].gridAccess;
            p == if access.None? then None
                 else Some(BuyFormula(spot, LossFactor(data.definitions, tariffType, ts),
                                      BuySpread(data.definitions, tariffType, ts), access.value,
                                      VatRate(data.definitions, tariffType, ts)))
  {
    var q := SlotQuery(tariffType, VoltageLevel(siteSettings, data.settingRows), SeasonName(GetSeason(ts.date)),
                       DayTypeName(GetDayOfWeek(ts.date, data.holidays)), ts.hour, ts.minute);
    TiledLookup(data.costs, q, i);
    if data.costs[i].gridAccess.Some? {
      BuyPriceWithAccess(spot, ts, tariffType, data, siteSettings, data.costs[i].gridAccess.value);
    }
  }

  /** With no cost row for the timestamp's tariff, voltage, season and day type, the buy price
      uses the 0.05 fallback. */
  lemma BuyPriceFallbackAccess(spot: real, ts: Timestamp, tariffType: string, data: TariffData,
                               siteSettings: map<string, string>)
    requires ValidTimestamp(ts)
    requires var q := SlotQuery(tariffType, VoltageLevel(siteSettings, data.settingRows), SeasonName(GetSeason(ts.date)),
                                DayTypeName(GetDayOfWeek(ts.date, data.holidays)), ts.hour, ts.minute);
             forall j :: 0 <= j < |data.costs| ==> !Selected(data.costs[j], q)
    ensures var p := ComputeBuyPrice(spot, ts, tariffType, data, siteSettings);
            p == Some(BuyFormula(spot, LossFactor(data.definitions, tariffType, ts),
                                 BuySpread(data.definitions, tariffType, ts), 0.05,
                                 VatRate(data.definitions, tariffType, ts)))
  {
    var q := SlotQuery(tariffType, VoltageLevel(siteSettings, data.settingRows), SeasonName(GetSeason(ts.date)),
                       DayTypeName(GetDayOfWeek(ts.date, data.holidays)), ts.hour, ts.minute);
    var ps := Probes(data.costs, q);
    assert forall j :: 0 <= j < |ps| ==> ps[j] == Skip;
    BuyPriceWithAccess(spot, ts, tariffType, data, siteSettings, 0.05);
  }
}
