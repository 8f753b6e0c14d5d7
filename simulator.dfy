/**
 * The seven-day simulator (backend/app/simulator.py): a slot counter over 7 × 96 quarter
 * hours, the mapping of a slot to its weekday profile row, day type, hour and `HH:MM` text,
 * the per-slot row computation with weekend scaling and the battery state of charge clamped
 * to [0, 100], and the four history series bounded like `deque(maxlen=max_points)`.
 * The random draws of a step are parameters; Python's float() is the parameter `parse`.
 */
module Sim {
  import opened Wrappers
  import opened Text
  import opened TariffTables
  import opened Calendar
  import opened GridTariff
  import opened Analytics

  const SlotsPerDay := 96
  const Days := 7
  /** SLOTS_PER_DAY * DAYS: the slots of one week. */
  const TotalSlots := 672
  const InitialSoc: real := 91.0

  /** A row of Consumption.csv: column name to text. A missing column and an empty cell both
      read as "". */
  type CsvRow = map<string, string>

  /** `(row.get(field) or "").strip()`: the cell without surrounding blanks, "" when the
      column is missing. */
  function Cell(row: CsvRow, field: string): (text: string)
    ensures field !in row ==> text == ""
  {
    if field in row then Strip(row[field]) else ""
  }

  /** _parse_float: the stripped cell as a float, 0.0 when it is empty or does not parse. */
  function ParseFloat(row: CsvRow, field: string, parse: string -> Option<real>): real {
    var text := Cell(row, field);
    if text == "" then 0.0 else parse(text).GetOr(0.0)
  }

  /** The BATTERY SOC cell with blanks and trailing percent signs removed. */
  function SocText(row: CsvRow): string {
    RStripChar(Cell(row, "BATTERY SOC"), '%')
  }

  // ---------------------------------------------------------------------------------------
  // Slots

  /** _is_weekend: days 5 and 6 of the week (Saturday and Sunday). */
  predicate IsWeekend(slot: int) {
    slot / SlotsPerDay >= 5
  }

  /** The day type get_current_slot_info reports: day 6 is Sunday, day 5 Saturday, and every
      other day a weekday. */
  function SlotDayType(slot: int): DayType {
    var day := slot / SlotsPerDay;
    if day >= 5 then (if day == 6 then SundayType else SaturdayType) else WeekdayType
  }

  /** The hour of the slot within its day. */
  function SlotHour(slot: int): (h: nat)
    ensures h < 24
  {
    ((slot % SlotsPerDay) / 4) % 24
  }

  /** The minute of the slot within its hour. */
  function SlotMinute(slot: int): (m: nat)
    ensures m < 60
  {
    (slot % SlotsPerDay % 4) * 15
  }

  /** The TIME text of get_current_row: `HH:MM` with two-digit fields. */
  function SlotTime(slot: int): string {
    ClockText(SlotHour(slot), SlotMinute(slot))
  }

  /** The slot's hour and minute are its quarter hour of the day: minute is 0, 15, 30 or 45,
      and hour * 60 + minute is (slot % 96) * 15. */
  lemma SlotClock(slot: int)
    ensures SlotMinute(slot) in {0, 15, 30, 45}
    ensures SlotHour(slot) * 60 + SlotMinute(slot) == (slot % SlotsPerDay) * 15
    ensures |SlotTime(slot)| == 5
  {
    var i := slot % SlotsPerDay;
    assert i == 4 * (i / 4) + i % 4;
  }

  /** The simulator's TIME text read back by the repository's `HH:MM` parser gives the minute
      of the day the slot starts at. */
  lemma SlotTimeRoundTrip(slot: int)
    ensures ParseTimeMinutes(Some(SlotTime(slot))) == Some((slot % SlotsPerDay) * 15)
  {
    SlotClock(slot);
    ParseClockText(SlotHour(slot), SlotMinute(slot));
  }

  /** Within a week, a slot is a weekend slot exactly when its day type is not a weekday, and
      its day type is what get_day_of_week gives for a non-holiday date on the same weekday. */
  lemma SlotDayTypeAgrees(slot: int, d: Date, holidays: set<string>)
    requires 0 <= slot < TotalSlots
    requires ValidDate(d) && Weekday(d) == slot / SlotsPerDay && IsoDate(d) !in holidays
    ensures IsWeekend(slot) <==> SlotDayType(slot) != WeekdayType
    ensures GetDayOfWeek(d, holidays) == SlotDayType(slot)
  {
    DayTypeCases(d, holidays);
  }

  /** _get_row_for_slot: no row without data; otherwise the row `slot % 96`, where a CSV with
      fewer rows raises IndexError. */
  function RowForSlot(rows: seq<CsvRow>, slot: int): (r: Lookup<CsvRow>)
    ensures r.Miss? <==> rows == []
    ensures r.Hit? <==> rows != [] && slot % SlotsPerDay < |rows|
    ensures r.Hit? ==> r.value == rows[slot % SlotsPerDay]
  {
    if rows == [] then Miss
    else
      var i := slot % SlotsPerDay;
      if i < |rows| then Hit(rows[i]) else Fault
  }

  /** With the full 96-row profile no slot raises, and the same row serves the same quarter hour
      of every day. */
  lemma FullProfileRows(rows: seq<CsvRow>, slot: int)
    requires |rows| >= SlotsPerDay
    ensures RowForSlot(rows, slot) == Hit(rows[slot % SlotsPerDay])
    ensures RowForSlot(rows, slot + SlotsPerDay) == RowForSlot(rows, slot)
  {
  }

  // ---------------------------------------------------------------------------------------
  // Row computation

  /** The random draws of one step: `random.uniform(-0.1, 0.1)` for each of the five
      randomized values, `random.uniform(0, 0.1)` for the weekend state of charge and
      `random.uniform(-5, 5)` for the EV charger. */
  datatype Draws = Draws(load: real, solar: real, battery: real, grid: real, heatPump: real, soc: real, ev: real)

  /** The ranges random.uniform draws from. */
  predicate ValidDraws(d: Draws) {
    -0.1 <= d.load <= 0.1 && -0.1 <= d.solar <= 0.1 && -0.1 <= d.battery <= 0.1 &&
    -0.1 <= d.grid <= 0.1 && -0.1 <= d.heatPump <= 0.1 && 0.0 <= d.soc <= 0.1 && -5.0 <= d.ev <= 5.0
  }

  /** _apply_randomization with the draw u: val * (1 + u). */
  function Randomize(val: real, u: real): real {
    val * (1.0 + u)
  }

  function Max0(x: real): (r: real)
    ensures r >= 0.0 && r >= x
  {
    if x >= 0.0 then x else 0.0
  }

  /** `max(0, min(100, x))`. */
  function ClampSoc(x: real): (r: real)
    ensures 0.0 <= r <= 100.0
    ensures 0.0 <= x <= 100.0 ==> r == x
  {
    if x > 100.0 then 100.0 else Max0(x)
  }

  /** `csv_idx / 96 > 0.4`, the afternoon test of the heat pump, in integers. */
  predicate Afternoon(idx: int) {
    5 * idx > 2 * SlotsPerDay
  }

  /** The integer test is the fraction-of-day test. */
  lemma AfternoonFraction(idx: int)
    ensures Afternoon(idx) <==> (idx as real) / (SlotsPerDay as real) > 0.4
  {
  }

  /** The dict _get_current_row returns. */
  datatype ComputedRow = ComputedRow(
    buildingLoadKw: real,
    gridKw: real,
    batteryKw: real,
    solarKw: real,
    batterySoc: real,
    evKw: real,
    heatPumpKw: real,
    spotPrice: real,
    tariff: string)

  /** The row generate_snapshot uses when no CSV data is loaded. */
  function IdleRow(soc: real): ComputedRow {
    ComputedRow(0.0, 0.0, 0.0, 0.0, soc, 0.0, 0.0, 0.0, "")
  }

  /** The state of charge after a row: the row's BATTERY SOC when it parses (scaled on weekends
      by 0.9 + draw), the previous value otherwise, then clamped to [0, 100]. */
  function NextSoc(raw: CsvRow, weekend: bool, soc: real, u: real, parse: string -> Option<real>): (r: real)
    ensures 0.0 <= r <= 100.0
  {
    var text := SocText(raw);
    var next :=
      if text == "" then soc
      else match parse(text)
        case None => soc
        case Some(v) => if weekend then v * (0.9 + u) else v;
    ClampSoc(next)
  }

  /** _get_current_row for the CSV row of the slot, the current state of charge and the draws:
      weekend rows scale load by 0.4 and battery by 0.5 and balance the grid against them; load,
      solar, EV and heat pump are never negative and the state of charge stays in [0, 100]. */
  function ComputeRow(raw: CsvRow, slot: int, soc: real, d: Draws, parse: string -> Option<real>): (r: ComputedRow)
    ensures 0.0 <= r.batterySoc <= 100.0
    ensures r.buildingLoadKw >= 0.0 && r.solarKw >= 0.0 && r.evKw >= 0.0 && r.heatPumpKw >= 0.0
  {
    var weekend := IsWeekend(slot);
    var idx := slot % SlotsPerDay;
    var load0 := ParseFloat(raw, "BUILDING LOAD PWR", parse);
    var grid0 := ParseFloat(raw, "GRID PWR", parse);
    var battery0 := ParseFloat(raw, "BATTERY PWR", parse);
    var solar0 := ParseFloat(raw, "SOLAR PWR", parse);
    var load1 := if weekend then load0 * 0.4 else load0;
    var battery1 := if weekend then battery0 * 0.5 else battery0;
    var load := Max0(Randomize(load1, d.load));
    var solar := Max0(Randomize(solar0, d.solar));
    var battery := Randomize(battery1, d.battery);
    var grid := if weekend then Randomize(load - solar - battery, d.grid) else Randomize(grid0, d.grid);
    var ev := Max0(if 32 <= idx <= 72 && !weekend then 15.0 + d.ev else 0.0);
    var heat0 := load * 0.15;
    var heat1 := if Afternoon(idx) then heat0 * 1.2 else heat0;
    var heat := Max0(Randomize(heat1, d.heatPump));
    ComputedRow(load, grid, battery, solar, NextSoc(raw, weekend, soc, d.soc, parse), ev, heat,
                ParseFloat(raw, "SPOT PRICE", parse), Cell(raw, "TARIFF"))
  }

  /** On weekends the grid power balances load against solar and battery (before its own
      randomization) and the EV charger is off. */
  lemma WeekendBalance(raw: CsvRow, slot: int, soc: real, d: Draws, parse: string -> Option<real>)
    requires IsWeekend(slot)
    ensures ComputeRow(raw, slot, soc, d, parse).gridKw ==
            Randomize(ComputeRow(raw, slot, soc, d, parse).buildingLoadKw - ComputeRow(raw, slot, soc, d, parse).solarKw -
                      ComputeRow(raw, slot, soc, d, parse).batteryKw, d.grid)
    ensures ComputeRow(raw, slot, soc, d, parse).evKw == 0.0
  {
  }

  /** On weekdays the EV charges between 10 and 20 kW from slot 32 to slot 72 of the day
      (8:00 to 18:00) and is off otherwise. */
  lemma WeekdayCharging(raw: CsvRow, slot: int, soc: real, d: Draws, parse: string -> Option<real>)
    requires ValidDraws(d) && !IsWeekend(slot)
    ensures 32 <= slot % SlotsPerDay <= 72 ==> 10.0 <= ComputeRow(raw, slot, soc, d, parse).evKw <= 20.0
    ensures !(32 <= slot % SlotsPerDay <= 72) ==> ComputeRow(raw, slot, soc, d, parse).evKw == 0.0
  {
  }

  /** A row without a usable BATTERY SOC keeps the previous state of charge, clamped. */
  lemma SocWithoutReading(raw: CsvRow, slot: int, soc: real, d: Draws, parse: string -> Option<real>)
    requires SocText(raw) == "" || parse(SocText(raw)).None?
    ensures ComputeRow(raw, slot, soc, d, parse).batterySoc == ClampSoc(soc)
  {
  }

  // ---------------------------------------------------------------------------------------
  // History

  /** `deque(maxlen=m).append(p)`: the point goes at the end and, when the deque is full, the
      oldest point is dropped. */
  function BoundedAppend(h: seq<Point>, p: Point, m: nat): (r: seq<Point>)
    ensures |r| == if |h| + 1 <= m then |h| + 1 else m
  {
    var all := h + [p];
    if |all| > m then all[|all| - m..] else all
  }

  /** What the deque holds after an append: the newest m points of the old contents followed
      by the new point, which is last whenever the deque can hold anything. */
  lemma BoundedAppendNewest(h: seq<Point>, p: Point, m: nat)
    ensures var r := BoundedAppend(h, p, m);
            r == (h + [p])[|h| + 1 - |r|..] && (m > 0 ==> r[|r| - 1] == p)
  {
  }

  /** A bound every stored value and the new value meet holds for every value the deque keeps. */
  lemma BoundedAppendWithin(h: seq<Point>, p: Point, m: nat, lo: real, hi: real)
    requires Within(Values(h), lo, hi) && lo <= p.v <= hi
    ensures Within(Values(BoundedAppend(h, p, m)), lo, hi)
  {
    BoundedAppendNewest(h, p, m);
    var r := BoundedAppend(h, p, m);
    var all := h + [p];
    var k := |h| + 1 - |r|;
    forall i | 0 <= i < |r|
      ensures lo <= Values(r)[i] <= hi
    {
      assert r[i] == all[k + i];
      if k + i < |h| {
        assert all[k + i] == h[k + i] && Values(h)[k + i] == h[k + i].v;
      }
    }
  }

  /** Python's int() of a true division: the quotient truncated toward zero. */
  function TruncDiv(a: int, b: int): int
    requires b != 0
  {
    var q := (if a < 0 then -a else a) / (if b < 0 then -b else b);
    if (a < 0) == (b < 0) then q else -q
  }

  /** The state of charge __init__ starts from: 91, or the first row's BATTERY SOC when it
      parses (not clamped). */
  function StartSoc(rows: seq<CsvRow>, parse: string -> Option<real>): real {
    if rows == [] then InitialSoc
    else
      var text := SocText(rows[0]);
      if text == "" then InitialSoc else parse(text).GetOr(InitialSoc)
  }

  /** The row generate_snapshot builds its snapshot from: the computed row, or the idle row when
      no data is loaded. None when the row lookup raises. */
  function SnapshotRow(rows: seq<CsvRow>, slot: int, soc: real, d: Draws, parse: string -> Option<real>): Option<ComputedRow> {
    match RowForSlot(rows, slot)
    case Hit(raw) => Some(ComputeRow(raw, slot, soc, d, parse))
    case Miss => Some(IdleRow(soc))
    case Fault => None
  }

  /** One AnalyticsSeries: a metric name and its downsampled points. */
  datatype Series = Series(metric: string, points: seq<Point>)

  /** An AnalyticsResponse: the window and the four series. */
  datatype AnalyticsResponse = AnalyticsResponse(fromTs: int, toTs: int, series: seq<Series>)

  /** build_analytics over the four histories: the window starts `hours` before `now`, the
      buckets are `resolutionMinutes` long, and a zero resolution with a point in the window
      raises (None). */
  ghost function AnalyticsOf(now: int, hours: int, resolutionMinutes: int,
                             solar: seq<Point>, soc: seq<Point>, grid: seq<Point>, load: seq<Point>): Option<AnalyticsResponse>
  {
    var fromTs := now - hours * 3600;
    var bucket := resolutionMinutes * 60;
    Combine(fromTs, now, Expected(solar, fromTs, bucket), Expected(soc, fromTs, bucket),
            Expected(grid, fromTs, bucket), Expected(load, fromTs, bucket))
  }

  /** The response once each series is downsampled; None when any of them raised. */
  function Combine(fromTs: int, toTs: int, solar: Option<seq<Point>>, soc: Option<seq<Point>>,
                   grid: Option<seq<Point>>, load: Option<seq<Point>>): Option<AnalyticsResponse>
  {
    if solar.None? || soc.None? || grid.None? || load.None? then None
    else Some(Response(fromTs, toTs, solar.value, soc.value, grid.value, load.value))
  }

  /** The response with the four series in the order build_analytics lists them. */
  function Response(fromTs: int, toTs: int, solar: seq<Point>, soc: seq<Point>, grid: seq<Point>,
                    load: seq<Point>): (r: AnalyticsResponse)
    ensures r.fromTs == fromTs && r.toTs == toTs && |r.series| == 4
    ensures r.series[1] == Series("battery_soc", soc)
  {
    AnalyticsResponse(fromTs, toTs, [Series("solar_kw", solar), Series("battery_soc", soc),
                                     Series("grid_kw", grid), Series("load_kw", load)])
  }

  /** The body of build_analytics once the four histories are read: each is downsampled in
      turn and the first one that raises ends the call. */
  method Analyze(now: int, hours: int, resolutionMinutes: int,
                 solarPoints: seq<Point>, socPoints: seq<Point>, gridPoints: seq<Point>, loadPoints: seq<Point>)
    returns (r: Option<AnalyticsResponse>)
    ensures r == AnalyticsOf(now, hours, resolutionMinutes, solarPoints, socPoints, gridPoints, loadPoints)
  {
    var fromTs := now - hours * 3600;
    var bucket := resolutionMinutes * 60;
    var solar := Downsample(solarPoints, fromTs, bucket);
    var soc := Downsample(socPoints, fromTs, bucket);
    var grid := Downsample(gridPoints, fromTs, bucket);
    var load := Downsample(loadPoints, fromTs, bucket);
    r := Combine(fromTs, now, solar, soc, grid, load);
  }

  /** A state-of-charge history within [0, 100] gives a battery_soc series within [0, 100]:
      every bucket mean lies between the smallest and the largest reading. */
  lemma AnalyticsSocWithin(now: int, hours: int, resolutionMinutes: int,
                           solar: seq<Point>, soc: seq<Point>, grid: seq<Point>, load: seq<Point>)
    requires Within(Values(soc), 0.0, 100.0)
    ensures AnalyticsOf(now, hours, resolutionMinutes, solar, soc, grid, load).Some? ==>
              Within(Values(AnalyticsOf(now, hours, resolutionMinutes, solar, soc, grid, load).value.series[1].points), 0.0, 100.0)
  {
    var fromTs := now - hours * 3600;
    var bucket := resolutionMinutes * 60;
    DownsampleWithin(soc, fromTs, bucket, 0.0, 100.0);
  }

  class Simulator {
    /** The weekday profile rows loaded from Consumption.csv; never changed afterwards. */
    const weekdayRows: seq<CsvRow>
    /** `int(history_hours * 3600 / step_seconds)`, the bound of each history series. */
    const maxPoints: int
    var slot: int
    var lastSlot: int
    var lastProcessedRow: Option<ComputedRow>
    var batterySoc: real
    var solarHistory: seq<Point>
    var socHistory: seq<Point>
    var gridHistory: seq<Point>
    var loadHistory: seq<Point>

    /** Slots stay within the week, each series within its bound, and every recorded state of
        charge within [0, 100]; without data the state of charge is still the initial 91. */
    ghost predicate Valid()
      reads this
    {
      0 <= slot < TotalSlots && 0 <= lastSlot < TotalSlots && maxPoints >= 0 &&
      |solarHistory| <= maxPoints && |socHistory| <= maxPoints &&
      |gridHistory| <= maxPoints && |loadHistory| <= maxPoints &&
      (weekdayRows == [] ==> batterySoc == InitialSoc && lastProcessedRow.None?) &&
      (lastProcessedRow.Some? ==> 0.0 <= lastProcessedRow.value.batterySoc <= 100.0) &&
      Within(Values(socHistory), 0.0, 100.0)
    }

    /** __init__ after the CSV rows are loaded. A zero step raises ZeroDivisionError and a
        negative bound makes deque raise ValueError, hence the precondition. */
    constructor (rows: seq<CsvRow>, historyHours: int, stepSeconds: int, parse: string -> Option<real>)
      requires stepSeconds != 0 && TruncDiv(historyHours * 3600, stepSeconds) >= 0
      ensures Valid()
      ensures weekdayRows == rows && maxPoints == TruncDiv(historyHours * 3600, stepSeconds)
      ensures slot == 0 && lastSlot == 0 && lastProcessedRow == None
      ensures batterySoc == StartSoc(rows, parse)
      ensures solarHistory == [] && socHistory == [] && gridHistory == [] && loadHistory == []
    {
      weekdayRows := rows;
      maxPoints := TruncDiv(historyHours * 3600, stepSeconds);
      slot := 0;
      lastSlot := 0;
      lastProcessedRow := None;
      batterySoc := StartSoc(rows, parse);
      solarHistory, socHistory, gridHistory, loadHistory := [], [], [], [];
    }

    /** _get_current_row: the row of the current slot computed with the given draws; the state
        of charge is updated to the row's clamped value. Miss without data, Fault when the
        lookup raises; in both cases nothing changes. */
    method GetCurrentRow(d: Draws, parse: string -> Option<real>) returns (r: Lookup<ComputedRow>)
      modifies this
      ensures r.Hit? <==> RowForSlot(weekdayRows, slot).Hit?
      ensures r.Miss? <==> weekdayRows == []
      ensures r.Hit? ==> r.value == ComputeRow(RowForSlot(weekdayRows, slot).value, slot, old(batterySoc), d, parse)
      ensures r.Fault? <==> SnapshotRow(weekdayRows, slot, old(batterySoc), d, parse).None?
      ensures !r.Fault? ==> SnapshotRow(weekdayRows, slot, old(batterySoc), d, parse) ==
                              Some(if r.Hit? then r.value else IdleRow(old(batterySoc)))
      ensures r.Hit? ==> 0.0 <= r.value.batterySoc <= 100.0
      ensures batterySoc == if r.Hit? then r.value.batterySoc else old(batterySoc)
      ensures slot == old(slot) && lastSlot == old(lastSlot) && lastProcessedRow == old(lastProcessedRow)
      ensures solarHistory == old(solarHistory) && socHistory == old(socHistory)
      ensures gridHistory == old(gridHistory) && loadHistory == old(loadHistory)
    {
      var found := RowForSlot(weekdayRows, slot);
      if !found.Hit? {
        return match found case Miss => Miss case _ => Fault;
      }
      var row := ComputeRow(found.value, slot, batterySoc, d, parse);
      batterySoc := row.batterySoc;
      r := Hit(row);
    }

    /** generate_snapshot: remember the slot being processed, compute its row, advance the slot
        modulo 672 and append one point to each history series. When the row lookup raises,
        only the remembered slot has changed. */
    method GenerateSnapshot(now: int, d: Draws, parse: string -> Option<real>) returns (raised: bool, ghost row: ComputedRow)
      requires Valid()
      modifies this
      ensures Valid()
      ensures lastSlot == old(slot)
      ensures raised <==> SnapshotRow(weekdayRows, old(slot), old(batterySoc), d, parse).None?
      ensures !raised ==> SnapshotRow(weekdayRows, old(slot), old(batterySoc), d, parse) == Some(row)
      ensures raised ==> slot == old(slot) && batterySoc == old(batterySoc) &&
                         lastProcessedRow == old(lastProcessedRow) &&
                         solarHistory == old(solarHistory) && socHistory == old(socHistory) &&
                         gridHistory == old(gridHistory) && loadHistory == old(loadHistory)
      ensures !raised ==>
                slot == (old(slot) + 1) % TotalSlots &&
                lastProcessedRow == (if weekdayRows == [] then None else Some(row)) &&
                batterySoc == row.batterySoc &&
                solarHistory == BoundedAppend(old(solarHistory), Point(now, row.solarKw), maxPoints) &&
                socHistory == BoundedAppend(old(socHistory), Point(now, row.batterySoc), maxPoints) &&
                gridHistory == BoundedAppend(old(gridHistory), Point(now, row.gridKw), maxPoints) &&
                loadHistory == BoundedAppend(old(loadHistory), Point(now, row.buildingLoadKw), maxPoints)
    {
      var next := (slot + 1) % TotalSlots;
      lastSlot := slot;
      var current := GetCurrentRow(d, parse);
      var computed := if current.Hit? then current.value else IdleRow(batterySoc);
      row := computed;
      if current.Fault? {
        return true, row;
      }
      Advance(now, computed, current.Hit?, next);
      raised := false;
    }

    /** The rest of generate_snapshot once the row is known: the row is remembered when the
        profile has data, the slot moves on and the histories record the row. */
    method Advance(now: int, row: ComputedRow, hit: bool, next: int)
      requires Valid() && 0.0 <= row.batterySoc <= 100.0 && (hit <==> weekdayRows != [])
      requires 0 <= next < TotalSlots
      modifies this
      ensures Valid()
      ensures lastProcessedRow == (if hit then Some(row) else None)
      ensures slot == next
      ensures lastSlot == old(lastSlot) && batterySoc == old(batterySoc)
      ensures solarHistory == BoundedAppend(old(solarHistory), Point(now, row.solarKw), maxPoints)
      ensures socHistory == BoundedAppend(old(socHistory), Point(now, row.batterySoc), maxPoints)
      ensures gridHistory == BoundedAppend(old(gridHistory), Point(now, row.gridKw), maxPoints)
      ensures loadHistory == BoundedAppend(old(loadHistory), Point(now, row.buildingLoadKw), maxPoints)
    {
      lastProcessedRow := if hit then Some(row) else None;
      slot := next;
      Record(now, row);
    }

    /** The four history appends at the end of generate_snapshot. The snapshot carries each
        power in W (kW * 1000) and the history divides by 1000 again, so the points hold the
        row's values. */
    method Record(now: int, row: ComputedRow)
      requires maxPoints >= 0 && 0.0 <= row.batterySoc <= 100.0
      requires |solarHistory| <= maxPoints && |socHistory| <= maxPoints
      requires |gridHistory| <= maxPoints && |loadHistory| <= maxPoints
      requires Within(Values(socHistory), 0.0, 100.0)
      modifies this
      ensures solarHistory == BoundedAppend(old(solarHistory), Point(now, row.solarKw), maxPoints)
      ensures socHistory == BoundedAppend(old(socHistory), Point(now, row.batterySoc), maxPoints)
      ensures gridHistory == BoundedAppend(old(gridHistory), Point(now, row.gridKw), maxPoints)
      ensures loadHistory == BoundedAppend(old(loadHistory), Point(now, row.buildingLoadKw), maxPoints)
      ensures Within(Values(socHistory), 0.0, 100.0)
      ensures |solarHistory| <= maxPoints && |socHistory| <= maxPoints
      ensures |gridHistory| <= maxPoints && |loadHistory| <= maxPoints
      ensures slot == old(slot) && lastSlot == old(lastSlot) && batterySoc == old(batterySoc)
      ensures lastProcessedRow == old(lastProcessedRow)
    {
      solarHistory := BoundedAppend(solarHistory, Point(now, row.solarKw), maxPoints);
      BoundedAppendWithin(socHistory, Point(now, row.batterySoc), maxPoints, 0.0, 100.0);
      socHistory := BoundedAppend(socHistory, Point(now, row.batterySoc), maxPoints);
      gridHistory := BoundedAppend(gridHistory, Point(now, row.gridKw), maxPoints);
      loadHistory := BoundedAppend(loadHistory, Point(now, row.buildingLoadKw), maxPoints);
    }

    /** build_analytics: each history series downsampled over the window; the averaged state of
        charge stays within [0, 100]. */
    method BuildAnalytics(now: int, hours: int, resolutionMinutes: int) returns (r: Option<AnalyticsResponse>)
      requires Valid()
      ensures r == AnalyticsOf(now, hours, resolutionMinutes, solarHistory, socHistory, gridHistory, loadHistory)
      ensures r.Some? ==> |r.value.series| == 4 && Within(Values(r.value.series[1].points), 0.0, 100.0)
    {
      r := Analyze(now, hours, resolutionMinutes, solarHistory, socHistory, gridHistory, loadHistory);
      AnalyticsSocWithin(now, hours, resolutionMinutes, solarHistory, socHistory, gridHistory, loadHistory);
    }

    /** get_current_slot_info: the day type and hour of the slot last processed. */
    function CurrentSlotInfo(): (info: (DayType, int))
      reads this
      ensures 0 <= info.1 < 24
    {
      (SlotDayType(lastSlot), SlotHour(lastSlot))
    }

    /** get_current_row: the CSV-shaped row of the slot last processed, Miss before any row was
        computed. The numeric columns are rendered by `show` (Python's str of a float) and
        `showPercent` (the `{:.0f}%` format); text columns come from the slot's CSV row with
        their defaults. Looking the CSV row up again can raise (Fault). */
    function CurrentRow(show: real -> string, showPercent: real -> string): Lookup<CsvRow>
      reads this
    {
      if lastProcessedRow.None? then Miss
      else
        var r := lastProcessedRow.value;
        var found := RowForSlot(weekdayRows, lastSlot);
        if found.Fault? then Fault
        else
          var raw := if found.Hit? && found.value != map[] then Some(found.value) else None;
          Hit(RowCells(lastSlot, r, raw, show, showPercent))
    }
  }

  /** get_current_row is None exactly until a snapshot has processed a row, and the TIME of a
      returned row is the `HH:MM` text of the slot last processed: a quarter hour of the day
      that reads back, through _parse_time_minutes, as (slot % 96) * 15 minutes. */
  lemma CurrentRowTime(sim: Simulator, show: real -> string, showPercent: real -> string)
    ensures sim.CurrentRow(show, showPercent).Miss? <==> sim.lastProcessedRow.None?
    ensures var r := sim.CurrentRow(show, showPercent);
            r.Hit? ==> "TIME" in r.value && |r.value["TIME"]| == 5 &&
                       ParseTimeMinutes(Some(r.value["TIME"])) == Some((sim.lastSlot % SlotsPerDay) * 15) &&
                       SlotMinute(sim.lastSlot) in {0, 15, 30, 45}
  {
    var r := sim.CurrentRow(show, showPercent);
    if r.Hit? {
      SlotClock(sim.lastSlot);
      SlotTimeRoundTrip(sim.lastSlot);
    }
  }

  /** The columns of the row get_current_row returns. */
  const RowColumns: set<string> := {
    "TIME", "PATH", "BUILDING LOAD PWR", "BUILDING LOAD LABEL",
    "GRID PWR", "GRID LABEL", "BATTERY PWR", "BATTERY LABEL",
    "BATTERY SOC", "SOLAR PWR", "SOLAR LABEL", "BUILDING CONSUMPTION",
    "GRID ENERGY", "SOLAR PRODUCTION", "BATTERY", "SPOT PRICE",
    "TARIFF", "BUY PRICE", "EXPORT PRICE"}

  /** The CSV-shaped row of a computed slot: numeric columns rendered by `show` and
      `showPercent`, text columns taken from the slot's CSV row with their defaults. */
  function RowCells(slot: int, r: ComputedRow, raw: Option<CsvRow>, show: real -> string,
                    showPercent: real -> string): (cells: CsvRow)
    ensures cells.Keys == RowColumns
  {
    map[
      "PATH" := CsvText(raw, "PATH", "a"),
      "BUILDING LOAD PWR" := show(r.buildingLoadKw),
      "BUILDING LOAD LABEL" := CsvText(raw, "BUILDING LOAD LABEL", "Grid only"),
      "GRID PWR" := show(r.gridKw),
      "GRID LABEL" := CsvText(raw, "GRID LABEL", "Importing"),
      "BATTERY PWR" := show(r.batteryKw),
      "BATTERY LABEL" := CsvText(raw, "BATTERY LABEL", "Idle"),
      "BATTERY SOC" := showPercent(r.batterySoc),
      "SOLAR PWR" := show(r.solarKw),
      "SOLAR LABEL" := CsvText(raw, "SOLAR LABEL", if r.solarKw > 0.0 then "Active" else "Inactive"),
      "BUILDING CONSUMPTION" := CsvText(raw, "BUILDING CONSUMPTION", "0"),
      "GRID ENERGY" := CsvText(raw, "GRID ENERGY", "0"),
      "SOLAR PRODUCTION" := CsvText(raw, "SOLAR PRODUCTION", "0"),
      "BATTERY" := CsvText(raw, "BATTERY", "0"),
      "SPOT PRICE" := show(r.spotPrice),
      "TARIFF" := r.tariff,
      "BUY PRICE" := CsvText(raw, "BUY PRICE", show(r.spotPrice * 3.2)),
      "EXPORT PRICE" := CsvText(raw, "EXPORT PRICE", show(r.spotPrice * 0.8)),
      "TIME" := SlotTime(slot)]
  }

  /** `(raw.get(key) or default).strip() if raw else default`. */
  function CsvText(raw: Option<CsvRow>, key: string, default: string): string {
    if raw.None? then default
    else if key in raw.value && raw.value[key] != "" then Strip(raw.value[key])
    else Strip(default)
  }
}
