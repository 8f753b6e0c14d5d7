/**
 * The older price transformer (backend/app/transformers/prices.py): buy price = spot in €/kWh
 * plus an access charge chosen by hour from the active definition's peak_hours, export price
 * = spot in €/kWh times the definition's export multiplier.
 */
module LegacyPrices {
  import opened Wrappers
  import opened Calendar
  import opened TariffTables
  import GridTariff

  /** One [start, end) hour range of peak_hours: a list with at least two entries, wrapping past
      midnight when start > end; a shorter list is ignored. */
  predicate InHourRange(hour: int, r: seq<int>) {
    |r| >= 2 && ((r[0] <= hour < r[1]) || (r[0] > r[1] && (hour >= r[0] || hour < r[1])))
  }

  /** _hour_in_range: the ranges are tried in order and the first that holds the hour answers. */
  function HourInRange(hour: int, ranges: seq<seq<int>>): bool
    decreases |ranges|
  {
    if |ranges| == 0 then false
    else if InHourRange(hour, ranges[0]) then true
    else HourInRange(hour, ranges[1..])
  }

  /** The loop with early return is plain existence: some range holds the hour. */
  lemma {:induction false} HourInRangeExists(hour: int, ranges: seq<seq<int>>)
    ensures HourInRange(hour, ranges) <==> exists i :: 0 <= i < |ranges| && InHourRange(hour, ranges[i])
    decreases |ranges|
  {
    if |ranges| > 0 {
      HourInRangeExists(hour, ranges[1..]);
      assert forall i :: 1 <= i < |ranges| ==> ranges[1..][i - 1] == ranges[i];
      if exists i :: 0 <= i < |ranges| && InHourRange(hour, ranges[i]) {
        var i :| 0 <= i < |ranges| && InHourRange(hour, ranges[i]);
        if i > 0 {
          assert InHourRange(hour, ranges[1..][i - 1]);
        }
      }
    }
  }

  /** An hour range is the repository's minute window test applied to hours: the same
      half-open interval and the same wrap-around past midnight. */
  lemma HourRangeIsWindow(hour: int, r: seq<int>)
    requires |r| >= 2
    ensures InHourRange(hour, r) <==> MinutesInRange(hour, r[0], r[1])
  {
  }

  /** The access-charge column of the slot the hour falls in. */
  datatype AccessSlot = PeakSlot | SuperOffPeakSlot | OffPeakSlot

  /** The list stored under a key of peak_hours, empty when the key is missing. */
  function RangesOf(peakHours: PeakHours, key: string): seq<seq<int>> {
    if key in peakHours then peakHours[key] else []
  }

  /** The slot _get_access_charge picks: peak first, then super off-peak, off-peak otherwise.
      A NULL or empty peak_hours holds no range. */
  function AccessSlotOf(t: TariffDefinition, hour: int): AccessSlot {
    var peakHours := t.peakHours.GetOr(map[]);
    if HourInRange(hour, RangesOf(peakHours, "peak")) then PeakSlot
    else if HourInRange(hour, RangesOf(peakHours, "super_off_peak")) then SuperOffPeakSlot
    else OffPeakSlot
  }

  /** _get_access_charge: the slot's charge, 0.0 when it is NULL. */
  function AccessCharge(t: TariffDefinition, hour: int): real {
    match AccessSlotOf(t, hour)
    case PeakSlot => t.accessChargePeak.GetOr(0.0)
    case SuperOffPeakSlot => t.accessChargeSuperOffPeak.GetOr(0.0)
    case OffPeakSlot => t.accessChargeOffPeak.GetOr(0.0)
  }

  /** The slot in terms of the stored ranges: peak when a peak range holds the hour, super
      off-peak when only a super-off-peak range does, off-peak when neither does. */
  lemma AccessSlotCases(t: TariffDefinition, hour: int)
    ensures var ph := t.peakHours.GetOr(map[]);
            var inPeak := exists i :: 0 <= i < |RangesOf(ph, "peak")| && InHourRange(hour, RangesOf(ph, "peak")[i]);
            var inSuper := exists i :: 0 <= i < |RangesOf(ph, "super_off_peak")| &&
                                       InHourRange(hour, RangesOf(ph, "super_off_peak")[i]);
            (AccessSlotOf(t, hour) == PeakSlot <==> inPeak) &&
            (AccessSlotOf(t, hour) == SuperOffPeakSlot <==> !inPeak && inSuper) &&
            (AccessSlotOf(t, hour) == OffPeakSlot <==> !inPeak && !inSuper)
  {
    var ph := t.peakHours.GetOr(map[]);
    HourInRangeExists(hour, RangesOf(ph, "peak"));
    HourInRangeExists(hour, RangesOf(ph, "super_off_peak"));
  }

  /** Without peak_hours every hour is charged at the off-peak rate. */
  lemma NoPeakHoursMeansOffPeak(t: TariffDefinition, hour: int)
    requires t.peakHours.None? || t.peakHours == Some(map[])
    ensures AccessCharge(t, hour) == t.accessChargeOffPeak.GetOr(0.0)
  {
  }

  /** compute_buy_export_prices: (buy, export) in €/kWh. Without an active definition the
      access charge is 0.05 and the multiplier 0.8; with one, the charge of the hour's slot and
      the stored multiplier, whose NULL makes the multiplication raise TypeError (None). */
  function ComputeBuyExportPrices(spot: real, ts: Timestamp, tariffType: string,
                                  defs: seq<TariffDefinition>): Option<(real, real)>
    requires ValidDate(ts.date)
  {
    var spotKwh := spot / 1000.0;
    match ActiveDefinition(defs, tariffType, ts)
    case None => Some((spotKwh + 0.05, spotKwh * 0.8))
    case Some(t) =>
      if t.exportMultiplier.None? then None
      else Some((spotKwh + AccessCharge(t, ts.hour), spotKwh * t.exportMultiplier.value))
  }

  /** The buy price moves one for one with the spot price in €/kWh: no loss factor and no VAT
      scale it. Whether the call raises does not depend on the spot price, and without an
      active definition the result is (spot/1000 + 0.05, spot/1000 * 0.8). */
  lemma LegacyBuySlope(s1: real, s2: real, ts: Timestamp, tariffType: string, defs: seq<TariffDefinition>)
    requires ValidDate(ts.date)
    ensures var p1 := ComputeBuyExportPrices(s1, ts, tariffType, defs);
            var p2 := ComputeBuyExportPrices(s2, ts, tariffType, defs);
            (p1.Some? <==> p2.Some?) &&
            (p1.Some? ==> p1.value.0 - p2.value.0 == (s1 - s2) / 1000.0)
    ensures ActiveDefinition(defs, tariffType, ts).None? ==>
            ComputeBuyExportPrices(s1, ts, tariffType, defs) == Some((s1 / 1000.0 + 0.05, s1 / 1000.0 * 0.8))
  {
  }

  /** The two export prices agree wherever this path has one: with no active definition both
      use 0.8, and with one both use its stored multiplier; where that multiplier is NULL this
      path raises while compute_export_price falls back to 0.8. */
  lemma ExportAgreesWithGridTariff(spot: real, ts: Timestamp, tariffType: string, defs: seq<TariffDefinition>)
    requires ValidTimestamp(ts)
    ensures var p := ComputeBuyExportPrices(spot, ts, tariffType, defs);
            p.Some? ==> p.value.1 == GridTariff.ComputeExportPrice(spot, tariffType, ts, defs)
    ensures var a := ActiveDefinition(defs, tariffType, ts);
            ComputeBuyExportPrices(spot, ts, tariffType, defs).None? <==> a.Some? && a.value.exportMultiplier.None?
  {
    var m := ExportMultiplier(defs, tariffType, ts);
    match ActiveDefinition(defs, tariffType, ts)
    case None =>
      assert m == 0.8;
    case Some(t) =>
      assert t.exportMultiplier.Some? ==> m == t.exportMultiplier.value;
  }
}
