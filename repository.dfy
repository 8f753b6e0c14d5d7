/**
 * The repository's tariff tables as an in-memory object (backend/app/db/repository.py): the
 * rows of erse_tariff_definitions, grid_tariff_costs, portuguese_holidays, site_settings and
 * usage_profiles held as sequences that the administration methods replace, the row scans of
 * get_grid_access and get_slot_name as loops with early return, and get_site_settings as a
 * loop that updates its result record.
 */
module Db {
  import opened Wrappers
  import opened TariffTables

  /** One row of usage_profiles. */
  datatype UsageProfile = UsageProfile(
    profileId: string,
    dayType: string,
    slot: int,
    hour: int,
    loadKw: real,
    solarKw: real,
    batteryKw: real,
    gridKw: real)

  /** The key INSERT OR REPLACE matches on: (profile_id, day_type, slot_15min). */
  datatype ProfileKey = ProfileKey(profileId: string, dayType: string, slot: int)

  function KeyOf(p: UsageProfile): ProfileKey {
    ProfileKey(p.profileId, p.dayType, p.slot)
  }

  /** No two rows share a key. */
  predicate UniqueKeys(t: seq<UsageProfile>) {
    forall i, j :: 0 <= i < j < |t| ==> KeyOf(t[i]) != KeyOf(t[j])
  }

  /** The table without the rows that have the key. */
  function WithoutKey(t: seq<UsageProfile>, k: ProfileKey): (r: seq<UsageProfile>)
    ensures forall q :: q in r <==> q in t && KeyOf(q) != k
    decreases |t|
  {
    if |t| == 0 then []
    else
      var rest := WithoutKey(t[1..], k);
      assert t == [t[0]] + t[1..];
      if KeyOf(t[0]) == k then rest else [t[0]] + rest
  }

  /** INSERT OR REPLACE: a row with the same key is replaced by the new one. */
  function Upsert(t: seq<UsageProfile>, p: UsageProfile): seq<UsageProfile> {
    WithoutKey(t, KeyOf(p)) + [p]
  }

  /** Removing a key no row has leaves the table as it was. */
  lemma {:induction false} WithoutAbsentKey(t: seq<UsageProfile>, k: ProfileKey)
    requires forall q :: q in t ==> KeyOf(q) != k
    ensures WithoutKey(t, k) == t
    decreases |t|
  {
    if |t| > 0 {
      assert forall q :: q in t[1..] ==> q in t;
      WithoutAbsentKey(t[1..], k);
      assert t == [t[0]] + t[1..];
    }
  }

  /** After an upsert the table holds the new row and every other row whose key differs, and
      nothing else; keys stay unique. */
  lemma {:induction false} UpsertEffect(t: seq<UsageProfile>, p: UsageProfile)
    ensures forall q :: q in Upsert(t, p) <==> q == p || (q in t && KeyOf(q) != KeyOf(p))
    ensures UniqueKeys(t) ==> UniqueKeys(Upsert(t, p))
  {
    if UniqueKeys(t) {
      WithoutKeyUnique(t, KeyOf(p));
    }
  }

  lemma {:induction false} WithoutKeyUnique(t: seq<UsageProfile>, k: ProfileKey)
    requires UniqueKeys(t)
    ensures UniqueKeys(WithoutKey(t, k))
    decreases |t|
  {
    if |t| > 0 {
      var rest := WithoutKey(t[1..], k);
      assert UniqueKeys(t[1..]) by {
        forall i, j | 0 <= i < j < |t| - 1 ensures KeyOf(t[1..][i]) != KeyOf(t[1..][j]) {
          assert t[1..][i] == t[i + 1] && t[1..][j] == t[j + 1];
        }
      }
      WithoutKeyUnique(t[1..], k);
      if KeyOf(t[0]) != k {
        forall q | q in rest ensures KeyOf(q) != KeyOf(t[0]) {
          var j :| 0 <= j < |t[1..]| && t[1..][j] == q;
          assert t[j + 1] == q;
        }
        var r := [t[0]] + rest;
        forall i, j | 0 <= i < j < |r| ensures KeyOf(r[i]) != KeyOf(r[j]) {
          if i > 0 {
            assert r[i] == rest[i - 1] && r[j] == rest[j - 1];
          } else {
            assert r[j] in rest;
          }
        }
      }
    }
  }

  /** The largest id in the table, 0 for an empty one. */
  function MaxId(defs: seq<TariffDefinition>): (m: int)
    ensures m >= 0 && forall i :: 0 <= i < |defs| ==> defs[i].id <= m
  {
    if |defs| == 0 then 0
    else
      var rest := MaxId(defs[..|defs| - 1]);
      assert forall i :: 0 <= i < |defs| - 1 ==> defs[..|defs| - 1][i] == defs[i];
      if defs[|defs| - 1].id > rest then defs[|defs| - 1].id else rest
  }

  class Repository {
    var definitions: seq<TariffDefinition>
    /** The rowid the next insert receives: above every id in the table. */
    var nextId: int
    var costs: seq<GridCost>
    var holidays: set<string>
    var settingRows: seq<SettingRow>
    var usageProfiles: seq<UsageProfile>

    /** Ids are unique (the primary key) and below the next rowid. */
    ghost predicate Valid()
      reads this
    {
      UniqueIds(definitions) && nextId >= 1 && IdsBelow(definitions, nextId)
    }

    /** The tables after schema and seed loading. */
    constructor (defs: seq<TariffDefinition>, costRows: seq<GridCost>, holidayDates: set<string>,
                 settings: seq<SettingRow>, profiles: seq<UsageProfile>)
      requires UniqueIds(defs)
      ensures Valid()
      ensures definitions == defs && costs == costRows && holidays == holidayDates
      ensures settingRows == settings && usageProfiles == profiles
    {
      definitions := defs;
      nextId := MaxId(defs) + 1;
      costs := costRows;
      holidays := holidayDates;
      settingRows := settings;
      usageProfiles := profiles;
    }

    /** What the pricing functions read. */
    function Data(): TariffData
      reads this
    {
      TariffData(definitions, costs, holidays, settingRows)
    }

    /** get_grid_access: scan the cost rows in table order; the first selected row whose
        window holds hour * 60 + minute gives the cost; a time that does not parse raises, and
        so does float() of a NULL cost. */
    method GetGridAccess(tariffType: string, voltageLevel: string, season: string, dayOfWeek: string,
                         hour: int, minute: int) returns (r: Lookup<real>)
      ensures r == GridAccessAt(costs, SlotQuery(tariffType, voltageLevel, season, dayOfWeek, hour, minute))
    {
      var q := SlotQuery(tariffType, voltageLevel, season, dayOfWeek, hour, minute);
      var i := FindSlotRow(q);
      r := match i
           case Hit(k) => (if costs[k].gridAccess.Some? then Hit(costs[k].gridAccess.value) else Fault)
           case Miss => Miss
           case Fault => Fault;
    }

    /** get_slot_name: the same scan, returning the slot name of the row it stops at. */
    method GetSlotName(tariffType: string, voltageLevel: string, season: string, dayOfWeek: string,
                       hour: int, minute: int) returns (r: Lookup<string>)
      ensures r == SlotNameAt(costs, SlotQuery(tariffType, voltageLevel, season, dayOfWeek, hour, minute))
    {
      var q := SlotQuery(tariffType, voltageLevel, season, dayOfWeek, hour, minute);
      var i := FindSlotRow(q);
      r := match i case Hit(k) => Hit(costs[k].slotName) case Miss => Miss case Fault => Fault;
    }

    /** The loop both lookups share: rows are probed in table order (ProbeRow: a row the SQL
        filter rejects is passed over; otherwise its start and end times are parsed, either
        raising ValueError, and the row is returned when its window holds the minute), and the
        first row that matches or raises ends the scan. */
    method FindSlotRow(q: Query) returns (r: Lookup<nat>)
      ensures r == Scan(costs, q)
      ensures r.Hit? ==> r.value < |costs|
    {
      var i := 0;
      while i < |costs|
        invariant 0 <= i <= |costs|
        invariant forall j :: 0 <= j < i ==> ProbeRow(costs[j], q) == Skip
      {
        var p := ProbeRow(costs[i], q);
        if p != Skip {
          ScanStopsAt(costs, q, i);
          return if p == Match then Hit(i) else Fault;
        }
        i := i + 1;
      }
      ScanRunsOff(costs, q);
      r := Miss;
    }

    /** insert_erse_tariff: one row is added at the end with the next rowid, which is returned;
        nothing else changes. */
    method InsertErseTariff(data: NewTariff) returns (id: int)
      requires Valid()
      modifies this
      ensures Valid()
      ensures id == old(nextId) && nextId == id + 1
      ensures definitions == old(definitions) + [InsertedRow(data, id)]
      ensures costs == old(costs) && holidays == old(holidays)
      ensures settingRows == old(settingRows) && usageProfiles == old(usageProfiles)
    {
      id := nextId;
      definitions := definitions + [InsertedRow(data, id)];
      nextId := nextId + 1;
    }

    /** update_erse_tariff: read the row with the id, merge the patch into it and write it
        back; an unknown id returns without a change. */
    method UpdateErseTariff(id: int, patch: Patch)
      requires Valid()
      modifies this
      ensures Valid()
      ensures definitions == UpdatedTable(old(definitions), id, patch)
      ensures nextId == old(nextId) && costs == old(costs) && holidays == old(holidays)
      ensures settingRows == old(settingRows) && usageProfiles == old(usageProfiles)
    {
      var found := IndexOfId(definitions, id);
      if found.None? {
        return;
      }
      var k := found.value;
      var existing := definitions[k];
      definitions := definitions[k := Merge(existing, patch)];
      assert forall i :: 0 <= i < |definitions| ==> definitions[i].id == old(definitions)[i].id;
    }

    /** delete_erse_tariff: the rows with the id are removed. */
    method DeleteErseTariff(id: int)
      requires Valid()
      modifies this
      ensures Valid()
      ensures definitions == RemoveId(old(definitions), id)
      ensures nextId == old(nextId) && costs == old(costs) && holidays == old(holidays)
      ensures settingRows == old(settingRows) && usageProfiles == old(usageProfiles)
    {
      match IndexOfId(definitions, id)
      case None =>
        RemoveUnknownId(definitions, id);
      case Some(k) =>
        RemoveKnownId(definitions, k);
        RemoveRowKeepsIds(definitions, k, nextId);
        definitions := definitions[..k] + definitions[k + 1..];
    }

    /** get_site_settings: start from the defaults and let each row, in table order, set its
        key; a numeric value that does not parse is skipped. */
    method GetSiteSettings(parse: string -> Option<real>) returns (result: SiteSettings)
      ensures result == SettingsOf(settingRows, parse)
      ensures result == SiteSettings(
                LastText(settingRows, "voltage_level", "medium_voltage"),
                LastNumber(settingRows, "contracted_power_kva", parse, 250.0),
                LastNumber(settingRows, "assumed_daily_kwh", parse, 500.0),
                LastText(settingRows, "tariff_type", "three_rate"))
    {
      result := DefaultSettings;
      var i := 0;
      while i < |settingRows|
        invariant 0 <= i <= |settingRows|
        invariant result == SettingsOf(settingRows[..i], parse)
      {
        var row := settingRows[i];
        if row.key == "voltage_level" {
          result := result.(voltageLevel := row.value);
        } else if row.key == "contracted_power_kva" {
          var v := parse(row.value);
          if v.Some? {
            result := result.(contractedPowerKva := v.value);
          }
        } else if row.key == "assumed_daily_kwh" {
          var v := parse(row.value);
          if v.Some? {
            result := result.(assumedDailyKwh := v.value);
          }
        } else if row.key == "tariff_type" {
          result := result.(tariffType := row.value);
        }
        assert settingRows[..i + 1][..i] == settingRows[..i];
        i := i + 1;
      }
      assert settingRows[..i] == settingRows;
      SettingsOfByKey(settingRows, parse);
    }

    /** insert_usage_profile: INSERT OR REPLACE, so a row with the same profile, day type and
        slot is replaced. */
    method InsertUsageProfile(p: UsageProfile)
      modifies this
      ensures usageProfiles == Upsert(old(usageProfiles), p)
      ensures definitions == old(definitions) && nextId == old(nextId) && costs == old(costs)
      ensures holidays == old(holidays) && settingRows == old(settingRows)
    {
      usageProfiles := Upsert(usageProfiles, p);
    }
  }
}
