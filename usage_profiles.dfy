/**
 * build_usage_profiles (backend/app/ai/usage_profiles.py): the first 96 source rows become the
 * 15-minute slots of a typical day, each stored twice in usage_profiles, once as a weekday row
 * with the readings as they are and once as a weekend row with 40% of the load and half of the
 * battery and grid power.
 */
module UsageProfiles {
  import opened Wrappers
  import Sim
  import opened Db

  /** The number of 15-minute slots in a day: rows past it are not used. */
  const MaxSlots := 96

  /** A source row: a row of Consumption.csv, or the four readings of a consumption record
      from the database. */
  datatype SourceRow =
    | CsvSource(cells: Sim.CsvRow)
    | DbSource(loadKw: real, solarKw: real, batteryKw: real, gridKw: real)

  /** The four readings of one slot. */
  datatype Readings = Readings(load: real, solar: real, battery: real, grid: real)

  /** A CSV column present in the row is parsed like _parse_float (blank or unparsable text
      reads 0.0); a missing one reads 0. */
  function Column(cells: Sim.CsvRow, column: string, parse: string -> Option<real>): real {
    if column in cells then Sim.ParseFloat(cells, column, parse) else 0.0
  }

  /** The load, solar, battery and grid readings of a source row. */
  function ReadingsOf(row: SourceRow, parse: string -> Option<real>): Readings {
    match row
    case CsvSource(cells) =>
      Readings(Column(cells, "BUILDING LOAD PWR", parse), Column(cells, "SOLAR PWR", parse),
               Column(cells, "BATTERY PWR", parse), Column(cells, "GRID PWR", parse))
    case DbSource(load, solar, battery, grid) => Readings(load, solar, battery, grid)
  }

  /** `(slot_15min // 4) % 24` */
  function ProfileHour(slot: nat): int {
    (slot / 4) % 24
  }

  /** Within one day the hour of a profile slot is the hour the simulator gives the same slot:
      the quarter-hours 4h..4h+3 belong to hour h. */
  lemma ProfileHourOfSlot(slot: nat)
    requires slot < MaxSlots
    ensures ProfileHour(slot) == slot / 4 == Sim.SlotHour(slot)
    ensures 0 <= ProfileHour(slot) < 24 && 4 * ProfileHour(slot) <= slot < 4 * ProfileHour(slot) + 4
  {
    assert slot % Sim.SlotsPerDay == slot;
  }

  /** The weekday row of a slot: the readings as they are. */
  function WeekdayRow(profileId: string, slot: nat, r: Readings): UsageProfile {
    UsageProfile(profileId, "weekday", slot, ProfileHour(slot), r.load, r.solar, r.battery, r.grid)
  }

  /** The weekend row of a slot: 40% of the load, the same solar, half the battery and grid. */
  function WeekendRow(profileId: string, slot: nat, r: Readings): UsageProfile {
    UsageProfile(profileId, "weekend", slot, ProfileHour(slot), r.load * 0.4, r.solar, r.battery * 0.5, r.grid * 0.5)
  }

  /** The rows inserted for the given source rows, slot by slot, weekday before weekend. */
  function ProfileRows(profileId: string, rows: seq<SourceRow>, parse: string -> Option<real>): seq<UsageProfile>
    decreases |rows|
  {
    if |rows| == 0 then []
    else
      var slot := |rows| - 1;
      var r := ReadingsOf(rows[slot], parse);
      ProfileRows(profileId, rows[..slot], parse) + [WeekdayRow(profileId, slot, r), WeekendRow(profileId, slot, r)]
  }

  /** The table after upserting the rows in order. */
  function Stored(t: seq<UsageProfile>, ps: seq<UsageProfile>): seq<UsageProfile>
    decreases |ps|
  {
    if |ps| == 0 then t else Upsert(Stored(t, ps[..|ps| - 1]), ps[|ps| - 1])
  }

  /** `rows[:96]` */
  function Used(rows: seq<SourceRow>): (used: seq<SourceRow>)
    ensures |used| <= MaxSlots && |used| <= |rows| && used == rows[..|used|]
    ensures |rows| <= MaxSlots ==> used == rows
  {
    if |rows| <= MaxSlots then rows else rows[..MaxSlots]
  }

  /** The profile loop: for each of the first 96 rows, the weekday row then the weekend row
      are inserted (or replace the rows of the same profile, day type and slot), and the count
      goes up by one per insert. No source rows means no insert and a count of 0. */
  method BuildUsageProfiles(repo: Repository, profileId: string, rows: seq<SourceRow>,
                            parse: string -> Option<real>) returns (count: int)
    modifies repo
    ensures count == 2 * |Used(rows)|
    ensures repo.usageProfiles == Stored(old(repo.usageProfiles), ProfileRows(profileId, Used(rows), parse))
    ensures repo.definitions == old(repo.definitions) && repo.nextId == old(repo.nextId)
    ensures repo.costs == old(repo.costs) && repo.holidays == old(repo.holidays)
    ensures repo.settingRows == old(repo.settingRows)
  {
    if |rows| == 0 {
      return 0;
    }
    var used := Used(rows);
    count := 0;
    var slot := 0;
    while slot < |used|
      invariant 0 <= slot <= |used|
      invariant count == 2 * slot
      invariant repo.usageProfiles == Stored(old(repo.usageProfiles), ProfileRows(profileId, used[..slot], parse))
      invariant repo.definitions == old(repo.definitions) && repo.nextId == old(repo.nextId)
      invariant repo.costs == old(repo.costs) && repo.holidays == old(repo.holidays)
      invariant repo.settingRows == old(repo.settingRows)
    {
      count := StoreSlot(repo, profileId, slot, ReadingsOf(used[slot], parse), count);
      SlotStored(old(repo.usageProfiles), profileId, used, slot, parse);
      slot := slot + 1;
    }
    assert used[..slot] == used;
  }

  /** The body of the profile loop: the weekday row, then the weekend row, each counted. */
  method StoreSlot(repo: Repository, profileId: string, slot: nat, r: Readings, count: int) returns (next: int)
    modifies repo
    ensures next == count + 2
    ensures repo.usageProfiles ==
            Upsert(Upsert(old(repo.usageProfiles), WeekdayRow(profileId, slot, r)), WeekendRow(profileId, slot, r))
    ensures repo.definitions == old(repo.definitions) && repo.nextId == old(repo.nextId)
    ensures repo.costs == old(repo.costs) && repo.holidays == old(repo.holidays)
    ensures repo.settingRows == old(repo.settingRows)
  {
    var hour := (slot / 4) % 24;
    repo.InsertUsageProfile(UsageProfile(profileId, "weekday", slot, hour, r.load, r.solar, r.battery, r.grid));
    next := count + 1;
    repo.InsertUsageProfile(UsageProfile(profileId, "weekend", slot, hour,
                                         r.load * 0.4, r.solar, r.battery * 0.5, r.grid * 0.5));
    next := next + 1;
  }

  /** One step of the loop: the rows of one more slot are the two upserts of that slot. */
  lemma SlotStored(t: seq<UsageProfile>, profileId: string, used: seq<SourceRow>, slot: nat,
                   parse: string -> Option<real>)
    requires slot < |used|
    ensures var r := ReadingsOf(used[slot], parse);
            Stored(t, ProfileRows(profileId, used[..slot + 1], parse)) ==
            Upsert(Upsert(Stored(t, ProfileRows(profileId, used[..slot], parse)),
                          WeekdayRow(profileId, slot, r)), WeekendRow(profileId, slot, r))
  {
    var r := ReadingsOf(used[slot], parse);
    var before := ProfileRows(profileId, used[..slot], parse);
    var after := ProfileRows(profileId, used[..slot + 1], parse);
    assert used[..slot + 1][..slot] == used[..slot];
    assert after == before + [WeekdayRow(profileId, slot, r), WeekendRow(profileId, slot, r)];
    assert after[..|after| - 1] == before + [WeekdayRow(profileId, slot, r)];
    assert (before + [WeekdayRow(profileId, slot, r)])[..|before|] == before;
  }

  // ---------------------------------------------------------------------------------------
  // What the build stores

  /** Two rows per slot, in slot order: at 2s the weekday row of slot s with its readings, at
      2s + 1 the weekend row of the same slot and hour with 40% of the load, the same solar and
      half the battery and grid. */
  lemma {:induction false} ProfileRowsShape(profileId: string, rows: seq<SourceRow>, parse: string -> Option<real>)
    ensures var ps := ProfileRows(profileId, rows, parse);
            |ps| == 2 * |rows| &&
            forall s :: 0 <= s < |rows| ==>
              ps[2 * s] == WeekdayRow(profileId, s, ReadingsOf(rows[s], parse)) &&
              ps[2 * s + 1] == WeekendRow(profileId, s, ReadingsOf(rows[s], parse))
    decreases |rows|
  {
    if |rows| > 0 {
      var n := |rows| - 1;
      ProfileRowsShape(profileId, rows[..n], parse);
      assert forall s :: 0 <= s < n ==> rows[..n][s] == rows[s];
    }
  }

  /** The weekend row of a slot is its weekday row scaled: same profile, slot and hour, 40% of
      the load, the same solar, half the battery and grid. */
  lemma WeekendScalesWeekday(profileId: string, slot: nat, r: Readings)
    ensures var wd := WeekdayRow(profileId, slot, r);
            var we := WeekendRow(profileId, slot, r);
            we == wd.(dayType := "weekend", loadKw := wd.loadKw * 0.4,
                      batteryKw := wd.batteryKw * 0.5, gridKw := wd.gridKw * 0.5)
  {
  }

  /** The key of the row at position i: weekday at even positions, weekend at odd ones, of
      slot i / 2. */
  lemma KeyAt(profileId: string, rows: seq<SourceRow>, parse: string -> Option<real>, i: int)
    requires 0 <= i < |ProfileRows(profileId, rows, parse)|
    ensures KeyOf(ProfileRows(profileId, rows, parse)[i]) ==
            ProfileKey(profileId, if i % 2 == 0 then "weekday" else "weekend", i / 2)
  {
    ProfileRowsShape(profileId, rows, parse);
    var s := i / 2;
    assert 0 <= s < |rows|;
    if i % 2 == 0 {
      assert i == 2 * s;
    } else {
      assert i == 2 * s + 1;
    }
  }

  /** The key of every built row is the profile, a day type and a used slot, every such key is
      built, and the built rows have pairwise distinct keys. */
  lemma ProfileRowKeys(profileId: string, rows: seq<SourceRow>, parse: string -> Option<real>)
    ensures var ps := ProfileRows(profileId, rows, parse);
            UniqueKeys(ps) &&
            forall k: ProfileKey :: k in KeySet(ps) <==>
              k.profileId == profileId && (k.dayType == "weekday" || k.dayType == "weekend") &&
              0 <= k.slot < |rows|
  {
    var ps := ProfileRows(profileId, rows, parse);
    ProfileRowsShape(profileId, rows, parse);
    forall i, j | 0 <= i < j < |ps| ensures KeyOf(ps[i]) != KeyOf(ps[j]) {
      KeyAt(profileId, rows, parse, i);
      KeyAt(profileId, rows, parse, j);
    }
    forall k: ProfileKey | k in KeySet(ps)
      ensures k.profileId == profileId && (k.dayType == "weekday" || k.dayType == "weekend") &&
              0 <= k.slot < |rows|
    {
      var i :| 0 <= i < |ps| && KeyOf(ps[i]) == k;
      KeyAt(profileId, rows, parse, i);
    }
    forall k: ProfileKey | k.profileId == profileId && (k.dayType == "weekday" || k.dayType == "weekend") &&
               0 <= k.slot < |rows|
      ensures k in KeySet(ps)
    {
      var i := if k.dayType == "weekday" then 2 * k.slot else 2 * k.slot + 1;
      KeyAt(profileId, rows, parse, i);
      assert KeyOf(ps[i]) == k;
    }
  }

  /** The keys of the rows. */
  function KeySet(ps: seq<UsageProfile>): set<ProfileKey> {
    set i | 0 <= i < |ps| :: KeyOf(ps[i])
  }

  /** Upserting rows with distinct keys leaves the rows themselves and the old rows whose key
      none of them has; keys stay unique. */
  lemma {:induction false} StoredMembers(t: seq<UsageProfile>, ps: seq<UsageProfile>)
    requires UniqueKeys(ps)
    ensures forall q :: q in Stored(t, ps) <==> q in ps || (q in t && KeyOf(q) !in KeySet(ps))
    ensures UniqueKeys(t) ==> UniqueKeys(Stored(t, ps))
    decreases |ps|
  {
    if |ps| > 0 {
      var n := |ps| - 1;
      var init := ps[..n];
      var p := ps[n];
      LastKey(ps);
      StoredMembers(t, init);
      UpsertEffect(Stored(t, init), p);
      assert forall q :: q in ps <==> q in init || q == p;
    }
  }

  /** Splitting off the last row: the rest keeps distinct keys, none of them the last row's. */
  lemma LastKey(ps: seq<UsageProfile>)
    requires UniqueKeys(ps) && |ps| > 0
    ensures var init := ps[..|ps| - 1];
            UniqueKeys(init) && ps == init + [ps[|ps| - 1]] &&
            (forall k :: k in KeySet(ps) <==> k in KeySet(init) || k == KeyOf(ps[|ps| - 1])) &&
            (forall q :: q in init ==> KeyOf(q) != KeyOf(ps[|ps| - 1]))
  {
    var n := |ps| - 1;
    var init := ps[..n];
    assert forall i :: 0 <= i < n ==> init[i] == ps[i];
    forall q | q in init ensures KeyOf(q) != KeyOf(ps[n]) {
      var j :| 0 <= j < n && init[j] == q;
    }
    forall k | k in KeySet(ps) ensures k in KeySet(init) || k == KeyOf(ps[n]) {
      var i :| 0 <= i < |ps| && KeyOf(ps[i]) == k;
      if i < n {
        assert KeyOf(init[i]) == k;
      }
    }
  }

  /** When no earlier row has the key of a built row, the upserts just append the built rows
      in order. */
  lemma {:induction false} StoredAppends(t: seq<UsageProfile>, ps: seq<UsageProfile>)
    requires UniqueKeys(ps)
    requires forall q :: q in t ==> KeyOf(q) !in KeySet(ps)
    ensures Stored(t, ps) == t + ps
    decreases |ps|
  {
    if |ps| > 0 {
      var n := |ps| - 1;
      var init := ps[..n];
      var p := ps[n];
      LastKey(ps);
      StoredAppends(t, init);
      assert forall q :: q in t + init ==> KeyOf(q) != KeyOf(p);
      WithoutAbsentKey(t + init, KeyOf(p));
      assert t + ps == (t + init) + [p];
    }
  }

  /** After the build the table holds the two rows of every used slot, keeps every earlier row
      of another profile, another day type or a later slot, and holds nothing else. */
  lemma BuiltTable(t: seq<UsageProfile>, profileId: string, rows: seq<SourceRow>, parse: string -> Option<real>)
    ensures var ps := ProfileRows(profileId, Used(rows), parse);
            forall q :: q in Stored(t, ps) <==>
              q in ps ||
              (q in t && !(q.profileId == profileId && (q.dayType == "weekday" || q.dayType == "weekend") &&
                           0 <= q.slot < |Used(rows)|))
    ensures UniqueKeys(t) ==> UniqueKeys(Stored(t, ProfileRows(profileId, Used(rows), parse)))
  {
    ProfileRowKeys(profileId, Used(rows), parse);
    StoredMembers(t, ProfileRows(profileId, Used(rows), parse));
  }
}
