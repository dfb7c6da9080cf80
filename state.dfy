/**
 * The VIN -> car id ledger (`VehicleStateStore` in state.py): a dictionary of entries,
 * each holding a remote car id, an informational configuration number and an `active`
 * flag, persisted as a JSON document and reloaded leniently.
 */
module State {
  import opened Wrappers

  /** `VehicleStateEntry` */
  datatype Entry = Entry(vin: string, carId: string, configurationNumber: Option<string>, active: bool)

  /** The contents of the store: `_entries`, keyed by VIN. */
  type Ledger = map<string, Entry>

  /** Every entry is filed under its own VIN. */
  ghost predicate WellKeyed(m: Ledger) {
    forall vin :: vin in m ==> m[vin].vin == vin
  }

  /** A parsed JSON value. Turning file text into such a value is the JSON parser's job. */
  datatype Json =
    | JNull
    | JBool(b: bool)
    | JNum(n: real)
    | JStr(s: string)
    | JArr(items: seq<Json>)
    | JObj(members: map<string, Json>)

  /**
   * What `_load` finds at the state file's path: no file, a file whose reading or
   * JSON decoding raises, or the decoded document (an empty file reads as `{}`).
   */
  datatype StateFile = Missing | Unreadable | Parsed(doc: Json)

  /** `d.get(key)` on a JSON object. */
  function Member(d: map<string, Json>, key: string): Option<Json> {
    if key in d then Some(d[key]) else None
  }

  /** `get_car_id` on a ledger. */
  function CarIdOf(m: Ledger, vin: string): (r: Option<string>)
    ensures r.Some? <==> vin in m
    ensures r.Some? ==> r.value == m[vin].carId
  {
    if vin in m then Some(m[vin].carId) else None
  }

  /** `upsert`: the entry for `vin` is (re)written and active; every other entry is kept. */
  function Upserted(m: Ledger, vin: string, carId: string, configurationNumber: Option<string>): (r: Ledger)
    ensures vin in r && r[vin] == Entry(vin, carId, configurationNumber, true)
    ensures r.Keys == m.Keys + {vin}
    ensures forall w :: w in m && w != vin ==> r[w] == m[w]
  {
    m[vin := Entry(vin, carId, configurationNumber, true)]
  }

  /**
   * `mark_active` (flag true) and `mark_deleted` (flag false): only the `active` flag
   * of an existing entry changes; an unknown VIN leaves the ledger as it is.
   */
  function WithActive(m: Ledger, vin: string, flag: bool): (r: Ledger)
    ensures r.Keys == m.Keys
    ensures vin in m ==> r[vin] == Entry(m[vin].vin, m[vin].carId, m[vin].configurationNumber, flag)
    ensures forall w :: w in m && w != vin ==> r[w] == m[w]
    ensures vin !in m ==> r == m
  {
    if vin in m then m[vin := m[vin].(active := flag)] else m
  }

  /** `known_vins`: the VINs whose entry is active. */
  function ActiveVins(m: Ledger): (r: set<string>)
    ensures r <= m.Keys
  {
    set vin | vin in m && m[vin].active
  }

  /** After `mark_deleted(vin)` the VIN is no longer known, yet its car id is still remembered. */
  lemma DeletedIsForgottenButRemembered(m: Ledger, vin: string)
    ensures vin !in ActiveVins(WithActive(m, vin, false))
    ensures CarIdOf(WithActive(m, vin, false), vin) == CarIdOf(m, vin)
    ensures ActiveVins(WithActive(m, vin, false)) == ActiveVins(m) - {vin}
  {
  }

  /** `mark_active` after `mark_deleted` restores an entry that was active. */
  lemma ReactivationRestores(m: Ledger, vin: string)
    requires vin in m && m[vin].active
    ensures WithActive(WithActive(m, vin, false), vin, true) == m
    ensures ActiveVins(WithActive(WithActive(m, vin, false), vin, true)) == ActiveVins(m)
  {
    assert WithActive(WithActive(m, vin, false), vin, true)[vin] == m[vin];
  }

  /** After `upsert`, the VIN is known and maps to the new car id, whatever was there before. */
  lemma UpsertIsKnown(m: Ledger, vin: string, carId: string, configurationNumber: Option<string>)
    ensures CarIdOf(Upserted(m, vin, carId, configurationNumber), vin) == Some(carId)
    ensures ActiveVins(Upserted(m, vin, carId, configurationNumber)) == ActiveVins(m) + {vin}
  {
  }

  /**
   * The per-entry validation of `_load`: a payload that is not an object, or whose
   * `car_id` is not a string, is skipped; a `configuration_number` that is not a string
   * becomes None; an `active` that is not a boolean becomes true.
   */
  function ParseEntry(vin: string, payload: Json): (r: Option<Entry>)
    ensures r.Some? <==> payload.JObj? && Member(payload.members, "car_id").Some?
                         && Member(payload.members, "car_id").value.JStr?
    ensures r.Some? ==> r.value.vin == vin && r.value.carId == payload.members["car_id"].s
    ensures r.Some? ==> (r.value.configurationNumber.Some? <==>
                         "configuration_number" in payload.members && payload.members["configuration_number"].JStr?)
    ensures r.Some? && r.value.configurationNumber.Some? ==>
              r.value.configurationNumber.value == payload.members["configuration_number"].s
    ensures r.Some? ==> r.value.active == (match Member(payload.members, "active")
                                           case Some(JBool(b)) => b
                                           case _ => true)
  {
    if !payload.JObj? then None
    else
      match Member(payload.members, "car_id")
      case Some(JStr(carId)) =>
        var configurationNumber :=
          match Member(payload.members, "configuration_number")
          case Some(JStr(c)) => Some(c)
          case _ => None;
        var active :=
          match Member(payload.members, "active")
          case Some(JBool(b)) => b
          case _ => true;
        Some(Entry(vin, carId, configurationNumber, active))
      case _ => None
  }

  /** The valid entries among the `vins` of a `vehicles` object. */
  function ValidEntries(vehicles: map<string, Json>, vins: set<string>): (r: Ledger)
    ensures WellKeyed(r)
    ensures forall vin :: vin in r <==> vin in vins && vin in vehicles && ParseEntry(vin, vehicles[vin]).Some?
  {
    map vin | vin in vins && vin in vehicles && ParseEntry(vin, vehicles[vin]).Some? :: ParseEntry(vin, vehicles[vin]).value
  }

  /** Adding one VIN to those examined adds its entry when, and only when, it is valid. */
  lemma ValidEntriesStep(start: Ledger, vehicles: map<string, Json>, vins: set<string>, vin: string)
    requires vin in vehicles && vin !in vins
    ensures start + ValidEntries(vehicles, vins + {vin}) ==
            match ParseEntry(vin, vehicles[vin])
            case Some(e) => (start + ValidEntries(vehicles, vins))[vin := e]
            case None => start + ValidEntries(vehicles, vins)
  {
    match ParseEntry(vin, vehicles[vin]) {
      case Some(e) =>
        assert ValidEntries(vehicles, vins + {vin}) == ValidEntries(vehicles, vins)[vin := e];
      case None =>
        assert ValidEntries(vehicles, vins + {vin}) == ValidEntries(vehicles, vins);
    }
  }

  /** The body of `_load`'s loop: the `isinstance` checks on one `vehicles` member. */
  method ReadEntry(vin: string, payload: Json) returns (r: Option<Entry>)
    ensures r == ParseEntry(vin, payload)
  {
    if !payload.JObj? {
      return None;
    }
    if "car_id" !in payload.members || !payload.members["car_id"].JStr? {
      return None;
    }
    var carId := payload.members["car_id"].s;
    var configurationNumber: Option<string> := None;
    if "configuration_number" in payload.members && payload.members["configuration_number"].JStr? {
      configurationNumber := Some(payload.members["configuration_number"].s);
    }
    var active := true;
    if "active" in payload.members && payload.members["active"].JBool? {
      active := payload.members["active"].b;
    }
    r := Some(Entry(vin, carId, configurationNumber, active));
  }

  /** What reading the state file yields: nothing to read, an exception, or entries. */
  datatype Reading = NoFile | Raised | Read(found: Ledger)

  function ReadStateFile(file: StateFile): Reading {
    match file
    case Missing => NoFile
    case Unreadable => Raised
    case Parsed(doc) =>
      if !doc.JObj? then Raised  // `data.get` on a non-object raises
      else
        var vehicles := Member(doc.members, "vehicles").GetOr(JObj(map[]));
        if vehicles.JObj? then Read(ValidEntries(vehicles.members, vehicles.members.Keys)) else Read(map[])
  }

  /**
   * The store's entries after `_load` started from `start`: unchanged without a file,
   * empty after any exception, otherwise `start` with every valid entry written over it.
   */
  function AfterLoad(start: Ledger, file: StateFile): (r: Ledger)
    ensures file == Missing ==> r == start
    ensures ReadStateFile(file) == Raised ==> r == map[]
    ensures ReadStateFile(file).Read? ==> r.Keys == start.Keys + ReadStateFile(file).found.Keys
    ensures ReadStateFile(file).Read? ==>
              forall vin :: vin in ReadStateFile(file).found ==> r[vin] == ReadStateFile(file).found[vin]
    ensures ReadStateFile(file).Read? ==>
              forall vin :: vin in start && vin !in ReadStateFile(file).found ==> r[vin] == start[vin]
  {
    match ReadStateFile(file)
    case NoFile => start
    case Raised => map[]
    case Read(found) => start + found
  }

  /** The JSON object `save` writes for one entry. */
  function EntryPayload(e: Entry): Json {
    JObj(map[
      "car_id" := JStr(e.carId),
      "configuration_number" := (match e.configurationNumber case Some(c) => JStr(c) case None => JNull),
      "active" := JBool(e.active)])
  }

  /** The document `save` writes: `{"vehicles": {vin: entry payload, ...}}`. */
  function SaveDocument(m: Ledger): Json {
    JObj(map["vehicles" := JObj(map vin | vin in m :: EntryPayload(m[vin]))])
  }

  /** Each saved entry payload parses back to the entry it came from. */
  lemma EntryRoundTrip(e: Entry)
    ensures ParseEntry(e.vin, EntryPayload(e)) == Some(e)
  {
    var p := EntryPayload(e).members;
    assert Member(p, "car_id") == Some(JStr(e.carId));
    assert Member(p, "active") == Some(JBool(e.active));
    match e.configurationNumber {
      case Some(c) => assert Member(p, "configuration_number") == Some(JStr(c));
      case None => assert Member(p, "configuration_number") == Some(JNull);
    }
  }

  /** Loading what `save` wrote into an empty store reproduces every entry. */
  lemma SaveLoadRoundTrip(m: Ledger)
    requires WellKeyed(m)
    ensures AfterLoad(map[], Parsed(SaveDocument(m))) == m
  {
    var vehicles := map vin | vin in m :: EntryPayload(m[vin]);
    assert Member(SaveDocument(m).members, "vehicles") == Some(JObj(vehicles));
    var found := ValidEntries(vehicles, vehicles.Keys);
    forall vin | vin in m ensures vin in found && found[vin] == m[vin] {
      EntryRoundTrip(m[vin]);
    }
    assert found == m;
    assert map[] + found == found;
  }

  /** `VehicleStateStore` */
  class VehicleStateStore {
    var entries: Ledger

    ghost predicate Valid()
      reads this
    {
      WellKeyed(entries)
    }

    /** `__init__`: an empty store followed by `_load`. */
    constructor (file: StateFile)
      ensures Valid()
      ensures entries == AfterLoad(map[], file)
    {
      entries := map[];
      new;
      Load(file);
    }

    /** `get_car_id`: a pure lookup. */
    function GetCarId(vin: string): (r: Option<string>)
      reads this
      ensures r == CarIdOf(entries, vin)
    {
      if vin in entries then Some(entries[vin].carId) else None
    }

    method Upsert(vin: string, carId: string, configurationNumber: Option<string>)
      requires Valid()
      modifies this
      ensures Valid()
      ensures entries == Upserted(old(entries), vin, carId, configurationNumber)
    {
      if vin in entries {
        entries := entries[vin := entries[vin].(carId := carId, configurationNumber := configurationNumber, active := true)];
      } else {
        entries := entries[vin := Entry(vin, carId, configurationNumber, true)];
      }
    }

    method MarkDeleted(vin: string)
      requires Valid()
      modifies this
      ensures Valid()
      ensures entries == WithActive(old(entries), vin, false)
    {
      if vin in entries {
        entries := entries[vin := entries[vin].(active := false)];
      }
    }

    method MarkActive(vin: string)
      requires Valid()
      modifies this
      ensures Valid()
      ensures entries == WithActive(old(entries), vin, true)
    {
      if vin in entries {
        entries := entries[vin := entries[vin].(active := true)];
      }
    }

    /** `known_vins` (as a set: the generator's order is not modelled). */
    function KnownVins(): (r: set<string>)
      reads this
      ensures r == ActiveVins(entries)
    {
      set vin | vin in entries && entries[vin].active
    }

    /** The payload `save` serialises; writing it to disk is not modelled. */
    method Save() returns (doc: Json)
      requires Valid()
      ensures doc == SaveDocument(entries)
      ensures AfterLoad(map[], Parsed(doc)) == entries
    {
      doc := JObj(map["vehicles" := JObj(map vin | vin in entries :: EntryPayload(entries[vin]))]);
      SaveLoadRoundTrip(entries);
    }

    /** The loop of `_load`: validates and inserts the members of `vehicles` one at a time, in no particular order. */
    method LoadVehicles(members: map<string, Json>)
      requires Valid()
      modifies this
      ensures Valid()
      ensures entries == old(entries) + ValidEntries(members, members.Keys)
    {
      var pending := members.Keys;
      ghost var done: set<string> := {};
      while pending != {}
        invariant pending + done == members.Keys && pending !! done
        invariant entries == old(entries) + ValidEntries(members, done)
        invariant Valid()
        decreases pending
      {
        var vin :| vin in pending;
        var entry := ReadEntry(vin, members[vin]);
        ValidEntriesStep(old(entries), members, done, vin);
        if entry.Some? {
          entries := entries[vin := entry.value];
        }
        pending := pending - {vin};
        done := done + {vin};
      }
    }

    /** `_load`: validates and inserts the entries one at a time, in no particular order. */
    method Load(file: StateFile)
      requires Valid()
      modifies this
      ensures Valid()
      ensures entries == AfterLoad(old(entries), file)
    {
      match file {
        case Missing =>
          return;
        case Unreadable =>
          entries := map[];
        case Parsed(doc) =>
          if !doc.JObj? {
            entries := map[];
            return;
          }
          var vehicles := if "vehicles" in doc.members then doc.members["vehicles"] else JObj(map[]);
          if vehicles.JObj? {
            LoadVehicles(vehicles.members);
          } else {
            assert entries + map[] == entries;
          }
          assert Member(doc.members, "vehicles").GetOr(JObj(map[])) == vehicles;
      }
    }
  }
}
