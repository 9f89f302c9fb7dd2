/** The five mock services (pets, reminders, appointments, feeding schedules, vaccinations). Each keeps a
    module-level array of plain objects keyed by a numeric `Id`, and each offers the same five operations:
    `getAll`, `getById`, `create`, `update` and `deleteItem`. They differ only in the properties `create`
    fills in before the caller's own and in the message of the error they throw for an unknown `Id`.
    One `Table` class models all five; a named constructor per service fixes those two differences.
    The simulated latency (`await delay(ms)`) is left out: every operation is modelled as synchronous. */
module Services {
  import opened Wrappers

  /** A JavaScript value as the records hold it. An ISO-8601 date string is kept as the instant it denotes. */
  datatype Value = Null | Bool(b: bool) | Num(n: int) | Str(s: string) | Instant(ms: int)

  /** A plain JavaScript object: its own properties by name. An absent key is `undefined`. */
  type Record = map<string, Value>

  /** JavaScript truthiness of a property; `absent` stands for `undefined`, which is falsy. */
  predicate Truthy(r: Record, key: string) {
    key in r &&
    match r[key]
    case Null => false
    case Bool(b) => b
    case Num(n) => n != 0
    case Str(s) => s != ""
    case Instant(_) => true
  }

  predicate HasId(r: Record, id: int) {
    "Id" in r && r["Id"] == Num(id)
  }

  predicate NumericId(r: Record) {
    "Id" in r && r["Id"].Num?
  }

  function IdOf(r: Record): int
    requires NumericId(r)
  {
    r["Id"].n
  }

  predicate AllNumericIds(s: seq<Record>) {
    forall i :: 0 <= i < |s| ==> NumericId(s[i])
  }

  predicate DistinctIds(s: seq<Record>)
    requires AllNumericIds(s)
  {
    forall i, j :: 0 <= i < j < |s| ==> IdOf(s[i]) != IdOf(s[j])
  }

  /** `Math.max(...s.map(r => r.Id))`. */
  function MaxId(s: seq<Record>): (m: int)
    requires s != [] && AllNumericIds(s)
    ensures forall i :: 0 <= i < |s| ==> IdOf(s[i]) <= m
    ensures exists i :: 0 <= i < |s| && IdOf(s[i]) == m
  {
    if |s| == 1 then IdOf(s[0])
    else
      var m := MaxId(s[1..]);
      assert forall i :: 1 <= i < |s| ==> s[i] == s[1..][i - 1];
      if IdOf(s[0]) >= m then IdOf(s[0]) else m
  }

  /** The `Id` that `create` gives a new record: one more than the largest, or 1 for an empty table. */
  function NextId(s: seq<Record>): (id: int)
    requires AllNumericIds(s)
    ensures forall i :: 0 <= i < |s| ==> IdOf(s[i]) < id
    ensures s == [] ==> id == 1
    ensures s != [] ==> exists i :: 0 <= i < |s| && IdOf(s[i]) == id - 1
  {
    (if |s| > 0 then MaxId(s) else 0) + 1
  }

  /** `s.findIndex(r => r.Id === id)`: the position of the first record with that `Id`, or -1. */
  function FindIndex(s: seq<Record>, id: int): (i: int)
    ensures -1 <= i < |s|
    ensures i >= 0 ==> HasId(s[i], id) && forall j :: 0 <= j < i ==> !HasId(s[j], id)
    ensures i == -1 ==> forall j :: 0 <= j < |s| ==> !HasId(s[j], id)
  {
    if s == [] then -1
    else if HasId(s[0], id) then 0
    else
      var k := FindIndex(s[1..], id);
      assert forall j :: 1 <= j < |s| ==> s[j] == s[1..][j - 1];
      if k < 0 then -1 else k + 1
  }

  /** `{ Id: id, ...defaults, ...data }`: later spreads win, so the caller's properties override both the
      generated `Id` and the defaults. */
  function NewRecord(defaults: Record, id: int, data: Record): (r: Record)
    ensures r.Keys == data.Keys + defaults.Keys + {"Id"}
    ensures forall k :: k in data ==> r[k] == data[k]
    ensures forall k :: k in defaults && k !in data ==> r[k] == defaults[k]
    ensures "Id" !in data && "Id" !in defaults ==> r["Id"] == Num(id)
  {
    map["Id" := Num(id)] + defaults + data
  }

  const ReminderDefaults: Record := map["completed" := Bool(false), "snoozedUntil" := Null]
  const AppointmentDefaults: Record := map["completed" := Bool(false)]

  class Table {
    /** The module-level array (`pets`, `reminders`, `appointments`, `feedingSchedules`, `vaccinations`). */
    var records: seq<Record>
    /** The properties `create` sets before spreading the caller's data. */
    const defaults: Record
    /** The message of the `Error` thrown for an unknown `Id`. */
    const notFound: string

    ghost predicate Valid()
      reads this
    {
      AllNumericIds(records) && "Id" !in defaults
    }

    constructor ForPets(initial: seq<Record>)
      requires AllNumericIds(initial)
      ensures Valid() && records == initial
      ensures defaults == map[] && notFound == "Pet not found"
    {
      records, defaults, notFound := initial, map[], "Pet not found";
    }

    constructor ForReminders(initial: seq<Record>)
      requires AllNumericIds(initial)
      ensures Valid() && records == initial
      ensures defaults == ReminderDefaults && notFound == "Reminder not found"
    {
      records, defaults, notFound := initial, ReminderDefaults, "Reminder not found";
    }

    constructor ForAppointments(initial: seq<Record>)
      requires AllNumericIds(initial)
      ensures Valid() && records == initial
      ensures defaults == AppointmentDefaults && notFound == "Appointment not found"
    {
      records, defaults, notFound := initial, AppointmentDefaults, "Appointment not found";
    }

    constructor ForFeedingSchedules(initial: seq<Record>)
      requires AllNumericIds(initial)
      ensures Valid() && records == initial
      ensures defaults == map[] && notFound == "Feeding schedule not found"
    {
      records, defaults, notFound := initial, map[], "Feeding schedule not found";
    }

    constructor ForVaccinations(initial: seq<Record>)
      requires AllNumericIds(initial)
      ensures Valid() && records == initial
      ensures defaults == map[] && notFound == "Vaccination not found"
    {
      records, defaults, notFound := initial, map[], "Vaccination not found";
    }

    /** `getAll`: a copy of the array, element for element. */
    method GetAll() returns (all: seq<Record>)
      ensures all == records
    {
      all := records;
    }

    /** `getById`: a copy of the first record with that `Id`, or the service's not-found error. */
    method GetById(id: int) returns (r: Result<Record>)
      ensures r.Ok? <==> exists i :: 0 <= i < |records| && HasId(records[i], id)
      ensures r.Ok? ==> HasId(r.value, id) && r.value == records[FindIndex(records, id)]
      ensures r.Err? ==> r.error == notFound
    {
      var i := FindIndex(records, id);
      if i < 0 {
        r := Err(notFound);
      } else {
        r := Ok(records[i]);
      }
    }

    /** `create`: appends `{ Id: max + 1, ...defaults, ...data }` and returns a copy of it. */
    method Create(data: Record) returns (created: Record)
      requires Valid()
      requires "Id" in data ==> data["Id"].Num?
      modifies this`records
      ensures Valid()
      ensures created == NewRecord(defaults, NextId(old(records)), data)
      ensures records == old(records) + [created]
      ensures "Id" !in data && DistinctIds(old(records)) ==> DistinctIds(records)
    {
      var id := NextId(records);
      created := NewRecord(defaults, id, data);
      if "Id" !in data && DistinctIds(records) {
        CreateKeepsIdsDistinct(records, defaults, data);
      }
      records := records + [created];
    }

    /** `update`: overlays `patch` on the first record with that `Id` and returns a copy of the result;
        an unknown `Id` throws and leaves the array as it was. */
    method Update(id: int, patch: Record) returns (r: Result<Record>)
      requires Valid()
      requires "Id" in patch ==> patch["Id"].Num?
      modifies this`records
      ensures Valid()
      ensures var i := FindIndex(old(records), id);
        if i < 0 then r == Err(notFound) && records == old(records)
        else records == old(records)[i := old(records)[i] + patch] && r == Ok(records[i])
      ensures "Id" !in patch && DistinctIds(old(records)) ==> DistinctIds(records)
    {
      var i := FindIndex(records, id);
      if i < 0 {
        r := Err(notFound);
      } else {
        if "Id" !in patch && DistinctIds(records) {
          UpdateKeepsIdsDistinct(records, i, patch);
        }
        records := records[i := records[i] + patch];
        r := Ok(records[i]);
      }
    }

    /** `deleteItem`: splices out the first record with that `Id` and resolves to `true`; an unknown `Id`
        throws and leaves the array as it was. */
    method DeleteItem(id: int) returns (r: Result<bool>)
      requires Valid()
      modifies this`records
      ensures Valid()
      ensures var i := FindIndex(old(records), id);
        if i < 0 then r == Err(notFound) && records == old(records)
        else r == Ok(true) && records == old(records)[..i] + old(records)[i + 1..]
      ensures DistinctIds(old(records)) ==> DistinctIds(records) && forall j :: 0 <= j < |records| ==> !HasId(records[j], id)
    {
      var i := FindIndex(records, id);
      if i < 0 {
        r := Err(notFound);
      } else {
        if DistinctIds(records) {
          DeleteRemovesTheId(records, i, id);
        }
        records := records[..i] + records[i + 1..];
        r := Ok(true);
      }
    }
  }

  /** A record created without a caller-supplied `Id` gets one that no record in the table has. */
  lemma CreateKeepsIdsDistinct(s: seq<Record>, defaults: Record, data: Record)
    requires AllNumericIds(s) && DistinctIds(s)
    requires "Id" !in defaults && "Id" !in data
    ensures var t := s + [NewRecord(defaults, NextId(s), data)];
      AllNumericIds(t) && DistinctIds(t) && IdOf(t[|s|]) == NextId(s)
  {
    var t := s + [NewRecord(defaults, NextId(s), data)];
    assert forall i :: 0 <= i < |s| ==> t[i] == s[i];
  }

  /** A patch without an `Id` keeps every `Id` where it was. */
  lemma UpdateKeepsIdsDistinct(s: seq<Record>, i: int, patch: Record)
    requires AllNumericIds(s) && DistinctIds(s) && 0 <= i < |s|
    requires "Id" !in patch
    ensures var t := s[i := s[i] + patch];
      AllNumericIds(t) && DistinctIds(t) && forall j :: 0 <= j < |s| ==> IdOf(t[j]) == IdOf(s[j])
  {
  }

  /** With distinct `Id`s, splicing out the record `findIndex` found leaves no record with that `Id`. */
  lemma DeleteRemovesTheId(s: seq<Record>, i: int, id: int)
    requires AllNumericIds(s) && DistinctIds(s)
    requires FindIndex(s, id) == i && 0 <= i
    ensures var t := s[..i] + s[i + 1..];
      AllNumericIds(t) && DistinctIds(t) && forall j :: 0 <= j < |t| ==> !HasId(t[j], id)
  {
    var t := s[..i] + s[i + 1..];
    assert forall j :: 0 <= j < |t| ==> t[j] == s[if j < i then j else j + 1];
  }

  /** Reminders: `completed` is `false` and `snoozedUntil` is `null` unless the caller supplies them; every
      property the caller supplies, `Id` included, is kept as given. */
  lemma ReminderCreateDefaults(id: int, data: Record)
    ensures var r := NewRecord(ReminderDefaults, id, data);
      && r["completed"] == (if "completed" in data then data["completed"] else Bool(false))
      && r["snoozedUntil"] == (if "snoozedUntil" in data then data["snoozedUntil"] else Null)
      && r["Id"] == (if "Id" in data then data["Id"] else Num(id))
      && r.Keys == data.Keys + {"Id", "completed", "snoozedUntil"}
      && forall k :: k in data ==> r[k] == data[k]
  {
  }

  /** Appointments: `completed` is `false` unless the caller supplies it. */
  lemma AppointmentCreateDefaults(id: int, data: Record)
    ensures var r := NewRecord(AppointmentDefaults, id, data);
      && r["completed"] == (if "completed" in data then data["completed"] else Bool(false))
      && r["Id"] == (if "Id" in data then data["Id"] else Num(id))
      && r.Keys == data.Keys + {"Id", "completed"}
      && forall k :: k in data ==> r[k] == data[k]
  {
  }

  /** Pets, feeding schedules and vaccinations: the record is the caller's data plus the generated `Id`. */
  lemma PlainCreate(id: int, data: Record)
    ensures var r := NewRecord(map[], id, data);
      && r.Keys == data.Keys + {"Id"}
      && r["Id"] == (if "Id" in data then data["Id"] else Num(id))
      && forall k :: k in data ==> r[k] == data[k]
  {
  }

  /** `{ ...record, ...patch }`: the patch's properties win, every other property keeps its value. */
  lemma PatchOverlay(r: Record, patch: Record)
    ensures (r + patch).Keys == r.Keys + patch.Keys
    ensures forall k :: k in patch ==> (r + patch)[k] == patch[k]
    ensures forall k :: k in r && k !in patch ==> (r + patch)[k] == r[k]
  {
  }

  /** A caller-supplied `Id` overrides the generated one, so `create` can duplicate an `Id`. */
  lemma CallerIdCanDuplicate()
    ensures var s := [map["Id" := Num(1)]];
      var t := s + [NewRecord(map[], NextId(s), map["Id" := Num(1)])];
      AllNumericIds(t) && !DistinctIds(t)
  {
    var s: seq<Record> := [map["Id" := Num(1)]];
    var t := s + [NewRecord(map[], NextId(s), map["Id" := Num(1)])];
    assert IdOf(t[0]) == IdOf(t[1]);
  }
}
