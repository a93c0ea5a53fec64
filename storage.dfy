/**
 * `StorageService`: the record collection and the settings object kept under
 * two keys of the platform key-value store. The store is a map from the two
 * keys to the values the service wrote there (the JSON text itself is
 * abstracted away); `Unparseable` stands for stored text that `JSON.parse`
 * rejects. A failing `getItem` and a failing `setItem` are input flags.
 */
module Storage {
  import opened Prelude
  import opened Types

  /** `STORAGE_KEYS`: 'alcohol_records' and 'user_settings'. */
  datatype StorageKey = RecordsKey | SettingsKey

  datatype StoredValue =
    | RecordsValue(records: seq<AlcoholRecord>)
    | SettingsValue(settings: UserSettings)
    | Unparseable

  type KeyValueState = map<StorageKey, StoredValue>

  /** What `getAllRecords` returns for a store: absent or unreadable data reads as []. */
  function RecordsIn(kv: KeyValueState, readFails: bool): (rs: seq<AlcoholRecord>)
    ensures (readFails || RecordsKey !in kv || !kv[RecordsKey].RecordsValue?) ==> rs == []
    ensures !readFails && RecordsKey in kv && kv[RecordsKey].RecordsValue? ==> rs == kv[RecordsKey].records
  {
    if readFails || RecordsKey !in kv then []
    else match kv[RecordsKey]
      case RecordsValue(rs) => rs
      case _ => []
  }

  /** What `getSettings` returns: absent or unreadable settings read as `{ isPremium: false }`. */
  function SettingsIn(kv: KeyValueState, readFails: bool): (s: UserSettings)
    ensures (readFails || SettingsKey !in kv || !kv[SettingsKey].SettingsValue?) ==> s == DefaultSettings
  {
    if readFails || SettingsKey !in kv then DefaultSettings
    else match kv[SettingsKey]
      case SettingsValue(s) => s
      case _ => DefaultSettings
  }

  /** Index of the first record with id `id` (`findIndex`), if any. */
  function FirstIndexOfId(rs: seq<AlcoholRecord>, id: string): (r: Option<nat>)
    ensures r.Some? ==> r.value < |rs| && rs[r.value].id == id &&
                        forall j :: 0 <= j < r.value ==> rs[j].id != id
    ensures r.None? ==> forall j :: 0 <= j < |rs| ==> rs[j].id != id
  {
    if rs == [] then None
    else if rs[0].id == id then Some(0)
    else match FirstIndexOfId(rs[1..], id)
      case None => None
      case Some(k) => Some(k + 1)
  }

  /** The collection `saveRecord` writes: replace the first record with the same id, or append. */
  function Upsert(rs: seq<AlcoholRecord>, record: AlcoholRecord): seq<AlcoholRecord> {
    match FirstIndexOfId(rs, record.id)
    case Some(i) => rs[i := record]
    case None => rs + [record]
  }

  /** Keeps the records whose id differs from `id`. */
  function IdIsNot(id: string): AlcoholRecord -> bool {
    (r: AlcoholRecord) => r.id != id
  }

  /** The collection `deleteRecord` writes: `records.filter(r => r.id !== id)`. */
  function RemoveId(rs: seq<AlcoholRecord>, id: string): (r: seq<AlcoholRecord>)
    ensures forall x :: x in r <==> x in rs && x.id != id
  {
    Filter(rs, IdIsNot(id))
  }

  predicate UniqueIds(rs: seq<AlcoholRecord>) {
    forall i, j :: 0 <= i < j < |rs| ==> rs[i].id != rs[j].id
  }

  /** An existing id: the first record with it is replaced in place; nothing else moves. */
  lemma UpsertExisting(rs: seq<AlcoholRecord>, record: AlcoholRecord, i: nat)
    requires i < |rs| && rs[i].id == record.id
    requires forall j :: 0 <= j < i ==> rs[j].id != record.id
    ensures |Upsert(rs, record)| == |rs|
    ensures Upsert(rs, record)[i] == record
    ensures forall j :: 0 <= j < |rs| && j != i ==> Upsert(rs, record)[j] == rs[j]
  {
    var k := FirstIndexOfId(rs, record.id);
    assert k == Some(i);
  }

  /** A new id: the record is appended, the collection grows by exactly one. */
  lemma UpsertNew(rs: seq<AlcoholRecord>, record: AlcoholRecord)
    requires forall j :: 0 <= j < |rs| ==> rs[j].id != record.id
    ensures Upsert(rs, record) == rs + [record]
    ensures |Upsert(rs, record)| == |rs| + 1
  {
    assert FirstIndexOfId(rs, record.id) == None;
  }

  /** After an upsert the collection holds the record, and exactly one record has its id if ids were unique. */
  lemma UpsertContains(rs: seq<AlcoholRecord>, record: AlcoholRecord)
    ensures record in Upsert(rs, record)
    ensures UniqueIds(rs) ==> UniqueIds(Upsert(rs, record))
  {
    var u := Upsert(rs, record);
    match FirstIndexOfId(rs, record.id)
    case Some(i) =>
      assert u[i] == record;
      if UniqueIds(rs) {
        forall a, b | 0 <= a < b < |u| ensures u[a].id != u[b].id {
          if a != i && b != i {
            assert u[a] == rs[a] && u[b] == rs[b];
          } else if a == i {
            assert u[b] == rs[b] && rs[i].id == record.id;
          } else {
            assert u[a] == rs[a] && rs[i].id == record.id;
          }
        }
      }
    case None =>
      assert u[|rs|] == record;
  }

  /** Saving the same record twice leaves the collection as saving it once. */
  lemma UpsertIdempotent(rs: seq<AlcoholRecord>, record: AlcoholRecord)
    ensures Upsert(Upsert(rs, record), record) == Upsert(rs, record)
  {
    var u := Upsert(rs, record);
    match FirstIndexOfId(rs, record.id)
    case Some(i) =>
      UpsertExisting(rs, record, i);
      UpsertExisting(u, record, i);
      assert Upsert(u, record) == u;
    case None =>
      UpsertNew(rs, record);
      UpsertExisting(u, record, |rs|);
      assert Upsert(u, record) == u;
  }

  /** Deleting keeps the other records in their original order, and removes every record with the id. */
  lemma RemoveIdSpec(rs: seq<AlcoholRecord>, id: string)
    ensures IsSubsequence(RemoveId(rs, id), rs)
    ensures forall j :: 0 <= j < |RemoveId(rs, id)| ==> RemoveId(rs, id)[j].id != id
    ensures (forall j :: 0 <= j < |rs| ==> rs[j].id != id) ==> RemoveId(rs, id) == rs
    ensures UniqueIds(rs) ==> UniqueIds(RemoveId(rs, id))
  {
    FilterIsSubsequence(rs, IdIsNot(id));
    if forall j :: 0 <= j < |rs| ==> rs[j].id != id {
      FilterAll(rs, IdIsNot(id));
    }
    if UniqueIds(rs) {
      RemovePreservesUnique(rs, id);
    }
  }

  lemma {:induction false} RemovePreservesUnique(rs: seq<AlcoholRecord>, id: string)
    requires UniqueIds(rs)
    ensures UniqueIds(RemoveId(rs, id))
    decreases |rs|
  {
    if rs != [] {
      RemovePreservesUnique(rs[1..], id);
      var tail := RemoveId(rs[1..], id);
      assert forall x :: x in tail ==> x in rs[1..];
      if rs[0].id != id {
        assert RemoveId(rs, id) == [rs[0]] + tail;
        forall j | 0 <= j < |tail| ensures tail[j].id != rs[0].id {
          assert tail[j] in rs[1..];
        }
      } else {
        assert RemoveId(rs, id) == tail;
      }
    }
  }

  /** Storing settings and reading them back returns the same settings. */
  lemma SettingsRoundTrip(kv: KeyValueState, s: UserSettings)
    ensures SettingsIn(kv[SettingsKey := SettingsValue(s)], false) == s
  {
  }

  class StorageService {
    var kv: KeyValueState

    constructor(initial: KeyValueState)
      ensures kv == initial
    {
      kv := initial;
    }

    /** `getAllRecords()`. */
    function GetAllRecords(readFails: bool): seq<AlcoholRecord>
      reads this
    {
      RecordsIn(kv, readFails)
    }

    /** `getSettings()`. */
    function GetSettings(readFails: bool): UserSettings
      reads this
    {
      SettingsIn(kv, readFails)
    }

    /** `findIndex(r => r.id === id)`: the first index with that id, or -1. */
    static method FindIndex(rs: seq<AlcoholRecord>, id: string) returns (index: int)
      ensures -1 <= index < |rs|
      ensures index >= 0 ==> rs[index].id == id && FirstIndexOfId(rs, id) == Some(index)
      ensures index == -1 <==> FirstIndexOfId(rs, id).None?
    {
      index := 0;
      while index < |rs|
        invariant 0 <= index <= |rs|
        invariant forall j :: 0 <= j < index ==> rs[j].id != id
      {
        if rs[index].id == id {
          return;
        }
        index := index + 1;
      }
      index := -1;
    }

    /**
     * `saveRecord(record)`: read the collection (an unreadable one reads as
     * []), update the array in place or push, and write the whole array back.
     * A failing write is rethrown (`ok` is false) and the store is unchanged.
     */
    method SaveRecord(record: AlcoholRecord, readFails: bool, writeOk: bool) returns (ok: bool)
      modifies this
      ensures ok == writeOk
      ensures ok ==> kv == old(kv)[RecordsKey := RecordsValue(Upsert(old(GetAllRecords(readFails)), record))]
      ensures !ok ==> kv == old(kv)
    {
      var records := GetAllRecords(readFails);
      var existingIndex := FindIndex(records, record.id);
      if existingIndex >= 0 {
        records := records[existingIndex := record];
      } else {
        records := records + [record];
      }
      if !writeOk {
        return false;
      }
      kv := kv[RecordsKey := RecordsValue(records)];
      ok := true;
    }

    /** `deleteRecord(id)`: write back the collection without the records with that id. */
    method DeleteRecord(id: string, readFails: bool, writeOk: bool) returns (ok: bool)
      modifies this
      ensures ok == writeOk
      ensures ok ==> kv == old(kv)[RecordsKey := RecordsValue(RemoveId(old(GetAllRecords(readFails)), id))]
      ensures !ok ==> kv == old(kv)
    {
      var filteredRecords := RemoveId(GetAllRecords(readFails), id);
      if !writeOk {
        return false;
      }
      kv := kv[RecordsKey := RecordsValue(filteredRecords)];
      ok := true;
    }

    /** `saveSettings(settings)`: a successful write is read back unchanged. */
    method SaveSettings(settings: UserSettings, writeOk: bool) returns (ok: bool)
      modifies this
      ensures ok == writeOk
      ensures ok ==> kv == old(kv)[SettingsKey := SettingsValue(settings)]
      ensures ok ==> GetSettings(false) == settings
      ensures !ok ==> kv == old(kv)
    {
      if !writeOk {
        return false;
      }
      kv := kv[SettingsKey := SettingsValue(settings)];
      ok := true;
    }
  }
}
