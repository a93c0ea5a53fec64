/**
 * `AddRecordScreen`: the form state and `handleSave`. The clock readings
 * (`Date.now()` for the id, two `new Date()` for the timestamps) are
 * parameters, as are the storage read and write outcomes; the value of
 * `onSaveCalled` says whether the `onSave` callback ran.
 */
module AddRecord {
  import opened Prelude
  import opened Types
  import opened Text
  import opened RecordSchema
  import opened RecordForm
  import opened Storage

  class AddRecordScreen {
    var date: Moment
    var category: Category
    var name: string
    var rating: Rating
    var store: string
    var memo: string
    var errors: map<Field, Message>

    /** The initial form: today's date, beer, rating 3, empty texts, no errors. */
    constructor(now: Moment)
      ensures date == now && category == Beer && rating == 3
      ensures name == "" && store == "" && memo == ""
      ensures errors == map[]
    {
      date := now;
      category := Beer;
      name := "";
      rating := 3;
      store := "";
      memo := "";
      errors := map[];
    }

    function Input(): RecordInput
      reads this
    {
      FormData(date, category, name, rating, store, memo)
    }

    /** The `newRecord` built on success: trimmed, empty store/memo absent, no photo. */
    function NewRecord(clockMillis: nat, createdAt: Moment, updatedAt: Moment): (r: AlcoholRecord)
      reads this
      ensures r.id == DecimalString(clockMillis)
      ensures r.date == date && r.category == category && r.rating == rating
      ensures r.name == Trim(name) && r.store == OptionalText(store) && r.memo == OptionalText(memo)
      ensures r.photo == None && r.createdAt == createdAt && r.updatedAt == updatedAt
      ensures Normalised(r)
      ensures ValidateRecord(Input()).Success? ==> WellFormed(r)
    {
      TrimIdempotent(name);
      OptionalTextIsNormal(store);
      OptionalTextIsNormal(memo);
      AlcoholRecord(DecimalString(clockMillis), date, category, Trim(name), rating,
                    OptionalText(store), None, OptionalText(memo), createdAt, updatedAt)
    }

    /**
     * `handleSave`: validate the normalised form data; on failure fill the
     * error map and save nothing; on success clear the errors, save the new
     * record, and call `onSave` only if the write succeeded.
     */
    method HandleSave(storage: StorageService, clockMillis: nat, createdAt: Moment, updatedAt: Moment,
                      readFails: bool, writeOk: bool) returns (onSaveCalled: bool)
      modifies this`errors, storage
      ensures date == old(date) && category == old(category) && name == old(name)
      ensures rating == old(rating) && store == old(store) && memo == old(memo)
      ensures ValidateRecord(Input()).Failure? ==>
        errors == ErrorMap(ValidateRecord(Input()).issues) &&
        storage.kv == old(storage.kv) && !onSaveCalled
      ensures ValidateRecord(Input()).Success? ==>
        errors == map[] && onSaveCalled == writeOk &&
        (writeOk ==> storage.kv == old(storage.kv)[RecordsKey := RecordsValue(
            Upsert(old(storage.GetAllRecords(readFails)), NewRecord(clockMillis, createdAt, updatedAt)))]) &&
        (!writeOk ==> storage.kv == old(storage.kv))
    {
      var validation := ValidateRecord(Input());
      if validation.Failure? {
        var newErrors := ErrorsByField(validation.issues);
        errors := newErrors;
        return false;
      }
      errors := map[];
      var newRecord := NewRecord(clockMillis, createdAt, updatedAt);
      var ok := storage.SaveRecord(newRecord, readFails, writeOk);
      onSaveCalled := ok;
    }
  }
}
