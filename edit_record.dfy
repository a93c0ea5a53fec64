/**
 * `EditRecordScreen`: the form state seeded from the record being edited,
 * `handleSave` (validate, merge the form over the original record, save) and
 * `performDelete`. The `new Date()` for `updatedAt` and the storage outcomes
 * are parameters; the returned flags say whether `onSave`/`onDelete` ran.
 */
module EditRecord {
  import opened Prelude
  import opened Types
  import opened Text
  import opened RecordSchema
  import opened RecordForm
  import opened Storage

  class EditRecordScreen {
    const record: AlcoholRecord
    var date: Moment
    var category: Category
    var name: string
    var rating: Rating
    var store: string
    var memo: string
    var errors: map<Field, Message>

    /** The form starts from the record; an absent store or memo is shown as "". */
    constructor(record: AlcoholRecord)
      ensures this.record == record
      ensures date == record.date && category == record.category && name == record.name
      ensures rating == record.rating
      ensures store == OrEmpty(record.store) && memo == OrEmpty(record.memo)
      ensures errors == map[]
    {
      this.record := record;
      date := record.date;
      category := record.category;
      name := record.name;
      rating := record.rating;
      store := OrEmpty(record.store);
      memo := OrEmpty(record.memo);
      errors := map[];
    }

    function Input(): RecordInput
      reads this
    {
      FormData(date, category, name, rating, store, memo)
    }

    /**
     * `updatedRecord`: `{ ...record, <form fields>, updatedAt }`. Every field
     * the form does not edit (id, photo, createdAt) is the original's.
     */
    function UpdatedRecord(updatedAt: Moment): (r: AlcoholRecord)
      reads this
      ensures r.id == record.id && r.photo == record.photo && r.createdAt == record.createdAt
      ensures r.updatedAt == updatedAt
      ensures r.date == date && r.category == category && r.rating == rating
      ensures r.name == Trim(name) && r.store == OptionalText(store) && r.memo == OptionalText(memo)
      ensures Normalised(r)
      ensures ValidateRecord(Input()).Success? ==> WellFormed(r)
    {
      TrimIdempotent(name);
      OptionalTextIsNormal(store);
      OptionalTextIsNormal(memo);
      record.(date := date, category := category, name := Trim(name), rating := rating,
              store := OptionalText(store), memo := OptionalText(memo), updatedAt := updatedAt)
    }

    /**
     * `handleSave`: on failed validation fill the error map and save nothing;
     * otherwise clear the errors and save the merged record, calling `onSave`
     * only if the write succeeded.
     */
    method HandleSave(storage: StorageService, updatedAt: Moment, readFails: bool, writeOk: bool)
      returns (onSaveCalled: bool)
      modifies this`errors, storage
      ensures date == old(date) && category == old(category) && name == old(name)
      ensures rating == old(rating) && store == old(store) && memo == old(memo)
      ensures ValidateRecord(Input()).Failure? ==>
        errors == ErrorMap(ValidateRecord(Input()).issues) &&
        storage.kv == old(storage.kv) && !onSaveCalled
      ensures ValidateRecord(Input()).Success? ==>
        errors == map[] && onSaveCalled == writeOk &&
        (writeOk ==> storage.kv == old(storage.kv)[RecordsKey := RecordsValue(
            Upsert(old(storage.GetAllRecords(readFails)), UpdatedRecord(updatedAt)))]) &&
        (!writeOk ==> storage.kv == old(storage.kv))
    {
      var validation := ValidateRecord(Input());
      if validation.Failure? {
        var newErrors := ErrorsByField(validation.issues);
        errors := newErrors;
        return false;
      }
      errors := map[];
      var updatedRecord := UpdatedRecord(updatedAt);
      var ok := storage.SaveRecord(updatedRecord, readFails, writeOk);
      onSaveCalled := ok;
    }

    /** `performDelete`: delete exactly `record.id`; `onDelete` runs only if the write succeeded. */
    method PerformDelete(storage: StorageService, readFails: bool, writeOk: bool)
      returns (onDeleteCalled: bool)
      modifies storage
      ensures onDeleteCalled == writeOk
      ensures writeOk ==> storage.kv == old(storage.kv)[RecordsKey := RecordsValue(
                RemoveId(old(storage.GetAllRecords(readFails)), record.id))]
      ensures !writeOk ==> storage.kv == old(storage.kv)
    {
      onDeleteCalled := storage.DeleteRecord(record.id, readFails, writeOk);
    }
  }

  /**
   * Opening a normalised record in the editor and saving without touching the
   * form gives back the same record, except for `updatedAt`.
   */
  lemma UntouchedEditKeepsRecord(screen: EditRecordScreen, updatedAt: Moment)
    requires Normalised(screen.record)
    requires screen.date == screen.record.date && screen.category == screen.record.category
    requires screen.name == screen.record.name && screen.rating == screen.record.rating
    requires screen.store == OrEmpty(screen.record.store) && screen.memo == OrEmpty(screen.record.memo)
    ensures screen.UpdatedRecord(updatedAt) == screen.record.(updatedAt := updatedAt)
  {
    OptionalTextOfNormal(screen.record.store);
    OptionalTextOfNormal(screen.record.memo);
  }
}
