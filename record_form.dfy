/**
 * What the add and edit screens share: building the form data from the
 * form's text fields (trim everything, turn an empty store or memo into
 * `undefined`), and turning validation issues into the per-field error map
 * the form displays.
 */
module RecordForm {
  import opened Prelude
  import opened Types
  import opened Text
  import opened RecordSchema

  /** `s.trim() || undefined`: absent when nothing but whitespace was typed, otherwise trimmed. */
  function OptionalText(s: string): (r: Option<string>)
    ensures r.None? <==> AllWhitespace(s)
    ensures r.Some? ==> r.value == Trim(s) && r.value != ""
  {
    TrimEmpty(s);
    if Trim(s) == "" then None else Some(Trim(s))
  }

  /** `record.store || ''`: how an optional text is shown in an input field. */
  function OrEmpty(o: Option<string>): string {
    if o.Some? then o.value else ""
  }

  /** The `formData` object both screens validate. */
  function FormData(date: Moment, category: Category, name: string, rating: Rating,
                    store: string, memo: string): (x: RecordInput)
    ensures x.date == Some(date) && x.category == Some(category) && x.rating == Some(rating as int)
    ensures x.name == Some(Trim(name))
    ensures x.store == OptionalText(store) && x.memo == OptionalText(memo)
  {
    RecordInput(Some(date), Some(category), Some(Trim(name)), Some(rating as int),
                OptionalText(store), OptionalText(memo))
  }

  /** An optional text as the forms store it: absent, or trimmed and non-empty. */
  predicate NormalText(o: Option<string>) {
    o.None? || (o.value != "" && Trim(o.value) == o.value)
  }

  /** A record whose text fields are in the form the screens save them in. */
  predicate Normalised(r: AlcoholRecord) {
    Trim(r.name) == r.name && NormalText(r.store) && NormalText(r.memo)
  }

  /** The schema's view of a stored record. */
  function AsInput(r: AlcoholRecord): RecordInput {
    RecordInput(Some(r.date), Some(r.category), Some(r.name), Some(r.rating as int), r.store, r.memo)
  }

  /** A record that satisfies every rule of the schema. */
  predicate WellFormed(r: AlcoholRecord) {
    AllFieldsOk(AsInput(r))
  }

  /** Normalising is a no-op on normalised text: showing it in a field and saving again restores it. */
  lemma OptionalTextOfNormal(o: Option<string>)
    requires NormalText(o)
    ensures OptionalText(OrEmpty(o)) == o
  {
    if o.Some? {
      TrimEmpty(o.value);
    } else {
      TrimEmpty("");
    }
  }

  /** What the forms save is always normalised. */
  lemma OptionalTextIsNormal(s: string)
    ensures NormalText(OptionalText(s))
  {
    TrimIdempotent(s);
  }

  /** The error map: for each issue in order, `errors[issue.field] = issue.message`. */
  function ErrorMap(issues: seq<Issue>): map<Field, Message>
  {
    if issues == [] then map[]
    else ErrorMap(issues[..|issues| - 1])[issues[|issues| - 1].field := issues[|issues| - 1].message]
  }

  /** The message of the last issue about `f`, if any. */
  function LastMessageFor(issues: seq<Issue>, f: Field): Option<Message>
  {
    if issues == [] then None
    else if issues[|issues| - 1].field == f then Some(issues[|issues| - 1].message)
    else LastMessageFor(issues[..|issues| - 1], f)
  }

  /** A field has an entry exactly when some issue names it, and the last such issue's message wins. */
  lemma {:induction false} ErrorMapSpec(issues: seq<Issue>, f: Field)
    ensures f in ErrorMap(issues) <==> LastMessageFor(issues, f).Some?
    ensures f in ErrorMap(issues) ==> ErrorMap(issues)[f] == LastMessageFor(issues, f).value
    ensures LastMessageFor(issues, f).Some? <==> exists i :: 0 <= i < |issues| && issues[i].field == f
    decreases |issues|
  {
    if issues != [] {
      var init := issues[..|issues| - 1];
      ErrorMapSpec(init, f);
      if exists i :: 0 <= i < |issues| && issues[i].field == f {
        var i :| 0 <= i < |issues| && issues[i].field == f;
        if i < |issues| - 1 {
          assert init[i].field == f;
        }
      }
      if exists i :: 0 <= i < |init| && init[i].field == f {
        var i :| 0 <= i < |init| && init[i].field == f;
        assert issues[i].field == f;
      }
    }
  }

  /**
   * The `forEach` that fills `newErrors`: one entry per first path element of
   * an issue (every issue of this schema has a path).
   */
  method ErrorsByField(issues: seq<Issue>) returns (newErrors: map<Field, Message>)
    ensures newErrors == ErrorMap(issues)
    ensures forall f :: f in newErrors <==> exists i :: 0 <= i < |issues| && issues[i].field == f
  {
    newErrors := map[];
    for k := 0 to |issues|
      invariant newErrors == ErrorMap(issues[..k])
    {
      assert issues[..k + 1][..k] == issues[..k];
      newErrors := newErrors[issues[k].field := issues[k].message];
    }
    assert issues[..|issues|] == issues;
    forall f: Field ensures f in newErrors <==> exists i :: 0 <= i < |issues| && issues[i].field == f {
      ErrorMapSpec(issues, f);
    }
  }

  /** After a failed validation the error map has an entry exactly for each field whose rule fails. */
  lemma ErrorsOfValidation(x: RecordInput, f: Field)
    requires ValidateRecord(x).Failure?
    ensures f in ErrorMap(ValidateRecord(x).issues) <==> !FieldOk(x, f)
  {
    ErrorMapSpec(Issues(x), f);
    IssueFields(x, f);
  }
}
