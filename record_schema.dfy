/**
 * The zod schema that record form data must satisfy (`recordSchema`) and
 * `validateRecord`, which is `recordSchema.safeParse`. The input is the form
 * data object; a field the object lacks is `None`. The schema only checks:
 * it performs no trimming and returns the data unchanged on success.
 */
module RecordSchema {
  import opened Prelude
  import opened Types
  import opened Text

  /** The object's keys, in the order the schema declares them. */
  datatype Field = DateField | CategoryField | NameField | RatingField | StoreField | MemoField

  /** The messages the schema attaches to each rule. */
  datatype Message =
    | DateRequired        // date missing
    | CategoryRequired    // category missing
    | NameRequired        // name missing, or shorter than 1 (both use the same text)
    | NameTooLong         // name longer than 100
    | RatingRequired      // rating missing
    | RatingTooLow        // rating below 1
    | RatingTooHigh       // rating above 5
    | StoreTooLong        // store longer than 100
    | MemoTooLong         // memo longer than 500

  /** A zod issue: the path's first element and the message. */
  datatype Issue = Issue(field: Field, message: Message)

  /** The form data object handed to `validateRecord`. */
  datatype RecordInput = RecordInput(
    date: Option<Moment>,
    category: Option<Category>,
    name: Option<string>,
    rating: Option<int>,
    store: Option<string>,
    memo: Option<string>)

  /** `safeParse`'s result: the parsed data, or the list of issues. */
  datatype ParseResult = Success(data: RecordInput) | Failure(issues: seq<Issue>)

  const NameMaxLength := 100
  const StoreMaxLength := 100
  const MemoMaxLength := 500

  /** Each field's rule, stated on its own. */
  predicate FieldOk(x: RecordInput, f: Field) {
    match f
    case DateField => x.date.Some?
    case CategoryField => x.category.Some?
    case NameField => x.name.Some? && 1 <= Utf16Length(x.name.value) <= NameMaxLength
    case RatingField => x.rating.Some? && 1 <= x.rating.value <= 5
    case StoreField => x.store.None? || Utf16Length(x.store.value) <= StoreMaxLength
    case MemoField => x.memo.None? || Utf16Length(x.memo.value) <= MemoMaxLength
  }

  predicate AllFieldsOk(x: RecordInput) {
    forall f: Field :: FieldOk(x, f)
  }

  /** The issues zod reports for one field (at most one: `min` and `max` cannot both fail). */
  function FieldIssues(x: RecordInput, f: Field): seq<Issue> {
    match f
    case DateField =>
      if x.date.None? then [Issue(f, DateRequired)] else []
    case CategoryField =>
      if x.category.None? then [Issue(f, CategoryRequired)] else []
    case NameField =>
      if x.name.None? then [Issue(f, NameRequired)]
      else if Utf16Length(x.name.value) < 1 then [Issue(f, NameRequired)]
      else if Utf16Length(x.name.value) > NameMaxLength then [Issue(f, NameTooLong)]
      else []
    case RatingField =>
      if x.rating.None? then [Issue(f, RatingRequired)]
      else if x.rating.value < 1 then [Issue(f, RatingTooLow)]
      else if x.rating.value > 5 then [Issue(f, RatingTooHigh)]
      else []
    case StoreField =>
      if x.store.Some? && Utf16Length(x.store.value) > StoreMaxLength then [Issue(f, StoreTooLong)] else []
    case MemoField =>
      if x.memo.Some? && Utf16Length(x.memo.value) > MemoMaxLength then [Issue(f, MemoTooLong)] else []
  }

  /** All issues, field by field in declaration order: zod collects every violation. */
  function Issues(x: RecordInput): seq<Issue> {
    FieldIssues(x, DateField) + FieldIssues(x, CategoryField) + FieldIssues(x, NameField) +
    FieldIssues(x, RatingField) + FieldIssues(x, StoreField) + FieldIssues(x, MemoField)
  }

  /** `validateRecord(data)`. */
  function ValidateRecord(x: RecordInput): (r: ParseResult)
    ensures r.Success? ==> r.data == x
    ensures r.Failure? ==> |r.issues| > 0
  {
    var issues := Issues(x);
    if issues == [] then Success(x) else Failure(issues)
  }

  lemma FieldIssuesEmpty(x: RecordInput, f: Field)
    ensures FieldIssues(x, f) == [] <==> FieldOk(x, f)
    ensures forall i :: 0 <= i < |FieldIssues(x, f)| ==> FieldIssues(x, f)[i].field == f
  {
  }

  /** Validation succeeds exactly when every field rule holds. */
  lemma ValidateIff(x: RecordInput)
    ensures ValidateRecord(x).Success? <==> AllFieldsOk(x)
  {
    forall f: Field ensures FieldIssues(x, f) == [] <==> FieldOk(x, f) {
      FieldIssuesEmpty(x, f);
    }
    if AllFieldsOk(x) {
      assert FieldOk(x, DateField) && FieldOk(x, CategoryField) && FieldOk(x, NameField);
      assert FieldOk(x, RatingField) && FieldOk(x, StoreField) && FieldOk(x, MemoField);
    } else {
      var f: Field :| !FieldOk(x, f);
      assert FieldIssues(x, f) != [];
    }
  }

  /** The fields the issues name are exactly the fields whose rule fails. */
  lemma IssueFields(x: RecordInput, f: Field)
    ensures (exists i :: 0 <= i < |Issues(x)| && Issues(x)[i].field == f) <==> !FieldOk(x, f)
  {
    forall g: Field ensures FieldIssues(x, g) == [] <==> FieldOk(x, g) {
      FieldIssuesEmpty(x, g);
    }
    var parts := [FieldIssues(x, DateField), FieldIssues(x, CategoryField), FieldIssues(x, NameField),
                  FieldIssues(x, RatingField), FieldIssues(x, StoreField), FieldIssues(x, MemoField)];
    assert Issues(x) == parts[0] + parts[1] + parts[2] + parts[3] + parts[4] + parts[5];
    forall i | 0 <= i < |Issues(x)| ensures Issues(x)[i] in FieldIssues(x, Issues(x)[i].field) {
      var g := Issues(x)[i].field;
      FieldIssuesEmpty(x, g);
    }
    if !FieldOk(x, f) {
      var k := match f
        case DateField => 0 case CategoryField => 1 case NameField => 2
        case RatingField => 3 case StoreField => 4 case MemoField => 5;
      assert parts[k] == FieldIssues(x, f) != [];
      assert parts[k][0].field == f by { FieldIssuesEmpty(x, f); }
      assert parts[k][0] in Issues(x);
    }
  }

  /** An input that breaks exactly one rule is rejected with issues naming that field only. */
  lemma SingleViolation(x: RecordInput, f: Field)
    requires !FieldOk(x, f)
    requires forall g: Field :: g != f ==> FieldOk(x, g)
    ensures ValidateRecord(x).Failure?
    ensures forall i :: 0 <= i < |ValidateRecord(x).issues| ==> ValidateRecord(x).issues[i].field == f
  {
    ValidateIff(x);
    forall i | 0 <= i < |Issues(x)| ensures Issues(x)[i].field == f {
      IssueFields(x, Issues(x)[i].field);
    }
  }
}
