/** The yup schema `changeLessonSchema` (src/utils/validation.ts): an object whose four
    string fields `time`, `lesson`, `teacher` and `type` are each `required()`.
    For a yup string, `required()` rejects a missing value (undefined or null) and
    the empty string; any other string, blanks included, passes. */
module Validation {
  import opened JsArray

  /** The four fields of the schema. */
  datatype Field = Time | Lesson | Teacher | Type

  /** The values handed to the schema; `None` is a missing value. */
  datatype LessonInput = LessonInput(
    time: Option<string>, lesson: Option<string>, teacher: Option<string>, lessonType: Option<string>)

  /** The values of a form that passed the schema: all four are strings. */
  datatype LessonForm = LessonForm(time: string, lesson: string, teacher: string, lessonType: string)

  /** The outcome of validation: the validated values, or the set of fields that failed. */
  datatype Result<+R, +E> = Ok(value: R) | Err(error: E)

  /** The value the schema reads for field `f`. */
  function Value(i: LessonInput, f: Field): Option<string>
  {
    match f
    case Time => i.time
    case Lesson => i.lesson
    case Teacher => i.teacher
    case Type => i.lessonType
  }

  /** `i` with field `f` set to `v`, every other field kept. */
  function With(i: LessonInput, f: Field, v: Option<string>): (j: LessonInput)
    ensures Value(j, f) == v
    ensures forall g :: g != f ==> Value(j, g) == Value(i, g)
  {
    match f
    case Time => i.(time := v)
    case Lesson => i.(lesson := v)
    case Teacher => i.(teacher := v)
    case Type => i.(lessonType := v)
  }

  /** `yup.string().required()`: present and not the empty string. */
  predicate Required(v: Option<string>)
  {
    v.Some? && |v.value| > 0
  }

  /** The fields whose `required()` test fails; each field is tested on its own. */
  function Errors(i: LessonInput): (errs: set<Field>)
    ensures forall f :: f in errs <==> !Required(Value(i, f))
  {
    (if Required(i.time) then {} else {Time})
    + (if Required(i.lesson) then {} else {Lesson})
    + (if Required(i.teacher) then {} else {Teacher})
    + (if Required(i.lessonType) then {} else {Type})
  }

  /** Form values as the schema sees them: every field present. */
  function ToInput(v: LessonForm): LessonInput
  {
    LessonInput(Some(v.time), Some(v.lesson), Some(v.teacher), Some(v.lessonType))
  }

  /** `changeLessonSchema.validate(i, {abortEarly: false})`: the values when every
      field passes, otherwise every failing field at once. */
  function Validate(i: LessonInput): (r: Result<LessonForm, set<Field>>)
    ensures r.Ok? <==> forall f :: Required(Value(i, f))
    ensures r.Ok? ==> ToInput(r.value) == i
    ensures r.Err? ==> r.error != {} && forall f :: f in r.error <==> !Required(Value(i, f))
  {
    var errs := Errors(i);
    if errs == {} then
      Ok(LessonForm(i.time.value, i.lesson.value, i.teacher.value, i.lessonType.value))
    else
      var f :| f in errs;
      assert !Required(Value(i, f));
      Err(errs)
  }

  /** There are no cross-field rules: changing one field changes whether that field
      fails and nothing about any other field's error. */
  lemma FieldsAreIndependent(i: LessonInput, f: Field, v: Option<string>)
    ensures Errors(With(i, f, v)) == (Errors(i) - {f}) + (if Required(v) then {} else {f})
  {
  }

  /** A form value passes exactly when its four strings are non-empty. */
  lemma FormValidIff(v: LessonForm)
    ensures Validate(ToInput(v)).Ok? <==>
      |v.time| > 0 && |v.lesson| > 0 && |v.teacher| > 0 && |v.lessonType| > 0
    ensures Validate(ToInput(v)).Ok? ==> Validate(ToInput(v)).value == v
  {
  }
}
