/** The add-lesson dialog of a day's schedule (`AddDayLessonModal`): its form, its
    error and success flags, whether it is open, and the `addDayLesson` requests it
    has sent. The requests are recorded in `sent`, in order; their responses are
    never read by the dialog. */
module ChangeDaySchedule {
  import opened JsArray
  import opened Validation
  import opened Schedules

  /** The choices of the time select. */
  const TimeOptions: seq<string> := ["08:00", "09:50", "11:40", "13:30"]

  /** The choices of the lesson type select. */
  const LessonTypeOptions: seq<string> := ["Лекція", "Практика", "Лабораторна"]

  /** `useForm`'s `defaultValues`, to which `reset()` returns the form. */
  const DefaultValues: LessonForm := LessonForm("08:00", "", "", "Лекція")

  /** The body of an `addDayLesson` request. */
  datatype Payload = Payload(
    id: string, group: int, time: string, teacher: string, lesson: string, lessonType: string, date: string)

  /** The dialog's state: form values, the schema's per-field errors, whether the
      form has been submitted since its last reset, the two snackbar flags, `isOpen`,
      and the requests sent so far. */
  datatype Modal = Modal(
    form: LessonForm, fieldErrors: set<Field>, isSubmitted: bool,
    error: bool, success: bool, isOpen: bool, sent: seq<Payload>)

  /** The form values with field `f` set to `v`. */
  function WithValue(form: LessonForm, f: Field, v: string): (r: LessonForm)
    ensures ToInput(r) == With(ToInput(form), f, Some(v))
  {
    match f
    case Time => form.(time := v)
    case Lesson => form.(lesson := v)
    case Teacher => form.(teacher := v)
    case Type => form.(lessonType := v)
  }

  /** The request built from the submitted values, the props and the selected date. */
  function LessonRequest(s: Schedule, group: int, val: LessonForm, date: Date, formatDate: Date -> string): Payload
  {
    Payload(s.id, group, val.time, val.teacher, val.lesson, val.lessonType, formatDate(date))
  }

  /** `reset()`: the default values, no field errors, and not submitted. */
  function Reset(m: Modal): (r: Modal)
    ensures r.form == DefaultValues && r.fieldErrors == {} && !r.isSubmitted
    ensures r.error == m.error && r.success == m.success && r.isOpen == m.isOpen && r.sent == m.sent
  {
    m.(form := DefaultValues, fieldErrors := {}, isSubmitted := false)
  }

  /** A controlled field reports a new value (`field.onChange`). Before the first
      submission nothing is validated; once the form has been submitted,
      react-hook-form's default `reValidateMode: 'onChange'` runs the resolver again
      and updates the error of the changed field alone. */
  function AfterChangeField(m: Modal, f: Field, v: string): (r: Modal)
    ensures Value(ToInput(r.form), f) == Some(v)
    ensures forall g :: g != f ==> Value(ToInput(r.form), g) == Value(ToInput(m.form), g)
    ensures r.fieldErrors ==
      if m.isSubmitted then (m.fieldErrors - {f}) + (if |v| > 0 then {} else {f}) else m.fieldErrors
    ensures r.isSubmitted == m.isSubmitted && r.error == m.error && r.success == m.success
    ensures r.isOpen == m.isOpen && r.sent == m.sent
  {
    var form := WithValue(m.form, f, v);
    if m.isSubmitted then
      var errs := Errors(ToInput(form));
      m.(form := form, fieldErrors := (m.fieldErrors - {f}) + (if f in errs then {f} else {}))
    else
      m.(form := form)
  }

  /** `onSubmit(val)`: on a duplicate only the error flag is raised; otherwise the
      success flag is raised, the error flag cleared, exactly one request sent, the
      form reset and the dialog closed. */
  function AfterSubmit(m: Modal, s: Schedule, group: int, val: LessonForm, date: Date, formatDate: Date -> string): (r: Modal)
    ensures r.error <==> IsDuplicate(s, val.time, group, date, formatDate)
    ensures r.error ==>
      r.sent == m.sent && r.form == m.form && r.fieldErrors == m.fieldErrors &&
      r.isSubmitted == m.isSubmitted && r.isOpen == m.isOpen && r.success == m.success
    ensures !r.error ==>
      r.success && !r.isOpen && r.form == DefaultValues && r.fieldErrors == {} && !r.isSubmitted &&
      |r.sent| == |m.sent| + 1 && r.sent[..|m.sent|] == m.sent &&
      r.sent[|m.sent|] == Payload(s.id, group, val.time, val.teacher, val.lesson, val.lessonType, formatDate(date))
  {
    if IsDuplicate(s, val.time, group, date, formatDate) then
      m.(error := true)
    else
      var m' := m.(success := true).(error := false).(sent := m.sent + [LessonRequest(s, group, val, date, formatDate)]);
      Reset(m').(isOpen := false)
  }

  /** `handleClose`: reset the form, then close; nothing is sent. */
  function AfterClose(m: Modal): (r: Modal)
    ensures r.form == DefaultValues && r.fieldErrors == {} && !r.isSubmitted && !r.isOpen
    ensures r.sent == m.sent && r.error == m.error && r.success == m.success
  {
    Reset(m).(isOpen := false)
  }

  /** The close icon: `setIsOpen(false)` alone, so the entered values stay. */
  function AfterCloseIcon(m: Modal): (r: Modal)
    ensures !r.isOpen && r.form == m.form && r.fieldErrors == m.fieldErrors && r.isSubmitted == m.isSubmitted
    ensures r.sent == m.sent && r.error == m.error && r.success == m.success
  {
    m.(isOpen := false)
  }

  /** `handleSubmit(onSubmit)` with the yup resolver: when a field fails, its errors
      are reported and `onSubmit` is not run; otherwise the errors are cleared and
      `onSubmit` runs on the validated values. Either way the form counts as
      submitted afterwards: react-hook-form marks it so once `onSubmit` has returned,
      after the `reset()` that `onSubmit` may have done. */
  function AfterHandleSubmit(m: Modal, s: Schedule, group: int, date: Date, formatDate: Date -> string): (r: Modal)
    ensures r.isSubmitted
    ensures Validate(ToInput(m.form)).Err? ==>
      r.fieldErrors == Errors(ToInput(m.form)) && r.fieldErrors != {} &&
      r.form == m.form && r.sent == m.sent && r.error == m.error && r.success == m.success && r.isOpen == m.isOpen
    ensures Validate(ToInput(m.form)).Ok? ==>
      r == AfterSubmit(m.(fieldErrors := {}), s, group, m.form, date, formatDate).(isSubmitted := true)
  {
    match Validate(ToInput(m.form))
    case Err(errs) => m.(fieldErrors := errs, isSubmitted := true)
    case Ok(val) => AfterSubmit(m.(fieldErrors := {}), s, group, val, date, formatDate).(isSubmitted := true)
  }

  /** Once the form has been submitted, editing keeps the reported errors equal to the
      schema's verdict on the current values, provided they were equal before (as
      they are right after a failed submission). */
  lemma RevalidationKeepsErrorsCurrent(m: Modal, f: Field, v: string)
    requires m.isSubmitted && m.fieldErrors == Errors(ToInput(m.form))
    ensures var r := AfterChangeField(m, f, v);
      r.fieldErrors == Errors(ToInput(r.form))
  {
    FieldsAreIndependent(ToInput(m.form), f, Some(v));
  }

  /** Scenario: submitting the untouched form shows errors on lesson and teacher;
      typing a lesson name then clears the lesson error and keeps the teacher one. */
  lemma ScenarioTypingClearsItsError(s: Schedule, group: int, date: Date, formatDate: Date -> string)
    ensures var m0 := Modal(DefaultValues, {}, false, false, false, true, []);
      var m1 := AfterHandleSubmit(m0, s, group, date, formatDate);
      m1.fieldErrors == {Lesson, Teacher} && AfterChangeField(m1, Lesson, "Math").fieldErrors == {Teacher}
  {
    DefaultFormFailsOnLessonAndTeacher();
  }

  /** Before any submission, editing never shows an error, whatever is typed. */
  lemma NoErrorsBeforeFirstSubmit(m: Modal, f: Field, v: string)
    requires !m.isSubmitted && m.fieldErrors == {}
    ensures AfterChangeField(m, f, v).fieldErrors == {}
  {
  }

  /** A submission sends a request only when every field is filled and the slot is
      free; it never sends more than one, and never alters the requests already sent. */
  lemma SubmitSendsOnlyValidFreshLessons(m: Modal, s: Schedule, group: int, date: Date, formatDate: Date -> string)
    ensures var r := AfterHandleSubmit(m, s, group, date, formatDate);
      |r.sent| <= |m.sent| + 1 && r.sent[..|m.sent|] == m.sent &&
      (|r.sent| == |m.sent| + 1 <==>
        |m.form.time| > 0 && |m.form.lesson| > 0 && |m.form.teacher| > 0 && |m.form.lessonType| > 0 &&
        !IsDuplicate(s, m.form.time, group, date, formatDate))
  {
  }

  /** A successful submission leaves the dialog exactly as closing it would. */
  lemma SubmitSuccessClosesLikeHandleClose(m: Modal, s: Schedule, group: int, val: LessonForm,
                                            date: Date, formatDate: Date -> string)
    requires !IsDuplicate(s, val.time, group, date, formatDate)
    ensures var r := AfterSubmit(m, s, group, val, date, formatDate);
      AfterClose(r) == r
  {
  }

  /** The dialog never refreshes the snapshot itself: while its parent passes the same
      one, submitting the same values again (after reopening and retyping them) passes
      the duplicate check again and sends a second, identical request. */
  lemma ResubmitAgainstStaleSnapshotSendsAgain(m: Modal, s: Schedule, group: int, val: LessonForm,
                                               date: Date, formatDate: Date -> string)
    requires !IsDuplicate(s, val.time, group, date, formatDate)
    ensures var r1 := AfterSubmit(m, s, group, val, date, formatDate);
      var r2 := AfterSubmit(r1, s, group, val, date, formatDate);
      |r2.sent| == |m.sent| + 2 && r2.sent[|m.sent|] == r2.sent[|m.sent| + 1]
  {
  }

  /** Even a snapshot refreshed to hold the sent lesson as an exception entry for the
      selected date does not refuse the same lesson again while no recurring entry
      holds its time and group. */
  lemma RefreshedExceptionAloneLetsLessonAgain(m: Modal, s: Schedule, group: int, val: LessonForm,
                                              date: Date, formatDate: Date -> string)
    requires forall i :: 0 <= i < |s.schedule| ==> !RecurringClash(s.schedule[i], val.time, group)
    ensures var refreshed := s.(exceptions := s.exceptions +
        [ExceptionEntry(date, val.time, group, val.teacher, val.lesson, val.lessonType)]);
      |AfterSubmit(m, refreshed, group, val, date, formatDate).sent| == |m.sent| + 1
  {
  }

  /** Closing is idempotent. */
  lemma CloseIsIdempotent(m: Modal)
    ensures AfterClose(AfterClose(m)) == AfterClose(m)
  {
  }

  /** The untouched form fails on exactly the lesson and teacher fields. */
  lemma DefaultFormFailsOnLessonAndTeacher()
    ensures Validate(ToInput(DefaultValues)) == Err({Lesson, Teacher})
  {
    assert Errors(ToInput(DefaultValues)) == {Lesson, Teacher};
  }

  /** Every choice of the two selects passes its field's `required()` test, so a form
      filled from the selects fails only on empty lesson or teacher text. */
  lemma SelectChoicesPass(time: string, lessonType: string, lesson: string, teacher: string)
    requires time in TimeOptions && lessonType in LessonTypeOptions
    ensures Errors(ToInput(LessonForm(time, lesson, teacher, lessonType))) ==
      (if |lesson| > 0 then {} else {Lesson}) + (if |teacher| > 0 then {} else {Teacher})
  {
  }

  /** Scenario: an empty lesson name is reported on the lesson field; the duplicate
      check is not reached, so neither flag moves, and nothing is sent. */
  lemma ScenarioEmptyLesson(m: Modal, s: Schedule, group: int, date: Date, formatDate: Date -> string)
    requires m.form == LessonForm("08:00", "", "Іваненко", "Лекція")
    ensures var r := AfterHandleSubmit(m, s, group, date, formatDate);
      r.fieldErrors == {Lesson} && r.isSubmitted && r.sent == m.sent && r.error == m.error && r.success == m.success &&
      r.form == m.form && r.isOpen == m.isOpen
  {
  }

  /** The dialog as a React component: props `schedule`, `group`, `day`, `week`, the
      lifted `isOpen` state, the react-hook-form state and the two `useState` flags. */
  class AddDayLessonModal {
    var schedule: Schedule
    var group: int
    var day: string
    var week: int
    var isOpen: bool
    var form: LessonForm
    var fieldErrors: set<Field>
    var isSubmitted: bool
    var error: bool
    var success: bool
    var sent: seq<Payload>

    /** The dialog's state as a value. */
    function State(): Modal
      reads this
    {
      Modal(form, fieldErrors, isSubmitted, error, success, isOpen, sent)
    }

    /** Mounting: the form holds its default values, unsubmitted, and both flags are false. */
    constructor (isOpen: bool, day: string, week: int, group: int, schedule: Schedule)
      ensures State() == Modal(DefaultValues, {}, false, false, false, isOpen, [])
      ensures this.schedule == schedule && this.group == group && this.day == day && this.week == week
    {
      this.schedule, this.group, this.day, this.week := schedule, group, day, week;
      this.isOpen := isOpen;
      form, fieldErrors, isSubmitted := DefaultValues, {}, false;
      error, success := false, false;
      sent := [];
    }

    /** A controlled field reports a new value (`field.onChange`). */
    method ChangeField(f: Field, v: string)
      modifies this
      ensures State() == AfterChangeField(old(State()), f, v)
      ensures schedule == old(schedule) && group == old(group) && day == old(day) && week == old(week)
    {
      form := WithValue(form, f, v);
      if isSubmitted {
        var errs := Errors(ToInput(form));
        fieldErrors := (fieldErrors - {f}) + (if f in errs then {f} else {});
      }
    }

    /** `reset()` of react-hook-form. */
    method ResetForm()
      modifies this
      ensures State() == Reset(old(State()))
      ensures schedule == old(schedule) && group == old(group) && day == old(day) && week == old(week)
    {
      form, fieldErrors, isSubmitted := DefaultValues, {}, false;
    }

    /** `onSubmit(val)`, with the store's selected `date` passed in. The props, the
        schedule snapshot among them, are left as they were. */
    method OnSubmit(val: LessonForm, date: Date, formatDate: Date -> string)
      modifies this
      ensures State() == AfterSubmit(old(State()), schedule, group, val, date, formatDate)
      ensures schedule == old(schedule) && group == old(group) && day == old(day) && week == old(week)
    {
      if IsDuplicate(schedule, val.time, group, date, formatDate) {
        error := true;
      } else {
        success := true;
        error := false;
        sent := sent + [LessonRequest(schedule, group, val, date, formatDate)];
        ResetForm();
        isOpen := false;
      }
    }

    /** `handleClose`: the dialog's `onClose`. */
    method HandleClose()
      modifies this
      ensures State() == AfterClose(old(State()))
      ensures schedule == old(schedule) && group == old(group) && day == old(day) && week == old(week)
    {
      ResetForm();
      isOpen := false;
    }

    /** The close icon's `onClick`. */
    method CloseIcon()
      modifies this
      ensures State() == AfterCloseIcon(old(State()))
      ensures schedule == old(schedule) && group == old(group) && day == old(day) && week == old(week)
    {
      isOpen := false;
    }

    /** The form's `onSubmit`: `handleSubmit(onSubmit)` with the yup resolver. */
    method HandleSubmit(date: Date, formatDate: Date -> string)
      modifies this
      ensures State() == AfterHandleSubmit(old(State()), schedule, group, date, formatDate)
      ensures schedule == old(schedule) && group == old(group) && day == old(day) && week == old(week)
    {
      match Validate(ToInput(form)) {
        case Err(errs) =>
          fieldErrors := errs;
        case Ok(val) =>
          fieldErrors := {};
          OnSubmit(val, date, formatDate);
      }
      isSubmitted := true;
    }
  }
}
