# Add-lesson dialog of the day schedule

This project models the add-lesson dialog of a Telegram web app that edits a weekly
class schedule. A group's schedule snapshot holds recurring weekly lessons and lessons
for single calendar dates (exceptions). The dialog collects a time, a lesson name, a
teacher and a lesson type. A yup schema checks these values. The dialog then refuses a
lesson when a recurring entry and an exception entry on the selected date both hold its
time and group. Otherwise it sends one `addDayLesson` request, resets the form and closes.

Modules:

- `JsArray` (`js_array.dfy`): `Option` and `Find`, JavaScript's `Array.prototype.find`.
- `Validation` (`validation.dfy`): the `changeLessonSchema` schema. Four string fields are each `required()`.
- `Schedules` (`schedule.dfy`): recurring entries, exception entries, the schedule snapshot and the duplicate check.
- `ChangeDaySchedule` (`add_day_lesson_modal.dfy`): the dialog. Pure transition functions on a `Modal` value carry the properties. The class `AddDayLessonModal` holds the same state in fields. Each of its methods is proved to move its state exactly as the matching function says, and to leave the props alone.

Two inputs come from outside the component. The store's selected `date` is a method
parameter. `formatDate` is an arbitrary function parameter `Date -> string`, and `Date` is
an opaque type. Every proof therefore holds for any date normaliser. The outgoing mutation
is a request appended to the `sent` log.

Two facts about the code shape the model:

- On a duplicate only `error` is set; `success` keeps its previous value.
- Success is declared as soon as the request is dispatched; nothing waits for a confirmation.

The form follows react-hook-form's defaults. Errors are reported on submit. Once the form has
been submitted, each edit re-validates the edited field (`reValidateMode: 'onChange'`), until
`reset()` clears the submitted state. `handleSubmit` marks the form submitted after
`onSubmit` returns, so the form counts as submitted even after a successful submission
whose `onSubmit` reset it. Errors are reported for all four fields, but only the
`lesson` and `teacher` errors are displayed (lines 178 and 194). The two select fields
can never fail anyway (`SelectChoicesPass`).

## Model

| member | source | states |
|---|---|---|
| `JsArray.Find` | src/components/ChangeDaySchedule/AddDayLessonModal.tsx:56-62 | `find` gives nothing exactly when no element satisfies the callback; otherwise it gives the first element that does |
| `Validation.Errors` | src/utils/validation.ts:3-10 | a field is reported exactly when its value is missing or the empty string |
| `Validation.Validate` | src/utils/validation.ts:3-10 | validation passes iff all four fields are required-valid, and then returns exactly the input values; otherwise it returns a non-empty set holding exactly the failing fields |
| `Validation.FieldsAreIndependent` | src/utils/validation.ts:4-9 | changing one field changes only whether that field fails; no cross-field rules |
| `Validation.FormValidIff` | src/utils/validation.ts:5-8 | form strings pass iff time, lesson, teacher and type are all non-empty, and the validated values equal the form values |
| `Schedules.IsDuplicate` | src/components/ChangeDaySchedule/AddDayLessonModal.tsx:55-63 | duplicate iff some recurring entry has the same time and group AND some exception entry has the same time, group and formatted date |
| `Schedules.RecurringMatchAloneIsNotDuplicate` | src/components/ChangeDaySchedule/AddDayLessonModal.tsx:55-62 | with no matching exception entry for the date, a recurring match does not make a duplicate |
| `Schedules.ExceptionMatchAloneIsNotDuplicate` | src/components/ChangeDaySchedule/AddDayLessonModal.tsx:55-62 | with no matching recurring entry, an exception match does not make a duplicate |
| `Schedules.RecurringScanIgnoresDay` | src/components/ChangeDaySchedule/AddDayLessonModal.tsx:56 | the recurring scan looks only at time and group: changing weekdays (or any other field) of recurring entries leaves the verdict unchanged |
| `Schedules.OnlyFormattedDateMatters` | src/components/ChangeDaySchedule/AddDayLessonModal.tsx:61 | two selected dates with the same formatted value get the same verdict |
| `Schedules.ScenarioBothMatch` | src/components/ChangeDaySchedule/AddDayLessonModal.tsx:55-63 | group 3, recurring 08:00 and exception 08:00 on the selected date: a new 08:00 lesson is a duplicate |
| `Schedules.ScenarioRecurringOnly` | src/components/ChangeDaySchedule/AddDayLessonModal.tsx:55-63 | same recurring lesson, exception only on another date: a new 08:00 lesson is not a duplicate |
| `ChangeDaySchedule.Reset` | src/components/ChangeDaySchedule/AddDayLessonModal.tsx:86-93 | `reset()` restores the default values `{time:'08:00', lesson:'', teacher:'', type:'Лекція'}`, clears field errors and the submitted state, and touches nothing else |
| `ChangeDaySchedule.AfterSubmit` | src/components/ChangeDaySchedule/AddDayLessonModal.tsx:53-80 | `error` ends true iff the candidate is a duplicate. On a duplicate, nothing else changes and no request is sent. Otherwise `success` is set, `error` is cleared, exactly one request `{_id, group, time, teacher, lesson, type, formatDate(date)}` is appended, the form is reset and the dialog is closed |
| `ChangeDaySchedule.AfterClose` | src/components/ChangeDaySchedule/AddDayLessonModal.tsx:44-47 | `handleClose` resets the form and closes the dialog, with no request and no flag change |
| `ChangeDaySchedule.AfterCloseIcon` | src/components/ChangeDaySchedule/AddDayLessonModal.tsx:120 | the close icon only closes the dialog; form values and field errors are kept |
| `ChangeDaySchedule.AfterChangeField` | src/components/ChangeDaySchedule/AddDayLessonModal.tsx:127-130 | a field change sets that field only; before the first submission errors are untouched, after it the changed field's error is recomputed (present iff the new value is empty) and the other fields' errors are kept |
| `ChangeDaySchedule.RevalidationKeepsErrorsCurrent` | src/components/ChangeDaySchedule/AddDayLessonModal.tsx:94 | after a submission, if the reported errors match the schema's verdict, they still match it after any edit |
| `ChangeDaySchedule.ScenarioTypingClearsItsError` | src/components/ChangeDaySchedule/AddDayLessonModal.tsx:88-94 | submitting the untouched form shows errors on lesson and teacher; typing a lesson name then leaves only the teacher error |
| `ChangeDaySchedule.NoErrorsBeforeFirstSubmit` | src/components/ChangeDaySchedule/AddDayLessonModal.tsx:87-95 | before any submission, edits never report an error |
| `ChangeDaySchedule.AfterHandleSubmit` | src/components/ChangeDaySchedule/AddDayLessonModal.tsx:126 | with a failing field, its errors are reported and nothing else changes (no duplicate check, no request); otherwise errors are cleared and `onSubmit` runs on the form values; either way the form counts as submitted afterwards |
| `ChangeDaySchedule.SubmitSendsOnlyValidFreshLessons` | src/components/ChangeDaySchedule/AddDayLessonModal.tsx:53-80 | a submission appends at most one request and keeps earlier ones; it appends one iff all four fields are non-empty and the slot is not a duplicate |
| `ChangeDaySchedule.SubmitSuccessClosesLikeHandleClose` | src/components/ChangeDaySchedule/AddDayLessonModal.tsx:77-78 | after a successful submission the dialog is exactly as `handleClose` would leave it |
| `ChangeDaySchedule.ResubmitAgainstStaleSnapshotSendsAgain` | src/components/ChangeDaySchedule/AddDayLessonModal.tsx:53-80 | this component never refreshes the snapshot; while the parent passes the same one, submitting the same values again (after reopening and retyping) sends a second, identical request |
| `ChangeDaySchedule.RefreshedExceptionAloneLetsLessonAgain` | src/components/ChangeDaySchedule/AddDayLessonModal.tsx:55-63 | a snapshot refreshed to hold the sent lesson only as an exception entry on the selected date still lets the same lesson through when no recurring entry holds its time and group |
| `ChangeDaySchedule.CloseIsIdempotent` | src/components/ChangeDaySchedule/AddDayLessonModal.tsx:44-47 | closing twice is the same as closing once |
| `ChangeDaySchedule.DefaultFormFailsOnLessonAndTeacher` | src/components/ChangeDaySchedule/AddDayLessonModal.tsx:88-93 | the untouched default form fails validation on exactly `lesson` and `teacher` |
| `ChangeDaySchedule.SelectChoicesPass` | src/components/ChangeDaySchedule/AddDayLessonModal.tsx:146-157 | every time choice (and every type choice, lines 213-215) passes its required test, so only empty lesson or teacher text can fail |
| `ChangeDaySchedule.ScenarioEmptyLesson` | src/components/ChangeDaySchedule/AddDayLessonModal.tsx:126 | an empty lesson name is reported on `lesson` alone; no duplicate check, no flag change, no request |
| `ChangeDaySchedule.AddDayLessonModal.constructor` | src/components/ChangeDaySchedule/AddDayLessonModal.tsx:36-51 | on mount the form holds its defaults, both flags are false and nothing has been sent |
| `ChangeDaySchedule.AddDayLessonModal.ChangeField` | src/components/ChangeDaySchedule/AddDayLessonModal.tsx:127-130 | the object's state moves as `AfterChangeField` says |
| `ChangeDaySchedule.AddDayLessonModal.ResetForm` | src/components/ChangeDaySchedule/AddDayLessonModal.tsx:86-93 | the object's state moves as `Reset` says |
| `ChangeDaySchedule.AddDayLessonModal.OnSubmit` | src/components/ChangeDaySchedule/AddDayLessonModal.tsx:53-80 | the object's state moves as `AfterSubmit` says; the schedule snapshot, group, day and week are unchanged |
| `ChangeDaySchedule.AddDayLessonModal.HandleClose` | src/components/ChangeDaySchedule/AddDayLessonModal.tsx:44-47 | the object's state moves as `AfterClose` says |
| `ChangeDaySchedule.AddDayLessonModal.CloseIcon` | src/components/ChangeDaySchedule/AddDayLessonModal.tsx:120 | the object's state moves as `AfterCloseIcon` says |
| `ChangeDaySchedule.AddDayLessonModal.HandleSubmit` | src/components/ChangeDaySchedule/AddDayLessonModal.tsx:126 | the object's state moves as `AfterHandleSubmit` says; the props are unchanged |

## Left out

- Rendering: the dialog, selects, text fields, `ModalError` and both snackbars are presentation only. The snackbars' own dismissal (`setError(false)`, `setSuccess(false)`) happens inside components that are not part of this model.
- The yup error message texts. A failing field is reported by name only.
- The internals of react-hook-form and `yupResolver`. Only their effects are modelled: validation gating, `reset()` to the default values, per-field values and errors, and re-validation of an edited field after a submission. Touched and dirty state, submit counts and focus handling are not modelled.
- The `addDayLesson` mutation is a network call. It is recorded as an appended payload, and its responses and failures are not modelled, because the dialog never reads them.
- The body of `formatDate` is not part of this model. It is a function parameter, and only equality of its results is used.
- The Redux selector for the selected date is global store plumbing, so the date is passed in as a parameter.
- ChangeDaySchedule.AddDayLessonModal: prop changes made by the parent are not modelled as transitions. These include a new `schedule` after a refetch, another group, day or week, and reopening through `setIsOpen(true)`. The props stay fixed, and no method requires `isOpen`. Whether the `addDayLesson` mutation makes the parent refetch the snapshot depends on the API layer, which is not part of this model.
- Each `ChangeDaySchedule.AddDayLessonModal` method runs to completion. React's batching of state updates and re-rendering are not modelled.
- `AddTeacher` is not part of this model. Its submit handler only forwards to a remote call and resets its form.
