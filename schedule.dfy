/** The schedule snapshot a group's day is edited against, and the check in
    `AddDayLessonModal.onSubmit` that refuses a lesson at an occupied time. */
module Schedules {
  import opened JsArray

  /** The selected calendar date as the app store holds it. Its representation is
      not part of this model: dates are only compared through `formatDate`. */
  type Date

  /** A recurring weekly lesson (an element of `schedule.schedule`). */
  datatype RecurringEntry = RecurringEntry(
    day: string, time: string, group: int, teacher: string, lesson: string, lessonType: string)

  /** A lesson for one calendar date (an element of `schedule.exceptions`). */
  datatype ExceptionEntry = ExceptionEntry(
    date: Date, time: string, group: int, teacher: string, lesson: string, lessonType: string)

  /** The snapshot, fetched elsewhere and only read here. */
  datatype Schedule = Schedule(id: string, schedule: seq<RecurringEntry>, exceptions: seq<ExceptionEntry>)

  /** The first `find` callback: same time and same group; the weekday is not looked at. */
  predicate RecurringClash(e: RecurringEntry, time: string, group: int)
  {
    e.time == time && e.group == group
  }

  /** The second `find` callback: same time, same group, and the same date once both
      dates are formatted. */
  predicate ExceptionClash(e: ExceptionEntry, time: string, group: int, date: Date, formatDate: Date -> string)
  {
    e.time == time && e.group == group && formatDate(e.date) == formatDate(date)
  }

  /** The duplicate check: both `find` calls must come back with an entry. */
  function IsDuplicate(s: Schedule, time: string, group: int, date: Date, formatDate: Date -> string): (dup: bool)
    ensures dup <==>
      (exists i :: 0 <= i < |s.schedule| && RecurringClash(s.schedule[i], time, group)) &&
      (exists j :: 0 <= j < |s.exceptions| && ExceptionClash(s.exceptions[j], time, group, date, formatDate))
  {
    Find(s.schedule, e => RecurringClash(e, time, group)).Some? &&
    Find(s.exceptions, e => ExceptionClash(e, time, group, date, formatDate)).Some?
  }

  /** A recurring entry at the candidate's time and group is not enough on its own. */
  lemma RecurringMatchAloneIsNotDuplicate(s: Schedule, time: string, group: int, date: Date, formatDate: Date -> string)
    requires forall j :: 0 <= j < |s.exceptions| ==> !ExceptionClash(s.exceptions[j], time, group, date, formatDate)
    ensures !IsDuplicate(s, time, group, date, formatDate)
  {
  }

  /** An exception entry on the selected date is not enough on its own either. */
  lemma ExceptionMatchAloneIsNotDuplicate(s: Schedule, time: string, group: int, date: Date, formatDate: Date -> string)
    requires forall i :: 0 <= i < |s.schedule| ==> !RecurringClash(s.schedule[i], time, group)
    ensures !IsDuplicate(s, time, group, date, formatDate)
  {
  }

  /** Two recurring lists that agree on time and group entry by entry. */
  predicate SameSlots(a: seq<RecurringEntry>, b: seq<RecurringEntry>)
  {
    |a| == |b| && forall i :: 0 <= i < |a| ==> a[i].time == b[i].time && a[i].group == b[i].group
  }

  /** The recurring scan ignores the weekday (and every field but time and group):
      rewriting those fields of the recurring entries never changes the verdict. */
  lemma RecurringScanIgnoresDay(s: Schedule, days: seq<RecurringEntry>, time: string, group: int,
                                date: Date, formatDate: Date -> string)
    requires SameSlots(s.schedule, days)
    ensures IsDuplicate(s, time, group, date, formatDate) == IsDuplicate(s.(schedule := days), time, group, date, formatDate)
  {
  }

  /** Only the formatted dates matter: two selected dates that format alike get the
      same verdict. */
  lemma OnlyFormattedDateMatters(s: Schedule, time: string, group: int, d1: Date, d2: Date, formatDate: Date -> string)
    requires formatDate(d1) == formatDate(d2)
    ensures IsDuplicate(s, time, group, d1, formatDate) == IsDuplicate(s, time, group, d2, formatDate)
  {
  }

  /** Scenario: group 3 has a recurring 08:00 lesson and an exception entry at 08:00
      on the selected date; a new 08:00 lesson for group 3 is a duplicate. */
  lemma ScenarioBothMatch(d: Date, formatDate: Date -> string)
    ensures IsDuplicate(
      Schedule("s1",
        [RecurringEntry("Понеділок", "08:00", 3, "T", "L", "Лекція")],
        [ExceptionEntry(d, "08:00", 3, "T", "L", "Лекція")]),
      "08:00", 3, d, formatDate)
  {
  }

  /** Scenario: the same recurring lesson, with the only exception entry on another
      day; a new 08:00 lesson for group 3 on the selected date is not a duplicate. */
  lemma ScenarioRecurringOnly(other: Date, d: Date, formatDate: Date -> string)
    requires formatDate(other) != formatDate(d)
    ensures !IsDuplicate(
      Schedule("s1",
        [RecurringEntry("Понеділок", "08:00", 3, "T", "L", "Лекція")],
        [ExceptionEntry(other, "08:00", 3, "T", "L", "Лекція")]),
      "08:00", 3, d, formatDate)
  {
  }
}
