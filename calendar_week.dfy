/** The week strip of the schedule screen: Monday to Sunday of the week
    that holds a reference day. */
module CalendarWeek {
  import opened Wrappers
  import opened Dates
  import opened CalendarModel

  /** Weekday names indexed from Monday, the layout of the week strip and of
      the weekly timetable (0 is Monday, 6 is Sunday). */
  const MondayFirstShort: seq<string> := ["пн", "вт", "ср", "чт", "пт", "сб", "вс"]
  const MondayFirstFull: seq<string> := ["Понедельник", "Вторник", "Среда", "Четверг", "Пятница", "Суббота", "Воскресенье"]

  /** The two layouts name the same day: Sunday-first position `w` is
      Monday-first position `(w + 6) % 7`. */
  lemma LabelTablesAgree(w: nat)
    requires w < 7
    ensures SundayFirstFull[w] == MondayFirstFull[(w + 6) % 7]
    ensures SundayFirstShort[w] == MondayFirstShort[(w + 6) % 7]
  {
  }

  /** On a working day the calendar store's weekday name is the week
      strip's name at the working-day index. */
  lemma WorkingDayLabelsAgree(now: Instant)
    requires CreateTodayState(now).workingDayIndex.Some?
    ensures CreateTodayState(now).weekdayFull == MondayFirstFull[CreateTodayState(now).workingDayIndex.value]
    ensures CreateTodayState(now).weekdayShort == MondayFirstShort[CreateTodayState(now).workingDayIndex.value]
  {
    LabelTablesAgree(Weekday(LocalDay(now)));
  }

  datatype WorkingDay = WorkingDay(
    index: nat,
    date: Day,
    isoDate: string,
    shortLabel: string,
    fullLabel: string,
    dayOfMonth: string,
    isDisabled: bool)

  /** date-fns `startOfWeek(d, { weekStartsOn: 1 })`: the Monday on or
      before `d`. */
  function StartOfWeek(d: Day): (m: Day)
    ensures m <= d < m + 7
    ensures Weekday(m) == 1
  {
    d - d % 7
  }

  function MakeDay(monday: Day, index: nat): (w: WorkingDay)
    requires index < 7
    ensures w.index == index && w.date == monday + index
    ensures w.isoDate == IsoDate(w.date) && w.dayOfMonth == DayOfMonthText(w.date)
    ensures w.shortLabel == MondayFirstShort[index] && w.fullLabel == MondayFirstFull[index]
    ensures w.isDisabled <==> index > 4
  {
    var date := monday + index;
    WorkingDay(index, date, IsoDate(date), MondayFirstShort[index], MondayFirstFull[index], DayOfMonthText(date), index > 4)
  }

  /** `buildCalendarWeek(referenceDate)`. */
  function BuildCalendarWeek(reference: Day): (week: seq<WorkingDay>)
    ensures |week| == 7
    ensures forall i :: 0 <= i < 7 ==> week[i].index == i && week[i].date == StartOfWeek(reference) + i
    ensures forall i :: 0 <= i < 7 ==> week[i].isoDate == IsoDate(week[i].date) && week[i].dayOfMonth == DayOfMonthText(week[i].date)
    ensures forall i :: 0 <= i < 7 ==> week[i].shortLabel == MondayFirstShort[i] && week[i].fullLabel == MondayFirstFull[i]
    ensures forall i :: 0 <= i < 7 ==> (week[i].isDisabled <==> i > 4)
  {
    var monday := StartOfWeek(reference);
    seq(7, i requires 0 <= i < 7 => MakeDay(monday, i))
  }

  /** The reference day is in its week, at position `reference % 7`. */
  lemma ReferenceInWeek(reference: Day)
    ensures BuildCalendarWeek(reference)[reference % 7].date == reference
  {
  }

  /** Each entry falls on the weekday its labels name: entry i's getDay is
      i + 1, with Sunday wrapping to 0. */
  lemma EntriesFallOnTheirWeekday(reference: Day, i: nat)
    requires i < 7
    ensures Weekday(BuildCalendarWeek(reference)[i].date) == (i + 1) % 7
    ensures BuildCalendarWeek(reference)[i].fullLabel == SundayFirstFull[(i + 1) % 7]
  {
    var m := StartOfWeek(reference);
    assert m % 7 == 0;
    assert (m + i + 1) % 7 == (i + 1) % 7;
  }

  /** Exactly Saturday and Sunday are disabled. */
  lemma DisabledExactlyAtWeekend(reference: Day, i: nat)
    requires i < 7
    ensures BuildCalendarWeek(reference)[i].isDisabled <==> GetWorkingDayIndex(BuildCalendarWeek(reference)[i].date).None?
  {
    EntriesFallOnTheirWeekday(reference, i);
  }

  /** The seven ISO dates are pairwise distinct. */
  lemma IsoDatesDistinct(reference: Day, i: nat, j: nat)
    requires i < 7 && j < 7 && i != j
    ensures BuildCalendarWeek(reference)[i].isoDate != BuildCalendarWeek(reference)[j].isoDate
  {
    var week := BuildCalendarWeek(reference);
    if week[i].isoDate == week[j].isoDate {
      IsoDateInjective(week[i].date, week[j].date);
    }
  }
}
