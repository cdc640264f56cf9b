/** The calendar store: what today is, in the forms the screens show. */
module CalendarModel {
  import opened Wrappers
  import opened Dates

  /** Weekday names indexed by `getDay`, Sunday first. */
  const SundayFirstShort: seq<string> := ["вс", "пн", "вт", "ср", "чт", "пт", "сб"]
  const SundayFirstFull: seq<string> := ["Воскресенье", "Понедельник", "Вторник", "Среда", "Четверг", "Пятница", "Суббота"]

  /** `getWorkingDayIndex`: 0 to 4 for Monday to Friday, none at the weekend. */
  function GetWorkingDayIndex(d: Day): (r: Option<nat>)
    ensures r.Some? <==> 1 <= Weekday(d) <= 5
    ensures r.Some? ==> r.value < 5 && r.value == Weekday(d) - 1
  {
    var day := Weekday(d);
    if 1 <= day <= 5 then Some(day - 1) else None
  }

  datatype TodayCalendarState = TodayCalendarState(
    isoDate: string,
    dayOfMonth: nat,
    weekdayShort: string,
    weekdayFull: string,
    workingDayIndex: Option<nat>)

  /** `createTodayState(date)`: the day the moment falls on, described. */
  function CreateTodayState(now: Instant): (s: TodayCalendarState)
    ensures s.isoDate == IsoDate(LocalDay(now))
    ensures 1 <= s.dayOfMonth <= 31 && s.dayOfMonth == CivilOf(LocalDay(now)).day
    ensures s.weekdayShort == SundayFirstShort[Weekday(LocalDay(now))]
    ensures s.weekdayFull == SundayFirstFull[Weekday(LocalDay(now))]
    ensures s.workingDayIndex == GetWorkingDayIndex(LocalDay(now))
  {
    var day := LocalDay(now);
    var w := Weekday(day);
    TodayCalendarState(IsoDate(day), CivilOf(day).day, SundayFirstShort[w], SundayFirstFull[w], GetWorkingDayIndex(day))
  }

  /** Two moments of the same local day describe the same today. */
  lemma TodayStateDependsOnDayOnly(t1: Instant, t2: Instant)
    requires LocalDay(t1) == LocalDay(t2)
    ensures CreateTodayState(t1) == CreateTodayState(t2)
  {
  }

  class CalendarStore {
    var today: TodayCalendarState

    /** The store's initial value: today at the moment of creation. */
    constructor(now: Instant)
      ensures today == CreateTodayState(now)
    {
      today := CreateTodayState(now);
    }

    method SetToday(value: TodayCalendarState)
      modifies this
      ensures today == value
    {
      today := value;
    }

    /** `refreshToday`, with the clock's reading as a parameter. */
    method RefreshToday(now: Instant)
      modifies this
      ensures today == CreateTodayState(now)
    {
      today := CreateTodayState(now);
    }
  }
}
