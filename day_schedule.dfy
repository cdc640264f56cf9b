/** The day-schedule hook: the week strip around today, the selected
    day, and the lessons of that day fetched from the weekly timetable. */
module DaySchedule {
  import opened Wrappers
  import opened Dates
  import opened ApiTypes
  import opened CalendarWeek

  /** `findIndex` of the entry whose ISO date is `iso`, or -1 as none. */
  function FindIndexByIso(week: seq<WorkingDay>, iso: string): (r: Option<nat>)
    ensures r.None? <==> forall i :: 0 <= i < |week| ==> week[i].isoDate != iso
    ensures r.Some? ==> r.value < |week| && week[r.value].isoDate == iso
    ensures r.Some? ==> forall i :: 0 <= i < r.value ==> week[i].isoDate != iso
  {
    if |week| == 0 then None
    else if week[0].isoDate == iso then Some(0)
    else match FindIndexByIso(week[1..], iso)
      case None => None
      case Some(k) => Some(k + 1)
  }

  /** `todayCalendarIndex`: where today is in the strip, 0 when absent. */
  function TodayCalendarIndex(week: seq<WorkingDay>, todayIso: string): (r: nat)
    ensures FindIndexByIso(week, todayIso).None? ==> r == 0
    ensures FindIndexByIso(week, todayIso).Some? ==> r == FindIndexByIso(week, todayIso).value
  {
    match FindIndexByIso(week, todayIso)
    case None => 0
    case Some(i) => i
  }

  /** In the strip built around today, today sits at its Monday-first
      position: Monday 0, ..., Sunday 6. */
  lemma TodayIndexIsWeekPosition(today: Day)
    ensures TodayCalendarIndex(BuildCalendarWeek(today), IsoDate(today)) == today % 7
    ensures (TodayCalendarIndex(BuildCalendarWeek(today), IsoDate(today)) + 1) % 7 == Weekday(today)
  {
    var week := BuildCalendarWeek(today);
    var k := today % 7;
    ReferenceInWeek(today);
    assert week[k].isoDate == IsoDate(today);
    var found := FindIndexByIso(week, IsoDate(today));
    assert found.Some? && found.value <= k;
    if found.value != k {
      IsoDatesDistinct(today, found.value, k);
    }
    EntriesFallOnTheirWeekday(today, k);
  }

  /** `calendarWeek[selected] ?? calendarWeek[0]`. */
  function SelectedCalendarDay(week: seq<WorkingDay>, selected: int): (r: Option<WorkingDay>)
    ensures 0 <= selected < |week| ==> r == Some(week[selected])
    ensures !(0 <= selected < |week|) && |week| > 0 ==> r == Some(week[0])
    ensures |week| == 0 ==> r.None?
  {
    if 0 <= selected < |week| then Some(week[selected])
    else if |week| > 0 then Some(week[0])
    else None
  }

  /** The lessons whose start falls on `day`, compared as ISO date strings. */
  function LessonsOn(items: seq<LessonItem>, day: Day): (r: seq<LessonItem>)
    ensures |r| <= |items|
    ensures forall l :: l in r ==> l in items
  {
    if |items| == 0 then []
    else
      var rest := LessonsOn(items[1..], day);
      if IsoDate(LocalDay(items[0].startsAt)) == IsoDate(day) then [items[0]] + rest else rest
  }

  /** The same filter on day numbers: what matters is the start's day. */
  function LessonsOnDay(items: seq<LessonItem>, day: Day): (r: seq<LessonItem>)
    ensures |r| <= |items|
    ensures forall l :: l in r ==> l in items && LocalDay(l.startsAt) == day
  {
    if |items| == 0 then []
    else
      var rest := LessonsOnDay(items[1..], day);
      if LocalDay(items[0].startsAt) == day then [items[0]] + rest else rest
  }

  /** The string comparison keeps exactly the lessons that start on the
      day, in the server's order. */
  lemma {:induction false} LessonsOnMatchesDay(items: seq<LessonItem>, day: Day)
    ensures LessonsOn(items, day) == LessonsOnDay(items, day)
  {
    if |items| > 0 {
      LessonsOnMatchesDay(items[1..], day);
      if IsoDate(LocalDay(items[0].startsAt)) == IsoDate(day) {
        IsoDateInjective(LocalDay(items[0].startsAt), day);
      }
    }
  }

  /** Every kept lesson starts on the day, and every lesson of the input
      that starts on the day is kept. */
  lemma {:induction false} LessonsOnDayExact(items: seq<LessonItem>, day: Day)
    ensures forall l :: l in LessonsOnDay(items, day) ==> LocalDay(l.startsAt) == day
    ensures forall l :: l in items && LocalDay(l.startsAt) == day ==> l in LessonsOnDay(items, day)
  {
    if |items| > 0 {
      LessonsOnDayExact(items[1..], day);
      assert forall l :: l in items ==> l == items[0] || l in items[1..];
    }
  }

  /** What `getWeekSchedule` resolves to: no body, a body whose `items` is
      not an array, or the list of lessons. */
  datatype WeekScheduleData = NoData | ItemsNotAList | Items(items: seq<LessonItem>)

  /** `Array.isArray(data?.items) ? data.items : []`. */
  function ItemsOf(data: WeekScheduleData): (items: seq<LessonItem>)
    ensures data.Items? ==> items == data.items
    ensures !data.Items? ==> items == []
  {
    if data.Items? then data.items else []
  }

  const ScheduleLoadFailed: string := "Ошибка загрузки расписания"

  class DayScheduleState {
    const week: seq<WorkingDay>
    var selectedDayIndex: int
    var lessons: seq<LessonItem>
    var isLoading: bool
    var error: string

    /** The hook's first render for `today`: the week around it, today
        selected, nothing loaded, no error. */
    constructor(today: Day)
      ensures week == BuildCalendarWeek(today)
      ensures selectedDayIndex == today % 7
      ensures lessons == [] && !isLoading && error == ""
    {
      week := BuildCalendarWeek(today);
      selectedDayIndex := TodayCalendarIndex(BuildCalendarWeek(today), IsoDate(today));
      lessons := [];
      isLoading := false;
      error := "";
      TodayIndexIsWeekPosition(today);
    }

    function SelectedDay(): Option<WorkingDay>
      reads this
    {
      SelectedCalendarDay(week, selectedDayIndex)
    }

    /** `setSelectedDay`: the index is stored as given. */
    method SetSelectedDay(index: int)
      modifies this`selectedDayIndex
      ensures selectedDayIndex == index
    {
      selectedDayIndex := index;
    }

    /** `loadScheduleForDay(date)`, given what the timetable request
        yields. The ghost results are the loading flag and the error
        while the request is awaited. */
    method LoadScheduleForDay(date: Day, outcome: Result<WeekScheduleData, Thrown>)
      returns (ghost loadingDuring: bool, ghost errorDuring: string)
      modifies this`lessons, this`isLoading, this`error
      ensures loadingDuring && errorDuring == ""
      ensures !isLoading
      ensures outcome.Success? ==> lessons == LessonsOnDay(ItemsOf(outcome.value), date) && error == ""
      ensures outcome.Failure? ==> lessons == [] && error == GetApiErrorMessage(outcome.error, ScheduleLoadFailed)
    {
      isLoading := true;
      error := "";
      loadingDuring, errorDuring := isLoading, error;
      match outcome {
        case Success(data) =>
          var items := ItemsOf(data);
          lessons := LessonsOn(items, date);
          LessonsOnMatchesDay(items, date);
        case Failure(e) =>
          error := GetApiErrorMessage(e, ScheduleLoadFailed);
          lessons := [];
      }
      isLoading := false;
    }
  }
}
