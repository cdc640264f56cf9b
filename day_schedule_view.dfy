/** What the day-schedule screen derives from the hook's state: the lessons
    in time order, the count word, the card numbers and which body shows. */
module DayScheduleView {
  import opened ApiTypes

  predicate SortedByStart(ls: seq<LessonItem>) {
    forall i, j :: 0 <= i < j < |ls| ==> ls[i].startsAt <= ls[j].startsAt
  }

  /** Put `x` before the first lesson that starts no earlier than it. */
  function Insert(x: LessonItem, s: seq<LessonItem>): (r: seq<LessonItem>)
    ensures multiset(r) == multiset(s) + multiset{x}
    ensures |r| == |s| + 1
  {
    if |s| == 0 || x.startsAt <= s[0].startsAt then [x] + s
    else
      assert s == [s[0]] + s[1..];
      [s[0]] + Insert(x, s[1..])
  }

  lemma {:induction false} InsertSorted(x: LessonItem, s: seq<LessonItem>)
    requires SortedByStart(s)
    ensures SortedByStart(Insert(x, s))
  {
    if |s| > 0 && x.startsAt > s[0].startsAt {
      InsertSorted(x, s[1..]);
      var r := Insert(x, s);
      var rest := Insert(x, s[1..]);
      assert r == [s[0]] + rest;
      forall j | 1 <= j < |r| ensures s[0].startsAt <= r[j].startsAt {
        assert r[j] in multiset(rest);
        assert r[j] in multiset(s[1..]) + multiset{x};
        if r[j] != x {
          assert r[j] in s[1..];
        }
      }
    }
  }

  /** `[...lessons].sort((a, b) => new Date(a.startsAt).getTime() -
      new Date(b.startsAt).getTime())`: a stable sort of a copy by start
      instant, so the hook's own list keeps its order. */
  function SortByStart(ls: seq<LessonItem>): (r: seq<LessonItem>)
    ensures SortedByStart(r)
    ensures multiset(r) == multiset(ls)
    ensures |r| == |ls|
  {
    if |ls| == 0 then []
    else
      var rest := SortByStart(ls[1..]);
      InsertSorted(ls[0], rest);
      assert ls == [ls[0]] + ls[1..];
      Insert(ls[0], rest)
  }

  /** The lessons that start at moment `t`, in order. */
  function StartingAt(ls: seq<LessonItem>, t: int): seq<LessonItem> {
    if |ls| == 0 then [] else (if ls[0].startsAt == t then [ls[0]] else []) + StartingAt(ls[1..], t)
  }

  lemma {:induction false} InsertStable(x: LessonItem, s: seq<LessonItem>, t: int)
    requires SortedByStart(s)
    ensures StartingAt(Insert(x, s), t) == (if x.startsAt == t then [x] else []) + StartingAt(s, t)
  {
    if |s| == 0 || x.startsAt <= s[0].startsAt {
      assert Insert(x, s) == [x] + s;
      assert ([x] + s)[1..] == s;
    } else {
      var rest := Insert(x, s[1..]);
      InsertStable(x, s[1..], t);
      assert Insert(x, s) == [s[0]] + rest;
      assert ([s[0]] + rest)[1..] == rest;
      assert StartingAt(Insert(x, s), t) == (if s[0].startsAt == t then [s[0]] else []) + StartingAt(rest, t);
      assert StartingAt(s, t) == (if s[0].startsAt == t then [s[0]] else []) + StartingAt(s[1..], t);
      if x.startsAt == t {
        // s[0] starts before x, so it is not among the lessons at t
        assert s[0].startsAt != t;
      } else if s[0].startsAt == t {
        assert StartingAt(Insert(x, s), t) == [s[0]] + StartingAt(s[1..], t);
      }
    }
  }

  /** The sort is stable: lessons that start at the same moment keep the
      order they had, whichever moment is looked at. */
  lemma {:induction false} SortIsStable(ls: seq<LessonItem>, t: int)
    ensures StartingAt(SortByStart(ls), t) == StartingAt(ls, t)
  {
    if |ls| > 0 {
      SortIsStable(ls[1..], t);
      InsertStable(ls[0], SortByStart(ls[1..]), t);
    }
  }

  /** The count word after the number of lessons. */
  function LessonCountLabel(n: nat): (w: string)
    ensures n == 1 ==> w == "урок"
    ensures n != 1 && n < 5 ==> w == "урока"
    ensures n >= 5 ==> w == "уроков"
  {
    if n == 1 then "урок" else if n < 5 then "урока" else "уроков"
  }

  datatype LessonCard = LessonCard(lesson: LessonItem, lessonNumber: nat)

  /** The cards of the list, numbered from 1 in the order given. */
  function NumberCards(ls: seq<LessonItem>): (cards: seq<LessonCard>)
    ensures |cards| == |ls|
    ensures forall i :: 0 <= i < |ls| ==> cards[i] == LessonCard(ls[i], i + 1)
  {
    seq(|ls|, i requires 0 <= i < |ls| => LessonCard(ls[i], i + 1))
  }

  /** The numbers read 1, 2, ... along the list and the start times never
      go back as they grow. */
  lemma CardsInTimeOrder(lessons: seq<LessonItem>, i: nat, j: nat)
    requires i < j < |lessons|
    ensures var cards := NumberCards(SortByStart(lessons));
      cards[i].lessonNumber < cards[j].lessonNumber && cards[i].lesson.startsAt <= cards[j].lesson.startsAt
  {
  }

  datatype ScheduleBody = Loading | ErrorMessage(message: string) | LessonList(cards: seq<LessonCard>) | NoLessons

  /** The body: loading first, then an error, then the list, then the
      empty state. */
  function Body(isLoading: bool, error: string, lessons: seq<LessonItem>): (b: ScheduleBody)
    ensures isLoading ==> b == Loading
    ensures !isLoading && error != "" ==> b == ErrorMessage(error)
    ensures !isLoading && error == "" && |lessons| > 0 ==> b == LessonList(NumberCards(SortByStart(lessons)))
    ensures !isLoading && error == "" && |lessons| == 0 ==> b == NoLessons
  {
    var sorted := SortByStart(lessons);
    if isLoading then Loading
    else if error != "" then ErrorMessage(error)
    else if |sorted| > 0 then LessonList(NumberCards(sorted))
    else NoLessons
  }
}
