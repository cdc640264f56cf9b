/** The subject screen's view of a grade: the API grade reduced to what a
    card shows. */
module SubjectEntries {
  import opened Wrappers
  import opened Dates
  import opened ApiTypes
  import opened GradesModel

  /** `GradeEntry`; `comment` is absent rather than null. */
  datatype GradeEntry = GradeEntry(id: string, grade: int, date: string, kind: string, comment: Option<string>)

  /** Every entry is labelled as a plain grade. */
  const GradeKind: string := "Оценка"

  /** The mapping applied to one grade. */
  function ToEntry(g: GradeItem): (e: GradeEntry)
    ensures e.id == g.id && e.grade == g.value
    ensures e.date == DottedDate(LocalDay(g.gradedAt))
    ensures e.kind == GradeKind
    ensures e.comment == g.comment
  {
    GradeEntry(g.id, g.value, DottedDate(LocalDay(g.gradedAt)), GradeKind, g.comment)
  }

  /** `gradeItemsToEntries`: one entry per grade, in the same order. */
  function GradeItemsToEntries(items: seq<GradeItem>): (es: seq<GradeEntry>)
    ensures |es| == |items|
    ensures forall i :: 0 <= i < |items| ==> es[i] == ToEntry(items[i])
  {
    seq(|items|, i requires 0 <= i < |items| => ToEntry(items[i]))
  }

  /** Two entries show the same date exactly when their grades were given
      on the same local day. */
  lemma SameDateIffSameDay(g: GradeItem, h: GradeItem)
    ensures ToEntry(g).date == ToEntry(h).date <==> LocalDay(g.gradedAt) == LocalDay(h.gradedAt)
  {
    if ToEntry(g).date == ToEntry(h).date {
      DottedDateInjective(LocalDay(g.gradedAt), LocalDay(h.gradedAt));
    }
  }

  /** The sum of the entries' grades. */
  function SumGrades(es: seq<GradeEntry>): int {
    if |es| == 0 then 0 else SumGrades(es[..|es| - 1]) + es[|es| - 1].grade
  }

  /** How many entries have the grade `v`. */
  function CountGrade(es: seq<GradeEntry>, v: int): (n: nat)
    ensures n <= |es|
  {
    if |es| == 0 then 0 else CountGrade(es[..|es| - 1], v) + (if es[|es| - 1].grade == v then 1 else 0)
  }

  /** Mapping keeps the grades: the entries sum and count exactly as the
      grades they came from. */
  lemma {:induction false} EntriesKeepGrades(items: seq<GradeItem>, v: int)
    ensures SumGrades(GradeItemsToEntries(items)) == Sum(items)
    ensures CountGrade(GradeItemsToEntries(items), v) == CountValue(items, v)
  {
    if |items| > 0 {
      var init := items[..|items| - 1];
      EntriesKeepGrades(init, v);
      assert GradeItemsToEntries(items)[..|items| - 1] == GradeItemsToEntries(init);
    }
  }
}
