/** The subject screen: the cached grades of one subject as entries, the
    summary above them, and which card has its comment expanded. */
module SubjectDetail {
  import opened Wrappers
  import opened ApiTypes
  import opened GradesModel
  import opened SubjectEntries
  import opened GradeCard

  // ---------------------------------------------------------- derived data

  /** `gradesBySubject[subjectId] ?? []`. */
  function GradesList(c: GradeCache, subjectId: string): (gs: seq<GradeItem>)
    ensures Lookup(c, subjectId).None? ==> gs == []
    ensures Lookup(c, subjectId).Some? ==> gs == Lookup(c, subjectId).value
  {
    Lookup(c, subjectId).GetOr([])
  }

  /** `gradeItemsToEntries(gradesList)`. */
  function GradeEntriesFor(c: GradeCache, subjectId: string): (es: seq<GradeEntry>)
    ensures es == GradeItemsToEntries(GradesList(c, subjectId))
  {
    GradeItemsToEntries(GradesList(c, subjectId))
  }

  /** `loadingSubjectIds.has(subjectId)`. */
  predicate IsLoadingSubject(loadingSubjectIds: set<string>, subjectId: string) {
    subjectId in loadingSubjectIds
  }

  /** The entries of a subject whose fetch failed are empty, and of one
      that was never fetched too. */
  lemma NoCachedEntries(c: GradeCache, subjectId: string)
    requires Lookup(c, subjectId).None? || Lookup(c, subjectId) == Some([])
    ensures GradeEntriesFor(c, subjectId) == []
  {
  }

  // --------------------------------------------------------------- summary

  /** The header average: 0 with no entries, otherwise the mean grade. */
  function Average(es: seq<GradeEntry>): (a: real)
    ensures |es| == 0 ==> a == 0.0
    ensures |es| > 0 ==> a * (|es| as real) == SumGrades(es) as real
  {
    if |es| > 0 then Mean(SumGrades(es), |es|) else 0.0
  }

  function FivesCount(es: seq<GradeEntry>): (n: nat)
    ensures n <= |es|
  {
    CountGrade(es, 5)
  }

  function FoursCount(es: seq<GradeEntry>): (n: nat)
    ensures n <= |es|
  {
    CountGrade(es, 4)
  }

  /** Fives and fours together never outnumber the entries. */
  lemma {:induction false} FivesAndFoursAtMostTotal(es: seq<GradeEntry>)
    ensures FivesCount(es) + FoursCount(es) <= |es|
  {
    if |es| > 0 {
      FivesAndFoursAtMostTotal(es[..|es| - 1]);
    }
  }

  /** The screen and the store agree: the header average and counts of a
      subject are those `computeFromGrades` gives for its grades. */
  lemma SummaryMatchesStore(items: seq<GradeItem>)
    ensures var es := GradeItemsToEntries(items);
      && Average(es) == ComputeFromGrades(items).average
      && |es| == ComputeFromGrades(items).total
      && FivesCount(es) == ComputeFromGrades(items).fives
      && FoursCount(es) == ComputeFromGrades(items).fours
  {
    EntriesKeepGrades(items, 5);
    EntriesKeepGrades(items, 4);
  }

  datatype SummaryStat = SummaryStat(value: nat, caption: string)

  /** The three figures under the average, in their display order. */
  function SummaryStats(es: seq<GradeEntry>): (r: seq<SummaryStat>)
    ensures |r| == 3
    ensures r[0] == SummaryStat(|es|, "оценок")
    ensures r[1] == SummaryStat(FivesCount(es), "пятёрок")
    ensures r[2] == SummaryStat(FoursCount(es), "четвёрок")
  {
    [SummaryStat(|es|, "оценок"), SummaryStat(FivesCount(es), "пятёрок"), SummaryStat(FoursCount(es), "четвёрок")]
  }

  /** The full-screen spinner replaces the list only while loading a
      subject with nothing cached. */
  function ShowLoadingPlaceholder(isLoading: bool, es: seq<GradeEntry>): (b: bool)
    ensures b <==> isLoading && |es| == 0
    ensures |es| > 0 ==> !b
  {
    isLoading && |es| == 0
  }

  /** A refetch keeps the cached entries on screen. */
  lemma RefetchKeepsEntriesVisible(c: GradeCache, loadingIds: set<string>, subjectId: string)
    requires Lookup(c, subjectId).Some? && Lookup(c, subjectId).value != []
    ensures !ShowLoadingPlaceholder(IsLoadingSubject(loadingIds + {subjectId}, subjectId), GradeEntriesFor(c, subjectId))
  {
  }

  // -------------------------------------------------------- comment toggle

  /** The `handleCommentPress` updater. */
  function ToggleExpanded(prev: Option<string>, id: string): (r: Option<string>)
    ensures prev == Some(id) ==> r == None
    ensures prev != Some(id) ==> r == Some(id)
  {
    if prev == Some(id) then None else Some(id)
  }

  /** Pressing the same card twice restores the previous state exactly when
      that state was "none expanded" or "this one expanded". */
  lemma ToggleTwice(prev: Option<string>, id: string)
    ensures ToggleExpanded(ToggleExpanded(prev, id), id) == prev <==> prev == None || prev == Some(id)
  {
  }

  /** `isCommentExpanded={expandedCommentId === item.id}`. */
  predicate IsCardExpanded(expanded: Option<string>, e: GradeEntry) {
    expanded == Some(e.id)
  }

  /** The props each card is rendered with. */
  function CardPropsFor(expanded: Option<string>, e: GradeEntry): (p: CardProps)
    ensures p.entry == e && p.hasCommentPress
    ensures p.isCommentExpanded <==> IsCardExpanded(expanded, e)
  {
    CardProps(e, expanded == Some(e.id), true)
  }

  /** Among entries with distinct ids at most one card is expanded. */
  lemma AtMostOneExpanded(es: seq<GradeEntry>, expanded: Option<string>, i: nat, j: nat)
    requires forall a, b :: 0 <= a < b < |es| ==> es[a].id != es[b].id
    requires i < |es| && j < |es|
    requires IsCardExpanded(expanded, es[i]) && IsCardExpanded(expanded, es[j])
    ensures i == j
  {
  }

  /** Pressing a long comment on the screen flips that card between
      collapsed and expanded, and collapses any other card. */
  lemma PressFlipsCard(expanded: Option<string>, e: GradeEntry, other: GradeEntry)
    requires IsLongComment(e) && other.id != e.id
    ensures PressHandler(CardPropsFor(expanded, e)) == Some(e.id)
    ensures var next := ToggleExpanded(expanded, e.id);
      && (NeedsCollapse(CardPropsFor(next, e)) <==> !NeedsCollapse(CardPropsFor(expanded, e)))
      && !IsCardExpanded(next, other)
  {
  }

  /** The screen's own state: which comment is expanded. */
  class SubjectDetailState {
    const subjectId: string
    var expandedCommentId: Option<string>

    /** On mount nothing is expanded. */
    constructor(subjectId: string)
      ensures this.subjectId == subjectId && expandedCommentId == None
    {
      this.subjectId := subjectId;
      expandedCommentId := None;
    }

    /** `handleCommentPress(id)`. */
    method HandleCommentPress(id: string)
      modifies this`expandedCommentId
      ensures expandedCommentId == ToggleExpanded(old(expandedCommentId), id)
    {
      if expandedCommentId == Some(id) {
        expandedCommentId := None;
      } else {
        expandedCommentId := Some(id);
      }
    }
  }

  /** Two presses on the same card after mounting leave nothing expanded. */
  method PressTwiceAfterMount(subjectId: string, id: string) returns (screen: SubjectDetailState)
    ensures screen.expandedCommentId == None
  {
    screen := new SubjectDetailState(subjectId);
    screen.HandleCommentPress(id);
    assert screen.expandedCommentId == Some(id);
    screen.HandleCommentPress(id);
  }
}
