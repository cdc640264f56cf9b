/** The grades entity: aggregation of grade lists, the teacher short name,
    the per-subject grade cache and the store that fills it.

    The cache `gradesBySubject` is a JavaScript object keyed by subject id.
    It is modelled as an association list in the object's key order: a
    new key is appended, and replacing an existing key keeps its
    position. */
module GradesModel {
  import opened Wrappers
  import opened ApiTypes

  // ------------------------------------------------------------ aggregation

  function Sum(gs: seq<GradeItem>): int {
    if |gs| == 0 then 0 else Sum(gs[..|gs| - 1]) + gs[|gs| - 1].value
  }

  /** How many grades have the value `v` (a `filter(...).length`). */
  function CountValue(gs: seq<GradeItem>, v: int): (n: nat)
    ensures n <= |gs|
  {
    if |gs| == 0 then 0 else CountValue(gs[..|gs| - 1], v) + (if gs[|gs| - 1].value == v then 1 else 0)
  }

  lemma {:induction false} CountsAtMostTotal(gs: seq<GradeItem>)
    ensures CountValue(gs, 5) + CountValue(gs, 4) + CountValue(gs, 3) <= |gs|
  {
    if |gs| > 0 {
      CountsAtMostTotal(gs[..|gs| - 1]);
    }
  }

  datatype GradeStats = GradeStats(average: real, total: nat, fives: nat, fours: nat, threes: nat)

  /** `computeFromGrades`: the mean and the counts of 5s, 4s and 3s; an
      empty list gives zeros without dividing. */
  function ComputeFromGrades(gs: seq<GradeItem>): (r: GradeStats)
    ensures |gs| == 0 ==> r == GradeStats(0.0, 0, 0, 0, 0)
    ensures r.total == |gs|
    ensures r.fives == CountValue(gs, 5) && r.fours == CountValue(gs, 4) && r.threes == CountValue(gs, 3)
    ensures r.fives + r.fours + r.threes <= r.total
    ensures r.average * (r.total as real) == Sum(gs) as real
  {
    CountsAtMostTotal(gs);
    if |gs| == 0 then GradeStats(0.0, 0, 0, 0, 0)
    else GradeStats(Mean(Sum(gs), |gs|), |gs|, CountValue(gs, 5), CountValue(gs, 4), CountValue(gs, 3))
  }

  /** `sum / count`, only ever taken with a positive count. */
  function Mean(sum: int, count: nat): (m: real)
    requires count > 0
    ensures m * (count as real) == sum as real
  {
    (sum as real) / (count as real)
  }

  /** The mean lies between the smallest and the largest grade. */
  lemma AverageWithinBounds(gs: seq<GradeItem>, lo: int, hi: int)
    requires |gs| > 0
    requires forall i :: 0 <= i < |gs| ==> lo <= gs[i].value <= hi
    ensures (lo as real) <= ComputeFromGrades(gs).average <= (hi as real)
  {
    SumBounds(gs, lo, hi);
    MeanBounds(Sum(gs), |gs|, lo, hi);
  }

  lemma MeanBounds(sum: int, count: nat, lo: int, hi: int)
    requires count > 0 && lo * count <= sum <= hi * count
    ensures (lo as real) <= Mean(sum, count) <= (hi as real)
  {
    var n := count as real;
    var m := Mean(sum, count);
    assert m * n == sum as real;
    assert (lo * count) as real == (lo as real) * n;
    assert (hi * count) as real == (hi as real) * n;
    assert (m - lo as real) * n == sum as real - (lo as real) * n;
    assert (hi as real - m) * n == (hi as real) * n - sum as real;
  }

  lemma {:induction false} SumBounds(gs: seq<GradeItem>, lo: int, hi: int)
    requires forall i :: 0 <= i < |gs| ==> lo <= gs[i].value <= hi
    ensures lo * |gs| <= Sum(gs) <= hi * |gs|
  {
    if |gs| > 0 {
      SumBounds(gs[..|gs| - 1], lo, hi);
    }
  }

  // ------------------------------------------------------------------ cache

  datatype SubjectGrades = SubjectGrades(subjectId: string, grades: seq<GradeItem>)

  type GradeCache = seq<SubjectGrades>

  predicate DistinctKeys(c: GradeCache) {
    forall i, j :: 0 <= i < j < |c| ==> c[i].subjectId != c[j].subjectId
  }

  function Keys(c: GradeCache): (ks: seq<string>)
    ensures |ks| == |c| && forall i :: 0 <= i < |c| ==> ks[i] == c[i].subjectId
  {
    if |c| == 0 then [] else [c[0].subjectId] + Keys(c[1..])
  }

  /** `gradesBySubject[id]`: the first entry with that key. */
  function Lookup(c: GradeCache, id: string): (r: Option<seq<GradeItem>>)
    ensures r.None? <==> forall i :: 0 <= i < |c| ==> c[i].subjectId != id
  {
    if |c| == 0 then None
    else if c[0].subjectId == id then Some(c[0].grades)
    else Lookup(c[1..], id)
  }

  /** `{ ...cache, [id]: grades }`. */
  function Put(c: GradeCache, id: string, grades: seq<GradeItem>): (r: GradeCache)
    ensures Lookup(r, id) == Some(grades)
    ensures forall k :: k != id ==> Lookup(r, k) == Lookup(c, k)
  {
    if |c| == 0 then [SubjectGrades(id, grades)]
    else if c[0].subjectId == id then [SubjectGrades(id, grades)] + c[1..]
    else [c[0]] + Put(c[1..], id, grades)
  }

  /** Replacing a key keeps the key order; a new key goes last. */
  lemma {:induction false} PutKeys(c: GradeCache, id: string, grades: seq<GradeItem>)
    ensures Lookup(c, id).Some? ==> Keys(Put(c, id, grades)) == Keys(c)
    ensures Lookup(c, id).None? ==> Keys(Put(c, id, grades)) == Keys(c) + [id]
  {
    if |c| > 0 && c[0].subjectId != id {
      PutKeys(c[1..], id, grades);
      assert Keys(Put(c, id, grades)) == [c[0].subjectId] + Keys(Put(c[1..], id, grades));
      assert Keys(c) == [c[0].subjectId] + Keys(c[1..]);
    }
  }

  /** The cache never holds a key twice. */
  lemma {:induction false} PutKeepsDistinct(c: GradeCache, id: string, grades: seq<GradeItem>)
    requires DistinctKeys(c)
    ensures DistinctKeys(Put(c, id, grades))
  {
    var r := Put(c, id, grades);
    if |c| > 0 && c[0].subjectId != id {
      var tail := c[1..];
      assert DistinctKeys(tail) by {
        forall i, j | 0 <= i < j < |tail| ensures tail[i].subjectId != tail[j].subjectId {
          assert tail[i] == c[i + 1] && tail[j] == c[j + 1];
        }
      }
      PutKeepsDistinct(tail, id, grades);
      var rest := Put(tail, id, grades);
      assert r == [c[0]] + rest;
      assert forall i :: 0 <= i < |tail| ==> tail[i].subjectId != c[0].subjectId by {
        forall i | 0 <= i < |tail| ensures tail[i].subjectId != c[0].subjectId {
          assert tail[i] == c[i + 1];
        }
      }
      assert Lookup(rest, c[0].subjectId).None?;
      forall i, j | 0 <= i < j < |r| ensures r[i].subjectId != r[j].subjectId {
        assert r[j] == rest[j - 1];
        if i > 0 {
          assert r[i] == rest[i - 1];
        }
      }
    } else if |c| > 0 {
      assert r == [SubjectGrades(id, grades)] + c[1..];
      assert forall i :: 0 <= i < |r| ==> r[i].subjectId == c[i].subjectId;
    }
  }

  /** `Object.values(cache).flat()`. */
  function Flatten(c: GradeCache): seq<GradeItem> {
    if |c| == 0 then [] else c[0].grades + Flatten(c[1..])
  }

  function CachedCount(c: GradeCache): nat {
    if |c| == 0 then 0 else |c[0].grades| + CachedCount(c[1..])
  }

  function CountInCache(c: GradeCache, v: int): nat {
    if |c| == 0 then 0 else CountValue(c[0].grades, v) + CountInCache(c[1..], v)
  }

  function SumInCache(c: GradeCache): int {
    if |c| == 0 then 0 else Sum(c[0].grades) + SumInCache(c[1..])
  }

  lemma {:induction false} SumConcat(a: seq<GradeItem>, b: seq<GradeItem>, v: int)
    ensures Sum(a + b) == Sum(a) + Sum(b)
    ensures CountValue(a + b, v) == CountValue(a, v) + CountValue(b, v)
    decreases |b|
  {
    if |b| == 0 {
      assert a + b == a;
    } else {
      assert (a + b)[..|a + b| - 1] == a + b[..|b| - 1];
      SumConcat(a, b[..|b| - 1], v);
    }
  }

  /** Flattening the cache adds up the lengths, the sums and the counts of
      its lists. */
  lemma {:induction false} FlattenAdds(c: GradeCache, v: int)
    ensures |Flatten(c)| == CachedCount(c)
    ensures Sum(Flatten(c)) == SumInCache(c)
    ensures CountValue(Flatten(c), v) == CountInCache(c, v)
  {
    if |c| > 0 {
      FlattenAdds(c[1..], v);
      SumConcat(c[0].grades, Flatten(c[1..]), v);
    }
  }

  datatype GradesComputed = GradesComputed(
    allGrades: seq<GradeItem>,
    overallAverage: real,
    totalCount: nat,
    fivesCount: nat,
    foursCount: nat,
    threesCount: nat)

  /** `getComputedFromStore`: the statistics of all cached grades taken
      together, so every subject weighs by its number of grades. */
  function GetComputedFromStore(c: GradeCache): (r: GradesComputed)
    ensures r.allGrades == Flatten(c)
    ensures r.totalCount == CachedCount(c)
    ensures r.fivesCount == CountInCache(c, 5) && r.foursCount == CountInCache(c, 4) && r.threesCount == CountInCache(c, 3)
    ensures CachedCount(c) == 0 ==> r.overallAverage == 0.0
    ensures CachedCount(c) > 0 ==> r.overallAverage == Mean(SumInCache(c), CachedCount(c))
  {
    var all := Flatten(c);
    var s := ComputeFromGrades(all);
    FlattenAdds(c, 5);
    FlattenAdds(c, 4);
    FlattenAdds(c, 3);
    GradesComputed(all, s.average, s.total, s.fives, s.fours, s.threes)
  }

  // ------------------------------------------------------- teacher's name

  /** The characters `String.prototype.trim` removes: the white space and
      line terminators of ECMA-262 sections 12.2 and 12.3. */
  predicate IsWhitespace(ch: char) {
    ch == '\t' || ch == '\n' || ch == '\U{000B}' || ch == '\U{000C}' || ch == '\r' || ch == ' '
    || ch == '\U{00A0}' || ch == '\U{1680}' || ('\U{2000}' <= ch <= '\U{200A}')
    || ch == '\U{2028}' || ch == '\U{2029}' || ch == '\U{202F}' || ch == '\U{205F}'
    || ch == '\U{3000}' || ch == '\U{FEFF}'
  }

  function TrimStart(s: string): (r: string)
    ensures |r| <= |s| && r == s[|s| - |r|..]
    ensures forall i :: 0 <= i < |s| - |r| ==> IsWhitespace(s[i])
    ensures |r| > 0 ==> !IsWhitespace(r[0])
  {
    if |s| > 0 && IsWhitespace(s[0]) then TrimStart(s[1..]) else s
  }

  function TrimEnd(s: string): (r: string)
    ensures |r| <= |s| && r == s[..|r|]
    ensures forall i :: |r| <= i < |s| ==> IsWhitespace(s[i])
    ensures |r| > 0 ==> !IsWhitespace(r[|r| - 1])
  {
    if |s| > 0 && IsWhitespace(s[|s| - 1]) then TrimEnd(s[..|s| - 1]) else s
  }

  /** `r` is the piece of `s` starting at `k`, with only white space
      before it and after it. */
  predicate PieceBetweenWhitespace(s: string, k: int, r: string) {
    && 0 <= k && k + |r| <= |s| && r == s[k..k + |r|]
    && (forall i :: 0 <= i < k ==> IsWhitespace(s[i]))
    && (forall i :: k + |r| <= i < |s| ==> IsWhitespace(s[i]))
  }

  /** `String.prototype.trim`: `s` without its leading and trailing white
      space. The result is a piece of `s` with only white space around it,
      and it neither starts nor ends with white space; together these fix
      it uniquely. */
  function Trim(s: string): (r: string)
    ensures |r| <= |s|
    ensures exists k :: PieceBetweenWhitespace(s, k, r)
    ensures |r| > 0 ==> !IsWhitespace(r[0]) && !IsWhitespace(r[|r| - 1])
  {
    var t := TrimStart(s);
    var r := TrimEnd(t);
    TrimPiece(s, t, r);
    r
  }

  /** The piece `TrimEnd(TrimStart(s))` cuts out, at the offset the leading
      white space ends. */
  lemma TrimPiece(s: string, t: string, r: string)
    requires |t| <= |s| && t == s[|s| - |t|..]
    requires forall i :: 0 <= i < |s| - |t| ==> IsWhitespace(s[i])
    requires |r| <= |t| && r == t[..|r|]
    requires forall i :: |r| <= i < |t| ==> IsWhitespace(t[i])
    ensures PieceBetweenWhitespace(s, |s| - |t|, r)
    ensures |r| > 0 ==> r[0] == t[0]
  {
    var k := |s| - |t|;
    assert r == t[..|r|];
    assert t == s[k..];
    assert r == s[k..k + |r|];
    forall i | k + |r| <= i < |s|
      ensures IsWhitespace(s[i])
    {
      assert s[i] == t[i - k];
    }
  }

  /** A string that neither starts nor ends with white space is its own trim. */
  lemma TrimKeepsClean(s: string)
    requires |s| > 0 && !IsWhitespace(s[0]) && !IsWhitespace(s[|s| - 1])
    ensures Trim(s) == s
  {
  }

  /** `charAt(0)`: the first character, or "" for an empty string. */
  function FirstLetter(s: string): (r: string)
    ensures |s| > 0 ==> r == [s[0]]
    ensures |s| == 0 ==> r == ""
  {
    if |s| == 0 then "" else s[..1]
  }

  const NoTeacher: string := "—"

  /** `formatTeacher`: "Lastname F." and " M." after it when a middle name
      is given, trimmed; "—" when there is no teacher. */
  function FormatTeacher(t: Option<TeacherRef>): (r: string)
    ensures t.None? ==> r == NoTeacher
    ensures t.Some? ==> |r| > 0 && r[|r| - 1] == '.'
  {
    match t
    case None => NoTeacher
    case Some(teacher) =>
      var middle := if teacher.middleName.Some? && teacher.middleName.value != "" then " " + FirstLetter(teacher.middleName.value) + "." else "";
      var s := teacher.lastName + " " + FirstLetter(teacher.firstName) + "." + middle;
      assert s[|s| - 1] == '.';
      Trim(s)
  }

  /** With a last name that does not start with white space the trim
      changes nothing: the result is exactly last name, space, initial,
      dot, and the middle initial when there is one. */
  lemma FormatTeacherShape(t: TeacherRef)
    requires t.lastName != "" && !IsWhitespace(t.lastName[0])
    ensures var middle := if t.middleName.Some? && t.middleName.value != "" then " " + FirstLetter(t.middleName.value) + "." else "";
      FormatTeacher(Some(t)) == t.lastName + " " + FirstLetter(t.firstName) + "." + middle
  {
    var middle := if t.middleName.Some? && t.middleName.value != "" then " " + FirstLetter(t.middleName.value) + "." else "";
    var s := t.lastName + " " + FirstLetter(t.firstName) + "." + middle;
    assert s[0] == t.lastName[0] && s[|s| - 1] == '.';
    TrimKeepsClean(s);
  }

  /** With an empty last name and a first name that starts with a letter
      the leading space is trimmed away: "F." and " M." after it. */
  lemma FormatTeacherEmptyLastName(t: TeacherRef)
    requires t.lastName == "" && t.firstName != "" && !IsWhitespace(t.firstName[0])
    ensures var middle := if t.middleName.Some? && t.middleName.value != "" then " " + FirstLetter(t.middleName.value) + "." else "";
      FormatTeacher(Some(t)) == FirstLetter(t.firstName) + "." + middle
  {
    var middle := if t.middleName.Some? && t.middleName.value != "" then " " + FirstLetter(t.middleName.value) + "." else "";
    var clean := FirstLetter(t.firstName) + "." + middle;
    assert t.lastName + " " + FirstLetter(t.firstName) + "." + middle == " " + clean;
    assert clean[0] == t.firstName[0] && clean[|clean| - 1] == '.';
    TrimLeadingSpace(clean);
  }

  /** One space in front of a clean text is trimmed off. */
  lemma TrimLeadingSpace(c: string)
    requires |c| > 0 && !IsWhitespace(c[0]) && !IsWhitespace(c[|c| - 1])
    ensures Trim(" " + c) == c
  {
    assert (" " + c)[1..] == c;
    assert TrimStart(" " + c) == TrimStart(c) == c;
  }

  // --------------------------------------------------- subjects with grades

  datatype SubjectWithGrades = SubjectWithGrades(subject: SubjectListItem, grades: seq<int>, average: real, teacherFormatted: string)

  function GradeValues(gs: seq<GradeItem>): (vs: seq<int>)
    ensures |vs| == |gs| && forall i :: 0 <= i < |gs| ==> vs[i] == gs[i].value
  {
    if |gs| == 0 then [] else [gs[0].value] + GradeValues(gs[1..])
  }

  /** One subject with its cached grades: a missing entry counts as []. */
  function WithGrades(subject: SubjectListItem, c: GradeCache): (r: SubjectWithGrades)
    ensures r.subject == subject && r.teacherFormatted == FormatTeacher(subject.teacher)
    ensures Lookup(c, subject.id).None? ==> r.grades == [] && r.average == 0.0
    ensures Lookup(c, subject.id).Some? ==>
      var list := Lookup(c, subject.id).value;
      && |r.grades| == |list|
      && (forall j :: 0 <= j < |list| ==> r.grades[j] == list[j].value)
      && r.average * (|list| as real) == Sum(list) as real
  {
    var list := Lookup(c, subject.id).GetOr([]);
    SubjectWithGrades(subject, GradeValues(list), ComputeFromGrades(list).average, FormatTeacher(subject.teacher))
  }

  /** `getSubjectsWithGrades`: one entry per subject, in the given order. */
  function GetSubjectsWithGrades(subjects: seq<SubjectListItem>, c: GradeCache): (r: seq<SubjectWithGrades>)
    ensures |r| == |subjects|
    ensures forall i :: 0 <= i < |r| ==> r[i].subject == subjects[i]
    ensures forall i :: 0 <= i < |r| ==> r[i] == WithGrades(subjects[i], c)
  {
    seq(|subjects|, i requires 0 <= i < |subjects| => WithGrades(subjects[i], c))
  }

  // ------------------------------------------------------------------ store

  const LoadFailed: string := "Ошибка загрузки оценок"

  /** `err instanceof Error ? err.message : 'Ошибка загрузки оценок'`. */
  function ErrorText(e: Thrown): (m: string)
    ensures e.NonError? ==> m == LoadFailed
    ensures !e.NonError? ==> m == e.message
  {
    if e.NonError? then LoadFailed else e.message
  }

  /** What one subject's fetch leaves in the cache when it is caught per
      subject: the grades fetched, or [] on failure. */
  function FetchedOrEmpty(o: Result<seq<GradeItem>, Thrown>): (gs: seq<GradeItem>)
    ensures o.Success? ==> gs == o.value
    ensures o.Failure? ==> gs == []
  {
    match o
    case Success(gs) => gs
    case Failure(_) => []
  }

  /** The cache after a batch of per-subject fetches, applied in order. */
  function ApplyFetches(c: GradeCache, subjects: seq<SubjectListItem>, outcomes: seq<Result<seq<GradeItem>, Thrown>>): (r: GradeCache)
    requires |outcomes| == |subjects|
    ensures DistinctKeys(c) ==> DistinctKeys(r)
  {
    if |subjects| == 0 then c
    else
      var n := |subjects| - 1;
      var before := ApplyFetches(c, subjects[..n], outcomes[..n]);
      if DistinctKeys(c) then
        PutKeepsDistinct(before, subjects[n].id, FetchedOrEmpty(outcomes[n]));
        Put(before, subjects[n].id, FetchedOrEmpty(outcomes[n]))
      else
        Put(before, subjects[n].id, FetchedOrEmpty(outcomes[n]))
  }

  /** No later subject of the batch has the id of subject `i`. */
  predicate LastWithId(subjects: seq<SubjectListItem>, i: nat)
    requires i < |subjects|
  {
    forall j :: i < j < |subjects| ==> subjects[j].id != subjects[i].id
  }

  /** The last fetch of a batch is a `Put` on the cache the others left. */
  lemma ApplyFetchesLast(c: GradeCache, subjects: seq<SubjectListItem>, outcomes: seq<Result<seq<GradeItem>, Thrown>>)
    requires |outcomes| == |subjects| > 0
    ensures var n := |subjects| - 1;
      ApplyFetches(c, subjects, outcomes) == Put(ApplyFetches(c, subjects[..n], outcomes[..n]), subjects[n].id, FetchedOrEmpty(outcomes[n]))
  {
  }

  /** A subject that no later subject of the batch repeats ends with what
      its own fetch gave. */
  lemma {:induction false} LastFetchWins(c: GradeCache, subjects: seq<SubjectListItem>, outcomes: seq<Result<seq<GradeItem>, Thrown>>, i: nat)
    requires |outcomes| == |subjects| && i < |subjects| && LastWithId(subjects, i)
    ensures Lookup(ApplyFetches(c, subjects, outcomes), subjects[i].id) == Some(FetchedOrEmpty(outcomes[i]))
  {
    var n := |subjects| - 1;
    var init, initOutcomes := subjects[..n], outcomes[..n];
    ApplyFetchesLast(c, subjects, outcomes);
    if i < n {
      var id := subjects[i].id;
      assert subjects[n].id != id;
      assert init[i] == subjects[i] && initOutcomes[i] == outcomes[i];
      assert LastWithId(init, i) by {
        forall j | i < j < n ensures init[j].id != init[i].id {
          assert init[j] == subjects[j];
        }
      }
      LastFetchWins(c, init, initOutcomes, i);
      assert Lookup(ApplyFetches(c, subjects, outcomes), id) == Lookup(ApplyFetches(c, init, initOutcomes), id);
    }
  }

  /** A key no subject of the batch has keeps its entry. */
  lemma {:induction false} UnfetchedUntouched(c: GradeCache, subjects: seq<SubjectListItem>, outcomes: seq<Result<seq<GradeItem>, Thrown>>, k: string)
    requires |outcomes| == |subjects|
    requires forall i :: 0 <= i < |subjects| ==> subjects[i].id != k
    ensures Lookup(ApplyFetches(c, subjects, outcomes), k) == Lookup(c, k)
  {
    if |subjects| > 0 {
      var n := |subjects| - 1;
      var init, initOutcomes := subjects[..n], outcomes[..n];
      ApplyFetchesLast(c, subjects, outcomes);
      assert forall i :: 0 <= i < n ==> init[i].id != k;
      UnfetchedUntouched(c, init, initOutcomes, k);
    }
  }

  /** Each subject ends with what its last fetch in the batch gave, the
      grades or [] on failure; every other key is untouched. With distinct
      ids that is every subject's own fetch; when an id repeats, the later
      outcome wins, as the writes are applied in list order. */
  lemma ApplyFetchesLookup(c: GradeCache, subjects: seq<SubjectListItem>, outcomes: seq<Result<seq<GradeItem>, Thrown>>)
    requires |outcomes| == |subjects|
    ensures forall i :: 0 <= i < |subjects| && LastWithId(subjects, i) ==>
      Lookup(ApplyFetches(c, subjects, outcomes), subjects[i].id) == Some(FetchedOrEmpty(outcomes[i]))
    ensures forall k :: (forall i :: 0 <= i < |subjects| ==> subjects[i].id != k) ==>
      Lookup(ApplyFetches(c, subjects, outcomes), k) == Lookup(c, k)
  {
    forall i | 0 <= i < |subjects| && LastWithId(subjects, i)
      ensures Lookup(ApplyFetches(c, subjects, outcomes), subjects[i].id) == Some(FetchedOrEmpty(outcomes[i]))
    {
      LastFetchWins(c, subjects, outcomes, i);
    }
    forall k | forall i :: 0 <= i < |subjects| ==> subjects[i].id != k
      ensures Lookup(ApplyFetches(c, subjects, outcomes), k) == Lookup(c, k)
    {
      UnfetchedUntouched(c, subjects, outcomes, k);
    }
  }

  class GradesStore {
    var gradesBySubject: GradeCache
    var isLoading: bool
    var loadingSubjectIds: set<string>
    var error: Option<string>

    ghost predicate Valid()
      reads this
    {
      DistinctKeys(gradesBySubject)
    }

    constructor()
      ensures Valid()
      ensures gradesBySubject == [] && !isLoading && loadingSubjectIds == {} && error == None
    {
      gradesBySubject := [];
      isLoading := false;
      loadingSubjectIds := {};
      error := None;
    }

    /** `setGradesForSubject`: replace one subject's list and clear the error. */
    method SetGradesForSubject(subjectId: string, grades: seq<GradeItem>)
      requires Valid()
      modifies this`gradesBySubject, this`error
      ensures Valid()
      ensures gradesBySubject == Put(old(gradesBySubject), subjectId, grades)
      ensures error == None
    {
      PutKeepsDistinct(gradesBySubject, subjectId, grades);
      gradesBySubject := Put(gradesBySubject, subjectId, grades);
      error := None;
    }

    /** `fetchGradesForSubject` given what the API call yields. The ghost
        results are the loading set and error while the call is awaited. */
    method FetchGradesForSubject(subjectId: string, outcome: Result<seq<GradeItem>, Thrown>)
      returns (ghost loadingDuring: set<string>, ghost errorDuring: Option<string>)
      requires Valid()
      modifies this`gradesBySubject, this`error, this`loadingSubjectIds
      ensures Valid()
      ensures subjectId in loadingDuring && loadingDuring == old(loadingSubjectIds) + {subjectId}
      ensures errorDuring == None
      ensures loadingSubjectIds == old(loadingSubjectIds) - {subjectId}
      ensures gradesBySubject == Put(old(gradesBySubject), subjectId, FetchedOrEmpty(outcome))
      ensures error == if outcome.Success? then None else Some(ErrorText(outcome.error))
    {
      loadingSubjectIds := loadingSubjectIds + {subjectId};
      error := None;
      loadingDuring, errorDuring := loadingSubjectIds, error;
      match outcome {
        case Success(grades) =>
          SetGradesForSubject(subjectId, grades);
        case Failure(e) =>
          error := Some(ErrorText(e));
          PutKeepsDistinct(gradesBySubject, subjectId, []);
          gradesBySubject := Put(gradesBySubject, subjectId, []);
      }
      loadingSubjectIds := loadingSubjectIds - {subjectId};
    }

    /** `fetchGradesForSubjects` given each subject's API outcome; the
        per-subject failures are caught, so nothing reaches the outer catch. */
    method FetchGradesForSubjects(subjects: seq<SubjectListItem>, outcomes: seq<Result<seq<GradeItem>, Thrown>>)
      returns (ghost loadingDuring: bool)
      requires Valid() && |outcomes| == |subjects|
      modifies this`gradesBySubject, this`error, this`isLoading
      ensures Valid() && loadingDuring
      ensures gradesBySubject == ApplyFetches(old(gradesBySubject), subjects, outcomes)
      ensures !isLoading && error == None
    {
      isLoading := true;
      error := None;
      loadingDuring := isLoading;
      for i := 0 to |subjects|
        invariant Valid() && error == None
        invariant gradesBySubject == ApplyFetches(old(gradesBySubject), subjects[..i], outcomes[..i])
      {
        assert subjects[..i + 1][..i] == subjects[..i] && outcomes[..i + 1][..i] == outcomes[..i];
        SetGradesForSubject(subjects[i].id, FetchedOrEmpty(outcomes[i]));
      }
      assert subjects[..|subjects|] == subjects && outcomes[..|outcomes|] == outcomes;
      isLoading := false;
    }

    method ClearError()
      modifies this`error
      ensures error == None
    {
      error := None;
    }
  }
}
