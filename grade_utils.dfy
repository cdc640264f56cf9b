/** The shared grade helpers: the colour band of a grade or an average,
    and the word for a grade. */
module GradeUtils {

  /** The four colours of the palette's `grades` group. */
  datatype GradeBand = Excellent | Good | Satisfactory | Poor

  /** The palette entries the bands pick from. */
  datatype GradePalette = GradePalette(excellent: string, good: string, satisfactory: string, poor: string)

  /** Poor is lowest, excellent highest. */
  function Rank(b: GradeBand): (n: nat)
    ensures n < 4
  {
    match b
    case Poor => 0
    case Satisfactory => 1
    case Good => 2
    case Excellent => 3
  }

  /** The thresholds of `getGradeColor`. */
  function BandOf(grade: real): (b: GradeBand)
    ensures b == Excellent <==> grade >= 4.5
    ensures b == Good <==> 3.5 <= grade < 4.5
    ensures b == Satisfactory <==> 2.5 <= grade < 3.5
    ensures b == Poor <==> grade < 2.5
  {
    if grade >= 4.5 then Excellent
    else if grade >= 3.5 then Good
    else if grade >= 2.5 then Satisfactory
    else Poor
  }

  function BandColor(palette: GradePalette, b: GradeBand): string {
    match b
    case Excellent => palette.excellent
    case Good => palette.good
    case Satisfactory => palette.satisfactory
    case Poor => palette.poor
  }

  /** `getGradeColor(grade, palette)`. */
  function GetGradeColor(grade: real, palette: GradePalette): (c: string)
    ensures c == BandColor(palette, BandOf(grade))
  {
    if grade >= 4.5 then palette.excellent
    else if grade >= 3.5 then palette.good
    else if grade >= 2.5 then palette.satisfactory
    else palette.poor
  }

  /** A higher grade never gets a worse band. */
  lemma BandMonotone(a: real, b: real)
    requires a <= b
    ensures Rank(BandOf(a)) <= Rank(BandOf(b))
  {
  }

  /** The whole grades: 5, 4 and 3 get their own band; 2 and 1 are poor. */
  lemma IntegerGradeBands()
    ensures BandOf(5.0) == Excellent && BandOf(4.0) == Good && BandOf(3.0) == Satisfactory
    ensures BandOf(2.0) == Poor && BandOf(1.0) == Poor
  {
  }

  /** JavaScript's `Math.round`: to the nearest integer, halves upwards. */
  function JsRound(x: real): (n: int)
    ensures n as real - 0.5 <= x < n as real + 0.5
  {
    (x + 0.5).Floor
  }

  /** A whole number rounds to itself. */
  lemma JsRoundInteger(n: int)
    ensures JsRound(n as real) == n
  {
  }

  /** `GRADE_LABELS`. */
  const GradeLabels: map<int, string> := map[
    5 := "Отлично",
    4 := "Хорошо",
    3 := "Удовлетворительно",
    2 := "Неудовлетворительно"]

  const NoLabel: string := "—"

  /** `getGradeLabel(grade)`: the label of the rounded grade; only 2 to 5
      have one. */
  function GetGradeLabel(grade: real): (r: string)
    ensures r == "Отлично" <==> 4.5 <= grade < 5.5
    ensures r == "Хорошо" <==> 3.5 <= grade < 4.5
    ensures r == "Удовлетворительно" <==> 2.5 <= grade < 3.5
    ensures r == "Неудовлетворительно" <==> 1.5 <= grade < 2.5
    ensures r == NoLabel <==> grade < 1.5 || grade >= 5.5
  {
    var n := JsRound(grade);
    if n in GradeLabels then GradeLabels[n] else NoLabel
  }

  /** Halves round up: 4.5 is already "excellent". */
  lemma HalvesRoundUp()
    ensures GetGradeLabel(4.5) == "Отлично" && GetGradeLabel(3.5) == "Хорошо"
    ensures GetGradeLabel(2.5) == "Удовлетворительно" && GetGradeLabel(1.5) == "Неудовлетворительно"
    ensures GetGradeLabel(5.5) == NoLabel
  {
  }

  /** The word for a band. */
  function BandLabel(b: GradeBand): string {
    match b
    case Excellent => "Отлично"
    case Good => "Хорошо"
    case Satisfactory => "Удовлетворительно"
    case Poor => "Неудовлетворительно"
  }

  /** The label's rounding and the colour thresholds cut at the same
      points, so a card's word and colour agree wherever a word exists. */
  lemma LabelAgreesWithColor(grade: real)
    requires GetGradeLabel(grade) != NoLabel
    ensures GetGradeLabel(grade) == BandLabel(BandOf(grade))
  {
  }
}
