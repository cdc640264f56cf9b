/** The rules of one grade card: whether its comment is shown, collapsed
    to one line, and whether pressing it does anything. */
module GradeCard {
  import opened Wrappers
  import opened SubjectEntries

  /** A comment is long beyond this many characters. */
  const LongCommentLength: nat := 50

  /** The card's props; `hasCommentPress` says whether the parent passed
      `onCommentPress`. */
  datatype CardProps = CardProps(entry: GradeEntry, isCommentExpanded: bool, hasCommentPress: bool)

  /** The props with `isCommentExpanded` omitted or given. */
  function WithDefaults(entry: GradeEntry, isCommentExpanded: Option<bool>, hasCommentPress: bool): (p: CardProps)
    ensures p.entry == entry && p.hasCommentPress == hasCommentPress
    ensures isCommentExpanded.None? ==> !p.isCommentExpanded
    ensures isCommentExpanded.Some? ==> p.isCommentExpanded == isCommentExpanded.value
  {
    CardProps(entry, isCommentExpanded.GetOr(false), hasCommentPress)
  }

  /** `Boolean(entry.comment)`: present and not empty. */
  predicate HasComment(e: GradeEntry) {
    e.comment.Some? && e.comment.value != ""
  }

  predicate IsLongComment(e: GradeEntry) {
    HasComment(e) && |e.comment.value| > LongCommentLength
  }

  predicate NeedsCollapse(p: CardProps) {
    IsLongComment(p.entry) && !p.isCommentExpanded
  }

  /** What the comment block shows. */
  datatype CommentView = NoComment | Collapsed(text: string) | Full(text: string)

  function CommentViewOf(p: CardProps): (v: CommentView)
    ensures v.NoComment? <==> !HasComment(p.entry)
    ensures v.Collapsed? <==> NeedsCollapse(p)
    ensures !v.NoComment? ==> v.text == p.entry.comment.value
    ensures v.Collapsed? ==> |v.text| > LongCommentLength
  {
    if !HasComment(p.entry) then NoComment
    else if NeedsCollapse(p) then Collapsed(p.entry.comment.value)
    else Full(p.entry.comment.value)
  }

  /** The `onPress` handler: the id it reports to `onCommentPress`, or
      `None` when no handler is attached. The `needsCollapse ||
      isCommentExpanded` factor always holds for a long comment. */
  function PressHandler(p: CardProps): (r: Option<string>)
    ensures r.Some? <==> IsLongComment(p.entry) && p.hasCommentPress
    ensures r.Some? ==> r.value == p.entry.id
  {
    if IsLongComment(p.entry) && (NeedsCollapse(p) || p.isCommentExpanded) && p.hasCommentPress
    then Some(p.entry.id)
    else None
  }

  /** `disabled`: exactly when no handler is attached. */
  function Disabled(p: CardProps): (d: bool)
    ensures d <==> PressHandler(p).None?
  {
    !IsLongComment(p.entry) || !p.hasCommentPress
  }

  /** A short comment is always shown whole and never pressable. */
  lemma ShortCommentIsInert(p: CardProps)
    requires HasComment(p.entry) && !IsLongComment(p.entry)
    ensures CommentViewOf(p) == Full(p.entry.comment.value)
    ensures Disabled(p)
  {
  }
}
