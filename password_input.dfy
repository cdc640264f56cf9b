/** The text input's password masking.

    A secure field never shows its real value: it shows one bullet per
    character. When the user edits that bullet display, the real password
    has to be recovered from the edited display, the previous real value
    and the display length before the edit. The pure part is the
    reconciliation; class `InputField` holds the component's state (its
    props, its visibility toggle and the `prevDisplayLenRef` ref). */
module PasswordInput {
  import opened Wrappers

  /** U+2022 BULLET. */
  const MaskChar: char := '\U{2022}'

  predicate MaskFree(s: string) {
    forall i :: 0 <= i < |s| ==> s[i] != MaskChar
  }

  /** `getMaskedDisplay(length)`. */
  function MaskedDisplay(length: nat): (r: string)
    ensures |r| == length
    ensures forall i :: 0 <= i < |r| ==> r[i] == MaskChar
  {
    if length == 0 then "" else MaskedDisplay(length - 1) + [MaskChar]
  }

  /** The `replace` of every mask character by nothing. */
  function RemoveMask(s: string): (r: string)
    ensures MaskFree(r)
    ensures |r| <= |s|
    ensures MaskFree(s) ==> r == s
    ensures multiset(r) == multiset(s)[MaskChar := 0]
  {
    if |s| == 0 then ""
    else
      var head := if s[0] == MaskChar then "" else [s[0]];
      assert s == [s[0]] + s[1..];
      head + RemoveMask(s[1..])
  }

  /** Removing the mask works piece by piece: together with the multiset
      clause above, the characters that are not bullets stay, in order. */
  lemma {:induction false} RemoveMaskConcat(a: string, b: string)
    ensures RemoveMask(a + b) == RemoveMask(a) + RemoveMask(b)
  {
    if |a| == 0 {
      assert a + b == b;
    } else {
      assert (a + b)[0] == a[0];
      assert (a + b)[1..] == a[1..] + b;
      RemoveMaskConcat(a[1..], b);
    }
  }

  /** The equal-length case: walk the previous real value; a position that
      still shows a mask keeps the real character, any other takes what the
      display shows there. Positions past the end of the display map to
      `undefined`, which `join` prints as nothing. */
  function MergeMasked(prevReal: string, newDisplay: string): (r: string)
    ensures |r| == if |prevReal| <= |newDisplay| then |prevReal| else |newDisplay|
    ensures forall i :: 0 <= i < |r| ==> r[i] == if newDisplay[i] == MaskChar then prevReal[i] else newDisplay[i]
  {
    if |prevReal| == 0 || |newDisplay| == 0 then ""
    else
      [if newDisplay[0] == MaskChar then prevReal[0] else newDisplay[0]]
      + MergeMasked(prevReal[1..], newDisplay[1..])
  }

  /** `deriveRealPasswordFromChange(newDisplay, prevReal, prevDisplayLen)`. */
  function DeriveRealPassword(newDisplay: string, prevReal: string, prevDisplayLen: nat): (r: string)
    ensures |newDisplay| == 0 ==> r == ""
    ensures MaskFree(newDisplay) ==> r == newDisplay
    ensures !MaskFree(newDisplay) && |newDisplay| > prevDisplayLen ==>
      r == prevReal + RemoveMask(newDisplay[prevDisplayLen..])
    ensures !MaskFree(newDisplay) && |newDisplay| < prevDisplayLen ==>
      r == if |newDisplay| <= |prevReal| then prevReal[..|newDisplay|] else prevReal
    ensures !MaskFree(newDisplay) && |newDisplay| == prevDisplayLen ==> r == MergeMasked(prevReal, newDisplay)
  {
    if |newDisplay| == 0 then ""
    else if MaskFree(newDisplay) then newDisplay
    else if |newDisplay| > prevDisplayLen then prevReal + RemoveMask(newDisplay[prevDisplayLen..])
    else if |newDisplay| < prevDisplayLen then (if |newDisplay| <= |prevReal| then prevReal[..|newDisplay|] else prevReal)
    else MergeMasked(prevReal, newDisplay)
  }

  /** Typing mask-free characters after the masked display of `p` appends
      exactly them to `p`. */
  lemma AppendRoundTrip(p: string, s: string)
    requires MaskFree(s)
    ensures DeriveRealPassword(MaskedDisplay(|p|) + s, p, |p|) == p + s
  {
    var d := MaskedDisplay(|p|) + s;
    if |p| == 0 {
      assert d == s;
    } else {
      assert d[0] == MaskChar;
      if |s| == 0 {
        assert d == MaskedDisplay(|p|);
        MergeUnchanged(p);
      } else {
        assert d[|p|..] == s;
      }
    }
  }

  /** Deleting from the end of the masked display keeps the matching prefix
      of the real password; deleting nothing keeps all of it. */
  lemma {:induction false} TruncateRecoversPrefix(p: string, k: nat)
    requires k <= |p|
    ensures DeriveRealPassword(MaskedDisplay(k), p, |p|) == p[..k]
  {
    if k == 0 {
    } else if k == |p| {
      assert MaskedDisplay(k)[0] == MaskChar;
      MergeUnchanged(p);
      assert p[..k] == p;
    } else {
      assert MaskedDisplay(k)[0] == MaskChar;
    }
  }

  /** An unchanged masked display gives back the previous real value. */
  lemma UnchangedIsIdempotent(p: string)
    ensures DeriveRealPassword(MaskedDisplay(|p|), p, |p|) == p
  {
    TruncateRecoversPrefix(p, |p|);
    assert p[..|p|] == p;
  }

  lemma MergeUnchanged(p: string)
    ensures MergeMasked(p, MaskedDisplay(|p|)) == p
  {
    var r := MergeMasked(p, MaskedDisplay(|p|));
    assert |r| == |p|;
    assert forall i :: 0 <= i < |r| ==> r[i] == p[i];
  }

  /** Replacing characters of an equally long masked display: each position
      still showing a mask keeps the old character, each other position takes
      the typed one. */
  lemma EqualLengthReplacesPointwise(newDisplay: string, p: string)
    requires |newDisplay| == |p| && !MaskFree(newDisplay)
    ensures var r := DeriveRealPassword(newDisplay, p, |p|);
      && |r| == |p|
      && forall i :: 0 <= i < |p| ==> r[i] == if newDisplay[i] == MaskChar then p[i] else newDisplay[i]
  {
  }

  /** The state of one input component. `value` is the prop its parent
      passes; `prevDisplayLen` is `prevDisplayLenRef.current`;
      `renderedDisplayLen` is the display length of the last render, which
      the effect's dependency list compares against. */
  class InputField {
    const isPassword: bool
    const hasOnChangeText: bool
    var isPasswordVisible: bool
    var value: string
    var prevDisplayLen: nat
    var renderedDisplayLen: nat

    /** The displayed text is masked. */
    predicate IsSecure()
      reads this
    {
      isPassword && !(isPassword && isPasswordVisible)
    }

    function DisplayValue(): (d: string)
      reads this
      ensures IsSecure() ==> d == MaskedDisplay(|value|)
      ensures !IsSecure() ==> d == value
      ensures |d| == |value|
    {
      if IsSecure() then MaskedDisplay(|value|) else value
    }

    /** The last render drew the current display. */
    ghost predicate Valid()
      reads this
    {
      renderedDisplayLen == |DisplayValue()|
    }

    /** Mount: the effect runs once and records the display length. A
        missing or non-string `value` is passed as "". */
    constructor(secureTextEntryGiven: bool, onChangeTextGiven: bool, initialValue: string)
      ensures Valid()
      ensures isPassword == secureTextEntryGiven && hasOnChangeText == onChangeTextGiven
      ensures !isPasswordVisible && value == initialValue
      ensures prevDisplayLen == |initialValue|
      ensures secureTextEntryGiven ==> DisplayValue() == MaskedDisplay(|initialValue|)
    {
      isPassword := secureTextEntryGiven;
      hasOnChangeText := onChangeTextGiven;
      isPasswordVisible := false;
      value := initialValue;
      prevDisplayLen := |initialValue|;
      renderedDisplayLen := |initialValue|;
    }

    /** A render with a new `value` prop; the effect runs only when the
        display length changed. */
    method Render(newValue: string)
      modifies this`value, this`prevDisplayLen, this`renderedDisplayLen
      ensures Valid() && value == newValue
      ensures prevDisplayLen == if |newValue| != old(renderedDisplayLen) then |newValue| else old(prevDisplayLen)
    {
      value := newValue;
      var len := |DisplayValue()|;
      if len != renderedDisplayLen {
        prevDisplayLen := len;
      }
      renderedDisplayLen := len;
    }

    /** The eye button flips visibility; the display length does not change,
        so the effect does not run. */
    method TogglePasswordVisibility()
      requires isPassword && Valid()
      modifies this`isPasswordVisible
      ensures Valid()
      ensures isPasswordVisible == !old(isPasswordVisible)
      ensures IsSecure() == !old(IsSecure())
    {
      isPasswordVisible := !isPasswordVisible;
    }

    /** `handleChangeText(text)`: what is forwarded to the parent's
        `onChangeText`, if anything. */
    method HandleChangeText(text: string) returns (forwarded: Option<string>)
      modifies this`prevDisplayLen
      ensures !hasOnChangeText ==> forwarded == None && prevDisplayLen == old(prevDisplayLen)
      ensures hasOnChangeText && !IsSecure() ==> forwarded == Some(text) && prevDisplayLen == old(prevDisplayLen)
      ensures hasOnChangeText && IsSecure() ==>
        && forwarded == Some(DeriveRealPassword(text, value, old(prevDisplayLen)))
        && prevDisplayLen == |forwarded.value|
    {
      if !hasOnChangeText {
        return None;
      }
      if !IsSecure() || (isPassword && isPasswordVisible) {
        return Some(text);
      }
      var newReal := DeriveRealPassword(text, value, prevDisplayLen);
      prevDisplayLen := |newReal|;
      forwarded := Some(newReal);
    }
  }

  /** A parent that stores what it is given keeps the ref equal to the real
      value's length: after an edit of the masked display and the re-render
      that follows, the next edit compares against the right length. */
  method TypeIntoSecureField(field: InputField, text: string)
    requires field.Valid() && field.hasOnChangeText && field.IsSecure()
    modifies field
    ensures field.Valid() && field.IsSecure()
    ensures field.value == DeriveRealPassword(text, old(field.value), old(field.prevDisplayLen))
    ensures field.prevDisplayLen == |field.value| == |field.DisplayValue()|
  {
    var forwarded := field.HandleChangeText(text);
    field.Render(forwarded.value);
  }
}
