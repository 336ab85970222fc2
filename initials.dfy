/**
 * The avatar initials of a farmer's name (`getInitials`), shared by the chat
 * window (components/shared/chatbot.tsx), whose fallback is `F`, and the user
 * menu (components/dashboard/user-nav.tsx), whose fallback is `..`.
 *
 * The helper splits the name on single spaces and reads the first character
 * of the first and the last piece. A name with an empty piece (a leading,
 * trailing or doubled space) makes that character `undefined`, which the
 * template literal writes out as the word `undefined`. `InitialsAsWritten`
 * models that; `Initials` reads the first letters of the first and last
 * non-empty words, as the helper evidently intends, and is what the pages use
 * in this model.
 */
module NameInitials {
  import opened Text
  import opened Lists

  /** `names[k][0]` in a template literal: the first character, or `undefined` for an empty piece. */
  function FirstLetterAsWritten(w: string): string {
    if w == "" then "undefined" else [w[0]]
  }

  /** `getInitials` as written. */
  function InitialsAsWritten(name: Option<string>, fallback: string): string {
    if name.None? || name.value == "" then fallback
    else
      var names := Split(name.value, ' ');
      if |names| > 1 then ToUpper(FirstLetterAsWritten(names[0]) + FirstLetterAsWritten(names[|names| - 1]))
      else ToUpper(Take(name.value, 2))
  }

  predicate NonEmpty(w: string) {
    w != ""
  }

  /** The words of a name: the pieces between spaces that are not empty. */
  function Words(name: string): (r: seq<string>)
    ensures forall k :: 0 <= k < |r| ==> r[k] != "" && ' ' !in r[k]
  {
    var pieces := Split(name, ' ');
    var r := Filter(NonEmpty, pieces);
    forall k | 0 <= k < |r|
      ensures ' ' !in r[k]
    {
      FilterMembers(NonEmpty, pieces, r[k]);
    }
    r
  }

  /**
   * The initials: the fallback for a missing name or one without words; else
   * the first letters of the first and the last word when there are several,
   * or the first two characters of the only word, upper-cased.
   */
  function Initials(name: Option<string>, fallback: string): (r: string)
    ensures name.None? || Words(name.value) == [] ==> r == fallback
    ensures name.Some? && |Words(name.value)| >= 2 ==>
      var w := Words(name.value);
      r == [UpperChar(w[0][0]), UpperChar(w[|w| - 1][0])]
    ensures name.Some? && |Words(name.value)| == 1 ==>
      var w := Words(name.value)[0];
      |r| == (if |w| < 2 then |w| else 2) && r == ToUpper(w[..|r|])
    ensures name.Some? && Words(name.value) != [] ==> 1 <= |r| <= 2 && ' ' !in r
  {
    var words := if name.None? then [] else Words(name.value);
    if words == [] then fallback
    else if |words| > 1 then ToUpper([words[0][0], words[|words| - 1][0]])
    else ToUpper(Take(words[0], 2))
  }

  /** A name that splits into one piece is that piece. */
  lemma OnePiece(s: string)
    requires |Split(s, ' ')| == 1
    ensures Split(s, ' ')[0] == s
  {
    JoinSplit(s, ' ');
  }

  /** Single spaces between words and none at either end: no piece of the split is empty. */
  predicate WellSpaced(name: string) {
    forall k :: 0 <= k < |Split(name, ' ')| ==> Split(name, ' ')[k] != ""
  }

  /**
   * On names with single spaces between words and none at either end, the
   * helper as written and the intended one agree.
   */
  lemma AgreeOnWellSpaced(name: string, fallback: string)
    requires WellSpaced(name)
    ensures InitialsAsWritten(Some(name), fallback) == Initials(Some(name), fallback)
  {
    var pieces := Split(name, ' ');
    FilterAll(NonEmpty, pieces);
    assert Words(name) == pieces;
    if |pieces| == 1 {
      OnePiece(name);
    }
  }

  /** A word followed by one space splits into the word and an empty piece. */
  lemma {:induction false} SplitTrailingSpace(w: string)
    requires ' ' !in w
    ensures Split(w + " ", ' ') == [w, ""]
  {
    if w == [] {
      assert w + " " == " ";
    } else {
      assert (w + " ")[1..] == w[1..] + " ";
      SplitTrailingSpace(w[1..]);
      assert [w[0]] + w[1..] == w;
    }
  }

  /** A trailing space: `Ravi ` shows `RUNDEFINED` as written. */
  lemma TrailingSpaceAsWritten()
    ensures InitialsAsWritten(Some("Ravi "), "F") == "RUNDEFINED"
  {
    SplitTrailingSpace("Ravi");
    assert "Ravi" + " " == "Ravi ";
    assert ToUpper("R" + "undefined") == "RUNDEFINED";
  }

  /** A trailing space: `Ravi ` shows `RA` as intended, as `Ravi` does. */
  lemma TrailingSpaceIntended()
    ensures Initials(Some("Ravi "), "F") == "RA"
  {
    SplitTrailingSpace("Ravi");
    assert "Ravi" + " " == "Ravi ";
    assert Filter(NonEmpty, ["Ravi", ""][1..]) == [];
    assert Words("Ravi ") == ["Ravi"];
    assert ToUpper("Ra") == "RA";
  }

  /** Spaces only: the intended helper falls back, the helper as written shows `UNDEFINEDUNDEFINED`. */
  lemma OnlySpaces()
    ensures InitialsAsWritten(Some(" "), "..") == "UNDEFINEDUNDEFINED"
    ensures Initials(Some(" "), "..") == ".."
  {
    assert Split(" ", ' ') == ["", ""];
    assert Filter(NonEmpty, ["", ""][1..]) == [];
    assert ToUpper("undefined" + "undefined") == "UNDEFINEDUNDEFINED";
  }
}
