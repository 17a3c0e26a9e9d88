/**
  The character avatar and its initials.

  `getInitials` splits the name on single spaces.  With more than one piece
  it concatenates `words[0][0]` and `words[1][0]`; with one piece it takes
  the first two characters.  Either way the result is upper-cased.  An empty
  piece (a leading, trailing or doubled space) has no character 0, so
  JavaScript concatenates `undefined`: as written, the avatar then shows the
  letters UNDEFINED, and when both pieces are empty `undefined + undefined`
  is the number NaN, whose missing `toUpperCase` throws.
  `InitialsAsWritten` models exactly that; `Initials` is the evident intent,
  where an empty piece contributes nothing.
*/
module CharacterAvatar {
  import opened Wrappers
  import opened Text

  /** `name.substring(0, 2)`. */
  function FirstTwo(name: string): (r: string)
    ensures |r| == if |name| < 2 then |name| else 2
    ensures r == name[..|r|]
  {
    name[..if |name| < 2 then |name| else 2]
  }

  /** What `w[0]` contributes to a string concatenation in JavaScript. */
  function ConcatFirstChar(w: string): string
  {
    if w == "" then "undefined" else [w[0]]
  }

  /** `getInitials` as written; `None` is the TypeError thrown when both pieces are empty. */
  function InitialsAsWritten(name: string): (r: Option<string>)
    ensures r.Some? ==> |r.value| <= 10
  {
    var words := Split(name, ' ');
    if |words| > 1 then
      if words[0] == "" && words[1] == "" then None
      else Some(Upper(ConcatFirstChar(words[0]) + ConcatFirstChar(words[1])))
    else Some(Upper(FirstTwo(name)))
  }

  /** The first character of a piece, or nothing for an empty piece. */
  function Initial(w: string): (r: string)
    ensures |r| <= 1
    ensures w != "" ==> r == [w[0]]
  {
    w[..if w == "" then 0 else 1]
  }

  /** `getInitials` as intended: at most two upper-cased initials, never an error. */
  function Initials(name: string): (r: string)
    ensures |r| <= 2
    ensures forall i :: 0 <= i < |r| ==> !('a' <= r[i] <= 'z')
  {
    var words := Split(name, ' ');
    if |words| > 1 then Upper(Initial(words[0]) + Initial(words[1]))
    else Upper(FirstTwo(name))
  }

  /** The first two pieces of `name` split on spaces are both non-empty. */
  predicate LeadingPiecesNonEmpty(name: string)
  {
    var words := Split(name, ' ');
    |words| > 1 && words[0] != "" && words[1] != ""
  }

  /**
    The code as written and the intended initials agree exactly when the
    name has no space, or its first two pieces are non-empty.
  */
  lemma AsWrittenAgreement(name: string)
    ensures InitialsAsWritten(name) == Some(Initials(name)) <==>
              ' ' !in name || LeadingPiecesNonEmpty(name)
  {
    var words := Split(name, ' ');
    if ' ' !in name {
      SplitWithoutSeparator(name, ' ');
    } else {
      assert Count(name, ' ') > 0 by { CountPositive(name, ' '); }
      if words[0] == "" && words[1] != "" {
        assert |Upper(ConcatFirstChar(words[0]) + ConcatFirstChar(words[1]))| == 10;
      } else if words[0] != "" && words[1] == "" {
        assert |Upper(ConcatFirstChar(words[0]) + ConcatFirstChar(words[1]))| == 10;
      }
    }
  }

  lemma {:induction false} CountPositive(s: string, c: char)
    requires c in s
    ensures Count(s, c) > 0
  {
    if s[0] != c {
      CountPositive(s[1..], c);
    }
  }

  /** A piece without the separator up to the next separator (or the end) is the first piece. */
  lemma FirstPiece(w: string, rest: string, sep: char)
    requires sep !in w
    requires rest == "" || rest[0] == sep
    ensures Split(w + rest, sep)[0] == w
  {
    if rest == "" {
      assert w + rest == w;
      SplitWithoutSeparator(w, sep);
    } else {
      assert w + rest == w + [sep] + rest[1..];
      SplitLeadingPiece(w, rest[1..], sep);
    }
  }

  /**
    A name made of a first word, a space and a second word (then nothing,
    or more space-separated words) gives the two upper-cased initials.
  */
  lemma TwoWordInitials(first: string, second: string, rest: string)
    requires first != "" && second != ""
    requires ' ' !in first && ' ' !in second
    requires rest == "" || rest[0] == ' '
    ensures Initials(first + " " + second + rest) == [UpperChar(first[0]), UpperChar(second[0])]
    ensures InitialsAsWritten(first + " " + second + rest) == Some([UpperChar(first[0]), UpperChar(second[0])])
  {
    var name := first + " " + second + rest;
    assert name == first + [' '] + (second + rest);
    SplitLeadingPiece(first, second + rest, ' ');
    FirstPiece(second, rest, ' ');
    var words := Split(name, ' ');
    assert words[0] == first && words[1] == second;
  }

  /** A name without a space gives its first two characters, upper-cased. */
  lemma OneWordInitials(name: string)
    requires ' ' !in name
    ensures Initials(name) == Upper(FirstTwo(name))
    ensures InitialsAsWritten(name) == Some(Upper(FirstTwo(name)))
  {
    SplitWithoutSeparator(name, ' ');
  }

  /** The empty name gives no initials, and the renderer's fallback name `'?'` gives `'?'`. */
  lemma FallbackInitials()
    ensures Initials("") == "" && InitialsAsWritten("") == Some("")
    ensures Initials("?") == "?" && InitialsAsWritten("?") == Some("?")
  {
    OneWordInitials("");
    OneWordInitials("?");
  }

  /** Inputs on which the code as written misbehaves, with what was intended. */
  lemma AsWrittenCounterexamples()
    ensures InitialsAsWritten(" Ava") == Some("UNDEFINEDA") && Initials(" Ava") == "A"
    ensures InitialsAsWritten("Ava ") == Some("AUNDEFINED") && Initials("Ava ") == "A"
    ensures InitialsAsWritten(" ") == None && Initials(" ") == ""
  {
    SplitLeadingPiece("", "Ava", ' ');
    SplitWithoutSeparator("Ava", ' ');
    assert " Ava" == "" + [' '] + "Ava";
    assert Split(" Ava", ' ') == ["", "Ava"];
    UpperUndefined("undefined" + "A", "UNDEFINEDA");
    SplitLeadingPiece("Ava", "", ' ');
    SplitWithoutSeparator("", ' ');
    assert "Ava " == "Ava" + [' '] + "";
    assert Split("Ava ", ' ') == ["Ava", ""];
    UpperUndefined("A" + "undefined", "AUNDEFINED");
    SplitLeadingPiece("", "", ' ');
    assert " " == "" + [' '] + "";
  }

  lemma UpperUndefined(s: string, u: string)
    requires |s| == |u| == 10
    requires forall i :: 0 <= i < 10 ==> UpperChar(s[i]) == u[i]
    ensures Upper(s) == u
  {
  }

  /** The props of `CharacterAvatar`. */
  datatype AvatarProps = AvatarProps(name: string, color: string)

  /**
    The text the avatar circle shows: `getInitials` as written, so `None`
    when rendering throws.  It is the intended initials, at most two
    characters, when the name has no space or its first two pieces are
    non-empty; otherwise it may show up to ten characters.
  */
  function AvatarText(props: AvatarProps): (t: Option<string>)
    ensures t.Some? ==> |t.value| <= 10
    ensures ' ' !in props.name || LeadingPiecesNonEmpty(props.name) ==>
              t == Some(Initials(props.name)) && |t.value| <= 2
  {
    AsWrittenAgreement(props.name);
    InitialsAsWritten(props.name)
  }
}
