/**
 * The avatar shown in the top navigation bar and on the profile page: the
 * name it stands for and the initials drawn in it. Both places define the
 * same `getInitials` and pass it the same name.
 */
module Avatar {
  import opened Wrappers
  import opened Text
  import opened Schema

  /** `user?.fullName || user?.username`: the full name unless it is missing or empty, else the user name. */
  function DisplayName(user: Option<User>): (name: Option<string>)
    ensures user.None? ==> name.None?
    ensures user.Some? && user.value.fullName.Some? && user.value.fullName.value != "" ==>
      name == user.value.fullName
    ensures user.Some? && (user.value.fullName.None? || user.value.fullName.value == "") ==>
      name == Some(user.value.username)
  {
    if user.None? then None
    else if user.value.fullName.Some? && user.value.fullName.value != "" then user.value.fullName
    else Some(user.value.username)
  }

  /**
   * `pieces.map(n => n[0]).join('')`: the first character of each piece; an
   * empty piece gives `undefined`, which `join` writes as nothing.
   */
  function FirstChars(pieces: seq<string>): (r: string)
    ensures |r| <= |pieces|
  {
    if pieces == [] then ""
    else (if pieces[0] == "" then "" else [pieces[0][0]]) + FirstChars(pieces[1..])
  }

  /** The number of non-empty pieces. */
  function NonEmptyCount(pieces: seq<string>): nat {
    if pieces == [] then 0 else (if pieces[0] == "" then 0 else 1) + NonEmptyCount(pieces[1..])
  }

  /** One character per non-empty piece, taken from that piece's start, in order. */
  lemma {:induction false} FirstCharsSpec(pieces: seq<string>)
    ensures FirstChars(pieces) == Heads(NonEmpty(pieces))
    ensures |FirstChars(pieces)| == NonEmptyCount(pieces)
    ensures forall i :: 0 <= i < |pieces| && pieces[i] != "" ==> pieces[i][0] in FirstChars(pieces)
  {
    if pieces != [] {
      FirstCharsSpec(pieces[1..]);
      forall i | 0 <= i < |pieces| && pieces[i] != ""
        ensures pieces[i][0] in FirstChars(pieces)
      {
        if i > 0 {
          assert pieces[i] == pieces[1..][i - 1];
        }
      }
    }
    FirstCharsSkipsEmpty(pieces);
    FirstCharsOfNonEmpty(NonEmpty(pieces));
  }

  /** The non-empty pieces, in order. */
  function NonEmpty(pieces: seq<string>): (r: seq<string>)
    ensures forall i :: 0 <= i < |r| ==> r[i] != ""
    ensures forall p :: p in r <==> p in pieces && p != ""
    ensures |r| == NonEmptyCount(pieces)
  {
    if pieces == [] then []
    else (if pieces[0] == "" then [] else [pieces[0]]) + NonEmpty(pieces[1..])
  }

  /** The first character of each of a list of non-empty words. */
  function Heads(words: seq<string>): (r: string)
    requires forall i :: 0 <= i < |words| ==> words[i] != ""
    ensures |r| == |words|
    ensures forall i :: 0 <= i < |words| ==> r[i] == words[i][0]
  {
    seq(|words|, i requires 0 <= i < |words| => words[i][0])
  }

  /** Empty pieces contribute nothing: only the non-empty ones give characters. */
  lemma {:induction false} FirstCharsSkipsEmpty(pieces: seq<string>)
    ensures FirstChars(pieces) == FirstChars(NonEmpty(pieces))
  {
    if pieces != [] {
      FirstCharsSkipsEmpty(pieces[1..]);
      var rest := NonEmpty(pieces[1..]);
      if pieces[0] != "" {
        assert ([pieces[0]] + rest)[1..] == rest;
      } else {
        assert [] + rest == rest;
      }
    }
  }

  const NoNameInitials: string := "U"

  /** `getInitials(name)`: "U" when the name is missing or empty, else the upper-cased first letters of its space-separated pieces. */
  function Initials(name: Option<string>): (r: string)
    ensures name.None? || name.value == "" ==> r == NoNameInitials
    ensures name.Some? && name.value != "" ==> |r| <= Count(name.value, ' ') + 1
    ensures forall i :: 0 <= i < |r| ==> !IsLowerAscii(r[i])
  {
    if name.None? || name.value == "" then NoNameInitials
    else
      SplitCount(name.value, ' ');
      ToUpper(FirstChars(Split(name.value, ' ')))
  }

  /** The words of a name joined by single spaces give one initial per word. */
  lemma InitialsOfWords(words: seq<string>)
    requires |words| >= 1
    requires forall i :: 0 <= i < |words| ==> words[i] != "" && ' ' !in words[i]
    ensures Initials(Some(Join(words, ' '))) == ToUpper(Heads(words))
  {
    SplitJoin(words, ' ');
    assert |Join(words, ' ')| >= |words[0]| > 0;
    FirstCharsOfNonEmpty(words);
  }

  lemma {:induction false} FirstCharsOfNonEmpty(words: seq<string>)
    requires forall i :: 0 <= i < |words| ==> words[i] != ""
    ensures FirstChars(words) == Heads(words)
  {
    if words != [] {
      FirstCharsOfNonEmpty(words[1..]);
    }
  }

  /**
   * Leading, trailing and doubled spaces add no initials: the initials of a
   * non-empty name are the upper-cased first characters of its non-empty
   * space-separated pieces.
   */
  lemma ExtraSpacesIgnored(name: string)
    requires name != ""
    ensures Initials(Some(name)) == ToUpper(Heads(NonEmpty(Split(name, ' '))))
  {
    var pieces := Split(name, ' ');
    FirstCharsSkipsEmpty(pieces);
    FirstCharsOfNonEmpty(NonEmpty(pieces));
  }

  /** A space in front of a name changes nothing. */
  lemma LeadingSpaceIgnored(name: string)
    requires name != ""
    ensures Initials(Some([' '] + name)) == Initials(Some(name))
  {
    var spaced := [' '] + name;
    assert spaced[1..] == name;
    var pieces := Split(name, ' ');
    assert Split(spaced, ' ') == [""] + pieces;
    assert ([""] + pieces)[1..] == pieces;
  }

  /** For example, "a  b " has the initials "AB". */
  lemma InitialsExample()
    ensures Initials(Some("a  b ")) == "AB"
  {
    assert Split("", ' ') == [""];
    assert " "[1..] == "";
    assert Split(" ", ' ') == ["", ""];
    assert "b "[1..] == " ";
    assert ["b "[0]] + "" == "b";
    assert Split("b ", ' ') == ["b", ""];
    assert " b "[1..] == "b ";
    assert Split(" b ", ' ') == ["", "b", ""];
    assert "  b "[1..] == " b ";
    assert Split("  b ", ' ') == ["", "", "b", ""];
    assert "a  b "[1..] == "  b ";
    assert ["a  b "[0]] + "" == "a";
    assert Split("a  b ", ' ') == ["a", "", "b", ""];
    assert FirstChars(["a", "", "b", ""]) == "ab";
  }
}
