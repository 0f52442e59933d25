/**
 * The account menu's text rules (components/auth/UserMenu.tsx): the avatar initials built from
 * the display name, and the name shown beside them.
 */
module UserMenu {
  import opened Options
  import opened JsString

  /** `word.charAt(0)` of each piece, joined: an empty piece contributes nothing. */
  function FirstChars(words: seq<string>): (r: string)
    ensures |r| <= |words|
  {
    if words == [] then []
    else (if words[0] == [] then [] else [words[0][0]]) + FirstChars(words[1..])
  }

  /** `getUserInitials(name)`. */
  function Initials(name: Option<string>): (r: string)
    ensures |r| <= 2
    ensures name.None? || name.value == "" ==> r == "U"
  {
    if name.None? || name.value == "" then "U"
    else Take(ToUpper(FirstChars(Split(name.value))), 2)
  }

  /**
   * The characters of `s` that start a word: not a space, and first in `s` or right after a
   * space (`atStart` says whether the position before `s` counts as a word boundary).
   */
  function WordStarts(s: string, atStart: bool): string {
    if s == [] then []
    else if s[0] == ' ' then WordStarts(s[1..], true)
    else (if atStart then [s[0]] else []) + WordStarts(s[1..], false)
  }

  /** A word start is a character of `s` other than a space. */
  lemma {:induction false} WordStartsFromText(s: string, atStart: bool)
    ensures forall i :: 0 <= i < |WordStarts(s, atStart)| ==>
              WordStarts(s, atStart)[i] != ' ' && WordStarts(s, atStart)[i] in s
  {
    if s != [] {
      WordStartsFromText(s[1..], s[0] == ' ');
      var r := WordStarts(s, atStart);
      forall i | 0 <= i < |r|
        ensures r[i] != ' ' && r[i] in s
      {
        if s[0] == ' ' || !atStart {
          assert r[i] in s[1..];
        } else if i > 0 {
          assert r[i] == WordStarts(s[1..], false)[i - 1];
        }
      }
    }
  }

  /** Splitting on spaces and taking first characters picks exactly the word starts. */
  lemma {:induction false} FirstCharsOfSplit(s: string)
    ensures FirstChars(Split(s)) == WordStarts(s, true)
    ensures FirstChars(Split(s)[1..]) == WordStarts(s, false)
  {
    if s != [] {
      var t := s[1..];
      var rest := Split(t);
      FirstCharsOfSplit(t);
      if s[0] == ' ' {
        assert Split(s) == [""] + rest;
        assert Split(s)[1..] == rest;
      } else {
        var w := [s[0]] + rest[0];
        assert Split(s) == [w] + rest[1..];
        assert Split(s)[1..] == rest[1..];
        assert FirstChars(Split(s)) == [s[0]] + FirstChars(rest[1..]);
      }
    }
  }

  /** The initials are the first two word starts, upper-cased, for any non-empty name. */
  lemma {:induction false} InitialsAreWordStarts(name: string)
    requires name != ""
    ensures Initials(Some(name)) == Take(ToUpper(WordStarts(name, true)), 2)
  {
    FirstCharsOfSplit(name);
  }

  lemma {:induction false} WordStartsAppend(a: string, b: string, atStart: bool)
    ensures WordStarts(a + b, atStart)
            == WordStarts(a, atStart) + WordStarts(b, if a == [] then atStart else a[|a| - 1] == ' ')
  {
    if a == [] {
      assert a + b == b;
    } else {
      var t, space := a[1..], a[0] == ' ';
      var head := if !space && atStart then [a[0]] else [];
      var tail := WordStarts(b, a[|a| - 1] == ' ');
      assert WordStarts(a + b, atStart) == head + WordStarts(t + b, space) by {
        assert (a + b)[0] == a[0];
        assert (a + b)[1..] == t + b;
      }
      assert WordStarts(a, atStart) == head + WordStarts(t, space);
      assert WordStarts(t + b, space) == WordStarts(t, space) + tail by {
        WordStartsAppend(t, b, space);
        assert t != [] ==> t[|t| - 1] == a[|a| - 1];
      }
      assert head + (WordStarts(t, space) + tail) == (head + WordStarts(t, space)) + tail;
    }
  }

  /** Within one word, only its first character can be a word start. */
  lemma {:induction false} WordStartsOfWord(s: string, atStart: bool)
    requires ' ' !in s
    ensures WordStarts(s, atStart) == if atStart && s != [] then [s[0]] else []
  {
    if s != [] {
      WordStartsOfWord(s[1..], false);
    }
  }

  /** Spaces alone hold no word start. */
  lemma {:induction false} WordStartsOfSpaces(s: string, atStart: bool)
    requires forall i :: 0 <= i < |s| ==> s[i] == ' '
    ensures WordStarts(s, atStart) == []
  {
    if s != [] {
      WordStartsOfSpaces(s[1..], true);
    }
  }

  /** Once two words have started, whatever follows never changes the initials. */
  lemma {:induction false} InitialsIgnoreLaterWords(a: string, b: string)
    requires |WordStarts(a, true)| >= 2
    ensures Initials(Some(a + b)) == Initials(Some(a))
  {
    var x := WordStarts(a, true);
    assert a != [];
    InitialsAreWordStarts(a);
    InitialsAreWordStarts(a + b);
    WordStartsAppend(a, b, true);
    var y := WordStarts(b, a[|a| - 1] == ' ');
    assert ToUpper(x + y)[..2] == ToUpper(x)[..2];
  }

  /** A name of spaces alone has no word starts, so its initials are empty rather than `'U'`. */
  lemma {:induction false} BlankNameHasNoInitials(name: string)
    requires name != "" && forall i :: 0 <= i < |name| ==> name[i] == ' '
    ensures Initials(Some(name)) == ""
  {
    InitialsAreWordStarts(name);
    WordStartsOfSpaces(name, true);
  }

  /** "John Doe" gives "JD". */
  lemma {:induction false} TwoWordExample(name: string)
    requires name == "John Doe"
    ensures Initials(Some(name)) == "JD"
  {
    InitialsAreWordStarts(name);
    var john, space, doe := name[..4], name[4..5], name[5..];
    assert john + space + doe == name;
    WordStartsAppend(john + space, doe, true);
    WordStartsAppend(john, space, true);
    WordStartsOfWord(john, true);
    WordStartsOfSpaces(space, false);
    WordStartsOfWord(doe, true);
  }

  /** A single word gives one letter: "ada" gives "A". */
  lemma {:induction false} OneWordExample(name: string)
    requires name == "ada"
    ensures Initials(Some(name)) == "A"
  {
    InitialsAreWordStarts(name);
    WordStartsOfWord(name, true);
  }

  /** `user.displayName || 'User'`. */
  function DisplayName(name: Option<string>): (r: string)
    ensures r != ""
    ensures name.Some? && name.value != "" ==> r == name.value
    ensures name.None? || name.value == "" ==> r == "User"
  {
    if name.Some? && name.value != "" then name.value else "User"
  }
}
