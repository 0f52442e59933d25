/**
 * `s.replace(/(.{4})/g, '$1 ')`, the grouping both card components apply, and `Blocks`, the
 * layout it produces once trimmed: blocks of four characters separated by one space.
 */
module CardGrouping {
  import opened JsString

  predicate NoLineTerminator(s: string) {
    forall i :: 0 <= i < |s| ==> !IsLineTerminator(s[i])
  }

  /**
   * The global regular-expression replacement: at each position, four characters none of which
   * is a line terminator are copied followed by a space; otherwise one character is copied and
   * the search moves on by one.
   */
  function GroupFours(s: string): (r: string)
    ensures |r| >= |s|
  {
    if |s| >= 4 && NoLineTerminator(s[..4]) then s[..4] + " " + GroupFours(s[4..])
    else if s == [] then []
    else [s[0]] + GroupFours(s[1..])
  }

  /** Blocks of four separated by single spaces; the last block has one to four characters. */
  function Blocks(d: string): string {
    if |d| <= 4 then d else d[..4] + " " + Blocks(d[4..])
  }

  /** One space between consecutive blocks: `(|d| - 1) / 4` of them. */
  lemma {:induction false} BlocksLength(d: string)
    ensures |d| > 0 ==> |Blocks(d)| == |d| + (|d| - 1) / 4
    ensures |d| == 0 ==> Blocks(d) == []
    decreases |d|
  {
    if |d| > 4 {
      BlocksLength(d[4..]);
      assert (|d| - 1) / 4 == (|d| - 5) / 4 + 1;
    }
  }

  lemma {:induction false} GroupFoursShort(s: string)
    requires |s| < 4
    ensures GroupFours(s) == s
  {
    if s != [] {
      GroupFoursShort(s[1..]);
    }
  }

  /** On text without white space the replacement is the block layout plus a space after a final full block. */
  lemma {:induction false} GroupFoursBlocks(d: string)
    requires NoWhiteSpace(d)
    ensures GroupFours(d) == Blocks(d) + (if |d| > 0 && |d| % 4 == 0 then " " else "")
  {
    if |d| < 4 {
      GroupFoursShort(d);
    } else {
      var head, tail := d[..4], d[4..];
      GroupFoursStep(d);
      if |d| == 4 {
        assert tail == [] && head == d;
      } else {
        GroupFoursBlocks(tail);
        assert Blocks(d) == head + " " + Blocks(tail);
        assert |tail| % 4 == |d| % 4 by {
          assert |d| == |tail| + 4;
        }
      }
    }
  }

  /** Four characters without white space are copied with a space; the rest is still free of it. */
  lemma {:induction false} GroupFoursStep(d: string)
    requires NoWhiteSpace(d) && |d| >= 4
    ensures GroupFours(d) == d[..4] + " " + GroupFours(d[4..])
    ensures NoWhiteSpace(d[4..])
  {
    var head, tail := d[..4], d[4..];
    assert NoLineTerminator(head) by {
      forall i | 0 <= i < 4 ensures !IsLineTerminator(head[i]) {
        assert !IsWhiteSpace(d[i]);
      }
    }
    forall i | 0 <= i < |tail| ensures !IsWhiteSpace(tail[i]) {
      assert tail[i] == d[i + 4];
    }
  }

  lemma {:induction false} BlocksEnds(d: string)
    requires NoWhiteSpace(d) && d != []
    ensures Blocks(d)[0] == d[0]
    ensures Blocks(d)[|Blocks(d)| - 1] == d[|d| - 1]
    decreases |d|
  {
    if |d| > 4 {
      BlocksEnds(d[4..]);
    }
  }

  /** `.trim()` of the replacement gives exactly the block layout. */
  lemma {:induction false} TrimGroupFours(d: string)
    requires NoWhiteSpace(d)
    ensures Trim(GroupFours(d)) == Blocks(d)
  {
    GroupFoursBlocks(d);
    var b := Blocks(d);
    if d != [] {
      BlocksEndsNotBlank(d);
      if |d| % 4 == 0 {
        TrailingSpaceTrimmed(b);
      } else {
        TrimUnchanged(b);
      }
    }
  }

  lemma {:induction false} BlocksEndsNotBlank(d: string)
    requires NoWhiteSpace(d) && d != []
    ensures var b := Blocks(d); b != [] && !IsWhiteSpace(b[0]) && !IsWhiteSpace(b[|b| - 1])
  {
    BlocksEnds(d);
    assert !IsWhiteSpace(d[0]) && !IsWhiteSpace(d[|d| - 1]);
  }

  /** One space after text with non-blank ends is all `trim` takes away. */
  lemma {:induction false} TrailingSpaceTrimmed(b: string)
    requires b != [] && !IsWhiteSpace(b[0]) && !IsWhiteSpace(b[|b| - 1])
    ensures Trim(b + " ") == b
  {
    var g := b + " ";
    assert TrimStart(g) == g by {
      assert g[0] == b[0];
    }
    assert TrimEnd(g) == TrimEnd(b) by {
      assert g[..|g| - 1] == b;
      assert IsWhiteSpace(g[|g| - 1]);
    }
    TrimUnchanged(b);
  }

  /** Where the spaces are: exactly every fifth position; every other character comes from `d`. */
  lemma {:induction false} BlocksLayout(d: string)
    requires NoWhiteSpace(d)
    ensures forall i :: 0 <= i < |Blocks(d)| ==> (Blocks(d)[i] == ' ' <==> i % 5 == 4)
    ensures forall i :: 0 <= i < |Blocks(d)| && i % 5 != 4 ==> Blocks(d)[i] in d
    ensures |Blocks(d)| % 5 != 0 || d == []
  {
    if |d| > 4 {
      var rest := Blocks(d[4..]);
      BlocksLayout(d[4..]);
      assert Blocks(d) == d[..4] + " " + rest;
      forall i | 0 <= i < |Blocks(d)|
        ensures (Blocks(d)[i] == ' ' <==> i % 5 == 4)
        ensures i % 5 != 4 ==> Blocks(d)[i] in d
      {
        if i < 4 {
          assert Blocks(d)[i] == d[i];
          assert !IsWhiteSpace(d[i]);
        } else if i >= 5 {
          assert Blocks(d)[i] == rest[i - 5];
          if i % 5 != 4 {
            assert rest[i - 5] in d[4..];
          }
        }
      }
    } else {
      forall i | 0 <= i < |d|
        ensures d[i] != ' '
      {
        assert !IsWhiteSpace(d[i]);
      }
    }
  }

  /** Deleting the spaces gives back the grouped text. */
  lemma {:induction false} BlocksRemoveSpaces(d: string)
    requires NoWhiteSpace(d)
    ensures RemoveWhiteSpace(Blocks(d)) == d
  {
    if |d| > 4 {
      BlocksRemoveSpaces(d[4..]);
      RemoveWhiteSpaceAppend(d[..4] + " ", Blocks(d[4..]));
      RemoveWhiteSpaceAppend(d[..4], " ");
      RemoveWhiteSpaceKept(d[..4]);
      assert d[..4] + d[4..] == d;
    } else {
      RemoveWhiteSpaceKept(d);
    }
  }

  /** Keeping only the digits of the layout gives back the digits. */
  lemma {:induction false} BlocksDigits(d: string)
    requires AllDigits(d)
    ensures Digits(Blocks(d)) == d
  {
    if |d| > 4 {
      BlocksDigits(d[4..]);
      DigitsAppend(d[..4] + " ", Blocks(d[4..]));
      DigitsAppend(d[..4], " ");
      DigitsKept(d[..4]);
      assert d[..4] + d[4..] == d;
    } else {
      DigitsKept(d);
    }
  }

  /** After a whole number of full blocks, the layout goes on with the layout of the rest. */
  lemma {:induction false} BlocksAppend(a: string, b: string)
    requires |a| > 0 && |a| % 4 == 0 && b != []
    ensures Blocks(a + b) == Blocks(a) + " " + Blocks(b)
    decreases |a|
  {
    var ab := a + b;
    assert ab[..4] == a[..4];
    if |a| == 4 {
      assert ab[4..] == b;
    } else {
      assert ab[4..] == a[4..] + b;
      BlocksAppend(a[4..], b);
    }
  }

  /** The layout of a longer text starts with the layout of its first 16 characters. */
  lemma {:induction false} BlocksPrefix16(d: string)
    requires |d| > 16
    ensures |Blocks(d)| > 19 && Blocks(d)[..19] == Blocks(d[..16])
  {
    BlocksLength(d);
    var a, b := d[..16], d[16..];
    var layout := Blocks(a);
    assert Blocks(d) == layout + " " + Blocks(b) by {
      assert a + b == d;
      assert |a| == 16 && |b| > 0;
      BlocksAppend(a, b);
    }
    BlocksLength(a);
    assert |layout| == 19;
    assert (layout + " " + Blocks(b))[..19] == layout;
  }

  /** The layout of a digit string holds only digits and spaces. */
  lemma {:induction false} BlocksOfDigitsAreDigitsAndSpaces(d: string)
    requires AllDigits(d)
    ensures forall i :: 0 <= i < |Blocks(d)| ==> IsDigit(Blocks(d)[i]) || Blocks(d)[i] == ' '
  {
    assert NoWhiteSpace(d) by {
      forall i | 0 <= i < |d| ensures !IsWhiteSpace(d[i]) { assert IsDigit(d[i]); }
    }
    BlocksLayout(d);
    forall i | 0 <= i < |Blocks(d)|
      ensures IsDigit(Blocks(d)[i]) || Blocks(d)[i] == ' '
    {
      if i % 5 != 4 {
        var c := Blocks(d)[i];
        assert c in d;
        var k :| 0 <= k < |d| && d[k] == c;
      }
    }
  }
}
