/**
 * The text rules of the 3D card (components/CreditCard3D.tsx): the grouped and the masked
 * number, and the clamp on the tilt that follows the pointer.
 */
module CreditCard3D {
  import opened JsString
  import opened CardGrouping

  /** U+2022, the bullet that hides the middle digits. */
  const Bullet: char := 0x2022 as char
  /** `' •••• •••• '`. */
  const MaskMiddle: string := [' ', Bullet, Bullet, Bullet, Bullet, ' ', Bullet, Bullet, Bullet, Bullet, ' ']

  /** `formatCardNumber`: a space after every run of four, then trimmed. */
  function FormatCardNumber(number: string): (r: string)
    ensures r == [] || (!IsWhiteSpace(r[0]) && !IsWhiteSpace(r[|r| - 1]))
  {
    Trim(GroupFours(number))
  }

  /**
   * On text without white space, the formatted number is the block layout: one space after
   * each full block of four and none at the end; deleting the spaces gives the input back.
   */
  lemma {:induction false} FormatCardNumberOnPlainText(number: string)
    requires NoWhiteSpace(number)
    ensures FormatCardNumber(number) == Blocks(number)
    ensures RemoveWhiteSpace(FormatCardNumber(number)) == number
    ensures forall i :: 0 <= i < |FormatCardNumber(number)| ==> (FormatCardNumber(number)[i] == ' ' <==> i % 5 == 4)
  {
    assert FormatCardNumber(number) == Blocks(number) by {
      TrimGroupFours(number);
    }
    BlocksRemoveSpaces(number);
    BlocksLayout(number);
  }

  /**
   * `maskCardNumber`: the first four characters of the number without white space, the fixed
   * middle of bullets, then its last four characters.
   */
  function MaskCardNumber(number: string): (r: string)
    ensures var n := |RemoveWhiteSpace(number)|;
            |r| == |MaskMiddle| + 2 * (if n < 4 then n else 4)
    ensures var c := RemoveWhiteSpace(number);
            StartsWith(r, Take(c, 4)) && r[|r| - |TakeLast(c, 4)|..] == TakeLast(c, 4)
    ensures var c := RemoveWhiteSpace(number);
            r[|Take(c, 4)|..|r| - |TakeLast(c, 4)|] == MaskMiddle
  {
    var cleaned := RemoveWhiteSpace(number);
    Take(cleaned, 4) + MaskMiddle + TakeLast(cleaned, 4)
  }

  /** Where the white space was never matters. */
  lemma {:induction false} MaskIgnoresWhiteSpace(a: string, b: string)
    requires RemoveWhiteSpace(a) == RemoveWhiteSpace(b)
    ensures MaskCardNumber(a) == MaskCardNumber(b)
  {
  }

  /** Stripping the white space first gives the same mask. */
  lemma {:induction false} MaskOfStrippedNumber(number: string)
    ensures MaskCardNumber(RemoveWhiteSpace(number)) == MaskCardNumber(number)
  {
    RemoveWhiteSpaceKept(number);
    RemoveWhiteSpaceKept(RemoveWhiteSpace(number));
  }

  /**
   * The characters strictly between the first four and the last four never show: two numbers
   * that agree there have the same mask.
   */
  lemma {:induction false} MaskHidesMiddle(a: string, b: string)
    requires NoWhiteSpace(a) && NoWhiteSpace(b)
    requires |a| >= 8 && |b| >= 8
    requires a[..4] == b[..4] && a[|a| - 4..] == b[|b| - 4..]
    ensures MaskCardNumber(a) == MaskCardNumber(b)
  {
    RemoveWhiteSpaceKept(a);
    RemoveWhiteSpaceKept(b);
  }

  /** No character of the stripped number other than its first four and last four is shown. */
  lemma {:induction false} MaskShowsOnlyEnds(number: string)
    ensures var c := RemoveWhiteSpace(number);
            var r := MaskCardNumber(number);
            forall i :: 0 <= i < |r| ==>
              r[i] in MaskMiddle || r[i] in Take(c, 4) || r[i] in TakeLast(c, 4)
  {
    var c := RemoveWhiteSpace(number);
    var r := MaskCardNumber(number);
    var t, l := Take(c, 4), TakeLast(c, 4);
    assert r == t + MaskMiddle + l;
    forall i | 0 <= i < |r|
      ensures r[i] in MaskMiddle || r[i] in t || r[i] in l
    {
      PieceOfConcat(t, MaskMiddle, l, i);
    }
  }

  lemma {:induction false} PieceOfConcat(x: string, y: string, z: string, i: int)
    requires 0 <= i < |x + y + z|
    ensures (x + y + z)[i] in x || (x + y + z)[i] in y || (x + y + z)[i] in z
  {
    if i < |x| {
      assert (x + y + z)[i] == x[i];
    } else if i < |x| + |y| {
      assert (x + y + z)[i] == y[i - |x|];
    } else {
      assert (x + y + z)[i] == z[i - |x| - |y|];
    }
  }

  /** `Math.max(-15, Math.min(15, v))`. */
  function Clamp(v: real): (r: real)
    ensures -15.0 <= r <= 15.0
    ensures -15.0 <= v <= 15.0 ==> r == v
    ensures v > 15.0 ==> r == 15.0
    ensures v < -15.0 ==> r == -15.0
  {
    var upper := if 15.0 < v then 15.0 else v;
    if -15.0 > upper then -15.0 else upper
  }

  /**
   * The tilt for a pointer at offset (`mouseX`, `mouseY`) from the centre of a box of the given
   * size: `(rotateX, rotateY)`, each at most 15 degrees either way.
   */
  function Tilt(mouseX: real, mouseY: real, width: real, height: real): (r: (real, real))
    requires width > 0.0 && height > 0.0
    ensures -15.0 <= r.0 <= 15.0 && -15.0 <= r.1 <= 15.0
    ensures mouseX >= 0.0 ==> r.1 >= 0.0
    ensures mouseY >= 0.0 ==> r.0 <= 0.0
  {
    (Clamp(-(mouseY / height) * 30.0), Clamp(mouseX / width * 30.0))
  }

  /** Inside the box (offsets are measured from its centre) the tilt follows the pointer without clamping. */
  lemma {:induction false} TiltProportionalInside(mouseX: real, width: real)
    requires width > 0.0 && -width / 2.0 <= mouseX <= width / 2.0
    ensures Tilt(mouseX, 0.0, width, 1.0).1 == mouseX / width * 30.0
  {
    assert -0.5 <= mouseX / width <= 0.5;
  }
}
