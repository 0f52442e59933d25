/**
 * The card customiser (components/CreditCardDemo.tsx): the card-number and expiry formatters
 * applied to every keystroke, and the record of the three card fields they feed.
 */
module CreditCardDemo {
  import opened JsString
  import opened CardGrouping

  /**
   * `formatCardNumber`: the digits of `value`, grouped in fours by the regular expression,
   * trimmed and cut to 19 characters.
   */
  function FormatCardNumber(value: string): (r: string)
    ensures |r| <= 19
  {
    Take(Trim(GroupFours(Digits(value))), 19)
  }

  lemma {:induction false} DigitsHaveNoWhiteSpace(d: string)
    requires AllDigits(d)
    ensures NoWhiteSpace(d)
  {
    forall i | 0 <= i < |d| ensures !IsWhiteSpace(d[i]) { assert IsDigit(d[i]); }
  }

  /** The formatted number is the block layout of the first 16 digits of the input. */
  lemma {:induction false} FormatCardNumberIsBlocks(value: string)
    ensures FormatCardNumber(value) == Blocks(Take(Digits(value), 16))
  {
    var d := Digits(value);
    DigitsKept(value);
    DigitsHaveNoWhiteSpace(d);
    TrimGroupFours(d);
    LayoutCutAt19(d);
  }

  /** Cutting the layout to 19 characters is the layout of the first 16 characters. */
  lemma {:induction false} LayoutCutAt19(d: string)
    ensures Take(Blocks(d), 19) == Blocks(Take(d, 16))
  {
    var b := Blocks(d);
    if |d| > 16 {
      BlocksPrefix16(d);
      assert Take(b, 19) == b[..19];
      assert Take(d, 16) == d[..16];
    } else {
      assert Take(d, 16) == d;
      BlocksLength(d);
      assert Take(b, 19) == b;
    }
  }

  /**
   * Only digits and single spaces: a space at every fifth position and nowhere else, never at
   * either end, so the digits stand in blocks of four with a last block of one to four.
   */
  lemma {:induction false} FormatCardNumberShape(value: string)
    ensures var r := FormatCardNumber(value);
            && (forall i :: 0 <= i < |r| ==> IsDigit(r[i]) || r[i] == ' ')
            && (forall i :: 0 <= i < |r| ==> (r[i] == ' ' <==> i % 5 == 4))
            && (r == [] || (r[0] != ' ' && r[|r| - 1] != ' '))
  {
    var e := Take(Digits(value), 16);
    var r := Blocks(e);
    assert FormatCardNumber(value) == r by {
      FormatCardNumberIsBlocks(value);
    }
    assert AllDigits(e) by {
      DigitsKept(value);
    }
    DigitsHaveNoWhiteSpace(e);
    BlocksLayout(e);
    BlocksOfDigitsAreDigitsAndSpaces(e);
    if e != [] {
      BlocksEnds(e);
      assert IsDigit(e[0]) && IsDigit(e[|e| - 1]);
    }
  }

  /** Deleting the spaces gives the first min(16, k) digits of the input, in order. */
  lemma {:induction false} FormatCardNumberKeepsDigits(value: string)
    ensures RemoveWhiteSpace(FormatCardNumber(value)) == Take(Digits(value), 16)
    ensures Digits(FormatCardNumber(value)) == Take(Digits(value), 16)
  {
    var e := Take(Digits(value), 16);
    FormatCardNumberIsBlocks(value);
    DigitsKept(value);
    DigitsHaveNoWhiteSpace(e);
    BlocksRemoveSpaces(e);
    BlocksDigits(e);
  }

  /** Formatting what the field already shows changes nothing. */
  lemma {:induction false} FormatCardNumberIdempotent(value: string)
    ensures FormatCardNumber(FormatCardNumber(value)) == FormatCardNumber(value)
  {
    var e := Take(Digits(value), 16);
    var r := FormatCardNumber(value);
    FormatCardNumberKeepsDigits(value);
    assert Digits(r) == e;
    FormatCardNumberIsBlocks(r);
    assert Take(e, 16) == e;
    FormatCardNumberIsBlocks(value);
  }

  /**
   * `formatExpiryDate`: with two or more digits, the first two, a slash and up to two more;
   * otherwise the digits as they are.
   */
  function FormatExpiryDate(value: string): (r: string)
    ensures |r| <= 5
    ensures forall i :: 0 <= i < |r| ==> (r[i] == '/' <==> i == 2 && |Digits(value)| >= 2)
    ensures forall i :: 0 <= i < |r| ==> IsDigit(r[i]) || r[i] == '/'
    ensures |Digits(value)| < 2 ==> r == Digits(value)
    ensures |Digits(value)| >= 2 ==> |r| >= 3 && r[..2] == Digits(value)[..2]
  {
    var cleaned := Digits(value);
    DigitsKept(value);
    if |cleaned| >= 2 then cleaned[..2] + "/" + Take(cleaned[2..], 2) else cleaned
  }

  /** The digits of the formatted date are the first four digits of the input. */
  lemma {:induction false} FormatExpiryDateKeepsDigits(value: string)
    ensures Digits(FormatExpiryDate(value)) == Take(Digits(value), 4)
  {
    var c := Digits(value);
    DigitsKept(value);
    if |c| >= 2 {
      var t := Take(c[2..], 2);
      assert AllDigits(t) && AllDigits(c[..2]);
      DigitsKept(t);
      DigitsKept(c[..2]);
      DigitsAppend(c[..2] + "/", t);
      DigitsAppend(c[..2], "/");
      assert c[..2] + t == Take(c, 4);
    } else {
      DigitsKept(c);
    }
  }

  lemma {:induction false} FormatExpiryDateIdempotent(value: string)
    ensures FormatExpiryDate(FormatExpiryDate(value)) == FormatExpiryDate(value)
  {
    FormatExpiryDateKeepsDigits(value);
    var c := Digits(value);
    if |c| >= 2 {
      assert Take(c, 4)[..2] == c[..2];
      assert Take(c, 4)[2..] == Take(c[2..], 2);
    }
  }

  datatype Field = CardNumber | CardHolder | ExpiryDate

  datatype CardData = CardData(cardNumber: string, cardHolder: string, expiryDate: string)

  const InitialCard: CardData := CardData("4532 1234 5678 9012", "JOHN DOE", "12/28")

  /** The value of one field of the record. */
  function Get(d: CardData, field: Field): string {
    match field
    case CardNumber => d.cardNumber
    case CardHolder => d.cardHolder
    case ExpiryDate => d.expiryDate
  }

  /** `handleInputChange(field, value)`: `{...prev, [field]: value}`. */
  function HandleInputChange(d: CardData, field: Field, value: string): (r: CardData)
    ensures forall f :: Get(r, f) == if f == field then value else Get(d, f)
  {
    match field
    case CardNumber => d.(cardNumber := value)
    case CardHolder => d.(cardHolder := value)
    case ExpiryDate => d.(expiryDate := value)
  }

  /** The `onChange` of each input: the typed text, formatted for its field, stored in it. */
  function OnChange(d: CardData, field: Field, typed: string): (r: CardData)
    ensures field == CardNumber ==> r.cardNumber == FormatCardNumber(typed)
    ensures field == CardHolder ==> r.cardHolder == ToUpper(typed)
    ensures field == ExpiryDate ==> r.expiryDate == FormatExpiryDate(typed)
    ensures forall f :: f != field ==> Get(r, f) == Get(d, f)
  {
    var formatted :=
      match field
      case CardNumber => FormatCardNumber(typed)
      case CardHolder => ToUpper(typed)
      case ExpiryDate => FormatExpiryDate(typed);
    HandleInputChange(d, field, formatted)
  }

  /** Every field holds text its formatter leaves unchanged. */
  predicate WellFormed(d: CardData) {
    && FormatCardNumber(d.cardNumber) == d.cardNumber
    && ToUpper(d.cardHolder) == d.cardHolder
    && FormatExpiryDate(d.expiryDate) == d.expiryDate
  }

  /** Whatever is typed into whichever field, the record stays well formed. */
  lemma {:induction false} OnChangeKeepsWellFormed(d: CardData, field: Field, typed: string)
    requires WellFormed(d)
    ensures WellFormed(OnChange(d, field, typed))
  {
    match field
    case CardNumber => FormatCardNumberIdempotent(typed);
    case CardHolder => ToUpperIdempotent(typed);
    case ExpiryDate => FormatExpiryDateIdempotent(typed);
  }

  /** The sample card is already formatted. */
  lemma {:induction false} InitialCardWellFormed()
    ensures WellFormed(InitialCard)
  {
    InitialNumberFormatted();
    InitialHolderFormatted();
    InitialExpiryFormatted();
  }

  lemma {:induction false} InitialNumberFormatted()
    ensures FormatCardNumber(InitialCard.cardNumber) == InitialCard.cardNumber
  {
    var e := "4532123456789012";
    BlocksOfSample(e);
    BlocksAreFormatted(e);
  }

  /** A layout of at most 16 digits is exactly what the formatter produces from it. */
  lemma {:induction false} BlocksAreFormatted(e: string)
    requires AllDigits(e) && |e| <= 16
    ensures FormatCardNumber(Blocks(e)) == Blocks(e)
  {
    BlocksDigits(e);
    FormatCardNumberIsBlocks(Blocks(e));
    assert Take(e, 16) == e;
  }

  lemma {:induction false} BlocksOfSample(e: string)
    requires e == "4532123456789012"
    ensures Blocks(e) == "4532 1234 5678 9012"
  {
    var a, b, c, d := "4532", "1234", "5678", "9012";
    assert e == a + (b + (c + d));
    BlocksAppend(c, d);
    BlocksAppend(b, c + d);
    BlocksAppend(a, b + (c + d));
    SampleNumberJoined();
  }

  /** The sample number is its four blocks joined by spaces. */
  lemma {:induction false} SampleNumberJoined()
    ensures "4532" + " " + ("1234" + " " + ("5678" + " " + "9012")) == "4532 1234 5678 9012"
  {
  }

  lemma {:induction false} InitialHolderFormatted()
    ensures ToUpper(InitialCard.cardHolder) == InitialCard.cardHolder
  {
    var h := InitialCard.cardHolder;
    forall i | 0 <= i < |h|
      ensures UpperChar(h[i]) == h[i]
    {
    }
  }

  lemma {:induction false} InitialExpiryFormatted()
    ensures FormatExpiryDate(InitialCard.expiryDate) == InitialCard.expiryDate
  {
    DigitsAppend("12", "/28");
    DigitsAppend("/", "28");
    assert "12" + "/28" == InitialCard.expiryDate;
    assert "/" + "28" == "/28";
  }
}
