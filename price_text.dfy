/**
 * A medicine's price, held as a whole number of hundredths of the currency unit
 * instead of a `double`, with the text `Double.toString` writes for it and the
 * plain decimal text `Double.parseDouble` reads.
 */
module PriceText {
  import opened Wrappers
  import opened JavaStrings

  /** The hundredths f, with a trailing zero dropped but at least one digit: 0 -> "0", 50 -> "5", 5 -> "05". */
  function FractionText(f: nat): (s: string)
    requires f < 100
    ensures 1 <= |s| <= 2 && AllDigits(s)
  {
    if f % 10 == 0 then [DigitChar(f / 10)] else [DigitChar(f / 10), DigitChar(f % 10)]
  }

  /** The hundredths written by a fraction of one or two digits ("5" is 50, "05" is 5). */
  function FractionValue(s: string): nat
    requires |s| <= 2 && AllDigits(s)
  {
    if |s| == 0 then 0 else if |s| == 1 then 10 * DigitValue(s[0]) else DigitsValue(s)
  }

  /** The text of a non-negative price: the whole units, '.', and the hundredths as FractionText writes them. */
  function MagnitudeText(m: nat): (s: string)
    ensures s != [] && IsDigit(s[0]) && ',' !in s
  {
    NatToString(m / 100) + "." + FractionText(m % 100)
  }

  /** `Double.toString` of the price: a '-' for a negative one, then MagnitudeText (250 -> "2.5", 10000 -> "100.0"). */
  function PriceToString(cents: int): (s: string)
    ensures s != [] && ',' !in s
  {
    if cents < 0 then "-" + MagnitudeText(-cents) else MagnitudeText(cents)
  }

  /** The index of the first c in s, or |s| when there is none. */
  function FirstIndexOf(s: string, c: char): (i: nat)
    ensures i <= |s|
    ensures i < |s| ==> s[i] == c
    ensures forall j :: 0 <= j < i ==> s[j] != c
  {
    if s == [] || s[0] == c then 0 else 1 + FirstIndexOf(s[1..], c)
  }

  /** The unsigned part of a price: digits, an optional '.' with at most two digits after it, at least one digit in all. */
  function ParseMagnitude(body: string): Option<nat>
  {
    var dot := FirstIndexOf(body, '.');
    var whole := body[..dot];
    var fraction := if dot < |body| then body[dot + 1..] else "";
    if !AllDigits(whole) || !AllDigits(fraction) || |whole| + |fraction| == 0 || |fraction| > 2 then None
    else Some(DigitsValue(whole) * 100 + FractionValue(fraction))
  }

  /**
   * `Double.parseDouble(s)` on plain decimal text: one optional '+' or '-',
   * then what ParseMagnitude reads ("5", "5.", ".5", "-2.25"). None is the
   * NumberFormatException.
   */
  function ParsePrice(s: string): Option<int>
  {
    if s == [] then None
    else
      var body := if s[0] == '-' || s[0] == '+' then s[1..] else s;
      match ParseMagnitude(body)
      case None => None
      case Some(m) => var v: int := m; Some(if s[0] == '-' then -v else v)
  }

  lemma FractionRoundTrip(f: nat)
    requires f < 100
    ensures FractionValue(FractionText(f)) == f
  {
    var s := FractionText(f);
    if f % 10 != 0 {
      assert s[..1] == [DigitChar(f / 10)];
      assert DigitsValue(s) == DigitsValue(s[..1]) * 10 + DigitValue(s[1]);
    }
  }

  lemma ParseMagnitudeRoundTrip(m: nat)
    ensures ParseMagnitude(MagnitudeText(m)) == Some(m)
  {
    var units := NatToString(m / 100);
    var fraction := FractionText(m % 100);
    var body := MagnitudeText(m);
    assert body == units + "." + fraction;
    assert body[|units|] == '.';
    var dot := FirstIndexOf(body, '.');
    assert forall j :: 0 <= j < |units| ==> body[j] == units[j] && IsDigit(body[j]);
    assert dot == |units|;
    assert body[..dot] == units;
    assert body[dot + 1..] == fraction;
    DigitsValueOfNatToString(m / 100);
    FractionRoundTrip(m % 100);
  }

  /** A price text is its sign followed by its unsigned part. */
  lemma ParsePriceOfSigned(negative: bool, body: string)
    requires body != [] && body[0] != '-' && body[0] != '+'
    requires ParseMagnitude(body).Some?
    ensures ParsePrice(if negative then "-" + body else body)
         == Some(if negative then -(ParseMagnitude(body).value as int) else ParseMagnitude(body).value as int)
  {
    if negative {
      assert ("-" + body)[1..] == body;
    }
  }

  /** Every price the store writes, the loader reads back as the same price. */
  lemma ParsePriceOfPriceToString(cents: int)
    ensures ParsePrice(PriceToString(cents)) == Some(cents)
  {
    var magnitude: nat := if cents < 0 then -cents else cents;
    ParseMagnitudeRoundTrip(magnitude);
    ParsePriceOfSigned(cents < 0, MagnitudeText(magnitude));
  }
}
