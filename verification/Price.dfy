/** The price field of the plan form: text to fen and back. */
module Price {
  import opened Decimal
  import opened Domain

  // int arithmetic wraps around at 64 bits.
  function Wrap(n: int): int {
    (n + MAX_INT + 1) % (2 * MAX_INT + 2) - MAX_INT - 1
  }

  function Fraction(parts: seq<string>): string {
    if |parts| == 2 then parts[1] else ""
  }

  function Padded(fraction: string): string {
    if fraction == "" then "00" else if |fraction| == 1 then fraction + "0" else fraction
  }

  /** strings.Trim(s, "0123456789") leaves nothing exactly when s is all digits. */
  function ParsePriceFen(input: string): Option<int> {
    var raw := TrimSpace(input);
    if raw == "" || raw[0] == '-' then None
    else
      var parts := Split(raw, '.');
      if |parts| > 2 || parts[0] == "" then None
      else
        var fraction := Fraction(parts);
        if |fraction| > 2 || !AllDigits(fraction) || !AllDigits(parts[0]) then None
        else
          var whole, cents := Atoi(parts[0]), Atoi(Padded(fraction));
          if whole.None? || whole.value < 0 || cents.None? then None
          else
            var price := Wrap(whole.value * 100 + cents.value);
            if price < 1 then None else Some(price)
  }

  /** fmt.Sprintf("%d.%02d", fen/100, fen%100) */
  function PriceText(fen: nat): string {
    Show(fen / 100) + "." + Digits(fen % 100, 2)
  }

  // ----- what a price text means -----

  /** The text is a whole number, or one followed by a point and at most two decimals. */
  ghost predicate Writes(raw: string, whole: string, fraction: string) {
    && whole != "" && AllDigits(whole) && AllDigits(fraction) && |fraction| <= 2
    && (raw == whole + "." + fraction || (raw == whole && fraction == ""))
  }

  function ValueOf(digits: string): nat {
    if DigitsValue(digits).Some? then DigitsValue(digits).value else 0
  }

  /** The decimal number that the text writes. */
  function Yuan(whole: string, fraction: string): real {
    ValueOf(whole) as real + ValueOf(fraction) as real / Pow10(|fraction|) as real
  }

  function Fen(whole: string, fraction: string): nat {
    100 * ValueOf(whole) + ValueOf(Padded(fraction))
  }

  lemma {:induction false} NoPointInDigits(digits: string)
    requires AllDigits(digits)
    ensures '.' !in digits && '-' !in digits && forall i :: 0 <= i < |digits| ==> !IsSpace(digits[i])
  {
  }

  lemma ValueOfMore(digits: string, c: char)
    requires AllDigits(digits) && '0' <= c <= '9'
    ensures AllDigits(digits + [c]) && DigitsValue(digits + [c]).Some?
    ensures ValueOf(digits + [c]) == 10 * ValueOf(digits) + (c as int - '0' as int)
  {
    DigitsHaveValue(digits);
    assert (digits + [c])[..|digits|] == digits;
  }

  // The value of one and of two digits.
  lemma ValueOfTwo(c: char, d: char)
    requires '0' <= c <= '9' && '0' <= d <= '9'
    ensures AllDigits([c, d]) && DigitsValue([c, d]).Some?
    ensures ValueOf([c]) == c as int - '0' as int
    ensures ValueOf([c, d]) == 10 * ValueOf([c]) + (d as int - '0' as int) <= 99
  {
    ValueOfNothing();
    hide ValueOf, DigitsValue;
    ValueOfMore("", c);
    assert "" + [c] == [c];
    ValueOfMore([c], d);
    assert [c] + [d] == [c, d];
  }

  lemma ValueOfNothing()
    ensures ValueOf("") == 0
  {
  }

  lemma PaddedDigits(fraction: string)
    requires AllDigits(fraction) && |fraction| <= 2
    ensures AllDigits(Padded(fraction)) && |Padded(fraction)| == 2 && DigitsValue(Padded(fraction)).Some?
    ensures ValueOf(Padded(fraction)) <= 99
    ensures ValueOf(Padded(fraction)) * Pow10(|fraction|) == 100 * ValueOf(fraction)
  {
    assert Pow10(0) == 1 && Pow10(1) == 10 && Pow10(2) == 100;
    hide ValueOf, DigitsValue, Pow10;
    var c, d := Padded(fraction)[0], Padded(fraction)[1];
    assert Padded(fraction) == [c, d];
    ValueOfTwo(c, d);
    if fraction == "" {
      ValueOfNothing();
    } else if |fraction| == 1 {
      assert fraction == [c];
    } else {
      assert fraction == [c, d];
    }
  }

  /** Fen are a hundred times the decimal value. */
  lemma FenIsAHundredYuan(whole: string, fraction: string)
    requires AllDigits(whole) && AllDigits(fraction) && |fraction| <= 2
    ensures Fen(whole, fraction) as real == 100.0 * Yuan(whole, fraction)
  {
    PaddedDigits(fraction);
    var p := Pow10(|fraction|);
    assert Pow10(0) == 1 && Pow10(1) == 10 && Pow10(2) == 100;
    assert p == 1 || p == 10 || p == 100;
  }

  lemma WrapFits(n: int)
    requires 0 <= n
    ensures n <= MAX_INT ==> Wrap(n) == n
    ensures Wrap(n) <= MAX_INT
  {
  }

  lemma SplitOfWritten(raw: string, whole: string, fraction: string)
    requires Writes(raw, whole, fraction)
    ensures TrimSpace(raw) == raw
    ensures raw[0] != '-' && |Split(raw, '.')| <= 2 && Split(raw, '.')[0] == whole && Fraction(Split(raw, '.')) == fraction
  {
    NoPointInDigits(whole);
    NoPointInDigits(fraction);
    TrimKeeps(raw);
    if raw == whole {
      SplitNone(whole, '.');
    } else {
      SplitFirst(whole, '.', fraction);
      SplitNone(fraction, '.');
      assert whole + ['.'] + fraction == raw;
    }
  }

  // What the parser makes of a written price.
  lemma ParsesWritten(raw: string, whole: string, fraction: string)
    requires Writes(raw, whole, fraction)
    ensures ParsePriceFen(raw) ==
      if MAX_INT < ValueOf(whole) || Wrap(Fen(whole, fraction)) < 1 then None else Some(Wrap(Fen(whole, fraction)))
  {
    hide Wrap, Writes, TrimSpace, Split, Fraction, Padded, Atoi, DigitsValue;
    SplitOfWritten(raw, whole, fraction);
    WrittenParts(raw, whole, fraction);
    PaddedDigits(fraction);
    AtoiOfDigits(whole);
    AtoiOfDigits(Padded(fraction));
  }

  lemma WrittenParts(raw: string, whole: string, fraction: string)
    requires Writes(raw, whole, fraction)
    ensures raw != "" && whole != "" && AllDigits(whole) && AllDigits(fraction) && |fraction| <= 2
  {
  }

  /** A written price whose value in fen fits 64 bits is read exactly; zero is refused. The result is the
      written value if and only if that value is positive and fits. */
  lemma ReadsWrittenPrice(raw: string, whole: string, fraction: string)
    requires Writes(raw, whole, fraction)
    ensures ParsePriceFen(raw) == Some(Fen(whole, fraction)) <==> 1 <= Fen(whole, fraction) <= MAX_INT
    ensures Fen(whole, fraction) as real == 100.0 * Yuan(whole, fraction)
  {
    WrittenParts(raw, whole, fraction);
    FenIsAHundredYuan(whole, fraction);
    hide ParsePriceFen, Writes, Yuan, Padded, DigitsValue;
    ParsesWritten(raw, whole, fraction);
    WrapFits(Fen(whole, fraction));
  }

  /** Nothing but a written price is accepted. */
  lemma AcceptedIsWritten(input: string) returns (whole: string, fraction: string)
    requires ParsePriceFen(input).Some?
    ensures Writes(TrimSpace(input), whole, fraction) && ParsePriceFen(input).value == Wrap(Fen(whole, fraction))
  {
    hide TrimSpace, Split, Wrap, Atoi, DigitsValue;
    var raw := TrimSpace(input);
    var parts := Split(raw, '.');
    SplitInTwo(raw, '.');
    whole, fraction := parts[0], Fraction(parts);
    AtoiOfDigits(whole);
    PaddedDigits(fraction);
    AtoiOfDigits(Padded(fraction));
  }

  /** Printing any positive 64-bit amount and reading the text back gives the amount. */
  lemma PriceRoundTrip(fen: nat)
    requires 1 <= fen <= MAX_INT
    ensures ParsePriceFen(PriceText(fen)) == Some(fen)
  {
    hide ParsePriceFen, Show, Digits, DigitsValue;
    var whole, fraction := Show(fen / 100), Digits(fen % 100, 2);
    ShowReadsBack(fen / 100);
    assert Pow10(1) == 10 && Pow10(2) == 100;
    DigitsValueOfDigits(fen % 100, 2);
    assert Padded(fraction) == fraction;
    ReadsWrittenPrice(PriceText(fen), whole, fraction);
  }

  /** Above that range the product wraps around: this whole number of yuan, far above the largest price,
      is accepted as 84 fen. */
  lemma OverflowIsAccepted()
    ensures ParsePriceFen(Show(184_467_440_737_095_517)) == Some(84)
  {
    hide ParsePriceFen, Show, DigitsValue;
    var raw := Show(184_467_440_737_095_517);
    ShowReadsBack(184_467_440_737_095_517);
    ParsesWritten(raw, raw, "");
    ZeroFraction();
    assert Wrap(18_446_744_073_709_551_700) == 84;
  }

  lemma ZeroFraction()
    ensures ValueOf(Padded("")) == 0
  {
    PaddedDigits("");
  }
}
