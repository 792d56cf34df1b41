// The readings offered for a number all denote it
// (src/domains/input-engine/logic/candidate/number_currency_source.cpp).
module NumberAgreement {
  import opened Decimal
  import opened CnNumber
  import opened CnDecoder
  import opened Candidates
  import opened Sources

  lemma NoDot(s: string)
    requires AllDigits(s)
    ensures '.' !in s && IntPart(s) == s && FracPart(s) == ""
  {
    assert forall i :: 0 <= i < |s| ==> IsDigit(s[i]);
  }

  // An integer is an amount of whole yuan.
  lemma IntegerIsAmount(body: string)
    requires IntegerOf(body).Some?
    ensures '.' !in body && DigitsAndSigns(body)
    ensures CentsOf(body) == Some(100 * IntegerOf(body).value)
  {
    hide RoundCents;
    var digits := Unsigned(body);
    NoDot(digits);
    assert digits + "" == digits;
    RoundCentsShort(DecValue(digits), 0);
    var v := DecValue(digits);
    assert Shift(v, 2) == 10 * Shift(v, 1) == 100 * v;
    assert body == (if IsNegative(body) then "-" else "") + digits;
  }

  // For an integer body the source offers four readings. Digit by digit and literally it
  // is always the number typed; the place-value reading and the capital amount denote it
  // exactly below 10^16.
  lemma IntegerReadingsAgree(body: string)
    requires IntegerOf(body).Some?
    ensures var n := IntegerOf(body).value; var items := NumberItems(body);
            && |items| == 4 && items[3].text == body
            && DecodeYear(items[1].text) == body
            && (DecodeInteger(items[0].text) == n <==> -TEN_16 < n < TEN_16)
            && (DecodeCents(items[2].text) == 100 * n <==> -TEN_16 < n < TEN_16)
  {
    hide IntegerOf, CentsOf, PlaceReading, AmountReading, YearReading, DecodeYear, DecodeInteger, DecodeCents;
    IntegerIsAmount(body);
    var n := IntegerOf(body).value;
    PlaceReadingRoundTrip(n);
    AmountReadingRoundTrip(100 * n);
    YearReadingRoundTrip(body);
    NotEmpty(body);
    FourItems(body, n);
  }

  lemma NotEmpty(body: string)
    requires IntegerOf(body).Some?
    ensures body != ""
  {
  }

  lemma FourItems(body: string, n: int)
    requires '.' !in body && IntegerOf(body) == Some(n) && CentsOf(body) == Some(100 * n) && YearReading(body).Some?
    ensures NumberItems(body)
         == [Plain(PlaceReading(n)), Plain(YearReading(body).value), Plain(AmountReading(100 * n)), Plain(body)]
  {
  }

  // A body of digits and signs that denotes no integer offers only itself.
  lemma OtherBodiesAreLiteral(body: string)
    requires '.' !in body && IntegerOf(body).None?
    ensures NumberItems(body) == [Plain(body)]
  {
  }

  // A body with a point offers the amount, rounded to the cent, and the literal text; one
  // that is no number at all only itself.
  lemma AmountReadingAgrees(body: string)
    requires '.' in body
    ensures var items := NumberItems(body);
            match CentsOf(body)
            case None => items == [Plain(body)]
            case Some(cents) =>
              && |items| == 2 && items[1].text == body
              && (DecodeCents(items[0].text) == cents <==> -TEN_18 < cents < TEN_18)
  {
    hide CentsOf, AmountReading, DecodeCents;
    if CentsOf(body).Some? {
      AmountReadingRoundTrip(CentsOf(body).value);
    }
  }
}
