// Which glyphs a reading is written in: everyday numerals, capital numerals, or the digits
// of a year. The decoder reads them all alike.
module CnGlyphs {
  import opened Decimal
  import opened CnNumber
  import opened CnShape

  predicate Within(s: string, glyphs: set<char>) {
    forall i :: 0 <= i < |s| ==> s[i] in glyphs
  }

  const SPOKEN_GLYPHS: set<char> :=
    {'零', '一', '二', '三', '四', '五', '六', '七', '八', '九', '两', '十', '百', '千', '万', '亿'}
  const CAPITAL_GLYPHS: set<char> :=
    {'零', '壹', '贰', '叁', '肆', '伍', '陆', '柒', '捌', '玖', '拾', '佰', '仟', '万', '亿'}

  function Numerals(style: Style): set<char> {
    if style.Spoken? then SPOKEN_GLYPHS else CAPITAL_GLYPHS
  }

  predicate IsNumeral(c: char) {
    c in {'一', '二', '三', '四', '五', '六', '七', '八', '九', '两', '壹', '贰', '叁', '肆', '伍', '陆', '柒', '捌', '玖'}
  }

  predicate IsSmallUnit(c: char) {
    c in {'十', '百', '千', '拾', '佰', '仟'}
  }

  // Every ten, hundred and thousand counts a digit written before it, but for one at the
  // front or after the sign.
  predicate UnitsCountAfterSign(s: string) {
    forall i :: 0 < i < |s| && IsSmallUnit(s[i]) && s[i - 1] != '负' ==> IsNumeral(s[i - 1])
  }

  // Without exception.
  predicate UnitsCount(s: string) {
    forall i :: 0 <= i < |s| && IsSmallUnit(s[i]) ==> i > 0 && IsNumeral(s[i - 1])
  }

  lemma NameGlyph(style: Style, d: nat)
    requires d <= 9
    ensures DigitName(style, d) in Numerals(style) && (d > 0 ==> IsNumeral(DigitName(style, d)))
    ensures !IsSmallUnit(DigitName(style, d))
  {
  }

  lemma UnitGlyph(style: Style, u: nat)
    requires u < 4
    ensures Within(SmallUnit(style, u), Numerals(style)) && |SmallUnit(style, u)| <= 1
  {
  }

  lemma GlyphsWithin(style: Style, any: bool, d: nat, p: nat)
    requires 1 <= d <= 9
    ensures var t := Glyphs(style, any, d, p);
            Within(t, Numerals(style)) && (any ==> UnitsCount(t)) && TailUnitsCount(t)
  {
    hide DigitName, SmallUnit, Numerals, IsNumeral, IsSmallUnit;
    NameGlyph(style, d);
    UnitGlyph(style, p % 4);
    UnitGlyph(style, 1);
    LiangGlyph();
  }

  lemma LiangGlyph()
    ensures '两' in Numerals(Spoken) && IsNumeral('两') && !IsSmallUnit('两')
  {
  }

  // The same but for a unit at the very front.
  predicate TailUnitsCount(s: string) {
    forall i :: 0 < i < |s| && IsSmallUnit(s[i]) ==> IsNumeral(s[i - 1])
  }

  lemma FlushWithin(style: Style, st: Scan)
    ensures Within(Flush(st), Numerals(style)) && UnitsCount(Flush(st))
  {
  }

  lemma EmitWithin(style: Style, st: Scan, d: nat, p: nat)
    requires d <= 9
    ensures var t := Emit(style, st, d, p); Within(t, Numerals(style)) && (st.any ==> UnitsCount(t))
  {
    hide Glyphs, Flush, Numerals, IsNumeral, IsSmallUnit;
    FlushWithin(style, st);
    ZeroGlyph(style);
    if d > 0 {
      GlyphsWithin(style, st.any, d, p);
    }
  }

  lemma FirstEmitWithin(style: Style, d: nat, p: nat)
    requires d <= 9
    ensures TailUnitsCount(Emit(style, START, d, p))
  {
    hide Glyphs, Numerals, IsNumeral, IsSmallUnit;
    if d > 0 {
      GlyphsWithin(style, false, d, p);
      assert Emit(style, START, d, p) == Glyphs(style, false, d, p);
    }
  }

  lemma ZeroGlyph(style: Style)
    ensures '零' in Numerals(style) && !IsSmallUnit('零')
  {
  }

  lemma {:induction false} ReadFromWithin(style: Style, s: string, st: Scan)
    requires AllDigits(s)
    ensures Within(ReadFrom(style, s, st), Numerals(style)) && (st.any ==> UnitsCount(ReadFrom(style, s, st)))
    decreases s
  {
    hide Emit, Flush, ReadFrom, Numerals, IsNumeral, IsSmallUnit;
    Unfold(style, s, st);
    if s == "" {
      FlushWithin(style, st);
    } else {
      var d, p := DigitOf(s[0]), |s| - 1;
      EmitWithin(style, st, d, p);
      ReadFromWithin(style, s[1..], Next(st, d, p));
    }
  }

  // The reading of any number is in the numerals of its style, and but for a leading ten
  // every unit counts a digit.
  lemma ReadingGlyphs(style: Style, n: nat)
    ensures var t := Reading(style, DigitsOf(n)); t != "" && Within(t, Numerals(style)) && TailUnitsCount(t)
    ensures n == 0 ==> Reading(style, DigitsOf(n)) == "零"
    ensures n > 0 ==> var t := Reading(style, DigitsOf(n)); t[|t| - 1] != '零'
  {
    hide Emit, Flush, ReadFrom, Numerals, IsNumeral, IsSmallUnit, DigitsOf;
    var s := DigitsOf(n);
    DigitsOfDenotes(n);
    ZeroGlyph(style);
    ReadFromWithin(style, s, START);
    Unfold(style, s, START);
    var d, p := DigitOf(s[0]), |s| - 1;
    EmitWithin(style, START, d, p);
    FirstEmitWithin(style, d, p);
    if n > 0 {
      ReadFromWithin(style, s[1..], Next(START, d, p));
      ReadingShape(style, n);
      NonZeroDigit(s[0]);
    } else {
      ZeroReads(style);
    }
  }

  lemma ZeroReads(style: Style)
    ensures DigitsOf(0) == "0" && ReadFrom(style, "0", START) == "" && Reading(style, "0") == "零"
  {
    assert "0"[1..] == "";
  }

  // ---- The three readings ---------------------------------------------------------------

  // The everyday reading: everyday numerals, a sign in front if and only if negative.
  lemma PlaceReadingGlyphs(n: int)
    ensures var t := PlaceReading(n);
            && t != "" && Within(t, SPOKEN_GLYPHS + {'负'})
            && (t[0] == '负' <==> n < 0) && (forall i :: 0 < i < |t| ==> t[i] != '负')
            && UnitsCountAfterSign(t)
            && (t == "零" <==> n == 0)
  {
    hide Reading, DigitsOf, IsNumeral, IsSmallUnit;
    ReadingGlyphs(Spoken, Abs(n));
    SignIsNone(Spoken);
  }

  lemma SignIsNone(style: Style)
    ensures '负' !in Numerals(style) && '圆' !in Numerals(style) && '整' !in Numerals(style)
  {
  }

  predicate IsMinorGlyph(c: char) {
    c in {'角', '分', '整', '零', '壹', '贰', '叁', '肆', '伍', '陆', '柒', '捌', '玖'}
  }

  predicate IsAmountGlyph(c: char) {
    c in CAPITAL_GLYPHS + {'负', '圆', '角', '分', '整'}
  }

  lemma MinorIsAmount(c: char)
    ensures IsMinorGlyph(c) ==> IsAmountGlyph(c) && c != '圆' && c != '负' && !IsSmallUnit(c)
    ensures c in Numerals(Capital) ==> IsAmountGlyph(c) && c != '圆' && c != '负' && c != '整'
    ensures IsAmountGlyph('圆') && IsAmountGlyph('负') && !IsSmallUnit('圆') && !IsSmallUnit('负')
  {
  }

  lemma CapitalNumeral(d: nat)
    requires d <= 9
    ensures var c := DigitName(Capital, d);
            IsMinorGlyph(c) && (c == '零' <==> d == 0) && c != '整' && c != '角' && c != '分'
    ensures IsMinorGlyph('角') && IsMinorGlyph('分') && IsMinorGlyph('整') && IsMinorGlyph('零')
  {
    NameGlyph(Capital, d);
  }

  // The tail of an amount: whole if and only if there is neither jiao nor fen, and 零 at
  // its front if and only if there is fen alone.
  lemma MinorGlyphs(jiao: nat, fen: nat)
    requires jiao <= 9 && fen <= 9
    ensures var t := MinorReading(jiao, fen);
            && t != "" && (forall i :: 0 <= i < |t| ==> IsMinorGlyph(t[i]))
            && (t[|t| - 1] == '整' <==> jiao == 0 && fen == 0) && HasNo(t[..|t| - 1], '整')
            && (t[0] == '零' <==> jiao == 0 && fen != 0) && HasNo(t[1..], '零')
            && (HasNo(t, '角') <==> jiao == 0) && (HasNo(t, '分') <==> fen == 0)
  {
    hide DigitName, IsMinorGlyph;
    CapitalNumeral(jiao);
    CapitalNumeral(fen);
    var t, j, f := MinorReading(jiao, fen), DigitName(Capital, jiao), DigitName(Capital, fen);
    if jiao == 0 && fen == 0 {
      assert t == ['整'];
    } else if jiao == 0 {
      assert t == ['零', f, '分'];
      assert t[2] == '分';
    } else if fen == 0 {
      assert t == [j, '角'];
      assert t[1] == '角';
    } else {
      assert t == [j, '角', f, '分'];
      assert t[1] == '角' && t[3] == '分';
    }
  }

  // The whole part of an amount with its sign.
  function WholeReading(c: int): string {
    (if c < 0 then "负" else "") + Reading(Capital, DigitsOf(Abs(c) / 100))
  }

  lemma WholeGlyphs(c: int)
    ensures var t := WholeReading(c);
            && t != "" && (forall i :: 0 <= i < |t| ==> IsAmountGlyph(t[i]) && t[i] != '圆' && t[i] != '整')
            && (t[0] == '负' <==> c < 0) && HasNo(t[1..], '负')
            && (t[|t| - 1] == '零' <==> Abs(c) / 100 == 0)
            && UnitsCountAfterSign(t)
  {
    hide Reading, DigitsOf, IsNumeral, IsSmallUnit, Numerals, IsAmountGlyph, IsMinorGlyph;
    var whole := Reading(Capital, DigitsOf(Abs(c) / 100));
    ReadingGlyphs(Capital, Abs(c) / 100);
    MinorIsAmount('负');
    forall i | 0 <= i < |whole|
      ensures IsAmountGlyph(whole[i]) && whole[i] != '圆' && whole[i] != '整' && whole[i] != '负'
    {
      MinorIsAmount(whole[i]);
    }
  }

  // A whole part, 圆 and a tail, joined.
  lemma Joined(whole: string, tail: string)
    requires whole != "" && tail != ""
    requires forall i :: 0 <= i < |whole| ==> IsAmountGlyph(whole[i]) && whole[i] != '圆' && whole[i] != '整'
    requires forall i :: 0 <= i < |tail| ==> IsMinorGlyph(tail[i])
    ensures var t, k := whole + "圆" + tail, |whole|;
            && Within(t, CAPITAL_GLYPHS + {'负', '圆', '角', '分', '整'})
            && t[k] == '圆' && (forall i :: 0 <= i < |t| && i != k ==> t[i] != '圆')
            && (HasNo(whole[1..], '负') ==> HasNo(t[1..], '负'))
            && (HasNo(tail[..|tail| - 1], '整') ==> HasNo(t[..|t| - 1], '整'))
            && (UnitsCountAfterSign(whole) ==> UnitsCountAfterSign(t))
  {
    hide IsNumeral, IsSmallUnit, IsMinorGlyph;
    MinorIsAmount('圆');
    forall i | 0 <= i < |tail|
      ensures IsAmountGlyph(tail[i]) && tail[i] != '圆' && tail[i] != '负' && !IsSmallUnit(tail[i])
    {
      MinorIsAmount(tail[i]);
    }
  }

  // The capital amount: capital numerals, 圆 once, at k; a sign if and only if negative;
  // 零 before 圆 if and only if there is no whole yuan; 整 at the end, and nowhere else, if
  // and only if there is nothing below one; 零 after 圆 if and only if there is fen alone.
  lemma AmountReadingGlyphs(c: int) returns (k: nat)
    ensures var t := AmountReading(c); var m := Abs(c);
            && Within(t, CAPITAL_GLYPHS + {'负', '圆', '角', '分', '整'})
            && 0 < k < |t| - 1 && t[k] == '圆' && (forall i :: 0 <= i < |t| && i != k ==> t[i] != '圆')
            && (t[0] == '负' <==> c < 0) && HasNo(t[1..], '负')
            && (t[k - 1] == '零' <==> m / 100 == 0)
            && (t[|t| - 1] == '整' <==> m % 100 == 0) && HasNo(t[..|t| - 1], '整')
            && (t[k + 1] == '零' <==> m / 10 % 10 == 0 && m % 10 != 0)
            && UnitsCountAfterSign(t)
  {
    hide MinorReading, WholeReading, IsAmountGlyph, IsMinorGlyph, UnitsCountAfterSign, HasNo, Within, AmountReading;
    var m := Abs(c);
    var whole, tail := WholeReading(c), MinorReading(m / 10 % 10, m % 10);
    WholeGlyphs(c);
    MinorGlyphs(m / 10 % 10, m % 10);
    k := |whole|;
    AmountParts(c);
    Joined(whole, tail);
  }

  lemma AmountParts(c: int)
    ensures AmountReading(c) == WholeReading(c) + "圆" + MinorReading(Abs(c) / 10 % 10, Abs(c) % 10)
  {
  }

  const YEAR_GLYPHS: set<char> := {'负', '〇', '一', '二', '三', '四', '五', '六', '七', '八', '九'}

  // A year or serial number: one glyph a character, 〇 for zero and never 零.
  lemma YearReadingGlyphs(s: string)
    requires YearReading(s).Some?
    ensures var t := YearReading(s).value;
            && |t| == |s| && Within(t, YEAR_GLYPHS) && HasNo(t, '零')
            && forall i :: 0 <= i < |s| ==> (t[i] == '〇' <==> s[i] == '0') && (t[i] == '负' <==> s[i] == '-')
  {
    forall i | 0 <= i < |s|
      ensures YearGlyph(s[i]) in YEAR_GLYPHS && YearGlyph(s[i]) != '零'
      ensures (YearGlyph(s[i]) == '〇' <==> s[i] == '0') && (YearGlyph(s[i]) == '负' <==> s[i] == '-')
    {
      YearGlyphIs(s[i]);
    }
  }

  lemma YearGlyphIs(c: char)
    requires IsDigit(c) || c == '-'
    ensures YearGlyph(c) in YEAR_GLYPHS && YearGlyph(c) != '零'
    ensures (YearGlyph(c) == '〇' <==> c == '0') && (YearGlyph(c) == '负' <==> c == '-')
  {
  }
}
