// The shape of a reading, which the decoder does not see: where 零 stands, when a leading
// two is 两, and when a leading one is left out.
module CnShape {
  import opened Decimal
  import opened CnNumber

  function CountZeros(s: string): nat {
    if s == "" then 0 else (if s[0] == '零' then 1 else 0) + CountZeros(s[1..])
  }

  lemma {:induction false} CountZerosAppend(s: string, t: string)
    ensures CountZeros(s + t) == CountZeros(s) + CountZeros(t)
  {
    if s == "" {
      assert s + t == t;
    } else {
      assert (s + t)[0] == s[0] && (s + t)[1..] == s[1..] + t;
      CountZerosAppend(s[1..], t);
    }
  }

  // Runs of zeros with a non-zero digit on both sides.
  function ZeroGaps(s: string): nat
    requires AllDigits(s)
  {
    if |s| < 2 then 0
    else
      var k := |s| - 1;
      ZeroGaps(s[..k]) + if s[k] != '0' && s[k - 1] == '0' && DecValue(s[..k]) > 0 then 1 else 0
  }

  // Every 零 is followed by something other than 零: none is last and none is doubled.
  predicate ZerosLead(s: string) {
    forall i :: 0 <= i < |s| && s[i] == '零' ==> i + 1 < |s| && s[i + 1] != '零'
  }

  predicate HasNo(s: string, c: char) {
    forall i :: 0 <= i < |s| ==> s[i] != c
  }

  lemma GlyphsPlain(style: Style, any: bool, d: nat, p: nat)
    requires 1 <= d <= 9
    ensures var t := Glyphs(style, any, d, p); t != "" && HasNo(t, '零') && (any ==> HasNo(t, '两'))
  {
  }

  lemma FlushPlain(st: Scan)
    ensures HasNo(Flush(st), '零') && HasNo(Flush(st), '两')
  {
  }

  lemma {:induction false} NoZeros(s: string)
    requires HasNo(s, '零')
    ensures CountZeros(s) == 0
  {
    if s != "" {
      NoZeros(s[1..]);
    }
  }

  lemma EmitShape(style: Style, st: Scan, d: nat, p: nat)
    requires d <= 9
    ensures var t := Emit(style, st, d, p);
            && ZerosLead(t)
            && CountZeros(t) == (if d > 0 && st.pending then 1 else 0)
            && (st.any || d == 0 ==> HasNo(t, '两'))
  {
    hide Glyphs, Flush, CountZeros;
    var flush := if p / 4 != st.group then Flush(st) else "";
    FlushPlain(st);
    NoZeros(flush);
    NoZeros("");
    if d == 0 {
      assert Emit(style, st, d, p) == flush;
    } else {
      var zero, glyphs := if st.pending then "零" else "", Glyphs(style, st.any, d, p);
      GlyphsPlain(style, st.any, d, p);
      NoZeros(glyphs);
      assert Emit(style, st, d, p) == flush + (zero + glyphs);
      CountZerosAppend(flush, zero + glyphs);
      CountZerosAppend(zero, glyphs);
      OneZero();
    }
  }

  lemma OneZero()
    ensures CountZeros("零") == 1
  {
    assert "零"[1..] == "";
  }

  // The reader's text for the digits from i on, against the digits before.
  lemma {:induction false} ReadFromShape(style: Style, s: string, i: nat, st: Scan)
    requires AllDigits(s) && i <= |s|
    requires st.any <==> DecValue(s[..i]) > 0
    requires st.pending <==> i > 0 && s[i - 1] == '0' && st.any
    ensures var t := ReadFrom(style, s[i..], st);
            && ZerosLead(t)
            && CountZeros(t) + ZeroGaps(s[..i]) == ZeroGaps(s)
            && (st.any ==> HasNo(t, '两'))
    decreases |s| - i
  {
    hide Emit, Flush, ReadFrom, CountZeros, ZeroGaps, DecValue;
    Unfold(style, s[i..], st);
    if i == |s| {
      assert s[i..] == "" && s[..i] == s;
      FlushPlain(st);
      NoZeros(Flush(st));
    } else {
      var d, p := DigitOf(s[i]), |s| - 1 - i;
      var nx := Next(st, d, p);
      assert s[i..][1..] == s[i + 1..];
      assert s[..i + 1] == s[..i] + [s[i]];
      ValueGrows(s, i);
      GapsGrow(s, i);
      EmitShape(style, st, d, p);
      ReadFromShape(style, s, i + 1, nx);
      CountZerosAppend(Emit(style, st, d, p), ReadFrom(style, s[i + 1..], nx));
    }
  }

  lemma ValueGrows(s: string, i: nat)
    requires AllDigits(s) && i < |s|
    ensures DecValue(s[..i + 1]) > 0 <==> DecValue(s[..i]) > 0 || s[i] != '0'
  {
    assert s[..i + 1][..i] == s[..i];
  }

  lemma GapsGrow(s: string, i: nat)
    requires AllDigits(s) && i < |s|
    ensures ZeroGaps(s[..i + 1])
         == ZeroGaps(s[..i]) + if i > 0 && s[i] != '0' && s[i - 1] == '0' && DecValue(s[..i]) > 0 then 1 else 0
  {
    assert s[..i + 1][..i] == s[..i];
  }

  // The first glyph of a reading whose leading digit d stands at position p.
  function Lead(style: Style, d: nat, p: nat): char
    requires d <= 9
  {
    if d == 1 && p % 4 == 1 then (if style.Spoken? then '十' else '拾')
    else if d == 2 && style.Spoken? && (p % 4 >= 2 || (p % 4 == 0 && p >= 4)) then '两'
    else if style.Spoken? then "零一二三四五六七八九"[d] else "零壹贰叁肆伍陆柒捌玖"[d]
  }

  lemma EmitLead(style: Style, d: nat, p: nat)
    requires 1 <= d <= 9
    ensures var t := Emit(style, START, d, p);
            t != "" && t[0] == Lead(style, d, p) && HasNo(t[1..], '两') && t[0] != '零'
  {
  }

  // Shape of the reading of any positive number:
  // the first glyph is fixed by the leading digit and its place, 两 appears nowhere else,
  // 零 is never first, last or doubled, and there is one for each gap of zeros.
  lemma ReadingShape(style: Style, n: nat)
    requires n > 0
    ensures var s, t := DigitsOf(n), Reading(style, DigitsOf(n));
            && t != "" && t[0] == Lead(style, DigitOf(s[0]), |s| - 1)
            && HasNo(t[1..], '两')
            && t[0] != '零' && ZerosLead(t)
            && CountZeros(t) == ZeroGaps(s)
  {
    hide Emit, ReadFrom, CountZeros, ZeroGaps, Lead, DigitsOf;
    var s := DigitsOf(n);
    DigitsOfDenotes(n);
    var d, p := DigitOf(s[0]), |s| - 1;
    NonZeroDigit(s[0]);
    var text, nx := Emit(style, START, d, p), Next(START, d, p);
    EmitLead(style, d, p);
    Unfold(style, s, START);
    FirstStep(s);
    ReadFromShape(style, s, 0, START);
    ReadFromShape(style, s, 1, nx);
    assert s[0..] == s;
    var rest := ReadFrom(style, s[1..], nx);
    assert (text + rest)[1..] == text[1..] + rest;
  }

  lemma NonZeroDigit(c: char)
    requires IsDigit(c) && c != '0'
    ensures DigitOf(c) >= 1
  {
  }

  lemma FirstStep(s: string)
    requires AllDigits(s) && s != "" && s[0] != '0'
    ensures DecValue(s[..0]) == 0 && DecValue(s[..1]) > 0
    ensures ZeroGaps(s[..0]) == 0
  {
    ValueGrows(s, 0);
  }
}
