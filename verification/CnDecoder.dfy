// A decoder for Chinese numerals, written from the meaning of the glyphs and not from the
// printer, and the proof that it inverts the printer exactly where the printer has units.
module CnDecoder {
  import opened Decimal
  import opened CnNumber

  // Value read so far: whole yuan already closed by 圆, tenths and hundredths in cents,
  // what 亿 has closed, what 万 has closed since, the current section, the last digit.
  datatype Acc = Acc(neg: bool, yuan: nat, minor: nat, total: nat, wan: nat, sec: nat, dig: nat)

  const ZERO := Acc(false, 0, 0, 0, 0, 0, 0)

  function GlyphDigit(c: char): (d: Option<nat>)
    ensures d.Some? ==> d.value <= 9
  {
    if c == '零' || c == '〇' then Some(0)
    else if c == '一' || c == '壹' then Some(1)
    else if c == '二' || c == '贰' || c == '两' then Some(2)
    else if c == '三' || c == '叁' then Some(3)
    else if c == '四' || c == '肆' then Some(4)
    else if c == '五' || c == '伍' then Some(5)
    else if c == '六' || c == '陆' then Some(6)
    else if c == '七' || c == '柒' then Some(7)
    else if c == '八' || c == '捌' then Some(8)
    else if c == '九' || c == '玖' then Some(9)
    else None
  }

  // The digit a unit multiplies; a bare unit counts once, as in 十五.
  function Multiplier(a: Acc): nat {
    if a.dig == 0 then 1 else a.dig
  }

  function Feed(a: Acc, c: char): Acc {
    if GlyphDigit(c).Some? then a.(dig := GlyphDigit(c).value)
    else if c == '十' || c == '拾' then a.(sec := a.sec + 10 * Multiplier(a), dig := 0)
    else if c == '百' || c == '佰' then a.(sec := a.sec + 100 * Multiplier(a), dig := 0)
    else if c == '千' || c == '仟' then a.(sec := a.sec + 1000 * Multiplier(a), dig := 0)
    else if c == '万' then a.(wan := a.wan + a.sec + a.dig, sec := 0, dig := 0)
    else if c == '亿' then
      a.(total := a.total + 100000000 * (10000 * a.wan + a.sec + a.dig), wan := 0, sec := 0, dig := 0)
    else if c == '负' then a.(neg := true)
    else if c == '圆' then a.(yuan := Value(a), total := 0, wan := 0, sec := 0, dig := 0)
    else if c == '角' then a.(minor := a.minor + 10 * a.dig, dig := 0)
    else if c == '分' then a.(minor := a.minor + a.dig, dig := 0)
    else a
  }

  function Value(a: Acc): nat {
    a.total + 10000 * a.wan + a.sec + a.dig
  }

  function Run(a: Acc, s: string): Acc
    decreases s
  {
    if s == "" then a else Run(Feed(a, s[0]), s[1..])
  }

  // What a text reads as, as a whole number and as cents.
  function DecodeInteger(s: string): int {
    var a := Run(ZERO, s);
    Signed(a.neg, Value(a))
  }

  function DecodeCents(s: string): int {
    var a := Run(ZERO, s);
    Signed(a.neg, 100 * a.yuan + a.minor)
  }

  lemma {:induction false} RunAppend(a: Acc, s: string, t: string)
    ensures Run(a, s + t) == Run(Run(a, s), t)
    decreases s
  {
    hide Feed;
    if s == "" {
      assert s + t == t;
    } else {
      assert (s + t)[0] == s[0] && (s + t)[1..] == s[1..] + t;
      RunAppend(Feed(a, s[0]), s[1..], t);
    }
  }

  lemma RunOne(a: Acc, c: char)
    ensures Run(a, [c]) == Feed(a, c)
  {
    hide Feed;
    assert [c][1..] == "";
  }

  lemma RunTwo(a: Acc, c: char, d: char)
    ensures Run(a, [c, d]) == Feed(Feed(a, c), d)
  {
    hide Feed;
    assert [c, d][1..] == [d];
    RunOne(Feed(a, c), d);
  }

  lemma RunNone(a: Acc)
    ensures Run(a, "") == a
  {
  }

  lemma RunZero(a: Acc)
    ensures Run(a, "零") == a.(dig := 0)
  {
    RunOne(a, '零');
  }

  lemma RunSign(neg: bool)
    ensures Run(ZERO, if neg then "负" else "") == ZERO.(neg := neg)
  {
    RunOne(ZERO, '负');
  }

  lemma RunYuan(a: Acc)
    ensures Run(a, "圆") == a.(yuan := Value(a), total := 0, wan := 0, sec := 0, dig := 0)
  {
    RunOne(a, '圆');
  }

  // ---- What the pieces printed for one digit decode to ------------------------

  lemma NameDecodes(style: Style, d: nat)
    requires d <= 9
    ensures GlyphDigit(DigitName(style, d)) == Some(d)
  {
  }

  // Weight of one unit of a section in group g; the groups from the fifth on have no unit
  // of their own and are read with the fourth.
  function Scaled(v: nat, g: int): nat {
    if g >= 3 then 1000000000000 * v else if g == 2 then 100000000 * v else if g == 1 then 10000 * v else v
  }

  function Pending(a: Acc, g: int): nat {
    a.total + 10000 * a.wan + Scaled(a.sec + a.dig, g)
  }

  function SmallWeight(u: nat): nat {
    if u == 0 then 1 else if u == 1 then 10 else if u == 2 then 100 else 1000
  }

  // The reader's account of a partial text, against the printer's: nothing read before
  // anything is printed, and 万 is used only for the last boundary.
  predicate Tracks(st: Scan, a: Acc, n: nat) {
    && (st.group < 0 ==> !st.any && !st.content)
    && (st.group >= 0 ==> st.group == n / 4)
    && (!st.any ==> a.total == a.wan == a.sec == a.dig == 0)
    && (st.group != 0 ==> a.wan == 0)
  }

  // Nothing is left over from a group that had no unit.
  predicate Exact(st: Scan, a: Acc, n: nat) {
    && st.group <= 3 && (st.group < 0 ==> n <= 16)
    && (st.content || a.sec + a.dig == 0)
    && (a.dig != 0 ==> n % 4 == 0)
  }

  predicate SameTail(a: Acc, b: Acc) {
    a.neg == b.neg && a.yuan == b.yuan && a.minor == b.minor
  }

  lemma FlushDecodes(st: Scan, a: Acc, n: nat)
    requires Tracks(st, a, n) && n > 0 && st.group != (n - 1) / 4
    ensures var b := Run(a, Flush(st)); var g := (n - 1) / 4;
            && Pending(b, g) <= Pending(a, st.group)
            && (Exact(st, a, n) ==> Pending(b, g) == Pending(a, st.group) && b.sec + b.dig == 0 && g <= 3)
            && (g != 0 ==> b.wan == 0)
            && (!st.any ==> b == a)
            && SameTail(a, b)
  {
    hide Feed, Run;
    if st.content && st.group == 3 {
      RunTwo(a, '万', '亿');
      FeedWan(a);
      FeedYi(Feed(a, '万'));
    } else if st.content && st.group == 2 {
      RunOne(a, '亿');
      FeedYi(a);
    } else if st.content && st.group == 1 {
      RunOne(a, '万');
      FeedWan(a);
    } else {
      RunNone(a);
    }
  }

  lemma FeedWan(a: Acc)
    ensures Feed(a, '万') == a.(wan := a.wan + a.sec + a.dig, sec := 0, dig := 0)
  {
  }

  lemma FeedYi(a: Acc)
    ensures Feed(a, '亿')
         == a.(total := a.total + 100000000 * (10000 * a.wan + a.sec + a.dig), wan := 0, sec := 0, dig := 0)
  {
  }

  lemma FeedDigit(a: Acc, style: Style, liang: bool, d: nat)
    requires 1 <= d <= 9 && (liang ==> d == 2)
    ensures Feed(a, if liang then '两' else DigitName(style, d)) == a.(dig := d)
  {
  }

  lemma FeedUnit(a: Acc, style: Style, u: nat)
    requires 1 <= u < 4
    ensures SmallUnit(style, u) == [SmallUnit(style, u)[0]]
    ensures Feed(a, SmallUnit(style, u)[0]) == a.(sec := a.sec + SmallWeight(u) * Multiplier(a), dig := 0)
  {
  }

  lemma GlyphsDecode(style: Style, any: bool, d: nat, p: nat, a: Acc)
    requires 1 <= d <= 9 && (!any ==> a.dig == 0)
    ensures var u := p % 4; var b := Run(a, Glyphs(style, any, d, p));
            && (u == 0 ==> b == a.(dig := d))
            && (u > 0 ==> b == a.(sec := a.sec + SmallWeight(u) * d, dig := 0))
  {
    hide Feed, GlyphDigit, DigitName, SmallUnit;
    var u, liang := p % 4, ReadsLiang(style, any, d, p);
    var name := if liang then '两' else DigitName(style, d);
    FeedDigit(a, style, liang, d);
    if u == 0 {
      assert Glyphs(style, any, d, p) == [name] by { NoUnit(style); }
      RunOne(a, name);
    } else {
      FeedUnit(a, style, u);
      FeedUnit(a.(dig := d), style, u);
      if u == 1 && d == 1 && !any {
        RunOne(a, SmallUnit(style, 1)[0]);
      } else {
        assert Glyphs(style, any, d, p) == [name, SmallUnit(style, u)[0]];
        RunTwo(a, name, SmallUnit(style, u)[0]);
      }
    }
  }

  lemma NoUnit(style: Style)
    ensures SmallUnit(style, 0) == ""
  {
  }

  // A non-zero digit with the zero owed before it.
  lemma PrintedDecodes(style: Style, pending: bool, any: bool, d: nat, p: nat, a: Acc)
    requires 1 <= d <= 9 && (!any ==> a.dig == 0)
    ensures Run(a, (if pending then "零" else "") + Glyphs(style, any, d, p)) == Account(a, d, p)
  {
    hide Run, Feed, Glyphs;
    var zero, glyphs := if pending then "零" else "", Glyphs(style, any, d, p);
    RunNone(a);
    RunZero(a);
    RunAppend(a, zero, glyphs);
    GlyphsDecode(style, any, d, p, Run(a, zero));
  }

  // The account after a digit d > 0 at position p of the group being read.
  function Account(a: Acc, d: nat, p: nat): Acc {
    if p % 4 == 0 then a.(dig := d) else a.(sec := a.sec + SmallWeight(p % 4) * d, dig := 0)
  }

  lemma EmitDecodes(style: Style, st: Scan, d: nat, a: Acc, n: nat)
    requires d <= 9 && n > 0 && Tracks(st, a, n)
    ensures var p := n - 1;
            var b := Run(a, if p / 4 != st.group then Flush(st) else "");
            Run(a, Emit(style, st, d, p)) == if d == 0 then b else Account(b, d, p)
  {
    hide Run, Feed, Flush, Glyphs, Account;
    var p := n - 1;
    var flush := if p / 4 != st.group then Flush(st) else "";
    var b := Run(a, flush);
    if d == 0 {
      assert Emit(style, st, d, p) == flush;
    } else {
      var rest := (if st.pending then "零" else "") + Glyphs(style, st.any, d, p);
      assert Emit(style, st, d, p) == flush + rest;
      RunAppend(a, flush, rest);
      if p / 4 != st.group {
        FlushDecodes(st, a, n);
      } else {
        RunNone(a);
      }
      PrintedDecodes(style, st.pending, st.any, d, p, b);
    }
  }

  lemma ScaledAdd(x: nat, y: nat, g: int)
    ensures Scaled(x + y, g) == Scaled(x, g) + Scaled(y, g)
  {
  }

  lemma AccountGrows(a: Acc, d: nat, p: nat)
    requires 1 <= d <= 9
    ensures Pending(Account(a, d, p), p / 4) <= Pending(a, p / 4) + Scaled(SmallWeight(p % 4) * d, p / 4)
    ensures a.dig == 0 ==>
              Pending(Account(a, d, p), p / 4) == Pending(a, p / 4) + Scaled(SmallWeight(p % 4) * d, p / 4)
  {
    hide Scaled;
    var g, v := p / 4, SmallWeight(p % 4) * d;
    ScaledAdd(a.sec, v, g);
    ScaledAdd(a.sec, a.dig, g);
  }

  // One digit: the account grows by at most the digit's place value, and by exactly that
  // in the four groups that have units.
  lemma DigitDecodes(style: Style, st: Scan, d: nat, a: Acc, n: nat)
    requires d <= 9 && n > 0 && Tracks(st, a, n)
    ensures var p := n - 1; var b := Run(a, Emit(style, st, d, p)); var nx := Next(st, d, p);
            && Tracks(nx, b, p) && nx.group == p / 4
            && Pending(b, p / 4) <= Pending(a, st.group) + Scaled(SmallWeight(p % 4) * d, p / 4)
            && (Exact(st, a, n) ==>
                  Exact(nx, b, p) && Pending(b, p / 4) == Pending(a, st.group) + Scaled(SmallWeight(p % 4) * d, p / 4))
            && SameTail(a, b)
  {
    hide Run, Feed, Flush, Emit, Scaled, SmallWeight, Pending;
    var p := n - 1;
    var b := Run(a, if p / 4 != st.group then Flush(st) else "");
    if p / 4 != st.group {
      FlushDecodes(st, a, n);
    } else {
      RunNone(a);
    }
    EmitDecodes(style, st, d, a, n);
    WeightPositive(p % 4, p / 4, d);
    if d > 0 {
      AccountGrows(b, d, p);
    }
  }

  lemma WeightPositive(u: nat, g: int, d: nat)
    ensures d == 0 ==> Scaled(SmallWeight(u) * d, g) == 0
    ensures d > 0 ==> SmallWeight(u) * d > 0
  {
  }

  lemma PlaceValue(d: nat, p: nat)
    requires d <= 9
    ensures p < 16 ==> Scaled(SmallWeight(p % 4) * d, p / 4) == Shift(d, p)
    ensures Scaled(SmallWeight(p % 4) * d, p / 4) <= Shift(d, p)
    ensures p >= 16 && d > 0 ==> Scaled(SmallWeight(p % 4) * d, p / 4) < Shift(d, p)
  {
    PlaceValueSmall(d, p % 4);
    if p < 16 {
      PlaceValueGroup(d, p);
    } else {
      var u := p % 4;
      PlaceValueGroup(d, 12 + u);
      ShiftMono(d, d, 16 + u, p);
      ShiftShift(d, 12 + u, 4);
      FourMore(Shift(d, 12 + u));
    }
  }

  lemma FourMore(v: nat)
    ensures Shift(v, 4) == 10000 * v
  {
    assert Shift(v, 4) == 10 * Shift(v, 3) == 100 * Shift(v, 2) == 1000 * Shift(v, 1);
  }

  lemma PlaceValueSmall(d: nat, u: nat)
    requires u < 4
    ensures Shift(d, u) == SmallWeight(u) * d
  {
    assert Shift(d, 3) == 10 * Shift(d, 2) == 100 * Shift(d, 1);
  }

  lemma PlaceValueGroup(d: nat, p: nat)
    requires p < 16
    ensures Shift(d, p) == Scaled(SmallWeight(p % 4) * d, p / 4)
  {
    hide Shift;
    var u, g := p % 4, p / 4;
    PlaceValueSmall(d, u);
    var v := Shift(d, u);
    if g >= 1 {
      ShiftShift(d, u, 4);
      FourMore(v);
    }
    if g >= 2 {
      ShiftShift(d, u + 4, 4);
      FourMore(Shift(d, u + 4));
    }
    if g >= 3 {
      ShiftShift(d, u + 8, 4);
      FourMore(Shift(d, u + 8));
    }
  }

  // ---- Whole readings -----------------------------------------------------------

  lemma ReadNone(style: Style, st: Scan)
    ensures DecValue("") == 0
    ensures st.group <= 0 ==> ReadFrom(style, "", st) == ""
  {
  }

  lemma {:induction false} ReadFromDecodes(style: Style, s: string, st: Scan, a: Acc)
    requires AllDigits(s) && Tracks(st, a, |s|)
    ensures var b := Run(a, ReadFrom(style, s, st));
            && SameTail(a, b)
            && Value(b) <= Pending(a, st.group) + DecValue(s)
            && (Exact(st, a, |s|) ==> Value(b) == Pending(a, st.group) + DecValue(s))
    decreases |s|
  {
    hide Feed, Run, Shift, DecValue, Emit, Next;
    if s == "" {
      RunNone(a);
      ReadNone(style, st);
    } else {
      var d, p := DigitOf(s[0]), |s| - 1;
      var text, nx := Emit(style, st, d, p), Next(st, d, p);
      var b := Run(a, text);
      DigitDecodes(style, st, d, a, |s|);
      RunAppend(a, text, ReadFrom(style, s[1..], nx));
      ReadFromDecodes(style, s[1..], nx, b);
      PlaceValue(d, p);
      assert s == [s[0]] + s[1..];
      DecValueCons(s[0], s[1..]);
    }
  }

  // Beyond sixteen digits the first digit is always undervalued.
  lemma LongReadingDecodesLess(style: Style, s: string, a: Acc)
    requires AllDigits(s) && |s| > 16 && s[0] != '0' && Value(a) == 0
    ensures var b := Run(a, ReadFrom(style, s, START)); SameTail(a, b) && Value(b) < DecValue(s)
  {
    hide Feed, Run, ReadFrom, Shift, DecValue, Emit, Next;
    var d, p := DigitOf(s[0]), |s| - 1;
    assert s[0] == DigitChar(d);
    var text, nx := Emit(style, START, d, p), Next(START, d, p);
    Unfold(style, s, START);
    DigitDecodes(style, START, d, a, |s|);
    RunAppend(a, text, ReadFrom(style, s[1..], nx));
    ReadFromDecodes(style, s[1..], nx, Run(a, text));
    PlaceValue(d, p);
    assert s == [s[0]] + s[1..];
    DecValueCons(s[0], s[1..]);
  }

  const TEN_16 := 10000000000000000
  const TEN_18 := 1000000000000000000

  lemma Ten16()
    ensures Shift(1, 16) == TEN_16
  {
    PlaceValueGroup(1, 12);
    ShiftShift(1, 12, 4);
    FourMore(Shift(1, 12));
  }

  lemma SixteenDigits(n: nat)
    ensures |DigitsOf(n)| <= 16 <==> n < TEN_16
  {
    DigitsOfDenotes(n);
    Ten16();
    if n > 0 {
      if |DigitsOf(n)| <= 16 {
        ShiftMono(1, 1, |DigitsOf(n)|, 16);
      } else {
        ShiftMono(1, 1, 16, |DigitsOf(n)| - 1);
      }
    }
  }

  // The reading of n decodes to n exactly below 10^16.
  lemma ReadingDecodes(style: Style, n: nat, a: Acc)
    requires Value(a) == 0
    ensures var b := Run(a, Reading(style, DigitsOf(n)));
            && SameTail(a, b)
            && (Value(b) == n <==> n < TEN_16)
  {
    hide Feed;
    SixteenDigits(n);
    var s := DigitsOf(n);
    DigitsOfDenotes(n);
    var r := ReadFrom(style, s, START);
    if |s| <= 16 {
      ReadFromDecodes(style, s, START, a);
    } else {
      assert n > 0;
      LongReadingDecodesLess(style, s, a);
    }
    if r == "" {
      RunZero(a);
    }
  }

  lemma SignedIs(n: int, v: nat)
    ensures Signed(n < 0, v) == n <==> v == Abs(n)
  {
  }

  // The same for a reading after its sign.
  lemma SignedReadingDecodes(style: Style, neg: bool, n: nat)
    ensures var b := Run(ZERO, (if neg then "负" else "") + Reading(style, DigitsOf(n)));
            && b.neg == neg && b.minor == 0
            && (Value(b) == n <==> n < TEN_16)
  {
    hide Run, Reading, DigitsOf, Value;
    ZeroValue(neg);
    RunSign(neg);
    RunAppend(ZERO, if neg then "负" else "", Reading(style, DigitsOf(n)));
    ReadingDecodes(style, n, ZERO.(neg := neg));
  }

  lemma ZeroValue(neg: bool)
    ensures Value(ZERO.(neg := neg)) == 0
  {
  }

  lemma PlaceReadingRuns(n: int)
    requires n != 0
    ensures var b := Run(ZERO, PlaceReading(n));
            b.neg == (n < 0) && (Value(b) == Abs(n) <==> Abs(n) < TEN_16)
  {
    hide Run, Reading, DigitsOf, Value;
    SignedReadingDecodes(Spoken, n < 0, Abs(n));
  }

  // Round trip of the everyday reading, with its exact bound.
  lemma PlaceReadingRoundTrip(n: int)
    ensures DecodeInteger(PlaceReading(n)) == n <==> -TEN_16 < n < TEN_16
  {
    hide Run, Value;
    if n == 0 {
      ZeroRuns();
    } else {
      hide PlaceReading;
      PlaceReadingRuns(n);
      SignedIs(n, Value(Run(ZERO, PlaceReading(n))));
    }
  }

  lemma ZeroRuns()
    ensures DecodeInteger(PlaceReading(0)) == 0
  {
    RunZero(ZERO);
  }

  lemma MinorDecodes(jiao: nat, fen: nat, a: Acc)
    requires jiao <= 9 && fen <= 9 && a.minor == 0
    ensures var b := Run(a, MinorReading(jiao, fen));
            b.neg == a.neg && b.yuan == a.yuan && b.minor == 10 * jiao + fen
  {
    hide Run, DigitName;
    if jiao == 0 && fen == 0 {
      RunOne(a, '整');
    } else {
      var major := if jiao == 0 then "零" else [DigitName(Capital, jiao)] + "角";
      if jiao == 0 {
        RunZero(a);
      } else {
        RunMinor(a, jiao, '角');
      }
      if fen == 0 {
        assert MinorReading(jiao, fen) == major;
      } else {
        var tail := [DigitName(Capital, fen)] + "分";
        assert MinorReading(jiao, fen) == major + tail;
        RunAppend(a, major, tail);
        RunMinor(Run(a, major), fen, '分');
      }
    }
  }

  lemma RunMinor(a: Acc, d: nat, unit: char)
    requires 1 <= d <= 9 && (unit == '角' || unit == '分')
    ensures Run(a, [DigitName(Capital, d)] + [unit])
         == a.(minor := a.minor + (if unit == '角' then 10 * d else d), dig := 0)
  {
    hide Run, DigitName, GlyphDigit;
    NameDecodes(Capital, d);
    NotDigits();
    assert [DigitName(Capital, d)] + [unit] == [DigitName(Capital, d), unit];
    RunTwo(a, DigitName(Capital, d), unit);
  }

  lemma NotDigits()
    ensures GlyphDigit('角').None? && GlyphDigit('分').None?
  {
  }

  lemma AmountReadingRuns(cents: int)
    ensures var b := Run(ZERO, AmountReading(cents)); var m := Abs(cents);
            b.neg == (cents < 0) && (100 * b.yuan + b.minor == m <==> m < TEN_18)
  {
    hide Run, Reading, DigitsOf, MinorReading, Value;
    var m := Abs(cents);
    var yuan, jiao, fen := m / 100, m / 10 % 10, m % 10;
    assert m == 100 * yuan + 10 * jiao + fen;
    var whole := (if cents < 0 then "负" else "") + Reading(Capital, DigitsOf(yuan));
    SignedReadingDecodes(Capital, cents < 0, yuan);
    var b := Run(ZERO, whole);
    RunYuan(b);
    MinorDecodes(jiao, fen, Run(b, "圆"));
    RunAppend(ZERO, whole, "圆");
    RunAppend(ZERO, whole + "圆", MinorReading(jiao, fen));
    assert AmountReading(cents) == whole + "圆" + MinorReading(jiao, fen);
  }

  // Round trip of the capital amount, with its exact bound.
  lemma AmountReadingRoundTrip(cents: int)
    ensures DecodeCents(AmountReading(cents)) == cents <==> -TEN_18 < cents < TEN_18
  {
    hide Run, AmountReading;
    AmountReadingRuns(cents);
    var b := Run(ZERO, AmountReading(cents));
    SignedIs(cents, 100 * b.yuan + b.minor);
  }

  // Two numbers in range never read alike.
  lemma ReadingsAreInjective(m: int, n: int)
    ensures -TEN_16 < m < TEN_16 && -TEN_16 < n < TEN_16 && PlaceReading(m) == PlaceReading(n) ==> m == n
    ensures -TEN_18 < m < TEN_18 && -TEN_18 < n < TEN_18 && AmountReading(m) == AmountReading(n) ==> m == n
  {
    PlaceReadingRoundTrip(m);
    PlaceReadingRoundTrip(n);
    AmountReadingRoundTrip(m);
    AmountReadingRoundTrip(n);
  }

  // ---- The first collision ---------------------------------------------------------

  lemma {:induction false} ZerosOnly(style: Style, k: nat, st: Scan)
    requires st.any && (st.group > 3 || st.group == 0 || !st.content)
    requires st.group >= k / 4
    ensures AllDigits(seq(k, i => '0')) && ReadFrom(style, seq(k, i => '0'), st) == ""
  {
    var s := seq(k, i => '0');
    if k > 0 {
      assert s[1..] == seq(k - 1, i => '0');
      ZerosOnly(style, k - 1, Next(st, 0, k - 1));
    }
  }

  lemma {:induction false} DigitsOfPower(k: nat)
    ensures DigitsOf(Shift(1, k)) == "1" + seq(k, i => '0')
  {
    if k == 0 {
      assert DigitsOf(1) == "1" && seq(k, i => '0') == "";
    } else {
      DigitsOfPower(k - 1);
      assert Shift(1, k) / 10 == Shift(1, k - 1) && Shift(1, k) % 10 == 0;
      assert "1" + seq(k, i => '0') == "1" + seq(k - 1, i => '0') + "0";
    }
  }

  // The fifth group has no unit: ten thousand million million reads as one.
  lemma FirstCollision(style: Style)
    ensures Reading(style, DigitsOf(TEN_16)) == Reading(style, DigitsOf(1))
    ensures PlaceReading(TEN_16) == PlaceReading(1)
    ensures AmountReading(TEN_18) == AmountReading(100)
  {
    hide Reading, DigitsOf;
    CollisionIn(style);
    CollisionIn(Spoken);
    CollisionIn(Capital);
  }

  lemma CollisionIn(style: Style)
    ensures Reading(style, DigitsOf(TEN_16)) == Reading(style, DigitsOf(1))
  {
    hide DigitsOf, ReadFrom, Emit;
    Ten16();
    DigitsOfPower(16);
    DigitsOfPower(0);
    var z := seq(16, i => '0');
    var s := "1" + z;
    assert DigitsOf(TEN_16) == s && s[1..] == z;
    assert DigitsOf(1) == "1" + "" == "1";
    ZerosOnly(style, 16, Next(START, 1, 16));
    Unfold(style, s, START);
    Unfold(style, "1", START);
    ZerosOnly(style, 0, Next(START, 1, 0));
    assert "1"[1..] == seq(0, i => '0');
    SameFirst(style);
  }

  lemma SameFirst(style: Style)
    ensures Emit(style, START, 1, 16) == Emit(style, START, 1, 0) == [DigitName(style, 1)]
  {
  }

  // ---- Digit by digit ----------------------------------------------------------------

  function YearDigit(c: char): char {
    if c == '负' then '-' else if GlyphDigit(c).Some? then DigitChar(GlyphDigit(c).value) else c
  }

  function DecodeYear(s: string): string {
    seq(|s|, i requires 0 <= i < |s| => YearDigit(s[i]))
  }

  // Accepted exactly on non-empty digit texts, minus signs allowed; every glyph comes back.
  lemma YearReadingRoundTrip(s: string)
    ensures YearReading(s).Some? <==> s != "" && DigitsAndSigns(s)
    ensures YearReading(s).Some? ==> DecodeYear(YearReading(s).value) == s
  {
    if YearReading(s).Some? {
      var r := YearReading(s).value;
      forall i | 0 <= i < |s|
        ensures YearDigit(r[i]) == s[i]
      {
        YearGlyphDecodes(s[i]);
      }
    }
  }

  lemma YearGlyphDecodes(c: char)
    requires IsDigit(c) || c == '-'
    ensures YearDigit(YearGlyph(c)) == c
  {
    if c != '-' {
      DigitCharOfDigit(c);
    }
  }
}
