// Chinese readings of numbers: the printing half of src/shared/cn-number/cn_number.cpp.
module CnNumber {
  import opened Decimal

  // The two sets of glyphs the printer is used with: everyday readings, where a leading
  // two may read as 两, and capital amounts, where it never does.
  datatype Style = Spoken | Capital

  const SPOKEN_DIGITS := "零一二三四五六七八九"
  const CAPITAL_DIGITS := "零壹贰叁肆伍陆柒捌玖"
  const YEAR_DIGITS := "〇一二三四五六七八九"
  const SPOKEN_UNITS := "十百千"
  const CAPITAL_UNITS := "拾佰仟"

  function DigitName(style: Style, d: nat): char
    requires d <= 9
  {
    if style.Spoken? then SPOKEN_DIGITS[d] else CAPITAL_DIGITS[d]
  }

  function SmallUnit(style: Style, u: nat): string
    requires u < 4
  {
    if u == 0 then "" else if style.Spoken? then [SPOKEN_UNITS[u - 1]] else [CAPITAL_UNITS[u - 1]]
  }

  // Only four groups of four digits have a unit.
  function BigUnit(g: int): string {
    if g == 1 then "万" else if g == 2 then "亿" else if g == 3 then "万亿" else ""
  }

  // ---- The reading as a function --------------------------------------------

  // What the printer remembers between digits: whether anything was printed, whether a
  // skipped zero is owed, the group of four being read, and whether it printed anything.
  datatype Scan = Scan(any: bool, pending: bool, group: int, content: bool)

  const START := Scan(false, false, -1, false)

  function Flush(st: Scan): string {
    if st.content then BigUnit(st.group) else ""
  }

  predicate ReadsLiang(style: Style, any: bool, d: nat, p: nat) {
    style.Spoken? && d == 2 && !any && (p % 4 == 2 || p % 4 == 3 || (p % 4 == 0 && p / 4 > 0))
  }

  function Glyphs(style: Style, any: bool, d: nat, p: nat): string
    requires 1 <= d <= 9
  {
    if p % 4 == 1 && d == 1 && !any then SmallUnit(style, 1)
    else [if ReadsLiang(style, any, d, p) then '两' else DigitName(style, d)] + SmallUnit(style, p % 4)
  }

  function Enter(st: Scan, g: int): Scan {
    if g != st.group then st.(group := g, content := false) else st
  }

  // Text printed for digit d at position p (0 = units).
  function Emit(style: Style, st: Scan, d: nat, p: nat): string
    requires d <= 9
  {
    (if p / 4 != st.group then Flush(st) else "")
    + if d == 0 then "" else (if st.pending then "零" else "") + Glyphs(style, st.any, d, p)
  }

  function Next(st: Scan, d: nat, p: nat): Scan {
    var e := Enter(st, p / 4);
    if d == 0 then e.(pending := e.pending || e.any) else Scan(true, false, e.group, true)
  }

  function ReadFrom(style: Style, s: string, st: Scan): string
    requires AllDigits(s)
  {
    if s == "" then Flush(st)
    else
      var d, p := DigitOf(s[0]), |s| - 1;
      Emit(style, st, d, p) + ReadFrom(style, s[1..], Next(st, d, p))
  }

  lemma Unfold(style: Style, s: string, st: Scan)
    requires AllDigits(s)
    ensures s == "" ==> ReadFrom(style, s, st) == Flush(st)
    ensures s != "" ==>
              var d, p := DigitOf(s[0]), |s| - 1;
              ReadFrom(style, s, st) == Emit(style, st, d, p) + ReadFrom(style, s[1..], Next(st, d, p))
  {
  }

  function Reading(style: Style, digits: string): string
    requires AllDigits(digits)
  {
    var r := ReadFrom(style, digits, START);
    if r == "" then "零" else r
  }

  function Abs(n: int): nat {
    if n < 0 then -n else n
  }

  function PlaceReading(n: int): string {
    if n == 0 then "零" else (if n < 0 then "负" else "") + Reading(Spoken, DigitsOf(Abs(n)))
  }

  // The tail of a capital amount: tenths (角) and hundredths (分) of a yuan.
  function MinorReading(jiao: nat, fen: nat): string
    requires jiao <= 9 && fen <= 9
  {
    if jiao == 0 && fen == 0 then "整"
    else
      (if jiao == 0 then "零" else [DigitName(Capital, jiao)] + "角")
      + if fen == 0 then "" else [DigitName(Capital, fen)] + "分"
  }

  function AmountReading(cents: int): string {
    var a := Abs(cents);
    (if cents < 0 then "负" else "") + Reading(Capital, DigitsOf(a / 100)) + "圆"
    + MinorReading(a / 10 % 10, a % 10)
  }

  // Digit by digit, as a year or a serial number is read.
  function YearGlyph(c: char): char
    requires IsDigit(c) || c == '-'
  {
    if c == '-' then '负' else YEAR_DIGITS[DigitOf(c)]
  }

  predicate DigitsAndSigns(s: string) {
    forall i :: 0 <= i < |s| ==> IsDigit(s[i]) || s[i] == '-'
  }

  function YearReading(s: string): Option<string> {
    if s == "" || !DigitsAndSigns(s) then None
    else Some(seq(|s|, i requires 0 <= i < |s| => YearGlyph(s[i])))
  }

  // ---- The loops of the source ------------------------------------------------

  lemma Assoc(a: string, b: string, c: string)
    ensures a + b + c == a + (b + c)
  {
  }

  // Prints one non-zero digit, its unit and any zero owed before it.
  method PrintDigit(style: Style, result: string, d: nat, g: nat, u: nat, pendingZero: bool, anyOutput: bool)
    returns (r: string)
    requires 1 <= d <= 9 && u < 4
    ensures r == result + ((if pendingZero then "零" else "") + Glyphs(style, anyOutput, d, 4 * g + u))
  {
    ghost var p := 4 * g + u;
    assert p / 4 == g && p % 4 == u;
    r := result;
    if pendingZero {
      r := r + [SPOKEN_DIGITS[0]];
    }
    ghost var zero, owed := r, if pendingZero then "零" else "";
    var useTwo := style.Spoken? && d == 2 && !anyOutput && (u == 2 || u == 3 || (u == 0 && g > 0));
    if u == 1 && d == 1 && !anyOutput {
      r := r + SmallUnit(style, 1);
    } else {
      r := r + [if useTwo then '两' else DigitName(style, d)];
      ghost var name := [if useTwo then '两' else DigitName(style, d)];
      if u > 0 {
        r := r + SmallUnit(style, u);
      }
      Assoc(zero, name, SmallUnit(style, u));
    }
    assert r == zero + Glyphs(style, anyOutput, d, p);
    Assoc(result, owed, Glyphs(style, anyOutput, d, p));
  }

  method ConvertUnsignedDigits(style: Style, digits: string) returns (r: string)
    requires AllDigits(digits)
    ensures r == Reading(style, digits)
  {
    hide ReadFrom, Glyphs;
    var result := "";
    var anyOutput, pendingZero, currentGroup, groupHasContent := false, false, -1, false;
    assert digits[0..] == digits;
    for i := 0 to |digits|
      invariant result + ReadFrom(style, digits[i..], Scan(anyOutput, pendingZero, currentGroup, groupHasContent))
             == ReadFrom(style, digits, START)
    {
      ghost var st, before, rest := Scan(anyOutput, pendingZero, currentGroup, groupHasContent), result, digits[i..];
      assert rest[0] == digits[i] && rest[1..] == digits[i + 1..];
      var d := DigitOf(digits[i]);
      var p := |digits| - 1 - i;
      var g, u := p / 4, p % 4;
      assert 4 * g + u == p;
      ghost var flushed := if g != currentGroup then Flush(st) else "";
      if g != currentGroup {
        if currentGroup >= 0 && groupHasContent {
          result := result + BigUnit(currentGroup);
        }
        currentGroup, groupHasContent := g, false;
      }
      assert result == before + flushed;
      if d == 0 {
        if anyOutput {
          pendingZero := true;
        }
      } else {
        ghost var owed := if pendingZero then "零" else "";
        result := PrintDigit(style, result, d, g, u, pendingZero, anyOutput);
        Assoc(before, flushed, owed + Glyphs(style, anyOutput, d, p));
        pendingZero, anyOutput, groupHasContent := false, true, true;
      }
      ghost var printed, next := Emit(style, st, d, p), Scan(anyOutput, pendingZero, currentGroup, groupHasContent);
      assert result == before + printed;
      assert next == Next(st, d, p);
      ghost var tail := ReadFrom(style, digits[i + 1..], next);
      Unfold(style, rest, st);
      Assoc(before, printed, tail);
      assert result + tail == ReadFrom(style, digits, START);
    }
    assert digits[|digits|..] == "";
    Unfold(style, "", Scan(anyOutput, pendingZero, currentGroup, groupHasContent));
    if groupHasContent {
      result := result + BigUnit(currentGroup);
    }
    r := if result == "" then "零" else result;
  }

  method PlaceValueChinese(n: int) returns (r: string)
    ensures r == PlaceReading(n)
  {
    if n == 0 {
      return "零";
    }
    var prefix := if n < 0 then "负" else "";
    var digits := ToUnsignedDigitString(Abs(n));
    var body := ConvertUnsignedDigits(Spoken, digits);
    r := prefix + body;
  }

  method UppercaseCurrency(amountCents: int) returns (r: string)
    ensures r == AmountReading(amountCents)
  {
    var prefix := if amountCents < 0 then "负" else "";
    var cents := Abs(amountCents);
    var yuan, jiao, fen := cents / 100, cents / 10 % 10, cents % 10;
    var digits := ToUnsignedDigitString(yuan);
    var body := ConvertUnsignedDigits(Capital, digits);
    r := prefix + body + "圆";
    if jiao == 0 && fen == 0 {
      r := r + "整";
      return;
    }
    ghost var major := r;
    if jiao == 0 {
      r := r + "零";
    } else {
      r := r + [DigitName(Capital, jiao)];
      r := r + "角";
    }
    if fen != 0 {
      r := r + [DigitName(Capital, fen)];
      r := r + "分";
    }
    assert r == major + MinorReading(jiao, fen);
  }

  method DigitByDigitChinese(digits: string) returns (r: Option<string>)
    ensures r == YearReading(digits)
  {
    if digits == "" {
      return None;
    }
    var result := "";
    for i := 0 to |digits|
      invariant DigitsAndSigns(digits[..i])
      invariant result == seq(i, j requires 0 <= j < i => YearGlyph(digits[..i][j]))
    {
      if digits[i] == '-' {
        result := result + "负";
      } else {
        if !IsDigit(digits[i]) {
          return None;
        }
        result := result + [YEAR_DIGITS[DigitOf(digits[i])]];
      }
      assert forall j :: 0 <= j < i ==> digits[..i + 1][j] == digits[..i][j];
    }
    assert digits[..|digits|] == digits;
    r := Some(result);
  }
}
