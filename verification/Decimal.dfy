// Decimal text: digit strings, integers and amounts of money.
// Models the parsing half of src/shared/cn-number/cn_number.cpp.
module Decimal {

  datatype Option<+T> = None | Some(value: T)

  const DIGITS := "0123456789"

  predicate IsDigit(c: char) {
    '0' <= c <= '9'
  }

  predicate AllDigits(s: string) {
    forall i :: 0 <= i < |s| ==> IsDigit(s[i])
  }

  function DigitOf(c: char): (d: nat)
    requires IsDigit(c)
    ensures d <= 9
  {
    c as nat - '0' as nat
  }

  function DigitChar(d: nat): (c: char)
    requires d <= 9
    ensures IsDigit(c) && DigitOf(c) == d
  {
    DIGITS[d]
  }

  lemma DigitCharOfDigit(c: char)
    requires IsDigit(c)
    ensures DigitChar(DigitOf(c)) == c
  {
  }

  // v * 10^n, written so that proofs stay linear.
  function Shift(v: nat, n: nat): (r: nat)
    ensures r >= v
  {
    if n == 0 then v else 10 * Shift(v, n - 1)
  }

  lemma {:induction false} ShiftAdd(x: nat, y: nat, n: nat)
    ensures Shift(x + y, n) == Shift(x, n) + Shift(y, n)
  {
    if n > 0 {
      ShiftAdd(x, y, n - 1);
    }
  }

  lemma {:induction false} ShiftShift(v: nat, m: nat, n: nat)
    ensures Shift(Shift(v, m), n) == Shift(v, m + n)
  {
    if n > 0 {
      ShiftShift(v, m, n - 1);
    }
  }

  lemma {:induction false} ShiftMono(x: nat, y: nat, m: nat, n: nat)
    requires x <= y && m <= n
    ensures Shift(x, m) <= Shift(y, n)
    ensures x < y ==> Shift(x, m) < Shift(y, n)
  {
    if m > 0 {
      ShiftMono(x, y, m - 1, n - 1);
    }
  }

  // The number a digit string denotes.
  function DecValue(s: string): (v: nat)
    requires AllDigits(s)
  {
    if s == "" then 0 else DecValue(s[..|s| - 1]) * 10 + DigitOf(s[|s| - 1])
  }

  lemma {:induction false} DecValueAppend(a: string, b: string)
    requires AllDigits(a) && AllDigits(b)
    ensures AllDigits(a + b)
    ensures DecValue(a + b) == Shift(DecValue(a), |b|) + DecValue(b)
  {
    if b == "" {
      assert a + b == a;
    } else {
      var b0, d := b[..|b| - 1], b[|b| - 1];
      DecValueAppend(a, b0);
      assert (a + b)[..|a + b| - 1] == a + b0;
    }
  }

  lemma DecValueDigit(c: char)
    requires IsDigit(c)
    ensures DecValue([c]) == DigitOf(c)
  {
    assert [c][..0] == "";
  }

  lemma DecValueCons(c: char, s: string)
    requires IsDigit(c) && AllDigits(s)
    ensures AllDigits([c] + s)
    ensures DecValue([c] + s) == Shift(DigitOf(c), |s|) + DecValue(s)
  {
    DecValueAppend([c], s);
    DecValueDigit(c);
  }

  lemma {:induction false} DecValueBound(s: string)
    requires AllDigits(s)
    ensures DecValue(s) < Shift(1, |s|)
  {
    if s != "" {
      DecValueBound(s[..|s| - 1]);
    }
  }

  // ---- Writing a number in decimal -----------------------------------------

  function DigitsOf(n: nat): (s: string)
    ensures s != "" && AllDigits(s)
  {
    if n < 10 then [DigitChar(n)] else DigitsOf(n / 10) + [DigitChar(n % 10)]
  }

  // The decimal text of n denotes n, has no leading zero, and is as short as n allows.
  lemma {:induction false} DigitsOfDenotes(n: nat)
    ensures DecValue(DigitsOf(n)) == n
    ensures n > 0 ==> DigitsOf(n)[0] != '0'
    ensures n > 0 ==> Shift(1, |DigitsOf(n)| - 1) <= n < Shift(1, |DigitsOf(n)|)
  {
    if n < 10 {
      DecValueDigit(DigitChar(n));
    } else {
      DigitsOfDenotes(n / 10);
      var s := DigitsOf(n / 10);
      assert DigitsOf(n)[..|s|] == s;
    }
  }

  function Reverse(s: string): (r: string) {
    if s == "" then "" else Reverse(s[1..]) + [s[0]]
  }

  lemma {:induction false} ReverseSnoc(s: string, c: char)
    ensures Reverse(s + [c]) == [c] + Reverse(s)
  {
    if s == "" {
      assert s + [c] == [c] && [c][1..] == "";
    } else {
      assert (s + [c])[1..] == s[1..] + [c];
      ReverseSnoc(s[1..], c);
    }
  }

  // The digits not yet taken off the end of a number.
  function Before(k: nat): string {
    if k == 0 then "" else DigitsOf(k)
  }

  lemma NoneTaken(n: nat)
    ensures n > 0 ==> DigitsOf(n) == Before(n) + Reverse("")
    ensures n == 0 ==> DigitsOf(n) == "0"
  {
  }

  lemma TakeDigit(k: nat, s: string)
    requires k > 0
    ensures Before(k) + Reverse(s) == Before(k / 10) + Reverse(s + [DigitChar(k % 10)])
  {
    hide Reverse, Before, DigitChar;
    var c := DigitChar(k % 10);
    ReverseSnoc(s, c);
    LastDigit(k);
    assert Before(k / 10) + [c] + Reverse(s) == Before(k / 10) + ([c] + Reverse(s));
  }

  lemma LastDigit(k: nat)
    requires k > 0
    ensures Before(k) == Before(k / 10) + [DigitChar(k % 10)]
  {
    hide DigitChar;
  }

  method ToUnsignedDigitString(n: nat) returns (r: string)
    ensures r == DigitsOf(n)
  {
    hide DigitsOf, Reverse;
    NoneTaken(n);
    if n == 0 {
      return "0";
    }
    var s, k := "", n;
    while k > 0
      invariant DigitsOf(n) == Before(k) + Reverse(s)
    {
      TakeDigit(k, s);
      s, k := s + [DigitChar(k % 10)], k / 10;
    }
    r := Reverse(s);
  }

  // ---- Reading integers and amounts -----------------------------------------

  function Signed(neg: bool, magnitude: nat): (v: int) {
    if neg then -(magnitude as int) else magnitude
  }

  predicate IsNegative(text: string) {
    text != "" && text[0] == '-'
  }

  function Unsigned(text: string): string {
    if IsNegative(text) then text[1..] else text
  }

  // An optional minus sign, then one or more digits.
  function IntegerOf(text: string): (r: Option<int>) {
    var body := Unsigned(text);
    if body == "" || !AllDigits(body) then None else Some(Signed(IsNegative(text), DecValue(body)))
  }

  // Position of the first c in s, or |s|.
  function IndexOf(s: string, c: char): (k: nat)
    ensures k <= |s|
    ensures k < |s| ==> s[k] == c
    ensures forall i :: 0 <= i < k ==> s[i] != c
  {
    if s == "" || s[0] == c then 0 else 1 + IndexOf(s[1..], c)
  }

  function IntPart(body: string): string {
    body[..IndexOf(body, '.')]
  }

  function FracPart(body: string): string {
    var k := IndexOf(body, '.');
    if k == |body| then "" else body[k + 1..]
  }

  // floor(a / b), by repeated subtraction so that proofs stay linear.
  function FloorDiv(a: nat, b: nat): (q: nat)
    requires b > 0
  {
    if a < b then 0 else 1 + FloorDiv(a - b, b)
  }

  // floor(100 * x + 1/2) for x == m / 10^k.
  function RoundCents(m: nat, k: nat): (c: nat) {
    FloorDiv(200 * m + Shift(1, k), Shift(2, k))
  }

  // An optional minus sign, then digits with an optional point among them, not both
  // parts empty; the value is 100 times the number, its magnitude rounded half up.
  function CentsOf(text: string): (r: Option<int>) {
    var body := Unsigned(text);
    var ip, fp := IntPart(body), FracPart(body);
    if ip + fp == "" || !AllDigits(ip + fp) then None
    else Some(Signed(IsNegative(text), RoundCents(DecValue(ip + fp), |fp|)))
  }

  lemma {:induction false} FloorDivIs(a: nat, k: nat, q: nat)
    ensures q == FloorDiv(a, Shift(2, k)) <==> Shift(2 * q, k) <= a < Shift(2 * q + 2, k)
    decreases a
  {
    ShiftAdd(2 * q, 2, k);
    if a >= Shift(2, k) && q > 0 {
      FloorDivIs(a - Shift(2, k), k, q - 1);
      ShiftAdd(2 * (q - 1), 2, k);
    } else if q == 0 {
      ShiftAdd(0, 0, k);
    } else {
      ShiftMono(2, 2 * q, k, k);
    }
  }

  // RoundCents is the nearest whole number of cents, halves going up, and the only such:
  // 2c * 10^k <= 200m + 10^k < (2c + 2) * 10^k.
  lemma RoundCentsIsNearest(m: nat, k: nat, c: nat)
    ensures c == RoundCents(m, k) <==> Shift(2 * c, k) <= 200 * m + Shift(1, k) < Shift(2 * c + 2, k)
  {
    FloorDivIs(200 * m + Shift(1, k), k, c);
  }

  // At most two decimals: nothing is rounded.
  lemma RoundCentsShort(m: nat, k: nat)
    requires k <= 2
    ensures RoundCents(m, k) == Shift(m, 2 - k)
  {
    var c := Shift(m, 2 - k);
    ShiftShift(2 * m, 2 - k, k);
    ShiftShift(m, 2 - k, k);
    ShiftAdd(c, c, k);
    ShiftAdd(2 * c, 2, k);
    ShiftAdd(1, 1, k);
    assert Shift(m, 1) == 10 * m;
    assert Shift(m, 2) == 10 * Shift(m, 1);
    RoundCentsIsNearest(m, k, c);
  }

  // More than two decimals: only the third decides.
  lemma RoundCentsLong(m: nat, h: nat, a: nat, f: nat, rest: nat, t: nat)
    requires f <= 9 && rest < Shift(1, t) && h == 10 * a + f
    requires m == Shift(h, t) + rest
    ensures RoundCents(m, t + 3) == a + if f >= 5 then 1 else 0
  {
    var c := a + if f >= 5 then 1 else 0;
    LongBounds(m, h, c, rest, t);
    RoundCentsIsNearest(m, t + 3, c);
  }

  lemma LongBounds(m: nat, h: nat, c: nat, rest: nat, t: nat)
    requires rest < Shift(1, t) && m == Shift(h, t) + rest
    requires 10 * c <= h + 5 < 10 * c + 10
    ensures Shift(2 * c, t + 3) <= 200 * m + Shift(1, t + 3) < Shift(2 * c + 2, t + 3)
  {
    hide Shift;
    ShiftThree(2 * c, t);
    ShiftThree(1, t);
    ShiftThree(2 * c + 2, t);
    ShiftTimes(h, t);
    ShiftTimes(1, t);
    var x := 200 * h + 1000;
    ShiftAdd(200 * h, 1000, t);
    ShiftAdd(x, 200, t);
    ShiftMono(1000 * (2 * c), x, t, t);
    ShiftMono(x + 200, 1000 * (2 * c + 2), t, t);
  }

  lemma ShiftThree(v: nat, t: nat)
    ensures Shift(v, t + 3) == Shift(1000 * v, t)
  {
    ShiftShift(v, 3, t);
    assert Shift(v, 1) == 10 * v;
    assert Shift(v, 2) == 10 * Shift(v, 1);
    assert Shift(v, 3) == 10 * Shift(v, 2);
  }

  lemma {:induction false} ShiftTimes(v: nat, t: nat)
    ensures Shift(200 * v, t) == 200 * Shift(v, t)
  {
    if t > 0 {
      ShiftTimes(v, t - 1);
    }
  }

  method ParseInteger(text: string) returns (r: Option<int>)
    ensures r == IntegerOf(text)
  {
    if text == "" {
      return None;
    }
    if '.' in text {
      assert '.' in Unsigned(text);
      return None;
    }
    var i, neg := 0, false;
    if text[0] == '-' {
      neg, i := true, 1;
    }
    if i >= |text| {
      return None;
    }
    ghost var start, body := i, text[i..];
    assert body == Unsigned(text);
    var value := 0;
    while i < |text|
      invariant start <= i <= |text|
      invariant AllDigits(body[..i - start])
      invariant value == DecValue(body[..i - start])
    {
      if !IsDigit(text[i]) {
        assert body[i - start] == text[i];
        return None;
      }
      assert body[..i + 1 - start] == body[..i - start] + [text[i]];
      value := value * 10 + DigitOf(text[i]);
      i := i + 1;
    }
    assert body[..i - start] == body;
    r := Some(if neg then -value else value);
  }

  method FindChar(s: string, c: char) returns (k: nat)
    ensures k == IndexOf(s, c)
  {
    k := 0;
    while k < |s| && s[k] != c
      invariant k <= |s|
      invariant IndexOf(s, c) == k + IndexOf(s[k..], c)
    {
      assert s[k..][1..] == s[k + 1..];
      k := k + 1;
    }
  }

  method HasOnlyDigits(s: string) returns (ok: bool)
    ensures ok == AllDigits(s)
  {
    for i := 0 to |s|
      invariant AllDigits(s[..i])
    {
      if !IsDigit(s[i]) {
        return false;
      }
    }
    assert s[..|s|] == s;
    ok := true;
  }

  // Adds one to a two-digit fraction, digit by digit from the right.
  method IncrementFraction(frac: string) returns (r: string, carry: nat)
    requires |frac| == 2 && AllDigits(frac)
    ensures |r| == 2 && AllDigits(r)
    ensures carry * 100 + DecValue(r) == DecValue(frac) + 1
    ensures carry <= 1
  {
    r, carry := frac, 1;
    assert DecValue(frac) == DigitOf(frac[0]) * 10 + DigitOf(frac[1]) by {
      TwoDigits(frac);
    }
    var k := 1;
    while k >= 0 && carry > 0
      invariant -1 <= k <= 1 && carry <= 1
      invariant |r| == 2 && AllDigits(r)
      invariant k == 1 ==> r == frac && carry == 1
      invariant k == 0 ==> r[0] == frac[0] && carry * 10 + DigitOf(r[1]) == DigitOf(frac[1]) + 1
      invariant k == -1 ==>
                  carry * 100 + DigitOf(r[0]) * 10 + DigitOf(r[1]) == DigitOf(frac[0]) * 10 + DigitOf(frac[1]) + 1
    {
      var v := DigitOf(r[k]) + carry;
      carry := v / 10;
      r := r[k := DigitChar(v % 10)];
      k := k - 1;
    }
    TwoDigits(r);
  }

  lemma TwoDigits(s: string)
    requires |s| == 2 && AllDigits(s)
    ensures DecValue(s) == DigitOf(s[0]) * 10 + DigitOf(s[1])
  {
    assert s[..1] == [s[0]];
    assert DecValue([s[0]]) == DigitOf(s[0]) by {
      assert [s[0]][..0] == "";
    }
  }

  // Rounds to two decimals on the third; a carry out of the fraction goes to the whole part.
  method RoundToTwo(intPart: string, fracPart: string) returns (ip: string, fp: string)
    requires |fracPart| > 2 && AllDigits(intPart) && AllDigits(fracPart)
    ensures AllDigits(ip) && |fp| == 2 && AllDigits(fp)
    ensures DecValue(ip) * 100 + DecValue(fp)
         == DecValue(intPart) * 100 + DecValue(fracPart[..2]) + if fracPart[2] >= '5' then 1 else 0
  {
    ip, fp := intPart, fracPart[..2];
    if fracPart[2] >= '5' {
      var carry;
      fp, carry := IncrementFraction(fp);
      if carry > 0 {
        var whole := if intPart == "" then 0 else DecValue(intPart);
        DigitsOfDenotes(whole + 1);
        ip := DigitsOf(whole + 1);
      }
    }
  }

  method PadFraction(frac: string) returns (r: string)
    requires |frac| <= 2 && AllDigits(frac)
    ensures |r| == 2 && AllDigits(r)
    ensures DecValue(r) == Shift(DecValue(frac), 2 - |frac|)
  {
    r := frac;
    while |r| < 2
      invariant |frac| <= |r| <= 2 && AllDigits(r)
      invariant DecValue(r) == Shift(DecValue(frac), |r| - |frac|)
    {
      assert (r + "0")[..|r|] == r;
      r := r + "0";
    }
  }

  method Magnitude(intPart: string, fracPart: string) returns (cents: int)
    requires AllDigits(intPart) && AllDigits(fracPart) && AllDigits(intPart + fracPart)
    ensures cents == RoundCents(DecValue(intPart + fracPart), |fracPart|)
  {
    var ip, fp := intPart, fracPart;
    if |fracPart| > 2 {
      CentsLong(intPart, fracPart);
      ip, fp := RoundToTwo(intPart, fracPart);
    } else {
      fp := PadFraction(fracPart);
      CentsShort(intPart, fracPart, fp);
    }
    var whole := if ip == "" then 0 else DecValue(ip);
    cents := whole * 100 + DecValue(fp);
  }

  method ParseDecimalToCents(text: string) returns (r: Option<int>)
    ensures r == CentsOf(text)
  {
    if text == "" {
      return None;
    }
    var i, neg := 0, false;
    if text[0] == '-' {
      neg, i := true, 1;
    }
    if i >= |text| {
      return None;
    }
    assert text[i..] == Unsigned(text) && neg == IsNegative(text);
    r := SignedCents(neg, text[i..]);
  }

  // A number with its sign taken off.
  method SignedCents(neg: bool, body: string) returns (r: Option<int>)
    ensures var ip, fp := IntPart(body), FracPart(body);
            r == if ip + fp == "" || !AllDigits(ip + fp) then None
                 else Some(Signed(neg, RoundCents(DecValue(ip + fp), |fp|)))
  {
    hide RoundCents, DecValue, AllDigits;
    var dot := FindChar(body, '.');
    var intPart := body[..dot];
    var fracPart := if dot == |body| then "" else body[dot + 1..];
    assert intPart == IntPart(body) && fracPart == FracPart(body);
    if intPart == "" && fracPart == "" {
      return None;
    }
    AllDigitsConcat(intPart, fracPart);
    var okInt := HasOnlyDigits(intPart);
    if !okInt {
      return None;
    }
    var okFrac := HasOnlyDigits(fracPart);
    if !okFrac {
      return None;
    }
    var cents := Magnitude(intPart, fracPart);
    r := Some(if neg then -cents else cents);
  }

  lemma AllDigitsConcat(a: string, b: string)
    ensures AllDigits(a + b) <==> AllDigits(a) && AllDigits(b)
  {
    if AllDigits(a + b) {
      assert forall i :: 0 <= i < |a| ==> a[i] == (a + b)[i];
      assert forall i :: 0 <= i < |b| ==> b[i] == (a + b)[|a| + i];
    }
  }

  lemma CentsShort(ip: string, fp: string, padded: string)
    requires AllDigits(ip) && AllDigits(fp) && AllDigits(padded) && AllDigits(ip + fp)
    requires |fp| <= 2 && DecValue(padded) == Shift(DecValue(fp), 2 - |fp|)
    ensures RoundCents(DecValue(ip + fp), |fp|) == DecValue(ip) * 100 + DecValue(padded)
  {
    var a, n := DecValue(ip), 2 - |fp|;
    DecValueAppend(ip, fp);
    RoundCentsShort(DecValue(ip + fp), |fp|);
    ShiftAdd(Shift(a, |fp|), DecValue(fp), n);
    ShiftShift(a, |fp|, n);
    assert Shift(a, 2) == 10 * Shift(a, 1);
  }

  // Whole part, two decimals and the third, read as one number.
  lemma LeadingValue(ip: string, two: string, c: char)
    requires AllDigits(ip) && |two| == 2 && AllDigits(two) && IsDigit(c)
    ensures AllDigits(ip + two + [c])
    ensures DecValue(ip + two + [c]) == 10 * (DecValue(ip) * 100 + DecValue(two)) + DigitOf(c)
  {
    DecValueAppend(ip, two);
    assert Shift(DecValue(ip), 2) == 10 * Shift(DecValue(ip), 1);
    assert (ip + two + [c])[..|ip + two|] == ip + two;
  }

  lemma SplitAtThird(ip: string, fp: string)
    requires |fp| > 2
    ensures ip + fp == ip + fp[..2] + [fp[2]] + fp[3..]
  {
  }

  lemma CentsLong(ip: string, fp: string)
    requires AllDigits(ip) && AllDigits(fp) && AllDigits(ip + fp) && |fp| > 2
    ensures RoundCents(DecValue(ip + fp), |fp|)
         == DecValue(ip) * 100 + DecValue(fp[..2]) + if fp[2] >= '5' then 1 else 0
  {
    var head, rest := ip + fp[..2] + [fp[2]], fp[3..];
    SplitAtThird(ip, fp);
    LeadingValue(ip, fp[..2], fp[2]);
    DecValueAppend(head, rest);
    DecValueBound(rest);
    var a := DecValue(ip) * 100 + DecValue(fp[..2]);
    RoundCentsLong(DecValue(ip + fp), DecValue(head), a, DigitOf(fp[2]), DecValue(rest), |rest|);
  }

  // The texts accepted, from the point of view of whoever writes one.
  ghost predicate Writes(text: string, neg: bool, ip: string, dot: bool, fp: string) {
    && AllDigits(ip) && AllDigits(fp) && ip + fp != "" && (!dot ==> fp == "")
    && text == (if neg then "-" else "") + ip + (if dot then "." else "") + fp
  }

  // ParseDecimalToCents accepts exactly the written numbers and rounds each to the cent.
  lemma CentsOfAcceptsExactly(text: string)
    ensures CentsOf(text).Some? <==> exists neg, ip, dot, fp :: Writes(text, neg, ip, dot, fp)
    ensures forall neg, ip, dot, fp :: Writes(text, neg, ip, dot, fp) ==>
              AllDigits(ip + fp) && CentsOf(text) == Some(Signed(neg, RoundCents(DecValue(ip + fp), |fp|)))
  {
    forall neg, ip, dot, fp | Writes(text, neg, ip, dot, fp)
      ensures AllDigits(ip + fp) && CentsOf(text) == Some(Signed(neg, RoundCents(DecValue(ip + fp), |fp|)))
    {
      WrittenIsParsed(text, neg, ip, dot, fp);
    }
    if CentsOf(text).Some? {
      ParsedIsWritten(text);
    }
  }

  lemma ParsedIsWritten(text: string)
    requires CentsOf(text).Some?
    ensures exists neg, ip, dot, fp :: Writes(text, neg, ip, dot, fp)
  {
    hide RoundCents, DecValue, AllDigits, IndexOf;
    var neg, body := IsNegative(text), Unsigned(text);
    var ip, fp, dot := IntPart(body), FracPart(body), IndexOf(body, '.') < |body|;
    AllDigitsConcat(ip, fp);
    PartsMakeBody(body);
    var sign := if neg then "-" else "";
    assert text == sign + body;
    Regroup(sign, ip, if dot then "." else "", fp);
    assert Writes(text, neg, ip, dot, fp);
  }

  lemma Regroup(a: string, b: string, c: string, d: string)
    ensures a + (b + c + d) == a + b + c + d
  {
  }

  lemma PartsMakeBody(body: string)
    ensures var dot := IndexOf(body, '.') < |body|;
            body == IntPart(body) + (if dot then "." else "") + FracPart(body) && (!dot ==> FracPart(body) == "")
  {
    hide IndexOf, IntPart, FracPart;
    if '.' in body {
      PointSplits(body);
    } else {
      NoPoint(body);
    }
  }

  lemma PointSplits(body: string)
    requires '.' in body
    ensures IndexOf(body, '.') < |body| && body == IntPart(body) + "." + FracPart(body)
  {
    var k := IndexOf(body, '.');
    hide IndexOf;
    SplitAround(body, k);
  }

  lemma NoPoint(body: string)
    requires '.' !in body
    ensures IndexOf(body, '.') == |body| && IntPart(body) == body && FracPart(body) == "" && body + "" + "" == body
  {
    hide IndexOf;
  }

  lemma SplitAround(s: string, k: nat)
    requires k < |s|
    ensures s == s[..k] + [s[k]] + s[k + 1..]
  {
  }

  lemma WrittenIsParsed(text: string, neg: bool, ip: string, dot: bool, fp: string)
    requires Writes(text, neg, ip, dot, fp)
    ensures AllDigits(ip + fp)
    ensures CentsOf(text) == Some(Signed(neg, RoundCents(DecValue(ip + fp), |fp|)))
  {
    AllDigitsConcat(ip, fp);
    WrittenParts(text, neg, ip, dot, fp);
  }

  lemma WrittenParts(text: string, neg: bool, ip: string, dot: bool, fp: string)
    requires Writes(text, neg, ip, dot, fp)
    ensures IsNegative(text) == neg
    ensures IntPart(Unsigned(text)) == ip && FracPart(Unsigned(text)) == fp
  {
    hide IntPart, FracPart, IndexOf;
    var body := ip + (if dot then "." else "") + fp;
    Regroup(if neg then "-" else "", ip, if dot then "." else "", fp);
    assert text == (if neg then "-" else "") + body;
    assert body[0] == if ip != "" then ip[0] else '.';
    assert Unsigned(text) == body;
    BodyParts(ip, dot, fp);
  }

  lemma BodyParts(ip: string, dot: bool, fp: string)
    requires AllDigits(ip) && (!dot ==> fp == "")
    ensures var body := ip + (if dot then "." else "") + fp; IntPart(body) == ip && FracPart(body) == fp
  {
    var body := ip + (if dot then "." else "") + fp;
    var k := IndexOf(body, '.');
    hide IndexOf;
    assert forall i :: 0 <= i < |ip| ==> body[i] == ip[i];
    assert k >= |ip|;
    if dot {
      assert body[|ip|] == '.';
      assert k == |ip|;
      assert body[k + 1..] == fp;
    } else {
      assert body == ip;
    }
  }
}
