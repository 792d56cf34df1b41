// Candidate sources and the registry that picks one: the files of
// src/domains/input-engine/logic/candidate.
module Sources {
  import opened Decimal
  import opened CnNumber
  import opened Candidates
  import Engine

  datatype Mode = Chinese | English
  datatype Scheme = SmartAbc | PlainPinyin | Wubi

  datatype Context = Context(mode: Mode, raw: string, composing: bool, fieldHint: string, scheme: Scheme)

  datatype Source = Extension | Passthrough | Number | Punctuation | Pinyin | WubiTable

  // Options and tables, fixed for the life of the engine.
  datatype Config = Config(
    pageSize: nat, pagePrevKeys: string, pageNextKeys: string, selectKeys: string,
    numberLead: char, strokesEnabled: bool, learning: bool,
    strokeTable: StrokeTable, wubiTable: map<string, seq<string>>)

  const PUNCTUATION: map<char, string> := map[
    ',' := "，", '.' := "。", ';' := "；", ':' := "：", '?' := "？", '!' := "！", '(' := "（", ')' := "）"]

  predicate IsMappedPunctuation(c: char) {
    c in PUNCTUATION
  }

  predicate NumberBodyChar(c: char) {
    IsDigit(c) || c == '.' || c == '-'
  }

  predicate IsNumberBody(body: string) {
    (forall i :: 0 <= i < |body| ==> NumberBodyChar(body[i])) && exists i :: 0 <= i < |body| && IsDigit(body[i])
  }

  method LooksLikeNumberBody(body: string) returns (r: bool)
    ensures r == IsNumberBody(body)
  {
    if body == "" {
      return false;
    }
    var hasDigit := false;
    for i := 0 to |body|
      invariant forall j :: 0 <= j < i ==> NumberBodyChar(body[j])
      invariant hasDigit <==> exists j :: 0 <= j < i && IsDigit(body[j])
    {
      if body[i] != '.' && body[i] != '-' {
        if !IsDigit(body[i]) {
          return false;
        }
        hasDigit := true;
      }
    }
    r := hasDigit;
  }

  predicate IsNumberInput(cfg: Config, raw: string, scheme: Scheme) {
    scheme == SmartAbc && |raw| >= 2 && raw[0] == cfg.numberLead && IsNumberBody(raw[1..])
  }

  // With no extension bridge the extension source never takes an input.
  predicate Handles(cfg: Config, src: Source, ctx: Context) {
    match src
    case Extension => false
    case Passthrough => ctx.mode == English
    case Number => ctx.mode == Chinese && IsNumberInput(cfg, ctx.raw, ctx.scheme)
    case Punctuation => ctx.mode == Chinese && |ctx.raw| == 1 && IsMappedPunctuation(ctx.raw[0])
    case Pinyin => ctx.mode == Chinese && (ctx.scheme == SmartAbc || ctx.scheme == PlainPinyin) && ctx.raw != ""
    case WubiTable => ctx.mode == Chinese && ctx.scheme == Wubi && ctx.raw != ""
  }

  const REGISTRY: seq<Source> := [Extension, Passthrough, Number, Punctuation, Pinyin, WubiTable]

  // The source in charge of an input in Chinese mode.
  function InCharge(cfg: Config, raw: string, scheme: Scheme): Option<Source> {
    if raw == "" then None
    else if IsNumberInput(cfg, raw, scheme) then Some(Number)
    else if |raw| == 1 && IsMappedPunctuation(raw[0]) then Some(Punctuation)
    else if scheme == Wubi then Some(WubiTable)
    else Some(Pinyin)
  }

  method CheckHandles(cfg: Config, src: Source, ctx: Context) returns (r: bool)
    ensures r == Handles(cfg, src, ctx)
  {
    match src
    case Number =>
      if ctx.scheme != SmartAbc || ctx.mode != Chinese || |ctx.raw| < 2 || ctx.raw[0] != cfg.numberLead {
        return false;
      }
      r := LooksLikeNumberBody(ctx.raw[1..]);
    case Extension => r := false;
    case Passthrough => r := ctx.mode == English;
    case Punctuation => r := ctx.mode == Chinese && |ctx.raw| == 1 && IsMappedPunctuation(ctx.raw[0]);
    case Pinyin =>
      r := ctx.mode == Chinese && (ctx.scheme == SmartAbc || ctx.scheme == PlainPinyin) && ctx.raw != "";
    case WubiTable => r := ctx.mode == Chinese && ctx.scheme == Wubi && ctx.raw != "";
  }

  // First in the registry wins. In Chinese mode every non-empty input has a source, so
  // the session's reset for a missing one is dead code.
  method Resolve(cfg: Config, ctx: Context) returns (r: Option<Source>)
    ensures r.Some? ==> Handles(cfg, r.value, ctx)
    ensures ctx.mode == Chinese ==> r == InCharge(cfg, ctx.raw, ctx.scheme)
  {
    for i := 0 to |REGISTRY|
      invariant forall j :: 0 <= j < i ==> !Handles(cfg, REGISTRY[j], ctx)
    {
      var h := CheckHandles(cfg, REGISTRY[i], ctx);
      if h {
        FirstIsInCharge(cfg, ctx, i);
        return Some(REGISTRY[i]);
      }
    }
    NoneIsInCharge(cfg, ctx);
    r := None;
  }

  lemma FirstIsInCharge(cfg: Config, ctx: Context, i: nat)
    requires i < |REGISTRY| && Handles(cfg, REGISTRY[i], ctx)
    requires forall j :: 0 <= j < i ==> !Handles(cfg, REGISTRY[j], ctx)
    ensures ctx.mode == Chinese ==> InCharge(cfg, ctx.raw, ctx.scheme) == Some(REGISTRY[i])
  {
    if i > 2 {
      assert !Handles(cfg, REGISTRY[2], ctx);
    }
    if i > 3 {
      assert !Handles(cfg, REGISTRY[3], ctx);
    }
  }

  lemma NoneIsInCharge(cfg: Config, ctx: Context)
    requires forall j :: 0 <= j < |REGISTRY| ==> !Handles(cfg, REGISTRY[j], ctx)
    ensures ctx.mode == Chinese ==> ctx.raw == ""
  {
    assert !Handles(cfg, REGISTRY[4], ctx) && !Handles(cfg, REGISTRY[5], ctx);
  }

  // A number input is the lead character and then digits, points and minus signs, with at
  // least one digit; among these is every text that denotes an integer or an amount.
  lemma NumberInputs(cfg: Config, body: string)
    ensures IsNumberInput(cfg, [cfg.numberLead] + body, SmartAbc) <==>
            (forall i :: 0 <= i < |body| ==> '0' <= body[i] <= '9' || body[i] == '.' || body[i] == '-')
            && exists i :: 0 <= i < |body| && '0' <= body[i] <= '9'
    ensures IntegerOf(body).Some? || CentsOf(body).Some? ==> IsNumberInput(cfg, [cfg.numberLead] + body, SmartAbc)
  {
    var raw := [cfg.numberLead] + body;
    assert raw[1..] == body;
    if IntegerOf(body).Some? {
      DigitsAreBody(body, Unsigned(body), "");
    } else if CentsOf(body).Some? {
      hide IndexOf;
      PartsMakeBody(Unsigned(body));
      DigitsAreBody(body, IntPart(Unsigned(body)), FracPart(Unsigned(body)));
    }
  }

  lemma DigitsAreBody(body: string, ip: string, fp: string)
    requires AllDigits(ip + fp) && ip + fp != ""
    requires Unsigned(body) == ip + fp || Unsigned(body) == ip + "." + fp
    ensures IsNumberBody(body)
  {
    var text := Unsigned(body);
    assert forall i :: 0 <= i < |ip| ==> ip[i] == (ip + fp)[i];
    assert forall i :: 0 <= i < |fp| ==> fp[i] == (ip + fp)[|ip| + i];
    assert forall i :: 0 <= i < |text| ==> NumberBodyChar(text[i]);
    var k := if ip != "" then 0 else |text| - 1;
    assert IsDigit(text[k]);
    var sign := if IsNegative(body) then 1 else 0;
    assert forall i :: 0 <= i < |text| ==> body[sign + i] == text[i];
    assert IsDigit(body[sign + k]);
  }

  // ---- What each source produces ------------------------------------------------

  function NumberItems(body: string): seq<CandidateItem> {
    var n, cents := IntegerOf(body), CentsOf(body);
    (if '.' !in body then
       if n.None? then []
       else
         [Plain(PlaceReading(n.value))]
         + (if YearReading(body).Some? then [Plain(YearReading(body).value)] else [])
         + (if cents.Some? then [Plain(AmountReading(cents.value))] else [])
     else if cents.Some? then [Plain(AmountReading(cents.value))] else [])
    + [Plain(body)]
  }

  method ProduceNumber(raw: string) returns (items: seq<CandidateItem>)
    requires raw != ""
    ensures items == NumberItems(raw[1..])
  {
    hide IntegerOf, CentsOf, PlaceReading, AmountReading, YearReading;
    var body := raw[1..];
    items := [];
    if '.' !in body {
      var n := ParseInteger(body);
      if n.Some? {
        var reading := PlaceValueChinese(n.value);
        items := items + [Plain(reading)];
        var digits := DigitByDigitChinese(body);
        if digits.Some? {
          items := items + [Plain(digits.value)];
        }
        var cents := ParseDecimalToCents(body);
        if cents.Some? {
          var amount := UppercaseCurrency(cents.value);
          items := items + [Plain(amount)];
        }
      }
    } else {
      var cents := ParseDecimalToCents(body);
      if cents.Some? {
        var amount := UppercaseCurrency(cents.value);
        items := items + [Plain(amount)];
      }
    }
    items := items + [Plain(body)];
  }

  function PunctuationItems(raw: string): seq<CandidateItem> {
    if raw != "" && raw[0] in PUNCTUATION then [Plain(PUNCTUATION[raw[0]])] else []
  }

  function Lookup(cfg: Config, code: string): seq<string> {
    if code in cfg.wubiTable then cfg.wubiTable[code] else []
  }

  function WubiItems(cfg: Config, raw: string): (items: seq<CandidateItem>)
    ensures |items| == |Lookup(cfg, raw)|
    ensures forall i :: 0 <= i < |items| ==> items[i] == Plain(Lookup(cfg, raw)[i])
  {
    var found := Lookup(cfg, raw);
    seq(|found|, i requires 0 <= i < |found| => Plain(found[i]))
  }

  method ProduceWubi(cfg: Config, raw: string) returns (items: seq<CandidateItem>)
    ensures items == WubiItems(cfg, raw)
  {
    items := [];
    var found := Lookup(cfg, raw);
    for i := 0 to |found|
      invariant |items| == i && forall j :: 0 <= j < i ==> items[j] == Plain(found[j])
    {
      items := items + [Plain(found[i])];
    }
  }

  // The pinyin part goes to the engine; trailing strokes filter what it offers.
  function PinyinItems(cfg: Config, raw: string, e: Engine.State): seq<CandidateItem> {
    if !cfg.strokesEnabled then e.candidates else Filtered(e.candidates, StrokeSuffix(raw), cfg.strokeTable)
  }

  // The engine and the candidates after source src produced for raw.
  function Produced(lib: Engine.Lib, cfg: Config, src: Source, raw: string, e: Engine.State):
    (Engine.State, seq<CandidateItem>)
  {
    match src
    case Number => (e, if raw == "" then [] else NumberItems(raw[1..]))
    case Punctuation => (e, PunctuationItems(raw))
    case WubiTable => (e, WubiItems(cfg, raw))
    case Pinyin =>
      var e1 := Engine.Parsed(lib, e, PinyinPart(raw));
      (e1, PinyinItems(cfg, raw, e1))
    case Passthrough => (e, [Plain(raw)])
    case Extension => (e, [])
  }

  method Produce(cfg: Config, src: Source, raw: string, engine: Engine.LibPinyinEngine)
    returns (items: seq<CandidateItem>)
    requires raw != ""
    modifies engine
    ensures (engine.View(), items) == Produced(engine.lib, cfg, src, raw, old(engine.View()))
  {
    match src
    case Number => items := ProduceNumber(raw);
    case Punctuation => items := PunctuationItems(raw);
    case WubiTable => items := ProduceWubi(cfg, raw);
    case Pinyin =>
      var pinyin, strokes := SplitPinyinAndBihuo(raw);
      engine.ParseAndGuess(pinyin);
      if !cfg.strokesEnabled || strokes == "" {
        items := engine.candidates;
      } else {
        items := FilterByBihuo(engine.candidates, strokes, cfg.strokeTable);
      }
    case Passthrough => items := [Plain(raw)];
    case Extension => items := [];
  }

  predicate AutoCommits(src: Source) {
    src.Punctuation? || src.Passthrough?
  }

  predicate UsesEngine(src: Source) {
    src.Pinyin?
  }
}
