// Inputs on which the code does other than its comments say, each from a new session.
module Deviations {
  import opened Decimal
  import opened Candidates
  import opened Sources
  import opened SessionSpec
  import opened SessionInv
  import opened SessionRuns
  import KeyRouter
  import Engine

  const WORDS: seq<string> := ["一", "二", "三", "四", "五", "六", "七", "八", "九", "十"]

  // The default options, with small tables.
  const CFG := Config(
    9, "-,", "=.", "123456789", 'i', true, true, map["字" := "44", "子" := "52", "孜" := "54"], map["a" := WORDS])

  const LIB := Engine.SPELLER

  // A library loaded and nothing typed.
  const START := Engine.State(true, Engine.Instance([], "", []), 0, 0, [], [])

  // The library's list: its sentence, then three readings.
  function Offered(sentence: string): seq<CandidateItem> {
    [CandidateItem(sentence, true, -1, ""), Plain("字"), Plain("子"), Plain("孜")]
  }

  // The session after raw was typed in the SmartAbc scheme.
  function Typed(raw: string): World {
    World(Fresh(SmartAbc).(composing := true, raw := raw, usesEngine := true,
                           candidates := Offered(Engine.Likeliest(|raw|))),
          Engine.Parsed(LIB, START, raw))
  }

  function New(scheme: Scheme): World {
    World(Fresh(scheme), START)
  }

  // The event takes the session from w to w1.
  ghost predicate Leads(w: World, ev: Event, w1: World) {
    Engine.Lawful(LIB) && Engine.Ok(LIB, w.e) && Engine.Ok(LIB, w1.e) && Step(LIB, CFG, w, ev).0 == w1
  }

  function Press(c: char): Event {
    Key(0, c as nat, false)
  }

  lemma StartIsFine(scheme: Scheme)
    ensures Engine.Lawful(LIB) && Reachable(LIB, CFG, New(scheme))
  {
    Engine.SpellerIsLawful();
  }

  lemma LettersOnly(raw: string)
    requires AllLower(raw) && raw != ""
    ensures PinyinPart(raw) == raw && StrokeSuffix(raw) == "" && InCharge(CFG, raw, SmartAbc) == Some(Pinyin)
  {
    assert StemLength(raw) == |raw|;
    assert IsLower(raw[|raw| - 1]);
    assert |raw| >= 2 ==> raw[1..][0] == raw[1];
  }

  lemma ParsedLists(e: Engine.State, raw: string)
    requires e.ready && e.inst.dict == [] && raw != ""
    ensures Engine.Parsed(LIB, e, raw) == Engine.Parsed(LIB, START, raw)
    ensures Engine.Parsed(LIB, e, raw).ready && Engine.Parsed(LIB, e, raw).inst == Engine.Instance([], raw, [])
    ensures Engine.Parsed(LIB, e, raw).handles == Engine.Readings(Engine.Likeliest(|raw|))
    ensures Engine.Parsed(LIB, e, raw).candidates == Offered(Engine.Likeliest(|raw|))
    ensures Engine.Sentence(LIB, Engine.Parsed(LIB, e, raw)) == Engine.Likeliest(|raw|)
    ensures Engine.Parsed(LIB, e, raw).cursor == 0 && Engine.Parsed(LIB, e, raw).parsedLen == |raw|
    ensures Engine.Ok(LIB, Engine.Parsed(LIB, e, raw))
  {
    var inst := Engine.Instance([], raw, []);
    assert "" + Engine.Likeliest(|raw|) == Engine.Likeliest(|raw|);
    assert LIB.guess(inst, 0) == Engine.Readings(Engine.Likeliest(|raw|));
  }

  // Letters typed into a new session.
  lemma TypesLetters(w: World, raw: string)
    requires AllLower(raw) && raw != ""
    requires Engine.Lawful(LIB) && Engine.Ok(LIB, w.e) && w.e.ready && w.e.inst.dict == []
    requires w.s.composing && w.s.raw == raw && w.s.scheme == SmartAbc && w.s.fieldHint == ""
    ensures Recompute(LIB, CFG, w) == Shows(CFG, Typed(raw)) && Engine.Ok(LIB, Typed(raw).e)
  {
    hide View, Engine.Parsed, Select, InCharge, PinyinPart, StrokeSuffix;
    LettersOnly(raw);
    ParsedLists(w.e, raw);
    assert forall items :: Filtered(items, "", CFG.strokeTable) == items;
    assert Recomputed(LIB, CFG, w, Pinyin) == Typed(raw);
  }

  lemma FirstLetter(c: char)
    requires IsLower(c)
    ensures Leads(New(SmartAbc), Press(c), Typed([c]))
  {
    hide Recompute, View;
    StartIsFine(SmartAbc);
    TypesLetters(World(Fresh(SmartAbc).(composing := true, raw := [c]), START), [c]);
  }

  lemma NextLetter(raw: string, c: char)
    requires AllLower(raw) && raw != "" && IsLower(c)
    ensures Leads(Typed(raw), Press(c), Typed(raw + [c]))
  {
    hide Recompute, View, Engine.Parsed, Engine.Ok, Engine.Lawful, Select;
    StartIsFine(SmartAbc);
    ParsedLists(START, raw);
    TypesLetters(World(Typed(raw).s.(raw := raw + [c]), Typed(raw).e), raw + [c]);
    assert c !in CFG.selectKeys && c !in CFG.pagePrevKeys && c !in CFG.pageNextKeys;
  }

  // ---- The router -------------------------------------------------------------------------

  // The keys i and 0: the session handles both, the text service claims only the first.
  lemma ZeroGoesUnclaimed()
    ensures Leads(New(SmartAbc), Press('i'), Typed("i"))
    ensures KeyRouter.IsInterestedKey(CFG, 0, 0, 'i' as nat, false, Chinese, false, false)
    ensures ProcessKey(LIB, CFG, Typed("i"), 0, '0' as nat, false).1.handled
    ensures !KeyRouter.IsInterestedKey(CFG, 0, 0, '0' as nat, true, Chinese, false, false)
  {
    hide View, ProcessKey, Engine.Parsed, Step, Engine.Ok, Engine.Lawful;
    StartIsFine(SmartAbc);
    FirstLetter('i');
    TypedIsFine("i");
    KeyRouter.DefaultGap(CFG, Typed("i").s, 0, '0' as nat);
    KeyRouter.RouterCoverage(LIB, CFG, Typed("i"), 0, 0, '0' as nat, false, false);
  }

  lemma TypedIsFine(raw: string)
    requires AllLower(raw) && raw != ""
    ensures Inv(CFG, Typed(raw).s) && Engine.Ok(LIB, Typed(raw).e)
  {
    hide Engine.Parsed;
    LettersOnly(raw);
    ParsedLists(START, raw);
  }

  // ---- Selecting off the page ---------------------------------------------------------------

  function TenWords(): World {
    World(Fresh(Wubi).(composing := true, raw := "a", candidates := WubiItems(CFG, "a")), START)
  }

  // A Wubi code with ten words, nine to a page: index nine commits the tenth, not shown.
  lemma SelectsOffThePage()
    ensures Leads(New(Wubi), Press('a'), TenWords()) && Shown(CFG, TenWords().s) == WORDS[..9]
    ensures var r := Select(LIB, CFG, TenWords(), 9).1;
            r.hasCommit && r.commit == "十" && r.commit !in Shown(CFG, TenWords().s)
  {
    hide View, Engine.Lawful;
    StartIsFine(Wubi);
    var w := TenWords();
    var w0 := World(Fresh(Wubi).(composing := true, raw := "a"), START);
    assert Recomputed(LIB, CFG, w0, WubiTable) == w;
    ViewReports(CFG, Idled(w).s, true, true, "十");
    assert w.s.candidates[9] == Plain("十");
    assert Slice(w.s.candidates, 0, 9) == w.s.candidates[..9];
    assert Shown(CFG, w.s) == WORDS[..9];
    assert forall i :: 0 <= i < 9 ==> WORDS[i] != "十";
  }

  // ---- Committing -----------------------------------------------------------------------------

  // The letters ab and the stroke 5, which two readings pass and the sentence does not.
  function Struck(): World {
    World(Typed("ab").s.(raw := "ab5",
                         candidates := [Plain("子").(engineIndex := 2), Plain("孜").(engineIndex := 3)]),
          Typed("ab").e)
  }

  // The library puts its sentence first; but the strokes drop it, and the commit is still
  // the sentence while the first candidate is one character.
  lemma CommitIsNotFirst()
    ensures Engine.SentenceFirst(LIB)
    ensures Leads(New(SmartAbc), Press('a'), Typed("a")) && Leads(Typed("a"), Press('b'), Typed("ab"))
    ensures Leads(Typed("ab"), Press('5'), Struck())
    ensures var r := Commit(LIB, CFG, Struck()).1;
            r.hasCommit && r.commit == "字字" && EffectiveCommitText(Struck().s.candidates[0]) == "子"
  {
    hide View, Step, Leads, Commit, Engine.Parsed;
    TypesAB();
    StrikesFive();
    ParsedLists(START, "ab");
    assert Engine.Likeliest(2) == "字字";
    CommitGives(LIB, CFG, Struck());
  }

  lemma TypesAB()
    ensures Engine.Lawful(LIB) && Engine.SentenceFirst(LIB)
    ensures Leads(New(SmartAbc), Press('a'), Typed("a")) && Leads(Typed("a"), Press('b'), Typed("ab"))
  {
    hide Leads, Typed;
    Engine.SpellerIsLawful();
    FirstLetter('a');
    NextLetter("a", 'b');
    assert "a" + ['b'] == "ab";
  }

  // Which items of the list for ab the strokes let through.
  lemma StrokesPass(strokes: string)
    requires strokes == "5" || strokes == "52"
    ensures PinyinPart("ab" + strokes) == "ab" && StrokeSuffix("ab" + strokes) == strokes
    ensures InCharge(CFG, "ab" + strokes, SmartAbc) == Some(Pinyin)
    ensures Filtered(Offered("字字"), strokes, CFG.strokeTable)
         == [Plain("子").(engineIndex := 2)] + if strokes == "5" then [Plain("孜").(engineIndex := 3)] else []
  {
    var raw, items := "ab" + strokes, Offered("字字");
    assert raw[..2] == "ab" && raw[2..] == strokes;
    StemOfAB(strokes);
    assert "字字"[..1] == "字" && "字"[..1] == "字" && "子"[..1] == "子" && "孜"[..1] == "孜";
    assert FilteredFrom(items, strokes, CFG.strokeTable, 4) == [];
    var last := if strokes == "5" then [items[3].(engineIndex := 3)] else [];
    assert FilteredFrom(items, strokes, CFG.strokeTable, 3) == last;
    var rest := FilteredFrom(items, strokes, CFG.strokeTable, 2);
    assert FilteredFrom(items, strokes, CFG.strokeTable, 1) == rest;
  }

  lemma StemOfAB(strokes: string)
    requires strokes == "5" || strokes == "52"
    ensures StemLength("ab" + strokes) == 2
  {
    var raw := "ab" + strokes;
    var k := StemLength(raw);
    assert !IsStrokeDigit(raw[1]);
    assert k >= 2;
    assert forall i :: 2 <= i < |raw| ==> IsStrokeDigit(raw[i]);
  }

  lemma StrikesFive()
    ensures Leads(Typed("ab"), Press('5'), Struck())
  {
    hide View, Recompute, Engine.Parsed, Engine.Ok, Engine.Lawful;
    TypesAB();
    ParsedLists(START, "ab");
    assert "ab" + ['5'] == "ab" + "5" == "ab5";
    Strikes(World(Typed("ab").s.(raw := "ab5"), Typed("ab").e));
  }

  lemma Strikes(w: World)
    requires Engine.Lawful(LIB) && Engine.Ok(LIB, w.e) && w.e.ready && w.e.inst.dict == []
    requires w.s.composing && w.s.raw == "ab5" && w.s.scheme == SmartAbc && w.s.fieldHint == ""
    ensures Recompute(LIB, CFG, w) == Shows(CFG, Struck()) && Engine.Ok(LIB, Struck().e)
  {
    hide View, Engine.Parsed, InCharge, PinyinPart, StrokeSuffix, Filtered, Select;
    assert "ab" + "5" == "ab5";
    StrokesPass("5");
    ParsedLists(w.e, "ab");
    assert Engine.Likeliest(2) == "字字";
    assert Recomputed(LIB, CFG, w, Pinyin) == Struck();
  }

  // ---- Backspace after a choice made by itself --------------------------------------------------

  // One more stroke, 2: one reading passes and is chosen, and four items are offered for
  // the rest. Backspace guesses afresh, chooses it again, and leaves the session exactly
  // as it was.
  lemma BackspaceStays()
    ensures Leads(New(SmartAbc), Press('a'), Typed("a")) && Leads(Typed("a"), Press('b'), Typed("ab"))
    ensures Leads(Typed("ab"), Press('5'), Struck()) && Leads(Struck(), Press('2'), HalfChosen())
    ensures HalfChosen().s.raw == "ab52" && HalfChosen().s.partial == "子字"
    ensures Engine.Lawful(LIB) && Engine.Ok(LIB, HalfChosen().e)
    ensures ProcessKey(LIB, CFG, HalfChosen(), VK_BACK, 0, false) == Shows(CFG, HalfChosen())
  {
    TypesAB();
    StrikesFive();
    hide View, Engine.Parsed, Recompute, Engine.Chosen, Engine.Lawful, Engine.Ok;
    ParsedLists(START, "ab");
    ChooseReading();
    assert "ab5" + ['2'] == "ab52";
    ChoosesByItself(World(Struck().s.(raw := "ab52"), Struck().e));
    ChoosesByItself(HalfChosen());
    BackspaceRecomputes(LIB, CFG, HalfChosen());
  }

  // The second reading chosen for the first of two letters.
  function HalfChosen(): World {
    var (e, done, sentence) := Engine.Chosen(LIB, Engine.Parsed(LIB, START, "ab"), 2);
    World(Fresh(SmartAbc).(composing := true, raw := "ab52", usesEngine := true, partial := sentence,
                           candidates := Offered(sentence)),
          e)
  }

  lemma SpeltOnce(raw: string, c: Engine.LookupCandidate)
    ensures Engine.Spelt(Engine.Instance([], raw, [c]))
         == c.text + Engine.Likeliest(if |c.text| < |raw| then |raw| - |c.text| else 0)
  {
    assert [c][..0] == [];
    assert Engine.Picked([]) == "";
    assert "" + c.text == c.text;
    assert Engine.Picked([c]) == c.text;
  }

  // One choice from the list for raw: the sentence completes it, a reading takes a letter.
  lemma ChoosesOnce(raw: string, k: nat)
    requires raw != "" && k < 4
    ensures var e := Engine.Parsed(LIB, START, raw);
            var c := Engine.Readings(Engine.Likeliest(|raw|))[k];
            var (e1, done, sentence) := Engine.Chosen(LIB, e, k);
            && sentence == Engine.Spelt(Engine.Instance([], raw, [c])) && done == (c.isSentence || |raw| == 1)
            && e1.ready && e1.inst.dict == []
            && (!done ==> e1.candidates == Engine.ToItems(Engine.Readings(sentence)))
  {
    hide Engine.Parsed, Engine.Readings, Engine.Likeliest, Engine.Spelt;
    ParsedLists(START, raw);
    var c := Engine.Readings(Engine.Likeliest(|raw|))[k];
    assert [] + [c] == [c];
  }

  lemma ChooseSentence()
    ensures var (e1, done, sentence) := Engine.Chosen(LIB, Engine.Parsed(LIB, START, "ab"), 0);
            done && sentence == "字字"
  {
    hide Engine.Parsed, Engine.Chosen, Engine.Spelt;
    ChoosesOnce("ab", 0);
    SpeltOnce("ab", Engine.Readings(Engine.Likeliest(2))[0]);
    assert Engine.Likeliest(2) == "字字" && Engine.Likeliest(0) == "" && "字字" + "" == "字字";
  }

  lemma ChooseReading()
    ensures var (e1, done, sentence) := Engine.Chosen(LIB, Engine.Parsed(LIB, START, "ab"), 2);
            && !done && sentence == "子字" && Engine.Ok(LIB, e1) && e1.candidates == Offered("子字")
            && e1.ready && e1.inst.dict == []
  {
    hide Engine.Parsed, Engine.Chosen, Engine.Spelt, Engine.Lawful, Engine.Ok;
    TypesAB();
    ParsedLists(START, "ab");
    Engine.ChooseAdvances(LIB, Engine.Parsed(LIB, START, "ab"), 2);
    ChoosesOnce("ab", 2);
    SpeltOnce("ab", Engine.Readings(Engine.Likeliest(2))[2]);
    assert Engine.Likeliest(1) == "字" && "子" + "字" == "子字";
    assert Engine.ToItems(Engine.Readings("子字")) == Offered("子字");
  }

  lemma ChoosesByItself(w: World)
    requires Engine.Lawful(LIB) && Engine.Ok(LIB, w.e) && w.e.ready && w.e.inst.dict == []
    requires w.s.composing && w.s.raw == "ab52" && w.s.scheme == SmartAbc && w.s.fieldHint == ""
    ensures Recompute(LIB, CFG, w) == Shows(CFG, HalfChosen())
  {
    hide View, Engine.Parsed, InCharge, PinyinPart, StrokeSuffix, Filtered, Engine.Chosen;
    assert "ab" + "52" == "ab52";
    StrokesPass("52");
    ParsedLists(w.e, "ab");
    assert Engine.Likeliest(2) == "字字";
    ChooseReading();
    var w1 := Recomputed(LIB, CFG, w, Pinyin);
    assert w1.e == Engine.Parsed(LIB, START, "ab") && w1.s.candidates == [Plain("子").(engineIndex := 2)];
    PageZero(CFG);
    assert Select(LIB, CFG, w1, 0) == Shows(CFG, HalfChosen());
  }

  // ---- Sharing the engine ---------------------------------------------------------------------------

  // One session has typed ab when another types c into the engine they share. Selecting the
  // first item in the first session, which shows a sentence of two characters, then commits
  // one character; left alone it commits the sentence shown.
  lemma SharingDisturbs()
    ensures Leads(World(Fresh(SmartAbc), Typed("ab").e), Press('c'), Typed("c"))
    ensures Engine.Lawful(LIB) && Engine.Ok(LIB, Typed("c").e) && Engine.Ok(LIB, Typed("ab").e)
    ensures Typed("ab").s.candidates[0].text == "字字"
    ensures var r := Select(LIB, CFG, World(Typed("ab").s, Typed("c").e), 0).1; r.hasCommit && r.commit == "字"
    ensures var r := Select(LIB, CFG, Typed("ab"), 0).1; r.hasCommit && r.commit == "字字"
  {
    hide View, Engine.Parsed, Recompute, Engine.Chosen, Engine.Lawful, Engine.Ok, Select;
    TypesAB();
    ParsedLists(START, "ab");
    ParsedLists(START, "c");
    TypesLetters(World(Fresh(SmartAbc).(composing := true, raw := "c"), Typed("ab").e), "c");
    assert Engine.Likeliest(2) == "字字";
    ChooseSentence();
    SelectFinishes(Typed("ab"), "字字");
    OnlyChoice();
    SelectFinishes(World(Typed("ab").s, Typed("c").e), "字");
  }

  lemma SelectFinishes(w: World, text: string)
    requires Engine.Lawful(LIB) && Engine.Ok(LIB, w.e) && w.s == Typed("ab").s
    requires Engine.Chosen(LIB, w.e, 0).1 && Engine.Chosen(LIB, w.e, 0).2 == text
    ensures var r := Select(LIB, CFG, w, 0).1; r.hasCommit && r.commit == text
  {
    hide View, Engine.Chosen, Engine.Lawful, Engine.Ok, Idled, Train;
    PageZero(CFG);
    var e1 := Engine.Chosen(LIB, w.e, 0).0;
    ViewReports(CFG, Idled(World(w.s, Train(CFG, e1, text))).s, true, true, text);
  }

  lemma OnlyChoice()
    ensures var (e1, done, sentence) := Engine.Chosen(LIB, Typed("c").e, 0); done && sentence == "字"
  {
    hide Engine.Parsed, Engine.Chosen, Engine.Spelt;
    ChoosesOnce("c", 0);
    SpeltOnce("c", Engine.Readings(Engine.Likeliest(1))[0]);
    assert Engine.Likeliest(1) == "字" && Engine.Likeliest(0) == "" && "字" + "" == "字";
  }

  // ---- Wide characters ----------------------------------------------------------------------------

  // The code 300 is no comma, but its low eight bits are: the session commits one, and the
  // text service does not claim the key.
  lemma WideCharacter()
    ensures Engine.Lawful(LIB) && Engine.Ok(LIB, START)
    ensures var r := ProcessKey(LIB, CFG, New(SmartAbc), 0, 300, false).1;
            r.handled && r.hasCommit && r.commit == "，" && 300 as char != ','
    ensures !KeyRouter.IsInterestedKey(CFG, 0, 0, 300, false, Chinese, false, false)
  {
    hide View;
    StartIsFine(SmartAbc);
    assert ToChar(300) == ',';
    var w := World(Fresh(SmartAbc).(composing := true, raw := ","), START);
    assert Recomputed(LIB, CFG, w, Punctuation).s.candidates == [Plain("，")];
    ViewReports(CFG, Idled(Recomputed(LIB, CFG, w, Punctuation)).s, true, true, "，");
  }
}
