// A session that alone uses its engine: what it shows is what the engine holds, and
// selecting acts on exactly what is shown.
module SessionMirror {
  import opened Decimal
  import opened Candidates
  import opened Sources
  import opened SessionSpec
  import opened SessionInv
  import Engine

  // The candidates of a composition, as its source produced them and as choices since
  // then have refreshed them.
  ghost predicate Mirrors(lib: Engine.Lib, cfg: Config, w: World) {
    w.s.composing ==>
      if !w.s.usesEngine then
        InCharge(cfg, w.s.raw, w.s.scheme).Some?
        && w.s.candidates == Produced(lib, cfg, InCharge(cfg, w.s.raw, w.s.scheme).value, w.s.raw, w.e).1
      else if w.s.partial == "" then
        w.e == Engine.Parsed(lib, w.e, PinyinPart(w.s.raw)) && w.s.candidates == PinyinItems(cfg, w.s.raw, w.e)
      else
        && w.e.ready && w.s.candidates == w.e.candidates
        && w.s.partial == Engine.Sentence(lib, w.e) && w.e.inst.raw == PinyinPart(w.s.raw)
  }

  // Entry i shows the text of the engine's item it stands for, and would commit that text.
  ghost predicate ShowsEngineItem(w: World, i: nat) {
    && i < |w.s.candidates|
    && var k := EngineIndex(w.s.candidates, i);
       k < |w.e.handles| && w.e.handles[k].text == w.s.candidates[i].text && w.s.candidates[i].commitText == ""
  }

  lemma EngineListIsPlain(lib: Engine.Lib, e: Engine.State)
    requires Engine.Ok(lib, e)
    ensures |e.candidates| == |e.handles|
    ensures forall i :: 0 <= i < |e.handles| ==> e.candidates[i] == Engine.ToItem(e.handles[i])
  {
  }

  // Every displayed item of an engine source maps to a valid engine index holding the same text.
  lemma DisplayedIsEngines(lib: Engine.Lib, cfg: Config, w: World, i: nat)
    requires Engine.Ok(lib, w.e) && Mirrors(lib, cfg, w) && w.s.composing && w.s.usesEngine
    requires i < |w.s.candidates|
    ensures ShowsEngineItem(w, i)
  {
    hide Engine.Parsed;
    EngineListIsPlain(lib, w.e);
    var strokes := StrokeSuffix(w.s.raw);
    if w.s.partial == "" && cfg.strokesEnabled && strokes != "" {
      FilterKeeps(w.e.candidates, strokes, cfg.strokeTable, 0);
      var kept := Kept(w.e.candidates, strokes, cfg.strokeTable, 0);
      assert w.s.candidates[i] == w.e.candidates[kept[i]].(engineIndex := kept[i]);
    }
  }

  lemma AtomicCommitsItsText(lib: Engine.Lib, cfg: Config, w: World, i: nat)
    requires Sound(cfg, w.s) && Mirrors(lib, cfg, w) && w.s.composing && !w.s.usesEngine
    requires i < |w.s.candidates|
    ensures EffectiveCommitText(w.s.candidates[i]) == w.s.candidates[i].text
  {
    FittingSource(cfg, w.s.raw, w.s.scheme);
    if InCharge(cfg, w.s.raw, w.s.scheme) == Some(Number) {
      NumberItemsArePlain(w.s.raw[1..], i);
    }
  }

  lemma NumberItemsArePlain(body: string, i: nat)
    requires i < |NumberItems(body)|
    ensures NumberItems(body)[i].commitText == ""
  {
  }

  // ---- Every operation keeps the mirror -----------------------------------------------

  lemma ChosenSentence(lib: Engine.Lib, e: Engine.State, k: nat)
    requires k < |e.handles| && e.ready && Engine.Lawful(lib) && Engine.Ok(lib, e)
    ensures var (e1, done, sentence) := Engine.Chosen(lib, e, k);
            && e1.ready && sentence == Engine.Sentence(lib, e1) && e1.inst.raw == e.inst.raw
            && e1.inst.dict == e.inst.dict
            && e1.inst.chosen == e.inst.chosen + [e.handles[k]]
  {
    Engine.ChooseAdvances(lib, e, k);
    assert e.handles[k] == lib.guess(e.inst, e.cursor)[k];
    assert lib.choose(e.inst, e.cursor, e.handles[k]) > e.cursor;
  }

  lemma MirrorRaw(lib: Engine.Lib, cfg: Config, w: World)
    requires Mirrors(lib, cfg, w) && w.s.composing && w.s.usesEngine && w.e.ready
    ensures w.e.inst.raw == PinyinPart(w.s.raw)
  {
  }

  // The world after a choice that leaves something.
  lemma AdvancedMirrors(lib: Engine.Lib, cfg: Config, w: World, g: nat)
    requires Engine.Lawful(lib) && Engine.Ok(lib, w.e) && Sound(cfg, w.s) && Mirrors(lib, cfg, w)
    requires w.s.composing && w.s.usesEngine && g < |w.s.candidates|
    ensures var k := EngineIndex(w.s.candidates, g);
            && k < |w.e.handles| && w.e.handles[k].text == w.s.candidates[g].text && w.e.ready
            && var (e1, done, sentence) := Engine.Chosen(lib, w.e, k);
               !done ==> sentence != "" && Mirrors(lib, cfg, World(Advanced(w.s, e1, sentence), e1))
  {
    DisplayedIsEngines(lib, cfg, w, g);
    var k := EngineIndex(w.s.candidates, g);
    hide Engine.Chosen, PinyinPart;
    Engine.ChooseAdvances(lib, w.e, k);
    ChosenSentence(lib, w.e, k);
    MirrorRaw(lib, cfg, w);
  }

  lemma {:induction false} SelectMirrors(lib: Engine.Lib, cfg: Config, w: World, index: int)
    requires Engine.Lawful(lib) && Engine.Ok(lib, w.e) && Sound(cfg, w.s) && Mirrors(lib, cfg, w)
    ensures Mirrors(lib, cfg, Select(lib, cfg, w, index).0)
    decreases Misses(cfg, w, index), Engine.Left(w.e)
  {
    hide View, Sound, Mirrors, PageStart, Engine.Chosen, Train;
    var g := PageStart(cfg, w.s.page) + index;
    if w.s.composing && 0 <= index && g < |w.s.candidates| {
      if !w.s.usesEngine {
        IdleMirrors(lib, cfg, w);
      } else {
        var k := EngineIndex(w.s.candidates, g);
        Engine.ChooseAdvances(lib, w.e, k);
        AdvancedMirrors(lib, cfg, w, g);
        var (e1, done, sentence) := Engine.Chosen(lib, w.e, k);
        if done {
          IdleMirrors(lib, cfg, World(w.s, Train(cfg, e1, sentence)));
        } else {
          AdvancedIs(lib, cfg, w, e1, sentence);
          var w1 := World(Advanced(w.s, e1, sentence), e1);
          if |w1.s.candidates| == 1 {
            SelectMirrors(lib, cfg, w1, 0);
          }
        }
      }
    }
  }

  lemma IdleMirrors(lib: Engine.Lib, cfg: Config, w: World)
    ensures Mirrors(lib, cfg, Idled(w))
  {
  }

  lemma RecomputedMirrors(lib: Engine.Lib, cfg: Config, w: World, src: Source)
    requires InCharge(cfg, w.s.raw, w.s.scheme) == Some(src)
    ensures Mirrors(lib, cfg, Recomputed(lib, cfg, w, src))
  {
    hide InCharge;
    if src == Pinyin {
      ParsedTwice(lib, w.e, PinyinPart(w.s.raw));
    } else if src != Pinyin {
      ProducedIgnoresEngine(lib, cfg, src, w.s.raw, w.e);
    }
  }

  lemma ParsedTwice(lib: Engine.Lib, e: Engine.State, raw: string)
    ensures Engine.Parsed(lib, Engine.Parsed(lib, e, raw), raw) == Engine.Parsed(lib, e, raw)
  {
  }

  lemma ProducedIgnoresEngine(lib: Engine.Lib, cfg: Config, src: Source, raw: string, e: Engine.State)
    requires src != Pinyin
    ensures Produced(lib, cfg, src, raw, e).0 == e
    ensures forall e1 :: Produced(lib, cfg, src, raw, e1).1 == Produced(lib, cfg, src, raw, e).1
  {
  }

  lemma RecomputeMirrors(lib: Engine.Lib, cfg: Config, w: World)
    requires Engine.Lawful(lib) && Engine.Ok(lib, w.e)
    requires w.s.composing && (Fits(w.s.raw, w.s.scheme) || IsPunctuation(w.s.raw))
    ensures Mirrors(lib, cfg, Recompute(lib, cfg, w).0)
  {
    hide View, Sound, Mirrors, PageStart, Recomputed, Select, InCharge, Idled;
    FittingSource(cfg, w.s.raw, w.s.scheme);
    var src := InCharge(cfg, w.s.raw, w.s.scheme).value;
    var w1 := Recomputed(lib, cfg, w, src);
    ProducedIsOk(lib, cfg, w, src);
    RecomputedMirrors(lib, cfg, w, src);
    IdleMirrors(lib, cfg, w1);
    if !AutoCommits(src) {
      RecomputedIsSound(lib, cfg, w, src);
      SelectMirrors(lib, cfg, w1, 0);
    }
  }

  lemma AppendMirrors(lib: Engine.Lib, cfg: Config, w: World, c: char)
    requires Engine.Lawful(lib) && Engine.Ok(lib, w.e)
    requires w.s.composing && Fits(w.s.raw + [c], w.s.scheme)
    ensures Mirrors(lib, cfg, Append(lib, cfg, w, c).0)
  {
    hide Mirrors, Recompute;
    RecomputeMirrors(lib, cfg, World(w.s.(raw := w.s.raw + [c]), w.e));
  }

  // Arming, paging and hints leave what the mirror is about alone.
  lemma SameListMirrors(lib: Engine.Lib, cfg: Config, w: World, w1: World)
    requires Mirrors(lib, cfg, w)
    requires w1.e == w.e && w1.s == w.s.(page := w1.s.page, armed := w1.s.armed, fieldHint := w1.s.fieldHint)
    ensures Mirrors(lib, cfg, w1)
  {
    hide Produced, PinyinItems, Engine.Parsed, InCharge;
  }

  lemma ComposingKeyMirrors(lib: Engine.Lib, cfg: Config, w: World, vk: int, ch: nat, ctrl: bool)
    requires Engine.Lawful(lib) && Engine.Ok(lib, w.e) && Inv(cfg, w.s) && w.s.composing && Mirrors(lib, cfg, w)
    ensures Mirrors(lib, cfg, ComposingKey(lib, cfg, w, vk, ch, ctrl).0)
  {
    hide Mirrors, Select, Append, Recompute, Idled, View, PageTotal;
    var c := ToChar(ch);
    IdleMirrors(lib, cfg, w);
    if c in cfg.selectKeys {
      SelectMirrors(lib, cfg, w, IndexOf(cfg.selectKeys, c));
    }
    if ctrl && ch != 0 && c in cfg.selectKeys {
    } else if vk == VK_BACK {
      BackspaceMirrors(lib, cfg, w);
    } else if vk == VK_ESCAPE {
    } else if vk == VK_SPACE {
      SpaceMirrors(lib, cfg, w);
    } else {
      LettersMirror(lib, cfg, w, ch);
      if w.s.scheme == SmartAbc {
        FitsMore(w.s, c, cfg);
        AppendMirrors(lib, cfg, w, c);
      }
    }
  }

  lemma BackspaceMirrors(lib: Engine.Lib, cfg: Config, w: World)
    requires Engine.Lawful(lib) && Engine.Ok(lib, w.e) && Inv(cfg, w.s) && w.s.composing && Mirrors(lib, cfg, w)
    ensures Mirrors(lib, cfg, Backspace(lib, cfg, w).0)
  {
    hide Mirrors, Recompute, Idled, View;
    FitsLess(w.s, cfg);
    var w1 := World(w.s.(raw := w.s.raw[..|w.s.raw| - 1]), w.e);
    IdleMirrors(lib, cfg, w1);
    if w.s.partial != "" {
      RecomputeMirrors(lib, cfg, w);
    } else if w1.s.raw != "" {
      RecomputeMirrors(lib, cfg, w1);
    }
  }

  lemma SpaceMirrors(lib: Engine.Lib, cfg: Config, w: World)
    requires Engine.Lawful(lib) && Engine.Ok(lib, w.e) && Inv(cfg, w.s) && w.s.composing && Mirrors(lib, cfg, w)
    ensures Mirrors(lib, cfg, Space(lib, cfg, w).0)
  {
    hide Mirrors, Select, View;
    var on, off := World(w.s.(armed := true), w.e), World(w.s.(armed := false), w.e);
    SameListMirrors(lib, cfg, w, on);
    SameListMirrors(lib, cfg, w, off);
    SelectMirrors(lib, cfg, w, 0);
    if w.s.scheme == SmartAbc && |w.s.candidates| > 1 && w.s.armed {
      SelectMirrors(lib, cfg, off, 0);
    }
  }

  lemma PageMirrors(lib: Engine.Lib, cfg: Config, w: World, delta: int)
    requires Mirrors(lib, cfg, w)
    ensures Mirrors(lib, cfg, Page(cfg, w, delta).0)
  {
    hide Mirrors, PageTotal, View;
    SameListMirrors(lib, cfg, w, Page(cfg, w, delta).0);
  }

  lemma LettersMirror(lib: Engine.Lib, cfg: Config, w: World, ch: nat)
    requires Engine.Lawful(lib) && Engine.Ok(lib, w.e) && Inv(cfg, w.s) && w.s.composing && Mirrors(lib, cfg, w)
    ensures Mirrors(lib, cfg, Letters(lib, cfg, w, ch).0)
  {
    hide Mirrors, Append, View, Page;
    PageMirrors(lib, cfg, w, -1);
    PageMirrors(lib, cfg, w, 1);
    if IsAsciiLetter(ch) && (w.s.scheme == Wubi ==> |w.s.raw| < 4) {
      FitsMore(w.s, ToLowerAscii(ch), cfg);
      AppendMirrors(lib, cfg, w, ToLowerAscii(ch));
    }
  }

  lemma StartKeyMirrors(lib: Engine.Lib, cfg: Config, w: World, ch: nat)
    requires Engine.Lawful(lib) && Engine.Ok(lib, w.e) && Inv(cfg, w.s) && !w.s.composing
    ensures Mirrors(lib, cfg, StartKey(lib, cfg, w, ch).0)
  {
    hide Recompute, View;
    if ch > 0 && (IsAsciiLetter(ch) || IsMappedPunctuation(ToChar(ch))) {
      hide Mirrors;
      var raw := [if IsAsciiLetter(ch) then ToLowerAscii(ch) else ToChar(ch)];
      RecomputeMirrors(lib, cfg, World(w.s.(composing := true, raw := raw), w.e));
    }
  }

  lemma StepMirrors(lib: Engine.Lib, cfg: Config, w: World, ev: Event)
    requires Engine.Lawful(lib) && Engine.Ok(lib, w.e) && Inv(cfg, w.s) && Mirrors(lib, cfg, w)
    ensures Mirrors(lib, cfg, Step(lib, cfg, w, ev).0)
  {
    hide Mirrors, View, ComposingKey, StartKey, Select, Page, Idled, Train;
    IdleMirrors(lib, cfg, w);
    match ev
    case Key(vk, ch, ctrl) =>
      if w.s.composing {
        ComposingKeyMirrors(lib, cfg, w, vk, ch, ctrl);
      } else {
        StartKeyMirrors(lib, cfg, w, ch);
      }
    case Selects(index) => SelectMirrors(lib, cfg, w, index);
    case Pages(delta) => PageMirrors(lib, cfg, w, delta);
    case CommitsNow =>
      IdleMirrors(lib, cfg, World(w.s, Train(cfg, w.e, EngineText(lib, w))));
    case Cancels =>
    case LosesFocus =>
    case Hints(hint) => SameListMirrors(lib, cfg, w, World(w.s.(fieldHint := hint), w.e));
    case Switches(scheme) => SwitchMirrors(lib, cfg, w, scheme);
  }

  lemma SwitchMirrors(lib: Engine.Lib, cfg: Config, w: World, scheme: Scheme)
    requires Mirrors(lib, cfg, w)
    ensures Mirrors(lib, cfg, SetScheme(w, scheme))
  {
  }

  // ---- Stroke digits only narrow ------------------------------------------------------

  // What the pinyin source keeps of the engine's list: everything for an input without
  // strokes, else exactly the items whose first character has no code or one that begins
  // with the strokes of the input.
  lemma PinyinKeepsExactly(lib: Engine.Lib, cfg: Config, raw: string, e: Engine.State, i: nat)
    requires i < |Produced(lib, cfg, Pinyin, raw, e).0.candidates|
    ensures var (e1, items) := Produced(lib, cfg, Pinyin, raw, e);
            var strokes := StrokeSuffix(raw); var text := e1.candidates[i].text; var table := cfg.strokeTable;
            var c := if text == "" then "" else [text[0]];
            if !cfg.strokesEnabled || strokes == "" then items == e1.candidates
            else Survives(e1.candidates, items, i) <==>
                 c in table ==> |strokes| <= |table[c]| && forall j :: 0 <= j < |strokes| ==> table[c][j] == strokes[j]
  {
    hide Engine.Parsed, Survives;
    var e1 := Engine.Parsed(lib, e, PinyinPart(raw));
    if cfg.strokesEnabled && StrokeSuffix(raw) != "" {
      FilterByCodes(e1.candidates, StrokeSuffix(raw), cfg.strokeTable, i);
    }
  }

  // Appending a stroke digit to an input with a pinyin part parses the same pinyin and
  // offers an order-preserving part of the same list: each survivor stands for the same
  // engine item, and only listed characters with another code are dropped.
  lemma StrokeNarrows(lib: Engine.Lib, cfg: Config, raw: string, d: char, e: Engine.State) returns (from: seq<nat>)
    requires Engine.Ok(lib, e) && IsStrokeDigit(d) && StemLength(raw) > 0 && cfg.strokesEnabled
    ensures var (e1, a) := Produced(lib, cfg, Pinyin, raw, e); var (e2, b) := Produced(lib, cfg, Pinyin, raw + [d], e);
            e1 == e2 && Narrows(a, b, from, cfg.strokeTable, StrokeSuffix(raw) + [d])
  {
    hide Narrows, Engine.Parsed, Filtered, PinyinPart, StrokeSuffix;
    AppendStroke(raw, d);
    var e1 := Engine.Parsed(lib, e, PinyinPart(raw));
    Engine.ParsedIsOk(lib, e, PinyinPart(raw));
    EngineListIsPlain(lib, e1);
    from := OneMoreStroke(e1.candidates, StrokeSuffix(raw), d, cfg.strokeTable);
  }
}
