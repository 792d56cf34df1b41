// Whole runs of a session: what you see is what you commit, the two-step space, what is
// learned, and Backspace undoing a keystroke.
module SessionRuns {
  import opened Decimal
  import opened Candidates
  import opened Sources
  import opened SessionSpec
  import opened SessionInv
  import opened SessionMirror
  import Engine

  // ---- Runs of a session that alone uses its engine -----------------------------------

  ghost predicate Reachable(lib: Engine.Lib, cfg: Config, w: World) {
    Engine.Lawful(lib) && Engine.Ok(lib, w.e) && Inv(cfg, w.s) && Mirrors(lib, cfg, w)
  }

  function Run(lib: Engine.Lib, cfg: Config, w: World, events: seq<Event>): World
    requires Engine.Lawful(lib) && Engine.Ok(lib, w.e) && Inv(cfg, w.s)
    decreases |events|
  {
    if events == [] then w
    else
      StepKeepsInv(lib, cfg, w, events[0]);
      Run(lib, cfg, Step(lib, cfg, w, events[0]).0, events[1..])
  }

  lemma {:induction false} RunReaches(lib: Engine.Lib, cfg: Config, w: World, events: seq<Event>)
    requires Reachable(lib, cfg, w)
    ensures Reachable(lib, cfg, Run(lib, cfg, w, events))
    decreases |events|
  {
    hide Mirrors, Inv, Step, Engine.Ok;
    if events != [] {
      StepKeepsInv(lib, cfg, w, events[0]);
      StepMirrors(lib, cfg, w, events[0]);
      RunReaches(lib, cfg, Step(lib, cfg, w, events[0]).0, events[1..]);
    }
  }

  function Initial(scheme: Scheme, e: Engine.State): World {
    World(Fresh(scheme), Engine.ResetState(e))
  }

  // Every state of every run from a new session meets the whole invariant, and each entry
  // it displays from the engine names an engine item with the same text.
  lemma EveryRunShowsItsEngine(lib: Engine.Lib, cfg: Config, scheme: Scheme, e: Engine.State, events: seq<Event>)
    requires Engine.Lawful(lib) && Engine.Ok(lib, Engine.ResetState(e))
    ensures Inv(cfg, Fresh(scheme))
    ensures var w := Run(lib, cfg, Initial(scheme, e), events);
            && Reachable(lib, cfg, w)
            && (w.s.composing && w.s.usesEngine ==> forall i :: 0 <= i < |w.s.candidates| ==> ShowsEngineItem(w, i))
  {
    hide Mirrors, Step, Run, Engine.Ok;
    FreshMirrors(lib, cfg, scheme, e);
    RunReaches(lib, cfg, Initial(scheme, e), events);
    var w := Run(lib, cfg, Initial(scheme, e), events);
    if w.s.composing && w.s.usesEngine {
      forall i | 0 <= i < |w.s.candidates|
        ensures ShowsEngineItem(w, i)
      {
        DisplayedIsEngines(lib, cfg, w, i);
      }
    }
  }

  lemma FreshMirrors(lib: Engine.Lib, cfg: Config, scheme: Scheme, e: Engine.State)
    ensures Mirrors(lib, cfg, Initial(scheme, e)) && Inv(cfg, Fresh(scheme))
  {
  }

  // ---- What you see is what you commit -------------------------------------------------

  lemma ShownItem(cfg: Config, s: Sess, index: nat)
    ensures index < |Shown(cfg, s)| <==> index < cfg.pageSize && PageStart(cfg, s.page) + index < |s.candidates|
    ensures index < |Shown(cfg, s)| ==> Shown(cfg, s)[index] == s.candidates[PageStart(cfg, s.page) + index].text
  {
    hide PageStart;
    var start := PageStart(cfg, s.page);
    if start < |s.candidates| {
      var page := Slice(s.candidates, start, cfg.pageSize);
      if index < |page| {
        assert page[index] == s.candidates[start + index];
      }
    }
  }

  // What acting on entry index of the shown page means: an entry of an atomic source is
  // committed as shown; an entry of the engine makes it choose an item of that very text,
  // and either the finished sentence is committed or the rest is shown.
  ghost predicate ActsOn(lib: Engine.Lib, cfg: Config, w: World, index: nat, out: (World, Result))
    requires Engine.Lawful(lib) && Engine.Ok(lib, w.e) && index < |Shown(cfg, w.s)|
  {
    var (w1, r) := out; var shown := Shown(cfg, w.s)[index];
    && r.handled
    && (!w.s.usesEngine ==> r.hasCommit && r.commit == shown)
    && (w.s.usesEngine ==>
          && PageStart(cfg, w.s.page) + index < |w.s.candidates|
          && var k := EngineIndex(w.s.candidates, PageStart(cfg, w.s.page) + index);
             && k < |w.e.handles| && w.e.handles[k].text == shown
             && var (e1, done, sentence) := Engine.Chosen(lib, w.e, k);
                && e1.inst.chosen == w.e.inst.chosen + [w.e.handles[k]]
                && (done ==> r.hasCommit && r.commit == sentence)
                && (!done ==>
                      var rest := World(Advanced(w.s, e1, sentence), e1);
                      && Engine.Ok(lib, e1) && rest.s.candidates == e1.candidates
                      && if |e1.candidates| == 1 then (w1, r) == Select(lib, cfg, rest, 0)
                         else w1 == rest && r.composing && !r.hasCommit && r.preedit == sentence))
  }

  // Selecting an entry of the shown page acts on exactly that entry.
  lemma SelectActsOnShown(lib: Engine.Lib, cfg: Config, w: World, index: nat)
    requires Reachable(lib, cfg, w) && w.s.composing && index < |Shown(cfg, w.s)|
    ensures ActsOn(lib, cfg, w, index, Select(lib, cfg, w, index))
  {
    hide PageStart, Mirrors, Sound, Engine.Chosen, Shown, Train, Idled;
    ShownItem(cfg, w.s, index);
    SelectKeeps(lib, cfg, w, index);
    var g := PageStart(cfg, w.s.page) + index;
    if w.s.usesEngine {
      AdvancedMirrors(lib, cfg, w, g);
      var k := EngineIndex(w.s.candidates, g);
      Engine.ChooseAdvances(lib, w.e, k);
      ChosenSentence(lib, w.e, k);
    } else {
      AtomicCommitsItsText(lib, cfg, w, g);
    }
  }

  // The index is not checked against the page size: an index off the shown page is taken
  // exactly when the list goes on that far. So acting on what is shown needs, and is
  // given by, an index on the page.
  lemma SelectPastThePage(lib: Engine.Lib, cfg: Config, w: World, index: nat)
    requires Engine.Lawful(lib) && Engine.Ok(lib, w.e) && Inv(cfg, w.s) && w.s.composing
    ensures Select(lib, cfg, w, index).1.handled <==> PageStart(cfg, w.s.page) + index < |w.s.candidates|
    ensures index < |Shown(cfg, w.s)| <==> Select(lib, cfg, w, index).1.handled && index < cfg.pageSize
  {
    hide PageStart, Select, Shown, Sound;
    SelectKeeps(lib, cfg, w, index);
    ShownItem(cfg, w.s, index);
  }

  lemma QuotientIs(a: nat, b: nat, q: nat, r: nat)
    requires r < b && a == q * b + r
    ensures a / b == q && a % b == r
  {
    var p := a / b;
    assert a == p * b + a % b;
    if p < q {
      ProductGrows(p, q, b);
    } else if q < p {
      ProductGrows(q, p, b);
    }
  }

  lemma LastPageIs(cfg: Config, n: nat)
    requires n > 0 && cfg.pageSize > 0
    ensures PageTotal(cfg, n) - 1 == (n - 1) / cfg.pageSize
  {
    var size := cfg.pageSize;
    var q, r := (n - 1) / size, (n - 1) % size;
    assert n - 1 + size == (q + 1) * size + r;
    QuotientIs(n - 1 + size, size, q + 1, r);
  }

  lemma DivMonotone(a: nat, c: nat, b: nat)
    requires b > 0 && a <= c
    ensures a / b <= c / b
  {
    assert a == (a / b) * b + a % b;
    assert c == (c / b) * b + c % b;
    if a / b > c / b {
      ProductGrows(c / b, a / b, b);
    }
  }

  lemma OnePage(cfg: Config, g: nat, page: nat, i: nat)
    requires i < cfg.pageSize
    ensures PageStart(cfg, page) + i == g <==> page == g / cfg.pageSize && i == g % cfg.pageSize
  {
    if PageStart(cfg, page) + i == g {
      QuotientIs(g, cfg.pageSize, page, i);
    }
  }

  // Every candidate is on exactly one page, and paging by the difference shows that page:
  // the whole list can be seen, and no candidate is shown on two pages.
  lemma EveryCandidateCanBeShown(cfg: Config, w: World, g: nat, page: nat, k: nat)
    requires w.s.composing && k < cfg.pageSize && g < |w.s.candidates|
    ensures var target, i := g / cfg.pageSize, g % cfg.pageSize; var (w1, r) := Page(cfg, w, target - w.s.page);
            && r.handled && w1 == World(w.s.(page := target, armed := false), w.e)
            && i < |r.candidates| && r.candidates[i] == w.s.candidates[g].text
            && (PageStart(cfg, page) + k == g <==> page == target && k == i)
  {
    hide PageStart, PageTotal, Shown;
    LastPageIs(cfg, |w.s.candidates|);
    DivMonotone(g, |w.s.candidates| - 1, cfg.pageSize);
    var target, i := g / cfg.pageSize, g % cfg.pageSize;
    OnePage(cfg, g, target, i);
    OnePage(cfg, g, page, k);
    ShownItem(cfg, w.s.(page := target, armed := false), i);
  }

  // For an atomic source, committing is selecting the first item of the first page.
  lemma CommitSelectsFirst(lib: Engine.Lib, cfg: Config, w: World)
    requires Engine.Lawful(lib) && Engine.Ok(lib, w.e) && w.s.composing && !w.s.usesEngine
    ensures if w.s.candidates == [] then Commit(lib, cfg, w) == Commits(cfg, w, w.s.raw)
            else Commit(lib, cfg, w) == Select(lib, cfg, World(w.s.(page := 0), w.e), 0)
  {
    hide View;
    PageZero(cfg);
  }

  // What the engine has to commit: its sentence, or the input for want of one.
  function Offer(lib: Engine.Lib, w: World): string {
    if EngineText(lib, w) == "" then w.s.raw else EngineText(lib, w)
  }

  // What a commit gives; after a partial choice it is the preedit shown.
  lemma CommitGives(lib: Engine.Lib, cfg: Config, w: World)
    requires w.s.composing && w.s.candidates != []
    ensures var r := Commit(lib, cfg, w).1;
            && r.hasCommit
            && r.commit == (if w.s.usesEngine then Offer(lib, w) else EffectiveCommitText(w.s.candidates[0]))
            && (w.s.usesEngine && w.s.partial != "" ==> r.commit == View(cfg, w.s, true, false, "").preedit)
  {
    hide Shown, PageTotal;
  }

  // The engine's sentence is among what the stroke digits of the input let through.
  predicate SentencePasses(lib: Engine.Lib, cfg: Config, w: World) {
    var strokes := StrokeSuffix(w.s.raw);
    !cfg.strokesEnabled || strokes == "" || Passes(cfg.strokeTable, strokes, Plain(Engine.Sentence(lib, w.e)))
  }

  // With a library that puts its sentence first, committing gives the text of the first
  // candidate if and only if the source is atomic, something is chosen already, or the
  // stroke digits let the sentence through.
  lemma CommitTakesFirst(lib: Engine.Lib, cfg: Config, w: World)
    requires Reachable(lib, cfg, w) && Engine.SentenceFirst(lib)
    requires w.s.composing && w.s.candidates != []
    ensures var r := Commit(lib, cfg, w).1;
            && r.hasCommit
            && (r.commit == EffectiveCommitText(w.s.candidates[0])
                <==> !w.s.usesEngine || w.s.partial != "" || SentencePasses(lib, cfg, w))
  {
    hide View, Mirrors, Sound, Commit;
    CommitGives(lib, cfg, w);
    if w.s.usesEngine {
      DisplayedIsEngines(lib, cfg, w, 0);
      SentenceLeads(lib, cfg, w);
    }
  }

  lemma SentenceLeads(lib: Engine.Lib, cfg: Config, w: World)
    requires Reachable(lib, cfg, w) && Engine.SentenceFirst(lib)
    requires w.s.composing && w.s.usesEngine && w.s.candidates != []
    ensures Offer(lib, w) == Engine.Sentence(lib, w.e)
    ensures w.s.candidates[0].text == Engine.Sentence(lib, w.e) <==> w.s.partial != "" || SentencePasses(lib, cfg, w)
  {
    hide Sound, Passes, Engine.Parsed;
    DisplayedIsEngines(lib, cfg, w, 0);
    EngineListIsPlain(lib, w.e);
    var first, strokes := w.e.candidates[0], StrokeSuffix(w.s.raw);
    assert first.text == Engine.Sentence(lib, w.e) != "";
    if w.s.partial == "" && cfg.strokesEnabled && strokes != "" {
      FilterKeeps(w.e.candidates, strokes, cfg.strokeTable, 0);
      var kept := Kept(w.e.candidates, strokes, cfg.strokeTable, 0);
      assert w.s.candidates[0] == w.e.candidates[kept[0]].(engineIndex := kept[0]);
      assert kept[0] in kept;
      PassesByText(cfg.strokeTable, strokes, first, Plain(first.text));
      PassesByText(cfg.strokeTable, strokes, w.e.candidates[kept[0]], Plain(w.s.candidates[0].text));
      if Passes(cfg.strokeTable, strokes, first) {
        assert 0 in kept;
        assert kept[0] == 0;
      }
    }
  }

  // ---- Backspace undoes a keystroke ----------------------------------------------------

  // A composition as its input alone determines it: nothing chosen in it.
  predicate OnlyTyped(s: Sess) {
    s.composing && s.partial == ""
  }

  // Back on the first page with nothing armed.
  function FirstPage(s: Sess): Sess {
    s.(page := 0, armed := false)
  }

  // The engine answers as before: it may have parsed other texts, but learnt nothing.
  predicate AnswersAlike(e: Engine.State, e1: Engine.State) {
    e1.ready == e.ready && e1.inst.dict == e.inst.dict && (!e.ready ==> e1 == e)
  }

  // A selection that takes effect leaves a sentence to show or ends the composition.
  lemma {:induction false} SelectLeavesTrace(lib: Engine.Lib, cfg: Config, w: World, index: int)
    requires Engine.Lawful(lib) && Engine.Ok(lib, w.e) && Sound(cfg, w.s) && Mirrors(lib, cfg, w)
    requires w.s.composing && 0 <= index && PageStart(cfg, w.s.page) + index < |w.s.candidates|
    ensures var s1 := Select(lib, cfg, w, index).0.s; s1.composing ==> s1.partial != ""
    decreases Misses(cfg, w, index), Engine.Left(w.e)
  {
    hide View, Sound, Mirrors, PageStart, Engine.Chosen, Train;
    var g := PageStart(cfg, w.s.page) + index;
    if w.s.usesEngine {
      var k := EngineIndex(w.s.candidates, g);
      Engine.ChooseAdvances(lib, w.e, k);
      AdvancedMirrors(lib, cfg, w, g);
      var (e1, done, sentence) := Engine.Chosen(lib, w.e, k);
      if !done {
        AdvancedIs(lib, cfg, w, e1, sentence);
        var w1 := World(Advanced(w.s, e1, sentence), e1);
        if |w1.s.candidates| == 1 {
          SelectLeavesTrace(lib, cfg, w1, 0);
        }
      }
    }
  }

  // Typing that goes on composing with nothing chosen did not select anything.
  lemma TypesOnly(lib: Engine.Lib, cfg: Config, w: World)
    requires Engine.Lawful(lib) && Engine.Ok(lib, w.e) && w.s.composing && Fits(w.s.raw, w.s.scheme)
    requires OnlyTyped(Recompute(lib, cfg, w).0.s)
    ensures InCharge(cfg, w.s.raw, w.s.scheme).Some?
    ensures Recompute(lib, cfg, w).0 == Recomputed(lib, cfg, w, InCharge(cfg, w.s.raw, w.s.scheme).value)
  {
    hide View, Sound, Mirrors, PageStart, Recomputed, Select, InCharge;
    FittingSource(cfg, w.s.raw, w.s.scheme);
    var src := InCharge(cfg, w.s.raw, w.s.scheme).value;
    var w1 := Recomputed(lib, cfg, w, src);
    ProducedIsOk(lib, cfg, w, src);
    RecomputedMirrors(lib, cfg, w, src);
    RecomputedStarts(lib, cfg, w, src);
    RecomputedIsSound(lib, cfg, w, src);
    if w.s.scheme != Wubi && |w1.s.candidates| == 1 {
      SelectLeavesTrace(lib, cfg, w1, 0);
    }
  }

  lemma ParsedSame(lib: Engine.Lib, e: Engine.State, e1: Engine.State, raw: string)
    requires AnswersAlike(e, e1)
    ensures Engine.Parsed(lib, e1, raw) == Engine.Parsed(lib, e, raw)
  {
  }

  // What a source would produce for raw now, if the engine only parsed other texts since.
  lemma ProducedAgain(lib: Engine.Lib, cfg: Config, w: World, e1: Engine.State, src: Source)
    requires Mirrors(lib, cfg, w) && OnlyTyped(w.s) && Sound(cfg, w.s)
    requires InCharge(cfg, w.s.raw, w.s.scheme) == Some(src) && AnswersAlike(w.e, e1)
    ensures Produced(lib, cfg, src, w.s.raw, e1).1 == w.s.candidates
    ensures w.s.usesEngine ==> Produced(lib, cfg, src, w.s.raw, e1).0 == w.e
  {
    if src == Pinyin {
      ParsedSame(lib, w.e, e1, PinyinPart(w.s.raw));
    } else {
      ProducedIgnoresEngine(lib, cfg, src, w.s.raw, w.e);
    }
  }

  lemma RecomputedEngine(lib: Engine.Lib, cfg: Config, w: World, src: Source)
    ensures AnswersAlike(w.e, Recomputed(lib, cfg, w, src).e)
  {
  }

  // The state Backspace is to bring back: every field but page and arming, the view, and
  // the engine wherever it is in use.
  ghost predicate Restores(cfg: Config, w: World, out: (World, Result)) {
    && out.0.s == FirstPage(w.s) && out.1 == View(cfg, FirstPage(w.s), true, false, "")
    && (w.s.usesEngine ==> out.0.e == w.e)
  }

  // Producing candidates afresh for the same input restores a composition.
  lemma RecomputeRestores(lib: Engine.Lib, cfg: Config, w: World, w2: World)
    requires Reachable(lib, cfg, w) && OnlyTyped(w.s) && Engine.Ok(lib, w2.e) && AnswersAlike(w.e, w2.e)
    requires w2.s.composing && w2.s.raw == w.s.raw && w2.s.scheme == w.s.scheme && w2.s.fieldHint == w.s.fieldHint
    ensures Restores(cfg, w, Recompute(lib, cfg, w2))
  {
    hide View, Produced, Select, InCharge, Mirrors, Engine.Ok;
    FittingSource(cfg, w.s.raw, w.s.scheme);
    FitsLess(w.s, cfg);
    var src := InCharge(cfg, w.s.raw, w.s.scheme).value;
    ProducedAgain(lib, cfg, w, w2.e, src);
    assert Recomputed(lib, cfg, w2, src).s == FirstPage(w.s);
  }

  // What Backspace leaves of an input, if it goes on composing.
  lemma BackspaceLeaves(lib: Engine.Lib, cfg: Config, w: World)
    requires Engine.Lawful(lib) && Engine.Ok(lib, w.e) && Inv(cfg, w.s)
    ensures var s2 := ProcessKey(lib, cfg, w, VK_BACK, 0, false).0.s;
            s2.composing ==> w.s.composing && s2.raw == if w.s.partial != "" then w.s.raw else w.s.raw[..|w.s.raw| - 1]
  {
    hide View, Recompute, Engine.Ok;
    if w.s.composing {
      RecomputeKeepsRaw(lib, cfg, w);
      RecomputeKeepsRaw(lib, cfg, World(w.s.(raw := w.s.raw[..|w.s.raw| - 1]), w.e));
    }
  }

  // A character appended to a composition in which nothing is chosen is undone by Backspace
  // if and only if it left the session composing with nothing chosen.
  lemma BackspaceUndoes(lib: Engine.Lib, cfg: Config, w: World, c: char)
    requires Reachable(lib, cfg, w) && OnlyTyped(w.s) && Fits(w.s.raw + [c], w.s.scheme)
    ensures Engine.Ok(lib, Append(lib, cfg, w, c).0.e)
    ensures var w1 := Append(lib, cfg, w, c).0; var out := ProcessKey(lib, cfg, w1, VK_BACK, 0, false);
            && (out.0.s == FirstPage(w.s) <==> OnlyTyped(w1.s))
            && (OnlyTyped(w1.s) ==> Restores(cfg, w, out))
  {
    hide View, Mirrors, Append, ProcessKey, Keeps, Sound;
    AppendKeeps(lib, cfg, w, c);
    var out := Append(lib, cfg, w, c);
    KeptInv(lib, cfg, w, out);
    BackspaceLeaves(lib, cfg, out.0);
    AppendKeepsRaw(lib, cfg, w, c);
    if OnlyTyped(out.0.s) {
      UndoTyped(lib, cfg, w, c);
    }
  }

  lemma KeptInv(lib: Engine.Lib, cfg: Config, w: World, out: (World, Result))
    requires Keeps(lib, cfg, w, out) && Inv(cfg, w.s)
    ensures Inv(cfg, out.0.s) && Engine.Ok(lib, out.0.e) && SameSetting(w, out.0)
  {
    hide View, Engine.Ok;
  }

  lemma AppendKeepsRaw(lib: Engine.Lib, cfg: Config, w: World, c: char)
    requires Engine.Lawful(lib) && Engine.Ok(lib, w.e)
    ensures var s1 := Append(lib, cfg, w, c).0.s; s1.composing ==> s1.raw == w.s.raw + [c]
  {
    hide Recompute;
    RecomputeKeepsRaw(lib, cfg, World(w.s.(raw := w.s.raw + [c]), w.e));
  }

  lemma UndoTyped(lib: Engine.Lib, cfg: Config, w: World, c: char)
    requires Reachable(lib, cfg, w) && OnlyTyped(w.s) && Fits(w.s.raw + [c], w.s.scheme)
    requires OnlyTyped(Append(lib, cfg, w, c).0.s) && Engine.Ok(lib, Append(lib, cfg, w, c).0.e)
    ensures Restores(cfg, w, ProcessKey(lib, cfg, Append(lib, cfg, w, c).0, VK_BACK, 0, false))
  {
    hide View, Produced, Select, InCharge, Mirrors, Engine.Ok, Recompute;
    var w0 := World(w.s.(raw := w.s.raw + [c]), w.e);
    FittingSource(cfg, w0.s.raw, w0.s.scheme);
    TypesOnly(lib, cfg, w0);
    var src := InCharge(cfg, w0.s.raw, w0.s.scheme).value;
    RecomputedEngine(lib, cfg, w0, src);
    var w1 := Recomputed(lib, cfg, w0, src);
    assert w1.s.raw[..|w1.s.raw| - 1] == w.s.raw;
    RecomputeRestores(lib, cfg, w, World(w1.s.(raw := w.s.raw), w1.e));
  }

  // Operations other than typing leave the input alone, shorten it or end it, and teach
  // the engine nothing unless they end it.
  predicate GoesOn(w: World, w1: World) {
    w1.s.composing ==> w1.s.raw == w.s.raw && AnswersAlike(w.e, w1.e)
  }

  lemma {:induction false} SelectKeepsRaw(lib: Engine.Lib, cfg: Config, w: World, index: int)
    requires Engine.Lawful(lib) && Engine.Ok(lib, w.e)
    ensures GoesOn(w, Select(lib, cfg, w, index).0)
    decreases Misses(cfg, w, index), Engine.Left(w.e)
  {
    hide View, PageStart, Engine.Chosen, Train;
    var g := PageStart(cfg, w.s.page) + index;
    if w.s.composing && 0 <= index && g < |w.s.candidates| && w.s.usesEngine {
      var k := EngineIndex(w.s.candidates, g);
      Engine.ChooseAdvances(lib, w.e, k);
      var (e1, done, sentence) := Engine.Chosen(lib, w.e, k);
      var w1 := World(Advanced(w.s, e1, sentence), e1);
      if !done && |w1.s.candidates| == 1 {
        PageZero(cfg);
        assert Engine.Ok(lib, e1) && |e1.handles| == 1;
        SelectKeepsRaw(lib, cfg, w1, 0);
      }
    }
  }

  lemma RecomputeKeepsRaw(lib: Engine.Lib, cfg: Config, w: World)
    requires Engine.Lawful(lib) && Engine.Ok(lib, w.e)
    ensures GoesOn(w, Recompute(lib, cfg, w).0)
  {
    hide View, Select, InCharge, Produced;
    var src := InCharge(cfg, w.s.raw, w.s.scheme);
    if src.Some? {
      ProducedIsOk(lib, cfg, w, src.value);
      RecomputedEngine(lib, cfg, w, src.value);
      SelectKeepsRaw(lib, cfg, Recomputed(lib, cfg, w, src.value), 0);
    }
  }

  lemma PageKeepsRaw(cfg: Config, w: World, delta: int)
    ensures GoesOn(w, Page(cfg, w, delta).0)
  {
  }

  // What the operations behind the keys do to the input.
  lemma KeysGoOn(lib: Engine.Lib, cfg: Config, w: World, k: char)
    requires Engine.Lawful(lib) && Engine.Ok(lib, w.e) && Inv(cfg, w.s) && w.s.composing
    ensures GoesOn(w, Select(lib, cfg, w, IndexOf(cfg.selectKeys, k)).0) && GoesOn(w, Space(lib, cfg, w).0)
    ensures GoesOn(w, Page(cfg, w, -1).0) && GoesOn(w, Page(cfg, w, 1).0)
    ensures var w1 := Backspace(lib, cfg, w).0; w1.s.composing && |w1.s.raw| >= |w.s.raw| ==> GoesOn(w, w1)
    ensures |Backspace(lib, cfg, w).0.s.raw| <= |w.s.raw|
  {
    hide View, Select, Recompute, Page, Engine.Ok;
    SelectKeepsRaw(lib, cfg, w, IndexOf(cfg.selectKeys, k));
    SelectKeepsRaw(lib, cfg, w, 0);
    SelectKeepsRaw(lib, cfg, World(w.s.(armed := false), w.e), 0);
    RecomputeKeepsRaw(lib, cfg, w);
    RecomputeKeepsRaw(lib, cfg, World(w.s.(raw := w.s.raw[..|w.s.raw| - 1]), w.e));
    BackspaceKeeps(lib, cfg, w);
    PageKeepsRaw(cfg, w, -1);
    PageKeepsRaw(cfg, w, 1);
  }

  // A key that makes the input longer is one that types a character; one that leaves its
  // length leaves the input itself.
  lemma LongerMeansTyped(lib: Engine.Lib, cfg: Config, w: World, vk: int, ch: nat, ctrl: bool) returns (c: char)
    requires Engine.Lawful(lib) && Engine.Ok(lib, w.e) && Inv(cfg, w.s) && w.s.composing
    ensures var w1 := ProcessKey(lib, cfg, w, vk, ch, ctrl).0;
            w1.s.composing ==>
              && (|w1.s.raw| > |w.s.raw| ==>
                    Fits(w.s.raw + [c], w.s.scheme) && ProcessKey(lib, cfg, w, vk, ch, ctrl) == Append(lib, cfg, w, c))
              && (|w1.s.raw| == |w.s.raw| ==> GoesOn(w, w1))
  {
    hide View, Select, Append, Page, Backspace, Space, Engine.Ok;
    var k := ToChar(ch);
    KeysGoOn(lib, cfg, w, k);
    var typed := w.s.scheme == SmartAbc && DigitSmart(lib, cfg, w, ch).Some?;
    c := if typed || !IsAsciiLetter(ch) then k else ToLowerAscii(ch);
    AppendKeepsRaw(lib, cfg, w, c);
    if w.s.scheme == SmartAbc || (IsAsciiLetter(ch) && (w.s.scheme == Wubi ==> |w.s.raw| < 4)) {
      FitsMore(w.s, c, cfg);
    }
  }

  // A key after which Backspace brings back what was there: one that typed a character and
  // chose nothing, or one that chose something and left the input as it was.
  predicate Undoable(s: Sess, s1: Sess) {
    s1.composing && if s1.partial == "" then |s1.raw| > |s.raw| else s1.raw == s.raw
  }

  // Any key pressed in a composition in which nothing is chosen, and then Backspace.
  lemma BackspaceUndoesKey(lib: Engine.Lib, cfg: Config, w: World, vk: int, ch: nat, ctrl: bool)
    requires Reachable(lib, cfg, w) && OnlyTyped(w.s)
    ensures Engine.Ok(lib, ProcessKey(lib, cfg, w, vk, ch, ctrl).0.e)
    ensures var w1 := ProcessKey(lib, cfg, w, vk, ch, ctrl).0; var out := ProcessKey(lib, cfg, w1, VK_BACK, 0, false);
            && (out.0.s == FirstPage(w.s) <==> Undoable(w.s, w1.s))
            && (Undoable(w.s, w1.s) ==> Restores(cfg, w, out))
  {
    hide View, Append, Engine.Ok, Mirrors, ProcessKey, Keeps, Sound;
    var out := ProcessKey(lib, cfg, w, vk, ch, ctrl);
    var w1 := out.0;
    ProcessKeyKeeps(lib, cfg, w, vk, ch, ctrl);
    KeptInv(lib, cfg, w, out);
    BackspaceLeaves(lib, cfg, w1);
    if w1.s.composing {
      InvIs(cfg, w1.s);
      FitsLess(w1.s, cfg);
    }
    var c := LongerMeansTyped(lib, cfg, w, vk, ch, ctrl);
    if w1.s.composing && |w1.s.raw| > |w.s.raw| {
      BackspaceUndoes(lib, cfg, w, c);
    } else if Undoable(w.s, w1.s) {
      BackspaceRecomputes(lib, cfg, w1);
      RecomputeRestores(lib, cfg, w, w1);
    }
  }

  lemma BackspaceRecomputes(lib: Engine.Lib, cfg: Config, w: World)
    requires Engine.Lawful(lib) && Engine.Ok(lib, w.e) && w.s.composing && w.s.partial != ""
    ensures ProcessKey(lib, cfg, w, VK_BACK, 0, false) == Recompute(lib, cfg, w)
  {
  }

  // The keys after which Backspace has a choice to take back: it does so if and only if
  // the input, read afresh, does not offer exactly one candidate. With exactly one that
  // one is chosen again by itself; then a second Backspace does what the first did.
  lemma BackspaceTakesBack(lib: Engine.Lib, cfg: Config, w: World)
    requires Engine.Lawful(lib) && Engine.Ok(lib, w.e) && Inv(cfg, w.s) && w.s.composing && w.s.partial != ""
    ensures var out := ProcessKey(lib, cfg, w, VK_BACK, 0, false);
            && Engine.Ok(lib, out.0.e)
            && (OnlyTyped(out.0.s) <==> |Produced(lib, cfg, Pinyin, w.s.raw, w.e).1| != 1)
            && (out.0.s.composing && !OnlyTyped(out.0.s) ==> ProcessKey(lib, cfg, out.0, VK_BACK, 0, false) == out)
  {
    hide View, Produced, Select, Mirrors, Sound, ProcessKey, Keeps, InCharge;
    InvIs(cfg, w.s);
    BackspaceRecomputes(lib, cfg, w);
    FitsLess(w.s, cfg);
    RecomputeKeeps(lib, cfg, w);
    var out := Recompute(lib, cfg, w);
    KeptInv(lib, cfg, w, out);
    PinyinInCharge(cfg, w.s);
    var w1 := Recomputed(lib, cfg, w, Pinyin);
    ProducedIsOk(lib, cfg, w, Pinyin);
    RecomputedMirrors(lib, cfg, w, Pinyin);
    RecomputedStarts(lib, cfg, w, Pinyin);
    RecomputedIsSound(lib, cfg, w, Pinyin);
    if |w1.s.candidates| == 1 {
      SelectLeavesTrace(lib, cfg, w1, 0);
      RecomputeKeepsRaw(lib, cfg, w);
      if out.0.s.composing {
        BackspaceRecomputes(lib, cfg, out.0);
        RecomputesAlike(lib, cfg, w, out.0);
      }
    }
  }

  lemma PinyinInCharge(cfg: Config, s: Sess)
    requires Sound(cfg, s) && s.composing && s.partial != ""
    ensures InCharge(cfg, s.raw, s.scheme) == Some(Pinyin) && s.scheme != Wubi
  {
  }

  // What the candidates are produced from decides all that follows.
  lemma RecomputesAlike(lib: Engine.Lib, cfg: Config, w: World, w1: World)
    requires Engine.Lawful(lib) && Engine.Ok(lib, w.e) && Engine.Ok(lib, w1.e) && AnswersAlike(w.e, w1.e)
    requires InCharge(cfg, w.s.raw, w.s.scheme) == Some(Pinyin)
    requires w.s.composing && w1.s.composing && w1.s.raw == w.s.raw
    requires w1.s.scheme == w.s.scheme && w1.s.fieldHint == w.s.fieldHint
    ensures Recompute(lib, cfg, w1) == Recompute(lib, cfg, w)
  {
    hide View, InCharge, Select, Engine.Parsed;
    ParsedSame(lib, w.e, w1.e, PinyinPart(w.s.raw));
    assert Recomputed(lib, cfg, w1, Pinyin) == Recomputed(lib, cfg, w, Pinyin);
  }

  // A choice from the list, however many follow by themselves, and then Backspace.
  lemma BackspaceUndoesChoice(lib: Engine.Lib, cfg: Config, w: World, index: int)
    requires Reachable(lib, cfg, w) && OnlyTyped(w.s)
    requires 0 <= index && PageStart(cfg, w.s.page) + index < |w.s.candidates|
    ensures Engine.Ok(lib, Select(lib, cfg, w, index).0.e)
    ensures var w1 := Select(lib, cfg, w, index).0; var out := ProcessKey(lib, cfg, w1, VK_BACK, 0, false);
            && (out.0.s == FirstPage(w.s) <==> w1.s.composing)
            && (w1.s.composing ==> Restores(cfg, w, out))
  {
    hide View, Engine.Ok, Mirrors, ProcessKey, Keeps, Sound, Select, PageStart;
    var out := Select(lib, cfg, w, index);
    InvIs(cfg, w.s);
    SelectKeeps(lib, cfg, w, index);
    KeptInv(lib, cfg, w, out);
    BackspaceLeaves(lib, cfg, out.0);
    SelectKeepsRaw(lib, cfg, w, index);
    if out.0.s.composing {
      SelectLeavesTrace(lib, cfg, w, index);
      BackspaceRecomputes(lib, cfg, out.0);
      RecomputeRestores(lib, cfg, w, out.0);
    }
  }
}
