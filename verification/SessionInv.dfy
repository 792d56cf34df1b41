// What every operation of a session keeps, whatever other sessions did to the shared
// engine in between.
module SessionInv {
  import opened Decimal
  import opened Candidates
  import opened Sources
  import opened SessionSpec
  import Engine

  predicate IsLower(c: char) {
    'a' <= c <= 'z'
  }

  predicate AllLower(s: string) {
    forall i :: 0 <= i < |s| ==> IsLower(s[i])
  }

  // The part of the invariant that also holds half way through an operation.
  predicate Sound(cfg: Config, s: Sess) {
    && (s.composing <==> s.raw != "")
    && (!s.composing ==> s.candidates == [] && s.page == 0 && !s.armed && s.partial == "")
    && (if s.candidates == [] then s.page == 0 else PageStart(cfg, s.page) < |s.candidates|)
    && (s.armed ==> s.scheme == SmartAbc && |s.candidates| >= 2)
    && (s.partial != "" ==> s.usesEngine)
    && (s.raw != "" ==> IsLower(s.raw[0]))
    && (s.scheme != SmartAbc ==> AllLower(s.raw))
    && (s.scheme == Wubi ==> |s.raw| <= 4)
    && (s.composing ==> (s.usesEngine <==> InCharge(cfg, s.raw, s.scheme) == Some(Pinyin)))
  }

  // A single candidate never waits to be chosen, except in the Wubi scheme.
  predicate NoLoneCandidate(s: Sess) {
    s.composing && s.scheme != Wubi ==> |s.candidates| != 1
  }

  predicate Inv(cfg: Config, s: Sess) {
    Sound(cfg, s) && NoLoneCandidate(s)
  }

  // What an operation's outcome promises: a state that keeps the invariant, a report that
  // is the view of that state, no commit while composing, and nothing changed unless the
  // key was handled.
  ghost predicate Keeps(lib: Engine.Lib, cfg: Config, w: World, out: (World, Result)) {
    && Sound(cfg, out.0.s) && Engine.Ok(lib, out.0.e)
    && out.1 == View(cfg, out.0.s, out.1.handled, out.1.hasCommit, out.1.commit)
    && (out.1.handled ==> NoLoneCandidate(out.0.s))
    && (!out.1.handled ==> out.0 == w && !out.1.hasCommit)
    && (out.1.hasCommit ==> !out.0.s.composing)
    && (!out.0.s.composing && (w.s.composing || out.1.hasCommit) ==> AtRest(out.0.e))
    && (!out.1.hasCommit ==> out.1.commit == "")
    && SameSetting(w, out.0)
  }

  // An engine that has forgotten its input, but not what it was taught.
  predicate AtRest(e: Engine.State) {
    e.ready ==> e == Engine.State(true, Engine.Instance(e.inst.dict, "", []), 0, 0, [], [])
  }

  // The engine may be reset without harm: teaching it in between is allowed.
  ghost predicate Resettable(lib: Engine.Lib, e: Engine.State) {
    !e.ready ==> Engine.Ok(lib, e)
  }

  // A partial sentence comes from an engine that answers.
  predicate FromEngine(w: World) {
    w.s.partial != "" ==> w.e.ready
  }

  predicate SameSetting(w: World, w1: World) {
    && w1.s.scheme == w.s.scheme && w1.s.fieldHint == w.s.fieldHint && w1.e.ready == w.e.ready
    && (FromEngine(w) ==> FromEngine(w1)) && (!w.e.ready ==> w1.e == w.e)
  }

  lemma ViewReports(cfg: Config, s: Sess, handled: bool, hasCommit: bool, commit: string)
    ensures var r := View(cfg, s, handled, hasCommit, commit);
            r.handled == handled && r.hasCommit == hasCommit && r.commit == commit && r.composing == s.composing
  {
  }

  lemma IdledIsFine(lib: Engine.Lib, cfg: Config, w: World)
    requires Resettable(lib, w.e)
    ensures Inv(cfg, Idled(w).s) && Engine.Ok(lib, Idled(w).e) && SameSetting(w, Idled(w))
    ensures AtRest(Idled(w).e)
  {
  }

  lemma CommitsKeeps(lib: Engine.Lib, cfg: Config, w: World, w1: World, text: string)
    requires Resettable(lib, w1.e) && SameSetting(w, w1)
    ensures Keeps(lib, cfg, w, Commits(cfg, w1, text)) && Commits(cfg, w1, text).1.handled
  {
    hide View;
    IdledIsFine(lib, cfg, w1);
    ViewReports(cfg, Idled(w1).s, true, true, text);
  }

  lemma ShowsKeeps(lib: Engine.Lib, cfg: Config, w: World, w1: World)
    requires Inv(cfg, w1.s) && Engine.Ok(lib, w1.e) && SameSetting(w, w1)
    requires w.s.composing ==> w1.s.composing || AtRest(w1.e)
    ensures Keeps(lib, cfg, w, Shows(cfg, w1)) && Shows(cfg, w1).1.handled
  {
    hide View, Inv;
    ViewReports(cfg, w1.s, true, false, "");
    assert Sound(cfg, w1.s) && NoLoneCandidate(w1.s) by {
      InvIs(cfg, w1.s);
    }
  }

  lemma InvIs(cfg: Config, s: Sess)
    ensures Inv(cfg, s) <==> Sound(cfg, s) && NoLoneCandidate(s)
  {
  }

  lemma IgnoredKeeps(lib: Engine.Lib, cfg: Config, w: World)
    requires Sound(cfg, w.s) && Engine.Ok(lib, w.e)
    ensures Keeps(lib, cfg, w, Ignored(cfg, w)) && !Ignored(cfg, w).1.handled
  {
    hide View;
    ViewReports(cfg, w.s, false, false, "");
  }

  // An operation that first moves to w1 and then does out.
  lemma KeepsAfter(lib: Engine.Lib, cfg: Config, w: World, w1: World, out: (World, Result))
    requires Keeps(lib, cfg, w1, out) && out.1.handled && SameSetting(w, w1) && (w.s.composing ==> w1.s.composing)
    ensures Keeps(lib, cfg, w, out)
  {
    hide View, Sound, NoLoneCandidate;
  }

  lemma TrainIsResettable(lib: Engine.Lib, cfg: Config, e: Engine.State, text: string)
    requires Resettable(lib, e)
    ensures Resettable(lib, Train(cfg, e, text)) && Train(cfg, e, text).ready == e.ready
    ensures !e.ready ==> Train(cfg, e, text) == e
  {
  }

  lemma AdvancedIsSound(cfg: Config, s: Sess, e1: Engine.State, sentence: string)
    requires Sound(cfg, s) && s.composing && s.usesEngine
    ensures Sound(cfg, Advanced(s, e1, sentence))
  {
    PageZero(cfg);
  }

  // After a choice that leaves something: the session shows the engine's new list.
  lemma AdvancedIs(lib: Engine.Lib, cfg: Config, w: World, e1: Engine.State, sentence: string)
    requires Sound(cfg, w.s) && w.s.composing && w.s.usesEngine && Engine.Ok(lib, e1) && e1.ready == w.e.ready
    requires (sentence != "" ==> e1.ready) && (!w.e.ready ==> e1 == w.e)
    ensures var w1 := World(Advanced(w.s, e1, sentence), e1);
            && Sound(cfg, w1.s) && SameSetting(w, w1) && w1.s.composing && w1.s.candidates == e1.candidates
            && (|e1.candidates| != 1 ==> Inv(cfg, w1.s))
            && (|e1.candidates| == 1 ==> Misses(cfg, w1, 0) == 0)
            && PageStart(cfg, w1.s.page) == 0
  {
    AdvancedIsSound(cfg, w.s, e1, sentence);
    PageZero(cfg);
  }

  lemma {:induction false} SelectKeeps(lib: Engine.Lib, cfg: Config, w: World, index: int)
    requires Engine.Lawful(lib) && Engine.Ok(lib, w.e) && Sound(cfg, w.s)
    ensures Keeps(lib, cfg, w, Select(lib, cfg, w, index))
    ensures var g := PageStart(cfg, w.s.page) + index;
            Select(lib, cfg, w, index).1.handled <==> w.s.composing && 0 <= index && g < |w.s.candidates|
    decreases Misses(cfg, w, index), Engine.Left(w.e)
  {
    hide View, Sound, Keeps, PageStart, Engine.Chosen, Idled, Train;
    var g := PageStart(cfg, w.s.page) + index;
    if w.s.composing && 0 <= index && g < |w.s.candidates| {
      if !w.s.usesEngine {
        CommitsKeeps(lib, cfg, w, w, EffectiveCommitText(w.s.candidates[g]));
      } else {
        var k := EngineIndex(w.s.candidates, g);
        Engine.ChooseAdvances(lib, w.e, k);
        var (e1, done, sentence) := Engine.Chosen(lib, w.e, k);
        if done {
          DoneIsReady(lib, w.e, k);
          TrainIsResettable(lib, cfg, e1, sentence);
          CommitsKeeps(lib, cfg, w, World(w.s, Train(cfg, e1, sentence)), sentence);
        } else {
          AdvancedIs(lib, cfg, w, e1, sentence);
          var w1 := World(Advanced(w.s, e1, sentence), e1);
          if |w1.s.candidates| == 1 {
            SelectKeeps(lib, cfg, w1, 0);
            KeepsAfter(lib, cfg, w, w1, Select(lib, cfg, w1, 0));
          } else {
            ShowsKeeps(lib, cfg, w, w1);
          }
        }
      }
    } else {
      IgnoredKeeps(lib, cfg, w);
    }
  }

  lemma DoneIsReady(lib: Engine.Lib, e: Engine.State, k: nat)
    ensures Engine.Chosen(lib, e, k).1 ==> Engine.Chosen(lib, e, k).0.ready
  {
  }

  // ---- Recomputing ------------------------------------------------------------------

  // Inputs a composition can have: a letter first, letters only outside the SmartAbc
  // scheme, at most four in the Wubi scheme.
  predicate Fits(raw: string, scheme: Scheme) {
    && raw != "" && IsLower(raw[0])
    && (scheme != SmartAbc ==> AllLower(raw))
    && (scheme == Wubi ==> |raw| <= 4)
  }

  predicate IsPunctuation(raw: string) {
    |raw| == 1 && IsMappedPunctuation(raw[0])
  }

  // A composing session always has a source, whatever the scheme.
  lemma SourceAlwaysFound(cfg: Config, raw: string, scheme: Scheme)
    ensures InCharge(cfg, raw, scheme).Some? <==> raw != ""
  {
  }

  lemma FittingSource(cfg: Config, raw: string, scheme: Scheme)
    ensures Fits(raw, scheme) ==>
              var src := InCharge(cfg, raw, scheme);
              src == Some(Number) || src == Some(Pinyin) || src == Some(WubiTable)
    ensures IsPunctuation(raw) ==> InCharge(cfg, raw, scheme) == Some(Punctuation)
  {
  }

  lemma RecomputedIsSound(lib: Engine.Lib, cfg: Config, w: World, src: Source)
    requires w.s.composing && Fits(w.s.raw, w.s.scheme) && InCharge(cfg, w.s.raw, w.s.scheme) == Some(src)
    ensures Sound(cfg, Recomputed(lib, cfg, w, src).s)
  {
    hide Produced;
    PageZero(cfg);
  }

  lemma ProducedIsOk(lib: Engine.Lib, cfg: Config, w: World, src: Source)
    requires Engine.Ok(lib, w.e)
    ensures Engine.Ok(lib, Recomputed(lib, cfg, w, src).e) && SameSetting(w, Recomputed(lib, cfg, w, src))
  {
    Engine.ParsedIsOk(lib, w.e, PinyinPart(w.s.raw));
  }

  lemma RecomputedStarts(lib: Engine.Lib, cfg: Config, w: World, src: Source)
    ensures var s := Recomputed(lib, cfg, w, src).s;
            s.composing == w.s.composing && s.scheme == w.s.scheme && PageStart(cfg, s.page) == 0
  {
    hide Produced;
    PageZero(cfg);
  }

  lemma RecomputeKeeps(lib: Engine.Lib, cfg: Config, w: World)
    requires Engine.Lawful(lib) && Engine.Ok(lib, w.e)
    requires w.s.composing && (Fits(w.s.raw, w.s.scheme) || IsPunctuation(w.s.raw))
    ensures Keeps(lib, cfg, w, Recompute(lib, cfg, w)) && Recompute(lib, cfg, w).1.handled
  {
    hide View, Sound, Keeps, PageStart, Idled, Recomputed, Select, InCharge, Commits, Shows;
    SourceAlwaysFound(cfg, w.s.raw, w.s.scheme);
    FittingSource(cfg, w.s.raw, w.s.scheme);
    var src := InCharge(cfg, w.s.raw, w.s.scheme).value;
    var w1 := Recomputed(lib, cfg, w, src);
    ProducedIsOk(lib, cfg, w, src);
    RecomputedStarts(lib, cfg, w, src);
    if AutoCommits(src) {
      CommitsKeeps(lib, cfg, w, w1, if w1.s.candidates == [] then w.s.raw else EffectiveCommitText(w1.s.candidates[0]));
    } else {
      RecomputedIsSound(lib, cfg, w, src);
      if w.s.scheme != Wubi && |w1.s.candidates| == 1 {
        SelectKeeps(lib, cfg, w1, 0);
        KeepsAfter(lib, cfg, w, w1, Select(lib, cfg, w1, 0));
      } else {
        ShowsKeeps(lib, cfg, w, w1);
      }
    }
  }

  lemma AppendKeeps(lib: Engine.Lib, cfg: Config, w: World, c: char)
    requires Engine.Lawful(lib) && Engine.Ok(lib, w.e)
    requires w.s.composing && Fits(w.s.raw + [c], w.s.scheme)
    ensures Keeps(lib, cfg, w, Append(lib, cfg, w, c)) && Append(lib, cfg, w, c).1.handled
  {
    hide Keeps, Recompute;
    var w1 := World(w.s.(raw := w.s.raw + [c]), w.e);
    RecomputeKeeps(lib, cfg, w1);
    KeepsAfter(lib, cfg, w, w1, Recompute(lib, cfg, w1));
  }

  lemma FitsMore(s: Sess, c: char, cfg: Config)
    requires Sound(cfg, s) && s.composing
    requires if s.scheme == SmartAbc then true else IsLower(c) && (s.scheme == Wubi ==> |s.raw| < 4)
    ensures Fits(s.raw + [c], s.scheme)
  {
  }

  lemma FitsLess(s: Sess, cfg: Config)
    requires Sound(cfg, s) && s.composing
    ensures Fits(s.raw, s.scheme)
    ensures |s.raw| > 1 ==> Fits(s.raw[..|s.raw| - 1], s.scheme)
  {
  }

  // ---- Keys --------------------------------------------------------------------------

  lemma BackspaceKeeps(lib: Engine.Lib, cfg: Config, w: World)
    requires Engine.Lawful(lib) && Engine.Ok(lib, w.e) && Inv(cfg, w.s) && w.s.composing
    ensures Keeps(lib, cfg, w, Backspace(lib, cfg, w)) && Backspace(lib, cfg, w).1.handled
  {
    hide Keeps, Recompute, Idled, Shows;
    FitsLess(w.s, cfg);
    if w.s.partial != "" {
      RecomputeKeeps(lib, cfg, w);
    } else {
      var w1 := World(w.s.(raw := w.s.raw[..|w.s.raw| - 1]), w.e);
      if w1.s.raw == "" {
        IdledIsFine(lib, cfg, w1);
        ShowsKeeps(lib, cfg, w, Idled(w1));
      } else {
        RecomputeKeeps(lib, cfg, w1);
        KeepsAfter(lib, cfg, w, w1, Recompute(lib, cfg, w1));
      }
    }
  }

  lemma SpaceKeeps(lib: Engine.Lib, cfg: Config, w: World)
    requires Engine.Lawful(lib) && Engine.Ok(lib, w.e) && Inv(cfg, w.s) && w.s.composing
    ensures Keeps(lib, cfg, w, Space(lib, cfg, w))
  {
    hide Keeps, Select, Shows;
    SelectKeeps(lib, cfg, w, 0);
    if w.s.scheme == SmartAbc && |w.s.candidates| > 1 {
      if !w.s.armed {
        ShowsKeeps(lib, cfg, w, World(w.s.(armed := true), w.e));
      } else {
        var w1 := World(w.s.(armed := false), w.e);
        SelectKeeps(lib, cfg, w1, 0);
        KeepsAfter(lib, cfg, w, w1, Select(lib, cfg, w1, 0));
      }
    }
  }

  lemma {:induction false} ProductGrows(x: nat, y: nat, b: nat)
    requires x < y
    ensures x * b + b <= y * b
    decreases y
  {
    assert y * b == (y - 1) * b + b;
    if x + 1 < y {
      ProductGrows(x, y - 1, b);
    }
  }

  lemma LastPage(n: nat, size: nat, k: nat)
    requires n > 0
    requires k == 0 || k <= (n + size - 1) / Max1(size) - 1
    ensures k * size < n
  {
    if size > 0 && k > 0 {
      var total := (n + size - 1) / size;
      assert n + size - 1 == total * size + (n + size - 1) % size;
      ProductGrows(k, total, size);
    } else {
      assert k * size == 0;
    }
  }

  lemma PageKeeps(lib: Engine.Lib, cfg: Config, w: World, delta: int)
    requires Engine.Ok(lib, w.e) && Inv(cfg, w.s)
    ensures Keeps(lib, cfg, w, Page(cfg, w, delta))
  {
    hide Keeps, Shows, Ignored;
    if !w.s.composing || w.s.candidates == [] {
      IgnoredKeeps(lib, cfg, w);
    } else {
      var last := PageTotal(cfg, |w.s.candidates|) - 1;
      var page := Clamp(w.s.page + delta, last);
      LastPage(|w.s.candidates|, cfg.pageSize, page);
      ShowsKeeps(lib, cfg, w, World(w.s.(page := page, armed := false), w.e));
    }
  }

  lemma CancelKeeps(lib: Engine.Lib, cfg: Config, w: World)
    requires Engine.Ok(lib, w.e) && Inv(cfg, w.s)
    ensures Keeps(lib, cfg, w, Cancel(cfg, w))
  {
    hide Keeps, Shows, Ignored, Idled;
    if w.s.composing {
      IdledIsFine(lib, cfg, w);
      ShowsKeeps(lib, cfg, w, Idled(w));
    } else {
      IgnoredKeeps(lib, cfg, w);
    }
  }

  lemma CommitKeeps(lib: Engine.Lib, cfg: Config, w: World)
    requires Engine.Ok(lib, w.e) && Inv(cfg, w.s)
    ensures Keeps(lib, cfg, w, Commit(lib, cfg, w))
  {
    hide Keeps, Commits, Ignored, Train;
    if !w.s.composing {
      IgnoredKeeps(lib, cfg, w);
    } else if !w.s.usesEngine {
      CommitsKeeps(lib, cfg, w, w, if w.s.candidates == [] then w.s.raw else EffectiveCommitText(w.s.candidates[0]));
    } else {
      var text := EngineText(lib, w);
      TrainIsResettable(lib, cfg, w.e, text);
      CommitsKeeps(lib, cfg, w, w, w.s.raw);
      CommitsKeeps(lib, cfg, w, World(w.s, Train(cfg, w.e, text)), text);
    }
  }

  lemma DigitSmartKeeps(lib: Engine.Lib, cfg: Config, w: World, ch: nat)
    requires Engine.Lawful(lib) && Engine.Ok(lib, w.e) && Inv(cfg, w.s) && w.s.composing && w.s.scheme == SmartAbc
    ensures DigitSmart(lib, cfg, w, ch).Some? ==> Keeps(lib, cfg, w, DigitSmart(lib, cfg, w, ch).value)
  {
    hide Keeps, Select, Append;
    var c := ToChar(ch);
    FitsMore(w.s, c, cfg);
    AppendKeeps(lib, cfg, w, c);
    if c in cfg.selectKeys {
      SelectKeeps(lib, cfg, w, IndexOf(cfg.selectKeys, c));
    }
  }

  lemma LettersKeeps(lib: Engine.Lib, cfg: Config, w: World, ch: nat)
    requires Engine.Lawful(lib) && Engine.Ok(lib, w.e) && Inv(cfg, w.s) && w.s.composing
    ensures Keeps(lib, cfg, w, Letters(lib, cfg, w, ch))
  {
    hide Keeps, Append, Page, Shows, Ignored;
    IgnoredKeeps(lib, cfg, w);
    ShowsKeeps(lib, cfg, w, w);
    PageKeeps(lib, cfg, w, -1);
    PageKeeps(lib, cfg, w, 1);
    if IsAsciiLetter(ch) && (w.s.scheme == Wubi ==> |w.s.raw| < 4) {
      FitsMore(w.s, ToLowerAscii(ch), cfg);
      AppendKeeps(lib, cfg, w, ToLowerAscii(ch));
    }
  }

  lemma ComposingKeyKeeps(lib: Engine.Lib, cfg: Config, w: World, vk: int, ch: nat, ctrl: bool)
    requires Engine.Lawful(lib) && Engine.Ok(lib, w.e) && Inv(cfg, w.s) && w.s.composing
    ensures Keeps(lib, cfg, w, ComposingKey(lib, cfg, w, vk, ch, ctrl))
  {
    hide Keeps, Backspace, Cancel, Space, DigitSmart, Letters, Select, Ignored;
    var c := ToChar(ch);
    if c in cfg.selectKeys {
      SelectKeeps(lib, cfg, w, IndexOf(cfg.selectKeys, c));
    }
    BackspaceKeeps(lib, cfg, w);
    CancelKeeps(lib, cfg, w);
    SpaceKeeps(lib, cfg, w);
    LettersKeeps(lib, cfg, w, ch);
    IgnoredKeeps(lib, cfg, w);
    if w.s.scheme == SmartAbc {
      DigitSmartKeeps(lib, cfg, w, ch);
    }
  }

  lemma StartKeyKeeps(lib: Engine.Lib, cfg: Config, w: World, ch: nat)
    requires Engine.Lawful(lib) && Engine.Ok(lib, w.e) && Inv(cfg, w.s) && !w.s.composing
    ensures Keeps(lib, cfg, w, StartKey(lib, cfg, w, ch))
  {
    hide Keeps, Recompute, Ignored;
    IgnoredKeeps(lib, cfg, w);
    if ch > 0 && (IsAsciiLetter(ch) || IsMappedPunctuation(ToChar(ch))) {
      var raw := [if IsAsciiLetter(ch) then ToLowerAscii(ch) else ToChar(ch)];
      var w1 := World(w.s.(composing := true, raw := raw), w.e);
      RecomputeKeeps(lib, cfg, w1);
      KeepsAfter(lib, cfg, w, w1, Recompute(lib, cfg, w1));
    }
  }

  lemma ProcessKeyKeeps(lib: Engine.Lib, cfg: Config, w: World, vk: int, ch: nat, ctrl: bool)
    requires Engine.Lawful(lib) && Engine.Ok(lib, w.e) && Inv(cfg, w.s)
    ensures Keeps(lib, cfg, w, ProcessKey(lib, cfg, w, vk, ch, ctrl))
  {
    hide Keeps, ComposingKey, StartKey;
    if w.s.composing {
      ComposingKeyKeeps(lib, cfg, w, vk, ch, ctrl);
    } else {
      StartKeyKeeps(lib, cfg, w, ch);
    }
  }

  lemma SetSchemeKeeps(lib: Engine.Lib, cfg: Config, w: World, scheme: Scheme)
    requires Engine.Ok(lib, w.e) && Inv(cfg, w.s)
    ensures var w1 := SetScheme(w, scheme);
            && Inv(cfg, w1.s) && Engine.Ok(lib, w1.e) && w1.s.scheme == scheme && w1.e.ready == w.e.ready
            && (FromEngine(w) ==> FromEngine(w1)) && (w.s.composing && !w1.s.composing ==> AtRest(w1.e))
            && w1.s.fieldHint == w.s.fieldHint && (w.s.scheme == scheme ==> w1 == w)
            && (w.s.scheme != scheme ==> !w1.s.composing) && (!w.s.composing ==> w1.e == w.e)
  {
  }

  // Unhandled means unchanged, whatever the operation; and a handled one keeps the
  // invariant of the session and of the engine.
  lemma StepKeepsInv(lib: Engine.Lib, cfg: Config, w: World, ev: Event)
    requires Engine.Lawful(lib) && Engine.Ok(lib, w.e) && Inv(cfg, w.s)
    ensures var (w1, r) := Step(lib, cfg, w, ev);
            && Inv(cfg, w1.s) && Engine.Ok(lib, w1.e) && w1.e.ready == w.e.ready && (FromEngine(w) ==> FromEngine(w1))
            && (w.s.composing && !w1.s.composing ==> AtRest(w1.e))
            && (r.Some? ==>
                  && r.value == View(cfg, w1.s, r.value.handled, r.value.hasCommit, r.value.commit)
                  && (!r.value.handled ==> w1 == w && !r.value.hasCommit)
                  && (r.value.hasCommit ==> !w1.s.composing))
  {
    hide View, ProcessKey, Select, Page, Commit, Cancel, Idled, SetScheme;
    match ev
    case Key(vk, ch, ctrl) => ProcessKeyKeeps(lib, cfg, w, vk, ch, ctrl);
    case Selects(index) => SelectKeeps(lib, cfg, w, index);
    case Pages(delta) => PageKeeps(lib, cfg, w, delta);
    case CommitsNow => CommitKeeps(lib, cfg, w);
    case Cancels => CancelKeeps(lib, cfg, w);
    case LosesFocus => IdledIsFine(lib, cfg, w);
    case Hints(hint) =>
    case Switches(scheme) => SetSchemeKeeps(lib, cfg, w, scheme);
  }
}
