// The composing session: src/domains/input-engine/logic/session/session.cpp.
module Session {
  import opened Decimal
  import opened Candidates
  import opened Sources
  import opened SessionSpec
  import SessionInv
  import Engine

  class Session {
    const cfg: Config
    const engine: Engine.LibPinyinEngine

    var scheme: Scheme
    var composing: bool
    var raw: string
    var lastPartialSentence: string
    var candidates: seq<CandidateItem>
    var pageIndex: nat
    var spaceArmed: bool
    var usesEngineChoose: bool
    var fieldHint: string

    constructor (cfg: Config, engine: Engine.LibPinyinEngine, scheme: Scheme)
      ensures this.cfg == cfg && this.engine == engine && View() == Fresh(scheme)
    {
      this.cfg, this.engine, this.scheme := cfg, engine, scheme;
      composing, raw, lastPartialSentence, candidates := false, "", "", [];
      pageIndex, spaceArmed, usesEngineChoose, fieldHint := 0, false, false, "";
    }

    function View(): Sess
      reads this
    {
      Sess(composing, raw, lastPartialSentence, candidates, pageIndex, spaceArmed, usesEngineChoose, fieldHint, scheme)
    }

    function Now(): World
      reads this, engine
    {
      World(View(), engine.View())
    }

    ghost predicate Ready()
      reads engine
    {
      Engine.Lawful(engine.lib) && Engine.Ok(engine.lib, engine.View())
    }

    method BuildViewResult(handled: bool, hasCommit: bool, commit: string) returns (r: Result)
      ensures r == SessionSpec.View(cfg, View(), handled, hasCommit, commit)
    {
      hide PageStart, PageTotal;
      var pageTotal := PageTotal(cfg, |candidates|);
      var start := PageStart(cfg, pageIndex);
      var shown := [];
      var i := start;
      while i < |candidates| && i < start + cfg.pageSize
        invariant start <= i <= start + cfg.pageSize && (i > start ==> i <= |candidates|)
        invariant |shown| == i - start && forall j :: 0 <= j < |shown| ==> shown[j] == candidates[start + j].text
      {
        shown := shown + [candidates[i].text];
        i := i + 1;
      }
      var preedit := if lastPartialSentence == "" then raw else lastPartialSentence;
      assert shown == Shown(cfg, View());
      r := Result(handled, composing, preedit, raw, shown, pageIndex, cfg.pageSize, pageTotal, hasCommit, commit,
                  if spaceArmed then 0 else -1);
    }

    method ResetToIdle()
      modifies this, engine
      ensures Now() == Idled(old(Now()))
    {
      composing, raw, lastPartialSentence, candidates, pageIndex, spaceArmed := false, "", "", [], 0, false;
      engine.Reset();
    }

    // Must come before the reset: the engine learns from the input it still holds.
    method MaybeTrain(text: string)
      modifies engine
      ensures View() == old(View()) && engine.View() == Train(cfg, old(engine.View()), text)
    {
      if !cfg.learning || text == "" {
        return;
      }
      engine.RememberUserInput(text);
      engine.Train();
    }

    method CommitText(text: string) returns (r: Result)
      modifies this, engine
      ensures (Now(), r) == Commits(cfg, old(Now()), text)
    {
      ResetToIdle();
      r := BuildViewResult(true, true, text);
    }

    method SelectCandidate(indexInPage: int) returns (r: Result)
      requires Ready()
      modifies this, engine
      ensures (Now(), r) == Select(engine.lib, cfg, old(Now()), indexInPage)
      decreases Misses(cfg, Now(), indexInPage), Engine.Left(engine.View())
    {
      hide PageStart, SessionSpec.View, Engine.Chosen, Idled, Train;
      if !composing || indexInPage < 0 {
        r := BuildViewResult(false, false, "");
        return;
      }
      var globalIndex := PageStart(cfg, pageIndex) + indexInPage;
      if globalIndex >= |candidates| {
        r := BuildViewResult(false, false, "");
        return;
      }
      if !usesEngineChoose {
        var text := EffectiveCommitText(candidates[globalIndex]);
        r := CommitText(text);
        return;
      }
      var item := candidates[globalIndex];
      var engineIdx: nat := if item.engineIndex >= 0 then item.engineIndex else globalIndex;
      Engine.ChooseAdvances(engine.lib, engine.View(), engineIdx);
      var done, sentence := engine.Choose(engineIdx);
      if done {
        MaybeTrain(sentence);
        r := CommitText(sentence);
        return;
      }
      candidates := engine.candidates;
      usesEngineChoose := true;
      pageIndex := 0;
      spaceArmed := false;
      lastPartialSentence := sentence;
      if |candidates| == 1 {
        PageZero(cfg);
        r := SelectCandidate(0);
        return;
      }
      r := BuildViewResult(true, false, "");
    }

    method Recompute() returns (r: Result)
      requires Ready()
      modifies this, engine
      ensures (Now(), r) == SessionSpec.Recompute(engine.lib, cfg, old(Now()))
    {
      hide PageStart, SessionSpec.View, Select, InCharge, Handles, Produced, Engine.Lawful;
      SessionInv.SourceAlwaysFound(cfg, raw, scheme);
      ghost var before := Now();
      lastPartialSentence := "";
      spaceArmed := false;
      var src := Resolve(cfg, Context(Chinese, raw, composing, fieldHint, scheme));
      if src.None? {
        ResetToIdle();
        r := BuildViewResult(false, false, "");
        return;
      }
      usesEngineChoose := UsesEngine(src.value);
      candidates := Produce(cfg, src.value, raw, engine);
      pageIndex := 0;
      SessionInv.ProducedIsOk(engine.lib, cfg, before, src.value);
      assert Now() == Recomputed(engine.lib, cfg, before, src.value);
      if AutoCommits(src.value) {
        var text := if candidates == [] then raw else EffectiveCommitText(candidates[0]);
        r := CommitText(text);
        return;
      }
      if scheme != Wubi && |candidates| == 1 {
        r := SelectCandidate(0);
        return;
      }
      r := BuildViewResult(true, false, "");
    }

    method RouteDigitKeyPinyin(ch: nat) returns (r: Option<Result>)
      requires Ready()
      modifies this, engine
      ensures match DigitSmart(engine.lib, cfg, old(Now()), ch)
              case Some(out) => r.Some? && (Now(), r.value) == out
              case None => r.None? && Now() == old(Now())
    {
      var inNumberMode := raw != "" && raw[0] == cfg.numberLead;
      var c := ToChar(ch);
      if !spaceArmed && inNumberMode && ch != 0 && NumberBodyChar(c) {
        raw := raw + [c];
        var q := Recompute();
        return Some(q);
      }
      if !spaceArmed && !inNumberMode && cfg.strokesEnabled && ch != 0 && IsStrokeDigit(c) {
        raw := raw + [c];
        var q := Recompute();
        return Some(q);
      }
      if spaceArmed && ch != 0 && c in cfg.selectKeys {
        var pos := FindChar(cfg.selectKeys, c);
        var q := SelectCandidate(pos);
        return Some(q);
      }
      return None;
    }

    method RouteDigitKeyDirect(c: char) returns (r: Result)
      requires Ready()
      modifies this, engine
      ensures (Now(), r) == DigitDirect(engine.lib, cfg, old(Now()), c)
    {
      if c in cfg.selectKeys {
        var pos := FindChar(cfg.selectKeys, c);
        r := SelectCandidate(pos);
      } else {
        r := BuildViewResult(false, false, "");
      }
    }

    method PageCandidates(delta: int) returns (r: Result)
      modifies this
      ensures (Now(), r) == Page(cfg, old(Now()), delta)
    {
      if !composing || candidates == [] {
        r := BuildViewResult(false, false, "");
        return;
      }
      hide PageTotal;
      var total: int := PageTotal(cfg, |candidates|);
      var idx := pageIndex + delta;
      pageIndex := Clamp(idx, total - 1);
      spaceArmed := false;
      r := BuildViewResult(true, false, "");
    }

    method CommitComposition() returns (r: Result)
      modifies this, engine
      ensures (Now(), r) == SessionSpec.Commit(engine.lib, cfg, old(Now()))
    {
      if !composing {
        r := BuildViewResult(false, false, "");
        return;
      }
      var text;
      if usesEngineChoose {
        if lastPartialSentence == "" {
          text := engine.CurrentSentence();
        } else {
          text := lastPartialSentence;
        }
        if text == "" {
          text := raw;
        } else {
          MaybeTrain(text);
        }
      } else {
        text := if candidates == [] then raw else EffectiveCommitText(candidates[0]);
      }
      r := CommitText(text);
    }

    method CancelComposition() returns (r: Result)
      modifies this, engine
      ensures (Now(), r) == Cancel(cfg, old(Now()))
    {
      if !composing {
        r := BuildViewResult(false, false, "");
        return;
      }
      ResetToIdle();
      r := BuildViewResult(true, false, "");
    }

    method FocusOut()
      modifies this, engine
      ensures Now() == Idled(old(Now()))
    {
      ResetToIdle();
    }

    method SetFieldHint(hint: string)
      modifies this`fieldHint
      ensures View() == old(View()).(fieldHint := hint)
    {
      fieldHint := hint;
    }

    method SetScheme(scheme: Scheme) returns (wasComposing: bool)
      modifies this, engine
      ensures Now() == SessionSpec.SetScheme(old(Now()), scheme)
      ensures wasComposing == (old(composing) && old(this.scheme) != scheme)
    {
      if this.scheme == scheme {
        return false;
      }
      wasComposing := composing;
      if composing {
        ResetToIdle();
      }
      this.scheme := scheme;
    }

    method Backspace() returns (r: Result)
      requires Ready()
      modifies this, engine
      ensures (Now(), r) == SessionSpec.Backspace(engine.lib, cfg, old(Now()))
    {
      if lastPartialSentence != "" {
        r := Recompute();
        return;
      }
      if raw == "" {
        r := BuildViewResult(false, false, "");
        return;
      }
      raw := raw[..|raw| - 1];
      if raw == "" {
        ResetToIdle();
        r := BuildViewResult(true, false, "");
        return;
      }
      r := Recompute();
    }

    method Space() returns (r: Result)
      requires Ready()
      modifies this, engine
      ensures (Now(), r) == SessionSpec.Space(engine.lib, cfg, old(Now()))
    {
      if scheme != SmartAbc {
        r := SelectCandidate(0);
        return;
      }
      if |candidates| <= 1 {
        r := SelectCandidate(0);
        return;
      }
      if !spaceArmed {
        spaceArmed := true;
        r := BuildViewResult(true, false, "");
        return;
      }
      spaceArmed := false;
      r := SelectCandidate(0);
    }

    method ProcessKey(vk: int, ch: nat, ctrl: bool) returns (r: Result)
      requires Ready()
      modifies this, engine
      ensures (Now(), r) == SessionSpec.ProcessKey(engine.lib, cfg, old(Now()), vk, ch, ctrl)
    {
      var c := ToChar(ch);
      if composing {
        if ctrl && ch != 0 && c in cfg.selectKeys {
          var pos := FindChar(cfg.selectKeys, c);
          r := SelectCandidate(pos);
          return;
        }
        if vk == VK_BACK {
          r := Backspace();
          return;
        }
        if vk == VK_ESCAPE {
          r := CancelComposition();
          return;
        }
        if vk == VK_SPACE {
          r := Space();
          return;
        }
        if scheme == SmartAbc {
          var q := RouteDigitKeyPinyin(ch);
          if q.Some? {
            return q.value;
          }
        } else if ch != 0 && IsDigit(c) {
          r := RouteDigitKeyDirect(c);
          return;
        }
        r := TypeOrPage(ch);
        return;
      }
      if ch == 0 {
        r := BuildViewResult(false, false, "");
        return;
      }
      if IsAsciiLetter(ch) {
        composing := true;
        raw := [ToLowerAscii(ch)];
        r := Recompute();
        return;
      }
      if IsMappedPunctuation(c) {
        composing := true;
        raw := [c];
        r := Recompute();
        return;
      }
      r := BuildViewResult(false, false, "");
    }

    // The rest of a composing key: paging keys, then letters.
    method TypeOrPage(ch: nat) returns (r: Result)
      requires Ready()
      modifies this, engine
      ensures (Now(), r) == Letters(engine.lib, cfg, old(Now()), ch)
    {
      if ch != 0 {
        var c := ToChar(ch);
        if scheme == Wubi && |raw| >= 4 && IsAsciiLetter(ch) {
          r := BuildViewResult(true, false, "");
          return;
        }
        if c in cfg.pagePrevKeys {
          r := PageCandidates(-1);
          return;
        }
        if c in cfg.pageNextKeys {
          r := PageCandidates(1);
          return;
        }
        if IsAsciiLetter(ch) {
          raw := raw + [ToLowerAscii(ch)];
          r := Recompute();
          return;
        }
      }
      r := BuildViewResult(false, false, "");
    }
  }
}
