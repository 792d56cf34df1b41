// Which keys the text service asks the engine about
// (src/domains/tsf-service/logic/key_router.cpp), against what a session handles.
module KeyRouter {
  import opened Decimal
  import opened Candidates
  import opened Sources
  import opened SessionSpec
  import opened SessionInv
  import Engine

  const PUNCTUATION_ASCII := ",.;:?!()"

  predicate IsMappedPunctuationAscii(ch: nat) {
    ch < 256 && ch as char in PUNCTUATION_ASCII
  }

  // hotkey is the scheme hotkey's virtual key, 0 for none.
  predicate IsInterestedKey(cfg: Config, hotkey: int, vk: int, ch: nat, composing: bool, mode: Mode,
                            ctrl: bool, shift: bool) {
    if hotkey != 0 && vk == hotkey && ctrl && shift then true
    else if mode == English then false
    else if composing then
      vk == VK_BACK || vk == VK_ESCAPE || vk == VK_SPACE
      || (ch != 0 && (ToChar(ch) in cfg.selectKeys || ToChar(ch) in cfg.pagePrevKeys || ToChar(ch) in cfg.pageNextKeys
                      || IsAsciiLetter(ch)))
    else ch != 0 && (IsAsciiLetter(ch) || IsMappedPunctuationAscii(ch))
  }

  // Keys that continue an input in the SmartAbc scheme but are neither letters nor
  // configured to select or page.
  predicate ContinuesUnclaimed(cfg: Config, s: Sess, vk: int, ch: nat) {
    var c := ToChar(ch);
    && s.composing && s.scheme == SmartAbc && !s.armed && ch != 0 && !IsAsciiLetter(ch)
    && vk != VK_BACK && vk != VK_ESCAPE && vk != VK_SPACE
    && c !in cfg.selectKeys && c !in cfg.pagePrevKeys && c !in cfg.pageNextKeys
    && if NumberMode(cfg, s) then NumberBodyChar(c) else cfg.strokesEnabled && IsStrokeDigit(c)
  }

  // The router compares the whole code, the session its low eight bits.
  lemma SamePunctuation(ch: nat)
    ensures IsMappedPunctuationAscii(ch) <==> ch < 256 && IsMappedPunctuation(ToChar(ch))
  {
    if ch < 256 {
      assert ToChar(ch) == ch as char;
    }
  }

  // A code that starts a composition by its low eight bits only.
  predicate StartsUnclaimed(s: Sess, ch: nat) {
    !s.composing && ch >= 256 && IsMappedPunctuation(ToChar(ch))
  }

  // In Chinese mode, for any key and whatever the keys configured: a key a session would
  // handle goes unclaimed exactly when it is such a continuation or such a code.
  lemma RouterCoverage(lib: Engine.Lib, cfg: Config, w: World, hotkey: int, vk: int, ch: nat, ctrl: bool, shift: bool)
    requires Engine.Lawful(lib) && Engine.Ok(lib, w.e) && Inv(cfg, w.s)
    ensures ProcessKey(lib, cfg, w, vk, ch, ctrl).1.handled
            && !IsInterestedKey(cfg, hotkey, vk, ch, w.s.composing, Chinese, ctrl, shift)
            <==> !(hotkey != 0 && vk == hotkey && ctrl && shift)
                 && (ContinuesUnclaimed(cfg, w.s, vk, ch) || StartsUnclaimed(w.s, ch))
  {
    hide View, Select, Append, Recompute, IsMappedPunctuationAscii, IsMappedPunctuation, Inv, Engine.Ok;
    SamePunctuation(ch);
    ViewReports(cfg, w.s, false, false, "");
    if StartsUnclaimed(w.s, ch) {
      RecomputeKeeps(lib, cfg, World(w.s.(composing := true, raw := [ToChar(ch)]), w.e));
    }
    if w.s.composing && !IsInterestedKey(cfg, 0, vk, ch, true, Chinese, ctrl, false) {
      ComposingCoverage(lib, cfg, w, vk, ch, ctrl);
    }
  }

  lemma ComposingCoverage(lib: Engine.Lib, cfg: Config, w: World, vk: int, ch: nat, ctrl: bool)
    requires Engine.Lawful(lib) && Engine.Ok(lib, w.e) && Inv(cfg, w.s) && w.s.composing
    requires !IsInterestedKey(cfg, 0, vk, ch, true, Chinese, ctrl, false)
    ensures ComposingKey(lib, cfg, w, vk, ch, ctrl).1.handled <==> ContinuesUnclaimed(cfg, w.s, vk, ch)
  {
    hide View, Select, Append, Inv, Engine.Ok;
    ViewReports(cfg, w.s, false, false, "");
    if ContinuesUnclaimed(cfg, w.s, vk, ch) {
      SmartAppend(lib, cfg, w, ToChar(ch));
    }
  }

  lemma SmartAppend(lib: Engine.Lib, cfg: Config, w: World, c: char)
    requires Engine.Lawful(lib) && Engine.Ok(lib, w.e) && Inv(cfg, w.s) && w.s.composing && w.s.scheme == SmartAbc
    ensures Append(lib, cfg, w, c).1.handled
  {
    FitsMore(w.s, c, cfg);
    AppendKeeps(lib, cfg, w, c);
  }

  // In English mode nothing is claimed but the scheme hotkey, which is claimed always.
  lemma EnglishClaimsHotkeyOnly(cfg: Config, hotkey: int, vk: int, ch: nat, composing: bool, ctrl: bool, shift: bool)
    ensures var pressed := hotkey != 0 && vk == hotkey && ctrl && shift;
            && (IsInterestedKey(cfg, hotkey, vk, ch, composing, English, ctrl, shift) <==> pressed)
            && (pressed ==> IsInterestedKey(cfg, hotkey, vk, ch, composing, Chinese, ctrl, shift))
  {
  }

  // What is claimed in vain: with nothing composed no key at all; in a composition only a
  // key that finds no candidates, a select key, or outside the SmartAbc scheme a digit.
  lemma ClaimedInVain(lib: Engine.Lib, cfg: Config, w: World, vk: int, ch: nat, ctrl: bool, shift: bool)
    requires Engine.Lawful(lib) && Engine.Ok(lib, w.e) && Inv(cfg, w.s)
    requires IsInterestedKey(cfg, 0, vk, ch, w.s.composing, Chinese, ctrl, shift)
    requires !ProcessKey(lib, cfg, w, vk, ch, ctrl).1.handled
    ensures w.s.composing
    ensures w.s.candidates == [] || ToChar(ch) in cfg.selectKeys || (w.s.scheme != SmartAbc && IsDigit(ToChar(ch)))
  {
    hide View, Select, Append, Recompute, IsMappedPunctuationAscii, IsMappedPunctuation, Engine.Ok, Engine.Lawful;
    hide PageTotal, PageStart, Backspace;
    SamePunctuation(ch);
    ViewReports(cfg, w.s, true, false, "");
    var c := ToChar(ch);
    if !w.s.composing {
      StartAnswers(lib, cfg, w, ch);
    } else if w.s.candidates != [] && c !in cfg.selectKeys && (w.s.scheme == SmartAbc || !IsDigit(c)) {
      ComposingAnswers(lib, cfg, w, vk, ch, ctrl);
    }
  }

  lemma StartAnswers(lib: Engine.Lib, cfg: Config, w: World, ch: nat)
    requires Engine.Lawful(lib) && Engine.Ok(lib, w.e) && Inv(cfg, w.s) && !w.s.composing
    ensures StartKey(lib, cfg, w, ch).1.handled <==> ch != 0 && (IsAsciiLetter(ch) || IsMappedPunctuation(ToChar(ch)))
  {
    hide View, Recompute, Engine.Ok, Engine.Lawful, IsMappedPunctuation;
    ViewReports(cfg, w.s, false, false, "");
    if ch > 0 && (IsAsciiLetter(ch) || IsMappedPunctuation(ToChar(ch))) {
      var raw := [if IsAsciiLetter(ch) then ToLowerAscii(ch) else ToChar(ch)];
      RecomputeKeeps(lib, cfg, World(w.s.(composing := true, raw := raw), w.e));
    }
  }

  // What each operation behind the keys answers.
  lemma ComposingAnswers(lib: Engine.Lib, cfg: Config, w: World, vk: int, ch: nat, ctrl: bool)
    requires Engine.Lawful(lib) && Engine.Ok(lib, w.e) && Inv(cfg, w.s) && w.s.composing
    requires ToChar(ch) !in cfg.selectKeys && (w.s.scheme == SmartAbc || !IsDigit(ToChar(ch))) && w.s.candidates != []
    requires IsInterestedKey(cfg, 0, vk, ch, true, Chinese, ctrl, false)
    ensures ComposingKey(lib, cfg, w, vk, ch, ctrl).1.handled
  {
    hide View, Select, Append, Recompute, Engine.Ok, Engine.Lawful, PageTotal, PageStart, Backspace, Space, Cancel;
    hide Sound, NoLoneCandidate, Keeps;
    InvIs(cfg, w.s);
    ViewReports(cfg, w.s, true, false, "");
    BackspaceKeeps(lib, cfg, w);
    SpaceAnswers(lib, cfg, w);
    CancelAnswers(cfg, w);
    PageAnswers(cfg, w, -1);
    PageAnswers(cfg, w, 1);
    if w.s.scheme == SmartAbc {
      SmartAppend(lib, cfg, w, ToChar(ch));
    }
    if IsAsciiLetter(ch) && (w.s.scheme == Wubi ==> |w.s.raw| < 4) {
      FitsMore(w.s, ToLowerAscii(ch), cfg);
      AppendKeeps(lib, cfg, w, ToLowerAscii(ch));
    }
  }

  lemma SpaceAnswers(lib: Engine.Lib, cfg: Config, w: World)
    requires Engine.Lawful(lib) && Engine.Ok(lib, w.e) && Inv(cfg, w.s) && w.s.composing && w.s.candidates != []
    ensures Space(lib, cfg, w).1.handled
  {
    hide View, Select;
    ViewReports(cfg, w.s.(armed := true), true, false, "");
    SelectKeeps(lib, cfg, w, 0);
    SelectKeeps(lib, cfg, World(w.s.(armed := false), w.e), 0);
  }

  lemma PageAnswers(cfg: Config, w: World, delta: int)
    requires w.s.composing && w.s.candidates != []
    ensures Page(cfg, w, delta).1.handled
  {
    hide PageTotal, PageStart, Shown;
  }

  lemma CancelAnswers(cfg: Config, w: World)
    requires w.s.composing
    ensures Cancel(cfg, w).1.handled
  {
    hide PageTotal, PageStart, Shown;
  }

  predicate DefaultKeys(cfg: Config) {
    cfg.selectKeys == "123456789" && cfg.pagePrevKeys == "-," && cfg.pageNextKeys == "=."
  }

  // With the default keys the continuations are one key: the digit 0 continuing an unarmed
  // number.
  lemma DefaultGap(cfg: Config, s: Sess, vk: int, ch: nat)
    requires DefaultKeys(cfg)
    ensures ContinuesUnclaimed(cfg, s, vk, ch) <==>
            && s.composing && s.scheme == SmartAbc && !s.armed && NumberMode(cfg, s) && ToChar(ch) == '0'
            && vk != VK_BACK && vk != VK_ESCAPE && vk != VK_SPACE
  {
    hide NumberMode;
    var c := ToChar(ch);
    assert ch < 256 ==> c == ch as char;
    assert cfg.selectKeys[0] == '1' && cfg.selectKeys[1] == '2' && cfg.selectKeys[2] == '3' && cfg.selectKeys[3] == '4'
           && cfg.selectKeys[4] == '5' && cfg.selectKeys[5] == '6' && cfg.selectKeys[6] == '7'
           && cfg.selectKeys[7] == '8' && cfg.selectKeys[8] == '9';
    assert cfg.pagePrevKeys[0] == '-' && cfg.pageNextKeys[1] == '.';
  }
}
