// The two-step space of the SmartAbc scheme, over runs of a session among others that
// use the same engine.
module TwoStepSpace {
  import opened Decimal
  import opened Candidates
  import opened Sources
  import opened SessionSpec
  import opened SessionInv
  import Engine

  // One event, and the engine as the session finds it when it comes.
  datatype Turn = Turn(e: Engine.State, ev: Event)

  ghost predicate FairTurns(lib: Engine.Lib, turns: seq<Turn>) {
    Engine.Lawful(lib) && forall i :: 0 <= i < |turns| ==> Engine.Ok(lib, turns[i].e)
  }

  function After(lib: Engine.Lib, cfg: Config, s: Sess, turns: seq<Turn>): (r: Sess)
    requires FairTurns(lib, turns) && Inv(cfg, s)
    ensures Inv(cfg, r)
    decreases |turns|
  {
    if turns == [] then s
    else
      var n := |turns| - 1;
      var w := World(After(lib, cfg, s, turns[..n]), turns[n].e);
      StepKeepsInv(lib, cfg, w, turns[n].ev);
      Step(lib, cfg, w, turns[n].ev).0.s
  }

  function Report(lib: Engine.Lib, cfg: Config, s: Sess, turns: seq<Turn>, k: nat): Option<Result>
    requires FairTurns(lib, turns) && Inv(cfg, s) && k < |turns|
  {
    Step(lib, cfg, World(After(lib, cfg, s, turns[..k]), turns[k].e), turns[k].ev).1
  }

  // A space, unless it is also a Ctrl selection.
  predicate IsSpace(cfg: Config, ev: Event) {
    ev.Key? && ev.vk == VK_SPACE && !(ev.ctrl && ev.ch != 0 && ToChar(ev.ch) in cfg.selectKeys)
  }

  predicate SameBut(s: Sess, t: Sess) {
    t == s.(fieldHint := t.fieldHint)
  }

  lemma {:induction false} SelectDisarms(lib: Engine.Lib, cfg: Config, w: World, index: int)
    requires Engine.Lawful(lib) && Engine.Ok(lib, w.e)
    ensures var out := Select(lib, cfg, w, index); out.0 == w || !out.0.s.armed
    decreases Misses(cfg, w, index), Engine.Left(w.e)
  {
    hide View, PageStart, Engine.Chosen, Train;
    var g := PageStart(cfg, w.s.page) + index;
    if w.s.composing && 0 <= index && g < |w.s.candidates| && w.s.usesEngine {
      var k := EngineIndex(w.s.candidates, g);
      Engine.ChooseAdvances(lib, w.e, k);
      var (e1, done, sentence) := Engine.Chosen(lib, w.e, k);
      var w1 := World(Advanced(w.s, e1, sentence), e1);
      if !done && |w1.s.candidates| == 1 {
        PageZero(cfg);
        assert Engine.Ok(lib, e1) && |e1.handles| == 1;
        SelectDisarms(lib, cfg, w1, 0);
      }
    }
  }

  lemma RecomputeDisarms(lib: Engine.Lib, cfg: Config, w: World)
    requires Engine.Lawful(lib) && Engine.Ok(lib, w.e)
    ensures !Recompute(lib, cfg, w).0.s.armed
  {
    hide View, Select, InCharge, Produced;
    var src := InCharge(cfg, w.s.raw, w.s.scheme);
    if src.Some? {
      ProducedIsOk(lib, cfg, w, src.value);
      SelectDisarms(lib, cfg, Recomputed(lib, cfg, w, src.value), 0);
    }
  }

  // What leaves a session armed: nothing changed, or a first space armed it.
  predicate ArmsFairly(cfg: Config, w: World, space: bool, out: (World, Result)) {
    out.0.s.armed ==>
      if w.s.armed then out.0.s == w.s
      else
        && space && w.s.scheme == SmartAbc && |w.s.candidates| >= 2
        && out.0.s == w.s.(armed := true) && out.1 == View(cfg, out.0.s, true, false, "")
  }

  lemma SpaceArms(lib: Engine.Lib, cfg: Config, w: World)
    requires Engine.Lawful(lib) && Engine.Ok(lib, w.e)
    ensures ArmsFairly(cfg, w, true, Space(lib, cfg, w))
  {
    hide View, Select;
    SelectDisarms(lib, cfg, w, 0);
    SelectDisarms(lib, cfg, World(w.s.(armed := false), w.e), 0);
  }

  lemma LettersArm(lib: Engine.Lib, cfg: Config, w: World, ch: nat)
    requires Engine.Lawful(lib) && Engine.Ok(lib, w.e)
    ensures ArmsFairly(cfg, w, false, Letters(lib, cfg, w, ch))
  {
    hide View, Append;
    TypingDisarms(lib, cfg, w, ch);
  }

  lemma ComposingKeyArms(lib: Engine.Lib, cfg: Config, w: World, vk: int, ch: nat, ctrl: bool)
    requires Engine.Lawful(lib) && Engine.Ok(lib, w.e)
    ensures ArmsFairly(cfg, w, IsSpace(cfg, Key(vk, ch, ctrl)), ComposingKey(lib, cfg, w, vk, ch, ctrl))
  {
    hide View, Select, Recompute, Append, Space, Letters;
    var k := ToChar(ch);
    SelectDisarms(lib, cfg, w, IndexOf(cfg.selectKeys, k));
    RecomputeDisarms(lib, cfg, w);
    if w.s.raw != "" {
      RecomputeDisarms(lib, cfg, World(w.s.(raw := w.s.raw[..|w.s.raw| - 1]), w.e));
    }
    TypingDisarms(lib, cfg, w, ch);
    SpaceArms(lib, cfg, w);
    LettersArm(lib, cfg, w, ch);
  }

  lemma StartKeyDisarms(lib: Engine.Lib, cfg: Config, w: World, ch: nat)
    requires Engine.Lawful(lib) && Engine.Ok(lib, w.e)
    ensures ArmsFairly(cfg, w, false, StartKey(lib, cfg, w, ch))
  {
    hide View, Recompute;
    TypingDisarms(lib, cfg, w, ch);
  }

  // A session is armed after an event only if the event left it as it was, or was a first
  // space on two or more candidates that changed nothing else and reported the arming.
  // So any change of input, page or segment disarms.
  lemma ArmedOnlyBySpace(lib: Engine.Lib, cfg: Config, w: World, ev: Event)
    requires Engine.Lawful(lib) && Engine.Ok(lib, w.e) && Inv(cfg, w.s)
    ensures var (w1, r) := Step(lib, cfg, w, ev);
            w1.s.armed ==>
              if w.s.armed then SameBut(w.s, w1.s)
              else
                && IsSpace(cfg, ev) && w.s.scheme == SmartAbc && |w.s.candidates| >= 2
                && w1.s == w.s.(armed := true) && r == Some(View(cfg, w1.s, true, false, ""))
  {
    hide View, Select, Train, ComposingKey, StartKey;
    match ev
    case Key(vk, ch, ctrl) =>
      ComposingKeyArms(lib, cfg, w, vk, ch, ctrl);
      StartKeyDisarms(lib, cfg, w, ch);
    case Selects(index) => SelectDisarms(lib, cfg, w, index);
    case Pages(delta) =>
    case CommitsNow =>
    case Cancels =>
    case LosesFocus =>
    case Hints(hint) =>
    case Switches(scheme) =>
  }

  lemma TypingDisarms(lib: Engine.Lib, cfg: Config, w: World, ch: nat)
    requires Engine.Lawful(lib) && Engine.Ok(lib, w.e)
    ensures !Append(lib, cfg, w, ToChar(ch)).0.s.armed
    ensures IsAsciiLetter(ch) ==> !Append(lib, cfg, w, ToLowerAscii(ch)).0.s.armed
    ensures IsAsciiLetter(ch) ==>
              !Recompute(lib, cfg, World(w.s.(composing := true, raw := [ToLowerAscii(ch)]), w.e)).0.s.armed
    ensures !Recompute(lib, cfg, World(w.s.(composing := true, raw := [ToChar(ch)]), w.e)).0.s.armed
  {
    hide Recompute;
    RecomputeDisarms(lib, cfg, World(w.s.(raw := w.s.raw + [ToChar(ch)]), w.e));
    RecomputeDisarms(lib, cfg, World(w.s.(composing := true, raw := [ToChar(ch)]), w.e));
    if IsAsciiLetter(ch) {
      RecomputeDisarms(lib, cfg, World(w.s.(raw := w.s.raw + [ToLowerAscii(ch)]), w.e));
      RecomputeDisarms(lib, cfg, World(w.s.(composing := true, raw := [ToLowerAscii(ch)]), w.e));
    }
  }

  // Turn j was the first space: it armed the list and reported the page that is shown in
  // the state after turn k, and no turn in between changed the session.
  ghost predicate ArmedAt(lib: Engine.Lib, cfg: Config, s: Sess, turns: seq<Turn>, j: nat, k: nat)
    requires FairTurns(lib, turns) && Inv(cfg, s)
  {
    && j < k <= |turns| && IsSpace(cfg, turns[j].ev)
    && var t := After(lib, cfg, s, turns[..k]); var r := Report(lib, cfg, s, turns, j);
       && r.Some? && r.value.handled && !r.value.hasCommit && r.value.armedIndex == 0
       && r.value.candidates == Shown(cfg, t) && r.value.rawInput == t.raw && r.value.pageIndex == t.page
       && forall i :: j < i <= k ==> SameBut(After(lib, cfg, s, turns[..i]), t)
  }

  lemma {:induction false} ArmedSince(lib: Engine.Lib, cfg: Config, s: Sess, turns: seq<Turn>, k: nat) returns (j: nat)
    requires FairTurns(lib, turns) && Inv(cfg, s) && !s.armed && k <= |turns|
    requires After(lib, cfg, s, turns[..k]).armed
    ensures ArmedAt(lib, cfg, s, turns, j, k)
    decreases k
  {
    hide Step, Inv, Shown;
    if k == 0 {
      assert false;
    } else {
      var before, after := After(lib, cfg, s, turns[..k - 1]), After(lib, cfg, s, turns[..k]);
      assert turns[..k][..k - 1] == turns[..k - 1];
      ArmedOnlyBySpace(lib, cfg, World(before, turns[k - 1].e), turns[k - 1].ev);
      if before.armed {
        j := ArmedSince(lib, cfg, s, turns, k - 1);
        SameShown(cfg, before, after);
      } else {
        j := k - 1;
        ArmedView(cfg, after);
      }
    }
  }

  lemma SameShown(cfg: Config, s: Sess, t: Sess)
    requires SameBut(s, t)
    ensures Shown(cfg, s) == Shown(cfg, t)
  {
  }

  lemma ArmedView(cfg: Config, s: Sess)
    requires s.armed
    ensures var r := View(cfg, s, true, false, "");
            r.armedIndex == 0 && r.candidates == Shown(cfg, s) && r.rawInput == s.raw && r.pageIndex == s.page
  {
  }

  // In the SmartAbc scheme a space that does anything to a list of two or more candidates,
  // other than arm it, was preceded by a space that armed this very page and reported it.
  lemma SpaceTakesTwoSteps(lib: Engine.Lib, cfg: Config, s: Sess, turns: seq<Turn>, k: nat) returns (j: nat)
    requires FairTurns(lib, turns) && Inv(cfg, s) && !s.armed && k < |turns| && IsSpace(cfg, turns[k].ev)
    requires var t := After(lib, cfg, s, turns[..k]); t.composing && t.scheme == SmartAbc && |t.candidates| >= 2
    ensures var t := After(lib, cfg, s, turns[..k]); var (w1, r) := Step(lib, cfg, World(t, turns[k].e), turns[k].ev);
            if w1.s == t.(armed := true) && !t.armed then r == Some(View(cfg, w1.s, true, false, ""))
            else t.armed && ArmedAt(lib, cfg, s, turns, j, k)
  {
    hide Select, View, Inv;
    var t := After(lib, cfg, s, turns[..k]);
    if t.armed {
      j := ArmedSince(lib, cfg, s, turns, k);
    } else {
      j := 0;
    }
  }

  // Two spaces in a row are one selection of the first entry of the page.
  lemma TwoSpacesSelectFirst(lib: Engine.Lib, cfg: Config, w: World, ch: nat, ctrl: bool)
    requires Engine.Lawful(lib) && Engine.Ok(lib, w.e) && w.s.composing && IsSpace(cfg, Key(VK_SPACE, ch, ctrl))
    requires w.s.scheme == SmartAbc && |w.s.candidates| >= 2 && !w.s.armed
    ensures var (w1, r1) := ProcessKey(lib, cfg, w, VK_SPACE, ch, ctrl);
            w1.e == w.e && !r1.hasCommit && r1.armedIndex == 0
            && ProcessKey(lib, cfg, w1, VK_SPACE, ch, ctrl) == Select(lib, cfg, w, 0)
  {
    assert w.s.(armed := true).(armed := false) == w.s;
  }
}
