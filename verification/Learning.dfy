// What a session teaches its engine, and how often that is saved
// (src/domains/input-engine/logic/learning_policy.hpp).
module Learning {
  import opened Decimal
  import opened Candidates
  import opened Sources
  import opened SessionSpec
  import opened SessionInv
  import opened SessionMirror
  import opened SessionRuns
  import Engine

  // The phrase an operation commits on the engine's word, "" if none: not one from an
  // atomic source, nor the raw input used when the engine has no sentence.
  function EnginePhrase(cfg: Config, w1: World, r: Result, fallback: bool): string {
    if cfg.learning && r.hasCommit && w1.s.usesEngine && !fallback then r.commit else ""
  }

  function PinyinParts(inputs: set<string>): set<string> {
    set input | input in inputs :: PinyinPart(input)
  }

  // dict1 is dict taught the phrase p, if any, before any reset. For a session that alone
  // uses its engine (own) the engine then held the pinyin of one of the inputs given, and
  // p was its sentence for it.
  ghost predicate TaughtOnly(lib: Engine.Lib, own: bool, inputs: set<string>,
                             dict: seq<Engine.Lesson>, dict1: seq<Engine.Lesson>, p: string) {
    if p == "" then dict1 == dict
    else exists raw, chosen :: TaughtOn(lib, own, inputs, dict, dict1, p, raw, chosen)
  }

  ghost predicate TaughtOn(lib: Engine.Lib, own: bool, inputs: set<string>, dict: seq<Engine.Lesson>,
                           dict1: seq<Engine.Lesson>, p: string, raw: string, chosen: seq<Engine.LookupCandidate>) {
    && dict1 == dict + [Engine.Remembered(p, raw, chosen), Engine.Trained(raw, chosen)]
    && (own ==> raw != "" && raw in PinyinParts(inputs) && lib.sentence(Engine.Instance(dict, raw, chosen)) == p)
  }

  ghost predicate Teaches(lib: Engine.Lib, cfg: Config, own: bool, inputs: set<string>, w: World,
                          out: (World, Result), fallback: bool) {
    TaughtOnly(lib, own, inputs, w.e.inst.dict, out.0.e.inst.dict, EnginePhrase(cfg, out.0, out.1, fallback))
  }

  // A session an operation may start from: own says that it alone uses its engine.
  ghost predicate Teachable(lib: Engine.Lib, cfg: Config, own: bool, w: World) {
    Engine.Lawful(lib) && Engine.Ok(lib, w.e) && Inv(cfg, w.s) && FromEngine(w) && (own ==> Mirrors(lib, cfg, w))
  }

  // Committing a sentence of the engine's present input.
  lemma CommitTeaches(lib: Engine.Lib, cfg: Config, own: bool, inputs: set<string>, w: World, w1: World, text: string)
    requires w1.e.ready && w1.e.inst.dict == w.e.inst.dict && w1.s.usesEngine
    requires own ==> w1.e.inst.raw != "" && w1.e.inst.raw in PinyinParts(inputs) && text == Engine.Sentence(lib, w1.e)
    ensures Teaches(lib, cfg, own, inputs, w, Commits(cfg, World(w1.s, Train(cfg, w1.e, text)), text), false)
  {
    hide View, PinyinParts;
    ViewReports(cfg, Idled(World(w1.s, Train(cfg, w1.e, text))).s, true, true, text);
    if cfg.learning && text != "" {
      var inst := w1.e.inst;
      var dict1 := Idled(World(w1.s, Train(cfg, w1.e, text))).e.inst.dict;
      assert dict1
          == inst.dict + [Engine.Remembered(text, inst.raw, inst.chosen), Engine.Trained(inst.raw, inst.chosen)];
      assert TaughtOn(lib, own, inputs, w.e.inst.dict, dict1, text, inst.raw, inst.chosen);
    }
  }

  lemma {:induction false} SelectTeaches(lib: Engine.Lib, cfg: Config, own: bool, inputs: set<string>, w: World,
                                         index: int)
    requires Engine.Lawful(lib) && Engine.Ok(lib, w.e) && Sound(cfg, w.s) && (own ==> Mirrors(lib, cfg, w))
    requires w.s.raw in inputs
    ensures Teaches(lib, cfg, own, inputs, w, Select(lib, cfg, w, index), false)
    decreases Misses(cfg, w, index), Engine.Left(w.e)
  {
    hide View, Sound, Mirrors, PageStart, Engine.Chosen, Train, TaughtOnly;
    var g := PageStart(cfg, w.s.page) + index;
    NothingTaught(lib, own, inputs, w.e.inst.dict);
    if w.s.composing && 0 <= index && g < |w.s.candidates| {
      if !w.s.usesEngine {
        IdledKeepsDict(w);
      } else {
        var k := EngineIndex(w.s.candidates, g);
        Engine.ChooseAdvances(lib, w.e, k);
        var (e1, done, sentence) := Engine.Chosen(lib, w.e, k);
        if own {
          AdvancedMirrors(lib, cfg, w, g);
          ChosenSentence(lib, w.e, k);
          MirrorRaw(lib, cfg, w);
          RawIsSome(cfg, w.s);
        }
        if done {
          DoneIsReady(lib, w.e, k);
          CommitTeaches(lib, cfg, own, inputs, w, World(w.s, e1), sentence);
        } else {
          AdvancedIs(lib, cfg, w, e1, sentence);
          var w1 := World(Advanced(w.s, e1, sentence), e1);
          ViewReports(cfg, w1.s, true, false, "");
          if |w1.s.candidates| == 1 {
            SelectTeaches(lib, cfg, own, inputs, w1, 0);
          }
        }
      }
    } else {
      ViewReports(cfg, w.s, false, false, "");
    }
  }

  lemma NothingTaught(lib: Engine.Lib, own: bool, inputs: set<string>, dict: seq<Engine.Lesson>)
    ensures TaughtOnly(lib, own, inputs, dict, dict, "")
  {
  }

  lemma IdledKeepsDict(w: World)
    ensures Idled(w).e.inst.dict == w.e.inst.dict && Idled(w).s.usesEngine == w.s.usesEngine
  {
  }

  lemma RawIsSome(cfg: Config, s: Sess)
    requires Sound(cfg, s) && s.composing
    ensures PinyinPart(s.raw) != ""
  {
  }

  // Candidates produced afresh are the engine's own, whoever used it before.
  lemma RecomputeTeaches(lib: Engine.Lib, cfg: Config, own: bool, inputs: set<string>, w: World)
    requires Engine.Lawful(lib) && Engine.Ok(lib, w.e) && w.s.raw in inputs
    requires w.s.composing && (Fits(w.s.raw, w.s.scheme) || IsPunctuation(w.s.raw))
    ensures Teaches(lib, cfg, own, inputs, w, Recompute(lib, cfg, w), false)
  {
    hide View, Sound, Mirrors, PageStart, Select, InCharge, Produced, TaughtOnly, Idled;
    NothingTaught(lib, own, inputs, w.e.inst.dict);
    FittingSource(cfg, w.s.raw, w.s.scheme);
    var src := InCharge(cfg, w.s.raw, w.s.scheme).value;
    var w1 := Recomputed(lib, cfg, w, src);
    ProducedIsOk(lib, cfg, w, src);
    RecomputedMirrors(lib, cfg, w, src);
    RecomputedEngine(lib, cfg, w, src);
    IdledKeepsDict(w1);
    ViewReports(cfg, w1.s, true, false, "");
    if !AutoCommits(src) {
      RecomputedIsSound(lib, cfg, w, src);
      SelectTeaches(lib, cfg, own, inputs, w1, 0);
    }
  }

  // The input a key leaves the session with before anything is committed is one of these.
  function KeyInputs(s: Sess, vk: int, ch: nat): set<string> {
    {s.raw, s.raw + [ToChar(ch)]}
    + (if IsAsciiLetter(ch) then {s.raw + [ToLowerAscii(ch)]} else {})
    + (if vk == VK_BACK && s.raw != "" then {s.raw[..|s.raw| - 1]} else {})
  }

  function Inputs(s: Sess, ev: Event): set<string> {
    if ev.Key? then KeyInputs(s, ev.vk, ev.ch) else {s.raw}
  }

  lemma KeyTeaches(lib: Engine.Lib, cfg: Config, own: bool, w: World, vk: int, ch: nat, ctrl: bool)
    requires Teachable(lib, cfg, own, w)
    ensures Teaches(lib, cfg, own, KeyInputs(w.s, vk, ch), w, ProcessKey(lib, cfg, w, vk, ch, ctrl), false)
  {
    hide View, Mirrors, Sound, Teaches, ComposingKey, StartKey, KeyInputs;
    if w.s.composing {
      ComposingKeyTeaches(lib, cfg, own, w, vk, ch, ctrl);
    } else {
      StartKeyTeaches(lib, cfg, own, w, vk, ch);
    }
  }

  lemma StartKeyTeaches(lib: Engine.Lib, cfg: Config, own: bool, w: World, vk: int, ch: nat)
    requires Teachable(lib, cfg, own, w) && !w.s.composing
    ensures Teaches(lib, cfg, own, KeyInputs(w.s, vk, ch), w, StartKey(lib, cfg, w, ch), false)
  {
    hide View, Recompute, TaughtOnly;
    var inputs := KeyInputs(w.s, vk, ch);
    NoCommitTeachesNothing(lib, cfg, own, inputs, w, w);
    if ch > 0 && (IsAsciiLetter(ch) || IsMappedPunctuation(ToChar(ch))) {
      var raw := [if IsAsciiLetter(ch) then ToLowerAscii(ch) else ToChar(ch)];
      assert w.s.raw + raw == raw;
      RecomputeTeaches(lib, cfg, own, inputs, World(w.s.(composing := true, raw := raw), w.e));
    }
  }

  // Operations that commit nothing and only forget what the engine parsed.
  lemma NoCommitTeachesNothing(lib: Engine.Lib, cfg: Config, own: bool, inputs: set<string>, w: World, w1: World)
    requires w1.e.inst.dict == w.e.inst.dict
    ensures Teaches(lib, cfg, own, inputs, w, Ignored(cfg, w1), false)
    ensures Teaches(lib, cfg, own, inputs, w, Shows(cfg, w1), false)
    ensures Teaches(lib, cfg, own, inputs, w, Shows(cfg, Idled(w1)), false)
  {
    hide View;
    ViewReports(cfg, w1.s, false, false, "");
    ViewReports(cfg, w1.s, true, false, "");
    ViewReports(cfg, Idled(w1).s, true, false, "");
  }

  lemma TypingTeaches(lib: Engine.Lib, cfg: Config, own: bool, inputs: set<string>, w: World, c: char)
    requires Teachable(lib, cfg, own, w) && w.s.composing && Fits(w.s.raw + [c], w.s.scheme) && w.s.raw + [c] in inputs
    ensures Teaches(lib, cfg, own, inputs, w, Append(lib, cfg, w, c), false)
  {
    hide View, Recompute, TaughtOnly;
    RecomputeTeaches(lib, cfg, own, inputs, World(w.s.(raw := w.s.raw + [c]), w.e));
  }

  lemma BackspaceTeaches(lib: Engine.Lib, cfg: Config, own: bool, w: World, ch: nat)
    requires Teachable(lib, cfg, own, w) && w.s.composing
    ensures Teaches(lib, cfg, own, KeyInputs(w.s, VK_BACK, ch), w, Backspace(lib, cfg, w), false)
  {
    hide View, Recompute, TaughtOnly, Mirrors, Idled;
    FitsLess(w.s, cfg);
    var inputs := KeyInputs(w.s, VK_BACK, ch);
    var w1 := World(w.s.(raw := w.s.raw[..|w.s.raw| - 1]), w.e);
    NoCommitTeachesNothing(lib, cfg, own, inputs, w, w);
    NoCommitTeachesNothing(lib, cfg, own, inputs, w, w1);
    if w.s.partial != "" {
      RecomputeTeaches(lib, cfg, own, inputs, w);
    } else if w1.s.raw != "" {
      RecomputeTeaches(lib, cfg, own, inputs, w1);
    }
  }

  lemma SpaceTeaches(lib: Engine.Lib, cfg: Config, own: bool, inputs: set<string>, w: World)
    requires Teachable(lib, cfg, own, w) && w.s.composing && w.s.raw in inputs
    ensures Teaches(lib, cfg, own, inputs, w, Space(lib, cfg, w), false)
  {
    hide View, Select, TaughtOnly, Mirrors;
    var on, off := World(w.s.(armed := true), w.e), World(w.s.(armed := false), w.e);
    NoCommitTeachesNothing(lib, cfg, own, inputs, w, on);
    SelectTeaches(lib, cfg, own, inputs, w, 0);
    if w.s.scheme == SmartAbc && |w.s.candidates| > 1 && w.s.armed {
      if own {
        SameListMirrors(lib, cfg, w, off);
      }
      SelectTeaches(lib, cfg, own, inputs, off, 0);
    }
  }

  lemma PageTeaches(lib: Engine.Lib, cfg: Config, own: bool, inputs: set<string>, w: World, delta: int)
    ensures Teaches(lib, cfg, own, inputs, w, Page(cfg, w, delta), false)
  {
    hide View, PageTotal, Teaches;
    NoCommitTeachesNothing(lib, cfg, own, inputs, w, Page(cfg, w, delta).0);
  }

  lemma CancelTeaches(lib: Engine.Lib, cfg: Config, own: bool, inputs: set<string>, w: World)
    ensures Teaches(lib, cfg, own, inputs, w, Cancel(cfg, w), false)
  {
    hide View, Idled, Teaches;
    NoCommitTeachesNothing(lib, cfg, own, inputs, w, w);
  }

  lemma LettersTeach(lib: Engine.Lib, cfg: Config, own: bool, w: World, vk: int, ch: nat)
    requires Teachable(lib, cfg, own, w) && w.s.composing
    ensures Teaches(lib, cfg, own, KeyInputs(w.s, vk, ch), w, Letters(lib, cfg, w, ch), false)
  {
    hide View, Append, Page, Teaches, Mirrors;
    var inputs := KeyInputs(w.s, vk, ch);
    NoCommitTeachesNothing(lib, cfg, own, inputs, w, w);
    PageTeaches(lib, cfg, own, inputs, w, -1);
    PageTeaches(lib, cfg, own, inputs, w, 1);
    if IsAsciiLetter(ch) && (w.s.scheme == Wubi ==> |w.s.raw| < 4) {
      FitsMore(w.s, ToLowerAscii(ch), cfg);
      TypingTeaches(lib, cfg, own, inputs, w, ToLowerAscii(ch));
    }
  }

  lemma ComposingKeyTeaches(lib: Engine.Lib, cfg: Config, own: bool, w: World, vk: int, ch: nat, ctrl: bool)
    requires Teachable(lib, cfg, own, w) && w.s.composing
    ensures Teaches(lib, cfg, own, KeyInputs(w.s, vk, ch), w, ComposingKey(lib, cfg, w, vk, ch, ctrl), false)
  {
    hide View, Append, Page, Teaches, Mirrors, Select, Backspace, Space, Letters, Idled;
    var c, inputs := ToChar(ch), KeyInputs(w.s, vk, ch);
    NoCommitTeachesNothing(lib, cfg, own, inputs, w, w);
    SelectTeaches(lib, cfg, own, inputs, w, IndexOf(cfg.selectKeys, c));
    BackspaceTeaches(lib, cfg, own, w, ch);
    SpaceTeaches(lib, cfg, own, inputs, w);
    LettersTeach(lib, cfg, own, w, vk, ch);
    if w.s.scheme == SmartAbc {
      FitsMore(w.s, c, cfg);
      TypingTeaches(lib, cfg, own, inputs, w, c);
    }
  }

  // The raw input stands in for a sentence only when the engine has none.
  predicate FallsBack(lib: Engine.Lib, w: World, ev: Event) {
    ev.CommitsNow? && EngineText(lib, w) == ""
  }

  lemma CommitNowTeaches(lib: Engine.Lib, cfg: Config, own: bool, w: World)
    requires Teachable(lib, cfg, own, w)
    ensures Teaches(lib, cfg, own, {w.s.raw}, w, Commit(lib, cfg, w), FallsBack(lib, w, CommitsNow))
  {
    hide View, TaughtOnly, Train;
    NothingTaught(lib, own, {w.s.raw}, w.e.inst.dict);
    ViewReports(cfg, w.s, false, false, "");
    IdledKeepsDict(w);
    if w.s.composing && w.s.usesEngine {
      var text := EngineText(lib, w);
      if text != "" {
        if own {
          MirrorRaw(lib, cfg, w);
          RawIsSome(cfg, w.s);
        }
        CommitTeaches(lib, cfg, own, {w.s.raw}, w, w, text);
      }
    }
  }

  // One event teaches exactly the phrase it commits on the engine's word, whoever else
  // uses the engine. For a session that alone uses it, the phrase is the engine's sentence
  // for the pinyin of the input as the event left it.
  lemma StepTeaches(lib: Engine.Lib, cfg: Config, own: bool, w: World, ev: Event)
    requires Teachable(lib, cfg, own, w)
    ensures var (w1, r) := Step(lib, cfg, w, ev);
            TaughtOnly(lib, own, Inputs(w.s, ev), w.e.inst.dict, w1.e.inst.dict,
                       if r.None? then "" else EnginePhrase(cfg, w1, r.value, FallsBack(lib, w, ev)))
  {
    hide View, TaughtOnly, ProcessKey, Select, Page, Commit, Mirrors, Idled, KeyInputs;
    var inputs := Inputs(w.s, ev);
    NothingTaught(lib, own, inputs, w.e.inst.dict);
    IdledKeepsDict(w);
    NoCommitTeachesNothing(lib, cfg, own, inputs, w, w);
    match ev
    case Key(vk, ch, ctrl) => KeyTeaches(lib, cfg, own, w, vk, ch, ctrl);
    case Selects(index) => SelectTeaches(lib, cfg, own, inputs, w, index);
    case Pages(delta) => PageTeaches(lib, cfg, own, inputs, w, delta);
    case CommitsNow => CommitNowTeaches(lib, cfg, own, w);
    case Cancels =>
    case LosesFocus =>
    case Hints(hint) =>
    case Switches(scheme) =>
  }

  // ---- Over a run -----------------------------------------------------------------------

  function Phrases(dict: seq<Engine.Lesson>): seq<string> {
    if dict == [] then []
    else Phrases(dict[..|dict| - 1]) + match dict[|dict| - 1]
                                       case Remembered(p, _, _) => [p]
                                       case Trained(_, _) => []
  }

  // The non-empty phrases a run commits on the engine's word, in order.
  function EngineCommits(lib: Engine.Lib, cfg: Config, w: World, events: seq<Event>): seq<string>
    requires Engine.Lawful(lib) && Engine.Ok(lib, w.e) && Inv(cfg, w.s)
    decreases |events|
  {
    if events == [] then []
    else
      StepKeepsInv(lib, cfg, w, events[0]);
      var (w1, r) := Step(lib, cfg, w, events[0]);
      var p := if r.None? then "" else EnginePhrase(cfg, w1, r.value, FallsBack(lib, w, events[0]));
      (if p == "" then [] else [p]) + EngineCommits(lib, cfg, w1, events[1..])
  }

  lemma TaughtPhrases(lib: Engine.Lib, own: bool, inputs: set<string>,
                      dict: seq<Engine.Lesson>, dict1: seq<Engine.Lesson>, p: string)
    requires TaughtOnly(lib, own, inputs, dict, dict1, p)
    ensures Phrases(dict1) == Phrases(dict) + if p == "" then [] else [p]
    ensures p == "" ==> dict1 == dict
  {
    if p != "" {
      var raw, chosen :| TaughtOn(lib, own, inputs, dict, dict1, p, raw, chosen);
      var mid := dict + [Engine.Remembered(p, raw, chosen)];
      assert dict1[..|dict1| - 1] == mid && mid[..|mid| - 1] == dict;
    }
  }

  // The phrases taught over a run of a session are exactly the sentences it committed, in order.
  lemma {:induction false} LearningTrace(lib: Engine.Lib, cfg: Config, w: World, events: seq<Event>)
    requires Engine.Lawful(lib) && Engine.Ok(lib, w.e) && Inv(cfg, w.s) && FromEngine(w)
    ensures Phrases(Run(lib, cfg, w, events).e.inst.dict)
         == Phrases(w.e.inst.dict) + EngineCommits(lib, cfg, w, events)
    ensures !cfg.learning ==> Run(lib, cfg, w, events).e.inst.dict == w.e.inst.dict
    decreases |events|
  {
    hide Step, Inv, Engine.Ok, Phrases, TaughtOnly, FallsBack, Inputs, FromEngine;
    if events != [] {
      var ev := events[0];
      StepKeepsInv(lib, cfg, w, ev);
      StepTeaches(lib, cfg, false, w, ev);
      var (w1, r) := Step(lib, cfg, w, ev);
      var p := if r.None? then "" else EnginePhrase(cfg, w1, r.value, FallsBack(lib, w, ev));
      TaughtPhrases(lib, false, Inputs(w.s, ev), w.e.inst.dict, w1.e.inst.dict, p);
      LearningTrace(lib, cfg, w1, events[1..]);
      var now, later := if p == "" then [] else [p], EngineCommits(lib, cfg, w1, events[1..]);
      assert EngineCommits(lib, cfg, w, events) == now + later;
      Assoc(Phrases(w.e.inst.dict), now, later);
    }
  }

  lemma Assoc(a: seq<string>, b: seq<string>, c: seq<string>)
    ensures a + b + c == a + (b + c)
  {
  }

  // ---- Autosave --------------------------------------------------------------------------

  // Whether this commit is one to save after, and the count from then on.
  function Tick(every: nat, count: nat): (bool, nat) {
    if every == 0 then (false, count) else if count + 1 < every then (false, count + 1) else (true, 0)
  }

  function Saves(every: nat, count: nat, commits: nat): nat
    decreases commits
  {
    if commits == 0 then 0
    else
      var (save, c) := Tick(every, count);
      (if save then 1 else 0) + Saves(every, c, commits - 1)
  }

  // Of any number of commits one in every N is saved after, none when N is 0.
  lemma {:induction false} SavesAreOneInN(every: nat, count: nat, commits: nat)
    requires every > 0 ==> count < every
    ensures every == 0 ==> Saves(every, count, commits) == 0
    ensures every > 0 ==>
              Saves(every, count, commits) * every <= count + commits < (Saves(every, count, commits) + 1) * every
    decreases commits
  {
    if commits > 0 {
      var (save, c) := Tick(every, count);
      SavesAreOneInN(every, c, commits - 1);
      if every > 0 {
        var n := Saves(every, c, commits - 1);
        assert (n + 1) * every == n * every + every;
        assert (n + 2) * every == n * every + 2 * every;
      }
    }
  }

  class AutosaveCounter {
    const every: nat
    var count: nat

    constructor (every: nat)
      ensures this.every == every && count == 0
    {
      this.every, count := every, 0;
    }

    method OnCommit() returns (save: bool)
      modifies this
      ensures (save, count) == Tick(every, old(count))
    {
      if every == 0 {
        return false;
      }
      count := count + 1;
      if count < every {
        return false;
      }
      count := 0;
      save := true;
    }
  }
}
