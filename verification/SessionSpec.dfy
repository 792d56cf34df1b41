// What every operation of a composing session does, as functions of its state and of the
// engine's: the specification of src/domains/input-engine/logic/session/session.cpp.
module SessionSpec {
  import opened Decimal
  import opened Candidates
  import opened Sources
  import Engine

  const VK_BACK := 0x08
  const VK_ESCAPE := 0x1B
  const VK_SPACE := 0x20

  datatype Sess = Sess(
    composing: bool, raw: string, partial: string, candidates: seq<CandidateItem>, page: nat,
    armed: bool, usesEngine: bool, fieldHint: string, scheme: Scheme)

  datatype World = World(s: Sess, e: Engine.State)

  // What an operation reports: the current view, and what it commits.
  datatype Result = Result(
    handled: bool, composing: bool, preedit: string, rawInput: string, candidates: seq<string>,
    pageIndex: int, pageSize: int, pageTotal: int, hasCommit: bool, commit: string, armedIndex: int)

  function Fresh(scheme: Scheme): Sess {
    Sess(false, "", "", [], 0, false, false, "", scheme)
  }

  function Max1(n: nat): nat {
    if n == 0 then 1 else n
  }

  // First item of the shown page.
  function PageStart(cfg: Config, page: nat): nat {
    page * cfg.pageSize
  }

  lemma PageZero(cfg: Config)
    ensures PageStart(cfg, 0) == 0
  {
  }

  function PageTotal(cfg: Config, n: nat): nat {
    if n == 0 then 0 else (n + cfg.pageSize - 1) / Max1(cfg.pageSize)
  }

  function Texts(items: seq<CandidateItem>): (r: seq<string>)
    ensures |r| == |items| && forall i :: 0 <= i < |r| ==> r[i] == items[i].text
  {
    seq(|items|, i requires 0 <= i < |items| => items[i].text)
  }

  function Slice(items: seq<CandidateItem>, start: nat, n: nat): seq<CandidateItem> {
    if start >= |items| then [] else if start + n >= |items| then items[start..] else items[start..start + n]
  }

  function Shown(cfg: Config, s: Sess): seq<string> {
    Texts(Slice(s.candidates, PageStart(cfg, s.page), cfg.pageSize))
  }

  function View(cfg: Config, s: Sess, handled: bool, hasCommit: bool, commit: string): Result {
    Result(handled, s.composing, if s.partial == "" then s.raw else s.partial, s.raw, Shown(cfg, s),
           s.page, cfg.pageSize, PageTotal(cfg, |s.candidates|), hasCommit, commit, if s.armed then 0 else -1)
  }

  function Ignored(cfg: Config, w: World): (World, Result) {
    (w, View(cfg, w.s, false, false, ""))
  }

  function Shows(cfg: Config, w: World): (World, Result) {
    (w, View(cfg, w.s, true, false, ""))
  }

  function Idled(w: World): World {
    World(w.s.(composing := false, raw := "", partial := "", candidates := [], page := 0, armed := false),
          Engine.ResetState(w.e))
  }

  function Commits(cfg: Config, w: World, text: string): (World, Result) {
    (Idled(w), View(cfg, Idled(w).s, true, true, text))
  }

  function Train(cfg: Config, e: Engine.State, text: string): Engine.State {
    if !cfg.learning || text == "" then e else Engine.Learned(e, text)
  }

  // ---- Selecting ----------------------------------------------------------------

  // Whether choosing entry index of the shown page would give the engine an index it lacks.
  function Misses(cfg: Config, w: World, index: int): nat {
    var g := PageStart(cfg, w.s.page) + index;
    if 0 <= g < |w.s.candidates| && EngineIndex(w.s.candidates, g) < |w.e.handles| then 0 else 1
  }

  // Select recurses while exactly one candidate is left. It ends: every round but the
  // first gives the engine a valid index, and a valid choice leaves less of the input.
  function Select(lib: Engine.Lib, cfg: Config, w: World, index: int): (World, Result)
    requires Engine.Lawful(lib) && Engine.Ok(lib, w.e)
    decreases Misses(cfg, w, index), Engine.Left(w.e)
  {
    if !w.s.composing || index < 0 then Ignored(cfg, w)
    else
      var g := PageStart(cfg, w.s.page) + index;
      if g >= |w.s.candidates| then Ignored(cfg, w)
      else if !w.s.usesEngine then Commits(cfg, w, EffectiveCommitText(w.s.candidates[g]))
      else
        Engine.ChooseAdvances(lib, w.e, EngineIndex(w.s.candidates, g));
        var (e1, done, sentence) := Engine.Chosen(lib, w.e, EngineIndex(w.s.candidates, g));
        if done then Commits(cfg, World(w.s, Train(cfg, e1, sentence)), sentence)
        else
          var w1 := World(Advanced(w.s, e1, sentence), e1);
          if |w1.s.candidates| == 1 then Select(lib, cfg, w1, 0) else Shows(cfg, w1)
  }

  function Advanced(s: Sess, e: Engine.State, sentence: string): Sess {
    s.(candidates := e.candidates, usesEngine := true, page := 0, armed := false, partial := sentence)
  }

  // ---- Recomputing ----------------------------------------------------------------

  function Recomputed(lib: Engine.Lib, cfg: Config, w: World, src: Source): World {
    var (e1, items) := Produced(lib, cfg, src, w.s.raw, w.e);
    World(w.s.(partial := "", armed := false, usesEngine := UsesEngine(src), candidates := items, page := 0), e1)
  }

  function Recompute(lib: Engine.Lib, cfg: Config, w: World): (World, Result)
    requires Engine.Lawful(lib) && Engine.Ok(lib, w.e)
  {
    match InCharge(cfg, w.s.raw, w.s.scheme)
    case None =>
      var w1 := Idled(w);
      (w1, View(cfg, w1.s, false, false, ""))
    case Some(src) =>
      var w1 := Recomputed(lib, cfg, w, src);
      Engine.ParsedIsOk(lib, w.e, PinyinPart(w.s.raw));
      if AutoCommits(src) then
        Commits(cfg, w1, if w1.s.candidates == [] then w.s.raw else EffectiveCommitText(w1.s.candidates[0]))
      else if w.s.scheme != Wubi && |w1.s.candidates| == 1 then Select(lib, cfg, w1, 0)
      else Shows(cfg, w1)
  }

  function Append(lib: Engine.Lib, cfg: Config, w: World, c: char): (World, Result)
    requires Engine.Lawful(lib) && Engine.Ok(lib, w.e)
  {
    Recompute(lib, cfg, World(w.s.(raw := w.s.raw + [c]), w.e))
  }

  // ---- Keys ------------------------------------------------------------------------

  function ToChar(ch: nat): char {
    (ch % 256) as char
  }

  predicate IsAsciiLetter(ch: nat) {
    'a' as nat <= ch <= 'z' as nat || 'A' as nat <= ch <= 'Z' as nat
  }

  function ToLowerAscii(ch: nat): (c: char)
    requires IsAsciiLetter(ch)
    ensures 'a' <= c <= 'z'
  {
    if ch <= 'Z' as nat then (ch + 32) as char else ch as char
  }

  predicate NumberMode(cfg: Config, s: Sess) {
    s.raw != "" && s.raw[0] == cfg.numberLead
  }

  // Digits in the SmartAbc scheme: part of the input until a space has armed the list,
  // selections after.
  function DigitSmart(lib: Engine.Lib, cfg: Config, w: World, ch: nat): Option<(World, Result)>
    requires Engine.Lawful(lib) && Engine.Ok(lib, w.e)
  {
    var c := ToChar(ch);
    if ch == 0 then None
    else if !w.s.armed && NumberMode(cfg, w.s) && NumberBodyChar(c) then Some(Append(lib, cfg, w, c))
    else if !w.s.armed && !NumberMode(cfg, w.s) && cfg.strokesEnabled && IsStrokeDigit(c) then
      Some(Append(lib, cfg, w, c))
    else if w.s.armed && c in cfg.selectKeys then Some(Select(lib, cfg, w, IndexOf(cfg.selectKeys, c)))
    else None
  }

  function DigitDirect(lib: Engine.Lib, cfg: Config, w: World, c: char): (World, Result)
    requires Engine.Lawful(lib) && Engine.Ok(lib, w.e)
  {
    if c in cfg.selectKeys then Select(lib, cfg, w, IndexOf(cfg.selectKeys, c)) else Ignored(cfg, w)
  }

  function Backspace(lib: Engine.Lib, cfg: Config, w: World): (World, Result)
    requires Engine.Lawful(lib) && Engine.Ok(lib, w.e)
  {
    if w.s.partial != "" then Recompute(lib, cfg, w)
    else if w.s.raw == "" then Ignored(cfg, w)
    else
      var w1 := World(w.s.(raw := w.s.raw[..|w.s.raw| - 1]), w.e);
      if w1.s.raw == "" then Shows(cfg, Idled(w1)) else Recompute(lib, cfg, w1)
  }

  function Space(lib: Engine.Lib, cfg: Config, w: World): (World, Result)
    requires Engine.Lawful(lib) && Engine.Ok(lib, w.e)
  {
    if w.s.scheme != SmartAbc || |w.s.candidates| <= 1 then Select(lib, cfg, w, 0)
    else if !w.s.armed then Shows(cfg, World(w.s.(armed := true), w.e))
    else Select(lib, cfg, World(w.s.(armed := false), w.e), 0)
  }

  function Letters(lib: Engine.Lib, cfg: Config, w: World, ch: nat): (World, Result)
    requires Engine.Lawful(lib) && Engine.Ok(lib, w.e)
  {
    var c := ToChar(ch);
    if ch == 0 then Ignored(cfg, w)
    else if w.s.scheme == Wubi && |w.s.raw| >= 4 && IsAsciiLetter(ch) then Shows(cfg, w)
    else if c in cfg.pagePrevKeys then Page(cfg, w, -1)
    else if c in cfg.pageNextKeys then Page(cfg, w, 1)
    else if IsAsciiLetter(ch) then Append(lib, cfg, w, ToLowerAscii(ch))
    else Ignored(cfg, w)
  }

  function ComposingKey(lib: Engine.Lib, cfg: Config, w: World, vk: int, ch: nat, ctrl: bool): (World, Result)
    requires Engine.Lawful(lib) && Engine.Ok(lib, w.e)
  {
    var c := ToChar(ch);
    if ctrl && ch != 0 && c in cfg.selectKeys then Select(lib, cfg, w, IndexOf(cfg.selectKeys, c))
    else if vk == VK_BACK then Backspace(lib, cfg, w)
    else if vk == VK_ESCAPE then Cancel(cfg, w)
    else if vk == VK_SPACE then Space(lib, cfg, w)
    else if w.s.scheme == SmartAbc then
      match DigitSmart(lib, cfg, w, ch)
      case Some(r) => r
      case None => Letters(lib, cfg, w, ch)
    else if ch != 0 && IsDigit(c) then DigitDirect(lib, cfg, w, c)
    else Letters(lib, cfg, w, ch)
  }

  function StartKey(lib: Engine.Lib, cfg: Config, w: World, ch: nat): (World, Result)
    requires Engine.Lawful(lib) && Engine.Ok(lib, w.e)
  {
    if ch == 0 then Ignored(cfg, w)
    else if IsAsciiLetter(ch) then
      Recompute(lib, cfg, World(w.s.(composing := true, raw := [ToLowerAscii(ch)]), w.e))
    else if IsMappedPunctuation(ToChar(ch)) then
      Recompute(lib, cfg, World(w.s.(composing := true, raw := [ToChar(ch)]), w.e))
    else Ignored(cfg, w)
  }

  function ProcessKey(lib: Engine.Lib, cfg: Config, w: World, vk: int, ch: nat, ctrl: bool): (World, Result)
    requires Engine.Lawful(lib) && Engine.Ok(lib, w.e)
  {
    if w.s.composing then ComposingKey(lib, cfg, w, vk, ch, ctrl) else StartKey(lib, cfg, w, ch)
  }

  // ---- The other operations -----------------------------------------------------------

  function Clamp(i: int, hi: int): nat {
    if i < 0 || hi < 0 then 0 else if i > hi then hi else i
  }

  function Page(cfg: Config, w: World, delta: int): (World, Result) {
    if !w.s.composing || w.s.candidates == [] then Ignored(cfg, w)
    else
      var last := PageTotal(cfg, |w.s.candidates|) - 1;
      Shows(cfg, World(w.s.(page := Clamp(w.s.page + delta, last), armed := false), w.e))
  }

  // The sentence the engine has for the composition, "" if it has none.
  function EngineText(lib: Engine.Lib, w: World): string {
    if w.s.partial == "" then Engine.Sentence(lib, w.e) else w.s.partial
  }

  function Commit(lib: Engine.Lib, cfg: Config, w: World): (World, Result) {
    if !w.s.composing then Ignored(cfg, w)
    else if !w.s.usesEngine then
      Commits(cfg, w, if w.s.candidates == [] then w.s.raw else EffectiveCommitText(w.s.candidates[0]))
    else
      var text := EngineText(lib, w);
      if text == "" then Commits(cfg, w, w.s.raw)
      else Commits(cfg, World(w.s, Train(cfg, w.e, text)), text)
  }

  function Cancel(cfg: Config, w: World): (World, Result) {
    if !w.s.composing then Ignored(cfg, w) else Shows(cfg, Idled(w))
  }

  function SetScheme(w: World, scheme: Scheme): World {
    if w.s.scheme == scheme then w
    else
      var w1 := if w.s.composing then Idled(w) else w;
      World(w1.s.(scheme := scheme), w1.e)
  }

  // ---- Events ----------------------------------------------------------------------------

  datatype Event =
    | Key(vk: int, ch: nat, ctrl: bool)
    | Selects(index: int)
    | Pages(delta: int)
    | CommitsNow
    | Cancels
    | LosesFocus
    | Hints(hint: string)
    | Switches(scheme: Scheme)

  function Step(lib: Engine.Lib, cfg: Config, w: World, ev: Event): (World, Option<Result>)
    requires Engine.Lawful(lib) && Engine.Ok(lib, w.e)
  {
    match ev
    case Key(vk, ch, ctrl) => var (w1, r) := ProcessKey(lib, cfg, w, vk, ch, ctrl); (w1, Some(r))
    case Selects(index) => var (w1, r) := Select(lib, cfg, w, index); (w1, Some(r))
    case Pages(delta) => var (w1, r) := Page(cfg, w, delta); (w1, Some(r))
    case CommitsNow => var (w1, r) := Commit(lib, cfg, w); (w1, Some(r))
    case Cancels => var (w1, r) := Cancel(cfg, w); (w1, Some(r))
    case LosesFocus => (Idled(w), None)
    case Hints(hint) => (World(w.s.(fieldHint := hint), w.e), None)
    case Switches(scheme) => (SetScheme(w, scheme), None)
  }
}
