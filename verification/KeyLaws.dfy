// What each key does, as whoever presses it sees it: what is typed and shown, which item is
// taken, which page comes next, what ends a composition.
module KeyLaws {
  import opened Decimal
  import opened Candidates
  import opened Sources
  import opened SessionSpec
  import opened SessionInv
  import opened SessionMirror
  import opened SessionRuns
  import Engine

  // ---- What is reported -----------------------------------------------------------------

  // The pages of n items: the last of them starts inside the list and reaches its end.
  predicate CountsPages(total: nat, n: nat, size: nat) {
    if n == 0 then total == 0
    else size > 0 ==> total > 0 && (total - 1) * size < n <= total * size
  }

  lemma PagesAreCounted(cfg: Config, n: nat)
    ensures CountsPages(PageTotal(cfg, n), n, cfg.pageSize)
  {
    if n > 0 && cfg.pageSize > 0 {
      var size := cfg.pageSize;
      var q, r := (n - 1) / size, (n - 1) % size;
      LastPageIs(cfg, n);
      assert n - 1 == q * size + r;
      assert (q + 1) * size == q * size + size;
    }
  }

  // A report tells the state it leaves: the preedit is the input as typed until something
  // is chosen, and then the sentence so far; it is empty exactly when nothing is composed.
  predicate Tells(cfg: Config, s: Sess, r: Result) {
    && r.composing == s.composing && r.rawInput == s.raw
    && (s.partial == "" ==> r.preedit == s.raw)
    && (s.partial != "" ==> r.preedit == s.partial)
    && (r.preedit == "" <==> !s.composing)
    && (r.armedIndex == 0 <==> s.armed) && (r.armedIndex == -1 <==> !s.armed)
    && r.pageIndex == s.page && r.pageSize == cfg.pageSize
    && r.pageTotal >= 0 && CountsPages(r.pageTotal, |s.candidates|, cfg.pageSize)
    && IsPage(cfg, s, r.candidates)
  }

  // The texts from the start of the page on, as many as there are and fit.
  predicate IsPage(cfg: Config, s: Sess, texts: seq<string>) {
    && |texts| <= cfg.pageSize
    && (forall i :: 0 <= i < |texts| ==>
          PageStart(cfg, s.page) + i < |s.candidates| && texts[i] == s.candidates[PageStart(cfg, s.page) + i].text)
    && (|texts| < cfg.pageSize ==> PageStart(cfg, s.page) + |texts| >= |s.candidates|)
  }

  lemma ShownIsPage(cfg: Config, s: Sess)
    ensures IsPage(cfg, s, Shown(cfg, s))
  {
    hide PageStart, Shown;
    var texts := Shown(cfg, s);
    forall i | 0 <= i < |texts|
      ensures PageStart(cfg, s.page) + i < |s.candidates| && texts[i] == s.candidates[PageStart(cfg, s.page) + i].text
    {
      ShownItem(cfg, s, i);
    }
    ShownItem(cfg, s, |texts|);
    if |texts| > 0 {
      ShownItem(cfg, s, |texts| - 1);
    }
  }

  lemma ViewTells(cfg: Config, s: Sess, handled: bool, hasCommit: bool, commit: string)
    requires Inv(cfg, s)
    ensures Tells(cfg, s, View(cfg, s, handled, hasCommit, commit))
  {
    hide PageTotal, PageStart, Shown, CountsPages, NoLoneCandidate, IsPage;
    PagesAreCounted(cfg, |s.candidates|);
    ShownIsPage(cfg, s);
    InvIs(cfg, s);
  }

  // Whatever the operation, in any reachable state, shared engine or not.
  lemma EveryReportTells(lib: Engine.Lib, cfg: Config, w: World, ev: Event)
    requires Engine.Lawful(lib) && Engine.Ok(lib, w.e) && Inv(cfg, w.s)
    ensures var (w1, r) := Step(lib, cfg, w, ev);
            r.Some? ==> Tells(cfg, w1.s, r.value) && (!r.value.hasCommit ==> r.value.commit == "" || w1 == w)
  {
    hide View, Step, Tells, Inv;
    StepKeepsInv(lib, cfg, w, ev);
    var (w1, r) := Step(lib, cfg, w, ev);
    if r.Some? {
      ViewTells(cfg, w1.s, r.value.handled, r.value.hasCommit, r.value.commit);
      NoCommitNoText(lib, cfg, w, ev);
    }
  }

  lemma NoCommitNoText(lib: Engine.Lib, cfg: Config, w: World, ev: Event)
    requires Engine.Lawful(lib) && Engine.Ok(lib, w.e) && Inv(cfg, w.s)
    ensures var r := Step(lib, cfg, w, ev).1; r.Some? && !r.value.hasCommit ==> r.value.commit == ""
  {
    hide View, ProcessKey, Select, Page, Commit, Cancel, Idled, SetScheme, Inv, Sound, NoLoneCandidate;
    InvIs(cfg, w.s);
    match ev
    case Key(vk, ch, ctrl) => ProcessKeyKeeps(lib, cfg, w, vk, ch, ctrl);
    case Selects(index) => SelectKeeps(lib, cfg, w, index);
    case Pages(delta) => PageKeeps(lib, cfg, w, delta);
    case CommitsNow => CommitKeeps(lib, cfg, w);
    case Cancels => CancelKeeps(lib, cfg, w);
    case LosesFocus =>
    case Hints(hint) =>
    case Switches(scheme) =>
  }

  // ---- Typing ----------------------------------------------------------------------------

  predicate IsEditKey(vk: int) {
    vk == 0x08 || vk == 0x1B || vk == 0x20
  }

  // Ctrl makes a select key select, whatever else it means.
  predicate CtrlSelects(cfg: Config, ch: nat, ctrl: bool) {
    ctrl && ch != 0 && ToChar(ch) in cfg.selectKeys
  }

  // The character a key adds to the input: a letter in lower case, unless the key turns the
  // page or a Wubi code is full; in the SmartAbc scheme, until a space arms the list, a
  // digit, point or minus of a number, or else a stroke digit. With nothing composed a
  // letter, or a punctuation mark.
  function TypedChar(cfg: Config, s: Sess, vk: int, ch: nat, ctrl: bool): Option<char> {
    var c := (ch % 256) as char;
    var number := s.raw != "" && s.raw[0] == cfg.numberLead;
    var letter :=
      if 65 <= ch <= 90 then Some((ch + 32) as char) else if 97 <= ch <= 122 then Some(ch as char) else None;
    if ch == 0 then None
    else if !s.composing then
      if letter.Some? then letter else if c in ",.;:?!()" then Some(c) else None
    else if CtrlSelects(cfg, ch, ctrl) || IsEditKey(vk) then None
    else if s.scheme == SmartAbc && !s.armed && number && ('0' <= c <= '9' || c == '.' || c == '-') then Some(c)
    else if s.scheme == SmartAbc && !s.armed && !number && cfg.strokesEnabled && '1' <= c <= '5' then Some(c)
    else if s.scheme == SmartAbc && s.armed && c in cfg.selectKeys then None
    else if s.scheme != SmartAbc && '0' <= c <= '9' then None
    else if s.scheme == Wubi && |s.raw| >= 4 then None
    else if c in cfg.pagePrevKeys || c in cfg.pageNextKeys then None
    else letter
  }

  lemma SamePunctuation(c: char)
    ensures c in ",.;:?!()" <==> IsMappedPunctuation(c)
  {
  }

  lemma TypedRecomputes(lib: Engine.Lib, cfg: Config, w: World, vk: int, ch: nat, ctrl: bool)
    requires Engine.Lawful(lib) && Engine.Ok(lib, w.e) && Inv(cfg, w.s) && TypedChar(cfg, w.s, vk, ch, ctrl).Some?
    ensures var c := TypedChar(cfg, w.s, vk, ch, ctrl).value;
            var w0 := World(w.s.(composing := true, raw := w.s.raw + [c]), w.e);
            && ProcessKey(lib, cfg, w, vk, ch, ctrl) == Recompute(lib, cfg, w0)
            && (Fits(w0.s.raw, w0.s.scheme) || (!w.s.composing && IsPunctuation(w0.s.raw)))
            && (w.s.composing ==> Fits(w0.s.raw, w0.s.scheme))
  {
    hide View, Recompute, Engine.Ok, Engine.Lawful, Select, Page, Ignored, Shows, IsMappedPunctuation;
    SamePunctuation(ToChar(ch));
    var c := TypedChar(cfg, w.s, vk, ch, ctrl).value;
    if w.s.composing {
      FitsMore(w.s, c, cfg);
    } else {
      assert w.s.raw + [c] == [c];
    }
  }

  // A key that types c: either the input has become longer by c, on the first page with
  // nothing armed, and the report shows it; or what was typed is committed. In the Wubi
  // scheme letters never commit by themselves.
  lemma KeyTypes(lib: Engine.Lib, cfg: Config, w: World, vk: int, ch: nat, ctrl: bool)
    requires Engine.Lawful(lib) && Engine.Ok(lib, w.e) && Inv(cfg, w.s) && TypedChar(cfg, w.s, vk, ch, ctrl).Some?
    ensures var c := TypedChar(cfg, w.s, vk, ch, ctrl).value; var (w1, r) := ProcessKey(lib, cfg, w, vk, ch, ctrl);
            && r.handled
            && (w1.s.composing ==>
                  && w1.s.raw == w.s.raw + [c] && w1.s.page == 0 && !w1.s.armed && !r.hasCommit
                  && r.rawInput == w.s.raw + [c] && (w1.s.partial == "" ==> r.preedit == w.s.raw + [c]))
            && (!w1.s.composing ==> r.hasCommit && r.preedit == "")
            && (w.s.scheme == Wubi && IsAsciiLetter(ch) ==> w1.s.composing && w1.s.partial == "")
  {
    hide View, Recompute, Inv, Sound, NoLoneCandidate, Tells, ProcessKey, TypedChar, Fits;
    var c := TypedChar(cfg, w.s, vk, ch, ctrl).value;
    TypedRecomputes(lib, cfg, w, vk, ch, ctrl);
    var w0 := World(w.s.(composing := true, raw := w.s.raw + [c]), w.e);
    RecomputeKeeps(lib, cfg, w0);
    RecomputeKeepsRaw(lib, cfg, w0);
    RecomputeStartsOver(lib, cfg, w0);
    if w.s.scheme == Wubi && IsAsciiLetter(ch) {
      LetterFits(cfg, w, vk, ch, ctrl);
      WubiWaits(lib, cfg, w0);
    }
    EveryReportTells(lib, cfg, w, Key(vk, ch, ctrl));
    TellsTyped(cfg, Recompute(lib, cfg, w0).0.s, Recompute(lib, cfg, w0).1);
  }

  lemma TellsTyped(cfg: Config, s: Sess, r: Result)
    requires Tells(cfg, s, r)
    ensures r.composing == s.composing && r.rawInput == s.raw && (s.partial == "" ==> r.preedit == s.raw)
    ensures r.preedit == "" <==> !s.composing
  {
  }

  lemma LetterFits(cfg: Config, w: World, vk: int, ch: nat, ctrl: bool)
    requires Inv(cfg, w.s) && TypedChar(cfg, w.s, vk, ch, ctrl).Some? && w.s.scheme == Wubi && IsAsciiLetter(ch)
    ensures Fits(w.s.raw + [TypedChar(cfg, w.s, vk, ch, ctrl).value], Wubi)
  {
    var c := TypedChar(cfg, w.s, vk, ch, ctrl).value;
    if w.s.composing {
      FitsMore(w.s, c, cfg);
    } else {
      assert w.s.raw + [c] == [c];
    }
  }

  // Candidates produced afresh start on the first page with nothing armed; if the result
  // still composes nothing has been committed.
  lemma RecomputeStartsOver(lib: Engine.Lib, cfg: Config, w: World)
    requires Engine.Lawful(lib) && Engine.Ok(lib, w.e)
    requires w.s.composing && (Fits(w.s.raw, w.s.scheme) || IsPunctuation(w.s.raw))
    ensures var (w1, r) := Recompute(lib, cfg, w);
            if w1.s.composing then w1.s.page == 0 && !w1.s.armed && !r.hasCommit else r.hasCommit
  {
    hide View, Sound, Produced, Select, InCharge, Idled;
    FittingSource(cfg, w.s.raw, w.s.scheme);
    var src := InCharge(cfg, w.s.raw, w.s.scheme).value;
    var w1 := Recomputed(lib, cfg, w, src);
    ProducedIsOk(lib, cfg, w, src);
    RecomputedStarts(lib, cfg, w, src);
    ViewReports(cfg, w1.s, true, false, "");
    IdledReports(cfg, w1);
    if !AutoCommits(src) && w.s.scheme != Wubi && |w1.s.candidates| == 1 {
      SelectStartsOver(lib, cfg, w1, 0);
    }
  }

  lemma IdledReports(cfg: Config, w: World)
    ensures !Idled(w).s.composing && Idled(w).s.page == 0 && !Idled(w).s.armed
    ensures forall text :: Commits(cfg, w, text).1.hasCommit && Commits(cfg, w, text).0 == Idled(w)
  {
    hide PageTotal, Shown;
  }

  lemma {:induction false} SelectStartsOver(lib: Engine.Lib, cfg: Config, w: World, index: nat)
    requires Engine.Lawful(lib) && Engine.Ok(lib, w.e)
    requires w.s.composing && PageStart(cfg, w.s.page) + index < |w.s.candidates|
    ensures var (w1, r) := Select(lib, cfg, w, index);
            if w1.s.composing then w1.s.page == 0 && !w1.s.armed && !r.hasCommit else r.hasCommit
    decreases Misses(cfg, w, index), Engine.Left(w.e)
  {
    hide View, PageStart, Engine.Chosen, Train, Idled;
    var g := PageStart(cfg, w.s.page) + index;
    IdledReports(cfg, w);
    if w.s.usesEngine {
      var k := EngineIndex(w.s.candidates, g);
      Engine.ChooseAdvances(lib, w.e, k);
      var (e1, done, sentence) := Engine.Chosen(lib, w.e, k);
      IdledReports(cfg, World(w.s, Train(cfg, e1, sentence)));
      var w1 := World(Advanced(w.s, e1, sentence), e1);
      ViewReports(cfg, w1.s, true, false, "");
      if !done && |w1.s.candidates| == 1 {
        PageZero(cfg);
        assert Engine.Ok(lib, e1) && |e1.handles| == 1;
        SelectStartsOver(lib, cfg, w1, 0);
      }
    }
  }

  lemma WubiWaits(lib: Engine.Lib, cfg: Config, w: World)
    requires Engine.Lawful(lib) && Engine.Ok(lib, w.e)
    requires w.s.composing && w.s.scheme == Wubi && Fits(w.s.raw, Wubi)
    ensures var w1 := Recompute(lib, cfg, w).0; w1.s.composing && w1.s.partial == ""
  {
    hide View, Produced;
    assert IsLower(w.s.raw[0]);
  }

  predicate IsFifthLetter(s: Sess, ch: nat) {
    s.composing && s.scheme == Wubi && |s.raw| == 4 && IsAsciiLetter(ch)
  }

  // A key that types nothing never makes the input longer, and a fifth letter of a Wubi
  // code is swallowed.
  lemma OtherKeysAddNothing(lib: Engine.Lib, cfg: Config, w: World, vk: int, ch: nat, ctrl: bool)
    requires Engine.Lawful(lib) && Engine.Ok(lib, w.e) && Inv(cfg, w.s) && TypedChar(cfg, w.s, vk, ch, ctrl).None?
    ensures var (w1, r) := ProcessKey(lib, cfg, w, vk, ch, ctrl);
            && |w1.s.raw| <= |w.s.raw|
            && (!w.s.composing ==> w1 == w && !r.handled)
            && (IsFifthLetter(w.s, ch) && !CtrlSelects(cfg, ch, ctrl) && !IsEditKey(vk) ==>
                  w1 == w && r.handled && !r.hasCommit)
  {
    hide View, Select, Page, Backspace, Space, Engine.Ok, Engine.Lawful, IsMappedPunctuation, Append;
    SamePunctuation(ToChar(ch));
    ViewReports(cfg, w.s, true, false, "");
    ViewReports(cfg, w.s, false, false, "");
    if w.s.composing {
      KeysGoOn(lib, cfg, w, ToChar(ch));
      IdleIsShorter(lib, cfg, w, ToChar(ch));
    }
  }

  lemma IdleIsShorter(lib: Engine.Lib, cfg: Config, w: World, k: char)
    requires Engine.Lawful(lib) && Engine.Ok(lib, w.e) && Inv(cfg, w.s) && w.s.composing
    ensures |Select(lib, cfg, w, IndexOf(cfg.selectKeys, k)).0.s.raw| <= |w.s.raw|
    ensures |Space(lib, cfg, w).0.s.raw| <= |w.s.raw|
    ensures |Page(cfg, w, -1).0.s.raw| <= |w.s.raw| && |Page(cfg, w, 1).0.s.raw| <= |w.s.raw|
  {
    hide View, Select, Space, Page, Keeps, NoLoneCandidate, Engine.Ok, Engine.Lawful;
    KeysGoOn(lib, cfg, w, k);
    InvIs(cfg, w.s);
    SelectKeeps(lib, cfg, w, IndexOf(cfg.selectKeys, k));
    SpaceKeeps(lib, cfg, w);
    PageKeeps(lib, cfg, w, -1);
    PageKeeps(lib, cfg, w, 1);
    KeptIdle(lib, cfg, w, Select(lib, cfg, w, IndexOf(cfg.selectKeys, k)));
    KeptIdle(lib, cfg, w, Space(lib, cfg, w));
    KeptIdle(lib, cfg, w, Page(cfg, w, -1));
    KeptIdle(lib, cfg, w, Page(cfg, w, 1));
  }

  lemma KeptIdle(lib: Engine.Lib, cfg: Config, w: World, out: (World, Result))
    requires Keeps(lib, cfg, w, out)
    ensures !out.0.s.composing ==> out.0.s.raw == ""
  {
    hide View;
  }

  // With nothing composed, each mark is replaced by its full-width form at once.
  lemma PunctuationCommits(lib: Engine.Lib, cfg: Config, w: World, vk: int, i: nat, ctrl: bool)
    requires Engine.Lawful(lib) && Engine.Ok(lib, w.e) && Inv(cfg, w.s) && !w.s.composing && i < 8
    ensures var (w1, r) := ProcessKey(lib, cfg, w, vk, ",.;:?!()"[i] as nat, ctrl);
            r.handled && !w1.s.composing && r.hasCommit && r.commit == ["，。；：？！（）"[i]]
  {
    hide View, Engine.Ok, Engine.Lawful;
    var c := ",.;:?!()"[i];
    assert ToChar(c as nat) == c;
    var w0 := World(w.s.(composing := true, raw := [c]), w.e);
    var w1 := Recomputed(lib, cfg, w0, Punctuation);
    assert PUNCTUATION[c] == ["，。；：？！（）"[i]];
    assert w1.s.candidates == [Plain(["，。；：？！（）"[i]])];
    ViewReports(cfg, Idled(w1).s, true, true, ["，。；：？！（）"[i]]);
  }

  // ---- What is offered ------------------------------------------------------------------

  // The words of a Wubi code, in the order of the table.
  predicate OffersWords(cfg: Config, code: string, items: seq<CandidateItem>) {
    var words := if code in cfg.wubiTable then cfg.wubiTable[code] else [];
    |items| == |words| && forall i :: 0 <= i < |items| ==> items[i] == CandidateItem(words[i], false, -1, "")
  }

  lemma WordsAreOffered(cfg: Config, code: string)
    ensures OffersWords(cfg, code, WubiItems(cfg, code))
  {
  }

  // The candidates of a composition in which nothing is chosen: the words of its code in
  // the Wubi scheme, the readings of its number, or what the engine, told to parse its
  // pinyin, offers and its strokes let through.
  lemma CompositionOffers(lib: Engine.Lib, cfg: Config, w: World)
    requires Reachable(lib, cfg, w) && OnlyTyped(w.s)
    ensures var body := w.s.raw[1..]; var number := w.s.scheme == SmartAbc && IsNumberInput(cfg, w.s.raw, SmartAbc);
            && (w.s.scheme == Wubi ==> OffersWords(cfg, w.s.raw, w.s.candidates))
            && (number ==> w.s.candidates == NumberItems(body))
            && (w.s.scheme != Wubi && !number ==>
                  && w.e == Engine.Parsed(lib, w.e, PinyinPart(w.s.raw))
                  && (if !cfg.strokesEnabled || StrokeSuffix(w.s.raw) == "" then w.s.candidates == w.e.candidates
                      else w.s.candidates == Filtered(w.e.candidates, StrokeSuffix(w.s.raw), cfg.strokeTable)))
  {
    hide Engine.Parsed, WubiItems, NumberItems, PinyinPart, StrokeSuffix, OffersWords, Engine.Ok, Engine.Lawful;
    WordsAreOffered(cfg, w.s.raw);
    FittingSource(cfg, w.s.raw, w.s.scheme);
    FitsLess(w.s, cfg);
    NoStrokesKeepAll(w.e.candidates, cfg.strokeTable);
  }

  lemma NoStrokesKeepAll(items: seq<CandidateItem>, table: StrokeTable)
    ensures Filtered(items, "", table) == items
  {
  }

  // ---- Selecting ---------------------------------------------------------------------------

  // A select key in its place: with Ctrl any of them; else in the SmartAbc scheme any of
  // them once the list is armed, and in the others a digit.
  predicate SelectsNow(cfg: Config, s: Sess, vk: int, ch: nat, ctrl: bool) {
    && s.composing && ch != 0 && ToChar(ch) in cfg.selectKeys
    && (ctrl || (!IsEditKey(vk) && if s.scheme == SmartAbc then s.armed else '0' <= ToChar(ch) <= '9'))
  }

  lemma FirstIndex(keys: string, k: nat)
    requires k < |keys| && keys[k] !in keys[..k]
    ensures IndexOf(keys, keys[k]) == k
  {
    var j := IndexOf(keys, keys[k]);
  }

  // The k-th select key takes the k-th item of the page shown; with no such item on the
  // whole list the key is not handled.
  lemma SelectKeyTakesItsItem(lib: Engine.Lib, cfg: Config, w: World, vk: int, ch: nat, ctrl: bool, k: nat)
    requires Reachable(lib, cfg, w) && SelectsNow(cfg, w.s, vk, ch, ctrl)
    requires k < |cfg.selectKeys| && cfg.selectKeys[k] == ToChar(ch) && ToChar(ch) !in cfg.selectKeys[..k]
    ensures var out := ProcessKey(lib, cfg, w, vk, ch, ctrl);
            && (k < |Shown(cfg, w.s)| ==> ActsOn(lib, cfg, w, k, out))
            && (!out.1.handled <==> PageStart(cfg, w.s.page) + k >= |w.s.candidates|)
  {
    hide View, Select, PageStart, Shown, ActsOn, Engine.Ok, Engine.Lawful, Append, Page, Space, Backspace;
    hide Inv;
    FirstIndex(cfg.selectKeys, k);
    assert ProcessKey(lib, cfg, w, vk, ch, ctrl) == Select(lib, cfg, w, k);
    SelectPastThePage(lib, cfg, w, k);
    if k < |Shown(cfg, w.s)| {
      SelectActsOnShown(lib, cfg, w, k);
    }
  }

  // A space takes the first item of the page shown: outside the SmartAbc scheme at once,
  // in it once the list is armed; with no item it is not handled.
  lemma SpaceTakesFirst(lib: Engine.Lib, cfg: Config, w: World, ch: nat, ctrl: bool)
    requires Reachable(lib, cfg, w) && w.s.composing && !CtrlSelects(cfg, ch, ctrl)
    ensures var out := ProcessKey(lib, cfg, w, VK_SPACE, ch, ctrl);
            && (w.s.candidates == [] <==> !out.1.handled)
            && (w.s.scheme != SmartAbc && cfg.pageSize > 0 && w.s.candidates != [] ==>
                  |Shown(cfg, w.s)| > 0 && ActsOn(lib, cfg, w, 0, out))
            && (w.s.scheme == SmartAbc && w.s.armed && cfg.pageSize > 0 ==>
                  var off := World(w.s.(armed := false), w.e); |Shown(cfg, off.s)| > 0 && ActsOn(lib, cfg, off, 0, out))
  {
    hide View, Select, PageStart, Shown, ActsOn, Engine.Ok, Engine.Lawful, Mirrors;
    var off := World(w.s.(armed := false), w.e);
    SameListMirrors(lib, cfg, w, off);
    SelectPastThePage(lib, cfg, w, 0);
    SelectPastThePage(lib, cfg, off, 0);
    ShownItem(cfg, w.s, 0);
    ShownItem(cfg, off.s, 0);
    ViewReports(cfg, w.s.(armed := true), true, false, "");
    if |Shown(cfg, w.s)| > 0 {
      SelectActsOnShown(lib, cfg, w, 0);
    }
    if |Shown(cfg, off.s)| > 0 {
      SelectActsOnShown(lib, cfg, off, 0);
    }
  }

  // ---- Turning pages -------------------------------------------------------------------------

  // A key that only turns pages.
  predicate TurnsOnly(cfg: Config, s: Sess, vk: int, ch: nat, ctrl: bool) {
    var c := ToChar(ch);
    && s.composing && ch != 0 && TypedChar(cfg, s, vk, ch, ctrl).None? && !IsEditKey(vk)
    && c !in cfg.selectKeys && !IsDigit(c) && !IsAsciiLetter(ch)
    && (c in cfg.pagePrevKeys || c in cfg.pageNextKeys)
  }

  // A next-page key shows the following page, if there is one, and else stays; a
  // previous-page key the one before, if any. Nothing else changes but that the list is no
  // longer armed. With no candidates the key is not handled.
  lemma PageKeysTurn(lib: Engine.Lib, cfg: Config, w: World, vk: int, ch: nat, ctrl: bool)
    requires Engine.Lawful(lib) && Engine.Ok(lib, w.e) && Inv(cfg, w.s) && TurnsOnly(cfg, w.s, vk, ch, ctrl)
    requires cfg.pageSize > 0
    ensures var (w1, r) := ProcessKey(lib, cfg, w, vk, ch, ctrl);
            if w.s.candidates == [] then w1 == w && !r.handled
            else
              && r.handled && w1 == World(w.s.(page := w1.s.page, armed := false), w.e)
              && w1.s.page == if ToChar(ch) in cfg.pagePrevKeys then (if w.s.page > 0 then w.s.page - 1 else 0)
                              else if PageStart(cfg, w.s.page + 1) < |w.s.candidates| then w.s.page + 1
                              else w.s.page
  {
    hide View, Select, PageStart, PageTotal, Engine.Ok, Engine.Lawful, Append;
    ViewReports(cfg, w.s, false, false, "");
    if w.s.candidates != [] {
      PageExists(cfg, |w.s.candidates|, w.s.page);
      PageExists(cfg, |w.s.candidates|, w.s.page + 1);
      var back := ToChar(ch) in cfg.pagePrevKeys;
      assert ProcessKey(lib, cfg, w, vk, ch, ctrl) == Page(cfg, w, if back then -1 else 1);
      var page := Clamp(w.s.page + if back then -1 else 1, PageTotal(cfg, |w.s.candidates|) - 1);
      ViewReports(cfg, w.s.(page := page, armed := false), true, false, "");
    }
  }

  lemma PageExists(cfg: Config, n: nat, page: nat)
    requires n > 0 && cfg.pageSize > 0
    ensures PageTotal(cfg, n) > 0
    ensures PageStart(cfg, page) < n <==> page < PageTotal(cfg, n)
  {
    var size, total := cfg.pageSize, PageTotal(cfg, n);
    PagesAreCounted(cfg, n);
    if page < total - 1 {
      ProductGrows(page, total - 1, size);
    } else if page > total {
      ProductGrows(total, page, size);
    }
  }

  // ---- Ending ----------------------------------------------------------------------------------

  // Escape drops a composition: nothing is committed and nothing learnt.
  lemma EscapeDrops(lib: Engine.Lib, cfg: Config, w: World, ch: nat, ctrl: bool)
    requires Engine.Lawful(lib) && Engine.Ok(lib, w.e) && Inv(cfg, w.s) && w.s.composing && !CtrlSelects(cfg, ch, ctrl)
    ensures var (w1, r) := ProcessKey(lib, cfg, w, VK_ESCAPE, ch, ctrl);
            r.handled && !w1.s.composing && !r.hasCommit && w1.e.inst.dict == w.e.inst.dict && AtRest(w1.e)
  {
    hide View;
    ViewReports(cfg, Idled(w).s, true, false, "");
  }

  // Backspace with nothing chosen takes the last character off the input; with the only
  // one gone the composition ends without a commit.
  lemma BackspaceShortens(lib: Engine.Lib, cfg: Config, w: World, ch: nat, ctrl: bool)
    requires Engine.Lawful(lib) && Engine.Ok(lib, w.e) && Inv(cfg, w.s) && OnlyTyped(w.s) && !CtrlSelects(cfg, ch, ctrl)
    ensures var (w1, r) := ProcessKey(lib, cfg, w, VK_BACK, ch, ctrl); var n := |w.s.raw| - 1;
            && r.handled
            && (n == 0 ==> !w1.s.composing && !r.hasCommit && w1.e.inst.dict == w.e.inst.dict && AtRest(w1.e))
            && (n > 0 ==>
                  if !w1.s.composing then r.hasCommit
                  else w1.s.raw == w.s.raw[..n] && w1.s.page == 0 && !w1.s.armed && !r.hasCommit)
  {
    hide View, Recompute, Engine.Ok, Engine.Lawful;
    BackspaceKeeps(lib, cfg, w);
    FitsLess(w.s, cfg);
    var w0 := World(w.s.(raw := w.s.raw[..|w.s.raw| - 1]), w.e);
    ViewReports(cfg, Idled(w0).s, true, false, "");
    if w0.s.raw != "" {
      RecomputeKeepsRaw(lib, cfg, w0);
      RecomputeStartsOver(lib, cfg, w0);
    }
  }

  // Whatever ends a composition leaves the engine at rest, taught no more than the commit.
  lemma EndingResets(lib: Engine.Lib, cfg: Config, w: World, ev: Event)
    requires Engine.Lawful(lib) && Engine.Ok(lib, w.e) && Inv(cfg, w.s) && w.s.composing
    requires !Step(lib, cfg, w, ev).0.s.composing
    ensures AtRest(Step(lib, cfg, w, ev).0.e)
  {
    hide Step, View, Inv;
    StepKeepsInv(lib, cfg, w, ev);
  }
}
