// The pinyin engine as the session sees it: src/domains/input-engine/backend/libpinyin_wrapper.cpp
// over a foreign library of which only a contract is known.
module Engine {
  import opened Candidates

  // A candidate as the library hands it out; handle stands for the library's own pointer.
  datatype LookupCandidate = LookupCandidate(text: string, isSentence: bool, handle: nat)

  // One call that teaches the library, with the input it was made on.
  datatype Lesson =
    | Remembered(phrase: string, raw: string, chosen: seq<LookupCandidate>)
    | Trained(raw: string, chosen: seq<LookupCandidate>)

  // Everything the library's answers depend on: what it was taught, the text parsed since
  // the last reset, and the candidates chosen in it.
  datatype Instance = Instance(dict: seq<Lesson>, raw: string, chosen: seq<LookupCandidate>)

  // The library's queries. A negative choose is a refusal.
  datatype Lib = Lib(
    parsedLength: Instance -> nat,
    guess: (Instance, nat) -> seq<LookupCandidate>,
    choose: (Instance, nat, LookupCandidate) -> int,
    sentence: Instance -> string)

  // The contract: choosing a candidate that was guessed at the cursor moves the cursor
  // on, and while some of the input is left there is a sentence to show.
  ghost predicate Contract(lib: Lib) {
    forall inst: Instance, cursor: nat, i: nat | i < |lib.guess(inst, cursor)| ::
      var c := lib.guess(inst, cursor)[i];
      && lib.choose(inst, cursor, c) > cursor
      && (lib.choose(inst, cursor, c) < lib.parsedLength(inst) ==>
            lib.sentence(inst.(chosen := inst.chosen + [c])) != "")
  }

  datatype State = State(
    ready: bool, inst: Instance, cursor: nat, parsedLen: nat,
    candidates: seq<CandidateItem>, handles: seq<LookupCandidate>)

  function ToItem(c: LookupCandidate): CandidateItem {
    CandidateItem(c.text, c.isSentence, -1, "")
  }

  function ToItems(cs: seq<LookupCandidate>): (items: seq<CandidateItem>)
    ensures |items| == |cs|
    ensures forall i :: 0 <= i < |items| ==> items[i] == ToItem(cs[i])
  {
    seq(|cs|, i requires 0 <= i < |cs| => ToItem(cs[i]))
  }

  function Refreshed(lib: Lib, e: State): State {
    if !e.ready then e.(candidates := [], handles := [])
    else
      var cs := lib.guess(e.inst, e.cursor);
      e.(candidates := ToItems(cs), handles := cs)
  }

  function Parsed(lib: Lib, e: State, raw: string): State {
    if !e.ready then e
    else
      var inst := Instance(e.inst.dict, raw, []);
      Refreshed(lib, e.(inst := inst, cursor := 0, parsedLen := lib.parsedLength(inst)))
  }

  function Sentence(lib: Lib, e: State): string {
    if !e.ready then "" else lib.sentence(e.inst)
  }

  // State, whether the sentence is complete, and the sentence.
  function Chosen(lib: Lib, e: State, index: nat): (State, bool, string) {
    if !e.ready || index >= |e.handles| then (e, false, "")
    else
      var c := e.handles[index];
      var k := lib.choose(e.inst, e.cursor, c);
      if k < 0 then (e, false, "")
      else
        var e1 := e.(inst := e.inst.(chosen := e.inst.chosen + [c]), cursor := k);
        if k >= e.parsedLen then (e1, true, Sentence(lib, e1))
        else (Refreshed(lib, e1), false, Sentence(lib, e1))
  }

  function ResetState(e: State): State {
    if !e.ready then e
    else State(true, Instance(e.inst.dict, "", []), 0, 0, [], [])
  }

  function Taught(e: State, lesson: Lesson): State {
    if !e.ready then e else e.(inst := e.inst.(dict := e.inst.dict + [lesson]))
  }

  // RememberUserInput then Train, as the session calls them on a committed phrase.
  function Learned(e: State, phrase: string): State {
    var e1 := if phrase == "" then e else Taught(e, Remembered(phrase, e.inst.raw, e.inst.chosen));
    Taught(e1, Trained(e1.inst.raw, e1.inst.chosen))
  }

  // What holds of the engine between calls: its list is the library's guess at the cursor.
  ghost predicate Ok(lib: Lib, e: State) {
    && e.candidates == ToItems(e.handles)
    && (e.handles != [] ==> e.ready && e.handles == lib.guess(e.inst, e.cursor)
                            && e.parsedLen == lib.parsedLength(e.inst.(chosen := [])))
  }

  // How much of the input is left to choose.
  function Left(e: State): nat {
    if e.cursor < e.parsedLen then e.parsedLen - e.cursor else 0
  }

  // parsedLength looks at the text only, not at what was chosen in it.
  ghost predicate ParsesTextOnly(lib: Lib) {
    forall inst: Instance :: lib.parsedLength(inst) == lib.parsedLength(inst.(chosen := []))
  }

  ghost predicate Lawful(lib: Lib) {
    Contract(lib) && ParsesTextOnly(lib)
  }

  // A valid choice completes the sentence or leaves strictly less to choose, with a
  // sentence to show; an invalid one changes nothing.
  lemma ChooseAdvances(lib: Lib, e: State, index: nat)
    requires Lawful(lib) && Ok(lib, e)
    ensures var (e1, done, sentence) := Chosen(lib, e, index);
            && (index >= |e.handles| ==> e1 == e && !done)
            && (index < |e.handles| && !done ==> Left(e1) < Left(e) && sentence != "")
            && (!done ==> Ok(lib, e1)) && (sentence != "" ==> e1.ready) && (!e.ready ==> e1 == e)
            && e1.inst.raw == e.inst.raw && e1.inst.dict == e.inst.dict && e1.ready == e.ready
            && e1.parsedLen == e.parsedLen
  {
    if index < |e.handles| {
      var c := lib.guess(e.inst, e.cursor)[index];
      assert lib.choose(e.inst, e.cursor, c) > e.cursor;
    }
  }

  lemma ParsedIsOk(lib: Lib, e: State, raw: string)
    requires Ok(lib, e)
    ensures Ok(lib, Parsed(lib, e, raw))
  {
  }

  // What the wrapper documents of the library beside the contract: whatever it offers, the
  // best sentence comes first.
  ghost predicate SentenceFirst(lib: Lib) {
    forall inst: Instance, cursor: nat | lib.guess(inst, cursor) != [] ::
      lib.guess(inst, cursor)[0].text == lib.sentence(inst) && lib.sentence(inst) != ""
  }

  // A library to which each letter is a syllable with three readings, 字 the likeliest.
  // It offers the whole sentence, then the readings of the letter at the cursor.
  const SPELLER := Lib(
    (inst: Instance) => |inst.raw|,
    (inst: Instance, cursor: nat) => if cursor < |inst.raw| then Readings(Spelt(inst)) else [],
    (inst: Instance, cursor: nat, c: LookupCandidate) => if c.isSentence then |inst.raw| else cursor + 1,
    (inst: Instance) => Spelt(inst))

  function Readings(sentence: string): seq<LookupCandidate> {
    [LookupCandidate(sentence, true, 0), LookupCandidate("字", false, 1),
     LookupCandidate("子", false, 2), LookupCandidate("孜", false, 3)]
  }

  // The text chosen so far.
  function Picked(chosen: seq<LookupCandidate>): string {
    if chosen == [] then ""
    else
      var last := chosen[|chosen| - 1];
      if last.isSentence then last.text else Picked(chosen[..|chosen| - 1]) + last.text
  }

  function Likeliest(n: nat): (s: string)
    ensures |s| == n
  {
    seq(n, i => '字')
  }

  function Spelt(inst: Instance): (s: string)
    ensures inst.raw != "" ==> s != ""
  {
    var picked := Picked(inst.chosen);
    picked + Likeliest(if |picked| < |inst.raw| then |inst.raw| - |picked| else 0)
  }

  lemma SpellerIsLawful()
    ensures Lawful(SPELLER) && SentenceFirst(SPELLER)
  {
    forall inst: Instance, cursor: nat | SPELLER.guess(inst, cursor) != []
      ensures SPELLER.guess(inst, cursor)[0].text == SPELLER.sentence(inst) && SPELLER.sentence(inst) != ""
    {
      assert SPELLER.guess(inst, cursor) == Readings(Spelt(inst));
    }
  }

  // The contract can be met, by a library that both advances and completes.
  lemma ContractCanBeMet(e: State, raw: string)
    requires e.ready && |raw| > 1
    ensures Lawful(SPELLER) && SentenceFirst(SPELLER)
    ensures var e1 := Parsed(SPELLER, e, raw);
            && Ok(SPELLER, e1) && |e1.handles| == 4
            && Chosen(SPELLER, e1, 0).1
            && !Chosen(SPELLER, e1, 1).1 && Left(Chosen(SPELLER, e1, 1).0) == |raw| - 1
  {
    SpellerIsLawful();
    var inst := Instance(e.inst.dict, raw, []);
    assert SPELLER.guess(inst, 0) == Readings(Spelt(inst));
  }

  class LibPinyinEngine {
    const lib: Lib
    const ready: bool
    var inst: Instance
    var cursor: nat
    var parsedLen: nat
    var candidates: seq<CandidateItem>
    var handles: seq<LookupCandidate>

    constructor (lib: Lib, ready: bool)
      ensures this.lib == lib && View() == State(ready, Instance([], "", []), 0, 0, [], [])
    {
      this.lib, this.ready := lib, ready;
      inst, cursor, parsedLen, candidates, handles := Instance([], "", []), 0, 0, [], [];
    }

    function View(): State
      reads this
    {
      State(ready, inst, cursor, parsedLen, candidates, handles)
    }

    method RecomputeCandidates()
      modifies this
      ensures View() == Refreshed(lib, old(View()))
    {
      candidates, handles := [], [];
      if !ready {
        return;
      }
      var cs := lib.guess(inst, cursor);
      for i := 0 to |cs|
        invariant inst == old(inst) && cursor == old(cursor) && parsedLen == old(parsedLen)
        invariant handles == cs[..i]
        invariant |candidates| == i && forall j :: 0 <= j < i ==> candidates[j] == ToItem(cs[j])
      {
        candidates := candidates + [CandidateItem(cs[i].text, cs[i].isSentence, -1, "")];
        handles := handles + [cs[i]];
      }
      assert cs[..|cs|] == cs && candidates == ToItems(cs);
    }

    method ParseAndGuess(raw: string)
      modifies this
      ensures View() == Parsed(lib, old(View()), raw)
    {
      if !ready {
        return;
      }
      inst, cursor := Instance(inst.dict, raw, []), 0;
      parsedLen := lib.parsedLength(inst);
      RecomputeCandidates();
    }

    method Choose(index: nat) returns (done: bool, sentence: string)
      modifies this
      ensures (View(), done, sentence) == Chosen(lib, old(View()), index)
    {
      if !ready || index >= |handles| {
        return false, "";
      }
      var c := handles[index];
      var newCursor := lib.choose(inst, cursor, c);
      if newCursor < 0 {
        return false, "";
      }
      inst := inst.(chosen := inst.chosen + [c]);
      cursor := newCursor;
      sentence := CurrentSentence();
      if cursor >= parsedLen {
        return true, sentence;
      }
      RecomputeCandidates();
      done := false;
    }

    method CurrentSentence() returns (s: string)
      ensures s == Sentence(lib, View())
    {
      if !ready {
        return "";
      }
      s := lib.sentence(inst);
    }

    method Reset()
      modifies this
      ensures View() == ResetState(old(View()))
    {
      if !ready {
        return;
      }
      inst, cursor, parsedLen, candidates, handles := Instance(inst.dict, "", []), 0, 0, [], [];
    }

    method RememberUserInput(phrase: string)
      modifies this
      ensures View() == if phrase == "" then old(View())
                        else Taught(old(View()), Remembered(phrase, old(inst.raw), old(inst.chosen)))
    {
      if !ready || phrase == "" {
        return;
      }
      inst := inst.(dict := inst.dict + [Remembered(phrase, inst.raw, inst.chosen)]);
    }

    method Train()
      modifies this
      ensures View() == Taught(old(View()), Trained(old(inst.raw), old(inst.chosen)))
    {
      if !ready {
        return;
      }
      inst := inst.(dict := inst.dict + [Trained(inst.raw, inst.chosen)]);
    }
  }
}
