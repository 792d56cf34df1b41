# myabc input engine: a verified model

A Dafny model of the input engine behind the myabc Chinese input method, and proofs of what
it promises. Four connected pieces are modelled.

- **The composing session.** `SessionSpec` says, as functions of the session's state and of
  the engine's, what every operation of `session.cpp` does; `Session` is the class that
  updates its fields in place and is proved to do exactly that. `SessionInv`,
  `SessionMirror`, `SessionRuns`, `TwoStepSpace` and `Learning` prove what holds over every
  run; `KeyLaws` says what each key does as whoever presses it sees it. `Engine` is the pinyin
  engine, `Sources` and `Candidates` the candidate sources, the
  registry and the stroke filter, `KeyRouter` the text service's own guess at which keys
  matter.
- **Numbers read as Chinese.** `Decimal` parses, `CnNumber` prints, `CnDecoder` is an
  independent reader of Chinese numerals, and the two are proved inverse with exact bounds.
  `CnShape` and `CnGlyphs` say what a reading looks like, which the reader does not see;
  `NumberAgreement` that the candidates offered
  for one number denote it.
- **The dispatcher.** `DispatcherSpec`, `DispatcherRuns` and the classes of `Dispatcher`:
  many sessions sharing one engine, the cache of pending views, the global scheme, the
  autosave counter. `DispatcherLaws` says what each request does as the text service and
  the candidate window see it, `DispatcherMirror` when a session among others is shown and
  selects what the shared engine holds.
- **The pipe.** `Frame` is the framing under any cutting of transfers, `Transport` the two
  ends that use it, `Lockstep` the request/response protocol as a machine whose steps are
  single transfers of bytes, `EndToEnd` that machine with the dispatcher as its server.

Code that changes things step by step is modelled by methods and classes proved equal to a
specification function; the theorems are lemmas about that function.

## How the foreign engine is modelled

libpinyin is a value of type `Engine.Lib`: four functions of what it was taught, the text it
was given and the candidates chosen so far. The proofs use only `Engine.Lawful`: choosing a
candidate it offered moves the cursor on; while input is left it has a sentence to show; how
much of a text it can parse depends on the text alone. That training alone changes its
answers is in the shape of the model. The first of these is needed: a library that refused
or repeated its single candidate would make `SelectCandidate` recurse for ever. With it, and
however other sessions use the engine in between, the recursion ends (the `decreases` clause
of `SessionSpec.Select`). `Engine.ContractCanBeMet` gives a library that meets the contract.
One result, `SessionRuns.CommitTakesFirst`, also uses what the wrapper documents of the
library (`src/domains/input-engine/backend/libpinyin_wrapper.hpp:11-15`): the best sentence
comes first in its list (`Engine.SentenceFirst`).

Results that speak of the engine's own list (`SessionMirror`, most of `SessionRuns`) are for
a session that alone uses the engine; `DispatcherMirror` carries them to a session among
others, as long as none of these moves the engine while it composes on the engine's
candidates. While nothing is chosen this is exactly when it is disturbed
(`DispatcherMirror.DisturbedExactly`), and `Deviations.SharingDisturbs` gives an input. The session invariant, the
two-step space, what the engine is taught and all other dispatcher results hold with the
engine shared.

## What the code does that its comments do not say

For each of these but the first, `Deviations` gives an input reached from a new session.

- The place-value reading and the capital amount lose a unit from 10^16 yuan on, where the
  text is that of a smaller number (`CnDecoder.FirstCollision`); the header states no bound
  (`src/shared/cn-number/cn_number.hpp:25-35`).
- `SelectCandidate` does not check its index against the page size: an index off the page
  picks an item that is not shown (`SelectsOffThePage`; exactly when,
  `SessionRuns.SelectPastThePage`).
- `CommitComposition` is documented as committing the first candidate, the best sentence
  (`src/domains/input-engine/logic/session/session.hpp:91`). It commits the engine's
  sentence, which stroke digits may have dropped from the list (`CommitIsNotFirst`; exactly
  when, `SessionRuns.CommitTakesFirst`). The model follows the code.
- The text service claims the keys a session would handle, but with the default keys not the
  digit 0 continuing a number (`ZeroGoesUnclaimed`), and not the next deviation's keys;
  exactly these (`KeyRouter.RouterCoverage`, `KeyRouter.DefaultGap`).
- A session takes the low eight bits of a character code, as the cast to `char` does
  (`WideCharacter`): idle, it handles a code from 256 on whose low bits are a punctuation
  mark, which the text service does not claim.
- Backspace is to take back a choice and guess afresh
  (`src/domains/input-engine/logic/session/session.cpp:44-47`). Where the input read afresh
  offers exactly one candidate, that one is chosen again by itself; unless this completes
  the sentence, every further Backspace leaves the session exactly as it is
  (`BackspaceStays`; exactly when, `SessionRuns.BackspaceTakesBack`).

## Model

| member | source | states |
|---|---|---|
| SessionInv.StepKeepsInv | src/domains/input-engine/logic/session/session.cpp:28-220 | Every operation keeps: composing iff there is input, an idle session is blank, the page starts inside the list, only a SmartAbc list of two or more is armed, a partial sentence means an engine source and a working engine, no lone candidate waits outside Wubi, Wubi input is at most four letters and only SmartAbc input holds digits; what is reported is the view of the new state; a report of not handled means nothing at all changed; a commit ends the composition |
| SessionInv.SourceAlwaysFound | src/domains/input-engine/logic/candidate/source_registry.cpp:20-39 | In Chinese mode an input has a source exactly when it is not empty, whatever the scheme |
| SessionInv.SelectKeeps | src/domains/input-engine/logic/session/session.cpp:124-166 | A selection keeps the invariant through any number of automatic selections, and is handled exactly when the index falls inside the list |
| SessionInv.RecomputeKeeps | src/domains/input-engine/logic/session/session.cpp:278-319 | Any input a composition can have is always handled and keeps the invariant: the reset for a missing source is never reached |
| SessionInv.ProcessKeyKeeps | src/domains/input-engine/logic/session/session.cpp:28-122 | Any key, in any state and scheme, keeps the invariant, and changes nothing when not handled |
| SessionInv.PageKeeps | src/domains/input-engine/logic/session/session.cpp:168-178 | Paging by any amount stays on a page that starts inside the list, for any page size |
| SessionInv.SetSchemeKeeps | src/domains/input-engine/logic/session/session.cpp:211-220 | A change of scheme keeps the invariant under the new scheme's rules, drops a composition with the engine at rest, and leaves the field hint; switching to the same scheme changes nothing |
| KeyLaws.EveryReportTells | src/domains/input-engine/logic/session/session.cpp:321-342 | Whatever the operation, in any reachable state, shared engine or not, the report tells the state it leaves: the preedit is the input as typed until something is chosen, then the sentence so far, and empty exactly when nothing is composed; armed is reported exactly when armed; the texts are those of the shown page, as many as there are and fit; the page count covers the list and no more |
| KeyLaws.KeyTypes | src/domains/input-engine/logic/session/session.cpp:81-121 | A letter, a digit that continues the input, or a first punctuation mark: either the input is longer by just that character, on the first page with nothing armed, and the report shows it, or it was completed and committed; Wubi letters never commit by themselves |
| KeyLaws.OtherKeysAddNothing | src/domains/input-engine/logic/session/session.cpp:81-121 | Any other key leaves the input no longer; the fifth letter of a Wubi code is swallowed and changes nothing; when idle such a key is not handled |
| KeyLaws.PunctuationCommits | src/domains/input-engine/logic/session/session.cpp:116-120 | With nothing composed each of the eight marks commits its own full-width form and leaves nothing composed |
| KeyLaws.CompositionOffers | src/domains/input-engine/logic/candidate/source_registry.cpp:27-39 | While nothing is chosen the candidates are the words of the Wubi code in table order, the readings of the number, or what the engine offers for the pinyin of the input and its strokes let through |
| KeyLaws.SelectKeyTakesItsItem | src/domains/input-engine/logic/session/session.cpp:35-40 | With Ctrl, in an armed SmartAbc list, or as a digit in the other schemes: the k-th select key takes the k-th item of the page shown, committed as shown or chosen from the engine under that text; it is unhandled exactly when the list does not go on that far |
| KeyLaws.SpaceTakesFirst | src/domains/input-engine/logic/session/session.cpp:57-79 | A space takes the first item of the page shown, at once outside SmartAbc, in it once armed, and is unhandled exactly when there is no candidate |
| KeyLaws.PageKeysTurn | src/domains/input-engine/logic/session/session.cpp:98-99 | A next-page key shows the following page if there is one and else stays, a previous-page key the one before if any; nothing else changes but disarming; with no candidates it is unhandled |
| KeyLaws.EscapeDrops | src/domains/input-engine/logic/session/session.cpp:56 | Escape ends a composition without a commit, the engine at rest and taught nothing |
| KeyLaws.BackspaceShortens | src/domains/input-engine/logic/session/session.cpp:43-55 | With nothing chosen Backspace takes the last character off; with the only one gone the composition ends without a commit |
| KeyLaws.EndingResets | src/domains/input-engine/logic/session/session.cpp:354-362 | Whatever ends a composition leaves the engine with no input, no choices and no candidates |
| SessionMirror.DisplayedIsEngines | src/domains/input-engine/logic/session/session.cpp:143-148 | Every item displayed from the engine maps to a valid engine index that holds the same text |
| SessionMirror.SelectMirrors | src/domains/input-engine/logic/session/session.cpp:124-166 | After a selection and all it triggers, the list displayed is again the engine's own |
| SessionMirror.StepMirrors | src/domains/input-engine/logic/session/session.cpp:28-220 | Every operation keeps the displayed list tied to the engine's, across filtering, partial choices, paging, Backspace and changes of scheme |
| SessionMirror.StrokeNarrows | src/domains/input-engine/logic/candidate/pinyin_candidate_source.cpp:23-31 | One more stroke digit parses the same pinyin and offers an order-preserving part of the old list; every survivor stands for the same engine item, no unlisted character is dropped, and exactly the items that pass stay |
| SessionMirror.PinyinKeepsExactly | src/domains/input-engine/logic/candidate/pinyin_candidate_source.cpp:23-31 | Of the engine's list the pinyin source keeps everything for an input without strokes, else exactly the items whose first character has no code or a code that begins with the strokes of the input, one by one |
| SessionRuns.EveryRunShowsItsEngine | src/domains/input-engine/logic/session/session.cpp:28-362 | In every state of every run from a new session the invariant holds and each displayed item is the engine's |
| SessionRuns.SelectActsOnShown | src/domains/input-engine/logic/session/session.cpp:124-166 | Selecting an index of the shown page commits the item shown there, or makes the engine choose an item of that very text; then the finished sentence is committed, the rest is shown, or, when one candidate is left, the outcome is that of selecting it |
| SessionRuns.SelectPastThePage | src/domains/input-engine/logic/session/session.cpp:127-129 | An index is taken exactly when the list goes on that far; it is that of a shown item exactly when it is also below the page size |
| SessionRuns.EveryCandidateCanBeShown | src/domains/input-engine/logic/session/session.cpp:168-178 | Every candidate is on exactly one page; paging by the difference shows that page with the candidate on it and changes nothing else but disarming, so no clamping hides an item |
| SessionRuns.CommitSelectsFirst | src/domains/input-engine/logic/session/session.cpp:180-199 | For an atomic source, on any page, committing is selecting the first item of the list, or gives the raw input when there is none |
| SessionRuns.CommitTakesFirst | src/domains/input-engine/logic/session/session.cpp:180-199 | With a library that puts its sentence first, the text committed is that of the first candidate if and only if the source is atomic, something is chosen already, or the stroke digits of the input let the sentence through |
| SessionRuns.CommitGives | src/domains/input-engine/logic/session/session.cpp:180-199 | What is committed: the first candidate of an atomic source, else the engine's sentence (the raw input, if it has none), which after a partial choice is the preedit shown |
| SessionRuns.LongerMeansTyped | src/domains/input-engine/logic/session/session.cpp:81-104 | A key that makes the input longer appended exactly one character and produced the candidates afresh; one that leaves its length leaves the input, and teaches the engine nothing |
| SessionRuns.BackspaceUndoes | src/domains/input-engine/logic/session/session.cpp:43-55 | After a character appended to a composition with nothing chosen, Backspace restores every field if and only if the session was left composing with nothing chosen; then also the view and the engine in use, on the first page |
| SessionRuns.BackspaceUndoesKey | src/domains/input-engine/logic/session/session.cpp:43-104 | After any key at all in such a composition, Backspace restores it if and only if the key made the input longer and chose nothing, or chose something and left the input alone |
| SessionRuns.BackspaceUndoesChoice | src/domains/input-engine/logic/session/session.cpp:44-47 | A choice from the list, however many followed by themselves, is undone by Backspace if and only if it left the session composing |
| SessionRuns.BackspaceTakesBack | src/domains/input-engine/logic/session/session.cpp:44-47 | With the engine shared or not: where something is chosen, Backspace leaves nothing chosen if and only if the input, read afresh, does not offer exactly one candidate; if a choice is left standing, a second Backspace does exactly what the first did |
| TwoStepSpace.ArmedOnlyBySpace | src/domains/input-engine/logic/session/session.cpp:57-79 | A session is armed after an event only if the event left it as it was, or was a first space on two or more candidates that changed nothing else and reported the arming |
| TwoStepSpace.SpaceTakesTwoSteps | src/domains/input-engine/logic/session/session.cpp:57-79 | Over any run, with the engine shared: a space on two or more SmartAbc candidates either arms, or was preceded by a space that armed and reported the page still shown, with the session unchanged since |
| TwoStepSpace.ArmedSince | src/domains/input-engine/logic/session/session.cpp:64-76 | In any run an armed state has a first space behind it, and only changes of the field hint in between |
| TwoStepSpace.TwoSpacesSelectFirst | src/domains/input-engine/logic/session/session.cpp:72-78 | Two spaces in a row are one selection of the first item |
| Learning.StepTeaches | src/domains/input-engine/logic/session/session.cpp:137-199 | Whoever else uses the engine, an operation teaches it exactly the phrase it commits on the engine's word; atomic sources and the raw fallback teach nothing. For a session that alone uses it, the phrase is taught on the pinyin of the session's input as the operation left it, and is the engine's sentence for that |
| Learning.LearningTrace | src/domains/input-engine/logic/session/session.cpp:344-352 | The phrases taught over a run of a session are exactly the engine's sentences committed, in order; the dictionary does not change with learning off |
| DispatcherRuns.LearningOverRun | src/domains/input-engine/logic/session/session.cpp:344-352 | Over any requests to any sessions sharing the engine, the phrases taught are exactly the engine's sentences answered as commits, in order; the dictionary does not change with learning off |
| DispatcherRuns.HandleTeaches | src/domains/input-engine/logic/dispatcher.cpp:38-81 | One request to any session teaches exactly the phrase its answer commits on the engine's word, or nothing |
| Learning.SavesAreOneInN | src/domains/input-engine/logic/learning_policy.hpp:28-33 | Of any number of commits exactly floor((count + commits) / N) call for a save, none when N is 0 |
| Learning.AutosaveCounter.OnCommit | src/domains/input-engine/logic/learning_policy.hpp:28-33 | One step of that counter |
| Session.Session.ProcessKey | src/domains/input-engine/logic/session/session.cpp:28-122 | Does what the specification of a key says, for session and engine |
| Session.Session.SelectCandidate | src/domains/input-engine/logic/session/session.cpp:124-166 | Ends, and does what the specification of a selection says |
| Session.Session.Recompute | src/domains/input-engine/logic/session/session.cpp:278-319 | Does what the specification of producing candidates afresh says |
| Session.Session.RouteDigitKeyPinyin | src/domains/input-engine/logic/session/session.cpp:222-266 | Digits in SmartAbc: part of a number or of the strokes until armed, selections after, otherwise left to the next rule |
| Session.Session.RouteDigitKeyDirect | src/domains/input-engine/logic/session/session.cpp:268-276 | Digits elsewhere: a selection, or not handled |
| Session.Session.PageCandidates | src/domains/input-engine/logic/session/session.cpp:168-178 | Moves to the clamped page and disarms |
| Session.Session.CommitComposition | src/domains/input-engine/logic/session/session.cpp:180-199 | Commits the engine's sentence, the raw input or the first atomic candidate, training before the reset |
| Session.Session.CancelComposition | src/domains/input-engine/logic/session/session.cpp:201-205 | Resets a composition without commit; not handled when idle |
| Session.Session.FocusOut | src/domains/input-engine/logic/session/session.cpp:207 | Resets session and engine, whatever the state |
| Session.Session.SetFieldHint | src/domains/input-engine/logic/session/session.cpp:209 | Changes the hint alone |
| Session.Session.SetScheme | src/domains/input-engine/logic/session/session.cpp:211-220 | Switches the scheme, dropping a composition, and says whether there was one |
| Session.Session.BuildViewResult | src/domains/input-engine/logic/session/session.cpp:321-342 | Reports the shown page, page count, preedit and armed index of the present state |
| Session.Session.MaybeTrain | src/domains/input-engine/logic/session/session.cpp:344-352 | Remembers then trains, or nothing with learning off or no text |
| Session.Session.ResetToIdle | src/domains/input-engine/logic/session/session.cpp:354-362 | Blanks the session and resets the engine |
| Engine.ChooseAdvances | src/domains/input-engine/backend/libpinyin_wrapper.cpp:133-150 | A valid choice completes the sentence or leaves strictly less to choose with a sentence to show; an invalid one changes nothing |
| Engine.ContractCanBeMet | src/domains/input-engine/backend/libpinyin_wrapper.cpp:94-150 | Some library meets the contract, and both advances and completes |
| Engine.LibPinyinEngine.ParseAndGuess | src/domains/input-engine/backend/libpinyin_wrapper.cpp:94-103 | Forgets choices, parses, and lists the candidates at the start |
| Engine.LibPinyinEngine.RecomputeCandidates | src/domains/input-engine/backend/libpinyin_wrapper.cpp:105-131 | Both lists become the library's guess at the cursor, entry by entry |
| Engine.LibPinyinEngine.Choose | src/domains/input-engine/backend/libpinyin_wrapper.cpp:133-150 | Moves the cursor, reports the sentence, and refreshes the lists unless the sentence is complete |
| Engine.LibPinyinEngine.Reset | src/domains/input-engine/backend/libpinyin_wrapper.cpp:163-170 | Forgets the input but not the dictionary |
| Sources.LooksLikeNumberBody | src/domains/input-engine/logic/candidate/number_currency_source.cpp:15-24 | True exactly for digits, points and minus signs with a digit among them |
| Sources.CheckHandles | src/domains/input-engine/logic/candidate/number_currency_source.cpp:27-35 | Each source's test of an input |
| Sources.Resolve | src/domains/input-engine/logic/candidate/source_registry.cpp:20-39 | The first source in the registry that takes an input is the one the scheme and the input determine; in Chinese mode there is none exactly for an empty input |
| Sources.FirstIsInCharge | src/domains/input-engine/logic/candidate/source_registry.cpp:20-39 | Whichever source is first in the list to take an input, it is the one in charge of it |
| Sources.NumberInputs | src/domains/input-engine/logic/candidate/number_currency_source.cpp:15-35 | A number input is the lead character, then digits, points and minus signs with a digit among them; every text that denotes an integer or an amount is one |
| Sources.Produce | src/domains/input-engine/logic/candidate/pinyin_candidate_source.cpp:23-31 | Candidates and engine after any source produced for an input |
| Sources.ProduceNumber | src/domains/input-engine/logic/candidate/number_currency_source.cpp:37-61 | The readings offered for a number body, in order |
| Sources.ProduceWubi | src/domains/input-engine/logic/candidate/wubi_candidate_source.hpp:28-34 | One candidate for each word of the code, in order |
| Candidates.SplitPinyinAndBihuo | src/domains/input-engine/logic/candidate/bihuo_filter.cpp:16-26 | Splits off exactly the trailing stroke digits, unless nothing or everything is one; the parts make up the input |
| Candidates.SplitsExactly | src/domains/input-engine/logic/candidate/bihuo_filter.cpp:16-26 | That split is the only one with a part before it that is not a stroke digit at its end and nothing but stroke digits after it |
| Candidates.FilterByCodes | src/domains/input-engine/logic/candidate/bihuo_filter.cpp:35-46 | In terms of characters and codes: an item stays, marked with its index, if and only if its first character has no code or one that begins with the strokes |
| Candidates.FilterByBihuo | src/domains/input-engine/logic/candidate/bihuo_filter.cpp:28-49 | The list filtered by strokes, with engine indices |
| Candidates.FilterKeeps | src/domains/input-engine/logic/candidate/bihuo_filter.cpp:28-49 | The filter keeps exactly the items that pass, in order, each marked with its index in the full list |
| Candidates.OneMoreStroke | src/domains/input-engine/logic/candidate/bihuo_filter.cpp:28-49 | Filtering by one more stroke keeps an ordered part of the list, with the same engine items |
| Candidates.AppendStroke | src/domains/input-engine/logic/candidate/bihuo_filter.cpp:16-26 | Another stroke digit leaves the pinyin part and lengthens the strokes |
| KeyRouter.RouterCoverage | src/domains/tsf-service/logic/key_router.cpp:30-57 | In Chinese mode, for any key, any configuration of keys and any reachable state: a key the session would handle goes unclaimed exactly when it continues an unarmed SmartAbc number or stroke input and is no configured key, or starts a composition by the low eight bits of a wider code (and is not the scheme hotkey) |
| KeyRouter.DefaultGap | src/domains/tsf-service/logic/key_router.cpp:30-57 | With the default keys the first of these is exactly the digit 0 continuing an unarmed number |
| KeyRouter.EnglishClaimsHotkeyOnly | src/domains/tsf-service/logic/key_router.cpp:34-36 | In English mode a key is claimed exactly when it is the scheme hotkey, which is claimed in either mode |
| KeyRouter.ClaimedInVain | src/domains/tsf-service/logic/key_router.cpp:38-56 | A key claimed that the session does not handle: never when idle; in a composition only with no candidates, or a select key, or a digit outside SmartAbc |
| Decimal.ToUnsignedDigitString | src/shared/cn-number/cn_number.cpp:83-91 | The decimal text of a number |
| Decimal.DigitsOfDenotes | src/shared/cn-number/cn_number.cpp:83-91 | That text denotes the number, without leading zero and no longer than need be |
| Decimal.ParseInteger | src/shared/cn-number/cn_number.cpp:153-171 | An optional minus and one or more digits, and nothing else, with its value |
| Decimal.ParseDecimalToCents | src/shared/cn-number/cn_number.cpp:173-218 | The amount in cents of a decimal text, or nothing |
| Decimal.CentsOfAcceptsExactly | src/shared/cn-number/cn_number.cpp:173-218 | Accepted are exactly an optional minus, digits, an optional point and digits, not both parts empty; the value is the sign times the magnitude rounded to the cent, for fractions of any length |
| Decimal.RoundCentsIsNearest | src/shared/cn-number/cn_number.cpp:195-213 | That rounding is the only c with c <= 100x + 1/2 < c + 1 |
| Decimal.RoundToTwo | src/shared/cn-number/cn_number.cpp:195-212 | Rounding on the third decimal, with the carry from 99 cents into the whole part |
| Decimal.RoundCentsLong | src/shared/cn-number/cn_number.cpp:195-213 | Looking at the third decimal alone rounds a fraction of any length correctly |
| CnNumber.ConvertUnsignedDigits | src/shared/cn-number/cn_number.cpp:28-81 | The single-pass printer prints the reading defined digit by digit |
| CnNumber.PlaceValueChinese | src/shared/cn-number/cn_number.cpp:113-120 | The place-value reading of any integer |
| CnNumber.UppercaseCurrency | src/shared/cn-number/cn_number.cpp:122-151 | The capital amount of any number of cents |
| CnNumber.DigitByDigitChinese | src/shared/cn-number/cn_number.cpp:95-111 | The digit-by-digit reading, or nothing when another character occurs |
| CnDecoder.PlaceReadingRoundTrip | src/shared/cn-number/cn_number.cpp:28-120 | An independent reader gets n back from its reading if and only if its magnitude is below 10^16 |
| CnDecoder.AmountReadingRoundTrip | src/shared/cn-number/cn_number.cpp:28-151 | The same for capital amounts, if and only if below 10^18 cents, with every case of 角, 分, 零, 整 and the sign |
| CnDecoder.ReadingsAreInjective | src/shared/cn-number/cn_number.cpp:113-151 | Below these bounds different numbers have different readings |
| CnDecoder.FirstCollision | src/shared/cn-number/cn_number.cpp:39-43 | At the bounds the readings are those of 1 and of one yuan |
| CnDecoder.YearReadingRoundTrip | src/shared/cn-number/cn_number.cpp:95-111 | Accepted are exactly non-empty texts of digits and minus signs, and each is got back from its reading |
| CnShape.ReadingShape | src/shared/cn-number/cn_number.cpp:28-81 | For any positive number the first glyph is fixed by the leading digit and its place, 两 is nowhere else, 零 is never first, last or doubled, and there is exactly one for each gap of zeros |
| CnGlyphs.AmountReadingGlyphs | src/shared/cn-number/cn_number.cpp:122-151 | For every amount: capital numerals only, 圆 exactly once, 负 in front exactly when negative, 零 before 圆 exactly when there is no whole yuan, 整 at the end and nowhere else exactly when there is nothing below one, 零 after 圆 exactly when there is 分 alone, and 拾佰仟 always count a digit but at the front |
| CnGlyphs.PlaceReadingGlyphs | src/shared/cn-number/cn_number.cpp:113-120 | For every integer: everyday numerals only, 负 in front exactly when negative, 十百千 always count a digit but at the front, 零 alone exactly for zero |
| CnGlyphs.YearReadingGlyphs | src/shared/cn-number/cn_number.cpp:95-111 | One glyph a character, 〇 exactly for 0 and never 零, 负 exactly for a minus |
| NumberAgreement.IntegerReadingsAgree | src/domains/input-engine/logic/candidate/number_currency_source.cpp:43-53 | The four candidates for an integer all denote it if and only if its magnitude is below 10^16; digit by digit and literally always |
| NumberAgreement.AmountReadingAgrees | src/domains/input-engine/logic/candidate/number_currency_source.cpp:54-60 | With a point the capital amount denotes the value rounded to the cent, if and only if below 10^18 cents; what is no number is offered only as typed |
| NumberAgreement.OtherBodiesAreLiteral | src/domains/input-engine/logic/candidate/number_currency_source.cpp:43-60 | Digits and signs that denote no integer are offered only as typed |
| DispatcherSpec.HandleKeeps | src/domains/input-engine/logic/dispatcher.cpp:38-81 | Every request keeps the cache, the candidate window, the schemes and the sessions in agreement, and is answered under its own id |
| DispatcherSpec.CaretKeeps | src/domains/input-engine/logic/dispatcher.cpp:145-179 | A caret rectangle shows the view the session would report now, or nothing |
| DispatcherLaws.CaretShows | src/domains/input-engine/logic/dispatcher.cpp:145-179 | A caret rectangle makes the window show the session's present page there if and only if there is a window, the rectangle is not all zero and the session is composing; nothing else changes |
| DispatcherLaws.EndingHides | src/domains/input-engine/logic/dispatcher.cpp:245-253 | A session that stops composing, loses focus or is interrupted is hidden; one that goes on composing is not |
| DispatcherLaws.AnswerTells | src/domains/input-engine/logic/dispatcher.cpp:255-271 | The answer tells the session it leaves: the preedit is the input until something is chosen, then the sentence so far, empty exactly when idle; a commit comes only at the end; what is not handled changes neither session nor engine |
| DispatcherLaws.TypedKeyIsAnswered | src/domains/input-engine/logic/dispatcher.cpp:100-107 | A key that types c is answered by the input with c at its end, or by what it completed |
| DispatcherLaws.HelloTells | src/domains/input-engine/logic/dispatcher.cpp:83-93 | The greeting tells whether the engine is ready and the scheme every session has and a new one gets |
| DispatcherLaws.SessionsComeAndGo | src/domains/input-engine/logic/dispatcher.cpp:95-143 | A session asked for is there, as it was or new and idle; out of focus it is gone from map and cache, the engine at rest and taught nothing |
| DispatcherLaws.HintIsKept | src/domains/input-engine/logic/dispatcher.cpp:181-186 | A hint is kept in its session and changes nothing else |
| DispatcherLaws.ConfigApplies | src/domains/input-engine/logic/dispatcher.cpp:188-220 | The three names each set their scheme for all sessions; an unknown name is refused with code 1, an empty or missing one is ignored, and neither changes anything |
| DispatcherLaws.OnlyShutdownStops | src/domains/input-engine/logic/dispatcher.cpp:70-80 | The stop flag is raised by a shutdown and nothing else; an unknown method is refused with code -3 |
| DispatcherSpec.SwitchedKeeps | src/domains/input-engine/logic/dispatcher.cpp:188-220 | A change of scheme over all sessions keeps that agreement |
| DispatcherRuns.CacheAgreesWithSessions | src/domains/input-engine/logic/dispatcher.cpp:135-253 | After any requests over any number of sessions: an id is cached iff its session exists and is composing, the cached fields are those it would report now, no other session was last told to show, and all schemes are the manager's |
| DispatcherRuns.AnswersCarryIds | src/domains/input-engine/logic/dispatcher.cpp:38-81 | The answers of a run come one for each request, in order, under its id |
| DispatcherRuns.OthersUntouched | src/domains/input-engine/logic/dispatcher.cpp:100-186 | But for a change of scheme, a request leaves every other session, its cached view and its window as they were |
| DispatcherMirror.HandleMirrors | src/domains/input-engine/logic/dispatcher.cpp:38-81 | A request keeps a session's list tied to its source if it is that session's own, changes the scheme, finds it idle or on an atomic source, or leaves the engine as it was |
| DispatcherMirror.DisturbedExactly | src/domains/input-engine/logic/dispatcher.cpp:100-143 | For a session composing on the engine's candidates with nothing chosen, another's request keeps the tie if and only if it left the engine as it was |
| DispatcherMirror.TaughtThenReset | src/domains/input-engine/logic/dispatcher.cpp:38-81 | Any request leaves the engine untaught, or reset after the commit that taught it |
| DispatcherMirror.SelectsWhatIsCached | src/domains/input-engine/logic/dispatcher.cpp:109-114 | Selecting item i of the page cached for the window is answered by that item: committed as cached, or chosen by the engine under that very text; then the finished sentence is the commit, or it is the preedit, or, with one candidate left, the answer is that of selecting it |
| DispatcherMirror.WindowShowsWhatIsSelected | src/domains/input-engine/logic/dispatcher.cpp:38-253 | This holds after any requests over any sessions in which nobody else moved the engine while the session composed |
| Deviations.ZeroGoesUnclaimed | src/domains/tsf-service/logic/key_router.cpp:38-53 | Keys i and 0 from a new session: both handled, the second unclaimed |
| Deviations.SelectsOffThePage | src/domains/input-engine/logic/session/session.cpp:127-129 | A Wubi code with ten words, nine to a page: index nine commits the tenth |
| Deviations.CommitIsNotFirst | src/domains/input-engine/logic/session/session.cpp:180-199 | Letters a, b and stroke 5, which the sentence does not pass and two readings do: the commit is the sentence, the first candidate is a reading |
| Deviations.BackspaceStays | src/domains/input-engine/logic/session/session.cpp:44-47 | One more stroke, which one reading passes: it is chosen, and Backspace leaves the session exactly as it was |
| Deviations.SharingDisturbs | src/domains/input-engine/logic/session/session_manager.hpp:6-8 | A letter typed in one session makes selecting the first item in another commit one character where two are shown |
| Deviations.WideCharacter | src/domains/input-engine/logic/session/session.cpp:110-119 | Character code 300 commits a comma, unclaimed |
| DispatcherRuns.AutosaveTrace | src/domains/input-engine/logic/dispatcher.cpp:265-275 | Over any run the dictionary is saved exactly floor(commits / N) times, never when N is 0 |
| Dispatcher.Dispatcher.Handle | src/domains/input-engine/logic/dispatcher.cpp:38-81 | Every request does to sessions, engine, cache and window what the specification says |
| Dispatcher.Dispatcher.HandleProcessKey | src/domains/input-engine/logic/dispatcher.cpp:100-107 | The session's answer to a key, cached or hidden, counted and reported |
| Dispatcher.Dispatcher.HandleFocusOut | src/domains/input-engine/logic/dispatcher.cpp:135-143 | Resets the engine, removes the session from map and cache, hides its window |
| Dispatcher.Dispatcher.HandleSetCaretRect | src/domains/input-engine/logic/dispatcher.cpp:145-179 | Shows the cached view at the rectangle unless it is all zero or nothing is cached |
| Dispatcher.Dispatcher.HandleSetConfig | src/domains/input-engine/logic/dispatcher.cpp:188-220 | Applies a known method to all sessions, refuses an unknown one, ignores the rest |
| Dispatcher.Dispatcher.MaybePushToUi | src/domains/input-engine/logic/dispatcher.cpp:245-253 | Caches a composing view, drops and hides any other |
| Dispatcher.Dispatcher.SessionResultToResponse | src/domains/input-engine/logic/dispatcher.cpp:255-271 | Reports a result, and counts a commit towards the next save |
| Dispatcher.Dispatcher.MaybeAutosave | src/domains/input-engine/logic/dispatcher.cpp:273-275 | Saves when the counter says so |
| Dispatcher.SessionManager.GetOrCreate | src/domains/input-engine/logic/session/session_manager.cpp:13-21 | The session of an id, new and blank under the global scheme if there was none; the others stay |
| Dispatcher.SessionManager.Remove | src/domains/input-engine/logic/session/session_manager.cpp:23 | Removes one session and no other |
| Dispatcher.SessionManager.SetSchemeForAll | src/domains/input-engine/logic/session/session_manager.cpp:25-32 | Switches every session and returns exactly those that were composing under another scheme |
| Frame.ReadExact | src/shared/ipc-protocol/frame.cpp:17-27 | Takes exactly the buffer's length off the stream, or stops short; a stream that is long enough is read whole unless a callback fails |
| Frame.WriteExact | src/shared/ipc-protocol/frame.cpp:29-39 | Writes all bytes, or a proper prefix |
| Frame.ReadFrame | src/shared/ipc-protocol/frame.cpp:43-57 | Under any cutting an accepted body is the stream's first frame and exactly that frame is taken; unless a callback fails the stream decides the outcome, so a truncated frame is never accepted |
| Frame.WriteFrame | src/shared/ipc-protocol/frame.cpp:59-74 | Emits exactly the little-endian length and the body, or a proper prefix; nothing for an oversize body |
| Frame.LengthRoundTrip | src/shared/ipc-protocol/frame.cpp:48-68 | The length written is the length read |
| Frame.LengthIsLittleEndian | src/shared/ipc-protocol/frame.cpp:62-68 | The header is the length, least significant byte first |
| Frame.StreamRoundTrip | src/shared/ipc-protocol/frame.cpp:43-74 | A stream of frames is read back as the same bodies, leaving exactly the remainder |
| Frame.CutFrameIsIncomplete | src/shared/ipc-protocol/frame.cpp:43-57 | Every cut of a frame short of its end is seen to be incomplete |
| Transport.ServeConnection | src/domains/input-engine/backend/pipe_server.cpp:47-70 | Whatever the cutting, the frames handled are the first of the stream in order, the state is that of the dispatcher run on them, and their answers are written one each in order; the server stops right after a shutdown and, unless a callback fails, for nothing else but an answer too large or the lack of a whole frame |
| Transport.ServeFrame | src/domains/input-engine/backend/pipe_server.cpp:53-67 | One frame taken, dispatched and answered, or nothing done |
| Transport.StreamSnoc | src/domains/input-engine/backend/pipe_server.cpp:67 | One more frame at the end of a stream of frames |
| Transport.IpcClient.CallWithTimeout | src/domains/tsf-service/backend/ipc_client.cpp:221-242 | The client stays connected only if it wrote its request whole and took exactly one whole frame, whose decoding is the outcome |
| Transport.IpcClient.CallMethod | src/domains/tsf-service/backend/ipc_client.cpp:248-254 | The id moves on, modulo 2^32, whether or not the call gets through; success means an answer marked ok that is the decoding of the one frame taken, on a live connection |
| Transport.ServerStepIsReply | src/domains/input-engine/backend/pipe_server.cpp:53-67 | When a read completes a frame, what the server of the lock-step protocol sends is the dispatcher's encoded reply, under the id the dispatcher gave it |
| Transport.RefusedFrames | src/domains/input-engine/backend/pipe_server.cpp:58-65 | A frame of another protocol version is refused with code -4, any other that is no request with -2, under id 0, and changes nothing |
| Lockstep.AcceptedResponsesMatch | src/domains/tsf-service/backend/ipc_client.cpp:221-254 | In every interleaving of calls, partial transfers, timeouts, disconnects and reconnects, an accepted response is the server's own answer to the request just sent, though no step compares ids; it carries its id if the server understood the request, as it did if the answer is ok, and otherwise is a refusal under id 0 |
| EndToEnd.AcceptedIsDispatchers | src/domains/input-engine/backend/pipe_server.cpp:47-70 | With the dispatcher as the server of any number of connections, in every interleaving: a response the client accepts is what the dispatcher, in the state the frames served before had brought it to, answered to the very request just sent; an ok one carries its id |
| EndToEnd.StepKeepsInv | src/domains/input-engine/backend/pipe_server.cpp:53-67 | Every step of the whole keeps: the frames answered are the frames dispatched, in order, each with the dispatcher's answer |
| Lockstep.StepKeepsInv | src/domains/input-engine/backend/pipe_server.cpp:47-70 | Every step keeps: the bytes under way and held by both ends of the current connection are those of one request and of the answer to it |
| Lockstep.AcceptedIdsGrow | src/domains/tsf-service/backend/ipc_client.cpp:248-254 | Until the ids wrap around, the requests answered have growing, so different, ids |
| Lockstep.ExchangeCompletes | src/domains/tsf-service/backend/ipc_client.cpp:221-242 | Any call on a live connection can be carried to its answer, leaving the connection ready for the next |

## Left out

- libpinyin itself, its dictionary files and options: only the contract described above; a choice or a query that fails inside the library is modelled only as far as that contract allows.
- Machine integers: overflow in `ParseInteger`, `std::stoll` (which throws) and page deltas; the readings are proved for all integers, request ids wrap.
- Text encoding: strings are sequences of characters, not UTF-8 bytes, so the first character of a candidate is the first element.
- Extension candidates: the extension bridge is absent, so its source takes no input.
- English mode: the session always asks for Chinese; the passthrough source is modelled but never in charge.
- User dictionary requests (export, import, clear), the scheme state file, the engine and protocol versions in the greeting: file access and constants.
- JSON text and default values of request parameters: the codec is an abstract pair of functions with round trips. The table of method names is not modelled.
- The background connect thread (`src/domains/tsf-service/backend/ipc_client.cpp:49`): it writes the pipe handle off the owning thread, so the client's single-owner rule is not provable as written; a connection appears in one step instead.
- Overlapped I/O, timeouts as durations and blocking: a timeout is a failing callback, and a pipe whose outcomes are used up reads as closed.
- The candidate window, its pipe and the click bridge: only the last call for each session is recorded, as a ghost trace.
- Loading and sorting of the stroke and Wubi tables: given maps.
- Mode manager, scheme hotkey detector, charset filter, crash guard, single instance, COM registration, language bar: no part in these properties.
- SessionRuns.SelectActsOnShown: for an index of the shown page only, because the source checks the index against the list and not the page; SessionRuns.SelectPastThePage gives the exact condition.
- DispatcherMirror.DisturbedExactly: while nothing is chosen; after a partial choice the tie is to the engine's list, input and sentence, which a different state of the engine may share.
- SessionMirror.StepMirrors: for a session that alone uses the engine, because the source lets sessions that share it disturb each other (`src/domains/input-engine/logic/session/session_manager.hpp:6-8`); DispatcherMirror.HandleMirrors says when they do not.
