// Runs of the dispatcher over any number of sessions sharing one engine.
module DispatcherRuns {
  import opened Decimal
  import opened Sources
  import opened SessionSpec
  import opened SessionInv
  import opened Learning
  import opened DispatcherSpec
  import Engine

  datatype Call = Call(id: nat, req: Request)

  function Run(lib: Engine.Lib, cfg: Config, d: Disp, calls: seq<Call>): (r: (Disp, seq<Response>))
    requires DInv(lib, cfg, d)
    ensures DInv(lib, cfg, r.0)
    decreases |calls|
  {
    if calls == [] then (d, [])
    else
      HandleKeeps(lib, cfg, d, calls[0].id, calls[0].req);
      var (d1, resp) := Handle(lib, cfg, d, calls[0].id, calls[0].req);
      var (d2, more) := Run(lib, cfg, d1, calls[1..]);
      (d2, [resp] + more)
  }

  function Initial(scheme: Scheme, e: Engine.State, every: nat, hasUi: bool): Disp {
    Disp(map[], Engine.ResetState(e), scheme, map[], false, every, 0, hasUi, map[], 0)
  }

  // After any requests over any number of sessions, the cache holds exactly the composing
  // sessions with the views they would report now, no other session is shown, every
  // session has the global scheme and meets the session invariant.
  lemma CacheAgreesWithSessions(lib: Engine.Lib, cfg: Config, scheme: Scheme, e: Engine.State, every: nat, hasUi: bool,
                                calls: seq<Call>, id: nat)
    requires Engine.Lawful(lib) && Engine.Ok(lib, Engine.ResetState(e))
    ensures DInv(lib, cfg, Initial(scheme, e, every, hasUi))
    ensures var d := Run(lib, cfg, Initial(scheme, e, every, hasUi), calls).0;
            && (id in d.pending <==> id in d.sessions && d.sessions[id].composing)
            && (id in d.pending ==>
                  var now := View(cfg, d.sessions[id], true, false, ""); var r := d.pending[id];
                  && r.preedit == now.preedit && r.candidates == now.candidates && r.armedIndex == now.armedIndex
                  && r.pageIndex == now.pageIndex && r.pageSize == now.pageSize && r.pageTotal == now.pageTotal)
            && (id !in d.pending ==> id !in d.ui || d.ui[id] == Hide)
            && (id in d.sessions ==> d.sessions[id].scheme == d.scheme && Inv(cfg, d.sessions[id]))
  {
    hide View, Inv, CacheAgrees;
    InitialIsFine(lib, cfg, scheme, e, every, hasUi);
    var d := Run(lib, cfg, Initial(scheme, e, every, hasUi), calls).0;
    if id in d.pending {
      SameView(cfg, d.sessions[id], d.pending[id]);
    }
  }

  lemma InitialIsFine(lib: Engine.Lib, cfg: Config, scheme: Scheme, e: Engine.State, every: nat, hasUi: bool)
    requires Engine.Lawful(lib) && Engine.Ok(lib, Engine.ResetState(e))
    ensures DInv(lib, cfg, Initial(scheme, e, every, hasUi))
  {
  }

  // The answers of a run come in order, each under the id of its request.
  lemma {:induction false} AnswersCarryIds(lib: Engine.Lib, cfg: Config, d: Disp, calls: seq<Call>)
    requires DInv(lib, cfg, d)
    ensures var responses := Run(lib, cfg, d, calls).1;
            |responses| == |calls| && forall i :: 0 <= i < |calls| ==> responses[i].id == calls[i].id
    decreases |calls|
  {
    hide DInv, Handle;
    if calls != [] {
      DInvHolds(lib, cfg, d);
      HandleKeeps(lib, cfg, d, calls[0].id, calls[0].req);
      AnswersCarryIds(lib, cfg, Handle(lib, cfg, d, calls[0].id, calls[0].req).0, calls[1..]);
    }
  }

  // ---- One session's requests do not touch another ---------------------------------------

  // The session a request names.
  function Target(req: Request): Option<nat> {
    match req
    case InitSession(id) => Some(id)
    case ProcessKey(id, _, _, _) => Some(id)
    case SelectCandidate(id, _) => Some(id)
    case PageCandidates(id, _) => Some(id)
    case CommitComposition(id) => Some(id)
    case CancelComposition(id) => Some(id)
    case FocusOut(id) => Some(id)
    case SetCaretRect(id, _) => Some(id)
    case SetFieldHint(id, _) => Some(id)
    case _ => None
  }

  predicate SameFor(d: Disp, d1: Disp, id: nat) {
    && (id in d1.sessions <==> id in d.sessions) && (id in d.sessions ==> d1.sessions[id] == d.sessions[id])
    && (id in d1.pending <==> id in d.pending) && (id in d.pending ==> d1.pending[id] == d.pending[id])
    && (id in d1.ui <==> id in d.ui) && (id in d.ui ==> d1.ui[id] == d.ui[id])
  }

  lemma AnsweredTouchesOne(d: Disp, msg: nat, id: nat, out: (World, Result), other: nat)
    requires other != id
    ensures SameFor(d, Answered(d, msg, id, out).0, other)
  {
    hide Tick;
  }

  lemma UnfocusedTouchesOne(d: Disp, id: nat, other: nat)
    requires other != id
    ensures SameFor(d, Unfocused(d, id), other)
  {
    hide Idled;
  }

  lemma CaretTouchesOne(d: Disp, id: nat, rect: Rect, other: nat)
    requires other != id
    ensures SameFor(d, CaretMoved(d, id, rect), other)
  {
  }

  // Sessions meet only in the engine: but for a change of scheme, a request leaves every
  // other session, its cached view and its window as they were.
  lemma OthersUntouched(lib: Engine.Lib, cfg: Config, d: Disp, msg: nat, req: Request, id: nat)
    requires Engine.Lawful(lib) && Engine.Ok(lib, d.engine)
    requires Target(req) != Some(id) && !req.SetConfig?
    ensures SameFor(d, Handle(lib, cfg, d, msg, req).0, id)
  {
    hide SessionSpec.ProcessKey, Select, Page, Commit, Cancel, Engine.Ok, Unfocused, CaretMoved, Answered, SameFor;
    forall s, out
      ensures s != id ==> SameFor(d, Answered(d, msg, s, out).0, id)
    {
      if s != id {
        AnsweredTouchesOne(d, msg, s, out, id);
      }
    }
    WithWorldTouchesOne(d, id);
    match req
    case FocusOut(s) => UnfocusedTouchesOne(d, s, id);
    case SetCaretRect(s, rect) => CaretTouchesOne(d, s, rect, id);
    case _ =>
  }

  lemma WithWorldTouchesOne(d: Disp, id: nat)
    ensures SameFor(d, d, id) && SameFor(d, d.(shutdown := true), id)
    ensures forall s, w :: s != id ==> SameFor(d, WithWorld(d, s, w), id)
  {
  }

  // ---- Learning, with the engine shared ------------------------------------------------------

  // The phrase a request commits on the engine's word, read off its answer and the session
  // it leaves: not one from an atomic source, nor the raw input used for want of a sentence.
  function PhraseOf(lib: Engine.Lib, cfg: Config, d: Disp, req: Request, out: (Disp, Response)): string {
    if !cfg.learning || !IsCommit(out.1) || Target(req).None? then ""
    else
      var id := Target(req).value;
      if id in out.0.sessions && out.0.sessions[id].usesEngine
         && !(req.CommitComposition? && EngineText(lib, WorldOf(d, id)) == "") then out.1.body.commit.value
      else ""
  }

  lemma AnsweredTeaches(lib: Engine.Lib, cfg: Config, d: Disp, msg: nat, req: Request, out: (World, Result),
                        inputs: set<string>)
    requires Target(req).Some?
    requires var id := Target(req).value;
             Teaches(lib, cfg, false, inputs, WorldOf(d, id), out,
                     req.CommitComposition? && EngineText(lib, WorldOf(d, id)) == "")
    ensures var res := Answered(d, msg, Target(req).value, out);
            TaughtOnly(lib, false, inputs, d.engine.inst.dict, res.0.engine.inst.dict, PhraseOf(lib, cfg, d, req, res))
  {
    hide TaughtOnly, Tick, EngineText;
  }

  function InputsOf(d: Disp, req: Request): set<string>
    requires Works(req).Some?
  {
    var s := SessionOf(d, Works(req).value);
    if req.ProcessKey? then KeyInputs(s, req.vk, req.ch) else {s.raw}
  }

  lemma OutcomeTeaches(lib: Engine.Lib, cfg: Config, d: Disp, req: Request)
    requires DInv(lib, cfg, d) && Works(req).Some?
    ensures var w := WorldOf(d, Works(req).value);
            Teaches(lib, cfg, false, InputsOf(d, req), w, Outcome(lib, cfg, d, req),
                    req.CommitComposition? && EngineText(lib, w) == "")
  {
    hide View, SessionSpec.ProcessKey, Select, Page, Commit, Cancel, Teaches, Inv, CacheAgrees, KeyInputs;
    hide Engine.Ok, Engine.Lawful, EngineText;
    var w, inputs := WorldOf(d, Works(req).value), InputsOf(d, req);
    SessionIsFine(lib, cfg, d, Works(req).value);
    InvIs(cfg, w.s);
    match req
    case ProcessKey(_, vk, ch, ctrl) => KeyTeaches(lib, cfg, false, w, vk, ch, ctrl);
    case SelectCandidate(_, index) => SelectTeaches(lib, cfg, false, inputs, w, index);
    case PageCandidates(_, delta) => PageTeaches(lib, cfg, false, inputs, w, delta);
    case CommitComposition(_) => CommitNowTeaches(lib, cfg, false, w);
    case CancelComposition(_) => CancelTeaches(lib, cfg, false, inputs, w);
  }

  // A request that is not answered by a result teaches nothing.
  lemma OthersTeachNothing(lib: Engine.Lib, cfg: Config, d: Disp, msg: nat, req: Request)
    requires Engine.Lawful(lib) && Engine.Ok(lib, d.engine) && Works(req).None?
    ensures var out := Handle(lib, cfg, d, msg, req);
            out.0.engine.inst.dict == d.engine.inst.dict && PhraseOf(lib, cfg, d, req, out) == ""
  {
    hide Engine.Lawful, Engine.Ok, Idled;
    if req.FocusOut? {
      IdledKeepsDict(WorldOf(d, req.session));
    }
  }

  lemma HandleTeaches(lib: Engine.Lib, cfg: Config, d: Disp, msg: nat, req: Request) returns (inputs: set<string>)
    requires DInv(lib, cfg, d)
    ensures var out := Handle(lib, cfg, d, msg, req);
            TaughtOnly(lib, false, inputs, d.engine.inst.dict, out.0.engine.inst.dict, PhraseOf(lib, cfg, d, req, out))
  {
    hide DInv, Handle, Teaches, TaughtOnly, PhraseOf, Answered, Outcome, InputsOf, EngineText;
    DInvHolds(lib, cfg, d);
    inputs := {};
    if Works(req).Some? {
      inputs := InputsOf(d, req);
      WorksIsTarget(req);
      OutcomeTeaches(lib, cfg, d, req);
      AnsweredTeaches(lib, cfg, d, msg, req, Outcome(lib, cfg, d, req), inputs);
      HandleAnswers(lib, cfg, d, msg, req);
    } else {
      OthersTeachNothing(lib, cfg, d, msg, req);
      NothingTaught(lib, false, inputs, d.engine.inst.dict);
    }
  }

  lemma WorksIsTarget(req: Request)
    ensures Works(req).Some? ==> Target(req) == Works(req)
  {
  }

  // The non-empty phrases committed over a run on the engine's word, in order, whichever
  // sessions they come from.
  function EngineCommits(lib: Engine.Lib, cfg: Config, d: Disp, calls: seq<Call>): seq<string>
    requires DInv(lib, cfg, d)
    decreases |calls|
  {
    if calls == [] then []
    else
      HandleKeeps(lib, cfg, d, calls[0].id, calls[0].req);
      var out := Handle(lib, cfg, d, calls[0].id, calls[0].req);
      var p := PhraseOf(lib, cfg, d, calls[0].req, out);
      (if p == "" then [] else [p]) + EngineCommits(lib, cfg, out.0, calls[1..])
  }

  // Over any requests to any sessions sharing the engine, the phrases taught are exactly
  // the sentences committed, in order; with learning off the engine learns nothing.
  lemma {:induction false} LearningOverRun(lib: Engine.Lib, cfg: Config, d: Disp, calls: seq<Call>)
    requires DInv(lib, cfg, d)
    ensures var d1 := Run(lib, cfg, d, calls).0;
            && Phrases(d1.engine.inst.dict) == Phrases(d.engine.inst.dict) + EngineCommits(lib, cfg, d, calls)
            && (!cfg.learning ==> d1.engine.inst.dict == d.engine.inst.dict)
    decreases |calls|
  {
    hide DInv, Handle, Phrases, TaughtOnly, PhraseOf;
    if calls != [] {
      var (id, req) := (calls[0].id, calls[0].req);
      DInvHolds(lib, cfg, d);
      HandleKeeps(lib, cfg, d, id, req);
      var out := Handle(lib, cfg, d, id, req);
      var inputs := HandleTeaches(lib, cfg, d, id, req);
      var p := PhraseOf(lib, cfg, d, req, out);
      NoPhrase(lib, cfg, d, req, out);
      TaughtPhrases(lib, false, inputs, d.engine.inst.dict, out.0.engine.inst.dict, p);
      LearningOverRun(lib, cfg, out.0, calls[1..]);
      var now, later := if p == "" then [] else [p], EngineCommits(lib, cfg, out.0, calls[1..]);
      assert EngineCommits(lib, cfg, d, calls) == now + later;
      Assoc(Phrases(d.engine.inst.dict), now, later);
    }
  }

  lemma NoPhrase(lib: Engine.Lib, cfg: Config, d: Disp, req: Request, out: (Disp, Response))
    ensures !cfg.learning ==> PhraseOf(lib, cfg, d, req, out) == ""
  {
  }

  // ---- Autosave ------------------------------------------------------------------------------

  predicate IsCommit(r: Response) {
    r.Ok? && r.body.Composition? && r.body.commit.Some?
  }

  function CommitsIn(responses: seq<Response>): nat {
    if responses == [] then 0 else (if IsCommit(responses[0]) then 1 else 0) + CommitsIn(responses[1..])
  }

  // The counter moved by one commit, or not at all.
  predicate Counts(d: Disp, d1: Disp, commit: bool) {
    var (save, count) := Tick(d.every, d.count);
    && d1.every == d.every
    && if commit then d1.saves == d.saves + (if save then 1 else 0) && d1.count == count
       else d1.saves == d.saves && d1.count == d.count
  }

  lemma AnsweredCounts(d: Disp, msg: nat, id: nat, out: (World, Result))
    ensures var (d1, r) := Answered(d, msg, id, out);
            Counts(d, d1, IsCommit(r))
  {
    hide Tick;
  }

  lemma HandleCounts(lib: Engine.Lib, cfg: Config, d: Disp, msg: nat, req: Request)
    requires Engine.Lawful(lib) && Engine.Ok(lib, d.engine)
    ensures var (d1, r) := Handle(lib, cfg, d, msg, req);
            Counts(d, d1, IsCommit(r))
  {
    hide View, SessionSpec.ProcessKey, Select, Page, Commit, Cancel, Engine.Ok, Idled, Tick, Answered;
    forall s, out {
      AnsweredCounts(d, msg, s, out);
    }
  }

  lemma {:induction false} SavesOverRun(lib: Engine.Lib, cfg: Config, d: Disp, calls: seq<Call>)
    requires DInv(lib, cfg, d)
    ensures var (d1, responses) := Run(lib, cfg, d, calls);
            d1.saves == d.saves + Saves(d.every, d.count, CommitsIn(responses))
    decreases |calls|
  {
    hide DInv, Handle, Tick;
    if calls != [] {
      HandleKeeps(lib, cfg, d, calls[0].id, calls[0].req);
      DInvHolds(lib, cfg, d);
      HandleCounts(lib, cfg, d, calls[0].id, calls[0].req);
      var (d1, resp) := Handle(lib, cfg, d, calls[0].id, calls[0].req);
      SavesOverRun(lib, cfg, d1, calls[1..]);
      var more := Run(lib, cfg, d1, calls[1..]).1;
      assert ([resp] + more)[1..] == more;
    }
  }

  // The dictionary is saved exactly floor(commits / N) times over a run, never when N is 0.
  lemma AutosaveTrace(lib: Engine.Lib, cfg: Config, scheme: Scheme, e: Engine.State, every: nat, hasUi: bool,
                      calls: seq<Call>)
    requires Engine.Lawful(lib) && Engine.Ok(lib, Engine.ResetState(e))
    ensures DInv(lib, cfg, Initial(scheme, e, every, hasUi))
    ensures var (d, responses) := Run(lib, cfg, Initial(scheme, e, every, hasUi), calls);
            && (every == 0 ==> d.saves == 0)
            && (every > 0 ==> d.saves * every <= CommitsIn(responses) < (d.saves + 1) * every)
  {
    hide DInv, Run;
    InitialIsFine(lib, cfg, scheme, e, every, hasUi);
    var d := Initial(scheme, e, every, hasUi);
    SavesOverRun(lib, cfg, d, calls);
    SavesAreOneInN(every, 0, CommitsIn(Run(lib, cfg, d, calls).1));
  }
}
