// A session among others that share the engine: as long as nobody else moves the engine
// while it is composing, what its window shows is what the engine holds, and selecting
// acts on what is shown.
module DispatcherMirror {
  import opened Decimal
  import opened Candidates
  import opened Sources
  import opened SessionSpec
  import opened SessionInv
  import opened SessionMirror
  import SessionRuns
  import opened DispatcherSpec
  import opened DispatcherRuns
  import opened Learning
  import Engine

  // A request leaves a session alone: it is the session's own, or finds it idle or on an
  // atomic source, or changes the scheme for all, or leaves the engine as it was.
  predicate LeavesAlone(lib: Engine.Lib, cfg: Config, d: Disp, call: Call, id: nat)
    requires Engine.Lawful(lib) && Engine.Ok(lib, d.engine)
  {
    || Target(call.req) == Some(id) || call.req.SetConfig? || !SessionOf(d, id).composing
    || !SessionOf(d, id).usesEngine
    || Handle(lib, cfg, d, call.id, call.req).0.engine == d.engine
  }

  predicate Undisturbed(lib: Engine.Lib, cfg: Config, d: Disp, calls: seq<Call>, id: nat)
    requires DInv(lib, cfg, d)
    decreases |calls|
  {
    calls == [] ||
    (LeavesAlone(lib, cfg, d, calls[0], id)
     && (HandleKeeps(lib, cfg, d, calls[0].id, calls[0].req);
         Undisturbed(lib, cfg, Handle(lib, cfg, d, calls[0].id, calls[0].req).0, calls[1..], id)))
  }

  ghost predicate MirrorsFor(lib: Engine.Lib, cfg: Config, d: Disp, id: nat) {
    Mirrors(lib, cfg, WorldOf(d, id))
  }

  lemma IdleMirrorsFor(lib: Engine.Lib, cfg: Config, d: Disp, id: nat)
    requires !SessionOf(d, id).composing
    ensures MirrorsFor(lib, cfg, d, id)
  {
  }

  lemma AnsweredWorld(d: Disp, msg: nat, id: nat, out: (World, Result))
    ensures WorldOf(Answered(d, msg, id, out).0, id) == out.0
  {
    hide Counted;
    CountedWorld(Pushed(WithWorld(d, id, out.0), id, out.1), id, out.1);
  }

  lemma CountedWorld(d: Disp, id: nat, r: Result)
    ensures WorldOf(Counted(d, r), id) == WorldOf(d, id)
  {
  }

  lemma CaretWorld(d: Disp, id: nat, rect: Rect)
    ensures WorldOf(CaretMoved(d, id, rect), id) == WorldOf(d, id)
  {
  }

  // The session's own requests.
  lemma OwnRequestMirrors(lib: Engine.Lib, cfg: Config, d: Disp, msg: nat, req: Request, id: nat)
    requires DInv(lib, cfg, d) && MirrorsFor(lib, cfg, d, id) && Target(req) == Some(id)
    ensures MirrorsFor(lib, cfg, Handle(lib, cfg, d, msg, req).0, id)
  {
    hide View, SessionSpec.ProcessKey, Select, Page, Commit, Cancel, Inv, Mirrors, CacheAgrees, Engine.Ok;
    hide Answered, Idled, CaretMoved;
    var w := WorldOf(d, id);
    SessionIsFine(lib, cfg, d, id);
    forall out: (World, Result)
      ensures WorldOf(Answered(d, msg, id, out).0, id) == out.0
    {
      AnsweredWorld(d, msg, id, out);
    }
    match req
    case ProcessKey(_, vk, ch, ctrl) => StepMirrors(lib, cfg, w, Key(vk, ch, ctrl));
    case SelectCandidate(_, index) => StepMirrors(lib, cfg, w, Selects(index));
    case PageCandidates(_, delta) => StepMirrors(lib, cfg, w, Pages(delta));
    case CommitComposition(_) => StepMirrors(lib, cfg, w, CommitsNow);
    case CancelComposition(_) => StepMirrors(lib, cfg, w, Cancels);
    case SetFieldHint(_, hint) => StepMirrors(lib, cfg, w, Hints(hint));
    case FocusOut(_) => IdleMirrorsFor(lib, cfg, Unfocused(d, id), id);
    case SetCaretRect(_, rect) => CaretWorld(d, id, rect);
    case InitSession(_) =>
  }

  lemma ConfigMirrors(lib: Engine.Lib, cfg: Config, d: Disp, msg: nat, patch: Patch, id: nat)
    requires DInv(lib, cfg, d) && MirrorsFor(lib, cfg, d, id)
    ensures MirrorsFor(lib, cfg, Configured(d, msg, patch).0, id)
  {
    if patch.Method? && patch.name != "" && SchemeOf(patch.name).Some? {
      SwitchMirrorsFor(lib, cfg, d, SchemeOf(patch.name).value, id);
    }
  }

  lemma SwitchMirrorsFor(lib: Engine.Lib, cfg: Config, d: Disp, scheme: Scheme, id: nat)
    requires DInv(lib, cfg, d) && MirrorsFor(lib, cfg, d, id)
    ensures MirrorsFor(lib, cfg, Switched(d, scheme), id)
  {
    hide View, Inv, Mirrors, CacheAgrees, Engine.Ok, SetScheme;
    var d1 := Switched(d, scheme);
    if id in d.sessions {
      SetSchemeComposing(World(d.sessions[id], d.engine), scheme);
      if d1.sessions[id].composing {
        assert Interrupted(d, scheme) == {};
      } else {
        IdleMirrorsFor(lib, cfg, d1, id);
      }
    } else {
      IdleMirrorsFor(lib, cfg, d1, id);
    }
  }

  lemma HandleMirrors(lib: Engine.Lib, cfg: Config, d: Disp, call: Call, id: nat)
    requires DInv(lib, cfg, d) && MirrorsFor(lib, cfg, d, id) && LeavesAlone(lib, cfg, d, call, id)
    ensures MirrorsFor(lib, cfg, Handle(lib, cfg, d, call.id, call.req).0, id)
  {
    hide DInv, Mirrors, MirrorsFor;
    DInvHolds(lib, cfg, d);
    if Target(call.req) == Some(id) {
      OwnRequestMirrors(lib, cfg, d, call.id, call.req, id);
    } else if call.req.SetConfig? {
      ConfigMirrors(lib, cfg, d, call.id, call.req.patch, id);
    } else {
      OtherRequestMirrors(lib, cfg, d, call, id);
    }
  }

  lemma OtherRequestMirrors(lib: Engine.Lib, cfg: Config, d: Disp, call: Call, id: nat)
    requires DInv(lib, cfg, d) && MirrorsFor(lib, cfg, d, id)
    requires Target(call.req) != Some(id) && !call.req.SetConfig?
    requires var s := SessionOf(d, id);
             s.composing && s.usesEngine ==> Handle(lib, cfg, d, call.id, call.req).0.engine == d.engine
    ensures MirrorsFor(lib, cfg, Handle(lib, cfg, d, call.id, call.req).0, id)
  {
    hide DInv, Mirrors, Handle;
    DInvHolds(lib, cfg, d);
    var d1 := Handle(lib, cfg, d, call.id, call.req).0;
    OthersUntouched(lib, cfg, d, call.id, call.req, id);
    if !SessionOf(d, id).composing {
      assert !SessionOf(d1, id).composing;
      IdleMirrorsFor(lib, cfg, d1, id);
    } else if !SessionOf(d, id).usesEngine {
      AtomicMirrorsAnyEngine(lib, cfg, d, SessionOf(d, id), d1.engine, id);
    }
  }

  // The candidates of an atomic source do not depend on the engine.
  lemma AtomicMirrorsAnyEngine(lib: Engine.Lib, cfg: Config, d: Disp, s: Sess, e1: Engine.State, id: nat)
    requires DInv(lib, cfg, d) && s == SessionOf(d, id) && s.composing && !s.usesEngine
    requires Mirrors(lib, cfg, World(s, d.engine))
    ensures Mirrors(lib, cfg, World(s, e1))
  {
    hide Produced, Engine.Ok, Engine.Lawful, CacheAgrees;
    ProducedIgnoresEngine(lib, cfg, InCharge(cfg, s.raw, s.scheme).value, s.raw, d.engine);
  }

  // ---- Exactly when another session disturbs ---------------------------------------------

  // What a request leaves of the engine: it was taught nothing, or reset after a commit.
  lemma TaughtThenReset(lib: Engine.Lib, cfg: Config, d: Disp, msg: nat, req: Request)
    requires DInv(lib, cfg, d)
    ensures var e1 := Handle(lib, cfg, d, msg, req).0.engine;
            if d.engine.ready then e1.ready && (e1.inst.dict == d.engine.inst.dict || e1.inst.raw == "")
            else e1 == d.engine
  {
    hide DInv, Handle, Answered, Outcome, Keeps, PhraseOf, TaughtOnly, Engine.Ok, Engine.Lawful;
    DInvHolds(lib, cfg, d);
    var inputs := HandleTeaches(lib, cfg, d, msg, req);
    var out := Handle(lib, cfg, d, msg, req);
    if Works(req).Some? {
      HandleAnswers(lib, cfg, d, msg, req);
      OutcomeKeeps(lib, cfg, d, req);
      CommitResets(lib, cfg, d, msg, Works(req).value, Outcome(lib, cfg, d, req));
    } else {
      OthersTeachNothing(lib, cfg, d, msg, req);
      OthersKeepReady(lib, cfg, d, msg, req);
    }
    if PhraseOf(lib, cfg, d, req, out) == "" {
      TaughtPhrases(lib, false, inputs, d.engine.inst.dict, out.0.engine.inst.dict, "");
    } else {
      PhraseIsCommit(lib, cfg, d, req, out);
    }
  }

  lemma OthersKeepReady(lib: Engine.Lib, cfg: Config, d: Disp, msg: nat, req: Request)
    requires Engine.Lawful(lib) && Engine.Ok(lib, d.engine) && Works(req).None?
    ensures var e1 := Handle(lib, cfg, d, msg, req).0.engine;
            e1.ready == d.engine.ready && (!e1.ready ==> e1 == d.engine)
  {
    hide Engine.Lawful, Engine.Ok;
  }

  lemma PhraseIsCommit(lib: Engine.Lib, cfg: Config, d: Disp, req: Request, out: (Disp, Response))
    ensures PhraseOf(lib, cfg, d, req, out) != "" ==> IsCommit(out.1)
  {
  }

  lemma CommitResets(lib: Engine.Lib, cfg: Config, d: Disp, msg: nat, id: nat, out: (World, Result))
    requires Keeps(lib, cfg, WorldOf(d, id), out)
    ensures var (d1, resp) := Answered(d, msg, id, out);
            && d1.engine.ready == d.engine.ready && (!d.engine.ready ==> d1.engine == d.engine)
            && (IsCommit(resp) && d1.engine.ready ==> d1.engine.inst.raw == "")
  {
    hide View, Sound, NoLoneCandidate, Engine.Ok, Tick;
  }

  // A session composing on the engine's candidates with nothing chosen is tied to the
  // engine after another's request if and only if that left the engine as it was.
  lemma DisturbedExactly(lib: Engine.Lib, cfg: Config, d: Disp, call: Call, id: nat)
    requires DInv(lib, cfg, d) && MirrorsFor(lib, cfg, d, id)
    requires Target(call.req) != Some(id) && !call.req.SetConfig?
    requires var s := SessionOf(d, id); s.composing && s.usesEngine && s.partial == ""
    ensures var d1 := Handle(lib, cfg, d, call.id, call.req).0;
            MirrorsFor(lib, cfg, d1, id) <==> d1.engine == d.engine
  {
    hide DInv, Handle;
    DInvHolds(lib, cfg, d);
    var d1 := Handle(lib, cfg, d, call.id, call.req).0;
    OthersUntouched(lib, cfg, d, call.id, call.req, id);
    TaughtThenReset(lib, cfg, d, call.id, call.req);
    var s := SessionOf(d, id);
    assert WorldOf(d1, id) == World(s, d1.engine);
    InputIsSome(lib, cfg, d, id);
    if d.engine.ready {
      ParsedPins(lib, d.engine, d1.engine, PinyinPart(s.raw));
    }
  }

  lemma InputIsSome(lib: Engine.Lib, cfg: Config, d: Disp, id: nat)
    requires DInv(lib, cfg, d) && SessionOf(d, id).composing
    ensures PinyinPart(SessionOf(d, id).raw) != ""
  {
    hide View, CacheAgrees, Engine.Ok, Engine.Lawful;
    RawIsSome(cfg, SessionOf(d, id));
  }

  // Two states of the engine just after parsing the same text.
  lemma ParsedPins(lib: Engine.Lib, e: Engine.State, e1: Engine.State, raw: string)
    requires raw != "" && e.ready && e1.ready && (e1.inst.dict == e.inst.dict || e1.inst.raw == "")
    requires e == Engine.Parsed(lib, e, raw)
    ensures e1 == Engine.Parsed(lib, e1, raw) ==> e1 == e
  {
  }

  lemma {:induction false} RunMirrors(lib: Engine.Lib, cfg: Config, d: Disp, calls: seq<Call>, id: nat)
    requires DInv(lib, cfg, d) && MirrorsFor(lib, cfg, d, id) && Undisturbed(lib, cfg, d, calls, id)
    ensures MirrorsFor(lib, cfg, Run(lib, cfg, d, calls).0, id)
    decreases |calls|
  {
    hide DInv, MirrorsFor, Handle, LeavesAlone;
    if calls != [] {
      DInvHolds(lib, cfg, d);
      HandleKeeps(lib, cfg, d, calls[0].id, calls[0].req);
      HandleMirrors(lib, cfg, d, calls[0], id);
      RunMirrors(lib, cfg, Handle(lib, cfg, d, calls[0].id, calls[0].req).0, calls[1..], id);
    }
  }

  // What the answer to a selection of item index of a session's cached page is to be: an
  // item of an atomic source is committed as the page has it; for an item of the engine's
  // the engine chooses one of that very text, and a finished sentence is the commit. One
  // that leaves something is the preedit; or, with one candidate left, the answer is that
  // of selecting it.
  ghost predicate ActsOnShown(lib: Engine.Lib, cfg: Config, d: Disp, id: nat, index: nat, body: Body)
    requires id in d.pending && index < |d.pending[id].candidates|
  {
    && id in d.sessions && body.Composition? && body.handled
    && var shown, s := d.pending[id].candidates[index], d.sessions[id];
       && (!s.usesEngine ==> body.commit == Some(shown))
       && (s.usesEngine ==>
             && PageStart(cfg, s.page) + index < |s.candidates|
             && var k := EngineIndex(s.candidates, PageStart(cfg, s.page) + index);
                && k < |d.engine.handles| && d.engine.handles[k].text == shown
                && var (e1, done, sentence) := Engine.Chosen(lib, d.engine, k);
                   && (done ==> body.commit == Some(sentence))
                   && (!done ==>
                         var rest := World(Advanced(s, e1, sentence), e1);
                         && Engine.Lawful(lib) && Engine.Ok(lib, e1)
                         && if |e1.candidates| == 1 then body == Reported(Select(lib, cfg, rest, 0).1)
                            else body == Composition(true, sentence, true, None)))
  }

  lemma CachedPage(lib: Engine.Lib, cfg: Config, d: Disp, id: nat)
    requires DInv(lib, cfg, d) && id in d.pending
    ensures id in d.sessions && d.sessions[id].composing && WorldOf(d, id) == World(d.sessions[id], d.engine)
    ensures Inv(cfg, d.sessions[id]) && d.pending[id].candidates == Shown(cfg, d.sessions[id])
  {
    hide Inv, Engine.Ok;
  }

  lemma SelectionAnswer(d: Disp, msg: nat, id: nat, out: (World, Result))
    ensures Answered(d, msg, id, out).1 == Ok(msg, Reported(out.1))
  {
  }

  lemma SelectsWhatIsCached(lib: Engine.Lib, cfg: Config, d: Disp, msg: nat, id: nat, index: nat)
    requires DInv(lib, cfg, d) && MirrorsFor(lib, cfg, d, id)
    requires id in d.pending && index < |d.pending[id].candidates|
    ensures var resp := Handle(lib, cfg, d, msg, SelectCandidate(id, index)).1;
            resp.Ok? && ActsOnShown(lib, cfg, d, id, index, resp.body)
  {
    hide View, Inv, Mirrors, Select, Engine.Chosen, Shown, Answered, PageStart;
    CachedPage(lib, cfg, d, id);
    var w := WorldOf(d, id);
    SessionRuns.SelectActsOnShown(lib, cfg, w, index);
    SessionRuns.ShownItem(cfg, w.s, index);
    SelectionAnswer(d, msg, id, Select(lib, cfg, w, index));
  }

  // In any run over any sessions, of which id is left alone while it composes: whatever
  // item of its page the window was given is selected, the answer acts on that item.
  lemma WindowShowsWhatIsSelected(lib: Engine.Lib, cfg: Config, scheme: Scheme, e: Engine.State, every: nat,
                                  hasUi: bool, calls: seq<Call>, id: nat, index: nat, msg: nat)
    requires Engine.Lawful(lib) && Engine.Ok(lib, Engine.ResetState(e))
    requires Undisturbed(lib, cfg, Initial(scheme, e, every, hasUi), calls, id)
    ensures var d := Run(lib, cfg, Initial(scheme, e, every, hasUi), calls).0;
            && MirrorsFor(lib, cfg, d, id)
            && (id in d.pending && index < |d.pending[id].candidates| ==>
                  var resp := Handle(lib, cfg, d, msg, SelectCandidate(id, index)).1;
                  resp.Ok? && ActsOnShown(lib, cfg, d, id, index, resp.body))
  {
    hide DInv, Handle, ActsOnShown, Undisturbed, Run;
    var d0 := Initial(scheme, e, every, hasUi);
    InitialIsFine(lib, cfg, scheme, e, every, hasUi);
    IdleMirrorsFor(lib, cfg, d0, id);
    RunMirrors(lib, cfg, d0, calls, id);
    var d := Run(lib, cfg, d0, calls).0;
    DInvHolds(lib, cfg, d);
    if id in d.pending && index < |d.pending[id].candidates| {
      SelectsWhatIsCached(lib, cfg, d, msg, id, index);
    }
  }
}
