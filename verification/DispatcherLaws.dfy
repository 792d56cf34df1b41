// What each request does, as the text service and the candidate window see it.
module DispatcherLaws {
  import opened Decimal
  import opened Sources
  import opened SessionSpec
  import opened SessionInv
  import opened KeyLaws
  import opened Learning
  import opened DispatcherSpec
  import opened DispatcherRuns
  import Engine

  // ---- The candidate window -------------------------------------------------------------

  // A caret rectangle makes the window show the session's present page there, if and only
  // if there is a window, the rectangle is not all zero, and the session is composing.
  lemma CaretShows(lib: Engine.Lib, cfg: Config, d: Disp, msg: nat, id: nat, rect: Rect)
    requires DInv(lib, cfg, d)
    ensures var d1 := Handle(lib, cfg, d, msg, SetCaretRect(id, rect)).0;
            if d.hasUi && (rect.x != 0 || rect.y != 0 || rect.w != 0 || rect.h != 0)
               && id in d.sessions && d.sessions[id].composing then
              var now := View(cfg, d.sessions[id], true, false, "");
              && Tells(cfg, d.sessions[id], now)
              && d1 == d.(ui := d.ui[id := Show(rect, now.preedit, now.candidates,
                                                now.pageIndex, now.pageSize, now.pageTotal, now.armedIndex)])
            else d1 == d
  {
    hide Inv, Engine.Ok, Engine.Lawful, View, Tells;
    if id in d.pending {
      SameView(cfg, d.sessions[id], d.pending[id]);
      ViewTells(cfg, d.sessions[id], true, false, "");
    }
  }

  // A session that stops composing, loses focus or is interrupted by a change of scheme is
  // hidden, if there is a window; a request that leaves it composing does not hide it.
  lemma EndingHides(lib: Engine.Lib, cfg: Config, d: Disp, msg: nat, req: Request, id: nat)
    requires DInv(lib, cfg, d) && d.hasUi && id in d.pending
    ensures var d1 := Handle(lib, cfg, d, msg, req).0;
            && (id !in d1.pending ==> id in d1.ui && d1.ui[id] == Hide)
            && (id in d1.pending && id in d.ui ==> id in d1.ui && (d1.ui[id] == d.ui[id] || d1.ui[id].Show?))
  {
    hide DInv, Answered, Outcome, Switched, Unfocused, CaretMoved, SessionOf, Engine.Ok, Engine.Lawful;
    hide SessionSpec.ProcessKey, Select, Page, Commit, Cancel;
    DInvHolds(lib, cfg, d);
    if Works(req).Some? {
      HandleAnswers(lib, cfg, d, msg, req);
      AnsweredHides(d, msg, Works(req).value, Outcome(lib, cfg, d, req), id);
    } else {
      match req
      case FocusOut(s) => UnfocusedHides(d, s, id);
      case SetCaretRect(s, rect) => CaretHidesNothing(d, s, rect, id);
      case SetConfig(patch) =>
        if patch.Method? && SchemeOf(patch.name).Some? {
          SwitchedHides(d, SchemeOf(patch.name).value, id);
        }
      case _ =>
    }
  }

  lemma AnsweredHides(d: Disp, msg: nat, s: nat, out: (World, Result), id: nat)
    requires d.hasUi && id in d.pending
    ensures var d1 := Answered(d, msg, s, out).0;
            if id in d1.pending then (id in d1.ui <==> id in d.ui) && (id in d.ui ==> d1.ui[id] == d.ui[id])
            else id in d1.ui && d1.ui[id] == Hide
  {
    hide Tick;
  }

  lemma UnfocusedHides(d: Disp, s: nat, id: nat)
    requires d.hasUi && id in d.pending
    ensures var d1 := Unfocused(d, s);
            if id in d1.pending then (id in d1.ui <==> id in d.ui) && (id in d.ui ==> d1.ui[id] == d.ui[id])
            else id in d1.ui && d1.ui[id] == Hide
  {
    hide Idled;
  }

  lemma CaretHidesNothing(d: Disp, s: nat, rect: Rect, id: nat)
    requires id in d.pending
    ensures var d1 := CaretMoved(d, s, rect);
            d1.pending == d.pending && (id in d.ui ==> id in d1.ui && (d1.ui[id] == d.ui[id] || d1.ui[id].Show?))
  {
  }

  lemma SwitchedHides(d: Disp, scheme: Scheme, id: nat)
    requires d.hasUi && id in d.pending
    ensures var d1 := Switched(d, scheme);
            if id in d1.pending then (id in d1.ui <==> id in d.ui) && (id in d.ui ==> d1.ui[id] == d.ui[id])
            else id in d1.ui && d1.ui[id] == Hide
  {
    hide Interrupted;
    DroppedIs(Reschemed(d, scheme), Interrupted(d, scheme));
  }

  // ---- Answers to the text service ------------------------------------------------------

  // The answer to a request that makes a session work tells the session it leaves: the
  // preedit is the input until something is chosen, and then the sentence so far; it is
  // empty exactly when nothing is composed. A commit comes only at the end of a
  // composition, and what is not handled changes nothing.
  lemma AnswerTells(lib: Engine.Lib, cfg: Config, d: Disp, msg: nat, req: Request)
    requires DInv(lib, cfg, d) && Works(req).Some?
    ensures var id := Works(req).value; var (d1, resp) := Handle(lib, cfg, d, msg, req);
            && resp.Ok? && resp.id == msg && resp.body.Composition? && id in d1.sessions
            && var s := d1.sessions[id]; var body := resp.body;
               && body.composing == s.composing
               && (s.partial == "" ==> body.preedit == s.raw) && (s.partial != "" ==> body.preedit == s.partial)
               && (body.preedit == "" <==> !body.composing)
               && (body.commit.Some? ==> !s.composing)
               && (!body.handled ==> body.commit.None? && s == SessionOf(d, id) && d1.engine == d.engine)
    ensures var r := Outcome(lib, cfg, d, req).1; var body := Handle(lib, cfg, d, msg, req).1.body;
            && body.Composition? && body.handled == r.handled
            && (body.commit.Some? <==> r.hasCommit) && (r.hasCommit ==> body.commit.value == r.commit)
  {
    hide DInv, Outcome, Inv, View, Engine.Ok, Engine.Lawful, Handle;
    DInvHolds(lib, cfg, d);
    HandleAnswers(lib, cfg, d, msg, req);
    OutcomeKeeps(lib, cfg, d, req);
    OutcomeTells(lib, cfg, d, req);
    AnsweredSession(d, msg, Works(req).value, Outcome(lib, cfg, d, req));
  }

  // A key that types c is answered by the input with c at its end, unless it completed
  // something: then by what it chose or committed.
  lemma TypedKeyIsAnswered(lib: Engine.Lib, cfg: Config, d: Disp, msg: nat, id: nat, vk: int, ch: nat, ctrl: bool)
    requires DInv(lib, cfg, d) && TypedChar(cfg, SessionOf(d, id), vk, ch, ctrl).Some?
    ensures var c := TypedChar(cfg, SessionOf(d, id), vk, ch, ctrl).value;
            var (d1, resp) := Handle(lib, cfg, d, msg, ProcessKey(id, vk, ch, ctrl));
            && resp.Ok? && resp.body.Composition? && resp.body.handled && id in d1.sessions
            && if d1.sessions[id].composing then
                 && d1.sessions[id].raw == SessionOf(d, id).raw + [c] && resp.body.commit.None?
                 && (d1.sessions[id].partial == "" ==> resp.body.preedit == SessionOf(d, id).raw + [c])
               else resp.body.commit.Some? && resp.body.preedit == ""
  {
    hide DInv, Inv, View, Engine.Ok, Engine.Lawful, Handle, SessionSpec.ProcessKey, TypedChar, Answered;
    DInvHolds(lib, cfg, d);
    SessionIsFine(lib, cfg, d, id);
    var req := ProcessKey(id, vk, ch, ctrl);
    HandleAnswers(lib, cfg, d, msg, req);
    KeyTypes(lib, cfg, WorldOf(d, id), vk, ch, ctrl);
    AnsweredSession(d, msg, id, SessionSpec.ProcessKey(lib, cfg, WorldOf(d, id), vk, ch, ctrl));
  }

  lemma OutcomeTells(lib: Engine.Lib, cfg: Config, d: Disp, req: Request)
    requires DInv(lib, cfg, d) && Works(req).Some?
    ensures var (w1, r) := Outcome(lib, cfg, d, req);
            && Tells(cfg, w1.s, r) && (r.hasCommit ==> !w1.s.composing)
            && (!r.handled ==> !r.hasCommit && w1 == WorldOf(d, Works(req).value))
  {
    hide DInv, Outcome, View, Tells, Sound, NoLoneCandidate, Engine.Ok, Engine.Lawful;
    DInvHolds(lib, cfg, d);
    OutcomeKeeps(lib, cfg, d, req);
    SessionIsFine(lib, cfg, d, Works(req).value);
    var (w1, r) := Outcome(lib, cfg, d, req);
    InvIs(cfg, w1.s);
    InvIs(cfg, SessionOf(d, Works(req).value));
    ViewTells(cfg, w1.s, r.handled, r.hasCommit, r.commit);
  }

  lemma AnsweredSession(d: Disp, msg: nat, id: nat, out: (World, Result))
    ensures var (d1, resp) := Answered(d, msg, id, out);
            && id in d1.sessions && d1.sessions[id] == out.0.s && d1.engine == out.0.e
            && resp == Ok(msg, Reported(out.1))
  {
    hide Tick;
  }

  // The greeting tells whether the engine can work and the scheme that every session has
  // and a new one would have.
  lemma HelloTells(lib: Engine.Lib, cfg: Config, d: Disp, msg: nat, id: nat)
    requires DInv(lib, cfg, d)
    ensures var (d1, resp) := Handle(lib, cfg, d, msg, Hello); var (d2, _) := Handle(lib, cfg, d, msg, InitSession(id));
            && d1 == d && resp == Ok(msg, Greeting(d.engine.ready, d2.sessions[id].scheme))
            && forall k :: k in d.sessions ==> d.sessions[k].scheme == d2.sessions[id].scheme
  {
    hide Inv, Engine.Ok, Engine.Lawful, CacheAgrees;
  }

  // A session asked for is there afterwards, as it was or new and idle, and nothing else
  // has changed; out of focus it is gone, with its composition, and the engine is at rest.
  lemma SessionsComeAndGo(lib: Engine.Lib, cfg: Config, d: Disp, msg: nat, id: nat)
    requires DInv(lib, cfg, d)
    ensures var d1 := Handle(lib, cfg, d, msg, InitSession(id)).0;
            && id in d1.sessions && d1 == d.(sessions := d1.sessions)
            && (id in d.sessions ==> d1 == d)
            && (id !in d.sessions ==> !d1.sessions[id].composing && d1.sessions[id].fieldHint == "")
            && forall k :: k != id ==> (k in d1.sessions <==> k in d.sessions)
    ensures var (d1, resp) := Handle(lib, cfg, d, msg, FocusOut(id));
            && resp == Ok(msg, Nothing) && id !in d1.sessions && id !in d1.pending
            && AtRest(d1.engine) && d1.engine.inst.dict == d.engine.inst.dict && d1.saves == d.saves
            && forall k :: k != id ==> (k in d1.sessions <==> k in d.sessions)
  {
    hide Inv, Engine.Ok, Engine.Lawful, CacheAgrees, View;
    if id in d.sessions {
      assert d.sessions[id := d.sessions[id]] == d.sessions;
    }
  }

  // A field hint is kept in the session named and changes nothing else.
  lemma HintIsKept(lib: Engine.Lib, cfg: Config, d: Disp, msg: nat, id: nat, hint: string)
    requires DInv(lib, cfg, d)
    ensures var (d1, resp) := Handle(lib, cfg, d, msg, SetFieldHint(id, hint));
            && resp == Ok(msg, Nothing) && id in d1.sessions
            && d1.sessions[id] == SessionOf(d, id).(fieldHint := hint)
            && d1 == d.(sessions := d.sessions[id := d1.sessions[id]])
  {
    hide Inv, Engine.Ok, Engine.Lawful, CacheAgrees, View;
  }

  // The names of the schemes. A known one becomes the scheme of all sessions, now and to
  // come, and is answered by name; an unknown one is refused with code 1 and changes
  // nothing, no name at all changes nothing.
  lemma ConfigApplies(lib: Engine.Lib, cfg: Config, d: Disp, msg: nat, name: string)
    requires DInv(lib, cfg, d)
    ensures var (d1, resp) := Handle(lib, cfg, d, msg, SetConfig(Method(name)));
            && (name == "" ==> d1 == d && resp == Ok(msg, Applied(None)))
            && (name in {"smartabc", "pinyin", "wubi"} ==>
                  && resp == Ok(msg, Applied(Some(name)))
                  && (name == "smartabc" ==> d1.scheme == SmartAbc)
                  && (name == "pinyin" ==> d1.scheme == PlainPinyin) && (name == "wubi" ==> d1.scheme == Wubi)
                  && d1.sessions.Keys == d.sessions.Keys
                  && (forall k :: k in d1.sessions ==> d1.sessions[k].scheme == d1.scheme)
                  && d1.engine.inst.dict == d.engine.inst.dict)
            && (name !in {"", "smartabc", "pinyin", "wubi"} ==> d1 == d && resp == Err(msg, 1))
    ensures Handle(lib, cfg, d, msg, SetConfig(NoMethod)) == (d, Ok(msg, Applied(None)))
  {
    hide DInv, Switched;
    DInvHolds(lib, cfg, d);
    if SchemeOf(name).Some? {
      SwitchedKeeps(lib, cfg, d, SchemeOf(name).value);
      SwitchedIs(lib, cfg, d, SchemeOf(name).value);
    }
  }

  lemma SwitchedIs(lib: Engine.Lib, cfg: Config, d: Disp, scheme: Scheme)
    requires DInv(lib, cfg, d)
    ensures var d1 := Switched(d, scheme);
            && d1.scheme == scheme && d1.sessions.Keys == d.sessions.Keys && d1.engine.inst.dict == d.engine.inst.dict
            && forall k :: k in d1.sessions ==> d1.sessions[k].scheme == scheme
  {
    hide Inv, Engine.Ok, Engine.Lawful, CacheAgrees, View, Interrupted, Idled;
    DroppedIs(Reschemed(d, scheme), Interrupted(d, scheme));
    forall k | k in d.sessions
      ensures SetScheme(World(d.sessions[k], d.engine), scheme).s.scheme == scheme
    {
      SchemeIsSet(World(d.sessions[k], d.engine), scheme);
    }
  }

  lemma SchemeIsSet(w: World, scheme: Scheme)
    ensures SetScheme(w, scheme).s.scheme == scheme
  {
  }

  // Only a shutdown asks the server to stop; a method it does not know is refused with code
  // -3; neither does anything else, nor does gaining focus.
  lemma OnlyShutdownStops(lib: Engine.Lib, cfg: Config, d: Disp, msg: nat, req: Request)
    requires DInv(lib, cfg, d)
    ensures Handle(lib, cfg, d, msg, req).0.shutdown <==> d.shutdown || req == Shutdown
    ensures Handle(lib, cfg, d, msg, Shutdown) == (d.(shutdown := true), Ok(msg, Nothing))
    ensures Handle(lib, cfg, d, msg, Unknown) == (d, Err(msg, -3))
    ensures Handle(lib, cfg, d, msg, FocusIn) == (d, Ok(msg, Nothing))
  {
    hide DInv, Outcome, Answered, Switched, Unfocused, CaretMoved, SessionOf, Engine.Ok, Engine.Lawful;
    hide SessionSpec.ProcessKey, Select, Page, Commit, Cancel;
    DInvHolds(lib, cfg, d);
    if Works(req).Some? {
      HandleAnswers(lib, cfg, d, msg, req);
      AnsweredGoesOn(d, msg, Works(req).value, Outcome(lib, cfg, d, req));
    } else {
      match req
      case FocusOut(id) => UnfocusedGoesOn(d, id);
      case SetCaretRect(id, rect) => CaretGoesOn(d, id, rect);
      case SetConfig(patch) =>
        if patch.Method? && SchemeOf(patch.name).Some? {
          SwitchedGoesOn(d, SchemeOf(patch.name).value);
        }
      case _ =>
    }
  }

  lemma AnsweredGoesOn(d: Disp, msg: nat, id: nat, out: (World, Result))
    ensures Answered(d, msg, id, out).0.shutdown == d.shutdown
  {
    hide Tick;
  }

  lemma UnfocusedGoesOn(d: Disp, id: nat)
    ensures Unfocused(d, id).shutdown == d.shutdown
  {
    hide Idled;
  }

  lemma CaretGoesOn(d: Disp, id: nat, rect: Rect)
    ensures CaretMoved(d, id, rect).shutdown == d.shutdown
  {
  }

  lemma SwitchedGoesOn(d: Disp, scheme: Scheme)
    ensures Switched(d, scheme).shutdown == d.shutdown
  {
    DroppedIs(Reschemed(d, scheme), Interrupted(d, scheme));
  }
}
