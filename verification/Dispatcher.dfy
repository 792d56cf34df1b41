// Sessions by id and the request loop over them:
// src/domains/input-engine/logic/session/session_manager.cpp and dispatcher.cpp.
module Dispatcher {
  import opened Decimal
  import opened Sources
  import opened SessionSpec
  import opened DispatcherSpec
  import Learning
  import Session
  import Engine

  class SessionManager {
    const cfg: Config
    const engine: Engine.LibPinyinEngine
    var scheme: Scheme
    var sessions: map<nat, Session.Session>

    constructor (cfg: Config, engine: Engine.LibPinyinEngine, scheme: Scheme)
      ensures this.cfg == cfg && this.engine == engine && this.scheme == scheme && sessions == map[]
    {
      this.cfg, this.engine, this.scheme, sessions := cfg, engine, scheme, map[];
    }

    function Objects(): set<Session.Session>
      reads this`sessions
    {
      set id | id in sessions :: sessions[id]
    }

    // All sessions share the engine, and no two ids share a session.
    ghost predicate Valid()
      reads this`sessions
    {
      && (forall id :: id in sessions ==> sessions[id].engine == engine && sessions[id].cfg == cfg)
      && (forall i, j :: i in sessions && j in sessions && i != j ==> sessions[i] != sessions[j])
    }

    function Views(): map<nat, Sess>
      reads this`sessions, Objects()
    {
      map id | id in sessions :: sessions[id].View()
    }

    method GetOrCreate(id: nat) returns (s: Session.Session)
      requires Valid()
      modifies this`sessions
      ensures Valid() && id in sessions && s == sessions[id] && s.engine == engine && s.cfg == cfg
      ensures fresh(Objects() - old(Objects()))
      ensures Views() == old(Views())[id := if id in old(sessions) then old(sessions[id].View()) else Fresh(scheme)]
    {
      if id !in sessions {
        s := new Session.Session(cfg, engine, scheme);
        assert forall k :: k in sessions ==> sessions[k] != s && sessions[k].View() == old(sessions[k].View());
        sessions := sessions[id := s];
      } else {
        s := sessions[id];
      }
    }

    method Remove(id: nat)
      requires Valid()
      modifies this`sessions
      ensures Valid() && Objects() <= old(Objects())
      ensures Views() == old(Views()) - {id}
    {
      sessions := sessions - {id};
    }

    method SwitchOne(id: nat, newScheme: Scheme) returns (was: bool)
      requires Valid() && id in sessions
      modifies sessions[id], engine
      ensures Valid() && sessions == old(sessions) && scheme == old(scheme)
      ensures Views() == old(Views())[id := SetScheme(World(old(sessions[id].View()), old(engine.View())), newScheme).s]
      ensures was == (old(sessions[id].composing) && old(sessions[id].scheme) != newScheme)
      ensures engine.View() == if was then Engine.ResetState(old(engine.View())) else old(engine.View())
    {
      hide SetScheme, Engine.ResetState;
      SwitchIgnoresEngine(sessions[id].View(), engine.View(), engine.View(), newScheme);
      was := sessions[id].SetScheme(newScheme);
    }

    // In any order: the engine is reset if any session was composing under another scheme.
    method SetSchemeForAll(newScheme: Scheme) returns (affected: set<nat>)
      requires Valid()
      modifies this`scheme, Objects(), engine
      ensures Valid() && scheme == newScheme && sessions == old(sessions)
      ensures affected
           == set id | id in old(Views()) && old(Views())[id].composing && old(Views())[id].scheme != newScheme
      ensures Views()
           == map id | id in old(Views()) :: SetScheme(World(old(Views())[id], old(engine.View())), newScheme).s
      ensures engine.View() == if affected == {} then old(engine.View()) else Engine.ResetState(old(engine.View()))
    {
      hide SetScheme, Engine.ResetState, Views, Mixed, Hit;
      scheme := newScheme;
      affected := {};
      ghost var before, engine0 := old(Views()), old(engine.View());
      ghost var after := map id | id in before :: SetScheme(World(before[id], engine0), newScheme).s;
      var todo := sessions.Keys;
      ViewsKeys();
      MixedEnds(before, after, newScheme);
      while todo != {}
        invariant todo <= before.Keys && sessions == old(sessions) && scheme == newScheme && Valid()
        invariant Views() == Mixed(before, after, todo)
        invariant affected == Hit(before, todo, newScheme)
        invariant engine.View() == if affected == {} then engine0 else Engine.ResetState(engine0)
        decreases todo
      {
        var id :| id in todo;
        MixedStep(before, after, todo, id, newScheme);
        ViewsAt(id);
        ghost var s := before[id];
        assert sessions[id].View() == s;
        SwitchIgnoresEngine(s, engine.View(), engine0, newScheme);
        var was := SwitchOne(id, newScheme);
        assert was == (s.composing && s.scheme != newScheme);
        affected := affected + if was then {id} else {};
        todo := todo - {id};
      }
    }

    lemma ViewsKeys()
      ensures Views().Keys == sessions.Keys
    {
    }

    lemma ViewsAt(id: nat)
      requires id in sessions
      ensures id in Views() && Views()[id] == sessions[id].View()
    {
    }
  }

  // The sessions of todo as before, the others as after.
  ghost function Mixed(before: map<nat, Sess>, after: map<nat, Sess>, todo: set<nat>): map<nat, Sess>
    requires before.Keys == after.Keys
  {
    map id | id in before :: if id in todo then before[id] else after[id]
  }

  // The sessions outside todo that a switch interrupts.
  ghost function Hit(before: map<nat, Sess>, todo: set<nat>, scheme: Scheme): set<nat> {
    set id | id in before && id !in todo && before[id].composing && before[id].scheme != scheme
  }

  lemma MixedEnds(before: map<nat, Sess>, after: map<nat, Sess>, scheme: Scheme)
    requires before.Keys == after.Keys
    ensures Mixed(before, after, before.Keys) == before && Mixed(before, after, {}) == after
    ensures Hit(before, before.Keys, scheme) == {}
    ensures Hit(before, {}, scheme) == set id | id in before && before[id].composing && before[id].scheme != scheme
  {
  }

  lemma MixedStep(before: map<nat, Sess>, after: map<nat, Sess>, todo: set<nat>, id: nat, scheme: Scheme)
    requires before.Keys == after.Keys && id in todo && todo <= before.Keys
    ensures Mixed(before, after, todo)[id] == before[id]
    ensures Mixed(before, after, todo)[id := after[id]] == Mixed(before, after, todo - {id})
    ensures Hit(before, todo - {id}, scheme)
         == Hit(before, todo, scheme) + if before[id].composing && before[id].scheme != scheme then {id} else {}
  {
  }

  // A switch acts on the engine by at most a reset, and on the session regardless of it.
  lemma SwitchIgnoresEngine(s: Sess, e: Engine.State, e0: Engine.State, scheme: Scheme)
    ensures SetScheme(World(s, e), scheme).s == SetScheme(World(s, e0), scheme).s
    ensures SetScheme(World(s, e), scheme).e == if s.composing && s.scheme != scheme then Engine.ResetState(e) else e
    ensures Engine.ResetState(Engine.ResetState(e0)) == Engine.ResetState(e0)
  {
  }

  lemma DroppedNone(d: Disp, hit: set<nat>)
    requires hit == {}
    ensures Dropped(d, hit) == d
  {
    assert d.pending - hit == d.pending;
    assert d.ui + (map k | k in hit :: Hide) == d.ui;
  }

  lemma DroppedMore(d: Disp, hit: set<nat>, id: nat)
    ensures var d1 := Dropped(d, hit);
            Called(d1.(pending := d1.pending - {id}), id, Hide) == Dropped(d, hit + {id})
  {
    PendingMore(d.pending, hit, id);
    HiddenMore(d.ui, hit, id);
    DroppedIs(d, hit);
    DroppedIs(d, hit + {id});
    hide Dropped;
  }

  lemma PendingMore(m: map<nat, Result>, hit: set<nat>, id: nat)
    ensures m - hit - {id} == m - (hit + {id})
  {
  }

  lemma HiddenMore(ui: map<nat, UiCall>, hit: set<nat>, id: nat)
    ensures (ui + map k | k in hit :: Hide)[id := Hide] == ui + map k | k in hit + {id} :: Hide
  {
  }

  class Dispatcher {
    const cfg: Config
    const engine: Engine.LibPinyinEngine
    const sessions: SessionManager
    const counter: Learning.AutosaveCounter
    const hasUi: bool
    var pendingUi: map<nat, Result>
    var shouldShutdown: bool
    // Traces of the calls made to the candidate window and of the saves.
    ghost var ui: map<nat, UiCall>
    ghost var saves: nat

    constructor (cfg: Config, engine: Engine.LibPinyinEngine, scheme: Scheme, every: nat, hasUi: bool)
      ensures Valid() && this.engine == engine && this.cfg == cfg
      ensures View() == Disp(map[], engine.View(), scheme, map[], false, every, 0, hasUi, map[], 0)
    {
      this.cfg, this.engine, this.hasUi := cfg, engine, hasUi;
      sessions := new SessionManager(cfg, engine, scheme);
      counter := new Learning.AutosaveCounter(every);
      pendingUi, shouldShutdown, ui, saves := map[], false, map[], 0;
    }

    ghost predicate Valid()
      reads this, sessions
    {
      sessions.Valid() && sessions.engine == engine && sessions.cfg == cfg
    }

    ghost predicate Ready()
      reads engine
    {
      Engine.Lawful(engine.lib) && Engine.Ok(engine.lib, engine.View())
    }

    ghost function View(): Disp
      reads this, sessions, sessions.Objects(), engine, counter
    {
      Disp(sessions.Views(), engine.View(), sessions.scheme, pendingUi, shouldShutdown, counter.every, counter.count,
           hasUi, ui, saves)
    }

    method PushHide(id: nat)
      modifies this`ui
      ensures View() == Called(old(View()), id, Hide)
    {
      if hasUi {
        ui := ui[id := Hide];
      }
    }

    method MaybePushToUi(id: nat, r: Result)
      modifies this`pendingUi, this`ui
      ensures View() == Pushed(old(View()), id, r)
    {
      if !r.composing {
        Conceal(id);
        return;
      }
      pendingUi := pendingUi[id := r];
    }

    method MaybeAutosave()
      modifies this`saves, counter
      ensures var (save, c) := Learning.Tick(old(View()).every, old(View()).count);
              View() == old(View()).(count := c, saves := old(saves) + if save then 1 else 0)
    {
      var save := counter.OnCommit();
      if save {
        saves := saves + 1;
      }
    }

    method SessionResultToResponse(msg: nat, id: nat, r: Result) returns (resp: Response)
      modifies this`pendingUi, this`ui, this`saves, counter
      ensures View() == Counted(Pushed(old(View()), id, r), r)
      ensures resp == Ok(msg, Reported(r))
    {
      MaybePushToUi(id, r);
      var commit := None;
      if r.hasCommit {
        commit := Some(r.commit);
        MaybeAutosave();
      }
      resp := Ok(msg, Composition(r.handled, r.preedit, r.composing, commit));
    }

    // The session for id, created if need be, with what the rest of the state is then.
    method Find(id: nat) returns (s: Session.Session)
      requires Valid()
      modifies sessions`sessions
      ensures Valid() && id in sessions.sessions && s == sessions.sessions[id] && s.engine == engine && s.cfg == cfg
      ensures fresh(sessions.Objects() - old(sessions.Objects()))
      ensures View() == WithWorld(old(View()), id, WorldOf(old(View()), id))
      ensures s.Now() == WorldOf(old(View()), id)
    {
      s := sessions.GetOrCreate(id);
      assert sessions.Views()[id] == s.View();
    }

    // When only the session of id and the engine moved since the state was d.
    lemma OneSessionMoved(d: Disp, id: nat, views: map<nat, Sess>)
      requires Valid() && id in sessions.sessions && views.Keys == sessions.sessions.Keys
      requires views == d.sessions[id := SessionOf(d, id)]
      requires forall k :: k in sessions.sessions && k != id ==> sessions.sessions[k].View() == views[k]
      requires sessions.scheme == d.scheme && pendingUi == d.pending && shouldShutdown == d.shutdown
      requires counter.every == d.every && counter.count == d.count && hasUi == d.hasUi && ui == d.ui
      requires saves == d.saves
      ensures View() == WithWorld(d, id, sessions.sessions[id].Now())
    {
      assert sessions.Views() == views[id := sessions.sessions[id].View()];
    }

    method HandleProcessKey(msg: nat, id: nat, vk: int, ch: nat, ctrl: bool) returns (resp: Response)
      requires Valid() && Ready()
      modifies this, sessions, sessions.Objects(), engine, counter
      ensures Valid() && fresh(sessions.Objects() - old(sessions.Objects()))
      ensures (View(), resp)
           == Answered(old(View()), msg, id,
                       SessionSpec.ProcessKey(engine.lib, cfg, WorldOf(old(View()), id), vk, ch, ctrl))
    {
      hide SessionSpec.ProcessKey, Pushed, Counted;
      ghost var d := old(View());
      var s := Find(id);
      ghost var views := sessions.Views();
      var r := s.ProcessKey(vk, ch, ctrl);
      OneSessionMoved(d, id, views);
      resp := SessionResultToResponse(msg, id, r);
    }

    method HandleSelectCandidate(msg: nat, id: nat, index: int) returns (resp: Response)
      requires Valid() && Ready()
      modifies this, sessions, sessions.Objects(), engine, counter
      ensures Valid() && fresh(sessions.Objects() - old(sessions.Objects()))
      ensures (View(), resp) == Answered(old(View()), msg, id, Select(engine.lib, cfg, WorldOf(old(View()), id), index))
    {
      hide Select, Pushed, Counted;
      ghost var d := old(View());
      var s := Find(id);
      ghost var views := sessions.Views();
      var r := s.SelectCandidate(index);
      OneSessionMoved(d, id, views);
      resp := SessionResultToResponse(msg, id, r);
    }

    method HandlePageCandidates(msg: nat, id: nat, delta: int) returns (resp: Response)
      requires Valid() && Ready()
      modifies this, sessions, sessions.Objects(), engine, counter
      ensures Valid() && fresh(sessions.Objects() - old(sessions.Objects()))
      ensures (View(), resp) == Answered(old(View()), msg, id, Page(cfg, WorldOf(old(View()), id), delta))
    {
      hide Page, Pushed, Counted;
      ghost var d := old(View());
      var s := Find(id);
      ghost var views := sessions.Views();
      var r := s.PageCandidates(delta);
      OneSessionMoved(d, id, views);
      resp := SessionResultToResponse(msg, id, r);
    }

    method HandleCommitComposition(msg: nat, id: nat) returns (resp: Response)
      requires Valid() && Ready()
      modifies this, sessions, sessions.Objects(), engine, counter
      ensures Valid() && fresh(sessions.Objects() - old(sessions.Objects()))
      ensures (View(), resp) == Answered(old(View()), msg, id, Commit(engine.lib, cfg, WorldOf(old(View()), id)))
    {
      hide Commit, Pushed, Counted;
      ghost var d := old(View());
      var s := Find(id);
      ghost var views := sessions.Views();
      var r := s.CommitComposition();
      OneSessionMoved(d, id, views);
      resp := SessionResultToResponse(msg, id, r);
    }

    method HandleCancelComposition(msg: nat, id: nat) returns (resp: Response)
      requires Valid() && Ready()
      modifies this, sessions, sessions.Objects(), engine, counter
      ensures Valid() && fresh(sessions.Objects() - old(sessions.Objects()))
      ensures (View(), resp) == Answered(old(View()), msg, id, Cancel(cfg, WorldOf(old(View()), id)))
    {
      hide Cancel, Pushed, Counted;
      ghost var d := old(View());
      var s := Find(id);
      ghost var views := sessions.Views();
      var r := s.CancelComposition();
      OneSessionMoved(d, id, views);
      resp := SessionResultToResponse(msg, id, r);
    }

    method HandleFocusOut(id: nat)
      requires Valid()
      modifies this, sessions, sessions.Objects(), engine
      ensures Valid() && fresh(sessions.Objects() - old(sessions.Objects()))
      ensures View() == Unfocused(old(View()), id)
    {
      hide Idled, Called;
      ghost var d := old(View());
      var s := Find(id);
      ghost var views := sessions.Views();
      s.FocusOut();
      OneSessionMoved(d, id, views);
      var w := s.Now();
      Forget(id);
      RemoveUpdated(d.sessions, id, w.s);
      assert View() == d.(sessions := d.sessions - {id}, engine := w.e);
      Conceal(id);
    }

    method Conceal(id: nat)
      modifies this`pendingUi, this`ui
      ensures View() == Called(old(View()).(pending := old(View()).pending - {id}), id, Hide)
    {
      pendingUi := pendingUi - {id};
      PushHide(id);
    }

    method Forget(id: nat)
      requires Valid()
      modifies sessions`sessions
      ensures Valid() && sessions.Objects() <= old(sessions.Objects())
      ensures View() == old(View()).(sessions := old(View()).sessions - {id})
    {
      sessions.Remove(id);
    }

    lemma RemoveUpdated(m: map<nat, Sess>, id: nat, s: Sess)
      ensures m[id := s] - {id} == m - {id}
    {
    }

    method HandleSetCaretRect(id: nat, rect: Rect)
      modifies this`ui
      ensures View() == CaretMoved(old(View()), id, rect)
    {
      if id in pendingUi && hasUi {
        if !(rect.x == 0 && rect.y == 0 && rect.w == 0 && rect.h == 0) {
          var r := pendingUi[id];
          ui := ui[id := Show(rect, r.preedit, r.candidates, r.pageIndex, r.pageSize, r.pageTotal, r.armedIndex)];
        }
      }
    }

    method HandleSetFieldHint(id: nat, hint: string)
      requires Valid()
      modifies sessions, sessions.Objects()
      ensures Valid() && fresh(sessions.Objects() - old(sessions.Objects()))
      ensures View()
           == WithWorld(old(View()), id, World(SessionOf(old(View()), id).(fieldHint := hint), old(engine.View())))
    {
      ghost var d := old(View());
      var s := Find(id);
      ghost var views := sessions.Views();
      s.SetFieldHint(hint);
      OneSessionMoved(d, id, views);
    }

    method HandleSetConfig(msg: nat, patch: Patch) returns (resp: Response)
      requires Valid()
      modifies this, sessions, sessions.Objects(), engine
      ensures Valid() && sessions.Objects() == old(sessions.Objects())
      ensures (View(), resp) == Configured(old(View()), msg, patch)
    {
      hide SetScheme, Engine.ResetState;
      if patch.NoMethod? || patch.name == "" {
        return Ok(msg, Applied(None));
      }
      var parsed := SchemeOf(patch.name);
      if parsed.None? {
        return Err(msg, OPERATION_FAILED);
      }
      SwitchAll(parsed.value);
      resp := Ok(msg, Applied(Some(patch.name)));
    }

    // Sessions interrupted by the switch are dropped from the cache and their window hidden.
    method SwitchAll(scheme: Scheme)
      requires Valid()
      modifies this, sessions, sessions.Objects(), engine
      ensures Valid() && sessions.Objects() == old(sessions.Objects())
      ensures View() == Switched(old(View()), scheme)
    {
      hide Dropped;
      var affected := Rescheme(scheme);
      Drop(affected);
    }

    method Rescheme(scheme: Scheme) returns (affected: set<nat>)
      requires Valid()
      modifies sessions, sessions.Objects(), engine
      ensures Valid() && sessions.Objects() == old(sessions.Objects())
      ensures View() == Reschemed(old(View()), scheme) && affected == Interrupted(old(View()), scheme)
    {
      hide SetScheme, Engine.ResetState;
      affected := sessions.SetSchemeForAll(scheme);
    }

    method Drop(affected: set<nat>)
      modifies this`pendingUi, this`ui
      ensures View() == Dropped(old(View()), affected)
    {
      hide Called, Dropped;
      var todo := affected;
      DroppedNone(View(), affected - todo);
      while todo != {}
        invariant todo <= affected && View() == Dropped(old(View()), affected - todo)
        decreases todo
      {
        var id :| id in todo;
        DroppedMore(old(View()), affected - todo, id);
        Conceal(id);
        assert affected - (todo - {id}) == affected - todo + {id};
        todo := todo - {id};
      }
      assert affected - todo == affected;
    }

    method Handle(msg: nat, req: Request) returns (resp: Response)
      requires Valid() && Ready()
      modifies this, sessions, sessions.Objects(), engine, counter
      ensures Valid() && fresh(sessions.Objects() - old(sessions.Objects()))
      ensures (View(), resp) == DispatcherSpec.Handle(engine.lib, cfg, old(View()), msg, req)
    {
      hide Answered, Outcome, Engine.Ok, Engine.Lawful, DispatcherSpec.Handle;
      assert View().engine == engine.View();
      hide View;
      if Works(req).Some? {
        HandleAnswers(engine.lib, cfg, View(), msg, req);
        resp := Work(msg, req);
      } else if Attends(req) {
        resp := Attend(msg, req);
      } else {
        resp := Manage(msg, req);
      }
    }

    // Requests that concern a session but do not make it work.
    predicate Attends(req: Request) {
      req.InitSession? || req.FocusOut? || req.SetCaretRect? || req.SetFieldHint?
    }

    method Attend(msg: nat, req: Request) returns (resp: Response)
      requires Valid() && Ready() && Attends(req)
      modifies this, sessions, sessions.Objects(), engine
      ensures Valid() && fresh(sessions.Objects() - old(sessions.Objects()))
      ensures (View(), resp) == DispatcherSpec.Handle(engine.lib, cfg, old(View()), msg, req)
    {
      hide Unfocused, CaretMoved, WithWorld, SessionOf, Engine.Ok, Engine.Lawful;
      assert View().engine == engine.View();
      hide View;
      resp := Ok(msg, Nothing);
      match req
      case InitSession(id) => var s := Find(id);
      case FocusOut(id) => HandleFocusOut(id);
      case SetCaretRect(id, rect) => HandleSetCaretRect(id, rect);
      case SetFieldHint(id, hint) => HandleSetFieldHint(id, hint);
    }

    // Requests to the engine as a whole.
    method Manage(msg: nat, req: Request) returns (resp: Response)
      requires Valid() && Ready() && Works(req).None? && !Attends(req)
      modifies this, sessions, sessions.Objects(), engine
      ensures Valid() && fresh(sessions.Objects() - old(sessions.Objects()))
      ensures (View(), resp) == DispatcherSpec.Handle(engine.lib, cfg, old(View()), msg, req)
    {
      hide Configured, Engine.Ok, Engine.Lawful, View;
      match req
      case Hello => resp := HandleHello(msg);
      case FocusIn => resp := Ok(msg, Nothing);
      case SetConfig(patch) => resp := HandleSetConfig(msg, patch);
      case Shutdown =>
        RequestShutdown();
        resp := Ok(msg, Nothing);
      case Unknown => resp := Err(msg, UNKNOWN_METHOD);
    }

    method HandleHello(msg: nat) returns (resp: Response)
      ensures resp == Ok(msg, Greeting(View().engine.ready, View().scheme))
    {
      resp := Ok(msg, Greeting(engine.ready, sessions.scheme));
    }

    method RequestShutdown()
      modifies this`shouldShutdown
      ensures View() == old(View()).(shutdown := true)
    {
      shouldShutdown := true;
    }

    // The requests that make a session work and are answered by its result.
    method Work(msg: nat, req: Request) returns (resp: Response)
      requires Valid() && Ready() && Works(req).Some?
      modifies this, sessions, sessions.Objects(), engine, counter
      ensures Valid() && fresh(sessions.Objects() - old(sessions.Objects()))
      ensures (View(), resp) == Answered(old(View()), msg, Works(req).value, Outcome(engine.lib, cfg, old(View()), req))
    {
      hide SessionSpec.ProcessKey, Select, Page, Commit, Cancel, Answered, Engine.Ok, Engine.Lawful;
      match req
      case ProcessKey(id, vk, ch, ctrl) => resp := HandleProcessKey(msg, id, vk, ch, ctrl);
      case SelectCandidate(id, index) => resp := HandleSelectCandidate(msg, id, index);
      case PageCandidates(id, delta) => resp := HandlePageCandidates(msg, id, delta);
      case CommitComposition(id) => resp := HandleCommitComposition(msg, id);
      case CancelComposition(id) => resp := HandleCancelComposition(msg, id);
    }
  }
}
