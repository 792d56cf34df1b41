// What a request does to all sessions, the engine they share, the cache of pending views
// and the candidate window: the specification of
// src/domains/input-engine/logic/dispatcher.cpp and session_manager.cpp.
module DispatcherSpec {
  import opened Decimal
  import opened Sources
  import opened SessionSpec
  import opened SessionInv
  import opened Learning
  import Engine

  datatype Rect = Rect(x: int, y: int, w: int, h: int)

  // The last call to the candidate window for a session.
  datatype UiCall =
    | Show(rect: Rect, preedit: string, candidates: seq<string>,
           pageIndex: int, pageSize: int, pageTotal: int, armedIndex: int)
    | Hide

  // A setConfig patch: none of the keys understood, or an input method by name.
  datatype Patch = NoMethod | Method(name: string)

  datatype Request =
    | Hello
    | InitSession(session: nat)
    | ProcessKey(session: nat, vk: int, ch: nat, ctrl: bool)
    | SelectCandidate(session: nat, index: int)
    | PageCandidates(session: nat, delta: int)
    | CommitComposition(session: nat)
    | CancelComposition(session: nat)
    | FocusOut(session: nat)
    | FocusIn
    | SetCaretRect(session: nat, rect: Rect)
    | SetFieldHint(session: nat, hint: string)
    | SetConfig(patch: Patch)
    | Shutdown
    | Unknown

  datatype Body =
    | Nothing
    | Greeting(ready: bool, scheme: Scheme)
    | Composition(handled: bool, preedit: string, composing: bool, commit: Option<string>)
    | Applied(name: Option<string>)

  datatype Response = Ok(id: nat, body: Body) | Err(id: nat, code: int)

  const OPERATION_FAILED := 1
  const UNKNOWN_METHOD := -3

  // ui and saves are the traces of calls to the candidate window and of dictionary saves;
  // hasUi says whether there is a window to call.
  datatype Disp = Disp(
    sessions: map<nat, Sess>, engine: Engine.State, scheme: Scheme, pending: map<nat, Result>,
    shutdown: bool, every: nat, count: nat, hasUi: bool, ui: map<nat, UiCall>, saves: nat)

  function SchemeOf(name: string): Option<Scheme> {
    if name == "smartabc" then Some(SmartAbc)
    else if name == "pinyin" then Some(PlainPinyin)
    else if name == "wubi" then Some(Wubi)
    else None
  }

  function SessionOf(d: Disp, id: nat): Sess {
    if id in d.sessions then d.sessions[id] else Fresh(d.scheme)
  }

  function WorldOf(d: Disp, id: nat): World {
    World(SessionOf(d, id), d.engine)
  }

  function WithWorld(d: Disp, id: nat, w: World): Disp {
    d.(sessions := d.sessions[id := w.s], engine := w.e)
  }

  function Called(d: Disp, id: nat, call: UiCall): Disp {
    if d.hasUi then d.(ui := d.ui[id := call]) else d
  }

  function Pushed(d: Disp, id: nat, r: Result): Disp {
    if r.composing then d.(pending := d.pending[id := r])
    else Called(d.(pending := d.pending - {id}), id, Hide)
  }

  function Counted(d: Disp, r: Result): Disp {
    if !r.hasCommit then d
    else
      var (save, c) := Tick(d.every, d.count);
      d.(count := c, saves := d.saves + if save then 1 else 0)
  }

  // A session operation and the answer to it.
  function Answered(d: Disp, msg: nat, id: nat, out: (World, Result)): (Disp, Response) {
    var r := out.1;
    (Counted(Pushed(WithWorld(d, id, out.0), id, r), r), Ok(msg, Reported(r)))
  }

  // The part of a result that goes into the answer.
  function Reported(r: Result): Body {
    Composition(r.handled, r.preedit, r.composing, if r.hasCommit then Some(r.commit) else None)
  }

  function CaretMoved(d: Disp, id: nat, rect: Rect): Disp {
    if id !in d.pending || !d.hasUi || rect == Rect(0, 0, 0, 0) then d
    else
      var r := d.pending[id];
      Called(d, id, Show(rect, r.preedit, r.candidates, r.pageIndex, r.pageSize, r.pageTotal, r.armedIndex))
  }

  // Sessions a change of scheme interrupts.
  function Interrupted(d: Disp, scheme: Scheme): set<nat> {
    set id | id in d.sessions && d.sessions[id].composing && d.sessions[id].scheme != scheme
  }

  // Takes sessions out of the cache and hides their windows.
  function Dropped(d: Disp, hit: set<nat>): Disp {
    var d1 := d.(pending := d.pending - hit);
    if d.hasUi then d1.(ui := d.ui + map id | id in hit :: Hide) else d1
  }

  // Every session under the new scheme, the interrupted ones idle.
  function Reschemed(d: Disp, scheme: Scheme): Disp {
    d.(scheme := scheme,
       sessions := map id | id in d.sessions :: SetScheme(World(d.sessions[id], d.engine), scheme).s,
       engine := if Interrupted(d, scheme) == {} then d.engine else Engine.ResetState(d.engine))
  }

  function Switched(d: Disp, scheme: Scheme): Disp {
    Dropped(Reschemed(d, scheme), Interrupted(d, scheme))
  }

  function Configured(d: Disp, msg: nat, patch: Patch): (Disp, Response) {
    if patch.NoMethod? || patch.name == "" then (d, Ok(msg, Applied(None)))
    else
      match SchemeOf(patch.name)
      case None => (d, Err(msg, OPERATION_FAILED))
      case Some(scheme) => (Switched(d, scheme), Ok(msg, Applied(Some(patch.name))))
  }

  function Unfocused(d: Disp, id: nat): Disp {
    var w := Idled(WorldOf(d, id));
    Called(d.(sessions := d.sessions - {id}, engine := w.e, pending := d.pending - {id}), id, Hide)
  }

  function Handle(lib: Engine.Lib, cfg: Config, d: Disp, msg: nat, req: Request): (Disp, Response)
    requires Engine.Lawful(lib) && Engine.Ok(lib, d.engine)
  {
    match req
    case Hello => (d, Ok(msg, Greeting(d.engine.ready, d.scheme)))
    case InitSession(id) => (WithWorld(d, id, WorldOf(d, id)), Ok(msg, Nothing))
    case ProcessKey(id, vk, ch, ctrl) =>
      Answered(d, msg, id, SessionSpec.ProcessKey(lib, cfg, WorldOf(d, id), vk, ch, ctrl))
    case SelectCandidate(id, index) => Answered(d, msg, id, Select(lib, cfg, WorldOf(d, id), index))
    case PageCandidates(id, delta) => Answered(d, msg, id, Page(cfg, WorldOf(d, id), delta))
    case CommitComposition(id) => Answered(d, msg, id, Commit(lib, cfg, WorldOf(d, id)))
    case CancelComposition(id) => Answered(d, msg, id, Cancel(cfg, WorldOf(d, id)))
    case FocusOut(id) => (Unfocused(d, id), Ok(msg, Nothing))
    case FocusIn => (d, Ok(msg, Nothing))
    case SetCaretRect(id, rect) => (CaretMoved(d, id, rect), Ok(msg, Nothing))
    case SetFieldHint(id, hint) =>
      var s := SessionOf(d, id);
      (WithWorld(d, id, World(s.(fieldHint := hint), d.engine)), Ok(msg, Nothing))
    case SetConfig(patch) => Configured(d, msg, patch)
    case Shutdown => (d.(shutdown := true), Ok(msg, Nothing))
    case Unknown => (d, Err(msg, UNKNOWN_METHOD))
  }

  // ---- The invariant -------------------------------------------------------------------

  // The cached view of a session is the view it would report now.
  predicate CacheAgrees(cfg: Config, s: Sess, r: Result) {
    r == View(cfg, s, r.handled, false, "")
  }

  ghost predicate DInv(lib: Engine.Lib, cfg: Config, d: Disp) {
    && Engine.Lawful(lib) && Engine.Ok(lib, d.engine)
    && (forall id :: id in d.sessions ==> Inv(cfg, d.sessions[id]) && d.sessions[id].scheme == d.scheme)
    && (forall id :: id in d.sessions && d.sessions[id].partial != "" ==> d.engine.ready)
    && (forall id :: id in d.pending <==> id in d.sessions && d.sessions[id].composing)
    && (forall id :: id in d.pending ==> CacheAgrees(cfg, d.sessions[id], d.pending[id]))
    && (forall id :: id in d.ui && d.ui[id].Show? ==> id in d.pending)
    && (!d.hasUi ==> d.ui == map[])
    && (d.every > 0 ==> d.count < d.every)
  }

  lemma SessionIsFine(lib: Engine.Lib, cfg: Config, d: Disp, id: nat)
    requires DInv(lib, cfg, d)
    ensures Inv(cfg, SessionOf(d, id)) && SessionOf(d, id).scheme == d.scheme && FromEngine(WorldOf(d, id))
  {
  }

  lemma PushedKeeps(lib: Engine.Lib, cfg: Config, d: Disp, id: nat, w: World, r: Result)
    requires DInv(lib, cfg, d) && Inv(cfg, w.s) && Engine.Ok(lib, w.e) && w.s.scheme == d.scheme
    requires w.e.ready == d.engine.ready && FromEngine(w)
    requires r.composing == w.s.composing && (r.composing ==> CacheAgrees(cfg, w.s, r))
    ensures DInv(lib, cfg, Pushed(WithWorld(d, id, w), id, r))
  {
    hide Inv, Engine.Ok, CacheAgrees;
  }

  lemma CountedKeeps(lib: Engine.Lib, cfg: Config, d: Disp, r: Result)
    requires DInv(lib, cfg, d)
    ensures DInv(lib, cfg, Counted(d, r))
  {
    hide Inv, Engine.Ok, CacheAgrees;
  }

  lemma AnsweredKeeps(lib: Engine.Lib, cfg: Config, d: Disp, msg: nat, id: nat, out: (World, Result))
    requires DInv(lib, cfg, d) && Keeps(lib, cfg, WorldOf(d, id), out)
    ensures DInv(lib, cfg, Answered(d, msg, id, out).0)
  {
    hide View, Sound, NoLoneCandidate, Engine.Ok, DInv, Pushed, Counted;
    SessionIsFine(lib, cfg, d, id);
    var s, r := out.0.s, out.1;
    ViewReports(cfg, s, r.handled, r.hasCommit, r.commit);
    PushedKeeps(lib, cfg, d, id, out.0, r);
    CountedKeeps(lib, cfg, Pushed(WithWorld(d, id, out.0), id, r), r);
  }

  lemma CaretKeeps(lib: Engine.Lib, cfg: Config, d: Disp, id: nat, rect: Rect)
    requires DInv(lib, cfg, d)
    ensures DInv(lib, cfg, CaretMoved(d, id, rect))
    ensures var d1 := CaretMoved(d, id, rect);
            d1 != d ==> id in d.sessions && d.sessions[id].composing
                        && var now := View(cfg, d.sessions[id], true, false, "");
                           d1.ui == d.ui[id := Show(rect, now.preedit, now.candidates,
                                                    now.pageIndex, now.pageSize, now.pageTotal, now.armedIndex)]
  {
    hide Inv, Engine.Ok;
    if id in d.pending {
      SameView(cfg, d.sessions[id], d.pending[id]);
    }
  }

  lemma SameView(cfg: Config, s: Sess, r: Result)
    requires CacheAgrees(cfg, s, r)
    ensures var now := View(cfg, s, true, false, "");
            r.preedit == now.preedit && r.candidates == now.candidates && r.pageIndex == now.pageIndex
            && r.pageSize == now.pageSize && r.pageTotal == now.pageTotal && r.armedIndex == now.armedIndex
  {
  }

  lemma SwitchedKeeps(lib: Engine.Lib, cfg: Config, d: Disp, scheme: Scheme)
    requires DInv(lib, cfg, d)
    ensures DInv(lib, cfg, Switched(d, scheme))
  {
    hide View, Inv, CacheAgrees, Engine.Ok, Engine.Lawful, Reschemed, Interrupted;
    var d1, hit := Reschemed(d, scheme), Interrupted(d, scheme);
    ReschemedIs(lib, cfg, d, scheme);
    DroppedIs(d1, hit);
  }

  lemma ReschemedIs(lib: Engine.Lib, cfg: Config, d: Disp, scheme: Scheme)
    requires DInv(lib, cfg, d)
    ensures var d1 := Reschemed(d, scheme);
            && d1 == d.(scheme := scheme, sessions := d1.sessions, engine := d1.engine)
            && d1.sessions.Keys == d.sessions.Keys && Engine.Ok(lib, d1.engine) && d1.engine.ready == d.engine.ready
            && forall id :: id in d.sessions ==>
                 Follows(cfg, d.sessions[id], d1.sessions[id], scheme, id in Interrupted(d, scheme))
  {
    hide View, Inv, SetScheme, CacheAgrees, Engine.Ok, Engine.Lawful, Engine.ResetState;
    forall id | id in d.sessions
      ensures Follows(cfg, d.sessions[id], Reschemed(d, scheme).sessions[id], scheme, id in Interrupted(d, scheme))
    {
      SetSchemeKeeps(lib, cfg, World(d.sessions[id], d.engine), scheme);
      SetSchemeComposing(World(d.sessions[id], d.engine), scheme);
    }
    ResetIsOk(lib, d.engine);
  }

  // s1 is what a change of scheme makes of s, which it interrupts or not.
  predicate Follows(cfg: Config, s: Sess, s1: Sess, scheme: Scheme, interrupted: bool) {
    && Inv(cfg, s1) && s1.scheme == scheme && (s1.composing <==> s.composing && !interrupted)
    && (s1.composing ==> s1 == s) && (s1.partial != "" ==> s.partial != "") && (interrupted ==> s.composing)
  }

  lemma DroppedIs(d: Disp, hit: set<nat>)
    ensures Dropped(d, hit)
         == d.(pending := d.pending - hit, ui := if d.hasUi then d.ui + map k | k in hit :: Hide else d.ui)
  {
    assert d.(pending := d.pending - hit, ui := d.ui) == d.(pending := d.pending - hit);
  }

  lemma SetSchemeComposing(w: World, scheme: Scheme)
    ensures var s1 := SetScheme(w, scheme).s;
            && (s1.composing <==> w.s.composing && w.s.scheme == scheme) && (s1.composing ==> s1 == w.s)
            && (s1.partial != "" ==> w.s.partial != "")
  {
  }

  lemma ResetIsOk(lib: Engine.Lib, e: Engine.State)
    requires Engine.Ok(lib, e)
    ensures Engine.Ok(lib, Engine.ResetState(e)) && Engine.ResetState(e).ready == e.ready
  {
  }

  lemma HintKeeps(cfg: Config, s: Sess, hint: string, r: Result)
    ensures Inv(cfg, s) ==> Inv(cfg, s.(fieldHint := hint))
    ensures CacheAgrees(cfg, s, r) ==> CacheAgrees(cfg, s.(fieldHint := hint), r)
  {
  }

  // Every request keeps: an id is in the cache exactly when its session exists and is
  // composing, the cached view is the one it would report now, the window was last told
  // to hide for every other session, and all sessions have the global scheme. The answer
  // carries the id of the request.
  lemma HandleKeeps(lib: Engine.Lib, cfg: Config, d: Disp, msg: nat, req: Request)
    requires DInv(lib, cfg, d)
    ensures DInv(lib, cfg, Handle(lib, cfg, d, msg, req).0)
    ensures Handle(lib, cfg, d, msg, req).1.id == msg
  {
    hide DInv, Engine.Ok, Engine.Lawful, Answered, CaretMoved, Switched, Unfocused, Configured, WithWorld, Outcome;
    DInvHolds(lib, cfg, d);
    if Works(req).Some? {
      var id := Works(req).value;
      OutcomeKeeps(lib, cfg, d, req);
      AnsweredKeeps(lib, cfg, d, msg, id, Outcome(lib, cfg, d, req));
      AnsweredId(d, msg, id, Outcome(lib, cfg, d, req));
      HandleAnswers(lib, cfg, d, msg, req);
      return;
    }
    match req
    case FocusOut(id) => UnfocusedKeeps(lib, cfg, d, id);
    case SetCaretRect(id, rect) => CaretKeeps(lib, cfg, d, id, rect);
    case SetFieldHint(id, hint) => HintedKeeps(lib, cfg, d, id, hint);
    case SetConfig(patch) => ConfiguredKeeps(lib, cfg, d, msg, patch);
    case InitSession(id) => CreatedKeeps(lib, cfg, d, id);
    case Shutdown => ShutdownKeeps(lib, cfg, d);
    case _ =>
  }

  // The session a request makes work, if it is one that is answered by a result.
  function Works(req: Request): Option<nat> {
    match req
    case ProcessKey(id, _, _, _) => Some(id)
    case SelectCandidate(id, _) => Some(id)
    case PageCandidates(id, _) => Some(id)
    case CommitComposition(id) => Some(id)
    case CancelComposition(id) => Some(id)
    case _ => None
  }

  // What it makes of it.
  function Outcome(lib: Engine.Lib, cfg: Config, d: Disp, req: Request): (World, Result)
    requires Engine.Lawful(lib) && Engine.Ok(lib, d.engine) && Works(req).Some?
  {
    var w := WorldOf(d, Works(req).value);
    match req
    case ProcessKey(_, vk, ch, ctrl) => SessionSpec.ProcessKey(lib, cfg, w, vk, ch, ctrl)
    case SelectCandidate(_, index) => Select(lib, cfg, w, index)
    case PageCandidates(_, delta) => Page(cfg, w, delta)
    case CommitComposition(_) => Commit(lib, cfg, w)
    case CancelComposition(_) => Cancel(cfg, w)
  }

  lemma HandleAnswers(lib: Engine.Lib, cfg: Config, d: Disp, msg: nat, req: Request)
    requires Engine.Lawful(lib) && Engine.Ok(lib, d.engine) && Works(req).Some?
    ensures Handle(lib, cfg, d, msg, req) == Answered(d, msg, Works(req).value, Outcome(lib, cfg, d, req))
  {
    hide SessionSpec.ProcessKey, Select, Page, Commit, Cancel, Answered, Engine.Ok, Engine.Lawful;
  }

  lemma OutcomeKeeps(lib: Engine.Lib, cfg: Config, d: Disp, req: Request)
    requires DInv(lib, cfg, d) && Works(req).Some?
    ensures Keeps(lib, cfg, WorldOf(d, Works(req).value), Outcome(lib, cfg, d, req))
  {
    hide SessionSpec.ProcessKey, Select, Page, Commit, Cancel, Keeps, Inv, View, CacheAgrees, Engine.Ok, Engine.Lawful;
    var id := Works(req).value;
    var w := WorldOf(d, id);
    SessionIsFine(lib, cfg, d, id);
    InvIs(cfg, w.s);
    match req
    case ProcessKey(_, vk, ch, ctrl) => ProcessKeyKeeps(lib, cfg, w, vk, ch, ctrl);
    case SelectCandidate(_, index) => SelectKeeps(lib, cfg, w, index);
    case PageCandidates(_, delta) => PageKeeps(lib, cfg, w, delta);
    case CommitComposition(_) => CommitKeeps(lib, cfg, w);
    case CancelComposition(_) => CancelKeeps(lib, cfg, w);
  }

  lemma DInvHolds(lib: Engine.Lib, cfg: Config, d: Disp)
    requires DInv(lib, cfg, d)
    ensures Engine.Lawful(lib) && Engine.Ok(lib, d.engine)
  {
  }

  lemma ConfiguredKeeps(lib: Engine.Lib, cfg: Config, d: Disp, msg: nat, patch: Patch)
    requires DInv(lib, cfg, d)
    ensures DInv(lib, cfg, Configured(d, msg, patch).0) && Configured(d, msg, patch).1.id == msg
  {
    hide DInv, Switched;
    if patch.Method? && SchemeOf(patch.name).Some? {
      SwitchedKeeps(lib, cfg, d, SchemeOf(patch.name).value);
    }
  }

  lemma ShutdownKeeps(lib: Engine.Lib, cfg: Config, d: Disp)
    requires DInv(lib, cfg, d)
    ensures DInv(lib, cfg, d.(shutdown := true))
  {
    hide Inv, CacheAgrees, Engine.Ok, Engine.Lawful;
  }

  lemma AnsweredId(d: Disp, msg: nat, id: nat, out: (World, Result))
    ensures Answered(d, msg, id, out).1.id == msg
  {
  }

  lemma UnfocusedKeeps(lib: Engine.Lib, cfg: Config, d: Disp, id: nat)
    requires DInv(lib, cfg, d)
    ensures DInv(lib, cfg, Unfocused(d, id))
  {
    hide View, Inv, CacheAgrees;
    ResetIsOk(lib, d.engine);
  }

  lemma HintedKeeps(lib: Engine.Lib, cfg: Config, d: Disp, id: nat, hint: string)
    requires DInv(lib, cfg, d)
    ensures DInv(lib, cfg, WithWorld(d, id, World(SessionOf(d, id).(fieldHint := hint), d.engine)))
  {
    hide View, Inv, CacheAgrees, DInv;
    SessionIsFine(lib, cfg, d, id);
    var s := SessionOf(d, id);
    HintKeeps(cfg, s, hint, if id in d.pending then d.pending[id] else View(cfg, s, true, false, ""));
    CachedAgrees(lib, cfg, d, id);
    StoredKeeps(lib, cfg, d, id, s.(fieldHint := hint));
  }

  lemma CreatedKeeps(lib: Engine.Lib, cfg: Config, d: Disp, id: nat)
    requires DInv(lib, cfg, d)
    ensures DInv(lib, cfg, WithWorld(d, id, WorldOf(d, id)))
  {
    hide View, Inv, CacheAgrees, DInv;
    SessionIsFine(lib, cfg, d, id);
    CachedAgrees(lib, cfg, d, id);
    StoredKeeps(lib, cfg, d, id, SessionOf(d, id));
  }

  lemma CachedAgrees(lib: Engine.Lib, cfg: Config, d: Disp, id: nat)
    requires DInv(lib, cfg, d)
    ensures id in d.pending ==> CacheAgrees(cfg, SessionOf(d, id), d.pending[id])
  {
    hide View, Inv, CacheAgrees, Engine.Ok, Engine.Lawful;
  }

  // A session stored with nothing changed that its cached view shows.
  lemma StoredKeeps(lib: Engine.Lib, cfg: Config, d: Disp, id: nat, s: Sess)
    requires DInv(lib, cfg, d) && Inv(cfg, s) && s.scheme == d.scheme
    requires s.composing == SessionOf(d, id).composing && s.partial == SessionOf(d, id).partial
    requires id in d.pending ==> CacheAgrees(cfg, s, d.pending[id])
    ensures DInv(lib, cfg, WithWorld(d, id, World(s, d.engine)))
  {
    hide View, Inv, CacheAgrees, Engine.Ok, Engine.Lawful;
  }
}
