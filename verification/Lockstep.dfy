// The request/response protocol between the text service and the engine, as a machine
// whose steps are single transfers of bytes. Models IpcClient::CallWithTimeout and
// CallMethod (src/domains/tsf-service/backend/ipc_client.cpp) and ServeConnection
// (src/domains/input-engine/backend/pipe_server.cpp).
module Lockstep {
  import opened Decimal
  import opened Frame

  datatype Request = Request(id: nat, payload: seq<byte>)
  datatype Response = Response(id: nat, ok: bool, payload: seq<byte>)

  // The JSON codec, of which only the round trips matter. A server of another protocol
  // version refuses to decode what the client encodes.
  datatype Codec = Codec(
    encodeRequest: Request -> seq<byte>, decodeRequest: seq<byte> -> Option<Request>,
    encodeResponse: Response -> seq<byte>, decodeResponse: seq<byte> -> Option<Response>)

  ghost predicate RoundTrips(codec: Codec) {
    && (forall q: Request :: codec.decodeRequest(codec.encodeRequest(q)) in {None, Some(q)})
    && (forall r: Response :: codec.decodeResponse(codec.encodeResponse(r)) == Some(r))
  }

  const ID_LIMIT := 0x1_0000_0000

  // The server side of one connection: filling a frame, sending one, or gone.
  datatype Server = Filling(got: seq<byte>) | Answering(left: seq<byte>) | Gone

  // A connection: bytes under way in each direction, its server, and the last frame its
  // server answered, with the answer.
  datatype Conn = Conn(toServer: seq<byte>, toClient: seq<byte>, server: Server, last: Option<(seq<byte>, Response)>)

  datatype Client = Idle | Sending(req: Request, left: seq<byte>) | Awaiting(req: Request, got: seq<byte>)

  // Every connection ever opened stays in conns, so a server may go on serving one that
  // the client has given up.
  datatype State = State(
    nextId: nat, conns: seq<Conn>, current: Option<nat>, client: Client,
    accepted: seq<(Request, Response)>, answered: seq<(seq<byte>, Response)>)

  const INIT := State(1, [], None, Idle, [], [])

  datatype Event =
    | Connect
    | Disconnect
    | Call(payload: seq<byte>)
    | ClientWrites(n: nat)
    | ClientReads(n: nat)
    | ClientFails                                    // timeout, broken pipe, error
    | ServerReads(conn: nat, n: nat, ok: bool, payload: seq<byte>)
    | ServerWrites(conn: nat, n: nat, shutdown: bool)
    | ServerGoes(conn: nat, undelivered: nat)        // and takes what the client has not read

  // Bytes a reader still asks for: the header first, then the body it announces.
  function Needed(got: seq<byte>): int {
    if |got| < 4 then 4 - |got| else 4 + DecodeLength(got[..4]) - |got|
  }

  function Dropped(s: State): State {
    s.(current := None, client := Idle)
  }

  predicate Connected(s: State) {
    s.current.Some? && s.current.value < |s.conns|
  }

  function Here(s: State): Conn
    requires Connected(s)
  {
    s.conns[s.current.value]
  }

  function WithHere(s: State, c: Conn): State
    requires Connected(s)
  {
    s.(conns := s.conns[s.current.value := c])
  }

  function StepCall(codec: Codec, s: State, payload: seq<byte>): State {
    var req := Request(s.nextId, payload);
    var t := s.(nextId := (s.nextId + 1) % ID_LIMIT);
    var body := codec.encodeRequest(req);
    if !Connected(s) then t
    else if |body| > MAX_FRAME_BYTES then Dropped(t)
    else t.(client := Sending(req, FrameOf(body)))
  }

  function StepClientWrites(s: State, n: nat): State {
    if !Connected(s) || !s.client.Sending? || n == 0 || n > |s.client.left| then s
    else
      var t := WithHere(s, Here(s).(toServer := Here(s).toServer + s.client.left[..n]));
      var left := s.client.left[n..];
      t.(client := if left == [] then Awaiting(s.client.req, []) else Sending(s.client.req, left))
  }

  function StepClientReads(codec: Codec, s: State, n: nat): State {
    if !Connected(s) || !s.client.Awaiting? || n == 0 || n > |Here(s).toClient| || n > Needed(s.client.got) then s
    else
      var got := s.client.got + Here(s).toClient[..n];
      var t := WithHere(s, Here(s).(toClient := Here(s).toClient[n..]));
      match FirstFrame(got)
      case Incomplete => t.(client := Awaiting(s.client.req, got))
      case Oversize => Dropped(t)
      case Frame(body, _) =>
        match codec.decodeResponse(body)
        case None => t.(client := Idle)
        case Some(resp) => t.(client := Idle, accepted := s.accepted + [(s.client.req, resp)])
  }

  // One read by a server. On a whole frame it decodes, dispatches and starts to answer: a
  // dispatched request is answered under its own id, a malformed one under id 0.
  function StepServerReads(codec: Codec, s: State, i: nat, n: nat, ok: bool, payload: seq<byte>): State {
    if i >= |s.conns| || !s.conns[i].server.Filling? || n == 0 || n > |s.conns[i].toServer|
       || n > Needed(s.conns[i].server.got) then s
    else
      var c := s.conns[i];
      var got := c.server.got + c.toServer[..n];
      var c1 := c.(toServer := c.toServer[n..]);
      match FirstFrame(got)
      case Incomplete => s.(conns := s.conns[i := c1.(server := Filling(got))])
      case Oversize => s.(conns := s.conns[i := c1.(server := Gone)])
      case Frame(body, _) =>
        var resp := match codec.decodeRequest(body)
                    case None => Response(0, false, payload)
                    case Some(req) => Response(req.id, ok, payload);
        s.(conns := s.conns[i := c1.(server := Answer(codec, resp), last := Some((body, resp)))],
           answered := s.answered + [(body, resp)])
  }

  function Answer(codec: Codec, resp: Response): Server {
    var body := codec.encodeResponse(resp);
    if |body| > MAX_FRAME_BYTES then Gone else Answering(FrameOf(body))
  }

  function AfterWrite(c: Conn, n: nat, shutdown: bool): Conn
    requires c.server.Answering? && n <= |c.server.left|
  {
    var left := c.server.left[n..];
    c.(toClient := c.toClient + c.server.left[..n],
       server := if left != [] then Answering(left) else if shutdown then Gone else Filling([]))
  }

  function StepServerWrites(s: State, i: nat, n: nat, shutdown: bool): State {
    if i >= |s.conns| || !s.conns[i].server.Answering? || n == 0 || n > |s.conns[i].server.left| then s
    else s.(conns := s.conns[i := AfterWrite(s.conns[i], n, shutdown)])
  }

  function StepServerGoes(s: State, i: nat, undelivered: nat): State {
    if i >= |s.conns| || undelivered > |s.conns[i].toClient| then s
    else
      var c := s.conns[i];
      s.(conns := s.conns[i := c.(server := Gone, toClient := c.toClient[..|c.toClient| - undelivered])])
  }

  function Step(codec: Codec, s: State, e: Event): State {
    match e
    case Connect =>
      if s.current.Some? then s
      else s.(conns := s.conns + [Conn([], [], Filling([]), None)], current := Some(|s.conns|))
    case Disconnect => if s.client.Idle? then Dropped(s) else s
    case Call(payload) => if s.client.Idle? then StepCall(codec, s, payload) else s
    case ClientWrites(n) => StepClientWrites(s, n)
    case ClientReads(n) => StepClientReads(codec, s, n)
    case ClientFails => if s.client.Idle? then s else Dropped(s)
    case ServerReads(i, n, ok, payload) => StepServerReads(codec, s, i, n, ok, payload)
    case ServerWrites(i, n, shutdown) => StepServerWrites(s, i, n, shutdown)
    case ServerGoes(i, undelivered) => StepServerGoes(s, i, undelivered)
  }

  function Run(codec: Codec, s: State, events: seq<Event>): State
    decreases |events|
  {
    if events == [] then s else Run(codec, Step(codec, s, events[0]), events[1..])
  }

  // ---- The invariant --------------------------------------------------------------

  predicate Sendable(codec: Codec, q: Request) {
    |codec.encodeRequest(q)| <= MAX_FRAME_BYTES
  }

  function RequestFrame(codec: Codec, q: Request): seq<byte>
    requires Sendable(codec, q)
  {
    FrameOf(codec.encodeRequest(q))
  }

  // Nothing of the answer exists yet: what was sent is with the server or on its way.
  predicate Unanswered(c: Conn, sent: seq<byte>) {
    && c.toClient == []
    && (c.server.Gone? || (c.server.Filling? && c.server.got + c.toServer == sent))
  }

  // The server answered exactly this request, and what the client has or will get is that
  // answer and nothing else.
  predicate Answered(codec: Codec, c: Conn, req: Request, got: seq<byte>) {
    && c.last.Some? && c.last.value.0 == codec.encodeRequest(req) && c.toServer == []
    && var body := codec.encodeResponse(c.last.value.1);
    && |body| <= MAX_FRAME_BYTES
    && match c.server
       case Answering(left) => left != [] && got + c.toClient + left == FrameOf(body)
       case Filling(g) => g == [] && got + c.toClient == FrameOf(body)
       case Gone => got + c.toClient <= FrameOf(body)
  }

  predicate ConnOk(codec: Codec, c: Conn, client: Client) {
    match client
    case Idle => c.toServer == [] && c.toClient == [] && (c.server.Gone? || c.server == Filling([]))
    case Sending(req, left) =>
      && Sendable(codec, req) && left != []
      && var f := RequestFrame(codec, req);
      && |left| <= |f| && left == f[|f| - |left|..] && Unanswered(c, f[..|f| - |left|])
    case Awaiting(req, got) =>
      && Sendable(codec, req)
      && ((got == [] && Unanswered(c, RequestFrame(codec, req)))
          || (Answered(codec, c, req, got) && |got| < |FrameOf(codec.encodeResponse(c.last.value.1))|))
  }

  predicate Inv(codec: Codec, s: State) {
    && (s.current.None? ==> s.client.Idle?)
    && (s.current.Some? ==> s.current.value < |s.conns|
                            && ConnOk(codec, Here(s), s.client)
                            && (Here(s).last.Some? ==> Here(s).last.value in s.answered))
    && (forall x :: x in s.accepted ==> (codec.encodeRequest(x.0), x.1) in s.answered)
    && (forall x :: x in s.answered ==> AnswersUnder(codec, x))
  }

  // A frame understood is answered under its own id, another is refused under id 0.
  predicate AnswersUnder(codec: Codec, x: (seq<byte>, Response)) {
    match codec.decodeRequest(x.0)
    case None => x.1.id == 0 && !x.1.ok
    case Some(q) => x.1.id == q.id
  }

  // A prefix of a frame: how much more of it a reader asks for, and what it makes of it.
  lemma PrefixOfFrame(body: seq<byte>, got: seq<byte>)
    requires |body| <= MAX_FRAME_BYTES && got <= FrameOf(body)
    ensures |got| < |FrameOf(body)| ==> FirstFrame(got) == Incomplete && 0 < Needed(got) <= |FrameOf(body)| - |got|
    ensures |got| == |FrameOf(body)| ==> FirstFrame(got) == Frame(body, []) && Needed(got) == 0
  {
    var f := FrameOf(body);
    LengthRoundTrip(|body|);
    if |got| < |f| {
      assert got == f[..|got|];
      CutFrameIsIncomplete(body, |got|);
    } else {
      assert got == f == f + [];
      FirstFrameOf(body, []);
    }
    if |got| >= 4 {
      assert got[..4] == EncodeLength(|body|);
    }
  }

  lemma CutAgain(f: seq<byte>, k: nat, n: nat)
    requires k + n <= |f|
    ensures f[k..][..n] == f[k..k + n] && f[k..][n..] == f[k + n..]
    ensures f[..k] + f[k..k + n] == f[..k + n]
  {
  }

  lemma MoreSent(c: Conn, f: seq<byte>, k: nat, part: seq<byte>)
    requires k + |part| <= |f| && part == f[k..k + |part|] && Unanswered(c, f[..k])
    ensures Unanswered(c.(toServer := c.toServer + part), f[..k + |part|])
  {
    if c.server.Filling? {
      var g := c.server.got;
      assert g + (c.toServer + part) == (g + c.toServer) + part;
      CutAgain(f, k, |part|);
    }
  }

  lemma ClientWritesKeeps(codec: Codec, s: State, n: nat)
    requires Inv(codec, s)
    ensures Inv(codec, StepClientWrites(s, n))
  {
    if Connected(s) && s.client.Sending? && 0 < n <= |s.client.left| {
      hide FrameOf, Unanswered;
      var f, left, c := RequestFrame(codec, s.client.req), s.client.left, Here(s);
      var k := |f| - |left|;
      CutAgain(f, k, n);
      MoreSent(c, f, k, left[..n]);
      if left[n..] == [] {
        assert f[..k + n] == f;
      }
    }
  }

  lemma Moved(g: seq<byte>, t: seq<byte>, n: nat)
    requires n <= |t|
    ensures g + t[..n] + t[n..] == g + t && g + t[..n] <= g + t
  {
    assert t[..n] + t[n..] == t;
    assert g + t[..n] == (g + t)[..|g| + n];
  }

  lemma ClientReadsKeeps(codec: Codec, s: State, n: nat)
    requires RoundTrips(codec) && Inv(codec, s)
    ensures Inv(codec, StepClientReads(codec, s, n))
  {
    if Connected(s) && s.client.Awaiting? && 0 < n <= |Here(s).toClient| && n <= Needed(s.client.got) {
      var c, req := Here(s), s.client.req;
      var got := s.client.got + c.toClient[..n];
      var body := codec.encodeResponse(c.last.value.1);
      Moved(s.client.got, c.toClient, n);
      PrefixOfFrame(body, s.client.got);
      PrefixOfFrame(body, got);
    }
  }

  lemma ServerReadsKeeps(codec: Codec, s: State, i: nat, n: nat, ok: bool, payload: seq<byte>)
    requires RoundTrips(codec) && Inv(codec, s)
    ensures Inv(codec, StepServerReads(codec, s, i, n, ok, payload))
  {
    if i < |s.conns| && s.current == Some(i) && s.conns[i].server.Filling? && 0 < n <= |s.conns[i].toServer|
       && n <= Needed(s.conns[i].server.got) {
      hide FrameOf;
      var c := s.conns[i];
      var got := c.server.got + c.toServer[..n];
      var req := s.client.req;
      var f := RequestFrame(codec, req);
      Moved(c.server.got, c.toServer, n);
      PrefixOfFrame(codec.encodeRequest(req), got);
    }
  }

  lemma AnswerMovesOn(codec: Codec, c: Conn, client: Client, n: nat, shutdown: bool)
    requires ConnOk(codec, c, client) && c.server.Answering? && 0 < n <= |c.server.left|
    ensures ConnOk(codec, AfterWrite(c, n, shutdown), client)
  {
    hide FrameOf;
    var got, left := client.got, c.server.left;
    Moved(got + c.toClient, left, n);
    assert got + (c.toClient + left[..n]) == got + c.toClient + left[..n];
    if left[n..] == [] {
      assert left[..n] == left;
    }
  }

  lemma ServerWritesKeeps(codec: Codec, s: State, i: nat, n: nat, shutdown: bool)
    requires Inv(codec, s)
    ensures Inv(codec, StepServerWrites(s, i, n, shutdown))
  {
    hide ConnOk;
    if i < |s.conns| && s.current == Some(i) && s.conns[i].server.Answering? && 0 < n <= |s.conns[i].server.left| {
      AnswerMovesOn(codec, s.conns[i], s.client, n, shutdown);
    }
  }

  lemma PrefixOfSum(a: seq<byte>, b: seq<byte>)
    ensures a <= a + b
  {
  }

  lemma PrefixCut(got: seq<byte>, more: seq<byte>, kept: seq<byte>, f: seq<byte>)
    requires got + more <= f && kept <= more
    ensures got + kept <= f
  {
    assert got + kept == (got + more)[..|got + kept|];
  }

  lemma GoneKeepsConn(codec: Codec, c: Conn, client: Client, kept: seq<byte>)
    requires ConnOk(codec, c, client) && kept <= c.toClient
    ensures ConnOk(codec, c.(server := Gone, toClient := kept), client)
  {
    hide FrameOf;
    if client.Awaiting? && Answered(codec, c, client.req, client.got) {
      var got, f := client.got, FrameOf(codec.encodeResponse(c.last.value.1));
      if c.server.Answering? {
        PrefixOfSum(got + c.toClient, c.server.left);
      }
      PrefixCut(got, c.toClient, kept, f);
    }
  }

  lemma ServerGoesKeeps(codec: Codec, s: State, i: nat, undelivered: nat)
    requires Inv(codec, s)
    ensures Inv(codec, StepServerGoes(s, i, undelivered))
  {
    hide ConnOk;
    if i < |s.conns| && s.current == Some(i) && undelivered <= |s.conns[i].toClient| {
      var c := s.conns[i];
      GoneKeepsConn(codec, c, s.client, c.toClient[..|c.toClient| - undelivered]);
    }
  }

  lemma StepKeepsInv(codec: Codec, s: State, e: Event)
    requires RoundTrips(codec) && Inv(codec, s)
    ensures Inv(codec, Step(codec, s, e))
  {
    match e
    case Call(payload) =>
      if s.client.Idle? && Connected(s) && Sendable(codec, Request(s.nextId, payload)) {
        var f := RequestFrame(codec, Request(s.nextId, payload));
        assert f[|f| - |f|..] == f && f[..0] == [];
      }
    case ClientWrites(n) => ClientWritesKeeps(codec, s, n);
    case ClientReads(n) => ClientReadsKeeps(codec, s, n);
    case ServerReads(i, n, ok, payload) => ServerReadsKeeps(codec, s, i, n, ok, payload);
    case ServerWrites(i, n, shutdown) => ServerWritesKeeps(codec, s, i, n, shutdown);
    case ServerGoes(i, undelivered) => ServerGoesKeeps(codec, s, i, undelivered);
    case Connect =>
    case Disconnect =>
    case ClientFails =>
  }

  lemma {:induction false} RunKeepsInv(codec: Codec, s: State, events: seq<Event>)
    requires RoundTrips(codec) && Inv(codec, s)
    ensures Inv(codec, Run(codec, s, events))
    decreases |events|
  {
    if events != [] {
      StepKeepsInv(codec, s, events[0]);
      RunKeepsInv(codec, Step(codec, s, events[0]), events[1..]);
    }
  }

  // In every interleaving of calls, partial transfers, timeouts, disconnects and
  // reconnects, a response the client accepts is the server's own answer to the request
  // just sent, and carries its id if the server understood it, as it must have if the
  // answer is ok; no step compares ids. A server that did not refuses under id 0.
  lemma AcceptedResponsesMatch(codec: Codec, events: seq<Event>, k: nat)
    requires RoundTrips(codec)
    requires k < |Run(codec, INIT, events).accepted|
    ensures var s := Run(codec, INIT, events); var x := s.accepted[k];
            var body := codec.encodeRequest(x.0);
            && (body, x.1) in s.answered
            && (codec.decodeRequest(body).Some? || x.1.ok ==> x.1.id == x.0.id)
            && (codec.decodeRequest(body).None? ==> x.1.id == 0 && !x.1.ok)
  {
    RunKeepsInv(codec, INIT, events);
    var x := Run(codec, INIT, events).accepted[k];
    assert AnswersUnder(codec, (codec.encodeRequest(x.0), x.1));
    assert codec.decodeRequest(codec.encodeRequest(x.0)) in {None, Some(x.0)};
  }

  // ---- Ids ---------------------------------------------------------------------------

  function CallsIn(events: seq<Event>): nat {
    if events == [] then 0 else (if events[0].Call? then 1 else 0) + CallsIn(events[1..])
  }

  // The id no request accepted so far has reached.
  function Fresh(s: State): nat {
    match s.client
    case Idle => s.nextId
    case Sending(req, _) => req.id
    case Awaiting(req, _) => req.id
  }

  predicate IdsGrow(s: State) {
    && (forall j, k :: 0 <= j < k < |s.accepted| ==> s.accepted[j].0.id < s.accepted[k].0.id)
    && (forall j :: 0 <= j < |s.accepted| ==> s.accepted[j].0.id < Fresh(s))
    && (!s.client.Idle? ==> Fresh(s) < s.nextId)
  }

  lemma StepKeepsIds(codec: Codec, s: State, e: Event)
    requires IdsGrow(s) && (e.Call? ==> s.nextId + 1 < ID_LIMIT)
    ensures IdsGrow(Step(codec, s, e))
    ensures Step(codec, s, e).nextId <= s.nextId + if e.Call? then 1 else 0
  {
    hide FirstFrame, FrameOf, Needed, DecodeLength;
  }

  lemma {:induction false} RunKeepsIds(codec: Codec, s: State, events: seq<Event>)
    requires IdsGrow(s) && s.nextId + CallsIn(events) < ID_LIMIT
    ensures IdsGrow(Run(codec, s, events))
    decreases |events|
  {
    hide Step, IdsGrow;
    if events != [] {
      StepKeepsIds(codec, s, events[0]);
      RunKeepsIds(codec, Step(codec, s, events[0]), events[1..]);
    }
  }

  // Until the ids wrap around, no two requests answered have the same id, and they come in
  // order.
  lemma AcceptedIdsGrow(codec: Codec, events: seq<Event>, j: nat, k: nat)
    requires CallsIn(events) < ID_LIMIT - 1 && j < k < |Run(codec, INIT, events).accepted|
    ensures var s := Run(codec, INIT, events); s.accepted[j].0.id < s.accepted[k].0.id
  {
    RunKeepsIds(codec, INIT, events);
  }

  // ---- An exchange that goes through ------------------------------------------------

  // The request on its way to a server that waits for one.
  lemma RequestSent(codec: Codec, s: State, payload: seq<byte>, c: Conn)
    requires Connected(s) && s.client.Idle? && Here(s) == c && c.toServer == [] && c.toClient == []
    requires Sendable(codec, Request(s.nextId, payload))
    ensures var req := Request(s.nextId, payload); var f := RequestFrame(codec, req);
            Step(codec, Step(codec, s, Call(payload)), ClientWrites(|f|)) ==
            s.(nextId := (s.nextId + 1) % ID_LIMIT, client := Awaiting(req, []),
               conns := s.conns[s.current.value := c.(toServer := f)])
  {
    var f := RequestFrame(codec, Request(s.nextId, payload));
    assert f[..|f|] == f && f[|f|..] == [] && c.toServer + f == f;
  }

  // A frame taken in two reads: its header, then its body.
  lemma TwoReads(body: seq<byte>)
    requires 0 < |body| <= MAX_FRAME_BYTES
    ensures var f := FrameOf(body);
            && Needed([]) == 4 && [] + f[..4] == f[..4] && FirstFrame(f[..4]) == Incomplete
            && Needed(f[..4]) == |body| == |f[4..]| && f[..4] + f[4..][..|body|] == f && f[4..][|body|..] == []
            && FirstFrame(f) == Frame(body, [])
  {
    var f := FrameOf(body);
    PrefixOfFrame(body, f[..4]);
    PrefixOfFrame(body, f);
    LengthRoundTrip(|body|);
    assert f[..4][..4] == EncodeLength(|body|);
  }

  lemma RequestTaken(codec: Codec, s: State, i: nat, req: Request, ok: bool, payload: seq<byte>)
    requires RoundTrips(codec) && i < |s.conns| && s.conns[i].server == Filling([])
    requires Sendable(codec, req) && codec.encodeRequest(req) != [] && s.conns[i].toServer == RequestFrame(codec, req)
    requires codec.decodeRequest(codec.encodeRequest(req)).Some?
    requires |codec.encodeResponse(Response(req.id, ok, payload))| <= MAX_FRAME_BYTES
    ensures var resp := Response(req.id, ok, payload); var n := |codec.encodeRequest(req)|;
            Step(codec, Step(codec, s, ServerReads(i, 4, ok, payload)), ServerReads(i, n, ok, payload)) ==
            s.(answered := s.answered + [(codec.encodeRequest(req), resp)],
               conns := s.conns[i := s.conns[i].(toServer := [], last := Some((codec.encodeRequest(req), resp)),
                                                 server := Answering(FrameOf(codec.encodeResponse(resp))))])
  {
    hide FrameOf, FirstFrame, Needed;
    TwoReads(codec.encodeRequest(req));
  }

  lemma AnswerSent(codec: Codec, s: State, i: nat, f: seq<byte>)
    requires i < |s.conns| && s.conns[i].server == Answering(f) && f != [] && s.conns[i].toClient == []
    ensures Step(codec, s, ServerWrites(i, |f|, false))
         == s.(conns := s.conns[i := s.conns[i].(toClient := f, server := Filling([]))])
  {
    assert f[..|f|] == f && f[|f|..] == [] && [] + f == f;
  }

  lemma AnswerTaken(codec: Codec, s: State, resp: Response)
    requires RoundTrips(codec) && Connected(s) && s.client.Awaiting? && s.client.got == []
    requires var body := codec.encodeResponse(resp); 0 < |body| <= MAX_FRAME_BYTES && Here(s).toClient == FrameOf(body)
    ensures Step(codec, Step(codec, s, ClientReads(4)), ClientReads(|codec.encodeResponse(resp)|))
         == s.(client := Idle, accepted := s.accepted + [(s.client.req, resp)],
               conns := s.conns[s.current.value := Here(s).(toClient := [])])
  {
    hide FrameOf, FirstFrame, Needed;
    TwoReads(codec.encodeResponse(resp));
  }

  lemma RunTwo(codec: Codec, s: State, a: Event, b: Event, rest: seq<Event>)
    ensures Run(codec, s, [a, b] + rest) == Run(codec, Step(codec, Step(codec, s, a), b), rest)
  {
    assert ([a, b] + rest)[1..] == [b] + rest && ([b] + rest)[1..] == rest;
  }

  // Any call on a live connection can be carried to its answer, leaving the connection
  // ready for the next.
  lemma ExchangeCompletes(codec: Codec, s: State, payload: seq<byte>, ok: bool, answer: seq<byte>)
    returns (events: seq<Event>)
    requires RoundTrips(codec) && Inv(codec, s) && Connected(s) && s.client.Idle? && Here(s).server == Filling([])
    requires var req := Request(s.nextId, payload);
             && Sendable(codec, req) && codec.encodeRequest(req) != []
             && codec.decodeRequest(codec.encodeRequest(req)).Some?
    requires var body := codec.encodeResponse(Response(s.nextId, ok, answer)); 0 < |body| <= MAX_FRAME_BYTES
    ensures var t := Run(codec, s, events);
            && t.accepted == s.accepted + [(Request(s.nextId, payload), Response(s.nextId, ok, answer))]
            && Connected(t) && t.client.Idle? && Here(t).server == Filling([])
  {
    hide FrameOf, FirstFrame, Needed, Step;
    var req, resp, i := Request(s.nextId, payload), Response(s.nextId, ok, answer), s.current.value;
    var n, m := |codec.encodeRequest(req)|, |codec.encodeResponse(resp)|;
    var f, g := RequestFrame(codec, req), FrameOf(codec.encodeResponse(resp));
    RequestSent(codec, s, payload, Here(s));
    var s1 := Step(codec, Step(codec, s, Call(payload)), ClientWrites(|f|));
    RequestTaken(codec, s1, i, req, ok, answer);
    var s2 := Step(codec, Step(codec, s1, ServerReads(i, 4, ok, answer)), ServerReads(i, n, ok, answer));
    AnswerSent(codec, s2, i, g);
    var s3 := Step(codec, s2, ServerWrites(i, |g|, false));
    AnswerTaken(codec, s3, resp);
    var last := [ClientReads(4), ClientReads(m)];
    var rest := [ServerWrites(i, |g|, false)] + last;
    var mid := [ServerReads(i, 4, ok, answer), ServerReads(i, n, ok, answer)] + rest;
    events := [Call(payload), ClientWrites(|f|)] + mid;
    RunTwo(codec, s, Call(payload), ClientWrites(|f|), mid);
    RunTwo(codec, s1, ServerReads(i, 4, ok, answer), ServerReads(i, n, ok, answer), rest);
    assert rest[1..] == last && Run(codec, s2, rest) == Run(codec, s3, last);
    RunTwo(codec, s3, ClientReads(4), ClientReads(m), []);
    assert last + [] == last;
  }
}
