// The two ends of the connection as they call the framing: ServeConnection of
// src/domains/input-engine/backend/pipe_server.cpp and the calls of
// src/domains/tsf-service/backend/ipc_client.cpp.
module Transport {
  import opened Decimal
  import opened Frame
  import opened DispatcherSpec
  import opened DispatcherRuns
  import opened Sources
  import Lockstep
  import Dispatcher
  import Engine

  // ---- The server's end -------------------------------------------------------------

  datatype Decoded = Good(call: Call) | Mismatch | Malformed

  // The codec as the server uses it.
  datatype Wire = Wire(decode: seq<byte> -> Decoded, encode: Response -> seq<byte>)

  const PROTOCOL_MISMATCH := -4
  const BAD_JSON := -2

  // The answer to one frame. A frame that is no request is answered under id 0.
  function Reply(lib: Engine.Lib, cfg: Config, wire: Wire, d: Disp, body: seq<byte>): (r: (Disp, Response))
    requires DInv(lib, cfg, d)
    ensures DInv(lib, cfg, r.0)
  {
    match wire.decode(body)
    case Good(call) =>
      HandleKeeps(lib, cfg, d, call.id, call.req);
      Handle(lib, cfg, d, call.id, call.req)
    case Mismatch => (d, Err(0, PROTOCOL_MISMATCH))
    case Malformed => (d, Err(0, BAD_JSON))
  }

  // The state after a sequence of frames, and the encoded answers.
  function Served(lib: Engine.Lib, cfg: Config, wire: Wire, d: Disp, bodies: seq<seq<byte>>):
    (r: (Disp, seq<seq<byte>>))
    requires DInv(lib, cfg, d)
    ensures DInv(lib, cfg, r.0) && |r.1| == |bodies|
    decreases |bodies|
  {
    if bodies == [] then (d, [])
    else
      var n := |bodies| - 1;
      var (d1, answers) := Served(lib, cfg, wire, d, bodies[..n]);
      var (d2, resp) := Reply(lib, cfg, wire, d1, bodies[n]);
      (d2, answers + [wire.encode(resp)])
  }

  // A frame that is no request changes nothing and is refused under id 0: with code -4 for
  // another version of the protocol, else with code -2.
  lemma RefusedFrames(lib: Engine.Lib, cfg: Config, wire: Wire, d: Disp, body: seq<byte>)
    requires DInv(lib, cfg, d)
    ensures wire.decode(body).Mismatch? ==> Reply(lib, cfg, wire, d, body) == (d, Err(0, -4))
    ensures wire.decode(body).Malformed? ==> Reply(lib, cfg, wire, d, body) == (d, Err(0, -2))
  {
    hide DInv, Handle;
  }

  lemma {:induction false} FramesSnoc(stream: seq<byte>, k: nat, body: seq<byte>, rest: seq<byte>)
    requires |FramesIn(stream, k).0| == k && FirstFrame(FramesIn(stream, k).1) == Frame(body, rest)
    ensures FramesIn(stream, k + 1) == (FramesIn(stream, k).0 + [body], rest)
    decreases k
  {
    if k == 0 {
      assert FramesIn(rest, 0) == ([], rest);
      assert [body] + [] == [] + [body];
    } else {
      match FirstFrame(stream)
      case Frame(first, tail) =>
        FramesSnoc(tail, k - 1, body, rest);
        assert [first] + FramesIn(tail, k - 1).0 + [body] == [first] + (FramesIn(tail, k - 1).0 + [body]);
      case _ =>
    }
  }

  predicate AllSendable(bodies: seq<seq<byte>>) {
    forall i :: 0 <= i < |bodies| ==> |bodies[i]| <= MAX_FRAME_BYTES
  }

  lemma {:induction false} StreamSnoc(bodies: seq<seq<byte>>, body: seq<byte>)
    requires AllSendable(bodies) && |body| <= MAX_FRAME_BYTES
    ensures AllSendable(bodies + [body]) && Stream(bodies + [body]) == Stream(bodies) + FrameOf(body)
    decreases |bodies|
  {
    if bodies == [] {
      assert bodies + [body] == [body] && [body][1..] == [];
    } else {
      assert (bodies + [body])[1..] == bodies[1..] + [body];
      StreamSnoc(bodies[1..], body);
      assert (bodies + [body])[0] == bodies[0];
    }
  }

  // A frame written whole, or short of its end, or not at all for its size.
  ghost predicate WroteOne(before: seq<byte>, after: seq<byte>, answer: seq<byte>, sent: bool) {
    if sent then |answer| <= MAX_FRAME_BYTES && after == before + FrameOf(answer)
    else if |answer| > MAX_FRAME_BYTES then after == before
    else exists k: nat :: k < |FrameOf(answer)| && after == before + FrameOf(answer)[..k]
  }

  // What the server wrote: every answer in order, the last one perhaps cut short.
  ghost predicate Wrote(before: seq<byte>, after: seq<byte>, answers: seq<seq<byte>>, complete: bool) {
    if complete then AllSendable(answers) && after == before + Stream(answers)
    else
      && answers != []
      && var n := |answers| - 1;
         AllSendable(answers[..n]) && WroteOne(before + Stream(answers[..n]), after, answers[n], false)
  }

  method Act(dispatcher: Dispatcher.Dispatcher, wire: Wire, body: seq<byte>) returns (resp: Response)
    requires dispatcher.Valid() && DInv(dispatcher.engine.lib, dispatcher.cfg, dispatcher.View())
    modifies dispatcher, dispatcher.sessions, dispatcher.sessions.Objects(), dispatcher.engine, dispatcher.counter
    ensures dispatcher.Valid() && fresh(dispatcher.sessions.Objects() - old(dispatcher.sessions.Objects()))
    ensures (dispatcher.View(), resp)
         == Reply(dispatcher.engine.lib, dispatcher.cfg, wire, old(dispatcher.View()), body)
  {
    hide DInv, Handle;
    DInvHolds(dispatcher.engine.lib, dispatcher.cfg, dispatcher.View());
    match wire.decode(body) {
      case Good(call) => resp := dispatcher.Handle(call.id, call.req);
      case Mismatch => resp := Err(0, PROTOCOL_MISMATCH);
      case Malformed => resp := Err(0, BAD_JSON);
    }
  }

  // One round of the server: read a frame, act on it, answer.
  method ServeFrame(pipe: Pipe, dispatcher: Dispatcher.Dispatcher, wire: Wire)
    returns (got: bool, sent: bool, body: seq<byte>)
    requires dispatcher.Valid() && DInv(dispatcher.engine.lib, dispatcher.cfg, dispatcher.View())
    modifies pipe, dispatcher, dispatcher.sessions, dispatcher.sessions.Objects(), dispatcher.engine, dispatcher.counter
    ensures dispatcher.Valid() && fresh(dispatcher.sessions.Objects() - old(dispatcher.sessions.Objects()))
    ensures !got ==> !sent && dispatcher.View() == old(dispatcher.View()) && pipe.outgoing == old(pipe.outgoing)
    ensures got ==>
              && FirstFrame(old(pipe.incoming)) == Frame(body, pipe.incoming)
              && var (d, resp) := Reply(dispatcher.engine.lib, dispatcher.cfg, wire, old(dispatcher.View()), body);
                 dispatcher.View() == d && WroteOne(old(pipe.outgoing), pipe.outgoing, wire.encode(resp), sent)
    ensures Healthy(old(pipe.script), 0) ==> Healthy(pipe.script, 0)
    ensures Lively(old(pipe.script), pipe.script) ==>
              (got <==> FirstFrame(old(pipe.incoming)).Frame?)
              && var resp := Reply(dispatcher.engine.lib, dispatcher.cfg, wire, old(dispatcher.View()), body).1;
                 got ==> (sent <==> |wire.encode(resp)| <= MAX_FRAME_BYTES)
  {
    hide DInv, Reply, FirstFrame, FrameOf;
    var s;
    s, body := ReadFrame(pipe);
    if !s.Ok? {
      return false, false, body;
    }
    var resp := Act(dispatcher, wire, body);
    s := WriteFrame(pipe, wire.encode(resp));
    got, sent := true, s.Ok?;
  }

  // The frames after which the server goes on: none before the last asked it to shut down.
  ghost predicate GoesOn(lib: Engine.Lib, cfg: Config, wire: Wire, d: Disp, bodies: seq<seq<byte>>)
    requires DInv(lib, cfg, d)
  {
    forall i :: 0 < i < |bodies| ==> !Served(lib, cfg, wire, d, bodies[..i]).0.shutdown
  }

  lemma GoesOnSnoc(lib: Engine.Lib, cfg: Config, wire: Wire, d: Disp, bodies: seq<seq<byte>>, body: seq<byte>)
    requires DInv(lib, cfg, d) && GoesOn(lib, cfg, wire, d, bodies)
    requires bodies != [] ==> !Served(lib, cfg, wire, d, bodies).0.shutdown
    ensures GoesOn(lib, cfg, wire, d, bodies + [body])
  {
    hide DInv, Served;
    forall i | 0 < i < |bodies + [body]|
      ensures !Served(lib, cfg, wire, d, (bodies + [body])[..i]).0.shutdown
    {
      assert (bodies + [body])[..i] == bodies[..i];
      assert i == |bodies| ==> bodies[..i] == bodies;
    }
  }

  // Whatever the fragmentation, the frames handled are the first frames of what the client
  // sent, in order; the engine's state is that of the dispatcher run on them; and what is
  // written is their encoded answers, one each, in order. The server stops right after a
  // shutdown; while the callbacks do not fail it stops for nothing else but an answer too
  // large to send or the lack of a whole frame.
  method ServeConnection(pipe: Pipe, dispatcher: Dispatcher.Dispatcher, wire: Wire)
    returns (ghost bodies: seq<seq<byte>>, ghost complete: bool)
    requires dispatcher.Valid() && DInv(dispatcher.engine.lib, dispatcher.cfg, dispatcher.View())
    modifies pipe, dispatcher, dispatcher.sessions, dispatcher.sessions.Objects(), dispatcher.engine, dispatcher.counter
    ensures dispatcher.Valid()
    ensures FramesIn(old(pipe.incoming), |bodies|).0 == bodies
    ensures var (d, answers) := Served(dispatcher.engine.lib, dispatcher.cfg, wire, old(dispatcher.View()), bodies);
            && dispatcher.View() == d && Wrote(old(pipe.outgoing), pipe.outgoing, answers, complete)
            && (Lively(old(pipe.script), pipe.script) && !complete ==> |answers[|answers| - 1]| > MAX_FRAME_BYTES)
            && (Lively(old(pipe.script), pipe.script) && complete ==>
                  (bodies != [] && d.shutdown) || !FirstFrame(FramesIn(old(pipe.incoming), |bodies|).1).Frame?)
    ensures GoesOn(dispatcher.engine.lib, dispatcher.cfg, wire, old(dispatcher.View()), bodies)
  {
    hide DInv, Reply, FirstFrame, FrameOf, FramesIn, Stream, Served, GoesOn;
    ghost var lib, cfg, d0 := dispatcher.engine.lib, dispatcher.cfg, dispatcher.View();
    bodies, complete := [], true;
    ghost var answers: seq<seq<byte>> := [];
    NoFrames(pipe.incoming);
    NothingServed(lib, cfg, wire, d0);
    while true
      invariant complete && dispatcher.Valid()
      invariant fresh(dispatcher.sessions.Objects() - old(dispatcher.sessions.Objects()))
      invariant FramesIn(old(pipe.incoming), |bodies|) == (bodies, pipe.incoming)
      invariant Served(lib, cfg, wire, d0, bodies) == (dispatcher.View(), answers)
      invariant GoesOn(lib, cfg, wire, d0, bodies) && (bodies != [] ==> !dispatcher.shouldShutdown)
      invariant Healthy(old(pipe.script), 0) ==> Healthy(pipe.script, 0)
      invariant AllSendable(answers) && pipe.outgoing == old(pipe.outgoing) + Stream(answers)
      decreases |pipe.incoming|
    {
      ghost var stream, d := pipe.incoming, dispatcher.View();
      var got, sent, body := ServeFrame(pipe, dispatcher, wire);
      if !got {
        return;
      }
      FramesSnoc(old(pipe.incoming), |bodies|, body, pipe.incoming);
      FrameShrinks(stream);
      ghost var answer, earlier := wire.encode(Reply(lib, cfg, wire, d, body).1), answers;
      ServedSnoc(lib, cfg, wire, d0, bodies, body);
      GoesOnSnoc(lib, cfg, wire, d0, bodies, body);
      bodies, answers := bodies + [body], answers + [answer];
      if !sent {
        assert answers[..|earlier|] == earlier;
        complete := false;
        return;
      }
      StreamSnoc(earlier, answer);
      assert old(pipe.outgoing) + Stream(earlier) + FrameOf(answer)
          == old(pipe.outgoing) + (Stream(earlier) + FrameOf(answer));
      if dispatcher.shouldShutdown {
        return;
      }
    }
  }

  lemma NoFrames(stream: seq<byte>)
    ensures FramesIn(stream, 0) == ([], stream) && Stream([]) == []
  {
  }

  lemma NothingServed(lib: Engine.Lib, cfg: Config, wire: Wire, d: Disp)
    requires DInv(lib, cfg, d)
    ensures Served(lib, cfg, wire, d, []) == (d, []) && GoesOn(lib, cfg, wire, d, [])
  {
    hide DInv;
  }

  lemma ServedSnoc(lib: Engine.Lib, cfg: Config, wire: Wire, d: Disp, bodies: seq<seq<byte>>, body: seq<byte>)
    requires DInv(lib, cfg, d)
    ensures var (d1, answers) := Served(lib, cfg, wire, d, bodies);
            var (d2, resp) := Reply(lib, cfg, wire, d1, body);
            Served(lib, cfg, wire, d, bodies + [body]) == (d2, answers + [wire.encode(resp)])
  {
    hide DInv, Reply;
    assert (bodies + [body])[..|bodies|] == bodies;
  }

  lemma FrameShrinks(stream: seq<byte>)
    ensures FirstFrame(stream).Frame? ==> |FirstFrame(stream).rest| < |stream|
  {
  }

  // ---- The server's step in the lock-step protocol --------------------------------------

  // An answer as the protocol sees it; payload stands for what its body is encoded to.
  function Seen(resp: Response, payload: Response -> seq<byte>): Lockstep.Response {
    Lockstep.Response(resp.id, resp.Ok?, payload(resp))
  }

  // The protocol's codec and the server's agree on ids and on the bytes sent.
  ghost predicate Agrees(codec: Lockstep.Codec, wire: Wire, payload: Response -> seq<byte>) {
    && (forall body :: match wire.decode(body)
                       case Good(call) =>
                         codec.decodeRequest(body).Some? && codec.decodeRequest(body).value.id == call.id
                       case _ => codec.decodeRequest(body).None?)
    && (forall resp :: wire.encode(resp) == codec.encodeResponse(Seen(resp, payload)))
  }

  // When a read completes a frame, what the protocol's server goes on to send is the
  // dispatcher's encoded reply: the id it answers under is the dispatcher's doing.
  lemma ServerStepIsReply(codec: Lockstep.Codec, wire: Wire, payload: Response -> seq<byte>, lib: Engine.Lib,
                          cfg: Config, d: Disp, s: Lockstep.State, i: nat, n: nat)
    requires DInv(lib, cfg, d) && Agrees(codec, wire, payload)
    requires i < |s.conns| && s.conns[i].server.Filling? && 0 < n <= |s.conns[i].toServer|
    requires n <= Lockstep.Needed(s.conns[i].server.got)
    requires FirstFrame(s.conns[i].server.got + s.conns[i].toServer[..n]).Frame?
    ensures var body := FirstFrame(s.conns[i].server.got + s.conns[i].toServer[..n]).body;
            var resp := Reply(lib, cfg, wire, d, body).1; var bytes := wire.encode(resp);
            var t := Lockstep.Step(codec, s, Lockstep.ServerReads(i, n, resp.Ok?, payload(resp)));
            && t.conns[i].server
            == (if |bytes| > MAX_FRAME_BYTES then Lockstep.Gone else Lockstep.Answering(FrameOf(bytes)))
            && t.answered == s.answered + [(body, Seen(resp, payload))]
  {
    hide DInv, Handle, FirstFrame, FrameOf, Lockstep.Needed;
    var body := FirstFrame(s.conns[i].server.got + s.conns[i].toServer[..n]).body;
    match wire.decode(body)
    case Good(call) =>
      DInvHolds(lib, cfg, d);
      HandleKeeps(lib, cfg, d, call.id, call.req);
      assert codec.decodeRequest(body).Some? && codec.decodeRequest(body).value.id == call.id;
    case _ =>
      assert codec.decodeRequest(body).None?;
  }

  // ---- The client's end ---------------------------------------------------------------

  class IpcClient {
    const codec: Lockstep.Codec
    var pipe: Pipe?
    var nextId: nat

    constructor (codec: Lockstep.Codec)
      ensures this.codec == codec && pipe == null && nextId == 1
    {
      this.codec, pipe, nextId := codec, null, 1;
    }

    method Disconnect()
      modifies this`pipe
      ensures pipe == null
    {
      pipe := null;
    }

    // The client stays connected only if it wrote its request whole and took exactly one
    // whole frame in return; then the outcome is that frame's, decoded. Anything less
    // drops the connection.
    method CallWithTimeout(req: Lockstep.Request) returns (r: Option<Lockstep.Response>)
      modifies this`pipe, pipe
      ensures pipe == old(pipe) || pipe == null
      ensures pipe == null ==> r.None?
      ensures pipe != null ==>
                var body := codec.encodeRequest(req);
                && |body| <= MAX_FRAME_BYTES && pipe.outgoing == old(pipe.outgoing) + FrameOf(body)
                && var first := FirstFrame(old(pipe.incoming));
                   first.Frame? && first.rest == pipe.incoming && r == codec.decodeResponse(first.body)
      ensures r.Some? ==> pipe != null
    {
      if pipe == null {
        return None;
      }
      var s := WriteFrame(pipe, codec.encodeRequest(req));
      if !s.Ok? {
        Disconnect();
        return None;
      }
      var body;
      s, body := ReadFrame(pipe);
      if !s.Ok? {
        Disconnect();
        return None;
      }
      r := codec.decodeResponse(body);
    }

    // The id moves on whether or not the call gets through.
    method CallMethod(payload: seq<byte>) returns (r: Option<Lockstep.Response>)
      modifies this`pipe, this`nextId, pipe
      ensures nextId == (old(nextId) + 1) % Lockstep.ID_LIMIT
      ensures pipe == old(pipe) || pipe == null
      ensures r.Some? ==>
                r.value.ok && pipe != null
                && var body := codec.encodeRequest(Lockstep.Request(old(nextId), payload));
                   |body| <= MAX_FRAME_BYTES && pipe.outgoing == old(pipe.outgoing) + FrameOf(body)
      ensures r.Some? ==>
                && pipe != null && FirstFrame(old(pipe.incoming)).Frame?
                && FirstFrame(old(pipe.incoming)).rest == pipe.incoming
                && r == codec.decodeResponse(FirstFrame(old(pipe.incoming)).body)
    {
      var req := Lockstep.Request(nextId, payload);
      nextId := (nextId + 1) % Lockstep.ID_LIMIT;
      r := CallWithTimeout(req);
      if r.Some? && !r.value.ok {
        r := None;
      }
    }
  }
}
