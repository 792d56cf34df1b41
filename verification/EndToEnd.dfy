// The request/response protocol with the dispatcher as its server: the client's transfers,
// the server's transfers and what the dispatcher answers, in one machine.
module EndToEnd {
  import opened Decimal
  import opened Frame
  import opened DispatcherSpec
  import opened Transport
  import opened Sources
  import Lockstep
  import Engine

  // The two codecs, and the dispatcher's options and first state.
  datatype Setting = Setting(
    codec: Lockstep.Codec, wire: Wire, payload: Response -> seq<byte>, lib: Engine.Lib, cfg: Config, d0: Disp)

  ghost predicate Sane(x: Setting) {
    Lockstep.RoundTrips(x.codec) && Agrees(x.codec, x.wire, x.payload) && DInv(x.lib, x.cfg, x.d0)
  }

  // The protocol's state and the frames served so far, over all connections; these decide
  // the dispatcher's state.
  datatype State = State(net: Lockstep.State, bodies: seq<seq<byte>>)

  function Dispatched(x: Setting, bodies: seq<seq<byte>>): Disp
    requires DInv(x.lib, x.cfg, x.d0)
  {
    Served(x.lib, x.cfg, x.wire, x.d0, bodies).0
  }

  // The dispatcher's answer to a frame after others.
  function AnswerTo(x: Setting, bodies: seq<seq<byte>>, body: seq<byte>): Response
    requires DInv(x.lib, x.cfg, x.d0)
  {
    Reply(x.lib, x.cfg, x.wire, Dispatched(x, bodies), body).1
  }

  // The frame a read by a server completes, if it completes one.
  function Completed(s: Lockstep.State, i: nat, n: nat): Option<seq<byte>> {
    if i < |s.conns| && s.conns[i].server.Filling? && 0 < n <= |s.conns[i].toServer|
       && n <= Lockstep.Needed(s.conns[i].server.got) then
      match FirstFrame(s.conns[i].server.got + s.conns[i].toServer[..n])
      case Frame(body, _) => Some(body)
      case _ => None
    else None
  }

  // What servers answer, and whether they shut down, is the dispatcher's doing.
  function Step(x: Setting, s: State, e: Lockstep.Event): State
    requires DInv(x.lib, x.cfg, x.d0)
  {
    match e
    case ServerReads(i, n, _, _) =>
      (match Completed(s.net, i, n)
       case Some(body) =>
         var resp := AnswerTo(x, s.bodies, body);
         State(Lockstep.Step(x.codec, s.net, Lockstep.ServerReads(i, n, resp.Ok?, x.payload(resp))), s.bodies + [body])
       case None => State(Lockstep.Step(x.codec, s.net, e), s.bodies))
    case ServerWrites(i, n, _) =>
      var shutdown := Dispatched(x, s.bodies).shutdown;
      State(Lockstep.Step(x.codec, s.net, Lockstep.ServerWrites(i, n, shutdown)), s.bodies)
    case _ => State(Lockstep.Step(x.codec, s.net, e), s.bodies)
  }

  function Run(x: Setting, s: State, events: seq<Lockstep.Event>): State
    requires DInv(x.lib, x.cfg, x.d0)
    decreases |events|
  {
    if events == [] then s else Run(x, Step(x, s, events[0]), events[1..])
  }

  const INIT := State(Lockstep.INIT, [])

  ghost predicate Inv(x: Setting, s: State)
    requires DInv(x.lib, x.cfg, x.d0)
  {
    && Lockstep.Inv(x.codec, s.net)
    && |s.net.answered| == |s.bodies|
    && forall k :: 0 <= k < |s.bodies| ==>
         s.net.answered[k] == (s.bodies[k], Seen(AnswerTo(x, s.bodies[..k], s.bodies[k]), x.payload))
  }

  lemma ReadIsServed(x: Setting, s: State, i: nat, n: nat)
    requires Sane(x) && Completed(s.net, i, n).Some?
    ensures var body := Completed(s.net, i, n).value; var resp := AnswerTo(x, s.bodies, body);
            Lockstep.Step(x.codec, s.net, Lockstep.ServerReads(i, n, resp.Ok?, x.payload(resp))).answered ==
            s.net.answered + [(body, Seen(resp, x.payload))]
  {
    hide DInv, Agrees, FirstFrame, Lockstep.Needed, Reply, Dispatched;
    ServerStepIsReply(x.codec, x.wire, x.payload, x.lib, x.cfg, DispatchedIsFine(x, s.bodies), s.net, i, n);
  }

  function DispatchedIsFine(x: Setting, bodies: seq<seq<byte>>): (d: Disp)
    requires DInv(x.lib, x.cfg, x.d0)
    ensures DInv(x.lib, x.cfg, d) && d == Dispatched(x, bodies)
  {
    Dispatched(x, bodies)
  }

  // No other step answers a frame.
  lemma OthersAnswerNothing(x: Setting, s: Lockstep.State, e: Lockstep.Event)
    requires e.ServerReads? ==> Completed(s, e.conn, e.n).None?
    ensures Lockstep.Step(x.codec, s, e).answered == s.answered
  {
    hide FirstFrame, FrameOf, Lockstep.Needed;
  }

  lemma StepKeepsInv(x: Setting, s: State, e: Lockstep.Event)
    requires Sane(x) && Inv(x, s)
    ensures Inv(x, Step(x, s, e))
  {
    hide DInv, Agrees, Completed, AnswerTo, Dispatched, Lockstep.Inv, Lockstep.Step, Lockstep.RoundTrips;
    var t := Step(x, s, e);
    match e
    case ServerReads(i, n, _, _) =>
      if Completed(s.net, i, n).Some? {
        var body := Completed(s.net, i, n).value;
        var resp := AnswerTo(x, s.bodies, body);
        Lockstep.StepKeepsInv(x.codec, s.net, Lockstep.ServerReads(i, n, resp.Ok?, x.payload(resp)));
        ReadIsServed(x, s, i, n);
        Prefixes(s.bodies, body);
      } else {
        Lockstep.StepKeepsInv(x.codec, s.net, e);
        OthersAnswerNothing(x, s.net, e);
      }
    case ServerWrites(i, n, _) =>
      var e1 := Lockstep.ServerWrites(i, n, Dispatched(x, s.bodies).shutdown);
      Lockstep.StepKeepsInv(x.codec, s.net, e1);
      OthersAnswerNothing(x, s.net, e1);
    case _ =>
      Lockstep.StepKeepsInv(x.codec, s.net, e);
      OthersAnswerNothing(x, s.net, e);
  }

  lemma Prefixes(bodies: seq<seq<byte>>, body: seq<byte>)
    ensures forall k :: 0 <= k <= |bodies| ==> (bodies + [body])[..k] == bodies[..k]
    ensures bodies[..|bodies|] == bodies
  {
  }

  lemma {:induction false} RunKeepsInv(x: Setting, s: State, events: seq<Lockstep.Event>)
    requires Sane(x) && Inv(x, s)
    ensures Inv(x, Run(x, s, events))
    decreases |events|
  {
    hide DInv, Agrees, Inv, Step, Lockstep.RoundTrips;
    if events != [] {
      StepKeepsInv(x, s, events[0]);
      RunKeepsInv(x, Step(x, s, events[0]), events[1..]);
    }
  }

  // In every interleaving of calls, partial transfers, timeouts, disconnects and
  // reconnects, with any number of connections open at once: a response the client accepts
  // is what the dispatcher, in the state the frames served before had brought it to,
  // answered to the very request just sent; an ok one carries its id.
  lemma AcceptedIsDispatchers(x: Setting, events: seq<Lockstep.Event>, j: nat) returns (k: nat)
    requires Sane(x) && j < |Run(x, INIT, events).net.accepted|
    ensures var s := Run(x, INIT, events); var (req, resp) := s.net.accepted[j];
            && k < |s.bodies| && s.bodies[k] == x.codec.encodeRequest(req)
            && resp == Seen(AnswerTo(x, s.bodies[..k], s.bodies[k]), x.payload)
            && (resp.ok ==> resp.id == req.id)
  {
    hide DInv, Agrees, AnswerTo, Dispatched, Step;
    RunKeepsInv(x, INIT, events);
    var s := Run(x, INIT, events);
    var (req, resp) := s.net.accepted[j];
    var entry := (x.codec.encodeRequest(req), resp);
    assert s.net.accepted[j] in s.net.accepted;
    assert entry in s.net.answered;
    k :| 0 <= k < |s.net.answered| && s.net.answered[k] == entry;
    assert Lockstep.AnswersUnder(x.codec, entry);
    assert x.codec.decodeRequest(x.codec.encodeRequest(req)) in {None, Some(req)};
  }
}
