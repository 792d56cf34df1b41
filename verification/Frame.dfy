// Length-prefixed frames over a pipe that may cut every transfer short.
// Models src/shared/ipc-protocol/frame.cpp.
module Frame {
  type byte = b: int | 0 <= b < 256

  const MAX_FRAME_BYTES := 0x10_0000

  datatype Status = Ok | Closed | IoError | TooLarge

  // ---- Wire format ------------------------------------------------------------

  function EncodeLength(n: nat): (h: seq<byte>)
    requires n < 0x1_0000_0000
    ensures |h| == 4
  {
    [n % 256, n / 256 % 256, n / 65536 % 256, n / 16777216 % 256]
  }

  function DecodeLength(h: seq<byte>): nat
    requires |h| == 4
  {
    h[0] as int + 256 * (h[1] as int) + 65536 * (h[2] as int) + 16777216 * (h[3] as int)
  }

  lemma LengthRoundTrip(n: nat)
    requires n < 0x1_0000_0000
    ensures DecodeLength(EncodeLength(n)) == n
  {
    assert n / 65536 == n / 256 / 256;
    assert n / 16777216 == n / 65536 / 256;
  }

  // Least significant byte first.
  lemma LengthIsLittleEndian(n: nat)
    requires n < 0x1_0000_0000
    ensures var h := EncodeLength(n);
            n == h[0] as int + 0x100 * (h[1] as int) + 0x1_0000 * (h[2] as int) + 0x100_0000 * (h[3] as int)
  {
    assert n / 65536 == n / 256 / 256;
    assert n / 16777216 == n / 65536 / 256;
  }

  function FrameOf(body: seq<byte>): (f: seq<byte>)
    requires |body| <= MAX_FRAME_BYTES
    ensures |f| == 4 + |body|
  {
    EncodeLength(|body|) + body
  }

  datatype Parse = Incomplete | Oversize | Frame(body: seq<byte>, rest: seq<byte>)

  // The frame a stream starts with, if it is all there.
  function FirstFrame(stream: seq<byte>): Parse {
    if |stream| < 4 then Incomplete
    else
      var n := DecodeLength(stream[..4]);
      if n > MAX_FRAME_BYTES then Oversize
      else if |stream| < 4 + n then Incomplete
      else Frame(stream[4..4 + n], stream[4 + n..])
  }

  // A written frame is read back, and what follows is left alone.
  lemma FirstFrameOf(body: seq<byte>, rest: seq<byte>)
    requires |body| <= MAX_FRAME_BYTES
    ensures FirstFrame(FrameOf(body) + rest) == Frame(body, rest)
  {
    var stream := FrameOf(body) + rest;
    LengthRoundTrip(|body|);
    assert stream[..4] == EncodeLength(|body|);
    assert stream[4..4 + |body|] == body;
    assert stream[4 + |body|..] == rest;
  }

  // Any cut of a frame short of its end is recognised as incomplete.
  lemma CutFrameIsIncomplete(body: seq<byte>, k: nat)
    requires |body| <= MAX_FRAME_BYTES && k < |FrameOf(body)|
    ensures FirstFrame(FrameOf(body)[..k]) == Incomplete
  {
    if k >= 4 {
      LengthRoundTrip(|body|);
      assert FrameOf(body)[..k][..4] == EncodeLength(|body|);
    }
  }

  function Stream(bodies: seq<seq<byte>>): seq<byte>
    requires forall i :: 0 <= i < |bodies| ==> |bodies[i]| <= MAX_FRAME_BYTES
  {
    if bodies == [] then [] else FrameOf(bodies[0]) + Stream(bodies[1..])
  }

  // What k frames in a row, read from a stream, are.
  function FramesIn(stream: seq<byte>, k: nat): (r: (seq<seq<byte>>, seq<byte>))
    ensures |r.0| <= k
  {
    if k == 0 then ([], stream)
    else
      match FirstFrame(stream)
      case Frame(body, rest) => var (bodies, tail) := FramesIn(rest, k - 1); ([body] + bodies, tail)
      case _ => ([], stream)
  }

  // A stream of frames is read back as the same sequence, leaving exactly the remainder.
  lemma {:induction false} StreamRoundTrip(bodies: seq<seq<byte>>, rest: seq<byte>)
    requires forall i :: 0 <= i < |bodies| ==> |bodies[i]| <= MAX_FRAME_BYTES
    ensures FramesIn(Stream(bodies) + rest, |bodies|) == (bodies, rest)
    decreases |bodies|
  {
    if bodies == [] {
      assert Stream(bodies) + rest == rest;
    } else {
      var tail := Stream(bodies[1..]) + rest;
      assert Stream(bodies) + rest == FrameOf(bodies[0]) + tail;
      FirstFrameOf(bodies[0], tail);
      StreamRoundTrip(bodies[1..], rest);
      assert bodies == [bodies[0]] + bodies[1..];
    }
  }

  // ---- The pipe -----------------------------------------------------------------

  // One end of a pipe as the read and write callbacks see it. The script holds the
  // outcome of each callback still to come: a negative entry is an error, zero a closed
  // peer, k > 0 moves at most k bytes. Any cutting of transfers is some script.
  class Pipe {
    var incoming: seq<byte>
    var outgoing: seq<byte>
    var script: seq<int>

    constructor (incoming: seq<byte>, script: seq<int>)
      ensures this.incoming == incoming && outgoing == [] && this.script == script
    {
      this.incoming, outgoing, this.script := incoming, [], script;
    }

    // The next outcome; with the script used up the peer has closed.
    method Outcome() returns (k: int)
      modifies this`script
      ensures k == if old(script) == [] then 0 else old(script)[0]
      ensures script == if old(script) == [] then [] else old(script)[1..]
    {
      if script == [] {
        return 0;
      }
      k, script := script[0], script[1..];
    }

    method Read(buf: array<byte>, at: nat, n: nat) returns (r: int)
      requires n > 0 && at + n <= buf.Length
      modifies this`incoming, this`script, buf
      ensures r <= n && (r > 0 ==> r <= |old(incoming)|)
      ensures r <= 0 ==> incoming == old(incoming) && buf[..] == old(buf[..])
      ensures r > 0 ==> incoming == old(incoming)[r..] && buf[at..at + r] == old(incoming)[..r]
      ensures buf[..at] == old(buf[..at])
      ensures script == if old(script) == [] then [] else old(script)[1..]
      ensures old(script) != [] && old(script)[0] > 0 && old(incoming) != [] ==> r > 0
      ensures old(script) == [] || old(script)[0] >= 0 ==> r >= 0
    {
      var k := Outcome();
      if k < 0 {
        return -1;
      }
      var m: nat := if k < n then k else n;
      m := if m < |incoming| then m else |incoming|;
      ghost var left := script;
      for i := 0 to m
        invariant incoming == old(incoming) && script == left
        invariant buf[at..at + i] == incoming[..i]
        invariant buf[..at] == old(buf[..at])
        invariant i == 0 ==> buf[..] == old(buf[..])
      {
        buf[at + i] := incoming[i];
      }
      incoming := incoming[m..];
      r := m;
    }

    method Write(bytes: seq<byte>) returns (r: int)
      requires bytes != []
      modifies this`outgoing, this`script
      ensures r <= |bytes|
      ensures outgoing == old(outgoing) + if r > 0 then bytes[..r] else []
      ensures script == if old(script) == [] then [] else old(script)[1..]
      ensures old(script) != [] && old(script)[0] > 0 ==> r > 0
    {
      var k := Outcome();
      if k < 0 {
        return -1;
      }
      r := if k < |bytes| then k else |bytes|;
      outgoing := outgoing + bytes[..r];
    }
  }

  // Callbacks that never fail, and enough of them to move n bytes one at a time.
  predicate Healthy(script: seq<int>, n: int) {
    |script| >= n && forall i :: 0 <= i < |script| ==> script[i] > 0
  }

  // Callbacks that never failed and had not run out yet.
  predicate Lively(before: seq<int>, after: seq<int>) {
    Healthy(before, 0) && Healthy(after, 1)
  }

  lemma Prefix(stream: seq<byte>, k: nat, n: nat)
    requires k + n <= |stream|
    ensures stream[..k] + stream[k..][..n] == stream[..k + n] && stream[k..][n..] == stream[k + n..]
  {
  }

  method ReadExact(pipe: Pipe, buf: array<byte>) returns (s: Status)
    modifies pipe`incoming, pipe`script, buf
    ensures s.Ok? ==> buf.Length <= |old(pipe.incoming)| && buf[..] == old(pipe.incoming)[..buf.Length]
                      && pipe.incoming == old(pipe.incoming)[buf.Length..]
    ensures !s.Ok? ==> exists k: nat :: k < buf.Length && k <= |old(pipe.incoming)|
                                        && pipe.incoming == old(pipe.incoming)[k..]
    ensures !s.TooLarge?
    ensures Healthy(old(pipe.script), 0) ==>
              (s.Ok? || s.Closed?) && Healthy(pipe.script, if s.Ok? then |old(pipe.script)| - buf.Length else 0)
    ensures Healthy(old(pipe.script), buf.Length) && buf.Length <= |old(pipe.incoming)| ==> s.Ok?
    ensures Lively(old(pipe.script), pipe.script) ==>
              Healthy(old(pipe.script), 1) && s == if buf.Length <= |old(pipe.incoming)| then Ok else Closed
  {
    var n := buf.Length;
    var got := 0;
    while got < n
      invariant got <= n && got <= |old(pipe.incoming)|
      invariant buf[..got] == old(pipe.incoming)[..got]
      invariant pipe.incoming == old(pipe.incoming)[got..]
      invariant Healthy(old(pipe.script), 0) ==>
                  |pipe.script| >= |old(pipe.script)| - got && Healthy(pipe.script, 0)
      invariant pipe.script != [] ==> old(pipe.script) != []
    {
      ghost var done := buf[..got];
      var r := pipe.Read(buf, got, n - got);
      if r == 0 {
        return Closed;
      }
      if r < 0 {
        return IoError;
      }
      assert buf[..got] == done && buf[..got + r] == buf[..got] + buf[got..got + r];
      Prefix(old(pipe.incoming), got, r);
      got := got + r;
    }
    s := Ok;
  }

  method WriteExact(pipe: Pipe, bytes: seq<byte>) returns (s: Status)
    modifies pipe`outgoing, pipe`script
    ensures s.Ok? ==> pipe.outgoing == old(pipe.outgoing) + bytes
    ensures !s.Ok? ==> exists k: nat :: k < |bytes| && pipe.outgoing == old(pipe.outgoing) + bytes[..k]
    ensures !s.TooLarge?
    ensures Healthy(old(pipe.script), |bytes|) ==>
              s.Ok? && Healthy(pipe.script, |old(pipe.script)| - |bytes|)
    ensures Healthy(old(pipe.script), 0) ==> Healthy(pipe.script, 0)
    ensures Lively(old(pipe.script), pipe.script) ==> Healthy(old(pipe.script), 1) && s.Ok?
  {
    var put := 0;
    while put < |bytes|
      invariant put <= |bytes|
      invariant pipe.outgoing == old(pipe.outgoing) + bytes[..put]
      invariant Healthy(old(pipe.script), 0) ==>
                  |pipe.script| >= |old(pipe.script)| - put && Healthy(pipe.script, 0)
      invariant pipe.script != [] ==> old(pipe.script) != []
    {
      var w := pipe.Write(bytes[put..]);
      if w == 0 {
        return Closed;
      }
      if w < 0 {
        return IoError;
      }
      assert bytes[..put + w] == bytes[..put] + bytes[put..][..w];
      put := put + w;
    }
    assert bytes[..put] == bytes;
    s := Ok;
  }

  // Whatever the cutting, an accepted body is the first frame of the stream and exactly
  // that frame was taken; with callbacks that do not fail the stream decides the outcome.
  method ReadFrame(pipe: Pipe) returns (s: Status, body: seq<byte>)
    modifies pipe`incoming, pipe`script
    ensures s.Ok? ==> FirstFrame(old(pipe.incoming)) == Frame(body, pipe.incoming)
    ensures s.TooLarge? ==> FirstFrame(old(pipe.incoming)) == Oversize && pipe.incoming == old(pipe.incoming)[4..]
    ensures Healthy(old(pipe.script), |old(pipe.incoming)|) ==>
              match FirstFrame(old(pipe.incoming))
              case Frame(_, _) => s.Ok?
              case Oversize => s.TooLarge?
              case Incomplete => s.Closed?
    ensures Healthy(old(pipe.script), 0) ==> Healthy(pipe.script, 0)
    ensures Lively(old(pipe.script), pipe.script) ==>
              Healthy(old(pipe.script), 1) && (s.Ok? <==> FirstFrame(old(pipe.incoming)).Frame?)
  {
    body := [];
    var header := new byte[4];
    s := ReadExact(pipe, header);
    if s != Ok {
      return;
    }
    ghost var stream := old(pipe.incoming);
    assert header[..] == stream[..4] && header[..] == [header[0], header[1], header[2], header[3]];
    var len := header[0] as int + 256 * (header[1] as int) + 65536 * (header[2] as int) + 16777216 * (header[3] as int);
    assert len == DecodeLength(stream[..4]);
    if len > MAX_FRAME_BYTES {
      return TooLarge, [];
    }
    if len == 0 {
      assert stream[4..4] == [];
      return;
    }
    var buf := new byte[len];
    s := ReadExact(pipe, buf);
    body := buf[..];
  }

  method WriteFrame(pipe: Pipe, body: seq<byte>) returns (s: Status)
    modifies pipe`outgoing, pipe`script
    ensures s.TooLarge? <==> |body| > MAX_FRAME_BYTES
    ensures s.TooLarge? ==> pipe.outgoing == old(pipe.outgoing) && pipe.script == old(pipe.script)
    ensures s.Ok? ==> pipe.outgoing == old(pipe.outgoing) + FrameOf(body)
    ensures !s.Ok? && !s.TooLarge? ==>
              exists k: nat :: k < |FrameOf(body)| && pipe.outgoing == old(pipe.outgoing) + FrameOf(body)[..k]
    ensures |body| <= MAX_FRAME_BYTES && Healthy(old(pipe.script), |FrameOf(body)|) ==> s.Ok?
    ensures Healthy(old(pipe.script), 0) ==> Healthy(pipe.script, 0)
    ensures Lively(old(pipe.script), pipe.script) ==>
              Healthy(old(pipe.script), 1) && (s.Ok? <==> |body| <= MAX_FRAME_BYTES)
  {
    if |body| > MAX_FRAME_BYTES {
      return TooLarge;
    }
    var len := |body|;
    var header: seq<byte> := [len % 256, len / 256 % 256, len / 65536 % 256, len / 16777216 % 256];
    s := WriteExact(pipe, header);
    if s != Ok {
      ghost var k: nat :| k < 4 && pipe.outgoing == old(pipe.outgoing) + header[..k];
      assert FrameOf(body)[..k] == header[..k];
      return;
    }
    if body == [] {
      assert FrameOf(body) == header;
      return;
    }
    s := WriteExact(pipe, body);
    assert old(pipe.outgoing) + header + body == old(pipe.outgoing) + FrameOf(body);
    if s != Ok {
      ghost var k: nat :| k < |body| && pipe.outgoing == old(pipe.outgoing) + header + body[..k];
      assert FrameOf(body)[..4 + k] == header + body[..k];
      assert pipe.outgoing == old(pipe.outgoing) + FrameOf(body)[..4 + k];
    }
  }
}
