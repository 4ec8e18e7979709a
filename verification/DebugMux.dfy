/** Docker's multiplexed attach stream, and the debug adapter's messages carried on its stdout. */
module DebugMux {
  import opened ByteStrings
  import opened DebugFraming

  const STDOUT: Byte := 1
  const STDERR: Byte := 2

  // One frame: the stream, three bytes nobody reads, a big-endian length, the data.
  datatype Packet = Packet(kind: Byte, pad: Bytes, data: Bytes)

  predicate Fits(p: Packet) {
    |p.pad| == 3 && |p.data| < 0x1_0000_0000
  }

  predicate AllFit(packets: seq<Packet>) {
    forall i :: 0 <= i < |packets| ==> Fits(packets[i])
  }

  function BigEndian(s: Bytes): nat
    requires |s| == 4
  {
    var a: nat, b: nat, c: nat, d: nat := s[0], s[1], s[2], s[3];
    (a * 0x100 + b) * 0x1_0000 + (c * 0x100 + d)
  }

  function Length32(n: nat): (s: Bytes)
    requires n < 0x1_0000_0000
    ensures |s| == 4 && BigEndian(s) == n
  {
    var high, low := n / 0x1_0000, n % 0x1_0000;
    [high / 0x100, high % 0x100, low / 0x100, low % 0x100]
  }

  function OnWire(p: Packet): Bytes
    requires Fits(p)
  {
    [p.kind] + p.pad + Length32(|p.data|) + p.data
  }

  function Mux(packets: seq<Packet>): Bytes
    requires AllFit(packets)
  {
    if packets == [] then [] else OnWire(packets[0]) + Mux(packets[1..])
  }

  // --- demultiplexing ------------------------------------------------------------

  // What the reader was fed, the stderr texts, and the bytes of an unfinished frame.
  datatype Streams = Streams(stdout: Bytes, stderr: seq<string>, left: Bytes)

  predicate Torn(s: Bytes) {
    |s| < 8 || |s| < 8 + BigEndian(s[4..8])
  }

  // Where a whole first frame ends.
  function FrameEnd(s: Bytes): (end: nat)
    requires !Torn(s)
    ensures 8 <= end <= |s|
  {
    8 + BigEndian(s[4..8])
  }

  function Feed(kind: Byte, data: Bytes, text: Bytes -> string): Streams {
    Streams(if kind == STDOUT then data else [], if kind == STDERR then [text(data)] else [], [])
  }

  function Before(first: Streams, next: Streams): Streams {
    Streams(first.stdout + next.stdout, first.stderr + next.stderr, next.left)
  }

  function Demuxed(mux: Bytes, text: Bytes -> string): Streams
    decreases |mux|
  {
    if Torn(mux) then Streams([], [], mux)
    else
      var end := FrameEnd(mux);
      Before(Feed(mux[0], mux[8..end], text), Demuxed(mux[end..], text))
  }

  lemma BeforeAssociates(a: Streams, b: Streams, c: Streams)
    ensures Before(Before(a, b), c) == Before(a, Before(b, c))
  {
    assert (a.stdout + b.stdout) + c.stdout == a.stdout + (b.stdout + c.stdout);
    assert (a.stderr + b.stderr) + c.stderr == a.stderr + (b.stderr + c.stderr);
  }

  lemma BeforeNothing(left: Bytes, s: Streams)
    ensures Before(Streams([], [], left), s) == s
    ensures Before(s, Streams([], [], left)) == s.(left := left)
  {
    assert [] + s.stdout == s.stdout && s.stdout + [] == s.stdout;
    assert [] + s.stderr == s.stderr && s.stderr + [] == s.stderr;
  }

  // One frame further.
  lemma DemuxStep(stdout: Bytes, stderr: seq<string>, mux: Bytes, text: Bytes -> string)
    requires !Torn(mux)
    ensures var end := FrameEnd(mux);
            var fed, later := Feed(mux[0], mux[8..end], text), Demuxed(mux[end..], text);
            && stdout + Demuxed(mux, text).stdout == (stdout + fed.stdout) + later.stdout
            && stderr + Demuxed(mux, text).stderr == (stderr + fed.stderr) + later.stderr
  {
    var end := FrameEnd(mux);
    BeforeAssociates(Streams(stdout, stderr, []), Feed(mux[0], mux[8..end], text), Demuxed(mux[end..], text));
  }

  /** `_demux` over all the bytes of the attach socket: stdout to the reader in order, stderr
      text by text, other streams skipped, an unfinished last frame dropped. */
  method Demux(mux: Bytes, text: Bytes -> string) returns (stdout: Bytes, stderr: seq<string>)
    ensures stdout == Demuxed(mux, text).stdout && stderr == Demuxed(mux, text).stderr
  {
    ghost var all := Demuxed(mux, text);
    stdout, stderr := [], [];
    var rest := mux;
    while !Torn(rest)
      invariant stdout + Demuxed(rest, text).stdout == all.stdout
      invariant stderr + Demuxed(rest, text).stderr == all.stderr
      decreases |rest|
    {
      DemuxStep(stdout, stderr, rest, text);
      var end := FrameEnd(rest);
      var kind, data := rest[0], rest[8..end];
      assert stdout + [] == stdout && stderr + [] == stderr;
      if kind == STDOUT {
        stdout := stdout + data;
      } else if kind == STDERR {
        stderr := stderr + [text(data)];
      }
      rest := rest[end..];
    }
  }

  /** Whatever the bytes, it does not matter how they are cut. */
  lemma {:induction false} CutsDoNotMatter(s: Bytes, more: Bytes, text: Bytes -> string)
    ensures var now := Demuxed(s, text); Demuxed(s + more, text) == Before(now, Demuxed(now.left + more, text))
    decreases |s|
  {
    if Torn(s) {
      BeforeNothing(s, Demuxed(s + more, text));
    } else {
      var end := FrameEnd(s);
      assert (s + more)[4..8] == s[4..8] && (s + more)[8..end] == s[8..end] && (s + more)[end..] == s[end..] + more;
      CutsDoNotMatter(s[end..], more, text);
      var now := Demuxed(s[end..], text);
      BeforeAssociates(Feed(s[0], s[8..end], text), now, Demuxed(now.left + more, text));
    }
  }

  // --- what the frames carried ---------------------------------------------------------

  function StdoutOf(packets: seq<Packet>): Bytes {
    if packets == [] then []
    else (if packets[0].kind == STDOUT then packets[0].data else []) + StdoutOf(packets[1..])
  }

  function StderrOf(packets: seq<Packet>, text: Bytes -> string): seq<string> {
    if packets == [] then []
    else (if packets[0].kind == STDERR then [text(packets[0].data)] else []) + StderrOf(packets[1..], text)
  }

  lemma OnePacket(p: Packet, rest: Bytes, text: Bytes -> string)
    requires Fits(p)
    ensures Demuxed(OnWire(p) + rest, text) == Before(Feed(p.kind, p.data, text), Demuxed(rest, text))
  {
    var s := OnWire(p) + rest;
    var end := 8 + |p.data|;
    assert s[4..8] == Length32(|p.data|);
    assert s[8..end] == p.data && s[end..] == rest;
  }

  /** The frames come apart again: stdout and stderr of each, in order, up to an unfinished frame. */
  lemma {:induction false} DemuxInvertsMux(packets: seq<Packet>, tail: Bytes, text: Bytes -> string)
    requires AllFit(packets) && Torn(tail)
    ensures Demuxed(Mux(packets) + tail, text) == Streams(StdoutOf(packets), StderrOf(packets, text), tail)
    decreases |packets|
  {
    if packets == [] {
      assert Mux(packets) + tail == tail;
    } else {
      var p, rest := packets[0], packets[1..];
      assert Mux(packets) + tail == OnWire(p) + (Mux(rest) + tail);
      OnePacket(p, Mux(rest) + tail, text);
      DemuxInvertsMux(rest, tail, text);
    }
  }

  /** A session whose stdout frames carry the framed messages, cut anywhere and interleaved with
      anything else: the messages read back, to the end of the stream, are exactly the ones sent. */
  lemma MessagesSurviveTheMultiplexing(py: Python, bodies: seq<Bytes>, packets: seq<Packet>, tail: Bytes,
                                       text: Bytes -> string)
    requires Behaves(py) && NonEmpty(bodies) && AllFit(packets) && Torn(tail)
    requires StdoutOf(packets) == Wire(bodies)
    ensures Drain(py, Demuxed(Mux(packets) + tail, text).stdout, true) == Drained(bodies, End, [])
  {
    DemuxInvertsMux(packets, tail, text);
    WireRoundTrip(py, bodies, true);
  }

  lemma Carried(packets: seq<Packet>, arrived: Bytes, coming: Bytes, text: Bytes -> string)
    requires AllFit(packets) && arrived + coming == Mux(packets)
    ensures var now := Demuxed(arrived, text);
            StdoutOf(packets) == now.stdout + Demuxed(now.left + coming, text).stdout
  {
    CutsDoNotMatter(arrived, coming, text);
    assert Mux(packets) + [] == Mux(packets);
    DemuxInvertsMux(packets, [], text);
  }

  /** And while bytes are still arriving, what has been read is the first messages sent, in
      order, with the reader waiting for the next one. */
  lemma MessagesSoFar(py: Python, bodies: seq<Bytes>, packets: seq<Packet>, arrived: Bytes, coming: Bytes,
                      text: Bytes -> string)
    requires Behaves(py) && NonEmpty(bodies) && AllFit(packets)
    requires StdoutOf(packets) == Wire(bodies) && arrived + coming == Mux(packets)
    ensures var d := Drain(py, Demuxed(arrived, text).stdout, false); d.stop == Wait && d.bodies <= bodies
  {
    Carried(packets, arrived, coming, text);
    var now := Demuxed(arrived, text);
    PartOfTheWire(py, bodies, now.stdout, Demuxed(now.left + coming, text).stdout);
  }
}
