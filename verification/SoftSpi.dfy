/** SPI in software: a buffer goes out bit by bit on the data line while a reply comes in.

    In two of the four modes the data line is written only when its level has to change. The claim is about
    what a slave sees: a shift register that takes the data line at its mode's clock edge ends up with
    exactly the bytes of the buffer.

    A byte is its eight bits, the lowest first, so that a mask with one bit set is the place of that bit. */
module SoftSpi {

  type Byte = s: seq<bool> | |s| == 8 witness [false, false, false, false, false, false, false, false]

  const NO_BITS: Byte := [false, false, false, false, false, false, false, false]

  datatype Mode = Mode0 | Mode1 | Mode2 | Mode3

  // The place of the bit that goes out k-th.
  function Place(lsbFirst: bool, k: nat): (p: nat)
    requires k < 8
    ensures p < 8
  {
    if lsbFirst then k else 7 - k
  }

  // A byte as it goes over the wire.
  function Bits(x: Byte, lsbFirst: bool): (r: seq<bool>)
    ensures |r| == 8 && forall k :: 0 <= k < 8 ==> r[k] == x[Place(lsbFirst, k)]
  {
    seq(8, k requires 0 <= k < 8 => x[Place(lsbFirst, k)])
  }

  function Stream(xs: seq<Byte>, lsbFirst: bool): (r: seq<bool>)
    ensures |r| == 8 * |xs|
  {
    if xs == [] then [] else Stream(xs[..|xs| - 1], lsbFirst) + Bits(xs[|xs| - 1], lsbFirst)
  }

  // ---------------------------------------------------------------------------
  // The slave: a shift register
  // ---------------------------------------------------------------------------

  function ShiftIn(reg: Byte, bit: bool, lsbFirst: bool): Byte {
    if lsbFirst then reg[1..] + [bit] else [bit] + reg[..7]
  }

  // The register after some levels have been clocked in.
  function Clocked(reg: Byte, levels: seq<bool>, lsbFirst: bool): Byte {
    if levels == [] then reg
    else ShiftIn(Clocked(reg, levels[..|levels| - 1], lsbFirst), levels[|levels| - 1], lsbFirst)
  }

  // It hands over its contents every eighth clock.
  function Received(levels: seq<bool>, lsbFirst: bool): (r: seq<Byte>)
    ensures |r| == |levels| / 8
    decreases |levels|
  {
    if |levels| < 8 then []
    else if |levels| % 8 != 0 then Received(levels[..|levels| - 1], lsbFirst)
    else Received(levels[..|levels| - 8], lsbFirst) + [Clocked(NO_BITS, levels[|levels| - 8..], lsbFirst)]
  }

  // After n clocks the first n bits stand at the end they came in at, the last one outermost.
  lemma {:induction false} FirstArrive(reg: Byte, x: Byte, lsbFirst: bool, n: nat, i: nat)
    requires n <= 8 && i < n
    ensures Clocked(reg, Bits(x, lsbFirst)[..n], lsbFirst)[if lsbFirst then 8 - n + i else n - 1 - i]
        == x[Place(lsbFirst, i)]
  {
    var l := Bits(x, lsbFirst)[..n];
    assert l[..n - 1] == Bits(x, lsbFirst)[..n - 1];
    if i < n - 1 { FirstArrive(reg, x, lsbFirst, n - 1, i); }
  }

  // Whatever was in the register, eight clocks put the byte there.
  lemma ByteArrives(reg: Byte, x: Byte, lsbFirst: bool)
    ensures Clocked(reg, Bits(x, lsbFirst), lsbFirst) == x
  {
    var r := Clocked(reg, Bits(x, lsbFirst), lsbFirst);
    assert Bits(x, lsbFirst)[..8] == Bits(x, lsbFirst);
    forall p | 0 <= p < 8
      ensures r[p] == x[p]
    {
      FirstArrive(reg, x, lsbFirst, 8, if lsbFirst then p else 7 - p);
    }
  }

  lemma OneMoreReceived(levels: seq<bool>, last: seq<bool>, lsbFirst: bool)
    requires |levels| % 8 == 0 && |last| == 8
    ensures Received(levels + last, lsbFirst) == Received(levels, lsbFirst) + [Clocked(NO_BITS, last, lsbFirst)]
  {
    var all := levels + last;
    assert |all| >= 8 && |all| % 8 == 0 && |all| - 8 == |levels|;
    assert all[..|all| - 8] == levels;
    assert all[|all| - 8..] == last;
  }

  // The slave of a stream receives its bytes.
  lemma {:induction false} StreamArrives(xs: seq<Byte>, lsbFirst: bool)
    ensures Received(Stream(xs, lsbFirst), lsbFirst) == xs
  {
    if xs != [] {
      var n := |xs| - 1;
      var before, last := Stream(xs[..n], lsbFirst), Bits(xs[n], lsbFirst);
      StreamArrives(xs[..n], lsbFirst);
      ByteArrives(NO_BITS, xs[n], lsbFirst);
      OneMoreReceived(before, last, lsbFirst);
      assert xs == xs[..n] + [xs[n]];
    }
  }

  // ---------------------------------------------------------------------------
  // The master's reply
  // ---------------------------------------------------------------------------

  // Levels read while a byte goes out, each set at the place of the bit that went out.
  function Gather(levels: seq<bool>, lsbFirst: bool): Byte
    requires |levels| <= 8
  {
    if levels == [] then NO_BITS
    else
      var n := |levels| - 1;
      var before := Gather(levels[..n], lsbFirst);
      if levels[n] then before[Place(lsbFirst, n) := true] else before
  }

  lemma GatherMore(levels: seq<bool>, level: bool, lsbFirst: bool)
    requires |levels| < 8
    ensures Gather(levels + [level], lsbFirst)
         == if level then Gather(levels, lsbFirst)[Place(lsbFirst, |levels|) := true] else Gather(levels, lsbFirst)
  {
    assert (levels + [level])[..|levels|] == levels;
  }

  lemma {:induction false} GatheredAt(levels: seq<bool>, lsbFirst: bool, k: nat)
    requires |levels| <= 8 && k < 8
    ensures Gather(levels, lsbFirst)[Place(lsbFirst, k)] == (k < |levels| && levels[k])
  {
    if levels != [] { GatheredAt(levels[..|levels| - 1], lsbFirst, k); }
  }

  lemma GatherOfBits(x: Byte, lsbFirst: bool)
    ensures Gather(Bits(x, lsbFirst), lsbFirst) == x
  {
    forall p | 0 <= p < 8
      ensures Gather(Bits(x, lsbFirst), lsbFirst)[p] == x[p]
    {
      GatheredAt(Bits(x, lsbFirst), lsbFirst, Place(lsbFirst, p));
    }
  }

  // ---------------------------------------------------------------------------
  // The transfer
  // ---------------------------------------------------------------------------

  // How the pins are used. The peer drives peer[n] when the master reads for the n-th time, and low after that;
  // in a loopback it is the data line itself.
  datatype Port = Port(mode: Mode, lsbFirst: bool, mosi: bool, miso: bool, loopback: bool, peer: seq<bool>)

  // The lines; `last` is the level last written. History: the data line at every clock edge.
  datatype Wire = Wire(data: bool, clock: bool, last: bool, samples: nat, rises: seq<bool>, falls: seq<bool>)

  // The modes that write the data line only when its level changes.
  predicate Skips(p: Port) { p.mosi && (p.mode == Mode0 || p.mode == Mode2) }

  // The edge on which a slave of this mode takes the data line.
  function Sampled(p: Port, w: Wire): seq<bool> { if p.mode == Mode0 || p.mode == Mode3 then w.rises else w.falls }

  // In mode 0 a transfer has to find the clock low; it leaves it so.
  predicate Idle(p: Port, w: Wire) { p.mode == Mode0 ==> !w.clock }

  // ---------------------------------------------------------------------------
  // The line carries the current bit at every edge that counts
  // ---------------------------------------------------------------------------

  // The levels on the line while a byte goes out; without MOSI nobody changes it.
  function OnWire(send: Byte, lsbFirst: bool, mosi: bool, data: bool): (r: seq<bool>)
    ensures |r| == 8
  {
    if mosi then Bits(send, lsbFirst) else seq(8, k => data)
  }

  predicate Drives(peer: seq<bool>, n: nat) { n < |peer| && peer[n] }

  function PeerLevels(peer: seq<bool>, from: nat): (r: seq<bool>)
    ensures |r| == 8 && forall k :: 0 <= k < 8 ==> r[k] == Drives(peer, from + k)
  {
    seq(8, k requires 0 <= k < 8 => Drives(peer, from + k))
  }

  // What the master reads meanwhile.
  function Heard(p: Port, send: Byte, line: bool, from: nat): (r: seq<bool>)
    ensures |r| == 8
  {
    if p.loopback then OnWire(send, p.lsbFirst, p.mosi, line) else PeerLevels(p.peer, from)
  }

  // The level last written is the level of the line.
  predicate Tracks(p: Port, w: Wire) { Skips(p) ==> w.last == w.data }

  // A bit may go out while "last written" is right, or about to be.
  predicate MayStart(p: Port, w: Wire, bit: bool) { Idle(p, w) && (Tracks(p, w) || (Skips(p) && w.last != bit)) }

  // What one bit does: the line carries it at the edge that counts, and one level is read.
  predicate BitDone(p: Port, w: Wire, bit: bool, v: Wire, level: bool) {
    && Idle(p, v) && Tracks(p, v)
    && v.data == (if p.mosi then bit else w.data)
    && Sampled(p, v) == Sampled(p, w) + [v.data]
    && v.samples == (if p.miso then w.samples + 1 else w.samples)
    && (p.miso ==> level == if p.loopback then v.data else Drives(p.peer, w.samples))
  }

  // What the first k bits of a byte do.
  predicate BitsDone(p: Port, w: Wire, send: Byte, k: nat, v: Wire, levels: seq<bool>)
    requires k <= 8
  {
    var line := OnWire(send, p.lsbFirst, p.mosi, w.data);
    && Idle(p, v) && (if k == 0 then v == w else Tracks(p, v) && v.data == line[k - 1])
    && Sampled(p, v) == Sampled(p, w) + line[..k]
    && v.samples == (if p.miso then w.samples + k else w.samples)
    && (p.miso ==> levels == Heard(p, send, w.data, w.samples)[..k])
  }

  lemma OneMoreBit(p: Port, w: Wire, send: Byte, k: nat, v: Wire, levels: seq<bool>, v': Wire, level: bool)
    requires k < 8 && BitsDone(p, w, send, k, v, levels) && BitDone(p, v, send[Place(p.lsbFirst, k)], v', level)
    ensures BitsDone(p, w, send, k + 1, v', levels + [level])
  {
    var line, heard := OnWire(send, p.lsbFirst, p.mosi, w.data), Heard(p, send, w.data, w.samples);
    assert line[..k + 1] == line[..k] + [line[k]];
    assert heard[..k + 1] == heard[..k] + [heard[k]];
    assert v'.data == line[k];
    assert p.miso ==> level == heard[k];
  }

  predicate ByteDone(p: Port, w: Wire, send: Byte, v: Wire, reply: Byte) {
    && Idle(p, v) && Tracks(p, v) && (!p.mosi ==> v.data == w.data)
    && (p.mosi ==> Sampled(p, v) == Sampled(p, w) + Bits(send, p.lsbFirst))
    && v.samples == (if p.miso then w.samples + 8 else w.samples)
    && (p.miso ==> reply == Gather(Heard(p, send, w.data, w.samples), p.lsbFirst))
  }

  lemma AllBits(p: Port, w: Wire, send: Byte, v: Wire, levels: seq<bool>)
    requires BitsDone(p, w, send, 8, v, levels)
    ensures p.miso ==> |levels| == 8
    ensures ByteDone(p, w, send, v, if p.miso then Gather(levels, p.lsbFirst) else NO_BITS)
  {
    var line, heard := OnWire(send, p.lsbFirst, p.mosi, w.data), Heard(p, send, w.data, w.samples);
    assert line[..8] == line && heard[..8] == heard;
  }

  function AnswerTo(p: Port, w: Wire, send: Byte, j: nat): Byte {
    if p.miso then Gather(Heard(p, send, w.data, w.samples + 8 * j), p.lsbFirst) else send
  }

  // The j-th byte that comes back. What is heard does not depend on the line before, when the master drives it.
  predicate Answers(p: Port, w: Wire, sent: seq<Byte>, replies: seq<Byte>, j: nat)
    requires j < |replies| <= |sent|
  {
    replies[j] == AnswerTo(p, w, sent[j], j)
  }

  // What the first n bytes of a buffer do, and what replaces them.
  ghost predicate BytesDone(p: Port, w: Wire, sent: seq<Byte>, n: nat, v: Wire, replies: seq<Byte>)
    requires n <= |sent|
  {
    && |replies| == n
    && Idle(p, v) && (if n == 0 then v == w else Tracks(p, v)) && (!p.mosi ==> v.data == w.data)
    && (p.mosi ==> Sampled(p, v) == Sampled(p, w) + Stream(sent[..n], p.lsbFirst))
    && v.samples == (if p.miso then w.samples + 8 * n else w.samples)
    && forall j: nat :: j < n ==> Answers(p, w, sent, replies, j)
  }

  lemma HeardOnly(p: Port, send: Byte, a: bool, b: bool, from: nat)
    requires p.mosi || a == b
    ensures Heard(p, send, a, from) == Heard(p, send, b, from)
  {
  }

  lemma OneMoreAnswer(p: Port, w: Wire, sent: seq<Byte>, replies: seq<Byte>, reply: Byte, j: nat)
    requires j <= |replies| < |sent|
    requires j < |replies| ==> Answers(p, w, sent, replies, j)
    requires reply == AnswerTo(p, w, sent[|replies|], |replies|)
    ensures Answers(p, w, sent, replies + [reply], j)
  {
  }

  lemma StreamMore(xs: seq<Byte>, lsbFirst: bool, n: nat)
    requires n < |xs|
    ensures Stream(xs[..n + 1], lsbFirst) == Stream(xs[..n], lsbFirst) + Bits(xs[n], lsbFirst)
  {
    assert xs[..n + 1][..n] == xs[..n];
  }

  lemma NextAnswer(p: Port, w: Wire, send: Byte, n: nat, v: Wire, v': Wire, reply: Byte)
    requires (!p.mosi ==> v.data == w.data) && (p.miso ==> v.samples == w.samples + 8 * n)
    requires ByteDone(p, v, send, v', reply)
    ensures (if p.miso then reply else send) == AnswerTo(p, w, send, n)
  {
    HeardOnly(p, send, v.data, w.data, v.samples);
  }

  lemma OneMoreByte(p: Port, w: Wire, sent: seq<Byte>, n: nat, v: Wire, replies: seq<Byte>, v': Wire, reply: Byte)
    requires n < |sent| && BytesDone(p, w, sent, n, v, replies) && ByteDone(p, v, sent[n], v', reply)
    ensures BytesDone(p, w, sent, n + 1, v', replies + [if p.miso then reply else sent[n]])
  {
    var answer := if p.miso then reply else sent[n];
    var more := replies + [answer];
    StreamMore(sent, p.lsbFirst, n);
    NextAnswer(p, w, sent[n], n, v, v', reply);
    forall j: nat | j < n + 1
      ensures Answers(p, w, sent, more, j)
    {
      OneMoreAnswer(p, w, sent, replies, answer, j);
    }
  }

  // "Last written" starts as the opposite of the first bit, so that this one is written.
  function Begin(p: Port, w: Wire, sent: seq<Byte>): Wire {
    w.(last := sent != [] && !sent[0][Place(p.lsbFirst, 0)])
  }

  // What a transfer does.
  ghost predicate Transferred(p: Port, w: Wire, sent: seq<Byte>, v: Wire, replies: seq<Byte>) {
    BytesDone(p, Begin(p, w, sent), sent, |sent|, v, replies)
  }

  // A slave that took the data line at every edge of a transfer has these bytes.
  predicate Arrived(p: Port, w: Wire, v: Wire, xs: seq<Byte>) {
    |Sampled(p, w)| <= |Sampled(p, v)| && Received(Sampled(p, v)[|Sampled(p, w)|..], p.lsbFirst) == xs
  }

  // For any buffer, bit order and mode: the data line holds the current bit at every edge that counts, so the
  // slave receives exactly the bytes.
  lemma SlaveReceives(p: Port, w: Wire, sent: seq<Byte>, v: Wire, replies: seq<Byte>)
    requires p.mosi && Transferred(p, w, sent, v, replies)
    ensures Sampled(p, v) == Sampled(p, w) + Stream(sent, p.lsbFirst)
    ensures Arrived(p, w, v, sent)
  {
    assert sent[..|sent|] == sent;
    assert Sampled(p, v)[|Sampled(p, w)|..] == Stream(sent, p.lsbFirst);
    StreamArrives(sent, p.lsbFirst);
  }

  // A loopback leaves the buffer unchanged, and so does having no MISO.
  lemma LoopbackReturns(p: Port, w: Wire, sent: seq<Byte>, v: Wire, replies: seq<Byte>)
    requires Transferred(p, w, sent, v, replies) && ((p.loopback && p.mosi) || !p.miso)
    ensures replies == sent
  {
    forall j: nat | j < |sent|
      ensures replies[j] == sent[j]
    {
      assert Answers(p, Begin(p, w, sent), sent, replies, j);
      GatherOfBits(sent[j], p.lsbFirst);
    }
  }

  lemma {:induction false} StreamAt(xs: seq<Byte>, lsbFirst: bool, j: nat, at: nat)
    requires j < |xs| && at == 8 * j
    ensures Stream(xs, lsbFirst)[at..at + 8] == Bits(xs[j], lsbFirst)
    decreases |xs|
  {
    var n := |xs| - 1;
    var before := Stream(xs[..n], lsbFirst);
    if j < n {
      StreamAt(xs[..n], lsbFirst, j, at);
      assert Stream(xs, lsbFirst)[at..at + 8] == before[at..at + 8];
    }
  }

  // Full duplex: a peer that drives the bits of a message is heard as that message.
  lemma PeerIsHeard(message: seq<Byte>, lsbFirst: bool, peer: seq<bool>, from: nat, j: nat)
    requires from <= |peer| && Stream(message, lsbFirst) <= peer[from..]
    requires j < |message|
    ensures Gather(PeerLevels(peer, from + 8 * j), lsbFirst) == message[j]
  {
    StreamAt(message, lsbFirst, j, 8 * j);
    var levels := PeerLevels(peer, from + 8 * j);
    forall k | 0 <= k < 8
      ensures levels[k] == Bits(message[j], lsbFirst)[k]
    {
      var n := 8 * j + k;
      assert Stream(message, lsbFirst)[8 * j..8 * j + 8][k] == Stream(message, lsbFirst)[n];
      assert peer[from..][n] == Stream(message, lsbFirst)[n];
    }
    assert levels == Bits(message[j], lsbFirst);
    GatherOfBits(message[j], lsbFirst);
  }

  lemma TransferredWhole(p: Port, w: Wire, sent: seq<Byte>, v: Wire, replies: seq<Byte>)
    requires Transferred(p, w, sent, v, replies)
    ensures p.mosi ==> Arrived(p, w, v, sent)
    ensures (p.loopback && p.mosi) || !p.miso ==> replies == sent
  {
    if p.mosi { SlaveReceives(p, w, sent, v, replies); }
    if (p.loopback && p.mosi) || !p.miso { LoopbackReturns(p, w, sent, v, replies); }
  }

  lemma PeerAnswers(p: Port, w: Wire, sent: seq<Byte>, replies: seq<Byte>, message: seq<Byte>, j: nat)
    requires p.miso && !p.loopback && j < |replies| <= |sent| && |message| == |sent| && Answers(p, w, sent, replies, j)
    requires w.samples <= |p.peer| && Stream(message, p.lsbFirst) <= p.peer[w.samples..]
    ensures replies[j] == message[j]
  {
    PeerIsHeard(message, p.lsbFirst, p.peer, w.samples, j);
  }

  // Full duplex: with a peer that drives the bits of a message, the buffer ends up as that message.
  lemma PeerIsHeardWhole(p: Port, w: Wire, sent: seq<Byte>, v: Wire, replies: seq<Byte>, message: seq<Byte>)
    requires Transferred(p, w, sent, v, replies) && p.miso && !p.loopback && |message| == |sent|
    requires w.samples <= |p.peer| && Stream(message, p.lsbFirst) <= p.peer[w.samples..]
    ensures replies == message
  {
    forall j: nat | j < |sent|
      ensures replies[j] == message[j]
    {
      assert Answers(p, Begin(p, w, sent), sent, replies, j);
      PeerAnswers(p, Begin(p, w, sent), sent, replies, message, j);
    }
  }

  // ---------------------------------------------------------------------------
  // The code
  // ---------------------------------------------------------------------------

  class SoftSpi {
    const port: Port
    var data: bool
    var clock: bool
    var lastMosi: bool
    var samples: nat
    ghost var rises: seq<bool>
    ghost var falls: seq<bool>

    ghost function View(): Wire
      reads this
    {
      Wire(data, clock, lastMosi, samples, rises, falls)
    }

    constructor (port: Port)
      ensures this.port == port && Idle(port, View()) && Sampled(port, View()) == []
    {
      this.port := port;
      data, clock, lastMosi, samples := true, port.mode == Mode2 || port.mode == Mode3, false, 0;
      rises, falls := [], [];
    }

    method SetClock(level: bool)
      modifies this`clock, this`rises, this`falls
      ensures clock == level
      ensures rises == if level && !old(clock) then old(rises) + [data] else old(rises)
      ensures falls == if !level && old(clock) then old(falls) + [data] else old(falls)
    {
      if level && !clock { rises := rises + [data]; }
      if !level && clock { falls := falls + [data]; }
      clock := level;
    }

    method ReadMiso() returns (level: bool)
      modifies this`samples
      ensures samples == if port.miso then old(samples) + 1 else old(samples)
      ensures level == (port.miso && if port.loopback then data else Drives(port.peer, old(samples)))
    {
      level := false;
      if port.miso {
        level := if port.loopback then data else Drives(port.peer, samples);
        samples := samples + 1;
      }
    }

    method TransferBit(bit: bool) returns (level: bool)
      requires MayStart(port, View(), bit)
      modifies this
      ensures BitDone(port, old(View()), bit, View(), level)
    {
      if port.mode == Mode0 || port.mode == Mode2 {
        if port.mosi && lastMosi != bit {
          data := bit;
          lastMosi := bit;
        }
        SetClock(true);
        level := ReadMiso();
        SetClock(false);
      } else if port.mode == Mode3 {
        if port.mosi { data := bit; }
        SetClock(false);
        SetClock(true);
        level := ReadMiso();
      } else {
        SetClock(true);
        if port.mosi { data := bit; }
        SetClock(false);
        level := ReadMiso();
      }
    }

    method TransferByte(send: Byte) returns (reply: Byte)
      requires MayStart(port, View(), send[Place(port.lsbFirst, 0)])
      modifies this
      ensures ByteDone(port, old(View()), send, View(), reply)
    {
      reply := NO_BITS;
      ghost var w := View();
      ghost var k: nat, levels: seq<bool> := 0, [];
      var b := if port.lsbFirst then 0 else 7;
      while 0 <= b < 8
        invariant 0 <= k <= 8 && b == if port.lsbFirst then k else 7 - k
        invariant BitsDone(port, w, send, k, View(), levels)
        invariant |levels| == k && (port.miso ==> reply == Gather(levels, port.lsbFirst))
        decreases 8 - k
      {
        ghost var v := View();
        var level := TransferBit(send[b]);
        OneMoreBit(port, w, send, k, v, levels, View(), level);
        GatherMore(levels, level, port.lsbFirst);
        levels := levels + [level];
        if port.miso && level { reply := reply[b := true]; }
        b := if port.lsbFirst then b + 1 else b - 1;
        k := k + 1;
      }
      AllBits(port, w, send, View(), levels);
    }

    method Transfer(buffer: array<Byte>)
      requires Idle(port, View())
      modifies this, buffer
      ensures Idle(port, View())
      ensures Transferred(port, old(View()), old(buffer[..]), View(), buffer[..])
      ensures port.mosi ==> Arrived(port, old(View()), View(), old(buffer[..]))
      ensures (port.loopback && port.mosi) || !port.miso ==> buffer[..] == old(buffer[..])
    {
      ghost var sent := buffer[..];
      lastMosi := buffer.Length > 0 && !buffer[0][if port.lsbFirst then 0 else 7];
      ghost var w := View();
      var i := 0;
      while i < buffer.Length
        invariant 0 <= i <= buffer.Length && BytesDone(port, w, sent, i, View(), buffer[..i])
        invariant buffer[i..] == sent[i..]
      {
        assert buffer[i..][0] == sent[i..][0];
        assert buffer[i] == sent[i];
        ghost var v := View();
        var reply := TransferByte(buffer[i]);
        OneMoreByte(port, w, sent, i, v, buffer[..i], View(), reply);
        if port.miso { buffer[i] := reply; }
        assert buffer[..i + 1] == buffer[..i] + [buffer[i]];
        assert buffer[i + 1..] == sent[i..][1..];
        i := i + 1;
      }
      assert buffer[..i] == buffer[..];
      TransferredWhole(port, old(View()), sent, View(), buffer[..]);
    }
  }
}
