/** The control connection: type/length framing, packet reads and audio writes (gumble/conn.go). */
module Conn {
  import opened Bytes
  import Varint

  datatype Packet = Packet(ptype: uint16, payload: seq<byte>)

  // ---- Framing ----

  function Header(ptype: uint16, length: nat): (s: seq<byte>) {
    BigEndian(ptype, W16) + BigEndian(length % 0x1_0000_0000, W32)
  }

  /** The bytes one packet occupies on the connection. */
  function Frame(p: Packet): (s: seq<byte>) {
    Header(p.ptype, |p.payload|) + p.payload
  }

  function Frames(ps: seq<Packet>): (s: seq<byte>) {
    if ps == [] then [] else Frame(ps[0]) + Frames(ps[1..])
  }

  lemma {:induction false} FramesAppend(ps: seq<Packet>, p: Packet)
    ensures Frames(ps + [p]) == Frames(ps) + Frame(p)
  {
    if ps == [] {
      assert ps + [p] == [p];
      assert Frames([p]) == Frame(p) + Frames([]);
    } else {
      assert (ps + [p])[1..] == ps[1..] + [p];
      FramesAppend(ps[1..], p);
    }
  }

  datatype Reading = Received(packet: Packet, rest: seq<byte>) | Failed

  /** What one ReadPacket makes of the bytes that arrive on the connection before it closes. */
  function ReadFrame(input: seq<byte>, max: int): (r: Reading)
    ensures r.Received? ==> |r.rest| < |input|
  {
    if |input| < 6 then Failed
    else
      Pow256Values();
      var length := FromBigEndian(input[2..6]);
      if length > max || |input| < 6 + length then Failed
      else Received(Packet(FromBigEndian(input[..2]), input[6..6 + length]), input[6 + length..])
  }

  /** What repeated reads return until the first failure. */
  function ReadAll(input: seq<byte>, max: int): (ps: seq<Packet>)
    decreases |input|
  {
    var r := ReadFrame(input, max);
    if r.Failed? then [] else [r.packet] + ReadAll(r.rest, max)
  }

  /** One more read, after those that gave `packets`. */
  lemma ReadAllStep(packets: seq<Packet>, input: seq<byte>, max: int)
    ensures var r := ReadFrame(input, max);
      packets + ReadAll(input, max) == if r.Failed? then packets else packets + [r.packet] + ReadAll(r.rest, max)
  {
  }

  predicate Fits(p: Packet, max: int) {
    |p.payload| <= max && |p.payload| < 0x1_0000_0000
  }

  lemma Parts(a: seq<byte>, b: seq<byte>, c: seq<byte>, d: seq<byte>)
    requires |a| == 2 && |b| == 4
    ensures var s := a + b + c + d;
      |a + b + c| == 6 + |c| && s[..2] == a && s[2..6] == b && s[6..] == c + d
  {
  }

  lemma HeaderFields(p: Packet, rest: seq<byte>)
    ensures var input := Frame(p) + rest;
      && |Frame(p)| == 6 + |p.payload|
      && FromBigEndian(input[..2]) == p.ptype
      && FromBigEndian(input[2..6]) == |p.payload| % 0x1_0000_0000
      && input[6..] == p.payload + rest
  {
    Parts(BigEndian(p.ptype, W16), BigEndian(|p.payload| % 0x1_0000_0000, W32), p.payload, rest);
    Pow256Values();
    BigEndianRoundTrip(p.ptype, W16);
    BigEndianRoundTrip(|p.payload| % 0x1_0000_0000, W32);
  }

  /** A frame reads back as itself exactly when it is within the limit and its length fits 32 bits. */
  lemma ReadBack(p: Packet, rest: seq<byte>, max: int)
    ensures ReadFrame(Frame(p) + rest, max) == Received(p, rest) <==> Fits(p, max)
  {
    HeaderFields(p, rest);
    var input := Frame(p) + rest;
    if Fits(p, max) {
      assert input[6..6 + |p.payload|] == input[6..][..|p.payload|] == p.payload;
      assert input[6 + |p.payload|..] == input[6..][|p.payload|..] == rest;
    }
  }

  /** Whatever bytes a packet is read from, they are its frame and the rest. */
  lemma ReadIsFrame(input: seq<byte>, max: int)
    requires ReadFrame(input, max).Received?
    ensures var r := ReadFrame(input, max); Frame(r.packet) + r.rest == input && Fits(r.packet, max)
  {
    Pow256Values();
    var length := FromBigEndian(input[2..6]);
    FromBigEndianRoundTrip(input[..2]);
    FromBigEndianRoundTrip(input[2..6]);
    assert input == input[..2] + input[2..6] + input[6..6 + length] + input[6 + length..];
  }

  lemma HalfLayout(x: uint16)
    ensures BigEndian(x, W16) == [x / 0x100, x % 0x100]
  {
    assert BigEndian(x, 2) == BigEndian(x / 256, 1) + [x % 256];
    assert BigEndian(x / 256, 1) == BigEndian(x / 256 / 256, 0) + [x / 256 % 256];
  }

  lemma LengthLayout(x: uint32)
    ensures BigEndian(x, W32) == [x / 0x100_0000, x / 0x1_0000 % 0x100, x / 0x100 % 0x100, x % 0x100]
  {
    var a := x / 256;
    var b := a / 256;
    var c := b / 256;
    assert BigEndian(x, 4) == BigEndian(a, 3) + [x % 256];
    assert BigEndian(a, 3) == BigEndian(b, 2) + [a % 256];
    assert BigEndian(b, 2) == BigEndian(c, 1) + [b % 256];
    assert BigEndian(c, 1) == BigEndian(c / 256, 0) + [c % 256];
  }

  /** The six bytes of a header, each by its place value; a length above 32 bits is cut. */
  lemma HeaderLayout(ptype: uint16, length: nat)
    ensures var l := length % 0x1_0000_0000;
      Header(ptype, length) == [ptype / 0x100, ptype % 0x100] + [l / 0x100_0000, l / 0x1_0000 % 0x100, l / 0x100 % 0x100, l % 0x100]
  {
    HalfLayout(ptype);
    LengthLayout(length % 0x1_0000_0000);
  }

  /** A connection that ends inside a frame yields nothing for that frame. */
  lemma PartialFrameFails(p: Packet, k: nat, max: int)
    requires Fits(p, max) && k < |Frame(p)|
    ensures ReadFrame(Frame(p)[..k], max) == Failed
  {
    HeaderFields(p, []);
    assert Frame(p) + [] == Frame(p);
    if k >= 6 {
      assert Frame(p)[..k][2..6] == Frame(p)[2..6];
    }
  }

  /** Whole frames followed by an unreadable tail read back as exactly the packets written. */
  lemma {:induction false} ReadAllFrames(ps: seq<Packet>, tail: seq<byte>, max: int)
    requires forall p :: p in ps ==> Fits(p, max)
    requires ReadFrame(tail, max).Failed?
    ensures ReadAll(Frames(ps) + tail, max) == ps
  {
    if ps == [] {
      assert Frames(ps) + tail == tail;
    } else {
      var rest := Frames(ps[1..]) + tail;
      assert Frames(ps) + tail == Frame(ps[0]) + rest;
      ReadBack(ps[0], rest, max);
      ReadAllFrames(ps[1..], tail, max);
    }
  }

  // ---- Audio packets ----

  /** Bitwise or of non-negative numbers. */
  function Or(a: nat, b: nat): (r: nat) {
    if a == 0 then b
    else if b == 0 then a
    else 2 * Or(a / 2, b / 2) + (if a % 2 == 1 || b % 2 == 1 then 1 else 0)
  }

  lemma {:induction false} OrBelow8(a: nat, b: nat)
    requires a < 8 && b < 8
    ensures Or(a, b) < 8
  {
    assert Or(a / 2 / 2 / 2, b / 2 / 2 / 2) == 0;
    assert Or(a / 2 / 2, b / 2 / 2) < 2;
    assert Or(a / 2, b / 2) < 4;
  }

  /** The byte `(format << 5) | target`. */
  function TypeAndTarget(format: byte, target: byte): (r: byte) {
    OrBelow8(format % 8, target / 32);
    32 * Or(format % 8, target / 32) + target % 32
  }

  /** Type and target lie side by side in the byte exactly when the target adds no bit to the type. */
  lemma TagByte(format: byte, target: byte)
    requires format < 8
    ensures TypeAndTarget(format, target) % 32 == target % 32
    ensures TypeAndTarget(format, target) / 32 == format <==> Or(format, target / 32) == format
    ensures target < 32 ==> TypeAndTarget(format, target) == 32 * format + target
  {
    assert format % 8 == format;
    TagParts(format, target, Or(format, target / 32), TypeAndTarget(format, target));
  }

  lemma TagParts(format: byte, target: byte, high: nat, r: byte)
    requires r == 32 * high + target % 32 && (target / 32 == 0 ==> high == format)
    ensures r % 32 == target % 32 && r / 32 == high
    ensures target < 32 ==> r == 32 * format + target
  {
  }

  predicate Terminated(length: int) {
    length / 0x2000 % 2 == 1
  }

  /** `length | 0x2000` when `final`, else `length`. */
  function WithTerminator(length: nat, final: bool): (r: nat)
    ensures length <= MAX_INT64 ==> r <= MAX_INT64
  {
    if final && !Terminated(length) then length + 0x2000 else length
  }

  /** `length &^ 0x2000` in two's complement; Euclidean division makes it right below zero too. */
  function WithoutTerminator(length: int): (r: int) {
    if Terminated(length) then length - 0x2000 else length
  }

  function AudioHeader(format: byte, target: byte, sequence: int64, final: bool, length: nat): (s: seq<byte>)
    requires sequence != MIN_INT64 && length <= MAX_INT64
    ensures 3 <= |s| <= 20
  {
    [TypeAndTarget(format, target)] + Varint.Encoding(sequence) + Varint.Encoding(WithTerminator(length, final))
  }

  /** A speaker's position: three float32 values, kept as their 32-bit words. */
  datatype Position = Position(x: uint32, y: uint32, z: uint32)

  function PositionBytes(pos: Option<Position>): (s: seq<byte>)
    ensures |s| == if pos.Some? then 12 else 0
  {
    match pos
    case None => []
    case Some(p) => LittleEndian(p.x, W32) + LittleEndian(p.y, W32) + LittleEndian(p.z, W32)
  }

  /** The twelve bytes of a position, each word least significant byte first. */
  lemma PositionLayout(p: Position)
    ensures PositionBytes(Some(p)) == WordBytes(p.x) + WordBytes(p.y) + WordBytes(p.z)
  {
    WordLayout(p.x);
    WordLayout(p.y);
    WordLayout(p.z);
  }

  function WordBytes(x: uint32): (s: seq<byte>) {
    [x % 0x100, x / 0x100 % 0x100, x / 0x1_0000 % 0x100, x / 0x100_0000]
  }

  lemma WordLayout(x: uint32)
    ensures LittleEndian(x, W32) == WordBytes(x)
  {
    var a := x / 256;
    var b := a / 256;
    var c := b / 256;
    assert LittleEndian(x, 4) == [x % 256] + LittleEndian(a, 3);
    assert LittleEndian(a, 3) == [a % 256] + LittleEndian(b, 2);
    assert LittleEndian(b, 2) == [b % 256] + LittleEndian(c, 1);
    assert LittleEndian(c, 1) == [c % 256] + LittleEndian(c / 256, 0);
  }

  /** The packet that WriteAudio puts on the connection. */
  function AudioPacket(format: byte, target: byte, sequence: int64, final: bool, data: seq<byte>, pos: Option<Position>): (p: Packet)
    requires sequence != MIN_INT64 && |data| <= MAX_INT64
  {
    Packet(1, AudioHeader(format, target, sequence, final, |data|) + data + PositionBytes(pos))
  }

  // ---- The connection object ----

  datatype ReadOutcome = Got(ptype: uint16, length: nat) | ReadError

  datatype WriteOutcome = Sent | WriteError | Panic

  class Conn {
    var locked: bool            // the embedded sync.Mutex
    var sent: seq<byte>         // bytes handed to the network
    var incoming: seq<byte>     // bytes the network delivers before it closes
    var maximumPacketBytes: int
    var buffer: array<byte>

    constructor ()
      ensures !locked && sent == [] && incoming == [] && maximumPacketBytes == 1024 * 1024 * 10
      ensures fresh(buffer) && buffer.Length == 0
    {
      locked, sent, incoming, maximumPacketBytes := false, [], [], 1024 * 1024 * 10;
      buffer := new byte[0];
    }

    /** io.ReadFull into the first `n` bytes of `into`: all of them or, at end of input, an error. */
    method ReadFull(into: array<byte>, n: nat) returns (ok: bool)
      requires n <= into.Length
      modifies this`incoming, into
      ensures ok <==> n <= |old(incoming)|
      ensures ok ==> into[..n] == old(incoming)[..n] && incoming == old(incoming)[n..]
      ensures !ok ==> incoming == []
    {
      var i := 0;
      while i < n && i < |incoming|
        invariant 0 <= i <= n && i <= |incoming|
        invariant incoming == old(incoming)
        invariant into[..i] == incoming[..i]
      {
        into[i] := incoming[i];
        assert into[..i + 1] == into[..i] + [incoming[i]] == incoming[..i + 1];
        i := i + 1;
      }
      ok := i == n;
      incoming := incoming[i..];
    }

    /** The returned payload is the front of `buffer`, which the next call may overwrite. */
    method ReadPacket() returns (r: ReadOutcome)
      modifies this`incoming, this`buffer, buffer
      ensures buffer == old(buffer) || fresh(buffer)
      ensures var spec := ReadFrame(old(incoming), maximumPacketBytes);
        && (r.Got? <==> spec.Received?)
        && (r.Got? ==>
              && r.length <= buffer.Length
              && Packet(r.ptype, buffer[..r.length]) == spec.packet
              && incoming == spec.rest)
    {
      var header := new byte[6];
      var ok := ReadFull(header, 6);
      if !ok {
        return ReadError;
      }
      Pow256Values();
      assert header[..2] == old(incoming)[..2] && header[2..6] == old(incoming)[2..6];
      var pType := FromBigEndian(header[..2]);
      var pLength := FromBigEndian(header[2..6]);
      if pLength > maximumPacketBytes {
        return ReadError;
      }
      if pLength > buffer.Length {
        buffer := new byte[pLength];
      }
      ok := ReadFull(buffer, pLength);
      if !ok {
        return ReadError;
      }
      assert old(incoming)[6..][..pLength] == old(incoming)[6..6 + pLength];
      return Got(pType, pLength);
    }

    /** The reading half of Client.readRoutine: reads until the first error, handing each packet on. */
    method ReadLoop() returns (packets: seq<Packet>)
      modifies this`incoming, this`buffer, buffer
      ensures packets == ReadAll(old(incoming), maximumPacketBytes)
    {
      packets := [];
      var open := true;
      while open
        invariant buffer == old(buffer) || fresh(buffer)
        invariant open ==> packets + ReadAll(incoming, maximumPacketBytes) == ReadAll(old(incoming), maximumPacketBytes)
        invariant !open ==> packets == ReadAll(old(incoming), maximumPacketBytes)
        decreases open, |incoming|
      {
        ReadAllStep(packets, incoming, maximumPacketBytes);
        var r := ReadPacket();
        if r.ReadError? {
          open := false;
        } else {
          packets := packets + [Packet(r.ptype, buffer[..r.length])];
        }
      }
    }

    /** net.Conn.Write: hands over some prefix of `data`, all of it when it reports success. */
    method Write(data: seq<byte>) returns (ok: bool)
      modifies this`sent
      ensures old(sent) <= sent <= old(sent) + data
      ensures ok ==> sent == old(sent) + data
    {
      var n: nat :| n <= |data|;
      sent := sent + data[..n];
      var failed: bool := *;
      ok := n == |data| && !failed;
      assert n == |data| ==> data[..n] == data;
    }

    /** Type and length; the length is cut to 32 bits, as both callers convert it. */
    method WriteHeader(pType: uint16, pLength: nat) returns (ok: bool)
      modifies this`sent
      ensures old(sent) <= sent <= old(sent) + Header(pType, pLength)
      ensures ok ==> sent == old(sent) + Header(pType, pLength)
    {
      var header := new byte[6];
      var _ := Varint.Store(header, 0, BigEndian(pType, W16));
      assert header[..2] == BigEndian(pType, W16);
      var _ := Varint.Store(header, 2, BigEndian(pLength % 0x1_0000_0000, W32));
      assert header[..] == Header(pType, pLength);
      ok := Write(header[..]);
    }

    /** Some prefix of `wanted` has been sent since `before`, all of it if `ok`. */
    ghost predicate Progress(before: seq<byte>, wanted: seq<byte>, ok: bool)
      reads this
    {
      before <= sent <= before + wanted && (ok ==> sent == before + wanted)
    }

    /** Writes `data` after `head` went out completely. */
    method WriteNext(data: seq<byte>, ghost before: seq<byte>, ghost head: seq<byte>) returns (ok: bool)
      requires sent == before + head
      modifies this`sent
      ensures Progress(before, head + data, ok)
    {
      ok := Write(data);
      assert before + (head + data) == (before + head) + data;
    }

    /** WritePacket sends one whole frame, or after an error a prefix of it; the lock is free again. */
    method WritePacket(ptype: uint16, data: seq<byte>) returns (r: WriteOutcome)
      requires !locked
      modifies this`sent, this`locked
      ensures !locked && !r.Panic?
      ensures Progress(old(sent), Frame(Packet(ptype, data)), r.Sent?)
    {
      locked := true;
      var ok := WriteHeader(ptype, |data|);
      ghost var head := Header(ptype, |data|);
      if ok {
        ok := WriteNext(data, old(sent), head);
      } else {
        PrefixOfHead(old(sent), head, data);
      }
      locked := false;
      r := if ok then Sent else WriteError;
    }

    lemma PrefixOfHead(before: seq<byte>, head: seq<byte>, tail: seq<byte>)
      requires before <= sent <= before + head
      ensures Progress(before, head + tail, false)
    {
      assert before + (head + tail) == (before + head) + tail;
    }

    /** The positions WriteAudio can send: the pointers are all nil or all set. */
    static predicate WholePosition(x: Option<uint32>, y: Option<uint32>, z: Option<uint32>) {
      x.Some? ==> y.Some? && z.Some?
    }

    static function PositionOf(x: Option<uint32>, y: Option<uint32>, z: Option<uint32>): (pos: Option<Position>)
      requires WholePosition(x, y, z)
    {
      if x.None? then None else Some(Position(x.value, y.value, z.value))
    }

    /** What goes out before a nil Y or Z is read: the length counts three words, of which one or two follow. */
    static function CutFrame(header: seq<byte>, data: seq<byte>, x: seq<byte>, y: Option<seq<byte>>): (s: seq<byte>) {
      Header(1, |header| + |data| + 12) + header + data + (x + if y.Some? then y.value else [])
    }

    /**
     * WriteAudio sends one type-1 frame, or after an error a prefix of it. It panics on the one
     * sequence number without an encoding, and on X without Y and Z; then the frame is cut where
     * the missing word would be.
     */
    method WriteAudio(format: byte, target: byte, sequence: int64, final: bool, data: seq<byte>,
                      x: Option<uint32>, y: Option<uint32>, z: Option<uint32>) returns (r: WriteOutcome)
      requires !locked && |data| <= MAX_INT64
      modifies this`sent, this`locked
      ensures !locked
      ensures sequence == MIN_INT64 ==> r.Panic? && sent == old(sent)
      ensures sequence != MIN_INT64 && WholePosition(x, y, z) ==>
        && !r.Panic?
        && Progress(old(sent), Frame(AudioPacket(format, target, sequence, final, data, PositionOf(x, y, z))), r.Sent?)
      ensures sequence != MIN_INT64 && !WholePosition(x, y, z) ==>
        && !r.Sent?
        && Progress(old(sent), CutFrame(AudioHeader(format, target, sequence, final, |data|), data, WordBytes(x).value, WordBytes(y)), r.Panic?)
    {
      var header := BuildAudioHeader(format, target, sequence, final, |data|);
      if header.None? {
        return Panic;
      }
      ghost var pos := if WholePosition(x, y, z) then PositionOf(x, y, z) else None;
      assert pos.None? ==> header.value + data + PositionBytes(pos) == header.value + data;
      locked := true;
      r := WriteAudioFrame(header.value, data, WordBytes(x), WordBytes(y), WordBytes(z));
      locked := false;
    }

    /** Fills a fixed buffer with the type byte and the two varints; none when Encode runs off it. */
    method BuildAudioHeader(format: byte, target: byte, sequence: int64, final: bool, length: nat) returns (header: Option<seq<byte>>)
      requires length <= MAX_INT64
      ensures header.None? <==> sequence == MIN_INT64
      ensures header.Some? ==> header.value == AudioHeader(format, target, sequence, final, length)
    {
      var buff := new byte[1 + Varint.MAX_VARINT_LEN * 2];
      buff[0] := TypeAndTarget(format, target);
      var n := Varint.Encode(buff, 1, sequence);
      if n.Panic? {
        return None;
      }
      ghost var front := buff[..1 + n.n];
      assert front == [TypeAndTarget(format, target)] + Varint.Encoding(sequence);
      var l := WithTerminator(length, final);
      var m := Varint.Encode(buff, 1 + n.n, l);
      assert buff[..1 + n.n + m.n] == front + Varint.Encoding(l);
      return Some(buff[..1 + n.n + m.n]);
    }

    static function WordBytes(w: Option<uint32>): (s: Option<seq<byte>>)
      ensures s.Some? <==> w.Some?
      ensures s.Some? ==> |s.value| == 4 && s.value == LittleEndian(w.value, W32)
    {
      if w.None? then None else Some(LittleEndian(w.value, W32))
    }

    /** The writes WriteAudio makes under the lock; a nil pointer is read only after the earlier writes. */
    method WriteAudioFrame(header: seq<byte>, data: seq<byte>, x: Option<seq<byte>>, y: Option<seq<byte>>, z: Option<seq<byte>>) returns (r: WriteOutcome)
      requires (x.Some? ==> |x.value| == 4) && (y.Some? ==> |y.value| == 4) && (z.Some? ==> |z.value| == 4)
      modifies this`sent
      ensures x.None? ==> !r.Panic? && Progress(old(sent), Frame(Packet(1, header + data)), r.Sent?)
      ensures x.Some? && y.Some? && z.Some? ==>
        && !r.Panic?
        && Progress(old(sent), Frame(Packet(1, header + data + (x.value + y.value + z.value))), r.Sent?)
      ensures x.Some? && (y.None? || z.None?) ==> !r.Sent? && Progress(old(sent), CutFrame(header, data, x.value, y), r.Panic?)
    {
      ghost var before := sent;
      var length := |header| + |data| + if x.Some? then 12 else 0;
      ghost var start := Header(1, length);
      ghost var tail := if x.None? then [] else if y.None? then x.value + [] else if z.None? then x.value + y.value else x.value + y.value + z.value;
      var ok := WriteHeader(1, length);
      if ok {
        ok := WriteHeaderAndData(before, start, header, data);
      } else {
        PrefixOfHead(before, start, header + data);
        assert start + (header + data) == start + header + data;
      }
      ghost var head := start + header + data;
      assert head + tail == start + (header + data + tail) && head == start + (header + data);
      if !ok {
        PrefixOfHead(before, head, tail);
        return WriteError;
      }
      if x.None? {
        return Sent;
      }
      r := WritePosition(before, head, x.value, y, z);
    }

    method WriteHeaderAndData(ghost before: seq<byte>, ghost start: seq<byte>, header: seq<byte>, data: seq<byte>) returns (ok: bool)
      requires sent == before + start
      modifies this`sent
      ensures Progress(before, start + header + data, ok)
    {
      ok := WriteNext(header, before, start);
      if ok {
        ok := WriteNext(data, before, start + header);
      } else {
        PrefixOfHead(before, start + header, data);
      }
    }

    /** The three words of a positional packet. */
    method WritePosition(ghost before: seq<byte>, ghost head: seq<byte>, x: seq<byte>, y: Option<seq<byte>>, z: Option<seq<byte>>) returns (r: WriteOutcome)
      requires sent == before + head
      modifies this`sent
      ensures y.Some? && z.Some? ==> !r.Panic? && Progress(before, head + (x + y.value + z.value), r.Sent?)
      ensures y.None? || z.None? ==> !r.Sent? && Progress(before, head + (x + if y.Some? then y.value else []), r.Panic?)
    {
      ghost var ys, zs := if y.Some? then y.value else [], if z.Some? then z.value else [];
      assert head + x + ys + zs == head + (x + ys + zs) && head + x + (ys + zs) == head + (x + ys + zs);
      var ok := WriteNext(x, before, head);
      if !ok {
        PrefixOfHead(before, head + x, ys + zs);
        return WriteError;
      }
      if y.None? {
        return Panic;
      }
      ok := WriteNext(y.value, before, head + x);
      if !ok {
        PrefixOfHead(before, head + x + ys, zs);
        return WriteError;
      }
      if z.None? {
        return Panic;
      }
      ok := WriteNext(z.value, before, head + x + ys);
      r := if ok then Sent else WriteError;
    }
  }
}
