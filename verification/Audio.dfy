/** Outgoing audio streams and the parse of incoming audio (gumble/client.go, gumble/audio.go, gumble/handlers.go). */
module Audio {
  import opened Bytes
  import opened Conn
  import opened Varint

  const OPUS: byte := 4

  // ---- Incoming ----

  datatype Tunnel =
    | InvalidPacket
    | UnsupportedAudio
    | NoCodec
    | OutOfRange                // a slice with a negative bound: the call panics
    | Heard(sender: uint32, target: byte, data: seq<byte>, position: Option<Position>)

  /** A user's session in Client.Users, and whether that user already has a decoder. */
  type Users = map<uint32, bool>

  function ReadPosition(b: seq<byte>): (p: Position)
    requires |b| == 12
  {
    Pow256Values();
    Position(FromLittleEndian(b[..4]), FromLittleEndian(b[4..8]), FromLittleEndian(b[8..]))
  }

  /** handleUDPTunnel up to the call of the decoder, on the bytes `data`. */
  function Parse(buffer: seq<byte>, users: Users, haveCodec: bool): (r: Tunnel) {
    if |buffer| < 1 then InvalidPacket
    else if buffer[0] / 32 != OPUS then UnsupportedAudio
    else
      var session := Decode(buffer[1..]);
      if session.n == 0 || session.value % 0x1_0000_0000 !in users then InvalidPacket
      else if !users[session.value % 0x1_0000_0000] && !haveCodec then NoCodec
      else ParseBody(buffer[1 + session.n..], session.value % 0x1_0000_0000, buffer[0] % 32)
  }

  function ParseBody(buffer: seq<byte>, sender: uint32, target: byte): (r: Tunnel) {
    var sequence := Decode(buffer);
    if sequence.n == 0 then InvalidPacket
    else
      var length := Decode(buffer[sequence.n..]);
      if length.n == 0 then InvalidPacket
      else
        var rest := buffer[sequence.n..][length.n..];
        var audioLength := WithoutTerminator(length.value);
        if audioLength > |rest| then InvalidPacket
        else if audioLength < 0 then OutOfRange
        else
          var tail := rest[audioLength..];
          Heard(sender, target, rest[..audioLength], if |tail| == 12 then Some(ReadPosition(tail)) else None)
  }

  /** The body parse panics exactly when both numbers decode and the length is negative. */
  lemma BodyPanics(buffer: seq<byte>, sender: uint32, target: byte)
    ensures ParseBody(buffer, sender, target).OutOfRange? <==> NegativeLength(buffer)
  {
  }

  predicate NegativeLength(buffer: seq<byte>) {
    var sequence := Decode(buffer);
    && sequence.n > 0
    && Decode(buffer[sequence.n..]).n > 0
    && Decode(buffer[sequence.n..]).value < 0
  }

  /** The parse panics exactly on an Opus packet of a known, decodable sender whose length is negative. */
  lemma ParsePanics(buffer: seq<byte>, users: Users, haveCodec: bool)
    ensures Parse(buffer, users, haveCodec).OutOfRange? <==>
            && |buffer| >= 1 && buffer[0] / 32 == OPUS
            && var session := Decode(buffer[1..]);
            && session.n > 0 && session.value % 0x1_0000_0000 in users
            && (haveCodec || users[session.value % 0x1_0000_0000])
            && NegativeLength(buffer[1 + session.n..])
  {
    if |buffer| >= 1 {
      var session := Decode(buffer[1..]);
      BodyPanics(buffer[1 + session.n..], session.value % 0x1_0000_0000, buffer[0] % 32);
    }
  }

  /** Such a packet, of four bytes. */
  lemma ShortestPanic(users: Users)
    requires 0 in users
    ensures Parse([0x80, 0x00, 0x00, 0xFC], users, true) == OutOfRange
  {
    var b: seq<byte> := [0x80, 0x00, 0x00, 0xFC];
    assert b[1..] == [0x00, 0x00, 0xFC];
    assert b[2..] == [0x00, 0xFC];
    assert b[2..][1..] == [0xFC];
  }

  /** The other refusals: a type other than Opus, and a sender for whom there is no decoder and no codec. */
  lemma ParseRefuses(buffer: seq<byte>, users: Users, haveCodec: bool)
    ensures Parse(buffer, users, haveCodec) == UnsupportedAudio <==> |buffer| >= 1 && !(0x80 <= buffer[0] < 0xA0)
    ensures Parse(buffer, users, haveCodec) == NoCodec <==>
            && |buffer| >= 1 && 0x80 <= buffer[0] < 0xA0
            && var session := Decode(buffer[1..]);
            && session.n > 0 && session.value % 0x1_0000_0000 in users && !users[session.value % 0x1_0000_0000] && !haveCodec
  {
    if |buffer| >= 1 {
      OpusTag(buffer[0]);
    }
  }

  lemma {:induction false} PositionRoundTrip(p: Position)
    ensures ReadPosition(PositionBytes(Some(p))) == p
  {
    var b := PositionBytes(Some(p));
    assert b[..4] == LittleEndian(p.x, W32);
    assert b[4..8] == LittleEndian(p.y, W32);
    assert b[8..] == LittleEndian(p.z, W32);
    Pow256Values();
    LittleEndianRoundTrip(p.x, W32);
    LittleEndianRoundTrip(p.y, W32);
    LittleEndianRoundTrip(p.z, W32);
  }

  /** What the server forwards: the sender's session goes in after the first byte, as the bytes `e`. */
  function Relay(payload: seq<byte>, e: seq<byte>): (s: seq<byte>)
    requires payload != []
  {
    [payload[0]] + e + payload[1..]
  }

  /** Bytes that decode to the session, whether or not Encode writes it so. */
  predicate Spells(e: seq<byte>, session: int64) {
    |e| > 0 && Decode(e) == Decoded(session, |e|)
  }

  lemma EncodingSpells(session: int64)
    requires session != MIN_INT64
    ensures Spells(Encoding(session), session)
  {
    RoundTrip(session, []);
    assert Encoding(session) + [] == Encoding(session);
  }

  /** The type survives only when the target adds no bit above the low five but the type's own. */
  lemma TypeByte(target: byte)
    ensures TypeAndTarget(OPUS, target) % 32 == target % 32
    ensures TypeAndTarget(OPUS, target) / 32 == OPUS <==> target / 32 == 0 || target / 32 == 4
  {
    TagByte(OPUS, target);
    OrFour(target / 32);
  }

  lemma OrFour(h: nat)
    requires h < 8
    ensures Or(4, h) == if h < 4 then 4 + h else h
  {
    assert Or(1, 1) == 1;
    assert Or(2, 1) == 3 && Or(2, 2) == 2 && Or(2, 3) == 3;
    assert Or(4, 1) == 5 && Or(4, 2) == 6 && Or(4, 3) == 7;
    assert Or(4, 4) == 4 && Or(4, 5) == 5 && Or(4, 6) == 6 && Or(4, 7) == 7;
  }

  // ---- What a relayed packet is heard as ----

  lemma ParseRelayed(tag: byte, e: seq<byte>, session: int64, tail: seq<byte>, users: Users, haveCodec: bool)
    requires Spells(e, session)
    requires session % 0x1_0000_0000 in users && (haveCodec || users[session % 0x1_0000_0000])
    ensures Parse([tag] + e + tail, users, haveCodec)
         == if tag / 32 == OPUS then ParseBody(tail, session % 0x1_0000_0000, tag % 32) else UnsupportedAudio
  {
    var b := [tag] + e + tail;
    assert b[1..] == e + tail;
    assert b[1 + |e|..] == tail;
    assert e[..|e|] == e;
    DecodeIsLocal(e, tail);
  }

  lemma ParseBodyFields(e: seq<byte>, sequence: int64, l: seq<byte>, length: int64, end: seq<byte>, sender: uint32, target: byte)
    requires Decode(e + (l + end)) == Decoded(sequence, |e|) && |e| > 0
    requires Decode(l + end) == Decoded(length, |l|) && |l| > 0
    requires 0 <= WithoutTerminator(length) <= |end|
    ensures var cut := WithoutTerminator(length);
      ParseBody(e + (l + end), sender, target)
      == Heard(sender, target, end[..cut], if |end| - cut == 12 then Some(ReadPosition(end[cut..])) else None)
  {
    var b := e + (l + end);
    assert b[|e|..] == l + end;
    assert b[|e|..][|l|..] == end;
  }

  /** A packet by its parts: the type byte, three numbers in any spelling, the data and what follows it. */
  datatype Parts = Parts(tag: byte, e: seq<byte>, session: int64, q: seq<byte>, sequence: int64, l: seq<byte>, length: int64,
                         data: seq<byte>, tail: seq<byte>)

  function Whole(w: Parts): (b: seq<byte>) {
    [w.tag] + w.e + (w.q + (w.l + (w.data + w.tail)))
  }

  /** The parts of an Opus packet of a sender who can be heard; the length has the terminator bit 0x2000 taken out. */
  predicate Hearable(w: Parts, users: Users, haveCodec: bool) {
    && 0x80 <= w.tag < 0xA0 && Spells(w.e, w.session) && Spells(w.q, w.sequence) && Spells(w.l, w.length)
    && w.session % 0x1_0000_0000 in users && (haveCodec || users[w.session % 0x1_0000_0000])
    && |w.data| == if w.length / 0x2000 % 2 == 1 then w.length - 0x2000 else w.length
  }

  /** Twelve bytes after the data, and only twelve, are a position. */
  function HeardAs(w: Parts): (r: Tunnel)
    requires 0x80 <= w.tag < 0xA0
  {
    Heard(w.session % 0x1_0000_0000, w.tag - 0x80, w.data, if |w.tail| == 12 then Some(ReadPosition(w.tail)) else None)
  }

  /** Every packet with such parts is heard as they say. */
  lemma PartsAreHeard(w: Parts, users: Users, haveCodec: bool)
    requires Hearable(w, users, haveCodec)
    ensures Parse(Whole(w), users, haveCodec) == HeardAs(w)
  {
    OpusTag(w.tag);
    PartsParse(w, w.session % 0x1_0000_0000, users, haveCodec);
  }

  lemma PartsParse(w: Parts, sender: uint32, users: Users, haveCodec: bool)
    requires w.tag / 32 == OPUS && w.tag % 32 == w.tag - 0x80
    requires Spells(w.e, w.session) && Spells(w.q, w.sequence) && Spells(w.l, w.length) && |w.data| == WithoutTerminator(w.length)
    requires sender == w.session % 0x1_0000_0000 && sender in users && (haveCodec || users[sender])
    ensures Parse(Whole(w), users, haveCodec)
         == Heard(sender, w.tag - 0x80, w.data, if |w.tail| == 12 then Some(ReadPosition(w.tail)) else None)
  {
    BodyIsHeard(w, sender, w.tag - 0x80);
    WholeParses(w, w.q + (w.l + (w.data + w.tail)), sender, users, haveCodec);
  }

  lemma WholeParses(w: Parts, body: seq<byte>, sender: uint32, users: Users, haveCodec: bool)
    requires w.tag / 32 == OPUS && w.tag % 32 == w.tag - 0x80 && Spells(w.e, w.session)
    requires sender == w.session % 0x1_0000_0000 && sender in users && (haveCodec || users[sender])
    ensures Parse([w.tag] + w.e + body, users, haveCodec) == ParseBody(body, sender, w.tag - 0x80)
  {
    ParseRelayed(w.tag, w.e, w.session, body, users, haveCodec);
  }

  lemma BodyIsHeard(w: Parts, sender: uint32, target: byte)
    requires Spells(w.q, w.sequence) && Spells(w.l, w.length) && |w.data| == WithoutTerminator(w.length)
    ensures ParseBody(w.q + (w.l + (w.data + w.tail)), sender, target)
         == Heard(sender, target, w.data, if |w.tail| == 12 then Some(ReadPosition(w.tail)) else None)
  {
    var end := w.data + w.tail;
    Respell(w.q, w.sequence, w.l + end);
    Respell(w.l, w.length, end);
    ParseBodyFields(w.q, w.sequence, w.l, w.length, end, sender, target);
    assert end[..|w.data|] == w.data && end[|w.data|..] == w.tail;
  }

  lemma Respell(e: seq<byte>, v: int64, rest: seq<byte>)
    requires Spells(e, v)
    ensures Decode(e + rest) == Decoded(v, |e|)
  {
    assert e[..|e|] == e;
    DecodeIsLocal(e, rest);
  }

  lemma SpellsPrefix(b: seq<byte>)
    requires Decode(b).n > 0
    ensures Spells(b[..Decode(b).n], Decode(b).value)
  {
    DecodeIsLocal(b, []);
    assert b[..Decode(b).n] + [] == b[..Decode(b).n];
  }

  lemma Rejoined(b: seq<byte>, n: nat, m: nat, cut: nat)
    requires n <= |b| && m <= |b[n..]| && cut <= |b[n..][m..]|
    ensures b == b[..n] + (b[n..][..m] + (b[n..][m..][..cut] + b[n..][m..][cut..]))
  {
  }

  /** The body of a packet that is heard, by its parts. */
  lemma BodyHasParts(body: seq<byte>, sender: uint32, target: byte) returns (q: seq<byte>, sequence: int64, l: seq<byte>, length: int64, tail: seq<byte>)
    requires ParseBody(body, sender, target).Heard?
    ensures Spells(q, sequence) && Spells(l, length)
    ensures body == q + (l + (ParseBody(body, sender, target).data + tail))
    ensures |ParseBody(body, sender, target).data| == WithoutTerminator(length)
    ensures ParseBody(body, sender, target) ==
            Heard(sender, target, ParseBody(body, sender, target).data, if |tail| == 12 then Some(ReadPosition(tail)) else None)
  {
    var n := Decode(body).n;
    var m := Decode(body[n..]).n;
    var cut := WithoutTerminator(Decode(body[n..]).value);
    SpellsPrefix(body);
    SpellsPrefix(body[n..]);
    Rejoined(body, n, m, cut);
    q, sequence, l, length := body[..n], Decode(body).value, body[n..][..m], Decode(body[n..]).value;
    tail := body[n..][m..][cut..];
  }

  lemma OpusTag(tag: byte)
    ensures tag / 32 == OPUS <==> 0x80 <= tag < 0xA0
    ensures tag / 32 == OPUS ==> tag % 32 == tag - 0x80
  {
  }

  lemma HeardSender(buffer: seq<byte>, users: Users, haveCodec: bool, session: Decoded, sender: uint32)
    requires Parse(buffer, users, haveCodec).Heard? && session == Decode(buffer[1..]) && sender == session.value % 0x1_0000_0000
    ensures buffer[0] / 32 == OPUS && session.n > 0 && sender in users && (haveCodec || users[sender])
  {
  }

  lemma HeardFromBody(buffer: seq<byte>, users: Users, haveCodec: bool, session: Decoded, sender: uint32, target: byte)
    requires Parse(buffer, users, haveCodec).Heard? && session == Decode(buffer[1..])
    requires sender == session.value % 0x1_0000_0000 && target == buffer[0] % 32
    requires buffer[0] / 32 == OPUS && session.n > 0 && sender in users && (haveCodec || users[sender])
    ensures Parse(buffer, users, haveCodec) == ParseBody(buffer[1 + session.n..], sender, target)
  {
  }

  lemma FrontAndBody(buffer: seq<byte>, n: nat)
    requires 1 + n <= |buffer|
    ensures buffer == [buffer[0]] + buffer[1..][..n] + buffer[1 + n..]
  {
  }

  /** And only such packets are heard. */
  lemma HeardHasParts(buffer: seq<byte>, users: Users, haveCodec: bool) returns (w: Parts)
    requires Parse(buffer, users, haveCodec).Heard?
    ensures buffer == Whole(w) && Hearable(w, users, haveCodec) && Parse(buffer, users, haveCodec) == HeardAs(w)
  {
    var session := Decode(buffer[1..]);
    var sender, tag := session.value % 0x1_0000_0000, buffer[0];
    HeardSender(buffer, users, haveCodec, session, sender);
    HeardFromBody(buffer, users, haveCodec, session, sender, tag % 32);
    OpusTag(tag);
    SpellsPrefix(buffer[1..]);
    FrontAndBody(buffer, session.n);
    w := PartsFrom(buffer, tag, buffer[1..][..session.n], session.value, sender, buffer[1 + session.n..], users, haveCodec);
  }

  lemma PartsFrom(buffer: seq<byte>, tag: byte, e: seq<byte>, session: int64, sender: uint32, body: seq<byte>, users: Users, haveCodec: bool)
    returns (w: Parts)
    requires buffer == [tag] + e + body && 0x80 <= tag < 0xA0 && tag % 32 == tag - 0x80 && Spells(e, session)
    requires sender == session % 0x1_0000_0000 && sender in users && (haveCodec || users[sender])
    requires ParseBody(body, sender, tag % 32).Heard?
    ensures buffer == Whole(w) && Hearable(w, users, haveCodec) && ParseBody(body, sender, tag % 32) == HeardAs(w)
  {
    var q, sequence, l, length, tail := BodyHasParts(body, sender, tag % 32);
    w := Parts(tag, e, session, q, sequence, l, length, ParseBody(body, sender, tag % 32).data, tail);
  }

  /** The data and position behind a length field, which may have the terminator bit of `final` in it. */
  lemma SplitEnd(data: seq<byte>, pos: Option<Position>, final: bool)
    ensures var end := data + PositionBytes(pos);
      var cut := WithoutTerminator(WithTerminator(|data|, final));
      && 0 <= cut <= |end|
      && (!Terminated(|data|) ==>
            && end[..cut] == data
            && |end| - cut == (if pos.Some? then 12 else 0)
            && (pos.Some? ==> ReadPosition(end[cut..]) == pos.value))
      && (Terminated(|data|) ==> |end[..cut]| < |data|)
  {
    TerminatorCleared(|data|, final);
    var end := data + PositionBytes(pos);
    assert end[|data|..] == PositionBytes(pos);
    if pos.Some? {
      PositionRoundTrip(pos.value);
    }
  }

  /** Clearing bit 13 undoes the terminator and nothing else. */
  lemma TerminatorCleared(length: nat, final: bool)
    ensures WithoutTerminator(WithTerminator(length, final)) == if Terminated(length) then length - 0x2000 else length
    ensures Terminated(length) ==> length >= 0x2000
    ensures !Terminated(length) ==> (Terminated(WithTerminator(length, final)) <==> final)
  {
  }

  /** The body parse returns the data and the position, unless bit 13 of the length is the data's own. */
  lemma BodyRecovers(sequence: int64, final: bool, data: seq<byte>, pos: Option<Position>, sender: uint32, target: byte)
    requires sequence != MIN_INT64 && |data| <= MAX_INT64
    ensures var body := Encoding(sequence) + (Encoding(WithTerminator(|data|, final)) + (data + PositionBytes(pos)));
      && var r := ParseBody(body, sender, target);
      && r.Heard? && r.sender == sender && r.target == target
      && (r.data == data && r.position == pos <==> !Terminated(|data|))
  {
    var length := WithTerminator(|data|, final);
    var e, l, end := Encoding(sequence), Encoding(length), data + PositionBytes(pos);
    RoundTrip(sequence, l + end);
    RoundTrip(length, end);
    SplitEnd(data, pos, final);
    ParseBodyFields(e, sequence, l, length, end, sender, target);
  }

  lemma PayloadShape(tag: seq<byte>, e: seq<byte>, l: seq<byte>, data: seq<byte>, p: seq<byte>)
    ensures tag + e + l + data + p == tag + (e + (l + (data + p)))
  {
  }

  /**
   * What one client writes, relayed with any session of a known user, is heard as the same target,
   * data and position exactly when the target is below 32 and bit 13 of the length is clear.
   */
  lemma TunnelRecovers(target: byte, sequence: int64, final: bool, data: seq<byte>, pos: Option<Position>,
                       e: seq<byte>, session: int64, users: Users, haveCodec: bool)
    requires sequence != MIN_INT64 && |data| <= MAX_INT64 && Spells(e, session)
    requires session % 0x1_0000_0000 in users && (haveCodec || users[session % 0x1_0000_0000])
    ensures (Parse(Relay(AudioPacket(OPUS, target, sequence, final, data, pos).payload, e), users, haveCodec)
             == Heard(session % 0x1_0000_0000, target, data, pos))
      <==> (target < 32 && !Terminated(|data|))
  {
    var tag := TypeAndTarget(OPUS, target);
    var body := Encoding(sequence) + (Encoding(WithTerminator(|data|, final)) + (data + PositionBytes(pos)));
    PayloadShape([tag], Encoding(sequence), Encoding(WithTerminator(|data|, final)), data, PositionBytes(pos));
    BodyRecovers(sequence, final, data, pos, session % 0x1_0000_0000, target % 32);
    RecoversFromBody(AudioPacket(OPUS, target, sequence, final, data, pos).payload, body, target, data, pos, e, session, users, haveCodec);
  }

  lemma RecoversFromBody(payload: seq<byte>, body: seq<byte>, target: byte, data: seq<byte>, pos: Option<Position>,
                         e: seq<byte>, session: int64, users: Users, haveCodec: bool)
    requires payload == [TypeAndTarget(OPUS, target)] + body && Spells(e, session)
    requires session % 0x1_0000_0000 in users && (haveCodec || users[session % 0x1_0000_0000])
    requires var r := ParseBody(body, session % 0x1_0000_0000, target % 32);
      && r.Heard? && r.sender == session % 0x1_0000_0000 && r.target == target % 32
      && (r.data == data && r.position == pos <==> !Terminated(|data|))
    ensures (Parse(Relay(payload, e), users, haveCodec) == Heard(session % 0x1_0000_0000, target, data, pos))
      <==> (target < 32 && !Terminated(|data|))
  {
    assert payload[1..] == body;
    var tag, sender := TypeAndTarget(OPUS, target), session % 0x1_0000_0000;
    ParseRelayed(tag, e, session, body, users, haveCodec);
    TypeByte(target);
    Verdict(tag, target, sender, data, pos, ParseBody(body, sender, target % 32));
  }

  lemma Verdict(tag: byte, target: byte, sender: uint32, data: seq<byte>, pos: Option<Position>, r: Tunnel)
    requires tag / 32 == OPUS <==> target / 32 == 0 || target / 32 == 4
    requires r.Heard? && r.sender == sender && r.target == target % 32
    requires r.data == data && r.position == pos <==> !Terminated(|data|)
    ensures (if tag / 32 == OPUS then r else UnsupportedAudio) == Heard(sender, target, data, pos) <==> target < 32 && !Terminated(|data|)
  {
  }

  // ---- Outgoing ----

  /** One buffer sent on the channel: whether the slice is nil, and what the encoder makes of it. */
  datatype Submission = Submission(isNil: bool, encoded: Option<seq<byte>>)

  /** Encoder output lengths are Go ints. */
  predicate Encodable(input: seq<Submission>) {
    forall s :: s in input && s.encoded.Some? ==> |s.encoded.value| <= MAX_INT64
  }

  /** One call of Conn.WriteAudio. */
  datatype Call = Call(sequence: nat, final: bool, data: seq<byte>)

  predicate ValidCall(c: Call) {
    c.sequence < 0x7FFF_FFFF && |c.data| <= MAX_INT64
  }

  /** Sequence numbers count up and wrap at MaxInt32. */
  function Numbered(i: nat): (n: nat)
    ensures n < 0x7FFF_FFFF
  {
    i % 0x7FFF_FFFF
  }

  lemma NumberedNext(i: nat)
    ensures Numbered(i + 1) == (Numbered(i) + 1) % 0x7FFF_FFFF
  {
  }

  function CallPacket(c: Call, target: byte): (p: Packet)
    requires ValidCall(c)
  {
    AudioPacket(OPUS, target, c.sequence, c.final, c.data, None)
  }

  function CallPackets(cs: seq<Call>, target: byte): (ps: seq<Packet>)
    requires forall c :: c in cs ==> ValidCall(c)
    ensures |ps| == |cs| && forall i :: 0 <= i < |cs| ==> ps[i] == CallPacket(cs[i], target)
  {
    seq(|cs|, i requires 0 <= i < |cs| => CallPacket(cs[i], target))
  }

  /** The call for buffer `i`: none for a failed encoding or a nil last buffer. */
  function CallFor(input: seq<Submission>, i: nat): (c: Option<Call>)
    requires i < |input| && Encodable(input)
    ensures c.Some? ==> ValidCall(c.value)
  {
    var final := i == |input| - 1;
    if input[i].encoded.None? || (final && input[i].isNil) then None
    else
      assert input[i] in input;
      Some(Call(Numbered(i), final, input[i].encoded.value))
  }

  /** The calls for the first `n` buffers. */
  function Calls(input: seq<Submission>, n: nat): (cs: seq<Call>)
    requires n <= |input| && Encodable(input)
    ensures forall c :: c in cs ==> ValidCall(c)
  {
    if n == 0 then []
    else
      var c := CallFor(input, n - 1);
      if c.Some? then Calls(input, n - 1) + [c.value] else Calls(input, n - 1)
  }

  /**
   * AudioBuffer.writeAudio, its error ignored by the caller: nothing goes out for a buffer that does
   * not encode, and otherwise the frame of its call, or after a write error a prefix of it.
   */
  method WriteAudio(conn: Conn, target: byte, sequence: nat, final: bool, buffer: Submission) returns (ok: bool, ghost part: seq<byte>)
    requires !conn.locked && sequence < 0x7FFF_FFFF && (buffer.encoded.Some? ==> |buffer.encoded.value| <= MAX_INT64)
    modifies conn`sent, conn`locked
    ensures !conn.locked && conn.sent == old(conn.sent) + part
    ensures buffer.encoded.None? ==> ok && part == []
    ensures buffer.encoded.Some? ==> PartOf(part, Frame(CallPacket(Call(sequence, final, buffer.encoded.value), target)), ok)
  {
    if buffer.encoded.None? {
      return true, [];
    }
    var r := conn.WriteAudio(OPUS, target, sequence, final, buffer.encoded.value, None, None, None);
    ok, part := r.Sent?, conn.sent[|old(conn.sent)|..];
  }

  /**
   * The goroutine of AudioOutgoing on the buffers sent before the channel is closed: each buffer
   * is held back until the next arrives, so that the last one can carry the terminator. A buffer
   * whose encoding fails is skipped. After a failed write it goes on with the next buffer, so what
   * goes out is a prefix of each call's frame, and with no failure (`ok`) exactly the frames.
   */
  method AudioOutgoing(conn: Conn, target: byte, input: seq<Submission>) returns (ok: bool, ghost parts: seq<seq<byte>>)
    requires !conn.locked && Encodable(input)
    modifies conn`sent, conn`locked
    ensures !conn.locked
    ensures SentFor(old(conn.sent), conn.sent, CallFrames(Calls(input, |input|), target), parts, ok)
    ensures ok ==> conn.sent == old(conn.sent) + Frames(CallPackets(Calls(input, |input|), target))
  {
    ok, parts := Pump(conn, target, input);
    if ok {
      WholeSent(old(conn.sent), conn.sent, CallFrames(Calls(input, |input|), target), parts);
      CallFramesJoin(Calls(input, |input|), target);
    }
  }

  method Pump(conn: Conn, target: byte, input: seq<Submission>) returns (ok: bool, ghost parts: seq<seq<byte>>)
    requires !conn.locked && Encodable(input)
    modifies conn`sent, conn`locked
    ensures !conn.locked
    ensures SentFor(old(conn.sent), conn.sent, CallFrames(Calls(input, |input|), target), parts, ok)
  {
    ok, parts := true, [];
    NothingSent(conn.sent, input, target);
    if input == [] {
      return;                   // the receive on the closed channel yields nil
    }
    var sequence, previous := 0, input[0];
    var i := 1;
    while i < |input|
      invariant 1 <= i <= |input| && previous == input[i - 1]
      invariant sequence == Numbered(i - 1)
      invariant !conn.locked
      invariant SentFor(old(conn.sent), conn.sent, CallFrames(Calls(input, i - 1), target), parts, ok)
    {
      ok, parts := WriteNext(conn, target, input, i - 1, sequence, previous, ok, old(conn.sent), parts);
      NumberedNext(i - 1);
      previous := input[i];
      sequence := (sequence + 1) % 0x7FFF_FFFF;
      i := i + 1;
    }
    if !previous.isNil {
      ok, parts := WriteNext(conn, target, input, i - 1, sequence, previous, ok, old(conn.sent), parts);
    } else {
      NilLast(input);
    }
  }

  lemma NothingSent(sent: seq<byte>, input: seq<Submission>, target: byte)
    requires Encodable(input)
    ensures SentFor(sent, sent, CallFrames(Calls(input, 0), target), [], true)
  {
  }

  lemma NilLast(input: seq<Submission>)
    requires Encodable(input) && input != [] && input[|input| - 1].isNil
    ensures Calls(input, |input|) == Calls(input, |input| - 1)
  {
  }

  function CallFrames(cs: seq<Call>, target: byte): (fs: seq<seq<byte>>)
    requires forall c :: c in cs ==> ValidCall(c)
    ensures |fs| == |cs|
  {
    seq(|cs|, i requires 0 <= i < |cs| => Frame(CallPacket(cs[i], target)))
  }

  /** A prefix of the frame, and the whole of it if `ok`. */
  predicate PartOf(part: seq<byte>, frame: seq<byte>, ok: bool) {
    part <= frame && (ok ==> part == frame)
  }

  /** From `before` to `after` a prefix of each frame went out, and if `ok` the whole of each. */
  ghost predicate SentFor(before: seq<byte>, after: seq<byte>, frames: seq<seq<byte>>, parts: seq<seq<byte>>, ok: bool) {
    && |parts| == |frames| && after == before + Concat(parts)
    && forall i :: 0 <= i < |frames| ==> PartOf(parts[i], frames[i], ok)
  }

  lemma SentForNext(start: seq<byte>, mid: seq<byte>, frames: seq<seq<byte>>, parts: seq<seq<byte>>, ok: bool, frame: seq<byte>, part: seq<byte>, now: bool)
    requires SentFor(start, mid, frames, parts, ok) && PartOf(part, frame, now)
    ensures SentFor(start, mid + part, frames + [frame], parts + [part], now && ok)
  {
    ConcatPlus(parts, [part]);
    assert Concat([part]) == part + Concat([]) == part;
    forall i | 0 <= i < |frames + [frame]|
      ensures PartOf((parts + [part])[i], (frames + [frame])[i], now && ok)
    {
      assert i < |frames| ==> PartOf(parts[i], frames[i], ok);
    }
  }

  lemma CallFramesAppend(cs: seq<Call>, c: Call, target: byte)
    requires (forall c :: c in cs ==> ValidCall(c)) && ValidCall(c)
    ensures forall c' :: c' in cs + [c] ==> ValidCall(c')
    ensures CallFrames(cs + [c], target) == CallFrames(cs, target) + [Frame(CallPacket(c, target))]
  {
  }

  /** Whole parts are the frames themselves. */
  lemma WholeSent(before: seq<byte>, after: seq<byte>, frames: seq<seq<byte>>, parts: seq<seq<byte>>)
    requires SentFor(before, after, frames, parts, true)
    ensures after == before + Concat(frames)
  {
    forall i | 0 <= i < |frames|
      ensures parts[i] == frames[i]
    {
      assert PartOf(parts[i], frames[i], true);
    }
    assert parts == frames;
  }

  lemma {:induction false} CallFramesJoin(cs: seq<Call>, target: byte)
    requires forall c :: c in cs ==> ValidCall(c)
    ensures Concat(CallFrames(cs, target)) == Frames(CallPackets(cs, target))
  {
    if cs != [] {
      var ps := CallPackets(cs, target);
      assert ps[1..] == CallPackets(cs[1..], target) && CallFrames(cs, target)[1..] == CallFrames(cs[1..], target);
      CallFramesJoin(cs[1..], target);
    }
  }

  /** The write for buffer `i`, after those for the buffers before it. */
  method WriteNext(conn: Conn, target: byte, input: seq<Submission>, i: nat, sequence: nat, buffer: Submission, okSoFar: bool,
                   ghost start: seq<byte>, ghost before: seq<seq<byte>>) returns (ok: bool, ghost parts: seq<seq<byte>>)
    requires !conn.locked && Encodable(input) && i < |input| && sequence == Numbered(i) && buffer == input[i]
    requires i == |input| - 1 ==> !buffer.isNil
    requires SentFor(start, conn.sent, CallFrames(Calls(input, i), target), before, okSoFar)
    modifies conn`sent, conn`locked
    ensures !conn.locked
    ensures SentFor(start, conn.sent, CallFrames(Calls(input, i + 1), target), parts, ok)
  {
    assert buffer in input;
    ghost var part, mid, cs := [], conn.sent, Calls(input, i);
    ok, part := WriteAudio(conn, target, sequence, i == |input| - 1, buffer);
    parts := before;
    if buffer.encoded.Some? {
      ghost var c := Call(sequence, i == |input| - 1, buffer.encoded.value);
      assert CallFor(input, i) == Some(c);
      CallFramesAppend(cs, c, target);
      SentForNext(start, mid, CallFrames(cs, target), before, okSoFar, Frame(CallPacket(c, target)), part, ok);
      parts := before + [part];
    }
    ok := ok && okSoFar;
  }

  /** Every buffer is there, encodes, and leaves bit 13 of the length free. */
  predicate CleanStream(input: seq<Submission>) {
    forall s :: s in input ==> !s.isNil && s.encoded.Some? && |s.encoded.value| < 0x2000
  }

  /** One call per buffer, in order, with its number, and final only for the last. */
  lemma {:induction false} CallsOfCleanStream(input: seq<Submission>, n: nat)
    requires n <= |input| && Encodable(input) && CleanStream(input)
    ensures |Calls(input, n)| == n
    ensures forall j :: 0 <= j < n ==>
      Calls(input, n)[j] == Call(j % 0x7FFF_FFFF, j == |input| - 1, input[j].encoded.value)
  {
    if n > 0 {
      CallsOfCleanStream(input, n - 1);
      assert input[n - 1] in input;
    }
  }

  /** The buffers that lead to a call: all that encode, but for a nil last one. */
  predicate Called(input: seq<Submission>, i: nat)
    requires i < |input|
  {
    input[i].encoded.Some? && !(i == |input| - 1 && input[i].isNil)
  }

  /** Those among the first `n`, in order. */
  function CallIndices(input: seq<Submission>, n: nat): (at: seq<nat>)
    requires n <= |input|
  {
    if n == 0 then [] else CallIndices(input, n - 1) + if Called(input, n - 1) then [n - 1] else []
  }

  lemma {:induction false} IndexIsCalled(input: seq<Submission>, n: nat, i: nat)
    requires n <= |input|
    ensures i in CallIndices(input, n) <==> i < n && Called(input, i)
  {
    if n > 0 {
      IndexIsCalled(input, n - 1, i);
    }
  }

  lemma {:induction false} IndicesIncrease(input: seq<Submission>, n: nat, j: nat, k: nat)
    requires n <= |input| && j < k < |CallIndices(input, n)|
    ensures CallIndices(input, n)[j] < CallIndices(input, n)[k] < n
  {
    var before := CallIndices(input, n - 1);
    if k < |before| {
      IndicesIncrease(input, n - 1, j, k);
    } else {
      assert before[j] in before;
      IndexIsCalled(input, n - 1, before[j]);
    }
  }

  /**
   * The calls of any stream: one for each buffer that encodes, but for a nil last one. Each has its
   * buffer's number, buffers without a call counted too, and the last buffer's is final.
   */
  lemma {:induction false} CallsOfAnyStream(input: seq<Submission>, n: nat, j: nat)
    requires n <= |input| && Encodable(input) && j < |CallIndices(input, n)|
    ensures |Calls(input, n)| == |CallIndices(input, n)|
    ensures var i := CallIndices(input, n)[j];
      i < n && Called(input, i) && Calls(input, n)[j] == Call(i % 0x7FFF_FFFF, i == |input| - 1, input[i].encoded.value)
  {
    CallsAreIndexed(input, n);
    var m := n - 1;
    if j < |CallIndices(input, m)| {
      CallsOfAnyStream(input, m, j);
    } else {
      CallsAreIndexed(input, m);
    }
  }

  lemma {:induction false} CallsAreIndexed(input: seq<Submission>, n: nat)
    requires n <= |input| && Encodable(input)
    ensures |Calls(input, n)| == |CallIndices(input, n)|
  {
    if n > 0 {
      CallsAreIndexed(input, n - 1);
    }
  }

  lemma CallFits(c: Call, target: byte, max: int)
    requires ValidCall(c) && |c.data| < 0x2000 && 0x2000 + 20 <= max
    ensures Fits(CallPacket(c, target), max)
  {
  }

  /** A peer that reads a whole stream gets exactly its packets. */
  lemma StreamReadsBack(ps: seq<Packet>, max: int)
    requires forall j :: 0 <= j < |ps| ==> Fits(ps[j], max)
    ensures ReadAll(Frames(ps), max) == ps
  {
    ReadAllFrames(ps, [], max);
    assert Frames(ps) + [] == Frames(ps);
  }

  lemma TwoFields(body: seq<byte>, e: seq<byte>, sequence: int64, l: seq<byte>, length: int64, end: seq<byte>)
    requires body == e + (l + end)
    requires Decode(e + (l + end)) == Decoded(sequence, |e|)
    requires Decode(l + end) == Decoded(length, |l|)
    ensures Decode(body).value == sequence && Decode(body[Decode(body).n..]).value == length
  {
    assert body[|e|..] == l + end;
  }

  lemma CallPayload(c: Call, target: byte)
    requires ValidCall(c)
    ensures var end := c.data + [];
      CallPacket(c, target).payload
      == [TypeAndTarget(OPUS, target)] + (Encoding(c.sequence) + (Encoding(WithTerminator(|c.data|, c.final)) + end))
  {
    PayloadShape([TypeAndTarget(OPUS, target)], Encoding(c.sequence), Encoding(WithTerminator(|c.data|, c.final)), c.data, []);
  }

  /** The sequence number and the terminator bit behind the type byte. */
  lemma HeaderReadsBack(c: Call, target: byte)
    requires ValidCall(c) && !Terminated(|c.data|)
    ensures CallPacket(c, target).payload != []
    ensures var body := CallPacket(c, target).payload[1..];
      && Decode(body).value == c.sequence
      && (Terminated(Decode(body[Decode(body).n..]).value) <==> c.final)
  {
    var length := WithTerminator(|c.data|, c.final);
    var e, l, end := Encoding(c.sequence), Encoding(length), c.data + [];
    CallPayload(c, target);
    RoundTrip(c.sequence, l + end);
    RoundTrip(length, end);
    TerminatorCleared(|c.data|, c.final);
    TwoFields(CallPacket(c, target).payload[1..], e, c.sequence, l, length, end);
  }

  /**
   * Packet `p` is a type-1 packet with the sequence number and terminator bit of call `c`; relayed
   * with a session that `e` spells it is heard as exactly the data of the call.
   */
  ghost predicate ArrivesAs(p: Packet, c: Call, target: byte, e: seq<byte>, session: int64, users: Users, haveCodec: bool) {
    && p.ptype == 1 && p.payload != []
    && (var body := p.payload[1..];
        && Decode(body).value == c.sequence
        && (Terminated(Decode(body[Decode(body).n..]).value) <==> c.final))
    && Parse(Relay(p.payload, e), users, haveCodec) == Heard(session % 0x1_0000_0000, target, c.data, None)
  }

  lemma CallArrives(p: Packet, c: Call, target: byte, e: seq<byte>, session: int64, users: Users, haveCodec: bool)
    requires ValidCall(c) && p == CallPacket(c, target) && !Terminated(|c.data|) && target < 32 && Spells(e, session)
    requires session % 0x1_0000_0000 in users && (haveCodec || users[session % 0x1_0000_0000])
    ensures ArrivesAs(p, c, target, e, session, users, haveCodec)
  {
    HeaderReadsBack(c, target);
    TunnelRecovers(target, c.sequence, c.final, c.data, None, e, session, users, haveCodec);
  }

  /** Calls whose data leaves bit 13 of the length free. */
  predicate ShortCalls(cs: seq<Call>) {
    forall i :: 0 <= i < |cs| ==> ValidCall(cs[i]) && |cs[i].data| < 0x2000
  }

  /** The packets of short calls are read back by a peer. */
  lemma CallsReadBack(cs: seq<Call>, ps: seq<Packet>, target: byte, max: int)
    requires ShortCalls(cs) && 0x2000 + 20 <= max && ps == CallPackets(cs, target)
    ensures ReadAll(Frames(ps), max) == ps
  {
    forall i | 0 <= i < |ps|
      ensures Fits(ps[i], max)
    {
      CallFits(cs[i], target, max);
    }
    StreamReadsBack(ps, max);
  }

  lemma ShortCall(c: Call)
    requires |c.data| < 0x2000
    ensures !Terminated(|c.data|)
  {
  }

  /**
   * End to end: k buffers, each there, encoding to less than 0x2000 bytes, and a target below 32:
   * they leave as k packets that a peer reads back, and packet j arrives with sequence number
   * j mod 2^31-1, the terminator only if it is the last, and exactly the j-th encoded buffer.
   */
  lemma EndToEnd(input: seq<Submission>, ps: seq<Packet>, j: nat, target: byte, max: int, e: seq<byte>, session: int64, users: Users, haveCodec: bool)
    requires j < |input| && Encodable(input) && CleanStream(input) && target < 32 && 0x2000 + 20 <= max
    requires ps == CallPackets(Calls(input, |input|), target) && Spells(e, session)
    requires session % 0x1_0000_0000 in users && (haveCodec || users[session % 0x1_0000_0000])
    ensures ReadAll(Frames(ps), max) == ps && |ps| == |input|
    ensures input[j].encoded.Some?
    ensures ArrivesAs(ps[j], Call(j % 0x7FFF_FFFF, j == |input| - 1, input[j].encoded.value), target, e, session, users, haveCodec)
  {
    var cs := Calls(input, |input|);
    CallsOfCleanStream(input, |input|);
    CleanCallsAreShort(input, cs);
    CallsReadBack(cs, ps, target, max);
    ShortCall(cs[j]);
    CallArrives(ps[j], cs[j], target, e, session, users, haveCodec);
  }

  lemma CleanCallsAreShort(input: seq<Submission>, cs: seq<Call>)
    requires Encodable(input) && CleanStream(input) && cs == Calls(input, |input|)
    ensures ShortCalls(cs) && forall j :: 0 <= j < |input| ==> input[j].encoded.Some?
  {
    CallsOfCleanStream(input, |input|);
    forall i | 0 <= i < |input|
      ensures input[i].encoded.Some? && ValidCall(cs[i]) && |cs[i].data| < 0x2000
    {
      assert input[i] in input;
    }
  }
}
