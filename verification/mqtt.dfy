/** All message kinds on one stream: dispatch on the fixed header, and framing. */
module Mqtt {
  import opened Bytes
  import opened Messages
  import opened Wire
  import opened FixedHeaders
  import opened Outcomes
  import opened ConnectCodec
  import opened PublishCodec
  import opened SubscribeCodec
  import opened SubackCodec
  import opened UnsubscribeCodec

  // ----- The fixed-size messages -----

  function AckType(kind: AckKind): Kind
  {
    match kind
    case Puback => PUBACK
    case Pubrec => PUBREC
    case Pubrel => PUBREL
    case Pubcomp => PUBCOMP
    case Unsuback => UNSUBACK
  }

  function BareType(kind: BareKind): Kind
  {
    match kind
    case Pingreq => PINGREQ
    case Pingresp => PINGRESP
    case Disconnect => DISCONNECT
  }

  function EncodeConnack(m: Connack): bytes
  {
    HeaderBytes(CONNACK, m.header, 2) + [m.reserved, m.returnCode]
  }

  function EncodeAck(m: Ack): bytes
  {
    HeaderBytes(AckType(m.kind), m.header, 2) + U16(m.packetId)
  }

  function DecodeConnack(h: Header, s: bytes): Took<Connack>
  {
    var reserved := TakeByte(s, 0);
    var returnCode := TakeByte(reserved.rest, 0);
    Took(Connack(h, reserved.value, returnCode.value), returnCode.rest)
  }

  function DecodeAck(kind: AckKind, h: Header, s: bytes): Took<Ack>
  {
    var id := TakeU16(s, 0);
    Took(Ack(kind, h, id.value), id.rest)
  }

  // ----- Writing -----

  function Encode(m: Message): bytes
  {
    match m
    case MConnect(c) => EncodeConnect(c)
    case MConnack(c) => EncodeConnack(c)
    case MPublish(p) => EncodePublish(p)
    case MAck(a) => EncodeAck(a)
    case MSubscribe(s) => EncodeSubscribe(s)
    case MSuback(s) => EncodeSuback(s)
    case MUnsubscribe(u) => EncodeUnsubscribe(u)
    case MBare(b) => HeaderBytes(BareType(b.kind), b.header, 0)
  }

  method WriteMessageTo(m: Message, w: Writer)
    modifies w
    ensures w.out == old(w.out) + Encode(m)
  {
    hide EncodeConnect, EncodePublish, EncodeSubscribe, EncodeSuback, EncodeUnsubscribe, HeaderBytes;
    if m.MConnect? {
      var packet := new ConnectPacket.Of(m.connect);
      packet.WriteTo(w);
    } else if m.MConnack? {
      WriteHeader(CONNACK, m.connack.header, 2, w);
      w.WriteByte(m.connack.reserved);
      w.WriteByte(m.connack.returnCode);
    } else if m.MPublish? {
      var packet := new PublishPacket.Of(m.publish);
      packet.WriteTo(w);
    } else if m.MAck? {
      WriteHeader(AckType(m.ack.kind), m.ack.header, 2, w);
      w.WriteU16(m.ack.packetId);
    } else if m.MSubscribe? {
      var packet := new SubscribePacket.Of(m.subscribe);
      packet.WriteTo(w);
    } else if m.MSuback? {
      var packet := new SubackPacket.Of(m.suback);
      packet.WriteTo(w);
    } else if m.MUnsubscribe? {
      var packet := new UnsubscribePacket.Of(m.unsubscribe);
      packet.WriteTo(w);
    } else {
      WriteHeader(BareType(m.bare.kind), m.bare.header, 0, w);
    }
  }

  // ----- Reading -----

  function Wrap<T>(t: Took<Outcome<T>>, f: T -> Message): Took<Outcome<Message>>
  {
    Took(match t.value case Decoded(v) => Decoded(f(v)) case Rejected => Rejected case Overrun => Overrun, t.rest)
  }

  /** The body of a message of the given type; `spare` is the capacity that the buffer of a CONNECT
      happens to have beyond its length. */
  function DecodeBody(kind: Kind, h: Header, s: bytes, spare: nat): Took<Outcome<Message>>
  {
    if kind == CONNECT then Wrap(DecodeConnect(h, s, spare), c => MConnect(c))
    else if kind == CONNACK then var t := DecodeConnack(h, s); Took(Decoded(MConnack(t.value)), t.rest)
    else if kind == PUBLISH then Wrap(DecodePublish(h, s), p => MPublish(p))
    else if kind == SUBSCRIBE then var t := DecodeSubscribe(h, s); Took(Decoded(MSubscribe(t.value)), t.rest)
    else if kind == SUBACK then var t := DecodeSuback(h, s); Took(Decoded(MSuback(t.value)), t.rest)
    else if kind == UNSUBSCRIBE then var t := DecodeUnsubscribe(h, s); Took(Decoded(MUnsubscribe(t.value)), t.rest)
    else if kind == UNSUBACK then AckBody(Unsuback, h, s)
    else if kind == PUBACK then AckBody(Puback, h, s)
    else if kind == PUBREC then AckBody(Pubrec, h, s)
    else if kind == PUBREL then AckBody(Pubrel, h, s)
    else if kind == PUBCOMP then AckBody(Pubcomp, h, s)
    else if kind == DISCONNECT then Took(Decoded(MBare(Bare(Disconnect, h))), s)
    else if kind == PINGRESP then Took(Decoded(MBare(Bare(Pingresp, h))), s)
    else if kind == PINGREQ then Took(Decoded(MBare(Bare(Pingreq, h))), s)
    else Took(Rejected, s)
  }

  function AckBody(kind: AckKind, h: Header, s: bytes): Took<Outcome<Message>>
  {
    var t := DecodeAck(kind, h, s);
    Took(Decoded(MAck(t.value)), t.rest)
  }

  function ParseOne(s: bytes, maxLen: int, spare: nat): Took<Outcome<Message>>
  {
    var h := TakeHeader(s);
    if h.value.None? then Took(Rejected, h.rest)
    else
      var kind, header := h.value.value.0, h.value.value.1;
      if maxLen > 0 && header.remainingLength > maxLen then Took(Rejected, h.rest)
      else DecodeBody(kind, header, h.rest, spare)
  }

  method ReadAck(kind: AckKind, h: Header, r: Reader) returns (m: Outcome<Message>)
    modifies r
    ensures Took(m, r.input) == AckBody(kind, h, old(r.input))
  {
    var id := r.ReadU16(0);
    m := Decoded(MAck(Ack(kind, h, id)));
  }

  method ReadBody(kind: Kind, h: Header, r: Reader) returns (m: Outcome<Message>, ghost spare: nat)
    modifies r
    ensures Took(m, r.input) == DecodeBody(kind, h, old(r.input), spare)
  {
    spare := 0;
    hide DecodeConnect, DecodePublish, DecodeSubscribe, DecodeSuback, DecodeUnsubscribe, AckBody;
    if kind == CONNECT {
      var mm := new ConnectPacket(h);
      var status;
      status, spare := mm.Decode(r);
      m := if status.Done? then Decoded(MConnect(mm.View())) else if status.Failed? then Rejected else Overrun;
    } else if kind == CONNACK {
      var reserved := r.ReadByte(0);
      var returnCode := r.ReadByte(0);
      m := Decoded(MConnack(Connack(h, reserved, returnCode)));
    } else if kind == PUBLISH {
      var mm := new PublishPacket(h);
      var status := mm.Decode(r);
      m := if status.Done? then Decoded(MPublish(mm.View())) else if status.Failed? then Rejected else Overrun;
    } else if kind == SUBSCRIBE {
      var mm := new SubscribePacket(h);
      mm.Decode(r);
      m := Decoded(MSubscribe(mm.View()));
    } else if kind == SUBACK {
      var mm := new SubackPacket(h);
      mm.Decode(r);
      m := Decoded(MSuback(mm.View()));
    } else if kind == UNSUBSCRIBE {
      var mm := new UnsubscribePacket(h);
      mm.Decode(r);
      m := Decoded(MUnsubscribe(mm.View()));
    } else if kind == UNSUBACK {
      m := ReadAck(Unsuback, h, r);
    } else if kind == PUBACK {
      m := ReadAck(Puback, h, r);
    } else if kind == PUBREC {
      m := ReadAck(Pubrec, h, r);
    } else if kind == PUBREL {
      m := ReadAck(Pubrel, h, r);
    } else if kind == PUBCOMP {
      m := ReadAck(Pubcomp, h, r);
    } else if kind == DISCONNECT {
      m := Decoded(MBare(Bare(Disconnect, h)));
    } else if kind == PINGRESP {
      m := Decoded(MBare(Bare(Pingresp, h)));
    } else if kind == PINGREQ {
      m := Decoded(MBare(Bare(Pingreq, h)));
    } else {
      m := Rejected;
    }
  }

  method Parse(r: Reader, maxLen: int) returns (m: Outcome<Message>, ghost spare: nat)
    modifies r
    ensures Took(m, r.input) == ParseOne(old(r.input), maxLen, spare)
  {
    hide DecodeBody, TakeHeader;
    var h := ReadHeader(r);
    if h.None? {
      return Rejected, 0;
    }
    var kind, header := h.value.0, h.value.1;
    if maxLen > 0 && header.remainingLength > maxLen {
      return Rejected, 0;
    }
    m, spare := ReadBody(kind, header, r);
  }

  // ----- Round trip of any message -----

  function TypeOf(m: Message): Kind
  {
    match m
    case MConnect(_) => CONNECT
    case MConnack(_) => CONNACK
    case MPublish(_) => PUBLISH
    case MAck(a) => AckType(a.kind)
    case MSubscribe(_) => SUBSCRIBE
    case MSuback(_) => SUBACK
    case MUnsubscribe(_) => UNSUBSCRIBE
    case MBare(b) => BareType(b.kind)
  }

  function HeaderIn(m: Message): Header
  {
    match m
    case MConnect(c) => c.header
    case MConnack(c) => c.header
    case MPublish(p) => p.header
    case MAck(a) => a.header
    case MSubscribe(s) => s.header
    case MSuback(s) => s.header
    case MUnsubscribe(u) => u.header
    case MBare(b) => b.header
  }

  /** The declared Remaining Length. */
  function SizeOf(m: Message): nat
  {
    match m
    case MConnect(c) => ConnectSize(c)
    case MConnack(_) => 2
    case MPublish(p) => PublishSize(p)
    case MAck(_) => 2
    case MSubscribe(s) => SubscribeSize(s)
    case MSuback(s) => SubackSize(s)
    case MUnsubscribe(u) => UnsubscribeSize(u)
    case MBare(_) => 0
  }

  function BodyOf(m: Message): bytes
  {
    match m
    case MConnect(c) => ConnectBody(c)
    case MConnack(c) => [c.reserved, c.returnCode]
    case MPublish(p) => PublishBody(p)
    case MAck(a) => U16(a.packetId)
    case MSubscribe(s) => SubscribeBody(s)
    case MSuback(s) => SubackBody(s)
    case MUnsubscribe(u) => UnsubscribeBody(u)
    case MBare(_) => []
  }

  /** What a faithful reader would make of a message. */
  function Seen(m: Message): Message
  {
    match m
    case MConnect(c) => MConnect(ConnectSeen(c))
    case MConnack(c) => MConnack(c.(header := OnWire(c.header, 2)))
    case MPublish(p) => MPublish(PublishSeen(p))
    case MAck(a) => MAck(a.(header := OnWire(a.header, 2)))
    case MSubscribe(s) => MSubscribe(SubscribeSeen(s))
    case MSuback(s) => MSuback(SubackSeen(s))
    case MUnsubscribe(u) => MUnsubscribe(UnsubscribeSeen(u))
    case MBare(b) => MBare(b.(header := OnWire(b.header, 0)))
  }

  /** The condition on the body of a message that has one. */
  predicate BodyFits(m: Message)
  {
    match m
    case MConnect(c) => ConnectFits(c)
    case MConnack(_) => true
    case MPublish(p) => PublishFits(p)
    case MAck(_) => true
    case MSubscribe(s) => PathsFit(s.payload)
    case MSuback(s) => |s.qos| == 1 || |s.qos| == 2
    case MUnsubscribe(u) => UnsubscribeFits(u)
    case MBare(_) => true
  }

  /** The declared size is at most 2097151 and within the caller's limit and the body fits; a
      message without a body has no length byte, so nothing may follow it. */
  predicate Fits(m: Message, rest: bytes, maxLen: int)
  {
    && BodyFits(m)
    && SizeOf(m) < 0x20_0000 && (maxLen > 0 ==> SizeOf(m) <= maxLen)
    && (m.MBare? ==> rest == [])
  }

  lemma EncodeParts(m: Message)
    ensures Encode(m) == HeaderBytes(TypeOf(m), HeaderIn(m), SizeOf(m)) + BodyOf(m)
    ensures !m.MBare? ==> SizeOf(m) > 0
    ensures HeaderIn(Seen(m)) == OnWire(HeaderIn(m), SizeOf(m))
  {
    hide HeaderBytes, ConnectBody, PublishBody, SubscribeBody, SubackBody, UnsubscribeBody, Flags, OnWire;
  }

  /** The body comes back exactly when it fits. When the right message comes out of a body that does
      not, what is left in the stream begins with 0 or 1. */
  lemma BodyRoundTrip(m: Message, rest: bytes, spare: nat)
    requires !m.MBare?
    ensures var t := DecodeBody(TypeOf(m), HeaderIn(Seen(m)), BodyOf(m) + rest, spare);
            && (t == Took(Decoded(Seen(m)), rest) <==> BodyFits(m))
            && (t.value == Decoded(Seen(m)) && !BodyFits(m) ==> t.rest != [] && t.rest[0] <= 1)
  {
    hide DecodeConnect, DecodePublish, DecodeSubscribe, DecodeSuback, DecodeUnsubscribe;
    hide ConnectBody, PublishBody, SubscribeBody, SubackBody, UnsubscribeBody;
    hide ConnectSeen, PublishSeen, SubscribeSeen, SubackSeen, UnsubscribeSeen;
    hide ConnectFits, PublishFits, PathsFit, UnsubscribeFits, OnWire;
    match m
    case MConnect(c) => ConnectRoundTrip(c, rest, spare);
    case MConnack(c) => assert ([c.reserved, c.returnCode] + rest)[1..][1..] == rest;
    case MPublish(p) => PublishBodyRoundTrip(p, rest);
    case MAck(a) => TakeU16OfU16(a.packetId, rest, 0);
    case MSubscribe(s) => SubscribeBodyRoundTrip(s, rest);
    case MSuback(s) => SubackBodyRoundTrip(s, rest);
    case MUnsubscribe(u) => UnsubscribeBodyRoundTrip(u, rest);
  }

  lemma ConnectRoundTrip(c: Connect, rest: bytes, spare: nat)
    ensures var t := DecodeConnect(ConnectSeen(c).header, ConnectBody(c) + rest, spare);
            && (t == Took(Decoded(ConnectSeen(c)), rest) <==> ConnectFits(c))
            && (t.value == Decoded(ConnectSeen(c)) && !ConnectFits(c) ==> t.rest != [] && t.rest[0] <= 1)
  {
    hide DecodeConnect, ConnectSeen, ConnectBody, ConnectFits;
    ConnectBodyRoundTrip(c, rest, spare);
    var t := DecodeConnect(ConnectSeen(c).header, ConnectBody(c) + rest, spare);
    if t.value == Decoded(ConnectSeen(c)) && !ConnectFits(c) {
      EmptyIdentifierLeaves(c, rest, spare);
    }
  }

  lemma DecodeBodyShortens(kind: Kind, h: Header, s: bytes, spare: nat)
    ensures |DecodeBody(kind, h, s, spare).rest| <= |s|
  {
    hide ConnectOf, PublishOf, TakeFilters, TakeTopics, TakeCodes, Rounds;
    var rest := TakeU16(s, 0).rest;
    TakeFiltersShortens(rest, h.remainingLength - 2);
    TakeTopicsShortens(rest, h.remainingLength - 2);
    TakeCodesShortens(rest, Rounds(0, (h.remainingLength - 2) % 0x100));
  }

  /** Without a length byte, the next byte of the stream is taken for one. */
  lemma BareRoundTrip(b: Bare, rest: bytes, maxLen: int, spare: nat)
    ensures ParseOne(Encode(MBare(b)) + rest, maxLen, spare) == Took(Decoded(Seen(MBare(b))), rest) <==> rest == []
    ensures ParseOne(Encode(MBare(b)) + rest, maxLen, spare).value == Decoded(Seen(MBare(b))) ==>
              TakeVarint(rest).value == Some(0)
  {
    hide DecodeConnect, DecodePublish, DecodeSubscribe, DecodeSuback, DecodeUnsubscribe, FirstByte, HeaderOf, KindOf;
    var kind := BareType(b.kind);
    var first := FirstByte(kind, b.header);
    var s := Encode(MBare(b)) + rest;
    assert s == [first] + rest && s[1..] == rest;
    TakeVarintShortens(rest);
    FirstByteRoundTrip(kind, b.header, 0);
    var length := TakeVarint(rest);
    if length.value.Some? {
      FirstByteRoundTrip(kind, b.header, length.value.value);
      DecodeBodyShortens(kind, HeaderOf(first, length.value.value), length.rest, spare);
    }
  }

  lemma BareFits(m: Message)
    requires m.MBare?
    ensures SizeOf(m) == 0 && BodyFits(m)
  {
  }

  /** A written message is read back as far as the wire carries it, with the rest of the stream
      left for the next one, exactly when it fits. */
  lemma MessageRoundTrip(m: Message, rest: bytes, maxLen: int, spare: nat)
    ensures ParseOne(Encode(m) + rest, maxLen, spare) == Took(Decoded(Seen(m)), rest) <==> Fits(m, rest, maxLen)
    ensures var t := ParseOne(Encode(m) + rest, maxLen, spare);
            t.value == Decoded(Seen(m)) && !Fits(m, rest, maxLen) ==>
              if m.MBare? then TakeVarint(rest).value == Some(0) else t.rest != [] && t.rest[0] <= 1
  {
    hide Encode, DecodeBody, TakeHeader, HeaderBytes, Seen, BodyFits, BodyOf;
    if m.MBare? {
      BareRoundTrip(m.bare, rest, maxLen, spare);
      BareFits(m);
    } else {
      EncodeParts(m);
      BodyRoundTrip(m, rest, spare);
      var h := HeaderBytes(TypeOf(m), HeaderIn(m), SizeOf(m));
      assert Encode(m) + rest == h + (BodyOf(m) + rest);
      HeaderRoundTrip(TypeOf(m), HeaderIn(m), SizeOf(m), BodyOf(m) + rest);
    }
  }

  // ----- The types as numbers -----

  function TypeNumber(m: Message): int
  {
    match m
    case MConnect(_) => 1
    case MConnack(_) => 2
    case MPublish(_) => 3
    case MAck(Ack(Puback, _, _)) => 4
    case MAck(Ack(Pubrec, _, _)) => 5
    case MAck(Ack(Pubrel, _, _)) => 6
    case MAck(Ack(Pubcomp, _, _)) => 7
    case MSubscribe(_) => 8
    case MSuback(_) => 9
    case MUnsubscribe(_) => 10
    case MAck(Ack(Unsuback, _, _)) => 11
    case MBare(Bare(Pingreq, _)) => 12
    case MBare(Bare(Pingresp, _)) => 13
    case MBare(Bare(Disconnect, _)) => 14
  }

  lemma TypeNumberIs(m: Message)
    ensures TypeOf(m) as int == TypeNumber(m)
  {
  }

  /** The first byte written for each kind of message: its number above the flag bits. */
  lemma EncodeBegins(m: Message)
    ensures Encode(m) != []
    ensures var h := HeaderIn(m);
            Encode(m)[0] == 16 * TypeNumber(m) + (if h.dupe then 8 else 0)
                            + (if h.qosLevel == 2 then 4 else if h.qosLevel == 1 then 2 else 0)
                            + (if h.retain > 0 then 1 else 0)
  {
    hide Encode, FirstByte;
    EncodeParts(m);
    TypeNumberIs(m);
    FirstByteIs(TypeOf(m), HeaderIn(m));
  }

  /** The header that any stream begins with, by the bits of its first byte. */
  function HeaderRead(first: byte, length: int): Header
  {
    Header(first / 8 % 2 == 1, if first / 4 % 2 == 1 then 2 else if first / 2 % 2 == 1 then 1 else 0, first % 2, length)
  }

  /** What Parse makes of any stream, whoever wrote it, by the upper half of its first byte: there is no
      message of type 0 or 15, a CONNECT and a PUBLISH are left to their decoders, and every other
      message is accepted. */
  lemma ParseDispatches(s: bytes, maxLen: int, spare: nat)
    requires s != [] && TakeVarint(s[1..]).value.Some?
    ensures var b, n := s[0] / 16, TakeVarint(s[1..]);
            var h := HeaderRead(s[0], n.value.value);
            var t := ParseOne(s, maxLen, spare);
            if maxLen > 0 && n.value.value > maxLen then t == Took(Rejected, n.rest)
            else if b == 0 || b == 15 then t == Took(Rejected, n.rest)
            else if b == 1 then t == Wrap(DecodeConnect(h, n.rest, spare), c => MConnect(c))
            else if b == 3 then t == Wrap(DecodePublish(h, n.rest), p => MPublish(p))
            else
              && t.value.Decoded? && TypeNumber(t.value.value) == b && HeaderIn(t.value.value) == h
              && (b == 8 ==> var d := DecodeSubscribe(h, n.rest); t == Took(Decoded(MSubscribe(d.value)), d.rest))
              && (b == 9 ==> var d := DecodeSuback(h, n.rest); t == Took(Decoded(MSuback(d.value)), d.rest))
              && (b == 10 ==> var d := DecodeUnsubscribe(h, n.rest); t == Took(Decoded(MUnsubscribe(d.value)), d.rest))
              && (b >= 12 ==> t.rest == n.rest)
  {
    hide DecodeConnect, DecodePublish, TakeVarint, TakeHeader, TakeFilters, TakeTopics, TakeCodes, Rounds, TakeU16;
    HeaderReads(s);
  }

  /** The same for a stream whose length cannot be read. */
  lemma ParseWithoutLength(s: bytes, maxLen: int, spare: nat)
    requires s == [] || TakeVarint(s[1..]).value.None?
    ensures ParseOne(s, maxLen, spare).value == Rejected
  {
  }

  /** The messages of fixed size, byte for byte. */
  lemma AckOnWire(a: Ack, high: byte, low: byte)
    requires a.packetId == 256 * high + low
    ensures Encode(MAck(a)) == [Encode(MAck(a))[0], 2, high, low]
  {
    EncodeBegins(MAck(a));
    BigEndian(high, low, [], 0);
  }

  lemma ConnackOnWire(c: Connack)
    ensures Encode(MConnack(c)) == [Encode(MConnack(c))[0], 2, c.reserved, c.returnCode]
  {
  }

  /** A message of fixed size on any stream. */
  lemma ConnackRead(s: bytes, maxLen: int, spare: nat)
    requires |s| >= 4 && s[0] / 16 == 2 && s[1] == 2 && (maxLen <= 0 || 2 <= maxLen)
    ensures ParseOne(s, maxLen, spare) == Took(Decoded(MConnack(Connack(HeaderRead(s[0], 2), s[2], s[3]))), s[4..])
  {
    hide DecodeConnect, DecodePublish, TakeHeader, TakeFilters, TakeTopics, TakeCodes, Rounds, TakeU16;
    assert TakeVarint(s[1..]) == Took(Some(2), s[2..]);
    hide TakeVarint;
    HeaderReads(s);
    ParseDispatches(s, maxLen, spare);
  }

  lemma AckRead(s: bytes, maxLen: int, spare: nat)
    requires |s| >= 4 && s[1] == 2 && (maxLen <= 0 || 2 <= maxLen)
    requires 4 <= s[0] / 16 <= 7 || s[0] / 16 == 11
    ensures var t := ParseOne(s, maxLen, spare);
            t.value.Decoded? && t.value.value.MAck? && t.rest == s[4..] &&
            t.value.value.ack.packetId == 256 * (s[2] as int) + s[3] as int
  {
    hide DecodeConnect, DecodePublish, TakeHeader, TakeFilters, TakeTopics, TakeCodes, Rounds;
    assert TakeVarint(s[1..]) == Took(Some(2), s[2..]);
    hide TakeVarint;
    HeaderReads(s);
    ParseDispatches(s, maxLen, spare);
    assert s[2..] == [s[2], s[3]] + s[4..];
    BigEndian(s[2], s[3], s[4..], 0);
  }

  // ----- Streams -----

  function EncodeAll(ms: seq<Message>): bytes
  {
    if ms == [] then [] else Encode(ms[0]) + EncodeAll(ms[1..])
  }

  lemma ParseOneShortens(s: bytes, maxLen: int, spare: nat)
    requires s != []
    ensures |ParseOne(s, maxLen, spare).rest| < |s|
  {
    hide DecodeBody;
    TakeVarintShortens(s[1..]);
    var h := TakeHeader(s);
    if h.value.Some? {
      DecodeBodyShortens(h.value.value.0, h.value.value.1, h.rest, spare);
    }
  }

  /** The messages of a stream, unless something on it cannot be read. `spares` gives the spare
      capacity for each message, named by how much of the stream is left. */
  function ParseAll(s: bytes, maxLen: int, spares: nat -> nat): Option<seq<Message>>
    decreases |s|
  {
    if s == [] then Some([])
    else
      ParseOneShortens(s, maxLen, spares(|s|));
      var t := ParseOne(s, maxLen, spares(|s|));
      if !t.value.Decoded? then None
      else match ParseAll(t.rest, maxLen, spares)
        case None => None
        case Some(ms) => Some([t.value.value] + ms)
  }

  function SeenAll(ms: seq<Message>): seq<Message>
  {
    seq(|ms|, i requires 0 <= i < |ms| => Seen(ms[i]))
  }

  /** Each message fits in front of those that follow it. */
  predicate AllFit(ms: seq<Message>, maxLen: int)
  {
    forall i :: 0 <= i < |ms| ==> Fits(ms[i], EncodeAll(ms[i + 1..]), maxLen)
  }

  lemma AllFitStep(ms: seq<Message>, maxLen: int)
    requires ms != []
    ensures AllFit(ms, maxLen) <==> Fits(ms[0], EncodeAll(ms[1..]), maxLen) && AllFit(ms[1..], maxLen)
  {
    hide Fits, EncodeAll;
    var tail := ms[1..];
    assert forall i :: 0 <= i < |tail| ==> tail[i] == ms[i + 1] && tail[i + 1..] == ms[i + 2..];
    if Fits(ms[0], EncodeAll(ms[1..]), maxLen) && AllFit(tail, maxLen) {
      forall i | 0 <= i < |ms| ensures Fits(ms[i], EncodeAll(ms[i + 1..]), maxLen) {
        if i > 0 {
          assert tail[i - 1] == ms[i] && tail[i - 1 + 1..] == ms[i + 1..];
        }
      }
    }
    if AllFit(ms, maxLen) {
      forall i | 0 <= i < |tail| ensures Fits(tail[i], EncodeAll(tail[i + 1..]), maxLen) {
        assert Fits(ms[i + 1], EncodeAll(ms[i + 1 + 1..]), maxLen);
      }
    }
  }

  lemma EncodeNotEmpty(m: Message)
    ensures Encode(m) != []
  {
    EncodeParts(m);
  }

  /** Nothing on a stream that begins with 0 or 1 can be read: there is no message type 0. */
  lemma NoTypeZero(s: bytes, maxLen: int, spare: nat)
    requires s != [] && s[0] <= 1
    ensures ParseOne(s, maxLen, spare).value == Rejected
  {
    assert s[0] == 0 || s[0] == 1;
    assert KindOf(0) == 0 && KindOf(1) == 0;
  }

  /** The first byte is neither 0 nor, without a length byte behind it, 0x80. */
  lemma FirstByteIsType(m: Message)
    ensures var first := FirstByte(TypeOf(m), HeaderIn(m));
            first != 0 && (first == 0x80 ==> SizeOf(m) > 0)
  {
    hide FirstByte;
    FirstByteRoundTrip(TypeOf(m), HeaderIn(m), 0);
    assert KindOf(0) == 0 && KindOf(0x80) == SUBSCRIBE;
    EncodeParts(m);
  }

  /** A message does not begin like a length of 0. */
  lemma NoZeroLength(m: Message, rest: bytes)
    ensures TakeVarint(Encode(m) + rest).value != Some(0)
  {
    hide *;
    var first := FirstByte(TypeOf(m), HeaderIn(m));
    EncodeParts(m);
    FirstByteIsType(m);
    HeaderParts(TypeOf(m), HeaderIn(m), SizeOf(m));
    assert Encode(m) + rest == [first] + (Varint(SizeOf(m), 4) + (BodyOf(m) + rest));
    NotZero(first, SizeOf(m), BodyOf(m) + rest);
  }

  lemma HeaderParts(kind: Kind, h: Header, length: int)
    ensures HeaderBytes(kind, h, length) == [FirstByte(kind, h)] + Varint(length, 4)
  {
  }

  /** Written one after the other, messages are read back as the same list exactly when each of
      them fits; and then every byte is consumed. */
  lemma {:induction false} StreamRoundTrip(ms: seq<Message>, maxLen: int, spares: nat -> nat)
    ensures ParseAll(EncodeAll(ms), maxLen, spares) == Some(SeenAll(ms)) <==> AllFit(ms, maxLen)
  {
    hide ParseOne, Encode, Fits, Seen, AllFit;
    if ms == [] {
      assert SeenAll(ms) == [] && AllFit(ms, maxLen) by { NothingFits(maxLen); }
    } else {
      var s, rest := EncodeAll(ms), EncodeAll(ms[1..]);
      EncodeNotEmpty(ms[0]);
      AllFitStep(ms, maxLen);
      StreamRoundTrip(ms[1..], maxLen, spares);
      MessageRoundTrip(ms[0], rest, maxLen, spares(|s|));
      assert SeenAll(ms) == [Seen(ms[0])] + SeenAll(ms[1..]);
      if !Fits(ms[0], rest, maxLen) {
        MisfitIsNoticed(ms, maxLen, spares);
      } else if ParseAll(rest, maxLen, spares).Some? {
        var found := ParseAll(rest, maxLen, spares).value;
        assert ([Seen(ms[0])] + found)[1..] == found && SeenAll(ms)[1..] == SeenAll(ms[1..]);
      }
    }
  }

  lemma NothingFits(maxLen: int)
    ensures AllFit([], maxLen)
  {
  }

  lemma MisfitIsNoticed(ms: seq<Message>, maxLen: int, spares: nat -> nat)
    requires ms != [] && !Fits(ms[0], EncodeAll(ms[1..]), maxLen)
    ensures ParseAll(EncodeAll(ms), maxLen, spares) != Some(SeenAll(ms))
  {
    hide ParseOne, Encode, Seen;
    var s, rest := EncodeAll(ms), EncodeAll(ms[1..]);
    EncodeNotEmpty(ms[0]);
    MessageRoundTrip(ms[0], rest, maxLen, spares(|s|));
    var t := ParseOne(s, maxLen, spares(|s|));
    assert SeenAll(ms)[0] == Seen(ms[0]);
    if t.value == Decoded(Seen(ms[0])) {
      if ms[0].MBare? {
        MisfitIsFollowed(ms[0], rest, maxLen);
        NoZeroLength(ms[1], EncodeAll(ms[1..][1..]));
        assert false;
      } else {
        NoTypeZero(t.rest, maxLen, spares(|t.rest|));
      }
    }
  }

  lemma MisfitIsFollowed(m: Message, rest: bytes, maxLen: int)
    requires m.MBare? && !Fits(m, rest, maxLen)
    ensures rest != []
  {
  }
}
