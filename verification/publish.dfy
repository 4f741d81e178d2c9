/** The PUBLISH message on the wire (section 3.3 of MQTT Version 3.1.1). */
module PublishCodec {
  import opened Bytes
  import opened Messages
  import opened Wire
  import opened FixedHeaders
  import opened Outcomes

  function PublishSize(p: Publish): nat
  {
    2 + Short(|p.topicName|) + (if p.header.qosLevel > 0 then 2 else 0) + |p.payload|
  }

  function PublishBody(p: Publish): bytes
  {
    Field(p.topicName) + (if p.header.qosLevel > 0 then U16(p.packetId) else []) + p.payload
  }

  function EncodePublish(p: Publish): bytes
  {
    HeaderBytes(PUBLISH, p.header, PublishSize(p)) + PublishBody(p)
  }

  /** Topic, packet identifier and payload out of the buffer; the payload offset is a 16-bit
      number. */
  function PublishOf(h: Header, length: u16, buffer: bytes): Outcome<Publish>
  {
    if length > |buffer| then Rejected
    else
      var offset := if h.qosLevel > 0 then Short(length + 2) else length;
      if offset > |buffer| then Overrun
      else Decoded(Publish(h, buffer[..length],
                           if h.qosLevel > 0 then TakeU16(buffer[length..], 0).value else 0,
                           buffer[offset..]))
  }

  function DecodePublish(h: Header, s: bytes): Took<Outcome<Publish>>
  {
    var t := TakeU16(s, 0);
    var remaining := h.remainingLength - 2;
    if remaining < 1 then Took(Rejected, t.rest)
    else if |t.rest| < remaining then Took(Rejected, [])
    else Took(PublishOf(h, t.value, t.rest[..remaining]), t.rest[remaining..])
  }

  class PublishPacket {
    var header: Header
    var topicName: bytes
    var packetId: u16
    var payload: bytes

    function View(): Publish
      reads this
    {
      Publish(header, topicName, packetId, payload)
    }

    constructor (h: Header)
      ensures View() == Publish(h, [], 0, [])
    {
      header, topicName, packetId, payload := h, [], 0, [];
    }

    constructor Of(p: Publish)
      ensures View() == p
    {
      header, topicName, packetId, payload := p.header, p.topicName, p.packetId, p.payload;
    }

    method WriteTo(w: Writer)
      modifies w
      ensures w.out == old(w.out) + EncodePublish(View())
    {
      hide HeaderBytes;
      var size: u16 := Short(|topicName|);
      var total := 2 + size;
      if header.qosLevel > 0 {
        total := total + 2;
      }
      total := total + |payload|;
      WriteHeader(PUBLISH, header, total, w);
      w.WriteU16(size);
      w.Write(topicName);
      if header.qosLevel > 0 {
        w.WriteU16(packetId);
      }
      w.Write(payload);
    }

    method Decode(r: Reader) returns (status: Status)
      requires View() == Publish(header, [], 0, [])
      modifies this, r
      ensures var d := DecodePublish(old(header), old(r.input));
              && r.input == d.rest
              && Agree(status, d.value)
              && (status.Done? ==> d.value == Decoded(View()))
    {
      var remaining := header.remainingLength;
      var length := r.ReadU16(0);
      remaining := remaining - 2;
      if remaining < 1 {
        return Failed;
      }
      var ok, buffer := ReadFull(r, remaining);
      if !ok {
        return Failed;
      }
      status := Fill(length, buffer);
    }

    /** Take the fields out of the buffer. */
    method Fill(length: u16, buffer: bytes) returns (status: Status)
      requires packetId == 0
      modifies this
      ensures var d := PublishOf(old(header), length, buffer);
              && Agree(status, d)
              && (status.Done? ==> d == Decoded(View()))
    {
      if length > |buffer| {
        return Failed;
      }
      topicName := buffer[..length];
      var payloadOffset := length;
      if header.qosLevel > 0 {
        var nr := new Reader(buffer[length..]);
        packetId := nr.ReadU16(packetId);
        payloadOffset := Short(payloadOffset + 2);
      }
      if payloadOffset > |buffer| {
        return OutOfBounds;
      }
      payload := buffer[payloadOffset..];
      return Done;
    }
  }

  /** What is read off any stream, whoever wrote it, with the four ways it ends: no room for anything
      but the length, a stream or a body that is too short, and an offset of the payload that has
      wrapped round or lies beyond the body. */
  lemma PublishReads(h: Header, s: bytes)
    requires |s| >= 2
    ensures var n, r := 256 * (s[0] as int) + s[1] as int, h.remainingLength - 2;
            var off := if h.qosLevel > 0 then (n + 2) % 0x1_0000 else n;
            DecodePublish(h, s) ==
            if r < 1 then Took(Rejected, s[2..])
            else if |s| - 2 < r then Took(Rejected, [])
            else if n > r then Took(Rejected, s[2 + r..])
            else if off > r then Took(Overrun, s[2 + r..])
            else
              Took(Decoded(Publish(h, s[2..2 + n],
                                   if h.qosLevel > 0 && n + 2 <= r then 256 * (s[2 + n] as int) + s[3 + n] as int
                                   else 0,
                                   s[2 + off..2 + r])), s[2 + r..])
  {
    var n, r := 256 * (s[0] as int) + s[1] as int, h.remainingLength - 2;
    hide PublishOf, DecodePublish;
    PublishSteps(h, s);
    if 1 <= r <= |s| - 2 {
      var buffer := s[2..][..r];
      PublishOfReads(h, n, buffer);
      Slices(s, r, n);
      Slices(s, r, if h.qosLevel > 0 then (n + 2) % 0x1_0000 else n);
    }
  }

  lemma PublishSteps(h: Header, s: bytes)
    requires |s| >= 2
    ensures var n, r := 256 * (s[0] as int) + s[1] as int, h.remainingLength - 2;
            DecodePublish(h, s) ==
            if r < 1 then Took(Rejected, s[2..])
            else if |s| - 2 < r then Took(Rejected, [])
            else Took(PublishOf(h, n, s[2..][..r]), s[2..][r..])
  {
    hide PublishOf;
  }

  /** The parts of a body, as parts of the stream. */
  lemma Slices(s: bytes, r: nat, k: nat)
    requires |s| >= 2 + r
    ensures s[2..][r..] == s[2 + r..]
    ensures k <= r ==> s[2..][..r][..k] == s[2..2 + k] && s[2..][..r][k..] == s[2 + k..2 + r]
    ensures k + 2 <= r ==> s[2..][..r][k] == s[2 + k] && s[2..][..r][k + 1] == s[3 + k]
  {
  }

  lemma PublishOfReads(h: Header, n: u16, buffer: bytes)
    ensures var off := if h.qosLevel > 0 then (n + 2) % 0x1_0000 else n;
            PublishOf(h, n, buffer) ==
            if n > |buffer| then Rejected
            else if off > |buffer| then Overrun
            else
              Decoded(Publish(h, buffer[..n],
                              if h.qosLevel > 0 && n + 2 <= |buffer|
                                  then 256 * (buffer[n] as int) + buffer[n + 1] as int
                              else 0,
                              buffer[off..]))
  {
  }

  /** Read until the buffer is full or the stream ends. */
  method ReadFull(r: Reader, n: nat) returns (ok: bool, buffer: bytes)
    modifies r
    ensures ok <==> n <= |old(r.input)|
    ensures ok ==> buffer == old(r.input)[..n] && r.input == old(r.input)[n..]
    ensures !ok ==> r.input == []
  {
    buffer := [];
    while |buffer| < n
      invariant |buffer| <= n && old(r.input) == buffer + r.input
      decreases n - |buffer|
    {
      var some := r.ReadSome(n - |buffer|);
      if some == [] {
        return false, buffer;
      }
      buffer := buffer + some;
    }
    return true, buffer;
  }

  /** What a reader can know of a message: the header as the wire carries it, and the packet
      identifier only above QoS 0. */
  function PublishSeen(p: Publish): Publish
  {
    p.(header := OnWire(p.header, PublishSize(p)), packetId := if p.header.qosLevel > 0 then p.packetId else 0)
  }

  predicate PublishFits(p: Publish)
  {
    && |p.topicName| < 0x1_0000
    && p.header.qosLevel <= 2
    && (p.header.qosLevel > 0 ==> |p.topicName| < 0xFFFE)
    && 3 <= PublishSize(p)
  }

  /** The buffer behind the topic length. */
  function PublishBuffer(p: Publish): bytes
  {
    p.topicName + (if p.header.qosLevel > 0 then U16(p.packetId) else []) + p.payload
  }

  lemma PublishBodyParts(p: Publish, rest: bytes)
    ensures TakeU16(PublishBody(p) + rest, 0) == Took(Short(|p.topicName|), PublishBuffer(p) + rest)
  {
    assert PublishBody(p) + rest == U16(Short(|p.topicName|)) + (PublishBuffer(p) + rest);
    TakeU16OfU16(Short(|p.topicName|), PublishBuffer(p) + rest, 0);
  }

  lemma PublishOfBuffer(p: Publish)
    requires |p.topicName| < 0x1_0000 && p.header.qosLevel <= 2
    requires p.header.qosLevel > 0 ==> |p.topicName| < 0xFFFE
    ensures PublishOf(PublishSeen(p).header, |p.topicName|, PublishBuffer(p)) == Decoded(PublishSeen(p))
  {
    var id := if p.header.qosLevel > 0 then U16(p.packetId) else [];
    var buffer := PublishBuffer(p);
    assert buffer[..|p.topicName|] == p.topicName;
    assert buffer[|p.topicName|..] == id + p.payload;
    assert buffer[|p.topicName| + |id|..] == p.payload;
    TakeU16OfU16(p.packetId, p.payload, 0);
  }

  /** A body whose topic fits the length prefix is read into a buffer of its own. */
  lemma PublishReadsBuffer(p: Publish, rest: bytes)
    requires |p.topicName| < 0x1_0000
    ensures DecodePublish(PublishSeen(p).header, PublishBody(p) + rest) ==
            if PublishSize(p) < 3 then Took(Rejected, PublishBuffer(p) + rest)
            else Took(PublishOf(PublishSeen(p).header, |p.topicName|, PublishBuffer(p)), rest)
  {
    PublishBodyParts(p, rest);
    hide PublishOf, PublishBody, TakeU16;
    var buffer := PublishBuffer(p);
    assert (buffer + rest)[..|buffer|] == buffer && (buffer + rest)[|buffer|..] == rest;
  }

  /** Beyond the limits on QoS and topic the payload comes out longer. */
  lemma PublishOfMisfit(p: Publish)
    requires |p.topicName| < 0x1_0000
    requires p.header.qosLevel > 2 || (p.header.qosLevel > 0 && |p.topicName| >= 0xFFFE)
    ensures PublishOf(PublishSeen(p).header, |p.topicName|, PublishBuffer(p)) != Decoded(PublishSeen(p))
  {
    hide TakeU16;
    var d := PublishOf(PublishSeen(p).header, |p.topicName|, PublishBuffer(p));
    assert d.Decoded? ==> |d.value.payload| > |p.payload|;
  }

  /** The body is read back exactly when the topic is short enough for its length prefix, and
      above QoS 0 for a 16-bit payload offset too, the QoS is at most 2, and at least one byte
      follows the prefix. */
  lemma PublishBodyRoundTrip(p: Publish, rest: bytes)
    ensures var t := DecodePublish(PublishSeen(p).header, PublishBody(p) + rest);
            (t.value == Decoded(PublishSeen(p)) <==> PublishFits(p)) && (PublishFits(p) ==> t.rest == rest)
  {
    hide PublishOf, PublishBody, PublishBuffer;
    if |p.topicName| < 0x1_0000 {
      PublishReadsBuffer(p, rest);
      if p.header.qosLevel <= 2 && (p.header.qosLevel > 0 ==> |p.topicName| < 0xFFFE) {
        PublishOfBuffer(p);
      } else {
        PublishOfMisfit(p);
      }
    } else {
      TakenTopicFits(PublishSeen(p).header, PublishBody(p) + rest);
    }
  }

  lemma TakenTopicFits(h: Header, s: bytes)
    ensures var d := DecodePublish(h, s).value; d.Decoded? ==> |d.value.topicName| < 0x1_0000
  {
  }
}
