/** The fixed header (section 2.2 of MQTT Version 3.1.1). */
module FixedHeaders {
  import opened Bytes
  import opened Messages
  import opened Wire

  type Kind = k: bv8 | k < 0x10

  const CONNECT: Kind := 1
  const CONNACK: Kind := 2
  const PUBLISH: Kind := 3
  const PUBACK: Kind := 4
  const PUBREC: Kind := 5
  const PUBREL: Kind := 6
  const PUBCOMP: Kind := 7
  const SUBSCRIBE: Kind := 8
  const SUBACK: Kind := 9
  const UNSUBSCRIBE: Kind := 10
  const UNSUBACK: Kind := 11
  const PINGREQ: Kind := 12
  const PINGRESP: Kind := 13
  const DISCONNECT: Kind := 14

  /** The first byte: the type above four flag bits. */
  function FirstBits(kind: bv8, dupe: bool, qosLevel: int, retain: bool): bv8
  {
    var flag := kind << 4;
    var flag := if retain then flag | 0x01 else flag;
    var flag := if qosLevel == 1 then flag | 0x02 else if qosLevel == 2 then flag | 0x04 else flag;
    if dupe then flag | 0x08 else flag
  }

  function FirstByte(kind: Kind, h: Header): byte
  {
    FirstBits(kind, h.dupe, h.qosLevel, h.retain > 0) as int
  }

  function HeaderBytes(kind: Kind, h: Header, length: int): bytes
  {
    [FirstByte(kind, h)] + Varint(length, 4)
  }

  function KindOf(first: byte): Kind
  {
    first as bv8 >> 4
  }

  function HeaderOf(first: byte, length: int): Header
  {
    var flag := first as bv8 & 0x0f;
    Header(flag & 0x08 > 0, if flag & 0x04 > 0 then 2 else if flag & 0x02 > 0 then 1 else 0,
           if flag & 0x01 > 0 then 1 else 0, length)
  }

  /** What is left of a header on the wire: a QoS of 1 or 2, and whether to retain. */
  function OnWire(h: Header, length: int): Header
  {
    Header(h.dupe, if h.qosLevel == 1 || h.qosLevel == 2 then h.qosLevel else 0, if h.retain > 0 then 1 else 0, length)
  }

  lemma BitsRoundTrip(kind: bv8, dupe: bool, qosLevel: int, retain: bool)
    requires kind < 0x10
    ensures var b := FirstBits(kind, dupe, qosLevel, retain);
            && b >> 4 == kind
            && (b & 0x0f & 0x08 > 0) == dupe && (b & 0x0f & 0x01 > 0) == retain
            && (b & 0x0f & 0x04 > 0) == (qosLevel == 2) && (b & 0x0f & 0x02 > 0) == (qosLevel == 1)
  {
  }

  lemma ByteOfBits(b: bv8)
    ensures (b as int) as bv8 == b
  {
  }

  lemma FirstByteRoundTrip(kind: Kind, h: Header, length: int)
    ensures KindOf(FirstByte(kind, h)) == kind
    ensures HeaderOf(FirstByte(kind, h), length) == OnWire(h, length)
  {
    ByteOfBits(FirstBits(kind, h.dupe, h.qosLevel, h.retain > 0));
    BitsRoundTrip(kind, h.dupe, h.qosLevel, h.retain > 0);
  }

  method WriteHeader(kind: Kind, h: Header, length: int, w: Writer)
    modifies w
    ensures w.out == old(w.out) + HeaderBytes(kind, h, length)
  {
    var flag: bv8 := kind << 4;
    if h.retain > 0 {
      flag := flag | 0x01;
    }
    if h.qosLevel > 0 {
      if h.qosLevel == 1 {
        flag := flag | 0x02;
      } else if h.qosLevel == 2 {
        flag := flag | 0x04;
      }
    }
    if h.dupe {
      flag := flag | 0x08;
    }
    assert flag == FirstBits(kind, h.dupe, h.qosLevel, h.retain > 0);
    w.WriteByte(flag as int);
    var _ := WriteVarint(w, length);
  }

  /** The type and the header, unless the stream is empty or the length overflows. */
  function TakeHeader(s: bytes): Took<Option<(Kind, Header)>>
  {
    if s == [] then Took(None, [])
    else
      var t := TakeVarint(s[1..]);
      match t.value
      case None => Took(None, t.rest)
      case Some(n) => Took(Some((KindOf(s[0]), HeaderOf(s[0], n))), t.rest)
  }

  method ReadHeader(r: Reader) returns (h: Option<(Kind, Header)>)
    modifies r
    ensures Took(h, r.input) == TakeHeader(old(r.input))
  {
    if |r.input| == 0 {
      return None;
    }
    var first := r.ReadByte(0);
    var mt := first as bv8 >> 4;
    var flag := first as bv8 & 0x0f;
    var length := ReadVarint(r);
    if length.None? {
      return None;
    }
    var retain, qosLevel := 0, 0;
    if flag & 0x01 > 0 {
      retain := 1;
    }
    if flag & 0x04 > 0 {
      qosLevel := 2;
    } else if flag & 0x02 > 0 {
      qosLevel := 1;
    }
    return Some((mt, Header(flag & 0x08 > 0, qosLevel, retain, length.value)));
  }

  lemma {:induction false} BitsOfByte(b: byte)
    ensures (b as bv8) as int == b
  {
    if b > 0 {
      BitsOfByte(b - 1);
      var x := (b - 1) as bv8;
      assert (x + 1) as int == b;
      assert b as bv8 == x + 1;
    }
  }

  lemma ShiftDivides(x: bv8)
    ensures (x >> 4) as int == x as int / 16
  {
  }

  lemma TypeBits(b: byte)
    ensures KindOf(b) as int == b / 16
  {
    BitsOfByte(b);
    ShiftDivides(b as bv8);
  }

  lemma FlagBits(b: byte)
    ensures ((b as bv8 & 0x0f) & 0x08 > 0) <==> b / 8 % 2 == 1
    ensures ((b as bv8 & 0x0f) & 0x04 > 0) <==> b / 4 % 2 == 1
    ensures ((b as bv8 & 0x0f) & 0x02 > 0) <==> b / 2 % 2 == 1
    ensures ((b as bv8 & 0x0f) & 0x01 > 0) <==> b % 2 == 1
  {
  }

  /** What is read off the first byte of any stream, whoever wrote it: the type from its upper half,
      bit 3 for dupe, bit 2 for QoS 2, else bit 1 for QoS 1, and bit 0 for retain. */
  lemma HeaderReads(s: bytes)
    requires s != [] && TakeVarint(s[1..]).value.Some?
    ensures var b, n := s[0], TakeVarint(s[1..]);
            var t := TakeHeader(s);
            && t.rest == n.rest && t.value.Some? && t.value.value.0 as int == b / 16
            && t.value.value.1 == Header(b / 8 % 2 == 1, if b / 4 % 2 == 1 then 2 else if b / 2 % 2 == 1 then 1 else 0,
                                         b % 2, n.value.value)
  {
    TypeBits(s[0]);
    FlagBits(s[0]);
    hide TakeVarint;
  }

  lemma FirstByteBits(kind: Kind, h: Header)
    ensures var b := FirstByte(kind, h);
            && b / 16 == kind as int && (b / 8 % 2 == 1 <==> h.dupe) && (b / 4 % 2 == 1 <==> h.qosLevel == 2)
            && (b / 2 % 2 == 1 <==> h.qosLevel == 1) && (b % 2 == 1 <==> h.retain > 0)
  {
    var b, bits := FirstByte(kind, h), FirstBits(kind, h.dupe, h.qosLevel, h.retain > 0);
    ByteOfBits(bits);
    BitsRoundTrip(kind, h.dupe, h.qosLevel, h.retain > 0);
    hide FirstBits;
    TypeBits(b);
    FlagBits(b);
  }

  /** The first byte that is written, as a number. */
  lemma FirstByteIs(kind: Kind, h: Header)
    ensures FirstByte(kind, h) == 16 * (kind as int) + (if h.dupe then 8 else 0)
                                  + (if h.qosLevel == 2 then 4 else if h.qosLevel == 1 then 2 else 0)
                                  + (if h.retain > 0 then 1 else 0)
  {
    hide *;
    var b := FirstByte(kind, h);
    FirstByteBits(kind, h);
    Digits(b);
  }

  lemma Digits(b: byte)
    ensures b == 16 * (b / 16) + 8 * (b / 8 % 2) + 4 * (b / 4 % 2) + 2 * (b / 2 % 2) + b % 2
  {
    Halves(b, 1);
    Halves(b, 2);
    Halves(b, 4);
    Halves(b, 8);
  }

  lemma Halves(b: nat, n: nat)
    requires n == 1 || n == 2 || n == 4 || n == 8
    ensures b / n == 2 * (b / (2 * n)) + b / n % 2
  {
    assert b / (2 * n) == b / n / 2;
  }

  /** A written header is read back as far as the wire carries it, exactly when its length is. */
  lemma HeaderRoundTrip(kind: Kind, h: Header, length: nat, rest: bytes)
    ensures 0 < length < 0x20_0000 ==>
              TakeHeader(HeaderBytes(kind, h, length) + rest) == Took(Some((kind, OnWire(h, length))), rest)
    ensures length >= 0x20_0000 ==> TakeHeader(HeaderBytes(kind, h, length) + rest).value.None?
  {
    var s := HeaderBytes(kind, h, length) + rest;
    assert s[1..] == Varint(length, 4) + rest;
    VarintRoundTrip(length, rest);
    FirstByteRoundTrip(kind, h, length);
  }
}
