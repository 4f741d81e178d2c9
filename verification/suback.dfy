/** The SUBACK message on the wire (section 3.9 of MQTT Version 3.1.1). The decoder's loop lowers
    its own bound, in eight bits. */
module SubackCodec {
  import opened Bytes
  import opened Messages
  import opened Wire
  import opened FixedHeaders

  function SubackSize(m: Suback): nat { 2 + |m.qos| }

  function SubackBody(m: Suback): bytes { U16(m.packetId) + m.qos }

  function EncodeSuback(m: Suback): bytes
  {
    HeaderBytes(SUBACK, m.header, SubackSize(m)) + SubackBody(m)
  }

  /** n bytes; past the end of the stream they are 0. */
  function TakeCodes(s: bytes, n: nat): Took<seq<byte>>
  {
    if n == 0 then Took([], s)
    else
      var b := TakeByte(s, 0);
      var more := TakeCodes(b.rest, n - 1);
      Took([b.value] + more.value, more.rest)
  }

  /** The 8-bit decrement. */
  function Down(b: byte): byte { if b == 0 then 0xFF else b - 1 }

  /** How many rounds are left with counter i and bound `remaining`. */
  function Rounds(i: nat, remaining: byte): nat
    decreases 0x100 - i
  {
    if i <= remaining then 1 + Rounds(i + 1, Down(remaining)) else 0
  }

  function DecodeSuback(h: Header, s: bytes): Took<Suback>
  {
    var id := TakeU16(s, 0);
    var codes := TakeCodes(id.rest, Rounds(0, (h.remainingLength - 2) % 0x100));
    Took(Suback(h, id.value, codes.value), codes.rest)
  }

  class SubackPacket {
    var header: Header
    var packetId: u16
    var qos: seq<byte>

    function View(): Suback
      reads this
    {
      Suback(header, packetId, qos)
    }

    constructor (h: Header)
      ensures View() == Suback(h, 0, [])
    {
      header, packetId, qos := h, 0, [];
    }

    constructor Of(m: Suback)
      ensures View() == m
    {
      header, packetId, qos := m.header, m.packetId, m.qos;
    }

    method WriteTo(w: Writer)
      modifies w
      ensures w.out == old(w.out) + EncodeSuback(View())
    {
      WriteHeader(SUBACK, header, 2 + |qos|, w);
      w.WriteU16(packetId);
      w.Write(qos);
    }

    method Decode(r: Reader)
      requires View() == Suback(header, 0, [])
      modifies this, r
      ensures Took(View(), r.input) == DecodeSuback(old(header), old(r.input))
    {
      var remaining: byte := header.remainingLength % 0x100;
      packetId := r.ReadU16(packetId);
      remaining := Down(Down(remaining));
      assert remaining == (header.remainingLength - 2) % 0x100;
      qos := ReadCodes(r, remaining);
    }
  }

  method ReadCodes(r: Reader, bound: byte) returns (buffer: seq<byte>)
    modifies r
    ensures Took(buffer, r.input) == TakeCodes(old(r.input), Rounds(0, bound))
  {
    var remaining := bound;
    ghost var all := TakeCodes(r.input, Rounds(0, remaining));
    buffer := [];
    var i: int := 0;
    while i <= remaining
      invariant 0 <= i <= 0x100
      invariant TakeCodes(r.input, Rounds(i, remaining)).rest == all.rest
      invariant buffer + TakeCodes(r.input, Rounds(i, remaining)).value == all.value
      decreases 0x100 - i
    {
      var value := r.ReadByte(0);
      buffer := buffer + [value];
      remaining := Down(remaining);
      i := i + 1;
    }
    assert buffer + [] == buffer;
  }

  /** Counter and bound meet half-way. */
  lemma {:induction false} RoundsMeet(i: nat, remaining: byte)
    requires 0 < i || 0 < remaining
    ensures Rounds(i, remaining) == if i <= remaining then (remaining - i) / 2 + 1 else 0
    decreases 0x100 - i
  {
    if i <= remaining {
      RoundsMeet(i + 1, remaining - 1);
    }
  }

  /** With n codes announced the decoder reads n/2 + 1 of them, modulo 256; with none it wraps
      around and reads 129. */
  lemma RoundsForCodes(n: byte)
    ensures Rounds(0, n) == if n == 0 then 129 else n / 2 + 1
  {
    if n == 0 {
      RoundsMeet(n + 1, Down(n));
    } else {
      RoundsMeet(0, n);
    }
  }

  function SubackSeen(m: Suback): Suback
  {
    m.(header := OnWire(m.header, SubackSize(m)))
  }

  lemma {:induction false} TakeCodesLength(s: bytes, n: nat)
    ensures |TakeCodes(s, n).value| == n
    ensures n <= |s| ==> TakeCodes(s, n) == Took(s[..n], s[n..])
  {
    if n > 0 {
      TakeCodesLength(TakeByte(s, 0).rest, n - 1);
      assert n <= |s| ==> s[..n] == [s[0]] + s[1..][..n - 1] && s[1..][n - 1..] == s[n..];
    }
  }

  lemma {:induction false} TakeCodesShortens(s: bytes, n: nat)
    ensures |TakeCodes(s, n).rest| <= |s|
  {
    if n > 0 {
      TakeCodesShortens(TakeByte(s, 0).rest, n - 1);
    }
  }

  /** Which bytes of any stream that is long enough are read as the codes, for up to 255 announced. */
  lemma SubackReads(h: Header, s: bytes)
    requires 2 <= h.remainingLength < 0x102
    requires |s| >= 2 + if h.remainingLength == 2 then 129 else (h.remainingLength - 2) / 2 + 1
    ensures var r := if h.remainingLength == 2 then 129 else (h.remainingLength - 2) / 2 + 1;
            DecodeSuback(h, s) == Took(Suback(h, 256 * (s[0] as int) + s[1] as int, s[2..2 + r]), s[2 + r..])
  {
    hide Rounds, TakeCodes;
    var n := h.remainingLength - 2;
    RoundsForCodes(n);
    TakeCodesLength(s[2..], Rounds(0, n));
    assert s[2..][..Rounds(0, n)] == s[2..2 + Rounds(0, n)] && s[2..][Rounds(0, n)..] == s[2 + Rounds(0, n)..];
  }

  lemma RoundsExact(n: nat)
    ensures Rounds(0, n % 0x100) == n <==> n == 1 || n == 2
  {
    RoundsForCodes(n % 0x100);
  }

  /** The body is read back exactly when it has one or two return codes. */
  lemma SubackBodyRoundTrip(m: Suback, rest: bytes)
    ensures var t := DecodeSuback(SubackSeen(m).header, SubackBody(m) + rest);
            && (t.value == SubackSeen(m) <==> |m.qos| == 1 || |m.qos| == 2)
            && (|m.qos| == 1 || |m.qos| == 2 ==> t.rest == rest)
  {
    hide Rounds, TakeCodes, TakeU16;
    var n := Rounds(0, |m.qos| % 0x100);
    RoundsExact(|m.qos|);
    assert SubackBody(m) + rest == U16(m.packetId) + (m.qos + rest);
    TakeU16OfU16(m.packetId, m.qos + rest, 0);
    TakeCodesLength(m.qos + rest, n);
    assert n == |m.qos| ==> (m.qos + rest)[..n] == m.qos && (m.qos + rest)[n..] == rest;
  }
}
