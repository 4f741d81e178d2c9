/** Byte streams and the numbers on them: single bytes, big-endian 16-bit values, and the
    variable-length Remaining Length (section 2.2.3 of MQTT Version 3.1.1). */
module Wire {
  import opened Bytes

  // ----- What the readers take and the writers append -----

  /** A value and what is left of the stream. */
  datatype Took<+T> = Took(value: T, rest: bytes)

  /** The next byte; at the end of the stream the variable keeps its value. */
  function TakeByte(s: bytes, kept: byte): Took<byte>
  {
    if s == [] then Took(kept, []) else Took(s[0], s[1..])
  }

  /** The next big-endian value; a short stream is used up and the variable keeps its value. */
  function TakeU16(s: bytes, kept: u16): Took<u16>
  {
    if |s| < 2 then Took(kept, []) else Took(0x100 * (s[0] as int) + s[1], s[2..])
  }

  /** The next n bytes, or as many as there are. */
  function TakeN(s: bytes, n: nat): Took<bytes>
  {
    var k := if n <= |s| then n else |s|;
    Took(s[..k], s[k..])
  }

  function U16(v: u16): bytes { [v / 0x100, v % 0x100] }

  /** Go's uint16 conversion of a length. */
  function Short(n: nat): u16 { if n < 0x1_0000 then n else n % 0x1_0000 }

  /** A length prefix and the text. */
  function Field(s: bytes): bytes { U16(Short(|s|)) + s }

  lemma TakeU16OfU16(v: u16, rest: bytes, kept: u16)
    ensures TakeU16(U16(v) + rest, kept) == Took(v, rest)
  {
    assert (U16(v) + rest)[2..] == rest;
  }

  /** The byte order: the higher byte comes first. */
  lemma BigEndian(high: byte, low: byte, rest: bytes, kept: u16)
    ensures U16(256 * high + low) == [high, low]
    ensures TakeU16([high, low] + rest, kept) == Took(256 * high + low, rest)
  {
    assert ([high, low] + rest)[2..] == rest;
  }

  lemma TakeNOfN(s: bytes, rest: bytes)
    ensures TakeN(s + rest, |s|) == Took(s, rest)
  {
  }

  class Writer {
    var out: bytes

    constructor ()
      ensures out == []
    {
      out := [];
    }

    method WriteByte(b: byte)
      modifies this
      ensures out == old(out) + [b]
    {
      out := out + [b];
    }

    method WriteU16(v: u16)
      modifies this
      ensures out == old(out) + U16(v)
    {
      out := out + [v / 0x100];
      out := out + [v % 0x100];
    }

    method Write(s: bytes)
      modifies this
      ensures out == old(out) + s
    {
      out := out + s;
    }
  }

  class Reader {
    var input: bytes

    constructor (s: bytes)
      ensures input == s
    {
      input := s;
    }

    method ReadByte(kept: byte) returns (b: byte)
      modifies this
      ensures Took(b, input) == TakeByte(old(input), kept)
    {
      b := kept;
      if |input| > 0 {
        b, input := input[0], input[1..];
      }
    }

    method ReadU16(kept: u16) returns (v: u16)
      modifies this
      ensures Took(v, input) == TakeU16(old(input), kept)
    {
      v := kept;
      if |input| < 2 {
        input := [];
      } else {
        v, input := 0x100 * (input[0] as int) + input[1], input[2..];
      }
    }

    method CopyN(n: nat) returns (s: bytes)
      modifies this
      ensures Took(s, input) == TakeN(old(input), n)
    {
      var k := if n <= |input| then n else |input|;
      s, input := input[..k], input[k..];
    }

    /** One Read call: some of the bytes asked for, at least one unless the stream has ended. */
    method ReadSome(n: nat) returns (s: bytes)
      requires n > 0
      modifies this
      ensures old(input) == s + input && |s| <= n
      ensures s == [] ==> input == []
    {
      if |input| == 0 {
        return [];
      }
      var k :| 1 <= k <= n && k <= |input|;
      s, input := input[..k], input[k..];
    }
  }

  // ----- The Remaining Length -----

  /** At most `digits` base-128 digits of x, least significant first, each but the last marked
      with 0x80; none at all for 0. */
  function Varint(x: int, digits: nat): bytes
  {
    if x <= 0 || digits == 0 then []
    else [x % 0x80 + if x / 0x80 > 0 then 0x80 else 0] + Varint(x / 0x80, digits - 1)
  }

  /** The number that a string of such digits denotes. */
  function Denotes(s: bytes): nat
  {
    if s == [] then 0 else s[0] % 0x80 + 0x80 * Denotes(s[1..])
  }

  /** The reading loop from its i-th round on: `last` is the byte variable, `m` the weight of the
      next digit and `v` the sum so far. */
  function VarintFrom(s: bytes, last: byte, i: nat, m: int, v: int): Took<Option<int>>
    decreases 4 - i
  {
    if i >= 4 then Took(Some(v), s)
    else
      var t := TakeByte(s, last);
      if m * 0x80 > 0x20_0000 then Took(None, t.rest)
      else if t.value < 0x80 then Took(Some(v + t.value % 0x80 * m), t.rest)
      else VarintFrom(t.rest, t.value, i + 1, m * 0x80, v + t.value % 0x80 * m)
  }

  function TakeVarint(s: bytes): Took<Option<int>>
  {
    VarintFrom(s, 0, 0, 1, 0)
  }

  method WriteVarint(w: Writer, size: int) returns (n: nat)
    modifies w
    ensures w.out == old(w.out) + Varint(size, 4)
    ensures n == |Varint(size, 4)|
  {
    var x := size;
    var i := 0;
    while x > 0 && i < 4
      invariant 0 <= i <= 4
      invariant w.out + Varint(x, 4 - i) == old(w.out) + Varint(size, 4)
      invariant i + |Varint(x, 4 - i)| == |Varint(size, 4)|
    {
      var encodeByte := x % 0x80;
      ghost var more := Varint(x, 4 - i);
      x := x / 0x80;
      if x > 0 {
        encodeByte := encodeByte + 0x80;
      }
      assert more == [encodeByte] + Varint(x, 3 - i);
      w.WriteByte(encodeByte);
      i := i + 1;
    }
    return i;
  }

  method ReadVarint(r: Reader) returns (n: Option<int>)
    modifies r
    ensures Took(n, r.input) == TakeVarint(old(r.input))
  {
    var remainingLength: byte := 0;
    var m := 1;
    var v := 0;
    var i := 0;
    while i < 4
      invariant 0 <= i <= 4
      invariant VarintFrom(r.input, remainingLength, i, m, v) == TakeVarint(old(r.input))
    {
      remainingLength := r.ReadByte(remainingLength);
      v := v + remainingLength % 0x80 * m;
      m := m * 0x80;
      if m > 0x20_0000 {
        return None;
      }
      if remainingLength < 0x80 {
        return Some(v);
      }
      i := i + 1;
    }
    return Some(v);
  }

  /** What is read off any stream, whoever wrote it: up to three digits, the last of which is below
      0x80; a third digit that announces another one is an overflow, and so is a stream that ends
      before the last digit. */
  lemma VarintReads(s: bytes)
    ensures TakeVarint(s) ==
            if s == [] then Took(Some(0), [])
            else if s[0] < 0x80 then Took(Some(s[0] as int), s[1..])
            else if |s| >= 2 && s[1] < 0x80 then Took(Some((s[0] as int - 0x80) + 0x80 * (s[1] as int)), s[2..])
            else if |s| >= 3 && s[2] < 0x80 then
              Took(Some((s[0] as int - 0x80) + 0x80 * (s[1] as int - 0x80) + 0x4000 * (s[2] as int)), s[3..])
            else Took(None, if |s| >= 4 then s[4..] else [])
  {
  }

  /** The digits denote the number, up to four of them, and there are as few as possible. */
  lemma VarintDigits(x: nat)
    requires x < 0x1000_0000
    ensures Denotes(Varint(x, 4)) == x
    ensures |Varint(x, 4)| == if x == 0 then 0 else if x < 0x80 then 1 else if x < 0x4000 then 2
                              else if x < 0x20_0000 then 3 else 4
  {
    var x1, x2, x3 := x / 0x80, x / 0x80 / 0x80, x / 0x80 / 0x80 / 0x80;
    assert Varint(x3, 1) == if x3 == 0 then [] else [x3];
    assert Denotes(Varint(x3, 1)) == x3;
    assert Denotes(Varint(x2, 2)) == x2;
    assert Denotes(Varint(x1, 3)) == x1;
  }

  lemma ThirdDigit(x: nat, rest: bytes, last: byte, v: int)
    requires 0 < x < 0x80
    ensures VarintFrom(Varint(x, 2) + rest, last, 2, 0x4000, v) == Took(Some(v + x * 0x4000), rest)
  {
    assert Varint(x / 0x80, 1) == [];
    assert (Varint(x, 2) + rest)[1..] == rest;
  }

  lemma SecondDigit(x: nat, rest: bytes, last: byte, v: int)
    requires 0 < x < 0x4000
    ensures VarintFrom(Varint(x, 3) + rest, last, 1, 0x80, v) == Took(Some(v + x * 0x80), rest)
  {
    var s := Varint(x, 3) + rest;
    assert s[0] % 0x80 == x % 0x80;
    assert s[1..] == Varint(x / 0x80, 2) + rest;
    if x >= 0x80 {
      ThirdDigit(x / 0x80, rest, s[0], v + x % 0x80 * 0x80);
    }
  }

  /** Up to three digits are read back. */
  lemma ShortVarintRoundTrip(x: nat, rest: bytes)
    requires 0 < x < 0x20_0000
    ensures TakeVarint(Varint(x, 4) + rest) == Took(Some(x), rest)
  {
    var s := Varint(x, 4) + rest;
    assert s[0] % 0x80 == x % 0x80;
    assert s[1..] == Varint(x / 0x80, 3) + rest;
    if x >= 0x80 {
      SecondDigit(x / 0x80, rest, s[0], x % 0x80);
    }
  }

  /** Three digits that all announce another one end in an overflow. */
  lemma LongVarintOverflows(s: bytes)
    requires |s| >= 4 && s[0] >= 0x80 && s[1] >= 0x80 && s[2] >= 0x80
    ensures TakeVarint(s).value == None
  {
    var v1: int := s[0] % 0x80;
    var v2: int := v1 + (s[1] % 0x80) as int * 0x80;
    var v3: int := v2 + (s[2] % 0x80) as int * 0x4000;
    var s1, s2, s3 := s[1..], s[2..], s[3..];
    assert s1[1..] == s2 && s2[1..] == s3;
    assert VarintFrom(s3, s2[0], 3, 0x20_0000, v3).value == None;
    assert VarintFrom(s2, s1[0], 2, 0x4000, v2).value == None;
    assert VarintFrom(s1, s[0], 1, 0x80, v1).value == None;
  }

  /** A number comes back, with the rest of the stream untouched, exactly up to 2097151; 0 is
      written as nothing, so it only comes back at the end of the stream; everything larger is
      reported as an overflow. */
  lemma VarintRoundTrip(x: nat, rest: bytes)
    ensures TakeVarint(Varint(x, 4) + rest) == Took(Some(x), rest) <==>
            0 < x < 0x20_0000 || (x == 0 && rest == [])
    ensures x >= 0x20_0000 ==> TakeVarint(Varint(x, 4) + rest).value == None
  {
    if x == 0 {
      assert Varint(x, 4) + rest == rest;
      TakeVarintShortens(rest);
    } else if x < 0x20_0000 {
      ShortVarintRoundTrip(x, rest);
    } else {
      var s := Varint(x, 4);
      assert s[1..] == Varint(x / 0x80, 3) && s[1..][1..] == Varint(x / 0x80 / 0x80, 2);
      assert s[1..][1..][1..] == Varint(x / 0x80 / 0x80 / 0x80, 1);
      assert s == [s[0]] + ([s[1..][0]] + ([s[1..][1..][0]] + s[1..][1..][1..]));
      LongVarintOverflows(s + rest);
    }
  }

  lemma TakeVarintShortens(s: bytes)
    ensures |TakeVarint(s).rest| <= |s|
    ensures s != [] ==> |TakeVarint(s).rest| < |s|
  {
    VarintFromShortens(s, 0, 0, 1, 0);
  }

  lemma {:induction false} VarintFromShortens(s: bytes, last: byte, i: nat, m: int, v: int)
    ensures |VarintFrom(s, last, i, m, v).rest| <= |s|
    ensures i < 4 && s != [] ==> |VarintFrom(s, last, i, m, v).rest| < |s|
    decreases 4 - i
  {
    if i < 4 {
      var t := TakeByte(s, last);
      VarintFromShortens(t.rest, t.value, i + 1, m * 0x80, v + t.value % 0x80 * m);
    }
  }

  /** The sum only grows. */
  lemma {:induction false} VarintFromAtLeast(s: bytes, last: byte, i: nat, m: nat, v: int)
    ensures VarintFrom(s, last, i, m, v).value.Some? ==> VarintFrom(s, last, i, m, v).value.value >= v
    decreases 4 - i
  {
    if i < 4 {
      var t := TakeByte(s, last);
      VarintFromAtLeast(t.rest, t.value, i + 1, m * 0x80, v + t.value % 0x80 * m);
    }
  }

  /** The digits of a positive number, read one place too late, do not give 0. */
  lemma {:induction false} LateDigits(x: nat, rest: bytes, last: byte, i: nat, m: nat)
    requires x > 0 && ((i == 1 && m == 0x80) || (i == 2 && m == 0x4000) || (i == 3 && m == 0x20_0000))
    ensures VarintFrom(Varint(x, 5 - i) + rest, last, i, m, 0).value != Some(0)
    decreases 4 - i
  {
    if i < 3 {
      var s := Varint(x, 5 - i) + rest;
      assert s[1..] == Varint(x / 0x80, 4 - i) + rest;
      assert s[0] % 0x80 == x % 0x80;
      if x % 0x80 > 0 {
        VarintFromAtLeast(s[1..], s[0], i + 1, m * 0x80, s[0] % 0x80 * m);
      } else {
        LateDigits(x / 0x80, rest, s[0], i + 1, m * 0x80);
      }
    }
  }

  /** A byte other than 0 and the digits of a number, which is positive when the byte is 0x80, do
      not read as 0. */
  lemma NotZero(first: byte, x: nat, rest: bytes)
    requires first != 0 && (first == 0x80 ==> x > 0)
    ensures TakeVarint([first] + (Varint(x, 4) + rest)).value != Some(0)
  {
    var s := [first] + (Varint(x, 4) + rest);
    assert s[1..] == Varint(x, 4) + rest;
    if first > 0x80 {
      VarintFromAtLeast(s[1..], first, 1, 0x80, first % 0x80);
    } else if first == 0x80 {
      LateDigits(x, rest, first, 1, 0x80);
    }
  }
}
