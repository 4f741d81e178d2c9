/** The CONNECT message on the wire (section 3.1 of MQTT Version 3.1.1). */
module ConnectCodec {
  import opened Bytes
  import opened Messages
  import opened Wire
  import opened FixedHeaders
  import opened Outcomes

  // ----- Writing -----

  function CleanBit(clean: bool): bv8 { if clean then 0x02 else 0x00 }

  function WillBits(will: Option<Will>): bv8
  {
    if will.None? then 0x00 else if will.value.qos == 1 then 0x0c else if will.value.qos == 2 then 0x1c else 0x04
  }

  function UserBit(userName: bytes): bv8 { if |userName| > 0 then 0x80 else 0x00 }

  function PasswordBit(password: bytes): bv8 { if |password| > 0 then 0x40 else 0x00 }

  /** The flag byte after WriteTo has ORed its bits in. */
  function Flags(c: Connect): bv8
  {
    c.flag | CleanBit(c.cleanSession) | WillBits(c.will) | UserBit(c.userName) | PasswordBit(c.password)
  }

  function WillSize(w: Will): nat { 2 + Short(|w.topic|) + 2 + Short(|w.message|) }

  function WillBytes(w: Will): bytes { Field(w.topic) + Field(w.message) }

  function ConnectSize(c: Connect): nat
  {
    var f := Flags(c);
    2 + |c.magic| + 4
    + (if c.identifier != [] then 2 + |c.identifier| else 0)
    + (if f & 0x04 > 0 && c.will.Some? then WillSize(c.will.value) else 0)
    + (if f & 0x80 > 0 then 2 + |c.userName| else 0)
    + (if f & 0x40 > 0 then 2 + |c.password| else 0)
  }

  function HeadBytes(c: Connect): bytes
  {
    Field(c.magic) + [c.version, Flags(c) as int] + U16(c.keepAlive)
  }

  /** The length is written even for an empty identifier. */
  function IdentifierBytes(id: bytes): bytes
  {
    U16(Short(|id|)) + if Short(|id|) > 0 then id else []
  }

  function WillPart(c: Connect): bytes
  {
    if Flags(c) & 0x04 > 0 && c.will.Some? then WillBytes(c.will.value) else []
  }

  function UserPart(c: Connect): bytes { if Flags(c) & 0x80 > 0 then Field(c.userName) else [] }

  function PasswordPart(c: Connect): bytes { if Flags(c) & 0x40 > 0 then Field(c.password) else [] }

  function ConnectBody(c: Connect): bytes
  {
    HeadBytes(c) + IdentifierBytes(c.identifier) + WillPart(c) + UserPart(c) + PasswordPart(c)
  }

  function EncodeConnect(c: Connect): bytes
  {
    HeaderBytes(CONNECT, c.header, ConnectSize(c)) + ConnectBody(c)
  }

  // ----- Reading -----

  /** The array behind a buffer, as far as slices may reach: what was read, and then zeros. */
  function Room(buffer: bytes, capacity: int): (room: bytes)
    ensures buffer <= room
  {
    buffer + seq(if capacity > |buffer| then capacity - |buffer| else 0, i => 0)
  }

  /** A length-prefixed text at an offset, and the length. The length is read from what there is in
      the buffer; the slice for the text may reach into the spare capacity. */
  function FieldAt(buffer: bytes, room: bytes, off: nat, kept: u16): (r: Outcome<(bytes, u16)>)
    ensures !r.Rejected? && (r.Decoded? ==> |r.value.0| == r.value.1)
  {
    if off > |buffer| then Overrun
    else
      var l := TakeU16(buffer[off..], kept).value;
      if off + 2 + l > |room| then Overrun else Decoded((room[off + 2..off + 2 + l], l))
  }

  function WillQos(flag: bv8): byte
  {
    if (flag >> 3) & 0x02 > 0 then 2 else if (flag >> 3) & 0x01 > 0 then 1 else 0
  }

  /** The mask 0x32 also covers the clean-session bit and a will-QoS bit. */
  predicate WillRetain(flag: bv8) { flag & 0x32 > 0 }

  function WithPassword(buffer: bytes, room: bytes, c: Connect, off: nat, length: u16): Outcome<Connect>
  {
    var c' := c.(cleanSession := c.flag & 0x02 > 0);
    if c.flag & 0x40 == 0 then Decoded(c')
    else
      var password :- FieldAt(buffer, room, off, length);
      Decoded(c'.(password := password.0))
  }

  function WithUser(buffer: bytes, room: bytes, c: Connect, off: nat, length: u16): Outcome<Connect>
  {
    if c.flag & 0x80 == 0 then WithPassword(buffer, room, c, off, length)
    else
      var user :- FieldAt(buffer, room, off, length);
      WithPassword(buffer, room, c.(userName := user.0), off + 2 + user.1, user.1)
  }

  function WithWill(buffer: bytes, room: bytes, c: Connect, off: nat, idLength: u16, length: u16): Outcome<Connect>
  {
    if c.flag & 0x04 == 0 then WithUser(buffer, room, c, off, length)
    else
      var topic :- FieldAt(buffer, room, off, idLength);
      var message :- FieldAt(buffer, room, off + 2 + topic.1, topic.1);
      var w := Will(WillQos(c.flag), topic.0, message.0, WillRetain(c.flag));
      WithUser(buffer, room, c.(will := Some(w)), off + 4 + topic.1 + message.1, length)
  }

  function WithIdentifier(buffer: bytes, room: bytes, c: Connect, off: nat, idLength: u16,
                          length: u16): Outcome<Connect>
  {
    if idLength == 0 then WithWill(buffer, room, c, off, idLength, length)
    else if off + idLength > |room| then Overrun
    else WithWill(buffer, room, c.(identifier := room[off..off + idLength]), off + idLength, idLength, length)
  }

  /** Version, flags, keep-alive and identifier; a stream too short for them leaves zeros. */
  function WithHead(buffer: bytes, room: bytes, c: Connect, off: nat, length: u16): Outcome<Connect>
    requires off <= |buffer|
  {
    var version := TakeByte(buffer[off..], c.version);
    var flag := TakeByte(version.rest, 0);
    var keepAlive := TakeU16(flag.rest, c.keepAlive);
    var idLength := TakeU16(keepAlive.rest, 0).value;
    var c' := c.(version := version.value, flag := flag.value as bv8, keepAlive := keepAlive.value);
    WithIdentifier(buffer, room, c', off + 6, idLength, length)
  }

  const NO_CONNECT: Connect := Connect(Header(false, 0, 0, 0), [], 0, 0, 0, [], None, false, [], [])

  /** The buffer has room for the announced length, and some more. */
  function ConnectOf(h: Header, buffer: bytes, spare: nat): Outcome<Connect>
  {
    var length := TakeU16(buffer, 0).value;
    if h.remainingLength < 2 + length || 2 + length > |buffer| then Rejected
    else WithHead(buffer, Room(buffer, h.remainingLength + spare),
                  NO_CONNECT.(header := h, magic := buffer[2..2 + length]), 2 + length, length)
  }

  function DecodeConnect(h: Header, s: bytes, spare: nat): Took<Outcome<Connect>>
  {
    var t := TakeN(s, if h.remainingLength < 0 then 0 else h.remainingLength);
    Took(ConnectOf(h, t.value, spare), t.rest)
  }

  lemma OrBits(f: bv8)
    ensures f | 0x00 == f && f | 0x04 | 0x08 == f | 0x0c && f | 0x04 | 0x18 == f | 0x1c
  {
  }

  class ConnectPacket {
    var header: Header
    var magic: bytes
    var version: byte
    var flag: bv8
    var keepAlive: u16
    var identifier: bytes
    var will: Option<Will>
    var cleanSession: bool
    var userName: bytes
    var password: bytes

    function View(): Connect
      reads this
    {
      Connect(header, magic, version, flag, keepAlive, identifier, will, cleanSession, userName, password)
    }

    constructor (h: Header)
      ensures View() == NO_CONNECT.(header := h)
    {
      header, magic, version, flag, keepAlive := h, [], 0, 0, 0;
      identifier, will, cleanSession, userName, password := [], None, false, [], [];
    }

    constructor Of(c: Connect)
      ensures View() == c
    {
      header, magic, version, flag, keepAlive := c.header, c.magic, c.version, c.flag, c.keepAlive;
      identifier, will, cleanSession := c.identifier, c.will, c.cleanSession;
      userName, password := c.userName, c.password;
    }

    method SetFlags()
      modifies this`flag
      ensures flag == Flags(old(View()))
    {
      hide CleanBit, WillBits, UserBit, PasswordBit;
      SetCleanFlag();
      SetWillFlags();
      SetUserFlag();
      SetPasswordFlag();
    }

    method SetCleanFlag()
      modifies this`flag
      ensures flag == old(flag) | CleanBit(cleanSession)
    {
      OrBits(flag);
      if cleanSession {
        flag := flag | 0x02;
      }
    }

    method SetUserFlag()
      modifies this`flag
      ensures flag == old(flag) | UserBit(userName)
    {
      OrBits(flag);
      if |userName| > 0 {
        flag := flag | 0x80;
      }
    }

    method SetPasswordFlag()
      modifies this`flag
      ensures flag == old(flag) | PasswordBit(password)
    {
      OrBits(flag);
      if |password| > 0 {
        flag := flag | 0x40;
      }
    }

    method SetWillFlags()
      modifies this`flag
      ensures flag == old(flag) | WillBits(will)
    {
      OrBits(flag);
      if will.Some? {
        flag := flag | 0x04;
        if will.value.qos == 1 {
          flag := flag | 0x08;
        } else if will.value.qos == 2 {
          flag := flag | 0x18;
        }
      }
    }

    /** The flag byte keeps the bits that were ORed in. */
    method WriteTo(w: Writer)
      modifies this`flag, w
      ensures View() == old(View()).(flag := Flags(old(View())))
      ensures w.out == old(w.out) + EncodeConnect(old(View()))
    {
      hide Flags, ConnectBody, HeaderBytes;
      FlagsSettle(View());
      SetFlags();
      var size := 2 + |magic|;
      size := size + 1 + 1 + 2;
      if identifier != [] {
        size := size + 2 + |identifier|;
      }
      if flag & 0x04 > 0 && will.Some? {
        size := size + WillSize(will.value);
      }
      if flag & 0x80 > 0 {
        size := size + 2 + |userName|;
      }
      if flag & 0x40 > 0 {
        size := size + 2 + |password|;
      }
      assert size == ConnectSize(old(View()));
      WriteHeader(CONNECT, header, size, w);
      WriteBody(w);
    }

    method WriteBody(w: Writer)
      requires flag == Flags(View())
      modifies w
      ensures w.out == old(w.out) + ConnectBody(View())
    {
      hide Flags, HeadBytes, IdentifierBytes, WillPart, UserPart, PasswordPart;
      WriteHead(w);
      WriteOptional(w);
    }

    /** The parts that the flag byte announces. */
    method WriteOptional(w: Writer)
      requires flag == Flags(View())
      modifies w
      ensures w.out == old(w.out) + WillPart(View()) + UserPart(View()) + PasswordPart(View())
    {
      hide Flags;
      if flag & 0x04 > 0 && will.Some? {
        WriteWill(will.value, w);
      }
      assert w.out == old(w.out) + WillPart(View());
      if flag & 0x80 > 0 {
        WriteField(userName, w);
      }
      assert w.out == old(w.out) + WillPart(View()) + UserPart(View());
      if flag & 0x40 > 0 {
        WriteField(password, w);
      }
    }

    method WriteHead(w: Writer)
      requires flag == Flags(View())
      modifies w
      ensures w.out == old(w.out) + (HeadBytes(View()) + IdentifierBytes(identifier))
    {
      hide Flags;
      WriteField(magic, w);
      w.WriteByte(version);
      w.WriteByte(flag as int);
      w.WriteU16(keepAlive);
      assert w.out == old(w.out) + HeadBytes(View());
      var length: u16 := 0;
      if identifier != [] {
        length := Short(|identifier|);
      }
      w.WriteU16(length);
      if length > 0 {
        w.Write(identifier);
      }
    }

    /** How much more room than it needs the buffer gets is not up to the decoder. */
    method Decode(r: Reader) returns (status: Status, ghost spare: nat)
      requires View() == NO_CONNECT.(header := header)
      modifies this, r
      ensures var d := DecodeConnect(old(header), old(r.input), spare);
              r.input == d.rest && Agree(status, d.value) && (status.Done? ==> d.value == Decoded(View()))
    {
      hide ConnectOf;
      var buffer := r.CopyN(if header.remainingLength < 0 then 0 else header.remainingLength);
      var extra: nat := *;
      status := Fill(buffer, extra);
      spare := extra;
    }

    method Fill(buffer: bytes, spare: nat) returns (status: Status)
      requires View() == NO_CONNECT.(header := header)
      modifies this
      ensures var d := ConnectOf(old(header), buffer, spare);
              Agree(status, d) && (status.Done? ==> d == Decoded(View()))
    {
      hide WithHead;
      var reader := new Reader(buffer);
      var length := reader.ReadU16(0);
      var offset: int := 2;
      if header.remainingLength < offset + length {
        return Failed;
      }
      var room := Room(buffer, header.remainingLength + spare);
      magic := room[offset..offset + length];
      offset := offset + length;
      if offset > |buffer| {
        return Failed;
      }
      assert magic == buffer[2..offset];
      status := FillHead(buffer, room, offset, length);
    }

    method FillHead(buffer: bytes, room: bytes, off: nat, length: u16) returns (status: Status)
      requires off <= |buffer|
      modifies this
      ensures var d := WithHead(buffer, room, old(View()), off, length);
              Agree(status, d) && (status.Done? ==> d == Decoded(View()))
    {
      hide WithIdentifier, TakeU16, TakeByte;
      var offset: int := off;
      var nr := new Reader(buffer[offset..]);
      version := nr.ReadByte(version);
      var flagByte := nr.ReadByte(0);
      flag := flagByte as bv8;
      keepAlive := nr.ReadU16(keepAlive);
      offset := offset + 1 + 1 + 2;
      var idLength := nr.ReadU16(0);
      offset := offset + 2;
      status := FillIdentifier(buffer, room, offset, idLength, length);
    }

    method FillIdentifier(buffer: bytes, room: bytes, off: nat, idLength: u16, length: u16) returns (status: Status)
      modifies this
      ensures var d := WithIdentifier(buffer, room, old(View()), off, idLength, length);
              Agree(status, d) && (status.Done? ==> d == Decoded(View()))
    {
      hide WithWill;
      var offset: int := off;
      if idLength > 0 {
        if offset + idLength > |room| {
          return OutOfBounds;
        }
        identifier := room[offset..offset + idLength];
        offset := offset + idLength;
      }
      status := FillWill(buffer, room, offset, idLength, length);
    }

    method FillWill(buffer: bytes, room: bytes, off: nat, idLength: u16, length: u16) returns (status: Status)
      modifies this
      ensures var d := WithWill(buffer, room, old(View()), off, idLength, length);
              Agree(status, d) && (status.Done? ==> d == Decoded(View()))
    {
      hide WithUser, FieldAt;
      var offset: int := off;
      if flag & 0x04 > 0 {
        var topic := ReadFieldAt(buffer, room, offset, idLength);
        if !topic.Decoded? {
          return OutOfBounds;
        }
        offset := offset + 2 + topic.value.1;
        var message := ReadFieldAt(buffer, room, offset, topic.value.1);
        if !message.Decoded? {
          return OutOfBounds;
        }
        offset := offset + 2 + message.value.1;
        var retain, qos: byte := false, 0;
        if flag & 0x32 > 0 {
          retain := true;
        }
        var q := flag >> 3;
        if q & 0x02 > 0 {
          qos := 2;
        } else if q & 0x01 > 0 {
          qos := 1;
        }
        will := Some(Will(qos, topic.value.0, message.value.0, retain));
      }
      status := FillUser(buffer, room, offset, length);
    }

    method FillUser(buffer: bytes, room: bytes, off: nat, length: u16) returns (status: Status)
      modifies this
      ensures var d := WithUser(buffer, room, old(View()), off, length);
              Agree(status, d) && (status.Done? ==> d == Decoded(View()))
    {
      hide WithPassword, FieldAt;
      var offset: int := off;
      var kept := length;
      if flag & 0x80 > 0 {
        var user := ReadFieldAt(buffer, room, offset, length);
        if !user.Decoded? {
          return OutOfBounds;
        }
        userName := user.value.0;
        offset := offset + 2 + user.value.1;
        kept := user.value.1;
      }
      status := FillPassword(buffer, room, offset, kept);
    }

    method FillPassword(buffer: bytes, room: bytes, off: nat, length: u16) returns (status: Status)
      modifies this
      ensures var d := WithPassword(buffer, room, old(View()), off, length);
              Agree(status, d) && (status.Done? ==> d == Decoded(View()))
    {
      hide FieldAt;
      if flag & 0x40 > 0 {
        var text := ReadFieldAt(buffer, room, off, length);
        if !text.Decoded? {
          return OutOfBounds;
        }
        password := text.value.0;
      }
      cleanSession := false;
      if flag & 0x02 > 0 {
        cleanSession := true;
      }
      return Done;
    }
  }

  method ReadFieldAt(buffer: bytes, room: bytes, off: nat, kept: u16) returns (field: Outcome<(bytes, u16)>)
    ensures field == FieldAt(buffer, room, off, kept)
    ensures !field.Rejected?
  {
    if off > |buffer| {
      return Overrun;
    }
    var nr := new Reader(buffer[off..]);
    var length := nr.ReadU16(kept);
    if off + 2 + length > |room| {
      return Overrun;
    }
    return Decoded((room[off + 2..off + 2 + length], length));
  }

  method WriteField(s: bytes, w: Writer)
    modifies w
    ensures w.out == old(w.out) + Field(s)
  {
    var length: u16 := Short(|s|);
    w.WriteU16(length);
    w.Write(s);
  }

  method WriteWill(will: Will, w: Writer)
    modifies w
    ensures w.out == old(w.out) + WillBytes(will)
  {
    WriteField(will.topic, w);
    WriteField(will.message, w);
  }

  /** Writing again writes the same. */
  lemma FlagsSettle(c: Connect)
    ensures var c' := c.(flag := Flags(c));
            Flags(c') == Flags(c) && ConnectBody(c') == ConnectBody(c) && EncodeConnect(c') == EncodeConnect(c)
  {
  }

  // ----- Round trip -----

  /** What comes back: the header as the wire carries it, the flag byte with all its bits, and a
      will-retain that is read off the mask rather than off the will. */
  function ConnectSeen(c: Connect): Connect
  {
    var f := Flags(c);
    c.(header := OnWire(c.header, ConnectSize(c)), flag := f,
       will := if c.will.None? then None else Some(c.will.value.(retain := WillRetain(f))))
  }

  predicate LengthsFit(c: Connect)
  {
    && |c.magic| < 0x1_0000 && |c.identifier| < 0x1_0000 && |c.userName| < 0x1_0000 && |c.password| < 0x1_0000
    && (c.will.Some? ==> |c.will.value.topic| < 0x1_0000 && |c.will.value.message| < 0x1_0000)
  }

  /** The bits of the flag byte say no more than the fields do. */
  predicate FlagsAgree(c: Connect)
  {
    var f := Flags(c);
    && (f & 0x04 > 0 ==> c.will.Some?) && (f & 0x02 > 0 ==> c.cleanSession)
    && (c.will.Some? ==> c.will.value.qos == WillQos(f))
  }

  predicate ConnectFits(c: Connect)
  {
    c.identifier != [] && LengthsFit(c) && FlagsAgree(c)
  }

  lemma FlagsAnnounce(c: Connect)
    ensures var f := Flags(c);
            && (c.cleanSession ==> f & 0x02 > 0) && (c.will.Some? ==> f & 0x04 > 0)
            && (c.userName != [] ==> f & 0x80 > 0) && (c.password != [] ==> f & 0x40 > 0)
  {
  }

  lemma FieldAtPart(buffer: bytes, room: bytes, pre: bytes, x: bytes, post: bytes, kept: u16)
    requires buffer == pre + Field(x) + post && buffer <= room && |x| < 0x1_0000
    ensures FieldAt(buffer, room, |pre|, kept) == Decoded((x, |x|))
  {
    assert buffer[|pre|..] == U16(|x|) + (x + post);
    TakeU16OfU16(|x|, x + post, kept);
    assert room[|pre| + 2..|pre| + 2 + |x|] == buffer[|pre| + 2..|pre| + 2 + |x|] == x;
  }

  lemma PasswordStage(c: Connect, d: Connect, buffer: bytes, room: bytes, pre: bytes, kept: u16)
    requires |c.password| < 0x1_0000 && d.flag == Flags(c) && d.password == []
    requires buffer == pre + PasswordPart(c) && buffer <= room
    ensures WithPassword(buffer, room, d, |pre|, kept) ==
            Decoded(d.(password := c.password, cleanSession := Flags(c) & 0x02 > 0))
  {
    FlagsAnnounce(c);
    hide Flags, FieldAt;
    if Flags(c) & 0x40 > 0 {
      assert buffer == pre + Field(c.password) + [];
      FieldAtPart(buffer, room, pre, c.password, [], kept);
    }
  }

  lemma UserStage(c: Connect, d: Connect, buffer: bytes, room: bytes, pre: bytes, kept: u16)
    requires |c.userName| < 0x1_0000 && |c.password| < 0x1_0000
    requires d.flag == Flags(c) && d.userName == [] && d.password == []
    requires buffer == pre + UserPart(c) + PasswordPart(c) && buffer <= room
    ensures WithUser(buffer, room, d, |pre|, kept) ==
            Decoded(d.(userName := c.userName, password := c.password, cleanSession := Flags(c) & 0x02 > 0))
  {
    FlagsAnnounce(c);
    hide Flags, FieldAt, WithPassword, PasswordPart;
    if Flags(c) & 0x80 > 0 {
      FieldAtPart(buffer, room, pre, c.userName, PasswordPart(c), kept);
      PasswordStage(c, d.(userName := c.userName), buffer, room, pre + Field(c.userName), |c.userName|);
    } else {
      assert pre + [] == pre;
      PasswordStage(c, d, buffer, room, pre, kept);
    }
  }

  /** The two texts of a will. */
  lemma WillFields(buffer: bytes, room: bytes, pre: bytes, w: Will, post: bytes, kept: u16)
    requires buffer == pre + WillBytes(w) + post && buffer <= room
    requires |w.topic| < 0x1_0000 && |w.message| < 0x1_0000
    ensures FieldAt(buffer, room, |pre|, kept) == Decoded((w.topic, |w.topic|))
    ensures FieldAt(buffer, room, |pre| + 2 + |w.topic|, |w.topic|) == Decoded((w.message, |w.message|))
  {
    hide FieldAt, Short;
    assert buffer == pre + Field(w.topic) + (Field(w.message) + post);
    FieldAtPart(buffer, room, pre, w.topic, Field(w.message) + post, kept);
    assert buffer == (pre + Field(w.topic)) + Field(w.message) + post;
    FieldAtPart(buffer, room, pre + Field(w.topic), w.message, post, |w.topic|);
  }

  /** The will as the decoder reads it: its QoS and retain flag come out of the flag byte. */
  function ReadWill(c: Connect): Option<Will>
  {
    if c.will.None? then None
    else Some(Will(WillQos(Flags(c)), c.will.value.topic, c.will.value.message, WillRetain(Flags(c))))
  }

  lemma WillStage(c: Connect, d: Connect, buffer: bytes, room: bytes, pre: bytes, idLength: u16, kept: u16)
    requires LengthsFit(c) && (Flags(c) & 0x04 > 0 ==> c.will.Some?)
    requires d.flag == Flags(c) && d.userName == [] && d.password == [] && d.will == None
    requires buffer == pre + WillPart(c) + UserPart(c) + PasswordPart(c) && buffer <= room
    ensures WithWill(buffer, room, d, |pre|, idLength, kept) ==
            Decoded(d.(will := ReadWill(c), userName := c.userName, password := c.password,
                       cleanSession := Flags(c) & 0x02 > 0))
  {
    FlagsAnnounce(c);
    hide Flags, FieldAt, WithUser, UserPart, PasswordPart, WillQos, WillRetain;
    if Flags(c) & 0x04 > 0 {
      var w := c.will.value;
      hide WillBytes;
      assert buffer == pre + WillBytes(w) + (UserPart(c) + PasswordPart(c));
      WillFields(buffer, room, pre, w, UserPart(c) + PasswordPart(c), idLength);
      UserStage(c, d.(will := ReadWill(c)), buffer, room, pre + WillBytes(w), kept);
      WillLength(w);
    } else {
      assert pre + [] == pre;
      UserStage(c, d, buffer, room, pre, kept);
    }
  }

  lemma WillLength(w: Will)
    ensures |WillBytes(w)| == 4 + |w.topic| + |w.message|
  {
  }

  /** The numbers before the identifier, one after the other. */
  lemma HeadFields(version: byte, flag: byte, keepAlive: u16, n: u16, tail: bytes, v0: byte, k0: u16)
    ensures var s0 := [version, flag] + U16(keepAlive) + (U16(n) + tail);
            && TakeByte(s0, v0) == Took(version, s0[1..]) && TakeByte(s0[1..], 0) == Took(flag, s0[2..])
            && TakeU16(s0[2..], k0) == Took(keepAlive, U16(n) + tail) && TakeU16(U16(n) + tail, 0) == Took(n, tail)
  {
    var s0 := [version, flag] + U16(keepAlive) + (U16(n) + tail);
    assert s0[1..][1..] == s0[2..] == U16(keepAlive) + (U16(n) + tail);
    hide TakeU16;
    TakeU16OfU16(keepAlive, U16(n) + tail, k0);
    TakeU16OfU16(n, tail, 0);
  }

  lemma HeadStage(c: Connect, d: Connect, buffer: bytes, room: bytes, pre: bytes, post: bytes, kept: u16)
    requires |c.identifier| < 0x1_0000 && d.identifier == [] && buffer <= room
    requires buffer == pre + [c.version, Flags(c) as int] + U16(c.keepAlive) + IdentifierBytes(c.identifier) + post
    ensures WithHead(buffer, room, d, |pre|, kept) ==
            WithWill(buffer, room,
                     d.(version := c.version, flag := Flags(c), keepAlive := c.keepAlive, identifier := c.identifier),
                     |pre| + 6 + |c.identifier|, |c.identifier|, kept)
  {
    hide Flags, WithHead, WithWill, WithIdentifier;
    var id := c.identifier;
    assert IdentifierBytes(id) == U16(|id|) + id;
    assert buffer[|pre|..] == [c.version, Flags(c) as int] + U16(c.keepAlive) + (U16(|id|) + (id + post));
    var d' := d.(version := c.version, flag := Flags(c), keepAlive := c.keepAlive);
    FixedStage(c, d, buffer, room, |pre|, id + post, kept);
    assert buffer == (pre + [c.version, Flags(c) as int] + U16(c.keepAlive) + U16(|id|)) + id + post;
    IdentifierStage(d', buffer, room, pre + [c.version, Flags(c) as int] + U16(c.keepAlive) + U16(|id|), id, post,
                    kept);
  }

  lemma FixedStage(c: Connect, d: Connect, buffer: bytes, room: bytes, off: nat, tail: bytes, kept: u16)
    requires |c.identifier| < 0x1_0000 && off <= |buffer|
    requires buffer[off..] == [c.version, Flags(c) as int] + U16(c.keepAlive) + (U16(|c.identifier|) + tail)
    ensures WithHead(buffer, room, d, off, kept) ==
            WithIdentifier(buffer, room, d.(version := c.version, flag := Flags(c), keepAlive := c.keepAlive), off + 6,
                           |c.identifier|, kept)
  {
    hide Flags, WithIdentifier, TakeU16, TakeByte;
    HeadFields(c.version, Flags(c) as int, c.keepAlive, |c.identifier|, tail, d.version, d.keepAlive);
    FixedHeaders.ByteOfBits(Flags(c));
  }

  lemma IdentifierStage(d: Connect, buffer: bytes, room: bytes, pre: bytes, id: bytes, post: bytes, kept: u16)
    requires buffer == pre + id + post && buffer <= room && |id| < 0x1_0000 && d.identifier == []
    ensures WithIdentifier(buffer, room, d, |pre|, |id|, kept) ==
            WithWill(buffer, room, d.(identifier := id), |pre| + |id|, |id|, kept)
  {
    hide WithWill;
    assert room[|pre|..|pre| + |id|] == buffer[|pre|..|pre| + |id|] == id;
  }

  /** The declared size is the size of the body, except that the length of an empty identifier is
      written without being counted. */
  lemma SizeCountsBody(c: Connect)
    requires LengthsFit(c)
    ensures |ConnectBody(c)| == ConnectSize(c) + if c.identifier == [] then 2 else 0
  {
    hide Flags;
  }

  lemma MagicStage(h: Header, magic: bytes, post: bytes, spare: nat)
    requires |magic| < 0x1_0000 && h.remainingLength >= 2 + |magic|
    ensures ConnectOf(h, Field(magic) + post, spare) ==
            WithHead(Field(magic) + post, Room(Field(magic) + post, h.remainingLength + spare),
                     NO_CONNECT.(header := h, magic := magic), |Field(magic)|, |magic|)
  {
    hide WithHead;
    var buffer := Field(magic) + post;
    assert buffer == U16(|magic|) + (magic + post);
    TakeU16OfU16(|magic|, magic + post, 0);
    assert buffer[2..2 + |magic|] == magic;
  }

  lemma BodyParts(c: Connect)
    ensures var options := WillPart(c) + UserPart(c) + PasswordPart(c);
            var fixed := [c.version, Flags(c) as int] + U16(c.keepAlive);
            && ConnectBody(c) == Field(c.magic) + (fixed + IdentifierBytes(c.identifier) + options)
            && ConnectBody(c) == Field(c.magic) + [c.version, Flags(c) as int] + U16(c.keepAlive)
                                 + IdentifierBytes(c.identifier) + options
  {
    hide Flags, WillPart, UserPart, PasswordPart, IdentifierBytes, Field;
  }

  /** The fields up to the identifier. */
  function Head(c: Connect): Connect
  {
    NO_CONNECT.(header := ConnectSeen(c).header, magic := c.magic, version := c.version, flag := Flags(c),
                keepAlive := c.keepAlive, identifier := c.identifier)
  }

  /** Everything that has been read, in all the room there is. */
  function FullRoom(c: Connect, capacity: nat): (room: bytes)
    ensures ConnectBody(c) <= room
  {
    Room(ConnectBody(c), capacity)
  }

  lemma ConnectOfHead(c: Connect, h: Header, spare: nat)
    requires LengthsFit(c) && h.remainingLength >= 2 + |c.magic|
    ensures ConnectOf(h, ConnectBody(c), spare) ==
            WithWill(ConnectBody(c), FullRoom(c, h.remainingLength + spare), Head(c).(header := h),
                     |Field(c.magic)| + 6 + |c.identifier|, |c.identifier|, |c.magic|)
  {
    hide Flags, ConnectOf, WithHead, WithWill, ConnectBody;
    var options := WillPart(c) + UserPart(c) + PasswordPart(c);
    BodyParts(c);
    MagicStage(h, c.magic, [c.version, Flags(c) as int] + U16(c.keepAlive) + IdentifierBytes(c.identifier) + options,
               spare);
    HeadStage(c, NO_CONNECT.(header := h, magic := c.magic), ConnectBody(c), FullRoom(c, h.remainingLength + spare),
              Field(c.magic), options, |c.magic|);
  }

  /** The message as the decoder reads it. */
  function ConnectRead(c: Connect): Connect
  {
    ConnectSeen(c).(will := ReadWill(c), cleanSession := Flags(c) & 0x02 > 0)
  }

  lemma HeadCompletes(c: Connect)
    ensures Head(c).(will := ReadWill(c), userName := c.userName, password := c.password,
                     cleanSession := Flags(c) & 0x02 > 0) == ConnectRead(c)
    ensures FlagsAgree(c) ==> ConnectRead(c) == ConnectSeen(c)
  {
    FlagsAnnounce(c);
    hide Flags, ConnectSize, WillQos, WillRetain;
  }

  lemma HeadIsPrefix(c: Connect)
    requires LengthsFit(c)
    ensures var d, pre := Head(c), HeadBytes(c) + IdentifierBytes(c.identifier);
            && d.flag == Flags(c) && d.userName == [] && d.password == [] && d.will == None
            && |c.identifier| < 0x1_0000 && |c.magic| < 0x1_0000
            && |pre| == |Field(c.magic)| + 6 + |c.identifier|
            && ConnectBody(c) == pre + WillPart(c) + UserPart(c) + PasswordPart(c)
  {
    hide Flags;
  }

  /** The body is read as it is under any header that announces it up to the protocol name. */
  lemma ConnectOfBody(c: Connect, h: Header, spare: nat)
    requires LengthsFit(c) && (Flags(c) & 0x04 > 0 ==> c.will.Some?) && h.remainingLength >= 2 + |c.magic|
    ensures ConnectOf(h, ConnectBody(c), spare) == Decoded(ConnectRead(c).(header := h))
  {
    hide *;
    ConnectOfHead(c, h, spare);
    HeadIsPrefix(c);
    HeadCompletes(c);
    WillStage(c, Head(c).(header := h), ConnectBody(c), FullRoom(c, h.remainingLength + spare),
              HeadBytes(c) + IdentifierBytes(c.identifier), |c.identifier|, |c.magic|);
  }

  lemma AnnouncesMagic(c: Connect)
    ensures ConnectSeen(c).header.remainingLength >= 2 + |c.magic|
    ensures ConnectRead(c).(header := ConnectSeen(c).header) == ConnectRead(c)
  {
    hide Flags;
  }

  /** Whatever is decoded has short fields, and agrees with its own flag byte. */
  predicate SelfConsistent(d: Connect)
  {
    && LengthsFit(d)
    && (d.will.Some? <==> d.flag & 0x04 > 0) && (d.cleanSession <==> d.flag & 0x02 > 0)
    && (d.will.Some? ==> d.will.value.qos == WillQos(d.flag) && d.will.value.retain == WillRetain(d.flag))
    && (d.flag & 0x80 == 0 ==> d.userName == []) && (d.flag & 0x40 == 0 ==> d.password == [])
  }

  lemma UserIsConsistent(buffer: bytes, room: bytes, c: Connect, off: nat, length: u16)
    requires LengthsFit(c) && (c.will.Some? <==> c.flag & 0x04 > 0) && c.userName == [] && c.password == []
    requires c.will.Some? ==> c.will.value.qos == WillQos(c.flag) && c.will.value.retain == WillRetain(c.flag)
    requires WithUser(buffer, room, c, off, length).Decoded?
    ensures SelfConsistent(WithUser(buffer, room, c, off, length).value)
  {
    hide FieldAt, WillQos, WillRetain;
  }

  lemma WillIsConsistent(buffer: bytes, room: bytes, c: Connect, off: nat, idLength: u16, length: u16)
    requires LengthsFit(c) && c.will.None? && c.userName == [] && c.password == []
    requires WithWill(buffer, room, c, off, idLength, length).Decoded?
    ensures SelfConsistent(WithWill(buffer, room, c, off, idLength, length).value)
  {
    hide FieldAt, WithUser, WillQos, WillRetain, SelfConsistent;
    if c.flag & 0x04 == 0 {
      UserIsConsistent(buffer, room, c, off, length);
    } else {
      var topic := FieldAt(buffer, room, off, idLength).value;
      var message := FieldAt(buffer, room, off + 2 + topic.1, topic.1).value;
      var w := Will(WillQos(c.flag), topic.0, message.0, WillRetain(c.flag));
      UserIsConsistent(buffer, room, c.(will := Some(w)), off + 4 + topic.1 + message.1, length);
    }
  }

  lemma DecodedIsConsistent(h: Header, buffer: bytes, spare: nat)
    requires ConnectOf(h, buffer, spare).Decoded?
    ensures SelfConsistent(ConnectOf(h, buffer, spare).value)
  {
    hide TakeU16, TakeByte, WithWill, SelfConsistent;
    forall room, c, off, idLength, length | LengthsFit(c) && c.will.None? && c.userName == [] && c.password == [] &&
        WithWill(buffer, room, c, off, idLength, length).Decoded?
      ensures SelfConsistent(WithWill(buffer, room, c, off, idLength, length).value)
    {
      WillIsConsistent(buffer, room, c, off, idLength, length);
    }
  }

  /** The body is read back, and nothing more, exactly when the identifier is not empty, the
      fields fit their length prefixes, and the flag byte agrees with the fields. */
  lemma ConnectBodyRoundTrip(c: Connect, rest: bytes, spare: nat)
    ensures var t := DecodeConnect(ConnectSeen(c).header, ConnectBody(c) + rest, spare);
            && (t == Took(Decoded(ConnectSeen(c)), rest) <==> ConnectFits(c))
            && (t.value == Decoded(ConnectSeen(c)) ==> ConnectFits(c) || c.identifier == [])
  {
    hide Flags, ConnectOf, ConnectSize, ConnectBody, WillQos, WillRetain;
    var h, body := ConnectSeen(c).header, ConnectBody(c);
    if ConnectFits(c) {
      SizeCountsBody(c);
      AnnouncesMagic(c);
      ConnectOfBody(c, h, spare);
      HeadCompletes(c);
      TakeNOfN(body, rest);
    }
    var t := TakeN(body + rest, ConnectSize(c));
    if DecodeConnect(h, body + rest, spare).value == Decoded(ConnectSeen(c)) {
      DecodedIsConsistent(h, t.value, spare);
      FlagsAnnounce(c);
      SizeCountsBody(c);
    }
  }

  // ----- Any flag byte -----

  lemma MaskBits(f: byte)
    ensures (f as bv8) & 0x02 > 0 <==> f / 2 % 2 == 1
    ensures (f as bv8) & 0x04 > 0 <==> f / 4 % 2 == 1
    ensures (f as bv8) & 0x40 > 0 <==> f / 64 % 2 == 1
    ensures (f as bv8) & 0x80 > 0 <==> f / 128 == 1
  {
  }

  /** The two fields of the will that are read off the flag byte: bit 4 is QoS 2, otherwise bit 3 is QoS
      1; and each of the bits 5, 4 and 1 sets the retain flag. */
  lemma WillBitsRead(f: byte)
    ensures WillQos(f as bv8) == if f / 16 % 2 == 1 then 2 else if f / 8 % 2 == 1 then 1 else 0
    ensures WillRetain(f as bv8) <==> f / 32 % 2 == 1 || f / 16 % 2 == 1 || f / 2 % 2 == 1
  {
  }

  /** The flag byte says which parts there are, and what the will asks for. */
  predicate SaysBits(d: Connect, f: byte)
  {
    && (d.will.Some? <==> f / 4 % 2 == 1) && (d.cleanSession <==> f / 2 % 2 == 1)
    && (d.will.Some? ==>
          && (d.will.value.retain <==> f / 32 % 2 == 1 || f / 16 % 2 == 1 || f / 2 % 2 == 1)
          && d.will.value.qos == if f / 16 % 2 == 1 then 2 else if f / 8 % 2 == 1 then 1 else 0)
    && (d.userName != [] ==> f / 128 == 1) && (d.password != [] ==> f / 64 % 2 == 1)
  }

  lemma ConsistentBits(d: Connect, f: byte)
    requires SelfConsistent(d) && d.flag == f as bv8
    ensures SaysBits(d, f)
  {
    hide WillQos, WillRetain, LengthsFit;
    MaskBits(f);
    WillBitsRead(f);
  }

  /** Whatever is decoded, from any stream, says of will, will QoS, will retain and clean session what the
      bits of its flag byte say, and has a user name or a password only if its bit is set. */
  lemma DecodedBits(h: Header, s: bytes, spare: nat)
    requires DecodeConnect(h, s, spare).value.Decoded?
    ensures var d := DecodeConnect(h, s, spare).value.value; SaysBits(d, d.flag as int)
  {
    hide ConnectOf, SelfConsistent, SaysBits;
    var d := DecodeConnect(h, s, spare).value.value;
    DecodedIsConsistent(h, TakeN(s, if h.remainingLength < 0 then 0 else h.remainingLength).value, spare);
    FixedHeaders.ByteOfBits(d.flag);
    ConsistentBits(d, d.flag as int);
  }

  /** The parts of a CONNECT as a client with the flag byte `f` lays them out. */
  function Layout(magic: bytes, version: byte, f: byte, keepAlive: u16, id: bytes, topic: bytes, message: bytes,
                  user: bytes, password: bytes): bytes
  {
    Field(magic) + [version, f] + U16(keepAlive) + Field(id)
    + (if f / 4 % 2 == 1 then Field(topic) + Field(message) else [])
    + (if f / 128 == 1 then Field(user) else [])
    + (if f / 64 % 2 == 1 then Field(password) else [])
  }

  /** A message with no bits to add to its flag byte. */
  function Plain(h: Header, magic: bytes, version: byte, f: byte, keepAlive: u16, id: bytes, topic: bytes,
                 message: bytes, user: bytes, password: bytes): Connect
  {
    Connect(h, magic, version, f as bv8, keepAlive, id,
            if f / 4 % 2 == 1 then Some(Will(0, topic, message, false)) else None, f / 2 % 2 == 1, user, password)
  }

  lemma SetBitsStay(f: byte, user: bv8, password: bv8)
    requires user == 0x00 || (user == 0x80 && f / 128 == 1)
    requires password == 0x00 || (password == 0x40 && f / 64 % 2 == 1)
    ensures (f as bv8) | (if f / 2 % 2 == 1 then 0x02 else 0x00) | (if f / 4 % 2 == 1 then 0x04 else 0x00)
            | user | password == f as bv8
  {
    MaskBits(f);
  }

  lemma PlainFlags(c: Connect, f: byte)
    requires c.flag == f as bv8 && (c.cleanSession <==> f / 2 % 2 == 1) && (c.will.Some? <==> f / 4 % 2 == 1)
    requires c.will.Some? ==> c.will.value.qos == 0
    requires (c.userName != [] ==> f / 128 == 1) && (c.password != [] ==> f / 64 % 2 == 1)
    ensures Flags(c) == c.flag
  {
    SetBitsStay(f, UserBit(c.userName), PasswordBit(c.password));
  }

  lemma PlainBody(h: Header, magic: bytes, version: byte, f: byte, keepAlive: u16, id: bytes, topic: bytes,
                  message: bytes, user: bytes, password: bytes)
    requires |id| < 0x1_0000 && (user != [] ==> f / 128 == 1) && (password != [] ==> f / 64 % 2 == 1)
    ensures var c := Plain(h, magic, version, f, keepAlive, id, topic, message, user, password);
            && Flags(c) == f as bv8
            && ConnectBody(c) == Layout(magic, version, f, keepAlive, id, topic, message, user, password)
  {
    var c := Plain(h, magic, version, f, keepAlive, id, topic, message, user, password);
    PlainFlags(c, f);
    IdentifierIsField(id);
    PlainParts(c, f);
    hide Flags, Field, IdentifierBytes, U16, WillPart, UserPart, PasswordPart;
  }

  lemma PlainParts(c: Connect, f: byte)
    requires Flags(c) == f as bv8 && (c.will.Some? <==> f / 4 % 2 == 1)
    ensures Flags(c) as int == f
    ensures WillPart(c) == if f / 4 % 2 == 1 then Field(c.will.value.topic) + Field(c.will.value.message) else []
    ensures UserPart(c) == if f / 128 == 1 then Field(c.userName) else []
    ensures PasswordPart(c) == if f / 64 % 2 == 1 then Field(c.password) else []
  {
    hide Flags, Field;
    MaskBits(f);
    FixedHeaders.BitsOfByte(f);
  }

  lemma IdentifierIsField(id: bytes)
    requires |id| < 0x1_0000
    ensures IdentifierBytes(id) == Field(id)
  {
  }

  /** Any CONNECT, laid out for any flag byte and announced with its length, is read field by field, whatever
      the spare capacity: a will-retain bit or a will QoS that this writer never sends as well, and an empty
      identifier. */
  lemma ConnectReads(h: Header, magic: bytes, version: byte, f: byte, keepAlive: u16, id: bytes, topic: bytes,
                     message: bytes, user: bytes, password: bytes, rest: bytes, spare: nat)
    requires |id| < 0x1_0000 && |magic| < 0x1_0000 && |topic| < 0x1_0000 && |message| < 0x1_0000
    requires |user| < 0x1_0000 && |password| < 0x1_0000
    requires (user != [] ==> f / 128 == 1) && (password != [] ==> f / 64 % 2 == 1)
    requires h.remainingLength == |Layout(magic, version, f, keepAlive, id, topic, message, user, password)|
    ensures var will := Will(if f / 16 % 2 == 1 then 2 else if f / 8 % 2 == 1 then 1 else 0, topic, message,
                             f / 32 % 2 == 1 || f / 16 % 2 == 1 || f / 2 % 2 == 1);
            DecodeConnect(h, Layout(magic, version, f, keepAlive, id, topic, message, user, password) + rest, spare) ==
            Took(Decoded(Connect(h, magic, version, f as bv8, keepAlive, id,
                                 if f / 4 % 2 == 1 then Some(will) else None, f / 2 % 2 == 1, user, password)), rest)
  {
    hide *;
    var c := Plain(h, magic, version, f, keepAlive, id, topic, message, user, password);
    PlainBody(h, magic, version, f, keepAlive, id, topic, message, user, password);
    PlainRead(h, magic, version, f, keepAlive, id, topic, message, user, password);
    ReadsBody(c, h, rest, spare);
  }

  lemma ReadsBody(c: Connect, h: Header, rest: bytes, spare: nat)
    requires LengthsFit(c) && (Flags(c) & 0x04 > 0 ==> c.will.Some?) && h.remainingLength == |ConnectBody(c)|
    ensures DecodeConnect(h, ConnectBody(c) + rest, spare) == Took(Decoded(ConnectRead(c).(header := h)), rest)
  {
    hide Flags, ConnectBody, ConnectOf, ConnectRead;
    BodyHasMagic(c);
    ConnectOfBody(c, h, spare);
    TakeNOfN(ConnectBody(c), rest);
  }

  lemma BodyHasMagic(c: Connect)
    ensures |ConnectBody(c)| >= 2 + |c.magic|
  {
    hide Flags;
  }

  lemma PlainRead(h: Header, magic: bytes, version: byte, f: byte, keepAlive: u16, id: bytes, topic: bytes,
                  message: bytes, user: bytes, password: bytes)
    requires |id| < 0x1_0000 && |magic| < 0x1_0000 && |topic| < 0x1_0000 && |message| < 0x1_0000
    requires |user| < 0x1_0000 && |password| < 0x1_0000
    requires Flags(Plain(h, magic, version, f, keepAlive, id, topic, message, user, password)) == f as bv8
    ensures var c := Plain(h, magic, version, f, keepAlive, id, topic, message, user, password);
            && LengthsFit(c) && (Flags(c) & 0x04 > 0 ==> c.will.Some?)
            && ConnectRead(c).(header := h) ==
               Connect(h, magic, version, f as bv8, keepAlive, id,
                       if f / 4 % 2 == 1 then
                         Some(Will(if f / 16 % 2 == 1 then 2 else if f / 8 % 2 == 1 then 1 else 0, topic, message,
                                   f / 32 % 2 == 1 || f / 16 % 2 == 1 || f / 2 % 2 == 1))
                       else None,
                       f / 2 % 2 == 1, user, password)
  {
    hide Flags, ConnectSize, WillQos, WillRetain;
    MaskBits(f);
    WillBitsRead(f);
  }

  /** Where the length of a text is taken from, and when its slice lies outside the buffer. */
  lemma FieldAtReads(buffer: bytes, room: bytes, off: nat, kept: u16)
    ensures FieldAt(buffer, room, off, kept) ==
            if off > |buffer| then Overrun
            else
              var n := if off + 2 <= |buffer| then 256 * (buffer[off] as int) + buffer[off + 1] as int else kept;
              if off + 2 + n > |room| then Overrun else Decoded((room[off + 2..off + 2 + n], n))
  {
  }

  /** A CONNECT is refused exactly when its announced length or what there is of it ends before the
      protocol name does; anything else is decoded or indexes outside the buffer. */
  lemma RejectedIff(h: Header, s: bytes, spare: nat)
    ensures var n := if h.remainingLength <= 0 then 0 else if h.remainingLength <= |s| then h.remainingLength else |s|;
            var length := if n < 2 then 0 else 256 * (s[0] as int) + s[1] as int;
            DecodeConnect(h, s, spare).value == Rejected <==> h.remainingLength < 2 + length || n < 2 + length
  {
    var t := TakeN(s, if h.remainingLength < 0 then 0 else h.remainingLength);
    hide WithHead;
    forall c, room, off: nat, length | off <= |t.value| ensures WithHead(t.value, room, c, off, length) != Rejected {
      HeadNotRejected(t.value, room, c, off, length);
    }
  }

  lemma HeadNotRejected(buffer: bytes, room: bytes, c: Connect, off: nat, length: u16)
    requires off <= |buffer|
    ensures WithHead(buffer, room, c, off, length) != Rejected
  {
    hide FieldAt, TakeU16, TakeByte;
  }

  /** From a flag byte that starts at 0, the bits that are written, as a number. */
  lemma FreshFlagsAre(c: Connect)
    requires c.flag == 0
    ensures Flags(c) as int ==
            (if c.cleanSession then 2 else 0)
            + (if c.will.None? then 0 else if c.will.value.qos == 1 then 12 else if c.will.value.qos == 2 then 28
               else 4)
            + (if c.password != [] then 64 else 0) + (if c.userName != [] then 128 else 0)
  {
    FreshBits(CleanBit(c.cleanSession), WillBits(c.will), UserBit(c.userName), PasswordBit(c.password));
  }

  lemma FreshBits(clean: bv8, will: bv8, user: bv8, password: bv8)
    requires clean == 0 || clean == 2
    requires will == 0 || will == 4 || will == 12 || will == 28
    requires user == 0 || user == 128
    requires password == 0 || password == 64
    ensures (0 | clean | will | user | password) as int == clean as int + will as int + user as int + password as int
  {
    assert 0 | clean | will | user | password == clean + will + user + password;
  }

  // ----- An empty identifier -----

  /** What was not read of the body is `cut`, and the room behind the buffer holds zeros. */
  ghost predicate Truncated(buffer: bytes, room: bytes, cut: bytes)
  {
    && |cut| == 2 && buffer <= room
    && forall i :: |buffer| <= i < |room| ==> room[i] == 0
  }

  /** When the last field of the body is short of two bytes and still comes out right, its end was
      zeros, or it had at most one byte. */
  lemma FieldAtCut(buffer: bytes, room: bytes, cut: bytes, pre: bytes, x: bytes, kept: u16)
    requires Truncated(buffer, room, cut) && buffer + cut == pre + Field(x) && |x| < 0x1_0000
    requires FieldAt(buffer, room, |pre|, kept).Decoded? && FieldAt(buffer, room, |pre|, kept).value.0 == x
    ensures cut[0] <= 1
  {
    assert cut == (pre + Field(x))[|buffer|..];
    if |x| >= 2 {
      assert x[|x| - 2] == room[|buffer|];
    }
  }

  lemma CutIsShort(buffer: bytes, cut: bytes, pre: bytes, post: bytes)
    requires buffer + cut == pre + post && |cut| <= |post|
    ensures buffer == pre + post[..|post| - |cut|] && post[..|post| - |cut|] + cut == post
  {
    assert (buffer + cut)[..|buffer|] == buffer && (buffer + cut)[|buffer|..] == cut;
  }

  lemma PasswordCut(c: Connect, d: Connect, buffer: bytes, room: bytes, cut: bytes, pre: bytes, kept: u16)
    requires Truncated(buffer, room, cut) && buffer + cut == pre + PasswordPart(c) && PasswordPart(c) != []
    requires |c.password| < 0x1_0000 && d.flag == Flags(c)
    requires var r := WithPassword(buffer, room, d, |pre|, kept); r.Decoded? && r.value.password == c.password
    ensures cut[0] <= 1
  {
    hide Flags, FieldAt;
    FieldAtCut(buffer, room, cut, pre, c.password, kept);
  }

  lemma UserCut(c: Connect, d: Connect, buffer: bytes, room: bytes, cut: bytes, pre: bytes, kept: u16)
    requires Truncated(buffer, room, cut) && buffer + cut == pre + UserPart(c) + PasswordPart(c)
    requires UserPart(c) + PasswordPart(c) != []
    requires |c.userName| < 0x1_0000 && |c.password| < 0x1_0000 && d.flag == Flags(c)
    requires var r := WithUser(buffer, room, d, |pre|, kept);
             r.Decoded? && r.value.userName == c.userName && r.value.password == c.password
    ensures cut[0] <= 1
  {
    hide Flags, FieldAt;
    var post := PasswordPart(c);
    if UserPart(c) == [] {
      assert pre + [] == pre;
      PasswordCut(c, d, buffer, room, cut, pre, kept);
    } else if post == [] {
      assert pre + UserPart(c) + [] == pre + Field(c.userName);
      FieldAtCut(buffer, room, cut, pre, c.userName, kept);
    } else {
      CutIsShort(buffer, cut, pre + Field(c.userName), post);
      FieldAtPart(buffer, room, pre, c.userName, post[..|post| - 2], kept);
      PasswordCut(c, d.(userName := c.userName), buffer, room, cut, pre + Field(c.userName), |c.userName|);
    }
  }

  lemma WillCut(c: Connect, d: Connect, buffer: bytes, room: bytes, cut: bytes, pre: bytes, idLength: u16, kept: u16)
    requires Truncated(buffer, room, cut) && buffer + cut == pre + WillPart(c) + UserPart(c) + PasswordPart(c)
    requires WillPart(c) + UserPart(c) + PasswordPart(c) != []
    requires LengthsFit(c) && FlagsAgree(c) && d.flag == Flags(c)
    requires WithWill(buffer, room, d, |pre|, idLength, kept) ==
             Decoded(d.(will := ConnectSeen(c).will, userName := c.userName, password := c.password,
                        cleanSession := Flags(c) & 0x02 > 0))
    ensures cut[0] <= 1
  {
    hide Flags, FieldAt, WithUser, WithPassword, UserPart, PasswordPart, WillQos, WillRetain;
    var post := UserPart(c) + PasswordPart(c);
    if WillPart(c) == [] {
      assert pre + [] == pre;
      UserCut(c, d, buffer, room, cut, pre, kept);
    } else {
      var w := c.will.value;
      assert buffer + cut == pre + WillBytes(w) + post;
      if post == [] {
        WillOnlyCut(c, d, buffer, room, cut, pre, idLength, kept);
      } else {
        PostIsField(c);
        CutIsShort(buffer, cut, pre + WillBytes(w), post);
        WillFields(buffer, room, pre, w, post[..|post| - 2], idLength);
        WillLength(w);
        hide WillBytes;
        assert buffer + cut == pre + WillBytes(w) + UserPart(c) + PasswordPart(c);
        UserCut(c, d.(will := ConnectSeen(c).will), buffer, room, cut, pre + WillBytes(w), kept);
      }
    }
  }

  lemma PostIsField(c: Connect)
    ensures UserPart(c) + PasswordPart(c) != [] ==> |UserPart(c) + PasswordPart(c)| >= 2
  {
    hide Flags;
  }

  lemma WillOnlyCut(c: Connect, d: Connect, buffer: bytes, room: bytes, cut: bytes, pre: bytes, idLength: u16,
                    kept: u16)
    requires c.will.Some? && Truncated(buffer, room, cut) && buffer + cut == pre + WillBytes(c.will.value)
    requires UserPart(c) + PasswordPart(c) == []
    requires LengthsFit(c) && d.flag == Flags(c) && Flags(c) & 0x04 > 0
    requires var r := WithWill(buffer, room, d, |pre|, idLength, kept);
             r.Decoded? && r.value.will == ConnectSeen(c).will
    ensures cut[0] <= 1
  {
    hide Flags, FieldAt, WillQos, WillRetain;
    var w := c.will.value;
    var post := Field(w.message);
    assert buffer + cut == (pre + Field(w.topic)) + post;
    CutIsShort(buffer, cut, pre + Field(w.topic), post);
    FieldAtPart(buffer, room, pre, w.topic, post[..|post| - 2], idLength);
    FieldAtCut(buffer, room, cut, pre + Field(w.topic), w.message, |w.topic|);
  }

  /** The decoder of a body with an empty identifier stops two bytes early. When it reads the right
      message all the same, these two bytes, which stay in the stream, begin with 0 or 1. */
  lemma EmptyIdentifierLeaves(c: Connect, rest: bytes, spare: nat)
    requires c.identifier == []
    requires DecodeConnect(ConnectSeen(c).header, ConnectBody(c) + rest, spare).value == Decoded(ConnectSeen(c))
    ensures var left := DecodeConnect(ConnectSeen(c).header, ConnectBody(c) + rest, spare).rest;
            left != [] && left[0] <= 1
  {
    hide Flags, ConnectSize, ConnectBody, ConnectOf, WillQos, WillRetain;
    var h, body, n := ConnectSeen(c).header, ConnectBody(c), ConnectSize(c);
    var t := TakeN(body + rest, n);
    DecodedIsConsistent(h, t.value, spare);
    FlagsAnnounce(c);
    SizeCountsBody(c);
    var cut := body[n..];
    assert t.value == body[..n] && t.rest == cut + rest && body[..n] + cut == body;
    CutBody(c, body[..n], cut, spare);
  }

  lemma CutBody(c: Connect, buffer: bytes, cut: bytes, spare: nat)
    requires c.identifier == [] && LengthsFit(c) && FlagsAgree(c) && |cut| == 2 && buffer + cut == ConnectBody(c)
    requires ConnectOf(ConnectSeen(c).header, buffer, spare) == Decoded(ConnectSeen(c))
    ensures cut[0] <= 1
  {
    hide Flags, ConnectOf, WithHead, WithWill, ConnectBody, WillPart, UserPart, PasswordPart;
    var options := WillPart(c) + UserPart(c) + PasswordPart(c);
    var h := ConnectSeen(c).header;
    var pre := HeadBytes(c) + [0, 0];
    EmptyIdentifierBody(c);
    hide HeadBytes, Room;
    if options == [] {
      assert cut == (pre + [])[|buffer|..] == [0, 0];
    } else {
      OptionsAreFields(c);
      CutIsShort(buffer, cut, pre, options);
      HeadOfCut(c, buffer, options[..|options| - 2], spare);
      HeadCompletes(c);
      var room := Room(buffer, h.remainingLength + spare);
      WillCut(c, Head(c), buffer, room, cut, pre, 0, |c.magic|);
    }
  }

  lemma EmptyIdentifierBody(c: Connect)
    requires c.identifier == []
    ensures ConnectBody(c) == HeadBytes(c) + [0, 0] + (WillPart(c) + UserPart(c) + PasswordPart(c))
  {
    hide HeadBytes, WillPart, UserPart, PasswordPart;
    assert IdentifierBytes([]) == [0, 0];
  }

  lemma OptionsAreFields(c: Connect)
    ensures var options := WillPart(c) + UserPart(c) + PasswordPart(c); options != [] ==> |options| >= 2
  {
    hide Flags;
  }

  lemma HeadOfCut(c: Connect, buffer: bytes, post: bytes, spare: nat)
    requires c.identifier == [] && LengthsFit(c) && buffer == HeadBytes(c) + [0, 0] + post
    ensures var h := ConnectSeen(c).header;
            ConnectOf(h, buffer, spare) ==
            WithWill(buffer, Room(buffer, h.remainingLength + spare), Head(c), |HeadBytes(c)| + 2, 0, |c.magic|)
  {
    hide Flags, ConnectOf, WithHead, WithWill;
    var h := ConnectSeen(c).header;
    var fixed := [c.version, Flags(c) as int] + U16(c.keepAlive) + IdentifierBytes([]);
    assert buffer == Field(c.magic) + (fixed + post);
    MagicStage(h, c.magic, fixed + post, spare);
    assert buffer == Field(c.magic) + [c.version, Flags(c) as int] + U16(c.keepAlive) + IdentifierBytes([]) + post;
    HeadStage(c, NO_CONNECT.(header := h, magic := c.magic), buffer, Room(buffer, h.remainingLength + spare),
              Field(c.magic), post, |c.magic|);
  }

  /** A flag byte that starts at 0 agrees with the fields exactly when the will's QoS is valid. */
  lemma FreshFlagsAgree(c: Connect)
    requires c.flag == 0
    ensures FlagsAgree(c) <==> (c.will.Some? ==> c.will.value.qos <= 2)
  {
    WillQosOfBits(c.will, CleanBit(c.cleanSession), UserBit(c.userName), PasswordBit(c.password));
  }

  lemma WillQosOfBits(will: Option<Will>, clean: bv8, user: bv8, password: bv8)
    requires clean == 0 || clean == 0x02
    requires user == 0 || user == 0x80
    requires password == 0 || password == 0x40
    ensures var f := 0 | clean | WillBits(will) | user | password;
            && (f & 0x04 > 0 <==> will.Some?) && (f & 0x02 > 0 <==> clean == 0x02)
            && (will.Some? ==> WillQos(f) == if will.value.qos == 1 then 1 else if will.value.qos == 2 then 2 else 0)
            && (will.Some? ==> (WillRetain(f) <==> clean == 0x02 || will.value.qos == 2))
  {
  }

  /** The will-retain bit is never written: from a flag byte that starts at 0, the retain flag
      comes back set exactly when the session is clean or the will has QoS 2, whatever it was. */
  lemma WillRetainIsLost(c: Connect)
    requires c.flag == 0 && c.will.Some?
    ensures ConnectSeen(c).will.value.retain <==> c.cleanSession || c.will.value.qos == 2
  {
    WillQosOfBits(c.will, CleanBit(c.cleanSession), UserBit(c.userName), PasswordBit(c.password));
  }
}
