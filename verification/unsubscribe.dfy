/** The UNSUBSCRIBE message on the wire (section 3.10 of MQTT Version 3.1.1). The decoder charges
    each entry one byte too many, so that it may stop early. */
module UnsubscribeCodec {
  import opened Bytes
  import opened Messages
  import opened Wire
  import opened FixedHeaders

  function TopicsSize(ts: seq<bytes>): nat
  {
    if ts == [] then 0 else 2 + Short(|ts[0]|) + TopicsSize(ts[1..])
  }

  function TopicsBytes(ts: seq<bytes>): bytes
  {
    if ts == [] then [] else Field(ts[0]) + TopicsBytes(ts[1..])
  }

  function UnsubscribeSize(m: Unsubscribe): nat { 2 + TopicsSize(m.payload) }

  function UnsubscribeBody(m: Unsubscribe): bytes { U16(m.packetId) + TopicsBytes(m.payload) }

  function EncodeUnsubscribe(m: Unsubscribe): bytes
  {
    HeaderBytes(UNSUBSCRIBE, m.header, UnsubscribeSize(m)) + UnsubscribeBody(m)
  }

  /** One entry of the payload. */
  function TakeTopic(s: bytes): Took<bytes>
  {
    var length := TakeU16(s, 0);
    TakeN(length.rest, length.value)
  }

  /** Entries until the announced length is used up; each is charged a byte that it does not have. */
  function TakeTopics(s: bytes, remaining: int): Took<seq<bytes>>
    decreases if remaining < 0 then 0 else remaining
  {
    if remaining <= 0 then Took([], s)
    else
      var t := TakeTopic(s);
      var more := TakeTopics(t.rest, remaining - 3 - TakeU16(s, 0).value);
      Took([t.value] + more.value, more.rest)
  }

  function DecodeUnsubscribe(h: Header, s: bytes): Took<Unsubscribe>
  {
    var id := TakeU16(s, 0);
    var ts := TakeTopics(id.rest, h.remainingLength - 2);
    Took(Unsubscribe(h, id.value, ts.value), ts.rest)
  }

  class UnsubscribePacket {
    var header: Header
    var packetId: u16
    var payload: seq<bytes>

    function View(): Unsubscribe
      reads this
    {
      Unsubscribe(header, packetId, payload)
    }

    constructor (h: Header)
      ensures View() == Unsubscribe(h, 0, [])
    {
      header, packetId, payload := h, 0, [];
    }

    constructor Of(m: Unsubscribe)
      ensures View() == m
    {
      header, packetId, payload := m.header, m.packetId, m.payload;
    }

    method WriteTo(w: Writer)
      modifies w
      ensures w.out == old(w.out) + EncodeUnsubscribe(View())
    {
      hide HeaderBytes, TopicsBytes, TopicsSize;
      var total := TotalSize();
      WriteHeader(UNSUBSCRIBE, header, total, w);
      w.WriteU16(packetId);
      WritePayload(w);
    }

    method TotalSize() returns (total: nat)
      ensures total == UnsubscribeSize(View())
    {
      hide Short;
      total := 2;
      var i := 0;
      while i < |payload|
        invariant 0 <= i <= |payload|
        invariant total + TopicsSize(payload[i..]) == UnsubscribeSize(View())
      {
        var length: u16 := Short(|payload[i]|);
        total := total + 2 + length;
        i := i + 1;
      }
    }

    method WritePayload(w: Writer)
      modifies w
      ensures w.out == old(w.out) + TopicsBytes(payload)
    {
      var i := 0;
      while i < |payload|
        invariant 0 <= i <= |payload|
        invariant w.out + TopicsBytes(payload[i..]) == old(w.out) + TopicsBytes(payload)
      {
        ghost var before := w.out;
        var length: u16 := Short(|payload[i]|);
        w.WriteU16(length);
        w.Write(payload[i]);
        assert w.out + TopicsBytes(payload[i + 1..]) == before + TopicsBytes(payload[i..]);
        i := i + 1;
      }
    }

    method Decode(r: Reader)
      requires View() == Unsubscribe(header, 0, [])
      modifies this, r
      ensures Took(View(), r.input) == DecodeUnsubscribe(old(header), old(r.input))
    {
      var remaining := header.remainingLength;
      packetId := r.ReadU16(packetId);
      remaining := remaining - 2;
      ReadTopics(r, remaining);
    }

    method ReadTopics(r: Reader, announced: int)
      requires payload == []
      modifies this`payload, r
      ensures Took(payload, r.input) == TakeTopics(old(r.input), announced)
    {
      hide TakeTopic, TakeU16;
      var remaining := announced;
      ghost var all := TakeTopics(r.input, remaining);
      while remaining > 0
        invariant TakeTopics(r.input, remaining).rest == all.rest
        invariant payload + TakeTopics(r.input, remaining).value == all.value
        decreases remaining
      {
        var path, length := ReadTopic(r);
        payload := payload + [path];
        remaining := remaining - 3 - length;
      }
      assert payload + [] == payload;
    }
  }

  method ReadTopic(r: Reader) returns (path: bytes, length: u16)
    modifies r
    ensures Took(path, r.input) == TakeTopic(old(r.input)) && length == TakeU16(old(r.input), 0).value
  {
    length := r.ReadU16(0);
    path := r.CopyN(length);
  }

  function UnsubscribeSeen(m: Unsubscribe): Unsubscribe
  {
    m.(header := OnWire(m.header, UnsubscribeSize(m)))
  }

  predicate TopicsFit(ts: seq<bytes>)
  {
    forall i :: 0 <= i < |ts| ==> |ts[i]| < 0x1_0000
  }

  /** How many topics the decoder reads when it has charged k bytes too many already. */
  function StopAt(ts: seq<bytes>, k: nat): (n: nat)
    ensures n <= |ts|
  {
    if TopicsSize(ts) <= k then 0 else 1 + StopAt(ts[1..], k + 1)
  }

  /** The decoder stops at the first n topics such that the rest is no longer than the n bytes
      charged too many. */
  lemma {:induction false} StopIsFirst(ts: seq<bytes>, k: nat)
    ensures var n := StopAt(ts, k);
            && TopicsSize(ts[n..]) <= k + n
            && forall i :: 0 <= i < n ==> TopicsSize(ts[i..]) > k + i
  {
    assert ts[0..] == ts;
    if TopicsSize(ts) > k {
      assert ts != [];
      hide TopicsSize;
      StopIsFirst(ts[1..], k + 1);
      var n := StopAt(ts, k);
      assert ts[1..][n - 1..] == ts[n..];
      forall i | 0 <= i < n ensures TopicsSize(ts[i..]) > k + i {
        if i > 0 {
          assert ts[1..][i - 1..] == ts[i..];
        }
      }
    }
  }

  /** Every topic is read exactly when there are not more of them than the last one, with its
      prefix, has bytes. */
  lemma {:induction false} ReadsAllIff(ts: seq<bytes>, k: nat)
    requires TopicsFit(ts) && ts != []
    ensures StopAt(ts, k) == |ts| <==> k + |ts| <= |ts[|ts| - 1]| + 2
  {
    if |ts| == 1 {
      assert TopicsSize(ts) == 2 + |ts[0]|;
    } else {
      ReadsAllIff(ts[1..], k + 1);
      assert ts[1..][|ts| - 2] == ts[|ts| - 1];
      LastIsLeft(ts);
    }
  }

  lemma {:induction false} LastIsLeft(ts: seq<bytes>)
    requires TopicsFit(ts) && ts != []
    ensures TopicsSize(ts) >= |ts[|ts| - 1]| + 2
  {
    if |ts| > 1 {
      LastIsLeft(ts[1..]);
      assert ts[1..][|ts| - 2] == ts[|ts| - 1];
    }
  }

  /** What is read off any stream that is long enough. */
  lemma TopicReads(s: bytes)
    requires |s| >= 2 && |s| >= 2 + 256 * (s[0] as int) + s[1] as int
    ensures var n := 256 * (s[0] as int) + s[1] as int; TakeTopic(s) == Took(s[2..2 + n], s[2 + n..])
  {
    var n := 256 * (s[0] as int) + s[1] as int;
    assert s[2..][..n] == s[2..2 + n] && s[2..][n..] == s[2 + n..];
  }

  lemma TopicRoundTrip(t: bytes, more: bytes)
    requires |t| < 0x1_0000
    ensures TakeTopic(Field(t) + more) == Took(t, more)
    ensures TakeU16(Field(t) + more, 0).value == |t|
  {
    assert Field(t) + more == U16(|t|) + (t + more);
    TakeU16OfU16(|t|, t + more, 0);
    TakeNOfN(t, more);
  }

  lemma TakeTopicsStep(t: bytes, more: bytes, remaining: nat)
    requires |t| < 0x1_0000 && remaining > 0
    ensures var m := TakeTopics(more, remaining - 3 - |t|);
            TakeTopics(Field(t) + more, remaining) == Took([t] + m.value, m.rest)
  {
    TopicRoundTrip(t, more);
  }

  lemma TopicsCons(ts: seq<bytes>, rest: bytes)
    requires TopicsFit(ts) && ts != []
    ensures TopicsBytes(ts) + rest == Field(ts[0]) + (TopicsBytes(ts[1..]) + rest)
    ensures TopicsSize(ts[1..]) == TopicsSize(ts) - 2 - |ts[0]|
  {
    Concat(Field(ts[0]), TopicsBytes(ts[1..]), rest);
    hide Field;
  }

  /** The topics that are read, and those that stay in the stream. */
  function ReadPart(ts: seq<bytes>, k: nat): seq<bytes>
  {
    if TopicsSize(ts) <= k then [] else [ts[0]] + ReadPart(ts[1..], k + 1)
  }

  function LeftPart(ts: seq<bytes>, k: nat): seq<bytes>
  {
    if TopicsSize(ts) <= k then ts else LeftPart(ts[1..], k + 1)
  }

  lemma {:induction false} PartsAtStop(ts: seq<bytes>, k: nat)
    ensures ReadPart(ts, k) == ts[..StopAt(ts, k)] && LeftPart(ts, k) == ts[StopAt(ts, k)..]
  {
    if TopicsSize(ts) > k {
      PartsAtStop(ts[1..], k + 1);
      Cons(ts, StopAt(ts[1..], k + 1));
    }
  }

  lemma {:induction false} TopicsPrefix(ts: seq<bytes>, k: nat, rest: bytes)
    requires TopicsFit(ts)
    ensures TakeTopics(TopicsBytes(ts) + rest, TopicsSize(ts) - k) ==
            Took(ReadPart(ts, k), TopicsBytes(LeftPart(ts, k)) + rest)
  {
    hide TakeTopic, TakeU16, TakeN, Field;
    if TopicsSize(ts) > k {
      TopicsCons(ts, rest);
      TopicsPrefix(ts[1..], k + 1, rest);
      TakeTopicsStep(ts[0], TopicsBytes(ts[1..]) + rest, TopicsSize(ts) - k);
    }
  }

  /** Exactly which topics come back, and what is left in the stream for the next message. */
  lemma UnsubscribeReadsPrefix(m: Unsubscribe, rest: bytes)
    requires TopicsFit(m.payload)
    ensures var n := StopAt(m.payload, 0);
            DecodeUnsubscribe(UnsubscribeSeen(m).header, UnsubscribeBody(m) + rest) ==
            Took(UnsubscribeSeen(m).(payload := m.payload[..n]), TopicsBytes(m.payload[n..]) + rest)
  {
    assert UnsubscribeBody(m) + rest == U16(m.packetId) + (TopicsBytes(m.payload) + rest);
    TakeU16OfU16(m.packetId, TopicsBytes(m.payload) + rest, 0);
    TopicsPrefix(m.payload, 0, rest);
    PartsAtStop(m.payload, 0);
  }

  predicate UnsubscribeFits(m: Unsubscribe)
  {
    && TopicsFit(m.payload)
    && (m.payload != [] ==> |m.payload| <= |m.payload[|m.payload| - 1]| + 2)
  }

  lemma TakeTopicShortens(s: bytes)
    ensures |TakeTopic(s).rest| <= |s|
  {
  }

  lemma {:induction false} TakeTopicsShortens(s: bytes, remaining: int)
    ensures |TakeTopics(s, remaining).rest| <= |s|
    decreases if remaining < 0 then 0 else remaining
  {
    hide TakeTopic, TakeU16;
    if remaining > 0 {
      TakeTopicShortens(s);
      TakeTopicsShortens(TakeTopic(s).rest, remaining - 3 - TakeU16(s, 0).value);
    }
  }

  lemma {:induction false} TakenTopicsFit(s: bytes, remaining: int)
    ensures TopicsFit(TakeTopics(s, remaining).value)
    decreases if remaining < 0 then 0 else remaining
  {
    if remaining > 0 {
      TakenTopicsFit(TakeTopic(s).rest, remaining - 3 - TakeU16(s, 0).value);
    }
  }

  /** The body is read back exactly when the topics fit their length prefixes and there are not
      more of them than the last one, with its prefix, has bytes. */
  lemma UnsubscribeBodyRoundTrip(m: Unsubscribe, rest: bytes)
    ensures var t := DecodeUnsubscribe(UnsubscribeSeen(m).header, UnsubscribeBody(m) + rest);
            (t.value == UnsubscribeSeen(m) <==> UnsubscribeFits(m)) && (UnsubscribeFits(m) ==> t.rest == rest)
  {
    hide TakeU16, TakeTopics, TopicsFit;
    if TopicsFit(m.payload) {
      UnsubscribeReadsPrefix(m, rest);
      if m.payload != [] {
        ReadsAllIff(m.payload, 0);
      }
      var n := StopAt(m.payload, 0);
      assert n == |m.payload| ==> TopicsBytes(m.payload[n..]) + rest == rest && m.payload[..n] == m.payload;
    } else {
      var id := TakeU16(UnsubscribeBody(m) + rest, 0);
      TakenTopicsFit(id.rest, UnsubscribeSize(m) - 2);
    }
  }
}
