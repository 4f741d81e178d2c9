/** The SUBSCRIBE message on the wire (section 3.8 of MQTT Version 3.1.1). */
module SubscribeCodec {
  import opened Bytes
  import opened Messages
  import opened Wire
  import opened FixedHeaders

  function FiltersSize(fs: seq<TopicFilter>): nat
  {
    if fs == [] then 0 else 2 + Short(|fs[0].topicPath|) + 1 + FiltersSize(fs[1..])
  }

  function FilterBytes(f: TopicFilter): bytes { Field(f.topicPath) + [f.requestedQos] }

  function FiltersBytes(fs: seq<TopicFilter>): bytes
  {
    if fs == [] then [] else FilterBytes(fs[0]) + FiltersBytes(fs[1..])
  }

  function SubscribeSize(m: Subscribe): nat { 2 + FiltersSize(m.payload) }

  function SubscribeBody(m: Subscribe): bytes { U16(m.packetId) + FiltersBytes(m.payload) }

  function EncodeSubscribe(m: Subscribe): bytes
  {
    HeaderBytes(SUBSCRIBE, m.header, SubscribeSize(m)) + SubscribeBody(m)
  }

  /** One entry of the payload. */
  function TakeFilter(s: bytes): Took<TopicFilter>
  {
    var length := TakeU16(s, 0);
    var path := TakeN(length.rest, length.value);
    var qos := TakeByte(path.rest, 0);
    Took(TopicFilter(path.value, qos.value), qos.rest)
  }

  /** Entries until the announced length is used up. */
  function TakeFilters(s: bytes, remaining: int): Took<seq<TopicFilter>>
    decreases if remaining < 0 then 0 else remaining
  {
    if remaining <= 0 then Took([], s)
    else
      var f := TakeFilter(s);
      var more := TakeFilters(f.rest, remaining - 3 - TakeU16(s, 0).value);
      Took([f.value] + more.value, more.rest)
  }

  function DecodeSubscribe(h: Header, s: bytes): Took<Subscribe>
  {
    var id := TakeU16(s, 0);
    var fs := TakeFilters(id.rest, h.remainingLength - 2);
    Took(Subscribe(h, id.value, fs.value), fs.rest)
  }

  class SubscribePacket {
    var header: Header
    var packetId: u16
    var payload: seq<TopicFilter>

    function View(): Subscribe
      reads this
    {
      Subscribe(header, packetId, payload)
    }

    constructor (h: Header)
      ensures View() == Subscribe(h, 0, [])
    {
      header, packetId, payload := h, 0, [];
    }

    constructor Of(m: Subscribe)
      ensures View() == m
    {
      header, packetId, payload := m.header, m.packetId, m.payload;
    }

    method WriteTo(w: Writer)
      modifies w
      ensures w.out == old(w.out) + EncodeSubscribe(View())
    {
      hide HeaderBytes, FiltersBytes, FiltersSize;
      var total := TotalSize();
      WriteHeader(SUBSCRIBE, header, total, w);
      w.WriteU16(packetId);
      WritePayload(w);
    }

    method TotalSize() returns (total: nat)
      ensures total == SubscribeSize(View())
    {
      hide Short;
      total := 2;
      var i := 0;
      while i < |payload|
        invariant 0 <= i <= |payload|
        invariant total + FiltersSize(payload[i..]) == SubscribeSize(View())
      {
        var length: u16 := Short(|payload[i].topicPath|);
        total := total + 2 + length + 1;
        i := i + 1;
      }
    }

    method WritePayload(w: Writer)
      modifies w
      ensures w.out == old(w.out) + FiltersBytes(payload)
    {
      hide FilterBytes;
      var i := 0;
      while i < |payload|
        invariant 0 <= i <= |payload|
        invariant w.out + FiltersBytes(payload[i..]) == old(w.out) + FiltersBytes(payload)
      {
        ghost var before := w.out;
        WriteFilter(payload[i], w);
        assert before + FilterBytes(payload[i]) + FiltersBytes(payload[i + 1..]) == before + FiltersBytes(payload[i..]);
        i := i + 1;
      }
    }

    method Decode(r: Reader)
      requires View() == Subscribe(header, 0, [])
      modifies this, r
      ensures Took(View(), r.input) == DecodeSubscribe(old(header), old(r.input))
    {
      var remaining := header.remainingLength;
      packetId := r.ReadU16(packetId);
      remaining := remaining - 2;
      ReadFilters(r, remaining);
    }

    method ReadFilters(r: Reader, announced: int)
      requires payload == []
      modifies this`payload, r
      ensures Took(payload, r.input) == TakeFilters(old(r.input), announced)
    {
      hide TakeFilter, TakeU16;
      var remaining := announced;
      ghost var all := TakeFilters(r.input, remaining);
      while remaining > 0
        invariant TakeFilters(r.input, remaining).rest == all.rest
        invariant payload + TakeFilters(r.input, remaining).value == all.value
        decreases remaining
      {
        var f, length := ReadFilter(r);
        payload := payload + [f];
        remaining := remaining - 3 - length;
      }
      assert payload + [] == payload;
    }
  }

  method WriteFilter(f: TopicFilter, w: Writer)
    modifies w
    ensures w.out == old(w.out) + FilterBytes(f)
  {
    var length: u16 := Short(|f.topicPath|);
    w.WriteU16(length);
    w.Write(f.topicPath);
    w.WriteByte(f.requestedQos);
  }

  method ReadFilter(r: Reader) returns (f: TopicFilter, length: u16)
    modifies r
    ensures Took(f, r.input) == TakeFilter(old(r.input)) && length == TakeU16(old(r.input), 0).value
  {
    length := r.ReadU16(0);
    var path := r.CopyN(length);
    var qos := r.ReadByte(0);
    f := TopicFilter(path, qos);
  }

  function SubscribeSeen(m: Subscribe): Subscribe
  {
    m.(header := OnWire(m.header, SubscribeSize(m)))
  }

  predicate PathsFit(fs: seq<TopicFilter>)
  {
    forall i :: 0 <= i < |fs| ==> |fs[i].topicPath| < 0x1_0000
  }

  /** What is read off any stream that is long enough. */
  lemma FilterReads(s: bytes)
    requires |s| >= 2 && |s| >= 3 + 256 * (s[0] as int) + s[1] as int
    ensures var n := 256 * (s[0] as int) + s[1] as int;
            TakeFilter(s) == Took(TopicFilter(s[2..2 + n], s[2 + n]), s[3 + n..])
  {
    var n := 256 * (s[0] as int) + s[1] as int;
    assert s[2..][..n] == s[2..2 + n] && s[2..][n..] == s[2 + n..] && s[2 + n..][1..] == s[3 + n..];
  }

  lemma FilterRoundTrip(f: TopicFilter, more: bytes)
    requires |f.topicPath| < 0x1_0000
    ensures TakeFilter(FilterBytes(f) + more) == Took(f, more)
    ensures TakeU16(FilterBytes(f) + more, 0).value == |f.topicPath|
  {
    var tail := [f.requestedQos] + more;
    assert FilterBytes(f) + more == U16(|f.topicPath|) + (f.topicPath + tail);
    TakeU16OfU16(|f.topicPath|, f.topicPath + tail, 0);
    TakeNOfN(f.topicPath, tail);
    assert tail[1..] == more;
  }

  lemma TakeFiltersStep(f: TopicFilter, more: bytes, remaining: nat)
    requires |f.topicPath| < 0x1_0000 && remaining > 0
    ensures var t := TakeFilters(more, remaining - 3 - |f.topicPath|);
            TakeFilters(FilterBytes(f) + more, remaining) == Took([f] + t.value, t.rest)
  {
    FilterRoundTrip(f, more);
  }

  lemma FiltersCons(fs: seq<TopicFilter>, rest: bytes)
    requires PathsFit(fs) && fs != []
    ensures FiltersBytes(fs) + rest == FilterBytes(fs[0]) + (FiltersBytes(fs[1..]) + rest)
    ensures FiltersSize(fs[1..]) == FiltersSize(fs) - 3 - |fs[0].topicPath|
  {
    Concat(FilterBytes(fs[0]), FiltersBytes(fs[1..]), rest);
    hide FilterBytes;
  }

  lemma {:induction false} FiltersRoundTrip(fs: seq<TopicFilter>, rest: bytes)
    requires PathsFit(fs)
    ensures TakeFilters(FiltersBytes(fs) + rest, FiltersSize(fs)) == Took(fs, rest)
  {
    hide TakeFilter, TakeU16, FilterBytes, Short;
    if fs == [] {
      assert FiltersBytes(fs) + rest == rest;
    } else {
      FiltersCons(fs, rest);
      FiltersRoundTrip(fs[1..], rest);
      TakeFiltersStep(fs[0], FiltersBytes(fs[1..]) + rest, FiltersSize(fs));
      Cons(fs, 0);
    }
  }

  lemma TakenPathFits(s: bytes)
    ensures |TakeFilter(s).value.topicPath| < 0x1_0000
  {
  }

  lemma TakeFilterShortens(s: bytes)
    ensures |TakeFilter(s).rest| <= |s|
  {
  }

  lemma {:induction false} TakeFiltersShortens(s: bytes, remaining: int)
    ensures |TakeFilters(s, remaining).rest| <= |s|
    decreases if remaining < 0 then 0 else remaining
  {
    hide TakeFilter, TakeU16;
    if remaining > 0 {
      TakeFilterShortens(s);
      TakeFiltersShortens(TakeFilter(s).rest, remaining - 3 - TakeU16(s, 0).value);
    }
  }

  /** Whatever is read has paths short enough for their length prefix. */
  lemma {:induction false} TakenPathsFit(s: bytes, remaining: int)
    ensures PathsFit(TakeFilters(s, remaining).value)
    decreases if remaining < 0 then 0 else remaining
  {
    hide TakeFilter, TakeU16;
    if remaining > 0 {
      TakenPathFits(s);
      TakenPathsFit(TakeFilter(s).rest, remaining - 3 - TakeU16(s, 0).value);
    }
  }

  /** The body is read back exactly when every path fits its length prefix. */
  lemma SubscribeBodyRoundTrip(m: Subscribe, rest: bytes)
    ensures var t := DecodeSubscribe(SubscribeSeen(m).header, SubscribeBody(m) + rest);
            (t.value == SubscribeSeen(m) <==> PathsFit(m.payload)) && (PathsFit(m.payload) ==> t.rest == rest)
  {
    hide TakeU16, U16, TakeFilters, FiltersBytes, PathsFit;
    assert SubscribeBody(m) + rest == U16(m.packetId) + (FiltersBytes(m.payload) + rest);
    TakeU16OfU16(m.packetId, FiltersBytes(m.payload) + rest, 0);
    if PathsFit(m.payload) {
      FiltersRoundTrip(m.payload, rest);
    }
    TakenPathsFit(FiltersBytes(m.payload) + rest, FiltersSize(m.payload));
  }
}
