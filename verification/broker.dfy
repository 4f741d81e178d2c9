/** The broker's side of one connection: SUBSCRIBE, UNSUBSCRIBE, PUBLISH and the unsubscribe loop
    of Close, against the shared topic index and the sessions. */
module Broker {
  import opened Bytes
  import opened Messages
  import opened TopicLevels
  import opened SubscriptionTree
  import opened MemTopics
  import opened Books
  import opened Sessions
  import R = RetainedTree
  import Trie

  const PLAIN: Header := Header(false, 0, 0, 0)

  /** What all connections share. `next` stands for the allocator of subscription pointers. */
  class Blackboard {
    var index: Topics
    var sessions: map<bytes, Session>
    var next: nat
    ghost var owner: map<nat, ConnId>

    ghost predicate Valid()
      reads this, index, index.Repr
    {
      && index.Valid() && this !in index.Repr
      && (forall c :: c in sessions ==> sessions[c] !in index.Repr)
      && (forall c, d :: c in sessions && d in sessions && c != d ==> sessions[c] != sessions[d])
    }

    constructor ()
      ensures Valid() && fresh(index) && fresh(index.Repr)
      ensures index.table == map[] && index.shelf == EMPTY_SHELF && sessions == map[] && next == 0 && owner == map[]
    {
      index := new Topics();
      sessions, next, owner := map[], 0, map[];
    }

    /** The channels that the write handlers of the sessions send on. */
    ghost function Outlets(): set<Outbox?>
      reads this, sessions.Values
    {
      set c | c in sessions && sessions[c].onWrite != null :: sessions[c].onWrite
    }

    /** No two sessions send on the same channel. */
    ghost predicate Wired()
      reads this, index, sessions.Values
    {
      forall c :: c in sessions && sessions[c].onWrite != null ==>
        && sessions[c].onWrite !in index.Repr
        && forall d :: d in sessions && sessions[d].onWrite == sessions[c].onWrite ==> d == c
    }

    /** A pointer that no subscription has yet. */
    method Allocate(id: ConnId) returns (ptr: nat)
      modifies this`next, this`owner
      ensures ptr == old(next) && next == old(next) + 1 && owner == old(owner)[ptr := id]
    {
      ptr := next;
      owner := owner[ptr := id];
      next := next + 1;
    }
  }

  /** The deliveries owed to one client: how many of the found subscribers are its own. */
  function CountFor(client: bytes, subs: seq<Subscription>): nat
  {
    if subs == [] then 0
    else CountFor(client, subs[..|subs| - 1]) + if subs[|subs| - 1].client == client then 1 else 0
  }

  lemma EntriesForRemove(m: map<Entry, Subscription>, e: Entry, client: bytes)
    requires e in m
    ensures |EntriesFor(m, client)| == |EntriesFor(m - {e}, client)| + if e.sub.client == client then 1 else 0
  {
    var hits, hits' := EntriesFor(m, client), EntriesFor(m - {e}, client);
    assert hits == if e.sub.client == client then hits' + {e} else hits';
  }

  lemma {:induction false} CountIsDeliveries(found: seq<Entry>, subs: seq<Subscription>, m: map<Entry, Subscription>,
                                             client: bytes)
    requires Lists(found, subs, m) && forall e :: e in m ==> m[e] == e.sub
    ensures CountFor(client, subs) == |EntriesFor(m, client)|
  {
    if |found| == 0 {
      assert EntriesFor(m, client) == {};
    } else {
      var last := |found| - 1;
      ListsInit(found, subs, m);
      CountIsDeliveries(found[..last], subs[..last], m - {found[last]}, client);
      EntriesForRemove(m, found[last], client);
    }
  }

  /** The search for subscribers reports an error: a bad QoS, or a malformed level that it
      reaches. */
  predicate Refused(nodes: set<Path>, msg: Publish)
  {
    var p := Split(msg.topicName);
    !ValidQos(msg.header.qosLevel % 0x100) || (!p.ok && RunsInto(nodes, p.levels))
  }

  /** The deliveries that a message owes to a client. */
  function Owed(table: Table, nodes: set<Path>, msg: Publish, client: bytes): nat
  {
    if Refused(nodes, msg) then 0 else Deliveries(table, Split(msg.topicName).levels, client)
  }

  /** Exactly when a message is refused: its QoS, as a byte, is above 2, or its topic is malformed and
      some node of the tree has, level by level, the topic's level or `+`, and no `#`. */
  lemma RefusedIff(nodes: set<Path>, msg: Publish)
    ensures var ls := Split(msg.topicName).levels;
            Refused(nodes, msg) <==>
            || msg.header.qosLevel % 0x100 > 2
            || (!Split(msg.topicName).ok
                && exists p :: p in nodes && |p| == |ls|
                               && forall i :: 0 <= i < |ls| ==> p[i] != [0x23] && (p[i] == [0x2B] || p[i] == ls[i]))
  {
    var ls := Split(msg.topicName).levels;
    forall p ensures Crosses(p, ls) <==>
                     |p| == |ls| && forall i :: 0 <= i < |ls| ==> p[i] != [0x23] && (p[i] == [0x2B] || p[i] == ls[i])
    {
    }
  }

  /** A message with a QoS of 0, 1 or 2 and a well-formed topic is never refused: it owes a client one delivery
      for each of its entries whose filter matches. */
  lemma OwedIsDeliveries(table: Table, nodes: set<Path>, msg: Publish, client: bytes)
    requires 0 <= msg.header.qosLevel <= 2 && Split(msg.topicName).ok
    ensures var t := Split(msg.topicName).levels;
            exists entries: set<Entry> ::
              && Owed(table, nodes, msg, client) == |entries|
              && forall e :: e in entries <==> e in table && e.sub.client == client && Match(e.filter, t)
  {
    RefusedIff(nodes, msg);
    hide Split, Match, Refused;
    var entries := EntriesFor(Matching(table, Split(msg.topicName).levels), client);
    assert Owed(table, nodes, msg, client) == |entries|;
  }

  lemma CountOne(client: bytes, subs: seq<Subscription>, i: nat)
    requires i < |subs|
    ensures CountFor(client, subs[..i + 1]) == CountFor(client, subs[..i]) + if subs[i].client == client then 1 else 0
  {
    assert subs[..i + 1][..i] == subs[..i];
  }

  lemma CountEach(subs: seq<Subscription>, i: nat)
    requires i < |subs|
    ensures forall c :: CountFor(c, subs[..i + 1]) == CountFor(c, subs[..i]) + if subs[i].client == c then 1 else 0
  {
    forall c ensures CountFor(c, subs[..i + 1]) == CountFor(c, subs[..i]) + if subs[i].client == c then 1 else 0 {
      CountOne(c, subs, i);
    }
  }

  lemma OneCopy(m: Message)
    ensures Copies(m, 1) == [m] && Copies(m, 0) == []
  {
  }

  lemma CopiesAdd(s: seq<Message>, m: Message, n: nat, k: nat)
    ensures s + Copies(m, n) + Copies(m, k) == s + Copies(m, n + k)
  {
  }

  function Copies(m: Message, n: nat): seq<Message>
  {
    seq(n, i => m)
  }

  function WrittenTimes(b: Box, m: Message, n: nat): Box
  {
    if n == 0 then b else Written(WrittenTimes(b, m, n - 1), m)
  }

  /** Written online, each copy reaches the handler; offline, copies queue up to the limit. */
  lemma {:induction false} WrittenTimesMeans(b: Box, m: Message, n: nat)
    ensures var b' := WrittenTimes(b, m, n);
            && b'.online == b.online && b'.limit == b.limit
            && b'.handled == b.handled + seq(if b.online then n else 0, i => m)
            && b'.queue == b.queue + seq(if b.online || b.limit <= |b.queue| then 0
                                         else if n < b.limit - |b.queue| then n else b.limit - |b.queue|, i => m)
  {
    if n > 0 {
      WrittenTimesMeans(b, m, n - 1);
    }
  }

  function Flatten(batches: seq<seq<Publish>>): seq<Publish>
  {
    if batches == [] then [] else Flatten(batches[..|batches| - 1]) + batches[|batches| - 1]
  }

  lemma {:induction false} FlattenConcat(a: seq<seq<Publish>>, b: seq<seq<Publish>>)
    ensures Flatten(a + b) == Flatten(a) + Flatten(b)
  {
    if b == [] {
      assert a + b == a;
    } else {
      FlattenConcat(a, b[..|b| - 1]);
      assert (a + b)[..|a + b| - 1] == a + b[..|b| - 1];
    }
  }

  /** The batches follow each other. */
  lemma FlattenIsInOrder(a: seq<seq<Publish>>, batch: seq<Publish>, b: seq<seq<Publish>>)
    ensures Flatten(a + [batch] + b) == Flatten(a) + batch + Flatten(b)
  {
    FlattenConcat(a + [batch], b);
    FlattenConcat(a, [batch]);
    assert [batch][..0] == [] && Flatten([batch]) == [] + batch;
  }

  function AsMessages(ps: seq<Publish>): seq<Message>
  {
    seq(|ps|, i requires 0 <= i < |ps| => MPublish(ps[i]))
  }

  /** A batch holds the retained messages of one filter, each once; a refused filter has none. */
  ghost predicate IsBatch(batch: seq<Publish>, kept: Retention, r: TopicFilter)
  {
    if Acceptable(r) then exists found :: Lists(found, batch, MatchingKept(kept, Split(r.topicPath).levels))
    else batch == []
  }

  /** Exactly which retained messages follow the SUBACK for one filter: each that the filter matches,
      and as many as there are of these, when the filter is accepted. */
  lemma BatchIff(batch: seq<Publish>, kept: Retention, r: TopicFilter)
    requires IsBatch(batch, kept, r)
    ensures var f := Split(r.topicPath);
            if (r.requestedQos == 0 || r.requestedQos == 1 || r.requestedQos == 2) && f.ok then
              && (forall m :: m in batch <==> exists p :: p in kept && Match(f.levels, p) && kept[p] == m)
              && |batch| == |MatchingKept(kept, f.levels)|
            else batch == []
  {
    hide Split, Match, Lists, MatchingKept;
    var f := Split(r.topicPath).levels;
    if Acceptable(r) {
      var found :| Lists(found, batch, MatchingKept(kept, f));
      ListsLength(found, batch, MatchingKept(kept, f));
      forall m ensures m in batch <==> exists p :: p in kept && Match(f, p) && kept[p] == m {
        ListsValue(found, batch, MatchingKept(kept, f), m);
        KeptMatches(kept, f, m);
      }
    }
  }

  lemma KeptMatches(kept: Retention, f: Path, m: Publish)
    ensures (exists p :: p in MatchingKept(kept, f) && MatchingKept(kept, f)[p] == m) <==>
            exists p :: p in kept && Match(f, p) && kept[p] == m
  {
    hide Match;
    if p :| p in kept && Match(f, p) && kept[p] == m {
      assert p in MatchingKept(kept, f) && MatchingKept(kept, f)[p] == m;
    }
  }

  ghost predicate AreBatches(batches: seq<seq<Publish>>, kept: Retention, rs: seq<TopicFilter>)
  {
    |batches| == |rs| && forall i :: 0 <= i < |rs| ==> IsBatch(batches[i], kept, rs[i])
  }

  lemma BatchesSnoc(batches: seq<seq<Publish>>, kept: Retention, rs: seq<TopicFilter>, batch: seq<Publish>,
                    r: TopicFilter)
    requires AreBatches(batches, kept, rs) && IsBatch(batch, kept, r)
    ensures AreBatches(batches + [batch], kept, rs + [r])
    ensures Flatten(batches + [batch]) == Flatten(batches) + batch
  {
    assert (batches + [batch])[..|batches|] == batches;
  }

  /** The return codes of a SUBSCRIBE. */
  function Answers(rs: seq<TopicFilter>): seq<byte>
  {
    seq(|rs|, i requires 0 <= i < |rs| =>
      if (rs[i].requestedQos == 0 || rs[i].requestedQos == 1 || rs[i].requestedQos == 2) && Split(rs[i].topicPath).ok
      then rs[i].requestedQos else 0x80)
  }

  lemma InOrder(sent: seq<Message>, ack: Message, ps: seq<Publish>)
    ensures var all := sent + [ack] + AsMessages(ps);
            && |all| == |sent| + 1 + |ps| && all[|sent|] == ack
            && forall i :: 0 <= i < |ps| ==> all[|sent| + 1 + i] == MPublish(ps[i])
  {
  }

  lemma AnswersAre(v: View, peer: Peer, rs: seq<TopicFilter>)
    requires v.codes == []
    ensures SubscribeAll(v, peer, rs).codes == Answers(rs)
  {
    ReturnCodes(v, peer, rs);
    hide SubscribeAll;
  }

  class ConBroker {
    const id: ConnId
    const outbox: Outbox
    var session: Session?
    var subscription: map<bytes, Subscription>
    var cleanSession: bool
    ghost var leaving: bool  // the client has said DISCONNECT

    constructor (id: ConnId)
      ensures this.id == id && session == null && subscription == map[] && !cleanSession && !leaving
      ensures fresh(outbox) && outbox.sent == []
    {
      this.id := id;
      outbox := new Outbox();
      session, subscription, cleanSession, leaving := null, map[], false, false;
    }

    method WriteMessage(msg: Message)
      modifies outbox
      ensures outbox.sent == old(outbox.sent) + [msg]
    {
      outbox.Send(msg);
    }

    ghost predicate Valid(bb: Blackboard)
      reads this, bb, bb.index, bb.index.Repr
    {
      && bb.Valid()
      && this !in bb.index.Repr && outbox !in bb.index.Repr
      && (session != null ==> session !in bb.index.Repr)
    }

    ghost function Look(bb: Blackboard): View
      reads this, session, bb, bb.index
    {
      View(bb.index.table, bb.next, bb.owner, subscription, if session == null then map[] else session.topics, [])
    }

    method ForgetOld(bb: Blackboard, path: bytes)
      requires Valid(bb) && session != null
      modifies this`subscription, bb.index.Repr
      ensures Valid(bb) && fresh(bb.index.Repr - old(bb.index.Repr))
      ensures Look(bb) == Forget(old(Look(bb)), path)
      ensures bb.index.shelf == old(bb.index.shelf)
    {
      if path in subscription {
        var oldSub := subscription[path];
        var _ := bb.index.Unsubscribe(oldSub.topic, Some(oldSub));
        subscription := subscription - {path};
      }
    }

    method AddNew(bb: Blackboard, r: TopicFilter) returns (code: byte, ok: bool)
      requires Valid(bb) && session != null
      modifies this`subscription, bb`next, bb`owner, session`topics, bb.index.Repr
      ensures Valid(bb) && fresh(bb.index.Repr - old(bb.index.Repr))
      ensures Look(bb).(codes := [code]) == Add(old(Look(bb)), Peer(id, session.clientId), r)
      ensures ok == Acceptable(r)
      ensures bb.index.shelf == old(bb.index.shelf)
    {
      hide Topics.Valid, TableStep;
      var sub;
      sub, code, ok := Request(bb, r);
      if ok {
        subscription := subscription[r.topicPath := sub];
        session.AddTopics(r.topicPath, r.requestedQos);
      }
    }

    /** Enter a new subscription pointer in the index. */
    method Request(bb: Blackboard, r: TopicFilter) returns (sub: Subscription, code: byte, ok: bool)
      requires Valid(bb) && session != null
      modifies bb`next, bb`owner, bb.index.Repr
      ensures Valid(bb) && fresh(bb.index.Repr - old(bb.index.Repr))
      ensures sub == Subscription(old(bb.next), session.clientId, r.topicPath, r.requestedQos)
      ensures bb.next == old(bb.next) + 1 && bb.owner == old(bb.owner)[old(bb.next) := id]
      ensures bb.index.table == TableStep(old(bb.index.table), SubscribeOp(r.topicPath, r.requestedQos, Some(sub)))
      ensures ok == Acceptable(r) && code == if ok then r.requestedQos else QOS_FAILURE
      ensures bb.index.shelf == old(bb.index.shelf)
    {
      var ptr := bb.Allocate(id);
      sub := Subscription(ptr, session.clientId, r.topicPath, r.requestedQos);
      code, ok := bb.index.Subscribe(r.topicPath, r.requestedQos, Some(sub));
    }

    /** One filter of a SUBSCRIBE. */
    method SubscribeOne(bb: Blackboard, r: TopicFilter, retcodes: seq<byte>, remsg: R.Collector)
      returns (codes: seq<byte>, ghost batch: seq<Publish>)
      requires Valid(bb) && session != null
      requires remsg !in bb.index.Repr
      modifies this`subscription, bb`next, bb`owner, session`topics, bb.index.Repr, remsg
      ensures Valid(bb) && fresh(bb.index.Repr - old(bb.index.Repr))
      ensures Look(bb).(codes := codes) ==
              Add(Forget(old(Look(bb)).(codes := retcodes), r.topicPath), Peer(id, session.clientId), r)
      ensures bb.index.shelf == old(bb.index.shelf)
      ensures remsg.msgs == old(remsg.msgs) + batch && IsBatch(batch, bb.index.shelf.kept, r)
    {
      hide Topics.Valid, Add, Forget;
      CodesApart(Look(bb), retcodes, Peer(id, session.clientId), r);
      ForgetOld(bb, r.topicPath);
      var code, ok := AddNew(bb, r);
      codes := retcodes + [code];
      batch := [];
      if ok {
        ghost var found;
        ok, found, batch := bb.index.Retained(r.topicPath, remsg);
      }
    }

    method SubscribeEach(bb: Blackboard, ts: seq<TopicFilter>)
      returns (retcodes: seq<byte>, msgs: seq<Publish>, ghost batches: seq<seq<Publish>>)
      requires Valid(bb) && session != null
      modifies this`subscription, bb`next, bb`owner, session`topics, bb.index.Repr
      ensures Valid(bb) && fresh(bb.index.Repr - old(bb.index.Repr))
      ensures Look(bb).(codes := retcodes) == SubscribeAll(old(Look(bb)), Peer(id, session.clientId), ts)
      ensures bb.index.shelf == old(bb.index.shelf)
      ensures msgs == Flatten(batches) && AreBatches(batches, bb.index.shelf.kept, ts)
    {
      var remsg := new R.Collector();
      retcodes, batches := SubscribeLoop(bb, ts, remsg);
      msgs := remsg.msgs;
    }

    /** All filters in order; the retained messages collect in `remsg`. */
    method SubscribeLoop(bb: Blackboard, ts: seq<TopicFilter>, remsg: R.Collector)
      returns (retcodes: seq<byte>, ghost batches: seq<seq<Publish>>)
      requires Valid(bb) && session != null
      requires remsg !in bb.index.Repr && remsg.msgs == []
      modifies this`subscription, bb`next, bb`owner, session`topics, bb.index.Repr, remsg
      ensures Valid(bb) && fresh(bb.index.Repr - old(bb.index.Repr))
      ensures Look(bb).(codes := retcodes) == SubscribeAll(old(Look(bb)), Peer(id, session.clientId), ts)
      ensures bb.index.shelf == old(bb.index.shelf)
      ensures remsg.msgs == Flatten(batches) && AreBatches(batches, bb.index.shelf.kept, ts)
    {
      hide Topics.Valid, Add, Forget, IsBatch;
      retcodes, batches := [], [];
      var i := 0;
      while i < |ts|
        invariant 0 <= i <= |ts|
        invariant Valid(bb) && fresh(bb.index.Repr - old(bb.index.Repr)) && remsg !in bb.index.Repr
        invariant Look(bb).(codes := retcodes) == SubscribeAll(old(Look(bb)), Peer(id, session.clientId), ts[..i])
        invariant bb.index.shelf == old(bb.index.shelf)
        invariant remsg.msgs == Flatten(batches) && AreBatches(batches, bb.index.shelf.kept, ts[..i])
      {
        assert ts[..i + 1][..i] == ts[..i];
        ghost var batch;
        retcodes, batch := SubscribeOne(bb, ts[i], retcodes, remsg);
        BatchesSnoc(batches, bb.index.shelf.kept, ts[..i], batch, ts[i]);
        assert ts[..i] + [ts[i]] == ts[..i + 1];
        batches := batches + [batch];
        i := i + 1;
      }
      assert ts[..|ts|] == ts;
    }

    method OnSubscribe(bb: Blackboard, msg: Subscribe) returns (ghost batches: seq<seq<Publish>>)
      requires Valid(bb) && session != null
      modifies this`subscription, outbox, bb`next, bb`owner, session`topics, bb.index.Repr
      ensures Valid(bb) && fresh(bb.index.Repr - old(bb.index.Repr))
      ensures Look(bb) == SubscribeAll(old(Look(bb)), Peer(id, session.clientId), msg.payload).(codes := [])
      ensures var ack := MSuback(Suback(Header(false, 0, 0, 0), msg.packetId, Answers(msg.payload)));
              outbox.sent == old(outbox.sent) + [ack] + AsMessages(Flatten(batches))
      ensures AreBatches(batches, bb.index.shelf.kept, msg.payload)
      ensures bb.index.shelf == old(bb.index.shelf)
      ensures var n, sent := |old(outbox.sent)|, Flatten(batches);
              && |outbox.sent| == n + 1 + |sent|
              && outbox.sent[n] == MSuback(Suback(Header(false, 0, 0, 0), msg.packetId, Answers(msg.payload)))
              && forall i :: 0 <= i < |sent| ==> outbox.sent[n + 1 + i] == MPublish(sent[i])
    {
      hide SubscribeAll, AreBatches, Topics.Valid, AsMessages, Flatten;
      AnswersAre(Look(bb), Peer(id, session.clientId), msg.payload);
      var retcodes, remsg;
      retcodes, remsg, batches := SubscribeEach(bb, msg.payload);
      InOrder(outbox.sent, MSuback(Suback(PLAIN, msg.packetId, retcodes)), remsg);
      Answer(MSuback(Suback(PLAIN, msg.packetId, retcodes)), remsg);
    }

    /** Queue the acknowledgement, then the retained messages. */
    method Answer(ack: Message, remsg: seq<Publish>)
      modifies outbox
      ensures outbox.sent == old(outbox.sent) + [ack] + AsMessages(remsg)
    {
      WriteMessage(ack);
      var i := 0;
      while i < |remsg|
        invariant 0 <= i <= |remsg|
        invariant outbox.sent == old(outbox.sent) + [ack] + AsMessages(remsg[..i])
      {
        WriteMessage(MPublish(remsg[i]));
        i := i + 1;
      }
      assert remsg[..|remsg|] == remsg;
    }

    method UnsubscribeOne(bb: Blackboard, path: bytes)
      requires Valid(bb)
      modifies this`subscription, (if session == null then {} else {session})`topics, bb.index.Repr
      ensures Valid(bb) && fresh(bb.index.Repr - old(bb.index.Repr))
      ensures Look(bb) == Cancel(old(Look(bb)), path, session != null)
      ensures bb.index.shelf == old(bb.index.shelf)
    {
      if path in subscription {
        var sub := subscription[path];
        var _ := bb.index.Unsubscribe(sub.topic, Some(sub));
        if session != null {
          session.RemoveTopics(path);
          subscription := subscription - {path};
        }
      }
    }

    /** The answer is a SUBACK without return codes. */
    method OnUnSubscribe(bb: Blackboard, msg: Unsubscribe)
      requires Valid(bb)
      modifies this`subscription, outbox, (if session == null then {} else {session})`topics, bb.index.Repr
      ensures Valid(bb) && fresh(bb.index.Repr - old(bb.index.Repr))
      ensures Look(bb) == CancelAll(old(Look(bb)), msg.payload, session != null)
      ensures outbox.sent == old(outbox.sent) + [MSuback(Suback(Header(false, 0, 0, 0), msg.packetId, []))]
      ensures bb.index.shelf == old(bb.index.shelf)
    {
      hide Topics.Valid, Cancel;
      var topics := msg.payload;
      var i := 0;
      while i < |topics|
        invariant 0 <= i <= |topics|
        invariant Valid(bb) && fresh(bb.index.Repr - old(bb.index.Repr))
        invariant Look(bb) == CancelAll(old(Look(bb)), topics[..i], session != null)
        invariant bb.index.shelf == old(bb.index.shelf)
        invariant outbox.sent == old(outbox.sent)
      {
        assert topics[..i + 1][..i] == topics[..i];
        UnsubscribeOne(bb, topics[i]);
        i := i + 1;
      }
      assert topics[..|topics|] == topics;
      WriteMessage(MSuback(Suback(PLAIN, msg.packetId, [])));
    }

    /** The unsubscribe loop of Close, in any order. */
    method CloseSubscriptions(bb: Blackboard)
      requires Valid(bb)
      modifies bb.index.Repr
      ensures Valid(bb) && fresh(bb.index.Repr - old(bb.index.Repr))
      ensures bb.index.table == old(bb.index.table) - EntriesOf(subscription)
      ensures bb.index.shelf == old(bb.index.shelf)
    {
      var todo := subscription.Keys;
      ghost var done := {};
      while todo != {}
        invariant Valid(bb) && fresh(bb.index.Repr - old(bb.index.Repr))
        invariant done !! todo && done + todo == subscription.Keys
        invariant bb.index.table == old(bb.index.table) - EntriesAt(subscription, done)
        invariant bb.index.shelf == old(bb.index.shelf)
        decreases todo
      {
        var path :| path in todo;
        var sub := subscription[path];
        EntriesAtSnoc(subscription, done, path);
        var _ := bb.index.Unsubscribe(sub.topic, Some(sub));
        todo, done := todo - {path}, done + {path};
      }
    }

    method WriteOne(bb: Blackboard, client: bytes, msg: Publish)
      requires Valid(bb) && bb.Wired()
      modifies bb.sessions.Values`offlineQueue, bb.sessions.Values`handled, bb.Outlets()
      ensures forall c :: c in bb.sessions ==>
                bb.sessions[c].View() ==
                if c == client then Written(old(bb.sessions[c].View()), MPublish(msg)) else old(bb.sessions[c].View())
      ensures forall c :: c in bb.sessions && bb.sessions[c].onWrite != null ==>
                bb.sessions[c].onWrite.sent ==
                old(bb.sessions[c].onWrite.sent) + Copies(MPublish(msg), if c == client then 1 else 0)
      ensures Valid(bb) && bb.Wired() && bb.Outlets() == old(bb.Outlets())
    {
      hide Topics.Valid, Written, Copies;
      OneCopy(MPublish(msg));
      if client in bb.sessions {
        var ss := bb.sessions[client];
        assert ss.onWrite != null ==> ss.onWrite in bb.Outlets();
        var _ := ss.WriteMessage(MPublish(msg));
      }
    }

    /** Write to the session of each found subscriber that has one. */
    method Distribute(bb: Blackboard, msg: Publish, subs: seq<Subscription>)
      requires Valid(bb) && bb.Wired()
      modifies bb.sessions.Values`offlineQueue, bb.sessions.Values`handled, bb.Outlets()
      ensures forall c :: c in bb.sessions ==>
                bb.sessions[c].View() == WrittenTimes(old(bb.sessions[c].View()), MPublish(msg), CountFor(c, subs))
      ensures forall c :: c in bb.sessions && bb.sessions[c].onWrite != null ==>
                bb.sessions[c].onWrite.sent ==
                old(bb.sessions[c].onWrite.sent) + Copies(MPublish(msg), CountFor(c, subs))
    {
      ghost var views := map c | c in bb.sessions :: bb.sessions[c].View();
      ghost var sents := map c | c in bb.sessions && bb.sessions[c].onWrite != null :: bb.sessions[c].onWrite.sent;
      hide WrittenTimes, Copies;
      NothingWritten(bb, MPublish(msg), views, sents);
      hide CountFor;
      WriteEach(bb, msg, subs, views, sents);
    }

    lemma NothingWritten(bb: Blackboard, m: Message, views: map<bytes, Box>, sents: map<bytes, seq<Message>>)
      requires forall c :: c in bb.sessions ==> c in views && bb.sessions[c].View() == views[c]
      requires forall c :: c in bb.sessions && bb.sessions[c].onWrite != null ==>
                 c in sents && bb.sessions[c].onWrite in bb.Outlets() && bb.sessions[c].onWrite.sent == sents[c]
      ensures Handled(bb, views, m, []) && Sent(bb, sents, m, [])
    {
    }

    method WriteEach(bb: Blackboard, msg: Publish, subs: seq<Subscription>,
                     ghost views: map<bytes, Box>, ghost sents: map<bytes, seq<Message>>)
      requires Valid(bb) && bb.Wired() && Handled(bb, views, MPublish(msg), []) && Sent(bb, sents, MPublish(msg), [])
      modifies bb.sessions.Values`offlineQueue, bb.sessions.Values`handled, bb.Outlets()
      ensures Handled(bb, views, MPublish(msg), subs) && Sent(bb, sents, MPublish(msg), subs)
    {
      hide *;
      var i := 0;
      assert subs[..i] == [];
      while i < |subs|
        invariant 0 <= i <= |subs|
        invariant Valid(bb) && bb.Wired() && bb.Outlets() == old(bb.Outlets())
        invariant Handled(bb, views, MPublish(msg), subs[..i])
        invariant Sent(bb, sents, MPublish(msg), subs[..i])
      {
        WriteNext(bb, msg, subs, i, views, sents);
        i := i + 1;
      }
      assert subs[..|subs|] == subs;
    }

    /** What the sessions have been given on behalf of `subs`, on top of what they had before. */
    ghost predicate Handled(bb: Blackboard, views: map<bytes, Box>, m: Message, subs: seq<Subscription>)
      reads bb, bb.sessions.Values
    {
      forall c :: c in bb.sessions ==>
        c in views && bb.sessions[c].View() == WrittenTimes(views[c], m, CountFor(c, subs))
    }

    /** What their write handlers have sent. */
    ghost predicate Sent(bb: Blackboard, sents: map<bytes, seq<Message>>, m: Message, subs: seq<Subscription>)
      reads bb, bb.sessions.Values, bb.Outlets()
    {
      forall c :: c in bb.sessions && bb.sessions[c].onWrite != null ==>
        c in sents && bb.sessions[c].onWrite in bb.Outlets() &&
        bb.sessions[c].onWrite.sent == sents[c] + Copies(m, CountFor(c, subs))
    }

    method WriteNext(bb: Blackboard, msg: Publish, subs: seq<Subscription>, i: nat,
                     ghost views: map<bytes, Box>, ghost sents: map<bytes, seq<Message>>)
      requires Valid(bb) && bb.Wired() && i < |subs|
      requires Handled(bb, views, MPublish(msg), subs[..i]) && Sent(bb, sents, MPublish(msg), subs[..i])
      modifies bb.sessions.Values`offlineQueue, bb.sessions.Values`handled, bb.Outlets()
      ensures Valid(bb) && bb.Wired() && bb.Outlets() == old(bb.Outlets())
      ensures Handled(bb, views, MPublish(msg), subs[..i + 1])
      ensures Sent(bb, sents, MPublish(msg), subs[..i + 1])
    {
      hide Topics.Valid, Written, CountFor, Copies, Blackboard.Wired, Blackboard.Outlets;
      CountEach(subs, i);
      WriteOne(bb, subs[i].client, msg);
      forall c | c in bb.sessions
        ensures bb.sessions[c].View() == WrittenTimes(views[c], MPublish(msg), CountFor(c, subs[..i + 1]))
      {
        assert old(bb.sessions[c].View()) == WrittenTimes(views[c], MPublish(msg), CountFor(c, subs[..i]));
      }
      hide WrittenTimes;
      forall c | c in bb.sessions && bb.sessions[c].onWrite != null
        ensures bb.sessions[c].onWrite.sent == sents[c] + Copies(MPublish(msg), CountFor(c, subs[..i + 1]))
      {
        CopiesAdd(sents[c], MPublish(msg), CountFor(c, subs[..i]), if subs[i].client == c then 1 else 0);
      }
    }

    lemma NothingYet(msg: Publish, subs: seq<Subscription>)
      ensures forall c :: CountFor(c, subs[..0]) == 0
      ensures forall s: seq<Message> :: s + Copies(MPublish(msg), 0) == s
    {
    }

    method FindSubscribers(bb: Blackboard, msg: Publish) returns (ok: bool, subs: seq<Subscription>)
      requires Valid(bb)
      ensures ok <==> msg.header.qosLevel % 0x100 <= 2 &&
                      (Split(msg.topicName).ok || !RunsInto(bb.index.nodes, Split(msg.topicName).levels))
      ensures ok ==> forall c :: CountFor(c, subs) == Deliveries(bb.index.table, Split(msg.topicName).levels, c)
    {
      var out := new SubscriptionTree.Collector();
      ghost var found;
      ok, found := bb.index.Subscribers(msg.topicName, msg.header.qosLevel % 0x100, out);
      subs := out.subs;
      if ok {
        forall c ensures CountFor(c, subs) == Deliveries(bb.index.table, Split(msg.topicName).levels, c) {
          CountIsDeliveries(found, subs, Matching(bb.index.table, Split(msg.topicName).levels), c);
        }
      }
    }

    /** Keep the message if asked to, then deliver it. */
    method ProcPublish(bb: Blackboard, msg: Publish)
      requires Valid(bb) && bb.Wired()
      modifies bb.index.Repr, bb.sessions.Values`offlineQueue, bb.sessions.Values`handled, bb.Outlets()
      ensures Valid(bb) && fresh(bb.index.Repr - old(bb.index.Repr))
      ensures bb.index.table == old(bb.index.table) && bb.index.nodes == old(bb.index.nodes)
      ensures bb.index.shelf == if msg.header.retain > 0 then ShelfStep(old(bb.index.shelf), msg)
                                else old(bb.index.shelf)
      ensures forall c :: c in bb.sessions ==>
                bb.sessions[c].View() == WrittenTimes(old(bb.sessions[c].View()), MPublish(msg),
                                                      Owed(old(bb.index.table), old(bb.index.nodes), msg, c))
      ensures forall c :: c in bb.sessions && bb.sessions[c].onWrite != null ==>
                bb.sessions[c].onWrite.sent ==
                old(bb.sessions[c].onWrite.sent) +
                Copies(MPublish(msg), Owed(old(bb.index.table), old(bb.index.nodes), msg, c))
    {
      hide Topics.Valid, Owed, Copies, WrittenTimes, ShelfStep;
      KeepIfAsked(bb, msg);
      Deliver(bb, msg);
    }

    method Deliver(bb: Blackboard, msg: Publish)
      requires Valid(bb) && bb.Wired()
      modifies bb.sessions.Values`offlineQueue, bb.sessions.Values`handled, bb.Outlets()
      ensures Valid(bb)
      ensures forall c :: c in bb.sessions ==>
                bb.sessions[c].View() == WrittenTimes(old(bb.sessions[c].View()), MPublish(msg),
                                                      Owed(bb.index.table, bb.index.nodes, msg, c))
      ensures forall c :: c in bb.sessions && bb.sessions[c].onWrite != null ==>
                bb.sessions[c].onWrite.sent ==
                old(bb.sessions[c].onWrite.sent) +
                Copies(MPublish(msg), Owed(bb.index.table, bb.index.nodes, msg, c))
    {
      hide Topics.Valid, Deliveries, CountFor, Copies;
      var ok, subs := FindSubscribers(bb, msg);
      NothingYet(msg, subs);
      if !ok {
        return;
      }
      if |subs| == 0 {
        assert subs == subs[..0];
        return;
      }
      Distribute(bb, msg, subs);
    }

    method KeepIfAsked(bb: Blackboard, msg: Publish)
      requires Valid(bb)
      modifies bb.index.Repr
      ensures Valid(bb) && fresh(bb.index.Repr - old(bb.index.Repr))
      ensures bb.index.table == old(bb.index.table) && bb.index.nodes == old(bb.index.nodes)
      ensures bb.index.shelf == if msg.header.retain > 0 then ShelfStep(old(bb.index.shelf), msg)
                                else old(bb.index.shelf)
    {
      if msg.header.retain > 0 {
        var _ := bb.index.Retain(msg);
      }
    }
  }
}
