/** What the broker's connections write down about their subscriptions, and how it stays in step
    with the shared table over any run. */
module Books {
  import opened Bytes
  import opened Messages
  import opened TopicLevels
  import opened MemTopics
  import opened SubscriptionTree

  type ConnId = nat

  /** A connection and the client its session belongs to. */
  datatype Peer = Peer(id: ConnId, client: bytes)

  /** What one connection sees: the shared table and the supply of subscription pointers, with
      the connection each was allocated by; its own `_subscription` map, its session's topic
      map, and the return codes collected so far. */
  datatype View = View(table: Table, next: nat, owner: map<nat, ConnId>,
                       subs: map<bytes, Subscription>, topics: map<bytes, byte>, codes: seq<byte>)

  // ----- The handlers, one filter at a time -----

  predicate Acceptable(r: TopicFilter)
  {
    ValidQos(r.requestedQos) && Split(r.topicPath).ok
  }

  /** Drop the subscription recorded for a filter, if there is one. */
  function Forget(v: View, path: bytes): View
  {
    if path in v.subs then
      v.(table := TableRemove(v.table, v.subs[path].topic, Some(v.subs[path])), subs := v.subs - {path})
    else v
  }

  /** Subscribe a new subscription, and record it when that worked. */
  function Add(v: View, peer: Peer, r: TopicFilter): View
  {
    var sub := Subscription(v.next, peer.client, r.topicPath, r.requestedQos);
    var v' := v.(next := v.next + 1, owner := v.owner[v.next := peer.id],
                 table := TableStep(v.table, SubscribeOp(r.topicPath, r.requestedQos, Some(sub))));
    if Acceptable(r) then
      v'.(subs := v.subs[r.topicPath := sub], topics := v.topics[r.topicPath := r.requestedQos],
          codes := v.codes + [r.requestedQos])
    else v'.(codes := v.codes + [QOS_FAILURE])
  }

  function SubscribeAll(v: View, peer: Peer, rs: seq<TopicFilter>): View
  {
    if rs == [] then v
    else
      var v' := SubscribeAll(v, peer, rs[..|rs| - 1]);
      Add(Forget(v', rs[|rs| - 1].topicPath), peer, rs[|rs| - 1])
  }

  /** Drop the subscription and, on a connected client, its two records. */
  function Cancel(v: View, path: bytes, connected: bool): View
  {
    if path !in v.subs then v
    else if connected then Forget(v, path).(topics := v.topics - {path})
    else v.(table := Forget(v, path).table)
  }

  function CancelAll(v: View, paths: seq<bytes>, connected: bool): View
  {
    if paths == [] then v
    else Cancel(CancelAll(v, paths[..|paths| - 1], connected), paths[|paths| - 1], connected)
  }

  /** The entries of the subscriptions recorded under `paths`. */
  function EntriesAt(subs: map<bytes, Subscription>, paths: set<bytes>): set<Entry>
  {
    set path | path in paths && path in subs && Split(subs[path].topic).ok ::
      Entry(Split(subs[path].topic).levels, subs[path])
  }

  /** The entries that the unsubscribe loop of Close asks to remove. */
  function EntriesOf(subs: map<bytes, Subscription>): set<Entry>
  {
    EntriesAt(subs, subs.Keys)
  }

  lemma EntriesAtSnoc(subs: map<bytes, Subscription>, paths: set<bytes>, path: bytes)
    requires path in subs
    ensures forall table: Table ::
              TableRemove(table - EntriesAt(subs, paths), subs[path].topic, Some(subs[path])) ==
              table - EntriesAt(subs, paths + {path})
  {
    var p := Split(subs[path].topic);
    assert EntriesAt(subs, paths + {path}) ==
           EntriesAt(subs, paths) + if p.ok then {Entry(p.levels, subs[path])} else {};
  }

  /** On a client that is not connected, the entries go and the records stay. */
  lemma {:induction false} CancelUnconnected(v: View, paths: seq<bytes>)
    ensures CancelAll(v, paths, false) == v.(table := v.table - EntriesAt(v.subs, set p | p in paths))
  {
    if paths == [] {
      assert v.table - EntriesAt(v.subs, set p | p in paths) == v.table;
    } else {
      var before, path := paths[..|paths| - 1], paths[|paths| - 1];
      CancelUnconnected(v, before);
      assert (set p | p in paths) == (set p | p in before) + {path} by {
        assert paths == before + [path];
      }
      if path in v.subs {
        EntriesAtSnoc(v.subs, (set p | p in before), path);
      } else {
        assert EntriesAt(v.subs, set p | p in paths) == EntriesAt(v.subs, set p | p in before);
      }
    }
  }

  /** One return code per filter, in order: the requested QoS when that is 0, 1 or 2 and the filter is
      well-formed, and 0x80 otherwise. */
  lemma {:induction false} ReturnCodes(v: View, peer: Peer, rs: seq<TopicFilter>)
    requires v.codes == []
    ensures var codes := SubscribeAll(v, peer, rs).codes;
            && |codes| == |rs|
            && forall i :: 0 <= i < |rs| ==>
                 codes[i] == if (rs[i].requestedQos == 0 || rs[i].requestedQos == 1 || rs[i].requestedQos == 2)
                                && Split(rs[i].topicPath).ok
                             then rs[i].requestedQos else 0x80
  {
    if rs != [] {
      ReturnCodes(v, peer, rs[..|rs| - 1]);
    }
  }

  // ----- All connections together -----

  type SessionId = nat

  /** A live connection: the session it is attached to, whether that is to be forgotten at the end,
      whether the client has said DISCONNECT, and its own `_subscription` map. */
  datatype Conn = Conn(session: SessionId, clean: bool, leaving: bool, subs: map<bytes, Subscription>)

  /** A session: its client, its topic map, and the connections whose disconnect and write handlers
      are set. Sessions outlive connections. */
  datatype Holder = Holder(client: bytes, topics: map<bytes, byte>, watcher: Option<ConnId>, writer: Option<ConnId>)

  /** `group` is where the sessions can be found by their client, and `issued` numbers them. */
  datatype World = World(table: Table, next: nat, owner: map<nat, ConnId>,
                         conns: map<ConnId, Conn>, sessions: map<SessionId, Holder>,
                         group: map<bytes, SessionId>, issued: SessionId)
  {
    predicate Closed()
    {
      && (forall c :: c in conns ==> conns[c].session in sessions)
      && (forall k :: k in group ==> group[k] in sessions)
    }

    function Client(c: ConnId): bytes
      requires Closed() && c in conns
    {
      sessions[conns[c].session].client
    }

    function Topics(c: ConnId): map<bytes, byte>
      requires Closed() && c in conns
    {
      sessions[conns[c].session].topics
    }

    /** The connection still handles messages. */
    predicate Serving(c: ConnId)
    {
      c in conns && !conns[c].leaving
    }
  }

  const NEW_WORLD: World := World(map[], 0, map[], map[], map[], map[], 0)

  /** Each event is a whole handler, but for Disconnecting: there Close has not finished yet. */
  datatype Event =
    | Connecting(c: ConnId, client: bytes, clean: bool)
    | Subscribing(c: ConnId, filters: seq<TopicFilter>)
    | Unsubscribing(c: ConnId, paths: seq<bytes>)
    | Disconnecting(c: ConnId)
    | Closing(c: ConnId)

  function Look(w: World, c: ConnId): View
    requires w.Closed() && c in w.conns
  {
    View(w.table, w.next, w.owner, w.conns[c].subs, w.Topics(c), [])
  }

  /** The connection's own records and its session's topic map change with the shared state. */
  function Write(w: World, c: ConnId, v: View): (w': World)
    requires w.Closed() && c in w.conns
    ensures w'.Closed() && c in w'.conns && w'.Client(c) == w.Client(c)
  {
    var conn := w.conns[c];
    w.(table := v.table, next := v.next, owner := v.owner, conns := w.conns[c := conn.(subs := v.subs)],
       sessions := w.sessions[conn.session := w.sessions[conn.session].(topics := v.topics)])
  }

  function AfterSubscribe(w: World, c: ConnId, rs: seq<TopicFilter>): (w': World)
    requires w.Closed() && c in w.conns
    ensures w'.Closed() && c in w'.conns && w'.Client(c) == w.Client(c)
  {
    Write(w, c, SubscribeAll(Look(w, c), Peer(c, w.Client(c)), rs))
  }

  function AfterCancel(w: World, c: ConnId, paths: seq<bytes>): (w': World)
    requires w.Closed() && c in w.conns
    ensures w'.Closed() && c in w'.conns && w'.Client(c) == w.Client(c)
  {
    Write(w, c, CancelAll(Look(w, c), paths, true))
  }

  /** Close: the entries of the connection leave the table, the session loses both handlers,
      whoever set them, and a clean session is forgotten, by its client. */
  function Detach(w: World, c: ConnId): (w': World)
    requires w.Closed() && c in w.conns
    ensures w'.Closed()
  {
    var conn := w.conns[c];
    var h := w.sessions[conn.session];
    w.(table := w.table - EntriesOf(conn.subs), conns := w.conns - {c},
       sessions := w.sessions[conn.session := h.(watcher := None, writer := None)],
       group := if conn.clean then w.group - {h.client} else w.group)
  }

  /** DoDisconnect: the connection whose disconnect handler is set is closed. */
  function Disconnected(w: World, s: SessionId): (w': World)
    requires w.Closed() && s in w.sessions
    ensures w'.Closed() && s in w'.sessions
  {
    match w.sessions[s].watcher
    case None => w
    case Some(d) => if d in w.conns then Detach(w, d) else w
  }

  function WithSession(w: World, client: bytes): (w': World)
    requires w.Closed()
    ensures w'.Closed() && w.issued in w'.sessions
  {
    w.(sessions := w.sessions[w.issued := Holder(client, map[], None, None)],
       group := w.group[client := w.issued], issued := w.issued + 1)
  }

  function WithConn(w: World, c: ConnId, s: SessionId, clean: bool): (w': World)
    requires w.Closed() && s in w.sessions
    ensures w'.Closed()
  {
    w.(conns := w.conns[c := Conn(s, clean, false, map[])],
       sessions := w.sessions[s := w.sessions[s].(watcher := Some(c), writer := Some(c))])
  }

  /** What a CONNECT finds when its client's previous connection is gone. */
  function Cleared(w: World, client: bytes): (w': World)
    requires w.Closed()
    ensures w'.Closed() && (client in w.group ==> w.group[client] in w'.sessions)
  {
    if client in w.group then Disconnected(w, w.group[client]) else w
  }

  /** A CONNECT: a session found under the client is disconnected first. It is resumed unless the
      new one is clean. */
  function Attach(w: World, c: ConnId, client: bytes, clean: bool): (w': World)
    requires w.Closed()
    ensures w'.Closed()
  {
    var w1 := Cleared(w, client);
    if !clean && client in w.group then WithConn(w1, c, w.group[client], clean)
    else WithConn(WithSession(w1, client), c, w1.issued, clean)
  }

  /** A DISCONNECT before Close is through: the disconnect handler is off. */
  function Leave(w: World, c: ConnId): (w': World)
    requires w.Closed() && c in w.conns
    ensures w'.Closed()
  {
    var s := w.conns[c].session;
    w.(conns := w.conns[c := w.conns[c].(leaving := true)],
       sessions := w.sessions[s := w.sessions[s].(watcher := None)])
  }

  function WorldStep(w: World, e: Event): (w': World)
    requires w.Closed()
    ensures w'.Closed()
  {
    match e
    case Connecting(c, client, clean) =>
      if c in w.conns then w else Attach(w, c, client, clean)
    case Subscribing(c, filters) =>
      if w.Serving(c) then AfterSubscribe(w, c, filters) else w
    case Unsubscribing(c, paths) =>
      if w.Serving(c) then AfterCancel(w, c, paths) else w
    case Disconnecting(c) =>
      if w.Serving(c) then Leave(w, c) else w
    case Closing(c) =>
      if c in w.conns then Detach(w, c) else w
  }

  function WorldRun(es: seq<Event>): (w: World)
    ensures w.Closed()
  {
    if es == [] then NEW_WORLD else WorldStep(WorldRun(es[..|es| - 1]), es[|es| - 1])
  }

  /** A connection's subscription is in the table at its filter with its QoS. */
  predicate Entered(table: Table, owner: map<nat, ConnId>, client: bytes, c: ConnId, path: bytes, s: Subscription)
  {
    var e := Entry(Split(path).levels, s);
    && s.topic == path && s.client == client && Split(path).ok
    && e in table && table[e] == s.qos
    && s.ptr in owner && owner[s.ptr] == c
  }

  predicate Recorded(w: World, c: ConnId, path: bytes)
    requires w.Closed() && c in w.conns && path in w.conns[c].subs
  {
    Entered(w.table, w.owner, w.Client(c), c, path, w.conns[c].subs[path])
  }

  /** A table entry is recorded by the connection that created it, which is still there. */
  predicate Accounted(w: World, e: Entry)
  {
    && e.sub.ptr in w.owner && w.owner[e.sub.ptr] in w.conns
    && var subs := w.conns[w.owner[e.sub.ptr]].subs;
       e.sub.topic in subs && subs[e.sub.topic] == e.sub && e.filter == Split(e.sub.topic).levels
  }

  ghost predicate InStep(w: World)
  {
    && w.Closed()
    && (forall c, path :: c in w.conns && path in w.conns[c].subs ==> Recorded(w, c, path))
    && (forall e :: e in w.table ==> Accounted(w, e))
    && (forall p :: p in w.owner ==> p < w.next)
  }

  lemma InStepRecord(w: World, c: ConnId, path: bytes)
    requires InStep(w) && c in w.conns && path in w.conns[c].subs
    ensures Recorded(w, c, path)
  {
  }

  lemma InStepCloses(w: World)
    requires InStep(w)
    ensures w.Closed()
  {
  }

  lemma InStepAccount(w: World, e: Entry)
    requires InStep(w) && e in w.table
    ensures Accounted(w, e)
  {
  }

  function Forgotten(w: World, c: ConnId, path: bytes): (w': World)
    requires w.Closed() && c in w.conns
    ensures w'.Closed() && c in w'.conns && w'.Client(c) == w.Client(c)
  {
    Write(w, c, Forget(Look(w, c), path))
  }

  lemma ForgottenTable(w: World, c: ConnId, path: bytes)
    requires InStep(w) && c in w.conns && path in w.conns[c].subs
    ensures Forgotten(w, c, path).table == w.table - {Entry(Split(path).levels, w.conns[c].subs[path])}
    ensures w.conns[c].subs[path].topic == path && w.conns[c].subs[path].ptr in w.owner
    ensures w.owner[w.conns[c].subs[path].ptr] == c
  {
    InStepRecord(w, c, path);
  }

  /** The other records, the owners and the sessions are as they were. */
  lemma ForgottenAt(w: World, c: ConnId, path: bytes, c': ConnId, p: bytes)
    requires w.Closed() && c in w.conns && path in w.conns[c].subs && c' in w.conns && p in w.conns[c'].subs
    requires c' != c || p != path
    ensures var w' := Forgotten(w, c, path);
            && c' in w'.conns && p in w'.conns[c'].subs && w'.conns[c'].subs[p] == w.conns[c'].subs[p]
            && w'.Client(c') == w.Client(c') && w'.owner == w.owner
  {
    hide TableRemove;
  }

  lemma EnteredStays(table: Table, owner: map<nat, ConnId>, client: bytes, c: ConnId, path: bytes, s: Subscription,
                     gone: Entry)
    requires Entered(table, owner, client, c, path, s) && gone.sub != s
    ensures Entered(table - {gone}, owner, client, c, path, s)
  {
    hide Split;
  }

  lemma ForgetKeepsRecords(w: World, c: ConnId, path: bytes, c': ConnId, p: bytes)
    requires InStep(w) && c in w.conns && path in w.conns[c].subs
    requires c' in w.conns && p in w.conns[c'].subs && (c' != c || p != path)
    ensures c' in Forgotten(w, c, path).conns && p in Forgotten(w, c, path).conns[c'].subs
    ensures Recorded(Forgotten(w, c, path), c', p)
  {
    InStepCloses(w);
    InStepRecord(w, c', p);
    var s, gone := w.conns[c'].subs[p], w.conns[c].subs[path];
    hide Split, Forgotten, InStep;
    ForgottenTable(w, c, path);
    ForgottenAt(w, c, path, c', p);
    assert s != gone;
    hide Entered;
    EnteredStays(w.table, w.owner, w.Client(c'), c', p, s, Entry(Split(path).levels, gone));
  }

  lemma ForgetLeavesOthers(w: World, c: ConnId, path: bytes)
    requires w.Closed() && c in w.conns && path in w.conns[c].subs
    ensures var w' := Forgotten(w, c, path);
            && w'.conns == w.conns[c := w.conns[c].(subs := w.conns[c].subs - {path})]
            && w'.owner == w.owner && w'.next == w.next && w'.sessions == w.sessions
  {
    hide TableRemove;
  }

  lemma ForgetKeepsAccounts(w: World, c: ConnId, path: bytes, e: Entry)
    requires InStep(w) && c in w.conns && path in w.conns[c].subs
    requires e in Forgotten(w, c, path).table
    ensures Accounted(Forgotten(w, c, path), e)
  {
    hide Split, TableRemove, InStep, Forgotten;
    InStepCloses(w);
    ForgetLeavesOthers(w, c, path);
    ForgottenTable(w, c, path);
    InStepAccount(w, e);
  }

  lemma ForgetInStep(w: World, c: ConnId, path: bytes)
    requires InStep(w) && c in w.conns
    ensures InStep(Forgotten(w, c, path))
  {
    var w' := Forgotten(w, c, path);
    if path in w.conns[c].subs {
      forall c', p | c' in w'.conns && p in w'.conns[c'].subs ensures Recorded(w', c', p) {
        ForgetKeepsRecords(w, c, path, c', p);
      }
      forall e | e in w'.table ensures Accounted(w', e) {
        ForgetKeepsAccounts(w, c, path, e);
      }
      hide Recorded, Accounted, Split, TableRemove;
    } else {
      assert w' == w;
    }
  }

  function Added(w: World, c: ConnId, r: TopicFilter): (w': World)
    requires w.Closed() && c in w.conns
    ensures w'.Closed() && c in w'.conns && w'.Client(c) == w.Client(c)
  {
    Write(w, c, Add(Look(w, c), Peer(c, w.Client(c)), r))
  }

  /** The entry of the new subscription is not in the table yet, and adding it changes no other. */
  lemma AddedTable(w: World, c: ConnId, r: TopicFilter)
    requires InStep(w) && c in w.conns
    ensures var e := Entry(Split(r.topicPath).levels, Subscription(w.next, w.Client(c), r.topicPath, r.requestedQos));
            && e !in w.table
            && Added(w, c, r).table == if Acceptable(r) then w.table[e := r.requestedQos] else w.table
  {
    var e := Entry(Split(r.topicPath).levels, Subscription(w.next, w.Client(c), r.topicPath, r.requestedQos));
    assert e in w.table ==> Accounted(w, e);
  }

  lemma AddKeepsRecords(w: World, c: ConnId, r: TopicFilter, c': ConnId, p: bytes)
    requires InStep(w) && c in w.conns && r.topicPath !in w.conns[c].subs
    requires c' in w.conns && p in Added(w, c, r).conns[c'].subs
    ensures Recorded(Added(w, c, r), c', p)
  {
    AddedTable(w, c, r);
    if c' != c {
      assert Recorded(w, c', p);
    } else if p != r.topicPath {
      assert Recorded(w, c, p);
    }
  }

  lemma AddedLeaves(w: World, c: ConnId, r: TopicFilter)
    requires InStep(w) && c in w.conns
    ensures var w', sub := Added(w, c, r), Subscription(w.next, w.Client(c), r.topicPath, r.requestedQos);
            && w'.owner == w.owner[w.next := c] && (forall p :: p in w.owner ==> p < w.next)
            && w'.conns == w.conns[c := w.conns[c].(subs := if Acceptable(r) then w.conns[c].subs[r.topicPath := sub]
                                                            else w.conns[c].subs)]
  {
    hide TableStep;
  }

  lemma AddKeepsAccounts(w: World, c: ConnId, r: TopicFilter, e: Entry)
    requires InStep(w) && c in w.conns && r.topicPath !in w.conns[c].subs
    requires e in Added(w, c, r).table
    ensures Accounted(Added(w, c, r), e)
  {
    hide Split, TableStep, InStep, Added, Acceptable;
    InStepCloses(w);
    AddedLeaves(w, c, r);
    AddedTable(w, c, r);
    if e in w.table {
      InStepAccount(w, e);
    }
  }

  lemma AddInStep(w: World, c: ConnId, r: TopicFilter)
    requires InStep(w) && c in w.conns && r.topicPath !in w.conns[c].subs
    ensures InStep(Added(w, c, r))
  {
    var w' := Added(w, c, r);
    forall c', p | c' in w'.conns && p in w'.conns[c'].subs ensures Recorded(w', c', p) {
      AddKeepsRecords(w, c, r, c', p);
    }
    forall e | e in w'.table ensures Accounted(w', e) {
      AddKeepsAccounts(w, c, r, e);
    }
  }

  lemma {:induction false} SubscribeInStep(w: World, c: ConnId, rs: seq<TopicFilter>)
    requires InStep(w) && c in w.conns
    ensures InStep(AfterSubscribe(w, c, rs))
  {
    InStepCloses(w);
    hide InStep, AfterSubscribe, SubscribedOne;
    AfterSubscribeStep(w, c, rs);
    if rs != [] {
      SubscribeInStep(w, c, rs[..|rs| - 1]);
      SubscribeOneInStep(AfterSubscribe(w, c, rs[..|rs| - 1]), c, rs[|rs| - 1]);
    }
  }

  /** One filter of a SUBSCRIBE. */
  function SubscribedOne(w: World, c: ConnId, r: TopicFilter): (w': World)
    requires w.Closed() && c in w.conns
    ensures w'.Closed() && c in w'.conns && w'.Client(c) == w.Client(c)
  {
    Write(w, c, Add(Forget(Look(w, c), r.topicPath), Peer(c, w.Client(c)), r))
  }

  lemma AfterSubscribeStep(w: World, c: ConnId, rs: seq<TopicFilter>)
    requires w.Closed() && c in w.conns
    ensures AfterSubscribe(w, c, rs) ==
            if rs == [] then w else SubscribedOne(AfterSubscribe(w, c, rs[..|rs| - 1]), c, rs[|rs| - 1])
  {
    if rs == [] {
      assert Write(w, c, Look(w, c)) == w;
    } else {
      var v := SubscribeAll(Look(w, c), Peer(c, w.Client(c)), rs[..|rs| - 1]);
      hide Add, Forget, Look, Write;
      WriteTwice(w, c, v, rs[|rs| - 1]);
    }
  }

  lemma SubscribeOneInStep(w: World, c: ConnId, r: TopicFilter)
    requires InStep(w) && c in w.conns
    ensures InStep(SubscribedOne(w, c, r))
  {
    var v := Forget(Look(w, c), r.topicPath);
    ForgetInStep(w, c, r.topicPath);
    AddInStep(Write(w, c, v), c, r);
    WriteThenAdd(w, c, v, r);
  }

  /** The return codes are only appended to, so they can be kept apart. */
  lemma CodesApart(v: View, codes: seq<byte>, peer: Peer, r: TopicFilter)
    requires v.codes == []
    ensures var v' := Add(Forget(v, r.topicPath), peer, r);
            |v'.codes| == 1 &&
            Add(Forget(v.(codes := codes), r.topicPath), peer, r) == v'.(codes := codes + v'.codes)
  {
  }

  lemma WriteOver(w: World, c: ConnId, v: View, u: View)
    requires w.Closed() && c in w.conns
    ensures Write(Write(w, c, v), c, u) == Write(w, c, u)
    ensures Look(Write(w, c, v), c) == v.(codes := [])
  {
    var conn := w.conns[c];
    var s, h := conn.session, w.sessions[conn.session];
    assert w.conns[c := conn.(subs := v.subs)][c := conn.(subs := u.subs)] == w.conns[c := conn.(subs := u.subs)];
    assert w.sessions[s := h.(topics := v.topics)][s := h.(topics := u.topics)] ==
           w.sessions[s := h.(topics := u.topics)];
  }

  lemma WriteThenAdd(w: World, c: ConnId, v: View, r: TopicFilter)
    requires w.Closed() && c in w.conns && v.codes == []
    ensures Added(Write(w, c, v), c, r) == Write(w, c, Add(v, Peer(c, w.Client(c)), r))
  {
    hide Add, Look, Write;
    WriteOver(w, c, v, Add(v, Peer(c, w.Client(c)), r));
    assert v.(codes := []) == v;
  }

  lemma WriteTwice(w: World, c: ConnId, v: View, r: TopicFilter)
    requires w.Closed() && c in w.conns
    ensures var peer, w1 := Peer(c, w.Client(c)), Write(w, c, v);
            Write(w1, c, Add(Forget(Look(w1, c), r.topicPath), peer, r)) ==
                Write(w, c, Add(Forget(v, r.topicPath), peer, r))
  {
    hide Add, Forget, Look;
    var peer := Peer(c, w.Client(c));
    var v1 := v.(codes := []);
    var u := Add(Forget(v1, r.topicPath), peer, r);
    CodesApart(v1, v.codes, peer, r);
    assert v1.(codes := v.codes) == v;
    WriteOver(w, c, v, u);
  }

  lemma CancelTwice(w: World, c: ConnId, v: View, path: bytes)
    requires w.Closed() && c in w.conns
    ensures var w1 := Write(w, c, v);
            Write(w1, c, Cancel(Look(w1, c), path, true)) == Write(w, c, Cancel(v, path, true))
  {
    hide TableRemove, Look;
    WriteOver(w, c, v, Cancel(v.(codes := []), path, true));
  }

  function CancelledOne(w: World, c: ConnId, path: bytes): (w': World)
    requires w.Closed() && c in w.conns
    ensures w'.Closed() && c in w'.conns && w'.Client(c) == w.Client(c)
  {
    Write(w, c, Cancel(Look(w, c), path, true))
  }

  lemma AfterCancelStep(w: World, c: ConnId, paths: seq<bytes>)
    requires w.Closed() && c in w.conns
    ensures AfterCancel(w, c, paths) ==
            if paths == [] then w else CancelledOne(AfterCancel(w, c, paths[..|paths| - 1]), c, paths[|paths| - 1])
  {
    if paths == [] {
      assert Write(w, c, Look(w, c)) == w;
    } else {
      var v := CancelAll(Look(w, c), paths[..|paths| - 1], true);
      hide Cancel, Look, Write;
      CancelTwice(w, c, v, paths[|paths| - 1]);
    }
  }

  lemma {:induction false} CancelInStep(w: World, c: ConnId, paths: seq<bytes>)
    requires InStep(w) && c in w.conns
    ensures InStep(AfterCancel(w, c, paths))
  {
    InStepCloses(w);
    hide InStep, AfterCancel, CancelledOne;
    AfterCancelStep(w, c, paths);
    if paths != [] {
      CancelInStep(w, c, paths[..|paths| - 1]);
      CancelOneInStep(AfterCancel(w, c, paths[..|paths| - 1]), c, paths[|paths| - 1]);
    }
  }

  lemma CancelOneInStep(w: World, c: ConnId, path: bytes)
    requires InStep(w) && c in w.conns
    ensures InStep(CancelledOne(w, c, path))
  {
    var w1, w' := Forgotten(w, c, path), CancelledOne(w, c, path);
    ForgetInStep(w, c, path);
    if path in w.conns[c].subs {
      forall c', p | c' in w'.conns && p in w'.conns[c'].subs ensures Recorded(w', c', p) {
        assert Recorded(w1, c', p);
      }
      forall e | e in w'.table ensures Accounted(w', e) {
        assert Accounted(w1, e);
      }
    } else {
      assert w' == w1;
    }
  }

  /** The last request for a filter. */
  function LastRequest(rs: seq<TopicFilter>, path: bytes): Option<TopicFilter>
  {
    if rs == [] then None
    else if rs[|rs| - 1].topicPath == path then Some(rs[|rs| - 1])
    else LastRequest(rs[..|rs| - 1], path)
  }

  lemma SubscribedOneRecords(w: World, c: ConnId, r: TopicFilter, path: bytes)
    requires w.Closed() && c in w.conns
    ensures var subs, subs' := w.conns[c].subs, SubscribedOne(w, c, r).conns[c].subs;
            if path != r.topicPath then
              (path in subs' <==> path in subs) && (path in subs ==> subs'[path] == subs[path])
            else if Acceptable(r) then path in subs' && subs'[path].qos == r.requestedQos
            else path !in subs'
  {
    hide TableRemove, TableStep, Acceptable;
  }

  lemma {:induction false} SubscribeRecordsLast(w: World, c: ConnId, rs: seq<TopicFilter>, path: bytes)
    requires w.Closed() && c in w.conns
    ensures var subs, subs', r := w.conns[c].subs, AfterSubscribe(w, c, rs).conns[c].subs, LastRequest(rs, path);
            if r.None? then (path in subs' <==> path in subs) && (path in subs ==> subs'[path] == subs[path])
            else if Acceptable(r.value) then path in subs' && subs'[path].qos == r.value.requestedQos
            else path !in subs'
  {
    hide AfterSubscribe, SubscribedOne, Acceptable;
    AfterSubscribeStep(w, c, rs);
    if rs != [] {
      SubscribeRecordsLast(w, c, rs[..|rs| - 1], path);
      SubscribedOneRecords(AfterSubscribe(w, c, rs[..|rs| - 1]), c, rs[|rs| - 1], path);
    }
  }

  lemma LastRequestIsFor(rs: seq<TopicFilter>, path: bytes)
    ensures LastRequest(rs, path).Some? ==> LastRequest(rs, path).value.topicPath == path
  {
  }

  /** After a SUBSCRIBE a filter that it names is on record with the QoS last asked for, and in the
      table, when that is 0, 1 or 2 and the filter well-formed; otherwise the connection has it
      neither on record nor in the table. The other filters stay as they were. */
  lemma SubscribeEnters(w: World, c: ConnId, rs: seq<TopicFilter>, path: bytes)
    requires InStep(w) && c in w.conns
    ensures var w', r := AfterSubscribe(w, c, rs), LastRequest(rs, path);
            var subs, subs' := w.conns[c].subs, w'.conns[c].subs;
            if r.None? then (path in subs' <==> path in subs) && (path in subs ==> subs'[path] == subs[path])
            else
              var q := r.value.requestedQos;
              if (q == 0 || q == 1 || q == 2) && Split(path).ok then
                && path in subs' && Entry(Split(path).levels, subs'[path]) in w'.table
                && w'.table[Entry(Split(path).levels, subs'[path])] == q
                && subs'[path].topic == path && subs'[path].client == w.Client(c)
              else path !in subs' && NoEntry(w', c, path)
  {
    var w' := AfterSubscribe(w, c, rs);
    hide AfterSubscribe;
    SubscribeRecordsLast(w, c, rs, path);
    LastRequestIsFor(rs, path);
    SubscribeInStep(w, c, rs);
    if path in w'.conns[c].subs {
      InStepRecord(w', c, path);
    } else {
      NoRecordNoEntry(w', c, path);
    }
  }

  /** The connection has created no entry for the filter that is still in the table. */
  ghost predicate NoEntry(w: World, c: ConnId, path: bytes)
  {
    forall e :: e in w.table && e.sub.ptr in w.owner && w.owner[e.sub.ptr] == c ==> e.sub.topic != path
  }

  lemma NoRecordNoEntry(w: World, c: ConnId, path: bytes)
    requires InStep(w) && c in w.conns && path !in w.conns[c].subs
    ensures NoEntry(w, c, path)
  {
    forall e | e in w.table && e.sub.ptr in w.owner && w.owner[e.sub.ptr] == c ensures e.sub.topic != path {
      InStepAccount(w, e);
    }
  }

  lemma CancelledOneRecords(w: World, c: ConnId, path: bytes, p: bytes)
    requires w.Closed() && c in w.conns
    ensures var subs, subs' := w.conns[c].subs, CancelledOne(w, c, path).conns[c].subs;
            if p == path then p !in subs'
            else (p in subs' <==> p in subs) && (p in subs ==> subs'[p] == subs[p])
  {
    hide TableRemove;
  }

  lemma {:induction false} CancelRecords(w: World, c: ConnId, paths: seq<bytes>, p: bytes)
    requires w.Closed() && c in w.conns
    ensures var subs, subs' := w.conns[c].subs, AfterCancel(w, c, paths).conns[c].subs;
            if p in paths then p !in subs' else (p in subs' <==> p in subs) && (p in subs ==> subs'[p] == subs[p])
  {
    hide AfterCancel, CancelledOne;
    AfterCancelStep(w, c, paths);
    if paths != [] {
      CancelRecords(w, c, paths[..|paths| - 1], p);
      CancelledOneRecords(AfterCancel(w, c, paths[..|paths| - 1]), c, paths[|paths| - 1], p);
      assert p in paths <==> p in paths[..|paths| - 1] || p == paths[|paths| - 1];
    }
  }

  /** After an UNSUBSCRIBE the filters that it names are neither on the connection's record nor, on its
      behalf, in the table, and the others stay on record. */
  lemma CancelTakesOut(w: World, c: ConnId, paths: seq<bytes>, p: bytes)
    requires InStep(w) && c in w.conns
    ensures var w' := AfterCancel(w, c, paths);
            var subs, subs' := w.conns[c].subs, w'.conns[c].subs;
            if p in paths then p !in subs' && NoEntry(w', c, p)
            else (p in subs' <==> p in subs) && (p in subs ==> subs'[p] == subs[p])
  {
    hide AfterCancel;
    CancelRecords(w, c, paths, p);
    CancelInStep(w, c, paths);
    if p in paths {
      NoRecordNoEntry(AfterCancel(w, c, paths), c, p);
    }
  }

  /** The entries of the closing connection are exactly those it created. */
  lemma EntriesAreOwned(w: World, c: ConnId, e: Entry)
    requires InStep(w) && c in w.conns
    ensures e in EntriesOf(w.conns[c].subs) <==> e in w.table && e.sub.ptr in w.owner && w.owner[e.sub.ptr] == c
  {
    if e in EntriesOf(w.conns[c].subs) {
      var path :| path in w.conns[c].subs &&
                  e == Entry(Split(w.conns[c].subs[path].topic).levels, w.conns[c].subs[path]);
      assert Recorded(w, c, path);
    }
    if e in w.table && e.sub.ptr in w.owner && w.owner[e.sub.ptr] == c {
      assert Accounted(w, e);
      assert Recorded(w, c, e.sub.topic);
    }
  }

  lemma CloseInStep(w: World, c: ConnId)
    requires InStep(w) && c in w.conns
    ensures InStep(Detach(w, c))
  {
    var w' := Detach(w, c);
    forall c', p | c' in w'.conns && p in w'.conns[c'].subs ensures Recorded(w', c', p) {
      assert Recorded(w, c', p);
      EntriesAreOwned(w, c, Entry(Split(p).levels, w.conns[c'].subs[p]));
    }
    forall e | e in w'.table ensures Accounted(w', e) {
      assert Accounted(w, e);
      EntriesAreOwned(w, c, e);
    }
  }

  /** Neither new sessions nor handlers nor connections without records matter. */
  lemma AttachInStep(w: World, c: ConnId, s: SessionId, clean: bool)
    requires InStep(w) && c !in w.conns && s in w.sessions
    ensures InStep(WithConn(w, c, s, clean))
  {
    var w' := WithConn(w, c, s, clean);
    hide Split;
    forall c', p | c' in w'.conns && p in w'.conns[c'].subs ensures Recorded(w', c', p) {
      InStepRecord(w, c', p);
    }
    forall e | e in w'.table ensures Accounted(w', e) {
      InStepAccount(w, e);
    }
  }

  lemma SessionInStep(w: World, client: bytes)
    requires InStep(w) && Tidy(w)
    ensures InStep(WithSession(w, client))
  {
    var w' := WithSession(w, client);
    hide Split;
    forall c', p | c' in w'.conns && p in w'.conns[c'].subs ensures Recorded(w', c', p) {
      InStepRecord(w, c', p);
    }
    forall e | e in w'.table ensures Accounted(w', e) {
      InStepAccount(w, e);
    }
  }

  lemma LeaveInStep(w: World, c: ConnId)
    requires InStep(w) && c in w.conns
    ensures InStep(Leave(w, c))
  {
    var w' := Leave(w, c);
    hide Split;
    forall c', p | c' in w'.conns && p in w'.conns[c'].subs ensures Recorded(w', c', p) {
      InStepRecord(w, c', p);
    }
    forall e | e in w'.table ensures Accounted(w', e) {
      InStepAccount(w, e);
    }
  }

  lemma ConnectInStep(w: World, c: ConnId, client: bytes, clean: bool)
    requires InStep(w) && Tidy(w) && c !in w.conns
    ensures InStep(Attach(w, c, client, clean))
  {
    InStepCloses(w);
    var w1 := Cleared(w, client);
    assert InStep(w1) && Tidy(w1) && c !in w1.conns by {
      if client in w.group {
        DisconnectedTidy(w, w.group[client]);
        if w.sessions[w.group[client]].watcher.Some? {
          CloseInStep(w, w.sessions[w.group[client]].watcher.value);
        }
      }
    }
    hide InStep, Tidy, Cleared;
    if !clean && client in w.group {
      AttachInStep(w1, c, w.group[client], clean);
    } else {
      SessionInStep(w1, client);
      AttachInStep(WithSession(w1, client), c, w1.issued, clean);
    }
  }

  // ----- The handlers of the sessions -----

  /** Sessions are found under their own client, and their handlers belong to connections that are
      attached to them. */
  ghost predicate Tidy(w: World)
  {
    && w.Closed()
    && (forall k :: k in w.group ==> w.sessions[w.group[k]].client == k)
    && (forall s :: s in w.sessions ==> s < w.issued && Attached(w, s, w.sessions[s].watcher)
                                        && Attached(w, s, w.sessions[s].writer))
  }

  predicate Attached(w: World, s: SessionId, handler: Option<ConnId>)
  {
    handler.Some? ==> handler.value in w.conns && w.conns[handler.value].session == s
  }

  lemma DetachTidy(w: World, c: ConnId)
    requires Tidy(w) && c in w.conns
    ensures Tidy(Detach(w, c))
  {
  }

  lemma DisconnectedTidy(w: World, s: SessionId)
    requires Tidy(w) && s in w.sessions
    ensures Tidy(Disconnected(w, s)) && Disconnected(w, s).conns.Keys <= w.conns.Keys
    ensures w.sessions[s].watcher.Some? ==> w.sessions[s].watcher.value in w.conns
  {
    if w.sessions[s].watcher.Some? {
      DetachTidy(w, w.sessions[s].watcher.value);
    }
  }

  lemma SessionTidy(w: World, client: bytes)
    requires Tidy(w)
    ensures Tidy(WithSession(w, client))
  {
  }

  lemma ConnTidy(w: World, c: ConnId, s: SessionId, clean: bool)
    requires Tidy(w) && c !in w.conns && s in w.sessions
    ensures Tidy(WithConn(w, c, s, clean))
  {
  }

  lemma AttachTidy(w: World, c: ConnId, client: bytes, clean: bool)
    requires Tidy(w) && c !in w.conns
    ensures Tidy(Attach(w, c, client, clean))
  {
    var w1 := Cleared(w, client);
    if client in w.group {
      DisconnectedTidy(w, w.group[client]);
    }
    hide Tidy;
    if !clean && client in w.group {
      ConnTidy(w1, c, w.group[client], clean);
    } else {
      SessionTidy(w1, client);
      ConnTidy(WithSession(w1, client), c, w1.issued, clean);
    }
  }

  lemma WriteTidy(w: World, c: ConnId, v: View)
    requires Tidy(w) && c in w.conns
    ensures Tidy(Write(w, c, v))
  {
  }

  lemma StepTidy(w: World, e: Event)
    requires Tidy(w)
    ensures Tidy(WorldStep(w, e))
  {
    match e
    case Connecting(c, client, clean) => if c !in w.conns { AttachTidy(w, c, client, clean); }
    case Subscribing(c, filters) =>
      if w.Serving(c) { WriteTidy(w, c, SubscribeAll(Look(w, c), Peer(c, w.Client(c)), filters)); }
    case Unsubscribing(c, paths) => if w.Serving(c) { WriteTidy(w, c, CancelAll(Look(w, c), paths, true)); }
    case Disconnecting(c) =>
    case Closing(c) => if c in w.conns { DetachTidy(w, c); }
  }

  lemma {:induction false} RunTidy(es: seq<Event>)
    ensures Tidy(WorldRun(es))
  {
    if es != [] {
      RunTidy(es[..|es| - 1]);
      StepTidy(WorldRun(es[..|es| - 1]), es[|es| - 1]);
    }
  }

  /** Each live connection can be disconnected by its session, so that no session has two. */
  ghost predicate Watched(w: World)
    requires w.Closed()
  {
    forall c :: c in w.conns ==> w.sessions[w.conns[c].session].watcher == Some(c)
  }

  lemma DetachWatched(w: World, c: ConnId)
    requires w.Closed() && Watched(w) && c in w.conns
    ensures Watched(Detach(w, c))
  {
  }

  lemma ConnWatched(w: World, c: ConnId, s: SessionId, clean: bool)
    requires w.Closed() && Watched(w) && s in w.sessions && c !in w.conns
    requires forall d :: d in w.conns ==> w.conns[d].session != s
    ensures Watched(WithConn(w, c, s, clean))
  {
  }

  lemma SessionWatched(w: World, client: bytes)
    requires Tidy(w) && Watched(w)
    ensures Watched(WithSession(w, client))
    ensures forall d :: d in w.conns ==> WithSession(w, client).conns[d].session != w.issued
  {
  }

  /** After DoDisconnect nobody is attached to the session. */
  lemma ClearedWatched(w: World, client: bytes)
    requires Tidy(w) && Watched(w)
    ensures Tidy(Cleared(w, client)) && Watched(Cleared(w, client)) && Cleared(w, client).conns.Keys <= w.conns.Keys
    ensures client in w.group ==>
              forall d :: d in Cleared(w, client).conns ==> Cleared(w, client).conns[d].session != w.group[client]
  {
    if client in w.group {
      var s := w.group[client];
      DisconnectedTidy(w, s);
      if w.sessions[s].watcher.Some? {
        DetachWatched(w, w.sessions[s].watcher.value);
      }
      hide Tidy;
    }
  }

  lemma ConnectWatched(w: World, c: ConnId, client: bytes, clean: bool)
    requires Tidy(w) && Watched(w) && c !in w.conns
    ensures Watched(Attach(w, c, client, clean))
  {
    var w1 := Cleared(w, client);
    ClearedWatched(w, client);
    hide Tidy, Watched, Cleared, WithConn;
    if !clean && client in w.group {
      ConnWatched(w1, c, w.group[client], clean);
    } else {
      SessionWatched(w1, client);
      ConnWatched(WithSession(w1, client), c, w1.issued, clean);
    }
  }

  lemma StepWatched(w: World, e: Event)
    requires Tidy(w) && Watched(w) && !e.Disconnecting?
    ensures Watched(WorldStep(w, e))
  {
    match e
    case Connecting(c, client, clean) => if c !in w.conns { ConnectWatched(w, c, client, clean); }
    case Subscribing(c, filters) => if w.Serving(c) { hide SubscribeAll; }
    case Unsubscribing(c, paths) => if w.Serving(c) { hide CancelAll; }
    case Closing(c) =>
  }

  /** The run consists of whole handlers. */
  predicate WholeHandlers(es: seq<Event>)
  {
    forall i :: 0 <= i < |es| ==> !es[i].Disconnecting?
  }

  /** Over every run of whole handlers no session has two connections: a CONNECT disconnects the
      one that is there. */
  lemma {:induction false} OnePerSession(es: seq<Event>)
    requires WholeHandlers(es)
    ensures Watched(WorldRun(es))
    ensures var w := WorldRun(es);
            forall c, d :: c in w.conns && d in w.conns && w.conns[c].session == w.conns[d].session ==> c == d
  {
    if es != [] {
      OnePerSession(es[..|es| - 1]);
      RunTidy(es[..|es| - 1]);
      StepWatched(WorldRun(es[..|es| - 1]), es[|es| - 1]);
    }
  }

  // ----- Runs -----

  lemma StepInStep(w: World, e: Event)
    requires InStep(w) && Tidy(w)
    ensures InStep(WorldStep(w, e))
  {
    match e
    case Connecting(c, client, clean) => if c !in w.conns { ConnectInStep(w, c, client, clean); }
    case Subscribing(c, filters) => if w.Serving(c) { SubscribeInStep(w, c, filters); }
    case Unsubscribing(c, paths) => if w.Serving(c) { CancelInStep(w, c, paths); }
    case Disconnecting(c) => if w.Serving(c) { LeaveInStep(w, c); }
    case Closing(c) => if c in w.conns { CloseInStep(w, c); }
  }

  /** Records and table stay in step over every run of every connection. */
  lemma {:induction false} RunInStep(es: seq<Event>)
    ensures InStep(WorldRun(es))
  {
    if es != [] {
      RunInStep(es[..|es| - 1]);
      RunTidy(es[..|es| - 1]);
      StepInStep(WorldRun(es[..|es| - 1]), es[|es| - 1]);
    }
  }

  /** After any run, closing a connection leaves no entry that it created in the table, and
      leaves every other entry as it was. */
  lemma CloseTakesItsOwn(es: seq<Event>, c: ConnId)
    requires c in WorldRun(es).conns
    ensures var w, w' := WorldRun(es), WorldRun(es + [Closing(c)]);
            && (forall e :: e in w'.table ==> e.sub.ptr in w.owner && w.owner[e.sub.ptr] != c)
            && (forall e :: e in w.table && e.sub.ptr in w.owner && w.owner[e.sub.ptr] != c ==>
                              e in w'.table && w'.table[e] == w.table[e])
  {
    RunInStep(es);
    var w, w' := WorldRun(es), WorldRun(es + [Closing(c)]);
    assert (es + [Closing(c)])[..|es|] == es;
    forall e | e in w.table ensures e in w'.table <==> w.owner[e.sub.ptr] != c {
      assert Accounted(w, e);
      EntriesAreOwned(w, c, e);
    }
  }

  // ----- What a publish reaches -----

  /** The entries that belong to one client. */
  function EntriesFor(m: map<Entry, Subscription>, client: bytes): set<Entry>
  {
    set e | e in m && e.sub.client == client
  }

  /** How many entries of the table a published topic reaches at one client. */
  function Deliveries(table: Table, topic: Path, client: bytes): nat
  {
    |EntriesFor(Matching(table, topic), client)|
  }

  /** A subscription on the books: the connection and the filter it is recorded under. */
  datatype Record = Record(c: ConnId, path: bytes)

  /** A client's recorded subscriptions whose filter matches a topic. */
  function MatchingRecords(w: World, topic: Path, client: bytes): set<Record>
    requires w.Closed()
  {
    set c, path | c in w.conns && path in w.conns[c].subs && w.Client(c) == client
                  && Match(Split(path).levels, topic) :: Record(c, path)
  }

  function EntryOf(w: World, r: Record): Entry
  {
    if r.c in w.conns && r.path in w.conns[r.c].subs then Entry(Split(r.path).levels, w.conns[r.c].subs[r.path])
    else Entry([], Subscription(0, [], [], 0))
  }

  lemma RecordsAreEntries(w: World, topic: Path, client: bytes, e: Entry)
    requires InStep(w)
    ensures e in EntriesFor(Matching(w.table, topic), client) <==>
            exists r :: r in MatchingRecords(w, topic, client) && EntryOf(w, r) == e
  {
    hide Split, Match;
    if e in EntriesFor(Matching(w.table, topic), client) {
      assert Accounted(w, e);
      var r := Record(w.owner[e.sub.ptr], e.sub.topic);
      assert Recorded(w, r.c, r.path);
      assert r in MatchingRecords(w, topic, client) && EntryOf(w, r) == e;
    }
    if exists r :: r in MatchingRecords(w, topic, client) && EntryOf(w, r) == e {
      var r :| r in MatchingRecords(w, topic, client) && EntryOf(w, r) == e;
      assert Recorded(w, r.c, r.path);
    }
  }

  /** In step, a publish reaches a client exactly once for each of its subscriptions on the books
      whose filter matches the topic. */
  lemma FanOutInStep(w: World, topic: Path, client: bytes)
    requires InStep(w)
    ensures Deliveries(w.table, topic, client) == |MatchingRecords(w, topic, client)|
  {
    var records, f := MatchingRecords(w, topic, client), (r: Record) => EntryOf(w, r);
    forall r, q | r in records && q in records && f(r) == f(q) ensures r == q {
      assert Recorded(w, r.c, r.path) && Recorded(w, q.c, q.path);
    }
    forall e ensures e in EntriesFor(Matching(w.table, topic), client) <==> exists r :: r in records && f(r) == e {
      RecordsAreEntries(w, topic, client, e);
      if e in EntriesFor(Matching(w.table, topic), client) {
        var r :| r in records && EntryOf(w, r) == e;
        assert f(r) == e;
      }
    }
    ImageSize(records, f, EntriesFor(Matching(w.table, topic), client));
  }

  /** The same after any run. */
  lemma FanOutFollowsBooks(es: seq<Event>, topic: Path, client: bytes)
    ensures var w := WorldRun(es);
            Deliveries(w.table, topic, client) == |MatchingRecords(w, topic, client)|
  {
    RunInStep(es);
    FanOutInStep(WorldRun(es), topic, client);
  }

  /** After any run no subscriber has two filters. */
  lemma RunHasOwnFilters(es: seq<Event>)
    ensures OwnFilters(WorldRun(es).table)
  {
    RunInStep(es);
    var w := WorldRun(es);
    forall d, e | d in w.table && e in w.table && d.sub == e.sub ensures d == e {
      assert Accounted(w, d) && Accounted(w, e);
    }
  }

  lemma RunStep(es: seq<Event>, e: Event)
    ensures WorldRun(es + [e]) == WorldStep(WorldRun(es), e)
  {
    assert (es + [e])[..|es|] == es;
  }
}
