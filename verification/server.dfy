/** The connections of one broker process around the shared state, against the books of `Books`: every
    handler takes the heap from one state of a run to the next. */
module Servers {
  import opened Bytes
  import opened Messages
  import opened TopicLevels
  import opened SubscriptionTree
  import opened MemTopics
  import opened Books
  import opened Sessions
  import opened Broker

  class Server {
    const bb: Blackboard
    var conns: map<ConnId, ConBroker>
    ghost var names: map<SessionId, Session>  // every session there has been
    ghost var history: seq<Event>

    // ----- What the objects have to do with a world -----

    ghost predicate ConnsApart()
      reads this`conns, bb`index, bb.index`Repr
    {
      Apart(conns)
    }

    ghost predicate Apart(cs: map<ConnId, ConBroker>)
      reads bb`index, bb.index`Repr
    {
      && (forall c :: c in cs ==> cs[c].id == c && cs[c] !in bb.index.Repr && cs[c].outbox !in bb.index.Repr)
      && (forall c, d :: c in cs && d in cs && c != d ==> cs[c].outbox != cs[d].outbox)
    }

    ghost predicate NamesApart()
      reads this`names, bb`index, bb.index`Repr
    {
      Distinct(names)
    }

    ghost predicate Distinct(ns: map<SessionId, Session>)
      reads bb`index, bb.index`Repr
    {
      && (forall s :: s in ns ==> ns[s] !in bb.index.Repr)
      && (forall s, t :: s in ns && t in ns && s != t ==> ns[s] != ns[t])
    }

    /** The shared parts are in order, and the objects are apart from each other. */
    ghost predicate Shared()
      reads this`conns, this`names, bb, bb.index, bb.index.Repr
    {
      bb.Valid() && this !in bb.index.Repr && ConnsApart() && NamesApart()
    }

    ghost predicate TableHolds(w: World)
      reads bb`index, bb`next, bb`owner, bb.index`table
    {
      bb.index.table == w.table && bb.next == w.next && bb.owner == w.owner
    }

    ghost predicate ConnHolds(w: World, c: ConnId, conn: ConBroker)
      requires c in w.conns
      reads this`names, conn`session, conn`cleanSession, conn`leaving
    {
      && w.conns[c].session in names && conn.session == names[w.conns[c].session]
      && conn.cleanSession == w.conns[c].clean && conn.leaving == w.conns[c].leaving
    }

    /** The connections are attached as the world says. */
    ghost predicate ConnsHold(w: World)
      reads this`conns, this`names, conns.Values`session, conns.Values`cleanSession, conns.Values`leaving
    {
      conns.Keys == w.conns.Keys && forall c :: c in conns ==> ConnHolds(w, c, conns[c])
    }

    /** The channel of the connection whose write handler is set. */
    ghost function Channel(writer: Option<ConnId>): Outbox?
      reads this`conns
    {
      if writer.Some? && writer.value in conns then conns[writer.value].outbox else null
    }

    ghost predicate SessionHolds(w: World, s: SessionId, session: Session)
      requires s in w.sessions
      reads this`conns, session`clientId, session`onWrite, session`onDisconnect
    {
      && session.clientId == w.sessions[s].client && session.onDisconnect == w.sessions[s].watcher
      && session.onWrite == Channel(w.sessions[s].writer)
    }

    /** The sessions belong to their clients and have the handlers that the world says. */
    ghost predicate SessionsHold(w: World)
      reads this`conns, this`names, names.Values`clientId, names.Values`onWrite, names.Values`onDisconnect
    {
      names.Keys == w.sessions.Keys && forall s :: s in names ==> SessionHolds(w, s, names[s])
    }

    ghost predicate GroupHolds(w: World)
      reads this`names, bb`sessions
    {
      && bb.sessions.Keys == w.group.Keys
      && forall k :: k in bb.sessions ==> w.group[k] in names && bb.sessions[k] == names[w.group[k]]
    }

    /** All that the handlers of messages leave alone. */
    ghost predicate FixedHold(w: World)
      reads this`conns, this`names, conns.Values`session, conns.Values`cleanSession, conns.Values`leaving
      reads names.Values`clientId, names.Values`onWrite, names.Values`onDisconnect, bb`sessions
    {
      ConnsHold(w) && SessionsHold(w) && GroupHolds(w)
    }

    ghost predicate SubsHold(w: World)
      requires conns.Keys <= w.conns.Keys
      reads this`conns, conns.Values`subscription
    {
      forall c :: c in conns ==> conns[c].subscription == w.conns[c].subs
    }

    ghost predicate TopicsHold(w: World)
      requires names.Keys <= w.sessions.Keys
      reads this`names, names.Values`topics
    {
      forall s :: s in names ==> names[s].topics == w.sessions[s].topics
    }

    ghost predicate AllHold(w: World)
      reads this`conns, this`names, bb, bb.index, bb.index.Repr
      reads conns.Values`session, conns.Values`cleanSession, conns.Values`leaving, conns.Values`subscription
      reads names.Values`clientId, names.Values`onWrite, names.Values`onDisconnect, names.Values`topics
    {
      Shared() && FixedHold(w) && SubsHold(w) && TopicsHold(w)
    }

    /** The heap is the state of the run so far. */
    ghost predicate Valid()
      reads this, bb, bb.index, bb.index.Repr, conns.Values, names.Values
    {
      AllHold(WorldRun(history)) && TableHolds(WorldRun(history))
    }

    ghost predicate Live(conn: ConBroker)
      reads this`conns
    {
      conn.id in conns && conns[conn.id] == conn
    }

    constructor ()
      ensures Valid() && history == [] && conns == map[]
    {
      bb := new Blackboard();
      conns, names, history := map[], map[], [];
    }

    /** What a handler of a live connection finds. */
    lemma Sees(conn: ConBroker)
      requires Valid() && Live(conn)
      ensures var w := WorldRun(history);
              && AllHold(w) && TableHolds(w) && conn.Valid(bb) && conn.session != null && conn.id in w.conns
              && conn.session in names.Values && conn.session.clientId == w.Client(conn.id)
              && conn.leaving == w.conns[conn.id].leaving && conn.subscription == w.conns[conn.id].subs
              && conn.Look(bb) == Books.Look(w, conn.id)
              && conn !in bb.index.Repr && bb !in bb.index.Repr && this !in bb.index.Repr
    {
    }

    lemma IsValid(w: World)
      requires AllHold(w) && TableHolds(w) && WorldRun(history) == w
      ensures Valid()
    {
      hide WorldRun, Server.AllHold, Server.TableHolds;
    }

    // ----- SUBSCRIBE and UNSUBSCRIBE -----

    ghost predicate SubsBut(w: World, conn: ConBroker)
      requires conns.Keys <= w.conns.Keys
      reads this`conns, (conns.Values - {conn})`subscription
    {
      forall c :: c in conns && conns[c] != conn ==> conns[c].subscription == w.conns[c].subs
    }

    ghost predicate TopicsBut(w: World, session: Session?)
      requires names.Keys <= w.sessions.Keys
      reads this`names, (names.Values - {session})`topics
    {
      forall s :: s in names && names[s] != session ==> names[s].topics == w.sessions[s].topics
    }

    /** Everything holds that does not belong to the connection. */
    ghost predicate AllBut(w: World, conn: ConBroker)
      reads this`conns, this`names, bb, bb.index, bb.index.Repr
      reads conns.Values`session, conns.Values`cleanSession, conns.Values`leaving
      reads names.Values`clientId, names.Values`onWrite, names.Values`onDisconnect
      reads conn`session, (conns.Values - {conn})`subscription, (names.Values - {conn.session})`topics
    {
      && Shared() && FixedHold(w) && Live(conn)
      && SubsBut(w, conn) && TopicsBut(w, conn.session)
    }

    lemma HoldsBut(w: World, conn: ConBroker)
      requires AllHold(w) && Live(conn)
      ensures AllBut(w, conn)
    {
      hide Blackboard.Valid, Server.ConnsApart, Server.NamesApart, Server.FixedHold;
      assert FixedHold(w) ==> conns.Keys <= w.conns.Keys && names.Keys <= w.sessions.Keys by { FixedKeys(w); }
    }

    lemma FixedKeys(w: World)
      ensures FixedHold(w) ==> conns.Keys == w.conns.Keys && names.Keys == w.sessions.Keys
    {
    }

    /** After a handler of one connection the heap holds what the world says then. */
    lemma HoldsWrite(w: World, conn: ConBroker, v: View)
      requires w.Closed() && AllBut(w, conn) && conn.session != null && conn.id in w.conns
      requires conn.Look(bb) == v.(codes := [])
      ensures AllHold(Write(w, conn.id, v)) && TableHolds(Write(w, conn.id, v))
    {
      var s := w.conns[conn.id].session;
      assert s in names && names[s] == conn.session;
      WriteKeys(w, conn.id, v);
      FixedWrite(w, conn.id, v);
      FixedKeys(Write(w, conn.id, v));
      hide Blackboard.Valid, Server.FixedHold, Write;
      SubsWrite(w, conn, v);
      TopicsWrite(w, conn, v);
    }

    lemma WriteKeys(w: World, c: ConnId, v: View)
      requires w.Closed() && c in w.conns
      ensures var w' := Write(w, c, v);
              && w'.conns.Keys == w.conns.Keys && w'.sessions.Keys == w.sessions.Keys && w'.group == w.group
              && w'.table == v.table && w'.next == v.next && w'.owner == v.owner
    {
    }

    lemma SubsWrite(w: World, conn: ConBroker, v: View)
      requires w.Closed() && conns.Keys <= w.conns.Keys && ConnsApart() && Live(conn)
      requires SubsBut(w, conn) && conn.subscription == v.subs
      ensures conns.Keys <= Write(w, conn.id, v).conns.Keys && SubsHold(Write(w, conn.id, v))
    {
      assert forall d :: d in conns && d != conn.id ==> conns[d] != conn;
    }

    lemma TopicsWrite(w: World, conn: ConBroker, v: View)
      requires w.Closed() && names.Keys <= w.sessions.Keys && NamesApart() && conn.id in w.conns
      requires w.conns[conn.id].session in names && names[w.conns[conn.id].session] == conn.session
      requires TopicsBut(w, conn.session) && conn.session.topics == v.topics
      ensures names.Keys <= Write(w, conn.id, v).sessions.Keys && TopicsHold(Write(w, conn.id, v))
    {
      assert forall s :: s in names && s != w.conns[conn.id].session ==> names[s] != conn.session;
    }

    lemma FixedWrite(w: World, c: ConnId, v: View)
      requires w.Closed() && FixedHold(w) && c in w.conns
      ensures FixedHold(Write(w, c, v))
    {
      WriteKeys(w, c, v);
      ConnsWrite(w, c, v);
      SessionsWrite(w, c, v);
      hide Server.ConnsHold, Server.SessionsHold, Write;
    }

    lemma ConnsWrite(w: World, c: ConnId, v: View)
      requires w.Closed() && ConnsHold(w) && c in w.conns
      ensures ConnsHold(Write(w, c, v))
    {
      forall d | d in conns ensures ConnHolds(Write(w, c, v), d, conns[d]) {
        assert ConnHolds(w, d, conns[d]);
      }
    }

    lemma SessionsWrite(w: World, c: ConnId, v: View)
      requires w.Closed() && SessionsHold(w) && c in w.conns
      ensures SessionsHold(Write(w, c, v))
    {
      hide Server.Channel;
      forall s | s in names ensures SessionHolds(Write(w, c, v), s, names[s]) {
        assert SessionHolds(w, s, names[s]);
      }
    }

    /** A SUBSCRIBE on one connection. */
    method Subscribe(conn: ConBroker, msg: Subscribe) returns (ghost batches: seq<seq<Publish>>)
      requires conn.session != null && Valid() && Live(conn) && !conn.leaving
      modifies conn`subscription, conn.outbox, conn.session`topics, bb`next, bb`owner, bb.index.Repr, this`history
      ensures Valid() && Live(conn) && fresh(bb.index.Repr - old(bb.index.Repr))
      ensures history == old(history) + [Subscribing(conn.id, msg.payload)]
      ensures var ack := MSuback(Suback(Header(false, 0, 0, 0), msg.packetId, Answers(msg.payload)));
              conn.outbox.sent == old(conn.outbox.sent) + [ack] + AsMessages(Flatten(batches))
      ensures AreBatches(batches, bb.index.shelf.kept, msg.payload) && bb.index.shelf == old(bb.index.shelf)
    {
      hide *;
      Sees(conn);
      ghost var w := WorldRun(history);
      ghost var v := SubscribeAll(Books.Look(w, conn.id), Peer(conn.id, w.Client(conn.id)), msg.payload);
      RunSubscribes(history, conn.id, msg.payload);
      HoldsBut(w, conn);
      batches := RunSubscribe(conn, msg, w);
      history := history + [Subscribing(conn.id, msg.payload)];
      HoldsWrite(w, conn, v);
      IsValid(Write(w, conn.id, v));
      StillLive(w, conn);
    }

    lemma StillLive(w: World, conn: ConBroker)
      requires AllBut(w, conn)
      ensures Live(conn)
    {
    }

    method RunSubscribe(conn: ConBroker, msg: Subscribe, ghost w: World) returns (ghost batches: seq<seq<Publish>>)
      requires conn.session != null && conn.Valid(bb) && AllBut(w, conn)
      modifies conn`subscription, conn.outbox, conn.session`topics, bb`next, bb`owner, bb.index.Repr
      ensures AllBut(w, conn) && fresh(bb.index.Repr - old(bb.index.Repr))
      ensures conn.Look(bb) ==
              SubscribeAll(old(conn.Look(bb)), Peer(conn.id, old(conn.session.clientId)), msg.payload).(codes := [])
      ensures var ack := MSuback(Suback(Header(false, 0, 0, 0), msg.packetId, Answers(msg.payload)));
              conn.outbox.sent == old(conn.outbox.sent) + [ack] + AsMessages(Flatten(batches))
      ensures AreBatches(batches, bb.index.shelf.kept, msg.payload) && bb.index.shelf == old(bb.index.shelf)
    {
      hide SubscribeAll, Topics.Valid, AreBatches, AsMessages, Flatten, Answers, Server.FixedHold;
      batches := conn.OnSubscribe(bb, msg);
    }

    /** An UNSUBSCRIBE on one connection. */
    method Unsubscribe(conn: ConBroker, msg: Unsubscribe)
      requires conn.session != null && Valid() && Live(conn) && !conn.leaving
      modifies conn`subscription, conn.outbox, conn.session`topics, bb.index.Repr, this`history
      ensures Valid() && Live(conn) && fresh(bb.index.Repr - old(bb.index.Repr))
      ensures history == old(history) + [Unsubscribing(conn.id, msg.payload)]
      ensures conn.outbox.sent == old(conn.outbox.sent) + [MSuback(Suback(Header(false, 0, 0, 0), msg.packetId, []))]
      ensures bb.index.shelf == old(bb.index.shelf)
    {
      hide *;
      Sees(conn);
      ghost var w := WorldRun(history);
      ghost var v := CancelAll(Books.Look(w, conn.id), msg.payload, true);
      RunUnsubscribes(history, conn.id, msg.payload);
      HoldsBut(w, conn);
      RunUnsubscribe(conn, msg, w);
      history := history + [Unsubscribing(conn.id, msg.payload)];
      HoldsWrite(w, conn, v);
      IsValid(Write(w, conn.id, v));
      StillLive(w, conn);
    }

    method RunUnsubscribe(conn: ConBroker, msg: Unsubscribe, ghost w: World)
      requires conn.session != null && conn.Valid(bb) && AllBut(w, conn)
      modifies conn`subscription, conn.outbox, conn.session`topics, bb.index.Repr
      ensures AllBut(w, conn) && fresh(bb.index.Repr - old(bb.index.Repr))
      ensures conn.Look(bb) == CancelAll(old(conn.Look(bb)), msg.payload, true).(codes := [])
      ensures conn.outbox.sent == old(conn.outbox.sent) + [MSuback(Suback(Header(false, 0, 0, 0), msg.packetId, []))]
      ensures bb.index.shelf == old(bb.index.shelf)
    {
      hide CancelAll, Topics.Valid, Server.FixedHold;
      CancelKeepsCodes(conn.Look(bb), msg.payload);
      conn.OnUnSubscribe(bb, msg);
    }

    // ----- Close and DISCONNECT -----

    /** The connection closes. */
    method Close(conn: ConBroker)
      requires conn.session != null && Valid() && Live(conn)
      modifies conn`session, conn.session`onWrite, conn.session`onDisconnect, bb`sessions, bb.index.Repr
      modifies this`conns, this`history
      ensures Valid() && conns == old(conns) - {conn.id} && fresh(bb.index.Repr - old(bb.index.Repr))
      ensures history == old(history) + [Closing(conn.id)]
      ensures bb.sessions == if conn.cleanSession then old(bb.sessions) - {old(conn.session.clientId)}
                             else old(bb.sessions)
      ensures conn.session == null && old(conn.session).onWrite == null && old(conn.session).onDisconnect == None
    {
      hide *;
      Sees(conn);
      ghost var w := WorldRun(history);
      RunTidy(history);
      RunCloses(history, conn.id);
      FinishClose(conn, w);
      history := history + [Closing(conn.id)];
      IsValid(Detach(w, conn.id));
    }

    /** A clean session can no longer be found, the entries of the connection leave the index, and
        the session loses its handlers. */
    method FinishClose(conn: ConBroker, ghost w: World)
      requires conn.session != null && Tidy(w) && w.Closed() && AllHold(w) && TableHolds(w) && Live(conn)
      requires conn.id in w.conns
      modifies conn`session, conn.session`onWrite, conn.session`onDisconnect, bb`sessions, bb.index.Repr, this`conns
      ensures AllHold(Detach(w, conn.id)) && TableHolds(Detach(w, conn.id))
      ensures conns == old(conns) - {conn.id} && fresh(bb.index.Repr - old(bb.index.Repr))
      ensures bb.sessions == if conn.cleanSession then old(bb.sessions) - {old(conn.session.clientId)}
                             else old(bb.sessions)
      ensures conn.session == null && old(conn.session).onWrite == null && old(conn.session).onDisconnect == None
    {
      hide *;
      Opens(conn, w);
      ForgetClean(conn, w);
      RunClose(conn, w);
      Unhook(conn, w);
      Detached(w, conn.id);
    }

    /** A DISCONNECT: the session will not disconnect this connection any more. Its Close is under way. */
    method Disconnect(conn: ConBroker)
      requires conn.session != null && Valid() && Live(conn) && !conn.leaving
      modifies conn`leaving, conn.session`onDisconnect, this`history
      ensures Valid() && Live(conn) && conn.leaving && conn.session == old(conn.session)
      ensures history == old(history) + [Disconnecting(conn.id)]
    {
      hide *;
      Sees(conn);
      ghost var w := WorldRun(history);
      RunLeaves(history, conn.id);
      Depart(conn, w);
      history := history + [Disconnecting(conn.id)];
      IsValid(Leave(w, conn.id));
    }

    method Depart(conn: ConBroker, ghost w: World)
      requires conn.session != null && w.Closed() && AllHold(w) && TableHolds(w) && Live(conn) && conn.id in w.conns
      modifies conn`leaving, conn.session`onDisconnect
      ensures AllHold(Leave(w, conn.id)) && TableHolds(Leave(w, conn.id)) && Live(conn)
      ensures conn.leaving && conn.session == old(conn.session)
    {
      hide *;
      Opens(conn, w);
      Pieces(w);
      LeaveKeeps(w, conn.id);
      SayLeaving(conn, w);
      StopWatching(conn.session, w, conn.id);
      Closes(Leave(w, conn.id));
    }

    method SayLeaving(conn: ConBroker, ghost w: World)
      requires w.Closed() && ConnsHold(w) && ConnsApart() && Live(conn) && conn.id in w.conns
      modifies conn`leaving
      ensures ConnsHold(Leave(w, conn.id)) && conn.leaving
    {
      conn.leaving := true;
      forall d | d in conns ensures ConnHolds(Leave(w, conn.id), d, conns[d]) {
        assert old(ConnHolds(w, d, conns[d]));
      }
    }

    method StopWatching(session: Session, ghost w: World, ghost c: ConnId)
      requires w.Closed() && SessionsHold(w) && NamesApart() && c in w.conns
      requires w.conns[c].session in names && names[w.conns[c].session] == session
      modifies session`onDisconnect
      ensures SessionsHold(Leave(w, c))
    {
      hide Server.Channel;
      session.WithOnDisconnect(None);
      forall t | t in names ensures SessionHolds(Leave(w, c), t, names[t]) {
        assert old(SessionHolds(w, t, names[t]));
      }
    }

    lemma LeaveKeeps(w: World, c: ConnId)
      requires w.Closed() && c in w.conns && Kept(w) && GroupHolds(w) && TableHolds(w)
      ensures conns.Keys == w.conns.Keys == Leave(w, c).conns.Keys
      ensures names.Keys == w.sessions.Keys == Leave(w, c).sessions.Keys
      ensures SubsHold(Leave(w, c)) && TopicsHold(Leave(w, c)) && GroupHolds(Leave(w, c)) && TableHolds(Leave(w, c))
    {
      hide Server.ConnHolds, Server.SessionHolds;
    }

    lemma Closes(w: World)
      requires Shared() && ConnsHold(w) && SessionsHold(w) && GroupHolds(w)
      requires conns.Keys <= w.conns.Keys && names.Keys <= w.sessions.Keys && SubsHold(w) && TopicsHold(w)
      ensures AllHold(w)
    {
    }

    /** The parts of a state in which all holds, with the connection that is about to close. */
    ghost predicate Parts(w: World)
      reads this`conns, this`names, bb, bb.index, bb.index.Repr
      reads conns.Values`session, conns.Values`cleanSession, conns.Values`leaving, conns.Values`subscription
      reads names.Values`clientId, names.Values`onWrite, names.Values`onDisconnect, names.Values`topics
    {
      Shared() && Kept(w)
    }

    /** All but the table and the group. */
    ghost predicate Kept(w: World)
      reads this`conns, this`names
      reads conns.Values`session, conns.Values`cleanSession, conns.Values`leaving, conns.Values`subscription
      reads names.Values`clientId, names.Values`onWrite, names.Values`onDisconnect, names.Values`topics
    {
      ConnsHold(w) && SessionsHold(w) && SubsHold(w) && TopicsHold(w)
    }

    lemma Opens(conn: ConBroker, w: World)
      requires AllHold(w) && TableHolds(w) && Live(conn) && w.Closed() && conn.id in w.conns && conn.session != null
      ensures Parts(w) && GroupHolds(w) && TableHolds(w) && conn.subscription == w.conns[conn.id].subs
      ensures conn.session in names.Values && conn.session.clientId == w.Client(conn.id)
      ensures conn.cleanSession == w.conns[conn.id].clean && conn.Valid(bb)
      ensures conn !in bb.index.Repr && conn.session !in bb.index.Repr && bb !in bb.index.Repr
      ensures this !in bb.index.Repr
      ensures w.conns[conn.id].session in names && names[w.conns[conn.id].session] == conn.session
    {
    }

    lemma Pieces(w: World)
      requires AllHold(w)
      ensures Shared() && ConnsApart() && NamesApart() && Kept(w) && ConnsHold(w) && SessionsHold(w) && GroupHolds(w)
      ensures conns.Keys == w.conns.Keys && names.Keys == w.sessions.Keys && SubsHold(w) && TopicsHold(w)
    {
    }

    lemma Detached(w: World, c: ConnId)
      requires w.Closed() && c in w.conns && Parts(Detach(w, c)) && GroupHolds(Detach(w, c))
      requires bb.index.table == w.table - EntriesOf(w.conns[c].subs) && bb.next == w.next && bb.owner == w.owner
      ensures AllHold(Detach(w, c)) && TableHolds(Detach(w, c))
    {
      hide Server.Shared, Server.ConnsHold, Server.SessionsHold, Server.GroupHolds, EntriesOf;
      assert Detach(w, c).table == w.table - EntriesOf(w.conns[c].subs);
      assert Detach(w, c).next == w.next && Detach(w, c).owner == w.owner;
      hide Detach, Server.SubsHold, Server.TopicsHold;
    }

    method ForgetClean(conn: ConBroker, ghost w: World)
      requires conn.session != null && w.Closed() && conn.id in w.conns && Parts(w) && GroupHolds(w)
      requires conn.session.clientId == w.Client(conn.id) && conn.cleanSession == w.conns[conn.id].clean
      requires conn.Valid(bb)
      modifies bb`sessions
      ensures conn.Valid(bb) && Parts(w) && GroupHolds(Detach(w, conn.id))
      ensures bb.sessions == if conn.cleanSession then old(bb.sessions) - {conn.session.clientId} else old(bb.sessions)
    {
      hide EntriesOf, Topics.Valid, Server.Kept, Server.ConnsApart, Server.NamesApart;
      if conn.cleanSession {
        bb.sessions := bb.sessions - {conn.session.clientId};
      }
    }

    method RunClose(conn: ConBroker, ghost w: World)
      requires conn.Valid(bb) && Parts(w) && w.Closed() && conn.id in w.conns
      requires GroupHolds(Detach(w, conn.id)) && conn.subscription == w.conns[conn.id].subs && TableHolds(w)
      modifies bb.index.Repr
      ensures Parts(w) && GroupHolds(Detach(w, conn.id)) && fresh(bb.index.Repr - old(bb.index.Repr))
      ensures bb.index.table == w.table - EntriesOf(w.conns[conn.id].subs) && bb.next == w.next && bb.owner == w.owner
    {
      hide EntriesOf, Topics.Valid, Server.Kept, Detach, Server.GroupHolds;
      conn.CloseSubscriptions(bb);
    }

    /** What is left to keep when the connection leaves the map. */
    ghost predicate Rest(w: World)
      reads this`names, bb, bb.index, bb.index.Repr
    {
      bb.Valid() && this !in bb.index.Repr && NamesApart() && GroupHolds(w)
    }

    method Unhook(conn: ConBroker, ghost w: World)
      requires conn.session != null && w.Closed() && Tidy(w) && Live(conn) && conn.id in w.conns
      requires Parts(w) && GroupHolds(Detach(w, conn.id)) && conn !in bb.index.Repr && conn.session !in bb.index.Repr
      requires w.conns[conn.id].session in names && names[w.conns[conn.id].session] == conn.session
      modifies conn`session, conn.session`onWrite, conn.session`onDisconnect, this`conns
      ensures Parts(Detach(w, conn.id)) && GroupHolds(Detach(w, conn.id)) && conns == old(conns) - {conn.id}
      ensures conn.session == null && old(conn.session).onWrite == null && old(conn.session).onDisconnect == None
    {
      hide *;
      ghost var c, s := conn.id, w.conns[conn.id].session;
      NobodyWrites(w, c);
      OpensParts(w, Detach(w, c));
      IsThere(conn);
      ClearHandlers(conn.session, w, s, Detach(w, c));
      DropConn(conn, Quieted(w, s), Detach(w, c));
      KeptDetached(w, c);
      PartsFrom(Detach(w, c));
    }

    lemma IsThere(conn: ConBroker)
      requires Live(conn)
      ensures conn.id in conns
    {
    }

    lemma OpensParts(w: World, w': World)
      requires Parts(w) && GroupHolds(w')
      ensures Rest(w') && ConnsApart() && Kept(w) && this !in bb.index.Repr
    {
    }

    lemma PartsFrom(w: World)
      requires Rest(w) && ConnsApart() && Kept(w)
      ensures Parts(w) && GroupHolds(w)
    {
    }

    lemma KeptDetached(w: World, c: ConnId)
      requires w.Closed() && c in w.conns && Kept(Dropped(Quieted(w, w.conns[c].session), c))
      ensures Kept(Detach(w, c))
    {
    }

    method ClearHandlers(session: Session, ghost w: World, ghost s: SessionId, ghost w': World)
      requires Rest(w') && Kept(w) && s in names && names[s] == session && s in w.sessions && session !in bb.index.Repr
      requires ConnsApart()
      modifies session`onWrite, session`onDisconnect
      ensures Kept(Quieted(w, s)) && Rest(w') && ConnsApart()
      ensures session.onWrite == null && session.onDisconnect == None
    {
      hide *;
      SetHandlers(session, w, s, w');
    }

    lemma OthersApart(s: SessionId, w: World)
      requires Rest(w) && s in names
      ensures forall t :: t in names && t != s ==> names[t] != names[s]
    {
    }

    method SetHandlers(session: Session, ghost w: World, ghost s: SessionId, ghost w': World)
      requires Rest(w') && Kept(w) && s in names && names[s] == session && s in w.sessions
      modifies session`onWrite, session`onDisconnect
      ensures Kept(Quieted(w, s))
      ensures session.onWrite == null && session.onDisconnect == None
    {
      hide *;
      OthersApart(s, w');
      QuietedHolds(w, s);
      Silence(session, w, s);
      SessionsFrom(Quieted(w, s));
      KeptFrom(Quieted(w, s));
    }

    method Silence(session: Session, ghost w: World, ghost s: SessionId)
      requires s in names && names[s] == session && names.Keys == w.sessions.Keys
      requires forall t :: t in names && t != s ==> names[t] != session
      requires forall t :: t in names ==> SessionHolds(w, t, names[t])
      modifies session`onWrite, session`onDisconnect
      ensures forall t :: t in names ==> SessionHolds(Quieted(w, s), t, names[t])
      ensures session.onWrite == null && session.onDisconnect == None
    {
      session.WithOnDisconnect(None);
      session.WithOnWrite(null);
      forall t | t in names ensures SessionHolds(Quieted(w, s), t, names[t]) {
        assert old(SessionHolds(w, t, names[t]));
      }
    }

    lemma SessionsFrom(w: World)
      requires names.Keys == w.sessions.Keys && forall s :: s in names ==> SessionHolds(w, s, names[s])
      ensures SessionsHold(w)
    {
    }

    lemma KeptFrom(w: World)
      requires ConnsHold(w) && SessionsHold(w) && SubsHold(w) && TopicsHold(w)
      ensures Kept(w)
    {
    }

    lemma QuietedHolds(w: World, s: SessionId)
      requires Kept(w) && s in w.sessions
      ensures conns.Keys == w.conns.Keys && names.Keys == w.sessions.Keys == Quieted(w, s).sessions.Keys
      ensures forall t :: t in names ==> SessionHolds(w, t, names[t])
      ensures ConnsHold(Quieted(w, s)) && SubsHold(Quieted(w, s)) && TopicsHold(Quieted(w, s))
    {
      forall c | c in conns ensures ConnHolds(Quieted(w, s), c, conns[c]) {
        assert ConnHolds(w, c, conns[c]);
      }
    }

    method DropConn(conn: ConBroker, ghost w: World, ghost w': World)
      requires ConnsApart() && Rest(w') && conn !in bb.index.Repr && this !in bb.index.Repr
      requires Kept(w) && conn.id in conns && Live(conn) && conn.id in w.conns
      requires forall t :: t in w.sessions ==> w.sessions[t].writer != Some(conn.id)
      modifies conn`session, this`conns
      ensures ConnsApart() && Kept(Dropped(w, conn.id)) && conns == old(conns) - {conn.id} && Rest(w')
      ensures conn.session == null
    {
      hide *;
      RemoveConn(conn, w);
      NotThere(conn);
      conn.session := null;
    }

    lemma NotThere(conn: ConBroker)
      requires ConnsApart() && conn.id !in conns
      ensures conn !in conns.Values
    {
    }

    method RemoveConn(conn: ConBroker, ghost w: World)
      requires ConnsApart() && Kept(w) && conn.id in conns && conn.id in w.conns
      requires forall t :: t in w.sessions ==> w.sessions[t].writer != Some(conn.id)
      modifies this`conns
      ensures ConnsApart() && Kept(Dropped(w, conn.id)) && conns == old(conns) - {conn.id}
    {
      hide *;
      Unpack(w);
      ghost var cs := conns;
      RemoveKey(conn.id, w);
      ApartWithout(cs, conn.id);
      KeptDropped(w, conn.id);
    }

    method RemoveKey(c: ConnId, ghost w: World)
      requires c in conns && c in w.conns && conns.Keys == w.conns.Keys && names.Keys == w.sessions.Keys
      requires forall d :: d in conns ==> ConnHolds(w, d, conns[d])
      requires forall s :: s in names ==> SessionHolds(w, s, names[s])
      requires SubsHold(w) && forall t :: t in w.sessions ==> w.sessions[t].writer != Some(c)
      modifies this`conns
      ensures conns == old(conns) - {c} && SubsHold(w)
      ensures forall d :: d in conns ==> ConnHolds(w, d, conns[d])
      ensures forall s :: s in names ==> SessionHolds(w, s, names[s])
    {
      hide Server.ConnHolds;
      label before:
      conns := conns - {c};
      assert forall s :: s in names ==> old@before(SessionHolds(w, s, names[s]));
    }

    lemma KeptDropped(w: World, c: ConnId)
      requires c in w.conns && conns.Keys == w.conns.Keys - {c} && names.Keys == w.sessions.Keys
      requires forall d :: d in conns ==> ConnHolds(w, d, conns[d])
      requires forall s :: s in names ==> SessionHolds(w, s, names[s])
      requires SubsHold(w) && TopicsHold(w)
      ensures Kept(Dropped(w, c))
    {
      var w' := Dropped(w, c);
      forall d | d in conns ensures ConnHolds(w', d, conns[d]) {
        assert ConnHolds(w, d, conns[d]);
      }
      forall s | s in names ensures SessionHolds(w', s, names[s]) {
        assert SessionHolds(w, s, names[s]);
      }
      hide Server.ConnHolds, Server.SessionHolds;
    }

    lemma ApartWithout(cs: map<ConnId, ConBroker>, c: ConnId)
      requires Apart(cs) && conns == cs - {c}
      ensures ConnsApart()
    {
    }

    lemma Unpack(w: World)
      requires Kept(w)
      ensures ConnsApart() ==> Apart(conns)
      ensures conns.Keys == w.conns.Keys && names.Keys == w.sessions.Keys
      ensures forall c :: c in conns ==> ConnHolds(w, c, conns[c])
      ensures forall s :: s in names ==> SessionHolds(w, s, names[s])
      ensures SubsHold(w) && TopicsHold(w)
    {
    }

    // ----- CONNECT -----

    /** An accepted CONNECT on a new connection. A session found under the client is disconnected first. It is
        resumed, with its offline messages, unless the new session is to be clean. */
    method Connect(c: ConnId, client: bytes, clean: bool, limit: int) returns (conn: ConBroker)
      requires Valid() && c !in conns
      modifies conns.Values`session, names.Values`onWrite, names.Values`onDisconnect, names.Values`clientId
      modifies names.Values`offlineQueue, bb`sessions, bb.index.Repr, this`conns, this`names, this`history
      ensures Valid() && fresh(conn) && conn.id == c && Live(conn) && fresh(bb.index.Repr - old(bb.index.Repr))
      ensures history == old(history) + [Connecting(c, client, clean)]
      ensures conn.session != null && conn.session.offlineQueue == []
      ensures if !clean && client in old(bb.sessions) then
                conn.session == old(bb.sessions[client]) && conn.outbox.sent == old(bb.sessions[client].offlineQueue)
              else fresh(conn.session) && conn.session.offlineLimit == limit && conn.outbox.sent == []
      ensures conn.cleanSession == clean && conn.subscription == map[] && !conn.leaving
      ensures conn.session.clientId == client
      ensures conn.session.onWrite == conn.outbox && conn.session.onDisconnect == Some(c)
      ensures (clean || client !in old(bb.sessions)) ==> client in bb.sessions && bb.sessions[client] == conn.session
    {
      hide *;
      ghost var w := WorldRun(history);
      Starts();
      HasKeys(w);
      Grouped(w, client);
      RunTidy(history);
      RunConnects(history, c, client, clean);
      var session, resumed := Seat(client, clean, limit, w);
      conn := Enter(c, session, resumed, client, clean, w);
      history := history + [Connecting(c, client, clean)];
      IsValid(Attach(w, c, client, clean));
    }

    /** The connection is attached to its session. */
    method Enter(c: ConnId, session: Session, resumed: bool, client: bytes, clean: bool, ghost w: World)
      returns (conn: ConBroker)
      requires Tidy(w) && w.Closed() && c !in w.conns
      requires AllHold(Ready(w, client, clean)) && TableHolds(Ready(w, client, clean))
      requires Chosen(w, client, clean) in names && names[Chosen(w, client, clean)] == session
      modifies session`onWrite, session`onDisconnect, session`clientId, session`offlineQueue, this`conns
      ensures AllHold(Attach(w, c, client, clean)) && TableHolds(Attach(w, c, client, clean))
      ensures fresh(conn) && conn.id == c && conn.session == session && Live(conn)
      ensures conn.outbox.sent == if resumed then old(session.offlineQueue) else []
      ensures session.offlineQueue == if resumed then [] else old(session.offlineQueue)
      ensures conn.cleanSession == clean && conn.subscription == map[] && !conn.leaving
      ensures session.clientId == client && session.onWrite == conn.outbox && session.onDisconnect == Some(c)
    {
      hide *;
      ghost var w', s := Ready(w, client, clean), Chosen(w, client, clean);
      AttachIs(w, c, client, clean);
      HasKeys(w');
      conn := Greet(c, session, resumed, w');
      Install(conn, session, w', s, client, clean);
    }

    /** The session to attach to. */
    method Seat(client: bytes, clean: bool, limit: int, ghost w: World) returns (session: Session, resumed: bool)
      requires Tidy(w) && w.Closed() && AllHold(w) && TableHolds(w)
      modifies conns.Values`session, names.Values`onWrite, names.Values`onDisconnect
      modifies bb`sessions, bb.index.Repr, this`conns, this`names
      ensures var w' := Ready(w, client, clean);
              && AllHold(w') && TableHolds(w')
              && Chosen(w, client, clean) in names && names[Chosen(w, client, clean)] == session
      ensures resumed == (!clean && client in old(bb.sessions)) && fresh(bb.index.Repr - old(bb.index.Repr))
      ensures if resumed then
                session == old(bb.sessions[client]) && session.offlineQueue == old(bb.sessions[client].offlineQueue)
              else fresh(session) && session.offlineLimit == limit && session.offlineQueue == []
      ensures !resumed ==> client in bb.sessions && bb.sessions[client] == session
    {
      hide *;
      Grouped(w, client);
      HasKeys(w);
      ReadyIs(w, client, clean);
      var found := Previous(client, w);
      resumed := !clean && found != null;
      if resumed {
        session := found;
      } else {
        session := Spawn(client, limit, Cleared(w, client));
      }
    }

    /** The session found under the client, if any, after its DoDisconnect. */
    method Previous(client: bytes, ghost w: World) returns (session: Session?)
      requires Tidy(w) && w.Closed() && AllHold(w) && TableHolds(w)
      modifies conns.Values`session, names.Values`onWrite, names.Values`onDisconnect, bb`sessions
      modifies bb.index.Repr, this`conns
      ensures AllHold(Cleared(w, client)) && TableHolds(Cleared(w, client))
      ensures session != null <==> client in old(bb.sessions)
      ensures fresh(bb.index.Repr - old(bb.index.Repr))
      ensures session != null ==>
                session == old(bb.sessions[client]) && session.offlineQueue == old(bb.sessions[client].offlineQueue)
    {
      hide *;
      Grouped(w, client);
      session := null;
      if client in bb.sessions {
        session := bb.sessions[client];
        DoDisconnect(session, w, w.group[client]);
      }
    }

    lemma Starts()
      requires Valid()
      ensures var w := WorldRun(history); w.Closed() && AllHold(w) && TableHolds(w)
    {
    }

    lemma HasKeys(w: World)
      requires AllHold(w)
      ensures conns.Keys == w.conns.Keys && bb.Valid() && this !in bb.index.Repr
      ensures forall s :: s in names ==> names[s] !in bb.index.Repr
    {
    }

    lemma Grouped(w: World, client: bytes)
      requires w.Closed() && AllHold(w)
      ensures client in bb.sessions <==> client in w.group
      ensures client in bb.sessions ==>
                w.group[client] in w.sessions && w.group[client] in names
                && names[w.group[client]] == bb.sessions[client]
      ensures client in w.group ==> Cleared(w, client) == Disconnected(w, w.group[client])
      ensures client !in w.group ==> Cleared(w, client) == w
    {
    }

    /** DoDisconnect of a session: the connection that has set the disconnect handler closes. */
    method DoDisconnect(session: Session, ghost w: World, ghost s: SessionId)
      requires Tidy(w) && w.Closed() && AllHold(w) && TableHolds(w)
      requires s in w.sessions && s in names && names[s] == session
      modifies conns.Values`session, session`onWrite, session`onDisconnect, bb`sessions, bb.index.Repr, this`conns
      ensures AllHold(Disconnected(w, s)) && TableHolds(Disconnected(w, s)) && fresh(bb.index.Repr - old(bb.index.Repr))
      ensures session.offlineQueue == old(session.offlineQueue) && session !in bb.index.Repr
    {
      hide *;
      Watches(w, s);
      if session.onDisconnect.Some? {
        var conn := conns[session.onDisconnect.value];
        FinishClose(conn, w);
      }
    }

    lemma Watches(w: World, s: SessionId)
      requires Tidy(w) && AllHold(w) && s in w.sessions && s in names
      ensures names[s] !in bb.index.Repr && this !in bb.index.Repr
      ensures names[s].onDisconnect == w.sessions[s].watcher
      ensures w.sessions[s].watcher == None ==> Disconnected(w, s) == w
      ensures w.sessions[s].watcher.Some? ==>
                var c := w.sessions[s].watcher.value;
                && c in w.conns && c in conns && Disconnected(w, s) == Detach(w, c) && Live(conns[c])
                && conns[c].id == c
                && conns[c].session == names[s]
    {
      hide Blackboard.Valid, Server.GroupHolds, Server.SubsHold, Server.TopicsHold, Detach, Server.Channel;
    }

    /** A new session is entered under the client, which it does not know yet. */
    method Spawn(client: bytes, limit: int, ghost w: World) returns (session: Session)
      requires Tidy(w) && w.Closed() && AllHold(w) && TableHolds(w)
      modifies bb`sessions, this`names
      ensures AllHold(Nameless(w, client)) && TableHolds(Nameless(w, client))
      ensures names == old(names)[w.issued := session] && fresh(session)
      ensures session.offlineLimit == limit && session.offlineQueue == []
      ensures client in bb.sessions && bb.sessions[client] == session
    {
      hide *;
      Pieces(w);
      HasKeys(w);
      session := NewSession(limit);
      Know(session, w, client);
      EnterGroup(session, w, client);
      Shares();
      NamelessTable(w, client);
      Closes(Nameless(w, client));
    }

    lemma Shares()
      requires bb.Valid() && this !in bb.index.Repr && ConnsApart() && NamesApart()
      ensures Shared()
    {
    }

    lemma NamelessTable(w: World, client: bytes)
      requires w.Closed()
      ensures TableHolds(w) ==> TableHolds(Nameless(w, client))
    {
    }

    method EnterGroup(session: Session, ghost w: World, client: bytes)
      requires w.Closed() && bb.Valid() && GroupHolds(w) && w.issued in names && names[w.issued] == session
      requires session !in bb.index.Repr && session !in bb.sessions.Values
      modifies bb`sessions
      ensures bb.Valid() && GroupHolds(Nameless(w, client))
      ensures client in bb.sessions && bb.sessions[client] == session
    {
      hide Topics.Valid;
      assert forall k :: k in bb.sessions ==> bb.sessions[k] in bb.sessions.Values;
      bb.sessions := bb.sessions[client := session];
    }

    method NewSession(limit: int) returns (session: Session)
      ensures fresh(session) && session.clientId == [] && session.onWrite == null && session.onDisconnect == None
      ensures session.topics == map[] && session.offlineQueue == [] && session.offlineLimit == limit
    {
      session := new Session(limit);
    }

    method Know(session: Session, ghost w: World, client: bytes)
      requires Tidy(w) && conns.Keys == w.conns.Keys && names.Keys == w.sessions.Keys
      requires ConnsHold(w) && SessionsHold(w) && SubsHold(w) && TopicsHold(w)
      requires GroupHolds(w) && NamesApart() && session !in bb.index.Repr && session !in names.Values
      requires session.clientId == [] && session.onWrite == null && session.onDisconnect == None
      requires session.topics == map[]
      modifies this`names
      ensures names == old(names)[w.issued := session] && NamesApart() && GroupHolds(w)
      ensures var w' := Nameless(w, client);
              && conns.Keys <= w'.conns.Keys && names.Keys <= w'.sessions.Keys
              && ConnsHold(w') && SessionsHold(w') && SubsHold(w') && TopicsHold(w')
    {
      hide *;
      Points(w);
      ghost var ns := names;
      AddName(session, w);
      DistinctWith(ns, w.issued, session);
      KnowsAll(session, w, client);
    }

    method AddName(session: Session, ghost w: World)
      requires w.Closed() && names.Keys == w.sessions.Keys && w.issued !in names
      requires forall c :: c in conns ==> c in w.conns && ConnHolds(w, c, conns[c])
      requires forall s :: s in names ==> SessionHolds(w, s, names[s])
      requires GroupHolds(w)
      modifies this`names
      ensures names == old(names)[w.issued := session] && GroupHolds(w)
      ensures forall c :: c in conns ==> c in w.conns && ConnHolds(w, c, conns[c])
      ensures forall s :: s in w.sessions ==> SessionHolds(w, s, names[s])
    {
      hide Server.SessionHolds;
      names := names[w.issued := session];
      forall c | c in conns ensures c in w.conns && ConnHolds(w, c, conns[c]) {
        assert old(ConnHolds(w, c, conns[c]));
      }
    }

    lemma DistinctWith(ns: map<SessionId, Session>, s: SessionId, session: Session)
      requires Distinct(ns) && session !in bb.index.Repr && session !in ns.Values
      requires names == ns[s := session] && s !in ns
      ensures NamesApart()
    {
    }

    lemma Points(w: World)
      requires Tidy(w) && ConnsHold(w) && SessionsHold(w)
      ensures w.Closed() && w.issued !in names && (forall c :: c in conns ==> c in w.conns && ConnHolds(w, c, conns[c]))
      ensures forall s :: s in names ==> SessionHolds(w, s, names[s])
      ensures TopicsHold(w) ==> forall s :: s in names ==> names[s].topics == w.sessions[s].topics
      ensures NamesApart() ==> Distinct(names)
    {
    }

    lemma KnowsAll(session: Session, w: World, client: bytes)
      requires w.Closed() && w.issued !in w.sessions && conns.Keys == w.conns.Keys && SubsHold(w)
      requires names.Keys == w.sessions.Keys + {w.issued} && names[w.issued] == session
      requires forall c :: c in conns ==> ConnHolds(w, c, conns[c])
      requires forall s :: s in w.sessions ==> SessionHolds(w, s, names[s])
      requires forall s :: s in w.sessions ==> names[s].topics == w.sessions[s].topics
      requires session.clientId == [] && session.onWrite == null && session.onDisconnect == None
      requires session.topics == map[]
      ensures var w' := Nameless(w, client);
              && conns.Keys <= w'.conns.Keys && names.Keys <= w'.sessions.Keys
              && ConnsHold(w') && SessionsHold(w') && SubsHold(w') && TopicsHold(w')
    {
      var w' := Nameless(w, client);
      forall c | c in conns ensures ConnHolds(w', c, conns[c]) {
        assert ConnHolds(w, c, conns[c]);
      }
      forall s | s in w.sessions ensures SessionHolds(w', s, names[s]) {
        assert SessionHolds(w, s, names[s]);
      }
      assert SessionHolds(w', w.issued, session);
      hide Server.ConnHolds, Server.SessionHolds;
    }

    /** The new connection starts with the session's offline messages. */
    method Greet(c: ConnId, session: Session, resumed: bool, ghost w: World) returns (conn: ConBroker)
      requires AllHold(w) && TableHolds(w) && session !in bb.index.Repr
      modifies session`offlineQueue
      ensures AllHold(w) && TableHolds(w) && fresh(conn) && fresh(conn.outbox)
      ensures conn.id == c && conn.session == session
      ensures conn.subscription == map[] && !conn.leaving
      ensures conn.outbox.sent == if resumed then old(session.offlineQueue) else []
      ensures session.offlineQueue == if resumed then [] else old(session.offlineQueue)
    {
      hide Server.AllHold, Server.TableHolds;
      conn := new ConBroker(c);
      conn.session := session;
      if resumed {
        var rs := session.OfflineMessages();
        var i := 0;
        while i < |rs|
          invariant 0 <= i <= |rs| && conn.outbox.sent == rs[..i]
          modifies conn.outbox
        {
          conn.WriteMessage(rs[i]);
          i := i + 1;
        }
      }
    }

    method Install(conn: ConBroker, session: Session, ghost w: World, ghost s: SessionId, client: bytes, clean: bool)
      requires w.Closed() && AllHold(w) && TableHolds(w) && s in w.sessions && s in names && names[s] == session
      requires conn.id !in conns && conn.session == session && conn.subscription == map[] && !conn.leaving
      requires conn !in bb.index.Repr && conn.outbox !in bb.index.Repr && session !in bb.index.Repr
      requires forall d :: d in conns ==> conns[d] != conn && conns[d].outbox != conn.outbox
      requires forall t :: t in w.sessions ==> w.sessions[t].writer != Some(conn.id)
      modifies session`onWrite, session`onDisconnect, session`clientId, conn`cleanSession, this`conns
      ensures AllHold(WithConn(Named(w, s, client), conn.id, s, clean))
      ensures TableHolds(WithConn(Named(w, s, client), conn.id, s, clean)) && Live(conn)
      ensures conn.cleanSession == clean
      ensures session.clientId == client && session.onWrite == conn.outbox && session.onDisconnect == Some(conn.id)
    {
      hide *;
      Pieces(w);
      HasKeys(w);
      Spread(w);
      Hook(conn, session, w, s, client);
      MarkClean(conn, w, clean);
      Link(conn, session, w, s, client, clean);
    }

    method Link(conn: ConBroker, session: Session, ghost w: World, ghost s: SessionId, client: bytes, clean: bool)
      requires w.Closed() && conns.Keys == w.conns.Keys && names.Keys == w.sessions.Keys
      requires s in names && names[s] == session
      requires bb.Valid() && this !in bb.index.Repr && Apart(conns) && NamesApart()
      requires TopicsHold(w) && GroupHolds(w) && TableHolds(w)
      requires conn.id !in conns && conn.session == session && conn.subscription == map[] && !conn.leaving
      requires conn.cleanSession == clean && conn !in bb.index.Repr && conn.outbox !in bb.index.Repr
      requires session.onDisconnect == Some(conn.id) && session.onWrite == conn.outbox && session.clientId == client
      requires forall d :: d in conns ==> conns[d].outbox != conn.outbox
      requires forall t :: t in w.sessions ==> w.sessions[t].writer != Some(conn.id)
      requires forall d :: d in w.conns ==> ConnHolds(w, d, conns[d])
      requires forall d :: d in w.conns ==> conns[d].subscription == w.conns[d].subs
      requires forall t :: t in w.sessions && t != s ==> SessionHolds(w, t, names[t])
      modifies this`conns
      ensures AllHold(WithConn(Named(w, s, client), conn.id, s, clean))
      ensures TableHolds(WithConn(Named(w, s, client), conn.id, s, clean)) && Live(conn)
    {
      hide *;
      ghost var cs := conns;
      AddConn(conn, w, s);
      ApartWith(cs, conn);
      InstallsRest(w, s, conn.id, client, clean);
      InstallsConns(conn, w, s, client, clean);
      InstallsSessions(conn, session, w, s, client, clean);
      Shares();
      Closes(WithConn(Named(w, s, client), conn.id, s, clean));
    }

    /** The handlers of the session become those of the connection. */
    method Hook(conn: ConBroker, session: Session, ghost w: World, ghost s: SessionId, client: bytes)
      requires w.sessions.Keys == names.Keys && s in names && names[s] == session && NamesApart()
      requires forall t :: t in w.sessions ==> SessionHolds(w, t, names[t])
      modifies session`onWrite, session`onDisconnect, session`clientId
      ensures session.onDisconnect == Some(conn.id) && session.onWrite == conn.outbox && session.clientId == client
      ensures forall t :: t in w.sessions && t != s ==> SessionHolds(w, t, names[t])
    {
      hide Server.Channel;
      session.WithOnDisconnect(Some(conn.id));
      session.WithOnWrite(conn.outbox);
      session.WithClientID(client);
    }

    method MarkClean(conn: ConBroker, ghost w: World, clean: bool)
      requires conns.Keys == w.conns.Keys && forall d :: d in conns ==> conns[d] != conn && ConnHolds(w, d, conns[d])
      modifies conn`cleanSession
      ensures conn.cleanSession == clean && forall d :: d in conns ==> ConnHolds(w, d, conns[d])
    {
      conn.cleanSession := clean;
    }

    method AddConn(conn: ConBroker, ghost w: World, ghost s: SessionId)
      requires conns.Keys == w.conns.Keys && names.Keys == w.sessions.Keys && conn.id !in conns
      requires forall t :: t in w.sessions ==> w.sessions[t].writer != Some(conn.id)
      requires forall d :: d in w.conns ==> ConnHolds(w, d, conns[d])
      requires forall d :: d in w.conns ==> conns[d].subscription == w.conns[d].subs
      requires forall t :: t in w.sessions && t != s ==> SessionHolds(w, t, names[t])
      modifies this`conns
      ensures conns == old(conns)[conn.id := conn]
      ensures forall d :: d in w.conns ==> ConnHolds(w, d, conns[d])
      ensures forall d :: d in w.conns ==> conns[d].subscription == w.conns[d].subs
      ensures forall t :: t in w.sessions && t != s ==> SessionHolds(w, t, names[t])
    {
      hide Server.ConnHolds;
      label before:
      conns := conns[conn.id := conn];
      assert forall t :: t in w.sessions && t != s ==> old@before(SessionHolds(w, t, names[t]));
    }

    lemma ApartWith(cs: map<ConnId, ConBroker>, conn: ConBroker)
      requires Apart(cs) && conn !in bb.index.Repr && conn.outbox !in bb.index.Repr && conns == cs[conn.id := conn]
      requires forall d :: d in cs ==> cs[d].outbox != conn.outbox
      ensures ConnsApart()
    {
    }

    lemma Spread(w: World)
      requires ConnsHold(w) && SessionsHold(w)
      ensures conns.Keys == w.conns.Keys && names.Keys == w.sessions.Keys
      ensures forall c :: c in conns ==> ConnHolds(w, c, conns[c])
      ensures forall s :: s in names ==> SessionHolds(w, s, names[s])
      ensures SubsHold(w) ==> forall c :: c in conns ==> conns[c].subscription == w.conns[c].subs
      ensures ConnsApart() ==> Apart(conns)
    {
    }

    lemma InstallsConns(conn: ConBroker, w: World, s: SessionId, client: bytes, clean: bool)
      requires w.Closed() && s in w.sessions && conns.Keys == w.conns.Keys + {conn.id} && conn.id !in w.conns
      requires s in names
      requires conns[conn.id] == conn && conn.session == names[s] && conn.subscription == map[]
      requires !conn.leaving && conn.cleanSession == clean
      requires forall d :: d in w.conns ==> ConnHolds(w, d, conns[d])
      requires forall d :: d in w.conns ==> conns[d].subscription == w.conns[d].subs
      ensures var w' := WithConn(Named(w, s, client), conn.id, s, clean);
              conns.Keys <= w'.conns.Keys && ConnsHold(w') && SubsHold(w') && Live(conn)
    {
      var w' := WithConn(Named(w, s, client), conn.id, s, clean);
      assert w'.conns == w.conns[conn.id := Conn(s, clean, false, map[])];
      hide WithConn, Named;
      forall d | d in w.conns ensures ConnHolds(w', d, conns[d]) {
        assert ConnHolds(w, d, conns[d]);
      }
      assert ConnHolds(w', conn.id, conn);
      hide Server.ConnHolds;
    }

    lemma InstallsSessions(conn: ConBroker, session: Session, w: World, s: SessionId, client: bytes, clean: bool)
      requires w.Closed() && names.Keys == w.sessions.Keys && s in names && names[s] == session
      requires conn.id in conns && conns[conn.id] == conn
      requires session.onDisconnect == Some(conn.id) && session.onWrite == conn.outbox && session.clientId == client
      requires forall t :: t in w.sessions && t != s ==> SessionHolds(w, t, names[t])
      requires TopicsHold(w)
      ensures var w' := WithConn(Named(w, s, client), conn.id, s, clean);
              names.Keys <= w'.sessions.Keys && SessionsHold(w') && TopicsHold(w')
    {
      var w' := WithConn(Named(w, s, client), conn.id, s, clean);
      assert w'.sessions == w.sessions[s := Holder(client, w.sessions[s].topics, Some(conn.id), Some(conn.id))];
      hide WithConn, Named;
      forall t | t in w.sessions && t != s ensures SessionHolds(w', t, names[t]) {
        assert SessionHolds(w, t, names[t]);
      }
      assert SessionHolds(w', s, session);
      hide Server.SessionHolds;
    }

    lemma InstallsRest(w: World, s: SessionId, c: ConnId, client: bytes, clean: bool)
      requires w.Closed() && s in w.sessions && GroupHolds(w) && TableHolds(w)
      ensures var w' := WithConn(Named(w, s, client), c, s, clean); GroupHolds(w') && TableHolds(w')
    {
    }

    // ----- PUBLISH -----

    /** A PUBLISH: a session that can be found is written to once for each matching subscription on the books of its
        client. A connection sends one copy for each if it is the one whose channel that session writes on. */
    method Publish(conn: ConBroker, msg: Publish)
      requires Valid() && Live(conn) && !conn.leaving
      modifies bb.index.Repr, bb.sessions.Values`offlineQueue, bb.sessions.Values`handled, bb.Outlets()
      ensures Valid() && Live(conn) && fresh(bb.index.Repr - old(bb.index.Repr))
      ensures bb.index.shelf == if msg.header.retain > 0 then ShelfStep(old(bb.index.shelf), msg)
                                else old(bb.index.shelf)
      ensures forall k :: k in bb.sessions ==>
                bb.sessions[k].View() == WrittenTimes(old(bb.sessions[k].View()), MPublish(msg),
                                                      Given(WorldRun(history), old(bb.index.nodes), msg, k))
      ensures forall d :: d in conns ==>
                conns[d].outbox.sent == old(conns[d].outbox.sent) +
                Copies(MPublish(msg), Sends(WorldRun(history), old(bb.index.nodes), msg, d))
    {
      hide *;
      ghost var w := WorldRun(history);
      Sees(conn);
      RunTidy(history);
      RunInStep(history);
      Channels(w);
      Wraps(w);
      Scatter(w);
      HasTable(w);
      Distribute(conn, msg, w);
      IsValid(w);
    }

    method Distribute(conn: ConBroker, msg: Publish, ghost w: World)
      requires w.Closed() && InStep(w) && TableHolds(w) && bb.index.table == w.table
      requires conn.Valid(bb) && bb.Wired()
      requires Kept(w) && GroupHolds(w) && this !in bb.index.Repr && bb !in bb.index.Repr
      requires forall c :: c in conns ==> conns[c].id == c && conns[c] !in bb.index.Repr
      requires forall c :: c in conns ==> conns[c].outbox !in bb.index.Repr
      requires forall c, d :: c in conns && d in conns && c != d ==> conns[c].outbox != conns[d].outbox
      requires forall s :: s in names ==> names[s] !in bb.index.Repr
      requires forall s, t :: s in names && t in names && s != t ==> names[s] != names[t]
      requires Channeled(w) && forall k :: k in bb.sessions ==> bb.sessions[k] !in bb.index.Repr
      modifies bb.index.Repr, bb.sessions.Values`offlineQueue, bb.sessions.Values`handled, bb.Outlets()
      ensures AllHold(w) && TableHolds(w) && fresh(bb.index.Repr - old(bb.index.Repr))
      ensures bb.index.shelf == if msg.header.retain > 0 then ShelfStep(old(bb.index.shelf), msg)
                                else old(bb.index.shelf)
      ensures forall k :: k in bb.sessions ==>
                bb.sessions[k].View() == WrittenTimes(old(bb.sessions[k].View()), MPublish(msg),
                                                      Given(w, old(bb.index.nodes), msg, k))
      ensures forall d :: d in conns ==>
                d in w.conns && conns[d].outbox.sent == old(conns[d].outbox.sent) +
                                Copies(MPublish(msg), Sends(w, old(bb.index.nodes), msg, d))
    {
      hide *;
      OwedIsGiven(w, bb.index.nodes, msg);
      Emit(conn, msg, w);
      HasIndex(conn);
      Gather(w);
    }

    /** The table is as the books have it. */
    lemma OwedIsGiven(w: World, nodes: set<Path>, msg: Publish)
      requires InStep(w)
      ensures forall k :: Owed(w.table, nodes, msg, k) == Given(w, nodes, msg, k)
      ensures forall d :: d in w.conns ==>
                Sends(w, nodes, msg, d) == if Wires(w, d) then Owed(w.table, nodes, msg, w.Client(d)) else 0
    {
      hide Refused, Deliveries, MatchingRecords, InStep, Wires;
      InStepCloses(w);
      forall k ensures Owed(w.table, nodes, msg, k) == Given(w, nodes, msg, k) {
        FanOutInStep(w, Split(msg.topicName).levels, k);
      }
    }

    /** A connection's channel is written on by the session that `Wires` says. */
    ghost predicate Channeled(w: World)
      requires w.Closed()
      reads this`conns, bb, bb.sessions.Values
    {
      && conns.Keys == w.conns.Keys
      && (forall d :: d in conns && Wires(w, d) ==>
            w.Client(d) in bb.sessions && bb.sessions[w.Client(d)].onWrite == conns[d].outbox)
      && (forall d :: d in conns && !Wires(w, d) ==> conns[d].outbox !in bb.Outlets())
    }

    lemma Unwires(w: World)
      requires w.Closed() && Channeled(w)
      ensures conns.Keys == w.conns.Keys
      ensures forall d :: d in conns && Wires(w, d) ==>
                w.Client(d) in bb.sessions && bb.sessions[w.Client(d)].onWrite == conns[d].outbox
      ensures forall d :: d in conns && !Wires(w, d) ==> conns[d].outbox !in bb.Outlets()
    {
    }

    lemma Wraps(w: World)
      requires w.Closed() && conns.Keys == w.conns.Keys
      requires forall d :: d in conns && Wires(w, d) ==>
                 w.Client(d) in bb.sessions && bb.sessions[w.Client(d)].onWrite == conns[d].outbox
      requires forall d :: d in conns && !Wires(w, d) ==> conns[d].outbox !in bb.Outlets()
      ensures Channeled(w)
    {
    }

    /** No two findable sessions write on one channel. */
    lemma Channels(w: World)
      requires Tidy(w) && AllHold(w)
      ensures bb.Wired() && conns.Keys == w.conns.Keys
      ensures forall k :: k in bb.sessions ==> bb.sessions[k] !in bb.index.Repr
      ensures forall d :: d in conns && Wires(w, d) ==>
                w.Client(d) in bb.sessions && bb.sessions[w.Client(d)].onWrite == conns[d].outbox
      ensures forall d :: d in conns && !Wires(w, d) ==> conns[d].outbox !in bb.Outlets()
    {
      forall k | k in bb.sessions ensures Writes(w, k) {
        Written(w, k);
      }
    }

    /** The session found under a client is the one of the connection whose channel it writes on. */
    ghost predicate Writes(w: World, k: bytes)
      requires w.Closed() && k in bb.sessions
      reads this`conns, bb, bb.index, bb.sessions.Values
    {
      && bb.sessions[k] !in bb.index.Repr && k in w.group
      && var writer := w.sessions[w.group[k]].writer;
         if writer == None then bb.sessions[k].onWrite == null
         else
           && writer.value in conns && writer.value in w.conns && bb.sessions[k].onWrite == conns[writer.value].outbox
           && w.conns[writer.value].session == w.group[k] && w.Client(writer.value) == k
    }

    lemma Written(w: World, k: bytes)
      requires Tidy(w) && AllHold(w) && k in bb.sessions
      ensures Writes(w, k)
    {
    }

    method Emit(conn: ConBroker, msg: Publish, ghost w: World)
      requires w.Closed()
      requires conn.Valid(bb) && bb.Wired()
      requires bb !in bb.index.Repr && this !in bb.index.Repr
      requires Channeled(w) && forall k :: k in bb.sessions ==> bb.sessions[k] !in bb.index.Repr
      requires forall d :: d in conns ==> conns[d].outbox !in bb.index.Repr
      modifies bb.index.Repr, bb.sessions.Values`offlineQueue, bb.sessions.Values`handled, bb.Outlets()
      ensures conn.Valid(bb) && fresh(bb.index.Repr - old(bb.index.Repr)) && bb.index.table == old(bb.index.table)
      ensures bb.index.shelf == if msg.header.retain > 0 then ShelfStep(old(bb.index.shelf), msg)
                                else old(bb.index.shelf)
      ensures forall k :: k in bb.sessions ==>
                bb.sessions[k].View() == WrittenTimes(old(bb.sessions[k].View()), MPublish(msg),
                                                      Owed(old(bb.index.table), old(bb.index.nodes), msg, k))
      ensures forall d :: d in conns ==>
                d in w.conns && conns[d].outbox.sent == old(conns[d].outbox.sent) +
                Copies(MPublish(msg),
                       if Wires(w, d) then Owed(old(bb.index.table), old(bb.index.nodes), msg, w.Client(d)) else 0)
    {
      hide *;
      Unwires(w);
      NoCopies(msg);
      conn.ProcPublish(bb, msg);
    }

    lemma NoCopies(msg: Publish)
      ensures forall s: seq<Message> :: s + Copies(MPublish(msg), 0) == s
    {
    }

    /** Everything but the state of the index. */
    lemma Scatter(w: World)
      requires AllHold(w)
      ensures Kept(w) && GroupHolds(w) && this !in bb.index.Repr && bb !in bb.index.Repr
      ensures forall c :: c in conns ==> conns[c].id == c && conns[c] !in bb.index.Repr
      ensures forall c :: c in conns ==> conns[c].outbox !in bb.index.Repr
      ensures forall c, d :: c in conns && d in conns && c != d ==> conns[c].outbox != conns[d].outbox
      ensures forall s :: s in names ==> names[s] !in bb.index.Repr
      ensures forall s, t :: s in names && t in names && s != t ==> names[s] != names[t]
    {
    }

    lemma Gather(w: World)
      requires Kept(w) && GroupHolds(w) && this !in bb.index.Repr && bb.Valid()
      requires forall c :: c in conns ==> conns[c].id == c && conns[c] !in bb.index.Repr
      requires forall c :: c in conns ==> conns[c].outbox !in bb.index.Repr
      requires forall c, d :: c in conns && d in conns && c != d ==> conns[c].outbox != conns[d].outbox
      requires forall s :: s in names ==> names[s] !in bb.index.Repr
      requires forall s, t :: s in names && t in names && s != t ==> names[s] != names[t]
      ensures AllHold(w)
    {
    }

    lemma HasTable(w: World)
      ensures TableHolds(w) ==> bb.index.table == w.table
    {
    }

    lemma HasIndex(conn: ConBroker)
      requires conn.Valid(bb)
      ensures bb.Valid()
    {
    }
  }

  /** The connection's channel is the one that the session found under its client writes on. */
  predicate Wires(w: World, d: ConnId)
    requires w.Closed() && d in w.conns
  {
    && w.sessions[w.conns[d].session].writer == Some(d)
    && w.Client(d) in w.group && w.group[w.Client(d)] == w.conns[d].session
  }

  /** How many copies of a message the session of a client is given. */
  function Given(w: World, nodes: set<Path>, msg: Publish, client: bytes): nat
    requires w.Closed()
  {
    if Refused(nodes, msg) then 0 else |MatchingRecords(w, Split(msg.topicName).levels, client)|
  }

  /** A message with a QoS of 0, 1 or 2 and a well-formed topic is never refused: each matching subscription on the
      books of the client counts. */
  lemma GivenIsMatching(w: World, nodes: set<Path>, msg: Publish, client: bytes)
    requires w.Closed() && 0 <= msg.header.qosLevel <= 2 && Split(msg.topicName).ok
    ensures var t := Split(msg.topicName).levels;
            exists records: set<Record> ::
              && Given(w, nodes, msg, client) == |records|
              && forall r :: r in records <==>
                   && r.c in w.conns && w.sessions[w.conns[r.c].session].client == client
                   && r.path in w.conns[r.c].subs && Match(Split(r.path).levels, t)
  {
    RefusedIff(nodes, msg);
    hide Split, Match, Refused;
    var records := MatchingRecords(w, Split(msg.topicName).levels, client);
    assert Given(w, nodes, msg, client) == |records|;
  }

  /** A connection sends as many copies as the session found under its client is given, if it set the write handler of
      that session, and none otherwise. */
  lemma SendsMatching(w: World, nodes: set<Path>, msg: Publish, d: ConnId)
    requires w.Closed() && d in w.conns
    ensures Sends(w, nodes, msg, d) ==
            var s := w.conns[d].session;
            var k := w.sessions[s].client;
            if w.sessions[s].writer == Some(d) && k in w.group && w.group[k] == s then Given(w, nodes, msg, k) else 0
  {
    hide Given;
  }

  /** How many copies a connection sends. */
  function Sends(w: World, nodes: set<Path>, msg: Publish, d: ConnId): nat
    requires w.Closed() && d in w.conns
  {
    if Wires(w, d) then Given(w, nodes, msg, w.Client(d)) else 0
  }

  function Quieted(w: World, s: SessionId): World
    requires s in w.sessions
  {
    w.(sessions := w.sessions[s := w.sessions[s].(watcher := None, writer := None)])
  }

  function Dropped(w: World, c: ConnId): World
  {
    w.(conns := w.conns - {c})
  }

  lemma NobodyWrites(w: World, c: ConnId)
    requires Tidy(w) && c in w.conns
    ensures w.conns[c].session in w.sessions && Quieted(w, w.conns[c].session).conns == w.conns
    ensures var w' := Quieted(w, w.conns[c].session); forall t :: t in w'.sessions ==> w'.sessions[t].writer != Some(c)
  {
  }

  lemma RunSubscribes(es: seq<Event>, c: ConnId, filters: seq<TopicFilter>)
    requires WorldRun(es).Serving(c)
    ensures var w := WorldRun(es);
            WorldRun(es + [Subscribing(c, filters)]) ==
            Write(w, c, SubscribeAll(Books.Look(w, c), Peer(c, w.Client(c)), filters))
  {
    RunStep(es, Subscribing(c, filters));
  }

  lemma RunUnsubscribes(es: seq<Event>, c: ConnId, paths: seq<bytes>)
    requires WorldRun(es).Serving(c)
    ensures var w := WorldRun(es);
            WorldRun(es + [Unsubscribing(c, paths)]) == Write(w, c, CancelAll(Books.Look(w, c), paths, true))
  {
    RunStep(es, Unsubscribing(c, paths));
  }

  lemma {:induction false} CancelKeepsCodes(v: View, paths: seq<bytes>)
    ensures CancelAll(v, paths, true).codes == v.codes
  {
    hide TableRemove;
    if paths != [] {
      CancelKeepsCodes(v, paths[..|paths| - 1]);
    }
  }

  lemma RunCloses(es: seq<Event>, c: ConnId)
    requires c in WorldRun(es).conns
    ensures WorldRun(es + [Closing(c)]) == Detach(WorldRun(es), c)
  {
    RunStep(es, Closing(c));
  }

  lemma RunLeaves(es: seq<Event>, c: ConnId)
    requires WorldRun(es).Serving(c)
    ensures WorldRun(es + [Disconnecting(c)]) == Leave(WorldRun(es), c)
  {
    RunStep(es, Disconnecting(c));
  }

  lemma RunConnects(es: seq<Event>, c: ConnId, client: bytes, clean: bool)
    requires c !in WorldRun(es).conns
    ensures WorldRun(es + [Connecting(c, client, clean)]) == Attach(WorldRun(es), c, client, clean)
  {
    RunStep(es, Connecting(c, client, clean));
  }

  /** With a new session whose client is not set yet. */
  function Nameless(w: World, client: bytes): (w': World)
    requires w.Closed()
    ensures w'.Closed()
  {
    w.(sessions := w.sessions[w.issued := Holder([], map[], None, None)],
       group := w.group[client := w.issued], issued := w.issued + 1)
  }

  function Named(w: World, s: SessionId, client: bytes): (w': World)
    requires w.Closed() && s in w.sessions
    ensures w'.Closed() && s in w'.sessions
  {
    w.(sessions := w.sessions[s := w.sessions[s].(client := client)])
  }

  /** The session that a CONNECT attaches to, and the world just before. */
  function Chosen(w: World, client: bytes, clean: bool): SessionId
    requires w.Closed()
  {
    if !clean && client in w.group then w.group[client] else Cleared(w, client).issued
  }

  function Ready(w: World, client: bytes, clean: bool): (w': World)
    requires w.Closed()
    ensures w'.Closed() && Chosen(w, client, clean) in w'.sessions
  {
    if !clean && client in w.group then Cleared(w, client) else Nameless(Cleared(w, client), client)
  }

  lemma ReadyIs(w: World, client: bytes, clean: bool)
    requires Tidy(w) && w.Closed()
    ensures var w1, w', s := Cleared(w, client), Ready(w, client, clean), Chosen(w, client, clean);
            && Tidy(w1)
            && if !clean && client in w.group then w' == w1 && s == w.group[client]
               else w' == Nameless(w1, client) && s == w1.issued
  {
    if client in w.group {
      DisconnectedTidy(w, w.group[client]);
    }
  }

  lemma NamedNew(w: World, client: bytes)
    requires w.Closed()
    ensures Named(Nameless(w, client), w.issued, client) == WithSession(w, client)
  {
  }

  lemma NamedAgain(w: World, client: bytes)
    requires Tidy(w) && client in w.group
    ensures Named(Cleared(w, client), w.group[client], client) == Cleared(w, client)
  {
    var w', s := Cleared(w, client), w.group[client];
    assert w'.sessions[s].client == client;
    assert w'.sessions[s := w'.sessions[s]] == w'.sessions;
  }

  lemma NobodyYet(w: World, client: bytes, c: ConnId)
    requires Tidy(w) && c !in w.conns
    ensures forall t :: t in w.sessions ==> w.sessions[t].writer != Some(c)
    ensures Nameless(w, client).conns == w.conns
    ensures forall t :: t in Nameless(w, client).sessions ==> Nameless(w, client).sessions[t].writer != Some(c)
  {
  }

  lemma AttachIs(w: World, c: ConnId, client: bytes, clean: bool)
    requires Tidy(w) && w.Closed() && c !in w.conns
    ensures var w', s := Ready(w, client, clean), Chosen(w, client, clean);
            && Attach(w, c, client, clean) == WithConn(Named(w', s, client), c, s, clean)
            && c !in w'.conns && forall t :: t in w'.sessions ==> w'.sessions[t].writer != Some(c)
  {
    var w1 := Cleared(w, client);
    ReadyIs(w, client, clean);
    assert w1.conns.Keys <= w.conns.Keys by {
      if client in w.group {
        DisconnectedTidy(w, w.group[client]);
      }
    }
    NobodyYet(w1, client, c);
    if !clean && client in w.group {
      NamedAgain(w, client);
    } else {
      NamedNew(w1, client);
    }
    hide Tidy, Cleared, Nameless, Named, WithConn, WithSession, Ready, Chosen;
  }
}
