/** The topic maps of the sessions: when they have every subscription that a connection records. */
module TopicMaps {
  import opened Bytes
  import opened Messages
  import opened TopicLevels
  import opened SubscriptionTree
  import opened MemTopics
  import opened Books

  ghost predicate TopicsInStep(w: World)
    requires w.Closed()
  {
    forall c, path :: c in w.conns && path in w.conns[c].subs ==> Mapped(w, c, path)
  }

  /** A recorded subscription is in the session's topic map with its QoS. */
  predicate Mapped(w: World, c: ConnId, path: bytes)
    requires w.Closed() && c in w.conns && path in w.conns[c].subs
  {
    path in w.Topics(c) && w.Topics(c)[path] == w.conns[c].subs[path].qos
  }

  predicate Share(w: World, c: ConnId, d: ConnId)
    requires c in w.conns && d in w.conns
  {
    c != d && w.conns[c].session == w.conns[d].session
  }

  // ----- What one SUBSCRIBE or UNSUBSCRIBE does to the maps -----

  /** The QoS of the last accepted request for a filter. */
  function LastAccepted(rs: seq<TopicFilter>, path: bytes): Option<byte>
  {
    if rs == [] then None
    else
      var r := rs[|rs| - 1];
      if r.topicPath == path && Acceptable(r) then Some(r.requestedQos) else LastAccepted(rs[..|rs| - 1], path)
  }

  function TopicsAfter(topics: map<bytes, byte>, q: Option<byte>, path: bytes): Option<byte>
  {
    if q.Some? then q else if path in topics then Some(topics[path]) else None
  }

  function At(topics: map<bytes, byte>, path: bytes): Option<byte>
  {
    if path in topics then Some(topics[path]) else None
  }

  /** The other connections stay as they are, and the session's map takes over what was accepted. */
  ghost predicate Took(w: World, w': World, c: ConnId, rs: seq<TopicFilter>)
    requires w.Closed() && w'.Closed() && c in w.conns
  {
    && w'.conns.Keys == w.conns.Keys && w'.conns[c].session == w.conns[c].session
    && (forall d :: d in w.conns && d != c ==> w'.conns[d] == w.conns[d])
    && (forall d :: d in w.conns && w.conns[d].session != w.conns[c].session ==> w'.Topics(d) == w.Topics(d))
    && (forall p :: At(w'.Topics(c), p) == TopicsAfter(w.Topics(c), LastAccepted(rs, p), p))
  }

  lemma SubscribeOneTakes(w: World, c: ConnId, r: TopicFilter)
    requires w.Closed() && c in w.conns
    ensures var w' := SubscribedOne(w, c, r);
            && w'.conns.Keys == w.conns.Keys && w'.conns[c].session == w.conns[c].session
            && (forall d :: d in w.conns && d != c ==> w'.conns[d] == w.conns[d])
            && (forall d :: d in w.conns && w.conns[d].session != w.conns[c].session ==> w'.Topics(d) == w.Topics(d))
            && w'.Topics(c) == (if Acceptable(r) then w.Topics(c)[r.topicPath := r.requestedQos] else w.Topics(c))
            && (forall p :: p in w'.conns[c].subs ==>
                  if p == r.topicPath then Acceptable(r) && w'.conns[c].subs[p].qos == r.requestedQos
                  else p in w.conns[c].subs && w'.conns[c].subs[p] == w.conns[c].subs[p])
  {
    hide Split, TableRemove, TableStep, Acceptable;
  }

  lemma {:induction false} SubscribeTakes(w: World, c: ConnId, rs: seq<TopicFilter>)
    requires w.Closed() && c in w.conns
    ensures Took(w, AfterSubscribe(w, c, rs), c, rs)
  {
    hide AfterSubscribe, SubscribedOne, Acceptable;
    AfterSubscribeStep(w, c, rs);
    if rs != [] {
      var before, r := rs[..|rs| - 1], rs[|rs| - 1];
      SubscribeTakes(w, c, before);
      SubscribeOneTakes(AfterSubscribe(w, c, before), c, r);
      forall p ensures At(AfterSubscribe(w, c, rs).Topics(c), p) == TopicsAfter(w.Topics(c), LastAccepted(rs, p), p) {
        assert LastAccepted(rs, p) == if r.topicPath == p && Acceptable(r) then Some(r.requestedQos)
                                      else LastAccepted(before, p);
      }
    }
  }

  /** The subscriptions of the connection itself are mapped at once. */
  lemma {:induction false} SubscribeMapsOwn(w: World, c: ConnId, rs: seq<TopicFilter>, p: bytes)
    requires w.Closed() && c in w.conns
    requires forall q :: q in w.conns[c].subs ==> Mapped(w, c, q)
    requires p in AfterSubscribe(w, c, rs).conns[c].subs
    ensures Mapped(AfterSubscribe(w, c, rs), c, p)
  {
    hide AfterSubscribe, SubscribedOne, Acceptable;
    AfterSubscribeStep(w, c, rs);
    if rs != [] {
      var before, r := rs[..|rs| - 1], rs[|rs| - 1];
      var w1 := AfterSubscribe(w, c, before);
      SubscribeOneTakes(w1, c, r);
      if p != r.topicPath {
        SubscribeMapsOwn(w, c, before, p);
      }
    }
  }

  /** Exactly when a SUBSCRIBE keeps the maps in step: wherever another connection of the session has
      recorded a filter that is accepted, the last QoS asked for it is the recorded one. */
  predicate SubscribeFits(w: World, c: ConnId, rs: seq<TopicFilter>)
    requires c in w.conns
  {
    forall d, p :: d in w.conns && Share(w, c, d) && p in w.conns[d].subs ==>
      LastAccepted(rs, p) == None || LastAccepted(rs, p) == Some(w.conns[d].subs[p].qos)
  }

  lemma SubscribeFitsIff(w: World, c: ConnId, rs: seq<TopicFilter>)
    requires w.Closed() && c in w.conns && TopicsInStep(w)
    ensures TopicsInStep(AfterSubscribe(w, c, rs)) <==> SubscribeFits(w, c, rs)
  {
    hide AfterSubscribe, LastAccepted;
    SubscribeTakes(w, c, rs);
    var w' := AfterSubscribe(w, c, rs);
    forall d, p | d in w'.conns && p in w'.conns[d].subs
      ensures Mapped(w', d, p) <==>
              (d in w.conns && Share(w, c, d) && p in w.conns[d].subs ==>
                 LastAccepted(rs, p) == None || LastAccepted(rs, p) == Some(w.conns[d].subs[p].qos))
    {
      if d == c {
        SubscribeMapsOwn(w, c, rs, p);
      } else {
        assert Mapped(w, d, p);
        assert At(w'.Topics(c), p) == TopicsAfter(w.Topics(c), LastAccepted(rs, p), p);
      }
    }
    if TopicsInStep(w') {
      forall d, p | d in w.conns && Share(w, c, d) && p in w.conns[d].subs
        ensures LastAccepted(rs, p) == None || LastAccepted(rs, p) == Some(w.conns[d].subs[p].qos)
      {
        assert w'.conns[d] == w.conns[d] && Mapped(w', d, p);
      }
    }
  }

  /** For a single filter: it is refused, or no other connection of the session has recorded it with
      another QoS. */
  lemma SubscribeOneFits(w: World, c: ConnId, r: TopicFilter)
    requires c in w.conns
    ensures SubscribeFits(w, c, [r]) <==>
            (Acceptable(r) ==> forall d :: d in w.conns && Share(w, c, d) && r.topicPath in w.conns[d].subs ==>
                                 w.conns[d].subs[r.topicPath].qos == r.requestedQos)
  {
    hide Acceptable;
    assert LastAccepted([], r.topicPath) == None && [r][..0] == [];
    forall p ensures LastAccepted([r], p) == if p == r.topicPath && Acceptable(r) then Some(r.requestedQos) else None {
      assert LastAccepted([], p) == None;
    }
    if SubscribeFits(w, c, [r]) && Acceptable(r) {
      forall d | d in w.conns && Share(w, c, d) && r.topicPath in w.conns[d].subs
        ensures w.conns[d].subs[r.topicPath].qos == r.requestedQos
      {
        assert LastAccepted([r], r.topicPath) == Some(r.requestedQos);
      }
    }
  }

  lemma CancelOneTakes(w: World, c: ConnId, path: bytes)
    requires w.Closed() && c in w.conns
    ensures var w' := CancelledOne(w, c, path);
            && w'.conns.Keys == w.conns.Keys && w'.conns[c].session == w.conns[c].session
            && (forall d :: d in w.conns && d != c ==> w'.conns[d] == w.conns[d])
            && (forall d :: d in w.conns && w.conns[d].session != w.conns[c].session ==> w'.Topics(d) == w.Topics(d))
            && w'.Topics(c) == (if path in w.conns[c].subs then w.Topics(c) - {path} else w.Topics(c))
            && w'.conns[c].subs == w.conns[c].subs - {path}
  {
    hide Split, TableRemove;
    assert path !in w.conns[c].subs ==> w.conns[c].subs - {path} == w.conns[c].subs;
  }

  function Named(paths: seq<bytes>): set<bytes>
  {
    set p | p in paths
  }

  lemma NamedSnoc(topics: map<bytes, byte>, subs: map<bytes, Subscription>, paths: seq<bytes>, path: bytes)
    ensures Named(paths + [path]) == Named(paths) + {path}
    ensures subs - Named(paths) - {path} == subs - Named(paths + [path])
    ensures var rest := topics - Named(paths) * subs.Keys;
            (if path in subs - Named(paths) then rest - {path} else rest) == topics - Named(paths + [path]) * subs.Keys
  {
    assert Named(paths + [path]) == Named(paths) + {path};
  }

  lemma {:induction false} CancelTakes(w: World, c: ConnId, paths: seq<bytes>)
    requires w.Closed() && c in w.conns
    ensures var w' := AfterCancel(w, c, paths);
            && w'.conns.Keys == w.conns.Keys && w'.conns[c].session == w.conns[c].session
            && (forall d :: d in w.conns && d != c ==> w'.conns[d] == w.conns[d])
            && (forall d :: d in w.conns && w.conns[d].session != w.conns[c].session ==> w'.Topics(d) == w.Topics(d))
            && w'.Topics(c) == w.Topics(c) - Named(paths) * w.conns[c].subs.Keys
            && w'.conns[c].subs == w.conns[c].subs - Named(paths)
  {
    hide AfterCancel, CancelledOne;
    AfterCancelStep(w, c, paths);
    if paths == [] {
      assert Named(paths) == {} && w.Topics(c) - {} == w.Topics(c) && w.conns[c].subs - {} == w.conns[c].subs;
    } else {
      var before, path := paths[..|paths| - 1], paths[|paths| - 1];
      CancelTakes(w, c, before);
      CancelOneTakes(AfterCancel(w, c, before), c, path);
      NamedSnoc(w.Topics(c), w.conns[c].subs, before, path);
      assert paths == before + [path];
      hide Named;
    }
  }

  /** Exactly when an UNSUBSCRIBE keeps the maps in step: no other connection of the session has
      recorded a filter that goes. */
  predicate CancelFits(w: World, c: ConnId, paths: seq<bytes>)
    requires c in w.conns
  {
    forall d, p :: d in w.conns && Share(w, c, d) && p in w.conns[d].subs ==> p in paths ==> p !in w.conns[c].subs
  }

  lemma CancelFitsIff(w: World, c: ConnId, paths: seq<bytes>)
    requires w.Closed() && c in w.conns && TopicsInStep(w)
    ensures TopicsInStep(AfterCancel(w, c, paths)) <==> CancelFits(w, c, paths)
  {
    hide AfterCancel;
    CancelTakes(w, c, paths);
    var w' := AfterCancel(w, c, paths);
    forall d, p | d in w'.conns && p in w'.conns[d].subs
      ensures p in w.conns[d].subs
      ensures Mapped(w', d, p) <==> (Share(w, c, d) ==> p in paths ==> p !in w.conns[c].subs)
    {
      assert Mapped(w, d, p);
    }
    if TopicsInStep(w') {
      forall d, p | d in w.conns && Share(w, c, d) && p in w.conns[d].subs
        ensures p in paths ==> p !in w.conns[c].subs
      {
        assert w'.conns[d] == w.conns[d] && Mapped(w', d, p);
      }
    }
  }

  // ----- Runs -----

  /** The condition on the next event. */
  predicate Fits(w: World, e: Event)
  {
    match e
    case Subscribing(c, filters) => w.Serving(c) ==> SubscribeFits(w, c, filters)
    case Unsubscribing(c, paths) => w.Serving(c) ==> CancelFits(w, c, paths)
    case _ => true
  }

  lemma DetachMaps(w: World, c: ConnId)
    requires w.Closed() && c in w.conns && TopicsInStep(w)
    ensures TopicsInStep(Detach(w, c))
  {
    var w' := Detach(w, c);
    hide EntriesAt;
    forall d, p | d in w'.conns && p in w'.conns[d].subs ensures Mapped(w', d, p) {
      assert Mapped(w, d, p);
    }
  }

  lemma ConnMaps(w: World, c: ConnId, s: SessionId, clean: bool)
    requires w.Closed() && c !in w.conns && s in w.sessions && TopicsInStep(w)
    ensures TopicsInStep(WithConn(w, c, s, clean))
  {
    var w' := WithConn(w, c, s, clean);
    forall d, p | d in w'.conns && p in w'.conns[d].subs ensures Mapped(w', d, p) {
      assert Mapped(w, d, p);
    }
  }

  lemma SessionMaps(w: World, client: bytes)
    requires Tidy(w) && TopicsInStep(w)
    ensures TopicsInStep(WithSession(w, client))
  {
    var w' := WithSession(w, client);
    forall d, p | d in w'.conns && p in w'.conns[d].subs ensures Mapped(w', d, p) {
      assert Mapped(w, d, p);
    }
  }

  lemma ConnectMaps(w: World, c: ConnId, client: bytes, clean: bool)
    requires Tidy(w) && c !in w.conns && TopicsInStep(w)
    ensures TopicsInStep(Attach(w, c, client, clean))
  {
    var w1 := Cleared(w, client);
    assert Tidy(w1) && TopicsInStep(w1) && c !in w1.conns by {
      if client in w.group {
        var s := w.group[client];
        DisconnectedTidy(w, s);
        if w.sessions[s].watcher.Some? {
          DetachMaps(w, w.sessions[s].watcher.value);
        }
      }
    }
    hide Tidy, TopicsInStep, Cleared, WithConn;
    if !clean && client in w.group {
      ConnMaps(w1, c, w.group[client], clean);
    } else {
      SessionMaps(w1, client);
      ConnMaps(WithSession(w1, client), c, w1.issued, clean);
    }
  }

  lemma LeaveMaps(w: World, c: ConnId)
    requires w.Closed() && c in w.conns && TopicsInStep(w)
    ensures TopicsInStep(Leave(w, c))
  {
    var w' := Leave(w, c);
    forall d, p | d in w'.conns && p in w'.conns[d].subs ensures Mapped(w', d, p) {
      assert Mapped(w, d, p);
    }
  }

  /** In step, the topic maps stay so through an event exactly when it meets the condition. */
  lemma StepFitsIff(w: World, e: Event)
    requires Tidy(w) && TopicsInStep(w)
    ensures TopicsInStep(WorldStep(w, e)) <==> Fits(w, e)
  {
    hide TopicsInStep;
    match e
    case Connecting(c, client, clean) => if c !in w.conns { ConnectMaps(w, c, client, clean); }
    case Subscribing(c, filters) => if w.Serving(c) { SubscribeFitsIff(w, c, filters); }
    case Unsubscribing(c, paths) => if w.Serving(c) { CancelFitsIff(w, c, paths); }
    case Disconnecting(c) => if w.Serving(c) { LeaveMaps(w, c); }
    case Closing(c) => if c in w.conns { DetachMaps(w, c); }
  }

  ghost predicate InStepThroughout(es: seq<Event>)
  {
    forall i :: 0 <= i <= |es| ==> TopicsInStep(WorldRun(es[..i]))
  }

  ghost predicate AllFit(es: seq<Event>)
  {
    forall i :: 0 <= i < |es| ==> Fits(WorldRun(es[..i]), es[i])
  }

  lemma ThroughoutStep(es: seq<Event>)
    requires es != []
    ensures InStepThroughout(es) <==> InStepThroughout(es[..|es| - 1]) && TopicsInStep(WorldRun(es))
  {
    hide TopicsInStep, WorldRun;
    var before := es[..|es| - 1];
    assert es[..|es|] == es && forall i :: 0 <= i < |es| ==> before[..i] == es[..i];
    if InStepThroughout(es) {
      forall i | 0 <= i <= |before| ensures TopicsInStep(WorldRun(before[..i])) {
        assert TopicsInStep(WorldRun(es[..i]));
      }
      assert TopicsInStep(WorldRun(es[..|es|]));
    }
    if InStepThroughout(before) && TopicsInStep(WorldRun(es)) {
      forall i | 0 <= i <= |es| ensures TopicsInStep(WorldRun(es[..i])) {
        assert i < |es| ==> TopicsInStep(WorldRun(before[..i]));
      }
    }
  }

  lemma AllFitStep(es: seq<Event>)
    requires es != []
    ensures AllFit(es) <==> AllFit(es[..|es| - 1]) && Fits(WorldRun(es[..|es| - 1]), es[|es| - 1])
  {
    hide Fits, WorldRun;
    var before := es[..|es| - 1];
    assert forall i :: 0 <= i < |es| ==> before[..i] == es[..i];
    if AllFit(es) {
      forall i | 0 <= i < |before| ensures Fits(WorldRun(before[..i]), before[i]) {
        assert Fits(WorldRun(es[..i]), es[i]);
      }
    }
    if AllFit(before) && Fits(WorldRun(before), es[|es| - 1]) {
      forall i | 0 <= i < |es| ensures Fits(WorldRun(es[..i]), es[i]) {
        assert i < |before| ==> Fits(WorldRun(before[..i]), before[i]);
      }
    }
  }

  lemma ThroughoutAtEnd(es: seq<Event>)
    requires InStepThroughout(es)
    ensures TopicsInStep(WorldRun(es))
  {
    assert es[..|es|] == es;
  }

  /** Over a run the topic maps are in step throughout exactly when each event of it meets the
      condition. */
  lemma {:induction false} RunFitsIff(es: seq<Event>)
    ensures InStepThroughout(es) <==> AllFit(es)
  {
    if es == [] {
      NothingMapped();
    } else {
      var before, e := es[..|es| - 1], es[|es| - 1];
      RunFitsIff(before);
      ThroughoutStep(es);
      AllFitStep(es);
      RunTidy(before);
      hide TopicsInStep, Fits, WorldStep, Tidy, AllFit;
      assert WorldRun(es) == WorldStep(WorldRun(before), e);
      hide WorldRun, InStepThroughout;
      if InStepThroughout(before) {
        ThroughoutAtEnd(before);
        StepFitsIff(WorldRun(before), e);
      }
    }
  }

  lemma NothingMapped()
    ensures InStepThroughout([])
  {
    var es: seq<Event> := [];
    assert es[..0] == es;
  }

  /** Over every run of whole handlers the topic maps are in step: a CONNECT disconnects the
      session's previous connection, so that none is shared. */
  lemma RunTopicsInStep(es: seq<Event>)
    requires WholeHandlers(es)
    ensures TopicsInStep(WorldRun(es))
  {
    forall i | 0 <= i < |es| ensures Fits(WorldRun(es[..i]), es[i]) {
      OnePerSession(es[..i]);
    }
    RunFitsIff(es);
    ThroughoutAtEnd(es);
  }

  // ----- The failing run -----

  /** One of two connections of a session drops a filter that both record: the other still has its
      subscription, on record and in the table, but the session has not. */
  lemma SharedSessionLosesTopic(w: World, c: ConnId, d: ConnId, path: bytes)
    requires InStep(w) && Tidy(w) && w.Serving(c) && d in w.conns && Share(w, c, d)
    requires path in w.conns[c].subs && path in w.conns[d].subs
    ensures var w' := WorldStep(w, Unsubscribing(c, [path]));
            d in w'.conns && path in w'.conns[d].subs && Recorded(w', d, path) && path !in w'.Topics(d)
  {
    CancelTakes(w, c, [path]);
    StepInStep(w, Unsubscribing(c, [path]));
    hide AfterCancel;
    assert path in [path];
    InStepRecord(WorldStep(w, Unsubscribing(c, [path])), d, path);
  }

  /** A client subscribes to `a` and says DISCONNECT; before the Close of its connection is through
      it connects again, subscribes to `a` and unsubscribes. The session has lost the topic, and the
      first subscription is still in the table. */
  lemma RunLosesTopic(client: bytes)
    ensures var a: bytes := [0x61];
            var f := TopicFilter(a, 0);
            var w := WorldRun([Connecting(0, client, false), Subscribing(0, [f]), Disconnecting(0),
                               Connecting(1, client, false), Subscribing(1, [f]), Unsubscribing(1, [a])]);
            0 in w.conns && a in w.conns[0].subs && Recorded(w, 0, a) && a !in w.Topics(0)
  {
    var a: bytes := [0x61];
    var f := TopicFilter(a, 0);
    FirstSepIs(a, 1);
    assert Split([]) == Parsed([], true) && a[..1] == a;
    assert Acceptable(f);
    var es := [Connecting(0, client, false), Subscribing(0, [f]), Disconnecting(0),
               Connecting(1, client, false), Subscribing(1, [f])];
    var last := Unsubscribing(1, [a]);
    assert es + [last] == [es[0], es[1], es[2], es[3], es[4], last];
    hide Split, Acceptable, WorldRun, WorldStep, InStep, Tidy, Recorded, Share, World.Serving;
    FiveEvents(es);
    TwoOnOneSession(client, f);
    RunInStep(es);
    RunTidy(es);
    RunStep(es, last);
    SharedSessionLosesTopic(WorldRun(es), 1, 0, a);
  }

  lemma FiveEvents(es: seq<Event>)
    requires |es| == 5
    ensures WorldRun(es) ==
            WorldStep(WorldStep(WorldStep(WorldStep(WorldStep(NEW_WORLD, es[0]), es[1]), es[2]), es[3]), es[4])
  {
    hide WorldStep;
    assert es[..5] == es && es[..0] == [];
    assert forall i :: 0 <= i < 5 ==> es[..i + 1] == es[..i] + [es[i]];
    RunStep(es[..0], es[0]);
    RunStep(es[..1], es[1]);
    RunStep(es[..2], es[2]);
    RunStep(es[..3], es[3]);
    RunStep(es[..4], es[4]);
    assert WorldRun([]) == NEW_WORLD;
  }

  /** Once the client has said DISCONNECT, its next connection joins the same session. */
  lemma JoinsSession(w: World, c: ConnId, d: ConnId, client: bytes)
    requires w.Closed() && w.Serving(c) && d !in w.conns
    requires client in w.group && w.group[client] == w.conns[c].session
    ensures var w' := WorldStep(WorldStep(w, Disconnecting(c)), Connecting(d, client, false));
            w'.Serving(d) && c in w'.conns && Share(w', d, c) && w'.conns[c].subs == w.conns[c].subs
  {
  }

  lemma FirstConnects(client: bytes)
    ensures var w := WorldStep(NEW_WORLD, Connecting(0, client, false));
            w.Serving(0) && 1 !in w.conns && client in w.group && w.group[client] == w.conns[0].session
  {
  }

  lemma TwoOnOneSession(client: bytes, f: TopicFilter)
    requires Acceptable(f)
    ensures var w1 := WorldStep(WorldStep(NEW_WORLD, Connecting(0, client, false)), Subscribing(0, [f]));
            var w2 := WorldStep(WorldStep(w1, Disconnecting(0)), Connecting(1, client, false));
            var w := WorldStep(w2, Subscribing(1, [f]));
            && w.Serving(1) && 0 in w.conns && Share(w, 1, 0)
            && f.topicPath in w.conns[1].subs && f.topicPath in w.conns[0].subs
  {
    hide Acceptable, AfterSubscribe, WorldStep;
    var w0 := WorldStep(NEW_WORLD, Connecting(0, client, false));
    var w1 := WorldStep(w0, Subscribing(0, [f]));
    var w2 := WorldStep(WorldStep(w1, Disconnecting(0)), Connecting(1, client, false));
    FirstConnects(client);
    SubscribeRecords(w0, 0, f);
    JoinsSession(w1, 0, 1, client);
    SubscribeRecords(w2, 1, f);
  }

  lemma SubscribeRecords(w: World, c: ConnId, r: TopicFilter)
    requires w.Closed() && w.Serving(c) && Acceptable(r)
    ensures var w' := WorldStep(w, Subscribing(c, [r]));
            && w'.conns.Keys == w.conns.Keys && r.topicPath in w'.conns[c].subs
            && w'.conns[c].(subs := map[]) == w.conns[c].(subs := map[])
            && (forall d :: d in w.conns && d != c ==> w'.conns[d] == w.conns[d])
            && w'.group == w.group
  {
    hide Split, TableRemove, TableStep;
    AfterSubscribeStep(w, c, [r]);
    AfterSubscribeStep(w, c, []);
    assert [r][..0] == [];
  }
}
