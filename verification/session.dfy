/** A client's session: the bounded offline queue, the topic map and the messages awaiting an
    acknowledgement. */
module Sessions {
  import opened Bytes
  import opened Messages
  import T = MessageTables

  /** The delivery side of a session. `online` says that a write handler is set; `handled` is
      what that handler has been given. */
  datatype Box = Box(online: bool, queue: seq<Message>, handled: seq<Message>, limit: int)

  function Pushed(b: Box, m: Message): Box
  {
    if |b.queue| >= b.limit then b else b.(queue := b.queue + [m])
  }

  function Written(b: Box, m: Message): Box
  {
    if b.online then b.(handled := b.handled + [m]) else Pushed(b, m)
  }

  /** The channel of messages to be sent on a connection. */
  class Outbox {
    var sent: seq<Message>

    constructor ()
      ensures sent == []
    {
      sent := [];
    }

    method Send(msg: Message)
      modifies this
      ensures sent == old(sent) + [msg]
    {
      sent := sent + [msg];
    }
  }

  /** The write handler is the one a connection installs, which sends on its channel; the disconnect
      handler is named by its connection. */
  class Session {
    var clientId: bytes
    var onWrite: Outbox?
    var onDisconnect: Option<nat>
    var offlineQueue: seq<Message>
    ghost var handled: seq<Message>
    var offlineLimit: int
    var topics: map<bytes, byte>
    var waitAck: T.MessageTable

    ghost function View(): Box
      reads this
    {
      Box(onWrite != null, offlineQueue, handled, offlineLimit)
    }

    constructor (limit: int)
      ensures View() == Box(false, [], [], limit) && onDisconnect == None && clientId == []
      ensures topics == map[] && fresh(waitAck) && waitAck.View() == T.NEW
    {
      clientId, onWrite, onDisconnect, offlineQueue, offlineLimit := [], null, None, [], limit;
      handled := [];
      topics := map[];
      waitAck := new T.MessageTable();
      new;
      waitAck.WithOnFinish();
    }

    method AddTopics(topic: bytes, qos: byte)
      modifies this`topics
      ensures topics == old(topics)[topic := qos]
    {
      topics := topics[topic := qos];
    }

    method RemoveTopics(topic: bytes)
      modifies this`topics
      ensures topics == old(topics) - {topic}
    {
      if topic in topics {
        topics := topics - {topic};
      }
      assert topic !in old(topics) ==> old(topics) - {topic} == old(topics);
    }

    method WithClientID(id: bytes)
      modifies this`clientId
      ensures clientId == id
    {
      clientId := id;
    }

    /** Set or clear the write handler. */
    method WithOnWrite(handler: Outbox?)
      modifies this`onWrite
      ensures onWrite == handler && View() == old(View()).(online := handler != null)
    {
      onWrite := handler;
    }

    /** Set or clear the disconnect handler. */
    method WithOnDisconnect(handler: Option<nat>)
      modifies this`onDisconnect
      ensures onDisconnect == handler
    {
      onDisconnect := handler;
    }

    method WriteMessage(msg: Message) returns (ok: bool)
      modifies this`offlineQueue, this`handled, onWrite
      ensures View() == Written(old(View()), msg)
      ensures onWrite != null ==> onWrite.sent == old(onWrite.sent) + [msg]
      ensures ok <==> onWrite != null || |old(offlineQueue)| < offlineLimit
    {
      if onWrite == null {
        if |offlineQueue| >= offlineLimit {
          return false;
        }
        offlineQueue := offlineQueue + [msg];
        return true;
      }
      onWrite.Send(msg);
      handled := handled + [msg];
      return true;
    }

    method PushOfflineMessage(msg: Message) returns (ok: bool)
      modifies this`offlineQueue
      ensures View() == Pushed(old(View()), msg)
      ensures ok <==> |old(offlineQueue)| < offlineLimit
    {
      if |offlineQueue| >= offlineLimit {
        return false;
      }
      offlineQueue := offlineQueue + [msg];
      return true;
    }

    /** Hand out a copy of the queue and empty it. */
    method OfflineMessages() returns (rs: seq<Message>)
      modifies this`offlineQueue
      ensures rs == old(offlineQueue)
      ensures View() == old(View()).(queue := [])
    {
      var nlen := |offlineQueue|;
      rs := [];
      if nlen == 0 {
        return;
      }
      var i := 0;
      while i < nlen
        invariant 0 <= i <= nlen && rs == offlineQueue[..i]
      {
        rs := rs + [offlineQueue[i]];
        i := i + 1;
      }
      offlineQueue := offlineQueue[nlen..];
    }

    method RegisterMessage(msg: Publish) returns (id: u16, sent: Publish)
      modifies waitAck
      ensures id == T.NextId(old(waitAck.View()))
      ensures sent == msg.(packetId := id)
      ensures waitAck.View() == T.Step(old(waitAck.View()), T.RegisterMessage(msg))
    {
      id := waitAck.NewID();
      sent := msg.(packetId := id);
      waitAck.Register(id, MPublish(sent), None);
    }

    method UnRefMessage(id: u16)
      modifies waitAck
      ensures waitAck.View() == T.Step(old(waitAck.View()), T.Unref(id))
    {
      waitAck.Unref(id);
    }
  }

  // ----- Runs -----

  datatype BoxOp = WriteOp(msg: Message) | PushOp(msg: Message) | DrainOp | HandlerOp(on: bool)

  function BoxStep(b: Box, op: BoxOp): Box
  {
    match op
    case WriteOp(m) => Written(b, m)
    case PushOp(m) => Pushed(b, m)
    case DrainOp => b.(queue := [])
    case HandlerOp(s) => b.(online := s)
  }

  function BoxRun(b: Box, ops: seq<BoxOp>): Box
    decreases |ops|
  {
    if ops == [] then b else BoxRun(BoxStep(b, ops[0]), ops[1..])
  }

  /** What one operation adds to the offline queue. */
  function Taken(b: Box, op: BoxOp): seq<Message>
  {
    match op
    case WriteOp(m) => if !b.online && |b.queue| < b.limit then [m] else []
    case PushOp(m) => if |b.queue| < b.limit then [m] else []
    case _ => []
  }

  /** The messages accepted offline during the run. */
  function Accepted(b: Box, ops: seq<BoxOp>): seq<Message>
    decreases |ops|
  {
    if ops == [] then [] else Taken(b, ops[0]) + Accepted(BoxStep(b, ops[0]), ops[1..])
  }

  /** What the drains of the run handed out. */
  function Drained(b: Box, ops: seq<BoxOp>): seq<Message>
    decreases |ops|
  {
    if ops == [] then []
    else (if ops[0].DrainOp? then b.queue else []) + Drained(BoxStep(b, ops[0]), ops[1..])
  }

  /** The messages written while a handler was set, read off the operations alone. */
  function WrittenOnline(online: bool, ops: seq<BoxOp>): seq<Message>
    decreases |ops|
  {
    if ops == [] then []
    else
      (if ops[0].WriteOp? && online then [ops[0].msg] else [])
      + WrittenOnline(if ops[0].HandlerOp? then ops[0].on else online, ops[1..])
  }

  /** Nothing accepted offline is lost, repeated or reordered: what was queued and accepted is
      what was drained and is still queued. */
  lemma {:induction false} OfflineConservation(b: Box, ops: seq<BoxOp>)
    ensures b.queue + Accepted(b, ops) == Drained(b, ops) + BoxRun(b, ops).queue
    decreases |ops|
  {
    if ops != [] {
      var b', took := BoxStep(b, ops[0]), Taken(b, ops[0]);
      var now := if ops[0].DrainOp? then b.queue else [];
      OfflineConservation(b', ops[1..]);
      assert b.queue + took == now + b'.queue;
      assert (b.queue + took) + Accepted(b', ops[1..]) == b.queue + Accepted(b, ops);
      assert now + (b'.queue + Accepted(b', ops[1..])) == (now + b'.queue) + Accepted(b', ops[1..]);
    }
  }

  /** What is written while a handler is set goes to that handler, in order, and nothing else
      does. */
  lemma {:induction false} HandlerInOrder(b: Box, ops: seq<BoxOp>)
    ensures BoxRun(b, ops).handled == b.handled + WrittenOnline(b.online, ops)
    decreases |ops|
  {
    if ops != [] {
      HandlerInOrder(BoxStep(b, ops[0]), ops[1..]);
    }
  }

  /** The queue stays within its limit; with a negative limit it stays empty. */
  lemma {:induction false} QueueBounded(b: Box, ops: seq<BoxOp>)
    requires |b.queue| <= if b.limit < 0 then 0 else b.limit
    ensures |BoxRun(b, ops).queue| <= if b.limit < 0 then 0 else b.limit
    decreases |ops|
  {
    if ops != [] {
      QueueBounded(BoxStep(b, ops[0]), ops[1..]);
    }
  }
}
