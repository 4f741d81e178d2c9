/** The packet-id table: a 16-bit id allocator and reference-counted messages in flight. */
module MessageTables {
  import opened Bytes
  import opened Messages

  const MAX_U16: u16 := 0xFFFF

  /** The opaque value a caller registers, which comes back with the finish callback: a channel,
      or nothing. */
  type Cookie = Option<nat>

  datatype Container = Container(msg: Message, ref: int, cookie: Cookie)

  /** One call of the finish callback. */
  datatype Finish = Finish(id: u16, msg: Message, cookie: Cookie)

  /** The value of a table, with the calls made so far to the finish callback. */
  datatype State = State(id: u16, hash: map<u16, Container>, used: set<u16>, hasCallback: bool, fired: seq<Finish>)

  // ----- One operation -----

  /** The id the next allocation looks at. */
  function Position(s: State): u16
  {
    if s.id == MAX_U16 then 0 else s.id
  }

  /** The id the next allocation returns; 0 also says that there was none. */
  function NextId(s: State): u16
  {
    if Position(s) in s.used then 0 else Position(s)
  }

  function Allocate(s: State): State
  {
    if Position(s) in s.used then s.(id := Position(s))
    else s.(id := Position(s) + 1, used := s.used + {Position(s)})
  }

  function Enter(s: State, id: u16, msg: Message, count: int, cookie: Cookie): State
  {
    s.(hash := s.hash[id := Container(msg, count, cookie)])
  }

  function Release(s: State, id: u16): State
  {
    if id !in s.hash then s
    else
      var c := s.hash[id];
      if c.ref - 1 < 1 then
        s.(hash := s.hash - {id}, used := s.used - {id},
           fired := if s.hasCallback then s.fired + [Finish(id, c.msg, c.cookie)] else s.fired)
      else s.(hash := s.hash[id := c.(ref := c.ref - 1)])
  }

  class MessageTable {
    var id: u16
    var hash: map<u16, Container>
    var used: set<u16>
    var hasCallback: bool
    var fired: seq<Finish>

    function View(): State
      reads this
    {
      State(id, hash, used, hasCallback, fired)
    }

    constructor ()
      ensures View() == State(1, map[], {}, false, [])
    {
      id, hash, used, hasCallback, fired := 1, map[], {}, false, [];
    }

    method WithOnFinish()
      modifies this
      ensures View() == old(View()).(hasCallback := true)
    {
      hasCallback := true;
    }

    /** The loop never looks at a second id: it ends as soon as the first one is in use. */
    method NewID() returns (r: u16)
      modifies this
      ensures r == NextId(old(View()))
      ensures View() == Allocate(old(View()))
    {
      if id == MAX_U16 {
        id := 0;
      }
      r := 0;
      var ok := false;
      while !ok
        invariant !ok ==> r == 0 && View() == old(View()).(id := Position(old(View())))
        invariant ok ==> r == 0 && id in used && View() == old(View()).(id := Position(old(View())))
        decreases !ok
      {
        ok := id in used;
        if !ok {
          r := id;
          used := used + {id};
          id := id + 1;
          break;
        }
      }
    }

    method Clean()
      modifies this
      ensures View() == old(View()).(hash := map[])
    {
      hash := map[];
    }

    method Register(mid: u16, msg: Message, cookie: Cookie)
      modifies this
      ensures View() == Enter(old(View()), mid, msg, 1, cookie)
    {
      hash := hash[mid := Container(msg, 1, cookie)];
    }

    method Register2(mid: u16, msg: Message, count: int, cookie: Cookie)
      modifies this
      ensures View() == Enter(old(View()), mid, msg, count, cookie)
    {
      hash := hash[mid := Container(msg, count, cookie)];
    }

    method Unref(mid: u16)
      modifies this
      ensures View() == Release(old(View()), mid)
    {
      if mid in hash {
        var v := hash[mid];
        v := v.(ref := v.ref - 1);
        hash := hash[mid := v];
        if v.ref < 1 {
          if hasCallback {
            fired := fired + [Finish(mid, hash[mid].msg, hash[mid].cookie)];
          }
          used := used - {mid};
          hash := hash - {mid};
          assert hash == old(hash) - {mid};
        }
      }
    }

    method Remove(mid: u16)
      modifies this
      ensures View() == old(View()).(hash := old(hash) - {mid})
    {
      if mid in hash {
        hash := hash - {mid};
      }
      assert mid !in old(hash) ==> old(hash) - {mid} == old(hash);
    }
  }

  // ----- Runs: what a session does to its table -----

  datatype Op =
    | RegisterMessage(msg: Publish)
    | Unref(id: u16)
    | Remove(id: u16)
    | Clean

  function Step(s: State, op: Op): State
  {
    match op
    case RegisterMessage(msg) =>
      var id := NextId(s);
      Enter(Allocate(s), id, MPublish(msg.(packetId := id)), 1, None)
    case Unref(id) => Release(s, id)
    case Remove(id) => s.(hash := s.hash - {id})
    case Clean => s.(hash := map[])
  }

  function Run(s: State, ops: seq<Op>): State
  {
    if ops == [] then s else Step(Run(s, ops[..|ops| - 1]), ops[|ops| - 1])
  }

  const NEW: State := State(1, map[], {}, true, [])

  ghost predicate InFlightIsUsed(s: State)
  {
    s.hash.Keys <= s.used + {0}
  }

  /** Every message in flight keeps its id marked as used, except at id 0. */
  lemma {:induction false} RunInFlightIsUsed(s: State, ops: seq<Op>)
    requires InFlightIsUsed(s)
    ensures InFlightIsUsed(Run(s, ops))
  {
    if ops != [] {
      RunInFlightIsUsed(s, ops[..|ops| - 1]);
    }
  }

  /** Over any run, a non-zero id handed out belonged to no message in flight; it becomes used
      and no other message is touched. */
  lemma NothingInFlightIsOverwritten(ops: seq<Op>, msg: Publish)
    ensures var s := Run(NEW, ops);
            var id := NextId(s);
            var s' := Step(s, RegisterMessage(msg));
            id != 0 ==>
              && id !in s.used && id !in s.hash
              && id in s'.used && id in s'.hash
              && s'.hash - {id} == s.hash
  {
    RunInFlightIsUsed(NEW, ops);
    var s := Run(NEW, ops);
    var id := NextId(s);
    if id != 0 {
      assert Step(s, RegisterMessage(msg)).hash - {id} == s.hash;
    }
  }

  function Registrations(ops: seq<Op>): nat
  {
    if ops == [] then 0
    else Registrations(ops[..|ops| - 1]) + if ops[|ops| - 1].RegisterMessage? then 1 else 0
  }

  /** Until the counter wraps, it counts the registrations, and only ids below it are used. */
  lemma {:induction false} CounterCounts(ops: seq<Op>)
    requires Registrations(ops) <= 65534
    ensures Run(NEW, ops).id == Registrations(ops) + 1
    ensures forall i :: i in Run(NEW, ops).used ==> 1 <= i <= Registrations(ops)
  {
    if ops != [] {
      CounterCounts(ops[..|ops| - 1]);
    }
  }

  /** From a new table the k-th registration gets id k for k up to 65534, and the next one gets
      0, whatever is released, removed or cleaned in between. */
  lemma IdSequence(ops: seq<Op>)
    requires Registrations(ops) <= 65534
    ensures NextId(Run(NEW, ops)) == if Registrations(ops) < 65534 then Registrations(ops) + 1 else 0
  {
    CounterCounts(ops);
  }

  /** When the id at the counter is in use, the allocator is stuck: until that very id is
      released, every registration gets 0 and no id becomes used. */
  lemma {:induction false} StuckUntilReleased(s: State, ops: seq<Op>)
    requires Position(s) in s.used
    requires forall i :: 0 <= i < |ops| ==> ops[i] != Unref(Position(s))
    ensures var s' := Run(s, ops);
            Position(s') == Position(s) && Position(s) in s'.used && s'.used <= s.used && NextId(s') == 0
  {
    if ops != [] {
      StuckUntilReleased(s, ops[..|ops| - 1]);
    }
  }

  /** Registrations that get no id share id 0, where the later one replaces the earlier one. */
  lemma IdZeroIsShared(s: State, first: Publish, second: Publish)
    requires Position(s) in s.used
    ensures var s1 := Step(s, RegisterMessage(first));
            var s2 := Step(s1, RegisterMessage(second));
            && s1.hash[0].msg == MPublish(first.(packetId := 0))
            && s2.hash == s1.hash[0 := Container(MPublish(second.(packetId := 0)), 1, None)]
  {
  }

  /** Over any run, a registration hits a message in flight exactly when the allocator gives out
      0, for want of another id or because the counter has wrapped, and a message sits at 0. */
  lemma HandsOutIdInFlightIff(ops: seq<Op>)
    ensures var s := Run(NEW, ops);
            NextId(s) in s.hash <==> (Position(s) in s.used || Position(s) == 0) && 0 in s.hash
  {
    RunInFlightIsUsed(NEW, ops);
  }

  predicate OnlyRegistrations(ops: seq<Op>)
  {
    forall i :: 0 <= i < |ops| ==> ops[i].RegisterMessage?
  }

  /** Registrations alone use up the ids one after the other. */
  lemma {:induction false} IdsUsedUp(ops: seq<Op>)
    requires OnlyRegistrations(ops) && |ops| <= 65534
    ensures Run(NEW, ops).id == |ops| + 1
    ensures forall i :: i in Run(NEW, ops).used <==> 1 <= i <= |ops|
  {
    if ops != [] {
      IdsUsedUp(ops[..|ops| - 1]);
    }
  }

  /** 65535 registrations without a release, whatever they carry, lead to the state in which the
      allocator is stuck: the counter has wrapped round to id 1, which is in use, and the last of
      the messages sits at 0. */
  lemma RunGetsStuck(ops: seq<Op>)
    requires OnlyRegistrations(ops) && |ops| == 65535
    ensures var s := Run(NEW, ops);
            && Position(s) == 1 && 1 in s.used && 0 in s.hash
            && s.hash[0].msg == MPublish(ops[65534].msg.(packetId := 0))
  {
    IdsUsedUp(ops[..65534]);
    assert ops[..65534] == ops[..|ops| - 1];
    var s := Run(NEW, ops[..65534]);
    assert s.id == MAX_U16 && Position(s) == 0 && 0 !in s.used;
    assert Run(NEW, ops) == Step(s, ops[65534]);
  }

  /** The next message then takes the place of the one at 0, which is lost without a callback. */
  lemma InFlightIsOverwritten(ops: seq<Op>, msg: Publish)
    requires OnlyRegistrations(ops) && |ops| == 65535
    ensures var s, s' := Run(NEW, ops), Run(NEW, ops + [RegisterMessage(msg)]);
            && 0 in s.hash && s.hash[0].msg == MPublish(ops[65534].msg.(packetId := 0))
            && s'.hash == s.hash[0 := Container(MPublish(msg.(packetId := 0)), 1, None)]
            && s'.fired == s.fired
  {
    RunGetsStuck(ops);
    assert (ops + [RegisterMessage(msg)])[..65535] == ops;
  }

  // ----- Which ids are in use -----

  /** The ids whose message was removed or cleaned away while it was in flight. */
  function Stranded(ops: seq<Op>): set<u16>
  {
    if ops == [] then {}
    else
      var before, op := ops[..|ops| - 1], ops[|ops| - 1];
      Stranded(before) + match op
                         case Remove(id) => {id} * Run(NEW, before).hash.Keys
                         case Clean => Run(NEW, before).hash.Keys
                         case _ => {}
  }

  /** Over any run an id other than 0 is in use exactly while its message is in flight, and for ever
      once that was removed or cleaned away. */
  lemma {:induction false} UsedIff(ops: seq<Op>)
    ensures forall i :: i != 0 ==>
              (i in Run(NEW, ops).used <==> i in Run(NEW, ops).hash || i in Stranded(ops))
    ensures forall i :: i != 0 && i in Stranded(ops) ==> i !in Run(NEW, ops).hash
  {
    if ops != [] {
      UsedIff(ops[..|ops| - 1]);
    }
  }

  /** So without Remove and Clean the ids in use are those in flight: an Unref that ends a message
      frees its id. */
  lemma ReleaseFrees(ops: seq<Op>)
    requires forall i :: 0 <= i < |ops| ==> ops[i].RegisterMessage? || ops[i].Unref?
    ensures forall i :: i != 0 ==> (i in Run(NEW, ops).used <==> i in Run(NEW, ops).hash)
  {
    NothingStranded(ops);
    UsedIff(ops);
  }

  lemma {:induction false} NothingStranded(ops: seq<Op>)
    requires forall i :: 0 <= i < |ops| ==> ops[i].RegisterMessage? || ops[i].Unref?
    ensures Stranded(ops) == {}
  {
    if ops != [] {
      NothingStranded(ops[..|ops| - 1]);
    }
  }

  /** A stranded id is never given out again, whatever happens. */
  lemma {:induction false} StrandedForEver(ops: seq<Op>, more: seq<Op>, i: u16)
    requires i != 0 && i in Stranded(ops)
    ensures i in Stranded(ops + more) && i in Run(NEW, ops + more).used && NextId(Run(NEW, ops + more)) != i
  {
    UsedIff(ops + more);
    if more == [] {
      assert ops + more == ops;
    } else {
      var before := more[..|more| - 1];
      StrandedForEver(ops, before, i);
      assert (ops + more)[..|ops + more| - 1] == ops + before;
    }
  }

  /** Over any run, a registration gets no id of its own exactly when the counter stands at 0 or at an
      id whose message is in flight or was removed or cleaned away. */
  lemma NoIdIff(ops: seq<Op>)
    ensures var s := Run(NEW, ops);
            NextId(s) == 0 <==> Position(s) == 0 || Position(s) in s.hash || Position(s) in Stranded(ops)
  {
    UsedIff(ops);
  }

  /** Each message is registered and then released. */
  function Pairs(ms: seq<Publish>): seq<Op>
  {
    if ms == [] then []
    else
      var before := Pairs(ms[..|ms| - 1]);
      before + [RegisterMessage(ms[|ms| - 1]), Unref(NextId(Run(NEW, before)))]
  }

  lemma RunSnoc(s: State, ops: seq<Op>, op: Op)
    ensures Run(s, ops + [op]) == Step(Run(s, ops), op)
  {
    hide Step;
    assert (ops + [op])[..|ops|] == ops;
  }

  /** The k-th message, counted from 0, is called back for with the id that it got. */
  predicate FiredInOrder(fired: seq<Finish>, ms: seq<Publish>)
  {
    && |fired| == |ms|
    && forall k :: 0 <= k < |ms| ==>
         var id: u16 := (k + 1) % 65535;
         fired[k] == Finish(id, MPublish(ms[k].(packetId := id)), None)
  }

  ghost predicate AllReleased(s: State, ms: seq<Publish>)
  {
    && s.used == {} && s.hash == map[] && s.hasCallback && NextId(s) == (|ms| + 1) % 65535
    && FiredInOrder(s.fired, ms)
  }

  lemma PairStep(s: State, ms: seq<Publish>, m: Publish)
    requires AllReleased(s, ms)
    ensures AllReleased(Release(Step(s, RegisterMessage(m)), NextId(s)), ms + [m])
  {
    var id, s' := NextId(s), Release(Step(s, RegisterMessage(m)), NextId(s));
    assert s'.used == {} && s'.hash == map[] && s'.hasCallback && s'.id == id + 1;
    assert s'.fired == s.fired + [Finish(id, MPublish(m.(packetId := id)), None)];
    assert NextId(s') == (|ms| + 2) % 65535;
    hide Release, Step, NextId;
    assert FiredInOrder(s'.fired, ms + [m]);
  }

  /** Any number of messages, each released before the next is registered, never use up the ids:
      they go round from 1 to 65534 and 0, nothing stays behind, and each message is called back for
      once, in order. */
  lemma {:induction false} PairsNeverStuck(ms: seq<Publish>)
    ensures var s := Run(NEW, Pairs(ms));
            && s.used == {} && s.hash == map[] && NextId(s) == (|ms| + 1) % 65535
            && |s.fired| == |ms|
            && forall k :: 0 <= k < |ms| ==>
                 var id: u16 := (k + 1) % 65535;
                 s.fired[k] == Finish(id, MPublish(ms[k].(packetId := id)), None)
  {
    PairsRelease(ms);
  }

  lemma NoPairs()
    ensures AllReleased(Run(NEW, Pairs([])), [])
  {
  }

  lemma PairsSnoc(init: seq<Publish>, m: Publish)
    ensures Pairs(init + [m]) ==
            Pairs(init) + [RegisterMessage(m)] + [Unref(NextId(Run(NEW, Pairs(init))))]
  {
    hide Run;
    assert (init + [m])[..|init|] == init;
  }

  lemma {:induction false} PairsRelease(ms: seq<Publish>)
    ensures AllReleased(Run(NEW, Pairs(ms)), ms)
  {
    hide *;
    if ms == [] {
      NoPairs();
    } else {
      var init, m := ms[..|ms| - 1], ms[|ms| - 1];
      PairsRelease(init);
      PairsSnoc(init, m);
      RunPair(Pairs(init), m);
      PairStep(Run(NEW, Pairs(init)), init, m);
      assert init + [m] == ms;
    }
  }

  lemma RunPair(ops: seq<Op>, m: Publish)
    ensures var s := Run(NEW, ops);
            Run(NEW, ops + [RegisterMessage(m)] + [Unref(NextId(s))]) == Release(Step(s, RegisterMessage(m)), NextId(s))
  {
    hide Run, NextId, Release;
    var s := Run(NEW, ops);
    RunSnoc(NEW, ops, RegisterMessage(m));
    RunSnoc(NEW, ops + [RegisterMessage(m)], Unref(NextId(s)));
  }

  // ----- Reference counts -----

  datatype TableOp =
    | NewIDOp
    | RegisterOp(id: u16, msg: Message, count: int, cookie: Cookie)
    | UnrefOp(id: u16)
    | RemoveOp(id: u16)

  function TableStep(s: State, op: TableOp): State
  {
    match op
    case NewIDOp => Allocate(s)
    case RegisterOp(id, msg, count, cookie) => Enter(s, id, msg, count, cookie)
    case UnrefOp(id) => Release(s, id)
    case RemoveOp(id) => s.(hash := s.hash - {id})
  }

  function TableRun(s: State, ops: seq<TableOp>): State
  {
    if ops == [] then s else TableStep(TableRun(s, ops[..|ops| - 1]), ops[|ops| - 1])
  }

  /** The run registers or removes other ids only. */
  predicate LeavesAlone(id: u16, ops: seq<TableOp>)
  {
    forall i :: 0 <= i < |ops| ==>
      (ops[i].RegisterOp? || ops[i].RemoveOp?) ==> ops[i].id != id
  }

  function Unrefs(id: u16, ops: seq<TableOp>): nat
  {
    if ops == [] then 0
    else Unrefs(id, ops[..|ops| - 1]) + if ops[|ops| - 1] == UnrefOp(id) then 1 else 0
  }

  /** The callback calls for one id. */
  function FiredFor(id: u16, fired: seq<Finish>): seq<Finish>
  {
    if fired == [] then []
    else FiredFor(id, fired[..|fired| - 1]) + if fired[|fired| - 1].id == id then [fired[|fired| - 1]] else []
  }

  /** What is to be seen of a registration with count n after `u` Unrefs of its id: the
      decremented container and no callback, or one callback and no container. */
  predicate Counted(s: State, id: u16, c: Container, fired0: seq<Finish>, u: nat)
  {
    var last := if c.ref < 1 then 1 else c.ref;
    && s.hasCallback
    && (if u < last
        then id in s.hash && s.hash[id] == c.(ref := c.ref - u) && FiredFor(id, s.fired) == fired0
        else id !in s.hash && FiredFor(id, s.fired) == fired0 + [Finish(id, c.msg, c.cookie)])
  }

  lemma CountedStep(s: State, id: u16, c: Container, fired0: seq<Finish>, u: nat, op: TableOp)
    requires Counted(s, id, c, fired0, u) && LeavesAlone(id, [op])
    ensures Counted(TableStep(s, op), id, c, fired0, u + if op == UnrefOp(id) then 1 else 0)
  {
    assert [op][0] == op;
    if op.UnrefOp? && op.id in s.hash {
      var d := s.hash[op.id];
      var fired := s.fired + [Finish(op.id, d.msg, d.cookie)];
      assert fired[..|fired| - 1] == s.fired;
    }
  }

  /** After registering `id` with a count of n the callback fires once, on the max(1, n)-th
      Unref of `id`, with the registered message and value. Unrefs of other ids do not matter,
      and later ones do nothing. */
  lemma {:induction false} FiresOnceOnLastUnref(s: State, id: u16, msg: Message, n: int, cookie: Cookie,
                                                ops: seq<TableOp>)
    requires s.hasCallback && LeavesAlone(id, ops)
    ensures Counted(TableRun(Enter(s, id, msg, n, cookie), ops), id, Container(msg, n, cookie),
                    FiredFor(id, s.fired), Unrefs(id, ops))
  {
    if ops != [] {
      var before, op := ops[..|ops| - 1], ops[|ops| - 1];
      FiresOnceOnLastUnref(s, id, msg, n, cookie, before);
      CountedStep(TableRun(Enter(s, id, msg, n, cookie), before), id, Container(msg, n, cookie),
                  FiredFor(id, s.fired), Unrefs(id, before), op);
    }
  }

  /** The id of that message is in use until that Unref and free right after it. */
  lemma {:induction false} HeldUntilLastUnref(s: State, id: u16, msg: Message, n: int, cookie: Cookie,
                                              ops: seq<TableOp>)
    requires s.hasCallback && LeavesAlone(id, ops) && id in s.used
    ensures var u, last := Unrefs(id, ops), if n < 1 then 1 else n;
            var s' := TableRun(Enter(s, id, msg, n, cookie), ops);
            && (u < last ==> id in s'.used)
            && (u == last && ops[|ops| - 1] == UnrefOp(id) ==> id !in s'.used)
  {
    if ops != [] {
      var before := ops[..|ops| - 1];
      HeldUntilLastUnref(s, id, msg, n, cookie, before);
      FiresOnceOnLastUnref(s, id, msg, n, cookie, before);
    }
  }
}
