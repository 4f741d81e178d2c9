/** The topic index: both trees behind one interface, and what they mean as flat tables. */
module MemTopics {
  import opened Bytes
  import opened Messages
  import opened TopicLevels
  import opened Trie
  import S = SubscriptionTree
  import R = RetainedTree

  const QOS_FAILURE: byte := 0x80

  predicate ValidQos(qos: byte) { qos <= 2 }

  // ----- Subscriptions as a flat table -----

  /** Who is subscribed where, with which QoS. */
  type Table = map<S.Entry, byte>

  ghost predicate Tabulates(t: Trie<S.Grants>, table: Table)
  {
    forall e :: (e in table <==> S.Subscribed(t, e)) &&
                (e in table ==> table[e] == ValueAt(t, e.filter, S.NOBODY)[e.sub])
  }

  /** `#` nodes have no children. */
  ghost predicate HashLeaves<V>(t: Trie<V>)
  {
    forall p :: Has(t, p) ==> forall i :: 0 <= i < |p| - 1 ==> p[i] != MWC
  }

  function TableInsert(table: Table, topic: bytes, q: byte, sub: S.Subscription): Table
  {
    if Split(topic).ok then table[S.Entry(Split(topic).levels, sub) := q] else table
  }

  /** Without a subscriber, every entry at the filter goes. */
  function TableRemove(table: Table, topic: bytes, sub: Option<S.Subscription>): Table
  {
    var p := Split(topic);
    if !p.ok then table
    else match sub
      case Some(s) => table - {S.Entry(p.levels, s)}
      case None => map e | e in table && e.filter != p.levels :: table[e]
  }

  lemma InsertTabulates(t: Trie<S.Grants>, table: Table, topic: bytes, q: byte, sub: S.Subscription)
    requires Tabulates(t, table)
    ensures Tabulates(S.Inserted(t, topic, q, sub), TableInsert(table, topic, q, sub))
  {
    var p := Split(topic);
    var here := ValueAt(t, p.levels, S.NOBODY);
    forall f ensures ValueAt(S.Inserted(t, topic, q, sub), f, S.NOBODY) ==
                     if f == p.levels && p.ok then here[sub := q] else ValueAt(t, f, S.NOBODY)
    {
      PutEffect(t, p.levels, S.NOBODY, if p.ok then here[sub := q] else here, f);
    }
  }

  /** A removal fails exactly when the filter is malformed, no node stands for it, or the
      subscriber is not there; otherwise the table loses what it should and nothing else. */
  lemma RemoveTabulates(t: Trie<S.Grants>, table: Table, topic: bytes, sub: Option<S.Subscription>)
    requires Tabulates(t, table)
    ensures S.Removed(t, topic, sub).Some? ==>
              Tabulates(S.Removed(t, topic, sub).value, TableRemove(table, topic, sub))
    ensures S.Removed(t, topic, sub).None? ==> TableRemove(table, topic, sub) == table
    ensures sub.Some? ==> (S.Removed(t, topic, sub).Some? <==>
                           Split(topic).ok && S.Entry(Split(topic).levels, sub.value) in table)
    ensures sub.None? ==> (S.Removed(t, topic, sub).Some? <==> Split(topic).ok && Has(t, Split(topic).levels))
  {
    var p := Split(topic);
    var here := ValueAt(t, p.levels, S.NOBODY);
    if S.Removed(t, topic, sub).Some? {
      var v := S.GrantsLeft(here, sub);
      forall f ensures ValueAt(S.Removed(t, topic, sub).value, f, S.NOBODY) ==
                       if f == p.levels then v else ValueAt(t, f, S.NOBODY)
      {
        assert forall g: S.Grants :: S.Vacant(g) ==> g == S.NOBODY;
        CutKeepsValues(t, p.levels, v, S.Vacant, S.NOBODY, f);
      }
    } else if sub.Some? && p.ok {
      assert !S.Subscribed(t, S.Entry(p.levels, sub.value));
    } else if p.ok {
      forall e | e in table ensures e.filter != p.levels {
        assert S.Subscribed(t, e);
      }
    }
  }

  lemma InsertHashLeaves(t: Trie<S.Grants>, topic: bytes, q: byte, sub: S.Subscription)
    requires HashLeaves(t)
    ensures HashLeaves(S.Inserted(t, topic, q, sub))
  {
    var p := Split(topic);
    var here := ValueAt(t, p.levels, S.NOBODY);
    SplitLevels(topic);
    forall f | Has(S.Inserted(t, topic, q, sub), f) ensures forall i :: 0 <= i < |f| - 1 ==> f[i] != MWC {
      PutEffect(t, p.levels, S.NOBODY, if p.ok then here[sub := q] else here, f);
      assert f <= p.levels ==> forall i :: 0 <= i < |f| ==> f[i] == p.levels[i];
    }
  }

  lemma RemoveHashLeaves(t: Trie<S.Grants>, topic: bytes, sub: Option<S.Subscription>)
    requires HashLeaves(t) && S.Removed(t, topic, sub).Some?
    ensures HashLeaves(S.Removed(t, topic, sub).value)
  {
    var p := Split(topic).levels;
    var v := S.GrantsLeft(ValueAt(t, p, S.NOBODY), sub);
    forall f | Has(S.Removed(t, topic, sub).value, f) ensures Has(t, f) {
      CutEffect(t, p, v, S.Vacant, f);
    }
  }

  // ----- Runs of Subscribe and Unsubscribe -----

  datatype TopicOp =
    | SubscribeOp(topic: bytes, qos: byte, sub: Option<S.Subscription>)
    | UnsubscribeOp(topic: bytes, sub: Option<S.Subscription>)

  function TreeStep(t: Trie<S.Grants>, op: TopicOp): Trie<S.Grants>
  {
    match op
    case SubscribeOp(topic, qos, sub) =>
      if ValidQos(qos) && sub.Some? then S.Inserted(t, topic, qos, sub.value) else t
    case UnsubscribeOp(topic, sub) =>
      S.Removed(t, topic, sub).GetOr(t)
  }

  function TableStep(table: Table, op: TopicOp): Table
  {
    match op
    case SubscribeOp(topic, qos, sub) =>
      if ValidQos(qos) && sub.Some? then TableInsert(table, topic, qos, sub.value) else table
    case UnsubscribeOp(topic, sub) =>
      TableRemove(table, topic, sub)
  }

  function TreeRun(ops: seq<TopicOp>): Trie<S.Grants>
  {
    if ops == [] then Blank(S.NOBODY)
    else TreeStep(TreeRun(ops[..|ops| - 1]), ops[|ops| - 1])
  }

  function TableRun(ops: seq<TopicOp>): Table
  {
    if ops == [] then map[]
    else TableStep(TableRun(ops[..|ops| - 1]), ops[|ops| - 1])
  }

  lemma StepTabulates(t: Trie<S.Grants>, table: Table, op: TopicOp)
    requires Tabulates(t, table) && HashLeaves(t)
    ensures Tabulates(TreeStep(t, op), TableStep(table, op)) && HashLeaves(TreeStep(t, op))
  {
    match op
    case SubscribeOp(topic, qos, sub) =>
      if ValidQos(qos) && sub.Some? {
        InsertTabulates(t, table, topic, qos, sub.value);
        InsertHashLeaves(t, topic, qos, sub.value);
      }
    case UnsubscribeOp(topic, sub) =>
      RemoveTabulates(t, table, topic, sub);
      if S.Removed(t, topic, sub).Some? {
        RemoveHashLeaves(t, topic, sub);
      }
  }

  /** After any run the tree holds exactly the flat table's entries, and `#` nodes are leaves. */
  lemma {:induction false} RunTabulates(ops: seq<TopicOp>)
    ensures Tabulates(TreeRun(ops), TableRun(ops))
    ensures HashLeaves(TreeRun(ops))
  {
    if ops == [] {
      forall p ensures Find(TreeRun(ops), p) == if p == [] then Some(Blank(S.NOBODY)) else None {
        FindBlank(S.NOBODY, p);
      }
    } else {
      RunTabulates(ops[..|ops| - 1]);
      StepTabulates(TreeRun(ops[..|ops| - 1]), TableRun(ops[..|ops| - 1]), ops[|ops| - 1]);
    }
  }

  /** A failing Subscribe may leave empty nodes behind, but no entry changes. */
  lemma FailedInsertLeavesEmptyNodes(t: Trie<S.Grants>, topic: bytes, q: byte, sub: S.Subscription)
    requires !Split(topic).ok
    ensures forall e :: S.Subscribed(S.Inserted(t, topic, q, sub), e) <==> S.Subscribed(t, e)
    ensures forall p :: Has(S.Inserted(t, topic, q, sub), p) <==> Has(t, p) || p <= Split(topic).levels
  {
    var p := Split(topic).levels;
    forall f ensures ValueAt(S.Inserted(t, topic, q, sub), f, S.NOBODY) == ValueAt(t, f, S.NOBODY)
             ensures Has(S.Inserted(t, topic, q, sub), f) <==> Has(t, f) || f <= p
    {
      PutEffect(t, p, S.NOBODY, ValueAt(t, p, S.NOBODY), f);
    }
  }

  // ----- Retained messages as a map -----

  type Retention = map<Path, Publish>

  /** The retained side as a flat value: the messages by their levels, and the paths that have a
      node. A malformed topic leaves nodes without messages behind. */
  datatype Shelf = Shelf(kept: Retention, nodes: set<Path>)

  const EMPTY_SHELF: Shelf := Shelf(map[], {[]})

  ghost predicate Shelves(t: Trie<R.Kept>, s: Shelf)
  {
    && (forall q :: R.KeptAt(t, q) == if q in s.kept then Some(s.kept[q]) else None)
    && (forall q :: Has(t, q) <==> q in s.nodes)
  }

  /** A path on the way to `p`, other than the root, below which there is nothing off the way:
      clearing `p` leaves its node childless, and the pruning takes it along with its message. */
  predicate Doomed(nodes: set<Path>, p: Path, q: Path)
  {
    q != [] && q <= p && forall r :: r in nodes && q <= r ==> r <= p
  }

  function Prefixes(p: Path): set<Path>
  {
    set n | 0 <= n <= |p| :: p[..n]
  }

  lemma PrefixesAre(p: Path, q: Path)
    ensures q in Prefixes(p) <==> q <= p
  {
    if q <= p {
      assert p[..|q|] == q;
    }
  }

  function ShelfStore(s: Shelf, topic: bytes, msg: Publish): Shelf
  {
    var p := Split(topic);
    Shelf(if p.ok then s.kept[p.levels := msg] else s.kept, s.nodes + Prefixes(p.levels))
  }

  predicate Clearable(s: Shelf, topic: bytes)
  {
    Split(topic).ok && Split(topic).levels in s.nodes
  }

  function ShelfClear(s: Shelf, topic: bytes): Shelf
  {
    var p := Split(topic).levels;
    if Clearable(s, topic) then
      Shelf(map q | q in s.kept && q != p && !Doomed(s.nodes, p, q) :: s.kept[q],
            set q | q in s.nodes && !Doomed(s.nodes, p, q))
    else s
  }

  /** An empty payload clears the topic. */
  function ShelfStep(s: Shelf, msg: Publish): Shelf
  {
    if |msg.payload| == 0 then ShelfClear(s, msg.topicName) else ShelfStore(s, msg.topicName, msg)
  }

  lemma StoreEffect(t: Trie<R.Kept>, topic: bytes, msg: Publish, q: Path)
    ensures var p := Split(topic);
            && R.KeptAt(R.Stored(t, topic, msg), q) == (if p.ok && q == p.levels then Some(msg) else R.KeptAt(t, q))
            && (Has(R.Stored(t, topic, msg), q) <==> Has(t, q) || q <= p.levels)
  {
    var p := Split(topic);
    PutEffect(t, p.levels, None, if p.ok then Some(msg) else R.KeptAt(t, p.levels), q);
  }

  /** Clearing takes the message at the topic and the messages at doomed paths, and every other
      message stays. */
  lemma ClearEffect(t: Trie<R.Kept>, s: Shelf, topic: bytes, q: Path)
    requires Shelves(t, s) && R.Cleared(t, topic).Some?
    ensures var p, t' := Split(topic).levels, R.Cleared(t, topic).value;
            && R.KeptAt(t', q) == (if q == p || Doomed(s.nodes, p, q) then None else R.KeptAt(t, q))
            && (Has(t', q) <==> Has(t, q) && !Doomed(s.nodes, p, q))
  {
    var p := Split(topic).levels;
    CutEffect(t, p, None, R.Anything, q);
    assert Pruned(t, p, None, R.Anything, q) <==> Doomed(s.nodes, p, q);
  }

  /** The tree follows the flat value through every Retain. */
  lemma StoreShelves(t: Trie<R.Kept>, s: Shelf, topic: bytes, msg: Publish)
    requires Shelves(t, s)
    ensures Shelves(R.Stored(t, topic, msg), ShelfStore(s, topic, msg))
  {
    var t', s' := R.Stored(t, topic, msg), ShelfStore(s, topic, msg);
    forall q ensures R.KeptAt(t', q) == (if q in s'.kept then Some(s'.kept[q]) else None)
             ensures Has(t', q) <==> q in s'.nodes
    {
      StoreEffect(t, topic, msg, q);
      PrefixesAre(Split(topic).levels, q);
    }
  }

  lemma ClearShelves(t: Trie<R.Kept>, s: Shelf, topic: bytes)
    requires Shelves(t, s)
    ensures R.Cleared(t, topic).Some? <==> Clearable(s, topic)
    ensures Shelves(R.Cleared(t, topic).GetOr(t), ShelfClear(s, topic))
  {
    if Clearable(s, topic) {
      var t', s' := R.Cleared(t, topic).value, ShelfClear(s, topic);
      forall q ensures R.KeptAt(t', q) == (if q in s'.kept then Some(s'.kept[q]) else None)
               ensures Has(t', q) <==> q in s'.nodes
      {
        ClearEffect(t, s, topic, q);
      }
    }
  }

  /** Only a proper prefix of the cleared topic can be lost with it. */
  lemma ClearKeepsOthers(t: Trie<R.Kept>, s: Shelf, topic: bytes, q: Path)
    requires Shelves(t, s) && R.Cleared(t, topic).Some?
    requires !(q <= Split(topic).levels)
    ensures R.KeptAt(R.Cleared(t, topic).value, q) == R.KeptAt(t, q)
  {
    ClearEffect(t, s, topic, q);
  }

  lemma BlankShelves()
    ensures Shelves(Blank(None), EMPTY_SHELF)
  {
    forall q ensures Find<R.Kept>(Blank(None), q) == if q == [] then Some(Blank(None)) else None {
      FindBlank<R.Kept>(None, q);
    }
  }

  /** Retain `a` and `a/b`, then clear `a/b`: the message at `a` is gone too. */
  lemma ClearingLosesPrefix(m: Publish, n: Publish)
    ensures var a: bytes := [0x61];
            var ab: bytes := [0x61, 0x2F, 0x62];
            var t := R.Stored(R.Stored(Blank<R.Kept>(None), a, m), ab, n);
            R.KeptAt(t, [a]) == Some(m) && R.Cleared(t, ab).Some? && R.KeptAt(R.Cleared(t, ab).value, [a]) == None
  {
    var a: bytes := [0x61];
    var b: bytes := [0x62];
    var ab: bytes := [0x61, 0x2F, 0x62];
    FirstSepIs(a, 1);
    FirstSepIs(b, 1);
    FirstSepIs(ab, 1);
    assert ab[..1] == a && ab[2..] == b && a[..1] == a && b[..1] == b;
    assert Split([]) == Parsed([], true);
    assert Split(a) == Parsed([a], true) && Split(b) == Parsed([b], true);
    assert Split(ab) == Parsed([a, b], true);
    var t1, s1 := R.Stored(Blank<R.Kept>(None), a, m), ShelfStore(EMPTY_SHELF, a, m);
    var t, s := R.Stored(t1, ab, n), ShelfStore(s1, ab, n);
    BlankShelves();
    StoreShelves(Blank<R.Kept>(None), EMPTY_SHELF, a, m);
    StoreShelves(t1, s1, ab, n);
    forall p ensures p in s.nodes ==> p <= [a, b] {
      PrefixesAre([a], p);
      PrefixesAre([a, b], p);
    }
    PrefixesAre([a, b], [a, b]);
    ClearShelves(t, s, ab);
    ClearEffect(t, s, ab, [a]);
  }

  // ----- Runs of Retain -----

  function RetainStep(t: Trie<R.Kept>, msg: Publish): Trie<R.Kept>
  {
    if |msg.payload| == 0 then R.Cleared(t, msg.topicName).GetOr(t) else R.Stored(t, msg.topicName, msg)
  }

  function RetainRun(ms: seq<Publish>): Trie<R.Kept>
  {
    if ms == [] then Blank(None) else RetainStep(RetainRun(ms[..|ms| - 1]), ms[|ms| - 1])
  }

  function ShelfRun(ms: seq<Publish>): Shelf
  {
    if ms == [] then EMPTY_SHELF else ShelfStep(ShelfRun(ms[..|ms| - 1]), ms[|ms| - 1])
  }

  lemma {:induction false} RunShelves(ms: seq<Publish>)
    ensures Shelves(RetainRun(ms), ShelfRun(ms))
  {
    if ms == [] {
      BlankShelves();
    } else {
      var before, last := ms[..|ms| - 1], ms[|ms| - 1];
      RunShelves(before);
      if |last.payload| == 0 {
        ClearShelves(RetainRun(before), ShelfRun(before), last.topicName);
      } else {
        StoreShelves(RetainRun(before), ShelfRun(before), last.topicName, last);
      }
    }
  }

  predicate AddressedTo(msg: Publish, p: Path)
  {
    Split(msg.topicName).ok && Split(msg.topicName).levels == p
  }

  /** The last word on a topic: the last message sent to it, unless that had no payload. */
  function LastAt(ms: seq<Publish>, p: Path): Option<Publish>
  {
    if ms == [] then None
    else
      var last := ms[|ms| - 1];
      if AddressedTo(last, p) then (if |last.payload| == 0 then None else Some(last))
      else LastAt(ms[..|ms| - 1], p)
  }

  /** The i-th message clears a topic strictly below `p` and takes `p` along. */
  predicate TakesAlong(ms: seq<Publish>, i: nat, p: Path)
    requires i < |ms|
  {
    var s, c := ShelfRun(ms[..i]), ms[i].topicName;
    |ms[i].payload| == 0 && Clearable(s, c) && p < Split(c).levels && Doomed(s.nodes, Split(c).levels, p)
  }

  /** That happened after the last message to `p`. */
  ghost predicate Lost(ms: seq<Publish>, p: Path)
  {
    exists i :: 0 <= i < |ms| && TakesAlong(ms, i, p) && forall j :: i < j < |ms| ==> !AddressedTo(ms[j], p)
  }

  lemma TakesAlongBefore(ms: seq<Publish>, i: nat, p: Path)
    requires i < |ms| - 1
    ensures TakesAlong(ms[..|ms| - 1], i, p) <==> TakesAlong(ms, i, p)
  {
    assert ms[..|ms| - 1][..i] == ms[..i];
  }

  lemma LostStep(ms: seq<Publish>, p: Path)
    requires ms != []
    ensures Lost(ms, p) <==>
            TakesAlong(ms, |ms| - 1, p) || (!AddressedTo(ms[|ms| - 1], p) && Lost(ms[..|ms| - 1], p))
  {
    hide TakesAlong, AddressedTo;
    var before := ms[..|ms| - 1];
    forall i | 0 <= i < |before| ensures TakesAlong(before, i, p) <==> TakesAlong(ms, i, p) {
      TakesAlongBefore(ms, i, p);
    }
    assert forall j :: 0 <= j < |before| ==> before[j] == ms[j];
    if Lost(ms, p) && !TakesAlong(ms, |ms| - 1, p) {
      var i :| 0 <= i < |ms| && TakesAlong(ms, i, p) && forall j :: i < j < |ms| ==> !AddressedTo(ms[j], p);
      assert TakesAlong(before, i, p);
    }
  }

  /** Over any run of Retain, a topic keeps the last message sent to it exactly when there is none
      or it was not taken along by a later clear below; otherwise it keeps nothing. */
  lemma {:induction false} RetainedIsLast(ms: seq<Publish>, p: Path)
    ensures R.KeptAt(RetainRun(ms), p) == if Lost(ms, p) then None else LastAt(ms, p)
    ensures R.KeptAt(RetainRun(ms), p) == LastAt(ms, p) <==> LastAt(ms, p) == None || !Lost(ms, p)
  {
    if ms == [] {
      FindBlank<R.Kept>(None, p);
    } else {
      var before, last := ms[..|ms| - 1], ms[|ms| - 1];
      RetainedIsLast(before, p);
      LostStep(ms, p);
      RunShelves(before);
      if |last.payload| > 0 {
        StoreEffect(RetainRun(before), last.topicName, last, p);
      } else {
        ClearShelves(RetainRun(before), ShelfRun(before), last.topicName);
        if Clearable(ShelfRun(before), last.topicName) {
          ClearEffect(RetainRun(before), ShelfRun(before), last.topicName, p);
        }
      }
    }
  }

  // ----- Runs without malformed topics: the messages alone decide -----

  predicate StoresWellFormed(ms: seq<Publish>)
  {
    forall i :: 0 <= i < |ms| && |ms[i].payload| > 0 ==> Split(ms[i].topicName).ok
  }

  /** A message is retained at or below the path, or the path is the root. */
  predicate Reaches(kept: Retention, p: Path)
  {
    p == [] || exists r :: r in kept && p <= r
  }

  function KeptStep(kept: Retention, msg: Publish): Retention
  {
    var p := Split(msg.topicName);
    if !p.ok then kept
    else if |msg.payload| > 0 then kept[p.levels := msg]
    else if Reaches(kept, p.levels) then
      map q | q in kept && q != p.levels && !Doomed(kept.Keys, p.levels, q) :: kept[q]
    else kept
  }

  function KeptRun(ms: seq<Publish>): Retention
  {
    if ms == [] then map[] else KeptStep(KeptRun(ms[..|ms| - 1]), ms[|ms| - 1])
  }

  /** Every node but the root is there for a message at or below it. */
  ghost predicate Spanned(s: Shelf)
  {
    forall q :: q in s.nodes <==> Reaches(s.kept, q)
  }

  lemma DoomedByMessages(s: Shelf, p: Path, q: Path)
    requires Spanned(s)
    ensures Doomed(s.nodes, p, q) <==> Doomed(s.kept.Keys, p, q)
  {
    if Doomed(s.kept.Keys, p, q) {
      forall r | r in s.nodes && q <= r ensures r <= p {
        assert Reaches(s.kept, r);
        var m :| m in s.kept && r <= m;
        assert q <= m;
      }
    }
    if Doomed(s.nodes, p, q) {
      forall r | r in s.kept && q <= r ensures r <= p {
        assert Reaches(s.kept, r);
      }
    }
  }

  lemma StoreSpanned(s: Shelf, topic: bytes, msg: Publish)
    requires Spanned(s) && Split(topic).ok
    ensures Spanned(ShelfStore(s, topic, msg))
  {
    var p, s' := Split(topic).levels, ShelfStore(s, topic, msg);
    forall q ensures q in s'.nodes <==> Reaches(s'.kept, q) {
      PrefixesAre(p, q);
      if Reaches(s.kept, q) && q != [] {
        var r :| r in s.kept && q <= r;
        assert r in s'.kept;
      }
      assert p in s'.kept;
    }
  }

  /** A node that survives is there for a message that survives. */
  lemma SurvivorHasMessage(s: Shelf, p: Path, q: Path)
    requires Spanned(s) && q in s.nodes && q != [] && !Doomed(s.nodes, p, q)
    ensures exists m :: m in s.kept && q <= m && !(m <= p)
  {
    var r := q;
    if q <= p {
      r :| r in s.nodes && q <= r && !(r <= p);
    }
    assert Reaches(s.kept, r);
    var m :| m in s.kept && r <= m;
    assert q <= m && (m <= p ==> r <= p);
  }

  lemma MessageKeepsNodes(s: Shelf, p: Path, q: Path, m: Path)
    requires Spanned(s) && q != [] && q <= m && m in s.kept && m != p && !Doomed(s.nodes, p, m)
    ensures q in s.nodes && !Doomed(s.nodes, p, q)
  {
    assert Reaches(s.kept, m) && Reaches(s.kept, q);
    assert forall r :: r in s.nodes && m <= r ==> q <= r;
  }

  lemma ClearSpanned(s: Shelf, topic: bytes)
    requires Spanned(s) && Clearable(s, topic)
    ensures Spanned(ShelfClear(s, topic))
  {
    var p, s' := Split(topic).levels, ShelfClear(s, topic);
    forall q ensures q in s'.nodes <==> Reaches(s'.kept, q) {
      if q in s'.nodes && q != [] {
        SurvivorHasMessage(s, p, q);
        var m :| m in s.kept && q <= m && !(m <= p);
        assert m in s'.kept;
      }
      if Reaches(s'.kept, q) && q != [] {
        var m :| m in s'.kept && q <= m;
        MessageKeepsNodes(s, p, q, m);
      }
    }
  }

  /** A Retain that does not store under a malformed topic is a step of the map of messages alone:
      clearing a topic loses a message strictly above it exactly when no message off the way to the
      topic is retained at or below that one. */
  lemma WellFormedStep(s: Shelf, msg: Publish)
    requires Spanned(s) && (|msg.payload| > 0 ==> Split(msg.topicName).ok)
    ensures ShelfStep(s, msg).kept == KeptStep(s.kept, msg) && Spanned(ShelfStep(s, msg))
  {
    var p := Split(msg.topicName);
    if |msg.payload| > 0 {
      StoreSpanned(s, msg.topicName, msg);
    } else {
      assert p.ok ==> (p.levels in s.nodes <==> Reaches(s.kept, p.levels));
      if Clearable(s, msg.topicName) {
        ClearSpanned(s, msg.topicName);
        forall q ensures Doomed(s.nodes, p.levels, q) <==> Doomed(s.kept.Keys, p.levels, q) {
          DoomedByMessages(s, p.levels, q);
        }
      }
    }
  }

  /** So when no message with a payload has a malformed topic, the run of that map tells what the
      tree keeps. */
  lemma {:induction false} WellFormedRun(ms: seq<Publish>)
    requires StoresWellFormed(ms)
    ensures ShelfRun(ms).kept == KeptRun(ms) && Spanned(ShelfRun(ms))
    ensures forall p :: R.KeptAt(RetainRun(ms), p) == if p in KeptRun(ms) then Some(KeptRun(ms)[p]) else None
  {
    if ms != [] {
      WellFormedRun(ms[..|ms| - 1]);
      WellFormedStep(ShelfRun(ms[..|ms| - 1]), ms[|ms| - 1]);
    }
    RunShelves(ms);
  }

  // ----- The nodes of the subscription tree, and where a search is refused -----

  /** The subscription side as a flat value: the entries, and the paths that have a node. */
  datatype Roster = Roster(table: Table, nodes: set<Path>)

  const EMPTY_ROSTER: Roster := Roster(map[], {[]})

  ghost predicate Rosters(t: Trie<S.Grants>, r: Roster)
  {
    Tabulates(t, r.table) && forall q :: Has(t, q) <==> q in r.nodes
  }

  predicate Removable(r: Roster, topic: bytes, sub: Option<S.Subscription>)
  {
    var p := Split(topic);
    p.ok && p.levels in r.nodes && (sub.Some? ==> S.Entry(p.levels, sub.value) in r.table)
  }

  /** A path on the way to `p`, other than the root, below which there is nothing off the way, and
      nobody on it. */
  predicate Deserted(r: Roster, p: Path, q: Path)
  {
    && q != [] && q <= p
    && forall n :: n in r.nodes && q <= n ==> n <= p && forall e :: e in r.table ==> e.filter != n
  }

  function RosterStep(r: Roster, op: TopicOp): Roster
  {
    var table := TableStep(r.table, op);
    match op
    case SubscribeOp(topic, qos, sub) =>
      Roster(table, if ValidQos(qos) && sub.Some? then r.nodes + Prefixes(Split(topic).levels) else r.nodes)
    case UnsubscribeOp(topic, sub) =>
      Roster(table, if Removable(r, topic, sub)
                    then set q | q in r.nodes && !Deserted(r.(table := table), Split(topic).levels, q)
                    else r.nodes)
  }

  lemma InsertRosters(t: Trie<S.Grants>, r: Roster, topic: bytes, q: byte, sub: S.Subscription)
    requires Rosters(t, r) && ValidQos(q)
    ensures Rosters(S.Inserted(t, topic, q, sub), RosterStep(r, SubscribeOp(topic, q, Some(sub))))
  {
    var p := Split(topic);
    var here := ValueAt(t, p.levels, S.NOBODY);
    InsertTabulates(t, r.table, topic, q, sub);
    hide Tabulates, ValueAt;
    forall f ensures Has(S.Inserted(t, topic, q, sub), f) <==> f in r.nodes + Prefixes(p.levels) {
      PutEffect(t, p.levels, S.NOBODY, if p.ok then here[sub := q] else here, f);
      PrefixesAre(p.levels, f);
    }
  }

  lemma RemoveRosters(t: Trie<S.Grants>, r: Roster, topic: bytes, sub: Option<S.Subscription>)
    requires Rosters(t, r)
    ensures S.Removed(t, topic, sub).Some? <==> Removable(r, topic, sub)
    ensures Rosters(S.Removed(t, topic, sub).GetOr(t), RosterStep(r, UnsubscribeOp(topic, sub)))
  {
    RemoveTabulates(t, r.table, topic, sub);
    if Removable(r, topic, sub) {
      var p := Split(topic).levels;
      var v := S.GrantsLeft(ValueAt(t, p, S.NOBODY), sub);
      var r' := r.(table := TableRemove(r.table, topic, sub));
      forall f ensures Has(S.Removed(t, topic, sub).value, f) <==> f in r.nodes && !Deserted(r', p, f) {
        CutEffect(t, p, v, S.Vacant, f);
        PrunedIsDeserted(t, r, topic, sub, f);
      }
    }
  }

  /** A node is vacant once the value at the end is set exactly when no entry is left there. */
  lemma VacantHasNoEntry(t: Trie<S.Grants>, r: Roster, topic: bytes, sub: Option<S.Subscription>, n: Path)
    requires Rosters(t, r) && Removable(r, topic, sub) && n in r.nodes
    ensures var p := Split(topic).levels;
            var v := S.GrantsLeft(ValueAt(t, p, S.NOBODY), sub);
            S.Vacant(ValueAfter(t, p, v, n)) <==>
            forall e :: e in TableRemove(r.table, topic, sub) ==> e.filter != n
  {
    var p := Split(topic).levels;
    var g := ValueAfter(t, p, S.GrantsLeft(ValueAt(t, p, S.NOBODY), sub), n);
    var table := TableRemove(r.table, topic, sub);
    forall s ensures s in g <==> S.Entry(n, s) in table {
      assert S.Entry(n, s) in r.table <==> S.Subscribed(t, S.Entry(n, s));
    }
    if g != map[] {
      var s :| s in g;
      assert S.Entry(n, s) in table;
    }
    if e :| e in table && e.filter == n {
      assert e == S.Entry(n, e.sub);
    }
  }

  lemma PrunedIsDeserted(t: Trie<S.Grants>, r: Roster, topic: bytes, sub: Option<S.Subscription>, q: Path)
    requires Rosters(t, r) && Removable(r, topic, sub)
    ensures var p := Split(topic).levels;
            var v := S.GrantsLeft(ValueAt(t, p, S.NOBODY), sub);
            Pruned(t, p, v, S.Vacant, q) <==> Deserted(r.(table := TableRemove(r.table, topic, sub)), p, q)
  {
    forall n | n in r.nodes
      ensures S.Vacant(ValueAfter(t, Split(topic).levels,
                                  S.GrantsLeft(ValueAt(t, Split(topic).levels, S.NOBODY), sub), n))
              <==> forall e :: e in TableRemove(r.table, topic, sub) ==> e.filter != n
    {
      VacantHasNoEntry(t, r, topic, sub, n);
    }
    hide TableRemove, S.Vacant, ValueAfter, Split, Tabulates;
  }

  function RosterRun(ops: seq<TopicOp>): Roster
  {
    if ops == [] then EMPTY_ROSTER
    else RosterStep(RosterRun(ops[..|ops| - 1]), ops[|ops| - 1])
  }

  lemma BlankRosters()
    ensures Rosters(Blank(S.NOBODY), EMPTY_ROSTER)
  {
    forall q ensures Find<S.Grants>(Blank(S.NOBODY), q) == if q == [] then Some(Blank(S.NOBODY)) else None {
      FindBlank<S.Grants>(S.NOBODY, q);
    }
  }

  /** After any run the tree holds exactly the entries and nodes of the flat value. */
  lemma {:induction false} RunRosters(ops: seq<TopicOp>)
    ensures Rosters(TreeRun(ops), RosterRun(ops))
  {
    if ops == [] {
      BlankRosters();
    } else {
      var before, op := ops[..|ops| - 1], ops[|ops| - 1];
      RunRosters(before);
      match op
      case SubscribeOp(topic, qos, sub) =>
        if ValidQos(qos) && sub.Some? {
          InsertRosters(TreeRun(before), RosterRun(before), topic, qos, sub.value);
        }
      case UnsubscribeOp(topic, sub) =>
        RemoveRosters(TreeRun(before), RosterRun(before), topic, sub);
    }
  }

  /** A search for the subscribers of a topic runs into the malformed level that follows the levels
      `ls` when it can follow them: some node lies where they lead, by way of `+` or of themselves. */
  predicate Crosses(p: Path, ls: Path)
  {
    |p| == |ls| && forall i :: 0 <= i < |ls| ==> p[i] != MWC && (p[i] == SWC || p[i] == ls[i])
  }

  predicate RunsInto(nodes: set<Path>, ls: Path)
  {
    exists p :: p in nodes && Crosses(p, ls)
  }

  lemma {:induction false} BlocksByPath(t: Trie<S.Grants>, ls: Path)
    ensures S.Blocks(t, ls) <==> exists p :: Has(t, p) && Crosses(p, ls)
    decreases |ls|
  {
    if ls == [] {
      assert Has(t, []) && Crosses([], ls);
    } else {
      forall k | k in t.kids
        ensures S.Blocks(t.kids[k], ls[1..]) <==> exists p :: Has(t.kids[k], p) && Crosses(p, ls[1..])
      {
        BlocksByPath(t.kids[k], ls[1..]);
      }
      if S.Blocks(t, ls) {
        var k := if SWC in t.kids && S.Blocks(t.kids[SWC], ls[1..]) then SWC else ls[0];
        var p :| Has(t.kids[k], p) && Crosses(p, ls[1..]);
        assert ([k] + p)[1..] == p;
        assert Has(t, [k] + p) && Crosses([k] + p, ls);
      }
      if p :| Has(t, p) && Crosses(p, ls) {
        assert Has(t.kids[p[0]], p[1..]) && Crosses(p[1..], ls[1..]);
      }
    }
  }

  /** The same for a search for the messages that a filter matches: it follows `+` everywhere. */
  predicate CrossesKept(ls: Path, p: Path)
  {
    |p| == |ls| && forall i :: 0 <= i < |ls| ==> ls[i] == SWC || ls[i] == p[i]
  }

  lemma CrossesKeptIff(ls: Path)
    ensures forall p: Path :: CrossesKept(ls, p) <==>
                        |p| == |ls| && forall i :: 0 <= i < |ls| ==> ls[i] == [0x2B] || ls[i] == p[i]
  {
  }

  lemma {:induction false} BlocksKeptByPath(t: Trie<R.Kept>, ls: Path)
    ensures R.Blocks(t, ls) <==> exists p :: Has(t, p) && CrossesKept(ls, p)
    decreases |ls|
  {
    if ls == [] {
      assert Has(t, []) && CrossesKept(ls, []);
    } else {
      forall k | k in t.kids
        ensures R.Blocks(t.kids[k], ls[1..]) <==> exists p :: Has(t.kids[k], p) && CrossesKept(ls[1..], p)
      {
        BlocksKeptByPath(t.kids[k], ls[1..]);
      }
      if R.Blocks(t, ls) {
        var k :| k in t.kids && (ls[0] == SWC || k == ls[0]) && R.Blocks(t.kids[k], ls[1..]);
        var p :| Has(t.kids[k], p) && CrossesKept(ls[1..], p);
        assert ([k] + p)[1..] == p;
        assert Has(t, [k] + p) && CrossesKept(ls, [k] + p);
      }
      if p :| Has(t, p) && CrossesKept(ls, p) {
        assert Has(t.kids[p[0]], p[1..]) && CrossesKept(ls[1..], p[1..]);
      }
    }
  }

  // ----- The two directions of matching -----

  /** The table's entries that a topic matches. */
  function Matching(table: Table, topic: Path): map<S.Entry, S.Subscription>
  {
    map e | e in table && Match(e.filter, topic) :: e.sub
  }

  /** The retained messages that a filter matches. */
  function MatchingKept(kept: Retention, filter: Path): Retention
  {
    map p | p in kept && Match(filter, p) :: kept[p]
  }

  lemma FoundLists(t: Trie<S.Grants>, table: Table, topic: Path, found: seq<S.Entry>)
    requires Tabulates(t, table) && S.Finds(t, topic, found)
    ensures Lists(found, S.SubsOf(found), Matching(table, topic))
  {
  }

  lemma KeptLists(t: Trie<R.Kept>, s: Shelf, filter: Path, found: seq<Path>)
    requires Shelves(t, s) && R.Finds(t, filter, found)
    ensures Lists(found, R.MsgsOf(t, found), MatchingKept(s.kept, filter))
  {
  }

  /** Each message is kept at its own topic. */
  predicate OwnTopics(kept: Retention)
  {
    forall p :: p in kept ==> AddressedTo(kept[p], p)
  }

  /** No subscriber has two filters. */
  ghost predicate OwnFilters(table: Table)
  {
    forall d, e :: d in table && e in table && d.sub == e.sub ==> d == e
  }

  lemma ListsValue<K, V>(keys: seq<K>, vals: seq<V>, m: map<K, V>, v: V)
    requires Lists(keys, vals, m)
    ensures v in vals <==> exists k :: k in m && m[k] == v
  {
    if v in vals {
      var i :| 0 <= i < |vals| && vals[i] == v;
      assert keys[i] in m;
    }
    if k :| k in m && m[k] == v {
      var i :| 0 <= i < |keys| && keys[i] == k;
      assert vals[i] == v;
    }
  }

  /** For what Subscribers lists for the topic t and Retained lists for the filter f: the first
      has the subscriber of f exactly when the second has the message of t. */
  lemma ForwardAndReverseAgree(table: Table, kept: Retention, f: bytes, t: bytes, sub: S.Subscription,
                               found: seq<S.Entry>, subs: seq<S.Subscription>, paths: seq<Path>, msgs: seq<Publish>)
    requires OwnFilters(table) && OwnTopics(kept)
    requires S.Entry(Split(f).levels, sub) in table && Split(t).levels in kept
    requires Lists(found, subs, Matching(table, Split(t).levels))
    requires Lists(paths, msgs, MatchingKept(kept, Split(f).levels))
    ensures sub in subs <==> kept[Split(t).levels] in msgs
  {
    var fs, ts := Split(f).levels, Split(t).levels;
    var e := S.Entry(fs, sub);
    ListsValue(found, subs, Matching(table, ts), sub);
    ListsValue(paths, msgs, MatchingKept(kept, fs), kept[ts]);
    assert Match(fs, ts) ==> e in Matching(table, ts) && ts in MatchingKept(kept, fs);
    if p :| p in MatchingKept(kept, fs) && kept[p] == kept[ts] {
      assert AddressedTo(kept[p], p) && AddressedTo(kept[ts], ts);
    }
  }

  lemma StepKeepsTopics(s: Shelf, msg: Publish)
    requires OwnTopics(s.kept)
    ensures OwnTopics(ShelfStep(s, msg).kept)
  {
    hide Split, Doomed;
  }

  // ----- The index -----

  class Topics {
    var sroot: S.SNode
    var rroot: R.RNode
    ghost var table: Table
    ghost var nodes: set<Path>  // the paths that have a node in the subscription tree
    ghost var shelf: Shelf
    ghost var Repr: set<object>

    ghost predicate Valid()
      reads this, Repr
      ensures Valid() ==> this in Repr
    {
      && this in Repr
      && sroot in Repr && sroot.Repr <= Repr && this !in sroot.Repr && sroot.Valid()
      && rroot in Repr && rroot.Repr <= Repr && this !in rroot.Repr && rroot.Valid()
      && sroot.Repr !! rroot.Repr
      && Rosters(sroot.model, Roster(table, nodes)) && HashLeaves(sroot.model)
      && Shelves(rroot.model, shelf) && OwnTopics(shelf.kept)
    }

    constructor ()
      ensures Valid() && fresh(Repr)
      ensures Roster(table, nodes) == EMPTY_ROSTER && shelf == EMPTY_SHELF
    {
      sroot := new S.SNode();
      rroot := new R.RNode();
      table, nodes, shelf := map[], {[]}, EMPTY_SHELF;
      new;
      Repr := {this} + sroot.Repr + rroot.Repr;
      RunTabulates([]);
      assert sroot.model == TreeRun([]);
      BlankRosters();
      BlankShelves();
    }

    method Subscribe(topic: bytes, qos: byte, sub: Option<S.Subscription>) returns (code: byte, ok: bool)
      requires Valid()
      modifies Repr
      ensures Valid() && fresh(Repr - old(Repr))
      ensures ok <==> (qos == 0 || qos == 1 || qos == 2) && sub.Some? && Split(topic).ok
      ensures code == if ok then qos else 0x80
      ensures table == if ok then old(table)[S.Entry(Split(topic).levels, sub.value) := qos] else old(table)
      ensures table == TableStep(old(table), SubscribeOp(topic, qos, sub))
      ensures Roster(table, nodes) == RosterStep(Roster(old(table), old(nodes)), SubscribeOp(topic, qos, sub))
      ensures shelf == old(shelf)
    {
      if !ValidQos(qos) {
        return QOS_FAILURE, false;
      }
      if sub.None? {
        return QOS_FAILURE, false;
      }
      ok := Insert(topic, qos, sub.value);
      code := if ok then qos else QOS_FAILURE;
    }

    method Insert(topic: bytes, qos: byte, sub: S.Subscription) returns (ok: bool)
      requires Valid() && ValidQos(qos)
      modifies Repr
      ensures Valid() && fresh(Repr - old(Repr))
      ensures ok == Split(topic).ok
      ensures Roster(table, nodes) == RosterStep(Roster(old(table), old(nodes)), SubscribeOp(topic, qos, Some(sub)))
      ensures shelf == old(shelf)
    {
      hide Rosters, HashLeaves, Shelves, OwnTopics, RosterStep, S.Inserted, Split;
      ghost var r := RosterStep(Roster(table, nodes), SubscribeOp(topic, qos, Some(sub)));
      InsertRosters(sroot.model, Roster(table, nodes), topic, qos, sub);
      InsertHashLeaves(sroot.model, topic, qos, sub);
      ok := sroot.Insert(topic, qos, sub);
      Repr := Repr + sroot.Repr;
      table, nodes := r.table, r.nodes;
    }

    method Unsubscribe(topic: bytes, sub: Option<S.Subscription>) returns (ok: bool)
      requires Valid()
      modifies Repr
      ensures Valid() && fresh(Repr - old(Repr))
      ensures ok <==> Removable(Roster(old(table), old(nodes)), topic, sub)
      ensures table == TableRemove(old(table), topic, sub)
      ensures Roster(table, nodes) == RosterStep(Roster(old(table), old(nodes)), UnsubscribeOp(topic, sub))
      ensures shelf == old(shelf)
    {
      hide Rosters, HashLeaves, Shelves, OwnTopics, RosterStep, TableRemove, Removable, S.Removed, Split;
      RemoveSteps(topic, sub);
      ghost var r := RosterStep(Roster(table, nodes), UnsubscribeOp(topic, sub));
      ok := sroot.Remove(topic, sub);
      Repr := Repr + sroot.Repr;
      table, nodes := r.table, r.nodes;
    }

    lemma RemoveSteps(topic: bytes, sub: Option<S.Subscription>)
      requires Valid()
      ensures var r := Roster(table, nodes);
              var r' := RosterStep(r, UnsubscribeOp(topic, sub));
              var t' := S.Removed(sroot.model, topic, sub).GetOr(sroot.model);
              && (S.Removed(sroot.model, topic, sub).Some? <==> Removable(r, topic, sub))
              && Rosters(t', r') && HashLeaves(t') && r'.table == TableRemove(table, topic, sub)
    {
      hide Rosters, HashLeaves, Removable, S.Removed, Shelves, OwnTopics;
      RemoveRosters(sroot.model, Roster(table, nodes), topic, sub);
      if S.Removed(sroot.model, topic, sub).Some? {
        RemoveHashLeaves(sroot.model, topic, sub);
      }
    }

    /** Who is subscribed to a topic: every matching entry of the table once, in any order, and
        the published QoS for each. A malformed topic is refused only when the search gets as
        far as the malformed level. */
    method Subscribers(topic: bytes, qos: byte, out: S.Collector) returns (ok: bool, ghost found: seq<S.Entry>)
      requires Valid() && out !in Repr
      modifies out
      ensures ok <==> (qos == 0 || qos == 1 || qos == 2) && (Split(topic).ok || !RunsInto(nodes, Split(topic).levels))
      ensures ok ==> Lists(found, out.subs, Matching(table, Split(topic).levels))
      ensures ok ==> |out.subs| == |Matching(table, Split(topic).levels)|
      ensures ok ==> out.qoss == seq(|out.subs|, i => qos)
      ensures qos > 2 ==> out.subs == old(out.subs) && out.qoss == old(out.qoss)
    {
      if !ValidQos(qos) {
        return false, [];
      }
      BlocksByPath(sroot.model, Split(topic).levels);
      out.subs := [];
      out.qoss := [];
      ok, found := sroot.Smatch(topic, qos, out);
      if ok {
        FoundLists(sroot.model, table, Split(topic).levels, found);
        assert out.subs == S.SubsOf(found);
        ListsLength(found, out.subs, Matching(table, Split(topic).levels));
      }
    }

    /** Keep a message; an empty payload clears the topic instead. */
    method Retain(msg: Publish) returns (ok: bool)
      requires Valid()
      modifies Repr
      ensures Valid() && fresh(Repr - old(Repr))
      ensures table == old(table) && nodes == old(nodes) && sroot.model == old(sroot.model)
      ensures ok == if |msg.payload| == 0 then Clearable(old(shelf), msg.topicName) else Split(msg.topicName).ok
      ensures shelf == ShelfStep(old(shelf), msg)
    {
      hide Rosters, HashLeaves, Shelves, OwnTopics, ShelfStore, ShelfClear, Clearable, R.Cleared, R.Stored;
      StepKeepsTopics(shelf, msg);
      if |msg.payload| == 0 {
        ClearShelves(rroot.model, shelf, msg.topicName);
        ok := rroot.Remove(msg.topicName);
      } else {
        StoreShelves(rroot.model, shelf, msg.topicName, msg);
        ok := rroot.InsertOrUpdate(msg.topicName, msg);
      }
      Repr := Repr + rroot.Repr;
      shelf := ShelfStep(shelf, msg);
    }

    /** The retained messages a filter matches, each once, in any order, appended. */
    method Retained(topic: bytes, out: R.Collector) returns (ok: bool, ghost found: seq<Path>, ghost got: seq<Publish>)
      requires Valid() && out !in Repr
      modifies out
      ensures var f := Split(topic);
              ok <==> f.ok ||
                      !exists p :: p in shelf.nodes && |p| == |f.levels| &&
                                   forall i :: 0 <= i < |p| ==> f.levels[i] == [0x2B] || f.levels[i] == p[i]
      ensures ok ==> out.msgs == old(out.msgs) + got
      ensures ok ==> Lists(found, got, MatchingKept(shelf.kept, Split(topic).levels))
    {
      BlocksKeptByPath(rroot.model, Split(topic).levels);
      CrossesKeptIff(Split(topic).levels);
      ok, found := rroot.Rmatch(topic, out);
      got := [];
      if ok {
        got := R.MsgsOf(rroot.model, found);
        KeptLists(rroot.model, shelf, Split(topic).levels, found);
      }
    }
  }
}
