/** The subscription tree: nodes changed in place, proved against level-tree values. */
module SubscriptionTree {
  import opened Bytes
  import opened TopicLevels
  import opened Trie

  /** A subscriber. The broker compares subscribers by pointer; `ptr` is that pointer. */
  datatype Subscription = Subscription(ptr: nat, client: bytes, topic: bytes, qos: byte)

  /** What a node grants: the QoS of each of its subscribers. */
  type Grants = map<Subscription, byte>

  const NOBODY: Grants := map[]

  // ----- The two parallel slices of a node -----

  ghost predicate Parallel(subs: seq<Subscription>, qos: seq<byte>)
  {
    |subs| == |qos| && Distinct(subs)
  }

  function IndexOf(subs: seq<Subscription>, s: Subscription): (i: nat)
    requires s in subs
    ensures i < |subs| && subs[i] == s
  {
    if subs[0] == s then 0 else 1 + IndexOf(subs[1..], s)
  }

  function GrantsOf(subs: seq<Subscription>, qos: seq<byte>): Grants
    requires Parallel(subs, qos)
  {
    map s | s in subs :: qos[IndexOf(subs, s)]
  }

  lemma GrantsUpdate(subs: seq<Subscription>, qos: seq<byte>, i: nat, q: byte)
    requires Parallel(subs, qos) && i < |subs|
    ensures GrantsOf(subs, qos[i := q]) == GrantsOf(subs, qos)[subs[i] := q]
  {
  }

  lemma GrantsAppend(subs: seq<Subscription>, qos: seq<byte>, s: Subscription, q: byte)
    requires Parallel(subs, qos) && s !in subs
    ensures Parallel(subs + [s], qos + [q])
    ensures GrantsOf(subs + [s], qos + [q]) == GrantsOf(subs, qos)[s := q]
  {
    var subs', qos' := subs + [s], qos + [q];
    forall x | x in subs' ensures qos'[IndexOf(subs', x)] == GrantsOf(subs, qos)[s := q][x] {
      if x != s {
        assert subs'[IndexOf(subs, x)] == x;
      }
    }
    assert subs'[|subs|] == s;
  }

  lemma ParallelDelete(subs: seq<Subscription>, qos: seq<byte>, i: nat)
    requires Parallel(subs, qos) && i < |subs|
    ensures Parallel(subs[..i] + subs[i + 1..], qos[..i] + qos[i + 1..])
  {
    var subs' := subs[..i] + subs[i + 1..];
    forall a, b | 0 <= a < b < |subs'| ensures subs'[a] != subs'[b] {
      assert subs'[a] == subs[if a < i then a else a + 1];
      assert subs'[b] == subs[if b < i then b else b + 1];
    }
  }

  lemma DeleteKeeps(subs: seq<Subscription>, qos: seq<byte>, i: nat, x: Subscription)
    requires Parallel(subs, qos) && i < |subs|
    ensures x in subs[..i] + subs[i + 1..] <==> x in subs && x != subs[i]
  {
    var subs' := subs[..i] + subs[i + 1..];
    if x in subs' {
      var a :| 0 <= a < |subs'| && subs'[a] == x;
      assert x == subs[if a < i then a else a + 1];
    }
    if x in subs && x != subs[i] {
      var a := IndexOf(subs, x);
      assert x == subs'[if a < i then a else a - 1];
    }
  }

  /** Who stays keeps the QoS. */
  lemma DeleteKeepsQos(subs: seq<Subscription>, qos: seq<byte>, i: nat, x: Subscription)
    requires Parallel(subs, qos) && i < |subs| && x in subs && x != subs[i]
    ensures x in subs[..i] + subs[i + 1..]
    ensures (qos[..i] + qos[i + 1..])[IndexOf(subs[..i] + subs[i + 1..], x)] == qos[IndexOf(subs, x)]
  {
    DeleteKeeps(subs, qos, i, x);
    hide IndexOf;
    var j := IndexOf(subs[..i] + subs[i + 1..], x);
    assert subs[if j < i then j else j + 1] == x;
  }

  lemma GrantsAt(subs: seq<Subscription>, qos: seq<byte>, x: Subscription)
    requires Parallel(subs, qos)
    ensures x in GrantsOf(subs, qos) <==> x in subs
    ensures x in subs ==> GrantsOf(subs, qos)[x] == qos[IndexOf(subs, x)]
  {
  }

  lemma GrantsDelete(subs: seq<Subscription>, qos: seq<byte>, i: nat)
    requires Parallel(subs, qos) && i < |subs|
    ensures Parallel(subs[..i] + subs[i + 1..], qos[..i] + qos[i + 1..])
    ensures GrantsOf(subs[..i] + subs[i + 1..], qos[..i] + qos[i + 1..]) == GrantsOf(subs, qos) - {subs[i]}
  {
    ParallelDelete(subs, qos, i);
    hide Parallel, IndexOf, GrantsOf;
    var subs', qos' := subs[..i] + subs[i + 1..], qos[..i] + qos[i + 1..];
    var g, g' := GrantsOf(subs, qos), GrantsOf(subs', qos');
    forall x ensures x in g' <==> x in g && x != subs[i]
             ensures x in g' ==> g'[x] == g[x]
    {
      GrantsAt(subs, qos, x);
      GrantsAt(subs', qos', x);
      DeleteKeeps(subs, qos, i, x);
      if x in g' {
        DeleteKeepsQos(subs, qos, i, x);
      }
    }
  }

  // ----- The tree operations on values -----

  function Inserted(t: Trie<Grants>, topic: bytes, q: byte, sub: Subscription): Trie<Grants>
  {
    var p := Split(topic);
    var here := ValueAt(t, p.levels, NOBODY);
    Put(t, p.levels, NOBODY, if p.ok then here[sub := q] else here)
  }

  predicate Vacant(g: Grants) { |g| == 0 }

  /** Without a subscriber, everyone leaves. */
  function GrantsLeft(g: Grants, sub: Option<Subscription>): Grants
  {
    match sub case None => NOBODY case Some(s) => g - {s}
  }

  /** The tree after a removal, or nothing when there is no such path or subscriber. */
  function Removed(t: Trie<Grants>, topic: bytes, sub: Option<Subscription>): Option<Trie<Grants>>
  {
    var p := Split(topic);
    var here := ValueAt(t, p.levels, NOBODY);
    if p.ok && Has(t, p.levels) && (sub.Some? ==> sub.value in here)
    then Some(Cut(t, p.levels, GrantsLeft(here, sub), Vacant))
    else None
  }

  lemma RemovedStep(t: Trie<Grants>, topic: bytes, sub: Option<Subscription>)
    ensures Removed(t, topic, sub) ==
            if topic == [] then
              if sub.Some? && sub.value !in t.val then None else Some(t.(val := GrantsLeft(t.val, sub)))
            else match NextLevel(topic)
              case Malformed => None
              case Next(l, rest) =>
                if l !in t.kids || Removed(t.kids[l], rest, sub).None? then None
                else Some(Hang(t, l, Removed(t.kids[l], rest, sub).value, Vacant))
  {
    if topic != [] && NextLevel(topic).Next? {
      var l, rest := NextLevel(topic).level, NextLevel(topic).rest;
      var p := Split(rest).levels;
      assert ([l] + p)[1..] == p;
    }
  }

  lemma InsertedStep(t: Trie<Grants>, topic: bytes, q: byte, sub: Subscription)
    ensures Inserted(t, topic, q, sub) ==
            if topic == [] then t.(val := t.val[sub := q])
            else match NextLevel(topic)
              case Malformed => t
              case Next(l, rest) => t.(kids := t.kids[l := Inserted(KidOr(t, l, NOBODY), rest, q, sub)])
  {
    if topic != [] && NextLevel(topic).Next? {
      var l, rest := NextLevel(topic).level, NextLevel(topic).rest;
      var p := Split(rest).levels;
      assert ([l] + p)[1..] == p;
      FindBlank(NOBODY, p);
    }
  }

  // ----- What a search must find -----

  /** A subscription as the tree stores it: who sits at the end of which levels. */
  datatype Entry = Entry(filter: Path, sub: Subscription)

  predicate Subscribed(t: Trie<Grants>, e: Entry)
  {
    e.sub in ValueAt(t, e.filter, NOBODY)
  }

  /** `found` names each stored entry that matches `ls` once, and nothing else. */
  ghost predicate Finds(t: Trie<Grants>, ls: Path, found: seq<Entry>)
  {
    && Distinct(found)
    && forall e :: e in found <==> Subscribed(t, e) && Match(e.filter, ls)
  }

  /** The same for the entries below the children at the levels `done`. */
  ghost predicate FindsBelow(t: Trie<Grants>, ls: Path, done: set<Level>, found: seq<Entry>)
  {
    && Distinct(found)
    && forall e :: e in found <==>
                   Subscribed(t, e) && Match(e.filter, ls) && e.filter != [] && e.filter[0] in done
  }

  function SubsOf(found: seq<Entry>): (r: seq<Subscription>)
  {
    seq(|found|, i requires 0 <= i < |found| => found[i].sub)
  }

  function Under(k: Level, found: seq<Entry>): seq<Entry>
  {
    seq(|found|, i requires 0 <= i < |found| => Entry([k] + found[i].filter, found[i].sub))
  }

  function Own(f: Path, subs: seq<Subscription>): seq<Entry>
  {
    seq(|subs|, i requires 0 <= i < |subs| => Entry(f, subs[i]))
  }

  /** The search runs into the malformed level that follows the levels `ls`. */
  predicate Blocks<V>(t: Trie<V>, ls: Path)
    decreases |ls|
  {
    ls == [] ||
    (SWC in t.kids && Blocks(t.kids[SWC], ls[1..])) ||
    (ls[0] != MWC && ls[0] in t.kids && Blocks(t.kids[ls[0]], ls[1..]))
  }

  /** No child in `done` that lies on the way runs into a malformed level. */
  ghost predicate Unblocked(t: Trie<Grants>, ls: Path, wellFormed: bool, done: set<Level>)
    requires ls != []
  {
    wellFormed ||
    forall k :: k in done && k in t.kids && OnTheWay(ls[0], k) ==> !Blocks(t.kids[k], ls[1..])
  }

  lemma BlocksBelow(t: Trie<Grants>, ls: Path, k: Level)
    requires ls != [] && k in t.kids && OnTheWay(ls[0], k) && Blocks(t.kids[k], ls[1..])
    ensures Blocks(t, ls)
  {
  }

  predicate OnTheWay(level: Level, k: Level)
  {
    k != MWC && (k == SWC || k == level)
  }

  lemma UnderMembers(k: Level, found: seq<Entry>, e: Entry)
    ensures e in Under(k, found) <==> e.filter != [] && e.filter[0] == k && Entry(e.filter[1..], e.sub) in found
  {
    if e in Under(k, found) {
      var i :| 0 <= i < |found| && Under(k, found)[i] == e;
      assert found[i] == Entry(e.filter[1..], e.sub);
    }
    if e.filter != [] && e.filter[0] == k && Entry(e.filter[1..], e.sub) in found {
      var i :| 0 <= i < |found| && found[i] == Entry(e.filter[1..], e.sub);
      assert Under(k, found)[i] == e;
    }
  }

  lemma UnderDistinct(k: Level, found: seq<Entry>)
    requires Distinct(found)
    ensures Distinct(Under(k, found))
  {
    var u := Under(k, found);
    forall i, j | 0 <= i < j < |u| ensures u[i] != u[j] {
      assert u[i].filter[1..] == found[i].filter && u[j].filter[1..] == found[j].filter;
    }
  }

  /** A child on the way was searched. */
  lemma FoundInKid(t: Trie<Grants>, ls: Path, done: set<Level>, k: Level, found: seq<Entry>, more: seq<Entry>)
    requires FindsBelow(t, ls, done, found) && ls != []
    requires k in t.kids && k !in done && k != MWC && (k == SWC || k == ls[0])
    requires Finds(t.kids[k], ls[1..], more)
    ensures FindsBelow(t, ls, done + {k}, found + Under(k, more))
  {
    UnderDistinct(k, more);
    forall e ensures e in Under(k, more) <==>
                       Subscribed(t, e) && Match(e.filter, ls) && e.filter != [] && e.filter[0] == k
    {
      UnderMembers(k, more, e);
    }
    DistinctConcat(found, Under(k, more));
  }

  /** The subscribers at `#` were taken. */
  lemma FoundAtHash(t: Trie<Grants>, ls: Path, done: set<Level>, found: seq<Entry>, subs: seq<Subscription>)
    requires FindsBelow(t, ls, done, found) && MWC !in done
    requires MWC in t.kids && Distinct(subs) && forall s :: s in subs <==> s in t.kids[MWC].val
    ensures FindsBelow(t, ls, done + {MWC}, found + Own([MWC], subs))
  {
    var own := Own([MWC], subs);
    assert Find(t, [MWC]) == Find(t.kids[MWC], []);
    forall e ensures e in own <==>
                       Subscribed(t, e) && Match(e.filter, ls) && e.filter != [] && e.filter[0] == MWC
    {
      if e in own {
        var i :| 0 <= i < |own| && own[i] == e;
        assert e.sub in subs;
      }
      if Subscribed(t, e) && e.filter == [MWC] {
        var i :| 0 <= i < |subs| && subs[i] == e.sub;
        assert own[i] == e;
      }
    }
    assert Distinct(own);
    DistinctConcat(found, own);
  }

  /** A child off the way holds nothing that matches. */
  lemma NothingInKid(t: Trie<Grants>, ls: Path, done: set<Level>, k: Level, found: seq<Entry>)
    requires FindsBelow(t, ls, done, found) && ls != []
    requires k != MWC && k != SWC && k != ls[0]
    ensures FindsBelow(t, ls, done + {k}, found)
  {
  }

  /** The two slices a search appends to through pointers. */
  class Collector {
    var subs: seq<Subscription>
    var qoss: seq<byte>

    constructor ()
      ensures subs == [] && qoss == []
    {
      subs, qoss := [], [];
    }
  }

  /** What has been appended for `found`: each subscriber, with the published QoS. */
  ghost predicate Took(out: Collector, q: byte, subs0: seq<Subscription>, qoss0: seq<byte>, found: seq<Entry>)
    reads out
  {
    && out.subs == subs0 + SubsOf(found)
    && out.qoss == qoss0 + seq(|found|, i => q)
  }

  lemma NothingYet(t: Trie<Grants>, ls: Path, wellFormed: bool, out: Collector, q: byte)
    requires ls != []
    ensures FindsBelow(t, ls, {}, []) && Unblocked(t, ls, wellFormed, {}) && Took(out, q, out.subs, out.qoss, [])
  {
  }

  lemma TookMore(out: Collector, q: byte, subs0: seq<Subscription>, qoss0: seq<byte>, found: seq<Entry>,
                 subs1: seq<Subscription>, qoss1: seq<byte>, more: seq<Entry>)
    requires subs1 == subs0 + SubsOf(found) && qoss1 == qoss0 + seq(|found|, i => q)
    requires Took(out, q, subs1, qoss1, more)
    ensures Took(out, q, subs0, qoss0, found + more)
  {
    assert SubsOf(found + more) == SubsOf(found) + SubsOf(more);
  }

  class SNode {
    var subs: seq<Subscription>
    var qos: seq<byte>
    var nodes: map<Level, SNode>
    ghost var model: Trie<Grants>
    ghost var Below: set<object>  // what the children use
    ghost var Repr: set<object>

    ghost predicate Valid()
      reads this, Repr
      ensures Valid() ==> this in Repr && nodes.Keys == model.kids.Keys
      decreases Repr, 0
    {
      && Repr == Below + {this} && this !in Below
      && Parallel(subs, qos) && model.val == GrantsOf(subs, qos)
      && Forest(nodes, model.kids, Below)
    }

    constructor ()
      ensures Valid() && fresh(Repr)
      ensures model == Blank(NOBODY)
    {
      subs, qos, nodes := [], [], map[];
      model := Blank(NOBODY);
      Below, Repr := {}, {this};
    }

    /** Update the QoS of a subscriber that is already on the list, or add it. */
    method InsertHere(q: byte, sub: Subscription)
      requires Valid()
      modifies this`subs, this`qos, this`model
      ensures Valid()
      ensures model == old(model).(val := old(model).val[sub := q])
    {
      model := model.(val := model.val[sub := q]);
      var i := 0;
      while i < |subs|
        invariant 0 <= i <= |subs| && sub !in subs[..i]
      {
        if subs[i] == sub {
          GrantsUpdate(subs, qos, i, q);
          qos := qos[i := q];
          return;
        }
        i := i + 1;
      }
      GrantsAppend(subs, qos, sub, q);
      subs := subs + [sub];
      qos := qos + [q];
    }

    method Insert(topic: bytes, q: byte, sub: Subscription) returns (ok: bool)
      requires Valid()
      modifies Repr
      ensures Valid() && fresh(Repr - old(Repr))
      ensures ok == Split(topic).ok
      ensures model == Inserted(old(model), topic, q, sub)
      decreases |topic|, 0
    {
      InsertedStep(model, topic, q, sub);
      if |topic| == 0 {
        InsertHere(q, sub);
        return true;
      }
      var next := NextTopicLevel(topic);
      if next.Malformed? {
        return false;
      }
      StepShrinks(topic);
      ok := Descend(next.level, next.rest, q, sub);
    }

    /** Find or create the child at a level; `room` is what the other children use. */
    method Child(level: Level) returns (n: SNode, ghost room: set<object>)
      requires Valid()
      modifies this`nodes
      ensures n.Valid() && n.model == KidOr(model, level, NOBODY)
      ensures room <= Below && n.Repr !! room && this !in n.Repr && fresh(n.Repr - Repr)
      ensures level in nodes && nodes[level] == n
      ensures Forest(nodes - {level}, model.kids - {level}, room)
    {
      room := Below;
      if level in nodes {
        n := nodes[level];
        ForestSplit(nodes, model.kids, room, level);
        room := room - n.Repr;
      } else {
        n := new SNode();
        assert nodes - {level} == nodes && model.kids - {level} == model.kids;
        nodes := nodes[level := n];
        assert nodes - {level} == old(nodes);
      }
    }

    /** Insert below the child at a level, which is created when it is missing. */
    method Descend(level: Level, rest: bytes, q: byte, sub: Subscription) returns (ok: bool)
      requires Valid()
      modifies Repr
      ensures Valid() && fresh(Repr - old(Repr))
      ensures ok == Split(rest).ok
      ensures model ==
              old(model).(kids := old(model).kids[level := Inserted(KidOr(old(model), level, NOBODY), rest, q, sub)])
      decreases |rest|, 1
    {
      var n;
      ghost var room;
      n, room := Child(level);
      ok := n.Insert(rest, q, sub);
      Reattach(level, room);
    }

    /** Take a subscriber off both lists, or empty them. */
    method RemoveHere(sub: Option<Subscription>) returns (ok: bool)
      requires Valid()
      modifies this`subs, this`qos, this`model
      ensures Valid()
      ensures ok == (sub.Some? ==> sub.value in old(model).val)
      ensures model == if ok then old(model).(val := GrantsLeft(old(model).val, sub)) else old(model)
    {
      if sub.None? {
        subs, qos := [], [];
        model := model.(val := NOBODY);
        return true;
      }
      var i := 0;
      while i < |subs|
        invariant 0 <= i <= |subs| && sub.value !in subs[..i]
      {
        if subs[i] == sub.value {
          GrantsDelete(subs, qos, i);
          subs := subs[..i] + subs[i + 1..];
          qos := qos[..i] + qos[i + 1..];
          model := model.(val := model.val - {sub.value});
          return true;
        }
        i := i + 1;
      }
      return false;
    }

    method Remove(topic: bytes, sub: Option<Subscription>) returns (ok: bool)
      requires Valid()
      modifies Repr
      ensures Valid() && fresh(Repr - old(Repr))
      ensures ok == Removed(old(model), topic, sub).Some?
      ensures model == if ok then Removed(old(model), topic, sub).value else old(model)
      decreases |topic|, 0
    {
      RemovedStep(model, topic, sub);
      hide *;
      if |topic| == 0 {
        ok := RemoveHere(sub);
        return;
      }
      var next := NextTopicLevel(topic);
      if next.Malformed? {
        return false;
      }
      if next.level !in nodes {
        return false;
      }
      StepShrinks(topic);
      ok := RemoveBelow(next.level, next.rest, sub);
    }

    /** Remove below the child at a level, and drop the child when nothing is left of it. */
    method RemoveBelow(level: Level, rest: bytes, sub: Option<Subscription>) returns (ok: bool)
      requires Valid() && level in nodes
      modifies Repr
      ensures Valid() && fresh(Repr - old(Repr))
      ensures ok == Removed(old(model).kids[level], rest, sub).Some?
      ensures model == if ok then Hang(old(model), level, Removed(old(model).kids[level], rest, sub).value, Vacant)
                       else old(model)
      decreases |rest|, 1
    {
      var n := nodes[level];
      ghost var room := Below - n.Repr;
      ForestSplit(nodes, model.kids, Below, level);
      ok := n.Remove(rest, sub);
      if ok {
        Prune(level, room);
      } else {
        Reattach(level, room);
        assert model.kids == old(model.kids);
      }
    }

    /** Delete the child at a level when it has neither subscribers nor children. */
    method Prune(level: Level, ghost room: set<object>)
      requires Parallel(subs, qos) && model.val == GrantsOf(subs, qos)
      requires level in nodes && nodes[level].Valid() && this !in nodes[level].Repr
      requires this !in room && nodes[level].Repr !! room
      requires Forest(nodes - {level}, model.kids - {level}, room)
      modifies this`nodes, this`Below, this`Repr, this`model
      ensures Valid() && Repr <= {this} + room + old(nodes[level].Repr)
      ensures model == Hang(old(model), level, old(nodes[level].model), Vacant)
    {
      Bare(nodes[level]);
      if |nodes[level].subs| == 0 && |nodes[level].nodes| == 0 {
        Drop(level, room);
      } else {
        Reattach(level, room);
      }
    }

    method Drop(level: Level, ghost room: set<object>)
      requires Parallel(subs, qos) && model.val == GrantsOf(subs, qos)
      requires this !in room && Forest(nodes - {level}, model.kids - {level}, room)
      modifies this`nodes, this`Below, this`Repr, this`model
      ensures Valid() && Repr == room + {this}
      ensures model == old(model).(kids := old(model).kids - {level})
    {
      hide Forest, Parallel, GrantsOf;
      nodes := nodes - {level};
      Below, Repr := room, room + {this};
      model := model.(kids := model.kids - {level});
    }

    method MatchQos(q: byte, out: Collector)
      modifies out
      ensures out.subs == old(out.subs) + subs
      ensures out.qoss == old(out.qoss) + seq(|subs|, i => q)
    {
      var i := 0;
      while i < |subs|
        invariant 0 <= i <= |subs|
        invariant out.subs == old(out.subs) + subs[..i]
        invariant out.qoss == old(out.qoss) + seq(i, j => q)
      {
        out.subs := out.subs + [subs[i]];
        out.qoss := out.qoss + [q];
        i := i + 1;
      }
      assert subs[..i] == subs;
    }

    method Smatch(topic: bytes, q: byte, out: Collector) returns (ok: bool, ghost found: seq<Entry>)
      requires Valid() && out !in Repr
      modifies out
      ensures ok <==> Split(topic).ok || !Blocks(model, Split(topic).levels)
      ensures ok ==> Finds(model, Split(topic).levels, found)
      ensures Took(out, q, old(out.subs), old(out.qoss), found)
      decreases |topic|, 0
    {
      found := [];
      if |topic| == 0 {
        found := SmatchHere(q, out);
        return true, found;
      }
      var next := NextTopicLevel(topic);
      if next.Malformed? {
        return false, found;
      }
      StepShrinks(topic);
      ok, found := SmatchKids(next.level, next.rest, q, out);
      assert Split(topic).levels[1..] == Split(next.rest).levels;
    }

    /** Nothing is left of the topic: take the subscribers here, and those at `#`. */
    method SmatchHere(q: byte, out: Collector) returns (ghost found: seq<Entry>)
      requires Valid() && out !in Repr
      modifies out
      ensures Finds(model, [], found)
      ensures Took(out, q, old(out.subs), old(out.qoss), found)
    {
      MatchQos(q, out);
      found := Own([], subs);
      assert SubsOf(found) == subs;
      if MWC in nodes {
        var n := nodes[MWC];
        n.MatchQos(q, out);
        assert SubsOf(Own([MWC], n.subs)) == n.subs;
        TookMore(out, q, old(out.subs), old(out.qoss), found, old(out.subs) + subs,
                 old(out.qoss) + seq(|subs|, i => q), Own([MWC], n.subs));
        found := found + Own([MWC], n.subs);
      }
      FoundAtEnd(this, found);
    }

    /** The children, in any order. */
    method SmatchKids(level: Level, rest: bytes, q: byte, out: Collector) returns (ok: bool, ghost found: seq<Entry>)
      requires Valid() && out !in Repr
      modifies out
      ensures ok <==> Split(rest).ok || !Blocks(model, [level] + Split(rest).levels)
      ensures ok ==> Finds(model, [level] + Split(rest).levels, found)
      ensures Took(out, q, old(out.subs), old(out.qoss), found)
      decreases |rest|, 3
    {
      ghost var ls := [level] + Split(rest).levels;
      ghost var done := {};
      var todo := nodes.Keys;
      found := [];
      NothingYet(model, ls, Split(rest).ok, out, q);
      hide FindsBelow, Unblocked, Took, Finds, Blocks;
      while todo != {}
        invariant done !! todo && done + todo == nodes.Keys
        invariant Searched(ls, Split(rest).ok, done, found, out, q, old(out.subs), old(out.qoss))
        decreases todo
      {
        var k :| k in todo;
        ok, found := SmatchStep(k, level, rest, q, out, done, found, old(out.subs), old(out.qoss));
        if !ok {
          return;
        }
        todo, done := todo - {k}, done + {k};
      }
      FoundEverywhere(model, ls, done, found);
      return true, found;
    }

    ghost predicate Searched(ls: Path, wellFormed: bool, done: set<Level>, found: seq<Entry>, out: Collector, q: byte,
                             subs0: seq<Subscription>, qoss0: seq<byte>)
      requires ls != []
      reads this, out
    {
      FindsBelow(model, ls, done, found) && Unblocked(model, ls, wellFormed, done) && Took(out, q, subs0, qoss0, found)
    }

    /** One more child, on top of what the search has found already. */
    method SmatchStep(k: Level, level: Level, rest: bytes, q: byte, out: Collector, ghost done: set<Level>,
                      ghost before: seq<Entry>, ghost subs0: seq<Subscription>, ghost qoss0: seq<byte>)
      returns (ok: bool, ghost found: seq<Entry>)
      requires Valid() && out !in Repr && k in nodes && k !in done
      requires Searched([level] + Split(rest).levels, Split(rest).ok, done, before, out, q, subs0, qoss0)
      modifies out
      ensures ok ==> Searched([level] + Split(rest).levels, Split(rest).ok, done + {k}, found, out, q, subs0, qoss0)
      ensures !ok ==> !Split(rest).ok && Blocks(model, [level] + Split(rest).levels)
      ensures Took(out, q, subs0, qoss0, found)
      decreases |rest|, 2
    {
      hide Finds, FindsBelow, SubsOf, Blocks;
      ghost var more;
      ghost var subs1, qoss1 := out.subs, out.qoss;
      ok, more := SmatchKid(k, level, rest, q, out, done, before);
      found := before + more;
      TookMore(out, q, subs0, qoss0, before, subs1, qoss1, more);
      if !ok {
        BlocksBelow(model, [level] + Split(rest).levels, k);
      }
    }

    /** One child: take what sits at `#`, search below `+` and the level itself, skip the rest. */
    method SmatchKid(k: Level, level: Level, rest: bytes, q: byte, out: Collector, ghost done: set<Level>,
                     ghost before: seq<Entry>)
      returns (ok: bool, ghost more: seq<Entry>)
      requires Valid() && out !in Repr && k in nodes && k !in done
      requires FindsBelow(model, [level] + Split(rest).levels, done, before)
      modifies out
      ensures ok ==> FindsBelow(model, [level] + Split(rest).levels, done + {k}, before + more)
      ensures ok <==> Split(rest).ok || !OnTheWay(level, k) || !Blocks(model.kids[k], Split(rest).levels)
      ensures Took(out, q, old(out.subs), old(out.qoss), more)
      decreases |rest|, 1
    {
      ghost var ls := [level] + Split(rest).levels;
      var n := nodes[k];
      MemberOfForest(nodes, model.kids, Below, k);
      more := [];
      if k == MWC {
        n.MatchQos(q, out);
        more := Own([MWC], n.subs);
        FoundAtHash(model, ls, done, before, n.subs);
        assert SubsOf(more) == n.subs;
        ok := true;
      } else if k == SWC || k == level {
        ok, more := n.Smatch(rest, q, out);
        if ok {
          FoundInKid(model, ls, done, k, before, more);
        }
        assert SubsOf(Under(k, more)) == SubsOf(more);
        more := Under(k, more);
      } else {
        NothingInKid(model, ls, done, k, before);
        assert before + more == before;
        ok := true;
      }
    }

    /** Ghost update: account for whatever happened to the child at a level. */
    ghost method Reattach(level: Level, room: set<object>)
      requires Parallel(subs, qos) && model.val == GrantsOf(subs, qos)
      requires level in nodes && nodes[level].Valid() && this !in nodes[level].Repr
      requires this !in room && nodes[level].Repr !! room
      requires Forest(nodes - {level}, model.kids - {level}, room)
      modifies this`Below, this`Repr, this`model
      ensures Valid() && Repr == {this} + room + nodes[level].Repr
      ensures model == old(model).(kids := old(model).kids[level := nodes[level].model])
    {
      ForestPut(nodes, model.kids, room, level);
      Below := room + nodes[level].Repr;
      Repr := Below + {this};
      model := model.(kids := model.kids[level := nodes[level].model]);
    }
  }

  /** A node without subscribers or children, seen in its value. */
  lemma Bare(n: SNode)
    requires n.Valid()
    ensures |n.subs| == 0 <==> Vacant(n.model.val)
    ensures |n.nodes| == 0 <==> |n.model.kids| == 0
  {
    if |n.subs| > 0 { assert n.subs[0] in n.model.val; }
    assert |n.model.kids.Keys| == |n.nodes.Keys|;
  }

  /** The children of a node: separate valid trees within `room`, with the values `kids`. */
  ghost predicate Forest(m: map<Level, SNode>, kids: map<Level, Trie<Grants>>, room: set<object>)
    reads room
    decreases room, 1
  {
    && kids.Keys == m.Keys
    && (forall k | k in m :: m[k] in room && m[k].Repr <= room && m[k].Valid() && m[k].model == kids[k])
    && (forall j, k | j in m && k in m && j != k :: m[j].Repr !! m[k].Repr)
  }

  lemma MemberOfForest(m: map<Level, SNode>, kids: map<Level, Trie<Grants>>, room: set<object>, k: Level)
    requires Forest(m, kids, room) && k in m
    ensures m[k].Valid() && m[k].model == kids[k] && m[k].Repr <= room
    ensures Distinct(m[k].subs) && forall s :: s in m[k].subs <==> s in kids[k].val
  {
  }

  /** Nothing is left of the topic: the subscribers here, and those at `#`. */
  lemma FoundAtEnd(n: SNode, found: seq<Entry>)
    requires n.Valid()
    requires found == Own([], n.subs) + if MWC in n.nodes then Own([MWC], n.nodes[MWC].subs) else []
    ensures Finds(n.model, [], found)
  {
    hide Finds, Own;
    FoundHere(n.model, n.subs);
    if MWC in n.nodes {
      MemberOfForest(n.nodes, n.model.kids, n.Below, MWC);
      FoundHereAndAtHash(n.model, n.subs, n.nodes[MWC].subs);
    } else {
      FoundHereOnly(n.model, n.subs);
      assert Own([], n.subs) + [] == Own([], n.subs);
    }
  }

  /** The subscribers of a node were taken. */
  lemma FoundHere(t: Trie<Grants>, subs: seq<Subscription>)
    requires Distinct(subs) && forall s :: s in subs <==> s in t.val
    ensures Distinct(Own([], subs))
    ensures forall e :: e in Own([], subs) <==> Subscribed(t, e) && e.filter == []
  {
    var own := Own([], subs);
    forall e ensures e in own <==> Subscribed(t, e) && e.filter == [] {
      if e in own {
        var i :| 0 <= i < |own| && own[i] == e;
        assert e.sub in subs;
      }
      if Subscribed(t, e) && e.filter == [] {
        var i :| 0 <= i < |subs| && subs[i] == e.sub;
        assert own[i] == e;
      }
    }
  }

  lemma FoundHereOnly(t: Trie<Grants>, subs: seq<Subscription>)
    requires Distinct(subs) && (forall s :: s in subs <==> s in t.val) && MWC !in t.kids
    ensures Finds(t, [], Own([], subs))
  {
    FoundHere(t, subs);
    hide Own;
    forall e: Entry | Subscribed(t, e) && Match(e.filter, []) ensures e.filter == [] {}
  }

  lemma FoundHereAndAtHash(t: Trie<Grants>, subs: seq<Subscription>, more: seq<Subscription>)
    requires Distinct(subs) && forall s :: s in subs <==> s in t.val
    requires MWC in t.kids && Distinct(more) && forall s :: s in more <==> s in t.kids[MWC].val
    ensures Finds(t, [], Own([], subs) + Own([MWC], more))
  {
    FoundHere(t, subs);
    FoundAtHash(t, [], {}, [], more);
    hide Own, Subscribed;
    assert [] + Own([MWC], more) == Own([MWC], more);
    DistinctConcat(Own([], subs), Own([MWC], more));
  }

  /** Every child was searched and some of the topic is left. */
  lemma FoundEverywhere(t: Trie<Grants>, ls: Path, done: set<Level>, found: seq<Entry>)
    requires FindsBelow(t, ls, done, found) && ls != [] && done == t.kids.Keys
    ensures Finds(t, ls, found)
    ensures forall wellFormed :: Unblocked(t, ls, wellFormed, done) ==> wellFormed || !Blocks(t, ls)
  {
  }

  lemma ForestSplit(m: map<Level, SNode>, kids: map<Level, Trie<Grants>>, room: set<object>, l: Level)
    requires Forest(m, kids, room) && l in m
    ensures Forest(m - {l}, kids - {l}, room - m[l].Repr)
  {
  }

  lemma ForestPut(m: map<Level, SNode>, kids: map<Level, Trie<Grants>>, room: set<object>, l: Level)
    requires l in m && Forest(m - {l}, kids - {l}, room)
    requires m[l].Valid() && m[l].Repr !! room
    ensures Forest(m, kids[l := m[l].model], room + m[l].Repr)
  {
    hide SNode.Valid;
    var m', kids' := m - {l}, kids - {l};
    assert kids[l := m[l].model].Keys == kids'.Keys + {l} == m'.Keys + {l} == m.Keys;
    assert forall k :: k in m && k != l ==> k in m' && m'[k] == m[k] && kids'[k] == kids[k];
    forall j, k | j in m && k in m && j != k ensures m[j].Repr !! m[k].Repr {
      if j == l {
        assert m'[k].Repr <= room;
      } else if k == l {
        assert m'[j].Repr <= room;
      } else {
        assert m'[j].Repr !! m'[k].Repr;
      }
    }
  }
}
