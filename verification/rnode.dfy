/** The retained tree: nodes changed in place, proved against level-tree values. */
module RetainedTree {
  import opened Bytes
  import opened Messages
  import opened TopicLevels
  import opened Trie

  /** What a node keeps. */
  type Kept = Option<Publish>

  // ----- The tree operations on values -----

  function Stored(t: Trie<Kept>, topic: bytes, msg: Publish): Trie<Kept>
  {
    var p := Split(topic);
    Put(t, p.levels, None, if p.ok then Some(msg) else ValueAt(t, p.levels, None))
  }

  /** Pruning looks at the children only. */
  predicate Anything(k: Kept) { true }

  function Cleared(t: Trie<Kept>, topic: bytes): Option<Trie<Kept>>
  {
    var p := Split(topic);
    if p.ok && Has(t, p.levels) then Some(Cut(t, p.levels, None, Anything)) else None
  }

  lemma StoredStep(t: Trie<Kept>, topic: bytes, msg: Publish)
    ensures Stored(t, topic, msg) ==
            if topic == [] then t.(val := Some(msg))
            else match NextLevel(topic)
              case Malformed => t
              case Next(l, rest) => t.(kids := t.kids[l := Stored(KidOr(t, l, None), rest, msg)])
  {
    if topic != [] && NextLevel(topic).Next? {
      var l, rest := NextLevel(topic).level, NextLevel(topic).rest;
      var p := Split(rest).levels;
      assert ([l] + p)[1..] == p;
      FindBlank<Kept>(None, p);
    }
  }

  lemma ClearedStep(t: Trie<Kept>, topic: bytes)
    ensures Cleared(t, topic) ==
            if topic == [] then Some(t.(val := None))
            else match NextLevel(topic)
              case Malformed => None
              case Next(l, rest) =>
                if l !in t.kids || Cleared(t.kids[l], rest).None? then None
                else Some(Hang(t, l, Cleared(t.kids[l], rest).value, Anything))
  {
    if topic != [] && NextLevel(topic).Next? {
      var l, rest := NextLevel(topic).level, NextLevel(topic).rest;
      var p := Split(rest).levels;
      assert ([l] + p)[1..] == p;
    }
  }

  // ----- What a search must find -----

  function KeptAt(t: Trie<Kept>, p: Path): Kept
  {
    ValueAt(t, p, None)
  }

  /** `found` names each path with a message that the filter levels match once, and nothing
      else. */
  ghost predicate Finds(t: Trie<Kept>, filter: Path, found: seq<Path>)
  {
    && Distinct(found)
    && forall p :: p in found <==> KeptAt(t, p).Some? && Match(filter, p)
  }

  /** The same for the paths below the children at the levels `done`. */
  ghost predicate FindsBelow(t: Trie<Kept>, filter: Path, done: set<Level>, found: seq<Path>)
  {
    && Distinct(found)
    && forall p :: p in found <==> KeptAt(t, p).Some? && Match(filter, p) && p != [] && p[0] in done
  }

  function Under(k: Level, found: seq<Path>): seq<Path>
  {
    seq(|found|, i requires 0 <= i < |found| => [k] + found[i])
  }

  function MsgsOf(t: Trie<Kept>, found: seq<Path>): seq<Publish>
    requires forall p :: p in found ==> KeptAt(t, p).Some?
  {
    seq(|found|, i requires 0 <= i < |found| => KeptAt(t, found[i]).value)
  }

  /** The search runs into the malformed level that follows the levels `ls`. */
  predicate Blocks(t: Trie<Kept>, ls: Path)
    decreases |ls|
  {
    ls == [] ||
    if ls[0] == SWC then exists k :: k in t.kids && Blocks(t.kids[k], ls[1..])
    else ls[0] in t.kids && Blocks(t.kids[ls[0]], ls[1..])
  }

  ghost predicate Unblocked(t: Trie<Kept>, ls: Path, wellFormed: bool, done: set<Level>)
  {
    wellFormed || forall k :: k in done && k in t.kids ==> !Blocks(t.kids[k], ls)
  }

  lemma UnderMembers(k: Level, found: seq<Path>, p: Path)
    ensures p in Under(k, found) <==> p != [] && p[0] == k && p[1..] in found
  {
    if p in Under(k, found) {
      var i :| 0 <= i < |found| && Under(k, found)[i] == p;
      assert found[i] == p[1..];
    }
    if p != [] && p[0] == k && p[1..] in found {
      var i :| 0 <= i < |found| && found[i] == p[1..];
      assert Under(k, found)[i] == p;
    }
  }

  lemma UnderDistinct(k: Level, found: seq<Path>)
    requires Distinct(found)
    ensures Distinct(Under(k, found))
  {
    var u := Under(k, found);
    forall i, j | 0 <= i < j < |u| ensures u[i] != u[j] {
      assert u[i][1..] == found[i] && u[j][1..] == found[j];
    }
  }

  /** What the child found, seen from the node. */
  lemma FoundUnder(t: Trie<Kept>, filter: Path, rest: Path, k: Level, more: seq<Path>, p: Path)
    requires k in t.kids && Finds(t.kids[k], rest, more)
    requires forall q :: Match(filter, [k] + q) <==> Match(rest, q)
    ensures p in Under(k, more) <==> KeptAt(t, p).Some? && Match(filter, p) && p != [] && p[0] == k
  {
    UnderMembers(k, more, p);
    if p != [] && p[0] == k {
      assert p == [k] + p[1..];
      assert KeptAt(t, p) == KeptAt(t.kids[k], p[1..]);
      hide Match, KeptAt;
    }
  }

  lemma MsgsConcat(t: Trie<Kept>, found: seq<Path>, k: Level, more: seq<Path>)
    requires forall p :: p in found ==> KeptAt(t, p).Some?
    requires k in t.kids && forall p :: p in more ==> KeptAt(t.kids[k], p).Some?
    ensures forall p :: p in found + Under(k, more) ==> KeptAt(t, p).Some?
    ensures MsgsOf(t, found + Under(k, more)) == MsgsOf(t, found) + MsgsOf(t.kids[k], more)
  {
    var u := Under(k, more);
    forall i | 0 <= i < |more| ensures KeptAt(t, u[i]) == KeptAt(t.kids[k], more[i]) {
      assert u[i][1..] == more[i];
    }
    hide KeptAt;
  }

  /** One more child was searched with `rest`, which the child's paths must match exactly when
      the whole paths match `filter`. */
  lemma FoundInKid(t: Trie<Kept>, filter: Path, rest: Path, done: set<Level>, k: Level, found: seq<Path>,
                   more: seq<Path>)
    requires FindsBelow(t, filter, done, found)
    requires k in t.kids && k !in done
    requires forall p :: Match(filter, [k] + p) <==> Match(rest, p)
    requires Finds(t.kids[k], rest, more)
    ensures FindsBelow(t, filter, done + {k}, found + Under(k, more))
    ensures MsgsOf(t, found + Under(k, more)) == MsgsOf(t, found) + MsgsOf(t.kids[k], more)
  {
    hide Match, KeptAt, MsgsOf, Under;
    UnderDistinct(k, more);
    forall p ensures p in Under(k, more) <==> KeptAt(t, p).Some? && Match(filter, p) && p != [] && p[0] == k
    {
      FoundUnder(t, filter, rest, k, more, p);
    }
    DistinctConcat(found, Under(k, more));
    MsgsConcat(t, found, k, more);
  }

  lemma SearchedMore(t: Trie<Kept>, filter: Path, rest: Path, done: set<Level>, k: Level, found: seq<Path>,
                     more: seq<Path>, msgs0: seq<Publish>, msgs1: seq<Publish>, msgs: seq<Publish>)
    requires FindsBelow(t, filter, done, found) && msgs1 == msgs0 + MsgsOf(t, found)
    requires k in t.kids && k !in done && forall p :: Match(filter, [k] + p) <==> Match(rest, p)
    requires Finds(t.kids[k], rest, more) && msgs == msgs1 + MsgsOf(t.kids[k], more)
    ensures FindsBelow(t, filter, done + {k}, found + Under(k, more))
    ensures msgs == msgs0 + MsgsOf(t, found + Under(k, more))
  {
    hide Match, KeptAt, MsgsOf, Under, Distinct;
    FoundInKid(t, filter, rest, done, k, found, more);
  }

  /** The two facts that end the search below `+`. */
  lemma PlusNeedsALevel(t: Trie<Kept>, ls: Path, wellFormed: bool)
    ensures !Match([SWC] + ls, [])
    ensures Unblocked(t, ls, wellFormed, t.kids.Keys) ==> wellFormed || !Blocks(t, [SWC] + ls)
  {
    assert ([SWC] + ls)[1..] == ls;
  }

  /** Every child was searched, and nothing here matches. */
  lemma FoundEverywhere(t: Trie<Kept>, filter: Path, done: set<Level>, found: seq<Path>)
    requires FindsBelow(t, filter, done, found) && done == t.kids.Keys
    requires t.val.None? || !Match(filter, [])
    ensures Finds(t, filter, found)
  {
  }

  /** Every child was taken, and the message here. */
  lemma FoundAll(t: Trie<Kept>, below: seq<Path>)
    requires FindsBelow(t, [MWC], t.kids.Keys, below)
    ensures var found := (if t.val.Some? then [[]] else []) + below;
            && Finds(t, [MWC], found)
            && MsgsOf(t, found) == (if t.val.Some? then [t.val.value] else []) + MsgsOf(t, below)
  {
    var own: seq<Path> := if t.val.Some? then [[]] else [];
    assert forall p :: p in own ==> p == [];
    DistinctConcat(own, below);
  }

  /** Only the child at a plain level can match. */
  lemma FoundInOne(t: Trie<Kept>, l: Level, ls: Path, more: seq<Path>)
    requires l != MWC && l != SWC
    requires if l in t.kids then Finds(t.kids[l], ls, more) else more == []
    ensures Finds(t, [l] + ls, Under(l, more))
    ensures l in t.kids ==> MsgsOf(t, Under(l, more)) == MsgsOf(t.kids[l], more)
  {
    assert ([l] + ls)[1..] == ls;
    if l in t.kids {
      var none: seq<Path> := [];
      assert forall p :: ([l] + p)[1..] == p;
      FoundInKid(t, [l] + ls, ls, {}, l, none, more);
      assert none + Under(l, more) == Under(l, more);
      forall p ensures p in Under(l, more) <==> KeptAt(t, p).Some? && Match([l] + ls, p) {}
    }
  }

  /** The slice a search appends to through a pointer. */
  class Collector {
    var msgs: seq<Publish>

    constructor ()
      ensures msgs == []
    {
      msgs := [];
    }
  }

  class RNode {
    var msg: Option<Publish>
    var nodes: map<Level, RNode>
    ghost var model: Trie<Kept>
    ghost var Below: set<object>  // what the children use
    ghost var Repr: set<object>

    ghost predicate Valid()
      reads this, Repr
      ensures Valid() ==> this in Repr && nodes.Keys == model.kids.Keys
      decreases Repr, 0
    {
      && Repr == Below + {this} && this !in Below
      && model.val == msg
      && Forest(nodes, model.kids, Below)
    }

    constructor ()
      ensures Valid() && fresh(Repr)
      ensures model == Blank(None)
    {
      msg, nodes := None, map[];
      model := Blank(None);
      Below, Repr := {}, {this};
    }

    /** Find or create the child at a level; `room` is what the other children use. */
    method Child(level: Level) returns (n: RNode, ghost room: set<object>)
      requires Valid()
      modifies this`nodes
      ensures n.Valid() && n.model == KidOr(model, level, None)
      ensures room <= Below && n.Repr !! room && this !in n.Repr && fresh(n.Repr - Repr)
      ensures level in nodes && nodes[level] == n
      ensures Forest(nodes - {level}, model.kids - {level}, room)
    {
      room := Below;
      if level in nodes {
        n := nodes[level];
        ForestSplit(nodes, model.kids, room, level);
        room := room - n.Repr;
      } else {
        n := new RNode();
        assert nodes - {level} == nodes && model.kids - {level} == model.kids;
        nodes := nodes[level := n];
        assert nodes - {level} == old(nodes);
      }
    }

    method SetHere(kept: Kept)
      requires Valid()
      modifies this`msg, this`model
      ensures Valid()
      ensures model == old(model).(val := kept)
    {
      msg := kept;
      model := model.(val := kept);
    }

    method InsertOrUpdate(topic: bytes, m: Publish) returns (ok: bool)
      requires Valid()
      modifies Repr
      ensures Valid() && fresh(Repr - old(Repr))
      ensures ok == Split(topic).ok
      ensures model == Stored(old(model), topic, m)
      decreases |topic|, 0
    {
      StoredStep(model, topic, m);
      if |topic| == 0 {
        SetHere(Some(m));
        return true;
      }
      var next := NextTopicLevel(topic);
      if next.Malformed? {
        return false;
      }
      StepShrinks(topic);
      ok := Descend(next.level, next.rest, m);
    }

    method Descend(level: Level, rest: bytes, m: Publish) returns (ok: bool)
      requires Valid()
      modifies Repr
      ensures Valid() && fresh(Repr - old(Repr))
      ensures ok == Split(rest).ok
      ensures model == old(model).(kids := old(model).kids[level := Stored(KidOr(old(model), level, None), rest, m)])
      decreases |rest|, 1
    {
      var n;
      ghost var room;
      n, room := Child(level);
      ok := n.InsertOrUpdate(rest, m);
      Reattach(level, room);
    }

    method Remove(topic: bytes) returns (ok: bool)
      requires Valid()
      modifies Repr
      ensures Valid() && fresh(Repr - old(Repr))
      ensures ok == Cleared(old(model), topic).Some?
      ensures model == if ok then Cleared(old(model), topic).value else old(model)
      decreases |topic|, 0
    {
      ClearedStep(model, topic);
      if |topic| == 0 {
        SetHere(None);
        return true;
      }
      var next := NextTopicLevel(topic);
      if next.Malformed? {
        return false;
      }
      if next.level !in nodes {
        return false;
      }
      StepShrinks(topic);
      ok := RemoveBelow(next.level, next.rest);
    }

    method RemoveBelow(level: Level, rest: bytes) returns (ok: bool)
      requires Valid() && level in nodes
      modifies Repr
      ensures Valid() && fresh(Repr - old(Repr))
      ensures ok == Cleared(old(model).kids[level], rest).Some?
      ensures model == if ok then Hang(old(model), level, Cleared(old(model).kids[level], rest).value, Anything)
                       else old(model)
      decreases |rest|, 1
    {
      var n := nodes[level];
      ghost var room := Below - n.Repr;
      ForestSplit(nodes, model.kids, Below, level);
      ok := n.Remove(rest);
      if ok {
        Prune(level, room);
      } else {
        Reattach(level, room);
        assert model.kids == old(model.kids);
      }
    }

    /** Delete the child at a level when it has no children, whether or not it keeps a message. */
    method Prune(level: Level, ghost room: set<object>)
      requires model.val == msg
      requires level in nodes && nodes[level].Valid() && this !in nodes[level].Repr
      requires this !in room && nodes[level].Repr !! room
      requires Forest(nodes - {level}, model.kids - {level}, room)
      modifies this`nodes, this`Below, this`Repr, this`model
      ensures Valid() && Repr <= {this} + room + old(nodes[level].Repr)
      ensures model == Hang(old(model), level, old(nodes[level].model), Anything)
    {
      assert |nodes[level].model.kids.Keys| == |nodes[level].nodes.Keys|;
      if |nodes[level].nodes| == 0 {
        Drop(level, room);
      } else {
        Reattach(level, room);
      }
    }

    method Drop(level: Level, ghost room: set<object>)
      requires model.val == msg
      requires this !in room && Forest(nodes - {level}, model.kids - {level}, room)
      modifies this`nodes, this`Below, this`Repr, this`model
      ensures Valid() && Repr == room + {this}
      ensures model == old(model).(kids := old(model).kids - {level})
    {
      hide Forest;
      nodes := nodes - {level};
      Below, Repr := room, room + {this};
      model := model.(kids := model.kids - {level});
    }

    /** Ghost update: account for whatever happened to the child at a level. */
    ghost method Reattach(level: Level, room: set<object>)
      requires model.val == msg
      requires level in nodes && nodes[level].Valid() && this !in nodes[level].Repr
      requires this !in room && nodes[level].Repr !! room
      requires Forest(nodes - {level}, model.kids - {level}, room)
      modifies this`Below, this`Repr, this`model
      ensures Valid() && Repr == {this} + room + nodes[level].Repr
      ensures model == old(model).(kids := old(model).kids[level := nodes[level].model])
    {
      ForestPut(nodes, model.kids, room, level);
      Below := room + nodes[level].Repr;
      Repr := Below + {this};
      model := model.(kids := model.kids[level := nodes[level].model]);
    }

    method Rmatch(topic: bytes, out: Collector) returns (ok: bool, ghost found: seq<Path>)
      requires Valid() && out !in Repr
      modifies out
      ensures ok <==> Split(topic).ok || !Blocks(model, Split(topic).levels)
      ensures ok ==> Finds(model, Split(topic).levels, found)
      ensures ok ==> out.msgs == old(out.msgs) + MsgsOf(model, found)
      decreases |topic|, 0
    {
      found := [];
      if |topic| == 0 {
        if msg.Some? {
          out.msgs := out.msgs + [msg.value];
          found := [[]];
        }
        assert Finds(model, [], found);
        return true, found;
      }
      var next := NextTopicLevel(topic);
      if next.Malformed? {
        return false, found;
      }
      StepShrinks(topic);
      var level, rest := next.level, next.rest;
      assert Split(topic).levels[1..] == Split(rest).levels;
      if level == MWC {
        found := AllRetained(out);
        assert Split(topic).levels == [MWC];
        ok := true;
      } else if level == SWC {
        ok, found := RmatchKids(rest, out);
      } else {
        ok := true;
        if level in nodes {
          MemberOfForest(nodes, model.kids, Below, level);
          ok, found := nodes[level].Rmatch(rest, out);
        }
        if ok {
          FoundInOne(model, level, Split(rest).levels, found);
          found := Under(level, found);
        }
      }
    }

    /** Below `+`: every child, in any order. */
    method RmatchKids(rest: bytes, out: Collector) returns (ok: bool, ghost found: seq<Path>)
      requires Valid() && out !in Repr
      modifies out
      ensures ok <==> Split(rest).ok || !Blocks(model, [SWC] + Split(rest).levels)
      ensures ok ==> Finds(model, [SWC] + Split(rest).levels, found)
      ensures ok ==> out.msgs == old(out.msgs) + MsgsOf(model, found)
      decreases |rest|, 2
    {
      ghost var ls := Split(rest).levels;
      ghost var filter := [SWC] + ls;
      ghost var done := {};
      var todo := nodes.Keys;
      found := [];
      PlusNeedsALevel(model, ls, Split(rest).ok);
      assert Searched(filter, done, found, out, out.msgs);
      assert Unblocked(model, ls, Split(rest).ok, done);
      hide Searched, Unblocked, Match, KeptAt, Blocks;
      while todo != {}
        invariant done !! todo && done + todo == nodes.Keys
        invariant Searched(filter, done, found, out, old(out.msgs))
        invariant Unblocked(model, ls, Split(rest).ok, done)
        decreases todo
      {
        var k :| k in todo;
        ok, found := RmatchKid(k, rest, out, done, found, old(out.msgs));
        if !ok {
          return;
        }
        todo, done := todo - {k}, done + {k};
      }
      SearchedAll(filter, done, found, out, old(out.msgs));
      return true, found;
    }

    /** The search has covered the children at the levels `done`. */
    ghost predicate Searched(filter: Path, done: set<Level>, found: seq<Path>, out: Collector, msgs0: seq<Publish>)
      reads this, out
    {
      FindsBelow(model, filter, done, found) && out.msgs == msgs0 + MsgsOf(model, found)
    }

    lemma SearchedAll(filter: Path, done: set<Level>, found: seq<Path>, out: Collector, msgs0: seq<Publish>)
      requires Searched(filter, done, found, out, msgs0) && done == model.kids.Keys && !Match(filter, [])
      ensures Finds(model, filter, found) && out.msgs == msgs0 + MsgsOf(model, found)
    {
      FoundEverywhere(model, filter, done, found);
    }

    method RmatchKid(k: Level, rest: bytes, out: Collector, ghost done: set<Level>, ghost before: seq<Path>,
                     ghost msgs0: seq<Publish>)
      returns (ok: bool, ghost found: seq<Path>)
      requires Valid() && out !in Repr && k in nodes && k !in done
      requires Searched([SWC] + Split(rest).levels, done, before, out, msgs0)
      requires Unblocked(model, Split(rest).levels, Split(rest).ok, done)
      modifies out
      ensures ok ==> Unblocked(model, Split(rest).levels, Split(rest).ok, done + {k})
      ensures !ok ==> !Split(rest).ok && Blocks(model, [SWC] + Split(rest).levels)
      ensures ok ==> Searched([SWC] + Split(rest).levels, done + {k}, found, out, msgs0)
      decreases |rest|, 1
    {
      ghost var ls := Split(rest).levels;
      MemberOfForest(nodes, model.kids, Below, k);
      ghost var more;
      ghost var msgs1 := out.msgs;
      ok, more := nodes[k].Rmatch(rest, out);
      found := before + Under(k, more);
      if ok {
        assert ([SWC] + ls)[1..] == ls && forall p: Path :: ([k] + p)[1..] == p;
        SearchedMore(model, [SWC] + ls, ls, done, k, before, more, msgs0, msgs1, out.msgs);
      }
      hide FindsBelow, MsgsOf, KeptAt, Finds;
    }

    /** The message here and everything below, in any order of the children. */
    method AllRetained(out: Collector) returns (ghost found: seq<Path>)
      requires Valid() && out !in Repr
      modifies out
      ensures Finds(model, [MWC], found)
      ensures out.msgs == old(out.msgs) + MsgsOf(model, found)
      decreases Repr, 2
    {
      if msg.Some? {
        out.msgs := out.msgs + [msg.value];
      }
      ghost var below := AllBelow(out);
      FoundAll(model, below);
      found := (if msg.Some? then [[]] else []) + below;
    }

    method AllBelow(out: Collector) returns (ghost below: seq<Path>)
      requires Valid() && out !in Repr
      modifies out
      ensures FindsBelow(model, [MWC], model.kids.Keys, below)
      ensures out.msgs == old(out.msgs) + MsgsOf(model, below)
      decreases Repr, 1
    {
      ghost var done := {};
      var todo := nodes.Keys;
      below := [];
      assert Searched([MWC], done, below, out, out.msgs);
      while todo != {}
        invariant done !! todo && done + todo == nodes.Keys
        invariant Searched([MWC], done, below, out, old(out.msgs))
        decreases todo
      {
        hide Searched;
        var k :| k in todo;
        below := AllInKid(k, out, done, below, old(out.msgs));
        todo, done := todo - {k}, done + {k};
      }
    }

    method AllInKid(k: Level, out: Collector, ghost done: set<Level>, ghost before: seq<Path>,
                    ghost msgs0: seq<Publish>)
      returns (ghost found: seq<Path>)
      requires Valid() && out !in Repr && k in nodes && k !in done
      requires Searched([MWC], done, before, out, msgs0)
      modifies out
      ensures Searched([MWC], done + {k}, found, out, msgs0)
      decreases Repr, 0
    {
      MemberOfForest(nodes, model.kids, Below, k);
      ghost var msgs1 := out.msgs;
      ghost var more := nodes[k].AllRetained(out);
      found := before + Under(k, more);
      SearchedMore(model, [MWC], [MWC], done, k, before, more, msgs0, msgs1, out.msgs);
      hide FindsBelow, MsgsOf, KeptAt, Finds;
    }
  }

  /** The children of a node: separate valid trees within `room`, with the values `kids`. */
  ghost predicate Forest(m: map<Level, RNode>, kids: map<Level, Trie<Kept>>, room: set<object>)
    reads room
    decreases room, 1
  {
    && kids.Keys == m.Keys
    && (forall k | k in m :: m[k] in room && m[k].Repr <= room && m[k].Valid() && m[k].model == kids[k])
    && (forall j, k | j in m && k in m && j != k :: m[j].Repr !! m[k].Repr)
  }

  lemma MemberOfForest(m: map<Level, RNode>, kids: map<Level, Trie<Kept>>, room: set<object>, k: Level)
    requires Forest(m, kids, room) && k in m
    ensures m[k].Valid() && m[k].model == kids[k] && m[k].Repr <= room
  {
  }

  lemma ForestSplit(m: map<Level, RNode>, kids: map<Level, Trie<Kept>>, room: set<object>, l: Level)
    requires Forest(m, kids, room) && l in m
    ensures Forest(m - {l}, kids - {l}, room - m[l].Repr)
  {
  }

  lemma ForestPut(m: map<Level, RNode>, kids: map<Level, Trie<Kept>>, room: set<object>, l: Level)
    requires l in m && Forest(m - {l}, kids - {l}, room)
    requires m[l].Valid() && m[l].Repr !! room
    ensures Forest(m, kids[l := m[l].model], room + m[l].Repr)
  {
    hide RNode.Valid;
    var m', kids' := m - {l}, kids - {l};
    assert kids[l := m[l].model].Keys == kids'.Keys + {l} == m'.Keys + {l} == m.Keys;
    assert forall k :: k in m && k != l ==> k in m' && m'[k] == m[k] && kids'[k] == kids[k];
    forall j, k | j in m && k in m && j != k ensures m[j].Repr !! m[k].Repr {
      if j == l {
        assert m'[k].Repr <= room;
      } else if k == l {
        assert m'[j].Repr <= room;
      } else {
        assert m'[j].Repr !! m'[k].Repr;
      }
    }
  }
}
