/** The value of a level tree: the part that the subscription tree and the retained tree have
    in common. Both are changed by setting the value at the end of a path, growing blank nodes
    on the way, and by cutting: setting a value and pruning the dead nodes on the way back. */
module Trie {
  import opened Bytes
  import opened TopicLevels

  datatype Trie<V> = Node(val: V, kids: map<Level, Trie<V>>)

  function Blank<V>(blank: V): Trie<V> { Node(blank, map[]) }

  /** The node at the end of a path. */
  function Find<V>(t: Trie<V>, p: Path): Option<Trie<V>>
    decreases |p|
  {
    if p == [] then Some(t)
    else if p[0] in t.kids then Find(t.kids[p[0]], p[1..])
    else None
  }

  predicate Has<V>(t: Trie<V>, p: Path) { Find(t, p).Some? }

  function ValueAt<V>(t: Trie<V>, p: Path, blank: V): V
  {
    match Find(t, p) case None => blank case Some(n) => n.val
  }

  function KidOr<V>(t: Trie<V>, l: Level, blank: V): Trie<V>
  {
    if l in t.kids then t.kids[l] else Blank(blank)
  }

  /** Set the value at `p`, growing blank nodes where the path is missing. */
  function Put<V>(t: Trie<V>, p: Path, blank: V, v: V): Trie<V>
    decreases |p|
  {
    if p == [] then t.(val := v)
    else t.(kids := t.kids[p[0] := Put(KidOr(t, p[0], blank), p[1..], blank, v)])
  }

  /** Hang a changed child back, or drop it when it is dead and has no children. */
  function Hang<V>(t: Trie<V>, l: Level, kid: Trie<V>, dead: V -> bool): Trie<V>
  {
    if dead(kid.val) && |kid.kids| == 0 then t.(kids := t.kids - {l})
    else t.(kids := t.kids[l := kid])
  }

  /** Set the value at `p`; on the way back, drop each node just left that is dead and has no
      children. */
  function Cut<V>(t: Trie<V>, p: Path, v: V, dead: V -> bool): Trie<V>
    requires Has(t, p)
    decreases |p|
  {
    if p == [] then t.(val := v)
    else Hang(t, p[0], Cut(t.kids[p[0]], p[1..], v, dead), dead)
  }

  // ----- What Put does at every path -----

  lemma {:induction false} FindBlank<V>(blank: V, q: Path)
    ensures Find(Blank(blank), q) == if q == [] then Some(Blank(blank)) else None
  {
  }

  /** Put adds exactly the nodes on the path and changes exactly one value. */
  lemma {:induction false} PutEffect<V>(t: Trie<V>, p: Path, blank: V, v: V, q: Path)
    ensures Has(Put(t, p, blank, v), q) <==> Has(t, q) || q <= p
    ensures ValueAt(Put(t, p, blank, v), q, blank) == if q == p then v else ValueAt(t, q, blank)
    decreases |p|
  {
    if p != [] && q != [] && p[0] == q[0] {
      PutEffect(KidOr(t, p[0], blank), p[1..], blank, v, q[1..]);
      FindBlank(blank, q[1..]);
      assert q == [q[0]] + q[1..] && p == [p[0]] + p[1..];
    }
  }

  // ----- What Cut does at every path -----

  /** The value of a node of `t` once `p` has been given the value `v`. */
  function ValueAfter<V>(t: Trie<V>, p: Path, v: V, q: Path): V
    requires Has(t, q)
  {
    if q == p then v else Find(t, q).value.val
  }

  /** The node at `q` is on the path to `p`, is not the root, and everything at or below it
      lies on that path and is dead. */
  ghost predicate Pruned<V>(t: Trie<V>, p: Path, v: V, dead: V -> bool, q: Path)
    requires Has(t, p)
  {
    && q != [] && q <= p
    && forall r :: Has(t, r) && q <= r ==> r <= p && dead(ValueAfter(t, p, v, r))
  }

  /** The node just left is dropped only when all of its remains were dead. */
  lemma {:induction false} DroppedWasDead<V>(t: Trie<V>, p: Path, v: V, dead: V -> bool, r: Path)
    requires Has(t, p) && Has(t, r)
    requires var c := Cut(t, p, v, dead); dead(c.val) && |c.kids| == 0
    ensures r <= p && dead(ValueAfter(t, p, v, r))
    decreases |p|
  {
    var c := Cut(t, p, v, dead);
    assert c.kids == map[];
    if p != [] && r != [] {
      var k, kid := p[0], t.kids[p[0]];
      assert k !in c.kids && r[0] !in t.kids - {k};
      DroppedWasDead(kid, p[1..], v, dead, r[1..]);
      assert r == [k] + r[1..] && p == [k] + p[1..];
    }
  }

  /** And it is dropped whenever they were. */
  lemma {:induction false} DeadIsDropped<V>(t: Trie<V>, p: Path, v: V, dead: V -> bool)
    requires Has(t, p)
    requires forall r :: Has(t, r) ==> r <= p && dead(ValueAfter(t, p, v, r))
    ensures var c := Cut(t, p, v, dead); dead(c.val) && |c.kids| == 0
    decreases |p|
  {
    assert Has(t, []);
    forall k | k in t.kids ensures p != [] && k == p[0] {
      assert Has(t, [k]);
    }
    if p == [] {
      assert t.kids == map[];
    } else {
      var k, kid := p[0], t.kids[p[0]];
      forall r | Has(kid, r) ensures r <= p[1..] && dead(ValueAfter(kid, p[1..], v, r)) {
        assert ([k] + r)[1..] == r && p == [k] + p[1..];
        assert Has(t, [k] + r);
      }
      DeadIsDropped(kid, p[1..], v, dead);
      assert Cut(t, p, v, dead).kids == map[];
    }
  }

  lemma PrunedAtRoot<V>(t: Trie<V>, p: Path, v: V, dead: V -> bool)
    requires Has(t, p)
    ensures var c := Cut(t, p, v, dead);
            dead(c.val) && |c.kids| == 0 <==>
            forall r :: Has(t, r) ==> r <= p && dead(ValueAfter(t, p, v, r))
  {
    var c := Cut(t, p, v, dead);
    if dead(c.val) && |c.kids| == 0 {
      forall r | Has(t, r) ensures r <= p && dead(ValueAfter(t, p, v, r)) {
        DroppedWasDead(t, p, v, dead, r);
      }
    }
    if forall r :: Has(t, r) ==> r <= p && dead(ValueAfter(t, p, v, r)) {
      DeadIsDropped(t, p, v, dead);
    }
  }

  /** A node survives unless it is pruned, and a surviving node keeps its value, except for
      the one that was set. */
  lemma {:induction false} CutEffect<V>(t: Trie<V>, p: Path, v: V, dead: V -> bool, q: Path)
    requires Has(t, p)
    ensures Has(Cut(t, p, v, dead), q) <==> Has(t, q) && !Pruned(t, p, v, dead, q)
    ensures Has(Cut(t, p, v, dead), q) ==>
              Find(Cut(t, p, v, dead), q).value.val == ValueAfter(t, p, v, q)
    decreases |p|
  {
    if p != [] && q != [] && q[0] == p[0] {
      var k, kid := p[0], t.kids[p[0]];
      PrunedAtRoot(kid, p[1..], v, dead);
      CutEffect(kid, p[1..], v, dead, q[1..]);
      PrunedBelow(t, p, v, dead, q);
      var c := Cut(kid, p[1..], v, dead);
      if q[1..] == [] {
        assert q == [k];
      } else if dead(c.val) && |c.kids| == 0 {
        assert c.kids == map[];
        assert !Has(c, q[1..]);
      }
    } else if p != [] && q != [] {
      assert !(q <= p);
    }
  }

  /** Being pruned, seen from the child that the path runs through. */
  lemma PrunedBelow<V>(t: Trie<V>, p: Path, v: V, dead: V -> bool, q: Path)
    requires p != [] && q != [] && q[0] == p[0] && Has(t, p)
    ensures Pruned(t, p, v, dead, q) <==>
              && q[1..] <= p[1..]
              && (forall r :: Has(t.kids[p[0]], r) && q[1..] <= r ==>
                    r <= p[1..] && dead(ValueAfter(t.kids[p[0]], p[1..], v, r)))
  {
    var k, kid := p[0], t.kids[p[0]];
    assert q == [k] + q[1..] && p == [k] + p[1..];
    if Pruned(t, p, v, dead, q) {
      forall r | Has(kid, r) && q[1..] <= r
        ensures r <= p[1..] && dead(ValueAfter(kid, p[1..], v, r))
      {
        assert ([k] + r)[1..] == r;
        assert Has(t, [k] + r) && q <= [k] + r;
      }
    }
    if q[1..] <= p[1..] && forall r :: Has(kid, r) && q[1..] <= r ==>
                             r <= p[1..] && dead(ValueAfter(kid, p[1..], v, r)) {
      forall r | Has(t, r) && q <= r ensures r <= p && dead(ValueAfter(t, p, v, r)) {
        assert r == [k] + r[1..];
        assert Has(kid, r[1..]) && q[1..] <= r[1..];
      }
    }
  }

  /** When only blank nodes are dead, pruning loses no value. */
  lemma {:induction false} CutKeepsValues<V(!new)>(t: Trie<V>, p: Path, v: V, dead: V -> bool, blank: V, q: Path)
    requires Has(t, p) && forall x: V :: dead(x) ==> x == blank
    ensures ValueAt(Cut(t, p, v, dead), q, blank) == if q == p then v else ValueAt(t, q, blank)
  {
    CutEffect(t, p, v, dead, q);
    if Has(t, q) && Pruned(t, p, v, dead, q) {
      assert q <= q;
      assert dead(ValueAfter(t, p, v, q));
    }
  }
}
