/** Byte strings, as Go's `string` and `[]byte` hold them, and the small types every other
    module shares. */
module Bytes {

  type byte = x: int | 0 <= x < 0x100
  type bytes = seq<byte>
  type u16 = x: int | 0 <= x < 0x1_0000

  datatype Option<+T> = None | Some(value: T) {
    function GetOr(default: T): T
    {
      match this case None => default case Some(v) => v
    }
  }

  lemma Cons<T>(s: seq<T>, n: nat)
    requires n < |s|
    ensures [s[0]] + s[1..][..n] == s[..n + 1]
    ensures s[1..][n..] == s[n + 1..]
    ensures [s[0]] + s[1..] == s
  {
  }

  lemma Concat<T>(a: seq<T>, b: seq<T>, c: seq<T>)
    ensures a + b + c == a + (b + c)
  {
  }

  ghost predicate Distinct<T>(s: seq<T>)
  {
    forall i, j :: 0 <= i < j < |s| ==> s[i] != s[j]
  }

  lemma DistinctConcat<T>(a: seq<T>, b: seq<T>)
    requires Distinct(a) && Distinct(b) && (forall x :: x in a ==> x !in b)
    ensures Distinct(a + b)
  {
    forall i, j | 0 <= i < j < |a + b| ensures (a + b)[i] != (a + b)[j] {
      if i < |a| && |a| <= j { assert a[i] in a; }
    }
  }

  /** `vals` lists the values of `m`, each key of `m` exactly once and in any order; `keys`
      says which key each value was listed for. */
  ghost predicate Lists<K, V>(keys: seq<K>, vals: seq<V>, m: map<K, V>)
  {
    && |keys| == |vals|
    && Distinct(keys)
    && (forall i :: 0 <= i < |keys| ==> keys[i] in m && vals[i] == m[keys[i]])
    && (forall k :: k in m ==> k in keys)
  }

  /** A listing without its last key lists the map without that key. */
  lemma ListsInit<K, V>(keys: seq<K>, vals: seq<V>, m: map<K, V>)
    requires Lists(keys, vals, m) && |keys| > 0
    ensures var last := |keys| - 1; Lists(keys[..last], vals[..last], m - {keys[last]})
  {
    var last := |keys| - 1;
    forall k | k in m && k != keys[last] ensures k in keys[..last] {
      assert k in keys;
    }
  }

  /** A listing has as many values as the map has keys. */
  lemma {:induction false} ListsLength<K, V>(keys: seq<K>, vals: seq<V>, m: map<K, V>)
    requires Lists(keys, vals, m)
    ensures |vals| == |m|
  {
    if |keys| == 0 {
      assert m.Keys == {};
    } else {
      var last := |keys| - 1;
      var m' := m - {keys[last]};
      ListsInit(keys, vals, m);
      ListsLength(keys[..last], vals[..last], m');
      assert m'.Keys == m.Keys - {keys[last]};
    }
  }

  /** A set is as large as its image under a function that is injective on it. */
  lemma {:induction false} ImageSize<A(!new), B(!new)>(s: set<A>, f: A -> B, image: set<B>)
    requires forall a, b :: a in s && b in s && f(a) == f(b) ==> a == b
    requires forall y :: y in image <==> exists a :: a in s && f(a) == y
    ensures |image| == |s|
  {
    if s == {} {
      assert image == {};
    } else {
      var x :| x in s;
      forall y ensures y in image - {f(x)} <==> exists a :: a in s - {x} && f(a) == y {
        if y in image - {f(x)} {
          var a :| a in s && f(a) == y;
          assert a in s - {x};
        }
      }
      ImageSize(s - {x}, f, image - {f(x)});
      assert f(x) in image;
    }
  }
}
