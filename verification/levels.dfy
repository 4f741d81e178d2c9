/** Topic levels: the splitter that drives both topic trees, and the matching relation
    between filters and topics (section 4.7 of MQTT Version 3.1.1). */
module TopicLevels {
  import opened Bytes

  type Level = bytes
  type Path = seq<Level>

  const SEP: byte := 0x2F
  const HASH: byte := 0x23
  const PLUS: byte := 0x2B
  const MWC: Level := [HASH]
  const SWC: Level := [PLUS]

  // ----- One step of the splitter -----

  datatype Next = Next(level: Level, rest: bytes) | Malformed

  /** The index of the first separator, or the length when there is none. */
  function FirstSep(t: bytes): (i: nat)
    ensures i <= |t| && SEP !in t[..i]
    ensures i < |t| ==> t[i] == SEP
  {
    if t == [] || t[0] == SEP then 0
    else
      var i := FirstSep(t[1..]);
      assert t[..i + 1] == [t[0]] + t[1..][..i];
      i + 1
  }

  /** A wildcard occurs in a level only when it is the whole level. */
  predicate WholeLevel(l: Level)
  {
    && (HASH in l ==> l == MWC)
    && (PLUS in l ==> l == SWC)
  }

  /** What one step must deliver: the text before the first separator, an empty level being
      read as `+`, and the text after it. */
  function NextLevel(t: bytes): Next
  {
    var i := FirstSep(t);
    if !WholeLevel(t[..i]) || (t[..i] == MWC && i < |t|) then Malformed
    else if i == |t| then Next(t, [])
    else Next(if i == 0 then SWC else t[..i], t[i + 1..])
  }

  lemma FirstSepIs(t: bytes, i: nat)
    requires i <= |t| && SEP !in t[..i] && (i < |t| ==> t[i] == SEP)
    ensures FirstSep(t) == i
  {
    var j := FirstSep(t);
    assert i >= j;
  }

  datatype State = StateCHR | StateMWC | StateSWC

  /** The scan itself: one pass with a state variable that remembers a wildcard seen at the
      start of the level. */
  method NextTopicLevel(topic: bytes) returns (r: Next)
    ensures r == NextLevel(topic)
  {
    var s := StateCHR;
    var i := 0;
    while i < |topic|
      invariant 0 <= i <= |topic|
      invariant SEP !in topic[..i]
      invariant s.StateMWC? ==> i == 1 && topic[..i] == MWC
      invariant s.StateSWC? ==> i == 1 && topic[..i] == SWC
      invariant s.StateCHR? ==> HASH !in topic[..i] && PLUS !in topic[..i]
    {
      var c := topic[i];
      if c == SEP {
        FirstSepIs(topic, i);
        if s.StateMWC? {
          return Malformed;
        }
        if i == 0 {
          return Next(SWC, topic[i + 1..]);
        }
        return Next(topic[..i], topic[i + 1..]);
      } else if c == HASH {
        if i != 0 {
          BadWildcard(topic, i);
          return Malformed;
        }
        s := StateMWC;
      } else if c == PLUS {
        if i != 0 {
          BadWildcard(topic, i);
          return Malformed;
        }
        s := StateSWC;
      } else {
        if s.StateMWC? || s.StateSWC? {
          BadWildcard(topic, 0);
          return Malformed;
        }
        s := StateCHR;
      }
      assert topic[..i + 1] == topic[..i] + [c];
      i := i + 1;
    }
    assert topic[..i] == topic;
    FirstSepIs(topic, i);
    return Next(topic, []);
  }

  /** A wildcard next to another character spoils the level. */
  lemma BadWildcard(t: bytes, i: nat)
    requires i < |t| && SEP !in t[..i] && (t[i] == HASH || t[i] == PLUS)
    requires i != 0 || (1 < |t| && t[1] != SEP)
    ensures NextLevel(t) == Malformed
  {
    var j := FirstSep(t);
    assert i <= j;
    assert t[..j][i] == t[i];
  }

  // ----- The whole splitter -----

  /** The levels read before the end or before the first malformed level. */
  datatype Parsed = Parsed(levels: Path, ok: bool)

  function Split(t: bytes): Parsed
    decreases |t|
  {
    if t == [] then Parsed([], true)
    else match NextLevel(t)
      case Malformed => Parsed([], false)
      case Next(l, rest) =>
        var p := Split(rest);
        Parsed([l] + p.levels, p.ok)
  }

  /** Every step on a non-empty topic leaves strictly less to read. */
  lemma StepShrinks(t: bytes)
    requires t != [] && NextLevel(t).Next?
    ensures |NextLevel(t).rest| < |t|
    ensures NextLevel(t).level != [] && SEP !in NextLevel(t).level && WholeLevel(NextLevel(t).level)
    ensures NextLevel(t).level == MWC ==> NextLevel(t).rest == []
  {
  }

  /** What the levels of any topic look like; `#` can only be the last level of a topic that
      was read to its end. */
  lemma {:induction false} SplitLevels(t: bytes)
    ensures forall i :: 0 <= i < |Split(t).levels| ==>
              var l := Split(t).levels[i];
              l != [] && SEP !in l && WholeLevel(l) && (l == MWC ==> i == |Split(t).levels| - 1 && Split(t).ok)
    decreases |t|
  {
    if t != [] && NextLevel(t).Next? {
      StepShrinks(t);
      SplitLevels(NextLevel(t).rest);
    }
  }

  // ----- The splitter against the plain `/`-split -----

  /** The usual split at every separator: always one more piece than there are separators. */
  function SlashSplit(t: bytes): (r: seq<bytes>)
    ensures |r| > 0
  {
    if t == [] then [[]]
    else
      var r := SlashSplit(t[1..]);
      if t[0] == SEP then [[]] + r else [[t[0]] + r[0]] + r[1..]
  }

  lemma {:induction false} SlashSplitAtFirst(t: bytes)
    ensures var i := FirstSep(t);
            SlashSplit(t) == if i == |t| then [t] else [t[..i]] + SlashSplit(t[i + 1..])
  {
    if t != [] && t[0] != SEP {
      SlashSplitAtFirst(t[1..]);
      var i := FirstSep(t[1..]);
      assert t[1..][i..] == t[i + 1..];
      assert [t[0]] + t[1..] == t;
      if i < |t| - 1 {
        assert t[1..][i + 1..] == t[i + 2..];
        assert [t[0]] + t[1..][..i] == t[..i + 1];
      }
    }
  }

  /** Wildcards fill whole pieces, and `#` only the last one. */
  predicate WholePieces(r: seq<bytes>)
  {
    forall i :: 0 <= i < |r| ==> WholeLevel(r[i]) && (r[i] == MWC ==> i == |r| - 1)
  }

  /** A final empty piece is dropped and every other empty piece is read as `+`. */
  function ReadPieces(r: seq<bytes>): Path
    requires |r| > 0
  {
    var n := if r[|r| - 1] == [] then |r| - 1 else |r|;
    seq(n, i requires 0 <= i < n => if r[i] == [] then SWC else r[i])
  }

  lemma PathsCons(head: bytes, rest: seq<bytes>)
    requires |rest| > 0
    ensures ReadPieces([head] + rest) == [if head == [] then SWC else head] + ReadPieces(rest)
  {
    var r := [head] + rest;
    var a, b := ReadPieces(r), ReadPieces(rest);
    assert r[|r| - 1] == rest[|rest| - 1] && |a| == |b| + 1;
    forall i | 0 <= i < |b| ensures a[i + 1] == b[i] {
      assert r[i + 1] == rest[i];
    }
  }

  /** Both readings of the pieces, one piece at a time. */
  lemma PiecesCons(head: bytes, rest: seq<bytes>)
    requires |rest| > 0
    ensures WholePieces([head] + rest) <==> WholeLevel(head) && head != MWC && WholePieces(rest)
    ensures ReadPieces([head] + rest) == [if head == [] then SWC else head] + ReadPieces(rest)
  {
    hide WholeLevel;
    var r := [head] + rest;
    assert r[0] == head && r[|r| - 1] == rest[|rest| - 1];
    assert forall j :: 0 <= j < |rest| ==> r[j + 1] == rest[j];
    if WholePieces(r) {
      forall i | 0 <= i < |rest| ensures WholeLevel(rest[i]) && (rest[i] == MWC ==> i == |rest| - 1) {
        assert rest[i] == r[i + 1];
      }
    }
    PathsCons(head, rest);
  }

  /** The splitter succeeds exactly on the well-formed topics, and then its levels are the
      pieces of the plain split. */
  lemma {:induction false} SplitIsSlashSplit(t: bytes)
    ensures Split(t).ok <==> WholePieces(SlashSplit(t))
    ensures Split(t).ok ==> Split(t).levels == ReadPieces(SlashSplit(t))
    decreases |t|
  {
    SlashSplitAtFirst(t);
    var i := FirstSep(t);
    if i < |t| {
      PiecesCons(t[..i], SlashSplit(t[i + 1..]));
      SplitIsSlashSplit(t[i + 1..]);
    } else {
      assert t[..i] == t;
      assert Split([]) == Parsed([], true);
      assert SlashSplit(t)[0] == t;
    }
  }

  /** Exactly which topics are well-formed, byte by byte: between the slashes `#` and `+` stand alone,
      and `#` comes last. */
  lemma WellFormedIff(t: bytes)
    ensures Split(t).ok <==>
            forall i :: 0 <= i < |SlashSplit(t)| ==>
              var l := SlashSplit(t)[i];
              && (0x23 in l ==> l == [0x23] && i == |SlashSplit(t)| - 1)
              && (0x2B in l ==> l == [0x2B])
  {
    SplitIsSlashSplit(t);
  }

  /** What lies between the slashes. */
  lemma SlashSplitAt(a: bytes, b: bytes)
    requires 0x2F !in a
    ensures SlashSplit(a) == [a]
    ensures SlashSplit(a + [0x2F] + b) == [a] + SlashSplit(b)
  {
    var t := a + [0x2F] + b;
    SlashSplitAtFirst(a);
    SlashSplitAtFirst(t);
    FirstSepIs(a, |a|);
    FirstSepIs(t, |a|);
    assert t[..|a|] == a && t[|a| + 1..] == b;
  }

  /** The levels glued back together with separators. */
  function Join(p: Path): bytes
  {
    if p == [] then [] else if |p| == 1 then p[0] else p[0] + [SEP] + Join(p[1..])
  }

  /** Joining the levels of a well-formed topic and splitting again changes nothing. */
  lemma {:induction false} SplitOfJoin(t: bytes)
    requires Split(t).ok
    ensures Split(Join(Split(t).levels)) == Split(t)
    decreases |t|
  {
    if t != [] {
      StepShrinks(t);
      var l, rest := NextLevel(t).level, NextLevel(t).rest;
      SplitOfJoin(rest);
      var p := Split(rest).levels;
      var j := Join([l] + p);
      if p == [] {
        FirstSepIs(j, |l|);
        assert j[..|l|] == l;
      } else {
        assert ([l] + p)[1..] == p;
        FirstSepIs(j, |l|);
        assert j[..|l|] == l && j[|l| + 1..] == Join(p);
      }
    }
  }

  // ----- The matching relation -----

  /** Filter levels against topic levels: `#` at the end matches whatever is left, including
      nothing; `+` matches one level. */
  predicate Match(f: Path, t: Path)
  {
    if f == [] then t == []
    else if f[0] == MWC then f == [MWC]
    else t != [] && (f[0] == SWC || f[0] == t[0]) && Match(f[1..], t[1..])
  }

  /** The relation read off the standard: level by level, up to a final `#` if there is one. */
  lemma {:induction false} MatchMeaning(f: Path, t: Path)
    requires forall i :: 0 <= i < |f| - 1 ==> f[i] != [0x23]
    ensures var n := if f != [] && f[|f| - 1] == [0x23] then |f| - 1 else |f|;
            Match(f, t) <==>
            && (if n < |f| then n <= |t| else n == |t|)
            && forall i :: 0 <= i < n ==> f[i] == [0x2B] || f[i] == t[i]
  {
    if f != [] && f[0] != MWC && t != [] {
      MatchMeaning(f[1..], t[1..]);
      var n := if f[|f| - 1] == MWC then |f| - 1 else |f|;
      assert forall i :: 0 < i < n ==> f[i] == f[1..][i - 1];
      assert forall i :: 0 < i < |t| ==> t[i] == t[1..][i - 1];
      assert forall i :: 0 <= i < |f| - 1 ==> f[1..][i] == f[i + 1];
      assert forall i :: 0 <= i < |t| - 1 ==> t[1..][i] == t[i + 1];
    }
  }

  // ----- Matching against the standard -----

  /** A published topic has no wildcards. */
  predicate NoWildcards(t: bytes)
  {
    HASH !in t && PLUS !in t
  }

  const DOLLAR: byte := 0x24

  predicate StartsWithWildcard(f: bytes)
  {
    f != [] && (f[0] == HASH || f[0] == PLUS)
  }

  predicate StartsWithDollar(t: bytes)
  {
    t != [] && t[0] == DOLLAR
  }

  /** Section 4.7.2 keeps filters that start with a wildcard away from topics that start with `$`. */
  predicate Barred(f: bytes, t: bytes)
  {
    StartsWithWildcard(f) && StartsWithDollar(t)
  }

  /** What sections 4.7.1 and 4.7.2 ask for: the pieces between the separators are compared, empty
      ones included, and the pair is not barred. */
  predicate Standard(f: bytes, t: bytes)
  {
    Match(SlashSplit(f), SlashSplit(t)) && !Barred(f, t)
  }

  /** The broker compares the levels it has read. */
  predicate AgreesOn(f: bytes, t: bytes)
  {
    Match(Split(f).levels, Split(t).levels) <==> Standard(f, t)
  }

  /** The same, byte by byte. */
  lemma StandardMeans(f: bytes, t: bytes)
    requires forall i :: 0 <= i < |SlashSplit(f)| - 1 ==> SlashSplit(f)[i] != [0x23]
    ensures var fs, ts := SlashSplit(f), SlashSplit(t);
            var n := if fs[|fs| - 1] == [0x23] then |fs| - 1 else |fs|;
            Standard(f, t) <==>
            && (if n < |fs| then n <= |ts| else n == |ts|)
            && (forall i :: 0 <= i < n ==> fs[i] == [0x2B] || fs[i] == ts[i])
            && !(f != [] && t != [] && (f[0] == 0x23 || f[0] == 0x2B) && t[0] == 0x24)
  {
    MatchMeaning(SlashSplit(f), SlashSplit(t));
  }

  predicate LastPieceEmpty(t: bytes)
  {
    SlashSplit(t)[|SlashSplit(t)| - 1] == []
  }

  lemma {:induction false} PiecesHaveNoWildcards(t: bytes)
    requires NoWildcards(t)
    ensures forall i :: 0 <= i < |SlashSplit(t)| ==> NoWildcards(SlashSplit(t)[i])
    ensures WholePieces(SlashSplit(t))
  {
    if t != [] {
      PiecesHaveNoWildcards(t[1..]);
      var r, more := SlashSplit(t), SlashSplit(t[1..]);
      forall i | 0 <= i < |r| ensures NoWildcards(r[i]) {
        if t[0] == SEP {
          assert i > 0 ==> r[i] == more[i - 1];
        } else {
          assert r[i] == if i == 0 then [t[0]] + more[0] else more[i];
        }
      }
    }
    assert forall i :: 0 <= i < |SlashSplit(t)| ==> NoWildcards(SlashSplit(t)[i]);
  }

  /** Reading an empty piece as `+` on the topic's side makes no difference to a filter without
      empty pieces. */
  lemma {:induction false} MatchReadPieces(f: Path, r: seq<bytes>)
    requires [] !in f && r != [] && r[|r| - 1] != []
    requires forall i :: 0 <= i < |r| ==> NoWildcards(r[i])
    ensures Match(f, ReadPieces(r)) <==> Match(f, r)
  {
    if f != [] && |r| > 1 {
      PathsCons(r[0], r[1..]);
      assert [r[0]] + r[1..] == r;
      MatchReadPieces(f[1..], r[1..]);
    } else if f != [] && f[0] != MWC {
      assert ReadPieces(r) == r;
    }
  }

  lemma ReadWholePieces(r: seq<bytes>)
    requires r != [] && [] !in r
    ensures ReadPieces(r) == r
  {
  }

  /** Without empty pieces in the filter and at the end of the topic, the broker compares pieces. */
  lemma MatchesPieces(f: bytes, t: bytes)
    requires Split(f).ok && NoWildcards(t)
    requires [] !in SlashSplit(f) && !LastPieceEmpty(t)
    ensures Match(Split(f).levels, Split(t).levels) <==> Match(SlashSplit(f), SlashSplit(t))
  {
    hide SlashSplit, Split, Match, ReadPieces, WholePieces, NoWildcards;
    SplitIsSlashSplit(f);
    SplitIsSlashSplit(t);
    PiecesHaveNoWildcards(t);
    ReadWholePieces(SlashSplit(f));
    MatchReadPieces(SlashSplit(f), SlashSplit(t));
  }

  /** The broker then matches as the standard does unless the pieces match a barred pair. */
  lemma AgreesIff(f: bytes, t: bytes)
    requires Split(f).ok && NoWildcards(t)
    requires [] !in SlashSplit(f) && !LastPieceEmpty(t)
    ensures AgreesOn(f, t) <==> !(Barred(f, t) && Match(SlashSplit(f), SlashSplit(t)))
  {
    MatchesPieces(f, t);
  }

  /** Joining undoes the plain split of pieces without separators. */
  lemma {:induction false} SlashSplitOfJoin(p: Path)
    requires p != [] && forall i :: 0 <= i < |p| ==> SEP !in p[i]
    ensures SlashSplit(Join(p)) == p
  {
    var j := Join(p);
    SlashSplitAtFirst(j);
    FirstSepIs(j, |p[0]|);
    if |p| > 1 {
      SlashSplitOfJoin(p[1..]);
      assert j[..|p[0]|] == p[0] && j[|p[0]| + 1..] == Join(p[1..]);
    }
  }

  /** A topic that the filter levels match: each wildcard is replaced by `$`. */
  function Instance(ls: Path): Path
  {
    seq(|ls|, i requires 0 <= i < |ls| => if ls[i] == SWC || ls[i] == MWC then [DOLLAR] else ls[i])
  }

  lemma {:induction false} JoinHasNoWildcards(p: Path)
    requires forall i :: 0 <= i < |p| ==> NoWildcards(p[i])
    ensures NoWildcards(Join(p))
  {
    if |p| > 1 {
      JoinHasNoWildcards(p[1..]);
    }
  }

  lemma {:induction false} MatchesInstance(ls: Path)
    requires forall i :: 0 <= i < |ls| - 1 ==> ls[i] != MWC
    ensures Match(ls, Instance(ls))
  {
    MatchMeaning(ls, Instance(ls));
  }

  /** An empty piece of a filter matches no piece that is not empty. */
  lemma EmptyPieceFails(r: seq<bytes>, t: Path)
    requires WholePieces(r) && [] in r && [] !in t
    ensures !Match(r, t)
  {
    MatchMeaning(r, t);
    var i :| 0 <= i < |r| && r[i] == [];
    assert r[|r| - 1] == MWC ==> i < |r| - 1;
  }

  /** The instance of a filter's levels, as a topic. */
  lemma InstanceTopic(f: bytes)
    requires Split(f).ok && Split(f).levels != []
    ensures var t := Join(Instance(Split(f).levels));
            && NoWildcards(t) && !LastPieceEmpty(t)
            && SlashSplit(t) == Instance(Split(f).levels) == Split(t).levels && [] !in SlashSplit(t)
  {
    SplitLevels(f);
    var p := Instance(Split(f).levels);
    forall i | 0 <= i < |p| ensures p[i] != [] && SEP !in p[i] && NoWildcards(p[i]) {
      var l := Split(f).levels[i];
      assert WholeLevel(l);
    }
    SlashSplitOfJoin(p);
    JoinHasNoWildcards(p);
    PiecesHaveNoWildcards(Join(p));
    SplitIsSlashSplit(Join(p));
    ReadWholePieces(p);
  }

  /** A filter that starts with a wildcard has one for its first level, so that its instance starts
      with `$`. */
  lemma WildcardFirst(f: bytes)
    requires Split(f).ok && StartsWithWildcard(f)
    ensures Split(f).levels != [] && StartsWithDollar(Join(Instance(Split(f).levels)))
  {
    var l := NextLevel(f).level;
    var i := FirstSep(f);
    assert f[..i][0] == f[0];
    assert l == SWC || l == MWC;
    var p := Instance(Split(f).levels);
    assert Split(f).levels[0] == l && p[0] == [DOLLAR];
    assert Join(p)[0] == p[0][0];
  }

  /** A filter with an empty piece or a wildcard at its start disagrees on its instance. */
  lemma InstanceDisagrees(f: bytes)
    requires Split(f).ok && f != [] && ([] in SlashSplit(f) || StartsWithWildcard(f))
    ensures var t := Join(Instance(Split(f).levels)); NoWildcards(t) && !LastPieceEmpty(t) && !AgreesOn(f, t)
  {
    var t := Join(Instance(Split(f).levels));
    LevelsNotEmpty(f);
    InstanceTopic(f);
    SplitLevels(f);
    MatchesInstance(Split(f).levels);
    hide Match, Join, Split, SlashSplit, Instance;
    if [] in SlashSplit(f) {
      SplitIsSlashSplit(f);
      EmptyPieceFails(SlashSplit(f), SlashSplit(t));
    } else {
      WildcardFirst(f);
    }
  }

  lemma LevelsNotEmpty(f: bytes)
    requires Split(f).ok && f != []
    ensures Split(f).levels != []
  {
  }

  /** Exactly which filters the broker treats as the standard does, on all topics that do not end
      in an empty piece. */
  lemma FilterAgreesIff(f: bytes)
    requires Split(f).ok && f != []
    ensures (forall t :: NoWildcards(t) && !LastPieceEmpty(t) ==> AgreesOn(f, t)) <==>
            [] !in SlashSplit(f) && !StartsWithWildcard(f)
  {
    hide Split, SlashSplit, AgreesOn, LastPieceEmpty;
    if [] !in SlashSplit(f) && !StartsWithWildcard(f) {
      forall t | NoWildcards(t) && !LastPieceEmpty(t) ensures AgreesOn(f, t) {
        AgreesIff(f, t);
      }
    } else {
      InstanceDisagrees(f);
    }
  }

  /** As many `+` as the topic has pieces. */
  function Pluses(n: nat): Path
  {
    seq(n, i => SWC)
  }

  lemma {:induction false} PlusesMatch(n: nat, t: Path)
    ensures Match(Pluses(n), t) <==> |t| == n
  {
    if n > 0 && t != [] {
      assert Pluses(n)[1..] == Pluses(n - 1);
      PlusesMatch(n - 1, t[1..]);
    }
  }

  /** A topic given by their pieces. */
  lemma PieceByPiece(p: Path, levels: Path)
    requires p != [] && (forall i :: 0 <= i < |p| ==> SEP !in p[i]) && WholePieces(p) && levels == ReadPieces(p)
    ensures SlashSplit(Join(p)) == p && Split(Join(p)) == Parsed(levels, true)
  {
    SlashSplitOfJoin(p);
    SplitIsSlashSplit(Join(p));
  }

  lemma PlusesTopic(n: nat)
    requires n > 0
    ensures Split(Join(Pluses(n))) == Parsed(Pluses(n), true) && SlashSplit(Join(Pluses(n))) == Pluses(n)
    ensures [] !in Pluses(n)
  {
    hide SlashSplit, Split, Join;
    PieceByPiece(Pluses(n), Pluses(n));
  }

  lemma LevelsOfTopic(t: bytes)
    requires NoWildcards(t)
    ensures |Split(t).levels| == |SlashSplit(t)| - if LastPieceEmpty(t) then 1 else 0
  {
    hide Split, SlashSplit, WholePieces, NoWildcards;
    PiecesHaveNoWildcards(t);
    SplitIsSlashSplit(t);
  }

  /** A filter of as many `+` as the topic has pieces, the last of them empty. */
  lemma PlusesDisagree(t: bytes)
    requires NoWildcards(t) && LastPieceEmpty(t) && !StartsWithDollar(t)
    ensures var f := Join(Pluses(|SlashSplit(t)|));
            Split(f).ok && [] !in SlashSplit(f) && !AgreesOn(f, t)
  {
    hide Match, SlashSplit, Split, Join, Pluses;
    var n := |SlashSplit(t)|;
    PlusesTopic(n);
    LevelsOfTopic(t);
    PlusesMatch(n, SlashSplit(t));
    PlusesMatch(n, Split(t).levels);
  }

  /** The filter `#` takes every topic here, and none that starts with `$` in the standard. */
  lemma HashDisagrees(t: bytes)
    requires StartsWithDollar(t)
    ensures Split(MWC) == Parsed([MWC], true) && [] !in SlashSplit(MWC) && !AgreesOn(MWC, t)
  {
    PieceByPiece([MWC], [MWC]);
    assert Join([MWC]) == MWC;
  }

  /** Exactly which topics the broker treats as the standard does, on all filters without empty
      pieces. */
  lemma TopicAgreesIff(t: bytes)
    requires NoWildcards(t)
    ensures (forall f :: Split(f).ok && [] !in SlashSplit(f) ==> AgreesOn(f, t)) <==>
            !LastPieceEmpty(t) && !StartsWithDollar(t)
  {
    hide Split, SlashSplit, AgreesOn, LastPieceEmpty;
    if !LastPieceEmpty(t) && !StartsWithDollar(t) {
      forall f | Split(f).ok && [] !in SlashSplit(f) ensures AgreesOn(f, t) {
        AgreesIff(f, t);
      }
    } else if StartsWithDollar(t) {
      HashDisagrees(t);
    } else {
      PlusesDisagree(t);
    }
  }

  /** The filter `#` takes the topic `$/x`; in the standard it does not. */
  lemma DollarIsNotSpecial()
    ensures var f: bytes, t: bytes := [0x23], [0x24, 0x2F, 0x78];
            && Split(f).ok && NoWildcards(t) && [] !in SlashSplit(f) && !LastPieceEmpty(t)
            && Match(Split(f).levels, Split(t).levels) && !Standard(f, t)
  {
    hide Split, SlashSplit, Join;
    var a: Level, x: Level := [DOLLAR], [0x78];
    PieceByPiece([a, x], [a, x]);
    JoinTwo(a, x);
    assert a + [SEP] + x == [DOLLAR, SEP, 0x78];
    HashDisagrees([DOLLAR, SEP, 0x78]);
  }

  /** The filter `a//b` takes the topic `a/x/b`; in the standard it does not. */
  lemma EmptyPieceTakesLevel()
    ensures var f: bytes, t: bytes := [0x61, 0x2F, 0x2F, 0x62], [0x61, 0x2F, 0x78, 0x2F, 0x62];
            Match(Split(f).levels, Split(t).levels) && !Standard(f, t)
  {
    hide SlashSplit, Split, Join, Match;
    var a: Level, b: Level, x: Level, none: Level := [0x61], [0x62], [0x78], [];
    PieceByPiece([a, none, b], [a, SWC, b]);
    PieceByPiece([a, x, b], [a, x, b]);
    JoinThree(a, none, b);
    JoinThree(a, x, b);
    assert a + [SEP] + (none + [SEP] + b) == [0x61, SEP, SEP, 0x62];
    assert a + [SEP] + (x + [SEP] + b) == [0x61, SEP, 0x78, SEP, 0x62];
    MatchMeaning([a, SWC, b], [a, x, b]);
    MatchMeaning([a, none, b], [a, x, b]);
    assert [a, none, b][1] != [a, x, b][1];
  }

  /** The topic `a/` is not taken by the filter `a/+`; in the standard it is. */
  lemma EmptyLastPieceIsLost()
    ensures var f: bytes, t: bytes := [0x61, 0x2F, 0x2B], [0x61, 0x2F];
            !Match(Split(f).levels, Split(t).levels) && Standard(f, t)
  {
    hide SlashSplit, Split, Join, Match;
    var a: Level, none: Level := [0x61], [];
    PieceByPiece([a, SWC], [a, SWC]);
    PieceByPiece([a, none], [a]);
    JoinTwo(a, SWC);
    JoinTwo(a, none);
    assert a + [SEP] + SWC == [0x61, SEP, PLUS] && a + [SEP] + none == [0x61, SEP];
    MatchMeaning([a, SWC], [a]);
    MatchMeaning([a, SWC], [a, none]);
  }

  /** A text without wildcards and separators. */
  predicate Plain(a: bytes)
  {
    a != [] && 0x23 !in a && 0x2B !in a && 0x2F !in a
  }

  lemma PlainLevels(a: bytes, rest: bytes)
    requires Plain(a)
    ensures Split(a) == Parsed([a], true)
    ensures Split(a + [0x2F] + rest) == Parsed([a] + Split(rest).levels, Split(rest).ok)
  {
    var t := a + [0x2F] + rest;
    FirstSepIs(a, |a|);
    FirstSepIs(t, |a|);
    assert a[..|a|] == a && t[..|a|] == a && t[|a| + 1..] == rest && Split([]) == Parsed([], true);
  }

  lemma WildcardLevels()
    ensures Split([0x2B]) == Parsed([[0x2B]], true) && Split([0x23]) == Parsed([[0x23]], true)
  {
    FirstSepIs([0x2B], 1);
    FirstSepIs([0x23], 1);
    assert Split([]) == Parsed([], true);
  }

  /** The wildcards byte by byte: `a/+` takes `a/b` but neither `a` nor `a/b/c`; `a/#` takes all three;
      and without wildcards the texts must be equal. */
  lemma WildcardsAtWork(a: bytes, b: bytes, c: bytes)
    requires Plain(a) && Plain(b) && Plain(c)
    ensures var one, two, three := Split(a).levels, Split(a + [0x2F] + b).levels,
                                   Split(a + [0x2F] + (b + [0x2F] + c)).levels;
            var plus, hash := Split(a + [0x2F] + [0x2B]), Split(a + [0x2F] + [0x23]);
            && plus.ok && Match(plus.levels, two) && !Match(plus.levels, one) && !Match(plus.levels, three)
            && hash.ok && Match(hash.levels, one) && Match(hash.levels, two) && Match(hash.levels, three)
            && (Match(Split(b).levels, Split(c).levels) <==> b == c)
  {
    hide *;
    PlainLevels(a, b);
    PlainLevels(b, c);
    PlainLevels(c, b);
    PlainLevels(a, b + [0x2F] + c);
    PlainLevels(a, [0x2B]);
    PlainLevels(a, [0x23]);
    WildcardLevels();
    assert [a] + [b] == [a, b] && [a] + [b, c] == [a, b, c] && [b] + [c] == [b, c];
    assert [a] + [[0x2B]] == [a, [0x2B]] && [a] + [[0x23]] == [a, [0x23]];
    PlainNotWild(a, b);
    PlainNotWild(b, c);
    PathsAtWork(a, b, c);
  }

  lemma PlainNotWild(a: bytes, b: bytes)
    requires Plain(a) && Plain(b)
    ensures a != [0x23] && a != [0x2B] && b != [0x23] && b != [0x2B]
  {
  }

  lemma PathsAtWork(a: Level, b: Level, c: Level)
    requires a != [0x23] && a != [0x2B] && b != [0x23] && b != [0x2B]
    ensures !Match([a, [0x2B]], [a]) && Match([a, [0x2B]], [a, b]) && !Match([a, [0x2B]], [a, b, c])
    ensures Match([a, [0x23]], [a]) && Match([a, [0x23]], [a, b]) && Match([a, [0x23]], [a, b, c])
    ensures Match([b], [c]) <==> b == c
  {
    hide Match;
    MatchMeaning([a, [0x2B]], [a]);
    MatchMeaning([a, [0x2B]], [a, b]);
    MatchMeaning([a, [0x2B]], [a, b, c]);
    MatchMeaning([a, [0x23]], [a]);
    MatchMeaning([a, [0x23]], [a, b]);
    MatchMeaning([a, [0x23]], [a, b, c]);
    MatchMeaning([b], [c]);
  }

  lemma JoinTwo(x: Level, y: Level)
    ensures Join([x, y]) == x + [SEP] + y
  {
    assert [x, y][1..] == [y];
  }

  lemma JoinThree(x: Level, y: Level, z: Level)
    ensures Join([x, y, z]) == x + [SEP] + (y + [SEP] + z)
  {
    JoinTwo(y, z);
    assert [x, y, z][1..] == [y, z];
  }
}
