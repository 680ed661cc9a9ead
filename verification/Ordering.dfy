/** The orders in which a manager goes through service groups. */
module Ordering {
  import opened Basics

  ghost function Elements(s: seq<Sg>): set<Sg> {
    set x | x in s
  }

  ghost predicate Distinct(s: seq<Sg>) {
    forall i, j :: 0 <= i < j < |s| ==> s[i] != s[j]
  }

  /** Highest score first, then lowest id. */
  predicate Before(score: Sg -> int, a: Sg, b: Sg) {
    score(a) > score(b) || (score(a) == score(b) && a <= b)
  }

  ghost predicate Ordered(score: Sg -> int, s: seq<Sg>) {
    forall i, j :: 0 <= i < j < |s| ==> Before(score, s[i], s[j])
  }

  function Insert(score: Sg -> int, x: Sg, s: seq<Sg>): (r: seq<Sg>)
    ensures multiset(r) == multiset(s) + multiset{x}
  {
    if s == [] then [x]
    else if Before(score, x, s[0]) then [x] + s
    else
      assert s == [s[0]] + s[1..];
      [s[0]] + Insert(score, x, s[1..])
  }

  /** What `sorted` makes of a list under the key (-score, id). */
  function Sort(score: Sg -> int, s: seq<Sg>): (r: seq<Sg>)
    ensures multiset(r) == multiset(s)
  {
    if s == [] then []
    else
      assert s == [s[0]] + s[1..];
      Insert(score, s[0], Sort(score, s[1..]))
  }

  function ById(s: seq<Sg>): seq<Sg> {
    Sort(_ => 0, s)
  }

  datatype ShardMode = Sequential | Score

  /** The order in which a manager tries to acquire; `score` stands for the digest of owner and group. */
  function Candidates(mode: ShardMode, score: Sg -> int, groups: seq<Sg>): seq<Sg> {
    if mode.Score? then Sort(score, groups) else ById(groups)
  }

  function Filter(keep: Sg -> bool, s: seq<Sg>): seq<Sg> {
    if s == [] then [] else (if keep(s[0]) then [s[0]] else []) + Filter(keep, s[1..])
  }

  lemma {:induction false} InsertOrdered(score: Sg -> int, x: Sg, s: seq<Sg>)
    requires Ordered(score, s)
    ensures Ordered(score, Insert(score, x, s))
  {
    if s != [] && !Before(score, x, s[0]) {
      var rest := Insert(score, x, s[1..]);
      InsertOrdered(score, x, s[1..]);
      forall i | 0 <= i < |rest| ensures Before(score, s[0], rest[i]) {
        assert rest[i] in multiset(rest);
        assert rest[i] == x || rest[i] in s[1..];
      }
    }
  }

  lemma {:induction false} SortOrdered(score: Sg -> int, s: seq<Sg>)
    ensures Ordered(score, Sort(score, s))
  {
    if s != [] {
      SortOrdered(score, s[1..]);
      InsertOrdered(score, s[0], Sort(score, s[1..]));
    }
  }

  lemma {:induction false} OrderedIsUnique(score: Sg -> int, a: seq<Sg>, b: seq<Sg>)
    requires Ordered(score, a) && Ordered(score, b) && multiset(a) == multiset(b)
    ensures a == b
  {
    assert |a| == |multiset(a)| == |multiset(b)| == |b|;
    if a != [] {
      assert a[0] in multiset(b) && b[0] in multiset(a);
      assert a[0] == b[0];
      assert a == [a[0]] + a[1..] && b == [b[0]] + b[1..];
      assert multiset(a[1..]) == multiset(a) - multiset{a[0]};
      assert multiset(b[1..]) == multiset(b) - multiset{b[0]};
      OrderedIsUnique(score, a[1..], b[1..]);
    }
  }

  lemma {:induction false} FilterMultiset(keep: Sg -> bool, s: seq<Sg>, x: Sg)
    ensures multiset(Filter(keep, s))[x] == if keep(x) then multiset(s)[x] else 0
  {
    if s != [] {
      FilterMultiset(keep, s[1..], x);
      assert s == [s[0]] + s[1..];
    }
  }

  lemma {:induction false} FilterOrdered(score: Sg -> int, keep: Sg -> bool, s: seq<Sg>)
    requires Ordered(score, s)
    ensures Ordered(score, Filter(keep, s))
  {
    if s != [] {
      var rest := Filter(keep, s[1..]);
      FilterOrdered(score, keep, s[1..]);
      forall i | 0 <= i < |rest| ensures Before(score, s[0], rest[i]) {
        FilterMultiset(keep, s[1..], rest[i]);
        assert rest[i] in multiset(rest);
        assert rest[i] in s[1..];
      }
    }
  }

  /** In both shard modes and for any score: the candidates are the given groups, the same for every listing of
      them, by falling score and rising id, or by rising id alone; and leaving groups out does not change the order
      of the rest. */
  lemma CandidateOrder(mode: ShardMode, score: Sg -> int, groups: seq<Sg>, other: seq<Sg>, keep: Sg -> bool)
    ensures multiset(Candidates(mode, score, groups)) == multiset(groups)
    ensures var c := Candidates(mode, score, groups);
            forall i, j :: 0 <= i < j < |c| ==>
              && (mode.Score? ==> score(c[i]) > score(c[j]) || (score(c[i]) == score(c[j]) && c[i] <= c[j]))
              && (mode.Sequential? ==> c[i] <= c[j])
    ensures multiset(groups) == multiset(other) ==> Candidates(mode, score, groups) == Candidates(mode, score, other)
    ensures Candidates(mode, score, Filter(keep, groups)) == Filter(keep, Candidates(mode, score, groups))
  {
    var key := if mode.Score? then score else _ => 0;
    SortOrdered(key, groups);
    var c := Sort(key, groups);
    forall i, j | 0 <= i < j < |c|
      ensures mode.Score? ==> score(c[i]) > score(c[j]) || (score(c[i]) == score(c[j]) && c[i] <= c[j])
      ensures mode.Sequential? ==> c[i] <= c[j]
    {
      assert Before(key, c[i], c[j]);
    }
    if multiset(groups) == multiset(other) {
      SortOrdered(key, other);
      OrderedIsUnique(key, Sort(key, groups), Sort(key, other));
    }
    var kept := Filter(keep, groups);
    SortOrdered(key, kept);
    FilterOrdered(key, keep, Sort(key, groups));
    forall x ensures multiset(Sort(key, kept))[x] == multiset(Filter(keep, Sort(key, groups)))[x] {
      FilterMultiset(keep, groups, x);
      FilterMultiset(keep, Sort(key, groups), x);
    }
    OrderedIsUnique(key, Sort(key, kept), Filter(keep, Sort(key, groups)));
  }

  lemma SameElements(mode: ShardMode, score: Sg -> int, groups: seq<Sg>)
    ensures Elements(Candidates(mode, score, groups)) == Elements(groups)
  {
    var c := Candidates(mode, score, groups);
    assert multiset(c) == multiset(groups);
    forall x ensures x in c <==> x in groups {
      assert x in multiset(c) <==> x in multiset(groups);
    }
  }

  // ---- a set in ascending and descending order --------------------------------------------

  predicate Least(s: set<Sg>, x: Sg) {
    x in s && forall y :: y in s ==> x <= y
  }

  predicate Greatest(s: set<Sg>, x: Sg) {
    x in s && forall y :: y in s ==> y <= x
  }

  lemma {:induction false} MinExists(s: set<Sg>)
    requires s != {}
    ensures exists x :: Least(s, x)
  {
    var x :| x in s;
    if s - {x} == {} {
      assert s == {x};
      assert Least(s, x);
    } else {
      MinExists(s - {x});
      var m :| Least(s - {x}, m);
      assert forall y :: y in s ==> y == x || y in s - {x};
      assert Least(s, if x <= m then x else m);
    }
  }

  lemma {:induction false} MaxExists(s: set<Sg>)
    requires s != {}
    ensures exists x :: Greatest(s, x)
  {
    var x :| x in s;
    if s - {x} == {} {
      assert s == {x};
      assert Greatest(s, x);
    } else {
      MaxExists(s - {x});
      var m :| Greatest(s - {x}, m);
      assert forall y :: y in s ==> y == x || y in s - {x};
      assert Greatest(s, if m <= x then x else m);
    }
  }

  lemma ConsElements(x: Sg, s: seq<Sg>)
    ensures Elements([x] + s) == {x} + Elements(s)
  {
  }

  function Ascending(s: set<Sg>): (r: seq<Sg>)
    ensures Elements(r) == s && |r| == |s|
  {
    if s == {} then []
    else
      MinExists(s);
      var x :| x in s && Least(s, x);
      ConsElements(x, Ascending(s - {x}));
      [x] + Ascending(s - {x})
  }

  function Descending(s: set<Sg>): (r: seq<Sg>)
    ensures Elements(r) == s && |r| == |s|
  {
    if s == {} then []
    else
      MaxExists(s);
      var x :| x in s && Greatest(s, x);
      ConsElements(x, Descending(s - {x}));
      [x] + Descending(s - {x})
  }

  ghost predicate Steps(up: bool, s: seq<Sg>) {
    forall i, j :: 0 <= i < j < |s| ==> if up then s[i] < s[j] else s[i] > s[j]
  }

  lemma ConsSteps(up: bool, x: Sg, rest: seq<Sg>)
    requires Steps(up, rest)
    requires forall y :: y in Elements(rest) ==> if up then x < y else x > y
    ensures Steps(up, [x] + rest)
  {
    forall j | 0 <= j < |rest| ensures if up then x < rest[j] else x > rest[j] {
      assert rest[j] in Elements(rest);
    }
  }

  lemma {:induction false} AscendingOrder(s: set<Sg>)
    ensures Steps(true, Ascending(s)) && Distinct(Ascending(s))
  {
    if s != {} {
      MinExists(s);
      var x :| x in s && Least(s, x) && Ascending(s) == [x] + Ascending(s - {x});
      AscendingOrder(s - {x});
      ConsSteps(true, x, Ascending(s - {x}));
    }
  }

  lemma {:induction false} DescendingOrder(s: set<Sg>)
    ensures Steps(false, Descending(s)) && Distinct(Descending(s))
  {
    if s != {} {
      MaxExists(s);
      var x :| x in s && Greatest(s, x) && Descending(s) == [x] + Descending(s - {x});
      DescendingOrder(s - {x});
      ConsSteps(false, x, Descending(s - {x}));
    }
  }
}
