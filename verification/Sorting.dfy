/** The runtime's stable sort, by any total order, and counting. */
module Sorting {

  ghost predicate TotalOrder<T(!new)>(leq: (T, T) -> bool) {
    && (forall x, y :: leq(x, y) || leq(y, x))
    && (forall x, y, z :: leq(x, y) && leq(y, z) ==> leq(x, z))
  }

  /** Puts `x` behind every element that may stand before it. */
  function Insert<T>(x: T, s: seq<T>, leq: (T, T) -> bool): (r: seq<T>)
    ensures |r| == |s| + 1
  {
    if s == [] || !leq(s[0], x) then [x] + s else [s[0]] + Insert(x, s[1..], leq)
  }

  function SortBy<T>(s: seq<T>, leq: (T, T) -> bool): (r: seq<T>)
    ensures |r| == |s|
  {
    if s == [] then [] else Insert(s[|s| - 1], SortBy(s[..|s| - 1], leq), leq)
  }

  ghost predicate Ordered<T>(s: seq<T>, leq: (T, T) -> bool) {
    forall i, j | 0 <= i < j < |s| :: leq(s[i], s[j])
  }

  lemma {:induction false} InsertOrders<T(!new)>(x: T, s: seq<T>, leq: (T, T) -> bool)
    requires TotalOrder(leq) && Ordered(s, leq)
    ensures Ordered(Insert(x, s, leq), leq) && multiset(Insert(x, s, leq)) == multiset(s) + multiset{x}
  {
    InsertAdds(x, s, leq);
    if s == [] || !leq(s[0], x) {
      forall i | 0 <= i < |s| ensures leq(x, s[i]) {
        assert leq(x, s[0]);
        assert i == 0 || leq(s[0], s[i]);
      }
    } else {
      var rest := Insert(x, s[1..], leq);
      InsertOrders(x, s[1..], leq);
      forall i | 0 <= i < |rest| ensures leq(s[0], rest[i]) {
        assert rest[i] in multiset(rest);
        assert rest[i] == x || rest[i] in s[1..];
      }
      hide Insert;
    }
  }

  lemma {:induction false} InsertAdds<T>(x: T, s: seq<T>, leq: (T, T) -> bool)
    ensures multiset(Insert(x, s, leq)) == multiset(s) + multiset{x}
  {
    if s != [] && leq(s[0], x) {
      InsertAdds(x, s[1..], leq);
      assert s == [s[0]] + s[1..];
    } else {
      assert multiset([x] + s) == multiset{x} + multiset(s);
    }
  }

  lemma {:induction false} SortOrders<T(!new)>(s: seq<T>, leq: (T, T) -> bool)
    requires TotalOrder(leq)
    ensures Ordered(SortBy(s, leq), leq) && multiset(SortBy(s, leq)) == multiset(s)
  {
    if s != [] {
      SortOrders(s[..|s| - 1], leq);
      InsertOrders(s[|s| - 1], SortBy(s[..|s| - 1], leq), leq);
      assert s == s[..|s| - 1] + [s[|s| - 1]];
    }
    hide Insert, TotalOrder;
  }

  lemma {:induction false} SortElements<T(!new)>(s: seq<T>, leq: (T, T) -> bool, x: T)
    requires TotalOrder(leq)
    ensures x in SortBy(s, leq) <==> x in s
  {
    SortOrders(s, leq);
    assert x in multiset(SortBy(s, leq)) <==> x in multiset(s);
  }

  // ---- The first of a sorted list ---------------------------------------------------------------

  /** Sort, then slice. */
  function Top<T>(s: seq<T>, leq: (T, T) -> bool, limit: nat): (r: seq<T>)
    ensures |r| == if |s| <= limit then |s| else limit
  {
    if |s| <= limit then SortBy(s, leq) else SortBy(s, leq)[..limit]
  }

  /** The slice and what it omits are the list, and in order together: it dominates what it omits. */
  /** In an ordered list the elements of a head stand before those of the tail. */
  lemma Before<T(!new)>(head: seq<T>, tail: seq<T>, leq: (T, T) -> bool)
    requires Ordered(head + tail, leq)
    ensures forall i, j | 0 <= i < j < |head| :: leq(head[i], head[j])
    ensures forall x, y | x in head && y in tail :: leq(x, y)
  {
    var all := head + tail;
    forall i, j | 0 <= i < j < |head| ensures leq(head[i], head[j]) {
      assert all[i] == head[i] && all[j] == head[j];
    }
    forall x, y | x in head && y in tail ensures leq(x, y) {
      var i, j :| 0 <= i < |head| && head[i] == x && 0 <= j < |tail| && tail[j] == y;
      assert all[i] == x && all[|head| + j] == y;
    }
  }

  lemma TopDominates<T(!new)>(s: seq<T>, leq: (T, T) -> bool, limit: nat) returns (omitted: seq<T>)
    requires TotalOrder(leq)
    ensures multiset(Top(s, leq, limit)) + multiset(omitted) == multiset(s)
    ensures Ordered(Top(s, leq, limit) + omitted, leq)
  {
    var top, sorted := Top(s, leq, limit), SortBy(s, leq);
    SortOrders(s, leq);
    omitted := sorted[|top|..];
    assert sorted == top + omitted;
  }

  /** How many elements have the property. */
  function Count<T>(s: seq<T>, p: T -> bool): nat {
    if s == [] then 0 else Count(s[..|s| - 1], p) + if p(s[|s| - 1]) then 1 else 0
  }

  lemma {:induction false} CountAppend<T>(a: seq<T>, b: seq<T>, p: T -> bool)
    ensures Count(a + b, p) == Count(a, p) + Count(b, p)
  {
    if b == [] {
      assert a + b == a;
    } else {
      CountAppend(a, b[..|b| - 1], p);
      assert (a + b)[..|a + b| - 1] == a + b[..|b| - 1];
    }
  }

  lemma {:induction false} InsertCounts<T>(x: T, s: seq<T>, leq: (T, T) -> bool, p: T -> bool)
    ensures Count(Insert(x, s, leq), p) == Count(s, p) + if p(x) then 1 else 0
  {
    assert Count([x][..0], p) == 0;
    if s == [] || !leq(s[0], x) {
      CountAppend([x], s, p);
    } else {
      InsertCounts(x, s[1..], leq, p);
      CountAppend([s[0]], Insert(x, s[1..], leq), p);
      CountAppend([s[0]], s[1..], p);
      assert [s[0]] + s[1..] == s;
    }
  }

  lemma {:induction false} SortCounts<T>(s: seq<T>, leq: (T, T) -> bool, p: T -> bool)
    ensures Count(SortBy(s, leq), p) == Count(s, p)
  {
    if s != [] {
      SortCounts(s[..|s| - 1], leq, p);
      InsertCounts(s[|s| - 1], SortBy(s[..|s| - 1], leq), leq, p);
    }
    hide Insert;
  }
}
