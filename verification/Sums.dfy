/** Running totals by key, and what they add up to. Amounts are whole numbers of the smallest unit. */
module Sums {

  /** What one record contributes: an amount under a key, or nothing. */
  datatype Share<K> = Nothing | Share(key: K, amount: int)

  function Amount<K>(x: Share<K>): int {
    if x.Share? then x.amount else 0
  }

  function AmountFor<K(==)>(x: Share<K>, k: K): int {
    if x.Share? && x.key == k then x.amount else 0
  }

  function Total<T, K>(s: seq<T>, f: T -> Share<K>): int {
    if s == [] then 0 else Total(s[..|s| - 1], f) + Amount(f(s[|s| - 1]))
  }

  function GroupTotal<T, K(==)>(s: seq<T>, f: T -> Share<K>, k: K): int {
    if s == [] then 0 else GroupTotal(s[..|s| - 1], f, k) + AmountFor(f(s[|s| - 1]), k)
  }

  function KeysOf<T, K>(s: seq<T>, f: T -> Share<K>): set<K> {
    set i | 0 <= i < |s| && f(s[i]).Share? :: f(s[i]).key
  }

  lemma Step<T, K>(s: seq<T>, n: nat, f: T -> Share<K>)
    requires n < |s|
    ensures Total(s[..n + 1], f) == Total(s[..n], f) + Amount(f(s[n]))
    ensures forall k :: GroupTotal(s[..n + 1], f, k) == GroupTotal(s[..n], f, k) + AmountFor(f(s[n]), k)
    ensures KeysOf(s[..n + 1], f) == KeysOf(s[..n], f) + (if f(s[n]).Share? then {f(s[n]).key} else {})
  {
    var t := s[..n + 1];
    assert t[..n] == s[..n] && t[n] == s[n];
    assert forall i | 0 <= i < n :: t[i] == s[..n][i];
  }

  lemma {:induction false} GroupsConcat<T, K>(s: seq<T>, t: seq<T>, f: T -> Share<K>, k: K)
    ensures GroupTotal(s + t, f, k) == GroupTotal(s, f, k) + GroupTotal(t, f, k)
  {
    if t == [] {
      assert s + t == s;
    } else {
      GroupsConcat(s, t[..|t| - 1], f, k);
      assert (s + t)[..|s + t| - 1] == s + t[..|t| - 1];
    }
  }

  /** The order of the records does not matter. */
  lemma {:induction false} GroupsReordered<T, K>(s: seq<T>, t: seq<T>, f: T -> Share<K>, k: K)
    requires multiset(s) == multiset(t)
    ensures GroupTotal(s, f, k) == GroupTotal(t, f, k)
    decreases |s|
  {
    if s == [] {
      assert |multiset(s)| == |multiset(t)|;
    } else {
      var before, x := s[..|s| - 1], s[|s| - 1];
      assert s == before + [x];
      var head, tail := TakeOut(t, before, x);
      GroupsReordered(before, head + tail, f, k);
      GroupsConcat(head, tail, f, k);
      GroupsConcat(head, [x] + tail, f, k);
      GroupsConcat([x], tail, f, k);
      assert [x][..0] == [];
    }
  }

  lemma MultisetSplit<T>(head: seq<T>, tail: seq<T>, x: T)
    ensures multiset(head + ([x] + tail)) - multiset{x} == multiset(head + tail)
  {
    assert multiset(head + ([x] + tail)) == multiset(head) + multiset([x] + tail) == multiset(head) + (multiset{x} + multiset(tail));
  }

  lemma TakeOut<T>(t: seq<T>, rest: seq<T>, x: T) returns (head: seq<T>, tail: seq<T>)
    requires multiset(t) == multiset(rest) + multiset{x}
    ensures t == head + ([x] + tail) && multiset(rest) == multiset(head + tail)
  {
    assert x in multiset(t);
    var i :| 0 <= i < |t| && t[i] == x;
    head, tail := t[..i], t[i + 1..];
    assert t[i..] == [x] + tail;
    assert t == head + ([x] + tail);
    MultisetSplit(head, tail, x);
    assert multiset(t) - multiset{x} == multiset(rest);
  }

  /** Contributions that add up record by record add up in total. */
  lemma {:induction false} TotalsAdd<T, K>(s: seq<T>, f: T -> Share<K>, g: T -> Share<K>, h: T -> Share<K>)
    requires forall x | x in s :: Amount(h(x)) == Amount(f(x)) + Amount(g(x))
    ensures Total(s, h) == Total(s, f) + Total(s, g)
  {
    if s != [] {
      TotalsAdd(s[..|s| - 1], f, g, h);
      assert s[|s| - 1] in s;
    }
  }

  /** The sum of `f` over a set of keys, in whatever order they are taken. */
  ghost function SumOver<K(!new)>(keys: set<K>, f: K -> int): int {
    if keys == {} then 0 else
      var k :| k in keys;
      f(k) + SumOver(keys - {k}, f)
  }

  lemma {:induction false} SumPick<K(!new)>(keys: set<K>, f: K -> int, k: K)
    requires k in keys
    ensures SumOver(keys, f) == f(k) + SumOver(keys - {k}, f)
    decreases |keys|
  {
    var j :| j in keys && SumOver(keys, f) == f(j) + SumOver(keys - {j}, f);
    if j != k {
      SumPick(keys - {j}, f, k);
      SumPick(keys - {k}, f, j);
      assert keys - {j} - {k} == keys - {k} - {j};
    }
  }

  /** Raising the value at one key raises the sum by as much. */
  lemma {:induction false} SumRaise<K(!new)>(keys: set<K>, f: K -> int, g: K -> int, k: K, x: int)
    requires k in keys && forall j | j in keys :: g(j) == f(j) + if j == k then x else 0
    ensures SumOver(keys, g) == SumOver(keys, f) + x
  {
    SumPick(keys, f, k);
    SumPick(keys, g, k);
    SumAgree(keys - {k}, f, g);
  }

  lemma {:induction false} SumAgree<K(!new)>(keys: set<K>, f: K -> int, g: K -> int)
    requires forall k | k in keys :: f(k) == g(k)
    ensures SumOver(keys, f) == SumOver(keys, g)
    decreases |keys|
  {
    if keys != {} {
      var k :| k in keys;
      SumPick(keys, f, k);
      SumPick(keys, g, k);
      SumAgree(keys - {k}, f, g);
    }
  }

  /** Grouping loses nothing: over any keys that cover the records, the group totals make the total. */
  lemma {:induction false} Partition<T, K(!new)>(s: seq<T>, f: T -> Share<K>, keys: set<K>, g: K -> int)
    requires KeysOf(s, f) <= keys && forall k | k in keys :: g(k) == GroupTotal(s, f, k)
    ensures SumOver(keys, g) == Total(s, f)
    decreases |s|
  {
    if s == [] {
      SumAgree(keys, g, (k: K) => 0);
      SumZero(keys);
    } else {
      var before, x := s[..|s| - 1], f(s[|s| - 1]);
      var was := (k: K) => GroupTotal(before, f, k);
      assert KeysOf(before, f) <= KeysOf(s, f);
      Partition(before, f, keys, was);
      if x.Share? {
        assert x.key in KeysOf(s, f);
        SumRaise(keys, was, g, x.key, x.amount);
      } else {
        SumAgree(keys, was, g);
      }
    }
  }

  lemma {:induction false} SumZero<K(!new)>(keys: set<K>)
    ensures SumOver(keys, (k: K) => 0) == 0
    decreases |keys|
  {
    if keys != {} {
      var k :| k in keys;
      SumPick(keys, (j: K) => 0, k);
      SumZero(keys - {k});
    }
  }

  /** A group's total is the sum over the places of its records. */
  lemma {:induction false} GroupIsSum<T, K>(s: seq<T>, f: T -> Share<K>, k: K, places: set<int>, g: int -> int)
    requires forall i :: i in places <==> 0 <= i < |s| && f(s[i]).Share? && f(s[i]).key == k
    requires forall i | i in places :: g(i) == f(s[i]).amount
    ensures GroupTotal(s, f, k) == SumOver(places, g)
  {
    if s == [] {
      assert forall i :: i !in places;
    } else {
      var n := |s| - 1;
      assert forall i | 0 <= i < n :: s[..n][i] == s[i];
      GroupIsSum(s[..n], f, k, places - {n}, g);
      if n in places {
        SumPick(places, g, n);
      } else {
        assert places - {n} == places;
      }
    }
  }

  /** A total is the sum over the places of the records that count. */
  lemma {:induction false} TotalIsSum<T, K>(s: seq<T>, f: T -> Share<K>, places: set<int>, g: int -> int)
    requires forall i :: i in places <==> 0 <= i < |s| && f(s[i]).Share?
    requires forall i | i in places :: g(i) == f(s[i]).amount
    ensures Total(s, f) == SumOver(places, g)
  {
    if s == [] {
      assert forall i :: i !in places;
    } else {
      var n := |s| - 1;
      assert forall i | 0 <= i < n :: s[..n][i] == s[i];
      TotalIsSum(s[..n], f, places - {n}, g);
      if n in places {
        SumPick(places, g, n);
      } else {
        assert places - {n} == places;
      }
    }
  }

  /** Adding one for each key counts them. */
  lemma {:induction false} SumOfOnes<K(!new)>(keys: set<K>, g: K -> int)
    requires forall k | k in keys :: g(k) == 1
    ensures SumOver(keys, g) == |keys|
    decreases |keys|
  {
    if keys != {} {
      var k :| k in keys;
      SumPick(keys, g, k);
      SumOfOnes(keys - {k}, g);
    }
  }

  /** A difference may be taken term by term. */
  lemma {:induction false} SumOfDifference<K(!new)>(keys: set<K>, f: K -> int, g: K -> int, h: K -> int)
    requires forall k | k in keys :: h(k) == f(k) - g(k)
    ensures SumOver(keys, h) == SumOver(keys, f) - SumOver(keys, g)
    decreases |keys|
  {
    if keys != {} {
      var k :| k in keys;
      SumPick(keys, f, k);
      SumPick(keys, g, k);
      SumPick(keys, h, k);
      SumOfDifference(keys - {k}, f, g, h);
    }
  }
}
