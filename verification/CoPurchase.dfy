/** The co-purchase matrix and the list of pairs drawn from it. */
module CoPurchase {
  import opened Sorting

  type Id = nat

  /** The products of one order, one entry for each of its lines. */
  type Lines = seq<Id>

  /** A line that names a product. */
  datatype Item = Item(order: Id, product: Id)

  /** A map of maps that counts, with absent entries standing for zero. */
  type Matrix = map<Id, map<Id, nat>>

  function Entry(m: Matrix, a: Id, b: Id): nat {
    if a in m && b in m[a] then m[a][b] else 0
  }

  /** The matrix stores no zeros. */
  ghost predicate Positive(m: Matrix) {
    forall a | a in m :: forall b | b in m[a] :: m[a][b] > 0
  }

  function Increment(m: Matrix, a: Id, b: Id): Matrix {
    var row := if a in m then m[a] else map[];
    m[a := row[b := Entry(m, a, b) + 1]]
  }

  lemma IncrementCounts(m: Matrix, a: Id, b: Id, x: Id, y: Id)
    ensures Entry(Increment(m, a, b), x, y) == Entry(m, x, y) + if x == a && y == b then 1 else 0
    ensures Positive(m) ==> Positive(Increment(m, a, b))
  {
  }

  // ---- The lines of each order ---------------------------------------------------------------------

  /** The orders in the sequence of their first lines, and the products on one order. */
  function OrderIds(items: seq<Item>): seq<Id> {
    if items == [] then []
    else
      var before, o := OrderIds(items[..|items| - 1]), items[|items| - 1].order;
      if o in before then before else before + [o]
  }

  function LinesOn(items: seq<Item>, o: Id): Lines {
    if items == [] then []
    else
      var x := items[|items| - 1];
      LinesOn(items[..|items| - 1], o) + if x.order == o then [x.product] else []
  }

  ghost predicate Grouped(items: seq<Item>, orders: seq<Lines>) {
    |orders| == |OrderIds(items)| && forall i | 0 <= i < |orders| :: orders[i] == LinesOn(items, OrderIds(items)[i])
  }

  /** Every order of an item once, with its lines. */
  method GroupItems(items: seq<Item>) returns (orders: seq<Lines>)
    ensures Grouped(items, orders)
    ensures forall i, j | 0 <= i < j < |OrderIds(items)| :: OrderIds(items)[i] != OrderIds(items)[j]
    ensures forall o :: o in OrderIds(items) <==> HasItem(items, o)
  {
    var ids: seq<Id>, lines: map<Id, Lines> := [], map[];
    for n := 0 to |items|
      invariant ids == OrderIds(items[..n]) && forall o :: o in lines <==> o in ids
      invariant forall o | o in lines :: lines[o] == LinesOn(items[..n], o)
    {
      var x := items[n];
      assert items[..n + 1][..n] == items[..n];
      OrderIdsListed(items[..n], x.order);
      if x.order !in lines {
        ids, lines := ids + [x.order], lines[x.order := []];
      }
      lines := lines[x.order := lines[x.order] + [x.product]];
    }
    assert items[..|items|] == items;
    orders := seq(|ids|, i requires 0 <= i < |ids| && ids[i] in lines => lines[ids[i]]);
    OrderIdsDiffer(items);
    forall o ensures o in OrderIds(items) <==> HasItem(items, o) {
      OrderIdsExist(items, o);
    }
  }

  lemma {:induction false} OrderIdsListed(items: seq<Item>, o: Id)
    ensures o in OrderIds(items) <==> LinesOn(items, o) != []
  {
    if items != [] {
      OrderIdsListed(items[..|items| - 1], o);
    }
  }

  ghost predicate HasItem(items: seq<Item>, o: Id) {
    exists i :: 0 <= i < |items| && items[i].order == o
  }

  lemma {:induction false} OrderIdsExist(items: seq<Item>, o: Id)
    ensures o in OrderIds(items) <==> HasItem(items, o)
  {
    if items != [] {
      OrderIdsExist(items[..|items| - 1], o);
      HasItemStep(items, o);
      hide HasItem;
    }
  }

  lemma HasItemStep(items: seq<Item>, o: Id)
    requires items != []
    ensures HasItem(items, o) <==> HasItem(items[..|items| - 1], o) || items[|items| - 1].order == o
  {
    var before := items[..|items| - 1];
    assert forall i | 0 <= i < |before| :: before[i] == items[i];
  }

  lemma {:induction false} OrderIdsDiffer(items: seq<Item>)
    ensures forall i, j | 0 <= i < j < |OrderIds(items)| :: OrderIds(items)[i] != OrderIds(items)[j]
  {
    if items != [] {
      OrderIdsDiffer(items[..|items| - 1]);
    }
  }

  // ---- What the loops count ---------------------------------------------------------------------

  function One(c: bool): nat { if c then 1 else 0 }

  /** How often a product occurs among the lines. */
  function Mult(lines: Lines, a: Id): nat {
    if lines == [] then 0 else Mult(lines[..|lines| - 1], a) + One(lines[|lines| - 1] == a)
  }

  /** The hits on entry (a, b) of the inner loop at `i`, for the partners before position `j`. */
  function RowHits(lines: Lines, i: nat, j: nat, a: Id, b: Id): nat
    requires i < j <= |lines|
  {
    if j == i + 1 then 0
    else RowHits(lines, i, j - 1, a, b) + One(lines[i] == a && lines[j - 1] == b) + One(lines[i] == b && lines[j - 1] == a)
  }

  /** The hits of the outer loop for the positions before `i`. */
  function OrderHits(lines: Lines, i: nat, a: Id, b: Id): nat
    requires i <= |lines|
  {
    if i == 0 then 0 else OrderHits(lines, i - 1, a, b) + RowHits(lines, i - 1, |lines|, a, b)
  }

  /** The hits of the first `n` orders. */
  function Hits(orders: seq<Lines>, n: nat, a: Id, b: Id): nat
    requires n <= |orders|
  {
    if n == 0 then 0 else Hits(orders, n - 1, a, b) + OrderHits(orders[n - 1], |orders[n - 1]|, a, b)
  }

  method BuildMatrix(orders: seq<Lines>) returns (m: Matrix)
    ensures Positive(m)
    ensures forall a, b :: Entry(m, a, b) == Hits(orders, |orders|, a, b)
  {
    m := map[];
    for n := 0 to |orders|
      invariant Positive(m)
      invariant forall a, b :: Entry(m, a, b) == Hits(orders, n, a, b)
    {
      m := AddOrder(m, orders[n]);
    }
  }

  method AddOrder(before: Matrix, lines: Lines) returns (m: Matrix)
    requires Positive(before)
    ensures Positive(m)
    ensures forall a, b :: Entry(m, a, b) == Entry(before, a, b) + OrderHits(lines, |lines|, a, b)
  {
    m := before;
    for i := 0 to |lines|
      invariant Positive(m)
      invariant forall a, b :: Entry(m, a, b) == Entry(before, a, b) + OrderHits(lines, i, a, b)
    {
      ghost var was := m;
      for j := i + 1 to |lines|
        invariant Positive(m)
        invariant forall a, b :: Entry(m, a, b) == Entry(was, a, b) + RowHits(lines, i, j, a, b)
      {
        m := AddPair(m, lines[i], lines[j]);
      }
    }
  }

  /** Both directions of a pair are counted; for a pair of equal products that is one entry, twice. */
  method AddPair(before: Matrix, a: Id, b: Id) returns (m: Matrix)
    requires Positive(before)
    ensures Positive(m)
    ensures forall x, y :: Entry(m, x, y) == Entry(before, x, y) + One(a == x && b == y) + One(a == y && b == x)
  {
    var half := Increment(before, a, b);
    m := Increment(half, b, a);
    forall x, y ensures Entry(m, x, y) == Entry(before, x, y) + One(a == x && b == y) + One(a == y && b == x) {
      IncrementCounts(before, a, b, x, y);
      IncrementCounts(half, b, a, x, y);
    }
    IncrementCounts(before, a, b, a, b);
    IncrementCounts(half, b, a, b, a);
  }

  // ---- Multiplicities ---------------------------------------------------------------------------

  /** A line that is `a` meets every `b` behind it, and the other way round. */
  function RowFormula(isA: int, isB: int, aBehind: int, bBehind: int): int {
    isA * bBehind + isB * aBehind
  }

  /** With `u` of the `a` occurrences of one product, and `v` of the `b` of the other, already passed. */
  function OrderFormula(u: int, v: int, a: int, b: int, same: int): int {
    u * b + v * a - u * v - same * u
  }

  lemma {:induction false} RowIsMult(lines: Lines, i: nat, j: nat, a: Id, b: Id)
    requires i < j <= |lines|
    ensures RowHits(lines, i, j, a, b)
         == RowFormula(One(lines[i] == a), One(lines[i] == b),
                       Mult(lines[..j], a) - Mult(lines[..i + 1], a), Mult(lines[..j], b) - Mult(lines[..i + 1], b))
  {
    hide Mult, RowFormula;
    if j > i + 1 {
      RowIsMult(lines, i, j - 1, a, b);
      MultStep(lines, j - 1, a);
      MultStep(lines, j - 1, b);
      RowAlgebra(lines[i] == a, lines[i] == b, lines[j - 1] == a, lines[j - 1] == b,
                 Mult(lines[..j - 1], a) - Mult(lines[..i + 1], a), Mult(lines[..j - 1], b) - Mult(lines[..i + 1], b));
    } else {
      RowAlgebra(lines[i] == a, lines[i] == b, false, false, 0, 0);
    }
  }

  lemma RowAlgebra(isA: bool, isB: bool, a: bool, b: bool, x: int, y: int)
    ensures RowFormula(One(isA), One(isB), x + One(a), y + One(b))
         == RowFormula(One(isA), One(isB), x, y) + One(isA && b) + One(isB && a)
    ensures RowFormula(One(isA), One(isB), 0, 0) == 0
  {
  }

  lemma {:induction false} MultStep(lines: Lines, j: nat, a: Id)
    requires j < |lines|
    ensures Mult(lines[..j + 1], a) == Mult(lines[..j], a) + One(lines[j] == a)
  {
    assert lines[..j + 1][..j] == lines[..j];
  }

  lemma {:induction false} OrderIsMult(lines: Lines, i: nat, a: Id, b: Id)
    requires i <= |lines|
    ensures OrderHits(lines, i, a, b)
         == OrderFormula(Mult(lines[..i], a), Mult(lines[..i], b), Mult(lines, a), Mult(lines, b), One(a == b))
  {
    hide Mult, RowHits, RowFormula, OrderFormula;
    if i == 0 {
      NoLines(lines[..0], a);
      NoLines(lines[..0], b);
      OrderAlgebra(0, 0, Mult(lines, a), Mult(lines, b), false, false, a == b);
    } else {
      OrderIsMult(lines, i - 1, a, b);
      RowIsMult(lines, i - 1, |lines|, a, b);
      assert lines[..|lines|] == lines;
      MultStep(lines, i - 1, a);
      MultStep(lines, i - 1, b);
      OrderAlgebra(Mult(lines[..i - 1], a), Mult(lines[..i - 1], b), Mult(lines, a), Mult(lines, b),
                   lines[i - 1] == a, lines[i - 1] == b, a == b);
    }
  }

  lemma {:induction false} NoLines(lines: Lines, a: Id)
    requires lines == []
    ensures Mult(lines, a) == 0
  {
  }

  lemma OrderAlgebra(u: int, v: int, a: int, b: int, isA: bool, isB: bool, same: bool)
    requires isA && isB <==> same && isA
    ensures OrderFormula(u, v, a, b, One(same)) + RowFormula(One(isA), One(isB), a - (u + One(isA)), b - (v + One(isB)))
         == OrderFormula(u + One(isA), v + One(isB), a, b, One(same))
    ensures OrderFormula(0, 0, a, b, One(same)) == 0
  {
  }

  function SumOfProducts(orders: seq<Lines>, n: nat, a: Id, b: Id): nat
    requires n <= |orders|
  {
    if n == 0 then 0 else SumOfProducts(orders, n - 1, a, b) + Mult(orders[n - 1], a) * Mult(orders[n - 1], b)
  }

  function SumOfSingles(orders: seq<Lines>, n: nat, a: Id): nat
    requires n <= |orders|
  {
    if n == 0 then 0 else SumOfSingles(orders, n - 1, a) + Mult(orders[n - 1], a)
  }

  /** An entry sums, over the orders, the product of the two multiplicities; on the diagonal it counts
      every ordered pair of different lines of the one product, so m (m - 1) for each order. */
  lemma {:induction false} EntriesAreProducts(orders: seq<Lines>, n: nat, a: Id, b: Id)
    requires n <= |orders|
    ensures a != b ==> Hits(orders, n, a, b) == SumOfProducts(orders, n, a, b)
    ensures Hits(orders, n, a, a) == SumOfProducts(orders, n, a, a) - SumOfSingles(orders, n, a)
    ensures Hits(orders, n, a, b) == Hits(orders, n, b, a)
  {
    if n > 0 {
      EntriesAreProducts(orders, n - 1, a, b);
      var lines := orders[n - 1];
      assert lines[..|lines|] == lines;
      OrderIsMult(lines, |lines|, a, b);
      OrderIsMult(lines, |lines|, b, a);
      OrderIsMult(lines, |lines|, a, a);
    }
    hide Mult, OrderHits;
  }

  // ---- The pairs ----------------------------------------------------------------------------------

  datatype Pair = Pair(a: Id, b: Id, count: nat)

  ghost predicate Emitted(pairs: seq<Pair>, i: nat, key: set<Id>) {
    i < |pairs| && {pairs[i].a, pairs[i].b} == key
  }

  /** The pairs so far: each one a counted pair of known products whose key was seen, none of them
      twice, and every known pair among the seen keys. */
  ghost predicate Listing(m: Matrix, known: set<Id>, seen: set<set<Id>>, pairs: seq<Pair>) {
    && (forall i | 0 <= i < |pairs| ::
          && pairs[i].a in known && pairs[i].b in known && {pairs[i].a, pairs[i].b} in seen
          && pairs[i].count > 0 && pairs[i].count == Entry(m, pairs[i].a, pairs[i].b))
    && (forall i: nat, j: nat, key | Emitted(pairs, i, key) && Emitted(pairs, j, key) :: i == j)
    && (forall key | key in seen && key <= known :: exists i: nat :: Emitted(pairs, i, key))
  }

  /** Walks the entries in any order; a pair that was seen from its other side is skipped. */
  method ListPairs(m: Matrix, known: set<Id>) returns (pairs: seq<Pair>, seen: set<set<Id>>)
    requires Positive(m)
    ensures Listing(m, known, seen, pairs)
    ensures forall a: Id, b: Id | Entry(m, a, b) > 0 :: {a, b} in seen
  {
    pairs, seen := [], {};
    var rows := m.Keys;
    while rows != {}
      invariant rows <= m.Keys
      invariant Listing(m, known, seen, pairs)
      invariant forall a, b | a in m && a !in rows && b in m[a] :: {a, b} in seen
    {
      var a :| a in rows;
      var cells := m[a].Keys;
      while cells != {}
        invariant cells <= m[a].Keys
        invariant Listing(m, known, seen, pairs)
        invariant forall x, b | x in m && x !in rows && b in m[x] :: {x, b} in seen
        invariant forall b | b in m[a] && b !in cells :: {a, b} in seen
      {
        var b :| b in cells;
        cells := cells - {b};
        if {a, b} !in seen {
          ghost var seen0, pairs0 := seen, pairs;
          seen := seen + {{a, b}};
          if a in known && b in known {
            pairs := pairs + [Pair(a, b, m[a][b])];
            ListOne(m, known, seen0, pairs0, a, b);
          } else {
            SkipOne(m, known, seen0, pairs0, a, b);
          }
        }
      }
      rows := rows - {a};
    }
  }

  lemma ListOne(m: Matrix, known: set<Id>, seen: set<set<Id>>, pairs: seq<Pair>, a: Id, b: Id)
    requires Positive(m) && Listing(m, known, seen, pairs) && {a, b} !in seen
    requires a in known && b in known && a in m && b in m[a]
    ensures Listing(m, known, seen + {{a, b}}, pairs + [Pair(a, b, m[a][b])])
  {
    var pairs' := pairs + [Pair(a, b, m[a][b])];
    assert forall i: nat, key | Emitted(pairs', i, key) && i < |pairs| :: Emitted(pairs, i, key) && key in seen;
    assert Emitted(pairs', |pairs|, {a, b});
    forall key | key in seen + {{a, b}} && key <= known ensures exists i: nat :: Emitted(pairs', i, key) {
      if key != {a, b} {
        var i: nat :| Emitted(pairs, i, key);
        assert Emitted(pairs', i, key);
      }
    }
  }

  lemma SkipOne(m: Matrix, known: set<Id>, seen: set<set<Id>>, pairs: seq<Pair>, a: Id, b: Id)
    requires Listing(m, known, seen, pairs) && !(a in known && b in known)
    ensures Listing(m, known, seen + {{a, b}}, pairs)
  {
  }

  /** The whole pass: every two known products bought together at least once appear once, from one
      side or the other, with their count, and nothing else appears. */
  method FrequentPairs(orders: seq<Lines>, known: set<Id>) returns (pairs: seq<Pair>)
    ensures forall i | 0 <= i < |pairs| ::
              && pairs[i].a in known && pairs[i].b in known
              && pairs[i].count == Hits(orders, |orders|, pairs[i].a, pairs[i].b) > 0
    ensures forall a, b | a in known && b in known && Hits(orders, |orders|, a, b) > 0 ::
              exists i: nat :: Emitted(pairs, i, {a, b})
    ensures forall i: nat, j: nat, key | Emitted(pairs, i, key) && Emitted(pairs, j, key) :: i == j
  {
    var m := BuildMatrix(orders);
    var seen;
    pairs, seen := ListPairs(m, known);
    forall a, b | a in known && b in known && Hits(orders, |orders|, a, b) > 0 ensures exists i: nat :: Emitted(pairs, i, {a, b}) {
      assert Entry(m, a, b) > 0;
      assert {a, b} in seen && {a, b} <= known;
    }
  }

  function ByFallingCount(x: Pair, y: Pair): bool { x.count >= y.count }

  const SHOWN := 6

  /** From the lines to the six pairs shown: grouped by order, counted, listed once each, and of the
      list the first six by falling count. */
  method FrequentlyBoughtTogether(items: seq<Item>, known: set<Id>)
    returns (shown: seq<Pair>, pairs: seq<Pair>, orders: seq<Lines>)
    ensures Grouped(items, orders)
    ensures forall i | 0 <= i < |pairs| ::
              && pairs[i].a in known && pairs[i].b in known
              && pairs[i].count == Hits(orders, |orders|, pairs[i].a, pairs[i].b) > 0
    ensures forall a, b | a in known && b in known && Hits(orders, |orders|, a, b) > 0 ::
              exists i: nat :: Emitted(pairs, i, {a, b})
    ensures forall i: nat, j: nat, key | Emitted(pairs, i, key) && Emitted(pairs, j, key) :: i == j
    ensures shown == Top(pairs, ByFallingCount, SHOWN)
  {
    orders := GroupItems(items);
    pairs := FrequentPairs(orders, known);
    shown := Top(pairs, ByFallingCount, SHOWN);
  }

  /** What is shown dominates what is not. */
  lemma ShownDominate(pairs: seq<Pair>) returns (omitted: seq<Pair>)
    ensures multiset(Top(pairs, ByFallingCount, SHOWN)) + multiset(omitted) == multiset(pairs)
    ensures Ordered(Top(pairs, ByFallingCount, SHOWN) + omitted, ByFallingCount)
    ensures var shown := Top(pairs, ByFallingCount, SHOWN);
            && |shown| == (if |pairs| <= 6 then |pairs| else 6)
            && (forall i, j | 0 <= i < j < |shown| :: shown[i].count >= shown[j].count)
            && (forall x, y | x in shown && y in omitted :: x.count >= y.count)
  {
    omitted := TopDominates(pairs, ByFallingCount, SHOWN);
    var shown := Top(pairs, ByFallingCount, SHOWN);
    Before(shown, omitted, ByFallingCount);
  }

  /** Two lines of one product on one order: the product's only partner is itself, twice. */
  lemma BoughtWithItself()
    ensures OrderIds([Item(1, 7), Item(1, 7)]) == [1] && LinesOn([Item(1, 7), Item(1, 7)], 1) == [7, 7]
    ensures Hits([[7, 7]], 1, 7, 7) == 2
  {
    TwoLinesOnOne(1, 7);
    var lines: Lines := [7, 7];
    TwiceOnOne(lines, 7);
    assert [lines][..0] == [] && lines[..|lines|] == lines;
    OrderIsMult(lines, 2, 7, 7);
    hide Mult, OrderHits;
    assert Hits([lines], 0, 7, 7) == 0;
  }

  lemma {:induction false} TwoLinesOnOne(o: Id, a: Id)
    ensures OrderIds([Item(o, a), Item(o, a)]) == [o] && LinesOn([Item(o, a), Item(o, a)], o) == [a, a]
  {
    var items := [Item(o, a), Item(o, a)];
    assert items[..1] == [Item(o, a)] && [Item(o, a)][..0] == [];
    assert OrderIds([Item(o, a)]) == [o] && LinesOn([Item(o, a)], o) == [a];
  }

  lemma {:induction false} TwiceOnOne(lines: Lines, a: Id)
    requires lines == [a, a]
    ensures Mult(lines, a) == 2
  {
    assert lines[..1] == [a] && [a][..0] == [];
    assert Mult([a], a) == 1;
  }

  /** A product is listed as bought together with itself exactly when some order has it on two lines. */
  lemma {:induction false} SelfPairIff(orders: seq<Lines>, n: nat, a: Id)
    requires n <= |orders|
    ensures Hits(orders, n, a, a) > 0 <==> exists k :: 0 <= k < n && Mult(orders[k], a) >= 2
  {
    if n > 0 {
      SelfPairIff(orders, n - 1, a);
      var lines := orders[n - 1];
      assert lines[..|lines|] == lines;
      OrderIsMult(lines, |lines|, a, a);
      Diagonal(Mult(lines, a));
    }
    hide Mult, OrderHits;
  }

  lemma Diagonal(m: nat)
    ensures m * m + m * m - m * m - m > 0 <==> m >= 2
    ensures m * m - m >= 0
  {
    if m >= 2 {
      assert m * m >= 2 * m;
    }
  }
}
