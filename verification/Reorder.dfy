/** How many customers bought a product, and how many of them on two lines or more. */
module Reorder {
  import opened Sorting
  import opened CoPurchase

  predicate Concerns(x: Item, customerOf: map<Id, Id>, customer: Id, product: Id) {
    x.order in customerOf && customerOf[x.order] == customer && x.product == product
  }

  /** The lines of the product on the customer's orders, among the first `n` items. */
  function LinesOf(items: seq<Item>, customerOf: map<Id, Id>, n: nat, customer: Id, product: Id): nat
    requires n <= |items|
  {
    if n == 0 then 0
    else
      LinesOf(items, customerOf, n - 1, customer, product) + One(Concerns(items[n - 1], customerOf, customer, product))
  }

  method CountLines(items: seq<Item>, customerOf: map<Id, Id>) returns (m: Matrix)
    ensures Positive(m)
    ensures forall c, p :: Entry(m, c, p) == LinesOf(items, customerOf, |items|, c, p)
  {
    m := map[];
    for n := 0 to |items|
      invariant Positive(m)
      invariant forall c, p :: Entry(m, c, p) == LinesOf(items, customerOf, n, c, p)
    {
      if items[n].order in customerOf {
        ghost var was := m;
        m := Increment(m, customerOf[items[n].order], items[n].product);
        forall c, p ensures Entry(m, c, p) == LinesOf(items, customerOf, n + 1, c, p) {
          IncrementCounts(was, customerOf[items[n].order], items[n].product, c, p);
        }
        IncrementCounts(was, customerOf[items[n].order], items[n].product, 0, 0);
      }
    }
  }

  datatype Stats = Stats(repeatCustomers: nat, totalCustomers: nat)

  /** The customers among `rows` with at least `k` lines of the product. */
  function Buyers(m: Matrix, rows: set<Id>, product: Id, k: nat): set<Id> {
    set c | c in rows && Entry(m, c, product) >= k
  }

  function StatsOf(stats: map<Id, Stats>, product: Id): Stats {
    if product in stats then stats[product] else Stats(0, 0)
  }

  method ReorderStats(m: Matrix) returns (stats: map<Id, Stats>)
    requires Positive(m)
    ensures forall p :: StatsOf(stats, p) == Stats(|Buyers(m, m.Keys, p, 2)|, |Buyers(m, m.Keys, p, 1)|)
    ensures forall p | p in stats :: stats[p].totalCustomers > 0
  {
    stats := map[];
    var done: set<Id>, rows := {}, m.Keys;
    while rows != {}
      invariant done !! rows && done + rows == m.Keys
      invariant forall p :: StatsOf(stats, p) == Stats(|Buyers(m, done, p, 2)|, |Buyers(m, done, p, 1)|)
      invariant forall p | p in stats :: stats[p].totalCustomers > 0
    {
      var c :| c in rows;
      stats := AddCustomer(m, stats, done, c);
      rows, done := rows - {c}, done + {c};
    }
    assert done == m.Keys;
  }

  method AddCustomer(m: Matrix, before: map<Id, Stats>, ghost done: set<Id>, c: Id) returns (stats: map<Id, Stats>)
    requires Positive(m) && c in m && c !in done
    requires forall p :: StatsOf(before, p) == Stats(|Buyers(m, done, p, 2)|, |Buyers(m, done, p, 1)|)
    requires forall p | p in before :: before[p].totalCustomers > 0
    ensures forall p | p in stats :: stats[p].totalCustomers > 0
    ensures forall p :: StatsOf(stats, p) == Stats(|Buyers(m, done + {c}, p, 2)|, |Buyers(m, done + {c}, p, 1)|)
  {
    stats := before;
    var cells := m[c].Keys;
    while cells != {}
      invariant cells <= m[c].Keys
      invariant forall p | p in stats :: stats[p].totalCustomers > 0
      invariant forall p ::
        StatsOf(stats, p) == if p in m[c] && p !in cells then OneMore(StatsOf(before, p), m[c][p]) else StatsOf(before, p)
    {
      var p :| p in cells;
      stats := stats[p := OneMore(StatsOf(stats, p), m[c][p])];
      cells := cells - {p};
    }
    forall p ensures StatsOf(stats, p) == Stats(|Buyers(m, done + {c}, p, 2)|, |Buyers(m, done + {c}, p, 1)|) {
      BuyersGrow(m, done, c, p, 1);
      BuyersGrow(m, done, c, p, 2);
    }
  }

  function OneMore(s: Stats, lines: nat): Stats {
    Stats(s.repeatCustomers + One(lines >= 2), s.totalCustomers + 1)
  }

  lemma BuyersGrow(m: Matrix, done: set<Id>, c: Id, p: Id, k: nat)
    requires c !in done
    ensures |Buyers(m, done + {c}, p, k)| == |Buyers(m, done, p, k)| + One(Entry(m, c, p) >= k)
  {
    if Entry(m, c, p) >= k {
      assert Buyers(m, done + {c}, p, k) == Buyers(m, done, p, k) + {c};
    } else {
      assert Buyers(m, done + {c}, p, k) == Buyers(m, done, p, k);
    }
  }

  /** Repeat customers are customers, so the rate is a share. */
  lemma RepeatsAreBuyers(m: Matrix, p: Id)
    ensures |Buyers(m, m.Keys, p, 2)| <= |Buyers(m, m.Keys, p, 1)|
  {
    var all, repeat := Buyers(m, m.Keys, p, 1), Buyers(m, m.Keys, p, 2);
    assert all == repeat + (all - repeat);
  }

  // ---- The candidates shown -----------------------------------------------------------------------

  datatype Candidate = Candidate(product: Id, repeatCustomers: nat, totalCustomers: nat, repeatRate: int)

  /** The percentage of repeat customers, rounded to the nearest whole number and half-way upwards. */
  function RateOf(s: Stats): int
    requires s.totalCustomers > 0
  {
    (200 * s.repeatCustomers + s.totalCustomers) / (2 * s.totalCustomers)
  }

  lemma RateIsShare(s: Stats)
    requires 0 < s.totalCustomers && s.repeatCustomers <= s.totalCustomers
    ensures 0 <= RateOf(s) <= 100
    ensures s.repeatCustomers == s.totalCustomers ==> RateOf(s) == 100
    ensures 2 * s.totalCustomers * RateOf(s) <= 200 * s.repeatCustomers + s.totalCustomers < 2 * s.totalCustomers * (RateOf(s) + 1)
  {
    DivisionBounds(200 * s.repeatCustomers + s.totalCustomers, 2 * s.totalCustomers);
    var t, q := 2 * s.totalCustomers, RateOf(s);
    if q < 0 {
      Climb(t, q + 1, 0);
    } else if q > 100 {
      Climb(t, 101, q);
    } else if q < 100 && s.repeatCustomers == s.totalCustomers {
      Climb(t, q + 1, 100);
    }
  }

  lemma DivisionBounds(a: int, b: int)
    requires b > 0
    ensures b * (a / b) <= a < b * (a / b + 1)
  {
  }

  lemma Climb(t: int, p: int, q: int)
    requires t > 0 && p <= q
    ensures t * p <= t * q
  {
    assert t * (q - p) >= 0;
  }

  function CandidateOf(p: Id, s: Stats): Candidate
    requires s.totalCustomers > 0
  {
    Candidate(p, s.repeatCustomers, s.totalCustomers, RateOf(s))
  }

  /** By falling rate, and at equal rates by falling number of repeat customers. */
  function ByFallingRate(x: Candidate, y: Candidate): bool {
    x.repeatRate > y.repeatRate || (x.repeatRate == y.repeatRate && x.repeatCustomers >= y.repeatCustomers)
  }

  ghost predicate Lists(all: seq<Candidate>, stats: map<Id, Stats>, known: set<Id>, among: set<Id>)
    requires among <= stats.Keys && forall p | p in stats :: stats[p].totalCustomers > 0
  {
    && (forall x | x in all :: x.product in among && x == CandidateOf(x.product, stats[x.product])
          && x.repeatCustomers == stats[x.product].repeatCustomers && x.totalCustomers == stats[x.product].totalCustomers
          && x.repeatCustomers > 0 && x.product in known)
    && (forall p | p in among && stats[p].repeatCustomers > 0 && p in known :: CandidateOf(p, stats[p]) in all)
    && (forall i, j | 0 <= i < j < |all| :: all[i].product != all[j].product)
  }

  /** Every known product with a repeat customer is a candidate once, in whatever order the entries are
      walked, and the first six by rate are shown. */
  method ReorderCandidates(stats: map<Id, Stats>, known: set<Id>) returns (shown: seq<Candidate>, all: seq<Candidate>)
    requires forall p | p in stats :: stats[p].totalCustomers > 0
    ensures Lists(all, stats, known, stats.Keys)
    ensures shown == Top(all, ByFallingRate, SHOWN)
  {
    all := [];
    var rest := stats.Keys;
    while rest != {}
      invariant rest <= stats.Keys
      invariant Lists(all, stats, known, stats.Keys - rest)
    {
      hide RateOf;
      var p :| p in rest;
      if stats[p].repeatCustomers > 0 && p in known {
        all := all + [CandidateOf(p, stats[p])];
      }
      rest := rest - {p};
    }
    assert stats.Keys - rest == stats.Keys;
    shown := Top(all, ByFallingRate, SHOWN);
  }

  lemma ShownReorderDominate(all: seq<Candidate>) returns (omitted: seq<Candidate>)
    ensures multiset(Top(all, ByFallingRate, SHOWN)) + multiset(omitted) == multiset(all)
    ensures Ordered(Top(all, ByFallingRate, SHOWN) + omitted, ByFallingRate)
    ensures var shown := Top(all, ByFallingRate, SHOWN);
            && |shown| == (if |all| <= 6 then |all| else 6)
            && (forall i, j | 0 <= i < j < |shown| :: NotBelow(shown[i], shown[j]))
            && (forall x, y | x in shown && y in omitted :: NotBelow(x, y))
  {
    omitted := TopDominates(all, ByFallingRate, SHOWN);
    var shown := Top(all, ByFallingRate, SHOWN);
    Before(shown, omitted, ByFallingRate);
  }

  /** A higher rate, or the same rate and as many repeat customers. */
  predicate NotBelow(x: Candidate, y: Candidate) {
    x.repeatRate > y.repeatRate || (x.repeatRate == y.repeatRate && x.repeatCustomers >= y.repeatCustomers)
  }

  // ---- Lines against orders ---------------------------------------------------------------------

  /** The customer's orders that list the product, among the first `n` items. */
  function OrdersOf(items: seq<Item>, customerOf: map<Id, Id>, n: nat, customer: Id, product: Id): set<Id>
    requires n <= |items|
  {
    set i | 0 <= i < n && Concerns(items[i], customerOf, customer, product) :: items[i].order
  }

  ghost predicate Occurs(items: seq<Item>, n: nat, x: Item)
    requires n <= |items|
  {
    exists i :: 0 <= i < n && items[i] == x
  }

  /** The product stands on two lines of one of the customer's orders. */
  ghost predicate Doubled(items: seq<Item>, customerOf: map<Id, Id>, n: nat, customer: Id, product: Id)
    requires n <= |items|
  {
    exists j :: 0 <= j < n && Concerns(items[j], customerOf, customer, product) && Occurs(items, j, items[j])
  }

  /** A customer's lines are at least as many as the orders with the product, and exactly as many when
      and only when no order lists it twice: a repeat purchase may be two lines of a single order. */
  lemma {:induction false} LinesAgainstOrders(items: seq<Item>, customerOf: map<Id, Id>, n: nat, c: Id, p: Id)
    requires n <= |items|
    ensures |OrdersOf(items, customerOf, n, c, p)| <= LinesOf(items, customerOf, n, c, p)
    ensures |OrdersOf(items, customerOf, n, c, p)| == LinesOf(items, customerOf, n, c, p) <==> !Doubled(items, customerOf, n, c, p)
  {
    if n > 0 {
      LinesAgainstOrders(items, customerOf, n - 1, c, p);
      OrdersStep(items, customerOf, n - 1, c, p);
      hide Occurs, OrdersOf;
    }
  }

  lemma OrdersStep(items: seq<Item>, customerOf: map<Id, Id>, n: nat, c: Id, p: Id)
    requires n < |items|
    ensures |OrdersOf(items, customerOf, n + 1, c, p)|
         == |OrdersOf(items, customerOf, n, c, p)| + One(Concerns(items[n], customerOf, c, p) && !Occurs(items, n, items[n]))
  {
    var x, was, now := items[n], OrdersOf(items, customerOf, n, c, p), OrdersOf(items, customerOf, n + 1, c, p);
    if Concerns(x, customerOf, c, p) {
      assert now == was + {x.order};
      if x.order in was {
        var i :| 0 <= i < n && Concerns(items[i], customerOf, c, p) && items[i].order == x.order;
        assert items[i] == x;
        assert Occurs(items, n, x);
      }
      assert Occurs(items, n, x) ==> x.order in was;
    } else {
      assert now == was;
    }
  }

  /** A customer with two lines or more, and so a repeat customer, has no second order of the product
      exactly when a single order lists it on two lines. */
  lemma {:induction false} RepeatWithoutReorderIff(items: seq<Item>, customerOf: map<Id, Id>, c: Id, p: Id)
    ensures var (n, orders) := (|items|, |OrdersOf(items, customerOf, |items|, c, p)|);
            LinesOf(items, customerOf, n, c, p) >= 2 && orders <= 1 <==> orders == 1 && Doubled(items, customerOf, n, c, p)
  {
    LinesAgainstOrders(items, customerOf, |items|, c, p);
    if Doubled(items, customerOf, |items|, c, p) {
      var j :| 0 <= j < |items| && Concerns(items[j], customerOf, c, p) && Occurs(items, j, items[j]);
      assert items[j].order in OrdersOf(items, customerOf, |items|, c, p);
    }
    hide Doubled;
  }

  /** One order with the product on two lines makes its customer a repeat customer. */
  lemma RepeatsWithinOneOrder()
    ensures var (items, customerOf) := ([Item(1, 5), Item(1, 5)], map[1 := 9]);
            LinesOf(items, customerOf, 2, 9, 5) == 2 && OrdersOf(items, customerOf, 2, 9, 5) == {1}
  {
    var items, customerOf: map<Id, Id> := [Item(1, 5), Item(1, 5)], map[1 := 9];
    assert Concerns(items[0], customerOf, 9, 5) && Concerns(items[1], customerOf, 9, 5);
    assert LinesOf(items, customerOf, 1, 9, 5) == 1;
  }
}
