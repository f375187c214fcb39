/** RFM scoring and the seven customer segments. Money is in exact reals. */
module Segments {
  import opened Sorting

  // ---- Percentiles of the spends -------------------------------------------------------------

  function Ascending(a: real, b: real): bool { a <= b }

  /** The position of the p-th percentile among `n` values. */
  function Position(n: nat, p: nat): nat { n * p / 100 }

  function Pctile(sorted: seq<real>, p: nat): real {
    var i := Position(|sorted|, p);
    if i < |sorted| then sorted[i] else 0.0
  }

  /** The four thresholds of a list of spends. */
  function Threshold(spends: seq<real>, p: nat): real {
    Pctile(SortBy(spends, Ascending), p)
  }

  lemma PercentilesOrdered(spends: seq<real>, p: nat, q: nat)
    requires p <= q < 100
    ensures Threshold(spends, p) <= Threshold(spends, q)
  {
    hide Position;
    SortOrders(spends, Ascending);
    PositionsOrdered(|spends|, p, q);
    var sorted := SortBy(spends, Ascending);
    assert spends != [] && Position(|spends|, p) < Position(|spends|, q) ==>
      Ascending(sorted[Position(|spends|, p)], sorted[Position(|spends|, q)]);
  }

  lemma PositionsOrdered(n: nat, p: nat, q: nat)
    requires p <= q < 100
    ensures Position(n, p) <= Position(n, q) && (n > 0 ==> Position(n, q) < n)
  {
    ProductsOrdered(n, p, q);
    DivideOrdered(n, n * p, n * q);
  }

  lemma ProductsOrdered(n: nat, p: nat, q: nat)
    requires p <= q < 100
    ensures n * p <= n * q && (n > 0 ==> n * q < 100 * n)
  {
    assert n * (q - p) == n * q - n * p;
    assert n * (100 - q) == 100 * n - n * q;
  }

  lemma DivideOrdered(n: nat, a: nat, b: nat)
    requires a <= b && (n > 0 ==> b < 100 * n)
    ensures a / 100 <= b / 100 && (n > 0 ==> b / 100 < n)
  {
  }

  // ---- Scores ----------------------------------------------------------------------------------

  datatype Scores = Scores(r: int, f: int, m: int)

  function RfmScores(recencyDays: int, frequency: int, spend: real, p20: real, p40: real, p60: real, p80: real): Scores {
    Scores(
      if recencyDays <= 7 then 5 else if recencyDays <= 30 then 4 else if recencyDays <= 60 then 3 else if recencyDays <= 90 then 2 else 1,
      if frequency > 10 then 5 else if frequency >= 7 then 4 else if frequency >= 4 then 3 else if frequency >= 2 then 2 else 1,
      if spend > p80 then 5 else if spend > p60 then 4 else if spend > p40 then 3 else if spend > p20 then 2 else 1)
  }

  /** The same by assignments in turn, as the service computes it. */
  method ComputeScores(recencyDays: int, frequency: int, spend: real, p20: real, p40: real, p60: real, p80: real)
    returns (r: int, f: int, m: int)
    ensures Scores(r, f, m) == RfmScores(recencyDays, frequency, spend, p20, p40, p60, p80)
  {
    r := 1;
    if recencyDays <= 7 { r := 5; }
    else if recencyDays <= 30 { r := 4; }
    else if recencyDays <= 60 { r := 3; }
    else if recencyDays <= 90 { r := 2; }
    f := 1;
    if frequency > 10 { f := 5; }
    else if frequency >= 7 { f := 4; }
    else if frequency >= 4 { f := 3; }
    else if frequency >= 2 { f := 2; }
    m := 1;
    if spend > p80 { m := 5; }
    else if spend > p60 { m := 4; }
    else if spend > p40 { m := 3; }
    else if spend > p20 { m := 2; }
  }

  /** A more recent order never lowers r, and another order never lowers f; the scores run from 1 to 5
      and tell the recency band and the frequency band. */
  lemma RecencyAndFrequency(days: int, days': int, n: int, n': int, spend: real, p20: real, p40: real, p60: real, p80: real)
    ensures var (s, s') := (RfmScores(days, n, spend, p20, p40, p60, p80), RfmScores(days', n', spend, p20, p40, p60, p80));
            && (days <= days' ==> s'.r <= s.r) && (n <= n' ==> s.f <= s'.f) && s.m == s'.m
            && 1 <= s.r <= 5 && 1 <= s.f <= 5
            && (s.r > 4 <==> days <= 7) && (s.r > 3 <==> days <= 30) && (s.r > 2 <==> days <= 60) && (s.r > 1 <==> days <= 90)
            && (s.f > 4 <==> n >= 11) && (s.f > 3 <==> n >= 7) && (s.f > 2 <==> n >= 4) && (s.f > 1 <==> n >= 2)
  {
  }

  function Monetary(spends: seq<real>, spend: real): int {
    RfmScores(0, 0, spend, Threshold(spends, 20), Threshold(spends, 40), Threshold(spends, 60), Threshold(spends, 80)).m
  }

  /** Who spends more never scores less; the score tells which thresholds the spend exceeds. */
  lemma MonetaryMonotone(spends: seq<real>, a: real, b: real)
    ensures a <= b ==> Monetary(spends, a) <= Monetary(spends, b)
    ensures 1 <= Monetary(spends, a) <= 5
    ensures forall k | 1 <= k <= 4 :: Monetary(spends, a) > k <==> a > Threshold(spends, 20 * k)
  {
    PercentilesOrdered(spends, 20, 40);
    PercentilesOrdered(spends, 40, 60);
    PercentilesOrdered(spends, 60, 80);
    hide Threshold;
    forall k | 1 <= k <= 4 ensures Monetary(spends, a) > k <==> a > Threshold(spends, 20 * k) {
      assert k == 1 || k == 2 || k == 3 || k == 4;
    }
  }

  function Above(t: real): real -> bool {
    (x: real) => x > t
  }

  function CountAbove(s: seq<real>, t: real): nat {
    Count(s, Above(t))
  }

  /** Of an ordered list, only what stands behind position k exceeds what stands there. */
  lemma {:induction false} FewAbove(s: seq<real>, k: nat, t: real)
    requires Ordered(s, Ascending) && k < |s| && s[k] <= t
    ensures CountAbove(s, t) <= |s| - k - 1
  {
    var before := s[..|s| - 1];
    if k < |s| - 1 {
      FewAbove(before, k, t);
    } else {
      NoneAbove(s, t);
    }
  }

  lemma {:induction false} NoneAbove(s: seq<real>, t: real)
    requires Ordered(s, Ascending) && (s != [] ==> s[|s| - 1] <= t)
    ensures CountAbove(s, t) == 0
  {
    if |s| > 1 {
      assert Ascending(s[|s| - 2], s[|s| - 1]);
      NoneAbove(s[..|s| - 1], t);
    } else if |s| == 1 {
      assert !Above(t)(s[0]) && Count(s[..0], Above(t)) == 0;
    }
  }

  /** Fewer than a fifth of the customers score m = 5, and for each k fewer than a share of
      (100 - 20 k) / 100 of them exceed the k-th threshold. */
  lemma TopScoresAreFew(spends: seq<real>, k: int)
    requires spends != [] && 1 <= k <= 4
    ensures 5 * CountAbove(spends, Threshold(spends, 20 * k)) < (5 - k) * |spends|
  {
    hide Position;
    SortOrders(spends, Ascending);
    SortCounts(spends, Ascending, Above(Threshold(spends, 20 * k)));
    FifthPosition(|spends|, k);
    FewAbove(SortBy(spends, Ascending), Position(|spends|, 20 * k), Threshold(spends, 20 * k));
    hide CountAbove, Threshold;
    assert (5 - k) * |spends| == 5 * |spends| - k * |spends|;
  }

  function Below(t: real): real -> bool {
    (x: real) => x < t
  }

  /** Of an ordered list, only what stands before position k lies below what stands there. */
  lemma {:induction false} FewBelow(s: seq<real>, k: nat, t: real)
    requires Ordered(s, Ascending) && k < |s| && t <= s[k]
    ensures Count(s, Below(t)) <= k
  {
    var last := |s| - 1;
    assert k == last || Ascending(s[k], s[last]);
    assert !Below(t)(s[last]);
    if k < last {
      FewBelow(s[..last], k, t);
    } else {
      CountAtMost(s[..last], Below(t));
    }
  }

  lemma {:induction false} CountAtMost(s: seq<real>, p: real -> bool)
    ensures Count(s, p) <= |s|
  {
    if s != [] {
      CountAtMost(s[..|s| - 1], p);
    }
  }

  /** A threshold is one of the spends: at most p hundredths of them lie below it, and more than that many
      do not lie above it. */
  lemma {:induction false} ThresholdSplits(spends: seq<real>, p: nat)
    requires spends != [] && p < 100
    ensures Threshold(spends, p) in spends
    ensures 100 * Count(spends, Below(Threshold(spends, p))) <= p * |spends| < 100 * (|spends| - CountAbove(spends, Threshold(spends, p)))
  {
    hide Position, CountAbove, SortBy, Count, Threshold;
    ThresholdAt(spends, p);
    AtPosition(|spends|, p);
    SplitAt(spends, Position(|spends|, p));
  }

  lemma {:induction false} ThresholdAt(spends: seq<real>, p: nat)
    requires spends != [] && p < 100
    ensures Position(|spends|, p) < |spends| && Threshold(spends, p) == SortBy(spends, Ascending)[Position(|spends|, p)]
    ensures Threshold(spends, p) in spends
  {
    hide Position, SortBy;
    PositionsOrdered(|spends|, p, p);
    SortElements(spends, Ascending, SortBy(spends, Ascending)[Position(|spends|, p)]);
  }

  lemma AtPosition(n: nat, p: nat)
    ensures 100 * Position(n, p) <= p * n < 100 * (Position(n, p) + 1)
  {
    Hundredths(n * p, Position(n, p));
  }

  lemma {:induction false} SplitAt(spends: seq<real>, k: nat)
    requires k < |spends|
    ensures var t := SortBy(spends, Ascending)[k];
            Count(spends, Below(t)) <= k && CountAbove(spends, t) <= |spends| - k - 1
  {
    var sorted := SortBy(spends, Ascending);
    SortOrders(spends, Ascending);
    SortCounts(spends, Ascending, Above(sorted[k]));
    SortCounts(spends, Ascending, Below(sorted[k]));
    FewAbove(sorted, k, sorted[k]);
    FewBelow(sorted, k, sorted[k]);
    hide SortBy, Count;
  }

  lemma Hundredths(x: nat, k: nat)
    requires k == x / 100
    ensures 100 * k <= x < 100 * (k + 1)
  {
  }

  lemma FifthPosition(n: nat, k: int)
    requires n > 0 && 1 <= k <= 4
    ensures 0 <= Position(n, 20 * k) < n && 5 * Position(n, 20 * k) > k * n - 5
  {
    assert k == 1 || k == 2 || k == 3 || k == 4;
    assert n * (20 * k) == 20 * (k * n);
  }

  // ---- Segments --------------------------------------------------------------------------------

  datatype SegmentId = Vip | Loyal | AtRisk | Fresh | HighIntent | DiscountDriven | WindowShopper

  function ClassifySegment(r: int, f: int, m: int, aov: real, globalAov: real): SegmentId {
    if r >= 4 && f >= 4 && m >= 4 then Vip
    else if r >= 3 && f >= 3 && m >= 3 then Loyal
    else if r <= 2 && (f >= 3 || m >= 3) then AtRisk
    else if f <= 2 && r >= 4 then Fresh
    else if r >= 3 && f >= 2 && m >= 2 then HighIntent
    else if f >= 3 && aov < globalAov * 0.6 then DiscountDriven
    else WindowShopper
  }

  /** Which customers each segment holds, with the order of the tests resolved. */
  lemma SegmentTable(r: int, f: int, m: int, aov: real, g: real)
    requires 1 <= r <= 5 && 1 <= f <= 5 && 1 <= m <= 5
    ensures var s := ClassifySegment(r, f, m, aov, g);
            && (s == Vip <==> r >= 4 && f >= 4 && m >= 4)
            && (s == Loyal <==> r >= 3 && f >= 3 && m >= 3 && (r == 3 || f == 3 || m == 3))
            && (s == AtRisk <==> r <= 2 && (f >= 3 || m >= 3))
            && (s == Fresh <==> r >= 4 && f <= 2)
            && (s == HighIntent <==> r >= 3 && ((f >= 3 && m == 2) || (r == 3 && f == 2 && m >= 2)))
            && (s == DiscountDriven <==> r >= 3 && f >= 3 && m == 1 && aov < g * 0.6)
            && (s == WindowShopper <==>
                  || (r <= 2 && f <= 2 && m <= 2)
                  || (r == 3 && (f == 1 || (f == 2 && m == 1)))
                  || (r >= 3 && f >= 3 && m == 1 && aov >= g * 0.6))
  {
  }

  // ---- The buckets -----------------------------------------------------------------------------

  datatype Customer = Customer(orders: int, spent: real, lastOrderAt: int, ordered: bool)

  const DAY_MS := 86_400_000

  function SegmentOf(c: Customer, spends: seq<real>, globalAov: real, now: int): SegmentId {
    var recencyDays := if c.ordered then (now - c.lastOrderAt) / DAY_MS else 999;
    var aov := if c.orders > 0 then c.spent / c.orders as real else 0.0;
    var s := RfmScores(recencyDays, c.orders, c.spent,
                       Threshold(spends, 20), Threshold(spends, 40), Threshold(spends, 60), Threshold(spends, 80));
    ClassifySegment(s.r, s.f, s.m, aov, globalAov)
  }

  predicate OrderedWithin(c: Customer, days: int, now: int) {
    c.ordered && (now - c.lastOrderAt) / DAY_MS <= days
  }

  /** Who is a champion, and who at least loyal, read off the customer and the spends. */
  lemma TopSegments(c: Customer, spends: seq<real>, globalAov: real, now: int)
    ensures SegmentOf(c, spends, globalAov, now) == Vip <==>
              OrderedWithin(c, 30, now) && c.orders >= 7 && c.spent > Threshold(spends, 60)
    ensures SegmentOf(c, spends, globalAov, now) in {Vip, Loyal} <==>
              OrderedWithin(c, 60, now) && c.orders >= 4 && c.spent > Threshold(spends, 40)
  {
    PercentilesOrdered(spends, 40, 60);
    PercentilesOrdered(spends, 60, 80);
    hide Threshold;
  }

  /** Every segment, read off the customer, the spends and the average spend. */
  lemma SegmentMeaning(c: Customer, spends: seq<real>, globalAov: real, now: int)
    ensures var id := SegmentOf(c, spends, globalAov, now);
            var (month, months) := (OrderedWithin(c, 30, now), OrderedWithin(c, 60, now));
            var (some, much, most) := (c.spent > Threshold(spends, 20), c.spent > Threshold(spends, 40), c.spent > Threshold(spends, 60));
            && (id == Vip <==> month && c.orders >= 7 && most)
            && (id == Loyal <==> months && c.orders >= 4 && much && !(month && c.orders >= 7 && most))
            && (id == AtRisk <==> !months && (c.orders >= 4 || much))
            && (id == Fresh <==> month && c.orders < 4)
            && (id == HighIntent <==> months && some && ((c.orders >= 4 && !much) || (2 <= c.orders < 4 && !month)))
            && (id == DiscountDriven <==> months && c.orders >= 4 && !some && c.spent / c.orders as real < globalAov * 0.6)
  {
    PercentilesOrdered(spends, 20, 40);
    PercentilesOrdered(spends, 40, 60);
    PercentilesOrdered(spends, 60, 80);
    hide Threshold;
  }

  datatype Bucket = Bucket(count: nat, revenue: real)

  type Buckets = map<SegmentId, Bucket>

  const SEGMENTS: set<SegmentId> := {Vip, Loyal, AtRisk, Fresh, HighIntent, DiscountDriven, WindowShopper}

  function Spends(customers: seq<Customer>): seq<real> {
    if customers == [] then [] else Spends(customers[..|customers| - 1]) + [customers[|customers| - 1].spent]
  }

  function Total(s: seq<real>): real {
    if s == [] then 0.0 else Total(s[..|s| - 1]) + s[|s| - 1]
  }

  /** The average spend of a customer, which the service calls the global order value. */
  function GlobalAov(customers: seq<Customer>): real {
    if customers == [] then 0.0 else Total(Spends(customers)) / |customers| as real
  }

  /** The customers among the first `n` that belong to the segment, and what they spent. */
  function Members(all: seq<Customer>, id: SegmentId, now: int, n: nat): Bucket
    requires n <= |all|
  {
    if n == 0 then Bucket(0, 0.0)
    else
      var before, c := Members(all, id, now, n - 1), all[n - 1];
      if SegmentOf(c, Spends(all), GlobalAov(all), now) == id then Bucket(before.count + 1, before.revenue + c.spent) else before
  }

  method FindSegment(c: Customer, spends: seq<real>, globalAov: real, now: int) returns (id: SegmentId)
    ensures id == SegmentOf(c, spends, globalAov, now)
  {
    hide Threshold;
    var recencyDays := if c.ordered then (now - c.lastOrderAt) / DAY_MS else 999;
    var aov := if c.orders > 0 then c.spent / c.orders as real else 0.0;
    var r, f, m := ComputeScores(recencyDays, c.orders, c.spent,
                                 Threshold(spends, 20), Threshold(spends, 40), Threshold(spends, 60), Threshold(spends, 80));
    id := ClassifySegment(r, f, m, aov, globalAov);
  }

  lemma EverySegment(id: SegmentId)
    ensures id in SEGMENTS
  {
  }

  method FillBuckets(customers: seq<Customer>, now: int) returns (buckets: Buckets)
    ensures buckets.Keys == SEGMENTS
    ensures forall id | id in SEGMENTS :: buckets[id] == Members(customers, id, now, |customers|)
  {
    hide SegmentOf, Spends, GlobalAov;
    var spends, globalAov := Spends(customers), GlobalAov(customers);
    buckets := map id | id in SEGMENTS :: Bucket(0, 0.0);
    for n := 0 to |customers|
      invariant buckets.Keys == SEGMENTS
      invariant forall id | id in SEGMENTS :: buckets[id] == Members(customers, id, now, n)
    {
      var c := customers[n];
      var id := FindSegment(c, spends, globalAov, now);
      EverySegment(id);
      buckets := buckets[id := Bucket(buckets[id].count + 1, buckets[id].revenue + c.spent)];
    }
  }

  function CountIn(all: seq<Customer>, now: int, n: nat, id: SegmentId): nat
    requires n <= |all|
  {
    Members(all, id, now, n).count
  }

  function RevenueIn(all: seq<Customer>, now: int, n: nat, id: SegmentId): real
    requires n <= |all|
  {
    Members(all, id, now, n).revenue
  }

  /** The seven buckets hold every customer once, and all that was spent. */
  lemma {:induction false} BucketsPartition(all: seq<Customer>, now: int, n: nat)
    requires n <= |all|
    ensures CountIn(all, now, n, Vip) + CountIn(all, now, n, Loyal) + CountIn(all, now, n, AtRisk) + CountIn(all, now, n, Fresh)
          + CountIn(all, now, n, HighIntent) + CountIn(all, now, n, DiscountDriven) + CountIn(all, now, n, WindowShopper) == n
    ensures RevenueIn(all, now, n, Vip) + RevenueIn(all, now, n, Loyal) + RevenueIn(all, now, n, AtRisk) + RevenueIn(all, now, n, Fresh)
          + RevenueIn(all, now, n, HighIntent) + RevenueIn(all, now, n, DiscountDriven) + RevenueIn(all, now, n, WindowShopper)
         == Total(Spends(all[..n]))
  {
    hide SegmentOf, GlobalAov, Spends, Total;
    if n > 0 {
      BucketsPartition(all, now, n - 1);
    }
    SpentStep(all, n);
  }

  /** Champions are fewer than two fifths of the customers, and with the loyal ones fewer than three. */
  lemma TopSegmentsAreFew(all: seq<Customer>, now: int)
    requires all != []
    ensures 5 * CountIn(all, now, |all|, Vip) < 2 * |all|
    ensures 5 * (CountIn(all, now, |all|, Vip) + CountIn(all, now, |all|, Loyal)) < 3 * |all|
  {
    TopSpend(all, now, |all|);
    assert all[..|all|] == all;
    SpendsOf(all);
    hide CountAbove, Threshold, CountIn, Spends;
    TopScoresAreFew(Spends(all), 3);
    TopScoresAreFew(Spends(all), 2);
  }

  lemma {:induction false} TopSpend(all: seq<Customer>, now: int, n: nat)
    requires n <= |all|
    ensures CountIn(all, now, n, Vip) <= CountAbove(Spends(all[..n]), Threshold(Spends(all), 60))
    ensures CountIn(all, now, n, Vip) + CountIn(all, now, n, Loyal) <= CountAbove(Spends(all[..n]), Threshold(Spends(all), 40))
  {
    hide SegmentOf, GlobalAov, Threshold, Spends, CountAbove;
    if n > 0 {
      TopSpend(all, now, n - 1);
      TopSegments(all[n - 1], Spends(all), GlobalAov(all), now);
      AboveStep(all, n, Threshold(Spends(all), 60));
      AboveStep(all, n, Threshold(Spends(all), 40));
    }
  }

  lemma AboveStep(all: seq<Customer>, n: nat, t: real)
    requires 0 < n <= |all|
    ensures CountAbove(Spends(all[..n]), t) == CountAbove(Spends(all[..n - 1]), t) + if all[n - 1].spent > t then 1 else 0
  {
    assert all[..n][..n - 1] == all[..n - 1];
    var spends := Spends(all[..n]);
    assert spends[..|spends| - 1] == Spends(all[..n - 1]);
  }

  lemma {:induction false} SpendsOf(all: seq<Customer>)
    ensures |Spends(all)| == |all|
  {
    if all != [] {
      SpendsOf(all[..|all| - 1]);
    }
  }

  /** The global order value is the average spend. */
  lemma {:induction false} GlobalAovIsMean(all: seq<Customer>)
    requires all != []
    ensures GlobalAov(all) * |all| as real == Total(Spends(all))
  {
    hide Spends, Total;
    Quotient(Total(Spends(all)), |all| as real);
  }

  lemma Quotient(a: real, n: real)
    requires n > 0.0
    ensures a / n * n == a
  {
  }

  lemma SpentStep(all: seq<Customer>, n: nat)
    requires n <= |all|
    ensures Total(Spends(all[..n])) == if n == 0 then 0.0 else Total(Spends(all[..n - 1])) + all[n - 1].spent
  {
    if n > 0 {
      assert all[..n][..n - 1] == all[..n - 1];
      var spends := Spends(all[..n]);
      assert spends[..|spends| - 1] == Spends(all[..n - 1]);
    }
  }
}
