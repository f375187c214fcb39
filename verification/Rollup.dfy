/** The daily rollup: buckets by store and UTC day, the rows written from them, and the 30-day figures.
    Amounts are in cents, times in milliseconds. */
module Rollup {
  import opened Sums

  type Id = nat

  function DayOf(at: int): int { at / 86_400_000 }

  function Midnight(day: int): int { day * 86_400_000 }

  datatype Order = Order(store: Id, processed: bool, at: int, deleted: bool, currency: string,
                         gross: int, discount: int, refund: int, tax: int, shipping: int)

  datatype Key = Key(store: Id, day: int)

  datatype Bucket = Bucket(orders: int, gross: int, discount: int, refund: int, tax: int, shipping: int, currency: string)

  /** The six figures that a bucket sums up. */
  datatype Part = Orders | Gross | Discount | Refund | Tax | Shipping

  function AmountOf(p: Part, o: Order): int {
    match p
    case Orders => 1
    case Gross => o.gross
    case Discount => o.discount
    case Refund => o.refund
    case Tax => o.tax
    case Shipping => o.shipping
  }

  function Field(b: Bucket, p: Part): int {
    match p
    case Orders => b.orders
    case Gross => b.gross
    case Discount => b.discount
    case Refund => b.refund
    case Tax => b.tax
    case Shipping => b.shipping
  }

  predicate Live(o: Order) { !o.deleted && o.processed }

  predicate Selected(o: Order, since: int) { Live(o) && o.at >= since }

  function KeyOf(o: Order): Key { Key(o.store, DayOf(o.at)) }

  /** What an order adds to its bucket when it is selected; when it is not, but would be without the
      bound; and in either case. */
  function From(p: Part, since: int): Order -> Share<Key> {
    (o: Order) => if Selected(o, since) then Share(KeyOf(o), AmountOf(p, o)) else Nothing
  }

  function Before(p: Part, since: int): Order -> Share<Key> {
    (o: Order) => if Live(o) && o.at < since then Share(KeyOf(o), AmountOf(p, o)) else Nothing
  }

  function Whole(p: Part): Order -> Share<Key> {
    (o: Order) => if Live(o) then Share(KeyOf(o), AmountOf(p, o)) else Nothing
  }

  // ---- The buckets ---------------------------------------------------------------------------------

  /** The currency of the first order of the bucket; the others are added to it unconverted. */
  function FirstCurrency(orders: seq<Order>, since: int, k: Key): string {
    if orders == [] then ""
    else
      var before, o := orders[..|orders| - 1], orders[|orders| - 1];
      if k in KeysOf(before, From(Orders, since)) || !(Selected(o, since) && KeyOf(o) == k) then FirstCurrency(before, since, k)
      else o.currency
  }

  /** The bucket by direct sums over the orders of its store and day. */
  function BucketOf(orders: seq<Order>, since: int, k: Key): Bucket {
    Bucket(GroupTotal(orders, From(Orders, since), k), GroupTotal(orders, From(Gross, since), k),
           GroupTotal(orders, From(Discount, since), k), GroupTotal(orders, From(Refund, since), k),
           GroupTotal(orders, From(Tax, since), k), GroupTotal(orders, From(Shipping, since), k),
           FirstCurrency(orders, since, k))
  }

  function BucketsOf(orders: seq<Order>, since: int): map<Key, Bucket> {
    map k | k in KeysOf(orders, From(Orders, since)) :: BucketOf(orders, since, k)
  }

  method FillBuckets(orders: seq<Order>, since: int) returns (buckets: map<Key, Bucket>)
    ensures buckets == BucketsOf(orders, since)
  {
    buckets := map[];
    NoBuckets(orders[..0], since);
    for n := 0 to |orders|
      invariant buckets == BucketsOf(orders[..n], since)
    {
      hide BucketsOf, AddOrder;
      BucketsStep(orders, n, since);
      var o := orders[n];
      if Selected(o, since) {
        var key := KeyOf(o);
        var b := if key in buckets then buckets[key] else Bucket(0, 0, 0, 0, 0, 0, o.currency);
        buckets := buckets[key := AddOrder(b, o)];
      }
    }
    assert orders[..|orders|] == orders;
  }

  function AddOrder(b: Bucket, o: Order): Bucket {
    b.(orders := b.orders + 1, gross := b.gross + o.gross, discount := b.discount + o.discount,
       refund := b.refund + o.refund, tax := b.tax + o.tax, shipping := b.shipping + o.shipping)
  }

  lemma NoBuckets(orders: seq<Order>, since: int)
    requires orders == []
    ensures BucketsOf(orders, since) == map[]
  {
  }

  lemma BucketsStep(orders: seq<Order>, n: nat, since: int)
    requires n < |orders|
    ensures var (was, o) := (BucketsOf(orders[..n], since), orders[n]);
            BucketsOf(orders[..n + 1], since) ==
              if Selected(o, since) then
                was[KeyOf(o) := AddOrder(if KeyOf(o) in was then was[KeyOf(o)] else Bucket(0, 0, 0, 0, 0, 0, o.currency), o)]
              else was
  {
    var was, now, o := orders[..n], orders[..n + 1], orders[n];
    KeysStep(orders, n, since);
    hide BucketOf, AddOrder, KeysOf, From, Selected, KeyOf;
    if Selected(o, since) {
      OwnBucketStep(orders, n, since);
    }
    forall k | k in KeysOf(was, From(Orders, since)) && !(Selected(o, since) && k == KeyOf(o))
      ensures BucketOf(now, since, k) == BucketOf(was, since, k) {
      BucketStep(orders, n, since, k);
    }
  }

  lemma KeysStep(orders: seq<Order>, n: nat, since: int)
    requires n < |orders|
    ensures KeysOf(orders[..n + 1], From(Orders, since))
         == KeysOf(orders[..n], From(Orders, since)) + if Selected(orders[n], since) then {KeyOf(orders[n])} else {}
  {
    Step(orders, n, From(Orders, since));
    hide KeysOf;
  }

  lemma OwnBucketStep(orders: seq<Order>, n: nat, since: int)
    requires n < |orders| && Selected(orders[n], since)
    ensures var (was, o) := (orders[..n], orders[n]);
            BucketOf(orders[..n + 1], since, KeyOf(o)) ==
              AddOrder(if KeyOf(o) in KeysOf(was, From(Orders, since)) then BucketOf(was, since, KeyOf(o))
                       else Bucket(0, 0, 0, 0, 0, 0, o.currency), o)
  {
    BucketStep(orders, n, since, KeyOf(orders[n]));
    NoGroup(orders[..n], since, KeyOf(orders[n]));
    hide GroupTotal, KeysOf, From, Selected, KeyOf, FirstCurrency;
  }

  lemma BucketStep(orders: seq<Order>, n: nat, since: int, k: Key)
    requires n < |orders|
    ensures var (was, now, o) := (orders[..n], orders[..n + 1], orders[n]);
            && (!(Selected(o, since) && k == KeyOf(o)) ==> BucketOf(now, since, k) == BucketOf(was, since, k))
            && (Selected(o, since) && k == KeyOf(o) ==>
                  BucketOf(now, since, k) == AddOrder(BucketOf(was, since, k), o).(
                    currency := if k in KeysOf(was, From(Orders, since)) then FirstCurrency(was, since, k) else o.currency))
  {
    assert orders[..n + 1][..n] == orders[..n];
    hide GroupTotal, KeysOf, From, Selected, KeyOf;
    PartStep(orders, n, since, k, Orders);
    PartStep(orders, n, since, k, Gross);
    PartStep(orders, n, since, k, Discount);
    PartStep(orders, n, since, k, Refund);
    PartStep(orders, n, since, k, Tax);
    PartStep(orders, n, since, k, Shipping);
  }

  lemma {:induction false} PartStep(orders: seq<Order>, n: nat, since: int, k: Key, p: Part)
    requires n < |orders|
    ensures GroupTotal(orders[..n + 1], From(p, since), k) == GroupTotal(orders[..n], From(p, since), k)
          + if Selected(orders[n], since) && k == KeyOf(orders[n]) then AmountOf(p, orders[n]) else 0
  {
    Step(orders, n, From(p, since));
  }

  lemma {:induction false} NoGroup(orders: seq<Order>, since: int, k: Key)
    ensures k !in KeysOf(orders, From(Orders, since)) ==> forall p :: GroupTotal(orders, From(p, since), k) == 0
  {
    if orders != [] {
      var n := |orders| - 1;
      NoGroup(orders[..n], since, k);
      assert orders[..n + 1] == orders;
      Step(orders, n, From(Orders, since));
      forall p ensures k !in KeysOf(orders, From(Orders, since)) ==> GroupTotal(orders, From(p, since), k) == 0 {
        Step(orders, n, From(p, since));
      }
    }
  }

  /** The bucket's figures are the direct sums over its store and day, part by part. */
  lemma {:induction false} FieldIs(orders: seq<Order>, since: int, k: Key, p: Part)
    ensures Field(BucketOf(orders, since, k), p) == GroupTotal(orders, From(p, since), k)
  {
  }

  /** The query names no order; the figures do not depend on it, only the bucket's currency does. */
  lemma FiguresIgnoreOrder(orders: seq<Order>, orders': seq<Order>, since: int, k: Key, p: Part)
    requires multiset(orders) == multiset(orders')
    ensures Field(BucketOf(orders, since, k), p) == Field(BucketOf(orders', since, k), p)
  {
    FieldIs(orders, since, k, p);
    FieldIs(orders', since, k, p);
    GroupsReordered(orders, orders', From(p, since), k);
  }

  function FieldOver(buckets: map<Key, Bucket>, p: Part): Key -> int {
    (k: Key) => if k in buckets then Field(buckets[k], p) else 0
  }

  lemma SameKeys(orders: seq<Order>, since: int, p: Part)
    ensures KeysOf(orders, From(p, since)) == KeysOf(orders, From(Orders, since))
  {
  }

  /** The buckets together hold every figure of every selected order, once. */
  lemma {:induction false} BucketsConserve(orders: seq<Order>, since: int, p: Part)
    ensures SumOver(BucketsOf(orders, since).Keys, FieldOver(BucketsOf(orders, since), p)) == Total(orders, From(p, since))
  {
    var buckets := BucketsOf(orders, since);
    SameKeys(orders, since, p);
    forall k | k in buckets.Keys ensures FieldOver(buckets, p)(k) == GroupTotal(orders, From(p, since), k) {
      FieldIs(orders, since, k, p);
    }
    Partition(orders, From(p, since), buckets.Keys, FieldOver(buckets, p));
  }

  // ---- The rows -------------------------------------------------------------------------------------

  datatype Metric = Metric(orders: int, gross: int, net: int, discount: int, refund: int, tax: int, shipping: int,
                           avgOrderValue: real, currency: string)

  function MetricOf(b: Bucket): Metric {
    Metric(b.orders, b.gross, b.gross - b.refund, b.discount, b.refund, b.tax, b.shipping,
           if b.orders == 0 then 0.0 else b.gross as real / b.orders as real, b.currency)
  }

  /** The rows after the upserts. */
  function Upserted(table: map<Key, Metric>, buckets: map<Key, Bucket>): map<Key, Metric> {
    map k | k in table.Keys + buckets.Keys :: if k in buckets then MetricOf(buckets[k]) else table[k]
  }

  method Upsert(table: map<Key, Metric>, buckets: map<Key, Bucket>) returns (rows: map<Key, Metric>)
    ensures rows == Upserted(table, buckets)
  {
    rows := table;
    var rest := buckets.Keys;
    while rest != {}
      invariant rest <= buckets.Keys
      invariant rows.Keys == table.Keys + (buckets.Keys - rest)
      invariant forall k | k in rows :: rows[k] == if k in buckets && k !in rest then MetricOf(buckets[k]) else table[k]
    {
      var k :| k in rest;
      rows := rows[k := MetricOf(buckets[k])];
      rest := rest - {k};
    }
  }

  /** The orders that a row of the store and UTC day adds up: placed since the range began and not deleted. */
  function RowOrders(orders: seq<Order>, since: int, store: Id, day: int): set<int> {
    set i | 0 <= i < |orders| && orders[i].processed && !orders[i].deleted && orders[i].store == store
            && since <= orders[i].at && day * 86_400_000 <= orders[i].at < (day + 1) * 86_400_000
  }

  function Figure(orders: seq<Order>, v: Order -> int): int -> int {
    (i: int) => if 0 <= i < |orders| then v(orders[i]) else 0
  }

  lemma RowPlaces(orders: seq<Order>, since: int, store: Id, day: int, p: Part)
    ensures forall i :: i in RowOrders(orders, since, store, day) <==>
              0 <= i < |orders| && From(p, since)(orders[i]).Share? && From(p, since)(orders[i]).key == Key(store, day)
  {
    forall i | 0 <= i < |orders|
      ensures i in RowOrders(orders, since, store, day) <==>
                From(p, since)(orders[i]).Share? && From(p, since)(orders[i]).key == Key(store, day) {
      DayIff(orders[i].at, day);
    }
  }

  lemma DayIff(at: int, day: int)
    ensures DayOf(at) == day <==> day * 86_400_000 <= at < (day + 1) * 86_400_000
  {
  }

  lemma {:induction false} PartIsSum(orders: seq<Order>, since: int, store: Id, day: int, p: Part, v: Order -> int)
    requires forall o :: AmountOf(p, o) == v(o)
    ensures GroupTotal(orders, From(p, since), Key(store, day)) == SumOver(RowOrders(orders, since, store, day), Figure(orders, v))
  {
    RowPlaces(orders, since, store, day, p);
    hide RowOrders;
    GroupIsSum(orders, From(p, since), Key(store, day), RowOrders(orders, since, store, day), Figure(orders, v));
  }

  /** A row exists for every store and day with such an order, and says how many they are, what they come
      to, what is left after refunds, and the average order. */
  lemma RowMeaning(table: map<Key, Metric>, orders: seq<Order>, since: int, store: Id, day: int)
    ensures var (k, places) := (Key(store, day), RowOrders(orders, since, store, day));
            && (k in BucketsOf(orders, since) <==> places != {})
            && (places != {} ==>
                  && k in Upserted(table, BucketsOf(orders, since))
                  && var row := Upserted(table, BucketsOf(orders, since))[k];
                     && row.orders == |places|
                     && row.gross == SumOver(places, Figure(orders, (o: Order) => o.gross))
                     && row.discount == SumOver(places, Figure(orders, (o: Order) => o.discount))
                     && row.refund == SumOver(places, Figure(orders, (o: Order) => o.refund))
                     && row.tax == SumOver(places, Figure(orders, (o: Order) => o.tax))
                     && row.shipping == SumOver(places, Figure(orders, (o: Order) => o.shipping))
                     && row.net == SumOver(places, Figure(orders, (o: Order) => o.gross - o.refund))
                     && row.avgOrderValue == row.gross as real / |places| as real)
  {
    hide GroupTotal, KeysOf, From, RowOrders, FirstCurrency, SumOver, Figure;
    PartIsSum(orders, since, store, day, Orders, (o: Order) => 1);
    PartIsSum(orders, since, store, day, Gross, (o: Order) => o.gross);
    PartIsSum(orders, since, store, day, Discount, (o: Order) => o.discount);
    PartIsSum(orders, since, store, day, Refund, (o: Order) => o.refund);
    PartIsSum(orders, since, store, day, Tax, (o: Order) => o.tax);
    PartIsSum(orders, since, store, day, Shipping, (o: Order) => o.shipping);
    RowKey(orders, since, store, day);
    NetIsLeft(orders, since, store, day);
    PlacesCount(orders, since, store, day);
  }

  lemma PlacesCount(orders: seq<Order>, since: int, store: Id, day: int)
    ensures SumOver(RowOrders(orders, since, store, day), Figure(orders, (o: Order) => 1)) == |RowOrders(orders, since, store, day)|
  {
    SumOfOnes(RowOrders(orders, since, store, day), Figure(orders, (o: Order) => 1));
  }

  lemma NetIsLeft(orders: seq<Order>, since: int, store: Id, day: int)
    ensures var places := RowOrders(orders, since, store, day);
            SumOver(places, Figure(orders, (o: Order) => o.gross - o.refund))
            == SumOver(places, Figure(orders, (o: Order) => o.gross)) - SumOver(places, Figure(orders, (o: Order) => o.refund))
  {
    SumOfDifference(RowOrders(orders, since, store, day), Figure(orders, (o: Order) => o.gross), Figure(orders, (o: Order) => o.refund),
                    Figure(orders, (o: Order) => o.gross - o.refund));
  }

  lemma RowKey(orders: seq<Order>, since: int, store: Id, day: int)
    ensures Key(store, day) in KeysOf(orders, From(Orders, since)) <==> RowOrders(orders, since, store, day) != {}
  {
    var places, keys, k := RowOrders(orders, since, store, day), KeysOf(orders, From(Orders, since)), Key(store, day);
    RowPlaces(orders, since, store, day, Orders);
    if places != {} {
      var i :| i in places;
      assert From(Orders, since)(orders[i]).Share? && From(Orders, since)(orders[i]).key == k;
    }
    if k in keys {
      var i :| 0 <= i < |orders| && From(Orders, since)(orders[i]).Share? && From(Orders, since)(orders[i]).key == k;
      assert i in places;
    }
  }

  /** Orders added between two runs over one range change only the rows of their own store and day. */
  lemma NewOrdersStayLocal(table: map<Key, Metric>, orders: seq<Order>, more: seq<Order>, since: int)
    ensures var once := Upserted(table, BucketsOf(orders, since));
            forall k | k in once && k !in KeysOf(more, From(Orders, since)) ::
              Upserted(once, BucketsOf(orders + more, since))[k] == once[k]
  {
    var once := Upserted(table, BucketsOf(orders, since));
    var again := BucketsOf(orders + more, since);
    forall k | k in once && k !in KeysOf(more, From(Orders, since)) ensures Upserted(once, again)[k] == once[k] {
      Elsewhere(orders, more, since, k);
    }
  }

  lemma {:induction false} Elsewhere(orders: seq<Order>, more: seq<Order>, since: int, k: Key)
    requires k !in KeysOf(more, From(Orders, since))
    ensures k in KeysOf(orders + more, From(Orders, since)) <==> k in KeysOf(orders, From(Orders, since))
    ensures BucketOf(orders + more, since, k) == BucketOf(orders, since, k)
    decreases |more|
  {
    hide BucketOf, KeysOf, From;
    if more == [] {
      assert orders + more == orders;
    } else {
      var n := |more| - 1;
      var before, all := orders + more[..n], orders + more;
      assert more[..n + 1] == more && all == before + [more[n]];
      assert all[..|before| + 1] == all && all[..|before|] == before;
      KeyStep(more, n, since, k);
      Elsewhere(orders, more[..n], since, k);
      KeyStep(all, |before|, since, k);
      BucketStep(all, |before|, since, k);
    }
  }

  lemma KeyStep(orders: seq<Order>, n: nat, since: int, k: Key)
    requires n < |orders|
    ensures k in KeysOf(orders[..n + 1], From(Orders, since)) <==>
              k in KeysOf(orders[..n], From(Orders, since)) || (Selected(orders[n], since) && k == KeyOf(orders[n]))
  {
    Step(orders, n, From(Orders, since));
  }

  // ---- A later rerun ---------------------------------------------------------------------------------

  /** The range moved on past an order of the store and day. */
  ghost predicate Dropped(orders: seq<Order>, since: int, later: int, k: Key) {
    exists i :: 0 <= i < |orders| && Live(orders[i]) && since <= orders[i].at < later && KeyOf(orders[i]) == k
  }

  lemma DroppedStep(orders: seq<Order>, n: nat, since: int, later: int, k: Key)
    requires n < |orders|
    ensures Dropped(orders[..n + 1], since, later, k) <==>
              Dropped(orders[..n], since, later, k)
              || (Live(orders[n]) && since <= orders[n].at < later && KeyOf(orders[n]) == k)
  {
    var t := orders[..n + 1];
    assert t[n] == orders[n] && forall i | 0 <= i < n :: t[i] == orders[..n][i];
  }

  /** The later range finds the same bucket, currency included, unless an order was dropped; then it
      counts fewer orders. */
  lemma {:induction false} LaterBucket(orders: seq<Order>, since: int, later: int, k: Key)
    requires since <= later
    ensures k in KeysOf(orders, From(Orders, later)) ==> k in KeysOf(orders, From(Orders, since))
    ensures BucketOf(orders, later, k).orders <= BucketOf(orders, since, k).orders
    ensures Dropped(orders, since, later, k) ==> BucketOf(orders, later, k).orders < BucketOf(orders, since, k).orders
    ensures !Dropped(orders, since, later, k) ==>
              (k in KeysOf(orders, From(Orders, later)) <==> k in KeysOf(orders, From(Orders, since)))
              && BucketOf(orders, later, k) == BucketOf(orders, since, k)
  {
    if orders != [] {
      hide Dropped, BucketOf, KeysOf, From;
      var n := |orders| - 1;
      assert orders[..n + 1] == orders;
      LaterBucket(orders[..n], since, later, k);
      DroppedStep(orders, n, since, later, k);
      KeyStep(orders, n, since, k);
      KeyStep(orders, n, later, k);
      BucketStep(orders, n, since, k);
      BucketStep(orders, n, later, k);
      CurrencyOf(orders[..n], since, k);
      CurrencyOf(orders[..n], later, k);
    }
  }

  lemma {:induction false} CurrencyOf(orders: seq<Order>, since: int, k: Key)
    ensures BucketOf(orders, since, k).currency == FirstCurrency(orders, since, k)
  {
  }

  /** The order counts towards the row of the key. */
  ghost predicate Counts(orders: seq<Order>, since: int, k: Key, i: int) {
    0 <= i < |orders| && Selected(orders[i], since) && KeyOf(orders[i]) == k
  }

  /** The currency is that of the first order that counts. */
  lemma {:induction false} FirstCounts(orders: seq<Order>, since: int, k: Key) returns (first: int)
    requires k in KeysOf(orders, From(Orders, since))
    ensures Counts(orders, since, k, first) && orders[first].currency == FirstCurrency(orders, since, k)
    ensures forall i | Counts(orders, since, k, i) :: first <= i
  {
    hide From;
    var n := |orders| - 1;
    KeyStep(orders, n, since, k);
    assert orders[..n + 1] == orders;
    if k in KeysOf(orders[..n], From(Orders, since)) {
      first := FirstCounts(orders[..n], since, k);
      assert forall i | Counts(orders, since, k, i) && i < n :: Counts(orders[..n], since, k, i);
    } else {
      first := n;
      forall i | Counts(orders, since, k, i) ensures n <= i {
        NoneCounts(orders[..n], since, k, i);
      }
    }
  }

  lemma NoneCounts(orders: seq<Order>, since: int, k: Key, i: int)
    requires k !in KeysOf(orders, From(Orders, since))
    ensures !Counts(orders, since, k, i)
  {
  }

  /** A row's currency is that of every order it adds up if and only if those share one. */
  lemma CurrencyIff(orders: seq<Order>, since: int, k: Key)
    requires k in BucketsOf(orders, since)
    ensures (forall i | Counts(orders, since, k, i) :: orders[i].currency == BucketsOf(orders, since)[k].currency)
       <==> (forall i, j | Counts(orders, since, k, i) && Counts(orders, since, k, j) :: orders[i].currency == orders[j].currency)
  {
    var first := FirstCounts(orders, since, k);
    CurrencyOf(orders, since, k);
    hide BucketOf, FirstCurrency, KeysOf, From, Counts;
  }

  /** Two orders of one day in different currencies: the row adds them up as if they were of the first. */
  lemma CurrenciesMix(day: int) returns (orders: seq<Order>, k: Key)
    ensures |orders| == 2 && orders[0].currency == "EUR" && orders[0].gross == 100 && orders[1].currency == "USD" && orders[1].gross == 50
    ensures k in BucketsOf(orders, Midnight(day))
    ensures BucketsOf(orders, Midnight(day))[k].gross == 150 && BucketsOf(orders, Midnight(day))[k].currency == "EUR"
  {
    var since := Midnight(day);
    orders, k := [Order(0, true, since, false, "EUR", 100, 0, 0, 0, 0), Order(0, true, since, false, "USD", 50, 0, 0, 0, 0)], Key(0, DayOf(since));
    TwoOrders(orders, since, k, true);
    assert Counts(orders, since, k, 0);
    var first := FirstCounts(orders, since, k);
    CurrencyOf(orders, since, k);
    hide BucketOf, FirstCurrency, KeysOf, From;
  }

  ghost predicate RerunKeeps(table: map<Key, Metric>, orders: seq<Order>, since: int, later: int) {
    var once := Upserted(table, BucketsOf(orders, since));
    Upserted(once, BucketsOf(orders, later)) == once
  }

  /** A rerun on the same orders whose range begins later changes no row if and only if the range left
      behind no order of a store and day that it still covers. */
  lemma RerunIff(table: map<Key, Metric>, orders: seq<Order>, since: int, later: int)
    requires since <= later
    ensures RerunKeeps(table, orders, since, later) <==>
              forall k | k in BucketsOf(orders, later) :: !Dropped(orders, since, later, k)
  {
    var first, second := BucketsOf(orders, since), BucketsOf(orders, later);
    var once := Upserted(table, first);
    forall k | k in second
      ensures k in first && k in once && (Upserted(once, second)[k] == once[k] <==> !Dropped(orders, since, later, k))
    {
      LaterBucket(orders, since, later, k);
      hide Dropped, BucketOf, KeysOf;
    }
    hide BucketsOf, Dropped, MetricOf;
    if RerunKeeps(table, orders, since, later) {
      assert forall k | k in second :: Upserted(once, second)[k] == once[k];
    }
  }

  /** A run whose range begins at `later`, after one that began before it, keeps every row of every
      table, whatever the orders, if and only if `later` is the same moment or a midnight. */
  lemma RerunsKeepIff(since: int, later: int)
    requires since <= later
    ensures (forall table, orders :: RerunKeeps(table, orders, since, later)) <==>
              since == later || later == Midnight(DayOf(later))
  {
    hide RerunKeeps;
    if since == later || later == Midnight(DayOf(later)) {
      forall table, orders ensures RerunKeeps(table, orders, since, later) {
        forall k | k in BucketsOf(orders, later) ensures !Dropped(orders, since, later, k) {
          if later == Midnight(DayOf(later)) {
            MidnightNeverCuts(orders, later, k);
          }
        }
        RerunIff(table, orders, since, later);
      }
    } else {
      var orders, k := RerunShrinks(map[], since, later);
    }
  }

  /** One order in the last moment before `later`, one at it: the first run's row counts both, and the
      rerun overwrites it with the second order alone. */
  lemma RerunShrinks(table: map<Key, Metric>, since: int, later: int) returns (orders: seq<Order>, k: Key)
    requires since < later && later != Midnight(DayOf(later))
    ensures !RerunKeeps(table, orders, since, later)
    ensures var once := Upserted(table, BucketsOf(orders, since));
            && k in once && once[k].orders == 2 && once[k].gross == 3
            && Upserted(once, BucketsOf(orders, later))[k].orders == 1 && Upserted(once, BucketsOf(orders, later))[k].gross == 2
  {
    var early := Order(0, true, later - 1, false, "EUR", 1, 0, 0, 0, 0);
    var late := Order(0, true, later, false, "EUR", 2, 0, 0, 0, 0);
    orders, k := [early, late], KeyOf(late);
    assert DayOf(later - 1) == DayOf(later);
    var one := orders[..1];
    assert orders[..2] == orders && orders[..0] == [] && one[..1] == one && one[..0] == [];
    TwoOrders(orders, since, k, true);
    TwoOrders(orders, later, k, false);
    hide BucketOf, KeysOf;
  }

  lemma TwoOrders(orders: seq<Order>, since: int, k: Key, both: bool)
    requires |orders| == 2 && Live(orders[0]) && Live(orders[1]) && KeyOf(orders[0]) == k && KeyOf(orders[1]) == k
    requires orders[1].at >= since && both == (orders[0].at >= since)
    ensures k in BucketsOf(orders, since)
    ensures BucketsOf(orders, since)[k].orders == if both then 2 else 1
    ensures BucketsOf(orders, since)[k].gross == orders[1].gross + if both then orders[0].gross else 0
  {
    assert orders[..2] == orders && orders[..0] == [];
    KeyStep(orders, 0, since, k);
    KeyStep(orders, 1, since, k);
    PartStep(orders, 0, since, k, Orders);
    PartStep(orders, 1, since, k, Orders);
    PartStep(orders, 0, since, k, Gross);
    PartStep(orders, 1, since, k, Gross);
    hide KeysOf, From;
  }

  // ---- The day on which the range begins ----------------------------------------------------------

  lemma {:induction false} FromAndBefore(orders: seq<Order>, since: int, k: Key, p: Part)
    ensures GroupTotal(orders, Whole(p), k) == GroupTotal(orders, From(p, since), k) + GroupTotal(orders, Before(p, since), k)
  {
    if orders != [] {
      FromAndBefore(orders[..|orders| - 1], since, k, p);
    }
  }

  /** Some order of the store and day was processed before the range begins. */
  ghost predicate CutOff(orders: seq<Order>, since: int, k: Key) {
    exists i :: 0 <= i < |orders| && Live(orders[i]) && orders[i].at < since && KeyOf(orders[i]) == k
  }

  lemma {:induction false} CutOffCounts(orders: seq<Order>, since: int, k: Key)
    ensures GroupTotal(orders, Before(Orders, since), k) >= 0
    ensures GroupTotal(orders, Before(Orders, since), k) > 0 <==> CutOff(orders, since, k)
    ensures !CutOff(orders, since, k) ==> forall p :: GroupTotal(orders, Before(p, since), k) == 0
  {
    if orders != [] {
      var n := |orders| - 1;
      var before, o := orders[..n], orders[n];
      CutOffCounts(before, since, k);
      assert orders[..n + 1] == orders;
      forall p ensures GroupTotal(orders, Before(p, since), k) == GroupTotal(before, Before(p, since), k) + AmountFor(Before(p, since)(o), k) {
        Step(orders, n, Before(p, since));
      }
      assert CutOff(orders, since, k) <==> CutOff(before, since, k) || (Live(o) && o.at < since && KeyOf(o) == k) by {
        assert forall i | 0 <= i < n :: before[i] == orders[i];
      }
      hide GroupTotal, CutOff;
    }
  }

  /** A row that the rollup writes holds the sums of its whole day if and only if no order of that
      store and day lies before the range: the range begins at a moment, not at a midnight. */
  lemma {:induction false} WholeDayIff(orders: seq<Order>, since: int, k: Key)
    requires k in BucketsOf(orders, since)
    ensures (forall p :: Field(BucketsOf(orders, since)[k], p) == GroupTotal(orders, Whole(p), k)) <==> !CutOff(orders, since, k)
  {
    CutOffCounts(orders, since, k);
    forall p ensures Field(BucketsOf(orders, since)[k], p) + GroupTotal(orders, Before(p, since), k) == GroupTotal(orders, Whole(p), k) {
      FieldIs(orders, since, k, p);
      FromAndBefore(orders, since, k, p);
    }
    hide BucketsOf, CutOff, GroupTotal;
    if forall p :: Field(BucketsOf(orders, since)[k], p) == GroupTotal(orders, Whole(p), k) {
      assert Field(BucketsOf(orders, since)[k], Orders) == GroupTotal(orders, Whole(Orders), k);
    }
  }

  lemma MidnightNeverCuts(orders: seq<Order>, since: int, k: Key)
    requires since == Midnight(DayOf(since)) && k in BucketsOf(orders, since)
    ensures !CutOff(orders, since, k)
  {
    var i :| 0 <= i < |orders| && From(Orders, since)(orders[i]).Share? && KeyOf(orders[i]) == k;
    assert Midnight(k.day) >= since;
  }

  /** Every row is a whole day's, whatever the orders, if and only if the range begins at midnight. */
  lemma AllWholeIffMidnight(since: int)
    ensures since == Midnight(DayOf(since)) <==>
              forall orders, k | k in BucketsOf(orders, since) :: !CutOff(orders, since, k)
  {
    if since == Midnight(DayOf(since)) {
      forall orders, k | k in BucketsOf(orders, since) ensures !CutOff(orders, since, k) {
        MidnightNeverCuts(orders, since, k);
      }
    } else {
      var early := Order(0, true, since - 1, false, "EUR", 1, 0, 0, 0, 0);
      var orders, k := [early, early.(at := since)], KeyOf(early);
      assert DayOf(since - 1) == DayOf(since);
      assert From(Orders, since)(orders[1]) == Share(k, 1);
      assert k in BucketsOf(orders, since) && Live(orders[0]) && CutOff(orders, since, k);
    }
  }

  // ---- The thirty-day figures -----------------------------------------------------------------------

  predicate Recent(k: Key, last30: int) { Midnight(k.day) >= last30 }

  function RecentKeys(buckets: map<Key, Bucket>, last30: int): set<Key> {
    set k | k in buckets && Recent(k, last30)
  }

  /** Only days that begin within the last thirty days count, so the oldest partial day does not. */
  function RecentFrom(p: Part, since: int, last30: int): Order -> Share<Key> {
    (o: Order) => if Selected(o, since) && Recent(KeyOf(o), last30) then Share(KeyOf(o), AmountOf(p, o)) else Nothing
  }

  method Kpi(buckets: map<Key, Bucket>, last30: int)
    returns (revenue: int, ordersCount: int, refunds: int, avgOrderValue: real, refundRate: real)
    ensures revenue == SumOver(RecentKeys(buckets, last30), FieldOver(buckets, Gross))
    ensures ordersCount == SumOver(RecentKeys(buckets, last30), FieldOver(buckets, Orders))
    ensures refunds == SumOver(RecentKeys(buckets, last30), FieldOver(buckets, Refund))
    ensures if ordersCount == 0 then avgOrderValue == 0.0 else avgOrderValue * ordersCount as real == revenue as real
    ensures if revenue == 0 then refundRate == 0.0 else refundRate * revenue as real == refunds as real
  {
    revenue, ordersCount, refunds := 0, 0, 0;
    var rest := RecentKeys(buckets, last30);
    while rest != {}
      invariant rest <= RecentKeys(buckets, last30)
      invariant revenue + SumOver(rest, FieldOver(buckets, Gross)) == SumOver(RecentKeys(buckets, last30), FieldOver(buckets, Gross))
      invariant ordersCount + SumOver(rest, FieldOver(buckets, Orders)) == SumOver(RecentKeys(buckets, last30), FieldOver(buckets, Orders))
      invariant refunds + SumOver(rest, FieldOver(buckets, Refund)) == SumOver(RecentKeys(buckets, last30), FieldOver(buckets, Refund))
    {
      var k :| k in rest;
      SumPick(rest, FieldOver(buckets, Gross), k);
      SumPick(rest, FieldOver(buckets, Orders), k);
      SumPick(rest, FieldOver(buckets, Refund), k);
      var b := buckets[k];
      revenue, ordersCount, refunds := revenue + b.gross, ordersCount + b.orders, refunds + b.refund;
      rest := rest - {k};
    }
    avgOrderValue := Ratio(revenue, ordersCount);
    refundRate := Ratio(refunds, revenue);
  }

  /** A quotient, and zero where there is nothing to divide by. */
  function Ratio(a: int, b: int): (q: real)
    ensures if b == 0 then q == 0.0 else q * b as real == a as real
  {
    if b == 0 then 0.0 else a as real / b as real
  }

  /** The orders of the days that begin within the thirty days: the figures are sums over them. */
  function RecentOrders(orders: seq<Order>, since: int, last30: int): set<int> {
    set i | 0 <= i < |orders| && orders[i].processed && !orders[i].deleted && since <= orders[i].at
            && last30 <= orders[i].at / 86_400_000 * 86_400_000
  }

  lemma KpiMeaning(orders: seq<Order>, since: int, last30: int)
    ensures var (keys, buckets, places) := (RecentKeys(BucketsOf(orders, since), last30), BucketsOf(orders, since), RecentOrders(orders, since, last30));
            && SumOver(keys, FieldOver(buckets, Gross)) == SumOver(places, Figure(orders, (o: Order) => o.gross))
            && SumOver(keys, FieldOver(buckets, Refund)) == SumOver(places, Figure(orders, (o: Order) => o.refund))
            && SumOver(keys, FieldOver(buckets, Orders)) == |places|
  {
    var places := RecentOrders(orders, since, last30);
    KpiPart(orders, since, last30, Gross, (o: Order) => o.gross);
    KpiPart(orders, since, last30, Refund, (o: Order) => o.refund);
    KpiPart(orders, since, last30, Orders, (o: Order) => 1);
    SumOfOnes(places, Figure(orders, (o: Order) => 1));
    hide RecentKeys, BucketsOf, FieldOver, SumOver;
  }

  lemma KpiPart(orders: seq<Order>, since: int, last30: int, p: Part, v: Order -> int)
    requires forall o :: AmountOf(p, o) == v(o)
    ensures SumOver(RecentKeys(BucketsOf(orders, since), last30), FieldOver(BucketsOf(orders, since), p))
         == SumOver(RecentOrders(orders, since, last30), Figure(orders, v))
  {
    KpiConserves(orders, since, last30, p);
    TotalIsSum(orders, RecentFrom(p, since, last30), RecentOrders(orders, since, last30), Figure(orders, v));
    hide RecentKeys, BucketsOf, FieldOver, SumOver;
  }

  lemma {:induction false} RecentGroups(orders: seq<Order>, since: int, last30: int, p: Part, k: Key)
    requires Recent(k, last30)
    ensures GroupTotal(orders, RecentFrom(p, since, last30), k) == GroupTotal(orders, From(p, since), k)
  {
    if orders != [] {
      RecentGroups(orders[..|orders| - 1], since, last30, p, k);
    }
  }

  /** A thirty-day figure is the direct sum over the selected orders of the days that count. */
  lemma {:induction false} KpiConserves(orders: seq<Order>, since: int, last30: int, p: Part)
    ensures SumOver(RecentKeys(BucketsOf(orders, since), last30), FieldOver(BucketsOf(orders, since), p))
         == Total(orders, RecentFrom(p, since, last30))
  {
    var buckets := BucketsOf(orders, since);
    var keys := RecentKeys(buckets, last30);
    forall k | k in keys ensures FieldOver(buckets, p)(k) == GroupTotal(orders, RecentFrom(p, since, last30), k) {
      FieldIs(orders, since, k, p);
      RecentGroups(orders, since, last30, p, k);
    }
    RecentCovered(orders, since, last30, p);
    Partition(orders, RecentFrom(p, since, last30), keys, FieldOver(buckets, p));
  }

  lemma RecentCovered(orders: seq<Order>, since: int, last30: int, p: Part)
    ensures KeysOf(orders, RecentFrom(p, since, last30)) <= RecentKeys(BucketsOf(orders, since), last30)
  {
    forall i | 0 <= i < |orders| && RecentFrom(p, since, last30)(orders[i]).Share?
      ensures KeyOf(orders[i]) in RecentKeys(BucketsOf(orders, since), last30)
    {
      assert From(Orders, since)(orders[i]) == Share(KeyOf(orders[i]), 1);
    }
  }
}
