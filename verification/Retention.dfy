/** New and recurring sales, churn and the daily series, from the order history. Amounts are in
    cents, times in milliseconds, and days have a fixed length. */
module Retention {
  import opened Sums

  type Id = nat

  function Days(n: int): int { n * 86_400_000 }

  /** One row of the history; the query lists rows by time. */
  datatype Order = Order(customer: Id, date: int, subtotal: int, discount: int, refund: int)

  datatype Enriched = Enriched(customer: Id, date: int, net: int, rank: nat)

  function Net(o: Order): int { o.subtotal - o.discount - o.refund }

  function DayOf(date: int): int { date / 86_400_000 }

  ghost predicate ByTime(orders: seq<Order>) {
    forall i, j | 0 <= i < j < |orders| :: orders[i].date <= orders[j].date
  }

  // ---- Numbering ---------------------------------------------------------------------------------

  /** How many of the orders are the customer's. */
  function OrdersBy(orders: seq<Order>, c: Id): nat {
    if orders == [] then 0 else OrdersBy(orders[..|orders| - 1], c) + if orders[|orders| - 1].customer == c then 1 else 0
  }

  function Buyers(orders: seq<Order>): set<Id> {
    set i | 0 <= i < |orders| :: orders[i].customer
  }

  /** Each order with its rank in its customer's history. */
  function EnrichedAt(orders: seq<Order>, i: nat): Enriched
    requires i < |orders|
  {
    Enriched(orders[i].customer, orders[i].date, Net(orders[i]), OrdersBy(orders[..i + 1], orders[i].customer))
  }

  ghost predicate Numbered(orders: seq<Order>, e: seq<Enriched>) {
    |e| == |orders| && forall i | 0 <= i < |e| :: e[i] == EnrichedAt(orders, i)
  }

  /** The date of one of the customer's orders, and none of them is later. */
  ghost predicate IsLast(orders: seq<Order>, c: Id, date: int) {
    && (exists i :: 0 <= i < |orders| && orders[i].customer == c && orders[i].date == date)
    && (forall i | 0 <= i < |orders| && orders[i].customer == c :: orders[i].date <= date)
  }

  ghost predicate Lasts(orders: seq<Order>, counts: map<Id, nat>, lasts: map<Id, int>) {
    && counts.Keys == lasts.Keys == Buyers(orders)
    && (forall c | c in counts :: counts[c] == OrdersBy(orders, c) && counts[c] > 0 && IsLast(orders, c, lasts[c]))
  }

  /** The results of the loop once the first `n` orders are numbered. */
  ghost predicate Progress(orders: seq<Order>, n: nat, e: seq<Enriched>, counts: map<Id, nat>, lasts: map<Id, int>)
    requires n <= |orders|
  {
    Lasts(orders[..n], counts, lasts) && |e| == n && forall i | 0 <= i < n :: e[i] == EnrichedAt(orders, i)
  }

  method Enrich(orders: seq<Order>) returns (e: seq<Enriched>, counts: map<Id, nat>, lasts: map<Id, int>)
    ensures Numbered(orders, e) && Lasts(orders, counts, lasts)
  {
    NobodyYet(orders);
    hide Progress;
    e, counts, lasts := [], map[], map[];
    for n := 0 to |orders|
      invariant Progress(orders, n, e, counts, lasts)
    {
      EnrichStep(orders, n, e, counts, lasts);
      var o := orders[n];
      var rank := (if o.customer in counts then counts[o.customer] else 0) + 1;
      counts := counts[o.customer := rank];
      if o.customer !in lasts || o.date > lasts[o.customer] {
        lasts := lasts[o.customer := o.date];
      }
      e := e + [Enriched(o.customer, o.date, o.subtotal - o.discount - o.refund, rank)];
    }
    AllNumbered(orders, e, counts, lasts);
  }

  lemma NobodyYet(orders: seq<Order>)
    ensures Progress(orders, 0, [], map[], map[])
  {
  }

  lemma AllNumbered(orders: seq<Order>, e: seq<Enriched>, counts: map<Id, nat>, lasts: map<Id, int>)
    requires Progress(orders, |orders|, e, counts, lasts)
    ensures Numbered(orders, e) && Lasts(orders, counts, lasts)
  {
    hide Lasts, EnrichedAt;
    assert orders[..|orders|] == orders;
  }

  lemma EnrichStep(orders: seq<Order>, n: nat, e: seq<Enriched>, counts: map<Id, nat>, lasts: map<Id, int>)
    requires n < |orders| && Progress(orders, n, e, counts, lasts)
    ensures counts.Keys == lasts.Keys
    ensures var o := orders[n];
            var rank := (if o.customer in counts then counts[o.customer] else 0) + 1;
            Progress(orders, n + 1, e + [Enriched(o.customer, o.date, o.subtotal - o.discount - o.refund, rank)],
                     counts[o.customer := rank],
                     if o.customer !in lasts || o.date > lasts[o.customer] then lasts[o.customer := o.date] else lasts)
  {
    RankIs(orders, n, counts, lasts);
    hide Lasts, EnrichedAt;
    var o := orders[n];
    LastsStep(orders, n, counts, lasts, counts[o.customer := (if o.customer in counts then counts[o.customer] else 0) + 1],
              if o.customer !in lasts || o.date > lasts[o.customer] then lasts[o.customer := o.date] else lasts);
  }

  lemma {:induction false} NoOrders(orders: seq<Order>, c: Id)
    ensures c in Buyers(orders) <==> OrdersBy(orders, c) > 0
  {
    if orders != [] {
      var before := orders[..|orders| - 1];
      NoOrders(before, c);
      assert Buyers(orders) == Buyers(before) + {orders[|orders| - 1].customer};
    }
  }

  lemma CountStep(orders: seq<Order>, n: nat)
    requires n < |orders|
    ensures forall c :: OrdersBy(orders[..n + 1], c) == OrdersBy(orders[..n], c) + if orders[n].customer == c then 1 else 0
    ensures Buyers(orders[..n + 1]) == Buyers(orders[..n]) + {orders[n].customer}
  {
    assert orders[..n + 1][..n] == orders[..n];
  }

  lemma RankIs(orders: seq<Order>, n: nat, counts: map<Id, nat>, lasts: map<Id, int>)
    requires n < |orders| && Lasts(orders[..n], counts, lasts)
    ensures var (o, c) := (orders[n], orders[n].customer);
            EnrichedAt(orders, n) == Enriched(c, o.date, o.subtotal - o.discount - o.refund, (if c in counts then counts[c] else 0) + 1)
    ensures counts.Keys == lasts.Keys
  {
    CountStep(orders, n);
    NoOrders(orders[..n], orders[n].customer);
  }

  lemma LastsStep(orders: seq<Order>, n: nat, counts: map<Id, nat>, lasts: map<Id, int>, counts': map<Id, nat>, lasts': map<Id, int>)
    requires n < |orders| && Lasts(orders[..n], counts, lasts)
    requires var (c, date) := (orders[n].customer, orders[n].date);
             && counts' == counts[c := (if c in counts then counts[c] else 0) + 1]
             && lasts' == if c !in lasts || date > lasts[c] then lasts[c := date] else lasts
    ensures Lasts(orders[..n + 1], counts', lasts')
  {
    hide IsLast, OrdersBy, Buyers;
    CountStep(orders, n);
    NoOrders(orders[..n], orders[n].customer);
    forall c | c in counts' ensures IsLast(orders[..n + 1], c, lasts'[c]) {
      LastStep(orders, n, c, if c in lasts then lasts[c] else orders[n].date);
    }
  }

  /** One more order: another customer's changes nothing, a later one of the customer's is the last. */
  lemma LastStep(orders: seq<Order>, n: nat, c: Id, date: int)
    requires n < |orders| && c in Buyers(orders[..n + 1])
    requires if c in Buyers(orders[..n]) then IsLast(orders[..n], c, date) else date == orders[n].date
    ensures IsLast(orders[..n + 1], c, if orders[n].customer == c && orders[n].date > date then orders[n].date else date)
  {
    var was, now := orders[..n], orders[..n + 1];
    assert now[n] == orders[n] && forall i | 0 <= i < n :: now[i] == was[i];
    if c in Buyers(was) {
      var i :| 0 <= i < |was| && was[i].customer == c && was[i].date == date;
      assert now[i].customer == c && now[i].date == date;
    } else {
      assert forall i | 0 <= i < n :: was[i].customer in Buyers(was);
    }
  }

  /** Ranks of one customer rise, so exactly one order of a buyer has rank one: the first listed,
      which is the earliest. */
  lemma {:induction false} RanksRise(orders: seq<Order>, i: nat, j: nat)
    requires i < j < |orders| && orders[i].customer == orders[j].customer
    ensures EnrichedAt(orders, i).rank < EnrichedAt(orders, j).rank
    decreases j
  {
    CountStep(orders, j);
    Monotone(orders, i + 1, j, orders[i].customer);
  }

  lemma {:induction false} Monotone(orders: seq<Order>, i: nat, j: nat, c: Id)
    requires i <= j <= |orders|
    ensures OrdersBy(orders[..i], c) <= OrdersBy(orders[..j], c)
    decreases j - i
  {
    if i < j {
      CountStep(orders, i);
      Monotone(orders, i + 1, j, c);
    }
  }

  lemma FirstIff(orders: seq<Order>, i: nat)
    requires i < |orders|
    ensures EnrichedAt(orders, i).rank >= 1
    ensures EnrichedAt(orders, i).rank == 1 <==> forall j | 0 <= j < i :: orders[j].customer != orders[i].customer
    ensures ByTime(orders) && EnrichedAt(orders, i).rank == 1 ==>
              forall j | 0 <= j < |orders| && orders[j].customer == orders[i].customer :: orders[i].date <= orders[j].date
  {
    CountStep(orders, i);
    NoOrders(orders[..i], orders[i].customer);
    assert forall j | 0 <= j < i :: orders[..i][j] == orders[j] && orders[j].customer in Buyers(orders[..i]);
  }

  // ---- One window ----------------------------------------------------------------------------------

  predicate Within(x: Enriched, from: int, to: int) { from <= x.date < to }

  /** What one order adds to the new sales, the recurring sales and the orders of a window, by day. */
  function NewSale(from: int, to: int): Enriched -> Share<int> {
    (x: Enriched) => if Within(x, from, to) && x.rank == 1 then Share(DayOf(x.date), x.net) else Nothing
  }

  function RecurringSale(from: int, to: int): Enriched -> Share<int> {
    (x: Enriched) => if Within(x, from, to) && x.rank != 1 then Share(DayOf(x.date), x.net) else Nothing
  }

  function Sale(from: int, to: int): Enriched -> Share<int> {
    (x: Enriched) => if Within(x, from, to) then Share(DayOf(x.date), x.net) else Nothing
  }

  function NewOrder(from: int, to: int): Enriched -> Share<int> {
    (x: Enriched) => if Within(x, from, to) && x.rank == 1 then Share(DayOf(x.date), 1) else Nothing
  }

  function RecurringOrder(from: int, to: int): Enriched -> Share<int> {
    (x: Enriched) => if Within(x, from, to) && x.rank != 1 then Share(DayOf(x.date), 1) else Nothing
  }

  function Fresh(e: seq<Enriched>, from: int, to: int): set<Id> {
    set i | 0 <= i < |e| && Within(e[i], from, to) && e[i].rank == 1 :: e[i].customer
  }

  function Active(e: seq<Enriched>, from: int, to: int): set<Id> {
    set i | 0 <= i < |e| && Within(e[i], from, to) :: e[i].customer
  }

  datatype Window = Window(totalSales: int, newSales: int, recurringSales: int, newOrders: int, recurringOrders: int,
                           activeCustomers: nat, newCustomers: nat)

  method AggWindow(e: seq<Enriched>, from: int, to: int) returns (w: Window)
    ensures w.newSales == Total(e, NewSale(from, to)) && w.recurringSales == Total(e, RecurringSale(from, to))
    ensures w.newOrders == Total(e, NewOrder(from, to)) && w.recurringOrders == Total(e, RecurringOrder(from, to))
    ensures w.activeCustomers == |Active(e, from, to)| && w.newCustomers == |Fresh(e, from, to)|
    ensures w.totalSales == Total(e, Sale(from, to))
  {
    hide Active, Fresh, NewSale, RecurringSale, NewOrder, RecurringOrder, Sale;
    assert e[..0] == [];
    NoSets(e[..0], from, to);
    var newSales, recurringSales, newOrders, recurringOrders := 0, 0, 0, 0;
    var active: set<Id>, newcomers: set<Id> := {}, {};
    for n := 0 to |e|
      invariant newSales == Total(e[..n], NewSale(from, to)) && recurringSales == Total(e[..n], RecurringSale(from, to))
      invariant newOrders == Total(e[..n], NewOrder(from, to)) && recurringOrders == Total(e[..n], RecurringOrder(from, to))
      invariant active == Active(e[..n], from, to) && newcomers == Fresh(e[..n], from, to)
    {
      WindowStep(e, n, from, to);
      SetsStep(e, n, from, to);
      var o := e[n];
      if from <= o.date < to {
        active := active + {o.customer};
        if o.rank == 1 {
          newSales, newOrders, newcomers := newSales + o.net, newOrders + 1, newcomers + {o.customer};
        } else {
          recurringSales, recurringOrders := recurringSales + o.net, recurringOrders + 1;
        }
      }
    }
    assert e[..|e|] == e;
    NewAndRecurring(e, from, to);
    w := Window(newSales + recurringSales, newSales, recurringSales, newOrders, recurringOrders, |active|, |newcomers|);
  }

  lemma WindowStep(e: seq<Enriched>, n: nat, from: int, to: int)
    requires n < |e|
    ensures Total(e[..n + 1], NewSale(from, to))
         == Total(e[..n], NewSale(from, to)) + if Within(e[n], from, to) && e[n].rank == 1 then e[n].net else 0
    ensures Total(e[..n + 1], RecurringSale(from, to))
         == Total(e[..n], RecurringSale(from, to)) + if Within(e[n], from, to) && e[n].rank != 1 then e[n].net else 0
    ensures Total(e[..n + 1], NewOrder(from, to))
         == Total(e[..n], NewOrder(from, to)) + if Within(e[n], from, to) && e[n].rank == 1 then 1 else 0
    ensures Total(e[..n + 1], RecurringOrder(from, to))
         == Total(e[..n], RecurringOrder(from, to)) + if Within(e[n], from, to) && e[n].rank != 1 then 1 else 0
  {
    hide Total;
    Step(e, n, NewSale(from, to));
    Step(e, n, RecurringSale(from, to));
    Step(e, n, NewOrder(from, to));
    Step(e, n, RecurringOrder(from, to));
  }

  /** What a window sells is sold to new customers or to returning ones. */
  lemma {:induction false} NewAndRecurring(e: seq<Enriched>, from: int, to: int)
    ensures Total(e, Sale(from, to)) == Total(e, NewSale(from, to)) + Total(e, RecurringSale(from, to))
  {
    TotalsAdd(e, NewSale(from, to), RecurringSale(from, to), Sale(from, to));
  }

  lemma NoSets(e: seq<Enriched>, from: int, to: int)
    requires e == []
    ensures Active(e, from, to) == {} && Fresh(e, from, to) == {}
  {
  }

  lemma SetsStep(e: seq<Enriched>, n: nat, from: int, to: int)
    requires n < |e|
    ensures Active(e[..n + 1], from, to) == Active(e[..n], from, to) + if Within(e[n], from, to) then {e[n].customer} else {}
    ensures Fresh(e[..n + 1], from, to)
         == Fresh(e[..n], from, to) + if Within(e[n], from, to) && e[n].rank == 1 then {e[n].customer} else {}
  {
    var t := e[..n + 1];
    assert t[n] == e[n] && forall i | 0 <= i < n :: t[i] == e[..n][i];
  }

  /** In every window the new orders are as many as the new customers. */
  lemma {:induction false} NewOrdersAreCustomers(orders: seq<Order>, e: seq<Enriched>, n: nat, from: int, to: int)
    requires Numbered(orders, e) && n <= |e|
    ensures Total(e[..n], NewOrder(from, to)) == |Fresh(e[..n], from, to)|
  {
    if n == 0 {
      assert e[..0] == [];
    } else {
      hide Total, Fresh, NewOrder, Numbered;
      NewOrdersAreCustomers(orders, e, n - 1, from, to);
      NewOrderStep(orders, e, n - 1, from, to);
    }
  }

  lemma NewOrderStep(orders: seq<Order>, e: seq<Enriched>, n: nat, from: int, to: int)
    requires Numbered(orders, e) && n < |e|
    ensures Total(e[..n + 1], NewOrder(from, to)) - Total(e[..n], NewOrder(from, to))
         == |Fresh(e[..n + 1], from, to)| - |Fresh(e[..n], from, to)|
  {
    Newcomer(orders, e, n, from, to);
    hide Total, Fresh, NewOrder, RecurringOrder, NewSale, RecurringSale, Active, Numbered;
    WindowStep(e, n, from, to);
    SetsStep(e, n, from, to);
    hide Within;
  }

  lemma Newcomer(orders: seq<Order>, e: seq<Enriched>, n: nat, from: int, to: int)
    requires Numbered(orders, e) && n < |e|
    ensures e[n].rank == 1 ==> e[n].customer !in Fresh(e[..n], from, to)
  {
    FirstIff(orders, n);
    hide OrdersBy;
  }

  /** Two adjacent windows add up to the window that spans them, new customers included. Who was active
      in the whole was active in one of the two, or in both, so active customers need not add up. */
  lemma {:induction false} AdjacentWindowsAdd(orders: seq<Order>, e: seq<Enriched>, from: int, mid: int, to: int)
    requires from <= mid <= to && Numbered(orders, e)
    ensures Total(e, Sale(from, to)) == Total(e, Sale(from, mid)) + Total(e, Sale(mid, to))
    ensures Total(e, NewSale(from, to)) == Total(e, NewSale(from, mid)) + Total(e, NewSale(mid, to))
    ensures Total(e, RecurringSale(from, to)) == Total(e, RecurringSale(from, mid)) + Total(e, RecurringSale(mid, to))
    ensures Total(e, NewOrder(from, to)) == Total(e, NewOrder(from, mid)) + Total(e, NewOrder(mid, to))
    ensures Total(e, RecurringOrder(from, to)) == Total(e, RecurringOrder(from, mid)) + Total(e, RecurringOrder(mid, to))
    ensures |Fresh(e, from, to)| == |Fresh(e, from, mid)| + |Fresh(e, mid, to)|
    ensures Active(e, from, to) == Active(e, from, mid) + Active(e, mid, to)
  {
    AdjacentCustomers(orders, e, from, mid, to);
    hide Fresh, Active, Numbered, Within;
    AdjacentTotals(e, from, mid, to);
  }

  lemma AdjacentCustomers(orders: seq<Order>, e: seq<Enriched>, from: int, mid: int, to: int)
    requires from <= mid <= to && Numbered(orders, e)
    ensures |Fresh(e, from, to)| == |Fresh(e, from, mid)| + |Fresh(e, mid, to)|
    ensures Active(e, from, to) == Active(e, from, mid) + Active(e, mid, to)
  {
    assert e[..|e|] == e;
    AdjacentTotals(e, from, mid, to);
    hide Total;
    NewOrdersAreCustomers(orders, e, |e|, from, to);
    NewOrdersAreCustomers(orders, e, |e|, from, mid);
    NewOrdersAreCustomers(orders, e, |e|, mid, to);
    hide Numbered, Fresh;
  }

  lemma {:induction false} AdjacentTotals(e: seq<Enriched>, from: int, mid: int, to: int)
    requires from <= mid <= to
    ensures Total(e, Sale(from, to)) == Total(e, Sale(from, mid)) + Total(e, Sale(mid, to))
    ensures Total(e, NewSale(from, to)) == Total(e, NewSale(from, mid)) + Total(e, NewSale(mid, to))
    ensures Total(e, RecurringSale(from, to)) == Total(e, RecurringSale(from, mid)) + Total(e, RecurringSale(mid, to))
    ensures Total(e, NewOrder(from, to)) == Total(e, NewOrder(from, mid)) + Total(e, NewOrder(mid, to))
    ensures Total(e, RecurringOrder(from, to)) == Total(e, RecurringOrder(from, mid)) + Total(e, RecurringOrder(mid, to))
  {
    TotalsAdd(e, Sale(from, mid), Sale(mid, to), Sale(from, to));
    TotalsAdd(e, NewSale(from, mid), NewSale(mid, to), NewSale(from, to));
    TotalsAdd(e, RecurringSale(from, mid), RecurringSale(mid, to), RecurringSale(from, to));
    TotalsAdd(e, NewOrder(from, mid), NewOrder(mid, to), NewOrder(from, to));
    TotalsAdd(e, RecurringOrder(from, mid), RecurringOrder(mid, to), RecurringOrder(from, to));
  }

  // ---- The daily series --------------------------------------------------------------------------

  datatype Day = Day(newSales: int, recurringSales: int)

  method Daily(e: seq<Enriched>, start: int, end: int) returns (days: map<int, Day>)
    ensures days.Keys == KeysOf(e, Sale(start, end))
    ensures forall d | d in days ::
              days[d] == Day(GroupTotal(e, NewSale(start, end), d), GroupTotal(e, RecurringSale(start, end), d))
  {
    hide NewSale, RecurringSale, Sale;
    assert e[..0] == [];
    days := map[];
    for n := 0 to |e|
      invariant days.Keys == KeysOf(e[..n], Sale(start, end))
      invariant forall d | d in days ::
        days[d] == Day(GroupTotal(e[..n], NewSale(start, end), d), GroupTotal(e[..n], RecurringSale(start, end), d))
    {
      DailyStep(e, n, start, end);
      var o := e[n];
      if start <= o.date < end {
        var key := DayOf(o.date);
        if key !in days {
          NoSales(e[..n], start, end, key);
        }
        var b := if key in days then days[key] else Day(0, 0);
        days := days[key := if o.rank == 1 then b.(newSales := b.newSales + o.net) else b.(recurringSales := b.recurringSales + o.net)];
      }
    }
    assert e[..|e|] == e;
  }

  lemma DailyStep(e: seq<Enriched>, n: nat, from: int, to: int)
    requires n < |e|
    ensures KeysOf(e[..n + 1], Sale(from, to))
         == KeysOf(e[..n], Sale(from, to)) + if Within(e[n], from, to) then {DayOf(e[n].date)} else {}
    ensures forall d :: GroupTotal(e[..n + 1], NewSale(from, to), d) == GroupTotal(e[..n], NewSale(from, to), d)
              + if Within(e[n], from, to) && e[n].rank == 1 && DayOf(e[n].date) == d then e[n].net else 0
    ensures forall d :: GroupTotal(e[..n + 1], RecurringSale(from, to), d) == GroupTotal(e[..n], RecurringSale(from, to), d)
              + if Within(e[n], from, to) && e[n].rank != 1 && DayOf(e[n].date) == d then e[n].net else 0
  {
    hide GroupTotal, KeysOf, DayOf;
    Step(e, n, NewSale(from, to));
    Step(e, n, RecurringSale(from, to));
    Step(e, n, Sale(from, to));
  }

  lemma {:induction false} NoSales(e: seq<Enriched>, from: int, to: int, d: int)
    requires d !in KeysOf(e, Sale(from, to))
    ensures GroupTotal(e, NewSale(from, to), d) == 0 && GroupTotal(e, RecurringSale(from, to), d) == 0
  {
    if e != [] {
      var before := e[..|e| - 1];
      assert e[..|e|] == e;
      Step(e, |e| - 1, Sale(from, to));
      NoSales(before, from, to, d);
    }
  }

  /** The daily series sums to the totals of its window. */
  lemma {:induction false} DailySums(e: seq<Enriched>, start: int, end: int, days: map<int, Day>)
    requires days.Keys == KeysOf(e, Sale(start, end))
    requires forall d | d in days ::
               days[d] == Day(GroupTotal(e, NewSale(start, end), d), GroupTotal(e, RecurringSale(start, end), d))
    ensures SumOver(days.Keys, (d: int) => if d in days then days[d].newSales else 0) == Total(e, NewSale(start, end))
    ensures SumOver(days.Keys, (d: int) => if d in days then days[d].recurringSales else 0) == Total(e, RecurringSale(start, end))
  {
    assert KeysOf(e, NewSale(start, end)) <= KeysOf(e, Sale(start, end));
    assert KeysOf(e, RecurringSale(start, end)) <= KeysOf(e, Sale(start, end));
    Partition(e, NewSale(start, end), days.Keys, (d: int) => if d in days then days[d].newSales else 0);
    Partition(e, RecurringSale(start, end), days.Keys, (d: int) => if d in days then days[d].recurringSales else 0);
  }

  // ---- What the figures mean, read off the orders ------------------------------------------------------

  /** The orders of a window: a customer's first ones, or the others. */
  function Placed(orders: seq<Order>, from: int, to: int, first: bool): set<int> {
    set i | 0 <= i < |orders| && from <= orders[i].date < to
            && first == (forall j | 0 <= j < i :: orders[j].customer != orders[i].customer)
  }

  /** What the customer paid for the items, after discounts and refunds. */
  function Paid(orders: seq<Order>): int -> int {
    (i: int) => if 0 <= i < |orders| then orders[i].subtotal - orders[i].discount - orders[i].refund else 0
  }

  lemma PlacedIff(orders: seq<Order>, e: seq<Enriched>, from: int, to: int, first: bool)
    requires Numbered(orders, e)
    ensures forall i :: i in Placed(orders, from, to, first) <==> 0 <= i < |e| && Within(e[i], from, to) && first == (e[i].rank == 1)
    ensures forall i | 0 <= i < |e| :: e[i].net == Paid(orders)(i) && e[i].date == orders[i].date && e[i].customer == orders[i].customer
  {
    forall i: nat | i < |e| ensures e[i].rank == 1 <==> forall j | 0 <= j < i :: orders[j].customer != orders[i].customer {
      FirstIff(orders, i);
    }
  }

  /** The sales of a window are what was paid in it, by first orders and by others; the orders are as
      many; the customers are those who ordered in it, and those whose first order lies in it. */
  lemma {:induction false} WindowMeaning(orders: seq<Order>, e: seq<Enriched>, from: int, to: int)
    requires Numbered(orders, e)
    ensures var (news, others) := (Placed(orders, from, to, true), Placed(orders, from, to, false));
            && Total(e, NewSale(from, to)) == SumOver(news, Paid(orders)) && Total(e, NewOrder(from, to)) == |news|
            && Total(e, RecurringSale(from, to)) == SumOver(others, Paid(orders)) && Total(e, RecurringOrder(from, to)) == |others|
            && Fresh(e, from, to) == (set i | i in news :: orders[i].customer)
            && Active(e, from, to) == (set i | i in news + others :: orders[i].customer)
  {
    hide Placed, Numbered, Paid, Total, SumOver, NewSale, RecurringSale, NewOrder, RecurringOrder, Fresh, Active;
    SalesMeaning(orders, e, from, to);
    OrdersMeaning(orders, e, from, to);
    CustomersMeaning(orders, e, from, to);
  }

  lemma {:induction false} SalesMeaning(orders: seq<Order>, e: seq<Enriched>, from: int, to: int)
    requires Numbered(orders, e)
    ensures Total(e, NewSale(from, to)) == SumOver(Placed(orders, from, to, true), Paid(orders))
    ensures Total(e, RecurringSale(from, to)) == SumOver(Placed(orders, from, to, false), Paid(orders))
  {
    PlacedIff(orders, e, from, to, true);
    PlacedIff(orders, e, from, to, false);
    hide Placed, Numbered, Paid;
    TotalIsSum(e, NewSale(from, to), Placed(orders, from, to, true), Paid(orders));
    TotalIsSum(e, RecurringSale(from, to), Placed(orders, from, to, false), Paid(orders));
  }

  lemma {:induction false} OrdersMeaning(orders: seq<Order>, e: seq<Enriched>, from: int, to: int)
    requires Numbered(orders, e)
    ensures Total(e, NewOrder(from, to)) == |Placed(orders, from, to, true)|
    ensures Total(e, RecurringOrder(from, to)) == |Placed(orders, from, to, false)|
  {
    PlacedIff(orders, e, from, to, true);
    PlacedIff(orders, e, from, to, false);
    hide Placed, Numbered, Paid;
    var one := (i: int) => 1;
    TotalIsSum(e, NewOrder(from, to), Placed(orders, from, to, true), one);
    TotalIsSum(e, RecurringOrder(from, to), Placed(orders, from, to, false), one);
    SumOfOnes(Placed(orders, from, to, true), one);
    SumOfOnes(Placed(orders, from, to, false), one);
  }

  lemma CustomersMeaning(orders: seq<Order>, e: seq<Enriched>, from: int, to: int)
    requires Numbered(orders, e)
    ensures var (news, others) := (Placed(orders, from, to, true), Placed(orders, from, to, false));
            && Fresh(e, from, to) == (set i | i in news :: orders[i].customer)
            && Active(e, from, to) == (set i | i in news + others :: orders[i].customer)
  {
    var news, others := Placed(orders, from, to, true), Placed(orders, from, to, false);
    PlacedIff(orders, e, from, to, true);
    PlacedIff(orders, e, from, to, false);
    hide Placed, Numbered, Paid, Within;
    forall i | 0 <= i < |e| && Within(e[i], from, to) ensures i in news + others && orders[i].customer == e[i].customer {
    }
  }

  /** And those of a day of it are what was paid on that day. */
  lemma DayMeaning(orders: seq<Order>, e: seq<Enriched>, from: int, to: int, d: int)
    requires Numbered(orders, e)
    ensures GroupTotal(e, NewSale(from, to), d)
         == SumOver((set i | i in Placed(orders, from, to, true) && Days(d) <= orders[i].date < Days(d + 1)), Paid(orders))
    ensures GroupTotal(e, RecurringSale(from, to), d)
         == SumOver((set i | i in Placed(orders, from, to, false) && Days(d) <= orders[i].date < Days(d + 1)), Paid(orders))
  {
    var news, others := Placed(orders, from, to, true), Placed(orders, from, to, false);
    PlacedIff(orders, e, from, to, true);
    PlacedIff(orders, e, from, to, false);
    assert forall at :: DayOf(at) == d <==> Days(d) <= at < Days(d + 1) by { DayIff(d); }
    hide Placed, Numbered, Paid, DayOf, Days;
    var newsThen := set i | i in news && Days(d) <= orders[i].date < Days(d + 1);
    var othersThen := set i | i in others && Days(d) <= orders[i].date < Days(d + 1);
    GroupIsSum(e, NewSale(from, to), d, newsThen, Paid(orders));
    GroupIsSum(e, RecurringSale(from, to), d, othersThen, Paid(orders));
  }

  lemma DayIff(d: int)
    ensures forall at :: DayOf(at) == d <==> Days(d) <= at < Days(d + 1)
  {
  }

  // ---- Churn ----------------------------------------------------------------------------------------

  function Those(among: set<Id>, p: Id -> bool): set<Id> {
    set c | c in among && p(c)
  }

  lemma OneMore(among: set<Id>, p: Id -> bool, c: Id)
    requires c !in among
    ensures Those(among + {c}, p) == Those(among, p) + if p(c) then {c} else {}
    ensures |Those(among + {c}, p)| == |Those(among, p)| + if p(c) then 1 else 0
  {
    assert Those(among + {c}, p) == Those(among, p) + if p(c) then {c} else {};
  }

  function Repeats(counts: map<Id, nat>): Id -> bool {
    (c: Id) => c in counts && counts[c] > 1
  }

  /** The last order lies more than `churnDays` back. */
  function Lapsed(lasts: map<Id, int>, now: int, churnDays: int): Id -> bool {
    (c: Id) => c in lasts && lasts[c] < now - Days(churnDays)
  }

  /** It did so already when the window began, and before the window began. */
  function LapsedBefore(lasts: map<Id, int>, start: int, churnDays: int): Id -> bool {
    (c: Id) => c in lasts && lasts[c] < start - Days(churnDays) && lasts[c] < start
  }

  /** The three results once the customers of `done` are counted. */
  ghost predicate Counted(counts: map<Id, nat>, lasts: map<Id, int>, now: int, start: int, churnDays: int, done: set<Id>,
                          repeatCustomers: int, churned: set<Id>, prevChurned: int) {
    && repeatCustomers == |Those(done, Repeats(counts))|
    && churned == Those(done, Lapsed(lasts, now, churnDays))
    && prevChurned == |Those(done, LapsedBefore(lasts, start, churnDays))|
  }

  method CountChurn(counts: map<Id, nat>, lasts: map<Id, int>, now: int, days: int, churnDays: int)
    returns (repeatCustomers: int, churned: set<Id>, prevChurned: int)
    requires counts.Keys == lasts.Keys
    ensures Counted(counts, lasts, now, now - Days(days), churnDays, counts.Keys, repeatCustomers, churned, prevChurned)
  {
    hide Counted, Days;
    repeatCustomers, churned, prevChurned := 0, {}, 0;
    var start := now - Days(days);
    var churnCutoff, prevCutoff := now - Days(churnDays), start - Days(churnDays);
    var rest := counts.Keys;
    ghost var done := {};
    NoneCounted(counts, lasts, now, start, churnDays);
    while rest != {}
      invariant rest <= counts.Keys && done == counts.Keys - rest
      invariant Counted(counts, lasts, now, start, churnDays, done, repeatCustomers, churned, prevChurned)
    {
      var c :| c in rest;
      ChurnStep(counts, lasts, now, start, churnDays, done, repeatCustomers, churned, prevChurned, c);
      repeatCustomers := repeatCustomers + if counts[c] > 1 then 1 else 0;
      churned := churned + if lasts[c] < churnCutoff then {c} else {};
      prevChurned := prevChurned + if lasts[c] < prevCutoff && lasts[c] < start then 1 else 0;
      rest, done := rest - {c}, done + {c};
    }
    assert done == counts.Keys;
  }

  lemma ChurnStep(counts: map<Id, nat>, lasts: map<Id, int>, now: int, start: int, churnDays: int, done: set<Id>,
                  repeatCustomers: int, churned: set<Id>, prevChurned: int, c: Id)
    requires c in counts && c in lasts && c !in done
    requires Counted(counts, lasts, now, start, churnDays, done, repeatCustomers, churned, prevChurned)
    ensures Counted(counts, lasts, now, start, churnDays, done + {c},
                    repeatCustomers + (if counts[c] > 1 then 1 else 0),
                    churned + (if lasts[c] < now - Days(churnDays) then {c} else {}),
                    prevChurned + (if lasts[c] < start - Days(churnDays) && lasts[c] < start then 1 else 0))
  {
    hide Those, Days;
    OneMore(done, Repeats(counts), c);
    OneMore(done, Lapsed(lasts, now, churnDays), c);
    OneMore(done, LapsedBefore(lasts, start, churnDays), c);
  }

  lemma NoneCounted(counts: map<Id, nat>, lasts: map<Id, int>, now: int, start: int, churnDays: int)
    ensures Counted(counts, lasts, now, start, churnDays, {}, 0, {}, 0)
  {
    assert Those({}, Repeats(counts)) == Those({}, LapsedBefore(lasts, start, churnDays)) == {};
  }

  ghost predicate OrderedTwice(orders: seq<Order>, c: Id) {
    exists i, j :: 0 <= i < j < |orders| && orders[i].customer == c && orders[j].customer == c
  }

  lemma {:induction false} TwiceIff(orders: seq<Order>, c: Id)
    ensures OrdersBy(orders, c) > 1 <==> OrderedTwice(orders, c)
  {
    if orders != [] {
      var n := |orders| - 1;
      var before := orders[..n];
      TwiceIff(before, c);
      NoOrders(before, c);
      assert forall i | 0 <= i < n :: before[i] == orders[i];
      if OrdersBy(orders, c) > 1 && OrdersBy(before, c) <= 1 {
        var i :| 0 <= i < n && before[i].customer == c;
        assert orders[i].customer == c && orders[n].customer == c;
      }
      if i, j :| 0 <= i < j < |orders| && orders[i].customer == c && orders[j].customer == c {
        assert before[i].customer in Buyers(before);
        assert j < n ==> before[j].customer == c;
      }
    }
  }

  /** Repeat customers have ordered twice; churned ones last ordered more than the churn days ago. */
  lemma ChurnMeaning(orders: seq<Order>, counts: map<Id, nat>, lasts: map<Id, int>, now: int, churnDays: int, c: Id)
    requires Lasts(orders, counts, lasts)
    ensures c in Those(counts.Keys, Repeats(counts)) <==> OrderedTwice(orders, c)
    ensures c in Those(counts.Keys, Lapsed(lasts, now, churnDays)) <==>
              && (exists i :: 0 <= i < |orders| && orders[i].customer == c)
              && (forall i | 0 <= i < |orders| && orders[i].customer == c :: orders[i].date < now - churnDays * 86_400_000)
  {
    TwiceIff(orders, c);
    hide OrderedTwice, OrdersBy;
    if c in lasts {
      var last :| 0 <= last < |orders| && orders[last].customer == c && orders[last].date == lasts[c];
    }
    if i :| 0 <= i < |orders| && orders[i].customer == c {
      assert c in Buyers(orders);
    }
    NoOrders(orders, c);
  }

  /** The customer had ordered before the previous window ended, and not within the churn days before that. */
  ghost predicate LapsedAsOf(orders: seq<Order>, start: int, churnDays: int, c: Id) {
    && (exists i :: 0 <= i < |orders| && orders[i].customer == c && orders[i].date < start)
    && (forall i | 0 <= i < |orders| && orders[i].customer == c && orders[i].date < start :: orders[i].date < start - Days(churnDays))
  }

  ghost predicate OrderedSince(orders: seq<Order>, start: int, c: Id) {
    exists i :: 0 <= i < |orders| && orders[i].customer == c && orders[i].date >= start
  }

  /** What the loop counts as churned as of the end of the previous window: those who were, without
      the ones who have come back since. */
  lemma LapsedBeforeIff(orders: seq<Order>, counts: map<Id, nat>, lasts: map<Id, int>, start: int, churnDays: int, c: Id)
    requires Lasts(orders, counts, lasts)
    ensures LapsedBefore(lasts, start, churnDays)(c) <==> LapsedAsOf(orders, start, churnDays, c) && !OrderedSince(orders, start, c)
  {
    hide Days;
    if c in lasts {
      var last :| 0 <= last < |orders| && orders[last].customer == c && orders[last].date == lasts[c];
      assert !OrderedSince(orders, start, c) ==> orders[last].date < start;
    } else {
      assert c !in Buyers(orders);
    }
  }

  /** So the count is of those churned at that time if and only if none of them has ordered since. */
  lemma PrevChurnedIff(orders: seq<Order>, counts: map<Id, nat>, lasts: map<Id, int>, start: int, churnDays: int)
    requires Lasts(orders, counts, lasts)
    ensures Those(counts.Keys, LapsedBefore(lasts, start, churnDays)) == (set c | c in counts && LapsedAsOf(orders, start, churnDays, c))
       <==> forall c | LapsedAsOf(orders, start, churnDays, c) :: !OrderedSince(orders, start, c)
  {
    var counted, lapsed := Those(counts.Keys, LapsedBefore(lasts, start, churnDays)), set c | c in counts && LapsedAsOf(orders, start, churnDays, c);
    forall c ensures c in counted <==> c in lapsed && !OrderedSince(orders, start, c) {
      LapsedBeforeIff(orders, counts, lasts, start, churnDays, c);
    }
    forall c | LapsedAsOf(orders, start, churnDays, c) ensures c in lapsed {
    }
    hide Lasts, LapsedAsOf, OrderedSince, LapsedBefore, Those;
  }

  /** A customer who came back after the previous window had churned at its end, and is not counted. */
  lemma CameBack(start: int, churnDays: nat) returns (orders: seq<Order>, counts: map<Id, nat>, lasts: map<Id, int>)
    ensures Lasts(orders, counts, lasts) && LapsedAsOf(orders, start, churnDays, 0) && OrderedSince(orders, start, 0)
    ensures Those(counts.Keys, LapsedBefore(lasts, start, churnDays)) == {}
  {
    var first, second := Order(0, start - Days(churnDays) - 1, 0, 0, 0), Order(0, start, 0, 0, 0);
    orders, counts, lasts := [first, second], map[0 := 2], map[0 := start];
    assert orders[0] == first && orders[1] == second;
    assert orders[..1][..0] == [] && orders[..1] == [first];
    assert OrdersBy([first], 0) == 1;
  }

  /** For which windows nobody counts as churned a window ago without counting as churned now. */
  predicate WindowIsPast(days: int, churnDays: int) {
    0 <= days || churnDays <= days
  }

  lemma PrevChurnedWithin(buyers: set<Id>, lasts: map<Id, int>, now: int, days: int, churnDays: int)
    requires WindowIsPast(days, churnDays)
    ensures var (churned, before) := (Those(buyers, Lapsed(lasts, now, churnDays)),
                                      Those(buyers, LapsedBefore(lasts, now - Days(days), churnDays)));
            before <= churned && |before| <= |churned|
  {
    var churned, before := Those(buyers, Lapsed(lasts, now, churnDays)),
                           Those(buyers, LapsedBefore(lasts, now - Days(days), churnDays));
    assert churned == before + (churned - before);
  }

  /** Otherwise, as with a negative number of days, one order at the right moment breaks the rule. */
  lemma PrevChurnedBeyond(now: int, days: int, churnDays: int) returns (orders: seq<Order>, lasts: map<Id, int>)
    requires !WindowIsPast(days, churnDays)
    ensures Lasts(orders, map[0 := 1], lasts)
    ensures Those({0}, Lapsed(lasts, now, churnDays)) == {}
    ensures Those({0}, LapsedBefore(lasts, now - Days(days), churnDays)) == {0}
  {
    var date := now - Days(churnDays);
    if churnDays < 0 {
      date := now - Days(days) - 1;
    }
    orders, lasts := [Order(0, date, 0, 0, 0)], map[0 := date];
    assert OrdersBy(orders[..0], 0) == 0;
    assert orders[0].customer == 0;
  }
}
