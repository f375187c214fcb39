/** Signups by day, and when each customer's next order is expected. Times are in milliseconds. */
module Cadence {
  import opened Sums
  import opened Sorting

  type Id = nat

  function DayOf(at: int): int { at / 86_400_000 }

  // ---- The signup series ------------------------------------------------------------------------

  datatype Signup = Signup(at: int, accepts: bool)

  datatype Day = Day(count: int, subscribed: int)

  function Joined(start: int, now: int): Signup -> Share<int> {
    (s: Signup) => if start <= s.at <= now then Share(DayOf(s.at), 1) else Nothing
  }

  function Subscribed(start: int, now: int): Signup -> Share<int> {
    (s: Signup) => if start <= s.at <= now && s.accepts then Share(DayOf(s.at), 1) else Nothing
  }

  method SignupSeries(signups: seq<Signup>, start: int, now: int) returns (days: map<int, Day>, subscribedTotal: int)
    ensures days.Keys == KeysOf(signups, Joined(start, now))
    ensures forall d | d in days ::
              days[d] == Day(GroupTotal(signups, Joined(start, now), d), GroupTotal(signups, Subscribed(start, now), d))
    ensures subscribedTotal == Total(signups, Subscribed(start, now))
  {
    hide Joined, Subscribed, DayOf;
    days, subscribedTotal := map[], 0;
    for n := 0 to |signups|
      invariant days.Keys == KeysOf(signups[..n], Joined(start, now))
      invariant forall d | d in days ::
        days[d] == Day(GroupTotal(signups[..n], Joined(start, now), d), GroupTotal(signups[..n], Subscribed(start, now), d))
      invariant subscribedTotal == Total(signups[..n], Subscribed(start, now))
    {
      SignupStep(signups, n, start, now);
      var s := signups[n];
      if start <= s.at <= now {
        var key := DayOf(s.at);
        NoSignups(signups[..n], start, now, key);
        var b := if key in days then days[key] else Day(0, 0);
        b := b.(count := b.count + 1);
        if s.accepts {
          b := b.(subscribed := b.subscribed + 1);
          subscribedTotal := subscribedTotal + 1;
        }
        days := days[key := b];
      }
    }
    assert signups[..|signups|] == signups;
  }

  lemma SignupStep(signups: seq<Signup>, n: nat, start: int, now: int)
    requires n < |signups|
    ensures var (s, joined, subscribed) := (signups[n], Joined(start, now), Subscribed(start, now));
            && KeysOf(signups[..n + 1], joined) == KeysOf(signups[..n], joined) + (if start <= s.at <= now then {DayOf(s.at)} else {})
            && Total(signups[..n + 1], subscribed) == Total(signups[..n], subscribed) + (if start <= s.at <= now && s.accepts then 1 else 0)
            && (forall d :: GroupTotal(signups[..n + 1], joined, d)
                         == GroupTotal(signups[..n], joined, d) + (if start <= s.at <= now && d == DayOf(s.at) then 1 else 0))
            && (forall d :: GroupTotal(signups[..n + 1], subscribed, d)
                         == GroupTotal(signups[..n], subscribed, d) + (if start <= s.at <= now && s.accepts && d == DayOf(s.at) then 1 else 0))
  {
    hide GroupTotal, KeysOf, Total, DayOf;
    Step(signups, n, Joined(start, now));
    Step(signups, n, Subscribed(start, now));
  }

  lemma {:induction false} NoSignups(signups: seq<Signup>, start: int, now: int, d: int)
    ensures d !in KeysOf(signups, Joined(start, now)) ==>
              GroupTotal(signups, Joined(start, now), d) == 0 && GroupTotal(signups, Subscribed(start, now), d) == 0
  {
    if signups != [] {
      var n := |signups| - 1;
      assert signups[..n + 1] == signups;
      Step(signups, n, Joined(start, now));
      NoSignups(signups[..n], start, now, d);
    }
  }

  /** The series adds up: its counts to the signups of the period, its subscribers to the total. */
  lemma {:induction false} SeriesSums(signups: seq<Signup>, start: int, now: int, days: map<int, Day>)
    requires days.Keys == KeysOf(signups, Joined(start, now))
    requires forall d | d in days ::
               days[d] == Day(GroupTotal(signups, Joined(start, now), d), GroupTotal(signups, Subscribed(start, now), d))
    ensures SumOver(days.Keys, (d: int) => if d in days then days[d].count else 0) == Total(signups, Joined(start, now))
    ensures SumOver(days.Keys, (d: int) => if d in days then days[d].subscribed else 0) == Total(signups, Subscribed(start, now))
  {
    assert KeysOf(signups, Subscribed(start, now)) <= KeysOf(signups, Joined(start, now));
    Partition(signups, Joined(start, now), days.Keys, (d: int) => if d in days then days[d].count else 0);
    Partition(signups, Subscribed(start, now), days.Keys, (d: int) => if d in days then days[d].subscribed else 0);
  }

  /** The signups of the period on UTC day `d`: all of them, or those that accept mails. */
  function SignedUp(signups: seq<Signup>, start: int, now: int, d: int, accepting: bool): set<int> {
    set i | 0 <= i < |signups| && start <= signups[i].at <= now && (accepting ==> signups[i].accepts)
            && d * 86_400_000 <= signups[i].at < (d + 1) * 86_400_000
  }

  lemma DayIff(d: int)
    ensures forall at :: DayOf(at) == d <==> d * 86_400_000 <= at < (d + 1) * 86_400_000
  {
  }

  /** The counts of a day are those of its signups, and the days of the series those that have one. */
  lemma {:induction false} SeriesMeaning(signups: seq<Signup>, start: int, now: int, d: int)
    ensures GroupTotal(signups, Joined(start, now), d) == |SignedUp(signups, start, now, d, false)|
    ensures GroupTotal(signups, Subscribed(start, now), d) == |SignedUp(signups, start, now, d, true)|
    ensures d in KeysOf(signups, Joined(start, now)) <==> SignedUp(signups, start, now, d, false) != {}
  {
    DayIff(d);
    var one := (i: int) => 1;
    GroupIsSum(signups, Joined(start, now), d, SignedUp(signups, start, now, d, false), one);
    GroupIsSum(signups, Subscribed(start, now), d, SignedUp(signups, start, now, d, true), one);
    SumOfOnes(SignedUp(signups, start, now, d, false), one);
    SumOfOnes(SignedUp(signups, start, now, d, true), one);
    hide GroupTotal, SumOver;
    if i :| i in SignedUp(signups, start, now, d, false) {
      assert Joined(start, now)(signups[i]).key in KeysOf(signups, Joined(start, now));
    }
  }

  // ---- The average gap -----------------------------------------------------------------------------

  /** `Math.round`: to the nearest whole number, and half-way upwards. */
  function Round(x: real): int { (x + 0.5).Floor }

  function Max(a: int, b: int): int { if a < b then b else a }

  function InDays(ms: int): real { ms as real / 86_400_000.0 }

  const SINGLE_ORDER_GAP := 45

  function Ascending(a: int, b: int): bool { a <= b }

  /** The days from the earliest order to the latest, evenly spread over the gaps between. */
  function MeanGap(dates: seq<int>): real
    requires |dates| >= 2
  {
    var sorted, n := SortBy(dates, Ascending), |dates|;
    InDays(sorted[n - 1] - sorted[0]) / (n - 1) as real
  }

  function AverageGap(dates: seq<int>): int
    requires dates != []
  {
    if |dates| == 1 then SINGLE_ORDER_GAP else Max(1, Round(MeanGap(dates)))
  }

  /** The sum of the gaps, taken one by one, telescopes. */
  method ComputeGap(dates: seq<int>) returns (avgGap: int, last: int)
    requires dates != []
    ensures avgGap == AverageGap(dates)
    ensures last == SortBy(dates, Ascending)[|dates| - 1]
  {
    var sorted := SortBy(dates, Ascending);
    last := sorted[|sorted| - 1];
    if |sorted| >= 2 {
      var total := 0.0;
      for i := 1 to |sorted|
        invariant total == InDays(sorted[i - 1] - sorted[0])
      {
        total := total + InDays(sorted[i] - sorted[i - 1]);
      }
      avgGap := Max(1, Round(total / (|sorted| - 1) as real));
    } else {
      avgGap := SINGLE_ORDER_GAP;
    }
  }

  /** The ends of the sorted dates are the earliest and the latest. */
  lemma {:induction false} EndsAreExtremes(dates: seq<int>)
    requires dates != []
    ensures var sorted := SortBy(dates, Ascending);
            && sorted[0] in dates && sorted[|dates| - 1] in dates
            && forall d | d in dates :: sorted[0] <= d <= sorted[|dates| - 1]
  {
    var sorted := SortBy(dates, Ascending);
    SortOrders(dates, Ascending);
    SortElements(dates, Ascending, sorted[0]);
    SortElements(dates, Ascending, sorted[|dates| - 1]);
    forall d | d in dates ensures sorted[0] <= d <= sorted[|dates| - 1] {
      SortElements(dates, Ascending, d);
      var i :| 0 <= i < |sorted| && sorted[i] == d;
      assert i == 0 || Ascending(sorted[0], sorted[i]);
      assert i == |sorted| - 1 || Ascending(sorted[i], sorted[|sorted| - 1]);
    }
  }

  /** The gap is a whole number of days, at least one, within half a day of the mean or rounded up to one. */
  lemma GapNearMean(dates: seq<int>)
    requires |dates| >= 2
    ensures AverageGap(dates) >= 1 && MeanGap(dates) >= 0.0
    ensures MeanGap(dates) >= 0.5 ==> MeanGap(dates) - 0.5 < AverageGap(dates) as real <= MeanGap(dates) + 0.5
    ensures MeanGap(dates) < 0.5 ==> AverageGap(dates) == 1
  {
    hide MeanGap, Round, Max;
    MeanPositive(dates);
    AtLeastOne(MeanGap(dates));
  }

  lemma MeanPositive(dates: seq<int>)
    requires |dates| >= 2
    ensures MeanGap(dates) >= 0.0
  {
    EndsAreExtremes(dates);
    var sorted := SortBy(dates, Ascending);
    var span := InDays(sorted[|dates| - 1] - sorted[0]);
    ShareOfSpan(span, |dates| - 1);
    hide SortBy;
  }

  lemma AtLeastOne(x: real)
    requires x >= 0.0
    ensures Max(1, Round(x)) >= 1
    ensures x >= 0.5 ==> x - 0.5 < Max(1, Round(x)) as real <= x + 0.5
    ensures x < 0.5 ==> Max(1, Round(x)) == 1
  {
  }

  lemma Nearest(x: real)
    ensures x - 0.5 < Round(x) as real <= x + 0.5
  {
  }

  lemma ShareOfSpan(span: real, n: int)
    requires span >= 0.0 && n >= 1
    ensures span / n as real >= 0.0
  {
  }

  // ---- The prediction -------------------------------------------------------------------------------

  datatype Status = Overdue | DueSoon | Upcoming

  datatype Prediction = Prediction(customer: Id, lastOrderAt: int, ordersCount: nat, avgGap: int, expected: int, daysUntil: int,
                                   status: Status)

  function StatusOf(daysUntil: int): Status {
    if daysUntil < 0 then Overdue else if daysUntil <= 7 then DueSoon else Upcoming
  }

  function Predict(customer: Id, dates: seq<int>, now: int): Prediction
    requires dates != []
  {
    var avgGap := AverageGap(dates);
    var last := SortBy(dates, Ascending)[|dates| - 1];
    var expected := last + avgGap * 86_400_000;
    var daysUntil := Round(InDays(expected - now));
    Prediction(customer, last, |dates|, avgGap, expected, daysUntil, StatusOf(daysUntil))
  }

  /** Overdue is more than half a day ago, due soon is less than seven and a half days ahead, and the
      expected time lies behind the last order. */
  lemma StatusMeaning(customer: Id, dates: seq<int>, now: int)
    requires dates != []
    ensures var p := Predict(customer, dates, now);
            && (p.status == Overdue <==> p.expected + 43_200_000 < now)
            && (p.status == Upcoming <==> p.expected >= now + 7 * 86_400_000 + 43_200_000)
            && forall d | d in dates :: d + 86_400_000 <= p.expected
  {
    EndsAreExtremes(dates);
    if |dates| >= 2 {
      GapNearMean(dates);
    }
    RoundedDays(Predict(customer, dates, now).expected - now);
    hide SortBy, AverageGap;
  }

  lemma RoundedDays(ms: int)
    ensures Round(InDays(ms)) < 0 <==> ms < -43_200_000
    ensures Round(InDays(ms)) > 7 <==> ms >= 7 * 86_400_000 + 43_200_000
  {
    Nearest(InDays(ms));
    assert InDays(ms) * 86_400_000.0 == ms as real;
  }

  function ByDays(a: Prediction, b: Prediction): bool { a.daysUntil <= b.daysUntil }

  function DatesOf(orders: seq<(Id, int)>, c: Id): seq<int> {
    if orders == [] then []
    else
      var (customer, date) := orders[|orders| - 1];
      DatesOf(orders[..|orders| - 1], c) + if customer == c then [date] else []
  }

  function Customers(orders: seq<(Id, int)>): set<Id> {
    set i | 0 <= i < |orders| :: orders[i].0
  }

  method GroupDates(orders: seq<(Id, int)>) returns (dates: map<Id, seq<int>>)
    ensures dates.Keys == Customers(orders)
    ensures forall c | c in dates :: dates[c] == DatesOf(orders, c) && dates[c] != []
  {
    dates := map[];
    for n := 0 to |orders|
      invariant dates.Keys == Customers(orders[..n])
      invariant forall c | c in dates :: dates[c] == DatesOf(orders[..n], c) && dates[c] != []
    {
      GroupStep(orders, n);
      var (customer, date) := orders[n];
      if customer !in dates {
        NoDates(orders[..n], customer);
        dates := dates[customer := []];
      }
      dates := dates[customer := dates[customer] + [date]];
    }
    assert orders[..|orders|] == orders;
  }

  lemma GroupStep(orders: seq<(Id, int)>, n: nat)
    requires n < |orders|
    ensures Customers(orders[..n + 1]) == Customers(orders[..n]) + {orders[n].0}
    ensures forall c :: DatesOf(orders[..n + 1], c) == DatesOf(orders[..n], c) + if orders[n].0 == c then [orders[n].1] else []
  {
    var t := orders[..n + 1];
    assert t[..n] == orders[..n] && t[n] == orders[n];
    assert forall i | 0 <= i < n :: t[i] == orders[..n][i];
  }

  lemma {:induction false} NoDates(orders: seq<(Id, int)>, c: Id)
    ensures c !in Customers(orders) ==> DatesOf(orders, c) == []
  {
    if orders != [] {
      var n := |orders| - 1;
      assert orders[..n + 1] == orders;
      GroupStep(orders, n);
      NoDates(orders[..n], c);
    }
  }

  function With(s: Status): Prediction -> bool { (p: Prediction) => p.status == s }

  /** One prediction for every customer with an order, soonest first. */
  ghost predicate Covers(predictions: seq<Prediction>, dates: map<Id, seq<int>>, among: set<Id>, now: int)
    requires among <= dates.Keys && forall c | c in dates :: dates[c] != []
  {
    && |predictions| == |among|
    && (forall c | c in among :: Predict(c, dates[c], now) in predictions)
    && (forall p | p in predictions :: p.customer in among && p == Predict(p.customer, dates[p.customer], now))
  }

  method PredictAll(dates: map<Id, seq<int>>, now: int) returns (predictions: seq<Prediction>)
    requires forall c | c in dates :: dates[c] != []
    ensures Covers(predictions, dates, dates.Keys, now)
  {
    hide Predict, Covers;
    predictions := [];
    var rest := dates.Keys;
    ghost var done := {};
    CoversNone(dates, now);
    while rest != {}
      invariant rest <= dates.Keys && done == dates.Keys - rest
      invariant Covers(predictions, dates, done, now)
    {
      var c :| c in rest;
      var p := PredictOne(c, dates[c], now);
      CoversStep(predictions, dates, done, c, now);
      predictions := predictions + [p];
      rest, done := rest - {c}, done + {c};
    }
    assert done == dates.Keys;
  }

  lemma CoversNone(dates: map<Id, seq<int>>, now: int)
    requires forall c | c in dates :: dates[c] != []
    ensures Covers([], dates, {}, now)
  {
  }

  lemma CoversStep(predictions: seq<Prediction>, dates: map<Id, seq<int>>, done: set<Id>, c: Id, now: int)
    requires done <= dates.Keys && c in dates && c !in done && forall c | c in dates :: dates[c] != []
    requires Covers(predictions, dates, done, now)
    ensures Covers(predictions + [Predict(c, dates[c], now)], dates, done + {c}, now)
  {
    assert Predict(c, dates[c], now).customer == c;
    hide Predict;
  }

  lemma {:induction false} SortCovers(predictions: seq<Prediction>, dates: map<Id, seq<int>>, now: int)
    requires forall c | c in dates :: dates[c] != []
    requires Covers(predictions, dates, dates.Keys, now)
    ensures Covers(SortBy(predictions, ByDays), dates, dates.Keys, now)
  {
    hide Predict;
    forall c | c in dates ensures Predict(c, dates[c], now) in SortBy(predictions, ByDays) {
      SortElements(predictions, ByDays, Predict(c, dates[c], now));
    }
    forall p | p in SortBy(predictions, ByDays) ensures p in predictions {
      SortElements(predictions, ByDays, p);
    }
  }

  // ---- What a prediction says, read off the orders ---------------------------------------------------

  /** The first and the last order of the customer. */
  ghost predicate Spans(orders: seq<(Id, int)>, c: Id, first: int, last: int) {
    (c, first) in orders && (c, last) in orders && forall d | (c, d) in orders :: first <= d <= last
  }

  /** The order is expected after the customer's mean gap in whole days, at least one, or after forty-five
      days when there is one order; days to come are rounded to the nearest. */
  ghost predicate Fits(p: Prediction, orders: seq<(Id, int)>, now: int) {
    exists first :: Spans(orders, p.customer, first, p.lastOrderAt)
      && p.ordersCount == |PlacesOf(orders, p.customer)|
      && p.expected == p.lastOrderAt + 86_400_000 * p.avgGap
      && (p.ordersCount == 1 ==> p.avgGap == 45)
      && (p.ordersCount >= 2 ==>
            var mean := (p.lastOrderAt - first) as real / 86_400_000.0 / (p.ordersCount - 1) as real;
            && (mean >= 0.5 ==> mean - 0.5 < p.avgGap as real <= mean + 0.5)
            && (mean < 0.5 ==> p.avgGap == 1))
      && (p.expected - now) as real / 86_400_000.0 - 0.5 < p.daysUntil as real <= (p.expected - now) as real / 86_400_000.0 + 0.5
      && (p.status == Overdue <==> p.daysUntil < 0) && (p.status == Upcoming <==> p.daysUntil > 7)
  }

  lemma {:induction false} DatesListed(orders: seq<(Id, int)>, c: Id)
    ensures forall d :: d in DatesOf(orders, c) <==> (c, d) in orders
  {
    if orders != [] {
      var before, last := orders[..|orders| - 1], orders[|orders| - 1];
      DatesListed(before, c);
      assert DatesOf(orders, c) == DatesOf(before, c) + if last.0 == c then [last.1] else [];
      assert orders == before + [last];
      forall d ensures d in DatesOf(orders, c) <==> (c, d) in orders {
        assert (c, d) in orders <==> (c, d) in before || (c, d) == last;
      }
    }
  }

  function PlacesOf(orders: seq<(Id, int)>, c: Id): set<int> {
    set i | 0 <= i < |orders| && orders[i].0 == c
  }

  lemma {:induction false} DatesCounted(orders: seq<(Id, int)>, c: Id)
    ensures |DatesOf(orders, c)| == |PlacesOf(orders, c)|
  {
    if orders != [] {
      DatesCounted(orders[..|orders| - 1], c);
      PlacesStep(orders, c);
      hide PlacesOf;
    }
  }

  lemma PlacesStep(orders: seq<(Id, int)>, c: Id)
    requires orders != []
    ensures |PlacesOf(orders, c)| == |PlacesOf(orders[..|orders| - 1], c)| + if orders[|orders| - 1].0 == c then 1 else 0
  {
    var n := |orders| - 1;
    var was, now := PlacesOf(orders[..n], c), PlacesOf(orders, c);
    assert now == was + if orders[n].0 == c then {n} else {};
  }

  lemma {:induction false} PredictFits(orders: seq<(Id, int)>, c: Id, now: int)
    requires DatesOf(orders, c) != []
    ensures Fits(Predict(c, DatesOf(orders, c), now), orders, now)
  {
    var dates := DatesOf(orders, c);
    var p, first := Predict(c, dates, now), SortBy(dates, Ascending)[0];
    DatesListed(orders, c);
    DatesCounted(orders, c);
    EndsAreExtremes(dates);
    assert Spans(orders, c, first, p.lastOrderAt);
    if |dates| >= 2 {
      GapNearMean(dates);
    }
    Nearest(InDays(p.expected - now));
    hide SortBy, DatesOf, Round, Max, Spans;
  }

  method Insights(orders: seq<(Id, int)>, now: int)
    returns (predictions: seq<Prediction>, dates: map<Id, seq<int>>, overdue: nat, dueSoon: nat, upcoming: nat)
    ensures dates.Keys == Customers(orders) && forall c | c in dates :: dates[c] == DatesOf(orders, c) && dates[c] != []
    ensures Covers(predictions, dates, dates.Keys, now) && Ordered(predictions, ByDays)
    ensures forall i, j | 0 <= i < j < |predictions| :: predictions[i].daysUntil <= predictions[j].daysUntil
    ensures |predictions| == |Customers(orders)| && forall c | c in Customers(orders) :: exists p :: p in predictions && p.customer == c
    ensures forall p | p in predictions :: Fits(p, orders, now)
    ensures overdue == Count(predictions, With(Overdue)) && dueSoon == Count(predictions, With(DueSoon))
    ensures upcoming == Count(predictions, With(Upcoming))
    ensures overdue + dueSoon + upcoming == |Customers(orders)|
  {
    hide Predict, SortBy, Count;
    dates := GroupDates(orders);
    var unsorted := PredictAll(dates, now);
    predictions := SortBy(unsorted, ByDays);
    SortOrders(unsorted, ByDays);
    SortCovers(unsorted, dates, now);
    CoveredFit(orders, predictions, dates, now);
    SoonestFirst(predictions);
    overdue, dueSoon, upcoming := Count(predictions, With(Overdue)), Count(predictions, With(DueSoon)), Count(predictions, With(Upcoming));
    StatusesPartition(predictions);
  }

  lemma SoonestFirst(predictions: seq<Prediction>)
    requires Ordered(predictions, ByDays)
    ensures forall i, j | 0 <= i < j < |predictions| :: predictions[i].daysUntil <= predictions[j].daysUntil
  {
    forall i, j | 0 <= i < j < |predictions| ensures predictions[i].daysUntil <= predictions[j].daysUntil {
      assert ByDays(predictions[i], predictions[j]);
    }
  }

  lemma {:induction false} CoveredFit(orders: seq<(Id, int)>, predictions: seq<Prediction>, dates: map<Id, seq<int>>, now: int)
    requires dates.Keys == Customers(orders) && forall c | c in dates :: dates[c] == DatesOf(orders, c) && dates[c] != []
    requires Covers(predictions, dates, dates.Keys, now)
    ensures forall c | c in Customers(orders) :: exists p :: p in predictions && p.customer == c
    ensures forall p | p in predictions :: Fits(p, orders, now)
  {
    forall c | c in Customers(orders) ensures exists p :: p in predictions && p.customer == c {
      assert Predict(c, dates[c], now) in predictions && Predict(c, dates[c], now).customer == c;
    }
    hide Fits, Predict;
    forall p | p in predictions ensures Fits(p, orders, now) {
      PredictFits(orders, p.customer, now);
    }
  }

  method PredictOne(c: Id, dates: seq<int>, now: int) returns (p: Prediction)
    requires dates != []
    ensures p == Predict(c, dates, now)
  {
    var avgGap, last := ComputeGap(dates);
    var expected := last + avgGap * 86_400_000;
    var daysUntil := Round(InDays(expected - now));
    p := Prediction(c, last, |dates|, avgGap, expected, daysUntil, StatusOf(daysUntil));
  }

  lemma {:induction false} StatusesPartition(predictions: seq<Prediction>)
    ensures Count(predictions, With(Overdue)) + Count(predictions, With(DueSoon)) + Count(predictions, With(Upcoming)) == |predictions|
  {
    if predictions != [] {
      StatusesPartition(predictions[..|predictions| - 1]);
    }
  }
}
