/** What the sync promises: a rerun changes nothing, references are resolved, and a webhook followed
    by a sync is the sync alone, up to ids. */
module SyncLaws {
  import opened Tables
  import opened Sync
  import opened SyncTrace

  // ---- When a query by external id alone has one answer ---------------------------------------------

  ghost predicate OneSource(keys: set<Key>, ext: string) {
    ext == "" || forall j, k | j in keys && k in keys && j.ext == ext && k.ext == ext :: j == k
  }

  function ProductKeysAfter(s: Store, l: Listing): set<Key> {
    s.products.Keys + Keys(ProductWrites(l.products))
  }

  function CustomerKeysAfter(s: Store, l: Listing): set<Key> {
    s.customers.Keys + Keys(CustomerWrites(l.customers))
  }

  /** No order, as last listed, refers to an external id that two sources share. */
  ghost predicate RefersOnce(s: Store, l: Listing, o: Order) {
    && OneSource(CustomerKeysAfter(s, l), o.customerExt)
    && forall i | 0 <= i < |o.items| :: OneSource(ProductKeysAfter(s, l), o.items[i].productExt)
  }

  ghost predicate Settled(s: Store, l: Listing) {
    forall k | LastOrder(l.orders, k).Some? :: RefersOnce(s, l, LastOrder(l.orders, k).value)
  }

  ghost function Choose(ids: set<Id>, a: Id): Id {
    if a in ids then a else if ids == {} then 0 else
      var x :| x in ids;
      x
  }

  /** The database that returns row `a` whenever it may. */
  ghost function Preferring(a: Id): set<Id> -> Id {
    (ids: set<Id>) => Choose(ids, a)
  }

  lemma PreferringPicks(a: Id)
    ensures Picks(Preferring(a))
  {
  }

  /** A reference resolves the same way whatever the database returns, if and only if one row at most
      has the external id. */
  lemma ResolveIff(t: Index, next: Id, ext: string)
    requires TableOk(t, next)
    ensures OneSource(t.Keys, ext) <==>
              forall pick, pick' | Picks(pick) && Picks(pick') :: Resolve(t, ext, pick) == Resolve(t, ext, pick')
  {
    if OneSource(t.Keys, ext) {
      forall pick, pick' | Picks(pick) && Picks(pick') ensures Resolve(t, ext, pick) == Resolve(t, ext, pick') {
        ResolvesTo(t, ext, pick);
        ResolvesTo(t, ext, pick');
        hide Resolve, Picks;
      }
    } else {
      var j, k :| j in t && k in t && j.ext == ext && k.ext == ext && j != k;
      TwoAnswers(t, next, ext, j, k);
      PreferringPicks(t[j].id);
      PreferringPicks(t[k].id);
      hide Resolve, Picks, Preferring;
      assert Resolve(t, ext, Preferring(t[j].id)) != Resolve(t, ext, Preferring(t[k].id));
    }
  }

  lemma TwoAnswers(t: Index, next: Id, ext: string, j: Key, k: Key)
    requires TableOk(t, next) && ext != "" && j in t && k in t && j.ext == ext && k.ext == ext && j != k
    ensures Resolve(t, ext, Preferring(t[j].id)) == Some(t[j].id) && Resolve(t, ext, Preferring(t[k].id)) == Some(t[k].id)
    ensures t[j].id != t[k].id
  {
    assert t[j].id in Candidates(t, ext) && t[k].id in Candidates(t, ext);
  }

  // ---- The final tables' keys -------------------------------------------------------------------------

  lemma KeysAfter(s: Store, l: Listing, s': Store, pick: set<Id> -> Id)
    requires Synced(s, l, s', pick)
    ensures s'.products.Keys == ProductKeysAfter(s, l) && s'.customers.Keys == CustomerKeysAfter(s, l)
  {
    hide Keys, Merged, LastParent, LinesApplied;
    forall k ensures k in s'.products <==> k in ProductKeysAfter(s, l) {
      assert AppliedAt(s.products, ProductWrites(l.products), s'.products, k);
    }
    forall k ensures k in s'.customers <==> k in CustomerKeysAfter(s, l) {
      assert AppliedAt(s.customers, CustomerWrites(l.customers), s'.customers, k);
    }
  }

  lemma SameResolve(t: Index, next: Id, ext: string, pick: set<Id> -> Id, pick': set<Id> -> Id)
    requires TableOk(t, next) && OneSource(t.Keys, ext) && Picks(pick) && Picks(pick')
    ensures Resolve(t, ext, pick) == Resolve(t, ext, pick')
  {
    ResolveIff(t, next, ext);
    hide Resolve, Picks, OneSource;
  }

  lemma {:induction false} LastOrderListed(os: seq<Order>, k: Key)
    ensures LastOrder(os, k).Some? ==> LastOrder(os, k).value in os && OrderKey(LastOrder(os, k).value) == k
  {
    if os != [] {
      LastOrderListed(os[..|os| - 1], k);
    }
  }

  // ---- A rerun ----------------------------------------------------------------------------------------

  lemma SameLines(products: Index, next: Id, items: seq<LineItem>, pick: set<Id> -> Id, pick': set<Id> -> Id)
    requires TableOk(products, next) && Picks(pick) && Picks(pick')
    requires forall i | 0 <= i < |items| :: OneSource(products.Keys, items[i].productExt)
    ensures LinesOf(products, items, pick) == LinesOf(products, items, pick')
  {
    hide OneSource, Resolve, Picks;
    forall i | 0 <= i < |items| ensures LinesOf(products, items, pick)[i] == LinesOf(products, items, pick')[i] {
      SameResolve(products, next, items[i].productExt, pick, pick');
    }
  }

  lemma {:induction false} OrderEffect(customers: Index, customers': Index, os: seq<Order>, pick: set<Id> -> Id, pick': set<Id> -> Id, k: Key)
    ensures Merged(OrderWrites(customers, os, pick), k) == Merged(OrderWrites(customers', os, pick'), k)
  {
    if os != [] {
      var before, o := os[..|os| - 1], os[|os| - 1];
      OrderEffect(customers, customers', before, pick, pick', k);
      MergedStep(OrderWrites(customers, before, pick), Write(OrderKey(o), OrderColumns(o), Resolve(customers, o.customerExt, pick)), k);
      MergedStep(OrderWrites(customers', before, pick'), Write(OrderKey(o), OrderColumns(o), Resolve(customers', o.customerExt, pick')), k);
      hide Merged, Resolve, OrderColumns;
    }
  }

  lemma {:induction false} SameOrderEffect(s: Store, l: Listing, customers: Index, next: Id, pick: set<Id> -> Id, pick': set<Id> -> Id)
    requires Settled(s, l) && customers.Keys == CustomerKeysAfter(s, l) && TableOk(customers, next) && Picks(pick) && Picks(pick')
    ensures SameEffect(OrderWrites(customers, l.orders, pick), OrderWrites(customers, l.orders, pick'))
  {
    hide Picks, Resolve, OneSource, TableOk, Merged, Keys;
    OrderKeysIn(customers, l.orders, pick);
    OrderKeysIn(customers, l.orders, pick');
    forall k ensures LastParent(OrderWrites(customers, l.orders, pick), k) == LastParent(OrderWrites(customers, l.orders, pick'), k) {
      match LastOrder(l.orders, k)
      case Some(o) =>
        assert RefersOnce(s, l, o);
        SameResolve(customers, next, o.customerExt, pick, pick');
      case None =>
    }
    forall k {
      OrderEffect(customers, customers, l.orders, pick, pick', k);
    }
    hide OrderWrites, LastParent;
  }

  lemma LinesTwice(s: Store, l: Listing, s1: Store, s2: Store, pick: set<Id> -> Id, pick': set<Id> -> Id)
    requires Settled(s, l) && Good(s1) && Good(s2) && Picks(pick) && Picks(pick')
    requires s2.products == s1.products && s2.orders == s1.orders && s1.products.Keys == ProductKeysAfter(s, l)
    requires LinesApplied(s, l.orders, s1, pick) && LinesApplied(s1, l.orders, s2, pick')
    ensures s2.lines == s1.lines
  {
    hide Picks, OneSource;
    forall k | k in s1.orders ensures
      && (s1.orders[k].id in s2.lines <==> s1.orders[k].id in s1.lines)
      && (s1.orders[k].id in s1.lines ==> s2.lines[s1.orders[k].id] == s1.lines[s1.orders[k].id])
    {
      assert LinesAt(s, l.orders, s1, k, pick) && LinesAt(s1, l.orders, s2, k, pick');
      match LastOrder(l.orders, k)
      case Some(o) =>
        assert RefersOnce(s, l, o);
        SameLines(s1.products, s1.next, o.items, pick, pick');
        hide LinesOf;
      case None =>
    }
    OwnedLines(s1);
    OwnedLines(s2);
    hide Good, LinesApplied, Settled, LinesOf;
  }

  lemma OwnedLines(s: Store)
    requires Good(s)
    ensures forall id | id in s.lines :: exists k :: k in s.orders && s.orders[k].id == id
  {
    forall id | id in s.lines ensures exists k :: k in s.orders && s.orders[k].id == id {
      assert HasId(s.orders, id);
    }
  }

  lemma SameEffectItself(ws: seq<Write>)
    ensures SameEffect(ws, ws)
  {
  }

  lemma TablesTwice(s: Store, l: Listing, s1: Store, s2: Store, pick: set<Id> -> Id, pick': set<Id> -> Id)
    requires Settled(s, l) && Good(s1) && Picks(pick) && Picks(pick')
    requires Synced(s, l, s1, pick) && Synced(s1, l, s2, pick')
    ensures s2.products == s1.products && s2.variants == s1.variants && s2.customers == s1.customers
    ensures s2.orders == s1.orders && s2.mappings == s1.mappings
  {
    hide Applied, SameEffect, LinesApplied, Settled, Picks;
    KeysAfter(s, l, s1, pick);
    SameEffectItself(ProductWrites(l.products));
    AppliedTwice(s.products, ProductWrites(l.products), s1.products, ProductWrites(l.products), s2.products);
    SameEffectItself(VariantWrites(s1.products, l.products));
    AppliedTwice(s.variants, VariantWrites(s1.products, l.products), s1.variants, VariantWrites(s1.products, l.products), s2.variants);
    SameEffectItself(CustomerWrites(l.customers));
    AppliedTwice(s.customers, CustomerWrites(l.customers), s1.customers, CustomerWrites(l.customers), s2.customers);
    SameOrderEffect(s, l, s1.customers, s1.next, pick, pick');
    AppliedTwice(s.orders, OrderWrites(s1.customers, l.orders, pick), s1.orders, OrderWrites(s1.customers, l.orders, pick'), s2.orders);
    assert MappingWrites(s2, l) == MappingWrites(s1, l);
    SameEffectItself(MappingWrites(s1, l));
    AppliedTwice(s.mappings, MappingWrites(s1, l), s1.mappings, MappingWrites(s1, l), s2.mappings);
  }

  // ---- New rows and new ids --------------------------------------------------------------------------

  /** Products, customers and orders: the rows that a sync counts. */
  function Counted(s: Store): nat { |s.products| + |s.customers| + |s.orders| }

  function Rows(s: Store): nat { Counted(s) + |s.variants| + |s.mappings| }

  function Listed(l: Listing): nat { |l.products| + |l.customers| + |l.orders| }

  /** Every id drawn is the id of one new row. */
  ghost predicate Drawn(s: Store, s': Store) {
    s'.next - s.next == Rows(s') - Rows(s) && s.next <= s'.next
  }

  lemma PutDraws(t: Index, w: Write, next: Id)
    ensures |Put(t, w, next)| == |t| + NextAfter(t, w.key, next) - next
    ensures next <= NextAfter(t, w.key, next) <= next + 1
  {
  }

  lemma {:induction false} VariantsDraw(s: Store, product: Id, variants: seq<Variant>)
    ensures var s' := PutVariants(s, product, variants);
            s' == s.(variants := s'.variants, next := s'.next) && Drawn(s, s') && Counted(s') == Counted(s)
  {
    if variants != [] {
      var before, v := variants[..|variants| - 1], variants[|variants| - 1];
      VariantsDraw(s, product, before);
      var s1 := PutVariants(s, product, before);
      PutDraws(s1.variants, Write(Key("", v.ext), v.columns, Some(product)), s1.next);
    }
    hide Put, NextAfter;
  }

  lemma MappingDraws(s: Store, objectType: string, ext: string, graphql: Columns, local: Id)
    ensures var s' := MapExternal(s, objectType, ext, graphql, local);
            s' == s.(mappings := s'.mappings, next := s'.next) && Drawn(s, s') && Counted(s') == Counted(s)
  {
    PutDraws(s.mappings, Write(Key(objectType, ext), graphql, Some(local)), s.next);
    hide Put, NextAfter;
  }

  lemma ProductDraws(s: Store, p: Product)
    ensures Drawn(s, UpsertProduct(s, p))
    ensures Counted(UpsertProduct(s, p)) == Counted(s) + if ProductKey(p) in s.products then 0 else 1
  {
    var s1 := PutProduct(s, p);
    var id := s1.products[ProductKey(p)].id;
    PutDraws(s.products, Write(ProductKey(p), p.columns, None), s.next);
    VariantsDraw(s1, id, p.variants);
    MappingDraws(PutVariants(s1, id, p.variants), "product", p.ext, p.graphql, id);
    hide Put, PutVariants, MapExternal;
  }

  lemma CustomerDraws(s: Store, c: Customer)
    ensures Drawn(s, UpsertCustomer(s, c))
    ensures Counted(UpsertCustomer(s, c)) == Counted(s) + if CustomerKey(c) in s.customers then 0 else 1
  {
    var s1 := PutCustomer(s, c);
    PutDraws(s.customers, Write(CustomerKey(c), c.columns, None), s.next);
    MappingDraws(s1, "customer", c.ext, map[], s1.customers[CustomerKey(c)].id);
    hide Put, MapExternal;
  }

  lemma OrderDraws(s: Store, o: Order, pick: set<Id> -> Id)
    ensures Drawn(s, UpsertOrder(s, o, pick))
    ensures Counted(UpsertOrder(s, o, pick)) == Counted(s) + if OrderKey(o) in s.orders then 0 else 1
  {
    hide Resolve, LinesOf, OrderColumns;
    var customer := Resolve(s.customers, o.customerExt, pick);
    var s1 := PutOrder(s, o, customer);
    var id := s1.orders[OrderKey(o)].id;
    PutDraws(s.orders, Write(OrderKey(o), OrderColumns(o), customer), s.next);
    MappingDraws(SetLines(s1, id, LinesOf(s.products, o.items, pick)), "order", o.ext, map[], id);
    hide Put, MapExternal;
  }

  lemma {:induction false} ProductsDraw(s: Store, ps: seq<Product>)
    ensures Drawn(s, SyncProducts(s, ps)) && 0 <= Counted(SyncProducts(s, ps)) - Counted(s) <= |ps|
  {
    hide UpsertProduct, Counted, Rows;
    if ps != [] {
      ProductsDraw(s, ps[..|ps| - 1]);
      ProductDraws(SyncProducts(s, ps[..|ps| - 1]), ps[|ps| - 1]);
    }
  }

  lemma {:induction false} CustomersDraw(s: Store, cs: seq<Customer>)
    ensures Drawn(s, SyncCustomers(s, cs)) && 0 <= Counted(SyncCustomers(s, cs)) - Counted(s) <= |cs|
  {
    hide UpsertCustomer, Counted, Rows;
    if cs != [] {
      CustomersDraw(s, cs[..|cs| - 1]);
      CustomerDraws(SyncCustomers(s, cs[..|cs| - 1]), cs[|cs| - 1]);
    }
  }

  lemma {:induction false} OrdersDraw(s: Store, os: seq<Order>, pick: set<Id> -> Id)
    ensures Drawn(s, SyncOrders(s, os, pick)) && 0 <= Counted(SyncOrders(s, os, pick)) - Counted(s) <= |os|
  {
    hide UpsertOrder, Counted, Rows;
    if os != [] {
      OrdersDraw(s, os[..|os| - 1], pick);
      OrderDraws(SyncOrders(s, os[..|os| - 1], pick), os[|os| - 1], pick);
    }
  }

  lemma SyncDraws(s: Store, l: Listing, pick: set<Id> -> Id)
    ensures Drawn(s, FullSync(s, l, pick)) && 0 <= Counted(FullSync(s, l, pick)) - Counted(s) <= Listed(l)
  {
    hide Counted, Rows;
    ProductsDraw(s, l.products);
    CustomersDraw(SyncProducts(s, l.products), l.customers);
    OrdersDraw(SyncCustomers(SyncProducts(s, l.products), l.customers), l.orders, pick);
  }

  /** A rerun on the same listing leaves every table as it is: the same rows under the same ids, and so
      nothing is created. */
  lemma RerunChangesNothing(s: Store, l: Listing, pick: set<Id> -> Id, pick': set<Id> -> Id)
    requires Good(s) && Settled(s, l) && Picks(pick) && Picks(pick')
    ensures FullSync(FullSync(s, l, pick), l, pick') == FullSync(s, l, pick)
  {
    hide Good, Settled, Picks, FullSync, Applied;
    var s1 := FullSync(s, l, pick);
    var s2 := FullSync(s1, l, pick');
    FullSyncTrace(s, l, pick);
    FullSyncTrace(s1, l, pick');
    TablesTwice(s, l, s1, s2, pick, pick');
    KeysAfter(s, l, s1, pick);
    LinesTwice(s, l, s1, s2, pick, pick');
    SyncDraws(s1, l, pick');
  }

  // ---- The exact condition -----------------------------------------------------------------------------

  lemma {:induction false} OrdersKeep(s: Store, os: seq<Order>, pick: set<Id> -> Id)
    ensures SyncOrders(s, os, pick).products == s.products && SyncOrders(s, os, pick).customers == s.customers
  {
    if os != [] {
      OrdersKeep(s, os[..|os| - 1], pick);
      OrderFrame(SyncOrders(s, os[..|os| - 1], pick), os[|os| - 1], pick);
    }
    hide UpsertOrder;
  }

  /** The tables that order references are resolved in, once the listing's other rows are in. */
  function Prepared(s: Store, l: Listing): Store {
    SyncCustomers(SyncProducts(s, l.products), l.customers)
  }

  lemma {:induction false} Resolved(s0: Store, l: Listing, s: Store, pick: set<Id> -> Id, k: Key)
    requires Synced(s0, l, s, pick) && LastOrder(l.orders, k).Some?
    ensures var o := LastOrder(l.orders, k).value;
            && k in s.orders && s.orders[k].parent == Resolve(s.customers, o.customerExt, pick)
            && s.orders[k].id in s.lines && s.lines[s.orders[k].id] == LinesOf(s.products, o.items, pick)
  {
    hide Resolve, LinesOf, Keys, Merged, OrderColumns;
    OrderKeysIn(s.customers, l.orders, pick);
    hide OrderWrites, LastParent;
    assert AppliedAt(s0.orders, OrderWrites(s.customers, l.orders, pick), s.orders, k);
    assert LinesAt(s0, l.orders, s, k, pick);
  }

  lemma RerunTables(s: Store, l: Listing, pick: set<Id> -> Id, pick': set<Id> -> Id)
    requires Good(s) && Picks(pick) && Picks(pick')
    ensures var (m, s1) := (Prepared(s, l), FullSync(s, l, pick));
            var s2 := FullSync(s1, l, pick');
            && Good(s1) && Synced(s, l, s1, pick) && Synced(s1, l, s2, pick')
            && s1.products == m.products && s1.customers == m.customers
            && s2.products == s1.products && s2.customers == s1.customers
  {
    hide Good, Picks, Applied, SameEffect, LinesApplied;
    var s1 := FullSync(s, l, pick);
    FullSyncTrace(s, l, pick);
    FullSyncTrace(s1, l, pick');
    OrdersKeep(Prepared(s, l), l.orders, pick);
    hide FullSync;
    var s2 := FullSync(s1, l, pick');
    SameEffectItself(ProductWrites(l.products));
    AppliedTwice(s.products, ProductWrites(l.products), s1.products, ProductWrites(l.products), s2.products);
    SameEffectItself(CustomerWrites(l.customers));
    AppliedTwice(s.customers, CustomerWrites(l.customers), s1.customers, CustomerWrites(l.customers), s2.customers);
  }

  ghost predicate RerunKeeps(s: Store, l: Listing, pick: set<Id> -> Id, pick': set<Id> -> Id) {
    FullSync(FullSync(s, l, pick), l, pick') == FullSync(s, l, pick)
  }

  lemma TwoCustomers(s: Store, l: Listing, k: Key) returns (pick: set<Id> -> Id, pick': set<Id> -> Id)
    requires Good(s) && LastOrder(l.orders, k).Some?
    requires !OneSource(Prepared(s, l).customers.Keys, LastOrder(l.orders, k).value.customerExt)
    ensures Picks(pick) && Picks(pick') && !RerunKeeps(s, l, pick, pick')
  {
    var o, t := LastOrder(l.orders, k).value, Prepared(s, l).customers;
    var i, j :| i in t && j in t && i.ext == o.customerExt && j.ext == o.customerExt && i != j;
    hide OneSource, FullSync, Prepared, Resolve, LinesOf, Synced, Preferring, Picks;
    pick, pick' := Preferring(t[i].id), Preferring(t[j].id);
    PreferringPicks(t[i].id);
    PreferringPicks(t[j].id);
    RerunTables(s, l, pick, pick');
    var s1 := FullSync(s, l, pick);
    GoodCustomers(s1);
    TwoAnswers(t, s1.next, o.customerExt, i, j);
    Resolved(s, l, s1, pick, k);
    Resolved(s1, l, FullSync(s1, l, pick'), pick', k);
  }

  lemma GoodCustomers(s: Store)
    requires Good(s)
    ensures TableOk(s.customers, s.next) && TableOk(s.products, s.next)
  {
  }

  lemma TwoProducts(s: Store, l: Listing, k: Key, n: nat) returns (pick: set<Id> -> Id, pick': set<Id> -> Id)
    requires Good(s) && LastOrder(l.orders, k).Some? && n < |LastOrder(l.orders, k).value.items|
    requires !OneSource(Prepared(s, l).products.Keys, LastOrder(l.orders, k).value.items[n].productExt)
    ensures Picks(pick) && Picks(pick') && !RerunKeeps(s, l, pick, pick')
  {
    var o, t := LastOrder(l.orders, k).value, Prepared(s, l).products;
    var ext := o.items[n].productExt;
    var i, j :| i in t && j in t && i.ext == ext && j.ext == ext && i != j;
    hide OneSource, FullSync, Prepared, Resolve, Synced, Preferring, Picks;
    pick, pick' := Preferring(t[i].id), Preferring(t[j].id);
    PreferringPicks(t[i].id);
    PreferringPicks(t[j].id);
    RerunTables(s, l, pick, pick');
    var s1 := FullSync(s, l, pick);
    GoodCustomers(s1);
    TwoAnswers(t, s1.next, ext, i, j);
    Resolved(s, l, s1, pick, k);
    Resolved(s1, l, FullSync(s1, l, pick'), pick', k);
    assert LinesOf(t, o.items, pick)[n].product != LinesOf(t, o.items, pick')[n].product;
  }

  lemma PreparedKeys(s: Store, l: Listing)
    requires Good(s)
    ensures Prepared(s, l).products.Keys == ProductKeysAfter(s, l) && Prepared(s, l).customers.Keys == CustomerKeysAfter(s, l)
  {
    hide Good, Picks, FullSync, Synced;
    var pick := Preferring(0);
    PreferringPicks(0);
    FullSyncTrace(s, l, pick);
    KeysAfter(s, l, FullSync(s, l, pick), pick);
    RerunTables(s, l, pick, pick);
    hide Prepared, ProductKeysAfter, CustomerKeysAfter;
  }

  /** Whatever rows the database returns for a shared external id, a rerun changes nothing, if and only
      if no order refers to an external id that two sources share. */
  lemma RerunIff(s: Store, l: Listing)
    requires Good(s)
    ensures Settled(s, l) <==> forall pick, pick' | Picks(pick) && Picks(pick') :: RerunKeeps(s, l, pick, pick')
  {
    hide Good, Picks, FullSync, OneSource, Prepared, ProductKeysAfter, CustomerKeysAfter;
    if Settled(s, l) {
      forall pick, pick' | Picks(pick) && Picks(pick') ensures RerunKeeps(s, l, pick, pick') {
        RerunChangesNothing(s, l, pick, pick');
      }
    } else {
      var k :| LastOrder(l.orders, k).Some? && !RefersOnce(s, l, LastOrder(l.orders, k).value);
      var o := LastOrder(l.orders, k).value;
      PreparedKeys(s, l);
      if !OneSource(CustomerKeysAfter(s, l), o.customerExt) {
        var pick, pick' := TwoCustomers(s, l, k);
      } else {
        var n :| 0 <= n < |o.items| && !OneSource(ProductKeysAfter(s, l), o.items[n].productExt);
        var pick, pick' := TwoProducts(s, l, k, n);
      }
    }
  }

  // ---- References ------------------------------------------------------------------------------------

  /** The reference is filled, with a row of that external id. */
  ghost predicate Refers(t: Index, ext: string, id: Option<Id>) {
    id.Some? && exists k :: k in t && k.ext == ext && t[k].id == id.value
  }

  /** After a sync, every order listed refers to a row of its customer's external id as soon as there is
      one, listed now or before; and each of its lines, in order, likewise to a product. */
  lemma {:induction false} OrdersAreResolved(s: Store, l: Listing, pick: set<Id> -> Id, k: Key)
    requires Good(s) && Picks(pick) && LastOrder(l.orders, k).Some?
    ensures var (o, s1) := (LastOrder(l.orders, k).value, FullSync(s, l, pick));
            && k in s1.orders && s1.orders[k].id in s1.lines
            && (o.customerExt != "" && (exists c :: c in CustomerKeysAfter(s, l) && c.ext == o.customerExt) ==>
                  Refers(s1.customers, o.customerExt, s1.orders[k].parent))
            && |s1.lines[s1.orders[k].id]| == |o.items|
            && forall i | 0 <= i < |o.items| ::
                 && s1.lines[s1.orders[k].id][i].columns == o.items[i].columns
                 && (o.items[i].productExt != "" && (exists p :: p in ProductKeysAfter(s, l) && p.ext == o.items[i].productExt) ==>
                       Refers(s1.products, o.items[i].productExt, s1.lines[s1.orders[k].id][i].product))
  {
    hide Good, Picks, FullSync, ProductKeysAfter, CustomerKeysAfter, Resolve, Synced, OrderWrites;
    var o, s1 := LastOrder(l.orders, k).value, FullSync(s, l, pick);
    FullSyncTrace(s, l, pick);
    KeysAfter(s, l, s1, pick);
    Resolved(s, l, s1, pick, k);
    ResolvesTo(s1.customers, o.customerExt, pick);
    forall i | 0 <= i < |o.items| {
      ResolvesTo(s1.products, o.items[i].productExt, pick);
    }
  }

  // ---- One source, and two -----------------------------------------------------------------------------

  const EMPTY: Store := Store(map[], map[], map[], map[], map[], map[], 0)

  lemma EmptyGood()
    ensures Good(EMPTY)
  {
  }

  ghost predicate KeysFrom(keys: set<Key>, source: string) {
    forall k | k in keys :: k.source == source
  }

  /** Everything a store holds, and everything a listing brings, comes from one source. */
  ghost predicate StoreFrom(s: Store, source: string) {
    KeysFrom(s.products.Keys, source) && KeysFrom(s.customers.Keys, source)
  }

  ghost predicate ListingFrom(l: Listing, source: string) {
    (forall p | p in l.products :: p.source == source) && (forall c | c in l.customers :: c.source == source)
  }

  lemma {:induction false} ProductKeysFrom(ps: seq<Product>, source: string)
    requires forall p | p in ps :: p.source == source
    ensures KeysFrom(Keys(ProductWrites(ps)), source)
  {
    if ps != [] {
      var before, p := ps[..|ps| - 1], ps[|ps| - 1];
      assert p in ps;
      ProductKeysFrom(before, source);
      KeysStep(ProductWrites(before), Write(ProductKey(p), p.columns, None));
    }
  }

  lemma {:induction false} CustomerKeysFrom(cs: seq<Customer>, source: string)
    requires forall c | c in cs :: c.source == source
    ensures KeysFrom(Keys(CustomerWrites(cs)), source)
  {
    if cs != [] {
      var before, c := cs[..|cs| - 1], cs[|cs| - 1];
      assert c in cs;
      CustomerKeysFrom(before, source);
      KeysStep(CustomerWrites(before), Write(CustomerKey(c), c.columns, None));
    }
  }

  /** With one source no two rows share an external id, so every listing is settled; and the store stays
      a store of that source. */
  lemma OneSourceSettles(s: Store, l: Listing, source: string)
    requires StoreFrom(s, source) && ListingFrom(l, source)
    ensures Settled(s, l)
    ensures KeysFrom(ProductKeysAfter(s, l), source) && KeysFrom(CustomerKeysAfter(s, l), source)
  {
    ProductKeysFrom(l.products, source);
    CustomerKeysFrom(l.customers, source);
    hide Keys;
    forall ext ensures OneSource(ProductKeysAfter(s, l), ext) && OneSource(CustomerKeysAfter(s, l), ext) {
      OneSourceOf(ProductKeysAfter(s, l), source, ext);
      OneSourceOf(CustomerKeysAfter(s, l), source, ext);
    }
  }

  lemma OneSourceOf(keys: set<Key>, source: string, ext: string)
    requires KeysFrom(keys, source)
    ensures OneSource(keys, ext)
  {
    forall j, k | j in keys && k in keys && j.ext == ext && k.ext == ext ensures j == k {
      assert j == Key(source, ext) && k == Key(source, ext);
    }
  }

  /** The store after a series of syncs, each with the database's choices of its own. */
  ghost function SyncAll(s: Store, ls: seq<Listing>, picks: seq<set<Id> -> Id>): Store
    requires |picks| == |ls|
  {
    if ls == [] then s
    else FullSync(SyncAll(s, ls[..|ls| - 1], picks[..|ls| - 1]), ls[|ls| - 1], picks[|ls| - 1])
  }

  /** Where only one connector ever writes, as only Shopify's does, a rerun after any series of syncs
      changes nothing, without further condition. */
  lemma {:induction false} OneSourceReruns(ls: seq<Listing>, picks: seq<set<Id> -> Id>, source: string, pick': set<Id> -> Id)
    requires |picks| == |ls| && (forall i | 0 <= i < |ls| :: ListingFrom(ls[i], source) && Picks(picks[i])) && Picks(pick')
    ensures Good(SyncAll(EMPTY, ls, picks)) && StoreFrom(SyncAll(EMPTY, ls, picks), source)
    ensures ls != [] ==> FullSync(SyncAll(EMPTY, ls, picks), ls[|ls| - 1], pick') == SyncAll(EMPTY, ls, picks)
    decreases |ls|
  {
    hide Picks, FullSync, ListingFrom, Settled, ProductKeysAfter, CustomerKeysAfter;
    if ls == [] {
      EmptyGood();
    } else {
      var n := |ls| - 1;
      var s, l, pick := SyncAll(EMPTY, ls[..n], picks[..n]), ls[n], picks[n];
      OneSourceReruns(ls[..n], picks[..n], source, pick');
      hide Good, Synced;
      OneSourceSettles(s, l, source);
      FullSyncTrace(s, l, pick);
      KeysAfter(s, l, FullSync(s, l, pick), pick);
      RerunChangesNothing(s, l, pick, pick');
    }
  }

  const BY_HAND := Listing([], [Customer("manual", "1", map[])], [])
  const FROM_SHOP := Listing([], [Customer("shopify", "1", map[])], [Order("shopify", "9", map[], "paid", "", false, "1", [])])

  /** With two sources a rerun may change an order's customer: a customer kept by hand and one of the
      shop share an external id, and an order refers to it. */
  lemma RerunMayChange(pick0: set<Id> -> Id) returns (pick: set<Id> -> Id, pick': set<Id> -> Id)
    requires Picks(pick0)
    ensures Picks(pick) && Picks(pick')
    ensures Good(FullSync(EMPTY, BY_HAND, pick0)) && !Settled(FullSync(EMPTY, BY_HAND, pick0), FROM_SHOP)
    ensures !RerunKeeps(FullSync(EMPTY, BY_HAND, pick0), FROM_SHOP, pick, pick')
  {
    hide Picks, FullSync, Good, Synced;
    EmptyGood();
    FullSyncTrace(EMPTY, BY_HAND, pick0);
    var s := FullSync(EMPTY, BY_HAND, pick0);
    KeysAfter(EMPTY, BY_HAND, s, pick0);
    TwoSources(s);
    hide Settled, RerunKeeps;
    RerunIff(s, FROM_SHOP);
    pick, pick' :| Picks(pick) && Picks(pick') && !RerunKeeps(s, FROM_SHOP, pick, pick');
  }

  lemma TwoSources(s: Store)
    requires s.customers.Keys == CustomerKeysAfter(EMPTY, BY_HAND)
    ensures !Settled(s, FROM_SHOP)
  {
    OneCustomer("manual");
    OneCustomer("shopify");
    hide CustomerWrites, Keys;
    var o := FROM_SHOP.orders[0];
    assert LastOrder(FROM_SHOP.orders, OrderKey(o)) == Some(o);
    var j, k, keys := Key("manual", "1"), Key("shopify", "1"), CustomerKeysAfter(s, FROM_SHOP);
    assert j in keys && k in keys && j.source[0] != k.source[0];
    assert !OneSource(keys, o.customerExt);
    assert !RefersOnce(s, FROM_SHOP, o);
  }

  lemma OneCustomer(source: string)
    ensures Key(source, "1") in Keys(CustomerWrites([Customer(source, "1", map[])]))
  {
    CustomerKeysIn([Customer(source, "1", map[])]);
    assert Customer(source, "1", map[]) in [Customer(source, "1", map[])];
  }
}
