/** What the rows say after a full sync, read off the listing. */
module SyncContent {
  import opened Tables
  import opened Sync
  import opened SyncTrace
  import opened SyncLaws

  // ---- Which write a row shows -----------------------------------------------------------------------

  /** The last write under a key leaves all its columns, and its parent. */
  lemma {:induction false} TopWrite(ws: seq<Write>, n: nat)
    requires n < |ws| && forall m | n < m < |ws| :: ws[m].key != ws[n].key
    ensures ws[n].key in Keys(ws) && LastParent(ws, ws[n].key) == ws[n].parent
    ensures forall c | c in ws[n].columns :: c in Merged(ws, ws[n].key) && Merged(ws, ws[n].key)[c] == ws[n].columns[c]
  {
    if n < |ws| - 1 {
      TopWrite(ws[..|ws| - 1], n);
      assert ws[|ws| - 1].key != ws[n].key;
    }
  }

  /** A row shows what is listed of it. */
  predicate Shows(t: Index, k: Key, columns: Columns) {
    k in t && forall c | c in columns :: c in t[k].columns && t[k].columns[c] == columns[c]
  }

  lemma ShowsTop(t: Index, ws: seq<Write>, t': Index, n: nat)
    requires Applied(t, ws, t') && n < |ws| && forall m | n < m < |ws| :: ws[m].key != ws[n].key
    ensures Shows(t', ws[n].key, ws[n].columns) && t'[ws[n].key].parent == ws[n].parent
  {
    TopWrite(ws, n);
    assert AppliedAt(t, ws, t', ws[n].key);
    hide Applied, Merged, Keys, LastParent;
  }

  lemma {:induction false} ProductWriteAt(ps: seq<Product>)
    ensures |ProductWrites(ps)| == |ps|
    ensures forall i | 0 <= i < |ps| :: ProductWrites(ps)[i] == Write(ProductKey(ps[i]), ps[i].columns, None)
  {
    if ps != [] {
      ProductWriteAt(ps[..|ps| - 1]);
    }
  }

  lemma {:induction false} CustomerWriteAt(cs: seq<Customer>)
    ensures |CustomerWrites(cs)| == |cs|
    ensures forall i | 0 <= i < |cs| :: CustomerWrites(cs)[i] == Write(CustomerKey(cs[i]), cs[i].columns, None)
  {
    if cs != [] {
      CustomerWriteAt(cs[..|cs| - 1]);
    }
  }

  lemma {:induction false} OrderWriteAt(customers: Index, os: seq<Order>, pick: set<Id> -> Id)
    ensures |OrderWrites(customers, os, pick)| == |os|
    ensures forall i | 0 <= i < |os| ::
              OrderWrites(customers, os, pick)[i]
              == Write(OrderKey(os[i]), OrderColumns(os[i]), Resolve(customers, os[i].customerExt, pick))
  {
    if os != [] {
      OrderWriteAt(customers, os[..|os| - 1], pick);
    }
    hide Resolve, OrderColumns;
  }

  // ---- Products and customers ---------------------------------------------------------------------------

  /** A product row shows every column of the last listing of the product. */
  lemma ProductStored(s: Store, l: Listing, pick: set<Id> -> Id, i: nat)
    requires Good(s) && Picks(pick) && i < |l.products|
    requires forall j | i < j < |l.products| :: ProductKey(l.products[j]) != ProductKey(l.products[i])
    ensures Shows(FullSync(s, l, pick).products, ProductKey(l.products[i]), l.products[i].columns)
  {
    hide FullSync, Good, Picks, Applied, LinesApplied;
    FullSyncTrace(s, l, pick);
    ProductWriteAt(l.products);
    ShowsTop(s.products, ProductWrites(l.products), FullSync(s, l, pick).products, i);
    hide Shows;
  }

  lemma CustomerStored(s: Store, l: Listing, pick: set<Id> -> Id, i: nat)
    requires Good(s) && Picks(pick) && i < |l.customers|
    requires forall j | i < j < |l.customers| :: CustomerKey(l.customers[j]) != CustomerKey(l.customers[i])
    ensures Shows(FullSync(s, l, pick).customers, CustomerKey(l.customers[i]), l.customers[i].columns)
  {
    hide FullSync, Good, Picks, Applied, LinesApplied;
    FullSyncTrace(s, l, pick);
    CustomerWriteAt(l.customers);
    ShowsTop(s.customers, CustomerWrites(l.customers), FullSync(s, l, pick).customers, i);
    hide Shows;
  }

  // ---- Orders --------------------------------------------------------------------------------------------

  /** The four states of an order, as the dashboard names them. */
  predicate CalledOff(o: Order) {
    o.cancelled || o.financial == "refunded" || o.financial == "voided"
  }

  predicate Underway(o: Order) {
    o.fulfillment == "partial" || o.fulfillment == "in_transit"
  }

  lemma StatusTable(o: Order)
    ensures "order_status" in OrderColumns(o)
    ensures var status := OrderColumns(o)["order_status"];
            && (status == "cancelled" <==> CalledOff(o))
            && (status == "delivered" <==> !CalledOff(o) && o.fulfillment == "fulfilled")
            && (status == "shipped" <==> !CalledOff(o) && Underway(o))
            && (status == "processing" <==> !CalledOff(o) && o.fulfillment != "fulfilled" && !Underway(o))
  {
    assert |"cancelled"| == 9 && |"delivered"| == 9 && |"shipped"| == 7 && |"processing"| == 10;
    assert "cancelled"[0] == 'c' && "delivered"[0] == 'd';
  }

  /** An order row shows every column of the last listing of the order, and the status that its payment,
      its fulfilment and its cancellation call for. */
  lemma OrderStored(s: Store, l: Listing, pick: set<Id> -> Id, i: nat)
    requires Good(s) && Picks(pick) && i < |l.orders|
    requires forall j | i < j < |l.orders| :: OrderKey(l.orders[j]) != OrderKey(l.orders[i])
    ensures var (t, o) := (FullSync(s, l, pick).orders, l.orders[i]);
            && OrderKey(o) in t
            && (forall c | c in o.columns && c != "order_status" :: c in t[OrderKey(o)].columns && t[OrderKey(o)].columns[c] == o.columns[c])
            && "order_status" in t[OrderKey(o)].columns
            && var status := t[OrderKey(o)].columns["order_status"];
               && (status == "cancelled" <==> CalledOff(o))
               && (status == "delivered" <==> !CalledOff(o) && o.fulfillment == "fulfilled")
               && (status == "shipped" <==> !CalledOff(o) && Underway(o))
               && (status == "processing" <==> !CalledOff(o) && o.fulfillment != "fulfilled" && !Underway(o))
  {
    hide FullSync, Good, Picks, Applied, LinesApplied, DeriveOrderStatus, CalledOff, Underway;
    var s' := FullSync(s, l, pick);
    FullSyncTrace(s, l, pick);
    OrderWriteAt(s'.customers, l.orders, pick);
    ShowsTop(s.orders, OrderWrites(s'.customers, l.orders, pick), s'.orders, i);
    hide Synced, OrderWrites, Resolve;
    StatusTable(l.orders[i]);
  }

  /** The type of a line is the one that a product row of its id shows. */
  lemma {:induction false} LineTyped(s: Store, l: Listing, pick: set<Id> -> Id, k: Key, n: nat)
    requires Good(s) && Picks(pick) && LastOrder(l.orders, k).Some? && n < |LastOrder(l.orders, k).value.items|
    ensures var s' := FullSync(s, l, pick);
            && k in s'.orders && s'.orders[k].id in s'.lines && n < |s'.lines[s'.orders[k].id]|
            && var line := s'.lines[s'.orders[k].id][n];
               && (line.product.None? ==> line.productType.None?)
               && forall p | p in s'.products && line.product == Some(s'.products[p].id) ::
                    line.productType == if "product_type" in s'.products[p].columns then Some(s'.products[p].columns["product_type"]) else None
  {
    hide FullSync, Good, Picks, Synced, LinesOf, Resolve, TypeOf;
    var s' := FullSync(s, l, pick);
    FullSyncTrace(s, l, pick);
    Resolved(s, l, s', pick, k);
    TypeShown(s', s'.lines[s'.orders[k].id][n].product);
    LineTypeIs(s'.products, LastOrder(l.orders, k).value.items, pick, n);
  }

  lemma LineTypeIs(products: Index, items: seq<LineItem>, pick: set<Id> -> Id, n: nat)
    requires n < |items|
    ensures LinesOf(products, items, pick)[n].productType == TypeOf(products, LinesOf(products, items, pick)[n].product)
  {
    hide Resolve, TypeOf;
  }

  lemma TypeShown(s: Store, id: Option<Id>)
    requires Good(s)
    ensures id.None? ==> TypeOf(s.products, id).None?
    ensures forall p | p in s.products && id == Some(s.products[p].id) ::
              TypeOf(s.products, id) == if "product_type" in s.products[p].columns then Some(s.products[p].columns["product_type"]) else None
  {
  }

  // ---- Variants --------------------------------------------------------------------------------------------

  /** Listed variant (i, j) comes before (m, n). */
  predicate Earlier(i: int, j: int, m: int, n: int) {
    i < m || (i == m && j < n)
  }

  predicate IsVariant(ps: seq<Product>, m: int, n: int) {
    0 <= m < |ps| && 0 <= n < |ps[m].variants|
  }

  lemma {:induction false} VariantsAt(product: Id, variants: seq<Variant>)
    ensures |VariantsOf(product, variants)| == |variants|
    ensures forall j | 0 <= j < |variants| ::
              VariantsOf(product, variants)[j] == Write(Key("", variants[j].ext), variants[j].columns, Some(product))
  {
    if variants != [] {
      VariantsAt(product, variants[..|variants| - 1]);
    }
  }

  /** Place `x` of the writes stems from a listed variant that comes after (i, j). */
  ghost predicate FromLater(ps: seq<Product>, i: int, j: int, key: Key) {
    exists m, n :: IsVariant(ps, m, n) && Earlier(i, j, m, n) && key == Key("", ps[m].variants[n].ext)
  }

  lemma {:induction false} VariantPlace(products: Index, ps: seq<Product>, i: nat, j: nat) returns (x: nat)
    requires IsVariant(ps, i, j)
    ensures x < |VariantWrites(products, ps)|
    ensures VariantWrites(products, ps)[x]
         == Write(Key("", ps[i].variants[j].ext), ps[i].variants[j].columns, Some(IdAt(products, ProductKey(ps[i]))))
    ensures forall y | x < y < |VariantWrites(products, ps)| :: FromLater(ps, i, j, VariantWrites(products, ps)[y].key)
  {
    var last := |ps| - 1;
    var before, p := ps[..last], ps[last];
    var head: seq<Write>, tail: seq<Write> := VariantWrites(products, before), VariantsOf(IdAt(products, ProductKey(p)), p.variants);
    VariantsAt(IdAt(products, ProductKey(p)), p.variants);
    assert VariantWrites(products, ps) == head + tail;
    hide VariantWrites, VariantsOf, IdAt;
    if i == last {
      x := |head| + j;
    } else {
      x := VariantPlace(products, before, i, j);
    }
    forall y | x < y < |head + tail| ensures FromLater(ps, i, j, (head + tail)[y].key) {
      if y < |head| {
        var m, n :| IsVariant(before, m, n) && Earlier(i, j, m, n) && head[y].key == Key("", before[m].variants[n].ext);
        assert IsVariant(ps, m, n) && ps[m] == before[m];
      } else {
        assert IsVariant(ps, last, y - |head|) && Earlier(i, j, last, y - |head|);
        assert tail[y - |head|].key == Key("", p.variants[y - |head|].ext);
      }
    }
  }

  /** A variant row shows every column of the last listing of the variant, and belongs to the product it
      was listed with. */
  lemma VariantStored(s: Store, l: Listing, pick: set<Id> -> Id, i: nat, j: nat)
    requires Good(s) && Picks(pick) && IsVariant(l.products, i, j)
    requires forall m, n | IsVariant(l.products, m, n) && Earlier(i, j, m, n) ::
               l.products[m].variants[n].ext != l.products[i].variants[j].ext
    ensures var (s', v, k) := (FullSync(s, l, pick), l.products[i].variants[j], ProductKey(l.products[i]));
            && Shows(s'.variants, Key("", v.ext), v.columns) && k in s'.products
            && s'.variants[Key("", v.ext)].parent == Some(s'.products[k].id)
  {
    hide FullSync, Good, Picks, Applied, LinesApplied, VariantWrites;
    var s' := FullSync(s, l, pick);
    FullSyncTrace(s, l, pick);
    var x := VariantPlace(s'.products, l.products, i, j);
    ShowsTop(s.variants, VariantWrites(s'.products, l.products), s'.variants, x);
    ProductWriteAt(l.products);
    ProductThere(s, l.products, s'.products, i);
    hide Shows, Synced;
  }

  lemma {:induction false} ProductThere(s: Store, ps: seq<Product>, products: Index, i: nat)
    requires Applied(s.products, ProductWrites(ps), products) && i < |ps|
    ensures ProductKey(ps[i]) in products
  {
    ProductWriteAt(ps);
    assert ProductWrites(ps)[i].key in Keys(ProductWrites(ps));
    assert AppliedAt(s.products, ProductWrites(ps), products, ProductKey(ps[i]));
    hide Applied, ProductWrites;
  }

  // ---- What was not listed -----------------------------------------------------------------------------------

  /** Rows that the listing does not name stay as they were. */
  lemma UnlistedStay(s: Store, l: Listing, pick: set<Id> -> Id, k: Key)
    requires Good(s) && Picks(pick)
    ensures var s' := FullSync(s, l, pick);
            && (k in s.products && (forall p | p in l.products :: ProductKey(p) != k) ==> k in s'.products && s'.products[k] == s.products[k])
            && (k in s.customers && (forall c | c in l.customers :: CustomerKey(c) != k) ==> k in s'.customers && s'.customers[k] == s.customers[k])
            && (k in s.orders && (forall o | o in l.orders :: OrderKey(o) != k) ==> k in s'.orders && s'.orders[k] == s.orders[k])
  {
    hide FullSync, Good, Picks, LinesApplied;
    var s' := FullSync(s, l, pick);
    FullSyncTrace(s, l, pick);
    ProductWriteAt(l.products);
    CustomerWriteAt(l.customers);
    OrderWriteAt(s'.customers, l.orders, pick);
    Untouched(s.products, ProductWrites(l.products), s'.products, k);
    Untouched(s.customers, CustomerWrites(l.customers), s'.customers, k);
    Untouched(s.orders, OrderWrites(s'.customers, l.orders, pick), s'.orders, k);
    hide ProductWrites, CustomerWrites, OrderWrites, Applied, Resolve;
  }

  lemma Untouched(t: Index, ws: seq<Write>, t': Index, k: Key)
    requires Applied(t, ws, t')
    ensures k in t && (forall i | 0 <= i < |ws| :: ws[i].key != k) ==> k in t' && t'[k] == t[k]
  {
    assert AppliedAt(t, ws, t', k);
    NotMerged(ws, k);
    hide Applied, Merged;
  }

  // ---- Mappings ------------------------------------------------------------------------------------------------

  lemma {:induction false} ProductMappingAt(products: Index, ps: seq<Product>)
    ensures |ProductMappings(products, ps)| == |ps|
    ensures forall i | 0 <= i < |ps| :: ProductMappings(products, ps)[i].key == Key("product", ps[i].ext)
  {
    if ps != [] {
      ProductMappingAt(products, ps[..|ps| - 1]);
    }
  }

  lemma {:induction false} CustomerMappingAt(customers: Index, cs: seq<Customer>)
    ensures |CustomerMappings(customers, cs)| == |cs|
    ensures forall i | 0 <= i < |cs| :: CustomerMappings(customers, cs)[i].key == Key("customer", cs[i].ext)
  {
    if cs != [] {
      CustomerMappingAt(customers, cs[..|cs| - 1]);
    }
  }

  lemma {:induction false} OrderMappingAt(orders: Index, os: seq<Order>)
    ensures |OrderMappings(orders, os)| == |os|
    ensures forall i | 0 <= i < |os| :: OrderMappings(orders, os)[i].key == Key("order", os[i].ext)
  {
    if os != [] {
      OrderMappingAt(orders, os[..|os| - 1]);
    }
  }

  lemma {:induction false} MappingKey(s: Store, l: Listing, k: Key)
    requires
      || (exists p :: p in l.products && k == Key("product", p.ext))
      || (exists c :: c in l.customers && k == Key("customer", c.ext))
      || (exists o :: o in l.orders && k == Key("order", o.ext))
    ensures k in Keys(MappingWrites(s, l))
  {
    var a, b, c := ProductMappings(s.products, l.products), CustomerMappings(s.customers, l.customers), OrderMappings(s.orders, l.orders);
    ProductMappingAt(s.products, l.products);
    CustomerMappingAt(s.customers, l.customers);
    OrderMappingAt(s.orders, l.orders);
    var ws := MappingWrites(s, l);
    assert ws == a + b + c;
    hide MappingWrites, ProductMappings, CustomerMappings, OrderMappings;
    if i :| 0 <= i < |l.products| && k == Key("product", l.products[i].ext) {
      KeyThere(ws, i);
    } else if i :| 0 <= i < |l.customers| && k == Key("customer", l.customers[i].ext) {
      KeyThere(ws, |a| + i);
    } else {
      var i :| 0 <= i < |l.orders| && k == Key("order", l.orders[i].ext);
      KeyThere(ws, |a| + |b| + i);
    }
    hide Keys;
  }

  lemma KeyThere(ws: seq<Write>, i: nat)
    requires i < |ws|
    ensures ws[i].key in Keys(ws)
  {
  }

  /** Everything listed has a mapping, which points at a row of its own table with its external id. */
  lemma {:induction false} MappingStored(s: Store, l: Listing, pick: set<Id> -> Id, k: Key)
    requires Good(s) && Picks(pick)
    requires
      || (exists p :: p in l.products && k == Key("product", p.ext))
      || (exists c :: c in l.customers && k == Key("customer", c.ext))
      || (exists o :: o in l.orders && k == Key("order", o.ext))
    ensures var s' := FullSync(s, l, pick);
            && k in s'.mappings && s'.mappings[k].parent.Some?
            && exists row :: row in TableFor(s', k.source) && row.ext == k.ext
                             && TableFor(s', k.source)[row].id == s'.mappings[k].parent.value
  {
    hide FullSync, Picks, LinesApplied, MappingWrites;
    var s' := FullSync(s, l, pick);
    FullSyncTrace(s, l, pick);
    MappingKey(s', l, k);
    assert AppliedAt(s.mappings, MappingWrites(s', l), s'.mappings, k);
    assert Points(s', k, s'.mappings[k]);
    hide TableFor, Applied, AppliedAt;
  }
}
