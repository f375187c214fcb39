/** What a whole sync does, table by table, as the list of writes that each table receives. */
module SyncTrace {
  import opened Tables
  import opened Sync

  // ---- Distinct ids and live references -----------------------------------------------------------

  ghost predicate HasId(t: Index, id: Id) {
    exists k :: k in t && t[k].id == id
  }

  ghost predicate TableOk(t: Index, next: Id) {
    && (forall k | k in t :: t[k].id < next)
    && (forall j, k | j in t && k in t && t[j].id == t[k].id :: j == k)
  }

  ghost predicate ParentsIn(t: Index, parents: Index) {
    forall k | k in t && t[k].parent.Some? :: HasId(parents, t[k].parent.value)
  }

  ghost predicate LinesIn(lines: map<Id, seq<Line>>, products: Index) {
    forall id, i | id in lines && 0 <= i < |lines[id]| && lines[id][i].product.Some? :: HasId(products, lines[id][i].product.value)
  }

  ghost predicate LinesOwned(lines: map<Id, seq<Line>>, orders: Index) {
    forall id | id in lines :: HasId(orders, id)
  }

  function TableFor(s: Store, objectType: string): Index {
    if objectType == "product" then s.products else if objectType == "customer" then s.customers
    else if objectType == "order" then s.orders else map[]
  }

  /** The mapping points at a row of its table that has its external id. */
  ghost predicate Points(s: Store, k: Key, e: Entry) {
    e.parent.Some? && exists row :: row in TableFor(s, k.source) && TableFor(s, k.source)[row].id == e.parent.value && row.ext == k.ext
  }

  ghost predicate Mapped(s: Store) {
    forall k | k in s.mappings :: Points(s, k, s.mappings[k])
  }

  ghost predicate Good(s: Store) {
    && TableOk(s.products, s.next) && TableOk(s.variants, s.next) && TableOk(s.customers, s.next)
    && TableOk(s.orders, s.next) && TableOk(s.mappings, s.next)
    && ParentsIn(s.variants, s.products) && ParentsIn(s.orders, s.customers)
    && LinesIn(s.lines, s.products) && LinesOwned(s.lines, s.orders)
    && Mapped(s)
  }

  lemma PutOk(t: Index, w: Write, next: Id)
    requires TableOk(t, next)
    ensures TableOk(Put(t, w, next), NextAfter(t, w.key, next))
    ensures forall k | k in t :: k in Put(t, w, next) && Put(t, w, next)[k].id == t[k].id
    ensures forall id | HasId(t, id) :: HasId(Put(t, w, next), id)
  {
    var t' := Put(t, w, next);
    forall id | HasId(t, id) ensures HasId(t', id) {
      var k :| k in t && t[k].id == id;
      assert k in t' && t'[k].id == id;
    }
  }

  lemma PutParents(t: Index, w: Write, next: Id, parents: Index)
    requires ParentsIn(t, parents) && (w.parent.Some? ==> HasId(parents, w.parent.value))
    ensures ParentsIn(Put(t, w, next), parents)
  {
  }

  /** Every row of a table is still there, under the same key and id. */
  ghost predicate Grows(t: Index, t': Index) {
    forall k | k in t :: k in t' && t'[k].id == t[k].id
  }

  lemma GrowsKeeps(t: Index, t': Index)
    requires Grows(t, t')
    ensures forall id | HasId(t, id) :: HasId(t', id)
    ensures forall u | ParentsIn(u, t) :: ParentsIn(u, t')
    ensures forall lines | LinesIn(lines, t) :: LinesIn(lines, t')
    ensures forall lines | LinesOwned(lines, t) :: LinesOwned(lines, t')
  {
    forall id | HasId(t, id) ensures HasId(t', id) {
      var k :| k in t && t[k].id == id;
      assert k in t' && t'[k].id == id;
    }
  }

  lemma ResolvesTo(t: Index, ext: string, pick: set<Id> -> Id)
    requires Picks(pick)
    ensures var r := Resolve(t, ext, pick);
            && (r.None? <==> ext == "" || forall k | k in t :: k.ext != ext)
            && (r.Some? ==> exists k :: k in t && k.ext == ext && t[k].id == r.value)
  {
    var ids := Candidates(t, ext);
    if ids != {} {
      assert pick(ids) in ids;
    }
    assert forall k | k in t && k.ext == ext :: t[k].id in ids;
  }

  // ---- Upserts keep all that -------------------------------------------------------------------------

  lemma MappedGrows(s: Store, s': Store)
    requires Mapped(s) && s'.mappings == s.mappings
    requires Grows(s.products, s'.products) && Grows(s.customers, s'.customers) && Grows(s.orders, s'.orders)
    ensures Mapped(s')
  {
    forall k | k in s'.mappings ensures Points(s', k, s'.mappings[k]) {
      assert Points(s, k, s.mappings[k]);
      var t := TableFor(s, k.source);
      var row :| row in t && t[row].id == s.mappings[k].parent.value && row.ext == k.ext;
      assert row in TableFor(s', k.source) && TableFor(s', k.source)[row].id == t[row].id;
    }
  }

  lemma PutProductGood(s: Store, p: Product)
    requires Good(s)
    ensures Good(PutProduct(s, p))
  {
    hide Put, Mapped, LinesIn, LinesOwned, ParentsIn, HasId, TableOk, NextAfter;
    var w, s' := Write(ProductKey(p), p.columns, None), PutProduct(s, p);
    PutOk(s.products, w, s.next);
    NextGrows(s.products, ProductKey(p), s.next);
    LaterOk(s, NextAfter(s.products, ProductKey(p), s.next));
    GrowsKeeps(s.products, s'.products);
    MappedGrows(s, s');
  }

  lemma PutVariantGood(s: Store, product: Id, v: Variant)
    requires Good(s) && HasId(s.products, product)
    ensures Good(PutVariant(s, product, v))
  {
    hide Put, Mapped, LinesIn, LinesOwned, HasId, ParentsIn, TableOk, NextAfter;
    var w := Write(Key("", v.ext), v.columns, Some(product));
    PutOk(s.variants, w, s.next);
    NextGrows(s.variants, w.key, s.next);
    LaterOk(s, NextAfter(s.variants, w.key, s.next));
    PutParents(s.variants, w, s.next, s.products);
    MappedGrows(s, PutVariant(s, product, v));
  }

  lemma LaterOk(s: Store, next: Id)
    requires s.next <= next
    ensures TableOk(s.products, s.next) ==> TableOk(s.products, next)
    ensures TableOk(s.variants, s.next) ==> TableOk(s.variants, next)
    ensures TableOk(s.customers, s.next) ==> TableOk(s.customers, next)
    ensures TableOk(s.orders, s.next) ==> TableOk(s.orders, next)
    ensures TableOk(s.mappings, s.next) ==> TableOk(s.mappings, next)
  {
  }

  lemma NextGrows(t: Index, k: Key, next: Id)
    ensures next <= NextAfter(t, k, next)
  {
  }

  lemma {:induction false} PutVariantsGood(s: Store, product: Id, variants: seq<Variant>)
    requires Good(s) && HasId(s.products, product)
    ensures var s' := PutVariants(s, product, variants);
            Good(s') && s' == s.(variants := s'.variants, next := s'.next)
  {
    hide Good, HasId;
    if variants != [] {
      PutVariantsGood(s, product, variants[..|variants| - 1]);
      PutVariantGood(PutVariants(s, product, variants[..|variants| - 1]), product, variants[|variants| - 1]);
    }
  }

  lemma MapExternalGood(s: Store, objectType: string, ext: string, graphql: Columns, local: Id)
    requires Good(s) && exists row :: row in TableFor(s, objectType) && TableFor(s, objectType)[row].id == local && row.ext == ext
    ensures Good(MapExternal(s, objectType, ext, graphql, local))
  {
    hide LinesIn, LinesOwned, ParentsIn, HasId, Mapped, Put, TableFor;
    var k, s' := Key(objectType, ext), MapExternal(s, objectType, ext, graphql, local);
    PutOk(s.mappings, Write(k, graphql, Some(local)), s.next);
    MapExternalMapped(s, objectType, ext, graphql, local);
  }

  lemma MapExternalMapped(s: Store, objectType: string, ext: string, graphql: Columns, local: Id)
    requires Mapped(s) && exists row :: row in TableFor(s, objectType) && TableFor(s, objectType)[row].id == local && row.ext == ext
    ensures Mapped(MapExternal(s, objectType, ext, graphql, local))
  {
    var k, s' := Key(objectType, ext), MapExternal(s, objectType, ext, graphql, local);
    assert forall t :: TableFor(s', t) == TableFor(s, t);
    forall j | j in s'.mappings ensures Points(s', j, s'.mappings[j]) {
      if j == k {
        assert s'.mappings[k].parent == Some(local);
      } else {
        assert Points(s, j, s.mappings[j]);
      }
    }
  }

  lemma UpsertProductGood(s: Store, p: Product)
    requires Good(s)
    ensures Good(UpsertProduct(s, p))
  {
    hide Good;
    var s1 := PutProduct(s, p);
    var id := s1.products[ProductKey(p)].id;
    PutProductGood(s, p);
    assert HasId(s1.products, id);
    PutVariantsGood(s1, id, p.variants);
    MapExternalGood(PutVariants(s1, id, p.variants), "product", p.ext, p.graphql, id);
  }

  lemma PutCustomerGood(s: Store, c: Customer)
    requires Good(s)
    ensures Good(PutCustomer(s, c))
  {
    hide Put, Mapped, LinesIn, LinesOwned, ParentsIn, HasId, TableOk, NextAfter;
    var s' := PutCustomer(s, c);
    PutOk(s.customers, Write(CustomerKey(c), c.columns, None), s.next);
    NextGrows(s.customers, CustomerKey(c), s.next);
    LaterOk(s, NextAfter(s.customers, CustomerKey(c), s.next));
    GrowsKeeps(s.customers, s'.customers);
    MappedGrows(s, s');
  }

  lemma UpsertCustomerGood(s: Store, c: Customer)
    requires Good(s)
    ensures Good(UpsertCustomer(s, c))
  {
    hide Good;
    PutCustomerGood(s, c);
    MapExternalGood(PutCustomer(s, c), "customer", c.ext, map[], PutCustomer(s, c).customers[CustomerKey(c)].id);
  }

  lemma LinesGood(products: Index, items: seq<LineItem>, pick: set<Id> -> Id)
    requires Picks(pick)
    ensures forall i | 0 <= i < |items| && LinesOf(products, items, pick)[i].product.Some? ::
              HasId(products, LinesOf(products, items, pick)[i].product.value)
  {
    hide Picks;
    forall i | 0 <= i < |items| && LinesOf(products, items, pick)[i].product.Some?
      ensures HasId(products, LinesOf(products, items, pick)[i].product.value)
    {
      ResolvesTo(products, items[i].productExt, pick);
    }
  }

  lemma PutOrderGood(s: Store, o: Order, customer: Option<Id>)
    requires Good(s) && (customer.Some? ==> HasId(s.customers, customer.value))
    ensures Good(PutOrder(s, o, customer))
  {
    hide Put, Mapped, LinesIn, LinesOwned, HasId, TableOk, NextAfter;
    var w := Write(OrderKey(o), OrderColumns(o), customer);
    PutOk(s.orders, w, s.next);
    NextGrows(s.orders, OrderKey(o), s.next);
    LaterOk(s, NextAfter(s.orders, OrderKey(o), s.next));
    PutParents(s.orders, w, s.next, s.customers);
    GrowsKeeps(s.orders, PutOrder(s, o, customer).orders);
    MappedGrows(s, PutOrder(s, o, customer));
  }

  lemma SetLinesGood(s: Store, id: Id, items: seq<LineItem>, pick: set<Id> -> Id)
    requires Good(s) && Picks(pick) && HasId(s.orders, id)
    ensures Good(SetLines(s, id, LinesOf(s.products, items, pick)))
  {
    hide Picks, TableOk, ParentsIn, HasId;
    LinesGood(s.products, items, pick);
    MappedGrows(s, SetLines(s, id, LinesOf(s.products, items, pick)));
    hide LinesOf, Mapped;
  }

  lemma UpsertOrderGood(s: Store, o: Order, pick: set<Id> -> Id)
    requires Good(s) && Picks(pick)
    ensures Good(UpsertOrder(s, o, pick))
  {
    hide Good, Picks;
    var customer := Resolve(s.customers, o.customerExt, pick);
    ResolvesTo(s.customers, o.customerExt, pick);
    assert customer.Some? ==> HasId(s.customers, customer.value);
    hide Resolve;
    var s1 := PutOrder(s, o, customer);
    PutOrderGood(s, o, customer);
    var id := s1.orders[OrderKey(o)].id;
    assert HasId(s1.orders, id);
    SetLinesGood(s1, id, o.items, pick);
    MapExternalGood(SetLines(s1, id, LinesOf(s.products, o.items, pick)), "order", o.ext, map[], id);
  }

  // ---- The writes of a listing --------------------------------------------------------------------

  function IdAt(t: Index, k: Key): Id {
    if k in t then t[k].id else 0
  }

  function ProductWrites(ps: seq<Product>): seq<Write> {
    if ps == [] then []
    else
      var p := ps[|ps| - 1];
      ProductWrites(ps[..|ps| - 1]) + [Write(ProductKey(p), p.columns, None)]
  }

  function VariantsOf(product: Id, variants: seq<Variant>): seq<Write> {
    if variants == [] then []
    else
      var v := variants[|variants| - 1];
      VariantsOf(product, variants[..|variants| - 1]) + [Write(Key("", v.ext), v.columns, Some(product))]
  }

  function VariantWrites(products: Index, ps: seq<Product>): seq<Write> {
    if ps == [] then []
    else
      var p := ps[|ps| - 1];
      VariantWrites(products, ps[..|ps| - 1]) + VariantsOf(IdAt(products, ProductKey(p)), p.variants)
  }

  function ProductMappings(products: Index, ps: seq<Product>): seq<Write> {
    if ps == [] then []
    else
      var p := ps[|ps| - 1];
      ProductMappings(products, ps[..|ps| - 1]) + [Write(Key("product", p.ext), p.graphql, Some(IdAt(products, ProductKey(p))))]
  }

  function CustomerWrites(cs: seq<Customer>): seq<Write> {
    if cs == [] then []
    else
      var c := cs[|cs| - 1];
      CustomerWrites(cs[..|cs| - 1]) + [Write(CustomerKey(c), c.columns, None)]
  }

  function CustomerMappings(customers: Index, cs: seq<Customer>): seq<Write> {
    if cs == [] then []
    else
      var c := cs[|cs| - 1];
      CustomerMappings(customers, cs[..|cs| - 1]) + [Write(Key("customer", c.ext), map[], Some(IdAt(customers, CustomerKey(c))))]
  }

  function OrderWrites(customers: Index, os: seq<Order>, pick: set<Id> -> Id): seq<Write> {
    if os == [] then []
    else
      var o := os[|os| - 1];
      OrderWrites(customers, os[..|os| - 1], pick) + [Write(OrderKey(o), OrderColumns(o), Resolve(customers, o.customerExt, pick))]
  }

  function OrderMappings(orders: Index, os: seq<Order>): seq<Write> {
    if os == [] then []
    else
      var o := os[|os| - 1];
      OrderMappings(orders, os[..|os| - 1]) + [Write(Key("order", o.ext), map[], Some(IdAt(orders, OrderKey(o))))]
  }

  function MappingWrites(s: Store, l: Listing): seq<Write> {
    ProductMappings(s.products, l.products) + CustomerMappings(s.customers, l.customers) + OrderMappings(s.orders, l.orders)
  }

  /** The last order listed under a key. */
  function LastOrder(os: seq<Order>, k: Key): Option<Order> {
    if os == [] then None
    else if OrderKey(os[|os| - 1]) == k then Some(os[|os| - 1]) else LastOrder(os[..|os| - 1], k)
  }

  /** The lines of a listed order are those of its last listing; other orders keep theirs. */
  ghost predicate LinesAt(s0: Store, os: seq<Order>, s: Store, k: Key, pick: set<Id> -> Id) {
    k in s.orders ==>
      match LastOrder(os, k)
      case Some(o) => s.orders[k].id in s.lines && s.lines[s.orders[k].id] == LinesOf(s.products, o.items, pick)
      case None => (s.orders[k].id in s.lines <==> s.orders[k].id in s0.lines)
                   && (s.orders[k].id in s.lines ==> s.lines[s.orders[k].id] == s0.lines[s.orders[k].id])
  }

  ghost predicate LinesApplied(s0: Store, os: seq<Order>, s: Store, pick: set<Id> -> Id) {
    forall k :: LinesAt(s0, os, s, k, pick)
  }

  /** From `s0` the listing has made `s`. */
  ghost predicate Synced(s0: Store, l: Listing, s: Store, pick: set<Id> -> Id) {
    && Applied(s0.products, ProductWrites(l.products), s.products)
    && Applied(s0.variants, VariantWrites(s.products, l.products), s.variants)
    && Applied(s0.customers, CustomerWrites(l.customers), s.customers)
    && Applied(s0.orders, OrderWrites(s.customers, l.orders, pick), s.orders)
    && Applied(s0.mappings, MappingWrites(s, l), s.mappings)
    && LinesApplied(s0, l.orders, s, pick)
  }

  lemma NothingSynced(s: Store, pick: set<Id> -> Id)
    ensures Synced(s, Listing([], [], []), s, pick)
  {
    NothingApplied(s.products);
    NothingApplied(s.variants);
    NothingApplied(s.customers);
    NothingApplied(s.orders);
    NothingApplied(s.mappings);
  }

  // ---- Phase by phase ---------------------------------------------------------------------------------

  lemma {:induction false} ProductKeysWritten(t: Index, ps: seq<Product>, t': Index)
    requires Applied(t, ProductWrites(ps), t')
    ensures forall p | p in ps :: ProductKey(p) in t'
  {
    ProductKeysIn(ps);
    forall p | p in ps ensures ProductKey(p) in t' {
      assert AppliedAt(t, ProductWrites(ps), t', ProductKey(p));
    }
  }

  lemma {:induction false} ProductKeysIn(ps: seq<Product>)
    ensures forall p | p in ps :: ProductKey(p) in Keys(ProductWrites(ps))
  {
    if ps != [] {
      var before, p := ps[..|ps| - 1], ps[|ps| - 1];
      ProductKeysIn(before);
      KeysStep(ProductWrites(before), Write(ProductKey(p), p.columns, None));
      assert forall q | q in ps :: q in before || q == p;
    }
  }

  lemma {:induction false} SameProductIds(products: Index, products': Index, ps: seq<Product>)
    requires Grows(products, products') && forall p | p in ps :: ProductKey(p) in products
    ensures VariantWrites(products', ps) == VariantWrites(products, ps)
    ensures ProductMappings(products', ps) == ProductMappings(products, ps)
  {
    if ps != [] {
      SameProductIds(products, products', ps[..|ps| - 1]);
      assert ps[|ps| - 1] in ps;
    }
  }

  lemma {:induction false} VariantsApplied(t: Index, ws: seq<Write>, s: Store, product: Id, variants: seq<Variant>)
    requires Applied(t, ws, s.variants)
    ensures Applied(t, ws + VariantsOf(product, variants), PutVariants(s, product, variants).variants)
    ensures PutVariants(s, product, variants) == s.(variants := PutVariants(s, product, variants).variants,
                                                    next := PutVariants(s, product, variants).next)
  {
    hide Applied, Put;
    if variants == [] {
      assert ws + VariantsOf(product, variants) == ws;
    } else {
      var before, v := variants[..|variants| - 1], variants[|variants| - 1];
      var s1, w := PutVariants(s, product, before), Write(Key("", v.ext), v.columns, Some(product));
      VariantsApplied(t, ws, s, product, before);
      AppliedStep(t, ws + VariantsOf(product, before), s1.variants, w, s1.next);
      assert ws + VariantsOf(product, variants) == ws + VariantsOf(product, before) + [w];
    }
  }

  lemma PutGrows(t: Index, w: Write, next: Id)
    ensures Grows(t, Put(t, w, next)) && Put(t, w, next).Keys == t.Keys + {w.key}
  {
  }

  /** One more product: each of the three tables it touches receives its writes at the end. */
  lemma ProductStep(s0: Store, ps: seq<Product>, s: Store, p: Product, pick: set<Id> -> Id)
    requires Synced(s0, Listing(ps, [], []), s, pick)
    ensures Synced(s0, Listing(ps + [p], [], []), UpsertProduct(s, p), pick)
  {
    assert (ps + [p])[..|ps|] == ps;
    var s1 := PutProduct(s, p);
    var id := s1.products[ProductKey(p)].id;
    var s2 := PutVariants(s1, id, p.variants);
    var s3 := MapExternal(s2, "product", p.ext, p.graphql, id);
    hide Applied, LinesApplied, Put, Grows, NextAfter;
    PutGrows(s.products, Write(ProductKey(p), p.columns, None), s.next);
    ProductKeysWritten(s0.products, ps, s.products);
    SameProductIds(s.products, s1.products, ps);
    AppliedStep(s0.products, ProductWrites(ps), s.products, Write(ProductKey(p), p.columns, None), s.next);
    VariantsApplied(s0.variants, VariantWrites(s1.products, ps), s1, id, p.variants);
    var w := Write(Key("product", p.ext), p.graphql, Some(id));
    AppliedStep(s0.mappings, MappingWrites(s, Listing(ps, [], [])), s.mappings, w, s2.next);
    assert MappingWrites(s3, Listing(ps + [p], [], [])) == MappingWrites(s, Listing(ps, [], [])) + [w];
    LinesUntouched(s0, s, s3, pick);
  }

  lemma LinesUntouched(s0: Store, s: Store, s': Store, pick: set<Id> -> Id)
    requires LinesApplied(s0, [], s, pick) && s'.orders == s.orders && s'.lines == s.lines
    ensures LinesApplied(s0, [], s', pick)
  {
    forall k ensures LinesAt(s0, [], s', k, pick) {
      assert LinesAt(s0, [], s, k, pick);
    }
  }

  lemma {:induction false} SameCustomerIds(customers: Index, customers': Index, cs: seq<Customer>)
    requires Grows(customers, customers') && forall c | c in cs :: CustomerKey(c) in customers
    ensures CustomerMappings(customers', cs) == CustomerMappings(customers, cs)
  {
    if cs != [] {
      SameCustomerIds(customers, customers', cs[..|cs| - 1]);
      assert cs[|cs| - 1] in cs;
    }
  }

  lemma {:induction false} CustomerKeysIn(cs: seq<Customer>)
    ensures forall c | c in cs :: CustomerKey(c) in Keys(CustomerWrites(cs))
  {
    if cs != [] {
      var before, c := cs[..|cs| - 1], cs[|cs| - 1];
      CustomerKeysIn(before);
      KeysStep(CustomerWrites(before), Write(CustomerKey(c), c.columns, None));
      assert forall d | d in cs :: d in before || d == c;
    }
  }

  lemma {:induction false} CustomerKeysWritten(t: Index, cs: seq<Customer>, t': Index)
    requires Applied(t, CustomerWrites(cs), t')
    ensures forall c | c in cs :: CustomerKey(c) in t'
  {
    CustomerKeysIn(cs);
    forall c | c in cs ensures CustomerKey(c) in t' {
      assert AppliedAt(t, CustomerWrites(cs), t', CustomerKey(c));
    }
  }

  lemma CustomerStep(s0: Store, ps: seq<Product>, cs: seq<Customer>, s: Store, c: Customer, pick: set<Id> -> Id)
    requires Synced(s0, Listing(ps, cs, []), s, pick)
    ensures Synced(s0, Listing(ps, cs + [c], []), UpsertCustomer(s, c), pick)
  {
    assert (cs + [c])[..|cs|] == cs;
    var s1 := PutCustomer(s, c);
    var id := s1.customers[CustomerKey(c)].id;
    var s2 := MapExternal(s1, "customer", c.ext, map[], id);
    hide Applied, LinesApplied, Put, Grows, NextAfter;
    PutGrows(s.customers, Write(CustomerKey(c), c.columns, None), s.next);
    CustomerKeysWritten(s0.customers, cs, s.customers);
    SameCustomerIds(s.customers, s1.customers, cs);
    AppliedStep(s0.customers, CustomerWrites(cs), s.customers, Write(CustomerKey(c), c.columns, None), s.next);
    var w := Write(Key("customer", c.ext), map[], Some(id));
    AppliedStep(s0.mappings, MappingWrites(s, Listing(ps, cs, [])), s.mappings, w, s1.next);
    assert MappingWrites(s2, Listing(ps, cs + [c], [])) == MappingWrites(s, Listing(ps, cs, [])) + [w];
    LinesUntouched(s0, s, s2, pick);
  }

  lemma {:induction false} SameOrderIds(orders: Index, orders': Index, os: seq<Order>)
    requires Grows(orders, orders') && forall o | o in os :: OrderKey(o) in orders
    ensures OrderMappings(orders', os) == OrderMappings(orders, os)
  {
    if os != [] {
      SameOrderIds(orders, orders', os[..|os| - 1]);
      assert os[|os| - 1] in os;
    }
  }

  lemma {:induction false} OrderKeysIn(customers: Index, os: seq<Order>, pick: set<Id> -> Id)
    ensures forall k :: k in Keys(OrderWrites(customers, os, pick)) <==> LastOrder(os, k).Some?
    ensures forall o | o in os :: OrderKey(o) in Keys(OrderWrites(customers, os, pick))
    ensures forall k :: LastParent(OrderWrites(customers, os, pick), k) ==
              match LastOrder(os, k) case Some(o) => Resolve(customers, o.customerExt, pick) case None => None
  {
    if os != [] {
      hide Resolve, OrderColumns;
      var before, o := os[..|os| - 1], os[|os| - 1];
      var w := Write(OrderKey(o), OrderColumns(o), Resolve(customers, o.customerExt, pick));
      OrderKeysIn(customers, before, pick);
      KeysStep(OrderWrites(customers, before, pick), w);
      forall k {
        MergedStep(OrderWrites(customers, before, pick), w, k);
      }
      assert forall q | q in os :: q in before || q == o;
    }
  }

  lemma {:induction false} OrderKeysWritten(t: Index, customers: Index, os: seq<Order>, pick: set<Id> -> Id, t': Index)
    requires Applied(t, OrderWrites(customers, os, pick), t')
    ensures forall o | o in os :: OrderKey(o) in t'
  {
    OrderKeysIn(customers, os, pick);
    forall o | o in os ensures OrderKey(o) in t' {
      assert AppliedAt(t, OrderWrites(customers, os, pick), t', OrderKey(o));
    }
  }

  lemma OrderLines(s0: Store, os: seq<Order>, s: Store, o: Order, s': Store, pick: set<Id> -> Id)
    requires LinesApplied(s0, os, s, pick) && TableOk(s'.orders, s'.next) && s'.products == s.products
    requires OrderKey(o) in s'.orders && Grows(s.orders, s'.orders) && s'.orders.Keys == s.orders.Keys + {OrderKey(o)}
    requires s'.lines == s.lines[s'.orders[OrderKey(o)].id := LinesOf(s.products, o.items, pick)]
    ensures LinesApplied(s0, os + [o], s', pick)
  {
    hide LinesOf;
    assert (os + [o])[..|os|] == os;
    forall k ensures LinesAt(s0, os + [o], s', k, pick) {
      assert LinesAt(s0, os, s, k, pick);
    }
  }

  lemma OrderFrame(s: Store, o: Order, pick: set<Id> -> Id)
    ensures var (w, s') := (Write(OrderKey(o), OrderColumns(o), Resolve(s.customers, o.customerExt, pick)), UpsertOrder(s, o, pick));
            && s' == s.(orders := s'.orders, mappings := s'.mappings, lines := s'.lines, next := s'.next)
            && s'.orders == Put(s.orders, w, s.next)
            && s'.lines == s.lines[s'.orders[OrderKey(o)].id := LinesOf(s.products, o.items, pick)]
            && s'.mappings == Put(s.mappings, Write(Key("order", o.ext), map[], Some(s'.orders[OrderKey(o)].id)),
                                  NextAfter(s.orders, OrderKey(o), s.next))
  {
    hide Resolve, LinesOf, OrderColumns;
  }

  lemma OrderMappingStep(s0: Store, l: Listing, s: Store, o: Order, pick: set<Id> -> Id)
    requires Applied(s0.orders, OrderWrites(s.customers, l.orders, pick), s.orders)
    requires Applied(s0.mappings, MappingWrites(s, l), s.mappings)
    ensures var s' := UpsertOrder(s, o, pick);
            Applied(s0.mappings, MappingWrites(s', l.(orders := l.orders + [o])), s'.mappings)
  {
    hide Applied, Grows, UpsertOrder, LinesOf, Resolve, OrderColumns, NextAfter, OrderWrites, MappingWrites;
    var os, s' := l.orders, UpsertOrder(s, o, pick);
    OrderFrame(s, o, pick);
    PutGrows(s.orders, Write(OrderKey(o), OrderColumns(o), Resolve(s.customers, o.customerExt, pick)), s.next);
    OrderKeysWritten(s0.orders, s.customers, os, pick, s.orders);
    MoreMappings(s, s', l, o);
    hide Put;
    var m := Write(Key("order", o.ext), map[], Some(s'.orders[OrderKey(o)].id));
    AppliedStep(s0.mappings, MappingWrites(s, l), s.mappings, m, NextAfter(s.orders, OrderKey(o), s.next));
  }

  lemma MoreMappings(s: Store, s': Store, l: Listing, o: Order)
    requires s'.products == s.products && s'.customers == s.customers && Grows(s.orders, s'.orders)
    requires (forall x | x in l.orders :: OrderKey(x) in s.orders) && OrderKey(o) in s'.orders
    ensures MappingWrites(s', l.(orders := l.orders + [o]))
         == MappingWrites(s, l) + [Write(Key("order", o.ext), map[], Some(s'.orders[OrderKey(o)].id))]
  {
    SameOrderIds(s.orders, s'.orders, l.orders);
    assert (l.orders + [o])[..|l.orders|] == l.orders;
    hide ProductMappings, CustomerMappings, Grows;
  }

  lemma OrderLinesStep(s0: Store, os: seq<Order>, s: Store, o: Order, pick: set<Id> -> Id)
    requires LinesApplied(s0, os, s, pick) && Good(s) && Picks(pick)
    ensures LinesApplied(s0, os + [o], UpsertOrder(s, o, pick), pick)
  {
    hide Good, Picks, LinesApplied, UpsertOrder, LinesOf, Resolve, OrderColumns, NextAfter, TableOk, Put, Grows;
    var s' := UpsertOrder(s, o, pick);
    UpsertOrderGood(s, o, pick);
    GoodOrders(s');
    OrderFrame(s, o, pick);
    PutGrows(s.orders, Write(OrderKey(o), OrderColumns(o), Resolve(s.customers, o.customerExt, pick)), s.next);
    OrderLines(s0, os, s, o, s', pick);
  }

  lemma OrderStep(s0: Store, l: Listing, s: Store, o: Order, pick: set<Id> -> Id)
    requires Synced(s0, l, s, pick) && Good(s) && Picks(pick)
    ensures Synced(s0, l.(orders := l.orders + [o]), UpsertOrder(s, o, pick), pick)
  {
    hide Good, Picks, Applied, LinesApplied, UpsertOrder, LinesOf, Resolve, OrderColumns, NextAfter, MappingWrites;
    var w := Write(OrderKey(o), OrderColumns(o), Resolve(s.customers, o.customerExt, pick));
    assert (l.orders + [o])[..|l.orders|] == l.orders;
    OrderLinesStep(s0, l.orders, s, o, pick);
    OrderMappingStep(s0, l, s, o, pick);
    OrderFrame(s, o, pick);
    AppliedStep(s0.orders, OrderWrites(s.customers, l.orders, pick), s.orders, w, s.next);
  }

  lemma GoodOrders(s: Store)
    requires Good(s)
    ensures TableOk(s.orders, s.next)
  {
  }

  // ---- The whole sync ----------------------------------------------------------------------------------

  lemma {:induction false} SyncProductsTrace(s: Store, ps: seq<Product>, pick: set<Id> -> Id)
    requires Good(s)
    ensures Good(SyncProducts(s, ps)) && Synced(s, Listing(ps, [], []), SyncProducts(s, ps), pick)
  {
    hide Good, Synced;
    if ps == [] {
      NothingSynced(s, pick);
    } else {
      var before, p := ps[..|ps| - 1], ps[|ps| - 1];
      assert ps == before + [p];
      SyncProductsTrace(s, before, pick);
      UpsertProductGood(SyncProducts(s, before), p);
      ProductStep(s, before, SyncProducts(s, before), p, pick);
    }
  }

  lemma {:induction false} SyncCustomersTrace(s0: Store, ps: seq<Product>, s: Store, cs: seq<Customer>, pick: set<Id> -> Id)
    requires Good(s) && Synced(s0, Listing(ps, [], []), s, pick)
    ensures Good(SyncCustomers(s, cs)) && Synced(s0, Listing(ps, cs, []), SyncCustomers(s, cs), pick)
  {
    hide Good, Synced;
    if cs != [] {
      var before, c := cs[..|cs| - 1], cs[|cs| - 1];
      assert cs == before + [c];
      SyncCustomersTrace(s0, ps, s, before, pick);
      UpsertCustomerGood(SyncCustomers(s, before), c);
      CustomerStep(s0, ps, before, SyncCustomers(s, before), c, pick);
    }
  }

  lemma {:induction false} SyncOrdersTrace(s0: Store, l: Listing, s: Store, os: seq<Order>, pick: set<Id> -> Id)
    requires Good(s) && Synced(s0, l.(orders := []), s, pick) && Picks(pick)
    ensures Good(SyncOrders(s, os, pick)) && Synced(s0, l.(orders := os), SyncOrders(s, os, pick), pick)
  {
    hide Good, Synced, Picks;
    if os != [] {
      var before, o := os[..|os| - 1], os[|os| - 1];
      assert os == before + [o];
      SyncOrdersTrace(s0, l, s, before, pick);
      UpsertOrderGood(SyncOrders(s, before, pick), o, pick);
      OrderStep(s0, l.(orders := before), SyncOrders(s, before, pick), o, pick);
    }
  }

  /** A sync keeps ids distinct, references live and mappings on target, and its effect on every table
      is that of the writes of the listing. */
  lemma FullSyncTrace(s: Store, l: Listing, pick: set<Id> -> Id)
    requires Good(s) && Picks(pick)
    ensures Good(FullSync(s, l, pick)) && Synced(s, l, FullSync(s, l, pick), pick)
  {
    hide Good, Synced, Picks;
    SyncProductsTrace(s, l.products, pick);
    SyncCustomersTrace(s, l.products, SyncProducts(s, l.products), l.customers, pick);
    SyncOrdersTrace(s, l, SyncCustomers(SyncProducts(s, l.products), l.customers), l.orders, pick);
    assert l.(orders := l.orders) == l;
  }
}
