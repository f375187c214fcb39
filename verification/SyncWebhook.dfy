/** A webhook for a listed order, followed by the sync, leaves what the sync alone leaves, up to ids. */
module SyncWebhook {
  import opened Tables
  import opened Sync
  import opened SyncTrace
  import opened SyncLaws

  // ---- Tables that are alike up to ids ------------------------------------------------------------

  ghost function KeyWith(t: Index, id: Option<Id>): Option<Key> {
    if id.Some? && HasId(t, id.value) then
      var k :| k in t && t[k].id == id.value;
      Some(k)
    else None
  }

  lemma KeyWithId(t: Index, next: Id, k: Key)
    requires TableOk(t, next) && k in t
    ensures KeyWith(t, Some(t[k].id)) == Some(k)
  {
    assert HasId(t, t[k].id);
  }

  /** The same keys and columns, and parents with the same key in the table they belong to. */
  ghost predicate RowAlike(t: Index, t': Index, p: Index, p': Index, k: Key) {
    && (k in t <==> k in t')
    && (k in t && k in t' ==> t[k].columns == t'[k].columns && KeyWith(p, t[k].parent) == KeyWith(p', t'[k].parent))
  }

  ghost predicate LineAlike(a: Line, b: Line, products: Index, products': Index) {
    a.columns == b.columns && a.productType == b.productType && KeyWith(products, a.product) == KeyWith(products', b.product)
  }

  ghost predicate LinesAlike(a: Store, b: Store, k: Key) {
    k in a.orders && k in b.orders ==>
      var (i, j) := (a.orders[k].id, b.orders[k].id);
      && (i in a.lines <==> j in b.lines)
      && (i in a.lines && j in b.lines ==>
            && |a.lines[i]| == |b.lines[j]|
            && forall n | 0 <= n < |a.lines[i]| :: LineAlike(a.lines[i][n], b.lines[j][n], a.products, b.products))
  }

  ghost predicate Alike(a: Store, b: Store) {
    && (forall k :: RowAlike(a.products, b.products, map[], map[], k))
    && (forall k :: RowAlike(a.variants, b.variants, a.products, b.products, k))
    && (forall k :: RowAlike(a.customers, b.customers, map[], map[], k))
    && (forall k :: RowAlike(a.orders, b.orders, a.customers, b.customers, k))
    && (forall k: Key :: RowAlike(a.mappings, b.mappings, TableFor(a, k.source), TableFor(b, k.source), k))
    && (forall k :: LinesAlike(a, b, k))
  }

  // ---- Writes that differ only in the ids they mention -----------------------------------------------

  /** Key by key and column by column the same writes, to parents with the same key. */
  ghost predicate Parallel(ws: seq<Write>, ws': seq<Write>, a: Store, b: Store, mapping: bool) {
    && |ws| == |ws'|
    && forall i | 0 <= i < |ws| ::
         && ws[i].key == ws'[i].key && ws[i].columns == ws'[i].columns
         && KeyWith(if mapping then TableFor(a, ws[i].key.source) else a.products, ws[i].parent)
            == KeyWith(if mapping then TableFor(b, ws[i].key.source) else b.products, ws'[i].parent)
  }

  function ParentTable(s: Store, mapping: bool, k: Key): Index {
    if mapping then TableFor(s, k.source) else s.products
  }

  lemma {:induction false} ParallelEffect(ws: seq<Write>, ws': seq<Write>, a: Store, b: Store, mapping: bool, k: Key)
    requires Parallel(ws, ws', a, b, mapping)
    ensures k in Keys(ws) <==> k in Keys(ws')
    ensures Merged(ws, k) == Merged(ws', k)
    ensures k in Keys(ws) ==>
              KeyWith(ParentTable(a, mapping, k), LastParent(ws, k)) == KeyWith(ParentTable(b, mapping, k), LastParent(ws', k))
  {
    hide KeyWith, TableFor;
    if ws != [] {
      var before, before', w, w' := ws[..|ws| - 1], ws'[..|ws| - 1], ws[|ws| - 1], ws'[|ws| - 1];
      assert ws == before + [w] && ws' == before' + [w'];
      ParallelEffect(before, before', a, b, mapping, k);
      KeysStep(before, w);
      KeysStep(before', w');
      MergedStep(before, w, k);
      MergedStep(before', w', k);
      hide Keys, Merged, LastParent;
    } else {
      assert Keys(ws) == {} && Keys(ws') == {};
    }
  }

  /** The same ids as keys of the two tables. */
  ghost predicate SameKeyed(t: Index, t': Index) {
    t.Keys == t'.Keys && forall k | k in t :: KeyWith(t, Some(t[k].id)) == Some(k) && KeyWith(t', Some(t'[k].id)) == Some(k)
  }

  ghost predicate AllSameKeyed(a: Store, b: Store) {
    SameKeyed(a.products, b.products) && SameKeyed(a.customers, b.customers) && SameKeyed(a.orders, b.orders)
  }

  lemma ParallelAppend(ws: seq<Write>, ws': seq<Write>, us: seq<Write>, us': seq<Write>, a: Store, b: Store, mapping: bool)
    requires Parallel(ws, ws', a, b, mapping) && Parallel(us, us', a, b, mapping)
    ensures Parallel(ws + us, ws' + us', a, b, mapping)
  {
  }

  lemma {:induction false} VariantsParallel(a: Store, b: Store, k: Key, variants: seq<Variant>)
    requires SameKeyed(a.products, b.products) && k in a.products
    ensures Parallel(VariantsOf(IdAt(a.products, k), variants), VariantsOf(IdAt(b.products, k), variants), a, b, false)
  {
    hide KeyWith;
    if variants != [] {
      VariantsParallel(a, b, k, variants[..|variants| - 1]);
    }
  }

  lemma {:induction false} VariantWritesParallel(a: Store, b: Store, ps: seq<Product>)
    requires SameKeyed(a.products, b.products) && forall p | p in ps :: ProductKey(p) in a.products
    ensures Parallel(VariantWrites(a.products, ps), VariantWrites(b.products, ps), a, b, false)
  {
    hide KeyWith, SameKeyed, IdAt;
    if ps != [] {
      var before, p := ps[..|ps| - 1], ps[|ps| - 1];
      assert p in ps;
      VariantWritesParallel(a, b, before);
      VariantsParallel(a, b, ProductKey(p), p.variants);
      ParallelAppend(VariantWrites(a.products, before), VariantWrites(b.products, before),
                     VariantsOf(IdAt(a.products, ProductKey(p)), p.variants), VariantsOf(IdAt(b.products, ProductKey(p)), p.variants), a, b, false);
      hide Parallel;
    }
  }

  lemma {:induction false} ProductMappingsParallel(a: Store, b: Store, ps: seq<Product>)
    requires SameKeyed(a.products, b.products) && forall p | p in ps :: ProductKey(p) in a.products
    ensures Parallel(ProductMappings(a.products, ps), ProductMappings(b.products, ps), a, b, true)
  {
    hide KeyWith;
    if ps != [] {
      assert ps[|ps| - 1] in ps;
      ProductMappingsParallel(a, b, ps[..|ps| - 1]);
    }
  }

  lemma {:induction false} CustomerMappingsParallel(a: Store, b: Store, cs: seq<Customer>)
    requires SameKeyed(a.customers, b.customers) && forall c | c in cs :: CustomerKey(c) in a.customers
    ensures Parallel(CustomerMappings(a.customers, cs), CustomerMappings(b.customers, cs), a, b, true)
  {
    hide KeyWith;
    if cs != [] {
      assert cs[|cs| - 1] in cs;
      CustomerMappingsParallel(a, b, cs[..|cs| - 1]);
    }
  }

  lemma {:induction false} OrderMappingsParallel(a: Store, b: Store, os: seq<Order>)
    requires SameKeyed(a.orders, b.orders) && forall o | o in os :: OrderKey(o) in a.orders
    ensures Parallel(OrderMappings(a.orders, os), OrderMappings(b.orders, os), a, b, true)
  {
    hide KeyWith;
    if os != [] {
      assert os[|os| - 1] in os;
      OrderMappingsParallel(a, b, os[..|os| - 1]);
    }
  }

  // ---- One listing, two sets of ids --------------------------------------------------------------------

  /** What two syncs of the same store with the same listing have made of it. */
  ghost predicate Twins(s: Store, l: Listing, a: Store, pick: set<Id> -> Id, b: Store, pick': set<Id> -> Id) {
    && Good(s) && Good(a) && Good(b) && Picks(pick) && Picks(pick') && Settled(s, l)
    && Synced(s, l, a, pick) && Synced(s, l, b, pick')
  }

  /** Written without references, a table comes out alike. */
  lemma SameContent(t: Index, ws: seq<Write>, a: Index, b: Index, k: Key)
    requires Applied(t, ws, a) && Applied(t, ws, b)
    ensures RowAlike(a, b, map[], map[], k)
    ensures k in t ==> k in a && k in b && a[k].id == b[k].id == t[k].id
  {
    hide Keys, Merged, LastParent;
    assert AppliedAt(t, ws, a, k) && AppliedAt(t, ws, b, k);
  }

  lemma ContentKeyed(t: Index, ws: seq<Write>, a: Index, b: Index, next: Id, next': Id)
    requires Applied(t, ws, a) && Applied(t, ws, b) && TableOk(a, next) && TableOk(b, next')
    ensures SameKeyed(a, b) && Grows(t, a) && Grows(t, b)
  {
    forall k ensures (k in a <==> k in b) && (k in t ==> k in a && k in b && a[k].id == b[k].id == t[k].id) {
      SameContent(t, ws, a, b, k);
      hide Applied;
    }
    forall k | k in a ensures KeyWith(a, Some(a[k].id)) == Some(k) && KeyWith(b, Some(b[k].id)) == Some(k) {
      KeyWithId(a, next, k);
      KeyWithId(b, next', k);
    }
    hide KeyWith, Applied;
  }

  /** A reference to a row from before has the same key on both sides. */
  lemma OldReference(t: Index, a: Index, b: Index, id: Option<Id>)
    requires SameKeyed(a, b) && Grows(t, a) && Grows(t, b) && (id.Some? ==> HasId(t, id.value))
    ensures KeyWith(a, id) == KeyWith(b, id)
  {
    if id.Some? {
      var k :| k in t && t[k].id == id.value;
      assert k in a && a[k].id == id.value && b[k].id == id.value;
      hide KeyWith;
    }
  }

  lemma OrderIds(t: Index, ws: seq<Write>, ws': seq<Write>, a: Index, b: Index)
    requires Applied(t, ws, a) && Applied(t, ws', b) && Keys(ws) == Keys(ws')
    ensures a.Keys == b.Keys && Grows(t, a) && Grows(t, b)
  {
    hide Keys, Merged, LastParent;
    forall k ensures (k in a <==> k in b) && (k in t ==> k in a && k in b && a[k].id == b[k].id == t[k].id) {
      assert AppliedAt(t, ws, a, k) && AppliedAt(t, ws', b, k);
    }
    hide Applied;
  }

  lemma OrderKeyed(s: Store, l: Listing, a: Store, pick: set<Id> -> Id, b: Store, pick': set<Id> -> Id)
    requires Twins(s, l, a, pick, b, pick')
    ensures SameKeyed(a.orders, b.orders) && Grows(s.orders, a.orders) && Grows(s.orders, b.orders)
  {
    var ws, ws' := OrderWrites(a.customers, l.orders, pick), OrderWrites(b.customers, l.orders, pick');
    OrderKeysIn(a.customers, l.orders, pick);
    OrderKeysIn(b.customers, l.orders, pick');
    assert Keys(ws) == Keys(ws');
    hide Picks, Settled, Keys, LastParent, LinesApplied, Resolve, KeyWith, Applied, OrderWrites, Mapped, LinesIn, LinesOwned, ParentsIn;
    OrderIds(s.orders, ws, ws', a.orders, b.orders);
    forall k | k in a.orders ensures KeyWith(a.orders, Some(a.orders[k].id)) == Some(k) && KeyWith(b.orders, Some(b.orders[k].id)) == Some(k) {
      KeyWithId(a.orders, a.next, k);
      KeyWithId(b.orders, b.next, k);
    }
  }

  lemma TwinKeyed(s: Store, l: Listing, a: Store, pick: set<Id> -> Id, b: Store, pick': set<Id> -> Id)
    requires Twins(s, l, a, pick, b, pick')
    ensures AllSameKeyed(a, b)
    ensures Grows(s.products, a.products) && Grows(s.products, b.products)
    ensures Grows(s.customers, a.customers) && Grows(s.customers, b.customers)
    ensures Grows(s.orders, a.orders) && Grows(s.orders, b.orders)
  {
    OrderKeyed(s, l, a, pick, b, pick');
    hide Applied, SameKeyed, Grows, Picks, Settled, LinesApplied, Mapped, ParentsIn, LinesIn, LinesOwned, TableOk;
    ContentKeyed(s.products, ProductWrites(l.products), a.products, b.products, a.next, b.next);
    ContentKeyed(s.customers, CustomerWrites(l.customers), a.customers, b.customers, a.next, b.next);
  }

  /** A reference by external id, resolved on both sides, has the same key when one source has it. */
  lemma ResolvedAlike(a: Index, b: Index, ext: string, pick: set<Id> -> Id, pick': set<Id> -> Id)
    requires SameKeyed(a, b) && OneSource(a.Keys, ext) && Picks(pick) && Picks(pick')
    ensures KeyWith(a, Resolve(a, ext, pick)) == KeyWith(b, Resolve(b, ext, pick'))
    ensures Resolve(a, ext, pick).Some? <==> Resolve(b, ext, pick').Some?
  {
    assert KeyWith(a, None) == None && KeyWith(b, None) == None;
    hide Picks, KeyWith;
    ResolvesTo(a, ext, pick);
    ResolvesTo(b, ext, pick');
    hide Resolve;
    if Resolve(a, ext, pick).Some? {
      var j :| j in a && j.ext == ext && a[j].id == Resolve(a, ext, pick).value;
      var k :| k in b && k.ext == ext && b[k].id == Resolve(b, ext, pick').value;
      assert j == k;
    } else {
      assert Resolve(b, ext, pick').None?;
    }
  }

  lemma OrderAlike(s: Store, l: Listing, a: Store, pick: set<Id> -> Id, b: Store, pick': set<Id> -> Id, k: Key)
    requires Twins(s, l, a, pick, b, pick')
    ensures RowAlike(a.orders, b.orders, a.customers, b.customers, k)
  {
    TwinKeyed(s, l, a, pick, b, pick');
    KeysAfter(s, l, a, pick);
    TwinLines(s, l, a, pick, b, pick', k);
    TwinOrders(s, l, a, pick, b, pick', k);
    hide Twins, Keys, Merged, LastParent, Resolve, KeyWith, OneSource, Picks, SameKeyed, Grows, LinesAt, OrderWrites;
    OrderKeysIn(a.customers, l.orders, pick);
    OrderKeysIn(b.customers, l.orders, pick');
    OrderEffect(a.customers, b.customers, l.orders, pick, pick', k);
    match LastOrder(l.orders, k)
    case Some(o) =>
      ResolvedAlike(a.customers, b.customers, o.customerExt, pick, pick');
    case None =>
      if k in s.orders {
        TwinOldOrder(s, l, a, pick, b, pick', k);
      }
  }

  lemma TwinOrders(s: Store, l: Listing, a: Store, pick: set<Id> -> Id, b: Store, pick': set<Id> -> Id, k: Key)
    requires Twins(s, l, a, pick, b, pick')
    ensures AppliedAt(s.orders, OrderWrites(a.customers, l.orders, pick), a.orders, k)
    ensures AppliedAt(s.orders, OrderWrites(b.customers, l.orders, pick'), b.orders, k)
    ensures Picks(pick) && Picks(pick')
  {
    hide Good, Picks, AppliedAt, OrderWrites, LinesApplied;
  }

  lemma TwinOldOrder(s: Store, l: Listing, a: Store, pick: set<Id> -> Id, b: Store, pick': set<Id> -> Id, k: Key)
    requires Twins(s, l, a, pick, b, pick') && k in s.orders
    ensures KeyWith(a.customers, s.orders[k].parent) == KeyWith(b.customers, s.orders[k].parent)
  {
    TwinKeyed(s, l, a, pick, b, pick');
    hide KeyWith, SameKeyed, Grows, Synced, Settled, Picks;
    OldReference(s.customers, a.customers, b.customers, s.orders[k].parent);
  }

  lemma VariantAlike(s: Store, l: Listing, a: Store, pick: set<Id> -> Id, b: Store, pick': set<Id> -> Id, k: Key)
    requires Twins(s, l, a, pick, b, pick')
    ensures RowAlike(a.variants, b.variants, a.products, b.products, k)
  {
    TwinKeyed(s, l, a, pick, b, pick');
    hide Settled, Picks, Grows, SameKeyed, LinesApplied, Mapped, TableOk, KeyWith;
    ProductKeysWritten(s.products, l.products, a.products);
    VariantWritesParallel(a, b, l.products);
    var ws, ws' := VariantWrites(a.products, l.products), VariantWrites(b.products, l.products);
    ParallelEffect(ws, ws', a, b, false, k);
    hide Keys, Merged, LastParent, Parallel, VariantWrites;
    assert AppliedAt(s.variants, ws, a.variants, k) && AppliedAt(s.variants, ws', b.variants, k);
    if k in s.variants && k !in Keys(ws) {
      OldReference(s.products, a.products, b.products, s.variants[k].parent);
    }
  }

  lemma MappingsParallel(s: Store, l: Listing, a: Store, pick: set<Id> -> Id, b: Store, pick': set<Id> -> Id)
    requires Twins(s, l, a, pick, b, pick')
    ensures Parallel(MappingWrites(a, l), MappingWrites(b, l), a, b, true)
  {
    TwinKeyed(s, l, a, pick, b, pick');
    hide Settled, Picks, Grows, SameKeyed, LinesApplied, Good, Applied, Parallel;
    ProductKeysWritten(s.products, l.products, a.products);
    CustomerKeysWritten(s.customers, l.customers, a.customers);
    OrderKeysWritten(s.orders, a.customers, l.orders, pick, a.orders);
    ProductMappingsParallel(a, b, l.products);
    CustomerMappingsParallel(a, b, l.customers);
    OrderMappingsParallel(a, b, l.orders);
    ParallelAppend(ProductMappings(a.products, l.products), ProductMappings(b.products, l.products),
                   CustomerMappings(a.customers, l.customers), CustomerMappings(b.customers, l.customers), a, b, true);
    ParallelAppend(ProductMappings(a.products, l.products) + CustomerMappings(a.customers, l.customers),
                   ProductMappings(b.products, l.products) + CustomerMappings(b.customers, l.customers),
                   OrderMappings(a.orders, l.orders), OrderMappings(b.orders, l.orders), a, b, true);
  }

  lemma MappingAlike(s: Store, l: Listing, a: Store, pick: set<Id> -> Id, b: Store, pick': set<Id> -> Id, k: Key)
    requires Twins(s, l, a, pick, b, pick')
    ensures RowAlike(a.mappings, b.mappings, TableFor(a, k.source), TableFor(b, k.source), k)
  {
    TwinKeyed(s, l, a, pick, b, pick');
    MappingsParallel(s, l, a, pick, b, pick');
    hide Settled, Picks, Grows, SameKeyed, LinesApplied, TableOk, KeyWith;
    var ws, ws' := MappingWrites(a, l), MappingWrites(b, l);
    ParallelEffect(ws, ws', a, b, true, k);
    hide Keys, Merged, LastParent, Parallel, MappingWrites;
    assert AppliedAt(s.mappings, ws, a.mappings, k) && AppliedAt(s.mappings, ws', b.mappings, k);
    if k in s.mappings && k !in Keys(ws) {
      OldMapping(s, a, b, k);
    }
  }

  lemma OldMapping(s: Store, a: Store, b: Store, k: Key)
    requires Mapped(s) && k in s.mappings && AllSameKeyed(a, b)
    requires Grows(s.products, a.products) && Grows(s.products, b.products)
    requires Grows(s.customers, a.customers) && Grows(s.customers, b.customers)
    requires Grows(s.orders, a.orders) && Grows(s.orders, b.orders)
    ensures KeyWith(TableFor(a, k.source), s.mappings[k].parent) == KeyWith(TableFor(b, k.source), s.mappings[k].parent)
  {
    hide KeyWith, Grows, SameKeyed;
    assert Points(s, k, s.mappings[k]);
    OldReference(TableFor(s, k.source), TableFor(a, k.source), TableFor(b, k.source), s.mappings[k].parent);
  }

  lemma LineTypes(s: Store, l: Listing, a: Store, pick: set<Id> -> Id, b: Store, pick': set<Id> -> Id, id: Option<Id>, id': Option<Id>)
    requires Twins(s, l, a, pick, b, pick') && KeyWith(a.products, id) == KeyWith(b.products, id')
    requires (id.Some? ==> HasId(a.products, id.value)) && (id'.Some? ==> HasId(b.products, id'.value))
    ensures TypeOf(a.products, id) == TypeOf(b.products, id')
  {
    var k := KeyWith(a.products, id);
    if k.Some? {
      hide Picks, Settled, Mapped, LinesApplied;
      SameContent(s.products, ProductWrites(l.products), a.products, b.products, k.value);
      TypeWith(a.products, a.next, k.value, id);
      TypeWith(b.products, b.next, k.value, id');
      hide Applied, TableOk;
    }
  }

  lemma TypeWith(products: Index, next: Id, k: Key, id: Option<Id>)
    requires TableOk(products, next) && k in products && id == Some(products[k].id)
    ensures TypeOf(products, id)
         == if "product_type" in products[k].columns then Some(products[k].columns["product_type"]) else None
  {
  }

  lemma ListedLinesAlike(s: Store, l: Listing, a: Store, pick: set<Id> -> Id, b: Store, pick': set<Id> -> Id, o: Order)
    requires Twins(s, l, a, pick, b, pick') && RefersOnce(s, l, o)
    ensures forall n | 0 <= n < |o.items| ::
              LineAlike(LinesOf(a.products, o.items, pick)[n], LinesOf(b.products, o.items, pick')[n], a.products, b.products)
  {
    TwinKeyed(s, l, a, pick, b, pick');
    KeysAfter(s, l, a, pick);
    TwinPicks(s, l, a, pick, b, pick');
    hide Twins, Picks, KeyWith, SameKeyed, Grows, OneSource, Resolve, TypeOf;
    forall n | 0 <= n < |o.items| ensures LineAlike(LinesOf(a.products, o.items, pick)[n], LinesOf(b.products, o.items, pick')[n], a.products, b.products) {
      var ext := o.items[n].productExt;
      ResolvedAlike(a.products, b.products, ext, pick, pick');
      ResolvesTo(a.products, ext, pick);
      ResolvesTo(b.products, ext, pick');
      LineTypes(s, l, a, pick, b, pick', Resolve(a.products, ext, pick), Resolve(b.products, ext, pick'));
    }
  }

  lemma TwinPicks(s: Store, l: Listing, a: Store, pick: set<Id> -> Id, b: Store, pick': set<Id> -> Id)
    requires Twins(s, l, a, pick, b, pick')
    ensures Picks(pick) && Picks(pick')
  {
  }

  lemma OldLinesAlike(s: Store, a: Store, b: Store, id: Id)
    requires LinesIn(s.lines, s.products) && id in s.lines
    requires SameKeyed(a.products, b.products) && Grows(s.products, a.products) && Grows(s.products, b.products)
    ensures forall n | 0 <= n < |s.lines[id]| :: LineAlike(s.lines[id][n], s.lines[id][n], a.products, b.products)
  {
    hide KeyWith, SameKeyed, Grows;
    forall n | 0 <= n < |s.lines[id]| ensures LineAlike(s.lines[id][n], s.lines[id][n], a.products, b.products) {
      OldReference(s.products, a.products, b.products, s.lines[id][n].product);
    }
  }

  lemma OrderLinesAlike(s: Store, l: Listing, a: Store, pick: set<Id> -> Id, b: Store, pick': set<Id> -> Id, k: Key)
    requires Twins(s, l, a, pick, b, pick')
    ensures LinesAlike(a, b, k)
  {
    hide Twins, LineAlike, LinesOf;
    TwinLines(s, l, a, pick, b, pick', k);
    match LastOrder(l.orders, k)
    case Some(o) =>
      ListedLinesAlike(s, l, a, pick, b, pick', o);
    case None =>
      if k in a.orders && k in b.orders {
        UnlistedLinesAlike(s, l, a, pick, b, pick', k);
      }
  }

  lemma {:induction false} TwinLines(s: Store, l: Listing, a: Store, pick: set<Id> -> Id, b: Store, pick': set<Id> -> Id, k: Key)
    requires Twins(s, l, a, pick, b, pick')
    ensures LinesAt(s, l.orders, a, k, pick) && LinesAt(s, l.orders, b, k, pick')
    ensures LastOrder(l.orders, k).Some? ==> RefersOnce(s, l, LastOrder(l.orders, k).value)
  {
    hide Good, Picks, LinesAt, RefersOnce;
  }

  lemma {:induction false} UnlistedLinesAlike(s: Store, l: Listing, a: Store, pick: set<Id> -> Id, b: Store, pick': set<Id> -> Id, k: Key)
    requires Twins(s, l, a, pick, b, pick') && LastOrder(l.orders, k).None? && k in a.orders && k in b.orders
    requires LinesAt(s, l.orders, a, k, pick) && LinesAt(s, l.orders, b, k, pick')
    ensures LinesAlike(a, b, k)
  {
    hide Twins, LineAlike, LinesOf;
    UnlistedOrder(s, l, a, pick, b, pick', k);
    if s.orders[k].id in s.lines {
      TwinOldLines(s, l, a, pick, b, pick', s.orders[k].id);
    }
  }

  lemma TwinOldLines(s: Store, l: Listing, a: Store, pick: set<Id> -> Id, b: Store, pick': set<Id> -> Id, id: Id)
    requires Twins(s, l, a, pick, b, pick') && id in s.lines
    ensures forall n | 0 <= n < |s.lines[id]| :: LineAlike(s.lines[id][n], s.lines[id][n], a.products, b.products)
  {
    TwinKeyed(s, l, a, pick, b, pick');
    hide LineAlike, SameKeyed, Grows, Synced, Settled, Picks;
    OldLinesAlike(s, a, b, id);
  }

  lemma {:induction false} UnlistedOrder(s: Store, l: Listing, a: Store, pick: set<Id> -> Id, b: Store, pick': set<Id> -> Id, k: Key)
    requires Twins(s, l, a, pick, b, pick') && LastOrder(l.orders, k).None? && k in a.orders && k in b.orders
    ensures k in s.orders && a.orders[k].id == b.orders[k].id == s.orders[k].id
  {
    hide Keys, Merged, LastParent, Resolve, Picks, Settled, LinesApplied, Good;
    OrderKeysIn(a.customers, l.orders, pick);
    OrderKeysIn(b.customers, l.orders, pick');
    assert AppliedAt(s.orders, OrderWrites(a.customers, l.orders, pick), a.orders, k);
    assert AppliedAt(s.orders, OrderWrites(b.customers, l.orders, pick'), b.orders, k);
  }

  /** The listing and the store determine the result up to ids. */
  lemma TwinsAlike(s: Store, l: Listing, a: Store, pick: set<Id> -> Id, b: Store, pick': set<Id> -> Id)
    requires Twins(s, l, a, pick, b, pick')
    ensures Alike(a, b)
  {
    forall k ensures RowAlike(a.products, b.products, map[], map[], k) && RowAlike(a.customers, b.customers, map[], map[], k) {
      SameContent(s.products, ProductWrites(l.products), a.products, b.products, k);
      SameContent(s.customers, CustomerWrites(l.customers), a.customers, b.customers, k);
      hide Applied, RowAlike;
    }
    hide Twins, RowAlike, LinesAlike;
    forall k {
      VariantAlike(s, l, a, pick, b, pick', k);
    }
    forall k {
      OrderAlike(s, l, a, pick, b, pick', k);
    }
    forall k {
      MappingAlike(s, l, a, pick, b, pick', k);
    }
    forall k {
      OrderLinesAlike(s, l, a, pick, b, pick', k);
    }
  }

  // ---- The webhook leaves no trace under the sync --------------------------------------------------------

  /** The columns that the listing writes under an order's key. */
  function ListedColumns(os: seq<Order>, k: Key): set<string> {
    if os == [] then {}
    else
      var o := os[|os| - 1];
      ListedColumns(os[..|os| - 1], k) + if OrderKey(o) == k then OrderColumns(o).Keys else {}
  }

  lemma {:induction false} ListedColumnsMerged(customers: Index, os: seq<Order>, pick: set<Id> -> Id, k: Key)
    ensures ListedColumns(os, k) == Merged(OrderWrites(customers, os, pick), k).Keys
  {
    hide Resolve, OrderColumns;
    if os != [] {
      var before, x := os[..|os| - 1], os[|os| - 1];
      var w := Write(OrderKey(x), OrderColumns(x), Resolve(customers, x.customerExt, pick));
      ListedColumnsMerged(customers, before, pick, k);
      MergedStep(OrderWrites(customers, before, pick), w, k);
      hide Merged;
    }
  }

  lemma {:induction false} ListedColumnsOf(os: seq<Order>, x: Order)
    requires x in os
    ensures OrderColumns(x).Keys <= ListedColumns(os, OrderKey(x))
  {
    hide OrderColumns;
    if x != os[|os| - 1] {
      assert x in os[..|os| - 1];
      ListedColumnsOf(os[..|os| - 1], x);
    }
  }

  lemma ListedMapping(s: Store, l: Listing, o: Order)
    requires LastOrder(l.orders, OrderKey(o)).Some?
    ensures Key("order", o.ext) in Keys(MappingWrites(s, l))
  {
    LastOrderListed(l.orders, OrderKey(o));
    OrderMappingKey(s.orders, l.orders, LastOrder(l.orders, OrderKey(o)).value);
    var ws := OrderMappings(s.orders, l.orders);
    var i :| 0 <= i < |ws| && ws[i].key == Key("order", o.ext);
    var n := |ProductMappings(s.products, l.products) + CustomerMappings(s.customers, l.customers)|;
    assert MappingWrites(s, l)[n + i] == ws[i];
  }

  lemma {:induction false} OrderMappingKey(orders: Index, os: seq<Order>, o: Order)
    requires o in os
    ensures Key("order", o.ext) in Keys(OrderMappings(orders, os))
  {
    var before, x := os[..|os| - 1], os[|os| - 1];
    KeysStep(OrderMappings(orders, before), Write(Key("order", x.ext), map[], Some(IdAt(orders, OrderKey(x)))));
    if o != x {
      assert o in before;
      OrderMappingKey(orders, before, o);
    }
  }

  lemma WebhookLines(s: Store, w: Store, l: Listing, o: Order, pickW: set<Id> -> Id, b: Store, pick: set<Id> -> Id)
    requires w == UpsertOrder(s, o, pickW) && LastOrder(l.orders, OrderKey(o)).Some? && Good(w)
    requires LinesApplied(w, l.orders, b, pick) && Grows(w.orders, b.orders)
    requires Applied(w.orders, OrderWrites(b.customers, l.orders, pick), b.orders)
    ensures LinesApplied(s, l.orders, b, pick)
  {
    OrderFrame(s, o, pickW);
    OrderKeysIn(b.customers, l.orders, pick);
    hide LinesOf, UpsertOrder, OrderWrites, Resolve, Mapped, LinesIn, Keys, Merged, LastParent;
    forall k ensures LinesAt(s, l.orders, b, k, pick) {
      assert LinesAt(w, l.orders, b, k, pick);
      assert AppliedAt(w.orders, OrderWrites(b.customers, l.orders, pick), b.orders, k);
    }
  }

  /** The webhook's columns are all listed again, or were the row's own before. */
  ghost predicate Superseded(s: Store, l: Listing, o: Order) {
    Covered(s.orders, Write(OrderKey(o), OrderColumns(o), None), ListedColumns(l.orders, OrderKey(o)))
  }

  lemma WebhookAbsorbed(s: Store, w: Store, l: Listing, o: Order, pickW: set<Id> -> Id, b: Store, pick: set<Id> -> Id)
    requires w == UpsertOrder(s, o, pickW) && LastOrder(l.orders, OrderKey(o)).Some? && Superseded(s, l, o)
    requires Good(w) && Synced(w, l, b, pick)
    ensures Synced(s, l, b, pick)
  {
    OrderFrame(s, o, pickW);
    OrdersGrow(w, l, b, pick);
    WebhookLines(s, w, l, o, pickW, b, pick);
    OrderKeysIn(b.customers, l.orders, pick);
    ListedColumnsMerged(b.customers, l.orders, pick, OrderKey(o));
    ListedMapping(b, l, o);
    hide Good, UpsertOrder, LinesApplied, Applied, OrderWrites, MappingWrites, LinesOf, Put, Keys, Merged, LastParent, OrderColumns;
    var customer := Resolve(s.customers, o.customerExt, pickW);
    var write, mapping := Write(OrderKey(o), OrderColumns(o), customer), Write(Key("order", o.ext), map[], Some(w.orders[OrderKey(o)].id));
    assert Covered(s.orders, write, ListedColumns(l.orders, OrderKey(o)));
    Absorbed(s.orders, write, s.next, OrderWrites(b.customers, l.orders, pick), b.orders);
    assert Covered(s.mappings, mapping, Merged(MappingWrites(b, l), mapping.key).Keys);
    Absorbed(s.mappings, mapping, NextAfter(s.orders, OrderKey(o), s.next), MappingWrites(b, l), b.mappings);
  }

  lemma OrdersGrow(w: Store, l: Listing, b: Store, pick: set<Id> -> Id)
    requires Synced(w, l, b, pick)
    ensures Grows(w.orders, b.orders)
  {
    hide Keys, Merged, LastParent, LinesApplied;
    forall k | k in w.orders ensures k in b.orders && b.orders[k].id == w.orders[k].id {
      assert AppliedAt(w.orders, OrderWrites(b.customers, l.orders, pick), b.orders, k);
    }
  }

  /** The columns of the order after the sync alone, and after the webhook and the sync. */
  lemma {:induction false} OrderColumnsAfter(s: Store, l: Listing, a: Store, pick: set<Id> -> Id, k: Key)
    requires Synced(s, l, a, pick) && LastOrder(l.orders, k).Some?
    ensures k in a.orders && exists m: Columns :: m.Keys == ListedColumns(l.orders, k)
                                && m == Merged(OrderWrites(map[], l.orders, pick), k)
                                && a.orders[k].columns == ColumnsAt(s.orders, k) + m
  {
    hide LinesApplied, Keys, LastParent, Merged;
    OrderKeysIn(a.customers, l.orders, pick);
    ListedColumnsMerged(map[], l.orders, pick, k);
    OrderEffect(map[], a.customers, l.orders, pick, pick, k);
    assert AppliedAt(s.orders, OrderWrites(a.customers, l.orders, pick), a.orders, k);
  }

  lemma OnlySuperseded(s: Store, l: Listing, o: Order, pickW: set<Id> -> Id, a: Store, pick: set<Id> -> Id, b: Store, pick': set<Id> -> Id)
    requires Synced(s, l, a, pick) && Synced(UpsertOrder(s, o, pickW), l, b, pick') && LastOrder(l.orders, OrderKey(o)).Some?
    requires OrderKey(o) in a.orders && OrderKey(o) in b.orders && a.orders[OrderKey(o)].columns == b.orders[OrderKey(o)].columns
    ensures Superseded(s, l, o)
  {
    hide Synced, UpsertOrder, Merged, OrderWrites, OrderColumns, Resolve, LinesOf;
    var k, w := OrderKey(o), UpsertOrder(s, o, pickW);
    OrderColumnsAfter(s, l, a, pick, k);
    OrderColumnsAfter(w, l, b, pick', k);
    OrderFrame(s, o, pickW);
    OrderEffect(map[], map[], l.orders, pick, pick', k);
    var m: Columns :| m.Keys == ListedColumns(l.orders, k) && a.orders[k].columns == ColumnsAt(s.orders, k) + m
                      && m == Merged(OrderWrites(map[], l.orders, pick), k);
    assert b.orders[k].columns == ColumnsAt(w.orders, k) + m;
    assert ColumnsAt(w.orders, k) == ColumnsAt(s.orders, k) + OrderColumns(o);
    forall c | c in OrderColumns(o) && c !in m
      ensures k in s.orders && c in s.orders[k].columns && s.orders[k].columns[c] == OrderColumns(o)[c]
    {
      assert b.orders[k].columns[c] == OrderColumns(o)[c] && a.orders[k].columns[c] == OrderColumns(o)[c];
    }
  }

  /** A webhook for an order that the next sync lists, in whatever version, however its references
      resolved at the time: what is left is the sync's own, up to the ids that were drawn, if and only if
      each of the webhook's columns is listed again or was the row's own before. */
  lemma WebhookThenSyncIff(s: Store, l: Listing, o: Order, pickW: set<Id> -> Id, pick: set<Id> -> Id, pick': set<Id> -> Id)
    requires Good(s) && Settled(s, l) && LastOrder(l.orders, OrderKey(o)).Some? && Picks(pickW) && Picks(pick) && Picks(pick')
    ensures Alike(FullSync(s, l, pick), FullSync(UpsertOrder(s, o, pickW), l, pick')) <==> Superseded(s, l, o)
  {
    hide Good, Settled, Picks, FullSync, UpsertOrder, Synced, Alike, Superseded;
    var w := UpsertOrder(s, o, pickW);
    var a, b := FullSync(s, l, pick), FullSync(w, l, pick');
    UpsertOrderGood(s, o, pickW);
    FullSyncTrace(s, l, pick);
    FullSyncTrace(w, l, pick');
    if Superseded(s, l, o) {
      WebhookAbsorbed(s, w, l, o, pickW, b, pick');
      TwinsAlike(s, l, a, pick, b, pick');
    } else if Alike(a, b) {
      OrderColumnsAfter(s, l, a, pick, OrderKey(o));
      OrderColumnsAfter(w, l, b, pick', OrderKey(o));
      AlikeColumns(a, b, OrderKey(o));
      OnlySuperseded(s, l, o, pickW, a, pick, b, pick');
    }
  }

  lemma AlikeColumns(a: Store, b: Store, k: Key)
    requires Alike(a, b) && k in a.orders && k in b.orders
    ensures a.orders[k].columns == b.orders[k].columns
  {
    assert RowAlike(a.orders, b.orders, a.customers, b.customers, k);
  }

  /** So an earlier version of an order that some listed version covers leaves no trace. */
  lemma WebhookThenSync(s: Store, l: Listing, o: Order, listed: Order, pickW: set<Id> -> Id, pick: set<Id> -> Id, pick': set<Id> -> Id)
    requires Good(s) && Settled(s, l) && Picks(pickW) && Picks(pick) && Picks(pick')
    requires listed in l.orders && OrderKey(listed) == OrderKey(o) && OrderColumns(o).Keys <= OrderColumns(listed).Keys
    ensures Alike(FullSync(s, l, pick), FullSync(UpsertOrder(s, o, pickW), l, pick'))
  {
    hide Good, Settled, Picks, FullSync, UpsertOrder, Alike, OrderColumns;
    OrderKeysIn(map[], l.orders, pick);
    ListedColumnsOf(l.orders, listed);
    hide OrderWrites, Keys, LastParent, ListedColumns;
    assert Superseded(s, l, o);
    WebhookThenSyncIff(s, l, o, pickW, pick, pick');
  }

  /** All orders write the same columns: the service fills one data object for every order, with
      defaults for what an order lacks. */
  ghost predicate SameColumns(orders: seq<Order>, columns: set<string>) {
    forall o | o in orders :: OrderColumns(o).Keys == columns
  }

  /** Then a webhook for a listed order never leaves a trace under the next sync. */
  lemma ServiceWebhookThenSync(s: Store, l: Listing, o: Order, columns: set<string>,
                               pickW: set<Id> -> Id, pick: set<Id> -> Id, pick': set<Id> -> Id)
    requires Good(s) && Settled(s, l) && Picks(pickW) && Picks(pick) && Picks(pick')
    requires SameColumns(l.orders + [o], columns) && LastOrder(l.orders, OrderKey(o)).Some?
    ensures Alike(FullSync(s, l, pick), FullSync(UpsertOrder(s, o, pickW), l, pick'))
  {
    hide Good, Settled, Picks, FullSync, UpsertOrder, Alike, OrderColumns;
    LastOrderListed(l.orders, OrderKey(o));
    var listed := LastOrder(l.orders, OrderKey(o)).value;
    assert listed in l.orders + [o] && o in l.orders + [o];
    WebhookThenSync(s, l, o, listed, pickW, pick, pick');
  }
}
