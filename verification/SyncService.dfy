/** The sync as the service runs it: look a row up by its key, update it or create one, map it. Rows are
    kept by id; that no two share a key is what the look-ups before every create keep true. */
module SyncService {
  import opened Tables
  import opened Sync
  import SyncTrace
  import SyncLaws

  datatype Row = Row(key: Key, columns: Columns, parent: Option<Id>)

  type Table = map<Id, Row>

  predicate Holds(t: Table, id: Id, k: Key) {
    id in t && t[id].key == k
  }

  ghost predicate UniqueKeys(t: Table) {
    forall i, j, k | Holds(t, i, k) && Holds(t, j, k) :: i == j
  }

  ghost predicate Below(t: Table, next: Id) {
    forall id | id in t :: id < next
  }

  function KeySet(t: Table): set<Key> {
    set id | id in t :: t[id].key
  }

  ghost function EntryFor(t: Table, k: Key): (e: Entry)
    requires k in KeySet(t)
    ensures Holds(t, e.id, k) && e == Entry(e.id, t[e.id].columns, t[e.id].parent)
  {
    var id :| id in t && t[id].key == k;
    Entry(id, t[id].columns, t[id].parent)
  }

  /** The table as an index from keys to rows. */
  ghost function IndexOf(t: Table): Index {
    map k | k in KeySet(t) :: EntryFor(t, k)
  }

  lemma IndexAt(t: Table, id: Id)
    requires UniqueKeys(t) && id in t
    ensures t[id].key in IndexOf(t) && IndexOf(t)[t[id].key] == Entry(id, t[id].columns, t[id].parent)
  {
    assert Holds(t, id, t[id].key);
  }

  lemma IndexHolds(t: Table, k: Key)
    requires k in IndexOf(t)
    ensures Holds(t, IndexOf(t)[k].id, k)
  {
  }

  // ---- Look-ups and writes on one table -----------------------------------------------------------

  method Upsert(t: Table, w: Write, next: Id) returns (t': Table, id: Id, next': Id, created: bool)
    requires UniqueKeys(t) && Below(t, next)
    ensures UniqueKeys(t') && Below(t', next') && next <= next'
    ensures IndexOf(t') == Put(IndexOf(t), w, next) && next' == NextAfter(IndexOf(t), w.key, next)
    ensures created == (w.key !in IndexOf(t))
    ensures id in t' && t'[id].key == w.key && id == Put(IndexOf(t), w, next)[w.key].id
  {
    if existing :| existing in t && Holds(t, existing, w.key) {
      IndexAt(t, existing);
      id, created, next' := existing, false, next;
      t' := t[id := Row(w.key, t[id].columns + w.columns, w.parent)];
    } else {
      if w.key in IndexOf(t) {
        IndexHolds(t, w.key);
      }
      id, created, next' := next, true, next + 1;
      t' := t[id := Row(w.key, w.columns, w.parent)];
    }
    assert map[] + w.columns == w.columns;
    PutIndex(t, t', w, id, next);
  }

  lemma PutIndex(t: Table, t': Table, w: Write, id: Id, next: Id)
    requires UniqueKeys(t) && Below(t, next)
    requires t' == t[id := Row(w.key, (if id in t then t[id].columns else map[]) + w.columns, w.parent)]
    requires if id in t then t[id].key == w.key else w.key !in IndexOf(t) && id == next
    ensures UniqueKeys(t') && IndexOf(t') == Put(IndexOf(t), w, next)
  {
    assert map[] + w.columns == w.columns;
    StillUnique(t, t', w.key, id);
    forall k ensures k in IndexOf(t') <==> k in Put(IndexOf(t), w, next) {
      SameKeys(t, t', w.key, id, k);
    }
    forall k | k in IndexOf(t') ensures IndexOf(t')[k] == Put(IndexOf(t), w, next)[k] {
      IndexHolds(t', k);
      var i := IndexOf(t')[k].id;
      assert Holds(t', id, w.key) && Holds(t', i, k);
      if i in t {
        IndexAt(t, i);
      }
      hide UniqueKeys, KeySet;
    }
  }

  lemma StillUnique(t: Table, t': Table, k: Key, id: Id)
    requires UniqueKeys(t) && t'.Keys == t.Keys + {id} && id in t' && t'[id].key == k
    requires forall i | i in t && i != id :: t'[i].key == t[i].key
    requires if id in t then t[id].key == k else k !in IndexOf(t)
    ensures UniqueKeys(t')
  {
    forall i, j, x | Holds(t', i, x) && Holds(t', j, x) ensures i == j {
      if i in t { IndexAt(t, i); assert Holds(t, i, x) || i == id; }
      if j in t { IndexAt(t, j); assert Holds(t, j, x) || j == id; }
      assert id in t ==> Holds(t, id, k);
    }
  }

  lemma SameKeys(t: Table, t': Table, key: Key, id: Id, k: Key)
    requires t'.Keys == t.Keys + {id} && id in t' && t'[id].key == key
    requires forall i | i in t && i != id :: t'[i].key == t[i].key
    requires id in t ==> t[id].key == key
    ensures k in KeySet(t') <==> k in KeySet(t) || k == key
  {
    if k in KeySet(t) {
      var i :| i in t && t[i].key == k;
      assert i in t' && t'[i].key == k;
    }
    assert t'[id].key in KeySet(t');
  }

  /** The query by external id alone. */
  method FindByExternalId(t: Table, ext: string, pick: set<Id> -> Id) returns (id: Option<Id>)
    requires UniqueKeys(t) && Picks(pick)
    ensures id == Resolve(IndexOf(t), ext, pick)
    ensures id.Some? ==> id.value in t
  {
    if ext == "" {
      return None;
    }
    var found := set i | i in t && t[i].key.ext == ext;
    FoundAreCandidates(t, ext, found);
    if found == {} {
      return None;
    }
    id := Some(pick(found));
  }

  lemma FoundAreCandidates(t: Table, ext: string, found: set<Id>)
    requires UniqueKeys(t) && found == set i | i in t && t[i].key.ext == ext
    ensures found == Candidates(IndexOf(t), ext)
  {
    forall i | i in found ensures i in Candidates(IndexOf(t), ext) {
      IndexAt(t, i);
    }
    forall i | i in Candidates(IndexOf(t), ext) ensures i in found {
      var k :| k in IndexOf(t) && k.ext == ext && IndexOf(t)[k].id == i;
      IndexHolds(t, k);
    }
  }

  lemma TypeAt(t: Table, id: Id)
    requires UniqueKeys(t) && id in t
    ensures TypeOf(IndexOf(t), Some(id))
         == if "product_type" in t[id].columns then Some(t[id].columns["product_type"]) else None
  {
    IndexAt(t, id);
    var k :| k in IndexOf(t) && IndexOf(t)[k].id == id && TypeOf(IndexOf(t), Some(id))
         == if "product_type" in IndexOf(t)[k].columns then Some(IndexOf(t)[k].columns["product_type"]) else None;
    IndexHolds(t, k);
  }

  /** The lines to create, each with its product and the product's type. */
  method BuildLines(products: Table, items: seq<LineItem>, pick: set<Id> -> Id) returns (lines: seq<Line>)
    requires UniqueKeys(products) && Picks(pick)
    ensures lines == LinesOf(IndexOf(products), items, pick)
  {
    lines := [];
    for n := 0 to |items|
      invariant |lines| == n && forall i | 0 <= i < n :: lines[i] == LinesOf(IndexOf(products), items, pick)[i]
    {
      hide Resolve, IndexOf;
      var product := FindByExternalId(products, items[n].productExt, pick);
      var productType: Option<string> := None;
      if product.Some? {
        TypeAt(products, product.value);
        if "product_type" in products[product.value].columns {
          productType := Some(products[product.value].columns["product_type"]);
        }
      }
      lines := lines + [Line(items[n].columns, product, productType)];
    }
  }

  // ---- The store ---------------------------------------------------------------------------------------

  class CommerceStore {
    var products: Table
    var variants: Table
    var customers: Table
    var orders: Table
    var mappings: Table
    var lines: map<Id, seq<Line>>
    var next: Id
    var read: nat
    var created: nat
    var updated: nat

    ghost function Contents(): Store
      reads this
    {
      Store(IndexOf(products), IndexOf(variants), IndexOf(customers), IndexOf(orders), IndexOf(mappings), lines, next)
    }

    /** No two rows of a table share a key, and no id is used before it is drawn. */
    ghost predicate Valid()
      reads this
    {
      && UniqueKeys(products) && UniqueKeys(variants) && UniqueKeys(customers) && UniqueKeys(orders) && UniqueKeys(mappings)
      && Below(products, next) && Below(variants, next) && Below(customers, next) && Below(orders, next) && Below(mappings, next)
    }

    constructor ()
      ensures Valid() && Contents() == SyncLaws.EMPTY && SyncTrace.Good(Contents()) && read == created == updated == 0
    {
      products, variants, customers, orders, mappings := map[], map[], map[], map[], map[];
      lines, next, read, created, updated := map[], 0, 0, 0, 0;
    }

    method MapExternal(objectType: string, ext: string, graphql: Columns, local: Id)
      requires Valid()
      modifies this`mappings, this`next
      ensures Valid() && Contents() == Sync.MapExternal(old(Contents()), objectType, ext, graphql, local)
    {
      hide IndexOf, UniqueKeys, Put;
      var t, id, n, isNew := Upsert(mappings, Write(Key(objectType, ext), graphql, Some(local)), next);
      mappings, next := t, n;
    }

    method UpsertVariants(product: Id, listed: seq<Variant>)
      requires Valid()
      modifies this`variants, this`next
      ensures Valid() && Contents() == PutVariants(old(Contents()), product, listed)
    {
      hide IndexOf, UniqueKeys, Put;
      ghost var before := Contents();
      for i := 0 to |listed|
        invariant Valid() && Contents() == PutVariants(before, product, listed[..i])
      {
        var v := listed[i];
        assert listed[..i + 1][..i] == listed[..i];
        var t, id, n, isNew := Upsert(variants, Write(Key("", v.ext), v.columns, Some(product)), next);
        variants, next := t, n;
      }
      assert listed[..|listed|] == listed;
    }

    method CountRead(isNew: bool)
      modifies this`read, this`created, this`updated
      ensures read == old(read) + 1
      ensures created == old(created) + (if isNew then 1 else 0) && updated == old(updated) + (if isNew then 0 else 1)
    {
      read := read + 1;
      if isNew { created := created + 1; } else { updated := updated + 1; }
    }

    method UpsertProduct(p: Product)
      requires Valid()
      modifies this
      ensures Valid() && Contents() == Sync.UpsertProduct(old(Contents()), p)
      ensures read == old(read) + 1 && created + updated == old(created + updated) + 1
      ensures created == old(created) + if ProductKey(p) in old(Contents()).products then 0 else 1
    {
      hide IndexOf, UniqueKeys, Put;
      var t, id, n, isNew := Upsert(products, Write(ProductKey(p), p.columns, None), next);
      products, next := t, n;
      CountRead(isNew);
      UpsertVariants(id, p.variants);
      MapExternal("product", p.ext, p.graphql, id);
    }

    method UpsertCustomer(c: Customer)
      requires Valid()
      modifies this
      ensures Valid() && Contents() == Sync.UpsertCustomer(old(Contents()), c)
      ensures read == old(read) + 1 && created + updated == old(created + updated) + 1
      ensures created == old(created) + if CustomerKey(c) in old(Contents()).customers then 0 else 1
    {
      hide IndexOf, UniqueKeys, Put;
      var t, id, n, isNew := Upsert(customers, Write(CustomerKey(c), c.columns, None), next);
      customers, next := t, n;
      CountRead(isNew);
      MapExternal("customer", c.ext, map[], id);
    }

    method UpsertOrder(o: Order, pick: set<Id> -> Id)
      requires Valid() && Picks(pick)
      modifies this
      ensures Valid() && Contents() == Sync.UpsertOrder(old(Contents()), o, pick)
      ensures read == old(read) + 1 && created + updated == old(created + updated) + 1
      ensures created == old(created) + if OrderKey(o) in old(Contents()).orders then 0 else 1
    {
      hide IndexOf, UniqueKeys, Put, Resolve, LinesOf, OrderColumns;
      var customer := FindByExternalId(customers, o.customerExt, pick);
      var t, id, n, isNew := Upsert(orders, Write(OrderKey(o), OrderColumns(o), customer), next);
      orders, next := t, n;
      CountRead(isNew);
      var items := BuildLines(products, o.items, pick);
      lines := lines[id := items];
      MapExternal("order", o.ext, map[], id);
    }

    /** The counters of a run that took the store from `before` to here: every item read is a row
        created or a row updated. */
    ghost predicate Counted(before: Store, items: nat)
      reads this
    {
      read == items && created + updated == read && created == SyncLaws.Counted(Contents()) - SyncLaws.Counted(before)
    }

    method SyncAllProducts(ps: seq<Product>, ghost before: Store)
      requires Valid() && Counted(before, 0) && before == Contents()
      modifies this
      ensures Valid() && Contents() == SyncProducts(before, ps) && Counted(before, |ps|)
    {
      hide Valid, IndexOf;
      for n := 0 to |ps|
        invariant Valid() && Contents() == SyncProducts(before, ps[..n]) && Counted(before, n)
      {
        hide Sync.UpsertProduct, SyncLaws.Counted;
        assert ps[..n + 1][..n] == ps[..n];
        SyncLaws.ProductDraws(Contents(), ps[n]);
        UpsertProduct(ps[n]);
      }
      assert ps[..|ps|] == ps;
    }

    method SyncAllCustomers(cs: seq<Customer>, ghost before: Store, ghost from: Store, items: nat)
      requires Valid() && Counted(before, items) && from == Contents()
      modifies this
      ensures Valid() && Contents() == SyncCustomers(from, cs) && Counted(before, items + |cs|)
    {
      hide Valid, IndexOf;
      for n := 0 to |cs|
        invariant Valid() && Contents() == SyncCustomers(from, cs[..n]) && Counted(before, items + n)
      {
        hide Sync.UpsertCustomer, SyncLaws.Counted;
        assert cs[..n + 1][..n] == cs[..n];
        SyncLaws.CustomerDraws(Contents(), cs[n]);
        UpsertCustomer(cs[n]);
      }
      assert cs[..|cs|] == cs;
    }

    method SyncAllOrders(os: seq<Order>, pick: set<Id> -> Id, ghost before: Store, ghost from: Store, items: nat)
      requires Valid() && Picks(pick) && Counted(before, items) && from == Contents()
      modifies this
      ensures Valid() && Contents() == SyncOrders(from, os, pick) && Counted(before, items + |os|)
    {
      hide Valid, IndexOf, Picks;
      for n := 0 to |os|
        invariant Valid() && Contents() == SyncOrders(from, os[..n], pick) && Counted(before, items + n)
      {
        hide Sync.UpsertOrder, SyncLaws.Counted;
        assert os[..n + 1][..n] == os[..n];
        SyncLaws.OrderDraws(Contents(), os[n], pick);
        UpsertOrder(os[n], pick);
      }
      assert os[..|os|] == os;
    }

    /** The three loops of a sync. */
    method RunSync(l: Listing, pick: set<Id> -> Id)
      requires Valid() && Picks(pick)
      modifies this
      ensures Valid() && Contents() == FullSync(old(Contents()), l, pick)
      ensures Counted(old(Contents()), SyncLaws.Listed(l))
      ensures SyncTrace.Good(old(Contents())) ==> SyncTrace.Good(Contents())
    {
      hide IndexOf, UniqueKeys, Picks, SyncTrace.Good, SyncLaws.Counted;
      ghost var before := Contents();
      if SyncTrace.Good(before) {
        SyncTrace.FullSyncTrace(before, l, pick);
      }
      read, created, updated := 0, 0, 0;
      SyncAllProducts(l.products, before);
      SyncAllCustomers(l.customers, before, Contents(), |l.products|);
      SyncAllOrders(l.orders, pick, before, Contents(), |l.products| + |l.customers|);
    }

    /** A rerun right after it reads the same items, creates nothing and leaves every table as it is. */
    method RunSyncAgain(l: Listing, pick: set<Id> -> Id, pick': set<Id> -> Id)
      requires Valid() && Picks(pick) && Picks(pick') && SyncTrace.Good(Contents()) && SyncLaws.Settled(Contents(), l)
      modifies this
      ensures Valid() && Contents() == FullSync(old(Contents()), l, pick)
      ensures created == 0 && updated == read == SyncLaws.Listed(l)
    {
      hide IndexOf, UniqueKeys, Picks, SyncTrace.Good, SyncLaws.Counted, SyncLaws.Settled, FullSync;
      SyncLaws.RerunChangesNothing(Contents(), l, pick, pick');
      RunSync(l, pick);
      RunSync(l, pick');
    }

    /** A webhook's order, with counters of its own. */
    method ProcessOrderWebhook(o: Order, pick: set<Id> -> Id)
      requires Valid() && Picks(pick)
      modifies this
      ensures Valid() && Contents() == Sync.UpsertOrder(old(Contents()), o, pick)
      ensures read == 1 && created + updated == 1
    {
      hide IndexOf, UniqueKeys, Picks;
      read, created, updated := 0, 0, 0;
      UpsertOrder(o, pick);
    }
  }
}
