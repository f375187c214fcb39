/** One store's synchronised tables, and what each upsert does to them. A table is given as an index
    from its unique key to the row; SyncService keeps the rows by id and proves the keys unique.
    Columns the connector leaves undefined are absent from an item and stay as they are. */
module Sync {
  import opened Tables

  /** The source is empty for variants, whose key has none, and the object type for mappings. */
  datatype Key = Key(source: string, ext: string)

  type Columns = map<string, string>

  /** `parent` is a variant's product, an order's customer, or the row a mapping points at. */
  datatype Entry = Entry(id: Id, columns: Columns, parent: Option<Id>)

  type Index = map<Key, Entry>

  datatype Line = Line(columns: Columns, product: Option<Id>, productType: Option<string>)

  datatype Store = Store(products: Index, variants: Index, customers: Index, orders: Index, mappings: Index,
                         lines: map<Id, seq<Line>>, next: Id)

  // ---- What a connector lists --------------------------------------------------------------------

  datatype Variant = Variant(ext: string, columns: Columns)

  datatype Product = Product(source: string, ext: string, columns: Columns, graphql: Columns, variants: seq<Variant>)

  datatype Customer = Customer(source: string, ext: string, columns: Columns)

  datatype LineItem = LineItem(productExt: string, columns: Columns)

  datatype Order = Order(source: string, ext: string, columns: Columns, financial: string, fulfillment: string, cancelled: bool,
                         customerExt: string, items: seq<LineItem>)

  /** A sync of one type lists nothing of the others. */
  datatype Listing = Listing(products: seq<Product>, customers: seq<Customer>, orders: seq<Order>)

  function DeriveOrderStatus(financial: string, fulfillment: string, cancelled: bool): string {
    if cancelled then "cancelled"
    else if financial == "refunded" || financial == "voided" then "cancelled"
    else if fulfillment == "fulfilled" then "delivered"
    else if fulfillment == "partial" || fulfillment == "in_transit" then "shipped"
    else "processing"
  }

  function OrderColumns(o: Order): Columns {
    o.columns["order_status" := DeriveOrderStatus(o.financial, o.fulfillment, o.cancelled)]
  }

  // ---- One upsert ----------------------------------------------------------------------------------

  datatype Write = Write(key: Key, columns: Columns, parent: Option<Id>)

  /** Update the row with the key, or create it with id `next`. */
  function Put(t: Index, w: Write, next: Id): Index {
    if w.key in t then t[w.key := Entry(t[w.key].id, t[w.key].columns + w.columns, w.parent)]
    else t[w.key := Entry(next, w.columns, w.parent)]
  }

  function NextAfter(t: Index, k: Key, next: Id): Id {
    if k in t then next else next + 1
  }

  function MapExternal(s: Store, objectType: string, ext: string, graphql: Columns, local: Id): Store {
    var k := Key(objectType, ext);
    s.(mappings := Put(s.mappings, Write(k, graphql, Some(local)), s.next), next := NextAfter(s.mappings, k, s.next))
  }

  function ProductKey(p: Product): Key { Key(p.source, p.ext) }

  function CustomerKey(c: Customer): Key { Key(c.source, c.ext) }

  function OrderKey(o: Order): Key { Key(o.source, o.ext) }

  function PutProduct(s: Store, p: Product): (s': Store)
    ensures ProductKey(p) in s'.products
  {
    s.(products := Put(s.products, Write(ProductKey(p), p.columns, None), s.next), next := NextAfter(s.products, ProductKey(p), s.next))
  }

  function PutVariant(s: Store, product: Id, v: Variant): Store {
    var k := Key("", v.ext);
    s.(variants := Put(s.variants, Write(k, v.columns, Some(product)), s.next), next := NextAfter(s.variants, k, s.next))
  }

  function PutVariants(s: Store, product: Id, variants: seq<Variant>): Store {
    if variants == [] then s
    else PutVariant(PutVariants(s, product, variants[..|variants| - 1]), product, variants[|variants| - 1])
  }

  function PutCustomer(s: Store, c: Customer): (s': Store)
    ensures CustomerKey(c) in s'.customers
  {
    s.(customers := Put(s.customers, Write(CustomerKey(c), c.columns, None), s.next), next := NextAfter(s.customers, CustomerKey(c), s.next))
  }

  function PutOrder(s: Store, o: Order, customer: Option<Id>): (s': Store)
    ensures OrderKey(o) in s'.orders
  {
    s.(orders := Put(s.orders, Write(OrderKey(o), OrderColumns(o), customer), s.next), next := NextAfter(s.orders, OrderKey(o), s.next))
  }

  function UpsertProduct(s: Store, p: Product): Store {
    var s1 := PutProduct(s, p);
    var id := s1.products[ProductKey(p)].id;
    MapExternal(PutVariants(s1, id, p.variants), "product", p.ext, p.graphql, id)
  }

  function UpsertCustomer(s: Store, c: Customer): Store {
    var s1 := PutCustomer(s, c);
    MapExternal(s1, "customer", c.ext, map[], s1.customers[CustomerKey(c)].id)
  }

  /** The rows with an external id, whatever their source. */
  function Candidates(t: Index, ext: string): set<Id> {
    set k | k in t && k.ext == ext :: t[k].id
  }

  /** The row that the database returns when a query by external id alone finds several. */
  ghost predicate Picks(pick: set<Id> -> Id) {
    forall ids: set<Id> | ids != {} :: pick(ids) in ids
  }

  function Resolve(t: Index, ext: string, pick: set<Id> -> Id): Option<Id> {
    if ext == "" || Candidates(t, ext) == {} then None else Some(pick(Candidates(t, ext)))
  }

  ghost function TypeOf(products: Index, id: Option<Id>): Option<string> {
    if id.Some? && exists k :: k in products && products[k].id == id.value then
      var k :| k in products && products[k].id == id.value;
      if "product_type" in products[k].columns then Some(products[k].columns["product_type"]) else None
    else None
  }

  ghost function LinesOf(products: Index, items: seq<LineItem>, pick: set<Id> -> Id): (lines: seq<Line>)
    ensures |lines| == |items|
  {
    seq(|items|, i requires 0 <= i < |items| =>
      var product := Resolve(products, items[i].productExt, pick);
      Line(items[i].columns, product, TypeOf(products, product)))
  }

  function SetLines(s: Store, order: Id, lines: seq<Line>): Store {
    s.(lines := s.lines[order := lines])
  }

  /** The line items are deleted and written anew. */
  ghost function UpsertOrder(s: Store, o: Order, pick: set<Id> -> Id): Store {
    var s1 := PutOrder(s, o, Resolve(s.customers, o.customerExt, pick));
    var id := s1.orders[OrderKey(o)].id;
    MapExternal(SetLines(s1, id, LinesOf(s.products, o.items, pick)), "order", o.ext, map[], id)
  }

  function SyncProducts(s: Store, ps: seq<Product>): Store {
    if ps == [] then s else UpsertProduct(SyncProducts(s, ps[..|ps| - 1]), ps[|ps| - 1])
  }

  function SyncCustomers(s: Store, cs: seq<Customer>): Store {
    if cs == [] then s else UpsertCustomer(SyncCustomers(s, cs[..|cs| - 1]), cs[|cs| - 1])
  }

  ghost function SyncOrders(s: Store, os: seq<Order>, pick: set<Id> -> Id): Store {
    if os == [] then s else UpsertOrder(SyncOrders(s, os[..|os| - 1], pick), os[|os| - 1], pick)
  }

  ghost function FullSync(s: Store, l: Listing, pick: set<Id> -> Id): Store {
    SyncOrders(SyncCustomers(SyncProducts(s, l.products), l.customers), l.orders, pick)
  }

  // ---- What a list of writes does to a table --------------------------------------------------------

  function Keys(ws: seq<Write>): set<Key> {
    set i | 0 <= i < |ws| :: ws[i].key
  }

  /** All the columns written under a key, the later ones on top. */
  function Merged(ws: seq<Write>, k: Key): Columns {
    if ws == [] then map[]
    else Merged(ws[..|ws| - 1], k) + if ws[|ws| - 1].key == k then ws[|ws| - 1].columns else map[]
  }

  function LastParent(ws: seq<Write>, k: Key): Option<Id> {
    if ws == [] then None
    else if ws[|ws| - 1].key == k then ws[|ws| - 1].parent else LastParent(ws[..|ws| - 1], k)
  }

  function ColumnsAt(t: Index, k: Key): Columns {
    if k in t then t[k].columns else map[]
  }

  /** Rows keep their ids and the columns nobody wrote; a written row ends with the last parent. */
  ghost predicate AppliedAt(t: Index, ws: seq<Write>, t': Index, k: Key) {
    && (k in t' <==> k in t || k in Keys(ws))
    && (k in t' ==> t'[k].columns == ColumnsAt(t, k) + Merged(ws, k))
    && (k in t' && k in t ==> t'[k].id == t[k].id)
    && (k in t' && k in Keys(ws) ==> t'[k].parent == LastParent(ws, k))
    && (k in t' && k in t && k !in Keys(ws) ==> t'[k].parent == t[k].parent)
  }

  ghost predicate Applied(t: Index, ws: seq<Write>, t': Index) {
    forall k :: AppliedAt(t, ws, t', k)
  }

  lemma NothingApplied(t: Index)
    ensures Applied(t, [], t)
  {
    forall k ensures AppliedAt(t, [], t, k) {
      assert ColumnsAt(t, k) + map[] == ColumnsAt(t, k);
    }
  }

  lemma KeysStep(ws: seq<Write>, w: Write)
    ensures Keys(ws + [w]) == Keys(ws) + {w.key}
  {
    assert forall i | 0 <= i < |ws| :: (ws + [w])[i] == ws[i];
    assert (ws + [w])[|ws|] == w;
  }

  lemma {:induction false} MergedStep(ws: seq<Write>, w: Write, k: Key)
    ensures Merged(ws + [w], k) == Merged(ws, k) + if k == w.key then w.columns else map[]
    ensures LastParent(ws + [w], k) == if k == w.key then w.parent else LastParent(ws, k)
  {
    assert (ws + [w])[..|ws|] == ws;
  }

  lemma AppliedAtStep(t: Index, ws: seq<Write>, t': Index, w: Write, next: Id, k: Key)
    requires AppliedAt(t, ws, t', k)
    ensures AppliedAt(t, ws + [w], Put(t', w, next), k)
  {
    KeysStep(ws, w);
    NotMerged(ws, k);
    MergedStep(ws, w, k);
    hide Keys, Merged, LastParent, ColumnsAt;
    if k == w.key {
      assert ColumnsAt(t, k) + Merged(ws, k) + w.columns == ColumnsAt(t, k) + (Merged(ws, k) + w.columns);
      NoColumns(t, k, w.columns);
    } else {
      assert Merged(ws, k) + map[] == Merged(ws, k);
    }
  }

  lemma NoColumns(t: Index, k: Key, columns: Columns)
    ensures k !in t ==> ColumnsAt(t, k) == map[] && ColumnsAt(t, k) + (map[] + columns) == columns
  {
  }

  lemma AppliedStep(t: Index, ws: seq<Write>, t': Index, w: Write, next: Id)
    requires Applied(t, ws, t')
    ensures Applied(t, ws + [w], Put(t', w, next))
  {
    forall k ensures AppliedAt(t, ws + [w], Put(t', w, next), k) {
      hide AppliedAt, Put;
      AppliedAtStep(t, ws, t', w, next, k);
    }
  }

  lemma {:induction false} NotMerged(ws: seq<Write>, k: Key)
    ensures k !in Keys(ws) ==> Merged(ws, k) == map[]
  {
    if ws != [] {
      var before := ws[..|ws| - 1];
      assert ws == before + [ws[|ws| - 1]];
      KeysStep(before, ws[|ws| - 1]);
      NotMerged(before, k);
    }
  }

  /** Two lists of writes with the same keys, columns and last parents. */
  ghost predicate SameEffect(ws: seq<Write>, ws': seq<Write>) {
    forall k :: (k in Keys(ws) <==> k in Keys(ws')) && Merged(ws, k) == Merged(ws', k) && LastParent(ws, k) == LastParent(ws', k)
  }

  /** Writing again what was written last changes nothing, ids included. */
  lemma AppliedTwice(t: Index, ws: seq<Write>, t': Index, ws': seq<Write>, t'': Index)
    requires Applied(t, ws, t') && Applied(t', ws', t'') && SameEffect(ws, ws')
    ensures t'' == t'
  {
    hide Keys, Merged, LastParent;
    forall k ensures (k in t'' <==> k in t') && (k in t' ==> t''[k] == t'[k]) {
      assert AppliedAt(t, ws, t', k) && AppliedAt(t', ws', t'', k);
      assert (k in Keys(ws) <==> k in Keys(ws')) && Merged(ws, k) == Merged(ws', k);
      if k in t' {
        assert t'[k].columns + Merged(ws, k) == t'[k].columns;
        assert t''[k] == Entry(t''[k].id, t''[k].columns, t''[k].parent);
      }
    }
  }

  /** Every column of the write is written again by the list, or stood in the row with that value. */
  ghost predicate Covered(t: Index, w: Write, again: set<string>) {
    forall c | c in w.columns ::
      c in again || (w.key in t && c in t[w.key].columns && t[w.key].columns[c] == w.columns[c])
  }

  /** A write whose row the list writes again, and whose columns are covered, leaves no trace under it. */
  lemma {:induction false} Absorbed(t: Index, w: Write, next: Id, ws: seq<Write>, t': Index)
    requires Applied(Put(t, w, next), ws, t') && w.key in Keys(ws) && Covered(t, w, Merged(ws, w.key).Keys)
    ensures Applied(t, ws, t')
  {
    hide Keys, Merged, LastParent;
    forall k ensures AppliedAt(t, ws, t', k) {
      assert AppliedAt(Put(t, w, next), ws, t', k);
      if k == w.key {
        CoveredColumns(t, w, Merged(ws, k));
        hide ColumnsAt, Covered;
      }
    }
  }

  lemma CoveredColumns(t: Index, w: Write, m: Columns)
    requires Covered(t, w, m.Keys)
    ensures ColumnsAt(t, w.key) + w.columns + m == ColumnsAt(t, w.key) + m
    ensures w.key !in t ==> w.columns + m == ColumnsAt(t, w.key) + m
  {
  }
}
