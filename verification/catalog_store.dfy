/** The product repository both catalog services talk to, as a map from key to
    record, and what the services share: the partial update, the name lookup,
    the repository calls they make and the invariants of the table. */
module CatalogStore {
  import opened Exceptions
  import opened ProductEntity
  import opened Columns

  type Store<K> = map<K, Product<K>>

  /** The fields of a create request (`CreateProductDto`). */
  datatype NewProduct = NewProduct(name: string, description: Option<string>, priceCents: int, quantity: int)

  /** The fields of an update request: `Some` marks a supplied field. */
  datatype Patch = Patch(name: Option<string>, description: Option<string>, priceCents: Option<int>, quantity: Option<int>)

  /** Repository calls, in the order a service makes them. */
  datatype Call<K> =
    | FindOneById(id: K)
    | FindById(id: K)
    | FindOneByName(name: string)
    | Find
    | CreateEntity(dto: NewProduct)
    | Save(product: Product<K>)
    | RemoveEntity(product: Product<K>)

  /** The table after a service call, what the call returned or raised, and the
      repository calls it made. */
  datatype Outcome<K, T> = Outcome(store: Store<K>, result: Result<T>, calls: seq<Call<K>>)

  const DuplicateName := "Product with this name already exists"
  const DuplicateNameOnUpdate := "Another product with this name already exists"
  const ProductNotFound := "Product not found"
  const ProductRemoved := "Producto eliminado correctamente"

  /** Every record sits under its own key. */
  predicate WellKeyed<K>(store: Store<K>) {
    forall k :: k in store ==> store[k].id == k
  }

  /** No two records share a name. */
  predicate UniqueNames<K>(store: Store<K>) {
    forall a, b :: a in store && b in store && store[a].name == store[b].name ==> a == b
  }

  /** `findOne({ where: { name } })` finds something. */
  predicate NameTaken<K>(store: Store<K>, name: string) {
    exists k :: k in store && store[k].name == name
  }

  /** `findOne({ where: { name } })` finds a record whose id is not `id`. */
  predicate NameTakenByOther<K>(store: Store<K>, name: string, id: K) {
    exists k :: k in store && store[k].name == name && store[k].id != id
  }

  /** The update looks the name up only for a supplied, non-empty (truthy) name
      that differs from the current one. */
  predicate NeedsNameCheck<K>(current: Product<K>, patch: Patch) {
    patch.name.Some? && patch.name.value != "" && patch.name.value != current.name
  }

  /** A new record built from a create request. */
  function FromNew<K>(id: K, dto: NewProduct): (p: Product<K>)
    ensures p.id == id && p.name == dto.name && p.description == dto.description
    ensures p.priceCents == dto.priceCents && p.quantity == dto.quantity
  {
    Product(id, dto.name, dto.description, dto.priceCents, dto.quantity)
  }

  /** `Object.assign(product, patch)`: exactly the supplied fields change. */
  function Merge<K>(p: Product<K>, patch: Patch): (r: Product<K>)
    ensures r.id == p.id
    ensures r.name == (if patch.name.Some? then patch.name.value else p.name)
    ensures r.description == (if patch.description.Some? then patch.description else p.description)
    ensures r.priceCents == (if patch.priceCents.Some? then patch.priceCents.value else p.priceCents)
    ensures r.quantity == (if patch.quantity.Some? then patch.quantity.value else p.quantity)
  {
    Product(
      p.id,
      patch.name.GetOr(p.name),
      if patch.description.Some? then patch.description else p.description,
      patch.priceCents.GetOr(p.priceCents),
      patch.quantity.GetOr(p.quantity))
  }

  /** When the name is looked up, a hit on another record is exactly a hit. */
  lemma NameTakenByOtherWhenChecked<K>(store: Store<K>, id: K, patch: Patch)
    requires WellKeyed(store) && id in store
    requires NeedsNameCheck(store[id], patch)
    ensures NameTakenByOther(store, patch.name.value, id) <==> NameTaken(store, patch.name.value)
  {
    if NameTaken(store, patch.name.value) {
      var k :| k in store && store[k].name == patch.name.value;
      assert store[k].id != id;
    }
  }

  /** Writing a record whose name no other record has keeps names unique. */
  lemma PutPreservesUniqueNames<K>(store: Store<K>, k: K, p: Product<K>)
    requires UniqueNames(store)
    requires forall j :: j in store && j != k ==> store[j].name != p.name
    ensures UniqueNames(store[k := p])
  {
  }

  /** Writing a record under its own key keeps the table well keyed. */
  lemma PutPreservesWellKeyed<K>(store: Store<K>, k: K, p: Product<K>)
    requires WellKeyed(store) && p.id == k
    ensures WellKeyed(store[k := p])
  {
  }

  /** How many `findOne` calls (by id or by name) a trace holds. */
  function FindOneCount<K>(calls: seq<Call<K>>): nat {
    if |calls| == 0 then 0
    else (if calls[0].FindOneById? || calls[0].FindOneByName? then 1 else 0) + FindOneCount(calls[1..])
  }

  /** How many `save` calls a trace holds. */
  function SaveCount<K>(calls: seq<Call<K>>): nat {
    if |calls| == 0 then 0
    else (if calls[0].Save? then 1 else 0) + SaveCount(calls[1..])
  }

  /** `findAll`, the same in both services: every stored product, nothing
      written. */
  function FindAll<K(!new)>(store: Store<K>): (o: Outcome<K, set<Product<K>>>)
    ensures o.store == store && o.calls == [Find]
    ensures o.result.Ok? && (forall p :: p in o.result.value <==> exists k :: k in store && store[k] == p)
  {
    Outcome(store, Ok(store.Values), [Find])
  }

  /** `findOne`, the same in both services: the stored record, or NotFound; nothing written. */
  function FindOne<K>(store: Store<K>, id: K): (o: Outcome<K, Product<K>>)
    ensures o.store == store && o.calls == [FindOneById(id)]
    ensures id in store <==> o.result.Ok?
    ensures id in store ==> o.result.value == store[id]
    ensures id !in store ==> o.result == Raise(NotFound(ProductNotFound))
  {
    if id in store then Outcome(store, Ok(store[id]), [FindOneById(id)])
    else Outcome(store, Raise(NotFound(ProductNotFound)), [FindOneById(id)])
  }

  /** `remove`, the same in both services: NotFound when absent, otherwise remove the record. */
  function Remove<K>(store: Store<K>, id: K, fault: Option<string>): (o: Outcome<K, string>)
    ensures id !in store ==>
      o.result == Raise(NotFound(ProductNotFound)) && o.calls == [FindOneById(id)] && o.store == store
    ensures id in store ==> o.calls == [FindOneById(id), RemoveEntity(store[id])]
    ensures id in store && fault.None? ==>
      o.result == Ok(ProductRemoved) && o.store.Keys == store.Keys - {id}
      && (forall k :: k in o.store ==> o.store[k] == store[k])
    ensures id in store && fault.Some? ==> o.result == Raise(StoreFailure(fault.value))
    ensures fault.Some? ==> o.store == store
  {
    if id !in store then Outcome(store, Raise(NotFound(ProductNotFound)), [FindOneById(id)])
    else
      var calls := [FindOneById(id), RemoveEntity(store[id])];
      if fault.Some? then Outcome(store, Raise(StoreFailure(fault.value)), calls)
      else Outcome(store - {id}, Ok(ProductRemoved), calls)
  }

  /** The table invariants: records under their own keys, names unique. */
  predicate Consistent<K>(store: Store<K>) {
    WellKeyed(store) && UniqueNames(store)
  }

  /** `remove` keeps the table consistent. */
  lemma RemovePreservesConsistency<K>(store: Store<K>, id: K, fault: Option<string>)
    requires Consistent(store)
    ensures Consistent(Remove(store, id, fault).store)
  {
  }

  /** A patch whose supplied fields fit the product columns keeps a record
      within them. */
  lemma MergeKeepsColumns<K>(p: Product<K>, patch: Patch)
    requires WithinColumns(p)
    requires patch.name.Some? ==> FitsVarchar(patch.name.value, 255)
    requires patch.priceCents.Some? ==> FitsDecimal2(patch.priceCents.value, 10)
    requires patch.quantity.Some? ==> IsInt32(patch.quantity.value)
    ensures WithinColumns(Merge(p, patch))
  {
  }
}
