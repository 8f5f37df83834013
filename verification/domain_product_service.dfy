/** The hexagonal `ProductService`: create, findAll, findOne, update and remove
    over the generic repository port, with products keyed by uuid. A write the
    repository refuses is given as `fault` (the message it raises) and
    propagates unchanged. */
module DomainProductService {
  import opened Exceptions
  import opened ProductEntity
  import opened CatalogStore

  type DomainStore = Store<Uuid>

  function UpdateNotFound(id: Uuid): string {
    "Producto con ID " + id + " no encontrado."
  }

  /** `create`: refuse a taken name without saving, otherwise save the request
      as a new record under a fresh key. */
  function Create(store: DomainStore, dto: NewProduct, freshId: Uuid, fault: Option<string>): (o: Outcome<Uuid, Product<Uuid>>)
    requires freshId !in store
    ensures NameTaken(store, dto.name) ==>
      o.result == Raise(BadRequest(Text(DuplicateName))) && o.calls == [FindOneByName(dto.name)]
    ensures !NameTaken(store, dto.name) ==>
      o.calls == [FindOneByName(dto.name), Save(FromNew(freshId, dto))]
    ensures !NameTaken(store, dto.name) && fault.None? ==>
      o.result == Ok(FromNew(freshId, dto)) && o.store == store[freshId := FromNew(freshId, dto)]
    ensures !NameTaken(store, dto.name) && fault.Some? ==> o.result == Raise(StoreFailure(fault.value))
    ensures o.result.Raise? ==> o.store == store
  {
    if NameTaken(store, dto.name) then
      Outcome(store, Raise(BadRequest(Text(DuplicateName))), [FindOneByName(dto.name)])
    else
      var p := FromNew(freshId, dto);
      var calls := [FindOneByName(dto.name), Save(p)];
      if fault.Some? then Outcome(store, Raise(StoreFailure(fault.value)), calls)
      else Outcome(store[freshId := p], Ok(p), calls)
  }

  /** `update`: find by id, check a new name against the other records, merge
      the supplied fields and save once. */
  function Update(store: DomainStore, id: Uuid, patch: Patch, fault: Option<string>): (o: Outcome<Uuid, Product<Uuid>>)
    requires WellKeyed(store)
    ensures id !in store ==>
      o.result == Raise(NotFound(UpdateNotFound(id))) && o.calls == [FindById(id)]
    ensures id in store && NeedsNameCheck(store[id], patch) ==>
      |o.calls| >= 2 && o.calls[1] == FindOneByName(patch.name.value)
    ensures id in store && NeedsNameCheck(store[id], patch) && !NameTaken(store, patch.name.value) ==>
      o.calls == [FindById(id), FindOneByName(patch.name.value), Save(Merge(store[id], patch))]
    ensures id in store && !NeedsNameCheck(store[id], patch) ==>
      o.calls == [FindById(id), Save(Merge(store[id], patch))]
    ensures id in store && NeedsNameCheck(store[id], patch) && NameTaken(store, patch.name.value) ==>
      o.result == Raise(BadRequest(Text(DuplicateNameOnUpdate))) && o.calls == [FindById(id), FindOneByName(patch.name.value)]
    ensures o.result.Ok? <==> id in store && fault.None? && !(NeedsNameCheck(store[id], patch) && NameTaken(store, patch.name.value))
    ensures o.result.Ok? ==> o.result.value == Merge(store[id], patch) && o.store == store[id := Merge(store[id], patch)]
    ensures id in store && fault.Some? && !(NeedsNameCheck(store[id], patch) && NameTaken(store, patch.name.value)) ==>
      o.result == Raise(StoreFailure(fault.value))
    ensures o.result.Raise? ==> o.store == store
    ensures |o.calls| >= 1 && o.calls[0] == FindById(id)
  {
    if id !in store then
      Outcome(store, Raise(NotFound(UpdateNotFound(id))), [FindById(id)])
    else
      var p := store[id];
      var check := NeedsNameCheck(p, patch);
      if check && NameTakenByOther(store, patch.name.value, id) then
        Outcome(store, Raise(BadRequest(Text(DuplicateNameOnUpdate))), [FindById(id), FindOneByName(patch.name.value)])
      else
        assert check ==> !NameTaken(store, patch.name.value) by {
          if check { NameTakenByOtherWhenChecked(store, id, patch); }
        }
        var merged := Merge(p, patch);
        var calls := [FindById(id)] + (if check then [FindOneByName(patch.name.value)] else []) + [Save(merged)];
        if fault.Some? then Outcome(store, Raise(StoreFailure(fault.value)), calls)
        else Outcome(store[id := merged], Ok(merged), calls)
  }

  /** `create` keeps the table consistent. */
  lemma CreatePreservesConsistency(store: DomainStore, dto: NewProduct, freshId: Uuid, fault: Option<string>)
    requires freshId !in store && Consistent(store)
    ensures Consistent(Create(store, dto, freshId, fault).store)
  {
    if !NameTaken(store, dto.name) && fault.None? {
      var p := FromNew(freshId, dto);
      forall j | j in store && j != freshId
        ensures store[j].name != p.name
      {
      }
      PutPreservesUniqueNames(store, freshId, p);
      PutPreservesWellKeyed(store, freshId, p);
    }
  }

  /** `update` keeps the table consistent, provided a supplied name is not
      empty (the request validator refuses an empty name; the service itself
      skips the lookup for one). */
  lemma UpdatePreservesConsistency(store: DomainStore, id: Uuid, patch: Patch, fault: Option<string>)
    requires Consistent(store)
    requires patch.name != Some("")
    ensures Consistent(Update(store, id, patch, fault).store)
  {
    var o := Update(store, id, patch, fault);
    if o.result.Ok? {
      var merged := Merge(store[id], patch);
      forall j | j in store && j != id
        ensures store[j].name != merged.name
      {
        if patch.name.Some? && patch.name.value != store[id].name {
          assert NeedsNameCheck(store[id], patch);
          assert !NameTaken(store, patch.name.value);
        } else {
          assert merged.name == store[id].name;
        }
      }
      PutPreservesUniqueNames(store, id, merged);
      PutPreservesWellKeyed(store, id, merged);
    }
  }

  /** Without that proviso the invariant fails: an empty name skips the lookup
      and can duplicate another record's empty name. */
  lemma EmptyNameUpdateCanDuplicate()
    ensures var store := map["a" := Product("a", "", None, 100, 1), "b" := Product("b", "x", None, 100, 1)];
      Consistent(store) && !Consistent(Update(store, "b", Patch(Some(""), None, None, None), None).store)
  {
    var store := map["a" := Product("a", "", None, 100, 1), "b" := Product("b", "x", None, 100, 1)];
    var after := Update(store, "b", Patch(Some(""), None, None, None), None).store;
    assert after["a"].name == after["b"].name;
  }

}
