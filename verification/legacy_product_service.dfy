/** The legacy `ProductService`, written directly against a TypeORM repository
    and keyed by serial number. Its lookups by id are `findOne` calls, so an
    update that changes the name makes two of them. */
module LegacyProductService {
  import opened Exceptions
  import opened ProductEntity
  import opened CatalogStore
  import Decimal

  type LegacyStore = Store<Serial>

  function UpdateNotFound(id: Serial): string {
    "Producto con ID " + Decimal.IntToDecimal(id) + " no encontrado."
  }

  /** `create`: refuse a taken name; otherwise build the entity and save it. A
      failing save propagates unchanged. */
  function Create(store: LegacyStore, dto: NewProduct, freshId: Serial, fault: Option<string>): (o: Outcome<Serial, Product<Serial>>)
    requires freshId !in store
    ensures NameTaken(store, dto.name) ==>
      o.result == Raise(BadRequest(Text(DuplicateName))) && o.calls == [FindOneByName(dto.name)]
    ensures !NameTaken(store, dto.name) ==>
      o.calls == [FindOneByName(dto.name), CreateEntity(dto), Save(FromNew(freshId, dto))]
    ensures !NameTaken(store, dto.name) && fault.None? ==>
      o.result == Ok(FromNew(freshId, dto)) && o.store == store[freshId := FromNew(freshId, dto)]
    ensures !NameTaken(store, dto.name) && fault.Some? ==> o.result == Raise(StoreFailure(fault.value))
    ensures o.result.Raise? ==> o.store == store
  {
    if NameTaken(store, dto.name) then
      Outcome(store, Raise(BadRequest(Text(DuplicateName))), [FindOneByName(dto.name)])
    else
      var p := FromNew(freshId, dto);
      var calls := [FindOneByName(dto.name), CreateEntity(dto), Save(p)];
      if fault.Some? then Outcome(store, Raise(StoreFailure(fault.value)), calls)
      else Outcome(store[freshId := p], Ok(p), calls)
  }

  /** `update`: one `findOne` by id, a second by name only for a new name,
      then one merge and one save. */
  function Update(store: LegacyStore, id: Serial, patch: Patch, fault: Option<string>): (o: Outcome<Serial, Product<Serial>>)
    requires WellKeyed(store)
    ensures id !in store ==>
      o.result == Raise(NotFound(UpdateNotFound(id))) && o.calls == [FindOneById(id)] && SaveCount(o.calls) == 0
    ensures id in store ==> FindOneCount(o.calls) == if NeedsNameCheck(store[id], patch) then 2 else 1
    ensures id in store && !NeedsNameCheck(store[id], patch) ==>
      o.calls == [FindOneById(id), Save(Merge(store[id], patch))]
    ensures id in store && NeedsNameCheck(store[id], patch) && !NameTaken(store, patch.name.value) ==>
      o.calls == [FindOneById(id), FindOneByName(patch.name.value), Save(Merge(store[id], patch))]
    ensures id in store && NeedsNameCheck(store[id], patch) && NameTaken(store, patch.name.value) ==>
      o.calls == [FindOneById(id), FindOneByName(patch.name.value)]
    ensures id in store && NeedsNameCheck(store[id], patch) && NameTaken(store, patch.name.value) ==>
      o.result == Raise(BadRequest(Text(DuplicateNameOnUpdate))) && SaveCount(o.calls) == 0
    ensures o.result.Ok? <==> id in store && fault.None? && !(NeedsNameCheck(store[id], patch) && NameTaken(store, patch.name.value))
    ensures o.result.Ok? ==>
      o.result.value == Merge(store[id], patch) && o.store == store[id := Merge(store[id], patch)] && SaveCount(o.calls) == 1
    ensures id in store && fault.Some? && !(NeedsNameCheck(store[id], patch) && NameTaken(store, patch.name.value)) ==>
      o.result == Raise(StoreFailure(fault.value))
    ensures o.result.Raise? ==> o.store == store
  {
    if id !in store then
      Outcome(store, Raise(NotFound(UpdateNotFound(id))), [FindOneById(id)])
    else
      var p := store[id];
      var check := NeedsNameCheck(p, patch);
      if check && NameTakenByOther(store, patch.name.value, id) then
        var calls := [FindOneById(id), FindOneByName(patch.name.value)];
        assert FindOneCount(calls) == 2 && SaveCount(calls) == 0 by {
          assert calls[1..] == [FindOneByName(patch.name.value)];
          assert calls[1..][1..] == [];
          assert FindOneCount(calls[1..][1..]) == 0 && SaveCount(calls[1..][1..]) == 0;
          assert FindOneCount(calls[1..]) == 1 && SaveCount(calls[1..]) == 0;
        }
        Outcome(store, Raise(BadRequest(Text(DuplicateNameOnUpdate))), calls)
      else
        assert check ==> !NameTaken(store, patch.name.value) by {
          if check { NameTakenByOtherWhenChecked(store, id, patch); }
        }
        var merged := Merge(p, patch);
        var calls := if check then [FindOneById(id), FindOneByName(patch.name.value), Save(merged)]
                     else [FindOneById(id), Save(merged)];
        assert FindOneCount(calls) == (if check then 2 else 1) && SaveCount(calls) == 1 by {
          if check {
            assert calls[1..] == [FindOneByName(patch.name.value), Save(merged)];
            assert calls[1..][1..] == [Save(merged)];
            assert calls[1..][1..][1..] == [];
            assert FindOneCount(calls[1..][1..][1..]) == 0 && SaveCount(calls[1..][1..][1..]) == 0;
            assert FindOneCount(calls[1..][1..]) == 0 && SaveCount(calls[1..][1..]) == 1;
            assert FindOneCount(calls[1..]) == 1 && SaveCount(calls[1..]) == 1;
          } else {
            assert calls[1..] == [Save(merged)];
            assert calls[1..][1..] == [];
            assert FindOneCount(calls[1..][1..]) == 0 && SaveCount(calls[1..][1..]) == 0;
            assert FindOneCount(calls[1..]) == 0 && SaveCount(calls[1..]) == 1;
          }
        }
        if fault.Some? then Outcome(store, Raise(StoreFailure(fault.value)), calls)
        else Outcome(store[id := merged], Ok(merged), calls)
  }

  /** `create` keeps the table consistent. */
  lemma CreatePreservesConsistency(store: LegacyStore, dto: NewProduct, freshId: Serial, fault: Option<string>)
    requires freshId !in store && Consistent(store)
    ensures Consistent(Create(store, dto, freshId, fault).store)
  {
    if !NameTaken(store, dto.name) && fault.None? {
      var p := FromNew(freshId, dto);
      forall j | j in store && j != freshId
        ensures store[j].name != p.name
      {
      }
      PutPreservesUniqueNames(store, freshId, p);
      PutPreservesWellKeyed(store, freshId, p);
    }
  }

  /** `update` keeps the table consistent when a supplied name is not empty. */
  lemma UpdatePreservesConsistency(store: LegacyStore, id: Serial, patch: Patch, fault: Option<string>)
    requires Consistent(store)
    requires patch.name != Some("")
    ensures Consistent(Update(store, id, patch, fault).store)
  {
    var o := Update(store, id, patch, fault);
    if o.result.Ok? {
      var merged := Merge(store[id], patch);
      forall j | j in store && j != id
        ensures store[j].name != merged.name
      {
        if patch.name.Some? && patch.name.value != store[id].name {
          assert NeedsNameCheck(store[id], patch);
          assert !NameTaken(store, patch.name.value);
        } else {
          assert merged.name == store[id].name;
        }
      }
      PutPreservesUniqueNames(store, id, merged);
      PutPreservesWellKeyed(store, id, merged);
    }
  }
}
