/** The product record. The hexagonal entity keys it by a generated uuid, the
    legacy one by a generated serial number; both have the same columns, so the
    record is generic in its key type. Timestamps are left out. */
module ProductEntity {
  import opened Exceptions
  import opened Columns

  datatype Product<K> = Product(
    id: K,
    name: string,
    description: Option<string>,
    priceCents: int,
    quantity: int)

  /** Key of the hexagonal entity: an opaque uuid string. */
  type Uuid = string

  /** Key of the legacy entity: a serial number. */
  type Serial = nat

  /** `name` varchar(255) not null, `description` text null, `price`
      decimal(10,2) not null, `quantity` int not null. */
  predicate WithinColumns<K>(p: Product<K>) {
    && FitsVarchar(p.name, 255)
    && FitsDecimal2(p.priceCents, 10)
    && IsInt32(p.quantity)
  }
}
