/** The transaction record: one purchase attempt, keyed by uuid, referencing
    exactly one product. Amounts are in cents; timestamps are left out. */
module TransactionEntity {
  import opened Exceptions
  import opened Columns
  import opened Enums
  import opened ProductEntity
  import opened CatalogStore

  datatype Transaction = Transaction(
    id: Uuid,
    productId: Uuid,
    quantity: int,
    amountCents: int,
    status: TransactionStatus,
    wompiTransactionId: Option<string>,
    wompiPaymentMethodType: Option<string>,
    wompiPaymentStatusMessage: Option<string>,
    deliveryAddress: string,
    customerName: string,
    customerEmail: string)

  type TransactionStore = map<Uuid, Transaction>

  /** The column declarations: `quantity` int, `amount` decimal(12,2), `status`
      varchar(50), the three gateway columns nullable varchar(255/50/255), and
      the delivery columns varchar(500/255/255), all others not null. */
  predicate WithinColumns(t: Transaction) {
    && IsInt32(t.quantity)
    && FitsDecimal2(t.amountCents, 12)
    && FitsVarchar(Value(t.status), 50)
    && FitsNullableVarchar(t.wompiTransactionId, 255)
    && FitsNullableVarchar(t.wompiPaymentMethodType, 50)
    && FitsNullableVarchar(t.wompiPaymentStatusMessage, 255)
    && FitsVarchar(t.deliveryAddress, 500)
    && FitsVarchar(t.customerName, 255)
    && FitsVarchar(t.customerEmail, 255)
  }

  /** The many-to-one relation: every transaction's product exists. */
  predicate ReferencesProducts(txns: TransactionStore, products: Store<Uuid>) {
    forall k :: k in txns ==> txns[k].productId in products
  }

  const RestrictViolation := "delete on table products violates foreign key constraint of table transactions"

  /** `onDelete: 'RESTRICT'`: the database refuses to delete a product that a
      transaction still references. The verdict is the fault the repository's
      `remove` raises. */
  function RestrictVerdict(txns: TransactionStore, productId: Uuid): (v: Option<string>)
    ensures v.None? <==> forall k :: k in txns ==> txns[k].productId != productId
  {
    if exists k :: k in txns && txns[k].productId == productId then Some(RestrictViolation) else None
  }

  /** Removing a product under the RESTRICT rule never leaves a transaction
      pointing at a missing product. */
  lemma RemoveUnderRestrictKeepsReferences(products: Store<Uuid>, txns: TransactionStore, id: Uuid)
    requires ReferencesProducts(txns, products)
    ensures ReferencesProducts(txns, Remove(products, id, RestrictVerdict(txns, id)).store)
  {
    var o := Remove(products, id, RestrictVerdict(txns, id));
    forall k | k in txns
      ensures txns[k].productId in o.store
    {
      if id in products && RestrictVerdict(txns, id).None? {
        assert txns[k].productId != id;
      }
    }
  }
}
