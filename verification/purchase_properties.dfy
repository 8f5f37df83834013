/** Properties of a purchase that relate it to the catalog, the transaction
    table, the payment adapter and the request validation. */
module PurchaseProperties {
  import opened Exceptions
  import opened Enums
  import opened Columns
  import opened ProductEntity
  import opened CatalogStore
  import Catalog = DomainProductService
  import opened TransactionEntity
  import opened PaymentGateway
  import opened TransactionService
  import Validation
  import Decimal
  import Hex
  import Utf8

  /** A product at 100.00 with 5 units; two are bought and the gateway
      approves without a status message: the order costs 285.00, 3 units
      remain, and the answer says "Pago approved". */
  lemma ApprovedPurchaseScenario()
    ensures var products := map["p1" := Product("p1", "Mouse", None, 10000, 5)];
      var request := PurchaseRequest("p1", 2, "tok", "Calle 1", "Ana", "ana@example.com");
      var data := ResponseData("w1", "APPROVED", "t1", 28500, "COP", "CARD", None);
      var o := CreateTransaction(products, map[], request, "t1", Responded(data), Faults(None, None, None));
      && o.effects[0].record.amountCents == 28500
      && o.products == map["p1" := Product("p1", "Mouse", None, 10000, 3)]
      && o.result == Ok(TransactionView("t1", "p1", APPROVED, 28500, Some("w1"), "Pago approved"))
  {
    var products := map["p1" := Product("p1", "Mouse", None, 10000, 5)];
    var request := PurchaseRequest("p1", 2, "tok", "Calle 1", "Ana", "ana@example.com");
    var data := ResponseData("w1", "APPROVED", "t1", 28500, "COP", "CARD", None);
    LookupValue(APPROVED);
    assert FromGateway("APPROVED") == APPROVED;
    LowerApproved();
    var o := CreateTransaction(products, map[], request, "t1", Responded(data), Faults(None, None, None));
    assert o.products == products["p1" := products["p1"].(quantity := 3)];
    assert o.result.Ok?;
    assert o.transactions["t1"] == WithResponse(PendingRecord("t1", products["p1"], request), data);
    assert o.effects[0].record.amountCents == 28500;
    assert o.products == map["p1" := Product("p1", "Mouse", None, 10000, 3)];
    assert o.result.value.message == "Pago approved";
    assert o.result == Ok(TransactionView("t1", "p1", APPROVED, 28500, Some("w1"), "Pago approved"));
  }

  /** With enough stock checked first, no purchase drives a quantity below zero. */
  lemma StockNeverNegative(products: Catalog.DomainStore, txns: TransactionStore, request: PurchaseRequest,
                           newId: Uuid, gateway: GatewayOutcome, faults: Faults)
    requires WellKeyed(products) && newId !in txns
    requires forall k :: k in products ==> products[k].quantity >= 0
    ensures var o := CreateTransaction(products, txns, request, newId, gateway, faults);
      forall k :: k in o.products ==> o.products[k].quantity >= 0
  {
  }

  /** A request that passed validation (at least one unit) and is approved
      lowers the stock of its product by that many units. */
  lemma ValidatedPurchaseLowersStock(body: Validation.CreateTransactionBody, oracles: Validation.Oracles,
                                     products: Catalog.DomainStore, txns: TransactionStore, request: PurchaseRequest,
                                     newId: Uuid, data: ResponseData)
    requires Validation.CreateTransactionErrors(body, oracles) == []
    requires body.productId == Validation.Str(request.productId)
    requires body.quantity == Validation.Num(request.quantity as real)
    requires WellKeyed(products) && newId !in txns && StockSuffices(products, request)
    requires FromGateway(data.status) == APPROVED
    ensures var o := CreateTransaction(products, txns, request, newId, Responded(data), Faults(None, None, None));
      && 0 <= o.products[request.productId].quantity < products[request.productId].quantity
      && o.products.Keys == products.Keys
      && Validation.IsUuidText(request.productId)
  {
    Validation.CreateTransactionValidIff(body, oracles);
    assert request.quantity >= 1;
  }

  /** The service itself does not check the quantity: without the request
      validation, buying -3 units is approved, adds 3 units of stock and
      records a negative amount. */
  lemma UnvalidatedNegativeQuantityRaisesStock()
    ensures var products := map["p1" := Product("p1", "Mouse", None, 10000, 5)];
      var request := PurchaseRequest("p1", -3, "tok", "Calle 1", "Ana", "ana@example.com");
      var data := ResponseData("w1", "APPROVED", "t1", -21500, "COP", "CARD", None);
      var o := CreateTransaction(products, map[], request, "t1", Responded(data), Faults(None, None, None));
      && o.products["p1"].quantity == 8
      && o.effects[0].record.amountCents == -21500
      && o.result.Ok?
  {
    LookupValue(APPROVED);
    assert FromGateway("APPROVED") == APPROVED;
  }

  /** A purchase keeps the catalog's invariants: it changes at most one
      product's quantity. */
  lemma PurchaseKeepsCatalogConsistent(products: Catalog.DomainStore, txns: TransactionStore, request: PurchaseRequest,
                                       newId: Uuid, gateway: GatewayOutcome, faults: Faults)
    requires Consistent(products) && newId !in txns
    ensures Consistent(CreateTransaction(products, txns, request, newId, gateway, faults).products)
  {
    var o := CreateTransaction(products, txns, request, newId, gateway, faults);
    if o.products != products {
      var id := request.productId;
      var p := products[id].(quantity := products[id].quantity - request.quantity);
      PutPreservesWellKeyed(products, id, p);
      PutPreservesUniqueNames(products, id, p);
    }
  }

  /** A purchase of a non-negative quantity keeps every product within its
      columns: the only change is a stock that stays between zero and its old
      value. */
  lemma PurchaseKeepsProductColumns(products: Catalog.DomainStore, txns: TransactionStore, request: PurchaseRequest,
                                    newId: Uuid, gateway: GatewayOutcome, faults: Faults)
    requires WellKeyed(products) && newId !in txns && request.quantity >= 0
    requires forall k :: k in products ==> ProductEntity.WithinColumns(products[k])
    ensures var o := CreateTransaction(products, txns, request, newId, gateway, faults);
      forall k :: k in o.products ==> ProductEntity.WithinColumns(o.products[k])
  {
    var o := CreateTransaction(products, txns, request, newId, gateway, faults);
    if o.products != products {
      var id := request.productId;
      MergeKeepsColumns(products[id], Patch(None, None, None, Some(products[id].quantity - request.quantity)));
    }
  }

  /** Every transaction still references an existing product after a purchase. */
  lemma PurchaseKeepsReferences(products: Catalog.DomainStore, txns: TransactionStore, request: PurchaseRequest,
                                newId: Uuid, gateway: GatewayOutcome, faults: Faults)
    requires WellKeyed(products) && newId !in txns
    requires ReferencesProducts(txns, products)
    ensures var o := CreateTransaction(products, txns, request, newId, gateway, faults);
      ReferencesProducts(o.transactions, o.products)
  {
    var o := CreateTransaction(products, txns, request, newId, gateway, faults);
    assert o.products.Keys == products.Keys;
    forall k | k in o.transactions
      ensures o.transactions[k].productId in o.products
    {
      if k != newId || !(StockSuffices(products, request) && faults.pendingSave.None?) {
        assert k in txns && o.transactions[k] == txns[k];
      }
    }
  }

  /** The longest gateway or repository error message the status-message
      column holds once the service has put its prefix in front. */
  const MaxErrorMessage := 255 - |CommunicationErrorPrefix|

  lemma StatusNamesFit(s: TransactionStatus)
    ensures FitsVarchar(Value(s), 50)
  {
  }

  /** Given inputs within the columns' bounds, every stored transaction
      fits its columns after a purchase. */
  lemma PurchaseRecordsFitColumns(products: Catalog.DomainStore, txns: TransactionStore, request: PurchaseRequest,
                                  newId: Uuid, gateway: GatewayOutcome, faults: Faults)
    requires WellKeyed(products) && newId !in txns
    requires forall k :: k in txns ==> TransactionEntity.WithinColumns(txns[k])
    requires IsInt32(request.quantity)
    requires request.productId in products ==>
      FitsDecimal2(TotalCents(products[request.productId].priceCents, request.quantity), 12)
    requires FitsVarchar(request.deliveryAddress, 500) && FitsVarchar(request.customerName, 255)
    requires FitsVarchar(request.customerEmail, 255)
    requires gateway.Responded? ==>
      && FitsVarchar(gateway.data.id, 255) && FitsVarchar(gateway.data.paymentMethodType, 50)
      && FitsNullableVarchar(gateway.data.statusMessage, 255)
    requires gateway.Raised? ==> |gateway.message| <= MaxErrorMessage
    requires faults.stockUpdate.Some? ==> |faults.stockUpdate.value| <= MaxErrorMessage
    ensures var o := CreateTransaction(products, txns, request, newId, gateway, faults);
      forall k :: k in o.transactions ==> TransactionEntity.WithinColumns(o.transactions[k])
  {
    var o := CreateTransaction(products, txns, request, newId, gateway, faults);
    if StockSuffices(products, request) && faults.pendingSave.None? {
      var product := products[request.productId];
      var pending := PendingRecord(newId, product, request);
      var pay := Pay(products, product, pending, request, gateway, faults.stockUpdate);
      StatusNamesFit(pay.record.status);
      assert TransactionEntity.WithinColumns(pending);
      assert TransactionEntity.WithinColumns(pay.record);
    }
  }

  /** A failure message longer than that no longer fits, so the final save of
      such a record is refused by the database. */
  lemma LongErrorMessageOverflowsColumn(t: Transaction, message: string)
    requires |message| > MaxErrorMessage
    ensures !TransactionEntity.WithinColumns(WithFailure(t, message))
  {
  }

  /** The request the service hands to the adapter is signed over the
      record's id, the order total in cents, "COP" and the integrity key. */
  lemma PurchaseIsSignedOverItsOrder(sha256: seq<Hex.byte> -> Digest, integrityKey: string,
                                     products: Catalog.DomainStore, txns: TransactionStore, request: PurchaseRequest,
                                     newId: Uuid, gateway: GatewayOutcome, faults: Faults, http: HttpOutcome)
    requires WellKeyed(products) && newId !in txns
    requires StockSuffices(products, request) && faults.pendingSave.None?
    ensures var o := CreateTransaction(products, txns, request, newId, gateway, faults);
      var sent := ProcessPayment(sha256, integrityKey, o.effects[1].request, http).sent;
      var total := TotalCents(products[request.productId].priceCents, request.quantity);
      && sent.signature.Some?
      && Hex.Decode(sent.signature.value)
         == Some(sha256(Utf8.Encode(newId + Decimal.IntToDecimal(total) + "COP" + integrityKey)))
  {
  }
}
