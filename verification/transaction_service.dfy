/** `TransactionService.createTransaction`: one purchase attempt. It looks the
    product up through the catalog service, checks stock, prices the order in
    cents, saves a PENDING record, calls the gateway with that record's id as
    reference, narrows the gateway status, takes stock off only on APPROVED,
    and saves the record again on every exit after the PENDING save.

    The gateway's answer is an input (a response, or an exception with its
    message), and so are the write failures of the three repository writes.
    The function returns the two stores, the ordered side effects, and the
    result view or the exception raised to the caller. */
module TransactionService {
  import opened Exceptions
  import opened Enums
  import opened ProductEntity
  import opened CatalogStore
  import Catalog = DomainProductService
  import opened TransactionEntity
  import opened PaymentGateway

  const BaseFeeCents := 500
  const DeliveryFeeCents := 8000
  const Currency := "COP"
  const InsufficientStock := "Stock insuficiente para la cantidad solicitada."
  const PaymentFailed := "Error al procesar el pago. Intente de nuevo."
  const CommunicationErrorPrefix := "Error en comunicación con Wompi: "

  /** The fields of `CreateTransactionDto` the service reads. */
  datatype PurchaseRequest = PurchaseRequest(
    productId: Uuid,
    quantity: int,
    wompiToken: string,
    deliveryAddress: string,
    customerName: string,
    customerEmail: string)

  /** What `processPayment` did: returned a response, or threw. */
  datatype GatewayOutcome = Responded(data: ResponseData) | Raised(message: string)

  /** The repository writes that fail, with the message each one raises. */
  datatype Faults = Faults(pendingSave: Option<string>, stockUpdate: Option<string>, finalSave: Option<string>)

  /** Side effects in the order they happen; a write is listed when attempted. */
  datatype Effect =
    | TransactionSaved(record: Transaction)
    | GatewayCalled(request: PaymentRequest)
    | StockUpdated(productId: Uuid, quantity: int)

  /** `TransactionResponseDto`. */
  datatype TransactionView = TransactionView(
    id: Uuid,
    productId: Uuid,
    status: TransactionStatus,
    amountCents: int,
    wompiTransactionId: Option<string>,
    message: string)

  datatype PurchaseOutcome = PurchaseOutcome(
    products: Catalog.DomainStore,
    transactions: TransactionStore,
    effects: seq<Effect>,
    result: Result<TransactionView>)

  /** The try block's end state: the catalog, the in-memory record, the effects
      and whether the catch clause ran. */
  datatype PaymentPhase = PaymentPhase(
    products: Catalog.DomainStore,
    record: Transaction,
    effects: seq<Effect>,
    caught: bool)

  /** Order total in cents: the products plus the two fixed fees. */
  function TotalCents(priceCents: int, quantity: int): int {
    priceCents * quantity + BaseFeeCents + DeliveryFeeCents
  }

  /** `error.message` of an exception the try block catches. An HttpException
      built from a list has no string message, and the framework then uses the
      class name split into words. */
  function ExceptionMessage(e: Exception): string {
    match e
    case NotFound(m) => m
    case BadRequest(Text(m)) => m
    case BadRequest(Messages(_)) => "Bad Request Exception"
    case InternalServerError(m) => m
    case StoreFailure(m) => m
  }

  /** The record saved before the gateway is called. */
  function PendingRecord(id: Uuid, product: Product<Uuid>, request: PurchaseRequest): (t: Transaction)
    ensures t.id == id && t.productId == product.id && t.quantity == request.quantity
    ensures t.amountCents == product.priceCents * request.quantity + 8500
    ensures t.status == PENDING
    ensures t.wompiTransactionId.None? && t.wompiPaymentMethodType.None? && t.wompiPaymentStatusMessage.None?
    ensures t.deliveryAddress == request.deliveryAddress && t.customerName == request.customerName
    ensures t.customerEmail == request.customerEmail
  {
    Transaction(id, product.id, request.quantity, TotalCents(product.priceCents, request.quantity), PENDING,
                None, None, None, request.deliveryAddress, request.customerName, request.customerEmail)
  }

  /** The request handed to the gateway; the adapter adds the signature. */
  function GatewayRequest(t: Transaction, request: PurchaseRequest): PaymentRequest {
    PaymentRequest(t.amountCents, Currency, request.wompiToken, t.id, request.customerEmail, None)
  }

  /** The record after a gateway response: id, narrowed status, method type,
      and the status message when it is non-empty. */
  function WithResponse(t: Transaction, data: ResponseData): (r: Transaction)
    ensures r.status == FromGateway(data.status)
    ensures r.wompiTransactionId == Some(data.id) && r.wompiPaymentMethodType == Some(data.paymentMethodType)
    ensures r.wompiPaymentStatusMessage.Some? <==> data.statusMessage.Some? && data.statusMessage.value != ""
    ensures r.wompiPaymentStatusMessage.Some? ==> r.wompiPaymentStatusMessage == data.statusMessage
    ensures r.(status := t.status, wompiTransactionId := t.wompiTransactionId,
               wompiPaymentMethodType := t.wompiPaymentMethodType,
               wompiPaymentStatusMessage := t.wompiPaymentStatusMessage) == t
  {
    t.(wompiTransactionId := Some(data.id),
       status := FromGateway(data.status),
       wompiPaymentMethodType := Some(data.paymentMethodType),
       wompiPaymentStatusMessage :=
         if data.statusMessage.Some? && data.statusMessage.value != "" then data.statusMessage else None)
  }

  /** The record after the catch clause. */
  function WithFailure(t: Transaction, message: string): (r: Transaction)
    ensures r.status == ERROR
    ensures r.wompiPaymentStatusMessage == Some(CommunicationErrorPrefix + message)
    ensures r.(status := t.status, wompiPaymentStatusMessage := t.wompiPaymentStatusMessage) == t
  {
    t.(status := ERROR, wompiPaymentStatusMessage := Some(CommunicationErrorPrefix + message))
  }

  /** The result message: the stored status message when non-empty, otherwise
      "Pago " and the lowercase status. */
  function ResultMessage(t: Transaction): (m: string)
    ensures t.wompiPaymentStatusMessage.Some? && t.wompiPaymentStatusMessage.value != "" ==>
      m == t.wompiPaymentStatusMessage.value
    ensures !(t.wompiPaymentStatusMessage.Some? && t.wompiPaymentStatusMessage.value != "") ==>
      m == "Pago " + ToLowerAscii(Value(t.status))
  {
    if t.wompiPaymentStatusMessage.Some? && t.wompiPaymentStatusMessage.value != "" then
      t.wompiPaymentStatusMessage.value
    else
      "Pago " + ToLowerAscii(Value(t.status))
  }

  function View(t: Transaction): (v: TransactionView)
    ensures v.id == t.id && v.productId == t.productId && v.status == t.status
    ensures v.amountCents == t.amountCents && v.wompiTransactionId == t.wompiTransactionId
    ensures v.message == ResultMessage(t)
  {
    TransactionView(t.id, t.productId, t.status, t.amountCents, t.wompiTransactionId, ResultMessage(t))
  }

  /** The try/catch part: call the gateway, apply its answer, take stock off on
      APPROVED through the catalog's `update`, and fall into the catch clause on
      any exception (the gateway's or the stock update's). */
  function Pay(products: Catalog.DomainStore, product: Product<Uuid>, t: Transaction, request: PurchaseRequest,
               gateway: GatewayOutcome, stockFault: Option<string>): (p: PaymentPhase)
    requires WellKeyed(products) && product.id in products
    ensures |p.effects| >= 1 && p.effects[0] == GatewayCalled(GatewayRequest(t, request))
    ensures p.products != products ==>
      gateway.Responded? && FromGateway(gateway.data.status) == APPROVED && stockFault.None?
    ensures gateway.Responded? && FromGateway(gateway.data.status) == APPROVED && stockFault.None? ==>
      p.products == products[product.id := products[product.id].(quantity := product.quantity - request.quantity)]
      && !p.caught && p.record == WithResponse(t, gateway.data)
    ensures gateway.Responded? && FromGateway(gateway.data.status) == APPROVED && stockFault.Some? ==>
      p.products == products && p.caught && p.record == WithFailure(WithResponse(t, gateway.data), stockFault.value)
    ensures gateway.Responded? && FromGateway(gateway.data.status) != APPROVED ==>
      p.products == products && !p.caught && p.record == WithResponse(t, gateway.data) && |p.effects| == 1
    ensures gateway.Raised? ==>
      p.products == products && p.caught && p.record == WithFailure(t, gateway.message) && |p.effects| == 1
    ensures p.caught <==> p.record.status == ERROR && (gateway.Raised? || stockFault.Some?)
                          && (gateway.Responded? ==> FromGateway(gateway.data.status) == APPROVED)
    // Only the status and the three gateway columns change.
    ensures p.record == t.(status := p.record.status, wompiTransactionId := p.record.wompiTransactionId,
                           wompiPaymentMethodType := p.record.wompiPaymentMethodType,
                           wompiPaymentStatusMessage := p.record.wompiPaymentStatusMessage)
  {
    var call := GatewayCalled(GatewayRequest(t, request));
    match gateway
    case Raised(m) =>
      PaymentPhase(products, WithFailure(t, m), [call], true)
    case Responded(data) =>
      var answered := WithResponse(t, data);
      if answered.status == APPROVED then
        var remaining := product.quantity - request.quantity;
        var update := Catalog.Update(products, product.id, Patch(None, None, None, Some(remaining)), stockFault);
        var effects := [call, StockUpdated(product.id, remaining)];
        if update.result.Raise? then
          PaymentPhase(products, WithFailure(answered, ExceptionMessage(update.result.exception)), effects, true)
        else
          PaymentPhase(update.store, answered, effects, false)
      else
        PaymentPhase(products, answered, [call], false)
  }

  /** The stock check passes: the product exists and has enough units. */
  predicate StockSuffices(products: Catalog.DomainStore, request: PurchaseRequest) {
    request.productId in products && products[request.productId].quantity >= request.quantity
  }

  /** The gateway answered with a status the enum maps to APPROVED. */
  predicate Approved(gateway: GatewayOutcome) {
    gateway.Responded? && FromGateway(gateway.data.status) == APPROVED
  }

  /** `createTransaction`. */
  function CreateTransaction(products: Catalog.DomainStore, txns: TransactionStore, request: PurchaseRequest,
                             newId: Uuid, gateway: GatewayOutcome, faults: Faults): (o: PurchaseOutcome)
    requires WellKeyed(products)
    requires newId !in txns
    // Steps before the PENDING save fail with no side effect.
    ensures request.productId !in products ==>
      o == PurchaseOutcome(products, txns, [], Raise(NotFound(ProductNotFound)))
    ensures request.productId in products && products[request.productId].quantity < request.quantity ==>
      o == PurchaseOutcome(products, txns, [], Raise(BadRequest(Text(InsufficientStock))))
    // The PENDING record is the first effect, priced with both fees.
    ensures StockSuffices(products, request) ==>
      |o.effects| >= 1 && o.effects[0] == TransactionSaved(PendingRecord(newId, products[request.productId], request))
    ensures StockSuffices(products, request) && faults.pendingSave.Some? ==>
      o == PurchaseOutcome(products, txns, o.effects, Raise(StoreFailure(faults.pendingSave.value))) && |o.effects| == 1
    // Once it is saved: the gateway is called next, with the record's id as
    // reference and its amount in cents, and the record is saved again last.
    ensures StockSuffices(products, request) && faults.pendingSave.None? ==>
      && |o.effects| >= 3
      && o.effects[1] == GatewayCalled(PaymentRequest(o.effects[0].record.amountCents, "COP", request.wompiToken,
                                                      newId, request.customerEmail, None))
      && o.effects[|o.effects| - 1].TransactionSaved?
      && o.effects[|o.effects| - 1].record.id == newId
      && newId in o.transactions
      && o.transactions - {newId} == txns
    // Stock changes only on APPROVED, and then by exactly the quantity bought.
    ensures o.products != products ==>
      StockSuffices(products, request) && faults.pendingSave.None? && Approved(gateway) && faults.stockUpdate.None?
    ensures StockSuffices(products, request) && faults.pendingSave.None? && Approved(gateway) && faults.stockUpdate.None? ==>
      o.products == products[request.productId :=
        products[request.productId].(quantity := products[request.productId].quantity - request.quantity)]
    // A gateway exception is recorded as ERROR and reported as a BadRequest.
    ensures StockSuffices(products, request) && faults.pendingSave.None? && gateway.Raised? && faults.finalSave.None? ==>
      && o.transactions[newId].status == ERROR
      && o.transactions[newId].wompiPaymentStatusMessage == Some(CommunicationErrorPrefix + gateway.message)
      && o.result == Raise(BadRequest(Text(PaymentFailed)))
    // So is a failed stock update after an approval, but the approval's
    // gateway fields stay on the record.
    ensures StockSuffices(products, request) && faults.pendingSave.None? && Approved(gateway)
            && faults.stockUpdate.Some? && faults.finalSave.None? ==>
      && o.transactions[newId].status == ERROR
      && o.transactions[newId].wompiTransactionId == Some(gateway.data.id)
      && o.result == Raise(BadRequest(Text(PaymentFailed)))
    // The catch clause stores the record with the prefixed message: after a
    // gateway exception on the PENDING record, after a failed stock update on
    // the answered one. No other row changes.
    ensures StockSuffices(products, request) && faults.pendingSave.None? && gateway.Raised? && faults.finalSave.None? ==>
      o.transactions == txns[newId := WithFailure(PendingRecord(newId, products[request.productId], request), gateway.message)]
    ensures StockSuffices(products, request) && faults.pendingSave.None? && Approved(gateway)
            && faults.stockUpdate.Some? && faults.finalSave.None? ==>
      o.transactions == txns[newId := WithFailure(WithResponse(PendingRecord(newId, products[request.productId], request),
                                                               gateway.data), faults.stockUpdate.value)]
    // A failed final save leaves the PENDING row and replaces any other outcome.
    ensures StockSuffices(products, request) && faults.pendingSave.None? && faults.finalSave.Some? ==>
      && o.transactions == txns[newId := PendingRecord(newId, products[request.productId], request)]
      && o.result == Raise(StoreFailure(faults.finalSave.value))
    // The stored record keeps the order's data; only its status and gateway
    // columns differ from the PENDING record.
    ensures StockSuffices(products, request) && faults.pendingSave.None? ==>
      var pending := PendingRecord(newId, products[request.productId], request);
      var stored := o.transactions[newId];
      stored == pending.(status := stored.status, wompiTransactionId := stored.wompiTransactionId,
                         wompiPaymentMethodType := stored.wompiPaymentMethodType,
                         wompiPaymentStatusMessage := stored.wompiPaymentStatusMessage)
    // Success: exactly when the gateway answers and no write fails. The record
    // stored is the PENDING record with the answer applied, and the result is
    // its view.
    ensures o.result.Ok? <==>
      && StockSuffices(products, request) && faults.pendingSave.None? && gateway.Responded?
      && faults.finalSave.None? && !(Approved(gateway) && faults.stockUpdate.Some?)
    ensures o.result.Ok? ==>
      && o.transactions == txns[newId := WithResponse(PendingRecord(newId, products[request.productId], request), gateway.data)]
      && o.result == Ok(View(o.transactions[newId]))
    ensures o.result.Ok? ==>
      && gateway.Responded?
      && o.result.value.status == FromGateway(gateway.data.status)
      && newId in o.transactions
      && o.result.value == View(o.transactions[newId])
      && o.result.value.id == newId
  {
    var found := FindOne(products, request.productId);
    if found.result.Raise? then
      PurchaseOutcome(products, txns, [], Raise(found.result.exception))
    else
      var product := found.result.value;
      if product.quantity < request.quantity then
        PurchaseOutcome(products, txns, [], Raise(BadRequest(Text(InsufficientStock))))
      else
        var pending := PendingRecord(newId, product, request);
        if faults.pendingSave.Some? then
          PurchaseOutcome(products, txns, [TransactionSaved(pending)], Raise(StoreFailure(faults.pendingSave.value)))
        else
          var saved := txns[newId := pending];
          var pay := Pay(products, product, pending, request, gateway, faults.stockUpdate);
          var effects := [TransactionSaved(pending)] + pay.effects + [TransactionSaved(pay.record)];
          if faults.finalSave.Some? then
            PurchaseOutcome(pay.products, saved, effects, Raise(StoreFailure(faults.finalSave.value)))
          else if pay.caught then
            PurchaseOutcome(pay.products, saved[newId := pay.record], effects, Raise(BadRequest(Text(PaymentFailed))))
          else
            PurchaseOutcome(pay.products, saved[newId := pay.record], effects, Ok(View(pay.record)))
  }
}
