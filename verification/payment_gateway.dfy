/** The card-payment gateway adapter: it signs the outgoing request, posts it and
    classifies failures. SHA-256 is a parameter (an arbitrary function from bytes
    to 32 bytes) and the HTTP exchange is an input describing how the post ended. */
module PaymentGateway {
  import opened Exceptions
  import Decimal
  import Hex
  import Utf8

  type Digest = s: seq<Hex.byte> | |s| == 32 witness seq(32, _ => 0)

  /** The request the transaction service builds; `signature` is filled in here. */
  datatype PaymentRequest = PaymentRequest(
    amountInCents: int,
    currency: string,
    token: string,
    reference: string,
    customerEmail: string,
    signature: Option<string>)

  /** The `data` object of a gateway response. `status` is the gateway's own
      vocabulary, which is wider than the local status enum. */
  datatype ResponseData = ResponseData(
    id: string,
    status: string,
    reference: string,
    amountInCents: int,
    currency: string,
    paymentMethodType: string,
    statusMessage: Option<string>)

  datatype GatewayResponse = GatewayResponse(data: ResponseData)

  /** The parts of an HTTP-client error body the adapter looks at. */
  datatype ErrorObject = ErrorObject(messages: Option<seq<string>>)
  datatype ErrorBody = ErrorBody(error: Option<ErrorObject>, message: Option<string>)
  datatype ErrorResponse = ErrorResponse(status: int, data: Option<ErrorBody>)

  /** How the post ended: a 2xx body, an HTTP-client error (with the gateway's
      response, or none when the request never got one), or any other error. */
  datatype HttpOutcome =
    | Delivered(body: GatewayResponse)
    | ClientError(response: Option<ErrorResponse>)
    | OtherError(message: string)

  /** What the adapter sent and what it returned or raised. */
  datatype Attempt = Attempt(sent: PaymentRequest, result: Result<GatewayResponse>)

  const UnknownGatewayError := "Error desconocido al procesar el pago con Wompi."
  const InternalPaymentError := "Error interno al procesar el pago."

  /** The integrity text: reference, amount, currency and secret, no separators. */
  function Preimage(reference: string, amountInCents: int, currency: string, integrityKey: string): string {
    reference + Decimal.IntToDecimal(amountInCents) + currency + integrityKey
  }

  /** Lowercase hex of the SHA-256 digest of the UTF-8 preimage. */
  function Signature(sha256: seq<Hex.byte> -> Digest, reference: string, amountInCents: int, currency: string, integrityKey: string): (sig: string)
    ensures |sig| == 64
    ensures Hex.IsLowerHex(sig)
    ensures Hex.Decode(sig) == Some(sha256(Utf8.Encode(Preimage(reference, amountInCents, currency, integrityKey))))
  {
    var digest := sha256(Utf8.Encode(Preimage(reference, amountInCents, currency, integrityKey)));
    Hex.RoundTrip(digest);
    Hex.Encode(digest)
  }

  /** The detail of a BadRequest raised for an HTTP-client error: the gateway's
      `error.messages` when present (any array, even an empty one, is truthy),
      else its non-empty `message`, else a fixed text. */
  function ErrorDetail(response: Option<ErrorResponse>): Detail {
    if response.Some? && response.value.data.Some? && response.value.data.value.error.Some?
       && response.value.data.value.error.value.messages.Some? then
      Messages(response.value.data.value.error.value.messages.value)
    else if response.Some? && response.value.data.Some? && response.value.data.value.message.Some?
            && response.value.data.value.message.value != "" then
      Text(response.value.data.value.message.value)
    else
      Text(UnknownGatewayError)
  }

  /** `processPayment`: sign, post, and return the body or a classified error. */
  function ProcessPayment(sha256: seq<Hex.byte> -> Digest, integrityKey: string, request: PaymentRequest, http: HttpOutcome): (a: Attempt)
    ensures a.sent.signature == Some(Signature(sha256, request.reference, request.amountInCents, request.currency, integrityKey))
    ensures a.sent.amountInCents == request.amountInCents && a.sent.currency == request.currency
    ensures a.sent.token == request.token && a.sent.reference == request.reference
    ensures a.sent.customerEmail == request.customerEmail
    ensures http.Delivered? <==> a.result.Ok?
    ensures http.Delivered? ==> a.result.value == http.body
    ensures http.ClientError? <==> (a.result.Raise? && a.result.exception.BadRequest?)
    ensures http.ClientError? ==> a.result == Raise(BadRequest(ErrorDetail(http.response)))
    ensures http.OtherError? <==> a.result == Raise(InternalServerError(InternalPaymentError))
  {
    var sig := Signature(sha256, request.reference, request.amountInCents, request.currency, integrityKey);
    var sent := request.(signature := Some(sig));
    match http
    case Delivered(body) => Attempt(sent, Ok(body))
    case ClientError(response) => Attempt(sent, Raise(BadRequest(ErrorDetail(response))))
    case OtherError(_) => Attempt(sent, Raise(InternalServerError(InternalPaymentError)))
  }

  /** The three sources of the BadRequest detail, in priority order. */
  lemma ErrorDetailPriority(response: Option<ErrorResponse>)
    ensures ErrorDetail(response).Messages? <==>
      (response.Some? && response.value.data.Some? && response.value.data.value.error.Some?
       && response.value.data.value.error.value.messages.Some?)
    ensures ErrorDetail(response).Messages? ==>
      ErrorDetail(response).messages == response.value.data.value.error.value.messages.value
    ensures ErrorDetail(response).Text? && ErrorDetail(response).text != UnknownGatewayError ==>
      response.Some? && response.value.data.Some? && response.value.data.value.message == Some(ErrorDetail(response).text)
    ensures ErrorDetail(response).Text? ==> ErrorDetail(response).text != ""
    // Without a messages array, a non-empty message is the detail ...
    ensures ErrorDetail(response).Text? && response.Some? && response.value.data.Some?
            && response.value.data.value.message.Some? && response.value.data.value.message.value != "" ==>
      ErrorDetail(response) == Text(response.value.data.value.message.value)
    // ... and with neither, the fixed text is.
    ensures ErrorDetail(response).Text? && !(response.Some? && response.value.data.Some?
            && response.value.data.value.message.Some? && response.value.data.value.message.value != "") ==>
      ErrorDetail(response) == Text(UnknownGatewayError)
  {
  }

  /** A post that never got a response is still an HTTP-client error, so it is
      reported as a BadRequest with the fixed text, not as a server error. */
  lemma UnreachableGatewayIsBadRequest(sha256: seq<Hex.byte> -> Digest, integrityKey: string, request: PaymentRequest)
    ensures ProcessPayment(sha256, integrityKey, request, ClientError(None)).result
      == Raise(BadRequest(Text(UnknownGatewayError)))
  {
  }

  /** The encoded preimage is the encodings of its four parts, in order. */
  lemma PreimageBytes(reference: string, amountInCents: int, currency: string, integrityKey: string)
    ensures Utf8.Encode(Preimage(reference, amountInCents, currency, integrityKey))
      == Utf8.Encode(reference) + Utf8.Encode(Decimal.IntToDecimal(amountInCents))
         + Utf8.Encode(currency) + Utf8.Encode(integrityKey)
  {
    var amount := Decimal.IntToDecimal(amountInCents);
    Utf8.EncodeAppend(reference + amount + currency, integrityKey);
    Utf8.EncodeAppend(reference + amount, currency);
    Utf8.EncodeAppend(reference, amount);
  }

  /** With references of one length (uuids) and a fixed currency and secret,
      the preimage determines the reference and the amount. */
  lemma PreimageInjective(r1: string, a1: int, r2: string, a2: int, currency: string, integrityKey: string)
    requires |r1| == |r2|
    requires Preimage(r1, a1, currency, integrityKey) == Preimage(r2, a2, currency, integrityKey)
    ensures r1 == r2 && a1 == a2
  {
    var p1 := Preimage(r1, a1, currency, integrityKey);
    var p2 := Preimage(r2, a2, currency, integrityKey);
    var d1 := Decimal.IntToDecimal(a1);
    var d2 := Decimal.IntToDecimal(a2);
    assert r1 == p1[..|r1|] == p2[..|r2|] == r2;
    assert |d1| == |d2|;
    assert d1 == p1[|r1|..|r1| + |d1|] == p2[|r2|..|r2| + |d2|] == d2;
    Decimal.IntToDecimalInjective(a1, a2);
  }

  /** Without the fixed length, the separator-free preimage is ambiguous. */
  lemma PreimageAmbiguousAcrossReferenceLengths(currency: string, integrityKey: string)
    ensures Preimage("ref1", 23, currency, integrityKey) == Preimage("ref", 123, currency, integrityKey)
  {
    assert Decimal.IntToDecimal(23) == "23";
    assert Decimal.IntToDecimal(123) == "123";
  }
}
