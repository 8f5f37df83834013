/** The class-validator rules the request bodies are checked against, after
    the global ValidationPipe's type conversion. A body is valid when no rule
    fails; otherwise the pipe answers BadRequest with every failing rule's
    message. Email syntax and membership in the payment-method enum are
    library checks given here as parameters. */
module Validation {
  import opened Exceptions

  /** A property value of the parsed body. */
  datatype Value = Missing | Null | Num(n: real) | NotANumber | Str(s: string) | Other

  datatype Check = IsNumber | IsString | IsNotEmpty | Min(bound: real) | MaxLength(length: nat) | IsEmail | IsEnum | IsUuid

  datatype Constraint = Constraint(check: Check, message: string)

  /** One property: `@IsOptional()` or not, and its other decorators. */
  datatype Field = Field(optional: bool, constraints: seq<Constraint>)

  /** The two checks the model does not define. */
  datatype Oracles = Oracles(isEmail: string -> bool, isPaymentMethodType: string -> bool)

  function Passes(c: Check, v: Value, oracles: Oracles): bool {
    match c
    case IsNumber => v.Num?
    case IsString => v.Str?
    case IsNotEmpty => !(v.Missing? || v.Null? || v == Str(""))
    case Min(bound) => v.Num? && v.n >= bound
    case MaxLength(length) => v.Str? && TextLength(v.s) <= length
    case IsEmail => v.Str? && oracles.isEmail(v.s)
    case IsEnum => v.Str? && oracles.isPaymentMethodType(v.s)
    case IsUuid => v.Str? && IsUuidText(v.s)
  }

  /** The length `MaxLength` compares: code points, not counting the two
      variation selectors U+FE0E and U+FE0F. */
  function TextLength(s: string): (n: nat)
    ensures n <= |s|
    ensures (forall i :: 0 <= i < |s| ==> s[i] != '\U{FE0E}' && s[i] != '\U{FE0F}') ==> n == |s|
  {
    if |s| == 0 then 0
    else (if s[0] == '\U{FE0E}' || s[0] == '\U{FE0F}' then 0 else 1) + TextLength(s[1..])
  }

  predicate IsHexChar(c: char) {
    '0' <= c <= '9' || 'a' <= c <= 'f' || 'A' <= c <= 'F'
  }

  /** The 8-4-4-4-12 hexadecimal form `IsUUID` accepts for any version. */
  predicate IsUuidText(s: string) {
    |s| == 36 && forall i :: 0 <= i < 36 ==> if i == 8 || i == 13 || i == 18 || i == 23 then s[i] == '-' else IsHexChar(s[i])
  }

  /** Every constraint of `cs` holds for `v`. */
  predicate AllPass(cs: seq<Constraint>, v: Value, oracles: Oracles) {
    |cs| == 0 || (Passes(cs[0].check, v, oracles) && AllPass(cs[1..], v, oracles))
  }

  /** Messages of the failing constraints; an optional property that is
      missing or null is not checked at all. */
  function FieldErrors(f: Field, v: Value, oracles: Oracles): (errs: seq<string>)
    ensures f.optional && (v.Missing? || v.Null?) ==> errs == []
    ensures errs == [] <==> (f.optional && (v.Missing? || v.Null?)) || AllPass(f.constraints, v, oracles)
  {
    if f.optional && (v.Missing? || v.Null?) then [] else Failing(f.constraints, v, oracles)
  }

  function Failing(cs: seq<Constraint>, v: Value, oracles: Oracles): (errs: seq<string>)
    ensures forall i :: 0 <= i < |cs| && !Passes(cs[i].check, v, oracles) ==> cs[i].message in errs
    ensures forall m :: m in errs ==> exists i :: 0 <= i < |cs| && !Passes(cs[i].check, v, oracles) && cs[i].message == m
    ensures errs == [] <==> AllPass(cs, v, oracles)
  {
    if |cs| == 0 then []
    else
      var rest := Failing(cs[1..], v, oracles);
      assert forall i :: 1 <= i < |cs| ==> cs[i] == cs[1..][i - 1];
      if Passes(cs[0].check, v, oracles) then rest else [cs[0].message] + rest
  }

  lemma AllPass2(a: Constraint, b: Constraint, v: Value, o: Oracles)
    ensures AllPass([a, b], v, o) <==> Passes(a.check, v, o) && Passes(b.check, v, o)
  {
    assert [a, b][1..] == [b];
    assert [b][1..] == [];
    assert AllPass([b], v, o) <==> Passes(b.check, v, o) && AllPass([], v, o);
  }

  lemma AllPass3(a: Constraint, b: Constraint, c: Constraint, v: Value, o: Oracles)
    ensures AllPass([a, b, c], v, o) <==> Passes(a.check, v, o) && Passes(b.check, v, o) && Passes(c.check, v, o)
  {
    assert [a, b, c][1..] == [b, c];
    AllPass2(b, c, v, o);
  }

  /** The pipe's verdict on a body with these errors. */
  function Verdict(errs: seq<string>): (r: Result<()>)
    ensures r.Ok? <==> errs == []
    ensures r.Raise? ==> r.exception == BadRequest(Messages(errs))
  {
    if errs == [] then Ok(()) else Raise(BadRequest(Messages(errs)))
  }

  // ---------------------------------------------------------------------------
  // CreateTransactionDto

  datatype CreateTransactionBody = CreateTransactionBody(
    productId: Value, quantity: Value, wompiToken: Value,
    deliveryAddress: Value, customerName: Value, customerEmail: Value)

  /** The product id rule as declared: a number. The pipe converts a text
      value to the declared number type first, so a uuid arrives as NaN. */
  const ProductIdFieldAsWritten := Field(false, [
    Constraint(IsNumber, "El ID del producto debe ser un número."),
    Constraint(IsNotEmpty, "El ID del producto no puede estar vacío.")])
  /** The rule the products' uuid keys call for. */
  const ProductIdField := Field(false, [
    Constraint(IsUuid, "El ID del producto debe ser un UUID válido."),
    Constraint(IsNotEmpty, "El ID del producto no puede estar vacío.")])
  const PurchaseQuantityField := Field(false, [
    Constraint(IsNumber, "La cantidad debe ser un número."),
    Constraint(IsNotEmpty, "La cantidad no puede estar vacía."),
    Constraint(Min(1.0), "La cantidad mínima es 1.")])
  const WompiTokenField := Field(false, [
    Constraint(IsString, "El token de Wompi debe ser una cadena de texto."),
    Constraint(IsNotEmpty, "El token de Wompi no puede estar vacío.")])
  const DeliveryAddressField := Field(false, [
    Constraint(IsString, "La dirección de entrega debe ser una cadena de texto."),
    Constraint(IsNotEmpty, "La dirección de entrega no puede estar vacía."),
    Constraint(MaxLength(500), "La dirección de entrega no puede exceder los 500 caracteres.")])
  const CustomerNameField := Field(false, [
    Constraint(IsString, "El nombre del cliente debe ser una cadena de texto."),
    Constraint(IsNotEmpty, "El nombre del cliente no puede estar vacío."),
    Constraint(MaxLength(255), "El nombre del cliente no puede exceder los 255 caracteres.")])
  const CustomerEmailField := Field(false, [
    Constraint(IsEmail, "El correo electrónico del cliente debe ser una dirección válida."),
    Constraint(IsNotEmpty, "El correo electrónico del cliente no puede estar vacío."),
    Constraint(MaxLength(255), "El correo electrónico del cliente no puede exceder los 255 caracteres.")])

  /** The errors of every property but the product id. */
  function PurchaseDetailsErrors(b: CreateTransactionBody, o: Oracles): seq<string> {
    FieldErrors(PurchaseQuantityField, b.quantity, o)
    + FieldErrors(WompiTokenField, b.wompiToken, o)
    + FieldErrors(DeliveryAddressField, b.deliveryAddress, o)
    + FieldErrors(CustomerNameField, b.customerName, o)
    + FieldErrors(CustomerEmailField, b.customerEmail, o)
  }

  function CreateTransactionErrorsAsWritten(b: CreateTransactionBody, o: Oracles): seq<string> {
    FieldErrors(ProductIdFieldAsWritten, b.productId, o) + PurchaseDetailsErrors(b, o)
  }

  function CreateTransactionErrors(b: CreateTransactionBody, o: Oracles): seq<string> {
    FieldErrors(ProductIdField, b.productId, o) + PurchaseDetailsErrors(b, o)
  }

  /** As declared, only a numeric product id gets through, and any text id,
      a uuid included, is refused as not a number; but every product key is a
      uuid, so no purchase body that names a product is accepted. */
  lemma AsWrittenRefusesUuidProductId(b: CreateTransactionBody, o: Oracles)
    ensures CreateTransactionErrorsAsWritten(b, o) == [] ==> b.productId.Num?
    ensures b.productId.NotANumber? || b.productId.Str? ==>
      "El ID del producto debe ser un número." in CreateTransactionErrorsAsWritten(b, o)
  {
    var p := ProductIdFieldAsWritten.constraints;
    AllPass2(p[0], p[1], b.productId, o);
    if !Passes(p[0].check, b.productId, o) {
      assert p[0].message in FieldErrors(ProductIdFieldAsWritten, b.productId, o);
    }
  }

  /** A non-empty string of length at most `n`, counted as `MaxLength` counts. */
  predicate BoundedText(v: Value, n: nat) {
    v.Str? && v.s != "" && TextLength(v.s) <= n
  }

  /** The purchase body is accepted exactly when each property meets its rules. */
  lemma CreateTransactionValidIff(b: CreateTransactionBody, o: Oracles)
    ensures CreateTransactionErrors(b, o) == [] <==>
      && b.productId.Str? && IsUuidText(b.productId.s)
      && b.quantity.Num? && b.quantity.n >= 1.0
      && b.wompiToken.Str? && b.wompiToken.s != ""
      && BoundedText(b.deliveryAddress, 500)
      && BoundedText(b.customerName, 255)
      && BoundedText(b.customerEmail, 255) && o.isEmail(b.customerEmail.s)
  {
    var p, q, t := ProductIdField.constraints, PurchaseQuantityField.constraints, WompiTokenField.constraints;
    AllPass2(p[0], p[1], b.productId, o);
    AllPass3(q[0], q[1], q[2], b.quantity, o);
    AllPass2(t[0], t[1], b.wompiToken, o);
    var d, n, e := DeliveryAddressField.constraints, CustomerNameField.constraints, CustomerEmailField.constraints;
    AllPass3(d[0], d[1], d[2], b.deliveryAddress, o);
    AllPass3(n[0], n[1], n[2], b.customerName, o);
    AllPass3(e[0], e[1], e[2], b.customerEmail, o);
  }

  // ---------------------------------------------------------------------------
  // WompiPaymentMethodDto

  datatype PaymentMethodBody = PaymentMethodBody(methodType: Value, installments: Value, token: Value)

  const MethodTypeField := Field(false, [
    Constraint(IsString, "El tipo de método de pago debe ser una cadena de texto."),
    Constraint(IsNotEmpty, "El tipo de método de pago no puede estar vacío."),
    Constraint(IsEnum, "El tipo de método de pago no es válido.")])
  const InstallmentsField := Field(false, [
    Constraint(IsNumber, "El número de cuotas debe ser un número."),
    Constraint(IsNotEmpty, "El número de cuotas no puede estar vacío."),
    Constraint(Min(1.0), "El número de cuotas debe ser al menos 1.")])
  const CardTokenField := Field(false, [
    Constraint(IsString, "El token de la tarjeta debe ser una cadena de texto."),
    Constraint(IsNotEmpty, "El token de la tarjeta no puede estar vacío.")])

  function PaymentMethodErrors(b: PaymentMethodBody, o: Oracles): seq<string> {
    FieldErrors(MethodTypeField, b.methodType, o)
    + FieldErrors(InstallmentsField, b.installments, o)
    + FieldErrors(CardTokenField, b.token, o)
  }

  lemma PaymentMethodValidIff(b: PaymentMethodBody, o: Oracles)
    ensures PaymentMethodErrors(b, o) == [] <==>
      && b.methodType.Str? && b.methodType.s != "" && o.isPaymentMethodType(b.methodType.s)
      && b.installments.Num? && b.installments.n >= 1.0
      && b.token.Str? && b.token.s != ""
  {
    var m, i, t := MethodTypeField.constraints, InstallmentsField.constraints, CardTokenField.constraints;
    AllPass3(m[0], m[1], m[2], b.methodType, o);
    AllPass3(i[0], i[1], i[2], b.installments, o);
    AllPass2(t[0], t[1], b.token, o);
  }

  // ---------------------------------------------------------------------------
  // CreateProductDto and the two UpdateProductDto variants

  datatype ProductBody = ProductBody(name: Value, description: Value, price: Value, quantity: Value)

  const NameConstraints := [
    Constraint(IsString, "El nombre debe ser una cadena de texto."),
    Constraint(IsNotEmpty, "El nombre no puede estar vacío."),
    Constraint(MaxLength(255), "El nombre no puede exceder los 255 caracteres.")]
  const DescriptionConstraints := [Constraint(IsString, "La descripción debe ser una cadena de texto.")]
  const PriceNumber := Constraint(IsNumber, "El precio debe ser un número.")
  const PriceConstraints := [
    PriceNumber,
    Constraint(IsNotEmpty, "El precio no puede estar vacío."),
    Constraint(Min(0.0), "El precio no puede ser negativo.")]
  const StockConstraints := [
    Constraint(IsNumber, "La cantidad debe ser un número."),
    Constraint(IsNotEmpty, "La cantidad no puede estar vacía."),
    Constraint(Min(0.0), "La cantidad no puede ser negativa.")]

  function CreateProductErrors(b: ProductBody, o: Oracles): seq<string> {
    FieldErrors(Field(false, NameConstraints), b.name, o)
    + FieldErrors(Field(true, DescriptionConstraints), b.description, o)
    + FieldErrors(Field(false, PriceConstraints), b.price, o)
    + FieldErrors(Field(false, StockConstraints), b.quantity, o)
  }

  /** `PartialType(CreateProductDto)` makes every inherited property optional;
      the redeclared `price` replaces the inherited price rules with its own
      lower bound. */
  function UpdateProductErrors(b: ProductBody, o: Oracles): seq<string> {
    FieldErrors(Field(true, NameConstraints), b.name, o)
    + FieldErrors(Field(true, DescriptionConstraints), b.description, o)
    + FieldErrors(Field(true, [PriceNumber, Constraint(Min(2000.0), "El precio no puede ser menor a $2000 pesos colombianos.")]), b.price, o)
    + FieldErrors(Field(true, StockConstraints), b.quantity, o)
  }

  /** The legacy update body (both copies of it): only the redeclared price
      rule is known; the legacy create body it inherits from is not part of
      this model, so the other properties carry no rule. */
  function LegacyUpdateProductErrors(b: ProductBody, o: Oracles): seq<string> {
    FieldErrors(Field(true, [PriceNumber, Constraint(Min(0.0), "El precio no puede ser negativo.")]), b.price, o)
  }

  predicate Absent(v: Value) {
    v.Missing? || v.Null?
  }

  lemma CreateProductValidIff(b: ProductBody, o: Oracles)
    ensures CreateProductErrors(b, o) == [] <==>
      && BoundedText(b.name, 255)
      && (Absent(b.description) || b.description.Str?)
      && b.price.Num? && b.price.n >= 0.0
      && b.quantity.Num? && b.quantity.n >= 0.0
  {
    AllPass3(NameConstraints[0], NameConstraints[1], NameConstraints[2], b.name, o);
    assert DescriptionConstraints[1..] == [];
    AllPass3(PriceConstraints[0], PriceConstraints[1], PriceConstraints[2], b.price, o);
    AllPass3(StockConstraints[0], StockConstraints[1], StockConstraints[2], b.quantity, o);
  }

  lemma UpdateProductValidIff(b: ProductBody, o: Oracles)
    ensures UpdateProductErrors(b, o) == [] <==>
      && (Absent(b.name) || BoundedText(b.name, 255))
      && (Absent(b.description) || b.description.Str?)
      && (Absent(b.price) || (b.price.Num? && b.price.n >= 2000.0))
      && (Absent(b.quantity) || (b.quantity.Num? && b.quantity.n >= 0.0))
  {
    AllPass3(NameConstraints[0], NameConstraints[1], NameConstraints[2], b.name, o);
    assert DescriptionConstraints[1..] == [];
    AllPass2(PriceNumber, Constraint(Min(2000.0), "El precio no puede ser menor a $2000 pesos colombianos."), b.price, o);
    AllPass3(StockConstraints[0], StockConstraints[1], StockConstraints[2], b.quantity, o);
  }

  lemma LegacyUpdateProductValidIff(b: ProductBody, o: Oracles)
    ensures LegacyUpdateProductErrors(b, o) == [] <==> Absent(b.price) || (b.price.Num? && b.price.n >= 0.0)
  {
    AllPass2(PriceNumber, Constraint(Min(0.0), "El precio no puede ser negativo."), b.price, o);
  }

  /** A complete body an update accepts, a create accepts too, but not the
      other way round: a product created at a price below 2000 cannot be
      updated back to that price. */
  lemma UpdatePriceStricterThanCreate(b: ProductBody, o: Oracles)
    requires !Absent(b.name) && !Absent(b.price) && !Absent(b.quantity)
    ensures UpdateProductErrors(b, o) == [] ==> CreateProductErrors(b, o) == []
    ensures var create := ProductBody(Str("p"), Missing, Num(100.0), Num(1.0));
      CreateProductErrors(create, o) == []
      && UpdateProductErrors(ProductBody(Missing, Missing, Num(100.0), Missing), o) != []
  {
    CreateProductValidIff(b, o);
    UpdateProductValidIff(b, o);
    CreateProductValidIff(ProductBody(Str("p"), Missing, Num(100.0), Num(1.0)), o);
    UpdateProductValidIff(ProductBody(Missing, Missing, Num(100.0), Missing), o);
  }

  /** The two variation selectors do not count towards a length limit: a
      name of 255 letters and one U+FE0F passes the 255 limit although it
      holds 256 characters. */
  lemma VariationSelectorNotCounted(o: Oracles)
    ensures var name := seq(255, _ => 'a') + ['\U{FE0F}'];
      |name| == 256 && FieldErrors(Field(false, NameConstraints), Str(name), o) == []
  {
    var a := seq(255, _ => 'a');
    var name := a + ['\U{FE0F}'];
    assert TextLength(a) == 255;
    TextLengthAppend(a, ['\U{FE0F}']);
    AllPass3(NameConstraints[0], NameConstraints[1], NameConstraints[2], Str(name), o);
  }

  lemma {:induction false} TextLengthAppend(a: string, b: string)
    ensures TextLength(a + b) == TextLength(a) + TextLength(b)
  {
    if |a| == 0 {
      assert a + b == b;
    } else {
      assert (a + b)[1..] == a[1..] + b;
      TextLengthAppend(a[1..], b);
    }
  }

  /** An empty name, a negative price and a non-numeric quantity are all
      reported in one answer. */
  lemma InvalidProductReportsEveryField(o: Oracles)
    ensures var errs := CreateProductErrors(ProductBody(Str(""), Missing, Num(-5.0), NotANumber), o);
      && "El nombre no puede estar vacío." in errs
      && "El precio no puede ser negativo." in errs
      && "La cantidad debe ser un número." in errs
      && Verdict(errs) == Raise(BadRequest(Messages(errs)))
  {
    var b := ProductBody(Str(""), Missing, Num(-5.0), NotANumber);
    var e1 := FieldErrors(Field(false, NameConstraints), b.name, o);
    var e3 := FieldErrors(Field(false, PriceConstraints), b.price, o);
    var e4 := FieldErrors(Field(false, StockConstraints), b.quantity, o);
    assert !Passes(NameConstraints[1].check, b.name, o);
    assert !Passes(PriceConstraints[2].check, b.price, o);
    assert !Passes(StockConstraints[0].check, b.quantity, o);
  }
}
