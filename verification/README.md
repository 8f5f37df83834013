# NestHexagonal purchase core in Dafny

This project models the core of NestHexagonal, a NestJS shop back end built in
hexagonal style. The core is:

- the purchase orchestrator, `TransactionService.createTransaction`;
- the Wompi payment adapter, which signs and sends a payment and classifies
  the gateway's failures;
- the two product catalog services: the hexagonal domain service, with uuid
  ids, and the legacy module, with serial ids;
- the transaction and product tables as their column declarations;
- the request-body validation rules of the DTOs;
- the Joi schema for the environment.

Each service operation is a pure function. It takes the repository contents
as maps and returns the new contents, the result (a value, or the HTTP
exception raised), and the ordered list of repository calls or side effects
it made. Anything the code cannot decide by itself is an explicit input:

- the gateway's answer;
- a failure of each repository write;
- SHA-256;
- the e-mail syntax check;
- the set of payment-method type names;
- Joi's text-to-number conversion.

Money is in integer cents throughout.

Files:

| file | contents |
|---|---|
| `exceptions.dfy` | `Option`, `Result`, and the HTTP exceptions with their messages |
| `decimal.dfy` | decimal text of integers, as template interpolation prints them |
| `hex.dfy` | bytes to lowercase two-digit hex and back |
| `utf8.dfy` | UTF-8 encoding of text |
| `payment_gateway.dfy` | the Wompi adapter: integrity signature, request, error classification |
| `enums.dfy` | `TransactionStatus`, key lookup, lower-casing |
| `columns.dfy` | integer, decimal(p,2) and varchar column bounds |
| `product_entity.dfy` | the product record of both tables |
| `transaction_entity.dfy` | the transaction record, its columns, and the RESTRICT foreign key |
| `catalog_store.dfy` | the product repository as a map, its call trace, and update merging |
| `domain_product_service.dfy` | hexagonal `ProductService` |
| `legacy_product_service.dfy` | legacy `ProductService` |
| `transaction_service.dfy` | `createTransaction` |
| `purchase_properties.dfy` | properties linking a purchase to the catalog, the table, the adapter and validation |
| `validation.dfy` | class-validator rules of the request bodies |
| `env_validation.dfy` | the environment schema |

Where the code and its description differ, the model follows the code:

- A purchase of a missing product fails with `NotFound("Product not found")`.
  That message comes from the catalog's `findOne`, which throws first, so the
  orchestrator's own not-found branch and its message are never reached.
- A gateway call that gets no HTTP response at all is still an axios error. It
  therefore becomes a BadRequest carrying the default Wompi message, not an
  internal server error.
- The default result message is `"Pago "` followed by the lower-cased status.
- The environment schema does not list the three Wompi variables, so start-up
  does not require them (`EnvValidation.GatewayKeysNotRequired`).
- The end-to-end test expects the duplicate-name message
  "A product with this name already exists.". The service throws
  "Product with this name already exists", and the model uses that.

## Model

| member | source | states |
|---|---|---|
| Decimal.IntRoundTrip | src/infrastructure/adapters/output/payment/wompi/payment.gateway.adapter.ts:36 | the decimal text of the amount inside the signature text parses back to the same integer |
| Decimal.IntToDecimalInjective | src/infrastructure/adapters/output/payment/wompi/payment.gateway.adapter.ts:36 | two different amounts never print as the same text |
| Decimal.NatToDecimalValue | src/infrastructure/adapters/output/payment/wompi/payment.gateway.adapter.ts:36 | the printed digits of a non-negative amount denote that amount |
| Hex.ByteToHex | src/infrastructure/adapters/output/payment/wompi/payment.gateway.adapter.ts:40 | `toString(16)` padded to two with '0' is exactly the high and the low nibble as lowercase hex digits |
| Hex.Encode | src/infrastructure/adapters/output/payment/wompi/payment.gateway.adapter.ts:39-40 | the joined digest text has two lowercase hex characters per byte, in byte order |
| Hex.RoundTrip | src/infrastructure/adapters/output/payment/wompi/payment.gateway.adapter.ts:39-40 | decoding the joined hex text gives back the digest bytes |
| Hex.EncodeInjective | src/infrastructure/adapters/output/payment/wompi/payment.gateway.adapter.ts:40 | different digests give different signature texts |
| Utf8.EncodeChar | src/infrastructure/adapters/output/payment/wompi/payment.gateway.adapter.ts:37 | `TextEncoder` writes a code point below 0x80 as that one byte, below 0x800 as two bytes, below 0x10000 as three and otherwise four; the leading byte marks the length, the others are continuation bytes, and the payload bits read high to low give back the code point |
| Utf8.EncodeAppend | src/infrastructure/adapters/output/payment/wompi/payment.gateway.adapter.ts:36-37 | encoding concatenated text gives the concatenation of the encodings |
| Utf8.EncodeAscii | src/infrastructure/adapters/output/payment/wompi/payment.gateway.adapter.ts:37 | ASCII text encodes to one byte per character with the same values |
| PaymentGateway.Signature | src/infrastructure/adapters/output/payment/wompi/payment.gateway.adapter.ts:36-41 | the signature is 64 lowercase hex characters that decode to SHA-256 of the UTF-8 bytes of reference, amount in cents, currency and integrity key |
| PaymentGateway.PreimageBytes | src/infrastructure/adapters/output/payment/wompi/payment.gateway.adapter.ts:36-37 | the hashed bytes are the encodings of the four parts, one after another |
| PaymentGateway.PreimageInjective | src/infrastructure/adapters/output/payment/wompi/payment.gateway.adapter.ts:36 | with references of equal length, the same currency and the same key, equal signature texts mean equal reference and amount |
| PaymentGateway.PreimageAmbiguousAcrossReferenceLengths | src/infrastructure/adapters/output/payment/wompi/payment.gateway.adapter.ts:36 | the parts have no separator: reference "ref1" with 23 cents and reference "ref" with 123 cents hash the same text |
| PaymentGateway.ProcessPayment | src/infrastructure/adapters/output/payment/wompi/payment.gateway.adapter.ts:33-67 | the request goes out signed and otherwise unchanged; a response body is returned iff the post succeeds; an axios error becomes BadRequest carrying the detail taken from its response; anything else becomes InternalServerError with the fixed message |
| PaymentGateway.ErrorDetailPriority | src/infrastructure/adapters/output/payment/wompi/payment.gateway.adapter.ts:55-58 | the BadRequest detail is the gateway's messages array iff one is present; otherwise it is the message when that is non-empty, and the default text when not; a text detail is never empty |
| PaymentGateway.UnreachableGatewayIsBadRequest | src/infrastructure/adapters/output/payment/wompi/payment.gateway.adapter.ts:49-59 | an axios error without a response gives BadRequest with the default Wompi message |
| Enums.Lookup | src/domain/services/transaction.service.ts:94-95 | a found key names a member whose value is that key |
| Enums.LookupValue | src/utils/enums.ts:2-9 | every member's value looks up to that member |
| Enums.LookupExactlyMembers | src/utils/enums.ts:2-9 | a key is found iff it is the value of some member |
| Enums.FromGateway | src/domain/services/transaction.service.ts:94-95 | the gateway status maps to the member of that name, otherwise to ERROR |
| Enums.GatewayOnlyStatesBecomeError | src/utils/enums.ts:8 | the gateway's AUTHORIZED and PENDING_VALIDATION statuses are not members and become ERROR |
| Enums.ToLowerAscii | src/domain/services/transaction.service.ts:128 | lower-casing keeps the length, moves each upper-case letter to its lower-case one, leaves every other character as it is, and leaves no upper-case letter |
| Enums.LowerApproved | src/domain/services/transaction.service.ts:128 | the lower-case text of APPROVED is "approved" |
| CatalogStore.Merge | src/domain/services/product.service.ts:51 | `Object.assign` takes each supplied field from the patch and keeps the others, and never changes the id |
| CatalogStore.NameTakenByOtherWhenChecked | src/domain/services/product.service.ts:41-49 | when the new name differs from the current one, another record holds it iff some record does |
| CatalogStore.FindAll | src/domain/services/product.service.ts:22-24 | one find returns exactly the stored records and writes nothing; the legacy `findAll` (`src/product/product.service.ts` lines 28-30) is the same |
| CatalogStore.FindOne | src/domain/services/product.service.ts:26-33 | the stored record is returned iff the id exists, otherwise NotFound("Product not found"); nothing is written; the legacy `findOne` (lines 32-39 of `src/product/product.service.ts`) is the same on serial ids |
| CatalogStore.Remove | src/domain/services/product.service.ts:65-71 | a missing id gives NotFound with no remove call; otherwise one remove deletes exactly that key, leaves the other records alone and answers the fixed message; a failed remove raises its error and changes nothing; the legacy `remove` (lines 78-84 of `src/product/product.service.ts`) is the same on serial ids |
| CatalogStore.RemovePreservesConsistency | src/domain/services/product.service.ts:65-71 | remove keeps every record under its own id and names unique |
| CatalogStore.MergeKeepsColumns | src/domain/models/product.entity.ts:9-19 | a patch whose supplied name, price and quantity fit varchar(255), decimal(10,2) and int keeps the record within the product columns |
| DomainProductService.Create | src/domain/services/product.service.ts:13-20 | a taken name gives BadRequest and no save; otherwise one save stores the new record under a fresh id, or the store is unchanged if the save fails |
| DomainProductService.Update | src/domain/services/product.service.ts:35-63 | a missing id gives NotFound naming it; a name lookup happens only for a new non-empty name; a name held by another record gives BadRequest without a save; otherwise one save of the merged record, or its failure with the store unchanged |
| DomainProductService.CreatePreservesConsistency | src/domain/services/product.service.ts:13-20 | create keeps every record under its own id and names unique |
| DomainProductService.UpdatePreservesConsistency | src/domain/services/product.service.ts:35-63 | update keeps ids and unique names for any patch whose name is not the empty string |
| DomainProductService.EmptyNameUpdateCanDuplicate | src/domain/services/product.service.ts:41 | an empty new name skips the duplicate check, so two records can end up with the same name |
| LegacyProductService.Create | src/product/product.service.ts:18-26 | as the domain create, with the calls find by name, create entity, save |
| LegacyProductService.Update | src/product/product.service.ts:41-76 | as the domain update, but the record is read with `findOne`: the calls are a `findOne` by id, a `findOne` by name only for a new non-empty name, and a save of the merged record unless that name is taken; a failed save raises its error with the store unchanged |
| LegacyProductService.CreatePreservesConsistency | src/product/product.service.ts:18-26 | create keeps ids and unique names |
| LegacyProductService.UpdatePreservesConsistency | src/product/product.service.ts:41-76 | update keeps ids and unique names for any patch whose name is not the empty string |
| TransactionEntity.RestrictVerdict | src/domain/models/transaction.entity.ts:23 | the database refuses to delete a product iff some transaction references it |
| TransactionEntity.RemoveUnderRestrictKeepsReferences | src/domain/models/transaction.entity.ts:23-28 | removing a product under RESTRICT never leaves a transaction whose product is missing |
| TransactionService.PendingRecord | src/domain/services/transaction.service.ts:52-70 | the first saved record costs price times quantity plus the 500 and 8000 cent fees, is PENDING, and has no gateway fields |
| TransactionService.WithResponse | src/domain/services/transaction.service.ts:93-97 | the answer sets the gateway id, the narrowed status, the method type, and the status message only when it is non-empty; nothing else changes |
| TransactionService.WithFailure | src/domain/services/transaction.service.ts:112-113 | the catch clause sets ERROR and the prefixed message; nothing else changes |
| TransactionService.ResultMessage | src/domain/services/transaction.service.ts:128 | the answer's message is the stored status message when non-empty, else "Pago " and the lower-case status |
| TransactionService.Pay | src/domain/services/transaction.service.ts:76-115 | the gateway is called first; stock changes only when the narrowed status is APPROVED and the update succeeds; a gateway exception or a failed stock update lands in the catch clause |
| TransactionService.CreateTransaction | src/domain/services/transaction.service.ts:36-130 | missing product and short stock fail with no effect; otherwise PENDING is saved first, then the gateway is called with that id, then the record is saved last; stock drops by exactly the quantity only on APPROVED; errors map to their exceptions; a gateway exception stores the PENDING record marked ERROR with the prefixed message, and a failed stock update after approval stores the answered record marked the same way, with no other row changed; the purchase succeeds iff the gateway answers and no write fails, and then the stored record is the PENDING record with the answer applied and the result is its view |
| PurchaseProperties.ApprovedPurchaseScenario | src/domain/services/transaction.service.ts:45-129 | a 100.00 product with 5 units, 2 bought and approved with no message: total 28500 cents, 3 units left, answer "Pago approved" |
| PurchaseProperties.StockNeverNegative | src/domain/services/transaction.service.ts:45-102 | the stock check keeps every quantity non-negative, whatever quantity is requested |
| PurchaseProperties.ValidatedPurchaseLowersStock | src/domain/services/transaction.service.ts:99-102 | with a body that passed validation and an approval, the product's stock strictly drops and stays non-negative, and the product id is uuid text |
| PurchaseProperties.UnvalidatedNegativeQuantityRaisesStock | src/domain/services/transaction.service.ts:45-101 | the service itself does not bound the quantity: an approved purchase of -3 units adds 3 units and records a negative amount |
| PurchaseProperties.PurchaseKeepsCatalogConsistent | src/domain/services/transaction.service.ts:99-102 | a purchase keeps catalog ids and unique names |
| PurchaseProperties.PurchaseKeepsProductColumns | src/domain/models/product.entity.ts:18-19 | a purchase of a non-negative quantity keeps every product within its columns: the stock stays between zero and its old value |
| PurchaseProperties.PurchaseKeepsReferences | src/domain/models/transaction.entity.ts:23-28 | after a purchase every transaction still references an existing product |
| PurchaseProperties.StatusNamesFit | src/domain/models/transaction.entity.ts:36-37 | every status value fits the varchar(50) status column |
| PurchaseProperties.PurchaseRecordsFitColumns | src/domain/models/transaction.entity.ts:27-56 | with inputs within their bounds, every stored transaction fits its column types |
| PurchaseProperties.LongErrorMessageOverflowsColumn | src/domain/services/transaction.service.ts:113 | an error message longer than 222 characters no longer fits the status-message column once prefixed |
| PurchaseProperties.PurchaseIsSignedOverItsOrder | src/domain/services/transaction.service.ts:78-87 | the adapter signs the purchase over the record id, the total in cents, "COP" and the integrity key |
| EnvValidation.NodeEnvOf | src/config/envValidation.ts:4-6 | NODE_ENV is accepted iff it is one of the four environment names |
| EnvValidation.Validate | src/config/envValidation.ts:3-25 | the environment is accepted iff NODE_ENV and PORT are absent or valid, DB_HOST, DB_USERNAME, DB_PASSWORD and DB_DATABASE are non-empty, and DB_PORT is a number; the defaults are development and 3000 |
| EnvValidation.EmptyNodeEnvReportedTwice | src/config/envValidation.ts:4-6 | an empty NODE_ENV is reported first as not an allowed name and then as empty |
| EnvValidation.MissingHostAndBadPortBothReported | src/config/envValidation.ts:8-15 | a missing host and a non-numeric port are both reported, with their own messages |
| EnvValidation.GatewayKeysNotRequired | src/config/envValidation.ts:3-25 | an environment without any Wompi variable is accepted |
| Validation.FieldErrors | src/infrastructure/adapters/input/rest/product/dto/product.create.dto.ts:17-19 | a missing or null optional property is not checked; otherwise the property is valid iff every rule on it passes; a length limit counts code points other than U+FE0E and U+FE0F, as validator.js `isLength` does |
| Validation.VariationSelectorNotCounted | src/infrastructure/adapters/input/rest/product/dto/product.create.dto.ts:7-9 | a name of 255 letters followed by U+FE0F passes the 255 limit although it holds 256 characters |
| Validation.Failing | src/infrastructure/adapters/input/rest/product/dto/product.create.dto.ts:7-9 | each failing rule's message is reported, and only those |
| Validation.Verdict | src/main.ts:10-19 | the pipe accepts a body iff it has no errors, and otherwise answers BadRequest with all the messages |
| Validation.AsWrittenRefusesUuidProductId | src/infrastructure/adapters/input/rest/transaction/dto/create.transaction.dto.ts:6-8 | as declared, only a numeric product id passes, and a text id, a uuid included, is refused as not a number |
| Validation.CreateTransactionValidIff | src/infrastructure/adapters/input/rest/transaction/dto/create.transaction.dto.ts:4-41 | with the product id checked as a uuid, a purchase body is accepted iff the product id is uuid text, the quantity a number of at least 1, the token a non-empty string, the address at most 500 long, name and e-mail at most 255 long (lengths as `MaxLength` counts them), all non-empty, and the e-mail valid |
| Validation.PaymentMethodValidIff | src/infrastructure/adapters/input/rest/transaction/dto/payment.method.dto.ts:5-25 | a payment-method body is accepted iff its type is a non-empty enum name, installments a number of at least 1, and the token a non-empty string |
| Validation.CreateProductValidIff | src/infrastructure/adapters/input/rest/product/dto/product.create.dto.ts:5-34 | a product body is accepted iff the name is non-empty and at most 255 long as `MaxLength` counts length, the description absent or text, and price and quantity numbers of at least 0 |
| Validation.UpdateProductValidIff | src/infrastructure/adapters/input/rest/product/dto/product.update.dto.ts:6-19 | every property is optional; the name, description and quantity rules stay; a given price must be a number of at least 2000 |
| Validation.LegacyUpdateProductValidIff | src/product/dto/product.update.dto.ts:12-16 | a given price must be a number of at least 0 (the same rule as `src/product/dto/product.update.dts.ts` lines 12-16) |
| Validation.UpdatePriceStricterThanCreate | src/infrastructure/adapters/input/rest/product/dto/product.update.dto.ts:12-16 | every complete body an update accepts, a create accepts; a product created at price 100 cannot be updated back to price 100 |
| Validation.InvalidProductReportsEveryField | test/product.e2e-spec.ts:128-146 | an empty name, a price of -5 and a non-numeric quantity are all reported in one BadRequest |

## Left out

- Logging, timestamps (`creationDate`, `lastUpdate`, `creation_date`, `last_update`), Swagger metadata and module wiring carry no behaviour that the model needs.
- Concurrency: two purchases of the same product can interleave between the stock check and the stock update. The model runs each call alone.
- Floating point. Prices and amounts are integer cents. The source computes `Math.round(price * quantity * 100)` in doubles and stores the amount in pesos.
- TransactionService.PendingRecord: the model takes the request quantity as an integer. The DTO accepts fractional quantities such as 1.5, which the source would price in floating point.
- Decimal.IntToDecimal: prints integers only. JavaScript would print exponent form from 1e21 upward, and that case is not modelled.
- Utf8.EncodeChar: characters are Unicode scalar values. Lone UTF-16 surrogates, which `TextEncoder` replaces with U+FFFD, cannot occur.
- SHA-256 is a parameter, so `crypto.subtle.digest` itself is not modelled. The HTTP post, axios, and the bearer header built from the private key are reduced to the `HttpOutcome` input.
- Enums.Lookup: keys such as `__proto__` or `constructor`, which reach `Object.prototype` in JavaScript, are not modelled.
- Repository reads never fail. Writes fail through explicit fault inputs, carrying the message the repository raises.
- The TypeORM adapters (`product.repository.adapter.ts`, `transaction.repository.adapter.ts`) are not part of this model. The domain service's repository calls are modelled as the lookups and writes the port describes.
- CatalogStore.Remove: the domain `remove` is modelled against the repository port. The wired product adapter's `remove` ends every path in `return this.remove(entity)`, a call to itself, so with that adapter a domain delete never completes.
- `null` inside an update patch, which would make `Object.assign` write null into a not-null column, is not modelled. Patch fields are present or absent.
- Validation.FieldErrors: the model checks values after the pipe's implicit type conversion.
  - `whitelist`/`forbidNonWhitelisted` (errors for unknown properties) are not modelled.
  - The order in which messages are listed is not modelled.
- Validation.LegacyUpdateProductValidIff: the legacy create DTO that the legacy update DTO inherits from (`src/product/dto/product.create.dto.ts`) is not part of this model. The inherited name, description and quantity rules are therefore absent.
- The e-mail syntax check and the payment-method enum are parameters, because their definitions (class-validator's `isEmail` and `PaymentMethodType`) are not part of this model.
- EnvValidation.Validate: Joi's number conversion is a parameter. Joi's `number.unsafe` check and how the configuration module reports the joined error text at start-up are not modelled.
- Columns are predicates. The stores do not refuse a record outside its columns; `PurchaseProperties.PurchaseRecordsFitColumns` gives the input bounds under which none arises.

## Findings

| source | as written | input that shows it | evidently intended | confidence | as-written member | corrected member |
|---|---|---|---|---|---|---|
| src/infrastructure/adapters/input/rest/transaction/dto/create.transaction.dto.ts:6-8 | `productId` must be a number. The global pipe first converts the body's text to that declared type | any real product id, e.g. "3f1c2a9e-7b4d-4c1e-9a2b-5d6e7f809a1b": it becomes NaN and the body is refused with "El ID del producto debe ser un número." A numeric id passes validation but names no product, because product keys are uuids | the product id is checked as a uuid, the type of the products' primary key | high; not executed | Validation.AsWrittenRefusesUuidProductId | Validation.CreateTransactionValidIff |

The corrected rule replaces `@IsNumber` with a uuid check. Its message, "El ID del producto debe ser un UUID válido.", is chosen here and does not appear in the source. `PurchaseProperties.ValidatedPurchaseLowersStock` uses the corrected rule.
