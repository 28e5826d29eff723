# Product service: event publication, key resolution, validation, problem details

This project models the core of the product service of an inventory
management system: a Spring Boot service that stores products and publishes
a domain event to Kafka for every change. The model covers five parts.

- **The generic publisher** (`AbstractKafkaDomainEventPublisher`) and its
  older twin (`ProductEventPublisherImpl`). A publish makes one send to the
  main topic. When that send throws, an error classifier sends the event
  either to the retry topic (retryable errors) or to the fail topic. A
  throwing retry send falls through to the fail topic once. A throwing
  fail-topic send is swallowed.
- **The retry-topic listeners** (`RetryUpsertKafkaListener`,
  `RetryDeleteKafkaListener`). They decode a retry-topic message and
  republish it under a resolved key, acknowledging the message afterwards.
  When the retry policy runs out of attempts, a decodable message goes to the
  fail topic; an undecodable one is acknowledged and dropped. Either way the
  message is acknowledged exactly once.
- **The key resolver** (`EventKeyResolverImpl`): `tenantId + "-" + productId`,
  with nulls rejected.
- **The product validators**: the tenant-scoped one in the main code and the
  global variant kept beside the tests. Each collects messages in the order
  name, article number, price. When any message was collected, it rejects the
  product with the messages joined by ", ".
- **The problem-detail builders** (`ProblemDetailService`) and the controller
  advice (`GlobalExceptionHandler`). They map errors to problem details in
  the sense of RFC 9457. The `type` is "about:blank#" followed by a problem
  identifier (section 3.1.1 of RFC 9457). The request URI is stored as the
  extension property "instance" (compare section 3.1.5 of RFC 9457).

How the model represents the system:

- **Producer.** A Kafka producer is an object with a log of every record
  handed to `send`, in order, sends that throw included. An oracle decides
  whether the n-th send throws, and with which exception.
- **Publisher behaviour.** Everything a publisher does is a statement about
  that log. The `*Trace` functions of `DomainEventPublisher` give the
  statement. The publisher methods are proved to append exactly that trace,
  and to let no exception escape.
- **Exceptions.** A Java exception that escapes a method is a returned
  `Option<JavaException>`.
- **Clocks and the decoder.** The clock is an input. The JSON decoder is an
  oracle returning `Option`.
- **Acknowledgment.** It is a counter, plus a ghost log of how many records
  the producer had been handed at each `acknowledge()`. Contracts use that
  log to place the acknowledgement after the publish.
- **Retry policy.** The annotation-driven retry becomes the bounded loop
  `RetryListener.RetryListener.Consume`, which runs the attempts and records
  the back-off delays.

Where the code and its description or tests disagree, the model follows the
code:

- A missing product id on update is thrown at once as its own
  `ProductValidationException`. It is not collected with the other messages.
- Prices are printed with `%.2f`, so a price of -1 reads "-1.00", not "-1.0".
- The event records as written have no `tenantId` field, but the listeners
  call `tenantId()`. The model's events carry an optional `tenantId`.
- The product entity and the create DTO as written have no tenant id
  either. The main validator's tenant-scoped queries need one, so the model
  gives the stored row and both DTOs an optional tenant id.
- The design says a malformed retry-topic payload is routed to the fail
  topic. In the code, `recover` calls `toEvent` again
  (`RetryUpsertKafkaListener.java:61`, the same in the delete listener). It
  throws again, and the `catch` swallows it, so nothing reaches the fail
  topic. The message is acknowledged and lost.
- The design says such a payload counts as an immediately exhausted retry.
  In the code `retryFor = Exception.class` (`:30`) also covers the
  `IllegalArgumentException` that `toEvent` throws. So an undecodable message
  is attempted `MAX_ATTEMPTS` times, with the back-off pauses, before
  `recover`.

## Model

Source paths are relative to the repository root.

| member | source | states |
|---|---|---|
| ErrorClassifier.RootOf | src/main/java/de/resume/inventory/management/system/productservice/services/publisher/AbstractKafkaDomainEventPublisher.java:78 | the classifier looks at the cause when there is one, otherwise at the exception itself |
| ErrorClassifier.IsRetryable | src/main/java/de/resume/inventory/management/system/productservice/services/publisher/AbstractKafkaDomainEventPublisher.java:76-84 | null is not retryable; otherwise the root (one level of cause) is retryable iff it is a JDK timeout, a Kafka retriable exception, or a Kafka exception whose lower-cased message contains "retryable"; the same rule appears at src/main/java/de/resume/inventory/management/system/productservice/services/publisher/ProductEventPublisherImpl.java:82-94 |
| ErrorClassifier.ClassifierLooksOneLevelDeep | src/main/java/de/resume/inventory/management/system/productservice/services/publisher/AbstractKafkaDomainEventPublisher.java:78 | a wrapper with a cause is judged by the cause alone; what the cause itself wraps never matters |
| ErrorClassifier.NonRetryableKafkaMessageIsRetryable | src/main/java/de/resume/inventory/management/system/productservice/services/publisher/AbstractKafkaDomainEventPublisher.java:81-83 | a Kafka exception with message "non-retryable" is classified retryable, because its lower-cased message contains "retryable" |
| ErrorClassifier.CapitalisedRetryableIsRetryable | src/main/java/de/resume/inventory/management/system/productservice/services/publisher/ProductEventPublisherImpl.java:91-93 | the message is lower-cased first, so "Retryable" counts |
| ErrorClassifier.PlainRuntimeExceptionIsTerminal | src/main/java/de/resume/inventory/management/system/productservice/services/publisher/AbstractKafkaDomainEventPublisher.java:79-83 | an exception that is neither a timeout nor a Kafka exception is never retryable, whatever its message |
| ErrorClassifier.RetriableWrappingPlainCauseIsTerminal | src/main/java/de/resume/inventory/management/system/productservice/services/publisher/AbstractKafkaDomainEventPublisher.java:78-80 | a retriable exception whose cause is a plain exception is terminal, because the cause decides |
| ErrorClassifier.KafkaMessageWithoutRetryableIsTerminal | src/main/java/de/resume/inventory/management/system/productservice/services/publisher/AbstractKafkaDomainEventPublisher.java:81-83 | a Kafka exception whose lower-cased message has no occurrence of "retryable" is terminal |
| Kafka.Producer.Send | src/main/java/de/resume/inventory/management/system/productservice/services/publisher/AbstractKafkaDomainEventPublisher.java:54 | every send is appended to the producer's log, and it throws what the oracle says for that position |
| DomainEventPublisher.FailedTrace | src/main/java/de/resume/inventory/management/system/productservice/services/publisher/AbstractKafkaDomainEventPublisher.java:32-39 | `publishFailed` makes exactly one send, to the fail topic, with the given key and event, and gives the reason once |
| DomainEventPublisher.EventIdSafe | src/main/java/de/resume/inventory/management/system/productservice/services/publisher/AbstractKafkaDomainEventPublisher.java:86-92 | the event id from the hook, or "<unknown>" when the hook throws |
| DomainEventPublisher.ConcreteEventIdsAreSafe | src/main/java/de/resume/inventory/management/system/productservice/services/publisher/ProductUpsertEventPublisherImpl.java:16-39 | the concrete publishers' id hook is the event's id, so it never falls back to "<unknown>" |
| DomainEventPublisher.PublishShape | src/main/java/de/resume/inventory/management/system/productservice/services/publisher/AbstractKafkaDomainEventPublisher.java:22-74 | one publish makes one to three sends, the first to the main topic, all with the caller's key and event; at most one reason, and only when the last send went to the fail topic |
| DomainEventPublisher.MainSendSucceeds | src/main/java/de/resume/inventory/management/system/productservice/services/publisher/AbstractKafkaDomainEventPublisher.java:22-29 | a main send that does not throw is the only send, and no reason is given |
| DomainEventPublisher.RetryableFailureThenRetryOk | src/main/java/de/resume/inventory/management/system/productservice/services/publisher/AbstractKafkaDomainEventPublisher.java:41-45 | a retryable main failure and a successful retry: exactly the sends main, retry, same key and value, nothing to the fail topic |
| DomainEventPublisher.RetryableFailureThenRetryFails | src/main/java/de/resume/inventory/management/system/productservice/services/publisher/AbstractKafkaDomainEventPublisher.java:45-47 | a retryable main failure and a throwing retry: exactly main, retry, fail, with reason "Retry failed: " followed by the retry error's message |
| DomainEventPublisher.NonRetryableFailure | src/main/java/de/resume/inventory/management/system/productservice/services/publisher/AbstractKafkaDomainEventPublisher.java:68-74 | a non-retryable main failure: exactly main then fail, reason "Non-retryable error: " followed by the message; a throwing fail send adds nothing |
| DomainEventPublisher.RetryTopicUsedIffRetryable | src/main/java/de/resume/inventory/management/system/productservice/services/publisher/AbstractKafkaDomainEventPublisher.java:68-72 | with distinct topics, the retry topic receives a send iff the main send threw a retryable exception |
| DomainEventPublisher.FailTopicUsedIffUnrecovered | src/main/java/de/resume/inventory/management/system/productservice/services/publisher/AbstractKafkaDomainEventPublisher.java:41-74 | with distinct topics, the fail topic receives a send iff the main send threw and either the error was terminal or the retry send threw too |
| DomainEventPublisher.DomainEventPublisher.DoSend | src/main/java/de/resume/inventory/management/system/productservice/services/publisher/AbstractKafkaDomainEventPublisher.java:51-55 | one record `(topic, key, value)` is handed to the producer; what it throws is returned |
| DomainEventPublisher.DomainEventPublisher.PublishFailed | src/main/java/de/resume/inventory/management/system/productservice/services/publisher/AbstractKafkaDomainEventPublisher.java:31-39 | appends exactly the fail trace to the producer log and the reason log, and never throws |
| DomainEventPublisher.DomainEventPublisher.PublishRetry | src/main/java/de/resume/inventory/management/system/productservice/services/publisher/AbstractKafkaDomainEventPublisher.java:41-49 | appends exactly the retry trace (retry send, then the fail trace if it threw) and never throws |
| DomainEventPublisher.DomainEventPublisher.HandleFailure | src/main/java/de/resume/inventory/management/system/productservice/services/publisher/AbstractKafkaDomainEventPublisher.java:68-74 | retry for a retryable exception, fail with "Non-retryable error: " otherwise; appends exactly that trace and never throws |
| DomainEventPublisher.DomainEventPublisher.Publish | src/main/java/de/resume/inventory/management/system/productservice/services/publisher/AbstractKafkaDomainEventPublisher.java:22-29 | appends exactly the publish trace to the producer log and the reason log; no exception reaches the caller |
| ProductEventPublisher.ProductEventPublisher.PublishProductUpserted | src/main/java/de/resume/inventory/management/system/productservice/services/publisher/ProductEventPublisherImpl.java:26-34 | the same trace as the generic publish over the upsert topics; the delete producer is untouched; never throws |
| ProductEventPublisher.ProductEventPublisher.PublishProductUpsertFailed | src/main/java/de/resume/inventory/management/system/productservice/services/publisher/ProductEventPublisherImpl.java:36-47 | exactly one send, to the upsert fail topic, errors swallowed |
| ProductEventPublisher.ProductEventPublisher.PublishProductDeleted | src/main/java/de/resume/inventory/management/system/productservice/services/publisher/ProductEventPublisherImpl.java:49-57 | exactly one send, to the delete topic on the delete producer; no retry or fail routing; the upsert producer is untouched; never throws |
| ProductEventPublisher.ProductEventPublisher.SendUpsertedToKafka | src/main/java/de/resume/inventory/management/system/productservice/services/publisher/ProductEventPublisherImpl.java:59-63 | one send to the upsert topic on the upsert producer |
| ProductEventPublisher.ProductEventPublisher.SendDeletedToKafka | src/main/java/de/resume/inventory/management/system/productservice/services/publisher/ProductEventPublisherImpl.java:65-69 | one send to the delete topic on the delete producer |
| ProductEventPublisher.ProductEventPublisher.HandlePublishFailure | src/main/java/de/resume/inventory/management/system/productservice/services/publisher/ProductEventPublisherImpl.java:71-80 | retry-topic routing for retryable errors, fail topic with "Non-retryable error: " otherwise, as the generic failure trace |
| ProductEventPublisher.ProductEventPublisher.PublishProductUpsertRetry | src/main/java/de/resume/inventory/management/system/productservice/services/publisher/ProductEventPublisherImpl.java:96-108 | a send to the upsert retry topic; if it throws, exactly one fail send with "Retry failed: " |
| KeyResolver.ResolveProductKey | src/main/java/de/resume/inventory/management/system/productservice/services/resolver/EventKeyResolverImpl.java:10-18 | fails with the IllegalArgument "Tenant ID and product ID must not be null" iff either id is null; otherwise prefix `tenantId + "-"`, suffix `productId`, length the sum plus one |
| KeyResolver.ProductKeyDeterminesIds | src/main/java/de/resume/inventory/management/system/productservice/services/resolver/EventKeyResolverImpl.java:17 | for tenant ids of equal length, equal keys mean equal ids |
| KeyResolver.ProductKeysCanCollide | src/main/java/de/resume/inventory/management/system/productservice/services/resolver/EventKeyResolverImpl.java:17 | without that, keys collide: ("a-b", "c") and ("a", "b-c") give the same key |
| KeyResolver.ExampleProductKeys | src/test/java/de/resume/inventory/management/system/productservice/services/resolver/EventKeyResolverTest.java:15-25 | "Event-tenant" and "product-1" give "Event-tenant-product-1"; two empty ids pass the null guard and give "-" |
| KeyResolver.ResolveKafkaKey | src/main/java/de/resume/inventory/management/system/productservice/kafka/RetryUpsertKafkaListener.java:80-88 | a non-null, non-blank incoming key is kept; else `tenantId-id` when the event and both fields are non-null; else "unknown-" and the clock reading; the same rule appears at src/main/java/de/resume/inventory/management/system/productservice/kafka/RetryDeleteKafkaListener.java:80-88 |
| KeyResolver.KafkaKeyNeverEmpty | src/main/java/de/resume/inventory/management/system/productservice/kafka/RetryUpsertKafkaListener.java:80-88 | the republish key is never empty, let alone null |
| KeyResolver.FallbackKeyAgreesWithResolver | src/main/java/de/resume/inventory/management/system/productservice/kafka/RetryUpsertKafkaListener.java:84-86 | the listeners' second step builds the key the resolver would build for the same ids |
| KeyResolver.UnknownKeyEncodesClock | src/main/java/de/resume/inventory/management/system/productservice/kafka/RetryUpsertKafkaListener.java:87 | an "unknown-" key holds the decimal clock reading, which reads back to the reading |
| KeyResolver.UnknownKeysDifferByClock | src/main/java/de/resume/inventory/management/system/productservice/kafka/RetryUpsertKafkaListener.java:87 | fallback keys made at different instants differ |
| RetryListener.BackoffDelay | src/main/java/de/resume/inventory/management/system/productservice/kafka/RetryUpsertKafkaListener.java:29-32 | the pause before attempt n+1 lies between the 300 ms initial delay and the 30000 ms ceiling |
| RetryListener.BackoffDoubles | src/main/java/de/resume/inventory/management/system/productservice/kafka/RetryUpsertKafkaListener.java:31 | the first pause is 300 ms and each later one doubles the previous, up to the ceiling |
| RetryListener.BackoffSchedule | src/main/java/de/resume/inventory/management/system/productservice/kafka/RetryDeleteKafkaListener.java:29-32 | n attempts take n-1 pauses, the i-th being the i-th back-off delay |
| RetryListener.DefaultSchedule | src/main/java/de/resume/inventory/management/system/productservice/kafka/RetryUpsertKafkaListener.java:29-32 | three attempts pause 300 ms and then 600 ms |
| RetryListener.RetryListener.ToEvent | src/main/java/de/resume/inventory/management/system/productservice/kafka/RetryUpsertKafkaListener.java:72-78 | the decoded event, or an IllegalArgument "Cannot deserialize <event type> from payload" exactly when decoding fails |
| RetryListener.RetryListener.Retry | src/main/java/de/resume/inventory/management/system/productservice/kafka/RetryUpsertKafkaListener.java:37-49 | an undecodable payload throws before anything is published or acknowledged; otherwise one publish under the resolved key, then one acknowledgement made after every send of that publish; the same rule appears at src/main/java/de/resume/inventory/management/system/productservice/kafka/RetryDeleteKafkaListener.java:37-49 |
| RetryListener.RetryListener.Recover | src/main/java/de/resume/inventory/management/system/productservice/kafka/RetryUpsertKafkaListener.java:51-70 | a decodable payload gets one fail send with "Retry exhausted: " and the cause's message under the resolved key; an undecodable one publishes nothing; exactly one acknowledgement on every path, made after the fail-topic send (the `finally`); nothing escapes; the same rule appears at src/main/java/de/resume/inventory/management/system/productservice/kafka/RetryDeleteKafkaListener.java:51-70 |
| RetryListener.RetryListener.Consume | src/main/java/de/resume/inventory/management/system/productservice/kafka/RetryUpsertKafkaListener.java:28-70 | between one and three attempts with the back-off pauses between them, and exactly one acknowledgement, after every send; a decodable payload succeeds on the first attempt with the publish trace; an undecodable one uses every attempt and publishes nothing |
| ProductValidation.ScopeOf | src/main/java/de/resume/inventory/management/system/productservice/services/validation/ProductValidationServiceImpl.java:27 | the main validator queries within the DTO's tenant; the same rule appears at src/test/java/de/resume/inventory/management/system/productservice/services/validation/ProductValidationServiceImpl.java:78 |
| ProductValidation.FindByName | src/main/java/de/resume/inventory/management/system/productservice/services/validation/ProductValidationServiceImpl.java:99 | the found row is in scope and has the name, and there is none exactly when no row in scope has it |
| ProductValidation.FindByArticleNumber | src/main/java/de/resume/inventory/management/system/productservice/services/validation/ProductValidationServiceImpl.java:110 | the same for article numbers |
| ProductValidation.FindById | src/main/java/de/resume/inventory/management/system/productservice/services/validation/ProductValidationServiceImpl.java:46 | the found row has the id, and there is none exactly when no row has it |
| ProductValidation.FormatCents | src/main/java/de/resume/inventory/management/system/productservice/services/validation/ProductValidationServiceImpl.java:122 | the price is printed with a point and exactly two decimals, with a minus sign iff it is negative |
| ProductValidation.FormatCentsRoundTrip | src/main/java/de/resume/inventory/management/system/productservice/services/validation/ProductValidationServiceImpl.java:122 | the printed price reads back to the amount |
| ProductValidation.FormatMinusOne | src/test/java/de/resume/inventory/management/system/productservice/services/validation/ProductValidationServiceImpl.java:123 | a price of -1 prints as "-1.00" |
| ProductValidation.VerdictOf | src/main/java/de/resume/inventory/management/system/productservice/services/validation/ProductValidationServiceImpl.java:128-134 | passes iff no message was collected; otherwise fails with the messages joined by ", " |
| ProductValidation.CreateFailsIff | src/main/java/de/resume/inventory/management/system/productservice/services/validation/ProductValidationServiceImpl.java:21-36 | a create is rejected iff the name is taken in scope, the article number is taken in scope, or the price is not positive |
| ProductValidation.PriceErrorIffNotPositive | src/main/java/de/resume/inventory/management/system/productservice/services/validation/ProductValidationServiceImpl.java:119-126 | the price message appears iff the price is at most 0, and it is then the last message |
| ProductValidation.CreateErrorsInOrder | src/main/java/de/resume/inventory/management/system/productservice/services/validation/ProductValidationServiceImpl.java:29-31 | the messages come in the order name, article number, price |
| ProductValidation.SingleDuplicateName | src/test/java/de/resume/inventory/management/system/productservice/services/validation/ProductValidationServiceImpl.java:76-85 | a duplicate name alone is rejected with exactly "Product name: '<name>' is already taken" |
| ProductValidation.AllThreeErrorsJoined | src/test/java/de/resume/inventory/management/system/productservice/services/validation/ProductValidationServiceImpl.java:129-135 | three errors are joined by ", " in collection order |
| ProductValidation.OtherTenantsNeverCollide | src/main/java/de/resume/inventory/management/system/productservice/services/validation/ProductValidationServiceImpl.java:75-95 | tenant-scoped create checks ignore every row of another tenant |
| ProductValidation.GlobalCheckSeesOtherTenants | src/test/java/de/resume/inventory/management/system/productservice/services/validation/ProductValidationServiceImpl.java:76-85 | the global check rejects a name held by another tenant, which the tenant-scoped check accepts |
| ProductValidation.MissingProductFailsFirst | src/main/java/de/resume/inventory/management/system/productservice/services/validation/ProductValidationServiceImpl.java:46-47 | an update of an unknown id fails with "Product with id: '<id>' does not exist" alone, before any field check; the same rule appears at src/test/java/de/resume/inventory/management/system/productservice/services/validation/ProductValidationServiceImpl.java:47-48 |
| ProductValidation.UnmodifiedFieldsAreNotChecked | src/main/java/de/resume/inventory/management/system/productservice/services/validation/ProductValidationServiceImpl.java:49-57 | an update that changes none of name, article number and price passes |
| ProductValidation.UpdateExcludesItself | src/main/java/de/resume/inventory/management/system/productservice/services/validation/ProductValidationServiceImpl.java:97-106 | a product never collides with itself: a name found on the product's own row gives no error |
| ProductValidation.NameTakenByOtherIff | src/main/java/de/resume/inventory/management/system/productservice/services/validation/ProductValidationServiceImpl.java:97-106 | with unique names, the update check finds another product iff another product in scope holds the name |
| ProductValidation.RenameFailsIffNameHeldByOther | src/test/java/de/resume/inventory/management/system/productservice/services/validation/ProductValidationServiceImpl.java:98-107 | a pure rename is rejected iff another product in scope already holds the new name |
| ProductValidation.ErrorList.Add | src/main/java/de/resume/inventory/management/system/productservice/services/validation/ProductValidationServiceImpl.java:80 | a message is appended at the end of the list |
| ProductValidation.ProductValidationService.ValidateProductToCreate | src/main/java/de/resume/inventory/management/system/productservice/services/validation/ProductValidationServiceImpl.java:21-36 | the verdict of the messages collected in order name, article number, price, within the scope of the validator's variant; the repository is only read; the same rule appears at src/test/java/de/resume/inventory/management/system/productservice/services/validation/ProductValidationServiceImpl.java:24-38 |
| ProductValidation.ProductValidationService.ValidateProductToUpdate | src/main/java/de/resume/inventory/management/system/productservice/services/validation/ProductValidationServiceImpl.java:38-61 | a missing id fails at once; otherwise the verdict of the checks of the modified fields only, each excluding the product's own row; the same rule appears at src/test/java/de/resume/inventory/management/system/productservice/services/validation/ProductValidationServiceImpl.java:40-62 |
| ProductValidation.ProductValidationService.ValidateNameUniqueness | src/main/java/de/resume/inventory/management/system/productservice/services/validation/ProductValidationServiceImpl.java:75-84 | appends the name message iff a row in scope has the name |
| ProductValidation.ProductValidationService.ValidateArticleNumberUniqueness | src/main/java/de/resume/inventory/management/system/productservice/services/validation/ProductValidationServiceImpl.java:86-95 | appends the article-number message iff a row in scope has the article number |
| ProductValidation.ProductValidationService.ValidateNameUniquenessForUpdate | src/main/java/de/resume/inventory/management/system/productservice/services/validation/ProductValidationServiceImpl.java:97-106 | appends the name message iff the first row in scope with the name belongs to another product |
| ProductValidation.ProductValidationService.ValidateArticleNumberUniquenessForUpdate | src/main/java/de/resume/inventory/management/system/productservice/services/validation/ProductValidationServiceImpl.java:108-117 | the same for article numbers |
| ProductValidation.ProductValidationService.ValidatePriceGreaterThanZero | src/main/java/de/resume/inventory/management/system/productservice/services/validation/ProductValidationServiceImpl.java:119-126 | appends the price message iff the price is at most 0 |
| ProductValidation.ProductValidationService.ThrowIfErrors | src/main/java/de/resume/inventory/management/system/productservice/services/validation/ProductValidationServiceImpl.java:128-134 | rejects with the joined messages iff the list is not empty; changes nothing |
| LinkedMaps.Lookup | src/main/java/de/resume/inventory/management/system/productservice/services/advices/ProblemDetailService.java:29 | a key has a value iff it is among the map's keys |
| LinkedMaps.Put | src/main/java/de/resume/inventory/management/system/productservice/services/advices/ProblemDetailService.java:92 | a present key keeps its place; a new key is added at the end |
| LinkedMaps.PutLookup | src/main/java/de/resume/inventory/management/system/productservice/services/advices/ProblemDetailService.java:117 | after `setProperty` the key holds the new value and every other key keeps its value |
| LinkedMaps.PutKeepsDistinct | src/main/java/de/resume/inventory/management/system/productservice/services/advices/ProblemDetailService.java:117 | `setProperty` never creates a duplicate key |
| LinkedMaps.PutNewKey | src/main/java/de/resume/inventory/management/system/productservice/services/advices/ProblemDetailService.java:148-150 | a new key is appended after the existing ones |
| LinkedMaps.FirstWinsIsFirstOccurrenceMap | src/main/java/de/resume/inventory/management/system/productservice/services/advices/ProblemDetailService.java:25-26 | the collected map has each key once, exactly the stream's keys, each with its first value, in order of first appearance |
| ProblemDetails.Base | src/main/java/de/resume/inventory/management/system/productservice/services/advices/ProblemDetailService.java:154-159 | the given status and title, type "about:blank#" followed by the identifier, nothing else set; the same rule appears at src/main/java/de/resume/inventory/management/system/productservice/controller/GlobalExceptionHandler.java:165-170 |
| ProblemDetails.TypeUriDeterminesTypeId | src/main/java/de/resume/inventory/management/system/productservice/services/advices/ProblemDetailService.java:157 | two problems have the same type iff they were built from the same identifier |
| ProblemDetails.FieldErrorLookup | src/main/java/de/resume/inventory/management/system/productservice/services/advices/ProblemDetailService.java:25 | each field's entry is the message of its first error, "Invalid value" for a null one |
| ProblemDetails.BuildFromBindingErrors | src/main/java/de/resume/inventory/management/system/productservice/services/advices/ProblemDetailService.java:21-31 | 400 "Validation failed", type validation-error, the first-wins field-error map under "errors" |
| ProblemDetails.BindingErrorsMap | src/main/java/de/resume/inventory/management/system/productservice/services/advices/ProblemDetailService.java:22-29 | one entry per failing field, in the order fields first fail, each with its first message |
| ProblemDetails.BindingErrorsExample | src/test/java/de/resume/inventory/management/system/productservice/services/factories/ProblemDetailServiceTest.java:40-65 | errors on name and price give the map name, then price, with their messages |
| ProblemDetails.BuildFromConstraintViolations | src/main/java/de/resume/inventory/management/system/productservice/services/advices/ProblemDetailService.java:33-46 | 400 "Constraint violation", type constraint-violation, the first-wins violation map under "errors" |
| ProblemDetails.ConstraintViolationDefaults | src/main/java/de/resume/inventory/management/system/productservice/services/advices/ProblemDetailService.java:36-40 | a null path is filed under "unknown", a null message reads "Constraint violated", the first violation per path wins |
| ProblemDetails.BuildProductValidation | src/main/java/de/resume/inventory/management/system/productservice/services/advices/ProblemDetailService.java:48-52 | 400 "Product validation failed", type validation-error, the message as detail |
| ProblemDetails.ExtractFieldName | src/main/java/de/resume/inventory/management/system/productservice/services/advices/ProblemDetailService.java:161-167 | the first non-null field name along the path, "unknown" when there is none; the same rule appears at src/main/java/de/resume/inventory/management/system/productservice/controller/GlobalExceptionHandler.java:194-200 |
| ProblemDetails.AllowedValues | src/main/java/de/resume/inventory/management/system/productservice/services/advices/ProblemDetailService.java:169-175 | the enum's constants in declaration order, none for a class without constants; the same rule appears at src/main/java/de/resume/inventory/management/system/productservice/controller/GlobalExceptionHandler.java:202-206 |
| ProblemDetails.BuildEnumProblem | src/main/java/de/resume/inventory/management/system/productservice/services/advices/ProblemDetailService.java:144-152 | 400 "Invalid enum value", type invalid-enum, detail "Allowed values: " and the constants joined by ", ", properties field ("unknown" for null), invalidValue, allowedValues in that order; the same rule appears at src/main/java/de/resume/inventory/management/system/productservice/controller/GlobalExceptionHandler.java:184-192 |
| ProblemDetails.EnumProblemExample | src/test/java/de/resume/inventory/management/system/productservice/services/factories/ProblemDetailServiceTest.java:115-139 | constants ELECTRONICS and HOUSEHOLD give the detail "Allowed values: ELECTRONICS, HOUSEHOLD" |
| ProblemDetails.BuildFromUnreadableMessage | src/main/java/de/resume/inventory/management/system/productservice/services/advices/ProblemDetailService.java:54-71 | an enum problem iff the cause is a format error with an enum target, with the first path field name; otherwise 400 "Invalid request body" with the most specific cause's message, else the exception's own, and no properties |
| ProblemDetails.BuildFromTypeMismatch | src/main/java/de/resume/inventory/management/system/productservice/services/advices/ProblemDetailService.java:73-85 | an enum problem for an enum parameter; otherwise 400 "Invalid request parameter" with the message and exactly the property parameter = the argument name |
| ProblemDetails.BuildDataIntegrityViolation | src/main/java/de/resume/inventory/management/system/productservice/services/advices/ProblemDetailService.java:87-95 | 409 "Data integrity violation" with the fixed detail; rootCause is present iff the root cause has a message, and holds it |
| ProblemDetails.BuildNotFound | src/main/java/de/resume/inventory/management/system/productservice/services/advices/ProblemDetailService.java:97-101 | 404, type not-found, the given title and detail, no properties |
| ProblemDetails.BuildBadRequest | src/main/java/de/resume/inventory/management/system/productservice/services/advices/ProblemDetailService.java:103-107 | 400, type invalid-request, the given title and detail, no properties |
| ProblemDetails.BuildServerError | src/main/java/de/resume/inventory/management/system/productservice/services/advices/ProblemDetailService.java:109-113 | 500 "Internal server error", type server-error, the given detail |
| ProblemDetails.BuildNotFoundFromReason | src/main/java/de/resume/inventory/management/system/productservice/services/advices/ProblemDetailService.java:121-132 | a reason with a colon gives the trimmed text before the first colon as title and the trimmed rest as detail; without a colon the reason is both; no reason gives "Not Found" and no detail |
| ProblemDetails.NotFoundReasonSplit | src/main/java/de/resume/inventory/management/system/productservice/services/advices/ProblemDetailService.java:123-128 | the split is at the first colon: the title has no colon, the detail keeps every later one, and the reason is the two untrimmed halves around the colon |
| ProblemDetails.NotFoundReasonExample | src/main/java/de/resume/inventory/management/system/productservice/services/advices/ProblemDetailService.java:121-132 | "Missing: id 7" gives title "Missing" and detail "id 7" |
| ProblemDetails.BuildBadRequestFromReason | src/main/java/de/resume/inventory/management/system/productservice/services/advices/ProblemDetailService.java:134-137 | the reason is title and detail; no reason gives the title "Invalid request"; type invalid-request, no properties |
| ProblemDetails.BuildServerErrorFromReason | src/main/java/de/resume/inventory/management/system/productservice/services/advices/ProblemDetailService.java:139-142 | detail "An unexpected error occurred: " and the reason, else the fallback, "null" when both are missing; 500 "Internal server error", type server-error, no properties |
| ProblemDetails.WithInstanceChangesOnlyInstance | src/main/java/de/resume/inventory/management/system/productservice/services/advices/ProblemDetailService.java:115-119 | instance holds the request URI iff there is a request; status, title, type, detail, every other property and the key order are unchanged |
| ProblemDetails.AttachInstance | src/main/java/de/resume/inventory/management/system/productservice/services/advices/ProblemDetailService.java:115-119 | the problem is updated in place to carry the request URI, and only when there is a request; the same rule appears at src/main/java/de/resume/inventory/management/system/productservice/controller/GlobalExceptionHandler.java:178-182 |
| ExceptionHandling.ProblemResponse | src/main/java/de/resume/inventory/management/system/productservice/controller/GlobalExceptionHandler.java:172-176 | the response status is the problem's status and the content type is application/problem+json |
| ExceptionHandling.Respond | src/main/java/de/resume/inventory/management/system/productservice/controller/GlobalExceptionHandler.java:172-182 | a built problem with the instance attached, wrapped in a response of its own status |
| ExceptionHandling.HandleMethodArgumentNotValid | src/main/java/de/resume/inventory/management/system/productservice/controller/GlobalExceptionHandler.java:28-45 | 400 "Validation failed" with the first-wins field-error map under "errors" and the instance attached |
| ExceptionHandling.HandleConstraintViolation | src/main/java/de/resume/inventory/management/system/productservice/controller/GlobalExceptionHandler.java:47-63 | 400 "Constraint violation" with the first-wins violation map under "errors" |
| ExceptionHandling.HandleNotFound | src/main/java/de/resume/inventory/management/system/productservice/controller/GlobalExceptionHandler.java:65-72 | 404 "Resource not found", type not-found, the message as detail; instance present iff there is a request |
| ExceptionHandling.HandleConflict | src/main/java/de/resume/inventory/management/system/productservice/controller/GlobalExceptionHandler.java:74-85 | 409 with the fixed detail; rootCause present iff the root cause has a message, and then holds it |
| ExceptionHandling.HandleHttpMessageNotReadable | src/main/java/de/resume/inventory/management/system/productservice/controller/GlobalExceptionHandler.java:87-108 | an enum problem iff the cause is a format error with an enum target, field being the first path name; otherwise 400 "Invalid request body" with the most specific message |
| ExceptionHandling.HandleMethodArgumentTypeMismatch | src/main/java/de/resume/inventory/management/system/productservice/controller/GlobalExceptionHandler.java:110-127 | an enum problem naming the parameter as field for an enum type; otherwise 400 "Invalid request parameter" with parameter = the argument name |
| ExceptionHandling.HandleIllegalArgument | src/main/java/de/resume/inventory/management/system/productservice/controller/GlobalExceptionHandler.java:129-136 | 400 "Invalid request", type invalid-request, the message as detail |
| ExceptionHandling.HandleProductNotFound | src/main/java/de/resume/inventory/management/system/productservice/controller/GlobalExceptionHandler.java:138-145 | 404 "Product not found", type not-found, the message as detail |
| ExceptionHandling.HandleProductValidation | src/main/java/de/resume/inventory/management/system/productservice/controller/GlobalExceptionHandler.java:147-154 | 400 "Product validation failed", type validation-error, the message as detail |
| ExceptionHandling.HandleGeneric | src/main/java/de/resume/inventory/management/system/productservice/controller/GlobalExceptionHandler.java:156-163 | 500 "Internal server error", type server-error, detail "An unexpected error occurred: " and the message ("null" when there is none) |
| JavaText.TrimIsMaximalSlice | src/main/java/de/resume/inventory/management/system/productservice/services/advices/ProblemDetailService.java:123 | `trim` keeps the slice left after removing every character up to U+0020 at both ends |
| JavaText.TrimIdempotent | src/main/java/de/resume/inventory/management/system/productservice/services/advices/ProblemDetailService.java:128 | trimming twice is trimming once |
| JavaText.ContainsTextIff | src/main/java/de/resume/inventory/management/system/productservice/services/publisher/AbstractKafkaDomainEventPublisher.java:83 | `contains` finds exactly the occurrences of the pattern at some offset |
| JavaText.IntDecimalRoundTrip | src/main/java/de/resume/inventory/management/system/productservice/kafka/RetryUpsertKafkaListener.java:87 | the decimal rendering of a `long` reads back to the number, with a minus sign iff it is negative |

## Left out

- Logging is left out. The send callback (`sendCallback`) only logs, so sends are modelled without it. `eventIdSafe` only feeds log lines; it is modelled, but nothing depends on it.
- Asynchronous delivery on broker threads is left out. A send either throws synchronously or is recorded as handed over; a broker-side failure after hand-over is invisible, as it is to the publisher.
- Real sleeping during back-off is left out; the loop records the delays instead.
- The clock is an input: `System.currentTimeMillis()` becomes the `clock` function of the loop, and `now` elsewhere.
- Jackson decoding is an oracle of type `string -> Option<V>`. The `JsonProcessingException` cause of the `IllegalArgumentException` is not kept.
- A JSON payload of `null`, which decodes to a null event, is left out. The listeners' key fallback still accepts a missing event.
- A null record value (a tombstone) is left out: `ConsumerRecord.value` is always a string. For such a value `readValue` throws its own `IllegalArgumentException`, not the "Cannot deserialize …" one. The outcome is the same as for an undecodable payload: every attempt is used, nothing is published, and the message is acknowledged once.
- The Spring wiring is left out: Spring Retry with AOP, `@Transactional` and `@KafkaListener`.
- The retry policy becomes `RetryListener.RetryListener.Consume`. The attempt count of 3 and the 30000 ms ceiling are Spring Retry's defaults, because the listeners set neither.
- There is no global termination across redeliveries. A retryable failure during a listener's republish sends the event to the retry topic again, where it is consumed anew.
- Kafka client configuration is left out: idempotence, acks and in-flight limits in `KafkaConfiguration`.
- `TopicConfiguration` is a record of six topic names.
- The concrete publishers `ProductUpsertEventPublisherImpl` and `ProductDeleteEventPublisherImpl` are modelled as parameters: their topics and id hook are `UpsertTopics`, `DeleteTopics`, `UpsertEventId` and `DeleteEventId`.
- Events are reduced to the fields the pipeline reads; category, unit, description and timestamp are left out.
- Prices are integer cents rather than `double`. The model does not capture `%.2f` rounding of fractions beyond cents, `-0.0`, or `Double.compare` treating `0.0` and `-0.0` as different.
- A null update id is left out. The DTO's `@NotNull` id, checked by `@Valid` on the request body, rejects it as a binding error before the service runs. Inside the validator, `findById(null)` would throw instead of giving the missing-product message.
- Each repository query returns the first matching row. The schema makes names and article numbers unique, so the source's queries return at most one row.
- The constraint violations of a `ConstraintViolationException` form a `Set`; the model takes them in one fixed iteration order.
- `toLowerCase` is modelled on ASCII letters only. No other character lowercases into a letter of "retryable", so `IsRetryable` is exact.
- A `ProblemDetail` whose title is never set reports the status's reason phrase; every builder here sets a title, so that default is not modelled.
- A null event passed to the legacy publisher would fail inside the failure path's logging (`event.id()`); events are non-null here.
- The controllers, the product service, the mappers, the history service, the JPA entities and the other advices are not part of this model.
- DomainEventPublisher.PublishShape: the fail-topic clause is one-directional. The converse needs distinct topics; with distinct topics it is `FailTopicUsedIffUnrecovered`.
- ProductValidation.RenameFailsIffNameHeldByOther: it requires unique names, as the schema's unique constraint guarantees. Without that constraint, the first row found could be the product's own row while another row also holds the name.
- ProductValidation.NameTakenByOtherIff: it requires unique names for the same reason.
