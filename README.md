# SQS endpoint configuration and default message filter, in Dafny

This project models two pieces of the Spring Cloud AWS SQS listener module.

- **The SQS endpoint descriptor and its builder** (`sqs_endpoint.dfy`, module `SqsEndpointConfig`).
  `SqsEndpointBuilder` is a class. Each field the Java builder mutates is a field here, and each fluent
  setter is a method with a `modifies this`field` frame. The setter returns the same builder, and its
  contract gives the builder's whole new settings as the old settings with one field replaced.
  `Build` copies the builder's values into an `SqsEndpoint`. The endpoint's settings are final, so it
  is an immutable datatype value, and setter calls made on the builder after `Build` cannot reach it.
  The logical endpoint names are the exception: the Java code passes that collection by reference
  without copying it. The model keeps it as a `NameCollection` object shared by builder and endpoint,
  so its contents may still change.
  The getters are functions on the endpoint value.
  Java `Integer` is `Option<Int32>`, where `None` stands for `null` and `Int32` is the 32-bit range.
  Java `String` and `Boolean` fields are `Option<string>` and `Option<bool>`.
  A `Duration` is a whole number of seconds.
- **The filtering sink adapter** (`filtering_sink.dfy`, module `FilteringSink`). The
  `FilteringSinkAdapter` interface is the type of total predicates `M -> bool` over an opaque message
  type `M`. Such a predicate reads no state, so its answer depends only on the message.
  `DefaultShouldProcess` is the default implementation and accepts every message.
  `Filter` is a reference definition of applying an adapter to a batch. It is not a function of the
  Java code. It keeps the accepted messages in their original order. `FilterCounts` and
  `FilterAppend` pin that definition down. `DefaultFilterKeepsBatch` uses it to state that the default
  adapter passes every batch through unchanged.

`wrappers.dfy` holds the `Option` type.

The builder validates nothing. No setter and no `Build` carries a `requires`, so zero, negative and
`null` values are all accepted. Nothing in `SqsEndpoint.java` checks a value. The listener annotation
describes the values only as a count of inflight messages and as numbers of seconds.

## Model

| member | source | states |
|---|---|---|
| `SqsEndpointConfig.From` | spring-cloud-aws-sqs/src/main/java/io/awspring/cloud/sqs/config/SqsEndpoint.java:55-57 | returns a new builder that holds the given names reference, with factory name, max inflight, poll timeout, minimum visibility, async and id all unset |
| `SqsEndpointConfig.SqsEndpointBuilder.constructor` | spring-cloud-aws-sqs/src/main/java/io/awspring/cloud/sqs/config/SqsEndpoint.java:92-108 | the builder keeps the given names and starts with every optional field unset |
| `SqsEndpointConfig.SqsEndpointBuilder.FactoryBeanName` | spring-cloud-aws-sqs/src/main/java/io/awspring/cloud/sqs/config/SqsEndpoint.java:110-113 | sets only the factory name, keeps all other settings, and returns the same builder |
| `SqsEndpointConfig.SqsEndpointBuilder.MaxInflightMessagesPerQueue` | spring-cloud-aws-sqs/src/main/java/io/awspring/cloud/sqs/config/SqsEndpoint.java:115-118 | sets only the max inflight value, keeps all other settings, and returns the same builder; the new value replaces any earlier one, so the last write wins |
| `SqsEndpointConfig.SqsEndpointBuilder.PollTimeoutSeconds` | spring-cloud-aws-sqs/src/main/java/io/awspring/cloud/sqs/config/SqsEndpoint.java:120-123 | sets only the poll timeout seconds, which may be `null`, keeps all other settings, and returns the same builder; the last write wins |
| `SqsEndpointConfig.SqsEndpointBuilder.MinimumVisibility` | spring-cloud-aws-sqs/src/main/java/io/awspring/cloud/sqs/config/SqsEndpoint.java:125-128 | sets only the minimum visibility, keeps all other settings, and returns the same builder; the last write wins |
| `SqsEndpointConfig.SqsEndpointBuilder.Async` | spring-cloud-aws-sqs/src/main/java/io/awspring/cloud/sqs/config/SqsEndpoint.java:130-133 | sets async to the given primitive value, so it is no longer `null`, keeps all other settings, and returns the same builder |
| `SqsEndpointConfig.SqsEndpointBuilder.Id` | spring-cloud-aws-sqs/src/main/java/io/awspring/cloud/sqs/config/SqsEndpoint.java:135-138 | sets only the id, keeps all other settings, and returns the same builder |
| `SqsEndpointConfig.SqsEndpointBuilder.Build` | spring-cloud-aws-sqs/src/main/java/io/awspring/cloud/sqs/config/SqsEndpoint.java:140-143 | has no precondition and always returns an endpoint. Through its getters, the endpoint reports exactly the builder's current max inflight, poll timeout and minimum visibility, with no two swapped. It also carries the builder's names, factory name, id and async |
| `SqsEndpointConfig.NewSqsEndpoint` | spring-cloud-aws-sqs/src/main/java/io/awspring/cloud/sqs/config/SqsEndpoint.java:41-48 | each positional constructor argument ends up in the field its getter reports. The fifth argument, `minTimeToProcess`, becomes the minimum visibility |
| `SqsEndpointConfig.SqsEndpoint.GetMaxInflightMessagesPerQueue` | spring-cloud-aws-sqs/src/main/java/io/awspring/cloud/sqs/config/SqsEndpoint.java:63-65 | returns the stored final max inflight value unchanged, `null` included |
| `SqsEndpointConfig.SqsEndpoint.GetMinimumVisibility` | spring-cloud-aws-sqs/src/main/java/io/awspring/cloud/sqs/config/SqsEndpoint.java:81-83 | returns the stored final minimum visibility unchanged, `null` included |
| `SqsEndpointConfig.SqsEndpoint.GetPollTimeout` | spring-cloud-aws-sqs/src/main/java/io/awspring/cloud/sqs/config/SqsEndpoint.java:71-73 | the poll timeout is absent if and only if the poll timeout seconds are `null`; otherwise it is a duration of exactly that many seconds |
| `FilteringSink.DefaultShouldProcess` | spring-cloud-aws-sqs/src/main/java/io/awspring/cloud/sqs/listener/sink/DefaultFilteringSinkAdapter.java:8-11 | returns `true` for every message, so the answer does not depend on the message's payload or headers |
| `FilteringSink.DefaultFilteringSinkAdapter` | spring-cloud-aws-sqs/src/main/java/io/awspring/cloud/sqs/listener/sink/DefaultFilteringSinkAdapter.java:6-12 | the default adapter, seen through the interface, is the predicate `DefaultShouldProcess` and so accepts every message |
| `FilteringSink.FilterUnchangedIff` | spring-cloud-aws-sqs/src/main/java/io/awspring/cloud/sqs/listener/sink/adapter/FilteringSinkAdapter.java:5-7 | a batch comes through a filter unchanged if and only if the adapter accepts every message in it |
| `FilteringSink.FilterIdempotent` | spring-cloud-aws-sqs/src/main/java/io/awspring/cloud/sqs/listener/sink/adapter/FilteringSinkAdapter.java:5-7 | filtering an already filtered batch again changes nothing, for every adapter the model admits: those adapters keep no state, so earlier calls cannot change their answers |
| `FilteringSink.DefaultFilterKeepsBatch` | spring-cloud-aws-sqs/src/main/java/io/awspring/cloud/sqs/listener/sink/DefaultFilteringSinkAdapter.java:9-11 | filtering any batch through the default adapter returns the same batch, with the same length and order |

## Left out

- `createMessageSourceFactory` (SqsEndpoint.java:85-88) instantiates a factory class that is not part of this model.
- The `AbstractEndpoint` superclass is not part of this model. The model keeps only what the endpoint passes to it (names, factory name, id and async), as plain fields of the endpoint.
- The contents of the shared names collection are not claimed to be stable after `Build`. The collection is passed by reference, so its owner can still change it.
- `java.time.Duration` is a whole number of seconds. Nanosecond precision and the library's own range limits are not modelled.
- Spring's `Message<?>` is an opaque type parameter. No payload or header is ever looked at.
- `SqsListener` is an annotation declaration without logic. Parsing of its string attributes happens in code that is not part of this model.
- The polling loop, inflight permits, visibility extension, deletion policy and container lifecycle do not appear in the modelled files. Their substance is concurrency, long-poll I/O and timers.
- The `FilteringSinkAdapter` interface is modelled as the arrow type `M -> bool`, by choice, so the model admits only adapters that are total and keep no state. The Java interface also allows implementations that keep state, for example one that drops messages it has already seen, and implementations that throw. Such implementations are outside the model. `FilterUnchangedIff` and `FilterIdempotent` hold for every adapter only because of this restriction.
