# go-service core, modelled in Dafny

This project models the core of go-service, a Go service toolkit.

- **Structured errors.** The `*Error` record of `core/errors` has fluent setters, a rendering and chain queries. The package also has the older value-typed `Error` of `errors` and the two error-to-HTTP-status mappings.
- **RabbitMQ messaging layer.**
  - The handler registry, and what a queue consumer does with each delivery: decode the envelope, look up the handler under `"<queue>-<message>"`, and link the processing span to the publisher's trace.
  - The producer's envelope and trace enrichment.
  - The legacy consumer and producer.
  - The topology built from configuration: connections, channels, queues, exchanges, bindings and consumers.
- **Configuration readers.** Each has its own defaults: gRPC, REST, HTTP and telemetry servers, MySQL, MongoDB, the in-memory cache, the deployment environment and the base application settings.
- **Health checker and pagination.** The health checker, its factory, and the arithmetic of the paged response.

How the model represents the system:

- **Configuration.** It is a finite map from dotted keys to dynamic values (`Values.Config`). `GetString`, `GetInt` and `GetBool` give the zero value for a missing or mistyped key.
- **Broker.** It is a value `Broker(refused)`. A call succeeds unless it is in `refused`, which gives the error text of the calls it refuses.
  - Every topology operation returns its result and the calls it issued, in order.
  - Go panics (failed type assertions, a nil AMQP channel) are explicit outcomes (`Outcome.Panic`), not preconditions.
- **Go map iteration.** Its order is unspecified, so loops over maps pick their next key with `:|`, and their postconditions do not depend on the order.
- **64-bit arithmetic.** Durations and unsigned conversions wrap around at 64 bits, as Go's do (`Values.Wrap64`, `Values.ToUint64`).

## Model

| member | source | states |
|---|---|---|
| CoreErrors.MakeError | core/errors/error.go:134-147 | `NewError` keeps code, message and op; the cause is absent exactly when none is given, and otherwise sits behind a stack-trace layer; no data |
| CoreErrors.Error.NewError | core/errors/error.go:134-147 | the constructed object's value is `MakeError` of the arguments |
| CoreErrors.NewInvalidError | core/errors/error.go:150-152 | a fresh error with code "invalid" |
| CoreErrors.NewNotFoundError | core/errors/error.go:155-157 | a fresh error with code "not_found" |
| CoreErrors.NewConflictError | core/errors/error.go:160-162 | a fresh error with code "conflict" |
| CoreErrors.NewForbiddenError | core/errors/error.go:165-167 | a fresh error with code "unauthorized" |
| CoreErrors.NewInternalError | core/errors/error.go:170-172 | a fresh error with code "internal" |
| CoreErrors.NewNotModifiedError | core/errors/error.go:175-177 | a fresh error with code "not_modified" |
| CoreErrors.Error.WithCode | core/errors/error.go:185-188 | sets the code in place, returns the same object, and changes no other field |
| CoreErrors.Error.WithMessage | core/errors/error.go:192-195 | sets the message in place, returns the same object, and changes no other field |
| CoreErrors.Error.WithOperation | core/errors/error.go:199-202 | sets the op in place, returns the same object, and changes no other field |
| CoreErrors.Error.WrapErr | core/errors/error.go:211-216 | a nil cause changes nothing; a cause replaces `Err`, behind a stack-trace layer; no other field changes |
| CoreErrors.Error.SetData | core/errors/error.go:231-234 | sets the data in place, returns the same object, and changes no other field |
| CoreErrors.Error.WithData | core/errors/error.go:238-240 | the same as `SetData` |
| CoreErrors.Error.Error | core/errors/error.go:243-262 | the rendering built piece by piece equals `Render`: `"Op: "` only for a non-empty op, then the cause's message when there is one, else the message alone when there is no code |
| CoreErrors.Error.Unwrap | core/errors/error.go:264-266 | returns the stored cause |
| CoreErrors.Unwrap | core/errors/error.go:264-266 | one step down the chain gives a strictly smaller chain, so walking the chain ends |
| CoreErrors.Wrap | core/errors/error.go:302-304 | a fresh internal error with that op and message, from which `Is` still reaches the cause |
| CoreErrors.FirstAppError | core/errors/error.go:326-367 | what `errors.As` finds is an `*Error` on the chain with only stack-trace layers above it, so it is the first `*Error` |
| CoreErrors.RenderPinnedWithCause | core/errors/error_test.go:40-56 | the pinned rendering of an error with a cause |
| CoreErrors.RenderPinnedWithoutCause | core/errors/error_test.go:40-56 | the pinned rendering `"TestOperation2: <ERR002> Another error"` |
| CoreErrors.RenderIgnoresCodeAndMessageWhenWrapping | core/errors/error.go:243-262 | with a cause, the code and the message do not affect the rendering, which is the op prefix plus the cause's message |
| CoreErrors.RenderWithoutCause | core/errors/error.go:243-262 | without a cause: the message alone, `"<code> "` first for a non-empty code, `"op: "` before that for a non-empty op |
| CoreErrors.RenderNested | core/errors/example_test.go:26-48 | errors nested by `NewError` render as their ops joined by `": "`, ending in the innermost foreign message |
| CoreErrors.NewErrorKeepsCauseReachable | core/errors/error.go:143 | `Is` reaches the cause of `NewError`, but `Unwrap` gives the stack-trace layer, not the cause |
| CoreErrors.FirstAppErrorNoneIff | core/errors/error.go:326-367 | `errors.As` finds nothing exactly when no `*Error` is on the chain |
| CoreErrors.QueriesWithoutAppError | core/errors/error.go:326-367 | with no `*Error` on the chain: `HasCode` is false, `GetCode` is `""` and `GetData` is nil |
| CoreErrors.QueriesUseOutermost | core/errors/error.go:326-367 | `HasCode`, `GetCode` and `GetData` answer from the outermost `*Error` only |
| CoreErrors.HasCodeMissesInnerCode | core/errors/error.go:319-332 | as written, an internal error wrapping a not-found error does not have the not-found code, although that `*Error` is on its chain |
| CoreErrors.HasCodeOnChainIff | core/errors/error.go:319-332 | the documented reading of `HasCode` holds exactly when an `*Error` with the code is reachable, and it holds whenever `HasCode` does |
| CoreErrors.QueriesSeeThroughStack | core/errors/error.go:326-367 | stack-trace layers do not change the answers of the queries |
| CoreErrors.WrapIsInternal | core/errors/error.go:276-304 | `Wrap` has code internal, and `Is` still finds the wrapped cause |
| CoreErrors.ErrorDataSound | core/errors/error_data.go:4-15 | `ErrorData` gives `""` or data attached somewhere on the chain |
| CoreErrors.ErrorDataOutermost | core/errors/error_data.go:7-8 | data on an `*Error` is returned without looking deeper |
| CoreErrors.ErrorDataDirectNesting | core/errors/error_data.go:11-12 | an `*Error` without data that directly holds another error gives that error's data |
| CoreErrors.ErrorDataHiddenByStack | core/errors/error_data.go:7-14 | data on a cause given to `NewError` is not found, because of the stack-trace layer |
| LegacyErrors.Unwrap | errors/error.go:47-49 | returns the stored cause itself; no layer is added |
| LegacyErrors.RenderCases | errors/error.go:26-45 | the op prefix; the cause's message when there is a cause; `"<code> "` plus the message for a non-empty code; the message alone otherwise |
| LegacyErrors.RenderIgnoresCodeWhenWrapping | errors/error.go:36-37 | with a cause, changing the code or the message leaves the rendering unchanged |
| LegacyErrors.CodeTable | errors/types.go:17-24 | conflict 409, invalid 400, not_found 404, internal 500, unauthorized 403, not_modified 304 |
| LegacyErrors.StatusRange | errors/error_status.go:6-15 | every status is a table value, or 0 for an unknown code |
| LegacyErrors.StatusOfCodedValue | errors/error_status.go:9-10 | a non-empty code decides by the table, 0 when the code is unknown |
| LegacyErrors.StatusOfUncodedValue | errors/error_status.go:11-14 | an empty code defers to the cause, or gives 500 without one |
| LegacyErrors.StatusOfPointerIs500 | errors/error_status.go:6-15 | a pointer to an `Error` is not recognised and gives 500, also as a cause |
| RestErrorMap.StatusRange | protocol/rest/router/error_map.go:22-31 | every status is a table value, 0 or 500 |
| RestErrorMap.OutermostCodeDecides | protocol/rest/router/error_map.go:25-26 | the outermost non-empty code decides; not_found gives 404; an unknown code gives 0 |
| RestErrorMap.EmptyCodeRecurses | protocol/rest/router/error_map.go:27-28 | an empty code with a directly held cause gives the cause's status |
| RestErrorMap.UncodedNewErrorIs500 | protocol/rest/router/error_map.go:30 | any error built by `NewError` with an empty code maps to 500, whatever its cause |
| RestErrorMap.WrappedNotFoundIs500 | protocol/rest/router/error_map.go:22-31 | a not-found error gives 404, but the same error wrapped by `NewError("", …)` gives 500 |
| RestErrorMap.ThroughStackUsesNearestCode | protocol/rest/router/error_map.go:22-31 | the corrected mapping gives the status of the nearest code on the chain, and 500 when there is none |
| RestErrorMap.ThroughStackFindsWrappedCode | protocol/rest/router/error_map.go:22-31 | with the corrected mapping, wrapping with an empty code keeps the cause's status |
| PagedResponse.NumOfPages | router/response.go:22 | the ceiling of count over page size: the smallest page count that covers every item; 0 exactly when there are no items |
| PagedResponse.NewPagedResponse | router/response.go:20-41 | the page count is `NumOfPages`; total items, current page, page size and items are the arguments |
| PagedResponse.PageCountBounds | router/response.go:22 | a page is before the last exactly when items lie beyond it, and is the last exactly when it holds the final item |
| PagedResponse.NextPageIff | router/response.go:24-27 | a next page exists exactly when items remain beyond page × page size, and it is page + 1 |
| PagedResponse.PrevPageIff | router/response.go:29-32 | as written, a previous page exists exactly when the page holds the final item and is not page 1, and it is page − 1 |
| PagedResponse.MiddlePageHasNoPrev | router/response.go:24-32 | a middle page has a next page and no previous page |
| PagedResponse.EmptyResult | router/response.go:22-32 | no items gives no pages and no links from page 1 on |
| PagedResponse.ThreePages | router/response.go:20-41 | 25 items in pages of 10: three pages, with their links |
| PagedResponse.NewPagedResponseLinkingBack | router/response.go:20-41 | the corrected response differs from the one as written in the previous link only |
| PagedResponse.PrevPageHoldsItems | router/response.go:29-32 | with the corrected link, a previous page exists exactly when it and the current page both hold items, and it is page − 1 |
| HandlerRegistry.MapMessageHandlers | messaging/rabbitmq/module.go:75-82 | the loop builds `Registry`, which has an entry for every handler |
| HandlerRegistry.RegistryKeys | messaging/rabbitmq/module.go:78 | the keys are exactly the handlers' `"<queue>-<message>"` keys |
| HandlerRegistry.RegistryLastWins | messaging/rabbitmq/module.go:76-80 | each key holds the last handler inserted under it |
| HandlerRegistry.RegistryHoldsInputs | messaging/rabbitmq/module.go:76-80 | every stored handler is one of the inputs, stored under its own key |
| HandlerRegistry.RegistrySize | messaging/rabbitmq/module.go:76-80 | there are no more entries than handlers |
| HandlerRegistry.KeysCollide | messaging/rabbitmq/module.go:78 | ("a-b", "c") and ("a", "b-c") share a key, and the later handler replaces the earlier |
| Messages.MarshalNeedsPayload | messaging/messages/message.go:10-22 | encoding a message succeeds exactly when its payload has a JSON form |
| Messages.DecodeEncodeMetadata | messaging/messages/message.go:10-17 | decoding the encoded metadata object gives back every field |
| Messages.DecodeEncode | messaging/messages/message.go:10-22 | decoding an encoded envelope gives back the message |
| Messages.DecodeRefusesNonObjects | messaging/messages/message.go:19-22 | only a JSON object or null decodes as a message |
| Messages.DecodeRefusesMistypedName | messaging/messages/message.go:10-17 | a metadata field of the wrong JSON type makes the body undecodable |
| Text.JoinSplit | messaging/rabbitmq/consumer.go:140 | joining the parts of `strings.Split` gives back the string |
| Text.SplitShape | messaging/rabbitmq/consumer.go:140 | one part more than there are separators, and no part holds a separator |
| Text.SplitWithoutSeparator | messaging/rabbitmq/consumer.go:140-145 | a string without the separator is one part |
| TraceIds.DecodeEncodeHex | messaging/rabbitmq/consumer.go:148-151 | decoding hex undoes encoding |
| TraceIds.EncodeDecodeHex | messaging/rabbitmq/consumer.go:148-151 | encoding undoes decoding of well-formed hex |
| TraceIds.ParseTraceId | messaging/rabbitmq/consumer.go:139-146 | the trace-id always has 16 bytes |
| TraceIds.ParseSpanId | messaging/rabbitmq/consumer.go:148-151 | the span-id always has 8 bytes |
| TraceIds.SecondFieldIsTraceId | messaging/rabbitmq/consumer.go:139-146 | the second '-'-separated field of a traceparent whose version has no '-' is the hex of its trace-id |
| TraceIds.ParseTraceIdOfTraceparent | messaging/rabbitmq/consumer.go:139-146 | a W3C traceparent whose version has no '-' gives its trace-id, the second field |
| TraceIds.ParseTraceIdWithoutSeparator | messaging/rabbitmq/consumer.go:141-145 | without any '-', the trace-id is zero |
| TraceIds.ParseTraceIdOfEmpty | messaging/rabbitmq/consumer.go:139-146 | an empty traceparent gives the zero trace-id |
| TraceIds.SpanIdRoundTrip | messaging/rabbitmq/consumer.go:148-151 | the hex span-id the producer writes is read back unchanged |
| TraceIds.UpperCaseSpanIdIsZero | messaging/rabbitmq/consumer.go:148-151 | upper-case hex is refused, and the error is dropped for the zero span-id |
| Deliveries.Deliver | messaging/rabbitmq/consumer.go:75-127 | an undecodable body is dropped; a handler is invoked exactly when the body decodes and a handler is registered under `"<queue>-<message>"` |
| Deliveries.InvocationShape | messaging/rabbitmq/consumer.go:86-123 | the handler under the key gets the decoded message, in a span named "processing: <message>" linked to the parsed trace-id and span-id, with the traceparent and tracestate as the carrier |
| Deliveries.PublishedMessageRouting | messaging/rabbitmq/consumer.go:79-91 | an encoded message is handled exactly when some registered handler has its queue and message name |
| Deliveries.InvocationsCount | messaging/rabbitmq/consumer.go:75-128 | over a batch, `Handle` is called once per routable delivery |
| Deliveries.HandleBatch | messaging/rabbitmq/consumer.go:75-128 | handling deliveries one after the other gives the invocations in delivery order, one per routable delivery |
| Deliveries.TwoOfThreeHandled | messaging/rabbitmq/consumer.go:86-91 | messages A, B, A with only A's handler registered give two invocations |
| QueueConsumers.Start | messaging/rabbitmq/consumer.go:53-73 | a nil channel, then a nil queue, is an error; a nil AMQP channel panics; otherwise it consumes on the declared queue name with the configured tag and flags, and a refusal is wrapped in "error starting RabbitMQ consumer (…)" |
| QueueConsumers.HandleDelivery | messaging/rabbitmq/consumer.go:86-87 | routes by the queue's configured name against the consumer's handlers |
| QueueConsumers.Stop | messaging/rabbitmq/consumer.go:135-137 | returns no error |
| LegacyConsumer.RabbitMQQueueConsumer.constructor | messaging/consumer/rabbitmq.go:45-77 | the channel and the queue are the ones named "default", or nil |
| LegacyConsumer.RabbitMQQueueConsumer.Start | messaging/consumer/rabbitmq.go:79-99 | the same checks as the newer consumer, consuming with an empty tag and auto-ack on, with exclusive, no-local and no-wait off |
| LegacyConsumer.RabbitMQQueueConsumer.HandleDelivery | messaging/consumer/rabbitmq.go:101-153 | a handler is invoked exactly when the body decodes and is routable; an undecodable body is dropped |
| LegacyConsumer.RabbitMQQueueConsumer.Stop | messaging/consumer/rabbitmq.go:161-164 | returns no error |
| LegacyConsumer.RabbitMQQueueConsumer.SetChannel | messaging/consumer/rabbitmq.go:166-172 | the named channel, or nil when it does not exist; the queue is unchanged |
| LegacyConsumer.RabbitMQQueueConsumer.SetQueue | messaging/consumer/rabbitmq.go:173-179 | the named queue, or nil when it does not exist; the channel is unchanged |
| LegacyConsumer.SetMissingChannelThenStart | messaging/consumer/rabbitmq.go:166-172 | pointing at a missing channel makes `Start` fail with the nil-channel error before consuming |
| Producers.NewRabbitMQProducer | messaging/rabbitmq/producer.go:35-60 | no connections is an error; otherwise it succeeds exactly when some connection is non-nil, and picks one of those |
| Producers.Enrich | messaging/rabbitmq/producer.go:104-119 | with no valid span nothing changes; otherwise the traceparent and tracestate come from the carrier, and the span-id reads back as the span's id; name, date, publisher and payload are kept |
| Producers.Publish | messaging/rabbitmq/producer.go:62-102 | an unencodable payload fails before any call; a refused channel is returned wrapped; otherwise open, publish the encoded envelope to the service's exchange under the message name, and close, returning the publish error |
| Producers.PublishedBodyIsRouted | messaging/rabbitmq/producer.go:62-119 | a published body reaches the handler registered for its message name, with the publisher's name, date and payload, and links to the publishing span and its trace-id |
| Producers.UntracedPublishLinksNothing | messaging/rabbitmq/producer.go:105-108 | without a valid span the envelope carries no trace, and the consumer links to the zero trace-id |
| LegacyProducer.RabbitMQProducer.constructor | messaging/producer/rabbitmq.go:30-46 | the channel named "default", or nil |
| LegacyProducer.RabbitMQProducer.Publish | messaging/producer/rabbitmq.go:48-65 | an unencodable message is an error; a nil channel panics; otherwise the message itself is published once, and the publish error is returned |
| LegacyProducer.RabbitMQProducer.SetChannel | messaging/producer/rabbitmq.go:67-73 | the named channel, or nil when it does not exist |
| Topology.PickDefault | messaging/consumer/rabbitmq.go:55-68 | the walk over the map finds the entry named "default" exactly when it exists |
| ConsumerConfigs.NewConsumerConfig | messaging/rabbitmq/consumer_config.go:15-62 | a malformed entry panics and never returns an error; requeue is false and the prefetch count 0 |
| ConsumerConfigs.BuiltIffWellFormed | messaging/rabbitmq/consumer_config.go:15-62 | the reader succeeds exactly on objects with string queue and channel and well-typed optional keys |
| ConsumerConfigs.CopiesAndDefaults | messaging/rabbitmq/consumer_config.go:18-61 | present values are copied, and absent optional keys take their defaults |
| ConsumerConfigs.RequiredKeys | messaging/rabbitmq/consumer_config.go:23-31 | a missing queue panics first, then a missing channel |
| ConsumerConfigs.MinimalEntry | messaging/rabbitmq/consumer_config.go:15-62 | an entry with only queue and channel gets every default |
| ConnectionConfigs.NewConnectionConfig | messaging/rabbitmq/connection_config.go:24-55 | succeeds exactly when username and password are set; every failure names the username key |
| ConnectionConfigs.ResolvedValues | messaging/rabbitmq/connection_config.go:27-54 | host and port fall back to "localhost" and "5672"; the credentials are copied |
| ConnectionConfigs.MissingPasswordNamesUsername | messaging/rabbitmq/connection_config.go:44-47 | a missing password is reported under the username key |
| ConnectionConfigs.NewConnectionConfigNamingPassword | messaging/rabbitmq/connection_config.go:24-55 | the corrected reader succeeds on the same configurations |
| ConnectionConfigs.NamingPasswordReportsMissingKey | messaging/rabbitmq/connection_config.go:38-47 | with the correction, each failure names the missing key, and success gives the same settings |
| Connections.Connect | messaging/rabbitmq/connections.go:14-30 | one key: it succeeds exactly when the key's settings read and the dial is accepted, and returns that connection or that error |
| Connections.RabbitMQConnections | messaging/rabbitmq/connections.go:9-34 | succeeds exactly when every configured key connects, with one connection per key; otherwise it returns the error of a key that cannot connect; at most one dial per key |
| Channels.Channels | messaging/rabbitmq/channels.go:20-51 | no connections is an error; otherwise one channel per entry whose connection exists, each opened on that connection |
| Queues.NewQueue | messaging/rabbitmq/queues.go:29-49 | a nil AMQP channel panics; a declare is issued, and a refused declare panics; otherwise the queue as declared |
| Queues.RabbitMQQueues | messaging/rabbitmq/queues.go:9-59 | no channels gives nothing; otherwise one queue per entry whose channel exists, keyed by entry name; a malformed entry or a refused declare panics |
| Exchanges.NewExchange | messaging/rabbitmq/exchanges.go:37-58 | a nil AMQP channel panics; a refused declare panics; otherwise the exchange as declared |
| Exchanges.RabbitMQExchanges | messaging/rabbitmq/exchanges.go:18-68 | no channels gives nothing; otherwise one exchange per entry whose channel exists; `Internal` comes from "exclusive" |
| Bindings.KeySteps | messaging/rabbitmq/bindings.go:47-64 | one step per routing key |
| Bindings.BindKeys | messaging/rabbitmq/bindings.go:47-64 | the routing-key loop runs the key steps in order, stopping at the first refusal |
| Bindings.BindEntry | messaging/rabbitmq/bindings.go:26-66 | one entry: skipped when its exchange, then its queue, is missing; otherwise its routing keys are bound |
| Bindings.RabbitMQBindings | messaging/rabbitmq/bindings.go:19-76 | with no queues or no exchanges nothing is bound; otherwise the plan of every entry runs in order |
| Bindings.ExecuteOkIff | messaging/rabbitmq/bindings.go:56-75 | it succeeds exactly when every step is an accepted bind, and then it issues exactly those binds |
| Bindings.ExecuteErrIsFirstRefusal | messaging/rabbitmq/bindings.go:56-64 | an error is the refusal of the first refused bind, and no later bind is issued |
| Bindings.EntryBindsEachKey | messaging/rabbitmq/bindings.go:47-54 | each routing key binds the queue's name to the exchange's name through the queue's channel, with the entry's no-wait |
| Bindings.KeyStepsEach | messaging/rabbitmq/bindings.go:47-54 | step i is the bind, or the panic, of routing key i |
| Bindings.MissingTargetSkips | messaging/rabbitmq/bindings.go:30-44 | an entry whose exchange or queue is missing binds nothing |
| Bindings.FirstRefusalStops | messaging/rabbitmq/bindings.go:56-64 | with two routing keys on one entry and the first refused, one bind is issued and its error returned; the second key is never bound |
| ConsumerList.Consumers | messaging/rabbitmq/consumers.go:26-68 | the loop builds `Built` and never returns an error |
| ConsumerList.BuiltAreSurvivors | messaging/rabbitmq/consumers.go:29-67 | the build succeeds exactly when no entry panics; then, in order, one consumer per entry whose channel and queue exist, with the shared handlers, and no more consumers than entries |
| ConsumerList.MissingDependencySkips | messaging/rabbitmq/consumers.go:38-53 | an entry whose channel or queue is missing adds no consumer |
| ConsumerList.PanicPersists | messaging/rabbitmq/consumers.go:29-37 | a panic of an entry ends the whole build |
| HealthCheckers.HealthChecker.constructor | core/healthchecker/checker.go:16-20 | a new checker has no probes |
| HealthCheckers.HealthChecker.AddProbe | core/healthchecker/checker.go:22-26 | appends at the end and returns the same checker |
| HealthCheckers.HealthChecker.Run | core/healthchecker/checker.go:28-45 | every probe is checked once, in order; success exactly when every probe succeeds; the results are keyed by name |
| HealthCheckers.ResultsCoverNames | core/healthchecker/checker.go:31-38 | the results have exactly the probes' names as keys |
| HealthCheckers.LastOfNameWins | core/healthchecker/checker.go:38 | a name's result is that of the last probe with that name |
| HealthCheckers.LastOptionWins | core/healthchecker/option.go:7-17 | the last `WithProbes` decides the probes; with no option there are none |
| HealthCheckers.Create | core/healthchecker/factory.go:13-27 | a new checker holding the probes of the applied options, in order; never an error |
| Environment.ValidateEnvironment | core/config/environment.go:27-34 | no error exactly for dev, test, staging or prod, by exact comparison; otherwise the unsupported-environment error listing them |
| Environment.GetEnv | core/osutil/utils.go:6-11 | a variable that is set, even to "", wins over the fallback |
| Environment.DetermineEnvironment | core/config/environment.go:14-25 | DEPLOY_TYPE, "dev" when unset; a supported value is returned; an unsupported one is the validation error |
| Environment.ValidationIsExact | core/config/environment.go:29 | "Dev", "PROD" and "" are rejected; a DEPLOY_TYPE set to "" does not fall back |
| Environment.NewBaseConfig | core/config/app_config.go:8-13 | the environment from "env", debug exactly when "debug" is true |
| Environment.VerboseFromConfig | core/config/app_config.go:15-17 | verbose exactly when "env" is "dev" or "debug" is true |
| Environment.NoEnvironmentKey | core/config/app_config.go:8-17 | without "env", the environment is "" and verbosity is the debug flag |
| GrpcConfig.NewServerConfig | transport/grpc/config.go:54-125 | port, graceful stop, keep-alive min time, time and timeout are the configured values when non-zero and 50051, 10, 300, 7200 and 20 otherwise, so none of them is 0; permit-without-stream is the flag; max idle, age and age grace are copied with no default |
| GrpcConfig.ResolvedIsFixedPoint | transport/grpc/config.go:54-125 | any configuration that holds the resolved settings under their keys resolves to the same settings |
| GrpcConfig.EmptyConfigDefaults | transport/grpc/config.go:22-125 | an empty configuration gives the defaults, with 0 and not 15/30/5 for the connection limits |
| RestConfig.NewConfig | protocol/rest/config.go:30-63 | port 9090, read 10, write 20 and graceful 10 when 0; configured values are kept; none is 0 |
| RestConfig.ResolvedIsFixedPoint | protocol/rest/config.go:30-63 | writing the resolved settings back and reading them again changes nothing |
| PrometheusConfig.NewTelemetryServerConfig | core/instrumentation/prometheus/server_config.go:30-59 | port 9092, read 10, write 20 and graceful 10 when 0; none is 0 |
| PrometheusConfig.ResolvedIsFixedPoint | core/instrumentation/prometheus/server_config.go:30-59 | writing the resolved settings back and reading them again changes nothing |
| TelemetryConfig.NewTelemetryServerConfig | instrumentation/telemetry_config.go:30-62 | the port defaults to 9092; the read and write timeouts are never defaulted; the graceful stop is the write timeout, or 10 when that is 0 |
| TelemetryConfig.ZeroTimeoutsStayZero | instrumentation/telemetry_config.go:39-49 | an empty configuration leaves both timeouts 0 |
| TelemetryConfig.GracefulReadsWriteTimeout | instrumentation/telemetry_config.go:51 | a configured graceful stop of 30 is ignored for a write timeout of 5 |
| TelemetryConfig.NewTelemetryServerConfigIntended | instrumentation/telemetry_config.go:30-62 | each setting from its own key with its own default; none is 0 |
| TelemetryConfig.IntendedIsFixedPoint | instrumentation/telemetry_config.go:30-62 | the corrected reader is settled, while the reader as written changes the settings (9092, 10, 5, 30) |
| HttpConfig.NewServerConfig | transport/http/config.go:26-52 | the port defaults to 9090; the timeouts are copied and never defaulted |
| HttpConfig.ZeroTimeoutsStayZero | transport/http/config.go:35-45 | an empty configuration leaves both timeouts 0 |
| HttpConfig.NewServerConfigIntended | transport/http/config.go:26-52 | each timeout falls back to its own default, and none is 0 |
| HttpConfig.IntendedAgreesWhenConfigured | transport/http/config.go:35-45 | the readers agree exactly when both timeouts are configured |
| MysqlConfig.NewConfig | persistance/mysql/config.go:46-98 | never an error; each of host, port, timeout and the four pool settings is the configured value when set, and localhost, 3306, 30, 10, 100, 3600 and 300 otherwise; database and credentials copied; the name is the argument |
| MysqlConfig.ConfiguredValuesKept | persistance/mysql/config.go:46-98 | a data source with every setting configured is read exactly as configured |
| MysqlConfig.EmptyConfigDefaults | persistance/mysql/config.go:46-98 | an empty configuration gives the defaults and empty credentials |
| MongoConfig.NewConfig | persistance/mongodb/config.go:30-64 | a missing host, then a missing name, is an error naming its key; otherwise replica set and auth database are optional, and the rest comes from the fixed default keys, seconds as wrapped nanoseconds and pool sizes as unsigned |
| MongoConfig.SharedSettingsIgnorePrefix | persistance/mongodb/config.go:56-62 | two prefixes read from one configuration share credentials, timeouts and pool sizes |
| MongoConfig.SecondsExact | persistance/mongodb/config.go:56-60 | seconds whose nanoseconds fit in 64 bits convert exactly |
| MongoConfig.NegativePoolSizeWraps | persistance/mongodb/config.go:61-62 | a negative pool size becomes a huge unsigned one |
| CacheConfig.Read | cache/inmemory/config.go:24-45 | each setting is its configured number of minutes, with defaults 5 and 10 when 0 |
| CacheConfig.NewConfigAsWritten | cache/inmemory/config.go:12-45 | a configured expiration is also the cleanup interval; otherwise the cleanup interval is 10 minutes |
| CacheConfig.CleanupIntervalIgnored | cache/inmemory/config.go:15-39 | a 1-minute cleanup setting is ignored next to a 5-minute expiration |
| CacheConfig.NewConfig | cache/inmemory/config.go:24-45 | the corrected reader reads the expiration as before |
| CacheConfig.SettingsIndependent | cache/inmemory/config.go:12-17 | with its own key, each setting does not depend on the other's key |
| CacheConfig.ConfiguredCleanupIntervalKept | cache/inmemory/config.go:34-43 | with its own key, a configured cleanup interval is used |
| CacheConfig.Minutes | cache/inmemory/config.go:42-43 | minutes to nanoseconds, exact while it fits in 64 bits |

## Left out

- Connection and channel supervisors (reconnect loops, notification channels, `Close`): they are about concurrency and timing. Dialling and opening a channel are single broker calls that may fail.
- Goroutines: a consumer handles deliveries concurrently, one goroutine per delivery. The model handles them one after another (`Deliveries.HandleBatch`), because each delivery's handling is independent.
- JSON is modelled as a dynamic value. Bytes that are not JSON are `Delivery(None)`. Go's case-insensitive matching of JSON field names is not modelled.
- The publish date is kept as opaque text. Its RFC 3339 formatting and the clock are not modelled.
- OpenTelemetry is reduced to what the code passes around: span validity, span-id, carrier contents, span name and links. Span export, sampling and context propagation inside the process are left out.
- The AMQP client is the `Broker` value. Server-generated queue names, arguments tables and delivery acknowledgements are not modelled.
- `UnmarshalPayload` and the typed payload a handler receives are not modelled. The handler receives the decoded message.
- `Handle` itself is not modelled: it is application code, and its error is only logged.
- Logging is left out throughout, including the error of closing the producer's channel, which is only logged.
- Producers.Enrich: modelled as a function returning the enriched message, not as an update through a pointer.
- `Wrapf` (fmt formatting), `Is`/`As` on foreign error types beyond equality, `NewApiResponse`, and the gRPC error map are not part of this model.
- PagedResponse.NumOfPages: the float computation is modelled as integer ceiling division. It is only defined for a positive page size and fewer than 2^53 items, where the two agree. Other inputs (page size 0, negative counts) are not modelled.
- Viper's key lookup: nested maps, case folding and string-to-number conversions are not modelled. A value of the wrong type reads as the zero value.
- `os.Exit` in `DetermineEnvironment` is modelled as a failure result. Environment variables are a parameter.
- MongoConfig.NewConfig: the TODO about further defaults is not acted on. The keys are read as written.
- The MySQL and MongoDB connection code, fx wiring and module registration are not part of this model.
- CoreErrors.Error.WrapErr: the cause is stored as a value (`Chain`), not as a pointer. In Go, changing an inner `*Error` with `WithCode` or `WithMessage` after it was wrapped also changes the outer error's text and the queries' answers; the model does not capture that aliasing.
- CoreErrors.Is: errors are compared by value. Go's `errors.Is` compares `*Error` values by pointer, so two separate errors with equal fields match in the model but not in Go.
- HealthCheckers.HealthChecker.Run: each probe carries a fixed result, where Go calls the probe's `Check` afresh on every `Run` (its answer may change between runs). A probe that returns nil, which makes `Run` panic (core/healthchecker/checker.go:37), is not modelled.

## Findings

| source | as written | input that shows it | evidently intended | confidence | as-written member | corrected member |
|---|---|---|---|---|---|---|
| protocol/rest/router/error_map.go:22-31 | a cause held by `NewError` sits behind a stack-trace layer that the mapping does not look through, so it gives 500 | `NewError("", "wrapper", "Handler", NewNotFoundError(...))` maps to 500, not 404 | the nearest code on the chain decides | medium, not executed | RestErrorMap.WrappedNotFoundIs500 | RestErrorMap.ThroughStackFindsWrappedCode |
| messaging/rabbitmq/connection_config.go:44-47 | a missing password is reported under the username key, because the key variable is not updated | username "u" and no password gives "missing property: '…username'" | the error names the password key | high, not executed | ConnectionConfigs.MissingPasswordNamesUsername | ConnectionConfigs.NamingPasswordReportsMissingKey |
| instrumentation/telemetry_config.go:39-49 | the read and write timeout defaults test the already-defaulted port, so they never apply | an empty configuration gives read and write timeouts of 0 | 10 and 20 when unset | high, not executed | TelemetryConfig.ZeroTimeoutsStayZero | TelemetryConfig.IntendedIsFixedPoint |
| instrumentation/telemetry_config.go:51 | the graceful-stop timeout is read from the write-timeout key | graceful 30 with write timeout 5 gives a graceful stop of 5 | read from the graceful-stop key | high, not executed | TelemetryConfig.GracefulReadsWriteTimeout | TelemetryConfig.IntendedIsFixedPoint |
| transport/http/config.go:35-45 | the read and write timeout defaults test the already-defaulted port, so they never apply | an empty configuration gives timeouts of 0 | 10 and 20 when unset | high, not executed | HttpConfig.ZeroTimeoutsStayZero | HttpConfig.IntendedAgreesWhenConfigured |
| cache/inmemory/config.go:15 | the cleanup-interval key constant equals the expiration key, so the cleanup interval cannot be set on its own | expiration 5 and a cleanup setting of 1 gives a cleanup interval of 5 minutes | a key of its own, here "cleanup-interval" (the name is an assumption) | high, not executed | CacheConfig.CleanupIntervalIgnored | CacheConfig.SettingsIndependent |
| router/response.go:29 | the previous link is set only on the last page, so pages 2 to n − 1 have no link back | 25 items in pages of 10, page 2: next page 3, no previous page | every page after the first, up to the last, links to the page before it, as the next link does forward | medium, not executed | PagedResponse.MiddlePageHasNoPrev | PagedResponse.PrevPageHoldsItems |
| core/errors/error.go:319-332 | `HasCode` asks only the first `*Error` on the chain, while its documentation says any `*Error` in the chain | an internal error wrapping a not-found error: `HasCode(err, ENOTFOUND)` is false | the code answers as documented, looking at every `*Error` on the chain | low, not executed | CoreErrors.HasCodeMissesInnerCode | CoreErrors.HasCodeOnChainIff |
