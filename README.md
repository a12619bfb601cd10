# brave-kafka-interceptor, modelled in Dafny

This project models the tracing interceptors of brave-kafka-interceptor, and proves properties of the model. The interceptors plug Brave tracing into the Kafka producer and consumer clients.

- **Producer.** `TracingProducerInterceptor.onSend` continues the trace a record's headers carry, or starts a new one. It replaces the record's propagation headers with the new span's context and reports one `on_send` span.
- **Consumer.** `TracingConsumerInterceptor.onConsume` gives every record of a polled batch a span:
  - Each topic's records that carry nothing share one `poll` span. That span is finished after the whole batch.
  - A record that carries a context or extra fields gets its own `on_consume` span, started and finished at once.
  - Either way, the record's headers end up carrying the span's context.
- **Configuration.** Both interceptors are set up by `configure`. It wraps the client's configuration map in `TracingConfiguration` and builds the tracer with `TracingBuilder`. `TracingBuilder` chooses the sender, encoding, bootstrap address, sampling rate, local service name and the 128-bit flag.
- **Header codec.** Headers are read and written through `KafkaInterceptorPropagation`, a setter and getter over Kafka's ordered, multi-valued `Headers`, with values in UTF-8.
- **Legacy package.** The older package `no.sysco.middleware.kafka.interceptor.zipkin` holds near-copies of the codec, the configuration accessor and the builder. They are modelled beside the current ones and related to them by lemmas.

Layout, one file per source component:

- `wrappers.dfy`: `Option`, which stands for a nullable reference, and `Result`/`Outcome`, which stand for a call that may throw.
- `utf8.dfy`: UTF-8 encoding and decoding, as written in RFC 3629, with the round trip proved.
- `headers.dfy`: the `Headers` class, with `remove` and `add` updating its entry list in place.
- `propagation.dfy` and `legacy_propagation.dfy`: the two header codecs.
- `configuration.dfy` and `legacy_configuration.dfy`: the two configuration accessors.
- `tracing_builder.dfy` and `legacy_tracing_builder.dfy`: the two construction policies.
- `tag_keys.dfy`: the span tag keys.
- `brave.dfy`: the part of Brave the interceptors call. It holds trace contexts, extraction results, spans, and a `Tracing` object whose `nextId` and event `log` are updated in place. It also holds the injector and extractor loops over the codec.
- `producer.dfy` and `consumer.dfy`: the two interceptors. Each is a class whose methods update the record headers and the tracer. Each method is proved against a specification function, `Send` and `Consume`, and the lemmas state what those functions promise.

Brave's propagation format is a parameter, `TracePropagation`. It consists of the keys the format owns, the pairs its injector writes, and what its extractor makes of the getter's answers. The laws a format such as B3 obeys are stated as the predicate `Brave.Lawful`, and only lemmas require it. The id generator is the tracer's `nextId` field. The counting sampler and `Float.valueOf` are function parameters.

## Model

| member | source | states |
|---|---|---|
| Utf8.DecodeEncode | src/main/java/brave/kafka/interceptor/KafkaInterceptorPropagation.java:31-37 | decoding the UTF-8 bytes the setter wrote gives back the string |
| Utf8.EncodeInjective | src/main/java/brave/kafka/interceptor/KafkaInterceptorPropagation.java:31 | two different strings never produce the same header bytes |
| Utf8.DecodeFirstOfEncodeChar | src/main/java/brave/kafka/interceptor/KafkaInterceptorPropagation.java:37 | the decoder reads one encoded character back whole, whatever bytes follow it |
| KafkaHeaders.Without | src/main/java/brave/kafka/interceptor/KafkaInterceptorPropagation.java:30 | after removing a key, the headers are exactly the original headers with another key, and never more of them |
| KafkaHeaders.LastWithKey | src/main/java/brave/kafka/interceptor/KafkaInterceptorPropagation.java:35-36 | `lastHeader` is null exactly when no header has the key; otherwise it is a header of the list under that key |
| KafkaHeaders.LastWithKeyWithout | src/main/java/brave/kafka/interceptor/KafkaInterceptorPropagation.java:30-35 | removing one key does not change which header is last under another key |
| KafkaHeaders.WithoutAbsent | src/main/java/brave/kafka/interceptor/KafkaInterceptorPropagation.java:30 | removing a key that no header has changes nothing |
| KafkaHeaders.Headers.Remove | src/main/java/brave/kafka/interceptor/KafkaInterceptorPropagation.java:30 | the in-place removal loop leaves exactly `Without` of the old entries |
| KafkaHeaders.Headers.Add | src/main/java/brave/kafka/interceptor/KafkaInterceptorPropagation.java:31 | `add` appends one header at the end |
| Propagation.HeaderSetter | src/main/java/brave/kafka/interceptor/KafkaInterceptorPropagation.java:29-32 | the new entries are the old ones without the key, followed by the one new header; the getter then reads back the value set |
| Propagation.HeaderGetter | src/main/java/brave/kafka/interceptor/KafkaInterceptorPropagation.java:34-38 | the result is null exactly when no header has the key; otherwise it is the decoded value of a header under the key |
| Propagation.Lookup | src/main/java/brave/kafka/interceptor/KafkaInterceptorPropagation.java:35-36 | the getter on a plain entry list: null exactly when no header has the key |
| Propagation.SetterLeavesOneHeader | src/main/java/brave/kafka/interceptor/KafkaInterceptorPropagation.java:29-32 | after the setter, exactly one header has the key, and it is the last entry |
| Propagation.SetterGetterRoundTrip | src/main/java/brave/kafka/interceptor/KafkaInterceptorPropagation.java:29-38 | the getter after the setter returns the value that was set |
| Propagation.SetterKeepsOtherHeaders | src/main/java/brave/kafka/interceptor/KafkaInterceptorPropagation.java:30-31 | the headers under other keys are kept, in their original relative order |
| Propagation.SetterKeepsOtherLookups | src/main/java/brave/kafka/interceptor/KafkaInterceptorPropagation.java:29-38 | the setter does not change what the getter answers for any other key |
| Propagation.GetterReadsLast | src/main/java/brave/kafka/interceptor/KafkaInterceptorPropagation.java:35-37 | with several headers under a key, the getter returns the value of the last one |
| Propagation.SetterIdempotent | src/main/java/brave/kafka/interceptor/KafkaInterceptorPropagation.java:30-31 | setting the same value twice leaves the same header list as setting it once |
| LegacyPropagation.HeaderSetter | src/main/java/no/sysco/middleware/kafka/interceptor/zipkin/KafkaInterceptorPropagation.java:17-20 | the older setter has the same effect as `Put`: one header under the key, last; other keys untouched; the value reads back |
| LegacyPropagation.HeaderGetter | src/main/java/no/sysco/middleware/kafka/interceptor/zipkin/KafkaInterceptorPropagation.java:22-27 | null exactly when the key is absent, else a decoded header value under the key; it agrees with the current getter |
| Configuration.SplitJoin | src/main/java/brave/kafka/interceptor/TracingConfiguration.java:57 | joining list elements that contain no comma loses nothing: splitting the joined string gives them back |
| Configuration.JoinSplit | src/main/java/brave/kafka/interceptor/TracingConfiguration.java:57 | joining the comma-separated pieces of a string gives the string back |
| Configuration.IndexOfComma | src/main/java/brave/kafka/interceptor/TracingConfiguration.java:57 | the index found holds a comma, and no comma comes before it |
| Configuration.TracingConfiguration.GetStringList | src/main/java/brave/kafka/interceptor/TracingConfiguration.java:52-63 | non-null exactly for a list value; then it is the elements joined with ",", in order, and it splits back into them when they hold no comma |
| Configuration.TracingConfiguration.GetStringOrDefault | src/main/java/brave/kafka/interceptor/TracingConfiguration.java:68-78 | a String value is returned as stored; a missing or non-String value gives the default |
| Configuration.TracingConfiguration.GetString | src/main/java/brave/kafka/interceptor/TracingConfiguration.java:80-82 | it is `getStringOrDefault(key, null)`, and is non-null exactly for a String value |
| Configuration.TracingConfiguration.GetKeySet | src/main/java/brave/kafka/interceptor/TracingConfiguration.java:84-86 | exactly the keys of the wrapped map |
| Configuration.StringAndListExclusive | src/main/java/brave/kafka/interceptor/TracingConfiguration.java:55-71 | for any key, at most one of `getString` and `getStringList` is non-null |
| Configuration.MissingKeyMisses | src/main/java/brave/kafka/interceptor/TracingConfiguration.java:52-86 | a key outside the key set gives null from both lookups, and the default from `getStringOrDefault` |
| Configuration.ConfigurationExamples | src/test/java/brave/kafka/interceptor/TracingConfigurationTest.java:28-96 | the values the configuration tests expect, including `["v","v1"]` joined to `"v,v1"` |
| LegacyConfiguration.TracingConfiguration.GetStringList | src/main/java/no/sysco/middleware/kafka/interceptor/zipkin/TracingConfiguration.java:22-34 | null for a missing key; a list value joined with ","; a `ClassCastException` for any other value |
| LegacyConfiguration.TracingConfiguration.GetStringOrDefault | src/main/java/no/sysco/middleware/kafka/interceptor/zipkin/TracingConfiguration.java:39-50 | a String value as stored, else the default |
| LegacyConfiguration.TracingConfiguration.GetString | src/main/java/no/sysco/middleware/kafka/interceptor/zipkin/TracingConfiguration.java:52-54 | `getStringOrDefault(key, null)`: null on a miss |
| LegacyConfiguration.ScalarLookupsAgree | src/main/java/no/sysco/middleware/kafka/interceptor/zipkin/TracingConfiguration.java:39-54 | both versions answer every String lookup alike |
| LegacyConfiguration.StringListAgreesUnlessCastFails | src/main/java/no/sysco/middleware/kafka/interceptor/zipkin/TracingConfiguration.java:22-34 | the two list lookups agree wherever the older one returns; the older one throws exactly where the current one gives null for a value that is present |
| TracingBuilder.SenderTypeValueOf | src/main/java/brave/kafka/interceptor/TracingBuilder.java:80-103 | only an exact constant name is accepted; any other string fails with "no enum constant" |
| TracingBuilder.EncodingValueOf | src/main/java/brave/kafka/interceptor/TracingBuilder.java:139 | only an exact encoding name is accepted; any other string fails |
| TracingBuilder.EnumNamesRoundTrip | src/main/java/brave/kafka/interceptor/TracingBuilder.java:101-103 | `valueOf(name())` gives every sender type and encoding back |
| TracingBuilder.EncodingOf | src/main/java/brave/kafka/interceptor/TracingBuilder.java:134-145 | the configured encoding name is parsed; with none configured the encoding is JSON |
| TracingBuilder.HttpEndpoint | src/main/java/brave/kafka/interceptor/TracingBuilder.java:106-116 | the configured endpoint, else `http://localhost:9411/api/v2/spans` |
| TracingBuilder.BootstrapPrecedence | src/main/java/brave/kafka/interceptor/TracingBuilder.java:118-127 | the address is `zipkin.kafka.bootstrap.servers` as a String, else `bootstrap.servers` as a String, else `bootstrap.servers` as a comma-joined list, else null |
| TracingBuilder.BootstrapExamples | src/test/java/brave/kafka/interceptor/TracingBuilderTest.java:123-158 | the three Kafka sender configurations of the tests give the addresses they set |
| TracingBuilder.SenderBuilder.Build | src/main/java/brave/kafka/interceptor/TracingBuilder.java:87-131 | the encoding is resolved first, and its failure aborts; then NONE gives no sender, HTTP an HTTP sender, and KAFKA a Kafka sender with the resolved address; it fails exactly when the encoding fails or KAFKA has no address |
| TracingBuilder.KafkaSenderOf | src/main/java/brave/kafka/interceptor/TracingBuilder.java:129-131 | the Kafka sender is made exactly when an address was found, and carries that address and the encoding; with none, `bootstrapServers(null)` throws |
| TracingBuilder.NewSenderBuilder | src/main/java/brave/kafka/interceptor/TracingBuilder.java:80-85 | the sender type defaults to NONE; construction fails exactly when a configured name is not a constant name |
| TracingBuilder.BadEncodingFailsEvenWithoutSender | src/main/java/brave/kafka/interceptor/TracingBuilder.java:87-95 | an unknown encoding fails the sender build even when the sender type is NONE |
| TracingBuilder.DefaultHasNoSender | src/test/java/brave/kafka/interceptor/TracingBuilderTest.java:91-110 | with no sender type and no encoding configured, there is no sender |
| TracingBuilder.ValidatedRate | src/main/java/brave/kafka/interceptor/TracingBuilder.java:156-162 | a rate in (0, 1] is kept unchanged; anything else, including NaN and the infinities, becomes 0.0 |
| TracingBuilder.SamplerRate | src/main/java/brave/kafka/interceptor/TracingBuilder.java:152-163 | the configured text, default "1.0F", is parsed; an unparseable text throws; a parsed rate is validated, so it lies in [0, 1] |
| TracingBuilder.CreateSampler | src/main/java/brave/kafka/interceptor/TracingBuilder.java:165-167 | `Sampler.create` accepts exactly 0 and the rates in [0.01, 1], keeping the rate; any other rate throws |
| TracingBuilder.CreateSamplerAfterValidation | src/main/java/brave/kafka/interceptor/TracingBuilder.java:152-167 | after validation, `Sampler.create` throws exactly for a parsed rate in (0, 0.01); the fallback 0 and the default 1 are accepted |
| TracingBuilder.DefaultSamplerRate | src/test/java/brave/kafka/interceptor/TracingBuilderTest.java:58-67 | with no rate configured, the rate is 1.0 |
| TracingBuilder.ParseBoolean | src/main/java/brave/kafka/interceptor/TracingBuilder.java:59 | true exactly for "true" in any mix of letter cases |
| TracingBuilder.ParseBooleanExamples | src/main/java/brave/kafka/interceptor/TracingBuilder.java:59 | "true", "TRUE" and "True" parse as true; "false", "", "yes" and "true " do not |
| TracingBuilder.Builder.Build | src/main/java/brave/kafka/interceptor/TracingBuilder.java:62-74 | build fails exactly when the sender type, the sender, the rate or `Sampler.create` fails, as far as the model states those (see "## Left out"); a reporter is made exactly when there is a sender, and wraps it; the rate is one `Sampler.create` accepts; the rate and names come from the configuration |
| TracingBuilder.LibraryRejections | src/main/java/brave/kafka/interceptor/TracingBuilder.java:62-74 | a KAFKA sender type with no address anywhere, and the rate "0.005", each make `build` throw |
| TracingBuilder.NewBuilder | src/main/java/brave/kafka/interceptor/TracingBuilder.java:53-60 | the local service name defaults to "kafka-client"; the 128-bit flag is `parseBoolean` of a value that defaults to "true" |
| TracingBuilder.EmptyConfigurationDefaults | src/main/java/brave/kafka/interceptor/TracingBuilder.java:53-74 | an empty configuration builds a tracer with no Zipkin reporter, which keeps every trace, has local name "kafka-client" and uses 128-bit ids |
| LegacyTracingBuilder.LegacyEncodingOf | src/main/java/no/sysco/middleware/kafka/interceptor/zipkin/TracingBuilder.java:144-162 | the older encoding choice equals the current one |
| LegacyTracingBuilder.LegacyHttpEndpoint | src/main/java/no/sysco/middleware/kafka/interceptor/zipkin/TracingBuilder.java:102-120 | the older endpoint choice equals the current one |
| LegacyTracingBuilder.KafkaBootstrapServersAsWritten | src/main/java/no/sysco/middleware/kafka/interceptor/zipkin/TracingBuilder.java:128-135 | the eager lookup throws exactly when `bootstrap.servers` is present and is not a list |
| LegacyTracingBuilder.ScalarBootstrapServersThrows | src/main/java/no/sysco/middleware/kafka/interceptor/zipkin/TracingBuilder.java:128-135 | a KAFKA configuration with a String `bootstrap.servers` throws, even with `zipkin.kafka.bootstrap.servers` also set |
| LegacyTracingBuilder.CorrectedBootstrapPrecedence | src/main/java/no/sysco/middleware/kafka/interceptor/zipkin/TracingBuilder.java:128-135 | the corrected lookup follows the current version's precedence, and agrees with the code as written wherever that does not throw |
| LegacyTracingBuilder.CorrectedScalarBootstrapServers | src/main/java/no/sysco/middleware/kafka/interceptor/zipkin/TracingBuilder.java:128-135 | where the code as written throws, the corrected lookup answers the String setting |
| LegacyTracingBuilder.LegacySenderBuilder.Build | src/main/java/no/sysco/middleware/kafka/interceptor/zipkin/TracingBuilder.java:80-139 | the older sender build as written: an encoding failure aborts; for KAFKA with a valid encoding and a non-list `bootstrap.servers` it throws the cast error; in every other case it equals the corrected build |
| LegacyTracingBuilder.LegacySenderBuilder.CorrectedBuild | src/main/java/no/sysco/middleware/kafka/interceptor/zipkin/TracingBuilder.java:80-139 | with the corrected address lookup, the older sender build equals the current one |
| LegacyTracingBuilder.NewLegacySenderBuilder | src/main/java/no/sysco/middleware/kafka/interceptor/zipkin/TracingBuilder.java:73-78 | it fails exactly when the current constructor fails, with the same error, and otherwise picks the same sender type |
| LegacyTracingBuilder.LegacySamplerRate | src/main/java/no/sysco/middleware/kafka/interceptor/zipkin/TracingBuilder.java:174-185 | the older rate validation equals the current one |
| LegacyTracingBuilder.LegacyBuilder.Build | src/main/java/no/sysco/middleware/kafka/interceptor/zipkin/TracingBuilder.java:51-61 | the older build as written: a sender-type failure and a sender-build failure, including the cast error, abort it; a tracer built keeps the builder's names and flag |
| LegacyTracingBuilder.LegacyBuilder.CorrectedBuild | src/main/java/no/sysco/middleware/kafka/interceptor/zipkin/TracingBuilder.java:51-61 | with the corrected address lookup, the older build equals the current build of the same configuration |
| LegacyTracingBuilder.NewLegacyBuilder | src/main/java/no/sysco/middleware/kafka/interceptor/zipkin/TracingBuilder.java:40-49 | it reads the same local name and 128-bit flag as the current builder, and also the remote service name, which defaults to "kafka" |
| LegacyTracingBuilder.BothVersionsBuildAlike | src/main/java/no/sysco/middleware/kafka/interceptor/zipkin/TracingBuilder.java:40-61 | with the corrected lookup, both versions build the same tracer from the same map |
| LegacyTracingBuilder.AsWrittenBuildsAlikeUnlessCastFails | src/main/java/no/sysco/middleware/kafka/interceptor/zipkin/TracingBuilder.java:40-139 | the older build as written equals the current build exactly when the configuration is not a KAFKA one with a valid encoding and a non-list `bootstrap.servers`; on those it throws `ClassCastException` |
| LegacyTracingBuilder.ScalarBootstrapServersBuild | src/main/java/no/sysco/middleware/kafka/interceptor/zipkin/TracingBuilder.java:128-139 | for KAFKA with the String `bootstrap.servers` "localhost:9092", the older build as written throws, and the corrected build gives a Kafka sender at that address |
| Brave.View | src/main/java/brave/kafka/interceptor/KafkaInterceptorPropagation.java:34-38 | the extractor sees the getter's answer for each key the format owns |
| Brave.WithoutAll | src/main/java/brave/kafka/interceptor/TracingProducerInterceptor.java:49 | after removing every propagation key, the headers are exactly the original headers under other keys |
| Brave.LookupPutAll | src/main/java/brave/kafka/interceptor/KafkaInterceptorPropagation.java:29-38 | after injecting, the getter reads the last pair written under a key, and otherwise what was there before |
| Brave.LookupWithoutAllRemoved | src/main/java/brave/kafka/interceptor/TracingProducerInterceptor.java:49 | after the removal loop, no removed key can be found |
| Brave.LookupWithoutAllKept | src/main/java/brave/kafka/interceptor/TracingProducerInterceptor.java:49 | the removal loop leaves what the getter answers for every other key |
| Brave.InjectIntoClean | src/main/java/brave/kafka/interceptor/TracingConsumerInterceptor.java:82-84 | injecting into headers that hold none of the keys makes the extractor see exactly the injected pairs |
| Brave.ReplaceThenView | src/main/java/brave/kafka/interceptor/TracingProducerInterceptor.java:49-50 | removing the keys and then injecting makes the extractor see exactly the injected pairs |
| Brave.CleanHeadersExtractFlags | src/main/java/brave/kafka/interceptor/TracingConsumerInterceptor.java:59-65 | headers that hold no propagation key extract as empty sampling flags, the shareable case |
| Brave.InjectExtractRoundTrip | src/main/java/brave/kafka/interceptor/TracingProducerInterceptor.java:47-50 | what the producer writes is read back by the next extract as that very context, with no extra fields |
| Brave.InjectCleanExtractRoundTrip | src/test/java/brave/kafka/interceptor/TracingProducerInterceptorTest.java:43-55 | injecting a context into fresh headers round-trips through the extractor |
| Brave.PutAllKeepsForeignKeys | src/main/java/brave/kafka/interceptor/KafkaInterceptorPropagation.java:29-32 | an injector that writes only its own keys leaves every other lookup unchanged |
| Brave.ReplaceKeepsForeignKeys | src/main/java/brave/kafka/interceptor/TracingProducerInterceptor.java:49-50 | replacing the propagation headers leaves every header under another key readable as before |
| Brave.NewSpan | src/main/java/brave/kafka/interceptor/TracingProducerInterceptor.java:48 | `nextSpan` takes a fresh id; a child of an extracted context, in its trace; a new trace from bare flags; an upstream sampling decision is kept; no-op exactly when tracing is no-op or the span is unsampled |
| Brave.SamplerOf | src/main/java/brave/kafka/interceptor/TracingBuilder.java:166 | for a rate `Sampler.create` accepts: rate 0 never samples, and rate 1 always samples |
| Brave.StartEvents | src/main/java/brave/kafka/interceptor/TracingConsumerInterceptor.java:80 | `start` records nothing exactly for a no-op span |
| Brave.FinishEvents | src/main/java/brave/kafka/interceptor/TracingConsumerInterceptor.java:107 | `finish` records nothing exactly for a no-op span |
| Brave.Tracing.NextSpan | src/main/java/brave/kafka/interceptor/TracingProducerInterceptor.java:48 | the span is `NewSpan` with the current id; the id advances by one and nothing is logged |
| Brave.Tracing.Start | src/main/java/brave/kafka/interceptor/TracingProducerInterceptor.java:59 | the log grows by what `start` records |
| Brave.Tracing.Finish | src/main/java/brave/kafka/interceptor/TracingProducerInterceptor.java:61 | the log grows by what `finish` records |
| Brave.Extract | src/main/java/brave/kafka/interceptor/TracingProducerInterceptor.java:47 | the extractor reads its own keys through the getter |
| Brave.Inject | src/main/java/brave/kafka/interceptor/TracingProducerInterceptor.java:50 | the injector calls the setter once per pair, in order |
| Brave.RemoveKeys | src/main/java/brave/kafka/interceptor/TracingProducerInterceptor.java:49 | the `forEach` removal leaves the headers without every propagation key |
| Producer.SendTags | src/main/java/brave/kafka/interceptor/TracingProducerInterceptor.java:52-57 | the key tag is present exactly when the record key is a non-empty String, and then comes first; the topic and client-id tags always follow |
| Producer.Send | src/main/java/brave/kafka/interceptor/TracingProducerInterceptor.java:46-64 | one span, continuing the extracted context; the propagation keys are removed and the span injected, always; a real span is started with name, kind, remote name and tags, then finished; a no-op span records nothing |
| Producer.SentRecordCarriesSpan | src/main/java/brave/kafka/interceptor/TracingProducerInterceptor.java:49-50 | the sent record carries the `on_send` span's context and nothing else in its propagation headers |
| Producer.SendKeepsForeignHeaders | src/main/java/brave/kafka/interceptor/TracingProducerInterceptor.java:49-50 | every header under a key the format does not own reads as before |
| Producer.SendContinuesTrace | src/main/java/brave/kafka/interceptor/TracingProducerInterceptor.java:47-48 | when the headers carry a context, the span is its child in the same trace, with a fresh id |
| Producer.ChildSpanIfContextAvailable | src/test/java/brave/kafka/interceptor/TracingProducerInterceptorTest.java:43-56 | a context injected into a fresh record makes `onSend` report exactly one finished span, whose parent is that context |
| Producer.TracingProducerInterceptor.Configure | src/main/java/brave/kafka/interceptor/TracingProducerInterceptor.java:74-81 | configuration and remote service name (default "kafka") are set first; then either the build fails, leaving the tracer and propagation as they were, or a fresh tracer is set and the interceptor is configured |
| Producer.TracingProducerInterceptor.OnSend | src/main/java/brave/kafka/interceptor/TracingProducerInterceptor.java:46-64 | the same record is returned; its headers become `Send`'s headers, the tracer logs `Send`'s events, and one id is used |
| Consumer.ConsumerRecords.IsEmpty | src/main/java/brave/kafka/interceptor/TracingConsumerInterceptor.java:53 | a batch is empty exactly when it has no partition |
| Consumer.Snapshot | src/main/java/brave/kafka/interceptor/TracingConsumerInterceptor.java:57-60 | the store holds the current entries of every `Headers` object the batch reaches, and no others |
| Consumer.FindShared | src/main/java/brave/kafka/interceptor/TracingConsumerInterceptor.java:66 | the topic's span is missing exactly when no entry has the topic; a span found is the topic's entry |
| Consumer.Step | src/main/java/brave/kafka/interceptor/TracingConsumerInterceptor.java:59-103 | one record's visit rewrites only that record's headers |
| Consumer.RunRecords | src/main/java/brave/kafka/interceptor/TracingConsumerInterceptor.java:57-58 | the records of one partition are visited in order, and no `Headers` object is added or lost |
| Consumer.RunPartitions | src/main/java/brave/kafka/interceptor/TracingConsumerInterceptor.java:55-57 | the partitions are visited in order, and no `Headers` object is added or lost |
| Consumer.Consume | src/main/java/brave/kafka/interceptor/TracingConsumerInterceptor.java:52-111 | an empty batch, or a no-op tracer, changes nothing and records nothing |
| Consumer.StepKeepsTopicsDistinct | src/main/java/brave/kafka/interceptor/TracingConsumerInterceptor.java:66-68 | a visit never adds a second span for a topic |
| Consumer.RunRecordsKeepsTopicsDistinct | src/main/java/brave/kafka/interceptor/TracingConsumerInterceptor.java:58-104 | a partition never adds a second span for a topic |
| Consumer.RunPartitionsKeepsTopicsDistinct | src/main/java/brave/kafka/interceptor/TracingConsumerInterceptor.java:54-105 | a batch opens at most one shared `poll` span per topic |
| Consumer.FinishSharedCloses | src/main/java/brave/kafka/interceptor/TracingConsumerInterceptor.java:106-109 | finishing the shared spans starts nothing, and finishes exactly the spans that record something |
| Consumer.StepAccounted | src/main/java/brave/kafka/interceptor/TracingConsumerInterceptor.java:65-103 | after each visit, every span started is finished or is an open shared span |
| Consumer.RunRecordsAccounted | src/main/java/brave/kafka/interceptor/TracingConsumerInterceptor.java:58-104 | the same holds after each partition |
| Consumer.RunPartitionsAccounted | src/main/java/brave/kafka/interceptor/TracingConsumerInterceptor.java:55-105 | the same holds after all partitions |
| Consumer.ConsumeFinishesEverySpan | src/main/java/brave/kafka/interceptor/TracingConsumerInterceptor.java:54-109 | after `onConsume`, every span it started has been finished, each exactly once |
| Consumer.OwnSpanIsCarried | src/main/java/brave/kafka/interceptor/TracingConsumerInterceptor.java:85-102 | a record that gets its own span next extracts as that span's context, with no extra fields; one id is used and the topic map is unchanged |
| Consumer.SharedSpanIsCarried | src/main/java/brave/kafka/interceptor/TracingConsumerInterceptor.java:65-84 | a record without propagation headers next extracts as its topic's shared span, which the topic map then has |
| Consumer.FindSharedAppend | src/main/java/brave/kafka/interceptor/TracingConsumerInterceptor.java:66-68 | a span put for a topic that had none is the one found afterwards |
| Consumer.FirstVisitOpensPoll | src/main/java/brave/kafka/interceptor/TracingConsumerInterceptor.java:65-84 | a first sampled record without headers opens a root `poll` span with the next id, starts it, and carries it |
| Consumer.VisitWithContext | src/main/java/brave/kafka/interceptor/TracingConsumerInterceptor.java:85-102 | a record carrying a sampled context gets a child `on_consume` span, started, finished and carried |
| Consumer.TwoVisitsWithContext | src/main/java/brave/kafka/interceptor/TracingConsumerInterceptor.java:59-102 | a second visit of the same record sees the first visit's rewrite: a child, then a grandchild |
| Consumer.ThreeVisits | src/test/java/brave/kafka/interceptor/TracingConsumerInterceptorTest.java:49-64 | the record visited three times logs the `poll` start, then two `on_consume` spans, each a child of the span before it |
| Consumer.SameRecordThreeTimes | src/test/java/brave/kafka/interceptor/TracingConsumerInterceptorTest.java:49-67 | one record polled three times in one partition reports exactly three spans: the `poll` span, a child `on_consume` span and a grandchild, the `poll` span finished last |
| Consumer.ConsumeOnePartition | src/main/java/brave/kafka/interceptor/TracingConsumerInterceptor.java:55-109 | a batch of one partition is that partition's records, then the shared spans finished |
| Consumer.TracingConsumerInterceptor.Configure | src/main/java/brave/kafka/interceptor/TracingConsumerInterceptor.java:121-128 | as for the producer: configuration and remote name first; then either the build fails, or a fresh tracer is set and the interceptor is configured |
| Consumer.TracingConsumerInterceptor.OpenSharedSpan | src/main/java/brave/kafka/interceptor/TracingConsumerInterceptor.java:67-84 | takes the next id, starts the `poll` span with its tags, and injects it into the record |
| Consumer.TracingConsumerInterceptor.OwnSpan | src/main/java/brave/kafka/interceptor/TracingConsumerInterceptor.java:87-102 | takes the next id, starts and finishes a real span, removes the propagation keys, then injects |
| Consumer.TracingConsumerInterceptor.ConsumeRecord | src/main/java/brave/kafka/interceptor/TracingConsumerInterceptor.java:59-103 | one record's visit updates the headers, tracer and topic map as `Step` says |
| Consumer.TracingConsumerInterceptor.ConsumePartition | src/main/java/brave/kafka/interceptor/TracingConsumerInterceptor.java:56-104 | the record loop leaves every `Headers` object, the tracer and the topic map as `RunRecords` says |
| Consumer.TracingConsumerInterceptor.FinishAll | src/main/java/brave/kafka/interceptor/TracingConsumerInterceptor.java:106-109 | every shared span is finished, in the order the topics were first seen |
| Consumer.TracingConsumerInterceptor.OnConsume | src/main/java/brave/kafka/interceptor/TracingConsumerInterceptor.java:52-111 | the same batch is returned; every record's headers and the tracer end as `Consume` says |

## Left out

- Brave and Zipkin internals are not modelled: the B3 format and its keys, `Sampler.create`'s counting sampler, id generation, `Tracing.Builder`, `AsyncReporter`, `OkHttpSender` and `KafkaSender`. The propagation format, the sampler and `Float.valueOf` are parameters. The format's laws are the predicate `Brave.Lawful`, and the senders and reporter are descriptive values. Of the libraries' own checks, the model keeps `Sampler.create`'s rate range and `KafkaSender`'s rejection of a `null` address.
- Span ids come from `Tracing.nextId`, which counts up from 1. Brave draws random ids, so results that name ids stand for "a fresh id".
- Floating point is not modelled. `Float.valueOf` is a parameter that answers a number, NaN or an infinity, or nothing where it throws, and rates are compared as reals.
- Logging (`LOGGER.warn`, `LOGGER.debug`) is left out because it has no effect on behaviour.
- The names and timestamps a span carries beyond the recorded `SpanInfo` are not modelled.
- `close`, `onCommit` and `onAcknowledgement` are left out: they release resources or do nothing.
- Concurrency is left out. The tracer is shared across threads by the library, not by logic of this repository.
- The override prefix used in `TracingBuilderTest.java:166` is not part of this model, because the builder shown defines no prefix and no overrides.
- The legacy interceptor classes are not part of this model: only their tests are available. Their own tag-key constants are identical to `tag_keys.dfy`.
- Utf8.Decode: an ill-formed byte sequence decodes one replacement character per bad byte. Java's decoder replaces each maximal ill-formed subpart instead. The two agree on every sequence the setter writes, which is all the round-trip lemmas need.
- Consumer.SameRecordThreeTimes: the test's record has no headers at all. The lemma covers any record that holds none of the propagation keys, and assumes a sampler that always samples, as the test's tracer does.
- Propagation.HeaderGetter: a Kafka header may hold a `null` value, and the getter then throws `NullPointerException` when it decodes it. Header values are byte sequences in this model, so that case cannot arise. The interceptors' own setter never writes a `null` value.
- LegacyPropagation.HeaderGetter: the same `null` header value, and the same `NullPointerException`, are left out for the older getter.
- Consumer.ConsumeTags: when `group.id` or `client.id` is not configured, the tag value is `null`, and Brave's span tagging throws `NullPointerException` for a span that records. The model records the tag with the value `None` and goes on.
- Producer.SendTags: the same `null` `client.id` tag is recorded as `None` instead of throwing.
- TracingBuilder.Builder.Build: `OkHttpSender`'s rejection of an endpoint that is not an http or https URL is not modelled, so an HTTP sender is always made. The 0.01 bound of `Sampler.create` is compared as a real, not as the float `0.01f`.
- TracingBuilder.EmptyConfigurationDefaults: without a sender, Brave's `Tracing.Builder` uses its own default reporter, which logs spans. The model records only that no Zipkin reporter was attached.
- `Boolean.parseBoolean` is modelled with ASCII case folding only; no other letter folds to one of "true", so the result is the same.

## Findings

| source | as written | input that shows it | evidently intended | confidence | as-written member | corrected member |
|---|---|---|---|---|---|---|
| src/main/java/no/sysco/middleware/kafka/interceptor/zipkin/TracingBuilder.java:128-135 | the list lookup for `bootstrap.servers` is a Java argument, so it always runs; the older `getStringList` casts any present value to a list, so a String `bootstrap.servers` throws `ClassCastException` and `build()` fails | `{zipkin.sender.type: "KAFKA", bootstrap.servers: "localhost:9092"}` | the fallbacks consulted only when the setting before them is absent, as the current version's lookup (src/main/java/brave/kafka/interceptor/TracingBuilder.java:122-127, whose `getStringList` returns null instead of throwing) behaves: the address is "localhost:9092". The older package's `TracingBuilderTest.java:148-159` expects this too, but that test comes from another revision: it imports constants the older `TracingConfiguration` does not define, and checks another `KafkaSender` class | not executed | LegacyTracingBuilder.KafkaBootstrapServersAsWritten, LegacyTracingBuilder.ScalarBootstrapServersThrows, LegacyTracingBuilder.LegacySenderBuilder.Build, LegacyTracingBuilder.LegacyBuilder.Build, LegacyTracingBuilder.AsWrittenBuildsAlikeUnlessCastFails | LegacyTracingBuilder.LegacyKafkaBootstrapServers, LegacyTracingBuilder.CorrectedBootstrapPrecedence, LegacyTracingBuilder.CorrectedScalarBootstrapServers, LegacyTracingBuilder.LegacySenderBuilder.CorrectedBuild, LegacyTracingBuilder.LegacyBuilder.CorrectedBuild, LegacyTracingBuilder.ScalarBootstrapServersBuild |
