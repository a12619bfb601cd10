/**
 * `brave.kafka.interceptor.TracingProducerInterceptor`: on every record sent,
 * continue the trace its headers carry (or start one), replace the
 * propagation headers with the new span's context, and record an `on_send`
 * span.
 */
module Producer {
  import opened Wrappers
  import opened KafkaHeaders
  import opened Configuration
  import TB = TracingBuilder
  import opened Brave
  import Tags = KafkaInterceptorTagKey
  import P = Propagation

  const SpanName := "on_send"

  /** A record key or value: a `String`, another object, or `null`. */
  datatype Payload = StringPayload(s: string) | OtherPayload | NullPayload

  /** `ProducerRecord`: only its headers change once it exists. */
  class ProducerRecord {
    const topic: string
    const key: Payload
    const value: Payload
    const headers: Headers

    constructor (topic: string, key: Payload, value: Payload, headers: Headers)
      ensures this.topic == topic && this.key == key && this.value == value && this.headers == headers
    {
      this.topic := topic;
      this.key := key;
      this.value := value;
      this.headers := headers;
    }
  }

  /** The tags of an `on_send` span: the key when it is a non-empty string, then topic and client id. */
  function SendTags(key: Payload, topic: string, clientId: Option<string>): (tags: seq<Tag>)
    ensures |tags| >= 2
    ensures tags[|tags| - 2..] == [Tag(Tags.KafkaTopic, Some(topic)), Tag(Tags.KafkaClientId, clientId)]
    ensures (exists i :: 0 <= i < |tags| && tags[i].key == Tags.KafkaKey) <==> key.StringPayload? && key.s != ""
    ensures key.StringPayload? && key.s != "" ==> tags[0] == Tag(Tags.KafkaKey, Some(key.s))
  {
    var keyTag := if key.StringPayload? && key.s != "" then [Tag(Tags.KafkaKey, Some(key.s))] else [];
    var tags := keyTag + [Tag(Tags.KafkaTopic, Some(topic)), Tag(Tags.KafkaClientId, clientId)];
    assert |Tags.KafkaTopic| != |Tags.KafkaKey| && |Tags.KafkaClientId| != |Tags.KafkaKey|;
    assert forall i :: |keyTag| <= i < |tags| ==> tags[i].key != Tags.KafkaKey;
    assert key.StringPayload? && key.s != "" ==> tags[0].key == Tags.KafkaKey;
    tags
  }

  /**
   * What one `onSend` depends on besides the record: the propagation its
   * extractor and injector came from, the keys `tracing.propagation()` owns,
   * the tracer's noop switch and sampler, and the configured names.
   */
  datatype SendEnv = SendEnv(
    propagation: TracePropagation,
    keys: seq<string>,
    noop: bool,
    sampler: nat -> bool,
    remoteServiceName: string,
    clientId: Option<string>)

  /** What one `onSend` produces: the new headers, the span, and what the span records. */
  datatype SendResult = SendResult(headers: seq<Header>, span: Span, events: seq<SpanEvent>)

  /** `onSend` on a record with headers `entries`, when the tracer's next id is `id`. */
  function Send(env: SendEnv, key: Payload, topic: string, entries: seq<Header>, id: nat): (r: SendResult)
    ensures r.span == NewSpan(env.propagation.extract(View(env.propagation.keys, entries)), id, env.noop, env.sampler)
    ensures r.headers == PutAll(WithoutAll(entries, env.keys), env.propagation.inject(r.span.context))
    ensures r.span.noop <==> r.events == []
    ensures !r.span.noop ==>
              r.events == [Started(r.span.context, SpanInfo(SpanName, PRODUCER, env.remoteServiceName,
                                                              SendTags(key, topic, env.clientId))),
                           Finished(r.span.context)]
  {
    var extracted := env.propagation.extract(View(env.propagation.keys, entries));
    var span := NewSpan(extracted, id, env.noop, env.sampler);
    var headers := PutAll(WithoutAll(entries, env.keys), env.propagation.inject(span.context));
    var info := SpanInfo(SpanName, PRODUCER, env.remoteServiceName, SendTags(key, topic, env.clientId));
    SendResult(headers, span, if span.noop then [] else [Started(span.context, info), Finished(span.context)])
  }

  /** A sent record carries the `on_send` span's context, and nothing else, in its propagation headers. */
  lemma SentRecordCarriesSpan(env: SendEnv, key: Payload, topic: string, entries: seq<Header>, id: nat)
    requires Lawful(env.propagation) && env.keys == env.propagation.keys
    ensures var r := Send(env, key, topic, entries, id);
      env.propagation.extract(View(env.keys, r.headers)) == Extracted(Context(r.span.context), [])
  {
    var r := Send(env, key, topic, entries, id);
    InjectExtractRoundTrip(env.propagation, entries, r.span.context);
  }

  /** `onSend` leaves every header under a key the propagation does not own readable as before. */
  lemma SendKeepsForeignHeaders(env: SendEnv, key: Payload, topic: string, entries: seq<Header>, id: nat, other: string)
    requires Lawful(env.propagation) && env.keys == env.propagation.keys
    requires other !in env.keys
    ensures P.Lookup(Send(env, key, topic, entries, id).headers, other) == P.Lookup(entries, other)
  {
    ReplaceKeepsForeignKeys(env.propagation, entries, Send(env, key, topic, entries, id).span.context, other);
  }

  /** When the headers carry a context, the `on_send` span is its child, in the same trace. */
  lemma SendContinuesTrace(env: SendEnv, key: Payload, topic: string, entries: seq<Header>, id: nat, c: TraceContext)
    requires env.propagation.extract(View(env.propagation.keys, entries)).kind == Context(c)
    ensures var s := Send(env, key, topic, entries, id).span;
      s.context.traceId == c.traceId && s.context.parentId == Some(c.spanId) && s.context.spanId == id
  {
  }

  /**
   * The case `shouldCreateChildSpanIfContextAvailable` checks: a context
   * injected into a fresh record makes `onSend` report exactly one span, whose
   * parent is that context.
   */
  lemma ChildSpanIfContextAvailable(env: SendEnv, key: Payload, topic: string, id: nat, c: TraceContext)
    requires Lawful(env.propagation) && env.keys == env.propagation.keys
    requires !env.noop && c.sampled == Some(true)
    ensures var r := Send(env, key, topic, PutAll([], env.propagation.inject(c)), id);
      && |r.events| == 2 && r.events[1].Finished?
      && r.events[1].context.parentId == Some(c.spanId)
      && r.events[1].context.traceId == c.traceId
  {
    InjectCleanExtractRoundTrip(env.propagation, [], c);
  }

  /** `TracingProducerInterceptor`: its fields are `null` (`None`) until `configure`. */
  class TracingProducerInterceptor {
    var configuration: Option<TracingConfiguration>
    var remoteServiceName: Option<string>
    var tracing: Tracing?
    /** The propagation whose injector and extractor `configure` kept. */
    var propagation: Option<TracePropagation>

    constructor ()
      ensures configuration.None? && remoteServiceName.None? && tracing == null && propagation.None?
    {
      configuration := None;
      remoteServiceName := None;
      tracing := null;
      propagation := None;
    }

    predicate Configured()
      reads this
    {
      configuration.Some? && remoteServiceName.Some? && tracing != null && propagation.Some?
    }

    /** The inputs of `Send` as the interceptor's fields give them. */
    function Env(): SendEnv
      requires Configured()
      reads this
    {
      SendEnv(propagation.value, tracing.propagation.keys, tracing.noop, tracing.sampler,
              remoteServiceName.value, configuration.value.GetString(ClientIdConfig))
    }

    /**
     * `configure`: keeps the configuration and remote service name, then builds
     * the tracer; `valueOf` reads floats, `counting` is the counting sampler and
     * `propagation` the format `Tracing` is built with. When `build` throws, the
     * fields assigned before it keep their new values and the rest their old.
     */
    method Configure(configs: map<string, ConfigValue>, valueOf: string -> Option<TB.FloatValue>,
                     counting: nat -> bool, propagation: TracePropagation)
      returns (outcome: Outcome<TB.BuildError>)
      modifies this
      ensures configuration == Some(TracingConfiguration(configs))
      ensures remoteServiceName == Some(TracingConfiguration(configs).GetStringOrDefault(
                                          RemoteServiceNameConfig, Some(RemoteServiceNameDefault)).value)
      ensures var built := TB.NewBuilder(TracingConfiguration(configs)).Build(valueOf);
        && (built.Failure? ==> outcome == Fail(built.error) && tracing == old(tracing)
                               && this.propagation == old(this.propagation))
        && (built.Success? ==> && outcome == Pass && Configured() && fresh(tracing)
                               && tracing.settings == built.value && tracing.propagation == propagation
                               && !tracing.noop && tracing.nextId == 1 && tracing.log == []
                               && this.propagation == Some(propagation))
    {
      var c := TracingConfiguration(configs);
      configuration := Some(c);
      remoteServiceName := Some(c.GetStringOrDefault(RemoteServiceNameConfig, Some(RemoteServiceNameDefault)).value);
      match TB.NewBuilder(c).Build(valueOf)
      case Failure(err) =>
        outcome := Fail(err);
      case Success(settings) =>
        tracing := new Tracing(settings, propagation, false, counting);
        this.propagation := Some(propagation);
        outcome := Pass;
    }

    /** `onSend`: returns the record itself, with its propagation headers replaced. */
    method OnSend(record: ProducerRecord) returns (r: ProducerRecord)
      requires Configured()
      modifies record.headers, tracing
      ensures r == record
      ensures var res := old(Send(Env(), record.key, record.topic, record.headers.entries, tracing.nextId));
        && record.headers.entries == res.headers
        && tracing.log == old(tracing.log) + res.events
        && tracing.nextId == old(tracing.nextId) + 1
    {
      ghost var res := Send(Env(), record.key, record.topic, record.headers.entries, tracing.nextId);
      var extractor := propagation.value;
      var extracted := Extract(extractor, record.headers);
      var span := tracing.NextSpan(extracted);
      assert span == res.span;
      RemoveKeys(tracing.propagation.keys, record.headers);
      Inject(extractor, span.context, record.headers);
      assert record.headers.entries == res.headers;
      if !span.noop {
        var tags := SendTags(record.key, record.topic, configuration.value.GetString(ClientIdConfig));
        tracing.Start(span, SpanInfo(SpanName, PRODUCER, remoteServiceName.value, tags));
      }
      tracing.Finish(span);
      r := record;
    }
  }
}
