/**
 * `brave.kafka.interceptor.TracingBuilder`: the policy that turns the
 * configuration into a tracing pipeline. The pipeline is described by values
 * (`Sender`, `Tracing`) instead of the Zipkin objects; a thrown exception is a
 * `Failure`.
 */
module TracingBuilder {
  import opened Wrappers
  import opened Configuration

  /** The exceptions construction can throw. */
  datatype BuildError =
    | NoEnumConstant(enumName: string, name: string)  // `valueOf` of an unknown name
    | NumberFormatException(text: string)             // `Float.valueOf` of a non-number
    | NullBootstrapServers                            // `KafkaSender.Builder.bootstrapServers(null)`
    | IllegalSamplerRate(rate: real)                  // `Sampler.create` of a rate it does not accept

  /** `SenderBuilder.SenderType`. */
  datatype SenderType = NONE | HTTP | KAFKA

  function SenderTypeName(t: SenderType): string {
    match t
    case NONE => "NONE"
    case HTTP => "HTTP"
    case KAFKA => "KAFKA"
  }

  /** `SenderType.valueOf`: only an exact constant name is accepted. */
  function SenderTypeValueOf(name: string): (r: Result<SenderType, BuildError>)
    ensures r.Success? ==> SenderTypeName(r.value) == name
    ensures r.Failure? <==> forall t :: SenderTypeName(t) != name
    ensures r.Failure? ==> r.error == NoEnumConstant("SenderType", name)
  {
    if name == "NONE" then Success(NONE)
    else if name == "HTTP" then Success(HTTP)
    else if name == "KAFKA" then Success(KAFKA)
    else Failure(NoEnumConstant("SenderType", name))
  }

  /** zipkin2's `Encoding`. */
  datatype Encoding = JSON | THRIFT | PROTO3

  function EncodingName(e: Encoding): string {
    match e
    case JSON => "JSON"
    case THRIFT => "THRIFT"
    case PROTO3 => "PROTO3"
  }

  /** `Encoding.valueOf`: only an exact constant name is accepted. */
  function EncodingValueOf(name: string): (r: Result<Encoding, BuildError>)
    ensures r.Success? ==> EncodingName(r.value) == name
    ensures r.Failure? <==> forall e :: EncodingName(e) != name
    ensures r.Failure? ==> r.error == NoEnumConstant("Encoding", name)
  {
    if name == "JSON" then Success(JSON)
    else if name == "THRIFT" then Success(THRIFT)
    else if name == "PROTO3" then Success(PROTO3)
    else Failure(NoEnumConstant("Encoding", name))
  }

  /** `valueOf(name())` gives every constant back. */
  lemma EnumNamesRoundTrip(t: SenderType, e: Encoding)
    ensures SenderTypeValueOf(SenderTypeName(t)) == Success(t)
    ensures EncodingValueOf(EncodingName(e)) == Success(e)
  {
  }

  /** A span transport, as described to zipkin-reporter. */
  datatype Sender =
    | HttpSender(endpoint: string, encoding: Encoding)                  // `OkHttpSender`
    | KafkaSender(bootstrapServers: string, encoding: Encoding)          // `KafkaSender`

  /** `EncodingBuilder`: the configured encoding, `JSON` by default. */
  function EncodingOf(c: TracingConfiguration): (r: Result<Encoding, BuildError>)
    ensures c.GetString(EncodingConfig).None? ==> r == Success(JSON)
    ensures c.GetString(EncodingConfig).Some? ==> r == EncodingValueOf(c.GetString(EncodingConfig).value)
  {
    EncodingValueOf(c.GetStringOrDefault(EncodingConfig, Some(EncodingDefault)).value)
  }

  /** `HttpSenderBuilder`: the configured endpoint, else the local collector. */
  function HttpEndpoint(c: TracingConfiguration): (r: string)
    ensures c.GetString(HttpEndpointConfig).None? ==> r == "http://localhost:9411/api/v2/spans"
    ensures c.GetString(HttpEndpointConfig).Some? ==> r == c.GetString(HttpEndpointConfig).value
  {
    c.GetStringOrDefault(HttpEndpointConfig, Some(HttpEndpointDefault)).value
  }

  /**
   * `KafkaSenderBuilder`: the bootstrap address. The innermost lookup is a Java
   * argument and so is always evaluated; it cannot fail in this version.
   */
  function KafkaBootstrapServers(c: TracingConfiguration): (r: Option<string>)
  {
    c.GetStringOrDefault(KafkaBootstrapServersConfig,
      c.GetStringOrDefault(BootstrapServersConfig, c.GetStringList(BootstrapServersConfig)))
  }

  /**
   * The bootstrap address follows a fixed precedence: the sink's own setting,
   * then the client's `bootstrap.servers` as a string, then as a joined list.
   */
  lemma BootstrapPrecedence(c: TracingConfiguration)
    ensures var cs := c.configs;
      KafkaBootstrapServers(c) ==
        if KafkaBootstrapServersConfig in cs && cs[KafkaBootstrapServersConfig].Str? then
          Some(cs[KafkaBootstrapServersConfig].s)
        else if BootstrapServersConfig in cs && cs[BootstrapServersConfig].Str? then
          Some(cs[BootstrapServersConfig].s)
        else if BootstrapServersConfig in cs && cs[BootstrapServersConfig].List? then
          Some(Join(cs[BootstrapServersConfig].xs))
        else
          None
  {
  }

  /**
   * `KafkaSender.newBuilder().bootstrapServers(servers)...build()`: zipkin-reporter
   * throws `NullPointerException` when no address was found.
   */
  function KafkaSenderOf(servers: Option<string>, encoding: Encoding): (r: Result<Sender, BuildError>)
    ensures r.Failure? <==> servers.None?
    ensures r.Failure? ==> r.error == NullBootstrapServers
    ensures r.Success? ==> r.value.KafkaSender? && r.value.bootstrapServers == servers.value && r.value.encoding == encoding
  {
    match servers
    case None => Failure(NullBootstrapServers)
    case Some(s) => Success(KafkaSender(s, encoding))
  }

  /** The cases `TracingBuilderTest` checks for the Kafka sender's address. */
  lemma BootstrapExamples()
    ensures KafkaBootstrapServers(TracingConfiguration(map[
      SenderTypeConfig := Str("KAFKA"), KafkaBootstrapServersConfig := Str("localhost:9092")]))
      == Some("localhost:9092")
    ensures KafkaBootstrapServers(TracingConfiguration(map[
      SenderTypeConfig := Str("KAFKA"), BootstrapServersConfig := Str("localhost:9092")]))
      == Some("localhost:9092")
    ensures KafkaBootstrapServers(TracingConfiguration(map[
      SenderTypeConfig := Str("KAFKA"), BootstrapServersConfig := List(["localhost:9092", "localhost:9094"])]))
      == Some("localhost:9092,localhost:9094")
  {
    var xs := ["localhost:9092", "localhost:9094"];
    assert xs[1..] == ["localhost:9094"];
    assert Join(xs) == "localhost:9092" + "," + "localhost:9094" == "localhost:9092,localhost:9094";
    var c := TracingConfiguration(map[SenderTypeConfig := Str("KAFKA"), BootstrapServersConfig := List(xs)]);
    BootstrapPrecedence(c);
  }

  /** `SenderBuilder`: the sender type is parsed when the builder is made. */
  datatype SenderBuilder = SenderBuilder(senderType: SenderType, configuration: TracingConfiguration) {

    /**
     * `SenderBuilder.build`: resolves the encoding first, then picks the sender;
     * `NONE` gives no sender (`null`), and a Kafka sender needs an address.
     */
    function Build(): (r: Result<Option<Sender>, BuildError>)
      ensures EncodingOf(configuration).Failure? ==> r == Failure(EncodingOf(configuration).error)
      ensures r.Failure? <==>
        || EncodingOf(configuration).Failure?
        || (senderType == KAFKA && KafkaBootstrapServers(configuration).None?)
      ensures r.Success? ==> (r.value.None? <==> senderType == NONE)
      ensures r.Success? && senderType == HTTP ==>
        r.value == Some(HttpSender(HttpEndpoint(configuration), EncodingOf(configuration).value))
      ensures r.Success? && senderType == KAFKA ==>
        r.value == Some(KafkaSender(KafkaBootstrapServers(configuration).value, EncodingOf(configuration).value))
      ensures senderType == KAFKA && EncodingOf(configuration).Success? && KafkaBootstrapServers(configuration).None? ==>
        r == Failure(NullBootstrapServers)
    {
      match EncodingOf(configuration)
      case Failure(err) => Failure(err)
      case Success(encoding) =>
        match senderType
        case HTTP => Success(Some(HttpSender(HttpEndpoint(configuration), encoding)))
        case KAFKA =>
          (match KafkaSenderOf(KafkaBootstrapServers(configuration), encoding)
           case Failure(err) => Failure(err)
           case Success(sender) => Success(Some(sender)))
        case NONE => Success(None)
    }
  }

  /** The `SenderBuilder` constructor: fails on a sender type that is not a constant name. */
  function NewSenderBuilder(c: TracingConfiguration): (r: Result<SenderBuilder, BuildError>)
    ensures r.Success? ==> r.value.configuration == c
    ensures c.GetString(SenderTypeConfig).None? ==> r == Success(SenderBuilder(NONE, c))
    ensures r.Failure? <==> c.GetString(SenderTypeConfig).Some? &&
                            SenderTypeValueOf(c.GetString(SenderTypeConfig).value).Failure?
  {
    match SenderTypeValueOf(c.GetStringOrDefault(SenderTypeConfig, Some(SenderTypeDefault)).value)
    case Failure(err) => Failure(err)
    case Success(t) => Success(SenderBuilder(t, c))
  }

  /** An encoding that is not a constant name fails the sender build, even when no sender is wanted. */
  lemma BadEncodingFailsEvenWithoutSender(c: TracingConfiguration, name: string)
    requires c.GetString(EncodingConfig) == Some(name)
    requires forall e :: EncodingName(e) != name
    requires NewSenderBuilder(c).Success?
    ensures NewSenderBuilder(c).value.Build() == Failure(NoEnumConstant("Encoding", name))
  {
  }

  /** With neither the sender type nor the encoding configured there is no sender. */
  lemma DefaultHasNoSender(c: TracingConfiguration)
    requires c.GetString(SenderTypeConfig).None? && c.GetString(EncodingConfig).None?
    ensures NewSenderBuilder(c) == Success(SenderBuilder(NONE, c))
    ensures SenderBuilder(NONE, c).Build() == Success(None)
  {
  }

  /** What `Float.valueOf` returns: a float, which may be NaN or infinite. */
  datatype FloatValue = NaN | PositiveInfinity | NegativeInfinity | Finite(r: real)

  /** `rate > 1.0`, as Java compares a float: false for NaN. */
  predicate GreaterThanOne(f: FloatValue) {
    match f
    case Finite(r) => r > 1.0
    case PositiveInfinity => true
    case _ => false
  }

  /** `rate <= 0.0`, as Java compares a float: false for NaN. */
  predicate AtMostZero(f: FloatValue) {
    match f
    case Finite(r) => r <= 0.0
    case NegativeInfinity => true
    case _ => false
  }

  const SamplerRateFallback: real := 0.0

  /** The check in the `SamplerBuilder` constructor: an invalid rate becomes the fallback. */
  function ValidatedRate(f: FloatValue): (r: real)
    ensures 0.0 <= r <= 1.0
    ensures f.Finite? && 0.0 < f.r <= 1.0 ==> r == f.r
    ensures !(f.Finite? && 0.0 < f.r <= 1.0) ==> r == SamplerRateFallback
  {
    if GreaterThanOne(f) || AtMostZero(f) || f.NaN? then SamplerRateFallback else f.r
  }

  /**
   * `SamplerBuilder`: the configured rate text (default "1.0F") read by
   * `valueOf`, which stands for `Float.valueOf` and answers `None` where it throws.
   */
  function SamplerRate(c: TracingConfiguration, valueOf: string -> Option<FloatValue>): (r: Result<real, BuildError>)
    ensures var text := c.GetStringOrDefault(SamplerRateConfig, Some(SamplerRateDefault)).value;
      && (valueOf(text).None? ==> r == Failure(NumberFormatException(text)))
      && (valueOf(text).Some? ==> r == Success(ValidatedRate(valueOf(text).value)))
    ensures r.Success? ==> 0.0 <= r.value <= 1.0
  {
    var text := c.GetStringOrDefault(SamplerRateConfig, Some(SamplerRateDefault)).value;
    match valueOf(text)
    case None => Failure(NumberFormatException(text))
    case Some(f) => Success(ValidatedRate(f))
  }

  /** Without a configured rate, "1.0F" is read, which keeps every trace. */
  lemma DefaultSamplerRate(c: TracingConfiguration, valueOf: string -> Option<FloatValue>)
    requires c.GetString(SamplerRateConfig).None?
    requires valueOf(SamplerRateDefault) == Some(Finite(1.0))
    ensures SamplerRate(c, valueOf) == Success(1.0)
  {
  }

  /** The smallest rate other than 0 that Brave's counting sampler accepts. */
  const CountingSamplerMinimum: real := 0.01

  /**
   * `Sampler.create(rate)`: Brave rejects a rate outside [0, 1] and a positive
   * rate below 0.01 with `IllegalArgumentException`; the sampler itself is
   * described by its rate.
   */
  function CreateSampler(rate: real): (r: Result<real, BuildError>)
    ensures r.Success? <==> rate == 0.0 || CountingSamplerMinimum <= rate <= 1.0
    ensures r.Success? ==> r.value == rate
    ensures r.Failure? ==> r.error == IllegalSamplerRate(rate)
  {
    if rate == 0.0 || CountingSamplerMinimum <= rate <= 1.0 then Success(rate) else Failure(IllegalSamplerRate(rate))
  }

  /**
   * The validated rate is always in Brave's range, so `Sampler.create` fails
   * after validation exactly for a positive rate below 0.01; the fallback and
   * the default are accepted.
   */
  lemma CreateSamplerAfterValidation(f: FloatValue)
    ensures CreateSampler(ValidatedRate(f)).Failure? <==> f.Finite? && 0.0 < f.r < CountingSamplerMinimum
    ensures CreateSampler(SamplerRateFallback) == Success(SamplerRateFallback)
    ensures CreateSampler(1.0) == Success(1.0)
  {
  }

  function ToLowerAscii(ch: char): char {
    if 'A' <= ch <= 'Z' then (ch as int + 32) as char else ch
  }

  /** `Boolean.parseBoolean`: "true" in any mix of letter cases. */
  function ParseBoolean(s: string): (b: bool)
    ensures b <==> |s| == 4 && forall i :: 0 <= i < 4 ==> ToLowerAscii(s[i]) == "true"[i]
  {
    |s| == 4 && ToLowerAscii(s[0]) == 't' && ToLowerAscii(s[1]) == 'r'
      && ToLowerAscii(s[2]) == 'u' && ToLowerAscii(s[3]) == 'e'
  }

  lemma ParseBooleanExamples()
    ensures ParseBoolean("true") && ParseBoolean("TRUE") && ParseBoolean("True")
    ensures !ParseBoolean("false") && !ParseBoolean("") && !ParseBoolean("yes") && !ParseBoolean("true ")
  {
  }

  /** zipkin-reporter's `AsyncReporter` over a sender. */
  datatype Reporter = AsyncReporter(sender: Sender)

  /** What `build` assembles into Brave's `Tracing`. */
  datatype Tracing = Tracing(
    reporter: Option<Reporter>,
    samplerRate: real,
    localServiceName: string,
    traceId128Bit: bool)

  /** `TracingBuilder`: the fields its constructor computes once. */
  datatype Builder = Builder(configuration: TracingConfiguration, localServiceName: string, traceId128Bit: bool) {

    /**
     * `build`: the sender builder (sender type, then encoding, then sender),
     * then the sampler (rate, then `Sampler.create`); the first exception
     * aborts. A reporter is attached only when there is a sender.
     */
    function Build(valueOf: string -> Option<FloatValue>): (r: Result<Tracing, BuildError>)
      ensures NewSenderBuilder(configuration).Failure? ==> r == Failure(NewSenderBuilder(configuration).error)
      ensures r.Success? ==>
        && NewSenderBuilder(configuration).Success?
        && NewSenderBuilder(configuration).value.Build().Success?
        && var sender := NewSenderBuilder(configuration).value.Build().value;
        && (r.value.reporter.Some? <==> sender.Some?)
        && (sender.Some? ==> r.value.reporter.value.sender == sender.value)
        && SamplerRate(configuration, valueOf) == Success(r.value.samplerRate)
      ensures r.Success? ==> r.value.samplerRate == 0.0 || CountingSamplerMinimum <= r.value.samplerRate <= 1.0
      ensures r.Success? ==> r.value.localServiceName == localServiceName && r.value.traceId128Bit == traceId128Bit
      ensures r.Failure? <==>
        || NewSenderBuilder(configuration).Failure?
        || NewSenderBuilder(configuration).value.Build().Failure?
        || SamplerRate(configuration, valueOf).Failure?
        || CreateSampler(SamplerRate(configuration, valueOf).value).Failure?
    {
      match NewSenderBuilder(configuration)
      case Failure(err) => Failure(err)
      case Success(senderBuilder) =>
        match senderBuilder.Build()
        case Failure(err) => Failure(err)
        case Success(sender) =>
          var reporter := if sender.Some? then Some(AsyncReporter(sender.value)) else None;
          match SamplerRate(configuration, valueOf)
          case Failure(err) => Failure(err)
          case Success(rate) =>
            match CreateSampler(rate)
            case Failure(err) => Failure(err)
            case Success(sampler) => Success(Tracing(reporter, sampler, localServiceName, traceId128Bit))
    }
  }

  /** The `TracingBuilder` constructor: local service name (default "kafka-client") and 128-bit flag (default "true"). */
  function NewBuilder(c: TracingConfiguration): (b: Builder)
    ensures b.configuration == c
    ensures c.GetString(LocalServiceNameConfig).None? ==> b.localServiceName == "kafka-client"
    ensures c.GetString(LocalServiceNameConfig).Some? ==> b.localServiceName == c.GetString(LocalServiceNameConfig).value
    ensures c.GetString(TraceId128BitEnabledConfig).None? ==> b.traceId128Bit
    ensures c.GetString(TraceId128BitEnabledConfig).Some? ==>
              b.traceId128Bit == ParseBoolean(c.GetString(TraceId128BitEnabledConfig).value)
  {
    var localServiceName := c.GetStringOrDefault(LocalServiceNameConfig, Some(LocalServiceNameDefault)).value;
    var traceIdEnabledValue := c.GetStringOrDefault(TraceId128BitEnabledConfig, Some(TraceId128BitEnabledDefault)).value;
    Builder(c, localServiceName, ParseBoolean(traceIdEnabledValue))
  }

  /** An empty configuration builds a tracer that keeps every trace and has no Zipkin reporter. */
  lemma EmptyConfigurationDefaults(valueOf: string -> Option<FloatValue>)
    requires valueOf(SamplerRateDefault) == Some(Finite(1.0))
    ensures NewBuilder(TracingConfiguration(map[])).Build(valueOf)
            == Success(Tracing(None, 1.0, "kafka-client", true))
  {
    var c := TracingConfiguration(map[]);
    DefaultHasNoSender(c);
    DefaultSamplerRate(c, valueOf);
  }

  /** A Kafka sender type without any address, or a positive rate below 0.01, makes `build` throw. */
  lemma LibraryRejections(valueOf: string -> Option<FloatValue>)
    requires valueOf("0.005") == Some(Finite(0.005))
    ensures NewBuilder(TracingConfiguration(map[SenderTypeConfig := Str("KAFKA")])).Build(valueOf)
            == Failure(NullBootstrapServers)
    ensures NewBuilder(TracingConfiguration(map[SamplerRateConfig := Str("0.005")])).Build(valueOf)
            == Failure(IllegalSamplerRate(0.005))
  {
    var c := TracingConfiguration(map[SenderTypeConfig := Str("KAFKA")]);
    BootstrapPrecedence(c);
    var d := TracingConfiguration(map[SamplerRateConfig := Str("0.005")]);
    DefaultHasNoSender(d);
  }
}
