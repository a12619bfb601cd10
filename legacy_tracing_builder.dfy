/**
 * `no.sysco.middleware.kafka.interceptor.zipkin.TracingBuilder`, the older copy
 * of the construction policy. It reads the same keys with the same defaults,
 * also keeps the remote service name, and goes through the older configuration
 * accessor, whose list lookup throws on a value that is not a list. The builds
 * as written (`Build`) can therefore throw that cast error; the builds with the
 * corrected bootstrap lookup (`CorrectedBuild`) behave as the current version.
 */
module LegacyTracingBuilder {
  import opened Wrappers
  import opened Configuration
  import L = LegacyConfiguration
  import opened TracingBuilder

  /** What the older builder can throw: an exception of the current builder, or the failed cast. */
  datatype LegacyBuildError = Thrown(error: BuildError) | CastFailed(cast: L.CastError)

  /** An outcome of the current builder, as an outcome of the older one. */
  function Lift<T>(r: Result<T, BuildError>): (l: Result<T, LegacyBuildError>)
    ensures r.Success? <==> l.Success?
    ensures r.Success? ==> l.value == r.value
    ensures r.Failure? ==> l.error == Thrown(r.error)
  {
    match r
    case Success(v) => Success(v)
    case Failure(err) => Failure(Thrown(err))
  }

  /** `EncodingBuilder`. */
  function LegacyEncodingOf(c: L.TracingConfiguration): (r: Result<Encoding, BuildError>)
    ensures r == EncodingOf(c.Current())
  {
    L.ScalarLookupsAgree(c, EncodingConfig, Some(EncodingDefault));
    EncodingValueOf(c.GetStringOrDefault(EncodingConfig, Some(EncodingDefault)).value)
  }

  /** `HttpSenderBuilder`. */
  function LegacyHttpEndpoint(c: L.TracingConfiguration): (r: string)
    ensures r == HttpEndpoint(c.Current())
  {
    L.ScalarLookupsAgree(c, HttpEndpointConfig, Some(HttpEndpointDefault));
    c.GetStringOrDefault(HttpEndpointConfig, Some(HttpEndpointDefault)).value
  }

  /**
   * `KafkaSenderBuilder` as written: the list lookup is a Java argument, so it
   * runs, and can throw, even when a string setting makes it unnecessary.
   */
  function KafkaBootstrapServersAsWritten(c: L.TracingConfiguration): (r: Result<Option<string>, L.CastError>)
    ensures r.Failure? <==> BootstrapServersConfig in c.configs && !c.configs[BootstrapServersConfig].List?
  {
    match c.GetStringList(BootstrapServersConfig)
    case Failure(err) => Failure(err)
    case Success(list) =>
      Success(c.GetStringOrDefault(KafkaBootstrapServersConfig,
        c.GetStringOrDefault(BootstrapServersConfig, list)))
  }

  /**
   * The client's `bootstrap.servers` given as one string, the case
   * `shouldBuildKafkaSenderWithDefault` expects to yield a Kafka sender, throws
   * instead; so does any Kafka configuration whose `bootstrap.servers` is a string,
   * even with `zipkin.kafka.bootstrap.servers` set.
   */
  lemma ScalarBootstrapServersThrows()
    ensures KafkaBootstrapServersAsWritten(L.TracingConfiguration(map[
      SenderTypeConfig := Str("KAFKA"), BootstrapServersConfig := Str("localhost:9092")]))
      == Failure(L.ClassCastException(BootstrapServersConfig))
    ensures KafkaBootstrapServersAsWritten(L.TracingConfiguration(map[
      SenderTypeConfig := Str("KAFKA"), KafkaBootstrapServersConfig := Str("localhost:9092"),
      BootstrapServersConfig := Str("localhost:9092")]))
      == Failure(L.ClassCastException(BootstrapServersConfig))
  {
  }

  /**
   * `KafkaSenderBuilder` as evidently intended: each fallback is consulted only
   * when the setting before it is absent, so the list lookup no longer throws.
   */
  function LegacyKafkaBootstrapServers(c: L.TracingConfiguration): (r: Option<string>)
  {
    match c.GetStringOrDefault(KafkaBootstrapServersConfig, None)
    case Some(servers) => Some(servers)
    case None =>
      match c.GetStringOrDefault(BootstrapServersConfig, None)
      case Some(servers) => Some(servers)
      case None =>
        match c.GetStringList(BootstrapServersConfig)
        case Success(list) => list
        case Failure(_) => None
  }

  /** The corrected lookup follows the same precedence as the current version. */
  lemma CorrectedBootstrapPrecedence(c: L.TracingConfiguration)
    ensures LegacyKafkaBootstrapServers(c) == TracingBuilder.KafkaBootstrapServers(c.Current())
    ensures KafkaBootstrapServersAsWritten(c).Success? ==> KafkaBootstrapServersAsWritten(c).value == LegacyKafkaBootstrapServers(c)
  {
    TracingBuilder.BootstrapPrecedence(c.Current());
  }

  /** Where the code as written throws, the corrected lookup answers the string setting. */
  lemma CorrectedScalarBootstrapServers()
    ensures LegacyKafkaBootstrapServers(L.TracingConfiguration(map[
      SenderTypeConfig := Str("KAFKA"), BootstrapServersConfig := Str("localhost:9092")]))
      == Some("localhost:9092")
  {
  }

  /** The older `SenderBuilder`. */
  datatype LegacySenderBuilder = LegacySenderBuilder(senderType: SenderType, configuration: L.TracingConfiguration) {

    /**
     * `SenderBuilder.build` as written: encoding first, then the sender; for
     * `KAFKA` the eager lookup runs its cast before the sender is made.
     */
    function Build(): (r: Result<Option<Sender>, LegacyBuildError>)
      ensures LegacyEncodingOf(configuration).Failure? ==> r == Failure(Thrown(LegacyEncodingOf(configuration).error))
      ensures LegacyEncodingOf(configuration).Success? && senderType == KAFKA && KafkaBootstrapServersAsWritten(configuration).Failure? ==>
        r == Failure(CastFailed(KafkaBootstrapServersAsWritten(configuration).error))
      ensures !(LegacyEncodingOf(configuration).Success? && senderType == KAFKA && KafkaBootstrapServersAsWritten(configuration).Failure?) ==>
        r == Lift(CorrectedBuild())
    {
      CorrectedBootstrapPrecedence(configuration);
      match LegacyEncodingOf(configuration)
      case Failure(err) => Failure(Thrown(err))
      case Success(encoding) =>
        match senderType
        case HTTP => Success(Some(HttpSender(LegacyHttpEndpoint(configuration), encoding)))
        case KAFKA =>
          (match KafkaBootstrapServersAsWritten(configuration)
           case Failure(cast) => Failure(CastFailed(cast))
           case Success(servers) =>
             match KafkaSenderOf(servers, encoding)
             case Failure(err) => Failure(Thrown(err))
             case Success(sender) => Success(Some(sender)))
        case NONE => Success(None)
    }

    /** `SenderBuilder.build` with the corrected Kafka lookup: the current version's build. */
    function CorrectedBuild(): (r: Result<Option<Sender>, BuildError>)
      ensures r == SenderBuilder(senderType, configuration.Current()).Build()
    {
      CorrectedBootstrapPrecedence(configuration);
      match LegacyEncodingOf(configuration)
      case Failure(err) => Failure(err)
      case Success(encoding) =>
        match senderType
        case HTTP => Success(Some(HttpSender(LegacyHttpEndpoint(configuration), encoding)))
        case KAFKA =>
          (match KafkaSenderOf(LegacyKafkaBootstrapServers(configuration), encoding)
           case Failure(err) => Failure(err)
           case Success(sender) => Success(Some(sender)))
        case NONE => Success(None)
    }
  }

  /** The `SenderBuilder` constructor: `SenderType.valueOf` of the configured name. */
  function NewLegacySenderBuilder(c: L.TracingConfiguration): (r: Result<LegacySenderBuilder, BuildError>)
    ensures NewSenderBuilder(c.Current()).Failure? <==> r.Failure?
    ensures r.Failure? ==> r.error == NewSenderBuilder(c.Current()).error
    ensures r.Success? ==> r.value.configuration == c && r.value.senderType == NewSenderBuilder(c.Current()).value.senderType
  {
    L.ScalarLookupsAgree(c, SenderTypeConfig, Some(SenderTypeDefault));
    match SenderTypeValueOf(c.GetStringOrDefault(SenderTypeConfig, Some(SenderTypeDefault)).value)
    case Failure(err) => Failure(err)
    case Success(t) => Success(LegacySenderBuilder(t, c))
  }

  /** `SamplerBuilder`. */
  function LegacySamplerRate(c: L.TracingConfiguration, valueOf: string -> Option<FloatValue>): (r: Result<real, BuildError>)
    ensures r == SamplerRate(c.Current(), valueOf)
  {
    L.ScalarLookupsAgree(c, SamplerRateConfig, Some(SamplerRateDefault));
    var text := c.GetStringOrDefault(SamplerRateConfig, Some(SamplerRateDefault)).value;
    match valueOf(text)
    case None => Failure(NumberFormatException(text))
    case Some(f) => Success(ValidatedRate(f))
  }

  /** The older `TracingBuilder`: it also keeps the remote service name. */
  datatype LegacyBuilder = LegacyBuilder(
    configuration: L.TracingConfiguration,
    localServiceName: string,
    remoteServiceName: string,
    traceId128Bit: bool)
  {
    /** `build` as written: sender, then sampler; a reporter only when there is a sender. */
    function Build(valueOf: string -> Option<FloatValue>): (r: Result<Tracing, LegacyBuildError>)
      ensures NewLegacySenderBuilder(configuration).Failure? ==> r == Failure(Thrown(NewLegacySenderBuilder(configuration).error))
      ensures NewLegacySenderBuilder(configuration).Success? && NewLegacySenderBuilder(configuration).value.Build().Failure? ==>
        r == Failure(NewLegacySenderBuilder(configuration).value.Build().error)
      ensures r.Success? ==> r.value.localServiceName == localServiceName && r.value.traceId128Bit == traceId128Bit
    {
      match NewLegacySenderBuilder(configuration)
      case Failure(err) => Failure(Thrown(err))
      case Success(senderBuilder) =>
        match senderBuilder.Build()
        case Failure(err) => Failure(err)
        case Success(sender) =>
          var reporter := if sender.Some? then Some(AsyncReporter(sender.value)) else None;
          match LegacySamplerRate(configuration, valueOf)
          case Failure(err) => Failure(Thrown(err))
          case Success(rate) =>
            match CreateSampler(rate)
            case Failure(err) => Failure(Thrown(err))
            case Success(sampler) => Success(Tracing(reporter, sampler, localServiceName, traceId128Bit))
    }

    /** `build` with the corrected Kafka lookup: the current version's build. */
    function CorrectedBuild(valueOf: string -> Option<FloatValue>): (r: Result<Tracing, BuildError>)
      ensures r == Builder(configuration.Current(), localServiceName, traceId128Bit).Build(valueOf)
    {
      match NewLegacySenderBuilder(configuration)
      case Failure(err) => Failure(err)
      case Success(senderBuilder) =>
        match senderBuilder.CorrectedBuild()
        case Failure(err) => Failure(err)
        case Success(sender) =>
          var reporter := if sender.Some? then Some(AsyncReporter(sender.value)) else None;
          match LegacySamplerRate(configuration, valueOf)
          case Failure(err) => Failure(err)
          case Success(rate) =>
            match CreateSampler(rate)
            case Failure(err) => Failure(err)
            case Success(sampler) => Success(Tracing(reporter, sampler, localServiceName, traceId128Bit))
    }
  }

  /** The constructor: local and remote service names and the 128-bit flag read with `Boolean.valueOf`. */
  function NewLegacyBuilder(c: L.TracingConfiguration): (b: LegacyBuilder)
    ensures NewBuilder(c.Current()) == Builder(c.Current(), b.localServiceName, b.traceId128Bit)
    ensures c.GetString(RemoteServiceNameConfig).None? ==> b.remoteServiceName == "kafka"
    ensures c.GetString(RemoteServiceNameConfig).Some? ==> b.remoteServiceName == c.GetString(RemoteServiceNameConfig).value
    ensures b.configuration == c
  {
    L.ScalarLookupsAgree(c, LocalServiceNameConfig, Some(LocalServiceNameDefault));
    L.ScalarLookupsAgree(c, TraceId128BitEnabledConfig, Some(TraceId128BitEnabledDefault));
    var localServiceName := c.GetStringOrDefault(LocalServiceNameConfig, Some(LocalServiceNameDefault)).value;
    var remoteServiceName := c.GetStringOrDefault(RemoteServiceNameConfig, Some(RemoteServiceNameDefault)).value;
    var traceIdEnabledValue := c.GetStringOrDefault(TraceId128BitEnabledConfig, Some(TraceId128BitEnabledDefault)).value;
    LegacyBuilder(c, localServiceName, remoteServiceName, ParseBoolean(traceIdEnabledValue))
  }

  /** With the corrected lookup, both versions build the same tracer from the same map. */
  lemma BothVersionsBuildAlike(configs: map<string, ConfigValue>, valueOf: string -> Option<FloatValue>)
    ensures NewLegacyBuilder(L.TracingConfiguration(configs)).CorrectedBuild(valueOf)
            == NewBuilder(TracingConfiguration(configs)).Build(valueOf)
  {
  }

  /** The configurations on which the eager cast breaks the older build: a Kafka sender, a valid encoding, a non-list `bootstrap.servers`. */
  predicate CastBreaksBuild(c: L.TracingConfiguration) {
    && NewLegacySenderBuilder(c).Success?
    && NewLegacySenderBuilder(c).value.senderType == KAFKA
    && LegacyEncodingOf(c).Success?
    && KafkaBootstrapServersAsWritten(c).Failure?
  }

  /**
   * The older build as written agrees with the current build exactly where the
   * eager cast does not break it; where it does, it throws `ClassCastException`.
   */
  lemma AsWrittenBuildsAlikeUnlessCastFails(configs: map<string, ConfigValue>, valueOf: string -> Option<FloatValue>)
    ensures var c := L.TracingConfiguration(configs);
      NewLegacyBuilder(c).Build(valueOf) == Lift(NewBuilder(TracingConfiguration(configs)).Build(valueOf))
      <==> !CastBreaksBuild(c)
    ensures var c := L.TracingConfiguration(configs);
      CastBreaksBuild(c) ==> NewLegacyBuilder(c).Build(valueOf) == Failure(CastFailed(L.ClassCastException(BootstrapServersConfig)))
  {
    var c := L.TracingConfiguration(configs);
    var b := NewLegacyBuilder(c);
    BothVersionsBuildAlike(configs, valueOf);
    if NewLegacySenderBuilder(c).Success? {
      var sb := NewLegacySenderBuilder(c).value;
      assert sb.configuration == c;
    }
  }

  /**
   * The Kafka configuration with a string `bootstrap.servers`: the older build
   * as written throws, and the corrected build makes a Kafka sender at that address.
   */
  lemma ScalarBootstrapServersBuild(valueOf: string -> Option<FloatValue>)
    requires valueOf(SamplerRateDefault) == Some(Finite(1.0))
    ensures var c := L.TracingConfiguration(map[
      SenderTypeConfig := Str("KAFKA"), BootstrapServersConfig := Str("localhost:9092")]);
      && NewLegacyBuilder(c).Build(valueOf) == Failure(CastFailed(L.ClassCastException(BootstrapServersConfig)))
      && NewLegacyBuilder(c).CorrectedBuild(valueOf)
         == Success(Tracing(Some(AsyncReporter(KafkaSender("localhost:9092", JSON))), 1.0, "kafka-client", true))
  {
    var configs := map[SenderTypeConfig := Str("KAFKA"), BootstrapServersConfig := Str("localhost:9092")];
    var c := L.TracingConfiguration(configs);
    ScalarBootstrapServersThrows();
    CorrectedScalarBootstrapServers();
    AsWrittenBuildsAlikeUnlessCastFails(configs, valueOf);
  }
}
