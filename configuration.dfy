/**
 * `brave.kafka.interceptor.TracingConfiguration`: typed, read-only lookups over
 * the untyped configuration map a Kafka client hands to its interceptors.
 * The map is a value here, so no accessor can change it.
 */
module Configuration {
  import opened Wrappers

  const SenderTypeConfig := "zipkin.sender.type"
  const SenderTypeDefault := "NONE"
  const HttpEndpointConfig := "zipkin.http.endpoint"
  const HttpEndpointDefault := "http://localhost:9411/api/v2/spans"
  const KafkaBootstrapServersConfig := "zipkin.kafka.bootstrap.servers"
  const LocalServiceNameConfig := "zipkin.local.service.name"
  const LocalServiceNameDefault := "kafka-client"
  const RemoteServiceNameConfig := "zipkin.remote.service.name"
  const RemoteServiceNameDefault := "kafka"
  const TraceId128BitEnabledConfig := "zipkin.trace.id.128bit.enabled"
  const TraceId128BitEnabledDefault := "true"
  const EncodingConfig := "zipkin.encoding"
  const EncodingDefault := "JSON"
  const SamplerRateConfig := "zipkin.sampler.rate"
  const SamplerRateDefault := "1.0F"

  /** Keys of the Kafka client's own settings (`CommonClientConfigs`, `ConsumerConfig`, `ProducerConfig`). */
  const BootstrapServersConfig := "bootstrap.servers"
  const ClientIdConfig := "client.id"
  const GroupIdConfig := "group.id"

  /**
   * A configuration value: a `String`, a list of strings (an `AbstractList`,
   * as `Arrays.asList` and `ArrayList` give), or any other object.
   */
  datatype ConfigValue = Str(s: string) | List(xs: seq<string>) | Other

  /** `String.join(",", xs)`. */
  function Join(xs: seq<string>): string {
    if |xs| == 0 then ""
    else if |xs| == 1 then xs[0]
    else xs[0] + "," + Join(xs[1..])
  }

  /** Cuts a string at every comma: the inverse of `Join`. */
  function Split(s: string): (r: seq<string>)
    ensures |r| >= 1
    decreases |s|
  {
    if ',' !in s then [s]
    else
      var i := IndexOfComma(s);
      [s[..i]] + Split(s[i + 1..])
  }

  function IndexOfComma(s: string): (i: nat)
    requires ',' in s
    ensures i < |s| && s[i] == ',' && ',' !in s[..i]
  {
    if s[0] == ',' then 0
    else
      assert ',' in s[1..] by { assert s == [s[0]] + s[1..]; }
      var j := IndexOfComma(s[1..]);
      assert s[..j + 1] == [s[0]] + s[1..][..j];
      j + 1
  }

  ghost predicate NoCommas(xs: seq<string>) {
    forall i :: 0 <= i < |xs| ==> ',' !in xs[i]
  }

  /** The first comma is the one with no comma before it. */
  lemma {:induction false} IndexOfCommaAt(s: string, k: nat)
    requires k < |s| && s[k] == ',' && forall j :: 0 <= j < k ==> s[j] != ','
    ensures ',' in s && IndexOfComma(s) == k
  {
    if k > 0 {
      assert s[1..][k - 1] == ',';
      IndexOfCommaAt(s[1..], k - 1);
    }
  }

  /** A string without commas, a comma and the rest splits into that string and the rest's pieces. */
  lemma SplitAfterFirst(a: string, b: string)
    requires ',' !in a
    ensures Split(a + "," + b) == [a] + Split(b)
  {
    var s := a + "," + b;
    assert forall j :: 0 <= j < |a| ==> s[j] == a[j];
    IndexOfCommaAt(s, |a|);
    assert s[..|a|] == a;
    assert s[|a| + 1..] == b;
  }

  /** Joining elements that contain no comma loses nothing: splitting gives them back. */
  lemma {:induction false} SplitJoin(xs: seq<string>)
    requires |xs| >= 1 && NoCommas(xs)
    ensures Split(Join(xs)) == xs
  {
    if |xs| > 1 {
      assert Join(xs) == xs[0] + "," + Join(xs[1..]);
      SplitAfterFirst(xs[0], Join(xs[1..]));
      SplitJoin(xs[1..]);
      assert xs == [xs[0]] + xs[1..];
    }
  }

  /** Joining the pieces of a split string gives the string back. */
  lemma {:induction false} JoinSplit(s: string)
    ensures Join(Split(s)) == s
    decreases |s|
  {
    if ',' in s {
      var i := IndexOfComma(s);
      JoinSplit(s[i + 1..]);
      var rest := Split(s[i + 1..]);
      assert ([s[..i]] + rest)[1..] == rest;
      assert s == s[..i] + "," + s[i + 1..];
    }
  }

  /** `TracingConfiguration`: wraps the map the client passed to `configure`. */
  datatype TracingConfiguration = TracingConfiguration(configs: map<string, ConfigValue>) {

    /** `getStringList`: a list value joined with commas, or `None` (`null`) for anything else. */
    function GetStringList(key: string): (r: Option<string>)
      ensures r.Some? <==> key in configs && configs[key].List?
      ensures r.Some? ==> r.value == Join(configs[key].xs)
      ensures r.Some? && |configs[key].xs| >= 1 && NoCommas(configs[key].xs) ==>
                Split(r.value) == configs[key].xs
    {
      if key in configs && configs[key].List? then
        SplitJoinIfPossible(configs[key].xs);
        Some(Join(configs[key].xs))
      else
        None
    }

    /** `getStringOrDefault`: a `String` value as it is stored, else `default` (which may be `null`). */
    function GetStringOrDefault(key: string, default: Option<string>): (r: Option<string>)
      ensures key in configs && configs[key].Str? ==> r == Some(configs[key].s)
      ensures !(key in configs && configs[key].Str?) ==> r == default
      ensures default.Some? ==> r.Some?
    {
      if key in configs && configs[key].Str? then Some(configs[key].s) else default
    }

    /** `getString`: `getStringOrDefault(key, null)`. */
    function GetString(key: string): (r: Option<string>)
      ensures r == GetStringOrDefault(key, None)
      ensures r.Some? <==> key in configs && configs[key].Str?
    {
      GetStringOrDefault(key, None)
    }

    /** `getKeySet`: the keys of the wrapped map. */
    function GetKeySet(): (r: set<string>)
      ensures forall key :: key in r <==> key in configs
    {
      configs.Keys
    }
  }

  lemma SplitJoinIfPossible(xs: seq<string>)
    ensures |xs| >= 1 && NoCommas(xs) ==> Split(Join(xs)) == xs
  {
    if |xs| >= 1 && NoCommas(xs) {
      SplitJoin(xs);
    }
  }

  /** No key answers both as a string and as a list. */
  lemma StringAndListExclusive(c: TracingConfiguration, key: string)
    ensures c.GetString(key).None? || c.GetStringList(key).None?
  {
  }

  /** A key outside the key set misses in every accessor. */
  lemma MissingKeyMisses(c: TracingConfiguration, key: string, default: Option<string>)
    requires key !in c.GetKeySet()
    ensures c.GetString(key) == None && c.GetStringList(key) == None
    ensures c.GetStringOrDefault(key, default) == default
  {
  }

  /** The cases `TracingConfigurationTest` checks. */
  lemma ConfigurationExamples()
    ensures TracingConfiguration(map["k" := Str("v")]).GetString("k") == Some("v")
    ensures TracingConfiguration(map[]).GetString("k1") == None
    ensures TracingConfiguration(map[]).GetStringOrDefault("k", Some("v")) == Some("v")
    ensures TracingConfiguration(map["k" := Str("v")]).GetStringOrDefault("k", Some("v1")) == Some("v")
    ensures TracingConfiguration(map["k" := List(["v", "v1"])]).GetStringList("k") == Some("v,v1")
    ensures TracingConfiguration(map[]).GetStringList("k") == None
  {
    var xs := ["v", "v1"];
    assert xs[1..] == ["v1"];
    assert Join(xs) == "v" + "," + "v1" == "v,v1";
  }
}
